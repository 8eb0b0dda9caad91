/** A whole ClassicWorld file: its value has the right shape, and saving and loading it
    gives the level back. */
module ClassicWorldFile {
  import opened Blocks
  import opened NbtTypes
  import opened NbtWriter
  import opened NbtReader
  import opened NbtRoundTrip
  import opened ClassicWorld
  import opened Options

  /** strings.ToLower on ASCII. */
  function AsciiLower(t: Text): (r: Text)
    ensures |r| == |t|
    ensures forall k :: 0 <= k < |t| ==> r[k] == if 65 <= t[k] <= 90 then t[k] + 32 else t[k]
  {
    seq(|t|, k requires 0 <= k < |t| => if 65 <= t[k] <= 90 then t[k] + 32 else t[k])
  }

  /** The parts of a level that a file holds, numbers already in the units of the file. */
  datatype LevelData = LevelData(
    name: Text, uuid: seq<byte>, width: int, height: int, length: int, timeCreated: int,
    spawnX: int, spawnY: int, spawnZ: int, spawnH: byte, spawnP: byte, blocks: seq<byte>,
    metadata: seq<Entry>, metadataCPE: seq<Entry>, clickDistance: int,
    skyColor: NullRGB, cloudColor: NullRGB, fogColor: NullRGB, ambientColor: NullRGB, diffuseColor: NullRGB,
    texturePack: Text, sideBlock: byte, edgeBlock: byte, edgeHeight: int, weather: byte)

  function SpawnValue(l: LevelData): Value {
    StructValue([ShortValue(l.spawnX), ShortValue(l.spawnY), ShortValue(l.spawnZ), ByteValue(l.spawnH),
      ByteValue(l.spawnP)])
  }

  function ColorsValue(l: LevelData): Value {
    StructValue([
      IntValue(1), ColorValue(EncodeColor(l.skyColor)), ColorValue(EncodeColor(l.cloudColor)),
      ColorValue(EncodeColor(l.fogColor)), ColorValue(EncodeColor(l.ambientColor)),
      ColorValue(EncodeColor(l.diffuseColor))])
  }

  function AppearanceValue(l: LevelData): Value {
    StructValue([IntValue(1), StringValue(l.texturePack), ByteValue(l.sideBlock), ByteValue(l.edgeBlock),
      ShortValue(l.edgeHeight)])
  }

  function DefsValue(defs: seq<Entry>): Value {
    StructValue([IntValue(1), MapValue(defs)])
  }

  function CpeValue(l: LevelData, defs: seq<Entry>): Value {
    StructValue([
      MapValue(l.metadataCPE), StructValue([ShortValue(1), ShortValue(l.clickDistance)]), ColorsValue(l),
      AppearanceValue(l), StructValue([IntValue(1), ByteValue(l.weather)]), DefsValue(defs)])
  }

  function MetadataValue(l: LevelData, defs: seq<Entry>): Value {
    StructValue([MapValue(l.metadata), CpeValue(l, defs)])
  }

  /** What Save hands to the encoder. */
  function LevelValue(l: LevelData, defs: seq<Entry>): Value {
    StructValue([
      ByteValue(1), StringValue(l.name), ByteArrayValue(l.uuid), ShortValue(l.width), ShortValue(l.height),
      ShortValue(l.length), LongValue(l.timeCreated), SpawnValue(l), ByteArrayValue(l.blocks), MetadataValue(l, defs)])
  }

  // ------------------------------------------------------------------
  // The shapes are supported: ignoring case, their field names are distinct.

  ghost predicate DistinctNames(fields: seq<Field>) {
    && (forall k :: 0 <= k < |fields| ==>
          && (fields[k].anonymous ==> fields[k].shape.MapShape? && k == FindCatchAll(fields))
          && fields[k].tag == [] && 0 < |fields[k].name| < MAX_TEXT)
    && (forall i, j :: 0 <= i < j < |fields| ==> AsciiLower(fields[i].name) != AsciiLower(fields[j].name))
  }

  lemma DistinctSupported(fields: seq<Field>)
    requires DistinctNames(fields)
    ensures SupportedFields(AsciiLower, fields)
  {
    NamesSuffice(AsciiLower, fields);
  }

  /** A number that tells the names apart: length, first two and last letter, in lower case. */
  function CodeOf(t: Text): int {
    var l := AsciiLower(t);
    if |l| == 0 then 0 else
      ((|l| * 1000 + l[0]) * 1000 + l[if |l| > 1 then 1 else 0]) * 1000 + l[|l| - 1]
  }

  function LowerLetter(c: char): int {
    if 'A' <= c <= 'Z' then c as int + 32 else c as int % 256
  }

  lemma Coded(s: string, code: int)
    requires |s| > 0
    requires code == ((|s| * 1000 + LowerLetter(s[0])) * 1000 + LowerLetter(s[if |s| > 1 then 1 else 0])) * 1000
                     + LowerLetter(s[|s| - 1])
    requires s[0] < 128 as char && s[if |s| > 1 then 1 else 0] < 128 as char && s[|s| - 1] < 128 as char
    ensures CodeOf(T(s)) == code
  {
    var l := AsciiLower(T(s));
    var second := if |s| > 1 then 1 else 0;
    assert l[0] == LowerLetter(s[0]) && l[second] == LowerLetter(s[second]) && l[|s| - 1] == LowerLetter(s[|s| - 1]);
  }

  lemma CodesSuffice(fields: seq<Field>, codes: seq<int>)
    requires |fields| == |codes|
    requires forall k :: 0 <= k < |fields| ==> CodeOf(fields[k].name) == codes[k]
    requires forall i, j :: 0 <= i < j < |codes| ==> codes[i] != codes[j]
    requires forall k :: 0 <= k < |fields| ==>
               && (fields[k].anonymous ==> fields[k].shape.MapShape? && k == FindCatchAll(fields))
               && fields[k].tag == [] && 0 < |fields[k].name| < MAX_TEXT
    ensures SupportedFields(AsciiLower, fields)
  {
    forall i, j | 0 <= i < j < |fields|
      ensures AsciiLower(fields[i].name) != AsciiLower(fields[j].name)
    {
      assert CodeOf(fields[i].name) != CodeOf(fields[j].name);
    }
    DistinctSupported(fields);
  }

  lemma SpawnNames()
    ensures SupportedFields(AsciiLower, SPAWN.fields)
  {
    hide AsciiLower, CodeOf, T;
    Coded("X", 1120120120);
    Coded("Y", 1121121121);
    Coded("Z", 1122122122);
    Coded("H", 1104104104);
    Coded("P", 1112112112);
    CodesSuffice(SPAWN.fields, [1120120120, 1121121121, 1122122122, 1104104104, 1112112112]);
  }

  lemma ClickDistanceNames()
    ensures SupportedFields(AsciiLower, CLICK_DISTANCE.fields)
  {
    hide AsciiLower, CodeOf, T;
    Coded("ExtensionVersion", 16101120110);
    Coded("Distance", 8100105101);
    CodesSuffice(CLICK_DISTANCE.fields, [16101120110, 8100105101]);
  }

  lemma ColorNames()
    ensures SupportedFields(AsciiLower, COLOR.fields)
  {
    hide AsciiLower, CodeOf, T;
    Coded("R", 1114114114);
    Coded("G", 1103103103);
    Coded("B", 1098098098);
    CodesSuffice(COLOR.fields, [1114114114, 1103103103, 1098098098]);
  }

  lemma EnvColorsNames()
    ensures SupportedFields(AsciiLower, ENV_COLORS.fields)
  {
    hide AsciiLower, CodeOf, T;
    Coded("ExtensionVersion", 16101120110);
    Coded("Sky", 3115107121);
    Coded("Cloud", 5099108100);
    Coded("Fog", 3102111103);
    Coded("Ambient", 7097109116);
    Coded("Sunlight", 8115117116);
    CodesSuffice(ENV_COLORS.fields, [16101120110, 3115107121, 5099108100, 3102111103, 7097109116, 8115117116]);
  }

  lemma EnvMapAppearanceNames()
    ensures SupportedFields(AsciiLower, ENV_MAP_APPEARANCE.fields)
  {
    hide AsciiLower, CodeOf, T;
    Coded("ExtensionVersion", 16101120110);
    Coded("TextureURL", 10116101108);
    Coded("SideBlock", 9115105107);
    Coded("EdgeBlock", 9101100107);
    Coded("SideLevel", 9115105108);
    CodesSuffice(ENV_MAP_APPEARANCE.fields, [16101120110, 10116101108, 9115105107, 9101100107, 9115105108]);
  }

  lemma EnvWeatherTypeNames()
    ensures SupportedFields(AsciiLower, ENV_WEATHER_TYPE.fields)
  {
    hide AsciiLower, CodeOf, T;
    Coded("ExtensionVersion", 16101120110);
    Coded("WeatherType", 11119101101);
    CodesSuffice(ENV_WEATHER_TYPE.fields, [16101120110, 11119101101]);
  }

  const BLOCK_DEFINITION_CODES: seq<int> := [
    2105100100, 4110097101, 5115112100, 11099111101, 8116101115, 14116114116,
    10102117116, 9119097100, 5115104101, 9098108119, 3102111103, 6099111115]

  lemma BlockDefinitionNames()
    ensures SupportedFields(AsciiLower, BLOCK_DEFINITION.fields)
  {
    hide AsciiLower, CodeOf, T, BLOCK_DEFINITION, BLOCK_DEFINITION_CODES;
    BlockDefinitionCodes();
    BlockDefinitionTags();
    DistinctBlockCodes();
    CodesSuffice(BLOCK_DEFINITION.fields, BLOCK_DEFINITION_CODES);
  }

  lemma BlockDefinitionCodes()
    ensures BLOCK_DEFINITION.StructShape? && |BLOCK_DEFINITION.fields| == |BLOCK_DEFINITION_CODES|
    ensures forall k :: 0 <= k < |BLOCK_DEFINITION.fields| ==>
              CodeOf(BLOCK_DEFINITION.fields[k].name) == BLOCK_DEFINITION_CODES[k]
  {
    hide AsciiLower, CodeOf, T;
    Coded("ID", 2105100100);
    Coded("Name", 4110097101);
    Coded("Speed", 5115112100);
    Coded("CollideType", 11099111101);
    Coded("Textures", 8116101115);
    Coded("TransmitsLight", 14116114116);
    Coded("FullBright", 10102117116);
    Coded("WalkSound", 9119097100);
    Coded("Shape", 5115104101);
    Coded("BlockDraw", 9098108119);
    Coded("Fog", 3102111103);
    Coded("Coords", 6099111115);
  }

  lemma BlockDefinitionTags()
    ensures forall k :: 0 <= k < |BLOCK_DEFINITION.fields| ==>
              var f := BLOCK_DEFINITION.fields[k]; !f.anonymous && f.tag == [] && 0 < |f.name| < MAX_TEXT
  {
    hide T;
  }

  lemma DistinctBlockCodes()
    ensures forall i, j :: 0 <= i < j < |BLOCK_DEFINITION_CODES| ==>
            BLOCK_DEFINITION_CODES[i] != BLOCK_DEFINITION_CODES[j]
  {
  }

  lemma BlockDefinitionsNames()
    ensures SupportedFields(AsciiLower, BLOCK_DEFINITIONS.fields)
  {
    hide AsciiLower, CodeOf, T;
    Coded("ExtensionVersion", 16101120110);
    Coded("CwBlockDefinitionMap", 20099119112);
    CodesSuffice(BLOCK_DEFINITIONS.fields, [16101120110, 20099119112]);
  }

  lemma CpeNames()
    ensures SupportedFields(AsciiLower, CPE.fields)
  {
    hide AsciiLower, CodeOf, T;
    Coded("CwMetadataMap", 13099119112);
    Coded("ClickDistance", 13099108101);
    Coded("EnvColors", 9101110115);
    Coded("EnvMapAppearance", 16101110101);
    Coded("EnvWeatherType", 14101110101);
    Coded("BlockDefinitions", 16098108115);
    CodesSuffice(CPE.fields, [13099119112, 13099108101, 9101110115, 16101110101, 14101110101, 16098108115]);
  }

  lemma MetadataNames()
    ensures SupportedFields(AsciiLower, METADATA.fields)
  {
    hide AsciiLower, CodeOf, T;
    Coded("CwMetadataMap", 13099119112);
    Coded("CPE", 3099112101);
    CodesSuffice(METADATA.fields, [13099119112, 3099112101]);
  }

  const LEVEL_CODES: seq<int> := [
    13102111110, 4110097101, 4117117100, 1120120120, 1121121121, 1122122122, 11116105100, 5115112110, 10098108121,
    8109101097]

  lemma LevelNames()
    ensures SupportedFields(AsciiLower, LEVEL.fields)
  {
    hide AsciiLower, CodeOf, T, LEVEL, LEVEL_CODES;
    LevelCodes();
    LevelTags();
    DistinctLevelCodes();
    CodesSuffice(LEVEL.fields, LEVEL_CODES);
  }

  lemma LevelCodes()
    ensures LEVEL.StructShape? && |LEVEL.fields| == |LEVEL_CODES|
    ensures forall k :: 0 <= k < |LEVEL.fields| ==> CodeOf(LEVEL.fields[k].name) == LEVEL_CODES[k]
  {
    hide AsciiLower, CodeOf, T, SPAWN, METADATA;
    Coded("FormatVersion", 13102111110);
    Coded("Name", 4110097101);
    Coded("UUID", 4117117100);
    Coded("X", 1120120120);
    Coded("Y", 1121121121);
    Coded("Z", 1122122122);
    Coded("TimeCreated", 11116105100);
    Coded("Spawn", 5115112110);
    Coded("BlockArray", 10098108121);
    Coded("Metadata", 8109101097);
  }

  lemma LevelTags()
    ensures forall k :: 0 <= k < |LEVEL.fields| ==>
              var f := LEVEL.fields[k]; !f.anonymous && f.tag == [] && 0 < |f.name| < MAX_TEXT
  {
    hide T, SPAWN, METADATA;
  }

  lemma DistinctLevelCodes()
    ensures forall i, j :: 0 <= i < j < |LEVEL_CODES| ==> LEVEL_CODES[i] != LEVEL_CODES[j]
  {
  }

  lemma RootNames()
    ensures SupportedFields(AsciiLower, ROOT.fields)
  {
    hide AsciiLower, CodeOf, T;
    Coded("ClassicWorld", 12099108100);
    CodesSuffice(ROOT.fields, [12099108100]);
  }

  lemma StructSupported(fields: seq<Field>)
    requires SupportedFields(AsciiLower, fields)
    requires forall k :: 0 <= k < |fields| ==> Supported(AsciiLower, fields[k].shape)
    ensures Supported(AsciiLower, StructShape(fields))
  {
  }

  lemma DefsSupported()
    ensures Supported(AsciiLower, BLOCK_DEFINITION) && Supported(AsciiLower, BLOCK_DEFINITIONS)
  {
    hide SupportedFields, T;
    BlockDefinitionNames();
    BlockDefinitionsNames();
    StructSupported(BLOCK_DEFINITION.fields);
    StructSupported(BLOCK_DEFINITIONS.fields);
  }

  lemma EnvSupported()
    ensures Supported(AsciiLower, ENV_COLORS) && Supported(AsciiLower, ENV_MAP_APPEARANCE)
    ensures Supported(AsciiLower, ENV_WEATHER_TYPE) && Supported(AsciiLower, CLICK_DISTANCE)
  {
    hide SupportedFields, T;
    ColorNames();
    EnvColorsNames();
    EnvMapAppearanceNames();
    EnvWeatherTypeNames();
    ClickDistanceNames();
    StructSupported(COLOR.fields);
    StructSupported(ENV_COLORS.fields);
    StructSupported(ENV_MAP_APPEARANCE.fields);
    StructSupported(ENV_WEATHER_TYPE.fields);
    StructSupported(CLICK_DISTANCE.fields);
  }

  lemma CpeSupported()
    ensures Supported(AsciiLower, CPE) && Supported(AsciiLower, METADATA)
  {
    hide SupportedFields, T, BLOCK_DEFINITIONS, ENV_COLORS, ENV_MAP_APPEARANCE, ENV_WEATHER_TYPE, CLICK_DISTANCE;
    DefsSupported();
    EnvSupported();
    CpeNames();
    MetadataNames();
    StructSupported(CPE.fields);
    StructSupported(METADATA.fields);
  }

  lemma LevelSupported()
    ensures Supported(AsciiLower, LEVEL)
  {
    hide SupportedFields, T, METADATA;
    CpeSupported();
    SpawnNames();
    LevelNames();
    StructSupported(SPAWN.fields);
    StructSupported(LEVEL.fields);
  }

  // ------------------------------------------------------------------
  // The values have their shapes and fit.

  /** Good: of the right type and small enough to be written. */
  ghost predicate Good(shape: Shape, v: Value) {
    HasShape(shape, v) && Fits(AsciiLower, shape, v)
  }

  lemma StructGood(fields: seq<Field>, values: seq<Value>)
    requires |fields| == |values|
    requires forall k :: 0 <= k < |fields| ==>
               && Good(fields[k].shape, values[k])
               && (fields[k].anonymous ==> KeysApart(AsciiLower, fields, MapEntries(values[k])))
    ensures Good(StructShape(fields), StructValue(values))
  {
  }

  /** The entries of an embedded map are written and found again. */
  ghost predicate GoodEntries(fields: seq<Field>, elem: Shape, entries: seq<Entry>) {
    && GoodKeys(entries) && KeysApart(AsciiLower, fields, entries)
    && forall k :: 0 <= k < |entries| ==> Good(elem, entries[k].value)
  }

  /** The numbers of a level are in the ranges of the file's types, and its metadata can be written. */
  ghost predicate StorableLevel(l: LevelData) {
    && |l.name| < MAX_TEXT && |l.uuid| < MAX_LENGTH && |l.blocks| < MAX_LENGTH
    && Int16(l.width) && Int16(l.height) && Int16(l.length) && Int64(l.timeCreated)
    && Int16(l.spawnX) && Int16(l.spawnY) && Int16(l.spawnZ)
    && GoodEntries(METADATA.fields, DynamicShape, l.metadata)
    && GoodEntries(CPE.fields, DynamicShape, l.metadataCPE)
    && Int16(l.clickDistance) && |l.texturePack| < MAX_TEXT && Int16(l.edgeHeight)
  }

  lemma PlainGood(shape: Shape, v: Value)
    requires HasPlainShape(shape, v) && FitsPlain(v)
    ensures Good(shape, v)
  {
  }

  lemma MapGood(fields: seq<Field>, elem: Shape, entries: seq<Entry>)
    requires GoodEntries(fields, elem, entries)
    ensures Good(MapShape(elem), MapValue(entries))
  {
  }

  lemma ColorGood(c: NullRGB)
    ensures Good(COLOR, ColorValue(EncodeColor(c)))
  {
    hide T;
    StructGood(COLOR.fields, ColorValue(EncodeColor(c)).values);
  }

  lemma AppearanceGood(l: LevelData)
    requires |l.texturePack| < MAX_TEXT && Int16(l.edgeHeight)
    ensures Good(ENV_MAP_APPEARANCE, AppearanceValue(l))
  {
    hide T;
    StructGood(ENV_MAP_APPEARANCE.fields, AppearanceValue(l).values);
  }

  lemma WeatherGood(l: LevelData)
    ensures Good(ENV_WEATHER_TYPE, StructValue([IntValue(1), ByteValue(l.weather)]))
  {
    hide T;
    StructGood(ENV_WEATHER_TYPE.fields, [IntValue(1), ByteValue(l.weather)]);
  }

  lemma ClickGood(l: LevelData)
    requires Int16(l.clickDistance)
    ensures Good(CLICK_DISTANCE, StructValue([ShortValue(1), ShortValue(l.clickDistance)]))
  {
    hide T;
    StructGood(CLICK_DISTANCE.fields, [ShortValue(1), ShortValue(l.clickDistance)]);
  }

  lemma ColorsGood(l: LevelData)
    ensures Good(ENV_COLORS, ColorsValue(l))
  {
    hide T, COLOR, ColorValue, EncodeColor;
    ColorGood(l.skyColor);
    ColorGood(l.cloudColor);
    ColorGood(l.fogColor);
    ColorGood(l.ambientColor);
    ColorGood(l.diffuseColor);
    PlainGood(IntShape, IntValue(1));
    hide Good;
    StructGood(ENV_COLORS.fields, ColorsValue(l).values);
  }

  lemma SpawnGood(l: LevelData)
    requires Int16(l.spawnX) && Int16(l.spawnY) && Int16(l.spawnZ)
    ensures Good(SPAWN, SpawnValue(l))
  {
    hide T;
    StructGood(SPAWN.fields, SpawnValue(l).values);
  }

  lemma DefGood(floats: Floats, i: nat, def: BlockDefinition, d: CwBlockDefinition)
    requires SingleBits(floats) && Storable(def) && Encodes(floats, i, def, d)
    ensures Good(BLOCK_DEFINITION, DefValue(d))
  {
    hide T, Encodes, Good;
    EncodedTextures(floats, i, def, d);
    DefPartsGood(d);
    StructGood(BLOCK_DEFINITION.fields, DefValue(d).values);
  }

  lemma DefPartsGood(d: CwBlockDefinition)
    requires |d.name| < MAX_TEXT && 0 <= d.speed < 0x1_0000_0000
    requires |d.textures| < MAX_LENGTH && |d.fog| < MAX_LENGTH && |d.coords| < MAX_LENGTH
    ensures forall b: byte :: Good(ByteShape, ByteValue(b))
    ensures Good(StringShape, StringValue(d.name)) && Good(FloatShape, FloatValue(d.speed))
    ensures Good(ByteArrayShape, ByteArrayValue(d.textures))
    ensures Good(ByteArrayShape, ByteArrayValue(d.fog)) && Good(ByteArrayShape, ByteArrayValue(d.coords))
  {
  }

  lemma EncodedTextures(floats: Floats, i: nat, def: BlockDefinition, d: CwBlockDefinition)
    requires SingleBits(floats) && Storable(def) && Encodes(floats, i, def, d)
    ensures |d.name| < MAX_TEXT && 0 <= d.speed < 0x1_0000_0000
    ensures |d.textures| == 12 && |d.fog| == 4 && |d.coords| == 6
  {
  }

  lemma {:induction false} NoFieldOfLength(fields: seq<Field>, key: Text)
    requires forall k :: 0 <= k < |fields| ==> fields[k].tag == [] && |fields[k].name| != |key|
    requires |key| > 0
    ensures FindField(AsciiLower, fields, AsciiLower(key)) == |fields|
  {
    if fields != [] {
      assert |AsciiLower(fields[0].name)| != |AsciiLower(key)|;
      NoFieldOfLength(fields[1..], key);
    }
  }

  lemma {:induction false} DecimalShort(n: nat)
    requires n < 1000
    ensures |Decimal(n)| <= 3
  {
    if n >= 100 {
      assert |Decimal(n / 100)| == 1;
      assert n / 10 / 10 == n / 100;
    }
  }

  /** The saved definitions can be written: their keys are distinct and are no field names. */
  lemma SavedGood(floats: Floats, defs: seq<Option<BlockDefinition>>, ids: seq<nat>, entries: seq<Entry>)
    requires SingleBits(floats) && Saved(floats, defs, ids, entries) && |defs| <= 256
    requires forall i :: 0 <= i < |defs| && defs[i].Some? ==> Storable(defs[i].value)
    ensures GoodEntries(BLOCK_DEFINITIONS.fields, BLOCK_DEFINITION, entries)
  {
    hide Encodes, Storable, Good, DefValue, DefOf, IsDefValue, BLOCK_DEFINITION, FindField, AsciiLower, Decimal;
    forall k | 0 <= k < |entries|
      ensures |entries[k].key| < MAX_TEXT && Good(BLOCK_DEFINITION, entries[k].value)
      ensures FindField(AsciiLower, BLOCK_DEFINITIONS.fields, AsciiLower(entries[k].key)) == |BLOCK_DEFINITIONS.fields|
    {
      DefGood(floats, ids[k], defs[ids[k]].value, DefOf(entries[k].value));
      DecimalShort(ids[k]);
      NoFieldOfLength(BLOCK_DEFINITIONS.fields, entries[k].key);
    }
    forall i, k | 0 <= i < k < |entries|
      ensures entries[i].key != entries[k].key
    {
      if entries[i].key == entries[k].key {
        DefKeyInjective(ids[i], ids[k]);
      }
    }
  }

  /** A reordering of good entries is good. */
  lemma Reordered(fields: seq<Field>, elem: Shape, entries: seq<Entry>, order: seq<Entry>)
    requires GoodEntries(fields, elem, entries) && multiset(order) == multiset(entries)
    ensures GoodEntries(fields, elem, order)
    ensures forall e :: e in entries <==> e in order
  {
    hide Good, FindField;
    assert forall e :: e in entries <==> e in multiset(entries);
    assert forall e :: e in order <==> e in multiset(order);
    forall k | 0 <= k < |order|
      ensures |order[k].key| < MAX_TEXT && Good(elem, order[k].value)
      ensures FindField(AsciiLower, fields, AsciiLower(order[k].key)) == |fields|
    {
      assert order[k] in entries;
    }
    forall i, k | 0 <= i < k < |order|
      ensures order[i].key != order[k].key
    {
      if order[i].key == order[k].key {
        SameKey(entries, order, i, k);
      }
    }
  }

  lemma SameKey(entries: seq<Entry>, order: seq<Entry>, i: nat, k: nat)
    requires multiset(order) == multiset(entries) && GoodKeys(entries)
    requires i < k < |order|
    ensures order[i].key != order[k].key
  {
    if order[i] == order[k] {
      TwiceIn(order, i, k);
      OnceOnly(entries, order[i]);
    } else {
      assert order[i] in multiset(order) && order[k] in multiset(order);
    }
  }

  /** An entry found at two places occurs at least twice. */
  lemma TwiceIn(order: seq<Entry>, i: nat, k: nat)
    requires i < k < |order| && order[i] == order[k]
    ensures multiset(order)[order[i]] >= 2
  {
    assert order == order[..k] + order[k..];
    assert order[i] in multiset(order[..k]) by {
      assert order[..k][i] in order[..k];
    }
    assert order[k] in multiset(order[k..]) by {
      assert order[k..][0] in order[k..];
    }
  }

  lemma {:induction false} OnceOnly(entries: seq<Entry>, e: Entry)
    requires GoodKeys(entries)
    ensures multiset(entries)[e] <= 1
  {
    if entries != [] {
      var init, last := entries[..|entries| - 1], entries[|entries| - 1];
      assert entries == init + [last];
      OnceOnly(init, e);
      if last == e {
        assert e !in init;
        assert e !in multiset(init);
      }
    }
  }

  lemma DefsGood(entries: seq<Entry>)
    requires GoodEntries(BLOCK_DEFINITIONS.fields, BLOCK_DEFINITION, entries)
    ensures Good(BLOCK_DEFINITIONS, DefsValue(entries))
  {
    hide T, BLOCK_DEFINITION, GoodKeys, KeysApart;
    PlainGood(IntShape, IntValue(1));
    MapGood(BLOCK_DEFINITIONS.fields, BLOCK_DEFINITION, entries);
    hide Good;
    StructGood(BLOCK_DEFINITIONS.fields, DefsValue(entries).values);
  }

  lemma CpeGood(l: LevelData, defs: seq<Entry>)
    requires StorableLevel(l) && GoodEntries(BLOCK_DEFINITIONS.fields, BLOCK_DEFINITION, defs)
    ensures Good(CPE, CpeValue(l, defs))
  {
    hide T, BLOCK_DEFINITION, BLOCK_DEFINITIONS, CLICK_DISTANCE, ENV_COLORS, ENV_MAP_APPEARANCE, ENV_WEATHER_TYPE,
         METADATA, GoodKeys, KeysApart, Good, DefsValue, ColorsValue, AppearanceValue;
    MapGood(CPE.fields, DynamicShape, l.metadataCPE);
    ClickGood(l);
    ColorsGood(l);
    AppearanceGood(l);
    WeatherGood(l);
    DefsGood(defs);
    StructGood(CPE.fields, CpeValue(l, defs).values);
  }

  lemma MetadataGood(l: LevelData, defs: seq<Entry>)
    requires StorableLevel(l) && GoodEntries(BLOCK_DEFINITIONS.fields, BLOCK_DEFINITION, defs)
    ensures Good(METADATA, MetadataValue(l, defs))
  {
    hide T, CPE, BLOCK_DEFINITION, BLOCK_DEFINITIONS, GoodKeys, KeysApart, Good, CpeValue;
    MapGood(METADATA.fields, DynamicShape, l.metadata);
    CpeGood(l, defs);
    StructGood(METADATA.fields, MetadataValue(l, defs).values);
  }

  lemma NumbersGood(l: LevelData)
    requires StorableLevel(l)
    ensures Good(ByteShape, ByteValue(1)) && Good(StringShape, StringValue(l.name))
    ensures Good(ByteArrayShape, ByteArrayValue(l.uuid)) && Good(ByteArrayShape, ByteArrayValue(l.blocks))
    ensures Good(ShortShape, ShortValue(l.width)) && Good(ShortShape, ShortValue(l.height))
    ensures Good(ShortShape, ShortValue(l.length)) && Good(LongShape, LongValue(l.timeCreated))
  {
    hide Good, GoodEntries, T, METADATA, CPE;
    PlainGood(ByteShape, ByteValue(1));
    PlainGood(StringShape, StringValue(l.name));
    PlainGood(ByteArrayShape, ByteArrayValue(l.uuid));
    PlainGood(ByteArrayShape, ByteArrayValue(l.blocks));
    PlainGood(ShortShape, ShortValue(l.width));
    PlainGood(ShortShape, ShortValue(l.height));
    PlainGood(ShortShape, ShortValue(l.length));
    PlainGood(LongShape, LongValue(l.timeCreated));
  }

  lemma LevelGood(l: LevelData, defs: seq<Entry>)
    requires StorableLevel(l) && GoodEntries(BLOCK_DEFINITIONS.fields, BLOCK_DEFINITION, defs)
    ensures Good(LEVEL, LevelValue(l, defs))
  {
    hide T, SPAWN, METADATA, CPE, BLOCK_DEFINITION, BLOCK_DEFINITIONS, GoodEntries, KeysApart, Good, SpawnValue,
         MetadataValue;
    NumbersGood(l);
    SpawnGood(l);
    MetadataGood(l, defs);
    StructGood(LEVEL.fields, LevelValue(l, defs).values);
  }

  // ------------------------------------------------------------------
  // Saving and loading.

  /** Field i of a struct value. */
  function Part(v: Value, i: nat): Value {
    if v.StructValue? && i < |v.values| then v.values[i] else NoValue
  }

  /** The CPE part of the metadata, where Load looks for colours and block definitions. */
  function CpePart(level: Value): Value {
    Part(Part(level, 9), 1)
  }

  /** The entries that Load turns into definitions, if their version is the one it knows. */
  function LoadedEntries(level: Value): seq<Entry> {
    var part := Part(CpePart(level), 5);
    if Part(part, 0) == IntValue(1) then MapEntries(Part(part, 1)) else []
  }

  function ByteOf(v: Value): byte {
    if v.ByteValue? then v.b % 256 else 0
  }

  function ShortOf(v: Value): int {
    if v.ShortValue? then v.s else 0
  }

  function BytesOf(v: Value): seq<byte> {
    if v.ByteArrayValue? then v.bytes else []
  }

  function TextOf(v: Value): Text {
    if v.StringValue? then v.text else []
  }

  /** Copying into an array of fixed length. */
  function CopyInto(target: seq<byte>, source: seq<byte>): (r: seq<byte>)
    ensures |r| == |target|
  {
    if |source| <= |target| then source + target[|source|..] else source[..|target|]
  }

  /** The colour that Load finds in place k of the environment colours. */
  function LoadedColor(level: Value, k: nat): NullRGB {
    var c := Part(Part(CpePart(level), 2), k);
    DecodeColor(CwColor(ShortOf(Part(c, 0)), ShortOf(Part(c, 1)), ShortOf(Part(c, 2))))
  }

  /** An old file holds the spawn in whole blocks; in the units of the file, 32 to a block, Load can
      correct this to the middle of the block. */
  predicate InBlocks(spawn: Value, level: Value) {
    && ShortOf(Part(spawn, 0)) < ShortOf(Part(level, 3))
    && ShortOf(Part(spawn, 1)) < ShortOf(Part(level, 4))
    && ShortOf(Part(spawn, 2)) < ShortOf(Part(level, 5))
  }

  /** The parts of a file that every version has, put into the new level `blank`; `fix` is the option
      to correct old spawn positions. */
  function LoadBase(blank: LevelData, fix: bool, v: Value): LevelData {
    var spawn, blocks := Part(v, 7), BytesOf(Part(v, 8));
    var width, height, length := ShortOf(Part(v, 3)), ShortOf(Part(v, 4)), ShortOf(Part(v, 5));
    var whole := fix && InBlocks(spawn, v);
    blank.(
      width := width, height := height, length := length,
      spawnX := if whole then 32 * ShortOf(Part(spawn, 0)) + 16 else ShortOf(Part(spawn, 0)),
      spawnY := if whole then 32 * ShortOf(Part(spawn, 1)) else ShortOf(Part(spawn, 1)),
      spawnZ := if whole then 32 * ShortOf(Part(spawn, 2)) + 16 else ShortOf(Part(spawn, 2)),
      spawnH := ByteOf(Part(spawn, 3)), spawnP := ByteOf(Part(spawn, 4)),
      uuid := CopyInto(blank.uuid, BytesOf(Part(v, 2))),
      blocks := if |blocks| == width * height * length then blocks else blank.blocks,
      timeCreated := if Part(v, 6).LongValue? && Part(v, 6).l > 0 then Part(v, 6).l else blank.timeCreated,
      metadata := MapEntries(Part(Part(v, 9), 0)), metadataCPE := MapEntries(Part(CpePart(v), 0)))
  }

  /** The extensions; each is used only if its version is the one that Load knows. */
  function LoadCpe(base: LevelData, v: Value): LevelData {
    var click, colors, look, weather := Part(CpePart(v), 1), Part(CpePart(v), 2), Part(CpePart(v), 3),
      Part(CpePart(v), 4);
    var l := if Part(click, 0) == ShortValue(1) then base.(clickDistance := ShortOf(Part(click, 1))) else base;
    var l := if Part(colors, 0) == IntValue(1) then
               l.(skyColor := LoadedColor(v, 1), cloudColor := LoadedColor(v, 2), fogColor := LoadedColor(v, 3),
                  ambientColor := LoadedColor(v, 4), diffuseColor := LoadedColor(v, 5))
             else l;
    var l := if Part(look, 0) == IntValue(1) then
               l.(texturePack := TextOf(Part(look, 1)), sideBlock := ByteOf(Part(look, 2)),
                  edgeBlock := ByteOf(Part(look, 3)), edgeHeight := ShortOf(Part(look, 4)))
             else l;
    if Part(weather, 0) == IntValue(1) then l.(weather := ByteOf(Part(weather, 1))) else l
  }

  /** What Load makes of a file, apart from the block definitions, starting from the new level `blank`
      with the name of the file. */
  function LoadLevel(blank: LevelData, fix: bool, v: Value): Option<LevelData> {
    if Part(v, 0) != ByteValue(1) || blank.name == [] then None
    else Some(LoadCpe(LoadBase(blank, fix, v), v))
  }

  lemma WrittenEntries(l: LevelData, defs: seq<Entry>)
    ensures LoadedEntries(LevelValue(l, defs)) == defs
  {
    hide SpawnValue, ColorsValue, AppearanceValue;
    assert CpePart(LevelValue(l, defs)) == CpeValue(l, defs);
  }

  /** An invalid colour comes back as the zero one. */
  function Normal(c: NullRGB): NullRGB {
    if c.valid then c else NullRGB(false, 0, 0, 0)
  }

  /** What saving and loading may change: the name is that of the file, an identifier of another
      length is cut or filled up, blocks that do not fill the level and a missing time are replaced
      by those of a new level, and a spawn may be taken for an old one. */
  function RestoredBase(blank: LevelData, fix: bool, l: LevelData): LevelData {
    var whole := fix && l.spawnX < l.width && l.spawnY < l.height && l.spawnZ < l.length;
    l.(name := blank.name,
       uuid := if |l.uuid| == |blank.uuid| then l.uuid else CopyInto(blank.uuid, l.uuid),
       blocks := if |l.blocks| == l.width * l.height * l.length then l.blocks else blank.blocks,
       timeCreated := if l.timeCreated > 0 then l.timeCreated else blank.timeCreated,
       spawnX := if whole then 32 * l.spawnX + 16 else l.spawnX,
       spawnY := if whole then 32 * l.spawnY else l.spawnY,
       spawnZ := if whole then 32 * l.spawnZ + 16 else l.spawnZ)
  }

  /** The extensions of one level put into another. */
  function WithExtensions(base: LevelData, l: LevelData): LevelData {
    base.(clickDistance := l.clickDistance, skyColor := l.skyColor, cloudColor := l.cloudColor, fogColor := l.fogColor,
          ambientColor := l.ambientColor, diffuseColor := l.diffuseColor, texturePack := l.texturePack,
          sideBlock := l.sideBlock, edgeBlock := l.edgeBlock, edgeHeight := l.edgeHeight, weather := l.weather)
  }

  /** Besides, invalid colours come back as the zero one. */
  function RestoredLevel(blank: LevelData, fix: bool, l: LevelData): LevelData {
    RestoredBase(blank, fix, l).(
      skyColor := Normal(l.skyColor), cloudColor := Normal(l.cloudColor), fogColor := Normal(l.fogColor),
      ambientColor := Normal(l.ambientColor), diffuseColor := Normal(l.diffuseColor))
  }

  lemma BaseLoaded(blank: LevelData, fix: bool, l: LevelData, defs: seq<Entry>)
    ensures LoadBase(blank, fix, LevelValue(l, defs)) == WithExtensions(RestoredBase(blank, fix, l), blank)
  {
    hide ColorsValue, AppearanceValue, DefsValue;
    var v := LevelValue(l, defs);
    assert CpePart(v) == CpeValue(l, defs);
    assert |l.uuid| == |blank.uuid| ==> CopyInto(blank.uuid, l.uuid) == l.uuid;
  }

  lemma CpeLoaded(base: LevelData, l: LevelData, defs: seq<Entry>)
    ensures LoadCpe(base, LevelValue(l, defs))
         == WithExtensions(base, l).(
              skyColor := Normal(l.skyColor), cloudColor := Normal(l.cloudColor), fogColor := Normal(l.fogColor),
              ambientColor := Normal(l.ambientColor), diffuseColor := Normal(l.diffuseColor))
  {
    hide DefsValue, LoadedColor, Normal, SpawnValue;
    ColorsLoaded(l, defs);
    var v := LevelValue(l, defs);
    assert CpePart(v) == CpeValue(l, defs);
  }

  /** Everything that a file holds comes back, each part in its own place. */
  lemma LevelLoaded(blank: LevelData, fix: bool, l: LevelData, defs: seq<Entry>)
    requires blank.name != []
    ensures LoadLevel(blank, fix, LevelValue(l, defs)) == Some(RestoredLevel(blank, fix, l))
  {
    hide LoadBase, LoadCpe, RestoredBase, Normal;
    BaseLoaded(blank, fix, l, defs);
    CpeLoaded(LoadBase(blank, fix, LevelValue(l, defs)), l, defs);
    RestoredKeeps(blank, fix, l);
  }

  lemma RestoredKeeps(blank: LevelData, fix: bool, l: LevelData)
    ensures WithExtensions(RestoredBase(blank, fix, l), l) == RestoredBase(blank, fix, l)
  {
  }

  /** Saving a level and loading the file: whatever order the map of definitions was written in and
      is visited in, the whole file value is read back, nothing after it is touched, and the level
      and every block definition at its id are restored. */
  lemma SaveThenLoad(floats: Floats, l: LevelData, defs: seq<Option<BlockDefinition>>, ids: seq<nat>,
                     entries: seq<Entry>, written: seq<Entry>, visited: seq<Entry>,
                     back: seq<Option<BlockDefinition>>, blank: LevelData, fix: bool, rest: seq<byte>)
    requires SingleBits(floats) && StorableLevel(l) && |defs| <= 256
    requires forall i :: 0 <= i < |defs| && defs[i].Some? ==> Storable(defs[i].value)
    requires Saved(floats, defs, ids, entries)
    requires multiset(written) == multiset(entries)
    requires multiset(visited) == multiset(LoadedEntries(LevelValue(l, written)))
    requires Loaded(floats, visited, back)
    ensures ReadTag(AsciiLower, ROOT, Zero(ROOT), TagBytes(T("ClassicWorld"), LEVEL, LevelValue(l, written)) + rest)
         == Tag(StructValue([LevelValue(l, written)]), rest)
    ensures RestoredDefs(floats, defs, back)
    ensures blank.name != [] ==> LoadLevel(blank, fix, LevelValue(l, written)) == Some(RestoredLevel(blank, fix, l))
  {
    hide LoadLevel, RestoredLevel, T, LEVEL, Good, GoodEntries, StorableLevel, Saved, Storable, Loaded, Encodes,
         LevelValue, TagBytes, ReadTag, RestoredDefs, BLOCK_DEFINITION, LoadedEntries, SupportedFields, Supported;
    SavedGood(floats, defs, ids, entries);
    Reordered(BLOCK_DEFINITIONS.fields, BLOCK_DEFINITION, entries, written);
    WrittenEntries(l, written);
    SameMembers(entries, visited);
    DefsRestored(floats, defs, ids, entries, visited, back);
    LevelGood(l, written);
    FileRoundTrip(LevelValue(l, written), rest);
    if blank.name != [] {
      LevelLoaded(blank, fix, l, written);
    }
  }

  lemma SameMembers(a: seq<Entry>, b: seq<Entry>)
    requires multiset(a) == multiset(b)
    ensures forall e :: e in a <==> e in b
  {
    assert forall e :: e in a <==> e in multiset(a);
    assert forall e :: e in b <==> e in multiset(b);
  }

  lemma FileRoundTrip(level: Value, rest: seq<byte>)
    requires Good(LEVEL, level)
    ensures ReadTag(AsciiLower, ROOT, Zero(ROOT), TagBytes(T("ClassicWorld"), LEVEL, level) + rest)
         == Tag(StructValue([level]), rest)
  {
    hide T, LEVEL, TagBytes, ReadTag, SupportedFields, Supported, HasShape, Fits;
    RootNames();
    LevelSupported();
    ZeroFields(ROOT.fields);
    MarshalRoundTrip(AsciiLower, ROOT.fields, 0, level, rest);
    assert Zero(ROOT).values[0 := level] == [level];
  }

  /** The five environment colours come back, each in its own place. */
  lemma ColorsLoaded(l: LevelData, defs: seq<Entry>)
    ensures var level := LevelValue(l, defs);
            && LoadedColor(level, 1) == Normal(l.skyColor)
            && LoadedColor(level, 2) == Normal(l.cloudColor)
            && LoadedColor(level, 3) == Normal(l.fogColor)
            && LoadedColor(level, 4) == Normal(l.ambientColor)
            && LoadedColor(level, 5) == Normal(l.diffuseColor)
  {
    hide SpawnValue, AppearanceValue, DefsValue, EncodeColor, DecodeColor;
    assert CpePart(LevelValue(l, defs)) == CpeValue(l, defs);
    assert Part(CpeValue(l, defs), 2) == ColorsValue(l);
    ColorRestored(l.skyColor);
    ColorRestored(l.cloudColor);
    ColorRestored(l.fogColor);
    ColorRestored(l.ambientColor);
    ColorRestored(l.diffuseColor);
  }
}
