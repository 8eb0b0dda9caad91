/** The layout of a ClassicWorld file: which value stands under which name, and which byte is whose.
    Together with the round trips this fixes what is loaded, too. */
module ClassicWorldLayout {
  import opened Blocks
  import opened NbtTypes
  import opened NbtWriter
  import opened NbtWire
  import opened ClassicWorld
  import opened ClassicWorldFile
  import opened Options

  /** A struct value of this type holds x under the name. */
  ghost predicate Holds(shape: Shape, v: Value, name: string, x: Value) {
    && shape.StructShape? && v.StructValue? && |v.values| == |shape.fields|
    && exists k :: 0 <= k < |shape.fields| && shape.fields[k].name == T(name) && shape.fields[k].tag == []
                   && !shape.fields[k].anonymous && v.values[k] == x
  }

  /** A struct value of this type embeds the map with these entries. */
  ghost predicate Embeds(shape: Shape, v: Value, entries: seq<Entry>) {
    && shape.StructShape? && v.StructValue? && |v.values| == |shape.fields|
    && exists k :: 0 <= k < |shape.fields| && shape.fields[k].shape.MapShape?
                   && shape.fields[k].anonymous && v.values[k] == MapValue(entries)
  }

  lemma HoldsAt(shape: Shape, v: Value, name: string, x: Value, k: nat)
    requires shape.StructShape? && v.StructValue? && |v.values| == |shape.fields| && k < |shape.fields|
    requires shape.fields[k].name == T(name) && shape.fields[k].tag == [] && !shape.fields[k].anonymous
    requires v.values[k] == x
    ensures Holds(shape, v, name, x)
  {
    hide T;
  }

  lemma EmbedsAt(shape: Shape, v: Value, entries: seq<Entry>, k: nat)
    requires shape.StructShape? && v.StructValue? && |v.values| == |shape.fields| && k < |shape.fields|
    requires shape.fields[k].shape.MapShape? && shape.fields[k].anonymous && v.values[k] == MapValue(entries)
    ensures Embeds(shape, v, entries)
  {
  }

  // ------------------------------------------------------------------
  // Colours, spawn, environment.

  lemma ColorLayout(r: byte, g: byte, b: byte)
    ensures var v := ColorValue(EncodeColor(NullRGB(true, r, g, b)));
            Holds(COLOR, v, "R", ShortValue(r)) && Holds(COLOR, v, "G", ShortValue(g))
            && Holds(COLOR, v, "B", ShortValue(b))
    ensures var v := ColorValue(EncodeColor(NullRGB(false, r, g, b)));
            Holds(COLOR, v, "R", ShortValue(-1)) && Holds(COLOR, v, "G", ShortValue(-1))
            && Holds(COLOR, v, "B", ShortValue(-1))
  {
    hide T, Holds;
    var some, none := ColorValue(EncodeColor(NullRGB(true, r, g, b))), ColorValue(EncodeColor(NullRGB(false, r, g, b)));
    HoldsAt(COLOR, some, "R", ShortValue(r), 0);
    HoldsAt(COLOR, some, "G", ShortValue(g), 1);
    HoldsAt(COLOR, some, "B", ShortValue(b), 2);
    HoldsAt(COLOR, none, "R", ShortValue(-1), 0);
    HoldsAt(COLOR, none, "G", ShortValue(-1), 1);
    HoldsAt(COLOR, none, "B", ShortValue(-1), 2);
  }

  lemma SpawnLayout(l: LevelData)
    ensures var v := SpawnValue(l);
            && Holds(SPAWN, v, "X", ShortValue(l.spawnX)) && Holds(SPAWN, v, "Y", ShortValue(l.spawnY))
            && Holds(SPAWN, v, "Z", ShortValue(l.spawnZ)) && Holds(SPAWN, v, "H", ByteValue(l.spawnH))
            && Holds(SPAWN, v, "P", ByteValue(l.spawnP))
  {
    hide T, Holds;
    HoldsAt(SPAWN, SpawnValue(l), "X", ShortValue(l.spawnX), 0);
    HoldsAt(SPAWN, SpawnValue(l), "Y", ShortValue(l.spawnY), 1);
    HoldsAt(SPAWN, SpawnValue(l), "Z", ShortValue(l.spawnZ), 2);
    HoldsAt(SPAWN, SpawnValue(l), "H", ByteValue(l.spawnH), 3);
    HoldsAt(SPAWN, SpawnValue(l), "P", ByteValue(l.spawnP), 4);
  }

  lemma EnvColorsLayout(l: LevelData)
    ensures var v := ColorsValue(l);
            && Holds(ENV_COLORS, v, "ExtensionVersion", IntValue(1))
            && Holds(ENV_COLORS, v, "Sky", ColorValue(EncodeColor(l.skyColor)))
            && Holds(ENV_COLORS, v, "Cloud", ColorValue(EncodeColor(l.cloudColor)))
            && Holds(ENV_COLORS, v, "Fog", ColorValue(EncodeColor(l.fogColor)))
            && Holds(ENV_COLORS, v, "Ambient", ColorValue(EncodeColor(l.ambientColor)))
            && Holds(ENV_COLORS, v, "Sunlight", ColorValue(EncodeColor(l.diffuseColor)))
  {
    hide T, Holds, ColorValue, EncodeColor, COLOR;
    HoldsAt(ENV_COLORS, ColorsValue(l), "ExtensionVersion", IntValue(1), 0);
    HoldsAt(ENV_COLORS, ColorsValue(l), "Sky", ColorValue(EncodeColor(l.skyColor)), 1);
    HoldsAt(ENV_COLORS, ColorsValue(l), "Cloud", ColorValue(EncodeColor(l.cloudColor)), 2);
    HoldsAt(ENV_COLORS, ColorsValue(l), "Fog", ColorValue(EncodeColor(l.fogColor)), 3);
    HoldsAt(ENV_COLORS, ColorsValue(l), "Ambient", ColorValue(EncodeColor(l.ambientColor)), 4);
    HoldsAt(ENV_COLORS, ColorsValue(l), "Sunlight", ColorValue(EncodeColor(l.diffuseColor)), 5);
  }

  lemma AppearanceLayout(l: LevelData)
    ensures var v := AppearanceValue(l);
            && Holds(ENV_MAP_APPEARANCE, v, "ExtensionVersion", IntValue(1))
            && Holds(ENV_MAP_APPEARANCE, v, "TextureURL", StringValue(l.texturePack))
            && Holds(ENV_MAP_APPEARANCE, v, "SideBlock", ByteValue(l.sideBlock))
            && Holds(ENV_MAP_APPEARANCE, v, "EdgeBlock", ByteValue(l.edgeBlock))
            && Holds(ENV_MAP_APPEARANCE, v, "SideLevel", ShortValue(l.edgeHeight))
  {
    hide T, Holds;
    HoldsAt(ENV_MAP_APPEARANCE, AppearanceValue(l), "ExtensionVersion", IntValue(1), 0);
    HoldsAt(ENV_MAP_APPEARANCE, AppearanceValue(l), "TextureURL", StringValue(l.texturePack), 1);
    HoldsAt(ENV_MAP_APPEARANCE, AppearanceValue(l), "SideBlock", ByteValue(l.sideBlock), 2);
    HoldsAt(ENV_MAP_APPEARANCE, AppearanceValue(l), "EdgeBlock", ByteValue(l.edgeBlock), 3);
    HoldsAt(ENV_MAP_APPEARANCE, AppearanceValue(l), "SideLevel", ShortValue(l.edgeHeight), 4);
  }

  /** The extensions of a file. */
  lemma CpeLayout(l: LevelData, defs: seq<Entry>)
    ensures var v := CpeValue(l, defs);
            && Embeds(CPE, v, l.metadataCPE)
            && Holds(CPE, v, "EnvColors", ColorsValue(l)) && Holds(CPE, v, "EnvMapAppearance", AppearanceValue(l))
            && Holds(CPE, v, "BlockDefinitions", DefsValue(defs))
    ensures exists click, weather ::
              && Holds(CPE, CpeValue(l, defs), "ClickDistance", click)
              && Holds(CLICK_DISTANCE, click, "ExtensionVersion", ShortValue(1))
              && Holds(CLICK_DISTANCE, click, "Distance", ShortValue(l.clickDistance))
              && Holds(CPE, CpeValue(l, defs), "EnvWeatherType", weather)
              && Holds(ENV_WEATHER_TYPE, weather, "ExtensionVersion", IntValue(1))
              && Holds(ENV_WEATHER_TYPE, weather, "WeatherType", ByteValue(l.weather))
    ensures Holds(BLOCK_DEFINITIONS, DefsValue(defs), "ExtensionVersion", IntValue(1))
    ensures Embeds(BLOCK_DEFINITIONS, DefsValue(defs), defs)
  {
    hide T, Holds, Embeds, ColorsValue, AppearanceValue, BLOCK_DEFINITION, ENV_COLORS, ENV_MAP_APPEARANCE;
    var v, d := CpeValue(l, defs), DefsValue(defs);
    var click := StructValue([ShortValue(1), ShortValue(l.clickDistance)]);
    var weather := StructValue([IntValue(1), ByteValue(l.weather)]);
    EmbedsAt(CPE, v, l.metadataCPE, 0);
    HoldsAt(CPE, v, "ClickDistance", click, 1);
    HoldsAt(CPE, v, "EnvColors", ColorsValue(l), 2);
    HoldsAt(CPE, v, "EnvMapAppearance", AppearanceValue(l), 3);
    HoldsAt(CPE, v, "EnvWeatherType", weather, 4);
    HoldsAt(CPE, v, "BlockDefinitions", d, 5);
    HoldsAt(CLICK_DISTANCE, click, "ExtensionVersion", ShortValue(1), 0);
    HoldsAt(CLICK_DISTANCE, click, "Distance", ShortValue(l.clickDistance), 1);
    HoldsAt(ENV_WEATHER_TYPE, weather, "ExtensionVersion", IntValue(1), 0);
    HoldsAt(ENV_WEATHER_TYPE, weather, "WeatherType", ByteValue(l.weather), 1);
    HoldsAt(BLOCK_DEFINITIONS, d, "ExtensionVersion", IntValue(1), 0);
    EmbedsAt(BLOCK_DEFINITIONS, d, defs, 1);
  }

  lemma LevelLayout(l: LevelData, defs: seq<Entry>)
    ensures var v := LevelValue(l, defs);
            && Holds(LEVEL, v, "FormatVersion", ByteValue(1)) && Holds(LEVEL, v, "Name", StringValue(l.name))
            && Holds(LEVEL, v, "UUID", ByteArrayValue(l.uuid))
            && Holds(LEVEL, v, "X", ShortValue(l.width)) && Holds(LEVEL, v, "Y", ShortValue(l.height))
            && Holds(LEVEL, v, "Z", ShortValue(l.length))
            && Holds(LEVEL, v, "TimeCreated", LongValue(l.timeCreated))
            && Holds(LEVEL, v, "Spawn", SpawnValue(l)) && Holds(LEVEL, v, "BlockArray", ByteArrayValue(l.blocks))
            && Holds(LEVEL, v, "Metadata", MetadataValue(l, defs))
    ensures Embeds(METADATA, MetadataValue(l, defs), l.metadata)
    ensures Holds(METADATA, MetadataValue(l, defs), "CPE", CpeValue(l, defs))
  {
    LevelParts(l, defs);
    MetadataLayout(l, defs);
    hide *;
  }

  lemma LevelParts(l: LevelData, defs: seq<Entry>)
    ensures var v := LevelValue(l, defs);
            && Holds(LEVEL, v, "FormatVersion", ByteValue(1)) && Holds(LEVEL, v, "Name", StringValue(l.name))
            && Holds(LEVEL, v, "UUID", ByteArrayValue(l.uuid))
            && Holds(LEVEL, v, "X", ShortValue(l.width)) && Holds(LEVEL, v, "Y", ShortValue(l.height))
            && Holds(LEVEL, v, "Z", ShortValue(l.length))
            && Holds(LEVEL, v, "TimeCreated", LongValue(l.timeCreated))
            && Holds(LEVEL, v, "Spawn", SpawnValue(l)) && Holds(LEVEL, v, "BlockArray", ByteArrayValue(l.blocks))
            && Holds(LEVEL, v, "Metadata", MetadataValue(l, defs))
  {
    hide T, Holds, LEVEL, LevelValue, SpawnValue, MetadataValue;
    var v := LevelValue(l, defs);
    LevelFields();
    LevelValues(l, defs);
    HoldsAt(LEVEL, v, "FormatVersion", ByteValue(1), 0);
    HoldsAt(LEVEL, v, "Name", StringValue(l.name), 1);
    HoldsAt(LEVEL, v, "UUID", ByteArrayValue(l.uuid), 2);
    HoldsAt(LEVEL, v, "X", ShortValue(l.width), 3);
    HoldsAt(LEVEL, v, "Y", ShortValue(l.height), 4);
    HoldsAt(LEVEL, v, "Z", ShortValue(l.length), 5);
    HoldsAt(LEVEL, v, "TimeCreated", LongValue(l.timeCreated), 6);
    HoldsAt(LEVEL, v, "Spawn", SpawnValue(l), 7);
    HoldsAt(LEVEL, v, "BlockArray", ByteArrayValue(l.blocks), 8);
    HoldsAt(LEVEL, v, "Metadata", MetadataValue(l, defs), 9);
  }

  lemma LevelFields()
    ensures LEVEL.StructShape? && |LEVEL.fields| == 10
    ensures forall k :: 0 <= k < 10 ==> !LEVEL.fields[k].anonymous && LEVEL.fields[k].tag == []
    ensures var f := LEVEL.fields;
            && f[0].name == T("FormatVersion") && f[1].name == T("Name") && f[2].name == T("UUID")
            && f[3].name == T("X") && f[4].name == T("Y") && f[5].name == T("Z") && f[6].name == T("TimeCreated")
            && f[7].name == T("Spawn") && f[8].name == T("BlockArray") && f[9].name == T("Metadata")
  {
    hide T, SPAWN, METADATA;
  }

  lemma LevelValues(l: LevelData, defs: seq<Entry>)
    ensures LevelValue(l, defs).StructValue? && |LevelValue(l, defs).values| == 10
    ensures var x := LevelValue(l, defs).values;
            && x[0] == ByteValue(1) && x[1] == StringValue(l.name) && x[2] == ByteArrayValue(l.uuid)
            && x[3] == ShortValue(l.width) && x[4] == ShortValue(l.height) && x[5] == ShortValue(l.length)
            && x[6] == LongValue(l.timeCreated) && x[7] == SpawnValue(l) && x[8] == ByteArrayValue(l.blocks)
            && x[9] == MetadataValue(l, defs)
  {
    hide SpawnValue, MetadataValue;
  }

  lemma MetadataLayout(l: LevelData, defs: seq<Entry>)
    ensures Embeds(METADATA, MetadataValue(l, defs), l.metadata)
    ensures Holds(METADATA, MetadataValue(l, defs), "CPE", CpeValue(l, defs))
  {
    hide T, Holds, Embeds, CpeValue, CPE;
    EmbedsAt(METADATA, MetadataValue(l, defs), l.metadata, 0);
    HoldsAt(METADATA, MetadataValue(l, defs), "CPE", CpeValue(l, defs), 1);
  }

  /** A file starts with a compound tag (10) whose name is ClassicWorld. */
  lemma FileStarts(v: Value)
    ensures var w := TagBytes(T("ClassicWorld"), LEVEL, v);
            |w| >= 15 && w[..15] == [10, 0, 12, 67, 108, 97, 115, 115, 105, 99, 87, 111, 114, 108, 100]
  {
    var name := T("ClassicWorld");
    assert name == [67, 108, 97, 115, 115, 105, 99, 87, 111, 114, 108, 100];
    TagLayout(name, LEVEL, v);
    assert |name| == 12;
    hide T, TagBytes, PayloadBytes;
  }

  // ------------------------------------------------------------------
  // What loading does with a file that is not as it was saved.

  /** A file of another version is refused, and so is one whose name is empty. */
  lemma OtherFormat(blank: LevelData, fix: bool, v: Value)
    ensures LoadLevel(blank, fix, v).None? <==> Part(v, 0) != ByteValue(1) || blank.name == []
  {
    hide LoadBase, LoadCpe;
  }

  /** Extensions of another version are left as the new level has them. */
  lemma OtherExtensions(blank: LevelData, fix: bool, v: Value)
    requires LoadLevel(blank, fix, v).Some?
    ensures var l := LoadLevel(blank, fix, v).value;
            && (Part(Part(CpePart(v), 1), 0) != ShortValue(1) ==> l.clickDistance == blank.clickDistance)
            && (Part(Part(CpePart(v), 2), 0) != IntValue(1) ==>
                  && l.skyColor == blank.skyColor && l.cloudColor == blank.cloudColor && l.fogColor == blank.fogColor
                  && l.ambientColor == blank.ambientColor && l.diffuseColor == blank.diffuseColor)
            && (Part(Part(CpePart(v), 3), 0) != IntValue(1) ==>
                  && l.texturePack == blank.texturePack && l.sideBlock == blank.sideBlock
                  && l.edgeBlock == blank.edgeBlock && l.edgeHeight == blank.edgeHeight)
            && (Part(Part(CpePart(v), 4), 0) != IntValue(1) ==> l.weather == blank.weather)
  {
    hide Part, CpePart, LoadedColor, ShortOf, ByteOf, TextOf, BytesOf, InBlocks, CopyInto;
  }

  /** A level whose colours are all valid, whose blocks fill it, that has an identifier of the usual
      length and a creation time, and whose spawn is not to be corrected, comes back whole; only the
      name is that of the file. */
  lemma ComesBack(blank: LevelData, fix: bool, l: LevelData, defs: seq<Entry>)
    requires blank.name != [] && |l.uuid| == |blank.uuid| && l.timeCreated > 0
    requires |l.blocks| == l.width * l.height * l.length
    requires l.skyColor.valid && l.cloudColor.valid && l.fogColor.valid
    requires l.ambientColor.valid && l.diffuseColor.valid
    requires !fix || l.spawnX >= l.width || l.spawnY >= l.height || l.spawnZ >= l.length
    ensures LoadLevel(blank, fix, LevelValue(l, defs)) == Some(l.(name := blank.name))
  {
    LevelLoaded(blank, fix, l, defs);
    hide LoadLevel, LevelValue;
  }

  /** What is replaced: blocks that do not fill the level and a missing time are those of the new
      level, and with the option to correct it a spawn that lies within the level, taken for whole
      blocks, is put in the middle of its block. */
  lemma Replaced(blank: LevelData, fix: bool, l: LevelData, defs: seq<Entry>)
    requires blank.name != []
    ensures LoadLevel(blank, fix, LevelValue(l, defs)).Some?
    ensures var back := LoadLevel(blank, fix, LevelValue(l, defs)).value;
            && (|l.blocks| != l.width * l.height * l.length ==> back.blocks == blank.blocks)
            && (l.timeCreated <= 0 ==> back.timeCreated == blank.timeCreated)
            && (fix && l.spawnX < l.width && l.spawnY < l.height && l.spawnZ < l.length ==>
                  back.spawnX == 32 * l.spawnX + 16 && back.spawnY == 32 * l.spawnY
                  && back.spawnZ == 32 * l.spawnZ + 16)
            && (!l.skyColor.valid ==> back.skyColor == NullRGB(false, 0, 0, 0))
            && (|l.uuid| < |blank.uuid| ==> back.uuid == l.uuid + blank.uuid[|l.uuid|..])
            && (|l.uuid| > |blank.uuid| ==> back.uuid == l.uuid[..|blank.uuid|])
  {
    LevelLoaded(blank, fix, l, defs);
    hide LoadLevel, LevelValue;
  }

  // ------------------------------------------------------------------
  // Block definitions.

  /** Textures are numbered +x, -x, +y, -y, +z, -z; in the file the order is top (+y), bottom, -x, +x,
      -z, +z: first the low bytes, then the high ones. */
  lemma TextureBytes(t: seq<int>, bytes: seq<byte>)
    requires SplitTextures(t, bytes)
    ensures bytes == [t[2] % 256, t[3] % 256, t[1] % 256, t[0] % 256, t[5] % 256, t[4] % 256,
                       t[2] / 256 % 256, t[3] / 256 % 256, t[1] / 256 % 256, t[0] / 256 % 256, t[5] / 256 % 256,
                       t[4] / 256 % 256]
  {
    assert bytes[0] == t[2] % 256 && bytes[1] == t[3] % 256 && bytes[2] == t[1] % 256;
    assert bytes[3] == t[0] % 256 && bytes[4] == t[5] % 256 && bytes[5] == t[4] % 256;
    assert bytes[0 + 6] == t[2] / 256 % 256 && bytes[1 + 6] == t[3] / 256 % 256 && bytes[2 + 6] == t[1] / 256 % 256;
    assert bytes[3 + 6] == t[0] / 256 % 256 && bytes[4 + 6] == t[5] / 256 % 256 && bytes[5 + 6] == t[4] / 256 % 256;
  }

  /** Reading them back from six bytes or from twelve. */
  lemma TexturesFrom(bytes: seq<byte>, t: seq<int>)
    requires JoinedTextures(bytes, t)
    ensures 6 <= |bytes| < 12 ==> t == [bytes[3], bytes[2], bytes[0], bytes[1], bytes[5], bytes[4]]
    ensures |bytes| >= 12 ==>
              t == [bytes[3] + 256 * bytes[9] as int, bytes[2] + 256 * bytes[8] as int,
                     bytes[0] + 256 * bytes[6] as int, bytes[1] + 256 * bytes[7] as int,
                     bytes[5] + 256 * bytes[11] as int, bytes[4] + 256 * bytes[10] as int]
  {
    if |bytes| >= 6 {
      assert t[2] == TextureAt(bytes, 0) && t[3] == TextureAt(bytes, 1) && t[1] == TextureAt(bytes, 2);
      assert t[0] == TextureAt(bytes, 3) && t[5] == TextureAt(bytes, 4) && t[4] == TextureAt(bytes, 5);
    }
  }

  /** Every value of a definition under its name. A block that gives light lets none through. */
  lemma DefinitionLayout(floats: Floats, i: nat, def: BlockDefinition, d: CwBlockDefinition)
    requires Encodes(floats, i, def, d)
    ensures var v := DefValue(d);
            var t := def.textures;
            && Holds(BLOCK_DEFINITION, v, "ID", ByteValue(i % 256))
            && Holds(BLOCK_DEFINITION, v, "Name", StringValue(def.name))
            && Holds(BLOCK_DEFINITION, v, "Speed", FloatValue(floats.narrow(def.speed)))
            && Holds(BLOCK_DEFINITION, v, "CollideType", ByteValue(def.collideMode))
            && Holds(BLOCK_DEFINITION, v, "Textures", ByteArrayValue(d.textures))
            && Holds(BLOCK_DEFINITION, v, "TransmitsLight", ByteValue(if def.blockLight then 0 else 1))
            && Holds(BLOCK_DEFINITION, v, "FullBright", ByteValue(if def.fullBright then 1 else 0))
            && Holds(BLOCK_DEFINITION, v, "WalkSound", ByteValue(def.walkSound))
            && Holds(BLOCK_DEFINITION, v, "Shape", ByteValue(def.shape))
            && Holds(BLOCK_DEFINITION, v, "BlockDraw", ByteValue(def.drawMode))
            && Holds(BLOCK_DEFINITION, v, "Fog", ByteArrayValue([def.fogDensity, def.fogR, def.fogG, def.fogB]))
            && Holds(BLOCK_DEFINITION, v, "Coords",
                     ByteArrayValue([def.min.x % 256, def.min.y % 256, def.min.z % 256, def.max.x % 256,
                                      def.max.y % 256, def.max.z % 256]))
  {
    hide T, Holds, SplitTextures, BLOCK_DEFINITION, DefValue;
    StoredDefinition(d);
  }

  lemma StoredDefinition(d: CwBlockDefinition)
    ensures var v := DefValue(d);
            && Holds(BLOCK_DEFINITION, v, "ID", ByteValue(d.id))
              && Holds(BLOCK_DEFINITION, v, "Name", StringValue(d.name))
            && Holds(BLOCK_DEFINITION, v, "Speed", FloatValue(d.speed))
            && Holds(BLOCK_DEFINITION, v, "CollideType", ByteValue(d.collideType))
            && Holds(BLOCK_DEFINITION, v, "Textures", ByteArrayValue(d.textures))
            && Holds(BLOCK_DEFINITION, v, "TransmitsLight", ByteValue(d.transmitsLight))
            && Holds(BLOCK_DEFINITION, v, "FullBright", ByteValue(d.fullBright))
            && Holds(BLOCK_DEFINITION, v, "WalkSound", ByteValue(d.walkSound))
            && Holds(BLOCK_DEFINITION, v, "Shape", ByteValue(d.shape))
            && Holds(BLOCK_DEFINITION, v, "BlockDraw", ByteValue(d.blockDraw))
            && Holds(BLOCK_DEFINITION, v, "Fog", ByteArrayValue(d.fog))
            && Holds(BLOCK_DEFINITION, v, "Coords", ByteArrayValue(d.coords))
  {
    hide T, Holds, BLOCK_DEFINITION, DefValue;
    var v := DefValue(d);
    DefinitionFields();
    DefinitionValues(d);
    HoldsAt(BLOCK_DEFINITION, v, "ID", ByteValue(d.id), 0);
    HoldsAt(BLOCK_DEFINITION, v, "Name", StringValue(d.name), 1);
    HoldsAt(BLOCK_DEFINITION, v, "Speed", FloatValue(d.speed), 2);
    HoldsAt(BLOCK_DEFINITION, v, "CollideType", ByteValue(d.collideType), 3);
    HoldsAt(BLOCK_DEFINITION, v, "Textures", ByteArrayValue(d.textures), 4);
    HoldsAt(BLOCK_DEFINITION, v, "TransmitsLight", ByteValue(d.transmitsLight), 5);
    HoldsAt(BLOCK_DEFINITION, v, "FullBright", ByteValue(d.fullBright), 6);
    HoldsAt(BLOCK_DEFINITION, v, "WalkSound", ByteValue(d.walkSound), 7);
    HoldsAt(BLOCK_DEFINITION, v, "Shape", ByteValue(d.shape), 8);
    HoldsAt(BLOCK_DEFINITION, v, "BlockDraw", ByteValue(d.blockDraw), 9);
    HoldsAt(BLOCK_DEFINITION, v, "Fog", ByteArrayValue(d.fog), 10);
    HoldsAt(BLOCK_DEFINITION, v, "Coords", ByteArrayValue(d.coords), 11);
  }

  lemma DefinitionFields()
    ensures BLOCK_DEFINITION.StructShape? && |BLOCK_DEFINITION.fields| == 12
    ensures forall k :: 0 <= k < 12 ==> !BLOCK_DEFINITION.fields[k].anonymous && BLOCK_DEFINITION.fields[k].tag == []
    ensures var f := BLOCK_DEFINITION.fields;
            && f[0].name == T("ID") && f[1].name == T("Name") && f[2].name == T("Speed")
            && f[3].name == T("CollideType") && f[4].name == T("Textures") && f[5].name == T("TransmitsLight")
            && f[6].name == T("FullBright") && f[7].name == T("WalkSound") && f[8].name == T("Shape")
            && f[9].name == T("BlockDraw") && f[10].name == T("Fog") && f[11].name == T("Coords")
  {
    hide T;
  }

  lemma DefinitionValues(d: CwBlockDefinition)
    ensures DefValue(d).StructValue? && |DefValue(d).values| == 12
    ensures var x := DefValue(d).values;
            && x[0] == ByteValue(d.id) && x[1] == StringValue(d.name) && x[2] == FloatValue(d.speed)
            && x[3] == ByteValue(d.collideType) && x[4] == ByteArrayValue(d.textures)
            && x[5] == ByteValue(d.transmitsLight) && x[6] == ByteValue(d.fullBright)
            && x[7] == ByteValue(d.walkSound) && x[8] == ByteValue(d.shape) && x[9] == ByteValue(d.blockDraw)
            && x[10] == ByteArrayValue(d.fog) && x[11] == ByteArrayValue(d.coords)
  {
  }

  /** The number that a text of decimal digits stands for. */
  function NumberOf(t: Text): int {
    if t == [] then 0 else 10 * NumberOf(t[..|t| - 1]) + t[|t| - 1] as int - 48
  }

  /** The key of a definition is "Block" and its number, in decimal digits without leading zeros. */
  lemma {:induction false} KeyNumber(n: nat)
    ensures Decimal(n) != [] && NumberOf(Decimal(n)) == n
    ensures forall k :: 0 <= k < |Decimal(n)| ==> 48 <= Decimal(n)[k] <= 57
    ensures n > 0 ==> Decimal(n)[0] != 48
    ensures |DefKey(n)| > 5 && DefKey(n)[..5] == [66, 108, 111, 99, 107] && DefKey(n)[5..] == Decimal(n)
  {
    if n >= 10 {
      KeyNumber(n / 10);
      assert Decimal(n)[..|Decimal(n)| - 1] == Decimal(n / 10);
    } else {
      assert Decimal(n)[..0] == [];
    }
    hide Decimal;
    assert T("Block") == [66, 108, 111, 99, 107];
  }

  /** If several definitions of a file have the same id, the one visited last counts. */
  lemma LastDefinitionCounts(floats: Floats, entries: seq<Entry>, defs: seq<Option<BlockDefinition>>, k: nat)
    requires Loaded(floats, entries, defs) && k < |entries|
    requires forall later :: k < later < |entries| ==> IdOf(entries[later]) != IdOf(entries[k])
    ensures IdOf(entries[k]) < |defs| && defs[IdOf(entries[k])].Some?
    ensures Decodes(floats, DefOf(entries[k].value), defs[IdOf(entries[k])].value)
  {
    hide Decodes, DefOf, IsDefValue, IdOf;
    var i := IdOf(entries[k]);
    assert LoadedAt(floats, entries, |entries|, i, defs[i]);
  }
}
