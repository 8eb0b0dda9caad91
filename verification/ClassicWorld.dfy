/** The ClassicWorld level format: its NBT shape, and saving and loading of colours and
    block definitions. */
module ClassicWorld {
  import opened Blocks
  import opened NbtTypes
  import opened Options

  /** The bytes of an ASCII name. */
  function T(s: string): (t: Text)
    ensures |t| == |s| && forall k :: 0 <= k < |s| ==> t[k] == s[k] as int % 256
  {
    seq(|s|, k requires 0 <= k < |s| => s[k] as int % 256)
  }

  function F(name: string, shape: Shape): Field {
    Field(T(name), [], false, shape)
  }

  /** An embedded map. */
  function E(name: string, elem: Shape): Field {
    Field(T(name), [], true, MapShape(elem))
  }

  // ------------------------------------------------------------------
  // Shapes.

  const SPAWN := StructShape([
    F("X", ShortShape), F("Y", ShortShape), F("Z", ShortShape), F("H", ByteShape), F("P", ByteShape)])

  const CLICK_DISTANCE := StructShape([F("ExtensionVersion", ShortShape), F("Distance", ShortShape)])

  const COLOR := StructShape([F("R", ShortShape), F("G", ShortShape), F("B", ShortShape)])

  const ENV_COLORS := StructShape([
    F("ExtensionVersion", IntShape), F("Sky", COLOR), F("Cloud", COLOR), F("Fog", COLOR), F("Ambient", COLOR),
    F("Sunlight", COLOR)])

  const ENV_MAP_APPEARANCE := StructShape([
    F("ExtensionVersion", IntShape), F("TextureURL", StringShape), F("SideBlock", ByteShape),
    F("EdgeBlock", ByteShape), F("SideLevel", ShortShape)])

  const ENV_WEATHER_TYPE := StructShape([F("ExtensionVersion", IntShape), F("WeatherType", ByteShape)])

  const BLOCK_DEFINITION := StructShape([
    F("ID", ByteShape), F("Name", StringShape), F("Speed", FloatShape), F("CollideType", ByteShape),
    F("Textures", ByteArrayShape), F("TransmitsLight", ByteShape), F("FullBright", ByteShape),
    F("WalkSound", ByteShape), F("Shape", ByteShape), F("BlockDraw", ByteShape), F("Fog", ByteArrayShape),
    F("Coords", ByteArrayShape)])

  const BLOCK_DEFINITIONS := StructShape([
    F("ExtensionVersion", IntShape), E("CwBlockDefinitionMap", BLOCK_DEFINITION)])

  const CPE := StructShape([
    E("CwMetadataMap", DynamicShape), F("ClickDistance", CLICK_DISTANCE), F("EnvColors", ENV_COLORS),
    F("EnvMapAppearance", ENV_MAP_APPEARANCE), F("EnvWeatherType", ENV_WEATHER_TYPE),
    F("BlockDefinitions", BLOCK_DEFINITIONS)])

  const METADATA := StructShape([E("CwMetadataMap", DynamicShape), F("CPE", CPE)])

  const LEVEL := StructShape([
    F("FormatVersion", ByteShape), F("Name", StringShape), F("UUID", ByteArrayShape), F("X", ShortShape),
    F("Y", ShortShape), F("Z", ShortShape), F("TimeCreated", LongShape), F("Spawn", SPAWN),
    F("BlockArray", ByteArrayShape), F("Metadata", METADATA)])

  /** What Load reads the root tag into. */
  const ROOT := StructShape([F("ClassicWorld", LEVEL)])

  // ------------------------------------------------------------------
  // Colours.

  datatype NullRGB = NullRGB(valid: bool, r: byte, g: byte, b: byte)

  datatype CwColor = CwColor(r: int, g: int, b: int)

  function EncodeColor(c: NullRGB): CwColor {
    if c.valid then CwColor(c.r, c.g, c.b) else CwColor(-1, -1, -1)
  }

  function DecodeColor(c: CwColor): NullRGB {
    if c.r < 0 || c.g < 0 || c.b < 0 then NullRGB(false, 0, 0, 0)
    else NullRGB(true, c.r % 256, c.g % 256, c.b % 256)
  }

  function ColorValue(c: CwColor): Value {
    StructValue([ShortValue(c.r), ShortValue(c.g), ShortValue(c.b)])
  }

  // ------------------------------------------------------------------
  // Block definitions.

  datatype Vector3 = Vector3(x: int, y: int, z: int)

  /** Speed is the bit pattern of a double. */
  datatype BlockDefinition = BlockDefinition(
    name: Text, fallback: byte, speed: int, collideMode: byte, walkSound: byte, blockLight: bool,
    fullBright: bool, drawMode: byte, textures: seq<int>, shape: byte, min: Vector3, max: Vector3,
    fogDensity: byte, fogR: byte, fogG: byte, fogB: byte)

  /** What the file holds of a definition. Speed is the bit pattern of a single. */
  datatype CwBlockDefinition = CwBlockDefinition(
    id: byte, name: Text, speed: int, collideType: byte, textures: seq<byte>, transmitsLight: byte,
    fullBright: byte, walkSound: byte, shape: byte, blockDraw: byte, fog: seq<byte>, coords: seq<byte>)

  /** Conversion between single and double precision, on bit patterns; nothing is assumed about it
      except that a single has 32 bits. */
  datatype Floats = Floats(narrow: int -> int, widen: int -> int)

  ghost predicate SingleBits(floats: Floats) {
    forall x :: 0 <= floats.narrow(x) < 0x1_0000_0000
  }

  const FACE_POS_X := 0
  const FACE_NEG_X := 1
  const FACE_POS_Y := 2
  const FACE_NEG_Y := 3
  const FACE_POS_Z := 4
  const FACE_NEG_Z := 5

  /** The face that each position of a texture array belongs to. */
  const FACE_INDICES: seq<nat> := [FACE_POS_Y, FACE_NEG_Y, FACE_NEG_X, FACE_POS_X, FACE_NEG_Z, FACE_POS_Z]

  /** The position of a face in a texture array. */
  function PositionOf(face: nat): nat
    requires face < 6
  {
    if face == FACE_POS_Y then 0 else if face == FACE_NEG_Y then 1 else if face == FACE_NEG_X then 2
    else if face == FACE_POS_X then 3 else if face == FACE_NEG_Z then 4 else 5
  }

  /** Every face has exactly one position. */
  lemma FacePermutation(i: nat)
    requires i < 6
    ensures FACE_INDICES[i] < 6 && PositionOf(FACE_INDICES[i]) == i
    ensures PositionOf(i) < 6 && FACE_INDICES[PositionOf(i)] == i
  {
  }

  /** Conversion of an int to a byte keeps its lowest eight bits. */
  function ToByte(n: int): byte { n % 256 }

  /** The key of definition i: "Block" and the number in decimal. */
  function Decimal(n: nat): Text {
    if n < 10 then [48 + n] else Decimal(n / 10) + [48 + n % 10]
  }

  function DefKey(i: nat): Text {
    T("Block") + Decimal(i)
  }

  function DefValue(d: CwBlockDefinition): Value {
    StructValue([
      ByteValue(d.id), StringValue(d.name), FloatValue(d.speed), ByteValue(d.collideType),
      ByteArrayValue(d.textures), ByteValue(d.transmitsLight), ByteValue(d.fullBright), ByteValue(d.walkSound),
      ByteValue(d.shape), ByteValue(d.blockDraw), ByteArrayValue(d.fog), ByteArrayValue(d.coords)])
  }

  predicate IsByte(v: Value) {
    v.ByteValue? && 0 <= v.b < 256
  }

  predicate IsDefValue(v: Value) {
    && v.StructValue? && |v.values| == 12
    && IsByte(v.values[0]) && v.values[1].StringValue? && v.values[2].FloatValue? && IsByte(v.values[3])
    && v.values[4].ByteArrayValue? && IsByte(v.values[5]) && IsByte(v.values[6]) && IsByte(v.values[7])
    && IsByte(v.values[8]) && IsByte(v.values[9]) && v.values[10].ByteArrayValue? && v.values[11].ByteArrayValue?
  }

  function DefOf(v: Value): CwBlockDefinition
    requires IsDefValue(v)
  {
    CwBlockDefinition(
      v.values[0].b, v.values[1].text, v.values[2].bits32, v.values[3].b, v.values[4].bytes, v.values[5].b,
      v.values[6].b, v.values[7].b, v.values[8].b, v.values[9].b, v.values[10].bytes, v.values[11].bytes)
  }

  /** The two bytes of a texture number, for all faces: six low bytes, then six high bytes. */
  ghost predicate SplitTextures(textures: seq<int>, bytes: seq<byte>) {
    && |textures| == 6 && |bytes| == 12
    && forall i :: 0 <= i < 6 ==>
         && bytes[i] == ToByte(textures[FACE_INDICES[i]])
         && bytes[i + 6] == ToByte(textures[FACE_INDICES[i]] / 256)
  }

  method EncodeTextures(textures: seq<int>) returns (bytes: seq<byte>)
    requires |textures| == 6
    ensures SplitTextures(textures, bytes)
  {
    bytes := [0, 0, 0, 0, 0, 0, 0, 0, 0, 0, 0, 0];
    for i := 0 to 6
      invariant |bytes| == 12
      invariant forall k :: 0 <= k < i ==>
                  && bytes[k] == ToByte(textures[FACE_INDICES[k]])
                  && bytes[k + 6] == ToByte(textures[FACE_INDICES[k]] / 256)
    {
      var face := FACE_INDICES[i];
      bytes := bytes[i := ToByte(textures[face])][i + 6 := ToByte(textures[face] / 256)];
    }
  }

  /** The texture number of each face, from a texture array of either length. */
  ghost predicate JoinedTextures(bytes: seq<byte>, textures: seq<int>) {
    && |textures| == 6
    && (|bytes| < 6 ==> textures == [0, 0, 0, 0, 0, 0])
    && (|bytes| >= 6 ==> forall i :: 0 <= i < 6 ==>
          textures[FACE_INDICES[i]] == TextureAt(bytes, i))
  }

  /** The number in position i of a texture array. */
  function TextureAt(bytes: seq<byte>, i: nat): int
    requires i < 6 <= |bytes|
  {
    bytes[i] as int + if |bytes| >= 12 then bytes[i + 6] as int * 256 else 0
  }

  method DecodeTextures(bytes: seq<byte>) returns (textures: seq<int>)
    ensures JoinedTextures(bytes, textures)
  {
    textures := [0, 0, 0, 0, 0, 0];
    if |bytes| >= 6 {
      var extended := |bytes| >= 12;
      for i := 0 to 6
        invariant |textures| == 6
        invariant forall k :: 0 <= k < i ==> textures[FACE_INDICES[k]] == TextureAt(bytes, k)
      {
        var face := FACE_INDICES[i];
        var texture: int := bytes[i];
        if extended {
          texture := texture + bytes[i + 6] as int * 256;
        }
        forall k | 0 <= k < i
          ensures FACE_INDICES[k] != face
        {
          FacePermutation(k);
          FacePermutation(i);
        }
        textures := textures[face := texture];
      }
    }
  }

  /** What a definition with id i is stored as. */
  ghost predicate Encodes(floats: Floats, i: nat, def: BlockDefinition, d: CwBlockDefinition) {
    && SplitTextures(def.textures, d.textures)
    && d == CwBlockDefinition(
         ToByte(i), def.name, floats.narrow(def.speed), def.collideMode, d.textures,
         if def.blockLight then 0 else 1, if def.fullBright then 1 else 0, def.walkSound, def.shape, def.drawMode,
         [def.fogDensity, def.fogR, def.fogG, def.fogB],
         [ToByte(def.min.x), ToByte(def.min.y), ToByte(def.min.z), ToByte(def.max.x), ToByte(def.max.y),
           ToByte(def.max.z)])
  }

  /** What a stored definition is loaded as. */
  ghost predicate Decodes(floats: Floats, d: CwBlockDefinition, def: BlockDefinition) {
    && JoinedTextures(d.textures, def.textures)
    && def == BlockDefinition(
         d.name, 0, floats.widen(d.speed), d.collideType, d.walkSound, d.transmitsLight == 0, d.fullBright == 1,
         d.blockDraw, def.textures, d.shape,
         if |d.coords| == 6 then Vector3(d.coords[0], d.coords[1], d.coords[2]) else Vector3(0, 0, 0),
         if |d.coords| == 6 then Vector3(d.coords[3], d.coords[4], d.coords[5]) else Vector3(0, 0, 0),
         if |d.fog| == 4 then d.fog[0] else 0, if |d.fog| == 4 then d.fog[1] else 0,
         if |d.fog| == 4 then d.fog[2] else 0, if |d.fog| == 4 then d.fog[3] else 0)
  }

  method EncodeDefinition(floats: Floats, i: nat, def: BlockDefinition) returns (d: CwBlockDefinition)
    requires |def.textures| == 6
    ensures Encodes(floats, i, def, d)
  {
    var textures := EncodeTextures(def.textures);
    var transmitsLight: byte, fullBright: byte := 1, 0;
    if def.blockLight {
      transmitsLight := 0;
    }
    if def.fullBright {
      fullBright := 1;
    }
    d := CwBlockDefinition(
      ToByte(i), def.name, floats.narrow(def.speed), def.collideMode, textures, transmitsLight, fullBright,
      def.walkSound, def.shape, def.drawMode, [def.fogDensity, def.fogR, def.fogG, def.fogB],
      [ToByte(def.min.x), ToByte(def.min.y), ToByte(def.min.z), ToByte(def.max.x), ToByte(def.max.y),
        ToByte(def.max.z)]);
  }

  method DecodeDefinition(floats: Floats, d: CwBlockDefinition) returns (def: BlockDefinition)
    ensures Decodes(floats, d, def)
  {
    var textures := DecodeTextures(d.textures);
    def := BlockDefinition(
      d.name, 0, floats.widen(d.speed), d.collideType, d.walkSound, d.transmitsLight == 0, d.fullBright == 1,
      d.blockDraw, textures, d.shape, Vector3(0, 0, 0), Vector3(0, 0, 0), 0, 0, 0, 0);
    if |d.fog| == 4 {
      def := def.(fogDensity := d.fog[0], fogR := d.fog[1], fogG := d.fog[2], fogB := d.fog[3]);
    }
    if |d.coords| == 6 {
      def := def.(min := Vector3(d.coords[0], d.coords[1], d.coords[2]),
                  max := Vector3(d.coords[3], d.coords[4], d.coords[5]));
    }
  }

  /** A definition whose numbers the format can hold. */
  predicate Storable(def: BlockDefinition) {
    && |def.name| < 0x8000
    && |def.textures| == 6 && (forall i :: 0 <= i < 6 ==> 0 <= def.textures[i] < 0x1_0000)
    && 0 <= def.min.x < 256 && 0 <= def.min.y < 256 && 0 <= def.min.z < 256
    && 0 <= def.max.x < 256 && 0 <= def.max.y < 256 && 0 <= def.max.z < 256
  }

  /** What saving and loading may change: the fallback is lost and the speed is rounded. */
  function Restored(floats: Floats, def: BlockDefinition): BlockDefinition {
    def.(fallback := 0, speed := floats.widen(floats.narrow(def.speed)))
  }

  /** The texture numbers come back through the face permutation and the two byte halves. */
  lemma TexturesRestored(textures: seq<int>, bytes: seq<byte>, back: seq<int>)
    requires |textures| == 6 && forall i :: 0 <= i < 6 ==> 0 <= textures[i] < 0x1_0000
    requires SplitTextures(textures, bytes) && JoinedTextures(bytes, back)
    ensures back == textures
  {
    forall face | 0 <= face < 6
      ensures back[face] == textures[face]
    {
      FacePermutation(face);
      var i := PositionOf(face);
      assert back[FACE_INDICES[i]] == TextureAt(bytes, i);
    }
  }

  /** Every storable definition comes back, except for its fallback and the rounding of its speed. */
  lemma DefinitionRestored(floats: Floats, i: nat, def: BlockDefinition, d: CwBlockDefinition, back: BlockDefinition)
    requires Storable(def) && Encodes(floats, i, def, d) && Decodes(floats, d, back)
    ensures back == Restored(floats, def)
  {
    hide SplitTextures, JoinedTextures;
    TexturesRestored(def.textures, d.textures, back.textures);
  }

  lemma ColorRestored(c: NullRGB)
    ensures DecodeColor(EncodeColor(c)) == if c.valid then c else NullRGB(false, 0, 0, 0)
  {
  }

  lemma ValueRestored(d: CwBlockDefinition)
    ensures IsDefValue(DefValue(d)) && DefOf(DefValue(d)) == d
  {
  }

  // ------------------------------------------------------------------
  // The map of definitions.

  lemma {:induction false} DecimalInjective(a: nat, b: nat)
    requires Decimal(a) == Decimal(b)
    ensures a == b
  {
    DecimalLength(a);
    DecimalLength(b);
    var last := Decimal(a)[|Decimal(a)| - 1];
    assert last == 48 + a % 10 && last == 48 + b % 10;
    if a >= 10 && b >= 10 {
      assert Decimal(a)[..|Decimal(a)| - 1] == Decimal(a / 10);
      assert Decimal(b)[..|Decimal(b)| - 1] == Decimal(b / 10);
      DecimalInjective(a / 10, b / 10);
    }
  }

  lemma {:induction false} DecimalLength(n: nat)
    ensures |Decimal(n)| >= 1 && (n >= 10 <==> |Decimal(n)| >= 2)
  {
    if n >= 10 {
      DecimalLength(n / 10);
    }
  }

  lemma DefKeyInjective(a: nat, b: nat)
    requires DefKey(a) == DefKey(b)
    ensures a == b
  {
    assert DefKey(a)[5..] == Decimal(a) && DefKey(b)[5..] == Decimal(b);
    DecimalInjective(a, b);
  }

  function IdOf(e: Entry): byte
    requires IsDefValue(e.value)
  {
    e.value.values[0].b
  }

  /** `entries` holds the definitions with the ids in `ids`, which are all there are. */
  ghost predicate Saved(floats: Floats, defs: seq<Option<BlockDefinition>>, ids: seq<nat>, entries: seq<Entry>) {
    && |ids| == |entries|
    && (forall i :: i in ids <==> 0 <= i < |defs| && defs[i].Some?)
    && (forall j, k :: 0 <= j < k < |ids| ==> ids[j] < ids[k])
    && (forall k :: 0 <= k < |ids| ==>
          && ids[k] < |defs| && defs[ids[k]].Some?
          && entries[k].key == DefKey(ids[k])
          && IsDefValue(entries[k].value)
          && entries[k].value == DefValue(DefOf(entries[k].value))
          && Encodes(floats, ids[k], defs[ids[k]].value, DefOf(entries[k].value)))
  }

  lemma NothingSaved(floats: Floats, defs: seq<Option<BlockDefinition>>)
    requires defs == []
    ensures Saved(floats, defs, [], [])
  {
  }

  lemma OneMoreSaved(floats: Floats, defs: seq<Option<BlockDefinition>>, ids: seq<nat>, entries: seq<Entry>,
                     def: BlockDefinition, d: CwBlockDefinition)
    requires Saved(floats, defs, ids, entries) && Encodes(floats, |defs|, def, d)
    ensures Saved(floats, defs + [Some(def)], ids + [|defs|], entries + [Entry(DefKey(|defs|), DefValue(d))])
  {
    hide DefValue, IsDefValue, DefOf, Encodes, DefKey;
    ValueRestored(d);
    forall k | 0 <= k < |ids|
      ensures ids[k] < |defs|
    {
      assert ids[k] in ids;
    }
  }

  lemma NoneSaved(floats: Floats, defs: seq<Option<BlockDefinition>>, ids: seq<nat>, entries: seq<Entry>)
    requires Saved(floats, defs, ids, entries)
    ensures Saved(floats, defs + [None], ids, entries)
  {
    hide DefValue, IsDefValue, DefOf, Encodes, DefKey;
  }

  method SaveDefs(floats: Floats, defs: seq<Option<BlockDefinition>>) returns (entries: seq<Entry>)
    requires forall i :: 0 <= i < |defs| && defs[i].Some? ==> |defs[i].value.textures| == 6
    ensures exists ids :: Saved(floats, defs, ids, entries)
  {
    hide Saved, DefValue, DefKey;
    entries := [];
    ghost var ids: seq<nat> := [];
    NothingSaved(floats, defs[..0]);
    for i := 0 to |defs|
      invariant Saved(floats, defs[..i], ids, entries)
    {
      assert defs[..i + 1] == defs[..i] + [defs[i]];
      if defs[i].Some? {
        var d := EncodeDefinition(floats, i, defs[i].value);
        OneMoreSaved(floats, defs[..i], ids, entries, defs[i].value, d);
        entries := entries + [Entry(DefKey(i), DefValue(d))];
        ids := ids + [i];
      } else {
        NoneSaved(floats, defs[..i], ids, entries);
      }
    }
    assert defs[..|defs|] == defs;
  }

  /** `defs` has the definition of the last entry of each id, up to the highest id. */
  ghost predicate Loaded(floats: Floats, entries: seq<Entry>, defs: seq<Option<BlockDefinition>>) {
    && (forall k :: 0 <= k < |entries| ==> IsDefValue(entries[k].value) && IdOf(entries[k]) < |defs|)
    && (|defs| > 0 ==> exists k :: 0 <= k < |entries| && IdOf(entries[k]) == |defs| - 1)
    && forall i :: 0 <= i < |defs| ==> LoadedAt(floats, entries, |entries|, i, defs[i])
  }

  /** What the first n entries put at index i. */
  ghost predicate LoadedAt(floats: Floats, entries: seq<Entry>, n: nat, i: nat, def: Option<BlockDefinition>)
    requires n <= |entries|
    requires forall k :: 0 <= k < |entries| ==> IsDefValue(entries[k].value)
  {
    match def
    case None => forall k :: 0 <= k < n ==> IdOf(entries[k]) != i
    case Some(d) =>
      exists k :: 0 <= k < n && IdOf(entries[k]) == i && Decodes(floats, DefOf(entries[k].value), d)
                  && forall later :: k < later < n ==> IdOf(entries[later]) != i
  }

  method LoadDefs(floats: Floats, entries: seq<Entry>) returns (defs: seq<Option<BlockDefinition>>)
    requires forall k :: 0 <= k < |entries| ==> IsDefValue(entries[k].value)
    ensures Loaded(floats, entries, defs)
  {
    hide DefOf, Decodes, IsDefValue, IdOf;
    var count := CountIds(entries);
    defs := seq(count, _ => None);
    for n := 0 to |entries|
      invariant |defs| == count
      invariant forall i :: 0 <= i < |defs| ==> LoadedAt(floats, entries, n, i, defs[i])
    {
      var def := DecodeDefinition(floats, DefOf(entries[n].value));
      ghost var before := defs;
      defs := defs[IdOf(entries[n]) := Some(def)];
      forall i | 0 <= i < |defs|
        ensures LoadedAt(floats, entries, n + 1, i, defs[i])
      {
        OneMoreLoaded(floats, entries, n, i, before[i], def);
      }
    }
  }

  lemma OneMoreLoaded(floats: Floats, entries: seq<Entry>, n: nat, i: nat, before: Option<BlockDefinition>,
                      def: BlockDefinition)
    requires forall k :: 0 <= k < |entries| ==> IsDefValue(entries[k].value)
    requires n < |entries| && LoadedAt(floats, entries, n, i, before)
    requires Decodes(floats, DefOf(entries[n].value), def)
    ensures LoadedAt(floats, entries, n + 1, i, if IdOf(entries[n]) == i then Some(def) else before)
  {
    hide DefOf, Decodes, IsDefValue, IdOf;
  }

  /** One more than the highest id, or 0 without definitions. */
  method CountIds(entries: seq<Entry>) returns (count: nat)
    requires forall k :: 0 <= k < |entries| ==> IsDefValue(entries[k].value)
    ensures forall k :: 0 <= k < |entries| ==> IdOf(entries[k]) < count
    ensures count > 0 ==> exists k :: 0 <= k < |entries| && IdOf(entries[k]) == count - 1
  {
    hide IsDefValue, IdOf;
    count := 0;
    for n := 0 to |entries|
      invariant forall k :: 0 <= k < n ==> IdOf(entries[k]) < count
      invariant count > 0 ==> exists k :: 0 <= k < n && IdOf(entries[k]) == count - 1
    {
      if IdOf(entries[n]) >= count {
        count := IdOf(entries[n]) + 1;
      }
    }
  }

  /** The definitions after saving and loading: each at its id, and no trailing empty places. */
  ghost predicate RestoredDefs(floats: Floats, defs: seq<Option<BlockDefinition>>, back: seq<Option<BlockDefinition>>) {
    && |back| <= |defs|
    && (forall i :: 0 <= i < |back| ==>
          back[i] == if defs[i].Some? then Some(Restored(floats, defs[i].value)) else None)
    && (forall i :: |back| <= i < |defs| ==> defs[i].None?)
    && (|back| > 0 ==> back[|back| - 1].Some?)
  }

  lemma EncodedId(floats: Floats, i: nat, def: BlockDefinition, e: Entry)
    requires i < 256 && IsDefValue(e.value) && Encodes(floats, i, def, DefOf(e.value))
    ensures IdOf(e) == i
  {
    hide SplitTextures;
    assert DefOf(e.value).id == i;
  }

  /** The entry that holds definition i. */
  lemma SavedEntry(floats: Floats, defs: seq<Option<BlockDefinition>>, ids: seq<nat>, entries: seq<Entry>, i: nat)
    returns (e: Entry)
    requires Saved(floats, defs, ids, entries) && |defs| <= 256
    requires i < |defs| && defs[i].Some?
    ensures e in entries && IsDefValue(e.value) && IdOf(e) == i
    ensures Encodes(floats, i, defs[i].value, DefOf(e.value))
  {
    hide DefValue, DefOf, Encodes, IsDefValue, IdOf;
    assert i in ids;
    var k :| 0 <= k < |ids| && ids[k] == i;
    e := entries[k];
    EncodedId(floats, i, defs[i].value, e);
  }

  /** Every saved entry holds the definition of its id. */
  lemma EntryHolds(floats: Floats, defs: seq<Option<BlockDefinition>>, ids: seq<nat>, entries: seq<Entry>, e: Entry)
    requires Saved(floats, defs, ids, entries) && |defs| <= 256
    requires e in entries
    ensures IsDefValue(e.value) && IdOf(e) < |defs| && defs[IdOf(e)].Some?
    ensures Encodes(floats, IdOf(e), defs[IdOf(e)].value, DefOf(e.value))
  {
    hide DefValue, DefOf, Encodes, IsDefValue, IdOf;
    var k :| 0 <= k < |entries| && entries[k] == e;
    EncodedId(floats, ids[k], defs[ids[k]].value, e);
  }

  /** Whatever order the saved entries are visited in, loading them restores every definition. */
  lemma DefsRestored(floats: Floats, defs: seq<Option<BlockDefinition>>, ids: seq<nat>, entries: seq<Entry>,
                     visited: seq<Entry>, back: seq<Option<BlockDefinition>>)
    requires Saved(floats, defs, ids, entries) && |defs| <= 256
    requires forall i :: 0 <= i < |defs| && defs[i].Some? ==> Storable(defs[i].value)
    requires forall e :: e in entries <==> e in visited
    requires Loaded(floats, visited, back)
    ensures RestoredDefs(floats, defs, back)
  {
    hide DefOf, Decodes, Encodes, IsDefValue, IdOf, Saved, Storable, Restored;
    if |back| > 0 {
      var k :| 0 <= k < |visited| && IdOf(visited[k]) == |back| - 1;
      EntryHolds(floats, defs, ids, entries, visited[k]);
    }
    forall i | 0 <= i < |defs|
      ensures i < |back| ==> back[i] == if defs[i].Some? then Some(Restored(floats, defs[i].value)) else None
      ensures i >= |back| ==> defs[i].None?
    {
      DefRestored(floats, defs, ids, entries, visited, back, i);
    }
    if |back| > 0 {
      var k :| 0 <= k < |visited| && IdOf(visited[k]) == |back| - 1;
      assert LoadedAt(floats, visited, |visited|, |back| - 1, back[|back| - 1]);
    }
  }

  lemma DefRestored(floats: Floats, defs: seq<Option<BlockDefinition>>, ids: seq<nat>, entries: seq<Entry>,
                    visited: seq<Entry>, back: seq<Option<BlockDefinition>>, i: nat)
    requires Saved(floats, defs, ids, entries) && |defs| <= 256 && i < |defs|
    requires defs[i].Some? ==> Storable(defs[i].value)
    requires forall e :: e in entries <==> e in visited
    requires Loaded(floats, visited, back)
    ensures i < |back| ==> back[i] == if defs[i].Some? then Some(Restored(floats, defs[i].value)) else None
    ensures i >= |back| ==> defs[i].None?
  {
    hide DefOf, Decodes, Encodes, IsDefValue, IdOf, Saved, Storable, Restored;
    if defs[i].Some? {
      var e := SavedEntry(floats, defs, ids, entries, i);
      assert e in visited;
    }
    if i < |back| {
      assert LoadedAt(floats, visited, |visited|, i, back[i]);
      if back[i].Some? {
        var k :| 0 <= k < |visited| && IdOf(visited[k]) == i && Decodes(floats, DefOf(visited[k].value), back[i].value);
        EntryHolds(floats, defs, ids, entries, visited[k]);
        DefinitionRestored(floats, i, defs[i].value, DefOf(visited[k].value), back[i].value);
      }
    }
  }
}
