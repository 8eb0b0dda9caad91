/** Reading NBT into a target of a given shape. */
module NbtReader {
  import opened Blocks
  import opened BigEndian
  import opened NbtTypes
  import opened Options

  /** strings.ToLower; nothing is assumed about it here. */
  type Lowering = Text -> Text

  /** The result of reading: the new value of the target, an error with the target as far as it was
      filled, or a run-time panic. The stream stays usable after an error, because an error inside
      a list is not passed on. */
  datatype Outcome =
    | Ok(value: Value, rest: seq<byte>)
    | Err(value: Value, rest: seq<byte>)
    | Panic

  datatype TagOutcome =
    | End(rest: seq<byte>)
    | Tag(value: Value, rest: seq<byte>)
    | TagErr(value: Value, rest: seq<byte>)
    | TagPanic

  // ------------------------------------------------------------------
  // Plain payloads.

  function ReadText(r: seq<byte>): (o: Outcome)
    ensures o.Ok? ==> o.value.StringValue? && |o.rest| + 2 <= |r|
    ensures o.Err? ==> |o.rest| <= |r|
  {
    if |r| < 2 then Err(NoValue, []) else
      var n := Signed(r[..2]);
      if n < 0 then Panic
      else if |r| - 2 < n then Err(NoValue, [])
      else Ok(StringValue(r[2..][..n]), r[2..][n..])
  }

  /** The body of an array of n elements of k bytes each, after its length. */
  function ReadArray(k: nat, r: seq<byte>): (o: Option<(nat, seq<byte>)>)
    requires |r| >= 4
    ensures o.Some? ==> o.value.0 * k + |o.value.1| + 4 == |r|
  {
    var n := Signed(r[..4]);
    if 0 <= n && n * k <= |r| - 4 then Some((n, r[4..][n * k..])) else None
  }

  function ReadPlain(tag: byte, r: seq<byte>): (o: Outcome)
    ensures o.Ok? || o.Err? ==> |o.rest| <= |r|
    ensures o.Ok? ==> |o.rest| < |r|
  {
    if tag == TAG_BYTE then if |r| < 1 then Err(NoValue, []) else Ok(ByteValue(r[0]), r[1..])
    else if tag == TAG_SHORT then if |r| < 2 then Err(NoValue, []) else Ok(ShortValue(Signed(r[..2])), r[2..])
    else if tag == TAG_INT then if |r| < 4 then Err(NoValue, []) else Ok(IntValue(Signed(r[..4])), r[4..])
    else if tag == TAG_LONG then if |r| < 8 then Err(NoValue, []) else Ok(LongValue(Signed(r[..8])), r[8..])
    else if tag == TAG_FLOAT then if |r| < 4 then Err(NoValue, []) else Ok(FloatValue(Unsigned(r[..4])), r[4..])
    else if tag == TAG_DOUBLE then if |r| < 8 then Err(NoValue, []) else Ok(DoubleValue(Unsigned(r[..8])), r[8..])
    else if tag == TAG_STRING then ReadText(r)
    else if tag == TAG_BYTE_ARRAY || tag == TAG_INT_ARRAY || tag == TAG_LONG_ARRAY then
      if |r| < 4 then Err(NoValue, [])
      else if Signed(r[..4]) < 0 then Panic
      else
        var k := if tag == TAG_BYTE_ARRAY then 1 else if tag == TAG_INT_ARRAY then 4 else 8;
        match ReadArray(k, r)
        case None => Err(NoValue, [])
        case Some((n, rest)) =>
          var body := r[4..][..n * k];
          Ok(if tag == TAG_BYTE_ARRAY then ByteArrayValue(body)
             else if tag == TAG_INT_ARRAY then IntArrayValue(SignedWords(4, body))
             else LongArrayValue(SignedWords(8, body)), rest)
    else Err(NoValue, r)
  }

  // ------------------------------------------------------------------
  // Targets.

  /** Whether a field is the target of a tag with this lower-case name. */
  predicate FieldMatches(lower: Lowering, f: Field, key: Text) {
    lower(f.tag) == key || (lower(f.tag) == [] && lower(f.name) == key)
  }

  /** The first matching field, or the number of fields. */
  function FindField(lower: Lowering, fields: seq<Field>, key: Text): (i: nat)
    ensures i <= |fields|
  {
    if fields == [] || FieldMatches(lower, fields[0], key) then 0
    else 1 + FindField(lower, fields[1..], key)
  }

  /** The first embedded map, or the number of fields. */
  function FindCatchAll(fields: seq<Field>): (i: nat)
    ensures i <= |fields|
    ensures i < |fields| ==> fields[i].anonymous && fields[i].shape.MapShape?
  {
    if fields == [] || (fields[0].anonymous && fields[0].shape.MapShape?) then 0
    else 1 + FindCatchAll(fields[1..])
  }

  /** Where the payload of a named tag goes: nowhere, into a field, into an entry of the target
      map, or into an entry of an embedded map. */
  datatype Slot =
    | Skipped
    | InField(i: nat)
    | InEntry(elem: Shape)
    | InEmbedded(i: nat, elem: Shape)

  function Locate(lower: Lowering, shape: Shape, cur: Value, name: Text): (slot: Slot)
    ensures slot.InField? ==> shape.StructShape? && cur.StructValue? && slot.i < |shape.fields| == |cur.values|
    ensures slot.InEmbedded? ==> shape.StructShape? && cur.StructValue? && slot.i < |shape.fields| == |cur.values|
  {
    match shape
    case StructShape(fields) =>
      if !cur.StructValue? || |cur.values| != |fields| then Skipped else
        var i := FindField(lower, fields, lower(name));
        var j := FindCatchAll(fields);
        if i < |fields| then InField(i)
        else if j < |fields| then InEmbedded(j, fields[j].shape.elem)
        else Skipped
    case MapShape(elem) => InEntry(elem)
    case _ => Skipped
  }

  /** The shape and the initial value of what is read into a slot. */
  function SlotShape(shape: Shape, slot: Slot): Shape
    requires slot.InField? ==> shape.StructShape? && slot.i < |shape.fields|
  {
    match slot
    case Skipped => NoShape
    case InField(i) => shape.fields[i].shape
    case InEntry(elem) => elem
    case InEmbedded(_, elem) => elem
  }

  function SlotStart(shape: Shape, cur: Value, slot: Slot): Value
    requires slot.InField? ==> cur.StructValue? && slot.i < |cur.values|
  {
    match slot
    case Skipped => NoValue
    case InField(i) => cur.values[i]
    case InEntry(elem) => Zero(elem)
    case InEmbedded(_, elem) => Zero(elem)
  }

  function SetEntry(entries: seq<Entry>, key: Text, v: Value): seq<Entry> {
    if entries == [] then [Entry(key, v)]
    else if entries[0].key == key then [Entry(key, v)] + entries[1..]
    else [entries[0]] + SetEntry(entries[1..], key, v)
  }

  function MapEntries(v: Value): seq<Entry> {
    if v.MapValue? then v.entries else []
  }

  /** The target after the payload has been stored. */
  function Stored(cur: Value, slot: Slot, name: Text, v: Value): Value
    requires slot.InField? || slot.InEmbedded? ==> cur.StructValue? && slot.i < |cur.values|
  {
    match slot
    case Skipped => cur
    case InField(i) => cur.(values := cur.values[i := v])
    case InEntry(_) => MapValue(SetEntry(MapEntries(cur), name, v))
    case InEmbedded(i, _) =>
      cur.(values := cur.values[i := MapValue(SetEntry(MapEntries(cur.values[i]), name, v))])
  }

  /** The element type of the types that have one. */
  function ElemShape(shape: Shape): Option<Shape> {
    match shape
    case ListShape(elem) => Some(elem)
    case ByteArrayShape => Some(ByteShape)
    case IntArrayShape => Some(IntShape)
    case LongArrayShape => Some(LongShape)
    case MapShape(elem) => Some(elem)
    case _ => None
  }

  /** Appending to a slice; appending to anything else is a panic. */
  function Appended(acc: Value, v: Value): Option<Value> {
    match acc
    case ListValue(elems) => Some(ListValue(elems + [v]))
    case ByteArrayValue(bytes) => if v.ByteValue? then Some(ByteArrayValue(bytes + [v.b % 256])) else None
    case IntArrayValue(ints) => if v.IntValue? then Some(IntArrayValue(ints + [v.i])) else None
    case LongArrayValue(longs) => if v.LongValue? then Some(LongArrayValue(longs + [v.l])) else None
    case _ => None
  }

  // ------------------------------------------------------------------
  // The reader as a function of the stream.

  function ReadPayload(lower: Lowering, tag: byte, shape: Shape, cur: Value, r: seq<byte>): (o: Outcome)
    ensures o.Ok? || o.Err? ==> |o.rest| <= |r|
    decreases |r|, 5, 0
  {
    if tag == TAG_LIST then
      match ReadList(lower, shape, cur, r)
      case Ok(v, rest) => Ok(v, rest)
      case Err(_, rest) => Ok(cur, rest)
      case Panic => Panic
    else if tag == TAG_COMPOUND then ReadCompound(lower, shape, cur, r)
    else
      match ReadPlain(tag, r)
      case Ok(v, rest) =>
        if shape.NoShape? then Ok(cur, rest)
        else if shape.DynamicShape? || TagType(shape) == tag then Ok(v, rest)
        else Panic
      case Err(_, rest) => Err(cur, rest)
      case Panic => Panic
  }

  function ReadList(lower: Lowering, shape: Shape, cur: Value, r: seq<byte>): (o: Outcome)
    ensures o.Ok? || o.Err? ==> |o.rest| <= |r|
    decreases |r|, 4, 0
  {
    if |r| < 5 then Err(cur, []) else ReadElems(lower, r[0], Signed(r[1..5]), shape, cur, r[5..])
  }

  function ReadElems(lower: Lowering, tag: byte, n: int, shape: Shape, acc: Value, r: seq<byte>): (o: Outcome)
    ensures o.Ok? || o.Err? ==> |o.rest| <= |r|
    decreases |r|, 6, n
  {
    if n <= 0 then Ok(acc, r) else
      match ElemShape(shape)
      case None => Panic
      case Some(elem) =>
        match ReadPayload(lower, tag, elem, Zero(elem), r)
        case Ok(v, rest) =>
          (match Appended(acc, v)
           case None => Panic
           case Some(acc') => ReadElems(lower, tag, n - 1, shape, acc', rest))
        case Err(_, rest) => Err(acc, rest)
        case Panic => Panic
  }

  function ReadCompound(lower: Lowering, shape: Shape, cur: Value, r: seq<byte>): (o: Outcome)
    ensures o.Ok? || o.Err? ==> |o.rest| <= |r|
    decreases |r|, 4, 0
  {
    if shape.DynamicShape? then ReadTags(lower, MapShape(DynamicShape), MapValue([]), r)
    else ReadTags(lower, shape, cur, r)
  }

  function ReadTags(lower: Lowering, shape: Shape, cur: Value, r: seq<byte>): (o: Outcome)
    ensures o.Ok? || o.Err? ==> |o.rest| <= |r|
    decreases |r|, 3, 0
  {
    match ReadTag(lower, shape, cur, r)
    case End(rest) => Ok(cur, rest)
    case Tag(v, rest) => ReadTags(lower, shape, v, rest)
    case TagErr(v, rest) => Err(v, rest)
    case TagPanic => Panic
  }

  function ReadTag(lower: Lowering, shape: Shape, cur: Value, r: seq<byte>): (o: TagOutcome)
    ensures o.End? || o.Tag? ==> |o.rest| < |r|
    ensures o.TagErr? ==> |o.rest| <= |r|
    decreases |r|, 2, 0
  {
    if |r| < 1 then TagErr(cur, [])
    else if r[0] == TAG_END then End(r[1..])
    else
      match ReadText(r[1..])
      case Err(_, rest) => TagErr(cur, rest)
      case Panic => TagPanic
      case Ok(name, rest) =>
        var slot := Locate(lower, shape, cur, name.text);
        match ReadPayload(lower, r[0], SlotShape(shape, slot), SlotStart(shape, cur, slot), rest)
        case Ok(v, rest') => Tag(Stored(cur, slot, name.text, v), rest')
        case Err(v, rest') => TagErr(Stored(cur, slot, name.text, v), rest')
        case Panic => TagPanic
  }
}
