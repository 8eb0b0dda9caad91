/** The part of reflection that the NBT codec uses: type shapes and values. */
module NbtTypes {
  import opened Blocks

  /** A string, as its bytes. */
  type Text = seq<byte>

  const TAG_END: byte := 0
  const TAG_BYTE: byte := 1
  const TAG_SHORT: byte := 2
  const TAG_INT: byte := 3
  const TAG_LONG: byte := 4
  const TAG_FLOAT: byte := 5
  const TAG_DOUBLE: byte := 6
  const TAG_BYTE_ARRAY: byte := 7
  const TAG_STRING: byte := 8
  const TAG_LIST: byte := 9
  const TAG_COMPOUND: byte := 10
  const TAG_INT_ARRAY: byte := 11
  const TAG_LONG_ARRAY: byte := 12

  /** Types. Slices of bytes, 32-bit and 64-bit integers are the three array shapes, never a
      ListShape. DynamicShape is the empty interface, OtherShape any type that NBT has no tag
      for, and NoShape stands for the missing target of a tag that is being skipped. */
  datatype Shape =
    | ByteShape
    | ShortShape
    | IntShape
    | LongShape
    | FloatShape
    | DoubleShape
    | StringShape
    | ByteArrayShape
    | IntArrayShape
    | LongArrayShape
    | ListShape(elem: Shape)
    | MapShape(elem: Shape)
    | StructShape(fields: seq<Field>)
    | DynamicShape
    | OtherShape
    | NoShape

  /** A struct field: its name, its `nbt` struct tag (or the empty text), and whether it is embedded. */
  datatype Field = Field(name: Text, tag: Text, anonymous: bool, shape: Shape)

  /** Values. Floating-point numbers are their bit patterns. A map is the list of its entries in
      the order in which an iteration visits them. A nil slice or map is the empty one. An interface
      holds its value as it is, except that a value whose type cannot be told from it is boxed with
      its type. */
  datatype Value =
    | ByteValue(b: int)
    | ShortValue(s: int)
    | IntValue(i: int)
    | LongValue(l: int)
    | FloatValue(bits32: int)
    | DoubleValue(bits64: int)
    | StringValue(text: Text)
    | ByteArrayValue(bytes: seq<byte>)
    | IntArrayValue(ints: seq<int>)
    | LongArrayValue(longs: seq<int>)
    | ListValue(elems: seq<Value>)
    | MapValue(entries: seq<Entry>)
    | StructValue(values: seq<Value>)
    | BoxedValue(shape: Shape, value: Value)
    | NilValue
    | OtherValue
    | NoValue

  datatype Entry = Entry(key: Text, value: Value)

  predicate Int16(n: int) { -0x8000 <= n < 0x8000 }
  predicate Int32(n: int) { -0x8000_0000 <= n < 0x8000_0000 }
  predicate Int64(n: int) { -0x8000_0000_0000_0000 <= n < 0x8000_0000_0000_0000 }

  function TagType(shape: Shape): byte {
    match shape
    case ByteShape => TAG_BYTE
    case ShortShape => TAG_SHORT
    case IntShape => TAG_INT
    case LongShape => TAG_LONG
    case FloatShape => TAG_FLOAT
    case DoubleShape => TAG_DOUBLE
    case StringShape => TAG_STRING
    case ByteArrayShape => TAG_BYTE_ARRAY
    case IntArrayShape => TAG_INT_ARRAY
    case LongArrayShape => TAG_LONG_ARRAY
    case ListShape(_) => TAG_LIST
    case MapShape(_) => TAG_COMPOUND
    case StructShape(_) => TAG_COMPOUND
    case DynamicShape => TAG_END
    case OtherShape => TAG_END
    case NoShape => TAG_END
  }

  /** The type that a value found in an interface has. */
  function NaturalShape(v: Value): Shape {
    match v
    case ByteValue(_) => ByteShape
    case ShortValue(_) => ShortShape
    case IntValue(_) => IntShape
    case LongValue(_) => LongShape
    case FloatValue(_) => FloatShape
    case DoubleValue(_) => DoubleShape
    case StringValue(_) => StringShape
    case ByteArrayValue(_) => ByteArrayShape
    case IntArrayValue(_) => IntArrayShape
    case LongArrayValue(_) => LongArrayShape
    case MapValue(_) => MapShape(DynamicShape)
    case BoxedValue(shape, _) => shape
    case _ => OtherShape
  }

  /** The type of a value of the given static type, looking into interfaces. */
  function ShapeOf(shape: Shape, v: Value): Shape {
    if shape.DynamicShape? then NaturalShape(v) else shape
  }

  /** The value in an interface, or the value itself. */
  function Unboxed(v: Value): Value {
    if v.BoxedValue? then v.value else v
  }

  /** The types whose values are boxed in an interface. */
  predicate Boxable(shape: Shape) {
    shape.ListShape? || shape.StructShape? || shape.OtherShape? || (shape.MapShape? && !shape.elem.DynamicShape?)
  }

  predicate HasPlainShape(shape: Shape, v: Value) {
    match shape
    case ByteShape => v.ByteValue? && 0 <= v.b < 256
    case ShortShape => v.ShortValue? && Int16(v.s)
    case IntShape => v.IntValue? && Int32(v.i)
    case LongShape => v.LongValue? && Int64(v.l)
    case FloatShape => v.FloatValue? && 0 <= v.bits32 < 0x1_0000_0000
    case DoubleShape => v.DoubleValue? && 0 <= v.bits64 < 0x1_0000_0000_0000_0000
    case StringShape => v.StringValue?
    case ByteArrayShape => v.ByteArrayValue?
    case IntArrayShape => v.IntArrayValue? && forall k :: 0 <= k < |v.ints| ==> Int32(v.ints[k])
    case LongArrayShape => v.LongArrayValue? && forall k :: 0 <= k < |v.longs| ==> Int64(v.longs[k])
    case OtherShape => v.OtherValue?
    case NoShape => v.NoValue?
    case _ => false
  }

  /** Static typing. An interface that is not nil holds a plain value, a map of interfaces, or a value
      boxed with its type. */
  ghost predicate HasShape(shape: Shape, v: Value)
    decreases v, 0
  {
    match shape
    case ListShape(elem) => v.ListValue? && forall k :: 0 <= k < |v.elems| ==> HasShape(elem, v.elems[k])
    case MapShape(elem) => v.MapValue? && forall k :: 0 <= k < |v.entries| ==> HasShape(elem, v.entries[k].value)
    case StructShape(fields) =>
      v.StructValue? && |v.values| == |fields|
      && forall k :: 0 <= k < |fields| ==> HasShape(fields[k].shape, v.values[k])
    case DynamicShape =>
      if v.MapValue? then forall k :: 0 <= k < |v.entries| ==> HasShape(DynamicShape, v.entries[k].value)
      else if v.BoxedValue? then Boxable(v.shape) && HasShape(v.shape, v.value)
      else !v.OtherValue? && HasPlainShape(NaturalShape(v), v)
    case _ => HasPlainShape(shape, v)
  }

  /** The zero value of a type. */
  function Zero(shape: Shape): Value {
    match shape
    case ByteShape => ByteValue(0)
    case ShortShape => ShortValue(0)
    case IntShape => IntValue(0)
    case LongShape => LongValue(0)
    case FloatShape => FloatValue(0)
    case DoubleShape => DoubleValue(0)
    case StringShape => StringValue([])
    case ByteArrayShape => ByteArrayValue([])
    case IntArrayShape => IntArrayValue([])
    case LongArrayShape => LongArrayValue([])
    case ListShape(_) => ListValue([])
    case MapShape(_) => MapValue([])
    case StructShape(fields) =>
      StructValue(seq(|fields|, k requires 0 <= k < |fields| => Zero(fields[k].shape)))
    case DynamicShape => NilValue
    case OtherShape => OtherValue
    case NoShape => NoValue
  }
}
