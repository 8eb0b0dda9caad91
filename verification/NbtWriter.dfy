/** Writing NBT. */
module NbtWriter {
  import opened Blocks
  import opened BigEndian
  import opened NbtTypes

  // ------------------------------------------------------------------
  // The bytes of a value.

  function TextBytes(t: Text): seq<byte> {
    Word(2, |t|) + t
  }

  /** The name under which a field is written. */
  function FieldName(f: Field): Text {
    if f.tag == [] then f.name else f.tag
  }

  /** The struct tag that keeps a field from being written. */
  const OMIT: Text := ['-' as int]

  function PlainBytes(v: Value): seq<byte> {
    match v
    case ByteValue(b) => [b % 256]
    case ShortValue(s) => Word(2, s)
    case IntValue(i) => Word(4, i)
    case LongValue(l) => Word(8, l)
    case FloatValue(bits) => Word(4, bits)
    case DoubleValue(bits) => Word(8, bits)
    case StringValue(text) => TextBytes(text)
    case ByteArrayValue(bytes) => Word(4, |bytes|) + bytes
    case IntArrayValue(ints) => Word(4, |ints|) + Words(4, ints)
    case LongArrayValue(longs) => Word(4, |longs|) + Words(8, longs)
    case _ => []
  }

  function PayloadBytes(shape: Shape, v: Value): seq<byte>
    decreases v, 0
  {
    match v
    case ListValue(elems) =>
      if shape.ListShape? then [TagType(shape.elem)] + Word(4, |elems|) + ElemsBytes(shape.elem, elems) else []
    case MapValue(entries) =>
      if shape.MapShape? then EntriesBytes(shape.elem, entries) + [TAG_END] else []
    case StructValue(values) =>
      if shape.StructShape? then FieldsBytes(shape.fields, values) + [TAG_END] else []
    case _ => PlainBytes(v)
  }

  function ElemsBytes(elem: Shape, elems: seq<Value>): seq<byte>
    decreases elems, 1
  {
    if elems == [] then [] else PayloadBytes(elem, elems[0]) + ElemsBytes(elem, elems[1..])
  }

  function EntriesBytes(elem: Shape, entries: seq<Entry>): seq<byte>
    decreases entries, 1
  {
    if entries == [] then []
    else TagBytes(entries[0].key, elem, entries[0].value) + EntriesBytes(elem, entries[1..])
  }

  function FieldBytes(f: Field, v: Value): seq<byte>
    decreases v, 2
  {
    if f.anonymous then
      if f.shape.MapShape? && v.MapValue? then EntriesBytes(f.shape.elem, v.entries) else []
    else if f.tag == OMIT then []
    else TagBytes(FieldName(f), f.shape, v)
  }

  function FieldsBytes(fields: seq<Field>, values: seq<Value>): seq<byte>
    decreases values, 3
  {
    if fields == [] || values == [] then []
    else FieldBytes(fields[0], values[0]) + FieldsBytes(fields[1..], values[1..])
  }

  function TagBytes(name: Text, shape: Shape, v: Value): seq<byte>
    decreases v, 1
  {
    [TagType(ShapeOf(shape, v))] + TextBytes(name) + PayloadBytes(ShapeOf(shape, v), Unboxed(v))
  }

  // ------------------------------------------------------------------
  // Which values can be written: the others are reported as "invalid type".

  ghost predicate PayloadWritable(shape: Shape, v: Value)
    decreases v, 0
  {
    match v
    case ListValue(elems) =>
      shape.ListShape? ==>
        TagType(shape.elem) != TAG_END && forall k :: 0 <= k < |elems| ==> PayloadWritable(shape.elem, elems[k])
    case MapValue(entries) =>
      shape.MapShape? ==> EntriesWritable(shape.elem, entries)
    case StructValue(values) =>
      shape.StructShape? ==>
        forall k :: 0 <= k < |values| && k < |shape.fields| ==> FieldWritable(shape.fields[k], values[k])
    case _ => true
  }

  ghost predicate EntriesWritable(elem: Shape, entries: seq<Entry>)
    decreases entries, 2
  {
    forall k :: 0 <= k < |entries| ==> TagWritable(elem, entries[k].value)
  }

  ghost predicate TagWritable(shape: Shape, v: Value)
    decreases v, 1
  {
    TagType(ShapeOf(shape, v)) != TAG_END && PayloadWritable(ShapeOf(shape, v), Unboxed(v))
  }

  ghost predicate FieldWritable(f: Field, v: Value)
    decreases v, 2
  {
    if f.anonymous then f.shape.MapShape? && v.MapValue? ==> EntriesWritable(f.shape.elem, v.entries)
    else f.tag != OMIT ==> TagWritable(f.shape, v)
  }

  lemma NaturallyShaped(shape: Shape, v: Value)
    requires HasShape(shape, v)
    ensures HasShape(ShapeOf(shape, v), Unboxed(v)) && !ShapeOf(shape, v).DynamicShape?
  {
  }

  lemma Untagged(shape: Shape)
    ensures shape.DynamicShape? ==> TagType(shape) == TAG_END
  {
  }

  // ------------------------------------------------------------------
  // The encoder.

  class NbtEncoder {
    /** What has been written so far. */
    var w: seq<byte>

    constructor ()
      ensures w == []
    {
      w := [];
    }

    method WriteByte(b: byte)
      modifies this
      ensures w == old(w) + [b]
    {
      w := w + [b];
    }

    method WriteWord(k: nat, n: int)
      modifies this
      ensures w == old(w) + Word(k, n)
    {
      w := w + Word(k, n);
    }

    method WriteString(text: Text)
      modifies this
      ensures w == old(w) + TextBytes(text)
    {
      WriteWord(2, |text|);
      w := w + text;
    }

    method WriteArray(k: nat, ns: seq<int>)
      modifies this
      ensures w == old(w) + Word(4, |ns|) + Words(k, ns)
    {
      WriteWord(4, |ns|);
      w := w + Words(k, ns);
    }

    method WriteList(elem: Shape, elems: seq<Value>) returns (ok: bool)
      requires forall k :: 0 <= k < |elems| ==> HasShape(elem, elems[k])
      modifies this
      ensures ok <==> TagType(elem) != TAG_END && forall k :: 0 <= k < |elems| ==> PayloadWritable(elem, elems[k])
      ensures ok ==> w == old(w) + ([TagType(elem)] + Word(4, |elems|) + ElemsBytes(elem, elems))
      decreases elems, 1
    {
      hide Word, PayloadBytes, PayloadWritable, TagType, HasShape;
      var tagType := TagType(elem);
      if tagType == TAG_END {
        return false;
      }
      Untagged(elem);
      ghost var origin := w;
      WriteByte(tagType);
      WriteWord(4, |elems|);
      assert w == origin + ([tagType] + Word(4, |elems|));
      AppendStep(origin, [tagType] + Word(4, |elems|), ElemsBytes(elem, elems));
      ghost var start := w;
      assert elems[0..] == elems;
      for i := 0 to |elems|
        invariant forall k :: 0 <= k < i ==> PayloadWritable(elem, elems[k])
        invariant w + ElemsBytes(elem, elems[i..]) == start + ElemsBytes(elem, elems)
      {
        ghost var before := w;
        ok := WritePayload(elem, elems[i]);
        if !ok {
          return;
        }
        assert elems[i..][1..] == elems[i + 1..];
        AppendStep(before, PayloadBytes(elem, elems[i]), ElemsBytes(elem, elems[i + 1..]));
      }
      ok := true;
    }

    method WriteEntries(elem: Shape, entries: seq<Entry>) returns (ok: bool)
      requires forall k :: 0 <= k < |entries| ==> HasShape(elem, entries[k].value)
      modifies this
      ensures ok <==> EntriesWritable(elem, entries)
      ensures ok ==> w == old(w) + EntriesBytes(elem, entries)
      decreases entries, 2
    {
      hide HasShape, TagBytes, TagWritable;
      ghost var start := w;
      assert entries[0..] == entries;
      for i := 0 to |entries|
        invariant forall k :: 0 <= k < i ==> TagWritable(elem, entries[k].value)
        invariant w + EntriesBytes(elem, entries[i..]) == start + EntriesBytes(elem, entries)
      {
        ghost var before := w;
        ok := WriteTag(entries[i].key, elem, entries[i].value);
        if !ok {
          return;
        }
        assert entries[i..][1..] == entries[i + 1..];
        AppendStep(before, TagBytes(entries[i].key, elem, entries[i].value), EntriesBytes(elem, entries[i + 1..]));
      }
      ok := true;
    }

    method WriteFields(fields: seq<Field>, values: seq<Value>) returns (ok: bool)
      requires |fields| == |values| && forall k :: 0 <= k < |fields| ==> HasShape(fields[k].shape, values[k])
      modifies this
      ensures ok <==> forall k :: 0 <= k < |fields| ==> FieldWritable(fields[k], values[k])
      ensures ok ==> w == old(w) + FieldsBytes(fields, values)
      decreases values, 3
    {
      hide TagBytes, TagWritable, EntriesBytes, EntriesWritable, HasPlainShape;
      ghost var start := w;
      assert fields[0..] == fields && values[0..] == values;
      for i := 0 to |fields|
        invariant forall k :: 0 <= k < i ==> FieldWritable(fields[k], values[k])
        invariant w + FieldsBytes(fields[i..], values[i..]) == start + FieldsBytes(fields, values)
      {
        ghost var before := w;
        var field := fields[i];
        assert fields[i..][1..] == fields[i + 1..] && values[i..][1..] == values[i + 1..];
        AppendStep(before, FieldBytes(field, values[i]), FieldsBytes(fields[i + 1..], values[i + 1..]));
        if field.anonymous {
          if field.shape.MapShape? {
            ok := WriteEntries(field.shape.elem, values[i].entries);
            if !ok {
              return;
            }
          }
          continue;
        }
        if field.tag == OMIT {
          continue;
        }
        ok := WriteTag(if field.tag == [] then field.name else field.tag, field.shape, values[i]);
        if !ok {
          return;
        }
      }
      ok := true;
    }

    method WritePayload(shape: Shape, v: Value) returns (ok: bool)
      requires HasShape(shape, v) && !shape.DynamicShape?
      modifies this
      ensures ok <==> PayloadWritable(shape, v)
      ensures ok ==> w == old(w) + PayloadBytes(shape, v)
      decreases v, 0
    {
      hide PlainBytes, Word, TagType, EntriesBytes, FieldsBytes, ElemsBytes, EntriesWritable, FieldWritable;
      ok := true;
      if v.ListValue? {
        ok := WriteList(shape.elem, v.elems);
      } else if v.MapValue? {
        ok := WriteEntries(shape.elem, v.entries);
        if ok {
          WriteByte(TAG_END);
        }
      } else if v.StructValue? {
        ok := WriteFields(shape.fields, v.values);
        if ok {
          WriteByte(TAG_END);
        }
      } else {
        WritePlain(v);
      }
    }

    /** The payloads without parts. */
    method WritePlain(v: Value)
      modifies this
      ensures w == old(w) + PlainBytes(v)
    {
      hide Word, Words, TextBytes;
      match v
      case ByteValue(b) => WriteByte(b % 256);
      case ShortValue(s) => WriteWord(2, s);
      case IntValue(i) => WriteWord(4, i);
      case LongValue(l) => WriteWord(8, l);
      case FloatValue(bits) => WriteWord(4, bits);
      case DoubleValue(bits) => WriteWord(8, bits);
      case StringValue(text) => WriteString(text);
      case ByteArrayValue(bytes) =>
        WriteWord(4, |bytes|);
        w := w + bytes;
      case IntArrayValue(ints) => WriteArray(4, ints);
      case LongArrayValue(longs) => WriteArray(8, longs);
      case _ =>
    }

    method WriteTag(name: Text, shape: Shape, v: Value) returns (ok: bool)
      requires HasShape(shape, v)
      modifies this
      ensures ok <==> TagWritable(shape, v)
      ensures ok ==> w == old(w) + TagBytes(name, shape, v)
      decreases v, 1
    {
      hide HasShape, PayloadBytes, PayloadWritable, TagType, NaturalShape, TextBytes;
      NaturallyShaped(shape, v);
      var dynamic := ShapeOf(shape, v);
      var tagType := TagType(dynamic);
      if tagType == TAG_END {
        return false;
      }
      WriteByte(tagType);
      WriteString(name);
      ok := WritePayload(dynamic, if v.BoxedValue? then v.value else v);
    }
  }

  lemma AppendStep(a: seq<byte>, b: seq<byte>, c: seq<byte>)
    ensures (a + b) + c == a + (b + c)
  {
  }
}
