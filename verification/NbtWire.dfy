/** The bytes of the NBT format itself, stated without the reader. Tag numbers, lengths and characters
    are given as numbers. */
module NbtWire {
  import opened BigEndian
  import opened NbtTypes
  import opened NbtWriter

  /** The tag number of every type; types without one get that of the end tag. */
  lemma TagNumbers(elem: Shape, fields: seq<Field>)
    ensures TagType(ByteShape) == 1 && TagType(ShortShape) == 2 && TagType(IntShape) == 3 && TagType(LongShape) == 4
    ensures TagType(FloatShape) == 5 && TagType(DoubleShape) == 6
    ensures TagType(ByteArrayShape) == 7 && TagType(StringShape) == 8
    ensures TagType(ListShape(elem)) == 9
    ensures TagType(MapShape(elem)) == 10 && TagType(StructShape(fields)) == 10
    ensures TagType(IntArrayShape) == 11 && TagType(LongArrayShape) == 12
    ensures TagType(DynamicShape) == 0 && TagType(OtherShape) == 0 && TagType(NoShape) == 0
    ensures TAG_END == 0
  {
  }

  /** Two bytes, the higher one first. */
  lemma TwoByteWord(n: int)
    ensures Word(2, n) == [n / 256 % 256, n % 256]
  {
    Powers();
    WordByte(2, n, 0);
    WordByte(2, n, 1);
  }

  /** Four bytes, the highest one first. */
  lemma FourByteWord(n: int)
    ensures Word(4, n) == [n / 0x100_0000 % 256, n / 0x1_0000 % 256, n / 0x100 % 256, n % 256]
  {
    Powers();
    hide Pow256, Word;
    forall i: nat | i < 4
      ensures Word(4, n)[i] == n / Pow256(3 - i) % 256
    {
      WordByte(4, n, i);
    }
  }

  /** A tag is its number, the length of its name in two bytes, the name, and its payload. In an
      interface the value counts, not the interface. */
  lemma TagLayout(name: Text, shape: Shape, v: Value)
    ensures TagBytes(name, shape, v)
         == [TagType(ShapeOf(shape, v)), |name| / 256 % 256, |name| % 256] + name
            + PayloadBytes(ShapeOf(shape, v), Unboxed(v))
    ensures !shape.DynamicShape? ==> ShapeOf(shape, v) == shape
    ensures !v.BoxedValue? ==> Unboxed(v) == v
  {
    TwoByteWord(|name|);
    hide PayloadBytes, TagType, NaturalShape, Word;
    AppendStep([TagType(ShapeOf(shape, v))], [|name| / 256 % 256, |name| % 256], name);
  }

  /** Numbers, whatever the static type of the place they are found in; the highest byte comes first. */
  lemma NumberPayloads(shape: Shape, n: int)
    ensures PayloadBytes(shape, ByteValue(n)) == [n % 256]
    ensures PayloadBytes(shape, ShortValue(n)) == [n / 256 % 256, n % 256]
    ensures PayloadBytes(shape, IntValue(n)) == PayloadBytes(shape, FloatValue(n))
         == [n / 0x100_0000 % 256, n / 0x1_0000 % 256, n / 0x100 % 256, n % 256]
    ensures var p := PayloadBytes(shape, LongValue(n));
            && p == PayloadBytes(shape, DoubleValue(n)) && |p| == 8
            && forall i :: 0 <= i < 8 ==> p[i] == n / Pow256(7 - i) % 256
  {
    TwoByteWord(n);
    FourByteWord(n);
    forall i: nat | i < 8
      ensures Word(8, n)[i] == n / Pow256(7 - i) % 256
    {
      WordByte(8, n, i);
    }
    hide Word;
  }

  /** A string has its length in two bytes before it, an array in four. */
  lemma SeriesPayloads(shape: Shape, text: Text, ns: seq<int>)
    ensures PayloadBytes(shape, StringValue(text)) == [|text| / 256 % 256, |text| % 256] + text
    ensures PayloadBytes(shape, ByteArrayValue(text))
         == [|text| / 0x100_0000 % 256, |text| / 0x1_0000 % 256, |text| / 0x100 % 256, |text| % 256] + text
    ensures PayloadBytes(shape, IntArrayValue(ns))
         == [|ns| / 0x100_0000 % 256, |ns| / 0x1_0000 % 256, |ns| / 0x100 % 256, |ns| % 256] + Words(4, ns)
    ensures PayloadBytes(shape, LongArrayValue(ns))
         == [|ns| / 0x100_0000 % 256, |ns| / 0x1_0000 % 256, |ns| / 0x100 % 256, |ns| % 256] + Words(8, ns)
  {
    TwoByteWord(|text|);
    FourByteWord(|text|);
    FourByteWord(|ns|);
    hide Word, Words;
  }

  /** The elements of arrays follow each other, each with its highest byte first. */
  lemma IntElement(ns: seq<int>, m: nat)
    requires m < |ns|
    ensures |Words(4, ns)| == 4 * |ns|
    ensures Words(4, ns)[4 * m..4 * m + 4]
         == [ns[m] / 0x100_0000 % 256, ns[m] / 0x1_0000 % 256, ns[m] / 0x100 % 256, ns[m] % 256]
  {
    hide Word, Words;
    WordsAt(4, ns, m);
    FourByteWord(ns[m]);
  }

  lemma LongElement(ns: seq<int>, m: nat)
    requires m < |ns|
    ensures |Words(8, ns)| == 8 * |ns|
    ensures var word := Words(8, ns)[8 * m..8 * m + 8];
            forall i :: 0 <= i < 8 ==> word[i] == ns[m] / Pow256(7 - i) % 256
  {
    hide Pow256, Word, Words;
    WordsAt(8, ns, m);
    var word := Words(8, ns)[8 * m..8 * m + 8];
    forall i | 0 <= i < 8
      ensures word[i] == ns[m] / Pow256(7 - i) % 256
    {
      WordByte(8, ns[m], i);
    }
  }

  // ------------------------------------------------------------------
  // What lies between the parts of a value that has parts: nothing.

  /** A list is the tag number of its elements, their count in four bytes, and their payloads. A map or
      struct is its tags and a zero byte. */
  lemma ContainerPayloads(elem: Shape, elems: seq<Value>, entries: seq<Entry>, fields: seq<Field>, values: seq<Value>)
    ensures PayloadBytes(ListShape(elem), ListValue(elems))
         == [TagType(elem), |elems| / 0x100_0000 % 256, |elems| / 0x1_0000 % 256, |elems| / 0x100 % 256,
              |elems| % 256] + ElemsBytes(elem, elems)
    ensures PayloadBytes(MapShape(elem), MapValue(entries)) == EntriesBytes(elem, entries) + [0]
    ensures PayloadBytes(StructShape(fields), StructValue(values)) == FieldsBytes(fields, values) + [0]
  {
    FourByteWord(|elems|);
    hide Word, ElemsBytes, EntriesBytes, FieldsBytes, TagType;
  }

  lemma {:induction false} ElemsFollow(elem: Shape, a: seq<Value>, b: seq<Value>)
    ensures ElemsBytes(elem, []) == []
    ensures forall v :: ElemsBytes(elem, [v]) == PayloadBytes(elem, v)
    ensures ElemsBytes(elem, a + b) == ElemsBytes(elem, a) + ElemsBytes(elem, b)
  {
    hide PayloadBytes;
    forall v ensures ElemsBytes(elem, [v]) == PayloadBytes(elem, v) {
      assert [v][1..] == [];
    }
    if a == [] {
      assert a + b == b;
    } else {
      assert (a + b)[1..] == a[1..] + b;
      ElemsFollow(elem, a[1..], b);
    }
  }

  lemma {:induction false} EntriesFollow(elem: Shape, a: seq<Entry>, b: seq<Entry>)
    ensures EntriesBytes(elem, []) == []
    ensures forall e :: EntriesBytes(elem, [e]) == TagBytes(e.key, elem, e.value)
    ensures EntriesBytes(elem, a + b) == EntriesBytes(elem, a) + EntriesBytes(elem, b)
  {
    hide TagBytes;
    forall e ensures EntriesBytes(elem, [e]) == TagBytes(e.key, elem, e.value) {
      assert [e][1..] == [];
    }
    if a == [] {
      assert a + b == b;
    } else {
      assert (a + b)[1..] == a[1..] + b;
      EntriesFollow(elem, a[1..], b);
    }
  }

  lemma {:induction false} FieldsFollow(fields: seq<Field>, values: seq<Value>, n: nat)
    requires |fields| == |values| && n <= |fields|
    ensures FieldsBytes([], []) == []
    ensures forall f, v :: FieldsBytes([f], [v]) == FieldBytes(f, v)
    ensures FieldsBytes(fields, values) == FieldsBytes(fields[..n], values[..n]) + FieldsBytes(fields[n..], values[n..])
  {
    hide FieldBytes;
    forall f, v ensures FieldsBytes([f], [v]) == FieldBytes(f, v) {
      assert [f][1..] == [] && [v][1..] == [];
    }
    if n > 0 {
      FieldsFollow(fields[1..], values[1..], n - 1);
      assert fields[..n][1..] == fields[1..][..n - 1] && values[..n][1..] == values[1..][..n - 1];
      assert fields[n..] == fields[1..][n - 1..] && values[n..] == values[1..][n - 1..];
    } else {
      assert fields[..0] == [] && values[..0] == [];
      assert fields[0..] == fields && values[0..] == values;
    }
  }

  /** How a field is written: an embedded map as its entries, other embedded fields and those tagged
      with a hyphen (45) not at all, and any other under its struct tag or else its name. */
  lemma FieldLayout(f: Field, v: Value)
    ensures f.anonymous && f.shape.MapShape? && v.MapValue? ==>
              FieldBytes(f, v) == EntriesBytes(f.shape.elem, v.entries)
    ensures f.anonymous && !f.shape.MapShape? ==> FieldBytes(f, v) == []
    ensures !f.anonymous && f.tag == [45] ==> FieldBytes(f, v) == []
    ensures !f.anonymous && f.tag == [] ==> FieldBytes(f, v) == TagBytes(f.name, f.shape, v)
    ensures !f.anonymous && f.tag != [] && f.tag != [45] ==> FieldBytes(f, v) == TagBytes(f.tag, f.shape, v)
  {
    hide EntriesBytes, TagBytes;
  }

  /** The short number 1 without a name, and a struct with one byte field named A that holds 5. */
  lemma SmallTags()
    ensures TagBytes([], ShortShape, ShortValue(1)) == [2, 0, 0, 0, 1]
    ensures TagBytes([], StructShape([Field([65], [], false, ByteShape)]), StructValue([ByteValue(5)]))
         == [10, 0, 0, 1, 0, 1, 65, 5, 0]
  {
    hide PayloadBytes, TagBytes, FieldBytes, FieldsBytes, Pow256;
    var field, value := Field([65], [], false, ByteShape), ByteValue(5);
    TagLayout([], ShortShape, ShortValue(1));
    NumberPayloads(ShortShape, 1);
    assert TagBytes([], ShortShape, ShortValue(1)) == [2, 0, 0, 0, 1];
    NumberPayloads(ByteShape, 5);
    TagLayout([65], ByteShape, value);
    FieldLayout(field, value);
    assert FieldBytes(field, value) == [1, 0, 1, 65, 5];
    FieldsFollow([field], [value], 1);
    ContainerPayloads(ByteShape, [], [], [field], [value]);
    TagLayout([], StructShape([field]), StructValue([value]));
  }
}
