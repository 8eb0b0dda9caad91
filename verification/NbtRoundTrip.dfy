/** Reading what was written gives the value back, and skips what the target does not know. */
module NbtRoundTrip {
  import opened Blocks
  import opened BigEndian
  import opened NbtTypes
  import opened NbtWriter
  import opened NbtReader
  import opened Options

  const MAX_TEXT := 0x8000
  const MAX_LENGTH := 0x8000_0000

  /** The fields of a struct can be told apart when reading: embedded fields are maps, at most one
      of them; no field is left out when writing; and each name leads back to its own field. */
  ghost predicate SupportedFields(lower: Lowering, fields: seq<Field>) {
    forall k :: 0 <= k < |fields| ==>
      && (fields[k].anonymous ==> fields[k].shape.MapShape? && k == FindCatchAll(fields))
      && (!fields[k].anonymous ==>
            && fields[k].tag != OMIT && |FieldName(fields[k])| < MAX_TEXT
            && FindField(lower, fields, lower(FieldName(fields[k]))) == k)
  }

  /** The types whose values survive: everything that has a tag, with interfaces only inside maps
      and structs. */
  ghost predicate Supported(lower: Lowering, shape: Shape) {
    match shape
    case ListShape(elem) => TagType(elem) != TAG_END && Supported(lower, elem)
    case MapShape(elem) => Supported(lower, elem)
    case StructShape(fields) =>
      SupportedFields(lower, fields) && forall k :: 0 <= k < |fields| ==> Supported(lower, fields[k].shape)
    case OtherShape => false
    case NoShape => false
    case _ => true
  }

  /** Keys are short enough and distinct. */
  ghost predicate GoodKeys(entries: seq<Entry>) {
    && (forall k :: 0 <= k < |entries| ==> |entries[k].key| < MAX_TEXT)
    && (forall i, k :: 0 <= i < k < |entries| ==> entries[i].key != entries[k].key)
  }

  /** No key of an embedded map is taken for a field. */
  ghost predicate KeysApart(lower: Lowering, fields: seq<Field>, entries: seq<Entry>) {
    forall k :: 0 <= k < |entries| ==> FindField(lower, fields, lower(entries[k].key)) == |fields|
  }

  predicate FitsPlain(v: Value) {
    match v
    case StringValue(text) => |text| < MAX_TEXT
    case ByteArrayValue(bytes) => |bytes| < MAX_LENGTH
    case IntArrayValue(ints) => |ints| < MAX_LENGTH
    case LongArrayValue(longs) => |longs| < MAX_LENGTH
    case BoxedValue(_, _) => false
    case _ => true
  }

  /** Lengths fit their length fields, and keys are unambiguous. */
  ghost predicate Fits(lower: Lowering, shape: Shape, v: Value)
    decreases v
  {
    match v
    case ListValue(elems) =>
      shape.ListShape? ==>
        |elems| < MAX_LENGTH && forall k :: 0 <= k < |elems| ==> Fits(lower, shape.elem, elems[k])
    case MapValue(entries) =>
      && GoodKeys(entries)
      && (shape.MapShape? ==> forall k :: 0 <= k < |entries| ==> Fits(lower, shape.elem, entries[k].value))
      && (shape.DynamicShape? ==> forall k :: 0 <= k < |entries| ==> Fits(lower, DynamicShape, entries[k].value))
    case StructValue(values) =>
      shape.StructShape? && |values| == |shape.fields| ==>
        forall k :: 0 <= k < |values| ==>
          && Fits(lower, shape.fields[k].shape, values[k])
          && (shape.fields[k].anonymous ==> KeysApart(lower, shape.fields, MapEntries(values[k])))
    case _ => FitsPlain(v)
  }

  // ------------------------------------------------------------------
  // Words, texts and plain payloads.

  lemma WordThen(k: nat, n: int, rest: seq<byte>)
    ensures (Word(k, n) + rest)[..k] == Word(k, n)
    ensures (Word(k, n) + rest)[k..] == rest
  {
    hide Word;
  }

  lemma LengthThen(k: nat, n: nat, rest: seq<byte>)
    requires k > 0 && n < Pow256(k) / 2
    ensures Signed((Word(k, n) + rest)[..k]) == n
    ensures (Word(k, n) + rest)[k..] == rest
  {
    hide Word, Signed;
    WordThen(k, n, rest);
    SignedWord(k, n);
  }

  lemma TextThen(t: Text, rest: seq<byte>)
    requires |t| < MAX_TEXT
    ensures ReadText(TextBytes(t) + rest) == Ok(StringValue(t), rest)
  {
    hide Word, Signed;
    Powers();
    AppendStep(Word(2, |t|), t, rest);
    LengthThen(2, |t|, t + rest);
    assert (t + rest)[..|t|] == t && (t + rest)[|t|..] == rest;
  }

  /** A written text is read back exactly if its length fits a signed 16-bit number; the writer
      accepts every text. */
  lemma TextIffShort(t: Text, rest: seq<byte>)
    ensures ReadText(TextBytes(t) + rest) == Ok(StringValue(t), rest) <==> |t| < 0x8000
  {
    if |t| < MAX_TEXT {
      TextThen(t, rest);
    } else {
      AppendStep(Word(2, |t|), t, rest);
      WordThen(2, |t|, t + rest);
      TwoBytes(|t|);
    }
  }

  /** Two bytes never hold a length of 2^15 or more. */
  lemma TwoBytes(n: nat)
    ensures Signed(Word(2, n)) < MAX_TEXT
  {
    Powers();
    var w := Word(2, n);
    assert Word(1, n / 256) == Word(0, n / 256 / 256) + [n / 256 % 256];
    assert w[..1] == Word(1, n / 256);
    assert w[..1][..0] == [];
    assert Unsigned(w[..1]) == w[0];
    assert Unsigned(w) == w[0] as int * 256 + w[1];
  }

  lemma FixedThen(shape: Shape, v: Value, rest: seq<byte>)
    requires HasPlainShape(shape, v)
    requires shape.ByteShape? || shape.ShortShape? || shape.IntShape? || shape.LongShape? || shape.FloatShape?
             || shape.DoubleShape?
    ensures ReadPlain(TagType(shape), PlainBytes(v) + rest) == Ok(v, rest)
  {
    hide Word, Signed, Unsigned, ReadText, ReadArray, Pow256;
    Powers();
    match shape
    case ShortShape => WordThen(2, v.s, rest); SignedWord(2, v.s);
    case IntShape => WordThen(4, v.i, rest); SignedWord(4, v.i);
    case LongShape => WordThen(8, v.l, rest); SignedWord(8, v.l);
    case FloatShape => WordThen(4, v.bits32, rest); UnsignedWord(4, v.bits32);
    case DoubleShape => WordThen(8, v.bits64, rest); UnsignedWord(8, v.bits64);
    case _ =>
  }

  lemma ArrayThen(k: nat, n: nat, body: seq<byte>, rest: seq<byte>)
    requires n < MAX_LENGTH && |body| == n * k
    ensures ReadArray(k, Word(4, n) + body + rest) == Some((n, rest))
    ensures Signed((Word(4, n) + body + rest)[..4]) == n
    ensures (Word(4, n) + body + rest)[4..][..n * k] == body
  {
    hide Word, Signed;
    Powers();
    AppendStep(Word(4, n), body, rest);
    LengthThen(4, n, body + rest);
    assert (body + rest)[..n * k] == body && (body + rest)[n * k..] == rest;
  }

  lemma PlainThen(shape: Shape, v: Value, rest: seq<byte>)
    requires HasPlainShape(shape, v) && FitsPlain(v) && TagType(shape) != TAG_END
    ensures ReadPlain(TagType(shape), PlainBytes(v) + rest) == Ok(v, rest)
  {
    hide Word, Words, SignedWords, Signed, Unsigned, ReadText, ReadArray, TextBytes, Pow256;
    Powers();
    match shape
    case StringShape => TextThen(v.text, rest);
    case ByteArrayShape => ArrayThen(1, |v.bytes|, v.bytes, rest);
    case IntArrayShape =>
      WordsLength(4, v.ints);
      SignedWordsOf(4, v.ints);
      ArrayThen(4, |v.ints|, Words(4, v.ints), rest);
    case LongArrayShape =>
      WordsLength(8, v.longs);
      SignedWordsOf(8, v.longs);
      ArrayThen(8, |v.longs|, Words(8, v.longs), rest);
    case _ => FixedThen(shape, v, rest);
  }

  // ------------------------------------------------------------------
  // One tag.

  /** Reading a written tag stores what its payload reads as. */
  lemma TagThen(lower: Lowering, shape: Shape, cur: Value, name: Text, s: Shape, v: Value, slot: Slot, x: Value,
                rest: seq<byte>)
    requires |name| < MAX_TEXT && TagType(ShapeOf(s, v)) != TAG_END
    requires slot == Locate(lower, shape, cur, name)
    requires ReadPayload(lower, TagType(ShapeOf(s, v)), SlotShape(shape, slot), SlotStart(shape, cur, slot),
                         PayloadBytes(ShapeOf(s, v), Unboxed(v)) + rest) == Ok(x, rest)
    ensures ReadTag(lower, shape, cur, TagBytes(name, s, v) + rest) == Tag(Stored(cur, slot, name, x), rest)
  {
    hide ReadPayload, PayloadBytes, TextBytes, TagType, NaturalShape, Locate, SlotShape, SlotStart, Stored, ReadText;
    var tag := TagType(ShapeOf(s, v));
    var payload := PayloadBytes(ShapeOf(s, v), Unboxed(v));
    TextThen(name, payload + rest);
    TagAppend(tag, TextBytes(name), payload, rest);
  }

  lemma TagsThen(lower: Lowering, shape: Shape, cur: Value, r: seq<byte>, next: Value, rest: seq<byte>)
    requires ReadTag(lower, shape, cur, r) == Tag(next, rest)
    ensures ReadTags(lower, shape, cur, r) == ReadTags(lower, shape, next, rest)
  {
    hide ReadTag;
  }

  lemma TagAppend(tag: byte, name: seq<byte>, payload: seq<byte>, rest: seq<byte>)
    ensures var r := [tag] + name + payload + rest; r[0] == tag && r[1..] == name + (payload + rest)
  {
  }

  lemma EndThen(lower: Lowering, shape: Shape, cur: Value, rest: seq<byte>)
    ensures ReadTags(lower, shape, cur, [TAG_END] + rest) == Ok(cur, rest)
  {
  }

  lemma {:induction false} SetNewEntry(entries: seq<Entry>, key: Text, v: Value)
    requires forall k :: 0 <= k < |entries| ==> entries[k].key != key
    ensures SetEntry(entries, key, v) == entries + [Entry(key, v)]
  {
    if entries != [] {
      SetNewEntry(entries[1..], key, v);
    }
  }

  // ------------------------------------------------------------------
  // Round trips, by induction on the value.

  /** The type under which a value is written has a tag. */
  lemma Writable(lower: Lowering, shape: Shape, v: Value)
    requires HasShape(shape, v) && Supported(lower, shape) && Fits(lower, shape, v)
    ensures TagType(ShapeOf(shape, v)) != TAG_END && Unboxed(v) == v
  {
  }

  /** Reading the payload of a written value into a fresh target gives the value back and leaves
      exactly what followed it. */
  lemma {:induction false} PayloadRoundTrip(lower: Lowering, shape: Shape, v: Value, rest: seq<byte>)
    requires HasShape(shape, v) && Supported(lower, shape) && Fits(lower, shape, v)
    ensures ReadPayload(lower, TagType(ShapeOf(shape, v)), shape, Zero(shape),
            PayloadBytes(ShapeOf(shape, v), v) + rest)
         == Ok(v, rest)
    decreases v, 0, 0
  {
    hide ReadPayload, ReadTags, ReadElems, ElemsBytes, EntriesBytes, FieldsBytes, PlainBytes, FitsPlain,
         SupportedFields, GoodKeys, KeysApart;
    NaturallyShaped(shape, v);
    match v
    case ListValue(elems) =>
      ElemsRoundTrip(lower, shape.elem, elems, 0, rest);
      ListThen(lower, shape.elem, elems, rest);
    case MapValue(entries) =>
      var elem := if shape.DynamicShape? then DynamicShape else shape.elem;
      EntriesRoundTrip(lower, elem, entries, 0, rest);
      MapThen(lower, shape, elem, entries, rest);
    case StructValue(values) =>
      ZeroFields(shape.fields);
      FieldsRoundTrip(lower, shape.fields, values, Zero(shape).values, 0, rest);
      StructThen(lower, shape.fields, values, rest);
    case _ =>
      PlainPayloadThen(lower, shape, v, rest);
  }

  lemma PlainPayloadThen(lower: Lowering, shape: Shape, v: Value, rest: seq<byte>)
    requires HasShape(shape, v) && Supported(lower, shape) && Fits(lower, shape, v)
    requires !v.ListValue? && !v.MapValue? && !v.StructValue?
    ensures ReadPayload(lower, TagType(ShapeOf(shape, v)), shape, Zero(shape),
            PayloadBytes(ShapeOf(shape, v), v) + rest)
         == Ok(v, rest)
  {
    hide ReadPlain, PlainBytes;
    PlainThen(ShapeOf(shape, v), v, rest);
  }

  lemma ListThen(lower: Lowering, elem: Shape, elems: seq<Value>, rest: seq<byte>)
    requires |elems| < MAX_LENGTH
    requires ReadElems(lower, TagType(elem), |elems|, ListShape(elem), ListValue([]), ElemsBytes(elem, elems) + rest)
          == Ok(ListValue(elems), rest)
    ensures ReadPayload(lower, TAG_LIST, ListShape(elem), Zero(ListShape(elem)),
                        PayloadBytes(ListShape(elem), ListValue(elems)) + rest) == Ok(ListValue(elems), rest)
  {
    hide ReadElems, ElemsBytes, TagType, Word, Signed;
    var body := ElemsBytes(elem, elems) + rest;
    var all := PayloadBytes(ListShape(elem), ListValue(elems)) + rest;
    Powers();
    LengthThen(4, |elems|, body);
    TagAppend(TagType(elem), Word(4, |elems|), ElemsBytes(elem, elems), rest);
    assert all[0] == TagType(elem) && all[1..] == Word(4, |elems|) + body;
    assert all[1..5] == (Word(4, |elems|) + body)[..4];
    assert all[5..] == (Word(4, |elems|) + body)[4..];
  }

  lemma MapThen(lower: Lowering, shape: Shape, elem: Shape, entries: seq<Entry>, rest: seq<byte>)
    requires shape == MapShape(elem) || (shape.DynamicShape? && elem.DynamicShape?)
    requires ReadTags(lower, MapShape(elem), MapValue([]), EntriesBytes(elem, entries) + ([TAG_END] + rest))
          == Ok(MapValue(entries), rest)
    ensures ReadPayload(lower, TAG_COMPOUND, shape, Zero(shape),
                        PayloadBytes(MapShape(elem), MapValue(entries)) + rest) == Ok(MapValue(entries), rest)
  {
    hide ReadTags, EntriesBytes;
    AppendStep(EntriesBytes(elem, entries), [TAG_END], rest);
  }

  lemma StructThen(lower: Lowering, fields: seq<Field>, values: seq<Value>, rest: seq<byte>)
    requires ReadTags(lower, StructShape(fields), Zero(StructShape(fields)),
                      FieldsBytes(fields, values) + ([TAG_END] + rest)) == Ok(StructValue(values), rest)
    ensures ReadPayload(lower, TAG_COMPOUND, StructShape(fields), Zero(StructShape(fields)),
                        PayloadBytes(StructShape(fields), StructValue(values)) + rest) == Ok(StructValue(values), rest)
  {
    hide ReadTags, FieldsBytes, Zero;
    AppendStep(FieldsBytes(fields, values), [TAG_END], rest);
  }

  lemma {:induction false} ElemsRoundTrip(lower: Lowering, elem: Shape, elems: seq<Value>, m: nat, rest: seq<byte>)
    requires m <= |elems|
    requires TagType(elem) != TAG_END && Supported(lower, elem)
    requires forall k :: 0 <= k < |elems| ==> HasShape(elem, elems[k]) && Fits(lower, elem, elems[k])
    ensures ReadElems(lower, TagType(elem), |elems| - m, ListShape(elem), ListValue(elems[..m]),
                      ElemsBytes(elem, elems[m..]) + rest) == Ok(ListValue(elems), rest)
    decreases elems, 1, |elems| - m
  {
    hide ReadPayload, PayloadBytes, HasShape, Supported, Fits;
    if m == |elems| {
      assert elems[..m] == elems && elems[m..] == [];
    } else {
      var tail := ElemsBytes(elem, elems[m + 1..]) + rest;
      Untagged(elem);
      PayloadRoundTrip(lower, elem, elems[m], tail);
      ElemsRoundTrip(lower, elem, elems, m + 1, rest);
      assert elems[m..][1..] == elems[m + 1..];
      assert elems[..m] + [elems[m]] == elems[..m + 1];
      AppendStep(PayloadBytes(elem, elems[m]), ElemsBytes(elem, elems[m + 1..]), rest);
    }
  }

  /** One entry of a map, read into the slot for new entries. */
  lemma {:induction false} EntryRoundTrip(lower: Lowering, shape: Shape, cur: Value, elem: Shape, entry: Entry,
                                          slot: Slot,
                                          rest: seq<byte>)
    requires HasShape(elem, entry.value) && Supported(lower, elem) && Fits(lower, elem, entry.value)
    requires |entry.key| < MAX_TEXT
    requires slot == Locate(lower, shape, cur, entry.key)
    requires slot == InEntry(elem) || (slot.InEmbedded? && slot.elem == elem)
    ensures ReadTags(lower, shape, cur, TagBytes(entry.key, elem, entry.value) + rest)
         == ReadTags(lower, shape, Stored(cur, slot, entry.key, entry.value), rest)
    decreases entry, 0, 0
  {
    hide ReadTags, ReadPayload, PayloadBytes, HasShape, Supported, Fits, TagBytes, Stored, Locate;
    PayloadRoundTrip(lower, elem, entry.value, rest);
    Writable(lower, elem, entry.value);
    TagThen(lower, shape, cur, entry.key, elem, entry.value, slot, entry.value, rest);
    TagsThen(lower, shape, cur, TagBytes(entry.key, elem, entry.value) + rest,
      Stored(cur, slot, entry.key, entry.value), rest);
  }

  lemma {:induction false} EntriesRoundTrip(lower: Lowering, elem: Shape, entries: seq<Entry>, m: nat, rest: seq<byte>)
    requires m <= |entries| && GoodKeys(entries) && Supported(lower, elem)
    requires forall k :: 0 <= k < |entries| ==> HasShape(elem, entries[k].value) && Fits(lower, elem, entries[k].value)
    ensures ReadTags(lower, MapShape(elem), MapValue(entries[..m]),
            EntriesBytes(elem, entries[m..]) + ([TAG_END] + rest))
         == Ok(MapValue(entries), rest)
    decreases entries, 1, |entries| - m
  {
    hide ReadTags, HasShape, Supported, Fits, TagBytes;
    if m == |entries| {
      assert entries[..m] == entries && entries[m..] == [];
      assert EntriesBytes(elem, entries[m..]) + ([TAG_END] + rest) == [TAG_END] + rest;
      EndThen(lower, MapShape(elem), MapValue(entries), rest);
    } else {
      var cur := MapValue(entries[..m]);
      var tail := EntriesBytes(elem, entries[m + 1..]) + ([TAG_END] + rest);
      EntryRoundTrip(lower, MapShape(elem), cur, elem, entries[m], InEntry(elem), tail);
      SetNewEntry(entries[..m], entries[m].key, entries[m].value);
      assert entries[..m] + [entries[m]] == entries[..m + 1];
      EntriesRoundTrip(lower, elem, entries, m + 1, rest);
      assert entries[m..][1..] == entries[m + 1..];
      AppendStep(TagBytes(entries[m].key, elem, entries[m].value), EntriesBytes(elem, entries[m + 1..]),
        [TAG_END] + rest);
    }
  }

  /** The entries of an embedded map, read into the struct that embeds it at index j. */
  lemma {:induction false} EmbeddedRoundTrip(lower: Lowering, fields: seq<Field>, cur: seq<Value>, j: nat,
                                             entries: seq<Entry>, m: nat, rest: seq<byte>)
    requires m <= |entries| && GoodKeys(entries) && |cur| == |fields| && j < |fields|
    requires j == FindCatchAll(fields) && KeysApart(lower, fields, entries)
    requires Supported(lower, fields[j].shape.elem)
    requires forall k :: 0 <= k < |entries| ==>
               HasShape(fields[j].shape.elem, entries[k].value) && Fits(lower, fields[j].shape.elem, entries[k].value)
    requires cur[j] == MapValue(entries[..m])
    ensures ReadTags(lower, StructShape(fields), StructValue(cur),
            EntriesBytes(fields[j].shape.elem, entries[m..]) + rest)
         == ReadTags(lower, StructShape(fields), StructValue(cur[j := MapValue(entries)]), rest)
    decreases entries, 1, |entries| - m
  {
    hide ReadTags, HasShape, Supported, Fits, TagBytes;
    var elem := fields[j].shape.elem;
    if m == |entries| {
      assert entries[..m] == entries && entries[m..] == [];
      assert cur[j := MapValue(entries)] == cur;
      assert EntriesBytes(elem, entries[m..]) + rest == rest;
    } else {
      var tail := EntriesBytes(elem, entries[m + 1..]) + rest;
      var entry := entries[m];
      EntryRoundTrip(lower, StructShape(fields), StructValue(cur), elem, entry, InEmbedded(j, elem), tail);
      SetNewEntry(entries[..m], entry.key, entry.value);
      assert entries[..m] + [entry] == entries[..m + 1];
      var next := cur[j := MapValue(entries[..m + 1])];
      EmbeddedRoundTrip(lower, fields, next, j, entries, m + 1, rest);
      assert next[j := MapValue(entries)] == cur[j := MapValue(entries)];
      assert entries[m..][1..] == entries[m + 1..];
      AppendStep(TagBytes(entry.key, elem, entry.value), EntriesBytes(elem, entries[m + 1..]), rest);
    }
  }

  lemma ZeroFields(fields: seq<Field>)
    ensures var zero := Zero(StructShape(fields));
            zero.StructValue? && |zero.values| == |fields|
            && forall k :: 0 <= k < |fields| ==> zero.values[k] == Zero(fields[k].shape)
  {
  }

  /** One ordinary field. */
  lemma {:induction false} FieldRoundTrip(lower: Lowering, fields: seq<Field>, cur: seq<Value>, m: nat, v: Value,
                                          rest: seq<byte>)
    requires m < |fields| == |cur| && !fields[m].anonymous && SupportedFields(lower, fields)
    requires Supported(lower, fields[m].shape) && HasShape(fields[m].shape, v) && Fits(lower, fields[m].shape, v)
    requires cur[m] == Zero(fields[m].shape)
    ensures ReadTags(lower, StructShape(fields), StructValue(cur), FieldBytes(fields[m], v) + rest)
         == ReadTags(lower, StructShape(fields), StructValue(cur[m := v]), rest)
    decreases v, 1, 0
  {
    hide ReadTags, ReadPayload, PayloadBytes, HasShape, Supported, Fits, TagBytes, Zero;
    var f := fields[m];
    var shape, target, name := StructShape(fields), StructValue(cur), FieldName(f);
    PayloadRoundTrip(lower, f.shape, v, rest);
    Writable(lower, f.shape, v);
    TagThen(lower, shape, target, name, f.shape, v, InField(m), v, rest);
    TagsThen(lower, shape, target, TagBytes(name, f.shape, v) + rest, StructValue(cur[m := v]), rest);
  }

  /** One field, ordinary or embedded. */
  lemma {:induction false} AnyFieldRoundTrip(lower: Lowering, fields: seq<Field>, cur: seq<Value>, m: nat, v: Value,
                                             rest: seq<byte>)
    requires m < |fields| == |cur| && SupportedFields(lower, fields) && FieldFits(lower, fields, m, v)
    requires cur[m] == Zero(fields[m].shape)
    ensures ReadTags(lower, StructShape(fields), StructValue(cur), FieldBytes(fields[m], v) + rest)
         == ReadTags(lower, StructShape(fields), StructValue(cur[m := v]), rest)
    decreases v, 2, 0
  {
    hide ReadTags, KeysApart, FieldBytes, Fits;
    if fields[m].anonymous {
      AnonymousField(lower, fields[m], v);
      assert v.entries[..0] == [] && v.entries[0..] == v.entries;
      EmbeddedRoundTrip(lower, fields, cur, m, v.entries, 0, rest);
    } else {
      FieldRoundTrip(lower, fields, cur, m, v, rest);
    }
  }

  /** The value suits field k of the struct and can be written there. */
  ghost predicate FieldFits(lower: Lowering, fields: seq<Field>, k: nat, v: Value)
    requires k < |fields|
  {
    && Supported(lower, fields[k].shape) && HasShape(fields[k].shape, v) && Fits(lower, fields[k].shape, v)
    && (fields[k].anonymous ==> KeysApart(lower, fields, MapEntries(v)))
  }

  /** The fields of a struct from field m on. */
  lemma {:induction false} FieldsRoundTrip(lower: Lowering, fields: seq<Field>, values: seq<Value>, cur: seq<Value>,
                                           m: nat, rest: seq<byte>)
    requires m <= |fields| == |values| == |cur| && SupportedFields(lower, fields)
    requires forall k :: 0 <= k < |fields| ==> FieldFits(lower, fields, k, values[k])
    requires forall k :: 0 <= k < m ==> cur[k] == values[k]
    requires forall k :: m <= k < |fields| ==> cur[k] == Zero(fields[k].shape)
    ensures ReadTags(lower, StructShape(fields), StructValue(cur),
                     FieldsBytes(fields[m..], values[m..]) + ([TAG_END] + rest))
         == Ok(StructValue(values), rest)
    decreases values, 2, |values| - m
  {
    hide ReadTags, FieldBytes, FieldFits, SupportedFields, Zero;
    if m == |fields| {
      assert cur == values && fields[m..] == [] && values[m..] == [];
      assert FieldsBytes(fields[m..], values[m..]) + ([TAG_END] + rest) == [TAG_END] + rest;
      EndThen(lower, StructShape(fields), StructValue(values), rest);
    } else {
      var f, v := fields[m], values[m];
      var tail := FieldsBytes(fields[m + 1..], values[m + 1..]) + ([TAG_END] + rest);
      assert fields[m..][1..] == fields[m + 1..] && values[m..][1..] == values[m + 1..];
      AppendStep(FieldBytes(f, v), FieldsBytes(fields[m + 1..], values[m + 1..]), [TAG_END] + rest);
      FieldsRoundTrip(lower, fields, values, cur[m := v], m + 1, rest);
      AnyFieldRoundTrip(lower, fields, cur, m, v, tail);
    }
  }

  lemma AnonymousField(lower: Lowering, f: Field, v: Value)
    requires f.anonymous && f.shape.MapShape?
    requires HasShape(f.shape, v) && Fits(lower, f.shape, v) && Supported(lower, f.shape)
    ensures v.MapValue? && v == MapValue(v.entries) && GoodKeys(v.entries) && Supported(lower, f.shape.elem)
    ensures FieldBytes(f, v) == EntriesBytes(f.shape.elem, v.entries)
    ensures forall k :: 0 <= k < |v.entries| ==>
              HasShape(f.shape.elem, v.entries[k].value) && Fits(lower, f.shape.elem, v.entries[k].value)
  {
  }

  /** Marshalling a value and unmarshalling the bytes into a struct with a field of that name and
      type, whatever other fields it has, fills exactly that field and leaves what followed. */
  lemma MarshalRoundTrip(lower: Lowering, fields: seq<Field>, m: nat, v: Value, rest: seq<byte>)
    requires m < |fields| && !fields[m].anonymous && SupportedFields(lower, fields)
    requires Supported(lower, fields[m].shape) && HasShape(fields[m].shape, v) && Fits(lower, fields[m].shape, v)
    ensures var zero := Zero(StructShape(fields));
            ReadTag(lower, StructShape(fields), zero, TagBytes(FieldName(fields[m]), fields[m].shape, v) + rest)
            == Tag(StructValue(zero.values[m := v]), rest)
  {
    hide ReadTags, ReadTag, ReadPayload, PayloadBytes, HasShape, Supported, Fits, TagBytes, Zero;
    var f := fields[m];
    var zero := Zero(StructShape(fields));
    ZeroFields(fields);
    PayloadRoundTrip(lower, f.shape, v, rest);
    Writable(lower, f.shape, v);
    TagThen(lower, StructShape(fields), zero, FieldName(f), f.shape, v, InField(m), v, rest);
  }

  // ------------------------------------------------------------------
  // Field names.

  function Key(lower: Lowering, f: Field): Text {
    if lower(f.tag) == [] then lower(f.name) else lower(f.tag)
  }

  lemma {:induction false} FoundByKey(lower: Lowering, fields: seq<Field>, k: nat)
    requires k < |fields| && Key(lower, fields[k]) != []
    requires forall i, j :: 0 <= i < j < |fields| ==> Key(lower, fields[i]) != Key(lower, fields[j])
    ensures FindField(lower, fields, Key(lower, fields[k])) == k
  {
    if k > 0 {
      var rest := fields[1..];
      assert rest[k - 1] == fields[k];
      assert Key(lower, fields[0]) != Key(lower, fields[k]);
      FoundByKey(lower, rest, k - 1);
    }
  }

  /** Distinct names, ignoring case, lead back to their fields. */
  lemma NamesSuffice(lower: Lowering, fields: seq<Field>)
    requires forall t :: lower(t) == [] <==> t == []
    requires forall k :: 0 <= k < |fields| ==>
               && (fields[k].anonymous ==> fields[k].shape.MapShape? && k == FindCatchAll(fields))
               && (!fields[k].anonymous ==> fields[k].tag != OMIT && |FieldName(fields[k])| < MAX_TEXT)
               && FieldName(fields[k]) != []
    requires forall i, j :: 0 <= i < j < |fields| ==> lower(FieldName(fields[i])) != lower(FieldName(fields[j]))
    ensures SupportedFields(lower, fields)
  {
    forall k | 0 <= k < |fields|
      ensures FindField(lower, fields, lower(FieldName(fields[k]))) == k
    {
      assert lower(FieldName(fields[k])) == Key(lower, fields[k]);
      assert forall i :: 0 <= i < |fields| ==> lower(FieldName(fields[i])) == Key(lower, fields[i]);
      FoundByKey(lower, fields, k);
    }
  }

  // ------------------------------------------------------------------
  // Skipping.

  /** Lengths fit; nothing is asked of the keys. */
  ghost predicate Skippable(v: Value) {
    match v
    case MapValue(entries) =>
      forall k :: 0 <= k < |entries| ==> |entries[k].key| < MAX_TEXT && Skippable(entries[k].value)
    case _ => FitsPlain(v)
  }

  /** A payload without lists is skipped exactly. */
  lemma {:induction false} SkipPayload(lower: Lowering, v: Value, rest: seq<byte>)
    requires HasShape(DynamicShape, v) && Skippable(v)
    ensures ReadPayload(lower, TagType(NaturalShape(v)), NoShape, NoValue, PayloadBytes(NaturalShape(v), v) + rest)
         == Ok(NoValue, rest)
    decreases v, 0, 0
  {
    hide ReadTags, ReadPayload, EntriesBytes, HasPlainShape, PlainBytes, FitsPlain, TagType;
    if v.MapValue? {
      SkipEntries(lower, NoShape, NoValue, v.entries, [TAG_END] + rest);
      EndThen(lower, NoShape, NoValue, rest);
      SkipMap(lower, v.entries, rest);
    } else {
      SkipPlain(lower, v, rest);
    }
  }

  lemma SkipMap(lower: Lowering, entries: seq<Entry>, rest: seq<byte>)
    requires ReadTags(lower, NoShape, NoValue, EntriesBytes(DynamicShape, entries) + ([TAG_END] + rest))
             == Ok(NoValue, rest)
    ensures ReadPayload(lower, TagType(NaturalShape(MapValue(entries))), NoShape, NoValue,
                        PayloadBytes(NaturalShape(MapValue(entries)), MapValue(entries)) + rest) == Ok(NoValue, rest)
  {
    hide ReadTags, EntriesBytes;
    AppendStep(EntriesBytes(DynamicShape, entries), [TAG_END], rest);
  }

  lemma SkipPlain(lower: Lowering, v: Value, rest: seq<byte>)
    requires HasShape(DynamicShape, v) && !v.MapValue? && FitsPlain(v)
    ensures ReadPayload(lower, TagType(NaturalShape(v)), NoShape, NoValue, PayloadBytes(NaturalShape(v), v) + rest)
         == Ok(NoValue, rest)
  {
    hide ReadPlain, PlainBytes;
    PlainThen(NaturalShape(v), v, rest);
  }

  /** Tags for which the target has no place are skipped. */
  lemma {:induction false} SkipEntries(lower: Lowering, shape: Shape, cur: Value, entries: seq<Entry>, rest: seq<byte>)
    requires forall k :: 0 <= k < |entries| ==>
               && HasShape(DynamicShape, entries[k].value)
               && |entries[k].key| < MAX_TEXT && Skippable(entries[k].value)
               && Locate(lower, shape, cur, entries[k].key) == Skipped
    ensures ReadTags(lower, shape, cur, EntriesBytes(DynamicShape, entries) + rest) == ReadTags(lower, shape, cur, rest)
    decreases entries, 1, 0
  {
    hide ReadTags, ReadPayload, PayloadBytes, HasShape, Skippable, TagBytes, Locate, TagType;
    if entries == [] {
      assert EntriesBytes(DynamicShape, entries) + rest == rest;
    } else {
      var entry, tail := entries[0], EntriesBytes(DynamicShape, entries[1..]) + rest;
      AppendStep(TagBytes(entry.key, DynamicShape, entry.value), EntriesBytes(DynamicShape, entries[1..]), rest);
      SkipPayload(lower, entry.value, tail);
      NaturalTag(entry.value);
      TagThen(lower, shape, cur, entry.key, DynamicShape, entry.value, Skipped, NoValue, tail);
      TagsThen(lower, shape, cur, TagBytes(entry.key, DynamicShape, entry.value) + tail, cur, tail);
      SkipEntries(lower, shape, cur, entries[1..], rest);
    }
  }

  lemma NaturalTag(v: Value)
    requires HasShape(DynamicShape, v) && Skippable(v)
    ensures TagType(NaturalShape(v)) != TAG_END && Unboxed(v) == v
  {
  }

  /** The bytes are a series of whole tags that take the target from one value to another. */
  ghost predicate WholeTags(lower: Lowering, shape: Shape, cur: Value, bytes: seq<byte>, next: Value) {
    forall rest :: ReadTags(lower, shape, cur, bytes + rest) == ReadTags(lower, shape, next, rest)
  }

  /** Inserting tags with unknown names and payloads without lists, however nested, anywhere among
      the tags of a compound that is read into a struct without an embedded map changes neither the
      struct nor what is read after it. */
  lemma UnknownTagsIgnored(lower: Lowering, fields: seq<Field>, cur: Value, before: seq<byte>, next: Value,
                           unknown: seq<Entry>, after: seq<byte>)
    requires WholeTags(lower, StructShape(fields), cur, before, next)
    requires FindCatchAll(fields) == |fields|
    requires forall k :: 0 <= k < |unknown| ==>
               && HasShape(DynamicShape, unknown[k].value)
               && |unknown[k].key| < MAX_TEXT && Skippable(unknown[k].value)
               && FindField(lower, fields, lower(unknown[k].key)) == |fields|
    ensures ReadTags(lower, StructShape(fields), cur, before + EntriesBytes(DynamicShape, unknown) + after)
         == ReadTags(lower, StructShape(fields), cur, before + after)
  {
    hide ReadTags, HasShape, Skippable, EntriesBytes;
    var middle := EntriesBytes(DynamicShape, unknown);
    AppendStep(before, middle, after);
    assert ReadTags(lower, StructShape(fields), cur, before + (middle + after))
        == ReadTags(lower, StructShape(fields), next, middle + after);
    SkipEntries(lower, StructShape(fields), next, unknown, after);
    assert ReadTags(lower, StructShape(fields), cur, before + after)
        == ReadTags(lower, StructShape(fields), next, after);
  }

  /** The fields that a struct writes first are such a series of whole tags. */
  lemma WrittenFieldsAreWholeTags(lower: Lowering, fields: seq<Field>, values: seq<Value>, cur: seq<Value>, m: nat)
    requires m < |fields| == |values| == |cur| && SupportedFields(lower, fields) && !fields[m].anonymous
    requires Supported(lower, fields[m].shape) && HasShape(fields[m].shape, values[m])
             && Fits(lower, fields[m].shape, values[m])
    requires cur[m] == Zero(fields[m].shape)
    ensures WholeTags(lower, StructShape(fields), StructValue(cur), FieldBytes(fields[m], values[m]),
                      StructValue(cur[m := values[m]]))
  {
    hide ReadTags, HasShape, Fits, FieldBytes, Supported, Zero;
    forall rest
      ensures ReadTags(lower, StructShape(fields), StructValue(cur), FieldBytes(fields[m], values[m]) + rest)
           == ReadTags(lower, StructShape(fields), StructValue(cur[m := values[m]]), rest)
    {
      FieldRoundTrip(lower, fields, cur, m, values[m], rest);
    }
  }

  /** Whole tags after whole tags are whole tags. */
  lemma WholeTagsCompose(lower: Lowering, shape: Shape, a: Value, x: seq<byte>, b: Value, y: seq<byte>, c: Value)
    requires WholeTags(lower, shape, a, x, b) && WholeTags(lower, shape, b, y, c)
    ensures WholeTags(lower, shape, a, x + y, c)
  {
    hide ReadTags;
    forall rest
      ensures ReadTags(lower, shape, a, x + y + rest) == ReadTags(lower, shape, c, rest)
    {
      AppendStep(x, y, rest);
      assert ReadTags(lower, shape, a, x + (y + rest)) == ReadTags(lower, shape, b, y + rest);
    }
  }
}
