/** What the NBT reader makes of streams that no writer produces. Tag numbers are given as numbers. */
module NbtFaults {
  import opened Blocks
  import opened BigEndian
  import opened NbtTypes
  import opened NbtWriter
  import opened NbtReader
  import opened NbtRoundTrip

  lemma TwoByteNumber(w: seq<byte>)
    requires |w| == 2
    ensures Unsigned(w) == w[0] as int * 256 + w[1]
    ensures Signed(w) == Unsigned(w) - if w[0] >= 128 then 0x1_0000 else 0
  {
    Powers();
    var one := w[..1];
    assert one[..0] == [] && Unsigned(one) == w[0];
  }

  lemma FourByteNumber(w: seq<byte>)
    requires |w| == 4
    ensures Unsigned(w) == ((w[0] as int * 256 + w[1]) * 256 + w[2]) * 256 + w[3]
    ensures Signed(w) == Unsigned(w) - if w[0] >= 128 then 0x1_0000_0000 else 0
  {
    Powers();
    var three := w[..3];
    var two := three[..2];
    TwoByteNumber(two);
    assert Unsigned(three) == Unsigned(two) * 256 + w[2];
  }

  /** A stream that ends inside the length or the text is an error at its end, and a negative length,
      one whose first byte is 128 or more, is a panic. */
  lemma TextFaults(r: seq<byte>)
    ensures |r| < 2 ==> ReadText(r).Err? && ReadText(r).rest == []
    ensures |r| >= 2 && r[0] >= 128 ==> ReadText(r) == Panic
    ensures |r| >= 2 && r[0] < 128 && |r| - 2 < r[0] as int * 256 + r[1] ==>
              ReadText(r).Err? && ReadText(r).rest == []
  {
    if |r| >= 2 {
      TwoByteNumber(r[..2]);
    }
    hide Signed, Unsigned;
  }

  /** The same for arrays (tags 7, 11 and 12), with lengths of four bytes. */
  lemma ArrayFaults(lower: Lowering, tag: byte, shape: Shape, cur: Value, r: seq<byte>)
    requires tag == 7 || tag == 11 || tag == 12
    ensures |r| < 4 ==> ReadPayload(lower, tag, shape, cur, r) == Err(cur, [])
    ensures |r| >= 4 && r[0] >= 128 ==> ReadPayload(lower, tag, shape, cur, r) == Panic
  {
    if |r| >= 4 {
      FourByteNumber(r[..4]);
    }
    hide Signed, Unsigned;
  }

  /** A tag number above 12 is an error, and so is zero where a payload is to follow. The target stays
      as it is and nothing is read. */
  lemma UnknownTag(lower: Lowering, tag: byte, shape: Shape, cur: Value, r: seq<byte>)
    requires tag > 12 || tag == 0
    ensures ReadPayload(lower, tag, shape, cur, r) == Err(cur, r)
  {
  }

  /** A number for a target of another type is a panic. Without a target it is skipped. */
  lemma WrongNumber(lower: Lowering, shape: Shape, cur: Value, r: seq<byte>)
    requires |r| >= 8
    ensures var size := map[1 := 1, 2 := 2, 3 := 4, 4 := 8, 5 := 4, 6 := 8];
            forall tag: byte :: 1 <= tag <= 6 ==>
              && (TagType(shape) != tag && !shape.DynamicShape? && !shape.NoShape? ==>
                    ReadPayload(lower, tag, shape, cur, r) == Panic)
              && (shape.NoShape? ==> ReadPayload(lower, tag, shape, cur, r) == Ok(cur, r[size[tag as int]..]))
  {
    hide Signed, Unsigned;
    var size := map[1 := 1, 2 := 2, 3 := 4, 4 := 8, 5 := 4, 6 := 8];
    forall tag: byte | 1 <= tag <= 6
      ensures TagType(shape) != tag && !shape.DynamicShape? && !shape.NoShape? ==>
                ReadPayload(lower, tag, shape, cur, r) == Panic
      ensures shape.NoShape? ==> ReadPayload(lower, tag, shape, cur, r) == Ok(cur, r[size[tag as int]..])
    {
    }
  }

  /** A list (tag 9) that ends before its elements do is no error: the target keeps what it held. */
  lemma ListErrorSwallowed(lower: Lowering, shape: Shape, cur: Value, r: seq<byte>)
    ensures |r| < 5 ==> ReadPayload(lower, 9, shape, cur, r) == Ok(cur, [])
    ensures shape == ListShape(ShortShape) && |r| == 5 && r[0] == 2 && r[1] == r[2] == r[3] == 0 && r[4] > 0 ==>
              ReadPayload(lower, 9, shape, cur, r) == Ok(cur, [])
  {
    if shape == ListShape(ShortShape) && |r| == 5 && r[0] == 2 && r[1] == r[2] == r[3] == 0 && r[4] > 0 {
      FourByteNumber(r[1..5]);
      assert ReadPlain(2, []).Err? && ReadPayload(lower, 2, ShortShape, ShortValue(0), []) == Err(ShortValue(0), []);
      assert r[5..] == [];
      assert ReadElems(lower, 2, r[4], shape, cur, []) == Err(cur, []);
      assert ReadList(lower, shape, cur, r) == Err(cur, []);
    } else if |r| < 5 {
      assert ReadList(lower, shape, cur, r) == Err(cur, []);
    }
    hide Signed, Unsigned;
  }

  /** A list of negative length has no elements. */
  lemma NegativeList(lower: Lowering, shape: Shape, cur: Value, r: seq<byte>)
    requires |r| >= 5 && r[1] >= 128
    ensures ReadPayload(lower, 9, shape, cur, r) == Ok(cur, r[5..])
  {
    FourByteNumber(r[1..5]);
    assert ReadElems(lower, r[0], Signed(r[1..5]), shape, cur, r[5..]) == Ok(cur, r[5..]);
    assert ReadList(lower, shape, cur, r) == Ok(cur, r[5..]);
    hide Signed, Unsigned;
  }

  /** A list with elements that has no target is a panic. */
  lemma ListWithoutTarget(lower: Lowering, cur: Value, r: seq<byte>)
    requires |r| >= 5 && r[1] == r[2] == r[3] == 0 && r[4] > 0
    ensures ReadPayload(lower, 9, NoShape, cur, r) == Panic
  {
    FourByteNumber(r[1..5]);
    assert ReadElems(lower, r[0], r[4], NoShape, cur, r[5..]) == Panic;
    assert ReadList(lower, NoShape, cur, r) == Panic;
    hide Signed, Unsigned;
  }

  /** The name of a tag is compared with the fields ignoring case: the byte 5 named a goes into the
      field A. */
  lemma CaseIgnored(lower: Lowering, rest: seq<byte>)
    requires lower([]) == [] && lower([65]) == lower([97]) != []
    ensures var shape := StructShape([Field([65], [], false, ByteShape)]);
            ReadTag(lower, shape, StructValue([ByteValue(0)]), [1, 0, 1, 97, 5] + rest)
            == Tag(StructValue([ByteValue(5)]), rest)
  {
    var r := [1, 0, 1, 97, 5] + rest;
    var field := Field([65], [], false, ByteShape);
    var shape, cur := StructShape([field]), StructValue([ByteValue(0)]);
    var body := r[1..];
    TwoByteNumber(body[..2]);
    assert body[2..][..1] == [97] && body[2..][1..] == [5] + rest;
    assert ReadText(body) == Ok(StringValue([97]), [5] + rest);
    assert Locate(lower, shape, cur, [97]) == InField(0);
    assert ([5] + rest)[1..] == rest;
    assert ReadPayload(lower, 1, ByteShape, ByteValue(0), [5] + rest) == Ok(ByteValue(5), rest);
    assert Stored(cur, InField(0), [97], ByteValue(5)) == StructValue([ByteValue(5)]);
    hide Signed, Unsigned;
  }

  /** An array of bytes is read back exactly if its length fits a signed 32-bit number. */
  lemma ArrayIffShort(b: seq<byte>, rest: seq<byte>)
    ensures ReadPlain(7, PlainBytes(ByteArrayValue(b)) + rest) == Ok(ByteArrayValue(b), rest) <==> |b| < 0x8000_0000
  {
    if |b| < 0x8000_0000 {
      PlainThen(ByteArrayShape, ByteArrayValue(b), rest);
    } else {
      var r := Word(4, |b|) + b + rest;
      assert r[..4] == Word(4, |b|);
      FourByteNumber(r[..4]);
      assert Signed(r[..4]) < 0x8000_0000;
    }
    hide Word, Signed, Unsigned;
  }

  ghost predicate DistinctKeys(entries: seq<Entry>) {
    forall i, k :: 0 <= i < k < |entries| ==> entries[i].key != entries[k].key
  }

  /** A tag whose name the map already has replaces the value; every other entry stays. */
  lemma {:induction false} EntryReplaced(entries: seq<Entry>, key: Text, v: Value)
    requires DistinctKeys(entries)
    ensures DistinctKeys(SetEntry(entries, key, v))
    ensures forall e :: e in SetEntry(entries, key, v) <==>
              (e.key == key && e.value == v) || (e.key != key && e in entries)
  {
    if entries != [] && entries[0].key != key {
      var rest := entries[1..];
      EntryReplaced(rest, key, v);
      var out := SetEntry(rest, key, v);
      assert entries == [entries[0]] + rest;
      forall k | 0 <= k < |out|
        ensures out[k].key != entries[0].key
      {
        assert out[k] in out;
        if out[k].key != key {
          assert out[k] in rest;
        }
      }
    } else if entries != [] {
      var rest := entries[1..];
      assert entries == [entries[0]] + rest;
      assert forall e :: e in rest ==> e.key != key;
    }
  }
}
