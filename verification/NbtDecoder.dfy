/** The decoder: consumes a stream step by step and fills its target. */
module NbtDecoders {
  import opened Blocks
  import opened BigEndian
  import opened NbtTypes
  import opened NbtReader

  datatype Status = Fine | Failed | Panicked

  class NbtDecoder {
    /** What has not been read yet. */
    var r: seq<byte>

    constructor (r: seq<byte>)
      ensures this.r == r
    {
      this.r := r;
    }

    /** The state after a step is the one that the outcome describes. */
    ghost predicate Reached(o: Outcome, status: Status, v: Value)
      reads this
    {
      match o
      case Ok(value, rest) => status.Fine? && v == value && r == rest
      case Err(value, rest) => status.Failed? && v == value && r == rest
      case Panic => status.Panicked?
    }

    /** The same for the readers that have no target to fill. */
    ghost predicate ReachedPlain(o: Outcome, status: Status, v: Value)
      reads this
    {
      match o
      case Ok(value, rest) => status.Fine? && v == value && r == rest
      case Err(_, rest) => status.Failed? && r == rest
      case Panic => status.Panicked?
    }

    /** Reads n bytes; a stream that is too short is read to its end. */
    method Read(n: nat) returns (ok: bool, bytes: seq<byte>)
      modifies this
      ensures ok <==> n <= |old(r)|
      ensures ok ==> bytes == old(r)[..n] && r == old(r)[n..]
      ensures !ok ==> r == []
    {
      if |r| < n {
        r := [];
        return false, [];
      }
      bytes := r[..n];
      r := r[n..];
      ok := true;
    }

    method ReadString() returns (status: Status, text: Text)
      modifies this
      ensures ReachedPlain(ReadText(old(r)), status, StringValue(text))
    {
      text := [];
      var ok, head := Read(2);
      if !ok {
        return Failed, text;
      }
      var length := Signed(head);
      if length < 0 {
        return Panicked, text;
      }
      ok, text := Read(length);
      status := if ok then Fine else Failed;
    }

    method ReadPlainPayload(tag: byte) returns (status: Status, v: Value)
      modifies this
      ensures ReachedPlain(ReadPlain(tag, old(r)), status, v)
    {
      v := NoValue;
      status := Failed;
      var ok, bytes;
      if tag == TAG_BYTE {
        ok, bytes := Read(1);
        if ok { status, v := Fine, ByteValue(bytes[0]); }
      } else if tag == TAG_SHORT {
        ok, bytes := Read(2);
        if ok { status, v := Fine, ShortValue(Signed(bytes)); }
      } else if tag == TAG_INT {
        ok, bytes := Read(4);
        if ok { status, v := Fine, IntValue(Signed(bytes)); }
      } else if tag == TAG_LONG {
        ok, bytes := Read(8);
        if ok { status, v := Fine, LongValue(Signed(bytes)); }
      } else if tag == TAG_FLOAT {
        ok, bytes := Read(4);
        if ok { status, v := Fine, FloatValue(Unsigned(bytes)); }
      } else if tag == TAG_DOUBLE {
        ok, bytes := Read(8);
        if ok { status, v := Fine, DoubleValue(Unsigned(bytes)); }
      } else if tag == TAG_STRING {
        var text;
        status, text := ReadString();
        v := StringValue(text);
      } else if tag == TAG_BYTE_ARRAY {
        status, bytes := ReadArrayBody(1);
        v := ByteArrayValue(bytes);
      } else if tag == TAG_INT_ARRAY {
        status, bytes := ReadArrayBody(4);
        v := IntArrayValue(SignedWords(4, bytes));
      } else if tag == TAG_LONG_ARRAY {
        status, bytes := ReadArrayBody(8);
        v := LongArrayValue(SignedWords(8, bytes));
      }
    }

    /** The common part of the three array readers. */
    method ReadArrayBody(k: nat) returns (status: Status, body: seq<byte>)
      requires k > 0
      modifies this
      ensures |old(r)| < 4 ==> status.Failed? && r == []
      ensures |old(r)| >= 4 && Signed(old(r)[..4]) < 0 ==> status.Panicked?
      ensures |old(r)| >= 4 && Signed(old(r)[..4]) >= 0 ==>
                match ReadArray(k, old(r))
                case None => status.Failed? && r == []
                case Some((n, rest)) =>
                  n * k <= |old(r)[4..]| && status.Fine? && body == old(r)[4..][..n * k] && r == rest
    {
      body := [];
      var ok, head := Read(4);
      if !ok {
        return Failed, body;
      }
      var length := Signed(head);
      if length < 0 {
        return Panicked, body;
      }
      Product(length, k);
      ok, body := Read(length * k);
      status := if ok then Fine else Failed;
    }

    method ReadPayload(lower: Lowering, tag: byte, shape: Shape, cur: Value) returns (status: Status, v: Value)
      modifies this
      ensures Reached(NbtReader.ReadPayload(lower, tag, shape, cur, old(r)), status, v)
      decreases |r|, 5, 0
    {
      if tag == TAG_LIST {
        status, v := ReadList(lower, shape, cur);
        // The error of the inner scope hides the one that is returned.
        if status.Failed? {
          status, v := Fine, cur;
        }
      } else if tag == TAG_COMPOUND {
        status, v := ReadCompound(lower, shape, cur);
      } else {
        status, v := ReadPlainPayload(tag);
        if status.Fine? {
          if shape.NoShape? {
            v := cur;
          } else if !shape.DynamicShape? && TagType(shape) != tag {
            status := Panicked;
          }
        } else {
          v := cur;
        }
      }
    }

    method ReadList(lower: Lowering, shape: Shape, cur: Value) returns (status: Status, v: Value)
      modifies this
      ensures Reached(NbtReader.ReadList(lower, shape, cur, old(r)), status, v)
      decreases |r|, 4, 0
    {
      hide NbtReader.ReadElems, Signed;
      ghost var start := r;
      v := cur;
      var ok, head := Read(1);
      if !ok {
        return Failed, v;
      }
      var tag := head[0];
      ok, head := Read(4);
      if !ok {
        return Failed, v;
      }
      assert head == start[1..5] && r == start[5..];
      status, v := ReadElems(lower, tag, Signed(head), shape, cur);
    }

    /** The loop of readList. */
    method ReadElems(lower: Lowering, tag: byte, length: int, shape: Shape, cur: Value)
                     returns (status: Status, v: Value)
      modifies this
      ensures Reached(NbtReader.ReadElems(lower, tag, length, shape, cur, old(r)), status, v)
      decreases |r|, 6, length
    {
      hide NbtReader.ReadElems, NbtReader.ReadPayload, Zero, Appended, ElemShape;
      v := cur;
      ghost var start := r;
      var i := 0;
      while i < length
        invariant |r| <= |start|
        invariant NbtReader.ReadElems(lower, tag, length - i, shape, v, r)
               == NbtReader.ReadElems(lower, tag, length, shape, cur, start)
        invariant i == 0 || i <= length
        decreases length - i
      {
        ElemsStep(lower, tag, length - i, shape, v, r);
        match ElemShape(shape)
        case None => return Panicked, v;
        case Some(elem) =>
          var x;
          status, x := ReadPayload(lower, tag, elem, Zero(elem));
          if !status.Fine? {
            return;
          }
          match Appended(v, x)
          case None => return Panicked, v;
          case Some(v') =>
            v := v';
            i := i + 1;
      }
      ElemsEnd(lower, tag, length - i, shape, v, r);
      status := Fine;
    }

    method ReadCompound(lower: Lowering, shape: Shape, cur: Value) returns (status: Status, v: Value)
      modifies this
      ensures Reached(NbtReader.ReadCompound(lower, shape, cur, old(r)), status, v)
      decreases |r|, 4, 0
    {
      hide NbtReader.ReadTag;
      var target := shape;
      v := cur;
      if shape.DynamicShape? {
        target, v := MapShape(DynamicShape), MapValue([]);
      }
      ghost var start, first := r, v;
      while true
        invariant |r| <= |start|
        invariant NbtReader.ReadTags(lower, target, v, r) == NbtReader.ReadTags(lower, target, first, start)
        decreases |r|
      {
        var end;
        status, end, v := ReadTag(lower, target, v);
        if !status.Fine? || end {
          return;
        }
      }
    }

    /** The outcome of reading one tag. */
    ghost predicate TagReached(o: TagOutcome, status: Status, end: bool, cur: Value, v: Value)
      reads this
    {
      match o
      case End(rest) => status.Fine? && end && v == cur && r == rest
      case Tag(value, rest) => status.Fine? && !end && v == value && r == rest
      case TagErr(value, rest) => status.Failed? && v == value && r == rest
      case TagPanic => status.Panicked?
    }

    method ReadTag(lower: Lowering, shape: Shape, cur: Value) returns (status: Status, end: bool, v: Value)
      modifies this
      ensures TagReached(NbtReader.ReadTag(lower, shape, cur, old(r)), status, end, cur, v)
      decreases |r|, 2, 0
    {
      hide NbtReader.ReadTag, ReadText, StoredOutcome;
      ghost var start := r;
      end, v := false, cur;
      TagStarts(lower, shape, cur, start);
      var ok, head := Read(1);
      if !ok {
        return Failed, end, v;
      }
      if head[0] == TAG_END {
        return Fine, true, v;
      }
      var name;
      status, name := ReadString();
      if !status.Fine? {
        return;
      }
      TagContinues(lower, shape, cur, start, name, r);
      status, v := ReadInto(lower, head[0], shape, cur, name);
    }

    /** Reads the payload of a named tag to where it belongs. */
    method ReadInto(lower: Lowering, tag: byte, shape: Shape, cur: Value, name: Text) returns (status: Status, v: Value)
      modifies this
      ensures TagReached(StoredOutcome(lower, tag, shape, cur, name, old(r)), status, false, cur, v)
      decreases |r|, 6, 0
    {
      hide NbtReader.ReadPayload, Stored, Locate, SlotShape, SlotStart;
      var slot := LocateSlot(lower, shape, cur, name);
      status, v := ReadPayload(lower, tag, SlotShape(shape, slot), SlotStart(shape, cur, slot));
      if !status.Panicked? {
        v := Stored(cur, slot, name, v);
      }
    }

    /** Finds the field, or else the embedded map, that takes a tag. */
    method LocateSlot(lower: Lowering, shape: Shape, cur: Value, name: Text) returns (slot: Slot)
      ensures slot == Locate(lower, shape, cur, name)
    {
      match shape
      case StructShape(fields) =>
        if !cur.StructValue? || |cur.values| != |fields| {
          return Skipped;
        }
        var key := lower(name);
        assert fields[0..] == fields;
        for i := 0 to |fields|
          invariant FindField(lower, fields, key) == i + FindField(lower, fields[i..], key)
        {
          if FieldMatches(lower, fields[i], key) {
            return InField(i);
          }
          assert fields[i..][1..] == fields[i + 1..];
        }
        for i := 0 to |fields|
          invariant FindCatchAll(fields) == i + FindCatchAll(fields[i..])
        {
          if fields[i].anonymous && fields[i].shape.MapShape? {
            return InEmbedded(i, fields[i].shape.elem);
          }
          assert fields[i..][1..] == fields[i + 1..];
        }
        return Skipped;
      case MapShape(elem) => return InEntry(elem);
      case _ => return Skipped;
    }
  }

  /** What a tag with this name and the rest of the stream lead to. */
  function StoredOutcome(lower: Lowering, tag: byte, shape: Shape, cur: Value, name: Text, r: seq<byte>): TagOutcome {
    var slot := Locate(lower, shape, cur, name);
    match NbtReader.ReadPayload(lower, tag, SlotShape(shape, slot), SlotStart(shape, cur, slot), r)
    case Ok(v, rest) => Tag(Stored(cur, slot, name, v), rest)
    case Err(v, rest) => TagErr(Stored(cur, slot, name, v), rest)
    case Panic => TagPanic
  }

  lemma TagStarts(lower: Lowering, shape: Shape, cur: Value, r: seq<byte>)
    ensures |r| < 1 ==> NbtReader.ReadTag(lower, shape, cur, r) == TagErr(cur, [])
    ensures |r| >= 1 && r[0] == TAG_END ==> NbtReader.ReadTag(lower, shape, cur, r) == End(r[1..])
    ensures |r| >= 1 && r[0] != TAG_END ==>
              (match ReadText(r[1..])
               case Ok(_, _) => true
               case Err(_, rest) => NbtReader.ReadTag(lower, shape, cur, r) == TagErr(cur, rest)
               case Panic => NbtReader.ReadTag(lower, shape, cur, r) == TagPanic)
  {
    hide NbtReader.ReadPayload, ReadText, Stored, Locate, SlotShape, SlotStart;
  }

  lemma TagContinues(lower: Lowering, shape: Shape, cur: Value, r: seq<byte>, name: Text, rest: seq<byte>)
    requires |r| >= 1 && r[0] != TAG_END && ReadText(r[1..]) == Ok(StringValue(name), rest)
    ensures NbtReader.ReadTag(lower, shape, cur, r) == StoredOutcome(lower, r[0], shape, cur, name, rest)
  {
    hide NbtReader.ReadPayload, ReadText, Stored, Locate, SlotShape, SlotStart;
  }

  lemma Product(n: nat, k: nat)
    ensures n * k >= 0
  {
  }

  lemma ElemsStep(lower: Lowering, tag: byte, n: int, shape: Shape, acc: Value, r: seq<byte>)
    requires n > 0
    ensures NbtReader.ReadElems(lower, tag, n, shape, acc, r) ==
            match ElemShape(shape)
            case None => Panic
            case Some(elem) =>
              match NbtReader.ReadPayload(lower, tag, elem, Zero(elem), r)
              case Ok(v, rest) =>
                (match Appended(acc, v)
                 case None => Panic
                 case Some(acc') => NbtReader.ReadElems(lower, tag, n - 1, shape, acc', rest))
              case Err(_, rest) => Err(acc, rest)
              case Panic => Panic
  {
    hide NbtReader.ReadPayload, Zero, Appended, ElemShape;
  }

  lemma ElemsEnd(lower: Lowering, tag: byte, n: int, shape: Shape, acc: Value, r: seq<byte>)
    requires n <= 0
    ensures NbtReader.ReadElems(lower, tag, n, shape, acc, r) == Ok(acc, r)
  {
    hide NbtReader.ReadPayload, Zero, Appended, ElemShape;
  }
}
