/** The write-behind buffer in front of a level's cells. */
module BlockBuffers {
  import opened Blocks
  import opened Geometry
  import opened Levels

  const BUFFER_SIZE := 256

  datatype Write = Write(index: int, block: byte)

  /** The cells after the writes have been applied in order. */
  ghost function Apply(b: seq<byte>, writes: seq<Write>): (r: seq<byte>)
    requires forall k :: 0 <= k < |writes| ==> 0 <= writes[k].index < |b|
    ensures |r| == |b|
  {
    if writes == [] then b else
      var last := writes[|writes| - 1];
      Apply(b, writes[..|writes| - 1])[last.index := last.block]
  }

  function Paired(indices: seq<int>, blocks: seq<byte>): (r: seq<Write>)
    requires |indices| == |blocks|
    ensures |r| == |indices|
    ensures forall k :: 0 <= k < |r| ==> r[k] == Write(indices[k], blocks[k])
  {
    seq(|indices|, k requires 0 <= k < |indices| => Write(indices[k], blocks[k]))
  }

  /** Conversion to a 32-bit integer, as stored in the index table. */
  function Int32(x: int): int {
    (x + 0x8000_0000) % 0x1_0000_0000 - 0x8000_0000
  }

  class BlockBuffer {
    const level: Level
    var count: nat
    const indices: array<int>
    const blocks: array<byte>

    constructor (level: Level)
      requires level.blocks.Length == level.W().Size() <= 0x8000_0000
      ensures Valid() && this.level == level && count == 0 && fresh(indices) && fresh(blocks)
      ensures Pending() == []
    {
      this.level := level;
      count := 0;
      indices := new int[BUFFER_SIZE](_ => 0);
      blocks := new byte[BUFFER_SIZE](_ => AIR);
    }

    /** At most 255 writes are pending between calls, all of them to cells of the level, whose
        indices fit in 32 bits. */
    ghost predicate Valid()
      reads this`count, indices, blocks, level`envConfig
    {
      && indices.Length == blocks.Length == BUFFER_SIZE && count < BUFFER_SIZE
      && blocks != level.blocks
      && level.blocks.Length == level.W().Size() <= 0x8000_0000
      && forall k :: 0 <= k < count ==> 0 <= indices[k] < level.blocks.Length
    }

    ghost function Pending(): seq<Write>
      requires count <= indices.Length && count <= blocks.Length
      reads this`count, indices, blocks
    {
      Paired(indices[..count], blocks[..count])
    }

    /** What the level will hold once the buffer is flushed. */
    ghost function Contents(): seq<byte>
      requires Valid()
      reads this`count, indices, blocks, level`envConfig, level.blocks
    {
      Apply(level.blocks[..], Pending())
    }

    method Set(x: int, y: int, z: int, block: byte)
      requires Valid() && level.W().Inside(x, y, z)
      modifies this`count, indices, blocks, level.blocks, level`dirty
      ensures Valid()
      ensures 0 <= level.W().Index(x, y, z) < |old(Contents())|
      ensures Contents() == old(Contents())[level.W().Index(x, y, z) := block]
      ensures old(count) < 255 ==>
                count == old(count) + 1 && level.blocks[..] == old(level.blocks[..]) && level.dirty == old(level.dirty)
      ensures old(count) == 255 ==> count == 0 && level.blocks[..] == Contents() && level.dirty
    {
      IndexPosition(level.W(), x, y, z);
      ghost var index := level.W().Index(x, y, z);
      ghost var was := Pending();
      indices[count] := Int32(level.W().Index(x, y, z));
      blocks[count] := block;
      count := count + 1;
      assert Pending() == was + [Write(index, block)];
      assert Pending()[..|was|] == was;
      if count >= BUFFER_SIZE {
        Flush();
      }
    }

    method Flush()
      requires indices.Length == blocks.Length == BUFFER_SIZE && count <= BUFFER_SIZE && blocks != level.blocks
      requires level.blocks.Length == level.W().Size() <= 0x8000_0000
      requires forall k :: 0 <= k < count ==> 0 <= indices[k] < level.blocks.Length
      modifies this`count, level.blocks, level`dirty
      ensures Valid() && count == 0 && level.dirty
      ensures level.blocks[..] == Apply(old(level.blocks[..]), old(Pending()))
      ensures Contents() == level.blocks[..]
    {
      ghost var b, pending := level.blocks[..], Pending();
      assert pending[..0] == [];
      for i := 0 to count
        invariant count <= BUFFER_SIZE == indices.Length == blocks.Length && Pending() == pending
        invariant level.blocks[..] == Apply(b, pending[..i])
      {
        assert pending[..i + 1][..i] == pending[..i];
        level.blocks[indices[i]] := blocks[i];
      }
      assert pending[..count] == pending;
      level.dirty := true;
      count := 0;
    }
  }

  // ------------------------------------------------------------------
  // Runs.

  datatype CoordWrite = CoordWrite(x: int, y: int, z: int, block: byte)

  ghost predicate AllInside(w: World, writes: seq<CoordWrite>) {
    forall k :: 0 <= k < |writes| ==> w.Inside(writes[k].x, writes[k].y, writes[k].z)
  }

  /** The block that was written last at the coordinates, or the initial one. */
  function LastWritten(initial: byte, writes: seq<CoordWrite>, x: int, y: int, z: int): byte {
    if writes == [] then initial else
      var last := writes[|writes| - 1];
      if last.x == x && last.y == y && last.z == z then last.block
      else LastWritten(initial, writes[..|writes| - 1], x, y, z)
  }

  /** The cells after direct writes, in call order. */
  ghost function Direct(w: World, b: seq<byte>, writes: seq<CoordWrite>): (r: seq<byte>)
    requires |b| == w.Size() && AllInside(w, writes)
    ensures |r| == |b|
  {
    if writes == [] then b else
      var last := writes[|writes| - 1];
      IndexPosition(w, last.x, last.y, last.z);
      Direct(w, b, writes[..|writes| - 1])[w.Index(last.x, last.y, last.z) := last.block]
  }

  datatype Op = Set(write: CoordWrite) | Flush

  /** The writes of a run of operations on a buffer. */
  function WritesOf(ops: seq<Op>): seq<CoordWrite> {
    if ops == [] then [] else
      WritesOf(ops[..|ops| - 1]) + (match ops[|ops| - 1] case Set(write) => [write] case Flush => [])
  }

  lemma WritesOfLast(ops: seq<Op>, k: nat)
    requires k < |ops|
    ensures WritesOf(ops[..k + 1]) == WritesOf(ops[..k]) + (match ops[k] case Set(write) => [write] case Flush => [])
  {
    assert ops[..k + 1][..k] == ops[..k];
  }

  lemma {:induction false} WritesBefore(ops: seq<Op>, k: nat)
    requires k <= |ops|
    ensures WritesOf(ops[..k]) <= WritesOf(ops)
    decreases |ops|
  {
    if k == |ops| {
      assert ops[..k] == ops;
    } else {
      var init := ops[..|ops| - 1];
      WritesBefore(init, k);
      assert init[..k] == ops[..k];
    }
  }

  lemma DirectLast(w: World, b: seq<byte>, writes: seq<CoordWrite>, last: CoordWrite)
    requires |b| == w.Size() && AllInside(w, writes + [last])
    ensures AllInside(w, writes) && 0 <= w.Index(last.x, last.y, last.z) < |b|
    ensures Direct(w, b, writes + [last]) == Direct(w, b, writes)[w.Index(last.x, last.y, last.z) := last.block]
  {
    hide w.Index, w.Size;
    var all := writes + [last];
    assert all[..|writes|] == writes;
    assert all[|writes|] == last;
    assert forall k :: 0 <= k < |writes| ==> writes[k] == all[k];
    IndexPosition(w, last.x, last.y, last.z);
  }

  /** Performs a run on a buffer: at its end, as at any point of it, applying what is pending gives
      the array that direct writes in call order would give. */
  method Perform(buffer: BlockBuffer, ops: seq<Op>)
    requires buffer.Valid() && AllInside(buffer.level.W(), WritesOf(ops))
    modifies buffer, buffer.indices, buffer.blocks, buffer.level.blocks, buffer.level`dirty
    ensures buffer.Valid()
    ensures buffer.level.W() == old(buffer.level.W()) && |old(buffer.Contents())| == buffer.level.W().Size()
    ensures buffer.Contents() == Direct(buffer.level.W(), old(buffer.Contents()), WritesOf(ops))
  {
    hide Direct, WritesOf;
    ghost var w, b := buffer.level.W(), buffer.Contents();
    NothingWritten(w, b);
    assert ops[..0] == [];
    for n := 0 to |ops|
      invariant buffer.Valid() && buffer.level.W() == w
      invariant AllInside(w, WritesOf(ops[..n]))
      invariant buffer.Contents() == Direct(w, b, WritesOf(ops[..n]))
    {
      WritesBefore(ops, n + 1);
      WritesOfLast(ops, n);
      InsideBefore(w, WritesOf(ops[..n + 1]), WritesOf(ops));
      match ops[n]
      case Set(write) =>
        assert WritesOf(ops[..n + 1])[|WritesOf(ops[..n])|] == write;
        DirectLast(w, b, WritesOf(ops[..n]), write);
        buffer.Set(write.x, write.y, write.z, write.block);
      case Flush =>
        assert WritesOf(ops[..n + 1]) == WritesOf(ops[..n]);
        buffer.Flush();
    }
    assert ops[..|ops|] == ops;
  }

  lemma InsideBefore(w: World, some: seq<CoordWrite>, all: seq<CoordWrite>)
    requires some <= all && AllInside(w, all)
    ensures AllInside(w, some)
  {
    assert forall k :: 0 <= k < |some| ==> some[k] == all[k];
  }

  lemma NothingWritten(w: World, b: seq<byte>)
    requires |b| == w.Size()
    ensures WritesOf([]) == [] && AllInside(w, []) && Direct(w, b, []) == b
  {
  }

  /** Writes at distinct coordinates never collide: each cell ends with the block that was
      written last at its own coordinates. */
  lemma {:induction false} DirectReads(w: World, b: seq<byte>, writes: seq<CoordWrite>, x: int, y: int, z: int)
    requires |b| == w.Size() && AllInside(w, writes) && w.Inside(x, y, z)
    ensures 0 <= w.Index(x, y, z) < |b|
    ensures Direct(w, b, writes)[w.Index(x, y, z)] == LastWritten(b[w.Index(x, y, z)], writes, x, y, z)
  {
    hide w.Index, w.Size;
    IndexPosition(w, x, y, z);
    if writes == [] {
    } else {
      var last := writes[|writes| - 1];
      IndexPosition(w, last.x, last.y, last.z);
      DirectReads(w, b, writes[..|writes| - 1], x, y, z);
    }
  }
}
