/** One tick of the fluid simulators: what spreading achieves, and how the ticks of a run
    compose. */
module Ticks {
  import opened Blocks
  import opened Geometry
  import opened Columns
  import opened Cubes
  import opened UpdateQueues
  import opened Evolution
  import opened Writes
  import opened Falling

  const WATER_FLOW := Flow(true, false)
  const LAVA_FLOW := Flow(false, true)

  /** Fluid in cell i spreads to cell j: the four sides and the cell below. */
  predicate SpreadsTo(w: World, i: int, j: int) {
    && 0 <= i < w.Size() && 0 <= j < w.Size()
    && var p, q := w.Position(i), w.Position(j);
    || q == Coord(p.x + 1, p.y, p.z) || q == Coord(p.x - 1, p.y, p.z)
    || q == Coord(p.x, p.y, p.z + 1) || q == Coord(p.x, p.y, p.z - 1)
    || q == Coord(p.x, p.y - 1, p.z)
  }

  ghost function Targets(w: World, i: int): set<int> {
    set j | 0 <= j < w.Size() && SpreadsTo(w, i, j)
  }

  /** What a cell holds after fluid has spread to it: water floods air away from sponges, lava floods
      air, the two make stone of each other, and everything else is left alone. */
  ghost function SpreadBlock(w: World, mode: Mode, b: seq<byte>, j: int): byte
    requires 0 <= j < |b|
  {
    if mode.SpreadsWater() then
      if b[j] == AIR && !SpongeNear(w, b, j) then ACTIVE_WATER
      else if IsLava(b[j]) then STONE
      else b[j]
    else
      if b[j] == AIR then ACTIVE_LAVA
      else if IsWater(b[j]) then STONE
      else b[j]
  }

  /** One spread: nothing at all, or one write of the block that belongs there. */
  ghost predicate SpreadWrite(w: World, sims: set<Simulator>, mode: Mode, s: State, q: int, t: State) {
    && 0 <= q < |s.blocks|
    && var v := SpreadBlock(w, mode, s.blocks, q);
    if v == s.blocks[q] then t == s else EditOutcome(w, sims, s, q, v, t)
  }

  /** Fluid has spread to cell j. A gap in the border may have been flooded before lava came. */
  ghost predicate Met(w: World, mode: Mode, b: seq<byte>, c: seq<byte>, j: int) {
    && 0 <= j < |b| == |c|
    && (c[j] == SpreadBlock(w, mode, b, j) || (!mode.SpreadsWater() && Gap(w, b, j) && c[j] == STONE))
  }

  /** Only the given cells change, apart from gaps in the border that are flooded. */
  ghost predicate ChangedOnly(w: World, b: seq<byte>, c: seq<byte>, cells: set<int>) {
    && |b| == |c|
    && forall i :: 0 <= i < |b| && i !in cells ==> c[i] == b[i] || (Gap(w, b, i) && c[i] == ACTIVE_WATER)
  }

  /** Fluid has spread to exactly the given cells. */
  ghost predicate Spread(w: World, mode: Mode, b: seq<byte>, c: seq<byte>, cells: set<int>) {
    (forall j :: j in cells ==> Met(w, mode, b, c, j)) && ChangedOnly(w, b, c, cells)
  }

  /** The same, as far as nothing was able to fall meanwhile. */
  ghost predicate CalmSpread(w: World, sims: set<Simulator>, mode: Mode, b: seq<byte>, c: seq<byte>, cells: set<int>) {
    Calm(w, sims, b) ==> Spread(w, mode, b, c, cells)
  }

  lemma SpreadTrans(w: World, mode: Mode, b: seq<byte>, c: seq<byte>, d: seq<byte>, x: set<int>, y: set<int>)
    requires SameSponges(b, c) && Spread(w, mode, b, c, x) && Spread(w, mode, c, d, y)
    ensures Spread(w, mode, b, d, x + y)
  {
    hide SpongeNear, w.EdgeCell;
    forall i | 0 <= i < |b|
      ensures i in x + y ==> Met(w, mode, b, d, i)
      ensures i !in x + y ==> d[i] == b[i] || (Gap(w, b, i) && d[i] == ACTIVE_WATER)
    {
      SpongeNearSame(w, b, c, i);
      assert i in x ==> Met(w, mode, b, c, i);
      assert i in y ==> Met(w, mode, c, d, i);
    }
    assert forall j :: j in x ==> Met(w, mode, b, c, j);
    assert forall j :: j in y ==> Met(w, mode, c, d, j);
  }

  /** More cells have been met. */
  lemma CalmSpreadTrans(w: World, sims: set<Simulator>, mode: Mode, s: State, m: State, t: State, x: set<int>,
                        y: set<int>)
    requires Evolves(w, sims, mode, s, m, 0) && Evolves(w, sims, mode, m, t, 0)
    requires CalmSpread(w, sims, mode, s.blocks, m.blocks, x) && CalmSpread(w, sims, mode, m.blocks, t.blocks, y)
    ensures Evolves(w, sims, mode, s, t, 0)
    ensures CalmSpread(w, sims, mode, s.blocks, t.blocks, x + y)
  {
    hide Evolves, Calm, Spread, SameSponges;
    EvolvesTrans(w, sims, mode, s, m, t, 0, 0);
    if Calm(w, sims, s.blocks) {
      StaysCalm(w, sims, mode, s, m, 0);
      SpongesSame(w, sims, mode, s, m);
      SpreadTrans(w, mode, s.blocks, m.blocks, t.blocks, x, y);
    }
  }

  lemma SpongesSame(w: World, sims: set<Simulator>, mode: Mode, s: State, t: State)
    requires Evolves(w, sims, mode, s, t, 0)
    ensures SameSponges(s.blocks, t.blocks)
  {
    hide CellsEvolve, CalmlyEvolve, DefectsShrink, FloodsOn, QueuesGrow, WaterFed, LavaFed, PaidWrites, GrainsEvolve;
    SpongesStay(w, mode, s, t);
  }

  lemma NothingSpread(w: World, sims: set<Simulator>, mode: Mode, b: seq<byte>)
    ensures CalmSpread(w, sims, mode, b, b, {})
  {
    hide Gap, Calm;
  }

  // ------------------------------------------------------------------
  // One spread.

  /** The cell at the coordinates, if there is one. */
  function CellAt(w: World, x: int, y: int, z: int): set<int> {
    if w.Inside(x, y, z) then {w.Index(x, y, z)} else {}
  }

  /** On a calm level, a fluid or stone written by a spread stays, and nothing else changes. */
  lemma SpreadStays(w: World, sims: set<Simulator>, s: State, p: int, v: byte, t: State)
    requires EditOutcome(w, sims, s, p, v, t) && v != SPONGE
    requires 0 <= p < |s.blocks| && IsPassable(s.blocks[p]) && !IsGrain(v) && v != AIR
    requires Calm(w, sims, s.blocks)
    ensures ChangedOnly(w, s.blocks, t.blocks, {p}) && t.blocks[p] == v
  {
    hide DefectsShrink, FloodsOn, QueuesGrow, WaterFed, LavaFed, PaidWrites, GrainsEvolve, Handled, Unsettled, w.Plane,
         Calm, NeighboursAwake, EditContained, SpongeNear, Firm, FallsFrom, w.EdgeCell;
    CalmWrite(w, sims, s.blocks, p, v);
    var m := s.Written(p, v);
    assert SameSponges(s.blocks, m.blocks);
    assert CalmChange(w, Cascade, p, m.blocks[p], t.blocks[p]);
    forall i | 0 <= i < |s.blocks| && i != p
      ensures t.blocks[i] == s.blocks[i] || (Gap(w, s.blocks, i) && t.blocks[i] == ACTIVE_WATER)
    {
      SpongeNearSame(w, s.blocks, m.blocks, i);
      assert CalmChange(w, Cascade, i, m.blocks[i], t.blocks[i]) && CellChange(w, Cascade, m, t, i);
    }
  }

  lemma SpreadEvolves(w: World, sims: set<Simulator>, mode: Mode, s: State, q: int, v: byte, t: State)
    requires (mode == WATER_FLOW && WaterSimulator in sims) || (mode == LAVA_FLOW && LavaSimulator in sims)
    requires 0 <= q < |s.blocks| && v == SpreadBlock(w, mode, s.blocks, q) && v != s.blocks[q]
    requires EditOutcome(w, sims, s, q, v, t)
    ensures Evolves(w, sims, mode, s, t, 0)
  {
    hide Evolves, SandHandled, w.EdgeCell, w.Plane, SpongeNear, Unsettled, Dried, Refilled, Gap, Cube, NeighboursAwake,
         EditContained;
    FluidEvolves(w, sims, mode, s, q, v, t);
  }

  lemma SpreadWritten(w: World, sims: set<Simulator>, mode: Mode, s: State, q: int, t: State)
    requires (mode == WATER_FLOW && WaterSimulator in sims) || (mode == LAVA_FLOW && LavaSimulator in sims)
    requires SpreadWrite(w, sims, mode, s, q, t)
    ensures Evolves(w, sims, mode, s, t, 0)
    ensures CalmSpread(w, sims, mode, s.blocks, t.blocks, {q})
    ensures s.writes <= t.writes && (s.writes == t.writes ==> t == s)
  {
    hide Evolves, EditOutcome, Calm, SpongeNear, Gap;
    var v := SpreadBlock(w, mode, s.blocks, q);
    if v == s.blocks[q] {
      EvolvesRefl(w, sims, mode, s);
    } else {
      SpreadEvolves(w, sims, mode, s, q, v, t);
      EditWrites(w, sims, s, q, v, t);
      if Calm(w, sims, s.blocks) {
        SpreadStays(w, sims, s, q, v, t);
      }
    }
  }

  /** The five targets, named by coordinates. */
  lemma TargetsOf(w: World, i: int)
    requires 0 <= i < w.Size()
    ensures var p := w.Position(i);
            Targets(w, i) == CellAt(w, p.x + 1, p.y, p.z) + CellAt(w, p.x - 1, p.y, p.z)
                             + CellAt(w, p.x, p.y, p.z + 1) + CellAt(w, p.x, p.y, p.z - 1)
                             + CellAt(w, p.x, p.y - 1, p.z)
  {
    hide w.Size, w.Index, w.Position;
    var p := w.Position(i);
    forall j | SpreadsTo(w, i, j)
      ensures var q := w.Position(j); w.Inside(q.x, q.y, q.z) && w.Index(q.x, q.y, q.z) == j
    {
      PositionIndex(w, j);
    }
    TargetCell(w, i, p.x + 1, p.y, p.z);
    TargetCell(w, i, p.x - 1, p.y, p.z);
    TargetCell(w, i, p.x, p.y, p.z + 1);
    TargetCell(w, i, p.x, p.y, p.z - 1);
    TargetCell(w, i, p.x, p.y - 1, p.z);
  }

  lemma TargetCell(w: World, i: int, x: int, y: int, z: int)
    requires 0 <= i < w.Size()
    requires var p := w.Position(i);
             Coord(x, y, z) in {Coord(p.x + 1, p.y, p.z), Coord(p.x - 1, p.y, p.z), Coord(p.x, p.y, p.z + 1),
                                Coord(p.x, p.y, p.z - 1), Coord(p.x, p.y - 1, p.z)}
    ensures CellAt(w, x, y, z) <= Targets(w, i)
  {
    hide w.Size, w.Index, w.Position;
    if w.Inside(x, y, z) {
      IndexPosition(w, x, y, z);
    }
  }

  /** Where nothing can fall, after water in cell i has spread no lava (10, 11) is left beside or below it:
      it has become stone (1). Air (0) with no sponge within two cells has become active water (8), and
      everything else there is as it was. */
  lemma WaterSpreads(w: World, sims: set<Simulator>, b: seq<byte>, c: seq<byte>, i: int)
    requires CalmSpread(w, sims, WATER_FLOW, b, c, Targets(w, i)) && Calm(w, sims, b) && |b| == w.Size()
    ensures |c| == |b|
    ensures forall j :: SpreadsTo(w, i, j) ==>
              && 0 <= j < |b|
              && (b[j] == 10 || b[j] == 11 ==> c[j] == 1)
              && (b[j] == 0 ==> c[j] == if SpongeNear(w, b, j) then 0 else 8)
              && (b[j] != 0 && b[j] != 10 && b[j] != 11 ==> c[j] == b[j])
  {
    hide Calm, SpongeNear, SpreadsTo, Gap, w.Size;
    forall j | SpreadsTo(w, i, j)
      ensures 0 <= j < w.Size() && Met(w, WATER_FLOW, b, c, j)
    {
      SpreadInside(w, i, j);
    }
  }

  /** Where nothing can fall, after lava in cell i has spread neither air (0) nor water of either kind (8,
      9) is left beside or below it: water has become stone (1), air that is no gap of the border has
      become active lava (10), a gap is lava or stone, and everything else there is as it was. */
  lemma LavaSpreads(w: World, sims: set<Simulator>, b: seq<byte>, c: seq<byte>, i: int)
    requires CalmSpread(w, sims, LAVA_FLOW, b, c, Targets(w, i)) && Calm(w, sims, b) && |b| == w.Size()
    ensures |c| == |b|
    ensures forall j :: SpreadsTo(w, i, j) ==>
              && 0 <= j < |b| && c[j] != 0 && c[j] != 8 && c[j] != 9
              && (b[j] == 8 || b[j] == 9 ==> c[j] == 1)
              && (b[j] == 0 ==> c[j] == 10 || (Gap(w, b, j) && c[j] == 1))
              && (b[j] != 0 && b[j] != 8 && b[j] != 9 ==> c[j] == b[j])
  {
    hide Calm, SpongeNear, SpreadsTo, w.EdgeCell, w.Size;
    forall j | SpreadsTo(w, i, j)
      ensures 0 <= j < w.Size() && Met(w, LAVA_FLOW, b, c, j)
    {
      SpreadInside(w, i, j);
    }
  }

  lemma SpreadInside(w: World, i: int, j: int)
    requires SpreadsTo(w, i, j)
    ensures 0 <= j < w.Size() && j in Targets(w, i)
  {
    hide w.Size, w.Position;
  }

  // ------------------------------------------------------------------
  // A whole tick.

  lemma {:induction false} DueValid(queue: seq<BlockUpdate>, size: nat, delay: nat)
    requires ValidEntries(queue, size, delay)
    ensures forall k :: 0 <= k < |Due(queue)| ==> 0 <= Due(queue)[k] < size
    ensures ValidEntries(Rest(queue), size, if delay == 0 then 0 else delay - 1)
  {
    if queue == [] {
    } else {
      DueValid(queue[..|queue| - 1], size, delay);
      assert 0 <= queue[|queue| - 1].index < size && 1 <= queue[|queue| - 1].ticks <= delay;
    }
  }

  lemma ValidEntriesWeaken(queue: seq<BlockUpdate>, size: nat, a: nat, b: nat)
    requires ValidEntries(queue, size, a) && a <= b
    ensures ValidEntries(queue, size, b)
  {
  }

  ghost function AllTargets(w: World, cells: seq<int>): set<int> {
    if cells == [] then {} else AllTargets(w, cells[..|cells| - 1]) + Targets(w, cells[|cells| - 1])
  }

  lemma OneMoreTarget(w: World, cells: seq<int>, i: int)
    ensures AllTargets(w, cells + [i]) == AllTargets(w, cells) + Targets(w, i)
  {
    hide Targets;
    assert (cells + [i])[..|cells|] == cells;
  }

  predicate IsFluid(mode: Mode, v: byte) {
    if mode.SpreadsWater() then IsWater(v) else IsLava(v)
  }

  /** Seen from before the tick, the k-th due cell will hold its fluid when its turn comes: it does
      already, or it is air that one of the due cells before it spreads to. */
  ghost predicate FlowsAt(w: World, mode: Mode, b: seq<byte>, due: seq<int>, k: nat) {
    && k < |due| && 0 <= due[k] < |b|
    && (|| IsFluid(mode, b[due[k]])
        || (b[due[k]] == AIR && IsFluid(mode, SpreadBlock(w, mode, b, due[k])) && due[k] in AllTargets(w, due[..k])))
  }

  /** On a calm level, the first n due cells have spread, each because it held its fluid, and nothing
      but their targets has changed. */
  ghost predicate AllSpread(w: World, sims: set<Simulator>, mode: Mode, b: seq<byte>, c: seq<byte>, due: seq<int>,
                            n: nat)
    requires n <= |due|
  {
    Calm(w, sims, b) ==>
      && Spread(w, mode, b, c, AllTargets(w, due[..n]))
      && forall k :: 0 <= k < n ==> FlowsAt(w, mode, b, due, k) || Gap(w, b, due[k])
  }

  /** The tick ended after n of the due cells: with the last, or at one without its fluid. */
  ghost predicate StoppedAt(mode: Mode, c: seq<byte>, due: seq<int>, n: nat) {
    n <= |due| && (n < |due| ==> 0 <= due[n] < |c| && !IsFluid(mode, c[due[n]]))
  }

  lemma FlowsNow(w: World, mode: Mode, b: seq<byte>, m: seq<byte>, due: seq<int>, n: nat)
    requires n < |due| && 0 <= due[n] < |m| && IsFluid(mode, m[due[n]])
    requires Spread(w, mode, b, m, AllTargets(w, due[..n]))
    ensures FlowsAt(w, mode, b, due, n) || Gap(w, b, due[n])
  {
    hide SpongeNear, Gap, AllTargets;
    var met := AllTargets(w, due[..n]);
    assert due[n] in met ==> Met(w, mode, b, m, due[n]);
  }

  lemma StopsThere(w: World, mode: Mode, b: seq<byte>, c: seq<byte>, due: seq<int>, n: nat)
    requires n < |due| && 0 <= due[n] < |c| && !IsFluid(mode, c[due[n]])
    requires Spread(w, mode, b, c, AllTargets(w, due[..n]))
    ensures !FlowsAt(w, mode, b, due, n) || Gap(w, b, due[n])
  {
    hide SpongeNear, AllTargets, w.EdgeCell;
    var met := AllTargets(w, due[..n]);
    assert due[n] in met ==> Met(w, mode, b, c, due[n]);
  }

  /** One more cell has been handled by a tick that has so far led from s to m. */
  lemma TickStep(w: World, sims: set<Simulator>, mode: Mode, s: State, m: State, t: State, due: seq<int>, n: nat)
    requires n < |due|
    requires Evolves(w, sims, mode, s, m, 0) && Evolves(w, sims, mode, m, t, 0)
    requires AllSpread(w, sims, mode, s.blocks, m.blocks, due, n)
    requires 0 <= due[n] < |m.blocks| && IsFluid(mode, m.blocks[due[n]])
    requires CalmSpread(w, sims, mode, m.blocks, t.blocks, Targets(w, due[n]))
    ensures Evolves(w, sims, mode, s, t, 0)
    ensures AllSpread(w, sims, mode, s.blocks, t.blocks, due, n + 1)
  {
    hide Evolves, Calm, Spread, AllTargets, Targets, FlowsAt, Gap;
    CalmSpreadTrans(w, sims, mode, s, m, t, AllTargets(w, due[..n]), Targets(w, due[n]));
    if Calm(w, sims, s.blocks) {
      OneMoreTarget(w, due[..n], due[n]);
      assert due[..n + 1] == due[..n] + [due[n]];
      FlowsNow(w, mode, s.blocks, m.blocks, due, n);
    }
  }

  lemma NoneSpread(w: World, sims: set<Simulator>, mode: Mode, b: seq<byte>, due: seq<int>)
    ensures AllSpread(w, sims, mode, b, b, due, 0)
  {
    hide Gap, Calm;
  }

  /** The number of due cells that spread: all up to the first that will not hold its fluid. */
  ghost function FirstStill(w: World, mode: Mode, b: seq<byte>, due: seq<int>, k: nat): (n: nat)
    requires k <= |due|
    ensures k <= n <= |due|
    decreases |due| - k
  {
    if k < |due| && FlowsAt(w, mode, b, due, k) then FirstStill(w, mode, b, due, k + 1) else k
  }

  /** The cells after a tick of a level where nothing can fall and the border is flooded. */
  ghost function TickResult(w: World, mode: Mode, b: seq<byte>, due: seq<int>): (c: seq<byte>)
    ensures |c| == |b|
  {
    var met := AllTargets(w, due[..FirstStill(w, mode, b, due, 0)]);
    seq(|b|, i requires 0 <= i < |b| => if i in met then SpreadBlock(w, mode, b, i) else b[i])
  }

  lemma {:induction false} FirstIs(w: World, mode: Mode, b: seq<byte>, due: seq<int>, k: nat, n: nat)
    requires k <= n <= |due|
    requires forall i :: k <= i < n ==> FlowsAt(w, mode, b, due, i)
    requires n < |due| ==> !FlowsAt(w, mode, b, due, n)
    ensures FirstStill(w, mode, b, due, k) == n
    decreases n - k
  {
    hide FlowsAt;
    if k < n {
      FirstIs(w, mode, b, due, k + 1, n);
    }
  }

  /** How many due cells spread is decided before the tick. All of them do if and only if each holds
      its fluid or is air that an earlier one spreads to. */
  lemma TickCount(w: World, sims: set<Simulator>, mode: Mode, b: seq<byte>, c: seq<byte>, due: seq<int>, n: nat)
    requires StoppedAt(mode, c, due, n) && AllSpread(w, sims, mode, b, c, due, n)
    requires Calm(w, sims, b) && forall k :: 0 <= k < |due| ==> !Gap(w, b, due[k])
    ensures n == FirstStill(w, mode, b, due, 0)
    ensures n == |due| <==> forall k :: 0 <= k < |due| ==> FlowsAt(w, mode, b, due, k)
  {
    hide Calm, Spread, FlowsAt, Gap, AllTargets;
    if n < |due| {
      StopsThere(w, mode, b, c, due, n);
    }
    FirstIs(w, mode, b, due, 0, n);
  }

  /** On a level where nothing can fall and the border is flooded, a tick computes TickResult. */
  lemma TickExact(w: World, sims: set<Simulator>, mode: Mode, b: seq<byte>, c: seq<byte>, due: seq<int>, n: nat)
    requires StoppedAt(mode, c, due, n) && AllSpread(w, sims, mode, b, c, due, n)
    requires Calm(w, sims, b) && forall i :: !Gap(w, b, i)
    ensures c == TickResult(w, mode, b, due)
  {
    hide Calm, FlowsAt, Gap, AllTargets, SpreadBlock, FirstStill;
    TickCount(w, sims, mode, b, c, due, n);
    var met := AllTargets(w, due[..n]);
    assert forall i :: i in met ==> Met(w, mode, b, c, i);
  }

  /** A due cell that lost its water keeps a later one from spreading: of the due cells 0 and 1, the
      first has been replaced by stone, so the water in cell 1 never reaches the air beside it. In
      the other order it does. */
  lemma DroppedCell(w: World, b: seq<byte>)
    requires w == World(3, 1, 1, STONE, 0, 0) && b == [STONE, ACTIVE_WATER, AIR]
    ensures SpreadsTo(w, 1, 2)
    ensures TickResult(w, WATER_FLOW, b, [0, 1]) == b
    ensures TickResult(w, WATER_FLOW, b, [1, 0]) == [STONE, ACTIVE_WATER, ACTIVE_WATER]
  {
    IndexPosition(w, 0, 0, 0);
    IndexPosition(w, 1, 0, 0);
    IndexPosition(w, 2, 0, 0);
    assert w.Position(0) == Coord(0, 0, 0) && w.Position(1) == Coord(1, 0, 0) && w.Position(2) == Coord(2, 0, 0);
    assert !FlowsAt(w, WATER_FLOW, b, [0, 1], 0);
    assert [0, 1][..0] == [];
    assert FlowsAt(w, WATER_FLOW, b, [1, 0], 0) && !FlowsAt(w, WATER_FLOW, b, [1, 0], 1);
    FirstIs(w, WATER_FLOW, b, [1, 0], 0, 1);
    assert [1, 0][..1] == [1] && [1][..0] == [];
    assert AllTargets(w, [1]) == Targets(w, 1) == {0, 2};
    assert !SpongeNear(w, b, 2);
  }

  lemma EditWrites(w: World, sims: set<Simulator>, s: State, p: int, v: byte, t: State)
    requires EditOutcome(w, sims, s, p, v, t)
    ensures t.writes > s.writes
  {
    hide CellsEvolve, CalmlyEvolve, DefectsShrink, QueuesGrow, Handled, Gap, Unsettled, w.Plane, Potential;
  }

  lemma FluidStarts(plane: nat, b: seq<byte>, p: int, v: byte)
    requires 0 <= p < |b| && IsPassable(b[p]) && !IsGrain(v)
    ensures Grounded(plane, b) ==> Grounded(plane, b[p := v])
  {
    if Grounded(plane, b) {
      GroundedWrite(plane, b, p, v);
    }
  }
}
