/** Whole runs of updates: what any number of ticks keeps, and why they come to rest. */
module Runs {
  import opened Blocks
  import opened Geometry
  import opened Columns
  import opened Shafts
  import opened UpdateQueues
  import opened Evolution
  import opened Writes

  /** The fluids that ticks of the registered simulators spread. */
  function Currents(sims: set<Simulator>): Mode {
    Flow(WaterSimulator in sims, LavaSimulator in sims)
  }

  /** How one cell may change over a run: like CellChange, without the scheduling. */
  ghost predicate CellDrift(w: World, mode: Mode, b: seq<byte>, c: seq<byte>, i: int)
    requires 0 <= i < |b| == |c|
  {
    || b[i] == c[i]
    || (!IsHard(b[i]) &&
        (|| (IsGrain(c[i]) && FallsFrom(w.Plane(), b, i, c[i]))
         || (c[i] == AIR && (FallsFrom(w.Plane(), b, i, SAND) || FallsFrom(w.Plane(), b, i, GRAVEL)))
         || (c[i] == ACTIVE_WATER && (mode.SpreadsWater() || w.EdgeCell(i)) && !SpongeNear(w, b, i))
         || (c[i] == ACTIVE_LAVA && mode.SpreadsLava())
         || (c[i] == STONE && (mode.SpreadsWater() || mode.SpreadsLava()))))
  }

  ghost predicate CellsDrift(w: World, mode: Mode, b: seq<byte>, c: seq<byte>) {
    && |b| == |c|
    && (forall i :: 0 <= i < |b| ==> CellDrift(w, mode, b, c, i))
    && (forall i :: 0 <= i < |b| && Firm(w.Plane(), b, i) ==> c[i] == b[i])
  }

  /** What any run of ticks and cascades does to the cells. */
  ghost predicate Drifts(w: World, sims: set<Simulator>, s: State, t: State) {
    && CellsDrift(w, Currents(sims), s.blocks, t.blocks)
    && CalmlyEvolve(w, sims, Currents(sims), s.blocks, t.blocks)
    && DefectsShrink(w, sims, s.blocks, t.blocks)
    && FewerGrains(s.blocks, t.blocks)
    && PaidWrites(w, s, t, 0)
  }

  /** The state with the queues of the given simulators one tick older. */
  ghost function Aged(sims: set<Simulator>, s: State): State {
    s.(water := if WaterSimulator in sims then Rest(s.water) else s.water,
       lava := if LavaSimulator in sims then Rest(s.lava) else s.lava)
  }

  lemma DriftSponges(w: World, mode: Mode, b: seq<byte>, c: seq<byte>)
    requires CellsDrift(w, mode, b, c)
    ensures SameSponges(b, c)
  {
    forall i | 0 <= i < |b|
      ensures b[i] == SPONGE <==> c[i] == SPONGE
    {
      assert CellDrift(w, mode, b, c, i);
    }
  }

  lemma DriftsTrans(w: World, sims: set<Simulator>, s: State, m: State, t: State)
    requires Drifts(w, sims, s, m) && Drifts(w, sims, m, t)
    ensures Drifts(w, sims, s, t)
  {
    CellsDriftTrans(w, Currents(sims), s.blocks, m.blocks, t.blocks);
    CalmTrans(w, sims, Currents(sims), s.blocks, m.blocks, t.blocks);
    hide CellsDrift, CalmlyEvolve, Unsettled, Gap, Grounded, Potential, w.Plane;
  }

  lemma DriftSource(w: World, mode: Mode, b: seq<byte>, c: seq<byte>, i: int, v: byte)
    requires CellsDrift(w, mode, b, c) && IsGrain(v) && FallsFrom(w.Plane(), c, i, v)
    ensures FallsFrom(w.Plane(), b, i, v)
  {
    hide Over, Firm, w.EdgeCell, SpongeNear;
    var plane := w.Plane();
    hide w.Plane;
    var j :| 0 <= j < |c| && Over(plane, j, i) && c[j] == v;
    assert CellDrift(w, mode, b, c, j);
    if b[j] != v {
      var k :| 0 <= k < |b| && Over(plane, k, j) && b[k] == v;
      OverTrans(plane, k, j, i);
    }
  }

  lemma CellsDriftTrans(w: World, mode: Mode, b: seq<byte>, c: seq<byte>, d: seq<byte>)
    requires CellsDrift(w, mode, b, c) && CellsDrift(w, mode, c, d)
    ensures CellsDrift(w, mode, b, d)
  {
    hide SpongeNear, w.Plane, FallsFrom, w.EdgeCell, Firm;
    DriftSponges(w, mode, b, c);
    forall i | 0 <= i < |b|
      ensures CellDrift(w, mode, b, d, i)
    {
      assert CellDrift(w, mode, b, c, i) && CellDrift(w, mode, c, d, i);
      SpongeNearSame(w, b, c, i);
      forall v: byte | IsGrain(v) && FallsFrom(w.Plane(), c, i, v)
        ensures FallsFrom(w.Plane(), b, i, v)
      {
        DriftSource(w, mode, b, c, i, v);
      }
    }
    forall i | 0 <= i < |b| && Firm(w.Plane(), b, i)
      ensures d[i] == b[i]
    {
      FirmKept(w.Plane(), b, c, i);
    }
  }

  lemma DriftsRefl(w: World, sims: set<Simulator>, s: State, t: State)
    requires s.blocks == t.blocks && s.writes == t.writes
    ensures Drifts(w, sims, s, t)
  {
  }

  /** Whether ticks of the registered simulators include this kind of physics. */
  predicate Covers(sims: set<Simulator>, mode: Mode) {
    mode.Cascade? || (mode.Flow? && (mode.water ==> WaterSimulator in sims) && (mode.lava ==> LavaSimulator in sims))
  }

  lemma EvolvesDrifts(w: World, sims: set<Simulator>, mode: Mode, s: State, t: State)
    requires Covers(sims, mode) && (mode.Flow? ==> mode.water || mode.lava)
    requires Evolves(w, sims, mode, s, t, 0)
    ensures Drifts(w, sims, s, t)
  {
    hide SpongeNear, w.EdgeCell, w.Plane, Gap, Unsettled, Grounded, Potential, QueuesGrow, FallsFrom, Firm, Orderly,
         FloodsOn, WaterFed, LavaFed;
    forall i | 0 <= i < |s.blocks|
      ensures CellDrift(w, Currents(sims), s.blocks, t.blocks, i)
    {
      assert CellChange(w, mode, s, t, i);
    }
    if Calm(w, sims, s.blocks) {
      forall i | 0 <= i < |s.blocks|
        ensures CalmChange(w, Currents(sims), i, s.blocks[i], t.blocks[i])
      {
        assert CalmChange(w, mode, i, s.blocks[i], t.blocks[i]);
      }
    }
  }

  // ------------------------------------------------------------------
  // Coming to rest.

  /** All entries of the queue are due within n ticks. */
  ghost predicate DueWithin(queue: seq<BlockUpdate>, n: int) {
    forall k :: 0 <= k < |queue| ==> 1 <= queue[k].ticks <= n
  }

  /** The registered fluid simulators have nothing queued for later than n ticks from now. */
  ghost predicate QuietWithin(sims: set<Simulator>, s: State, n: int) {
    && (WaterSimulator in sims ==> DueWithin(s.water, n))
    && (LavaSimulator in sims ==> DueWithin(s.lava, n))
  }

  /** Nothing is queued in a registered simulator: ticks no longer do anything. */
  predicate Quiet(sims: set<Simulator>, s: State) {
    && (WaterSimulator in sims ==> s.water == [])
    && (LavaSimulator in sims ==> s.lava == [])
  }

  lemma {:induction false} RestDue(queue: seq<BlockUpdate>, n: int)
    requires DueWithin(queue, n)
    ensures DueWithin(Rest(queue), n - 1)
  {
    if queue == [] {
    } else {
      RestDue(queue[..|queue| - 1], n);
      assert 1 <= queue[|queue| - 1].ticks <= n;
    }
  }

  lemma AgedQuiet(sims: set<Simulator>, s: State, n: int)
    requires QuietWithin(sims, s, n)
    ensures QuietWithin(sims, Aged(sims, s), n - 1)
  {
    if WaterSimulator in sims {
      RestDue(s.water, n);
    }
    if LavaSimulator in sims {
      RestDue(s.lava, n);
    }
  }

  lemma NoneDue(queue: seq<BlockUpdate>, n: int)
    requires n <= 0
    ensures DueWithin(queue, n) ==> queue == []
  {
    if queue != [] {
      assert queue[0] in queue;
    }
  }

  lemma AgedTwice(done: set<Simulator>, simulator: Simulator, s: State)
    requires simulator !in done
    ensures Aged({simulator}, Aged(done, s)) == Aged(done + {simulator}, s)
  {
  }

  lemma QueuedWithin30(sims: set<Simulator>, s: State)
    requires ValidQueues(s)
    ensures QuietWithin(sims, s, 30)
  {
  }

  // ------------------------------------------------------------------
  // Registering a simulator: each cell is updated in turn.

  ghost predicate Swept(w: World, simulator: Simulator, s: State, t: State, n: int) {
    n <= |t.blocks| && forall i :: 0 <= i < n ==> SweptCell(w, simulator, s, t, i)
  }

  lemma SweepStep(w: World, sims: set<Simulator>, simulator: Simulator, s: State, m: State, n: nat, t: State)
    requires simulator in sims && n < |m.blocks| == |t.blocks|
    requires Evolves(w, sims, Cascade, s, m, 0) && Swept(w, simulator, s, m, n)
    requires Evolves(w, sims, Cascade, m, t, 0)
    requires Handled(w, {simulator}, m.blocks[n], m.blocks[n], n, m, t)
    ensures Evolves(w, sims, Cascade, s, t, 0) && Swept(w, simulator, s, t, n + 1)
  {
    hide Evolves, Handled, SweptCell, QueuesGrow;
    Consequences(w, sims, Cascade, s, m, 0);
    EvolvesTrans(w, sims, Cascade, s, m, t, 0, 0);
    SweptNow(w, sims, simulator, s, m, n, t);
    forall i | 0 <= i < n
      ensures SweptCell(w, simulator, s, t, i)
    {
      SweptStays(w, sims, simulator, s, m, i, t);
    }
  }

  lemma NothingSwept(w: World, simulator: Simulator, s: State)
    ensures Swept(w, simulator, s, s, 0)
  {
  }

  lemma TickDrifts(w: World, sims: set<Simulator>, mode: Mode, s: State, m: State, t: State)
    requires mode.Flow? && (mode.water || mode.lava) && Covers(sims, mode)
    requires s.blocks == m.blocks && s.writes == m.writes
    requires Evolves(w, sims, mode, m, t, 0)
    ensures Drifts(w, sims, s, t)
  {
    hide Evolves, Drifts;
    DriftsRefl(w, sims, s, m);
    EvolvesDrifts(w, sims, mode, m, t);
    DriftsTrans(w, sims, s, m, t);
  }

  lemma EvolvesDrops(w: World, sims: set<Simulator>, mode: Mode, s: State, t: State)
    requires Evolves(w, sims, mode, s, t, 0)
    ensures s.drops <= t.drops
  {
    hide CellsEvolve, CalmlyEvolve, DefectsShrink, FloodsOn, WaterFed, LavaFed, PaidWrites, GrainsEvolve, ValidQueues,
         w.Plane;
  }

  lemma DriftWrites(w: World, sims: set<Simulator>, s: State, t: State)
    requires Drifts(w, sims, s, t)
    ensures s.writes <= t.writes
    ensures t.writes + Potential(w.Plane(), t.blocks) <= s.writes + Potential(w.Plane(), s.blocks)
  {
    hide CellsDrift, CalmlyEvolve, DefectsShrink, FewerGrains, w.Plane, Potential;
  }

  /** An update that writes nothing brings everything that is queued one tick closer. */
  lemma StillQuiet(sims: set<Simulator>, s: State, n: int)
    requires Quiet(sims, s) || QuietWithin(sims, s, n)
    ensures Quiet(sims, Aged(sims, s)) || QuietWithin(sims, Aged(sims, s), n - 1)
    ensures Quiet(sims, s) || n <= 1 ==> Quiet(sims, Aged(sims, s))
  {
    if QuietWithin(sims, s, n) {
      AgedQuiet(sims, s, n);
      if n <= 1 {
        NothingLeft(sims, Aged(sims, s), n - 1);
      }
    }
  }

  lemma NothingLeft(sims: set<Simulator>, s: State, n: int)
    requires QuietWithin(sims, s, n) && n <= 0
    ensures Quiet(sims, s)
  {
    NoneDue(s.water, n);
    NoneDue(s.lava, n);
  }
}
