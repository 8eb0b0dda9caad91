/** A level on which one fluid flows and nothing can fall and the other fluid does not flow: once its
    ticks come to rest, all of that fluid has spread as far as it goes. */
module Resting {
  import opened Blocks
  import opened Geometry
  import opened Cubes
  import opened UpdateQueues
  import opened Evolution
  import opened Columns
  import opened Shafts
  import opened Reach
  import opened Writes
  import opened Ticks
  import opened Runs
  import opened Laws

  /** The two fluids, named by the mode of their ticks. */
  predicate IsFlow(fluid: Mode) {
    fluid == WATER_FLOW || fluid == LAVA_FLOW
  }

  function SourceOf(fluid: Mode): Simulator {
    if fluid.SpreadsWater() then WaterSimulator else LavaSimulator
  }

  function QueueOf(fluid: Mode, s: State): seq<BlockUpdate> {
    if fluid.SpreadsWater() then s.water else s.lava
  }

  /** The state once the due entries of the fluid have been taken out of its queue. */
  function TakenOut(fluid: Mode, s: State): State {
    if fluid.SpreadsWater() then s.(water := Rest(s.water)) else s.(lava := Rest(s.lava))
  }

  ghost predicate Queued(queue: seq<BlockUpdate>, i: int) {
    exists k :: 0 <= k < |queue| && queue[k].index == i
  }

  /** Nothing that the fluid could spread to: water spreads to lava, and to air that is not near a
      sponge; lava spreads to air and water. */
  ghost predicate Blocked(w: World, fluid: Mode, b: seq<byte>, j: int)
    requires 0 <= j < |b|
  {
    if fluid.SpreadsWater() then !IsLava(b[j]) && (b[j] == AIR ==> SpongeNear(w, b, j))
    else b[j] != AIR && !IsWater(b[j])
  }

  /** Fluid in cell i has nowhere left to go: beside and below it there is nothing to spread to. */
  ghost predicate Closed(w: World, fluid: Mode, b: seq<byte>, i: int) {
    forall j :: SpreadsTo(w, i, j) ==> 0 <= j < |b| && Blocked(w, fluid, b, j)
  }

  /** Every queued cell still holds the fluid. */
  ghost predicate EntriesHold(fluid: Mode, s: State) {
    forall e :: e in QueueOf(fluid, s) ==> 0 <= e.index < |s.blocks| && IsFluid(fluid, s.blocks[e.index])
  }

  /** Every queued cell holds the fluid, and all else of it has nowhere to go. */
  ghost predicate Running(w: World, fluid: Mode, s: State) {
    && EntriesHold(fluid, s)
    && (forall i :: 0 <= i < |s.blocks| && IsFluid(fluid, s.blocks[i]) ==>
          Queued(QueueOf(fluid, s), i) || Closed(w, fluid, s.blocks, i))
  }

  ghost predicate NoLava(s: State) {
    s.lava == [] && forall i :: 0 <= i < |s.blocks| ==> !IsLava(s.blocks[i])
  }

  /** There is no water, and none comes from the border. */
  ghost predicate NoWater(w: World, b: seq<byte>) {
    forall i :: 0 <= i < |b| ==> !IsWater(b[i]) && !Gap(w, b, i)
  }

  /** No lava will spread. */
  ghost predicate LavaIdle(sims: set<Simulator>, s: State) {
    LavaSimulator in sims ==> NoLava(s)
  }

  /** No water will spread. */
  ghost predicate WaterIdle(w: World, sims: set<Simulator>, s: State) {
    WaterSimulator in sims ==> NoWater(w, s.blocks)
  }

  /** The other fluid does not spread. */
  ghost predicate OtherIdle(w: World, fluid: Mode, sims: set<Simulator>, s: State) {
    if fluid.SpreadsWater() then LavaIdle(sims, s) else WaterIdle(w, sims, s)
  }

  /** The fluid is simulated, nothing else is going on, and all of it that can still spread is queued. */
  ghost predicate Flows(w: World, fluid: Mode, sims: set<Simulator>, s: State) {
    SourceOf(fluid) in sims && Calm(w, sims, s.blocks) && OtherIdle(w, fluid, sims, s) && Running(w, fluid, s)
  }

  /** All of the fluid has spread as far as it goes. */
  ghost predicate AtRest(w: World, fluid: Mode, b: seq<byte>) {
    forall i :: 0 <= i < |b| && IsFluid(fluid, b[i]) ==> Closed(w, fluid, b, i)
  }

  lemma RunningQuiet(w: World, fluid: Mode, s: State)
    requires Running(w, fluid, s) && QueueOf(fluid, s) == []
    ensures AtRest(w, fluid, s.blocks)
  {
    hide Closed;
  }

  /** At rest, no water has lava beside or below it, and air there only where a sponge is within two
      cells. */
  lemma WaterAtRest(w: World, b: seq<byte>)
    requires |b| == w.Size()
    ensures AtRest(w, WATER_FLOW, b) <==>
            forall i, j :: 0 <= i < |b| && (b[i] == 8 || b[i] == 9) && SpreadsTo(w, i, j) ==>
              0 <= j < |b| && b[j] != 10 && b[j] != 11 && (b[j] == 0 ==> SpongeNear(w, b, j))
  {
    hide SpongeNear, SpreadsTo, w.Size;
  }

  /** At rest, no lava has air or water beside or below it. */
  lemma LavaAtRest(w: World, b: seq<byte>)
    requires |b| == w.Size()
    ensures AtRest(w, LAVA_FLOW, b) <==>
            forall i, j :: 0 <= i < |b| && (b[i] == 10 || b[i] == 11) && SpreadsTo(w, i, j) ==>
              0 <= j < |b| && b[j] != 0 && b[j] != 8 && b[j] != 9
  {
    hide SpongeNear, SpreadsTo, w.Size;
  }

  /** An entry of a queue either comes due or is kept, and nothing else is kept. */
  lemma {:induction false} DueOrKept(queue: seq<BlockUpdate>, k: nat)
    requires k < |queue|
    ensures queue[k].ticks == 1 ==> queue[k].index in Due(queue)
    ensures queue[k].ticks != 1 ==> Queued(Rest(queue), queue[k].index)
  {
    var init, last := queue[..|queue| - 1], queue[|queue| - 1];
    if k < |init| {
      DueOrKept(init, k);
      if queue[k].ticks != 1 {
        var m :| 0 <= m < |Rest(init)| && Rest(init)[m].index == queue[k].index;
        assert Rest(queue)[m] == Rest(init)[m];
      }
    } else if last.ticks != 1 {
      assert Rest(queue)[|Rest(init)|].index == last.index;
    }
  }

  lemma {:induction false} KeptFrom(queue: seq<BlockUpdate>)
    ensures forall e :: e in Rest(queue) ==> Queued(queue, e.index)
    ensures forall i :: i in Due(queue) ==> Queued(queue, i)
  {
    if queue != [] {
      var init, last := queue[..|queue| - 1], queue[|queue| - 1];
      KeptFrom(init);
      forall i | Queued(init, i)
        ensures Queued(queue, i)
      {
        var k :| 0 <= k < |init| && init[k].index == i;
        assert queue[k].index == i;
      }
      assert queue[|init|].index == last.index;
    }
  }

  /** All due cells spread. */
  lemma AllFlow(w: World, fluid: Mode, sims: set<Simulator>, s: State, t: State, due: seq<int>, n: nat)
    requires IsFlow(fluid) && EntriesHold(fluid, s) && Calm(w, sims, s.blocks) && due == Due(QueueOf(fluid, s))
    requires StoppedAt(fluid, t.blocks, due, n) && AllSpread(w, sims, fluid, s.blocks, t.blocks, due, n)
    ensures n == |due| && Spread(w, fluid, s.blocks, t.blocks, AllTargets(w, due))
  {
    hide SpongeNear, w.EdgeCell, Spread, AllTargets, Calm;
    KeptFrom(QueueOf(fluid, s));
    forall k | 0 <= k < |due|
      ensures FlowsAt(w, fluid, s.blocks, due, k) && !Gap(w, s.blocks, due[k])
    {
      assert due[k] in due;
      var m :| 0 <= m < |QueueOf(fluid, s)| && QueueOf(fluid, s)[m].index == due[k];
      assert QueueOf(fluid, s)[m] in QueueOf(fluid, s);
    }
    TickCount(w, sims, fluid, s.blocks, t.blocks, due, n);
    assert due[..n] == due;
  }

  /** Where there is no water, a tick of the water simulator stops at once. */
  lemma NoneFlow(w: World, sims: set<Simulator>, b: seq<byte>, c: seq<byte>, due: seq<int>, n: nat)
    requires NoWater(w, b) && Calm(w, sims, b)
    requires StoppedAt(WATER_FLOW, c, due, n) && AllSpread(w, sims, WATER_FLOW, b, c, due, n)
    requires forall k :: 0 <= k < |due| ==> 0 <= due[k] < |b|
    ensures n == 0
  {
    hide Gap, Spread, Calm, SpongeNear;
    if due != [] {
      assert due[..0] == [] && AllTargets(w, []) == {};
      assert !FlowsAt(w, WATER_FLOW, b, due, 0) && !Gap(w, b, due[0]);
    }
  }

  lemma {:induction false} TargetsInside(w: World, cells: seq<int>, i: int, j: int)
    requires i in cells && j in Targets(w, i)
    ensures j in AllTargets(w, cells)
  {
    hide Targets;
    if i != cells[|cells| - 1] {
      TargetsInside(w, cells[..|cells| - 1], i, j);
    }
  }

  /** Fluid that was due has nowhere left to go. */
  lemma SpreadCloses(w: World, fluid: Mode, b: seq<byte>, c: seq<byte>, due: seq<int>, i: int)
    requires IsFlow(fluid) && i in due && SameSponges(b, c) && |b| == w.Size()
    requires Spread(w, fluid, b, c, AllTargets(w, due))
    ensures Closed(w, fluid, c, i)
  {
    hide SpongeNear, AllTargets, SpreadsTo, Gap, w.Size;
    forall j | SpreadsTo(w, i, j)
      ensures 0 <= j < |c| && Blocked(w, fluid, c, j)
    {
      TargetCellOf(w, i, j);
      TargetsInside(w, due, i, j);
      assert Met(w, fluid, b, c, j);
      SpongeNearSame(w, b, c, j);
    }
  }

  lemma TargetCellOf(w: World, i: int, j: int)
    requires SpreadsTo(w, i, j)
    ensures j in Targets(w, i)
  {
    hide w.Size, w.Position;
  }

  /** The physics that only moves this fluid: a cascade, or a tick of its simulator. */
  predicate Moves(fluid: Mode, mode: Mode) {
    IsFlow(fluid) && (mode == Cascade || mode == fluid)
  }

  /** Nothing opens where the fluid has been. */
  lemma StaysClosed(w: World, fluid: Mode, sims: set<Simulator>, mode: Mode, s: State, t: State, slack: int, i: int)
    requires Evolves(w, sims, mode, s, t, slack) && Closed(w, fluid, s.blocks, i)
    requires Moves(fluid, mode) && Calm(w, sims, s.blocks)
    ensures Closed(w, fluid, t.blocks, i)
  {
    hide CellChange, DefectsShrink, FloodsOn, QueuesGrow, WaterFed, LavaFed, PaidWrites, GrainsEvolve, SpongeNear,
         SpreadsTo, w.EdgeCell, Calm, Firm;
    SpongesStay(w, mode, s, t);
    forall j | SpreadsTo(w, i, j)
      ensures 0 <= j < |t.blocks| && Blocked(w, fluid, t.blocks, j)
    {
      assert CalmChange(w, mode, j, s.blocks[j], t.blocks[j]);
      SpongeNearSame(w, s.blocks, t.blocks, j);
    }
  }

  /** What a cell that holds the fluid afterwards held before. */
  lemma FluidBefore(w: World, fluid: Mode, sims: set<Simulator>, mode: Mode, s: State, t: State, slack: int, i: int)
    requires Evolves(w, sims, mode, s, t, slack) && s.drops == t.drops
    requires Moves(fluid, mode) && Calm(w, sims, s.blocks)
    requires 0 <= i < |s.blocks| == |t.blocks|
    ensures IsFluid(fluid, s.blocks[i]) ==> IsFluid(fluid, t.blocks[i])
    ensures IsFluid(fluid, t.blocks[i]) && !IsFluid(fluid, s.blocks[i]) ==> Queued(QueueOf(fluid, t), i)
  {
    hide DefectsShrink, FloodsOn, QueuesGrow, WaterFed, LavaFed, PaidWrites, GrainsEvolve, SpongeNear, w.EdgeCell,
         GrainSource, Calm, Firm;
    assert CalmChange(w, mode, i, s.blocks[i], t.blocks[i]);
    assert CellChange(w, mode, s, t, i);
    if IsFluid(fluid, t.blocks[i]) && !IsFluid(fluid, s.blocks[i]) {
      assert BlockUpdate(i, if fluid.SpreadsWater() then WATER_DELAY else LAVA_DELAY) in QueueOf(fluid, t);
    }
  }

  lemma OldEntries(w: World, fluid: Mode, sims: set<Simulator>, mode: Mode, s: State, t: State, slack: int)
    requires Evolves(w, sims, mode, s, t, slack) && s.drops == t.drops
    requires Moves(fluid, mode) && Calm(w, sims, s.blocks)
    ensures QueueOf(fluid, s) <= QueueOf(fluid, t)
    ensures forall e :: e in QueueOf(fluid, t) && e !in QueueOf(fluid, s) ==>
              0 <= e.index < |s.blocks| == |t.blocks| && IsFluid(fluid, t.blocks[e.index])
    ensures |s.blocks| == |t.blocks|
  {
    hide CellChange, CalmChange, DefectsShrink, FloodsOn, PaidWrites, GrainsEvolve, SpongeNear, w.EdgeCell, ValidQueues,
         Calm, Firm;
  }

  /** Where there is no lava, none appears. */
  lemma NoLavaStays(w: World, sims: set<Simulator>, mode: Mode, s: State, t: State, slack: int)
    requires Evolves(w, sims, mode, s, t, slack) && NoLava(s)
    requires Moves(WATER_FLOW, mode) && Calm(w, sims, s.blocks)
    ensures NoLava(t)
  {
    hide CellChange, DefectsShrink, FloodsOn, QueuesGrow, WaterFed, PaidWrites, GrainsEvolve, w.EdgeCell, Calm, Firm;
    forall i | 0 <= i < |t.blocks|
      ensures !IsLava(t.blocks[i])
    {
      assert CalmChange(w, mode, i, s.blocks[i], t.blocks[i]);
    }
    HasMember(t.lava);
  }

  /** Where there is no water, and none comes from the border, none appears. */
  lemma NoWaterStays(w: World, sims: set<Simulator>, mode: Mode, s: State, t: State, slack: int)
    requires Evolves(w, sims, mode, s, t, slack) && NoWater(w, s.blocks) && WaterSimulator in sims
    requires Moves(LAVA_FLOW, mode) && Calm(w, sims, s.blocks)
    ensures NoWater(w, t.blocks)
  {
    hide FloodsOn, QueuesGrow, WaterFed, LavaFed, PaidWrites, GrainsEvolve, w.EdgeCell, Calm, Firm, SpongeNear,
         GrainSource, Grounded, Unsettled;
    forall i | 0 <= i < |t.blocks|
      ensures !IsWater(t.blocks[i]) && !Gap(w, t.blocks, i)
    {
      assert CalmChange(w, mode, i, s.blocks[i], t.blocks[i]);
      assert CellChange(w, mode, s, t, i);
    }
  }

  lemma StaysIdle(w: World, fluid: Mode, sims: set<Simulator>, mode: Mode, s: State, t: State, slack: int)
    requires Evolves(w, sims, mode, s, t, slack) && OtherIdle(w, fluid, sims, s)
    requires Moves(fluid, mode) && Calm(w, sims, s.blocks)
    ensures OtherIdle(w, fluid, sims, t)
  {
    hide Evolves, NoLava, NoWater, Calm;
    if fluid.SpreadsWater() && LavaSimulator in sims {
      NoLavaStays(w, sims, mode, s, t, slack);
    }
    if !fluid.SpreadsWater() && WaterSimulator in sims {
      NoWaterStays(w, sims, mode, s, t, slack);
    }
  }

  lemma FlowsQuiet(w: World, fluid: Mode, sims: set<Simulator>, s: State)
    requires Flows(w, fluid, sims, s) && Quiet(sims, s)
    ensures AtRest(w, fluid, s.blocks)
  {
    hide Closed, Calm, OtherIdle;
    RunningQuiet(w, fluid, s);
  }

  /** Nothing is queued for the lava simulator while water flows. */
  lemma FlowsIdle(w: World, sims: set<Simulator>, s: State)
    requires LavaSimulator in sims
    ensures Flows(w, WATER_FLOW, sims, s) ==> s.lava == []
  {
    hide Calm, Running;
  }

  /** While lava flows, the water simulator only lets its queue get older. */
  lemma LavaFlowsOn(w: World, sims: set<Simulator>, s: State, t: State)
    requires Flows(w, LAVA_FLOW, sims, s) && t == s.(water := t.water)
    ensures Flows(w, LAVA_FLOW, sims, t)
  {
    hide Calm, NoWater, Closed;
  }

  /** Its tick stops at the first due cell. */
  lemma WaterStands(w: World, sims: set<Simulator>, s: State, t: State, n: nat)
    requires Flows(w, LAVA_FLOW, sims, s) && WaterSimulator in sims && |s.blocks| == |t.blocks|
    requires ValidQueues(s)
    requires StoppedAt(WATER_FLOW, t.blocks, Due(s.water), n)
    requires AllSpread(w, sims, WATER_FLOW, s.blocks, t.blocks, Due(s.water), n)
    requires n == 0 ==> t == s.(water := Rest(s.water))
    ensures Flows(w, LAVA_FLOW, sims, t)
  {
    hide Calm, NoWater, Running, StoppedAt, AllSpread;
    DueValid(s.water, |s.blocks|, WATER_DELAY);
    NoneFlow(w, sims, s.blocks, t.blocks, Due(s.water), n);
    LavaFlowsOn(w, sims, s, t);
  }

  /** More simulators may be registered. */
  lemma FlowsWith(w: World, fluid: Mode, some: set<Simulator>, all: set<Simulator>, s: State)
    requires some <= all && Flows(w, fluid, some, s) && Calm(w, all, s.blocks) && OtherIdle(w, fluid, all, s)
    ensures Flows(w, fluid, all, s)
  {
    hide Calm, Running, OtherIdle;
  }

  lemma HasMember(queue: seq<BlockUpdate>)
    ensures queue != [] ==> exists e :: e in queue
  {
    if queue != [] {
      assert queue[0] in queue;
    }
  }

  /** Queued fluid stays queued, and all else of it has no more places to go than before. */
  lemma StillRuns(w: World, fluid: Mode, sims: set<Simulator>, mode: Mode, s: State, t: State, slack: int, i: int)
    requires Evolves(w, sims, mode, s, t, slack) && s.drops == t.drops
    requires Moves(fluid, mode) && Calm(w, sims, s.blocks)
    requires Queued(QueueOf(fluid, s), i) || Closed(w, fluid, s.blocks, i)
    ensures Queued(QueueOf(fluid, t), i) || Closed(w, fluid, t.blocks, i)
  {
    hide Evolves, Closed, Calm;
    OldEntries(w, fluid, sims, mode, s, t, slack);
    if Queued(QueueOf(fluid, s), i) {
      var k :| 0 <= k < |QueueOf(fluid, s)| && QueueOf(fluid, s)[k].index == i;
      assert QueueOf(fluid, t)[k].index == i;
    } else {
      StaysClosed(w, fluid, sims, mode, s, t, slack, i);
    }
  }

  /** Every entry still is of a cell that holds the fluid. */
  lemma EntriesStay(w: World, fluid: Mode, sims: set<Simulator>, mode: Mode, s: State, t: State, slack: int)
    requires Evolves(w, sims, mode, s, t, slack) && s.drops == t.drops
    requires Moves(fluid, mode) && Calm(w, sims, s.blocks)
    requires EntriesHold(fluid, s)
    ensures EntriesHold(fluid, t)
  {
    hide Evolves, Calm;
    OldEntries(w, fluid, sims, mode, s, t, slack);
    forall e | e in QueueOf(fluid, t)
      ensures 0 <= e.index < |t.blocks| && IsFluid(fluid, t.blocks[e.index])
    {
      if e in QueueOf(fluid, s) {
        FluidBefore(w, fluid, sims, mode, s, t, slack, e.index);
      }
    }
  }

  /** A cascade keeps all of the fluid running, unless a full queue was thrown away. */
  lemma CascadeKeepsRunning(w: World, fluid: Mode, sims: set<Simulator>, s: State, t: State, slack: int)
    requires IsFlow(fluid)
    requires Flows(w, fluid, sims, s) && Evolves(w, sims, Cascade, s, t, slack) && s.drops == t.drops
    ensures Flows(w, fluid, sims, t)
  {
    hide Evolves, Closed, Calm, OtherIdle;
    EntriesStay(w, fluid, sims, Cascade, s, t, slack);
    StaysIdle(w, fluid, sims, Cascade, s, t, slack);
    StaysCalm(w, sims, Cascade, s, t, slack);
    OldEntries(w, fluid, sims, Cascade, s, t, slack);
    forall i | 0 <= i < |t.blocks| && IsFluid(fluid, t.blocks[i])
      ensures Queued(QueueOf(fluid, t), i) || Closed(w, fluid, t.blocks, i)
    {
      FluidBefore(w, fluid, sims, Cascade, s, t, slack, i);
      if IsFluid(fluid, s.blocks[i]) {
        StillRuns(w, fluid, sims, Cascade, s, t, slack, i);
      }
    }
  }

  /** So does a tick of its simulator. */
  lemma KeepsRunning(w: World, fluid: Mode, sims: set<Simulator>, s: State, t: State, n: nat)
    requires IsFlow(fluid) && Flows(w, fluid, sims, s) && |s.blocks| == w.Size()
    requires Evolves(w, sims, fluid, TakenOut(fluid, s), t, 0) && s.drops == t.drops
    requires StoppedAt(fluid, t.blocks, Due(QueueOf(fluid, s)), n)
    requires AllSpread(w, sims, fluid, s.blocks, t.blocks, Due(QueueOf(fluid, s)), n)
    ensures Flows(w, fluid, sims, t)
  {
    hide Evolves, Closed, Spread, AllSpread, AllTargets, StoppedAt, w.Size, Calm, OtherIdle;
    var s' := TakenOut(fluid, s);
    StillIdle(w, fluid, sims, s);
    OldEntries(w, fluid, sims, fluid, s', t, 0);
    AllFlow(w, fluid, sims, s, t, Due(QueueOf(fluid, s)), n);
    EntriesLeft(fluid, s);
    SpongesSame(w, sims, fluid, s', t);
    StaysCalm(w, sims, fluid, s', t, 0);
    StaysIdle(w, fluid, sims, fluid, s', t, 0);
    EntriesStay(w, fluid, sims, fluid, s', t, 0);
    forall i | 0 <= i < |t.blocks| && IsFluid(fluid, t.blocks[i])
      ensures Queued(QueueOf(fluid, t), i) || Closed(w, fluid, t.blocks, i)
    {
      FluidBefore(w, fluid, sims, fluid, s', t, 0, i);
      if IsFluid(fluid, s.blocks[i]) {
        StillSpreading(w, fluid, sims, s, t, i);
      }
    }
  }

  lemma StillIdle(w: World, fluid: Mode, sims: set<Simulator>, s: State)
    requires OtherIdle(w, fluid, sims, s)
    ensures OtherIdle(w, fluid, sims, TakenOut(fluid, s))
  {
    hide NoWater;
  }

  lemma EntriesLeft(fluid: Mode, s: State)
    requires EntriesHold(fluid, s)
    ensures EntriesHold(fluid, TakenOut(fluid, s))
  {
    KeptFrom(QueueOf(fluid, s));
    forall e | e in QueueOf(fluid, TakenOut(fluid, s))
      ensures 0 <= e.index < |s.blocks| && IsFluid(fluid, s.blocks[e.index])
    {
      var m :| 0 <= m < |QueueOf(fluid, s)| && QueueOf(fluid, s)[m].index == e.index;
      assert QueueOf(fluid, s)[m] in QueueOf(fluid, s);
    }
  }

  lemma StillSpreading(w: World, fluid: Mode, sims: set<Simulator>, s: State, t: State, i: int)
    requires IsFlow(fluid)
    requires Queued(QueueOf(fluid, s), i) || Closed(w, fluid, s.blocks, i)
    requires Evolves(w, sims, fluid, TakenOut(fluid, s), t, 0) && s.drops == t.drops
    requires Calm(w, sims, s.blocks)
    requires SameSponges(s.blocks, t.blocks) && |s.blocks| == w.Size()
    requires Spread(w, fluid, s.blocks, t.blocks, AllTargets(w, Due(QueueOf(fluid, s))))
    ensures Queued(QueueOf(fluid, t), i) || Closed(w, fluid, t.blocks, i)
  {
    hide Evolves, Closed, Spread, AllTargets, SameSponges, w.Size, Calm;
    var s', queue := TakenOut(fluid, s), QueueOf(fluid, s);
    if Queued(queue, i) {
      var k :| 0 <= k < |queue| && queue[k].index == i;
      DueOrKept(queue, k);
      if queue[k].ticks == 1 {
        SpreadCloses(w, fluid, s.blocks, t.blocks, Due(queue), i);
      } else {
        StillRuns(w, fluid, sims, fluid, s', t, 0, i);
      }
    } else {
      StillRuns(w, fluid, sims, fluid, s', t, 0, i);
    }
  }

  /** Registering the simulator of a fluid on a level where nothing can fall and the other fluid does not
      flow sets all of the fluid running. */
  lemma SweptRunning(w: World, fluid: Mode, sims: set<Simulator>, s: State, t: State)
    requires IsFlow(fluid) && SourceOf(fluid) in sims && Calm(w, sims, s.blocks) && OtherIdle(w, fluid, sims, s)
    requires EntriesHold(fluid, s)
    requires Evolves(w, sims, Cascade, s, t, 0) && s.drops == t.drops
    requires Swept(w, SourceOf(fluid), s, t, |t.blocks|)
    ensures Flows(w, fluid, sims, t)
  {
    hide Evolves, Closed, Gap, Calm, OtherIdle;
    EntriesStay(w, fluid, sims, Cascade, s, t, 0);
    StaysIdle(w, fluid, sims, Cascade, s, t, 0);
    StaysCalm(w, sims, Cascade, s, t, 0);
    forall i | 0 <= i < |t.blocks| && IsFluid(fluid, t.blocks[i])
      ensures Queued(QueueOf(fluid, t), i)
    {
      assert SweptCell(w, SourceOf(fluid), s, t, i);
      assert BlockUpdate(i, if fluid.SpreadsWater() then WATER_DELAY else LAVA_DELAY) in QueueOf(fluid, t);
    }
  }

  /** The same for whatever simulator is registered. */
  lemma RegisteredRuns(w: World, fluid: Mode, before: set<Simulator>, sims: set<Simulator>, simulator: Simulator,
                       s: State, t: State)
    requires IsFlow(fluid) && before <= sims && simulator in sims
    requires Evolves(w, sims, Cascade, s, t, 0) && Swept(w, simulator, s, t, |t.blocks|)
    ensures Calm(w, sims, s.blocks) && OtherIdle(w, fluid, sims, s) && s.drops == t.drops ==>
              ((simulator == SourceOf(fluid) && EntriesHold(fluid, s)) || Flows(w, fluid, before, s) ==>
                 Flows(w, fluid, sims, t))
  {
    hide Evolves, Swept, Calm, OtherIdle, Flows, EntriesHold;
    if Calm(w, sims, s.blocks) && OtherIdle(w, fluid, sims, s) && s.drops == t.drops {
      if simulator == SourceOf(fluid) && EntriesHold(fluid, s) {
        SweptRunning(w, fluid, sims, s, t);
      }
      if Flows(w, fluid, before, s) {
        FlowsWith(w, fluid, before, sims, s);
        CascadeKeepsRunning(w, fluid, sims, s, t, 0);
      }
    }
  }

  /** Where no sand simulator is registered, a cascade leaves a settled level settled. */
  lemma StaysSettled(w: World, sims: set<Simulator>, s: State, t: State)
    requires SandSimulator !in sims && Evolves(w, sims, Cascade, s, t, 0) && Settled(w.Plane(), s.blocks)
    ensures Settled(w.Plane(), t.blocks)
  {
    hide CellChange, DefectsShrink, FloodsOn, QueuesGrow, WaterFed, LavaFed, PaidWrites, GrainsEvolve, w.EdgeCell, Firm;
    var plane := w.Plane();
    hide w.Plane;
    forall i | 0 <= i < |t.blocks|
      ensures !Unsettled(plane, t.blocks, i)
    {
      assert !Unsettled(plane, s.blocks, i);
      assert CalmChange(w, Cascade, i, s.blocks[i], t.blocks[i]);
      assert 0 < plane <= i ==> CalmChange(w, Cascade, i - plane, s.blocks[i - plane], t.blocks[i - plane]);
    }
  }

  // ------------------------------------------------------------------
  // Enabling physics.

  /** Nothing can fall, the other fluid is nowhere, and nothing is queued for this one. */
  ghost predicate Ready(w: World, fluid: Mode, s: State) {
    && Settled(w.Plane(), s.blocks) && QueueOf(fluid, s) == []
    && (if fluid.SpreadsWater() then NoLava(s) else NoWater(w, s.blocks))
  }

  /** No cell of a level where nothing can fall has changed, but for gaps of the border. */
  ghost predicate OnlyGapsFlooded(w: World, b: seq<byte>, c: seq<byte>) {
    && |b| == |c|
    && forall i :: 0 <= i < |b| ==> c[i] == b[i] || (Gap(w, b, i) && c[i] == ACTIVE_WATER)
  }

  /** What registering the simulators in `done` one after the other has made of state s. */
  ghost predicate Enabled(w: World, done: set<Simulator>, s: State, t: State) {
    && |s.blocks| == |t.blocks| && s.drops <= t.drops
    && (forall i :: 0 <= i < |s.blocks| && IsHard(s.blocks[i]) ==> t.blocks[i] == s.blocks[i])
    && (forall i :: Wet(w, t.blocks, i) ==> Wet(w, s.blocks, i))
    && (WaterSimulator in done ==> forall i :: !Gap(w, t.blocks, i))
    && (LavaSimulator in done ==>
          forall i :: 0 <= i < |t.blocks| && IsLava(t.blocks[i]) ==>
            Scheduled(t.lava, i, LAVA_DELAY, s.drops, t.drops))
    && (SandSimulator in done || Settled(w.Plane(), s.blocks) ==> Settled(w.Plane(), t.blocks))
    && (Settled(w.Plane(), s.blocks) && NoLava(s) ==> NoLava(t))
    && (Settled(w.Plane(), s.blocks) ==> OnlyGapsFlooded(w, s.blocks, t.blocks))
    && (Ready(w, WATER_FLOW, s) && s.drops == t.drops ==> EntriesHold(WATER_FLOW, t))
    && (Ready(w, LAVA_FLOW, s) && s.drops == t.drops ==> EntriesHold(LAVA_FLOW, t))
  }

  lemma NoneEnabled(w: World, s: State)
    ensures Enabled(w, {}, s, s)
  {
    hide Wet, Gap, Settled, w.Plane;
  }

  /** A cascade on a level where nothing can fall only floods gaps. */
  lemma CalmFloodsGaps(w: World, sims: set<Simulator>, s: State, t: State, slack: int)
    requires Evolves(w, sims, Cascade, s, t, slack) && Calm(w, sims, s.blocks)
    ensures OnlyGapsFlooded(w, s.blocks, t.blocks)
  {
    hide DefectsShrink, FloodsOn, QueuesGrow, WaterFed, LavaFed, PaidWrites, GrainsEvolve, w.EdgeCell, SpongeNear, Calm,
         Firm, GrainSource;
    forall i | 0 <= i < |s.blocks|
      ensures t.blocks[i] == s.blocks[i] || (Gap(w, s.blocks, i) && t.blocks[i] == ACTIVE_WATER)
    {
      assert CalmChange(w, Cascade, i, s.blocks[i], t.blocks[i]) && CellChange(w, Cascade, s, t, i);
    }
  }

  lemma GapsFloodedTrans(w: World, b: seq<byte>, c: seq<byte>, d: seq<byte>)
    requires OnlyGapsFlooded(w, b, c) && OnlyGapsFlooded(w, c, d)
    ensures OnlyGapsFlooded(w, b, d)
  {
    hide w.EdgeCell, SpongeNear;
    assert SameSponges(b, c);
    forall i | 0 <= i < |b|
      ensures d[i] == b[i] || (Gap(w, b, i) && d[i] == ACTIVE_WATER)
    {
      SpongeNearSame(w, b, c, i);
    }
  }

  lemma EnabledEntries(w: World, fluid: Mode, done: set<Simulator>, sims: set<Simulator>, s: State, m: State, t: State)
    requires IsFlow(fluid) && Enabled(w, done, s, m) && Evolves(w, sims, Cascade, m, t, 0)
    ensures Ready(w, fluid, s) && s.drops == t.drops ==> EntriesHold(fluid, t)
  {
    hide Evolves, Wet, Gap, Settled, NoLava, NoWater, Scheduled, Calm, OnlyGapsFlooded, EntriesHold, w.Plane;
    EvolvesDrops(w, sims, Cascade, m, t);
    if Ready(w, fluid, s) && s.drops == t.drops {
      SettledCalm(w, sims, m.blocks);
      EntriesStay(w, fluid, sims, Cascade, m, t, 0);
    }
  }

  lemma EnabledStep(w: World, done: set<Simulator>, sims: set<Simulator>, simulator: Simulator, s: State, m: State,
                    t: State)
    requires Enabled(w, done, s, m) && sims == done + {simulator}
    requires SandSimulator !in done
    requires Evolves(w, sims, Cascade, m, t, 0) && Swept(w, simulator, m, t, |t.blocks|)
    ensures Enabled(w, sims, s, t)
  {
    hide Evolves, Swept, Wet, Gap, Settled, NoLava, Scheduled, Calm, OnlyGapsFlooded, Ready, EntriesHold, w.Plane;
    SweptLevel(w, simulator, m, t);
    CascadeDry(w, sims, m, t);
    EvolvesDrops(w, sims, Cascade, m, t);
    if WaterSimulator in done {
      NoNewGaps(w, sims, m, t);
    }
    if LavaSimulator in done {
      LavaStaysScheduled(w, sims, s, s, m, t);
    } else if simulator.LavaSimulator? {
      ScheduledSince(s, m, t);
    }
    EnabledEntries(w, WATER_FLOW, done, sims, s, m, t);
    EnabledEntries(w, LAVA_FLOW, done, sims, s, m, t);
    if Settled(w.Plane(), m.blocks) {
      SettledCalm(w, sims, m.blocks);
      CalmFloodsGaps(w, sims, m, t, 0);
      if Settled(w.Plane(), s.blocks) {
        GapsFloodedTrans(w, s.blocks, m.blocks, t.blocks);
      }
      if NoLava(m) {
        NoLavaStays(w, sims, Cascade, m, t, 0);
      }
      if SandSimulator !in sims {
        StaysSettled(w, sims, m, t);
      }
    }
  }

  lemma SettledCalm(w: World, sims: set<Simulator>, b: seq<byte>)
    requires Settled(w.Plane(), b)
    ensures Calm(w, sims, b)
  {
  }

  lemma ScheduledSince(s: State, m: State, t: State)
    requires s.drops <= m.drops
    ensures forall i :: Scheduled(t.lava, i, LAVA_DELAY, m.drops, t.drops) ==>
              Scheduled(t.lava, i, LAVA_DELAY, s.drops, t.drops)
  {
  }

  /** Registering one more simulator finds nothing that can fall and the other fluid nowhere, if that was
      so before. */
  lemma EnabledReady(w: World, fluid: Mode, done: set<Simulator>, sims: set<Simulator>, s: State, m: State)
    requires Enabled(w, done, s, m)
    requires IsFlow(fluid)
    ensures Ready(w, fluid, s) ==> Calm(w, sims, m.blocks) && OtherIdle(w, fluid, sims, m)
    ensures Ready(w, fluid, s) && s.drops == m.drops ==> EntriesHold(fluid, m)
    ensures s.drops <= m.drops
  {
    hide Wet, Gap, Settled, NoLava, Scheduled, w.Plane;
    if Ready(w, fluid, s) && !fluid.SpreadsWater() {
      assert m.blocks == s.blocks;
    }
  }

  lemma AllEnabled(w: World, s: State, t: State)
    requires Enabled(w, {WaterSimulator, LavaSimulator, SandSimulator}, s, t)
    ensures Settled(w.Plane(), t.blocks) && forall i :: !Gap(w, t.blocks, i)
    ensures forall i :: 0 <= i < |t.blocks| && IsLava(t.blocks[i]) ==>
              Scheduled(t.lava, i, LAVA_DELAY, s.drops, t.drops)
    ensures forall i :: 0 <= i < |s.blocks| == |t.blocks| && IsHard(s.blocks[i]) ==> t.blocks[i] == s.blocks[i]
    ensures Settled(w.Plane(), s.blocks) ==> OnlyGapsFlooded(w, s.blocks, t.blocks)
    ensures forall i :: Wet(w, t.blocks, i) ==> Wet(w, s.blocks, i)
    ensures Grounded(w.Plane(), t.blocks) && (forall i :: !Wet(w, s.blocks, i)) ==> Sound(w, t.blocks)
  {
    hide Wet, Gap, Settled, NoLava, Scheduled, OnlyGapsFlooded, w.Plane;
    if Grounded(w.Plane(), t.blocks) {
      SoundFrom(w, t.blocks);
    }
  }

  // ------------------------------------------------------------------
  // Edits.

  /** An edit that brings no lava and no still water, takes no water away, and, if it touches a
      sponge, only removes one so that the water simulator notices. */
  ghost predicate FluidEdit(w: World, s: State, p: int, v: byte)
    requires 0 <= p < |s.blocks|
  {
    && !IsLava(v) && v != SPONGE
    && (IsWater(s.blocks[p]) ==> IsWater(v))
    && (v == WATER ==> IsWater(s.blocks[p]))
    && (s.blocks[p] == SPONGE ==> !SpongeIgnored(w, v, p))
  }

  /** Water that the edit does not touch is still closed in, unless a removed sponge had helped. */
  lemma WrittenClosed(w: World, fluid: Mode, s: State, p: int, v: byte, i: int)
    requires 0 <= p < |s.blocks| && s.blocks[p] != SPONGE && v != SPONGE
    requires Closed(w, fluid, s.blocks, i) && !SpreadsTo(w, i, p)
    ensures Closed(w, fluid, s.Written(p, v).blocks, i)
  {
    hide SpongeNear, SpreadsTo;
    var b := s.Written(p, v).blocks;
    assert SameSponges(s.blocks, b);
    forall j | SpreadsTo(w, i, j)
      ensures 0 <= j < |b| && Blocked(w, fluid, b, j)
    {
      SpongeNearSame(w, s.blocks, b, j);
    }
  }

  lemma SpreadTouches(w: World, i: int, p: int)
    requires SpreadsTo(w, i, p)
    ensures w.Touches(p, i)
  {
    hide w.Size, w.Position;
  }

  /** Around a removed sponge all water has been queued again. */
  lemma NearRequeued(w: World, sims: set<Simulator>, s: State, p: int, v: byte, t: State, i: int)
    requires EditOutcome(w, sims, s, p, v, t) && WaterSimulator in sims && s.drops == t.drops
    requires s.blocks[p] == SPONGE && FluidEdit(w, s, p, v)
    requires 0 <= i < |t.blocks| && IsWater(t.blocks[i])
    requires Closed(w, WATER_FLOW, s.blocks, i) && !Closed(w, WATER_FLOW, s.Written(p, v).blocks, i) && !w.Touches(p, i)
    ensures Queued(t.water, i)
  {
    hide EditOutcome, SandHandled, LavaHandled, Gap, Dried, w.EdgeCell;
    EditHandles(w, sims, s, p, v, t);
    var b := s.Written(p, v).blocks;
    var j :| SpreadsTo(w, i, j) && !(0 <= j < |b| && Blocked(w, WATER_FLOW, b, j));
    if j == p {
      SpreadTouches(w, i, p);
      assert false;
    }
    var k :| k in Cube(w, j, SPONGE_REACH) && 0 <= k < |s.blocks| && s.blocks[k] == SPONGE;
    OneStepFurther(w, p, i, j);
    assert BlockUpdate(i, WATER_DELAY) in t.water;
  }

  lemma OneStepFurther(w: World, p: int, i: int, j: int)
    requires SpreadsTo(w, i, j) && p in Cube(w, j, SPONGE_REACH)
    ensures i in Cube(w, p, BREAK_REACH)
  {
    hide w.Size, w.Position;
  }

  /** An edit that takes no lava away, brings no still lava, touches no sponge, and leaves no water where
      water is simulated. */
  ghost predicate LavaEdit(w: World, sims: set<Simulator>, s: State, p: int, v: byte)
    requires 0 <= p < |s.blocks|
  {
    && v != SPONGE && s.blocks[p] != SPONGE
    && (IsLava(s.blocks[p]) ==> IsLava(v))
    && (v == LAVA ==> IsLava(s.blocks[p]))
    && WaterIdle(w, sims, s.Written(p, v))
  }

  ghost predicate FlowEdit(w: World, fluid: Mode, sims: set<Simulator>, s: State, p: int, v: byte)
    requires 0 <= p < |s.blocks|
  {
    if fluid.SpreadsWater() then FluidEdit(w, s, p, v) else LavaEdit(w, sims, s, p, v)
  }

  /** Such an edit, with all it sets off, keeps the fluid running where nothing can fall. */
  lemma EditKeepsRunning(w: World, fluid: Mode, sims: set<Simulator>, s: State, p: int, v: byte, t: State)
    requires IsFlow(fluid) && Flows(w, fluid, sims, s) && EditOutcome(w, sims, s, p, v, t) && s.drops == t.drops
    requires FlowEdit(w, fluid, sims, s, p, v) && Calm(w, sims, s.Written(p, v).blocks)
    ensures Flows(w, fluid, sims, t)
  {
    hide EditOutcome, Evolves, Closed, Calm, OtherIdle, FlowEdit, w.Touches, SpreadsTo;
    EditFloods(w, sims, s, p, v, t);
    var m := s.Written(p, v);
    var slack := CalmEdit(w, fluid, sims, s, p, v, t);
    IdleWrite(w, fluid, sims, s, p, v);
    StaysIdle(w, fluid, sims, Cascade, m, t, slack);
    StaysCalm(w, sims, Cascade, m, t, slack);
    OldEntries(w, fluid, sims, Cascade, m, t, slack);
    EntriesWrite(w, fluid, sims, s, p, v);
    EntriesStay(w, fluid, sims, Cascade, m, t, slack);
    forall i | 0 <= i < |t.blocks| && IsFluid(fluid, t.blocks[i])
      ensures Queued(QueueOf(fluid, t), i) || Closed(w, fluid, t.blocks, i)
    {
      FluidBefore(w, fluid, sims, Cascade, m, t, slack, i);
      if IsFluid(fluid, m.blocks[i]) {
        RunsThroughEdit(w, fluid, sims, s, p, v, t, slack, i);
      }
    }
  }

  lemma CalmEdit(w: World, fluid: Mode, sims: set<Simulator>, s: State, p: int, v: byte, t: State) returns (slack: int)
    requires EditOutcome(w, sims, s, p, v, t) && 0 <= p < |s.blocks|
    requires FlowEdit(w, fluid, sims, s, p, v) && Calm(w, sims, s.Written(p, v).blocks)
    ensures Evolves(w, sims, Cascade, s.Written(p, v), t, slack)
  {
    hide Evolves, Handled, NeighboursAwake, EditContained, Unsettled, Gap, w.Plane, Weight, Grains, w.EdgeCell;
    slack := SlackOf(w.Plane(), sims, p, s.blocks[p], v);
    CalmSteady(w, sims, s.Written(p, v).blocks);
  }

  lemma CalmSteady(w: World, sims: set<Simulator>, b: seq<byte>)
    requires Calm(w, sims, b)
    ensures Steady(w, sims, b)
  {
    hide Gap, w.Touches, w.Plane;
    if SandSimulator in sims {
      forall i
        ensures !Unsettled(w.Plane(), b, i)
      {
        assert 0 <= i < |b| ==> !Unsettled(w.Plane(), b, i);
      }
    }
  }

  lemma IdleWrite(w: World, fluid: Mode, sims: set<Simulator>, s: State, p: int, v: byte)
    requires 0 <= p < |s.blocks| && OtherIdle(w, fluid, sims, s) && FlowEdit(w, fluid, sims, s, p, v)
    ensures OtherIdle(w, fluid, sims, s.Written(p, v))
  {
    hide w.EdgeCell, NoWater;
  }

  lemma EntriesWrite(w: World, fluid: Mode, sims: set<Simulator>, s: State, p: int, v: byte)
    requires 0 <= p < |s.blocks| && Running(w, fluid, s) && FlowEdit(w, fluid, sims, s, p, v)
    ensures EntriesHold(fluid, s.Written(p, v))
  {
    hide Closed, w.EdgeCell, NoWater;
  }

  /** Fluid that was there, or has been put there, is queued or has nowhere to go. */
  lemma RunsThroughEdit(w: World, fluid: Mode, sims: set<Simulator>, s: State, p: int, v: byte, t: State, slack: int,
                        i: int)
    requires IsFlow(fluid) && Flows(w, fluid, sims, s) && EditOutcome(w, sims, s, p, v, t) && s.drops == t.drops
    requires 0 <= p < |s.blocks| && FlowEdit(w, fluid, sims, s, p, v) && Calm(w, sims, s.Written(p, v).blocks)
    requires Evolves(w, sims, Cascade, s.Written(p, v), t, slack)
    requires 0 <= i < |s.blocks| == |t.blocks|
    requires IsFluid(fluid, s.Written(p, v).blocks[i]) && IsFluid(fluid, t.blocks[i])
    ensures Queued(QueueOf(fluid, t), i) || Closed(w, fluid, t.blocks, i)
  {
    hide EditOutcome, Evolves, Closed, Calm, OtherIdle, WaterIdle, w.Touches, SpreadsTo, SandHandled, Gap, Refilled,
         Dried, SpongeIgnored;
    var m := s.Written(p, v);
    EditHandles(w, sims, s, p, v, t);
    EditFloods(w, sims, s, p, v, t);
    var delay := if fluid.SpreadsWater() then WATER_DELAY else LAVA_DELAY;
    if i == p && !((v == WATER && s.blocks[p] == ACTIVE_WATER) || (v == LAVA && s.blocks[p] == ACTIVE_LAVA)) {
      assert BlockUpdate(i, delay) in QueueOf(fluid, t);
    } else if w.Touches(p, i) {
      assert Awake(w, sims, s, t, i);
      assert SweptCell(w, SourceOf(fluid), s, t, i);
      assert BlockUpdate(i, delay) in QueueOf(fluid, t);
    } else {
      if Closed(w, fluid, s.blocks, i) && !Closed(w, fluid, m.blocks, i) {
        if SpreadsTo(w, i, p) {
          SpreadTouches(w, i, p);
        } else if s.blocks[p] != SPONGE {
          WrittenClosed(w, fluid, s, p, v, i);
        } else {
          NearRequeued(w, sims, s, p, v, t, i);
        }
      }
      if Queued(QueueOf(fluid, s), i) || Closed(w, fluid, m.blocks, i) {
        StillRuns(w, fluid, sims, Cascade, m, t, slack, i);
      }
    }
  }
}
