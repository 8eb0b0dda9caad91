/** Notifying the registered simulators of one cell, in turn. */
module Notifying {
  import opened Blocks
  import opened Geometry
  import opened Columns
  import opened Shafts
  import opened Cubes
  import opened Evolution
  import opened Reach
  import opened Writes

  /** The written cell holds no grain that can fall. */
  ghost predicate AtEase(w: World, sims: set<Simulator>, b: seq<byte>, p: int) {
    SandSimulator in sims ==> !Unsettled(w.Plane(), b, p)
  }

  /** What has come about since state s, in which cell p had just been written, once the simulators
      in `done` have been notified. */
  ghost predicate RanSoFar(w: World, sims: set<Simulator>, done: set<Simulator>, mode: Mode, oldBlock: byte, v: byte,
                           p: int, s: State, t: State) {
    && 0 <= p < |s.blocks| == |t.blocks|
    && Evolves(w, sims, mode, s, t, SlackOf(w.Plane(), done, p, oldBlock, v))
    && Handled(w, done, oldBlock, v, p, s, t)
    && ((forall i :: i in done ==> !Active(i, oldBlock, v)) ==> t.blocks == s.blocks)
    && Grains(t.blocks) <= Grains(s.blocks) + (if SandSimulator in done then 1 else 0)
    && (AtEase(w, sims, s.blocks, p) ==>
          && Confined(w, sims, s.blocks, t.blocks, Seeds(w, s.blocks, p, oldBlock, v))
          && (WaterSimulator !in done ==> t.blocks == s.blocks))
    && (IsGrain(v) && SandSimulator in sims && SandSimulator !in done ==>
          Orderly(w.Plane(), s.blocks, t.blocks) && (t.blocks[p] == v || mode == Replace(p, v)))
  }

  /** What the update by one simulator does. */
  ghost predicate StepRan(w: World, sims: set<Simulator>, simulator: Simulator, oldBlock: byte, v: byte, p: int,
                          m: State, t: State) {
    && 0 <= p < |m.blocks| == |t.blocks|
    && Evolves(w, sims, StepMode(simulator, m.blocks, p, oldBlock, v), m, t,
               SimulatorSlack(w.Plane(), simulator, p, oldBlock, v))
    && Handled(w, {simulator}, oldBlock, v, p, m, t)
    && Grains(t.blocks) <= Grains(m.blocks) + (if simulator.SandSimulator? then 1 else 0)
    && (simulator.WaterSimulator? ==> Confined(w, sims, m.blocks, t.blocks, Seeds(w, m.blocks, p, oldBlock, v)))
    && (simulator.LavaSimulator? ==> t.blocks == m.blocks)
    && (simulator.SandSimulator? && m.blocks[p] == v && !Unsettled(w.Plane(), m.blocks, p) ==> t == m)
    && (!Active(simulator, oldBlock, v) ==> t.blocks == m.blocks)
  }

  lemma NothingRan(w: World, sims: set<Simulator>, mode: Mode, oldBlock: byte, v: byte, p: int, s: State)
    requires 0 <= p < |s.blocks| && s.blocks[p] == v
    ensures RanSoFar(w, sims, {}, mode, oldBlock, v, p, s, s)
  {
    hide Evolves, Handled, Confined, Seeds, Unsettled, Grains, Orderly, w.Plane;
    EvolvesRefl(w, sims, mode, s);
    NothingHandled(w, oldBlock, v, p, s);
    ConfinedRefl(w, sims, s.blocks, Seeds(w, s.blocks, p, oldBlock, v));
    OrderlyRefl(w.Plane(), s.blocks);
  }

  /** A grain that replaces a sponge is still there after the refill, unless that disturbs it. */
  lemma GrainStays(w: World, sims: set<Simulator>, b: seq<byte>, c: seq<byte>, p: int, oldBlock: byte, v: byte)
    requires 0 <= p < |b| == |c| && b[p] == v && IsGrain(v) && oldBlock == SPONGE && WaterSimulator in sims
    requires Confined(w, sims, b, c, Seeds(w, b, p, oldBlock, v))
    ensures c[p] == v || EditMode(w, sims, b, p, oldBlock, v) == Replace(p, v)
  {
    hide Confined, Steady, Cube, Gap;
    if Steady(w, sims, b) {
      GapsInside(w, b, Cube(w, p, BREAK_REACH));
      SteadyKeeps(w, sims, b, c, Seeds(w, b, p, oldBlock, v), p);
    }
  }

  lemma GapsInside(w: World, b: seq<byte>, cells: set<int>)
    ensures GapsIn(w, b, cells) <= AllGaps(w, b)
  {
    hide SpongeNear, w.EdgeCell;
  }

  /** The reach of the updates so far. */
  lemma StepReaches(w: World, sims: set<Simulator>, done: set<Simulator>, simulator: Simulator, mode: Mode,
                    oldBlock: byte, v: byte, p: int, s: State, m: State, t: State)
    requires RanSoFar(w, sims, done, mode, oldBlock, v, p, s, m) && StepRan(w, sims, simulator, oldBlock, v, p, m, t)
    requires simulator in sims && simulator !in done && AtEase(w, sims, s.blocks, p) && s.blocks[p] == v
    ensures Confined(w, sims, s.blocks, t.blocks, Seeds(w, s.blocks, p, oldBlock, v))
    ensures WaterSimulator !in done + {simulator} ==> t.blocks == s.blocks
  {
    hide Evolves, Handled, Confined, Seeds, Unsettled, Grains, Orderly, w.Plane;
    if simulator.SandSimulator? {
      Unchanged(w, sims, mode, s, m, SlackOf(w.Plane(), done, p, oldBlock, v));
      if IsGrain(v) {
        SandConfined(w, sims, s, m, t, p, Seeds(w, s.blocks, p, oldBlock, v));
      }
    }
  }

  /** Before the sand simulator is notified, the grains have been treated in order, and the grain is
      still there unless the refill around a sponge may have disturbed it. */
  lemma StepTreatsGrains(w: World, sims: set<Simulator>, done: set<Simulator>, simulator: Simulator, mode: Mode,
                         oldBlock: byte, v: byte, p: int, s: State, m: State, t: State)
    requires RanSoFar(w, sims, done, mode, oldBlock, v, p, s, m) && StepRan(w, sims, simulator, oldBlock, v, p, m, t)
    requires simulator in sims && simulator !in done && s.blocks[p] == v
    requires mode == EditMode(w, sims, s.blocks, p, oldBlock, v)
    requires IsGrain(v) && SandSimulator in sims && SandSimulator !in done && !simulator.SandSimulator?
    ensures Orderly(w.Plane(), s.blocks, t.blocks) && (t.blocks[p] == v || mode == Replace(p, v))
  {
    hide Evolves, Handled, Confined, Seeds, Unsettled, Grains, Orderly, w.Plane, EditMode;
    StepOrderly(w, sims, s, m, t, SimulatorSlack(w.Plane(), simulator, p, oldBlock, v));
    if simulator.WaterSimulator? && Active(simulator, oldBlock, v) {
      GrainStays(w, sims, s.blocks, t.blocks, p, oldBlock, v);
    }
  }

  lemma NextRan(w: World, sims: set<Simulator>, done: set<Simulator>, simulator: Simulator, mode: Mode,
                oldBlock: byte, v: byte, p: int, s: State, m: State, t: State)
    requires RanSoFar(w, sims, done, mode, oldBlock, v, p, s, m) && StepRan(w, sims, simulator, oldBlock, v, p, m, t)
    requires simulator in sims && simulator !in done && done <= sims && s.blocks[p] == v
    requires v == SPONGE ==> m.blocks[p] == SPONGE
    requires IsLava(v) && m.blocks[p] != v ==> mode == Replace(p, v)
    requires mode == EditMode(w, sims, s.blocks, p, oldBlock, v)
    ensures RanSoFar(w, sims, done + {simulator}, mode, oldBlock, v, p, s, t)
  {
    hide Evolves, Handled, Confined, Seeds, Unsettled, Grains, Orderly, w.Plane, Steady, Weight;
    StepEvolves(w, sims, simulator, mode, oldBlock, v, p, s.blocks, m, t,
      SimulatorSlack(w.Plane(), simulator, p, oldBlock, v));
    OneMoreHandled(w, sims, done, simulator, mode, oldBlock, v, p, s, m, t);
    if AtEase(w, sims, s.blocks, p) {
      StepReaches(w, sims, done, simulator, mode, oldBlock, v, p, s, m, t);
    }
    if IsGrain(v) && SandSimulator in sims && SandSimulator !in done && !simulator.SandSimulator? {
      StepTreatsGrains(w, sims, done, simulator, mode, oldBlock, v, p, s, m, t);
    }
  }
}
