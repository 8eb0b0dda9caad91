/** How a single cell write, followed by the cascade it starts, fits into a longer evolution. */
module Writes {
  import opened Blocks
  import opened Geometry
  import opened Columns
  import opened Cubes
  import opened Evolution
  import opened Shafts
  import opened Reach

  /** What an edit of cell p sets off; `b` are the blocks right after the write. A grain that replaces
      a sponge falls like any other, unless the refill around the sponge can disturb it first. */
  ghost function EditMode(w: World, sims: set<Simulator>, b: seq<byte>, p: int, oldBlock: byte, v: byte): Mode {
    if oldBlock == v then Cascade
    else if v == SPONGE then Soak(p)
    else if oldBlock == SPONGE && WaterSimulator in sims && (IsLava(v) || (IsGrain(v) && !Steady(w, sims, b)))
      then Replace(p, v)
    else Cascade
  }

  ghost function ModeOf(w: World, sims: set<Simulator>, s: State, p: int, v: byte): Mode
    requires 0 <= p < |s.blocks|
  {
    EditMode(w, sims, s.Written(p, v).blocks, p, s.blocks[p], v)
  }

  /** What the update by one simulator sets off; it may come late, when the block has changed. */
  function StepMode(simulator: Simulator, b: seq<byte>, p: int, oldBlock: byte, v: byte): Mode
    requires 0 <= p < |b|
  {
    match simulator
    case WaterSimulator => if v == SPONGE && oldBlock != v then Soak(p) else Cascade
    case LavaSimulator => if IsLava(v) && b[p] != v then Replace(p, v) else Cascade
    case SandSimulator => if IsGrain(v) && b[p] != v then Replace(p, v) else Cascade
  }

  /** Whether an update of this kind of cell can write to the level at all. */
  predicate Active(simulator: Simulator, oldBlock: byte, v: byte) {
    || (simulator.WaterSimulator? && (v == AIR || SpongeEdit(oldBlock, v)))
    || (simulator.SandSimulator? && IsGrain(v))
  }

  /** Writes beyond the potential that one simulator's update may cost: the 5 by 5 by 5 cube
      of a placed sponge is emptied, and a grain put in place of a sponge may fall twice. */
  ghost function SimulatorSlack(plane: nat, simulator: Simulator, p: nat, oldBlock: byte, v: byte): nat {
    if simulator.WaterSimulator? && v == SPONGE && oldBlock != v then 250
    else if simulator.SandSimulator? && oldBlock == SPONGE && IsGrain(v) then Weight(plane, p, v)
    else 0
  }

  ghost function SlackOf(plane: nat, sims: set<Simulator>, p: nat, oldBlock: byte, v: byte): nat {
    (if WaterSimulator in sims then SimulatorSlack(plane, WaterSimulator, p, oldBlock, v) else 0)
    + (if SandSimulator in sims then SimulatorSlack(plane, SandSimulator, p, oldBlock, v) else 0)
  }

  /** Everything after the write is physics, the update of the written cell took effect,
      and that cell is left with no defect. */
  ghost predicate EditHandled(w: World, sims: set<Simulator>, s: State, p: int, v: byte, t: State) {
    && 0 <= p < |s.blocks| == |t.blocks|
    && Evolves(w, sims, ModeOf(w, sims, s, p, v), s.Written(p, v), t,
               SlackOf(w.Plane(), sims, p, s.blocks[p], v))
    && Grains(t.blocks) <= Grains(s.Written(p, v).blocks) + 1
    && Handled(w, sims, s.blocks[p], v, p, s.Written(p, v), t)
    && (SandSimulator in sims ==> !Unsettled(w.Plane(), t.blocks, p))
    && (WaterSimulator in sims ==> !Gap(w, t.blocks, p))
  }

  /** Cell i is as an update by the simulator since state s leaves it: no falling grain, no gap in
      the border, and fluid queued to spread. */
  ghost predicate SweptCell(w: World, simulator: Simulator, s: State, t: State, i: int)
    requires 0 <= i < |t.blocks|
  {
    match simulator
    case SandSimulator => !Unsettled(w.Plane(), t.blocks, i)
    case WaterSimulator =>
      && !Gap(w, t.blocks, i)
      && (IsWater(t.blocks[i]) ==> Scheduled(t.water, i, WATER_DELAY, s.drops, t.drops))
    case LavaSimulator =>
      IsLava(t.blocks[i]) ==> Scheduled(t.lava, i, LAVA_DELAY, s.drops, t.drops)
  }

  /** Every registered simulator has updated cell i since state s. */
  ghost predicate Awake(w: World, sims: set<Simulator>, s: State, t: State, i: int) {
    0 <= i < |t.blocks| && forall simulator :: simulator in sims ==> SweptCell(w, simulator, s, t, i)
  }

  /** The same, by coordinates, for a cell that may be outside the level. */
  ghost predicate AwakeAt(w: World, sims: set<Simulator>, s: State, t: State, x: int, y: int, z: int) {
    w.Inside(x, y, z) ==> Awake(w, sims, s, t, w.Index(x, y, z))
  }

  ghost predicate NeighboursAwake(w: World, sims: set<Simulator>, s: State, t: State, p: int) {
    forall j :: w.Touches(p, j) ==> Awake(w, sims, s, t, j)
  }

  /** What SetBlock promises: besides, no grain is left hanging over the written cell, the six
      neighbours have been updated, and changes stay within reach. */
  ghost predicate EditOutcome(w: World, sims: set<Simulator>, s: State, p: int, v: byte, t: State) {
    && EditHandled(w, sims, s, p, v, t)
    && NeighboursAwake(w, sims, s, t, p)
    && (SandSimulator in sims ==> !Unsettled(w.Plane(), t.blocks, p + w.Plane()))
    && EditContained(w, sims, s, p, v, t)
  }

  ghost predicate EditContained(w: World, sims: set<Simulator>, s: State, p: int, v: byte, t: State) {
    && 0 <= p < |s.blocks|
    && Confined(w, sims, s.Written(p, v).blocks, t.blocks,
                {p} + Seeds(w, s.Written(p, v).blocks, p, s.blocks[p], v))
  }

  /** The writes that physics itself performs. */
  ghost predicate PhysicsWrite(w: World, mode: Mode, s: State, p: int, v: byte, t: State) {
    || (IsGrain(v) && GrainSource(w, mode, s.blocks, p, v))
    || (v == AIR && EmptySource(w, mode, s.blocks, p))
    || (v == ACTIVE_WATER && (mode.SpreadsWater() || w.EdgeCell(p)) && !SpongeNear(w, s.blocks, p)
        && Scheduled(t.water, p, WATER_DELAY, s.drops, t.drops))
    || (mode.SpreadsLava() && v == ACTIVE_LAVA && Scheduled(t.lava, p, LAVA_DELAY, s.drops, t.drops))
    || (mode.Flow? && v == STONE)
  }

  lemma WrittenSource(w: World, mode: Mode, s: State, m: State, p: int, v: byte, i: int, g: byte)
    requires CellsEvolve(w, mode, s, m) && 0 <= p < |s.blocks| && IsGrain(g)
    requires IsGrain(v) ==> GrainSource(w, mode, s.blocks, p, v)
    requires FallsFrom(w.Plane(), m.Written(p, v).blocks, i, g)
    ensures GrainSource(w, mode, s.blocks, i, g)
  {
    hide Over, Firm, w.EdgeCell, SpongeNear, CellChange;
    var plane := w.Plane();
    hide w.Plane;
    var j :| 0 <= j < |m.blocks| && Over(plane, j, i) && m.Written(p, v).blocks[j] == g;
    if j == p {
      SourceAbove(w, mode, s.blocks, p, i, v);
    } else {
      assert FallsFrom(plane, m.blocks, i, g);
      GrainSourceTrans(w, mode, s, m, i, g);
    }
  }

  lemma WrittenCell(w: World, mode: Mode, s: State, m: State, p: int, v: byte, t: State, i: int)
    requires 0 <= p < |s.blocks| == |m.blocks| == |t.blocks| && 0 <= i < |s.blocks|
    requires SameSponges(s.blocks, m.blocks) && QueuesGrow(s, m) && QueuesGrow(m.Written(p, v), t)
    requires CellsEvolve(w, mode, s, m)
    requires !IsHard(s.blocks[p]) && !IsHard(m.blocks[p])
    requires PhysicsWrite(w, mode, s, p, v, t)
    requires CellChange(w, Cascade, m.Written(p, v), t, i)
    ensures CellChange(w, mode, s, t, i)
  {
    hide ValidQueues, Cube, w.EdgeCell, FallsFrom, Firm, w.Plane;
    var m' := m.Written(p, v);
    assert CellChange(w, mode, s, m, i);
    assert SameSponges(s.blocks, m'.blocks);
    SpongeNearSame(w, s.blocks, m'.blocks, i);
    hide SpongeNear;
    if i != p {
      assert m'.blocks[i] == m.blocks[i];
    }
    forall g: byte | IsGrain(g) && FallsFrom(w.Plane(), m'.blocks, i, g)
      ensures GrainSource(w, mode, s.blocks, i, g)
    {
      WrittenSource(w, mode, s, m, p, v, i, g);
    }
  }

  lemma DefectsAfterWrite(w: World, m: State, p: int, v: byte, i: int)
    requires 0 <= p < |m.blocks|
    requires m.blocks[p] != SPONGE && v != SPONGE
    ensures i != p && i != p + w.Plane() && Unsettled(w.Plane(), m.Written(p, v).blocks, i) ==>
              Unsettled(w.Plane(), m.blocks, i)
    ensures i != p && Gap(w, m.Written(p, v).blocks, i) ==> Gap(w, m.blocks, i)
  {
    hide Cube, w.EdgeCell;
    SpongeNearSame(w, m.Written(p, v).blocks, m.blocks, i);
    hide SpongeNear, w.Plane;
  }

  lemma FirmAfterWrite(w: World, mode: Mode, s: State, m: State, p: int, v: byte, t: State, i: int)
    requires 0 <= p < |s.blocks| && 0 <= i < |s.blocks|
    requires CellsEvolve(w, mode, s, m) && CellsEvolve(w, Cascade, m.Written(p, v), t)
    requires !Firm(w.Plane(), s.blocks, p) && Firm(w.Plane(), s.blocks, i)
    ensures t.blocks[i] == s.blocks[i]
  {
    hide CellChange;
    FirmKept(w.Plane(), s.blocks, m.Written(p, v).blocks, i);
  }

  lemma CellsAfterWrite(w: World, mode: Mode, s: State, m: State, p: int, v: byte, t: State)
    requires 0 <= p < |s.blocks|
    requires CellsEvolve(w, mode, s, m) && QueuesGrow(s, m) && QueuesGrow(m.Written(p, v), t)
    requires !IsHard(s.blocks[p]) && !IsHard(m.blocks[p]) && !Firm(w.Plane(), s.blocks, p)
    requires CellsEvolve(w, Cascade, m.Written(p, v), t)
    requires PhysicsWrite(w, mode, s, p, v, t)
    ensures CellsEvolve(w, mode, s, t)
  {
    SpongesStay(w, mode, s, m);
    hide ValidQueues, PhysicsWrite, CellChange, QueuesGrow, w.Plane;
    forall i | 0 <= i < |s.blocks|
      ensures CellChange(w, mode, s, t, i)
    {
      WrittenCell(w, mode, s, m, p, v, t, i);
    }
    forall i | 0 <= i < |s.blocks| && Firm(w.Plane(), s.blocks, i)
      ensures t.blocks[i] == s.blocks[i]
    {
      FirmAfterWrite(w, mode, s, m, p, v, t, i);
    }
  }

  lemma CalmAfterWrite(w: World, sims: set<Simulator>, mode: Mode, s: State, m: State, p: int, v: byte, t: State)
    requires 0 <= p < |s.blocks|
    requires CalmlyEvolve(w, sims, mode, s.blocks, m.blocks)
    requires CalmlyEvolve(w, sims, Cascade, m.Written(p, v).blocks, t.blocks)
    requires Calm(w, sims, s.blocks) && !mode.Stale() ==>
               Calm(w, sims, m.Written(p, v).blocks) && CalmChange(w, mode, p, m.blocks[p], v)
    ensures CalmlyEvolve(w, sims, mode, s.blocks, t.blocks)
  {
    hide Calm, w.EdgeCell, Cube;
    var m' := m.Written(p, v);
    if Calm(w, sims, s.blocks) && !mode.Stale() {
      forall i | 0 <= i < |s.blocks|
        ensures CalmChange(w, mode, i, s.blocks[i], t.blocks[i])
      {
        assert CalmChange(w, mode, i, s.blocks[i], m.blocks[i]) && CalmChange(w, Cascade, i, m'.blocks[i], t.blocks[i]);
      }
    }
  }

  lemma FloodsOnAfterWrite(w: World, sims: set<Simulator>, b: seq<byte>, m: State, p: int, v: byte, t: State)
    requires 0 <= p < |m.blocks| && |m.blocks| == |b|
    requires FloodsOn(w, sims, b, m.blocks) && FloodsOn(w, sims, m.Written(p, v).blocks, t.blocks)
    requires DefectsShrink(w, sims, m.Written(p, v).blocks, t.blocks) && m.blocks[p] != SPONGE && v != SPONGE
    requires WaterSimulator in sims ==> !Gap(w, t.blocks, p)
    requires NeighboursAwake(w, sims, m, t, p)
    ensures FloodsOn(w, sims, b, t.blocks)
  {
    hide Gap, Unsettled, Grounded, w.Touches;
    if WaterSimulator in sims {
      forall i, j | 0 <= i < |b| && b[i] != t.blocks[i] && w.Touches(i, j)
        ensures !Gap(w, t.blocks, j)
      {
        if i == p {
          assert Awake(w, sims, m, t, j);
          assert SweptCell(w, WaterSimulator, m, t, j);
        } else if b[i] != m.blocks[i] {
          DefectsAfterWrite(w, m, p, v, j);
        }
      }
    }
  }

  lemma WaterFedAfterWrite(w: World, sims: set<Simulator>, mode: Mode, s: State, m: State, p: int, v: byte, t: State)
    requires 0 <= p < |s.blocks| == |m.blocks| && !IsHard(s.blocks[p]) && !IsHard(m.blocks[p])
    requires CellsEvolve(w, mode, s, m)
    requires WaterFed(w, sims, mode, s, m) && WaterFed(w, sims, Cascade, m.Written(p, v), t)
    requires CalmlyEvolve(w, sims, Cascade, m.Written(p, v).blocks, t.blocks)
    requires v != SPONGE && PhysicsWrite(w, mode, s, p, v, t)
    requires Calm(w, sims, s.blocks) && !mode.Stale() ==>
               Calm(w, sims, m.Written(p, v).blocks) && CalmChange(w, mode, p, m.blocks[p], v)
    ensures WaterFed(w, sims, mode, s, t)
  {
    hide CellChange, w.EdgeCell, Cube, Calm, FallsFrom, Firm, Over, Floodable;
    var m' := m.Written(p, v);
    forall e | e in t.water && e !in s.water
      ensures e.ticks == WATER_DELAY && Floodable(w, mode, s.blocks, e.index)
      ensures Calm(w, sims, s.blocks) && mode.KeepsWater() ==> 0 <= e.index < |t.blocks| && IsWater(t.blocks[e.index])
    {
      if e in m.water {
        FloodableCell(w, mode, s.blocks, e.index);
        if Calm(w, sims, s.blocks) && mode.KeepsWater() {
          assert CalmChange(w, Cascade, e.index, m'.blocks[e.index], t.blocks[e.index]);
        }
      } else {
        FloodableCell(w, Cascade, m'.blocks, e.index);
        FloodableWritten(w, mode, s, m, p, v, t, e.index);
      }
    }
  }

  lemma FloodableWritten(w: World, mode: Mode, s: State, m: State, p: int, v: byte, t: State, i: int)
    requires 0 <= p < |s.blocks| == |m.blocks| && !IsHard(s.blocks[p]) && !IsHard(m.blocks[p])
    requires CellsEvolve(w, mode, s, m) && v != SPONGE
    requires PhysicsWrite(w, mode, s, p, v, t)
    requires Floodable(w, Cascade, m.Written(p, v).blocks, i)
    ensures Floodable(w, mode, s.blocks, i)
  {
    hide CellChange, w.EdgeCell, Cube, GrainSource, Firm;
    SpongesStay(w, mode, s, m);
    assert SameSponges(s.blocks, m.Written(p, v).blocks);
    SpongeNearSame(w, s.blocks, m.Written(p, v).blocks, i);
    SpongeNearSame(w, s.blocks, m.blocks, i);
    hide SpongeNear;
    if i != p {
      FloodableTrans(w, mode, s, m, i);
    }
  }

  lemma LavaFedAfterWrite(w: World, sims: set<Simulator>, mode: Mode, s: State, m: State, p: int, v: byte, t: State)
    requires 0 <= p < |s.blocks| && !IsHard(s.blocks[p])
    requires CellsEvolve(w, mode, s, m)
    requires LavaFed(w, sims, mode, s, m) && LavaFed(w, sims, Cascade, m.Written(p, v), t)
    requires CalmlyEvolve(w, sims, Cascade, m.Written(p, v).blocks, t.blocks)
    requires PhysicsWrite(w, mode, s, p, v, t)
    requires Calm(w, sims, s.blocks) && !mode.Stale() ==>
               Calm(w, sims, m.Written(p, v).blocks) && CalmChange(w, mode, p, m.blocks[p], v)
    ensures LavaFed(w, sims, mode, s, t)
  {
    hide w.EdgeCell, SpongeNear, Firm, GrainSource, Calm, Cube;
    var m' := m.Written(p, v);
    forall e | e in t.lava && e !in s.lava
      ensures e.ticks == LAVA_DELAY && 0 <= e.index < |s.blocks|
      ensures || IsLava(s.blocks[e.index]) || (mode.SpreadsLava() && !IsHard(s.blocks[e.index]))
              || (mode.Replace? && e.index == mode.at)
      ensures Calm(w, sims, s.blocks) && mode.KeepsLava() ==> e.index < |t.blocks| && IsLava(t.blocks[e.index])
    {
      if e in m.lava {
        if Calm(w, sims, s.blocks) && mode.KeepsLava() {
          assert CalmChange(w, Cascade, e.index, m'.blocks[e.index], t.blocks[e.index]);
        }
      } else {
        assert CellChange(w, mode, s, m, e.index);
      }
    }
  }

  lemma DefectsShrinkAfterWrite(w: World, sims: set<Simulator>, b: seq<byte>, m: State, p: int, v: byte, t: State)
    requires 0 <= p < |m.blocks| && m.blocks[p] != SPONGE && v != SPONGE
    requires DefectsShrink(w, sims, b, m.blocks) && DefectsShrink(w, sims, m.Written(p, v).blocks, t.blocks)
    requires Grounded(w.Plane(), b) ==> Grounded(w.Plane(), m.Written(p, v).blocks)
    requires SandSimulator in sims ==>
               !Unsettled(w.Plane(), t.blocks, p) && !Unsettled(w.Plane(), t.blocks, p + w.Plane())
    requires WaterSimulator in sims ==> !Gap(w, t.blocks, p)
    ensures DefectsShrink(w, sims, b, t.blocks)
  {
    forall i
      ensures SandSimulator in sims && Unsettled(w.Plane(), t.blocks, i) ==> Unsettled(w.Plane(), b, i)
      ensures WaterSimulator in sims && Gap(w, t.blocks, i) ==> Gap(w, b, i)
    {
      DefectsAfterWrite(w, m, p, v, i);
      hide Grounded, Unsettled, Gap, w.Plane;
    }
    hide Unsettled, Gap, Grounded;
  }

  /** Physics, then one physics write with the cascade it starts, is physics. */
  lemma WriteAlters(w: World, sims: set<Simulator>, mode: Mode, s: State, m: State, p: int, v: byte, t: State, a: int)
    requires 0 <= p < |s.blocks|
    requires Alters(w, sims, mode, s, m, a)
    requires !IsHard(s.blocks[p]) && m.blocks[p] != STONE && !Firm(w.Plane(), s.blocks, p)
    requires v != SPONGE && !SpongeEdit(m.blocks[p], v)
    requires EditOutcome(w, sims, m, p, v, t)
    requires PhysicsWrite(w, mode, s, p, v, t)
    requires Grounded(w.Plane(), s.blocks) ==> Grounded(w.Plane(), m.Written(p, v).blocks)
    requires Calm(w, sims, s.blocks) && !mode.Stale() ==>
               Calm(w, sims, m.Written(p, v).blocks) && CalmChange(w, mode, p, m.blocks[p], v)
    ensures Alters(w, sims, mode, s, t,
                   a + 1 + Weight(w.Plane(), p, v) - Weight(w.Plane(), p, m.blocks[p]))
  {
    hide CellChange, CalmlyEvolve, DefectsShrink, Grounded, Unsettled, Gap, ValidEntries, Potential, w.Plane, Weight,
         Handled, Firm, Calm, PhysicsWrite, FloodsOn, WaterFed, LavaFed, GrainsEvolve, NeighboursAwake, EditContained,
         CalmChange;
    SoftNotSponge(w, mode, s, m, p);
    CellsAfterWrite(w, mode, s, m, p, v, t);
    CalmAfterWrite(w, sims, mode, s, m, p, v, t);
    DefectsShrinkAfterWrite(w, sims, s.blocks, m, p, v, t);
    FloodsOnAfterWrite(w, sims, s.blocks, m, p, v, t);
    WaterFedAfterWrite(w, sims, mode, s, m, p, v, t);
    LavaFedAfterWrite(w, sims, mode, s, m, p, v, t);
    PotentialUpdate(w.Plane(), m.blocks, p, v);
    hide CellsEvolve;
  }

  lemma SoftNotSponge(w: World, mode: Mode, s: State, m: State, p: int)
    requires CellsEvolve(w, mode, s, m)
    requires 0 <= p < |s.blocks| && !IsHard(s.blocks[p])
    requires m.blocks[p] != STONE
    ensures !IsHard(m.blocks[p])
  {
    assert CellChange(w, mode, s, m, p);
  }

  /** What every evolution keeps. */
  lemma Consequences(w: World, sims: set<Simulator>, mode: Mode, s: State, t: State, slack: int)
    requires Evolves(w, sims, mode, s, t, slack)
    ensures |s.blocks| == |t.blocks|
    ensures ValidQueues(s) ==> ValidQueues(t)
    ensures Grounded(w.Plane(), s.blocks) ==> Grounded(w.Plane(), t.blocks)
    ensures forall i :: 0 <= i < |s.blocks| && IsHard(s.blocks[i]) ==> t.blocks[i] == s.blocks[i]
    ensures !mode.Flow? ==> forall i :: 0 <= i < |s.blocks| && !IsHard(s.blocks[i]) ==> !IsHard(t.blocks[i])
    ensures Potential(w.Plane(), t.blocks) <= Potential(w.Plane(), s.blocks) + slack
    ensures QueuesGrow(s, t)
  {
    forall i | 0 <= i < |s.blocks|
      ensures IsHard(s.blocks[i]) ==> t.blocks[i] == s.blocks[i]
      ensures !mode.Flow? && !IsHard(s.blocks[i]) ==> !IsHard(t.blocks[i])
    {
      assert CellChange(w, mode, s, t, i);
    }
  }

  /** A grain that was disturbed before its update rests where it would have come to rest anyway. */
  lemma RestsSince(plane: nat, b: seq<byte>, c: seq<byte>, d: seq<byte>, p: int, v: byte)
    requires 0 <= p < |b| == |c| == |d| && IsGrain(v) && b[p] == v
    requires ShaftsKept(plane, b, c) && FirmStays(plane, c, d)
    requires c[p] == v ==> Rests(plane, c, d, p, v)
    ensures Rests(plane, b, d, p, v)
  {
    hide Firm, Landing;
    var j := Landing(plane, b, p);
    if 0 < plane <= j && Firm(plane, b, j - plane) {
      assert Poised(plane, b, p);
      assert ShaftKept(plane, b, c, p);
      if !(Poised(plane, c, p) && c[p] == v && Landing(plane, c, p) == j) {
        FirmThrough(plane, c, d, j);
      }
    }
  }

  lemma SandHandledSince(w: World, v: byte, p: int, s: State, m: State, t: State)
    requires 0 <= p < |s.blocks| == |m.blocks| == |t.blocks|
    requires IsGrain(v) ==> Orderly(w.Plane(), s.blocks, m.blocks) && FirmStays(w.Plane(), m.blocks, t.blocks)
    requires SandHandled(w, v, p, m, t)
    ensures SandHandled(w, v, p, s, t)
  {
    hide Firm, Landing, Rests, ShaftsKept, SoloKept, Still, FirmStays, Grains, Unsettled, w.Plane;
    if IsGrain(v) && s.blocks[p] == v {
      RestsSince(w.Plane(), s.blocks, m.blocks, t.blocks, p, v);
    }
  }

  lemma HandledSince(w: World, simulator: Simulator, oldBlock: byte, v: byte, p: int, s: State, m: State, t: State)
    requires 0 <= p < |s.blocks| == |m.blocks| == |t.blocks|
    requires QueuesGrow(s, m)
    requires simulator.SandSimulator? && IsGrain(v) ==>
               Orderly(w.Plane(), s.blocks, m.blocks) && FirmStays(w.Plane(), m.blocks, t.blocks)
    requires Handled(w, {simulator}, oldBlock, v, p, m, t)
    ensures Handled(w, {simulator}, oldBlock, v, p, s, t)
  {
    hide ValidQueues, Cube, Gap, SandHandled, Dried, w.EdgeCell, w.Plane, Orderly, FirmStays;
    if simulator.SandSimulator? {
      SandHandledSince(w, v, p, s, m, t);
    }
  }

  lemma EvolvesFirm(w: World, sims: set<Simulator>, mode: Mode, s: State, t: State, slack: int)
    requires Evolves(w, sims, mode, s, t, slack)
    ensures FirmStays(w.Plane(), s.blocks, t.blocks)
  {
    hide CellChange, Firm, CalmlyEvolve, DefectsShrink, FloodsOn, QueuesGrow, WaterFed, LavaFed, PaidWrites,
         GrainsEvolve, w.Plane;
  }

  /** One more simulator has been notified. */
  lemma OneMoreHandled(w: World, sims: set<Simulator>, done: set<Simulator>, simulator: Simulator, mode: Mode,
                       oldBlock: byte, v: byte, p: int, s: State, m: State, t: State)
    requires 0 <= p < |s.blocks| == |m.blocks| == |t.blocks| && s.blocks[p] == v
    requires simulator in sims && done <= sims && simulator !in done && !mode.Flow?
    requires v == SPONGE ==> m.blocks[p] == SPONGE
    requires simulator.SandSimulator? && IsGrain(v) ==> Orderly(w.Plane(), s.blocks, m.blocks)
    requires Evolves(w, sims, mode, s, m, SlackOf(w.Plane(), done, p, oldBlock, v))
    requires Evolves(w, sims, mode, m, t, SimulatorSlack(w.Plane(), simulator, p, oldBlock, v))
    requires Handled(w, done, oldBlock, v, p, s, m) && Handled(w, {simulator}, oldBlock, v, p, m, t)
    ensures Evolves(w, sims, mode, s, t, SlackOf(w.Plane(), done + {simulator}, p, oldBlock, v))
    ensures Handled(w, done + {simulator}, oldBlock, v, p, s, t)
  {
    hide Evolves, QueuesGrow, SandHandled, WaterHandled, LavaHandled, Grounded, Potential, Weight, w.Plane, ValidQueues,
         Orderly, FirmStays;
    var a, b := SlackOf(w.Plane(), done, p, oldBlock, v), SimulatorSlack(w.Plane(), simulator, p, oldBlock, v);
    Consequences(w, sims, mode, s, m, a);
    Consequences(w, sims, mode, m, t, b);
    EvolvesTrans(w, sims, mode, s, m, t, a, b);
    EvolvesFirm(w, sims, mode, m, t, b);
    StaysHandled(w, sims, done, mode, oldBlock, v, p, s, m, t, b);
    HandledSince(w, simulator, oldBlock, v, p, s, m, t);
  }

  /** The update by one simulator is of the kind that the edit sets off. */
  lemma StepEvolves(w: World, sims: set<Simulator>, simulator: Simulator, mode: Mode, oldBlock: byte, v: byte, p: int,
                    b: seq<byte>, m: State, t: State, slack: int)
    requires 0 <= p < |m.blocks|
    requires mode == EditMode(w, sims, b, p, oldBlock, v)
    requires simulator.LavaSimulator? && IsLava(v) && m.blocks[p] != v ==> mode == Replace(p, v)
    requires simulator.SandSimulator? && IsGrain(v) && m.blocks[p] != v ==> mode == Replace(p, v)
    requires Evolves(w, sims, StepMode(simulator, m.blocks, p, oldBlock, v), m, t, slack)
    ensures Evolves(w, sims, mode, m, t, slack)
  {
    hide Evolves, Steady;
    if StepMode(simulator, m.blocks, p, oldBlock, v).Cascade? {
      EvolvesWeaken(w, sims, mode, m, t, slack, slack);
    }
  }

  lemma StepOrderly(w: World, sims: set<Simulator>, s: State, m: State, t: State, slack: int)
    requires SandSimulator in sims && Orderly(w.Plane(), s.blocks, m.blocks)
    requires Evolves(w, sims, Cascade, m, t, slack)
    ensures Orderly(w.Plane(), s.blocks, t.blocks)
  {
    hide Alters, Orderly, Tidy, w.Plane;
    OrderlyTrans(w.Plane(), s.blocks, m.blocks, t.blocks);
  }

  lemma GrainsAtMost(w: World, sims: set<Simulator>, mode: Mode, s: State, t: State, slack: int)
    requires Evolves(w, sims, mode, s, t, slack) && !mode.Stale()
    ensures Grains(t.blocks) <= Grains(s.blocks)
  {
    hide Alters, Orderly, Tidy, w.Plane;
  }

  /** The update of a grain that cannot fall comes to nothing, also after others. */
  lemma SandConfined(w: World, sims: set<Simulator>, s: State, m: State, t: State, p: int, seeds: set<int>)
    requires 0 <= p < |s.blocks| == |m.blocks| && IsGrain(s.blocks[p])
    requires m.blocks[p] == s.blocks[p] ==> t.blocks == m.blocks
    requires Confined(w, sims, s.blocks, m.blocks, seeds)
    ensures Confined(w, sims, s.blocks, t.blocks, seeds)
  {
    hide Region;
    forall cells: set<int> | seeds <= cells && Region(w, sims, s.blocks, cells)
      ensures Within(s.blocks, t.blocks, cells)
    {
      assert Within(s.blocks, m.blocks, cells);
    }
  }

  // ------------------------------------------------------------------
  // The parts of SetBlock.

  lemma NothingHandled(w: World, oldBlock: byte, v: byte, p: int, s: State)
    requires 0 <= p < |s.blocks|
    ensures Handled(w, {}, oldBlock, v, p, s, s)
  {
    hide SandHandled, WaterHandled, LavaHandled;
  }

  lemma StillGrounded(w: World, s: State, m: State, p: int)
    requires 0 <= p < |s.blocks| == |m.blocks|
    requires Grounded(w.Plane(), s.blocks) && IsGrain(s.blocks[p])
    requires forall i :: 0 <= i < |s.blocks| && IsHard(s.blocks[i]) ==> m.blocks[i] == s.blocks[i]
    ensures HasFloor(w.Plane(), m.blocks, p)
  {
    hide w.Plane;
    FloorKept(w.Plane(), s.blocks, m.blocks, p);
  }

  lemma SweptStays(w: World, sims: set<Simulator>, simulator: Simulator, s: State, m: State, i: nat, t: State)
    requires simulator in sims && i < |m.blocks|
    requires QueuesGrow(s, m) && Evolves(w, sims, Cascade, m, t, 0)
    requires SweptCell(w, simulator, s, m, i)
    ensures i < |t.blocks| && SweptCell(w, simulator, s, t, i)
  {
    hide CalmlyEvolve, PaidWrites, ValidQueues, Firm, Cube, w.EdgeCell, w.Plane, Grounded, SpongeNear, Gap, Unsettled;
    assert CellChange(w, Cascade, m, t, i);
    ScheduledStays(w, i, s, m, t);
  }

  lemma SweptNow(w: World, sims: set<Simulator>, simulator: Simulator, s: State, m: State, i: nat, t: State)
    requires simulator in sims && i < |m.blocks| == |t.blocks|
    requires QueuesGrow(s, m) && Evolves(w, sims, Cascade, m, t, 0)
    requires Handled(w, {simulator}, m.blocks[i], m.blocks[i], i, m, t)
    ensures SweptCell(w, simulator, s, t, i)
  {
    hide CalmlyEvolve, PaidWrites, ValidQueues, Firm, Cube, w.EdgeCell, w.Plane, Grounded, SpongeNear, Dried, Refilled,
         Rests;
    assert CellChange(w, Cascade, m, t, i);
  }

  lemma AwakeStays(w: World, sims: set<Simulator>, s: State, m: State, t: State, i: int)
    requires QueuesGrow(s, m) && Evolves(w, sims, Cascade, m, t, 0)
    requires Awake(w, sims, s, m, i)
    ensures Awake(w, sims, s, t, i)
  {
    hide SweptCell, Evolves, QueuesGrow;
    Consequences(w, sims, Cascade, m, t, 0);
    forall simulator | simulator in sims
      ensures SweptCell(w, simulator, s, t, i)
    {
      SweptStays(w, sims, simulator, s, m, i, t);
    }
  }

  lemma AwakeSince(w: World, sims: set<Simulator>, s: State, m: State, t: State, i: int)
    requires s.drops <= m.drops && Awake(w, sims, m, t, i)
    ensures Awake(w, sims, s, t, i)
  {
    hide Gap, Unsettled, w.Plane;
    forall simulator | simulator in sims
      ensures SweptCell(w, simulator, s, t, i)
    {
      assert SweptCell(w, simulator, m, t, i);
    }
  }

  /** A cell that was updated between states a and b stays so, seen from s and until t. */
  lemma AwakeWithin(w: World, sims: set<Simulator>, s: State, a: State, b: State, t: State, x: int, y: int, z: int)
    requires Evolves(w, sims, Cascade, s, a, 0) && Evolves(w, sims, Cascade, a, b, 0)
    requires Evolves(w, sims, Cascade, b, t, 0)
    requires AwakeAt(w, sims, a, b, x, y, z)
    ensures AwakeAt(w, sims, s, t, x, y, z)
  {
    hide Awake, Evolves, w.Index, ValidQueues;
    Consequences(w, sims, Cascade, s, a, 0);
    Consequences(w, sims, Cascade, a, b, 0);
    EvolvesTrans(w, sims, Cascade, s, a, b, 0, 0);
    Consequences(w, sims, Cascade, s, b, 0);
    if w.Inside(x, y, z) {
      AwakeSince(w, sims, s, a, b, w.Index(x, y, z));
      AwakeStays(w, sims, s, b, t, w.Index(x, y, z));
    }
  }

  /** The six neighbours, named by coordinates. */
  lemma NeighboursOf(w: World, sims: set<Simulator>, s: State, t: State, x: int, y: int, z: int)
    requires w.Inside(x, y, z)
    requires AwakeAt(w, sims, s, t, x + 1, y, z) && AwakeAt(w, sims, s, t, x - 1, y, z)
    requires AwakeAt(w, sims, s, t, x, y + 1, z) && AwakeAt(w, sims, s, t, x, y - 1, z)
    requires AwakeAt(w, sims, s, t, x, y, z + 1) && AwakeAt(w, sims, s, t, x, y, z - 1)
    ensures NeighboursAwake(w, sims, s, t, w.Index(x, y, z))
  {
    hide Awake, w.Size, w.Index, w.Position;
    IndexPosition(w, x, y, z);
    forall j | w.Touches(w.Index(x, y, z), j)
      ensures Awake(w, sims, s, t, j)
    {
      PositionIndex(w, j);
    }
  }

  lemma UpdateSettles(w: World, sims: set<Simulator>, s: State, p: nat, t: State)
    requires p < |s.blocks| == |t.blocks|
    requires Evolves(w, sims, EditMode(w, sims, s.blocks, p, s.blocks[p], s.blocks[p]), s, t,
                     SlackOf(w.Plane(), sims, p, s.blocks[p], s.blocks[p]))
    requires Handled(w, sims, s.blocks[p], s.blocks[p], p, s, t)
    ensures Evolves(w, sims, Cascade, s, t, 0)
    ensures Awake(w, sims, s, t, p)
  {
    hide Evolves, SandHandled, WaterHandled, LavaHandled, SweptCell, w.Plane, Weight, Steady;
    QueuesStay(s);
    forall simulator | simulator in sims
      ensures SweptCell(w, simulator, s, t, p)
    {
      SweptNow(w, sims, simulator, s, s, p, t);
    }
  }

  lemma UpdateReaches(w: World, sims: set<Simulator>, s: State, p: nat, t: State)
    requires p < |s.blocks|
    requires (SandSimulator in sims ==> !Unsettled(w.Plane(), s.blocks, p)) ==>
               Confined(w, sims, s.blocks, t.blocks, Seeds(w, s.blocks, p, s.blocks[p], s.blocks[p]))
    ensures UpdateConfined(w, sims, s.blocks, t.blocks, p)
  {
    hide Gap, Unsettled, Region, Within, Cube, w.Plane;
  }

  lemma QueuesStay(s: State)
    ensures QueuesGrow(s, s)
  {
  }

  lemma SimulatorsRan(w: World, sims: set<Simulator>, s: State, p: int, v: byte, t: State)
    requires 0 <= p < |s.blocks| == |t.blocks|
    requires Evolves(w, sims, ModeOf(w, sims, s, p, v), s.Written(p, v), t,
                     SlackOf(w.Plane(), sims, p, s.blocks[p], v))
    requires Handled(w, sims, s.blocks[p], v, p, s.Written(p, v), t)
    requires Grains(t.blocks) <= Grains(s.Written(p, v).blocks) + 1
    ensures EditHandled(w, sims, s, p, v, t)
  {
    hide Steady, FloodsOn, WaterFed, LavaFed, GrainsEvolve, Grains, CellsEvolve, CalmlyEvolve, QueuesGrow, PaidWrites,
         LavaHandled, Rests, w.Plane, Grounded, Dried, Refilled, SpongeNear, w.EdgeCell, Cube;
    assert SandSimulator in sims && !IsGrain(v) ==> !Unsettled(w.Plane(), s.Written(p, v).blocks, p);
    assert WaterSimulator in sims && v != AIR ==> !Gap(w, s.Written(p, v).blocks, p);
  }

  lemma StaysCalm(w: World, sims: set<Simulator>, mode: Mode, s: State, t: State, slack: int)
    requires Evolves(w, sims, mode, s, t, slack) && Calm(w, sims, s.blocks)
    ensures Calm(w, sims, t.blocks)
  {
    hide CellChange, Firm, CalmlyEvolve, FloodsOn, QueuesGrow, WaterFed, LavaFed, PaidWrites, GrainsEvolve, w.Plane,
         Gap, Unsettled, Grounded;
  }

  lemma EditIsContained(w: World, sims: set<Simulator>, mode: Mode, s: State, p: int, v: byte, m: State, t: State,
                        slack: int)
    requires 0 <= p < |s.blocks|
    requires Evolves(w, sims, mode, s.Written(p, v), m, slack)
    requires (SandSimulator in sims ==> !Unsettled(w.Plane(), s.Written(p, v).blocks, p)) ==>
               Confined(w, sims, s.Written(p, v).blocks, m.blocks, Seeds(w, s.Written(p, v).blocks, p, s.blocks[p], v))
    requires Confined(w, sims, m.blocks, t.blocks, {p})
    ensures EditContained(w, sims, s, p, v, t)
  {
    hide Evolves, Confined, Seeds, Gap, Unsettled, w.Plane;
    var b := s.Written(p, v).blocks;
    var seeds := Seeds(w, b, p, s.blocks[p], v);
    if SandSimulator in sims && Unsettled(w.Plane(), b, p) {
      NoRegion(w, sims, b, t.blocks, p, {p} + seeds);
    } else {
      ConfinedTrans(w, sims, mode, s.Written(p, v), m, t, slack, seeds, {p}, {p} + seeds);
    }
  }

  /** Updating the neighbours undoes nothing and completes what SetBlock promises. */
  lemma NeighboursUpdated(w: World, sims: set<Simulator>, s: State, p: int, v: byte, m: State, t: State)
    requires EditHandled(w, sims, s, p, v, m) && Evolves(w, sims, Cascade, m, t, 0)
    requires NeighboursAwake(w, sims, m, t, p)
    requires SandSimulator in sims ==> !Unsettled(w.Plane(), t.blocks, p + w.Plane())
    requires EditContained(w, sims, s, p, v, t)
    ensures EditOutcome(w, sims, s, p, v, t)
  {
    hide Evolves, Handled, w.Plane, Gap, Unsettled, Weight, Awake, w.Touches, EditContained, ValidQueues, Steady,
         Grains;
    GrainsAtMost(w, sims, Cascade, m, t, 0);
    var mode := ModeOf(w, sims, s, p, v);
    var slack := SlackOf(w.Plane(), sims, p, s.blocks[p], v);
    Consequences(w, sims, mode, s.Written(p, v), m, slack);
    NoNewDefects(w, sims, Cascade, m, t, 0);
    EvolvesWeaken(w, sims, mode, m, t, 0, 0);
    EvolvesTrans(w, sims, mode, s.Written(p, v), m, t, slack, 0);
    StaysHandled(w, sims, sims, mode, s.blocks[p], v, p, s.Written(p, v), m, t, 0);
    DropsGrow(s.Written(p, v), m);
    forall j | w.Touches(p, j)
      ensures Awake(w, sims, s, t, j)
    {
      AwakeSince(w, sims, s, m, t, j);
    }
  }

  lemma NoNewDefects(w: World, sims: set<Simulator>, mode: Mode, s: State, t: State, slack: int)
    requires Evolves(w, sims, mode, s, t, slack)
    ensures SandSimulator in sims ==> forall i :: Unsettled(w.Plane(), t.blocks, i) ==>
            Unsettled(w.Plane(), s.blocks, i)
    ensures WaterSimulator in sims ==> forall i :: Gap(w, t.blocks, i) ==> Gap(w, s.blocks, i)
  {
    hide CellsEvolve, CalmlyEvolve, FloodsOn, QueuesGrow, WaterFed, LavaFed, PaidWrites, GrainsEvolve, w.Plane, Gap,
         Unsettled, Grounded;
  }

  lemma DropsGrow(s: State, t: State)
    requires QueuesGrow(s, t)
    ensures s.drops <= t.drops
  {
  }

  lemma EditBudget(w: World, sims: set<Simulator>, s: State, p: int, v: byte, t: State)
    requires EditHandled(w, sims, s, p, v, t)
    ensures !SpongeEdit(s.blocks[p], v) ==> Potential(w.Plane(), t.blocks) <= Potential(w.Plane(), s.blocks[p := v])
  {
    hide CellsEvolve, CalmlyEvolve, DefectsShrink, QueuesGrow, Handled, w.Plane, Potential, Gap, Unsettled;
  }

  lemma CascadeTrans(w: World, sims: set<Simulator>, s: State, m: State, t: State)
    requires Evolves(w, sims, Cascade, s, m, 0) && Evolves(w, sims, Cascade, m, t, 0)
    ensures Evolves(w, sims, Cascade, s, t, 0)
    ensures Potential(w.Plane(), t.blocks) <= Potential(w.Plane(), s.blocks)
  {
    hide Evolves, w.Plane, Potential;
    EvolvesTrans(w, sims, Cascade, s, m, t, 0, 0);
    Consequences(w, sims, Cascade, s, t, 0);
  }

  lemma AboveSettled(w: World, sims: set<Simulator>, s: State, t: State, x: int, y: int, z: int)
    requires |t.blocks| == w.Size() && w.Inside(x, y, z) && AwakeAt(w, sims, s, t, x, y + 1, z)
    ensures SandSimulator in sims ==> !Unsettled(w.Plane(), t.blocks, w.Index(x, y, z) + w.Plane())
  {
    hide w.Index, w.Size, w.Plane, Unsettled, Gap;
    IndexAbove(w, x, y, z);
    if SandSimulator in sims {
      if y + 1 < w.height {
        assert SweptCell(w, SandSimulator, s, t, w.Index(x, y + 1, z));
      } else {
        TopLayer(w, x, z);
        OutsideSettled(w.Plane(), t.blocks, w.Index(x, y, z) + w.Plane());
      }
    }
  }

  lemma OutsideSettled(plane: nat, b: seq<byte>, i: int)
    requires i >= |b|
    ensures !Unsettled(plane, b, i)
  {
  }
}
