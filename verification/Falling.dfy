/** The two writes of a falling grain, and the flooding of a border cell, as evolutions. */
module Falling {
  import opened Blocks
  import opened Geometry
  import opened Columns
  import opened Shafts
  import opened Evolution
  import opened Reach
  import opened Writes

  /** Removing the falling grain starts a cascade with less potential than the grain had. */
  lemma FallStarts(plane: nat, b: seq<byte>, p: int, v: byte)
    requires 0 <= p < |b| && Grounded(plane, b) && IsGrain(v) && !IsHard(b[p])
    ensures Potential(plane, b[p := AIR]) < Potential(plane, b[p := v])
    ensures Grounded(plane, b[p := AIR])
  {
    PotentialUpdate(plane, b, p, v);
    PotentialUpdate(plane, b, p, AIR);
    GroundedWrite(plane, b, p, AIR);
  }

  /** After that cascade the landing is still free or holds another grain, and the second write
      still has less potential than the grain had. */
  lemma FallContinues(w: World, sims: set<Simulator>, s: State, p: int, v: byte, m: State)
    requires EditOutcome(w, sims, s, p, AIR, m)
    requires IsGrain(v) && !IsHard(s.blocks[p]) && Grounded(w.Plane(), s.blocks)
    requires HasFloor(w.Plane(), s.blocks, p) && Landing(w.Plane(), s.blocks, p) < p
    ensures var j := Landing(w.Plane(), s.blocks, p);
            && IsPassable(s.blocks[j]) && !IsHard(m.blocks[j])
            && Grounded(w.Plane(), m.blocks[j := v])
            && Potential(w.Plane(), m.blocks[j := v]) < Potential(w.Plane(), s.blocks[p := v])
            && Weight(w.Plane(), j, v) + 3 <= Weight(w.Plane(), p, v)
            && Weight(w.Plane(), j, m.blocks[j]) >= 1
  {
    hide FloodsOn, WaterFed, LavaFed, GrainsEvolve, NeighboursAwake, EditContained, Steady, Grains;
    var plane := w.Plane();
    var j := Landing(plane, s.blocks, p);
    var s' := s.Written(p, AIR);
    LandingLower(plane, s.blocks, p);
    FloorUnderLanding(plane, s.blocks, p);
    assert CellChange(w, Cascade, s', m, j);
    SpongesStay(w, Cascade, s', m);
    assert forall k :: 0 <= k < |s.blocks| && IsHard(s.blocks[k]) ==> s'.blocks[k] == s.blocks[k];
    FloorKept(plane, s.blocks, m.blocks, j);
    GroundedWrite(plane, s.blocks, p, AIR);
    GroundedWrite(plane, m.blocks, j, v);
    PotentialUpdate(plane, s.blocks, p, v);
    PotentialUpdate(plane, s.blocks, p, AIR);
    PotentialUpdate(plane, m.blocks, j, v);
    hide CellsEvolve, CalmlyEvolve, CellChange, QueuesGrow, Handled, Unsettled, Gap, Potential, Grounded, w.Plane,
         HasFloor, Landing, Rise;
  }

  lemma FallSettles(w: World, sims: set<Simulator>, p: int, j: int, v: byte, m: State, t: State)
    requires 0 <= p < |m.blocks| && SandSimulator in sims
    requires !Unsettled(w.Plane(), m.blocks, p) && p != j
    requires EditOutcome(w, sims, m, j, v, t) && !IsHard(m.blocks[j]) && IsGrain(v)
    ensures !Unsettled(w.Plane(), t.blocks, p)
  {
    DefectsAfterWrite(w, m, j, v, p);
    hide CellsEvolve, CalmlyEvolve, QueuesGrow, PaidWrites, Handled, Gap, Grounded, Unsettled, w.Plane;
  }

  lemma RestsThrough(plane: nat, b: seq<byte>, c: seq<byte>, d: seq<byte>, p: int, v: byte)
    requires 0 <= p < |b| == |c| == |d| && IsGrain(v) && HasFloor(plane, b, p)
    requires forall k :: 0 <= k < |b| && Firm(plane, b, k) ==> c[k] == b[k]
    requires Rests(plane, c[Landing(plane, b, p) := v], d, Landing(plane, b, p), v)
    ensures Rests(plane, b, d, p, v)
  {
    var j := Landing(plane, b, p);
    FloorUnderLanding(plane, b, p);
    if Firm(plane, b, j - plane) {
      var c' := c[j := v];
      FirmKept(plane, b, c, j - plane);
      FirmKept(plane, c, c', j - plane);
      assert !IsPassable(c'[j - plane]);
      assert Landing(plane, c', j) == j;
    }
  }

  lemma FallRests(w: World, sims: set<Simulator>, s: State, p: int, v: byte, m: State, t: State)
    requires 0 <= p < |s.blocks| && SandSimulator in sims && IsGrain(v)
    requires CellsEvolve(w, Cascade, s, m)
    requires HasFloor(w.Plane(), s.blocks, p)
    requires EditOutcome(w, sims, m, Landing(w.Plane(), s.blocks, p), v, t)
    requires m.blocks[Landing(w.Plane(), s.blocks, p)] != SPONGE
    ensures |t.blocks| == |s.blocks| && Rests(w.Plane(), s.blocks, t.blocks, p, v)
  {
    hide CellChange, Evolves, Rests, Unsettled, Gap, w.Plane, WaterHandled, LavaHandled, HasFloor, Firm;
    var j := Landing(w.Plane(), s.blocks, p);
    assert SandHandled(w, v, j, m.Written(j, v), t);
    RestsThrough(w.Plane(), s.blocks, m.blocks, t.blocks, p, v);
  }

  lemma EditSettles(w: World, sims: set<Simulator>, s: State, p: int, v: byte, t: State)
    requires EditOutcome(w, sims, s, p, v, t) && SandSimulator in sims
    ensures !Unsettled(w.Plane(), t.blocks, p)
  {
    hide Evolves, Handled, Unsettled, Gap, w.Plane;
  }

  lemma FallFacts(plane: nat, b: seq<byte>, p: int, v: byte)
    requires 0 <= p < |b| && IsGrain(v) && !IsHard(b[p])
    requires HasFloor(plane, b, p) && Landing(plane, b, p) < p
    ensures !Firm(plane, b, p)
    ensures b[p] == v ==> Unsettled(plane, b, p)
    ensures var j := Landing(plane, b, p); IsPassable(b[j]) && !Firm(plane, b, j)
    ensures Weight(plane, p, AIR) == 2
  {
    LandingLower(plane, b, p);
  }

  lemma FallEmpties(w: World, sims: set<Simulator>, mode: Mode, s: State, p: int, v: byte, m: State)
    requires EditOutcome(w, sims, s, p, AIR, m) && SandSimulator in sims
    requires 0 <= p < |s.blocks| && IsGrain(v) && !IsHard(s.blocks[p]) && Grounded(w.Plane(), s.blocks)
    requires mode == (if s.blocks[p] == v then Cascade else Replace(p, v))
    requires HasFloor(w.Plane(), s.blocks, p) && Landing(w.Plane(), s.blocks, p) < p
    ensures Alters(w, sims, mode, s, m, 3 - Weight(w.Plane(), p, s.blocks[p]))
  {
    hide EditOutcome, Handled, Gap, w.Plane, Potential, Alters, GrainsEvolve, Firm, Landing, Unsettled, Grounded,
         Weight, HasFloor;
    var plane := w.Plane();
    FallStarts(plane, s.blocks, p, v);
    FallFacts(plane, s.blocks, p, v);
    EvolvesRefl(w, sims, mode, s);
    FallEmptySource(w, mode, s.blocks, p, v);
    WriteAlters(w, sims, mode, s, s, p, AIR, m, 0);
  }

  lemma FallEmptySource(w: World, mode: Mode, b: seq<byte>, p: int, v: byte)
    requires 0 <= p < |b| && IsGrain(v) && mode == (if b[p] == v then Cascade else Replace(p, v))
    ensures EmptySource(w, mode, b, p)
  {
    hide w.Plane;
    assert Over(w.Plane(), p, p);
  }

  /** The grain lands in its own column. */
  lemma FallSource(w: World, mode: Mode, b: seq<byte>, p: int, v: byte)
    requires 0 <= p < |b| && IsGrain(v) && mode == (if b[p] == v then Cascade else Replace(p, v))
    ensures GrainSource(w, mode, b, Landing(w.Plane(), b, p), v)
  {
    hide Over, w.Plane;
    LandingBelow(w.Plane(), b, p);
  }

  lemma FallAlters(w: World, sims: set<Simulator>, mode: Mode, s: State, p: int, v: byte, m: State, t: State)
    requires EditOutcome(w, sims, s, p, AIR, m) && SandSimulator in sims
    requires 0 <= p < |s.blocks| && IsGrain(v) && !IsHard(s.blocks[p]) && Grounded(w.Plane(), s.blocks)
    requires mode == (if s.blocks[p] == v then Cascade else Replace(p, v))
    requires HasFloor(w.Plane(), s.blocks, p) && Landing(w.Plane(), s.blocks, p) < p
    requires EditOutcome(w, sims, m, Landing(w.Plane(), s.blocks, p), v, t)
    ensures Alters(w, sims, mode, s, t, Weight(w.Plane(), p, v) - Weight(w.Plane(), p, s.blocks[p]))
  {
    hide EditOutcome, Handled, Gap, w.Plane, Potential, Alters, Firm, Landing, Unsettled, Grounded, Weight, HasFloor,
         GrainSource, CalmChange;
    EditSizes(w, sims, s, p, AIR, m);
    var plane := w.Plane();
    var j := Landing(plane, s.blocks, p);
    FallContinues(w, sims, s, p, v, m);
    FallEmpties(w, sims, mode, s, p, v, m);
    FallFacts(plane, s.blocks, p, v);
    FallSource(w, mode, s.blocks, p, v);
    var a := 3 - Weight(plane, p, s.blocks[p]);
    WriteAlters(w, sims, mode, s, m, j, v, t, a);
    var b := a + 1 + Weight(plane, j, v) - Weight(plane, j, m.blocks[j]);
    AltersMoreSlack(w, sims, mode, s, t, b, Weight(plane, p, v) - Weight(plane, p, s.blocks[p]));
  }

  lemma AltersMoreSlack(w: World, sims: set<Simulator>, mode: Mode, s: State, t: State, a: int, b: int)
    requires Alters(w, sims, mode, s, t, a) && a <= b
    ensures Alters(w, sims, mode, s, t, b)
  {
    hide CellsEvolve, CalmlyEvolve, DefectsShrink, FloodsOn, WaterFed, LavaFed, QueuesGrow, Potential, w.Plane;
  }

  lemma FallStates(w: World, sims: set<Simulator>, s: State, p: int, v: byte, m: State, t: State)
    requires EditOutcome(w, sims, s, p, AIR, m) && SandSimulator in sims
    requires 0 <= p < |s.blocks| && IsGrain(v) && s.blocks[p] == v && Grounded(w.Plane(), s.blocks)
    requires HasFloor(w.Plane(), s.blocks, p) && Landing(w.Plane(), s.blocks, p) < p
    requires EditOutcome(w, sims, m, Landing(w.Plane(), s.blocks, p), v, t)
    ensures Fall(w.Plane(), s.blocks, p, v, m.blocks, t.blocks)
  {
    hide Alters, CellChange, Orderly, Tidy, Handled, Gap, w.Plane, Potential, Firm, Landing, Unsettled, Grounded,
         Weight, HasFloor, NeighboursAwake, EditContained;
    FallContinues(w, sims, s, p, v, m);
    FloorUnderLanding(w.Plane(), s.blocks, p);
  }

  lemma FallGrains(w: World, sims: set<Simulator>, s: State, p: int, v: byte, m: State, t: State)
    requires EditOutcome(w, sims, s, p, AIR, m) && SandSimulator in sims
    requires 0 <= p < |s.blocks| && IsGrain(v) && s.blocks[p] == v && Grounded(w.Plane(), s.blocks)
    requires HasFloor(w.Plane(), s.blocks, p) && Landing(w.Plane(), s.blocks, p) < p
    requires EditOutcome(w, sims, m, Landing(w.Plane(), s.blocks, p), v, t)
    requires CellsEvolve(w, Cascade, s, t)
    ensures Orderly(w.Plane(), s.blocks, t.blocks) && Tidy(w.Plane(), s.blocks, t.blocks)
  {
    hide Alters, CellChange, Orderly, Tidy, Handled, Gap, w.Plane, Potential, Firm, Landing, Unsettled, Grounded,
         Weight, HasFloor, NeighboursAwake, EditContained, Fall;
    var plane := w.Plane();
    FallStates(w, sims, s, p, v, m, t);
    FallContinues(w, sims, s, p, v, m);
    FallOrderly(plane, s.blocks, p, v, m.blocks, t.blocks);
    FallTidy(plane, s.blocks, p, v, m.blocks, t.blocks);
  }

  /** A fall is an evolution, and its writes are paid for by the height that the grain loses. */
  lemma FallEvolves(w: World, sims: set<Simulator>, mode: Mode, s: State, p: int, v: byte, m: State, t: State)
    requires EditOutcome(w, sims, s, p, AIR, m) && SandSimulator in sims
    requires 0 <= p < |s.blocks| && IsGrain(v) && !IsHard(s.blocks[p]) && Grounded(w.Plane(), s.blocks)
    requires mode == (if s.blocks[p] == v then Cascade else Replace(p, v))
    requires HasFloor(w.Plane(), s.blocks, p) && Landing(w.Plane(), s.blocks, p) < p
    requires EditOutcome(w, sims, m, Landing(w.Plane(), s.blocks, p), v, t)
    ensures Evolves(w, sims, mode, s, t, Weight(w.Plane(), p, v) - Weight(w.Plane(), p, s.blocks[p]))
  {
    hide EditOutcome, CellsEvolve, CalmlyEvolve, DefectsShrink, FloodsOn, WaterFed, LavaFed, QueuesGrow, PaidWrites,
         w.Plane, Grounded, Weight, HasFloor, Landing;
    FallAlters(w, sims, mode, s, p, v, m, t);
    if s.blocks[p] == v {
      FallGrains(w, sims, s, p, v, m, t);
    }
  }

  /** The grain has left its start for good and rests at its landing. */
  lemma FallHandled(w: World, sims: set<Simulator>, s: State, p: int, v: byte, m: State, t: State)
    requires EditOutcome(w, sims, s, p, AIR, m) && SandSimulator in sims
    requires 0 <= p < |s.blocks| && IsGrain(v) && !IsHard(s.blocks[p]) && Grounded(w.Plane(), s.blocks)
    requires HasFloor(w.Plane(), s.blocks, p) && Landing(w.Plane(), s.blocks, p) < p
    requires EditOutcome(w, sims, m, Landing(w.Plane(), s.blocks, p), v, t)
    ensures |t.blocks| == |s.blocks| && SandHandled(w, v, p, s, t)
  {
    hide w.Plane, EditOutcome, Evolves, Handled, Potential, Grounded, HasFloor, Weight, Unsettled, Landing, Firm, Rests,
         CellsEvolve;
    var j := Landing(w.Plane(), s.blocks, p);
    EditSizes(w, sims, s, p, AIR, m);
    EditSizes(w, sims, m, j, v, t);
    FallContinues(w, sims, s, p, v, m);
    EditSettles(w, sims, s, p, AIR, m);
    FallSettles(w, sims, p, j, v, m, t);
    if s.blocks[p] == v {
      FallEmpties(w, sims, Cascade, s, p, v, m);
      AltersCells(w, sims, Cascade, s, m, 3 - Weight(w.Plane(), p, s.blocks[p]));
      FallRests(w, sims, s, p, v, m, t);
    }
  }

  lemma FallUpdates(w: World, sims: set<Simulator>, oldBlock: byte, s: State, p: int, v: byte, m: State, t: State)
    requires EditOutcome(w, sims, s, p, AIR, m) && SandSimulator in sims
    requires 0 <= p < |s.blocks| && IsGrain(v) && !IsHard(s.blocks[p]) && Grounded(w.Plane(), s.blocks)
    requires s.blocks[p] == v || SpongeEdit(oldBlock, v)
    requires HasFloor(w.Plane(), s.blocks, p) && Landing(w.Plane(), s.blocks, p) < p
    requires EditOutcome(w, sims, m, Landing(w.Plane(), s.blocks, p), v, t)
    ensures Evolves(w, sims, StepMode(SandSimulator, s.blocks, p, oldBlock, v), s, t,
                    SimulatorSlack(w.Plane(), SandSimulator, p, oldBlock, v))
  {
    hide w.Plane, EditOutcome, Evolves, Grounded, HasFloor, Weight, Landing;
    var slack := Weight(w.Plane(), p, v) - Weight(w.Plane(), p, s.blocks[p]);
    var mode := StepMode(SandSimulator, s.blocks, p, oldBlock, v);
    FallEvolves(w, sims, mode, s, p, v, m, t);
    EvolvesMoreSlack(w, sims, mode, s, t, slack, SimulatorSlack(w.Plane(), SandSimulator, p, oldBlock, v));
  }

  /** A fall creates at most one grain, and only if the grain was not there any more. */
  lemma FallCreates(w: World, sims: set<Simulator>, s: State, p: int, v: byte, m: State, j: int, t: State)
    requires EditOutcome(w, sims, s, p, AIR, m) && EditOutcome(w, sims, m, j, v, t)
    requires 0 <= p < |s.blocks| && !IsHard(s.blocks[p])
    requires 0 <= j < |m.blocks| && !IsHard(m.blocks[j]) && IsGrain(v)
    ensures Grains(t.blocks) <= Grains(s.blocks) + 1
  {
    hide EditOutcome, Grains;
    EditSizes(w, sims, s, p, AIR, m);
    EditSizes(w, sims, m, j, v, t);
    EditCreatesNone(w, sims, s, p, AIR, m);
    EditCreatesNone(w, sims, m, j, v, t);
    OneMoreGrain(s.blocks, p, AIR);
    OneMoreGrain(m.blocks, j, v);
  }

  lemma EditCreatesNone(w: World, sims: set<Simulator>, s: State, p: int, v: byte, t: State)
    requires EditOutcome(w, sims, s, p, v, t)
    requires 0 <= p < |s.blocks| && s.blocks[p] != SPONGE
    ensures Grains(t.blocks) <= Grains(s.Written(p, v).blocks)
  {
    hide Evolves, Handled, NeighboursAwake, EditContained, Unsettled, Gap, Steady, w.Plane, Weight, Grains;
    GrainsAtMost(w, sims, ModeOf(w, sims, s, p, v), s.Written(p, v), t, SlackOf(w.Plane(), sims, p, s.blocks[p], v));
  }

  lemma OneMoreGrain(b: seq<byte>, p: int, v: byte)
    requires 0 <= p < |b|
    ensures Grains(b[p := v]) <= Grains(b) + (if IsGrain(v) then 1 else 0)
  {
  }

  lemma EditSizes(w: World, sims: set<Simulator>, s: State, p: int, v: byte, t: State)
    requires EditOutcome(w, sims, s, p, v, t)
    ensures 0 <= p < |s.blocks| == |t.blocks|
  {
  }

  lemma AltersCells(w: World, sims: set<Simulator>, mode: Mode, s: State, t: State, slack: int)
    requires Alters(w, sims, mode, s, t, slack)
    ensures CellsEvolve(w, mode, s, t)
  {
  }

  /** Writing a block that does not fall into a cell that grains fall through unsettles nothing. */
  lemma CalmWrite(w: World, sims: set<Simulator>, b: seq<byte>, p: int, v: byte)
    requires 0 <= p < |b| && IsPassable(b[p]) && !IsGrain(v)
    requires Calm(w, sims, b)
    ensures Calm(w, sims, b[p := v])
  {
    var plane := w.Plane();
    var c := b[p := v];
    hide w.Plane;
    if SandSimulator in sims {
      forall i | 0 <= i < |c|
        ensures !Unsettled(plane, c, i)
      {
        assert !Unsettled(plane, b, i);
      }
    }
  }

  /** A fluid written into a passable cell, or stone written over a fluid, by physics. */
  lemma FluidAlters(w: World, sims: set<Simulator>, mode: Mode, s: State, p: int, v: byte, t: State)
    requires EditOutcome(w, sims, s, p, v, t) && !mode.Soak? && !mode.Replace?
    requires IsPassable(s.blocks[p]) && !IsGrain(v) && v != AIR && v != SPONGE
    requires PhysicsWrite(w, mode, s, p, v, t) && CalmChange(w, mode, p, s.blocks[p], v)
    requires Weight(w.Plane(), p, v) < Weight(w.Plane(), p, s.blocks[p])
    ensures Alters(w, sims, mode, s, t, 0)
  {
    hide CellChange, CalmlyEvolve, DefectsShrink, QueuesGrow, PaidWrites, Gap, w.Plane, Handled, Potential,
         PhysicsWrite, CalmChange, FloodsOn, WaterFed, LavaFed, GrainsEvolve, NeighboursAwake, EditContained;
    EvolvesRefl(w, sims, mode, s);
    if Grounded(w.Plane(), s.blocks) {
      GroundedWrite(w.Plane(), s.blocks, p, v);
    }
    if Calm(w, sims, s.blocks) {
      CalmWrite(w, sims, s.blocks, p, v);
    }
    WriteAlters(w, sims, mode, s, s, p, v, t, 0);
    AltersMoreSlack(w, sims, mode, s, t,
                    1 + Weight(w.Plane(), p, v) - Weight(w.Plane(), p, s.blocks[p]), 0);
  }

  lemma FluidGrains(w: World, sims: set<Simulator>, mode: Mode, b: seq<byte>, p: int, v: byte, c: seq<byte>)
    requires 0 <= p < |b| && IsPassable(b[p]) && !IsGrain(v)
    requires !mode.Flow? ==> IsPassable(v)
    requires mode.Floods() ==> b[p] == AIR && v == ACTIVE_WATER
    requires GrainsEvolve(w, sims, Cascade, b[p := v], c)
    ensures GrainsEvolve(w, sims, mode, b, c)
  {
    hide Orderly, Tidy, w.Plane;
    if !mode.Stale() && !mode.Flow? && SandSimulator in sims {
      PassableWrite(w.Plane(), b, p, v);
      OrderlyTrans(w.Plane(), b, b[p := v], c);
    }
    if mode.Floods() && SandSimulator in sims {
      FloodTidy(w.Plane(), b, p);
      TidyTrans(w.Plane(), b, b[p := v], c);
    }
  }

  lemma FluidEvolves(w: World, sims: set<Simulator>, mode: Mode, s: State, p: int, v: byte, t: State)
    requires EditOutcome(w, sims, s, p, v, t) && !mode.Soak? && !mode.Replace?
    requires IsPassable(s.blocks[p]) && !IsGrain(v) && v != AIR && v != SPONGE
    requires PhysicsWrite(w, mode, s, p, v, t) && CalmChange(w, mode, p, s.blocks[p], v)
    requires Weight(w.Plane(), p, v) < Weight(w.Plane(), p, s.blocks[p])
    requires mode.Cascade? ==> IsPassable(v)
    ensures Evolves(w, sims, mode, s, t, 0)
  {
    hide w.EdgeCell, Tidy, Alters, PhysicsWrite, Handled, NeighboursAwake, EditContained, Unsettled, Gap, w.Plane,
         Weight, Orderly;
    FluidAlters(w, sims, mode, s, p, v, t);
    FluidGrains(w, sims, mode, s.blocks, p, v, t.blocks);
  }

  /** What falls was able to fall. */
  lemma FallsLoose(w: World, p: int, b: seq<byte>)
    requires 0 <= p < |b| && IsGrain(b[p]) && Landing(w.Plane(), b, p) < p
    ensures Unsettled(w.Plane(), b, p)
  {
  }

  /** One step of the search for the landing. */
  lemma NextBelow(w: World, b: seq<byte>, x: int, y: int, z: int)
    requires |b| == w.Size() && w.Inside(x, y, z) && 0 <= w.Index(x, y, z) < |b|
    requires HasFloor(w.Plane(), b, w.Index(x, y, z))
    ensures y >= 1 && w.Inside(x, y - 1, z) && 0 < w.Plane() <= w.Index(x, y, z)
    ensures w.Index(x, y - 1, z) == w.Index(x, y, z) - w.Plane()
    ensures var j := w.Index(x, y, z);
            if IsPassable(b[j - w.Plane()]) then
              HasFloor(w.Plane(), b, j - w.Plane())
              && Landing(w.Plane(), b, j - w.Plane()) == Landing(w.Plane(), b, j)
            else Landing(w.Plane(), b, j) == j
  {
    hide w.Index, w.Plane, w.Size;
    BelowCell(w, x, y, z);
  }

  lemma StandsStill(w: World, v: byte, p: int, s: State)
    requires 0 <= p < |s.blocks|
    requires IsGrain(v) ==> HasFloor(w.Plane(), s.blocks, p) && Landing(w.Plane(), s.blocks, p) == p
    ensures SandHandled(w, v, p, s, s)
  {
    hide w.Plane;
    if IsGrain(v) {
      FloorUnderLanding(w.Plane(), s.blocks, p);
    }
  }
}
