/** The steps of the three sponge scans and of the border flood, as evolutions. */
module Sponges {
  import opened Blocks
  import opened Geometry
  import opened Columns
  import opened Shafts
  import opened Cubes
  import opened UpdateQueues
  import opened Evolution
  import opened Reach
  import opened Writes
  import opened Falling

  /** What adding a cell to one of the two queues does to the state: a queue of 2^30 - 1 entries is thrown
      away, and a shorter one grows. */
  ghost predicate WaterQueued(s: State, p: int, t: State) {
    && t == s.(water := t.water, drops := t.drops)
    && ((t.water == s.water + [BlockUpdate(p, WATER_DELAY)] && t.drops == s.drops)
        || (t.water == [] && t.drops == s.drops + 1 && |s.water| >= 1073741823))
  }

  ghost predicate LavaQueued(s: State, p: int, t: State) {
    && t == s.(lava := t.lava, drops := t.drops)
    && ((t.lava == s.lava + [BlockUpdate(p, LAVA_DELAY)] && t.drops == s.drops)
        || (t.lava == [] && t.drops == s.drops + 1 && |s.lava| >= 1073741823))
  }

  /** What changes nothing but the queues changes no cell. */
  lemma OnlyQueues(w: World, sims: set<Simulator>, mode: Mode, s: State, t: State)
    requires t == s.(water := t.water, lava := t.lava, drops := t.drops)
    requires QueuesGrow(s, t) && WaterFed(w, sims, mode, s, t) && LavaFed(w, sims, mode, s, t)
    ensures Evolves(w, sims, mode, s, t, 0)
  {
    hide QueuesGrow, WaterFed, LavaFed, Orderly, Gap, Unsettled, Grounded, Firm, Potential, w.Plane, w.Touches;
    OrderlyRefl(w.Plane(), s.blocks);
  }

  lemma QueuedEvolves(w: World, sims: set<Simulator>, mode: Mode, s: State, p: int, t: State)
    requires 0 <= p < |s.blocks|
    requires (WaterQueued(s, p, t) && IsWater(s.blocks[p]))
             || (LavaQueued(s, p, t) && (IsLava(s.blocks[p]) || (mode.Replace? && mode.at == p)))
    ensures Evolves(w, sims, mode, s, t, 0)
    ensures WaterQueued(s, p, t) ==> Scheduled(t.water, p, WATER_DELAY, s.drops, t.drops)
    ensures LavaQueued(s, p, t) ==> Scheduled(t.lava, p, LAVA_DELAY, s.drops, t.drops)
  {
    hide Evolves, Calm, SpongeNear, w.EdgeCell;
    assert WaterQueued(s, p, t) && t.drops == s.drops ==> t.water[|s.water|] == BlockUpdate(p, WATER_DELAY);
    assert LavaQueued(s, p, t) && t.drops == s.drops ==> t.lava[|s.lava|] == BlockUpdate(p, LAVA_DELAY);
    OnlyQueues(w, sims, mode, s, t);
  }

  lemma FloodEvolves(w: World, sims: set<Simulator>, oldBlock: byte, s: State, p: int, t: State)
    requires EditOutcome(w, sims, s, p, ACTIVE_WATER, t) && WaterSimulator in sims
    requires 0 <= p < |s.blocks| && s.blocks[p] == AIR && w.EdgeCell(p) && !SpongeNear(w, s.blocks, p)
    ensures Evolves(w, sims, Cascade, s, t, 0)
    ensures WaterHandled(w, oldBlock, AIR, p, s, t)
  {
    hide Evolves, SandHandled, LavaHandled, w.EdgeCell, w.Plane, SpongeNear, Unsettled, Dried, Refilled, Gap, Cube;
    FluidEvolves(w, sims, Cascade, s, p, ACTIVE_WATER, t);
  }

  /** Writing air or a fluid over air or a fluid changes only what is reached from there. */
  lemma EditReaches(w: World, sims: set<Simulator>, s: State, p: int, v: byte, t: State)
    requires EditOutcome(w, sims, s, p, v, t)
    requires 0 <= p < |s.blocks| && IsPassable(s.blocks[p]) && IsPassable(v)
    ensures Confined(w, sims, s.blocks, t.blocks, {p})
  {
    hide EditHandled, NeighboursAwake, Unsettled, w.Plane, Confined, w.EdgeCell, Gap, Cube;
    assert {p} + Seeds(w, s.Written(p, v).blocks, p, s.blocks[p], v) == {p};
    ConfinedWrite(w, sims, s.blocks, p, v, t.blocks, {p});
  }

  lemma FloodReaches(w: World, sims: set<Simulator>, oldBlock: byte, s: State, p: int, t: State)
    requires EditOutcome(w, sims, s, p, ACTIVE_WATER, t)
    requires 0 <= p < |s.blocks| && s.blocks[p] == AIR && w.EdgeCell(p) && !SpongeNear(w, s.blocks, p)
    ensures Confined(w, sims, s.blocks, t.blocks, Seeds(w, s.blocks, p, oldBlock, AIR))
  {
    hide EditOutcome, Confined, w.EdgeCell, SpongeNear, Cube;
    EditReaches(w, sims, s, p, ACTIVE_WATER, t);
  }

  // Placing a sponge.

  lemma DryStep(w: World, sims: set<Simulator>, s: State, p: int, cells: set<int>, n: int, m: State, q: int, t: State)
    requires Evolves(w, sims, Soak(p), s, m, n) && Evolves(w, sims, Soak(p), m, t, 2)
    requires 0 <= p < |m.blocks| && m.blocks[p] == SPONGE
    requires cells <= Cube(w, p, SPONGE_REACH) && Dried(cells, m.blocks)
    requires 0 <= q < |t.blocks| && !IsWater(t.blocks[q])
    ensures Evolves(w, sims, Soak(p), s, t, n + 2)
    ensures Dried(cells + {q}, t.blocks)
  {
    hide CellsEvolve, Cube, w.Plane, Grounded, Potential, CalmlyEvolve, DefectsShrink, QueuesGrow, PaidWrites, Firm;
    EvolvesTrans(w, sims, Soak(p), s, m, t, n, 2);
    DriedStays(w, Soak(p), p, cells, m, t);
  }

  lemma EmptyAlters(w: World, sims: set<Simulator>, at: int, s: State, q: int, t: State)
    requires 0 <= q < |s.blocks| && IsWater(s.blocks[q]) && q in Cube(w, at, SPONGE_REACH)
    requires EditOutcome(w, sims, s, q, AIR, t)
    ensures Alters(w, sims, Soak(at), s, t, 2)
  {
    hide Alters, EditHandled, EditOutcome, w.Plane, Grounded, Potential, Gap, Unsettled, Calm, Cube, GrainsEvolve;
    EvolvesRefl(w, sims, Soak(at), s);
    if Grounded(w.Plane(), s.blocks) {
      GroundedWrite(w.Plane(), s.blocks, q, AIR);
    }
    if Calm(w, sims, s.blocks) {
      CalmWrite(w, sims, s.blocks, q, AIR);
    }
    WriteAlters(w, sims, Soak(at), s, s, q, AIR, t, 0);
    AltersMoreSlack(w, sims, Soak(at), s, t,
                    1 + Weight(w.Plane(), q, AIR) - Weight(w.Plane(), q, s.blocks[q]), 2);
  }

  lemma EmptyEvolves(w: World, sims: set<Simulator>, at: int, s: State, q: int, t: State)
    requires 0 <= q < |s.blocks| && IsWater(s.blocks[q]) && q in Cube(w, at, SPONGE_REACH)
    requires EditOutcome(w, sims, s, q, AIR, t)
    ensures Evolves(w, sims, Soak(at), s, t, 2)
  {
    hide Alters, Handled, NeighboursAwake, EditContained, w.Plane, Weight, Gap, Unsettled, Orderly, Tidy, Cube;
    EmptyAlters(w, sims, at, s, q, t);
    FluidGrains(w, sims, Soak(at), s.blocks, q, AIR, t.blocks);
  }

  /** Water next to a sponge was there before the sponge soaked anything up. */
  lemma WaterBefore(w: World, sims: set<Simulator>, p: int, s: State, m: State, slack: int, q: int)
    requires Evolves(w, sims, Soak(p), s, m, slack)
    requires 0 <= p < |s.blocks| && s.blocks[p] == SPONGE && q in Cube(w, p, SPONGE_REACH)
    requires 0 <= q < |m.blocks| && IsWater(m.blocks[q])
    ensures q in WaterIn(s.blocks, Cube(w, p, SPONGE_REACH))
  {
    hide CalmlyEvolve, DefectsShrink, FloodsOn, QueuesGrow, WaterFed, LavaFed, PaidWrites, GrainsEvolve, Firm,
         w.EdgeCell, w.Plane, Cube, GrainSource;
    CubeSymmetric(w, p, q, SPONGE_REACH);
    assert CellChange(w, Soak(p), s, m, q);
  }

  /** One more cell has been soaked up or left alone. */
  lemma SoakReaches(w: World, sims: set<Simulator>, p: int, s: State, m: State, slack: int, q: int, t: State)
    requires Evolves(w, sims, Soak(p), s, m, slack)
    requires 0 <= p < |s.blocks| && s.blocks[p] == SPONGE && q in Cube(w, p, SPONGE_REACH)
    requires 0 <= q < |m.blocks|
    requires Confined(w, sims, s.blocks, m.blocks, WaterIn(s.blocks, Cube(w, p, SPONGE_REACH)))
    requires if IsWater(m.blocks[q]) then EditOutcome(w, sims, m, q, AIR, t) else t == m
    ensures Confined(w, sims, s.blocks, t.blocks, WaterIn(s.blocks, Cube(w, p, SPONGE_REACH)))
  {
    hide Evolves, EditOutcome, Confined, Cube, WaterIn;
    if IsWater(m.blocks[q]) {
      var seeds := WaterIn(s.blocks, Cube(w, p, SPONGE_REACH));
      WaterBefore(w, sims, p, s, m, slack, q);
      EditReaches(w, sims, m, q, AIR, t);
      ConfinedTrans(w, sims, Soak(p), s, m, t, slack, seeds, {q}, seeds);
    }
  }

  lemma StaysEmpty(w: World, sims: set<Simulator>, p: int, m: State, q: int, t: State)
    requires 0 <= p < |m.blocks| && m.blocks[p] == SPONGE && q in Cube(w, p, SPONGE_REACH)
    requires 0 <= q < |m.blocks| && IsWater(m.blocks[q])
    requires EditOutcome(w, sims, m, q, AIR, t)
    ensures !IsWater(t.blocks[q]) && t.blocks[p] == SPONGE
  {
    hide Handled, CalmlyEvolve, DefectsShrink, QueuesGrow, PaidWrites, Gap, Unsettled, Firm, w.EdgeCell, w.Plane, Cube;
    CubeSymmetric(w, p, q, SPONGE_REACH);
    var m' := m.Written(q, AIR);
    assert CellChange(w, Cascade, m', t, q) && CellChange(w, Cascade, m', t, p);
    assert m'.blocks[p] == SPONGE;
  }

  /** State t has come about from s by soaking up cells around p; water taken was there in s. */
  ghost predicate Soaked(w: World, sims: set<Simulator>, p: int, s: State, t: State) {
    && 0 <= p < |s.blocks| && s.blocks[p] == SPONGE
    && (exists slack :: Evolves(w, sims, Soak(p), s, t, slack))
    && Confined(w, sims, s.blocks, t.blocks, WaterIn(s.blocks, Cube(w, p, SPONGE_REACH)))
  }

  lemma SoakedNothing(w: World, sims: set<Simulator>, p: int, s: State)
    requires 0 <= p < |s.blocks| && s.blocks[p] == SPONGE
    ensures Soaked(w, sims, p, s, s)
  {
    hide Evolves, Confined, Cube;
    EvolvesRefl(w, sims, Soak(p), s);
    ConfinedRefl(w, sims, s.blocks, WaterIn(s.blocks, Cube(w, p, SPONGE_REACH)));
  }

  lemma SoakedMore(w: World, sims: set<Simulator>, p: int, s: State, m: State, q: int, t: State)
    requires Soaked(w, sims, p, s, m) && q in Cube(w, p, SPONGE_REACH) && 0 <= q < |m.blocks|
    requires if IsWater(m.blocks[q]) then EditOutcome(w, sims, m, q, AIR, t) else t == m
    requires Evolves(w, sims, Soak(p), m, t, 2)
    ensures Soaked(w, sims, p, s, t)
  {
    hide Evolves, EditOutcome, Confined, Cube;
    var slack :| Evolves(w, sims, Soak(p), s, m, slack);
    SoakReaches(w, sims, p, s, m, slack, q, t);
    EvolvesTrans(w, sims, Soak(p), s, m, t, slack, 2);
  }

  lemma SoakedReaches(w: World, sims: set<Simulator>, p: int, s: State, t: State)
    requires Soaked(w, sims, p, s, t)
    ensures Confined(w, sims, s.blocks, t.blocks, WaterIn(s.blocks, Cube(w, p, SPONGE_REACH)))
  {
    hide Evolves, Confined, Cube;
  }

  // Removing a sponge.

  lemma RefillStep(w: World, sims: set<Simulator>, s: State, cells: set<int>, m: State, i: int, t: State)
    requires Evolves(w, sims, Cascade, s, m, 0) && WaterSimulator in sims
    requires Refilled(w, cells, s, m)
    requires 0 <= i < |m.blocks|
    requires Evolves(w, sims, Cascade, m, t, 0)
    requires WaterHandled(w, m.blocks[i], m.blocks[i], i, m, t)
    ensures Evolves(w, sims, Cascade, s, t, 0)
    ensures Refilled(w, cells + {i}, s, t)
  {
    hide CalmlyEvolve, Grounded, Unsettled, ValidQueues, PaidWrites, Firm, w.EdgeCell, w.Plane, Cube, SpongeNear;
    EvolvesTrans(w, sims, Cascade, s, m, t, 0, 0);
    RefilledStays(w, sims, Cascade, cells, s, m, t, 0);
    assert CellChange(w, Cascade, m, t, i);
    assert !Gap(w, t.blocks, i);
  }

  /** One more cell has been looked at. */
  lemma RefillReaches(w: World, sims: set<Simulator>, p: int, s: State, m: State, i: int, t: State)
    requires Evolves(w, sims, Cascade, s, m, 0) && i in Cube(w, p, BREAK_REACH) && 0 <= i < |m.blocks|
    requires Confined(w, sims, s.blocks, m.blocks, GapsIn(w, s.blocks, Cube(w, p, BREAK_REACH)))
    requires Confined(w, sims, m.blocks, t.blocks, Seeds(w, m.blocks, i, m.blocks[i], m.blocks[i]))
    ensures Confined(w, sims, s.blocks, t.blocks, GapsIn(w, s.blocks, Cube(w, p, BREAK_REACH)))
  {
    hide Evolves, Confined, Cube, Gap, w.EdgeCell;
    var seeds := GapsIn(w, s.blocks, Cube(w, p, BREAK_REACH));
    ConfinedTrans(w, sims, Cascade, s, m, t, 0, seeds, Seeds(w, m.blocks, i, m.blocks[i], m.blocks[i]), seeds);
  }

  lemma NotGapStays(w: World, sims: set<Simulator>, s: State, i: int, t: State)
    requires Evolves(w, sims, Cascade, s, t, 0) && WaterSimulator in sims
    ensures !Gap(w, s.blocks, i) ==> !Gap(w, t.blocks, i)
  {
    hide CellsEvolve, CalmlyEvolve, Grounded, Unsettled, QueuesGrow, PaidWrites, Gap;
  }

  lemma GapFacts(w: World, b: seq<byte>, i: int)
    requires 0 <= i < |b| == w.Size()
    ensures w.EdgeCell(i) <==> var p := w.Position(i); w.Edge(p.x, p.y, p.z)
    ensures Gap(w, b, i) <==> b[i] == AIR && w.EdgeCell(i) && !SpongeNear(w, b, i)
  {
    hide w.Size, w.Position, Cube;
  }

  lemma FloodStarts(plane: nat, b: seq<byte>, p: int)
    requires 0 <= p < |b| && b[p] == AIR
    ensures Potential(plane, b[p := ACTIVE_WATER]) < Potential(plane, b)
    ensures Grounded(plane, b) ==> Grounded(plane, b[p := ACTIVE_WATER])
  {
    PotentialUpdate(plane, b, p, ACTIVE_WATER);
    if Grounded(plane, b) {
      GroundedWrite(plane, b, p, ACTIVE_WATER);
    }
  }

  lemma EmptyingStarts(plane: nat, b: seq<byte>, p: int)
    requires 0 <= p < |b| && IsWater(b[p])
    ensures Potential(plane, b[p := AIR]) == Potential(plane, b) + 1
    ensures Grounded(plane, b) ==> Grounded(plane, b[p := AIR])
  {
    PotentialUpdate(plane, b, p, AIR);
    if Grounded(plane, b) {
      GroundedWrite(plane, b, p, AIR);
    }
  }

  lemma NothingDry(b: seq<byte>)
    ensures Dried({}, b)
  {
  }

  lemma NothingRefilled(w: World, s: State)
    ensures Refilled(w, {}, s, s)
  {
  }
}
