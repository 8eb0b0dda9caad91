/** What physics adds to the fluid queues, and when it marks the level as changed. */
module Ledgers {
  import opened Blocks
  import opened UpdateQueues
  import opened Geometry
  import opened Columns
  import opened Cubes
  import opened Evolution
  import opened Shafts
  import opened Reach
  import opened Writes
  import opened Sponges
  import opened Runs
  import opened Laws

  /** The number of entries in both queues. */
  function Load(s: State): nat {
    |s.water| + |s.lava|
  }

  /** The books of a piece of physics. A level that is written to has to be saved. At most seven
      entries are queued for each cell written, and `extra` besides; and no queue is thrown away if all
      of them, with those that were there, stay below 2^30. */
  ghost predicate Ledger(s: State, t: State, extra: nat) {
    && s.writes <= t.writes && s.drops <= t.drops
    && (s.dirty || s.writes < t.writes ==> t.dirty)
    && Load(t) <= Load(s) + 7 * (t.writes - s.writes) + extra
    && (Load(s) + 7 * (t.writes - s.writes) + extra <= 1073741823 ==> t.drops == s.drops)
  }

  lemma LedgerRefl(s: State)
    ensures Ledger(s, s, 0)
  {
  }

  lemma LedgerTrans(s: State, m: State, t: State, a: nat, b: nat)
    requires Ledger(s, m, a) && Ledger(m, t, b)
    ensures Ledger(s, t, a + b)
  {
  }

  lemma LedgerMore(s: State, t: State, a: nat, b: nat)
    requires Ledger(s, t, a) && a <= b
    ensures Ledger(s, t, b)
  {
  }

  lemma LedgerQueued(s: State, p: int, t: State)
    requires WaterQueued(s, p, t) || LavaQueued(s, p, t)
    ensures Ledger(s, t, 1)
  {
  }

  /** How many entries the update of one cell queues by itself: one for fluid, and one for each cell of
      the 7 by 7 by 7 cube around a sponge that is removed. */
  function UpdateCost(oldBlock: byte, v: byte): nat {
    (if IsWater(v) || IsLava(v) then 1 else 0) + SpongeCost(oldBlock, v)
  }

  function SpongeCost(oldBlock: byte, v: byte): nat {
    if oldBlock == SPONGE && v != SPONGE then 343 else 0
  }

  /** The share of one simulator in it. */
  function SimulatorCost(simulator: Simulator, oldBlock: byte, v: byte): nat {
    match simulator
    case WaterSimulator => (if IsWater(v) then 1 else 0) + SpongeCost(oldBlock, v)
    case LavaSimulator => if IsLava(v) then 1 else 0
    case SandSimulator => 0
  }

  function CostOf(done: set<Simulator>, oldBlock: byte, v: byte): nat {
    (if WaterSimulator in done then SimulatorCost(WaterSimulator, oldBlock, v) else 0)
    + (if LavaSimulator in done then SimulatorCost(LavaSimulator, oldBlock, v) else 0)
  }

  lemma NextCost(done: set<Simulator>, simulator: Simulator, oldBlock: byte, v: byte)
    requires simulator !in done
    ensures CostOf(done + {simulator}, oldBlock, v)
         == CostOf(done, oldBlock, v) + SimulatorCost(simulator, oldBlock, v)
  {
  }

  lemma CostAtMost(done: set<Simulator>, oldBlock: byte, v: byte)
    ensures CostOf(done, oldBlock, v) <= UpdateCost(oldBlock, v) <= 1 + SpongeCost(oldBlock, v)
  {
  }

  /** A write, the update of the written cell and those of its six neighbours. */
  lemma LedgerEdit(s: State, p: int, v: byte, m: State, t: State, cost: nat)
    requires 0 <= p < |s.blocks| && cost <= 1 + SpongeCost(s.blocks[p], v)
    requires Ledger(s.Written(p, v), m, cost) && Ledger(m, t, 6)
    ensures Ledger(s, t, SpongeCost(s.blocks[p], v)) && t.dirty
  {
  }

  /** Updates of at most two neighbours. */
  lemma LedgerTwo(s: State, m: State, t: State)
    requires m == s || Ledger(s, m, 1)
    requires t == m || Ledger(m, t, 1)
    ensures Ledger(s, t, 2)
  {
  }

  lemma NoCost(s: State, oldBlock: byte, v: byte)
    ensures CostOf({}, oldBlock, v) == 0 && Ledger(s, s, CostOf({}, oldBlock, v))
  {
  }

  /** The cells around a removed sponge that have been looked at, n so far. */
  ghost predicate Refilling(w: World, sims: set<Simulator>, p: int, cells: set<int>, n: nat, s: State, t: State) {
    && Evolves(w, sims, Cascade, s, t, 0)
    && Refilled(w, cells, s, t)
    && Confined(w, sims, s.blocks, t.blocks, GapsIn(w, s.blocks, Cube(w, p, BREAK_REACH)))
    && Ledger(s, t, n)
  }

  lemma NothingRefilling(w: World, sims: set<Simulator>, p: int, s: State)
    ensures Refilling(w, sims, p, {}, 0, s, s)
  {
    hide Evolves, Refilled, Confined, GapsIn, Cube;
    EvolvesRefl(w, sims, Cascade, s);
    NothingRefilled(w, s);
    ConfinedRefl(w, sims, s.blocks, GapsIn(w, s.blocks, Cube(w, p, BREAK_REACH)));
  }

  lemma RefillingMore(w: World, sims: set<Simulator>, p: int, cells: set<int>, a: nat, b: nat, s: State, t: State)
    requires Refilling(w, sims, p, cells, a, s, t) && a <= b
    ensures Refilling(w, sims, p, cells, b, s, t)
  {
    hide Evolves, Refilled, Confined, GapsIn, Cube;
  }

  /** One more cell around a removed sponge. */
  lemma RefillingStep(w: World, sims: set<Simulator>, p: int, cells: set<int>, n: nat, s: State, m: State, i: int,
                      t: State)
    requires Refilling(w, sims, p, cells, n, s, m) && WaterSimulator in sims
    requires i in Cube(w, p, BREAK_REACH) && 0 <= i < |m.blocks|
    requires Evolves(w, sims, Cascade, m, t, 0) && WaterHandled(w, m.blocks[i], m.blocks[i], i, m, t)
    requires Confined(w, sims, m.blocks, t.blocks, Seeds(w, m.blocks, i, m.blocks[i], m.blocks[i]))
    requires Ledger(m, t, SimulatorCost(WaterSimulator, m.blocks[i], m.blocks[i]))
    ensures Refilling(w, sims, p, cells + {i}, n + 1, s, t)
  {
    hide Evolves, Refilled, WaterHandled, Confined, GapsIn, Cube, Seeds;
    RefillReaches(w, sims, p, s, m, i, t);
    RefillStep(w, sims, s, cells, m, i, t);
  }

  lemma AllRefilled(w: World, sims: set<Simulator>, p: int, cells: set<int>, n: nat, s: State, t: State)
    requires Refilling(w, sims, p, cells, n, s, t) && n <= 343
    ensures Evolves(w, sims, Cascade, s, t, 0) && Refilled(w, cells, s, t) && Ledger(s, t, 343)
    ensures Confined(w, sims, s.blocks, t.blocks, GapsIn(w, s.blocks, Cube(w, p, BREAK_REACH)))
  {
    hide Evolves, Refilled, Confined, GapsIn, Cube;
  }

  lemma RefillingSizes(w: World, sims: set<Simulator>, p: int, cells: set<int>, n: nat, s: State, t: State)
    requires Refilling(w, sims, p, cells, n, s, t)
    ensures |s.blocks| == |t.blocks|
    ensures Potential(w.Plane(), t.blocks) <= Potential(w.Plane(), s.blocks)
  {
    hide Evolves, Refilled, Confined, GapsIn, Cube, Potential, w.Plane;
    Consequences(w, sims, Cascade, s, t, 0);
  }

  /** One more cell has been swept. */
  lemma LedgerSweep(s: State, m: State, t: State, simulator: Simulator, n: nat, v: byte)
    requires Ledger(s, m, if simulator.SandSimulator? then 0 else n)
    requires Ledger(m, t, SimulatorCost(simulator, v, v))
    ensures Ledger(s, t, if simulator.SandSimulator? then 0 else n + 1)
  {
  }

  /** A queue that ticks does not get longer. */
  lemma LedgerAged(s: State, t: State)
    requires t == s.(water := Rest(s.water)) || t == s.(lava := Rest(s.lava))
    ensures Ledger(s, t, 0)
  {
  }

  lemma LedgerDrops(s: State, t: State, extra: nat)
    requires Ledger(s, t, extra)
    ensures s.drops <= t.drops
  {
  }

  // ------------------------------------------------------------------
  // How much room the queues need.

  lemma WeightAtMost(w: World, p: nat, v: byte)
    requires p < w.Size()
    ensures Weight(w.Plane(), p, v) <= 3 * w.height
  {
    hide w.Index, w.Plane, w.Size;
    var q := w.Position(p);
    PositionIndex(w, p);
    RiseIsHeight(w, q.x, q.y, q.z);
  }

  /** A level has a potential of at most two per cell and three times its height per grain. */
  lemma {:induction false} PotentialAtMost(w: World, b: seq<byte>)
    requires |b| <= w.Size()
    ensures Potential(w.Plane(), b) <= 2 * |b| + 3 * w.height * Grains(b)
  {
    hide w.Plane, w.Size, Weight, Grains;
    if b == [] {
      NonNegative(3 * w.height, Grains(b));
    } else {
      var init, last := b[..|b| - 1], b[|b| - 1];
      PotentialAtMost(w, init);
      GrainsLast(init, last);
      assert b == init + [last];
      LastWeight(w, |b| - 1, last);
      OneMore(3 * w.height, Grains(init));
    }
  }

  lemma OneMore(h: nat, g: nat)
    ensures h * (g + 1) == h * g + h
  {
  }

  lemma GrainsLast(b: seq<byte>, v: byte)
    ensures Grains(b + [v]) == Grains(b) + if IsGrain(v) then 1 else 0
  {
  }

  lemma LastWeight(w: World, p: nat, v: byte)
    requires p < w.Size()
    ensures Weight(w.Plane(), p, v) <= if IsGrain(v) then 3 * w.height else 2
  {
    WeightAtMost(w, p, v);
    hide w.Plane, w.Size;
  }

  /** An edit throws no queue away as long as there is room for seven entries per unit of potential. */
  lemma EditRoom(w: World, sims: set<Simulator>, s: State, p: int, v: byte, t: State)
    requires EditOutcome(w, sims, s, p, v, t) && |s.blocks| == w.Size()
    requires 0 <= p < |s.blocks| && Ledger(s, t, SpongeCost(s.blocks[p], v))
    ensures Load(s) + 7 * (Potential(w.Plane(), s.blocks) + 6 * w.height + 251) + 343 <= 1073741823 ==>
              t.drops == s.drops
    ensures !SpongeEdit(s.blocks[p], v) &&
            Load(s) + 7 * (Potential(w.Plane(), s.blocks[p := v]) + 1) <= 1073741823 ==>
              t.drops == s.drops
  {
    hide EditOutcome, w.Plane, w.Size, Potential, Weight;
    EditWriteBound(w, sims, s, p, v, t);
    WeightAtMost(w, p, v);
  }

  /** The same for physics without edits. */
  lemma DriftRoom(w: World, sims: set<Simulator>, s: State, t: State)
    requires Drifts(w, sims, s, t) && Ledger(s, t, 0)
    ensures Load(s) + 7 * Potential(w.Plane(), s.blocks) <= 1073741823 ==> t.drops == s.drops
  {
    hide Drifts, w.Plane, Potential;
    DriftWrites(w, sims, s, t);
  }

  /** And for registering a simulator. */
  lemma CascadeRoom(w: World, sims: set<Simulator>, s: State, t: State, extra: nat)
    requires Evolves(w, sims, Cascade, s, t, 0) && Ledger(s, t, extra)
    ensures PaidWrites(w, s, t, 0)
    ensures Load(s) + 7 * Potential(w.Plane(), s.blocks) + extra <= 1073741823 ==> t.drops == s.drops
  {
    hide CellsEvolve, CalmlyEvolve, DefectsShrink, FloodsOn, QueuesGrow, WaterFed, LavaFed, GrainsEvolve, w.Plane,
         Potential;
  }

  /** The three simulators registered one after the other; that of sand queues nothing. */
  lemma EnabledRoom(w: World, s: State, a: State, b: State, t: State, size: nat)
    requires Ledger(s, a, size) && Ledger(a, b, size) && Ledger(b, t, 0)
    requires PaidWrites(w, s, a, 0) && PaidWrites(w, a, b, 0) && PaidWrites(w, b, t, 0)
    ensures Ledger(s, t, 2 * size)
    ensures Load(s) + 7 * Potential(w.Plane(), s.blocks) + 2 * size <= 1073741823 ==> t.drops == s.drops
  {
    hide w.Plane, Potential;
  }
}
