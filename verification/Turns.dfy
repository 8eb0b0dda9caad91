/** The turns that the registered simulators take in one update of the level, and what they come to when
    at most one of the fluids has something due. */
module Turns {
  import opened Geometry
  import opened UpdateQueues
  import opened Evolution
  import opened Ticks
  import opened Runs
  import opened Resting

  /** No entry comes due at the next tick. */
  ghost predicate NoneDueNow(queue: seq<BlockUpdate>) {
    forall e :: e in queue ==> e.ticks != 1
  }

  function Other(fluid: Mode): Mode {
    if fluid.SpreadsWater() then LAVA_FLOW else WATER_FLOW
  }

  ghost predicate Waiting(simulator: Simulator, s: State) {
    match simulator
    case WaterSimulator => NoneDueNow(s.water)
    case LavaSimulator => NoneDueNow(s.lava)
    case SandSimulator => true
  }

  /** What a tick of a fluid's simulator does: if all its entries hold the fluid and nothing can fall, the
      fluid spreads from all that are due. What it queues for the other one is not due yet. */
  ghost predicate FluidTicked(w: World, sims: set<Simulator>, fluid: Mode, s: State, t: State) {
    && (Calm(w, sims, s.blocks) && EntriesHold(fluid, s) ==>
          Spread(w, fluid, s.blocks, t.blocks, AllTargets(w, Due(QueueOf(fluid, s)))))
    && (NoneDueNow(QueueOf(Other(fluid), s)) ==> NoneDueNow(QueueOf(Other(fluid), t)))
  }

  /** What a tick of one simulator does; with nothing due, it only makes its queue older. */
  ghost predicate Ticked(w: World, sims: set<Simulator>, simulator: Simulator, s: State, t: State) {
    && (Waiting(simulator, s) ==> t == Aged({simulator}, s))
    && (simulator.WaterSimulator? ==> FluidTicked(w, sims, WATER_FLOW, s, t))
    && (simulator.LavaSimulator? ==> FluidTicked(w, sims, LAVA_FLOW, s, t))
  }

  lemma {:induction false} NothingDueNow(queue: seq<BlockUpdate>)
    requires NoneDueNow(queue)
    ensures Due(queue) == []
  {
    if queue != [] {
      assert queue[|queue| - 1] in queue;
      NothingDueNow(queue[..|queue| - 1]);
    }
  }

  lemma FluidTicks(w: World, fluid: Mode, sims: set<Simulator>, s: State, t: State, n: nat)
    requires IsFlow(fluid) && Evolves(w, sims, fluid, TakenOut(fluid, s), t, 0)
    requires StoppedAt(fluid, t.blocks, Due(QueueOf(fluid, s)), n)
    requires AllSpread(w, sims, fluid, s.blocks, t.blocks, Due(QueueOf(fluid, s)), n)
    requires n == 0 ==> t == TakenOut(fluid, s)
    ensures Ticked(w, sims, SourceOf(fluid), s, t)
  {
    hide Evolves, Spread, AllSpread, AllTargets, Calm, EntriesHold;
    if Waiting(SourceOf(fluid), s) {
      NothingDueNow(QueueOf(fluid, s));
    }
    if Calm(w, sims, s.blocks) && EntriesHold(fluid, s) {
      AllFlow(w, fluid, sims, s, t, Due(QueueOf(fluid, s)), n);
    }
    NewNotDue(w, fluid, sims, TakenOut(fluid, s), t);
  }

  lemma NewNotDue(w: World, fluid: Mode, sims: set<Simulator>, s: State, t: State)
    requires Evolves(w, sims, fluid, s, t, 0)
    ensures NoneDueNow(QueueOf(Other(fluid), s)) ==> NoneDueNow(QueueOf(Other(fluid), t))
  {
    hide CellsEvolve, CalmlyEvolve, DefectsShrink, FloodsOn, QueuesGrow, PaidWrites, GrainsEvolve, Floodable, Calm,
         w.Plane;
  }

  lemma SandTicks(w: World, sims: set<Simulator>, s: State)
    ensures Ticked(w, sims, SandSimulator, s, s)
  {
  }

  // ------------------------------------------------------------------
  // All turns of one update.

  ghost predicate AllWaiting(sims: set<Simulator>, s: State) {
    && (WaterSimulator in sims ==> NoneDueNow(s.water))
    && (LavaSimulator in sims ==> NoneDueNow(s.lava))
  }

  /** Only this fluid has something due, all its entries hold it, and nothing can fall. */
  ghost predicate OnlyDue(w: World, sims: set<Simulator>, fluid: Mode, s: State) {
    && SourceOf(fluid) in sims && Calm(w, sims, s.blocks) && EntriesHold(fluid, s)
    && (SourceOf(Other(fluid)) in sims ==> NoneDueNow(QueueOf(Other(fluid), s)))
  }

  /** Once the simulators in `done` have had their turns: with nothing due, the queues are older and all
      else is as it was, and with only one fluid due, that fluid has spread from all due cells. */
  ghost predicate Turn(w: World, sims: set<Simulator>, done: set<Simulator>, s: State, t: State) {
    && (AllWaiting(sims, s) ==> t == Aged(done, s))
    && FluidTurn(w, sims, WATER_FLOW, done, s, t)
    && FluidTurn(w, sims, LAVA_FLOW, done, s, t)
  }

  ghost predicate FluidTurn(w: World, sims: set<Simulator>, fluid: Mode, done: set<Simulator>, s: State, t: State) {
    OnlyDue(w, sims, fluid, s) ==>
      if SourceOf(fluid) in done then
        && Spread(w, fluid, s.blocks, t.blocks, AllTargets(w, Due(QueueOf(fluid, s))))
        && (SourceOf(Other(fluid)) in sims - done ==> NoneDueNow(QueueOf(Other(fluid), t)))
      else t == Aged(done, s)
  }

  lemma NoTurn(w: World, sims: set<Simulator>, s: State)
    ensures Turn(w, sims, {}, s, s)
  {
    hide Calm, EntriesHold;
  }

  lemma FluidTurnStep(w: World, sims: set<Simulator>, fluid: Mode, done: set<Simulator>, simulator: Simulator,
                      s: State, m: State, t: State)
    requires IsFlow(fluid) && simulator in sims && simulator !in done
    requires FluidTurn(w, sims, fluid, done, s, m) && Ticked(w, sims, simulator, m, t)
    ensures FluidTurn(w, sims, fluid, done + {simulator}, s, t)
  {
    hide Calm, Spread, AllTargets, NoneDueNow;
    AgedTwice(done, simulator, s);
  }

  lemma TurnStep(w: World, sims: set<Simulator>, done: set<Simulator>, simulator: Simulator, s: State, m: State,
                 t: State)
    requires simulator in sims && simulator !in done
    requires Turn(w, sims, done, s, m) && Ticked(w, sims, simulator, m, t)
    ensures Turn(w, sims, done + {simulator}, s, t)
  {
    hide FluidTurn, FluidTicked, NoneDueNow;
    FluidTurnStep(w, sims, WATER_FLOW, done, simulator, s, m, t);
    FluidTurnStep(w, sims, LAVA_FLOW, done, simulator, s, m, t);
    AgedTwice(done, simulator, s);
  }
}
