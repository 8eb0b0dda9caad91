/** A level and its block physics: the cell array, the registered simulators, and the
    mutually recursive updates that a cell write sets off. */
module Levels {
  import opened Blocks
  import opened Geometry
  import opened Columns
  import opened Cubes
  import opened UpdateQueues
  import opened Evolution
  import opened Shafts
  import opened Reach
  import opened Writes
  import opened Notifying
  import opened Falling
  import opened Sponges
  import opened Ledgers
  import opened Ticks
  import opened Runs
  import opened Laws
  import opened Resting
  import opened Turns
  import opened SwapRemoval

  datatype EnvConfig = EnvConfig(edgeBlock: byte, edgeHeight: int, sideOffset: int)

  class Level {
    const width: nat
    const height: nat
    const length: nat
    const blocks: array<byte>
    var dirty: bool
    var envConfig: EnvConfig
    var simulators: seq<Simulator>

    /** The queues of the level's water and lava simulator. */
    const waterQueue: UpdateQueue
    const lavaQueue: UpdateQueue

    /** How many cells have been written so far. */
    ghost var writes: nat

    function W(): World
      reads this`envConfig
    {
      World(width, height, length, envConfig.edgeBlock, envConfig.edgeHeight, envConfig.sideOffset)
    }

    ghost function Sims(): set<Simulator>
      reads this`simulators
    {
      set s | s in simulators
    }

    ghost function S(): State
      reads this`writes, this`dirty, blocks, waterQueue, lavaQueue
    {
      State(blocks[..], waterQueue.updates, lavaQueue.updates, waterQueue.drops + lavaQueue.drops, writes, dirty)
    }

    /** The array has the size of the level, no simulator is registered twice, the queues hold
        indices of it, and, once grains can fall, each has a floor that keeps it from falling out
        of the level. */
    ghost predicate Valid()
      reads this`simulators, this`envConfig, this`writes, this`dirty, blocks, waterQueue, lavaQueue
    {
      && blocks.Length == W().Size()
      && waterQueue != lavaQueue
      && Distinct(simulators)
      && ValidQueues(S())
      && (SandSimulator in Sims() ==> Grounded(W().Plane(), blocks[..]))
    }

    /** A new level is all air, surrounded by water up to half its height. */
    constructor (width: nat, height: nat, length: nat)
      ensures Valid() && fresh(blocks) && fresh(waterQueue) && fresh(lavaQueue)
      ensures this.width == width && this.height == height && this.length == length
      ensures envConfig == EnvConfig(ACTIVE_WATER, height / 2, -2)
      ensures forall i :: 0 <= i < blocks.Length ==> blocks[i] == AIR
      ensures simulators == [] && waterQueue.updates == [] && lavaQueue.updates == []
    {
      this.width, this.height, this.length := width, height, length;
      blocks := new byte[width * height * length](_ => AIR);
      dirty := true;
      envConfig := EnvConfig(ACTIVE_WATER, height / 2, -2);
      simulators := [];
      waterQueue := new UpdateQueue();
      lavaQueue := new UpdateQueue();
      writes := 0;
    }

    function GetBlock(x: int, y: int, z: int): byte
      requires blocks.Length == W().Size() && 0 <= x && 0 <= y && 0 <= z
      reads this`envConfig, blocks
    {
      if x < width && y < height && z < length then
        IndexPosition(W(), x, y, z);
        blocks[W().Index(x, y, z)]
      else AIR
    }

    // ----------------------------------------------------------------
    // Setting a cell and notifying the simulators.

    /** The potential right after a write; the measure of the cascade that the write starts. */
    ghost function PotentialAfter(x: int, y: int, z: int, block: byte): nat
      requires blocks.Length == W().Size()
      reads this`envConfig, blocks
    {
      if W().Inside(x, y, z) then
        IndexPosition(W(), x, y, z);
        Potential(W().Plane(), blocks[..][W().Index(x, y, z) := block])
      else 0
    }

    ghost predicate SpongeEditAt(x: int, y: int, z: int, block: byte)
      requires blocks.Length == W().Size()
      reads this`envConfig, blocks
    {
      W().Inside(x, y, z) &&
      (IndexPosition(W(), x, y, z);
      SpongeEdit(blocks[W().Index(x, y, z)], block))
    }

    ghost predicate KeepsGround(x: int, y: int, z: int, block: byte)
      requires blocks.Length == W().Size()
      reads this`simulators, this`envConfig, blocks
    {
      SandSimulator in Sims() && W().Inside(x, y, z) ==>
        (IndexPosition(W(), x, y, z);
        Grounded(W().Plane(), blocks[..][W().Index(x, y, z) := block]))
    }

    method SetBlock(x: int, y: int, z: int, block: byte)
      requires Valid() && 0 <= x && 0 <= y && 0 <= z
      requires KeepsGround(x, y, z, block)
      modifies this`dirty, this`writes, blocks, waterQueue, lavaQueue
      ensures Valid()
      ensures W().Inside(x, y, z) ==> EditOutcome(W(), Sims(), old(S()), W().Index(x, y, z), block, S())
      ensures W().Inside(x, y, z) ==>
                Ledger(old(S()), S(), SpongeCost(old(S()).blocks[W().Index(x, y, z)], block)) && dirty
      ensures Load(old(S())) + 7 * (Potential(W().Plane(), old(S()).blocks) + 6 * height + 251) + 343 <= 1073741823 ==>
                S().drops == old(S()).drops
      ensures W().Inside(x, y, z) && simulators == [] ==> S() == old(S()).Written(W().Index(x, y, z), block)
      ensures !W().Inside(x, y, z) ==> S() == old(S())
      decreases if SpongeEditAt(x, y, z, block) then 1 else 0, PotentialAfter(x, y, z, block), 8
    {
      var w := W();
      hide Evolves, EditOutcome, Handled, Grounded, Potential, Unsettled, Gap, ValidEntries, EditContained, Seeds,
           Confined, Steady, Grains, Ledger, UpdateCost, w.Index, w.Size, w.Plane, Weight;
      if x < width && y < height && z < length {
        IndexPosition(w, x, y, z);
        var index := w.Index(x, y, z);
        var oldBlock := blocks[index];
        ghost var before := S();
        dirty := true;
        blocks[index] := block;
        writes := writes + 1;
        assert S() == before.Written(index, block);
        RunSimulators(block, oldBlock, index);
        SimulatorsRan(w, Sims(), before, index, block, S());
        ghost var t := S();
        EditBudget(w, Sims(), before, index, block, t);
        UpdateNeighbours(x, y, z);
        EditIsContained(w, Sims(), EditMode(w, Sims(), before.Written(index, block).blocks, index, oldBlock, block),
                        before, index, block, t, S(), SlackOf(w.Plane(), Sims(), index, oldBlock, block));
        NeighboursUpdated(w, Sims(), before, index, block, t, S());
        CostAtMost(Sims(), oldBlock, block);
        LedgerEdit(before, index, block, t, S(), CostOf(Sims(), oldBlock, block));
        EditRoom(w, Sims(), before, index, block, S());
      }
    }

    /** The six calls of UpdateBlock at the end of SetBlock. */
    method UpdateNeighbours(x: int, y: int, z: int)
      requires Valid() && W().Inside(x, y, z)
      modifies this`dirty, this`writes, blocks, waterQueue, lavaQueue
      ensures Valid()
      ensures Evolves(W(), Sims(), Cascade, old(S()), S(), 0)
      ensures NeighboursAwake(W(), Sims(), old(S()), S(), W().Index(x, y, z))
      ensures SandSimulator in Sims() ==>
                !Unsettled(W().Plane(), S().blocks, W().Index(x, y, z) + W().Plane())
      ensures Confined(W(), Sims(), old(S()).blocks, S().blocks, {W().Index(x, y, z)})
      ensures Ledger(old(S()), S(), 6)
      ensures simulators == [] ==> S() == old(S())
      decreases 0, Potential(W().Plane(), blocks[..]), 7
    {
      var w := W();
      hide Distinct, ValidQueues, Grounded, Evolves, Potential, Unsettled, AwakeAt, NeighboursAwake, Confined, Ledger,
           w.Index, w.Size, w.Plane;
      ghost var s := S();
      UpdateAlongX(x, y, z);
      ghost var a := S();
      Consequences(w, Sims(), Cascade, s, a, 0);
      UpdateAlongY(x, y, z);
      ghost var b := S();
      CascadeTrans(w, Sims(), s, a, b);
      ConfinedTrans(w, Sims(), Cascade, s, a, b, 0, {w.Index(x, y, z)}, {w.Index(x, y, z)}, {w.Index(x, y, z)});
      UpdateAlongZ(x, y, z);
      ghost var c := S();
      ConfinedTrans(w, Sims(), Cascade, s, b, c, 0, {w.Index(x, y, z)}, {w.Index(x, y, z)}, {w.Index(x, y, z)});
      CascadeTrans(w, Sims(), a, b, c);
      CascadeTrans(w, Sims(), s, a, c);
      LedgerTrans(s, a, b, 2, 2);
      LedgerTrans(s, b, c, 4, 2);
      EvolvesRefl(w, Sims(), Cascade, s);
      EvolvesRefl(w, Sims(), Cascade, c);
      AwakeWithin(w, Sims(), s, s, a, c, x + 1, y, z);
      AwakeWithin(w, Sims(), s, s, a, c, x - 1, y, z);
      AwakeWithin(w, Sims(), s, a, b, c, x, y + 1, z);
      AwakeWithin(w, Sims(), s, a, b, c, x, y - 1, z);
      AwakeWithin(w, Sims(), s, b, c, c, x, y, z + 1);
      AwakeWithin(w, Sims(), s, b, c, c, x, y, z - 1);
      NeighboursOf(w, Sims(), s, c, x, y, z);
      AboveSettled(w, Sims(), s, c, x, y, z);
    }

    /** The neighbours along x. */
    method UpdateAlongX(x: int, y: int, z: int)
      requires Valid() && W().Inside(x, y, z)
      modifies this`dirty, this`writes, blocks, waterQueue, lavaQueue
      ensures Valid()
      ensures Evolves(W(), Sims(), Cascade, old(S()), S(), 0)
      ensures AwakeAt(W(), Sims(), old(S()), S(), x + 1, y, z) && AwakeAt(W(), Sims(), old(S()), S(), x - 1, y, z)
      ensures Confined(W(), Sims(), old(S()).blocks, S().blocks, {W().Index(x, y, z)})
      ensures Ledger(old(S()), S(), 2)
      ensures simulators == [] ==> S() == old(S())
      decreases 0, Potential(W().Plane(), blocks[..]), 6
    {
      var w := W();
      hide Valid, Evolves, Potential, Awake, Confined, UpdateConfined, Ledger, w.Index, w.Size, w.Plane;
      ghost var s := S();
      EvolvesRefl(w, Sims(), Cascade, s);
      ConfinedRefl(w, Sims(), s.blocks, {w.Index(x, y, z)});
      if x < width - 1 {
        UpdateBlock(x + 1, y, z);
        CascadeTrans(w, Sims(), s, s, S());
        NeighbourConfined(w, Sims(), s.blocks, S().blocks, x, y, z, x + 1, y, z);
      }
      ghost var m := S();
      LedgerRefl(m);
      EvolvesRefl(w, Sims(), Cascade, m);
      if x > 0 {
        UpdateBlock(x - 1, y, z);
        CascadeTrans(w, Sims(), s, m, S());
        NeighbourConfined(w, Sims(), m.blocks, S().blocks, x, y, z, x - 1, y, z);
        ConfinedTrans(w, Sims(), Cascade, s, m, S(), 0, {w.Index(x, y, z)}, {w.Index(x, y, z)}, {w.Index(x, y, z)});
      }
      LedgerTwo(s, m, S());
      EvolvesRefl(w, Sims(), Cascade, S());
      AwakeWithin(w, Sims(), s, s, m, S(), x + 1, y, z);
      AwakeWithin(w, Sims(), s, m, S(), S(), x - 1, y, z);
    }

    /** The neighbours along y. */
    method UpdateAlongY(x: int, y: int, z: int)
      requires Valid() && W().Inside(x, y, z)
      modifies this`dirty, this`writes, blocks, waterQueue, lavaQueue
      ensures Valid()
      ensures Evolves(W(), Sims(), Cascade, old(S()), S(), 0)
      ensures AwakeAt(W(), Sims(), old(S()), S(), x, y + 1, z) && AwakeAt(W(), Sims(), old(S()), S(), x, y - 1, z)
      ensures Confined(W(), Sims(), old(S()).blocks, S().blocks, {W().Index(x, y, z)})
      ensures Ledger(old(S()), S(), 2)
      ensures simulators == [] ==> S() == old(S())
      decreases 0, Potential(W().Plane(), blocks[..]), 6
    {
      var w := W();
      hide Valid, Evolves, Potential, Awake, Confined, UpdateConfined, Ledger, w.Index, w.Size, w.Plane;
      ghost var s := S();
      EvolvesRefl(w, Sims(), Cascade, s);
      ConfinedRefl(w, Sims(), s.blocks, {w.Index(x, y, z)});
      if y < height - 1 {
        UpdateBlock(x, y + 1, z);
        CascadeTrans(w, Sims(), s, s, S());
        NeighbourConfined(w, Sims(), s.blocks, S().blocks, x, y, z, x, y + 1, z);
      }
      ghost var m := S();
      LedgerRefl(m);
      EvolvesRefl(w, Sims(), Cascade, m);
      if y > 0 {
        UpdateBlock(x, y - 1, z);
        CascadeTrans(w, Sims(), s, m, S());
        NeighbourConfined(w, Sims(), m.blocks, S().blocks, x, y, z, x, y - 1, z);
        ConfinedTrans(w, Sims(), Cascade, s, m, S(), 0, {w.Index(x, y, z)}, {w.Index(x, y, z)}, {w.Index(x, y, z)});
      }
      LedgerTwo(s, m, S());
      EvolvesRefl(w, Sims(), Cascade, S());
      AwakeWithin(w, Sims(), s, s, m, S(), x, y + 1, z);
      AwakeWithin(w, Sims(), s, m, S(), S(), x, y - 1, z);
    }

    /** The neighbours along z. */
    method UpdateAlongZ(x: int, y: int, z: int)
      requires Valid() && W().Inside(x, y, z)
      modifies this`dirty, this`writes, blocks, waterQueue, lavaQueue
      ensures Valid()
      ensures Evolves(W(), Sims(), Cascade, old(S()), S(), 0)
      ensures AwakeAt(W(), Sims(), old(S()), S(), x, y, z + 1) && AwakeAt(W(), Sims(), old(S()), S(), x, y, z - 1)
      ensures Confined(W(), Sims(), old(S()).blocks, S().blocks, {W().Index(x, y, z)})
      ensures Ledger(old(S()), S(), 2)
      ensures simulators == [] ==> S() == old(S())
      decreases 0, Potential(W().Plane(), blocks[..]), 6
    {
      var w := W();
      hide Valid, Evolves, Potential, Awake, Confined, UpdateConfined, Ledger, w.Index, w.Size, w.Plane;
      ghost var s := S();
      EvolvesRefl(w, Sims(), Cascade, s);
      ConfinedRefl(w, Sims(), s.blocks, {w.Index(x, y, z)});
      if z < length - 1 {
        UpdateBlock(x, y, z + 1);
        CascadeTrans(w, Sims(), s, s, S());
        NeighbourConfined(w, Sims(), s.blocks, S().blocks, x, y, z, x, y, z + 1);
      }
      ghost var m := S();
      LedgerRefl(m);
      EvolvesRefl(w, Sims(), Cascade, m);
      if z > 0 {
        UpdateBlock(x, y, z - 1);
        CascadeTrans(w, Sims(), s, m, S());
        NeighbourConfined(w, Sims(), m.blocks, S().blocks, x, y, z, x, y, z - 1);
        ConfinedTrans(w, Sims(), Cascade, s, m, S(), 0, {w.Index(x, y, z)}, {w.Index(x, y, z)}, {w.Index(x, y, z)});
      }
      LedgerTwo(s, m, S());
      EvolvesRefl(w, Sims(), Cascade, S());
      AwakeWithin(w, Sims(), s, s, m, S(), x, y, z + 1);
      AwakeWithin(w, Sims(), s, m, S(), S(), x, y, z - 1);
    }

    method UpdateBlock(x: int, y: int, z: int)
      requires Valid() && W().Inside(x, y, z)
      modifies this`dirty, this`writes, blocks, waterQueue, lavaQueue
      ensures Valid()
      ensures Evolves(W(), Sims(), Cascade, old(S()), S(), 0)
      ensures Awake(W(), Sims(), old(S()), S(), W().Index(x, y, z))
      ensures UpdateConfined(W(), Sims(), old(S()).blocks, S().blocks, W().Index(x, y, z))
      ensures Ledger(old(S()), S(), 1)
      ensures simulators == [] ==> S() == old(S())
      decreases 0, Potential(W().Plane(), blocks[..]), 5
    {
      hide Evolves, Handled, Grounded, Potential, Awake, Confined, UpdateConfined, Seeds, Steady, Unsettled, Grains,
           Orderly, Ledger, UpdateCost, CostOf, W().Index, W().Size, W().Plane, ValidEntries;
      IndexPosition(W(), x, y, z);
      var index := W().Index(x, y, z);
      ghost var s := S();
      RunSimulators(blocks[index], blocks[index], index);
      UpdateSettles(W(), Sims(), s, index, S());
      UpdateReaches(W(), Sims(), s, index, S());
      CostAtMost(Sims(), s.blocks[index], s.blocks[index]);
      LedgerMore(s, S(), CostOf(Sims(), s.blocks[index], s.blocks[index]), 1);
    }

    /** Notifies the registered simulators, in order, that the cell now holds `block`. */
    method RunSimulators(block: byte, oldBlock: byte, index: nat)
      requires Valid() && index < blocks.Length && blocks[index] == block
      modifies this`dirty, this`writes, blocks, waterQueue, lavaQueue
      ensures Valid()
      ensures RanSoFar(W(), Sims(), Sims(), EditMode(W(), Sims(), old(S()).blocks, index, oldBlock, block), oldBlock,
              block,
                       index, old(S()), S())
      ensures Ledger(old(S()), S(), CostOf(Sims(), oldBlock, block))
      ensures simulators == [] ==> S() == old(S())
      decreases if SpongeEdit(oldBlock, block) then 1 else 0, Potential(W().Plane(), blocks[..]), 4
    {
      hide Evolves, Handled, Grounded, Potential, HasFloor, W().Size, W().Plane, ValidEntries, Weight, Confined, Seeds,
           Steady, Unsettled, Grains, Orderly, Ledger, CostOf, SimulatorCost;
      ghost var s := S();
      ghost var mode := EditMode(W(), Sims(), s.blocks, index, oldBlock, block);
      ghost var done: set<Simulator> := {};
      NothingRan(W(), Sims(), mode, oldBlock, block, index, s);
      NoCost(s, oldBlock, block);
      for k := 0 to |simulators|
        invariant Valid()
        invariant done == set i | 0 <= i < k :: simulators[i]
        invariant RanSoFar(W(), Sims(), done, mode, oldBlock, block, index, s, S())
        invariant k == 0 ==> S() == s
        invariant Ledger(s, S(), CostOf(done, oldBlock, block))
      {
        var simulator := simulators[k];
        ghost var m := S();
        Consequences(W(), Sims(), mode, s, m, SlackOf(W().Plane(), done, index, oldBlock, block));
        if IsGrain(block) && simulator.SandSimulator? {
          StillGrounded(W(), s, m, index);
        }
        assert m.blocks == s.blocks ==> m.blocks[index := block] == s.blocks;
        Update(simulator, block, oldBlock, index);
        NextRan(W(), Sims(), done, simulator, mode, oldBlock, block, index, s, m, S());
        NextCost(done, simulator, oldBlock, block);
        LedgerTrans(s, m, S(), CostOf(done, oldBlock, block), SimulatorCost(simulator, oldBlock, block));
        done := done + {simulator};
      }
      assert done == Sims();
    }

    /** Dispatches to one simulator. Only the update of a replaced sponge may be out of date
        by the time it is delivered. */
    method Update(simulator: Simulator, block: byte, oldBlock: byte, index: nat)
      requires Valid() && simulator in simulators && index < blocks.Length
      requires (block == AIR || IsWater(block)) && simulator.WaterSimulator? ==> blocks[index] == block
      requires IsLava(block) && simulator.LavaSimulator? ==> blocks[index] == block || oldBlock == SPONGE
      requires block == SPONGE ==> blocks[index] == SPONGE
      requires Active(simulator, oldBlock, block) ==> blocks[index] == block || SpongeEdit(oldBlock, block)
      requires simulator.SandSimulator? && IsGrain(block) ==>
                 !IsHard(blocks[index]) && HasFloor(W().Plane(), blocks[..], index)
      modifies this`dirty, this`writes, blocks, waterQueue, lavaQueue
      ensures Valid()
      ensures StepRan(W(), Sims(), simulator, oldBlock, block, index, old(S()), S())
      ensures Ledger(old(S()), S(), SimulatorCost(simulator, oldBlock, block))
      decreases if simulator.WaterSimulator? && block == SPONGE && oldBlock != block then 1 else 0,
                if simulator.SandSimulator? && IsGrain(block) then Potential(W().Plane(), blocks[..][index := block])
                else Potential(W().Plane(), blocks[..]), 3
    {
      hide Evolves, Grounded, Potential, HasFloor, W().Size, W().Plane, ValidEntries, Weight, SandHandled, Unsettled,
           Grains, WaterHandled, LavaHandled, Confined, Seeds, Ledger;
      ghost var s := S();
      match simulator
      case WaterSimulator =>
        WaterUpdate(block, oldBlock, index);
        GrainsAtMost(W(), Sims(), StepMode(simulator, s.blocks, index, oldBlock, block), s, S(),
                     SimulatorSlack(W().Plane(), simulator, index, oldBlock, block));
      case LavaSimulator => LavaUpdate(block, oldBlock, index);
      case SandSimulator => SandUpdate(block, oldBlock, index);
    }

    // ----------------------------------------------------------------
    // Sand and gravel.

    predicate Check(x: int, y: int, z: int)
      requires blocks.Length == W().Size() && 0 <= x && 0 <= y && 0 <= z
      reads this`envConfig, blocks
    {
      IsPassable(GetBlock(x, y, z))
    }

    method SandUpdate(block: byte, oldBlock: byte, index: nat)
      requires Valid() && SandSimulator in simulators && index < blocks.Length
      requires IsGrain(block) ==> !IsHard(blocks[index]) && HasFloor(W().Plane(), blocks[..], index)
      requires IsGrain(block) ==> blocks[index] == block || SpongeEdit(oldBlock, block)
      modifies this`dirty, this`writes, blocks, waterQueue, lavaQueue
      ensures Valid()
      ensures Evolves(W(), Sims(), StepMode(SandSimulator, old(S()).blocks, index, oldBlock, block), old(S()), S(),
                      SimulatorSlack(W().Plane(), SandSimulator, index, oldBlock, block))
      ensures SandHandled(W(), block, index, old(S()), S())
      ensures Grains(S().blocks) <= Grains(old(S()).blocks) + 1
      ensures old(S()).blocks[index] == block && !Unsettled(W().Plane(), old(S()).blocks, index) ==> S() == old(S())
      ensures !IsGrain(block) ==> S() == old(S())
      ensures Ledger(old(S()), S(), 0)
      decreases 0,
                if IsGrain(block) then Potential(W().Plane(), blocks[..][index := block])
                else Potential(W().Plane(), blocks[..]), 2
    {
      var w := W();
      hide Evolves, EditOutcome, EditHandled, Grounded, Potential, w.Size, w.Plane, w.Index, w.Position, ValidEntries,
           Weight, SandHandled, HasFloor, Landing, Unsettled, Grains, Ledger;
      ghost var s := S();
      EvolvesRefl(w, Sims(), StepMode(SandSimulator, s.blocks, index, oldBlock, block), s);
      LedgerRefl(s);
      if block != SAND && block != GRAVEL {
        StandsStill(w, block, index, s);
        return;
      }
      PositionIndex(w, index);
      var p := w.Position(index);
      var y1 := p.y;
      ghost var j: int := index;
      NextBelow(w, s.blocks, p.x, y1, p.z);
      while y1 >= 0 && Check(p.x, y1 - 1, p.z)
        invariant 1 <= y1 <= p.y && w.Inside(p.x, y1, p.z) && w.Index(p.x, y1, p.z) == j
        invariant 0 <= j <= index && (j == index <==> y1 == p.y)
        invariant S() == s && HasFloor(w.Plane(), s.blocks, j)
        invariant Landing(w.Plane(), s.blocks, j) == Landing(w.Plane(), s.blocks, index)
        invariant w.Inside(p.x, y1 - 1, p.z) && 0 < w.Plane() <= j && w.Index(p.x, y1 - 1, p.z) == j - w.Plane()
        invariant if IsPassable(s.blocks[j - w.Plane()]) then
                    HasFloor(w.Plane(), s.blocks, j - w.Plane())
                    && Landing(w.Plane(), s.blocks, j - w.Plane()) == Landing(w.Plane(), s.blocks, j)
                  else Landing(w.Plane(), s.blocks, j) == j
      {
        y1 := y1 - 1;
        j := j - w.Plane();
        NextBelow(w, s.blocks, p.x, y1, p.z);
      }
      if p.y != y1 {
        FallStarts(w.Plane(), s.blocks, index, block);
        SetBlock(p.x, p.y, p.z, AIR);
        ghost var m := S();
        FallContinues(w, Sims(), s, index, block, m);
        SetBlock(p.x, y1, p.z, block);
        LedgerTrans(s, m, S(), 0, 0);
        FallUpdates(w, Sims(), oldBlock, s, index, block, m, S());
        FallHandled(w, Sims(), s, index, block, m, S());
        FallCreates(w, Sims(), s, index, block, m, Landing(w.Plane(), s.blocks, index), S());
        if s.blocks[index] == block {
          FallsLoose(w, index, s.blocks);
        }
      } else {
        StandsStill(w, block, index, s);
        EvolvesMoreSlack(w, Sims(), StepMode(SandSimulator, s.blocks, index, oldBlock, block), s, s, 0,
                         SimulatorSlack(w.Plane(), SandSimulator, index, oldBlock, block));
      }
    }

    // ----------------------------------------------------------------
    // Water and sponges.

    method WaterUpdate(block: byte, oldBlock: byte, index: nat)
      requires Valid() && WaterSimulator in simulators && index < blocks.Length
      requires block == AIR || block == SPONGE || IsWater(block) ==> blocks[index] == block
      modifies this`dirty, this`writes, blocks, waterQueue, lavaQueue
      ensures Valid()
      ensures Evolves(W(), Sims(), StepMode(WaterSimulator, old(S()).blocks, index, oldBlock, block), old(S()), S(),
                      SimulatorSlack(W().Plane(), WaterSimulator, index, oldBlock, block))
      ensures WaterHandled(W(), oldBlock, block, index, old(S()), S())
      ensures Confined(W(), Sims(), old(S()).blocks, S().blocks, Seeds(W(), old(S()).blocks, index, oldBlock, block))
      ensures block == ACTIVE_WATER || (block == WATER && block == oldBlock) ==> WaterQueued(old(S()), index, S())
      ensures block != ACTIVE_WATER && block != oldBlock && !Active(WaterSimulator, oldBlock, block) ==> S() == old(S())
      ensures block == oldBlock && !IsWater(block) && !Gap(W(), old(S()).blocks, index) ==> S() == old(S())
      ensures !Active(WaterSimulator, oldBlock, block) ==> S().blocks == old(S()).blocks
      ensures Ledger(old(S()), S(), SimulatorCost(WaterSimulator, oldBlock, block))
      decreases if block == SPONGE && oldBlock != block then 1 else 0, Potential(W().Plane(), blocks[..]),
                if block == oldBlock then 0 else 2
    {
      var w := W();
      hide Evolves, EditOutcome, EditHandled, Grounded, Potential, w.Size, w.Plane, w.Index, w.Position, ValidEntries,
           Weight, HasFloor, Gap, Dried, Refilled, Cube, SpongeNear, Calm, Confined, GapAt, GapsIn, WaterIn, Ledger;
      ghost var s, mode := S(), StepMode(WaterSimulator, S().blocks, index, oldBlock, block);
      EvolvesRefl(w, Sims(), mode, s);
      ConfinedRefl(w, Sims(), s.blocks, Seeds(w, s.blocks, index, oldBlock, block));
      LedgerRefl(s);
      LedgerMore(s, s, 0, SimulatorCost(WaterSimulator, oldBlock, block));
      if block == ACTIVE_WATER || (block == WATER && block == oldBlock) {
        waterQueue.Add(index, WATER_DELAY);
        assert WaterQueued(s, index, S());
        LedgerQueued(s, index, S());
        LedgerMore(s, S(), 1, SimulatorCost(WaterSimulator, oldBlock, block));
        QueuedEvolves(w, Sims(), mode, s, index, S());
        Consequences(w, Sims(), mode, s, S(), 0);
      } else {
        PositionIndex(w, index);
        var p := w.Position(index);
        GapFacts(w, s.blocks, index);
        if block == AIR && CheckEdge(p.x, p.y, p.z) {
          var sponge := CheckSponge(p.x, p.y, p.z);
          if !sponge {
            FloodStarts(w.Plane(), s.blocks, index);
            SetBlock(p.x, p.y, p.z, ACTIVE_WATER);
            LedgerMore(s, S(), 0, SimulatorCost(WaterSimulator, oldBlock, block));
            FloodEvolves(w, Sims(), oldBlock, s, index, S());
            FloodReaches(w, Sims(), oldBlock, s, index, S());
            EvolvesWeaken(w, Sims(), mode, s, S(), 0, 0);
          }
        } else if block != oldBlock {
          if block == SPONGE {
            PlaceSponge(p.x, p.y, p.z);
            LedgerMore(s, S(), 0, SimulatorCost(WaterSimulator, oldBlock, block));
          } else if oldBlock == SPONGE {
            BreakSponge(p.x, p.y, p.z);
            LedgerMore(s, S(), 343, SimulatorCost(WaterSimulator, oldBlock, block));
            NotGapStays(w, Sims(), s, index, S());
            EvolvesWeaken(w, Sims(), mode, s, S(), 0, 0);
          }
        }
      }
    }

    predicate CheckEdge(x: int, y: int, z: int)
      reads this`envConfig
    {
      W().Edge(x, y, z)
    }

    method CheckSponge(x: int, y: int, z: int) returns (found: bool)
      requires Valid() && W().Inside(x, y, z)
      ensures found == SpongeNear(W(), S().blocks, W().Index(x, y, z))
    {
      var w := W();
      hide w.Index, w.Size, w.Plane, w.Position, Scanned, Cube, Grounded, ValidEntries;
      ghost var c, index := Coord(x, y, z), w.Index(x, y, z);
      var y0, z0, x0 := Max(y - 2, 0), Max(z - 2, 0), Max(x - 2, 0);
      ScanEnds(w, c, 2);
      for yy := y0 to Min(y + 2, height - 1) + 1
        invariant forall i :: i in Scanned(w, index, 2, x0, yy, z0) && 0 <= i < blocks.Length ==> blocks[i] != SPONGE
      {
        for zz := z0 to Min(z + 2, length - 1) + 1
          invariant forall i :: i in Scanned(w, index, 2, x0, yy, zz) && 0 <= i < blocks.Length ==> blocks[i] != SPONGE
        {
          for xx := x0 to Min(x + 2, width - 1) + 1
            invariant forall i :: i in Scanned(w, index, 2, xx, yy, zz) && 0 <= i < blocks.Length ==>
                      blocks[i] != SPONGE
          {
            InCube(w, c, 2, xx, yy, zz);
            IndexPosition(w, xx, yy, zz);
            if GetBlock(xx, yy, zz) == SPONGE {
              return true;
            }
            ScanCell(w, c, 2, xx, yy, zz);
          }
          ScanRow(w, c, 2, yy, zz);
        }
        ScanLayer(w, c, 2, yy);
      }
      return false;
    }

    /** The body of the loop of PlaceSponge. */
    method SoakUp(x: int, y: int, z: int, ghost p: int)
      requires Valid() && W().Inside(x, y, z)
      requires 0 <= p < blocks.Length && blocks[p] == SPONGE && W().Index(x, y, z) in Cube(W(), p, SPONGE_REACH)
      modifies this`dirty, this`writes, blocks, waterQueue, lavaQueue
      ensures Valid()
      ensures Evolves(W(), Sims(), Soak(p), old(S()), S(), 2)
      ensures var q := W().Index(x, y, z);
              if 0 <= q < |old(S()).blocks| && IsWater(old(S()).blocks[q])
              then EditOutcome(W(), Sims(), old(S()), q, AIR, S()) else S() == old(S())
      ensures 0 <= W().Index(x, y, z) < |S().blocks| && !IsWater(S().blocks[W().Index(x, y, z)])
      ensures S().blocks[p] == SPONGE
      ensures Ledger(old(S()), S(), 0)
      decreases 0, Potential(W().Plane(), blocks[..]) + 1, 9
    {
      var w := W();
      hide w.Index, w.Size, w.Plane, Cube, Grounded, ValidEntries, Evolves, EditOutcome, Potential, Ledger;
      IndexPosition(w, x, y, z);
      ghost var s, q := S(), w.Index(x, y, z);
      EvolvesRefl(w, Sims(), Soak(p), s);
      LedgerRefl(s);
      EvolvesMoreSlack(w, Sims(), Soak(p), s, s, 0, 2);
      if IsWater(GetBlock(x, y, z)) {
        EmptyingStarts(w.Plane(), s.blocks, q);
        SetBlock(x, y, z, AIR);
        CubeSymmetric(w, p, q, SPONGE_REACH);
        EmptyEvolves(w, Sims(), p, s, q, S());
        StaysEmpty(w, Sims(), p, s, q, S());
      }
    }

    /** The innermost loop of PlaceSponge. */
    method SoakUpRow(x: int, y: int, z: int, yy: int, zz: int, ghost s0: State)
      requires Valid() && WaterSimulator in simulators && W().Inside(x, y, z) && GetBlock(x, y, z) == SPONGE
      requires Max(y - 2, 0) <= yy <= Min(y + 2, height - 1) && Max(z - 2, 0) <= zz <= Min(z + 2, length - 1)
      requires Dried(Scanned(W(), W().Index(x, y, z), SPONGE_REACH, Max(x - 2, 0), yy, zz), S().blocks)
      requires Soaked(W(), Sims(), W().Index(x, y, z), s0, S())
      modifies this`dirty, this`writes, blocks, waterQueue, lavaQueue
      ensures Valid() && GetBlock(x, y, z) == SPONGE
      ensures Evolves(W(), Sims(), Soak(W().Index(x, y, z)), old(S()), S(), 10)
      ensures Dried(Scanned(W(), W().Index(x, y, z), SPONGE_REACH, Max(x - 2, 0), yy, zz + 1), S().blocks)
      ensures Soaked(W(), Sims(), W().Index(x, y, z), s0, S())
      ensures Ledger(old(S()), S(), 0)
      decreases 1, 0, 0
    {
      var w := W();
      hide Distinct, ValidQueues, w.Index, w.Size, w.Plane, w.Position, Scanned, Cube, Grounded, Evolves, EditOutcome,
           Dried, Potential, Soaked, Confined, WaterIn, Ledger;
      IndexPosition(w, x, y, z);
      ghost var c, index, s := Coord(x, y, z), w.Index(x, y, z), S();
      var x0 := Max(x - 2, 0);
      EvolvesRefl(w, Sims(), Soak(index), s);
      LedgerRefl(s);
      for xx := x0 to Min(x + 2, width - 1) + 1
        invariant Valid() && S().blocks[index] == SPONGE
        invariant Dried(Scanned(w, index, 2, xx, yy, zz), S().blocks)
        invariant Evolves(w, Sims(), Soak(index), s, S(), 2 * (xx - x0))
        invariant Soaked(w, Sims(), index, s0, S()) && Ledger(s, S(), 0)
      {
        InCube(w, c, 2, xx, yy, zz);
        IndexPosition(w, xx, yy, zz);
        ScanCell(w, c, 2, xx, yy, zz);
        ScannedInCube(w, index, 2, xx, yy, zz);
        ghost var m := S();
        SoakUp(xx, yy, zz, index);
        LedgerTrans(s, m, S(), 0, 0);
        SoakedMore(w, Sims(), index, s0, m, w.Index(xx, yy, zz), S());
        DryStep(w, Sims(), s, index, Scanned(w, index, 2, xx, yy, zz), 2 * (xx - x0), m, w.Index(xx, yy, zz), S());
      }
      ScanRow(w, c, 2, yy, zz);
      EvolvesMoreSlack(w, Sims(), Soak(index), s, S(), 2 * (Min(x + 2, width - 1) + 1 - x0), 10);
    }

    method PlaceSponge(x: int, y: int, z: int)
      requires Valid() && WaterSimulator in simulators && W().Inside(x, y, z) && GetBlock(x, y, z) == SPONGE
      modifies this`dirty, this`writes, blocks, waterQueue, lavaQueue
      ensures Valid()
      ensures Evolves(W(), Sims(), Soak(W().Index(x, y, z)), old(S()), S(), 250)
      ensures Dried(Cube(W(), W().Index(x, y, z), SPONGE_REACH), S().blocks)
      ensures Confined(W(), Sims(), old(S()).blocks, S().blocks,
                       WaterIn(old(S()).blocks, Cube(W(), W().Index(x, y, z), SPONGE_REACH)))
      ensures Ledger(old(S()), S(), 0)
      decreases 1, Potential(W().Plane(), blocks[..]), 1
    {
      var w := W();
      hide Distinct, ValidQueues, w.Index, w.Size, w.Plane, w.Position, Scanned, Cube, Grounded, Evolves, Dried,
           Potential, Soaked, Confined, WaterIn, Ledger;
      IndexPosition(w, x, y, z);
      ghost var c, index, s := Coord(x, y, z), w.Index(x, y, z), S();
      var y0, z0, x0 := Max(y - 2, 0), Max(z - 2, 0), Max(x - 2, 0);
      ScanEnds(w, c, 2);
      EvolvesRefl(w, Sims(), Soak(index), s);
      NothingDry(s.blocks);
      LedgerRefl(s);
      SoakedNothing(w, Sims(), index, s);
      for yy := y0 to Min(y + 2, height - 1) + 1
        invariant Valid() && S().blocks[index] == SPONGE
        invariant Dried(Scanned(w, index, 2, x0, yy, z0), S().blocks)
        invariant Evolves(w, Sims(), Soak(index), s, S(), 50 * (yy - y0))
        invariant Soaked(w, Sims(), index, s, S()) && Ledger(s, S(), 0)
      {
        for zz := z0 to Min(z + 2, length - 1) + 1
          invariant Valid() && S().blocks[index] == SPONGE
          invariant Dried(Scanned(w, index, 2, x0, yy, zz), S().blocks)
          invariant Evolves(w, Sims(), Soak(index), s, S(), 50 * (yy - y0) + 10 * (zz - z0))
          invariant Soaked(w, Sims(), index, s, S()) && Ledger(s, S(), 0)
        {
          ghost var m := S();
          SoakUpRow(x, y, z, yy, zz, s);
          LedgerTrans(s, m, S(), 0, 0);
          EvolvesTrans(w, Sims(), Soak(index), s, m, S(), 50 * (yy - y0) + 10 * (zz - z0), 10);
        }
        ScanLayer(w, c, 2, yy);
        EvolvesMoreSlack(w, Sims(), Soak(index), s, S(),
                         50 * (yy - y0) + 10 * (Min(z + 2, length - 1) + 1 - z0), 50 * (yy - y0) + 50);
      }
      EvolvesMoreSlack(w, Sims(), Soak(index), s, S(), 50 * (Min(y + 2, height - 1) + 1 - y0), 250);
      SoakedReaches(w, Sims(), index, s, S());
    }

    /** The innermost loop of BreakSponge; n cells have been looked at since state s. */
    method RefillRow(x: int, y: int, z: int, yy: int, zz: int, ghost n: nat, ghost s: State)
      requires Valid() && WaterSimulator in simulators && W().Inside(x, y, z)
      requires Max(y - 3, 0) <= yy <= Min(y + 3, height - 1) && Max(z - 3, 0) <= zz <= Min(z + 3, length - 1)
      requires Potential(W().Plane(), blocks[..]) <= Potential(W().Plane(), s.blocks)
      requires Refilling(W(), Sims(), W().Index(x, y, z),
                         Scanned(W(), W().Index(x, y, z), BREAK_REACH, Max(x - 3, 0), yy, zz), n, s, S())
      modifies this`dirty, this`writes, blocks, waterQueue, lavaQueue
      ensures Valid()
      ensures Refilling(W(), Sims(), W().Index(x, y, z),
                        Scanned(W(), W().Index(x, y, z), BREAK_REACH, Max(x - 3, 0), yy, zz + 1), n + 7, s, S())
      decreases 0, Potential(W().Plane(), s.blocks), 1, 0
    {
      var w := W();
      hide w.Index, w.Size, w.Plane, w.Position, Scanned, Cube, Grounded, ValidEntries, Evolves, WaterHandled, Refilled,
           Potential, Confined, GapsIn, Seeds, Ledger, Refilling;
      IndexPosition(w, x, y, z);
      ghost var c, index := Coord(x, y, z), w.Index(x, y, z);
      var x0 := Max(x - 3, 0);
      for xx := x0 to Min(x + 3, width - 1) + 1
        invariant Valid()
        invariant Refilling(w, Sims(), index, Scanned(w, index, 3, xx, yy, zz), n + (xx - x0), s, S())
      {
        InCube(w, c, 3, xx, yy, zz);
        IndexPosition(w, xx, yy, zz);
        ScanCell(w, c, 3, xx, yy, zz);
        ghost var m := S();
        RefillingSizes(w, Sims(), index, Scanned(w, index, 3, xx, yy, zz), n + (xx - x0), s, m);
        var i := w.Index(xx, yy, zz);
        var block := blocks[i];
        WaterUpdate(block, block, i);
        RefillingStep(w, Sims(), index, Scanned(w, index, 3, xx, yy, zz), n + (xx - x0), s, m, i, S());
      }
      ScanRow(w, c, 3, yy, zz);
      RefillingMore(w, Sims(), index, Scanned(w, index, 3, x0, yy, zz + 1), n + (Min(x + 3, width - 1) + 1 - x0), n + 7,
                    s, S());
    }

    method BreakSponge(x: int, y: int, z: int)
      requires Valid() && WaterSimulator in simulators && W().Inside(x, y, z)
      modifies this`dirty, this`writes, blocks, waterQueue, lavaQueue
      ensures Valid()
      ensures Evolves(W(), Sims(), Cascade, old(S()), S(), 0)
      ensures Refilled(W(), Cube(W(), W().Index(x, y, z), BREAK_REACH), old(S()), S())
      ensures Confined(W(), Sims(), old(S()).blocks, S().blocks,
                       GapsIn(W(), old(S()).blocks, Cube(W(), W().Index(x, y, z), BREAK_REACH)))
      ensures Ledger(old(S()), S(), 343)
      decreases 0, Potential(W().Plane(), blocks[..]), 1, 1
    {
      var w := W();
      hide Distinct, ValidQueues, w.Index, w.Size, w.Plane, w.Position, Scanned, Cube, Grounded, Evolves, Refilled,
           Potential, Confined, GapsIn, Ledger, Refilling;
      IndexPosition(w, x, y, z);
      ghost var c, index, s := Coord(x, y, z), w.Index(x, y, z), S();
      var y0, z0 := Max(y - 3, 0), Max(z - 3, 0);
      ghost var x0 := Max(x - 3, 0);
      ScanEnds(w, c, 3);
      NothingRefilling(w, Sims(), index, s);
      for yy := y0 to Min(y + 3, height - 1) + 1
        invariant Valid()
        invariant Refilling(w, Sims(), index, Scanned(w, index, 3, x0, yy, z0), 49 * (yy - y0), s, S())
      {
        for zz := z0 to Min(z + 3, length - 1) + 1
          invariant Valid()
          invariant Refilling(w, Sims(), index, Scanned(w, index, 3, x0, yy, zz), 49 * (yy - y0) + 7 * (zz - z0), s,
                              S())
        {
          RefillingSizes(w, Sims(), index, Scanned(w, index, 3, x0, yy, zz), 49 * (yy - y0) + 7 * (zz - z0), s, S());
          RefillRow(x, y, z, yy, zz, 49 * (yy - y0) + 7 * (zz - z0), s);
        }
        ScanLayer(w, c, 3, yy);
        RefillingMore(w, Sims(), index, Scanned(w, index, 3, x0, yy + 1, z0),
                      49 * (yy - y0) + 7 * (Min(z + 3, length - 1) + 1 - z0), 49 * (yy - y0) + 49, s, S());
      }
      AllRefilled(w, Sims(), index, Cube(w, index, BREAK_REACH), 49 * (Min(y + 3, height - 1) + 1 - y0), s, S());
    }

    // ----------------------------------------------------------------
    // Lava.

    method LavaUpdate(block: byte, oldBlock: byte, index: nat)
      requires Valid() && index < blocks.Length
      requires IsLava(block) ==> blocks[index] == block || oldBlock == SPONGE
      modifies this`dirty, this`writes, blocks, waterQueue, lavaQueue
      ensures Valid()
      ensures Evolves(W(), Sims(), StepMode(LavaSimulator, old(S()).blocks, index, oldBlock, block), old(S()), S(), 0)
      ensures if block == ACTIVE_LAVA || (block == LAVA && block == oldBlock)
              then LavaQueued(old(S()), index, S()) else S() == old(S())
      ensures LavaHandled(oldBlock, block, index, old(S()), S())
      ensures S().blocks == old(S()).blocks
      ensures Ledger(old(S()), S(), SimulatorCost(LavaSimulator, oldBlock, block))
    {
      var w := W();
      hide Evolves, Ledger, Grounded, w.Size, w.Plane, ValidEntries;
      ghost var s := S();
      LedgerRefl(s);
      EvolvesRefl(w, Sims(), StepMode(LavaSimulator, s.blocks, index, oldBlock, block), s);
      if block == ACTIVE_LAVA || (block == LAVA && block == oldBlock) {
        lavaQueue.Add(index, LAVA_DELAY);
        assert LavaQueued(s, index, S());
        LedgerQueued(s, index, S());
        QueuedEvolves(w, Sims(), StepMode(LavaSimulator, s.blocks, index, oldBlock, block), s, index, S());
        Consequences(w, Sims(), StepMode(LavaSimulator, s.blocks, index, oldBlock, block), s, S(), 0);
      } else {
        LedgerMore(s, s, 0, SimulatorCost(LavaSimulator, oldBlock, block));
      }
    }

    // ----------------------------------------------------------------
    // Ticks.

    /** Spreads into one neighbour; a neighbour outside the level is skipped. */
    method WaterSpread(x: int, y: int, z: int)
      requires Valid() && WaterSimulator in simulators
      modifies this`dirty, this`writes, blocks, waterQueue, lavaQueue
      ensures Valid()
      ensures if W().Inside(x, y, z) then SpreadWrite(W(), Sims(), WATER_FLOW, old(S()), W().Index(x, y, z), S())
              else S() == old(S())
      ensures Evolves(W(), Sims(), WATER_FLOW, old(S()), S(), 0)
      ensures CalmSpread(W(), Sims(), WATER_FLOW, old(S()).blocks, S().blocks, CellAt(W(), x, y, z))
      ensures old(S()).writes <= S().writes && (S().writes == old(S()).writes ==> S() == old(S()))
      ensures Ledger(old(S()), S(), 0)
    {
      var w := W();
      hide Distinct, ValidEntries, Grounded, Evolves, EditOutcome, CalmSpread, Ledger, Potential, SpongeNear, Weight,
           w.Index, w.Size, w.Plane, w.Position;
      ghost var s := S();
      EvolvesRefl(w, Sims(), WATER_FLOW, s);
      LedgerRefl(s);
      NothingSpread(w, Sims(), WATER_FLOW, s.blocks);
      if 0 <= x < width && 0 <= y < height && 0 <= z < length {
        IndexPosition(w, x, y, z);
        ghost var q := w.Index(x, y, z);
        var block := GetBlock(x, y, z);
        if block == AIR {
          var sponge := CheckSponge(x, y, z);
          if !sponge {
            FluidStarts(w.Plane(), s.blocks, q, ACTIVE_WATER);
            SetBlock(x, y, z, ACTIVE_WATER);
          }
        } else if IsLava(block) {
          FluidStarts(w.Plane(), s.blocks, q, STONE);
          SetBlock(x, y, z, STONE);
        }
        SpreadWritten(w, Sims(), WATER_FLOW, s, q, S());
      }
    }

    method WaterSpreadFrom(index: nat)
      requires Valid() && WaterSimulator in simulators && index < blocks.Length == W().Size()
      modifies this`dirty, this`writes, blocks, waterQueue, lavaQueue
      ensures Valid()
      ensures Evolves(W(), Sims(), WATER_FLOW, old(S()), S(), 0)
      ensures CalmSpread(W(), Sims(), WATER_FLOW, old(S()).blocks, S().blocks, Targets(W(), index))
      ensures Calm(W(), Sims(), old(S()).blocks) ==>
                forall j :: SpreadsTo(W(), index, j) ==>
                  && 0 <= j < |old(S()).blocks| == |S().blocks|
                  && (old(S()).blocks[j] == 10 || old(S()).blocks[j] == 11 ==> S().blocks[j] == 1)
                  && (old(S()).blocks[j] == 0 ==>
                        S().blocks[j] == if SpongeNear(W(), old(S()).blocks, j) then 0 else 8)
      ensures old(S()).writes <= S().writes && (S().writes == old(S()).writes ==> S() == old(S()))
      ensures Ledger(old(S()), S(), 0)
    {
      var w := W();
      hide Valid, Evolves, CalmSpread, Calm, SpreadsTo, Gap, SpongeNear, Ledger, SpreadWrite, Targets, CellAt, w.Index,
           w.Plane, w.Position, w.Size;
      var p := w.Position(index);
      PositionIndex(w, index);
      var x, y, z := p.x, p.y, p.z;
      ghost var s := S();
      EvolvesRefl(w, Sims(), WATER_FLOW, s);
      LedgerRefl(s);
      NothingSpread(w, Sims(), WATER_FLOW, s.blocks);
      TargetsOf(w, index);
      ghost var met: set<int> := {};
      ghost var m := s;
      WaterSpread(x + 1, y, z);
      LedgerTrans(s, m, S(), 0, 0);
      CalmSpreadTrans(w, Sims(), WATER_FLOW, s, m, S(), met, CellAt(w, x + 1, y, z));
      met := met + CellAt(w, x + 1, y, z);
      m := S();
      WaterSpread(x - 1, y, z);
      LedgerTrans(s, m, S(), 0, 0);
      CalmSpreadTrans(w, Sims(), WATER_FLOW, s, m, S(), met, CellAt(w, x - 1, y, z));
      met := met + CellAt(w, x - 1, y, z);
      m := S();
      WaterSpread(x, y, z + 1);
      LedgerTrans(s, m, S(), 0, 0);
      CalmSpreadTrans(w, Sims(), WATER_FLOW, s, m, S(), met, CellAt(w, x, y, z + 1));
      met := met + CellAt(w, x, y, z + 1);
      m := S();
      WaterSpread(x, y, z - 1);
      LedgerTrans(s, m, S(), 0, 0);
      CalmSpreadTrans(w, Sims(), WATER_FLOW, s, m, S(), met, CellAt(w, x, y, z - 1));
      met := met + CellAt(w, x, y, z - 1);
      m := S();
      WaterSpread(x, y - 1, z);
      LedgerTrans(s, m, S(), 0, 0);
      CalmSpreadTrans(w, Sims(), WATER_FLOW, s, m, S(), met, CellAt(w, x, y - 1, z));
      met := met + CellAt(w, x, y - 1, z);
      m := S();
      assert met == Targets(w, index);
      if Calm(w, Sims(), s.blocks) {
        WaterSpreads(w, Sims(), s.blocks, S().blocks, index);
      }
    }

    /** Handles the due cells in order and stops for good at the first that holds no water.
        `n` is the number of cells that have spread. */
    method WaterTick() returns (ghost n: nat)
      requires Valid() && WaterSimulator in simulators
      modifies this`dirty, this`writes, blocks, waterQueue, lavaQueue
      ensures Valid()
      ensures Evolves(W(), Sims(), WATER_FLOW, old(S()).(water := Rest(old(S()).water)), S(), 0)
      ensures StoppedAt(WATER_FLOW, S().blocks, Due(old(S()).water), n)
      ensures AllSpread(W(), Sims(), WATER_FLOW, old(S()).blocks, S().blocks, Due(old(S()).water), n)
      ensures old(S()).writes <= S().writes && Ledger(old(S()), S(), 0)
      ensures n == 0 ==> S() == old(S()).(water := Rest(old(S()).water))
      ensures S().writes == old(S()).writes ==> S() == old(S()).(water := Rest(old(S()).water))
      ensures old(S()).water == [] ==> S() == old(S())
    {
      var w := W();
      hide Distinct, ValidEntries, Grounded, Evolves, Calm, AllSpread, CalmSpread, Ledger, w.Index, w.Plane, w.Position;
      DueValid(waterQueue.updates, blocks.Length, WATER_DELAY);
      ValidEntriesWeaken(Rest(waterQueue.updates), blocks.Length, WATER_DELAY - 1, WATER_DELAY);
      ghost var before := S();
      var due := waterQueue.Tick();
      ghost var s := S();
      assert s == before.(water := Rest(before.water));
      EvolvesRefl(w, Sims(), WATER_FLOW, s);
      LedgerAged(before, s);
      NoneSpread(w, Sims(), WATER_FLOW, s.blocks, due);
      n := 0;
      for k := 0 to |due|
        invariant Valid() && n == k && (k == 0 ==> S() == s)
        invariant Evolves(w, Sims(), WATER_FLOW, s, S(), 0)
        invariant AllSpread(w, Sims(), WATER_FLOW, s.blocks, S().blocks, due, k)
        invariant Ledger(before, S(), 0)
        invariant s.writes <= S().writes && (S().writes == s.writes ==> S() == s)
      {
        var block := blocks[due[k]];
        if !IsWater(block) {
          return;
        }
        ghost var m := S();
        WaterSpreadFrom(due[k]);
        LedgerTrans(before, m, S(), 0, 0);
        TickStep(w, Sims(), WATER_FLOW, s, m, S(), due, k);
        n := n + 1;
      }
    }

    /** Spreads into one neighbour; a neighbour outside the level is skipped. */
    method LavaSpread(x: int, y: int, z: int)
      requires Valid() && LavaSimulator in simulators
      modifies this`dirty, this`writes, blocks, waterQueue, lavaQueue
      ensures Valid()
      ensures if W().Inside(x, y, z) then SpreadWrite(W(), Sims(), LAVA_FLOW, old(S()), W().Index(x, y, z), S())
              else S() == old(S())
      ensures Evolves(W(), Sims(), LAVA_FLOW, old(S()), S(), 0)
      ensures CalmSpread(W(), Sims(), LAVA_FLOW, old(S()).blocks, S().blocks, CellAt(W(), x, y, z))
      ensures old(S()).writes <= S().writes && (S().writes == old(S()).writes ==> S() == old(S()))
      ensures Ledger(old(S()), S(), 0)
    {
      var w := W();
      hide Distinct, ValidEntries, Grounded, Evolves, EditOutcome, CalmSpread, Ledger, Potential, SpongeNear, Weight,
           w.Index, w.Size, w.Plane, w.Position;
      ghost var s := S();
      EvolvesRefl(w, Sims(), LAVA_FLOW, s);
      LedgerRefl(s);
      NothingSpread(w, Sims(), LAVA_FLOW, s.blocks);
      if 0 <= x < width && 0 <= y < height && 0 <= z < length {
        IndexPosition(w, x, y, z);
        ghost var q := w.Index(x, y, z);
        var block := GetBlock(x, y, z);
        if block == AIR {
          FluidStarts(w.Plane(), s.blocks, q, ACTIVE_LAVA);
          SetBlock(x, y, z, ACTIVE_LAVA);
        } else if IsWater(block) {
          FluidStarts(w.Plane(), s.blocks, q, STONE);
          SetBlock(x, y, z, STONE);
        }
        SpreadWritten(w, Sims(), LAVA_FLOW, s, q, S());
      }
    }

    method LavaSpreadFrom(index: nat)
      requires Valid() && LavaSimulator in simulators && index < blocks.Length == W().Size()
      modifies this`dirty, this`writes, blocks, waterQueue, lavaQueue
      ensures Valid()
      ensures Evolves(W(), Sims(), LAVA_FLOW, old(S()), S(), 0)
      ensures CalmSpread(W(), Sims(), LAVA_FLOW, old(S()).blocks, S().blocks, Targets(W(), index))
      ensures Calm(W(), Sims(), old(S()).blocks) ==>
                forall j :: SpreadsTo(W(), index, j) ==>
                  && 0 <= j < |old(S()).blocks| == |S().blocks|
                  && S().blocks[j] != 0 && S().blocks[j] != 8 && S().blocks[j] != 9
                  && (old(S()).blocks[j] == 8 || old(S()).blocks[j] == 9 ==> S().blocks[j] == 1)
                  && (old(S()).blocks[j] == 0 && !Gap(W(), old(S()).blocks, j) ==> S().blocks[j] == 10)
      ensures old(S()).writes <= S().writes && (S().writes == old(S()).writes ==> S() == old(S()))
      ensures Ledger(old(S()), S(), 0)
    {
      var w := W();
      hide Valid, Evolves, CalmSpread, Calm, SpreadsTo, Gap, SpongeNear, Ledger, SpreadWrite, Targets, CellAt, w.Index,
           w.Plane, w.Position, w.Size;
      var p := w.Position(index);
      PositionIndex(w, index);
      var x, y, z := p.x, p.y, p.z;
      ghost var s := S();
      EvolvesRefl(w, Sims(), LAVA_FLOW, s);
      LedgerRefl(s);
      NothingSpread(w, Sims(), LAVA_FLOW, s.blocks);
      TargetsOf(w, index);
      ghost var met: set<int> := {};
      ghost var m := s;
      LavaSpread(x + 1, y, z);
      LedgerTrans(s, m, S(), 0, 0);
      CalmSpreadTrans(w, Sims(), LAVA_FLOW, s, m, S(), met, CellAt(w, x + 1, y, z));
      met := met + CellAt(w, x + 1, y, z);
      m := S();
      LavaSpread(x - 1, y, z);
      LedgerTrans(s, m, S(), 0, 0);
      CalmSpreadTrans(w, Sims(), LAVA_FLOW, s, m, S(), met, CellAt(w, x - 1, y, z));
      met := met + CellAt(w, x - 1, y, z);
      m := S();
      LavaSpread(x, y, z + 1);
      LedgerTrans(s, m, S(), 0, 0);
      CalmSpreadTrans(w, Sims(), LAVA_FLOW, s, m, S(), met, CellAt(w, x, y, z + 1));
      met := met + CellAt(w, x, y, z + 1);
      m := S();
      LavaSpread(x, y, z - 1);
      LedgerTrans(s, m, S(), 0, 0);
      CalmSpreadTrans(w, Sims(), LAVA_FLOW, s, m, S(), met, CellAt(w, x, y, z - 1));
      met := met + CellAt(w, x, y, z - 1);
      m := S();
      LavaSpread(x, y - 1, z);
      LedgerTrans(s, m, S(), 0, 0);
      CalmSpreadTrans(w, Sims(), LAVA_FLOW, s, m, S(), met, CellAt(w, x, y - 1, z));
      met := met + CellAt(w, x, y - 1, z);
      m := S();
      assert met == Targets(w, index);
      if Calm(w, Sims(), s.blocks) {
        LavaSpreads(w, Sims(), s.blocks, S().blocks, index);
      }
    }

    /** Handles the due cells in order and stops for good at the first that holds no lava.
        `n` is the number of cells that have spread. */
    method LavaTick() returns (ghost n: nat)
      requires Valid() && LavaSimulator in simulators
      modifies this`dirty, this`writes, blocks, waterQueue, lavaQueue
      ensures Valid()
      ensures Evolves(W(), Sims(), LAVA_FLOW, old(S()).(lava := Rest(old(S()).lava)), S(), 0)
      ensures StoppedAt(LAVA_FLOW, S().blocks, Due(old(S()).lava), n)
      ensures AllSpread(W(), Sims(), LAVA_FLOW, old(S()).blocks, S().blocks, Due(old(S()).lava), n)
      ensures old(S()).writes <= S().writes && Ledger(old(S()), S(), 0)
      ensures n == 0 ==> S() == old(S()).(lava := Rest(old(S()).lava))
      ensures S().writes == old(S()).writes ==> S() == old(S()).(lava := Rest(old(S()).lava))
      ensures old(S()).lava == [] ==> S() == old(S())
    {
      var w := W();
      hide Distinct, ValidEntries, Grounded, Evolves, Calm, AllSpread, CalmSpread, Ledger, w.Index, w.Plane, w.Position;
      DueValid(lavaQueue.updates, blocks.Length, LAVA_DELAY);
      ValidEntriesWeaken(Rest(lavaQueue.updates), blocks.Length, LAVA_DELAY - 1, LAVA_DELAY);
      ghost var before := S();
      var due := lavaQueue.Tick();
      ghost var s := S();
      assert s == before.(lava := Rest(before.lava));
      EvolvesRefl(w, Sims(), LAVA_FLOW, s);
      LedgerAged(before, s);
      NoneSpread(w, Sims(), LAVA_FLOW, s.blocks, due);
      n := 0;
      for k := 0 to |due|
        invariant Valid() && n == k && (k == 0 ==> S() == s)
        invariant Evolves(w, Sims(), LAVA_FLOW, s, S(), 0)
        invariant AllSpread(w, Sims(), LAVA_FLOW, s.blocks, S().blocks, due, k)
        invariant Ledger(before, S(), 0)
        invariant s.writes <= S().writes && (S().writes == s.writes ==> S() == s)
      {
        var block := blocks[due[k]];
        if !IsLava(block) {
          return;
        }
        ghost var m := S();
        LavaSpreadFrom(due[k]);
        LedgerTrans(before, m, S(), 0, 0);
        TickStep(w, Sims(), LAVA_FLOW, s, m, S(), due, k);
        n := n + 1;
      }
    }

    /** Water is simulated, nothing can fall, no lava flows, and all water that can still spread is in
        the queue. */
    ghost predicate WaterRuns()
      reads this`simulators, this`envConfig, this`writes, this`dirty, blocks, waterQueue, lavaQueue
    {
      Flows(W(), WATER_FLOW, Sims(), S())
    }

    /** Lava is simulated, nothing can fall, there is no water that flows, and all lava that can still
        spread is in the queue. */
    ghost predicate LavaRuns()
      reads this`simulators, this`envConfig, this`writes, this`dirty, blocks, waterQueue, lavaQueue
    {
      Flows(W(), LAVA_FLOW, Sims(), S())
    }

    method Tick(simulator: Simulator)
      requires Valid() && simulator in simulators
      modifies this`dirty, this`writes, blocks, waterQueue, lavaQueue
      ensures Valid()
      ensures Drifts(W(), Sims(), old(S()), S())
      ensures S().writes == old(S()).writes ==> S() == Aged({simulator}, old(S()))
      ensures Quiet({simulator}, old(S())) ==> S() == old(S())
      ensures Ledger(old(S()), S(), 0)
      ensures old(WaterRuns()) && S().drops == old(S()).drops ==> WaterRuns()
      ensures old(LavaRuns()) && S().drops == old(S()).drops ==> LavaRuns()
      ensures Ticked(W(), Sims(), simulator, old(S()), S())
    {
      var w := W();
      hide Distinct, Ledger, Ticked, ValidQueues, Grounded, Evolves, Drifts, AllSpread, StoppedAt, Flows, w.Plane,
           w.Size;
      ghost var s := S();
      match simulator
      case WaterSimulator =>
        ghost var n := WaterTick();
        TickDrifts(w, Sims(), WATER_FLOW, s, s.(water := Rest(s.water)), S());
        FluidTicks(w, WATER_FLOW, Sims(), s, S(), n);
        if Flows(w, WATER_FLOW, Sims(), s) && S().drops == s.drops {
          KeepsRunning(w, WATER_FLOW, Sims(), s, S(), n);
        }
        if Flows(w, LAVA_FLOW, Sims(), s) {
          WaterStands(w, Sims(), s, S(), n);
        }
      case LavaSimulator =>
        ghost var n := LavaTick();
        TickDrifts(w, Sims(), LAVA_FLOW, s, s.(lava := Rest(s.lava)), S());
        FluidTicks(w, LAVA_FLOW, Sims(), s, S(), n);
        FlowsIdle(w, Sims(), s);
        if Flows(w, LAVA_FLOW, Sims(), s) && S().drops == s.drops {
          KeepsRunning(w, LAVA_FLOW, Sims(), s, S(), n);
        }
        assert LavaSimulator in Sims();
      case SandSimulator =>
        DriftsRefl(w, Sims(), s, s);
        LedgerRefl(s);
        SandTicks(w, Sims(), s);
    }

    /** One tick of the level: every registered simulator ticks, in order. */
    method UpdateLevel()
      requires Valid()
      modifies this`dirty, this`writes, blocks, waterQueue, lavaQueue
      ensures Valid()
      ensures Drifts(W(), Sims(), old(S()), S())
      ensures S().writes == old(S()).writes ==> S() == Aged(Sims(), old(S()))
      ensures Quiet(Sims(), old(S())) ==> S() == old(S())
      ensures Ledger(old(S()), S(), 0)
      ensures Load(old(S())) + 7 * Potential(W().Plane(), old(S()).blocks) <= 1073741823 ==> S().drops == old(S()).drops
      ensures old(WaterRuns()) && S().drops == old(S()).drops ==> WaterRuns()
      ensures old(LavaRuns()) && S().drops == old(S()).drops ==> LavaRuns()
      ensures Turn(W(), Sims(), Sims(), old(S()), S())
    {
      var w := W();
      hide ValidQueues, Ledger, Grounded, Drifts, Flows, Turn, Ticked, Potential, w.Plane, w.Size;
      ghost var s, runs, lavaRuns := S(), WaterRuns(), LavaRuns();
      ghost var done: set<Simulator> := {};
      DriftsRefl(w, Sims(), s, s);
      LedgerRefl(s);
      NoTurn(w, Sims(), s);
      for k := 0 to |simulators|
        invariant Valid()
        invariant done == set i | 0 <= i < k :: simulators[i]
        invariant Drifts(w, Sims(), s, S()) && s.writes <= S().writes
        invariant S().writes == s.writes ==> S() == Aged(done, s)
        invariant Quiet(Sims(), s) ==> S() == s
        invariant Ledger(s, S(), 0) && s.drops <= S().drops
        invariant runs && S().drops == s.drops ==> WaterRuns()
        invariant lavaRuns && S().drops == s.drops ==> LavaRuns()
        invariant Turn(w, Sims(), done, s, S())
      {
        var simulator := simulators[k];
        ghost var m := S();
        Tick(simulator);
        DriftsTrans(w, Sims(), s, m, S());
        DriftWrites(w, Sims(), m, S());
        LedgerDrops(m, S(), 0);
        LedgerTrans(s, m, S(), 0, 0);
        AgedTwice(done, simulator, s);
        TurnStep(w, Sims(), done, simulator, s, m, S());
        done := done + {simulator};
      }
      assert done == Sims();
      DriftRoom(w, Sims(), s, S());
    }

    /** The server's ticker: n updates with no edit in between. Physics writes at most as many
        cells as the potential at the start allows; 30 updates without a write leave no fluid
        queued; and after enough updates, however many of them write, the level is at rest.
        Water has then spread as far as it goes, if nothing can fall and no lava flows. */
    method RunUpdates(n: nat)
      requires Valid()
      modifies this`dirty, this`writes, blocks, waterQueue, lavaQueue
      ensures Valid()
      ensures Drifts(W(), Sims(), old(S()), S())
      ensures S().writes - old(S()).writes <= Potential(W().Plane(), old(S()).blocks)
      ensures n >= 30 && S().writes == old(S()).writes ==> Quiet(Sims(), S())
      ensures n >= 30 * (Potential(W().Plane(), old(S()).blocks) + 1) ==> Quiet(Sims(), S())
      ensures Quiet(Sims(), old(S())) ==> S() == old(S())
      ensures Ledger(old(S()), S(), 0)
      ensures Load(old(S())) + 7 * Potential(W().Plane(), old(S()).blocks) <= 1073741823 ==> S().drops == old(S()).drops
      ensures old(WaterRuns()) && S().drops == old(S()).drops ==>
                WaterRuns() && (Quiet(Sims(), S()) ==> AtRest(W(), WATER_FLOW, S().blocks))
      ensures old(LavaRuns()) && S().drops == old(S()).drops ==>
                LavaRuns() && (Quiet(Sims(), S()) ==> AtRest(W(), LAVA_FLOW, S().blocks))
    {
      var w := W();
      hide Distinct, Turn, Ledger, Grounded, Drifts, Potential, QuietWithin, Flows, AtRest, w.Plane, w.Size;
      ghost var s, runs, lavaRuns := S(), WaterRuns(), LavaRuns();
      ghost var potential := Potential(w.Plane(), s.blocks);
      // The number of updates since the last one that wrote.
      ghost var calm := 0;
      DriftsRefl(w, Sims(), s, s);
      LedgerRefl(s);
      QueuedWithin30(Sims(), s);
      for k := 0 to n
        invariant Valid()
        invariant Drifts(w, Sims(), s, S()) && s.writes <= S().writes
        invariant S().writes - s.writes + Potential(w.Plane(), S().blocks) <= potential
        invariant calm <= k && (S().writes == s.writes ==> calm == k)
        invariant Quiet(Sims(), S()) || (calm < 30 && QuietWithin(Sims(), S(), 30 - calm))
        invariant Quiet(Sims(), S()) || k <= 30 * (S().writes - s.writes) + calm
        invariant Quiet(Sims(), s) ==> S() == s
        invariant Ledger(s, S(), 0) && s.drops <= S().drops
        invariant runs && S().drops == s.drops ==> WaterRuns()
        invariant lavaRuns && S().drops == s.drops ==> LavaRuns()
      {
        ghost var m := S();
        UpdateLevel();
        DriftsTrans(w, Sims(), s, m, S());
        DriftWrites(w, Sims(), m, S());
        LedgerDrops(m, S(), 0);
        LedgerTrans(s, m, S(), 0, 0);
        if S().writes == m.writes {
          calm := calm + 1;
          StillQuiet(Sims(), m, 31 - calm);
        } else {
          calm := 0;
          QueuedWithin30(Sims(), S());
        }
      }
      DriftRoom(w, Sims(), s, S());
      if Flows(w, WATER_FLOW, Sims(), S()) && Quiet(Sims(), S()) {
        FlowsQuiet(w, WATER_FLOW, Sims(), S());
      }
      if Flows(w, LAVA_FLOW, Sims(), S()) && Quiet(Sims(), S()) {
        FlowsQuiet(w, LAVA_FLOW, Sims(), S());
      }
    }

    /** Registers a simulator and updates every cell with it, from the bottom up. */
    method AddSimulator(simulator: Simulator)
      requires Valid() && simulator !in simulators
      requires simulator.SandSimulator? ==> Grounded(W().Plane(), blocks[..])
      modifies this`simulators, this`dirty, this`writes, blocks, waterQueue, lavaQueue
      ensures Valid() && simulators == old(simulators) + [simulator]
      ensures Evolves(W(), Sims(), Cascade, old(S()), S(), 0)
      ensures Ledger(old(S()), S(), if simulator.SandSimulator? then 0 else blocks.Length)
      ensures PaidWrites(W(), old(S()), S(), 0)
      ensures Load(old(S())) + 7 * Potential(W().Plane(), old(S()).blocks) + blocks.Length <= 1073741823 ==>
                S().drops == old(S()).drops
      ensures Swept(W(), simulator, old(S()), S(), blocks.Length)
      ensures Calm(W(), Sims(), old(S()).blocks) && LavaIdle(Sims(), old(S())) && S().drops == old(S()).drops ==>
                ((simulator.WaterSimulator? && EntriesHold(WATER_FLOW, old(S()))) || old(WaterRuns()) ==> WaterRuns())
      ensures Calm(W(), Sims(), old(S()).blocks) && WaterIdle(W(), Sims(), old(S())) && S().drops == old(S()).drops ==>
                ((simulator.LavaSimulator? && EntriesHold(LAVA_FLOW, old(S()))) || old(LavaRuns()) ==> LavaRuns())
    {
      var w := W();
      hide Evolves, Ledger, ValidEntries, Handled, Swept, Potential, Confined, Flows, Calm, LavaIdle, WaterIdle,
           EntriesHold, w.Plane, w.Size;
      ghost var s, before := S(), Sims();
      simulators := simulators + [simulator];
      assert before <= Sims();
      EvolvesRefl(w, Sims(), Cascade, s);
      NothingSwept(w, simulator, s);
      LedgerRefl(s);
      for index := 0 to blocks.Length
        invariant Valid() && simulators == old(simulators) + [simulator]
        invariant Evolves(w, Sims(), Cascade, s, S(), 0)
        invariant Swept(w, simulator, s, S(), index)
        invariant Ledger(s, S(), if simulator.SandSimulator? then 0 else index)
      {
        ghost var m := S();
        var block := blocks[index];
        Update(simulator, block, block, index);
        LedgerSweep(s, m, S(), simulator, index, block);
        Consequences(w, Sims(), Cascade, m, S(), 0);
        SweepStep(w, Sims(), simulator, s, m, index, S());
      }
      assert simulator in Sims();
      CascadeRoom(w, Sims(), s, S(), if simulator.SandSimulator? then 0 else blocks.Length);
      RegisteredRuns(w, WATER_FLOW, before, Sims(), simulator, s, S());
      RegisteredRuns(w, LAVA_FLOW, before, Sims(), simulator, s, S());
    }

    /** Registers one of the simulators of the core plugin; `s` is the state before the first. */
    method Enable(simulator: Simulator, ghost s: State)
      requires Valid() && simulator !in simulators && SandSimulator !in simulators
      requires Grounded(W().Plane(), blocks[..]) && Enabled(W(), Sims(), s, S())
      requires WaterSimulator in simulators ==> Ready(W(), WATER_FLOW, s) && S().drops == s.drops ==> WaterRuns()
      requires LavaSimulator in simulators ==> Ready(W(), LAVA_FLOW, s) && S().drops == s.drops ==> LavaRuns()
      modifies this`simulators, this`dirty, this`writes, blocks, waterQueue, lavaQueue
      ensures Ledger(old(S()), S(), if simulator.SandSimulator? then 0 else blocks.Length)
      ensures PaidWrites(W(), old(S()), S(), 0)
      ensures Valid() && simulators == old(simulators) + [simulator]
      ensures Grounded(W().Plane(), blocks[..]) && Enabled(W(), Sims(), s, S())
      ensures WaterSimulator in simulators ==> Ready(W(), WATER_FLOW, s) && S().drops == s.drops ==> WaterRuns()
      ensures LavaSimulator in simulators ==> Ready(W(), LAVA_FLOW, s) && S().drops == s.drops ==> LavaRuns()
    {
      var w := W();
      hide Evolves, Ledger, PaidWrites, Grounded, Enabled, Swept, ValidEntries, Flows, LavaIdle, Calm, w.Plane, w.Size;
      ghost var m, done := S(), Sims();
      AddSimulator(simulator);
      assert Sims() == done + {simulator};
      EnabledStep(w, done, Sims(), simulator, s, m, S());
      Consequences(w, Sims(), Cascade, m, S(), 0);
      EvolvesDrops(w, Sims(), Cascade, m, S());
      EnabledReady(w, WATER_FLOW, done, Sims(), s, m);
      EnabledReady(w, LAVA_FLOW, done, Sims(), s, m);
    }

    /** What the core plugin does to enable physics: it registers the three simulators in turn. The
        level is then settled, its border is flooded, and all lava that was there will spread; no
        hard cell has changed and no cell near a sponge has become wet. If nothing could fall and
        there was no lava, all water flows. */
    method EnablePhysics()
      requires Valid() && simulators == []
      requires Grounded(W().Plane(), blocks[..])
      modifies this`simulators, this`dirty, this`writes, blocks, waterQueue, lavaQueue
      ensures Valid() && simulators == [WaterSimulator, LavaSimulator, SandSimulator]
      ensures Ledger(old(S()), S(), 2 * blocks.Length)
      ensures Load(old(S())) + 7 * Potential(W().Plane(), old(S()).blocks) + 2 * blocks.Length <= 1073741823 ==>
                S().drops == old(S()).drops
      ensures Settled(W().Plane(), S().blocks)
      ensures forall i :: !Gap(W(), S().blocks, i)
      ensures forall i :: 0 <= i < |S().blocks| && IsLava(S().blocks[i]) ==>
                Scheduled(S().lava, i, LAVA_DELAY, old(S()).drops, S().drops)
      ensures forall i :: 0 <= i < |old(S()).blocks| == |S().blocks| && IsHard(old(S()).blocks[i]) ==>
                S().blocks[i] == old(S()).blocks[i]
      ensures forall i :: Wet(W(), S().blocks, i) ==> Wet(W(), old(S()).blocks, i)
      ensures (forall i :: !Wet(W(), old(S()).blocks, i)) ==> Sound(W(), S().blocks)
      ensures Settled(W().Plane(), old(S()).blocks) ==> OnlyGapsFlooded(W(), old(S()).blocks, S().blocks)
      ensures Ready(W(), WATER_FLOW, old(S())) && S().drops == old(S()).drops ==> WaterRuns()
      ensures Ready(W(), LAVA_FLOW, old(S())) && S().drops == old(S()).drops ==> LavaRuns()
    {
      hide ValidQueues, Ledger, PaidWrites, Potential, Grounded, Enabled, Flows, Sound, Wet, Gap, Settled, Scheduled,
           W().Plane, W().Size;
      ghost var s := S();
      NoneEnabled(W(), s);
      assert Sims() == {};
      Enable(WaterSimulator, s);
      ghost var a := S();
      Enable(LavaSimulator, s);
      ghost var b := S();
      Enable(SandSimulator, s);
      EnabledRoom(W(), s, a, b, S(), blocks.Length);
      assert Sims() == {WaterSimulator, LavaSimulator, SandSimulator};
      AllEnabled(W(), s, S());
    }

    method RemoveSimulator(simulator: Simulator)
      requires Valid()
      modifies this`simulators
      ensures Valid()
      ensures Sims() == old(Sims()) - {simulator}
      ensures simulator !in old(simulators) ==> simulators == old(simulators)
      ensures S() == old(S())
    {
      hide ValidQueues, Grounded;
      var index := -1;
      for i := 0 to |simulators|
        invariant index == -1 && forall k :: 0 <= k < i ==> simulators[k] != simulator
      {
        if simulators[i] == simulator {
          index := i;
          break;
        }
      }
      if index == -1 {
        return;
      }
      ghost var was := simulators;
      simulators := simulators[index := simulators[|simulators| - 1]];
      simulators := simulators[..|simulators| - 1];
      assert simulators == SwapRemove(was, index);
      KeepsOthers(was, index);
    }
  }
}
