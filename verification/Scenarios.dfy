/** Short stories of levels, told in coordinates, block numbers and numbers of updates. */
module Scenarios {
  import opened Blocks
  import opened Geometry
  import opened Columns
  import opened UpdateQueues
  import opened Evolution
  import opened Writes
  import opened Shafts
  import opened Reach
  import opened Falling
  import opened Ticks
  import opened Runs
  import opened Laws
  import opened Resting
  import opened Turns
  import opened Ledgers
  import opened Coordinates
  import opened Levels

  // ------------------------------------------------------------------
  // A new level with physics enabled.

  lemma NoGrains(plane: nat, b: seq<byte>)
    requires forall i :: 0 <= i < |b| ==> b[i] == AIR
    ensures Grounded(plane, b) && Settled(plane, b)
  {
  }

  /** A new level on which physics is enabled: along all four sides there is active water (8) in the two
      layers below half its height, and everything else is air. */
  method NewPool(width: nat, height: nat, length: nat) returns (level: Level)
    ensures level.Valid() && level.width == width && level.height == height && level.length == length
    ensures level.simulators == [WaterSimulator, LavaSimulator, SandSimulator]
    ensures forall x, y, z :: 0 <= x < width && 0 <= y < height && 0 <= z < length ==>
              level.GetBlock(x, y, z) ==
              if height / 2 - 2 <= y < height / 2 && (x == 0 || z == 0 || x == width - 1 || z == length - 1) then 8
              else 0
  {
    hide BlockAt, Gap, OnlyGapsFlooded, Settled, Grounded, Sound, Wet, Flows;
    level := new Level(width, height, length);
    ghost var w, b := level.W(), level.S().blocks;
    NoGrains(w.Plane(), b);
    level.EnablePhysics();
    ghost var c := level.S().blocks;
    assert level.W() == w;
    forall x, y, z | 0 <= x < width && 0 <= y < height && 0 <= z < length
      ensures level.GetBlock(x, y, z) ==
              if height / 2 - 2 <= y < height / 2 && (x == 0 || z == 0 || x == width - 1 || z == length - 1) then 8
              else 0
    {
      Flooded(w, b, c, x, y, z);
    }
  }

  lemma Flooded(w: World, b: seq<byte>, c: seq<byte>, x: int, y: int, z: int)
    requires |b| == |c| == w.Size() && w.Inside(x, y, z) && w.edgeBlock == ACTIVE_WATER
    requires forall i :: 0 <= i < |b| ==> b[i] == AIR
    requires OnlyGapsFlooded(w, b, c) && forall i :: !Gap(w, c, i)
    ensures 0 <= w.Index(x, y, z) < |c|
    ensures c[w.Index(x, y, z)] ==
            if w.edgeHeight + w.sideOffset <= y < w.edgeHeight
               && (x == 0 || z == 0 || x == w.width - 1 || z == w.length - 1) then 8
            else 0
  {
    hide w.Index, w.Size, w.Position, Gap;
    IndexPosition(w, x, y, z);
    GapMeans(w, b, x, y, z);
    GapMeans(w, c, x, y, z);
    forall x', y', z' | w.Inside(x', y', z')
      ensures BlockAt(w, b, x', y', z') != 19 && BlockAt(w, c, x', y', z') != 19
    {
      IndexPosition(w, x', y', z');
    }
  }

  /** The smallest such level with an inner cell. */
  method SmallPool() returns (level: Level)
    ensures level.blocks.Length == level.W().Size()
    ensures level.GetBlock(0, 0, 1) == 8 && level.GetBlock(2, 0, 1) == 8
    ensures level.GetBlock(1, 0, 0) == 8 && level.GetBlock(1, 0, 2) == 8
    ensures level.GetBlock(1, 0, 1) == 0
    ensures level.GetBlock(1, 1, 0) == 8 && level.GetBlock(1, 2, 0) == 0
  {
    level := NewPool(3, 4, 3);
  }

  // ------------------------------------------------------------------
  // A level without physics.

  /** A level without simulators is just an array: what is set at coordinates is found there, nothing else
      changes, and beyond the upper bounds nothing is set and air is found. */
  method SetAndGet(level: Level, x: nat, y: nat, z: nat, block: byte)
    requires level.Valid() && level.simulators == []
    modifies level`dirty, level`writes, level.blocks, level.waterQueue, level.lavaQueue
    ensures level.Valid()
    ensures x < level.width && y < level.height && z < level.length ==>
              level.GetBlock(x, y, z) == block && level.dirty
    ensures forall a: nat, b: nat, c: nat :: (a, b, c) != (x, y, z) ==>
              level.GetBlock(a, b, c) == old(level.GetBlock(a, b, c))
    ensures forall a: nat, b: nat, c: nat :: a >= level.width || b >= level.height || c >= level.length ==>
              level.GetBlock(a, b, c) == 0
  {
    ghost var w, s := level.W(), level.S().blocks;
    level.SetBlock(x, y, z, block);
    hide EditOutcome, Ledger, Grounded, ValidQueues, Potential, w.Index, w.Size, w.Plane, w.Position;
    if x < level.width && y < level.height && z < level.length {
      IndexPosition(w, x, y, z);
    }
    forall a: nat, b: nat, c: nat | w.Inside(a, b, c)
      ensures 0 <= w.Index(a, b, c) < w.Size()
      ensures (a, b, c) != (x, y, z) && w.Inside(x, y, z) ==> w.Index(a, b, c) != w.Index(x, y, z)
    {
      IndexPosition(w, a, b, c);
    }
  }

  // ------------------------------------------------------------------
  // How long fluids take.

  /** Fluid was put into cell p `age` updates ago, when nothing was queued. It is due after 5 updates if it
      is water, after 30 if it is lava. */
  ghost predicate Pending(fluid: Mode, sims: set<Simulator>, p: int, age: nat, s: State) {
    && EntriesHold(fluid, s)
    && (WaterSimulator in sims ==> forall e :: e in s.water ==> e.ticks == 5 - age)
    && (LavaSimulator in sims ==> forall e :: e in s.lava ==> e.ticks == 30 - age)
    && (if fluid.SpreadsWater() then BlockUpdate(p, 5 - age) in s.water
        else BlockUpdate(p, 30 - age) in s.lava && (WaterSimulator in sims ==> s.water == []))
  }

  lemma NoWaterWritten(w: World, b: seq<byte>, p: int, v: byte)
    requires 0 <= p < |b| && NoWater(w, b) && IsLava(v) && b[p] != SPONGE
    ensures NoWater(w, b[p := v])
  {
    hide w.EdgeCell, SpongeNear;
    var c := b[p := v];
    assert SameSponges(b, c);
    forall i | 0 <= i < |c|
      ensures !IsWater(c[i]) && !Gap(w, c, i)
    {
      SpongeNearSame(w, b, c, i);
      assert !Gap(w, b, i);
    }
  }

  /** An edit that puts active fluid into an air cell. */
  ghost predicate Poured(w: World, fluid: Mode, sims: set<Simulator>, s: State, p: int, t: State) {
    && IsFlow(fluid) && SourceOf(fluid) in sims && Calm(w, sims, s.blocks)
    && 0 <= p < |s.blocks| && s.blocks[p] == AIR && s.water == s.lava == [] && s.drops == t.drops
    && (fluid == LAVA_FLOW ==> WaterIdle(w, sims, s))
    && EditOutcome(w, sims, s, p, if fluid == WATER_FLOW then 8 else 10, t)
  }

  /** What the edit does besides queueing. */
  lemma PouredCells(w: World, fluid: Mode, sims: set<Simulator>, s: State, p: int, t: State)
    requires Poured(w, fluid, sims, s, p, t)
    ensures |t.blocks| == |s.blocks| && Calm(w, sims, t.blocks) && SameSponges(s.blocks, t.blocks)
    ensures t.blocks[p] == if fluid == WATER_FLOW then 8 else 10
    ensures forall j :: 0 <= j < |s.blocks| && j != p && s.blocks[j] == AIR && !w.EdgeCell(j) ==> t.blocks[j] == AIR
  {
    var v := if fluid == WATER_FLOW then 8 else 10;
    PouredEvolves(w, fluid, sims, s, p, t);
    var slack := SlackOf(w.Plane(), sims, p, AIR, v);
    StaysCalm(w, sims, Cascade, s.Written(p, v), t, slack);
    CalmFloodsGaps(w, sims, s.Written(p, v), t, slack);
    hide Evolves, Calm, EditOutcome, SpongeNear, w.EdgeCell;
  }

  lemma PouredEvolves(w: World, fluid: Mode, sims: set<Simulator>, s: State, p: int, t: State)
    requires Poured(w, fluid, sims, s, p, t)
    ensures var v: byte := if fluid == WATER_FLOW then 8 else 10;
            && Calm(w, sims, s.Written(p, v).blocks)
            && Evolves(w, sims, Cascade, s.Written(p, v), t, SlackOf(w.Plane(), sims, p, AIR, v))
            && Handled(w, sims, AIR, v, p, s.Written(p, v), t)
  {
    hide Evolves, Handled, NeighboursAwake, EditContained, Unsettled, Gap, w.Plane, Weight, Grains, Calm, Steady;
    CalmWrite(w, sims, s.blocks, p, if fluid == WATER_FLOW then 8 else 10);
  }

  /** What it queues. */
  lemma PendingStarts(w: World, fluid: Mode, sims: set<Simulator>, s: State, p: int, t: State)
    requires Poured(w, fluid, sims, s, p, t)
    ensures Pending(fluid, sims, p, 0, t)
  {
    var v := if fluid == WATER_FLOW then 8 else 10;
    var m, slack := s.Written(p, v), SlackOf(w.Plane(), sims, p, AIR, v);
    hide Evolves, Calm, EditOutcome, SandHandled, NoWater, Gap, Dried, Refilled, Weight, w.Plane, w.EdgeCell;
    PouredEvolves(w, fluid, sims, s, p, t);
    OldEntries(w, fluid, sims, Cascade, m, t, slack);
    EntryDelays(w, sims, m, t, slack);
    if fluid == LAVA_FLOW && WaterSimulator in sims {
      NoWaterWritten(w, s.blocks, p, v);
      NoWaterStays(w, sims, Cascade, m, t, slack);
      OldEntries(w, WATER_FLOW, sims, Cascade, m, t, slack);
      NoEntries(w, t);
    }
  }

  lemma NoEntries(w: World, t: State)
    requires NoWater(w, t.blocks)
    requires forall e :: e in t.water ==> 0 <= e.index < |t.blocks| && IsFluid(WATER_FLOW, t.blocks[e.index])
    ensures t.water == []
  {
    HasMember(t.water);
  }

  lemma EntryDelays(w: World, sims: set<Simulator>, s: State, t: State, slack: int)
    requires Evolves(w, sims, Cascade, s, t, slack) && s.water == s.lava == []
    ensures forall e :: e in t.water ==> e.ticks == 5
    ensures forall e :: e in t.lava ==> e.ticks == 30
  {
    hide CellsEvolve, CalmlyEvolve, DefectsShrink, FloodsOn, QueuesGrow, PaidWrites, GrainsEvolve, Floodable, Calm,
         w.Plane;
  }

  /** An entry that is not due is kept, one tick older, and nothing else is. */
  lemma RestOf(queue: seq<BlockUpdate>)
    ensures forall e :: e in Rest(queue) ==> BlockUpdate(e.index, e.ticks + 1) in queue
    ensures forall e :: e in queue && e.ticks != 1 ==> BlockUpdate(e.index, e.ticks - 1) in Rest(queue)
    ensures forall e :: e in queue && e.ticks == 1 ==> e.index in Due(queue)
  {
    hide Rest, Due;
    forall e | e in Rest(queue)
      ensures BlockUpdate(e.index, e.ticks + 1) in queue
    {
      KeptEntry(queue, e);
    }
    forall e | e in queue
      ensures e.ticks != 1 ==> BlockUpdate(e.index, e.ticks - 1) in Rest(queue)
      ensures e.ticks == 1 ==> e.index in Due(queue)
    {
      EntryKept(queue, e);
    }
  }

  lemma {:induction false} KeptEntry(queue: seq<BlockUpdate>, e: BlockUpdate)
    requires e in Rest(queue)
    ensures BlockUpdate(e.index, e.ticks + 1) in queue
  {
    hide Rest, Due;
    NothingDue();
    if queue != [] {
      var init, last := queue[..|queue| - 1], queue[|queue| - 1];
      assert queue == init + [last];
      TickOnLast(init, last);
      if e in Rest(init) {
        KeptEntry(init, e);
      }
    }
  }

  lemma {:induction false} EntryKept(queue: seq<BlockUpdate>, e: BlockUpdate)
    requires e in queue
    ensures e.ticks != 1 ==> BlockUpdate(e.index, e.ticks - 1) in Rest(queue)
    ensures e.ticks == 1 ==> e.index in Due(queue)
  {
    hide Rest, Due;
    var init, last := queue[..|queue| - 1], queue[|queue| - 1];
    assert queue == init + [last];
    TickOnLast(init, last);
    if e in init {
      EntryKept(init, e);
    }
  }

  /** An update before the fluid is due changes no cell. */
  lemma PendingAges(w: World, fluid: Mode, sims: set<Simulator>, p: int, age: nat, s: State, t: State)
    requires IsFlow(fluid) && SourceOf(fluid) in sims && Pending(fluid, sims, p, age, s)
    requires Turn(w, sims, sims, s, t)
    requires age < if fluid == WATER_FLOW then 4 else 29
    ensures t.blocks == s.blocks && Pending(fluid, sims, p, age + 1, t)
  {
    hide FluidTurn, Rest, EntriesHold, NoneDueNow;
    NotDueYet(sims, p, age, s);
    if age != 4 {
      RestAges(s.water, 5 - age);
    }
    RestAges(s.lava, 30 - age);
    EntriesLeft(fluid, s);
    SameEntries(fluid, TakenOut(fluid, s), t);
    NothingDue();
  }

  lemma NotDueYet(sims: set<Simulator>, p: int, age: nat, s: State)
    requires WaterSimulator in sims ==> s.water == [] || (age < 4 && forall e :: e in s.water ==> e.ticks == 5 - age)
    requires LavaSimulator in sims ==> age < 29 && forall e :: e in s.lava ==> e.ticks == 30 - age
    ensures AllWaiting(sims, s)
  {
  }

  lemma SameEntries(fluid: Mode, s: State, t: State)
    requires EntriesHold(fluid, s) && t.blocks == s.blocks && QueueOf(fluid, t) == QueueOf(fluid, s)
    ensures EntriesHold(fluid, t)
  {
  }

  lemma RestAges(queue: seq<BlockUpdate>, ticks: int)
    requires ticks != 1
    ensures (forall e :: e in queue ==> e.ticks == ticks) ==> forall e :: e in Rest(queue) ==> e.ticks == ticks - 1
    ensures forall i :: BlockUpdate(i, ticks) in queue ==> BlockUpdate(i, ticks - 1) in Rest(queue)
  {
    RestOf(queue);
    hide Rest, Due;
  }

  /** The update at which it is due. */
  lemma PendingArrives(w: World, fluid: Mode, sims: set<Simulator>, p: int, age: nat, s: State, t: State, j: int)
    requires IsFlow(fluid) && SourceOf(fluid) in sims && Pending(fluid, sims, p, age, s)
    requires Turn(w, sims, sims, s, t) && Calm(w, sims, s.blocks) && |s.blocks| == w.Size()
    requires age == if fluid == WATER_FLOW then 4 else 29
    requires SpreadsTo(w, p, j) && 0 <= j < |s.blocks| && s.blocks[j] == AIR && !w.EdgeCell(j)
    requires fluid == WATER_FLOW ==> !SpongeNear(w, s.blocks, j)
    ensures |t.blocks| == |s.blocks| && t.blocks[j] == if fluid == WATER_FLOW then 8 else 10
  {
    hide Calm, SpongeNear, SpreadsTo, w.EdgeCell, w.Size, AllTargets;
    assert OnlyDue(w, sims, fluid, s) && FluidTurn(w, sims, fluid, sims, s, t);
    var queue := QueueOf(fluid, s);
    RestOf(queue);
    assert BlockUpdate(p, 1) in queue;
    TargetCellOf(w, p, j);
    TargetsInside(w, Due(queue), p, j);
    assert Met(w, fluid, s.blocks, t.blocks, j);
  }

  /** What the coordinates of the two methods below say in terms of cells. */
  lemma Beside(w: World, b: seq<byte>, x: int, y: int, z: int, x': int, y': int, z': int)
    requires |b| == w.Size() && w.Inside(x, y, z) && w.Inside(x', y', z')
    requires (y' == y && Distance(x, x') + Distance(z, z') == 1) || (x' == x && z' == z && y' == y - 1)
    requires !(&& (w.edgeBlock == 8 || w.edgeBlock == 9)
               && w.edgeHeight + w.sideOffset <= y' < w.edgeHeight
               && (x' == 0 || z' == 0 || x' == w.width - 1 || z' == w.length - 1))
    ensures 0 <= w.Index(x, y, z) < |b| && 0 <= w.Index(x', y', z') < |b| && w.Index(x, y, z) != w.Index(x', y', z')
    ensures SpreadsTo(w, w.Index(x, y, z), w.Index(x', y', z')) && !w.EdgeCell(w.Index(x', y', z'))
    ensures (forall a, c, d :: w.Inside(a, c, d) && BlockAt(w, b, a, c, d) == 19 ==>
               Distance(x', a) > 2 || Distance(y', c) > 2 || Distance(z', d) > 2) ==>
              !SpongeNear(w, b, w.Index(x', y', z'))
  {
    hide w.Index, w.Size, w.Position, SpongeNear, SpreadsTo, BlockAt;
    IndexPosition(w, x, y, z);
    IndexPosition(w, x', y', z');
    SpreadsMeans(w, x, y, z, x', y', z');
    EdgeMeans(w, x', y', z');
    SpongeMeans(w, b, x', y', z');
  }

  lemma SameBlocks(w: World, b: seq<byte>)
    requires |b| == w.Size()
    ensures forall x, y, z :: w.Inside(x, y, z) ==>
              0 <= w.Index(x, y, z) < |b| && BlockAt(w, b, x, y, z) == b[w.Index(x, y, z)]
  {
    hide w.Index, w.Size;
    forall x, y, z | w.Inside(x, y, z)
      ensures 0 <= w.Index(x, y, z) < |b| && BlockAt(w, b, x, y, z) == b[w.Index(x, y, z)]
    {
      IndexPosition(w, x, y, z);
    }
  }

  lemma PouringRoom(w: World, sims: set<Simulator>, s: State, p: int, v: byte, t: State)
    requires EditOutcome(w, sims, s, p, v, t) && |s.blocks| == w.Size() && v in {8, 10}
    requires 0 <= p < |s.blocks| && s.blocks[p] == AIR && Ledger(s, t, SpongeCost(AIR, v))
    requires s.water == s.lava == [] && 7 * Potential(w.Plane(), s.blocks) <= 1073741823
    ensures s.drops == t.drops
  {
    hide EditOutcome, w.Plane, w.Size, Potential;
    PotentialUpdate(w.Plane(), s.blocks, p, v);
    EditRoom(w, sims, s, p, v, t);
  }

  lemma Pourable(w: World, sims: set<Simulator>, s: State, p: int, v: byte)
    requires 0 <= p < |s.blocks| && s.blocks[p] == AIR && v in {8, 10}
    requires SandSimulator in sims ==> Settled(w.Plane(), s.blocks)
    ensures Grounded(w.Plane(), s.blocks) ==> Grounded(w.Plane(), s.blocks[p := v])
    ensures Calm(w, sims, s.blocks)
  {
    if Grounded(w.Plane(), s.blocks) {
      GroundedWrite(w.Plane(), s.blocks, p, v);
    }
  }

  /** Puts active fluid into an air cell p; air in cell j stays. */
  method Pour(level: Level, ghost fluid: Mode, block: byte, x: int, y: int, z: int, ghost j: int)
    requires level.Valid() && IsFlow(fluid) && SourceOf(fluid) in level.Sims() && level.W().Inside(x, y, z)
    requires block == if fluid == WATER_FLOW then 8 else 10
    requires 0 <= level.W().Index(x, y, z) < level.blocks.Length && level.blocks[level.W().Index(x, y, z)] == AIR
    requires 0 <= j < level.blocks.Length && level.blocks[j] == AIR && !level.W().EdgeCell(j)
    requires j != level.W().Index(x, y, z)
    requires level.waterQueue.updates == [] && level.lavaQueue.updates == []
    requires SandSimulator in level.Sims() ==> Settled(level.W().Plane(), level.S().blocks)
    requires fluid == LAVA_FLOW ==> WaterIdle(level.W(), level.Sims(), level.S())
    requires 7 * Potential(level.W().Plane(), level.S().blocks) <= 1073741823
    modifies level`dirty, level`writes, level.blocks, level.waterQueue, level.lavaQueue
    ensures level.Valid() && |old(level.S()).blocks| == |level.S().blocks|
    ensures Pending(fluid, level.Sims(), level.W().Index(x, y, z), 0, level.S())
    ensures Calm(level.W(), level.Sims(), level.S().blocks)
    ensures level.blocks[level.W().Index(x, y, z)] == block && level.blocks[j] == AIR
    ensures SpongeNear(level.W(), old(level.S()).blocks, j) == SpongeNear(level.W(), level.S().blocks, j)
  {
    hide EditOutcome, Calm, Settled, SpongeNear, Pending, Ledger, Potential, Grounded, WaterIdle;
    ghost var w, sims, s := level.W(), level.Sims(), level.S();
    hide w.Index, w.Size, w.Plane, w.Position, w.EdgeCell, ValidQueues;
    ghost var p := w.Index(x, y, z);
    Pourable(w, sims, s, p, block);
    level.SetBlock(x, y, z, block);
    ghost var t := level.S();
    PouringRoom(w, sims, s, p, block, t);
    PouredCells(w, fluid, sims, s, p, t);
    PendingStarts(w, fluid, sims, s, p, t);
    SpongeNearSame(w, s.blocks, t.blocks, j);
  }

  /** Updates the level n times, at most until the fluid in cell p reaches the air in cell j. */
  method Wait(level: Level, ghost fluid: Mode, ghost p: int, ghost j: int, n: nat)
    requires level.Valid() && IsFlow(fluid) && SourceOf(fluid) in level.Sims()
    requires Pending(fluid, level.Sims(), p, 0, level.S()) && Calm(level.W(), level.Sims(), level.S().blocks)
    requires SpreadsTo(level.W(), p, j) && 0 <= j < level.blocks.Length && level.blocks[j] == AIR
    requires !level.W().EdgeCell(j)
    requires fluid == WATER_FLOW ==> !SpongeNear(level.W(), level.S().blocks, j)
    requires n <= if fluid == WATER_FLOW then 5 else 30
    modifies level`dirty, level`writes, level.blocks, level.waterQueue, level.lavaQueue
    ensures level.Valid()
    ensures (n < if fluid == WATER_FLOW then 5 else 30) ==> level.S().blocks == old(level.S()).blocks
    ensures (n == if fluid == WATER_FLOW then 5 else 30) ==>
              level.blocks[j] == if fluid == WATER_FLOW then 8 else 10
  {
    hide Calm, SpongeNear, SpreadsTo, Pending, Turn, Ledger, Drifts, Flows, Potential, Grounded, ValidQueues;
    ghost var w, sims, t := level.W(), level.Sims(), level.S();
    hide w.Size, w.Plane, w.EdgeCell;
    ghost var last := if fluid == WATER_FLOW then 4 else 29;
    for k := 0 to n
      invariant level.Valid() && |level.S().blocks| == w.Size()
      invariant k <= last ==> level.S().blocks == t.blocks && Pending(fluid, sims, p, k, level.S())
      invariant k > last ==> level.blocks[j] == if fluid == WATER_FLOW then 8 else 10
    {
      ghost var m := level.S();
      level.UpdateLevel();
      if k < last {
        PendingAges(w, fluid, sims, p, k, m, level.S());
      } else {
        PendingArrives(w, fluid, sims, p, k, m, level.S(), j);
      }
    }
  }

  /** Where nothing can fall and nothing is queued, active water put into an air cell reaches the air
      beside or below it on exactly the fifth update, if no sponge is within two cells of that. */
  method WaterArrives(level: Level, x: int, y: int, z: int, x': int, y': int, z': int, n: nat)
    requires level.Valid() && WaterSimulator in level.simulators && n <= 5
    requires level.W().Inside(x, y, z) && level.W().Inside(x', y', z')
    requires (y' == y && Distance(x, x') + Distance(z, z') == 1) || (x' == x && z' == z && y' == y - 1)
    requires level.GetBlock(x, y, z) == 0 && level.GetBlock(x', y', z') == 0
    requires level.waterQueue.updates == [] && level.lavaQueue.updates == []
    requires SandSimulator in level.simulators ==> Settled(level.W().Plane(), level.blocks[..])
    requires !(&& (level.envConfig.edgeBlock == 8 || level.envConfig.edgeBlock == 9)
               && level.envConfig.edgeHeight + level.envConfig.sideOffset <= y' < level.envConfig.edgeHeight
               && (x' == 0 || z' == 0 || x' == level.width - 1 || z' == level.length - 1))
    requires forall a, c, d :: level.W().Inside(a, c, d) && level.GetBlock(a, c, d) == 19 ==>
               Distance(x', a) > 2 || Distance(y', c) > 2 || Distance(z', d) > 2
    requires 7 * Potential(level.W().Plane(), level.blocks[..]) <= 1073741823
    modifies level`dirty, level`writes, level.blocks, level.waterQueue, level.lavaQueue
    ensures level.Valid()
    ensures n < 5 ==> level.GetBlock(x, y, z) == 8 && level.GetBlock(x', y', z') == 0
    ensures n == 5 ==> level.GetBlock(x', y', z') == 8
  {
    hide Calm, Settled, SpongeNear, SpreadsTo, Pending, Potential, Grounded, NoWater, ValidQueues, BlockAt;
    ghost var w, s := level.W(), level.S();
    hide w.Size, w.Plane, w.EdgeCell;
    IndexPosition(w, x, y, z);
    IndexPosition(w, x', y', z');
    SameBlocks(w, s.blocks);
    Beside(w, s.blocks, x, y, z, x', y', z');
    Pour(level, WATER_FLOW, 8, x, y, z, w.Index(x', y', z'));
    Wait(level, WATER_FLOW, w.Index(x, y, z), w.Index(x', y', z'), n);
  }

  /** Active lava takes until the thirtieth update; there must be no water that could turn it into stone. */
  method LavaArrives(level: Level, x: int, y: int, z: int, x': int, y': int, z': int, n: nat)
    requires level.Valid() && LavaSimulator in level.simulators && n <= 30
    requires level.W().Inside(x, y, z) && level.W().Inside(x', y', z')
    requires (y' == y && Distance(x, x') + Distance(z, z') == 1) || (x' == x && z' == z && y' == y - 1)
    requires level.GetBlock(x, y, z) == 0 && level.GetBlock(x', y', z') == 0
    requires level.waterQueue.updates == [] && level.lavaQueue.updates == []
    requires SandSimulator in level.simulators ==> Settled(level.W().Plane(), level.blocks[..])
    requires WaterSimulator in level.simulators ==> NoWater(level.W(), level.blocks[..])
    requires !(&& (level.envConfig.edgeBlock == 8 || level.envConfig.edgeBlock == 9)
               && level.envConfig.edgeHeight + level.envConfig.sideOffset <= y' < level.envConfig.edgeHeight
               && (x' == 0 || z' == 0 || x' == level.width - 1 || z' == level.length - 1))
    requires 7 * Potential(level.W().Plane(), level.blocks[..]) <= 1073741823
    modifies level`dirty, level`writes, level.blocks, level.waterQueue, level.lavaQueue
    ensures level.Valid()
    ensures n < 30 ==> level.GetBlock(x, y, z) == 10 && level.GetBlock(x', y', z') == 0
    ensures n == 30 ==> level.GetBlock(x', y', z') == 10
  {
    hide Calm, Settled, SpongeNear, SpreadsTo, Pending, Potential, Grounded, NoWater, ValidQueues, BlockAt;
    ghost var w, s := level.W(), level.S();
    hide w.Size, w.Plane, w.EdgeCell;
    IndexPosition(w, x, y, z);
    IndexPosition(w, x', y', z');
    SameBlocks(w, s.blocks);
    Beside(w, s.blocks, x, y, z, x', y', z');
    Pour(level, LAVA_FLOW, 10, x, y, z, w.Index(x', y', z'));
    Wait(level, LAVA_FLOW, w.Index(x, y, z), w.Index(x', y', z'), n);
  }
}
