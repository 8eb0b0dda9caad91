/** The relation between the state of a level before and after physics ran. */
module Evolution {
  import opened Blocks
  import opened Geometry
  import opened Columns
  import opened Shafts
  import opened Cubes
  import opened UpdateQueues

  datatype Simulator = WaterSimulator | LavaSimulator | SandSimulator

  const WATER_DELAY := 5
  const LAVA_DELAY := 30

  /** The cells, the two fluid queues, two counters - how often a full queue was thrown away and how
      many cells were written - and whether the level has to be saved. */
  datatype State = State(blocks: seq<byte>, water: seq<BlockUpdate>, lava: seq<BlockUpdate>,
                         drops: nat, writes: nat, dirty: bool)
  {
    /** The state right after one cell has been written. */
    function Written(i: int, v: byte): State
      requires 0 <= i < |blocks|
    {
      this.(blocks := blocks[i := v], writes := writes + 1, dirty := true)
    }
  }

  /** What is running: a cascade of immediate updates, the same while a sponge placed in cell `at`
      soaks up the water around it or while a grain or lava replaces a sponge in cell `at`, or the
      spreading of queued water, queued lava or both. */
  datatype Mode = Cascade | Soak(at: int) | Replace(at: int, block: byte) | Flow(water: bool, lava: bool)
  {
    /** The sand simulator hears of the grain only after the cells around the sponge have been
        updated, when it may have fallen already. */
    predicate Stale() { Replace? && IsGrain(block) }

    /** Water that is there stays. */
    predicate KeepsWater() { Cascade? || (Flow? && !lava) }

    /** Lava that is there stays. */
    predicate KeepsLava() { Cascade? || (Flow? && !water) }

    /** Immediate updates that empty no cell but by falling grains. */
    predicate Floods() { Cascade? || (Replace? && !IsGrain(block)) }

    predicate SpreadsWater() { Flow? && water }
    predicate SpreadsLava() { Flow? && lava }
  }

  /** How far a sponge keeps water away, and how far its removal is felt. */
  const SPONGE_REACH := 2
  const BREAK_REACH := 3

  ghost predicate SpongeNear(w: World, b: seq<byte>, i: int) {
    exists j :: j in Cube(w, i, SPONGE_REACH) && 0 <= j < |b| && b[j] == SPONGE
  }

  /** Water that a sponge within two cells should have kept away. */
  ghost predicate Wet(w: World, b: seq<byte>, i: int) {
    0 <= i < |b| && IsWater(b[i]) && SpongeNear(w, b, i)
  }

  /** An air cell in the flooded border band with no sponge within two cells. */
  ghost predicate Gap(w: World, b: seq<byte>, i: int) {
    0 <= i < |b| && b[i] == AIR && w.EdgeCell(i) && !SpongeNear(w, b, i)
  }

  ghost predicate SameSponges(b: seq<byte>, c: seq<byte>) {
    |b| == |c| && forall i :: 0 <= i < |b| ==> (b[i] == SPONGE <==> c[i] == SPONGE)
  }

  /** Entry (i, ticks) is in the queue, unless a full queue has been thrown away meanwhile. */
  ghost predicate Scheduled(queue: seq<BlockUpdate>, i: int, ticks: int, before: nat, after: nat) {
    before < after || BlockUpdate(i, ticks) in queue
  }

  /** Where a grain v that comes to lie in cell i may have come from: only from above. */
  ghost predicate GrainSource(w: World, mode: Mode, b: seq<byte>, i: int, v: byte) {
    || FallsFrom(w.Plane(), b, i, v)
    || (mode.Stale() && v == mode.block && Over(w.Plane(), mode.at, i))
  }

  /** Why cell i may have been emptied: a grain has left it or has passed through it, or a sponge
      has soaked it up. */
  ghost predicate EmptySource(w: World, mode: Mode, b: seq<byte>, i: int) {
    || GrainSource(w, mode, b, i, SAND)
    || GrainSource(w, mode, b, i, GRAVEL)
    || (mode.Soak? && i in Cube(w, mode.at, SPONGE_REACH))
  }

  /** How one cell may change: hard cells never; other cells may receive a grain that falls down
      their column, be emptied by it, or be flooded with scheduled active water away from every sponge.
      Only flowing fluids spread water outside the border band, spread lava, or make stone. */
  ghost predicate CellChange(w: World, mode: Mode, s: State, t: State, i: int)
    requires 0 <= i < |s.blocks| == |t.blocks|
  {
    var before, after := s.blocks[i], t.blocks[i];
    || before == after
    || (!IsHard(before) &&
        (|| (IsGrain(after) && GrainSource(w, mode, s.blocks, i, after))
         || (after == AIR && EmptySource(w, mode, s.blocks, i))
         || (after == ACTIVE_WATER && (mode.SpreadsWater() || w.EdgeCell(i)) && !SpongeNear(w, s.blocks, i)
             && Scheduled(t.water, i, WATER_DELAY, s.drops, t.drops))
         || (mode.SpreadsLava() && after == ACTIVE_LAVA
             && Scheduled(t.lava, i, LAVA_DELAY, s.drops, t.drops))
         || (mode.Flow? && after == STONE)))
  }

  /** How one cell may change while no grain is able to fall: air is flooded, a sponge takes only
      water and only from the cells around it, water makes stone only of lava, and lava makes stone
      only of water or of air that has been flooded meanwhile. */
  ghost predicate CalmChange(w: World, mode: Mode, i: int, before: byte, after: byte) {
    || before == after
    || mode.Stale()
    || (before == AIR && after == ACTIVE_WATER && (mode.SpreadsWater() || w.EdgeCell(i)))
    || (mode.Soak? && IsWater(before) && after in {AIR, ACTIVE_WATER} && i in Cube(w, mode.at, SPONGE_REACH))
    || (mode.SpreadsWater() && IsLava(before) && after == STONE)
    || (mode.SpreadsLava() && before == AIR && after == ACTIVE_LAVA)
    || (mode.SpreadsLava() && after == STONE
        && (IsWater(before) || (before == AIR && (mode.SpreadsWater() || w.EdgeCell(i)))))
  }

  ghost predicate Calm(w: World, sims: set<Simulator>, b: seq<byte>) {
    SandSimulator in sims ==> Settled(w.Plane(), b)
  }

  ghost predicate CellsEvolve(w: World, mode: Mode, s: State, t: State) {
    && |s.blocks| == |t.blocks|
    && (forall i :: 0 <= i < |s.blocks| ==> CellChange(w, mode, s, t, i))
    && (forall i :: 0 <= i < |s.blocks| && Firm(w.Plane(), s.blocks, i) ==> t.blocks[i] == s.blocks[i])
  }

  ghost predicate CalmlyEvolve(w: World, sims: set<Simulator>, mode: Mode, b: seq<byte>, c: seq<byte>) {
    && |b| == |c|
    && (Calm(w, sims, b) ==> forall i :: 0 <= i < |b| ==> CalmChange(w, mode, i, b[i], c[i]))
  }

  /** No cell becomes unsettled, no border cell becomes a gap, and every grain keeps its floor. */
  ghost predicate DefectsShrink(w: World, sims: set<Simulator>, b: seq<byte>, c: seq<byte>) {
    && (Grounded(w.Plane(), b) ==> Grounded(w.Plane(), c))
    && (SandSimulator in sims ==> forall i :: Unsettled(w.Plane(), c, i) ==> Unsettled(w.Plane(), b, i))
    && (WaterSimulator in sims ==> forall i :: Gap(w, c, i) ==> Gap(w, b, i))
  }

  ghost predicate ValidEntries(queue: seq<BlockUpdate>, size: nat, delay: nat) {
    forall k :: 0 <= k < |queue| ==> 0 <= queue[k].index < size && 1 <= queue[k].ticks <= delay
  }

  ghost predicate ValidQueues(s: State) {
    ValidEntries(s.water, |s.blocks|, WATER_DELAY) && ValidEntries(s.lava, |s.blocks|, LAVA_DELAY)
  }

  /** Queues only grow at the end, unless a full one is thrown away. */
  ghost predicate QueuesGrow(s: State, t: State) {
    && s.drops <= t.drops
    && (s.drops == t.drops ==> s.water <= t.water && s.lava <= t.lava)
    && (ValidQueues(s) ==> ValidQueues(t))
  }

  /** Every write is paid for out of the potential, up to a fixed slack. */
  ghost predicate PaidWrites(w: World, s: State, t: State, slack: int) {
    && s.writes <= t.writes
    && t.writes + Potential(w.Plane(), t.blocks) <= s.writes + Potential(w.Plane(), s.blocks) + slack
    && (s.writes == t.writes ==> s.blocks == t.blocks)
  }

  /** Around every cell that has changed the border is flooded. */
  ghost predicate FloodsOn(w: World, sims: set<Simulator>, b: seq<byte>, c: seq<byte>) {
    |b| == |c| &&
    (WaterSimulator in sims ==>
       forall i, j :: 0 <= i < |b| && b[i] != c[i] && w.Touches(i, j) ==> !Gap(w, c, j))
  }

  /** Cell i holds water, or it is one that may be flooded. */
  ghost predicate Floodable(w: World, mode: Mode, b: seq<byte>, i: int) {
    && 0 <= i < |b|
    && (IsWater(b[i]) || (!IsHard(b[i]) && (mode.SpreadsWater() || w.EdgeCell(i)) && !SpongeNear(w, b, i)))
  }

  /** Only water is queued to spread as water, with its delay; and while nothing can fall, what has
      been queued still holds water. */
  ghost predicate WaterFed(w: World, sims: set<Simulator>, mode: Mode, s: State, t: State) {
    forall e :: e in t.water && e !in s.water ==>
      && e.ticks == WATER_DELAY && Floodable(w, mode, s.blocks, e.index)
      && (Calm(w, sims, s.blocks) && mode.KeepsWater() ==> e.index < |t.blocks| && IsWater(t.blocks[e.index]))
  }

  /** Only lava is queued to spread as lava, counting a block put in place of a sponge; and while nothing
      can fall, what has been queued still holds lava. */
  ghost predicate LavaFed(w: World, sims: set<Simulator>, mode: Mode, s: State, t: State) {
    forall e :: e in t.lava && e !in s.lava ==>
      && e.ticks == LAVA_DELAY && 0 <= e.index < |s.blocks|
      && (|| IsLava(s.blocks[e.index]) || (mode.SpreadsLava() && !IsHard(s.blocks[e.index]))
          || (mode.Replace? && e.index == mode.at))
      && (Calm(w, sims, s.blocks) && mode.KeepsLava() ==> e.index < |t.blocks| && IsLava(t.blocks[e.index]))
  }

  /** Everything about a piece of physics but the fate of single grains. */
  ghost predicate Alters(w: World, sims: set<Simulator>, mode: Mode, s: State, t: State, slack: int) {
    && CellsEvolve(w, mode, s, t)
    && CalmlyEvolve(w, sims, mode, s.blocks, t.blocks)
    && DefectsShrink(w, sims, s.blocks, t.blocks)
    && FloodsOn(w, sims, s.blocks, t.blocks)
    && QueuesGrow(s, t)
    && WaterFed(w, sims, mode, s, t) && LavaFed(w, sims, mode, s, t)
    && PaidWrites(w, s, t, slack)
  }

  /** Grains are created only if one replaces a sponge; otherwise the fate of every grain that can
      fall is known, apart from ticks. */
  ghost predicate GrainsEvolve(w: World, sims: set<Simulator>, mode: Mode, b: seq<byte>, c: seq<byte>) {
    && (!mode.Stale() ==> FewerGrains(b, c))
    && (!mode.Stale() && !mode.Flow? && SandSimulator in sims ==> Orderly(w.Plane(), b, c))
    && (mode.Floods() && SandSimulator in sims ==> Tidy(w.Plane(), b, c))
  }

  ghost predicate Evolves(w: World, sims: set<Simulator>, mode: Mode, s: State, t: State, slack: int) {
    Alters(w, sims, mode, s, t, slack) && GrainsEvolve(w, sims, mode, s.blocks, t.blocks)
  }

  lemma SpongesStay(w: World, mode: Mode, s: State, t: State)
    requires CellsEvolve(w, mode, s, t)
    ensures SameSponges(s.blocks, t.blocks)
    ensures forall i :: 0 <= i < |s.blocks| && IsHard(s.blocks[i]) ==> t.blocks[i] == s.blocks[i]
  {
    forall i | 0 <= i < |s.blocks|
      ensures s.blocks[i] == SPONGE <==> t.blocks[i] == SPONGE
      ensures IsHard(s.blocks[i]) ==> t.blocks[i] == s.blocks[i]
    {
      assert CellChange(w, mode, s, t, i);
    }
  }

  lemma SpongeNearSame(w: World, b: seq<byte>, c: seq<byte>, i: int)
    requires SameSponges(b, c)
    ensures SpongeNear(w, b, i) == SpongeNear(w, c, i)
  {
    hide Cube;
  }

  lemma GrainSourceTrans(w: World, mode: Mode, s: State, m: State, i: int, v: byte)
    requires CellsEvolve(w, mode, s, m) && IsGrain(v) && GrainSource(w, mode, m.blocks, i, v)
    ensures GrainSource(w, mode, s.blocks, i, v)
  {
    hide Over, Firm, w.EdgeCell, SpongeNear;
    var plane := w.Plane();
    hide w.Plane;
    if FallsFrom(plane, m.blocks, i, v) {
      var j :| 0 <= j < |m.blocks| && Over(plane, j, i) && m.blocks[j] == v;
      assert CellChange(w, mode, s, m, j);
      if s.blocks[j] != v {
        SourceAbove(w, mode, s.blocks, j, i, v);
      }
    }
  }

  lemma SourceAbove(w: World, mode: Mode, b: seq<byte>, j: int, i: int, v: byte)
    requires Over(w.Plane(), j, i) && GrainSource(w, mode, b, j, v)
    ensures GrainSource(w, mode, b, i, v)
  {
    hide Over;
    var plane := w.Plane();
    hide w.Plane;
    if FallsFrom(plane, b, j, v) {
      var k :| 0 <= k < |b| && Over(plane, k, j) && b[k] == v;
      OverTrans(plane, k, j, i);
    } else {
      OverTrans(plane, mode.at, j, i);
    }
  }

  lemma CellChangeTrans(w: World, mode: Mode, s: State, m: State, t: State, i: int)
    requires 0 <= i < |s.blocks| == |m.blocks| == |t.blocks|
    requires SameSponges(s.blocks, m.blocks) && QueuesGrow(s, m) && QueuesGrow(m, t)
    requires CellsEvolve(w, mode, s, m) && CellChange(w, mode, m, t, i)
    ensures CellChange(w, mode, s, t, i)
  {
    hide w.EdgeCell, SpongeNear, ValidQueues, GrainSource, Firm, Cube;
    SpongeNearSame(w, s.blocks, m.blocks, i);
    assert CellChange(w, mode, s, m, i);
    forall v: byte | IsGrain(v) && GrainSource(w, mode, m.blocks, i, v)
      ensures GrainSource(w, mode, s.blocks, i, v)
    {
      GrainSourceTrans(w, mode, s, m, i, v);
    }
  }

  lemma CellsTrans(w: World, mode: Mode, s: State, m: State, t: State)
    requires CellsEvolve(w, mode, s, m) && CellsEvolve(w, mode, m, t)
    requires QueuesGrow(s, m) && QueuesGrow(m, t)
    ensures CellsEvolve(w, mode, s, t)
  {
    SpongesStay(w, mode, s, m);
    forall i | 0 <= i < |s.blocks|
      ensures CellChange(w, mode, s, t, i)
    {
      assert CellChange(w, mode, m, t, i);
      CellChangeTrans(w, mode, s, m, t, i);
    }
    forall i | 0 <= i < |s.blocks| && Firm(w.Plane(), s.blocks, i)
      ensures t.blocks[i] == s.blocks[i]
    {
      FirmKept(w.Plane(), s.blocks, m.blocks, i);
    }
  }

  lemma CalmTrans(w: World, sims: set<Simulator>, mode: Mode, b: seq<byte>, c: seq<byte>, d: seq<byte>)
    requires CalmlyEvolve(w, sims, mode, b, c) && CalmlyEvolve(w, sims, mode, c, d)
    requires DefectsShrink(w, sims, b, c)
    ensures CalmlyEvolve(w, sims, mode, b, d)
  {
    hide Gap, Unsettled, Grounded, Cube, w.EdgeCell;
    if Calm(w, sims, b) {
      forall i | 0 <= i < |b|
        ensures CalmChange(w, mode, i, b[i], d[i])
      {
        assert CalmChange(w, mode, i, b[i], c[i]) && CalmChange(w, mode, i, c[i], d[i]);
      }
    }
  }

  lemma FloodsOnTrans(w: World, sims: set<Simulator>, b: seq<byte>, c: seq<byte>, d: seq<byte>)
    requires FloodsOn(w, sims, b, c) && FloodsOn(w, sims, c, d) && DefectsShrink(w, sims, c, d)
    ensures FloodsOn(w, sims, b, d)
  {
    hide Gap, Unsettled, Grounded, w.Touches;
  }

  lemma FloodableTrans(w: World, mode: Mode, s: State, m: State, i: int)
    requires CellsEvolve(w, mode, s, m) && Floodable(w, mode, m.blocks, i)
    ensures Floodable(w, mode, s.blocks, i)
  {
    hide w.EdgeCell, SpongeNear, Firm;
    SpongesStay(w, mode, s, m);
    SpongeNearSame(w, s.blocks, m.blocks, i);
    assert CellChange(w, mode, s, m, i);
  }

  lemma WaterFedTrans(w: World, sims: set<Simulator>, mode: Mode, s: State, m: State, t: State)
    requires CellsEvolve(w, mode, s, m) && DefectsShrink(w, sims, s.blocks, m.blocks)
    requires CalmlyEvolve(w, sims, mode, m.blocks, t.blocks)
    requires WaterFed(w, sims, mode, s, m) && WaterFed(w, sims, mode, m, t)
    ensures WaterFed(w, sims, mode, s, t)
  {
    hide Floodable, CellChange, Gap, Unsettled, Grounded, Firm, w.EdgeCell, Cube;
    forall e | e in t.water && e !in s.water
      ensures e.ticks == WATER_DELAY && Floodable(w, mode, s.blocks, e.index)
      ensures Calm(w, sims, s.blocks) && mode.KeepsWater() ==> 0 <= e.index < |t.blocks| && IsWater(t.blocks[e.index])
    {
      if e in m.water {
        FloodableCell(w, mode, s.blocks, e.index);
        assert Calm(w, sims, s.blocks) ==> CalmChange(w, mode, e.index, m.blocks[e.index], t.blocks[e.index]);
      } else {
        FloodableCell(w, mode, m.blocks, e.index);
        FloodableTrans(w, mode, s, m, e.index);
      }
    }
  }

  lemma FloodableCell(w: World, mode: Mode, b: seq<byte>, i: int)
    requires Floodable(w, mode, b, i)
    ensures 0 <= i < |b|
  {
    hide w.EdgeCell, SpongeNear;
  }

  lemma LavaFedTrans(w: World, sims: set<Simulator>, mode: Mode, s: State, m: State, t: State)
    requires CellsEvolve(w, mode, s, m) && DefectsShrink(w, sims, s.blocks, m.blocks)
    requires CalmlyEvolve(w, sims, mode, m.blocks, t.blocks)
    requires LavaFed(w, sims, mode, s, m) && LavaFed(w, sims, mode, m, t)
    ensures LavaFed(w, sims, mode, s, t)
  {
    hide w.EdgeCell, SpongeNear, Firm, GrainSource, Gap, Unsettled, Grounded, Cube, QueuesGrow;
    forall e | e in t.lava && e !in s.lava
      ensures e.ticks == LAVA_DELAY && 0 <= e.index < |s.blocks|
      ensures || IsLava(s.blocks[e.index]) || (mode.SpreadsLava() && !IsHard(s.blocks[e.index]))
              || (mode.Replace? && e.index == mode.at)
      ensures Calm(w, sims, s.blocks) && mode.KeepsLava() ==> e.index < |t.blocks| && IsLava(t.blocks[e.index])
    {
      if e in m.lava {
        assert Calm(w, sims, s.blocks) ==> CalmChange(w, mode, e.index, m.blocks[e.index], t.blocks[e.index]);
      } else {
        assert CellChange(w, mode, s, m, e.index);
      }
    }
  }

  lemma AltersTrans(w: World, sims: set<Simulator>, mode: Mode, s: State, m: State, t: State, a: int, b: int)
    requires Alters(w, sims, mode, s, m, a) && Alters(w, sims, mode, m, t, b)
    ensures Alters(w, sims, mode, s, t, a + b)
  {
    hide CellsEvolve, CalmlyEvolve, FloodsOn, WaterFed, LavaFed, Grounded, Unsettled, Gap, ValidQueues, Potential,
         w.Plane;
    CellsTrans(w, mode, s, m, t);
    CalmTrans(w, sims, mode, s.blocks, m.blocks, t.blocks);
    FloodsOnTrans(w, sims, s.blocks, m.blocks, t.blocks);
    WaterFedTrans(w, sims, mode, s, m, t);
    LavaFedTrans(w, sims, mode, s, m, t);
  }

  lemma GrainsTrans(w: World, sims: set<Simulator>, mode: Mode, b: seq<byte>, c: seq<byte>, d: seq<byte>)
    requires GrainsEvolve(w, sims, mode, b, c) && GrainsEvolve(w, sims, mode, c, d)
    ensures GrainsEvolve(w, sims, mode, b, d)
  {
    hide Orderly, Tidy, w.Plane;
    if !mode.Stale() && !mode.Flow? && SandSimulator in sims {
      OrderlyTrans(w.Plane(), b, c, d);
    }
    if mode.Floods() && SandSimulator in sims {
      TidyTrans(w.Plane(), b, c, d);
    }
  }

  /** Physics steps compose. */
  lemma EvolvesTrans(w: World, sims: set<Simulator>, mode: Mode, s: State, m: State, t: State, a: int, b: int)
    requires Evolves(w, sims, mode, s, m, a) && Evolves(w, sims, mode, m, t, b)
    ensures Evolves(w, sims, mode, s, t, a + b)
  {
    hide Alters, GrainsEvolve;
    AltersTrans(w, sims, mode, s, m, t, a, b);
    GrainsTrans(w, sims, mode, s.blocks, m.blocks, t.blocks);
  }

  lemma EvolvesRefl(w: World, sims: set<Simulator>, mode: Mode, s: State)
    ensures Evolves(w, sims, mode, s, s, 0)
  {
    hide Orderly, Tidy, w.Plane, Potential, Gap, Unsettled, w.Touches;
    OrderlyRefl(w.Plane(), s.blocks);
    TidyRefl(w.Plane(), s.blocks);
  }

  lemma EvolvesMoreSlack(w: World, sims: set<Simulator>, mode: Mode, s: State, t: State, a: int, b: int)
    requires Evolves(w, sims, mode, s, t, a) && a <= b
    ensures Evolves(w, sims, mode, s, t, b)
  {
    hide GrainsEvolve, CellsEvolve, CalmlyEvolve, DefectsShrink, FloodsOn, WaterFed, LavaFed, QueuesGrow, Potential,
         w.Plane;
  }

  /** A plain cascade may happen inside any other activity, and slack may be given away. */
  lemma EvolvesWeaken(w: World, sims: set<Simulator>, mode: Mode, s: State, t: State, a: int, b: int)
    requires Evolves(w, sims, Cascade, s, t, a) && a <= b
    ensures Evolves(w, sims, mode, s, t, b)
  {
    hide Orderly, Tidy, w.Plane, Potential, DefectsShrink, FloodsOn, QueuesGrow, w.EdgeCell, SpongeNear, Cube,
         FallsFrom, Over, Firm;
    forall i | 0 <= i < |s.blocks|
      ensures CellChange(w, mode, s, t, i)
    {
      assert CellChange(w, Cascade, s, t, i);
    }
    if Calm(w, sims, s.blocks) {
      forall i | 0 <= i < |s.blocks|
        ensures CalmChange(w, mode, i, s.blocks[i], t.blocks[i])
      {
        assert CalmChange(w, Cascade, i, s.blocks[i], t.blocks[i]);
      }
    }
  }

  // ------------------------------------------------------------------
  // What one update of a cell achieves, besides evolving the level.

  /** The grain v placed in p has come to rest at its landing, if that is supported. */
  ghost predicate Rests(plane: nat, b: seq<byte>, c: seq<byte>, p: int, v: byte)
    requires 0 <= p < |b| == |c|
  {
    var j := Landing(plane, b, p);
    0 < plane <= j && Firm(plane, b, j - plane) ==> c[j] == v && Firm(plane, c, j)
  }

  /** The edits of a sponge for which the water simulator does not look at the cube around it:
      the update is taken by one of the two branches before the sponge branch. */
  ghost predicate SpongeIgnored(w: World, v: byte, p: int) {
    v == ACTIVE_WATER || (v == AIR && w.EdgeCell(p))
  }

  ghost predicate SandHandled(w: World, v: byte, p: int, s: State, t: State)
    requires 0 <= p < |s.blocks| == |t.blocks|
  {
    IsGrain(v) ==>
      && !Unsettled(w.Plane(), t.blocks, p)
      && (s.blocks[p] == v ==> Rests(w.Plane(), s.blocks, t.blocks, p, v))
  }

  ghost predicate LavaHandled(oldBlock: byte, v: byte, p: int, s: State, t: State) {
    v == ACTIVE_LAVA || (v == LAVA && oldBlock == v) ==>
      Scheduled(t.lava, p, LAVA_DELAY, s.drops, t.drops)
  }

  /** The border cells among `cells` are flooded, and all water there is going to spread. */
  ghost predicate Refilled(w: World, cells: set<int>, s: State, t: State) {
    forall i :: i in cells && 0 <= i < |t.blocks| ==>
      && !Gap(w, t.blocks, i)
      && (IsWater(t.blocks[i]) ==> Scheduled(t.water, i, WATER_DELAY, s.drops, t.drops))
  }

  ghost predicate Dried(cells: set<int>, b: seq<byte>) {
    forall i :: i in cells && 0 <= i < |b| ==> !IsWater(b[i])
  }

  ghost predicate WaterHandled(w: World, oldBlock: byte, v: byte, p: int, s: State, t: State) {
    && (v == AIR ==> !Gap(w, t.blocks, p))
    && (v == ACTIVE_WATER || (v == WATER && oldBlock == v) ==>
          Scheduled(t.water, p, WATER_DELAY, s.drops, t.drops))
    && (v == SPONGE && oldBlock != v ==> Dried(Cube(w, p, SPONGE_REACH), t.blocks))
    && (oldBlock == SPONGE && oldBlock != v && !SpongeIgnored(w, v, p) ==> Refilled(w, Cube(w, p, BREAK_REACH), s, t))
  }

  ghost predicate Handled(w: World, done: set<Simulator>, oldBlock: byte, v: byte, p: int, s: State, t: State)
    requires 0 <= p < |s.blocks| == |t.blocks|
  {
    && (SandSimulator in done ==> SandHandled(w, v, p, s, t))
    && (LavaSimulator in done ==> LavaHandled(oldBlock, v, p, s, t))
    && (WaterSimulator in done ==> WaterHandled(w, oldBlock, v, p, s, t))
  }

  lemma SandStaysHandled(w: World, sims: set<Simulator>, mode: Mode, v: byte, p: int,
                         s: State, m: State, t: State, slack: int)
    requires 0 <= p < |s.blocks| == |m.blocks| && SandSimulator in sims
    requires Evolves(w, sims, mode, m, t, slack) && SandHandled(w, v, p, s, m)
    ensures SandHandled(w, v, p, s, t)
  {
    hide Gap, Potential, ValidQueues, CellChange, CalmChange, Grounded;
    var plane := w.Plane();
    hide w.Plane;
    if IsGrain(v) && s.blocks[p] == v {
      var j := Landing(plane, s.blocks, p);
      if 0 < plane <= j && Firm(plane, s.blocks, j - plane) {
        FirmKept(plane, m.blocks, t.blocks, j);
      }
    }
  }

  lemma ScheduledStays(w: World, i: int, s: State, m: State, t: State)
    requires QueuesGrow(s, m) && QueuesGrow(m, t)
    ensures Scheduled(m.water, i, WATER_DELAY, s.drops, m.drops) ==>
              Scheduled(t.water, i, WATER_DELAY, s.drops, t.drops)
    ensures Scheduled(m.lava, i, LAVA_DELAY, s.drops, m.drops) ==>
              Scheduled(t.lava, i, LAVA_DELAY, s.drops, t.drops)
  {
    hide ValidQueues;
  }

  lemma RefilledStays(w: World, sims: set<Simulator>, mode: Mode, cells: set<int>,
                      s: State, m: State, t: State, slack: int)
    requires QueuesGrow(s, m) && WaterSimulator in sims
    requires Evolves(w, sims, mode, m, t, slack) && !mode.Flow?
    requires Refilled(w, cells, s, m)
    ensures Refilled(w, cells, s, t)
  {
    hide Potential, ValidQueues, CalmChange, Grounded, Unsettled, Cube, SpongeNear, w.Plane, Gap, w.EdgeCell;
    forall i | i in cells && 0 <= i < |t.blocks|
      ensures !Gap(w, t.blocks, i)
      ensures IsWater(t.blocks[i]) ==> Scheduled(t.water, i, WATER_DELAY, s.drops, t.drops)
    {
      assert CellChange(w, mode, m, t, i);
      ScheduledStays(w, i, s, m, t);
    }
  }

  lemma CubeSymmetric(w: World, i: int, j: int, r: nat)
    ensures j in Cube(w, i, r) <==> i in Cube(w, j, r)
  {
    hide w.Size, w.Position;
  }

  lemma DriedStays(w: World, mode: Mode, p: int, cells: set<int>, m: State, t: State)
    requires CellsEvolve(w, mode, m, t)
    requires 0 <= p < |m.blocks| && m.blocks[p] == SPONGE
    requires cells <= Cube(w, p, SPONGE_REACH) && Dried(cells, m.blocks)
    ensures Dried(cells, t.blocks)
  {
    hide Cube, w.Plane, w.EdgeCell;
    forall i | i in cells && 0 <= i < |t.blocks|
      ensures !IsWater(t.blocks[i])
    {
      assert CellChange(w, mode, m, t, i);
      CubeSymmetric(w, p, i, SPONGE_REACH);
      assert p in Cube(w, i, SPONGE_REACH);
    }
  }

  lemma WaterStaysHandled(w: World, sims: set<Simulator>, mode: Mode, oldBlock: byte, v: byte, p: int,
                          s: State, m: State, t: State, slack: int)
    requires 0 <= p < |m.blocks| && WaterSimulator in sims && !mode.Flow?
    requires v == SPONGE ==> m.blocks[p] == SPONGE
    requires QueuesGrow(s, m)
    requires Evolves(w, sims, mode, m, t, slack) && WaterHandled(w, oldBlock, v, p, s, m)
    ensures WaterHandled(w, oldBlock, v, p, s, t)
  {
    if v == SPONGE && oldBlock != v {
      DriedStays(w, mode, p, Cube(w, p, SPONGE_REACH), m, t);
    }
    if oldBlock == SPONGE && oldBlock != v && !SpongeIgnored(w, v, p) {
      RefilledStays(w, sims, mode, Cube(w, p, BREAK_REACH), s, m, t, slack);
    }
    ScheduledStays(w, p, s, m, t);
    hide Potential, ValidQueues, CalmChange, CellChange, Grounded, Unsettled, Cube, SpongeNear, w.Plane, Gap,
         w.EdgeCell, Refilled, Dried;
  }

  /** Nothing that happens later undoes what an update has achieved. */
  lemma StaysHandled(w: World, sims: set<Simulator>, done: set<Simulator>, mode: Mode,
                     oldBlock: byte, v: byte, p: int, s: State, m: State, t: State, slack: int)
    requires 0 <= p < |s.blocks| == |m.blocks| && done <= sims && !mode.Flow?
    requires v == SPONGE ==> m.blocks[p] == SPONGE
    requires QueuesGrow(s, m)
    requires Evolves(w, sims, mode, m, t, slack) && Handled(w, done, oldBlock, v, p, s, m)
    ensures |t.blocks| == |s.blocks| && Handled(w, done, oldBlock, v, p, s, t)
  {
    if SandSimulator in done {
      SandStaysHandled(w, sims, mode, v, p, s, m, t, slack);
    }
    if WaterSimulator in done {
      WaterStaysHandled(w, sims, mode, oldBlock, v, p, s, m, t, slack);
    }
    ScheduledStays(w, p, s, m, t);
    hide SandHandled, WaterHandled, CellChange, CalmChange, Unsettled, Gap, Grounded, Potential, ValidQueues;
  }
}
