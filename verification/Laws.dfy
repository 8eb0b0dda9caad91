/** The laws of block physics: what every edit and every run of ticks keeps. */
module Laws {
  import opened Blocks
  import opened Geometry
  import opened Columns
  import opened Shafts
  import opened Cubes
  import opened Evolution
  import opened Reach
  import opened Writes
  import opened Runs

  /** The height that the potential charges for is the y coordinate. */
  lemma {:induction false} RiseIsHeight(w: World, x: int, y: int, z: int)
    requires w.Inside(x, y, z)
    ensures w.Index(x, y, z) >= 0 && Rise(w.Plane(), w.Index(x, y, z)) == y
    decreases y
  {
    hide w.Index, w.Plane, w.Size;
    if y == 0 {
      BottomLayer(w, x, z);
      IndexPosition(w, x, y, z);
    } else {
      RiseIsHeight(w, x, y - 1, z);
      IndexAbove(w, x, y - 1, z);
      PlanePositive(w, x, y, z);
    }
  }

  lemma PlanePositive(w: World, x: int, y: int, z: int)
    requires w.Inside(x, y, z)
    ensures w.Plane() > 0
  {
    MulPositive(1, w.width, w.length);
  }

  // ------------------------------------------------------------------
  // The parts of what an edit promises.

  lemma EditCells(w: World, sims: set<Simulator>, s: State, p: int, v: byte, t: State)
    requires EditOutcome(w, sims, s, p, v, t)
    ensures 0 <= p < |s.blocks| && CellsEvolve(w, ModeOf(w, sims, s, p, v), s.Written(p, v), t)
  {
    hide CellsEvolve, CalmlyEvolve, DefectsShrink, FloodsOn, QueuesGrow, WaterFed, LavaFed, PaidWrites, GrainsEvolve,
         Handled, NeighboursAwake, EditContained, Unsettled, Gap, w.Plane;
  }

  lemma EditDefects(w: World, sims: set<Simulator>, s: State, p: int, v: byte, t: State)
    requires EditOutcome(w, sims, s, p, v, t)
    ensures 0 <= p < |s.blocks| == |t.blocks| && DefectsShrink(w, sims, s.Written(p, v).blocks, t.blocks)
    ensures SandSimulator in sims ==>
              !Unsettled(w.Plane(), t.blocks, p) && !Unsettled(w.Plane(), t.blocks, p + w.Plane())
    ensures WaterSimulator in sims ==> !Gap(w, t.blocks, p)
  {
    hide CellsEvolve, CalmlyEvolve, DefectsShrink, FloodsOn, QueuesGrow, WaterFed, LavaFed, PaidWrites, GrainsEvolve,
         Handled, NeighboursAwake, EditContained, Unsettled, Gap, w.Plane;
  }

  lemma EditHandles(w: World, sims: set<Simulator>, s: State, p: int, v: byte, t: State)
    requires EditOutcome(w, sims, s, p, v, t)
    ensures 0 <= p < |s.blocks| == |t.blocks| && Handled(w, sims, s.blocks[p], v, p, s.Written(p, v), t)
  {
    hide Evolves, Handled, NeighboursAwake, EditContained, Unsettled, Gap, w.Plane;
  }

  lemma EditGrains(w: World, sims: set<Simulator>, s: State, p: int, v: byte, t: State)
    requires EditOutcome(w, sims, s, p, v, t)
    ensures 0 <= p < |s.blocks| == |t.blocks|
    ensures GrainsEvolve(w, sims, ModeOf(w, sims, s, p, v), s.Written(p, v).blocks, t.blocks)
    ensures Grains(t.blocks) <= Grains(s.Written(p, v).blocks) + 1
  {
    hide Grains, Alters, GrainsEvolve, Handled, NeighboursAwake, EditContained, Unsettled, Gap, w.Plane;
  }

  lemma EditFloods(w: World, sims: set<Simulator>, s: State, p: int, v: byte, t: State)
    requires EditOutcome(w, sims, s, p, v, t)
    ensures 0 <= p < |s.blocks| == |t.blocks|
    ensures FloodsOn(w, sims, s.Written(p, v).blocks, t.blocks)
    ensures NeighboursAwake(w, sims, s, t, p) && EditContained(w, sims, s, p, v, t)
  {
    hide CellsEvolve, CalmlyEvolve, DefectsShrink, FloodsOn, QueuesGrow, WaterFed, LavaFed, PaidWrites, GrainsEvolve,
         Handled, NeighboursAwake, EditContained, Unsettled, Gap, w.Plane;
  }

  // ------------------------------------------------------------------
  // Frame.

  /** No edit changes a hard cell other than the edited one, creates a sponge elsewhere,
      or moves a firm grain elsewhere; a grain comes to a cell only from above it, and a cell is
      emptied only by a grain from there, or by a sponge placed within two cells. */
  lemma EditFrame(w: World, sims: set<Simulator>, s: State, p: int, v: byte, t: State, i: int)
    requires EditOutcome(w, sims, s, p, v, t)
    requires 0 <= i < |s.blocks| && i != p
    ensures IsHard(s.blocks[i]) ==> t.blocks[i] == s.blocks[i]
    ensures t.blocks[i] == SPONGE <==> s.blocks[i] == SPONGE
    ensures Firm(w.Plane(), s.Written(p, v).blocks, i) ==> t.blocks[i] == s.blocks[i]
    ensures IsHard(v) ==> t.blocks[p] == v
    ensures IsGrain(t.blocks[i]) ==> FallsFrom(w.Plane(), s.Written(p, v).blocks, i, t.blocks[i])
    ensures t.blocks[i] == AIR && s.blocks[i] != AIR ==>
              || FallsFrom(w.Plane(), s.Written(p, v).blocks, i, SAND)
              || FallsFrom(w.Plane(), s.Written(p, v).blocks, i, GRAVEL)
              || (v == SPONGE && s.blocks[p] != SPONGE && i in Cube(w, p, SPONGE_REACH))
  {
    hide EditOutcome, w.EdgeCell, w.Plane, Firm, SpongeNear, Over, Steady, Cube;
    EditCells(w, sims, s, p, v, t);
    var m := s.Written(p, v);
    FallsFromItself(w.Plane(), m.blocks, i);
    assert CellChange(w, ModeOf(w, sims, s, p, v), m, t, i);
    assert CellChange(w, ModeOf(w, sims, s, p, v), m, t, p);
  }

  /** Apart from the block placed, an edit brings new water only into border cells away from
      every sponge, where it is active and queued to spread, and never new lava. */
  lemma EditFluids(w: World, sims: set<Simulator>, s: State, p: int, v: byte, t: State, i: int)
    requires EditOutcome(w, sims, s, p, v, t)
    requires 0 <= i < |s.blocks| && t.blocks[i] != s.Written(p, v).blocks[i]
    ensures IsWater(t.blocks[i]) ==>
              && t.blocks[i] == ACTIVE_WATER && w.EdgeCell(i)
              && !SpongeNear(w, s.Written(p, v).blocks, i)
              && Scheduled(t.water, i, WATER_DELAY, s.drops, t.drops)
    ensures !IsLava(t.blocks[i])
  {
    hide EditOutcome, w.EdgeCell, SpongeNear, GrainSource, Firm, Steady, Cube;
    EditCells(w, sims, s, p, v, t);
    assert CellChange(w, ModeOf(w, sims, s, p, v), s.Written(p, v), t, i);
  }

  // ------------------------------------------------------------------
  // Sand and gravel.

  /** With the sand simulator registered, no edit ever adds an unsettled grain. */
  lemma EditKeepsSettled(w: World, sims: set<Simulator>, s: State, p: int, v: byte, t: State, i: int)
    requires EditOutcome(w, sims, s, p, v, t) && SandSimulator in sims
    ensures Unsettled(w.Plane(), t.blocks, i) ==> Unsettled(w.Plane(), s.blocks, i) && i != p && i != p + w.Plane()
  {
    hide EditOutcome, Gap, Grounded, w.Plane;
    EditDefects(w, sims, s, p, v, t);
    assert Unsettled(w.Plane(), t.blocks, i) ==> Unsettled(w.Plane(), s.Written(p, v).blocks, i);
  }

  /** On a settled level, a grain placed over a floor comes to rest in the lowest cell of the shaft
      below it: directly on a hard block or on a grain that rests itself. */
  lemma GrainComesToRest(w: World, sims: set<Simulator>, s: State, p: int, v: byte, t: State)
    requires EditOutcome(w, sims, s, p, v, t) && SandSimulator in sims
    requires IsGrain(v)
    requires Grounded(w.Plane(), s.blocks) && Settled(w.Plane(), s.blocks)
    requires HasFloor(w.Plane(), s.blocks, p)
    ensures var j := Landing(w.Plane(), s.blocks, p); t.blocks[j] == v && Firm(w.Plane(), t.blocks, j)
  {
    hide EditOutcome, WaterHandled, LavaHandled, w.Plane, Rests, Landing, Firm, HasFloor, Grounded, Settled, Unsettled;
    EditHandles(w, sims, s, p, v, t);
    assert SandHandled(w, v, p, s.Written(p, v), t);
    RestsOnSettled(w.Plane(), s.blocks, p, v, t.blocks);
  }

  lemma RestsOnSettled(plane: nat, b: seq<byte>, p: int, v: byte, d: seq<byte>)
    requires 0 <= p < |b| == |d|
    requires Grounded(plane, b) && Settled(plane, b) && HasFloor(plane, b, p)
    requires Rests(plane, b[p := v], d, p, v)
    ensures var j := Landing(plane, b, p); d[j] == v && Firm(plane, d, j)
  {
    hide Landing, Firm, HasFloor, Grounded, Settled;
    SameLanding(plane, b, b[p := v], p, p);
    LandsOnFirm(plane, b, p);
    FirmBelow(plane, b, b[p := v], Landing(plane, b, p) - plane, p);
  }

  lemma LandsOnFirm(plane: nat, b: seq<byte>, p: int)
    requires 0 <= p < |b|
    requires Grounded(plane, b) && Settled(plane, b) && HasFloor(plane, b, p)
    ensures var j := Landing(plane, b, p); 0 < plane <= j && Firm(plane, b, j - plane)
  {
    hide Landing, HasFloor;
    var j := Landing(plane, b, p);
    FloorUnderLanding(plane, b, p);
    if IsGrain(b[j - plane]) {
      SettledIsFirm(plane, b, j - plane);
    }
  }

  // ------------------------------------------------------------------
  // How many grains are left.

  /** No edit makes more grains, unless it puts one in place of a sponge where the refill around the
      sponge can disturb it; then it makes at most one. */
  lemma GrainsNeverMultiply(w: World, sims: set<Simulator>, s: State, p: int, v: byte, t: State)
    requires EditOutcome(w, sims, s, p, v, t)
    ensures || FewerGrains(s.Written(p, v).blocks, t.blocks)
            || (s.blocks[p] == SPONGE && IsGrain(v) && !Steady(w, sims, s.Written(p, v).blocks))
    ensures Grains(t.blocks) <= Grains(s.Written(p, v).blocks) + 1
  {
    hide EditOutcome, Orderly, Tidy, FewerGrains, Grains, Steady, w.Plane;
    EditGrains(w, sims, s, p, v, t);
  }

  /** After a write on a settled level only the written cell or the one above it can fall. */
  lemma OneCanFall(plane: nat, b: seq<byte>, p: int, v: byte, c: seq<byte>, q: int)
    requires 0 <= p < |b| && c == b[p := v] && Settled(plane, b) && Unsettled(plane, c, q)
    ensures q == p || q == p + plane
    ensures forall i :: Unsettled(plane, c, i) ==> i == q
  {
    forall i | Unsettled(plane, c, i)
      ensures if IsGrain(v) then i == p else i == p + plane
    {
      assert !Unsettled(plane, b, i);
    }
  }

  /** On a settled level, a grain put in place of a sponge can be disturbed by the refill exactly if it
      can fall and a gap of the border touches it. */
  lemma SteadyUnlessTouched(w: World, sims: set<Simulator>, s: State, p: int, v: byte)
    requires 0 <= p < |s.blocks| && IsGrain(v) && Settled(w.Plane(), s.blocks)
    ensures var b := s.Written(p, v).blocks;
            Steady(w, sims, b) <==>
            (SandSimulator in sims && Unsettled(w.Plane(), b, p) ==> forall j :: Gap(w, b, j) ==> !w.Touches(j, p))
  {
    hide SpongeNear, w.EdgeCell, w.Touches;
    var plane, b := w.Plane(), s.Written(p, v).blocks;
    hide w.Plane;
    forall q | Unsettled(plane, b, q)
      ensures q == p
    {
      OneCanFall(plane, s.blocks, p, v, b, q);
      assert !Unsettled(plane, s.blocks, q);
    }
    assert forall j :: Gap(w, b, j) <==> j in AllGaps(w, b);
  }

  /** The only grain that can fall has firm ground below. */
  lemma PoisedAlone(plane: nat, b: seq<byte>, q: int)
    requires Grounded(plane, b) && Unsettled(plane, b, q)
    requires forall i :: Unsettled(plane, b, i) ==> i == q
    ensures Poised(plane, b, q) && Landing(plane, b, q) < q
  {
    FloorUnderLanding(plane, b, q);
    var j := Landing(plane, b, q);
    OneStepDown(plane, b, q);
    hide Landing, HasFloor;
    if IsGrain(b[j - plane]) {
      SettledIsFirm(plane, b, j - plane);
    }
  }

  lemma OneStepDown(plane: nat, b: seq<byte>, q: int)
    requires Unsettled(plane, b, q)
    ensures Landing(plane, b, q) <= q - plane
  {
  }

  /** Grains are conserved by an edit of a settled level if and only if no grain that it lets fall
      has another directly above it. Only a grain put in place of a sponge, where the refill can
      disturb it, is not covered. */
  lemma ConservedIffNotTopped(w: World, sims: set<Simulator>, s: State, p: int, v: byte, t: State)
    requires EditOutcome(w, sims, s, p, v, t) && SandSimulator in sims
    requires !(s.blocks[p] == SPONGE && IsGrain(v) && !Steady(w, sims, s.Written(p, v).blocks))
    requires Settled(w.Plane(), s.blocks) && Grounded(w.Plane(), s.Written(p, v).blocks)
    ensures var b := s.Written(p, v).blocks;
            Grains(t.blocks) == Grains(b)
            <==> forall q :: Unsettled(w.Plane(), b, q) ==> !Topped(w.Plane(), b, q)
  {
    hide EditOutcome, Settled, Grounded, Grains, Firm, Landing, Gap, FewerGrains, FirmStays, Tidy, Steady;
    EditGrains(w, sims, s, p, v, t);
    EditDefects(w, sims, s, p, v, t);
    var plane, b := w.Plane(), s.Written(p, v).blocks;
    hide w.Plane;
    if q :| Unsettled(plane, b, q) {
      OneCanFall(plane, s.blocks, p, v, b, q);
      PoisedAlone(plane, b, q);
      if Topped(plane, b, q) {
        assert ShaftKept(plane, b, t.blocks, q);
        if Poised(plane, t.blocks, q) && Landing(plane, t.blocks, q) == Landing(plane, b, q) {
          CanFall(plane, t.blocks, q);
        }
        assert Grains(t.blocks) < Grains(b);
      } else {
        assert Solo(plane, b, q);
      }
    } else {
      NoneCanFall(plane, b);
    }
  }

  lemma NoneCanFall(plane: nat, b: seq<byte>)
    requires !exists q :: Unsettled(plane, b, q)
    ensures Settled(plane, b)
  {
  }

  lemma FallsAlone(w: World, sims: set<Simulator>, s: State, p: int, v: byte, t: State, q: int)
    requires EditOutcome(w, sims, s, p, v, t) && SandSimulator in sims
    requires ModeOf(w, sims, s, p, v).Floods()
    requires Settled(w.Plane(), s.blocks) && Grounded(w.Plane(), s.Written(p, v).blocks)
    requires Unsettled(w.Plane(), s.Written(p, v).blocks, q) && !Topped(w.Plane(), s.Written(p, v).blocks, q)
    ensures LoneFall(w.Plane(), s.Written(p, v).blocks, t.blocks, q) && !Unsettled(w.Plane(), t.blocks, q)
  {
    hide EditOutcome, Settled, Grounded, FewerGrains, Grains, Landing, Orderly, Steady, Poised, Unsettled, Topped,
         LoneFall, OnlyFlooded, Gap, ModeOf, Firm;
    EditGrains(w, sims, s, p, v, t);
    EditDefects(w, sims, s, p, v, t);
    var plane, b := w.Plane(), s.Written(p, v).blocks;
    OneCanFall(plane, s.blocks, p, v, b, q);
    PoisedAlone(plane, b, q);
    hide w.Plane;
    assert Solo(plane, b, q);
  }

  /** Exactly what an edit of a settled level changes when it lets one grain fall that has no other
      above it: the grain lies at its landing, its start is empty or flooded, and besides only gaps
      of the border are flooded. */
  lemma LoneFallExact(w: World, sims: set<Simulator>, s: State, p: int, v: byte, t: State, q: int)
    requires EditOutcome(w, sims, s, p, v, t) && SandSimulator in sims
    requires ModeOf(w, sims, s, p, v).Floods()
    requires Settled(w.Plane(), s.blocks) && Grounded(w.Plane(), s.Written(p, v).blocks)
    requires Unsettled(w.Plane(), s.Written(p, v).blocks, q) && !Topped(w.Plane(), s.Written(p, v).blocks, q)
    ensures var b := s.Written(p, v).blocks;
            var j := Landing(w.Plane(), b, q);
            && 0 <= j < q < |b| && t.blocks[j] == b[q]
            && (t.blocks[q] == AIR || (t.blocks[q] == ACTIVE_WATER && w.EdgeCell(q) && !SpongeNear(w, b, q)))
            && forall i :: 0 <= i < |b| && i != q && i != j ==>
                 t.blocks[i] == b[i] || (Gap(w, b, i) && t.blocks[i] == ACTIVE_WATER)
  {
    hide EditOutcome, Settled, Grounded, Landing, SpongeNear, w.EdgeCell, Unsettled, Topped, LoneFall, ModeOf, Steady;
    EditKeepsGround(w, sims, s, p, v, t);
    FallsAlone(w, sims, s, p, v, t, q);
    var plane, b := w.Plane(), s.Written(p, v).blocks;
    hide w.Plane;
    HasFallen(plane, b, t.blocks, q);
    LooseLands(plane, b, q);
    forall i | 0 <= i < |b| && t.blocks[i] == ACTIVE_WATER && b[i] != ACTIVE_WATER
      ensures w.EdgeCell(i) && !SpongeNear(w, b, i)
    {
      EditFluids(w, sims, s, p, v, t, i);
    }
  }

  lemma LooseLands(plane: nat, b: seq<byte>, q: int)
    requires Unsettled(plane, b, q)
    ensures 0 <= q < |b| && IsGrain(b[q]) && Landing(plane, b, q) < q
  {
    OneStepDown(plane, b, q);
  }

  lemma HasFallen(plane: nat, b: seq<byte>, c: seq<byte>, q: int)
    requires LoneFall(plane, b, c, q) && !Unsettled(plane, c, q)
    ensures 0 <= q < |b| == |c| && 0 <= Landing(plane, b, q) < |b|
    ensures c[Landing(plane, b, q)] == b[q] && c[q] in {AIR, ACTIVE_WATER}
    ensures OnlyFlooded(b, c, {q, Landing(plane, b, q)})
  {
    hide Settled, Landing, Unsettled, Poised;
    if Solo(plane, c, q) {
      SoloCell(plane, c, q);
    }
  }

  /** An edit of a level where nothing can fall then only floods gaps of the border. */
  lemma CalmEditExact(w: World, sims: set<Simulator>, s: State, p: int, v: byte, t: State, i: int)
    requires EditOutcome(w, sims, s, p, v, t) && SandSimulator in sims
    requires ModeOf(w, sims, s, p, v).Floods() && Settled(w.Plane(), s.Written(p, v).blocks)
    requires 0 <= i < |s.blocks|
    ensures var b := s.Written(p, v).blocks;
            t.blocks[i] == b[i] || (Gap(w, b, i) && t.blocks[i] == ACTIVE_WATER)
  {
    hide EditOutcome, Settled, Solo, Grains, Firm, Orderly, Steady, SpongeNear, w.EdgeCell, GrainSource, w.Plane;
    EditGrains(w, sims, s, p, v, t);
    EditCells(w, sims, s, p, v, t);
    assert CellChange(w, ModeOf(w, sims, s, p, v), s.Written(p, v), t, i);
  }

  /** Taking away the stone under two stacked grains leaves only one: the upper grain falls first and
      is overwritten by the lower one. */
  lemma LostGrain(sims: set<Simulator>, s: State, t: State)
    requires s.blocks == [STONE, STONE, SAND, GRAVEL] && SandSimulator in sims
    requires EditOutcome(World(1, 4, 1, STONE, 0, 0), sims, s, 1, AIR, t)
    ensures Grains(s.blocks) == 2 && Grains(t.blocks) < 2
  {
    hide EditOutcome, Firm, Landing, Settled, Grounded, Unsettled, Grains, FewerGrains;
    var w := World(1, 4, 1, STONE, 0, 0);
    var b := s.Written(1, AIR).blocks;
    assert b == [STONE, AIR, SAND, GRAVEL];
    assert w.Plane() == 1;
    TwoStacked();
    ConservedIffNotTopped(w, sims, s, 1, AIR, t);
    assert Unsettled(1, b, 2) && Topped(1, b, 2);
    GrainsNeverMultiply(w, sims, s, 1, AIR, t);
    FewerInAll(b, t.blocks);
  }

  lemma FewerInAll(b: seq<byte>, c: seq<byte>)
    requires FewerGrains(b, c)
    ensures Grains(c) <= Grains(b)
  {
  }

  lemma TwoStacked()
    ensures Settled(1, [STONE, STONE, SAND, GRAVEL])
    ensures var b := [STONE, AIR, SAND, GRAVEL];
            Grounded(1, b) && Unsettled(1, b, 2) && Topped(1, b, 2) && Grains(b) == 2
    ensures Grains([STONE, STONE, SAND, GRAVEL]) == 2
  {
    var b := [STONE, AIR, SAND, GRAVEL];
    assert HasFloor(1, b, 1) && HasFloor(1, b, 2) && HasFloor(1, b, 3);
  }

  // ------------------------------------------------------------------
  // Sponges.

  /** A sponge placed over another block dries the clipped 5 by 5 by 5 cube around it. */
  lemma SpongeDries(w: World, sims: set<Simulator>, s: State, p: int, t: State, i: int)
    requires EditOutcome(w, sims, s, p, SPONGE, t) && WaterSimulator in sims
    requires s.blocks[p] != SPONGE
    requires i in Cube(w, p, SPONGE_REACH) && 0 <= i < |t.blocks|
    ensures !IsWater(t.blocks[i]) && t.blocks[p] == SPONGE
  {
    hide EditOutcome, SandHandled, LavaHandled, w.EdgeCell, w.Plane, Cube, Firm, Gap;
    EditCells(w, sims, s, p, SPONGE, t);
    EditHandles(w, sims, s, p, SPONGE, t);
    assert CellChange(w, Soak(p), s.Written(p, SPONGE), t, p);
  }

  /** On a level where nothing can fall, a placed sponge takes only water, and only from that cube;
      other cells change only where the border is flooded. */
  lemma SpongeTakesOnlyWater(w: World, sims: set<Simulator>, s: State, p: int, t: State, i: int)
    requires EditOutcome(w, sims, s, p, SPONGE, t) && s.blocks[p] != SPONGE
    requires Calm(w, sims, s.Written(p, SPONGE).blocks)
    requires 0 <= i < |s.blocks| == |t.blocks| && i != p && t.blocks[i] != s.blocks[i]
    ensures || (IsWater(s.blocks[i]) && t.blocks[i] in {AIR, ACTIVE_WATER} && i in Cube(w, p, SPONGE_REACH))
            || (s.blocks[i] == AIR && t.blocks[i] == ACTIVE_WATER && w.EdgeCell(i))
  {
    hide CellsEvolve, DefectsShrink, FloodsOn, QueuesGrow, WaterFed, LavaFed, PaidWrites, GrainsEvolve, Handled,
         NeighboursAwake, EditContained, Unsettled, Gap, Calm, w.Plane, Cube, w.EdgeCell;
    assert CalmChange(w, Soak(p), i, s.Written(p, SPONGE).blocks[i], t.blocks[i]);
  }

  /** No edit wets a cell that some sponge keeps dry, unless it puts water there itself. */
  lemma EditKeepsDry(w: World, sims: set<Simulator>, s: State, p: int, v: byte, t: State, i: int)
    requires EditOutcome(w, sims, s, p, v, t) && (v == SPONGE ==> WaterSimulator in sims)
    requires Wet(w, t.blocks, i)
    ensures Wet(w, s.blocks, i) || (i == p && IsWater(v))
  {
    hide EditOutcome, w.EdgeCell, w.Plane, Cube, Firm, GrainSource;
    EditCells(w, sims, s, p, v, t);
    var m := s.Written(p, v);
    var mode := ModeOf(w, sims, s, p, v);
    assert CellChange(w, mode, m, t, i);
    SpongesStay(w, mode, m, t);
    SpongeNearSame(w, m.blocks, t.blocks, i);
    assert IsWater(m.blocks[i]) && SpongeNear(w, m.blocks, i);
    if !SpongeNear(w, s.blocks, i) {
      var j :| j in Cube(w, i, SPONGE_REACH) && 0 <= j < |m.blocks| && m.blocks[j] == SPONGE;
      assert j == p;
      CubeSymmetric(w, i, p, SPONGE_REACH);
      SpongeDries(w, sims, s, p, t, i);
      assert false;
    }
  }

  // ------------------------------------------------------------------
  // The border.

  /** Flooding that starts from the seeds never gets to cell i: some set of cells around them leaves
      i out and has no gap beside it. */
  ghost predicate OutOfReach(w: World, b: seq<byte>, seeds: set<int>, i: int) {
    exists cells: set<int> :: seeds <= cells && FloodClosed(w, b, cells) && i !in cells
  }

  /** Where an edit of cell p starts: the cell itself, and what the water simulator writes to. */
  ghost function Sources(w: World, s: State, p: int, v: byte): set<int>
    requires 0 <= p < |s.blocks|
  {
    {p} + Seeds(w, s.Written(p, v).blocks, p, s.blocks[p], v)
  }

  ghost function Changed(b: seq<byte>, c: seq<byte>): set<int> {
    set i | 0 <= i < |b| == |c| && b[i] != c[i]
  }

  /** All that the water simulator writes to has changed, unless it is the edited cell. */
  lemma SourcesChange(w: World, sims: set<Simulator>, s: State, p: int, v: byte, t: State)
    requires EditOutcome(w, sims, s, p, v, t) && WaterSimulator in sims
    ensures 0 <= p < |s.blocks|
    ensures Sources(w, s, p, v) <= {p} + Changed(s.Written(p, v).blocks, t.blocks)
  {
    hide EditOutcome, SpongeNear, w.EdgeCell, Unsettled, w.Plane, Firm, CellChange, Cube, SandHandled, LavaHandled,
         Steady;
    EditCells(w, sims, s, p, v, t);
    EditHandles(w, sims, s, p, v, t);
    var b := s.Written(p, v).blocks;
    SpongesStay(w, ModeOf(w, sims, s, p, v), s.Written(p, v), t);
    forall i | i in Seeds(w, b, p, s.blocks[p], v)
      ensures i == p || i in Changed(b, t.blocks)
    {
      SpongeNearSame(w, b, t.blocks, i);
    }
  }

  /** The cells that an edit changes are never left beside a gap. */
  lemma FloodedAround(w: World, sims: set<Simulator>, s: State, p: int, v: byte, t: State)
    requires EditOutcome(w, sims, s, p, v, t) && WaterSimulator in sims
    ensures 0 <= p < |s.blocks|
    ensures FloodClosed(w, s.Written(p, v).blocks, {p} + Changed(s.Written(p, v).blocks, t.blocks))
  {
    hide EditOutcome, SpongeNear, w.EdgeCell, w.Touches, Unsettled, w.Plane, Firm, CellChange, Steady;
    EditCells(w, sims, s, p, v, t);
    EditFloods(w, sims, s, p, v, t);
    var b := s.Written(p, v).blocks;
    SpongesStay(w, ModeOf(w, sims, s, p, v), s.Written(p, v), t);
    forall i, j | i in {p} + Changed(b, t.blocks) && w.Touches(i, j) && Gap(w, b, j)
      ensures j in Changed(b, t.blocks)
    {
      SpongeNearSame(w, b, t.blocks, j);
      if i == p {
        assert Awake(w, sims, s, t, j);
        assert SweptCell(w, WaterSimulator, s, t, j);
      }
      assert !Gap(w, t.blocks, j);
    }
  }

  /** The only gaps an edit leaves are gaps of the written level that flooding from there never gets
      to. */
  lemma GapsLeft(w: World, sims: set<Simulator>, s: State, p: int, v: byte, t: State, i: int)
    requires EditOutcome(w, sims, s, p, v, t) && WaterSimulator in sims
    requires Gap(w, t.blocks, i)
    ensures i != p && Gap(w, s.Written(p, v).blocks, i)
    ensures OutOfReach(w, s.Written(p, v).blocks, Sources(w, s, p, v), i)
  {
    hide EditOutcome, SpongeNear, w.EdgeCell, Unsettled, Grounded, w.Plane, FloodClosed, Sources;
    EditDefects(w, sims, s, p, v, t);
    FloodedAround(w, sims, s, p, v, t);
    SourcesChange(w, sims, s, p, v, t);
    var cells := {p} + Changed(s.Written(p, v).blocks, t.blocks);
    assert i !in cells;
  }

  /** Outside a region around the sources nothing changes, whatever can fall elsewhere. */
  lemma OutsideRegion(w: World, sims: set<Simulator>, s: State, p: int, v: byte, t: State, cells: set<int>, i: int)
    requires EditOutcome(w, sims, s, p, v, t)
    requires Region(w, sims, s.Written(p, v).blocks, cells) && Sources(w, s, p, v) <= cells
    requires 0 <= i < |s.blocks| && i !in cells
    ensures t.blocks[i] == s.Written(p, v).blocks[i]
  {
    hide EditOutcome, Region, Seeds;
    EditFloods(w, sims, s, p, v, t);
    assert Within(s.Written(p, v).blocks, t.blocks, cells);
  }

  /** On a level where nothing can fall, exactly the gaps that flooding from the sources of the edit
      never gets to are left. */
  lemma GapsLeftIff(w: World, sims: set<Simulator>, s: State, p: int, v: byte, t: State, i: int)
    requires EditOutcome(w, sims, s, p, v, t) && WaterSimulator in sims
    requires Calm(w, sims, s.Written(p, v).blocks)
    requires Gap(w, s.Written(p, v).blocks, i)
    ensures Gap(w, t.blocks, i) <==> OutOfReach(w, s.Written(p, v).blocks, Sources(w, s, p, v), i)
  {
    hide EditOutcome, SpongeNear, w.EdgeCell, w.Plane, FloodClosed, CellChange, Firm, Sources, Steady;
    EditCells(w, sims, s, p, v, t);
    var b := s.Written(p, v).blocks;
    if Gap(w, t.blocks, i) {
      GapsLeft(w, sims, s, p, v, t, i);
    }
    if cells: set<int> :| Sources(w, s, p, v) <= cells && FloodClosed(w, b, cells) && i !in cells {
      CalmRegion(w, sims, b, cells);
      OutsideRegion(w, sims, s, p, v, t, cells, i);
      SpongesStay(w, ModeOf(w, sims, s, p, v), s.Written(p, v), t);
      SpongeNearSame(w, b, t.blocks, i);
    }
  }

  lemma CalmRegion(w: World, sims: set<Simulator>, b: seq<byte>, cells: set<int>)
    requires Calm(w, sims, b) && FloodClosed(w, b, cells)
    ensures Region(w, sims, b, cells)
  {
    hide FloodClosed, w.Touches, w.Plane;
    if SandSimulator in sims {
      forall i
        ensures !Unsettled(w.Plane(), b, i)
      {
        assert 0 <= i < |b| ==> !Unsettled(w.Plane(), b, i);
      }
    }
  }

  /** No edit opens a gap in the border, also when it replaces a sponge, except that an ignored
      replacement may leave one where the sponge kept the border dry and no flooding gets to. */
  lemma EditKeepsFlooded(w: World, sims: set<Simulator>, s: State, p: int, v: byte, t: State, i: int)
    requires EditOutcome(w, sims, s, p, v, t) && WaterSimulator in sims
    requires Gap(w, t.blocks, i)
    ensures i != p
    ensures || Gap(w, s.blocks, i)
            || (&& s.blocks[p] == SPONGE && v != SPONGE && SpongeIgnored(w, v, p)
                && i in Cube(w, p, SPONGE_REACH) && OutOfReach(w, s.Written(p, v).blocks, Sources(w, s, p, v), i))
  {
    hide EditOutcome, SandHandled, LavaHandled, w.EdgeCell, w.Plane, Cube, Dried, OutOfReach, Sources;
    GapsLeft(w, sims, s, p, v, t, i);
    EditHandles(w, sims, s, p, v, t);
    if SpongeNear(w, s.blocks, i) {
      var j :| j in Cube(w, i, SPONGE_REACH) && 0 <= j < |s.blocks| && s.blocks[j] == SPONGE;
      assert j == p && v != SPONGE;
      CubeSymmetric(w, i, p, SPONGE_REACH);
      if !SpongeIgnored(w, v, p) {
        CubeGrows(w, p, i);
        assert false;
      }
    }
  }

  lemma CubeGrows(w: World, p: int, i: int)
    ensures i in Cube(w, p, SPONGE_REACH) ==> i in Cube(w, p, BREAK_REACH)
  {
    hide w.Size, w.Position;
  }

  /** Replacing a border sponge by air or active water can leave a gap: here stone keeps the flooding
      from the cell at the other end that the sponge kept dry. */
  lemma IgnoredSponge(sims: set<Simulator>, s: State, v: byte, t: State)
    requires s.blocks == [SPONGE, STONE, AIR] && v in {AIR, ACTIVE_WATER} && WaterSimulator in sims
    requires EditOutcome(World(3, 1, 1, ACTIVE_WATER, 1, -1), sims, s, 0, v, t)
    ensures var w := World(3, 1, 1, ACTIVE_WATER, 1, -1); !Gap(w, s.blocks, 2) && Gap(w, t.blocks, 2)
  {
    var w := World(3, 1, 1, ACTIVE_WATER, 1, -1);
    var b := s.Written(0, v).blocks;
    assert b == [v, STONE, AIR];
    ThreeCells(sims, v);
    hide EditOutcome, Gap, Calm, OutOfReach, Seeds, w.Position, w.Size;
    GapsLeftIff(w, sims, s, 0, v, t, 2);
  }

  lemma ThreeCells(sims: set<Simulator>, v: byte)
    requires v in {AIR, ACTIVE_WATER}
    ensures var w := World(3, 1, 1, ACTIVE_WATER, 1, -1);
            var b := [v, STONE, AIR];
            && !Gap(w, [SPONGE, STONE, AIR], 2) && Gap(w, b, 2)
            && Calm(w, sims, b) && OutOfReach(w, b, {0} + Seeds(w, b, 0, SPONGE, v), 2)
  {
    var w := World(3, 1, 1, ACTIVE_WATER, 1, -1);
    IndexPosition(w, 0, 0, 0);
    IndexPosition(w, 1, 0, 0);
    IndexPosition(w, 2, 0, 0);
    assert w.Position(0) == Coord(0, 0, 0) && w.Position(1) == Coord(1, 0, 0) && w.Position(2) == Coord(2, 0, 0);
    assert 0 in Cube(w, 2, SPONGE_REACH);
    var b := [v, STONE, AIR];
    assert FloodClosed(w, b, {0}) && {0} + Seeds(w, b, 0, SPONGE, v) == {0};
  }

  // ------------------------------------------------------------------
  // Writes.

  /** The number of cells that one edit writes is bounded by the potential just after it. */
  lemma EditWriteBound(w: World, sims: set<Simulator>, s: State, p: int, v: byte, t: State)
    requires EditOutcome(w, sims, s, p, v, t)
    ensures t.writes - s.writes <= 1 + Potential(w.Plane(), s.blocks) + 2 * Weight(w.Plane(), p, v) + 250
    ensures !SpongeEdit(s.blocks[p], v) ==>
              t.writes - s.writes + Potential(w.Plane(), t.blocks) <= 1 + Potential(w.Plane(), s.blocks[p := v])
  {
    hide CellsEvolve, CalmlyEvolve, DefectsShrink, FloodsOn, WaterFed, LavaFed, GrainsEvolve, QueuesGrow, Handled,
         NeighboursAwake, EditContained, Gap, Unsettled, w.Plane, Potential, Weight;
    PotentialUpdate(w.Plane(), s.blocks, p, v);
  }

  // ------------------------------------------------------------------
  // Whole histories of edits and ticks.

  /** No grain hangs in the air, no water lies near a sponge, the border is flooded, and
      nothing can fall out of the level. */
  ghost predicate Sound(w: World, b: seq<byte>) {
    && Grounded(w.Plane(), b) && Settled(w.Plane(), b)
    && (forall i :: 0 <= i < |b| ==> !Wet(w, b, i))
    && (forall i :: 0 <= i < |b| ==> !Gap(w, b, i))
  }

  lemma SoundFrom(w: World, b: seq<byte>)
    requires Grounded(w.Plane(), b) && Settled(w.Plane(), b)
    requires forall i :: !Gap(w, b, i)
    ensures (forall i :: !Wet(w, b, i)) ==> Sound(w, b)
  {
    hide Grounded, Settled, Wet, Gap, w.Plane;
  }

  /** A player edit that opens no floor, puts no water near a sponge, and, if it replaces a sponge by
      a block for which its removal goes unnoticed, leaves no border air out of reach. */
  ghost predicate CarefulEdit(w: World, s: State, p: int, v: byte)
    requires 0 <= p < |s.blocks|
  {
    && Grounded(w.Plane(), s.Written(p, v).blocks)
    && !(IsWater(v) && SpongeNear(w, s.blocks[p := v], p))
    && (s.blocks[p] == SPONGE && v != SPONGE && SpongeIgnored(w, v, p) ==>
          forall i :: Gap(w, s.Written(p, v).blocks, i) ==>
            !OutOfReach(w, s.Written(p, v).blocks, Sources(w, s, p, v), i))
  }

  datatype Event = Edit(p: nat, v: byte) | Ticks

  ghost predicate Happens(w: World, sims: set<Simulator>, s: State, e: Event, t: State) {
    match e
    case Edit(p, v) => p < |s.blocks| && CarefulEdit(w, s, p, v) && EditOutcome(w, sims, s, p, v, t)
    case Ticks => Drifts(w, sims, s, t)
  }

  ghost predicate History(w: World, sims: set<Simulator>, states: seq<State>, events: seq<Event>) {
    && |states| == |events| + 1
    && forall k :: 0 <= k < |events| ==> Happens(w, sims, states[k], events[k], states[k + 1])
  }

  lemma EditKeepsSound(w: World, sims: set<Simulator>, s: State, p: nat, v: byte, t: State)
    requires sims == {WaterSimulator, LavaSimulator, SandSimulator} && Sound(w, s.blocks)
    requires p < |s.blocks| && CarefulEdit(w, s, p, v) && EditOutcome(w, sims, s, p, v, t)
    ensures Sound(w, t.blocks)
  {
    hide EditOutcome, Unsettled, Grounded, Gap, OutOfReach, Sources, w.EdgeCell, w.Plane, Cube, SpongeNear;
    EditKeepsGround(w, sims, s, p, v, t);
    forall i | 0 <= i < |t.blocks|
      ensures !Unsettled(w.Plane(), t.blocks, i) && !Gap(w, t.blocks, i)
    {
      EditKeepsSettled(w, sims, s, p, v, t, i);
      if Gap(w, t.blocks, i) {
        EditKeepsFlooded(w, sims, s, p, v, t, i);
        GapsLeft(w, sims, s, p, v, t, i);
      }
    }
    forall i | 0 <= i < |t.blocks|
      ensures !Wet(w, t.blocks, i)
    {
      if Wet(w, t.blocks, i) {
        EditKeepsDry(w, sims, s, p, v, t, i);
        PlacedWater(w, sims, s, p, v, t);
      }
    }
  }

  lemma EditKeepsGround(w: World, sims: set<Simulator>, s: State, p: int, v: byte, t: State)
    requires EditOutcome(w, sims, s, p, v, t) && Grounded(w.Plane(), s.Written(p, v).blocks)
    ensures Grounded(w.Plane(), t.blocks) && 0 <= p < |t.blocks| == |s.blocks|
  {
    hide EditOutcome, Gap, Unsettled, Grounded, w.Plane;
    EditDefects(w, sims, s, p, v, t);
  }

  lemma PlacedWater(w: World, sims: set<Simulator>, s: State, p: int, v: byte, t: State)
    requires EditOutcome(w, sims, s, p, v, t) && IsWater(v)
    ensures SpongeNear(w, t.blocks, p) == SpongeNear(w, s.Written(p, v).blocks, p)
  {
    hide EditOutcome, SpongeNear, CellChange, Firm, w.Plane;
    EditCells(w, sims, s, p, v, t);
    SpongesStay(w, ModeOf(w, sims, s, p, v), s.Written(p, v), t);
    SpongeNearSame(w, s.Written(p, v).blocks, t.blocks, p);
  }

  lemma DriftKeepsSound(w: World, sims: set<Simulator>, s: State, t: State)
    requires sims == {WaterSimulator, LavaSimulator, SandSimulator} && Sound(w, s.blocks)
    requires Drifts(w, sims, s, t)
    ensures Sound(w, t.blocks)
  {
    hide CalmlyEvolve, PaidWrites, Gap, Unsettled, Grounded, w.Plane, Firm, SpongeNear, FallsFrom, FewerGrains,
         w.EdgeCell;
    DriftSponges(w, Currents(sims), s.blocks, t.blocks);
    forall i | 0 <= i < |t.blocks|
      ensures !Wet(w, t.blocks, i) && !Unsettled(w.Plane(), t.blocks, i) && !Gap(w, t.blocks, i)
    {
      assert CellDrift(w, Currents(sims), s.blocks, t.blocks, i);
      assert !Wet(w, s.blocks, i) && !Unsettled(w.Plane(), s.blocks, i) && !Gap(w, s.blocks, i);
      SpongeNearSame(w, s.blocks, t.blocks, i);
    }
  }

  /** Safety over whole histories: with all three simulators registered, a sound level stays
      sound through any interleaving of careful edits and ticks. */
  lemma {:induction false} AlwaysSound(w: World, sims: set<Simulator>, states: seq<State>, events: seq<Event>, n: nat)
    requires sims == {WaterSimulator, LavaSimulator, SandSimulator}
    requires History(w, sims, states, events) && Sound(w, states[0].blocks)
    requires n < |states|
    ensures Sound(w, states[n].blocks)
    decreases n
  {
    hide Sound, Drifts, EditOutcome, CarefulEdit;
    if n > 0 {
      AlwaysSound(w, sims, states, events, n - 1);
      assert Happens(w, sims, states[n - 1], events[n - 1], states[n]);
      match events[n - 1]
      case Edit(p, v) => EditKeepsSound(w, sims, states[n - 1], p, v, states[n]);
      case Ticks => DriftKeepsSound(w, sims, states[n - 1], states[n]);
    }
  }

  /** On a settled level, any run of ticks only floods air and makes stone: water makes stone of lava,
      lava makes stone of water, and air turns to stone only where both may come. */
  lemma TicksOnSettled(w: World, sims: set<Simulator>, s: State, t: State, i: int)
    requires Drifts(w, sims, s, t) && Settled(w.Plane(), s.blocks)
    requires 0 <= i < |s.blocks| && t.blocks[i] != s.blocks[i]
    ensures var before, after := s.blocks[i], t.blocks[i];
            || (before == AIR && after == ACTIVE_WATER && (WaterSimulator in sims || w.EdgeCell(i)))
            || (before == AIR && after == ACTIVE_LAVA && LavaSimulator in sims)
            || (IsLava(before) && after == STONE && WaterSimulator in sims)
            || (IsWater(before) && after == STONE && LavaSimulator in sims)
            || (before == AIR && after == STONE && LavaSimulator in sims && (WaterSimulator in sims || w.EdgeCell(i)))
  {
    hide CellsDrift, DefectsShrink, FewerGrains, PaidWrites, w.Plane, Settled, w.EdgeCell;
    assert CalmChange(w, Currents(sims), i, s.blocks[i], t.blocks[i]);
  }

  /** Enabling physics settles a grounded level and floods its border. */
  lemma SweptLevel(w: World, simulator: Simulator, s: State, t: State)
    requires Swept(w, simulator, s, t, |t.blocks|)
    ensures simulator.SandSimulator? ==> Settled(w.Plane(), t.blocks)
    ensures simulator.WaterSimulator? ==> forall i :: !Gap(w, t.blocks, i)
    ensures simulator.LavaSimulator? ==>
              forall i :: 0 <= i < |t.blocks| && IsLava(t.blocks[i]) ==>
                Scheduled(t.lava, i, LAVA_DELAY, s.drops, t.drops)
  {
    hide Unsettled, w.Plane;
    forall i | 0 <= i < |t.blocks|
      ensures simulator.SandSimulator? ==> !Unsettled(w.Plane(), t.blocks, i)
      ensures simulator.WaterSimulator? ==> !Gap(w, t.blocks, i)
      ensures simulator.LavaSimulator? && IsLava(t.blocks[i]) ==>
                Scheduled(t.lava, i, LAVA_DELAY, s.drops, t.drops)
    {
      assert SweptCell(w, simulator, s, t, i);
    }
  }

  /** A cascade wets no cell, and leaves hard cells alone. */
  lemma CascadeDry(w: World, sims: set<Simulator>, s: State, t: State)
    requires Evolves(w, sims, Cascade, s, t, 0)
    ensures |s.blocks| == |t.blocks|
    ensures forall i :: 0 <= i < |s.blocks| && IsHard(s.blocks[i]) ==> t.blocks[i] == s.blocks[i]
    ensures forall i :: Wet(w, t.blocks, i) ==> Wet(w, s.blocks, i)
  {
    hide CalmlyEvolve, DefectsShrink, FloodsOn, WaterFed, LavaFed, GrainsEvolve, QueuesGrow, PaidWrites, SpongeNear,
         Firm, w.EdgeCell, w.Plane, GrainSource;
    SpongesStay(w, Cascade, s, t);
    forall i | Wet(w, t.blocks, i)
      ensures Wet(w, s.blocks, i)
    {
      SpongeNearSame(w, s.blocks, t.blocks, i);
      assert CellChange(w, Cascade, s, t, i);
    }
  }

  lemma NoNewGaps(w: World, sims: set<Simulator>, s: State, t: State)
    requires Evolves(w, sims, Cascade, s, t, 0) && WaterSimulator in sims
    requires forall i :: !Gap(w, s.blocks, i)
    ensures forall i :: !Gap(w, t.blocks, i)
  {
    hide Evolves, Gap, Unsettled, w.Plane;
    NoNewDefects(w, sims, Cascade, s, t, 0);
    forall i ensures !Gap(w, t.blocks, i)
    {
      assert !Gap(w, s.blocks, i);
    }
  }

  /** Lava that was scheduled between a and b is still scheduled at c, and no lava has been added. */
  lemma LavaStaysScheduled(w: World, sims: set<Simulator>, s: State, a: State, b: State, c: State)
    requires s.drops <= a.drops && a.drops <= b.drops
    requires forall i :: 0 <= i < |b.blocks| && IsLava(b.blocks[i]) ==>
             Scheduled(b.lava, i, LAVA_DELAY, a.drops, b.drops)
    requires Evolves(w, sims, Cascade, b, c, 0)
    ensures forall i :: 0 <= i < |c.blocks| && IsLava(c.blocks[i]) ==>
            Scheduled(c.lava, i, LAVA_DELAY, s.drops, c.drops)
  {
    hide CalmlyEvolve, DefectsShrink, FloodsOn, WaterFed, LavaFed, GrainsEvolve, PaidWrites, ValidQueues, SpongeNear,
         Firm, w.EdgeCell, w.Plane, GrainSource;
    forall i | 0 <= i < |c.blocks| && IsLava(c.blocks[i])
      ensures Scheduled(c.lava, i, LAVA_DELAY, s.drops, c.drops)
    {
      assert CellChange(w, Cascade, b, c, i);
    }
  }
}
