/** How far an update reaches: which cells can change at all. */
module Reach {
  import opened Blocks
  import opened Geometry
  import opened Columns
  import opened Cubes
  import opened Evolution

  /** A set of cells that the flooding of the border does not leave: with a cell it has all gaps
      touching it. */
  ghost predicate FloodClosed(w: World, b: seq<byte>, cells: set<int>) {
    forall i, j :: i in cells && w.Touches(i, j) && Gap(w, b, j) ==> j in cells
  }

  /** No grain that can fall lies in the set or touches it. */
  ghost predicate Undisturbed(w: World, sims: set<Simulator>, b: seq<byte>, cells: set<int>) {
    SandSimulator in sims ==>
      forall i :: Unsettled(w.Plane(), b, i) ==> i !in cells && forall j :: j in cells ==> !w.Touches(j, i)
  }

  /** A set of cells that immediate updates of its cells do not leave. */
  ghost predicate Region(w: World, sims: set<Simulator>, b: seq<byte>, cells: set<int>) {
    FloodClosed(w, b, cells) && Undisturbed(w, sims, b, cells)
  }

  /** Only cells of the set have changed, and only between air and fluids. */
  ghost predicate Within(b: seq<byte>, c: seq<byte>, cells: set<int>) {
    |b| == |c| &&
    forall i :: 0 <= i < |b| && c[i] != b[i] ==> i in cells && IsPassable(b[i]) && IsPassable(c[i])
  }

  /** Changes stay in every region around the seeds. */
  ghost predicate Confined(w: World, sims: set<Simulator>, b: seq<byte>, c: seq<byte>, seeds: set<int>) {
    forall cells: set<int> :: seeds <= cells && Region(w, sims, b, cells) ==> Within(b, c, cells)
  }

  ghost function GapAt(w: World, b: seq<byte>, p: int): set<int> {
    if Gap(w, b, p) then {p} else {}
  }

  ghost function GapsIn(w: World, b: seq<byte>, cells: set<int>): set<int> {
    set i | i in cells && Gap(w, b, i)
  }

  ghost function WaterIn(b: seq<byte>, cells: set<int>): set<int> {
    set i | i in cells && 0 <= i < |b| && IsWater(b[i])
  }

  ghost function AllGaps(w: World, b: seq<byte>): set<int> {
    set i | 0 <= i < |b| && Gap(w, b, i)
  }

  /** No gap of the border touches a grain that can fall, so that flooding disturbs none. */
  ghost predicate Steady(w: World, sims: set<Simulator>, b: seq<byte>) {
    Undisturbed(w, sims, b, AllGaps(w, b))
  }

  /** The cells that the water simulator itself writes to when it hears of cell p. */
  ghost function Seeds(w: World, b: seq<byte>, p: int, oldBlock: byte, v: byte): set<int> {
    if v == ACTIVE_WATER then {}
    else if v == AIR && w.EdgeCell(p) then GapAt(w, b, p)
    else if v == SPONGE && oldBlock != v then WaterIn(b, Cube(w, p, SPONGE_REACH))
    else if oldBlock == SPONGE && oldBlock != v then GapsIn(w, b, Cube(w, p, BREAK_REACH))
    else {}
  }

  lemma WithinTrans(b: seq<byte>, c: seq<byte>, d: seq<byte>, cells: set<int>)
    requires Within(b, c, cells) && Within(c, d, cells)
    ensures Within(b, d, cells)
  {
  }

  /** A region stays one while no sponge changes and no grain gets loose. */
  lemma RegionStays(w: World, sims: set<Simulator>, b: seq<byte>, c: seq<byte>, cells: set<int>)
    requires Region(w, sims, b, cells) && Within(b, c, cells) && SameSponges(b, c)
    requires SandSimulator in sims ==> forall i :: Unsettled(w.Plane(), c, i) ==> Unsettled(w.Plane(), b, i)
    ensures Region(w, sims, c, cells)
  {
    hide Unsettled, w.Touches, SpongeNear, w.EdgeCell, w.Plane;
    forall i, j | i in cells && w.Touches(i, j) && Gap(w, c, j)
      ensures j in cells
    {
      SpongeNearSame(w, b, c, j);
    }
  }

  /** What an evolution keeps of a region. */
  lemma Unchanged(w: World, sims: set<Simulator>, mode: Mode, s: State, t: State, slack: int)
    requires Evolves(w, sims, mode, s, t, slack)
    ensures SameSponges(s.blocks, t.blocks)
    ensures SandSimulator in sims ==> forall i :: Unsettled(w.Plane(), t.blocks, i) ==>
            Unsettled(w.Plane(), s.blocks, i)
    ensures WaterSimulator in sims ==> forall i :: Gap(w, t.blocks, i) ==> Gap(w, s.blocks, i)
  {
    hide CellChange, Firm, CalmlyEvolve, FloodsOn, QueuesGrow, WaterFed, LavaFed, PaidWrites, GrainsEvolve, w.Plane,
         Gap, Unsettled, Grounded, SameSponges;
    SpongesStay(w, mode, s, t);
  }

  /** Confined changes compose. The seeds of the second step may be gaps that were gaps before. */
  lemma ConfinedTrans(w: World, sims: set<Simulator>, mode: Mode, s: State, m: State, t: State, slack: int,
                      x: set<int>, y: set<int>, z: set<int>)
    requires Evolves(w, sims, mode, s, m, slack)
    requires Confined(w, sims, s.blocks, m.blocks, x) && Confined(w, sims, m.blocks, t.blocks, y)
    requires x <= z
    requires forall i :: i in y && i !in z ==> Gap(w, m.blocks, i) && !Gap(w, s.blocks, i)
    ensures Confined(w, sims, s.blocks, t.blocks, z)
  {
    hide Evolves, Region, SpongeNear, w.EdgeCell;
    Unchanged(w, sims, mode, s, m, slack);
    forall cells: set<int> | z <= cells && Region(w, sims, s.blocks, cells)
      ensures Within(s.blocks, t.blocks, cells)
    {
      RegionStays(w, sims, s.blocks, m.blocks, cells);
      forall i | i in y
        ensures i in cells
      {
        SpongeNearSame(w, s.blocks, m.blocks, i);
      }
      WithinTrans(s.blocks, m.blocks, t.blocks, cells);
    }
  }

  lemma ConfinedRefl(w: World, sims: set<Simulator>, b: seq<byte>, seeds: set<int>)
    ensures Confined(w, sims, b, b, seeds)
  {
    hide Region;
  }

  lemma MoreSeeds(w: World, sims: set<Simulator>, b: seq<byte>, c: seq<byte>, x: set<int>, y: set<int>)
    requires Confined(w, sims, b, c, x) && x <= y
    ensures Confined(w, sims, b, c, y)
  {
    hide Region, Within;
  }

  /** A region around a grain that can fall does not exist. */
  lemma NoRegion(w: World, sims: set<Simulator>, b: seq<byte>, c: seq<byte>, p: int, seeds: set<int>)
    requires SandSimulator in sims && Unsettled(w.Plane(), b, p) && p in seeds
    ensures Confined(w, sims, b, c, seeds)
  {
    hide Unsettled, w.Touches, FloodClosed, Within, w.Plane;
  }

  /** In a region around p, a neighbour of p is no grain that can fall, and if it is a gap it is in
      the region. */
  lemma TouchConfined(w: World, sims: set<Simulator>, b: seq<byte>, c: seq<byte>, p: int, i: int)
    requires w.Touches(p, i)
    requires (SandSimulator in sims ==> !Unsettled(w.Plane(), b, i)) ==> Confined(w, sims, b, c, GapAt(w, b, i))
    ensures Confined(w, sims, b, c, {p})
  {
    hide Gap, Unsettled, w.Touches, Within, w.Plane;
    forall cells: set<int> | {p} <= cells && Region(w, sims, b, cells)
      ensures Within(b, c, cells)
    {
      assert p in cells;
    }
  }

  /** A write of a fluid or air over a fluid or air, then confined changes, seen from before. */
  lemma ConfinedWrite(w: World, sims: set<Simulator>, b: seq<byte>, p: int, v: byte, c: seq<byte>, seeds: set<int>)
    requires 0 <= p < |b| && IsPassable(b[p]) && IsPassable(v) && p in seeds
    requires Confined(w, sims, b[p := v], c, seeds)
    ensures Confined(w, sims, b, c, seeds)
  {
    hide SpongeNear, w.Touches, w.EdgeCell, Region, w.Plane;
    var m := b[p := v];
    forall cells: set<int> | seeds <= cells && Region(w, sims, b, cells)
      ensures Within(b, c, cells)
    {
      assert Within(b, m, cells);
      forall i | Unsettled(w.Plane(), m, i)
        ensures Unsettled(w.Plane(), b, i)
      {
      }
      RegionStays(w, sims, b, m, cells);
      WithinTrans(b, m, c, cells);
    }
  }

  /** An update of a neighbour of (x, y, z) changes only what is reached from there. */
  lemma NeighbourConfined(w: World, sims: set<Simulator>, b: seq<byte>, c: seq<byte>,
                          x: int, y: int, z: int, x': int, y': int, z': int)
    requires w.Inside(x, y, z) && w.Inside(x', y', z')
    requires Coord(x', y', z') in {Coord(x + 1, y, z), Coord(x - 1, y, z), Coord(x, y + 1, z), Coord(x, y - 1, z),
                                   Coord(x, y, z + 1), Coord(x, y, z - 1)}
    requires UpdateConfined(w, sims, b, c, w.Index(x', y', z'))
    ensures Confined(w, sims, b, c, {w.Index(x, y, z)})
  {
    hide w.Index, w.Size, w.Position, Gap, Unsettled, Confined, w.Plane;
    IndexPosition(w, x, y, z);
    IndexPosition(w, x', y', z');
    assert w.Touches(w.Index(x, y, z), w.Index(x', y', z'));
    TouchConfined(w, sims, b, c, w.Index(x, y, z), w.Index(x', y', z'));
  }

  /** An update of a cell that is no grain able to fall reaches nothing, unless the cell is a gap. */
  ghost predicate UpdateConfined(w: World, sims: set<Simulator>, b: seq<byte>, c: seq<byte>, i: int) {
    (SandSimulator in sims ==> !Unsettled(w.Plane(), b, i)) ==> Confined(w, sims, b, c, GapAt(w, b, i))
  }

  /** If no gap touches a grain that can fall, flooding gaps leaves all grains alone. */
  lemma SteadyKeeps(w: World, sims: set<Simulator>, b: seq<byte>, c: seq<byte>, seeds: set<int>, p: int)
    requires Steady(w, sims, b) && Confined(w, sims, b, c, seeds) && seeds <= AllGaps(w, b)
    requires 0 <= p < |b| && !IsPassable(b[p])
    ensures |c| == |b| && c[p] == b[p]
  {
    hide Gap, Unsettled, w.Touches, w.Plane;
    var cells := AllGaps(w, b);
    forall i, j | i in cells && w.Touches(i, j) && Gap(w, b, j)
      ensures j in cells
    {
      GapCell(w, b, j);
    }
    assert Region(w, sims, b, cells);
  }

  lemma GapCell(w: World, b: seq<byte>, i: int)
    requires Gap(w, b, i)
    ensures 0 <= i < |b|
  {
  }
}
