/** What the notions of block physics mean in coordinates and block numbers. */
module Coordinates {
  import opened Blocks
  import opened Geometry
  import opened Columns
  import opened Cubes
  import opened Evolution
  import opened Ticks
  import opened Runs
  import opened Laws
  import opened Resting

  /** The numbers of the blocks that physics knows. */
  lemma BlockNumbers(v: byte)
    ensures AIR == 0 && STONE == 1 && SPONGE == 19
    ensures ACTIVE_WATER == 8 && ACTIVE_LAVA == 10
    ensures IsWater(v) <==> v == 8 || v == 9
    ensures IsLava(v) <==> v == 10 || v == 11
    ensures IsGrain(v) <==> v == 12 || v == 13
    ensures IsPassable(v) <==> v == 0 || 8 <= v <= 11
    ensures IsHard(v) <==> !(v == 0 || 8 <= v <= 13)
  {
  }

  /** Cells are numbered along x, then along z, then upwards. */
  lemma IndexStrides(w: World, x: int, y: int, z: int)
    ensures w.Index(0, 0, 0) == 0
    ensures w.Index(x + 1, y, z) == w.Index(x, y, z) + 1
    ensures w.Index(x, y, z + 1) == w.Index(x, y, z) + w.width
    ensures w.Index(x, y + 1, z) == w.Index(x, y, z) + w.width * w.length
    ensures w.Size() == w.width * w.height * w.length
  {
    IndexAbove(w, x, y, z);
    assert w.width * (z + 1 + w.length * y) == w.width * (z + w.length * y) + w.width;
    assert w.width * (0 + w.length * 0) == 0;
  }

  /** The block at inside coordinates. */
  function BlockAt(w: World, b: seq<byte>, x: int, y: int, z: int): byte
    requires |b| == w.Size() && w.Inside(x, y, z)
  {
    IndexPosition(w, x, y, z);
    b[w.Index(x, y, z)]
  }

  function Distance(a: int, b: int): nat {
    if a < b then b - a else a - b
  }

  lemma TouchesMeans(w: World, x: int, y: int, z: int, x': int, y': int, z': int)
    requires w.Inside(x, y, z) && w.Inside(x', y', z')
    ensures w.Touches(w.Index(x, y, z), w.Index(x', y', z'))
            <==> Distance(x, x') + Distance(y, y') + Distance(z, z') == 1
  {
    hide w.Index, w.Size, w.Position;
    IndexPosition(w, x, y, z);
    IndexPosition(w, x', y', z');
  }

  /** Fluids spread to the four sides and down. */
  lemma SpreadsMeans(w: World, x: int, y: int, z: int, x': int, y': int, z': int)
    requires w.Inside(x, y, z) && w.Inside(x', y', z')
    ensures SpreadsTo(w, w.Index(x, y, z), w.Index(x', y', z'))
            <==> (y' == y && Distance(x, x') + Distance(z, z') == 1) || (x' == x && z' == z && y' == y - 1)
  {
    hide w.Index, w.Size, w.Position;
    IndexPosition(w, x, y, z);
    IndexPosition(w, x', y', z');
  }

  lemma CubeMeans(w: World, x: int, y: int, z: int, r: nat, x': int, y': int, z': int)
    requires w.Inside(x, y, z) && w.Inside(x', y', z')
    ensures w.Index(x', y', z') in Cube(w, w.Index(x, y, z), r)
            <==> Distance(x, x') <= r && Distance(y, y') <= r && Distance(z, z') <= r
  {
    hide w.Index, w.Size, w.Position;
    IndexPosition(w, x, y, z);
    IndexPosition(w, x', y', z');
  }

  /** The removal of a sponge is felt within three cells, and a sponge keeps water away within two. */
  lemma SpongeMeans(w: World, b: seq<byte>, x: int, y: int, z: int)
    requires |b| == w.Size() && w.Inside(x, y, z)
    ensures BREAK_REACH == 3
    ensures SpongeNear(w, b, w.Index(x, y, z)) <==>
            exists x', y', z' :: w.Inside(x', y', z') && BlockAt(w, b, x', y', z') == 19
                                 && Distance(x, x') <= 2 && Distance(y, y') <= 2 && Distance(z, z') <= 2
  {
    hide w.Index, w.Size, w.Position, Cube;
    IndexPosition(w, x, y, z);
    if SpongeNear(w, b, w.Index(x, y, z)) {
      var j :| j in Cube(w, w.Index(x, y, z), 2) && 0 <= j < |b| && b[j] == SPONGE;
      PositionIndex(w, j);
      var q := w.Position(j);
      CubeMeans(w, x, y, z, 2, q.x, q.y, q.z);
      assert BlockAt(w, b, q.x, q.y, q.z) == 19;
    }
    forall x', y', z' | w.Inside(x', y', z') && BlockAt(w, b, x', y', z') == 19
                        && Distance(x, x') <= 2 && Distance(y, y') <= 2 && Distance(z, z') <= 2
      ensures SpongeNear(w, b, w.Index(x, y, z))
    {
      IndexPosition(w, x', y', z');
      CubeMeans(w, x, y, z, 2, x', y', z');
      assert w.Index(x', y', z') in Cube(w, w.Index(x, y, z), 2);
    }
  }

  /** The border band lies on all four sides. */
  lemma EdgeMeans(w: World, x: int, y: int, z: int)
    requires w.Inside(x, y, z)
    ensures w.EdgeCell(w.Index(x, y, z)) <==>
            && (w.edgeBlock == 8 || w.edgeBlock == 9)
            && w.edgeHeight + w.sideOffset <= y < w.edgeHeight
            && (x == 0 || z == 0 || x == w.width - 1 || z == w.length - 1)
  {
    hide w.Index, w.Size, w.Position;
    IndexPosition(w, x, y, z);
  }

  lemma GapMeans(w: World, b: seq<byte>, x: int, y: int, z: int)
    requires |b| == w.Size() && w.Inside(x, y, z)
    ensures Gap(w, b, w.Index(x, y, z)) <==>
            && BlockAt(w, b, x, y, z) == 0
            && (w.edgeBlock == 8 || w.edgeBlock == 9)
            && w.edgeHeight + w.sideOffset <= y < w.edgeHeight
            && (x == 0 || z == 0 || x == w.width - 1 || z == w.length - 1)
            && forall x', y', z' :: w.Inside(x', y', z') && BlockAt(w, b, x', y', z') == 19 ==>
                 Distance(x, x') > 2 || Distance(y, y') > 2 || Distance(z, z') > 2
  {
    hide w.Index, w.Size, w.Position, SpongeNear, w.EdgeCell;
    IndexPosition(w, x, y, z);
    EdgeMeans(w, x, y, z);
    SpongeMeans(w, b, x, y, z);
  }

  /** A grain (12, 13) can fall if there is air or fluid (0, 8 to 11) right below it. */
  lemma UnsettledMeans(w: World, b: seq<byte>, x: int, y: int, z: int)
    requires |b| == w.Size() && w.Inside(x, y, z)
    ensures Unsettled(w.Plane(), b, w.Index(x, y, z)) <==>
            && 12 <= BlockAt(w, b, x, y, z) <= 13
            && y >= 1 && (BlockAt(w, b, x, y - 1, z) == 0 || 8 <= BlockAt(w, b, x, y - 1, z) <= 11)
  {
    hide w.Index, w.Size, w.Plane;
    IndexPosition(w, x, y, z);
    if y >= 1 {
      IndexPosition(w, x, y - 1, z);
      IndexAbove(w, x, y - 1, z);
      PlanePositive(w, x, y, z);
    } else {
      BottomLayer(w, x, z);
    }
  }

  lemma SettledMeans(w: World, b: seq<byte>)
    requires |b| == w.Size()
    ensures Settled(w.Plane(), b) <==>
            forall x, y, z :: w.Inside(x, y, z) && y >= 1 && 12 <= BlockAt(w, b, x, y, z) <= 13 ==>
              !(BlockAt(w, b, x, y - 1, z) == 0 || 8 <= BlockAt(w, b, x, y - 1, z) <= 11)
  {
    hide w.Index, w.Size, w.Plane, w.Position, Unsettled, BlockAt;
    forall x, y, z | w.Inside(x, y, z) && y >= 1 && 12 <= BlockAt(w, b, x, y, z) <= 13 && Settled(w.Plane(), b)
      ensures !(BlockAt(w, b, x, y - 1, z) == 0 || 8 <= BlockAt(w, b, x, y - 1, z) <= 11)
    {
      IndexPosition(w, x, y, z);
      UnsettledMeans(w, b, x, y, z);
    }
    forall i | 0 <= i < |b| && Unsettled(w.Plane(), b, i)
      ensures exists x, y, z :: w.Inside(x, y, z) && y >= 1 && 12 <= BlockAt(w, b, x, y, z) <= 13
                                && (BlockAt(w, b, x, y - 1, z) == 0 || 8 <= BlockAt(w, b, x, y - 1, z) <= 11)
    {
      PositionIndex(w, i);
      var q := w.Position(i);
      UnsettledMeans(w, b, q.x, q.y, q.z);
    }
  }

  // ------------------------------------------------------------------
  // The border after the water simulator has been registered.

  /** The border band is flooded on all four sides: none of its cells is air unless a sponge (19) lies
      within two cells along each axis. Where nothing can fall, its air has become active water (8). */
  lemma BorderFlooded(w: World, sims: set<Simulator>, s: State, t: State, x: int, y: int, z: int)
    requires Evolves(w, sims, Cascade, s, t, 0) && Swept(w, WaterSimulator, s, t, |t.blocks|)
    requires |s.blocks| == |t.blocks| == w.Size() && w.Inside(x, y, z)
    requires w.edgeBlock == 8 || w.edgeBlock == 9
    requires w.edgeHeight + w.sideOffset <= y < w.edgeHeight
    requires x == 0 || z == 0 || x == w.width - 1 || z == w.length - 1
    requires forall x', y', z' :: w.Inside(x', y', z') && BlockAt(w, t.blocks, x', y', z') == 19 ==>
               Distance(x, x') > 2 || Distance(y, y') > 2 || Distance(z, z') > 2
    ensures BlockAt(w, t.blocks, x, y, z) != 0
    ensures Calm(w, sims, s.blocks) && BlockAt(w, s.blocks, x, y, z) == 0 ==> BlockAt(w, t.blocks, x, y, z) == 8
  {
    hide w.Index, w.Size, w.Position, Gap, Calm, Evolves, Swept;
    SweptLevel(w, WaterSimulator, s, t);
    IndexPosition(w, x, y, z);
    GapMeans(w, t.blocks, x, y, z);
    if Calm(w, sims, s.blocks) {
      CalmFloodsGaps(w, sims, s, t, 0);
    }
  }

  /** Where nothing can fall, air at all other coordinates is still air. */
  lemma InnerAirStays(w: World, sims: set<Simulator>, s: State, t: State, x: int, y: int, z: int)
    requires Evolves(w, sims, Cascade, s, t, 0) && Calm(w, sims, s.blocks)
    requires |s.blocks| == |t.blocks| == w.Size() && w.Inside(x, y, z)
    requires !(&& (w.edgeBlock == 8 || w.edgeBlock == 9)
               && w.edgeHeight + w.sideOffset <= y < w.edgeHeight
               && (x == 0 || z == 0 || x == w.width - 1 || z == w.length - 1))
    requires BlockAt(w, s.blocks, x, y, z) == 0
    ensures BlockAt(w, t.blocks, x, y, z) == 0
  {
    hide w.Index, w.Size, w.Position, Gap, Calm, Evolves;
    CalmFloodsGaps(w, sims, s, t, 0);
    IndexPosition(w, x, y, z);
    GapMeans(w, s.blocks, x, y, z);
  }
}
