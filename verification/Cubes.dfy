/** The clipped cube around a cell, in the order in which the sponge loops scan it. */
module Cubes {
  import opened Geometry

  function Min(x: int, y: int): int { if x < y then x else y }

  function Max(x: int, y: int): int { if x > y then x else y }

  /** The cells within r of cell p. */
  ghost function Cube(w: World, p: int, r: nat): set<int> {
    set i | 0 <= i < w.Size() && w.Near(p, i, r)
  }

  ghost predicate Before(w: World, i: nat, x: int, y: int, z: int)
    requires i < w.Size()
  {
    var q := w.Position(i);
    q.y < y || (q.y == y && (q.z < z || (q.z == z && q.x < x)))
  }

  /** The cells of the cube that a layer-by-layer, row-by-row scan meets before (x, y, z). */
  ghost function Scanned(w: World, p: int, r: nat, x: int, y: int, z: int): set<int> {
    set i | 0 <= i < w.Size() && w.Near(p, i, r) && Before(w, i, x, y, z)
  }

  lemma InCube(w: World, c: Coord, r: nat, x: int, y: int, z: int)
    requires w.Inside(c.x, c.y, c.z)
    requires Max(c.x - r, 0) <= x <= Min(c.x + r, w.width - 1)
    requires Max(c.y - r, 0) <= y <= Min(c.y + r, w.height - 1)
    requires Max(c.z - r, 0) <= z <= Min(c.z + r, w.length - 1)
    ensures w.Inside(x, y, z)
    ensures w.Index(x, y, z) in Cube(w, w.Index(c.x, c.y, c.z), r)
  {
    IndexPosition(w, c.x, c.y, c.z);
    IndexPosition(w, x, y, z);
    hide w.Index, w.Size, w.Position;
  }

  lemma ScanCell(w: World, c: Coord, r: nat, x: int, y: int, z: int)
    requires w.Inside(c.x, c.y, c.z)
    requires Max(c.x - r, 0) <= x <= Min(c.x + r, w.width - 1)
    requires Max(c.y - r, 0) <= y <= Min(c.y + r, w.height - 1)
    requires Max(c.z - r, 0) <= z <= Min(c.z + r, w.length - 1)
    ensures Scanned(w, w.Index(c.x, c.y, c.z), r, x + 1, y, z)
         == Scanned(w, w.Index(c.x, c.y, c.z), r, x, y, z) + {w.Index(x, y, z)}
  {
    var p, j := w.Index(c.x, c.y, c.z), w.Index(x, y, z);
    InCube(w, c, r, x, y, z);
    IndexPosition(w, x, y, z);
    forall i: nat | i < w.Size() && w.Position(i) == Coord(x, y, z)
      ensures i == j
    {
      PositionIndex(w, i);
    }
    hide w.Index, w.Size, w.Position, w.Near;
    forall i: nat | i < w.Size()
      ensures Before(w, i, x + 1, y, z) <==> Before(w, i, x, y, z) || i == j
    {
    }
  }

  lemma ScanRow(w: World, c: Coord, r: nat, y: int, z: int)
    requires w.Inside(c.x, c.y, c.z)
    ensures Scanned(w, w.Index(c.x, c.y, c.z), r, Min(c.x + r, w.width - 1) + 1, y, z)
         == Scanned(w, w.Index(c.x, c.y, c.z), r, Max(c.x - r, 0), y, z + 1)
  {
    var p := w.Index(c.x, c.y, c.z);
    IndexPosition(w, c.x, c.y, c.z);
    CubePositions(w, c, r);
    hide w.Index, w.Size, w.Position, w.Near;
  }

  lemma ScanLayer(w: World, c: Coord, r: nat, y: int)
    requires w.Inside(c.x, c.y, c.z)
    ensures Scanned(w, w.Index(c.x, c.y, c.z), r, Max(c.x - r, 0), y, Min(c.z + r, w.length - 1) + 1)
         == Scanned(w, w.Index(c.x, c.y, c.z), r, Max(c.x - r, 0), y + 1, Max(c.z - r, 0))
  {
    var p := w.Index(c.x, c.y, c.z);
    CubePositions(w, c, r);
    hide w.Index, w.Size, w.Position, w.Near;
  }

  lemma ScanEnds(w: World, c: Coord, r: nat)
    requires w.Inside(c.x, c.y, c.z)
    ensures var p := w.Index(c.x, c.y, c.z);
            && Scanned(w, p, r, Max(c.x - r, 0), Max(c.y - r, 0), Max(c.z - r, 0)) == {}
            && Scanned(w, p, r, Max(c.x - r, 0), Min(c.y + r, w.height - 1) + 1, Max(c.z - r, 0)) == Cube(w, p, r)
  {
    var p := w.Index(c.x, c.y, c.z);
    CubePositions(w, c, r);
    hide w.Index, w.Size, w.Position, w.Near;
  }

  lemma CubePositions(w: World, c: Coord, r: nat)
    requires w.Inside(c.x, c.y, c.z)
    ensures var p := w.Index(c.x, c.y, c.z);
            forall i: nat :: i < w.Size() && w.Near(p, i, r) ==>
              var q := w.Position(i);
              && Max(c.x - r, 0) <= q.x <= Min(c.x + r, w.width - 1)
              && Max(c.y - r, 0) <= q.y <= Min(c.y + r, w.height - 1)
              && Max(c.z - r, 0) <= q.z <= Min(c.z + r, w.length - 1)
  {
    var p := w.Index(c.x, c.y, c.z);
    IndexPosition(w, c.x, c.y, c.z);
    forall i: nat | i < w.Size() && w.Near(p, i, r)
      ensures var q := w.Position(i);
              && Max(c.x - r, 0) <= q.x <= Min(c.x + r, w.width - 1)
              && Max(c.y - r, 0) <= q.y <= Min(c.y + r, w.height - 1)
              && Max(c.z - r, 0) <= q.z <= Min(c.z + r, w.length - 1)
    {
      PositionIndex(w, i);
      hide w.Index, w.Size, w.Position;
    }
  }

  lemma ScannedInCube(w: World, p: int, r: nat, x: int, y: int, z: int)
    ensures Scanned(w, p, r, x, y, z) <= Cube(w, p, r)
  {
    hide w.Size, w.Near, Before;
  }
}
