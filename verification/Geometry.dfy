/** The flat layout of a level: coordinates, indices and the predicates that
    the water simulator evaluates on positions. */
module Geometry {
  import opened Blocks

  datatype Coord = Coord(x: int, y: int, z: int)

  /** The dimensions and the part of EnvConfig that physics reads. */
  datatype World = World(width: nat, height: nat, length: nat,
                         edgeBlock: byte, edgeHeight: int, sideOffset: int)
  {
    function Size(): nat { width * height * length }

    /** Number of cells in one layer; the cell above `i` is `i + Plane()`. */
    function Plane(): nat { width * length }

    function Index(x: int, y: int, z: int): int {
      x + width * (z + length * y)
    }

    predicate Inside(x: int, y: int, z: int) {
      0 <= x < width && 0 <= y < height && 0 <= z < length
    }

    function Position(i: nat): (p: Coord)
      requires i < Size()
    {
      PositiveDimensions(i);
      Coord(i % width, (i / width) / length, (i / width) % length)
    }

    /** Cells i and j differ by at most r along each axis. */
    predicate Near(i: int, j: int, r: int) {
      && 0 <= i < Size() && 0 <= j < Size()
      && var p, q := Position(i), Position(j);
      && -r <= p.x - q.x <= r && -r <= p.y - q.y <= r && -r <= p.z - q.z <= r
    }

    /** Cells i and j share a face. */
    predicate Touches(i: int, j: int) {
      && 0 <= i < Size() && 0 <= j < Size()
      && var p, q := Position(i), Position(j);
      || q == Coord(p.x + 1, p.y, p.z) || q == Coord(p.x - 1, p.y, p.z)
      || q == Coord(p.x, p.y + 1, p.z) || q == Coord(p.x, p.y - 1, p.z)
      || q == Coord(p.x, p.y, p.z + 1) || q == Coord(p.x, p.y, p.z - 1)
    }

    /** The border cells that the water around the level floods. */
    predicate Edge(x: int, y: int, z: int) {
      && IsWater(edgeBlock)
      && edgeHeight + sideOffset <= y < edgeHeight
      && (x == 0 || z == 0 || x == width - 1 || z == length - 1)
    }

    predicate EdgeCell(i: int) {
      0 <= i < Size() && var p := Position(i); Edge(p.x, p.y, p.z)
    }

    lemma PositiveDimensions(i: nat)
      requires i < Size()
      ensures width > 0 && height > 0 && length > 0 && Plane() > 0
    {
      MulPositive(width, height, length);
      MulPositive(1, width, length);
    }
  }

  lemma MulPositive(a: nat, b: nat, c: nat)
    ensures a * b * c > 0 ==> a > 0 && b > 0 && c > 0
    ensures a > 0 && b > 0 && c > 0 ==> b * c > 0
  {
  }

  lemma MulGrows(k: int, d: nat)
    requires k >= 1
    ensures k * d >= d
  {
    if k > 1 {
      MulGrows(k - 1, d);
      assert k * d == (k - 1) * d + d;
    }
  }

  lemma DivUnique(a: int, d: int, q: int, r: int)
    requires a == q * d + r && 0 <= r < d
    ensures a / d == q && a % d == r
  {
    var q', r' := a / d, a % d;
    assert a == q' * d + r';
    QuotientAtMost(d, q, r, q', r');
    QuotientAtMost(d, q', r', q, r);
  }

  lemma QuotientAtMost(d: int, q: int, r: int, q': int, r': int)
    requires q * d + r == q' * d + r' && 0 <= r < d && 0 <= r' < d
    ensures q' <= q
  {
    if q < q' {
      MulAtMost(q, q', d);
    }
  }

  lemma DivBelow(a: nat, d: nat, n: nat)
    requires d > 0 && a < n * d
    ensures 0 <= a / d < n
    ensures a == (a / d) * d + a % d
  {
    var q := a / d;
    assert a == q * d + a % d;
    if n < q {
      MulAtMost(n, q, d);
    }
  }

  lemma MulAtMost(a: int, b: int, c: nat)
    requires a < b
    ensures a * c + c <= b * c
  {
    MulGrows(b - a, c);
    assert (b - a) * c == b * c - a * c;
  }

  /** Index is a bijection between inside coordinates and [0, Size). */
  lemma IndexPosition(w: World, x: int, y: int, z: int)
    requires w.Inside(x, y, z)
    ensures 0 <= w.Index(x, y, z) < w.Size()
    ensures w.Position(w.Index(x, y, z)) == Coord(x, y, z)
  {
    var row := z + w.length * y;
    MulAtMost(y, w.height, w.length);
    assert y * w.length == w.length * y;
    assert 0 <= row < w.height * w.length by { NonNegative(w.length, y); }
    MulAtMost(row, w.height * w.length, w.width);
    NonNegative(w.width, row);
    assert w.width * row == row * w.width;
    SizeByRows(w);
    DivUnique(w.Index(x, y, z), w.width, row, x);
    DivUnique(row, w.length, y, z);
  }

  lemma NonNegative(a: nat, b: nat)
    ensures a * b >= 0
  {
  }

  lemma SizeByRows(w: World)
    ensures w.Size() == (w.height * w.length) * w.width
  {
  }

  lemma PositionIndex(w: World, i: nat)
    requires i < w.Size()
    ensures var p := w.Position(i); w.Inside(p.x, p.y, p.z) && w.Index(p.x, p.y, p.z) == i
  {
    w.PositiveDimensions(i);
    SizeByRows(w);
    DivBelow(i, w.width, w.height * w.length);
    DivBelow(i / w.width, w.length, w.height);
    IndexByRows(w, i % w.width, (i / w.width) / w.length, (i / w.width) % w.length);
  }

  lemma IndexByRows(w: World, x: int, y: int, z: int)
    ensures w.Index(x, y, z) == (y * w.length + z) * w.width + x
  {
  }

  /** The cell above a cell is one layer further in the array. */
  lemma IndexAbove(w: World, x: int, y: int, z: int)
    ensures w.Index(x, y + 1, z) == w.Index(x, y, z) + w.Plane()
  {
    assert w.length * (y + 1) == w.length * y + w.length;
    assert w.width * (z + w.length * (y + 1)) == w.width * (z + w.length * y) + w.width * w.length;
  }

  lemma BottomLayer(w: World, x: int, z: int)
    requires 0 <= x < w.width && 0 <= z < w.length
    ensures w.Index(x, 0, z) < w.Plane()
  {
    MulAtMost(z, w.length, w.width);
    assert z * w.width == w.width * z;
    assert w.length * w.width == w.width * w.length;
  }

  lemma BelowCell(w: World, x: int, y: int, z: int)
    requires w.Inside(x, y, z) && w.Plane() <= w.Index(x, y, z)
    ensures y >= 1 && w.Inside(x, y - 1, z)
    ensures w.Index(x, y - 1, z) == w.Index(x, y, z) - w.Plane()
  {
    BottomLayer(w, x, z);
    IndexAbove(w, x, y - 1, z);
    hide w.Index, w.Plane;
  }

  lemma TopLayer(w: World, x: int, z: int)
    requires w.Inside(x, w.height - 1, z)
    ensures w.Index(x, w.height - 1, z) + w.Plane() >= w.Size()
  {
    IndexAbove(w, x, w.height - 1, z);
    IndexByRows(w, x, w.height, z);
    SizeByRows(w);
    NonNegative(z, w.width);
    assert (w.height * w.length + z) * w.width == (w.height * w.length) * w.width + z * w.width;
  }

  /** Below the bottom layer there is no array index. */
  lemma BelowBottom(w: World, x: int, z: int)
    requires 0 <= x < w.width && 0 <= z < w.length
    ensures w.Index(x, -1, z) < 0
  {
    BottomLayer(w, x, z);
    IndexAbove(w, x, -1, z);
  }
}
