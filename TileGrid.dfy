/**
 * The nested tile loop shared by the tile generators:
 *
 *   for x in range(x0, x1):
 *       for y in range(y0, y1):
 *           image.paste(tile(x, y), offset(x, y))
 *
 * `Grid` lists what such a loop visits, x outer and y inner; `PasteGrid` is
 * the loop itself.
 */
module TileGrid {
  import opened Basics
  import opened Canvas
  import Text

  /** `f(x, y)` for y in range(y0, y1). */
  function Column<T>(x: int, y0: int, y1: int, f: (int, int) -> T): (r: seq<T>)
    ensures |r| == if y1 <= y0 then 0 else y1 - y0
    decreases y1 - y0
  {
    if y1 <= y0 then [] else Column(x, y0, y1 - 1, f) + [f(x, y1 - 1)]
  }

  /** `f(x, y)` for x in range(x0, x1), then y in range(y0, y1). */
  function Grid<T>(x0: int, x1: int, y0: int, y1: int, f: (int, int) -> T): (r: seq<T>)
    decreases x1 - x0
  {
    if x1 <= x0 then [] else Grid(x0, x1 - 1, y0, y1, f) + Column(x1 - 1, y0, y1, f)
  }

  lemma {:induction false} ColumnAt<T>(x: int, y0: int, y1: int, f: (int, int) -> T, k: nat)
    requires k < y1 - y0
    ensures Column(x, y0, y1, f)[k] == f(x, y0 + k)
    decreases y1 - y0
  {
    if k < y1 - 1 - y0 {
      ColumnAt(x, y0, y1 - 1, f, k);
    }
  }

  lemma {:induction false} GridLength<T>(x0: int, x1: int, y0: int, y1: int, f: (int, int) -> T)
    requires x0 <= x1 && y0 <= y1
    ensures |Grid(x0, x1, y0, y1, f)| == (x1 - x0) * (y1 - y0)
    decreases x1 - x0
  {
    if x1 > x0 {
      GridLength(x0, x1 - 1, y0, y1, f);
      assert (x1 - x0) * (y1 - y0) == (x1 - 1 - x0) * (y1 - y0) + (y1 - y0);
    }
  }

  /**
   * Element `i` of the grid is the tile (x0 + i / n, y0 + i % n), n being the
   * column height: every tile of the range appears exactly once, x outer.
   */
  lemma {:induction false} GridAt<T>(x0: int, x1: int, y0: int, y1: int, f: (int, int) -> T, i: nat)
    requires x0 <= x1 && y0 < y1
    requires i < (x1 - x0) * (y1 - y0)
    ensures |Grid(x0, x1, y0, y1, f)| == (x1 - x0) * (y1 - y0)
    ensures Grid(x0, x1, y0, y1, f)[i] == f(x0 + i / (y1 - y0), y0 + i % (y1 - y0))
    decreases x1 - x0
  {
    var n, m := y1 - y0, x1 - 1 - x0;
    GridLength(x0, x1, y0, y1, f);
    GridLength(x0, x1 - 1, y0, y1, f);
    var before := m * n;
    MulSucc(m, n);
    var prev := Grid(x0, x1 - 1, y0, y1, f);
    var column := Column(x1 - 1, y0, y1, f);
    assert Grid(x0, x1, y0, y1, f) == prev + column;
    if i < before {
      GridAt(x0, x1 - 1, y0, y1, f, i);
    } else {
      var k := i - before;
      ColumnAt(x1 - 1, y0, y1, f, k);
      DivModOf(i, n, m, k);
    }
  }

  lemma MulSucc(m: int, n: int)
    ensures (m + 1) * n == m * n + n
  {
  }

  /** `m * n + k` with `0 <= k < n` has quotient `m` and remainder `k`. */
  lemma DivModOf(i: int, n: int, m: int, k: int)
    requires n > 0 && 0 <= k < n && i == m * n + k
    ensures i / n == m && i % n == k
  {
    FloorDivUnique(i, n, m);
  }

  /** The index of tile (x, y) in the grid. */
  lemma GridIndexOf<T>(x0: int, x1: int, y0: int, y1: int, f: (int, int) -> T, x: int, y: int)
    requires x0 <= x < x1 && y0 <= y < y1
    ensures var i := (x - x0) * (y1 - y0) + (y - y0);
            0 <= i < |Grid(x0, x1, y0, y1, f)| && Grid(x0, x1, y0, y1, f)[i] == f(x, y)
  {
    var n, q, m, k := y1 - y0, x - x0, x1 - x0, y - y0;
    var i := q * n + k;
    IndexBound(q, n, m, k);
    GridAt(x0, x1, y0, y1, f, i);
    DivModOf(i, n, q, k);
  }

  /** `q * n + k` with `q < m` and `k < n` is below `m * n`. */
  lemma IndexBound(q: nat, n: nat, m: nat, k: nat)
    requires q < m && k < n
    ensures q * n + k < m * n
  {
    MulLeftMonotone(n, q + 1, m);
    MulSucc(q, n);
  }

  /** The paste of tile (x, y) at its offset. */
  function Pastes(tile: (int, int) -> Raster, offset: (int, int) -> Point): (int, int) -> DrawOp
  {
    (x, y) => DrawOp.Paste(tile(x, y), offset(x, y))
  }

  /** The loop: pastes `tile(x, y)` at `offset(x, y)` over the range, x outer. */
  method PasteGrid(image: Image, x0: int, x1: int, y0: int, y1: int,
                   tile: (int, int) -> Raster, offset: (int, int) -> Point)
    modifies image
    ensures image.size == old(image.size)
    ensures image.ops == old(image.ops) + Grid(x0, x1, y0, y1, Pastes(tile, offset))
  {
    var f := Pastes(tile, offset);
    var x := x0;
    while x < x1
      invariant x1 <= x0 ==> x == x0
      invariant x0 < x1 ==> x0 <= x <= x1
      invariant image.size == old(image.size)
      invariant image.ops == old(image.ops) + Grid(x0, x, y0, y1, f)
    {
      PasteColumn(image, x, y0, y1, tile, offset);
      GridSnoc(x0, x, y0, y1, f);
      Text.ConcatAssoc(old(image.ops), Grid(x0, x, y0, y1, f), Column(x, y0, y1, f));
      x := x + 1;
    }
  }

  /** The inner loop of `PasteGrid`: one column of tiles, y ascending. */
  method PasteColumn(image: Image, x: int, y0: int, y1: int,
                     tile: (int, int) -> Raster, offset: (int, int) -> Point)
    modifies image
    ensures image.size == old(image.size)
    ensures image.ops == old(image.ops) + Column(x, y0, y1, Pastes(tile, offset))
  {
    ghost var f := Pastes(tile, offset);
    var y := y0;
    while y < y1
      invariant y1 <= y0 ==> y == y0
      invariant y0 < y1 ==> y0 <= y <= y1
      invariant image.size == old(image.size)
      invariant image.ops == old(image.ops) + Column(x, y0, y, f)
    {
      ColumnSnoc(x, y0, y, f);
      assert f(x, y) == DrawOp.Paste(tile(x, y), offset(x, y));
      image.Paste(tile(x, y), offset(x, y));
      Text.ConcatAssoc(old(image.ops), Column(x, y0, y, f), [f(x, y)]);
      y := y + 1;
    }
  }

  lemma ColumnSnoc<T>(x: int, y0: int, y: int, f: (int, int) -> T)
    requires y0 <= y
    ensures Column(x, y0, y + 1, f) == Column(x, y0, y, f) + [f(x, y)]
  {
  }

  lemma GridSnoc<T>(x0: int, x: int, y0: int, y1: int, f: (int, int) -> T)
    requires x0 <= x
    ensures Grid(x0, x + 1, y0, y1, f) == Grid(x0, x, y0, y1, f) + Column(x, y0, y1, f)
  {
  }
}
