/**
  The tile-grid cursor of webmercator/grid.py: a single-pass iterator over
  the (width + 1) x (height + 1) cells of a rectangle anchored at a vertex,
  row by row with x varying fastest.
 */
module MercatorGrid {
  import opened MercatorUtil

  /** The immutable parameters of a grid: its vertex and its two extents. */
  datatype GridShape = GridShape(startX: int, startY: int, width: int, height: int)

  /** The keyword arguments of `Grid(...)`; `None` is an argument left out. */
  datatype GridArgs = GridArgs(vertex: Option<(int, int)>, width: Option<real>, height: Option<real>)

  /** How many cells a fresh cursor yields before it stops. */
  function CellCount(g: GridShape): (r: nat)
    ensures r == 0 <==> g.width < 0 || g.height < 0
  {
    if g.width < 0 || g.height < 0 then 0
    else
      MulAtLeast(g.width + 1, g.height + 1);
      (g.width + 1) * (g.height + 1)
  }

  /** The k-th cell in row-major order, x varying fastest. */
  function CellAt(g: GridShape, k: nat): (r: (int, int))
    requires g.width >= 0
    ensures g.startX <= r.0 <= g.startX + g.width && g.startY <= r.1
    ensures k < CellCount(g) ==> r.1 <= g.startY + g.height
  {
    CellRowWithin(g, k);
    (g.startX + k % (g.width + 1), g.startY + k / (g.width + 1))
  }

  /** The first n cells in row-major order. */
  function Cells(g: GridShape, n: nat): seq<(int, int)>
  {
    if g.width < 0 then [] else seq(n, k requires 0 <= k < n => CellAt(g, k))
  }

  /** Every cell the grid yields, in the order it yields them. */
  function AllCells(g: GridShape): (r: seq<(int, int)>)
    ensures |r| == CellCount(g)
    ensures g.width >= 0 ==> forall k :: 0 <= k < |r| ==> r[k] == CellAt(g, k)
  {
    Cells(g, CellCount(g))
  }

  /** A positive multiple of a positive number is at least that number. */
  lemma MulAtLeast(a: int, d: int)
    requires a >= 1 && d >= 1
    ensures a * d >= d
  {
    var e := a - 1;
    assert a * d == e * d + d;
    assert e * d >= 0;
  }

  /** Division with remainder by a positive divisor is unique. */
  lemma DivModUnique(k: int, d: int, q: int, r: int)
    requires d > 0 && 0 <= r < d && k == q * d + r
    ensures k / d == q && k % d == r
  {
    var q', r' := k / d, k % d;
    assert k == q' * d + r';
    assert (q - q') * d == r' - r;
    if q > q' {
      MulAtLeast(q - q', d);
    } else if q < q' {
      MulAtLeast(q' - q, d);
    }
  }

  /** Cell (i, j) of the rectangle comes at position j * (width + 1) + i. */
  lemma CellAtCoordinates(g: GridShape, i: int, j: nat)
    requires 0 <= i <= g.width
    ensures CellAt(g, j * (g.width + 1) + i) == (g.startX + i, g.startY + j)
  {
    DivModUnique(j * (g.width + 1) + i, g.width + 1, j, i);
  }

  /**
    Construction: `vertex`, `width` and `height` are all required
    (AttributeError otherwise); the extents go through `int()`.
   */
  function CheckArgs(a: GridArgs): (r: Result<GridShape>)
    ensures r.Err? <==> a.vertex.None? || a.width.None? || a.height.None?
    ensures r.Err? ==> r.error == AttributeError
    ensures r.Ok? ==> r.value.startX == a.vertex.value.0 && r.value.startY == a.vertex.value.1
    ensures r.Ok? ==> r.value.width == Trunc(a.width.value) && r.value.height == Trunc(a.height.value)
  {
    if a.vertex.None? then Err(AttributeError)
    else if a.width.None? || a.height.None? then Err(AttributeError)
    else Ok(GridShape(a.vertex.value.0, a.vertex.value.1, Trunc(a.width.value), Trunc(a.height.value)))
  }

  /** Whole-number extents pass through `int()` unchanged. */
  lemma CheckArgsWhole(x: int, y: int, w: int, h: int)
    ensures CheckArgs(GridArgs(Some((x, y)), Some(w as real), Some(h as real))) == Ok(GridShape(x, y, w, h))
  {
    TruncWhole(w);
    TruncWhole(h);
  }

  /**
    A grid whose vertex is corner (x0, y0) and whose extents reach corner
    (x1, y1) yields one cell per tile of that rectangle, starting and
    ending at the two corners.
   */
  lemma CornerCells(g: GridShape, x0: int, y0: int, x1: int, y1: int)
    requires g.startX == x0 && g.startY == y0 && g.width == x1 - x0 && g.height == y1 - y0
    requires x0 <= x1 && y0 <= y1
    ensures |AllCells(g)| == (x1 - x0 + 1) * (y1 - y0 + 1)
    ensures |AllCells(g)| > 0
    ensures AllCells(g)[0] == (x0, y0)
    ensures AllCells(g)[|AllCells(g)| - 1] == (x1, y1)
  {
    AllCellsCount(g);
    FirstAndLastCell(g);
  }

  /** A grid with non-negative extents yields (width + 1) * (height + 1) cells. */
  lemma AllCellsCount(g: GridShape)
    requires g.width >= 0 && g.height >= 0
    ensures |AllCells(g)| == (g.width + 1) * (g.height + 1)
  {
  }

  /** A negative extent makes the grid empty. */
  lemma AllCellsEmpty(g: GridShape)
    requires g.width < 0 || g.height < 0
    ensures AllCells(g) == []
  {
  }

  /** The first cell is the vertex and the last is the opposite corner. */
  lemma FirstAndLastCell(g: GridShape)
    requires g.width >= 0 && g.height >= 0
    ensures |AllCells(g)| > 0
    ensures AllCells(g)[0] == (g.startX, g.startY)
    ensures AllCells(g)[|AllCells(g)| - 1] == (g.startX + g.width, g.startY + g.height)
  {
    CellAtCoordinates(g, 0, 0);
    CellAtCoordinates(g, g.width, g.height);
    assert g.height * (g.width + 1) + g.width == (g.width + 1) * (g.height + 1) - 1;
  }

  /** The row-major position of cell (i, j) of the rectangle. */
  function RowMajorIndex(g: GridShape, i: int, j: int): int
  {
    j * (g.width + 1) + i
  }

  /** Every in-rectangle offset has a position below the cell count. */
  lemma RowMajorIndexBound(g: GridShape, i: int, j: int)
    requires 0 <= i <= g.width && 0 <= j <= g.height
    ensures 0 <= RowMajorIndex(g, i, j) < CellCount(g)
  {
    var w := g.width + 1;
    assert j * w >= 0;
    if j < g.height {
      MulAtLeast(g.height - j, w);
    }
    assert (g.height - j) * w >= 0;
    assert j * w + (g.height - j) * w == g.height * w;
    assert (g.height + 1) * w == g.height * w + w;
  }

  /**
    The cells are exactly the rectangle: every cell of the rectangle occurs,
    at the position row-major order gives it, and nothing else occurs.
   */
  lemma AllCellsCoverRectangle(g: GridShape)
    requires g.width >= 0 && g.height >= 0
    ensures forall i, j :: 0 <= i <= g.width && 0 <= j <= g.height ==>
      0 <= RowMajorIndex(g, i, j) < |AllCells(g)| &&
      AllCells(g)[RowMajorIndex(g, i, j)] == (g.startX + i, g.startY + j)
    ensures forall k :: 0 <= k < |AllCells(g)| ==>
      g.startX <= AllCells(g)[k].0 <= g.startX + g.width &&
      g.startY <= AllCells(g)[k].1 <= g.startY + g.height
  {
    forall i, j | 0 <= i <= g.width && 0 <= j <= g.height
      ensures 0 <= RowMajorIndex(g, i, j) < |AllCells(g)|
      ensures AllCells(g)[RowMajorIndex(g, i, j)] == (g.startX + i, g.startY + j)
    {
      RowMajorIndexBound(g, i, j);
      CellAtCoordinates(g, i, j);
    }
    forall k | 0 <= k < |AllCells(g)|
      ensures g.startX <= AllCells(g)[k].0 <= g.startX + g.width
      ensures g.startY <= AllCells(g)[k].1 <= g.startY + g.height
    {
      CellRowBound(g, k);
    }
  }

  /** The row of any position below the cell count is a row of the rectangle. */
  lemma CellRowWithin(g: GridShape, k: nat)
    requires g.width >= 0
    ensures k < CellCount(g) ==> k / (g.width + 1) <= g.height
  {
    if k < CellCount(g) {
      CellRowBound(g, k);
    }
  }

  /** A position below the cell count lies in a row no later than the last. */
  lemma CellRowBound(g: GridShape, k: nat)
    requires g.width >= 0 && g.height >= 0 && k < CellCount(g)
    ensures k / (g.width + 1) <= g.height
  {
    var w := g.width + 1;
    var q := k / w;
    assert k == q * w + k % w;
    if q > g.height {
      MulAtLeast(q - g.height, w);
    }
  }

  /**
    Row-major order: each next cell is one step right in the same row, or
    the first cell of the next row after the last cell of a row.
   */
  lemma AllCellsRowMajor(g: GridShape, k: nat)
    requires g.width >= 0 && g.height >= 0
    requires k + 1 < |AllCells(g)|
    ensures var c, d := AllCells(g)[k], AllCells(g)[k + 1];
      if c.0 == g.startX + g.width then d == (g.startX, c.1 + 1) else d == (c.0 + 1, c.1)
  {
    var w := g.width + 1;
    var q, r := k / w, k % w;
    assert k == q * w + r;
    assert AllCells(g)[k] == (g.startX + r, g.startY + q);
    if r == g.width {
      assert k + 1 == (q + 1) * w + 0;
      DivModUnique(k + 1, w, q + 1, 0);
      assert AllCells(g)[k + 1] == (g.startX, g.startY + q + 1);
    } else {
      DivModUnique(k + 1, w, q, r + 1);
      assert AllCells(g)[k + 1] == (g.startX + r + 1, g.startY + q);
    }
  }

  /** No cell is yielded twice: equal cells sit at equal positions. */
  lemma AllCellsInjective(g: GridShape, k: nat, l: nat)
    requires k < |AllCells(g)| && l < |AllCells(g)|
    requires AllCells(g)[k] == AllCells(g)[l]
    ensures k == l
  {
    var w := g.width + 1;
    assert AllCells(g)[k] == CellAt(g, k) && AllCells(g)[l] == CellAt(g, l);
    assert k % w == l % w && k / w == l / w;
    assert k == (k / w) * w + k % w;
    assert l == (l / w) * w + l % w;
  }

  /** Position j * (width + 1) + i of a cursor cell stays within the count. */
  lemma PositionBound(g: GridShape, i: int, j: int)
    requires 0 <= i <= g.width && 0 <= j <= g.height
    ensures j * (g.width + 1) + i < CellCount(g)
  {
    assert j * (g.width + 1) <= g.height * (g.width + 1);
  }

  /** A prefix of the cells grows by the next cell in order. */
  lemma CellsSnoc(g: GridShape, n: nat)
    requires g.width >= 0
    ensures Cells(g, n + 1) == Cells(g, n) + [CellAt(g, n)]
  {
  }

  /**
    The cursor. `x` and `y` are the public offsets of the Python object;
    `yielded` records, for the proof, every cell returned so far.
   */
  class Grid {
    var x: int
    var y: int
    const startX: int
    const startY: int
    const width: int
    const height: int
    ghost var yielded: seq<(int, int)>

    function Shape(): GridShape
    {
      GridShape(startX, startY, width, height)
    }

    /** The offset of the cursor in row-major order. */
    function Position(): int
      reads this
    {
      y * (width + 1) + x
    }

    /** The test `__iterate` makes before yielding: past either extent. */
    predicate Exhausted()
      reads this
    {
      x > width || y > height
    }

    /**
      The cursor invariant: with non-negative extents the cursor is inside
      the rectangle or just below its last row, and what it has yielded is
      the row-major prefix up to its position.
     */
    ghost predicate Valid()
      reads this
    {
      if width < 0 || height < 0 then
        x == 0 && y == 0 && yielded == []
      else
        0 <= x <= width && 0 <= y <= height + 1 && (y == height + 1 ==> x == 0) &&
        0 <= Position() <= CellCount(Shape()) &&
        yielded == Cells(Shape(), Position()) && |yielded| <= CellCount(Shape())
    }

    /** `Grid.__init__` once the arguments are known to be present. */
    constructor (shape: GridShape)
      ensures Valid() && Shape() == shape
      ensures x == 0 && y == 0 && yielded == []
    {
      x, y := 0, 0;
      startX, startY := shape.startX, shape.startY;
      width, height := shape.width, shape.height;
      yielded := [];
    }

    /** `Grid(**kwargs)`: the argument checks, then a cursor at the vertex. */
    static method Create(a: GridArgs) returns (r: Result<Grid>)
      ensures r.Err? <==> CheckArgs(a).Err?
      ensures r.Err? ==> r.error == CheckArgs(a).error
      ensures r.Ok? ==> fresh(r.value) && r.value.Valid() && r.value.Shape() == CheckArgs(a).value
      ensures r.Ok? ==> r.value.x == 0 && r.value.y == 0 && r.value.yielded == []
    {
      var checked := CheckArgs(a);
      if checked.Err? {
        return Err(checked.error);
      }
      var g := new Grid(checked.value);
      return Ok(g);
    }

    /**
      `__iterate` / `__next__`: `None` plays StopIteration. Otherwise the
      cell at the cursor is returned and the cursor moves right, or to the
      start of the next row after the last column.
     */
    method Next() returns (cell: Option<(int, int)>)
      requires Valid()
      modifies this`x, this`y, this`yielded
      ensures Valid()
      ensures old(Exhausted()) ==> cell == None && x == old(x) && y == old(y) && yielded == old(yielded)
      ensures !old(Exhausted()) ==>
        cell == Some((startX + old(x), startY + old(y))) &&
        (if old(x) == width then x == 0 && y == old(y) + 1 else x == old(x) + 1 && y == old(y)) &&
        yielded == old(yielded) + [cell.value]
      ensures cell.Some? ==> width >= 0 && cell.value == CellAt(Shape(), |old(yielded)|)
    {
      var currentX, currentY := startX + x, startY + y;
      if x > width || y > height {
        return None;
      }
      ghost var p := Position();
      CellAtCoordinates(Shape(), x, y);
      PositionBound(Shape(), x, y);
      CellsSnoc(Shape(), p);
      if x == width {
        x := 0;
        y := y + 1;
        assert Position() == p + 1;
      } else {
        x := x + 1;
      }
      yielded := yielded + [(currentX, currentY)];
      return Some((currentX, currentY));
    }

    /**
      `list(grid)`: call `__next__` until StopIteration. The cells returned
      are the rest of the row-major sequence; the cursor ends exhausted, so
      a second pass returns nothing.
     */
    method Collect() returns (cells: seq<(int, int)>)
      requires Valid()
      modifies this`x, this`y, this`yielded
      ensures Valid() && Exhausted()
      ensures yielded == AllCells(Shape())
      ensures old(yielded) + cells == AllCells(Shape())
      ensures old(Exhausted()) ==> cells == []
    {
      cells := [];
      var c := Next();
      while c.Some?
        invariant Valid()
        invariant c.None? ==> Exhausted() && yielded == old(yielded) + cells
        invariant c.Some? ==> yielded == old(yielded) + cells + [c.value]
        invariant old(Exhausted()) ==> c.None? && cells == []
        decreases CellCount(Shape()) - |old(yielded)| - |cells|
      {
        cells := cells + [c.value];
        c := Next();
      }
      ExhaustedYieldedAll();
    }

    /** An exhausted cursor has yielded every cell of the grid. */
    lemma ExhaustedYieldedAll()
      requires Valid() && Exhausted()
      ensures yielded == AllCells(Shape())
    {
      if width >= 0 && height >= 0 {
        assert y == height + 1 && x == 0;
        assert Position() == (height + 1) * (width + 1);
      }
    }
  }
}
