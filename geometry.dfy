/** Grid geometry of `Grid._get_uniform_size` and `Grid._create_grid`
    (pillow_grid/grid.py:91-98, 155-187): the uniform cell size, the label
    bands, the canvas size and the row-major placement of the cells. */
module Geometry {
  import opened Arith

  /** A width and a height in pixels. */
  datatype Size = Size(width: int, height: int)

  /** A position on a canvas in pixels, from its top-left corner. */
  datatype Point = Point(x: int, y: int)

  /** The canvas made when there are no images, and the cell size then. */
  const BlankSize: Size := Size(100, 100)

  predicate NonNegative(s: Size) {
    s.width >= 0 && s.height >= 0
  }

  // ---------------------------------------------------------------------------
  // _get_uniform_size

  function MaxWidth(images: seq<Size>): (w: int)
    requires |images| > 0
    ensures forall i :: 0 <= i < |images| ==> images[i].width <= w
    ensures exists i :: 0 <= i < |images| && images[i].width == w
  {
    if |images| == 1 then images[0].width
    else
      var w := MaxWidth(images[1..]);
      assert forall i :: 1 <= i < |images| ==> images[i] == images[1..][i - 1];
      if images[0].width >= w then images[0].width else w
  }

  function MaxHeight(images: seq<Size>): (h: int)
    requires |images| > 0
    ensures forall i :: 0 <= i < |images| ==> images[i].height <= h
    ensures exists i :: 0 <= i < |images| && images[i].height == h
  {
    if |images| == 1 then images[0].height
    else
      var h := MaxHeight(images[1..]);
      assert forall i :: 1 <= i < |images| ==> images[i] == images[1..][i - 1];
      if images[0].height >= h then images[0].height else h
  }

  /** `_get_uniform_size`: the widest width and the tallest height among the
      images (taken separately), or 100 by 100 when there are none. */
  function UniformSize(images: seq<Size>): (s: Size)
    ensures |images| == 0 ==> s == BlankSize
    ensures forall i :: 0 <= i < |images| ==> images[i].width <= s.width && images[i].height <= s.height
    ensures |images| > 0 ==> (exists i :: 0 <= i < |images| && images[i].width == s.width)
    ensures |images| > 0 ==> (exists i :: 0 <= i < |images| && images[i].height == s.height)
  {
    if |images| == 0 then BlankSize else Size(MaxWidth(images), MaxHeight(images))
  }

  // ---------------------------------------------------------------------------
  // Label bands, canvas, cells

  /** Thickness of a label band: `maxLines` lines of `lineHeight` pixels when
      there is at least one label, none otherwise (grid.py:155-165). */
  function LabelBand(labelCount: nat, maxLines: int, lineHeight: int): int {
    if labelCount > 0 then maxLines * lineHeight else 0
  }

  /** Canvas size (grid.py:167-170): `cols` cells and `cols - 1` gaps across
      plus the row-label band at the left, `rows` cells and `rows - 1` gaps
      down plus the column-label band at the top. */
  function CanvasSize(cell: Size, rows: int, cols: int, spacing: int, yBand: int, xBand: int): Size {
    Size(CanvasWidth(cell, cols, spacing, yBand), CanvasHeight(cell, rows, spacing, xBand))
  }

  function CanvasWidth(cell: Size, cols: int, spacing: int, yBand: int): int {
    cols * cell.width + (cols - 1) * spacing + yBand
  }

  function CanvasHeight(cell: Size, rows: int, spacing: int, xBand: int): int {
    rows * cell.height + (rows - 1) * spacing + xBand
  }

  /** Left edge of column `col` (grid.py:184 and 198). */
  function ColumnStart(col: int, cell: Size, spacing: int, yBand: int): int {
    col * (cell.width + spacing) + yBand
  }

  /** Top edge of row `row` (grid.py:185 and 245). */
  function RowStart(row: int, cell: Size, spacing: int, xBand: int): int {
    row * (cell.height + spacing) + xBand
  }

  /** Where cell `i` is pasted, filling the grid row by row (grid.py:181-185). */
  function CellOrigin(i: int, cols: int, cell: Size, spacing: int, yBand: int, xBand: int): Point
    requires cols != 0
  {
    Point(ColumnStart(FloorMod(i, cols), cell, spacing, yBand),
          RowStart(FloorDiv(i, cols), cell, spacing, xBand))
  }

  /** Row-major order: index `row * cols + col` lands in row `row`, column `col`. */
  lemma CellOriginRowMajor(row: int, col: int, cols: int, cell: Size, spacing: int, yBand: int, xBand: int)
    requires 0 <= col < cols
    ensures CellOrigin(row * cols + col, cols, cell, spacing, yBand, xBand)
         == Point(ColumnStart(col, cell, spacing, yBand), RowStart(row, cell, spacing, xBand))
  {
    var i := row * cols + col;
    var q := FloorDiv(i, cols);
    assert cols * q <= i < cols * q + cols;
    if q < row {
      MulLe(q + 1, row, cols);
      assert false;
    } else if q > row {
      MulLe(row + 1, q, cols);
      assert false;
    }
  }

  /** Index `i` of a grid with `cols > 0` lies in row `i // cols` and column
      `i % cols`, both inside a `rows` by `cols` grid when `i < rows * cols`. */
  lemma CellIndexBounds(i: int, rows: int, cols: int)
    requires 0 < cols && 0 <= i < rows * cols
    ensures 0 <= FloorMod(i, cols) < cols
    ensures 0 <= FloorDiv(i, cols) < rows
  {
    var q := FloorDiv(i, cols);
    if q >= rows {
      MulLe(rows, q, cols);
    }
    if q < 0 {
      MulLe(q + 1, 0, cols);
    }
  }

  /** A span of `k` cells and gaps ends no later than the last of `n` does. */
  lemma SpanWithin(k: int, n: int, size: int, spacing: int)
    requires 0 <= k < n && 0 <= size && 0 <= spacing
    ensures 0 <= k * (size + spacing)
    ensures k * (size + spacing) + size <= n * size + (n - 1) * spacing
  {
    MulLe(k, n - 1, size + spacing);
  }

  /** Every cell of a grid lies after the label bands and inside the canvas:
      no image is clipped. */
  lemma CellInsideCanvas(i: int, rows: int, cols: int, cell: Size, spacing: int, yBand: int, xBand: int)
    requires 0 < cols && 0 <= i < rows * cols
    requires NonNegative(cell) && 0 <= spacing
    ensures var p := CellOrigin(i, cols, cell, spacing, yBand, xBand);
      var canvas := CanvasSize(cell, rows, cols, spacing, yBand, xBand);
      yBand <= p.x && p.x + cell.width <= canvas.width &&
      xBand <= p.y && p.y + cell.height <= canvas.height
  {
    CellIndexBounds(i, rows, cols);
    SpanWithin(FloorMod(i, cols), cols, cell.width, spacing);
    SpanWithin(FloorDiv(i, cols), rows, cell.height, spacing);
  }

  /** A lower index in an earlier slot ends, with its gap, before a later one starts. */
  lemma SpansApart(a: int, b: int, size: int, spacing: int)
    requires a < b && 0 <= size && 0 <= spacing
    ensures a * (size + spacing) + size <= b * (size + spacing)
  {
    MulLe(a + 1, b, size + spacing);
  }

  /** Two different cells of a grid never overlap (with a non-negative gap). */
  lemma CellsDisjoint(i: int, j: int, cols: int, cell: Size, spacing: int, yBand: int, xBand: int)
    requires 0 < cols && 0 <= i && 0 <= j && i != j
    requires NonNegative(cell) && 0 <= spacing
    ensures var p := CellOrigin(i, cols, cell, spacing, yBand, xBand);
      var q := CellOrigin(j, cols, cell, spacing, yBand, xBand);
      p.x + cell.width <= q.x || q.x + cell.width <= p.x ||
      p.y + cell.height <= q.y || q.y + cell.height <= p.y
  {
    var ci, cj := FloorMod(i, cols), FloorMod(j, cols);
    var ri, rj := FloorDiv(i, cols), FloorDiv(j, cols);
    if ci < cj {
      SpansApart(ci, cj, cell.width, spacing);
    } else if cj < ci {
      SpansApart(cj, ci, cell.width, spacing);
    } else if ri < rj {
      SpansApart(ri, rj, cell.height, spacing);
    } else if rj < ri {
      SpansApart(rj, ri, cell.height, spacing);
    }
  }

  /** `n` cells of `size` with `n - 1` gaps between them grow (weakly) with the
      count and the gap. */
  lemma ExtentMonotone(size: int, n: int, spacing: int, n': int, spacing': int)
    requires 0 <= size && 1 <= n <= n' && 0 <= spacing <= spacing'
    ensures n * size + (n - 1) * spacing <= n' * size + (n' - 1) * spacing'
  {
    MulLe(n, n', size);
    MulLe(n - 1, n' - 1, spacing);
    MulLe(spacing, spacing', n' - 1);
  }

  /** The canvas grows (weakly) with rows, columns, spacing and label bands. */
  lemma CanvasMonotone(cell: Size, rows: int, cols: int, spacing: int, yBand: int, xBand: int,
                       rows': int, cols': int, spacing': int, yBand': int, xBand': int)
    requires NonNegative(cell) && 1 <= rows <= rows' && 1 <= cols <= cols'
    requires 0 <= spacing <= spacing' && yBand <= yBand' && xBand <= xBand'
    ensures var c := CanvasSize(cell, rows, cols, spacing, yBand, xBand);
      var c' := CanvasSize(cell, rows', cols', spacing', yBand', xBand');
      c.width <= c'.width && c.height <= c'.height
  {
    ExtentMonotone(cell.width, cols, spacing, cols', spacing');
    ExtentMonotone(cell.height, rows, spacing, rows', spacing');
  }

  // ---------------------------------------------------------------------------
  // The image-pasting loop

  /** The cell-placing loop of `_create_grid` (grid.py:176-187): the paste
      position of each image in order, stopping once the grid is full. */
  method PlaceCells(imageCount: nat, rows: int, cols: int, cell: Size, spacing: int, yBand: int, xBand: int)
    returns (cells: seq<Point>)
    requires cols != 0
    ensures |cells| == if imageCount <= rows * cols then imageCount else Max(0, rows * cols)
    ensures forall i :: 0 <= i < |cells| ==> cells[i] == CellOrigin(i, cols, cell, spacing, yBand, xBand)
  {
    cells := [];
    var i := 0;
    while i < imageCount
      invariant 0 <= i <= imageCount && i <= Max(0, rows * cols) && |cells| == i
      invariant forall k :: 0 <= k < i ==> cells[k] == CellOrigin(k, cols, cell, spacing, yBand, xBand)
    {
      if i >= rows * cols {
        break;
      }
      var row := FloorDiv(i, cols);
      var col := FloorMod(i, cols);
      var x := col * (cell.width + spacing) + yBand;
      var y := row * (cell.height + spacing) + xBand;
      cells := cells + [Point(x, y)];
      i := i + 1;
    }
  }
}
