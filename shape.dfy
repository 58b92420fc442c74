/** The automatic row and column counts of the module-level `grid()` function
    (pillow_grid/grid.py:571-579). */
module Shape {
  import opened Wrappers
  import opened Arith

  datatype GridShape = GridShape(rows: int, cols: int)

  /** Python raises `ZeroDivisionError` when a count is derived by dividing by zero. */
  datatype ShapeError = ZeroDivision

  /** Integer square root, standing for `int(n ** 0.5)`. */
  function ISqrt(n: nat): (r: nat)
    ensures r * r <= n < (r + 1) * (r + 1)
  {
    if n == 0 then 0
    else
      var r := ISqrt(n - 1);
      if (r + 1) * (r + 1) <= n then r + 1 else r
  }

  /** `count` groups of `per` hold `n` items, and one group fewer would not. */
  predicate Covers(count: int, per: int, n: int) {
    count * per >= n > (count - 1) * per
  }

  /** `(n + d - 1) // d`: for a positive `d`, the least `q` with `q * d >= n`. */
  function CeilDiv(n: nat, d: int): (q: int)
    requires d != 0
    ensures d > 0 ==> Covers(q, d, n)
  {
    FloorDiv(n + d - 1, d)
  }

  /** Rows and columns as `grid()` computes them for `imageCount` images when
      `rows` or `cols` (or both) are not given. */
  function AutoShape(imageCount: nat, rows: Option<int>, cols: Option<int>): (r: Result<GridShape, ShapeError>)
    ensures rows.Some? && cols.Some? ==> r == Success(GridShape(rows.value, cols.value))
    ensures rows.None? && cols.Some? ==> (r.Failure? <==> cols.value == 0)
    ensures rows.None? && cols.Some? && r.Success? ==>
      r.value.cols == cols.value && (cols.value > 0 ==> Covers(r.value.rows, cols.value, imageCount))
    ensures rows.Some? && cols.None? ==> (r.Failure? <==> rows.value == 0)
    ensures rows.Some? && cols.None? && r.Success? ==>
      r.value.rows == rows.value && (rows.value > 0 ==> Covers(r.value.cols, rows.value, imageCount))
    ensures rows.None? && cols.None? ==> (r.Failure? <==> imageCount == 0)
    ensures rows.None? && cols.None? && r.Success? ==>
      r.value.cols == ISqrt(imageCount) && Covers(r.value.rows, r.value.cols, imageCount)
  {
    match (rows, cols)
    case (None, None) =>
      var c := ISqrt(imageCount);
      if c == 0 then Failure(ZeroDivision) else Success(GridShape(CeilDiv(imageCount, c), c))
    case (None, Some(c)) =>
      if c == 0 then Failure(ZeroDivision) else Success(GridShape(CeilDiv(imageCount, c), c))
    case (Some(rw), None) =>
      if rw == 0 then Failure(ZeroDivision) else Success(GridShape(rw, CeilDiv(imageCount, rw)))
    case (Some(rw), Some(c)) => Success(GridShape(rw, c))
  }

  /** Arithmetic core of the squareness bound. */
  lemma NearSquare(c: int, q: int, n: int)
    requires c >= 1 && c * c <= n < (c + 1) * (c + 1) && Covers(q, c, n)
    ensures c <= q <= c + 2
  {
    if q < c {
      MulLe(q, c - 1, c);
      assert false;
    }
    if q > c + 2 {
      MulLe(c + 2, q - 1, c);
      assert false;
    }
  }

  /** The automatic shape for a non-empty image list is roughly square: at
      least as many rows as columns, and at most two more. */
  lemma AutoShapeNearlySquare(imageCount: nat)
    requires imageCount > 0
    ensures AutoShape(imageCount, None, None).Success?
    ensures var s := AutoShape(imageCount, None, None).value;
      1 <= s.cols <= s.rows <= s.cols + 2
  {
    var s := AutoShape(imageCount, None, None).value;
    NearSquare(s.cols, s.rows, imageCount);
  }

  /** As written, `grid([])` with neither count given divides by zero. */
  lemma AutoShapeEmptyFails()
    ensures AutoShape(0, None, None) == Failure(ZeroDivision)
  {
  }

  /** The automatic shape with the column count kept at one or more, so that an
      empty image list yields an (empty) grid as `Grid` supports. */
  function AutoShapeFixed(imageCount: nat, rows: Option<int>, cols: Option<int>): (r: Result<GridShape, ShapeError>)
    ensures rows.None? && cols.None? ==>
      r.Success? && r.value.cols >= 1 && Covers(r.value.rows, r.value.cols, imageCount)
    ensures rows.None? && cols.None? && imageCount == 0 ==> r == Success(GridShape(0, 1))
    ensures imageCount > 0 || rows.Some? || cols.Some? ==> r == AutoShape(imageCount, rows, cols)
  {
    if rows.None? && cols.None? then
      var c := Max(1, ISqrt(imageCount));
      Success(GridShape(CeilDiv(imageCount, c), c))
    else AutoShape(imageCount, rows, cols)
  }
}
