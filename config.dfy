/** The arguments of `Grid.__init__` and the validation it performs before
    building the grid (pillow_grid/grid.py:29-86). */
module Config {
  import opened Wrappers
  import opened Geometry
  import opened Placement

  /** What `Grid.__init__` keeps of its arguments. The images are represented
      by their sizes; an absent label list is the empty list, as
      `x_labels or []` makes it. Font, colours and font size are not part of
      the layout. */
  datatype GridConfig = GridConfig(
    images: seq<Size>,
    rows: int,
    cols: int,
    xLabels: seq<string>,
    yLabels: seq<string>,
    spacing: int,
    xMaxLines: int,
    yMaxLines: int,
    xAlign: string,
    yAlign: string)

  /** The `ValueError`s of `Grid.__init__`, in the order they are checked. */
  datatype ConfigError =
    | TooManyImages
    | TooManyXLabels
    | TooManyYLabels
    | InvalidXAlign
    | InvalidYAlign

  /** The validation of `Grid.__init__` (grid.py:73-86): the first check that
      fails, or `None` when the grid can be built. */
  function Validate(cfg: GridConfig): (r: Option<ConfigError>)
    ensures r == None <==>
      |cfg.images| <= cfg.rows * cfg.cols &&
      (|cfg.xLabels| == 0 || |cfg.xLabels| <= cfg.cols) &&
      (|cfg.yLabels| == 0 || |cfg.yLabels| <= cfg.rows) &&
      IsAlignment(cfg.xAlign) && IsAlignment(cfg.yAlign)
    ensures r == Some(TooManyImages) <==> |cfg.images| > cfg.rows * cfg.cols
    ensures r == Some(TooManyXLabels) <==>
      |cfg.images| <= cfg.rows * cfg.cols && 0 < |cfg.xLabels| && cfg.cols < |cfg.xLabels|
    ensures r == Some(TooManyYLabels) <==>
      |cfg.images| <= cfg.rows * cfg.cols && (|cfg.xLabels| == 0 || |cfg.xLabels| <= cfg.cols) &&
      0 < |cfg.yLabels| && cfg.rows < |cfg.yLabels|
    ensures r == Some(InvalidXAlign) <==>
      |cfg.images| <= cfg.rows * cfg.cols && (|cfg.xLabels| == 0 || |cfg.xLabels| <= cfg.cols) &&
      (|cfg.yLabels| == 0 || |cfg.yLabels| <= cfg.rows) && !IsAlignment(cfg.xAlign)
    ensures r == Some(InvalidYAlign) <==>
      |cfg.images| <= cfg.rows * cfg.cols && (|cfg.xLabels| == 0 || |cfg.xLabels| <= cfg.cols) &&
      (|cfg.yLabels| == 0 || |cfg.yLabels| <= cfg.rows) && IsAlignment(cfg.xAlign) && !IsAlignment(cfg.yAlign)
  {
    if |cfg.images| > cfg.rows * cfg.cols then Some(TooManyImages)
    else if 0 < |cfg.xLabels| && |cfg.xLabels| > cfg.cols then Some(TooManyXLabels)
    else if 0 < |cfg.yLabels| && |cfg.yLabels| > cfg.rows then Some(TooManyYLabels)
    else if !IsAlignment(cfg.xAlign) then Some(InvalidXAlign)
    else if !IsAlignment(cfg.yAlign) then Some(InvalidYAlign)
    else None
  }

  /** A configuration `Grid.__init__` accepts. */
  predicate Valid(cfg: GridConfig) {
    Validate(cfg) == None
  }

  /** An accepted configuration with at least one image has a non-zero column
      count, so the row-major placement never divides by zero. */
  lemma ValidHasColumns(cfg: GridConfig)
    requires Valid(cfg) && |cfg.images| > 0
    ensures cfg.cols != 0 && cfg.rows != 0
  {
  }
}
