/** The layout `Grid._create_grid` produces (pillow_grid/grid.py:129-253), the
    validating constructor `Grid.__init__` (grid.py:29-89) and the `grid()`
    convenience function (grid.py:523-582). The layout records where every
    image and every line of label text goes; the pixels are not modelled. */
module Grid {
  import opened Wrappers
  import opened Arith
  import opened Measure
  import opened Wrap
  import opened Geometry
  import opened Placement
  import opened Config
  import opened Shape

  /** One `draw.text` call: a line of text and the position of its top-left corner. */
  datatype TextDraw = TextDraw(text: string, at: Point)

  /** A row label: the size of the temporary block it is drawn on before the
      quarter turn, the lines drawn on that block, and where the turned block
      is pasted on the canvas. */
  datatype RowLabel = RowLabel(block: Size, lines: seq<TextDraw>, paste: Point)

  /** The grid image: its size, the paste position of each image in order, the
      column labels drawn on the canvas and the row labels pasted onto it. */
  datatype Layout = Layout(canvas: Size, cells: seq<Point>, columnLabels: seq<TextDraw>, rowLabels: seq<RowLabel>)

  /** The grid of no images: a blank 100 by 100 canvas (grid.py:131-133). */
  const BlankLayout: Layout := Layout(BlankSize, [], [], [])

  /** Height of the column-label band at the top (grid.py:155-159). */
  function ColumnLabelBand(cfg: GridConfig, lineHeight: int): int {
    LabelBand(|cfg.xLabels|, cfg.xMaxLines, lineHeight)
  }

  /** Width of the row-label band at the left (grid.py:161-165). */
  function RowLabelBand(cfg: GridConfig, lineHeight: int): int {
    LabelBand(|cfg.yLabels|, cfg.yMaxLines, lineHeight)
  }

  /** The size conditions the placement bounds are stated under: at least one
      row, one column and one line per label band, and no negative spacing,
      line height or image dimension. */
  predicate WellSized(cfg: GridConfig, lineHeight: int) {
    1 <= cfg.rows && 1 <= cfg.cols && 0 <= cfg.spacing && 0 <= lineHeight &&
    1 <= cfg.xMaxLines && 1 <= cfg.yMaxLines &&
    forall i :: 0 <= i < |cfg.images| ==> NonNegative(cfg.images[i])
  }

  /** How many labels get a column (or a row) when there are `count` of them:
      the labels with an index below `count` (grid.py:191 and 216). */
  function LabelSlots(labelCount: nat, count: int): (n: nat)
    ensures n <= labelCount
    ensures count <= 0 ==> n == 0
    ensures count > 0 ==> n == labelCount || n == count
    ensures count > 0 ==> n <= count
  {
    if count <= 0 then 0 else if labelCount <= count then labelCount else count
  }

  /** The draws of one block of lines: each non-empty line `k` aligned in a
      container of width `containerWidth` starting at `originX`, `k` line
      heights below `top`; empty lines are skipped but keep their place. */
  function BlockDraws(lines: seq<string>, containerWidth: int, originX: int, top: int,
                      lineHeight: int, align: string, m: Measure): seq<TextDraw>
  {
    if lines == [] then []
    else
      var n := |lines| - 1;
      BlockDraws(lines[..n], containerWidth, originX, top, lineHeight, align, m) +
      (if lines[n] == "" then []
       else [TextDraw(lines[n], Point(originX + XOffset(m(lines[n]), containerWidth, align), top + n * lineHeight))])
  }

  /** Every draw of a block shows one of its non-empty lines, aligned in the
      container; with a non-negative line height it lies inside the block. */
  lemma {:induction false} BlockDrawsWithin(lines: seq<string>, containerWidth: int, originX: int, top: int,
                                            lineHeight: int, align: string, m: Measure)
    ensures |BlockDraws(lines, containerWidth, originX, top, lineHeight, align, m)| <= |lines|
    ensures forall d :: d in BlockDraws(lines, containerWidth, originX, top, lineHeight, align, m) ==>
      d.text != "" && d.text in lines && d.at.x == originX + XOffset(m(d.text), containerWidth, align)
    ensures 0 <= lineHeight ==>
      forall d :: d in BlockDraws(lines, containerWidth, originX, top, lineHeight, align, m) ==>
        top <= d.at.y && d.at.y + lineHeight <= top + |lines| * lineHeight
    decreases |lines|
  {
    if lines != [] {
      var n := |lines| - 1;
      BlockDrawsWithin(lines[..n], containerWidth, originX, top, lineHeight, align, m);
      assert forall t :: t in lines[..n] ==> t in lines;
      if 0 <= lineHeight {
        MulLe(0, n, lineHeight);
        MulLe(n, n + 1, lineHeight);
        assert (n + 1) * lineHeight == n * lineHeight + lineHeight;
      }
    }
  }

  /** A block of non-empty lines draws each of them, in order, line `k` at
      its place. */
  lemma {:induction false} BlockDrawsExact(lines: seq<string>, containerWidth: int, originX: int, top: int,
                                           lineHeight: int, align: string, m: Measure)
    requires forall i :: 0 <= i < |lines| ==> lines[i] != ""
    ensures var draws := BlockDraws(lines, containerWidth, originX, top, lineHeight, align, m);
      |draws| == |lines| &&
      forall k :: 0 <= k < |lines| ==>
        draws[k] == TextDraw(lines[k], Point(originX + XOffset(m(lines[k]), containerWidth, align), top + k * lineHeight))
    decreases |lines|
  {
    if lines != [] {
      var n := |lines| - 1;
      BlockDrawsExact(lines[..n], containerWidth, originX, top, lineHeight, align, m);
    }
  }

  /** The column labels of a grid whose labels wrapped into `wrapped`: label
      `c` drawn as a block in column `c`, centred in the top band, one label
      after the other (grid.py:189-212). */
  function ColumnLabelDraws(wrapped: seq<seq<string>>, cell: Size, spacing: int, yBand: int, xBand: int,
                            lineHeight: int, align: string, m: Measure): seq<TextDraw>
  {
    if wrapped == [] then []
    else
      var c := |wrapped| - 1;
      ColumnLabelDraws(wrapped[..c], cell, spacing, yBand, xBand, lineHeight, align, m) +
      BlockDraws(wrapped[c], cell.width, ColumnStart(c, cell, spacing, yBand),
                 BlockTop(xBand, |wrapped[c]|, lineHeight), lineHeight, align, m)
  }

  /** Every draw of the block of label `c`, placed in column `c`, is among the
      column labels. */
  lemma {:induction false} ColumnLabelDrawsCover(wrapped: seq<seq<string>>, cell: Size, spacing: int,
                                                 yBand: int, xBand: int, lineHeight: int, align: string,
                                                 m: Measure, c: int)
    requires 0 <= c < |wrapped|
    ensures forall d :: d in BlockDraws(wrapped[c], cell.width, ColumnStart(c, cell, spacing, yBand),
                                        BlockTop(xBand, |wrapped[c]|, lineHeight), lineHeight, align, m) ==>
      d in ColumnLabelDraws(wrapped, cell, spacing, yBand, xBand, lineHeight, align, m)
    decreases |wrapped|
  {
    var n := |wrapped| - 1;
    if c < n {
      assert wrapped[..n][c] == wrapped[c];
      ColumnLabelDrawsCover(wrapped[..n], cell, spacing, yBand, xBand, lineHeight, align, m, c);
    }
  }

  /** Every column-label draw belongs to the block of some label, placed in
      that label's column. */
  lemma {:induction false} ColumnLabelDrawsOnly(wrapped: seq<seq<string>>, cell: Size, spacing: int,
                                                yBand: int, xBand: int, lineHeight: int, align: string,
                                                m: Measure, d: TextDraw)
    requires d in ColumnLabelDraws(wrapped, cell, spacing, yBand, xBand, lineHeight, align, m)
    ensures
      exists c :: 0 <= c < |wrapped| &&
        d in BlockDraws(wrapped[c], cell.width, ColumnStart(c, cell, spacing, yBand),
                        BlockTop(xBand, |wrapped[c]|, lineHeight), lineHeight, align, m)
    decreases |wrapped|
  {
    var n := |wrapped| - 1;
    if d !in BlockDraws(wrapped[n], cell.width, ColumnStart(n, cell, spacing, yBand),
                        BlockTop(xBand, |wrapped[n]|, lineHeight), lineHeight, align, m) {
      ColumnLabelDrawsOnly(wrapped[..n], cell, spacing, yBand, xBand, lineHeight, align, m, d);
      var c :| 0 <= c < n &&
        d in BlockDraws(wrapped[..n][c], cell.width, ColumnStart(c, cell, spacing, yBand),
                        BlockTop(xBand, |wrapped[..n][c]|, lineHeight), lineHeight, align, m);
      assert wrapped[..n][c] == wrapped[c];
    }
  }

  /** Column labels of at most `maxLines` lines each show text, each aligned
      in the column of its label; in a band exactly `maxLines` lines high they
      stay inside the band. */
  lemma ColumnLabelDrawsWithin(wrapped: seq<seq<string>>, cell: Size, spacing: int, yBand: int, xBand: int,
                               maxLines: int, lineHeight: int, align: string, m: Measure)
    requires 1 <= maxLines ==> forall c :: 0 <= c < |wrapped| ==> |wrapped[c]| <= maxLines
    ensures forall d :: d in ColumnLabelDraws(wrapped, cell, spacing, yBand, xBand, lineHeight, align, m) ==>
      d.text != "" &&
      exists c :: 0 <= c < |wrapped| &&
        d.at.x == ColumnStart(c, cell, spacing, yBand) + XOffset(m(d.text), cell.width, align)
    ensures 1 <= maxLines && 0 <= lineHeight && xBand == maxLines * lineHeight ==>
      forall d :: d in ColumnLabelDraws(wrapped, cell, spacing, yBand, xBand, lineHeight, align, m) ==>
        0 <= d.at.y && d.at.y + lineHeight <= xBand
  {
    forall d | d in ColumnLabelDraws(wrapped, cell, spacing, yBand, xBand, lineHeight, align, m)
      ensures d.text != "" &&
        exists c :: 0 <= c < |wrapped| &&
          d.at.x == ColumnStart(c, cell, spacing, yBand) + XOffset(m(d.text), cell.width, align)
      ensures 1 <= maxLines && 0 <= lineHeight && xBand == maxLines * lineHeight ==>
        0 <= d.at.y && d.at.y + lineHeight <= xBand
    {
      ColumnLabelDrawsOnly(wrapped, cell, spacing, yBand, xBand, lineHeight, align, m, d);
      var c :| 0 <= c < |wrapped| &&
        d in BlockDraws(wrapped[c], cell.width, ColumnStart(c, cell, spacing, yBand),
                        BlockTop(xBand, |wrapped[c]|, lineHeight), lineHeight, align, m);
      BlockDrawsWithin(wrapped[c], cell.width, ColumnStart(c, cell, spacing, yBand),
                       BlockTop(xBand, |wrapped[c]|, lineHeight), lineHeight, align, m);
      if 1 <= maxLines && 0 <= lineHeight && xBand == maxLines * lineHeight {
        BlockWithinBand(maxLines, |wrapped[c]|, lineHeight);
      }
    }
  }

  /** The row label of row `i` whose label wrapped into `lines`: the lines
      drawn as a block centred on a block as long as a cell is high and
      `maxLines` lines thick, pasted after the quarter turn beside row `i`
      (grid.py:218-253). */
  function RowLabelFor(i: int, lines: seq<string>, cell: Size, spacing: int, xBand: int, yBand: int,
                       canvasHeight: int, maxLines: int, lineHeight: int, align: string, m: Measure): RowLabel
  {
    var block := Size(cell.height, maxLines * lineHeight);
    RowLabel(block, BlockDraws(lines, block.width, 0, BlockTop(block.height, |lines|, lineHeight), lineHeight, align, m),
             RowLabelPaste(i, cell, spacing, xBand, yBand, canvasHeight, QuarterTurn(block)))
  }

  /** The row labels of a grid whose labels wrapped into `wrapped`: one per
      label that wrapped into at least one line, in row order (grid.py:214-253). */
  function RowLabelsOf(wrapped: seq<seq<string>>, cell: Size, spacing: int, xBand: int, yBand: int,
                       canvasHeight: int, maxLines: int, lineHeight: int, align: string, m: Measure): seq<RowLabel>
  {
    if wrapped == [] then []
    else
      var i := |wrapped| - 1;
      RowLabelsOf(wrapped[..i], cell, spacing, xBand, yBand, canvasHeight, maxLines, lineHeight, align, m) +
      (if wrapped[i] == [] then []
       else [RowLabelFor(i, wrapped[i], cell, spacing, xBand, yBand, canvasHeight, maxLines, lineHeight, align, m)])
  }

  /** Every row label that wrapped into at least one line is pasted. */
  lemma {:induction false} RowLabelsOfCover(wrapped: seq<seq<string>>, cell: Size, spacing: int, xBand: int,
                                            yBand: int, canvasHeight: int, maxLines: int, lineHeight: int,
                                            align: string, m: Measure, i: int)
    requires 0 <= i < |wrapped| && wrapped[i] != []
    ensures RowLabelFor(i, wrapped[i], cell, spacing, xBand, yBand, canvasHeight, maxLines, lineHeight, align, m)
              in RowLabelsOf(wrapped, cell, spacing, xBand, yBand, canvasHeight, maxLines, lineHeight, align, m)
    decreases |wrapped|
  {
    var n := |wrapped| - 1;
    if i < n {
      assert wrapped[..n][i] == wrapped[i];
      RowLabelsOfCover(wrapped[..n], cell, spacing, xBand, yBand, canvasHeight, maxLines, lineHeight, align, m, i);
    }
  }

  /** Every pasted row label belongs to a label that wrapped into at least one
      line. */
  lemma {:induction false} RowLabelsOfOnly(wrapped: seq<seq<string>>, cell: Size, spacing: int, xBand: int,
                                           yBand: int, canvasHeight: int, maxLines: int, lineHeight: int,
                                           align: string, m: Measure, r: RowLabel)
    requires r in RowLabelsOf(wrapped, cell, spacing, xBand, yBand, canvasHeight, maxLines, lineHeight, align, m)
    ensures
      exists i :: 0 <= i < |wrapped| && wrapped[i] != [] &&
        r == RowLabelFor(i, wrapped[i], cell, spacing, xBand, yBand, canvasHeight, maxLines, lineHeight, align, m)
    decreases |wrapped|
  {
    var n := |wrapped| - 1;
    if wrapped[n] != [] &&
       r == RowLabelFor(n, wrapped[n], cell, spacing, xBand, yBand, canvasHeight, maxLines, lineHeight, align, m) {
    } else {
      RowLabelsOfOnly(wrapped[..n], cell, spacing, xBand, yBand, canvasHeight, maxLines, lineHeight, align, m, r);
      var i :| 0 <= i < n && wrapped[..n][i] != [] &&
        r == RowLabelFor(i, wrapped[..n][i], cell, spacing, xBand, yBand, canvasHeight, maxLines, lineHeight, align, m);
      assert wrapped[..n][i] == wrapped[i];
    }
  }

  /** Row labels of at most `maxLines` lines each: each is
      drawn on a block as long as a cell is high and `maxLines` lines thick,
      pasted where its row's label goes, at or right of the left edge and at
      or below the top band; its lines show text aligned along the block and,
      for a non-negative line height, lie inside it. */
  lemma RowLabelsOfWithin(wrapped: seq<seq<string>>, cell: Size, spacing: int, xBand: int, yBand: int,
                          canvasHeight: int, maxLines: int, lineHeight: int, align: string, m: Measure)
    requires 1 <= maxLines ==> forall i :: 0 <= i < |wrapped| ==> |wrapped[i]| <= maxLines
    ensures var placed := RowLabelsOf(wrapped, cell, spacing, xBand, yBand, canvasHeight, maxLines, lineHeight, align, m);
      forall r :: r in placed ==>
        r.block == Size(cell.height, maxLines * lineHeight) &&
        (exists i :: 0 <= i < |wrapped| &&
           r.paste == RowLabelPaste(i, cell, spacing, xBand, yBand, canvasHeight, QuarterTurn(r.block))) &&
        r.paste.x >= 0 && r.paste.y >= xBand &&
        (forall d :: d in r.lines ==> d.text != "" && d.at.x == XOffset(m(d.text), cell.height, align)) &&
        (1 <= maxLines && 0 <= lineHeight ==>
           forall d :: d in r.lines ==> 0 <= d.at.y && d.at.y + lineHeight <= r.block.height)
  {
    var placed := RowLabelsOf(wrapped, cell, spacing, xBand, yBand, canvasHeight, maxLines, lineHeight, align, m);
    var block := Size(cell.height, maxLines * lineHeight);
    forall r | r in placed
      ensures r.block == block
      ensures
        exists i :: 0 <= i < |wrapped| &&
          r.paste == RowLabelPaste(i, cell, spacing, xBand, yBand, canvasHeight, QuarterTurn(r.block))
      ensures r.paste.x >= 0 && r.paste.y >= xBand
      ensures forall d :: d in r.lines ==> d.text != "" && d.at.x == XOffset(m(d.text), cell.height, align)
      ensures 1 <= maxLines && 0 <= lineHeight ==>
        forall d :: d in r.lines ==> 0 <= d.at.y && d.at.y + lineHeight <= r.block.height
    {
      RowLabelsOfOnly(wrapped, cell, spacing, xBand, yBand, canvasHeight, maxLines, lineHeight, align, m, r);
      var i :| 0 <= i < |wrapped| && wrapped[i] != [] &&
        r == RowLabelFor(i, wrapped[i], cell, spacing, xBand, yBand, canvasHeight, maxLines, lineHeight, align, m);
      BlockDrawsWithin(wrapped[i], block.width, 0, BlockTop(block.height, |wrapped[i]|, lineHeight),
                       lineHeight, align, m);
      if 1 <= maxLines && 0 <= lineHeight {
        BlockWithinBand(maxLines, |wrapped[i]|, lineHeight);
      }
    }
  }

  /** The line-drawing loop shared by both kinds of label (grid.py:205-212 and
      234-240): every non-empty line, aligned in a container of width
      `containerWidth` starting at `originX`, one line height below the
      previous line, starting at `top`. */
  method DrawBlock(lines: seq<string>, containerWidth: int, originX: int, top: int,
                   lineHeight: int, align: string, m: Measure)
    returns (draws: seq<TextDraw>)
    ensures draws == BlockDraws(lines, containerWidth, originX, top, lineHeight, align, m)
    ensures |draws| <= |lines|
    ensures forall d :: d in draws ==>
      d.text != "" && d.text in lines && d.at.x == originX + XOffset(m(d.text), containerWidth, align)
    ensures 0 <= lineHeight ==> forall d :: d in draws ==>
      top <= d.at.y && d.at.y + lineHeight <= top + |lines| * lineHeight
    ensures (forall i :: 0 <= i < |lines| ==> lines[i] != "") ==>
      |draws| == |lines| &&
      forall i :: 0 <= i < |lines| ==>
        draws[i] == TextDraw(lines[i], Point(originX + XOffset(m(lines[i]), containerWidth, align), top + i * lineHeight))
  {
    draws := [];
    for idx := 0 to |lines|
      invariant draws == BlockDraws(lines[..idx], containerWidth, originX, top, lineHeight, align, m)
    {
      assert lines[..idx + 1][..idx] == lines[..idx];
      var line := lines[idx];
      if line != "" {
        var x := originX + XOffset(m(line), containerWidth, align);
        var y := top + idx * lineHeight;
        draws := draws + [TextDraw(line, Point(x, y))];
      }
    }
    assert lines[..|lines|] == lines;
    BlockDrawsWithin(lines, containerWidth, originX, top, lineHeight, align, m);
    if forall i :: 0 <= i < |lines| ==> lines[i] != "" {
      BlockDrawsExact(lines, containerWidth, originX, top, lineHeight, align, m);
    }
  }

  /** One pass of the column-label loop (grid.py:191-212): label `c` is
      wrapped to the cell width and, when it wrapped into any lines, drawn as
      a block in column `c`, centred in the top band. */
  method PlaceColumnLabel(text: string, c: int, cell: Size, spacing: int, yBand: int, xBand: int,
                          maxLines: int, lineHeight: int, align: string, m: Measure)
    returns (block: seq<TextDraw>, wrapped: seq<string>)
    ensures Wrapping(text, wrapped, cell.width, maxLines, m)
    ensures block == BlockDraws(wrapped, cell.width, ColumnStart(c, cell, spacing, yBand),
                                BlockTop(xBand, |wrapped|, lineHeight), lineHeight, align, m)
  {
    ghost var rests: seq<string>;
    var lines: seq<string>;
    lines, rests := WrapTextToLines(text, cell.width, maxLines, m);
    wrapped := lines;
    block := [];
    if lines != [] {
      var colStart := ColumnStart(c, cell, spacing, yBand);
      var top := BlockTop(xBand, |lines|, lineHeight);
      block := DrawBlock(lines, cell.width, colStart, top, lineHeight, align, m);
    }
  }

  /** The column-label loop of `_create_grid` (grid.py:189-212): each label
      with a column is wrapped to the cell width, and its lines are drawn
      aligned inside that column, as a block centred in the top band. The
      ghost `wraps` holds the wrapped lines of each label with a column. */
  method PlaceColumnLabels(labels: seq<string>, cols: int, cell: Size, spacing: int, yBand: int,
                           xBand: int, maxLines: int, lineHeight: int, align: string, m: Measure)
    returns (draws: seq<TextDraw>, ghost wraps: seq<seq<string>>)
    ensures |wraps| == LabelSlots(|labels|, cols)
    ensures forall c :: 0 <= c < |wraps| ==> Wrapping(labels[c], wraps[c], cell.width, maxLines, m)
    ensures draws == ColumnLabelDraws(wraps, cell, spacing, yBand, xBand, lineHeight, align, m)
    ensures forall d :: d in draws ==> d.text != ""
    ensures forall d :: d in draws ==>
      exists c :: 0 <= c < |labels| && c < cols &&
        d.at.x == ColumnStart(c, cell, spacing, yBand) + XOffset(m(d.text), cell.width, align)
    ensures 1 <= maxLines && 0 <= lineHeight && xBand == maxLines * lineHeight ==>
      forall d :: d in draws ==> 0 <= d.at.y && d.at.y + lineHeight <= xBand
  {
    draws := [];
    wraps := [];
    for c := 0 to |labels|
      invariant |wraps| == LabelSlots(c, cols)
      invariant forall j :: 0 <= j < |wraps| ==> Wrapping(labels[j], wraps[j], cell.width, maxLines, m)
      invariant draws == ColumnLabelDraws(wraps, cell, spacing, yBand, xBand, lineHeight, align, m)
    {
      if c < cols {
        var block;
        ghost var wrapped;
        block, wrapped := PlaceColumnLabel(labels[c], c, cell, spacing, yBand, xBand, maxLines, lineHeight, align, m);
        ghost var wraps' := wraps + [wrapped];
        assert wraps'[..|wraps|] == wraps && wraps'[|wraps|] == wrapped;
        wraps := wraps';
        draws := draws + block;
      }
    }
    ColumnLabelDrawsWithin(wraps, cell, spacing, yBand, xBand, maxLines, lineHeight, align, m);
  }

  /** One pass of the row-label loop (grid.py:216-253): label `i` is wrapped
      to the cell height and, when it wrapped into any lines, becomes the row
      label of row `i`. */
  method PlaceRowLabel(text: string, i: int, cell: Size, spacing: int, xBand: int, yBand: int,
                       canvasHeight: int, maxLines: int, lineHeight: int, align: string, m: Measure)
    returns (placed: seq<RowLabel>, wrapped: seq<string>)
    ensures Wrapping(text, wrapped, cell.height, maxLines, m)
    ensures wrapped == [] ==> placed == []
    ensures wrapped != [] ==>
      placed == [RowLabelFor(i, wrapped, cell, spacing, xBand, yBand, canvasHeight, maxLines, lineHeight, align, m)]
  {
    var block := Size(cell.height, maxLines * lineHeight);
    ghost var rests: seq<string>;
    var lines: seq<string>;
    lines, rests := WrapTextToLines(text, block.width, maxLines, m);
    wrapped := lines;
    placed := [];
    if lines != [] {
      var top := BlockTop(block.height, |lines|, lineHeight);
      var drawn := DrawBlock(lines, block.width, 0, top, lineHeight, align, m);
      var paste := RowLabelPaste(i, cell, spacing, xBand, yBand, canvasHeight, QuarterTurn(block));
      placed := [RowLabel(block, drawn, paste)];
    }
  }

  /** The row-label loop of `_create_grid` (grid.py:214-253): each label with a
      row is wrapped to the cell height and drawn on a block as long as a cell
      is high and `maxLines` lines thick, centred in it; the block is turned a
      quarter and pasted beside its row, clamped below the top band. The ghost
      `wraps` holds the wrapped lines of each label with a row. */
  method PlaceRowLabels(labels: seq<string>, rows: int, cell: Size, spacing: int, xBand: int,
                        yBand: int, canvasHeight: int, maxLines: int, lineHeight: int,
                        align: string, m: Measure)
    returns (placed: seq<RowLabel>, ghost wraps: seq<seq<string>>)
    ensures |wraps| == LabelSlots(|labels|, rows)
    ensures forall i :: 0 <= i < |wraps| ==> Wrapping(labels[i], wraps[i], cell.height, maxLines, m)
    ensures placed == RowLabelsOf(wraps, cell, spacing, xBand, yBand, canvasHeight, maxLines, lineHeight, align, m)
    ensures forall r :: r in placed ==> r.block == Size(cell.height, maxLines * lineHeight)
    ensures forall r :: r in placed ==>
      exists i :: 0 <= i < |labels| && i < rows &&
        r.paste == RowLabelPaste(i, cell, spacing, xBand, yBand, canvasHeight, QuarterTurn(r.block))
    ensures forall r :: r in placed ==> r.paste.x >= 0 && r.paste.y >= xBand
    ensures forall r :: r in placed ==> forall d :: d in r.lines ==>
      d.text != "" && d.at.x == XOffset(m(d.text), cell.height, align)
    ensures 1 <= maxLines && 0 <= lineHeight ==> forall r :: r in placed ==> forall d :: d in r.lines ==>
      0 <= d.at.y && d.at.y + lineHeight <= r.block.height
  {
    placed := [];
    wraps := [];
    for i := 0 to |labels|
      invariant |wraps| == LabelSlots(i, rows)
      invariant forall j :: 0 <= j < |wraps| ==> Wrapping(labels[j], wraps[j], cell.height, maxLines, m)
      invariant placed == RowLabelsOf(wraps, cell, spacing, xBand, yBand, canvasHeight, maxLines, lineHeight, align, m)
    {
      if i < rows {
        var row;
        ghost var wrapped;
        row, wrapped := PlaceRowLabel(labels[i], i, cell, spacing, xBand, yBand, canvasHeight,
                                        maxLines, lineHeight, align, m);
        ghost var wraps' := wraps + [wrapped];
        assert wraps'[..|wraps|] == wraps && wraps'[|wraps|] == wrapped;
        wraps := wraps';
        placed := placed + row;
      }
    }
    RowLabelsOfWithin(wraps, cell, spacing, xBand, yBand, canvasHeight, maxLines, lineHeight, align, m);
  }

  /** What `_create_grid` (grid.py:129-253) draws for the configuration `cfg`,
      where the labels wrapped into `xWraps` and `yWraps`: the blank canvas for
      no images; otherwise the canvas sized for the cells and both label bands,
      image `i` in cell `i` row by row, each label with a column drawn as its
      block in that column, and each label with a row that wrapped into at
      least one line pasted beside that row. */
  ghost predicate IsLayout(cfg: GridConfig, lineHeight: int, m: Measure, layout: Layout,
                           xWraps: seq<seq<string>>, yWraps: seq<seq<string>>)
  {
    if |cfg.images| == 0 then layout == BlankLayout
    else
      var cell := UniformSize(cfg.images);
      LaidOut(cfg, lineHeight, m, layout, xWraps, yWraps) &&
      |xWraps| == LabelSlots(|cfg.xLabels|, cfg.cols) &&
      (forall c :: 0 <= c < |xWraps| ==> Wrapping(cfg.xLabels[c], xWraps[c], cell.width, cfg.xMaxLines, m)) &&
      |yWraps| == LabelSlots(|cfg.yLabels|, cfg.rows) &&
      (forall i :: 0 <= i < |yWraps| ==> Wrapping(cfg.yLabels[i], yWraps[i], cell.height, cfg.yMaxLines, m))
  }

  /** The placement part of `IsLayout` for a grid of images: the canvas size,
      image `i` in cell `i` row by row, the column labels drawn from `xWraps`
      and the row labels pasted from `yWraps`. */
  predicate LaidOut(cfg: GridConfig, lineHeight: int, m: Measure, layout: Layout,
                    xWraps: seq<seq<string>>, yWraps: seq<seq<string>>)
  {
    var cell := UniformSize(cfg.images);
    var xBand := ColumnLabelBand(cfg, lineHeight);
    var yBand := RowLabelBand(cfg, lineHeight);
    cfg.cols != 0 &&
    layout.canvas == CanvasSize(cell, cfg.rows, cfg.cols, cfg.spacing, yBand, xBand) &&
    |layout.cells| == |cfg.images| &&
    (forall i :: 0 <= i < |cfg.images| ==>
       layout.cells[i] == CellOrigin(i, cfg.cols, cell, cfg.spacing, yBand, xBand)) &&
    layout.columnLabels == ColumnLabelDraws(xWraps, cell, cfg.spacing, yBand, xBand, lineHeight, cfg.xAlign, m) &&
    layout.rowLabels ==
      RowLabelsOf(yWraps, cell, cfg.spacing, xBand, yBand, layout.canvas.height, cfg.yMaxLines,
                  lineHeight, cfg.yAlign, m)
  }

  /** In the layout of a configuration `Grid.__init__` accepted whose canvas
      PIL can create, no image is clipped, column label text stays inside the
      top band, and each row label is pasted at the left edge at the top of its
      row and ends inside the canvas (grid.py:181-185, 201-202 and 242-253). */
  lemma LayoutWithinCanvas(cfg: GridConfig, lineHeight: int, m: Measure,
                           xWraps: seq<seq<string>>, yWraps: seq<seq<string>>)
    requires Valid(cfg) && WellSized(cfg, lineHeight) && |cfg.images| > 0
    requires |xWraps| <= |cfg.xLabels| && forall c :: 0 <= c < |xWraps| ==> |xWraps[c]| <= cfg.xMaxLines
    requires |yWraps| <= |cfg.yLabels| && |yWraps| <= cfg.rows
    requires forall i :: 0 <= i < |yWraps| ==> |yWraps[i]| <= cfg.yMaxLines
    ensures var cell := UniformSize(cfg.images);
      var xBand := ColumnLabelBand(cfg, lineHeight);
      var yBand := RowLabelBand(cfg, lineHeight);
      var canvas := CanvasSize(cell, cfg.rows, cfg.cols, cfg.spacing, yBand, xBand);
      forall i :: 0 <= i < |cfg.images| ==>
        var p := CellOrigin(i, cfg.cols, cell, cfg.spacing, yBand, xBand);
        yBand <= p.x && p.x + cell.width <= canvas.width &&
        xBand <= p.y && p.y + cell.height <= canvas.height
    ensures var cell := UniformSize(cfg.images);
      var xBand := ColumnLabelBand(cfg, lineHeight);
      var yBand := RowLabelBand(cfg, lineHeight);
      forall d :: d in ColumnLabelDraws(xWraps, cell, cfg.spacing, yBand, xBand, lineHeight, cfg.xAlign, m) ==>
        0 <= d.at.y && d.at.y + lineHeight <= xBand
    ensures var cell := UniformSize(cfg.images);
      var xBand := ColumnLabelBand(cfg, lineHeight);
      var yBand := RowLabelBand(cfg, lineHeight);
      var canvas := CanvasSize(cell, cfg.rows, cfg.cols, cfg.spacing, yBand, xBand);
      forall r :: r in RowLabelsOf(yWraps, cell, cfg.spacing, xBand, yBand, canvas.height, cfg.yMaxLines,
                                   lineHeight, cfg.yAlign, m) ==>
        r.block.height == yBand &&
        r.paste.y + r.block.width <= canvas.height &&
        exists i :: 0 <= i < cfg.rows && r.paste == Point(0, RowStart(i, cell, cfg.spacing, xBand))
  {
    ValidHasColumns(cfg);
    var cell := UniformSize(cfg.images);
    var xBand := ColumnLabelBand(cfg, lineHeight);
    var yBand := RowLabelBand(cfg, lineHeight);
    var canvas := CanvasSize(cell, cfg.rows, cfg.cols, cfg.spacing, yBand, xBand);
    assert cell.width >= cfg.images[0].width >= 0 && cell.height >= cfg.images[0].height >= 0;
    forall i | 0 <= i < |cfg.images|
      ensures var p := CellOrigin(i, cfg.cols, cell, cfg.spacing, yBand, xBand);
        yBand <= p.x && p.x + cell.width <= canvas.width &&
        xBand <= p.y && p.y + cell.height <= canvas.height
    {
      CellInsideCanvas(i, cfg.rows, cfg.cols, cell, cfg.spacing, yBand, xBand);
    }
    if cfg.xLabels != [] {
      ColumnLabelDrawsWithin(xWraps, cell, cfg.spacing, yBand, xBand, cfg.xMaxLines, lineHeight, cfg.xAlign, m);
    }
    var rowLabels := RowLabelsOf(yWraps, cell, cfg.spacing, xBand, yBand, canvas.height, cfg.yMaxLines,
                                 lineHeight, cfg.yAlign, m);
    if cfg.yLabels == [] {
      assert rowLabels == [];
    } else {
      assert yBand == cfg.yMaxLines * lineHeight;
      RowLabelsOfWithin(yWraps, cell, cfg.spacing, xBand, yBand, canvas.height, cfg.yMaxLines,
                        lineHeight, cfg.yAlign, m);
    }
    forall r | r in rowLabels
      ensures r.block.height == yBand
      ensures r.paste.y + r.block.width <= canvas.height
      ensures exists i :: 0 <= i < cfg.rows && r.paste == Point(0, RowStart(i, cell, cfg.spacing, xBand))
    {
      var i :| 0 <= i < |yWraps| &&
        r.paste == RowLabelPaste(i, cell, cfg.spacing, xBand, yBand, canvas.height, QuarterTurn(r.block));
      RowLabelPasteAligned(i, cfg.rows, cell, cfg.spacing, xBand, yBand);
    }
  }

  /** Why no grid is produced: the automatic shape of `grid()` divided by zero,
      `Grid.__init__` rejected the configuration, or `_resize_images` divided
      by zero. */
  datatype GridError = ShapeFailed(shape: ShapeError) | Rejected(config: ConfigError) | ResizeFailed

  /** `_resize_images` divides by the height of each image and by the height
      of the target size (grid.py:105-106); either being 0 raises
      ZeroDivisionError. */
  predicate ResizeDividesByZero(images: seq<Size>, target: Size) {
    exists i :: 0 <= i < |images| && (images[i].height == 0 || target.height == 0)
  }

  /** Some image has height 0. */
  predicate HasZeroHeight(images: seq<Size>) {
    exists i :: 0 <= i < |images| && images[i].height == 0
  }

  /** Resizing to the uniform size divides by zero exactly when some image has
      height 0: the uniform height is the height of one of the images. */
  lemma ResizeDividesByZeroIff(images: seq<Size>)
    ensures ResizeDividesByZero(images, UniformSize(images)) <==> HasZeroHeight(images)
  {
    if ResizeDividesByZero(images, UniformSize(images)) {
      var i :| 0 <= i < |images| && (images[i].height == 0 || UniformSize(images).height == 0);
      if images[i].height != 0 {
        var j :| 0 <= j < |images| && images[j].height == UniformSize(images).height;
        assert images[j].height == 0;
      }
    }
  }

  /** The loop of `_resize_images` (grid.py:100-127): it stops with
      ZeroDivisionError at the first image whose ratio or the target's divides
      by zero, and otherwise turns every image into one of the target size. */
  method ResizeImages(images: seq<Size>, target: Size) returns (r: Result<seq<Size>, GridError>)
    ensures r.Failure? <==> ResizeDividesByZero(images, target)
    ensures r.Failure? ==> r.error == ResizeFailed
    ensures r.Success? ==> |r.value| == |images| && forall i :: 0 <= i < |r.value| ==> r.value[i] == target
  {
    var resized := [];
    for k := 0 to |images|
      invariant |resized| == k
      invariant forall i :: 0 <= i < k ==> resized[i] == target
      invariant !ResizeDividesByZero(images[..k], target)
    {
      if images[k].height == 0 || target.height == 0 {
        return Failure(ResizeFailed);
      }
      resized := resized + [target];
    }
    assert images[..|images|] == images;
    return Success(resized);
  }

  /** `_create_grid` (grid.py:129-253) for a configuration `Grid.__init__`
      accepted. With no images the canvas is blank. With an image of height 0
      `_resize_images` raises ZeroDivisionError. Otherwise the layout is the one
      of `IsLayout`: every image in its own cell, row by row, after the label
      bands; column label text inside the top band; each row label pasted at
      the left edge at the top of its row, ending inside the canvas. */
  method CreateGrid(cfg: GridConfig, lineHeight: int, m: Measure)
    returns (r: Result<Layout, GridError>, ghost xWraps: seq<seq<string>>, ghost yWraps: seq<seq<string>>)
    requires Valid(cfg)
    ensures r.Failure? <==> HasZeroHeight(cfg.images)
    ensures r.Failure? ==> r.error == ResizeFailed
    ensures r.Success? ==> IsLayout(cfg, lineHeight, m, r.value, xWraps, yWraps)
    ensures |cfg.images| == 0 ==> r == Success(BlankLayout)
    ensures r.Success? && |cfg.images| > 0 ==>
      r.value.canvas == CanvasSize(UniformSize(cfg.images), cfg.rows, cfg.cols, cfg.spacing,
                                   RowLabelBand(cfg, lineHeight), ColumnLabelBand(cfg, lineHeight))
    ensures r.Success? && |cfg.images| > 0 ==> |r.value.cells| == |cfg.images|
    ensures r.Success? && |cfg.images| > 0 ==> forall i :: 0 <= i < |cfg.images| ==>
      r.value.cells[i] == CellOrigin(i, cfg.cols, UniformSize(cfg.images), cfg.spacing,
                                     RowLabelBand(cfg, lineHeight), ColumnLabelBand(cfg, lineHeight))
    ensures r.Success? && WellSized(cfg, lineHeight) ==> forall i :: 0 <= i < |r.value.cells| ==>
      var p := r.value.cells[i];
      var cell := UniformSize(cfg.images);
      RowLabelBand(cfg, lineHeight) <= p.x && p.x + cell.width <= r.value.canvas.width &&
      ColumnLabelBand(cfg, lineHeight) <= p.y && p.y + cell.height <= r.value.canvas.height
    ensures r.Success? && WellSized(cfg, lineHeight) ==> forall d :: d in r.value.columnLabels ==>
      0 <= d.at.y && d.at.y + lineHeight <= ColumnLabelBand(cfg, lineHeight)
    ensures r.Success? && WellSized(cfg, lineHeight) ==> forall rl :: rl in r.value.rowLabels ==>
      rl.block.height == RowLabelBand(cfg, lineHeight) &&
      rl.paste.y + rl.block.width <= r.value.canvas.height &&
      exists i :: 0 <= i < cfg.rows &&
        rl.paste == Point(0, RowStart(i, UniformSize(cfg.images), cfg.spacing, ColumnLabelBand(cfg, lineHeight)))
  {
    xWraps, yWraps := [], [];
    if |cfg.images| == 0 {
      return Success(BlankLayout), xWraps, yWraps;
    }
    var cell := UniformSize(cfg.images);
    var resized := ResizeImages(cfg.images, cell);
    ResizeDividesByZeroIff(cfg.images);
    if resized.Failure? {
      return Failure(resized.error), xWraps, yWraps;
    }
    ValidHasColumns(cfg);
    var xBand := ColumnLabelBand(cfg, lineHeight);
    var yBand := RowLabelBand(cfg, lineHeight);
    var canvas := CanvasSize(cell, cfg.rows, cfg.cols, cfg.spacing, yBand, xBand);
    var cells := PlaceCells(|cfg.images|, cfg.rows, cfg.cols, cell, cfg.spacing, yBand, xBand);
    var columnLabels := [];
    if cfg.xLabels != [] {
      columnLabels, xWraps := PlaceColumnLabels(cfg.xLabels, cfg.cols, cell, cfg.spacing, yBand, xBand,
                                                cfg.xMaxLines, lineHeight, cfg.xAlign, m);
    }
    var rowLabels := [];
    if cfg.yLabels != [] {
      rowLabels, yWraps := PlaceRowLabels(cfg.yLabels, cfg.rows, cell, cfg.spacing, xBand, yBand,
                                          canvas.height, cfg.yMaxLines, lineHeight, cfg.yAlign, m);
    }
    var layout := Layout(canvas, cells, columnLabels, rowLabels);
    if WellSized(cfg, lineHeight) {
      LayoutWithinCanvas(cfg, lineHeight, m, xWraps, yWraps);
    }
    return Success(layout), xWraps, yWraps;
  }

  /** `Grid.__init__` (grid.py:29-89): the configuration is rejected with the
      first validation error, `_create_grid` fails in `_resize_images` on an
      image of height 0, or the grid of `IsLayout` is built. */
  method NewGrid(cfg: GridConfig, lineHeight: int, m: Measure)
    returns (r: Result<Layout, GridError>, ghost xWraps: seq<seq<string>>, ghost yWraps: seq<seq<string>>)
    ensures r.Failure? <==> !Valid(cfg) || HasZeroHeight(cfg.images)
    ensures !Valid(cfg) ==> r == Failure(Rejected(Validate(cfg).value))
    ensures Valid(cfg) && r.Failure? ==> r.error == ResizeFailed
    ensures r.Success? ==> IsLayout(cfg, lineHeight, m, r.value, xWraps, yWraps)
    ensures r.Success? && |cfg.images| == 0 ==> r.value == BlankLayout
    ensures r.Success? && |cfg.images| > 0 ==>
      r.value.canvas == CanvasSize(UniformSize(cfg.images), cfg.rows, cfg.cols, cfg.spacing,
                                   RowLabelBand(cfg, lineHeight), ColumnLabelBand(cfg, lineHeight)) &&
      |r.value.cells| == |cfg.images|
  {
    xWraps, yWraps := [], [];
    var e := Validate(cfg);
    if e.Some? {
      return Failure(Rejected(e.value)), xWraps, yWraps;
    }
    r, xWraps, yWraps := CreateGrid(cfg, lineHeight, m);
  }

  /** `grid()` (grid.py:571-582): rows and columns left out are derived from
      the image count (with the empty-grid correction of `AutoShapeFixed`),
      and `Grid.__init__` is run with them. */
  method MakeGrid(images: seq<Size>, rows: Option<int>, cols: Option<int>,
                  xLabels: seq<string>, yLabels: seq<string>, spacing: int,
                  xMaxLines: int, yMaxLines: int, xAlign: string, yAlign: string,
                  lineHeight: int, m: Measure)
    returns (r: Result<Layout, GridError>, ghost xWraps: seq<seq<string>>, ghost yWraps: seq<seq<string>>)
    ensures var shape := AutoShapeFixed(|images|, rows, cols);
      r.Failure? && r.error.ShapeFailed? <==> shape.Failure?
    ensures var shape := AutoShapeFixed(|images|, rows, cols);
      shape.Success? ==>
        var cfg := GridConfig(images, shape.value.rows, shape.value.cols, xLabels, yLabels,
                              spacing, xMaxLines, yMaxLines, xAlign, yAlign);
        (r.Failure? <==> !Valid(cfg) || HasZeroHeight(images)) &&
        (!Valid(cfg) ==> r == Failure(Rejected(Validate(cfg).value))) &&
        (Valid(cfg) && r.Failure? ==> r.error == ResizeFailed) &&
        (r.Success? ==> IsLayout(cfg, lineHeight, m, r.value, xWraps, yWraps)) &&
        (r.Success? && |images| > 0 ==>
          r.value.canvas == CanvasSize(UniformSize(images), cfg.rows, cfg.cols, spacing,
                                       RowLabelBand(cfg, lineHeight), ColumnLabelBand(cfg, lineHeight)) &&
          |r.value.cells| == |images|)
    ensures rows.None? && cols.None? ==> r.Success? || !r.error.ShapeFailed?
  {
    xWraps, yWraps := [], [];
    var shape := AutoShapeFixed(|images|, rows, cols);
    if shape.Failure? {
      return Failure(ShapeFailed(shape.error)), xWraps, yWraps;
    }
    var cfg := GridConfig(images, shape.value.rows, shape.value.cols, xLabels, yLabels,
                          spacing, xMaxLines, yMaxLines, xAlign, yAlign);
    r, xWraps, yWraps := NewGrid(cfg, lineHeight, m);
  }
}
