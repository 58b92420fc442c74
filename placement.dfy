/** Label placement arithmetic of `Grid._create_grid` and
    `Grid._get_text_x_position` (pillow_grid/grid.py:198-253, 367-386):
    horizontal alignment of a line, vertical centring of a wrapped block, and
    where a rotated row label is pasted. */
module Placement {
  import opened Arith
  import opened Geometry

  /** The alignments `Grid.__init__` accepts. */
  predicate IsAlignment(a: string) {
    a == "left" || a == "center" || a == "right"
  }

  /** `_get_text_x_position`: offset of a line of width `textWidth` inside a
      container of width `containerWidth`. Left puts it at 0, right makes it end
      at the container's edge, and centre (also used for any other value)
      leaves margins that differ by at most one pixel, the right one being the
      larger; a line no wider than its container stays inside it. */
  function XOffset(textWidth: int, containerWidth: int, alignment: string): (x: int)
    ensures alignment == "left" ==> x == 0
    ensures alignment == "right" ==> x + textWidth == containerWidth
    ensures alignment != "left" && alignment != "right" ==>
      0 <= (containerWidth - (x + textWidth)) - x <= 1
    ensures 0 <= textWidth <= containerWidth ==> 0 <= x && x + textWidth <= containerWidth
  {
    if alignment == "left" then 0
    else if alignment == "center" then FloorDiv(containerWidth - textWidth, 2)
    else if alignment == "right" then containerWidth - textWidth
    else FloorDiv(containerWidth - textWidth, 2)
  }

  /** Top of a block of `lineCount` lines centred in a band of height `band`
      (grid.py:201-202 and 230-231): the space below the block exceeds the
      space above by at most one pixel. */
  function BlockTop(band: int, lineCount: int, lineHeight: int): (y: int)
    ensures 0 <= (band - (y + lineCount * lineHeight)) - y <= 1
  {
    FloorDiv(band - lineCount * lineHeight, 2)
  }

  /** A wrapped block has at most `maxLines` lines, so centred in a band of
      `maxLines` lines it starts inside the band and ends inside it. */
  lemma BlockWithinBand(maxLines: int, lineCount: int, lineHeight: int)
    requires 0 <= lineCount <= maxLines && 0 <= lineHeight
    ensures var y := BlockTop(maxLines * lineHeight, lineCount, lineHeight);
      0 <= y && y + lineCount * lineHeight <= maxLines * lineHeight
  {
    MulLe(lineCount, maxLines, lineHeight);
  }

  /** Size of an image after `rotate(90, expand=True)`: width and height swap. */
  function QuarterTurn(s: Size): Size {
    Size(s.height, s.width)
  }

  /** Paste position of the rotated block of row label `row` (grid.py:245-253):
      centred in the left band and against the row, then clamped so that it
      starts below the column-label band. */
  function RowLabelPaste(row: int, cell: Size, spacing: int, xBand: int, yBand: int,
                         canvasHeight: int, rotated: Size): (p: Point)
    ensures p.x >= 0
    ensures p.y >= xBand
    ensures xBand <= canvasHeight - rotated.height ==> p.y <= canvasHeight - rotated.height
  {
    var rowStart := RowStart(row, cell, spacing, xBand);
    var x := Max(0, FloorDiv(yBand - rotated.width, 2));
    var y := rowStart + FloorDiv(cell.height - rotated.height, 2);
    Point(x, Max(xBand, Min(y, canvasHeight - rotated.height)))
  }

  /** For the block the source renders, band-thick and as long as a cell is
      high, the paste lands exactly at the left edge and at the top of its row:
      the clamp never shifts a row label, and the block ends inside the canvas. */
  lemma RowLabelPasteAligned(row: int, rows: int, cell: Size, spacing: int,
                             xBand: int, yBand: int)
    requires 0 <= row < rows && NonNegative(cell) && 0 <= spacing
    ensures var height := CanvasHeight(cell, rows, spacing, xBand);
      var rotated := QuarterTurn(Size(cell.height, yBand));
      var p := RowLabelPaste(row, cell, spacing, xBand, yBand, height, rotated);
      p == Point(0, RowStart(row, cell, spacing, xBand)) &&
      p.y + rotated.height <= height
  {
    SpanWithin(row, rows, cell.height, spacing);
  }
}
