# pillow-grid layout core in Dafny

pillow-grid arranges images into a grid on one canvas, with optional column
labels above the columns and row labels, drawn a quarter turn, beside the rows.
This project models the integer and string logic behind that:

- **The label line wrapper** `Grid._wrap_text_to_lines` and its nested
  `fit_text_in_width`. A label is wrapped greedily, word by word, into at most
  `max_lines` lines of at most `max_width` pixels. A first word too wide on its
  own is cut by characters. The last permitted line is cut short with `"..."`.
  The cut uses a binary search for the widest fitting prefix.
- **Label placement.** Horizontal alignment (`_get_text_x_position`), centring
  of a wrapped block in its label band, and the clamped paste position of a
  rotated row label.
- **Grid geometry.** Validation in `Grid.__init__`, the uniform cell size, the
  label bands, the canvas size, the row-major cell positions, and the rows and
  columns `grid()` derives when they are not given.
- **The command-line label parser** `parse_labels`.

Text measurement (`draw.textlength` with the label font) is a parameter
`m: Measure`, a function from strings to pixel widths.
The model assumes one thing about it, and only where a result depends on it: a
prefix of a string is never wider than the string (`Measure.Monotone`). Every
such result is stated as `Monotone(m) ==> ...`. Everything else holds for any
measure.

The font's line height is also a parameter, because the source computes it
with floating point. In the source, `int(font_height * 1.05)` is computed at
grid.py:152.

Python's built-ins are modelled as pure functions in `Text` and `Arith`:
`str.isspace`, `strip()`, `split()`, `split(',')`, `' '.join`, and floor `//`
and `%`. The source's loops are methods with loop invariants:

- the wrapper, its word loop and the binary search;
- the image-pasting loop;
- the two label loops.

Each method is proved against ghost predicates describing one step of the
source (`Wrap.LineStep`, `Wrap.LastLine`, `Wrap.WrapTrace`). Lemmas then state
what those steps guarantee.

Edge cases the model reproduces as the code has them:

- When the ellipsis alone is at least as wide as the last line allows,
  `fit_text_in_width` returns `""` (grid.py:284-285). The wrapper then adds no
  last line (grid.py:326-328).
- Wrapping stops as soon as the remaining text is whitespace only, not only
  when it is empty (grid.py:313-314). Text that is whitespace only from the
  start is returned as its single line (grid.py:306-307).
- A label list is checked against the column or row count only when it is
  non-empty (grid.py:76 and 79).
- An alignment outside left/center/right is centred by `_get_text_x_position`
  (grid.py:385-386). `Grid.__init__` rejects such a value first (grid.py:82-86).
- An image of height 0 passes validation, but `_resize_images` then divides
  by zero (grid.py:105-106). Such a grid fails with `ResizeFailed`.

The layout of a grid is described exactly by `Grid.IsLayout`. The wrapped lines
of each label are ghost outputs of the placement methods, each one a
`Wrap.Wrapping` of its label. Column labels are `Grid.ColumnLabelDraws` of those
lines, and row labels are `Grid.RowLabelsOf` them.

## Model

| member | source | states |
|---|---|---|
| Text.Strip | pillow_grid/cli.py:18 | `strip()` returns a string no longer than its input, with no whitespace at either end |
| Text.IsSpace | pillow_grid/grid.py:306 | definition: the characters `str.isspace` accepts |
| Text.AllSpace | pillow_grid/grid.py:306 | definition: every character is whitespace |
| Text.NoSpace | pillow_grid/grid.py:333 | definition: no character is whitespace |
| Text.IsWord | pillow_grid/grid.py:333 | definition: a non-empty run without whitespace, as `split()` yields |
| Text.AllWords | pillow_grid/grid.py:333 | definition: every element is such a word |
| Text.Trimmed | pillow_grid/cli.py:18 | definition: no whitespace at either end |
| Text.StripInfix | pillow_grid/cli.py:18 | what `strip()` keeps is the infix of the input that starts after its leading whitespace |
| Text.StripDropsSpace | pillow_grid/cli.py:18 | everything `strip()` removes on either side is whitespace |
| Text.StripEmptyIff | pillow_grid/grid.py:306 | `not s.strip()` holds exactly when `s` is whitespace only |
| Text.StripStripped | pillow_grid/cli.py:18 | a string with no whitespace at its ends is left unchanged by `strip()` |
| Text.LeadingSpaces | pillow_grid/cli.py:18 | the count of leading characters `lstrip()` removes: all whitespace, followed by a non-space or the end |
| Text.TrailingStart | pillow_grid/cli.py:18 | where the trailing whitespace `rstrip()` removes begins: a non-space or the start comes before it |
| Text.WordLength | pillow_grid/grid.py:333 | the first run of non-whitespace ends at whitespace or at the end of the string |
| Text.Words | pillow_grid/grid.py:333 | every element of `split()` is a non-empty word without whitespace |
| Text.NoWordsIff | pillow_grid/grid.py:333-335 | `split()` is empty exactly when the string is whitespace only |
| Text.WordsOfJoin | pillow_grid/grid.py:363 | re-splitting a space-join of words gives back exactly those words |
| Text.WordsOfWordThen | pillow_grid/grid.py:333 | a word followed by whitespace splits off as the first element of `split()` |
| Text.WordLengthOfWord | pillow_grid/grid.py:333 | the first word of a word followed by whitespace (or nothing) is that word |
| Text.JoinWordsEmpty | pillow_grid/grid.py:341 | a space-join of words is empty only when there are no words, and starts with the first word's first character |
| Text.JoinOnSnoc | pillow_grid/grid.py:341 | adding a word to a line adds a separator (if the line is non-empty) and the word, as the line test does |
| Text.JoinOn | pillow_grid/grid.py:363 | definition: `sep.join(fields)` |
| Text.JoinWords | pillow_grid/grid.py:341 | definition: `' '.join(words)` |
| Text.Count | pillow_grid/cli.py:18 | definition: the number of separators `split(sep)` splits at |
| Text.SplitOn | pillow_grid/cli.py:18 | `split(',')` has one field more than there are commas, and no field contains a comma |
| Text.JoinOfSplit | pillow_grid/cli.py:18 | joining the fields of `split(sep)` with `sep` gives back the string |
| Text.SplitOfJoin | pillow_grid/cli.py:18 | splitting a join of separator-free fields gives back the fields |
| Text.SplitOnPrefix | pillow_grid/cli.py:18 | a comma-free prefix joins the first field of `split(sep)` of what follows it |
| Measure.TooWideFrom | pillow_grid/grid.py:297-301 | under a monotone measure, once a prefix is too wide every longer prefix is too wide |
| Measure.PrefixWidthMonotone | pillow_grid/grid.py:289 | under a monotone measure, a longer prefix is at least as wide as a shorter one |
| Measure.Monotone | pillow_grid/grid.py:272-274 | definition: a prefix of a string is never wider than the string |
| Wrap.WidestFittingPrefix | pillow_grid/grid.py:289-303 | the binary search returns a prefix length whose prefix fits the budget (or 0); under a monotone measure no longer prefix fits |
| Wrap.FitTextInWidth | pillow_grid/grid.py:276-304 | text that fits is returned unchanged; if the ellipsis leaves no room, the result is `""` (ellipsis mode) or `text[:1]`; otherwise it is the widest fitting proper prefix, with `"..."` in ellipsis mode |
| Wrap.GreedyWordLine | pillow_grid/grid.py:337-347 | the word loop yields the space-join of the first `used` words; every shorter join fits, and one more word would overflow |
| Wrap.WrapOneLine | pillow_grid/grid.py:331-363 | a line before the last is either whole words (leaving the unused words joined) or a cut of an over-wide first word (its tail leads the rest); when it emits nothing, the text is whitespace only or not even one character fits |
| Wrap.LineStepFits | pillow_grid/grid.py:343-354 | a line emitted before the last permitted one is non-empty and fits the width, except the one character emitted when the width is not positive |
| Wrap.WordStepConserves | pillow_grid/grid.py:361-363 | a word line and the text left over re-split into exactly the words they came from, in order |
| Wrap.CharStepConserves | pillow_grid/grid.py:349-357 | a cut line followed by the text left over spells out the remaining words joined by spaces: no character is lost |
| Wrap.WrapLastLine | pillow_grid/grid.py:319-329 | the last permitted line is the remaining text whole if it fits, else its ellipsis truncation; an empty truncation is emitted only when the ellipsis leaves no room |
| Wrap.WrapTextToLines | pillow_grid/grid.py:258-365 | empty text gives `[]`; whitespace-only text gives `[text]`; otherwise every line is a recorded step, the last permitted line is the truncated last line of text that still holds a non-space, and an early stop has a reason; there are at most `max_lines` lines, none of them empty; together, a `Wrapping` of the text |
| Wrap.WrapTraceFits | pillow_grid/grid.py:312-363 | every line of a run fits, except the one character emitted for a non-positive width and a truncated last line, which ends with `"..."` and whose prefix plus the ellipsis fits |
| Wrap.ProgressStep | pillow_grid/grid.py:312-363 | appending one more valid step to a run keeps it a run of valid steps |
| Wrap.FinishStopped | pillow_grid/grid.py:312-359 | a run that stops early, for one of the source's reasons (lines 313-314, 334-335, 358-359), is a complete trace |
| Wrap.FinishLast | pillow_grid/grid.py:313-329 | a run ending with its last permitted line, made from text that is not whitespace only, is a complete trace |
| Wrap.IsCut | pillow_grid/grid.py:289-304 | definition: a proper prefix plus suffix, widest among the fitting prefixes when the measure is monotone |
| Wrap.WordLineStep | pillow_grid/grid.py:337-363 | definition: a line of whole words, the greedy join, and the rest of the words joined by spaces |
| Wrap.CharLineStep | pillow_grid/grid.py:349-357 | definition: a cut of an over-wide first word, its tail leading the rest |
| Wrap.LineStep | pillow_grid/grid.py:331-363 | definition: one line before the last permitted one, either kind |
| Wrap.NothingFits | pillow_grid/grid.py:349-359 | definition: not even the first character of the first word fits |
| Wrap.LastLine | pillow_grid/grid.py:319-329 | definition: the last permitted line, whole or truncated with the ellipsis |
| Wrap.Stopped | pillow_grid/grid.py:312-359 | definition: why the loop ended before the line budget was used up |
| Wrap.WrapTrace | pillow_grid/grid.py:309-365 | definition: a whole run of the loop, line by line, with the remaining texts |
| Wrap.Progress | pillow_grid/grid.py:309-363 | definition: a run so far, every line a non-empty step |
| Wrap.Wrapping | pillow_grid/grid.py:258-365 | definition: what the wrapper promises about the lines of a text, whatever its remaining texts were |
| Wrap.WrappingOfTrace | pillow_grid/grid.py:306-365 | a run of the wrapper, with its remaining texts, is a `Wrapping` of its text |
| Wrap.JoinWordsStep | pillow_grid/grid.py:341 | the test line is the join of one more word: the line so far, a space if it is non-empty, and the word |
| Arith.FloorDiv | pillow_grid/grid.py:181 | Python's `//`: the floor of the quotient for either sign of divisor |
| Arith.FloorMod | pillow_grid/grid.py:182 | Python's `%`: the remainder takes the divisor's sign and is smaller than it in magnitude |
| Placement.XOffset | pillow_grid/grid.py:367-386 | left gives 0; right makes the line end at the container edge; centre (and any other value) leaves margins differing by at most one pixel; a line no wider than its container stays inside it |
| Placement.BlockTop | pillow_grid/grid.py:201-202 | the block is centred in its band (as also at lines 230-231): the space below exceeds the space above by at most one pixel |
| Placement.BlockWithinBand | pillow_grid/grid.py:199-202 | a block of at most `max_lines` lines starts at or below the band's top and ends inside the band |
| Placement.RowLabelPaste | pillow_grid/grid.py:245-253 | the paste x is never negative, the paste y never rises into the column-label band, and the clamp keeps the block above the canvas bottom when there is room |
| Placement.RowLabelPasteAligned | pillow_grid/grid.py:216-253 | for the block the source renders, the row label is pasted exactly at the left edge at the top of its row and ends inside the canvas |
| Placement.IsAlignment | pillow_grid/grid.py:82-86 | definition: `left`, `center` or `right` |
| Placement.QuarterTurn | pillow_grid/grid.py:242 | definition: `rotate(90, expand=True)` swaps width and height |
| Geometry.MaxWidth | pillow_grid/grid.py:96 | the largest width among the images: an upper bound that one of them attains |
| Geometry.MaxHeight | pillow_grid/grid.py:97 | the largest height among the images: an upper bound that one of them attains |
| Geometry.UniformSize | pillow_grid/grid.py:91-98 | 100 by 100 for no images, else the maximum width and maximum height, each attained by some image |
| Geometry.LabelBand | pillow_grid/grid.py:155-165 | definition: `max_lines * line_height` when there are labels, else 0 |
| Geometry.CanvasSize | pillow_grid/grid.py:167-170 | definition: the canvas width and height |
| Geometry.CanvasWidth | pillow_grid/grid.py:167-168 | definition: `cols` cells and `cols - 1` gaps plus the row-label band |
| Geometry.CanvasHeight | pillow_grid/grid.py:169-170 | definition: `rows` cells and `rows - 1` gaps plus the column-label band |
| Geometry.ColumnStart | pillow_grid/grid.py:184 | definition: the left edge of column `c`, after the row-label band (also at line 198) |
| Geometry.RowStart | pillow_grid/grid.py:185 | definition: the top edge of row `r`, below the column-label band (also at line 245) |
| Geometry.CellOrigin | pillow_grid/grid.py:181-185 | definition: the paste position of image `i`, at row `i // cols` and column `i % cols` |
| Geometry.CellOriginRowMajor | pillow_grid/grid.py:181-185 | image `row * cols + col` is pasted at the start of column `col` and row `row` |
| Geometry.CellIndexBounds | pillow_grid/grid.py:178-182 | an index below `rows * cols` lies in a row and column inside the grid |
| Geometry.CellInsideCanvas | pillow_grid/grid.py:167-185 | every cell lies after both label bands and inside the canvas |
| Geometry.CellsDisjoint | pillow_grid/grid.py:181-185 | two different cells never overlap |
| Geometry.SpansApart | pillow_grid/grid.py:184-185 | a cell ends before or where any later cell starts |
| Geometry.CanvasMonotone | pillow_grid/grid.py:167-170 | the canvas grows with rows, columns, spacing and label bands |
| Geometry.SpanWithin | pillow_grid/grid.py:184-185 | the `k`-th of `n` cells, with its gaps before it, ends where the `n` cells and gaps end or earlier |
| Geometry.ExtentMonotone | pillow_grid/grid.py:167-170 | `n` cells with their gaps span more as the count and the gap grow |
| Geometry.PlaceCells | pillow_grid/grid.py:176-185 | the image loop pastes image `i` at its row-major cell, stopping once `rows * cols` cells are filled |
| Config.Validate | pillow_grid/grid.py:73-86 | each `ValueError` is raised exactly when its condition holds and no earlier check failed; construction proceeds exactly when all checks pass |
| Config.Valid | pillow_grid/grid.py:73-86 | definition: every check of `Grid.__init__` passes |
| Config.ValidHasColumns | pillow_grid/grid.py:73-74 | an accepted configuration with at least one image has non-zero rows and columns, so `i // cols` is defined |
| Shape.ISqrt | pillow_grid/grid.py:574 | the integer square root: its square is at most `n`, and the next integer's square exceeds `n` |
| Shape.CeilDiv | pillow_grid/grid.py:575-579 | `(n + d - 1) // d` is the least count of `d`-sized groups that covers `n` |
| Shape.Covers | pillow_grid/grid.py:575-579 | definition: `count` groups of `per` cover `n`, and one fewer does not |
| Shape.AutoShape | pillow_grid/grid.py:571-579 | given counts are kept; a missing one is the ceiling quotient of the image count by the other; neither given uses `isqrt(n)` columns; each case fails exactly when it divides by zero |
| Shape.AutoShapeNearlySquare | pillow_grid/grid.py:572-575 | the automatic shape for one or more images has at least as many rows as columns, and at most two more |
| Shape.AutoShapeEmptyFails | pillow_grid/grid.py:573-575 | as written, no images and neither count given divides by zero |
| Shape.AutoShapeFixed | pillow_grid/grid.py:571-579 | the corrected shape always succeeds when neither count is given, covers the images with at least one column, and agrees with the source whenever the source does not divide by zero |
| Shape.NearSquare | pillow_grid/grid.py:574-575 | `c` columns with `c*c <= n < (c+1)^2` need between `c` and `c + 2` rows |
| Grid.DrawBlock | pillow_grid/grid.py:205-212 | (and the same loop at lines 234-240) the loop draws exactly `BlockDraws`: only non-empty lines, each aligned in its container and one line height below the previous, all inside the block; with no empty line, line `i` is draw `i` |
| Grid.ColumnLabelBand | pillow_grid/grid.py:155-159 | definition: the height of the column-label band |
| Grid.RowLabelBand | pillow_grid/grid.py:161-165 | definition: the width of the row-label band |
| Grid.WellSized | pillow_grid/grid.py:173 | definition: the size conditions the placement bounds are stated under, which are at least one row, one column and one line per label band, and non-negative spacing, line height and image dimensions |
| Grid.LabelSlots | pillow_grid/grid.py:190-191 | only the labels with an index below the count get a column or row: no more than either |
| Grid.BlockDraws | pillow_grid/grid.py:205-212 | definition: the draws of a wrapped block, one per non-empty line, line `k` placed `k` line heights below the block top |
| Grid.BlockDrawsWithin | pillow_grid/grid.py:205-212 | a block's draws show its non-empty lines, each aligned in the container and inside the block |
| Grid.BlockDrawsExact | pillow_grid/grid.py:205-212 | a block of non-empty lines draws every line, in order, at its place |
| Grid.ColumnLabelDraws | pillow_grid/grid.py:189-212 | definition: the blocks of the labels with a column, label `c` in column `c`, centred in the top band |
| Grid.ColumnLabelDrawsCover | pillow_grid/grid.py:189-212 | every line of every column label's block is drawn |
| Grid.ColumnLabelDrawsOnly | pillow_grid/grid.py:189-212 | nothing else is drawn: every column-label draw belongs to the block of one label, in that label's column |
| Grid.ColumnLabelDrawsWithin | pillow_grid/grid.py:198-212 | column-label text is aligned in its label's column and stays inside a band `max_lines` lines high |
| Grid.RowLabelFor | pillow_grid/grid.py:218-253 | definition: the block, its drawn lines and the paste position of the label of row `i` |
| Grid.RowLabelsOf | pillow_grid/grid.py:214-253 | definition: one row label per label with a row that wrapped into at least one line, in row order |
| Grid.RowLabelsOfCover | pillow_grid/grid.py:226-253 | every label with a row that wrapped into at least one line is pasted |
| Grid.RowLabelsOfOnly | pillow_grid/grid.py:226-253 | every pasted row label is the one of a label that wrapped into at least one line |
| Grid.RowLabelsOfWithin | pillow_grid/grid.py:218-253 | each row label's block is a cell high and `max_lines` lines thick, it is pasted at its row's clamped position, and its lines are aligned and inside the block |
| Grid.PlaceColumnLabel | pillow_grid/grid.py:191-212 | one label is wrapped (a `Wrapping` of it) and its lines are drawn as the block of its column |
| Grid.PlaceRowLabel | pillow_grid/grid.py:216-253 | one label is wrapped (a `Wrapping` of it) and, when any lines result, becomes the row label of its row |
| Grid.IsLayout | pillow_grid/grid.py:129-253 | definition: the whole layout of a configuration, given the wrapped lines of its labels |
| Grid.LaidOut | pillow_grid/grid.py:167-253 | definition: the placement part of `IsLayout`: canvas size, every cell, and the column and row labels drawn from the wrapped lines |
| Grid.LayoutWithinCanvas | pillow_grid/grid.py:181-253 | for an accepted configuration with non-negative sizes and wraps of at most `max_lines` lines each, one per label at most: no image is clipped, column labels stay in the top band, and row labels are pasted at the left edge at the top of their rows and end inside the canvas |
| Grid.PlaceColumnLabels | pillow_grid/grid.py:189-212 | each label with a column is wrapped (a `Wrapping` of it), and the draws are exactly `ColumnLabelDraws` of those wraps; every drawn line is aligned in the column of a label that has a column, and lies inside the top band |
| Grid.PlaceRowLabels | pillow_grid/grid.py:214-253 | each label with a row is wrapped (a `Wrapping` of it), and the row labels are exactly `RowLabelsOf` those wraps; every row label is drawn on a cell-high block `max_lines` lines thick, with lines aligned and inside the block, and is pasted at its row's clamped position, never left of the canvas nor into the top band |
| Grid.ResizeDividesByZero | pillow_grid/grid.py:105-106 | definition: some image's height or the target height, each a divisor in `_resize_images`, is 0 |
| Grid.HasZeroHeight | pillow_grid/grid.py:105 | definition: some image has height 0 |
| Grid.ResizeDividesByZeroIff | pillow_grid/grid.py:95-97 | (with lines 105-106) resizing to the uniform size divides by zero exactly when some image has height 0, since the uniform height is one of the image heights |
| Grid.ResizeImages | pillow_grid/grid.py:100-127 | the loop fails with `ResizeFailed` exactly when it divides by zero; otherwise every image becomes one of the target size, one per image |
| Grid.CreateGrid | pillow_grid/grid.py:129-253 | fails with `ResizeFailed` exactly when some image has height 0; otherwise the layout is exactly `IsLayout` for the wraps it returns: no images give the blank 100 by 100 canvas; otherwise the canvas is the computed size, image `i` is at its row-major cell inside the canvas, column-label text stays in the top band, and each row label is pasted at the left edge at its row's top and ends inside the canvas |
| Grid.NewGrid | pillow_grid/grid.py:29-89 | construction fails exactly when validation fails or some image has height 0. A rejected configuration gives the first failing check, and an accepted one fails only in `_resize_images`. Otherwise the grid of `IsLayout` is built |
| Grid.MakeGrid | pillow_grid/grid.py:571-582 | `grid()` fails on the shape only where the shape divides by zero, otherwise exactly when the derived configuration is rejected (with its first failing check) or some image has height 0, and otherwise builds the grid of `IsLayout` for the derived shape; with neither count given it never fails on the shape |
| Cli.ParseLabels | pillow_grid/cli.py:14-18 | `None` exactly for a missing or empty string; otherwise one label per comma-separated field, in order, each the stripped field, with no comma and no whitespace at either end |
| Cli.ParseLabelsOfJoin | pillow_grid/cli.py:14-18 | comma-free labels without whitespace at their ends survive joining with commas and parsing back |

## Left out

- Font loading and its fallbacks (grid.py:388-448). This is filesystem and library I/O. The font enters the model only through the measure `m` and the line height.
- Pixel work is not modelled. That covers `Image.new`, `paste`, `rotate`, `draw.text`, and the image and drawing calls of `_resize_images` and `_create_grid` (grid.py:117-123 and 173-256). It also covers `save`/`show`/`copy`/`resize` (grid.py:450-497). The model records only the positions and sizes these calls receive.
- The `size`/`width`/`height`/`mode` accessors (grid.py:499-520) read the PIL image. The canvas size they report is `Layout.canvas`.
- `_resize_images` (grid.py:100-127) works with float aspect ratios and LANCZOS resampling. The model keeps only its division by a zero height (`Grid.ResizeImages`). Every image is taken to fill its cell of the uniform size, which is what the paste positions use.
- `_create_grid` computes the line height as `int(font_height * 1.05)` (grid.py:152), in floating point. It is a parameter here.
- `draw.textlength` returns fractional widths. The measure gives whole pixels, so comparisons against a fractional width are not modelled.
- `Shape.ISqrt`: the source's `int(n ** 0.5)` is a floating-point square root truncated to an integer. The model uses the exact integer square root. The two agree except for rounding of very large counts.
- The path-or-image dispatch in `grid()` (grid.py:557-568) opens files. Its `FileNotFoundError` and `TypeError` are I/O at the boundary, and images are given by their sizes.
- PIL's error for a negative canvas or block size is not modelled. That error can arise from zero or negative counts, spacing or line counts. `Grid.CreateGrid` states its placement properties under `WellSized`. That predicate asks for at least one row, one column and one line per label band, and for non-negative spacing, line height and image dimensions. It is stricter than what PIL accepts: PIL also builds a canvas for, e.g., `x_labels_max_lines = 0`, or for a negative spacing that still leaves the canvas non-negative.
- `Grid.PlaceColumnLabels` and `Grid.PlaceRowLabels` do not restate the wrapper's width guarantees for each drawn line. Those guarantees are in `Wrap.WrapTextToLines` and `Wrap.WrapTraceFits`, and they reach each label through `Wrap.Wrapping`.
- `Grid.MakeGrid` uses the corrected `Shape.AutoShapeFixed`, so it does not reproduce the division by zero for an empty image list (see Findings).
- `cli.main` (cli.py:21-252) is argument parsing, printing and process exit. It also passes keyword arguments that `Grid.__init__` does not accept. Only `parse_labels` is modelled.
- `example.py` and `setup.py` are a demo script and packaging metadata.
- Colours, font size and font path do not affect the layout and are not part of `Config.GridConfig`.

## Findings

| source | as written | input that shows it | evidently intended | confidence | as-written member | corrected member |
|---|---|---|---|---|---|---|
| pillow_grid/grid.py:573-575 | with neither `rows` nor `cols` given, `cols = int(n_images ** 0.5)` is 0 for no images, and `(n_images + cols - 1) // cols` divides by zero | `grid([])` | an empty image list yields the blank 100 by 100 grid that `Grid` builds for no images (grid.py:131-133), e.g. with at least one column | medium, not executed | Shape.AutoShapeEmptyFails | Shape.AutoShapeFixed |
