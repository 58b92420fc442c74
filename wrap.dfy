/** The label line wrapper, `Grid._wrap_text_to_lines` with its nested helper
    `fit_text_in_width` (pillow_grid/grid.py:258-365): a label is wrapped into
    at most `maxLines` lines of at most `maxWidth` pixels, word by word, falling
    back to cutting a word that is too wide on its own, and the last permitted
    line is cut short with an ellipsis. */
module Wrap {
  import opened Text
  import opened Measure
  import opened Arith

  /** The marker appended to a truncated last line. */
  const Ellipsis: string := "..."

  // ---------------------------------------------------------------------------
  // Specification predicates

  /** `r` is `text[..k] + suffix` where `text[..k]` is a proper prefix of `text`
      (or `text` is empty), `text[..k]` fits `budget` unless it is empty, and,
      when the measure is monotone, no longer prefix of `text` fits `budget`. */
  ghost predicate IsCut(text: string, r: string, budget: int, suffix: string, m: Measure) {
    |suffix| <= |r| &&
    var k := |r| - |suffix|;
    k <= |text| && (text != [] ==> k < |text|) &&
    r == text[..k] + suffix &&
    (k > 0 ==> m(text[..k]) <= budget) &&
    (Monotone(m) ==> forall j :: k < j <= |text| ==> m(text[..j]) > budget)
  }

  /** A line made of whole words: the first `u` words of `ws` joined by single
      spaces, where every shorter such join fits too, the next word would
      overflow, and the text left over is the join of the unused words. */
  ghost predicate WordLineStep(ws: seq<string>, line: string, rest: string, maxWidth: int, m: Measure) {
    var u := |Words(line)|;
    0 < u <= |ws| &&
    line == JoinWords(ws[..u]) && rest == JoinWords(ws[u..]) &&
    (forall j :: 0 < j <= u ==> m(JoinWords(ws[..j])) <= maxWidth) &&
    (u < |ws| ==> m(JoinWords(ws[..u + 1])) > maxWidth)
  }

  /** A line cut from a first word that does not fit on its own: a non-empty
      prefix of that word, proper unless the width is not positive (then it is
      one character), the widest that fits when the measure is monotone; the
      rest of the word leads the text left over. */
  ghost predicate CharLineStep(ws: seq<string>, line: string, rest: string, maxWidth: int, m: Measure) {
    0 < |ws| && m(ws[0]) > maxWidth &&
    0 < |line| <= |ws[0]| && line == ws[0][..|line|] &&
    rest == (if |ws| > 1 then ws[0][|line|..] + " " + JoinWords(ws[1..]) else ws[0][|line|..]) &&
    if maxWidth <= 0 then |line| == 1
    else |line| < |ws[0]| && m(line) <= maxWidth &&
         (Monotone(m) ==> m(ws[0][..|line| + 1]) > maxWidth)
  }

  /** One line before the last permitted one, taken from `remaining`, leaving `rest`. */
  ghost predicate LineStep(remaining: string, line: string, rest: string, maxWidth: int, m: Measure) {
    var ws := Words(remaining);
    WordLineStep(ws, line, rest, maxWidth, m) || CharLineStep(ws, line, rest, maxWidth, m)
  }

  /** The first word does not fit, and not even its first character does
      (when the measure is monotone). */
  ghost predicate NothingFits(ws: seq<string>, maxWidth: int, m: Measure) {
    0 < |ws| && 0 < |ws[0]| && 0 < maxWidth < m(ws[0]) &&
    (Monotone(m) ==> m(ws[0][..1]) > maxWidth)
  }

  /** The last permitted line: the remaining text whole if it fits, otherwise
      its widest prefix that leaves room for the ellipsis, with the ellipsis. */
  ghost predicate LastLine(remaining: string, line: string, maxWidth: int, m: Measure) {
    if m(remaining) <= maxWidth then line == remaining
    else m(Ellipsis) < maxWidth && IsCut(remaining, line, maxWidth - m(Ellipsis), Ellipsis, m)
  }

  /** Why wrapping stopped with `remaining` left before the line budget was
      used up: nothing but whitespace is left, or nothing can be placed. */
  ghost predicate Stopped(remaining: string, atLast: bool, maxWidth: int, m: Measure) {
    AllSpace(remaining) ||
    if atLast then maxWidth < m(remaining) && maxWidth <= m(Ellipsis)
    else NothingFits(Words(remaining), maxWidth, m)
  }

  /** The whole run: `rests[i]` is the remaining text when line `i` is made,
      and `rests[|lines|]` the remaining text when wrapping ends. Every line is
      non-empty; the lines before the last permitted one are steps, the last
      permitted one is the truncated last line of text that still holds a
      non-space, and a run that ends early ends for a reason. */
  ghost predicate WrapTrace(text: string, lines: seq<string>, rests: seq<string>,
                            maxWidth: int, maxLines: int, m: Measure) {
    |rests| == |lines| + 1 && rests[0] == text &&
    (forall i :: 0 <= i < |lines| ==> lines[i] != "") &&
    (forall i :: 0 <= i < |lines| && i < maxLines - 1 ==>
       LineStep(rests[i], lines[i], rests[i + 1], maxWidth, m)) &&
    (0 < |lines| == maxLines ==> LastLine(rests[|lines| - 1], lines[|lines| - 1], maxWidth, m)) &&
    (0 < |lines| == maxLines ==> !AllSpace(rests[|lines| - 1])) &&
    (|lines| < maxLines ==> Stopped(rests[|lines|], |lines| == maxLines - 1, maxWidth, m))
  }

  /** What wrapping `text` into `lines` promises, whatever the remaining texts
      were: nothing for the empty text, whitespace-only text as its single
      line, and otherwise a run of the wrapper, never longer than `maxLines`
      lines, each of them non-empty. */
  ghost predicate Wrapping(text: string, lines: seq<string>, maxWidth: int, maxLines: int, m: Measure) {
    (text == "" ==> lines == []) &&
    (text != "" && AllSpace(text) ==> lines == [text]) &&
    (!AllSpace(text) ==> exists rests :: WrapTrace(text, lines, rests, maxWidth, maxLines, m)) &&
    (maxLines >= 1 ==> |lines| <= maxLines) &&
    (maxLines <= 0 && !AllSpace(text) ==> lines == []) &&
    (forall i :: 0 <= i < |lines| ==> lines[i] != "")
  }

  /** A run of the wrapper, with its remaining texts, is a wrapping. */
  lemma WrappingOfTrace(text: string, lines: seq<string>, rests: seq<string>,
                        maxWidth: int, maxLines: int, m: Measure)
    requires text == "" ==> lines == []
    requires text != "" && AllSpace(text) ==> lines == [text]
    requires !AllSpace(text) ==> WrapTrace(text, lines, rests, maxWidth, maxLines, m)
    requires maxLines >= 1 ==> |lines| <= maxLines
    requires maxLines <= 0 && !AllSpace(text) ==> lines == []
    requires forall i :: 0 <= i < |lines| ==> lines[i] != ""
    ensures Wrapping(text, lines, maxWidth, maxLines, m)
  {
    if !AllSpace(text) {
      assert WrapTrace(text, lines, rests, maxWidth, maxLines, m);
    }
  }

  /** A run so far: every line made is a non-empty step. */
  ghost predicate Progress(text: string, lines: seq<string>, rests: seq<string>, maxWidth: int, m: Measure) {
    |rests| == |lines| + 1 && rests[0] == text &&
    forall i :: 0 <= i < |lines| ==>
      lines[i] != "" && LineStep(rests[i], lines[i], rests[i + 1], maxWidth, m)
  }

  lemma ProgressStep(text: string, lines: seq<string>, rests: seq<string>, line: string, rest: string,
                     maxWidth: int, m: Measure)
    requires Progress(text, lines, rests, maxWidth, m)
    requires LineStep(rests[|lines|], line, rest, maxWidth, m)
    ensures Progress(text, lines + [line], rests + [rest], maxWidth, m)
  {
    LineStepFits(rests[|lines|], line, rest, maxWidth, m);
  }

  lemma FinishStopped(text: string, lines: seq<string>, rests: seq<string>, maxWidth: int, maxLines: int, m: Measure)
    requires Progress(text, lines, rests, maxWidth, m)
    requires |lines| < maxLines
    requires Stopped(rests[|lines|], |lines| == maxLines - 1, maxWidth, m)
    ensures WrapTrace(text, lines, rests, maxWidth, maxLines, m)
  {
  }

  lemma FinishLast(text: string, lines: seq<string>, rests: seq<string>, line: string,
                   maxWidth: int, maxLines: int, m: Measure)
    requires Progress(text, lines, rests, maxWidth, m)
    requires |lines| == maxLines - 1
    requires line != "" && LastLine(rests[|lines|], line, maxWidth, m)
    requires !AllSpace(rests[|lines|])
    ensures WrapTrace(text, lines + [line], rests + [rests[|lines|]], maxWidth, maxLines, m)
  {
  }

  // ---------------------------------------------------------------------------
  // fit_text_in_width

  /** The binary search of `fit_text_in_width`: the longest prefix length whose
      width is within `budget`; it is maximal whenever the measure is monotone. */
  method WidestFittingPrefix(text: string, budget: int, m: Measure) returns (k: nat)
    ensures k <= |text|
    ensures k > 0 ==> m(text[..k]) <= budget
    ensures Monotone(m) ==> forall j :: k < j <= |text| ==> m(text[..j]) > budget
  {
    var left, right := 0, |text|;
    k := 0;
    while left <= right
      invariant 0 <= left <= right + 1 <= |text| + 1
      invariant left == 0 ==> k == 0
      invariant left > 0 ==> k == left - 1 && m(text[..k]) <= budget
      invariant Monotone(m) ==> forall j :: right < j <= |text| ==> m(text[..j]) > budget
      decreases right - left
    {
      var mid := (left + right) / 2;
      if m(text[..mid]) <= budget {
        k := mid;
        left := mid + 1;
      } else {
        TooWideFrom(m, text, mid, budget);
        right := mid - 1;
      }
    }
  }

  /** `fit_text_in_width(text, available, addEllipsis)`. */
  method FitTextInWidth(text: string, available: int, addEllipsis: bool, m: Measure) returns (r: string)
    ensures m(text) <= available ==> r == text
    ensures m(text) > available && addEllipsis && m(Ellipsis) >= available ==> r == ""
    ensures m(text) > available && addEllipsis && m(Ellipsis) < available ==>
      IsCut(text, r, available - m(Ellipsis), Ellipsis, m)
    ensures m(text) > available && !addEllipsis && available <= 0 ==> r == text[..Min(1, |text|)]
    ensures m(text) > available && !addEllipsis && available > 0 ==> IsCut(text, r, available, "", m)
  {
    if m(text) <= available {
      return text;
    }
    var ellipsis := if addEllipsis then Ellipsis else "";
    var ellipsisWidth := if addEllipsis then m(Ellipsis) else 0;
    if ellipsisWidth >= available {
      return if addEllipsis then "" else text[..Min(1, |text|)];
    }
    var k := WidestFittingPrefix(text, available - ellipsisWidth, m);
    assert k == |text| ==> text[..k] == text;
    r := text[..k] + ellipsis;
    assert |r| - |ellipsis| == k;
  }

  // ---------------------------------------------------------------------------
  // One line before the last

  /** Joining one more word adds a space, unless nothing was joined yet, and
      the word. */
  lemma JoinWordsStep(words: seq<string>, i: int)
    requires AllWords(words) && 0 <= i < |words|
    ensures JoinWords(words[..i + 1]) ==
      JoinWords(words[..i]) + (if JoinWords(words[..i]) != "" then " " else "") + words[i]
  {
    assert words[..i + 1] == words[..i] + [words[i]];
    JoinOnSnoc(words[..i], words[i], ' ');
    JoinWordsEmpty(words[..i]);
  }

  /** The word loop (grid.py:337-347): joins words while the joined line fits. */
  method GreedyWordLine(words: seq<string>, maxWidth: int, m: Measure) returns (line: string, used: nat)
    requires AllWords(words)
    ensures used <= |words| && line == JoinWords(words[..used])
    ensures forall j :: 0 < j <= used ==> m(JoinWords(words[..j])) <= maxWidth
    ensures used < |words| ==> m(JoinWords(words[..used + 1])) > maxWidth
  {
    line, used := "", 0;
    var i := 0;
    while i < |words|
      invariant used == i <= |words|
      invariant line == JoinWords(words[..i])
      invariant forall j :: 0 < j <= i ==> m(JoinWords(words[..j])) <= maxWidth
    {
      var testLine := line + (if line != "" then " " else "") + words[i];
      JoinWordsStep(words, i);
      if m(testLine) <= maxWidth {
        line, used := testLine, i + 1;
      } else {
        break;
      }
      i := i + 1;
    }
  }

  /** One line that is not the last permitted one (grid.py:331-363): whole
      words if at least one fits, otherwise a cut of the first word. An empty
      `line` means that the loop of the caller stops. */
  method WrapOneLine(remaining: string, maxWidth: int, m: Measure) returns (line: string, rest: string)
    ensures line != "" ==> LineStep(remaining, line, rest, maxWidth, m)
    ensures line == "" ==> rest == remaining
    ensures line == "" ==> AllSpace(remaining) || NothingFits(Words(remaining), maxWidth, m)
  {
    var words := Words(remaining);
    if words == [] {
      NoWordsIff(remaining);
      return "", remaining;
    }
    var current, used := GreedyWordLine(words, maxWidth, m);
    if used == 0 {
      var firstWord := words[0];
      assert words[..1] == [firstWord];
      var fitted := FitTextInWidth(firstWord, maxWidth, false, m);
      if fitted != "" {
        var restOfWord := firstWord[|fitted|..];
        line := fitted;
        rest := if |words| > 1 then restOfWord + " " + JoinWords(words[1..]) else restOfWord;
        assert m(firstWord) > maxWidth;
        assert 0 < |line| <= |firstWord|;
        assert line == firstWord[..|line|];
        assert maxWidth <= 0 ==> |line| == 1;
        assert maxWidth > 0 ==> |line| < |firstWord| && m(line) <= maxWidth;
        assert maxWidth > 0 ==> (Monotone(m) ==> m(firstWord[..|line| + 1]) > maxWidth);
        assert CharLineStep(words, line, rest, maxWidth, m);
      } else {
        line, rest := "", remaining;
      }
    } else {
      line := current;
      rest := JoinWords(words[used..]);
      assert AllWords(words[..used]);
      WordsOfJoin(words[..used]);
      assert WordLineStep(words, line, rest, maxWidth, m);
    }
  }

  /** A line made by a step is non-empty and fits the width, except for the
      single character emitted when the width is not positive. */
  lemma LineStepFits(remaining: string, line: string, rest: string, maxWidth: int, m: Measure)
    requires LineStep(remaining, line, rest, maxWidth, m)
    ensures line != ""
    ensures m(line) <= maxWidth || (maxWidth <= 0 && |line| == 1)
  {
  }

  /** A word line loses no words: the line and the text left over re-split
      into exactly the words the line was made from, in order. */
  lemma WordStepConserves(ws: seq<string>, line: string, rest: string, maxWidth: int, m: Measure)
    requires AllWords(ws) && WordLineStep(ws, line, rest, maxWidth, m)
    ensures ws == Words(line) + Words(rest)
  {
    var u := |Words(line)|;
    assert AllWords(ws[..u]) && AllWords(ws[u..]);
    WordsOfJoin(ws[..u]);
    WordsOfJoin(ws[u..]);
    assert ws == ws[..u] + ws[u..];
  }

  /** A cut line loses no characters: the line followed by the text left over
      spells out the words joined by single spaces. */
  lemma CharStepConserves(ws: seq<string>, line: string, rest: string, maxWidth: int, m: Measure)
    requires CharLineStep(ws, line, rest, maxWidth, m)
    ensures JoinWords(ws) == line + rest
  {
    var tail := ws[0][|line|..];
    assert ws[0] == line + tail;
    if |ws| > 1 {
      assert JoinWords(ws) == ws[0] + [' '] + JoinWords(ws[1..]);
    }
  }

  /** The last permitted line (grid.py:319-329): the remaining text whole if
      it fits, else its ellipsis truncation. An empty result is not emitted. */
  method WrapLastLine(remaining: string, maxWidth: int, m: Measure) returns (line: string)
    ensures line != "" ==> LastLine(remaining, line, maxWidth, m)
    ensures line == "" ==> remaining == "" || (maxWidth < m(remaining) && maxWidth <= m(Ellipsis))
  {
    if m(remaining) <= maxWidth {
      line := remaining;
    } else {
      line := FitTextInWidth(remaining, maxWidth, true, m);
    }
  }

  // ---------------------------------------------------------------------------
  // _wrap_text_to_lines

  /** `_wrap_text_to_lines(text, font, maxWidth, maxLines, draw)` with the
      measurement of `draw`/`font` passed as `m`. The ghost `rests` records the
      remaining text line by line. */
  method WrapTextToLines(text: string, maxWidth: int, maxLines: int, m: Measure)
    returns (lines: seq<string>, ghost rests: seq<string>)
    ensures text == "" ==> lines == []
    ensures text != "" && AllSpace(text) ==> lines == [text]
    ensures !AllSpace(text) ==> WrapTrace(text, lines, rests, maxWidth, maxLines, m)
    ensures maxLines >= 1 ==> |lines| <= maxLines
    ensures maxLines <= 0 && !AllSpace(text) ==> lines == []
    ensures forall i :: 0 <= i < |lines| ==> lines[i] != ""
    ensures Wrapping(text, lines, maxWidth, maxLines, m)
  {
    StripEmptyIff(text);
    if Strip(text) == "" {
      lines := if text != "" then [text] else [];
      rests := [text];
      WrappingOfTrace(text, lines, rests, maxWidth, maxLines, m);
      return;
    }
    lines := [];
    rests := [text];
    var remaining := text;
    var lineNum := 0;
    while lineNum < maxLines
      invariant lineNum == |lines| && (lineNum == 0 || lineNum < maxLines)
      invariant Progress(text, lines, rests, maxWidth, m) && rests[lineNum] == remaining
    {
      StripEmptyIff(remaining);
      if Strip(remaining) == "" {
        FinishStopped(text, lines, rests, maxWidth, maxLines, m);
        break;
      }
      if lineNum == maxLines - 1 {
        var line := WrapLastLine(remaining, maxWidth, m);
        if line != "" {
          FinishLast(text, lines, rests, line, maxWidth, maxLines, m);
          lines := lines + [line];
          rests := rests + [remaining];
        } else {
          FinishStopped(text, lines, rests, maxWidth, maxLines, m);
        }
        break;
      }
      var line, rest := WrapOneLine(remaining, maxWidth, m);
      if line == "" {
        FinishStopped(text, lines, rests, maxWidth, maxLines, m);
        break;
      }
      ProgressStep(text, lines, rests, line, rest, maxWidth, m);
      lines := lines + [line];
      rests := rests + [rest];
      remaining := rest;
      lineNum := lineNum + 1;
    }
    WrappingOfTrace(text, lines, rests, maxWidth, maxLines, m);
  }

  /** Every line of a run fits the width, except the single character emitted
      when the width is not positive and the truncated last permitted line,
      whose prefix leaves room for the ellipsis. */
  lemma WrapTraceFits(text: string, lines: seq<string>, rests: seq<string>, maxWidth: int, maxLines: int, m: Measure)
    requires WrapTrace(text, lines, rests, maxWidth, maxLines, m)
    ensures forall i :: 0 <= i < |lines| && i < maxLines - 1 ==>
      m(lines[i]) <= maxWidth || (maxWidth <= 0 && |lines[i]| == 1)
    ensures 0 < |lines| == maxLines ==>
      var last := lines[|lines| - 1];
      m(last) <= maxWidth ||
      (|last| >= |Ellipsis| && last[|last| - |Ellipsis|..] == Ellipsis && m(Ellipsis) < maxWidth &&
       (|last| > |Ellipsis| ==> m(last[..|last| - |Ellipsis|]) + m(Ellipsis) <= maxWidth))
  {
    forall i | 0 <= i < |lines| && i < maxLines - 1
      ensures m(lines[i]) <= maxWidth || (maxWidth <= 0 && |lines[i]| == 1)
    {
      LineStepFits(rests[i], lines[i], rests[i + 1], maxWidth, m);
    }
  }
}
