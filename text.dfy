/** The Python string built-ins the label code relies on: `str.isspace`,
    `str.strip()`, `str.split()` with no argument, `str.split(sep)` and
    `sep.join(...)`, modelled on `string` (a sequence of Unicode characters). */
module Text {

  /** Python's whitespace characters: those for which `str.isspace` holds and
      that `str.strip()` and `str.split()` treat as separators. */
  predicate IsSpace(c: char) {
    var n := c as int;
    (0x09 <= n <= 0x0D) || (0x1C <= n <= 0x20) || n == 0x85 || n == 0xA0 || n == 0x1680
    || (0x2000 <= n <= 0x200A) || n == 0x2028 || n == 0x2029 || n == 0x202F || n == 0x205F
    || n == 0x3000
  }

  predicate AllSpace(s: string) {
    forall i :: 0 <= i < |s| ==> IsSpace(s[i])
  }

  predicate NoSpace(s: string) {
    forall i :: 0 <= i < |s| ==> !IsSpace(s[i])
  }

  /** A word as `str.split()` yields it: non-empty and free of whitespace. */
  predicate IsWord(w: string) {
    |w| > 0 && NoSpace(w)
  }

  predicate AllWords(ws: seq<string>) {
    forall i :: 0 <= i < |ws| ==> IsWord(ws[i])
  }

  // ---------------------------------------------------------------------------
  // str.strip()

  /** Number of whitespace characters `s.lstrip()` drops from the front. */
  function LeadingSpaces(s: string): (n: nat)
    ensures n <= |s| && (n < |s| ==> !IsSpace(s[n]))
    ensures forall i :: 0 <= i < n ==> IsSpace(s[i])
  {
    if s == [] || !IsSpace(s[0]) then 0
    else
      var n := 1 + LeadingSpaces(s[1..]);
      assert forall i :: 1 <= i < |s| ==> s[i] == s[1..][i - 1];
      n
  }

  /** Where the whitespace `s.rstrip()` drops from the back begins. */
  function TrailingStart(s: string): (n: nat)
    ensures n <= |s| && (0 < n ==> !IsSpace(s[n - 1]))
    ensures forall i :: n <= i < |s| ==> IsSpace(s[i])
  {
    if s == [] || !IsSpace(s[|s| - 1]) then |s| else TrailingStart(s[..|s| - 1])
  }

  /** A string with no whitespace at either end, as `strip()` returns it. */
  predicate Trimmed(s: string) {
    s == [] || (!IsSpace(s[0]) && !IsSpace(s[|s| - 1]))
  }

  /** `s.strip()`: whitespace removed at both ends. */
  function Strip(s: string): (r: string)
    ensures |r| <= |s| && Trimmed(r)
  {
    var t := s[LeadingSpaces(s)..];
    t[..TrailingStart(t)]
  }

  /** What `strip()` keeps is the infix of `s` after its leading whitespace. */
  lemma StripInfix(s: string)
    ensures var k := LeadingSpaces(s); var r := Strip(s);
      k + |r| <= |s| && r == s[k..k + |r|]
  {
    var k := LeadingSpaces(s);
    var t := s[k..];
    assert Strip(s) == t[..TrailingStart(t)];
  }

  /** What `strip()` drops on either side of what it keeps is whitespace. */
  lemma StripDropsSpace(s: string)
    ensures var k := LeadingSpaces(s); var r := Strip(s);
      k + |r| <= |s| &&
      (forall i :: 0 <= i < k ==> IsSpace(s[i])) &&
      (forall i :: k + |r| <= i < |s| ==> IsSpace(s[i]))
  {
    var k := LeadingSpaces(s);
    var t := s[k..];
    var b := TrailingStart(t);
    assert |Strip(s)| == b;
    forall i | k + b <= i < |s| ensures IsSpace(s[i]) {
      assert s[i] == t[i - k];
    }
  }

  /** `not s.strip()` holds exactly of the strings made of whitespace only. */
  lemma StripEmptyIff(s: string)
    ensures Strip(s) == [] <==> AllSpace(s)
  {
    StripDropsSpace(s);
  }

  /** Stripping a string with no whitespace at either end leaves it as it is. */
  lemma StripStripped(s: string)
    requires Trimmed(s)
    ensures Strip(s) == s
  {
  }

  // ---------------------------------------------------------------------------
  // str.split() and " ".join

  /** Length of the run of non-whitespace characters at the start of `s`. */
  function WordLength(s: string): (n: nat)
    ensures n <= |s| && NoSpace(s[..n]) && (n == |s| || IsSpace(s[n]))
  {
    if s == [] || IsSpace(s[0]) then 0
    else
      var n := 1 + WordLength(s[1..]);
      assert s[..n] == [s[0]] + s[1..][..n - 1];
      n
  }

  /** `s.split()`: the maximal runs of non-whitespace characters, in order. */
  function Words(s: string): (ws: seq<string>)
    ensures AllWords(ws)
    decreases |s|
  {
    if s == [] then []
    else if IsSpace(s[0]) then Words(s[1..])
    else
      var n := WordLength(s);
      [s[..n]] + Words(s[n..])
  }

  /** `sep.join(fields)`. */
  function JoinOn(fields: seq<string>, sep: char): string {
    if |fields| == 0 then ""
    else if |fields| == 1 then fields[0]
    else fields[0] + [sep] + JoinOn(fields[1..], sep)
  }

  /** `" ".join(ws)`: words separated by single spaces. */
  function JoinWords(ws: seq<string>): string {
    JoinOn(ws, ' ')
  }

  /** Appending one field extends the join by a separator and that field. */
  lemma {:induction false} JoinOnSnoc(fields: seq<string>, f: string, sep: char)
    ensures JoinOn(fields + [f], sep) == if fields == [] then f else JoinOn(fields, sep) + [sep] + f
  {
    if |fields| > 1 {
      assert (fields + [f])[1..] == fields[1..] + [f];
      JoinOnSnoc(fields[1..], f, sep);
    } else if |fields| == 1 {
      assert (fields + [f])[1..] == [f];
    }
  }

  /** A space-join of words is empty only when there are no words. */
  lemma {:induction false} JoinWordsEmpty(ws: seq<string>)
    requires AllWords(ws)
    ensures JoinWords(ws) == [] <==> ws == []
    ensures ws != [] ==> JoinWords(ws)[0] == ws[0][0]
  {
    if |ws| > 1 {
      assert JoinWords(ws) == ws[0] + ([' '] + JoinWords(ws[1..]));
    }
  }

  lemma {:induction false} WordLengthOfWord(w: string, t: string)
    requires IsWord(w) && (t == [] || IsSpace(t[0]))
    ensures WordLength(w + t) == |w|
    decreases |w|
  {
    assert (w + t)[1..] == w[1..] + t;
    if |w| > 1 {
      WordLengthOfWord(w[1..], t);
    } else {
      assert w[1..] + t == t;
    }
  }

  /** A word followed by whitespace (or nothing) splits off as the first word. */
  lemma WordsOfWordThen(w: string, t: string)
    requires IsWord(w) && (t == [] || IsSpace(t[0]))
    ensures Words(w + t) == [w] + Words(t)
  {
    WordLengthOfWord(w, t);
    assert (w + t)[..|w|] == w && (w + t)[|w|..] == t;
  }

  /** Splitting a space-join of words gives back the words: the text left for
      the next line re-splits into exactly the words not yet used. */
  lemma {:induction false} WordsOfJoin(ws: seq<string>)
    requires AllWords(ws)
    ensures Words(JoinWords(ws)) == ws
  {
    if |ws| == 1 {
      WordsOfWordThen(ws[0], "");
      assert ws[0] + "" == ws[0];
    } else if |ws| > 1 {
      var rest := JoinWords(ws[1..]);
      assert JoinWords(ws) == ws[0] + ([' '] + rest);
      WordsOfWordThen(ws[0], [' '] + rest);
      assert ([' '] + rest)[1..] == rest;
      WordsOfJoin(ws[1..]);
    }
  }

  /** `not s.split()` holds exactly of the strings made of whitespace only. */
  lemma {:induction false} NoWordsIff(s: string)
    ensures Words(s) == [] <==> AllSpace(s)
    decreases |s|
  {
    if s != [] {
      if IsSpace(s[0]) {
        NoWordsIff(s[1..]);
        assert AllSpace(s) <==> AllSpace(s[1..]) by {
          if AllSpace(s[1..]) {
            forall i | 0 <= i < |s| ensures IsSpace(s[i]) { if i > 0 { assert s[i] == s[1..][i - 1]; } }
          }
        }
      }
    }
  }

  // ---------------------------------------------------------------------------
  // str.split(sep)

  function Count(s: string, c: char): nat {
    if s == [] then 0 else (if s[0] == c then 1 else 0) + Count(s[1..], c)
  }

  /** `s.split(sep)`: one field per separator plus one, none holding `sep`. */
  function SplitOn(s: string, sep: char): (fields: seq<string>)
    ensures |fields| == Count(s, sep) + 1
    ensures forall i :: 0 <= i < |fields| ==> sep !in fields[i]
  {
    if s == [] then [""]
    else
      var rest := SplitOn(s[1..], sep);
      if s[0] == sep then [""] + rest else [[s[0]] + rest[0]] + rest[1..]
  }

  /** Joining the fields with the separator gives back the string. */
  lemma {:induction false} JoinOfSplit(s: string, sep: char)
    ensures JoinOn(SplitOn(s, sep), sep) == s
  {
    if s != [] {
      var rest := SplitOn(s[1..], sep);
      JoinOfSplit(s[1..], sep);
      if s[0] == sep {
        assert ([""] + rest)[1..] == rest;
      } else if |rest| == 1 {
        assert [[s[0]] + rest[0]] + rest[1..] == [[s[0]] + rest[0]];
      } else {
        var f := [[s[0]] + rest[0]] + rest[1..];
        assert f[1..] == rest[1..];
        assert JoinOn(rest, sep) == rest[0] + [sep] + JoinOn(rest[1..], sep);
        assert s == [s[0]] + s[1..];
      }
    }
  }

  lemma {:induction false} SplitOnPrefix(f: string, t: string, sep: char)
    requires sep !in f
    ensures SplitOn(f + t, sep) == [f + SplitOn(t, sep)[0]] + SplitOn(t, sep)[1..]
    decreases |f|
  {
    if f != [] {
      assert (f + t)[1..] == f[1..] + t;
      SplitOnPrefix(f[1..], t, sep);
      assert [f[0]] + (f[1..] + SplitOn(t, sep)[0]) == f + SplitOn(t, sep)[0];
    } else {
      var st := SplitOn(t, sep);
      assert f + t == t && f + st[0] == st[0];
      assert st == [st[0]] + st[1..];
    }
  }

  /** Splitting a join of separator-free fields gives back the fields. */
  lemma {:induction false} SplitOfJoin(fields: seq<string>, sep: char)
    requires |fields| > 0
    requires forall i :: 0 <= i < |fields| ==> sep !in fields[i]
    ensures SplitOn(JoinOn(fields, sep), sep) == fields
  {
    if |fields| == 1 {
      SplitOnPrefix(fields[0], "", sep);
      assert fields[0] + "" == fields[0];
    } else {
      var j := JoinOn(fields[1..], sep);
      SplitOfJoin(fields[1..], sep);
      assert ([sep] + j)[1..] == j;
      assert SplitOn([sep] + j, sep) == [""] + fields[1..];
      assert JoinOn(fields, sep) == fields[0] + ([sep] + j);
      SplitOnPrefix(fields[0], [sep] + j, sep);
      assert fields[0] + "" == fields[0];
    }
  }
}
