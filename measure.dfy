/** The text-measurement capability the label code receives from the drawing
    library (`ImageDraw.textlength` with the label font). */
module Measure {

  /** Rendered width, in pixels, of a string drawn in the label font. */
  type Measure = string -> nat

  /** The one assumption made about a measure: a prefix of a string is never
      wider than the string itself. */
  ghost predicate Monotone(m: Measure) {
    forall s: string, k: nat :: k <= |s| ==> m(s[..k]) <= m(s)
  }

  /** Under a monotone measure, a longer prefix is at least as wide. */
  lemma PrefixWidthMonotone(m: Measure, s: string, i: nat, j: nat)
    requires Monotone(m)
    requires i <= j <= |s|
    ensures m(s[..i]) <= m(s[..j])
  {
    assert s[..j][..i] == s[..i];
  }

  /** Once a prefix is too wide, every longer prefix is too wide as well (when
      the measure is monotone). */
  lemma TooWideFrom(m: Measure, s: string, i: nat, budget: int)
    requires i <= |s|
    requires m(s[..i]) > budget
    ensures Monotone(m) ==> forall j :: i <= j <= |s| ==> m(s[..j]) > budget
  {
    if Monotone(m) {
      forall j | i <= j <= |s| ensures m(s[..j]) > budget {
        PrefixWidthMonotone(m, s, i, j);
      }
    }
  }
}
