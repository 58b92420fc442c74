/** `parse_labels` of the command-line interface (pillow_grid/cli.py:14-18). */
module Cli {
  import opened Wrappers
  import opened Text

  /** `parse_labels(label_string)`: `None` for a missing or empty string,
      otherwise one label per comma-separated field, in order, each field with
      the whitespace at its ends removed. */
  function ParseLabels(labelString: Option<string>): (r: Option<seq<string>>)
    ensures r.None? <==> labelString.None? || labelString.value == ""
    ensures r.Some? ==> |r.value| == Count(labelString.value, ',') + 1
    ensures r.Some? ==> forall i :: 0 <= i < |r.value| ==>
      r.value[i] == Strip(SplitOn(labelString.value, ',')[i])
    ensures r.Some? ==> forall i :: 0 <= i < |r.value| ==> ',' !in r.value[i] && Trimmed(r.value[i])
  {
    if labelString.None? || labelString.value == "" then None
    else
      var fields := SplitOn(labelString.value, ',');
      Some(seq(|fields|, i requires 0 <= i < |fields| => Strip(fields[i])))
  }

  /** Labels without commas and without whitespace at their ends survive being
      joined with commas and parsed again. */
  lemma ParseLabelsOfJoin(labels: seq<string>)
    requires |labels| > 0 && JoinOn(labels, ',') != ""
    requires forall i :: 0 <= i < |labels| ==> ',' !in labels[i]
    requires forall i :: 0 <= i < |labels| ==> Trimmed(labels[i])
    ensures ParseLabels(Some(JoinOn(labels, ','))) == Some(labels)
  {
    var joined := JoinOn(labels, ',');
    SplitOfJoin(labels, ',');
    var fields := SplitOn(joined, ',');
    var parsed := seq(|fields|, i requires 0 <= i < |fields| => Strip(fields[i]));
    forall i | 0 <= i < |labels| ensures parsed[i] == labels[i] {
      StripStripped(labels[i]);
    }
    assert parsed == labels;
    assert ParseLabels(Some(joined)) == Some(parsed);
  }
}
