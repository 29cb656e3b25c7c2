/**
 * How RecMetric.update turns its ground-truth argument into one label per
 * sample: padded texts are cut to their true lengths, anything else is used
 * as it is.
 */
module GroundTruth {
  import opened Wrappers

  /**
   * The `gt` argument of update. A tuple or a list carries the padded texts
   * first and their true lengths second; any other value is the sequence of
   * labels itself.
   */
  datatype Gt =
    | Padded(texts: seq<string>, lens: seq<int>)
    | Unpadded(labels: seq<string>)

  /**
   * Python's `s[:l]`: the first l characters, all of s when l is too large,
   * and for a negative l all but the last -l characters.
   */
  function SlicePrefix(s: string, l: int): (r: string)
    ensures |r| <= |s| && r == s[..|r|]
    ensures 0 <= l ==> |r| == if l <= |s| then l else |s|
    ensures l < 0 ==> |r| == if 0 <= |s| + l then |s| + l else 0
  {
    if |s| <= l then s
    else if 0 <= l then s[..l]
    else if 0 <= |s| + l then s[..|s| + l]
    else []
  }

  /**
   * The labels update compares against. Padded ground truth gives one label
   * per length, the matching text cut by that length, so a length without a
   * text is an IndexError.
   */
  function Labels(gt: Gt): (r: Result<seq<string>>)
    ensures gt.Unpadded? ==> r == Success(gt.labels)
    ensures gt.Padded? ==> (r.Failure? <==> |gt.lens| > |gt.texts|)
    ensures r.Failure? ==> r.error == IndexError
    ensures gt.Padded? && r.Success? ==>
      |r.value| == |gt.lens| &&
      forall i :: 0 <= i < |gt.lens| ==>
        var cut, text, l := r.value[i], gt.texts[i], gt.lens[i];
        |cut| <= |text| && cut == text[..|cut|] &&
        (0 <= l ==> |cut| == if l <= |text| then l else |text|)
    ensures gt.Padded? && r.Success? ==>
      forall i :: 0 <= i < |gt.lens| ==> r.value[i] == SlicePrefix(gt.texts[i], gt.lens[i])
  {
    match gt
    case Unpadded(labels) => Success(labels)
    case Padded(texts, lens) =>
      if |lens| > |texts| then Failure(IndexError)
      else Success(seq(|lens|, i requires 0 <= i < |lens| => SlicePrefix(texts[i], lens[i])))
  }
}
