/**
 * RecMetric: the running text-recognition accuracy of an evaluation. Each
 * update normalises its (prediction, label) pairs, counts the exact matches
 * and sums their normalised edit distances; eval turns the counters into
 * accuracy and a normalised edit-distance score.
 */
module RecMetrics {
  import opened Wrappers
  import opened TextNormalization
  import opened Levenshtein
  import opened GroundTruth

  /** The pairs update walks through: the i-th prediction with the i-th label, as many as the shorter list has. */
  function Zip(preds: seq<string>, labels: seq<string>): (pairs: seq<(string, string)>)
    ensures |pairs| == if |preds| <= |labels| then |preds| else |labels|
    ensures forall i :: 0 <= i < |pairs| ==> pairs[i] == (preds[i], labels[i])
  {
    var n := if |preds| <= |labels| then |preds| else |labels|;
    seq(n, i requires 0 <= i < n => (preds[i], labels[i]))
  }

  /** The normalised prediction equals the normalised label. */
  predicate Matches(cfg: NormConfig, pair: (string, string))
  {
    NormalizePrediction(cfg, pair.0) == NormalizeLabel(cfg, pair.1)
  }

  /** The term one pair adds to the summed distance: in [0, 1], and 0 exactly for a match. */
  function PairDistance(cfg: NormConfig, pair: (string, string)): (d: real)
    ensures 0.0 <= d <= 1.0
    ensures d == 0.0 <==> Matches(cfg, pair)
  {
    NormalizedDistance(NormalizePrediction(cfg, pair.0), NormalizeLabel(cfg, pair.1))
  }

  /** How many of the pairs match after normalisation. */
  function CorrectCount(cfg: NormConfig, pairs: seq<(string, string)>): (n: nat)
    ensures n <= |pairs|
  {
    if pairs == [] then 0
    else
      var last := pairs[|pairs| - 1];
      CorrectCount(cfg, pairs[..|pairs| - 1]) + (if Matches(cfg, last) then 1 else 0)
  }

  /**
   * The summed normalised distances of the pairs. Matching pairs add
   * nothing and the others at most 1 each, so the sum is at most the
   * number of mismatches, and 0 exactly when every pair matches.
   */
  function DistanceSum(cfg: NormConfig, pairs: seq<(string, string)>): (s: real)
    ensures 0.0 <= s <= (|pairs| - CorrectCount(cfg, pairs)) as real
    ensures s == 0.0 <==> CorrectCount(cfg, pairs) == |pairs|
  {
    if pairs == [] then 0.0
    else
      var last := pairs[|pairs| - 1];
      DistanceSum(cfg, pairs[..|pairs| - 1]) + PairDistance(cfg, last)
  }

  /** Extending the counted prefix by one pair adds that pair's match and distance. */
  lemma CountsStep(cfg: NormConfig, pairs: seq<(string, string)>, i: nat)
    requires i < |pairs|
    ensures CorrectCount(cfg, pairs[..i + 1]) == CorrectCount(cfg, pairs[..i]) + (if Matches(cfg, pairs[i]) then 1 else 0)
    ensures DistanceSum(cfg, pairs[..i + 1]) == DistanceSum(cfg, pairs[..i]) + PairDistance(cfg, pairs[i])
  {
    assert pairs[..i + 1][..i] == pairs[..i];
  }

  /**
   * Counting is additive over batches: the counters after two updates equal
   * those after one update with both batches concatenated, and per-worker
   * counters can be merged by adding them.
   */
  lemma {:induction false} CountsAdditive(cfg: NormConfig, ps: seq<(string, string)>, qs: seq<(string, string)>)
    ensures CorrectCount(cfg, ps + qs) == CorrectCount(cfg, ps) + CorrectCount(cfg, qs)
    ensures DistanceSum(cfg, ps + qs) == DistanceSum(cfg, ps) + DistanceSum(cfg, qs)
    decreases |qs|
  {
    if qs == [] {
      assert ps + qs == ps;
    } else {
      var init := qs[..|qs| - 1];
      CountsAdditive(cfg, ps, init);
      assert (ps + qs)[..|ps + qs| - 1] == ps + init;
    }
  }

  /** Two consecutive batches whose first one is balanced pair up as their concatenation does. */
  lemma ZipConcat(p1: seq<string>, l1: seq<string>, p2: seq<string>, l2: seq<string>)
    requires |p1| == |l1|
    ensures Zip(p1 + p2, l1 + l2) == Zip(p1, l1) + Zip(p2, l2)
  {
  }

  /**
   * The counters' invariant: no more matches than samples, and the summed
   * distance is at most the number of mismatches and zero exactly when
   * every sample matched.
   */
  predicate CountersConsistent(correct: nat, total: nat, sum: real)
  {
    correct <= total && 0.0 <= sum <= (total - correct) as real && (sum == 0.0 <==> correct == total)
  }

  /** Adding the counts of a batch, or of another accumulator, keeps the counters consistent. */
  lemma MergeConsistent(c1: nat, t1: nat, s1: real, c2: nat, t2: nat, s2: real)
    requires CountersConsistent(c1, t1, s1) && CountersConsistent(c2, t2, s2)
    ensures CountersConsistent(c1 + c2, t1 + t2, s1 + s2)
  {
  }

  /** The counts of any batch of pairs are consistent. */
  lemma BatchConsistent(cfg: NormConfig, pairs: seq<(string, string)>)
    ensures CountersConsistent(CorrectCount(cfg, pairs), |pairs|, DistanceSum(cfg, pairs))
  {
  }

  /** The scores eval returns. */
  datatype Scores = Scores(acc: real, normEditDistance: real)

  class RecMetric {
    const ignoreSpace: bool
    const filterOod: bool
    const lower: bool
    const dict: seq<string>

    var correctNum: nat
    var totalNum: nat
    var normEditDis: real

    /** The normalisation settings, fixed at construction. */
    function Config(): NormConfig
    {
      NormConfig(ignoreSpace, filterOod, lower, dict)
    }

    /** The counters are consistent with each other. */
    ghost predicate Valid()
      reads this
    {
      CountersConsistent(correctNum, totalNum, normEditDis)
    }

    /**
     * A metric with cleared counters. dictLines stands for the lines of the
     * dictionary file (None when no file is given, and then the 36 digits and
     * lower-case letters are the dictionary); each line loses its trailing
     * line terminators.
     */
    constructor (dictLines: Option<seq<string>> := None, ignoreSpace: bool := true,
                 filterOod: bool := true, lower: bool := true)
      ensures Valid()
      ensures correctNum == 0 && totalNum == 0 && normEditDis == 0.0
      ensures this.ignoreSpace == ignoreSpace && this.filterOod == filterOod && this.lower == lower
      ensures dictLines.None? ==> dict == DefaultDictionary()
      ensures dictLines.Some? ==>
        |dict| == |dictLines.value| &&
        forall i :: 0 <= i < |dict| ==> dict[i] == StripLineEnd(dictLines.value[i])
    {
      this.ignoreSpace := ignoreSpace;
      this.filterOod := filterOod;
      this.lower := lower;
      match dictLines {
        case None =>
          dict := DefaultDictionary();
        case Some(lines) =>
          dict := seq(|lines|, i requires 0 <= i < |lines| => StripLineEnd(lines[i]));
      }
      new;
      Clear();
    }

    /** Starts a new evaluation run: every counter back to zero. */
    method Clear()
      modifies this
      ensures Valid()
      ensures correctNum == 0 && totalNum == 0 && normEditDis == 0.0
    {
      correctNum := 0;
      totalNum := 0;
      normEditDis := 0.0;
    }

    /**
     * Accumulates one batch. arity is the number of positional arguments of
     * the call, predTexts the predicted texts and gt the ground truth. A call
     * with the wrong arity, or with more lengths than texts, raises before
     * any counter changes. Otherwise every pair zip yields is counted: the
     * total grows by their number, the correct count by the pairs that match
     * after normalisation, and the summed distance by their distances.
     */
    method Update(arity: nat, predTexts: seq<string>, gt: Gt) returns (r: Outcome)
      requires Valid()
      modifies this
      ensures Valid()
      ensures arity != 2 ==> r == Fail(ValueError)
      ensures arity == 2 && Labels(gt).Failure? ==> r == Fail(IndexError)
      ensures r.Fail? ==>
        correctNum == old(correctNum) && totalNum == old(totalNum) && normEditDis == old(normEditDis)
      ensures arity == 2 && Labels(gt).Success? ==>
        var pairs := Zip(predTexts, Labels(gt).value);
        r == Pass &&
        totalNum == old(totalNum) + |pairs| &&
        correctNum == old(correctNum) + CorrectCount(Config(), pairs) &&
        normEditDis == old(normEditDis) + DistanceSum(Config(), pairs)
      ensures old(normEditDis) <= normEditDis
    {
      if arity != 2 {
        return Fail(ValueError);
      }
      var unpacked := Labels(gt);
      if unpacked.Failure? {
        return Fail(unpacked.error);
      }
      Accumulate(predTexts, unpacked.value);
      return Pass;
    }

    /**
     * The loop of update over the paired predictions and labels:
     * each pair is normalised step by step, its normalised distance is added
     * to the sum, a match is counted, and the total grows by one.
     */
    method Accumulate(predTexts: seq<string>, gtTexts: seq<string>)
      requires Valid()
      modifies this
      ensures Valid()
      ensures var pairs := Zip(predTexts, gtTexts);
        totalNum == old(totalNum) + |pairs| &&
        correctNum == old(correctNum) + CorrectCount(Config(), pairs) &&
        normEditDis == old(normEditDis) + DistanceSum(Config(), pairs)
    {
      ghost var pairs := Zip(predTexts, gtTexts);
      var cfg := Config();
      var n := if |predTexts| <= |gtTexts| then |predTexts| else |gtTexts|;
      var i := 0;
      assert pairs[..0] == [];
      assert CorrectCount(cfg, pairs[..0]) == 0 && DistanceSum(cfg, pairs[..0]) == 0.0;
      while i < n
        invariant 0 <= i <= n == |pairs|
        invariant totalNum == old(totalNum) + i
        invariant correctNum == old(correctNum) + CorrectCount(cfg, pairs[..i])
        invariant normEditDis == old(normEditDis) + DistanceSum(cfg, pairs[..i])
      {
        assert pairs[i] == (predTexts[i], gtTexts[i]);
        CountsStep(cfg, pairs, i);
        AddPair(predTexts[i], gtTexts[i]);
        i := i + 1;
      }
      assert pairs[..n] == pairs;
      BatchConsistent(cfg, pairs);
      MergeConsistent(old(correctNum), old(totalNum), old(normEditDis),
                      CorrectCount(cfg, pairs), |pairs|, DistanceSum(cfg, pairs));
    }

    /**
     * The body of update's loop for one pair: the pair is normalised step
     * by step, its normalised distance is added to the sum, a match is
     * counted, and the total grows by one.
     */
    method AddPair(pred0: string, text0: string)
      modifies this
      ensures correctNum == old(correctNum) + (if Matches(Config(), (pred0, text0)) then 1 else 0)
      ensures totalNum == old(totalNum) + 1
      ensures normEditDis == old(normEditDis) + PairDistance(Config(), (pred0, text0))
    {
      var pred, text := pred0, text0;
      if ignoreSpace {
        pred := RemoveSpaces(pred);
        text := RemoveSpaces(text);
      }
      if filterOod {
        text := FilterOod(text, dict);
      }
      if lower {
        text := ToLower(text);
      }
      var editDistance := NormalizedDistance(pred, text);
      normEditDis := normEditDis + editDistance;
      if pred == text {
        correctNum := correctNum + 1;
      }
      totalNum := totalNum + 1;
    }

    /**
     * The scores of the run so far: the fraction of exact matches and one
     * minus the mean normalised distance. With no sample yet it raises
     * RuntimeError. Both scores lie in [0, 1], the edit-distance score is
     * never below the accuracy, and one is perfect exactly when the other is.
     */
    function Eval(): (r: Result<Scores>)
      reads this
      ensures totalNum == 0 <==> r == Failure(RuntimeError)
      ensures r.Success? ==>
        r.value.acc * totalNum as real == correctNum as real &&
        (1.0 - r.value.normEditDistance) * totalNum as real == normEditDis
      ensures Valid() && r.Success? ==>
        0.0 <= r.value.acc <= r.value.normEditDistance <= 1.0 &&
        (r.value.acc == 1.0 <==> r.value.normEditDistance == 1.0)
    {
      if totalNum == 0 then Failure(RuntimeError)
      else
        var total := totalNum as real;
        var acc := correctNum as real / total;
        var normEditDistance := 1.0 - normEditDis / total;
        assert acc * total == correctNum as real;
        assert normEditDis / total * total == normEditDis;
        Success(Scores(acc, normEditDistance))
    }
  }
}
