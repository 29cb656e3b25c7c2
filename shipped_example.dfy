/**
 * The demonstration at the end of rec_metrics.py: two padded labels,
 * "ba xla la!" and "ba", against the predictions "balala" and "ba".
 */
module ShippedExample {
  import opened Wrappers
  import opened TextNormalization
  import opened Levenshtein
  import opened GroundTruth
  import opened RecMetrics

  const PaddedTexts: seq<string> := ["ba xla la!    ", "ba       "]
  const TrueLengths: seq<int> := [10, 2]
  const Predictions: seq<string> := ["balala", "ba"]

  /** Cutting the padded texts to their lengths recovers the two labels. */
  lemma ExampleLabels()
    ensures Labels(Padded(PaddedTexts, TrueLengths)) == Success(["ba xla la!", "ba"])
  {
    var r := Labels(Padded(PaddedTexts, TrueLengths));
    var first: string := "ba xla la!";
    var second: string := "ba";
    assert SlicePrefix(PaddedTexts[0], 10) == PaddedTexts[0][..10] == first;
    assert SlicePrefix(PaddedTexts[1], 2) == PaddedTexts[1][..2] == second;
    assert r.value == [first, second];
  }

  /** A text made only of digits and lower-case letters, without spaces. */
  predicate Plain(s: string)
  {
    forall i :: 0 <= i < |s| ==> IsDigit(s[i]) || IsLowerLetter(s[i])
  }

  /** Such a text comes through normalisation of either side unchanged. */
  lemma PlainUnchanged(s: string)
    requires Plain(s)
    ensures NormalizePrediction(DefaultConfig(), s) == s
    ensures NormalizeLabel(DefaultConfig(), s) == s
  {
    FilterKeepsAll(s, NonSpace);
    assert RemoveSpaces(s) == s;
    FilterKeepsAll(s, InDict(DefaultDictionary()));
    assert FilterOod(s, DefaultDictionary()) == s;
    ToLowerFixesNonUpper(s);
  }

  lemma SpaceAfterBa()
    ensures RemoveSpaces("ba xla la!") == "ba" + RemoveSpaces("xla la!")
  {
    var u: string, v: string := "ba", "xla la!";
    assert "ba xla la!" == u + [' '] + v;
    FilterPastDropped(u, ' ', v, NonSpace);
  }

  lemma SpaceAfterXla()
    ensures RemoveSpaces("xla la!") == "xla" + RemoveSpaces("la!")
  {
    var u: string, v: string := "xla", "la!";
    assert "xla la!" == u + [' '] + v;
    FilterPastDropped(u, ' ', v, NonSpace);
  }

  lemma NoSpaceInLa()
    ensures RemoveSpaces("la!") == "la!"
  {
    var w: string := "la!";
    FilterKeepsAll(w, NonSpace);
  }

  /** Both spaces of "ba xla la!" go. */
  lemma ExampleSpacesRemoved()
    ensures RemoveSpaces("ba xla la!") == "baxlala!"
  {
    SpaceAfterBa();
    SpaceAfterXla();
    NoSpaceInLa();
    var ba: string, xla: string, la: string := "ba", "xla", "la!";
    assert ba + (xla + la) == "baxlala!";
  }

  /** The '!' is not in the default dictionary; every letter is. */
  lemma ExampleOodDropped()
    ensures FilterOod("baxlala!", DefaultDictionary()) == "baxlala"
  {
    var dict := DefaultDictionary();
    var u: string, v: string := "baxlala", [];
    assert "baxlala!" == u + ['!'] + v;
    assert forall i :: 0 <= i < |u| ==> InDictionary(dict, u[i]);
    FilterPastDropped(u, '!', v, InDict(dict));
    assert u + Filter(v, InDict(dict)) == u;
  }

  /** "ba xla la!" loses its two spaces and the '!' that is not in the dictionary. */
  lemma ExampleLabelNormalized()
    ensures NormalizeLabel(DefaultConfig(), "ba xla la!") == "baxlala"
  {
    var cfg := DefaultConfig();
    var text: string, word: string := "ba xla la!", "baxlala";
    assert FilteredLabel(cfg, text) == word by {
      ExampleSpacesRemoved();
      ExampleOodDropped();
    }
    ToLowerFixesNonUpper(word);
  }

  /** "balala" is one insertion away from "baxlala". */
  lemma ExampleEditDistance()
    ensures Distance("balala", "baxlala") == 1
  {
    var p: string, q: string := "ba", "lala";
    assert p + q == "balala";
    assert p + ['x'] + q == "baxlala";
    DistanceOfInsertion(p, 'x', q);
  }

  /** So their normalised distance is 1/7, the longer text having seven characters. */
  lemma ExampleDistance()
    ensures NormalizedDistance("balala", "baxlala") == 1.0 / 7.0
  {
    ExampleEditDistance();
    var a: string, b: string := "balala", "baxlala";
    assert |a| == 6 && |b| == 7;
    assert Max(|a|, |b|) == 7;
    assert NormalizedDistance(a, b) == Distance(a, b) as real / 7.0;
  }

  /** The two pairs update sees, under the default configuration. */
  function ExamplePairs(): (pairs: seq<(string, string)>)
    ensures pairs == Zip(Predictions, ["ba xla la!", "ba"])
  {
    [("balala", "ba xla la!"), ("ba", "ba")]
  }

  /** The first pair does not match and scores 1/7. */
  lemma ExampleFirstPair()
    ensures !Matches(DefaultConfig(), ("balala", "ba xla la!"))
    ensures PairDistance(DefaultConfig(), ("balala", "ba xla la!")) == 1.0 / 7.0
  {
    var pred: string := "balala";
    assert Plain(pred);
    PlainUnchanged(pred);
    ExampleLabelNormalized();
    ExampleDistance();
  }

  /** The second pair matches and scores 0. */
  lemma ExampleSecondPair()
    ensures Matches(DefaultConfig(), ("ba", "ba"))
    ensures PairDistance(DefaultConfig(), ("ba", "ba")) == 0.0
  {
    var pred: string := "ba";
    assert Plain(pred);
    PlainUnchanged(pred);
  }

  /** Over the batch: one match out of two, and a summed distance of 1/7. */
  lemma ExampleCounts()
    ensures CorrectCount(DefaultConfig(), ExamplePairs()) == 1
    ensures DistanceSum(DefaultConfig(), ExamplePairs()) == 1.0 / 7.0
  {
    var cfg := DefaultConfig();
    var pairs := ExamplePairs();
    var first, second := pairs[0], pairs[1];
    assert pairs[..1] == [first] && [first][..0] == [];
    ExampleFirstPair();
    ExampleSecondPair();
    assert CorrectCount(cfg, [first]) == 0;
    assert DistanceSum(cfg, [first]) == 1.0 / 7.0;
  }

  /** What update sees in the demonstration: two pairs, one match, a summed distance of 1/7. */
  lemma ExampleBatch()
    ensures Labels(Padded(PaddedTexts, TrueLengths)).Success?
    ensures var pairs := Zip(Predictions, Labels(Padded(PaddedTexts, TrueLengths)).value);
      |pairs| == 2 &&
      CorrectCount(DefaultConfig(), pairs) == 1 &&
      DistanceSum(DefaultConfig(), pairs) == 1.0 / 7.0
  {
    ExampleLabels();
    ExampleCounts();
  }

  /**
   * Running the demonstration end to end: a default RecMetric, one update
   * with the padded ground truth, then eval, gives an accuracy of 1/2 and a
   * normalised-edit-distance score of 1 - (1/7)/2 = 13/14.
   */
  method RunShippedExample() returns (r: Result<Scores>)
    ensures r == Success(Scores(1.0 / 2.0, 13.0 / 14.0))
  {
    var m := new RecMetric();
    var gt := Padded(PaddedTexts, TrueLengths);
    ghost var pairs := Zip(Predictions, Labels(gt).value);
    assert Labels(gt).Success? && |pairs| == 2 && CorrectCount(m.Config(), pairs) == 1 &&
      DistanceSum(m.Config(), pairs) == 1.0 / 7.0 by {
      assert m.Config() == DefaultConfig();
      ExampleBatch();
    }
    var outcome := m.Update(2, Predictions, gt);
    assert outcome == Pass;
    assert m.totalNum == 2 && m.correctNum == 1 && m.normEditDis == 1.0 / 7.0;
    r := m.Eval();
    assert r.value.acc * 2.0 == 1.0;
    assert (1.0 - r.value.normEditDistance) * 2.0 == 1.0 / 7.0;
  }
}
