/**
 * The per-pair normalisation RecMetric.update applies before comparing a
 * prediction with its label: spaces removed from both, out-of-dictionary
 * characters dropped from the label, the label lower-cased, in that order.
 */
module TextNormalization {

  /** True when r is obtained from s by deleting characters, keeping the order of the rest. */
  predicate IsSubsequence(r: string, s: string)
    decreases |s|
  {
    if r == [] then true
    else if s == [] then false
    else (r[0] == s[0] && IsSubsequence(r[1..], s[1..])) || IsSubsequence(r, s[1..])
  }

  lemma {:induction false} SubsequenceReflexive(s: string)
    ensures IsSubsequence(s, s)
  {
    if s != [] {
      SubsequenceReflexive(s[1..]);
    }
  }

  /** A subsequence never holds a character its source does not hold. */
  lemma {:induction false} SubsequenceChars(r: string, s: string, c: char)
    requires IsSubsequence(r, s)
    requires c !in s
    ensures c !in r
    decreases |s|
  {
    if r != [] {
      assert s != [];
      if r[0] == s[0] && IsSubsequence(r[1..], s[1..]) {
        SubsequenceChars(r[1..], s[1..], c);
        assert r == [r[0]] + r[1..];
      } else {
        SubsequenceChars(r, s[1..], c);
      }
    }
  }

  /**
   * Dictionary membership of a character. The dictionary is a list of
   * strings, so a character is in it when the one-character string holding
   * it is an entry; a longer entry never matches a character.
   */
  predicate InDictionary(dict: seq<string>, c: char) { [c] in dict }

  /** Which characters a filtering step keeps. */
  datatype Keep = NonSpace | InDict(dict: seq<string>)

  predicate Kept(keep: Keep, c: char)
  {
    match keep
    case NonSpace => c != ' '
    case InDict(dict) => InDictionary(dict, c)
  }

  /**
   * The characters of s that keep admits, in their original order: the
   * common shape of the space removal and of the dictionary filter.
   */
  function Filter(s: string, keep: Keep): (r: string)
    ensures |r| <= |s|
    ensures forall i :: 0 <= i < |r| ==> Kept(keep, r[i])
  {
    if s == [] then []
    else if Kept(keep, s[0]) then [s[0]] + Filter(s[1..], keep)
    else Filter(s[1..], keep)
  }

  /**
   * Filtering keeps the kept characters in order and with their
   * multiplicities, and drops every other character.
   */
  lemma {:induction false} FilterProperties(s: string, keep: Keep)
    ensures IsSubsequence(Filter(s, keep), s)
    ensures forall c :: Kept(keep, c) ==> multiset(Filter(s, keep))[c] == multiset(s)[c]
    ensures forall c :: !Kept(keep, c) ==> multiset(Filter(s, keep))[c] == 0
  {
    if s != [] {
      FilterProperties(s[1..], keep);
      assert s == [s[0]] + s[1..];
      var r := Filter(s[1..], keep);
      if Kept(keep, s[0]) {
        assert Filter(s, keep) == [s[0]] + r;
        assert ([s[0]] + r)[1..] == r;
      }
    }
  }

  /** Filtering a concatenation filters each part. */
  lemma {:induction false} FilterConcat(s: string, t: string, keep: Keep)
    ensures Filter(s + t, keep) == Filter(s, keep) + Filter(t, keep)
  {
    if s == [] {
      assert s + t == t;
    } else {
      var st := s + t;
      assert st[0] == s[0] && st[1..] == s[1..] + t;
      FilterConcat(s[1..], t, keep);
      if Kept(keep, s[0]) {
        calc {
          Filter(st, keep);
          [s[0]] + Filter(s[1..] + t, keep);
          [s[0]] + (Filter(s[1..], keep) + Filter(t, keep));
          ([s[0]] + Filter(s[1..], keep)) + Filter(t, keep);
        }
      }
    }
  }

  /** A text whose every character is kept passes unchanged. */
  lemma {:induction false} FilterKeepsAll(s: string, keep: Keep)
    requires forall i :: 0 <= i < |s| ==> Kept(keep, s[i])
    ensures Filter(s, keep) == s
  {
    if s != [] {
      FilterKeepsAll(s[1..], keep);
    }
  }

  /**
   * A run of kept characters followed by a dropped one comes through as the
   * run alone, and filtering goes on after it.
   */
  lemma FilterPastDropped(u: string, c: char, v: string, keep: Keep)
    requires forall i :: 0 <= i < |u| ==> Kept(keep, u[i])
    requires !Kept(keep, c)
    ensures Filter(u + [c] + v, keep) == u + Filter(v, keep)
  {
    FilterConcat(u + [c], v, keep);
    FilterConcat(u, [c], keep);
    FilterKeepsAll(u, keep);
    assert Filter([c], keep) == [];
  }

  /** Space removal: only the ASCII space is removed, everything else stays in order. */
  function RemoveSpaces(s: string): (r: string)
    ensures ' ' !in r
    ensures IsSubsequence(r, s)
    ensures forall c :: c != ' ' ==> multiset(r)[c] == multiset(s)[c]
  {
    FilterProperties(s, NonSpace);
    Filter(s, NonSpace)
  }

  /** The dictionary filter: the label keeps only its characters that are dictionary entries. */
  function FilterOod(s: string, dict: seq<string>): (r: string)
    ensures forall i :: 0 <= i < |r| ==> InDictionary(dict, r[i])
    ensures IsSubsequence(r, s)
    ensures forall c :: InDictionary(dict, c) ==> multiset(r)[c] == multiset(s)[c]
  {
    FilterProperties(s, InDict(dict));
    Filter(s, InDict(dict))
  }

  predicate IsUpper(c: char) { 'A' <= c <= 'Z' }

  predicate IsDigit(c: char) { '0' <= c <= '9' }

  predicate IsLowerLetter(c: char) { 'a' <= c <= 'z' }

  /** ASCII lower-casing of one character. */
  function LowerChar(c: char): (r: char)
    ensures !IsUpper(r)
    ensures IsUpper(c) ==> IsLowerLetter(r) && r as int == c as int + 32
    ensures !IsUpper(c) ==> r == c
  {
    if IsUpper(c) then (c as int - 'A' as int + 'a' as int) as char else c
  }

  /** Lower-casing of the label, restricted to ASCII letters. */
  function ToLower(s: string): (r: string)
    ensures |r| == |s|
    ensures forall i :: 0 <= i < |r| ==> r[i] == LowerChar(s[i])
  {
    seq(|s|, i requires 0 <= i < |s| => LowerChar(s[i]))
  }

  /** Lower-casing leaves a text without upper-case letters unchanged. */
  lemma ToLowerFixesNonUpper(s: string)
    requires forall i :: 0 <= i < |s| ==> !IsUpper(s[i])
    ensures ToLower(s) == s
  {
  }

  /** The configuration flags of a RecMetric and the dictionary it filters against. */
  datatype NormConfig = NormConfig(ignoreSpace: bool, filterOod: bool, lower: bool, dict: seq<string>)

  /** The list of the characters of text: one single-character entry per character, in order. */
  function Characters(text: string): (d: seq<string>)
    ensures |d| == |text|
    ensures forall c :: InDictionary(d, c) <==> c in text
  {
    var d := seq(|text|, i requires 0 <= i < |text| => [text[i]]);
    assert forall i :: 0 <= i < |text| ==> d[i] == [text[i]];
    assert forall c :: c in text ==> InDictionary(d, c) by {
      forall c | c in text ensures InDictionary(d, c) {
        var i :| 0 <= i < |text| && text[i] == c;
        assert d[i] == [c];
      }
    }
    assert forall c :: InDictionary(d, c) ==> c in text by {
      forall c | InDictionary(d, c) ensures c in text {
        var i :| 0 <= i < |d| && d[i] == [c];
        assert [text[i]] == [c];
        assert text[i] == [c][0];
      }
    }
    d
  }

  /** Entry i of the character list is the one-character string holding text[i]. */
  lemma CharactersEntries(text: string)
    ensures forall i :: 0 <= i < |Characters(text)| ==> Characters(text)[i] == [text[i]]
  {
  }

  const DefaultAlphabet: string := "0123456789abcdefghijklmnopqrstuvwxyz"

  /** The dictionary used when no dictionary file is given: the 36 digits and lower-case letters. */
  function DefaultDictionary(): (d: seq<string>)
    ensures |d| == 36
    ensures forall c :: InDictionary(d, c) <==> IsDigit(c) || IsLowerLetter(c)
  {
    Characters(DefaultAlphabet)
  }

  /** `line.rstrip('\n\r')`: drop every trailing newline and carriage return. */
  function StripLineEnd(line: string): (r: string)
    ensures |r| <= |line| && r == line[..|r|]
    ensures r == [] || (r[|r| - 1] != '\n' && r[|r| - 1] != '\r')
    ensures forall i :: |r| <= i < |line| ==> line[i] == '\n' || line[i] == '\r'
  {
    if line != [] && (line[|line| - 1] == '\n' || line[|line| - 1] == '\r')
    then StripLineEnd(line[..|line| - 1])
    else line
  }

  /** The prediction after normalisation: spaces removed when configured, nothing else. */
  function NormalizePrediction(cfg: NormConfig, pred: string): string
  {
    if cfg.ignoreSpace then RemoveSpaces(pred) else pred
  }

  /**
   * The prediction is never filtered against the dictionary nor lower-cased:
   * it loses its spaces when configured and keeps every other character,
   * upper-case letters included, in order.
   */
  lemma PredictionOnlyLosesSpaces(cfg: NormConfig, pred: string)
    ensures var r := NormalizePrediction(cfg, pred);
      (!cfg.ignoreSpace ==> r == pred) &&
      (cfg.ignoreSpace ==> ' ' !in r) &&
      IsSubsequence(r, pred) &&
      forall c :: c != ' ' ==> multiset(r)[c] == multiset(pred)[c]
  {
    SubsequenceReflexive(pred);
  }

  /** The label after the first two steps: spaces removed, then out-of-dictionary characters dropped. */
  function FilteredLabel(cfg: NormConfig, text: string): string
  {
    var spaced := if cfg.ignoreSpace then RemoveSpaces(text) else text;
    if cfg.filterOod then FilterOod(spaced, cfg.dict) else spaced
  }

  /** The label after all three steps; lower-casing comes last. */
  function NormalizeLabel(cfg: NormConfig, text: string): string
  {
    var k := FilteredLabel(cfg, text);
    if cfg.lower then ToLower(k) else k
  }

  lemma {:induction false} SubsequenceTransitive(r: string, s: string, t: string)
    requires IsSubsequence(r, s) && IsSubsequence(s, t)
    ensures IsSubsequence(r, t)
    decreases |t|
  {
    if r != [] {
      assert s != [] && t != [];
      if s[0] == t[0] && IsSubsequence(s[1..], t[1..]) {
        if r[0] == s[0] && IsSubsequence(r[1..], s[1..]) {
          SubsequenceTransitive(r[1..], s[1..], t[1..]);
        } else {
          SubsequenceTransitive(r, s[1..], t[1..]);
        }
      } else {
        SubsequenceTransitive(r, s, t[1..]);
      }
    }
  }

  lemma {:induction false} SubsequenceLength(r: string, s: string)
    requires IsSubsequence(r, s)
    ensures |r| <= |s|
    decreases |s|
  {
    if r != [] {
      if r[0] == s[0] && IsSubsequence(r[1..], s[1..]) {
        SubsequenceLength(r[1..], s[1..]);
      } else {
        SubsequenceLength(r, s[1..]);
      }
    }
  }

  /** Lower-casing both sides keeps a subsequence a subsequence. */
  lemma {:induction false} SubsequenceToLower(r: string, s: string)
    requires IsSubsequence(r, s)
    ensures IsSubsequence(ToLower(r), ToLower(s))
    decreases |s|
  {
    if r != [] {
      assert ToLower(s)[1..] == ToLower(s[1..]);
      if r[0] == s[0] && IsSubsequence(r[1..], s[1..]) {
        SubsequenceToLower(r[1..], s[1..]);
        assert ToLower(r)[1..] == ToLower(r[1..]);
      } else {
        SubsequenceToLower(r, s[1..]);
      }
    }
  }

  /** The first two steps keep the label's order, and each step's promise holds of the result. */
  lemma FilteredLabelProperties(cfg: NormConfig, text: string)
    ensures var k := FilteredLabel(cfg, text);
      IsSubsequence(k, text) &&
      (cfg.ignoreSpace ==> ' ' !in k) &&
      (cfg.filterOod ==> forall i :: 0 <= i < |k| ==> InDictionary(cfg.dict, k[i])) &&
      (!cfg.ignoreSpace && !cfg.filterOod ==> k == text)
  {
    var spaced := if cfg.ignoreSpace then RemoveSpaces(text) else text;
    SubsequenceReflexive(text);
    if cfg.filterOod {
      var kept := FilterOod(spaced, cfg.dict);
      SubsequenceTransitive(kept, spaced, text);
      if cfg.ignoreSpace {
        SubsequenceChars(kept, spaced, ' ');
      }
    }
  }

  /**
   * What the three steps promise of the label: it is no longer than before
   * and keeps its (lower-cased, when configured) characters in their
   * original order; it holds no space when spaces are ignored and no
   * upper-case letter when lower-casing; with filtering, each of its
   * characters is a dictionary character, lower-cased when configured.
   */
  lemma LabelNormalized(cfg: NormConfig, text: string)
    ensures var r := NormalizeLabel(cfg, text);
      |r| <= |text| &&
      IsSubsequence(r, if cfg.lower then ToLower(text) else text) &&
      (cfg.ignoreSpace ==> ' ' !in r) &&
      (cfg.lower ==> forall i :: 0 <= i < |r| ==> !IsUpper(r[i])) &&
      (cfg.filterOod ==> forall i :: 0 <= i < |r| ==>
        exists c :: InDictionary(cfg.dict, c) && r[i] == (if cfg.lower then LowerChar(c) else c))
  {
    var k := FilteredLabel(cfg, text);
    var r := NormalizeLabel(cfg, text);
    FilteredLabelProperties(cfg, text);
    SubsequenceLength(k, text);
    if cfg.lower {
      SubsequenceToLower(k, text);
      if cfg.ignoreSpace {
        assert forall i :: 0 <= i < |r| ==> r[i] == LowerChar(k[i]) && k[i] != ' ';
      }
      if cfg.filterOod {
        assert forall i :: 0 <= i < |r| ==> InDictionary(cfg.dict, k[i]) && r[i] == LowerChar(k[i]);
      }
    } else if cfg.filterOod {
      forall i | 0 <= i < |r|
        ensures exists c :: InDictionary(cfg.dict, c) && r[i] == c
      {
        assert InDictionary(cfg.dict, r[i]);
      }
    }
  }

  /** The default configuration of RecMetric: every flag on, the default dictionary. */
  function DefaultConfig(): NormConfig
  {
    NormConfig(true, true, true, DefaultDictionary())
  }

  /**
   * With the default configuration the label keeps exactly its digits and
   * lower-case letters, with their multiplicities: an upper-case letter is
   * dropped by the dictionary filter before lower-casing could save it.
   */
  lemma DefaultLabelKeepsDictionaryChars(text: string)
    ensures var r := NormalizeLabel(DefaultConfig(), text);
      forall c :: multiset(r)[c] == if IsDigit(c) || IsLowerLetter(c) then multiset(text)[c] else 0
  {
    var cfg := DefaultConfig();
    var spaced := RemoveSpaces(text);
    var k := FilterOod(spaced, cfg.dict);
    assert k == FilteredLabel(cfg, text);
    ToLowerFixesNonUpper(k);
    var r := NormalizeLabel(cfg, text);
    assert r == k;
    assert forall c :: multiset(r)[c] == if IsDigit(c) || IsLowerLetter(c) then multiset(text)[c] else 0;
  }

  /** The default dictionary holds 'a' and 'b' but not 'B'. */
  lemma ExampleDictionaryFacts()
    ensures InDictionary(DefaultDictionary(), 'a') && InDictionary(DefaultDictionary(), 'b')
    ensures !InDictionary(DefaultDictionary(), 'B')
  {
  }

  /** Filtering "aB" against the default dictionary drops the 'B'. */
  lemma ExampleFilterAB()
    ensures FilterOod("aB", DefaultDictionary()) == "a"
  {
    var dict := DefaultDictionary();
    var a: string := "a";
    assert "aB" == a + ['B'] + [];
    ExampleDictionaryFacts();
    FilterPastDropped(a, 'B', [], InDict(dict));
  }

  /** "aB" has no space to remove. */
  lemma ExampleSpacesAB()
    ensures RemoveSpaces("aB") == "aB"
  {
    var aB: string := "aB";
    FilterKeepsAll(aB, NonSpace);
  }

  /** The label "aB" normalises to "a". */
  lemma ExampleLabelAB()
    ensures NormalizeLabel(DefaultConfig(), "aB") == "a"
  {
    ExampleSpacesAB();
    ExampleFilterAB();
    assert FilteredLabel(DefaultConfig(), "aB") == "a";
    var a: string := "a";
    ToLowerFixesNonUpper(a);
  }

  /** Lower-casing "aB" first would let its 'B' through as 'b'. */
  lemma ExampleLowerFirstAB()
    ensures FilterOod(ToLower(RemoveSpaces("aB")), DefaultDictionary()) == "ab"
  {
    ExampleSpacesAB();
    var ab: string := "ab";
    assert ToLower("aB") == ab;
    ExampleDictionaryFacts();
    FilterKeepsAll(ab, InDict(DefaultDictionary()));
  }

  /**
   * The order of the steps is observable: with the default configuration
   * "aB" normalises to "a", whereas lower-casing before filtering would give "ab".
   */
  lemma FilterBeforeLowerMatters()
    ensures NormalizeLabel(DefaultConfig(), "aB") == "a"
    ensures FilterOod(ToLower(RemoveSpaces("aB")), DefaultDictionary()) == "ab"
  {
    ExampleLabelAB();
    ExampleLowerFirstAB();
  }
}
