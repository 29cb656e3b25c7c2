/**
 * Unit-cost Levenshtein distance and its normalisation by the longer length,
 * the value `Levenshtein.normalized_distance` of rapidfuzz gives RecMetric.update.
 */
module Levenshtein {

  function Min3(x: nat, y: nat, z: nat): nat
  {
    if x <= y && x <= z then x else if y <= z then y else z
  }

  function Max(x: nat, y: nat): nat { if x >= y then x else y }

  /**
   * The least number of single-character insertions, deletions and
   * substitutions turning a into b.
   */
  function Distance(a: string, b: string): nat
    decreases |a| + |b|
  {
    if |a| == 0 then |b|
    else if |b| == 0 then |a|
    else Min3(Distance(a[1..], b) + 1,
              Distance(a, b[1..]) + 1,
              Distance(a[1..], b[1..]) + (if a[0] == b[0] then 0 else 1))
  }

  lemma {:induction false} DistanceToSelf(a: string)
    ensures Distance(a, a) == 0
  {
    if |a| > 0 {
      DistanceToSelf(a[1..]);
    }
  }

  /** No more edits are needed than the longer string has characters. */
  lemma {:induction false} DistanceAtMostLonger(a: string, b: string)
    ensures Distance(a, b) <= Max(|a|, |b|)
    decreases |a| + |b|
  {
    if |a| > 0 && |b| > 0 {
      DistanceAtMostLonger(a[1..], b[1..]);
    }
  }

  /** At least the difference in length must be inserted or deleted. */
  lemma {:induction false} DistanceAtLeastLengthGap(a: string, b: string)
    ensures Distance(a, b) >= |a| - |b| && Distance(a, b) >= |b| - |a|
    decreases |a| + |b|
  {
    if |a| > 0 && |b| > 0 {
      DistanceAtLeastLengthGap(a[1..], b);
      DistanceAtLeastLengthGap(a, b[1..]);
      DistanceAtLeastLengthGap(a[1..], b[1..]);
    }
  }

  /** The distance is zero exactly when the strings are equal. */
  lemma {:induction false} DistanceZeroIffEqual(a: string, b: string)
    ensures Distance(a, b) == 0 <==> a == b
    decreases |a| + |b|
  {
    if a == b {
      DistanceToSelf(a);
    } else if |a| > 0 && |b| > 0 {
      DistanceZeroIffEqual(a[1..], b[1..]);
      if a[0] == b[0] {
        assert a == [a[0]] + a[1..] && b == [b[0]] + b[1..];
      }
    }
  }

  lemma {:induction false} DistanceSymmetric(a: string, b: string)
    ensures Distance(a, b) == Distance(b, a)
    decreases |a| + |b|
  {
    if |a| > 0 && |b| > 0 {
      DistanceSymmetric(a[1..], b);
      DistanceSymmetric(a, b[1..]);
      DistanceSymmetric(a[1..], b[1..]);
    }
  }

  /** Inserting one character anywhere costs exactly one edit. */
  lemma {:induction false} DistanceOfInsertion(p: string, c: char, q: string)
    ensures Distance(p + q, p + [c] + q) == 1
  {
    var a, b := p + q, p + [c] + q;
    DistanceAtLeastLengthGap(a, b);
    if p == [] {
      assert a == q && b == [c] + q && b[1..] == q;
      DistanceToSelf(q);
      assert Distance(a, b) <= Distance(a, b[1..]) + 1;
    } else {
      DistanceOfInsertion(p[1..], c, q);
      assert a[0] == b[0];
      assert a[1..] == p[1..] + q && b[1..] == p[1..] + [c] + q;
      assert Distance(a, b) <= Distance(a[1..], b[1..]);
    }
  }

  /**
   * The distance divided by the longer length; two empty strings are at
   * distance 0 rather than an undefined 0/0.
   */
  function NormalizedDistance(a: string, b: string): (d: real)
    ensures 0.0 <= d <= 1.0
    ensures d == 0.0 <==> a == b
    ensures (|a| == 0) != (|b| == 0) ==> d == 1.0
  {
    if |a| == 0 && |b| == 0 then 0.0
    else
      DistanceAtMostLonger(a, b);
      DistanceZeroIffEqual(a, b);
      assert |a| == 0 || |b| == 0 ==> Distance(a, b) == Max(|a|, |b|);
      RatioBounds(Distance(a, b), Max(|a|, |b|));
      Distance(a, b) as real / Max(|a|, |b|) as real
  }

  lemma RatioBounds(x: nat, y: nat)
    requires 0 < y && x <= y
    ensures 0.0 <= x as real / y as real <= 1.0
    ensures x as real / y as real == 0.0 <==> x == 0
    ensures x == y ==> x as real / y as real == 1.0
  {
  }

  lemma NormalizedDistanceSymmetric(a: string, b: string)
    ensures NormalizedDistance(a, b) == NormalizedDistance(b, a)
  {
    DistanceSymmetric(a, b);
  }
}
