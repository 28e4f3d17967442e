/** Sums and means of real sequences: the aggregations that numpy and pandas perform. */
module Sums {

  /** The `1e-9` the source adds to ratio denominators. */
  const Epsilon: real := 0.000000001

  /** Float division; a zero denominator (inf or nan in the source) yields 0 here. */
  function Ratio(a: real, b: real): real
  {
    if b == 0.0 then 0.0 else a / b
  }

  /** `np.sum` / pandas `sum`, with exact reals standing in for floats. */
  function Sum(s: seq<real>): real
  {
    if |s| == 0 then 0.0 else s[0] + Sum(s[1..])
  }

  /** `np.mean` of a non-empty sequence. */
  function Mean(s: seq<real>): real
    requires |s| > 0
  {
    Sum(s) / (|s| as real)
  }

  predicate NonNegative(s: seq<real>)
  {
    forall k :: 0 <= k < |s| ==> s[k] >= 0.0
  }

  lemma {:induction false} SumAppend(a: seq<real>, b: seq<real>)
    ensures Sum(a + b) == Sum(a) + Sum(b)
  {
    if |a| == 0 {
      assert a + b == b;
    } else {
      assert (a + b)[1..] == a[1..] + b;
      SumAppend(a[1..], b);
    }
  }

  /** Splitting a sequence at any index splits its sum. */
  lemma SumSplit(s: seq<real>, k: int)
    requires 0 <= k <= |s|
    ensures Sum(s) == Sum(s[..k]) + Sum(s[k..])
  {
    assert s == s[..k] + s[k..];
    SumAppend(s[..k], s[k..]);
  }

  /** The sum of a prefix extended by one element. */
  lemma SumSnoc(s: seq<real>, k: int)
    requires 0 <= k < |s|
    ensures Sum(s[..k + 1]) == Sum(s[..k]) + s[k]
  {
    assert s[..k + 1] == s[..k] + [s[k]];
    SumAppend(s[..k], [s[k]]);
  }

  lemma {:induction false} SumNonNegative(s: seq<real>)
    requires NonNegative(s)
    ensures Sum(s) >= 0.0
  {
    if |s| > 0 {
      SumNonNegative(s[1..]);
    }
  }

  /** A sum of non-negative terms bounds each of its terms. */
  lemma {:induction false} ElementAtMostSum(s: seq<real>, k: int)
    requires NonNegative(s) && 0 <= k < |s|
    ensures s[k] <= Sum(s)
  {
    SumNonNegative(s[1..]);
    if k > 0 {
      ElementAtMostSum(s[1..], k - 1);
    }
  }

  /** Subtracting `c` from every term subtracts `|s| * c` from the sum. */
  lemma {:induction false} SumOffset(s: seq<real>, c: real, r: seq<real>)
    requires |r| == |s| && forall k :: 0 <= k < |s| ==> r[k] == s[k] - c
    ensures Sum(r) == Sum(s) - (|s| as real) * c
  {
    if |s| > 0 {
      SumOffset(s[1..], c, r[1..]);
    }
  }

  /** Dividing every term by `d` divides the sum by `d`. */
  lemma {:induction false} SumScaled(s: seq<real>, d: real, r: seq<real>)
    requires d != 0.0
    requires |r| == |s| && forall k :: 0 <= k < |s| ==> r[k] == s[k] / d
    ensures Sum(r) == Sum(s) / d
  {
    if |s| > 0 {
      SumScaled(s[1..], d, r[1..]);
      assert Sum(r) == s[0] / d + Sum(s[1..]) / d;
    }
  }

  /** A sequence of `n` copies of `v` sums to `n * v`. */
  lemma {:induction false} SumConstant(s: seq<real>, v: real)
    requires forall k :: 0 <= k < |s| ==> s[k] == v
    ensures Sum(s) == (|s| as real) * v
  {
    if |s| > 0 {
      SumConstant(s[1..], v);
    }
  }

  /** Division by a positive number keeps the order. */
  lemma DivMonotone(a: real, b: real, c: real)
    requires c > 0.0 && a <= b
    ensures a / c <= b / c
  {
    assert b / c - a / c == (b - a) / c;
  }

  /** At most half of a positive whole is a fraction of at most 1/2. */
  lemma AtMostHalf(a: real, c: real)
    requires c > 0.0 && 2.0 * a <= c
    ensures a / c <= 0.5
  {
    DivMonotone(a, c - a, c);
    assert (c - a) / c == c / c - a / c;
    assert c / c == 1.0;
  }

  /** A proper part of a positive whole is a fraction in [0, 1). */
  lemma FractionBelowOne(a: real, c: real)
    requires c > 0.0 && 0.0 <= a < c
    ensures 0.0 <= a / c < 1.0
  {
    assert c / c - a / c == (c - a) / c;
  }
}
