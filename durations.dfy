/**
  Durations and the statistics kept over them. Go's `time.Duration` and
  `time.Time` are both kept as nanosecond counts; the int64 range is not
  enforced, since no modelled computation comes near it.
*/
module Durations {

  const Second: int := 1_000_000_000
  const Hour: int := 3_600_000_000_000

  /** Go's integer division, which truncates toward zero, for a positive
      divisor: the remainder `a - q * b` has the sign of `a` and is smaller
      than `b` in magnitude. */
  function GoDiv(a: int, b: int): (q: int)
    requires b > 0
    ensures a >= 0 ==> 0 <= a - q * b < b
    ensures a < 0 ==> -b < a - q * b <= 0
  {
    if a >= 0 then a / b else -((-a) / b)
  }

  /** Truncating division is determined by its remainder rule: any `q`
      whose remainder has the sign of `a` and magnitude below `b` is `GoDiv(a, b)`. */
  lemma GoDivUnique(a: int, b: int, q: int)
    requires b > 0
    requires a >= 0 ==> 0 <= a - q * b < b
    requires a < 0 ==> -b < a - q * b <= 0
    ensures q == GoDiv(a, b)
  {
    var g := GoDiv(a, b);
    assert (q - g) * b == (a - g * b) - (a - q * b);
    if q > g {
      AtLeastOnce(q - g, b);
    } else if q < g {
      AtLeastOnce(g - q, b);
    }
  }

  lemma AtLeastOnce(k: int, b: int)
    requires k >= 1 && b > 0
    ensures k * b >= b
  {
    assert k * b - b == (k - 1) * b;
  }

  /** The smaller of `init` and every value of `s`. */
  function MinFrom(init: int, s: seq<int>): int {
    if |s| == 0 then init
    else
      var m := MinFrom(init, s[..|s| - 1]);
      if s[|s| - 1] < m then s[|s| - 1] else m
  }

  /** The larger of `init` and every value of `s`. */
  function MaxFrom(init: int, s: seq<int>): int {
    if |s| == 0 then init
    else
      var m := MaxFrom(init, s[..|s| - 1]);
      if s[|s| - 1] > m then s[|s| - 1] else m
  }

  function Sum(s: seq<int>): int {
    if |s| == 0 then 0 else Sum(s[..|s| - 1]) + s[|s| - 1]
  }

  /** `m` is the smaller of `init` and every value of `s`. */
  predicate IsMinFrom(init: int, s: seq<int>, m: int) {
    m <= init && (forall k :: 0 <= k < |s| ==> m <= s[k]) && (m == init || m in s)
  }

  /** `m` is the larger of `init` and every value of `s`. */
  predicate IsMaxFrom(init: int, s: seq<int>, m: int) {
    m >= init && (forall k :: 0 <= k < |s| ==> m >= s[k]) && (m == init || m in s)
  }

  /** `MinFrom` has its defining property: it is a lower bound of `init`
      and of `s`, and one of them. */
  lemma {:induction false} MinFromIsMin(init: int, s: seq<int>)
    ensures IsMinFrom(init, s, MinFrom(init, s))
  {
    if |s| > 0 {
      MinFromIsMin(init, s[..|s| - 1]);
      assert s == s[..|s| - 1] + [s[|s| - 1]];
    }
  }

  /** `MaxFrom` has its defining property. */
  lemma {:induction false} MaxFromIsMax(init: int, s: seq<int>)
    ensures IsMaxFrom(init, s, MaxFrom(init, s))
  {
    if |s| > 0 {
      MaxFromIsMax(init, s[..|s| - 1]);
      assert s == s[..|s| - 1] + [s[|s| - 1]];
    }
  }

  /** The bounds `MinFrom` and `MaxFrom` keep. */
  lemma MinMaxBounds(init: int, s: seq<int>)
    ensures MinFrom(init, s) <= init && forall k :: 0 <= k < |s| ==> MinFrom(init, s) <= s[k]
    ensures MaxFrom(init, s) >= init && forall k :: 0 <= k < |s| ==> MaxFrom(init, s) >= s[k]
  {
    MinFromIsMin(init, s);
    MaxFromIsMax(init, s);
  }

  /** `MinFrom` is the only value with its defining property. */
  lemma MinFromUnique(init: int, s: seq<int>, m: int)
    requires IsMinFrom(init, s, m)
    ensures m == MinFrom(init, s)
  {
    MinFromIsMin(init, s);
  }

  /** `MaxFrom` is the only value with its defining property. */
  lemma MaxFromUnique(init: int, s: seq<int>, m: int)
    requires IsMaxFrom(init, s, m)
    ensures m == MaxFrom(init, s)
  {
    MaxFromIsMax(init, s);
  }

  /** Appending a value: the sum grows by it and the extremes take it in. */
  lemma SumSnoc(s: seq<int>, d: int)
    ensures Sum(s + [d]) == Sum(s) + d
  {
    assert (s + [d])[..|s|] == s;
  }

  lemma MinFromSnoc(init: int, s: seq<int>, d: int)
    ensures MinFrom(init, s + [d]) == if d < MinFrom(init, s) then d else MinFrom(init, s)
  {
    assert (s + [d])[..|s|] == s;
  }

  lemma MaxFromSnoc(init: int, s: seq<int>, d: int)
    ensures MaxFrom(init, s + [d]) == if d > MaxFrom(init, s) then d else MaxFrom(init, s)
  {
    assert (s + [d])[..|s|] == s;
  }

  /** A sum of values within `[lo, hi]` lies within `[n * lo, n * hi]`. */
  lemma {:induction false} SumBounds(s: seq<int>, lo: int, hi: int)
    requires forall k :: 0 <= k < |s| ==> lo <= s[k] <= hi
    ensures |s| * lo <= Sum(s) <= |s| * hi
  {
    if |s| > 0 {
      SumBounds(s[..|s| - 1], lo, hi);
      assert |s| * lo == (|s| - 1) * lo + lo && |s| * hi == (|s| - 1) * hi + hi;
    }
  }

  lemma PositiveFactor(n: int, m: int)
    requires n > 0 && n * m > 0
    ensures m > 0
  {
  }

  /** The integer mean of values within `[lo, hi]` lies within `[lo, hi]`. */
  lemma QuotientBounds(sum: int, n: int, lo: int, hi: int)
    requires n > 0 && sum >= 0 && n * lo <= sum <= n * hi
    ensures lo <= sum / n <= hi
  {
    var q := sum / n;
    assert sum == n * q + sum % n;
    assert n * (q + 1 - lo) == n * q + n - n * lo;
    PositiveFactor(n, q + 1 - lo);
    assert n * (hi + 1 - q) == n * hi + n - n * q;
    PositiveFactor(n, hi + 1 - q);
  }

  /** The integer mean of non-negative values lies within any bounds of them. */
  lemma MeanBounds(s: seq<int>, lo: int, hi: int)
    requires |s| > 0
    requires forall k :: 0 <= k < |s| ==> 0 <= s[k] && lo <= s[k] <= hi
    ensures lo <= Sum(s) / |s| <= hi
  {
    SumBounds(s, lo, hi);
    SumBounds(s, 0, hi);
    QuotientBounds(Sum(s), |s|, lo, hi);
  }
}
