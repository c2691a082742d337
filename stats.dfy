/** Sums over integer sequences and the population variance, the statistics
    the colour-distribution analyzer is built on. */
module Stats {

  function Sum(s: seq<int>): int {
    if s == [] then 0 else Sum(s[..|s| - 1]) + s[|s| - 1]
  }

  function SumSq(s: seq<int>): int {
    if s == [] then 0 else SumSq(s[..|s| - 1]) + s[|s| - 1] * s[|s| - 1]
  }

  /** The sum of squared deviations from m. */
  function SumSqDev(s: seq<int>, m: real): real
  {
    if s == [] then 0.0
    else
      var d := s[|s| - 1] as real - m;
      SumSqDev(s[..|s| - 1], m) + d * d
  }

  function Mean(s: seq<int>): real
    requires |s| > 0
  {
    Sum(s) as real / |s| as real
  }

  /** The population variance: the mean squared deviation from the mean. */
  function PopVariance(s: seq<int>): (v: real)
    requires |s| > 0
    ensures v >= 0.0
  {
    SumSqDevNonNegative(s, Mean(s));
    SumSqDev(s, Mean(s)) / |s| as real
  }

  lemma {:induction false} SumSqDevNonNegative(s: seq<int>, m: real)
    ensures SumSqDev(s, m) >= 0.0
  {
    if s != [] {
      SumSqDevNonNegative(s[..|s| - 1], m);
    }
  }

  lemma SumExtend(s: seq<int>, k: nat)
    requires k < |s|
    ensures Sum(s[..k + 1]) == Sum(s[..k]) + s[k]
    ensures SumSq(s[..k + 1]) == SumSq(s[..k]) + s[k] * s[k]
  {
    assert s[..k + 1][..k] == s[..k];
  }

  /** d is the sum of squared deviations from m of n values with sum a and
      sum of squares q, multiplied out. */
  predicate Expanded(d: real, q: real, a: real, n: real, m: real) {
    d == q - 2.0 * m * a + n * m * m
  }

  lemma {:induction false} SumSqDevExpand(s: seq<int>, m: real)
    ensures Expanded(SumSqDev(s, m), SumSq(s) as real, Sum(s) as real, |s| as real, m)
  {
    if s != [] {
      var t, x := s[..|s| - 1], s[|s| - 1];
      SumSqDevExpand(t, m);
      var xr := x as real;
      var d, q, a, n := SumSqDev(t, m), SumSq(t) as real, Sum(t) as real, |t| as real;
      var d', q', a', n' := SumSqDev(s, m), SumSq(s) as real, Sum(s) as real, |s| as real;
      assert d' == d + (xr - m) * (xr - m) by { assert s[..|s| - 1] == t; }
      assert q' == q + xr * xr by { CastProduct(x, x); }
      assert a' == a + xr && n' == n + 1.0;
      ExpandStep(d, q, a, n, d', q', a', n', xr, m);
    }
  }

  lemma CastProduct(a: int, b: int)
    ensures (a * b) as real == a as real * b as real
  {
  }

  lemma ExpandStep(d: real, q: real, a: real, n: real, d': real, q': real, a': real, n': real, x: real, m: real)
    requires Expanded(d, q, a, n, m)
    requires d' == d + (x - m) * (x - m) && q' == q + x * x && a' == a + x && n' == n + 1.0
    ensures Expanded(d', q', a', n', m)
  {
  }

  /** The shortcut E[x^2] - E[x]^2 evaluated on running totals over n values. */
  function ShortcutFromTotals(total: int, squares: int, n: nat): real
    requires n > 0
  {
    squares as real / n as real - (total as real / n as real) * (total as real / n as real)
  }

  /** The shortcut that the colour analyzer evaluates is the population variance. */
  lemma VarianceShortcut(s: seq<int>)
    requires |s| > 0
    ensures PopVariance(s) == ShortcutFromTotals(Sum(s), SumSq(s), |s|)
  {
    var m := Mean(s);
    assert SumSqDev(s, m) / |s| as real == ShortcutFromTotals(Sum(s), SumSq(s), |s|) by {
      assert |s| as real * m == Sum(s) as real;
      DeviationAtMean(s, m);
    }
  }

  lemma DeviationAtMean(s: seq<int>, m: real)
    requires |s| > 0 && |s| as real * m == Sum(s) as real
    ensures SumSqDev(s, m) / |s| as real == ShortcutFromTotals(Sum(s), SumSq(s), |s|)
  {
    SumSqDevExpand(s, m);
    ShortcutOfTotals(SumSqDev(s, m), SumSq(s), Sum(s), |s|, m);
  }

  lemma ShortcutOfTotals(d: real, squares: int, total: int, count: nat, m: real)
    requires count > 0 && count as real * m == total as real
    requires Expanded(d, squares as real, total as real, count as real, m)
    ensures d / count as real == ShortcutFromTotals(total, squares, count)
  {
    var n, a, q := count as real, total as real, squares as real;
    ShortcutAlgebra(d, q, a, n, m);
    MeanIsQuotient(a, n, m);
    ShortcutOfMean(q, a, n, m);
  }

  lemma ShortcutOfMean(q: real, a: real, n: real, m: real)
    requires n > 0.0 && m == a / n
    ensures q / n - m * m == q / n - (a / n) * (a / n)
  {
  }

  lemma MeanIsQuotient(a: real, n: real, m: real)
    requires n > 0.0 && n * m == a
    ensures m == a / n
  {
  }

  lemma ShortcutAlgebra(d: real, q: real, a: real, n: real, m: real)
    requires n > 0.0 && n * m == a
    requires Expanded(d, q, a, n, m)
    ensures d / n == q / n - m * m
  {
    assert n * m * m == a * m;
    assert d == q - a * m;
    assert a * m / n == m * m;
  }

  lemma {:induction false} ConstantSums(s: seq<int>, v: int)
    requires forall i :: 0 <= i < |s| ==> s[i] == v
    ensures Sum(s) == |s| * v
    ensures SumSqDev(s, v as real) == 0.0
  {
    if s != [] {
      ConstantSums(s[..|s| - 1], v);
    }
  }

  /** A constant sequence has variance zero. */
  lemma ConstantVariance(s: seq<int>, v: int)
    requires |s| > 0
    requires forall i :: 0 <= i < |s| ==> s[i] == v
    ensures PopVariance(s) == 0.0
  {
    ConstantSums(s, v);
    assert Mean(s) == v as real;
  }
}
