/**
 * Descriptive statistics over a salary column, with salaries as exact reals:
 * sum, mean, minimum, maximum, the sorted column, pandas' linear-interpolation
 * quantiles (hence the median), the sample variance (ddof = 1) and the
 * guarded percentage difference used by every comparison in the dashboard.
 */
module Stats {
  import opened Wrappers

  function Sum(xs: seq<real>): real {
    if xs == [] then 0.0 else xs[0] + Sum(xs[1..])
  }

  lemma {:induction false} SumAppend(a: seq<real>, b: seq<real>)
    ensures Sum(a + b) == Sum(a) + Sum(b)
  {
    if a == [] {
      assert a + b == b;
    } else {
      assert (a + b)[0] == a[0];
      assert (a + b)[1..] == a[1..] + b;
      SumAppend(a[1..], b);
    }
  }

  /** Arithmetic mean (pandas `Series.mean` on a column without missing cells). */
  function Mean(xs: seq<real>): real
    requires |xs| > 0
  {
    Divide(Sum(xs), |xs| as real)
  }

  /** The mean is the sum shared equally among the values. */
  lemma MeanTimesCount(xs: seq<real>)
    requires |xs| > 0
    ensures Mean(xs) * (|xs| as real) == Sum(xs)
  {
  }

  /** Division kept behind a function, so that the solver sees it only where a proof asks for it. */
  function Divide(s: real, n: real): (q: real)
    requires n != 0.0
    ensures q * n == s
  {
    s / n
  }

  function Min(xs: seq<real>): (m: real)
    requires |xs| > 0
    ensures m in xs
    ensures forall x :: x in xs ==> m <= x
  {
    if |xs| == 1 then xs[0]
    else
      var rest := Min(xs[1..]);
      assert forall x :: x in xs ==> x == xs[0] || x in xs[1..];
      if xs[0] <= rest then xs[0] else rest
  }

  function Max(xs: seq<real>): (m: real)
    requires |xs| > 0
    ensures m in xs
    ensures forall x :: x in xs ==> x <= m
  {
    if |xs| == 1 then xs[0]
    else
      var rest := Max(xs[1..]);
      assert forall x :: x in xs ==> x == xs[0] || x in xs[1..];
      if xs[0] >= rest then xs[0] else rest
  }

  /** A lower and an upper bound of every element bound the sum. */
  lemma {:induction false} SumBounds(xs: seq<real>, lo: real, hi: real)
    requires forall x :: x in xs ==> lo <= x <= hi
    ensures Scale(|xs|, lo) <= Sum(xs) <= Scale(|xs|, hi)
  {
    if xs != [] {
      var rest := xs[1..];
      assert forall x :: x in rest ==> x in xs;
      SumBounds(rest, lo, hi);
      assert Sum(xs) == xs[0] + Sum(rest);
      assert xs[0] in xs;
      BoundsStep(|rest|, lo, hi, xs[0], Sum(rest));
    }
  }

  /** n copies of x added up. */
  function Scale(n: nat, x: real): real {
    (n as real) * x
  }

  lemma BoundsStep(n: nat, lo: real, hi: real, a: real, s: real)
    requires lo <= a <= hi && Scale(n, lo) <= s <= Scale(n, hi)
    ensures Scale(n + 1, lo) <= a + s <= Scale(n + 1, hi)
  {
    assert Scale(n + 1, lo) == Scale(n, lo) + lo;
    assert Scale(n + 1, hi) == Scale(n, hi) + hi;
  }

  /** The mean lies between the minimum and the maximum. */
  lemma MeanBounds(xs: seq<real>)
    requires |xs| > 0
    ensures Min(xs) <= Mean(xs) <= Max(xs)
  {
    SumBounds(xs, Min(xs), Max(xs));
    DivideBounds(Sum(xs), |xs|, Min(xs), Max(xs));
  }

  /** From n * lo <= s <= n * hi with n > 0 follows lo <= s / n <= hi. */
  lemma DivideBounds(s: real, n: nat, lo: real, hi: real)
    requires n > 0 && Scale(n, lo) <= s <= Scale(n, hi)
    ensures lo <= Divide(s, n as real) <= hi
  {
    var q := Divide(s, n as real);
    assert s == (n as real) * q;
  }

  /** A bound on every element bounds the mean. */
  lemma MeanWithin(xs: seq<real>, lo: real, hi: real)
    requires |xs| > 0
    requires forall x :: x in xs ==> lo <= x <= hi
    ensures lo <= Mean(xs) <= hi
  {
    MeanBounds(xs);
  }

  predicate Sorted(s: seq<real>) {
    forall i, j :: 0 <= i < j < |s| ==> s[i] <= s[j]
  }

  function Insert(x: real, s: seq<real>): (r: seq<real>)
    requires Sorted(s)
    ensures Sorted(r)
    ensures multiset(r) == multiset(s) + multiset{x}
  {
    if s == [] || x <= s[0] then
      assert multiset([x] + s) == multiset{x} + multiset(s);
      [x] + s
    else
      var tail := Insert(x, s[1..]);
      assert s == [s[0]] + s[1..];
      InsertLowerBound(s[0], x, s[1..], tail);
      SortedCons(s[0], tail);
      assert multiset([s[0]] + tail) == multiset{s[0]} + multiset(tail);
      [s[0]] + tail
  }

  lemma SortedCons(a: real, t: seq<real>)
    requires Sorted(t) && forall y :: y in t ==> a <= y
    ensures Sorted([a] + t)
  {
    var r := [a] + t;
    forall i, j | 0 <= i < j < |r| ensures r[i] <= r[j] {
      assert r[j] == t[j - 1] && t[j - 1] in t;
      if i > 0 { assert r[i] == t[i - 1]; }
    }
  }

  /** Every element of the insertion result is `x` or an element of `s`, so a common lower bound persists. */
  lemma InsertLowerBound(lo: real, x: real, s: seq<real>, r: seq<real>)
    requires lo <= x
    requires forall i :: 0 <= i < |s| ==> lo <= s[i]
    requires multiset(r) == multiset(s) + multiset{x}
    ensures forall y :: y in r ==> lo <= y
  {
    forall y | y in r ensures lo <= y {
      assert multiset(r)[y] > 0;
      if y != x {
        assert multiset(s)[y] > 0;
        assert y in s;
      }
    }
  }

  /** The column in ascending order (what pandas sorts before taking quantiles). */
  function Sort(xs: seq<real>): (s: seq<real>)
    ensures Sorted(s)
    ensures multiset(s) == multiset(xs)
    ensures |s| == |xs|
  {
    if xs == [] then []
    else
      assert xs == [xs[0]] + xs[1..];
      Insert(xs[0], Sort(xs[1..]))
  }

  /** The ends of the sorted column are the minimum and the maximum. */
  lemma SortEnds(xs: seq<real>)
    requires |xs| > 0
    ensures Sort(xs)[0] == Min(xs)
    ensures Sort(xs)[|xs| - 1] == Max(xs)
  {
    SortFirst(xs);
    SortLast(xs);
  }

  lemma SortFirst(xs: seq<real>)
    requires |xs| > 0
    ensures Sort(xs)[0] == Min(xs)
  {
    FirstOfSorted(Sort(xs), xs);
  }

  lemma SortLast(xs: seq<real>)
    requires |xs| > 0
    ensures Sort(xs)[|xs| - 1] == Max(xs)
  {
    LastOfSorted(Sort(xs), xs);
  }

  lemma FirstOfSorted(s: seq<real>, xs: seq<real>)
    requires |xs| > 0 && |s| == |xs| && Sorted(s) && multiset(s) == multiset(xs)
    ensures s[0] == Min(xs)
  {
    assert s[0] in multiset(s);
    assert s[0] in xs by { assert s[0] in multiset(xs); }
    assert Min(xs) in multiset(s) by { assert Min(xs) in multiset(xs); }
    var i :| 0 <= i < |s| && s[i] == Min(xs);
    assert s[0] <= s[i];
  }

  lemma LastOfSorted(s: seq<real>, xs: seq<real>)
    requires |xs| > 0 && |s| == |xs| && Sorted(s) && multiset(s) == multiset(xs)
    ensures s[|s| - 1] == Max(xs)
  {
    var n := |s| - 1;
    assert s[n] in multiset(s);
    assert s[n] in xs by { assert s[n] in multiset(xs); }
    assert Max(xs) in multiset(s) by { assert Max(xs) in multiset(xs); }
    var j :| 0 <= j < |s| && s[j] == Max(xs);
    assert s[j] <= s[n];
  }

  /** Linear interpolation between a and b at fraction t, numpy's `lerp`. */
  function Interpolate(a: real, b: real, t: real): (v: real)
    ensures a <= b && 0.0 <= t <= 1.0 ==> a <= v <= b
  {
    if a <= b && 0.0 <= t <= 1.0 then
      ProductNonNegative(b - a, t);
      ProductNonNegative(b - a, 1.0 - t);
      assert (b - a) * t + (b - a) * (1.0 - t) == b - a;
      a + (b - a) * t
    else
      a + (b - a) * t
  }

  lemma ProductNonNegative(x: real, y: real)
    requires x >= 0.0 && y >= 0.0
    ensures x * y >= 0.0
  {
  }

  lemma InterpolateMonotone(a: real, b: real, t: real, u: real)
    requires a <= b && 0.0 <= t <= u <= 1.0
    ensures Interpolate(a, b, t) <= Interpolate(a, b, u)
  {
    ProductNonNegative(b - a, u - t);
    assert (b - a) * u - (b - a) * t == (b - a) * (u - t);
  }

  /** The interpolation position (n - 1) * k, in quarters of an index. */
  function Position(n: nat, k: nat): (p: nat)
    requires n > 0 && k <= 4
    ensures p / 4 < n
    ensures p % 4 != 0 ==> p / 4 + 1 < n
    ensures k == 0 ==> p == 0
    ensures k == 4 ==> p == (n - 1) * 4
  {
    var m := n - 1;
    assert m * k <= m * 4 by { assert m * 4 - m * k == m * (4 - k); }
    m * k
  }

  lemma PositionMonotone(n: nat, k1: nat, k2: nat)
    requires n > 0 && k1 <= k2 <= 4
    ensures Position(n, k1) <= Position(n, k2)
  {
    var m := n - 1;
    assert m * k2 - m * k1 == m * (k2 - k1);
  }

  /**
   * Quantile k/4 of a sorted column with pandas' default `linear` method: the
   * position (n - 1) * k / 4 is split into an index `lo` and a fraction, and
   * the value interpolates between s[lo] and s[lo + 1].
   */
  function QuarterQuantile(s: seq<real>, k: nat): (v: real)
    requires |s| > 0 && k <= 4 && Sorted(s)
    ensures s[0] <= v <= s[|s| - 1]
  {
    var pos := Position(|s|, k);
    var lo := pos / 4;
    if pos % 4 == 0 then
      assert s[0] <= s[lo] <= s[|s| - 1];
      s[lo]
    else
      assert s[0] <= s[lo] <= s[lo + 1] <= s[|s| - 1];
      Interpolate(s[lo], s[lo + 1], (pos % 4) as real / 4.0)
  }

  /** Quantiles grow with their order: P0 <= P25 <= P50 <= P75 <= P100. */
  lemma QuarterQuantileMonotone(s: seq<real>, k1: nat, k2: nat)
    requires |s| > 0 && k1 <= k2 <= 4 && Sorted(s)
    ensures QuarterQuantile(s, k1) <= QuarterQuantile(s, k2)
  {
    var p1, p2 := Position(|s|, k1), Position(|s|, k2);
    PositionMonotone(|s|, k1, k2);
    var lo1, lo2 := p1 / 4, p2 / 4;
    var t1, t2 := (p1 % 4) as real / 4.0, (p2 % 4) as real / 4.0;
    assert lo1 <= lo2;
    if lo1 == lo2 {
      if p1 % 4 != 0 && p2 % 4 != 0 {
        InterpolateMonotone(s[lo1], s[lo1 + 1], t1, t2);
      } else if p1 % 4 != 0 {
        assert false;
      }
    } else {
      assert lo1 + 1 <= lo2;
      assert s[lo1 + 1] <= s[lo2];
    }
  }

  /**
   * The value of quantile k/4: with position h = (n - 1) * k in quarters of an
   * index, the element at h / 4 when h falls on an index, and otherwise the
   * mix of that element and the next weighted by the remainder h % 4.
   */
  lemma QuarterQuantileValue(s: seq<real>, k: nat)
    requires |s| > 0 && k <= 4 && Sorted(s)
    ensures var h := (|s| - 1) * k; var lo := h / 4; var f := h % 4;
      0 <= lo < |s| && (f != 0 ==> lo + 1 < |s|) &&
      (f == 0 ==> QuarterQuantile(s, k) == s[lo]) &&
      (f != 0 ==> 4.0 * QuarterQuantile(s, k) == (4 - f) as real * s[lo] + f as real * s[lo + 1])
  {
    var h := Position(|s|, k);
    var lo, f := h / 4, h % 4;
    if f != 0 {
      InterpolateQuarters(s[lo], s[lo + 1], f);
    }
  }

  lemma InterpolateQuarters(a: real, b: real, f: nat)
    ensures 4.0 * Interpolate(a, b, f as real / 4.0) == (4 - f) as real * a + f as real * b
  {
    var t := f as real / 4.0;
    assert 4.0 * t == f as real;
    assert 4.0 * ((b - a) * t) == (b - a) * (4.0 * t);
  }

  /** pandas' quartiles of [1, 2, 3, 4] are 1.75 and 3.25. */
  lemma QuarterQuantileExample()
    ensures Sorted([1.0, 2.0, 3.0, 4.0])
    ensures QuarterQuantile([1.0, 2.0, 3.0, 4.0], 1) == 1.75
    ensures QuarterQuantile([1.0, 2.0, 3.0, 4.0], 3) == 3.25
  {
    var s := [1.0, 2.0, 3.0, 4.0];
    QuarterQuantileValue(s, 1);
    QuarterQuantileValue(s, 3);
  }

  /** Quantile at 0 and at 4/4 are the ends of the sorted column. */
  lemma QuarterQuantileEnds(s: seq<real>)
    requires |s| > 0 && Sorted(s)
    ensures QuarterQuantile(s, 0) == s[0]
    ensures QuarterQuantile(s, 4) == s[|s| - 1]
  {
  }

  /** pandas `Series.median`: quantile 0.5 of the sorted column. */
  function Median(xs: seq<real>): (m: real)
    requires |xs| > 0
    ensures Min(xs) <= m <= Max(xs)
  {
    SortEnds(xs);
    QuarterQuantile(Sort(xs), 2)
  }

  /** The five-number summary is ordered: min <= p25 <= median <= p75 <= max. */
  lemma QuartilesOrdered(xs: seq<real>)
    requires |xs| > 0
    ensures Min(xs) <= QuarterQuantile(Sort(xs), 1) <= Median(xs) <= QuarterQuantile(Sort(xs), 3) <= Max(xs)
  {
    var s := Sort(xs);
    SortEnds(xs);
    QuarterQuantileEnds(s);
    QuarterQuantileMonotone(s, 0, 1);
    QuarterQuantileMonotone(s, 1, 2);
    QuarterQuantileMonotone(s, 2, 3);
    QuarterQuantileMonotone(s, 3, 4);
  }

  /** The median is the middle element, or the average of the two middle ones. */
  lemma {:induction false} MedianIsMiddle(xs: seq<real>)
    requires |xs| > 0
    ensures var s := Sort(xs); var n := |xs|;
      Median(xs) == if n % 2 == 1 then s[n / 2] else (s[n / 2 - 1] + s[n / 2]) / 2.0
  {
    var n := |xs|;
    var pos := Position(n, 2);
    if n % 2 == 1 {
      assert pos % 4 == 0 && pos / 4 == n / 2;
    } else {
      assert pos % 4 == 2 && pos / 4 == n / 2 - 1;
    }
  }

  lemma SquareNonNegative(a: real)
    ensures a * a >= 0.0
  {
    if a < 0.0 { assert a * a == (-a) * (-a); }
  }

  function SumSquaredDeviations(xs: seq<real>, mu: real): (r: real)
    ensures r >= 0.0
  {
    if xs == [] then 0.0
    else
      SquareNonNegative(xs[0] - mu);
      (xs[0] - mu) * (xs[0] - mu) + SumSquaredDeviations(xs[1..], mu)
  }

  /**
   * pandas `Series.var()` (ddof = 1): the sum of squared deviations from the
   * mean over n - 1. pandas gives NaN, here None, for fewer than two values.
   */
  function SampleVariance(xs: seq<real>): (v: Option<real>)
    ensures v.Some? <==> |xs| >= 2
    ensures v.Some? ==> v.value >= 0.0
  {
    if |xs| < 2 then None
    else Some(SumSquaredDeviations(xs, Mean(xs)) / ((|xs| - 1) as real))
  }

  /** A column of equal values has variance zero. */
  lemma {:induction false} ConstantVariance(xs: seq<real>, c: real)
    requires |xs| >= 2
    requires forall x :: x in xs ==> x == c
    ensures SampleVariance(xs) == Some(0.0)
  {
    SumBounds(xs, c, c);
    assert Mean(xs) == c;
    ConstantDeviations(xs, c);
  }

  lemma {:induction false} ConstantDeviations(xs: seq<real>, c: real)
    requires forall x :: x in xs ==> x == c
    ensures SumSquaredDeviations(xs, c) == 0.0
  {
    if xs != [] {
      assert forall x :: x in xs[1..] ==> x in xs;
      ConstantDeviations(xs[1..], c);
      assert xs[0] in xs;
      assert (xs[0] - c) * (xs[0] - c) == 0.0;
    }
  }

  /** pandas' sample variance of [1, 3]: squared deviations 1 + 1 over n - 1 = 1. */
  lemma SampleVarianceExample()
    ensures SampleVariance([1.0, 3.0]) == Some(2.0)
  {
    var xs := [1.0, 3.0];
    assert Sum(xs) == 4.0;
    assert Mean(xs) == 2.0;
    assert xs[1..][1..] == [];
    assert SumSquaredDeviations(xs, 2.0) == 2.0;
  }

  /** A sample variance of zero means every value equals the mean. */
  lemma ZeroVarianceIsConstant(xs: seq<real>)
    requires SampleVariance(xs) == Some(0.0)
    ensures forall x :: x in xs ==> x == Mean(xs)
  {
    var d := SumSquaredDeviations(xs, Mean(xs));
    var n := (|xs| - 1) as real;
    assert d / n == 0.0;
    assert d == (d / n) * n;
    ZeroDeviations(xs, Mean(xs));
  }

  lemma {:induction false} ZeroDeviations(xs: seq<real>, mu: real)
    requires SumSquaredDeviations(xs, mu) == 0.0
    ensures forall x :: x in xs ==> x == mu
  {
    if xs != [] {
      var a := xs[0] - mu;
      var rest := SumSquaredDeviations(xs[1..], mu);
      SquareNonNegative(a);
      BothZero(a * a, rest);
      SquareZero(a, a * a);
      ZeroDeviations(xs[1..], mu);
      assert forall x :: x in xs ==> x == xs[0] || x in xs[1..];
    }
  }

  lemma BothZero(t: real, rest: real)
    requires t >= 0.0 && rest >= 0.0 && t + rest == 0.0
    ensures t == 0.0 && rest == 0.0
  {
  }

  /** Only zero squares to zero; the square is passed in so that the solver keeps it as one term. */
  lemma SquareZero(a: real, sq: real)
    requires sq == a * a && sq == 0.0
    ensures a == 0.0
  {
    if a > 0.0 {
      ProductPositive(a, a, sq);
    } else if a < 0.0 {
      NegatedSquare(a, -a);
      ProductPositive(-a, -a, sq);
    }
  }

  lemma ProductPositive(x: real, y: real, p: real)
    requires x > 0.0 && y > 0.0 && p == x * y
    ensures p > 0.0
  {
  }

  lemma NegatedSquare(a: real, b: real)
    requires b == -a
    ensures b * b == a * a
  {
  }

  /**
   * `calcular_diferenca_percentual`: the change from `previous` to `current`
   * in percent of `previous`, and 0 when `previous` is 0.
   */
  function PercentDiff(current: real, previous: real): (r: real)
    ensures previous == 0.0 ==> r == 0.0
    ensures previous != 0.0 ==> r * previous == (current - previous) * 100.0
  {
    if previous == 0.0 then 0.0 else (current - previous) / previous * 100.0
  }

  /** Against a positive baseline the sign of the difference says which value is larger. */
  lemma PercentDiffSign(current: real, previous: real)
    requires previous > 0.0
    ensures PercentDiff(current, previous) > 0.0 <==> current > previous
    ensures PercentDiff(current, previous) == 0.0 <==> current == previous
    ensures PercentDiff(current, previous) < 0.0 <==> current < previous
  {
    var r := PercentDiff(current, previous);
    assert r * previous == (current - previous) * 100.0;
    if r > 0.0 { assert r * previous > 0.0; }
    if r < 0.0 { assert r * previous < 0.0; }
  }
}
