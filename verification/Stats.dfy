/** Baseline distributions: percentiles, the three-sigma comparison, and how both react to
    reordering and to a pointwise shift of the samples. Reals stand in for floats, and a
    standard deviation is a non-negative number whose square is the variance. */
module Stats {
  import opened Prelude
  import opened Sorting

  predicate RealLeq(x: real, y: real) {
    x <= y
  }

  predicate Ascending(s: seq<real>) {
    forall i, j | 0 <= i < j < |s| :: s[i] <= s[j]
  }

  /** Linear interpolation between the two samples around rank `pct * (n - 1)`. */
  function Percentile(s: seq<real>, pct: real): real
    requires s != [] && 0.0 <= pct <= 1.0
  {
    if |s| == 1 then s[0]
    else AtRank(s, Rank(|s|, pct))
  }

  function Rank(n: nat, pct: real): (r: real)
    requires n > 1 && 0.0 <= pct <= 1.0
    ensures 0.0 <= r <= (n - 1) as real
  {
    pct * (n - 1) as real
  }

  function AtRank(s: seq<real>, rank: real): real
    requires |s| > 1 && 0.0 <= rank <= (|s| - 1) as real
  {
    var lo := rank.Floor;
    var hi := if lo + 1 <= |s| - 1 then lo + 1 else |s| - 1;
    var frac := rank - lo as real;
    s[lo] * (1.0 - frac) + s[hi] * frac
  }

  function Mean(s: seq<real>): real
    requires s != []
  {
    Sum(s) / |s| as real
  }

  function SquaredDeviations(s: seq<real>, m: real): real {
    if s == [] then 0.0 else (s[0] - m) * (s[0] - m) + SquaredDeviations(s[1..], m)
  }

  /** The population variance. */
  function Variance(s: seq<real>): real
    requires s != []
  {
    SquaredDeviations(s, Mean(s)) / |s| as real
  }

  /** The distribution of a non-empty list of samples, minus the raw samples. */
  datatype Summary = Summary(mean: real, p50: real, p95: real, p99: real, variance: real)

  function FromSamples(samples: seq<real>): Option<Summary> {
    if samples == [] then None
    else
      var s := Sort(samples, RealLeq);
      SortLength(samples);
      Some(Summary(Mean(s), Percentile(s, 0.5), Percentile(s, 0.95), Percentile(s, 0.99), Variance(s)))
  }

  lemma SortLength(samples: seq<real>)
    ensures |Sort(samples, RealLeq)| == |samples|
  {
    SortMultiset(samples, RealLeq);
  }

  lemma RealOrder()
    ensures TotalOrder(RealLeq)
  {
  }

  lemma SortAscending(samples: seq<real>)
    ensures Ascending(Sort(samples, RealLeq))
  {
    RealOrder();
    SortOrdered(samples, RealLeq);
    forall i, j | 0 <= i < j < |Sort(samples, RealLeq)|
      ensures Sort(samples, RealLeq)[i] <= Sort(samples, RealLeq)[j]
    {
      assert RealLeq(Sort(samples, RealLeq)[i], Sort(samples, RealLeq)[j]);
    }
  }

  /** The order in which the samples were taken does not matter. */
  lemma SummaryIgnoresOrder(a: seq<real>, b: seq<real>)
    requires multiset(a) == multiset(b)
    ensures FromSamples(a) == FromSamples(b)
  {
    RealOrder();
    SortPermutation(a, b, RealLeq);
    assert a == [] <==> multiset(a) == multiset{};
    assert b == [] <==> multiset(b) == multiset{};
    assert |a| == |multiset(a)|;
    assert |b| == |multiset(b)|;
  }

  // ----- percentiles: bounds, monotone in the rank, monotone in the samples -------------------

  lemma ScaleMonotone(x: real, y: real, f: real)
    requires x <= y && 0.0 <= f
    ensures x * f <= y * f
  {
    assert (y - x) * f >= 0.0;
  }

  lemma Interpolation(a: real, b: real, f: real)
    ensures a * (1.0 - f) + b * f == a + (b - a) * f
  {
  }

  lemma Between(a: real, b: real, f: real)
    requires a <= b && 0.0 <= f <= 1.0
    ensures a <= a * (1.0 - f) + b * f <= b
  {
    Interpolation(a, b, f);
    ScaleMonotone(0.0, f, b - a);
    ScaleMonotone(f, 1.0, b - a);
  }

  lemma BetweenMonotone(a: real, b: real, f: real, g: real)
    requires a <= b && 0.0 <= f <= g <= 1.0
    ensures a * (1.0 - f) + b * f <= a * (1.0 - g) + b * g
  {
    Interpolation(a, b, f);
    Interpolation(a, b, g);
    ScaleMonotone(f, g, b - a);
  }

  lemma WeightedDominated(a: real, b: real, c: real, d: real, f: real, g: real)
    requires a <= c && b <= d && 0.0 <= f && 0.0 <= g
    ensures a * g + b * f <= c * g + d * f
  {
    ScaleMonotone(a, c, g);
    ScaleMonotone(b, d, f);
  }

  lemma AtRankBetween(s: seq<real>, rank: real)
    requires |s| > 1 && Ascending(s) && 0.0 <= rank <= (|s| - 1) as real
    ensures var lo := rank.Floor;
            0 <= lo < |s| && s[lo] <= AtRank(s, rank) <= (if lo + 1 < |s| then s[lo + 1] else s[lo])
  {
    var lo := rank.Floor;
    Between(s[lo], s[if lo + 1 < |s| then lo + 1 else |s| - 1], rank - lo as real);
  }

  lemma AtRankMonotone(s: seq<real>, p: real, q: real)
    requires |s| > 1 && Ascending(s) && 0.0 <= p <= q <= (|s| - 1) as real
    ensures AtRank(s, p) <= AtRank(s, q)
  {
    if p.Floor == q.Floor {
      var lo := p.Floor;
      BetweenMonotone(s[lo], s[if lo + 1 < |s| then lo + 1 else |s| - 1], p - lo as real, q - lo as real);
    } else {
      AtRankBetween(s, p);
      AtRankBetween(s, q);
      assert p.Floor + 1 <= q.Floor;
    }
  }

  lemma RankMonotone(n: nat, p: real, q: real)
    requires n > 1 && 0.0 <= p <= q <= 1.0
    ensures Rank(n, p) <= Rank(n, q)
  {
    var m := (n - 1) as real;
    assert (q - p) * m == q * m - p * m;
    assert (q - p) * m >= 0.0;
  }

  lemma AscendingPercentiles(s: seq<real>, p: real, q: real)
    requires s != [] && Ascending(s) && 0.0 <= p <= q <= 1.0
    ensures s[0] <= Percentile(s, p) <= Percentile(s, q) <= s[|s| - 1]
  {
    if |s| > 1 {
      RankMonotone(|s|, p, q);
      var rp, rq := Rank(|s|, p), Rank(|s|, q);
      AtRankMonotone(s, rp, rq);
      AtRankBetween(s, rp);
      AtRankBetween(s, rq);
    }
  }

  lemma SortExtremes(samples: seq<real>)
    requires samples != []
    ensures var s := Sort(samples, RealLeq);
            |s| == |samples| && Ascending(s) && forall x | x in samples :: s[0] <= x <= s[|s| - 1]
  {
    SortLength(samples);
    SortAscending(samples);
    SortMembers(samples, RealLeq);
    assert forall x | x in samples :: x in Sort(samples, RealLeq);
  }

  /** For every sample set and every percentile: the value lies between the extreme samples
      and grows with the percentile, so p50 <= p95 <= p99. */
  lemma PercentilesBoundedAndMonotone(samples: seq<real>, p: real, q: real)
    requires samples != [] && 0.0 <= p <= q <= 1.0
    ensures var s := Sort(samples, RealLeq);
            && |s| == |samples|
            && s[0] <= Percentile(s, p) <= Percentile(s, q) <= s[|s| - 1]
            && forall x | x in samples :: s[0] <= x <= s[|s| - 1]
  {
    SortExtremes(samples);
    AscendingPercentiles(Sort(samples, RealLeq), p, q);
  }

  /** Between two neighbouring ranks a percentile is on the line through their samples: at rank k + f of
      the n - 1 steps it is the part f of the way from sample k to the next, and at the last rank the
      largest sample. */
  lemma PercentileInterpolates(s: seq<real>, pct: real, k: nat, f: real)
    requires s != [] && 0.0 <= pct <= 1.0 && k < |s| && 0.0 <= f < 1.0 && pct * (|s| - 1) as real == k as real + f
    ensures k == |s| - 1 ==> f == 0.0 && Percentile(s, pct) == s[k]
    ensures k < |s| - 1 ==> Percentile(s, pct) == s[k] + (s[k + 1] - s[k]) * f
  {
    if |s| > 1 {
      assert Rank(|s|, pct) == k as real + f && (k as real + f).Floor == k;
      if k < |s| - 1 {
        Interpolation(s[k], s[k + 1], f);
      }
    } else {
      assert pct * 0.0 == 0.0;
    }
  }

  /** The same with the percentage in whole hundredths: k whole steps and m hundredths of the next. */
  lemma PercentileOfHundred(s: seq<real>, percent: nat, k: nat, m: nat)
    requires s != [] && percent <= 100 && percent * (|s| - 1) == 100 * k + m && m < 100
    ensures k < |s| && 0.0 <= percent as real / 100.0 <= 1.0
    ensures k == |s| - 1 ==> m == 0 && Percentile(s, percent as real / 100.0) == s[k]
    ensures k < |s| - 1 ==> Percentile(s, percent as real / 100.0) == s[k] + (s[k + 1] - s[k]) * (m as real / 100.0)
  {
    HundredthsOf(percent, |s| - 1, k, m);
    PercentileInterpolates(s, percent as real / 100.0, k, m as real / 100.0);
  }

  lemma HundredthsOf(percent: nat, n: nat, k: nat, m: nat)
    requires percent <= 100 && percent * n == 100 * k + m
    ensures k <= n && percent as real / 100.0 * n as real == k as real + m as real / 100.0
  {
    CastProduct(percent, n);
    ProductMonotone(percent, 100, n);
    var x, r, t := percent as real, n as real, (100 * k + m) as real;
    assert x * r == t;
    HundredthOfProduct(x, r, t);
  }

  lemma {:induction false} CastProduct(a: nat, b: nat)
    ensures a as real * b as real == (a * b) as real
  {
    if a > 0 {
      CastProduct(a - 1, b);
      assert a as real * b as real == (a - 1) as real * b as real + b as real;
      assert a * b == (a - 1) * b + b;
    }
  }

  lemma ProductMonotone(a: nat, b: nat, n: nat)
    requires a <= b
    ensures a * n <= b * n
  {
  }

  lemma HundredthOfProduct(x: real, r: real, t: real)
    requires x * r == t
    ensures x / 100.0 * r == t / 100.0
  {
  }

  /** What a summary reads: nothing without samples; otherwise the mean and the variance of the samples, in
      whatever order, and the 50th, 95th and 99th percentile of the samples in ascending order. */
  lemma SummaryReads(samples: seq<real>)
    ensures FromSamples(samples).None? <==> samples == []
    ensures samples != [] ==>
      var x, s := FromSamples(samples).value, Sort(samples, RealLeq);
      && s != [] && Ascending(s) && multiset(s) == multiset(samples) && Moments(s, x.mean, x.variance)
      && x.p50 == Percentile(s, 50.0 / 100.0) && x.p95 == Percentile(s, 95.0 / 100.0)
      && x.p99 == Percentile(s, 99.0 / 100.0) && x.p50 <= x.p95 <= x.p99
  {
    if samples != [] {
      SortMultiset(samples, RealLeq);
      SortExtremes(samples);
      var s := Sort(samples, RealLeq);
      MeanAndVariance(s);
      AscendingPercentiles(s, 0.5, 0.95);
      AscendingPercentiles(s, 0.95, 0.99);
    }
  }

  /** Sample by sample, `hi` is at least `lo`. */
  predicate Dominated(lo: seq<real>, hi: seq<real>) {
    |lo| == |hi| && forall i | 0 <= i < |lo| :: lo[i] <= hi[i]
  }

  lemma InsertFront(x: real, s: seq<real>)
    requires Ascending(s) && (s != [] ==> x <= s[0])
    ensures Insert(x, s, RealLeq) == [x] + s
  {
    assert [x] + [] == [x];
  }

  lemma ConsDominated(x: real, u: seq<real>, y: real, v: seq<real>)
    requires x <= y && Dominated(u, v)
    ensures Dominated([x] + u, [y] + v)
  {
  }

  lemma TailAscending(s: seq<real>)
    requires s != [] && Ascending(s)
    ensures Ascending(s[1..])
  {
  }

  lemma {:induction false} InsertDominated(a: real, s: seq<real>, b: real, t: seq<real>)
    requires Ascending(s) && Ascending(t) && Dominated(s, t) && a <= b
    ensures Dominated(Insert(a, s, RealLeq), Insert(b, t, RealLeq))
    decreases |s|
  {
    if s == [] {
      ConsDominated(a, s, b, t);
    } else {
      var s', t' := s[1..], t[1..];
      TailAscending(s);
      TailAscending(t);
      if a <= s[0] && b <= t[0] {
        ConsDominated(a, s, b, t);
      } else if a <= s[0] {
        InsertFront(s[0], s');
        InsertDominated(s[0], s', b, t');
        ConsDominated(a, [s[0]] + s', t[0], Insert(b, t', RealLeq));
        assert s == [s[0]] + s';
      } else if b <= t[0] {
        InsertFront(t[0], t');
        InsertDominated(a, s', t[0], t');
        ConsDominated(s[0], Insert(a, s', RealLeq), b, [t[0]] + t');
        assert t == [t[0]] + t';
      } else {
        InsertDominated(a, s', b, t');
        ConsDominated(s[0], Insert(a, s', RealLeq), t[0], Insert(b, t', RealLeq));
      }
    }
  }

  /** Raising samples one by one raises the sorted list position by position. */
  lemma {:induction false} SortDominated(lo: seq<real>, hi: seq<real>)
    requires Dominated(lo, hi)
    ensures Dominated(Sort(lo, RealLeq), Sort(hi, RealLeq))
  {
    if lo != [] {
      SortDominated(lo[1..], hi[1..]);
      SortAscending(lo[1..]);
      SortAscending(hi[1..]);
      InsertDominated(lo[0], Sort(lo[1..], RealLeq), hi[0], Sort(hi[1..], RealLeq));
    }
  }

  lemma {:induction false} SumDominated(lo: seq<real>, hi: seq<real>)
    requires Dominated(lo, hi)
    ensures Sum(lo) <= Sum(hi)
  {
    if lo != [] {
      SumDominated(lo[1..], hi[1..]);
    }
  }

  lemma DivideMonotone(a: real, b: real, n: real)
    requires a <= b && n > 0.0
    ensures a / n <= b / n
  {
  }

  lemma DominatedPercentile(s: seq<real>, t: seq<real>, pct: real)
    requires s != [] && Dominated(s, t) && 0.0 <= pct <= 1.0
    ensures Percentile(s, pct) <= Percentile(t, pct)
  {
    if |s| > 1 {
      DominatedAtRank(s, t, Rank(|s|, pct));
    }
  }

  lemma DominatedAtRank(s: seq<real>, t: seq<real>, rank: real)
    requires |s| > 1 && Dominated(s, t) && 0.0 <= rank <= (|s| - 1) as real
    ensures AtRank(s, rank) <= AtRank(t, rank)
  {
    var l := rank.Floor;
    var h := if l + 1 <= |s| - 1 then l + 1 else |s| - 1;
    WeightedDominated(s[l], s[h], t[l], t[h], rank - l as real, 1.0 - (rank - l as real));
  }

  lemma DominatedMean(s: seq<real>, t: seq<real>)
    requires s != [] && Dominated(s, t)
    ensures Mean(s) <= Mean(t)
  {
    SumDominated(s, t);
    DivideMonotone(Sum(s), Sum(t), |s| as real);
  }

  /** If every sample rises, the mean and every percentile rise or stay. */
  lemma SummaryMonotone(lo: seq<real>, hi: seq<real>, pct: real)
    requires lo != [] && Dominated(lo, hi) && 0.0 <= pct <= 1.0
    ensures var s, t := Sort(lo, RealLeq), Sort(hi, RealLeq);
            |s| == |t| == |lo| && Mean(s) <= Mean(t) && Percentile(s, pct) <= Percentile(t, pct)
  {
    SortLength(lo);
    SortLength(hi);
    SortDominated(lo, hi);
    DominatedMean(Sort(lo, RealLeq), Sort(hi, RealLeq));
    DominatedPercentile(Sort(lo, RealLeq), Sort(hi, RealLeq), pct);
  }

  // ----- the three-sigma test -----------------------------------------------------------------

  /** The tester's comparison of a new mean with a baseline. */
  predicate Shifted(newMean: real, mean: real, stdev: real) {
    stdev != 0.0 && Abs(newMean - mean) / stdev > 3.0
  }

  function Abs(x: real): real {
    if x < 0.0 then -x else x
  }

  lemma QuotientAbove(d: real, stdev: real)
    requires stdev > 0.0
    ensures d / stdev > 3.0 <==> d > 3.0 * stdev
  {
    var q := d / stdev;
    assert d == q * stdev;
    assert (q - 3.0) * stdev == q * stdev - 3.0 * stdev;
    if q > 3.0 {
      assert (q - 3.0) * stdev > 0.0;
    } else {
      assert (q - 3.0) * stdev <= 0.0;
    }
  }

  lemma SquareAbove(d: real, b: real)
    requires d >= 0.0 && b >= 0.0
    ensures d > b <==> d * d > b * b
  {
    assert d * d - b * b == (d - b) * (d + b);
    if d > b {
      PositiveProduct(d - b, d + b);
    } else {
      assert (b - d) * (d + b) >= 0.0;
    }
  }

  lemma PositiveProduct(a: real, b: real)
    requires a > 0.0 && b > 0.0
    ensures a * b > 0.0
  {
  }

  /** The same test without the square root. */
  predicate Flagged(newMean: real, mean: real, variance: real) {
    variance != 0.0 && (newMean - mean) * (newMean - mean) > 9.0 * variance
  }

  /** Whatever number serves as the standard deviation, the code's test is the squared one. */
  lemma ShiftedIffFlagged(newMean: real, mean: real, stdev: real)
    requires stdev >= 0.0
    ensures Shifted(newMean, mean, stdev) <==> Flagged(newMean, mean, stdev * stdev)
  {
    if stdev > 0.0 {
      var d := Abs(newMean - mean);
      assert d * d == (newMean - mean) * (newMean - mean);
      QuotientAbove(d, stdev);
      SquareAbove(d, 3.0 * stdev);
      assert (3.0 * stdev) * (3.0 * stdev) == 9.0 * (stdev * stdev);
      assert stdev * stdev > 0.0;
    }
  }

  /** In other words: there is some deviation, and the new mean is more than three of it away on either side. */
  lemma ShiftedIffFar(newMean: real, mean: real, stdev: real)
    requires stdev >= 0.0
    ensures Shifted(newMean, mean, stdev) <==>
      stdev != 0.0 && (newMean - mean > 3.0 * stdev || mean - newMean > 3.0 * stdev)
  {
    if stdev > 0.0 {
      QuotientAbove(Abs(newMean - mean), stdev);
    }
  }

  function Deviations(s: seq<real>, m: real): seq<real> {
    seq(|s|, i requires 0 <= i < |s| => s[i] - m)
  }

  function SumSquares(d: seq<real>): real {
    if d == [] then 0.0 else d[0] * d[0] + SumSquares(d[1..])
  }

  lemma {:induction false} DeviationsAddUp(s: seq<real>, m: real)
    ensures Sum(Deviations(s, m)) == Sum(s) - |s| as real * m
    ensures SumSquares(Deviations(s, m)) == SquaredDeviations(s, m)
  {
    if s != [] {
      DeviationsAddUp(s[1..], m);
      assert Deviations(s, m)[1..] == Deviations(s[1..], m);
      assert Sum(s) - |s| as real * m == (s[0] - m) + (Sum(s[1..]) - |s[1..]| as real * m);
    }
  }

  lemma {:induction false} SumSquaresNonNegative(d: seq<real>)
    ensures SumSquares(d) >= 0.0
  {
    if d != [] {
      SumSquaresNonNegative(d[1..]);
      assert d[0] * d[0] >= 0.0;
    }
  }

  lemma NonzeroSquare(s: real)
    requires s != 0.0
    ensures s * s > 0.0
  {
    if s > 0.0 {
      PositiveProduct(s, s);
    } else {
      PositiveProduct(-s, -s);
      assert (-s) * (-s) == s * s;
    }
  }

  lemma SquareOfSum(s: real, x: real, m: real, q: real)
    requires m >= 0.0 && s * s <= m * q && q >= 0.0
    ensures (s + x) * (s + x) <= (m + 1.0) * (q + x * x)
  {
    assert (s + x) * (s + x) == s * s + 2.0 * s * x + x * x;
    assert (m + 1.0) * (q + x * x) == m * q + q + m * (x * x) + x * x;
    if m == 0.0 {
      assert m * q == 0.0;
      if s != 0.0 {
        NonzeroSquare(s);
      }
    } else {
      TwiceProduct(s, x, m, q);
    }
  }

  lemma TwiceProduct(s: real, x: real, m: real, q: real)
    requires m > 0.0 && s * s <= m * q
    ensures 2.0 * s * x <= q + m * (x * x)
  {
    var d := s - m * x;
    assert d * d >= 0.0;
    assert d * d == s * s - 2.0 * m * s * x + m * m * (x * x) by {
      assert d * d == s * s - s * (m * x) - (m * x) * s + (m * x) * (m * x);
      assert (m * x) * (m * x) == m * m * (x * x);
      assert s * (m * x) == m * s * x;
    }
    assert m * (2.0 * s * x) <= m * (q + m * (x * x)) by {
      assert m * (2.0 * s * x) == 2.0 * m * s * x;
      assert m * (q + m * (x * x)) == m * q + m * m * (x * x);
    }
  }

  /** Cauchy-Schwarz against the all-ones vector. */
  lemma {:induction false} SquareOfSumBounded(d: seq<real>)
    ensures Sum(d) * Sum(d) <= |d| as real * SumSquares(d)
  {
    if d != [] {
      SquareOfSumBounded(d[1..]);
      SumSquaresNonNegative(d[1..]);
      SquareOfSum(Sum(d[1..]), d[0], |d[1..]| as real, SumSquares(d[1..]));
      assert d[0] + Sum(d[1..]) == Sum(d[1..]) + d[0];
      assert (|d[1..]| as real + 1.0) == |d| as real;
      assert SumSquares(d) == SumSquares(d[1..]) + d[0] * d[0];
    }
  }

  lemma {:induction false} SumWithout(d: seq<real>, k: nat)
    requires k < |d|
    ensures Sum(d) == d[k] + Sum(d[..k] + d[k + 1..])
    ensures SumSquares(d) == d[k] * d[k] + SumSquares(d[..k] + d[k + 1..])
  {
    var rest := d[..k] + d[k + 1..];
    if k == 0 {
      assert rest == d[1..];
    } else {
      SumWithout(d[1..], k - 1);
      assert rest[1..] == d[1..][..k - 1] + d[1..][k..];
      assert rest[0] == d[0];
    }
  }

  /** `m` and `v` are the mean and the variance of `s`, without a division. */
  ghost predicate Moments(s: seq<real>, m: real, v: real) {
    Sum(Deviations(s, m)) == 0.0 && SumSquares(Deviations(s, m)) == |s| as real * v
  }

  lemma MeanAndVariance(s: seq<real>)
    requires s != []
    ensures Moments(s, Mean(s), Variance(s))
  {
    DeviationsAddUp(s, Mean(s));
    assert |s| as real * (Sum(s) / |s| as real) == Sum(s);
    assert |s| as real * (SquaredDeviations(s, Mean(s)) / |s| as real) == SquaredDeviations(s, Mean(s));
  }

  /** Samuelson's inequality: no sample is further from the mean than `sqrt(n - 1)` standard
      deviations. */
  lemma SampleWithinBounds(s: seq<real>, m: real, v: real, k: nat)
    requires k < |s| && Moments(s, m, v)
    ensures (s[k] - m) * (s[k] - m) <= (|s| - 1) as real * v
  {
    var d := Deviations(s, m);
    SumWithout(d, k);
    var rest := d[..k] + d[k + 1..];
    SquareOfSumBounded(rest);
    OneAgainstTheRest(d[k], Sum(rest), SumSquares(rest), |s| as real, v);
  }

  lemma OneAgainstTheRest(x: real, sum: real, squares: real, n: real, v: real)
    requires n >= 1.0 && x + sum == 0.0 && sum * sum <= (n - 1.0) * squares
    requires x * x + squares == n * v
    ensures x * x <= (n - 1.0) * v
  {
    assert sum == -x && sum * sum == x * x;
    assert n * (x * x) <= (n - 1.0) * (x * x + squares) by {
      assert n * (x * x) == (n - 1.0) * (x * x) + x * x;
      assert (n - 1.0) * (x * x + squares) == (n - 1.0) * (x * x) + (n - 1.0) * squares;
    }
    assert (n - 1.0) * (n * v) == n * ((n - 1.0) * v);
    CancelLeft(x * x, (n - 1.0) * v, n);
  }

  lemma CancelLeft(a: real, b: real, n: real)
    requires n > 0.0 && n * a <= n * b
    ensures a <= b
  {
    assert n * (a - b) == n * a - n * b;
    if a > b {
      PositiveProduct(n, a - b);
    }
  }

  lemma SquareBetween(a: real, x: real, b: real, bound: real)
    requires a <= x <= b && a * a <= bound && b * b <= bound
    ensures x * x <= bound
  {
    if x >= 0.0 {
      assert x * x <= b * b;
    } else {
      assert x * x <= a * a by {
        assert (-x) * (-x) <= (-a) * (-a);
      }
    }
  }

  /** A value between two samples obeys the same bound. */
  lemma InRangeWithinBounds(s: seq<real>, m: real, v: real, i: nat, k: nat, x: real)
    requires i < |s| && k < |s| && s[i] <= x <= s[k] && Moments(s, m, v)
    ensures (x - m) * (x - m) <= (|s| - 1) as real * v
  {
    SampleWithinBounds(s, m, v, i);
    SampleWithinBounds(s, m, v, k);
    SquareBetween(s[i] - m, x - m, s[k] - m, (|s| - 1) as real * v);
  }

  lemma VarianceNonNegative(s: seq<real>, m: real, v: real)
    requires s != [] && Moments(s, m, v)
    ensures v >= 0.0
  {
    SumSquaresNonNegative(Deviations(s, m));
    assert |s| as real * (-v) == -(|s| as real * v);
    if v < 0.0 {
      PositiveProduct(|s| as real, -v);
    }
  }

  ghost predicate InRange(x: real, s: seq<real>) {
    exists i, k | 0 <= i < |s| && 0 <= k < |s| :: s[i] <= x <= s[k]
  }

  lemma RangeNotFlagged(s: seq<real>, m: real, v: real, x: real)
    requires 1 <= |s| <= 10 && InRange(x, s) && Moments(s, m, v)
    ensures !Flagged(x, m, v)
  {
    var i, k :| 0 <= i < |s| && 0 <= k < |s| && s[i] <= x <= s[k];
    VarianceNonNegative(s, m, v);
    InRangeWithinBounds(s, m, v, i, k, x);
    NotFlagged(x, m, v, (|s| - 1) as real);
  }

  lemma NotFlagged(x: real, m: real, v: real, c: real)
    requires c <= 9.0 && v >= 0.0 && (x - m) * (x - m) <= c * v
    ensures !Flagged(x, m, v)
  {
    assert (9.0 - c) * v == 9.0 * v - c * v;
    assert (9.0 - c) * v >= 0.0;
  }

  /** No baseline of up to ten samples lets the test flag a mean inside its own range. */
  lemma SmallBaselineNeverFlagsItsRange(s: seq<real>, x: real, stdev: real)
    requires 1 <= |s| <= 10 && InRange(x, s)
    requires stdev >= 0.0 && stdev * stdev == Variance(s)
    ensures !Shifted(x, Mean(s), stdev)
  {
    ShiftedIffFlagged(x, Mean(s), stdev);
    MeanAndVariance(s);
    RangeNotFlagged(s, Mean(s), Variance(s), x);
  }

  /** `n - 1` zeros and one spike of height `n`. */
  function Spike(n: nat): seq<real>
    requires n > 0
  {
    [n as real] + Zeros(n - 1)
  }

  function Zeros(n: nat): seq<real> {
    seq(n, _ => 0.0)
  }

  lemma {:induction false} ZeroSums(n: nat, m: real)
    ensures Sum(Zeros(n)) == 0.0
    ensures SquaredDeviations(Zeros(n), m) == n as real * (m * m)
  {
    if n > 0 {
      ZeroSums(n - 1, m);
      assert Zeros(n)[1..] == Zeros(n - 1);
      assert (0.0 - m) * (0.0 - m) == m * m;
      assert n as real * (m * m) == m * m + (n - 1) as real * (m * m);
    }
  }

  lemma SpikeMoments(n: nat)
    requires n > 0
    ensures Mean(Spike(n)) == 1.0 && Variance(Spike(n)) == (n - 1) as real
  {
    var s, r := Spike(n), n as real;
    SpikeSums(n);
    QuotientIs(Sum(s), 1.0, r);
    QuotientIs(SquaredDeviations(s, 1.0), r - 1.0, r);
  }

  lemma SpikeSums(n: nat)
    requires n > 0
    ensures Sum(Spike(n)) == n as real
    ensures SquaredDeviations(Spike(n), 1.0) == (n as real - 1.0) * n as real
  {
    var s, r := Spike(n), n as real;
    ZeroSums(n - 1, 1.0);
    assert s[1..] == Zeros(n - 1) && s[0] == r;
    SquarePlusItself(r - 1.0, r);
  }

  lemma QuotientIs(x: real, a: real, r: real)
    requires r > 0.0 && x == a * r
    ensures x / r == a
  {
  }

  lemma SquarePlusItself(a: real, r: real)
    requires r == a + 1.0
    ensures a * a + a * (1.0 * 1.0) == a * r
  {
  }

  /** Ten is exact: baselines of `n` samples never flag a mean inside their range if and only
      if `n` is at most ten. */
  lemma NeverFlagsItsRangeIffAtMostTen(n: nat)
    requires n > 0
    ensures n <= 10 <==>
      forall s, x | |s| == n && InRange(x, s) :: !Flagged(x, Mean(s), Variance(s))
  {
    if n <= 10 {
      forall s, x | |s| == n && InRange(x, s) ensures !Flagged(x, Mean(s), Variance(s)) {
        MeanAndVariance(s);
        RangeNotFlagged(s, Mean(s), Variance(s), x);
      }
    } else {
      var s, r := Spike(n), n as real;
      SpikeMoments(n);
      assert s[0] == r && InRange(r, s);
      assert (r - 1.0) * (r - 1.0) > 9.0 * (r - 1.0);
      assert Flagged(r, Mean(s), Variance(s));
    }
  }
}
