/** Order statistics and tail averages of a sample, lower values being worse. */
module Distribution {
  import opened Wrappers
  import opened Arith
  import opened Moments

  ghost predicate Ascending(s: seq<real>) {
    forall i, j :: 0 <= i <= j < |s| ==> s[i] <= s[j]
  }

  // ----- Sorting a copy -----

  function Insert(s: seq<real>, x: real): seq<real> {
    if s == [] || s[|s| - 1] <= x then s + [x] else Insert(s[..|s| - 1], x) + [s[|s| - 1]]
  }

  function Sorted(xs: seq<real>): seq<real> {
    if xs == [] then [] else Insert(Sorted(xs[..|xs| - 1]), xs[|xs| - 1])
  }

  lemma {:induction false} InsertPermutes(s: seq<real>, x: real)
    ensures multiset(Insert(s, x)) == multiset(s) + multiset{x} && |Insert(s, x)| == |s| + 1
  {
    if s == [] || s[|s| - 1] <= x {
    } else {
      InsertPermutes(s[..|s| - 1], x);
      assert s == s[..|s| - 1] + [s[|s| - 1]];
    }
  }

  lemma {:induction false} InsertSum(s: seq<real>, x: real)
    ensures Sum(Insert(s, x)) == Sum(s) + x
  {
    if s == [] || s[|s| - 1] <= x {
      SumSnoc(s, x);
    } else {
      InsertSum(s[..|s| - 1], x);
      SumSnoc(Insert(s[..|s| - 1], x), s[|s| - 1]);
    }
  }

  /** Insertion keeps the order, and nothing in the result exceeds what bounds the sequence and the new value. */
  lemma {:induction false} InsertAscends(s: seq<real>, x: real, high: real)
    requires Ascending(s) && x <= high && forall i :: 0 <= i < |s| ==> s[i] <= high
    ensures Ascending(Insert(s, x)) && forall i :: 0 <= i < |Insert(s, x)| ==> Insert(s, x)[i] <= high
  {
    if s == [] || s[|s| - 1] <= x {
    } else {
      InsertAscends(s[..|s| - 1], x, s[|s| - 1]);
    }
  }

  lemma {:induction false} SortedIsPermutation(xs: seq<real>)
    ensures multiset(Sorted(xs)) == multiset(xs) && |Sorted(xs)| == |xs|
  {
    if xs != [] {
      hide Insert;
      var n := |xs| - 1;
      SortedIsPermutation(xs[..n]);
      InsertPermutes(Sorted(xs[..n]), xs[n]);
      assert xs == xs[..n] + [xs[n]];
    }
  }

  lemma {:induction false} SortedKeepsSum(xs: seq<real>)
    ensures Sum(Sorted(xs)) == Sum(xs)
  {
    if xs != [] {
      hide Insert;
      SortedKeepsSum(xs[..|xs| - 1]);
      InsertSum(Sorted(xs[..|xs| - 1]), xs[|xs| - 1]);
    }
  }

  lemma {:induction false} SortedAscends(xs: seq<real>)
    ensures Ascending(Sorted(xs))
  {
    if xs != [] {
      hide Insert;
      var s, x := Sorted(xs[..|xs| - 1]), xs[|xs| - 1];
      SortedAscends(xs[..|xs| - 1]);
      InsertAscends(s, x, if s == [] then x else Max(x, s[|s| - 1]));
    }
  }

  lemma SortedIsAscendingPermutation(xs: seq<real>)
    ensures Ascending(Sorted(xs)) && multiset(Sorted(xs)) == multiset(xs)
    ensures |Sorted(xs)| == |xs| && Sum(Sorted(xs)) == Sum(xs)
  {
    hide Sorted;
    SortedIsPermutation(xs);
    SortedKeepsSum(xs);
    SortedAscends(xs);
  }

  // ----- Percentiles -----

  function Ceiling(x: real): int {
    -((-x).Floor)
  }

  /** Linear interpolation at a continuous rank. */
  function AtRank(s: seq<real>, rank: real): real
    requires 0.0 <= rank <= (|s| - 1) as real
  {
    var lo := rank.Floor;
    var hi := if Ceiling(rank) <= |s| - 1 then Ceiling(rank) else |s| - 1;
    s[lo] + Times(rank - lo as real, s[hi] - s[lo])
  }

  function Rank(n: nat, p: real): (r: real)
    requires n > 0 && 0.0 <= p <= 100.0
    ensures 0.0 <= r <= (n - 1) as real
  {
    assert 0.0 <= p / 100.0 <= 1.0;
    RankFits(p / 100.0, (n - 1) as real);
    Times(p / 100.0, (n - 1) as real)
  }

  lemma RankFits(x: real, n: real)
    requires 0.0 <= x <= 1.0 && n >= 0.0
    ensures 0.0 <= Times(x, n) <= n
  {
    TimesMono(0.0, x, n);
    TimesMono(x, 1.0, n);
    assert Times(0.0, n) == 0.0 && Times(1.0, n) == n;
  }

  function Percentile(s: seq<real>, p: real): real
    requires s != [] && 0.0 <= p <= 100.0
  {
    if |s| == 1 then s[0] else AtRank(s, Rank(|s|, p))
  }

  lemma AtRankBetween(s: seq<real>, rank: real)
    requires Ascending(s) && 0.0 <= rank <= (|s| - 1) as real
    ensures s[rank.Floor] <= AtRank(s, rank)
    ensures rank.Floor + 1 < |s| ==> AtRank(s, rank) <= s[rank.Floor + 1]
    ensures rank.Floor + 1 >= |s| ==> AtRank(s, rank) == s[|s| - 1]
  {
    var lo := rank.Floor;
    var hi := if Ceiling(rank) <= |s| - 1 then Ceiling(rank) else |s| - 1;
    var part, rise := rank - lo as real, s[hi] - s[lo];
    TimesMono(0.0, part, rise);
    TimesMono(part, 1.0, rise);
    assert Times(0.0, rise) == 0.0 && Times(1.0, rise) == rise;
    if lo == |s| - 1 {
      assert part == 0.0;
    }
  }

  lemma AtRankRises(s: seq<real>, x: real, y: real)
    requires Ascending(s) && 0.0 <= x <= y <= (|s| - 1) as real
    ensures AtRank(s, x) <= AtRank(s, y)
  {
    if x.Floor == y.Floor {
      SameCell(s, x, y);
    } else {
      AtRankBetween(s, x);
      AtRankBetween(s, y);
      assert s[x.Floor + 1] <= s[y.Floor];
    }
  }

  lemma SameCell(s: seq<real>, x: real, y: real)
    requires Ascending(s) && 0.0 <= x <= y <= (|s| - 1) as real && x.Floor == y.Floor
    ensures AtRank(s, x) <= AtRank(s, y)
  {
    var lo := x.Floor;
    if x == lo as real {
      AtRankBetween(s, y);
      TimesZero(s[lo] - s[lo]);
      assert Ceiling(x) == lo;
    } else {
      assert Ceiling(x) == lo + 1 && Ceiling(y) == lo + 1;
      TimesMono(x - lo as real, y - lo as real, s[lo + 1] - s[lo]);
    }
  }

  /** Between two neighbouring ranks the percentile moves from one value to the next in proportion. */
  lemma PercentileInterpolates(s: seq<real>, p: real, i: nat, part: real)
    requires i + 1 < |s| && 0.0 <= part <= 1.0 && 0.0 <= p <= 100.0
    requires Times(p, (|s| - 1) as real) == 100.0 * (i as real + part)
    ensures Percentile(s, p) == Times(1.0 - part, s[i]) + Times(part, s[i + 1])
  {
    var rank := Rank(|s|, p);
    RankIs(p, (|s| - 1) as real, i as real + part);
    assert rank == i as real + part;
    hide Rank;
    if part == 1.0 {
      assert rank.Floor == i + 1 && Ceiling(rank) == i + 1;
    } else {
      assert rank.Floor == i;
      if part == 0.0 {
        assert Ceiling(rank) == i;
      } else {
        assert Ceiling(rank) == i + 1;
      }
    }
  }

  lemma RankIs(p: real, n: real, rank: real)
    requires Times(p, n) == 100.0 * rank
    ensures Times(p / 100.0, n) == rank
  {
    var q := p / 100.0;
    assert p == 100.0 * q;
    assert 100.0 * (q * n) == 100.0 * q * n;
  }

  /** A higher percentile is never a lower value, and all of them lie within the sample. */
  lemma PercentileRises(s: seq<real>, p: real, q: real)
    requires s != [] && Ascending(s) && 0.0 <= p <= q <= 100.0
    ensures s[0] <= Percentile(s, p) <= Percentile(s, q) <= s[|s| - 1]
  {
    if |s| > 1 {
      var n := |s|;
      hide AtRank, Rank;
      RankRises(n, p, q);
      AtRankRises(s, Rank(n, p), Rank(n, q));
      AtRankBetween(s, Rank(n, p));
      AtRankBetween(s, Rank(n, q));
      assert s[0] <= s[Rank(n, p).Floor];
    }
  }

  lemma RankRises(n: nat, p: real, q: real)
    requires n > 0 && 0.0 <= p <= q <= 100.0
    ensures Rank(n, p) <= Rank(n, q)
  {
    assert p / 100.0 <= q / 100.0;
    TimesMono(p / 100.0, q / 100.0, (n - 1) as real);
  }

  // ----- Tail averages -----

  function Mean(xs: seq<real>): real
    requires xs != []
  {
    Sum(xs) / (|xs| as real)
  }

  /** The values at or below a threshold, in order. */
  function AtOrBelow(s: seq<real>, threshold: real): seq<real> {
    if s == [] then []
    else
      var rest := AtOrBelow(s[..|s| - 1], threshold);
      if s[|s| - 1] <= threshold then rest + [s[|s| - 1]] else rest
  }

  function Cvar(s: seq<real>, alpha: real): real
    requires s != [] && 0.0 <= alpha <= 100.0
  {
    if |s| == 1 then s[0]
    else
      var threshold := Percentile(s, 100.0 - alpha);
      var tail := AtOrBelow(s, threshold);
      if tail == [] then threshold else Mean(tail)
  }

  method CvarSorted(s: seq<real>, alpha: real) returns (r: real)
    requires s != [] && 0.0 <= alpha <= 100.0
    ensures r == Cvar(s, alpha)
  {
    hide Sum, Percentile;
    if |s| == 1 {
      return s[0];
    }
    var threshold := Percentile(s, 100.0 - alpha);
    var sum, count := 0.0, 0;
    assert s[..0] == [];
    SumOfNothing();
    for i := 0 to |s|
      invariant var tail := AtOrBelow(s[..i], threshold); sum == Sum(tail) && count == |tail|
    {
      assert s[..i + 1][..i] == s[..i];
      SumSnoc(AtOrBelow(s[..i], threshold), s[i]);
      if s[i] <= threshold {
        sum := sum + s[i];
        count := count + 1;
      }
    }
    assert s[..|s|] == s;
    r := if count == 0 then threshold else sum / (count as real);
  }

  /** In a sorted sample the tail is a prefix; with a threshold inside the sample it is not empty. */
  lemma {:induction false} TailIsPrefix(s: seq<real>, threshold: real)
    requires Ascending(s)
    ensures var n := |AtOrBelow(s, threshold)|;
            && n <= |s| && AtOrBelow(s, threshold) == s[..n]
            && (forall i :: 0 <= i < n ==> s[i] <= threshold)
            && (forall i :: n <= i < |s| ==> s[i] > threshold)
  {
    if s != [] {
      var m := |s| - 1;
      TailIsPrefix(s[..m], threshold);
      var t := AtOrBelow(s[..m], threshold);
      assert s[..m][..|t|] == s[..|t|];
      if s[m] <= threshold {
        assert |t| == m;
        assert s[..m + 1] == s[..m] + [s[m]];
      }
    }
  }

  lemma {:induction false} SumBetween(xs: seq<real>, low: real, high: real)
    requires forall i :: 0 <= i < |xs| ==> low <= xs[i] <= high
    ensures (|xs| as real) * low <= Sum(xs) <= (|xs| as real) * high
  {
    if xs != [] {
      var n := |xs| - 1;
      SumBetween(xs[..n], low, high);
      assert (|xs| as real) == (n as real) + 1.0;
      assert (|xs| as real) * low == (n as real) * low + low;
      assert (|xs| as real) * high == (n as real) * high + high;
    }
  }

  lemma QuotientBetween(sum: real, n: real, low: real, high: real)
    requires n > 0.0 && n * low <= sum <= n * high
    ensures low <= sum / n <= high
  {
  }

  lemma MeanBetween(xs: seq<real>, low: real, high: real)
    requires xs != [] && forall i :: 0 <= i < |xs| ==> low <= xs[i] <= high
    ensures low <= Mean(xs) <= high
  {
    SumBetween(xs, low, high);
    QuotientBetween(Sum(xs), |xs| as real, low, high);
  }

  /** Averaging further into a sorted sample never lowers the mean. */
  lemma {:induction false} PrefixMeanRises(s: seq<real>, a: nat, b: nat)
    requires Ascending(s) && 0 < a <= b <= |s|
    ensures Mean(s[..a]) <= Mean(s[..b])
    decreases b - a
  {
    if a < b {
      hide Sum;
      PrefixMeanRises(s, a, b - 1);
      var n := b - 1;
      assert s[..b] == s[..n] + [s[n]];
      SumSnoc(s[..n], s[n]);
      MeanBetween(s[..n], s[0], s[n]);
      MeanStep(Sum(s[..n]), n as real, s[n]);
    }
  }

  lemma MeanStep(sum: real, n: real, x: real)
    requires n > 0.0 && sum / n <= x
    ensures sum / n <= (sum + x) / (n + 1.0)
  {
  }

  /** The tail average is the mean of a non-empty prefix, no value of which exceeds the percentile. */
  lemma CvarIsPrefixMean(s: seq<real>, alpha: real) returns (n: nat)
    requires s != [] && Ascending(s) && 0.0 <= alpha <= 100.0
    ensures 0 < n <= |s| && Cvar(s, alpha) == Mean(s[..n])
    ensures forall i :: 0 <= i < |s| ==> (i < n <==> s[i] <= Percentile(s, 100.0 - alpha))
    ensures s[0] <= Cvar(s, alpha) <= Percentile(s, 100.0 - alpha)
  {
    hide Sum;
    var threshold := Percentile(s, 100.0 - alpha);
    PercentileRises(s, 100.0 - alpha, 100.0 - alpha);
    if |s| == 1 {
      n := 1;
      assert s[..1] == [s[0]];
      MeanBetween(s[..1], s[0], s[0]);
    } else {
      hide Percentile;
      TailIsPrefix(s, threshold);
      n := |AtOrBelow(s, threshold)|;
      MeanBetween(s[..n], s[0], threshold);
    }
  }

  /** The fallback for an empty tail is never taken. */
  lemma TailIsNeverEmpty(s: seq<real>, alpha: real)
    requires s != [] && Ascending(s) && 0.0 <= alpha <= 100.0
    ensures AtOrBelow(s, Percentile(s, 100.0 - alpha)) != []
  {
    hide Percentile;
    PercentileRises(s, 100.0 - alpha, 100.0 - alpha);
    TailIsPrefix(s, Percentile(s, 100.0 - alpha));
  }

  lemma CvarFalls(s: seq<real>, a: real, b: real)
    requires s != [] && Ascending(s) && 0.0 <= a <= b <= 100.0
    ensures Cvar(s, b) <= Cvar(s, a) <= Mean(s)
  {
    hide Percentile, Cvar, Mean;
    var m := CvarIsPrefixMean(s, a);
    var n := CvarIsPrefixMean(s, b);
    PercentileRises(s, 100.0 - b, 100.0 - a);
    assert s[n - 1] <= Percentile(s, 100.0 - b);
    PrefixMeanRises(s, n, m);
    PrefixMeanRises(s, m, |s|);
    assert s[..|s|] == s;
  }

  // ----- The summary -----

  datatype Stats = Stats(count: nat, mean: real, shape: Shape, median: real, p90: real, p99: real, var95: real,
                         cvar95: real, var99: real, cvar99: real, max: real, min: real)

  function Summary(samples: seq<real>, sqrt: real -> real): Stats
    requires samples != [] && |Sorted(samples)| == |samples| && IsSqrt(sqrt)
  {
    var s := Sorted(samples);
    Stats(|samples|, Mean(samples), ShapeOf(samples, Mean(samples), sqrt),
          Percentile(s, 50.0), Percentile(s, 90.0), Percentile(s, 99.0),
          Percentile(s, 5.0), Cvar(s, 95.0), Percentile(s, 1.0), Cvar(s, 99.0), s[|s| - 1], s[0])
  }

  method Average(xs: seq<real>) returns (m: real)
    requires xs != []
    ensures m == Mean(xs)
  {
    var sum := 0.0;
    for i := 0 to |xs|
      invariant sum == Sum(xs[..i])
    {
      assert xs[..i + 1][..i] == xs[..i];
      sum := sum + xs[i];
    }
    assert xs[..|xs|] == xs;
    m := sum / (|xs| as real);
  }

  method FromSamples(samples: seq<real>, sqrt: real -> real) returns (r: Option<Stats>)
    requires IsSqrt(sqrt)
    ensures |Sorted(samples)| == |samples|
    ensures r == if samples == [] then None else Some(Summary(samples, sqrt))
  {
    hide Percentile, Cvar, Mean, Sorted, IsSqrt, ShapeFrom, Deviations;
    SortedIsPermutation(samples);
    if samples == [] {
      return None;
    }
    var mean := Average(samples);
    var m2, m3, m4 := Accumulate(samples, mean);
    SecondIsNonNegative(samples, mean);
    var s := Sorted(samples);
    var cvar95 := CvarSorted(s, 95.0);
    var cvar99 := CvarSorted(s, 99.0);
    var shape := ShapeFrom(m2, m3, m4, |samples|, sqrt);
    r := Some(Stats(|samples|, mean, shape, Percentile(s, 50.0), Percentile(s, 90.0), Percentile(s, 99.0),
                    Percentile(s, 5.0), cvar95, Percentile(s, 1.0), cvar99, s[|s| - 1], s[0]));
  }

  /** Every summary is in order: the tail averages below their thresholds, the deeper tail below the shallower. */
  lemma SummaryIsOrdered(samples: seq<real>, sqrt: real -> real)
    requires samples != [] && IsSqrt(sqrt)
    ensures |Sorted(samples)| == |samples|
    ensures var r := Summary(samples, sqrt);
            && r.min <= r.cvar99 <= r.cvar95 <= r.mean <= r.max
            && r.cvar99 <= r.var99 <= r.var95 <= r.median <= r.p90 <= r.p99 <= r.max
            && r.cvar95 <= r.var95
  {
    SortedIsAscendingPermutation(samples);
    var s := Sorted(samples);
    hide Percentile, Cvar, Sorted, Sum, ShapeOf, IsSqrt;
    CvarFalls(s, 95.0, 99.0);
    var m := CvarIsPrefixMean(s, 95.0);
    var n := CvarIsPrefixMean(s, 99.0);
    MeanBetween(s, s[0], s[|s| - 1]);
    PercentileRises(s, 1.0, 5.0);
    PercentileRises(s, 5.0, 50.0);
    PercentileRises(s, 50.0, 90.0);
    PercentileRises(s, 90.0, 99.0);
  }

  /**
    * Pearson's inequality of every summary: unless the sample is flat its kurtosis is at least its squared skewness
    * plus one, so the excess kurtosis it reports is never below minus two.
    */
  lemma SkewnessBoundsKurtosis(samples: seq<real>, sqrt: real -> real)
    requires samples != [] && IsSqrt(sqrt)
    ensures |Sorted(samples)| == |samples|
    ensures var s := Summary(samples, sqrt).shape;
            s.kurtosis >= -2.0 && (s.stdDev > FLAT ==> s.kurtosis + 3.0 >= Times(s.skewness, s.skewness) + 1.0)
  {
    hide Percentile, Cvar, Sorted, Sum;
    SortedIsPermutation(samples);
    MeanTimesCount(samples);
    if ShapeOf(samples, Mean(samples), sqrt).stdDev > FLAT {
      PearsonsInequality(samples, Mean(samples), sqrt);
    }
  }

  lemma MeanTimesCount(xs: seq<real>)
    requires xs != []
    ensures Times(|xs| as real, Mean(xs)) == Sum(xs)
  {
  }

  // ----- Changing the unit -----

  function Affine(xs: seq<real>, a: real, b: real): seq<real> {
    seq(|xs|, i requires 0 <= i < |xs| => Times(a, xs[i]) + b)
  }

  lemma OrderKept(x: real, y: real, a: real, b: real)
    requires a > 0.0
    ensures x <= y <==> Times(a, x) + b <= Times(a, y) + b
  {
  }

  lemma {:induction false} InsertAffine(s: seq<real>, x: real, a: real, b: real)
    requires a > 0.0
    ensures Insert(Affine(s, a, b), Times(a, x) + b) == Affine(Insert(s, x), a, b)
  {
    hide Times;
    var n := |s| - 1;
    if s != [] {
      OrderKept(s[n], x, a, b);
    }
    if s == [] || s[n] <= x {
    } else {
      InsertAffine(s[..n], x, a, b);
      assert Affine(s, a, b)[..n] == Affine(s[..n], a, b);
    }
  }

  lemma AffineSnoc(xs: seq<real>, a: real, b: real)
    requires xs != []
    ensures var n := |xs| - 1;
            && |Affine(xs, a, b)| == n + 1 && Affine(xs, a, b)[..n] == Affine(xs[..n], a, b)
            && Affine(xs, a, b)[n] == Times(a, xs[n]) + b
  {
  }

  lemma {:induction false} SortedAffine(xs: seq<real>, a: real, b: real)
    requires a > 0.0
    ensures Sorted(Affine(xs, a, b)) == Affine(Sorted(xs), a, b)
  {
    if xs != [] {
      hide Times, Insert, Affine;
      var n := |xs| - 1;
      SortedAffine(xs[..n], a, b);
      InsertAffine(Sorted(xs[..n]), xs[n], a, b);
      AffineSnoc(xs, a, b);
    } else {
      assert Affine(xs, a, b) == [];
    }
  }

  lemma {:induction false} SumAffine(xs: seq<real>, a: real, b: real)
    ensures Sum(Affine(xs, a, b)) == Times(a, Sum(xs)) + Times(|xs| as real, b)
  {
    hide Times;
    if xs == [] {
      TimesZero(a);
      TimesZero(b);
    } else {
      var n := |xs| - 1;
      SumAffine(xs[..n], a, b);
      assert Affine(xs, a, b)[..n] == Affine(xs[..n], a, b);
      assert (|xs| as real) == (n as real) + 1.0;
      TimesSplit(n as real, 1.0, b);
      TimesLeftSplit(a, Sum(xs[..n]), xs[n]);
      TimesOne(b);
    }
  }

  lemma TimesLeftSplit(a: real, x: real, y: real)
    ensures Times(a, x + y) == Times(a, x) + Times(a, y)
  {
  }

  lemma MeanAffine(xs: seq<real>, a: real, b: real)
    requires xs != []
    ensures Mean(Affine(xs, a, b)) == Times(a, Mean(xs)) + b
  {
    hide Sum, Affine;
    SumAffine(xs, a, b);
    var n := |xs| as real;
    QuotientAffine(Sum(xs), n, a, b);
    AffineAt(xs, a, b);
  }

  lemma AffineAt(xs: seq<real>, a: real, b: real)
    ensures |Affine(xs, a, b)| == |xs|
    ensures forall i :: 0 <= i < |xs| ==> Affine(xs, a, b)[i] == Times(a, xs[i]) + b
  {
  }

  lemma QuotientAffine(sum: real, n: real, a: real, b: real)
    requires n > 0.0
    ensures (Times(a, sum) + Times(n, b)) / n == Times(a, sum / n) + b
  {
  }

  lemma PercentileAffine(s: seq<real>, p: real, a: real, b: real)
    requires s != [] && 0.0 <= p <= 100.0
    ensures Percentile(Affine(s, a, b), p) == Times(a, Percentile(s, p)) + b
  {
  }

  lemma {:induction false} AtOrBelowAffine(s: seq<real>, threshold: real, a: real, b: real)
    requires a > 0.0
    ensures AtOrBelow(Affine(s, a, b), Times(a, threshold) + b) == Affine(AtOrBelow(s, threshold), a, b)
  {
    if s != [] {
      hide Times;
      var n := |s| - 1;
      AtOrBelowAffine(s[..n], threshold, a, b);
      OrderKept(s[n], threshold, a, b);
      assert Affine(s, a, b)[..n] == Affine(s[..n], a, b);
    }
  }

  lemma CvarAffine(s: seq<real>, alpha: real, a: real, b: real)
    requires s != [] && a > 0.0 && 0.0 <= alpha <= 100.0
    ensures Cvar(Affine(s, a, b), alpha) == Times(a, Cvar(s, alpha)) + b
  {
    if |s| > 1 {
      hide Times, Percentile, AtOrBelow, Mean;
      var threshold := Percentile(s, 100.0 - alpha);
      PercentileAffine(s, 100.0 - alpha, a, b);
      AtOrBelowAffine(s, threshold, a, b);
      if AtOrBelow(s, threshold) != [] {
        MeanAffine(AtOrBelow(s, threshold), a, b);
      }
    }
  }

  function InUnit(r: Stats, a: real, b: real): Stats {
    Stats(r.count, Times(a, r.mean) + b, r.shape.(stdDev := Times(a, r.shape.stdDev)),
          Times(a, r.median) + b, Times(a, r.p90) + b, Times(a, r.p99) + b,
          Times(a, r.var95) + b, Times(a, r.cvar95) + b, Times(a, r.var99) + b, Times(a, r.cvar99) + b,
          Times(a, r.max) + b, Times(a, r.min) + b)
  }

  /**
    * Summarising a sample in another unit is summarising it and changing the unit, except that skewness and kurtosis
    * are reported as zero of a sample that is flat in its unit.
    */
  lemma SummaryAffine(samples: seq<real>, a: real, b: real, sqrt: real -> real)
    requires samples != [] && a > 0.0 && IsSqrt(sqrt)
    ensures |Sorted(samples)| == |samples| == |Affine(samples, a, b)| == |Sorted(Affine(samples, a, b))|
    ensures var r, t := Summary(samples, sqrt), Summary(Affine(samples, a, b), sqrt);
            && t.(shape := r.shape) == InUnit(r, a, b).(shape := r.shape)
            && t.shape.stdDev == Times(a, r.shape.stdDev)
            && ((r.shape.stdDev > FLAT <==> t.shape.stdDev > FLAT) ==> t == InUnit(r, a, b))
  {
    hide Times, Percentile, Cvar, Mean, Sorted, Affine, ShapeOf, IsSqrt;
    SortedIsPermutation(samples);
    SortedAffine(samples, a, b);
    AffineAt(samples, a, b);
    MeanAffine(samples, a, b);
    var s := Sorted(samples);
    AffineAt(s, a, b);
    PercentileAffine(s, 50.0, a, b);
    PercentileAffine(s, 90.0, a, b);
    PercentileAffine(s, 99.0, a, b);
    PercentileAffine(s, 5.0, a, b);
    PercentileAffine(s, 1.0, a, b);
    CvarAffine(s, 95.0, a, b);
    CvarAffine(s, 99.0, a, b);
    ShapeAffine(samples, a, b, sqrt);
  }

  lemma ShapeAffine(samples: seq<real>, a: real, b: real, sqrt: real -> real)
    requires samples != [] && a > 0.0 && IsSqrt(sqrt) && Affine(samples, a, b) != []
    ensures var s := ShapeOf(samples, Mean(samples), sqrt);
            var t := ShapeOf(Affine(samples, a, b), Times(a, Mean(samples)) + b, sqrt);
            && t.stdDev == Times(a, s.stdDev)
            && ((t.stdDev > FLAT <==> s.stdDev > FLAT) ==> t.skewness == s.skewness && t.kurtosis == s.kurtosis)
  {
    hide Times, Mean, Affine, ShapeOf, IsSqrt;
    AffineAt(samples, a, b);
    var c := Mean(samples);
    forall i | 0 <= i < |samples|
      ensures Affine(samples, a, b)[i] - (Times(a, c) + b) == Times(a, samples[i] - c)
    {
      TimesLeftSplit(a, samples[i] - c, c);
      assert samples[i] - c + c == samples[i];
    }
    ShapeScales(samples, c, Affine(samples, a, b), Times(a, c) + b, a, sqrt);
  }
}
