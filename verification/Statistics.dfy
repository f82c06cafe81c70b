/**
 The numeric part of the RAG comparison (scripts/rag_evaluation/compare_rag_eval.py): sorting, mean,
 median, interpolated percentile and the paired bootstrap interval, over the reals. The random generator
 is a matrix of index draws.
 */
module Statistics {
  import opened Basics

  predicate Sorted(s: seq<real>) {
    forall i, j :: 0 <= i < j < |s| ==> s[i] <= s[j]
  }

  function Insert(x: real, s: seq<real>): seq<real> {
    if s == [] || x <= s[0] then [x] + s else [s[0]] + Insert(x, s[1..])
  }

  lemma {:induction false} InsertSorted(x: real, s: seq<real>)
    requires Sorted(s)
    ensures Sorted(Insert(x, s))
    ensures Insert(x, s) != [] && (Insert(x, s)[0] == x || (s != [] && Insert(x, s)[0] == s[0]))
  {
    if s == [] || x <= s[0] {
    } else {
      InsertSorted(x, s[1..]);
    }
  }

  lemma {:induction false} InsertKeeps(x: real, s: seq<real>)
    ensures multiset(Insert(x, s)) == multiset(s) + multiset{x} && |Insert(x, s)| == |s| + 1
  {
    if s != [] && x > s[0] {
      InsertKeeps(x, s[1..]);
      HeadMultiset(s);
    }
  }

  lemma HeadMultiset(s: seq<real>)
    requires s != []
    ensures multiset(s) == multiset(s[1..]) + multiset{s[0]}
  {
    assert s == [s[0]] + s[1..];
  }

  /** Python's `sorted` on floats: an ordered permutation, and there is only one. */
  function Sort(s: seq<real>): (r: seq<real>)
    ensures Sorted(r) && multiset(r) == multiset(s) && |r| == |s|
  {
    if s == [] then []
    else
      var t := Sort(s[1..]);
      InsertSorted(s[0], t);
      InsertKeeps(s[0], t);
      HeadMultiset(s);
      Insert(s[0], t)
  }

  lemma TailMultiset(a: seq<real>)
    requires a != []
    ensures multiset(a[1..]) == multiset(a) - multiset{a[0]}
  {
    HeadMultiset(a);
  }

  lemma SameHead(a: seq<real>, b: seq<real>)
    requires Sorted(a) && Sorted(b) && multiset(a) == multiset(b) && a != []
    ensures b != [] && a[0] == b[0]
  {
    assert a[0] in multiset(b);
    assert b[0] in multiset(a);
  }

  lemma {:induction false} SortedUnique(a: seq<real>, b: seq<real>)
    requires Sorted(a) && Sorted(b) && multiset(a) == multiset(b)
    ensures a == b
  {
    if a == [] {
      assert |multiset(b)| == |b|;
    } else {
      SameHead(a, b);
      TailMultiset(a);
      TailMultiset(b);
      SortedUnique(a[1..], b[1..]);
      assert a == [a[0]] + a[1..] && b == [b[0]] + b[1..];
    }
  }

  // ---------------------------------------------------------------------------
  // Negation reverses the order
  // ---------------------------------------------------------------------------

  function Neg(s: seq<real>): seq<real> {
    seq(|s|, i requires 0 <= i < |s| => -s[i])
  }

  function Mirror(s: seq<real>): seq<real> {
    seq(|s|, i requires 0 <= i < |s| => -s[|s| - 1 - i])
  }

  lemma {:induction false} NegCount(s: seq<real>, y: real)
    ensures multiset(Neg(s))[y] == multiset(s)[-y]
  {
    if s != [] {
      NegCount(s[1..], y);
      assert s == [s[0]] + s[1..] && Neg(s) == [-s[0]] + Neg(s[1..]);
    }
  }

  lemma {:induction false} MirrorCount(s: seq<real>, y: real)
    ensures multiset(Mirror(s))[y] == multiset(s)[-y]
  {
    if s != [] {
      MirrorCount(s[1..], y);
      assert s == [s[0]] + s[1..] && Mirror(s) == Mirror(s[1..]) + [-s[0]];
    }
  }

  /** Sorting the negated values gives the negated sorted values, backwards. */
  lemma SortNeg(s: seq<real>)
    ensures Sort(Neg(s)) == Mirror(Sort(s))
  {
    var a, b := Sort(Neg(s)), Mirror(Sort(s));
    forall y ensures multiset(a)[y] == multiset(b)[y] {
      NegCount(s, y);
      MirrorCount(Sort(s), y);
    }
    assert multiset(a) == multiset(b);
    SortedUnique(a, b);
  }

  // ---------------------------------------------------------------------------
  // Mean and median
  // ---------------------------------------------------------------------------

  function Sum(s: seq<real>): real {
    if s == [] then 0.0 else s[0] + Sum(s[1..])
  }

  /** `statistics.fmean` */
  function Mean(s: seq<real>): real
    requires s != []
  {
    Sum(s) / |s| as real
  }

  /** `statistics.median` */
  function Median(s: seq<real>): real
    requires s != []
  {
    MiddleOf(Sort(s))
  }

  function MiddleOf(o: seq<real>): real
    requires o != []
  {
    var n := |o|;
    if n % 2 == 1 then o[n / 2] else (o[n / 2 - 1] + o[n / 2]) / 2.0
  }

  lemma MiddleOfMirror(o: seq<real>)
    requires o != []
    ensures MiddleOf(Mirror(o)) == -MiddleOf(o)
  {
  }

  lemma {:induction false} SumNeg(s: seq<real>)
    ensures Sum(Neg(s)) == -Sum(s)
  {
    if s != [] {
      SumNeg(s[1..]);
      assert Neg(s)[1..] == Neg(s[1..]);
    }
  }

  lemma MeanNeg(s: seq<real>)
    requires s != []
    ensures Mean(Neg(s)) == -Mean(s)
  {
    SumNeg(s);
  }

  lemma MedianNeg(s: seq<real>)
    requires s != []
    ensures Median(Neg(s)) == -Median(s)
  {
    SortNeg(s);
    MiddleOfMirror(Sort(s));
  }

  // ---------------------------------------------------------------------------
  // Percentile
  // ---------------------------------------------------------------------------

  /** `math.ceil` */
  function Ceil(x: real): int {
    -((-x).Floor)
  }

  function Mix(a: real, b: real, fraction: real): real {
    a * (1.0 - fraction) + b * fraction
  }

  /** The value at a fractional position of an ordered list. */
  function At(o: seq<real>, position: real): real
    requires o != [] && 0.0 <= position <= (|o| - 1) as real
  {
    var lower, upper := position.Floor, Ceil(position);
    if lower == upper then o[lower]
    else
      Mix(o[lower], o[upper], position - lower as real)
  }

  function Position(n: nat, q: real): real
    requires n > 0
  {
    (n - 1) as real * q
  }

  lemma ScaleNonNegative(x: real, y: real)
    requires 0.0 <= x && 0.0 <= y
    ensures 0.0 <= x * y
  {
  }

  lemma Scale(n: real, q: real, r: real)
    requires 0.0 <= n && 0.0 <= q <= r <= 1.0
    ensures 0.0 <= n * q <= n * r <= n
  {
    ScaleNonNegative(n, q);
    ScaleNonNegative(n, r - q);
    ScaleNonNegative(n, 1.0 - r);
    assert n * q + n * (r - q) == n * r;
    assert n * r + n * (1.0 - r) == n;
  }

  lemma PositionMonotone(n: nat, q: real, r: real)
    requires n > 0 && 0.0 <= q <= r <= 1.0
    ensures 0.0 <= Position(n, q) <= Position(n, r) <= (n - 1) as real
  {
    Scale((n - 1) as real, q, r);
  }

  function Quantile(o: seq<real>, q: real): real
    requires o != [] && 0.0 <= q <= 1.0
  {
    PositionMonotone(|o|, q, q);
    At(o, Position(|o|, q))
  }

  /** `percentile(values, quantile)` */
  function Percentile(values: seq<real>, q: real): (p: Option<real>)
    requires 0.0 <= q <= 1.0
    ensures p.None? <==> values == []
  {
    if values == [] then None else Some(Quantile(Sort(values), q))
  }

  lemma MixMonotone(a: real, b: real, f: real, g: real)
    requires a <= b && f <= g
    ensures Mix(a, b, f) <= Mix(a, b, g)
  {
    assert Mix(a, b, g) - Mix(a, b, f) == (b - a) * (g - f);
  }

  lemma MixBetween(a: real, b: real, f: real)
    requires a <= b && 0.0 <= f <= 1.0
    ensures a <= Mix(a, b, f) <= b
  {
    MixMonotone(a, b, 0.0, f);
    MixMonotone(a, b, f, 1.0);
  }

  /** Between two neighbours the value lies between theirs. */
  lemma AtBetween(o: seq<real>, x: real)
    requires Sorted(o) && o != [] && 0.0 <= x <= (|o| - 1) as real
    ensures o[x.Floor] <= At(o, x) <= o[Ceil(x)]
    ensures Ceil(x) == x.Floor || Ceil(x) == x.Floor + 1
  {
    if x.Floor != Ceil(x) { MixBetween(o[x.Floor], o[Ceil(x)], x - x.Floor as real); }
  }

  lemma AtMonotone(o: seq<real>, x: real, y: real)
    requires Sorted(o) && o != [] && 0.0 <= x <= y <= (|o| - 1) as real
    ensures At(o, x) <= At(o, y)
  {
    AtBetween(o, x);
    AtBetween(o, y);
    if x.Floor == y.Floor {
      if x.Floor != Ceil(x) { MixMonotone(o[x.Floor], o[Ceil(x)], x - x.Floor as real, y - y.Floor as real); }
    } else {
      assert Ceil(x) <= y.Floor;
    }
  }

  lemma QuantileMonotone(o: seq<real>, q: real, r: real)
    requires Sorted(o) && o != [] && 0.0 <= q <= r <= 1.0
    ensures Quantile(o, q) <= Quantile(o, r)
  {
    PositionMonotone(|o|, q, r);
    AtMonotone(o, Position(|o|, q), Position(|o|, r));
  }

  /** The percentile never decreases with the quantile (so P50 is at most P95). */
  lemma PercentileMonotone(values: seq<real>, q: real, r: real)
    requires values != [] && 0.0 <= q <= r <= 1.0
    ensures Percentile(values, q).value <= Percentile(values, r).value
  {
    QuantileMonotone(Sort(values), q, r);
  }

  lemma QuantileEnds(o: seq<real>)
    requires o != []
    ensures Quantile(o, 0.0) == o[0] && Quantile(o, 1.0) == o[|o| - 1]
  {
  }

  lemma SortMember(values: seq<real>, v: real)
    ensures v in Sort(values) <==> v in values
  {
    assert v in multiset(Sort(values)) <==> v in multiset(values);
  }

  lemma SortedBounds(o: seq<real>, v: real)
    requires Sorted(o) && v in o
    ensures o[0] <= v <= o[|o| - 1]
  {
  }

  lemma SortEnds(values: seq<real>, v: real)
    requires v in values
    ensures Sort(values)[0] <= v <= Sort(values)[|values| - 1]
    ensures Sort(values)[0] in values && Sort(values)[|values| - 1] in values
  {
    SortMember(values, v);
    SortedBounds(Sort(values), v);
    SortMember(values, Sort(values)[0]);
    SortMember(values, Sort(values)[|values| - 1]);
  }

  /** Its endpoints are the minimum and the maximum, and it stays between them. */
  lemma PercentileRange(values: seq<real>, q: real)
    requires values != [] && 0.0 <= q <= 1.0
    ensures Percentile(values, 0.0).value in values && Percentile(values, 1.0).value in values
    ensures forall v :: v in values ==> Percentile(values, 0.0).value <= v <= Percentile(values, 1.0).value
    ensures Percentile(values, 0.0).value <= Percentile(values, q).value <= Percentile(values, 1.0).value
  {
    PercentileMonotone(values, 0.0, q);
    PercentileMonotone(values, q, 1.0);
    QuantileEnds(Sort(values));
    SortEnds(values, values[0]);
    forall v | v in values ensures Percentile(values, 0.0).value <= v <= Percentile(values, 1.0).value {
      SortEnds(values, v);
    }
  }

  /** It depends on the values, not on their order. */
  lemma PercentileOrderFree(a: seq<real>, b: seq<real>, q: real)
    requires multiset(a) == multiset(b) && 0.0 <= q <= 1.0
    ensures Percentile(a, q) == Percentile(b, q)
  {
    assert |multiset(a)| == |a| && |multiset(b)| == |b|;
    SortedUnique(Sort(a), Sort(b));
  }

  // ---------------------------------------------------------------------------
  // Paired bootstrap
  // ---------------------------------------------------------------------------

  /** One row of draws per bootstrap sample, each as long as the data. */
  predicate ValidDraws(draws: seq<seq<nat>>, n: nat) {
    && draws != []
    && forall i :: 0 <= i < |draws| ==> |draws[i]| == n && forall j :: 0 <= j < n ==> draws[i][j] < n
  }

  function Resample(values: seq<real>, row: seq<nat>): seq<real>
    requires forall j :: 0 <= j < |row| ==> row[j] < |values|
  {
    seq(|row|, j requires 0 <= j < |row| => values[row[j]])
  }

  function BootMeans(values: seq<real>, draws: seq<seq<nat>>): (r: seq<real>)
    requires values != [] && ValidDraws(draws, |values|)
  {
    seq(|draws|, i requires 0 <= i < |draws| => Mean(Resample(values, draws[i])))
  }

  function LowIndex(samples: nat): int {
    Max(0, (samples as real * 0.025).Floor)
  }

  function HighIndex(samples: nat): int {
    Min(samples - 1, Ceil(samples as real * 0.975) - 1)
  }

  /** The two indices are in range, in order, and mirror images of each other. */
  lemma IndicesMirror(samples: nat)
    requires samples > 0
    ensures 0 <= LowIndex(samples) <= HighIndex(samples) < samples
    ensures HighIndex(samples) == samples - 1 - LowIndex(samples)
  {
    var x := samples as real * 0.025;
    assert samples as real * 0.975 == samples as real - x;
    assert Ceil(samples as real * 0.975) == samples - x.Floor;
  }

  /** `bootstrap_mean_ci(values, samples)` */
  function BootstrapCI(values: seq<real>, draws: seq<seq<nat>>): (ci: (real, real))
    requires values != [] && ValidDraws(draws, |values|)
    ensures ci.0 <= ci.1
  {
    if |values| == 1 then (values[0], values[0])
    else
      Interval(Sort(BootMeans(values, draws)))
  }

  function Interval(means: seq<real>): (ci: (real, real))
    requires means != [] && Sorted(means)
    ensures ci.0 <= ci.1
  {
    IndicesMirror(|means|);
    (means[LowIndex(|means|)], means[HighIndex(|means|)])
  }

  lemma IntervalMirror(means: seq<real>)
    requires means != [] && Sorted(means)
    ensures Sorted(Mirror(means))
    ensures Interval(Mirror(means)).0 == -Interval(means).1 && Interval(Mirror(means)).1 == -Interval(means).0
  {
    IndicesMirror(|means|);
  }

  lemma SortedIntervalNeg(means: seq<real>)
    requires means != []
    ensures Interval(Sort(Neg(means))).0 == -Interval(Sort(means)).1
    ensures Interval(Sort(Neg(means))).1 == -Interval(Sort(means)).0
  {
    SortNeg(means);
    IntervalMirror(Sort(means));
  }

  lemma BootMeansNeg(values: seq<real>, draws: seq<seq<nat>>)
    requires values != [] && ValidDraws(draws, |values|)
    ensures BootMeans(Neg(values), draws) == Neg(BootMeans(values, draws))
  {
    forall i | 0 <= i < |draws|
      ensures BootMeans(Neg(values), draws)[i] == -BootMeans(values, draws)[i]
    {
      var r := Resample(values, draws[i]);
      assert Resample(Neg(values), draws[i]) == Neg(r);
      MeanNeg(r);
    }
  }

  /** With the same draws, negating the data maps the interval (low, high) to (-high, -low). */
  lemma BootstrapNeg(values: seq<real>, draws: seq<seq<nat>>)
    requires values != [] && ValidDraws(draws, |values|)
    ensures BootstrapCI(Neg(values), draws).0 == -BootstrapCI(values, draws).1
    ensures BootstrapCI(Neg(values), draws).1 == -BootstrapCI(values, draws).0
  {
    if |values| > 1 {
      BootMeansNeg(values, draws);
      SortedIntervalNeg(BootMeans(values, draws));
    }
  }

  // ---------------------------------------------------------------------------
  // What median, percentile and interval mean
  // ---------------------------------------------------------------------------

  /** At the position of an element of the ordered list, the percentile is that element. */
  lemma PercentileAtRank(values: seq<real>, k: nat)
    requires k < |values| && |values| > 1
    ensures 0.0 <= k as real / (|values| - 1) as real <= 1.0
    ensures Percentile(values, k as real / (|values| - 1) as real).value == Sort(values)[k]
  {
    var n := (|values| - 1) as real;
    assert Position(|values|, k as real / n) == k as real;
  }

  /** The median is the fiftieth percentile, although the two are computed differently. */
  lemma MedianIsP50(values: seq<real>)
    requires values != []
    ensures Percentile(values, 0.5) == Some(Median(values))
  {
    MiddleIsHalfway(Sort(values), |values| / 2);
  }

  lemma MiddleIsHalfway(o: seq<real>, k: nat)
    requires o != [] && (|o| == 2 * k || |o| == 2 * k + 1)
    ensures Quantile(o, 0.5) == MiddleOf(o)
  {
    if |o| == 2 * k {
      HalfBetween(o, k);
    } else {
      assert Position(|o|, 0.5) == k as real;
    }
  }

  lemma HalfBetween(o: seq<real>, k: nat)
    requires 0 < k < |o|
    ensures At(o, k as real - 0.5) == (o[k - 1] + o[k]) / 2.0
  {
    var x := k as real - 0.5;
    assert x.Floor == k - 1 && Ceil(x) == k;
  }

  function CountAtMost(s: seq<real>, x: real): nat {
    if s == [] then 0 else (if s[0] <= x then 1 else 0) + CountAtMost(s[1..], x)
  }

  function CountAtLeast(s: seq<real>, x: real): nat {
    if s == [] then 0 else (if s[0] >= x then 1 else 0) + CountAtLeast(s[1..], x)
  }

  lemma {:induction false} InsertCounts(v: real, s: seq<real>, x: real)
    ensures CountAtMost(Insert(v, s), x) == CountAtMost([v] + s, x)
    ensures CountAtLeast(Insert(v, s), x) == CountAtLeast([v] + s, x)
  {
    assert ([v] + s)[1..] == s;
    if s != [] && v > s[0] {
      InsertCounts(v, s[1..], x);
      assert ([v] + s[1..])[1..] == s[1..];
      assert Insert(v, s)[1..] == Insert(v, s[1..]);
    }
  }

  lemma {:induction false} SortCounts(s: seq<real>, x: real)
    ensures CountAtMost(Sort(s), x) == CountAtMost(s, x) && CountAtLeast(Sort(s), x) == CountAtLeast(s, x)
  {
    if s != [] {
      SortCounts(s[1..], x);
      var t := Sort(s[1..]);
      InsertCounts(s[0], t, x);
      assert ([s[0]] + t)[1..] == t;
    }
  }

  lemma {:induction false} NoneBelow(o: seq<real>, x: real)
    requires forall i :: 0 <= i < |o| ==> o[i] > x
    ensures CountAtMost(o, x) == 0
  {
    if o != [] { NoneBelow(o[1..], x); }
  }

  lemma {:induction false} AllAbove(o: seq<real>, x: real)
    requires forall i :: 0 <= i < |o| ==> o[i] >= x
    ensures CountAtLeast(o, x) == |o|
  {
    if o != [] { AllAbove(o[1..], x); }
  }

  /** In an ordered list the element at index k exceeds x exactly when at most k elements do not. */
  lemma {:induction false} RankAbove(o: seq<real>, k: nat, x: real)
    requires Sorted(o) && k < |o|
    ensures o[k] > x <==> CountAtMost(o, x) <= k
  {
    if o[0] > x {
      NoneBelow(o, x);
    } else if k > 0 {
      RankAbove(o[1..], k - 1, x);
    }
  }

  /** It is below x exactly when at most the elements after it are not. */
  lemma {:induction false} RankBelow(o: seq<real>, k: nat, x: real)
    requires Sorted(o) && k < |o|
    ensures o[k] < x <==> CountAtLeast(o, x) <= |o| - 1 - k
  {
    if o[0] >= x {
      AllAbove(o, x);
    } else if k > 0 {
      RankBelow(o[1..], k - 1, x);
    } else {
      AtMostAll(o[1..], x);
    }
  }

  lemma {:induction false} AtMostAll(o: seq<real>, x: real)
    ensures CountAtLeast(o, x) <= |o|
  {
    if o != [] { AtMostAll(o[1..], x); }
  }

  /**
   What the interval says: it lies above x exactly when at most floor(2.5%) of the resampled means do not
   exceed x, and below x exactly when at most floor(2.5%) of them are not below it.
   */
  lemma IntervalMeaning(values: seq<real>, draws: seq<seq<nat>>, x: real)
    requires |values| > 1 && ValidDraws(draws, |values|)
    ensures var m := BootMeans(values, draws);
            var tail := (|draws| as real * 0.025).Floor;
            && (BootstrapCI(values, draws).0 > x <==> CountAtMost(m, x) <= tail)
            && (BootstrapCI(values, draws).1 < x <==> CountAtLeast(m, x) <= tail)
  {
    var m := BootMeans(values, draws);
    IndicesMirror(|m|);
    RankAbove(Sort(m), LowIndex(|m|), x);
    RankBelow(Sort(m), HighIndex(|m|), x);
    SortCounts(m, x);
  }

  /** The point that lies the part f of the way from a to b. */
  function Between(a: real, b: real, f: real): real {
    a + f * (b - a)
  }

  /** The percentile is the value of the ordered list at the position (n - 1) * q. */
  lemma PercentileIsAt(values: seq<real>, q: real)
    requires values != [] && 0.0 <= q <= 1.0
    ensures 0.0 <= Position(|values|, q) <= (|values| - 1) as real
    ensures Percentile(values, q) == Some(At(Sort(values), Position(|values|, q)))
  {
    PositionMonotone(|values|, q, q);
    PositionMonotone(|values|, q, 1.0);
  }

  /** Between two neighbouring ranks that value moves in proportion to the position. */
  lemma AtBetweenRanks(o: seq<real>, k: nat, f: real)
    requires k + 1 < |o| && 0.0 <= f < 1.0
    ensures At(o, k as real + f) == Between(o[k], o[k + 1], f)
  {
    var x := k as real + f;
    assert x.Floor == k;
    if f > 0.0 {
      assert Ceil(x) == k + 1;
      MixIs(o[k], o[k + 1], f);
    } else {
      assert Ceil(x) == k && f == 0.0;
      assert f * (o[k + 1] - o[k]) == 0.0;
    }
  }

  lemma MixIs(a: real, b: real, f: real)
    ensures Mix(a, b, f) == Between(a, b, f)
  {
  }

  /** As many times the mean as there are values is their sum. */
  lemma MeanTimes(s: seq<real>)
    requires s != []
    ensures |s| as real * Mean(s) == Sum(s)
  {
  }

  // ---------------------------------------------------------------------------
  // What one resample is
  // ---------------------------------------------------------------------------

  /** How often a row of draws names index k. */
  function Drawn(row: seq<nat>, k: nat): nat {
    if row == [] then 0 else (if row[0] == k then 1 else 0) + Drawn(row[1..], k)
  }

  /** The first n values, each as many times as it was drawn. */
  function Weighted(values: seq<real>, row: seq<nat>, n: nat): real
    requires n <= |values|
  {
    if n == 0 then 0.0 else Weighted(values, row, n - 1) + Drawn(row, n - 1) as real * values[n - 1]
  }

  lemma OneMoreTime(v: real, c: nat)
    ensures (1 + c) as real * v == v + c as real * v
  {
  }

  lemma {:induction false} WeightedCons(values: seq<real>, row: seq<nat>, n: nat)
    requires n <= |values| && row != []
    ensures Weighted(values, row, n) == Weighted(values, row[1..], n) + if row[0] < n then values[row[0]] else 0.0
  {
    if n > 0 {
      WeightedCons(values, row, n - 1);
      OneMoreTime(values[n - 1], Drawn(row[1..], n - 1));
    }
  }

  lemma {:induction false} WeightedNothing(values: seq<real>, n: nat)
    requires n <= |values|
    ensures Weighted(values, [], n) == 0.0
  {
    if n > 0 { WeightedNothing(values, n - 1); }
  }

  /** The sum of a resample counts each value as often as it was drawn. */
  lemma {:induction false} ResampleSum(values: seq<real>, row: seq<nat>)
    requires forall j :: 0 <= j < |row| ==> row[j] < |values|
    ensures Sum(Resample(values, row)) == Weighted(values, row, |values|)
    decreases |row|
  {
    if row == [] {
      WeightedNothing(values, |values|);
    } else {
      ResampleSum(values, row[1..]);
      WeightedCons(values, row, |values|);
      assert Resample(values, row)[1..] == Resample(values, row[1..]);
    }
  }
}
