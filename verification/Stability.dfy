/** The throughput stability detector (quality/quality.go), over real numbers.
    A coefficient of variation sqrt(v)/m is compared with its limit in squared
    form, which needs no square root. */
module Stability {
  import opened Arithmetic
  import opened Wrappers

  datatype Bucket = Bucket(index: int, bytes: nat, samples: nat, duration: int, streams: int, complete: bool) {
    function Mbps(): real {
      if duration <= 0 then 0.0 else bytes as real * 8.0 / duration as real / 1000.0
    }
  }

  datatype Policy = Policy(minDuration: int, minSamples: int, required: int, maxVariation: real, maxMad: real)

  const DEFAULT_POLICY := Policy(900, 1, 3, 0.10, 0.08)

  function Normalised(p: Policy): (n: Policy)
    ensures n.minDuration > 0 && n.minSamples > 0 && n.required >= 2
    ensures 0.0 < n.maxVariation <= 1.0 && 0.0 < n.maxMad <= 1.0
  {
    Policy(
      if p.minDuration <= 0 then DEFAULT_POLICY.minDuration else p.minDuration,
      if p.minSamples <= 0 then DEFAULT_POLICY.minSamples else p.minSamples,
      if p.required < 2 then DEFAULT_POLICY.required else p.required,
      if p.maxVariation <= 0.0 || p.maxVariation > 1.0 then DEFAULT_POLICY.maxVariation else p.maxVariation,
      if p.maxMad <= 0.0 || p.maxMad > 1.0 then DEFAULT_POLICY.maxMad else p.maxMad)
  }

  lemma NormalisedIsIdempotent(p: Policy)
    ensures Normalised(Normalised(p)) == Normalised(p)
  {
  }

  datatype Reason = Settled | InsufficientBuckets | DidNotStabilise
    | NeitherStable | DownloadNotStable | UploadNotStable | NotOverlapping

  /** The reported region; `variation` is squared. */
  datatype Region = Region(
    stable: bool, reason: Reason, start: int, end: int, count: int, mbps: real, variation: real, mad: real)

  predicate Usable(b: Bucket, p: Policy) {
    b.complete && b.duration >= p.minDuration && b.samples >= p.minSamples && b.bytes > 0 && b.Mbps() > 0.0
  }

  function UsableOf(buckets: seq<Bucket>, p: Policy): seq<Bucket> {
    if buckets == [] then []
    else if Usable(buckets[|buckets| - 1], p) then UsableOf(buckets[..|buckets| - 1], p) + [buckets[|buckets| - 1]]
    else UsableOf(buckets[..|buckets| - 1], p)
  }

  lemma RateTimesDuration(b: Bucket)
    requires b.duration > 0
    ensures Times(b.Mbps(), b.duration as real) == b.bytes as real * 8.0 / 1000.0
    ensures b.Mbps() > 0.0 <==> b.bytes > 0
  {
    QuotientTimes(b.bytes as real * 8.0, b.duration as real);
    PositiveQuotient(b.bytes as real * 8.0, b.duration as real);
  }

  lemma PositiveQuotient(x: real, d: real)
    requires d > 0.0 && x >= 0.0
    ensures x / d > 0.0 <==> x > 0.0
  {
    QuotientTimes(x, d);
    if x / d > 0.0 {
      PositiveProduct(x / d, d);
    }
  }

  /** The test of the rate never rejects a bucket that passes the others. */
  lemma UsableMeans(b: Bucket, p: Policy)
    requires p.minDuration > 0
    ensures Usable(b, p) <==> b.complete && b.duration >= p.minDuration && b.samples >= p.minSamples && b.bytes > 0
  {
    if b.duration > 0 {
      RateTimesDuration(b);
    }
  }

  lemma {:induction false} UsableMembers(buckets: seq<Bucket>, p: Policy)
    ensures forall b :: b in UsableOf(buckets, p) <==> b in buckets && Usable(b, p)
  {
    if buckets != [] {
      UsableMembers(buckets[..|buckets| - 1], p);
      assert buckets == buckets[..|buckets| - 1] + [buckets[|buckets| - 1]];
    }
  }

  function Rates(buckets: seq<Bucket>): (values: seq<real>)
    ensures |values| == |buckets| && forall i | 0 <= i < |buckets| :: values[i] == buckets[i].Mbps()
  {
    seq(|buckets|, i requires 0 <= i < |buckets| => buckets[i].Mbps())
  }

  // ---- spread ---------------------------------------------------------------

  ghost predicate Ordered(values: seq<real>) {
    forall i, j | 0 <= i <= j < |values| :: values[i] <= values[j]
  }

  function Insert(ordered: seq<real>, value: real): (r: seq<real>)
    ensures |r| == |ordered| + 1
  {
    var n := |ordered|;
    if n == 0 || ordered[n - 1] <= value then ordered + [value]
    else Insert(ordered[..n - 1], value) + [ordered[n - 1]]
  }

  function Sort(values: seq<real>): (r: seq<real>)
    ensures |r| == |values|
  {
    if values == [] then [] else Insert(Sort(values[..|values| - 1]), values[|values| - 1])
  }

  lemma {:induction false} InsertKeepsAll(ordered: seq<real>, value: real)
    ensures multiset(Insert(ordered, value)) == multiset(ordered) + multiset{value}
  {
    var n := |ordered|;
    if n > 0 && ordered[n - 1] > value {
      InsertKeepsAll(ordered[..n - 1], value);
      assert ordered == ordered[..n - 1] + [ordered[n - 1]];
    }
  }

  lemma {:induction false} InsertKeepsOrder(ordered: seq<real>, value: real)
    requires Ordered(ordered)
    ensures Ordered(Insert(ordered, value))
  {
    var n := |ordered|;
    if n > 0 && ordered[n - 1] > value {
      var init, last := ordered[..n - 1], ordered[n - 1];
      InsertKeepsOrder(init, value);
      InsertKeepsAll(init, value);
      forall i | 0 <= i < n ensures Insert(init, value)[i] <= last {
        assert Insert(init, value)[i] in multiset(init) + multiset{value};
      }
    }
  }

  /** Sort orders its values and keeps each as often as it occurs. */
  lemma {:induction false} SortIsOrdered(values: seq<real>)
    ensures Ordered(Sort(values)) && multiset(Sort(values)) == multiset(values)
  {
    if values != [] {
      SortIsOrdered(values[..|values| - 1]);
      InsertKeepsOrder(Sort(values[..|values| - 1]), values[|values| - 1]);
      InsertKeepsAll(Sort(values[..|values| - 1]), values[|values| - 1]);
      assert values == values[..|values| - 1] + [values[|values| - 1]];
    }
  }

  /** How many values a test holds of. */
  function CountOf(values: seq<real>, test: real -> bool): nat {
    if values == [] then 0
    else CountOf(values[..|values| - 1], test) + if test(values[|values| - 1]) then 1 else 0
  }

  function AtMost(x: real): real -> bool { v => v <= x }
  function Below(x: real): real -> bool { v => v < x }
  function AtLeast(x: real): real -> bool { v => v >= x }
  function Above(x: real): real -> bool { v => v > x }

  lemma CountOneMore(values: seq<real>, v: real, test: real -> bool)
    ensures CountOf(values + [v], test) == CountOf(values, test) + if test(v) then 1 else 0
  {
    assert (values + [v])[..|values|] == values;
  }

  lemma {:induction false} InsertCounts(ordered: seq<real>, v: real, test: real -> bool)
    ensures CountOf(Insert(ordered, v), test) == CountOf(ordered, test) + if test(v) then 1 else 0
  {
    var n := |ordered|;
    if n == 0 || ordered[n - 1] <= v {
      CountOneMore(ordered, v, test);
    } else {
      InsertCounts(ordered[..n - 1], v, test);
      CountOneMore(Insert(ordered[..n - 1], v), ordered[n - 1], test);
    }
  }

  /** Sorting changes no count. */
  lemma {:induction false} SortCounts(values: seq<real>, test: real -> bool)
    ensures CountOf(Sort(values), test) == CountOf(values, test)
  {
    if values != [] {
      SortCounts(values[..|values| - 1], test);
      InsertCounts(Sort(values[..|values| - 1]), values[|values| - 1], test);
    }
  }

  /** A count is between the values that surely pass, a stretch of them, and those
      that may. */
  lemma {:induction false} CountBetween(values: seq<real>, test: real -> bool, from: nat, to: nat)
    requires from <= to <= |values|
    requires forall i | from <= i < to :: test(values[i])
    ensures to - from <= CountOf(values, test) <= |values|
  {
    if values != [] {
      var n := |values|;
      if to == n && from < n {
        CountBetween(values[..n - 1], test, from, n - 1);
      } else if to == n {
        CountBetween(values[..n - 1], test, 0, 0);
      } else {
        CountBetween(values[..n - 1], test, from, to);
      }
    }
  }

  lemma {:induction false} CountOutside(values: seq<real>, test: real -> bool, from: nat, to: nat)
    requires from <= to <= |values|
    requires forall i | from <= i < to :: !test(values[i])
    ensures CountOf(values, test) <= |values| - (to - from)
  {
    if values != [] {
      var n := |values|;
      if to == n && from < n {
        CountOutside(values[..n - 1], test, from, n - 1);
      } else if to == n {
        CountBetween(values[..n - 1], test, 0, 0);
      } else {
        CountOutside(values[..n - 1], test, from, to);
      }
    }
  }

  lemma RankFromBelow(o: seq<real>, rank: nat)
    requires Ordered(o) && 1 <= rank <= |o|
    ensures CountOf(o, AtMost(o[rank - 1])) >= rank > CountOf(o, Below(o[rank - 1]))
  {
    var x := o[rank - 1];
    forall i | 0 <= i < rank ensures AtMost(x)(o[i]) {
    }
    forall i | rank - 1 <= i < |o| ensures !Below(x)(o[i]) {
    }
    CountBetween(o, AtMost(x), 0, rank);
    CountOutside(o, Below(x), rank - 1, |o|);
  }

  lemma RankFromAbove(o: seq<real>, rank: nat)
    requires Ordered(o) && 1 <= rank <= |o|
    ensures CountOf(o, AtLeast(o[rank - 1])) >= |o| - rank + 1 > CountOf(o, Above(o[rank - 1]))
  {
    var x := o[rank - 1];
    forall i | rank - 1 <= i < |o| ensures AtLeast(x)(o[i]) {
    }
    forall i | 0 <= i < rank ensures !Above(x)(o[i]) {
    }
    CountBetween(o, AtLeast(x), rank - 1, |o|);
    CountOutside(o, Above(x), 0, rank);
  }

  /** The value at a rank of the sorted list, told by counting: at least that many
      values are no larger and fewer are smaller, and the same from the other end. */
  lemma RankByCount(values: seq<real>, rank: nat)
    requires 1 <= rank <= |values|
    ensures Sort(values)[rank - 1] in values
    ensures CountOf(values, AtMost(Sort(values)[rank - 1])) >= rank > CountOf(values, Below(Sort(values)[rank - 1]))
    ensures CountOf(values, AtLeast(Sort(values)[rank - 1])) >= |values| - rank + 1
    ensures CountOf(values, Above(Sort(values)[rank - 1])) < |values| - rank + 1
  {
    var o := Sort(values);
    var x := o[rank - 1];
    SortIsOrdered(values);
    assert x in multiset(o);
    RankFromBelow(o, rank);
    RankFromAbove(o, rank);
    SortCounts(values, AtMost(x));
    SortCounts(values, Below(x));
    SortCounts(values, AtLeast(x));
    SortCounts(values, Above(x));
  }

  function Median(values: seq<real>): real {
    var ordered, n := Sort(values), |values|;
    if n == 0 then 0.0
    else if n % 2 == 0 then (ordered[n / 2 - 1] + ordered[n / 2]) / 2.0
    else ordered[n / 2]
  }

  /** The median lies midway between two of the values: the least with half of the
      values no larger, and the greatest with half of the values no smaller. */
  lemma MedianIsCentral(values: seq<real>) returns (low: real, high: real)
    requires values != []
    ensures low in values && high in values && 2.0 * Median(values) == low + high && low <= high
    ensures 2 * CountOf(values, AtMost(low)) >= |values| > 2 * CountOf(values, Below(low))
    ensures 2 * CountOf(values, AtLeast(high)) >= |values| > 2 * CountOf(values, Above(high))
  {
    var o, n := Sort(values), |values|;
    SortIsOrdered(values);
    var below := (n - 1) / 2 + 1;
    var above := n / 2 + 1;
    RankByCount(values, below);
    RankByCount(values, above);
    low, high := o[below - 1], o[above - 1];
  }

  function Distance(a: real, b: real): real { if a < b then b - a else a - b }

  function Deviations(values: seq<real>, center: real): seq<real> {
    seq(|values|, i requires 0 <= i < |values| => Distance(values[i], center))
  }

  function Mad(values: seq<real>): real {
    Median(Deviations(values, Median(values)))
  }

  function Sum(values: seq<real>): real {
    if values == [] then 0.0 else Sum(values[..|values| - 1]) + values[|values| - 1]
  }

  function Mean(values: seq<real>): real {
    if values == [] then 0.0 else Sum(values) / |values| as real
  }

  function Times(a: real, b: real): real {
    a * b
  }

  function Square(x: real): real {
    Times(x, x)
  }

  function SquaresFrom(values: seq<real>, mean: real): real {
    if values == [] then 0.0
    else SquaresFrom(values[..|values| - 1], mean) + Square(values[|values| - 1] - mean)
  }

  function Variance(values: seq<real>): real {
    if values == [] then 0.0 else SquaresFrom(values, Mean(values)) / |values| as real
  }

  function SquareSum(values: seq<real>): real {
    if values == [] then 0.0 else SquareSum(values[..|values| - 1]) + Square(values[|values| - 1])
  }

  /** The squared distances from `m` of n values with this sum and sum of squares. */
  function Expanded(squares: real, sum: real, n: real, m: real): real {
    squares - 2.0 * Times(m, sum) + Times(n, Square(m))
  }

  lemma Distributes(a: real, b: real, c: real)
    ensures Times(a, b + c) == Times(a, b) + Times(a, c) && Times(b + c, a) == Times(b, a) + Times(c, a)
  {
  }

  lemma OneMoreSquare(squares: real, sum: real, n: real, v: real, m: real)
    ensures Expanded(squares, sum, n, m) + Square(v - m) == Expanded(squares + Square(v), sum + v, n + 1.0, m)
  {
    Distributes(m, sum, v);
    Distributes(Square(m), n, 1.0);
    assert (v - m) * (v - m) == v * v - 2.0 * (m * v) + m * m;
  }

  lemma {:induction false} SquaresSplit(values: seq<real>, m: real)
    ensures SquaresFrom(values, m) == Expanded(SquareSum(values), Sum(values), |values| as real, m)
  {
    if values != [] {
      var init, v := values[..|values| - 1], values[|values| - 1];
      SquaresSplit(init, m);
      OneMoreSquare(SquareSum(init), Sum(init), |init| as real, v, m);
      assert |values| as real == |init| as real + 1.0;
    }
  }

  lemma Quotient(x: real, d: real)
    requires d != 0.0
    ensures x / d * d == x && d * (x / d) == x
  {
  }

  lemma ExpandedAtMean(squares: real, sum: real, n: real, m: real)
    requires Times(n, m) == sum
    ensures Expanded(squares, sum, n, m) == squares - Times(n, Square(m))
  {
    assert m * (n * m) == n * (m * m);
  }

  lemma QuotientTimes(x: real, n: real)
    requires n != 0.0
    ensures Times(n, x / n) == Times(x / n, n) == x
  {
    Quotient(x, n);
  }

  /** The mean times the count is the sum, the variance times the count the squared
      distances from the mean. */
  lemma MeansTimesCount(values: seq<real>)
    requires values != []
    ensures Times(|values| as real, Mean(values)) == Sum(values)
    ensures Times(|values| as real, Variance(values)) == SquaresFrom(values, Mean(values))
  {
    QuotientTimes(Sum(values), |values| as real);
    QuotientTimes(SquaresFrom(values, Mean(values)), |values| as real);
  }

  lemma SquaresAround(values: seq<real>, mean: real)
    requires Times(|values| as real, mean) == Sum(values)
    ensures SquaresFrom(values, mean) == SquareSum(values) - Times(|values| as real, Square(mean))
  {
    SquaresSplit(values, mean);
    ExpandedAtMean(SquareSum(values), Sum(values), |values| as real, mean);
  }

  /** The squared distances from the mean are the sum of the squares less the square
      of the mean as often as there are values. */
  lemma SquaresAroundMean(values: seq<real>)
    requires values != []
    ensures
      SquaresFrom(values, Mean(values)) == SquareSum(values) - Times(|values| as real, Square(Mean(values)))
  {
    MeansTimesCount(values);
    SquaresAround(values, Mean(values));
  }

  lemma {:induction false} SumBetween(values: seq<real>, low: real, high: real)
    requires forall i | 0 <= i < |values| :: low <= values[i] <= high
    ensures |values| as real * low <= Sum(values) <= |values| as real * high
  {
    if values != [] {
      SumBetween(values[..|values| - 1], low, high);
    }
  }

  lemma QuotientBetween(x: real, n: real, low: real, high: real)
    requires n > 0.0 && n * low <= x <= n * high
    ensures low <= x / n <= high
  {
    var q := x / n;
    Quotient(x, n);
    assert q < low ==> n * q < n * low;
    assert q > high ==> n * q > n * high;
  }

  /** The mean lies between any bounds of the values. */
  lemma MeanIsBetween(values: seq<real>, low: real, high: real)
    requires values != [] && forall i | 0 <= i < |values| :: low <= values[i] <= high
    ensures low <= Mean(values) <= high
  {
    SumBetween(values, low, high);
    QuotientBetween(Sum(values), |values| as real, low, high);
  }

  /** The square of the coefficient of variation. */
  function SquaredVariation(values: seq<real>): real {
    var mean := Mean(values);
    if mean > 0.0 then SquareIsPositive(mean); Variance(values) / Square(mean) else 0.0
  }

  function MadRatio(values: seq<real>): real {
    if Median(values) > 0.0 then Mad(values) / Median(values) else 0.0
  }

  /** Neither the coefficient of variation nor the deviation ratio is too large. */
  predicate Quiet(values: seq<real>, p: Policy) {
    Steady(Variance(values), Mean(values), p) && Tight(Mad(values), Median(values), p)
  }

  predicate Steady(variance: real, mean: real, p: Policy) {
    mean <= 0.0 || variance <= Square(p.maxVariation) * Square(mean)
  }

  predicate Tight(mad: real, center: real, p: Policy) {
    center <= 0.0 || mad / center <= p.maxMad
  }

  /** So quiet means that the reported figures are within the policy's limits. */
  lemma QuietIsWithinLimits(values: seq<real>, p: Policy)
    requires p.maxVariation > 0.0 && p.maxMad > 0.0
    ensures Quiet(values, p) <==>
      SquaredVariation(values) <= Square(p.maxVariation) && MadRatio(values) <= p.maxMad
  {
    SteadyIsWithinLimit(Variance(values), Mean(values), p);
  }

  lemma SquareIsPositive(x: real)
    requires x > 0.0
    ensures Square(x) > 0.0
  {
    PositiveProduct(x, x);
  }

  lemma PositiveProduct(a: real, b: real)
    requires a > 0.0 && b > 0.0
    ensures Times(a, b) > 0.0
  {
  }

  lemma SteadyIsWithinLimit(variance: real, mean: real, p: Policy)
    requires p.maxVariation > 0.0
    ensures mean > 0.0 ==> Square(mean) > 0.0
    ensures Steady(variance, mean, p) <==>
      (if mean > 0.0 then variance / Square(mean) else 0.0) <= Square(p.maxVariation)
  {
    SquareIsPositive(p.maxVariation);
    if mean > 0.0 {
      SquareIsPositive(mean);
      QuotientAtMost(variance, Square(mean), Square(p.maxVariation));
    }
  }

  lemma QuotientAtMost(x: real, d: real, limit: real)
    requires d > 0.0
    ensures x / d <= limit <==> x <= limit * d
  {
    Quotient(x, d);
    var q := x / d;
    assert q <= limit ==> q * d <= limit * d;
    assert q > limit ==> q * d > limit * d;
  }

  /** Is a rate close enough to the centre of the opening window to join a
      region whose rates so far are `values`? */
  predicate Close(rate: real, values: seq<real>, center: real) {
    var wide, spread := 0.15 * center, 2.0 * Mad(values);
    Distance(rate, center) <= (if wide > spread then wide else spread)
  }

  /** Close means within 15 per cent of the centre, or within twice the deviation. */
  lemma CloseIsEither(rate: real, values: seq<real>, center: real)
    ensures Close(rate, values, center) <==>
      Distance(rate, center) <= 0.15 * center || Distance(rate, center) <= 2.0 * Mad(values)
  {
  }

  // ---- the simple definition ------------------------------------------------

  /** What the search asks, as functions of buckets: is the opening window quiet,
      may a candidate join the region that it opened, and what is reported? */
  datatype Rule = Rule(
    required: int,
    quiet: seq<Bucket> -> bool,
    joins: (seq<Bucket>, seq<Bucket>, Bucket) -> bool,
    figures: seq<Bucket> -> Figures)

  /** What is reported of a region's rates: the centre, the square of the
      coefficient of variation and the deviation ratio, none of them rounded. */
  datatype Figures = Figures(mbps: real, variation: real, mad: real)

  function FiguresOf(values: seq<real>): Figures {
    Figures(Median(values), SquaredVariation(values), MadRatio(values))
  }

  function RuleOf(p: Policy): Rule {
    Rule(p.required,
      (window: seq<Bucket>) => Quiet(Rates(window), p),
      (window: seq<Bucket>, region: seq<Bucket>, candidate: Bucket) =>
        Close(candidate.Mbps(), Rates(region), Median(Rates(window))),
      (region: seq<Bucket>) => FiguresOf(Rates(region)))
  }

  predicate Linked(u: seq<Bucket>, i: int)
    requires 0 < i < |u|
  {
    u[i].index == u[i - 1].index + 1 && u[i].streams == u[i - 1].streams
  }

  predicate Consecutive(u: seq<Bucket>) {
    forall i | 0 < i < |u| :: Linked(u, i)
  }

  /** The required window starting here is unbroken and quiet. */
  predicate Qualifies(u: seq<Bucket>, s: int, rule: Rule)
    requires rule.required >= 2
  {
    && 0 <= s <= s + rule.required <= |u|
    && Consecutive(u[s..s + rule.required])
    && rule.quiet(u[s..s + rule.required])
  }

  /** The first qualifying start at or after `s`. */
  function FirstFrom(u: seq<Bucket>, s: nat, rule: Rule): (r: Option<nat>)
    requires rule.required >= 2
    ensures r.None? ==> forall i | s <= i :: !Qualifies(u, i, rule)
    ensures r.Some? ==>
      s <= r.value && Qualifies(u, r.value, rule) && forall i | s <= i < r.value :: !Qualifies(u, i, rule)
    decreases |u| - s
  {
    if s + rule.required > |u| then None
    else if Qualifies(u, s, rule) then Some(s)
    else FirstFrom(u, s + 1, rule)
  }

  /** May the region [s, e) take in the bucket at e? */
  predicate Joins(u: seq<Bucket>, s: nat, e: nat, rule: Rule)
    requires 2 <= rule.required && s + rule.required <= e < |u|
  {
    Linked(u, e) && rule.joins(u[s..s + rule.required], u[s..e], u[e])
  }

  function Extend(u: seq<Bucket>, s: nat, e: nat, rule: Rule): (r: nat)
    requires 2 <= rule.required && s + rule.required <= e <= |u|
    ensures e <= r <= |u|
    ensures forall i | e <= i < r :: Joins(u, s, i, rule)
    ensures r < |u| ==> !Joins(u, s, r, rule)
    decreases |u| - e
  {
    if e < |u| && Joins(u, s, e, rule) then Extend(u, s, e + 1, rule) else e
  }

  function RegionOf(u: seq<Bucket>, s: nat, rule: Rule): Region
    requires 2 <= rule.required && s + rule.required <= |u|
  {
    Span(u, s, Extend(u, s, s + rule.required, rule), rule)
  }

  function Span(u: seq<Bucket>, s: nat, e: nat, rule: Rule): Region
    requires s < e <= |u|
  {
    var f := rule.figures(u[s..e]);
    Region(true, Settled, u[s].index, u[e - 1].index, e - s, f.mbps, f.variation, f.mad)
  }

  function Unsettled(u: seq<Bucket>, rule: Rule): Region
    requires u != []
  {
    var f := rule.figures(u);
    Region(false, DidNotStabilise, u[0].index, u[|u| - 1].index, |u|, f.mbps, f.variation, f.mad)
  }

  /** The detector on usable buckets. */
  function Found(u: seq<Bucket>, rule: Rule): Region
    requires 2 <= rule.required
  {
    if |u| < rule.required then Region(false, InsufficientBuckets, 0, 0, |u|, 0.0, 0.0, 0.0)
    else
      var first := FirstFrom(u, 0, rule);
      if first.Some? then RegionOf(u, first.value, rule)
      else Unsettled(u, rule)
  }

  function Detected(buckets: seq<Bucket>, policy: Policy): Region {
    var p := Normalised(policy);
    Found(UsableOf(buckets, p), RuleOf(p))
  }

  // ---- properties -----------------------------------------------------------

  /** Stable exactly when some required window of usable buckets qualifies. */
  lemma StableWhenSomeWindowQualifies(u: seq<Bucket>, rule: Rule)
    requires 2 <= rule.required
    ensures Found(u, rule).stable <==> exists s :: Qualifies(u, s, rule)
  {
    if |u| >= rule.required {
      var first := FirstFrom(u, 0, rule);
      assert forall s | Qualifies(u, s, rule) :: 0 <= s;
    }
  }

  lemma {:induction false} LinkedIndices(u: seq<Bucket>, s: nat, i: nat)
    requires s <= i < |u| && forall j | s < j <= i :: Linked(u, j)
    ensures u[i].index == u[s].index + i - s && u[i].streams == u[s].streams
  {
    if s < i {
      LinkedIndices(u, s, i - 1);
      assert Linked(u, i);
    }
  }

  /** The region found from a qualifying start is an unbroken run. */
  lemma ExtendStaysLinked(u: seq<Bucket>, s: nat, rule: Rule, j: nat)
    requires 2 <= rule.required && Qualifies(u, s, rule)
    requires s < j < Extend(u, s, s + rule.required, rule)
    ensures Linked(u, j)
  {
    var window := u[s..s + rule.required];
    if j < s + rule.required {
      assert Linked(window, j - s);
      assert window[j - s] == u[j] && window[j - s - 1] == u[j - 1];
    } else {
      assert Joins(u, s, j, rule);
    }
  }

  /** A stable region spans exactly the consecutive usable buckets it counts,
      all with one stream count, starts at the earliest qualifying window, ends where
      the next bucket may not join, and reports the figures of those buckets. */
  lemma RegionIsUnbroken(u: seq<Bucket>, rule: Rule) returns (s: nat)
    requires 2 <= rule.required && Found(u, rule).stable
    ensures
      var r := Found(u, rule);
      && Qualifies(u, s, rule) && (forall i | 0 <= i < s :: !Qualifies(u, i, rule))
      && r.count == r.end - r.start + 1 && r.count >= rule.required
      && s + r.count <= |u|
      && (forall i | s <= i < s + r.count :: u[i].index == r.start + i - s && u[i].streams == u[s].streams)
      && (s + r.count == |u| || !Joins(u, s, s + r.count, rule))
      && Figures(r.mbps, r.variation, r.mad) == rule.figures(u[s..s + r.count])
  {
    s := FirstFrom(u, 0, rule).value;
    var e := Extend(u, s, s + rule.required, rule);
    forall i | s <= i < e ensures u[i].index == u[s].index + i - s && u[i].streams == u[s].streams {
      forall j | s < j <= i ensures Linked(u, j) {
        ExtendStaysLinked(u, s, rule, j);
      }
      LinkedIndices(u, s, i);
    }
  }

  lemma {:induction false} UsableAppend(a: seq<Bucket>, b: seq<Bucket>, p: Policy)
    ensures UsableOf(a + b, p) == UsableOf(a, p) + UsableOf(b, p)
  {
    if b == [] {
      assert a + b == a;
    } else {
      assert (a + b)[..|a + b| - 1] == a + b[..|b| - 1];
      UsableAppend(a, b[..|b| - 1], p);
    }
  }

  lemma QualifiesStays(u: seq<Bucket>, x: seq<Bucket>, s: int, rule: Rule)
    requires 2 <= rule.required && s + rule.required <= |u|
    ensures Qualifies(u + x, s, rule) == Qualifies(u, s, rule)
  {
    if 0 <= s {
      assert (u + x)[s..s + rule.required] == u[s..s + rule.required];
    }
  }

  lemma {:induction false} ExtendGrows(u: seq<Bucket>, x: seq<Bucket>, s: nat, e: nat, rule: Rule)
    requires 2 <= rule.required && s + rule.required <= e <= |u|
    ensures Extend(u + x, s, e, rule) >= Extend(u, s, e, rule)
    decreases |u| - e
  {
    if e < |u| && Joins(u, s, e, rule) {
      assert (u + x)[s..e] == u[s..e];
      assert (u + x)[s..s + rule.required] == u[s..s + rule.required];
      assert Joins(u + x, s, e, rule);
      ExtendGrows(u, x, s, e + 1, rule);
    }
  }

  lemma FirstStays(u: seq<Bucket>, x: seq<Bucket>, rule: Rule)
    requires 2 <= rule.required && FirstFrom(u, 0, rule).Some?
    ensures FirstFrom(u + x, 0, rule) == FirstFrom(u, 0, rule)
  {
    var s := FirstFrom(u, 0, rule).value;
    forall i | 0 <= i <= s ensures Qualifies(u + x, i, rule) == Qualifies(u, i, rule) {
      QualifiesStays(u, x, i, rule);
    }
    assert Qualifies(u + x, s, rule);
  }

  /** If the earlier region is stable, so is the later one: same start, an end
      no smaller, at least as many buckets. */
  predicate Confirms(before: Region, after: Region) {
    before.stable ==>
      after.stable && after.start == before.start && after.end >= before.end && after.count >= before.count
  }

  /** Usable evidence added after a stable region confirms it, whatever the two
      tests of the rule are. */
  lemma FoundStaysStable(u: seq<Bucket>, x: seq<Bucket>, rule: Rule)
    requires 2 <= rule.required
    ensures Confirms(Found(u, rule), Found(u + x, rule))
  {
    if Found(u, rule).stable {
      FirstStays(u, x, rule);
      ExtendGrows(u, x, FirstFrom(u, 0, rule).value, FirstFrom(u, 0, rule).value + rule.required, rule);
      var s0 := RegionIsUnbroken(u, rule);
      var s1 := RegionIsUnbroken(u + x, rule);
    }
  }

  /** The detector is stable on every extension of a list it is stable on. */
  lemma StableStaysStable(buckets: seq<Bucket>, more: seq<Bucket>, policy: Policy)
    ensures Confirms(Detected(buckets, policy), Detected(buckets + more, policy))
  {
    var p := Normalised(policy);
    UsableAppend(buckets, more, p);
    FoundStaysStable(UsableOf(buckets, p), UsableOf(more, p), RuleOf(p));
  }

  function Larger(a: real, b: real): real { if a > b then a else b }

  /** The decision for both directions, from the region found for each. */
  function Overlapped(down: Region, up: Region, required: int): Region {
    var mbps := down.mbps + up.mbps;
    if !down.stable && !up.stable then
      var short := down.reason == InsufficientBuckets || up.reason == InsufficientBuckets;
      Region(false, if short then InsufficientBuckets else NeitherStable,
        0, 0, Min(down.count, up.count), mbps, 0.0, 0.0)
    else if !down.stable then
      Region(false, if down.reason == InsufficientBuckets then down.reason else DownloadNotStable,
        0, 0, down.count, mbps, 0.0, 0.0)
    else if !up.stable then
      Region(false, if up.reason == InsufficientBuckets then up.reason else UploadNotStable,
        0, 0, up.count, mbps, 0.0, 0.0)
    else
      var start, end := Max(down.start, up.start), Min(down.end, up.end);
      if end - start + 1 < required then Region(false, NotOverlapping, 0, 0, Max(end - start + 1, 0), mbps, 0.0, 0.0)
      else
        Region(true, Settled, start, end, end - start + 1, mbps,
          Larger(down.variation, up.variation), Larger(down.mad, up.mad))
  }

  predicate Spans(r: Region, index: int) {
    r.start <= index <= r.end
  }

  /** The result for both directions is stable exactly if both are and their regions
      share enough buckets; it spans the buckets they share, and otherwise names the
      direction at fault, or the lack of buckets. */
  lemma OverlapIsExact(down: Region, up: Region, required: int)
    requires down.reason == Settled <==> down.stable
    requires up.reason == Settled <==> up.stable
    ensures
      var r := Overlapped(down, up, required);
      && (r.stable <==>
            && down.stable && up.stable
            && down.end - up.start + 1 >= required && up.end - down.start + 1 >= required
            && down.end - down.start + 1 >= required && up.end - up.start + 1 >= required)
      && (r.stable ==> forall i :: Spans(r, i) <==> Spans(down, i) && Spans(up, i))
      && r.mbps == down.mbps + up.mbps
      && (r.stable ==>
            && r.variation >= down.variation && r.variation >= up.variation
            && r.mad >= down.mad && r.mad >= up.mad
            && r.variation in {down.variation, up.variation} && r.mad in {down.mad, up.mad})
      && (r.reason == NotOverlapping <==> down.stable && up.stable && !r.stable)
      && (!(down.stable && up.stable) ==>
            (r.reason == InsufficientBuckets
             <==> down.reason == InsufficientBuckets || up.reason == InsufficientBuckets))
      && (r.reason == DownloadNotStable <==> !down.stable && up.stable && down.reason != InsufficientBuckets)
      && (r.reason == UploadNotStable <==> down.stable && !up.stable && up.reason != InsufficientBuckets)
  {
  }

  /** Both directions, as DetectBidirectionalStableRegion reports them. */
  function DetectedBoth(download: seq<Bucket>, upload: seq<Bucket>, policy: Policy): Region {
    var p := Normalised(policy);
    Overlapped(Detected(download, p), Detected(upload, p), p.required)
  }

  /** A stable result for both directions is the overlap of two stable regions
      and long enough, and later evidence for either direction confirms it. */
  lemma BothStayStable(down: Region, down': Region, up: Region, up': Region, required: int)
    requires Confirms(down, down') && Confirms(up, up')
    ensures Confirms(Overlapped(down, up, required), Overlapped(down', up', required))
    ensures
      var both := Overlapped(down, up, required);
      both.stable ==>
        && down.stable && up.stable && both.count == both.end - both.start + 1 >= required
        && both.start >= down.start && both.start >= up.start && both.end <= down.end && both.end <= up.end
  {
  }

  /** Why a region is not stable: too few usable buckets, or none of them quiet. */
  lemma FoundReasons(u: seq<Bucket>, rule: Rule)
    requires 2 <= rule.required
    ensures Found(u, rule).reason == Settled <==> Found(u, rule).stable
    ensures Found(u, rule).reason == InsufficientBuckets <==> |u| < rule.required
    ensures !Found(u, rule).stable ==> Found(u, rule).count == |u|
  {
  }

  // ---- a steady stream ------------------------------------------------------

  lemma {:induction false} NoSquares(values: seq<real>, v: real)
    requires forall i | 0 <= i < |values| :: values[i] == v
    ensures SquaresFrom(values, v) == 0.0
  {
    if values != [] {
      NoSquares(values[..|values| - 1], v);
    }
  }

  lemma ConstantMedian(values: seq<real>, v: real)
    requires values != [] && forall i | 0 <= i < |values| :: values[i] == v
    ensures Median(values) == v
  {
    var low, high := MedianIsCentral(values);
  }

  lemma ConstantIsQuiet(values: seq<real>, v: real, p: Policy)
    requires values != [] && v > 0.0 && p.maxVariation > 0.0 && p.maxMad > 0.0
    requires forall i | 0 <= i < |values| :: values[i] == v
    ensures Quiet(values, p) && Mad(values) == 0.0 && Median(values) == v
  {
    ConstantMedian(values, v);
    ConstantMedian(Deviations(values, v), 0.0);
    MeanIsBetween(values, v, v);
    NoSquares(values, v);
    QuietIsWithinLimits(values, p);
  }

  /** Enough unbroken buckets of one rate are a stable region as a whole, at that rate. */
  lemma SteadyStreamIsStable(u: seq<Bucket>, v: real, policy: Policy)
    requires v > 0.0 && |u| >= Normalised(policy).required && Consecutive(u)
    requires forall i | 0 <= i < |u| :: u[i].Mbps() == v
    ensures
      var r := Found(u, RuleOf(Normalised(policy)));
      r.stable && r.count == |u| && r.start == u[0].index && r.mbps == v
  {
    var p := Normalised(policy);
    var rule := RuleOf(p);
    ConstantIsQuiet(Rates(u[0..rule.required]), v, p);
    assert Consecutive(u[0..rule.required]) by {
      forall i | 0 < i < rule.required ensures Linked(u[0..rule.required], i) {
        assert Linked(u, i);
      }
    }
    assert Qualifies(u, 0, rule);
    var s := RegionIsUnbroken(u, rule);
    assert s == 0;
    var r := Found(u, rule);
    ConstantIsQuiet(Rates(u[0..r.count]), v, p);
    forall e: nat | rule.required <= e < |u| ensures Joins(u, 0, e, rule) {
      SteadyJoins(u, v, e, p);
    }
  }

  lemma SteadyJoins(u: seq<Bucket>, v: real, e: nat, p: Policy)
    requires v > 0.0 && 2 <= p.required <= e < |u| && Consecutive(u) && p.maxVariation > 0.0 && p.maxMad > 0.0
    requires forall i | 0 <= i < |u| :: u[i].Mbps() == v
    ensures Joins(u, 0, e, RuleOf(p))
  {
    assert Linked(u, e);
    ConstantIsQuiet(Rates(u[0..p.required]), v, p);
    CloseIsEither(v, Rates(u[0..e]), v);
  }

  // ---- the code -------------------------------------------------------------

  method MeanOf(values: seq<real>) returns (mean: real)
    requires values != []
    ensures mean == Mean(values)
  {
    mean := 0.0;
    for i := 0 to |values|
      invariant mean == Sum(values[..i])
    {
      assert values[..i + 1][..i] == values[..i];
      mean := mean + values[i];
    }
    assert values[..|values|] == values;
    mean := mean / |values| as real;
  }

  method VarianceOf(values: seq<real>, mean: real) returns (variance: real)
    requires values != [] && mean == Mean(values)
    ensures variance == Variance(values)
  {
    var sum := 0.0;
    for i := 0 to |values|
      invariant sum == SquaresFrom(values[..i], mean)
    {
      assert values[..i + 1][..i] == values[..i];
      var d := values[i] - mean;
      sum := sum + d * d;
    }
    assert values[..|values|] == values;
    variance := sum / |values| as real;
  }

  /** robustSpread, followed by the comparison of both ratios with their limits. */
  method IsQuiet(values: seq<real>, p: Policy) returns (quiet: bool)
    requires values != []
    ensures quiet == Quiet(values, p)
  {
    var center := Median(values);
    var mean := MeanOf(values);
    var variance := VarianceOf(values, mean);
    quiet := Steady(variance, mean, p) && Tight(Mad(values), center, p);
  }

  method ConsecutiveWithSameStreams(buckets: seq<Bucket>) returns (ok: bool)
    ensures ok == Consecutive(buckets)
  {
    var index := 1;
    while index < |buckets|
      invariant 1 <= index
      invariant forall i | 0 < i < index && i < |buckets| :: Linked(buckets, i)
    {
      if !Linked(buckets, index) { return false; }
      index := index + 1;
    }
    return true;
  }

  method UsableBuckets(buckets: seq<Bucket>, p: Policy) returns (usable: seq<Bucket>)
    ensures usable == UsableOf(buckets, p)
  {
    usable := [];
    for i := 0 to |buckets|
      invariant usable == UsableOf(buckets[..i], p)
    {
      assert buckets[..i + 1][..i] == buckets[..i];
      if Usable(buckets[i], p) { usable := usable + [buckets[i]]; }
    }
    assert buckets[..|buckets|] == buckets;
  }

  /** robustSpread on a window decides the first test of the rule. */
  method WindowIsQuiet(window: seq<Bucket>, p: Policy) returns (ok: bool)
    requires window != []
    ensures ok == RuleOf(p).quiet(window)
  {
    ok := IsQuiet(Rates(window), p);
  }

  /** The outer loop of DetectStableRegion, given its two tests: the first start
      whose window passes them. */
  method FirstWindow(usable: seq<Bucket>, rule: Rule) returns (first: Option<nat>)
    requires 2 <= rule.required
    ensures first == FirstFrom(usable, 0, rule)
  {
    var start := 0;
    while start + rule.required <= |usable|
      invariant 0 <= start
      invariant FirstFrom(usable, 0, rule) == FirstFrom(usable, start, rule)
    {
      var window := usable[start..start + rule.required];
      var ok := ConsecutiveWithSameStreams(window);
      if ok && rule.quiet(window) { return Some(start); }
      start := start + 1;
    }
    first := None;
  }

  /** The search of DetectStableRegion: the region that opens at that start. */
  method Search(usable: seq<Bucket>, rule: Rule) returns (region: Region)
    requires 2 <= rule.required <= |usable|
    ensures region == Found(usable, rule)
  {
    var first := FirstWindow(usable, rule);
    if first.None? { return Unsettled(usable, rule); }
    var end := ExtendRegion(usable, first.value, rule);
    region := Span(usable, first.value, end, rule);
  }

  /** The inner loop of DetectStableRegion. */
  method ExtendRegion(usable: seq<Bucket>, start: nat, rule: Rule) returns (end: nat)
    requires 2 <= rule.required && start + rule.required <= |usable|
    ensures start + rule.required <= end <= |usable|
    ensures end == Extend(usable, start, start + rule.required, rule)
  {
    end := start + rule.required;
    while end < |usable|
      invariant start + rule.required <= end <= |usable|
      invariant Extend(usable, start, start + rule.required, rule) == Extend(usable, start, end, rule)
    {
      if !Linked(usable, end) { break; }
      if !rule.joins(usable[start..start + rule.required], usable[start..end], usable[end]) { break; }
      end := end + 1;
    }
  }

  /** DetectStableRegion. */
  method DetectStableRegion(buckets: seq<Bucket>, policy: Policy) returns (region: Region)
    ensures region == Detected(buckets, policy)
  {
    var p := Normalised(policy);
    var usable := UsableBuckets(buckets, p);
    if |usable| < p.required { return Region(false, InsufficientBuckets, 0, 0, |usable|, 0.0, 0.0, 0.0); }
    region := Search(usable, RuleOf(p));
  }
}
