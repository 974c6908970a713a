/** One-minute latency buckets and their summaries
    (internal/aggregate/aggregate.go), over real numbers. */
module MinuteSummary {
  import opened Arithmetic
  import opened Stability

  const MINUTE: int := 60_000_000_000

  /** A target, numbered by the byte order of its name. */
  type Target = nat

  datatype Sample = Sample(
    timestamp: int, target: Target, rtt: real, success: bool,
    fallback: string, targetClass: string, probeMethod: string)

  datatype Key = Key(target: Target, minute: int)

  function KeyOf(s: Sample): Key {
    Key(s.target, s.timestamp / MINUTE)
  }

  datatype Cell = Cell(
    key: Key, attempts: nat, values: seq<real>, fallback: string, targetClass: string, probeMethod: string)

  function Opened(s: Sample): Cell {
    Cell(KeyOf(s), 0, [], s.fallback, s.targetClass, s.probeMethod)
  }

  predicate Bounded(rtt: real) {
    0.0 <= rtt <= 60000.0
  }

  function Counted(c: Cell, s: Sample): Cell {
    Cell(c.key, c.attempts + 1,
      if s.success && Bounded(s.rtt) then c.values + [s.rtt] else c.values,
      if s.fallback != "" && s.fallback != "none" then s.fallback else c.fallback,
      if s.targetClass != "" then s.targetClass else c.targetClass,
      if s.probeMethod != "" then s.probeMethod else c.probeMethod)
  }

  /** The cell that a non-empty list of samples fills, in order. */
  function CellOf(samples: seq<Sample>): Cell
    requires samples != []
  {
    if |samples| == 1 then Counted(Opened(samples[0]), samples[0])
    else Counted(CellOf(samples[..|samples| - 1]), samples[|samples| - 1])
  }

  datatype Summary = Summary(
    key: Key, min: real, max: real, p50: real, p95: real, jitter: real, loss: real, samples: nat,
    fallback: string, targetClass: string, probeMethod: string)

  function Rank(count: nat, percent: nat): nat {
    (percent * count + 99) / 100
  }

  /** The nearest-rank percentile, for the fraction percent / 100. */
  function Percentile(ordered: seq<real>, percent: nat): real {
    if ordered == [] then 0.0
    else ordered[Min(Max(Rank(|ordered|, percent) - 1, 0), |ordered| - 1)]
  }

  function Wobble(values: seq<real>): real {
    if |values| < 2 then 0.0
    else Wobble(values[..|values| - 1]) + Distance(values[|values| - 1], values[|values| - 2])
  }

  function Summarised(c: Cell): Summary {
    var ordered, n := Sort(c.values), |c.values|;
    Summary(c.key,
      if n > 0 then ordered[0] else 0.0, if n > 0 then ordered[n - 1] else 0.0,
      Percentile(ordered, 50), Percentile(ordered, 95),
      if n > 1 then Wobble(c.values) / (n - 1) as real else 0.0,
      if c.attempts > 0 then 100.0 * (c.attempts - n) as real / c.attempts as real else 0.0,
      c.attempts,
      if c.fallback == "" then "none" else c.fallback, c.targetClass, c.probeMethod)
  }

  // ---- what a summary means -------------------------------------------------

  ghost predicate AllBounded(values: seq<real>) {
    forall i | 0 <= i < |values| :: Bounded(values[i])
  }

  lemma {:induction false} CellCounts(samples: seq<Sample>)
    requires samples != []
    ensures
      var c := CellOf(samples);
      c.attempts == |samples| && |c.values| <= c.attempts && AllBounded(c.values) && c.key == KeyOf(samples[0])
  {
    if |samples| > 1 {
      CellCounts(samples[..|samples| - 1]);
    }
  }

  lemma SortKeeps(values: seq<real>, i: int)
    requires 0 <= i < |values|
    ensures Sort(values)[i] in values
  {
    SortIsOrdered(values);
    assert Sort(values)[i] in multiset(Sort(values));
  }

  lemma RankOrder(count: nat, low: nat, high: nat)
    requires low <= high
    ensures Rank(count, low) <= Rank(count, high)
  {
    assert low * count <= high * count;
  }

  lemma PercentileOrder(ordered: seq<real>, low: nat, high: nat)
    requires ordered != [] && Ordered(ordered) && low <= high
    ensures ordered[0] <= Percentile(ordered, low) <= Percentile(ordered, high) <= ordered[|ordered| - 1]
  {
    RankOrder(|ordered|, low, high);
  }

  lemma RankBounds(count: nat, percent: nat)
    requires count > 0 && 0 < percent <= 100
    ensures 1 <= Rank(count, percent) <= count
    ensures 100 * Rank(count, percent) >= percent * count > 100 * (Rank(count, percent) - 1)
  {
    assert 0 < percent * count <= 100 * count;
  }

  /** At least `percent` in a hundred of the values are no larger than the
      percentile, and with one value fewer that is no longer so. */
  lemma PercentileIsNearestRank(ordered: seq<real>, percent: nat)
    requires ordered != [] && Ordered(ordered) && 0 < percent <= 100
    ensures
      var rank := Rank(|ordered|, percent);
      && 1 <= rank <= |ordered| && Percentile(ordered, percent) == ordered[rank - 1]
      && 100 * rank >= percent * |ordered| > 100 * (rank - 1)
      && (forall i | 0 <= i < rank :: ordered[i] <= Percentile(ordered, percent))
      && (forall i | rank <= i < |ordered| :: ordered[i] >= Percentile(ordered, percent))
  {
    RankBounds(|ordered|, percent);
  }

  lemma RatioInRange(part: real, whole: real)
    requires 0.0 <= part <= whole && whole > 0.0
    ensures 0.0 <= 100.0 * part / whole <= 100.0
  {
    var q := 100.0 * part / whole;
    assert q * whole == 100.0 * part;
    assert q < 0.0 ==> q * whole < 0.0;
    assert q > 100.0 ==> q * whole > 100.0 * whole;
  }

  lemma {:induction false} WobbleIsBounded(values: seq<real>)
    requires AllBounded(values)
    ensures 0.0 <= Wobble(values)
    ensures |values| > 0 ==> Wobble(values) <= 60000.0 * (|values| - 1) as real
  {
    if |values| >= 2 {
      WobbleIsBounded(values[..|values| - 1]);
    }
  }

  lemma LatenciesAreOrdered(values: seq<real>)
    requires values != [] && AllBounded(values)
    ensures
      var o := Sort(values);
      0.0 <= o[0] <= Percentile(o, 50) <= Percentile(o, 95) <= o[|o| - 1] <= 60000.0
  {
    SortIsOrdered(values);
    PercentileOrder(Sort(values), 50, 95);
    SortKeeps(values, 0);
    SortKeeps(values, |values| - 1);
  }

  lemma LossIsAPercentage(c: Cell)
    requires |c.values| <= c.attempts && c.attempts > 0
    ensures 0.0 <= Summarised(c).loss <= 100.0
  {
    RatioInRange((c.attempts - |c.values|) as real, c.attempts as real);
  }

  lemma RatioBelow(sum: real, count: real, limit: real)
    requires count > 0.0 && 0.0 <= sum <= limit * count
    ensures 0.0 <= sum / count <= limit
  {
    var q := sum / count;
    assert q * count == sum;
    assert q < 0.0 ==> q * count < 0.0;
    assert q > limit ==> q * count > limit * count;
  }

  lemma JitterIsBounded(c: Cell)
    requires AllBounded(c.values)
    ensures 0.0 <= Summarised(c).jitter <= 60000.0
  {
    WobbleIsBounded(c.values);
    if |c.values| > 1 {
      RatioBelow(Wobble(c.values), (|c.values| - 1) as real, 60000.0);
    }
  }

  /** The summary of a minute's samples: it counts them all, its loss is a
      percentage, and its latencies and jitter are ordered and bounded. */
  lemma SummaryIsSound(samples: seq<Sample>)
    requires samples != []
    ensures
      var s := Summarised(CellOf(samples));
      && s.samples == |samples| && s.key == KeyOf(samples[0])
      && 0.0 <= s.loss <= 100.0 && 0.0 <= s.jitter <= 60000.0
      && 0.0 <= s.min <= s.p50 <= s.p95 <= s.max <= 60000.0
  {
    CellCounts(samples);
    var c := CellOf(samples);
    LossIsAPercentage(c);
    JitterIsBounded(c);
    if c.values != [] {
      LatenciesAreOrdered(c.values);
    }
  }

  // ---- a summary told from its samples --------------------------------------

  predicate Answered(s: Sample) {
    s.success && Bounded(s.rtt)
  }

  /** The samples that failed or took longer than is recorded. */
  function Lost(samples: seq<Sample>): nat {
    if samples == [] then 0
    else Lost(samples[..|samples| - 1]) + if Answered(samples[|samples| - 1]) then 0 else 1
  }

  function Latencies(samples: seq<Sample>): seq<real> {
    if samples == [] then []
    else
      var before, last := Latencies(samples[..|samples| - 1]), samples[|samples| - 1];
      if Answered(last) then before + [last.rtt] else before
  }

  /** A cell holds the latencies of its answered samples, in order. */
  lemma {:induction false} CellHoldsLatencies(samples: seq<Sample>)
    requires samples != []
    ensures CellOf(samples).values == Latencies(samples) && |Latencies(samples)| + Lost(samples) == |samples|
  {
    if |samples| > 1 {
      CellHoldsLatencies(samples[..|samples| - 1]);
    } else {
      assert samples[..0] == [] && Latencies([]) == [] && Lost([]) == 0;
    }
  }

  /** The distances between neighbouring values. */
  function Steps(values: seq<real>): seq<real> {
    if |values| < 2 then []
    else seq(|values| - 1, i requires 0 <= i < |values| - 1 => Distance(values[i], values[i + 1]))
  }

  lemma {:induction false} WobbleIsSumOfSteps(values: seq<real>)
    ensures Wobble(values) == Sum(Steps(values))
  {
    if |values| >= 2 {
      var init, n := values[..|values| - 1], |values|;
      WobbleIsSumOfSteps(init);
      assert Steps(values)[..n - 2] == Steps(init);
      assert Steps(values)[n - 2] == Distance(values[n - 2], values[n - 1]);
    }
  }

  lemma LossTimesCount(c: Cell)
    requires |c.values| <= c.attempts && c.attempts > 0
    ensures Times(Summarised(c).loss, c.attempts as real) == 100.0 * (c.attempts - |c.values|) as real
  {
    QuotientTimes(100.0 * (c.attempts - |c.values|) as real, c.attempts as real);
  }

  lemma JitterTimesCount(c: Cell)
    requires |c.values| > 1
    ensures Times(Summarised(c).jitter, (|c.values| - 1) as real) == Wobble(c.values)
  {
    QuotientTimes(Wobble(c.values), (|c.values| - 1) as real);
  }

  /** At least `percent` in a hundred of the values are no larger, and fewer than that
      are smaller. */
  ghost predicate AtPercent(values: seq<real>, percent: nat, x: real) {
    x in values && 100 * CountOf(values, AtMost(x)) >= percent * |values| > 100 * CountOf(values, Below(x))
  }

  lemma PercentileByCount(values: seq<real>, percent: nat)
    requires values != [] && 0 < percent <= 100
    ensures AtPercent(values, percent, Percentile(Sort(values), percent))
  {
    RankBounds(|values|, percent);
    RankByCount(values, Rank(|values|, percent));
  }

  lemma ExtremesBound(values: seq<real>)
    requires values != []
    ensures Sort(values)[0] in values && Sort(values)[|values| - 1] in values
    ensures forall v | v in values :: Sort(values)[0] <= v <= Sort(values)[|values| - 1]
  {
    var o := Sort(values);
    SortIsOrdered(values);
    SortKeeps(values, 0);
    SortKeeps(values, |values| - 1);
    forall v | v in values ensures o[0] <= v <= o[|o| - 1] {
      assert v in multiset(o);
      var i :| 0 <= i < |o| && o[i] == v;
    }
  }

  /** The summary of a minute, told from its samples: the share that was lost, the
      least and the greatest latency, the two percentiles and the mean step between
      neighbouring latencies. */
  lemma SummaryTellsSamples(samples: seq<Sample>)
    requires samples != []
    ensures
      var s, l := Summarised(CellOf(samples)), Latencies(samples);
      && Times(s.loss, |samples| as real) == 100.0 * Lost(samples) as real
      && (l == [] ==> s.min == s.max == s.p50 == s.p95 == 0.0)
      && (l != [] ==>
            && s.min in l && s.max in l && (forall v | v in l :: s.min <= v <= s.max)
            && AtPercent(l, 50, s.p50) && AtPercent(l, 95, s.p95))
      && (if |l| > 1 then Times(s.jitter, (|l| - 1) as real) == Sum(Steps(l)) else s.jitter == 0.0)
  {
    var c := CellOf(samples);
    CellCounts(samples);
    CellHoldsLatencies(samples);
    LossTimesCount(c);
    if |c.values| > 1 {
      JitterTimesCount(c);
      WobbleIsSumOfSteps(c.values);
    }
    if c.values != [] {
      ExtremesBound(c.values);
      PercentileByCount(c.values, 50);
      PercentileByCount(c.values, 95);
    }
  }

  /** The latest label that says something, or none of them does. */
  ghost predicate Latest(labels: seq<string>, silent: set<string>, value: string) {
    if forall i | 0 <= i < |labels| :: labels[i] in silent then value in silent
    else
      exists i :: 0 <= i < |labels| && labels[i] == value && value !in silent
        && forall j | i < j < |labels| :: labels[j] in silent
  }

  lemma LatestNext(labels: seq<string>, silent: set<string>, value: string, next: string)
    requires Latest(labels, silent, value)
    ensures Latest(labels + [next], silent, if next in silent then value else next)
  {
    var all := labels + [next];
    assert all[|labels|] == next;
    if next in silent && !forall i | 0 <= i < |labels| :: labels[i] in silent {
      var i :| 0 <= i < |labels| && labels[i] == value && value !in silent
        && forall j | i < j < |labels| :: labels[j] in silent;
      assert all[i] == value && value !in silent;
    }
  }

  function Fallbacks(samples: seq<Sample>): seq<string> {
    seq(|samples|, i requires 0 <= i < |samples| => samples[i].fallback)
  }

  function Classes(samples: seq<Sample>): seq<string> {
    seq(|samples|, i requires 0 <= i < |samples| => samples[i].targetClass)
  }

  function Methods(samples: seq<Sample>): seq<string> {
    seq(|samples|, i requires 0 <= i < |samples| => samples[i].probeMethod)
  }

  lemma {:induction false} CellFallback(samples: seq<Sample>)
    requires samples != []
    ensures Latest(Fallbacks(samples), {"", "none"}, CellOf(samples).fallback)
  {
    var init, s := samples[..|samples| - 1], samples[|samples| - 1];
    if |samples| > 1 {
      CellFallback(init);
      LatestNext(Fallbacks(init), {"", "none"}, CellOf(init).fallback, s.fallback);
      assert Fallbacks(samples) == Fallbacks(init) + [s.fallback];
    } else {
      assert Fallbacks(samples)[0] == s.fallback;
    }
  }

  lemma {:induction false} CellClass(samples: seq<Sample>)
    requires samples != []
    ensures Latest(Classes(samples), {""}, CellOf(samples).targetClass)
  {
    var init, s := samples[..|samples| - 1], samples[|samples| - 1];
    if |samples| > 1 {
      CellClass(init);
      LatestNext(Classes(init), {""}, CellOf(init).targetClass, s.targetClass);
      assert Classes(samples) == Classes(init) + [s.targetClass];
    } else {
      assert Classes(samples)[0] == s.targetClass;
    }
  }

  lemma {:induction false} CellMethod(samples: seq<Sample>)
    requires samples != []
    ensures Latest(Methods(samples), {""}, CellOf(samples).probeMethod)
  {
    var init, s := samples[..|samples| - 1], samples[|samples| - 1];
    if |samples| > 1 {
      CellMethod(init);
      LatestNext(Methods(init), {""}, CellOf(init).probeMethod, s.probeMethod);
      assert Methods(samples) == Methods(init) + [s.probeMethod];
    } else {
      assert Methods(samples)[0] == s.probeMethod;
    }
  }

  /** The summary is of its samples' target and minute, and carries the latest label
      of each sort that a sample gave; without any fallback it says none. */
  lemma SummaryIsLabelled(samples: seq<Sample>)
    requires samples != []
    ensures
      var s := Summarised(CellOf(samples));
      && s.key.target == samples[0].target
      && s.key.minute * MINUTE <= samples[0].timestamp < s.key.minute * MINUTE + MINUTE
      && Latest(Fallbacks(samples), {"", "none"}, s.fallback) && s.fallback != ""
      && Latest(Classes(samples), {""}, s.targetClass) && Latest(Methods(samples), {""}, s.probeMethod)
  {
    CellCounts(samples);
    CellFallback(samples);
    CellClass(samples);
    CellMethod(samples);
    var c := CellOf(samples);
    if c.fallback == "" {
      assert forall i | 0 <= i < |Fallbacks(samples)| :: Fallbacks(samples)[i] in {"", "none"};
    }
  }

  method JitterOf(values: seq<real>) returns (jitter: real)
    ensures jitter == if |values| > 1 then Wobble(values) / (|values| - 1) as real else 0.0
  {
    jitter := 0.0;
    var index := 1;
    while index < |values|
      invariant 1 <= index && (index <= |values| ==> jitter == Wobble(values[..index]))
      invariant index > |values| ==> values == [] && jitter == 0.0
    {
      assert values[..index + 1][..index] == values[..index];
      jitter := jitter + Distance(values[index], values[index - 1]);
      index := index + 1;
    }
    assert values[..|values|] == values;
    if |values| > 1 { jitter := jitter / (|values| - 1) as real; }
  }
}
