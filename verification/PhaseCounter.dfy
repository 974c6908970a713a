/** The per-second byte counter of a load phase and the phase's early stop
    (internal/qualitytest/runner.go). Times are nanoseconds since the counter
    started; the clock never runs backwards. */
module PhaseCounting {
  import opened Arithmetic
  import opened Stability

  const SECOND: nat := 1_000_000_000
  const MILLISECOND: nat := 1_000_000

  datatype Cell = Cell(bytes: nat, samples: nat)

  /** One call of add. */
  datatype Arrival = Arrival(bytes: int, at: nat)

  function Added(m: map<nat, Cell>, a: Arrival): map<nat, Cell> {
    if a.bytes <= 0 then m
    else
      var index := a.at / SECOND;
      var cell := if index in m then m[index] else Cell(0, 0);
      m[index := Cell(cell.bytes + a.bytes, cell.samples + 1)]
  }

  function Fed(m: map<nat, Cell>, arrivals: seq<Arrival>): map<nat, Cell> {
    if arrivals == [] then m
    else Added(Fed(m, arrivals[..|arrivals| - 1]), arrivals[|arrivals| - 1])
  }

  ghost predicate Between(arrivals: seq<Arrival>, low: nat, high: nat) {
    forall i | 0 <= i < |arrivals| :: low <= arrivals[i].at <= high
  }

  ghost predicate Clocked(m: map<nat, Cell>, now: nat) {
    forall k | k in m :: k <= now / SECOND
  }

  /** A bucket as a snapshot taken at `elapsed` shows it. */
  function Shown(i: nat, cell: Cell, streams: int, final: bool, elapsed: nat): Bucket {
    var last := elapsed / SECOND;
    var rest := Max(elapsed / MILLISECOND - i * 1000, 1);
    if i == last then Bucket(i, cell.bytes, cell.samples, rest, streams, final && rest >= 900)
    else Bucket(i, cell.bytes, cell.samples, 1000, streams, i < last)
  }

  /** The buckets below index n, in order. */
  function Listing(m: map<nat, Cell>, n: nat, streams: int, final: bool, elapsed: nat): (r: seq<Bucket>)
    ensures forall i | 0 <= i < |r| :: r[i].index < n
  {
    if n == 0 then []
    else if n - 1 in m then
      Listing(m, n - 1, streams, final, elapsed) + [Shown(n - 1, m[n - 1], streams, final, elapsed)]
    else Listing(m, n - 1, streams, final, elapsed)
  }

  function Snapshot(m: map<nat, Cell>, streams: int, final: bool, elapsed: nat): seq<Bucket> {
    Listing(m, elapsed / SECOND + 1, streams, final, elapsed)
  }

  // ---- finished seconds are frozen ------------------------------------------

  lemma {:induction false} FinishedSecondsAreFrozen(m: map<nat, Cell>, arrivals: seq<Arrival>, low: nat, high: nat)
    requires low <= high && Between(arrivals, low, high) && Clocked(m, high)
    ensures Clocked(Fed(m, arrivals), high)
    ensures forall k: nat | k < low / SECOND ::
      (k in Fed(m, arrivals) <==> k in m) && (k in m ==> Fed(m, arrivals)[k] == m[k])
  {
    if arrivals != [] {
      FinishedSecondsAreFrozen(m, arrivals[..|arrivals| - 1], low, high);
      var a := arrivals[|arrivals| - 1];
      assert low / SECOND <= a.at / SECOND <= high / SECOND;
    }
  }

  lemma {:induction false} ListingFrozen(
    m: map<nat, Cell>, later: map<nat, Cell>, n: nat, streams: int, low: nat, high: nat)
    requires low <= high && n <= low / SECOND
    requires forall k: nat | k < low / SECOND :: (k in later <==> k in m) && (k in m ==> later[k] == m[k])
    ensures Listing(m, n, streams, false, low) == Listing(later, n, streams, true, high)
  {
    if n > 0 {
      assert low / SECOND <= high / SECOND;
      ListingFrozen(m, later, n - 1, streams, low, high);
    }
  }

  lemma {:induction false} ListingGrows(m: map<nat, Cell>, n: nat, k: nat, streams: int, final: bool, elapsed: nat)
    returns (rest: seq<Bucket>)
    requires n <= k
    ensures Listing(m, k, streams, final, elapsed) == Listing(m, n, streams, final, elapsed) + rest
    decreases k
  {
    rest := [];
    if n < k {
      rest := ListingGrows(m, n, k - 1, streams, final, elapsed);
      if k - 1 in m { rest := rest + [Shown(k - 1, m[k - 1], streams, final, elapsed)]; }
    }
  }

  /** The final snapshot keeps every usable bucket of an earlier running one and
      only adds to them. */
  lemma FinalSnapshotExtends(
    m: map<nat, Cell>, arrivals: seq<Arrival>, streams: int, low: nat, high: nat, p: Policy)
    returns (x: seq<Bucket>)
    requires low <= high && Between(arrivals, low, high) && Clocked(m, low)
    ensures UsableOf(Snapshot(Fed(m, arrivals), streams, true, high), p)
      == UsableOf(Snapshot(m, streams, false, low), p) + x
  {
    var last := low / SECOND;
    assert last <= high / SECOND;
    FinishedSecondsAreFrozen(m, arrivals, low, high);
    ListingFrozen(m, Fed(m, arrivals), last, streams, low, high);
    var rest := ListingGrows(Fed(m, arrivals), last, high / SECOND + 1, streams, true, high);
    UsableAppend(Listing(Fed(m, arrivals), last, streams, true, high), rest, p);
    x := UsableOf(rest, p);
    CurrentSecondIsNotUsable(m, streams, low, p);
  }

  lemma CurrentSecondIsNotUsable(m: map<nat, Cell>, streams: int, elapsed: nat, p: Policy)
    ensures UsableOf(Snapshot(m, streams, false, elapsed), p)
      == UsableOf(Listing(m, elapsed / SECOND, streams, false, elapsed), p)
  {
    var last := elapsed / SECOND;
    if last in m {
      var shown := Shown(last, m[last], streams, false, elapsed);
      assert !Usable(shown, p);
      var before := Listing(m, last, streams, false, elapsed);
      assert (before + [shown])[..|before|] == before;
    }
  }

  /** Early stop of one direction: when a running snapshot is stable, then
      whatever still arrives before the phase is closed, the final snapshot
      reports a stable region with the same start. */
  lemma EarlyStopIsConfirmed(
    m: map<nat, Cell>, arrivals: seq<Arrival>, streams: int, low: nat, high: nat, policy: Policy)
    requires low <= high && Between(arrivals, low, high) && Clocked(m, low)
    ensures Confirms(
      Detected(Snapshot(m, streams, false, low), policy),
      Detected(Snapshot(Fed(m, arrivals), streams, true, high), policy))
  {
    var p := Normalised(policy);
    var x := FinalSnapshotExtends(m, arrivals, streams, low, high, p);
    FoundStaysStable(UsableOf(Snapshot(m, streams, false, low), p), x, RuleOf(p));
  }

  /** Early stop of the bidirectional phase, each direction with its own counter
      and clock. */
  lemma EarlyStopOfBothIsConfirmed(
    down: map<nat, Cell>, downArrivals: seq<Arrival>, downStreams: int, downLow: nat, downHigh: nat,
    up: map<nat, Cell>, upArrivals: seq<Arrival>, upStreams: int, upLow: nat, upHigh: nat, policy: Policy)
    requires downLow <= downHigh && Between(downArrivals, downLow, downHigh) && Clocked(down, downLow)
    requires upLow <= upHigh && Between(upArrivals, upLow, upHigh) && Clocked(up, upLow)
    ensures Confirms(
      DetectedBoth(Snapshot(down, downStreams, false, downLow), Snapshot(up, upStreams, false, upLow), policy),
      DetectedBoth(
        Snapshot(Fed(down, downArrivals), downStreams, true, downHigh),
        Snapshot(Fed(up, upArrivals), upStreams, true, upHigh), policy))
  {
    var p := Normalised(policy);
    EarlyStopIsConfirmed(down, downArrivals, downStreams, downLow, downHigh, p);
    EarlyStopIsConfirmed(up, upArrivals, upStreams, upLow, upHigh, p);
    BothStayStable(
      Detected(Snapshot(down, downStreams, false, downLow), p),
      Detected(Snapshot(Fed(down, downArrivals), downStreams, true, downHigh), p),
      Detected(Snapshot(up, upStreams, false, upLow), p),
      Detected(Snapshot(Fed(up, upArrivals), upStreams, true, upHigh), p), p.required);
  }

  // ---- no byte is lost ------------------------------------------------------

  function Bytes(buckets: seq<Bucket>): nat {
    if buckets == [] then 0 else Bytes(buckets[..|buckets| - 1]) + buckets[|buckets| - 1].bytes
  }

  function Received(arrivals: seq<Arrival>): nat {
    if arrivals == [] then 0
    else Received(arrivals[..|arrivals| - 1]) + Max(arrivals[|arrivals| - 1].bytes, 0)
  }

  function BytesIn(m: map<nat, Cell>, k: nat): int {
    if k in m then m[k].bytes else 0
  }

  /** An arrival adds to the cell of its own second only. */
  lemma CellGains(m: map<nat, Cell>, a: Arrival, k: nat)
    ensures BytesIn(Added(m, a), k) == BytesIn(m, k) + if a.at / SECOND == k then Max(a.bytes, 0) else 0
  {
  }

  function CellSum(m: map<nat, Cell>, n: nat): int {
    if n == 0 then 0 else CellSum(m, n - 1) + BytesIn(m, n - 1)
  }

  lemma {:induction false} ListingSums(m: map<nat, Cell>, n: nat, streams: int, final: bool, elapsed: nat)
    ensures Bytes(Listing(m, n, streams, final, elapsed)) == CellSum(m, n)
  {
    if n > 0 {
      ListingSums(m, n - 1, streams, final, elapsed);
      BytesAtTop(m, n, streams, final, elapsed);
    }
  }

  lemma {:induction false} SumGains(m: map<nat, Cell>, a: Arrival, n: nat)
    ensures CellSum(Added(m, a), n) == CellSum(m, n) + if a.at / SECOND < n then Max(a.bytes, 0) else 0
  {
    if n > 0 {
      SumGains(m, a, n - 1);
      CellGains(m, a, n - 1);
    }
  }

  lemma BytesAtTop(m: map<nat, Cell>, n: nat, streams: int, final: bool, elapsed: nat)
    requires n > 0
    ensures Bytes(Listing(m, n, streams, final, elapsed))
      == Bytes(Listing(m, n - 1, streams, final, elapsed)) + BytesIn(m, n - 1)
  {
    if n - 1 in m {
      var before, top := Listing(m, n - 1, streams, final, elapsed), Shown(n - 1, m[n - 1], streams, final, elapsed);
      assert (before + [top])[..|before|] == before;
    }
  }

  lemma {:induction false} NothingListed(n: nat, streams: int, final: bool, elapsed: nat)
    ensures Listing(map[], n, streams, final, elapsed) == []
  {
    if n > 0 {
      NothingListed(n - 1, streams, final, elapsed);
    }
  }

  /** A snapshot accounts for every byte received so far. */
  lemma {:induction false} SnapshotHoldsEveryByte(arrivals: seq<Arrival>, streams: int, final: bool, elapsed: nat)
    requires Between(arrivals, 0, elapsed)
    ensures Bytes(Snapshot(Fed(map[], arrivals), streams, final, elapsed)) == Received(arrivals)
  {
    if arrivals == [] {
      NothingListed(elapsed / SECOND + 1, streams, final, elapsed);
    } else {
      var init, a := arrivals[..|arrivals| - 1], arrivals[|arrivals| - 1];
      SnapshotHoldsEveryByte(init, streams, final, elapsed);
      SumGains(Fed(map[], init), a, elapsed / SECOND + 1);
      ListingSums(Fed(map[], init), elapsed / SECOND + 1, streams, final, elapsed);
      ListingSums(Fed(map[], arrivals), elapsed / SECOND + 1, streams, final, elapsed);
      assert a.at / SECOND <= elapsed / SECOND;
    }
  }

  // ---- what a bucket shows --------------------------------------------------

  /** The bytes that arrived in one second. */
  function BytesAt(arrivals: seq<Arrival>, k: nat): nat {
    if arrivals == [] then 0
    else
      var a := arrivals[|arrivals| - 1];
      BytesAt(arrivals[..|arrivals| - 1], k) + if a.bytes > 0 && a.at / SECOND == k then a.bytes else 0
  }

  /** The calls that brought bytes in one second. */
  function CallsAt(arrivals: seq<Arrival>, k: nat): nat {
    if arrivals == [] then 0
    else
      var a := arrivals[|arrivals| - 1];
      CallsAt(arrivals[..|arrivals| - 1], k) + if a.bytes > 0 && a.at / SECOND == k then 1 else 0
  }

  lemma {:induction false} CellHolds(arrivals: seq<Arrival>, k: nat)
    ensures
      var m := Fed(map[], arrivals);
      && (k in m <==> CallsAt(arrivals, k) > 0)
      && (k in m ==> m[k] == Cell(BytesAt(arrivals, k), CallsAt(arrivals, k)))
      && (k !in m ==> BytesAt(arrivals, k) == 0)
  {
    if arrivals != [] {
      CellHolds(arrivals[..|arrivals| - 1], k);
    }
  }

  lemma {:induction false} ListingMembers(
    m: map<nat, Cell>, n: nat, streams: int, final: bool, elapsed: nat, b: Bucket)
    ensures b in Listing(m, n, streams, final, elapsed)
      <==> exists k: nat :: k < n && k in m && b == Shown(k, m[k], streams, final, elapsed)
  {
    if n > 0 {
      ListingMembers(m, n - 1, streams, final, elapsed, b);
    }
  }

  /** Milliseconds of a second that have passed, at least one. */
  function Passed(k: nat, elapsed: nat): int {
    Max((elapsed - k * SECOND) / MILLISECOND, 1)
  }

  lemma ShownMeans(k: nat, cell: Cell, streams: int, final: bool, elapsed: nat)
    requires k * SECOND <= elapsed
    ensures
      var b := Shown(k, cell, streams, final, elapsed);
      && b.index == k && b.bytes == cell.bytes && b.samples == cell.samples && b.streams == streams
      && b.duration == (if (k + 1) * SECOND <= elapsed then 1000 else Passed(k, elapsed))
      && (b.complete <==> (k + 1) * SECOND <= elapsed || (final && b.duration >= 900))
  {
    if elapsed < (k + 1) * SECOND {
      assert elapsed / SECOND == k;
      assert elapsed / MILLISECOND - k * 1000 == (elapsed - k * SECOND) / MILLISECOND;
    }
  }

  /** A snapshot shows one bucket for each second that received bytes, with exactly
      those bytes and calls; it is complete once the second is over, and in the final
      snapshot also after nine tenths of it. */
  lemma SnapshotShows(arrivals: seq<Arrival>, streams: int, final: bool, elapsed: nat, b: Bucket)
    requires Between(arrivals, 0, elapsed) && b in Snapshot(Fed(map[], arrivals), streams, final, elapsed)
    ensures b.index >= 0 && CallsAt(arrivals, b.index) > 0
    ensures b.bytes == BytesAt(arrivals, b.index) && b.samples == CallsAt(arrivals, b.index) && b.streams == streams
    ensures b.duration == if (b.index + 1) * SECOND <= elapsed then 1000 else Passed(b.index, elapsed)
    ensures b.complete <==> (b.index + 1) * SECOND <= elapsed || (final && b.duration >= 900)
  {
    var m := Fed(map[], arrivals);
    ListingMembers(m, elapsed / SECOND + 1, streams, final, elapsed, b);
    var k: nat :| k < elapsed / SECOND + 1 && k in m && b == Shown(k, m[k], streams, final, elapsed);
    CellHolds(arrivals, k);
    ShownMeans(k, m[k], streams, final, elapsed);
  }

  /** And every second that received bytes is shown. */
  lemma {:induction false} EverySecondIsShown(
    arrivals: seq<Arrival>, streams: int, final: bool, elapsed: nat, k: nat)
    requires Between(arrivals, 0, elapsed) && CallsAt(arrivals, k) > 0
    ensures exists b :: b in Snapshot(Fed(map[], arrivals), streams, final, elapsed) && b.index == k
  {
    var m := Fed(map[], arrivals);
    CellHolds(arrivals, k);
    CalledInTime(arrivals, elapsed, k);
    var b := Shown(k, m[k], streams, final, elapsed);
    ListingMembers(m, elapsed / SECOND + 1, streams, final, elapsed, b);
    assert b in Snapshot(m, streams, final, elapsed) && b.index == k;
  }

  lemma {:induction false} CalledInTime(arrivals: seq<Arrival>, elapsed: nat, k: nat)
    requires Between(arrivals, 0, elapsed) && CallsAt(arrivals, k) > 0
    ensures k <= elapsed / SECOND
  {
    var a := arrivals[|arrivals| - 1];
    if CallsAt(arrivals[..|arrivals| - 1], k) > 0 {
      CalledInTime(arrivals[..|arrivals| - 1], elapsed, k);
    } else {
      assert k == a.at / SECOND <= elapsed / SECOND;
    }
  }

  // ---- the code -------------------------------------------------------------

  function Place(ordered: seq<Bucket>, b: Bucket): seq<Bucket> {
    var n := |ordered|;
    if n == 0 || ordered[n - 1].index <= b.index then ordered + [b]
    else Place(ordered[..n - 1], b) + [ordered[n - 1]]
  }

  /** A bucket goes before one with a larger index. */
  lemma PlaceBefore(ordered: seq<Bucket>, top: Bucket, b: Bucket)
    requires b.index < top.index
    ensures Place(ordered + [top], b) == Place(ordered, b) + [top]
  {
    assert (ordered + [top])[..|ordered|] == ordered;
  }

  lemma PlaceOnTop(m: map<nat, Cell>, k: nat, cell: Cell, streams: int, final: bool, elapsed: nat)
    requires k !in m
    ensures Place(Listing(m, k + 1, streams, final, elapsed), Shown(k, cell, streams, final, elapsed))
      == Listing(m[k := cell], k + 1, streams, final, elapsed)
  {
    SameBelow(m, k, cell, k, streams, final, elapsed);
  }

  /** Placing one more bucket in order lists the larger map. */
  lemma {:induction false} PlaceLists(
    m: map<nat, Cell>, k: nat, cell: Cell, n: nat, streams: int, final: bool, elapsed: nat)
    requires k !in m && k < n
    ensures Place(Listing(m, n, streams, final, elapsed), Shown(k, cell, streams, final, elapsed))
      == Listing(m[k := cell], n, streams, final, elapsed)
  {
    if k == n - 1 {
      PlaceOnTop(m, k, cell, streams, final, elapsed);
    } else {
      PlaceLists(m, k, cell, n - 1, streams, final, elapsed);
      if n - 1 in m {
        PlaceBefore(
          Listing(m, n - 1, streams, final, elapsed), Shown(n - 1, m[n - 1], streams, final, elapsed),
          Shown(k, cell, streams, final, elapsed));
      }
    }
  }

  lemma {:induction false} SameBelow(
    m: map<nat, Cell>, k: nat, cell: Cell, n: nat, streams: int, final: bool, elapsed: nat)
    requires n <= k
    ensures Listing(m[k := cell], n, streams, final, elapsed) == Listing(m, n, streams, final, elapsed)
  {
    if n > 0 {
      SameBelow(m, k, cell, n - 1, streams, final, elapsed);
    }
  }

  class PhaseCounter {
    const streams: int
    var buckets: map<nat, Cell>
    var bytes: nat

    constructor (streams: int)
      ensures this.streams == streams && buckets == map[] && bytes == 0
    {
      this.streams := streams;
      buckets, bytes := map[], 0;
    }

    method Add(count: int, elapsed: nat)
      modifies this
      ensures buckets == Added(old(buckets), Arrival(count, elapsed))
      ensures bytes == old(bytes) + Max(count, 0)
      ensures old(Clocked(buckets, elapsed)) ==> Clocked(buckets, elapsed)
    {
      if count <= 0 { return; }
      var index := elapsed / SECOND;
      if index !in buckets { buckets := buckets[index := Cell(0, 0)]; }
      var cell := buckets[index];
      buckets := buckets[index := Cell(cell.bytes + count, cell.samples + 1)];
      bytes := bytes + count;
    }

    method SnapshotNow(final: bool, elapsed: nat) returns (result: seq<Bucket>)
      requires Clocked(buckets, elapsed)
      ensures result == Snapshot(buckets, streams, final, elapsed)
    {
      result := [];
      var left := buckets.Keys;
      ghost var done: map<nat, Cell> := map[];
      ghost var n := elapsed / SECOND + 1;
      NothingListed(n, streams, final, elapsed);
      while left != {}
        invariant left <= buckets.Keys
        invariant done == map k | k in buckets && k !in left :: buckets[k]
        invariant result == Listing(done, n, streams, final, elapsed)
        decreases |left|
      {
        var index :| index in left;
        PlaceLists(done, index, buckets[index], n, streams, final, elapsed);
        result := Place(result, Shown(index, buckets[index], streams, final, elapsed));
        done := done[index := buckets[index]];
        left := left - {index};
      }
      assert done == buckets;
    }
  }
}
