/** The cadence scheduler on a fixed-offset clock
    (internal/measurement/measurement.go). Instants are local nanoseconds, so a
    local midnight is a multiple of DAY. */
module Schedule {
  import opened Arithmetic
  import opened Wrappers

  const MINUTE: int := 60_000_000_000
  const DAY: int := 1440 * MINUTE
  const DAY_MINUTES: int := 1440

  /** A parsed window, in minutes of the day; a later start wraps midnight. */
  datatype Window = Window(start: int, end: int) {
    predicate Valid() {
      0 <= start <= DAY_MINUTES && 0 <= end <= DAY_MINUTES && start != end
    }
  }

  /** The seeded hash of a slot's start, as an unsigned number. */
  type Jitter = int -> nat

  datatype Interval = Interval(start: int, end: int)

  datatype Profile = Profile(windows: seq<Window>, cadence: int, jitter: Jitter) {
    predicate Valid() {
      cadence > 0 && forall i | 0 <= i < |windows| :: windows[i].Valid()
    }

    /** Slot length in minutes. */
    function Minutes(): (m: int)
      ensures 60 <= m <= DAY_MINUTES && (m == cadence || m == 60 > cadence || m == DAY_MINUTES < cadence)
    {
      if cadence < 60 then 60 else if cadence > DAY_MINUTES then DAY_MINUTES else cadence
    }
  }

  function Midnight(t: int): int {
    t / DAY * DAY
  }

  /** cadenceSlot: the slot of the day that holds an instant. */
  function Slot(t: int, p: Profile): Interval {
    var offset := (t - Midnight(t)) / MINUTE;
    var start := offset / p.Minutes() * p.Minutes();
    Interval(Midnight(t) + start * MINUTE, Midnight(t) + Min(start + p.Minutes(), DAY_MINUTES) * MINUTE)
  }

  /** One window on one day, cut to the slot. */
  function Cut(w: Window, midnight: int, slot: Interval): Interval {
    var end := if w.end < w.start then w.end + DAY_MINUTES else w.end;
    Interval(Max(midnight + w.start * MINUTE, slot.start), Min(midnight + end * MINUTE, slot.end))
  }

  function CutAll(windows: seq<Window>, midnight: int, slot: Interval): seq<Interval> {
    if windows == [] then []
    else
      var before := CutAll(windows[..|windows| - 1], midnight, slot);
      var last := Cut(windows[|windows| - 1], midnight, slot);
      if last.start < last.end then before + [last] else before
  }

  /** The parts of a slot allowed by the windows of the days before `day`,
      counted from the slot's own day and starting with yesterday. */
  function AllowedBefore(windows: seq<Window>, today: int, slot: Interval, day: int): seq<Interval>
    decreases day + 1
  {
    if day <= -1 then []
    else AllowedBefore(windows, today, slot, day - 1) + CutAll(windows, today + (day - 1) * DAY, slot)
  }

  /** The allowed parts of a slot: yesterday's windows, today's, tomorrow's. */
  function Allowed(windows: seq<Window>, slot: Interval): seq<Interval> {
    AllowedBefore(windows, Midnight(slot.start), slot, 2)
  }

  function Total(intervals: seq<Interval>): int {
    if intervals == [] then 0
    else Total(intervals[..|intervals| - 1]) + intervals[|intervals| - 1].end - intervals[|intervals| - 1].start
  }

  /** The instant `offset` into the allowed intervals laid end to end. */
  function Place(intervals: seq<Interval>, offset: int): int
    requires intervals != []
  {
    var first := intervals[0];
    if offset < first.end - first.start || |intervals| == 1 then first.start + offset
    else Place(intervals[1..], offset - (first.end - first.start))
  }

  /** The hash picks an instant of the allowed intervals, if there is any. */
  function Pick(intervals: seq<Interval>, hash: nat): Option<int> {
    if Total(intervals) <= 0 || intervals == [] then None
    else Some(Place(intervals, hash % Total(intervals)))
  }

  function Scheduled(slot: Interval, p: Profile): Option<int> {
    Pick(Allowed(p.windows, slot), p.jitter(slot.start))
  }

  /** SpeedProfileDue, with a positive cadence. */
  predicate Due(t: int, last: int, p: Profile) {
    var slot := Slot(t, p);
    var at := Scheduled(slot, p);
    at.Some? && at.value <= t < slot.end && last < slot.start
  }

  // ---- intervals ------------------------------------------------------------

  ghost predicate WithinSlot(intervals: seq<Interval>, slot: Interval) {
    forall i | 0 <= i < |intervals| :: slot.start <= intervals[i].start < intervals[i].end <= slot.end
  }

  /** The window, opened on day `k`, covers the instant: from its start to its end,
      which lies on the next day if the end is the earlier of the two. */
  ghost predicate Covers(w: Window, k: int, t: int) {
    && k * DAY + w.start * MINUTE <= t
    && t < k * DAY + (w.end + (if w.end < w.start then DAY_MINUTES else 0)) * MINUTE
  }

  /** An instant is inside some window opened on some day. */
  ghost predicate InWindow(t: int, windows: seq<Window>) {
    exists w, k: int :: w in windows && Covers(w, k, t)
  }

  ghost predicate Holds(intervals: seq<Interval>, t: int) {
    exists i :: 0 <= i < |intervals| && intervals[i].start <= t < intervals[i].end
  }

  lemma HoldsEither(a: seq<Interval>, b: seq<Interval>, t: int)
    ensures Holds(a + b, t) <==> Holds(a, t) || Holds(b, t)
  {
    if Holds(b, t) {
      var i :| 0 <= i < |b| && b[i].start <= t < b[i].end;
      assert (a + b)[|a| + i] == b[i];
    }
    if Holds(a, t) {
      var i :| 0 <= i < |a| && a[i].start <= t < a[i].end;
      assert (a + b)[i] == a[i];
    }
  }

  /** Cut to a slot, one window holds exactly the instants of the slot it covers. */
  lemma CutHolds(w: Window, k: int, slot: Interval, t: int)
    ensures
      var cut := Cut(w, k * DAY, slot);
      cut.start <= t < cut.end <==> slot.start <= t < slot.end && Covers(w, k, t)
  {
  }

  /** The windows of one day, cut to a slot, hold exactly the instants of the slot
      that one of them covers. */
  lemma {:induction false} CutAllHolds(windows: seq<Window>, k: int, slot: Interval, t: int)
    ensures WithinSlot(CutAll(windows, k * DAY, slot), slot)
    ensures Holds(CutAll(windows, k * DAY, slot), t)
      <==> slot.start <= t < slot.end && exists w :: w in windows && Covers(w, k, t)
  {
    if windows != [] {
      var init, w := windows[..|windows| - 1], windows[|windows| - 1];
      assert windows == init + [w];
      CutAllHolds(init, k, slot, t);
      CutHolds(w, k, slot, t);
      var cut := Cut(w, k * DAY, slot);
      HoldsEither(CutAll(init, k * DAY, slot), [cut], t);
      assert [cut][0] == cut;
    }
  }

  /** Some window opened on a day from yesterday on covers the instant; `day` counts
      from the slot's own day and is the first left out. */
  ghost predicate Opens(windows: seq<Window>, k: int, day: int, t: int) {
    exists w, d: int :: k - 1 <= d < k + day && w in windows && Covers(w, d, t)
  }

  lemma {:induction false} AllowedBeforeHolds(windows: seq<Window>, k: int, slot: Interval, day: int, t: int)
    ensures WithinSlot(AllowedBefore(windows, k * DAY, slot, day), slot)
    ensures Holds(AllowedBefore(windows, k * DAY, slot, day), t)
      <==> slot.start <= t < slot.end && Opens(windows, k, day, t)
    decreases day + 1
  {
    if day > -1 {
      AllowedBeforeHolds(windows, k, slot, day - 1, t);
      assert (k + day - 1) * DAY == k * DAY + (day - 1) * DAY;
      DayHolds(windows, k, slot, day, t, AllowedBefore(windows, k * DAY, slot, day - 1));
    }
  }

  lemma DayHolds(windows: seq<Window>, k: int, slot: Interval, day: int, t: int, before: seq<Interval>)
    requires day > -1 && WithinSlot(before, slot)
    requires Holds(before, t) <==> slot.start <= t < slot.end && Opens(windows, k, day - 1, t)
    ensures
      var all := before + CutAll(windows, (k + day - 1) * DAY, slot);
      WithinSlot(all, slot) && (Holds(all, t) <==> slot.start <= t < slot.end && Opens(windows, k, day, t))
  {
    CutAllHolds(windows, k + day - 1, slot, t);
    HoldsEither(before, CutAll(windows, (k + day - 1) * DAY, slot), t);
    OpensNext(windows, k, day, t);
  }

  lemma OpensNext(windows: seq<Window>, k: int, day: int, t: int)
    requires day > -1
    ensures Opens(windows, k, day, t)
      <==> Opens(windows, k, day - 1, t) || exists w :: w in windows && Covers(w, k + day - 1, t)
  {
    if Opens(windows, k, day, t) {
      var w, d: int :| k - 1 <= d < k + day && w in windows && Covers(w, d, t);
      assert d == k + day - 1 || d < k + day - 1;
    }
  }

  /** A window that covers an instant was opened on the instant's day or the day
      before. */
  lemma OpenedOnTime(w: Window, d: int, k: int, t: int)
    requires w.Valid() && Covers(w, d, t) && k * DAY <= t < (k + 1) * DAY
    ensures d == k || d == k - 1
  {
    assert d * DAY <= t < d * DAY + 2 * DAY;
  }

  /** A slot of one day. */
  ghost predicate OfOneDay(slot: Interval) {
    slot.end <= Midnight(slot.start) + DAY
  }

  /** What the windows allow of a slot is exactly what lies inside some window of
      some day: none is cut short, none is missed, and nothing else is allowed. */
  lemma AllowedIsInWindow(windows: seq<Window>, slot: Interval, t: int)
    requires (forall i | 0 <= i < |windows| :: windows[i].Valid()) && OfOneDay(slot) && slot.start <= t < slot.end
    ensures Holds(Allowed(windows, slot), t) <==> InWindow(t, windows)
  {
    var k := slot.start / DAY;
    MidnightBounds(slot.start);
    assert (k + 1) * DAY == k * DAY + DAY;
    AllowedBeforeHolds(windows, k, slot, 2, t);
    if InWindow(t, windows) {
      var w, d: int :| w in windows && Covers(w, d, t);
      OpenedOnTime(w, d, k, t);
    }
  }

  lemma {:induction false} TotalAppend(a: seq<Interval>, b: seq<Interval>)
    ensures Total(a + b) == Total(a) + Total(b)
  {
    if b == [] {
      assert a + b == a;
    } else {
      assert (a + b)[..|a + b| - 1] == a + b[..|b| - 1];
      TotalAppend(a, b[..|b| - 1]);
    }
  }

  /** An offset below the total lands inside one of the intervals. */
  lemma {:induction false} PlaceLandsInside(intervals: seq<Interval>, offset: int) returns (i: nat)
    requires intervals != [] && 0 <= offset < Total(intervals)
    ensures i < |intervals| && intervals[i].start <= Place(intervals, offset) < intervals[i].end
  {
    var first, rest := intervals[0], intervals[1..];
    assert intervals == [first] + rest;
    TotalAppend([first], rest);
    assert [first][..0] == [];
    if offset < first.end - first.start {
      i := 0;
    } else {
      var k := PlaceLandsInside(rest, offset - (first.end - first.start));
      i := k + 1;
    }
  }

  /** A scheduled instant lies in its slot and in an allowed window. */
  lemma ScheduledIsAllowed(slot: Interval, p: Profile)
    requires Scheduled(slot, p).Some?
    ensures slot.start <= Scheduled(slot, p).value < slot.end
    ensures InWindow(Scheduled(slot, p).value, p.windows)
  {
    var intervals, at := Allowed(p.windows, slot), Scheduled(slot, p).value;
    var i := PlaceLandsInside(intervals, p.jitter(slot.start) % Total(intervals));
    AllowedBeforeHolds(p.windows, slot.start / DAY, slot, 2, at);
    assert Holds(intervals, at);
    assert Opens(p.windows, slot.start / DAY, 2, at);
  }

  lemma {:induction false} TotalIsPositive(intervals: seq<Interval>, slot: Interval)
    requires WithinSlot(intervals, slot)
    ensures if intervals == [] then Total(intervals) == 0 else Total(intervals) > 0
  {
    if intervals != [] {
      TotalIsPositive(intervals[..|intervals| - 1], slot);
    }
  }

  /** Every instant that the intervals hold is the place of some offset. */
  lemma {:induction false} PlaceReaches(intervals: seq<Interval>, slot: Interval, t: int) returns (offset: nat)
    requires WithinSlot(intervals, slot) && Holds(intervals, t)
    ensures intervals != [] && offset < Total(intervals) && Place(intervals, offset) == t
  {
    var first, rest := intervals[0], intervals[1..];
    assert intervals == [first] + rest && [first][..0] == [];
    TotalAppend([first], rest);
    assert WithinSlot(rest, slot);
    TotalIsPositive(rest, slot);
    if first.start <= t < first.end {
      offset := t - first.start;
    } else {
      HoldsEither([first], rest, t);
      var k := PlaceReaches(rest, slot, t);
      offset := k + (first.end - first.start);
    }
  }

  lemma PickPlaces(intervals: seq<Interval>, offset: nat)
    requires intervals != [] && offset < Total(intervals)
    ensures Pick(intervals, offset) == Some(Place(intervals, offset))
  {
    SmallRemainder(offset, Total(intervals));
  }

  lemma SmallRemainder(x: nat, d: nat)
    requires x < d
    ensures x % d == x
  {
  }

  /** A slot of which a window allows anything is scheduled, and each instant that a
      window allows is the one some jitter schedules. */
  lemma EveryAllowedInstantCanBeScheduled(slot: Interval, p: Profile, t: int) returns (jitter: Jitter)
    requires p.Valid() && OfOneDay(slot) && slot.start <= t < slot.end && InWindow(t, p.windows)
    ensures Scheduled(slot, p).Some?
    ensures Scheduled(slot, p.(jitter := jitter)) == Some(t)
  {
    AllowedIsInWindow(p.windows, slot, t);
    AllowedBeforeHolds(p.windows, slot.start / DAY, slot, 2, t);
    var offset := PlaceReaches(Allowed(p.windows, slot), slot, t);
    PickPlaces(Allowed(p.windows, slot), offset);
    jitter := (at: int) => offset;
  }

  // ---- slots ----------------------------------------------------------------

  lemma MidnightBounds(t: int)
    ensures Midnight(t) <= t < Midnight(t) + DAY
  {
  }

  lemma SameDay(t: int, k: int)
    requires k * DAY <= t < (k + 1) * DAY
    ensures Midnight(t) == k * DAY
  {
  }

  /** Every instant of a slot has that slot. */
  lemma SlotHolds(t: int, k: int, n: int, p: Profile)
    requires n >= 0 && n * p.Minutes() < DAY_MINUTES
    requires k * DAY + n * p.Minutes() * MINUTE <= t
    requires t < k * DAY + Min(n * p.Minutes() + p.Minutes(), DAY_MINUTES) * MINUTE
    ensures Slot(t, p) == Interval(
      k * DAY + n * p.Minutes() * MINUTE,
      k * DAY + Min(n * p.Minutes() + p.Minutes(), DAY_MINUTES) * MINUTE)
  {
    var m := p.Minutes();
    assert 0 <= n * m * MINUTE;
    assert Min(n * m + m, DAY_MINUTES) * MINUTE <= DAY;
    assert (k + 1) * DAY == k * DAY + DAY;
    SameDay(t, k);
    var offset := (t - k * DAY) / MINUTE;
    assert n * m <= offset < n * m + m;
    assert (n + 1) * m == n * m + m;
    DivideIs(offset, m, n);
  }

  /** The slot of an instant contains it. */
  lemma SlotContains(t: int, p: Profile)
    ensures Slot(t, p).start <= t < Slot(t, p).end
  {
    var m := p.Minutes();
    MidnightBounds(t);
    var offset := (t - Midnight(t)) / MINUTE;
    assert 0 <= offset < DAY_MINUTES;
    var n := offset / m;
    assert n * m <= offset < n * m + m;
  }

  /** A slot runs at most once: after a run at a due instant, or at any later
      one, the slot is never due again. */
  lemma RunsOncePerSlot(ran: int, last: int, p: Profile, again: int)
    requires Due(ran, last, p) && Slot(again, p) == Slot(ran, p)
    ensures forall later | later >= ran :: !Due(again, later, p)
  {
    SlotContains(ran, p);
  }

  // ---- the code -------------------------------------------------------------

  /** The first half of cadenceSchedule: what the windows allow of a slot. */
  method AllowedIntervals(slot: Interval, windows: seq<Window>) returns (intervals: seq<Interval>, total: int)
    ensures intervals == Allowed(windows, slot) && total == Total(intervals)
  {
    intervals, total := [], 0;
    var today := Midnight(slot.start);
    for day := -1 to 2
      invariant intervals == AllowedBefore(windows, today, slot, day)
      invariant total == Total(intervals)
    {
      intervals, total := AddDay(intervals, total, today + day * DAY, slot, windows);
    }
  }

  method AddDay(before: seq<Interval>, sum: int, midnight: int, slot: Interval, windows: seq<Window>)
    returns (intervals: seq<Interval>, total: int)
    requires sum == Total(before)
    ensures intervals == before + CutAll(windows, midnight, slot) && total == Total(intervals)
  {
    intervals, total := before, sum;
    for index := 0 to |windows|
      invariant intervals == before + CutAll(windows[..index], midnight, slot)
      invariant total == Total(intervals)
    {
      assert windows[..index + 1][..index] == windows[..index];
      var allowed := Cut(windows[index], midnight, slot);
      if allowed.start < allowed.end {
        assert (intervals + [allowed])[..|intervals|] == intervals;
        intervals := intervals + [allowed];
        total := total + allowed.end - allowed.start;
      }
    }
    assert windows[..|windows|] == windows;
  }

  lemma TotalSplit(intervals: seq<Interval>)
    requires intervals != []
    ensures Total(intervals) == intervals[0].end - intervals[0].start + Total(intervals[1..])
  {
    assert intervals == [intervals[0]] + intervals[1..];
    TotalAppend([intervals[0]], intervals[1..]);
    assert [intervals[0]][..0] == [];
  }

  /** The second half: the offset is always used up inside an interval, so the
      source's fallback return after its loop is never reached. */
  method PlaceOffset(intervals: seq<Interval>, offset: int) returns (at: int)
    requires 0 <= offset < Total(intervals)
    ensures intervals != [] && at == Place(intervals, offset)
  {
    var index, left := 0, offset;
    assert intervals[0..] == intervals;
    while true
      invariant 0 <= index < |intervals|
      invariant 0 <= left < Total(intervals[index..])
      invariant Place(intervals, offset) == Place(intervals[index..], left)
      decreases |intervals| - index
    {
      var duration := intervals[index].end - intervals[index].start;
      TotalSplit(intervals[index..]);
      assert intervals[index..][1..] == intervals[index + 1..];
      if left < duration { return intervals[index].start + left; }
      left := left - duration;
      index := index + 1;
    }
  }

  /** cadenceSchedule. */
  method CadenceSchedule(slot: Interval, p: Profile) returns (at: Option<int>)
    ensures at == Scheduled(slot, p)
  {
    var intervals, total := AllowedIntervals(slot, p.windows);
    if total <= 0 { return None; }
    var instant := PlaceOffset(intervals, p.jitter(slot.start) % total);
    at := Some(instant);
  }

  /** NextSpeedProfile: the first instant at or after `now` at which the profile
      is due, or none when none is due before the end of the look-ahead. A later
      instant is the one its slot schedules, inside an allowed window. */
  method NextSpeedProfile(now: int, last: int, p: Profile) returns (next: Option<int>)
    requires p.Valid()
    ensures First(next, now, Midnight(now) + 4 * DAY, DueBy(last, p))
    ensures next.Some? && next.value > now ==>
      next == Scheduled(Slot(next.value, p), p) && InWindow(next.value, p.windows)
  {
    var due := IsDue(now, last, p);
    if due {
      next := Some(now);
      NowIsFirst(now, last, p);
    } else {
      next := Search(now, last, p);
      LaterIsScheduled(next, now, last, p);
    }
  }

  lemma NowIsFirst(now: int, last: int, p: Profile)
    requires Due(now, last, p)
    ensures First(Some(now), now, Midnight(now) + 4 * DAY, DueBy(last, p))
  {
    MidnightBounds(now);
  }

  lemma LaterIsScheduled(next: Option<int>, now: int, last: int, p: Profile)
    requires First(next, now, Midnight(now) + 4 * DAY, DueBy(last, p))
    ensures next.Some? && next.value > now ==>
      next == Scheduled(Slot(next.value, p), p) && InWindow(next.value, p.windows)
  {
    if next.Some? && next.value > now {
      FirstDueIsScheduled(next.value, last, p);
      assert DueBy(last, p)(next.value) && !DueBy(last, p)(next.value - 1);
    }
  }

  /** SpeedProfileDue, for a positive cadence. */
  method IsDue(now: int, last: int, p: Profile) returns (due: bool)
    ensures due == Due(now, last, p)
  {
    var slot := Slot(now, p);
    var at := CadenceSchedule(slot, p);
    due := at.Some? && at.value <= now && now < slot.end && last < slot.start;
  }

  /** The look-ahead of NextSpeedProfile: yesterday to three days ahead. */
  method Search(now: int, last: int, p: Profile) returns (next: Option<int>)
    requires !DueBy(last, p)(now)
    ensures First(next, now, Midnight(now) + 4 * DAY, DueBy(last, p))
  {
    var first := now / DAY - 1;
    NothingBefore(now, first, DueBy(last, p));
    next := SearchDays(now, first, last, p);
    LookAheadEnd(now);
  }

  method SearchDays(now: int, first: int, last: int, p: Profile) returns (next: Option<int>)
    requires !DueBy(last, p)(now) && First(None, now, first * DAY, DueBy(last, p))
    ensures First(next, now, (first + 5) * DAY, DueBy(last, p))
  {
    next := None;
    for day := first to first + 5
      invariant First(next, now, day * DAY, DueBy(last, p))
    {
      next := SearchDay(next, now, day, last, p);
    }
  }

  lemma LookAheadEnd(now: int)
    ensures (now / DAY - 1 + 5) * DAY == Midnight(now) + 4 * DAY
  {
  }

  lemma NothingBefore(now: int, k: int, due: int -> bool)
    requires k < now / DAY
    ensures First(None, now, k * DAY, due)
  {
  }

  /** One day of NextSpeedProfile's search. */
  method SearchDay(found: Option<int>, now: int, k: int, last: int, p: Profile) returns (next: Option<int>)
    requires !DueBy(last, p)(now) && First(found, now, k * DAY, DueBy(last, p))
    ensures First(next, now, (k + 1) * DAY, DueBy(last, p))
  {
    var offset := 0;
    next := found;
    ghost var n := 0;
    while offset < DAY_MINUTES
      invariant SlotAt(offset, n, p)
      invariant First(next, now, Cursor(k, offset), DueBy(last, p))
      decreases DAY_MINUTES - offset
    {
      next := SearchSlot(next, now, k, offset, n, last, p);
      NextSlot(offset, n, p);
      offset, n := offset + p.Minutes(), n + 1;
    }
  }

  /** The slot that starts at a minute of the day is its n-th. */
  ghost predicate SlotAt(offset: int, n: int, p: Profile) {
    n >= 0 && offset == n * p.Minutes()
  }

  lemma NextSlot(offset: int, n: int, p: Profile)
    requires SlotAt(offset, n, p)
    ensures SlotAt(offset + p.Minutes(), n + 1, p)
  {
    TimesSum(n, 1, p.Minutes());
  }

  /** A minute of a day, or that day's end. */
  function Cursor(k: int, offset: int): int {
    k * DAY + Min(offset, DAY_MINUTES) * MINUTE
  }

  /** One slot of a day. */
  method SearchSlot(found: Option<int>, now: int, k: int, offset: int, ghost n: int, last: int, p: Profile)
    returns (next: Option<int>)
    requires SlotAt(offset, n, p) && offset < DAY_MINUTES
    requires !DueBy(last, p)(now) && First(found, now, Cursor(k, offset), DueBy(last, p))
    ensures First(next, now, Cursor(k, offset + p.Minutes()), DueBy(last, p))
  {
    var slot := Interval(k * DAY + offset * MINUTE, k * DAY + Min(offset + p.Minutes(), DAY_MINUTES) * MINUTE);
    var at := CadenceSchedule(slot, p);
    SlotExtends(found, now, slot, k, n, last, p);
    next := found;
    if at.Some? && now <= at.value && last < slot.start && (next.None? || at.value < next.value) {
      next := at;
    }
  }

  /** The loop keeps the sooner of what it has and an eligible slot's instant. */
  function Sooner(next: Option<int>, now: int, at: Option<int>, eligible: bool): Option<int> {
    if at.Some? && now <= at.value && eligible && (next.None? || at.value < next.value) then at else next
  }

  /** The instants at which a profile last run at `last` is due. */
  function DueBy(last: int, p: Profile): int -> bool {
    t => Due(t, last, p)
  }

  /** What a search knows once it has covered every instant below `cursor`. */
  ghost predicate First(next: Option<int>, now: int, cursor: int, due: int -> bool) {
    if next.None? then forall t | now <= t < cursor :: !due(t)
    else now <= next.value < cursor && due(next.value) && forall t | now <= t < next.value :: !due(t)
  }

  /** Within its slot a profile is due from the scheduled instant on, unless it
      has already run in the slot. */
  lemma SlotDue(slot: Interval, k: int, n: int, last: int, p: Profile)
    requires n >= 0 && n * p.Minutes() < DAY_MINUTES
    requires slot == Interval(
      k * DAY + n * p.Minutes() * MINUTE,
      k * DAY + Min(n * p.Minutes() + p.Minutes(), DAY_MINUTES) * MINUTE)
    ensures
      var at := Scheduled(slot, p);
      && slot.start <= slot.end && (at.Some? ==> slot.start <= at.value < slot.end)
      && forall t | slot.start <= t < slot.end ::
        DueBy(last, p)(t) <==> at.Some? && at.value <= t && last < slot.start
  {
    var at := Scheduled(slot, p);
    if at.Some? {
      ScheduledIsAllowed(slot, p);
    }
    forall t | slot.start <= t < slot.end
      ensures DueBy(last, p)(t) <==> at.Some? && at.value <= t && last < slot.start
    {
      SlotHolds(t, k, n, p);
    }
  }

  /** Searching one more slot extends the search to the end of that slot. */
  lemma SlotSettles(
    next: Option<int>, now: int, slot: Interval, at: Option<int>, eligible: bool, due: int -> bool)
    requires !due(now) && First(next, now, slot.start, due)
    requires slot.start <= slot.end && (at.Some? ==> slot.start <= at.value < slot.end)
    requires forall t | slot.start <= t < slot.end :: due(t) <==> at.Some? && at.value <= t && eligible
    ensures First(Sooner(next, now, at, eligible), now, slot.end, due)
  {
    assert at.Some? && eligible ==> due(at.value);
    assert at.Some? && eligible && at.value < now < slot.end ==> due(now);
  }

  /** The same for a numbered slot of a day. */
  lemma SlotExtends(next: Option<int>, now: int, slot: Interval, k: int, n: int, last: int, p: Profile)
    requires n >= 0 && n * p.Minutes() < DAY_MINUTES
    requires slot == Interval(
      k * DAY + n * p.Minutes() * MINUTE,
      k * DAY + Min(n * p.Minutes() + p.Minutes(), DAY_MINUTES) * MINUTE)
    requires !DueBy(last, p)(now) && First(next, now, slot.start, DueBy(last, p))
    ensures First(Sooner(next, now, Scheduled(slot, p), last < slot.start), now, slot.end, DueBy(last, p))
  {
    SlotDue(slot, k, n, last, p);
    SlotSettles(next, now, slot, Scheduled(slot, p), last < slot.start, DueBy(last, p));
  }

  /** A profile due after its scheduled instant was due a moment before. */
  lemma EarlierIsDue(t: int, last: int, p: Profile)
    requires Due(t, last, p) && Scheduled(Slot(t, p), p).value < t
    ensures Due(t - 1, last, p)
  {
    SlotContains(t, p);
    ScheduledIsAllowed(Slot(t, p), p);
    SlotBefore(t, p);
  }

  /** An instant due after one that is not is the scheduled instant of its slot,
      and so lies in an allowed window. */
  lemma FirstDueIsScheduled(t: int, last: int, p: Profile)
    ensures DueBy(last, p)(t) && !DueBy(last, p)(t - 1) ==>
      Scheduled(Slot(t, p), p) == Some(t) && InWindow(t, p.windows)
  {
    if Due(t, last, p) {
      var at := Scheduled(Slot(t, p), p);
      if at.value < t {
        EarlierIsDue(t, last, p);
      } else {
        assert at == Some(t);
        ScheduledIsAllowed(Slot(t, p), p);
      }
    }
  }

  lemma SlotBefore(t: int, p: Profile)
    ensures Slot(t, p).start < t ==> Slot(t - 1, p) == Slot(t, p)
  {
    var n := SlotNumber(t, p);
    SlotContains(t, p);
    if Slot(t, p).start < t {
      SlotHolds(t - 1, t / DAY, n, p);
    }
  }

  /** The slot of an instant is one of its day's numbered slots. */
  lemma SlotNumber(t: int, p: Profile) returns (n: int)
    ensures n >= 0 && n * p.Minutes() < DAY_MINUTES
    ensures Slot(t, p) == Interval(
      t / DAY * DAY + n * p.Minutes() * MINUTE,
      t / DAY * DAY + Min(n * p.Minutes() + p.Minutes(), DAY_MINUTES) * MINUTE)
  {
    var offset := (t - Midnight(t)) / MINUTE;
    n := offset / p.Minutes();
    MinuteOfDay(t);
    Floor(offset, p.Minutes());
    Cancel(-1, n, p.Minutes());
  }

  lemma MinuteOfDay(t: int)
    ensures 0 <= (t - Midnight(t)) / MINUTE < DAY_MINUTES
  {
  }
}
