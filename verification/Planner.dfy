/** The household scenario planner (quality/household.go). Rates are in
    hundredths of a megabit per second, so planned bytes are exact integers. */
module Planner {
  import opened Arithmetic
  import Claims
  import opened Wrappers

  const WARMUP_MS: nat := 2000
  const OBSERVE_MS: nat := 12000
  const MIN_OBSERVE_MS: nat := 8000
  const WINDOW_STEP_MS: nat := 1000
  const REFERENCE_SEGMENTS: nat := 3
  const MAX_INSTANCES: int := 8
  const MAX_COUNT: int := 4
  const PROBE_HEADER_BYTES: nat := 600

  datatype Pattern = Segments | Frames | Probes | Bursts

  datatype Activity = Activity(key: string, pattern: Pattern, down: nat, up: nat, interval: nat)

  const STREAM_UHD := Activity("stream_uhd", Segments, 1500, 0, 2000)
  const STREAM_FHD := Activity("stream_fhd", Segments, 500, 0, 2000)
  const STREAM_HD := Activity("stream_hd", Segments, 300, 0, 2000)
  const VIDEO_CALL := Activity("video_call", Frames, 300, 380, 100)
  const GAME := Activity("game", Probes, 10, 5, 50)
  const BROWSING := Activity("browsing", Bursts, 75, 0, 3000)

  datatype Mix = Mix(uhd: int, fhd: int, hd: int, calls: int, gaming: int, browsing: bool) {
    function Instances(): int {
      uhd + fhd + hd + calls + gaming + if browsing then 1 else 0
    }
  }

  const DEFAULT_MIX := Mix(2, 0, 0, 1, 1, true)

  // ---- the mix --------------------------------------------------------------

  function Clamp(value: int, low: int, high: int): int {
    if value < low then low else if value > high then high else value
  }

  function Clamped(m: Mix): Mix {
    Mix(Clamp(m.uhd, 0, MAX_COUNT), Clamp(m.fhd, 0, MAX_COUNT), Clamp(m.hd, 0, MAX_COUNT),
      Clamp(m.calls, 0, MAX_COUNT), Clamp(m.gaming, 0, MAX_COUNT), m.browsing)
  }

  function NormalisedMix(m: Mix): Mix {
    var c := Clamped(m);
    if c.Instances() == 0 || c.Instances() > MAX_INSTANCES then DEFAULT_MIX else c
  }

  predicate Runnable(m: Mix) {
    && 0 <= m.uhd <= MAX_COUNT && 0 <= m.fhd <= MAX_COUNT && 0 <= m.hd <= MAX_COUNT
    && 0 <= m.calls <= MAX_COUNT && 0 <= m.gaming <= MAX_COUNT
    && 1 <= m.Instances() <= MAX_INSTANCES
  }

  /** Every mix becomes runnable, exactly the runnable mixes are left alone, and
      a mix is never trimmed to fit the instance bound. */
  lemma NormalisedMixIsRunnable(m: Mix)
    ensures Runnable(NormalisedMix(m))
    ensures NormalisedMix(m) == m <==> Runnable(m)
    ensures NormalisedMix(NormalisedMix(m)) == NormalisedMix(m)
    ensures NormalisedMix(m) == Clamped(m) || NormalisedMix(m) == DEFAULT_MIX
  {
  }

  /** The count nearest to the one configured, of those allowed. */
  ghost predicate Nearest(count: int, value: int) {
    && 0 <= count <= MAX_COUNT
    && (count == value || (count == 0 && value < 0) || (count == MAX_COUNT && value > MAX_COUNT))
  }

  /** Counts out of range are moved to the nearest one in range, and the default
      replaces exactly the mixes that then have no instance or too many. */
  lemma NormalisedMixIsNearest(m: Mix)
    ensures
      var c := Clamped(m);
      && Nearest(c.uhd, m.uhd) && Nearest(c.fhd, m.fhd) && Nearest(c.hd, m.hd)
      && Nearest(c.calls, m.calls) && Nearest(c.gaming, m.gaming) && c.browsing == m.browsing
      && NormalisedMix(m) == if 1 <= c.Instances() <= MAX_INSTANCES then c else DEFAULT_MIX
  {
  }

  function Repeated(a: Activity, count: int): seq<Activity> {
    if count <= 0 then [] else Repeated(a, count - 1) + [a]
  }

  function Activities(m: Mix): seq<Activity> {
    Repeated(STREAM_UHD, m.uhd) + Repeated(STREAM_FHD, m.fhd) + Repeated(STREAM_HD, m.hd)
    + Repeated(VIDEO_CALL, m.calls) + Repeated(GAME, m.gaming) + Repeated(BROWSING, if m.browsing then 1 else 0)
  }

  lemma {:induction false} RepeatedLength(a: Activity, count: int)
    ensures |Repeated(a, count)| == if count <= 0 then 0 else count
  {
    if count > 0 {
      RepeatedLength(a, count - 1);
    }
  }

  /** A runnable mix expands to exactly its instance count. */
  lemma EveryInstanceIsPlanned(m: Mix)
    requires Runnable(m)
    ensures |Activities(m)| == m.Instances()
  {
    RepeatedLength(STREAM_UHD, m.uhd);
    RepeatedLength(STREAM_FHD, m.fhd);
    RepeatedLength(STREAM_HD, m.hd);
    RepeatedLength(VIDEO_CALL, m.calls);
    RepeatedLength(GAME, m.gaming);
    RepeatedLength(BROWSING, if m.browsing then 1 else 0);
  }

  function Occurrences(activities: seq<Activity>, a: Activity): nat {
    if activities == [] then 0
    else Occurrences(activities[..|activities| - 1], a) + if activities[|activities| - 1] == a then 1 else 0
  }

  lemma {:induction false} OccurrencesAppend(x: seq<Activity>, y: seq<Activity>, a: Activity)
    ensures Occurrences(x + y, a) == Occurrences(x, a) + Occurrences(y, a)
  {
    if y == [] {
      assert x + y == x;
    } else {
      assert (x + y)[..|x + y| - 1] == x + y[..|y| - 1];
      OccurrencesAppend(x, y[..|y| - 1], a);
    }
  }

  function Part(a: Activity, b: Activity, count: int): nat {
    if a == b && count > 0 then count else 0
  }

  lemma {:induction false} RepeatedHolds(b: Activity, count: int, a: Activity)
    ensures Occurrences(Repeated(b, count), a) == Part(a, b, count)
  {
    if count > 0 {
      RepeatedHolds(b, count - 1, a);
      assert Repeated(b, count)[..|Repeated(b, count)| - 1] == Repeated(b, count - 1);
    }
  }

  /** It holds each activity as often as the mix asks for it, and nothing else. */
  lemma ActivitiesAreTheMix(m: Mix, a: Activity)
    ensures Occurrences(Activities(m), a) ==
      Part(a, STREAM_UHD, m.uhd) + Part(a, STREAM_FHD, m.fhd) + Part(a, STREAM_HD, m.hd)
      + Part(a, VIDEO_CALL, m.calls) + Part(a, GAME, m.gaming) + Part(a, BROWSING, if m.browsing then 1 else 0)
  {
    var u, f, h := Repeated(STREAM_UHD, m.uhd), Repeated(STREAM_FHD, m.fhd), Repeated(STREAM_HD, m.hd);
    var c, g := Repeated(VIDEO_CALL, m.calls), Repeated(GAME, m.gaming);
    var b := Repeated(BROWSING, if m.browsing then 1 else 0);
    OccurrencesAppend(u, f, a);
    OccurrencesAppend(u + f, h, a);
    OccurrencesAppend(u + f + h, c, a);
    OccurrencesAppend(u + f + h + c, g, a);
    OccurrencesAppend(u + f + h + c + g, b, a);
    RepeatedHolds(STREAM_UHD, m.uhd, a);
    RepeatedHolds(STREAM_FHD, m.fhd, a);
    RepeatedHolds(STREAM_HD, m.hd, a);
    RepeatedHolds(VIDEO_CALL, m.calls, a);
    RepeatedHolds(GAME, m.gaming, a);
    RepeatedHolds(BROWSING, if m.browsing then 1 else 0, a);
  }

  function Reference(m: Mix): Option<Activity> {
    if m.uhd > 0 then Some(STREAM_UHD)
    else if m.fhd > 0 then Some(STREAM_FHD)
    else if m.hd > 0 then Some(STREAM_HD)
    else None
  }

  // ---- bytes and time -------------------------------------------------------

  /** Payload of running an activity for a time, rounded up. */
  function PlannedBytes(a: Activity, duration: int): nat {
    if duration <= 0 then 0
    else if a.pattern.Probes? && a.interval > 0 then duration / a.interval * PROBE_HEADER_BYTES
    else ((a.down + a.up) * duration * 5 + 3) / 4
  }

  function UnitBytes(a: Activity): nat {
    a.down * a.interval * 5 / 4
  }

  function TotalBytes(activities: seq<Activity>, duration: int): nat {
    if activities == [] then 0
    else TotalBytes(activities[..|activities| - 1], duration) + PlannedBytes(activities[|activities| - 1], duration)
  }

  function MixBytes(m: Mix, observe: int): nat {
    TotalBytes(Activities(m), WARMUP_MS + observe)
  }

  function ReferenceBytes(m: Mix): nat {
    if Reference(m).Some? then UnitBytes(Reference(m).value) * (REFERENCE_SEGMENTS + 1) else 0
  }

  function ReferenceTime(m: Mix): nat {
    if Reference(m).Some? then Reference(m).value.interval * REFERENCE_SEGMENTS + Reference(m).value.interval / 2 else 0
  }

  predicate Fits(m: Mix, reference: bool, observe: int, cap: nat, available: int) {
    && MixBytes(m, observe) + (if reference then ReferenceBytes(m) else 0) <= Claims.Usable(cap)
    && WARMUP_MS + observe + (if reference then ReferenceTime(m) else 0) <= available
  }

  /** Planned bytes are the demand of both directions over the time, rounded up to a
      byte; a hundredth of a megabit for a millisecond is five quarters of a byte. */
  lemma PlannedBytesRoundUp(a: Activity, duration: int)
    requires duration > 0 && !a.pattern.Probes?
    ensures 4 * PlannedBytes(a, duration) >= (a.down + a.up) * duration * 5 > 4 * (PlannedBytes(a, duration) - 1)
  {
  }

  /** Probes are planned by their headers: one for each whole interval. */
  lemma PlannedProbes(a: Activity, duration: int, probes: nat)
    requires duration > 0 && a.pattern.Probes? && a.interval > 0
    requires probes * a.interval <= duration < (probes + 1) * a.interval
    ensures PlannedBytes(a, duration) == 600 * probes
  {
    DivideIs(duration, a.interval, probes);
  }

  lemma {:induction false} TotalBytesAppend(a: seq<Activity>, b: seq<Activity>, duration: int)
    ensures TotalBytes(a + b, duration) == TotalBytes(a, duration) + TotalBytes(b, duration)
  {
    if b == [] {
      assert a + b == a;
    } else {
      assert (a + b)[..|a + b| - 1] == a + b[..|b| - 1];
      TotalBytesAppend(a, b[..|b| - 1], duration);
    }
  }

  lemma {:induction false} RepeatedBytes(a: Activity, count: int, duration: int)
    requires count >= 0
    ensures TotalBytes(Repeated(a, count), duration) == count * PlannedBytes(a, duration)
  {
    if count > 0 {
      RepeatedBytes(a, count - 1, duration);
      assert Repeated(a, count)[..|Repeated(a, count)| - 1] == Repeated(a, count - 1);
      TimesSum(count - 1, 1, PlannedBytes(a, duration));
    }
  }

  /** A mix plans for each of its instances over warm-up and window. */
  lemma MixBytesAddUp(m: Mix, observe: int)
    requires Runnable(m)
    ensures
      var time := 2000 + observe;
      MixBytes(m, observe) ==
        m.uhd * PlannedBytes(STREAM_UHD, time) + m.fhd * PlannedBytes(STREAM_FHD, time)
        + m.hd * PlannedBytes(STREAM_HD, time) + m.calls * PlannedBytes(VIDEO_CALL, time)
        + m.gaming * PlannedBytes(GAME, time) + if m.browsing then PlannedBytes(BROWSING, time) else 0
  {
    var time := 2000 + observe;
    var a, b, c := Repeated(STREAM_UHD, m.uhd), Repeated(STREAM_FHD, m.fhd), Repeated(STREAM_HD, m.hd);
    var d, e := Repeated(VIDEO_CALL, m.calls), Repeated(GAME, m.gaming);
    var f := Repeated(BROWSING, if m.browsing then 1 else 0);
    TotalBytesAppend(a, b, time);
    TotalBytesAppend(a + b, c, time);
    TotalBytesAppend(a + b + c, d, time);
    TotalBytesAppend(a + b + c + d, e, time);
    TotalBytesAppend(a + b + c + d + e, f, time);
    RepeatedBytes(STREAM_UHD, m.uhd, time);
    RepeatedBytes(STREAM_FHD, m.fhd, time);
    RepeatedBytes(STREAM_HD, m.hd, time);
    RepeatedBytes(VIDEO_CALL, m.calls, time);
    RepeatedBytes(GAME, m.gaming, time);
    RepeatedBytes(BROWSING, if m.browsing then 1 else 0, time);
  }

  /** A stream that the mix runs. */
  predicate Streams(m: Mix, a: Activity) {
    a.pattern.Segments? && Occurrences(Activities(m), a) > 0
  }

  lemma StreamsAreThree(m: Mix, a: Activity)
    requires Streams(m, a)
    ensures
      (a == STREAM_UHD && m.uhd > 0) || (a == STREAM_FHD && m.fhd > 0) || (a == STREAM_HD && m.hd > 0)
  {
    ActivitiesAreTheMix(m, a);
  }

  /** The reference is the stream of the mix with the highest demand; it costs four
      segments and takes three and a half intervals. */
  lemma ReferenceIsHighest(m: Mix)
    ensures Reference(m).None? ==> forall a :: !Streams(m, a)
    ensures Reference(m).Some? ==>
      var r := Reference(m).value;
      && Streams(m, r) && (forall a | Streams(m, a) :: a.down <= r.down)
      && ReferenceBytes(m) == 4 * UnitBytes(r) && 2 * ReferenceTime(m) == 7 * r.interval
      && 4 * UnitBytes(r) <= r.down * r.interval * 5 < 4 * (UnitBytes(r) + 1)
  {
    forall a | Streams(m, a)
      ensures (a == STREAM_UHD && m.uhd > 0) || (a == STREAM_FHD && m.fhd > 0) || (a == STREAM_HD && m.hd > 0)
    {
      StreamsAreThree(m, a);
    }
    if Reference(m).Some? {
      ActivitiesAreTheMix(m, Reference(m).value);
    }
  }

  datatype Reason = Settled | InsufficientBytes | InsufficientTime

  datatype Plan = Plan(
    observe: int, reference: bool, referenceBytes: nat, referenceTime: nat,
    mixBytes: nat, plannedBytes: nat, sufficient: bool, reason: Reason)

  predicate OnGrid(observe: int) {
    MIN_OBSERVE_MS <= observe <= OBSERVE_MS && (OBSERVE_MS - observe) % WINDOW_STEP_MS == 0
  }

  /** What the plan records about itself is what it would spend. */
  predicate Truthful(plan: Plan, m: Mix) {
    && OnGrid(plan.observe)
    && plan.mixBytes == MixBytes(m, plan.observe)
    && plan.referenceBytes == (if plan.reference then ReferenceBytes(m) else 0)
    && plan.referenceTime == (if plan.reference then ReferenceTime(m) else 0)
    && plan.plannedBytes == plan.mixBytes + plan.referenceBytes
    && (plan.reference ==> Reference(m).Some?)
  }

  /** The best plan: fitting if anything fits, with the reference and the full
      window if those fit, else with the longest window of the grid. */
  ghost predicate Best(plan: Plan, m: Mix, cap: nat, available: int) {
    && Truthful(plan, m)
    && (plan.sufficient ==> Fits(m, plan.reference, plan.observe, cap, available) && plan.reason == Settled)
    && (plan.sufficient <==> exists o :: OnGrid(o) && Fits(m, false, o, cap, available))
    && (plan.sufficient ==> forall o | OnGrid(o) && o > plan.observe :: !Fits(m, false, o, cap, available))
    && (plan.reference ==> plan.observe == OBSERVE_MS)
    && (!plan.reference ==> Reference(m).None? || !Fits(m, true, OBSERVE_MS, cap, available))
    && (!plan.sufficient ==>
      && plan.observe == MIN_OBSERVE_MS && !plan.reference
      && plan.reason == (if plan.plannedBytes > Claims.Usable(cap) then InsufficientBytes else InsufficientTime))
  }

  // ---- what optimality gives ------------------------------------------------

  lemma MoreNeverHurtsFit(m: Mix, reference: bool, observe: int, cap: nat, available: int, cap': nat, available': int)
    requires cap <= cap' && available <= available' && Fits(m, reference, observe, cap, available)
    ensures Fits(m, reference, observe, cap', available')
  {
  }

  /** Raising the cap or the time never shortens the window, never drops the
      reference and never loses sufficiency. */
  lemma MoreNeverHurts(p: Plan, p': Plan, m: Mix, cap: nat, available: int, cap': nat, available': int)
    requires cap <= cap' && available <= available'
    requires Best(p, m, cap, available) && Best(p', m, cap', available')
    ensures p.sufficient ==> p'.sufficient
    ensures p.sufficient ==> p'.observe >= p.observe
    ensures p.sufficient && p.reference ==> p'.reference
  {
    if p.sufficient {
      MoreNeverHurtsFit(m, p.reference, p.observe, cap, available, cap', available');
      assert Fits(m, false, p.observe, cap', available');
    }
  }

  lemma BytesGrow(a: Activity, short: int, long: int)
    requires short <= long
    ensures PlannedBytes(a, short) <= PlannedBytes(a, long)
  {
    if short > 0 {
      if a.pattern.Probes? && a.interval > 0 {
        DivideGrows(short, long, a.interval);
      } else {
        TimesGrows(short, long, a.down + a.up);
        TimesSwaps(short, a.down + a.up);
        TimesSwaps(long, a.down + a.up);
      }
    }
  }

  lemma {:induction false} TotalBytesGrow(activities: seq<Activity>, short: int, long: int)
    requires short <= long
    ensures TotalBytes(activities, short) <= TotalBytes(activities, long)
  {
    if activities != [] {
      TotalBytesGrow(activities[..|activities| - 1], short, long);
      BytesGrow(activities[|activities| - 1], short, long);
    }
  }

  /** A shorter window fits wherever a longer one does, so a plan is sufficient
      exactly when the shortest window fits. */
  lemma SufficientWhenShortestFits(plan: Plan, m: Mix, cap: nat, available: int)
    requires Best(plan, m, cap, available)
    ensures plan.sufficient <==> Fits(m, false, MIN_OBSERVE_MS, cap, available)
  {
    assert OnGrid(MIN_OBSERVE_MS);
    if plan.sufficient {
      TotalBytesGrow(Activities(m), WARMUP_MS + MIN_OBSERVE_MS, WARMUP_MS + plan.observe);
    }
  }

  // ---- the code -------------------------------------------------------------

  method SumBytes(activities: seq<Activity>, duration: int) returns (total: nat)
    ensures total == TotalBytes(activities, duration)
  {
    total := 0;
    for i := 0 to |activities|
      invariant total == TotalBytes(activities[..i], duration)
    {
      assert activities[..i + 1][..i] == activities[..i];
      total := total + PlannedBytes(activities[i], duration);
    }
    assert activities[..|activities|] == activities;
  }

  /** The source's `fits` closure: recompute the plan's bytes, then compare. */
  method Recompute(plan: Plan, m: Mix, cap: nat, available: int) returns (r: Plan, ok: bool)
    requires OnGrid(plan.observe) && (plan.reference ==> Reference(m).Some?)
    requires plan.referenceBytes == (if plan.reference then ReferenceBytes(m) else 0)
    requires plan.referenceTime == (if plan.reference then ReferenceTime(m) else 0)
    ensures Truthful(r, m) && r.observe == plan.observe && r.reference == plan.reference
    ensures r.sufficient == plan.sufficient && r.reason == plan.reason
    ensures ok == Fits(m, plan.reference, plan.observe, cap, available)
  {
    var mixBytes := SumBytes(Activities(m), WARMUP_MS + plan.observe);
    var planned, total := mixBytes, WARMUP_MS + plan.observe;
    if plan.reference {
      planned := planned + plan.referenceBytes;
      total := total + plan.referenceTime;
    }
    r := plan.(mixBytes := mixBytes, plannedBytes := planned);
    ok := planned <= Claims.Usable(cap) && total <= available;
  }

  /** PlanHousehold. */
  method PlanHousehold(m: Mix, cap: nat, available: int) returns (plan: Plan)
    ensures Best(plan, m, cap, available)
  {
    var reference := Reference(m);
    plan := Plan(OBSERVE_MS, reference.Some?, ReferenceBytes(m), ReferenceTime(m), 0, 0, true, Settled);
    var ok;
    plan, ok := Recompute(plan, m, cap, available);
    if ok {
      assert Fits(m, false, plan.observe, cap, available);
      return;
    }
    plan := plan.(reference := false, referenceBytes := 0, referenceTime := 0);
    plan, ok := Recompute(plan, m, cap, available);
    if ok { return; }
    while plan.observe > MIN_OBSERVE_MS
      invariant Truthful(plan, m) && !plan.reference && plan.sufficient && plan.reason == Settled
      invariant forall o | OnGrid(o) && o >= plan.observe :: !Fits(m, false, o, cap, available)
      decreases plan.observe
    {
      ghost var longer := plan.observe;
      plan := plan.(observe := plan.observe - WINDOW_STEP_MS);
      plan, ok := Recompute(plan, m, cap, available);
      assert forall o | OnGrid(o) && o > plan.observe :: o >= longer;
      if ok { return; }
    }
    plan, ok := Recompute(plan, m, cap, available);
    plan := plan.(sufficient := false, reason := InsufficientTime);
    if plan.plannedBytes > Claims.Usable(cap) { plan := plan.(reason := InsufficientBytes); }
  }

  // ---- staggering -----------------------------------------------------------

  function Count(activities: seq<Activity>, key: string): nat {
    if activities == [] then 0
    else
      var last := activities[|activities| - 1];
      Count(activities[..|activities| - 1], key) + if last.pattern.Segments? && last.key == key then 1 else 0
  }

  function Offset(activities: seq<Activity>, i: nat): int
    requires i < |activities|
  {
    var a := activities[i];
    if !a.pattern.Segments? || Count(activities, a.key) < 2 then 0
    else Count(activities[..i], a.key) * a.interval / Count(activities, a.key)
  }

  lemma {:induction false} CountGrows(activities: seq<Activity>, key: string, i: nat, j: nat)
    requires i <= j <= |activities|
    ensures Count(activities[..i], key) <= Count(activities[..j], key)
    decreases j
  {
    if i < j {
      assert activities[..j][..j - 1] == activities[..j - 1];
      CountGrows(activities, key, i, j - 1);
    }
  }

  lemma CountsApart(activities: seq<Activity>, key: string, i: nat, j: nat)
    requires i < j <= |activities| && activities[i].pattern.Segments? && activities[i].key == key
    ensures Count(activities[..i], key) < Count(activities[..j], key)
  {
    assert activities[..i + 1][..i] == activities[..i];
    CountGrows(activities, key, i + 1, j);
  }

  lemma OffsetsApart(k: nat, l: nat, count: nat, interval: nat)
    requires k < l < count
    ensures k * interval / count + interval / count <= l * interval / count
  {
    TimesSum(k, 1, interval);
    TimesGrows(k + 1, l, interval);
    DivideSum(k * interval, interval, l * interval, count);
  }

  lemma OffsetBelow(l: nat, count: nat, interval: nat)
    requires l < count && interval > 0
    ensures l * interval / count < interval
  {
    TimesSum(l, 1, interval);
    TimesGrows(l + 1, count, interval);
    TimesSwaps(count, interval);
    DivideBelow(l * interval, count, interval);
  }

  /** Two streams of one kind never burst together: within the interval their
      fetches start at least an interval's equal share apart. */
  lemma StreamsNeverBurstTogether(activities: seq<Activity>, i: nat, j: nat)
    requires i < j < |activities| && activities[i] == activities[j] && activities[i].pattern.Segments?
    requires activities[i].interval > 0
    ensures
      var count := Count(activities, activities[i].key);
      && count >= 2
      && Offset(activities, i) + activities[i].interval / count <= Offset(activities, j) < activities[i].interval
  {
    var key := activities[i].key;
    CountsApart(activities, key, i, j);
    CountsApart(activities, key, j, |activities|);
    assert activities[..|activities|] == activities;
    var k, l, count := Count(activities[..i], key), Count(activities[..j], key), Count(activities, key);
    OffsetsApart(k, l, count, activities[i].interval);
    OffsetBelow(l, count, activities[i].interval);
  }

  function Get(counts: map<string, nat>, key: string): nat {
    if key in counts then counts[key] else 0
  }

  method CountStreams(activities: seq<Activity>) returns (counts: map<string, nat>)
    ensures forall key :: Get(counts, key) == Count(activities, key)
  {
    counts := map[];
    for i := 0 to |activities|
      invariant forall key :: Get(counts, key) == Count(activities[..i], key)
    {
      var a := activities[i];
      assert activities[..i + 1][..i] == activities[..i];
      if a.pattern.Segments? { counts := counts[a.key := Get(counts, a.key) + 1]; }
    }
    assert activities[..|activities|] == activities;
  }

  /** StaggerOffsets. */
  method StaggerOffsets(activities: seq<Activity>) returns (offsets: seq<int>)
    ensures |offsets| == |activities|
    ensures forall i | 0 <= i < |activities| :: offsets[i] == Offset(activities, i)
  {
    var counts := CountStreams(activities);
    var seen: map<string, nat> := map[];
    offsets := [];
    for i := 0 to |activities|
      invariant |offsets| == i
      invariant forall k | 0 <= k < i :: offsets[k] == Offset(activities, k)
      invariant forall key | Count(activities, key) >= 2 :: Get(seen, key) == Count(activities[..i], key)
    {
      var a := activities[i];
      assert activities[..i + 1][..i] == activities[..i];
      var offset := 0;
      if a.pattern.Segments? && Get(counts, a.key) >= 2 {
        offset := Get(seen, a.key) * a.interval / Get(counts, a.key);
        seen := seen[a.key := Get(seen, a.key) + 1];
      }
      assert offset == Offset(activities, i);
      offsets := offsets + [offset];
    }
  }
}
