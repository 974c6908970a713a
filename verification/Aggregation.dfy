/** The aggregator: open minute buckets, pending records, sealed minutes
    (internal/aggregate/aggregate.go). */
module Aggregation {
  import opened Arithmetic
  import opened MinuteSummary
  import Stability

  const LIVE_CAPACITY: nat := 600

  datatype Record = Metric(summary: Summary) | Other(id: nat, timestamp: int)

  datatype Aggregate = Aggregate(
    buckets: map<Key, Cell>, pending: seq<Record>, live: seq<Sample>, sealed: map<Target, int>)

  const EMPTY := Aggregate(map[], [], [], map[])

  predicate Accepts(a: Aggregate, s: Sample) {
    !(s.target in a.sealed && KeyOf(s).minute <= a.sealed[s.target])
  }

  function WithSample(a: Aggregate, s: Sample): Aggregate {
    if !Accepts(a, s) then a
    else
      var key := KeyOf(s);
      var cell := if key in a.buckets then a.buckets[key] else Opened(s);
      a.(buckets := a.buckets[key := Counted(cell, s)],
         live := (if |a.live| == LIVE_CAPACITY then a.live[1..] else a.live) + [s])
  }

  predicate Before(a: Key, b: Key) {
    a.target < b.target || (a.target == b.target && a.minute < b.minute)
  }

  ghost predicate InOrder(keys: seq<Key>) {
    forall i, j | 0 <= i < j < |keys| :: Before(keys[i], keys[j])
  }

  /** `keys` are the minutes a flush at `now` closes, in order. */
  ghost predicate Closes(a: Aggregate, now: int, keys: seq<Key>) {
    InOrder(keys) && forall k :: k in keys <==> k in a.buckets && k.minute < now / MINUTE
  }

  function SealedBy(sealed: map<Target, int>, keys: seq<Key>): map<Target, int> {
    if keys == [] then sealed
    else
      var before, k := SealedBy(sealed, keys[..|keys| - 1]), keys[|keys| - 1];
      before[k.target := Max(if k.target in before then before[k.target] else 0, k.minute)]
  }

  function Summaries(buckets: map<Key, Cell>, keys: seq<Key>): (records: seq<Record>)
    requires forall k | k in keys :: k in buckets
    ensures |records| == |keys|
    ensures forall i | 0 <= i < |keys| :: records[i] == Metric(Summarised(buckets[keys[i]]))
  {
    if keys == [] then []
    else Summaries(buckets, keys[..|keys| - 1]) + [Metric(Summarised(buckets[keys[|keys| - 1]]))]
  }

  /** One pass of the flush loop: the next closed key adds its summary and its seal. */
  lemma OneMoreClosed(buckets: map<Key, Cell>, sealed: map<Target, int>, keys: seq<Key>, i: nat)
    requires i < |keys| && forall k | k in keys :: k in buckets
    ensures Summaries(buckets, keys[..i + 1]) == Summaries(buckets, keys[..i]) + [Metric(Summarised(buckets[keys[i]]))]
    ensures
      var before, k := SealedBy(sealed, keys[..i]), keys[i];
      SealedBy(sealed, keys[..i + 1]) ==
        before[k.target := Max(if k.target in before then before[k.target] else 0, k.minute)]
  {
    assert keys[..i + 1][..i] == keys[..i];
  }

  function Dropped(buckets: map<Key, Cell>, keys: set<Key>): map<Key, Cell> {
    map k | k in buckets && k !in keys :: buckets[k]
  }

  function AsSet(keys: seq<Key>): set<Key> {
    set k | k in keys
  }

  /** Flush, or Shutdown when `discard` is set. */
  function Flushed(a: Aggregate, keys: seq<Key>, discard: bool): Aggregate {
    Aggregate(if discard then map[] else Dropped(a.buckets, AsSet(keys)), [], a.live, SealedBy(a.sealed, keys))
  }

  // ---- what is kept over every run ------------------------------------------

  /** One summary that a flush produced. */
  datatype Emission = Emission(key: Key, cell: Cell)

  /** The accepted samples not discarded by a Shutdown, those discarded, and the
      summaries emitted, all since the last Reset. */
  datatype History = History(kept: seq<Sample>, discarded: seq<Sample>, emitted: seq<Emission>, accepted: seq<Sample>)

  datatype Step =
    | AddSample(sample: Sample)
    | AddRecord(id: nat, timestamp: int)
    | Flush(now: int, keys: seq<Key>, discard: bool)
    | FlushPending
    | Restore(records: seq<Record>)
    | Reset

  function OfKey(samples: seq<Sample>, k: Key): seq<Sample> {
    if samples == [] then []
    else if KeyOf(samples[|samples| - 1]) == k then OfKey(samples[..|samples| - 1], k) + [samples[|samples| - 1]]
    else OfKey(samples[..|samples| - 1], k)
  }

  /** The samples whose minute is, or is not, among `keys`. */
  function Selected(samples: seq<Sample>, keys: set<Key>, inside: bool): seq<Sample> {
    if samples == [] then []
    else
      var before := Selected(samples[..|samples| - 1], keys, inside);
      var last := samples[|samples| - 1];
      if (KeyOf(last) in keys) == inside then before + [last] else before
  }

  function Emissions(buckets: map<Key, Cell>, keys: seq<Key>): (r: seq<Emission>)
    requires forall k | k in keys :: k in buckets
    ensures |r| == |keys| && forall i | 0 <= i < |keys| :: r[i] == Emission(keys[i], buckets[keys[i]])
  {
    seq(|keys|, i requires 0 <= i < |keys| => Emission(keys[i], buckets[keys[i]]))
  }

  function EmittedKeys(emitted: seq<Emission>): set<Key> {
    set e | e in emitted :: e.key
  }

  datatype Machine = Machine(a: Aggregate, h: History)

  const START := Machine(EMPTY, History([], [], [], []))

  ghost predicate Enabled(m: Machine, step: Step) {
    step.Flush? ==> Closes(m.a, step.now, step.keys)
  }

  ghost function Apply(m: Machine, step: Step): Machine
    requires Enabled(m, step)
  {
    match step
    case AddSample(s) =>
      var h := m.h;
      Machine(WithSample(m.a, s),
        if Accepts(m.a, s) then h.(kept := h.kept + [s], accepted := h.accepted + [s]) else h)
    case AddRecord(id, timestamp) => m.(a := m.a.(pending := m.a.pending + [Other(id, timestamp)]))
    case Flush(_, keys, discard) =>
      var emitted := m.h.emitted + Emissions(m.a.buckets, keys);
      var done := EmittedKeys(emitted);
      Machine(Flushed(m.a, keys, discard),
        if discard then
          History(Selected(m.h.kept, done, true), m.h.discarded + Selected(m.h.kept, done, false),
            emitted, m.h.accepted)
        else m.h.(emitted := emitted))
    case FlushPending => m.(a := m.a.(pending := []))
    case Restore(records) => m.(a := m.a.(pending := records + m.a.pending))
    case Reset => START
  }

  ghost predicate IsRun(m: Machine, steps: seq<Step>)
    decreases |steps|
  {
    steps == [] || (Enabled(m, steps[0]) && IsRun(Apply(m, steps[0]), steps[1..]))
  }

  ghost function After(m: Machine, steps: seq<Step>): Machine
    requires IsRun(m, steps)
    decreases |steps|
  {
    if steps == [] then m else After(Apply(m, steps[0]), steps[1..])
  }

  ghost predicate Distinct(emitted: seq<Emission>) {
    forall i, j | 0 <= i < j < |emitted| :: emitted[i].key != emitted[j].key
  }

  /** Every minute's kept samples are exactly one open bucket or exactly one
      emitted summary. */
  ghost predicate MinuteAccounted(m: Machine, k: Key) {
    var mine := OfKey(m.h.kept, k);
    && (k in m.a.buckets ==> mine != [] && m.a.buckets[k] == CellOf(mine))
    && (mine != [] ==> (k in m.a.buckets) != (k in EmittedKeys(m.h.emitted)))
    && (mine == [] ==> k !in m.a.buckets && k !in EmittedKeys(m.h.emitted))
  }

  ghost predicate EmissionAccounted(m: Machine, e: Emission) {
    && OfKey(m.h.kept, e.key) != [] && e.cell == CellOf(OfKey(m.h.kept, e.key))
    && e.key.target in m.a.sealed && e.key.minute <= m.a.sealed[e.key.target]
  }

  ghost predicate Accounted(m: Machine) {
    && Distinct(m.h.emitted)
    && (forall k :: MinuteAccounted(m, k))
    && (forall e | e in m.h.emitted :: EmissionAccounted(m, e))
  }

  // ---- lemmas about lists of samples ----------------------------------------

  lemma OfKeyAppend(samples: seq<Sample>, s: Sample, k: Key)
    ensures OfKey(samples + [s], k) == if KeyOf(s) == k then OfKey(samples, k) + [s] else OfKey(samples, k)
  {
    assert (samples + [s])[..|samples|] == samples;
  }

  lemma {:induction false} OfKeySelected(samples: seq<Sample>, keys: set<Key>, k: Key)
    ensures OfKey(Selected(samples, keys, true), k) == if k in keys then OfKey(samples, k) else []
  {
    if samples != [] {
      var init, last := samples[..|samples| - 1], samples[|samples| - 1];
      OfKeySelected(init, keys, k);
      OfKeyAppend(Selected(init, keys, true), last, k);
    }
  }

  lemma {:induction false} SelectedPartition(samples: seq<Sample>, keys: set<Key>)
    ensures multiset(Selected(samples, keys, true)) + multiset(Selected(samples, keys, false)) == multiset(samples)
  {
    if samples != [] {
      SelectedPartition(samples[..|samples| - 1], keys);
      assert samples == samples[..|samples| - 1] + [samples[|samples| - 1]];
    }
  }

  lemma {:induction false} SealedGrows(sealed: map<Target, int>, keys: seq<Key>)
    ensures forall t | t in sealed :: t in SealedBy(sealed, keys) && SealedBy(sealed, keys)[t] >= sealed[t]
    ensures forall k | k in keys :: k.target in SealedBy(sealed, keys) && SealedBy(sealed, keys)[k.target] >= k.minute
  {
    if keys != [] {
      SealedGrows(sealed, keys[..|keys| - 1]);
      assert keys == keys[..|keys| - 1] + [keys[|keys| - 1]];
    }
  }

  ghost predicate Gives(sealed: map<Target, int>, keys: seq<Key>, t: Target, minute: int) {
    minute == 0 || (t in sealed && sealed[t] == minute) || Key(t, minute) in keys
  }

  /** Sealing touches only the targets it closes, and each seal is a minute that was
      sealed or is being closed, or the zero a missing one reads as. */
  lemma {:induction false} SealedExactly(sealed: map<Target, int>, keys: seq<Key>)
    ensures forall t :: t in SealedBy(sealed, keys) <==> t in sealed || exists k :: k in keys && k.target == t
    ensures forall t | t in SealedBy(sealed, keys) :: Gives(sealed, keys, t, SealedBy(sealed, keys)[t])
    ensures forall t | t in sealed && !(exists k :: k in keys && k.target == t) ::
      SealedBy(sealed, keys)[t] == sealed[t]
  {
    if keys != [] {
      var init, k := keys[..|keys| - 1], keys[|keys| - 1];
      SealedExactly(sealed, init);
      assert keys == init + [k] && k == Key(k.target, k.minute);
    }
  }

  // ---- each step ------------------------------------------------------------

  lemma SampleKeepsMinute(m: Machine, s: Sample, k: Key)
    requires MinuteAccounted(m, k) && Accepts(m.a, s)
    requires KeyOf(s) !in EmittedKeys(m.h.emitted)
    ensures MinuteAccounted(Apply(m, AddSample(s)), k)
  {
    OfKeyAppend(m.h.kept, s, k);
    var mine := OfKey(m.h.kept, k);
    assert (mine + [s])[..|mine|] == mine;
  }

  lemma SampleKeepsAccounted(m: Machine, s: Sample)
    requires Accounted(m) && Accepts(m.a, s)
    ensures Accounted(Apply(m, AddSample(s)))
  {
    var n := Apply(m, AddSample(s));
    forall e | e in m.h.emitted ensures e.key != KeyOf(s) && EmissionAccounted(n, e) {
      assert EmissionAccounted(m, e);
      OfKeyAppend(m.h.kept, s, e.key);
    }
    forall k ensures MinuteAccounted(n, k) {
      assert MinuteAccounted(m, k);
      SampleKeepsMinute(m, s, k);
    }
  }

  lemma FlushKeepsAccounted(m: Machine, now: int, keys: seq<Key>)
    requires Accounted(m) && Closes(m.a, now, keys)
    ensures Accounted(Apply(m, Flush(now, keys, false)))
  {
    var n := Apply(m, Flush(now, keys, false));
    var closed := Emissions(m.a.buckets, keys);
    SealedGrows(m.a.sealed, keys);
    assert forall k :: k in EmittedKeys(closed) <==> k in keys by {
      forall k | k in keys ensures k in EmittedKeys(closed) {
        var i :| 0 <= i < |keys| && keys[i] == k;
        assert closed[i] in closed;
      }
    }
    assert forall k :: k in EmittedKeys(n.h.emitted) <==> k in EmittedKeys(m.h.emitted) || k in keys;
    forall k ensures MinuteAccounted(n, k) {
      assert MinuteAccounted(m, k);
    }
    forall e | e in n.h.emitted ensures EmissionAccounted(n, e) {
      if e in m.h.emitted {
        assert EmissionAccounted(m, e);
      } else {
        assert MinuteAccounted(m, e.key);
      }
    }
    forall i, j | 0 <= i < j < |n.h.emitted| ensures n.h.emitted[i].key != n.h.emitted[j].key {
      if i < |m.h.emitted| <= j {
        assert MinuteAccounted(m, n.h.emitted[j].key);
        assert n.h.emitted[i].key in EmittedKeys(m.h.emitted);
      }
    }
  }

  lemma DiscardKeepsAccounted(m: Machine, now: int, keys: seq<Key>)
    requires Accounted(m) && Closes(m.a, now, keys)
    ensures Accounted(Apply(m, Flush(now, keys, true)))
  {
    var flushed := Apply(m, Flush(now, keys, false));
    var n := Apply(m, Flush(now, keys, true));
    FlushKeepsAccounted(m, now, keys);
    var done := EmittedKeys(n.h.emitted);
    forall k ensures MinuteAccounted(n, k) {
      assert MinuteAccounted(flushed, k);
      OfKeySelected(m.h.kept, done, k);
    }
    forall e | e in n.h.emitted ensures EmissionAccounted(n, e) {
      assert EmissionAccounted(flushed, e);
      assert e.key in done;
      OfKeySelected(m.h.kept, done, e.key);
    }
  }

  lemma SameMinutes(m: Machine, n: Machine)
    requires Accounted(m) && n.h == m.h && n.a.buckets == m.a.buckets && n.a.sealed == m.a.sealed
    ensures Accounted(n)
  {
    forall k ensures MinuteAccounted(n, k) {
      assert MinuteAccounted(m, k);
    }
    forall e | e in n.h.emitted ensures EmissionAccounted(n, e) {
      assert EmissionAccounted(m, e);
    }
  }

  lemma StepKeepsAccounted(m: Machine, step: Step)
    requires Accounted(m) && Enabled(m, step)
    ensures Accounted(Apply(m, step))
  {
    match step {
      case AddSample(s) => if Accepts(m.a, s) { SampleKeepsAccounted(m, s); }
      case Flush(now, keys, discard) =>
        if discard { DiscardKeepsAccounted(m, now, keys); } else { FlushKeepsAccounted(m, now, keys); }
      case Reset => NothingToAccount();
      case _ => SameMinutes(m, Apply(m, step));
    }
  }

  lemma NothingToAccount()
    ensures Accounted(START)
  {
    forall k ensures MinuteAccounted(START, k) {
    }
  }

  /** The samples since the last Reset split into kept and discarded, and the
      live window shows the last of them. */
  ghost predicate Conserved(m: Machine) {
    && multiset(m.h.accepted) == multiset(m.h.kept) + multiset(m.h.discarded)
    && m.a.live == m.h.accepted[if |m.h.accepted| <= LIVE_CAPACITY then 0 else |m.h.accepted| - LIVE_CAPACITY..]
  }

  lemma SampleKeepsConserved(m: Machine, s: Sample)
    requires Conserved(m)
    ensures Conserved(Apply(m, AddSample(s)))
  {
  }

  lemma StepKeepsConserved(m: Machine, step: Step)
    requires Conserved(m) && Enabled(m, step)
    ensures Conserved(Apply(m, step))
  {
    match step {
      case AddSample(s) => SampleKeepsConserved(m, s);
      case Flush(_, _, discard) =>
        if discard { SelectedPartition(m.h.kept, EmittedKeys(Apply(m, step).h.emitted)); }
      case _ =>
    }
  }

  /** Between Resets each target and minute is summarised at most once, every
      accepted sample is counted in exactly one summary or one open bucket
      unless a Shutdown discarded it, and the live window is the last samples. */
  lemma {:induction false} EveryRunIsAccounted(m: Machine, steps: seq<Step>)
    requires Accounted(m) && Conserved(m) && IsRun(m, steps)
    ensures Accounted(After(m, steps)) && Conserved(After(m, steps))
    decreases |steps|
  {
    if steps != [] {
      StepKeepsAccounted(m, steps[0]);
      StepKeepsConserved(m, steps[0]);
      EveryRunIsAccounted(Apply(m, steps[0]), steps[1..]);
    }
  }

  /** The same from a new aggregator, told for one accepted sample. */
  lemma EverySampleIsCountedOnce(steps: seq<Step>, s: Sample)
    requires IsRun(START, steps)
    requires s in After(START, steps).h.accepted
    ensures
      var m := After(START, steps);
      var mine := OfKey(m.h.kept, KeyOf(s));
      && Distinct(m.h.emitted)
      && (s in m.h.kept || s in m.h.discarded)
      && (s in m.h.kept ==>
        && s in mine
        && ((KeyOf(s) in m.a.buckets) != (exists e :: e in m.h.emitted && e.key == KeyOf(s)))
        && (KeyOf(s) in m.a.buckets ==> m.a.buckets[KeyOf(s)].attempts == |mine|)
        && (forall e | e in m.h.emitted && e.key == KeyOf(s) :: Summarised(e.cell).samples == |mine|))
  {
    NothingToAccount();
    EveryRunIsAccounted(START, steps);
    var m := After(START, steps);
    assert s in multiset(m.h.accepted);
    if s in m.h.kept {
      InOwnMinute(m.h.kept, s);
      assert MinuteAccounted(m, KeyOf(s));
      CellCounts(OfKey(m.h.kept, KeyOf(s)));
      forall e | e in m.h.emitted && e.key == KeyOf(s)
        ensures Summarised(e.cell).samples == |OfKey(m.h.kept, KeyOf(s))|
      {
        assert EmissionAccounted(m, e);
      }
    }
  }

  /** The sample is of the target and was taken within the minute. */
  predicate OfMinute(s: Sample, k: Key) {
    s.target == k.target && k.minute * MINUTE <= s.timestamp < (k.minute + 1) * MINUTE
  }

  lemma {:induction false} AllOfMinute(samples: seq<Sample>, k: Key)
    ensures forall s | s in OfKey(samples, k) :: s in samples && OfMinute(s, k)
    ensures forall s | s in samples && OfMinute(s, k) :: s in OfKey(samples, k)
  {
    if samples != [] {
      var init, last := samples[..|samples| - 1], samples[|samples| - 1];
      AllOfMinute(init, k);
      assert samples == init + [last];
      assert KeyOf(last) == k <==> OfMinute(last, k);
    }
  }

  /** A flush closes exactly the open minutes that are over. */
  lemma FlushClosesPastMinutes(a: Aggregate, now: int, keys: seq<Key>, k: Key)
    requires Closes(a, now, keys)
    ensures k in keys <==> k in a.buckets && (k.minute + 1) * MINUTE <= now
  {
    assert k.minute < now / MINUTE <==> (k.minute + 1) * MINUTE <= now;
  }

  /** On every run each summary that was emitted tells exactly the samples of its
      target and minute that were kept: the share lost, the extremes and percentiles of
      their latencies, and the mean step between them. */
  lemma EmissionsTellTheirSamples(steps: seq<Step>, e: Emission)
    requires IsRun(START, steps) && e in After(START, steps).h.emitted
    ensures
      var mine, s := OfKey(After(START, steps).h.kept, e.key), Summarised(e.cell);
      var l := Latencies(mine);
      && mine != [] && s.samples == |mine| && (forall i | 0 <= i < |mine| :: OfMinute(mine[i], e.key))
      && Stability.Times(s.loss, |mine| as real) == 100.0 * Lost(mine) as real
      && (l != [] ==> s.min in l && s.max in l && AtPercent(l, 50, s.p50) && AtPercent(l, 95, s.p95))
      && (|l| > 1 ==> Stability.Times(s.jitter, (|l| - 1) as real) == Stability.Sum(MinuteSummary.Steps(l)))
  {
    NothingToAccount();
    EveryRunIsAccounted(START, steps);
    var m := After(START, steps);
    assert EmissionAccounted(m, e);
    AllOfMinute(m.h.kept, e.key);
    CellCounts(OfKey(m.h.kept, e.key));
    SummaryTellsSamples(OfKey(m.h.kept, e.key));
  }

  lemma {:induction false} InOwnMinute(samples: seq<Sample>, s: Sample)
    requires s in samples
    ensures s in OfKey(samples, KeyOf(s))
  {
    if samples[|samples| - 1] != s {
      InOwnMinute(samples[..|samples| - 1], s);
    }
  }

  // ---- the code -------------------------------------------------------------

  function Placed(ordered: seq<Key>, k: Key): seq<Key> {
    if ordered == [] || Before(ordered[|ordered| - 1], k) then ordered + [k]
    else Placed(ordered[..|ordered| - 1], k) + [ordered[|ordered| - 1]]
  }

  lemma {:induction false} PlacedStaysInOrder(ordered: seq<Key>, k: Key)
    requires InOrder(ordered) && k !in ordered
    ensures InOrder(Placed(ordered, k)) && forall x :: x in Placed(ordered, k) <==> x in ordered || x == k
  {
    if ordered != [] && !Before(ordered[|ordered| - 1], k) {
      var init, last := ordered[..|ordered| - 1], ordered[|ordered| - 1];
      PlacedStaysInOrder(init, k);
      assert ordered == init + [last] && Before(k, last);
      forall i | 0 <= i < |Placed(init, k)| ensures Before(Placed(init, k)[i], last) {
        assert Placed(init, k)[i] in Placed(init, k);
      }
    }
  }

  class Aggregator {
    var buckets: map<Key, Cell>
    var pending: seq<Record>
    var live: seq<Sample>
    var sealed: map<Target, int>

    ghost function View(): Aggregate
      reads this
    {
      Aggregate(buckets, pending, live, sealed)
    }

    constructor ()
      ensures View() == EMPTY
    {
      buckets, pending, live, sealed := map[], [], [], map[];
    }

    method Add(sample: Sample)
      modifies this
      ensures View() == WithSample(old(View()), sample)
    {
      var key := KeyOf(sample);
      if sample.target in sealed && key.minute <= sealed[sample.target] { return; }
      if key !in buckets { buckets := buckets[key := Opened(sample)]; }
      buckets := buckets[key := Counted(buckets[key], sample)];
      if |live| == LIVE_CAPACITY { live := live[1..]; }
      live := live + [sample];
    }

    method AddPending(id: nat, timestamp: int)
      modifies this
      ensures View() == old(View()).(pending := old(pending) + [Other(id, timestamp)])
    {
      pending := pending + [Other(id, timestamp)];
    }

    /** The keys that a flush closes, sorted. */
    method ClosedKeys(cutoff: int) returns (keys: seq<Key>)
      ensures InOrder(keys) && forall k :: k in keys <==> k in buckets && k.minute < cutoff
    {
      keys := [];
      var left := buckets.Keys;
      while left != {}
        invariant left <= buckets.Keys && InOrder(keys)
        invariant forall k :: k in keys <==> k in buckets && k !in left && k.minute < cutoff
        decreases |left|
      {
        var key :| key in left;
        if key.minute < cutoff {
          PlacedStaysInOrder(keys, key);
          keys := Placed(keys, key);
        }
        left := left - {key};
      }
    }

    /** The loop of flush: one summary and one seal for each closed key. */
    method Summarise(closing: seq<Key>) returns (records: seq<Record>, seals: map<Target, int>)
      requires forall k | k in closing :: k in buckets
      ensures records == Summaries(buckets, closing) && seals == SealedBy(sealed, closing)
    {
      records, seals := [], sealed;
      for i := 0 to |closing|
        invariant records == Summaries(buckets, closing[..i])
        invariant seals == SealedBy(sealed, closing[..i])
      {
        var key := closing[i];
        OneMoreClosed(buckets, sealed, closing, i);
        var metric := Summarised(buckets[key]);
        records := records + [Metric(metric)];
        seals := seals[key.target := Max(if key.target in seals then seals[key.target] else 0, key.minute)];
      }
      assert closing[..|closing|] == closing;
    }

    /** flush: Flush, or Shutdown when `discardOpen` is set. */
    method FlushAt(now: int, discardOpen: bool) returns (records: seq<Record>, ghost keys: seq<Key>)
      modifies this
      ensures old(Closes(View(), now, keys))
      ensures records == Summaries(old(buckets), keys) + old(pending)
      ensures |records| == |keys| + |old(pending)| && records[|keys|..] == old(pending)
      ensures forall i | 0 <= i < |keys| :: records[i] == Metric(Summarised(old(buckets)[keys[i]]))
      ensures View() == Flushed(old(View()), keys, discardOpen)
    {
      var closing := ClosedKeys(now / MINUTE);
      keys := closing;
      var metrics, seals := Summarise(closing);
      records := metrics + pending;
      buckets := if discardOpen then map[] else Dropped(buckets, AsSet(closing));
      sealed, pending := seals, [];
    }

    method FlushPendingOnly() returns (records: seq<Record>)
      modifies this
      ensures records == old(pending) && View() == old(View()).(pending := [])
    {
      records := pending;
      pending := [];
    }

    method RestoreRecords(records: seq<Record>)
      modifies this
      ensures View() == old(View()).(pending := records + old(pending))
    {
      pending := records + pending;
    }

    method ResetAll()
      modifies this
      ensures View() == EMPTY
    {
      buckets, pending, live, sealed := map[], [], [], map[];
    }
  }
}
