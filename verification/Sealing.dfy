/** Sealing under the service's lifecycle mutex (internal/service/service.go):
    a flush closes minutes only while no latency producer is running. */
module Sealing {
  import opened MinuteSummary
  import opened Aggregation

  /** The clock, the aggregator, and the start of a running latency producer. */
  datatype World = World(clock: int, a: Aggregate, probing: bool, since: int, rejected: nat)

  datatype Event =
    | Wait(to: int)
    | StartProbe
    | Observe(sample: Sample)
    | EndProbe
    | TickFlush(now: int, keys: seq<Key>)
    | WriterFlush(now: int, keys: seq<Key>, discard: bool)
    | ResetAll

  /** A flush may use an instant read a moment earlier. Write-locked flushes run
      only when no producer holds the read lock. */
  ghost predicate Enabled(w: World, e: Event) {
    match e
    case Wait(to) => w.clock <= to
    case StartProbe => !w.probing
    case Observe(s) => w.probing && w.since <= s.timestamp <= w.clock
    case EndProbe => w.probing
    case TickFlush(now, keys) => now <= w.clock && (!w.probing ==> Closes(w.a, now, keys))
    case WriterFlush(now, keys, _) => now <= w.clock && !w.probing && Closes(w.a, now, keys)
    case ResetAll => true
  }

  ghost function Apply(w: World, e: Event): World
    requires Enabled(w, e)
  {
    match e
    case Wait(to) => w.(clock := to)
    case StartProbe => w.(probing := true, since := w.clock)
    case Observe(s) =>
      w.(a := WithSample(w.a, s), rejected := w.rejected + if Accepts(w.a, s) then 0 else 1)
    case EndProbe => w.(probing := false)
    case TickFlush(_, keys) =>
      if w.probing then w.(a := w.a.(pending := [])) else w.(a := Flushed(w.a, keys, false))
    case WriterFlush(_, keys, discard) => w.(a := Flushed(w.a, keys, discard))
    case ResetAll => w.(a := EMPTY)
  }

  ghost predicate IsRun(w: World, events: seq<Event>)
    decreases |events|
  {
    events == [] || (Enabled(w, events[0]) && IsRun(Apply(w, events[0]), events[1..]))
  }

  ghost function After(w: World, events: seq<Event>): World
    requires IsRun(w, events)
    decreases |events|
  {
    if events == [] then w else After(Apply(w, events[0]), events[1..])
  }

  function Fresh(clock: int): World {
    World(clock, EMPTY, false, clock, 0)
  }

  /** Sealed minutes lie before every sample that can still come. */
  ghost predicate Sound(w: World) {
    var horizon := if w.probing then w.since else w.clock;
    && 0 <= horizon <= w.clock && w.rejected == 0
    && (forall k | k in w.a.buckets :: 0 <= k.minute)
    && (forall t | t in w.a.sealed :: w.a.sealed[t] < horizon / MINUTE)
  }

  /** Sealing records no minute later than the latest closed one, as long as
      none of them lies before the epoch. */
  lemma {:induction false} SealedBelow(sealed: map<Target, int>, keys: seq<Key>, limit: int)
    requires forall t | t in sealed :: sealed[t] < limit
    requires forall k | k in keys :: 0 <= k.minute < limit
    ensures forall t | t in SealedBy(sealed, keys) :: SealedBy(sealed, keys)[t] < limit
  {
    if keys != [] {
      SealedBelow(sealed, keys[..|keys| - 1], limit);
    }
  }

  lemma StepKeepsSound(w: World, e: Event)
    requires Sound(w) && Enabled(w, e)
    ensures Sound(Apply(w, e))
  {
    match e {
      case TickFlush(now, keys) =>
        if !w.probing {
          assert now / MINUTE <= w.clock / MINUTE;
          SealedBelow(w.a.sealed, keys, w.clock / MINUTE);
        }
      case WriterFlush(now, keys, _) =>
        assert now / MINUTE <= w.clock / MINUTE;
        SealedBelow(w.a.sealed, keys, w.clock / MINUTE);
      case Observe(s) => assert w.since / MINUTE <= s.timestamp / MINUTE;
      case Wait(to) => assert w.clock / MINUTE <= to / MINUTE;
      case _ =>
    }
  }

  lemma {:induction false} RunKeepsSound(w: World, events: seq<Event>)
    requires Sound(w) && IsRun(w, events)
    ensures Sound(After(w, events)) && After(w, events).clock >= w.clock
    decreases |events|
  {
    if events != [] {
      StepKeepsSound(w, events[0]);
      RunKeepsSound(Apply(w, events[0]), events[1..]);
    }
  }

  /** With a monotone clock that starts at or after the epoch, sealing never
      rejects a prober's sample. */
  lemma SealingNeverRejects(clock: int, events: seq<Event>)
    requires clock >= 0 && IsRun(Fresh(clock), events)
    ensures After(Fresh(clock), events).rejected == 0
  {
    RunKeepsSound(Fresh(clock), events);
  }

  // ---- clocks before the epoch ----------------------------------------------

  lemma Prepend(w: World, e: Event, rest: seq<Event>, end: World)
    requires Enabled(w, e)
    requires IsRun(Apply(w, e), rest) && After(Apply(w, e), rest) == end
    ensures IsRun(w, [e] + rest) && After(w, [e] + rest) == end
  {
    assert ([e] + rest)[1..] == rest;
  }

  function At(timestamp: int): Sample {
    Sample(timestamp, 0, 1.0, true, "", "", "")
  }

  /** The guard on the clock is exact: a missing sealed minute reads as the epoch
      minute, so from every clock before the epoch some run rejects a sample of a
      minute that was never summarised. */
  lemma EarlyClocksCanReject(clock: int) returns (events: seq<Event>)
    requires clock < 0
    ensures IsRun(Fresh(clock), events) && After(Fresh(clock), events).rejected == 1
  {
    var first := KeyOf(At(clock));
    assert first.minute < 0;
    var w0 := Fresh(clock);
    var w1 := Apply(w0, StartProbe);
    var w2 := Apply(w1, Observe(At(clock)));
    var w3 := Apply(w2, EndProbe);
    var w4 := Apply(w3, Wait(0));
    assert w4.a.buckets.Keys == {first};
    assert [first][..0] == [];
    assert Closes(w4.a, 0, [first]);
    var w5 := Apply(w4, TickFlush(0, [first]));
    assert first.target == 0 && SealedBy(map[], []) == map[];
    assert w4.a.sealed == map[] && w5.a.sealed == SealedBy(map[], [first]);
    assert w5.a.sealed == map[0 := 0];
    var w6 := Apply(w5, StartProbe);
    assert KeyOf(At(0)).minute == 0;
    var w7 := Apply(w6, Observe(At(0)));
    assert w7.rejected == 1;
    events := [Observe(At(0))];
    Prepend(w6, Observe(At(0)), [], w7);
    assert [Observe(At(0))] + [] == events;
    Prepend(w5, StartProbe, events, w7);
    events := [StartProbe] + events;
    Prepend(w4, TickFlush(0, [first]), events, w7);
    events := [TickFlush(0, [first])] + events;
    Prepend(w3, Wait(0), events, w7);
    events := [Wait(0)] + events;
    Prepend(w2, EndProbe, events, w7);
    events := [EndProbe] + events;
    Prepend(w1, Observe(At(clock)), events, w7);
    events := [Observe(At(clock))] + events;
    Prepend(w0, StartProbe, events, w7);
    events := [StartProbe] + events;
  }
}
