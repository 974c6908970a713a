/** The durable table of controller speed-test nonces
    (AcceptSpeedTestRequest, internal/state/store.go). */
module Nonces {
  import opened Arithmetic
  import opened PurgeStore

  const CAPACITY: nat := 32

  type Nonce = string

  /** Nonce to expiry. */
  type Table = map<Nonce, int>

  function Live(t: Table, now: int): Table {
    map n | n in t && t[n] >= now :: t[n]
  }

  /** The entry a full table gives up: none expires earlier. */
  predicate Oldest(t: Table, victim: Nonce) {
    victim in t && forall n | n in t :: t[victim] <= t[n]
  }

  /** The table written when a new nonce is taken. */
  ghost predicate Taken(t: Table, nonce: Nonce, expiry: int, next: Table) {
    if |t| < CAPACITY then next == t[nonce := expiry]
    else exists victim :: Oldest(t, victim) && next == (t - {victim})[nonce := expiry]
  }

  // ---- one call -------------------------------------------------------------

  /** The table never grows past its capacity. */
  lemma TakenIsBounded(t: Table, nonce: Nonce, expiry: int, next: Table)
    requires |t| <= CAPACITY && nonce !in t && Taken(t, nonce, expiry, next)
    ensures |next| <= CAPACITY && nonce in next
  {
    assert next.Keys == (if |t| < CAPACITY then t.Keys else next.Keys - {nonce}) + {nonce};
    if |t| >= CAPACITY {
      var victim :| Oldest(t, victim) && next == (t - {victim})[nonce := expiry];
      assert next.Keys == t.Keys - {victim} + {nonce};
    }
  }

  /** Taking a nonce forgets another live one exactly when the table is full. */
  lemma ForgetsOnlyWhenFull(t: Table, nonce: Nonce, expiry: int, next: Table)
    requires nonce !in t && Taken(t, nonce, expiry, next)
    ensures (exists n :: n in t && n !in next) <==> |t| >= CAPACITY
  {
    if |t| >= CAPACITY {
      var victim :| Oldest(t, victim) && next == (t - {victim})[nonce := expiry];
      assert victim in t && victim !in next;
    }
  }

  // ---- every run ------------------------------------------------------------------------------

  const LIFETIME: int := 600

  datatype Accepted = Accepted(nonce: Nonce, expiry: int, at: int)

  /** The table in memory and in the state file, the clock, and every request
      the store has said yes to. */
  datatype World = World(mem: Table, file: File<Table>, now: int, accepted: seq<Accepted>)

  datatype Event =
    | Accept(nonce: Nonce, expiry: int, now: int, next: Table, write: Write)
    | Restart
    | PowerLoss(image: Table)

  /** Before a request reaches the store the service has checked the form of its
      nonce, that it has not expired and that it expires within ten minutes. The
      clock does not run backwards. */
  ghost predicate Enabled(w: World, e: Event) {
    match e
    case Accept(nonce, expiry, now, next, _) =>
      && WellFormed(nonce) && w.now <= now < expiry <= now + LIFETIME
      && (nonce !in Live(w.mem, now) ==> Taken(Live(w.mem, now), nonce, expiry, next))
    case Restart => true
    case PowerLoss(image) => image in Images(w.file)
  }

  predicate WellFormed(nonce: Nonce) {
    16 <= |nonce| <= 128 && forall i | 0 <= i < |nonce| :: NonceChar(nonce[i])
  }

  predicate NonceChar(c: char) {
    'a' <= c <= 'z' || 'A' <= c <= 'Z' || '0' <= c <= '9' || c == '-' || c == '_'
  }

  function Apply(w: World, e: Event): World {
    match e
    case Accept(nonce, expiry, now, next, write) =>
      if nonce in Live(w.mem, now) then w.(now := now)
      else World(
        if write.NotReplaced? then w.mem else next, Replaced(w.file, next, write), now,
        if write.Durable? then w.accepted + [Accepted(nonce, expiry, now)] else w.accepted)
    case Restart => w.(mem := w.file.seen)
    case PowerLoss(image) => w.(mem := image, file := File(image, {}))
  }

  /** A daemon whose state file holds a table and that has accepted nothing. */
  function Fresh(found: Table, now: int): World {
    World(found, File(found, {}), now, [])
  }

  function After(w: World, events: seq<Event>): World {
    if events == [] then w else Apply(After(w, events[..|events| - 1]), events[|events| - 1])
  }

  ghost predicate IsRun(w: World, events: seq<Event>) {
    events == [] ||
    (IsRun(w, events[..|events| - 1]) && Enabled(After(w, events[..|events| - 1]), events[|events| - 1]))
  }

  lemma OneMore(w: World, events: seq<Event>, e: Event)
    requires IsRun(w, events) && Enabled(After(w, events), e)
    ensures IsRun(w, events + [e]) && After(w, events + [e]) == Apply(After(w, events), e)
  {
    assert (events + [e])[..|events|] == events;
  }

  /** No request is accepted again before its first acceptance has expired. */
  ghost predicate NoReplay(accepted: seq<Accepted>) {
    forall i, j | 0 <= i < j < |accepted| && accepted[i].nonce == accepted[j].nonce ::
      accepted[i].expiry <= accepted[j].at
  }

  /** The step gives up, for lack of room, the nonce of an accepted request that
      has not expired. */
  ghost predicate GivesUp(w: World, e: Event, i: nat) {
    && e.Accept? && e.nonce !in Live(w.mem, e.now) && !e.write.NotReplaced?
    && i < |w.accepted| && w.accepted[i].expiry > e.now && w.accepted[i].nonce !in e.next
  }

  ghost predicate GivesUpNone(w: World, events: seq<Event>) {
    forall n, i: nat | 0 <= n < |events| :: !GivesUp(After(w, events[..n]), events[n], i)
  }

  // ---- no replay unless a live acceptance is given up -----------------------------------------

  /** A table holds every accepted nonce that has not expired. */
  ghost predicate Remembers(t: Table, accepted: seq<Accepted>, now: int) {
    forall i | 0 <= i < |accepted| && accepted[i].expiry > now ::
      accepted[i].nonce in t && t[accepted[i].nonce] >= accepted[i].expiry
  }

  ghost predicate Timely(accepted: seq<Accepted>, now: int) {
    forall i | 0 <= i < |accepted| ::
      WellFormed(accepted[i].nonce) && accepted[i].at <= now && accepted[i].expiry <= now + LIFETIME
  }

  ghost predicate Sound(w: World) {
    && Remembers(w.mem, w.accepted, w.now)
    && (forall image | image in Images(w.file) :: Remembers(image, w.accepted, w.now))
    && NoReplay(w.accepted) && Timely(w.accepted, w.now)
  }

  /** A taken nonce joins a table that still remembers every live acceptance. */
  lemma TakenRemembers(w: World, e: Event)
    requires Enabled(w, e) && e.Accept? && e.nonce !in Live(w.mem, e.now)
    requires Remembers(w.mem, w.accepted, w.now)
    requires forall i: nat :: !GivesUp(w, e, i)
    requires !e.write.NotReplaced?
    ensures Remembers(e.next, w.accepted, e.now)
    ensures Remembers(e.next, w.accepted + [Accepted(e.nonce, e.expiry, e.now)], e.now)
    ensures forall i | 0 <= i < |w.accepted| && w.accepted[i].nonce == e.nonce :: w.accepted[i].expiry <= e.now
  {
    forall i: nat | i < |w.accepted| && w.accepted[i].expiry > e.now
      ensures w.accepted[i].nonce in Live(w.mem, e.now) && w.accepted[i].nonce in e.next
      ensures Live(w.mem, e.now)[w.accepted[i].nonce] >= w.accepted[i].expiry
    {
      assert !GivesUp(w, e, i);
    }
    assert forall n | n in e.next && n != e.nonce :: n in Live(w.mem, e.now) && e.next[n] == Live(w.mem, e.now)[n];
    assert e.nonce in e.next && e.next[e.nonce] == e.expiry;
  }

  lemma RemembersLater(t: Table, accepted: seq<Accepted>, before: int, now: int)
    requires before <= now && Remembers(t, accepted, before)
    ensures Remembers(t, accepted, now)
  {
  }

  /** After the write every table that can be read remembers every live
      acceptance, the new one included when it is durable. */
  lemma WrittenRemembers(w: World, e: Event)
    requires Sound(w) && Enabled(w, e) && e.Accept? && e.nonce !in Live(w.mem, e.now)
    requires !e.write.NotReplaced? && forall i: nat :: !GivesUp(w, e, i)
    ensures
      var n := Apply(w, e);
      && Remembers(n.mem, n.accepted, n.now)
      && forall image | image in Images(n.file) :: Remembers(image, n.accepted, n.now)
  {
    TakenRemembers(w, e);
    var n := Apply(w, e);
    forall image | image in Images(n.file) ensures Remembers(image, n.accepted, n.now) {
      if image != e.next {
        assert e.write.NotSynced? && image in Images(w.file);
        RemembersLater(image, w.accepted, w.now, n.now);
      }
    }
  }

  lemma AcceptKeepsSound(w: World, e: Event)
    requires Sound(w) && Enabled(w, e) && e.Accept? && forall i: nat :: !GivesUp(w, e, i)
    ensures Sound(Apply(w, e))
  {
    if e.nonce !in Live(w.mem, e.now) && !e.write.NotReplaced? {
      TakenRemembers(w, e);
      WrittenRemembers(w, e);
    } else {
      forall image | image in Images(w.file) ensures Remembers(image, w.accepted, e.now) {
        RemembersLater(image, w.accepted, w.now, e.now);
      }
    }
  }

  lemma StepKeepsSound(w: World, e: Event)
    requires Sound(w) && Enabled(w, e) && forall i: nat :: !GivesUp(w, e, i)
    ensures Sound(Apply(w, e))
  {
    match e {
      case Accept(_, _, _, _, _) => AcceptKeepsSound(w, e);
      case Restart => assert w.file.seen in Images(w.file);
      case PowerLoss(image) => assert Images(File(image, {})) == {image};
    }
  }

  lemma {:induction false} RunKeepsSound(w: World, events: seq<Event>)
    requires Sound(w) && IsRun(w, events) && GivesUpNone(w, events)
    ensures Sound(After(w, events))
  {
    if events != [] {
      var init, n := events[..|events| - 1], |events| - 1;
      forall k, i: nat | 0 <= k < |init| ensures !GivesUp(After(w, init[..k]), init[k], i) {
        assert init[..k] == events[..k] && !GivesUp(After(w, events[..k]), events[k], i);
      }
      RunKeepsSound(w, init);
      forall i: nat ensures !GivesUp(After(w, init), events[n], i) {
        assert !GivesUp(After(w, events[..n]), events[n], i);
      }
      StepKeepsSound(After(w, init), events[n]);
    }
  }

  /** No request is accepted twice before it expires on any run that gives up no
      live acceptance, through failed writes, restarts and power loss, whatever
      the table held at first. */
  lemma NoReplayWithoutEviction(found: Table, now: int, events: seq<Event>)
    requires IsRun(Fresh(found, now), events) && GivesUpNone(Fresh(found, now), events)
    ensures NoReplay(After(Fresh(found, now), events).accepted)
  {
    RunKeepsSound(Fresh(found, now), events);
  }

  // ---- a live acceptance given up can be replayed ----------------------------------------------

  lemma {:induction false} OldestExists(t: Table) returns (oldest: Nonce)
    requires t != map[]
    ensures Oldest(t, oldest)
    decreases |t|
  {
    var n :| n in t;
    var rest := t - {n};
    if rest == map[] {
      oldest := n;
      assert forall m | m in t :: m == n || m in rest;
    } else {
      assert rest.Keys == t.Keys - {n};
      var o := OldestExists(rest);
      oldest := if t[n] < t[o] then n else o;
      assert forall m | m in t :: m == n || m in rest;
    }
  }

  /** The table that taking a nonce may leave. */
  lemma CanTake(t: Table, nonce: Nonce, expiry: int) returns (next: Table)
    ensures Taken(t, nonce, expiry, next)
  {
    if |t| < CAPACITY {
      next := t[nonce := expiry];
    } else {
      var victim := OldestExists(t);
      next := (t - {victim})[nonce := expiry];
    }
  }

  lemma {:induction false} AcceptedAreTimely(w: World, events: seq<Event>)
    requires IsRun(w, events) && Timely(w.accepted, w.now)
    ensures Timely(After(w, events).accepted, After(w, events).now)
  {
    if events != [] {
      AcceptedAreTimely(w, events[..|events| - 1]);
    }
  }

  /** The guard is exact: after every run whose last step gives up a live
      acceptance, that very request is accepted again at any later moment before it
      expires. */
  lemma EvictionAllowsReplay(found: Table, now: int, events: seq<Event>, e: Event, i: nat, later: int)
    returns (again: Event)
    requires IsRun(Fresh(found, now), events + [e])
    requires GivesUp(After(Fresh(found, now), events), e, i)
    requires e.now <= later < After(Fresh(found, now), events).accepted[i].expiry
    ensures IsRun(Fresh(found, now), events + [e] + [again])
    ensures again.Accept? && again.now == later
    ensures
      var w := After(Fresh(found, now), events + [e] + [again]);
      var first, last := w.accepted[i], w.accepted[|w.accepted| - 1];
      && i < |w.accepted| - 1 && last.nonce == first.nonce && last.expiry == first.expiry && last.at < first.expiry
      && !NoReplay(w.accepted)
  {
    var start := Fresh(found, now);
    var run := events + [e];
    assert run[..|run| - 1] == events;
    var w, given := After(start, run), After(start, events).accepted[i];
    AcceptedAreTimely(start, run);
    assert w.accepted[i] == given && w.now == e.now && w.mem == e.next;
    var next := CanTake(Live(w.mem, later), given.nonce, given.expiry);
    again := Accept(given.nonce, given.expiry, later, next, Durable);
    OneMore(start, run, again);
    var accepted := After(start, run + [again]).accepted;
    assert accepted == w.accepted + [Accepted(given.nonce, given.expiry, later)];
  }

  // ---- such a run exists --------------------------------------------------------------------------

  function NonceOf(i: nat): Nonce {
    seq(16 + i, _ => 'a')
  }

  lemma NoncesDiffer(i: nat, j: nat)
    requires i < 100 && j < 100
    ensures WellFormed(NonceOf(i))
    ensures NonceOf(i) == NonceOf(j) ==> i == j
  {
    assert |NonceOf(i)| == 16 + i && |NonceOf(j)| == 16 + j;
  }

  /** When the n-th request is made, one every `gap` seconds. */
  function Time(now: int, gap: nat, n: nat): int {
    now + n * gap
  }

  function ExpiryOf(now: int, gap: nat, n: nat): int {
    Time(now, gap, n) + LIFETIME
  }

  lemma TimesGrow(now: int, gap: nat, i: nat, j: nat)
    requires i <= j
    ensures Time(now, gap, i) <= Time(now, gap, j)
  {
    TimesGrows(i, j, gap);
  }

  /** The table after n different requests, each good for the longest time allowed. */
  function Filled(now: int, gap: nat, n: nat): Table {
    if n == 0 then map[] else Filled(now, gap, n - 1)[NonceOf(n - 1) := ExpiryOf(now, gap, n - 1)]
  }

  lemma {:induction false} FilledHolds(now: int, gap: nat, n: nat)
    requires n <= 40
    ensures |Filled(now, gap, n)| == n
    ensures forall k | k in Filled(now, gap, n) :: Filled(now, gap, n)[k] >= now + LIFETIME
    ensures forall i: nat | i < 40 :: NonceOf(i) in Filled(now, gap, n) <==> i < n
    ensures n > 0 ==> NonceOf(0) in Filled(now, gap, n) && Filled(now, gap, n)[NonceOf(0)] == now + LIFETIME
  {
    if n > 0 {
      FilledHolds(now, gap, n - 1);
      TimesGrow(now, gap, 0, n - 1);
      forall i: nat | i < 40 ensures NonceOf(i) == NonceOf(n - 1) ==> i == n - 1 {
        NoncesDiffer(i, n - 1);
      }
    }
  }

  /** Nothing expires before the first request does. */
  lemma FilledIsLive(now: int, gap: nat, n: nat, at: int)
    requires n <= 40 && at <= now + LIFETIME
    ensures Live(Filled(now, gap, n), at) == Filled(now, gap, n)
  {
    FilledHolds(now, gap, n);
  }

  ghost predicate Spaced(events: seq<Event>, now: int, gap: nat) {
    forall i: nat | i < |events| :: events[i].Accept? && events[i].now == Time(now, gap, i)
  }

  lemma SpacedOneMore(events: seq<Event>, e: Event, now: int, gap: nat)
    requires Spaced(events, now, gap) && e.Accept? && e.now == Time(now, gap, |events|)
    ensures Spaced(events + [e], now, gap)
  {
  }

  /** The table holds the first n requests, and the first was accepted at once. */
  ghost predicate Filling(w: World, now: int, gap: nat, n: nat) {
    && w.mem == Filled(now, gap, n) && w.now <= Time(now, gap, n) && |w.accepted| == n
    && (n > 0 ==> w.accepted[0] == Accepted(NonceOf(0), now + LIFETIME, now))
  }

  lemma FillingStep(w: World, now: int, gap: nat, n: nat) returns (e: Event)
    requires n < CAPACITY && (CAPACITY + 1) * gap < LIFETIME && Filling(w, now, gap, n)
    ensures e.Accept? && e.now == Time(now, gap, n) && Enabled(w, e)
    ensures Filling(Apply(w, e), now, gap, n + 1)
  {
    var at := Time(now, gap, n);
    TimesGrow(now, gap, n, CAPACITY + 1);
    TimesGrow(now, gap, n, n + 1);
    FilledHolds(now, gap, n);
    FilledIsLive(now, gap, n, at);
    NoncesDiffer(n, n);
    e := Accept(NonceOf(n), at + LIFETIME, at, Filled(now, gap, n + 1), Durable);
  }

  /** Accept n different requests, one every `gap` seconds. */
  lemma {:induction false} FillingRun(now: int, gap: nat, n: nat) returns (events: seq<Event>)
    requires n <= CAPACITY && (CAPACITY + 1) * gap < LIFETIME
    ensures IsRun(Fresh(map[], now), events) && |events| == n && Spaced(events, now, gap)
    ensures Filling(After(Fresh(map[], now), events), now, gap, n)
  {
    if n == 0 {
      events := [];
    } else {
      var before := FillingRun(now, gap, n - 1);
      var e := FillingStep(After(Fresh(map[], now), before), now, gap, n - 1);
      OneMore(Fresh(map[], now), before, e);
      SpacedOneMore(before, e, now, gap);
      events := before + [e];
    }
  }

  /** The full table gives up the first request for the next one. */
  lemma FullTableGivesUp(w: World, now: int, gap: nat) returns (e: Event)
    requires (CAPACITY + 1) * gap < LIFETIME && Filling(w, now, gap, CAPACITY)
    ensures e.Accept? && e.now == Time(now, gap, CAPACITY) && Enabled(w, e) && GivesUp(w, e, 0)
  {
    var t, at := w.mem, Time(now, gap, CAPACITY);
    TimesGrow(now, gap, CAPACITY, CAPACITY + 1);
    FilledHolds(now, gap, CAPACITY);
    FilledIsLive(now, gap, CAPACITY, at);
    NoncesDiffer(0, CAPACITY);
    NoncesDiffer(CAPACITY, CAPACITY);
    assert Oldest(t, NonceOf(0));
    var next := (t - {NonceOf(0)})[NonceOf(CAPACITY) := at + LIFETIME];
    e := Accept(NonceOf(CAPACITY), at + LIFETIME, at, next, Durable);
  }

  /** From an empty table, 33 different requests and the first of them again, evenly
      spaced within its ten minutes: 34 requests are accepted, one of them twice. The
      spacing leaves each test time to end before the next request is considered. */
  lemma ReplayIsReachable(now: int, gap: nat) returns (events: seq<Event>)
    requires (CAPACITY + 1) * gap < LIFETIME
    ensures |events| == CAPACITY + 2 && IsRun(Fresh(map[], now), events) && Spaced(events, now, gap)
    ensures !NoReplay(After(Fresh(map[], now), events).accepted)
  {
    var filling := FillingRun(now, gap, CAPACITY);
    var e := FullTableGivesUp(After(Fresh(map[], now), filling), now, gap);
    var full := filling + [e];
    OneMore(Fresh(map[], now), filling, e);
    SpacedOneMore(filling, e, now, gap);
    TimesGrow(now, gap, CAPACITY, CAPACITY + 1);
    var again := EvictionAllowsReplay(map[], now, filling, e, 0, Time(now, gap, CAPACITY + 1));
    SpacedOneMore(full, again, now, gap);
    events := full + [again];
  }

  // ---- the code -------------------------------------------------------------

  method DropExpired(t: Table, now: int) returns (live: Table)
    ensures live == Live(t, now)
  {
    live := t;
    var left := t.Keys;
    while left != {}
      invariant left <= t.Keys
      invariant live == map n | n in t && (n in left || t[n] >= now) :: t[n]
      decreases |left|
    {
      var n :| n in left;
      if t[n] < now { live := live - {n}; }
      left := left - {n};
    }
  }

  method FindOldest(t: Table) returns (oldest: Nonce)
    requires t != map[]
    ensures Oldest(t, oldest)
  {
    var left := t.Keys;
    assert left != {} by {
      var n :| n in t;
    }
    var first :| first in left;
    oldest := first;
    left := left - {first};
    while left != {}
      invariant left <= t.Keys && oldest in t
      invariant forall n | n in t && n !in left :: t[oldest] <= t[n]
      decreases |left|
    {
      var n :| n in left;
      if t[n] < t[oldest] { oldest := n; }
      left := left - {n};
    }
  }

  class SpeedRequests {
    var mem: Table
    var file: File<Table>

    constructor (found: Table)
      ensures mem == found && file == File(found, {})
    {
      mem, file := found, File(found, {});
    }

    /** AcceptSpeedTestRequest: yes exactly when the nonce is new among the live
        ones and its record is durable. */
    method Accept(nonce: Nonce, expiry: int, now: int, write: Write) returns (yes: bool, ghost next: Table)
      modifies this
      ensures yes <==> nonce !in Live(old(mem), now) && write.Durable?
      ensures nonce in Live(old(mem), now) ==> mem == old(mem) && file == old(file)
      ensures nonce !in Live(old(mem), now) ==>
        && Taken(Live(old(mem), now), nonce, expiry, next)
        && mem == (if write.NotReplaced? then old(mem) else next)
        && file == Replaced(old(file), next, write)
    {
      var live := DropExpired(mem, now);
      next := live;
      if nonce in live { return false, next; }
      var table := live;
      if |live| >= CAPACITY {
        var victim := FindOldest(live);
        table := live - {victim};
      }
      table := table[nonce := expiry];
      next := table;
      file := Replaced(file, table, write);
      if !write.NotReplaced? { mem := table; }
      yes := write.Durable?;
    }
  }
}
