/** The boundary between standalone and connected collection
    (internal/service/service.go): a read/write lock, producers that captured a
    mode, flushes that may fail and restore, mode switches, enrollment, privacy
    cleanup, uploads and crashes, in any interleaving. */
module ModeBoundary {
  import opened PurgeStore

  datatype Kind = Latency | Dns | Http | Link | SpeedTest | Event

  /** A measurement, tagged with the mode its producer had captured. */
  datatype Item = Item(id: nat, kind: Kind, origin: Mode)

  /** A row of the queue: the item and its local_only column. */
  datatype Row = Row(item: Item, localOnly: bool)

  /** A goroutine that holds the read lock: not yet past its snapshot, or
      working for the mode it captured with one flush possibly in hand. */
  datatype Reader = Entered | Working(captured: Mode, hand: set<Item>)

  /** Why a writer ends the current interval: to switch modes, to enrol, or
      because the daemon stops. */
  datatype Purpose = Switch(target: Mode) | Enrolment | Stop

  /** The holder of the write lock. */
  datatype Writer =
    | Absent
    | Holding
    | Extracted(purpose: Purpose, hand: set<Item>, localOnly: bool)
    | Emptied(purpose: Purpose)
    | Updating(hand: set<Item>, localOnly: bool)
    | ResetDone
    | SpoolCleared
    | Done

  /** `claimed` says that the store holds a credential; `tracked` are the lifecycle
      events that have been worked out and not added yet. */
  datatype World = World(
    mode: Mode, claimed: bool, aggregator: set<Item>, tracked: set<Item>, spool: set<Row>, batches: set<Item>,
    readers: map<nat, Reader>, writer: Writer)

  datatype Step =
    | Enter(r: nat)
    | Capture(r: nat)
    | Spawn(r: nat, child: nat)
    | Gather(r: nat, id: nat, kind: Kind)
    | Extract(r: nat, taken: set<Item>)
    | Persist(r: nat, kept: set<Item>, ok: bool)
    | ReaderReset(r: nat)
    | Upload(r: nat, chosen: set<Row>)
    | Leave(r: nat)
    | Lock
    | ShutdownFlush(purpose: Purpose, taken: set<Item>)
    | ShutdownPersist(kept: set<Item>, ok: bool)
    | ChangeMode
    | UpdateFlush(taken: set<Item>)
    | UpdatePersist(kept: set<Item>, ok: bool)
    | Reset
    | ClearSpool
    | Wipe
    | Unlock
    | Track(id: nat)
    | AddEvent(x: Item)
    | Forget(rows: set<Row>)
    | Crash(mode: Mode, claimed: bool)

  function Rows(items: set<Item>, localOnly: bool): set<Row> {
    set x | x in items :: Row(x, localOnly)
  }

  /** What SetMode and SetEnrollment accept: standalone always, connected only
      with a credential; an enrollment brings one. */
  predicate CanCommit(purpose: Purpose, claimed: bool) {
    match purpose
    case Switch(target) => target == Standalone || (target == Connected && claimed)
    case Enrolment => true
    case Stop => false
  }

  function Target(purpose: Purpose): Mode {
    if purpose.Switch? then purpose.target else Connected
  }

  /** The writer can end in connected mode. */
  predicate Connecting(purpose: Purpose, claimed: bool) {
    CanCommit(purpose, claimed) && Target(purpose) == Connected
  }

  /** A switch to the present mode ends before the flush, and a sensor that holds a
      credential is not enrolled again. */
  predicate Admitted(purpose: Purpose, mode: Mode, claimed: bool) {
    purpose != Switch(mode) && (purpose.Enrolment? ==> !claimed)
  }

  predicate Works(w: World, r: nat) {
    r in w.readers && w.readers[r].Working?
  }

  predicate Enabled(w: World, step: Step) {
    match step
    case Enter(r) => w.writer.Absent? && r !in w.readers
    case Capture(r) => r in w.readers && w.readers[r].Entered?
    case Spawn(r, child) => Works(w, r) && child !in w.readers
    case Gather(r, _, _) => Works(w, r)
    case Extract(r, taken) => Works(w, r) && w.readers[r].hand == {} && taken <= w.aggregator
    case Persist(r, kept, _) => Works(w, r) && kept <= w.readers[r].hand
    case ReaderReset(r) => Works(w, r)
    case Upload(r, chosen) => Works(w, r) && chosen <= w.spool && forall row | row in chosen :: !row.localOnly
    case Leave(r) => Works(w, r) && w.readers[r].hand == {}
    case Lock => w.writer.Absent? && w.readers == map[]
    case ShutdownFlush(purpose, taken) =>
      w.writer.Holding? && taken <= w.aggregator && Admitted(purpose, w.mode, w.claimed)
    case ShutdownPersist(kept, _) => w.writer.Extracted? && kept <= w.writer.hand
    case ChangeMode => w.writer.Emptied? && CanCommit(w.writer.purpose, w.claimed)
    case UpdateFlush(taken) => w.writer.Holding? && taken <= w.aggregator
    case UpdatePersist(kept, _) => w.writer.Updating? && kept <= w.writer.hand
    case Reset => w.writer.Holding?
    case ClearSpool => w.writer.ResetDone?
    case Wipe => w.writer.SpoolCleared?
    case Unlock => !w.writer.Absent? && !w.writer.Extracted? && !w.writer.Updating?
    case Track(_) => true
    case AddEvent(x) => x in w.tracked
    case Forget(_) => true
    case Crash(_, _) => true
  }

  /** `kept` are the extracted records persistFlushed does not drop for a
      timestamp before the epoch; a failed commit restores just those. */
  function Apply(w: World, step: Step): World
    requires Enabled(w, step)
  {
    match step
    case Enter(r) => w.(readers := w.readers[r := Entered])
    case Capture(r) => w.(readers := w.readers[r := Working(w.mode, {})])
    case Spawn(r, child) => w.(readers := w.readers[child := Working(w.readers[r].captured, {})])
    case Gather(r, id, kind) => w.(aggregator := w.aggregator + {Item(id, kind, w.readers[r].captured)})
    case Extract(r, taken) =>
      w.(aggregator := w.aggregator - taken, readers := w.readers[r := w.readers[r].(hand := taken)])
    case Persist(r, kept, ok) =>
      var done := w.(readers := w.readers[r := w.readers[r].(hand := {})]);
      if ok then done.(spool := w.spool + Rows(kept, w.readers[r].captured == Standalone))
      else done.(aggregator := w.aggregator + kept)
    case ReaderReset(_) => w.(aggregator := {})
    case Upload(r, chosen) => w.(batches := w.batches + set row | row in chosen :: row.item)
    case Leave(r) => w.(readers := w.readers - {r})
    case Lock => w.(writer := Holding)
    case ShutdownFlush(purpose, taken) =>
      w.(aggregator := {}, writer := Extracted(purpose, taken, purpose.Enrolment? || w.mode == Standalone))
    case ShutdownPersist(kept, ok) =>
      if ok then w.(spool := w.spool + Rows(kept, w.writer.localOnly), writer := Emptied(w.writer.purpose))
      else w.(aggregator := w.aggregator + kept, writer := Done)
    case ChangeMode =>
      w.(mode := Target(w.writer.purpose), claimed := w.claimed || w.writer.purpose.Enrolment?, writer := Done)
    case UpdateFlush(taken) =>
      w.(aggregator := w.aggregator - taken, writer := Updating(taken, w.mode == Standalone))
    case UpdatePersist(kept, ok) =>
      if ok then w.(spool := w.spool + Rows(kept, w.writer.localOnly), writer := Done)
      else w.(aggregator := w.aggregator + kept, writer := Done)
    case Reset => w.(aggregator := {}, writer := ResetDone)
    case ClearSpool => w.(spool := {}, writer := SpoolCleared)
    case Wipe => w.(mode := Standalone, claimed := false, writer := Done)
    case Unlock => w.(writer := Absent)
    case Track(id) => w.(tracked := w.tracked + {Item(id, Event, w.mode)})
    case AddEvent(x) => w.(aggregator := w.aggregator + {x}, tracked := w.tracked - {x})
    case Forget(rows) => w.(spool := w.spool - rows)
    case Crash(mode, claimed) => World(mode, claimed, {}, {}, w.spool, w.batches, map[], Absent)
  }

  ghost predicate IsRun(w: World, steps: seq<Step>)
    decreases |steps|
  {
    steps == [] || (Enabled(w, steps[0]) && IsRun(Apply(w, steps[0]), steps[1..]))
  }

  function After(w: World, steps: seq<Step>): World
    requires IsRun(w, steps)
    decreases |steps|
  {
    if steps == [] then w else After(Apply(w, steps[0]), steps[1..])
  }

  // ---- isolation ------------------------------------------------------------

  /** Records the guarantee is about: every kind but events, or every kind. */
  predicate Guarded(x: Item, events: bool) {
    x.origin == Standalone && (events || !x.kind.Event?)
  }

  ghost predicate NoneGuarded(items: set<Item>, events: bool) {
    forall x | x in items :: !Guarded(x, events)
  }

  ghost predicate ReaderFine(reader: Reader, mode: Mode, events: bool) {
    reader.Working? ==> reader.captured == mode && (mode == Standalone || NoneGuarded(reader.hand, events))
  }

  ghost predicate WriterFine(w: World, events: bool) {
    match w.writer
    case Extracted(purpose, hand, localOnly) =>
      && Admitted(purpose, w.mode, w.claimed)
      && (Connecting(purpose, w.claimed) ==> NoneGuarded(w.aggregator, events))
      && (localOnly || NoneGuarded(hand, events)) && (w.mode == Standalone || NoneGuarded(hand, events))
    case Updating(hand, localOnly) =>
      (localOnly || NoneGuarded(hand, events)) && (w.mode == Standalone || NoneGuarded(hand, events))
    case Emptied(purpose) =>
      && Admitted(purpose, w.mode, w.claimed)
      && (Connecting(purpose, w.claimed) ==> NoneGuarded(w.aggregator, events))
    case _ => true
  }

  ghost predicate Isolated(w: World, events: bool) {
    && (w.mode == Standalone || NoneGuarded(w.aggregator, events))
    && (w.mode == Setup ==> NoneGuarded(w.tracked, events)) && (forall x | x in w.tracked :: x.kind.Event?)
    && (forall r | r in w.readers :: ReaderFine(w.readers[r], w.mode, events))
    && (!w.writer.Absent? ==> w.readers == map[])
    && WriterFine(w, events)
    && (forall row | row in w.spool && Guarded(row.item, events) :: row.localOnly)
    && NoneGuarded(w.batches, events)
  }

  /** The one step that can break the guarantee for events: an event worked out in
      standalone mode is added once the mode is connected, or between the flush and
      the commit of a writer that can end there. */
  predicate Slips(w: World, step: Step) {
    && step.AddEvent? && step.x.origin == Standalone && step.x.kind.Event?
    && (w.mode == Connected
        || (w.mode == Standalone && (w.writer.Extracted? || w.writer.Emptied?)
            && Connecting(w.writer.purpose, w.claimed)))
  }

  predicate ByReader(step: Step) {
    || step.Enter? || step.Capture? || step.Spawn? || step.Gather? || step.Extract? || step.Persist?
    || step.ReaderReset? || step.Upload? || step.Leave?
  }

  lemma ReaderKeepsIsolation(w: World, step: Step, events: bool)
    requires Isolated(w, events) && Enabled(w, step) && ByReader(step)
    ensures Isolated(Apply(w, step), events)
  {
  }

  predicate BySwitch(step: Step) {
    step.Lock? || step.ShutdownFlush? || step.ShutdownPersist? || step.ChangeMode? || step.Unlock?
  }

  lemma SwitchKeepsIsolation(w: World, step: Step, events: bool)
    requires Isolated(w, events) && Enabled(w, step) && BySwitch(step)
    ensures Isolated(Apply(w, step), events)
  {
  }

  /** Updates, cleanup, events, retention and crashes. */
  lemma OtherKeepsIsolation(w: World, step: Step, events: bool)
    requires Isolated(w, events) && Enabled(w, step) && !ByReader(step) && !BySwitch(step)
    requires events ==> !Slips(w, step)
    ensures Isolated(Apply(w, step), events)
  {
  }

  lemma StepKeepsIsolation(w: World, step: Step, events: bool)
    requires Isolated(w, events) && Enabled(w, step)
    requires events ==> !Slips(w, step)
    ensures Isolated(Apply(w, step), events)
  {
    if ByReader(step) {
      ReaderKeepsIsolation(w, step, events);
    } else if BySwitch(step) {
      SwitchKeepsIsolation(w, step, events);
    } else {
      OtherKeepsIsolation(w, step, events);
    }
  }

  ghost predicate NeverSlips(w: World, steps: seq<Step>)
    requires IsRun(w, steps)
    decreases |steps|
  {
    steps == [] || (!Slips(w, steps[0]) && NeverSlips(Apply(w, steps[0]), steps[1..]))
  }

  lemma {:induction false} RunKeepsIsolation(w: World, steps: seq<Step>, events: bool)
    requires Isolated(w, events) && IsRun(w, steps)
    requires events ==> NeverSlips(w, steps)
    ensures Isolated(After(w, steps), events)
    decreases |steps|
  {
    if steps != [] {
      StepKeepsIsolation(w, steps[0], events);
      RunKeepsIsolation(Apply(w, steps[0]), steps[1..], events);
    }
  }

  /** A daemon with an empty queue, in any mode. */
  function Fresh(mode: Mode, claimed: bool): World {
    World(mode, claimed, {}, {}, {}, {}, map[], Absent)
  }

  /** No latency, DNS, HTTP, link or speed-test record gathered in standalone
      mode enters a controller batch, in any interleaving. */
  lemma StandaloneDataStaysLocal(mode: Mode, claimed: bool, steps: seq<Step>, x: Item)
    requires IsRun(Fresh(mode, claimed), steps)
    requires x in After(Fresh(mode, claimed), steps).batches && !x.kind.Event?
    ensures x.origin != Standalone
  {
    RunKeepsIsolation(Fresh(mode, claimed), steps, false);
  }

  /** Events stay local as well in every run without a slip. */
  lemma EventsStayLocalWithoutSlips(mode: Mode, claimed: bool, steps: seq<Step>, x: Item)
    requires IsRun(Fresh(mode, claimed), steps) && NeverSlips(Fresh(mode, claimed), steps)
    requires x in After(Fresh(mode, claimed), steps).batches
    ensures x.origin != Standalone
  {
    RunKeepsIsolation(Fresh(mode, claimed), steps, true);
  }

  /** Whenever the mode really changes, no producer is running and nothing
      guarded that was gathered before is left in memory. */
  lemma NothingCrossesTheBoundary(mode: Mode, claimed: bool, steps: seq<Step>)
    requires IsRun(Fresh(mode, claimed), steps)
    requires Enabled(After(Fresh(mode, claimed), steps), ChangeMode)
    ensures NoneGuarded(After(Fresh(mode, claimed), steps).aggregator, false)
    ensures After(Fresh(mode, claimed), steps).readers == map[]
  {
    RunKeepsIsolation(Fresh(mode, claimed), steps, false);
  }

  /** How a reader of the connected mode uploads an item it finds collected. */
  function LeakByReader(r: nat, x: Item): seq<Step> {
    [Enter(r)] + ([Capture(r)] + ([Extract(r, {x})] + ([Persist(r, {x}, true)] + [Upload(r, {Row(x, false)})])))
  }

  lemma Prepend(w: World, step: Step, rest: seq<Step>, end: World)
    requires Enabled(w, step)
    requires IsRun(Apply(w, step), rest) && After(Apply(w, step), rest) == end
    ensures IsRun(w, [step] + rest) && After(w, [step] + rest) == end
  {
    assert ([step] + rest)[1..] == rest;
  }

  lemma ReaderCanUpload(w: World, r: nat, x: Item) returns (end: World)
    requires w.mode == Connected && x in w.aggregator && r !in w.readers && w.writer == Absent
    ensures IsRun(w, LeakByReader(r, x)) && After(w, LeakByReader(r, x)) == end
    ensures x in end.batches
  {
    var w1 := Apply(w, Enter(r));
    var w2 := Apply(w1, Capture(r));
    var w3 := Apply(w2, Extract(r, {x}));
    var w4 := Apply(w3, Persist(r, {x}, true));
    assert Row(x, false) in w4.spool;
    var upload := Upload(r, {Row(x, false)});
    end := Apply(w4, upload);
    assert Row(x, false) in {Row(x, false)} && Row(x, false).item in end.batches;
    assert [upload] + [] == [upload];
    Prepend(w4, upload, [], end);
    Prepend(w3, Persist(r, {x}, true), [upload], end);
    Prepend(w2, Extract(r, {x}), [Persist(r, {x}, true)] + [upload], end);
    Prepend(w1, Capture(r), [Extract(r, {x})] + ([Persist(r, {x}, true)] + [upload]), end);
    Prepend(w, Enter(r), [Capture(r)] + ([Extract(r, {x})] + ([Persist(r, {x}, true)] + [upload])), end);
  }

  lemma {:induction false} UnusedId(ids: set<nat>) returns (r: nat)
    ensures forall i | i in ids :: i < r
    decreases |ids|
  {
    if ids == {} {
      r := 0;
    } else {
      var i :| i in ids;
      var above := UnusedId(ids - {i});
      r := if i < above then above else i + 1;
      assert forall j | j in ids :: j == i || j in ids - {i};
    }
  }

  /** In connected mode any writer can end without clearing what was collected. */
  lemma WriterCanEnd(w: World, x: Item) returns (steps: seq<Step>, end: World)
    requires Isolated(w, false) && w.mode == Connected && x in w.aggregator
    ensures IsRun(w, steps) && After(w, steps) == end && x in end.batches
  {
    if w.writer.Absent? {
      var r := UnusedId(w.readers.Keys);
      end := ReaderCanUpload(w, r, x);
      steps := LeakByReader(r, x);
    } else {
      var settle := if w.writer.Extracted? then ShutdownPersist({}, false) else UpdatePersist({}, false);
      var settling := w.writer.Extracted? || w.writer.Updating?;
      var w1 := if settling then Apply(w, settle) else w;
      var w2 := Apply(w1, Unlock);
      end := ReaderCanUpload(w2, 0, x);
      steps := [Unlock] + LeakByReader(0, x);
      Prepend(w1, Unlock, LeakByReader(0, x), end);
      if settling {
        Prepend(w, settle, steps, end);
        steps := [settle] + steps;
      }
    }
  }

  /** A connecting writer can commit with the item still collected. */
  lemma WriterCanCommit(w: World, x: Item) returns (steps: seq<Step>, end: World)
    requires x in w.aggregator && (w.writer.Extracted? || w.writer.Emptied?) && w.readers == map[]
    requires Connecting(w.writer.purpose, w.claimed)
    ensures IsRun(w, steps) && After(w, steps) == end && x in end.batches
  {
    var finish := ShutdownPersist({}, true);
    var w1 := if w.writer.Extracted? then Apply(w, finish) else w;
    var w2 := Apply(w1, ChangeMode);
    var w3 := Apply(w2, Unlock);
    end := ReaderCanUpload(w3, 0, x);
    steps := [ChangeMode] + ([Unlock] + LeakByReader(0, x));
    Prepend(w2, Unlock, LeakByReader(0, x), end);
    Prepend(w1, ChangeMode, [Unlock] + LeakByReader(0, x), end);
    if w.writer.Extracted? {
      Prepend(w, finish, steps, end);
      steps := [finish] + steps;
    }
  }

  /** The exclusion of slips is exact: after every slip there is a continuation
      that uploads the event of the standalone interval. */
  lemma EverySlipCanLeak(w: World, x: Item) returns (steps: seq<Step>)
    requires Isolated(w, true) && Enabled(w, AddEvent(x)) && Slips(w, AddEvent(x))
    ensures IsRun(w, steps) && steps != [] && steps[0] == AddEvent(x)
    ensures x.origin == Standalone && x in After(w, steps).batches
  {
    var w1 := Apply(w, AddEvent(x));
    StepKeepsIsolation(w, AddEvent(x), false);
    var end;
    if w.mode == Connected {
      steps, end := WriterCanEnd(w1, x);
    } else {
      steps, end := WriterCanCommit(w1, x);
    }
    Prepend(w, AddEvent(x), steps, end);
    steps := [AddEvent(x)] + steps;
  }

  /** An enrollment flushes an empty standalone sensor that has worked out one event. */
  lemma Flushing(id: nat, rest: seq<Step>, end: World) returns (steps: seq<Step>)
    requires
      var w := Enrolling(id);
      IsRun(w, rest) && After(w, rest) == end
    ensures IsRun(Fresh(Standalone, false), steps) && After(Fresh(Standalone, false), steps) == end
  {
    var flush := ShutdownFlush(Enrolment, {});
    var w0 := Fresh(Standalone, false);
    var w1 := Apply(w0, Track(id));
    var w2 := Apply(w1, Lock);
    assert Apply(w2, flush) == Enrolling(id);
    Prepend(w2, flush, rest, end);
    Prepend(w1, Lock, [flush] + rest, end);
    Prepend(w0, Track(id), [Lock] + ([flush] + rest), end);
    steps := [Track(id)] + ([Lock] + ([flush] + rest));
  }

  function Enrolling(id: nat): World {
    World(Standalone, false, {}, {Item(id, Event, Standalone)}, {}, {}, map[], Extracted(Enrolment, {}, true))
  }

  /** Slips are reachable: the guarantee does fail for events, here for one added
      while a standalone sensor enrols. */
  lemma EventsCanCross(id: nat) returns (steps: seq<Step>)
    ensures IsRun(Fresh(Standalone, false), steps)
    ensures Item(id, Event, Standalone) in After(Fresh(Standalone, false), steps).batches
  {
    var rest := EverySlipCanLeak(Enrolling(id), Item(id, Event, Standalone));
    steps := Flushing(id, rest, After(Enrolling(id), rest));
  }

  /** Here for one worked out before the sensor enrols and added only afterwards. */
  lemma LateEventsCanCross(id: nat) returns (steps: seq<Step>)
    ensures IsRun(Fresh(Standalone, false), steps)
    ensures Item(id, Event, Standalone) in After(Fresh(Standalone, false), steps).batches
  {
    var persist := ShutdownPersist({}, true);
    var w1 := Apply(Enrolling(id), persist);
    var w2 := Apply(w1, ChangeMode);
    var rest := EverySlipCanLeak(w2, Item(id, Event, Standalone));
    var end := After(w2, rest);
    Prepend(w1, ChangeMode, rest, end);
    Prepend(Enrolling(id), persist, [ChangeMode] + rest, end);
    steps := Flushing(id, [persist] + ([ChangeMode] + rest), end);
  }

  // ---- the writer's code -------------------------------------------------------

  /** The requests that run under the write lock, with the outcome of each write
      as a parameter. `open` are the samples of the unfinished minute and `early`
      the records with a timestamp before the epoch. Every change of shared state
      is a step of the machine. */
  class Service {
    var mode: Mode
    var claimed: bool
    var aggregator: set<Item>
    var spool: set<Row>
    /** How far the holder of the lock has come. */
    ghost var writer: Writer

    ghost function View(): World
      reads this
    {
      World(mode, claimed, aggregator, {}, spool, {}, map[], writer)
    }

    constructor (mode: Mode, claimed: bool, spool: set<Row>)
      ensures View() == World(mode, claimed, {}, {}, spool, {}, map[], Holding)
    {
      this.mode, this.claimed, this.aggregator, this.spool := mode, claimed, {}, spool;
      writer := Holding;
    }

    /** Shutdown of the aggregator: take everything out, drop the open minute. */
    method Shutdown(ghost purpose: Purpose, open: set<Item>) returns (records: set<Item>)
      requires writer.Holding? && Admitted(purpose, mode, claimed)
      modifies `aggregator, `writer
      ensures records == old(aggregator) - open
      ensures View() == Apply(old(View()), ShutdownFlush(purpose, records))
    {
      records := aggregator - open;
      aggregator := {};
      writer := Extracted(purpose, records, purpose.Enrolment? || mode == Standalone);
    }

    /** persistFlushed: nothing valid to write is a success. */
    method Persist(records: set<Item>, early: set<Item>, localOnly: bool, committed: bool) returns (ok: bool)
      requires writer.Extracted? && writer.hand == records && writer.localOnly == localOnly
      modifies `aggregator, `spool, `writer
      ensures ok == (committed || records - early == {})
      ensures View() == Apply(old(View()), ShutdownPersist(records - early, ok))
    {
      var valid := records - early;
      ok := committed || valid == {};
      if ok {
        spool := spool + set x | x in valid :: Row(x, localOnly);
        writer := Emptied(writer.purpose);
      } else {
        aggregator := valid + aggregator;
        writer := Done;
      }
    }

    /** flushShutdown. */
    method FlushShutdown(ghost purpose: Purpose, open: set<Item>, early: set<Item>, localOnly: bool, committed: bool)
      returns (ok: bool)
      requires writer.Holding? && Admitted(purpose, mode, claimed)
      requires localOnly == (purpose.Enrolment? || mode == Standalone)
      modifies `aggregator, `spool, `writer
      ensures ok == (committed || old(aggregator) - open - early == {})
      ensures View() == Flushed(old(View()), purpose, open, early, ok)
      ensures ok ==> aggregator == {} && spool == old(spool) + Rows(old(aggregator) - open - early, localOnly)
      ensures !ok ==> aggregator == old(aggregator) - open - early && spool == old(spool)
    {
      var records := Shutdown(purpose, open);
      ok := Persist(records, early, localOnly, committed);
    }

    /** The commit of a mode switch or an enrollment: a replaced file changes the
        mode in memory even when the write then reports an error. */
    method Commit(ghost purpose: Purpose, target: Mode, enrolled: bool, renamed: bool)
      requires writer == Emptied(purpose) && CanCommit(purpose, claimed)
      requires target == Target(purpose) && enrolled == purpose.Enrolment?
      modifies `mode, `claimed, `writer
      ensures View() == if renamed then Apply(old(View()), ChangeMode) else old(View())
    {
      if renamed {
        mode, claimed := target, claimed || enrolled;
        writer := Done;
      }
    }

    /** The set_mode request. */
    method SetMode(target: Mode, open: set<Item>, early: set<Item>, committed: bool, renamed: bool, synced: bool)
      returns (ok: bool)
      requires Isolated(View(), false) && writer.Holding?
      modifies `mode, `claimed, `aggregator, `spool, `writer
      ensures
        var w := Flushed(old(View()), Switch(target), open, early, committed || old(aggregator) - open - early == {});
        View() ==
          if target == old(mode) then old(View())
          else if w.writer.Emptied? && CanCommit(Switch(target), old(claimed)) && renamed then Apply(w, ChangeMode)
          else w
      ensures Isolated(View(), false)
      ensures mode != old(mode) ==> mode == target && aggregator == {}
      ensures claimed == old(claimed)
      ensures
        var saved := committed || old(aggregator) - open - early == {};
        var permitted := target == Standalone || (target == Connected && old(claimed));
        mode == target <==> (target == old(mode) || (saved && permitted && renamed))
      ensures ok <==> (mode == target && (target == old(mode) || synced))
      ensures forall row | row in spool - old(spool) ::
        row.item in old(aggregator) && row.localOnly == (old(mode) == Standalone)
      ensures old(spool) <= spool && aggregator <= old(aggregator)
    {
      if target == mode { return true; }
      var flushed := FlushShutdown(Switch(target), open, early, mode == Standalone, committed);
      FlushKeepsIsolation(old(View()), Switch(target), open, early, flushed);
      if !flushed { return false; }
      if target == Setup || (target == Connected && !claimed) { return false; }
      Commit(Switch(target), target, false, renamed);
      return renamed && synced;
    }

    /** The connect request: refused while a credential is held, else it ends the
        local-only interval and then enrols. The credential is checked before the
        lock is taken; no other request brings one meanwhile. */
    method Connect(open: set<Item>, early: set<Item>, committed: bool, renamed: bool, synced: bool)
      returns (ok: bool)
      requires Isolated(View(), false) && writer.Holding?
      modifies this
      ensures
        var w := Flushed(old(View()), Enrolment, open, early, committed || old(aggregator) - open - early == {});
        View() == if w.writer.Emptied? && renamed then Apply(w, ChangeMode) else w
      ensures Isolated(View(), false)
      ensures old(claimed) ==> !ok && View() == old(View())
      ensures ok ==> mode == Connected && claimed && aggregator == {}
      ensures
        var saved := committed || old(aggregator) - open - early == {};
        && (ok <==> (!old(claimed) && saved && renamed && synced))
        && (claimed <==> (old(claimed) || (saved && renamed)))
      ensures mode == if claimed != old(claimed) then Connected else old(mode)
      ensures mode != old(mode) ==> aggregator == {}
      ensures forall row | row in spool - old(spool) :: row.localOnly
    {
      if claimed { return false; }
      var flushed := FlushShutdown(Enrolment, open, early, true, committed);
      FlushKeepsIsolation(old(View()), Enrolment, open, early, flushed);
      if !flushed { return false; }
      Commit(Enrolment, Connected, true, renamed);
      return renamed && synced;
    }
  }

  /** flushShutdown as two steps of the machine. */
  function Flushed(w: World, purpose: Purpose, open: set<Item>, early: set<Item>, ok: bool): World
    requires w.writer.Holding?
  {
    if !Admitted(purpose, w.mode, w.claimed) then w
    else
      var records := w.aggregator - open;
      Apply(Apply(w, ShutdownFlush(purpose, records)), ShutdownPersist(records - early, ok))
  }

  lemma FlushKeepsIsolation(w: World, purpose: Purpose, open: set<Item>, early: set<Item>, ok: bool)
    requires Isolated(w, false) && w.writer.Holding?
    ensures Isolated(Flushed(w, purpose, open, early, ok), false)
  {
    if Admitted(purpose, w.mode, w.claimed) {
      var flush := ShutdownFlush(purpose, w.aggregator - open);
      StepKeepsIsolation(w, flush, false);
      StepKeepsIsolation(Apply(w, flush), ShutdownPersist(w.aggregator - open - early, ok), false);
    }
  }
}
