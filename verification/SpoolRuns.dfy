/** Whole runs of the upload queue: what is true after any sequence of
    transactions, restarts included. */
module SpoolRuns {
  import opened Wrappers
  import opened SpoolTables
  import opened SpoolPrune
  import opened SpoolBatch
  import opened SpoolInvariant

  /** One committed transaction. `Sweep` is the prune a reopened queue runs. */
  datatype Op =
    | Append(records: seq<Record>, localOnly: bool, now: int)
    | Next(batchId: string, appVersion: string, configVersion: int, now: int)
    | Ack(batchId: string, now: int)
    | Sweep(now: int)
    | Clear

  function Step(s: State, op: Op, limits: Limits): State {
    match op
    case Append(records, localOnly, now) => Appended(s, records, localOnly, limits, now)
    case Next(batchId, appVersion, configVersion, now) => Reserved(s, batchId, appVersion, configVersion, now)
    case Ack(batchId, now) => Acknowledged(s, batchId, limits, now)
    case Sweep(now) => Pruned(s, limits, now)
    case Clear => Cleared(s)
  }

  function Run(s: State, ops: seq<Op>, limits: Limits): State {
    if ops == [] then s else Step(Run(s, ops[..|ops| - 1], limits), ops[|ops| - 1], limits)
  }

  lemma StepKeepsValid(s: State, op: Op, limits: Limits)
    requires Valid(s)
    ensures Valid(Step(s, op, limits))
  {
    match op
    case Append(records, localOnly, now) => AppendKeepsValid(s, records, localOnly, limits, now);
    case Next(batchId, appVersion, configVersion, now) =>
      ReserveKeepsValid(s, batchId, appVersion, configVersion, now);
    case Ack(batchId, now) => AckKeepsValid(s, batchId, limits, now);
    case Sweep(now) => PruneKeepsValid(s, limits, now);
    case Clear =>
  }

  lemma {:induction false} RunKeepsValid(s: State, ops: seq<Op>, limits: Limits)
    requires Valid(s)
    ensures Valid(Run(s, ops, limits))
  {
    if ops != [] {
      RunKeepsValid(s, ops[..|ops| - 1], limits);
      StepKeepsValid(Run(s, ops[..|ops| - 1], limits), ops[|ops| - 1], limits);
    }
  }

  // ---- a pending batch is stable --------------------------------------------

  /** The operations that end a reservation: its ack, a clear, or retention. */
  predicate Closes(r: Reservation, op: Op, limits: Limits) {
    match op
    case Append(records, _, now) => records != [] && r.createdAt < now - limits.maxAge
    case Next(_, _, _, _) => false
    case Ack(batchId, _) => batchId == r.batch.batchId
    case Sweep(now) => r.createdAt < now - limits.maxAge
    case Clear => true
  }

  /** The tables once an append's rows are inserted, before the prune. */
  function Extended(s: State, records: seq<Record>, localOnly: bool): State {
    s.(records := s.records + NewRows(records, s.lastId, localOnly), lastId := s.lastId + |records|)
  }

  /** What retention promises of the tables. */
  ghost predicate Retained(s: State, limits: Limits, now: int) {
    var cutoff, held := now - limits.maxAge, Held(s.pending);
    && (forall row | row in s.records :: row.timestamp >= cutoff || row.id in held)
    && (forall row | row in s.history :: row.timestamp >= cutoff)
    && (forall r | r in s.pending :: r.createdAt >= cutoff)
    && (|| SumBytes(s.records) + SumBytes(s.history) <= limits.maxPayloadBytes
        || (s.history == [] && forall row | row in s.records :: row.id in held))
  }

  lemma {:induction false} UnexpiredMembers(pending: seq<Reservation>, cutoff: int)
    ensures forall r | r in Unexpired(pending, cutoff) :: r.createdAt >= cutoff
  {
    if pending != [] {
      UnexpiredMembers(pending[1..], cutoff);
    }
  }

  lemma PruneRetains(s: State, limits: Limits, now: int)
    requires InIdOrder(s.records)
    ensures Retained(Pruned(s, limits, now), limits, now)
  {
    PruneRecords(s, limits, now);
    PruneHistory(s, limits, now);
    PruneFits(s, limits, now);
    UnexpiredMembers(s.pending, now - limits.maxAge);
  }

  /** Every operation that stores records or retires them leaves the tables within
      retention: an append of valid records, an acknowledgement of the pending batch
      and a sweep. */
  lemma WritesRetain(s: State, op: Op, limits: Limits)
    requires Valid(s)
    ensures op.Append? && op.records != [] && (forall i | 0 <= i < |op.records| :: op.records[i].Valid())
      ==> Retained(Step(s, op, limits), limits, op.now)
    ensures op.Ack? && s.pending != [] && s.pending[0].batch.batchId == op.batchId
      ==> Retained(Step(s, op, limits), limits, op.now)
    ensures op.Sweep? ==> Retained(Step(s, op, limits), limits, op.now)
  {
    match op
    case Append(records, localOnly, now) =>
      if records != [] && forall i | 0 <= i < |records| :: records[i].Valid() {
        InsertKeepsValid(s, records, localOnly);
        PruneRetains(Extended(s, records, localOnly), limits, now);
      }
    case Ack(batchId, now) =>
      if s.pending != [] {
        MoveKeepsValid(s);
        PruneRetains(Moved(s), limits, now);
      }
    case Sweep(now) => PruneRetains(s, limits, now);
    case _ =>
  }

  lemma StepKeepsReservation(s: State, op: Op, limits: Limits)
    requires Valid(s) && s.pending != [] && !Closes(s.pending[0], op, limits)
    ensures Step(s, op, limits).pending == s.pending
  {
    match op
    case Append(records, localOnly, now) =>
      if records != [] && forall i | 0 <= i < |records| :: records[i].Valid() {
        InsertKeepsValid(s, records, localOnly);
        PruneKeepsPending(Extended(s, records, localOnly), limits, now);
      }
    case Sweep(now) => PruneKeepsPending(s, limits, now);
    case _ =>
  }

  /** A retry sends the same batch: until an ack, a clear or retention ends the
      reservation, its ids and body never change, and its records stay queued
      and uploadable. */
  lemma {:induction false} RetryIsStable(s: State, ops: seq<Op>, limits: Limits)
    requires Valid(s) && s.pending != []
    requires forall i | 0 <= i < |ops| :: !Closes(s.pending[0], ops[i], limits)
    ensures
      var t := Run(s, ops, limits);
      t.pending == s.pending && Backed(s.pending[0], t.records)
  {
    if ops != [] {
      var init := ops[..|ops| - 1];
      RetryIsStable(s, init, limits);
      RunKeepsValid(s, init, limits);
      StepKeepsReservation(Run(s, init, limits), ops[|ops| - 1], limits);
      StepKeepsValid(Run(s, init, limits), ops[|ops| - 1], limits);
    }
  }

  // ---- the audit trail ------------------------------------------------------

  /** What happened to reservations; `at` is the trail index of the `Took`. */
  datatype Event =
    | Took(ids: seq<nat>, sequence: int)
    | Delivered(at: nat)
    | Expired(at: nat)
    | Wiped

  /** A run with its bookkeeping: the trail, the open reservation, the ids ever
      acknowledged, and the counts since the last clear. */
  datatype Audit = Audit(
    state: State, trail: seq<Event>, open: Option<nat>, delivered: seq<nat>,
    appended: nat, acknowledged: nat)

  const START := Audit(EMPTY, [], None, [], 0, 0)

  function Accepted(op: Op): nat {
    if op.Append? && forall i | 0 <= i < |op.records| :: op.records[i].Valid() then |op.records| else 0
  }

  function AuditStep(a: Audit, op: Op, limits: Limits): Audit {
    var t := Step(a.state, op, limits);
    if op.Clear? then
      Audit(t, a.trail + [Wiped], None, a.delivered, 0, 0)
    else if a.state.pending == [] && t.pending != [] then
      a.(state := t, trail := a.trail + [Took(t.pending[0].ids, t.pending[0].batch.sequence)], open := Some(|a.trail|))
    else if a.state.pending != [] && t.pending == [] && a.open.Some? then
      if op.Ack? then
        a.(state := t, trail := a.trail + [Delivered(a.open.value)], open := None,
           delivered := a.delivered + a.state.pending[0].ids,
           acknowledged := a.acknowledged + |a.state.pending[0].ids|)
      else
        a.(state := t, trail := a.trail + [Expired(a.open.value)], open := None,
           appended := a.appended + Accepted(op))
    else
      a.(state := t, appended := a.appended + Accepted(op))
  }

  function AuditRun(ops: seq<Op>, limits: Limits): Audit {
    if ops == [] then START else AuditStep(AuditRun(ops[..|ops| - 1], limits), ops[|ops| - 1], limits)
  }

  lemma {:induction false} AuditFollowsRun(ops: seq<Op>, limits: Limits)
    ensures AuditRun(ops, limits).state == Run(EMPTY, ops, limits)
  {
    if ops != [] {
      AuditFollowsRun(ops[..|ops| - 1], limits);
    }
  }

  /** How many reservations were taken since the last clear. */
  function TakenSinceWipe(trail: seq<Event>): nat {
    if trail == [] || trail[|trail| - 1].Wiped? then 0
    else TakenSinceWipe(trail[..|trail| - 1]) + (if trail[|trail| - 1].Took? then 1 else 0)
  }

  ghost predicate Queued(s: State, id: nat) {
    exists row :: row in s.records && row.id == id
  }

  ghost predicate ExpiredBefore(trail: seq<Event>, at: nat, end: nat)
    requires end <= |trail|
  {
    exists k :: at < k < end && trail[k] == Expired(at)
  }

  /** Every record appended since the last clear is queued, acknowledged or
      counted as dropped. */
  ghost predicate Conserved(a: Audit) {
    |a.state.records| + a.acknowledged + a.state.dropped == a.appended
  }

  ghost predicate OpenMatches(a: Audit) {
    && (a.open.Some? <==> a.state.pending != [])
    && (a.open.Some? ==>
          && a.open.value < |a.trail| && a.trail[a.open.value].Took?
          && a.trail[a.open.value].ids == a.state.pending[0].ids)
  }

  /** A record once reserved is gone, in the open batch, or its batch expired. */
  ghost predicate Accounted(a: Audit, i: nat, id: nat) {
    && id <= a.state.lastId
    && (!Queued(a.state, id) || a.open == Some(i) || ExpiredBefore(a.trail, i, |a.trail|))
  }

  ghost predicate TakenAccounted(a: Audit) {
    forall i, id | 0 <= i < |a.trail| && a.trail[i].Took? && id in a.trail[i].ids :: Accounted(a, i, id)
  }

  /** A record appears under two batches only if the first one expired. */
  ghost predicate NeverTwice(trail: seq<Event>) {
    forall i, j, id | 0 <= i < j < |trail| && trail[i].Took? && trail[j].Took?
      && id in trail[i].ids && id in trail[j].ids :: ExpiredBefore(trail, i, j)
  }

  /** Sequence numbers count up from one since the last clear, without gaps. */
  ghost predicate Gapless(trail: seq<Event>) {
    forall i | 0 <= i < |trail| && trail[i].Took? :: trail[i].sequence == 1 + TakenSinceWipe(trail[..i])
  }

  /** No id is acknowledged twice, and none acknowledged is queued again. */
  ghost predicate DeliveredOnce(a: Audit) {
    && (forall i, j | 0 <= i < j < |a.delivered| :: a.delivered[i] != a.delivered[j])
    && (forall id | id in a.delivered :: id <= a.state.lastId && !Queued(a.state, id))
  }

  ghost predicate Sound(a: Audit) {
    && Valid(a.state)
    && Conserved(a)
    && OpenMatches(a)
    && TakenAccounted(a)
    && NeverTwice(a.trail)
    && Gapless(a.trail)
    && a.state.nextSeq == 1 + TakenSinceWipe(a.trail)
    && DeliveredOnce(a)
  }

  // ---- one step keeps the audit sound ---------------------------------------

  lemma ExtendedIds(s: State, records: seq<Record>, localOnly: bool)
    ensures forall row | row in Extended(s, records, localOnly).records :: row in s.records || row.id > s.lastId
  {
    NewRowsAre(records, s.lastId, localOnly);
  }

  lemma AppendIds(s: State, records: seq<Record>, localOnly: bool, limits: Limits, now: int)
    requires Valid(s) && forall i | 0 <= i < |records| :: records[i].Valid()
    ensures forall row | row in Pruned(Extended(s, records, localOnly), limits, now).records ::
      row in s.records || row.id > s.lastId
  {
    ExtendedIds(s, records, localOnly);
    InsertKeepsRecords(s, records, localOnly);
    PruneRecords(Extended(s, records, localOnly), limits, now);
  }

  /** What every operation does to the records: it keeps old ids, and each new
      id is above the old high-water mark. */
  lemma StepIds(s: State, op: Op, limits: Limits)
    requires Valid(s)
    ensures
      var t := Step(s, op, limits);
      && t.lastId >= s.lastId
      && (forall row | row in t.records :: row in s.records || row.id > s.lastId)
  {
    match op
    case Append(records, localOnly, now) =>
      if records != [] && forall i | 0 <= i < |records| :: records[i].Valid() {
        AppendIds(s, records, localOnly, limits, now);
      }
    case Ack(batchId, now) =>
      if s.pending != [] && s.pending[0].batch.batchId == batchId {
        MoveKeepsValid(s);
        PruneRecords(Moved(s), limits, now);
        WithoutMembers(s.records, ToSet(s.pending[0].ids));
      }
    case Sweep(now) => PruneRecords(s, limits, now);
    case _ =>
  }

  lemma PruneCounts(s: State, limits: Limits, now: int)
    requires InIdOrder(s.records)
    ensures
      var t := Pruned(s, limits, now);
      |t.records| + t.dropped == |s.records| + s.dropped
  {
    PruneRecords(s, limits, now);
  }

  lemma AppendCounts(s: State, records: seq<Record>, localOnly: bool, limits: Limits, now: int)
    requires Valid(s) && forall i | 0 <= i < |records| :: records[i].Valid()
    ensures
      var t := Appended(s, records, localOnly, limits, now);
      |t.records| + t.dropped == |s.records| + s.dropped + |records|
  {
    InsertKeepsRecords(s, records, localOnly);
    NewRowsAre(records, s.lastId, localOnly);
    PruneCounts(Extended(s, records, localOnly), limits, now);
  }

  lemma AckCounts(s: State, batchId: string, limits: Limits, now: int)
    requires Valid(s) && s.pending != [] && s.pending[0].batch.batchId == batchId
    ensures
      var t := Acknowledged(s, batchId, limits, now);
      |t.records| + t.dropped + |s.pending[0].ids| == |s.records| + s.dropped
  {
    MoveKeepsValid(s);
    PruneCounts(Moved(s), limits, now);
    var ids := ToSet(s.pending[0].ids);
    WithoutSplit(s.records, ids);
    IdsAt(Among(s.records, ids));
  }

  /** The count of records one operation adds, removes or delivers. */
  lemma StepCounts(s: State, op: Op, limits: Limits)
    requires Valid(s) && !op.Clear?
    ensures
      var t := Step(s, op, limits);
      var delivers := op.Ack? && s.pending != [] && op.batchId == s.pending[0].batch.batchId;
      |t.records| + t.dropped + (if delivers then |s.pending[0].ids| else 0)
        == |s.records| + s.dropped + Accepted(op)
  {
    match op
    case Append(records, localOnly, now) =>
      if records != [] && forall i | 0 <= i < |records| :: records[i].Valid() {
        AppendCounts(s, records, localOnly, limits, now);
      }
    case Ack(batchId, now) =>
      if s.pending != [] && s.pending[0].batch.batchId == batchId {
        AckCounts(s, batchId, limits, now);
      }
    case Sweep(now) => PruneCounts(s, limits, now);
    case _ =>
  }

  lemma AppendPending(s: State, records: seq<Record>, localOnly: bool, limits: Limits, now: int)
    requires Valid(s)
    ensures
      var t := Appended(s, records, localOnly, limits, now);
      (t.pending == s.pending || t.pending == []) && t.nextSeq == s.nextSeq
  {
    if records != [] && forall i | 0 <= i < |records| :: records[i].Valid() {
      InsertKeepsValid(s, records, localOnly);
      PruneKeepsPending(Extended(s, records, localOnly), limits, now);
    }
  }

  lemma AckPending(s: State, batchId: string, limits: Limits, now: int)
    requires Valid(s)
    ensures
      var t := Acknowledged(s, batchId, limits, now);
      && (t.pending == s.pending || (t.pending == [] && s.pending[0].batch.batchId == batchId))
      && t.nextSeq == s.nextSeq
  {
    if s.pending != [] && s.pending[0].batch.batchId == batchId {
      MoveKeepsValid(s);
      PruneKeepsPending(Moved(s), limits, now);
    }
  }

  /** How the reservation may change in one operation. */
  lemma StepPending(s: State, op: Op, limits: Limits)
    requires Valid(s)
    ensures
      var t := Step(s, op, limits);
      && (s.pending != [] && t.pending != [] ==> t.pending == s.pending)
      && (s.pending == [] && t.pending != [] ==>
          op.Next? && t.records == s.records && t.nextSeq == s.nextSeq + 1
          && t.pending[0].batch.sequence == s.nextSeq
          && forall id | id in t.pending[0].ids :: Queued(s, id))
      && (s.pending != [] && t.pending == [] && op.Ack? ==> op.batchId == s.pending[0].batch.batchId)
      && (op.Clear? ==> t.nextSeq == 1)
      && (!op.Clear? && !(s.pending == [] && t.pending != []) ==> t.nextSeq == s.nextSeq)
  {
    var t := Step(s, op, limits);
    match op
    case Append(records, localOnly, now) => AppendPending(s, records, localOnly, limits, now);
    case Next(_, _, _, _) =>
      StepKeepsValid(s, op, limits);
      if t.pending != [] {
        BackedIdsAreQueued(t.pending[0], t.records);
      }
    case Ack(batchId, now) => AckPending(s, batchId, limits, now);
    case Sweep(now) => PruneKeepsPending(s, limits, now);
    case Clear =>
  }

  /** Acknowledged ids leave the queue. */
  lemma AckRemoves(s: State, op: Op, limits: Limits)
    requires Valid(s) && op.Ack? && s.pending != [] && op.batchId == s.pending[0].batch.batchId
    ensures forall id | id in s.pending[0].ids :: !Queued(Step(s, op, limits), id) && Queued(s, id) && id <= s.lastId
  {
    MoveKeepsValid(s);
    PruneRecords(Moved(s), limits, op.now);
    WithoutMembers(s.records, ToSet(s.pending[0].ids));
    BackedIdsAreQueued(s.pending[0], s.records);
  }

  lemma StepKeepsConserved(a: Audit, op: Op, limits: Limits)
    requires Sound(a)
    ensures Conserved(AuditStep(a, op, limits))
  {
    if !op.Clear? {
      StepCounts(a.state, op, limits);
      StepPending(a.state, op, limits);
      if op.Ack? && a.state.pending != [] && op.batchId == a.state.pending[0].batch.batchId {
        MoveKeepsValid(a.state);
        PruneKeepsPending(Moved(a.state), limits, op.now);
      }
    }
  }

  lemma StepKeepsOpen(a: Audit, op: Op, limits: Limits)
    requires Sound(a)
    ensures OpenMatches(AuditStep(a, op, limits))
  {
    StepPending(a.state, op, limits);
  }

  lemma StepKeepsTaken(a: Audit, op: Op, limits: Limits)
    requires Sound(a)
    ensures TakenAccounted(AuditStep(a, op, limits))
  {
    var b := AuditStep(a, op, limits);
    forall i, id | 0 <= i < |b.trail| && b.trail[i].Took? && id in b.trail[i].ids
      ensures Accounted(b, i, id)
    {
      if i < |a.trail| {
        assert a.trail[i] == b.trail[i];
        StepKeepsAccount(a, op, limits, i, id);
      } else {
        StepPending(a.state, op, limits);
        assert Queued(a.state, id);
      }
    }
  }

  lemma StepKeepsNeverTwice(a: Audit, op: Op, limits: Limits)
    requires Sound(a)
    ensures NeverTwice(AuditStep(a, op, limits).trail)
  {
    var b := AuditStep(a, op, limits);
    forall i, j, id | 0 <= i < j < |b.trail| && b.trail[i].Took? && b.trail[j].Took?
      && id in b.trail[i].ids && id in b.trail[j].ids
      ensures ExpiredBefore(b.trail, i, j)
    {
      assert a.trail[i] == b.trail[i];
      if j < |a.trail| {
        assert a.trail[j] == b.trail[j];
        assert ExpiredBefore(a.trail, i, j);
      } else {
        StepPending(a.state, op, limits);
        assert Queued(a.state, id);
        assert ExpiredBefore(a.trail, i, |a.trail|);
      }
      var k :| i < k < j && a.trail[k] == Expired(i);
      assert b.trail[k] == Expired(i);
    }
  }

  lemma StepKeepsAccount(a: Audit, op: Op, limits: Limits, i: nat, id: nat)
    requires Sound(a) && i < |a.trail| && a.trail[i].Took? && id in a.trail[i].ids
    ensures Accounted(AuditStep(a, op, limits), i, id)
  {
    var b := AuditStep(a, op, limits);
    StepIds(a.state, op, limits);
    StepPending(a.state, op, limits);
    assert Accounted(a, i, id);
    if ExpiredBefore(a.trail, i, |a.trail|) {
      var k :| i < k < |a.trail| && a.trail[k] == Expired(i);
      assert b.trail[k] == Expired(i);
    } else if !Queued(a.state, id) {
      assert !Queued(b.state, id);
    } else if b.open != Some(i) && op.Ack? && a.state.pending != [] && b.state.pending == [] {
      AckRemoves(a.state, op, limits);
    } else if b.open != Some(i) && !op.Clear? {
      assert b.trail[|a.trail|] == Expired(i);
    }
  }

  lemma GaplessExtends(trail: seq<Event>, event: Event)
    requires Gapless(trail)
    requires event.Took? ==> event.sequence == 1 + TakenSinceWipe(trail)
    ensures Gapless(trail + [event])
    ensures TakenSinceWipe(trail + [event])
      == if event.Wiped? then 0 else TakenSinceWipe(trail) + (if event.Took? then 1 else 0)
  {
    var longer := trail + [event];
    assert longer[..|trail|] == trail;
    forall i | 0 <= i < |longer| && longer[i].Took?
      ensures longer[i].sequence == 1 + TakenSinceWipe(longer[..i])
    {
      if i < |trail| {
        assert longer[..i] == trail[..i];
      }
    }
  }

  lemma StepKeepsSequence(a: Audit, op: Op, limits: Limits)
    requires Sound(a)
    ensures
      var b := AuditStep(a, op, limits);
      Gapless(b.trail) && b.state.nextSeq == 1 + TakenSinceWipe(b.trail)
  {
    var b := AuditStep(a, op, limits);
    StepPending(a.state, op, limits);
    if |b.trail| > |a.trail| {
      GaplessExtends(a.trail, b.trail[|a.trail|]);
    }
  }

  lemma StepKeepsDelivered(a: Audit, op: Op, limits: Limits)
    requires Sound(a)
    ensures DeliveredOnce(AuditStep(a, op, limits))
  {
    var b := AuditStep(a, op, limits);
    StepIds(a.state, op, limits);
    StepPending(a.state, op, limits);
    forall id | id in a.delivered ensures id <= b.state.lastId && !Queued(b.state, id) {
      assert !Queued(a.state, id);
    }
    if op.Ack? && a.state.pending != [] && b.state.pending == [] {
      AckRemoves(a.state, op, limits);
      forall i, j | 0 <= i < j < |b.delivered| ensures b.delivered[i] != b.delivered[j] {
        if i < |a.delivered| <= j {
          assert a.delivered[i] in a.delivered;
          assert b.delivered[j] in a.state.pending[0].ids;
        }
      }
    }
  }

  /** Every run of the queue: nothing is lost uncounted, nothing is delivered
      twice, a record changes batch only after its batch expired, and batches
      are numbered without gaps. */
  lemma {:induction false} EveryRunIsSound(ops: seq<Op>, limits: Limits)
    ensures
      var a := AuditRun(ops, limits);
      && Sound(a)
      && |a.state.records| + a.acknowledged + a.state.dropped == a.appended
      && |a.state.pending| <= 1
  {
    if ops == [] {
      assert Sound(START);
    } else {
      var init, op := ops[..|ops| - 1], ops[|ops| - 1];
      EveryRunIsSound(init, limits);
      var a := AuditRun(init, limits);
      StepKeepsValid(a.state, op, limits);
      StepKeepsConserved(a, op, limits);
      StepKeepsOpen(a, op, limits);
      StepKeepsTaken(a, op, limits);
      StepKeepsNeverTwice(a, op, limits);
      StepKeepsSequence(a, op, limits);
      StepKeepsDelivered(a, op, limits);
    }
  }
}
