/** Draining the queue: repeated NextBatch and Ack terminates, empties the
    uploadable queue, and delivers each kind in id order. */
module SpoolDrain {
  import opened SpoolTables
  import opened SpoolPrune
  import opened SpoolBatch
  import opened SpoolInvariant

  lemma {:induction false} OfKindMembers(rows: Rows, kind: Kind)
    ensures forall row :: row in OfKind(rows, kind) <==> row in rows && row.kind == kind
    ensures InIdOrder(rows) ==> InIdOrder(OfKind(rows, kind))
  {
    if rows != [] {
      OfKindMembers(rows[1..], kind);
    }
  }

  /** One round: reserve the next batch and acknowledge it. */
  function Round(s: State, limits: Limits, batchId: string, now: int): State {
    Acknowledged(Reserved(s, batchId, "", 0, now), batchId, limits, now)
  }

  /** A round leaves nothing pending, uses one sequence number, removes its rows
      and keeps no uploadable row that was not there before. */
  lemma RoundEffect(s: State, limits: Limits, batchId: string, now: int)
    requires Valid(s) && s.pending == [] && Uploadable(s.records) != []
    ensures
      var t := Round(s, limits, batchId, now);
      && Valid(t) && t.pending == [] && t.nextSeq == s.nextSeq + 1
      && |t.records| < |s.records|
      && (forall row | row in Uploadable(t.records) :: row in Uploadable(s.records) && row !in Reservable(s))
  {
    ReservationTakesPrefixes(s, Event);
    ReserveKeepsValid(s, batchId, "", 0, now);
    ReservationIsBacked(s, batchId, "", 0, now);
    var r := Reserved(s, batchId, "", 0, now);
    var rows := Reservable(s);
    MoveKeepsValid(r);
    PruneKeepsValid(Moved(r), limits, now);
    PruneKeepsPending(Moved(r), limits, now);
    PruneRecords(Moved(r), limits, now);
    WithoutSplit(s.records, ToSet(Ids(rows)));
    var t := Round(s, limits, batchId, now);
    forall row | row in Uploadable(t.records) ensures row in Uploadable(s.records) && row !in rows {
      LeftoverIsNotTaken(s, t, rows, row);
    }
  }

  lemma LeftoverIsNotTaken(s: State, t: State, rows: Rows, row: Row)
    requires rows == Reservable(s) && row in Uploadable(t.records)
    requires forall left | left in t.records :: left in Without(s.records, ToSet(Ids(rows)))
    ensures row in Uploadable(s.records) && row !in rows
  {
    UploadableMembers(t.records);
    UploadableMembers(s.records);
    WithoutMembers(s.records, ToSet(Ids(rows)));
    IdsAt(rows);
    forall taken | taken in rows ensures taken.id in ToSet(Ids(rows)) {
      var i :| 0 <= i < |rows| && rows[i] == taken;
      assert Ids(rows)[i] == taken.id;
    }
  }

  /** What a round takes of a kind precedes whatever of it stays uploadable. */
  lemma TakenBeforeLeft(s: State, taken: Row, left: Row)
    requires Valid(s)
    requires taken in Reservable(s) && left in Uploadable(s.records) && left !in Reservable(s)
    requires taken.kind == left.kind
    ensures taken.id < left.id
  {
    var kind, rows, queue := taken.kind, Reservable(s), Uploadable(s.records);
    ReservationTakesPrefixes(s, kind);
    UploadableMembers(s.records);
    OfKindMembers(rows, kind);
    OfKindMembers(queue, kind);
    var i :| 0 <= i < |OfKind(rows, kind)| && OfKind(rows, kind)[i] == taken;
    var j :| 0 <= j < |OfKind(queue, kind)| && OfKind(queue, kind)[j] == left;
    assert OfKind(queue, kind)[i] == taken;
    forall k | 0 <= k < |OfKind(rows, kind)| ensures OfKind(queue, kind)[k] in rows {
      assert OfKind(rows, kind)[k] in OfKind(rows, kind);
    }
  }

  /** Run rounds until nothing is uploadable. The clock and the batch ids are
      arbitrary; the result lists what each round delivered. */
  ghost function Drain(s: State, limits: Limits, clock: nat -> int, names: nat -> string, round: nat)
    : (seq<Rows>, State)
    requires Valid(s) && s.pending == []
    decreases |s.records|
  {
    if Uploadable(s.records) == [] then ([], s)
    else
      RoundEffect(s, limits, names(round), clock(round));
      var (later, end) := Drain(Round(s, limits, names(round), clock(round)), limits, clock, names, round + 1);
      ([Reservable(s)] + later, end)
  }

  /** Every delivered row was uploadable to begin with. */
  ghost predicate FromQueue(batches: seq<Rows>, queue: Rows) {
    forall b, row | 0 <= b < |batches| && row in batches[b] :: row in queue
  }

  /** Across batches, each kind is delivered in strictly increasing id order. */
  ghost predicate InKindOrder(batches: seq<Rows>) {
    forall b, c, x: Row, y: Row | 0 <= b < c < |batches| && x in batches[b] && y in batches[c] && x.kind == y.kind ::
      x.id < y.id
  }

  /** Within a batch all records are in id order. */
  ghost predicate EachInOrder(batches: seq<Rows>) {
    forall b | 0 <= b < |batches| :: InIdOrder(batches[b])
  }

  ghost predicate Precedes(first: Rows, rest: Rows) {
    forall x: Row, y: Row | x in first && y in rest && x.kind == y.kind :: x.id < y.id
  }

  lemma RoundSeparates(s: State, limits: Limits, batchId: string, now: int)
    requires Valid(s) && s.pending == [] && Uploadable(s.records) != []
    ensures Precedes(Reservable(s), Uploadable(Round(s, limits, batchId, now).records))
    ensures InIdOrder(Reservable(s)) && forall row | row in Reservable(s) :: row in Uploadable(s.records)
  {
    CandidatesAreUploadable(s.records);
    PackedMembers(Candidates(s.records));
    UploadableMembers(s.records);
    var left := Uploadable(Round(s, limits, batchId, now).records);
    forall x: Row, y: Row | x in Reservable(s) && y in left && x.kind == y.kind ensures x.id < y.id {
      RoundEffect(s, limits, batchId, now);
      TakenBeforeLeft(s, x, y);
    }
  }

  lemma PrependKeepsKindOrder(first: Rows, later: seq<Rows>, rest: Rows)
    requires InKindOrder(later) && FromQueue(later, rest) && Precedes(first, rest)
    ensures InKindOrder([first] + later)
  {
    var batches := [first] + later;
    assert forall b | 0 < b < |batches| :: batches[b] == later[b - 1];
  }

  lemma PrependKeepsOrder(first: Rows, later: seq<Rows>, rest: Rows, queue: Rows)
    requires InKindOrder(later) && FromQueue(later, rest) && Precedes(first, rest)
    requires InIdOrder(first) && EachInOrder(later)
    requires forall row | row in first || row in rest :: row in queue
    ensures InKindOrder([first] + later) && FromQueue([first] + later, queue) && EachInOrder([first] + later)
  {
    PrependKeepsKindOrder(first, later, rest);
    var batches := [first] + later;
    forall b | 0 <= b < |batches| ensures InIdOrder(batches[b]) && forall row | row in batches[b] :: row in queue {
      assert b > 0 ==> batches[b] == later[b - 1];
    }
  }

  /** Draining ends, empties the uploadable queue under consecutive sequence
      numbers, and delivers each kind in strictly increasing id order. */
  lemma {:induction false} DrainDeliversInOrder(
    s: State, limits: Limits, clock: nat -> int, names: nat -> string, round: nat)
    requires Valid(s) && s.pending == []
    ensures
      var (batches, end) := Drain(s, limits, clock, names, round);
      && Uploadable(end.records) == []
      && end.nextSeq == s.nextSeq + |batches|
      && FromQueue(batches, Uploadable(s.records))
      && InKindOrder(batches) && EachInOrder(batches)
    decreases |s.records|
  {
    if Uploadable(s.records) != [] {
      RoundEffect(s, limits, names(round), clock(round));
      var t := Round(s, limits, names(round), clock(round));
      DrainDeliversInOrder(t, limits, clock, names, round + 1);
      var (later, end) := Drain(t, limits, clock, names, round + 1);
      RoundSeparates(s, limits, names(round), clock(round));
      PrependKeepsOrder(Reservable(s), later, Uploadable(t.records), Uploadable(s.records));
    }
  }
}
