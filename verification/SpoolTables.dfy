/** The tables of the durable upload queue and the queries it runs on them
    (internal/spool/spool.go). A table is a sequence of rows in id order. */
module SpoolTables {
  import opened Wrappers

  datatype Kind = MinuteMetric | DNSCheck | HTTPCheck | LinkContext | SpeedTest | Event | Unknown(name: string)

  const KINDS: set<Kind> := {MinuteMetric, DNSCheck, HTTPCheck, LinkContext, SpeedTest, Event}
  const MAX_BATCH_RECORDS: nat := 200
  const CANDIDATE_LIMIT: nat := 400
  const PRUNE_BLOCK: nat := 128

  /** How many records of one kind a single batch may carry. */
  function KindCap(kind: Kind): nat {
    match kind
    case SpeedTest => 8
    case Event => 100
    case Unknown(_) => 0
    case _ => 60
  }

  /** A record as a producer hands it over. */
  datatype Record = Record(kind: Kind, timestamp: int, payload: string) {
    predicate Valid() {
      !kind.Unknown? && timestamp > 0 && payload != ""
    }
  }

  /** A stored row. In the history table `id` is the source id of the record. */
  datatype Row = Row(id: nat, kind: Kind, timestamp: int, payload: string, localOnly: bool)

  type Rows = seq<Row>

  datatype Batch = Batch(
    batchId: string, sequence: int, sensorClock: int, appVersion: string, configVersion: int,
    content: map<Kind, seq<string>>)

  datatype Reservation = Reservation(batch: Batch, ids: seq<nat>, createdAt: int)

  /** The whole database. `lastId` is the AUTOINCREMENT high-water mark, which
      deleting rows never lowers. */
  datatype State = State(
    records: Rows, pending: seq<Reservation>, history: Rows,
    lastId: nat, nextSeq: int, dropped: int)

  datatype Limits = Limits(maxPayloadBytes: int, maxAge: int)

  const EMPTY := State([], [], [], 0, 1, 0)

  // ---- queries -------------------------------------------------------------

  function SumBytes(rows: Rows): nat {
    if rows == [] then 0 else |rows[0].payload| + SumBytes(rows[1..])
  }

  function Ids(rows: Rows): seq<nat> {
    if rows == [] then [] else [rows[0].id] + Ids(rows[1..])
  }

  function Payloads(rows: Rows): seq<string> {
    if rows == [] then [] else [rows[0].payload] + Payloads(rows[1..])
  }

  function Uploadable(rows: Rows): Rows {
    if rows == [] then []
    else if rows[0].localOnly then Uploadable(rows[1..])
    else [rows[0]] + Uploadable(rows[1..])
  }

  function OfKind(rows: Rows, kind: Kind): Rows {
    if rows == [] then []
    else if rows[0].kind == kind then [rows[0]] + OfKind(rows[1..], kind)
    else OfKind(rows[1..], kind)
  }

  function Unreserved(rows: Rows, held: set<nat>): Rows {
    if rows == [] then []
    else if rows[0].id in held then Unreserved(rows[1..], held)
    else [rows[0]] + Unreserved(rows[1..], held)
  }

  /** The rows whose id is not in `ids`: DELETE ... WHERE id IN (ids). */
  function Without(rows: Rows, ids: set<nat>): Rows {
    if rows == [] then []
    else if rows[0].id in ids then Without(rows[1..], ids)
    else [rows[0]] + Without(rows[1..], ids)
  }

  /** The rows whose id is in `ids`: SELECT ... WHERE id IN (ids). */
  function Among(rows: Rows, ids: set<nat>): Rows {
    if rows == [] then []
    else if rows[0].id in ids then [rows[0]] + Among(rows[1..], ids)
    else Among(rows[1..], ids)
  }

  /** What an age sweep leaves: recent rows and rows held by a reservation. */
  function Recent(rows: Rows, cutoff: int, held: set<nat>): Rows {
    if rows == [] then []
    else if rows[0].timestamp < cutoff && rows[0].id !in held then Recent(rows[1..], cutoff, held)
    else [rows[0]] + Recent(rows[1..], cutoff, held)
  }

  function Unexpired(pending: seq<Reservation>, cutoff: int): seq<Reservation> {
    if pending == [] then []
    else if pending[0].createdAt < cutoff then Unexpired(pending[1..], cutoff)
    else [pending[0]] + Unexpired(pending[1..], cutoff)
  }

  function ToSet(ids: seq<nat>): set<nat> {
    set id | id in ids
  }

  /** The record ids some reservation still holds. */
  function Held(pending: seq<Reservation>): set<nat> {
    set r, id | r in pending && id in r.ids :: id
  }

  ghost predicate Increasing(ids: seq<nat>) {
    forall i, j | 0 <= i < j < |ids| :: ids[i] < ids[j]
  }

  ghost predicate InIdOrder(rows: Rows) {
    forall i, j | 0 <= i < j < |rows| :: rows[i].id < rows[j].id
  }

  ghost predicate Distinct(rows: Rows) {
    forall i, j | 0 <= i < j < |rows| :: rows[i].id != rows[j].id
  }

  // ---- the simple rules the queue promises ---------------------------------

  /** Drop unreserved rows one at a time, oldest first, until `excess` payload
      bytes are gone. */
  function DropOldest(rows: Rows, held: set<nat>, excess: int): Rows {
    if rows == [] || excess <= 0 then rows
    else if rows[0].id in held then [rows[0]] + DropOldest(rows[1..], held, excess)
    else DropOldest(rows[1..], held, excess - |rows[0].payload|)
  }

  /** Drop whole blocks of the oldest history until `base` plus what is left
      fits the cap. */
  function TrimHistory(history: Rows, base: int, cap: int): Rows
    decreases |history|
  {
    if base + SumBytes(history) <= cap || history == [] then history
    else TrimHistory(if |history| <= PRUNE_BLOCK then [] else history[PRUNE_BLOCK..], base, cap)
  }

  /** The records of a batch: the candidates in id order, skipping a kind that
      reached its cap, stopping at the batch total. */
  function Packed(rows: Rows): Rows {
    if rows == [] then []
    else
      var before := Packed(rows[..|rows| - 1]);
      var row := rows[|rows| - 1];
      if |before| < MAX_BATCH_RECORDS && |OfKind(before, row.kind)| < KindCap(row.kind)
      then before + [row] else before
  }

  function Candidates(records: Rows): Rows {
    var rows := Uploadable(records);
    if |rows| <= CANDIDATE_LIMIT then rows else rows[..CANDIDATE_LIMIT]
  }

  function Content(rows: Rows): map<Kind, seq<string>> {
    map kind | kind in KINDS :: Payloads(OfKind(rows, kind))
  }

  function NewRows(records: seq<Record>, lastId: nat, localOnly: bool): Rows {
    if records == [] then []
    else
      [Row(lastId + 1, records[0].kind, records[0].timestamp, records[0].payload, localOnly)]
      + NewRows(records[1..], lastId + 1, localOnly)
  }

  // ---- the transactions ----------------------------------------------------

  function Pruned(s: State, limits: Limits, now: int): State {
    var cutoff := now - limits.maxAge;
    var pending := Unexpired(s.pending, cutoff);
    var held := Held(pending);
    var aged := Recent(s.records, cutoff, held);
    var history := TrimHistory(Recent(s.history, cutoff, {}), SumBytes(aged), limits.maxPayloadBytes);
    var records := DropOldest(aged, held, SumBytes(aged) + SumBytes(history) - limits.maxPayloadBytes);
    s.(records := records, pending := pending, history := history,
       dropped := s.dropped + |s.records| - |records|)
  }

  /** One append transaction; an invalid record rolls the whole of it back. */
  function Appended(s: State, records: seq<Record>, localOnly: bool, limits: Limits, now: int): State {
    if records == [] || exists i :: 0 <= i < |records| && !records[i].Valid() then s
    else
      Pruned(s.(records := s.records + NewRows(records, s.lastId, localOnly),
                lastId := s.lastId + |records|), limits, now)
  }

  function Reservable(s: State): Rows {
    Packed(Candidates(s.records))
  }

  function NewReservation(s: State, batchId: string, appVersion: string, configVersion: int, now: int): Reservation {
    var rows := Reservable(s);
    Reservation(Batch(batchId, s.nextSeq, now, appVersion, configVersion, Content(rows)), Ids(rows), now)
  }

  function Reserved(s: State, batchId: string, appVersion: string, configVersion: int, now: int): State {
    if s.pending != [] || Reservable(s) == [] then s
    else s.(pending := [NewReservation(s, batchId, appVersion, configVersion, now)], nextSeq := s.nextSeq + 1)
  }

  /** INSERT OR IGNORE: a row whose source id is already present is skipped. */
  function InsertOrIgnore(history: Rows, rows: Rows): Rows
    decreases |rows|
  {
    if rows == [] then history
    else
      var taken := exists i :: 0 <= i < |history| && history[i].id == rows[0].id;
      InsertOrIgnore(if taken then history else history + [rows[0]], rows[1..])
  }

  function Acknowledged(s: State, batchId: string, limits: Limits, now: int): State {
    if s.pending == [] || s.pending[0].batch.batchId != batchId then s
    else
      var ids := ToSet(s.pending[0].ids);
      Pruned(s.(records := Without(s.records, ids), history := s.history + Among(s.records, ids),
                pending := s.pending[1..]), limits, now)
  }

  function Cleared(s: State): State {
    State([], [], [], s.lastId, 1, 0)
  }

  // ---- the invariant every transaction keeps -------------------------------

  /** A reservation whose rows are still queued, still uploadable, and exactly
      what its body carries. */
  ghost predicate Backed(r: Reservation, records: Rows) {
    && 1 <= |r.ids| <= MAX_BATCH_RECORDS
    && Increasing(r.ids)
    && Ids(Among(records, ToSet(r.ids))) == r.ids
    && (forall row | row in Among(records, ToSet(r.ids)) :: !row.localOnly)
    && r.batch.content == Content(Among(records, ToSet(r.ids)))
  }

  ghost predicate ValidRecords(records: Rows, lastId: nat) {
    && InIdOrder(records)
    && (forall row | row in records :: row.id <= lastId && !row.kind.Unknown?)
  }

  /** History remembers each source id once, and never one still queued. */
  ghost predicate ValidHistory(history: Rows, records: Rows, lastId: nat) {
    && Distinct(history)
    && (forall past | past in history :: past.id <= lastId)
    && (forall past, row | past in history && row in records :: past.id != row.id)
  }

  ghost predicate Valid(s: State) {
    && ValidRecords(s.records, s.lastId)
    && ValidHistory(s.history, s.records, s.lastId)
    && |s.pending| <= 1
    && (s.pending != [] ==> Backed(s.pending[0], s.records) && s.pending[0].batch.sequence == s.nextSeq - 1)
    && s.nextSeq >= 1
    && s.dropped >= 0
  }
}
