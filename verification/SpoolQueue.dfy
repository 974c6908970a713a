/** The durable upload queue. Each method is one database transaction; a
    transaction that fails leaves every table as it was. */
module SpoolQueue {
  import opened Wrappers
  import T = SpoolTables
  import opened SpoolTables
  import opened SpoolPrune
  import opened SpoolBatch
  import opened SpoolInvariant

  /** addRecord: put one record into the batch being filled, unless its kind is
      full. */
  function AddRecord(content: map<Kind, seq<string>>, kind: Kind, payload: string): (map<Kind, seq<string>>, bool)
  {
    if kind in content && |content[kind]| < KindCap(kind)
    then (content[kind := content[kind] + [payload]], true)
    else (content, false)
  }

  ghost predicate KnownKinds(rows: Rows) {
    forall row | row in rows :: !row.kind.Unknown?
  }

  /** One candidate: it joins the batch unless its kind is full. */
  method FillOne(ghost picked: Rows, content: map<Kind, seq<string>>, ids: seq<nat>, row: Row)
    returns (filled: map<Kind, seq<string>>, taken: seq<nat>, ghost more: Rows)
    requires !row.kind.Unknown? && content == Content(picked) && ids == Ids(picked)
    ensures more == if |OfKind(picked, row.kind)| < KindCap(row.kind) then picked + [row] else picked
    ensures filled == Content(more) && taken == Ids(more)
  {
    PayloadCount(OfKind(picked, row.kind));
    var (added, included) := AddRecord(content, row.kind, row.payload);
    filled, taken, more := content, ids, picked;
    if included {
      AddExtendsContent(picked, row);
      IdsAppend(picked, [row]);
      filled, taken, more := added, ids + [row.id], picked + [row];
    }
  }

  lemma PackedNext(rows: Rows, index: nat)
    requires index < |rows| && |Packed(rows[..index])| < MAX_BATCH_RECORDS
    ensures
      var before, row := Packed(rows[..index]), rows[index];
      Packed(rows[..index + 1]) == if |OfKind(before, row.kind)| < KindCap(row.kind) then before + [row] else before
  {
    assert rows[..index + 1][..index] == rows[..index];
  }

  /** Fill a batch from the candidate rows, stopping at the batch total. */
  method Fill(rows: Rows) returns (content: map<Kind, seq<string>>, ids: seq<nat>)
    requires KnownKinds(rows)
    ensures content == Content(Packed(rows))
    ensures ids == Ids(Packed(rows))
    ensures ids == [] <==> Packed(rows) == []
  {
    content := map kind | kind in KINDS :: [];
    ids := [];
    var index := 0;
    ghost var picked: Rows := [];
    while index < |rows| && |ids| < MAX_BATCH_RECORDS
      invariant 0 <= index <= |rows|
      invariant picked == Packed(rows[..index]) && ids == Ids(picked) && content == Content(picked)
    {
      IdsAt(picked);
      PackedNext(rows, index);
      assert rows[index] in rows;
      content, ids, picked := FillOne(picked, content, ids, rows[index]);
      index := index + 1;
    }
    IdsAt(picked);
    PackedStopsAtTotal(rows, index);
  }

  class Spool {
    var records: Rows
    var pending: seq<Reservation>
    var history: Rows
    var lastId: nat
    var nextSeq: int
    var dropped: int
    const limits: Limits

    function View(): State
      reads this
    {
      State(records, pending, history, lastId, nextSeq, dropped)
    }

    ghost predicate Valid()
      reads this
    {
      T.Valid(View())
    }

    constructor (limits: Limits)
      ensures Valid() && View() == EMPTY && this.limits == limits
    {
      records, pending, history, lastId, nextSeq, dropped := [], [], [], 0, 1, 0;
      this.limits := limits;
    }

    /** pruneTx: expire the reservation, sweep by age, then trim history and
        drop records block by block until the payload budget holds. */
    method Prune(now: int) returns (removed: nat)
      requires Valid()
      modifies this
      ensures View() == Pruned(old(View()), limits, now) && Valid()
      ensures removed == |old(records)| - |records|
    {
      PruneKeepsValid(View(), limits, now);
      removed := PruneTables(now);
    }

    method PruneTables(now: int) returns (removed: nat)
      requires InIdOrder(records)
      modifies this
      ensures View() == Pruned(old(View()), limits, now)
      ensures removed == |old(records)| - |records|
    {
      var aged := SweepByAge(now - limits.maxAge);
      TrimHistoryBlocks();
      var overflow := DropRecordBlocks(Held(pending));
      removed := aged + overflow;
      dropped := dropped + removed;
    }

    /** The age sweep of pruneTx. */
    method SweepByAge(cutoff: int) returns (removed: nat)
      requires InIdOrder(records)
      modifies this`pending, this`records, this`history
      ensures pending == Unexpired(old(pending), cutoff)
      ensures records == Recent(old(records), cutoff, Held(pending)) && InIdOrder(records)
      ensures history == Recent(old(history), cutoff, {})
      ensures removed == |old(records)| - |records|
    {
      pending := Unexpired(pending, cutoff);
      var held := Held(pending);
      RecentKeeps(records, cutoff, held);
      removed := |records| - |Recent(records, cutoff, held)|;
      records := Recent(records, cutoff, held);
      history := Recent(history, cutoff, {});
    }

    method TrimHistoryBlocks()
      modifies this`history
      ensures history == TrimHistory(old(history), SumBytes(records), limits.maxPayloadBytes)
    {
      var bytesUsed := SumBytes(records) + SumBytes(history);
      while bytesUsed > limits.maxPayloadBytes
        invariant bytesUsed == SumBytes(records) + SumBytes(history)
        invariant TrimHistory(history, SumBytes(records), limits.maxPayloadBytes)
          == TrimHistory(old(history), SumBytes(records), limits.maxPayloadBytes)
        decreases |history|
      {
        if history == [] { break; }
        history := if |history| <= PRUNE_BLOCK then [] else history[PRUNE_BLOCK..];
        bytesUsed := SumBytes(records) + SumBytes(history);
      }
    }

    method DropRecordBlocks(held: set<nat>) returns (removed: nat)
      requires InIdOrder(records)
      modifies this`records
      ensures records == DropOldest(old(records), held,
        SumBytes(old(records)) + SumBytes(history) - limits.maxPayloadBytes)
      ensures removed == |old(records)| - |records|
    {
      var bytesUsed: int := SumBytes(records) + SumBytes(history);
      removed := 0;
      while bytesUsed > limits.maxPayloadBytes
        invariant InIdOrder(records)
        invariant |records| + removed == |old(records)|
        invariant DropOldest(records, held, bytesUsed - limits.maxPayloadBytes)
          == DropOldest(old(records), held, SumBytes(old(records)) + SumBytes(history) - limits.maxPayloadBytes)
        decreases |records|
      {
        var n, removedBytes := DropBlock(held, bytesUsed);
        if n == 0 { break; }
        removed := removed + n;
        bytesUsed := bytesUsed - removedBytes;
      }
    }

    /** One pass of the overflow loop; with nothing to select, nothing is left
        that the rule would drop. */
    method DropBlock(held: set<nat>, bytesUsed: int) returns (n: nat, removedBytes: nat)
      requires InIdOrder(records) && bytesUsed > limits.maxPayloadBytes
      modifies this`records
      ensures InIdOrder(records) && |records| == |old(records)| - n
      ensures DropOldest(records, held, bytesUsed - removedBytes - limits.maxPayloadBytes)
        == DropOldest(old(records), held, bytesUsed - limits.maxPayloadBytes)
      ensures n == 0 ==> records == old(records) == DropOldest(records, held, bytesUsed - limits.maxPayloadBytes)
    {
      n, removedBytes := SelectOverflow(held, bytesUsed);
      BlockStep(records, held, bytesUsed - limits.maxPayloadBytes, n);
      if n == 0 {
        NothingToDrop(records, held, bytesUsed - limits.maxPayloadBytes);
      } else {
        records := Without(records, ToSet(Ids(Unreserved(records, held)[..n])));
      }
    }

    /** The rows one pass deletes: at most a block of the oldest unreserved
        records, cut short at the row that brings the total under the cap. */
    method SelectOverflow(held: set<nat>, bytesUsed: int) returns (n: nat, removedBytes: nat)
      requires bytesUsed > limits.maxPayloadBytes
      ensures n <= |Unreserved(records, held)| && n <= PRUNE_BLOCK
      ensures removedBytes == SumBytes(Unreserved(records, held)[..n])
      ensures n > 0 ==> SumBytes(Unreserved(records, held)[..n - 1]) < bytesUsed - limits.maxPayloadBytes
      ensures n == 0 <==> Unreserved(records, held) == []
    {
      var rows := Unreserved(records, held);
      n, removedBytes := 0, 0;
      while n < |rows| && n < PRUNE_BLOCK
        invariant n <= |rows| && n <= PRUNE_BLOCK
        invariant removedBytes == SumBytes(rows[..n])
        invariant removedBytes < bytesUsed - limits.maxPayloadBytes
      {
        assert rows[..n + 1] == rows[..n] + [rows[n]];
        SumBytesAppend(rows[..n], [rows[n]]);
        removedBytes := removedBytes + |rows[n].payload|;
        n := n + 1;
        if bytesUsed - removedBytes <= limits.maxPayloadBytes {
          assert rows[..n - 1] == rows[..n][..n - 1];
          break;
        }
        assert SumBytes(rows[..n - 1]) <= removedBytes;
      }
      if n > 0 {
        assert rows[..n] == rows[..n - 1] + [rows[n - 1]];
        SumBytesAppend(rows[..n - 1], [rows[n - 1]]);
      }
    }

    /** append: store a whole interval in one transaction, or nothing. */
    method Append(newRecords: seq<Record>, localOnly: bool, now: int) returns (ok: bool, removed: nat)
      requires Valid()
      modifies this
      ensures View() == Appended(old(View()), newRecords, localOnly, limits, now) && Valid()
      ensures ok <==> forall i | 0 <= i < |newRecords| :: newRecords[i].Valid()
    {
      removed := 0;
      assert Valid() by { AppendKeepsValid(old(View()), newRecords, localOnly, limits, now); }
      if newRecords == [] { return true, 0; }
      var rows;
      ok, rows := Prepare(newRecords, localOnly);
      if !ok { return; }
      Insert(newRecords, rows, localOnly);
      removed := Prune(now);
    }

    method Insert(newRecords: seq<Record>, rows: Rows, localOnly: bool)
      requires Valid() && rows == NewRows(newRecords, lastId, localOnly)
      requires forall i | 0 <= i < |newRecords| :: newRecords[i].Valid()
      modifies this`records, this`lastId
      ensures View() == old(View()).(records := old(records) + rows, lastId := old(lastId) + |newRecords|) && Valid()
    {
      records, lastId := records + rows, lastId + |newRecords|;
      assert Valid() by { InsertKeepsValid(old(View()), newRecords, localOnly); }
    }

    /** The inserts of one append, up to the first invalid record. */
    method Prepare(newRecords: seq<Record>, localOnly: bool) returns (ok: bool, rows: Rows)
      ensures ok <==> forall i | 0 <= i < |newRecords| :: newRecords[i].Valid()
      ensures ok ==> rows == NewRows(newRecords, lastId, localOnly)
    {
      var id := lastId;
      rows := [];
      for index := 0 to |newRecords|
        invariant forall i | 0 <= i < index :: newRecords[i].Valid()
        invariant id == lastId + index
        invariant rows == NewRows(newRecords[..index], lastId, localOnly)
      {
        var record := newRecords[index];
        if !record.Valid() { return false, []; }
        id := id + 1;
        rows := rows + [Row(id, record.kind, record.timestamp, record.payload, localOnly)];
        assert newRecords[..index + 1] == newRecords[..index] + [record];
        NewRowsNext(newRecords[..index], record, lastId, localOnly);
      }
      assert newRecords[..|newRecords|] == newRecords;
      ok := true;
    }

    /** NextBatch: the pending batch again, or a fresh reservation of the oldest
        uploadable records; nothing exactly when nothing is uploadable. */
    method NextBatch(batchId: string, appVersion: string, configVersion: int, now: int)
      returns (batch: Option<Reservation>)
      requires Valid()
      modifies this
      ensures View() == Reserved(old(View()), batchId, appVersion, configVersion, now) && Valid()
      ensures batch == if pending == [] then None else Some(pending[0])
      ensures batch.None? <==> old(pending) == [] && Uploadable(old(records)) == []
      ensures old(pending) != [] ==> View() == old(View())
      ensures old(pending) == [] && batch.Some? ==>
        var b := batch.value.batch;
        && b.batchId == batchId && b.sequence == old(nextSeq) && b.sensorClock == batch.value.createdAt == now
        && b.appVersion == appVersion && b.configVersion == configVersion
    {
      assert Valid() by { ReserveKeepsValid(old(View()), batchId, appVersion, configVersion, now); }
      assert Reservable(View()) == [] <==> Uploadable(records) == [] by {
        ReservationTakesPrefixes(View(), MinuteMetric);
      }
      if pending != [] { return Some(pending[0]); }
      assert KnownKinds(Candidates(records)) by { CandidatesAreUploadable(records); }
      var content, ids := Fill(Candidates(records));
      if ids == [] { return None; }
      var reservation :=
        Reservation(Batch(batchId, nextSeq, now, appVersion, configVersion, content), ids, now);
      pending, nextSeq := pending + [reservation], nextSeq + 1;
      assert View() == Reserved(old(View()), batchId, appVersion, configVersion, now);
      assert Valid() by { ReserveKeepsValid(old(View()), batchId, appVersion, configVersion, now); }
      batch := Some(reservation);
    }

    /** Ack: move the batch's records to history and release the reservation.
        An unknown batch id changes nothing. */
    method Ack(batchId: string, now: int)
      requires Valid()
      modifies this
      ensures View() == Acknowledged(old(View()), batchId, limits, now) && Valid()
    {
      AckKeepsValid(View(), batchId, limits, now);
      if pending == [] || pending[0].batch.batchId != batchId { return; }
      var ids := ToSet(pending[0].ids);
      MoveKeepsValid(View());
      InsertNeverIgnores(history, Among(records, ids));
      history := InsertOrIgnore(history, Among(records, ids));
      records := Without(records, ids);
      pending := pending[1..];
      var _ := Prune(now);
    }

    /** Clear: forget everything except the id high-water mark. */
    method Clear()
      requires Valid()
      modifies this
      ensures View() == Cleared(old(View())) && Valid()
    {
      pending, records, history, nextSeq, dropped := [], [], [], 1, 0;
    }
  }

  lemma {:induction false} NewRowsNext(records: seq<Record>, record: Record, lastId: nat, localOnly: bool)
    ensures NewRows(records + [record], lastId, localOnly) == NewRows(records, lastId, localOnly)
      + [Row(lastId + |records| + 1, record.kind, record.timestamp, record.payload, localOnly)]
  {
    if records != [] {
      assert (records + [record])[1..] == records[1..] + [record];
      NewRowsNext(records[1..], record, lastId + 1, localOnly);
    } else {
      assert records + [record] == [record];
    }
  }

  lemma {:induction false} PayloadCount(rows: Rows)
    ensures |Payloads(rows)| == |rows|
  {
    if rows != [] {
      PayloadCount(rows[1..]);
    }
  }

  /** A block of `n` unreserved rows is `n` rows of the table. */
  lemma BlockSize(rows: Rows, held: set<nat>, n: nat)
    requires InIdOrder(rows) && n <= |Unreserved(rows, held)|
    ensures |Without(rows, ToSet(Ids(Unreserved(rows, held)[..n])))| == |rows| - n
  {
    var block := Unreserved(rows, held)[..n];
    UnreservedInOrder(rows, held);
    UnreservedMembers(rows, held);
    AmongOwnIds(rows, block);
    WithoutSplit(rows, ToSet(Ids(block)));
  }

  /** One pass of the overflow loop makes progress and keeps the rest of the
      simple rule's work. */
  lemma BlockStep(rows: Rows, held: set<nat>, excess: int, n: nat)
    requires InIdOrder(rows) && n <= |Unreserved(rows, held)|
    requires n > 0 ==> SumBytes(Unreserved(rows, held)[..n - 1]) < excess
    ensures
      var block := Unreserved(rows, held)[..n];
      var left := Without(rows, ToSet(Ids(block)));
      && InIdOrder(left) && |left| == |rows| - n
      && DropOldest(rows, held, excess) == DropOldest(left, held, excess - SumBytes(block))
  {
    BlockIsASimpleStep(rows, held, excess, n);
    BlockSize(rows, held, n);
    WithoutMembers(rows, ToSet(Ids(Unreserved(rows, held)[..n])));
  }

  lemma NothingToDrop(rows: Rows, held: set<nat>, excess: int)
    requires InIdOrder(rows) && Unreserved(rows, held) == []
    ensures DropOldest(rows, held, excess) == rows
  {
    var n := DropOldestIsShortestRun(rows, held, excess);
    WithoutNothing(rows, {});
    assert ToSet(Ids(Unreserved(rows, held)[..n])) == {};
  }

  lemma {:induction false} UnreservedInOrder(rows: Rows, held: set<nat>)
    requires InIdOrder(rows)
    ensures InIdOrder(Unreserved(rows, held))
  {
    if rows != [] {
      UnreservedInOrder(rows[1..], held);
      UnreservedMembers(rows[1..], held);
    }
  }

  lemma ContentOfOneKind(picked: Rows, row: Row, kind: Kind)
    ensures Payloads(OfKind(picked + [row], kind))
      == if kind == row.kind then Payloads(OfKind(picked, kind)) + [row.payload] else Payloads(OfKind(picked, kind))
  {
    OfKindAppend(picked, [row], kind);
    assert OfKind([row], kind) == if row.kind == kind then [row] else [];
    PayloadsAppend(OfKind(picked, kind), OfKind([row], kind));
    assert Payloads([row]) == [row.payload];
  }

  /** Filling in place agrees with collecting each kind's payloads in order. */
  lemma AddExtendsContent(picked: Rows, row: Row)
    requires row.kind in KINDS
    ensures Content(picked + [row]) == Content(picked)[row.kind := Content(picked)[row.kind] + [row.payload]]
  {
    var before, after := Content(picked), Content(picked + [row]);
    assert after.Keys == before.Keys == KINDS;
    forall kind | kind in KINDS
      ensures after[kind] == before[row.kind := before[row.kind] + [row.payload]][kind]
    {
      ContentOfOneKind(picked, row, kind);
    }
  }

  /** Once the batch is full, later candidates change nothing. */
  lemma {:induction false} PackedStopsAtTotal(rows: Rows, n: nat)
    requires n <= |rows| && (n == |rows| || |Packed(rows[..n])| >= MAX_BATCH_RECORDS)
    ensures Packed(rows) == Packed(rows[..n])
  {
    if n == |rows| {
      assert rows[..n] == rows;
    } else {
      var init := rows[..|rows| - 1];
      assert init[..n] == rows[..n];
      PackedStopsAtTotal(init, n);
    }
  }
}
