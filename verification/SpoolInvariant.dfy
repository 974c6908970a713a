/** Every transaction of the queue keeps its invariant. */
module SpoolInvariant {
  import opened SpoolTables
  import opened SpoolPrune
  import opened SpoolBatch

  lemma {:induction false} RecentDistinct(rows: Rows, cutoff: int, held: set<nat>)
    requires Distinct(rows)
    ensures Distinct(Recent(rows, cutoff, held))
  {
    if rows != [] {
      RecentDistinct(rows[1..], cutoff, held);
      RecentKeeps(rows[1..], cutoff, held);
      forall row | row in rows[1..] ensures row.id != rows[0].id {
        var i :| 0 <= i < |rows[1..]| && rows[1..][i] == row;
        assert rows[i + 1] == row;
      }
    }
  }

  /** Neither sweep touches the rows a surviving reservation holds. */
  lemma {:induction false} SweepsKeepHeldRows(rows: Rows, cutoff: int, held: set<nat>, excess: int, ids: set<nat>)
    requires ids <= held
    ensures Among(Recent(rows, cutoff, held), ids) == Among(rows, ids)
    ensures Among(DropOldest(rows, held, excess), ids) == Among(rows, ids)
  {
    if rows != [] {
      SweepsKeepHeldRows(rows[1..], cutoff, held, excess, ids);
      SweepsKeepHeldRows(rows[1..], cutoff, held, excess - |rows[0].payload|, ids);
    }
  }

  lemma PruneKeepsPending(s: State, limits: Limits, now: int)
    requires |s.pending| <= 1 && (s.pending != [] ==> Backed(s.pending[0], s.records))
    ensures
      var t := Pruned(s, limits, now);
      && t.pending == (if s.pending != [] && s.pending[0].createdAt >= now - limits.maxAge then s.pending else [])
      && (t.pending != [] ==> Backed(t.pending[0], t.records))
  {
    var t := Pruned(s, limits, now);
    if s.pending != [] {
      assert s.pending == [s.pending[0]] && s.pending[1..] == [];
      assert t.pending == Unexpired(s.pending, now - limits.maxAge);
      assert Unexpired(s.pending[1..], now - limits.maxAge) == [];
      if t.pending != [] {
        var held, ids := Held(t.pending), ToSet(s.pending[0].ids);
        assert t.pending[0] in t.pending;
        assert ids <= held by {
          forall id | id in ids ensures id in held {
            assert id in t.pending[0].ids;
          }
        }
        var aged := Recent(s.records, now - limits.maxAge, held);
        var excess := SumBytes(aged) + SumBytes(t.history) - limits.maxPayloadBytes;
        SweepsKeepHeldRows(s.records, now - limits.maxAge, held, excess, ids);
        SweepsKeepHeldRows(aged, now - limits.maxAge, held, excess, ids);
      }
    }
  }

  lemma SuffixKeepsDistinct(rows: Rows, n: nat)
    requires n <= |rows| && Distinct(rows)
    ensures Distinct(rows[n..])
  {
  }

  lemma FewerStayApart(history: Rows, records: Rows, history': Rows, records': Rows, lastId: nat)
    requires ValidHistory(history, records, lastId) && Distinct(history')
    requires forall row | row in history' :: row in history
    requires forall row | row in records' :: row in records
    ensures ValidHistory(history', records', lastId)
  {
  }

  lemma PruneKeepsHistory(s: State, limits: Limits, now: int)
    requires ValidRecords(s.records, s.lastId) && ValidHistory(s.history, s.records, s.lastId)
    ensures var t := Pruned(s, limits, now); ValidHistory(t.history, t.records, t.lastId)
  {
    var t := Pruned(s, limits, now);
    var recent := Recent(s.history, now - limits.maxAge, {});
    PruneRecords(s, limits, now);
    PruneHistory(s, limits, now);
    RecentDistinct(s.history, now - limits.maxAge, {});
    SuffixKeepsDistinct(recent, |recent| - |t.history|);
    FewerStayApart(s.history, s.records, t.history, t.records, s.lastId);
  }

  lemma PruneKeepsValid(s: State, limits: Limits, now: int)
    requires Valid(s)
    ensures Valid(Pruned(s, limits, now))
  {
    PruneKeepsPending(s, limits, now);
    PruneRecords(s, limits, now);
    PruneKeepsHistory(s, limits, now);
  }

  lemma {:induction false} NewRowsAre(records: seq<Record>, lastId: nat, localOnly: bool)
    ensures |NewRows(records, lastId, localOnly)| == |records|
    ensures forall i | 0 <= i < |records| ::
      NewRows(records, lastId, localOnly)[i]
        == Row(lastId + 1 + i, records[i].kind, records[i].timestamp, records[i].payload, localOnly)
  {
    if records != [] {
      NewRowsAre(records[1..], lastId + 1, localOnly);
    }
  }

  lemma {:induction false} AmongPrefix(a: Rows, b: Rows, ids: set<nat>)
    requires forall row | row in b :: row.id !in ids
    ensures Among(a + b, ids) == Among(a, ids)
  {
    if a == [] {
      assert a + b == b;
      AmongNothing(b, ids);
    } else {
      assert (a + b)[1..] == a[1..] + b;
      AmongPrefix(a[1..], b, ids);
    }
  }

  lemma {:induction false} AmongNothing(rows: Rows, ids: set<nat>)
    requires forall row | row in rows :: row.id !in ids
    ensures Among(rows, ids) == []
  {
    if rows != [] {
      assert rows[0] in rows;
      AmongNothing(rows[1..], ids);
    }
  }

  /** A backed reservation's ids are ids of queued rows. */
  lemma BackedIdsAreQueued(r: Reservation, records: Rows)
    requires Backed(r, records)
    ensures forall id | id in r.ids :: exists row :: row in records && row.id == id && !row.localOnly
  {
    var rows := Among(records, ToSet(r.ids));
    IdsAt(rows);
    WithoutMembers(records, ToSet(r.ids));
    forall id | id in r.ids ensures exists row :: row in records && row.id == id && !row.localOnly {
      var i :| 0 <= i < |r.ids| && r.ids[i] == id;
      assert rows[i] in rows && rows[i].id == id;
    }
  }

  lemma InsertKeepsRecords(s: State, records: seq<Record>, localOnly: bool)
    requires ValidRecords(s.records, s.lastId) && ValidHistory(s.history, s.records, s.lastId)
    requires forall i | 0 <= i < |records| :: records[i].Valid()
    ensures
      var all := s.records + NewRows(records, s.lastId, localOnly);
      ValidRecords(all, s.lastId + |records|) && ValidHistory(s.history, all, s.lastId + |records|)
  {
    var rows := NewRows(records, s.lastId, localOnly);
    NewRowsAre(records, s.lastId, localOnly);
    var all := s.records + rows;
    assert forall i | 0 <= i < |s.records| :: s.records[i] in s.records;
    assert forall row | row in rows :: s.lastId < row.id <= s.lastId + |records| && !row.kind.Unknown?;
    assert forall row | row in all :: row in s.records || row in rows;
  }

  lemma InsertKeepsValid(s: State, records: seq<Record>, localOnly: bool)
    requires Valid(s)
    requires forall i | 0 <= i < |records| :: records[i].Valid()
    ensures Valid(s.(records := s.records + NewRows(records, s.lastId, localOnly), lastId := s.lastId + |records|))
  {
    InsertKeepsRecords(s, records, localOnly);
    NewRowsAre(records, s.lastId, localOnly);
    if s.pending != [] {
      BackedIdsAreQueued(s.pending[0], s.records);
      AmongPrefix(s.records, NewRows(records, s.lastId, localOnly), ToSet(s.pending[0].ids));
    }
  }

  lemma AppendKeepsValid(s: State, records: seq<Record>, localOnly: bool, limits: Limits, now: int)
    requires Valid(s)
    ensures Valid(Appended(s, records, localOnly, limits, now))
  {
    if forall i | 0 <= i < |records| :: records[i].Valid() {
      InsertKeepsValid(s, records, localOnly);
      PruneKeepsValid(
        s.(records := s.records + NewRows(records, s.lastId, localOnly), lastId := s.lastId + |records|), limits, now);
    }
  }

  /** An append within the limits stores every record and touches nothing else. */
  lemma AppendKeepsWhatFits(s: State, records: seq<Record>, localOnly: bool, limits: Limits, now: int)
    requires Valid(s) && records != [] && forall i | 0 <= i < |records| :: records[i].Valid()
    requires
      var stored := s.(records := s.records + NewRows(records, s.lastId, localOnly), lastId := s.lastId + |records|);
      WithinRetention(stored, limits, now)
    ensures Appended(s, records, localOnly, limits, now)
      == s.(records := s.records + NewRows(records, s.lastId, localOnly), lastId := s.lastId + |records|)
  {
    InsertKeepsRecords(s, records, localOnly);
    PruneKeepsWhatFits(
      s.(records := s.records + NewRows(records, s.lastId, localOnly), lastId := s.lastId + |records|), limits, now);
  }

  /** A reservation lives for the retention age from when it was made. */
  lemma ReservationLives(
    s: State, batchId: string, appVersion: string, configVersion: int, now: int, limits: Limits, later: int)
    requires Valid(s) && s.pending == [] && Reservable(s) != []
    ensures
      var r := Reserved(s, batchId, appVersion, configVersion, now);
      Pruned(r, limits, later).pending == if later - now <= limits.maxAge then r.pending else []
  {
    ReserveKeepsValid(s, batchId, appVersion, configVersion, now);
    PruneKeepsPending(Reserved(s, batchId, appVersion, configVersion, now), limits, later);
  }

  lemma ReserveKeepsValid(s: State, batchId: string, appVersion: string, configVersion: int, now: int)
    requires Valid(s)
    ensures Valid(Reserved(s, batchId, appVersion, configVersion, now))
  {
    if s.pending == [] && Reservable(s) != [] {
      ReservationIsBacked(s, batchId, appVersion, configVersion, now);
    }
  }

  /** Moving a reservation's rows to history. */
  function Moved(s: State): State
    requires s.pending != []
  {
    var ids := ToSet(s.pending[0].ids);
    s.(records := Without(s.records, ids), history := s.history + Among(s.records, ids), pending := s.pending[1..])
  }

  lemma MoveKeepsValid(s: State)
    requires Valid(s) && s.pending != []
    ensures Valid(Moved(s))
  {
    var t := Moved(s);
    var ids := ToSet(s.pending[0].ids);
    var moved := Among(s.records, ids);
    WithoutMembers(s.records, ids);
    assert forall past | past in t.history :: past in s.history || past in moved;
    assert forall i | 0 <= i < |s.history| :: s.history[i] in s.history;
    assert forall i | 0 <= i < |moved| :: moved[i] in moved;
    assert Distinct(t.history);
  }

  /** An acknowledgement within the limits moves the batch's rows to history and
      touches no other. */
  lemma AckKeepsWhatFits(s: State, limits: Limits, now: int)
    requires Valid(s) && s.pending != [] && WithinRetention(s, limits, now)
    ensures
      var t, ids := Acknowledged(s, s.pending[0].batch.batchId, limits, now), ToSet(s.pending[0].ids);
      && (forall row :: row in t.records <==> row in s.records && row.id !in ids)
      && (forall row :: row in t.history <==> row in s.history || (row in s.records && row.id in ids))
      && t.pending == [] && t.dropped == s.dropped
  {
    var ids := ToSet(s.pending[0].ids);
    MoveKeepsValid(s);
    WithoutMembers(s.records, ids);
    WithoutSplit(s.records, ids);
    SumBytesAppend(s.history, Among(s.records, ids));
    PruneKeepsWhatFits(Moved(s), limits, now);
  }

  lemma AckKeepsValid(s: State, batchId: string, limits: Limits, now: int)
    requires Valid(s)
    ensures Valid(Acknowledged(s, batchId, limits, now))
  {
    if s.pending != [] && s.pending[0].batch.batchId == batchId {
      MoveKeepsValid(s);
      PruneKeepsValid(Moved(s), limits, now);
    }
  }

  /** Source ids never collide, so INSERT OR IGNORE never ignores a row. */
  lemma {:induction false} InsertNeverIgnores(history: Rows, rows: Rows)
    requires Distinct(history + rows)
    ensures InsertOrIgnore(history, rows) == history + rows
    decreases |rows|
  {
    if rows == [] {
      assert history + rows == history;
    } else {
      assert forall i | 0 <= i < |history| :: (history + rows)[i] == history[i];
      assert (history + rows)[|history|] == rows[0];
      assert (history + [rows[0]]) + rows[1..] == history + rows;
      InsertNeverIgnores(history + [rows[0]], rows[1..]);
    }
  }
}
