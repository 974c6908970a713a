/** Batch packing: what one reservation takes from the queue. */
module SpoolBatch {
  import opened SpoolTables
  import opened SpoolPrune

  lemma {:induction false} OfKindAppend(a: Rows, b: Rows, kind: Kind)
    ensures OfKind(a + b, kind) == OfKind(a, kind) + OfKind(b, kind)
  {
    if a == [] {
      assert a + b == b;
    } else {
      assert (a + b)[1..] == a[1..] + b;
      OfKindAppend(a[1..], b, kind);
    }
  }

  lemma {:induction false} PayloadsAppend(a: Rows, b: Rows)
    ensures Payloads(a + b) == Payloads(a) + Payloads(b)
  {
    if a == [] {
      assert a + b == b;
    } else {
      assert (a + b)[1..] == a[1..] + b;
      PayloadsAppend(a[1..], b);
    }
  }

  lemma {:induction false} IdsAppend(a: Rows, b: Rows)
    ensures Ids(a + b) == Ids(a) + Ids(b)
  {
    if a == [] {
      assert a + b == b;
    } else {
      assert (a + b)[1..] == a[1..] + b;
      IdsAppend(a[1..], b);
    }
  }

  lemma {:induction false} UploadableMembers(rows: Rows)
    ensures forall row :: row in Uploadable(rows) <==> row in rows && !row.localOnly
    ensures InIdOrder(rows) ==> InIdOrder(Uploadable(rows))
  {
    if rows != [] {
      UploadableMembers(rows[1..]);
    }
  }

  /** The packed rows are candidates, in order, and never more than the total. */
  lemma {:induction false} PackedMembers(rows: Rows)
    ensures |Packed(rows)| <= MAX_BATCH_RECORDS
    ensures forall row | row in Packed(rows) :: row in rows
    ensures InIdOrder(rows) ==> InIdOrder(Packed(rows))
  {
    if rows != [] {
      var init, row := rows[..|rows| - 1], rows[|rows| - 1];
      PackedMembers(init);
      forall r | r in init ensures InIdOrder(rows) ==> r.id < row.id {
        var i :| 0 <= i < |init| && init[i] == r;
        assert rows[i] == r;
      }
    }
  }

  /** Of each kind a batch takes a prefix of the candidates, up to the cap, and
      the whole of it unless the cap or the batch total was reached. */
  lemma {:induction false} PackedTakesPrefix(rows: Rows, kind: Kind)
    ensures OfKind(Packed(rows), kind) <= OfKind(rows, kind)
    ensures |OfKind(Packed(rows), kind)| <= KindCap(kind)
    ensures |Packed(rows)| < MAX_BATCH_RECORDS && |OfKind(Packed(rows), kind)| < KindCap(kind)
      ==> OfKind(Packed(rows), kind) == OfKind(rows, kind)
  {
    if rows != [] {
      var init, row := rows[..|rows| - 1], rows[|rows| - 1];
      assert rows == init + [row];
      PackedTakesPrefix(init, kind);
      OfKindAppend(init, [row], kind);
      OfKindAppend(Packed(init), [row], kind);
      assert OfKind([row], kind) == if row.kind == kind then [row] else [];
    }
  }

  /** A candidate of a known kind always yields a batch. */
  lemma {:induction false} PackedIsEmptyOnlyWithoutCandidates(rows: Rows)
    requires forall row | row in rows :: !row.kind.Unknown?
    ensures Packed(rows) == [] <==> rows == []
  {
    if rows != [] {
      var init := rows[..|rows| - 1];
      PackedIsEmptyOnlyWithoutCandidates(init);
      assert rows[|rows| - 1] in rows;
    }
  }

  lemma RestIsAmongRest(rows: Rows, sub: Rows)
    requires InIdOrder(rows) && InIdOrder(sub) && rows != [] && sub != [] && sub[0] == rows[0]
    requires forall i | 0 <= i < |sub| :: sub[i] in rows
    ensures forall i | 0 <= i < |sub[1..]| :: sub[1..][i] in rows[1..]
  {
    forall i | 0 <= i < |sub[1..]| ensures sub[1..][i] in rows[1..] {
      assert sub[i + 1] in rows && sub[i + 1].id > sub[0].id;
    }
  }

  lemma AllAmongRest(rows: Rows, sub: Rows)
    requires InIdOrder(rows) && InIdOrder(sub) && rows != [] && (sub != [] ==> sub[0] != rows[0])
    requires forall i | 0 <= i < |sub| :: sub[i] in rows
    ensures forall i | 0 <= i < |sub| :: sub[i] in rows[1..] && sub[i].id > rows[0].id
  {
    forall i | 0 <= i < |sub| ensures sub[i] in rows[1..] && sub[i].id > rows[0].id {
      assert sub[0] in rows && sub[i] in rows && sub[i].id >= sub[0].id > rows[0].id;
    }
  }

  /** Selecting by the ids of an ordered sub-table returns that sub-table. */
  lemma {:induction false} AmongOwnIds(rows: Rows, sub: Rows)
    requires InIdOrder(rows) && InIdOrder(sub)
    requires forall i | 0 <= i < |sub| :: sub[i] in rows
    ensures Among(rows, ToSet(Ids(sub))) == sub
  {
    if rows == [] {
      assert sub == [];
    } else if sub != [] && sub[0] == rows[0] {
      RestIsAmongRest(rows, sub);
      AmongOwnIds(rows[1..], sub[1..]);
      AmongHead(rows, sub);
    } else {
      AllAmongRest(rows, sub);
      AmongOwnIds(rows[1..], sub);
      AmongSkip(rows, sub);
    }
  }

  lemma AmongHead(rows: Rows, sub: Rows)
    requires InIdOrder(rows) && InIdOrder(sub) && rows != [] && sub != [] && sub[0] == rows[0]
    ensures Among(rows, ToSet(Ids(sub))) == [sub[0]] + Among(rows[1..], ToSet(Ids(sub[1..])))
  {
    AmongFirst(rows[1..], sub);
    assert Ids(sub)[0] == rows[0].id;
    assert rows[0].id in ToSet(Ids(sub));
  }

  lemma AmongSkip(rows: Rows, sub: Rows)
    requires rows != [] && forall i | 0 <= i < |sub| :: sub[i].id > rows[0].id
    ensures Among(rows, ToSet(Ids(sub))) == Among(rows[1..], ToSet(Ids(sub)))
  {
    IdsAt(sub);
  }

  /** The id of an earlier row selects nothing among later ones. */
  lemma AmongFirst(rest: Rows, sub: Rows)
    requires sub != [] && InIdOrder(sub)
    requires forall row | row in rest :: row.id > sub[0].id
    ensures Among(rest, ToSet(Ids(sub))) == Among(rest, ToSet(Ids(sub[1..])))
  {
    IdsAt(sub[1..]);
    assert Ids(sub) == [sub[0].id] + Ids(sub[1..]);
    assert ToSet(Ids(sub)) - {sub[0].id} == ToSet(Ids(sub[1..]));
    AmongDropsId(rest, ToSet(Ids(sub)), sub[0].id);
  }

  lemma {:induction false} AmongDropsId(rows: Rows, ids: set<nat>, id: nat)
    requires forall row | row in rows :: row.id != id
    ensures Among(rows, ids) == Among(rows, ids - {id})
  {
    if rows != [] {
      assert rows[0] in rows;
      AmongDropsId(rows[1..], ids, id);
    }
  }

  lemma {:induction false} AmongTakesPrefixKind(rows: Rows, kind: Kind, n: nat)
    requires n <= |rows|
    ensures OfKind(rows[..n], kind) <= OfKind(rows, kind)
  {
    assert rows == rows[..n] + rows[n..];
    OfKindAppend(rows[..n], rows[n..], kind);
  }

  lemma CandidatesAreUploadable(records: Rows)
    ensures forall row | row in Candidates(records) :: row in records && !row.localOnly
    ensures InIdOrder(records) ==> InIdOrder(Candidates(records))
  {
    UploadableMembers(records);
    assert forall row | row in Candidates(records) :: row in Uploadable(records);
  }

  /** One reservation, in the terms the queue promises. */
  lemma ReservationTakesPrefixes(s: State, kind: Kind)
    requires Valid(s)
    ensures
      var taken := Reservable(s);
      && |taken| <= MAX_BATCH_RECORDS
      && |OfKind(taken, kind)| <= KindCap(kind)
      && OfKind(taken, kind) <= OfKind(Uploadable(s.records), kind)
      && (taken == [] <==> Uploadable(s.records) == [])
      && (|taken| < MAX_BATCH_RECORDS && |OfKind(taken, kind)| < KindCap(kind)
          ==>
          var rows := Uploadable(s.records);
          OfKind(taken, kind) == OfKind(if |rows| <= 400 then rows else rows[..400], kind))
  {
    var rows := Uploadable(s.records);
    var candidates := Candidates(s.records);
    UploadableMembers(s.records);
    PackedMembers(candidates);
    PackedTakesPrefix(candidates, kind);
    PackedIsEmptyOnlyWithoutCandidates(candidates);
    if |rows| > CANDIDATE_LIMIT {
      AmongTakesPrefixKind(rows, kind, CANDIDATE_LIMIT);
    }
  }

  lemma ReservableIsQueued(s: State)
    requires InIdOrder(s.records)
    ensures InIdOrder(Reservable(s)) && |Reservable(s)| <= MAX_BATCH_RECORDS
    ensures forall row | row in Reservable(s) :: row in s.records && !row.localOnly
    ensures Among(s.records, ToSet(Ids(Reservable(s)))) == Reservable(s)
  {
    CandidatesAreUploadable(s.records);
    PackedMembers(Candidates(s.records));
    forall i | 0 <= i < |Reservable(s)| ensures Reservable(s)[i] in s.records {
      assert Reservable(s)[i] in Reservable(s);
    }
    AmongOwnIds(s.records, Reservable(s));
  }

  function CountOfKind(rows: Rows, kind: Kind): nat {
    if rows == [] then 0 else (if rows[0].kind == kind then 1 else 0) + CountOfKind(rows[1..], kind)
  }

  lemma {:induction false} OfKindCounts(rows: Rows, kind: Kind)
    ensures |Payloads(OfKind(rows, kind))| == |OfKind(rows, kind)| == CountOfKind(rows, kind)
  {
    if rows != [] {
      OfKindCounts(rows[1..], kind);
    }
  }

  lemma {:induction false} PayloadOfKind(rows: Rows, i: nat)
    requires i < |rows|
    ensures
      var list, at := Payloads(OfKind(rows, rows[i].kind)), CountOfKind(rows[..i], rows[i].kind);
      at < |list| && list[at] == rows[i].payload
    decreases i
  {
    if i > 0 {
      assert rows[..i][1..] == rows[1..][..i - 1];
      PayloadOfKind(rows[1..], i - 1);
    }
  }

  /** The body holds the payload of each row in the list of the row's kind, after
      those of the rows before it, and nothing else. */
  ghost predicate Carries(body: map<Kind, seq<string>>, rows: Rows) {
    && body.Keys == KINDS
    && (forall kind | kind in KINDS :: |body[kind]| == CountOfKind(rows, kind))
    && (forall i | 0 <= i < |rows| :: CarriesAt(body, rows, i))
  }

  ghost predicate CarriesAt(body: map<Kind, seq<string>>, rows: Rows, i: nat)
    requires i < |rows|
  {
    var kind, at := rows[i].kind, CountOfKind(rows[..i], rows[i].kind);
    kind in body && at < |body[kind]| && body[kind][at] == rows[i].payload
  }

  lemma ContentCarries(rows: Rows)
    requires forall row | row in rows :: row.kind in KINDS
    ensures Carries(Content(rows), rows)
  {
    forall kind | kind in KINDS ensures |Content(rows)[kind]| == CountOfKind(rows, kind) {
      OfKindCounts(rows, kind);
    }
    forall i | 0 <= i < |rows| ensures CarriesAt(Content(rows), rows, i) {
      assert rows[i] in rows;
      PayloadOfKind(rows, i);
    }
  }

  /** A fresh reservation names its rows in order and carries exactly their payloads. */
  lemma BodyHoldsTheRows(s: State, batchId: string, appVersion: string, configVersion: int, now: int)
    requires Valid(s)
    ensures
      var r := NewReservation(s, batchId, appVersion, configVersion, now);
      && |r.ids| == |Reservable(s)| && (forall i | 0 <= i < |r.ids| :: r.ids[i] == Reservable(s)[i].id)
      && Carries(r.batch.content, Reservable(s))
  {
    ReservableIsQueued(s);
    IdsAt(Reservable(s));
    forall row | row in Reservable(s) ensures row.kind in KINDS {
      KnownKind(row.kind);
    }
    ContentCarries(Reservable(s));
  }

  lemma KnownKind(kind: Kind)
    requires !kind.Unknown?
    ensures kind in KINDS
  {
  }

  /** A fresh reservation is backed: its rows are queued and uploadable, and
      its body carries exactly them. */
  lemma ReservationIsBacked(s: State, batchId: string, appVersion: string, configVersion: int, now: int)
    requires Valid(s) && Reservable(s) != []
    ensures Backed(NewReservation(s, batchId, appVersion, configVersion, now), s.records)
    ensures Among(s.records, ToSet(Ids(Reservable(s)))) == Reservable(s)
  {
    ReservableIsQueued(s);
    IdsAt(Reservable(s));
  }
}
