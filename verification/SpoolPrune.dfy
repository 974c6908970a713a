/** Retention: the blockwise deletion the queue performs is the simple
    one-row-at-a-time rule, and what that rule leaves behind. */
module SpoolPrune {
  import opened SpoolTables

  // ---- small facts about the queries ---------------------------------------

  lemma {:induction false} SumBytesAppend(a: Rows, b: Rows)
    ensures SumBytes(a + b) == SumBytes(a) + SumBytes(b)
  {
    if a == [] {
      assert a + b == b;
    } else {
      assert (a + b)[1..] == a[1..] + b;
      SumBytesAppend(a[1..], b);
    }
  }

  lemma {:induction false} WithoutNothing(rows: Rows, ids: set<nat>)
    requires forall i | 0 <= i < |rows| :: rows[i].id !in ids
    ensures Without(rows, ids) == rows
  {
    if rows != [] {
      WithoutNothing(rows[1..], ids);
    }
  }

  lemma {:induction false} WithoutSplit(rows: Rows, ids: set<nat>)
    ensures |Without(rows, ids)| + |Among(rows, ids)| == |rows|
    ensures SumBytes(Without(rows, ids)) + SumBytes(Among(rows, ids)) == SumBytes(rows)
  {
    if rows != [] {
      WithoutSplit(rows[1..], ids);
    }
  }

  /** Two deletions in a row are one deletion. */
  lemma {:induction false} WithoutTwice(rows: Rows, a: set<nat>, b: set<nat>)
    ensures Without(Without(rows, a), b) == Without(rows, a + b)
  {
    if rows != [] {
      WithoutTwice(rows[1..], a, b);
    }
  }

  lemma {:induction false} UnreservedMembers(rows: Rows, held: set<nat>)
    ensures forall i | 0 <= i < |Unreserved(rows, held)| ::
      Unreserved(rows, held)[i] in rows && Unreserved(rows, held)[i].id !in held
    ensures forall row | row in rows && row.id !in held :: row in Unreserved(rows, held)
  {
    if rows != [] {
      UnreservedMembers(rows[1..], held);
    }
  }

  lemma {:induction false} IdsAt(rows: Rows)
    ensures |Ids(rows)| == |rows|
    ensures forall i | 0 <= i < |rows| :: Ids(rows)[i] == rows[i].id
  {
    if rows != [] {
      IdsAt(rows[1..]);
    }
  }

  // ---- blocks refine the one-at-a-time rule ---------------------------------

  /** Deleting a block that starts with the first row deletes that row and the
      rest of the block from the other rows. */
  lemma DropFirst(rows: Rows, block: Rows)
    requires InIdOrder(rows) && rows != [] && block != [] && block[0] == rows[0]
    ensures Without(rows, ToSet(Ids(block))) == Without(rows[1..], ToSet(Ids(block[1..])))
  {
    var id, rest, ids := rows[0].id, rows[1..], ToSet(Ids(block[1..]));
    assert Ids(block) == [id] + Ids(block[1..]);
    assert ToSet(Ids(block)) == {id} + ids;
    WithoutNothing(rest, {id});
    WithoutTwice(rest, {id}, ids);
  }

  /** A held row is in no block. */
  lemma HeldIsNotPicked(row: Row, rows: Rows, held: set<nat>, n: nat)
    requires row.id in held && n <= |Unreserved(rows, held)|
    ensures row.id !in ToSet(Ids(Unreserved(rows, held)[..n]))
  {
    IdsAt(Unreserved(rows, held)[..n]);
    UnreservedMembers(rows, held);
  }

  /** A block of a list that starts with a row is that row and a shorter block. */
  lemma BlockSplits(row: Row, tail: Rows, n: nat)
    requires 0 < n <= |tail| + 1
    ensures ([row] + tail)[..n] == [row] + tail[..n - 1] && ([row] + tail)[..n][1..] == tail[..n - 1]
    ensures SumBytes(([row] + tail)[..n]) == |row.payload| + SumBytes(tail[..n - 1])
  {
    assert ([row] + tail)[..n] == [row] + tail[..n - 1];
  }

  /** Removing a block of the oldest unreserved rows, as long as every row but
      the last still left an excess, is a step of the simple rule. */
  lemma {:induction false} BlockIsASimpleStep(rows: Rows, held: set<nat>, excess: int, n: nat)
    requires InIdOrder(rows)
    requires n <= |Unreserved(rows, held)|
    requires n > 0 ==> SumBytes(Unreserved(rows, held)[..n - 1]) < excess
    ensures
      var block := Unreserved(rows, held)[..n];
      DropOldest(rows, held, excess)
        == DropOldest(Without(rows, ToSet(Ids(block))), held, excess - SumBytes(block))
    decreases |rows|, 1
  {
    if n == 0 {
      WithoutNothing(rows, ToSet(Ids(Unreserved(rows, held)[..n])));
    } else if rows[0].id in held {
      BlockIsASimpleStep(rows[1..], held, excess, n);
      HeldIsNotPicked(rows[0], rows, held, n);
    } else {
      FirstOfBlock(rows, held, excess, n);
    }
  }

  lemma {:induction false} FirstOfBlock(rows: Rows, held: set<nat>, excess: int, n: nat)
    requires InIdOrder(rows) && rows != [] && rows[0].id !in held
    requires 0 < n <= |Unreserved(rows, held)| && SumBytes(Unreserved(rows, held)[..n - 1]) < excess
    ensures
      var block := Unreserved(rows, held)[..n];
      DropOldest(rows, held, excess)
        == DropOldest(Without(rows, ToSet(Ids(block))), held, excess - SumBytes(block))
    decreases |rows|, 0
  {
    var tail := Unreserved(rows[1..], held);
    BlockSplits(rows[0], tail, n);
    if n > 1 {
      BlockSplits(rows[0], tail, n - 1);
    }
    BlockIsASimpleStep(rows[1..], held, excess - |rows[0].payload|, n - 1);
    DropFirst(rows, Unreserved(rows, held)[..n]);
  }

  /** The simple rule in closed form: it deletes the first `n` unreserved rows,
      where `n` is the least count that removes the excess, or all of them. */
  lemma {:induction false} DropOldestIsShortestRun(rows: Rows, held: set<nat>, excess: int) returns (n: nat)
    requires InIdOrder(rows)
    ensures n <= |Unreserved(rows, held)|
    ensures DropOldest(rows, held, excess) == Without(rows, ToSet(Ids(Unreserved(rows, held)[..n])))
    ensures forall m | 0 <= m < n :: SumBytes(Unreserved(rows, held)[..m]) < excess
    ensures SumBytes(Unreserved(rows, held)[..n]) >= excess || n == |Unreserved(rows, held)|
    ensures n == |rows| - |DropOldest(rows, held, excess)|
    ensures SumBytes(DropOldest(rows, held, excess)) == SumBytes(rows) - SumBytes(Unreserved(rows, held)[..n])
  {
    var picked := Unreserved(rows, held);
    if rows == [] || excess <= 0 {
      n := 0;
      WithoutNothing(rows, ToSet(Ids(picked[..0])));
    } else if rows[0].id in held {
      n := DropOldestIsShortestRun(rows[1..], held, excess);
      HeldIsNotPicked(rows[0], rows, held, n);
    } else {
      var tail := Unreserved(rows[1..], held);
      var k := DropOldestIsShortestRun(rows[1..], held, excess - |rows[0].payload|);
      n := k + 1;
      BlockSplits(rows[0], tail, n);
      forall m | 0 <= m < n ensures SumBytes(picked[..m]) < excess {
        if m > 0 {
          BlockSplits(rows[0], tail, m);
        }
      }
      DropFirst(rows, picked[..n]);
    }
  }

  /** The history without its oldest blocks. */
  function Skipped(history: Rows, blocks: nat): Rows {
    if PRUNE_BLOCK * blocks <= |history| then history[PRUNE_BLOCK * blocks..] else []
  }

  /** What one pass of the history loop leaves. */
  function AfterBlock(history: Rows): Rows {
    if |history| <= PRUNE_BLOCK then [] else history[PRUNE_BLOCK..]
  }

  lemma SkippedAfterBlock(history: Rows, blocks: nat)
    ensures Skipped(AfterBlock(history), blocks) == Skipped(history, blocks + 1)
  {
    if PRUNE_BLOCK * (blocks + 1) <= |history| && |history| > PRUNE_BLOCK {
      assert history[PRUNE_BLOCK..][PRUNE_BLOCK * blocks..] == history[PRUNE_BLOCK * (blocks + 1)..];
    }
  }

  /** The history rule in closed form: whole blocks, the fewest that fit. */
  lemma {:induction false} TrimHistoryIsFewestBlocks(history: Rows, base: int, cap: int) returns (blocks: nat)
    ensures TrimHistory(history, base, cap) == Skipped(history, blocks)
    ensures forall b | 0 <= b < blocks :: Skipped(history, b) != [] && base + SumBytes(Skipped(history, b)) > cap
    ensures base + SumBytes(TrimHistory(history, base, cap)) <= cap || TrimHistory(history, base, cap) == []
    ensures history == [] ==> blocks == 0
    decreases |history|
  {
    assert Skipped(history, 0) == history;
    if base + SumBytes(history) <= cap || history == [] {
      blocks := 0;
    } else {
      var k := TrimHistoryIsFewestBlocks(AfterBlock(history), base, cap);
      blocks := k + 1;
      SkippedAfterBlock(history, k);
      forall b | 0 <= b < blocks
        ensures Skipped(history, b) != [] && base + SumBytes(Skipped(history, b)) > cap
      {
        if b > 0 {
          SkippedAfterBlock(history, b - 1);
        }
      }
    }
  }

  /** Trimming removes a prefix. */
  lemma {:induction false} TrimHistoryIsSuffix(history: Rows, base: int, cap: int)
    ensures |TrimHistory(history, base, cap)| <= |history|
    ensures TrimHistory(history, base, cap) == history[|history| - |TrimHistory(history, base, cap)|..]
  {
    var blocks := TrimHistoryIsFewestBlocks(history, base, cap);
  }

  lemma {:induction false} DropOldestOnlyDrops(rows: Rows, held: set<nat>, excess: int)
    ensures forall row | row in DropOldest(rows, held, excess) :: row in rows
  {
    if rows != [] && excess > 0 {
      DropOldestOnlyDrops(rows[1..], held, if rows[0].id in held then excess else excess - |rows[0].payload|);
    }
  }

  lemma {:induction false} DropOldestKeepsHeld(rows: Rows, held: set<nat>, excess: int)
    ensures forall row | row in rows && row.id in held :: row in DropOldest(rows, held, excess)
  {
    if rows != [] && excess > 0 {
      DropOldestKeepsHeld(rows[1..], held, if rows[0].id in held then excess else excess - |rows[0].payload|);
    }
  }

  lemma {:induction false} DropOldestKeepsOrder(rows: Rows, held: set<nat>, excess: int)
    requires InIdOrder(rows)
    ensures InIdOrder(DropOldest(rows, held, excess))
  {
    if rows != [] && excess > 0 {
      var left := if rows[0].id in held then excess else excess - |rows[0].payload|;
      DropOldestKeepsOrder(rows[1..], held, left);
      DropOldestOnlyDrops(rows[1..], held, left);
      forall row | row in rows[1..] ensures row.id > rows[0].id {
      }
      forall i | 0 <= i < |DropOldest(rows[1..], held, left)|
        ensures DropOldest(rows[1..], held, left)[i].id > rows[0].id
      {
        assert DropOldest(rows[1..], held, left)[i] in DropOldest(rows[1..], held, left);
      }
    }
  }

  /** Deleting rows one at a time keeps order and every held row. */
  lemma DropOldestKeeps(rows: Rows, held: set<nat>, excess: int)
    requires InIdOrder(rows)
    ensures InIdOrder(DropOldest(rows, held, excess))
    ensures forall row | row in DropOldest(rows, held, excess) :: row in rows
    ensures forall row | row in rows && row.id in held :: row in DropOldest(rows, held, excess)
  {
    DropOldestOnlyDrops(rows, held, excess);
    DropOldestKeepsHeld(rows, held, excess);
    DropOldestKeepsOrder(rows, held, excess);
  }

  lemma {:induction false} RecentKeeps(rows: Rows, cutoff: int, held: set<nat>)
    ensures |Recent(rows, cutoff, held)| <= |rows|
    ensures InIdOrder(rows) ==> InIdOrder(Recent(rows, cutoff, held))
    ensures forall row ::
      row in Recent(rows, cutoff, held) <==> row in rows && (row.timestamp >= cutoff || row.id in held)
  {
    if rows != [] {
      RecentKeeps(rows[1..], cutoff, held);
    }
  }

  /** The overflow rule stops early only with the excess gone, and otherwise
      has dropped every row it may. */
  lemma OverflowOutcome(rows: Rows, held: set<nat>, excess: int)
    requires InIdOrder(rows)
    ensures || SumBytes(DropOldest(rows, held, excess)) <= SumBytes(rows) - excess
            || forall row | row in DropOldest(rows, held, excess) :: row.id in held
    ensures |DropOldest(rows, held, excess)| <= |rows|
    ensures excess <= 0 ==> DropOldest(rows, held, excess) == rows
  {
    var n := DropOldestIsShortestRun(rows, held, excess);
    var picked := Unreserved(rows, held);
    if n == |picked| {
      assert picked[..n] == picked;
      WithoutUnreserved(rows, held);
    }
  }

  /** The age sweep followed by the overflow rule: order and every held row
      stay, and otherwise only recent rows. */
  lemma SweepKeeps(rows: Rows, cutoff: int, held: set<nat>, excess: int)
    requires InIdOrder(rows)
    ensures
      var left := DropOldest(Recent(rows, cutoff, held), held, excess);
      && InIdOrder(left) && |left| <= |rows|
      && (forall row | row in left :: row in rows && (row.timestamp >= cutoff || row.id in held))
      && (forall row | row in rows && row.id in held :: row in left)
  {
    RecentKeeps(rows, cutoff, held);
    DropOldestKeeps(Recent(rows, cutoff, held), held, excess);
    OverflowOutcome(Recent(rows, cutoff, held), held, excess);
  }

  /** What a prune leaves of the records; every row it removes is counted. */
  lemma PruneRecords(s: State, limits: Limits, now: int)
    requires InIdOrder(s.records)
    ensures
      var t := Pruned(s, limits, now);
      var held := Held(t.pending);
      && InIdOrder(t.records)
      && (forall row | row in t.records :: row in s.records && (row.timestamp >= now - limits.maxAge || row.id in held))
      && (forall row | row in s.records && row.id in held :: row in t.records)
      && t.dropped - s.dropped == |s.records| - |t.records| >= 0
  {
    var t := Pruned(s, limits, now);
    var held := Held(t.pending);
    var aged := Recent(s.records, now - limits.maxAge, held);
    SweepKeeps(s.records, now - limits.maxAge, held, SumBytes(aged) + SumBytes(t.history) - limits.maxPayloadBytes);
  }

  /** What a prune leaves of the history: a recent tail, in order. */
  lemma PruneHistory(s: State, limits: Limits, now: int)
    ensures
      var t := Pruned(s, limits, now);
      var recent := Recent(s.history, now - limits.maxAge, {});
      && |t.history| <= |recent|
      && t.history == recent[|recent| - |t.history|..]
      && (forall row | row in t.history :: row in s.history && row.timestamp >= now - limits.maxAge)
  {
    var t := Pruned(s, limits, now);
    var aged := Recent(s.records, now - limits.maxAge, Held(t.pending));
    var recent := Recent(s.history, now - limits.maxAge, {});
    RecentKeeps(s.history, now - limits.maxAge, {});
    TrimHistoryIsSuffix(recent, SumBytes(aged), limits.maxPayloadBytes);
    assert forall row | row in t.history :: row in recent;
  }

  /** The retention bound: the total fits the cap unless history is gone and
      every record is reserved, and a record is dropped for size only once
      history is empty. */
  lemma PruneFits(s: State, limits: Limits, now: int)
    requires InIdOrder(s.records)
    ensures
      var t := Pruned(s, limits, now);
      var held := Held(t.pending);
      && (|| SumBytes(t.records) + SumBytes(t.history) <= limits.maxPayloadBytes
          || (t.history == [] && forall row | row in t.records :: row.id in held))
      && (t.history != [] ==> t.records == Recent(s.records, now - limits.maxAge, held))
  {
    var t := Pruned(s, limits, now);
    var cutoff := now - limits.maxAge;
    var held := Held(t.pending);
    var aged := Recent(s.records, cutoff, held);
    RecentKeeps(s.records, cutoff, held);
    var blocks := TrimHistoryIsFewestBlocks(Recent(s.history, cutoff, {}), SumBytes(aged), limits.maxPayloadBytes);
    OverflowOutcome(aged, held, SumBytes(aged) + SumBytes(t.history) - limits.maxPayloadBytes);
  }

  /** History next to `base` bytes of records lost this many blocks, each of them with
      the total above the cap; history that fits is kept whole. */
  ghost predicate LeastTrimmed(past: Rows, base: int, cap: int, left: Rows, blocks: nat) {
    && left == Skipped(past, blocks)
    && (forall b: nat | b < blocks :: base + SumBytes(Skipped(past, b)) > cap)
    && (base + SumBytes(past) <= cap ==> left == past)
  }

  /** Records next to `base` bytes of history lost this many unreserved rows from the
      oldest on, each of them with the total above the cap; records that fit are kept
      whole. */
  ghost predicate LeastDropped(swept: Rows, held: set<nat>, base: int, cap: int, left: Rows, n: nat) {
    var picked := Unreserved(swept, held);
    && n <= |picked| && left == Without(swept, ToSet(Ids(picked[..n])))
    && (forall m: nat | m < n :: SumBytes(swept) - SumBytes(picked[..m]) + base > cap)
    && (SumBytes(swept) + base <= cap ==> left == swept)
  }

  lemma TrimIsLeast(past: Rows, base: int, cap: int) returns (blocks: nat)
    ensures LeastTrimmed(past, base, cap, TrimHistory(past, base, cap), blocks)
  {
    assert Skipped(past, 0) == past;
    blocks := TrimHistoryIsFewestBlocks(past, base, cap);
  }

  lemma DropIsLeast(swept: Rows, held: set<nat>, base: int, cap: int) returns (n: nat)
    requires InIdOrder(swept)
    ensures LeastDropped(swept, held, base, cap, DropOldest(swept, held, SumBytes(swept) + base - cap), n)
  {
    n := DropOldestIsShortestRun(swept, held, SumBytes(swept) + base - cap);
    OverflowOutcome(swept, held, SumBytes(swept) + base - cap);
  }

  lemma PassesAreLeast(past: Rows, swept: Rows, held: set<nat>, cap: int, history: Rows, records: Rows)
    returns (blocks: nat, n: nat)
    requires InIdOrder(swept)
    requires history == TrimHistory(past, SumBytes(swept), cap)
    requires records == DropOldest(swept, held, SumBytes(swept) + SumBytes(history) - cap)
    ensures LeastTrimmed(past, SumBytes(swept), cap, history, blocks)
    ensures LeastDropped(swept, held, SumBytes(history), cap, records, n)
  {
    blocks := TrimIsLeast(past, SumBytes(swept), cap);
    n := DropIsLeast(swept, held, SumBytes(history), cap);
  }

  /** Retention takes no more than it must. With the age sweep done, history loses
      only as many blocks, and then the records only as many unreserved rows from the
      oldest on, as leave the total above the cap; what fits the cap is kept whole. */
  lemma PruneIsLeast(s: State, limits: Limits, now: int) returns (blocks: nat, n: nat)
    requires InIdOrder(s.records)
    ensures
      var t, cutoff, cap := Pruned(s, limits, now), now - limits.maxAge, limits.maxPayloadBytes;
      var held := Held(t.pending);
      var swept, past := Recent(s.records, cutoff, held), Recent(s.history, cutoff, {});
      && LeastTrimmed(past, SumBytes(swept), cap, t.history, blocks)
      && LeastDropped(swept, held, SumBytes(t.history), cap, t.records, n)
  {
    var t, cutoff, cap := Pruned(s, limits, now), now - limits.maxAge, limits.maxPayloadBytes;
    var held := Held(t.pending);
    var swept := Recent(s.records, cutoff, held);
    assert InIdOrder(swept) by {
      RecentKeeps(s.records, cutoff, held);
    }
    blocks, n := PassesAreLeast(Recent(s.history, cutoff, {}), swept, held, cap, t.history, t.records);
  }

  lemma {:induction false} AllRecent(rows: Rows, cutoff: int, held: set<nat>)
    requires forall row | row in rows :: row.timestamp >= cutoff
    ensures Recent(rows, cutoff, held) == rows
  {
    if rows != [] {
      assert rows[0] in rows;
      AllRecent(rows[1..], cutoff, held);
    }
  }

  /** Nothing to retire: every row recent, no reservation expired, all within the cap. */
  ghost predicate WithinRetention(s: State, limits: Limits, now: int) {
    && (forall row | row in s.records :: row.timestamp >= now - limits.maxAge)
    && (forall row | row in s.history :: row.timestamp >= now - limits.maxAge)
    && (forall r | r in s.pending :: r.createdAt >= now - limits.maxAge)
    && SumBytes(s.records) + SumBytes(s.history) <= limits.maxPayloadBytes
  }

  lemma {:induction false} AllUnexpired(pending: seq<Reservation>, cutoff: int)
    requires forall r | r in pending :: r.createdAt >= cutoff
    ensures Unexpired(pending, cutoff) == pending
  {
    if pending != [] {
      assert pending[0] in pending;
      AllUnexpired(pending[1..], cutoff);
    }
  }

  /** Then a prune changes nothing. */
  lemma PruneKeepsWhatFits(s: State, limits: Limits, now: int)
    requires InIdOrder(s.records) && WithinRetention(s, limits, now)
    ensures Pruned(s, limits, now) == s
  {
    var cutoff := now - limits.maxAge;
    AllUnexpired(s.pending, cutoff);
    AllRecent(s.records, cutoff, Held(s.pending));
    AllRecent(s.history, cutoff, {});
    var _ := TrimIsLeast(s.history, SumBytes(s.records), limits.maxPayloadBytes);
    var _ := DropIsLeast(s.records, Held(s.pending), SumBytes(s.history), limits.maxPayloadBytes);
  }

  lemma WithoutUnreserved(rows: Rows, held: set<nat>)
    ensures forall row | row in Without(rows, ToSet(Ids(Unreserved(rows, held)))) :: row.id in held
  {
    var ids := ToSet(Ids(Unreserved(rows, held)));
    UnreservedMembers(rows, held);
    IdsAt(Unreserved(rows, held));
    WithoutMembers(rows, ids);
    forall row | row in rows && row.id !in held ensures row.id in ids {
      var i :| 0 <= i < |Unreserved(rows, held)| && Unreserved(rows, held)[i] == row;
      assert Ids(Unreserved(rows, held))[i] == row.id;
    }
  }

  lemma {:induction false} WithoutMembers(rows: Rows, ids: set<nat>)
    ensures forall row :: row in Without(rows, ids) <==> row in rows && row.id !in ids
    ensures forall row :: row in Among(rows, ids) <==> row in rows && row.id in ids
    ensures InIdOrder(rows) ==> InIdOrder(Without(rows, ids)) && InIdOrder(Among(rows, ids))
  {
    if rows != [] {
      WithoutMembers(rows[1..], ids);
    }
  }
}
