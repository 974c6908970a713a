/** The durable data-budget ledger and the speed test that charges it
    (internal/state/store.go, internal/service/service.go). */
module DataBudget {
  import opened Arithmetic
  import opened Claims
  import opened PurgeStore
  import opened TestBytes
  import opened Wrappers

  const DAY: int := 86400

  /** Calendar day of an instant, on a fixed-offset clock in seconds. */
  function DayOf(at: int): int {
    at / DAY
  }

  /** The calendar month of a day; any grouping of days into months. */
  type Calendar = int -> int

  ghost predicate Monotone(month: Calendar) {
    forall a, b {:trigger month(a), month(b)} :: a <= b ==> month(a) <= month(b)
  }

  datatype Ledger = Ledger(day: Option<int>, dayBytes: nat, month: Option<int>, monthBytes: nat)

  datatype Limits = Limits(daily: nat, monthly: nat)

  function DayLeft(l: Ledger, at: int, limits: Limits): nat {
    if l.day != Some(DayOf(at)) then limits.daily
    else if l.dayBytes >= limits.daily then 0 else limits.daily - l.dayBytes
  }

  function MonthLeft(l: Ledger, at: int, month: Calendar, limits: Limits): nat {
    if l.month != Some(month(DayOf(at))) then limits.monthly
    else if l.monthBytes >= limits.monthly then 0 else limits.monthly - l.monthBytes
  }

  function Left(l: Ledger, at: int, month: Calendar, limits: Limits): nat {
    Min(DayLeft(l, at, limits), MonthLeft(l, at, month, limits))
  }

  /** rollBudgets: a new day or month starts from zero. */
  function Rolled(l: Ledger, at: int, month: Calendar): Ledger {
    var day, m := Some(DayOf(at)), Some(month(DayOf(at)));
    Ledger(day, if l.day == day then l.dayBytes else 0, m, if l.month == m then l.monthBytes else 0)
  }

  function Charged(l: Ledger, at: int, bytes: nat, month: Calendar): Ledger {
    var r := Rolled(l, at, month);
    r.(dayBytes := r.dayBytes + bytes, monthBytes := r.monthBytes + bytes)
  }

  function Refunded(l: Ledger, at: int, reserved: nat, used: nat, month: Calendar): Ledger {
    var refund := reserved - Min(used, reserved);
    l.(dayBytes := if l.day == Some(DayOf(at)) then l.dayBytes - Min(refund, l.dayBytes) else l.dayBytes,
       monthBytes :=
         if l.month == Some(month(DayOf(at))) then l.monthBytes - Min(refund, l.monthBytes) else l.monthBytes)
  }

  // ---- the ledger as a record of tests ---------------------------------------

  /** A test that reserved bytes, the bytes it reported and those it moved besides
      without reporting them. While it runs its whole reservation counts as
      reported, and what it hides is known when it ends. A settled test was
      reconciled. */
  datatype Test = Test(at: int, reserved: nat, used: nat, hidden: nat, settled: bool) {
    /** A figure of a test: what the ledger charges (the bytes reported once
        settled, else everything reserved), what it reported, or what it hid. */
    function Bytes(figure: Figure): nat {
      match figure
      case Owed => if settled then used else reserved
      case Reported => used
      case Hidden => hidden
    }
  }

  datatype Figure = Owed | Reported | Hidden

  function DayTotal(tests: seq<Test>, day: int, figure: Figure): nat {
    if tests == [] then 0
    else
      var last := tests[|tests| - 1];
      DayTotal(tests[..|tests| - 1], day, figure) + (if DayOf(last.at) == day then last.Bytes(figure) else 0)
  }

  function MonthTotal(tests: seq<Test>, m: int, month: Calendar, figure: Figure): nat {
    if tests == [] then 0
    else
      var last := tests[|tests| - 1];
      MonthTotal(tests[..|tests| - 1], m, month, figure)
      + (if month(DayOf(last.at)) == m then last.Bytes(figure) else 0)
  }

  /** Every byte that the tests of a day moved. */
  function DayMoved(tests: seq<Test>, day: int): nat {
    DayTotal(tests, day, Reported) + DayTotal(tests, day, Hidden)
  }

  function MonthMoved(tests: seq<Test>, m: int, month: Calendar): nat {
    MonthTotal(tests, m, month, Reported) + MonthTotal(tests, m, month, Hidden)
  }

  /** The budget across a run: the ledger in the state file, with what a power
      loss may bring back, every test since the last wipe, and whether the latest
      one is still running. Memory always shows what the file shows. */
  datatype Account = Account(file: File<Ledger>, tests: seq<Test>, running: bool)

  /** A test that ends has moved `used + hidden` bytes and reported `used`. */
  datatype Op =
    | Reserve(at: int, bytes: nat, limits: Limits, overdraw: bool, write: Write)
    | Reconcile(used: nat, hidden: nat, write: Write)
    | Interrupted(used: nat, hidden: nat)
    | PowerLoss(used: nat, hidden: nat, image: Ledger)
    | WipeLedger(write: Write)

  const NO_LEDGER := Ledger(None, 0, None, 0)
  const NO_BUDGET := Account(File(NO_LEDGER, {}), [], false)

  function Last(a: Account): Test
    requires a.tests != []
  {
    a.tests[|a.tests| - 1]
  }

  /** A running test reports no more than it reserved. */
  predicate Possible(a: Account, used: nat, hidden: nat) {
    if a.running && a.tests != [] then used <= Last(a).reserved else used == hidden == 0
  }

  predicate Allowed(a: Account, op: Op, month: Calendar) {
    match op
    case Reserve(at, bytes, limits, overdraw, _) =>
      !a.running && bytes > 0 && (overdraw || bytes <= Left(a.file.seen, at, month, limits))
    case Reconcile(used, hidden, _) => a.running && a.tests != [] && Possible(a, used, hidden)
    case Interrupted(used, hidden) => Possible(a, used, hidden)
    case PowerLoss(used, hidden, image) => Possible(a, used, hidden) && image in Images(a.file)
    case WipeLedger(_) => !a.running
  }

  /** The latest test ends. */
  function Ended(a: Account, used: nat, hidden: nat, settled: bool): seq<Test> {
    if a.running && a.tests != []
    then a.tests[..|a.tests| - 1] + [Last(a).(used := used, hidden := hidden, settled := settled)]
    else a.tests
  }

  /** A reservation whose write is not known durable charges the ledger but
      starts no test; a reconcile that is not written leaves the full
      reservation. */
  function Advance(a: Account, op: Op, month: Calendar): Account
    requires Allowed(a, op, month)
  {
    match op
    case Reserve(at, bytes, _, _, write) =>
      if write.NotReplaced? then a
      else
        var test := Test(at, bytes, if write.Durable? then bytes else 0, 0, false);
        Account(Replaced(a.file, Charged(a.file.seen, at, bytes, month), write), a.tests + [test], write.Durable?)
    case Reconcile(used, hidden, write) =>
      var last := Last(a);
      var refunded := Refunded(a.file.seen, last.at, last.reserved, used, month);
      Account(Replaced(a.file, refunded, write), Ended(a, used, hidden, !write.NotReplaced?), false)
    case Interrupted(used, hidden) => a.(tests := Ended(a, used, hidden, false), running := false)
    case PowerLoss(used, hidden, image) => Account(File(image, {}), Ended(a, used, hidden, false), false)
    case WipeLedger(write) =>
      if write.NotReplaced? then a else Account(Replaced(a.file, NO_LEDGER, write), [], false)
  }

  /** No reservation falls on a day before the latest one's. */
  predicate ClockForward(a: Account, op: Op) {
    op.Reserve? && a.tests != [] ==> DayOf(op.at) >= DayOf(Last(a).at)
  }

  ghost predicate Legal(a: Account, ops: seq<Op>, month: Calendar)
    decreases |ops|
  {
    ops == [] ||
    (Allowed(a, ops[0], month) && ClockForward(a, ops[0]) && Legal(Advance(a, ops[0], month), ops[1..], month))
  }

  function Exec(a: Account, ops: seq<Op>, month: Calendar): Account
    requires Legal(a, ops, month)
    decreases |ops|
  {
    if ops == [] then a else Exec(Advance(a, ops[0], month), ops[1..], month)
  }

  // ---- sums over tests ---------------------------------------------------------

  ghost predicate InOrder(tests: seq<Test>) {
    forall t | t in tests :: DayOf(t.at) <= DayOf(tests[|tests| - 1].at) && t.used <= t.reserved
  }

  lemma {:induction false} NothingThatDay(tests: seq<Test>, day: int, figure: Figure)
    requires forall t | t in tests :: DayOf(t.at) < day
    ensures DayTotal(tests, day, figure) == 0
  {
    if tests != [] {
      assert tests[|tests| - 1] in tests;
      NothingThatDay(tests[..|tests| - 1], day, figure);
    }
  }

  lemma {:induction false} NothingThatMonth(tests: seq<Test>, m: int, month: Calendar, figure: Figure)
    requires forall t | t in tests :: month(DayOf(t.at)) < m
    ensures MonthTotal(tests, m, month, figure) == 0
  {
    if tests != [] {
      assert tests[|tests| - 1] in tests;
      NothingThatMonth(tests[..|tests| - 1], m, month, figure);
    }
  }

  /** Tests before a later day count nothing for it, nor for a later month. */
  lemma NothingLater(tests: seq<Test>, at: int, month: Calendar, figure: Figure)
    requires Monotone(month) && InOrder(tests) && tests != [] && DayOf(tests[|tests| - 1].at) <= DayOf(at)
    ensures DayOf(at) != DayOf(tests[|tests| - 1].at) ==> DayTotal(tests, DayOf(at), figure) == 0
    ensures month(DayOf(at)) != month(DayOf(tests[|tests| - 1].at)) ==>
      MonthTotal(tests, month(DayOf(at)), month, figure) == 0
  {
    var last := tests[|tests| - 1];
    if DayOf(at) != DayOf(last.at) {
      NothingThatDay(tests, DayOf(at), figure);
    }
    if month(DayOf(at)) != month(DayOf(last.at)) {
      NothingThatMonth(tests, month(DayOf(at)), month, figure);
    }
  }

  /** Tests that hid nothing add nothing hidden to any day or month. */
  lemma {:induction false} NothingHidden(tests: seq<Test>, day: int, m: int, month: Calendar)
    requires forall t | t in tests :: t.hidden == 0
    ensures DayTotal(tests, day, Hidden) == 0 && MonthTotal(tests, m, month, Hidden) == 0
  {
    if tests != [] {
      assert tests[|tests| - 1] in tests;
      NothingHidden(tests[..|tests| - 1], day, m, month);
    }
  }

  /** And a day's total is positive as soon as one of its tests hid something. */
  lemma {:induction false} SomethingHidden(tests: seq<Test>, day: int, t: Test)
    requires t in tests && DayOf(t.at) == day && t.hidden > 0
    ensures DayTotal(tests, day, Hidden) > 0
  {
    var last := tests[|tests| - 1];
    if t != last {
      SomethingHidden(tests[..|tests| - 1], day, t);
    }
  }

  // ---- exactness -----------------------------------------------------------------

  /** The ledger equals what the recorded tests are charged for its day and its
      month, and no recorded test is later than it. */
  ghost predicate Exact(a: Account, month: Calendar) {
    var l := a.file.seen;
    && InOrder(a.tests)
    && (a.tests == [] ==> l == NO_LEDGER && !a.running)
    && (a.tests != [] ==>
          && l.day == Some(DayOf(Last(a).at)) && l.month == Some(month(DayOf(Last(a).at)))
          && l.dayBytes == DayTotal(a.tests, l.day.value, Owed)
          && l.monthBytes == MonthTotal(a.tests, l.month.value, month, Owed))
    && (a.running ==> !Last(a).settled && Last(a).used == Last(a).reserved && Last(a).hidden == 0)
  }

  lemma ReserveKeepsExact(a: Account, op: Op, month: Calendar)
    requires Monotone(month) && Exact(a, month) && op.Reserve? && Allowed(a, op, month) && ClockForward(a, op)
    ensures Exact(Advance(a, op, month), month)
  {
    if !op.write.NotReplaced? {
      var tests := Advance(a, op, month).tests;
      assert tests[..|tests| - 1] == a.tests;
      if a.tests != [] {
        NothingLater(a.tests, op.at, month, Owed);
      }
    }
  }

  /** The refund lands on the reservation's own day and month, and no clamp
      bites: what is left in both ledgers is what the test reported. */
  lemma ReconcileKeepsExact(a: Account, op: Op, month: Calendar)
    requires Exact(a, month) && op.Reconcile? && Allowed(a, op, month)
    ensures Exact(Advance(a, op, month), month)
    ensures
      var last, l := Last(a), a.file.seen;
      && l.day == Some(DayOf(last.at)) && l.month == Some(month(DayOf(last.at)))
      && last.reserved <= l.dayBytes && last.reserved <= l.monthBytes
      && (!op.write.NotReplaced? ==>
            var after := Advance(a, op, month).file.seen;
            && after.dayBytes == l.dayBytes - last.reserved + op.used
            && after.monthBytes == l.monthBytes - last.reserved + op.used)
  {
    EndedSplits(a, op.used, op.hidden, !op.write.NotReplaced?);
  }

  /** Ending a test changes only the last entry. */
  lemma EndedSplits(a: Account, used: nat, hidden: nat, settled: bool)
    requires a.running && a.tests != []
    ensures
      var init, tests := a.tests[..|a.tests| - 1], Ended(a, used, hidden, settled);
      && a.tests == init + [Last(a)] && |tests| == |a.tests| && tests[..|tests| - 1] == init
      && tests[|tests| - 1] == Last(a).(used := used, hidden := hidden, settled := settled)
      && forall t | t in tests :: t in a.tests || t == tests[|tests| - 1]
  {
  }

  lemma InterruptKeepsExact(a: Account, op: Op, month: Calendar)
    requires Exact(a, month) && op.Interrupted? && Allowed(a, op, month)
    ensures Exact(Advance(a, op, month), month)
  {
    if a.running && a.tests != [] {
      EndedSplits(a, op.used, op.hidden, false);
    }
  }

  /** With a clock that does not go back to an earlier day, after any run of
      reservations, tests, failed and unsynced writes, crashes and wipes, the day
      and month ledgers are exactly the bytes reported by reconciled tests plus the
      full reservations of the others. */
  lemma {:induction false} LedgerIsExact(a: Account, ops: seq<Op>, month: Calendar)
    requires Monotone(month) && Exact(a, month) && Legal(a, ops, month)
    requires forall i | 0 <= i < |ops| :: !ops[i].PowerLoss?
    ensures Exact(Exec(a, ops, month), month)
    decreases |ops|
  {
    if ops != [] {
      assert !ops[0].PowerLoss?;
      match ops[0] {
        case Reserve(_, _, _, _, _) => ReserveKeepsExact(a, ops[0], month);
        case Reconcile(_, _, _) => ReconcileKeepsExact(a, ops[0], month);
        case Interrupted(_, _) => InterruptKeepsExact(a, ops[0], month);
        case WipeLedger(_) =>
      }
      LedgerIsExact(Advance(a, ops[0], month), ops[1..], month);
    }
  }

  /** What the tests of the instant's day and month leave of the limits; negative once
      a day or month was overdrawn. */
  function Unspent(tests: seq<Test>, at: int, month: Calendar, limits: Limits): int {
    Min(limits.daily - DayTotal(tests, DayOf(at), Owed),
        limits.monthly - MonthTotal(tests, month(DayOf(at)), month, Owed))
  }

  /** On an exact account with the clock going forward, what is left of the limits is
      exactly what the tests of that day and of that month were not charged: a new day
      or month starts from the whole limit. */
  lemma LeftIsUnspent(a: Account, at: int, month: Calendar, limits: Limits)
    requires Monotone(month) && Exact(a, month) && (a.tests != [] ==> DayOf(at) >= DayOf(Last(a).at))
    ensures Left(a.file.seen, at, month, limits) == Max(Unspent(a.tests, at, month, limits), 0)
    ensures Rolled(a.file.seen, at, month).dayBytes == DayTotal(a.tests, DayOf(at), Owed)
    ensures Rolled(a.file.seen, at, month).monthBytes == MonthTotal(a.tests, month(DayOf(at)), month, Owed)
  {
    if a.tests != [] {
      NothingLater(a.tests, at, month, Owed);
    }
  }

  /** The tests of the day and of the month leave room for these bytes. */
  predicate HasRoom(tests: seq<Test>, at: int, bytes: nat, month: Calendar, limits: Limits) {
    && DayTotal(tests, DayOf(at), Owed) + bytes <= limits.daily
    && MonthTotal(tests, month(DayOf(at)), month, Owed) + bytes <= limits.monthly
  }

  /** The account is exact and the clock has not gone back to an earlier day. */
  ghost predicate Current(a: Account, at: int, month: Calendar) {
    Monotone(month) && Exact(a, month) && (a.tests != [] ==> DayOf(at) >= DayOf(Last(a).at))
  }

  /** So a reservation that may not overdraw is accepted exactly if the day's and the
      month's tests leave room for it. */
  lemma AcceptedExactly(a: Account, at: int, bytes: nat, month: Calendar, limits: Limits)
    ensures Current(a, at, month) && bytes > 0 ==>
      (bytes <= Left(a.file.seen, at, month, limits) <==> HasRoom(a.tests, at, bytes, month, limits))
  {
    if Current(a, at, month) {
      LeftIsUnspent(a, at, month, limits);
    }
  }

  lemma {:induction false} SettledOwe(tests: seq<Test>, day: int)
    requires forall t | t in tests && DayOf(t.at) == day :: t.settled
    ensures DayTotal(tests, day, Owed) == DayTotal(tests, day, Reported)
  {
    if tests != [] {
      assert tests[|tests| - 1] in tests;
      SettledOwe(tests[..|tests| - 1], day);
    }
  }

  /** On a day whose tests were all reconciled an exact ledger misses exactly what
      they hid, so it holds the bytes moved if and only if none hid any. */
  lemma LedgerMissesTheHidden(a: Account, month: Calendar)
    requires Exact(a, month) && a.tests != []
    requires forall t | t in a.tests && DayOf(t.at) == DayOf(Last(a).at) :: t.settled
    ensures
      var day := DayOf(Last(a).at);
      && a.file.seen.dayBytes + DayTotal(a.tests, day, Hidden) == DayMoved(a.tests, day)
      && (a.file.seen.dayBytes == DayMoved(a.tests, day)
          <==> forall t | t in a.tests && DayOf(t.at) == day :: t.hidden == 0)
  {
    var day := DayOf(Last(a).at);
    SettledOwe(a.tests, day);
    if t :| t in a.tests && DayOf(t.at) == day && t.hidden > 0 {
      SomethingHidden(a.tests, day, t);
    } else {
      NothingHiddenThatDay(a.tests, day);
    }
  }

  lemma {:induction false} NothingHiddenThatDay(tests: seq<Test>, day: int)
    requires forall t | t in tests && DayOf(t.at) == day :: t.hidden == 0
    ensures DayTotal(tests, day, Hidden) == 0
  {
    if tests != [] {
      assert tests[|tests| - 1] in tests;
      NothingHiddenThatDay(tests[..|tests| - 1], day);
    }
  }

  // ---- no reported byte is forgotten ---------------------------------------------------

  function DayCount(l: Ledger, day: int): nat {
    if l.day == Some(day) then l.dayBytes else 0
  }

  function MonthCount(l: Ledger, m: int): nat {
    if l.month == Some(m) then l.monthBytes else 0
  }

  /** A ledger counts at least what was reported in the day and the month of the
      latest test. */
  ghost predicate Covers(l: Ledger, tests: seq<Test>, month: Calendar) {
    tests != [] ==>
      var day := DayOf(tests[|tests| - 1].at);
      && DayTotal(tests, day, Reported) <= DayCount(l, day)
      && MonthTotal(tests, month(day), month, Reported) <= MonthCount(l, month(day))
  }

  /** So does every ledger that a power loss may bring back. */
  ghost predicate Covered(a: Account, month: Calendar) {
    && InOrder(a.tests)
    && (forall image | image in Images(a.file) :: Covers(image, a.tests, month))
    && (a.running ==>
          && a.tests != [] && Last(a).used == Last(a).reserved > 0 && Last(a).hidden == 0
          && a.file.stale == {})
  }

  lemma ChargedCovers(l: Ledger, tests: seq<Test>, test: Test, month: Calendar)
    requires Monotone(month) && InOrder(tests) && Covers(l, tests, month)
    requires tests != [] ==> DayOf(tests[|tests| - 1].at) <= DayOf(test.at)
    requires test.used <= test.reserved
    ensures Covers(Charged(l, test.at, test.reserved, month), tests + [test], month)
    ensures test.used == 0 ==> Covers(l, tests + [test], month)
    ensures InOrder(tests + [test])
  {
    assert (tests + [test])[..|tests|] == tests;
    if tests != [] {
      NothingLater(tests, test.at, month, Reported);
    }
  }

  lemma ReserveKeepsCovered(a: Account, op: Op, month: Calendar)
    requires Monotone(month) && Covered(a, month) && op.Reserve? && Allowed(a, op, month) && ClockForward(a, op)
    ensures Covered(Advance(a, op, month), month)
  {
    if !op.write.NotReplaced? {
      var b := Advance(a, op, month);
      var test := Last(b);
      assert b.tests == a.tests + [test] && a.file.seen in Images(a.file);
      forall image | image in Images(b.file) ensures Covers(image, b.tests, month) {
        if image == Charged(a.file.seen, op.at, op.bytes, month) {
          ChargedCovers(a.file.seen, a.tests, test, month);
        } else {
          ChargedCovers(image, a.tests, test, month);
        }
      }
      ChargedCovers(a.file.seen, a.tests, test, month);
    }
  }

  /** A test that ends with no more bytes reported than it counted for stays
      covered. */
  lemma EndedCovers(l: Ledger, a: Account, used: nat, hidden: nat, settled: bool, month: Calendar)
    requires InOrder(a.tests) && Covers(l, a.tests, month) && Possible(a, used, hidden)
    requires a.running ==> a.tests != [] && Last(a).used == Last(a).reserved
    ensures Covers(l, Ended(a, used, hidden, settled), month) && InOrder(Ended(a, used, hidden, settled))
  {
    if a.running {
      EndedSplits(a, used, hidden, settled);
    }
  }

  lemma ReconcileKeepsCovered(a: Account, op: Op, month: Calendar)
    requires Covered(a, month) && op.Reconcile? && Allowed(a, op, month)
    ensures Covered(Advance(a, op, month), month)
  {
    var b, settled := Advance(a, op, month), !op.write.NotReplaced?;
    var refunded := Refunded(a.file.seen, Last(a).at, Last(a).reserved, op.used, month);
    assert a.file.seen in Images(a.file);
    EndedSplits(a, op.used, op.hidden, settled);
    EndedCovers(a.file.seen, a, op.used, op.hidden, settled, month);
    forall image | image in Images(b.file) ensures Covers(image, b.tests, month) {
      assert image == refunded || image == a.file.seen;
    }
  }

  lemma EndKeepsCovered(a: Account, op: Op, month: Calendar)
    requires Covered(a, month) && (op.Interrupted? || op.PowerLoss?) && Allowed(a, op, month)
    ensures Covered(Advance(a, op, month), month)
  {
    forall image | image in Images(a.file) ensures Covers(image, Advance(a, op, month).tests, month) {
      EndedCovers(image, a, op.used, op.hidden, false, month);
    }
    EndedCovers(a.file.seen, a, op.used, op.hidden, false, month);
  }

  lemma StepKeepsCovered(a: Account, op: Op, month: Calendar)
    requires Monotone(month) && Covered(a, month) && Allowed(a, op, month) && ClockForward(a, op)
    ensures Covered(Advance(a, op, month), month)
  {
    match op {
      case Reserve(_, _, _, _, _) => ReserveKeepsCovered(a, op, month);
      case Reconcile(_, _, _) => ReconcileKeepsCovered(a, op, month);
      case Interrupted(_, _) => EndKeepsCovered(a, op, month);
      case PowerLoss(_, _, _) => EndKeepsCovered(a, op, month);
      case WipeLedger(_) =>
    }
  }

  /** Power losses included, whatever unsynced writes they undo, no ledger that
      can be in memory or come back undercounts the bytes reported in the current
      day or month. */
  lemma {:induction false} ReportedBytesAreNeverForgotten(a: Account, ops: seq<Op>, month: Calendar)
    requires Monotone(month) && Covered(a, month) && Legal(a, ops, month)
    ensures Covered(Exec(a, ops, month), month)
    decreases |ops|
  {
    if ops != [] {
      StepKeepsCovered(a, ops[0], month);
      ReportedBytesAreNeverForgotten(Advance(a, ops[0], month), ops[1..], month);
    }
  }

  predicate Hides(op: Op) {
    (op.Reconcile? || op.Interrupted? || op.PowerLoss?) && op.hidden > 0
  }

  ghost predicate HidNothing(a: Account) {
    forall t | t in a.tests :: t.hidden == 0
  }

  lemma StepHidesNothing(a: Account, op: Op, month: Calendar)
    requires HidNothing(a) && Allowed(a, op, month) && !Hides(op)
    ensures HidNothing(Advance(a, op, month))
  {
    if (op.Reconcile? || op.Interrupted? || op.PowerLoss?) && a.running && a.tests != [] {
      EndedSplits(a, op.used, op.hidden, op.Reconcile? && !op.write.NotReplaced?);
    }
  }

  lemma {:induction false} RunHidesNothing(a: Account, ops: seq<Op>, month: Calendar)
    requires HidNothing(a) && Legal(a, ops, month)
    requires forall i | 0 <= i < |ops| :: !Hides(ops[i])
    ensures HidNothing(Exec(a, ops, month))
    decreases |ops|
  {
    if ops != [] {
      StepHidesNothing(a, ops[0], month);
      RunHidesNothing(Advance(a, ops[0], month), ops[1..], month);
    }
  }

  /** So as long as no test hid any, no such ledger undercounts the bytes moved. */
  lemma MovedBytesAreNeverForgotten(a: Account, ops: seq<Op>, month: Calendar)
    requires Monotone(month) && Covered(a, month) && HidNothing(a) && Legal(a, ops, month)
    requires forall i | 0 <= i < |ops| :: !Hides(ops[i])
    ensures
      var end := Exec(a, ops, month);
      end.tests != [] ==>
        var day := DayOf(Last(end).at);
        forall image | image in Images(end.file) ::
          && DayMoved(end.tests, day) <= DayCount(image, day)
          && MonthMoved(end.tests, month(day), month) <= MonthCount(image, month(day))
  {
    var end := Exec(a, ops, month);
    ReportedBytesAreNeverForgotten(a, ops, month);
    RunHidesNothing(a, ops, month);
    if end.tests != [] {
      var day := DayOf(Last(end).at);
      NothingHidden(end.tests, day, month(day), month);
      forall image | image in Images(end.file)
        ensures
          && DayMoved(end.tests, day) <= DayCount(image, day)
          && MonthMoved(end.tests, month(day), month) <= MonthCount(image, month(day))
      {
        assert Covers(image, end.tests, month);
      }
    }
  }

  // ---- limits ----------------------------------------------------------------------------

  predicate Fits(l: Ledger, limits: Limits) {
    l.dayBytes <= limits.daily && l.monthBytes <= limits.monthly
  }

  /** Every possible ledger is within the limits, and so are the bytes reported on
      any day and in any month. */
  ghost predicate WithinLimits(a: Account, month: Calendar, limits: Limits) {
    && (forall image | image in Images(a.file) :: Fits(image, limits))
    && (forall day :: DayTotal(a.tests, day, Reported) <= limits.daily)
    && (forall m :: MonthTotal(a.tests, m, month, Reported) <= limits.monthly)
  }

  lemma {:induction false} ReportedOnlyShrinks(a: Account, used: nat, hidden: nat, settled: bool, month: Calendar)
    requires Possible(a, used, hidden) && (a.running ==> a.tests != [] && Last(a).used == Last(a).reserved)
    ensures forall day ::
      DayTotal(Ended(a, used, hidden, settled), day, Reported) <= DayTotal(a.tests, day, Reported)
    ensures forall m ::
      MonthTotal(Ended(a, used, hidden, settled), m, month, Reported) <= MonthTotal(a.tests, m, month, Reported)
  {
    if a.running {
      EndedSplits(a, used, hidden, settled);
    }
  }

  lemma ReserveKeepsLimits(a: Account, op: Op, month: Calendar, limits: Limits)
    requires Monotone(month) && Covered(a, month) && WithinLimits(a, month, limits)
    requires op.Reserve? && Allowed(a, op, month) && ClockForward(a, op)
    requires op.limits == limits && !op.overdraw
    ensures WithinLimits(Advance(a, op, month), month, limits)
  {
    if !op.write.NotReplaced? {
      var b := Advance(a, op, month);
      assert b.tests[..|b.tests| - 1] == a.tests;
      ReserveKeepsCovered(a, op, month);
      assert b.file.seen in Images(b.file) && a.file.seen in Images(a.file);
      assert Covers(b.file.seen, b.tests, month) && Fits(b.file.seen, limits);
      forall image | image in Images(b.file) ensures Fits(image, limits) {
        assert image == b.file.seen || image in Images(a.file);
      }
      forall m ensures MonthTotal(b.tests, m, month, Reported) <= limits.monthly {
        assert MonthTotal(a.tests, m, month, Reported) <= limits.monthly;
      }
    }
  }

  lemma EndKeepsLimits(a: Account, op: Op, month: Calendar, limits: Limits)
    requires Covered(a, month) && WithinLimits(a, month, limits) && !op.Reserve? && Allowed(a, op, month)
    ensures WithinLimits(Advance(a, op, month), month, limits)
  {
    if !op.WipeLedger? {
      var b := Advance(a, op, month);
      assert a.file.seen in Images(a.file);
      ReportedOnlyShrinks(a, op.used, op.hidden, op.Reconcile? && !op.write.NotReplaced?, month);
      forall image | image in Images(b.file) ensures Fits(image, limits) {
        assert image in Images(a.file) || (op.Reconcile? && image == b.file.seen);
      }
    }
  }

  /** Scheduled tests alone never take a ledger past a constant limit, nor report
      more than it in any day or month, through failed writes and power losses. */
  lemma {:induction false} ScheduledTestsRespectLimits(a: Account, ops: seq<Op>, month: Calendar, limits: Limits)
    requires Monotone(month) && Covered(a, month) && Legal(a, ops, month) && WithinLimits(a, month, limits)
    requires forall i | 0 <= i < |ops| && ops[i].Reserve? :: ops[i].limits == limits && !ops[i].overdraw
    ensures WithinLimits(Exec(a, ops, month), month, limits)
    decreases |ops|
  {
    if ops != [] {
      StepKeepsCovered(a, ops[0], month);
      if ops[0].Reserve? {
        ReserveKeepsLimits(a, ops[0], month, limits);
      } else {
        EndKeepsLimits(a, ops[0], month, limits);
      }
      ScheduledTestsRespectLimits(Advance(a, ops[0], month), ops[1..], month, limits);
    }
  }

  /** Nor do they move more than it, as long as none hides any. */
  lemma MovedBytesRespectLimits(a: Account, ops: seq<Op>, month: Calendar, limits: Limits, day: int, m: int)
    requires Monotone(month) && Covered(a, month) && Legal(a, ops, month) && WithinLimits(a, month, limits)
    requires forall i | 0 <= i < |ops| && ops[i].Reserve? :: ops[i].limits == limits && !ops[i].overdraw
    requires HidNothing(a) && forall i | 0 <= i < |ops| :: !Hides(ops[i])
    ensures DayMoved(Exec(a, ops, month).tests, day) <= limits.daily
    ensures MonthMoved(Exec(a, ops, month).tests, m, month) <= limits.monthly
  {
    ScheduledTestsRespectLimits(a, ops, month, limits);
    RunHidesNothing(a, ops, month);
    NothingHidden(Exec(a, ops, month).tests, day, m, month);
  }

  /** The clock condition is needed at every step back to an earlier day: whatever
      the ledger counted for its day is forgotten once a test is charged to the
      earlier day, so after one more reservation on the first day the ledger counts
      less than that day's tests are charged. No write fails. */
  lemma ClockBackForgets(a: Account, back: int, first: nat, second: nat, month: Calendar, limits: Limits)
    requires Exact(a, month) && a.tests != [] && a.file.seen.dayBytes > 0
    requires !a.running && first > 0 && second > 0 && DayOf(back) < DayOf(Last(a).at)
    ensures
      var at := Last(a).at;
      var reserve, reconcile := Reserve(back, first, limits, true, Durable), Reconcile(first, 0, Durable);
      && Allowed(a, reserve, month) && Allowed(Advance(a, reserve, month), reconcile, month)
      && var b := Advance(Advance(a, reserve, month), reconcile, month);
         var again := Reserve(at, second, limits, true, Durable);
         && Allowed(b, again, month) && DayLeft(b.file.seen, at, limits) == limits.daily
         && var c := Advance(b, again, month);
            c.file.seen.day == Some(DayOf(at)) && c.file.seen.dayBytes < DayTotal(c.tests, DayOf(at), Owed)
  {
    var day := DayOf(Last(a).at);
    var started := Advance(a, Reserve(back, first, limits, true, Durable), month);
    var b := Advance(started, Reconcile(first, 0, Durable), month);
    var c := Advance(b, Reserve(Last(a).at, second, limits, true, Durable), month);
    EndedSplits(started, first, 0, true);
    assert started.tests[..|a.tests|] == a.tests && c.tests[..|b.tests|] == b.tests;
    assert b.tests[..|a.tests|] == a.tests;
    assert DayTotal(b.tests, day, Owed) == DayTotal(a.tests, day, Owed);
  }

  // ---- the store and the test that charges it -----------------------------------

  /** What a test meets on the network: a household scenario's instances and
      probes, or the native runner's phases. */
  datatype Traffic =
    | Household(units: Load, replies: Load)
    | Native(conditions: Conditions)
  {
    ghost predicate Possible() {
      match this
      case Household(units, replies) => Realistic(units, Units) && Realistic(replies, Replies)
      case Native(conditions) => conditions.Possible()
    }
  }

  /** The profile of a test whose split succeeded. */
  function Effective(p: Profile, split: (nat, nat)): Profile {
    p.(maxDownload := split.0, maxUpload := split.1)
  }

  /** The bytes that a test of a split reports. */
  ghost function Reports(p: Profile, split: (nat, nat), traffic: Traffic): nat
    requires Runnable(Effective(p, split)) && traffic.Possible()
  {
    match traffic
    case Household(units, replies) =>
      var cap := split.0 + split.1;
      Ran(units, Units, LedgerCapacity(cap)).spent + Ran(replies, Replies, ProbeReserve(cap)).spent
    case Native(c) =>
      var e := Effective(p, split);
      var t := TestBytes.Reports(c, OffersOf(e, c));
      t.download + t.upload
  }

  /** The bytes that it moves. */
  ghost function Moves(p: Profile, split: (nat, nat), traffic: Traffic): nat
    requires Runnable(Effective(p, split)) && traffic.Possible()
  {
    match traffic
    case Household(units, replies) =>
      var cap := split.0 + split.1;
      Moved(Ran(units, Units, LedgerCapacity(cap))) + Moved(Ran(replies, Replies, ProbeReserve(cap)))
    case Native(c) =>
      var e := Effective(p, split);
      var t := TestBytes.Moves(e, c, OffersOf(e, c));
      t.download + t.upload
  }

  /** No household unit and no upload warm-up that had sent bytes is answered
      outside 2xx, and no body trails. */
  ghost predicate TrafficSeen(p: Profile, split: (nat, nat), traffic: Traffic)
    requires Runnable(Effective(p, split)) && traffic.Possible()
  {
    match traffic
    case Household(units, _) => LoadSeen(units, Units, LedgerCapacity(split.0 + split.1))
    case Native(c) => var e := Effective(p, split); RunSeen(e, c, OffersOf(e, c))
  }

  /** What a test reports stays within its split. It is at most what the test
      moved, and equal to it exactly if nothing was hidden. */
  lemma TestCounts(p: Profile, split: (nat, nat), traffic: Traffic)
    requires Runnable(Effective(p, split)) && traffic.Possible()
    ensures Reports(p, split, traffic) <= split.0 + split.1
    ensures Reports(p, split, traffic) <= Moves(p, split, traffic)
    ensures Reports(p, split, traffic) == Moves(p, split, traffic) <==> TrafficSeen(p, split, traffic)
  {
    match traffic {
      case Household(units, replies) =>
        var cap := split.0 + split.1;
        HouseholdStaysWithinCap(cap, units(LedgerCapacity(cap)), replies(ProbeReserve(cap)));
      case Native(c) =>
        RunCounts(Effective(p, split), c);
    }
  }

  /** The bytes reported and hidden by a whole test: none if the split fails. */
  ghost function Outcome(p: Profile, left: nat, traffic: Traffic): (r: (nat, nat))
    requires p.Normalised() && traffic.Possible()
  {
    SplitStaysWithinRequest(p, left);
    match Split(p, left)
    case None => (0, 0)
    case Some(split) =>
      TestCounts(p, split, traffic);
      (Reports(p, split, traffic), Moves(p, split, traffic) - Reports(p, split, traffic))
  }

  /** A whole test reports within its reservation, and hides nothing exactly if no
      split was found or its traffic was all seen. */
  lemma OutcomeFits(p: Profile, left: nat, traffic: Traffic)
    requires p.Normalised() && traffic.Possible()
    ensures Outcome(p, left, traffic).0 <= Min(p.maxDownload + p.maxUpload, left)
    ensures Split(p, left).Some? ==> Runnable(Effective(p, Split(p, left).value))
    ensures Outcome(p, left, traffic).1 == 0 <==>
      (Split(p, left).None? || TrafficSeen(p, Split(p, left).value, traffic))
  {
    SplitStaysWithinRequest(p, left);
    if Split(p, left).Some? {
      TestCounts(p, Split(p, left).value, traffic);
    }
  }

  /** A load that moves this much on every budget that funds one frame, and reports
      nothing. */
  ghost predicate Unreported(load: Load, use: Use, frame: nat, moved: nat) {
    && Realistic(load, use)
    && forall capacity: nat | frame <= capacity ::
        Ran(load, use, capacity).spent == 0 && Moved(Ran(load, use, capacity)) == moved
  }

  function RefusedCalls(frame: nat, count: nat): Load {
    (capacity: nat) => if frame <= capacity then Refused(frame, count) else Idle(capacity)
  }

  ghost predicate CallsFare(plan: Plan, capacity: nat, frame: nat, count: nat) {
    && Plays(plan, Units, capacity)
    && (frame <= capacity ==>
          var b := Played(plan, Units, capacity);
          b.spent == 0 && Moved(b) == count * frame)
  }

  lemma IdleRepliesAreQuiet()
    ensures Unreported(Idle, Replies, 0, 0)
  {
    forall capacity: nat ensures Plays(Idle(capacity), Replies, capacity) {
      IdleIsQuiet(Replies, capacity);
    }
    forall capacity: nat
      ensures Ran(Idle, Replies, capacity).spent == 0 && Moved(Ran(Idle, Replies, capacity)) == 0
    {
      IdleIsQuiet(Replies, capacity);
    }
  }

  lemma RefusedCallsAreUnreported(frame: nat, count: nat)
    ensures Unreported(RefusedCalls(frame, count), Units, frame, count * frame)
  {
    var load := RefusedCalls(frame, count);
    forall capacity: nat ensures CallsFare(load(capacity), capacity, frame, count) {
      if frame <= capacity {
        RefusedFramesAreFree(capacity, frame, count);
      } else {
        IdleIsQuiet(Units, capacity);
      }
    }
    forall capacity: nat ensures Plays(load(capacity), Units, capacity) {
      assert CallsFare(load(capacity), capacity, frame, count);
    }
    forall capacity: nat | frame <= capacity
      ensures Ran(load, Units, capacity).spent == 0 && Moved(Ran(load, Units, capacity)) == count * frame
    {
      assert CallsFare(load(capacity), capacity, frame, count);
    }
  }

  lemma HouseholdHides(p: Profile, left: nat, units: Load, replies: Load, frame: nat, moved: nat)
    requires p.Normalised() && Split(p, left).Some? && frame <= 512 * KIB
    requires Unreported(units, Units, frame, moved) && Unreported(replies, Replies, 0, 0)
    ensures Outcome(p, left, Household(units, replies)) == (0, moved)
  {
    SplitStaysWithinRequest(p, left);
    var (download, upload) := Split(p, left).value;
    assert frame <= LedgerCapacity(download + upload);
  }

  /** The account after a test whose writes are both durable. */
  function Tested(a: Account, at: int, reserved: nat, used: nat, hidden: nat, limits: Limits, month: Calendar): Account
    requires !a.running && 0 < reserved <= Left(a.file.seen, at, month, limits) && used <= reserved
  {
    var reserve := Reserve(at, reserved, limits, false, Durable);
    Advance(Advance(a, reserve, month), Reconcile(used, hidden, Durable), month)
  }

  lemma OneMoreMoves(tests: seq<Test>, test: Test, month: Calendar)
    ensures
      var day, moved := DayOf(test.at), test.used + test.hidden;
      && DayMoved(tests + [test], day) == DayMoved(tests, day) + moved
      && MonthMoved(tests + [test], month(day), month) == MonthMoved(tests, month(day), month) + moved
  {
    assert (tests + [test])[..|tests|] == tests;
  }

  /** A durable reservation charges the rolled ledger and starts a test. */
  lemma ReservedStarts(a: Account, at: int, reserved: nat, limits: Limits, month: Calendar)
    requires !a.running && 0 < reserved <= Left(a.file.seen, at, month, limits)
    ensures
      var b := Advance(a, Reserve(at, reserved, limits, false, Durable), month);
      && b.running && b.tests == a.tests + [Test(at, reserved, reserved, 0, false)]
      && b.file.seen.dayBytes == Rolled(a.file.seen, at, month).dayBytes + reserved
      && b.file.seen.monthBytes == Rolled(a.file.seen, at, month).monthBytes + reserved
  {
  }

  /** Such a test charges what it reported and adds to the bytes moved what it hid
      as well. */
  lemma TestCharges(
    a: Account, at: int, reserved: nat, used: nat, hidden: nat, limits: Limits, month: Calendar)
    requires Monotone(month) && Exact(a, month) && !a.running
    requires a.tests != [] ==> DayOf(at) >= DayOf(Last(a).at)
    requires 0 < reserved <= Left(a.file.seen, at, month, limits) && used <= reserved
    ensures
      var end, day := Tested(a, at, reserved, used, hidden, limits, month), DayOf(at);
      && end.file.seen.dayBytes == Rolled(a.file.seen, at, month).dayBytes + used
      && end.file.seen.monthBytes == Rolled(a.file.seen, at, month).monthBytes + used
      && DayMoved(end.tests, day) == DayMoved(a.tests, day) + used + hidden
      && MonthMoved(end.tests, month(day), month) == MonthMoved(a.tests, month(day), month) + used + hidden
  {
    var reserve, reconcile := Reserve(at, reserved, limits, false, Durable), Reconcile(used, hidden, Durable);
    var b := Advance(a, reserve, month);
    ReserveKeepsExact(a, reserve, month);
    ReservedStarts(a, at, reserved, limits, month);
    ReconcileKeepsExact(b, reconcile, month);
    var test := Test(at, reserved, used, hidden, true);
    assert Ended(b, used, hidden, true) == a.tests + [test];
    OneMoreMoves(a.tests, test, month);
  }

  /** So refused frames pass every limit and charge nothing: on every exact account
      with enough left for a profile's split there is a test that moves more than the
      daily limit and, both writes durable, leaves the ledger as it was. */
  lemma RefusedFramesEscapeTheLedger(a: Account, at: int, p: Profile, limits: Limits, month: Calendar)
    returns (traffic: Traffic, moved: nat)
    requires Monotone(month) && Exact(a, month) && !a.running
    requires a.tests != [] ==> DayOf(at) >= DayOf(Last(a).at)
    requires p.Normalised() && Split(p, Left(a.file.seen, at, month, limits)).Some?
    ensures traffic.Possible() && moved > limits.daily
    ensures Outcome(p, Left(a.file.seen, at, month, limits), traffic) == (0, moved)
    ensures
      var reserved := Min(p.maxDownload + p.maxUpload, Left(a.file.seen, at, month, limits));
      var end := Tested(a, at, reserved, 0, moved, limits, month);
      && end.file.seen.dayBytes == Rolled(a.file.seen, at, month).dayBytes
      && DayMoved(end.tests, DayOf(at)) > limits.daily
  {
    var left := Left(a.file.seen, at, month, limits);
    traffic, moved := EscapingTraffic(p, left, limits.daily);
    TestCharges(a, at, Min(p.maxDownload + p.maxUpload, left), 0, moved, limits, month);
  }

  lemma EscapingTraffic(p: Profile, left: nat, bound: nat) returns (traffic: Traffic, moved: nat)
    requires p.Normalised() && Split(p, left).Some?
    ensures traffic.Possible() && moved > bound && Outcome(p, left, traffic) == (0, moved)
  {
    moved := (bound + 1) * KIB;
    traffic := Household(RefusedCalls(KIB, bound + 1), Idle);
    RefusedCallsAreUnreported(KIB, bound + 1);
    IdleRepliesAreQuiet();
    HouseholdHides(p, left, RefusedCalls(KIB, bound + 1), Idle, KIB, moved);
  }

  /** Either kind of profile on the split it was given. */
  method Measured(p: Profile, split: (nat, nat), traffic: Traffic) returns (used: nat)
    requires Runnable(Effective(p, split)) && traffic.Possible()
    ensures used == Reports(p, split, traffic)
  {
    match traffic {
      case Household(units, replies) =>
        var cap := split.0 + split.1;
        used := ExecuteHousehold(cap, units(LedgerCapacity(cap)), replies(ProbeReserve(cap)));
      case Native(conditions) =>
        var t := Run(Effective(p, split), conditions);
        used := t.download + t.upload;
    }
  }

  /** RunTest: nothing when the split is too small, otherwise the bytes that the
      test reports. */
  method Transferred(p: Profile, left: nat, traffic: Traffic) returns (used: nat)
    requires p.Normalised() && traffic.Possible()
    ensures used == Outcome(p, left, traffic).0 <= Min(p.maxDownload + p.maxUpload, left)
    ensures Outcome(p, left, traffic).1 == 0 <==>
      (Split(p, left).None? || TrafficSeen(p, Split(p, left).value, traffic))
  {
    OutcomeFits(p, left, traffic);
    var split := Split(p, left);
    if split.None? { return 0; }
    used := Measured(p, split.value, traffic);
  }

  /** A reservation within what is left: a durable one starts its test, with both
      ledgers at what the earlier tests were charged and the reservation. */
  lemma ReservationCharges(a: Account, at: int, bytes: nat, limits: Limits, write: Write, month: Calendar)
    requires Monotone(month) && Exact(a, month) && !a.running
    requires a.tests != [] ==> DayOf(at) >= DayOf(Last(a).at)
    requires 0 < bytes <= Left(a.file.seen, at, month, limits)
    ensures
      var b := Advance(a, Reserve(at, bytes, limits, false, write), month);
      && Exact(b, month) && b.running == write.Durable?
      && (write.Durable? ==>
            && b.tests == a.tests + [Test(at, bytes, bytes, 0, false)]
            && b.file.seen.dayBytes == DayTotal(a.tests, DayOf(at), Owed) + bytes
            && b.file.seen.monthBytes == MonthTotal(a.tests, month(DayOf(at)), month, Owed) + bytes)
  {
    LeftIsUnspent(a, at, month, limits);
    ReserveKeepsExact(a, Reserve(at, bytes, limits, false, write), month);
  }

  /** RunTest with what the test hid, which is known to the model only. */
  method RunTest(p: Profile, left: nat, traffic: Traffic) returns (used: nat, ghost hidden: nat)
    requires p.Normalised() && traffic.Possible()
    ensures (used, hidden) == Outcome(p, left, traffic) && used <= Min(p.maxDownload + p.maxUpload, left)
  {
    used := Transferred(p, left, traffic);
    hidden := Outcome(p, left, traffic).1;
  }

  class Budgets {
    var ledger: Ledger
    ghost var stale: set<Ledger>
    ghost var tests: seq<Test>
    ghost var running: bool
    const month: Calendar

    ghost function View(): Account
      reads this
    {
      Account(File(ledger, stale), tests, running)
    }

    constructor (month: Calendar)
      ensures View() == NO_BUDGET && this.month == month
    {
      ledger, stale, tests, running := Ledger(None, 0, None, 0), {}, [], false;
      this.month := month;
    }

    method ReserveSpeedTestBytes(at: int, bytes: nat, limits: Limits, overdraw: bool, write: Write) returns (ok: bool)
      requires !running
      modifies this
      ensures
        var op := Reserve(at, bytes, limits, overdraw, write);
        View() == if Allowed(old(View()), op, month) then Advance(old(View()), op, month) else old(View())
      ensures ok <==> bytes > 0 && (overdraw || bytes <= Left(old(ledger), at, month, limits)) && write.Durable?
      ensures old(Current(View(), at, month)) ==>
        (ok <==> bytes > 0 && (overdraw || HasRoom(old(tests), at, bytes, month, limits)) && write.Durable?)
    {
      AcceptedExactly(View(), at, bytes, month, limits);
      ok := ReserveBytes(at, bytes, limits, overdraw, write);
    }

    method ReserveBytes(at: int, bytes: nat, limits: Limits, overdraw: bool, write: Write) returns (ok: bool)
      requires !running
      modifies this
      ensures
        var op := Reserve(at, bytes, limits, overdraw, write);
        View() == if Allowed(old(View()), op, month) then Advance(old(View()), op, month) else old(View())
      ensures ok <==> bytes > 0 && (overdraw || bytes <= Left(old(ledger), at, month, limits)) && write.Durable?
    {
      if bytes == 0 { return false; }
      var left := Min(DayLeft(ledger, at, limits), MonthLeft(ledger, at, month, limits));
      if !overdraw && bytes > left { return false; }
      if !write.NotReplaced? {
        stale := if write.Durable? then {} else stale + {ledger};
        var day, m := Some(DayOf(at)), Some(month(DayOf(at)));
        if ledger.day != day {
          ledger := ledger.(day := day, dayBytes := 0);
        }
        if ledger.month != m {
          ledger := ledger.(month := m, monthBytes := 0);
        }
        ledger := ledger.(dayBytes := ledger.dayBytes + bytes, monthBytes := ledger.monthBytes + bytes);
        tests := tests + [Test(at, bytes, if write.Durable? then bytes else 0, 0, false)];
        running := write.Durable?;
      }
      ok := write.Durable?;
    }

    /** `hidden` is known to the model only. */
    method ReconcileSpeedTest(at: int, reserved: nat, used: nat, ghost hidden: nat, write: Write)
      requires running && tests != [] && used <= reserved
      requires at == tests[|tests| - 1].at && reserved == tests[|tests| - 1].reserved
      modifies this
      ensures View() == Advance(old(View()), Reconcile(used, hidden, write), month)
    {
      var spent := Min(used, reserved);
      var refund := reserved - spent;
      tests := Ended(View(), used, hidden, !write.NotReplaced?);
      if !write.NotReplaced? {
        stale := if write.Durable? then {} else stale + {ledger};
        if ledger.day == Some(DayOf(at)) {
          ledger := ledger.(dayBytes := ledger.dayBytes - Min(refund, ledger.dayBytes));
        }
        if ledger.month == Some(month(DayOf(at))) {
          ledger := ledger.(monthBytes := ledger.monthBytes - Min(refund, ledger.monthBytes));
        }
      }
      running := false;
    }

    /** The reservation of a scheduled test: the smaller of its envelope and what the
        tests of the day and of the month left unspent, deferred below a mebibyte. */
    method ReserveScheduled(at: int, envelope: nat, limits: Limits, write: Write) returns (ran: bool, left: nat)
      requires envelope > 0 && !running && Exact(View(), month) && Monotone(month)
      requires tests != [] ==> DayOf(at) >= DayOf(tests[|tests| - 1].at)
      modifies this
      ensures Exact(View(), month) && running == ran
      ensures left == Max(Unspent(old(tests), at, month, limits), 0)
      ensures ran <==> left >= 1024 * 1024 && write.Durable?
      ensures ran ==>
        var reserved := Min(envelope, left);
        && tests == old(tests) + [Test(at, reserved, reserved, 0, false)]
        && ledger.dayBytes == DayTotal(old(tests), DayOf(at), Owed) + reserved
        && ledger.monthBytes == MonthTotal(old(tests), month(DayOf(at)), month, Owed) + reserved
      ensures left < 1024 * 1024 ==> View() == old(View())
    {
      left := Left(ledger, at, month, limits);
      assert left == Max(Unspent(tests, at, month, limits), 0) by {
        LeftIsUnspent(View(), at, month, limits);
      }
      if left < 1024 * 1024 { return false, left; }
      ReservationCharges(View(), at, Min(envelope, left), limits, write, month);
      ran := ReserveBytes(at, Min(envelope, left), limits, false, write);
    }

    /** The reconcile of a scheduled test: the ledgers lose what it did not report. */
    method SettleScheduled(
      at: int, reserved: nat, used: nat, ghost hidden: nat, ghost earlier: seq<Test>, write: Write)
      requires running && Exact(View(), month) && used <= reserved
      requires tests == earlier + [Test(at, reserved, reserved, 0, false)]
      modifies this
      ensures Exact(View(), month) && !running
      ensures tests == earlier + [Test(at, reserved, used, hidden, !write.NotReplaced?)]
      ensures !write.NotReplaced? ==>
        ledger.dayBytes == old(ledger).dayBytes - reserved + used
        && ledger.monthBytes == old(ledger).monthBytes - reserved + used
    {
      ReconcileKeepsExact(View(), Reconcile(used, hidden, write), month);
      ReconcileSpeedTest(at, reserved, used, hidden, write);
    }

    /** A scheduled test from end to end: reserve the smallest of the envelope and
        what the tests of the day and of the month left unspent, split it, run within
        the split, refund the rest. It runs exactly if a mebibyte is unspent and the
        reservation is durable. What it reports never exceeds the reservation, so the
        ledgers end exactly at what the earlier tests were charged plus the bytes
        reported, and miss what the test hid. */
    method RunScheduledTest(at: int, p: Profile, traffic: Traffic, limits: Limits,
                            reserveWrite: Write, reconcileWrite: Write)
      returns (ran: bool, used: nat, ghost left: nat, ghost hidden: nat)
      requires p.Normalised() && traffic.Possible() && !running && Exact(View(), month) && Monotone(month)
      requires tests != [] ==> DayOf(at) >= DayOf(tests[|tests| - 1].at)
      modifies this
      ensures Exact(View(), month) && !running
      ensures left == Max(Unspent(old(tests), at, month, limits), 0)
      ensures ran <==> left >= 1024 * 1024 && reserveWrite.Durable?
      ensures ran ==> (used, hidden) == Outcome(p, left, traffic)
      ensures ran ==>
        var reserved := Min(p.maxDownload + p.maxUpload, left);
        used <= reserved && tests == old(tests) + [Test(at, reserved, used, hidden, !reconcileWrite.NotReplaced?)]
      ensures ran && !reconcileWrite.NotReplaced? ==>
        ledger.dayBytes == DayTotal(old(tests), DayOf(at), Owed) + used
        && ledger.monthBytes == MonthTotal(old(tests), month(DayOf(at)), month, Owed) + used
      ensures !ran ==> used == 0
      ensures left < 1024 * 1024 ==> View() == old(View())
    {
      used, hidden := 0, 0;
      var unspent;
      ran, unspent := ReserveScheduled(at, p.maxDownload + p.maxUpload, limits, reserveWrite);
      left := unspent;
      if !ran { return; }
      used, hidden := RunTest(p, unspent, traffic);
      SettleScheduled(
        at, Min(p.maxDownload + p.maxUpload, unspent), used, hidden, old(tests), reconcileWrite);
    }
  }
}
