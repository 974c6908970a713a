/** Byte budgets shared by concurrent workers: load, compare-and-swap, move,
    settle, in any interleaving (internal/qualitytest/household.go and
    internal/qualitytest/runner.go). What a counter records and what a request
    has sent are kept apart: an upload answered outside 2xx is settled as if it
    had sent nothing, and the transport may go on reading the body of an upload
    that has returned. */
module Claims {
  import opened Arithmetic

  /** The three budgets: delivery units that return what they did not report,
      blocks of a bulk load that are never returned, and bounded replies. */
  datatype Use = Units | Blocks | Replies

  /** What a worker asks for: a whole unit or nothing, or at most a block. */
  datatype Ask = Whole(amount: nat) | UpTo(maximum: nat)

  /** Where one worker stands. The last three phases hold bytes that are in
      neither counter; the settling order differs between the budgets. */
  datatype Worker =
    | Resting
    | Wanting(ask: Ask)
    | Loaded(ask: Ask, observed: nat)
    | Holding(ask: Ask, claimed: nat, moved: nat)
    | Returned(moved: nat)
    | Counted(unmoved: nat)

  /** The shared counters. The next three exist only in the model: what a bulk
      load claims and never returns, what the bodies of ended requests have not
      sent, and the bytes sent that no counter records. */
  datatype Budget = Budget(
    use: Use, remaining: nat, spent: nat, forfeited: nat, unsent: nat, hidden: nat, exhausted: bool,
    workers: seq<Worker>)

  datatype Step =
    | Request(ask: Ask)
    | Load
    | Swap
    | Move(bytes: nat)
    | ReturnUnmoved
    | CountMoved
    | Refuse
    | CountFirst
    | ReturnLast
    | Forfeit
    | CountLate(bytes: nat)
    | Trail(bytes: nat)

  function Amount(ask: Ask, available: nat): nat {
    match ask
    case Whole(amount) => amount
    case UpTo(maximum) => if available <= maximum then available else maximum
  }

  /** Household units are claimed whole and settled by returning first, or are
      refused; blocks are forfeited, and a body still read adds to the counter
      until the load's total is taken; replies are counted first and never trail. */
  predicate Enabled(b: Budget, i: nat, step: Step) {
    && i < |b.workers|
    && var w := b.workers[i];
       match step
       case Request(ask) => w.Resting? && (ask.Whole? <==> b.use.Units?)
       case Load => w.Wanting?
       case Swap => w.Loaded?
       case Move(bytes) => w.Holding? && w.moved + bytes <= w.claimed
       case ReturnUnmoved => w.Holding? && b.use.Units?
       case CountMoved => w.Returned?
       case Refuse => w.Holding? && b.use.Units?
       case CountFirst => w.Holding? && b.use.Replies?
       case ReturnLast => w.Counted?
       case Forfeit => w.Holding? && b.use.Blocks?
       case CountLate(bytes) => b.use.Blocks? && bytes <= b.unsent
       case Trail(bytes) => !b.use.Replies? && bytes <= b.unsent
  }

  /** One atomic access by worker `i`, or by the transport on its behalf. */
  function Apply(b: Budget, i: nat, step: Step): Budget
    requires Enabled(b, i, step) && Consistent(b.workers[i]) && Backed(b)
  {
    var w := b.workers[i];
    match step
    case Request(ask) => b.(workers := b.workers[i := Wanting(ask)])
    case Load =>
      if w.ask.Whole? && b.remaining < w.ask.amount then b.(workers := b.workers[i := Resting], exhausted := true)
      else if w.ask.UpTo? && b.remaining == 0 then b.(workers := b.workers[i := Resting])
      else b.(workers := b.workers[i := Loaded(w.ask, b.remaining)])
    case Swap =>
      if b.remaining != w.observed then b.(workers := b.workers[i := Wanting(w.ask)])
      else
        var amount := Amount(w.ask, w.observed);
        b.(remaining := b.remaining - amount, workers := b.workers[i := Holding(w.ask, amount, 0)])
    case Move(bytes) => b.(workers := b.workers[i := w.(moved := w.moved + bytes)])
    case ReturnUnmoved =>
      b.(remaining := b.remaining + (w.claimed - w.moved), unsent := b.unsent + (w.claimed - w.moved),
         workers := b.workers[i := Returned(w.moved)])
    case CountMoved => b.(spent := b.spent + w.moved, workers := b.workers[i := Resting])
    case Refuse =>
      b.(remaining := b.remaining + w.claimed, unsent := b.unsent + (w.claimed - w.moved),
         hidden := b.hidden + w.moved, workers := b.workers[i := Resting])
    case CountFirst => b.(spent := b.spent + w.moved, workers := b.workers[i := Counted(w.claimed - w.moved)])
    case ReturnLast => b.(remaining := b.remaining + w.unmoved, workers := b.workers[i := Resting])
    case Forfeit =>
      b.(spent := b.spent + w.moved, forfeited := b.forfeited + (w.claimed - w.moved),
         unsent := b.unsent + (w.claimed - w.moved), workers := b.workers[i := Resting])
    case CountLate(bytes) =>
      b.(spent := b.spent + bytes, forfeited := b.forfeited - bytes, unsent := b.unsent - bytes)
    case Trail(bytes) => b.(unsent := b.unsent - bytes, hidden := b.hidden + bytes)
  }

  /** A whole ask holds exactly its amount; a block ask at most its maximum. */
  predicate Consistent(w: Worker) {
    match w
    case Loaded(Whole(amount), observed) => amount <= observed
    case Holding(Whole(amount), claimed, moved) => claimed == amount && moved <= claimed
    case Holding(UpTo(maximum), claimed, moved) => moved <= claimed <= maximum
    case _ => true
  }

  /** What a bulk load forfeited backs every byte its bodies may still send or
      have sent unrecorded; replies leave no body behind. */
  predicate Backed(b: Budget) {
    match b.use
    case Units => b.forfeited == 0
    case Blocks => b.unsent + b.hidden == b.forfeited
    case Replies => b.unsent == b.hidden == b.forfeited == 0
  }

  function Outstanding(w: Worker): nat {
    match w
    case Holding(_, claimed, _) => claimed
    case Returned(moved) => moved
    case Counted(unmoved) => unmoved
    case _ => 0
  }

  /** The bytes a worker has moved and not yet counted. */
  function InFlight(w: Worker): nat {
    match w
    case Holding(_, _, moved) => moved
    case Returned(moved) => moved
    case _ => 0
  }

  function TotalInFlight(workers: seq<Worker>): nat {
    if workers == [] then 0 else InFlight(workers[0]) + TotalInFlight(workers[1..])
  }

  /** Every byte that has crossed the network: counted, not counted yet, or
      hidden from the counters. */
  function Moved(b: Budget): nat {
    b.spent + TotalInFlight(b.workers) + b.hidden
  }

  function TotalOutstanding(workers: seq<Worker>): nat {
    if workers == [] then 0 else Outstanding(workers[0]) + TotalOutstanding(workers[1..])
  }

  function Total(b: Budget): nat {
    b.remaining + TotalOutstanding(b.workers) + b.spent + b.forfeited
  }

  ghost predicate Sound(b: Budget) {
    Backed(b) && forall i | 0 <= i < |b.workers| :: Consistent(b.workers[i])
  }

  lemma {:induction false} OutstandingUpdate(workers: seq<Worker>, i: nat, w: Worker)
    requires i < |workers|
    ensures TotalOutstanding(workers[i := w]) + Outstanding(workers[i]) == TotalOutstanding(workers) + Outstanding(w)
  {
    if i > 0 {
      OutstandingUpdate(workers[1..], i - 1, w);
      assert workers[i := w][1..] == workers[1..][i - 1 := w];
    } else {
      assert workers[i := w][1..] == workers[1..];
    }
  }

  /** The bytes that one access takes from the worker go to the counters. */
  lemma AccessBalances(b: Budget, i: nat, step: Step)
    requires Sound(b) && Enabled(b, i, step)
    ensures
      var c := Apply(b, i, step);
      && c.use == b.use && |c.workers| == |b.workers| && c.workers == b.workers[i := c.workers[i]]
      && c.remaining + c.spent + c.forfeited + Outstanding(c.workers[i])
          == b.remaining + b.spent + b.forfeited + Outstanding(b.workers[i])
  {
  }

  lemma AccessKeepsSound(b: Budget, i: nat, step: Step)
    requires Sound(b) && Enabled(b, i, step)
    ensures Backed(Apply(b, i, step)) && Consistent(Apply(b, i, step).workers[i])
  {
  }

  lemma StepConserves(b: Budget, i: nat, step: Step)
    requires Sound(b) && Enabled(b, i, step)
    ensures Sound(Apply(b, i, step)) && Total(Apply(b, i, step)) == Total(b)
    ensures Apply(b, i, step).use == b.use
  {
    AccessBalances(b, i, step);
    AccessKeepsSound(b, i, step);
    OutstandingUpdate(b.workers, i, Apply(b, i, step).workers[i]);
  }

  ghost predicate Legal(b: Budget, run: seq<(nat, Step)>)
    requires Sound(b)
    decreases |run|
  {
    run == [] ||
    (&& Enabled(b, run[0].0, run[0].1)
     && (StepConserves(b, run[0].0, run[0].1); Legal(Apply(b, run[0].0, run[0].1), run[1..])))
  }

  ghost function Exec(b: Budget, run: seq<(nat, Step)>): Budget
    requires Sound(b) && Legal(b, run)
    decreases |run|
  {
    if run == [] then b
    else
      StepConserves(b, run[0].0, run[0].1);
      Exec(Apply(b, run[0].0, run[0].1), run[1..])
  }

  function Fresh(use: Use, capacity: nat, workers: nat): (b: Budget)
    ensures Sound(b)
  {
    Budget(use, capacity, 0, 0, 0, 0, false, seq(workers, _ => Resting))
  }

  lemma {:induction false} RunConserves(b: Budget, run: seq<(nat, Step)>)
    requires Sound(b) && Legal(b, run)
    ensures Sound(Exec(b, run)) && Total(Exec(b, run)) == Total(b) && Exec(b, run).use == b.use
    decreases |run|
  {
    if run != [] {
      StepConserves(b, run[0].0, run[0].1);
      RunConserves(Apply(b, run[0].0, run[0].1), run[1..]);
    }
  }

  lemma {:induction false} AllResting(workers: seq<Worker>)
    requires forall i | 0 <= i < |workers| :: workers[i].Resting?
    ensures TotalOutstanding(workers) == TotalInFlight(workers) == 0
  {
    if workers != [] {
      AllResting(workers[1..]);
    }
  }

  lemma {:induction false} InFlightIsOutstanding(workers: seq<Worker>)
    requires forall i | 0 <= i < |workers| :: Consistent(workers[i])
    ensures TotalInFlight(workers) <= TotalOutstanding(workers)
  {
    if workers != [] {
      InFlightIsOutstanding(workers[1..]);
    }
  }

  /** For any number of workers and any interleaving of their atomic steps:
      unclaimed, outstanding, counted and forfeited bytes add up to the capacity,
      what is counted or about to be stays within it at every moment, no counter
      goes below zero, and a whole unit is funded whole or not at all. In a bulk
      load and on the reply budget every byte sent stays within it as well. */
  lemma EveryInterleavingConserves(use: Use, capacity: nat, workers: nat, run: seq<(nat, Step)>)
    requires Legal(Fresh(use, capacity, workers), run)
    ensures
      var b := Exec(Fresh(use, capacity, workers), run);
      && b.remaining + TotalOutstanding(b.workers) + b.spent + b.forfeited == capacity
      && b.spent + TotalInFlight(b.workers) <= capacity
      && (!use.Units? ==> Moved(b) <= capacity)
      && (forall w: Worker | w in b.workers && w.Holding? && w.ask.Whole? :: w.claimed == w.ask.amount)
  {
    AllResting(Fresh(use, capacity, workers).workers);
    RunConserves(Fresh(use, capacity, workers), run);
    InFlightIsOutstanding(Exec(Fresh(use, capacity, workers), run).workers);
  }

  // ---- what no counter records ---------------------------------------------------

  /** A step that sends, or has sent, bytes that no counter will record: an upload
      that had sent something is answered outside 2xx, or the body of one that has
      returned is read on. */
  predicate Hides(b: Budget, i: nat, step: Step)
    requires Enabled(b, i, step)
  {
    (step.Refuse? && b.workers[i].moved > 0) || (step.Trail? && step.bytes > 0)
  }

  ghost predicate AllSeen(b: Budget, run: seq<(nat, Step)>)
    requires Sound(b) && Legal(b, run)
    decreases |run|
  {
    run == [] ||
    (&& !Hides(b, run[0].0, run[0].1)
     && (StepConserves(b, run[0].0, run[0].1); AllSeen(Apply(b, run[0].0, run[0].1), run[1..])))
  }

  lemma HiddenByOne(b: Budget, i: nat, step: Step)
    requires Sound(b) && Enabled(b, i, step)
    ensures Apply(b, i, step).hidden >= b.hidden
    ensures Apply(b, i, step).hidden == b.hidden <==> !Hides(b, i, step)
  {
  }

  /** Bytes are hidden from the counters exactly by those steps. */
  lemma {:induction false} HiddenExactly(b: Budget, run: seq<(nat, Step)>)
    requires Sound(b) && Legal(b, run)
    ensures Exec(b, run).hidden >= b.hidden
    ensures Exec(b, run).hidden == b.hidden <==> AllSeen(b, run)
    decreases |run|
  {
    if run != [] {
      StepConserves(b, run[0].0, run[0].1);
      HiddenByOne(b, run[0].0, run[0].1);
      HiddenExactly(Apply(b, run[0].0, run[0].1), run[1..]);
    }
  }

  ghost predicate Leads(b: Budget, access: (nat, Step), next: Budget) {
    Sound(b) && Enabled(b, access.0, access.1) && Apply(b, access.0, access.1) == next && Sound(next)
  }

  lemma Prepend(b: Budget, access: (nat, Step), next: Budget, rest: seq<(nat, Step)>, end: Budget)
    requires Leads(b, access, next) && Legal(next, rest) && Exec(next, rest) == end
    ensures Legal(b, [access] + rest) && Exec(b, [access] + rest) == end
  {
    assert ([access] + rest)[1..] == rest;
  }

  /** Accesses in a row, each leading to the budget of the next. */
  lemma {:induction false} PrependAll(b: seq<Budget>, accesses: seq<(nat, Step)>, rest: seq<(nat, Step)>, end: Budget)
    requires |b| == |accesses| + 1
    requires forall k | 0 <= k < |accesses| :: Leads(b[k], accesses[k], b[k + 1])
    requires Sound(b[|accesses|]) && Legal(b[|accesses|], rest) && Exec(b[|accesses|], rest) == end
    ensures Sound(b[0]) && Legal(b[0], accesses + rest) && Exec(b[0], accesses + rest) == end
    decreases |accesses|
  {
    if accesses == [] {
      assert accesses + rest == rest;
    } else {
      assert Leads(b[0], accesses[0], b[1]);
      forall k | 0 <= k < |accesses| - 1 ensures Leads(b[1..][k], accesses[1..][k], b[1..][k + 1]) {
        assert Leads(b[k + 1], accesses[k + 1], b[k + 2]);
      }
      PrependAll(b[1..], accesses[1..], rest, end);
      Prepend(b[0], accesses[0], b[1], accesses[1..] + rest, end);
      assert [accesses[0]] + (accesses[1..] + rest) == accesses + rest;
    }
  }

  // ---- one load, played to its end --------------------------------------------

  /** The workers of a load and one interleaving of their steps. */
  datatype Plan = Plan(workers: nat, run: seq<(nat, Step)>)

  ghost predicate Joined(b: Budget) {
    forall i | 0 <= i < |b.workers| :: b.workers[i].Resting?
  }

  /** The plan is possible on a capacity and ends once every worker is done. */
  ghost predicate Plays(plan: Plan, use: Use, capacity: nat) {
    Legal(Fresh(use, capacity, plan.workers), plan.run) && Joined(Exec(Fresh(use, capacity, plan.workers), plan.run))
  }

  ghost function Played(plan: Plan, use: Use, capacity: nat): Budget
    requires Plays(plan, use, capacity)
  {
    Exec(Fresh(use, capacity, plan.workers), plan.run)
  }

  ghost predicate Seen(plan: Plan, use: Use, capacity: nat)
    requires Plays(plan, use, capacity)
  {
    AllSeen(Fresh(use, capacity, plan.workers), plan.run)
  }

  /** Once the workers have joined, the counter is within the capacity and holds
      every byte that moved exactly if no step hid any; blocks and replies move no
      more than the capacity in either case, and replies hide nothing. */
  lemma JoinedCounts(plan: Plan, use: Use, capacity: nat)
    requires Plays(plan, use, capacity)
    ensures
      var b := Played(plan, use, capacity);
      && b.spent <= capacity && b.spent <= Moved(b)
      && (b.spent == Moved(b) <==> Seen(plan, use, capacity))
      && (!use.Units? ==> Moved(b) <= capacity)
      && (use.Replies? ==> b.spent == Moved(b))
  {
    var start := Fresh(use, capacity, plan.workers);
    EveryInterleavingConserves(use, capacity, plan.workers, plan.run);
    RunConserves(start, plan.run);
    HiddenExactly(start, plan.run);
    AllResting(Played(plan, use, capacity).workers);
  }

  /** Run a load's workers to the end and read the counter. */
  method Execute(plan: Plan, use: Use, capacity: nat) returns (counted: nat)
    requires Plays(plan, use, capacity)
    ensures counted == Played(plan, use, capacity).spent <= capacity
    ensures counted == Moved(Played(plan, use, capacity)) <==> Seen(plan, use, capacity)
  {
    var b := Fresh(use, capacity, plan.workers);
    ghost var end := Played(plan, use, capacity);
    assert plan.run[0..] == plan.run;
    for i := 0 to |plan.run|
      invariant Sound(b) && Legal(b, plan.run[i..]) && Exec(b, plan.run[i..]) == end
    {
      assert plan.run[i..][1..] == plan.run[i + 1..];
      StepConserves(b, plan.run[i].0, plan.run[i].1);
      b := Apply(b, plan.run[i].0, plan.run[i].1);
    }
    counted := b.spent;
    JoinedCounts(plan, use, capacity);
  }

  /** A load whose one worker takes and moves the whole budget as one block. */
  function Full(capacity: nat): Plan {
    Plan(1, if capacity == 0 then [] else FullBlock(capacity))
  }

  function FullBlock(capacity: nat): seq<(nat, Step)> {
    [(0, Request(UpTo(capacity))), (0, Load), (0, Swap), (0, Move(capacity)), (0, Forfeit)]
  }

  function AfterFull(capacity: nat): Budget {
    Budget(Blocks, 0, capacity, 0, 0, 0, false, [Resting])
  }

  lemma FullBlockLeads(capacity: nat) returns (b: seq<Budget>)
    requires capacity > 0
    ensures |b| == 6 && b[0] == Fresh(Blocks, capacity, 1) && b[5] == AfterFull(capacity)
    ensures forall k | 0 <= k < 5 :: Leads(b[k], FullBlock(capacity)[k], b[k + 1])
  {
    var start := Budget(Blocks, capacity, 0, 0, 0, 0, false, [Resting]);
    assert start == Fresh(Blocks, capacity, 1);
    var claimed := start.(remaining := 0);
    b := [
      start,
      start.(workers := [Wanting(UpTo(capacity))]),
      start.(workers := [Loaded(UpTo(capacity), capacity)]),
      claimed.(workers := [Holding(UpTo(capacity), capacity, 0)]),
      claimed.(workers := [Holding(UpTo(capacity), capacity, capacity)]),
      AfterFull(capacity)];
  }

  /** A chain of accesses from a fresh budget to one with every worker at rest is
      a load played to its end. */
  lemma ChainPlays(plan: Plan, use: Use, capacity: nat, b: seq<Budget>)
    requires |b| == |plan.run| + 1 && b[0] == Fresh(use, capacity, plan.workers)
    requires forall k | 0 <= k < |plan.run| :: Leads(b[k], plan.run[k], b[k + 1])
    requires Sound(b[|plan.run|]) && Joined(b[|plan.run|])
    ensures Plays(plan, use, capacity) && Played(plan, use, capacity) == b[|plan.run|]
  {
    PrependAll(b, plan.run, [], b[|plan.run|]);
    assert plan.run + [] == plan.run;
  }

  lemma FullMovesAll(capacity: nat)
    ensures Plays(Full(capacity), Blocks, capacity)
    ensures Played(Full(capacity), Blocks, capacity) == AfterFull(capacity)
    ensures Moved(AfterFull(capacity)) == capacity
  {
    AllResting([Resting]);
    if capacity == 0 {
      assert Fresh(Blocks, 0, 1) == AfterFull(0);
      ChainPlays(Full(0), Blocks, 0, [AfterFull(0)]);
    } else {
      var b := FullBlockLeads(capacity);
      ChainPlays(Full(capacity), Blocks, capacity, b);
    }
  }

  /** A load that never starts. */
  function Idle(capacity: nat): Plan {
    Plan(0, [])
  }

  lemma IdleIsQuiet(use: Use, capacity: nat)
    ensures Plays(Idle(capacity), use, capacity)
    ensures Played(Idle(capacity), use, capacity) == Fresh(use, capacity, 0)
    ensures Moved(Fresh(use, capacity, 0)) == 0
  {
  }

  // ---- the household ledger ---------------------------------------------------

  const PROBE_RESERVE: nat := 0x10_0000

  /** The ledger keeps back a tenth of the cap for protocol overhead. */
  function Usable(cap: nat): nat {
    cap * 9 / 10
  }

  function ProbeReserve(cap: nat): nat {
    Min(PROBE_RESERVE, cap / 100)
  }

  /** What the ledger has left once the probe reserve is claimed; the claim
      always succeeds. */
  function LedgerCapacity(cap: nat): (capacity: nat)
    ensures capacity + ProbeReserve(cap) == Usable(cap) <= cap
  {
    Usable(cap) - ProbeReserve(cap)
  }

  /** Usable is what nine tenths of the cap cover, the reserve what a hundredth of it
      and a mebibyte cover. */
  lemma CapShares(cap: nat, bytes: nat)
    ensures bytes <= Usable(cap) <==> 10 * bytes <= 9 * cap
    ensures bytes <= ProbeReserve(cap) <==> 100 * bytes <= cap && bytes <= 1024 * 1024
  {
  }

  /** Whatever the instances and the probes do, what a household test reports
      stays within the usable part of its cap. It is what the test moved, so that
      this stays within the cap as well, exactly if no unit that had sent bytes was
      answered outside 2xx and no body trailed. */
  lemma HouseholdStaysWithinCap(cap: nat, units: Plan, replies: Plan)
    requires Plays(units, Units, LedgerCapacity(cap)) && Plays(replies, Replies, ProbeReserve(cap))
    ensures
      var ledger, responses := Played(units, Units, LedgerCapacity(cap)), Played(replies, Replies, ProbeReserve(cap));
      && ledger.spent + responses.spent <= Usable(cap) <= cap
      && ledger.spent + responses.spent <= Moved(ledger) + Moved(responses)
      && (ledger.spent + responses.spent == Moved(ledger) + Moved(responses)
          <==> Seen(units, Units, LedgerCapacity(cap)))
  {
    JoinedCounts(units, Units, LedgerCapacity(cap));
    JoinedCounts(replies, Replies, ProbeReserve(cap));
  }

  /** The ledger and probe totals that a household test reports. */
  method ExecuteHousehold(cap: nat, units: Plan, replies: Plan) returns (used: nat)
    requires Plays(units, Units, LedgerCapacity(cap)) && Plays(replies, Replies, ProbeReserve(cap))
    ensures used == Played(units, Units, LedgerCapacity(cap)).spent + Played(replies, Replies, ProbeReserve(cap)).spent
    ensures used <= Usable(cap)
    ensures
      used == Moved(Played(units, Units, LedgerCapacity(cap))) + Moved(Played(replies, Replies, ProbeReserve(cap)))
      <==> Seen(units, Units, LedgerCapacity(cap))
  {
    HouseholdStaysWithinCap(cap, units, replies);
    var payload := Execute(units, Units, LedgerCapacity(cap));
    var probes := Execute(replies, Replies, ProbeReserve(cap));
    used := payload + probes;
  }

  // ---- refused frames ----------------------------------------------------------

  /** One upload frame that is sent in full and answered outside 2xx. */
  function RefusedFrame(frame: nat): seq<(nat, Step)> {
    [(0, Request(Whole(frame))), (0, Load), (0, Swap), (0, Move(frame)), (0, Refuse)]
  }

  function RefusedFrames(frame: nat, count: nat): seq<(nat, Step)> {
    if count == 0 then [] else RefusedFrame(frame) + RefusedFrames(frame, count - 1)
  }

  /** A run of one worker that did nothing but send refused frames. */
  function AfterRefusals(capacity: nat, hidden: nat): Budget {
    Budget(Units, capacity, 0, 0, 0, hidden, false, [Resting])
  }

  /** A refused frame leaves the ledger as it was, with its bytes hidden. */
  lemma FrameIsHidden(capacity: nat, hidden: nat, frame: nat) returns (b: seq<Budget>)
    requires frame <= capacity
    ensures |b| == 6 && b[0] == AfterRefusals(capacity, hidden) && b[5] == AfterRefusals(capacity, hidden + frame)
    ensures forall k | 0 <= k < 5 :: Leads(b[k], RefusedFrame(frame)[k], b[k + 1])
  {
    var start := AfterRefusals(capacity, hidden);
    var claimed := start.(remaining := capacity - frame);
    b := [
      start,
      start.(workers := [Wanting(Whole(frame))]),
      start.(workers := [Loaded(Whole(frame), capacity)]),
      claimed.(workers := [Holding(Whole(frame), frame, 0)]),
      claimed.(workers := [Holding(Whole(frame), frame, frame)]),
      AfterRefusals(capacity, hidden + frame)];
  }

  lemma {:induction false} FramesAreHidden(capacity: nat, hidden: nat, frame: nat, count: nat)
    requires frame <= capacity
    ensures Legal(AfterRefusals(capacity, hidden), RefusedFrames(frame, count))
    ensures
      Exec(AfterRefusals(capacity, hidden), RefusedFrames(frame, count))
      == AfterRefusals(capacity, hidden + count * frame)
    decreases count
  {
    if count > 0 {
      var b := FrameIsHidden(capacity, hidden, frame);
      FramesAreHidden(capacity, hidden + frame, frame, count - 1);
      TimesSum(count - 1, 1, frame);
      PrependAll(b, RefusedFrame(frame), RefusedFrames(frame, count - 1),
                 AfterRefusals(capacity, hidden + count * frame));
    }
  }

  /** One worker whose every frame is refused. */
  function Refused(frame: nat, count: nat): Plan {
    Plan(1, RefusedFrames(frame, count))
  }

  /** Refused frames report nothing and use up nothing, however many are sent:
      on every budget that funds one frame they move any multiple of it. */
  lemma RefusedFramesAreFree(capacity: nat, frame: nat, count: nat)
    requires frame <= capacity
    ensures Plays(Refused(frame, count), Units, capacity)
    ensures
      var b := Played(Refused(frame, count), Units, capacity);
      b.spent == 0 && b.remaining == capacity && Moved(b) == count * frame
  {
    FramesAreHidden(capacity, 0, frame, count);
    assert Fresh(Units, capacity, 1) == AfterRefusals(capacity, 0);
    AllResting([Resting]);
  }

  /** So on every cap that funds a frame some test passes the whole cap and
      reports nothing. */
  lemma RefusedFramesPassTheCap(cap: nat, frame: nat) returns (units: Plan)
    requires 0 < frame <= LedgerCapacity(cap)
    ensures Plays(units, Units, LedgerCapacity(cap))
    ensures Played(units, Units, LedgerCapacity(cap)).spent == 0
    ensures Moved(Played(units, Units, LedgerCapacity(cap))) > cap >= Usable(cap)
  {
    units := Refused(frame, cap + 1);
    RefusedFramesAreFree(LedgerCapacity(cap), frame, cap + 1);
    TimesGrows(1, frame, cap + 1);
    TimesSwaps(frame, cap + 1);
  }
}
