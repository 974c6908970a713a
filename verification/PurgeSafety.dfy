/** What a privacy purge guarantees over whole runs. */
module PurgeSafety {
  import opened Wrappers
  import opened PurgeStore
  import opened PurgeMachine

  // ---- the obligation a purge creates ----------------------------------------

  /** The action asks for credentials to go, and these credentials are old. */
  predicate HoldsOld(s: Stored, action: Action, since: nat) {
    NeedsWipe(Some(action)) && s.credential.Some? && s.credential.value < since
  }

  /** Blocked at least as strongly as `action` asks. */
  predicate Blocks(s: Stored, action: Action) {
    s.pending && Priority(s.action) >= Priority(Some(action))
  }

  /** The purge has taken effect: nothing collected before `since` is held
      anywhere, and no old credential is in memory or can come back from disk. */
  ghost predicate Settled(w: World, action: Action, since: nat) {
    && (forall t | t in w.spool :: t >= since)
    && (forall s | s in Images(w.disk.state) :: !HoldsOld(s, action, since))
    && (w.process.Some? ==>
          var p := w.process.value;
          && (forall t | t in p.collected :: t >= since)
          && !HoldsOld(p.mem, action, since)
          && (p.upload.Some? ==> !HoldsOld(p.upload.value, action, since)))
  }

  /** What the cleanup has already done, while the purge is still owed. */
  ghost predicate Progress(w: World, p: Process, since: nat) {
    && p.upload.None?
    && !p.cleanup.Completed?
    && (!p.cleanup.Idle? ==> forall t | t in p.collected :: t >= since)
    && (p.cleanup.SpoolCleared? || p.cleanup.Wiped? ==> forall t | t in w.spool :: t >= since)
  }

  /** The purge is still owed: memory blocks, and so does whatever any restart
      or power loss would recover. */
  ghost predicate Owed(w: World, action: Action, since: nat) {
    && (forall s, q | s in Images(w.disk.state) && q in Images(w.disk.sentinel) :: Blocks(Recovered(s, q), action))
    && (w.process.Some? ==>
          && Blocks(w.process.value.mem, action)
          && Progress(w, w.process.value, since))
  }

  /** Nothing is pending: in memory if the daemon runs, otherwise after some
      restart the disk allows. */
  ghost predicate NothingPending(w: World) {
    if w.process.Some? then !w.process.value.mem.pending
    else exists s, q :: s in Images(w.disk.state) && q in Images(w.disk.sentinel) && !Recovered(s, q).pending
  }

  // ---- one step ---------------------------------------------------------------

  lemma RecoveredKeeps(s: Stored, q: Option<Action>, action: Action, since: nat)
    ensures Recovered(s, q).credential == s.credential
    ensures HoldsOld(Recovered(s, q), action, since) <==> HoldsOld(s, action, since)
    ensures Blocks(s, action) ==> Blocks(Recovered(s, q), action)
    ensures q.Some? && Priority(q) >= Priority(Some(action)) ==> Blocks(Recovered(s, q), action)
    ensures Recovered(Recovered(s, q), q) == Recovered(s, q)
  {
  }

  lemma StepKeepsSettled(w: World, step: Step, action: Action, since: nat)
    requires Fine(w) && since <= w.next && Enabled(w, step) && Settled(w, action, since)
    ensures Settled(Apply(w, step), action, since)
  {
    forall s, q ensures Recovered(s, q).credential == s.credential {
      RecoveredKeeps(s, q, action, since);
    }
  }

  /** Writing a blocking state, with any outcome, keeps every recovery blocked. */
  lemma BlockedWrites(
    disk: Disk, next: Stored, sentinel: Option<Action>, stateWrite: Write, sentinelWrite: Write, action: Action)
    requires forall s, q | s in Images(disk.state) && q in Images(disk.sentinel) :: Blocks(Recovered(s, q), action)
    requires Blocks(next, action)
    requires sentinelWrite.NotReplaced? || Priority(sentinel) >= Priority(Some(action))
    ensures
      var after := Disk(Replaced(disk.state, next, stateWrite), Replaced(disk.sentinel, sentinel, sentinelWrite));
      forall s, q | s in Images(after.state) && q in Images(after.sentinel) :: Blocks(Recovered(s, q), action)
  {
    var after := Disk(Replaced(disk.state, next, stateWrite), Replaced(disk.sentinel, sentinel, sentinelWrite));
    forall s, q | s in Images(after.state) && q in Images(after.sentinel) ensures Blocks(Recovered(s, q), action) {
      RecoveredKeeps(s, q, action, 0);
    }
  }

  lemma CompleteKeepsObligation(w: World, p: Process, step: Step, action: Action, since: nat)
    requires Fine(w) && since <= w.next && Owed(w, action, since)
    requires w.process == Some(p) && step.CompletePurge? && EnabledIn(w, p, step)
    ensures Owed(ApplyIn(w, p, step), action, since) || Settled(ApplyIn(w, p, step), action, since)
  {
    var t := ApplyIn(w, p, step);
    forall s, q ensures Recovered(s, q).credential == s.credential {
      RecoveredKeeps(s, q, action, since);
    }
    if !step.sentinelWrite.Durable? || !step.stateWrite.Durable? {
      forall s, q | s in Images(t.disk.state) && q in Images(t.disk.sentinel) ensures Blocks(Recovered(s, q), action) {
        RecoveredKeeps(s, q, action, since);
      }
    }
  }

  lemma StepKeepsOwed(w: World, step: Step, action: Action, since: nat)
    requires Fine(w) && since <= w.next && Enabled(w, step) && Owed(w, action, since)
    ensures Owed(Apply(w, step), action, since) || Settled(Apply(w, step), action, since)
  {
    if step.CompletePurge? {
      CompleteKeepsObligation(w, w.process.value, step, action, since);
    } else if step.Open? {
      var s := Recovered(w.disk.state.seen, w.disk.sentinel.seen);
      BlockedWrites(w.disk, s, None, step.write, NotReplaced, action);
    } else if step.BeginPurge? || step.RetryMarker? {
      var p := w.process.value;
      var next := Strengthened(p.mem, if step.BeginPurge? then step.action else Revocation);
      BlockedWrites(w.disk, next, next.action, step.stateWrite, step.sentinelWrite, action);
    } else if step.OtherCommit? || step.SwitchMode? || step.Enroll? || step.Wipe? {
      var p := w.process.value;
      var next :=
        if step.OtherCommit? then
          p.mem.(consent := step.consent, session := step.session, installation := step.installation)
        else if step.SwitchMode? then Switched(p.mem, step.mode)
        else if step.Enroll? then Enrolled(p.mem, w.next, step.session)
        else WipedOf(p.mem, RevokedAt(p.cleanup.action, step.at));
      BlockedWrites(w.disk, next, None, step.write, NotReplaced, action);
    }
  }

  // ---- whole runs --------------------------------------------------------------

  /** A begin that reached the state file or the sentinel durably, with the
      action it asked for. A revoked reply begins a revocation purge. */
  predicate DurablyBegins(step: Step, action: Action) {
    match step
    case BeginPurge(a, sentinelWrite, stateWrite) => a == action && (sentinelWrite.Durable? || stateWrite.Durable?)
    case Revoked(sentinelWrite, stateWrite) => action.Revocation? && (sentinelWrite.Durable? || stateWrite.Durable?)
    case RetryMarker(sentinelWrite, stateWrite) => action.Revocation? && (sentinelWrite.Durable? || stateWrite.Durable?)
    case _ => false
  }

  lemma BeginCreatesObligation(w: World, step: Step, action: Action)
    requires Fine(w) && Enabled(w, step) && DurablyBegins(step, action)
    ensures Owed(Apply(w, step), action, w.next)
  {
    var t := Apply(w, step);
    forall s, q | s in Images(t.disk.state) && q in Images(t.disk.sentinel) ensures Blocks(Recovered(s, q), action) {
      RecoveredKeeps(s, q, action, 0);
    }
  }

  lemma {:induction false} ObligationIsKept(w: World, steps: seq<Step>, action: Action, since: nat)
    requires Fine(w) && since <= w.next && Legal(w, steps)
    requires Owed(w, action, since) || Settled(w, action, since)
    ensures
      var t := Exec(w, steps);
      Fine(t) && (Owed(t, action, since) || Settled(t, action, since))
    decreases |steps|
  {
    if steps != [] {
      if Settled(w, action, since) {
        StepKeepsSettled(w, steps[0], action, since);
      } else {
        StepKeepsOwed(w, steps[0], action, since);
      }
      StepKeepsFine(w, steps[0]);
      ObligationIsKept(Apply(w, steps[0]), steps[1..], action, since);
    }
  }

  /** Purge crash safety. In any run of the daemon from a fresh installation,
      take a begin that reached a file durably, and any steps after it: other
      commits, failed and half-durable writes, crashes, power losses, restarts.
      The purge is then settled, or still owed with no recovery blocking less
      strongly than the begin asked. So once nothing is pending, nothing
      collected before the begin is in memory or in the queue and, for
      disconnect or revocation, no earlier credential is left anywhere. */
  lemma PurgeCrashSafety(before: seq<Step>, begin: Step, after: seq<Step>, action: Action)
    requires Legal(FRESH, before) && Enabled(Exec(FRESH, before), begin) && DurablyBegins(begin, action)
    requires Legal(Apply(Exec(FRESH, before), begin), after)
    ensures
      var w := Exec(FRESH, before);
      var t := Exec(Apply(w, begin), after);
      && (Settled(t, action, w.next) || Owed(t, action, w.next))
      && (NothingPending(t) ==> Settled(t, action, w.next))
  {
    EveryRunIsFine(FRESH, before);
    var w := Exec(FRESH, before);
    BeginCreatesObligation(w, begin, action);
    StepKeepsFine(w, begin);
    ObligationIsKept(Apply(w, begin), after, action, w.next);
  }

  /** No request after the begin carries telemetry collected before it, or is
      signed with a credential the purge had to wipe. */
  lemma NoOldDataIsSent(before: seq<Step>, begin: Step, after: seq<Step>, action: Action, payload: set<nat>)
    requires Legal(FRESH, before) && Enabled(Exec(FRESH, before), begin) && DurablyBegins(begin, action)
    requires Legal(Apply(Exec(FRESH, before), begin), after)
    requires Enabled(Exec(Apply(Exec(FRESH, before), begin), after), Request(payload))
    ensures
      var w := Exec(FRESH, before);
      && (forall serial | serial in payload :: serial >= w.next)
      && !HoldsOld(Exec(Apply(w, begin), after).process.value.upload.value, action, w.next)
  {
    PurgeCrashSafety(before, begin, after, action);
  }

  // ---- withdrawn consent ------------------------------------------------------------

  /** A commit by which the user consents again. */
  predicate Consents(step: Step) {
    step.OtherCommit? && step.consent
  }

  /** Consent is withdrawn: in memory, and in whatever a restart or power loss would
      recover. */
  ghost predicate Withdrawn(w: World) {
    && (forall s, q | s in Images(w.disk.state) && q in Images(w.disk.sentinel) :: !Recovered(s, q).consent)
    && (w.process.Some? ==> !w.process.value.mem.consent)
  }

  /** Writing a state without consent, or a sentinel that names an action, with any
      outcome keeps consent withdrawn. */
  lemma WritesStayWithdrawn(
    disk: Disk, next: Stored, sentinel: Option<Action>, stateWrite: Write, sentinelWrite: Write)
    requires forall s, q | s in Images(disk.state) && q in Images(disk.sentinel) :: !Recovered(s, q).consent
    requires !next.consent && (sentinelWrite.NotReplaced? || sentinel.Some?)
    ensures
      var after := Disk(Replaced(disk.state, next, stateWrite), Replaced(disk.sentinel, sentinel, sentinelWrite));
      forall s, q | s in Images(after.state) && q in Images(after.sentinel) :: !Recovered(s, q).consent
  {
    var after := Disk(Replaced(disk.state, next, stateWrite), Replaced(disk.sentinel, sentinel, sentinelWrite));
    forall s, q | s in Images(after.state) && q in Images(after.sentinel) ensures !Recovered(s, q).consent {
      RecoveredMeans(s, q);
    }
  }

  lemma CompleteStaysWithdrawn(w: World, p: Process, step: Step)
    requires Fine(w) && Withdrawn(w) && w.process == Some(p) && step.CompletePurge? && EnabledIn(w, p, step)
    ensures Withdrawn(ApplyIn(w, p, step))
  {
    var t := ApplyIn(w, p, step);
    forall s, q | s in Images(t.disk.state) && q in Images(t.disk.sentinel) ensures !Recovered(s, q).consent {
      RecoveredMeans(s, q);
    }
  }

  lemma StepStaysWithdrawn(w: World, step: Step)
    requires Fine(w) && Withdrawn(w) && Enabled(w, step) && !Consents(step)
    ensures Withdrawn(Apply(w, step))
  {
    if step.CompletePurge? {
      CompleteStaysWithdrawn(w, w.process.value, step);
    } else if step.Open? {
      var s := Recovered(w.disk.state.seen, w.disk.sentinel.seen);
      WritesStayWithdrawn(w.disk, s, None, step.write, NotReplaced);
    } else if step.BeginPurge? || step.Revoked? || step.RetryMarker? {
      var p := w.process.value;
      var next := Strengthened(p.mem, if step.BeginPurge? then step.action else Revocation);
      WritesStayWithdrawn(w.disk, next, next.action, step.stateWrite, step.sentinelWrite);
    } else if step.OtherCommit? || step.SwitchMode? || step.Enroll? || step.Wipe? {
      var p := w.process.value;
      var next :=
        if step.OtherCommit? then
          p.mem.(consent := step.consent, session := step.session, installation := step.installation)
        else if step.SwitchMode? then Switched(p.mem, step.mode)
        else if step.Enroll? then Enrolled(p.mem, w.next, step.session)
        else WipedOf(p.mem, RevokedAt(p.cleanup.action, step.at));
      WritesStayWithdrawn(w.disk, next, None, step.write, NotReplaced);
    }
  }

  lemma {:induction false} RunStaysWithdrawn(w: World, steps: seq<Step>)
    requires Fine(w) && Withdrawn(w) && Legal(w, steps)
    requires forall i | 0 <= i < |steps| :: !Consents(steps[i])
    ensures Withdrawn(Exec(w, steps))
    decreases |steps|
  {
    if steps != [] {
      StepStaysWithdrawn(w, steps[0]);
      StepKeepsFine(w, steps[0]);
      RunStaysWithdrawn(Apply(w, steps[0]), steps[1..]);
    }
  }

  /** A begin that reached a file durably withdraws consent for good: until the user
      consents again, memory has none and no restart or power loss brings it back,
      whatever else is written and also once the cleanup is finished. */
  lemma ConsentStaysWithdrawn(before: seq<Step>, begin: Step, after: seq<Step>, action: Action)
    requires Legal(FRESH, before) && Enabled(Exec(FRESH, before), begin) && DurablyBegins(begin, action)
    requires Legal(Apply(Exec(FRESH, before), begin), after)
    requires forall i | 0 <= i < |after| :: !Consents(after[i])
    ensures Withdrawn(Exec(Apply(Exec(FRESH, before), begin), after))
  {
    EveryRunIsFine(FRESH, before);
    var w := Exec(FRESH, before);
    var t := Apply(w, begin);
    forall s, q | s in Images(t.disk.state) && q in Images(t.disk.sentinel) ensures !Recovered(s, q).consent {
      RecoveredMeans(s, q);
    }
    StepKeepsFine(w, begin);
    RunStaysWithdrawn(t, after);
  }

  // ---- the revocation latch -------------------------------------------------------

  /** How much of clear, wipe, complete, unblock a run has completed in order. */
  function Cleaned(steps: seq<Step>): nat {
    if steps == [] then 0
    else
      var done := Cleaned(steps[..|steps| - 1]);
      match steps[|steps| - 1]
      case ClearSpool(_, true) => if done == 0 then 1 else done
      case Wipe(_, Durable) => if done == 1 then 2 else done
      case CompletePurge(Durable, Durable, RemoveDurable) => if done == 2 then 3 else done
      case Unblock => if done == 3 then 4 else done
      case _ => done
  }

  predicate SameProcess(steps: seq<Step>) {
    forall i | 0 <= i < |steps| :: !steps[i].Exit? && !steps[i].PowerLoss?
  }

  /** Until a full cleanup has run the latch holds, and the cleanup's phase
      never runs ahead of what has been done. */
  ghost predicate Latched(w: World, done: nat) {
    w.process.Some? && (done == 4 ||
      var p := w.process.value;
      && p.blocked && p.upload.None?
      && done <= 3
      && (p.cleanup.SpoolCleared? ==> done >= 1)
      && (p.cleanup.Wiped? ==> done >= 2)
      && (p.cleanup.Completed? <==> done == 3))
  }

  lemma {:induction false} LegalPrefix(w: World, steps: seq<Step>)
    requires Legal(w, steps) && steps != []
    ensures Legal(w, steps[..|steps| - 1])
    ensures Enabled(Exec(w, steps[..|steps| - 1]), steps[|steps| - 1])
    ensures Exec(w, steps) == Apply(Exec(w, steps[..|steps| - 1]), steps[|steps| - 1])
    decreases |steps|
  {
    if |steps| > 1 {
      LegalPrefix(Apply(w, steps[0]), steps[1..]);
      assert steps[1..][..|steps| - 2] == steps[..|steps| - 1][1..];
    }
  }

  lemma StepKeepsLatch(w: World, step: Step, done: nat, after: nat)
    requires Fine(w) && Enabled(w, step) && !step.Exit? && !step.PowerLoss? && Latched(w, done)
    requires after == match step
      case ClearSpool(_, true) => if done == 0 then 1 else done
      case Wipe(_, Durable) => if done == 1 then 2 else done
      case CompletePurge(Durable, Durable, RemoveDurable) => if done == 2 then 3 else done
      case Unblock => if done == 3 then 4 else done
      case _ => done
    ensures Latched(Apply(w, step), after)
  {
    if done < 4 && step.CompletePurge? {
      assert w.process.value.mem.action == Some(Revocation);
    }
  }

  /** The revocation latch. After a revoked reply, whatever writes fail, the
      same process sends nothing until the queue was cleared, the credentials
      were durably wiped, completion was durably committed and the latch was
      released, in that order. */
  lemma {:induction false} RevocationLatch(w: World, revoked: Step, steps: seq<Step>)
    requires Fine(w) && Enabled(w, revoked) && revoked.Revoked?
    requires Legal(Apply(w, revoked), steps) && SameProcess(steps)
    ensures
      var t := Exec(Apply(w, revoked), steps);
      && Latched(t, Cleaned(steps))
      && (forall payload :: Enabled(t, Request(payload)) ==> Cleaned(steps) == 4)
    decreases |steps|
  {
    var w1 := Apply(w, revoked);
    StepKeepsFine(w, revoked);
    if steps != [] {
      var init, last := steps[..|steps| - 1], steps[|steps| - 1];
      LegalPrefix(w1, steps);
      RevocationLatch(w, revoked, init);
      EveryRunIsFine(w1, init);
      StepKeepsLatch(Exec(w1, init), last, Cleaned(init), Cleaned(steps));
    }
  }
}
