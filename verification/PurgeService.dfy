/** The service's cleanup and the uploader's tick as code. Every statement that
    changes shared state is one step of the purge machine, taken only where the
    machine enables it, so what is proved of runs holds of the code. */
module PurgeService {
  import opened Wrappers
  import opened PurgeStore
  import opened PurgeMachine

  /** What a controller may answer; an accepted reply may announce newer config. */
  datatype Reply = Accepted(newerConfig: bool) | Failed | Rejected

  /** Everything outside the daemon's control during one call. */
  datatype Outcomes = Outcomes(
    clearCommitted: bool, clearOk: bool, now: int, wipe: Write, sentinel: Write, state: Write, removal: Removal,
    batchOk: bool, urlOk: bool, ingest: Reply, ackOk: bool, statsOk: bool, heartbeat: Reply,
    config: Reply, newConfig: int, newVersion: int, configWrite: Write)

  // ---- one tick of the uploader, in the controller's terms ------------------------

  /** The reply to the first request of a tick, if it makes one: to the pending
      batch, or without one to a heartbeat that is due. */
  function FirstReply(batch: set<nat>, heartbeatDue: bool, o: Outcomes): Option<Reply> {
    if !o.batchOk then None
    else if batch != {} then (if o.urlOk then Some(o.ingest) else None)
    else if heartbeatDue && o.statsOk then Some(o.heartbeat)
    else None
  }

  /** The exchange announces newer configuration and was taken note of. */
  predicate Announced(batch: set<nat>, heartbeatDue: bool, o: Outcomes) {
    var first := FirstReply(batch, heartbeatDue, o);
    first.Some? && first.value.Accepted? && first.value.newerConfig && (batch != {} ==> o.ackOk)
  }

  /** The controller turns the sensor away, in either reply. */
  predicate TurnedAway(batch: set<nat>, heartbeatDue: bool, o: Outcomes) {
    || FirstReply(batch, heartbeatDue, o) == Some(Rejected)
    || (Announced(batch, heartbeatDue, o) && o.config.Rejected?)
  }

  function NewSession(s: Session, o: Outcomes): Session {
    s.(config := o.newConfig, configVersion := o.newVersion)
  }

  class Daemon {
    const store: Store
    var spool: set<nat>
    var collected: set<nat>
    var blocked: bool
    var next: nat
    /** Who holds the mode lock, as the machine sees it. */
    ghost var cleanup: Cleanup
    ghost var upload: Option<Stored>

    constructor (store: Store)
      ensures this.store == store
      ensures View() == World(store.disk, Some(Process(store.state, {}, false, Idle, None)), {}, 0)
    {
      this.store := store;
      spool, collected, blocked, next := {}, {}, false, 0;
      cleanup, upload := Idle, None;
    }

    ghost function View(): World
      reads this, store
    {
      World(store.disk, Some(Process(store.state, collected, blocked, cleanup, upload)), spool, next)
    }

    method ResetAggregator()
      requires Enabled(View(), StartCleanup)
      modifies this`collected, this`cleanup
      ensures View() == Apply(old(View()), StartCleanup)
    {
      collected := {};
      cleanup := Started(store.state.action);
    }

    method ClearQueue(committed: bool, ok: bool)
      requires Enabled(View(), ClearSpool(committed, ok))
      modifies this`spool, this`cleanup
      ensures View() == Apply(old(View()), ClearSpool(committed, ok))
    {
      if committed {
        spool := {};
      }
      cleanup := if ok then SpoolCleared(cleanup.action) else Idle;
    }

    method WipeIdentity(action: Option<Action>, at: int, write: Write) returns (ok: bool)
      requires Enabled(View(), Wipe(at, write)) && action == cleanup.action
      modifies this`cleanup, store
      ensures View() == Apply(old(View()), Wipe(at, write)) && (ok <==> write.Durable?)
      ensures ok ==> store.state == WipedOf(old(store.state), RevokedAt(action, at))
    {
      ok := store.WipeCredentials(RevokedAt(action, at), write);
      cleanup := if ok then Wiped(cleanup.action) else Idle;
    }

    method Finish(sentinelWrite: Write, stateWrite: Write, removal: Removal) returns (ok: bool)
      requires Enabled(View(), CompletePurge(sentinelWrite, stateWrite, removal))
      modifies this`cleanup, store
      ensures View() == Apply(old(View()), CompletePurge(sentinelWrite, stateWrite, removal))
      ensures ok == cleanup.Completed?
      ensures ok ==> store.state == Unmarked(old(store.state))
      ensures !ok ==> store.state == old(store.state)
    {
      ok := store.CompleteSSIDPurge(sentinelWrite, stateWrite, removal);
      cleanup := if ok then Completed else Idle;
    }

    method ClearPrivacyBlock()
      requires Enabled(View(), Unblock)
      modifies this`blocked, this`cleanup
      ensures View() == Apply(old(View()), Unblock)
    {
      blocked := false;
      cleanup := Idle;
    }

    /** The end of a cleanup: complete, then release the latch. */
    method FinishAndUnblock(o: Outcomes) returns (ok: bool)
      requires Enabled(View(), CompletePurge(o.sentinel, o.state, o.removal)) && upload.None?
      modifies this`cleanup, this`blocked, store
      ensures Free(View().process.value) && View().spool == old(View()).spool
      ensures ok ==> store.state == Unmarked(old(store.state)) && !blocked
      ensures !ok ==> blocked == old(blocked) && store.state == old(store.state)
    {
      ok := Finish(o.sentinel, o.state, o.removal);
      if ok { ClearPrivacyBlock(); }
    }

    /** completeSSIDPurgeLocked: reset, clear, wipe if the action asks for it,
        complete, release the latch. Any failure stops it with the purge owed. */
    method CleanUp(o: Outcomes) returns (ok: bool)
      requires Free(View().process.value)
      requires o.clearOk ==> o.clearCommitted
      modifies this, store
      ensures Free(View().process.value)
      ensures ok ==> !store.state.pending && !blocked && spool == {} && collected == {}
      ensures ok && NeedsWipe(old(store.state.action)) ==>
        && store.state.credential.None? && store.state.session == NO_SESSION && store.state.mode == Standalone
        && !store.state.consent
        && store.state.revokedAt == if old(store.state.action) == Some(Action.Revocation) then Some(o.now) else None
      ensures ok && !NeedsWipe(old(store.state.action)) ==>
        store.state == Unmarked(old(store.state))
      ensures !ok ==> blocked == old(blocked) && store.state.pending == old(store.state.pending)
      ensures !ok ==> store.state.action == old(store.state.action)
    {
      var current := store.state;
      ResetAggregator();
      ClearQueue(o.clearCommitted, o.clearOk);
      if !o.clearOk { return false; }
      if NeedsWipe(current.action) {
        ok := WipeIdentity(current.action, o.now, o.wipe);
        if !ok { return; }
      }
      ok := FinishAndUnblock(o);
    }

    /** revoke: latch in memory first, then try to make the purge durable. */
    method Revoke(o: Outcomes)
      requires Enabled(View(), Revoked(o.sentinel, o.state))
      modifies this`blocked, this`upload, store
      ensures View() == Apply(old(View()), Revoked(o.sentinel, o.state))
      ensures blocked && Begun(old(store.state), Action.Revocation, store.state)
    {
      blocked, upload := true, None;
      var _ := store.BeginPrivacyPurge(Action.Revocation, o.sentinel, o.state);
    }

    /** One exchange with the controller, allowed only inside an upload. */
    method Send(payload: set<nat>, reply: Reply) returns (r: Reply)
      requires Enabled(View(), Request(payload))
      ensures r == reply
    {
      r := reply;
    }

    /** pullConfig's commit. */
    method StoreConfig(o: Outcomes)
      requires upload.Some?
      modifies store
      ensures View() == Apply(old(View()), ConfigCommit(old(store.state), o))
    {
      var _ := store.CommitLocked(store.state.(session := NewSession(store.state.session, o)), o.configWrite);
    }

    /** The first request of a tick, and what it leads to. */
    method FirstRequest(batch: set<nat>, heartbeatDue: bool, o: Outcomes) returns (sent: bool, reply: Reply)
      requires upload.Some? && batch <= spool
      ensures sent == FirstReply(batch, heartbeatDue, o).Some?
      ensures reply == Rejected <==> FirstReply(batch, heartbeatDue, o) == Some(Rejected)
      ensures reply == Accepted(true) <==> Announced(batch, heartbeatDue, o)
    {
      sent, reply := false, Failed;
      if !o.batchOk { return; }
      if batch != {} {
        if !o.urlOk { return; }
        sent := true;
        reply := Send(batch, o.ingest);
        if reply.Accepted? && !o.ackOk { reply := Failed; }
      } else if heartbeatDue {
        if !o.statsOk { return; }
        sent := true;
        reply := Send({}, o.heartbeat);
      }
    }

    /** The requests of a tick that may upload: one for a batch or a heartbeat,
        and one more exactly for newer configuration. */
    method Exchange(batch: set<nat>, heartbeatDue: bool, o: Outcomes) returns (requests: nat)
      requires upload.Some? && cleanup.Idle? && !blocked && batch <= spool
      modifies this`blocked, this`upload, store
      ensures requests == 0 <==> FirstReply(batch, heartbeatDue, o).None?
      ensures requests == 2 <==> Announced(batch, heartbeatDue, o)
      ensures requests <= 2
      ensures View() == AfterExchange(old(View()), batch, heartbeatDue, o)
    {
      var sent, reply := FirstRequest(batch, heartbeatDue, o);
      requests := if sent then 1 else 0;
      if reply == Accepted(true) {
        reply := Send({}, o.config);
        requests := requests + 1;
        if reply.Accepted? { StoreConfig(o); }
      }
      if reply.Rejected? { Revoke(o); } else { upload := None; }
    }

    /** A tick past its guards: the exchange as an upload of the machine. */
    method Upload(batch: set<nat>, heartbeatDue: bool, o: Outcomes) returns (requests: nat)
      requires Free(View().process.value) && MayUpload(View().process.value) && batch <= spool
      modifies this`blocked, this`upload, store
      ensures Free(View().process.value)
      ensures requests == 0 <==> FirstReply(batch, heartbeatDue, o).None?
      ensures requests == 2 <==> Announced(batch, heartbeatDue, o)
      ensures requests <= 2
      ensures blocked <==> TurnedAway(batch, heartbeatDue, o)
      ensures blocked ==> store.state.pending && store.state.action == Some(Action.Revocation)
      ensures View() == AfterExchange(Apply(old(View()), StartUpload), batch, heartbeatDue, o)
    {
      upload := Some(store.state);
      assert View() == Apply(old(View()), StartUpload);
      requests := Exchange(batch, heartbeatDue, o);
    }

    /** Tick: before its time it does nothing; with the latch set only the marker
        is retried; with a purge pending, or no connected claim, nothing is sent.
        Otherwise it makes one request for a batch or a heartbeat that is due,
        none without either, and a second one exactly when the first reply
        announces newer configuration. The latch is set exactly by a reply that
        turns the sensor away. */
    method Tick(due: bool, batch: set<nat>, heartbeatDue: bool, o: Outcomes) returns (requests: nat)
      requires Free(View().process.value) && batch <= spool
      modifies this`blocked, this`upload, store
      ensures Free(View().process.value)
      ensures requests == 2 <==>
        due && old(MayUpload(View().process.value)) && Announced(batch, heartbeatDue, o)
      ensures requests == 0 <==>
        !(due && old(MayUpload(View().process.value)) && FirstReply(batch, heartbeatDue, o).Some?)
      ensures requests <= 2
      ensures blocked <==>
        old(blocked) || (due && old(MayUpload(View().process.value)) && TurnedAway(batch, heartbeatDue, o))
      ensures blocked && due ==> store.state.pending && store.state.action == Some(Action.Revocation)
      ensures View() ==
        if !due then old(View())
        else if old(blocked) then Apply(old(View()), RetryMarker(o.sentinel, o.state))
        else if !old(MayUpload(View().process.value)) then old(View())
        else AfterExchange(Apply(old(View()), StartUpload), batch, heartbeatDue, o)
    {
      requests := 0;
      if !due { return; }
      if blocked {
        RetryMark(o);
        return;
      }
      if store.state.pending { return; }
      if store.state.credential.None? || !store.state.mode.Connected? { return; }
      requests := Upload(batch, heartbeatDue, o);
    }

    /** The latched branch of Tick. */
    method RetryMark(o: Outcomes)
      requires Free(View().process.value) && blocked
      modifies store
      ensures View() == Apply(old(View()), RetryMarker(o.sentinel, o.state))
      ensures Begun(old(store.state), Action.Revocation, store.state)
      ensures store.state.action == Some(Action.Revocation)
    {
      var _ := store.BeginPrivacyPurge(Action.Revocation, o.sentinel, o.state);
    }
  }

  function ConfigCommit(s: Stored, o: Outcomes): Step {
    OtherCommit(s.consent, NewSession(s.session, o), s.installation, o.configWrite)
  }

  /** What an exchange leaves of the world: a revocation, a stored configuration,
      or no change, with the upload over. */
  ghost function AfterExchange(w: World, batch: set<nat>, heartbeatDue: bool, o: Outcomes): World
    requires w.process.Some? && w.process.value.upload.Some?
  {
    if TurnedAway(batch, heartbeatDue, o) then Apply(w, Revoked(o.sentinel, o.state))
    else if Announced(batch, heartbeatDue, o) && o.config.Accepted? then
      Apply(Apply(w, ConfigCommit(w.process.value.mem, o)), EndUpload)
    else Apply(w, EndUpload)
  }

  /** One tick can make two requests: a claimed, connected sensor sends a due
      heartbeat, and its reply announces newer configuration. */
  method TwoRequestsInOneTick() returns (requests: nat)
    ensures requests == 2
  {
    var stored := Stored(false, None, Some(0), Connected, false, NO_SESSION, None, 0);
    var store := new Store(Disk(File(stored, {}), File(None, {})));
    var daemon := new Daemon(store);
    var o := Outcomes(true, true, 0, Durable, Durable, Durable, RemoveDurable,
      true, true, Failed, true, true, Accepted(true), Accepted(false), 7, 2, Durable);
    requests := daemon.Tick(true, {}, true, o);
  }
}
