/** The state file, the purge sentinel beside it, and the store operations that
    write them (internal/state/store.go). */
module PurgeStore {
  import opened Wrappers

  datatype Action = SSID | Disconnect | Revocation

  function Priority(action: Option<Action>): nat {
    match action
    case None => 0
    case Some(SSID) => 1
    case Some(Disconnect) => 2
    case Some(Revocation) => 3
  }

  datatype Mode = Setup | Standalone | Connected

  /** What a sensor keeps from working with one controller: its configuration,
      the pause, the times and the bytes of speed tests, the requests it has
      handled and the key for network pseudonyms. Configurations and keys are
      numbers. */
  datatype Session = Session(
    config: int, configVersion: int, pausedUntil: Option<int>, lastTests: map<string, int>,
    dayBytes: nat, monthBytes: nat, handledRequests: map<string, int>, networkKey: Option<int>)

  const DEFAULT_CONFIG: int := 0
  const NO_SESSION := Session(DEFAULT_CONFIG, 1, None, map[], 0, 0, map[], None)

  /** The state file. A credential is named by the serial number of the
      enrollment that issued it; `installation` stands for what outlives every
      controller, such as the sensor's own identifier and its update channel. */
  datatype Stored = Stored(
    pending: bool, action: Option<Action>, credential: Option<nat>, mode: Mode, consent: bool,
    session: Session, revokedAt: Option<int>, installation: int)

  /** How a file replacement can end: the old file still there, the new file
      visible but not known durable, or the new file durable. */
  datatype Write = NotReplaced | NotSynced | Durable

  /** A file: what a reader sees, and what a power loss may bring back. */
  datatype File<!T> = File(seen: T, stale: set<T>)

  function Images<T>(file: File<T>): set<T> {
    {file.seen} + file.stale
  }

  function Replaced<T>(file: File<T>, value: T, write: Write): File<T> {
    match write
    case NotReplaced => file
    case NotSynced => File(value, file.stale + {file.seen})
    case Durable => File(value, {})
  }

  datatype Disk = Disk(state: File<Stored>, sentinel: File<Option<Action>>)

  /** beginPrivacyPurge: withdraw consent, mark the purge pending, and raise the
      action, never lowering it. */
  function Strengthened(s: Stored, action: Action): Stored {
    s.(consent := false, pending := true,
       action := if Priority(Some(action)) > Priority(s.action) then Some(action) else s.action)
  }

  /** Open: what a restart makes of a state file and a sentinel. */
  function Recovered(s: Stored, sentinel: Option<Action>): Stored {
    var s1 := if sentinel.Some? then Strengthened(s, sentinel.value) else s;
    var s2 := if s1.mode.Connected? && s1.credential.None? then s1.(mode := Setup) else s1;
    if s2.pending || s2.action.Some?
    then s2.(pending := true, consent := false, action := if s2.action.None? then Some(SSID) else s2.action)
    else s2
  }

  /** A begin withdraws consent, marks the purge and leaves the stronger of the two
      actions; nothing else of the state changes. */
  ghost predicate Begun(before: Stored, action: Action, after: Stored) {
    && !after.consent && after.pending
    && after == before.(consent := false, pending := true, action := after.action)
    && (after.action == before.action || after.action == Some(action))
    && Priority(after.action) >= Priority(before.action) && Priority(after.action) >= Priority(Some(action))
  }

  /** A restart finds a purge pending exactly if the state file or the sentinel
      says so, then without consent and at the strongest action either names; a
      connected sensor without a credential is back in setup. */
  lemma RecoveredMeans(s: Stored, sentinel: Option<Action>)
    ensures
      var r := Recovered(s, sentinel);
      && (r.pending <==> s.pending || s.action.Some? || sentinel.Some?) && (r.pending <==> r.action.Some?)
      && (r.pending ==> !r.consent) && (!r.pending ==> r.consent == s.consent)
      && (r.action == s.action || r.action == sentinel || (r.action == Some(SSID) && s.pending))
      && Priority(r.action) >= Priority(s.action) && Priority(r.action) >= Priority(sentinel)
      && r.mode == (if s.mode == Connected && s.credential.None? then Setup else s.mode)
      && r == s.(pending := r.pending, action := r.action, mode := r.mode, consent := r.consent)
  {
  }

  /** WipeCredentials: nothing issued by or kept from the controller remains. */
  function WipedOf(s: Stored, revokedAt: Option<int>): Stored {
    s.(credential := None, mode := Standalone, consent := false, session := NO_SESSION, revokedAt := revokedAt)
  }

  // ---- the store operations on values ---------------------------------------

  /** commitLocked: memory follows the file as soon as the file is replaced. */
  function Commit(mem: Stored, disk: Disk, next: Stored, write: Write): (Stored, Disk) {
    (if write.NotReplaced? then mem else next, disk.(state := Replaced(disk.state, next, write)))
  }

  /** BeginPrivacyPurge: sentinel, then state; memory blocks whatever happens. */
  function Begin(mem: Stored, disk: Disk, action: Action, sentinelWrite: Write, stateWrite: Write): (Stored, Disk) {
    var next := Strengthened(mem, action);
    (next, Disk(Replaced(disk.state, next, stateWrite), Replaced(disk.sentinel, next.action, sentinelWrite)))
  }

  /** The state with its purge marker cleared. */
  function Unmarked(s: Stored): Stored {
    if s.pending then s.(pending := false, action := None) else s
  }

  datatype Removal = RemoveFailed | RemoveNotSynced | RemoveDurable

  function SentinelAfter(file: File<Option<Action>>, removal: Removal): File<Option<Action>> {
    match removal
    case RemoveFailed => file
    case RemoveNotSynced => Replaced(file, None, NotSynced)
    case RemoveDurable => Replaced(file, None, Durable)
  }

  /** CompleteSSIDPurge: refresh the sentinel, commit the cleared state, remove
      the sentinel. Any failure leaves memory pending. */
  function Complete(mem: Stored, disk: Disk, sentinelWrite: Write, stateWrite: Write, removal: Removal)
    : (Stored, Disk, bool)
  {
    if !mem.pending then (mem, disk, true)
    else
      var marked := disk.(sentinel := Replaced(disk.sentinel, mem.action, sentinelWrite));
      if !sentinelWrite.Durable? then (mem, marked, false)
      else
        var next := mem.(pending := false, action := None);
        var cleared := marked.(state := Replaced(marked.state, next, stateWrite));
        if !stateWrite.Durable? then (mem, cleared, false)
        else
          var ended := cleared.(sentinel := SentinelAfter(cleared.sentinel, removal));
          (if removal.RemoveDurable? then next else mem, ended, removal.RemoveDurable?)
  }

  /** The same operations as the store performs them, under its mutex. */
  class Store {
    var state: Stored
    var disk: Disk

    /** A successful Open: recover, then rewrite the state file durably. */
    constructor (found: Disk)
      ensures state == Recovered(found.state.seen, found.sentinel.seen)
      ensures disk == Disk(File(state, {}), found.sentinel)
    {
      var s := found.state.seen;
      if found.sentinel.seen.Some? {
        s := Strengthened(s, found.sentinel.seen.value);
      }
      if s.mode.Connected? && s.credential.None? {
        s := s.(mode := Setup);
      }
      if s.action.Some? {
        s := s.(pending := true);
      }
      if s.pending {
        s := s.(consent := false);
        if s.action.None? {
          s := s.(action := Some(SSID));
        }
      } else {
        s := s.(action := None);
      }
      state := s;
      disk := Disk(File(s, {}), found.sentinel);
    }

    method CommitLocked(next: Stored, write: Write) returns (ok: bool)
      modifies this
      ensures (state, disk) == Commit(old(state), old(disk), next, write)
      ensures ok <==> write.Durable?
    {
      var replaced := !write.NotReplaced?;
      disk := disk.(state := Replaced(disk.state, next, write));
      if replaced {
        state := next;
      }
      ok := write.Durable?;
    }

    method BeginPrivacyPurge(action: Action, sentinelWrite: Write, stateWrite: Write) returns (ok: bool)
      modifies this
      ensures (state, disk) == Begin(old(state), old(disk), action, sentinelWrite, stateWrite)
      ensures !state.consent && state.pending && Begun(old(state), action, state)
      ensures ok <==> stateWrite.Durable?
    {
      var next := Strengthened(state, action);
      disk := disk.(sentinel := Replaced(disk.sentinel, next.action, sentinelWrite));
      disk := disk.(state := Replaced(disk.state, next, stateWrite));
      state := next;
      ok := stateWrite.Durable?;
    }

    method CompleteSSIDPurge(sentinelWrite: Write, stateWrite: Write, removal: Removal) returns (ok: bool)
      modifies this
      ensures (state, disk, ok) == Complete(old(state), old(disk), sentinelWrite, stateWrite, removal)
      ensures ok <==>
        !old(state).pending || (sentinelWrite.Durable? && stateWrite.Durable? && removal.RemoveDurable?)
      ensures state ==
        if old(state).pending && ok then old(state).(pending := false, action := None) else old(state)
    {
      if !state.pending { return true; }
      var current := state;
      disk := disk.(sentinel := Replaced(disk.sentinel, current.action, sentinelWrite));
      if !sentinelWrite.Durable? { return false; }
      var next := current.(pending := false, action := None);
      disk := disk.(state := Replaced(disk.state, next, stateWrite));
      if !stateWrite.Durable? {
        state := current;
        return false;
      }
      state := next;
      disk := disk.(sentinel := SentinelAfter(disk.sentinel, removal));
      if !removal.RemoveDurable? {
        state := current;
        return false;
      }
      ok := true;
    }

    method WipeCredentials(revokedAt: Option<int>, write: Write) returns (ok: bool)
      modifies this
      ensures (state, disk) == Commit(old(state), old(disk), WipedOf(old(state), revokedAt), write)
      ensures !write.NotReplaced? ==>
        && state.credential.None? && state.mode == Standalone && !state.consent && state.session == NO_SESSION
        && state.revokedAt == revokedAt && state.pending == old(state).pending && state.action == old(state).action
        && state.installation == old(state).installation
      ensures ok <==> write.Durable?
    {
      var next := state;
      next := next.(credential := None, mode := Standalone, consent := false, revokedAt := revokedAt);
      next := next.(session := Session(DEFAULT_CONFIG, 1, None, map[], 0, 0, map[], None));
      ok := CommitLocked(next, write);
    }
  }
}
