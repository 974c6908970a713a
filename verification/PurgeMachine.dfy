/** The privacy purge as a step machine: store, service cleanup, uploader,
    telemetry, crashes and restarts, in any interleaving the mode lock allows
    (internal/state/store.go, internal/service/service.go, internal/uploader/uploader.go). */
module PurgeMachine {
  import opened Wrappers
  import opened PurgeStore

  /** Where the service is inside completeSSIDPurgeLocked; each phase remembers
      the action read when the cleanup began. */
  datatype Cleanup =
    | Idle
    | Started(action: Option<Action>)
    | SpoolCleared(action: Option<Action>)
    | Wiped(action: Option<Action>)
    | Completed

  /** A running daemon: the store's memory, samples not yet queued, the
      uploader's revocation latch, the snapshot of an upload in progress. */
  datatype Process = Process(
    mem: Stored, collected: set<nat>, blocked: bool, cleanup: Cleanup, upload: Option<Stored>)

  /** Telemetry and credentials carry the serial number at which they came into
      being; `next` is the next serial. `spool` is the durable queue. */
  datatype World = World(disk: Disk, process: Option<Process>, spool: set<nat>, next: nat)

  datatype Step =
    | Open(write: Write)
    | Exit
    | PowerLoss(state: Stored, sentinel: Option<Action>)
    | Collect
    | Discard(dropped: set<nat>)
    | Flush(moved: set<nat>)
    | Forget(removed: set<nat>)
    | OtherCommit(consent: bool, session: Session, installation: int, write: Write)
    | SwitchMode(mode: Mode, write: Write)
    | Enroll(session: Session, write: Write)
    | BeginPurge(action: Action, sentinelWrite: Write, stateWrite: Write)
    | StartCleanup
    | ClearSpool(committed: bool, ok: bool)
    | Wipe(at: int, write: Write)
    | CompletePurge(sentinelWrite: Write, stateWrite: Write, removal: Removal)
    | Unblock
    | StartUpload
    | Request(payload: set<nat>)
    | Revoked(sentinelWrite: Write, stateWrite: Write)
    | EndUpload
    | RetryMarker(sentinelWrite: Write, stateWrite: Write)

  /** The mode lock is free for a writer. */
  predicate Free(p: Process) {
    p.cleanup.Idle? && p.upload.None?
  }

  /** The uploader's guard: no latch, no pending purge, a claimed connected sensor. */
  predicate MayUpload(p: Process) {
    !p.blocked && !p.mem.pending && p.mem.credential.Some? && p.mem.mode.Connected?
  }

  predicate NeedsWipe(action: Option<Action>) {
    action == Some(Disconnect) || action == Some(Revocation)
  }

  predicate Enabled(w: World, step: Step) {
    match step
    case Open(_) => w.process.None?
    case Exit => w.process.Some?
    case PowerLoss(s, q) => s in Images(w.disk.state) && q in Images(w.disk.sentinel)
    case Forget(_) => true
    case _ => w.process.Some? && EnabledIn(w, w.process.value, step)
  }

  predicate EnabledIn(w: World, p: Process, step: Step) {
    match step
    case Open(_) => false
    case Exit => true
    case PowerLoss(_, _) => true
    case Forget(_) => true
    case Collect => true
    case Discard(_) => true
    case Flush(moved) => p.cleanup.Idle? && moved <= p.collected
    case OtherCommit(consent, _, _, _) => consent ==> p.mem.consent || !p.mem.pending
    case SwitchMode(_, _) => Free(p)
    case Enroll(_, _) => Free(p)
    case BeginPurge(_, _, _) => Free(p)
    case StartCleanup => Free(p)
    case ClearSpool(committed, ok) => p.cleanup.Started? && (ok ==> committed)
    case Wipe(_, _) => p.cleanup.SpoolCleared? && NeedsWipe(p.cleanup.action)
    case CompletePurge(_, _, _) => p.cleanup.Wiped? || (p.cleanup.SpoolCleared? && !NeedsWipe(p.cleanup.action))
    case Unblock => p.cleanup.Completed?
    case StartUpload => Free(p) && MayUpload(p)
    case Request(payload) => p.upload.Some? && payload <= w.spool
    case Revoked(_, _) => p.upload.Some?
    case EndUpload => p.upload.Some?
    case RetryMarker(_, _) => Free(p) && p.blocked
  }

  function Apply(w: World, step: Step): World
    requires Enabled(w, step)
  {
    match step
    case Open(write) =>
      var s := Recovered(w.disk.state.seen, w.disk.sentinel.seen);
      w.(disk := w.disk.(state := Replaced(w.disk.state, s, write)),
         process := if write.Durable? then Some(Process(s, {}, false, Idle, None)) else None)
    case Exit => w.(process := None)
    case PowerLoss(s, q) => w.(disk := Disk(File(s, {}), File(q, {})), process := None)
    case Forget(removed) => w.(spool := w.spool - removed)
    case _ => ApplyIn(w, w.process.value, step)
  }

  /** SetMode: a switch ends a pause. */
  function Switched(s: Stored, mode: Mode): Stored {
    s.(mode := mode, session := s.session.(pausedUntil := None))
  }

  /** SetEnrollment: a new credential, with the session that comes with it. */
  function Enrolled(s: Stored, serial: nat, session: Session): Stored {
    s.(credential := Some(serial), mode := Connected, consent := false, revokedAt := None,
       session := session.(pausedUntil := None, handledRequests := map[]))
  }

  function RevokedAt(action: Option<Action>, at: int): Option<int> {
    if action == Some(Revocation) then Some(at) else None
  }

  function SetStore(w: World, p: Process, after: (Stored, Disk)): World {
    w.(disk := after.1, process := Some(p.(mem := after.0)))
  }

  function ApplyIn(w: World, p: Process, step: Step): World
    requires w.process == Some(p) && EnabledIn(w, p, step)
  {
    match step
    case Collect => w.(process := Some(p.(collected := p.collected + {w.next})), next := w.next + 1)
    case Discard(dropped) => w.(process := Some(p.(collected := p.collected - dropped)))
    case Flush(moved) => w.(process := Some(p.(collected := p.collected - moved)), spool := w.spool + moved)
    case OtherCommit(consent, session, installation, write) =>
      var next := p.mem.(consent := consent, session := session, installation := installation);
      SetStore(w, p, Commit(p.mem, w.disk, next, write))
    case SwitchMode(mode, write) =>
      if mode.Setup? || (mode.Connected? && p.mem.credential.None?) then w
      else SetStore(w, p, Commit(p.mem, w.disk, Switched(p.mem, mode), write))
    case Enroll(session, write) =>
      var next := Enrolled(p.mem, w.next, session);
      SetStore(w, p, Commit(p.mem, w.disk, next, write)).(next := w.next + 1)
    case BeginPurge(action, sentinelWrite, stateWrite) =>
      SetStore(w, p, Begin(p.mem, w.disk, action, sentinelWrite, stateWrite))
    case StartCleanup => w.(process := Some(p.(collected := {}, cleanup := Started(p.mem.action))))
    case ClearSpool(committed, ok) =>
      w.(spool := if committed then {} else w.spool,
         process := Some(p.(cleanup := if ok then SpoolCleared(p.cleanup.action) else Idle)))
    case Wipe(at, write) =>
      var done := if write.Durable? then Wiped(p.cleanup.action) else Idle;
      SetStore(w, p.(cleanup := done), Commit(p.mem, w.disk, WipedOf(p.mem, RevokedAt(p.cleanup.action, at)), write))
    case CompletePurge(sentinelWrite, stateWrite, removal) =>
      var (mem, disk, ok) := Complete(p.mem, w.disk, sentinelWrite, stateWrite, removal);
      SetStore(w, p.(cleanup := if ok then Completed else Idle), (mem, disk))
    case Unblock => w.(process := Some(p.(blocked := false, cleanup := Idle)))
    case StartUpload => w.(process := Some(p.(upload := Some(p.mem))))
    case Request(_) => w
    case Revoked(sentinelWrite, stateWrite) =>
      SetStore(w, p.(blocked := true, upload := None), Begin(p.mem, w.disk, Revocation, sentinelWrite, stateWrite))
    case EndUpload => w.(process := Some(p.(upload := None)))
    case RetryMarker(sentinelWrite, stateWrite) =>
      SetStore(w, p, Begin(p.mem, w.disk, Revocation, sentinelWrite, stateWrite))
    case _ => w
  }

  /** An enrollment starts anew: connected under its own credential, without consent,
      pause, revocation or handled requests. */
  lemma EnrollmentStartsAnew(s: Stored, serial: nat, session: Session)
    ensures
      var t := Enrolled(s, serial, session);
      && t.credential == Some(serial) && t.mode == Connected && !t.consent && t.revokedAt.None?
      && t.session.pausedUntil.None? && t.session.handledRequests == map[]
      && t.session.(pausedUntil := session.pausedUntil, handledRequests := session.handledRequests) == session
      && t.pending == s.pending && t.action == s.action && t.installation == s.installation
  {
  }

  /** A mode switch ends a pause and changes nothing else but the mode. */
  lemma SwitchEndsPause(s: Stored, mode: Mode)
    ensures
      var t := Switched(s, mode);
      && t.mode == mode && t.session.pausedUntil.None?
      && t.(mode := s.mode, session := t.session.(pausedUntil := s.session.pausedUntil)) == s
  {
  }

  ghost predicate Legal(w: World, steps: seq<Step>)
    decreases |steps|
  {
    steps == [] || (Enabled(w, steps[0]) && Legal(Apply(w, steps[0]), steps[1..]))
  }

  function Exec(w: World, steps: seq<Step>): World
    requires Legal(w, steps)
    decreases |steps|
  {
    if steps == [] then w else Exec(Apply(w, steps[0]), steps[1..])
  }

  /** A fresh installation that has not started yet. */
  const FRESH := World(
    Disk(File(Stored(false, None, None, Setup, false, NO_SESSION, None, 0), {}), File(None, {})), None, {}, 0)

  // ---- well-formed worlds ---------------------------------------------------

  predicate Issued(s: Stored, next: nat) {
    s.credential.Some? ==> s.credential.value < next
  }

  ghost predicate FineProcess(p: Process, next: nat) {
    && Issued(p.mem, next)
    && (forall t | t in p.collected :: t < next)
    && (p.mem.pending <==> p.mem.action.Some?)
    && (p.mem.pending ==> !p.mem.consent)
    && (p.blocked && !p.cleanup.Completed? ==> p.mem.action == Some(Revocation))
    && (p.cleanup.Started? || p.cleanup.SpoolCleared? || p.cleanup.Wiped? ==> p.cleanup.action == p.mem.action)
    && (p.cleanup.Wiped? ==> NeedsWipe(p.mem.action) && p.mem.credential.None?)
    && (p.upload.Some? ==> p.cleanup.Idle? && Issued(p.upload.value, next) && !p.blocked && !p.mem.pending)
  }

  /** Serial numbers were issued, pending and action agree, a pending purge implies
      that consent is withdrawn, the latch implies a pending revocation, and an
      upload in progress implies neither. */
  ghost predicate Fine(w: World) {
    && (forall t | t in w.spool :: t < w.next)
    && (forall s | s in Images(w.disk.state) :: Issued(s, w.next))
    && (w.process.Some? ==> FineProcess(w.process.value, w.next))
  }

  /** The steps that write the state file. */
  predicate Writes(step: Step) {
    || step.OtherCommit? || step.SwitchMode? || step.Enroll? || step.Wipe? || step.CompletePurge?
    || step.BeginPurge? || step.Revoked? || step.RetryMarker?
  }

  lemma WriteKeepsIssued(file: File<Stored>, s: Stored, write: Write, next: nat)
    requires Issued(s, next) && forall image | image in Images(file) :: Issued(image, next)
    ensures forall image | image in Images(Replaced(file, s, write)) :: Issued(image, next)
  {
    assert file.seen in Images(file);
  }

  lemma WritingKeepsFine(w: World, p: Process, step: Step)
    requires Fine(w) && w.process == Some(p) && EnabledIn(w, p, step) && Writes(step)
    ensures Fine(ApplyIn(w, p, step))
  {
    forall s: Stored, write | Issued(s, w.next + 1)
      ensures forall image | image in Images(Replaced(w.disk.state, s, write)) :: Issued(image, w.next + 1)
    {
      WriteKeepsIssued(w.disk.state, s, write, w.next + 1);
    }
    forall s: Stored, write | Issued(s, w.next)
      ensures forall image | image in Images(Replaced(w.disk.state, s, write)) :: Issued(image, w.next)
    {
      WriteKeepsIssued(w.disk.state, s, write, w.next);
    }
  }

  lemma MemoryStepKeepsFine(w: World, p: Process, step: Step)
    requires Fine(w) && w.process == Some(p) && EnabledIn(w, p, step)
    requires !step.Open? && !step.Exit? && !step.PowerLoss? && !step.Forget? && !Writes(step)
    ensures Fine(ApplyIn(w, p, step))
  {
  }

  lemma ProcessStepKeepsFine(w: World, p: Process, step: Step)
    requires Fine(w) && w.process == Some(p) && EnabledIn(w, p, step)
    requires !step.Open? && !step.Exit? && !step.PowerLoss? && !step.Forget?
    ensures Fine(ApplyIn(w, p, step))
  {
    if Writes(step) {
      WritingKeepsFine(w, p, step);
    } else {
      MemoryStepKeepsFine(w, p, step);
    }
  }

  lemma OpenKeepsFine(w: World, write: Write)
    requires Fine(w) && w.process.None?
    ensures Fine(Apply(w, Open(write)))
  {
    var s := Recovered(w.disk.state.seen, w.disk.sentinel.seen);
    assert w.disk.state.seen in Images(w.disk.state) && Issued(w.disk.state.seen, w.next);
    assert s.credential == w.disk.state.seen.credential && Issued(s, w.next);
    assert forall image | image in Images(Replaced(w.disk.state, s, write)) ::
      image == s || image in Images(w.disk.state);
  }

  lemma PowerLossKeepsFine(w: World, s: Stored, q: Option<Action>)
    requires Fine(w) && Enabled(w, PowerLoss(s, q))
    ensures Fine(Apply(w, PowerLoss(s, q)))
  {
    assert Images(File(s, {})) == {s};
  }

  lemma StepKeepsFine(w: World, step: Step)
    requires Fine(w) && Enabled(w, step)
    ensures Fine(Apply(w, step))
  {
    match step {
      case Open(write) => OpenKeepsFine(w, write);
      case Exit =>
      case PowerLoss(s, q) => PowerLossKeepsFine(w, s, q);
      case Forget(_) =>
      case _ => ProcessStepKeepsFine(w, w.process.value, step);
    }
  }

  lemma {:induction false} EveryRunIsFine(w: World, steps: seq<Step>)
    requires Fine(w) && Legal(w, steps)
    ensures Fine(Exec(w, steps))
    decreases |steps|
  {
    if steps != [] {
      StepKeepsFine(w, steps[0]);
      EveryRunIsFine(Apply(w, steps[0]), steps[1..]);
    }
  }
}
