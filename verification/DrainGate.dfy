/** The gate that drains admitted work before an update
    (internal/service/activity.go). Every mutex-protected section is one step;
    callers interleave freely and may call their closures any number of times. */
module DrainGate {
  import opened Wrappers

  /** A channel is a number; closing an unset or closed one would panic. */
  type Channel = nat

  /** One call of quiesce: waiting for its channel, returned with a live resume
      closure, or resumed (also how a timed-out call ends). */
  datatype Call = Waiting(channel: Channel) | Granted | Resumed

  datatype Gate = Gate(
    active: int, quiescing: bool, drained: Option<Channel>,
    closed: set<Channel>, issued: nat, panicked: bool,
    outstanding: set<nat>, released: set<nat>, calls: map<nat, Call>)

  const OPEN := Gate(0, false, None, {}, 0, false, {}, {}, map[])

  datatype Step =
    | Begin(ticket: nat)
    | Release(ticket: nat)
    | Quiesce(call: nat)
    | SeeDrained(call: nat, expired: bool)
    | TimeOut(call: nat)
    | Resume(call: nat)

  predicate Enabled(g: Gate, step: Step) {
    match step
    case Begin(t) => t !in g.outstanding && t !in g.released
    case Release(t) => t in g.outstanding || t in g.released
    case Quiesce(c) => c !in g.calls
    case SeeDrained(c, _) => c in g.calls && g.calls[c].Waiting? && g.calls[c].channel in g.closed
    case TimeOut(c) => c in g.calls && g.calls[c].Waiting?
    case Resume(c) => c in g.calls && !g.calls[c].Waiting?
  }

  function Closed(g: Gate): Gate {
    if g.drained.None? || g.drained.value in g.closed then g.(panicked := true)
    else g.(closed := g.closed + {g.drained.value})
  }

  function Reopened(g: Gate, call: nat): Gate {
    g.(quiescing := false, drained := None, calls := g.calls[call := Resumed])
  }

  function Apply(g: Gate, step: Step): Gate
    requires Enabled(g, step)
  {
    match step
    case Begin(t) =>
      if g.quiescing then g else g.(active := g.active + 1, outstanding := g.outstanding + {t})
    case Release(t) =>
      if t in g.released then g
      else
        var less := g.(active := g.active - 1, outstanding := g.outstanding - {t}, released := g.released + {t});
        if less.quiescing && less.active == 0 then Closed(less) else less
    case Quiesce(c) =>
      if g.quiescing then g
      else
        var shut := g.(quiescing := true, drained := Some(g.issued), issued := g.issued + 1,
                       calls := g.calls[c := Waiting(g.issued)]);
        if shut.active == 0 then Closed(shut) else shut
    case SeeDrained(c, expired) => if expired then Reopened(g, c) else g.(calls := g.calls[c := Granted])
    case TimeOut(c) => Reopened(g, c)
    case Resume(c) => if g.calls[c].Resumed? then g else Reopened(g, c)
  }

  ghost predicate IsRun(g: Gate, steps: seq<Step>)
    decreases |steps|
  {
    steps == [] || (Enabled(g, steps[0]) && IsRun(Apply(g, steps[0]), steps[1..]))
  }

  function After(g: Gate, steps: seq<Step>): Gate
    requires IsRun(g, steps)
    decreases |steps|
  {
    if steps == [] then g else After(Apply(g, steps[0]), steps[1..])
  }

  /** The call that has closed the gate and not reopened it. */
  ghost predicate Owns(g: Gate, c: nat) {
    c in g.calls && !g.calls[c].Resumed?
  }

  ghost predicate Sound(g: Gate) {
    && !g.panicked
    && g.active == |g.outstanding| && g.outstanding !! g.released
    && (forall ch | ch in g.closed :: ch < g.issued)
    && (g.drained.Some? <==> g.quiescing)
    && (g.quiescing ==> g.drained.value < g.issued && (g.drained.value in g.closed <==> g.active == 0))
    && (g.quiescing ==> exists c :: Owns(g, c))
    && (forall c | Owns(g, c) :: g.quiescing && (g.calls[c].Waiting? ==> g.drained == Some(g.calls[c].channel)))
    && (forall c, d | Owns(g, c) && Owns(g, d) :: c == d)
    && (forall c | c in g.calls && g.calls[c].Granted? :: g.active == 0)
  }

  lemma ReopenKeepsSound(g: Gate, c: nat)
    requires Sound(g) && Owns(g, c)
    ensures Sound(Reopened(g, c))
  {
    var n := Reopened(g, c);
    forall d | d in n.calls ensures n.calls[d].Resumed? {
      assert d != c ==> !Owns(g, d);
    }
  }

  lemma ReleaseKeepsSound(g: Gate, t: nat)
    requires Sound(g) && Enabled(g, Release(t))
    ensures Sound(Apply(g, Release(t)))
  {
    var n := Apply(g, Release(t));
    assert t in g.outstanding ==> |g.outstanding - {t}| == |g.outstanding| - 1;
    assert forall c :: Owns(n, c) <==> Owns(g, c);
  }

  lemma QuiesceKeepsSound(g: Gate, c: nat)
    requires Sound(g) && Enabled(g, Quiesce(c))
    ensures Sound(Apply(g, Quiesce(c)))
  {
    var n := Apply(g, Quiesce(c));
    if !g.quiescing {
      assert forall d :: !Owns(g, d);
      assert forall d :: Owns(n, d) <==> d == c;
      assert Owns(n, c);
    }
  }

  lemma StepKeepsSound(g: Gate, step: Step)
    requires Sound(g) && Enabled(g, step)
    ensures Sound(Apply(g, step))
  {
    var n := Apply(g, step);
    match step {
      case Begin(t) => assert forall c :: Owns(n, c) <==> Owns(g, c);
      case Release(t) => ReleaseKeepsSound(g, t);
      case Quiesce(c) => QuiesceKeepsSound(g, c);
      case SeeDrained(c, expired) =>
        assert Owns(g, c);
        if expired { ReopenKeepsSound(g, c); }
        assert !expired ==> forall d :: Owns(n, d) <==> Owns(g, d);
      case TimeOut(c) => assert Owns(g, c); ReopenKeepsSound(g, c);
      case Resume(c) => if g.calls[c].Granted? { assert Owns(g, c); ReopenKeepsSound(g, c); }
    }
  }

  /** In every interleaving: `active` is the number of unreleased admissions, no
      channel is closed twice or while unset, and a granted call finds the gate
      shut with nothing active. */
  lemma {:induction false} EveryRunIsSound(g: Gate, steps: seq<Step>)
    requires Sound(g) && IsRun(g, steps)
    ensures Sound(After(g, steps))
    decreases |steps|
  {
    if steps != [] {
      StepKeepsSound(g, steps[0]);
      EveryRunIsSound(Apply(g, steps[0]), steps[1..]);
    }
  }

  predicate Resumes(steps: seq<Step>, c: nat) {
    exists i :: 0 <= i < |steps| && steps[i] == Resume(c)
  }

  /** From a granted quiesce until its own resume nothing is admitted and
      nothing is active, whatever stale closures of other calls do. */
  lemma {:induction false} GrantedMeansIdle(g: Gate, c: nat, steps: seq<Step>)
    requires Sound(g) && c in g.calls && g.calls[c].Granted?
    requires IsRun(g, steps) && !Resumes(steps, c)
    ensures
      var n := After(g, steps);
      c in n.calls && n.calls[c].Granted? && n.active == 0 && n.outstanding == {} && n.released == g.released
    decreases |steps|
  {
    assert Owns(g, c);
    if steps == [] {
    } else {
      assert steps[0] != Resume(c);
      forall d | d != c ensures !Owns(g, d) {
      }
      StepKeepsSound(g, steps[0]);
      var n := Apply(g, steps[0]);
      forall i | 0 <= i < |steps[1..]| ensures steps[1..][i] != Resume(c) {
        assert steps[1..][i] == steps[i + 1];
      }
      GrantedMeansIdle(n, c, steps[1..]);
    }
  }

  /** A stale closure has no effect at all. */
  lemma StaleClosuresDoNothing(g: Gate, ticket: nat, call: nat)
    requires ticket in g.released && call in g.calls && g.calls[call].Resumed?
    ensures Apply(g, Release(ticket)) == g && Apply(g, Resume(call)) == g
  {
  }

  /** A waiting call can see its channel closed exactly when all work is done. */
  lemma WaitingEndsWhenIdle(steps: seq<Step>, call: nat)
    requires IsRun(OPEN, steps)
    requires
      var g := After(OPEN, steps);
      call in g.calls && g.calls[call].Waiting?
    ensures
      var g := After(OPEN, steps);
      Enabled(g, SeeDrained(call, false)) <==> g.outstanding == {}
  {
    EveryRunIsSound(OPEN, steps);
    assert Owns(After(OPEN, steps), call);
  }

  // ---- the code -------------------------------------------------------------

  class ActivityGate {
    var active: int
    var quiescing: bool
    var drained: Option<Channel>
    var closed: set<Channel>
    var issued: nat
    /** The closures handed out, which only their holders keep. */
    ghost var outstanding: set<nat>
    ghost var released: set<nat>
    ghost var calls: map<nat, Call>

    ghost function View(): Gate
      reads this
    {
      Gate(active, quiescing, drained, closed, issued, false, outstanding, released, calls)
    }

    constructor ()
      ensures View() == OPEN && Sound(View())
    {
      active, quiescing, drained, closed, issued := 0, false, None, {}, 0;
      outstanding, released, calls := {}, {}, map[];
    }

    /** close: a panic unless the channel is set and still open. */
    method CloseDrained()
      requires drained.Some? && drained.value !in closed
      modifies `closed
      ensures closed == old(closed) + {drained.value} && View() == Closed(old(View()))
    {
      closed := closed + {drained.value};
    }

    /** begin: admitted unless the gate is shut. */
    method Begin(ghost ticket: nat) returns (admission: Option<Admission>)
      requires Sound(View()) && Enabled(View(), Step.Begin(ticket))
      modifies this
      ensures View() == Apply(old(View()), Step.Begin(ticket)) && Sound(View())
      ensures admission.Some? == !old(quiescing)
      ensures admission.Some? ==>
        fresh(admission.value) && admission.value.gate == this && admission.value.ticket == ticket
        && !admission.value.done && admission.value.Valid()
    {
      StepKeepsSound(View(), Step.Begin(ticket));
      if quiescing { return None; }
      active, outstanding := active + 1, outstanding + {ticket};
      var a := new Admission(this, ticket);
      return Some(a);
    }

    /** The locked half of quiesce. */
    method Shut(ghost call: nat) returns (shutting: Option<Shutting>)
      requires Sound(View()) && Enabled(View(), Quiesce(call))
      modifies this
      ensures View() == Apply(old(View()), Quiesce(call)) && Sound(View())
      ensures shutting.Some? == !old(quiescing)
      ensures shutting.Some? ==>
        fresh(shutting.value) && shutting.value.gate == this && shutting.value.call == call
        && !shutting.value.resumed && shutting.value.Valid()
        && calls[call] == Waiting(shutting.value.channel)
    {
      StepKeepsSound(View(), Quiesce(call));
      if quiescing { return None; }
      quiescing := true;
      var channel := issued;
      drained, issued, calls := Some(channel), issued + 1, calls[call := Waiting(channel)];
      if active == 0 { CloseDrained(); }
      var s := new Shutting(this, call, channel);
      return Some(s);
    }
  }

  /** The closure begin returns; its first call gives the admission back. */
  class Admission {
    const gate: ActivityGate
    ghost const ticket: nat
    var done: bool

    ghost predicate Valid()
      reads this, gate
    {
      if done then ticket in gate.released else ticket in gate.outstanding && ticket !in gate.released
    }

    constructor (gate: ActivityGate, ghost ticket: nat)
      ensures this.gate == gate && this.ticket == ticket && !done
    {
      this.gate, this.ticket := gate, ticket;
      done := false;
    }

    method Release()
      requires Valid() && Sound(gate.View())
      modifies this, gate
      ensures done && Valid()
      ensures gate.View() == Apply(old(gate.View()), Step.Release(ticket)) && Sound(gate.View())
    {
      StepKeepsSound(gate.View(), Step.Release(ticket));
      if done { return; }
      done := true;
      gate.active := gate.active - 1;
      gate.outstanding, gate.released := gate.outstanding - {ticket}, gate.released + {ticket};
      if gate.quiescing && gate.active == 0 { gate.CloseDrained(); }
    }
  }

  /** A call of quiesce with its resume closure. */
  class Shutting {
    const gate: ActivityGate
    ghost const call: nat
    const channel: Channel
    var resumed: bool

    ghost predicate Valid()
      reads this, gate
    {
      call in gate.calls && (resumed <==> gate.calls[call].Resumed?)
    }

    constructor (gate: ActivityGate, ghost call: nat, channel: Channel)
      ensures this.gate == gate && this.call == call && this.channel == channel && !resumed
    {
      this.gate, this.call, this.channel := gate, call, channel;
      resumed := false;
    }

    /** The body of the resume closure. */
    method Reopen()
      requires Valid() && Sound(gate.View())
      modifies this, gate`quiescing, gate`drained, gate`calls
      ensures resumed && Valid() && Sound(gate.View())
      ensures gate.View() == if old(resumed) then old(gate.View()) else Reopened(old(gate.View()), call)
    {
      if resumed { return; }
      ReopenKeepsSound(gate.View(), call);
      resumed := true;
      gate.quiescing, gate.drained, gate.calls := false, None, gate.calls[call := Resumed];
    }

    method Resume()
      requires Valid() && Sound(gate.View()) && !gate.calls[call].Waiting?
      modifies this, gate`quiescing, gate`drained, gate`calls
      ensures resumed && Valid() && Sound(gate.View())
      ensures gate.View() == Apply(old(gate.View()), Step.Resume(call))
    {
      Reopen();
    }

    /** The select that ends quiesce: the closed channel or the expired context,
        whichever it picks. */
    method Await(drainedFirst: bool, expired: bool) returns (granted: bool)
      requires Valid() && Sound(gate.View()) && gate.calls[call] == Waiting(channel)
      requires if drainedFirst then channel in gate.closed else expired
      modifies this, gate`quiescing, gate`drained, gate`calls
      ensures Valid() && Sound(gate.View())
      ensures gate.View()
        == Apply(old(gate.View()), if drainedFirst then SeeDrained(call, expired) else TimeOut(call))
      ensures granted == (drainedFirst && !expired)
      ensures granted ==> gate.quiescing && gate.active == 0 && !resumed
    {
      StepKeepsSound(gate.View(), if drainedFirst then SeeDrained(call, expired) else TimeOut(call));
      if drainedFirst && !expired {
        gate.calls := gate.calls[call := Granted];
        return true;
      }
      Reopen();
      return false;
    }
  }
}
