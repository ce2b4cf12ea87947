/**
 * What the traces of the model do to one condition variable is a run of its policy, and
 * when a thread that waits on it can go on.
 */
module CvRuns {
  import opened Basics
  import opened CvPolicy
  import opened SignalAccounting
  import opened WakeLaws
  import opened Transitions
  import opened ProgramSpec
  import opened MutualExclusion

  /** What a transition means to the policy of `c`. */
  function EventOf(t: Transition, c: ObjId): Option<Event> {
    match t
    case CvEnqueue(e, d, _) => if c == d then Some(Enqueue(e)) else None
    case CvWait(e, d, _) => if c == d then Some(WakeUp(e)) else None
    case CvSignal(_, d) => if c == d then Some(SignalSent) else None
    case CvBroadcast(_, d) => if c == d then Some(BroadcastSent) else None
    case _ => None
  }

  /** Initialising or destroying the condition variable gives it an empty policy. */
  predicate Renews(t: Transition, c: ObjId) {
    (t.CvInit? || t.CvDestroy?) && t.cv == c
  }

  /** The events since then. */
  function Events(trace: Trace, c: ObjId): seq<Event> {
    if trace == [] || Renews(trace[|trace| - 1], c) then [] else
      var e := EventOf(trace[|trace| - 1], c);
      Events(trace[..|trace| - 1], c) + if e.Some? then [e.value] else []
  }

  function PolicyIn(s: State, c: ObjId): Policy
    requires IsCv(s, c)
  {
    s.objs[c].policy
  }

  lemma RenewalEmpties(t: Transition, s: State, c: ObjId)
    requires IsCv(s, c) && WellTyped(t, s) && Enabled(t, s) && Renews(t, c)
    ensures IsCv(Step(t, s), c) && PolicyIn(Step(t, s), c) == EMPTY_POLICY
  {
  }

  /** A transition changes the policy of `c` as its event does, and is enabled only if
      the event can happen; enqueueing is left to the program. */
  lemma StepIsEvent(t: Transition, s: State, c: ObjId)
    requires IsCv(s, c) && WellTyped(t, s) && Enabled(t, s) && !Renews(t, c)
    ensures IsCv(Step(t, s), c)
    ensures var e := EventOf(t, c);
      && (e == None ==> PolicyIn(Step(t, s), c) == PolicyIn(s, c))
      && (e.Some? && !e.value.Enqueue? ==> CanHappen(PolicyIn(s, c), e.value))
      && (e.Some? && CanHappen(PolicyIn(s, c), e.value) ==> PolicyIn(Step(t, s), c) == Next(PolicyIn(s, c), e.value))
  {
    hide Signal, Broadcast, Wake, CanExit;
    StepKeepsShape(t, s);
  }

  /** `t` enqueued itself on `c` and has not woken up since. */
  ghost predicate Waits(trace: Trace, c: ObjId, t: RunnerId) {
    exists i :: 0 <= i < |trace| && EventOf(trace[i], c) == Some(Enqueue(t))
                && forall k :: i < k < |trace| ==> EventOf(trace[k], c) != Some(WakeUp(t))
  }

  /** `pthread_cond_wait` enqueues and then waits: no thread enqueues itself twice in a row. */
  ghost predicate WaitsInPairs(trace: Trace, c: ObjId) {
    forall j, t :: 0 <= j < |trace| && EventOf(trace[j], c) == Some(Enqueue(t)) ==> !Waits(trace[..j], c, t)
  }

  /** A condition variable that nobody waits on at the start. */
  ghost predicate Fair(s: State, trace: Trace, c: ObjId) {
    IsCv(s, c) && PolicyIn(s, c) == EMPTY_POLICY && WaitsInPairs(trace, c)
  }

  /** Whoever the policy lists has enqueued itself and not woken up. */
  ghost predicate Listed(trace: Trace, c: ObjId, p: Policy) {
    forall t :: t in p.queue || t in p.eligible ==> Waits(trace, c, t)
  }

  lemma ListedGrows(trace: Trace, x: Transition, c: ObjId, p: Policy, p': Policy)
    requires Listed(trace, c, p) && Inv(p)
    requires var e := EventOf(x, c);
      if e == None then p' == p else CanHappen(p, e.value) && p' == Next(p, e.value)
    ensures Listed(trace + [x], c, p')
  {
    hide Inv;
    forall t | t in p'.queue || t in p'.eligible ensures Waits(trace + [x], c, t) {
      if EventOf(x, c) == Some(Enqueue(t)) {
        assert (trace + [x])[|trace|] == x;
      } else {
        StillListed(p, EventOf(x, c), p', t);
        WaitsGrows(trace, x, c, t);
      }
    }
  }

  lemma WaitsGrows(trace: Trace, x: Transition, c: ObjId, t: RunnerId)
    requires Waits(trace, c, t) && EventOf(x, c) != Some(WakeUp(t))
    ensures Waits(trace + [x], c, t)
  {
    var i :| 0 <= i < |trace| && EventOf(trace[i], c) == Some(Enqueue(t))
             && forall k :: i < k < |trace| ==> EventOf(trace[k], c) != Some(WakeUp(t));
    assert (trace + [x])[i] == trace[i];
  }

  lemma WokenLeaves(p: Policy, w: RunnerId, t: RunnerId)
    requires Inv(p) && CanExit(p, w) && (t in Wake(p, w).queue || t in Wake(p, w).eligible)
    ensures (t in p.queue || t in p.eligible) && t != w
  {
    RemoveFirstSpec(p.queue, w);
  }

  lemma BroadcastKeepsWaiters(p: Policy, t: RunnerId)
    requires Inv(p) && t in Broadcast(p).eligible
    ensures t in p.queue || t in p.eligible
  {
    WaitingIsWholeQueue(p, p.queue);
    assert forall i :: 0 <= i < |p.groups| ==> Within(p.groups[i], p.queue);
  }

  /** Nobody else joins, and whoever wakes up leaves. */
  lemma StillListed(p: Policy, e: Option<Event>, p': Policy, t: RunnerId)
    requires Inv(p) && e != Some(Enqueue(t))
    requires if e == None then p' == p else CanHappen(p, e.value) && p' == Next(p, e.value)
    requires t in p'.queue || t in p'.eligible
    ensures (t in p.queue || t in p.eligible) && e != Some(WakeUp(t))
  {
    hide Inv, Wake, CanExit;
    if e.Some? {
      match e.value
      case WakeUp(w) => WokenLeaves(p, w, t);
      case BroadcastSent => BroadcastListed(p, t);
      case _ =>
    }
  }

  lemma BroadcastListed(p: Policy, t: RunnerId)
    requires Inv(p) && (t in Next(p, BroadcastSent).queue || t in Next(p, BroadcastSent).eligible)
    ensures t in p.queue || t in p.eligible
  {
    hide Inv;
    if HasWaiters(p) && t in Broadcast(p).eligible {
      BroadcastKeepsWaiters(p, t);
    }
  }

  lemma RunGrows(h: seq<Event>, p: Policy, e: Event)
    requires After(h) == Some(p) && CanHappen(p, e)
    ensures After(h + [e]) == Some(Next(p, e))
  {
    assert (h + [e])[..|h|] == h;
  }

  /** One more step of the trace. */
  lemma StepExtendsRun(front: Trace, x: Transition, s: State, c: ObjId)
    requires IsCv(s, c) && WellTyped(x, s) && Enabled(x, s)
    requires After(Events(front, c)) == Some(PolicyIn(s, c)) && Listed(front, c, PolicyIn(s, c))
    requires forall t :: EventOf(x, c) == Some(Enqueue(t)) ==> !Waits(front, c, t)
    ensures IsCv(Step(x, s), c)
    ensures After(Events(front + [x], c)) == Some(PolicyIn(Step(x, s), c))
    ensures Listed(front + [x], c, PolicyIn(Step(x, s), c))
  {
    hide Step, Enabled, WellTyped, Inv, CanHappen, Next, Listed, Waits, Events;
    EventsGrow(front, x, c);
    if Renews(x, c) {
      RenewalEmpties(x, s, c);
      NobodyListed(front + [x], c);
    } else {
      hide After;
      var p, e := PolicyIn(s, c), EventOf(x, c);
      StepIsEvent(x, s, c);
      RunKeepsInv(Events(front, c));
      EnqueueCanHappen(front, x, c, p);
      ListedGrows(front, x, c, p, PolicyIn(Step(x, s), c));
      if e.Some? {
        RunGrows(Events(front, c), p, e.value);
      }
    }
  }

  lemma NobodyListed(trace: Trace, c: ObjId)
    ensures Listed(trace, c, EMPTY_POLICY)
  {
  }

  /** The policy in the state is the policy after the events of the trace. */
  lemma {:induction false} TraceIsRun(s: State, trace: Trace, c: ObjId)
    requires Fair(s, trace, c) && Execute(s, trace).Some?
    ensures IsCv(Execute(s, trace).value, c)
    ensures After(Events(trace, c)) == Some(PolicyIn(Execute(s, trace).value, c))
    ensures Listed(trace, c, PolicyIn(Execute(s, trace).value, c))
  {
    hide Step, Enabled, WellTyped, Waits, WaitsInPairs;
    if trace != [] {
      var n := |trace| - 1;
      assert trace == trace[..n] + [trace[n]];
      FairFront(s, trace, c);
      TraceIsRun(s, trace[..n], c);
      StepExtendsRun(trace[..n], trace[n], Execute(s, trace[..n]).value, c);
    }
  }

  lemma FairFront(s: State, trace: Trace, c: ObjId)
    requires Fair(s, trace, c) && trace != []
    ensures Fair(s, trace[..|trace| - 1], c)
    ensures forall t :: EventOf(trace[|trace| - 1], c) == Some(Enqueue(t)) ==> !Waits(trace[..|trace| - 1], c, t)
  {
    var n := |trace| - 1;
    forall j, t | 0 <= j < n && EventOf(trace[..n][j], c) == Some(Enqueue(t)) ensures !Waits(trace[..n][..j], c, t) {
      assert trace[..n][..j] == trace[..j] && trace[..n][j] == trace[j];
    }
  }

  lemma EnqueueCanHappen(front: Trace, x: Transition, c: ObjId, p: Policy)
    requires Listed(front, c, p)
    requires forall t :: EventOf(x, c) == Some(Enqueue(t)) ==> !Waits(front, c, t)
    ensures EventOf(x, c).Some? && EventOf(x, c).value.Enqueue? ==> CanHappen(p, EventOf(x, c).value)
  {
  }

  lemma EventsGrow(front: Trace, x: Transition, c: ObjId)
    ensures Renews(x, c) ==> Events(front + [x], c) == []
    ensures EventOf(x, c) == None && !Renews(x, c) ==> Events(front + [x], c) == Events(front, c)
    ensures EventOf(x, c).Some? ==> Events(front + [x], c) == Events(front, c) + [EventOf(x, c).value]
  {
    assert (front + [x])[..|front|] == front;
  }

  /** So in every state of such a trace the wake groups form a chain, and every wake-up
      so far that was not due to a broadcast used up a signal of its own. */
  lemma TraceAccounts(s: State, trace: Trace, c: ObjId)
    requires Fair(s, trace, c) && Execute(s, trace).Some?
    ensures IsCv(Execute(s, trace).value, c) && Inv(PolicyIn(Execute(s, trace).value, c))
    ensures exists used :: Accounts(Events(trace, c), used)
  {
    hide Accounts, Inv, Fair, Execute;
    TraceIsRun(s, trace, c);
    RunKeepsInv(Events(trace, c));
    EveryWakeUpHasItsSignal(Events(trace, c));
  }

  // --- When a waiting thread goes on ---

  predicate EnqueuesOn(t: Transition, c: ObjId) {
    t.CvEnqueue? && t.cv == c
  }

  /** Whoever waits on `c` does so with the mutex `m`, as POSIX demands of concurrent waiters. */
  ghost predicate OneMutex(trace: Trace, c: ObjId, m: ObjId) {
    forall i :: 0 <= i < |trace| && EnqueuesOn(trace[i], c) ==> trace[i].mutex == m
  }

  /** Somebody enqueued since the condition variable was last initialised or destroyed. */
  predicate SomeoneEnqueued(trace: Trace, c: ObjId) {
    && trace != [] && !Renews(trace[|trace| - 1], c)
    && (EnqueuesOn(trace[|trace| - 1], c) || SomeoneEnqueued(trace[..|trace| - 1], c))
  }

  /** The condition variable is in use with `m`, and counts its queue. */
  ghost predicate Bound(s: State, c: ObjId, m: ObjId) {
    && IsCv(s, c) && IsMutex(s, m)
    && s.objs[c].phase == PhaseFor(PolicyIn(s, c))
    && s.objs[c].mutexAt == s.objs[m].location
    && s.objs[c].waiting == |PolicyIn(s, c).queue|
  }

  lemma StepKeepsAddress(t: Transition, s: State, m: ObjId)
    requires IsMutex(s, m) && WellTyped(t, s) && Enabled(t, s)
    ensures IsMutex(Step(t, s), m) && Step(t, s).objs[m].location == s.objs[m].location
  {
    hide Signal, Broadcast, Wake, CanExit, AddWaiter;
    StepKeepsShape(t, s);
  }

  lemma StepKeepsCv(t: Transition, s: State, c: ObjId)
    requires IsCv(s, c) && WellTyped(t, s) && Enabled(t, s)
    ensures IsCv(Step(t, s), c)
  {
    hide Modify;
    StepKeepsShape(t, s);
  }

  lemma StepBinds(t: Transition, s: State, c: ObjId, m: ObjId)
    requires IsCv(s, c) && IsMutex(s, m) && WellTyped(t, s) && Enabled(t, s) && !Renews(t, c)
    requires if EnqueuesOn(t, c) then t.mutex == m else Bound(s, c, m)
    ensures Bound(Step(t, s), c, m)
  {
    hide Signal, Broadcast, Wake, CanExit;
    StepKeepsShape(t, s);
    StepKeepsAddress(t, s, m);
    assert c != m;
  }

  /** After such an enqueue the condition variable is bound to the mutex. */
  lemma {:induction false} TraceBinds(s: State, trace: Trace, c: ObjId, m: ObjId)
    requires Fair(s, trace, c) && Execute(s, trace).Some? && IsMutex(s, m) && OneMutex(trace, c, m)
    ensures var s' := Execute(s, trace).value;
      IsCv(s', c) && IsMutex(s', m) && (SomeoneEnqueued(trace, c) ==> Bound(s', c, m))
  {
    hide Step, Enabled, WellTyped, Waits, WaitsInPairs, Bound;
    if trace != [] {
      var n := |trace| - 1;
      FairFront(s, trace, c);
      TraceBinds(s, trace[..n], c, m);
      var s0 := Execute(s, trace[..n]).value;
      StepKeepsCv(trace[n], s0, c);
      StepKeepsAddress(trace[n], s0, m);
      if SomeoneEnqueued(trace, c) {
        StepBinds(trace[n], s0, c, m);
      }
    }
  }

  /** Whoever is not awake has enqueued itself. */
  lemma {:induction false} SleepersEnqueued(trace: Trace, c: ObjId, t: RunnerId)
    requires StandingOf(Events(trace, c), t) != Awake
    ensures SomeoneEnqueued(trace, c)
  {
    hide StandingOf;
    NobodyYet(t);
    if trace != [] {
      var n := |trace| - 1;
      assert trace == trace[..n] + [trace[n]];
      EventsGrow(trace[..n], trace[n], c);
      if !Renews(trace[n], c) && !EnqueuesOn(trace[n], c) {
        if EventOf(trace[n], c).Some? {
          StandingGrows(Events(trace[..n], c), EventOf(trace[n], c).value, t);
        }
        SleepersEnqueued(trace[..n], c, t);
      }
    }
  }

  lemma BoundWait(s: State, c: ObjId, m: ObjId, t: RunnerId)
    requires Bound(s, c, m) && IsRunner(s, t) && StatusOfRunner(s, t) == Running
    ensures WellTyped(CvWait(t, c, m), s)
    ensures Enabled(CvWait(t, c, m), s) <==> s.objs[m].lock == Unlocked && CanExit(PolicyIn(s, c), t)
  {
    hide CanExit, Wake;
  }

  /** A thread that waits on `c` with `m` can go on exactly when `m` is unlocked and a
      broadcast has freed it, or a signal that it heard has not been used by another one. */
  lemma WaitIsEnabled(s: State, trace: Trace, c: ObjId, m: ObjId, t: RunnerId) returns (used: map<nat, nat>)
    requires Fair(s, trace, c) && Execute(s, trace).Some? && IsMutex(s, m) && OneMutex(trace, c, m)
    requires var s' := Execute(s, trace).value; IsRunner(s', t) && StatusOfRunner(s', t) == Running
    requires StandingOf(Events(trace, c), t) != Awake
    ensures Accounts(Events(trace, c), used)
    ensures var s', h := Execute(s, trace).value, Events(trace, c);
      && WellTyped(CvWait(t, c, m), s')
      && (Enabled(CvWait(t, c, m), s') <==>
            s'.objs[m].lock == Unlocked
            && (StandingOf(h, t) == Freed || exists z: nat :: Heard(h, t, z) && z !in used.Values))
  {
    hide Execute, Enabled, Bound, Fair, OneMutex, StandingOf, Accounts, Heard, CanExit;
    TraceIsRun(s, trace, c);
    TraceBinds(s, trace, c, m);
    SleepersEnqueued(trace, c, t);
    used := WhoCanExit(Events(trace, c));
    BoundWait(Execute(s, trace).value, c, m, t);
  }
}
