/**
 * Which operation a thread can take, told by what was executed so far and not by the state:
 * who is inside which critical section, who has started, exited or been created, and which
 * messages a waiting thread has heard.
 */
module Enabledness {
  import opened Basics
  import opened CvPolicy
  import opened WakeLaws
  import opened Transitions
  import opened Dependency
  import opened Independence
  import opened ProgramSpec
  import opened MutualExclusion
  import opened ThreadLifecycle
  import opened CvRuns

  /** The mutex has been used or initialised; from then on it is locked or unlocked. */
  predicate InPlay(trace: Trace, m: ObjId, first: bool) {
    if trace == [] then first else
      var t := trace[|trace| - 1];
      Acquires(t, m) || Releases(t, m) || Resets(t, m) || InPlay(trace[..|trace| - 1], m, first)
  }

  predicate IsSet(mx: Obj)
    requires mx.Mutex?
  {
    mx.lock == Locked || mx.lock == Unlocked
  }

  /** The condition variable is initialised and not destroyed; enqueueing initialises too. */
  predicate InUse(trace: Trace, c: ObjId, first: bool) {
    if trace == [] then first else
      var t := trace[|trace| - 1];
      if CvOf(t) != Some(c) then InUse(trace[..|trace| - 1], c, first)
      else if t.CvInit? || t.CvEnqueue? then true
      else if t.CvDestroy? then false
      else InUse(trace[..|trace| - 1], c, first)
  }

  predicate Usable(cv: Obj)
    requires cv.Cv?
  {
    cv.phase != PhaseUninitialized && cv.phase != PhaseDestroyed
  }

  /** The address that the condition variable knows: that of the mutex last waited with. */
  function KnownAddress(s: State, trace: Trace, c: ObjId): Address
    requires IsCv(s, c)
  {
    if trace == [] then s.objs[c].mutexAt else
      var t := trace[|trace| - 1];
      if CvOf(t) != Some(c) then KnownAddress(s, trace[..|trace| - 1], c)
      else if t.CvInit? || t.CvDestroy? then NULL
      else if (t.CvEnqueue? || t.CvWait?) && IsMutex(s, t.mutex) then s.objs[t.mutex].location
      else KnownAddress(s, trace[..|trace| - 1], c)
  }

  /** At the start nobody is inside a mutex of the operation or waits on its condition variable. */
  ghost predicate AtRest(s: State, trace: Trace, t: Transition) {
    && WellFormed(s) && WellTyped(t, s)
    && (MutexOf(t).Some? ==> OwnerIn(s, MutexOf(t).value) == None)
    && (CvOf(t).Some? ==> Fair(s, trace, CvOf(t).value))
  }

  /** What the trace says of an operation. */
  ghost predicate EnabledBy(s: State, trace: Trace, t: Transition)
    requires AtRest(s, trace, t)
  {
    && StatusBy(trace, t.executor, StatusOfRunner(s, t.executor)) == Running
    && match t
       case MutexInit(_, _) => true
       case MutexLock(_, m) => Holder(trace, m) == None
       case MutexUnlock(e, m) => Holder(trace, m) == Some(e)
       case CvInit(_, _) => true
       case CvEnqueue(e, _, m) => Holder(trace, m) == Some(e)
       case CvWait(e, c, m) =>
         && InUse(trace, c, Usable(s.objs[c])) && KnownAddress(s, trace, c) == s.objs[m].location
         && Holder(trace, m) == None && InPlay(trace, m, IsSet(s.objs[m]))
         && MayLeave(trace, c, e)
       case CvSignal(_, c) => InUse(trace, c, Usable(s.objs[c]))
       case CvBroadcast(_, c) => InUse(trace, c, Usable(s.objs[c]))
       case CvDestroy(_, c) => InUse(trace, c, Usable(s.objs[c])) && NobodyAsleep(Events(trace, c))
       case ThreadStart(_) => true
       case ThreadCreate(_, _) => true
       case ThreadJoin(_, r) => StatusBy(trace, r, StatusOfRunner(s, r)) == Exited
       case ThreadExit(e) => e != RID_MAIN_THREAD
  }

  /** Nobody enqueued without having woken up or heard a broadcast since. */
  ghost predicate NobodyAsleep(h: seq<Event>) {
    forall r :: StandingOf(h, r) != Asleep
  }

  /** A broadcast freed the thread, or it heard a signal that is not used up. */
  ghost predicate MayLeave(trace: Trace, c: ObjId, e: RunnerId) {
    After(Events(trace, c)).Some? && CanExit(After(Events(trace, c)).value, e)
  }

  // --- What the state keeps of the trace ---

  lemma {:induction false} ShapeAfter(s: State, trace: Trace)
    requires Execute(s, trace).Some?
    ensures SameShape(s, Execute(s, trace).value)
  {
    hide Step, Enabled, WellTyped;
    if trace != [] {
      var n := |trace| - 1;
      ShapeAfter(s, trace[..n]);
      StepKeepsShape(trace[n], Execute(s, trace[..n]).value);
    }
  }

  lemma StepPlays(t: Transition, s: State, m: ObjId)
    requires IsMutex(s, m) && WellTyped(t, s) && Enabled(t, s)
    ensures IsMutex(Step(t, s), m)
    ensures IsSet(Step(t, s).objs[m]) <==> Acquires(t, m) || Releases(t, m) || Resets(t, m) || IsSet(s.objs[m])
  {
    hide Signal, Broadcast, Wake, CanExit, AddWaiter;
    StepKeepsShape(t, s);
  }

  lemma {:induction false} MutexAfter(s: State, trace: Trace, m: ObjId)
    requires Execute(s, trace).Some? && IsMutex(s, m)
    ensures var s' := Execute(s, trace).value;
      IsMutex(s', m) && s'.objs[m].location == s.objs[m].location && (IsSet(s'.objs[m]) <==> InPlay(trace, m, IsSet(s.objs[m])))
  {
    hide Step, Enabled, WellTyped;
    if trace != [] {
      var n := |trace| - 1;
      MutexAfter(s, trace[..n], m);
      StepPlays(trace[n], Execute(s, trace[..n]).value, m);
      StepKeepsAddress(trace[n], Execute(s, trace[..n]).value, m);
    }
  }

  lemma StepUses(t: Transition, s: State, c: ObjId)
    requires IsCv(s, c) && WellTyped(t, s) && Enabled(t, s)
    ensures var s' := Step(t, s);
      && IsCv(s', c)
      && (CvOf(t) != Some(c) ==> s'.objs[c] == s.objs[c])
      && (CvOf(t) == Some(c) ==>
           && (Usable(s'.objs[c]) <==> t.CvInit? || t.CvEnqueue? || (!t.CvDestroy? && Usable(s.objs[c])))
           && s'.objs[c].mutexAt == if t.CvInit? || t.CvDestroy? then NULL
                                    else if t.CvEnqueue? || t.CvWait? then s.objs[t.mutex].location
                                    else s.objs[c].mutexAt)
  {
    hide Signal, Broadcast, Wake, CanExit, AddWaiter;
    StepKeepsShape(t, s);
  }

  lemma {:induction false} CvAfter(s: State, trace: Trace, c: ObjId)
    requires Execute(s, trace).Some? && IsCv(s, c)
    ensures var s' := Execute(s, trace).value;
      && IsCv(s', c)
      && (Usable(s'.objs[c]) <==> InUse(trace, c, Usable(s.objs[c])))
      && s'.objs[c].mutexAt == KnownAddress(s, trace, c)
  {
    hide Step, Enabled, WellTyped;
    if trace != [] {
      var n := |trace| - 1;
      var t, s0 := trace[n], Execute(s, trace[..n]).value;
      CvAfter(s, trace[..n], c);
      StepUses(t, s0, c);
      if t.CvEnqueue? || t.CvWait? {
        WaitsWithMutex(t, s0);
        ShapeAfter(s, trace[..n]);
        MutexAfter(s, trace[..n], t.mutex);
      }
    }
  }

  lemma WaitsWithMutex(t: Transition, s: State)
    requires WellTyped(t, s) && (t.CvEnqueue? || t.CvWait?)
    ensures IsMutex(s, t.mutex)
  {
  }

  // --- The phase of a condition variable ---

  lemma QueueIsAsleep(trace: Trace, c: ObjId)
    requires After(Events(trace, c)).Some?
    ensures After(Events(trace, c)).value.queue == [] <==> NobodyAsleep(Events(trace, c))
  {
    hide StandingOf, Events;
    PolicyIsByHistory(Events(trace, c));
    var q := After(Events(trace, c)).value.queue;
    if q != [] {
      assert StandingOf(Events(trace, c), q[0]) == Asleep;
    }
  }

  datatype Use = Use(phase: CvPhase, lastRunner: RunnerId)

  function UseIn(cv: Obj): Use
    requires cv.Cv?
  {
    Use(cv.phase, cv.lastRunner)
  }

  /** Its phase and last runner by the trace: a message that finds nobody asleep changes
      neither, and afterwards it is waiting while somebody is asleep. */
  ghost function UseOf(trace: Trace, c: ObjId, first: Use): Use {
    if trace == [] then first else
      var t, front := trace[|trace| - 1], trace[..|trace| - 1];
      if CvOf(t) != Some(c) then UseOf(front, c, first) else
        match t
        case CvInit(_, _) => Use(PhaseInitialized, RID_INVALID)
        case CvDestroy(e, _) => Use(PhaseDestroyed, e)
        case CvEnqueue(e, _, _) => Use(PhaseWaiting, e)
        case CvWait(e, _, _) => Use(if NobodyAsleep(Events(trace, c)) then PhaseSignaled else PhaseWaiting, e)
        case CvSignal(_, _) => if NobodyAsleep(Events(front, c)) then UseOf(front, c, first) else Use(PhaseWaiting, RID_INVALID)
        case CvBroadcast(e, _) => if NobodyAsleep(Events(front, c)) then UseOf(front, c, first) else Use(PhaseSignaled, e)
        case _ => UseOf(front, c, first)
  }

  /** What one step makes of the phase, by the queues before and after it. */
  lemma StepUse(t: Transition, s: State, c: ObjId)
    requires IsCv(s, c) && WellTyped(t, s) && Enabled(t, s) && Inv(PolicyIn(s, c))
    ensures IsCv(Step(t, s), c)
    ensures var u, u', idle := UseIn(s.objs[c]), UseIn(Step(t, s).objs[c]), PolicyIn(s, c).queue == [];
      if CvOf(t) != Some(c) then u' == u else
        match t
        case CvInit(_, _) => u' == Use(PhaseInitialized, RID_INVALID)
        case CvDestroy(e, _) => u' == Use(PhaseDestroyed, e)
        case CvEnqueue(e, _, _) => u' == Use(PhaseWaiting, e)
        case CvWait(e, _, _) => u' == Use(if PolicyIn(Step(t, s), c).queue == [] then PhaseSignaled else PhaseWaiting, e)
        case CvSignal(_, _) => u' == if idle then u else Use(PhaseWaiting, RID_INVALID)
        case CvBroadcast(e, _) => u' == if idle then u else Use(PhaseSignaled, e)
        case _ => true
  {
    hide Wake, CanExit, Inv;
    StepKeepsShape(t, s);
  }

  lemma {:induction false} UseIsByTrace(s: State, trace: Trace, c: ObjId)
    requires Fair(s, trace, c) && Execute(s, trace).Some?
    ensures IsCv(Execute(s, trace).value, c)
    ensures UseIn(Execute(s, trace).value.objs[c]) == UseOf(trace, c, UseIn(s.objs[c]))
  {
    hide Step, Enabled, WellTyped, NobodyAsleep, Waits, WaitsInPairs, UseIn, Listed, Events;
    TraceIsRun(s, trace, c);
    QueueIsAsleep(trace, c);
    if trace != [] {
      var n := |trace| - 1;
      FairFront(s, trace, c);
      UseIsByTrace(s, trace[..n], c);
      TraceIsRun(s, trace[..n], c);
      QueueIsAsleep(trace[..n], c);
      RunKeepsInv(Events(trace[..n], c));
      StepUse(trace[n], Execute(s, trace[..n]).value, c);
    }
  }

  // --- One operation ---

  lemma MutexEnabled(t: Transition, s: State)
    requires WellTyped(t, s) && OnMutex(t)
    ensures Enabled(t, s) <==>
              && StatusOfRunner(s, t.executor) == Running
              && (t.MutexLock? ==> OwnerIn(s, t.mutex) == None)
              && (t.MutexUnlock? ==> OwnerIn(s, t.mutex) == Some(t.executor))
  {
  }

  lemma CvEnabled(t: Transition, s: State)
    requires WellTyped(t, s) && CvOf(t).Some?
    ensures Enabled(t, s) <==>
              && StatusOfRunner(s, t.executor) == Running
              && (t.CvEnqueue? ==> OwnerIn(s, t.mutex) == Some(t.executor))
              && (!t.CvInit? && !t.CvEnqueue? ==> Usable(s.objs[t.cv]))
              && (t.CvDestroy? ==> PolicyIn(s, t.cv).queue == [])
              && (t.CvWait? ==> s.objs[t.cv].mutexAt == s.objs[t.mutex].location && OwnerIn(s, t.mutex) == None
                                && IsSet(s.objs[t.mutex]) && CanExit(PolicyIn(s, t.cv), t.executor))
  {
    hide Signal, Broadcast, Wake, CanExit, AddWaiter;
  }

  lemma ThreadEnabled(t: Transition, s: State)
    requires WellTyped(t, s) && !OnMutex(t) && CvOf(t) == None
    ensures Enabled(t, s) <==>
              && StatusOfRunner(s, t.executor) == Running
              && (t.ThreadJoin? ==> StatusOfRunner(s, t.target) == Exited)
              && (t.ThreadExit? ==> t.executor != RID_MAIN_THREAD)
  {
  }

  // --- The theorem ---

  lemma CvIsByTrace(s: State, trace: Trace, t: Transition)
    requires Execute(s, trace).Some? && AtRest(s, trace, t) && CvOf(t).Some?
    ensures WellTyped(t, Execute(s, trace).value) && (Enabled(t, Execute(s, trace).value) <==> EnabledBy(s, trace, t))
  {
    hide Execute, Enabled, Fair, NobodyAsleep, CanExit, Usable, IsSet, Listed, WellFormed;
    var s', c := Execute(s, trace).value, CvOf(t).value;
    ShapeAfter(s, trace);
    ShapeKeepsTyping(t, s, s');
    StatusIsByTrace(s, trace, t.executor);
    TraceIsRun(s, trace, c);
    CvAfter(s, trace, c);
    QueueIsAsleep(trace, c);
    CvEnabled(t, s');
    if t.CvEnqueue? || t.CvWait? {
      HolderIsOwner(s, trace, t.mutex);
      MutexAfter(s, trace, t.mutex);
    }
  }

  lemma MutexIsByTrace(s: State, trace: Trace, t: Transition)
    requires Execute(s, trace).Some? && AtRest(s, trace, t) && OnMutex(t)
    ensures WellTyped(t, Execute(s, trace).value) && (Enabled(t, Execute(s, trace).value) <==> EnabledBy(s, trace, t))
  {
    hide Execute, Enabled, WellFormed;
    ShapeAfter(s, trace);
    ShapeKeepsTyping(t, s, Execute(s, trace).value);
    StatusIsByTrace(s, trace, t.executor);
    HolderIsOwner(s, trace, t.mutex);
    MutexEnabled(t, Execute(s, trace).value);
  }

  lemma ThreadIsByTrace(s: State, trace: Trace, t: Transition)
    requires Execute(s, trace).Some? && AtRest(s, trace, t) && !OnMutex(t) && CvOf(t) == None
    ensures WellTyped(t, Execute(s, trace).value) && (Enabled(t, Execute(s, trace).value) <==> EnabledBy(s, trace, t))
  {
    hide Execute, Enabled, WellFormed;
    ShapeAfter(s, trace);
    ShapeKeepsTyping(t, s, Execute(s, trace).value);
    StatusIsByTrace(s, trace, t.executor);
    if t.ThreadJoin? {
      StatusIsByTrace(s, trace, t.target);
    }
    ThreadEnabled(t, Execute(s, trace).value);
  }

  /** An operation is enabled in the state exactly when the trace that led there says so. */
  lemma EnabledIsByTrace(s: State, trace: Trace, t: Transition)
    requires Execute(s, trace).Some? && AtRest(s, trace, t)
    ensures WellTyped(t, Execute(s, trace).value) && (Enabled(t, Execute(s, trace).value) <==> EnabledBy(s, trace, t))
  {
    hide Execute, Enabled, WellTyped, EnabledBy;
    if CvOf(t).Some? {
      CvIsByTrace(s, trace, t);
    } else if OnMutex(t) {
      MutexIsByTrace(s, trace, t);
    } else {
      ThreadIsByTrace(s, trace, t);
    }
  }
}
