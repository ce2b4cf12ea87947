/** Visible objects, states and what each transition does to a state. */
module Transitions {
  import opened Basics
  import opened CvPolicy

  datatype ThreadStatus = Running | Exited | Killed | Embryo
  datatype MutexStatus = MutexUninitialized | Unlocked | Locked | MutexDestroyed
  datatype CvPhase = PhaseUninitialized | PhaseInitialized | PhaseWaiting | PhaseSignaled | PhaseTransitional | PhaseDestroyed

  /** The address of a mutex in the target process; zero is the null pointer. */
  type Address = nat
  const NULL: Address := 0

  datatype Obj =
    | Thread(status: ThreadStatus)
    | Mutex(lock: MutexStatus, location: Address, owner: RunnerId)
    | Cv(phase: CvPhase, lastRunner: RunnerId, mutexAt: Address, waiting: nat, policy: Policy)

  type Diff = map<ObjId, Obj>

  datatype State = State(objs: map<ObjId, Obj>, runners: map<RunnerId, ObjId>)

  datatype Transition =
    | MutexInit(executor: RunnerId, mutex: ObjId)
    | MutexLock(executor: RunnerId, mutex: ObjId)
    | MutexUnlock(executor: RunnerId, mutex: ObjId)
    | CvInit(executor: RunnerId, cv: ObjId)
    | CvEnqueue(executor: RunnerId, cv: ObjId, mutex: ObjId)
    | CvWait(executor: RunnerId, cv: ObjId, mutex: ObjId)
    | CvSignal(executor: RunnerId, cv: ObjId)
    | CvBroadcast(executor: RunnerId, cv: ObjId)
    | CvDestroy(executor: RunnerId, cv: ObjId)
    | ThreadStart(executor: RunnerId)
    | ThreadCreate(executor: RunnerId, target: RunnerId)
    | ThreadJoin(executor: RunnerId, target: RunnerId)
    | ThreadExit(executor: RunnerId)

  datatype Outcome = Exists(diff: Diff) | Disabled | Undefined

  // --- Well-typed ids: what the unchecked casts of the implementation rely on ---

  predicate IsRunner(s: State, r: RunnerId) {
    r in s.runners && s.runners[r] in s.objs && s.objs[s.runners[r]].Thread?
  }

  predicate IsMutex(s: State, m: ObjId) { m in s.objs && s.objs[m].Mutex? }

  predicate IsCv(s: State, c: ObjId) { c in s.objs && s.objs[c].Cv? }

  predicate WellTyped(t: Transition, s: State) {
    && IsRunner(s, t.executor)
    && match t
       case MutexInit(_, m) => IsMutex(s, m)
       case MutexLock(_, m) => IsMutex(s, m)
       case MutexUnlock(_, m) => IsMutex(s, m)
       case CvInit(_, c) => IsCv(s, c)
       case CvEnqueue(_, c, m) => IsCv(s, c) && IsMutex(s, m)
       case CvWait(_, c, m) => IsCv(s, c) && IsMutex(s, m)
       case CvSignal(_, c) => IsCv(s, c)
       case CvBroadcast(_, c) => IsCv(s, c)
       case CvDestroy(_, c) => IsCv(s, c)
       case ThreadCreate(_, r) => IsRunner(s, r)
       case ThreadJoin(_, r) => IsRunner(s, r)
       case ThreadStart(_) => true
       case ThreadExit(_) => true
  }

  function StatusOfRunner(s: State, r: RunnerId): ThreadStatus
    requires IsRunner(s, r)
  {
    s.objs[s.runners[r]].status
  }

  /** The replacement for a condition variable once its policy changed. */
  function PhaseFor(p: Policy): CvPhase {
    if |p.queue| > 0 then PhaseWaiting else PhaseSignaled
  }

  function Modify(t: Transition, s: State): Outcome
    requires WellTyped(t, s)
  {
    match t
    case MutexInit(_, m) => Exists(map[m := Mutex(Unlocked, s.objs[m].location, RID_INVALID)])
    case MutexLock(e, m) =>
      if s.objs[m].lock == Locked then Disabled
      else Exists(map[m := Mutex(Locked, s.objs[m].location, e)])
    case MutexUnlock(e, m) =>
      if !LockedBy(s.objs[m], e) then Disabled
      else Exists(map[m := Mutex(Unlocked, s.objs[m].location, RID_INVALID)])
    case CvInit(_, c) => Exists(map[c := Cv(PhaseInitialized, RID_INVALID, NULL, 0, EMPTY_POLICY)])
    case CvEnqueue(e, c, m) => ModifyEnqueue(e, c, s.objs[c], m, s.objs[m])
    case CvWait(e, c, m) => ModifyWait(e, c, s.objs[c], m, s.objs[m])
    case CvSignal(_, c) => ModifySignal(c, s.objs[c])
    case CvBroadcast(e, c) => ModifyBroadcast(e, c, s.objs[c])
    case CvDestroy(e, c) => ModifyDestroy(e, c, s.objs[c])
    case ThreadStart(e) => if StatusOfRunner(s, e) == Embryo then Disabled else Exists(map[])
    case ThreadCreate(_, r) => Exists(map[s.runners[r] := Thread(Running)])
    case ThreadJoin(_, r) => if StatusOfRunner(s, r) == Exited then Exists(map[]) else Disabled
    case ThreadExit(e) =>
      if StatusOfRunner(s, e) != Running || e == RID_MAIN_THREAD then Disabled
      else Exists(map[s.runners[e] := Thread(Exited)])
  }

  predicate LockedBy(m: Obj, r: RunnerId)
    requires m.Mutex?
  {
    m.lock == Locked && m.owner == r
  }

  function ModifyEnqueue(e: RunnerId, c: ObjId, cv: Obj, m: ObjId, mx: Obj): (r: Outcome)
    requires cv.Cv? && mx.Mutex? && c != m
    ensures r.Exists? ==> r.diff.Keys == {c, m} && r.diff[c].Cv? && r.diff[m].Mutex?
  {
    if mx.lock == Unlocked || !LockedBy(mx, e) then Disabled else
      var p := AddWaiter(cv.policy, e, CvWaiting);
      Exists(map[c := Cv(PhaseWaiting, e, mx.location, |p.queue|, p),
                 m := Mutex(Unlocked, mx.location, RID_INVALID)])
  }

  function ModifyWait(e: RunnerId, c: ObjId, cv: Obj, m: ObjId, mx: Obj): (r: Outcome)
    requires cv.Cv? && mx.Mutex? && c != m
    ensures r.Exists? ==> r.diff.Keys == {c, m} && r.diff[c].Cv? && r.diff[m].Mutex?
  {
    if cv.phase == PhaseUninitialized || cv.phase == PhaseDestroyed then Undefined
    else if LockedBy(mx, e) then Disabled
    else if !(CanExit(cv.policy, e) && mx.location == cv.mutexAt && mx.lock == Unlocked) then Disabled
    else
      var p := Wake(cv.policy, e);
      Exists(map[m := Mutex(Locked, mx.location, e),
                 c := Cv(PhaseFor(p), e, mx.location, |p.queue|, p)])
  }

  function ModifySignal(c: ObjId, cv: Obj): (r: Outcome)
    requires cv.Cv?
    ensures r.Exists? ==> r.diff.Keys <= {c} && (c in r.diff ==> r.diff[c].Cv?)
  {
    if cv.phase == PhaseUninitialized || cv.phase == PhaseDestroyed then Undefined
    else if !HasWaiters(cv.policy) then Exists(map[])
    else
      var p := Signal(cv.policy);
      Exists(map[c := Cv(PhaseFor(p), RID_INVALID, cv.mutexAt, |p.queue|, p)])
  }

  function ModifyBroadcast(e: RunnerId, c: ObjId, cv: Obj): (r: Outcome)
    requires cv.Cv?
    ensures r.Exists? ==> r.diff.Keys <= {c} && (c in r.diff ==> r.diff[c].Cv?)
  {
    if cv.phase == PhaseUninitialized || cv.phase == PhaseDestroyed then Undefined
    else if !HasWaiters(cv.policy) then Exists(map[])
    else
      var p := Broadcast(cv.policy);
      Exists(map[c := Cv(PhaseFor(p), e, cv.mutexAt, |p.queue|, p)])
  }

  function ModifyDestroy(e: RunnerId, c: ObjId, cv: Obj): (r: Outcome)
    requires cv.Cv?
    ensures r.Exists? ==> r.diff.Keys <= {c} && (c in r.diff ==> r.diff[c].Cv?)
  {
    if cv.phase == PhaseUninitialized || cv.phase == PhaseDestroyed || HasWaiters(cv.policy) then Undefined
    else Exists(map[c := Cv(PhaseDestroyed, e, NULL, 0, EMPTY_POLICY)])
  }

  /** `apply_to`: an inactive executor disables, and so does an undefined operation. */
  function Apply(t: Transition, s: State): (r: Outcome)
    requires WellTyped(t, s)
    ensures !r.Undefined?
  {
    if StatusOfRunner(s, t.executor) == Running && Modify(t, s).Exists? then Modify(t, s) else Disabled
  }

  predicate Enabled(t: Transition, s: State)
    requires WellTyped(t, s)
  {
    Apply(t, s).Exists?
  }

  /** The state reached by an enabled transition: the base state under the diff. */
  function Step(t: Transition, s: State): State
    requires WellTyped(t, s) && Enabled(t, s)
  {
    State(s.objs + Apply(t, s).diff, s.runners)
  }

  // --- Kinds never change, so what is well typed stays well typed ---

  ghost predicate SameKind(a: Obj, b: Obj) {
    a.Thread? == b.Thread? && a.Mutex? == b.Mutex? && a.Cv? == b.Cv?
  }

  /** `s'` has the same objects of the same kinds, and the same runners. */
  ghost predicate SameShape(s: State, s': State) {
    && s.runners == s'.runners
    && s.objs.Keys == s'.objs.Keys
    && forall i :: i in s.objs ==> SameKind(s.objs[i], s'.objs[i])
  }

  /** A diff replaces known objects by objects of the same kind. */
  ghost predicate Fits(diff: Diff, s: State) {
    forall i :: i in diff ==> i in s.objs && SameKind(diff[i], s.objs[i])
  }

  lemma CvDiffFits(t: Transition, s: State)
    requires WellTyped(t, s) && Modify(t, s).Exists?
    requires t.CvInit? || t.CvEnqueue? || t.CvWait? || t.CvSignal? || t.CvBroadcast? || t.CvDestroy?
    ensures Fits(Modify(t, s).diff, s)
  {
    var diff := Modify(t, s).diff;
    assert t.cv in diff ==> diff[t.cv].Cv?;
    forall i | i in diff ensures i in s.objs && SameKind(diff[i], s.objs[i]) {
      if i != t.cv {
        assert t.CvEnqueue? || t.CvWait?;
        assert i == t.mutex && diff[i].Mutex?;
      }
    }
  }

  lemma DiffFits(t: Transition, s: State)
    requires WellTyped(t, s) && Modify(t, s).Exists?
    ensures Fits(Modify(t, s).diff, s)
  {
    if t.CvInit? || t.CvEnqueue? || t.CvWait? || t.CvSignal? || t.CvBroadcast? || t.CvDestroy? {
      CvDiffFits(t, s);
    }
  }

  lemma StepKeepsShape(t: Transition, s: State)
    requires WellTyped(t, s) && Enabled(t, s)
    ensures SameShape(s, Step(t, s))
  {
    DiffFits(t, s);
  }

  lemma ShapeKeepsTyping(t: Transition, s: State, s': State)
    requires SameShape(s, s')
    ensures WellTyped(t, s) <==> WellTyped(t, s')
  {
  }
}
