/**
 * Condition variables hold their policy by reference and states share them. A
 * transition clones a policy before it changes it, so testing whether a transition is
 * enabled touches no committed state, and committing one changes no earlier state.
 */
module SharedPolicies {
  import opened Basics
  import opened CvPolicy
  import opened PolicyObject
  import opened Transitions

  /** An object state as it is stored. */
  datatype Cell =
    | Plain(o: Obj)
    | CvCell(phase: CvPhase, lastRunner: RunnerId, mutexAt: Address, waiting: nat, policy: ConditionVariablePolicy)

  type Cells = map<ObjId, Cell>

  function Policies(cells: Cells): set<ConditionVariablePolicy> {
    set i | i in cells && cells[i].CvCell? :: cells[i].policy
  }

  function Deref(c: Cell): Obj
    reads if c.CvCell? then {c.policy} else {}
  {
    match c
    case Plain(o) => o
    case CvCell(phase, lastRunner, mutexAt, waiting, policy) => Cv(phase, lastRunner, mutexAt, waiting, policy.Value())
  }

  function DerefAll(cells: Cells): (r: map<ObjId, Obj>)
    reads Policies(cells)
    ensures r.Keys == cells.Keys && forall i :: i in r ==> r[i] == Deref(cells[i])
  {
    map i | i in cells :: Deref(cells[i])
  }

  /** Condition variables are stored by reference, everything else by value. */
  predicate Proper(cells: Cells) {
    forall i :: i in cells && cells[i].Plain? ==> !cells[i].o.Cv?
  }

  function StateOf(cells: Cells, runners: map<RunnerId, ObjId>): State
    reads Policies(cells)
  {
    State(DerefAll(cells), runners)
  }

  /** A condition variable and the mutex that goes with it. */
  function Both(c: ObjId, cv: Cell, m: ObjId, mx: Obj): (r: Cells)
    requires cv.CvCell? && mx.Mutex? && c != m
    reads cv.policy
    ensures DerefAll(r) == map[c := Deref(cv), m := mx]
    ensures Proper(r) && Policies(r) == {cv.policy}
  {
    var r := map[c := cv, m := Plain(mx)];
    assert r[c] == cv;
    r
  }

  // --- The condition-variable transitions ---

  /** `condition_variable_init`. */
  method InitCv(c: ObjId) returns (diff: Cells)
    ensures DerefAll(diff) == map[c := Cv(PhaseInitialized, RID_INVALID, NULL, 0, EMPTY_POLICY)]
    ensures Proper(diff) && forall p :: p in Policies(diff) ==> fresh(p)
  {
    var policy := new ConditionVariablePolicy();
    diff := map[c := CvCell(PhaseInitialized, RID_INVALID, NULL, 0, policy)];
  }

  /** `condition_variable_enqueue_thread`. */
  method EnqueueOnCv(e: RunnerId, c: ObjId, cv: Cell, m: ObjId, mx: Obj) returns (ok: bool, diff: Cells)
    requires cv.CvCell? && mx.Mutex? && c != m
    ensures ok == ModifyEnqueue(e, c, Deref(cv), m, mx).Exists?
    ensures ok ==> DerefAll(diff) == ModifyEnqueue(e, c, Deref(cv), m, mx).diff
    ensures Proper(diff) && forall p :: p in Policies(diff) ==> fresh(p)
  {
    diff := map[];
    if mx.lock == Unlocked || !LockedBy(mx, e) {
      return false, diff;
    }
    var policy := cv.policy.Clone();
    var state := policy.GetThreadCvState(e);
    if state == CvPrewaiting {
      policy.UpdateThreadCvState(e, CvWaiting);
    }
    policy.AddWaiterWithState(e, CvWaiting);
    assert policy.Value() == AddWaiter(cv.policy.Value(), e, CvWaiting);
    diff := Both(c, CvCell(PhaseWaiting, e, mx.location, |policy.waitQueue|, policy), m, Mutex(Unlocked, mx.location, RID_INVALID));
    ok := true;
  }

  predicate MayWake(e: RunnerId, cv: Obj, mx: Obj)
    requires cv.Cv? && mx.Mutex?
  {
    && cv.phase != PhaseUninitialized && cv.phase != PhaseDestroyed && !LockedBy(mx, e)
    && CanExit(cv.policy, e) && mx.location == cv.mutexAt && mx.lock == Unlocked
  }

  lemma WaitInCases(e: RunnerId, c: ObjId, cv: Obj, m: ObjId, mx: Obj)
    requires cv.Cv? && mx.Mutex? && c != m
    ensures ModifyWait(e, c, cv, m, mx).Exists? <==> MayWake(e, cv, mx)
    ensures MayWake(e, cv, mx) ==>
              var p := Wake(cv.policy, e);
              ModifyWait(e, c, cv, m, mx).diff == map[c := Cv(PhaseFor(p), e, mx.location, |p.queue|, p), m := Mutex(Locked, mx.location, e)]
  {
  }

  /** `condition_variable_wait`, the waking half. */
  method WaitOnCv(e: RunnerId, c: ObjId, cv: Cell, m: ObjId, mx: Obj) returns (ok: bool, diff: Cells)
    requires cv.CvCell? && mx.Mutex? && c != m
    ensures ok == ModifyWait(e, c, Deref(cv), m, mx).Exists?
    ensures ok ==> DerefAll(diff) == ModifyWait(e, c, Deref(cv), m, mx).diff
    ensures Proper(diff) && forall p :: p in Policies(diff) ==> fresh(p)
  {
    hide Wake, CanExit, ModifyWait;
    diff := map[];
    WaitInCases(e, c, Deref(cv), m, mx);
    if cv.phase == PhaseUninitialized || cv.phase == PhaseDestroyed || LockedBy(mx, e) {
      return false, diff;
    }
    var canExit := cv.policy.ThreadCanExit(e);
    if !(canExit && mx.location == cv.mutexAt && mx.lock == Unlocked) {
      return false, diff;
    }
    var policy := cv.policy.Clone();
    policy.WakeThread(e);
    diff := Both(c, CvCell(PhaseFor(policy.Value()), e, mx.location, |policy.waitQueue|, policy), m, Mutex(Locked, mx.location, e));
    ok := true;
  }

  /** `condition_variable_signal`. */
  method SignalCv(c: ObjId, cv: Cell) returns (ok: bool, diff: Cells)
    requires cv.CvCell?
    ensures ok == ModifySignal(c, Deref(cv)).Exists?
    ensures ok ==> DerefAll(diff) == ModifySignal(c, Deref(cv)).diff
    ensures Proper(diff) && forall p :: p in Policies(diff) ==> fresh(p)
  {
    diff := map[];
    if cv.phase == PhaseUninitialized || cv.phase == PhaseDestroyed {
      return false, diff;
    }
    if cv.policy.waitQueue == [] {
      return true, diff;
    }
    var waiting := cv.policy.WaitingThreads();
    var policy := cv.policy.Clone();
    policy.AddToWakeGroups(waiting);
    diff := map[c := CvCell(PhaseFor(policy.Value()), RID_INVALID, cv.mutexAt, |policy.waitQueue|, policy)];
    ok := true;
  }

  /** `condition_variable_broadcast`. */
  method BroadcastCv(e: RunnerId, c: ObjId, cv: Cell) returns (ok: bool, diff: Cells)
    requires cv.CvCell?
    ensures ok == ModifyBroadcast(e, c, Deref(cv)).Exists?
    ensures ok ==> DerefAll(diff) == ModifyBroadcast(e, c, Deref(cv)).diff
    ensures Proper(diff) && forall p :: p in Policies(diff) ==> fresh(p)
  {
    diff := map[];
    if cv.phase == PhaseUninitialized || cv.phase == PhaseDestroyed {
      return false, diff;
    }
    if cv.policy.waitQueue == [] {
      return true, diff;
    }
    var waiting := cv.policy.WaitingThreads();
    var policy := cv.policy.Clone();
    policy.AddToWakeGroups(waiting);
    policy.ReceiveBroadcastMessage();
    diff := map[c := CvCell(PhaseFor(policy.Value()), e, cv.mutexAt, |policy.waitQueue|, policy)];
    ok := true;
  }

  /** `condition_variable_destroy`. */
  method DestroyCv(e: RunnerId, c: ObjId, cv: Cell) returns (ok: bool, diff: Cells)
    requires cv.CvCell?
    ensures ok == ModifyDestroy(e, c, Deref(cv)).Exists?
    ensures ok ==> DerefAll(diff) == ModifyDestroy(e, c, Deref(cv)).diff
    ensures Proper(diff) && forall p :: p in Policies(diff) ==> fresh(p)
  {
    diff := map[];
    if cv.phase == PhaseUninitialized || cv.phase == PhaseDestroyed || cv.policy.waitQueue != [] {
      return false, diff;
    }
    var policy := new ConditionVariablePolicy();
    diff := map[c := CvCell(PhaseDestroyed, e, NULL, 0, policy)];
    ok := true;
  }

  // --- Trying a transition ---

  predicate ConcernsCv(t: Transition) {
    t.CvInit? || t.CvEnqueue? || t.CvWait? || t.CvSignal? || t.CvBroadcast? || t.CvDestroy?
  }

  /** A diff without condition variables is stored as it is. */
  function Stored(diff: Diff): (r: Cells)
    requires forall i :: i in diff ==> !diff[i].Cv?
    ensures DerefAll(r) == diff && Proper(r) && Policies(r) == {}
  {
    map i | i in diff :: Plain(diff[i])
  }

  lemma OtherDiffs(t: Transition, s: State)
    requires WellTyped(t, s) && !ConcernsCv(t) && Modify(t, s).Exists?
    ensures forall i :: i in Modify(t, s).diff ==> !Modify(t, s).diff[i].Cv?
  {
  }

  /** `modify` of a condition-variable transition. */
  method ModifyCv(t: Transition, cells: Cells, runners: map<RunnerId, ObjId>) returns (ok: bool, diff: Cells)
    requires Proper(cells) && WellTyped(t, StateOf(cells, runners)) && ConcernsCv(t)
    ensures ok == Modify(t, StateOf(cells, runners)).Exists?
    ensures ok ==> DerefAll(diff) == Modify(t, StateOf(cells, runners)).diff
    ensures Proper(diff) && forall p :: p in Policies(diff) ==> fresh(p)
  {
    hide ModifyEnqueue, ModifyWait, ModifySignal, ModifyBroadcast, ModifyDestroy;
    var cv := cells[t.cv];
    match t {
      case CvInit(_, c) =>
        ok := true;
        diff := InitCv(c);
      case CvEnqueue(e, c, m) =>
        ok, diff := EnqueueOnCv(e, c, cv, m, cells[m].o);
      case CvWait(e, c, m) =>
        ok, diff := WaitOnCv(e, c, cv, m, cells[m].o);
      case CvSignal(_, c) =>
        ok, diff := SignalCv(c, cv);
      case CvBroadcast(e, c) =>
        ok, diff := BroadcastCv(e, c, cv);
      case CvDestroy(e, c) =>
        ok, diff := DestroyCv(e, c, cv);
    }
  }

  /** `apply_to`: nothing that existed before is modified, and every policy in the diff is new. */
  method ApplyTo(t: Transition, cells: Cells, runners: map<RunnerId, ObjId>) returns (ok: bool, diff: Cells)
    requires Proper(cells) && WellTyped(t, StateOf(cells, runners))
    ensures ok == Enabled(t, StateOf(cells, runners))
    ensures ok ==> DerefAll(diff) == Apply(t, StateOf(cells, runners)).diff
    ensures Proper(diff) && forall p :: p in Policies(diff) ==> fresh(p)
  {
    hide Modify;
    var s := StateOf(cells, runners);
    diff := map[];
    if StatusOfRunner(s, t.executor) != Running {
      return false, diff;
    }
    if ConcernsCv(t) {
      ok, diff := ModifyCv(t, cells, runners);
    } else {
      var outcome := Modify(t, s);
      ok := outcome.Exists?;
      if ok {
        OtherDiffs(t, s);
        diff := Stored(outcome.diff);
      }
    }
  }

  // --- Committed states ---

  /** A state under a diff, as it is stored and as it reads. */
  lemma MergedState(base: Cells, diff: Cells, runners: map<RunnerId, ObjId>)
    requires Proper(base) && Proper(diff)
    ensures Proper(base + diff) && Policies(base + diff) <= Policies(base) + Policies(diff)
    ensures StateOf(base + diff, runners) == State(StateOf(base, runners).objs + DerefAll(diff), runners)
  {
  }

  lemma CommitIsStep(t: Transition, base: Cells, diff: Cells, runners: map<RunnerId, ObjId>)
    requires Proper(base) && Proper(diff) && WellTyped(t, StateOf(base, runners)) && Enabled(t, StateOf(base, runners))
    requires DerefAll(diff) == Apply(t, StateOf(base, runners)).diff
    ensures Proper(base + diff) && Policies(base + diff) <= Policies(base) + Policies(diff)
    ensures StateOf(base + diff, runners) == Step(t, StateOf(base, runners))
  {
    hide WellTyped, Modify;
    MergedState(base, diff, runners);
  }

  function AllPolicies(states: seq<Cells>): set<ConditionVariablePolicy> {
    set k, p | 0 <= k < |states| && p in Policies(states[k]) :: p
  }

  function ShownStates(states: seq<Cells>, runners: map<RunnerId, ObjId>): (r: seq<State>)
    reads AllPolicies(states)
    ensures |r| == |states| && forall k :: 0 <= k < |r| ==> r[k] == StateOf(states[k], runners)
  {
    if states == [] then [] else
      var n := |states| - 1;
      assert Policies(states[n]) <= AllPolicies(states) && AllPolicies(states[..n]) <= AllPolicies(states);
      ShownStates(states[..n], runners) + [StateOf(states[n], runners)]
  }

  lemma PushShows(states: seq<Cells>, cells: Cells, runners: map<RunnerId, ObjId>)
    ensures ShownStates(states + [cells], runners) == ShownStates(states, runners) + [StateOf(cells, runners)]
    ensures AllPolicies(states + [cells]) == AllPolicies(states) + Policies(cells)
  {
    assert (states + [cells])[..|states|] == states;
    assert (states + [cells])[|states|] == cells;
    assert forall k :: 0 <= k < |states| ==> (states + [cells])[k] == states[k];
  }

  /** The states visited so far, as they share their policies. */
  class CommittedStates {
    var states: seq<Cells>
    const runners: map<RunnerId, ObjId>

    ghost predicate Valid()
      reads this
    {
      states != [] && forall k :: 0 <= k < |states| ==> Proper(states[k])
    }

    ghost function Shown(): seq<State>
      reads this, AllPolicies(states)
    {
      ShownStates(states, runners)
    }

    constructor (initial: Cells, runners: map<RunnerId, ObjId>)
      requires Proper(initial)
      ensures Valid() && states == [initial] && this.runners == runners
    {
      states, this.runners := [initial], runners;
    }

    /** `apply_to` the latest state: it modifies nothing. */
    method TryLatest(t: Transition) returns (ok: bool, diff: Cells)
      requires Valid() && WellTyped(t, StateOf(states[|states| - 1], runners))
      ensures ok == Enabled(t, StateOf(states[|states| - 1], runners))
      ensures ok ==> DerefAll(diff) == Apply(t, StateOf(states[|states| - 1], runners)).diff
      ensures Proper(diff) && forall p :: p in Policies(diff) ==> fresh(p)
      ensures Shown() == old(Shown())
    {
      hide WellTyped, Enabled, Apply;
      ghost var before := Shown();
      ok, diff := ApplyTo(t, states[|states| - 1], runners);
      forall k | 0 <= k < |states| ensures StateOf(states[k], runners) == before[k] {
        assert DerefAll(states[k]) == before[k].objs;
      }
    }

    /** `is_enabled_in` the latest state. */
    method IsEnabled(t: Transition) returns (r: bool)
      requires Valid() && WellTyped(t, StateOf(states[|states| - 1], runners))
      ensures r == Enabled(t, StateOf(states[|states| - 1], runners))
      ensures Shown() == old(Shown())
    {
      var diff: Cells;
      r, diff := TryLatest(t);
    }

    /** `follow`: the new state is appended, and every earlier state says what it said. */
    method Follow(t: Transition) returns (ok: bool)
      requires Valid() && WellTyped(t, Shown()[|states| - 1])
      modifies this`states
      ensures Valid() && ok == Enabled(t, old(Shown()[|states| - 1]))
      ensures Shown() == if ok then old(Shown()) + [Step(t, old(Shown()[|states| - 1]))] else old(Shown())
      ensures forall p :: p in AllPolicies(states) ==> p in old(AllPolicies(states)) || fresh(p)
    {
      hide WellTyped, Enabled, Apply, Step, StateOf, DerefAll;
      var diff: Cells;
      ok, diff := TryLatest(t);
      if ok {
        var last := states[|states| - 1];
        CommitIsStep(t, last, diff, runners);
        assert Policies(last) <= AllPolicies(states);
        Append(last + diff);
      }
    }

    method Append(cells: Cells)
      requires Valid() && Proper(cells)
      modifies this`states
      ensures Valid() && Shown() == old(Shown()) + [StateOf(cells, runners)]
      ensures AllPolicies(states) == old(AllPolicies(states)) + Policies(cells)
    {
      hide StateOf;
      PushShows(states, cells, runners);
      states := states + [cells];
    }
  }
}
