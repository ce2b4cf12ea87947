/** Critical sections in every trace the model can execute. */
module MutualExclusion {
  import opened Basics
  import opened CvPolicy
  import opened Transitions
  import opened ProgramSpec
  import opened ExplorerSpec

  /** The state a trace leads to, when each of its steps is enabled in turn. */
  function Execute(s: State, trace: Trace): Option<State> {
    if trace == [] then Some(s) else
      var t := trace[|trace| - 1];
      match Execute(s, trace[..|trace| - 1])
      case None => None
      case Some(s') => if WellTyped(t, s') && Enabled(t, s') then Some(Step(t, s')) else None
  }

  /** A lock, or the waking half of a wait. */
  predicate Acquires(t: Transition, m: ObjId) {
    (t.MutexLock? || t.CvWait?) && t.mutex == m
  }

  /** An unlock, or the enqueueing half of a wait. */
  predicate Releases(t: Transition, m: ObjId) {
    (t.MutexUnlock? || t.CvEnqueue?) && t.mutex == m
  }

  predicate Resets(t: Transition, m: ObjId) {
    t.MutexInit? && t.mutex == m
  }

  /** Who is in the critical section, by the trace alone. */
  function Holder(trace: Trace, m: ObjId): Option<RunnerId> {
    if trace == [] then None else
      var t := trace[|trace| - 1];
      if Acquires(t, m) then Some(t.executor)
      else if Releases(t, m) || Resets(t, m) then None
      else Holder(trace[..|trace| - 1], m)
  }

  /** Who owns the mutex, by the state. */
  function OwnerIn(s: State, m: ObjId): Option<RunnerId>
    requires IsMutex(s, m)
  {
    if s.objs[m].lock == Locked then Some(s.objs[m].owner) else None
  }

  lemma StepMovesOwner(t: Transition, s: State, m: ObjId)
    requires IsMutex(s, m) && WellTyped(t, s) && Enabled(t, s)
    ensures IsMutex(Step(t, s), m)
    ensures Resets(t, m) ==> OwnerIn(Step(t, s), m) == None
    ensures Acquires(t, m) ==> OwnerIn(s, m) == None && OwnerIn(Step(t, s), m) == Some(t.executor)
    ensures Releases(t, m) ==> OwnerIn(s, m) == Some(t.executor) && OwnerIn(Step(t, s), m) == None
    ensures !Acquires(t, m) && !Releases(t, m) && !Resets(t, m) ==> OwnerIn(Step(t, s), m) == OwnerIn(s, m)
  {
    StepKeepsShape(t, s);
  }

  /** Neither locked at the start nor re-initialised on the way. */
  ghost predicate Undisturbed(s: State, trace: Trace, m: ObjId) {
    IsMutex(s, m) && OwnerIn(s, m) == None && forall i :: 0 <= i < |trace| ==> !Resets(trace[i], m)
  }

  /** The state and the trace agree on who is in the critical section. */
  lemma {:induction false} HolderIsOwner(s: State, trace: Trace, m: ObjId)
    requires IsMutex(s, m) && OwnerIn(s, m) == None && Execute(s, trace).Some?
    ensures IsMutex(Execute(s, trace).value, m) && OwnerIn(Execute(s, trace).value, m) == Holder(trace, m)
  {
    hide Step, Enabled, WellTyped;
    if trace != [] {
      var n := |trace| - 1;
      HolderIsOwner(s, trace[..n], m);
      StepMovesOwner(trace[n], Execute(s, trace[..n]).value, m);
    }
  }

  lemma {:induction false} PrefixExecutes(s: State, trace: Trace, n: nat)
    requires Execute(s, trace).Some? && n <= |trace|
    ensures Execute(s, trace[..n]).Some?
  {
    if n < |trace| {
      PrefixExecutes(s, trace[..|trace| - 1], n);
      assert trace[..|trace| - 1][..n] == trace[..n];
    } else {
      assert trace[..n] == trace;
    }
  }

  /** Acquires happen when nobody is inside, releases when the releasing thread is. */
  lemma OnlyTheHolderLeaves(s: State, trace: Trace, m: ObjId, i: nat)
    requires Undisturbed(s, trace, m) && Execute(s, trace).Some? && i < |trace|
    ensures Acquires(trace[i], m) ==> Holder(trace[..i], m) == None
    ensures Releases(trace[i], m) ==> Holder(trace[..i], m) == Some(trace[i].executor)
  {
    hide Step, Enabled, WellTyped;
    PrefixExecutes(s, trace, i + 1);
    assert trace[..i + 1][..i] == trace[..i];
    HolderIsOwner(s, trace[..i], m);
    StepMovesOwner(trace[i], Execute(s, trace[..i]).value, m);
  }

  /** Whoever is inside got there by an acquire after which nobody released. */
  lemma {:induction false} HolderEntered(trace: Trace, m: ObjId, r: RunnerId)
    requires Holder(trace, m) == Some(r)
    ensures exists i :: 0 <= i < |trace| && Acquires(trace[i], m) && trace[i].executor == r
                        && forall k :: i < k < |trace| ==> !Acquires(trace[k], m) && !Releases(trace[k], m)
  {
    var n := |trace| - 1;
    if Acquires(trace[n], m) {
      assert trace[n].executor == r;
    } else {
      HolderEntered(trace[..n], m, r);
      var i :| 0 <= i < n && Acquires(trace[..n][i], m) && trace[..n][i].executor == r
               && forall k :: i < k < n ==> !Acquires(trace[..n][k], m) && !Releases(trace[..n][k], m);
      assert trace[i] == trace[..n][i];
      assert forall k :: i < k < n ==> trace[k] == trace[..n][k];
    }
  }

  lemma {:induction false} HolderStays(trace: Trace, m: ObjId, i: nat, j: nat)
    requires i < j <= |trace| && Acquires(trace[i], m)
    requires forall k :: i < k < j ==> !Releases(trace[k], m) && !Resets(trace[k], m)
    ensures Holder(trace[..j], m).Some?
    ensures (forall k :: i < k < j ==> !Acquires(trace[k], m)) ==> Holder(trace[..j], m) == Some(trace[i].executor)
  {
    assert trace[..j][..j - 1] == trace[..j - 1];
    if i < j - 1 {
      HolderStays(trace, m, i, j - 1);
    }
  }

  /** Between two acquires of a mutex the first thread released it. */
  lemma SectionsAreExclusive(s: State, trace: Trace, m: ObjId, i: nat, j: nat)
    requires Undisturbed(s, trace, m) && Execute(s, trace).Some?
    requires i < j < |trace| && Acquires(trace[i], m) && Acquires(trace[j], m)
    ensures exists k :: i < k < j && Releases(trace[k], m) && trace[k].executor == trace[i].executor
  {
    OnlyTheHolderLeaves(s, trace, m, j);
    if forall k :: i < k < j ==> !Releases(trace[k], m) {
      HolderStays(trace, m, i, j);
    }
    var k := FirstRelease(trace, m, i, j);
    FirstReleaseIsHolders(s, trace, m, i, k);
  }

  /** The first release after step `i`, or `j`. */
  function FirstRelease(trace: Trace, m: ObjId, i: nat, j: nat): (k: nat)
    requires i < j <= |trace|
    ensures i < k <= j && (k < j ==> Releases(trace[k], m))
    ensures forall h :: i < h < k ==> !Releases(trace[h], m)
    decreases j - i
  {
    if i + 1 == j then j
    else if Releases(trace[i + 1], m) then i + 1
    else FirstRelease(trace, m, i + 1, j)
  }

  lemma FirstReleaseIsHolders(s: State, trace: Trace, m: ObjId, i: nat, k: nat)
    requires Undisturbed(s, trace, m) && Execute(s, trace).Some?
    requires i < k < |trace| && Acquires(trace[i], m) && Releases(trace[k], m)
    requires forall h :: i < h < k ==> !Releases(trace[h], m)
    ensures trace[k].executor == trace[i].executor
  {
    forall h | i < h < k ensures !Acquires(trace[h], m) {
      OnlyTheHolderLeaves(s, trace, m, h);
      HolderStays(trace, m, i, h);
    }
    HolderStays(trace, m, i, k);
    OnlyTheHolderLeaves(s, trace, m, k);
  }

  /** Every release ends the section that the same thread entered last. */
  lemma ReleasesFollowAcquires(s: State, trace: Trace, m: ObjId, j: nat)
    requires Undisturbed(s, trace, m) && Execute(s, trace).Some? && j < |trace| && Releases(trace[j], m)
    ensures exists i :: 0 <= i < j && Acquires(trace[i], m) && trace[i].executor == trace[j].executor
                        && forall k :: i < k < j ==> !Acquires(trace[k], m) && !Releases(trace[k], m)
  {
    OnlyTheHolderLeaves(s, trace, m, j);
    HolderEntered(trace[..j], m, trace[j].executor);
    var i :| 0 <= i < j && Acquires(trace[..j][i], m) && trace[..j][i].executor == trace[j].executor
             && forall k :: i < k < j ==> !Acquires(trace[..j][k], m) && !Releases(trace[..j][k], m);
    assert trace[i] == trace[..j][i];
    assert forall k :: i < k < j ==> trace[k] == trace[..j][k];
  }

  /** The traces the explorer builds are executable, so all of this holds of them. */
  lemma {:induction false} PathExecutes(start: Moment, target: Target, trace: Trace, moments: seq<Moment>, k: nat)
    requires PathOk(start, target, trace, moments) && k <= |trace|
    ensures Execute(start.state, trace[..k]) == Some(moments[k].state)
  {
    if k > 0 {
      PathExecutes(start, target, trace, moments, k - 1);
      assert StepOk(target, trace, moments, k - 1);
      assert trace[..k][..k - 1] == trace[..k - 1];
    }
  }
}
