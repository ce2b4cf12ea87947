/** When threads run, exit and are joined in every trace the model can execute. */
module ThreadLifecycle {
  import opened Basics
  import opened Transitions
  import opened Independence
  import opened ProgramSpec
  import opened MutualExclusion

  predicate Creates(t: Transition, r: RunnerId) { t.ThreadCreate? && t.target == r }
  predicate Exits(t: Transition, r: RunnerId) { t == ThreadExit(r) }

  /** The status of `r` by the trace alone. */
  function StatusBy(trace: Trace, r: RunnerId, first: ThreadStatus): ThreadStatus {
    if trace == [] then first else
      var t := trace[|trace| - 1];
      if Creates(t, r) then Running
      else if Exits(t, r) then Exited
      else StatusBy(trace[..|trace| - 1], r, first)
  }

  /** One step: only creates and exits change a status, only running threads step, only
      exited threads are joined. */
  lemma StepMovesStatus(t: Transition, s: State, r: RunnerId)
    requires WellFormed(s) && IsRunner(s, r) && WellTyped(t, s) && Enabled(t, s)
    ensures WellFormed(Step(t, s)) && IsRunner(Step(t, s), r)
    ensures StatusOfRunner(Step(t, s), r) == if Creates(t, r) then Running else if Exits(t, r) then Exited else StatusOfRunner(s, r)
    ensures t.executor == r ==> StatusOfRunner(s, r) == Running
    ensures t.ThreadJoin? && t.target == r ==> StatusOfRunner(s, r) == Exited
  {
    StepKeepsShape(t, s);
    StepSharesStatus(t, s, r);
  }

  lemma StepSharesStatus(t: Transition, s: State, r: RunnerId)
    requires WellFormed(s) && IsRunner(s, r) && WellTyped(t, s) && Enabled(t, s) && IsRunner(Step(t, s), r)
    ensures StatusOfRunner(Step(t, s), r) == if Creates(t, r) then Running else if Exits(t, r) then Exited else StatusOfRunner(s, r)
  {
    DiffWithinWrites(t, s);
  }

  lemma {:induction false} StatusIsByTrace(s: State, trace: Trace, r: RunnerId)
    requires WellFormed(s) && IsRunner(s, r) && Execute(s, trace).Some?
    ensures WellFormed(Execute(s, trace).value) && IsRunner(Execute(s, trace).value, r)
    ensures StatusOfRunner(Execute(s, trace).value, r) == StatusBy(trace, r, StatusOfRunner(s, r))
  {
    hide Step, Enabled, WellTyped, WellFormed, IsRunner;
    if trace != [] {
      var n := |trace| - 1;
      StatusIsByTrace(s, trace[..n], r);
      StepMovesStatus(trace[n], Execute(s, trace[..n]).value, r);
    }
  }

  /** What the status of `r` was when step `i` was taken. */
  lemma StatusAt(s: State, trace: Trace, r: RunnerId, i: nat)
    requires WellFormed(s) && IsRunner(s, r) && Execute(s, trace).Some? && i < |trace|
    ensures trace[i].executor == r ==> StatusBy(trace[..i], r, StatusOfRunner(s, r)) == Running
    ensures trace[i].ThreadJoin? && trace[i].target == r ==> StatusBy(trace[..i], r, StatusOfRunner(s, r)) == Exited
  {
    hide Step, Enabled, WellTyped, WellFormed, IsRunner;
    PrefixExecutes(s, trace, i + 1);
    assert trace[..i + 1][..i] == trace[..i];
    StatusIsByTrace(s, trace[..i], r);
    StepMovesStatus(trace[i], Execute(s, trace[..i]).value, r);
  }

  /** Whoever has exited by the trace did so in it, and was not created again. */
  lemma {:induction false} ExitedByTrace(trace: Trace, r: RunnerId, first: ThreadStatus)
    requires StatusBy(trace, r, first) == Exited && first != Exited
    ensures exists j :: 0 <= j < |trace| && Exits(trace[j], r) && forall k :: j < k < |trace| ==> !Creates(trace[k], r)
  {
    var n := |trace| - 1;
    if !Exits(trace[n], r) {
      ExitedByTrace(trace[..n], r, first);
      var j :| 0 <= j < n && Exits(trace[..n][j], r) && forall k :: j < k < n ==> !Creates(trace[..n][k], r);
      assert trace[j] == trace[..n][j];
      assert forall k :: j < k < n ==> trace[k] == trace[..n][k];
    }
  }

  /** A join takes place only after its target's exit. */
  lemma JoinFollowsExit(s: State, trace: Trace, r: RunnerId, i: nat)
    requires WellFormed(s) && IsRunner(s, r) && Execute(s, trace).Some? && i < |trace|
    requires trace[i].ThreadJoin? && trace[i].target == r && StatusOfRunner(s, r) != Exited
    ensures exists j :: 0 <= j < i && Exits(trace[j], r) && forall k :: j < k < i ==> !Creates(trace[k], r)
  {
    StatusAt(s, trace, r, i);
    ExitedByTrace(trace[..i], r, StatusOfRunner(s, r));
    var j :| 0 <= j < i && Exits(trace[..i][j], r) && forall k :: j < k < i ==> !Creates(trace[..i][k], r);
    assert trace[j] == trace[..i][j];
    assert forall k :: j < k < i ==> trace[k] == trace[..i][k];
  }

  lemma {:induction false} StatusStays(trace: Trace, r: RunnerId, first: ThreadStatus, i: nat, j: nat)
    requires i <= j <= |trace| && forall k :: i <= k < j ==> !Creates(trace[k], r)
    requires StatusBy(trace[..i], r, first) != Running
    ensures StatusBy(trace[..j], r, first) != Running
    decreases j - i
  {
    if i < j {
      assert trace[..i + 1][..i] == trace[..i];
      StatusStays(trace, r, first, i + 1, j);
    }
  }

  /** A thread takes no step before it is created, and none after its exit unless it is
      created again. */
  lemma NoStepWhileGone(s: State, trace: Trace, r: RunnerId, i: nat, j: nat)
    requires WellFormed(s) && IsRunner(s, r) && Execute(s, trace).Some?
    requires i <= j < |trace| && trace[j].executor == r
    requires if i == 0 then StatusOfRunner(s, r) != Running else Exits(trace[i - 1], r)
    ensures exists k :: i <= k < j && Creates(trace[k], r)
  {
    hide Execute, WellFormed, WellTyped, Enabled;
    if forall k :: i <= k < j ==> !Creates(trace[k], r) {
      assert i > 0 ==> trace[..i][i - 1] == trace[i - 1];
      StatusStays(trace, r, StatusOfRunner(s, r), i, j);
      StatusAt(s, trace, r, j);
    }
  }
}
