/** Why a runner in a sleep set need not be run: it would reach a state already explored. */
module SleepSets {
  import opened Basics
  import opened Transitions
  import opened Dependency
  import opened Independence
  import opened ProgramSpec
  import opened ExplorerSpec
  import opened Search
  import opened ThreadLifecycle

  /** Steps `i..k` of the trace executed from `s`, when each is enabled in turn. */
  function Replay(s: State, trace: Trace, i: nat, k: nat): Option<State>
    requires i <= k <= |trace|
    decreases k - i
  {
    if i == k then Some(s)
    else if WellTyped(trace[i], s) && Enabled(trace[i], s) then Replay(Step(trace[i], s), trace, i + 1, k)
    else None
  }

  /** One of the two would start again the exited runner that the other joins. */
  ghost predicate Revival(a: Transition, t: Transition, s: State) {
    WellTyped(a, s) && WellTyped(t, s) && (Revives(a, t, s) || Revives(t, a, s))
  }

  /** No step from `i` to `k` is a revival together with `a`. */
  ghost predicate NoRevival(a: Transition, trace: Trace, moments: seq<Moment>, i: nat, k: nat)
    requires k <= |trace| < |moments|
  {
    forall m :: i <= m < k ==> !Revival(a, trace[m], moments[m].state)
  }

  /** `a` can be run at `i`. */
  ghost predicate RunsAt(a: Transition, moments: seq<Moment>, i: nat)
    requires i < |moments|
  {
    && WellTyped(a, moments[i].state) && Enabled(a, moments[i].state)
    && a.executor in moments[i].pending && moments[i].pending[a.executor] == a
  }

  /** Running `a` before an independent step of the trace or after it is the same. */
  lemma SwapsWithStep(start: Moment, target: Target, trace: Trace, moments: seq<Moment>, i: nat, a: Transition)
    requires MomentOk(start) && Faithful(target, start) && WellFormed(start.state)
    requires PathOk(start, target, trace, moments)
    requires i < |trace| && RunsAt(a, moments, i) && !AreDependent(a, trace[i]) && !Revival(a, trace[i], moments[i].state)
    ensures RunsAt(a, moments, i + 1)
    ensures var after := Step(a, moments[i].state);
      WellTyped(trace[i], after) && Enabled(trace[i], after) && Step(trace[i], after) == Step(a, moments[i + 1].state)
  {
    PathTyped(start, target, trace, moments, i);
    assert StepOk(target, trace, moments, i);
    IndependenceIsValid(a, trace[i], moments[i].state);
  }

  /** Running `a` at `i` and then going on to `k` is the same as running it at `k`. */
  ghost predicate Swaps(a: Transition, trace: Trace, moments: seq<Moment>, i: nat, k: nat)
    requires i <= k <= |trace| < |moments| && RunsAt(a, moments, i)
  {
    RunsAt(a, moments, k) && Replay(Step(a, moments[i].state), trace, i, k) == Some(Step(a, moments[k].state))
  }

  /** An enabled step swaps with any stretch of independent steps if and only if none of
      them is a revival with it. */
  lemma {:induction false} SwapsWithSteps(start: Moment, target: Target, trace: Trace, moments: seq<Moment>,
                                         i: nat, k: nat, a: Transition)
    requires MomentOk(start) && Faithful(target, start) && WellFormed(start.state)
    requires PathOk(start, target, trace, moments)
    requires i <= k <= |trace| && RunsAt(a, moments, i)
    requires forall j :: i <= j < k ==> !AreDependent(a, trace[j])
    ensures Swaps(a, trace, moments, i, k) <==> NoRevival(a, trace, moments, i, k)
    decreases k - i
  {
    hide Faithful, MomentOk, WellFormed, Revival, WellTyped, Enabled, StepOk, AreDependent;
    if i < k {
      if Revival(a, trace[i], moments[i].state) {
        RevivalStopsSwap(start, target, trace, moments, i, k, a);
      } else {
        SwapsWithStep(start, target, trace, moments, i, a);
        SwapsWithSteps(start, target, trace, moments, i + 1, k, a);
      }
    }
  }

  lemma RevivalStopsSwap(start: Moment, target: Target, trace: Trace, moments: seq<Moment>, i: nat, k: nat, a: Transition)
    requires MomentOk(start) && Faithful(target, start) && WellFormed(start.state)
    requires PathOk(start, target, trace, moments)
    requires i < k <= |trace| && RunsAt(a, moments, i) && Revival(a, trace[i], moments[i].state)
    requires forall j :: i <= j < k ==> !AreDependent(a, trace[j])
    ensures !Swaps(a, trace, moments, i, k)
  {
    hide Faithful, MomentOk, StepOk;
    var s, t := moments[i].state, trace[i];
    PathFormed(start, target, trace, moments, i);
    StepTaken(target, trace, moments, i);
    if Revives(a, t, s) {
      RevivedDisables(a, t, s);
    } else {
      RevivedDisables(t, a, s);
      PathFormed(start, target, trace, moments, i + 1);
      JoinStaysBlocked(start, target, trace, moments, i + 1, k, a);
    }
  }

  lemma PathFormed(start: Moment, target: Target, trace: Trace, moments: seq<Moment>, k: nat)
    requires MomentOk(start) && Faithful(target, start) && WellFormed(start.state)
    requires PathOk(start, target, trace, moments) && k <= |trace|
    ensures MomentOk(moments[k]) && WellFormed(moments[k].state)
  {
    hide Faithful, MomentOk, StepOk;
    PathTyped(start, target, trace, moments, k);
  }

  lemma StepTaken(target: Target, trace: Trace, moments: seq<Moment>, k: nat)
    requires k < |trace| < |moments| && StepOk(target, trace, moments, k)
    ensures WellTyped(trace[k], moments[k].state) && Enabled(trace[k], moments[k].state)
    ensures moments[k + 1].state == Step(trace[k], moments[k].state)
  {
    hide WellTyped, Enabled;
  }

  lemma RevivedDisables(a: Transition, b: Transition, s: State)
    requires WellFormed(s) && WellTyped(a, s) && WellTyped(b, s) && Enabled(a, s) && Revives(a, b, s)
    ensures WellTyped(b, Step(a, s)) && !Enabled(b, Step(a, s)) && StatusOfRunner(Step(a, s), b.target) == Running
  {
    hide WellFormed, Apply, Step;
    StepKeepsShape(a, s);
    ShapeKeepsTyping(b, s, Step(a, s));
    StepMovesStatus(a, s, b.target);
    NotJoinable(b, Step(a, s));
  }

  lemma NotJoinable(a: Transition, s: State)
    requires WellTyped(a, s) && a.ThreadJoin? && StatusOfRunner(s, a.target) == Running
    ensures !Enabled(a, s)
  {
  }

  /** A join goes on waiting while only steps independent of it are taken. */
  lemma {:induction false} JoinStaysBlocked(start: Moment, target: Target, trace: Trace, moments: seq<Moment>,
                                           i: nat, k: nat, a: Transition)
    requires MomentOk(start) && Faithful(target, start) && WellFormed(start.state)
    requires PathOk(start, target, trace, moments) && i <= k <= |trace|
    requires a.ThreadJoin? && WellTyped(a, moments[i].state) && StatusOfRunner(moments[i].state, a.target) == Running
    requires forall j :: i <= j < k ==> !AreDependent(a, trace[j])
    ensures WellTyped(a, moments[k].state) && !Enabled(a, moments[k].state)
    decreases k - i
  {
    hide Faithful, MomentOk, StepOk, WellFormed, Enabled, Step;
    if i == k {
      NotJoinable(a, moments[k].state);
    } else {
      var t, s := trace[i], moments[i].state;
      PathFormed(start, target, trace, moments, i);
      assert StepOk(target, trace, moments, i);
      StepTaken(target, trace, moments, i);
      StepKeepsShape(t, s);
      ShapeKeepsTyping(a, s, moments[i + 1].state);
      StepMovesStatus(t, s, a.target);
      JoinStaysBlocked(start, target, trace, moments, i + 1, k, a);
    }
  }

  /** `p` was run at `j` in the completed schedule `c`, and running it there and then going
      on to `k` leads where running it at `k` would lead. */
  ghost predicate CoveredBy(start: Moment, target: Target, s: Stack, k: nat, p: RunnerId, j: nat, c: seq<RunnerId>)
    requires k < |s.items| && |s.moments| == |s.items| == |s.trace| + 1
  {
    && j <= k && Schedule(s.trace)[..j] + [p] <= c
    && CanRun(s.moments[j], p) && CanRun(s.moments[k], p)
    && var a := s.moments[j].pending[p];
    && s.moments[k].pending[p] == a
    && var there := Run(start, target, Schedule(s.trace)[..j] + [p]);
    && there.Some? && there.value.state == Step(a, s.moments[j].state)
    && Replay(there.value.state, s.trace, j, k) == Some(Step(a, s.moments[k].state))
  }

  /** A schedule that took `p` after the first `j` steps of the trace went where `p` leads. */
  lemma WentThere(start: Moment, target: Target, s: Stack, j: nat, p: RunnerId, c: seq<RunnerId>)
    requires PathOk(start, target, s.trace, s.moments) && j <= |s.trace|
    requires Run(start, target, c).Some? && Schedule(s.trace)[..j] + [p] <= c
    ensures var there := Run(start, target, Schedule(s.trace)[..j] + [p]);
      && CanRun(s.moments[j], p) && there.Some?
      && there.value.state == Step(s.moments[j].pending[p], s.moments[j].state)
  {
    hide StepOk, CanRun;
    var prefix := Schedule(s.trace)[..j] + [p];
    RunPrefix(start, target, c, j + 1);
    assert c[..j + 1] == prefix && prefix[..j] == Schedule(s.trace)[..j];
    PathIsRun(start, target, s.trace, s.moments, j);
  }

  /** The step a sleeper takes was taken from a lower item, unless the trace takes it now. */
  lemma SleeperWasTaken(s: Stack, completed: seq<seq<RunnerId>>, k: nat, p: RunnerId, j: nat)
    requires |s.moments| == |s.items| == |s.trace| + 1 && k < |s.items| && Tried(s, completed)
    requires Justified(s, k, p, j) && s.moments[j].pending[p].executor == p
    requires k < |s.trace| ==> s.trace[k].executor != p
    ensures TookNext(completed, Schedule(s.trace)[..j], p)
  {
    assert TriedAt(s, completed, j, p);
  }

  /** Sleep sets are sound: a sleeper that is not the runner taken was run in a completed
      schedule, from an item at or below, with the same step and only independent steps
      since. Running it now would lead to a state that this schedule led to before the
      steps in between, if and only if none of these is a revival with its step. */
  lemma SleepersAreCovered(start: Moment, target: Target, s: Stack, completed: seq<seq<RunnerId>>, k: nat, p: RunnerId)
    requires MomentOk(start) && Faithful(target, start) && WellFormed(start.state)
    requires StackOk(start, target, s) && Tried(s, completed)
    requires forall c :: c in completed ==> Run(start, target, c).Some?
    requires k < |s.items| && p in s.items[k].sleep && (k < |s.trace| ==> s.trace[k].executor != p)
    ensures exists j: nat, c :: RanAs(s, completed, k, p, j, c) &&
              (CoveredBy(start, target, s, k, p, j, c) <==> NoRevival(s.moments[k].pending[p], s.trace, s.moments, j, k))
  {
    hide WellFormed, Faithful, MomentOk, AllSetsOk, SleepExact, Tried, StepOk, NoRevival, CoveredBy;
    var j: nat :| Justified(s, k, p, j);
    assert s.moments[j].pending[p].executor == p by {
      PathTyped(start, target, s.trace, s.moments, j);
      PendingIsOwn(s.moments[j], p);
    }
    SleeperWasTaken(s, completed, k, p, j);
    var c :| c in completed && Schedule(s.trace)[..j] + [p] <= c;
    CoveredIffNoRevival(start, target, s, k, p, j, c);
    assert RanAs(s, completed, k, p, j, c);
  }

  /** The completed schedule `c` took `p` from `j` with the step that `p` sleeps with at `k`. */
  ghost predicate RanAs(s: Stack, completed: seq<seq<RunnerId>>, k: nat, p: RunnerId, j: nat, c: seq<RunnerId>)
    requires k < |s.items| && |s.moments| == |s.items| == |s.trace| + 1
  {
    c in completed && Justified(s, k, p, j) && Schedule(s.trace)[..j] + [p] <= c
  }

  lemma CoveredIffNoRevival(start: Moment, target: Target, s: Stack, k: nat, p: RunnerId, j: nat, c: seq<RunnerId>)
    requires MomentOk(start) && Faithful(target, start) && WellFormed(start.state)
    requires PathOk(start, target, s.trace, s.moments) && |s.moments| == |s.items|
    requires k < |s.items| && Justified(s, k, p, j) && s.moments[j].pending[p].executor == p
    requires Run(start, target, c).Some? && Schedule(s.trace)[..j] + [p] <= c
    ensures CoveredBy(start, target, s, k, p, j, c) <==> NoRevival(s.moments[k].pending[p], s.trace, s.moments, j, k)
  {
    hide WellFormed, Faithful, MomentOk, StepOk, NoRevival, Replay, WellTyped, Enabled;
    WentThere(start, target, s, j, p, c);
    SwapsWithSteps(start, target, s.trace, s.moments, j, k, s.moments[j].pending[p]);
  }

  lemma PendingIsOwn(m: Moment, p: RunnerId)
    requires MomentOk(m) && p in m.pending
    ensures m.pending[p].executor == p
  {
  }

  /** So it is at every loop head of a search. */
  lemma SearchCoversSleepers(start: Moment, target: Target, s: Stack, completed: seq<seq<RunnerId>>, d: nat, k: nat, p: RunnerId)
    requires Searching(start, target, s, completed, d) && WellFormed(start.state)
    requires k < |s.items| == |s.trace| + 1 && |s.moments| == |s.items|
    requires p in s.items[k].sleep && (k < |s.trace| ==> s.trace[k].executor != p)
    ensures exists j: nat, c :: RanAs(s, completed, k, p, j, c) &&
              (CoveredBy(start, target, s, k, p, j, c) <==> NoRevival(s.moments[k].pending[p], s.trace, s.moments, j, k))
  {
    hide StackOk, Tried, CoveredBy, NoRevival, RanAs, WellFormed;
    SleepersAreCovered(start, target, s, completed, k, p);
  }
}
