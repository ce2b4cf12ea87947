/**
 * The explorer's bookkeeping as values: runs of the program under test, the items of
 * the search stack and how they are updated.
 */
module ExplorerSpec {
  import opened Basics
  import opened ClockVectors
  import opened Transitions
  import opened Dependency
  import opened ProgramSpec

  // --- Runs ---

  /** The program under test: the schedule executed so far determines what the runner
      that was scheduled last does next. */
  datatype Reply = NextOp(op: Transition) | Failed
  type Target = seq<RunnerId> -> Reply

  predicate CanRun(m: Moment, r: RunnerId) {
    r in m.pending && WellTyped(m.pending[r], m.state) && Enabled(m.pending[r], m.state)
  }

  function EnabledIn(m: Moment): set<RunnerId> {
    set r | r in m.pending && CanRun(m, r)
  }

  function Advance(m: Moment, r: RunnerId, op: Transition): Moment
    requires CanRun(m, r)
  {
    Moment(Step(m.pending[r], m.state), m.pending[r := op])
  }

  /** The moment the schedule leads to, when each of its steps is enabled in turn. */
  function Run(start: Moment, target: Target, schedule: seq<RunnerId>): Option<Moment> {
    if schedule == [] then Some(start) else
      var r := schedule[|schedule| - 1];
      match Run(start, target, schedule[..|schedule| - 1])
      case None => None
      case Some(m) =>
        if CanRun(m, r) && target(schedule).NextOp? then Some(Advance(m, r, target(schedule).op)) else None
  }

  /** A run that cannot be continued. */
  ghost predicate CompleteRun(start: Moment, target: Target, schedule: seq<RunnerId>) {
    Run(start, target, schedule).Some? && EnabledIn(Run(start, target, schedule).value) == {}
  }

  /** Nobody can go on although somebody has not exited. */
  predicate Stuck(m: Moment) {
    EnabledIn(m) == {} && exists r :: r in m.pending && IsRunner(m.state, r) && StatusOfRunner(m.state, r) != Exited
  }

  ghost predicate Deadlocks(start: Moment, target: Target, schedule: seq<RunnerId>) {
    Run(start, target, schedule).Some? && Stuck(Run(start, target, schedule).value)
  }

  function Schedule(trace: Trace): (r: seq<RunnerId>)
    ensures |r| == |trace| && forall k :: 0 <= k < |r| ==> r[k] == trace[k].executor
  {
    seq(|trace|, k requires 0 <= k < |trace| => trace[k].executor)
  }

  /** Step `k` of the trace was the enabled step of its runner and led to the next moment. */
  ghost predicate StepOk(target: Target, trace: Trace, moments: seq<Moment>, k: nat)
    requires k < |trace| < |moments|
  {
    var r, reply := trace[k].executor, target(Schedule(trace)[..k + 1]);
    && CanRun(moments[k], r) && moments[k].pending[r] == trace[k]
    && reply.NextOp? && moments[k + 1] == Advance(moments[k], r, reply.op)
  }

  /** `moments` lists where each prefix of the trace leads. */
  ghost predicate PathOk(start: Moment, target: Target, trace: Trace, moments: seq<Moment>) {
    && |moments| == |trace| + 1
    && moments[0] == start
    && forall k :: 0 <= k < |trace| ==> StepOk(target, trace, moments, k)
  }

  lemma RunLast(start: Moment, target: Target, schedule: seq<RunnerId>, m: Moment)
    requires schedule != [] && Run(start, target, schedule[..|schedule| - 1]) == Some(m)
    requires CanRun(m, schedule[|schedule| - 1]) && target(schedule).NextOp?
    ensures Run(start, target, schedule) == Some(Advance(m, schedule[|schedule| - 1], target(schedule).op))
  {
  }

  /** What the last step of a run did. */
  lemma RunFront(start: Moment, target: Target, schedule: seq<RunnerId>)
    requires schedule != [] && Run(start, target, schedule).Some?
    ensures var front, r := Run(start, target, schedule[..|schedule| - 1]), schedule[|schedule| - 1];
      && front.Some? && CanRun(front.value, r) && target(schedule).NextOp?
      && Run(start, target, schedule).value == Advance(front.value, r, target(schedule).op)
  {
  }

  lemma {:induction false} PathIsRun(start: Moment, target: Target, trace: Trace, moments: seq<Moment>, k: nat)
    requires PathOk(start, target, trace, moments) && k <= |trace|
    ensures Run(start, target, Schedule(trace)[..k]) == Some(moments[k])
  {
    if k > 0 {
      PathIsRun(start, target, trace, moments, k - 1);
      assert StepOk(target, trace, moments, k - 1);
      var schedule := Schedule(trace)[..k];
      assert schedule[..k - 1] == Schedule(trace)[..k - 1];
      RunLast(start, target, schedule, moments[k - 1]);
    }
  }

  lemma PathExtends(start: Moment, target: Target, trace: Trace, moments: seq<Moment>, p: RunnerId, op: Transition)
    requires PathOk(start, target, trace, moments)
    requires CanRun(moments[|trace|], p) && moments[|trace|].pending[p].executor == p
    requires target(Schedule(trace) + [p]) == NextOp(op)
    ensures PathOk(start, target, trace + [moments[|trace|].pending[p]], moments + [Advance(moments[|trace|], p, op)])
  {
    var m := moments[|trace|];
    var trace', moments' := trace + [m.pending[p]], moments + [Advance(m, p, op)];
    forall k | 0 <= k < |trace'| ensures StepOk(target, trace', moments', k) {
      if k < |trace| {
        assert StepOk(target, trace, moments, k);
        assert Schedule(trace')[..k + 1] == Schedule(trace)[..k + 1];
      } else {
        assert Schedule(trace')[..k + 1] == Schedule(trace) + [p];
      }
    }
  }

  lemma PathCut(start: Moment, target: Target, trace: Trace, moments: seq<Moment>, n: nat)
    requires PathOk(start, target, trace, moments) && n <= |trace|
    ensures PathOk(start, target, trace[..n], moments[..n + 1])
  {
    var trace', moments' := trace[..n], moments[..n + 1];
    forall k | 0 <= k < n ensures StepOk(target, trace', moments', k) {
      assert StepOk(target, trace, moments, k);
      assert Schedule(trace')[..k + 1] == Schedule(trace)[..k + 1];
    }
  }

  // --- The programs explored ---

  /** Runners and their next steps as the model expects them. */
  ghost predicate MomentOk(m: Moment) {
    && Keyed(m.pending) && (forall r :: r in m.pending ==> WellTyped(m.pending[r], m.state))
  }

  /** What the process reports is a step of the runner that was scheduled, on objects the
      model knows. */
  ghost predicate Faithful(target: Target, start: Moment) {
    forall schedule :: schedule != [] && target(schedule).NextOp? ==>
      target(schedule).op.executor == schedule[|schedule| - 1] && WellTyped(target(schedule).op, start.state)
  }

  lemma {:induction false} PathTyped(start: Moment, target: Target, trace: Trace, moments: seq<Moment>, k: nat)
    requires MomentOk(start) && Faithful(target, start)
    requires PathOk(start, target, trace, moments) && k <= |trace|
    ensures MomentOk(moments[k]) && SameShape(start.state, moments[k].state)
    ensures moments[k].pending.Keys == start.pending.Keys
  {
    hide Modify, Run;
    if k > 0 {
      PathTyped(start, target, trace, moments, k - 1);
      assert StepOk(target, trace, moments, k - 1);
      var m, t := moments[k - 1], trace[k - 1];
      var schedule := Schedule(trace)[..k];
      assert schedule[k - 1] == t.executor;
      StepKeepsShape(t, m.state);
      forall r | r in moments[k].pending ensures WellTyped(moments[k].pending[r], moments[k].state) {
        ShapeKeepsTyping(moments[k].pending[r], start.state, m.state);
        ShapeKeepsTyping(moments[k].pending[r], m.state, moments[k].state);
      }
    }
  }

  // --- Stack items ---

  datatype Item = Item(
    backtrack: set<RunnerId>,
    done: set<RunnerId>,
    sleep: set<RunnerId>,
    enabled: set<RunnerId>,
    out: Option<Transition>,
    clock: ClockVector,
    runnerClocks: Clocks)

  function InsertUnlessCompleted(it: Item, q: RunnerId): Item {
    if q in it.done then it else it.(backtrack := it.backtrack + {q})
  }

  function MarkSearched(it: Item, q: RunnerId): Item {
    it.(done := it.done + {q}, backtrack := it.backtrack - {q})
  }

  /** The smallest member. */
  ghost function Least(s: set<RunnerId>): (r: RunnerId)
    requires s != {}
    ensures r in s && forall q :: q in s ==> r <= q
  {
    var q :| q in s;
    if s == {q} then q else
      var least := Least(s - {q});
      assert forall x :: x in s ==> x == q || x in s - {q};
      if q < least then q else least
  }

  /** What every item satisfies between two steps of the search. */
  ghost predicate SetsOk(it: Item) {
    it.done <= it.sleep && it.sleep !! it.backtrack && it.done + it.backtrack <= it.enabled
  }

  // --- Growing the stack ---

  /** The last item after its runner executed, and the item for the state reached. */
  function Left(it: Item, t: Transition): Item {
    MarkSearched(it.(out := Some(t), sleep := it.sleep + {t.executor}), t.executor)
  }

  /** The maximum of the clocks of the items whose out-transition the step depends on. */
  function Accumulated(items: seq<Item>, t: Transition): ClockVector {
    if items == [] then map[] else
      var it, rest := items[|items| - 1], Accumulated(items[..|items| - 1], t);
      if it.out.Some? && AreDependent(it.out.value, t) then Max(rest, it.clock) else rest
  }

  /** The clock of a step from the last item, which says the depth after it for its runner. */
  function StepClock(items: seq<Item>, t: Transition): ClockVector {
    Accumulated(items, t)[t.executor := |items|]
  }

  function Fresh(items: seq<Item>, t: Transition, next: Pending, enabled: set<RunnerId>): Item
    requires items != []
  {
    var below, cv := items[|items| - 1], StepClock(items, t);
    Item({}, {}, (set r | r in below.sleep && r in next && !AreDependent(next[r], t)), enabled, Some(t),
         cv, below.runnerClocks[t.executor := cv])
  }

  function Grown(items: seq<Item>, t: Transition, next: Pending, enabled: set<RunnerId>): seq<Item>
    requires items != []
  {
    var n := |items| - 1;
    items[n := Left(items[n], t)] + [Fresh(items, t, next, enabled)]
  }

  lemma {:induction false} SameAccumulated(items: seq<Item>, items': seq<Item>, t: Transition)
    requires |items| == |items'|
    requires forall k :: 0 <= k < |items| ==> items[k].out == items'[k].out && items[k].clock == items'[k].clock
    ensures Accumulated(items, t) == Accumulated(items', t)
  {
    if items != [] {
      SameAccumulated(items[..|items| - 1], items'[..|items| - 1], t);
    }
  }

  // --- Backtrack points ---

  /** Step `i` comes before what `p` does next. */
  predicate StepBefore(clocks: Clocks, trace: Trace, i: nat, p: RunnerId)
    requires i < |trace|
  {
    HappensBeforeThread(clocks, i, trace[i].executor, p)
  }

  predicate RacesAfter(clocks: Clocks, trace: Trace, i: nat, q: RunnerId, p: RunnerId) {
    exists j :: i < j < |trace| && trace[j].executor == q && StepBefore(clocks, trace, j, p)
  }

  predicate Reversible(clocks: Clocks, trace: Trace, i: nat, next: Transition, p: RunnerId)
    requires i < |trace|
  {
    AreDependent(next, trace[i]) && AreCoenabled(next, trace[i]) && !StepBefore(clocks, trace, i, p)
  }

  /** The enabled runners that could lead to the reversal. */
  function InitialsIn(clocks: Clocks, trace: Trace, i: nat, p: RunnerId, enabled: set<RunnerId>): set<RunnerId> {
    set q | q in enabled && (q == p || RacesAfter(clocks, trace, i, q, p))
  }

  function Initials(clocks: Clocks, trace: Trace, i: nat, p: RunnerId, it: Item): set<RunnerId> {
    InitialsIn(clocks, trace, i, p, it.enabled)
  }

  /** A runner with a step since that the clock of `p` knows of is in the set E. */
  lemma WhoLeads(clocks: Clocks, trace: Trace, i: nat, p: RunnerId, enabled: set<RunnerId>, q: RunnerId, j: nat)
    requires i < j < |trace| && trace[j].executor == q && q in enabled && j < ValueFor(ClockOf(clocks, p), q)
    ensures q in InitialsIn(clocks, trace, i, p, enabled)
  {
    assert StepBefore(clocks, trace, j, p);
  }

  /** A race with the last step plans just the waiting runner, when it is enabled and awake. */
  lemma LastStepPlans(clocks: Clocks, trace: Trace, p: RunnerId, it: Item)
    requires trace != [] && SetsOk(it) && p in it.enabled && p !in it.sleep
    ensures AddBacktrack(it, Initials(clocks, trace, |trace| - 1, p, it)) == it.(backtrack := it.backtrack + {p})
  {
    var e := Initials(clocks, trace, |trace| - 1, p, it);
    assert e == {p};
    assert e - it.sleep == {p};
    if p in it.backtrack {
      assert p in {p} * it.backtrack;
      assert it.backtrack + {p} == it.backtrack;
    }
  }

  /** The item once the race was handled: `e` is the set E of the algorithm. */
  ghost function AddBacktrack(it: Item, e: set<RunnerId>): Item {
    var awake := e - it.sleep;
    if awake == {} then it.(backtrack := it.backtrack + (it.enabled - it.sleep - it.done))
    else if awake * it.backtrack != {} then it
    else InsertUnlessCompleted(it, Least(awake))
  }

  /** A race is handled when a member of E will be tried, or else everyone will. */
  ghost predicate Handled(it: Item, e: set<RunnerId>) {
    e * it.backtrack != {} || it.enabled <= it.backtrack + it.sleep
  }

  lemma AddBacktrackHandles(it: Item, e: set<RunnerId>)
    requires SetsOk(it) && e <= it.enabled
    ensures SetsOk(AddBacktrack(it, e)) && Handled(AddBacktrack(it, e), e)
    ensures AddBacktrack(it, e) == it.(backtrack := AddBacktrack(it, e).backtrack)
    ensures it.backtrack <= AddBacktrack(it, e).backtrack
    // One more runner at most, unless all of E sleeps.
    ensures var awake, added := e - it.sleep, AddBacktrack(it, e).backtrack - it.backtrack;
      && (awake * it.backtrack != {} ==> added == {})
      && (awake != {} && awake * it.backtrack == {} ==> added == {Least(awake)})
      && (awake == {} ==> it.enabled <= AddBacktrack(it, e).backtrack + it.sleep)
  {
    var awake := e - it.sleep;
    if awake != {} && awake * it.backtrack == {} {
      assert Least(awake) in e * AddBacktrack(it, e).backtrack;
    } else if awake != {} {
      var q :| q in awake * it.backtrack;
      assert q in e * it.backtrack;
    }
  }

  /** One call of `dynamically_update_backtrack_sets_at_index`. */
  ghost function UpdateAt(clocks: Clocks, items: seq<Item>, trace: Trace, next: Transition, i: nat, p: RunnerId): seq<Item>
    requires i < |items| && i < |trace|
  {
    if Reversible(clocks, trace, i, next, p) then
      items[i := AddBacktrack(items[i], Initials(clocks, trace, i, p, items[i]))]
    else items
  }

  /** The first step comes before everything, since no clock is below zero: the comparison
      finds no race with it. */
  lemma FirstStepIsBefore(clocks: Clocks, trace: Trace, next: Transition, p: RunnerId)
    requires trace != []
    ensures !Reversible(clocks, trace, 0, next, p)
    ensures forall items: seq<Item> :: items != [] ==> UpdateAt(clocks, items, trace, next, 0, p) == items
  {
  }

  /** Runners `p..n` against the last step, `last` excepted. */
  ghost function UpdateOthers(clocks: Clocks, items: seq<Item>, trace: Trace, next: Pending,
                              last: RunnerId, p: nat, n: nat): (r: seq<Item>)
    requires trace != [] && |items| == |trace| + 1
    requires forall q: RunnerId :: p <= q < n ==> q in next
    requires n <= 0x1_0000
    ensures |r| == |items|
    decreases n - p
  {
    if p >= n then items
    else if p == last then UpdateOthers(clocks, items, trace, next, last, p + 1, n)
    else UpdateOthers(clocks, UpdateAt(clocks, items, trace, next[p], |trace| - 1, p), trace, next, last, p + 1, n)
  }

  /** The last runner's next step against the steps below `k`, down to the first reversible race. */
  ghost function UpdateLast(clocks: Clocks, items: seq<Item>, trace: Trace, next: Transition,
                            k: nat, p: RunnerId): (r: seq<Item>)
    requires k <= |trace| && |items| == |trace| + 1
    ensures |r| == |items|
  {
    if k == 0 then items
    else if Reversible(clocks, trace, k - 1, next, p) then UpdateAt(clocks, items, trace, next, k - 1, p)
    else UpdateLast(clocks, items, trace, next, k - 1, p)
  }

  /** `dynamically_update_backtrack_sets` for `n` runners. */
  ghost function Updated(clocks: Clocks, items: seq<Item>, trace: Trace, next: Pending, n: nat): (r: seq<Item>)
    requires trace != [] && |items| == |trace| + 1
    requires n <= 0x1_0000 && forall q: RunnerId :: q < n ==> q in next
    requires trace[|trace| - 1].executor in next
    ensures |r| == |items|
  {
    var last := trace[|trace| - 1].executor;
    UpdateLast(clocks, UpdateOthers(clocks, items, trace, next, last, 0, n), trace, next[last], |trace| - 1, last)
  }

  /** Only backtrack sets grow, never the first, and only by enabled runners that are awake. */
  ghost predicate BacktracksOnly(a: seq<Item>, b: seq<Item>) {
    && |a| == |b| && (a != [] ==> a[0] == b[0])
    && forall k :: 0 <= k < |a| ==>
         && b[k] == a[k].(backtrack := b[k].backtrack) && a[k].backtrack <= b[k].backtrack
         && (SetsOk(a[k]) ==> SetsOk(b[k]))
  }

  ghost predicate AllSetsOk(items: seq<Item>) {
    forall k :: 0 <= k < |items| ==> SetsOk(items[k])
  }

  lemma UpdateAtBacktracksOnly(clocks: Clocks, items: seq<Item>, trace: Trace, next: Transition, i: nat, p: RunnerId)
    requires i < |items| && i < |trace| && AllSetsOk(items)
    ensures BacktracksOnly(items, UpdateAt(clocks, items, trace, next, i, p))
    ensures Reversible(clocks, trace, i, next, p) ==>
              Handled(UpdateAt(clocks, items, trace, next, i, p)[i], Initials(clocks, trace, i, p, items[i]))
  {
    AddBacktrackHandles(items[i], Initials(clocks, trace, i, p, items[i]));
  }

  lemma {:induction false} UpdateOthersBacktracksOnly(clocks: Clocks, items: seq<Item>, trace: Trace,
                                                     next: Pending, last: RunnerId, p: nat, n: nat)
    requires trace != [] && |items| == |trace| + 1 && AllSetsOk(items)
    requires n <= 0x1_0000 && forall q: RunnerId :: p <= q < n ==> q in next
    ensures BacktracksOnly(items, UpdateOthers(clocks, items, trace, next, last, p, n))
    ensures var r := UpdateOthers(clocks, items, trace, next, last, p, n); var t := |trace| - 1;
      && r[|trace|] == items[|trace|]
      && forall q: RunnerId :: p <= q < n && q != last && Reversible(clocks, trace, t, next[q], q) ==>
           Handled(r[t], Initials(clocks, trace, t, q, items[t]))
    decreases n - p
  {
    hide AddBacktrack, Reversible, InitialsIn;
    if p < n {
      if p != last {
        UpdateAtBacktracksOnly(clocks, items, trace, next[p], |trace| - 1, p);
        UpdateOthersBacktracksOnly(clocks, UpdateAt(clocks, items, trace, next[p], |trace| - 1, p), trace, next, last, p + 1, n);
      } else {
        UpdateOthersBacktracksOnly(clocks, items, trace, next, last, p + 1, n);
      }
    }
  }

  /** The race with step `i` is the latest reversible one below depth `k`. */
  ghost predicate LatestRace(clocks: Clocks, trace: Trace, k: nat, next: Transition, p: RunnerId, i: nat)
    requires i < k <= |trace|
  {
    Reversible(clocks, trace, i, next, p) && forall j :: i < j < k ==> !Reversible(clocks, trace, j, next, p)
  }

  lemma {:induction false} UpdateLastBacktracksOnly(clocks: Clocks, items: seq<Item>, trace: Trace,
                                                   next: Transition, k: nat, p: RunnerId)
    requires k <= |trace| && |items| == |trace| + 1 && AllSetsOk(items)
    ensures var r := UpdateLast(clocks, items, trace, next, k, p);
      && BacktracksOnly(items, r) && r[|trace|] == items[|trace|]
      && forall i :: 0 <= i < k && LatestRace(clocks, trace, k, next, p, i) ==>
           Handled(r[i], Initials(clocks, trace, i, p, items[i]))
  {
    hide AddBacktrack, Reversible, InitialsIn;
    if k > 0 {
      if Reversible(clocks, trace, k - 1, next, p) {
        UpdateAtBacktracksOnly(clocks, items, trace, next, k - 1, p);
      } else {
        UpdateLastBacktracksOnly(clocks, items, trace, next, k - 1, p);
      }
    }
  }

  // --- Nothing else is planned ---

  /** One of the runners `p..n` races with the last step. */
  ghost predicate SomeoneRaces(clocks: Clocks, trace: Trace, next: Pending, last: RunnerId, p: nat, n: nat)
    requires trace != []
  {
    exists q: RunnerId :: p <= q < n && q != last && q in next && Reversible(clocks, trace, |trace| - 1, next[q], q)
  }

  lemma {:induction false} OthersPlanForRaces(clocks: Clocks, items: seq<Item>, trace: Trace,
                                             next: Pending, last: RunnerId, p: nat, n: nat)
    requires trace != [] && |items| == |trace| + 1
    requires n <= 0x1_0000 && forall q: RunnerId :: p <= q < n ==> q in next
    ensures var r, t := UpdateOthers(clocks, items, trace, next, last, p, n), |trace| - 1;
      && (forall i :: 0 <= i < |items| && i != t ==> r[i] == items[i])
      && (r[t] != items[t] ==> SomeoneRaces(clocks, trace, next, last, p, n))
    decreases n - p
  {
    hide AddBacktrack, Reversible, Initials;
    if p < n {
      var items' := if p == last then items else UpdateAt(clocks, items, trace, next[p], |trace| - 1, p);
      OthersPlanForRaces(clocks, items', trace, next, last, p + 1, n);
    }
  }

  lemma {:induction false} LastPlansForRace(clocks: Clocks, items: seq<Item>, trace: Trace, next: Transition, k: nat, p: RunnerId)
    requires k <= |trace| && |items| == |trace| + 1
    ensures var r := UpdateLast(clocks, items, trace, next, k, p);
      forall i :: 0 <= i < |items| && r[i] != items[i] ==> i < k && LatestRace(clocks, trace, k, next, p, i)
  {
    hide AddBacktrack, Reversible, Initials;
    if k > 0 && !Reversible(clocks, trace, k - 1, next, p) {
      LastPlansForRace(clocks, items, trace, next, k - 1, p);
    }
  }

  /** An update plans something at an item only for a race with the step taken there: with the
      last step, or the latest race of the runner that took it. */
  lemma OnlyRacesPlan(clocks: Clocks, items: seq<Item>, trace: Trace, next: Pending, n: nat)
    requires trace != [] && |items| == |trace| + 1
    requires n <= 0x1_0000 && forall q: RunnerId :: q < n ==> q in next
    requires trace[|trace| - 1].executor in next
    ensures var r, t, last := Updated(clocks, items, trace, next, n), |trace| - 1, trace[|trace| - 1].executor;
      forall i :: 0 <= i < |items| && r[i] != items[i] ==>
        || (i == t && SomeoneRaces(clocks, trace, next, last, 0, n))
        || (i < t && LatestRace(clocks, trace, t, next[last], last, i))
  {
    hide UpdateOthers, UpdateLast, SomeoneRaces, LatestRace;
    var last := trace[|trace| - 1].executor;
    OthersPlanForRaces(clocks, items, trace, next, last, 0, n);
    LastPlansForRace(clocks, UpdateOthers(clocks, items, trace, next, last, 0, n), trace, next[last], |trace| - 1, last);
  }
}
