/** The explorer: a depth-first search over schedules that updates its stack in place. */
module ClassicDpor {
  import opened Basics
  import opened ClockVectors
  import opened Transitions
  import opened Dependency
  import opened Independence
  import opened ProgramSpec
  import opened ProgramSteps
  import opened Program
  import opened ExplorerSpec
  import opened StackItems
  import opened Search
  import opened StepClocks
  import opened Races
  import opened Coordinator

  /** The stack items as values. */
  ghost function Items(stack: seq<StackItem>): (r: seq<Item>)
    reads stack
    ensures |r| == |stack| && forall k :: 0 <= k < |r| ==> r[k] == stack[k].Value()
  {
    seq(|stack|, k requires 0 <= k < |stack| reads stack => stack[k].Value())
  }

  /** The clocks of all runners in the latest state. */
  function TopClocks(stack: seq<StackItem>): Clocks
    requires stack != []
  {
    stack[|stack| - 1].runnerClocks
  }

  ghost predicate OutsMatch(stack: seq<StackItem>, trace: Trace)
    reads stack
  {
    |stack| == |trace| + 1 && forall k :: 0 <= k < |trace| ==> stack[k].outTransition == Some(trace[k])
  }

  /** Runner ids are handed out in order, and there are fewer runners than ids. */
  ghost predicate Consecutive(start: Moment) {
    |start.pending| <= 0xFFFF && forall q: RunnerId :: q in start.pending <==> q < |start.pending|
  }

  class Explorer {
    const maximumTotalExecutionDepth: nat
    const coordinator: Coordinator
    var stack: seq<StackItem>
    /** Where the search starts. */
    ghost const start: Moment
    /** The clocks along the schedules completed. */
    ghost var clockings: seq<seq<Clocks>>

    constructor (coordinator: Coordinator, maximumTotalExecutionDepth: nat)
      ensures this.coordinator == coordinator && start == coordinator.start
      ensures this.maximumTotalExecutionDepth == maximumTotalExecutionDepth && stack == []
    {
      this.coordinator, start := coordinator, coordinator.start;
      this.maximumTotalExecutionDepth, stack, clockings := maximumTotalExecutionDepth, [], [];
    }

    /** `accumulate_max_clock_vector_against`. */
    method AccumulateMaxClockVectorAgainst(t: Transition) returns (result: ClockVector)
      ensures result == Accumulated(Items(stack), t)
    {
      hide AreDependent, Max, Items;
      result := map[];
      var k := 0;
      while k < |stack|
        invariant k <= |stack| && result == Accumulated(Items(stack)[..k], t)
      {
        assert Items(stack)[..k + 1][..k] == Items(stack)[..k];
        if stack[k].outTransition.Some? && AreDependent(stack[k].outTransition.value, t) {
          result := MaxOf(result, stack[k].clock);
        }
        k := k + 1;
      }
      assert Items(stack)[..k] == Items(stack);
    }

    /** `threads_race_after`. */
    method ThreadsRaceAfter(trace: Trace, i: nat, q: RunnerId, p: RunnerId) returns (r: bool)
      requires OutsMatch(stack, trace) && i < |trace|
      ensures r == RacesAfter(TopClocks(stack), trace, i, q, p)
    {
      var j := i + 1;
      while j < |stack| - 1
        invariant i < j <= |trace|
        invariant forall k :: i < k < j ==> !(trace[k].executor == q && StepBefore(TopClocks(stack), trace, k, p))
      {
        var t := stack[j].outTransition.value;
        if t.executor == q && HappensBeforeThread(TopClocks(stack), j, t.executor, p) {
          return true;
        }
        j := j + 1;
      }
      r := false;
    }

    /** The set E, without the runners that sleep. */
    method AwakeInitials(trace: Trace, i: nat, p: RunnerId) returns (e: set<RunnerId>)
      requires OutsMatch(stack, trace) && i < |trace|
      ensures e == Initials(TopClocks(stack), trace, i, p, stack[i].Value()) - stack[i].sleepSet
    {
      e := {};
      var todo := stack[i].enabledRunners;
      while todo != {}
        invariant todo <= stack[i].enabledRunners
        invariant e == Initials(TopClocks(stack), trace, i, p, stack[i].Value()) - stack[i].sleepSet - todo
      {
        var q :| q in todo;
        var races := ThreadsRaceAfter(trace, i, q, p);
        if (q == p || races) && q !in stack[i].sleepSet {
          e := e + {q};
        }
        todo := todo - {q};
      }
    }

    /** `dynamically_update_backtrack_sets_at_index`. The first step comes before everything,
        so nothing changes at index 0. */
    method DynamicallyUpdateBacktrackSetsAtIndex(trace: Trace, next: Transition, i: nat, p: RunnerId) returns (race: bool)
      requires OutsMatch(stack, trace) && i < |trace| && Distinct(stack)
      modifies stack[i]
      ensures Items(stack) == UpdateAt(TopClocks(stack), old(Items(stack)), trace, next, i, p)
      ensures race == Reversible(TopClocks(stack), trace, i, next, p) && OutsMatch(stack, trace)
      // A pair declared dependent and co-enabled races unless the clock of `p` has reached it.
      ensures race <==> AreDependent(next, trace[i]) && AreCoenabled(next, trace[i])
                        && ValueFor(ClockOf(TopClocks(stack), p), trace[i].executor) < i
      ensures i == 0 ==> !race && Items(stack) == old(Items(stack))
    {
      hide AreDependent, AreCoenabled, RacesAfter;
      if i == 0 {
        FirstStepIsBefore(TopClocks(stack), trace, next, p);
      }
      race := AreDependent(next, trace[i]) && AreCoenabled(next, trace[i])
              && !HappensBeforeThread(TopClocks(stack), i, trace[i].executor, p);
      if race {
        var e := AwakeInitials(trace, i, p);
        assert e - stack[i].sleepSet == e;
        AddBacktrackPoint(stack[i], e);
      }
    }

    method AddBacktrackPoint(item: StackItem, e: set<RunnerId>)
      requires e !! item.sleepSet
      modifies item`backtrackSet
      ensures item.Value() == AddBacktrack(old(item.Value()), e)
    {
      assert e - item.sleepSet == e;
      if e == {} {
        var todo := item.enabledRunners;
        while todo != {}
          invariant todo <= item.enabledRunners
          invariant item.backtrackSet == old(item.backtrackSet) + (item.enabledRunners - item.sleepSet - item.doneSet - todo)
        {
          var q :| q in todo;
          if q !in item.sleepSet {
            item.InsertIntoBacktrackSetUnlessCompleted(q);
          }
          todo := todo - {q};
        }
      } else {
        var todo := e;
        while todo != {}
          invariant todo <= e
          invariant forall q :: q in e && q !in todo ==> q !in item.backtrackSet
        {
          var q :| q in todo;
          if q in item.backtrackSet {
            assert q in e * item.backtrackSet;
            return;
          }
          todo := todo - {q};
        }
        assert e * item.backtrackSet == {};
        var q :| q in e;
        q := SmallestOf(e, q);
        item.InsertIntoBacktrackSetUnlessCompleted(q);
      }
    }

    /** `dynamically_update_backtrack_sets`: first the other runners against the last
        step, then the last runner against the steps before it. */
    method DynamicallyUpdateBacktrackSets(trace: Trace, next: Pending, n: nat)
      requires OutsMatch(stack, trace) && Distinct(stack) && trace != []
      requires n <= 0x1_0000 && forall q: RunnerId :: q < n ==> q in next
      requires trace[|trace| - 1].executor in next
      modifies stack
      ensures Items(stack) == Updated(TopClocks(stack), old(Items(stack)), trace, next, n)
    {
      hide Items, Distinct, UpdateAt, UpdateLast;
      var top := |stack| - 2;
      var last := trace[top].executor;
      ghost var items, clocks := Items(stack), TopClocks(stack);
      var rid := 0;
      while rid < n
        invariant 0 <= rid <= n && OutsMatch(stack, trace)
        invariant UpdateOthers(clocks, Items(stack), trace, next, last, rid, n) == UpdateOthers(clocks, items, trace, next, last, 0, n)
      {
        if rid != last {
          var _ := DynamicallyUpdateBacktrackSetsAtIndex(trace, next[rid], top, rid);
        }
        rid := rid + 1;
      }
      UpdateLastRunner(trace, next[last], last);
    }

    /** The second half: down to the first reversible race of the last runner. */
    method UpdateLastRunner(trace: Trace, next: Transition, last: RunnerId)
      requires OutsMatch(stack, trace) && Distinct(stack) && trace != []
      modifies stack
      ensures Items(stack) == UpdateLast(TopClocks(stack), old(Items(stack)), trace, next, |trace| - 1, last)
    {
      hide Items, Distinct, AddBacktrack, Initials, AreDependent, AreCoenabled;
      ghost var items, clocks := Items(stack), TopClocks(stack);
      var i := |stack| - 3;
      while i >= 0
        invariant -1 <= i < |trace| - 1 && OutsMatch(stack, trace)
        invariant Items(stack) == items
        invariant UpdateLast(clocks, items, trace, next, i + 1, last) == UpdateLast(clocks, items, trace, next, |trace| - 1, last)
      {
        var shouldStop := DynamicallyUpdateBacktrackSetsAtIndex(trace, next, i, last);
        if shouldStop {
          return;
        }
        i := i - 1;
      }
    }

    /** `grow_stack_after_running`. */
    method GrowStackAfterRunning(t: Transition, next: Pending, enabled: set<RunnerId>)
      requires stack != [] && Distinct(stack)
      requires forall rid :: rid in stack[|stack| - 1].sleepSet ==> rid in next
      modifies this`stack, stack
      ensures Items(stack) == Grown(old(Items(stack)), t, next, enabled)
      ensures |stack| == |old(stack)| + 1 && stack[..|old(stack)|] == old(stack) && fresh(stack[|old(stack)|])
      // Whoever slept below goes on sleeping, unless its step depends on the one taken.
      ensures forall rid :: rid in stack[|old(stack)|].sleepSet <==>
                rid in old(stack[|stack| - 1].sleepSet) && rid in next && !AreDependent(next[rid], t)
    {
      hide AreDependent, Items, Fresh, ExplorerSpec.Left;
      var below := stack[|stack| - 1];
      PushItem(t, next, enabled);
      LeaveBy(below, t);
      assert below.Value() == Items(stack)[|stack| - 2];
    }

    /** The item for the state reached, on top of the one left. */
    method PushItem(t: Transition, next: Pending, enabled: set<RunnerId>)
      requires stack != [] && forall rid :: rid in stack[|stack| - 1].sleepSet ==> rid in next
      modifies this`stack
      ensures |stack| == |old(stack)| + 1 && stack[..|old(stack)|] == old(stack) && fresh(stack[|old(stack)|])
      ensures stack[|old(stack)|].Value() == Fresh(old(Items(stack)), t, next, enabled)
      ensures forall rid :: rid in stack[|old(stack)|].sleepSet <==>
                rid in old(stack[|stack| - 1].sleepSet) && rid in next && !AreDependent(next[rid], t)
    {
      hide AreDependent, Accumulated, Max;
      var below := stack[|stack| - 1];
      var cv := AccumulateMaxClockVectorAgainst(t);
      cv := cv[t.executor := |stack|];
      var item := new StackItem(enabled, Some(t), cv, below.runnerClocks[t.executor := cv]);
      stack := stack + [item];
      InheritSleepers(below, item, t, next);
    }

    /** The item left keeps its step as out-transition, and the runner sleeps and is done. */
    method LeaveBy(below: StackItem, t: Transition)
      modifies below
      ensures below.Value() == ExplorerSpec.Left(old(below.Value()), t)
    {
      below.SetOutTransition(t);
      below.InsertIntoSleepSet(t.executor);
      below.MarkSearched(t.executor);
    }

    /** Whoever sleeps below and is independent of the step goes on sleeping. */
    method InheritSleepers(below: StackItem, item: StackItem, t: Transition, next: Pending)
      requires below != item && item.sleepSet == {}
      requires forall rid :: rid in below.sleepSet ==> rid in next
      modifies item
      ensures item.Value() == old(item.Value()).(sleep := set r | r in below.sleepSet && r in next && !AreDependent(next[r], t))
    {
      var todo := below.sleepSet;
      while todo != {}
        invariant todo <= below.sleepSet == old(below.sleepSet)
        invariant item.Value() == old(item.Value()).(
                    sleep := set r | r in below.sleepSet && r !in todo && r in next && !AreDependent(next[r], t))
      {
        var rid :| rid in todo;
        if !AreDependent(next[rid], t) {
          item.InsertIntoSleepSet(rid);
        }
        todo := todo - {rid};
      }
    }

    // --- Following a runner ---

    ghost function Snapshot(): Stack
      reads this, stack, coordinator, coordinator.model, coordinator.model.states
      requires coordinator.Valid()
    {
      Stack(Items(stack), coordinator.Trace(), coordinator.model.past)
    }

    /** `continue_dpor_by_expanding_trace_with`. `s` is the stack before `p` was taken
        from the backtrack set. */
    method ContinueDpor(p: RunnerId, ghost s: Stack) returns (result: Execution)
      requires coordinator.Valid() && Distinct(stack)
      requires MayTake(coordinator.start, coordinator.target, s, p, Snapshot())
      modifies this`stack, stack, coordinator, coordinator.model, coordinator.model.states
      ensures result == if coordinator.target(Schedule(s.trace) + [p]).Failed? then ProcessDied else Expanded
      ensures coordinator.start == old(coordinator.start)
      ensures result == Expanded ==> Extends(old(stack)) && fresh(stack[|old(stack)|]) && Distinct(stack)
      ensures result != Expanded ==> stack == old(stack)
      ensures result == Expanded ==> coordinator.Valid() && Took(coordinator.target, s, p, Snapshot())
    {
      hide StackOk, SteppedTo, MayGrow, InStep, ModelInv, MomentOk, Faithful, AllSetsOk, Refreshed, CanRun;
      ghost var items := Items(stack);
      coordinator.ProcessIsInStep();
      TakenReplies(coordinator.start, coordinator.target, s, p, Snapshot());
      result := coordinator.ExecuteRunner(p);
      if result == Expanded {
        TakenMayGrow(coordinator.start, coordinator.target, s, p, items, coordinator.Trace(), coordinator.model.past);
        var trace, next, enabled := coordinator.Observe();
        GrowAndUpdate(trace, next, enabled);
        TakenIsStep(coordinator.start, coordinator.target, s, p, items, Snapshot());
      }
    }

    // --- The search ---

    /** The explorer is between two steps. */
    ghost predicate Exploring(completed: seq<seq<RunnerId>>, d: nat)
      reads this, stack, coordinator, coordinator.model, coordinator.model.states
    {
      Standing(completed, d) && TopIsFresh(Snapshot())
    }

    ghost predicate Standing(completed: seq<seq<RunnerId>>, d: nat)
      reads this, stack, coordinator, coordinator.model, coordinator.model.states
    {
      && coordinator.Valid() && Distinct(stack) && Consecutive(start)
      && coordinator.start == start && maximumTotalExecutionDepth <= d
      && Underway(start, coordinator.target, Snapshot(), completed, clockings, d)
    }

    ghost function Left(d: nat): nat
      reads this`stack, stack
      requires |stack| <= d
    {
      SearchWeight(start, Items(stack), d)
    }

    /** The verdict is right. */
    ghost predicate Rightly(v: Verdict)
      reads this, coordinator
    {
      Interrupted(start, coordinator.target, v, maximumTotalExecutionDepth)
    }

    lemma ExploringShape(completed: seq<seq<RunnerId>>, d: nat)
      requires Exploring(completed, d)
      ensures coordinator.Valid() && 0 < |stack| <= d
    {
      UnderwayShape(start, coordinator.target, Snapshot(), completed, clockings, d);
    }

    /** The exploration phase: follow the first enabled runner until nobody is enabled. */
    method Explore(ghost completed: seq<seq<RunnerId>>, ghost d: nat) returns (stop: Option<Verdict>)
      requires Exploring(completed, d)
      modifies this`stack, stack, coordinator, coordinator.model, coordinator.model.states
      ensures stop.Some? ==> Rightly(stop.value)
      ensures stop.None? ==> Exploring(completed, d) && 0 < |stack| <= d && stack[|stack| - 1].enabledRunners == {}
      ensures stop.None? ==> Left(d) <= old(Left(d))
      ensures forall k :: 0 <= k < |stack| ==> fresh(stack[k]) || (k < |old(stack)| && stack[k] == old(stack)[k])
    {
      hide Exploring, Left, Interrupted, Coordinator.Valid;
      ExploringShape(completed, d);
      while stack[|stack| - 1].enabledRunners != {}
        invariant Exploring(completed, d) && 0 < |stack| <= d && Left(d) <= old(Left(d))
        invariant forall k :: 0 <= k < |stack| ==> fresh(stack[k]) || (k < |old(stack)| && stack[k] == old(stack)[k])
        decreases if 0 < |stack| <= d then Left(d) else 0
      {
        ghost var stack0 := stack;
        stop := FollowFirst(completed, d);
        if stop.Some? {
          return;
        }
        forall k | 0 <= k < |stack| ensures fresh(stack[k]) || (k < |old(stack)| && stack[k] == old(stack)[k]) {
          assert k < |stack0| ==> stack[k] == stack0[k];
        }
      }
      stop := None;
    }

    method FollowFirst(ghost completed: seq<seq<RunnerId>>, ghost d: nat) returns (stop: Option<Verdict>)
      requires Exploring(completed, d) && 0 < |stack| <= d && stack[|stack| - 1].enabledRunners != {}
      modifies this`stack, stack, coordinator, coordinator.model, coordinator.model.states
      ensures stop.Some? ==> stack == old(stack) && Rightly(stop.value)
      ensures stop.None? ==> Exploring(completed, d) && 0 < |stack| <= d && Left(d) < old(Left(d))
      ensures stop.None? ==> Extends(old(stack)) && fresh(stack[|old(stack)|])
      ensures stop.None? ==> JustRan(Least(old(stack[|stack| - 1].enabledRunners)))
    {
      hide Underway, TopIsFresh, StackOk, MayTake, Took, SearchWeight, ReachesLimit, DiesIn, Coordinator.Valid, Consecutive, CanRun;
      ghost var s := Snapshot();
      UnderwayShape(start, coordinator.target, s, completed, clockings, d);
      coordinator.ProcessIsInStep();
      var schedule := coordinator.executed;
      if |stack| >= maximumTotalExecutionDepth {
        LimitIsReached(start, coordinator.target, s, maximumTotalExecutionDepth);
        return Some(LimitReached(schedule));
      }
      var rid := stack[|stack| - 1].GetFirstEnabledRunner();
      FirstMayBeTaken(start, coordinator.target, s, completed, clockings, d);
      stop := Follow(rid, s, completed, d);
    }

    /** The last step of the trace was one of `p`. */
    ghost predicate JustRan(p: RunnerId)
      reads this, coordinator, coordinator.model, coordinator.model.states
    {
      && coordinator.Valid()
      && var trace := coordinator.Trace();
      trace != [] && trace[|trace| - 1].executor == p
    }

    /** The runner chosen is followed, or what came of it is reported. */
    method Follow(p: RunnerId, ghost s: Stack, ghost completed: seq<seq<RunnerId>>, ghost d: nat)
      returns (stop: Option<Verdict>)
      requires coordinator.Valid() && Distinct(stack) && Consecutive(start)
      requires coordinator.start == start && maximumTotalExecutionDepth <= d && |stack| < d
      requires Underway(start, coordinator.target, s, completed, clockings, d)
      requires MayTake(start, coordinator.target, s, p, Snapshot())
      modifies this`stack, stack, coordinator, coordinator.model, coordinator.model.states
      ensures stop.Some? ==> stack == old(stack) && Rightly(stop.value)
      ensures stop.None? ==> Exploring(completed, d) && 0 < |stack| <= d && |s.items| <= d && Left(d) < SearchWeight(start, s.items, d)
      ensures stop.None? ==> Extends(old(stack)) && fresh(stack[|old(stack)|]) && JustRan(p)
    {
      hide Underway, TopIsFresh, StackOk, Took, MayTake, SearchWeight, ReachesLimit, DiesIn, Coordinator.Valid, Consecutive, CanRun,
           Items, Distinct;
      TakenIsUntried(start, coordinator.target, s, p, Snapshot());
      UnderwayShape(start, coordinator.target, s, completed, clockings, d);
      coordinator.ProcessIsInStep();
      var schedule := coordinator.executed + [p];
      ghost var before := Snapshot();
      var result := ContinueDpor(p, s);
      if result == ProcessDied {
        DeathIsReached(start, coordinator.target, s, p);
        return Some(Aborted(schedule));
      }
      TookSearches(start, coordinator.target, s, p, Snapshot(), completed, clockings, d);
      TookRan(start, coordinator.target, s, p, before, Snapshot());
      stop := None;
    }

    /** The backtrack phase: drop the items with nothing left to try, return to the state of
        the last one that remains, which is never the first, and follow its first backtrack
        point. `s` is the stack of the trace just completed, whose clocks are the last ones
        recorded. */
    method Backtrack(ghost s: Stack, ghost completed: seq<seq<RunnerId>>, ghost d: nat) returns (stop: Option<Verdict>)
      requires coordinator.Valid() && Distinct(stack) && Consecutive(start) && coordinator.start == start
      requires maximumTotalExecutionDepth <= d < UINT32 && clockings != [] && clockings[|clockings| - 1] == ClocksOf(s)
      requires Underway(start, coordinator.target, s, completed, clockings[..|clockings| - 1], d) && TopIsFresh(s) && s == Snapshot()
      requires 0 < |stack| <= d && stack[|stack| - 1].enabledRunners == {}
      modifies this`stack, stack, coordinator, coordinator.model, coordinator.model.states
      ensures stop.Some? ==> Rightly(stop.value)
      ensures stop.None? && stack != [] ==> |stack| >= 3 && Exploring(completed + [Schedule(s.trace)], d) && |stack| <= d
      ensures stop.None? && stack == [] ==> RacesAnswered(start, coordinator.target, completed + [Schedule(s.trace)], clockings)
      ensures stop.None? && stack != [] ==> |s.items| <= d && Left(d) < SearchWeight(start, s.items, d)
      ensures stop.None? && stack != [] ==>
                |stack| <= |old(stack)| + 1 && fresh(stack[|stack| - 1]) && SameBelow(stack, old(stack), |stack| - 1)
    {
      hide Underway, TopIsFresh, StackOk, SearchWeight, Interrupted, Coordinator.Valid, Consecutive;
      hide Left, Exploring, Distinct, Items, Rightly, RacesAnswered, ClocksOf;
      ghost var before := clockings[..|clockings| - 1];
      assert clockings == before + [ClocksOf(s)];
      UnderwayShape(start, coordinator.target, s, completed, before, d);
      DropExhausted();
      stop := None;
      if stack == [] {
        UnderwayEnds(start, coordinator.target, s, completed, before, d);
      } else {
        MustBeBelow(start, coordinator.target, s, completed, before, d, |stack|);
        stop := TryNext(s, completed, d);
      }
    }

    /** The stack loses its items with an empty backtrack set, from the top. */
    method DropExhausted()
      modifies this`stack
      ensures |stack| <= |old(stack)| && stack == old(stack)[..|stack|]
      ensures Items(stack) == old(Items(stack))[..|stack|] && (old(Distinct(stack)) ==> Distinct(stack))
      ensures stack != [] ==> stack[|stack| - 1].backtrackSet != {}
      ensures forall k :: |stack| <= k < |old(stack)| ==> old(Items(stack))[k].backtrack == {}
    {
      while stack != [] && stack[|stack| - 1].backtrackSet == {}
        invariant |stack| <= |old(stack)| && stack == old(stack)[..|stack|]
        invariant forall k :: |stack| <= k < |old(stack)| ==> old(stack)[k].backtrackSet == {}
      {
        stack := stack[..|stack| - 1];
      }
    }

    /** Return to the state of the last item and follow its first backtrack point. `s` is
        the stack of the trace just completed. */
    method TryNext(ghost s: Stack, ghost completed: seq<seq<RunnerId>>, ghost d: nat) returns (stop: Option<Verdict>)
      requires coordinator.Valid() && Distinct(stack) && Consecutive(start) && coordinator.start == start
      requires maximumTotalExecutionDepth <= d < UINT32 && clockings != [] && clockings[|clockings| - 1] == ClocksOf(s)
      requires Underway(start, coordinator.target, s, completed, clockings[..|clockings| - 1], d) && TopIsFresh(s)
      requires |s.items| == |s.trace| + 1 <= d && s.items[|s.trace|].enabled == {}
      requires coordinator.Trace() == s.trace && coordinator.model.past == s.moments
      requires 2 <= |stack| <= |s.trace| && Items(stack) == s.items[..|stack|] && stack[|stack| - 1].backtrackSet != {}
      requires Exhausted(s, |stack|)
      modifies this`stack, stack, coordinator, coordinator.model, coordinator.model.states
      ensures stop.Some? ==> stack == old(stack) && Rightly(stop.value)
      ensures stop.None? ==> Exploring(completed + [Schedule(s.trace)], d) && |stack| <= d
      ensures stop.None? ==> Left(d) < SearchWeight(start, s.items, d)
      ensures stop.None? ==> Extends(old(stack)) && fresh(stack[|old(stack)|])
    {
      hide Underway, TopIsFresh, StackOk, SearchWeight, Interrupted, Coordinator.Valid, Consecutive, ClocksOf;
      ghost var before, k := clockings[..|clockings| - 1], |stack|;
      assert clockings == before + [ClocksOf(s)];
      UnderwayShape(start, coordinator.target, s, completed, before, d);
      UnderwayCompletes(start, coordinator.target, s, completed, before, d, k);
      coordinator.ProcessIsInStep();
      coordinator.ReturnToDepth(|stack| - 1);
      assert Snapshot() == Cut(s, k - 1);
      stop := FollowNext(completed + [Schedule(s.trace)], d);
    }

    method FollowNext(ghost completed: seq<seq<RunnerId>>, ghost d: nat) returns (stop: Option<Verdict>)
      requires Standing(completed, d) && 1 < |stack| < d && stack[|stack| - 1].backtrackSet != {}
      modifies this`stack, stack, coordinator, coordinator.model, coordinator.model.states
      ensures stop.Some? ==> stack == old(stack) && Rightly(stop.value)
      ensures stop.None? ==> Exploring(completed, d) && |stack| <= d && Left(d) < old(Left(d))
      ensures stop.None? ==> Extends(old(stack)) && fresh(stack[|old(stack)|])
      ensures stop.None? ==> JustRan(Least(old(stack[|stack| - 1].backtrackSet)))
    {
      hide Underway, TopIsFresh, StackOk, MayTake, SearchWeight, Interrupted, Coordinator.Valid, Consecutive;
      ghost var c, n := Snapshot(), |stack| - 1;
      UnderwayShape(start, coordinator.target, c, completed, clockings, d);
      var p := stack[|stack| - 1].BacktrackSetPopFirst();
      assert Snapshot() == c.(items := c.items[n := MarkSearched(c.items[n], p.value)]);
      NextMayBeTaken(start, coordinator.target, c, completed, clockings, d, p.value);
      stop := Follow(p.value, c, completed, d);
    }

    /** `verify_using`: the schedules completed, those of them that deadlock, and how the
        search ended. It ends for every target, from every start. */
    method VerifyUsing() returns (completed: seq<seq<RunnerId>>, deadlocks: seq<seq<RunnerId>>, verdict: Verdict)
      requires coordinator.Valid() && coordinator.model.trace == [] && coordinator.start == start && Consecutive(start)
      requires maximumTotalExecutionDepth < UINT32
      modifies this`stack, this`clockings, coordinator, coordinator.model, coordinator.model.states
      ensures Reported(start, coordinator.target, completed, deadlocks)
      ensures verdict == Finished || Rightly(verdict)
      ensures verdict == Finished ==> completed != [] && AllAnswered(start, coordinator.target, completed)
      ensures verdict == Finished ==> ContentionAnswered(start, coordinator.target, completed)
      ensures verdict == Finished && WellFormed(start.state) ==> ConflictsAnswered(start, coordinator.target, completed)
    {
      hide Underway, TopIsFresh, SearchWeight, ReachesLimit, DiesIn, Coordinator.Valid, Consecutive, Items, Reported, RacesAnswered,
           MomentOk, Faithful, WellFormed, ContentionAnswered, ConflictsAnswered;
      ghost var d := if maximumTotalExecutionDepth == 0 then 1 else maximumTotalExecutionDepth;
      coordinator.StartIsOk();
      Start(d);
      completed, deadlocks := [], [];
      while stack != []
        invariant stack != [] ==> Exploring(completed, d)
        invariant |stack| <= d && forall k :: 0 <= k < |stack| ==> fresh(stack[k])
        invariant stack == [] ==> completed != [] && RacesAnswered(start, coordinator.target, completed, clockings)
        invariant Reported(start, coordinator.target, completed, deadlocks)
        decreases if 0 < |stack| <= d then Left(d) + 1 else 0
      {
        var stop;
        completed, deadlocks, stop := Round(completed, deadlocks, d);
        if stop.Some? {
          return completed, deadlocks, stop.value;
        }
      }
      verdict := Finished;
      ContentionIsAnswered(start, coordinator.target, completed);
      if WellFormed(start.state) {
        ConflictsAreAnswered(start, coordinator.target, completed);
      }
    }

    /** One trace to its end, and the first step of the next. */
    method Round(completed: seq<seq<RunnerId>>, deadlocks: seq<seq<RunnerId>>, ghost d: nat)
      returns (completed': seq<seq<RunnerId>>, deadlocks': seq<seq<RunnerId>>, stop: Option<Verdict>)
      requires Exploring(completed, d) && 0 < |stack| <= d < UINT32
      requires Reported(start, coordinator.target, completed, deadlocks)
      modifies this`stack, this`clockings, stack, coordinator, coordinator.model, coordinator.model.states
      ensures Reported(start, coordinator.target, completed', deadlocks')
      ensures stop.Some? ==> Rightly(stop.value)
      ensures stop.None? ==> completed' != []
      ensures stop.None? && stack == [] ==> RacesAnswered(start, coordinator.target, completed', clockings)
      ensures stop.None? && stack != [] ==> Exploring(completed', d) && |stack| <= d && Left(d) < old(Left(d))
      ensures stop.None? ==> forall k :: 0 <= k < |stack| ==> fresh(stack[k]) || (k < |old(stack)| && stack[k] == old(stack)[k])
    {
      hide Exploring, Left, Rightly, Reported, RacesAnswered;
      stop := Explore(completed, d);
      if stop.Some? {
        return completed, deadlocks, stop;
      }
      ghost var stack1 := stack;
      completed', deadlocks', stop := EndTrace(completed, deadlocks, d);
      if stop.None? {
        forall k | 0 <= k < |stack| ensures fresh(stack[k]) || (k < |old(stack)| && stack[k] == old(stack)[k]) {
          assert k < |stack| - 1 ==> stack[k] == stack1[k];
        }
      }
    }

    /** A complete trace is reported, and the backtrack phase begins. */
    method EndTrace(completed: seq<seq<RunnerId>>, deadlocks: seq<seq<RunnerId>>, ghost d: nat)
      returns (completed': seq<seq<RunnerId>>, deadlocks': seq<seq<RunnerId>>, stop: Option<Verdict>)
      requires Exploring(completed, d) && 0 < |stack| <= d < UINT32
      requires stack[|stack| - 1].enabledRunners == {}
      requires Reported(start, coordinator.target, completed, deadlocks)
      modifies this`stack, this`clockings, stack, coordinator, coordinator.model, coordinator.model.states
      ensures Reported(start, coordinator.target, completed', deadlocks')
      ensures stop.Some? ==> Rightly(stop.value)
      ensures stop.None? ==> completed' != []
      ensures stop.None? && stack == [] ==> RacesAnswered(start, coordinator.target, completed', clockings)
      ensures stop.None? && stack != [] ==> Exploring(completed', d) && |stack| <= d && Left(d) < old(Left(d))
      ensures stop.None? && stack != [] ==>
                |stack| <= |old(stack)| + 1 && fresh(stack[|stack| - 1]) && SameBelow(stack, old(stack), |stack| - 1)
    {
      hide Underway, TopIsFresh, SearchWeight, Coordinator.Valid, Consecutive, Interrupted, Items, Reported, ClocksOf;
      ghost var s := Snapshot();
      assert Left(d) == SearchWeight(start, s.items, d);
      hide Left, Distinct, Rightly, SameBelow, RacesAnswered;
      coordinator.ProcessIsInStep();
      completed', deadlocks' := Report(completed, deadlocks, d);
      clockings := clockings + [ClocksOf(s)];
      assert clockings[..|clockings| - 1] == old(clockings);
      stop := Backtrack(s, completed, d);
    }

    /** The first stack item. */
    method Start(ghost d: nat)
      requires coordinator.Valid() && coordinator.model.trace == [] && coordinator.start == start && Consecutive(start)
      requires maximumTotalExecutionDepth <= d && d >= 1
      modifies this`stack, this`clockings
      ensures Exploring([], d) && |stack| == 1 && fresh(stack[0])
      ensures Reported(start, coordinator.target, [], [])
    {
      hide Underway, TopIsFresh, Coordinator.Valid, InStep, ModelInv, Consecutive, EnabledIn;
      coordinator.AtStart();
      coordinator.StartIsOk();
      var _, _, enabled := coordinator.Observe();
      var first := new StackItem(enabled, None, map[], map[]);
      stack, clockings := [first], [];
      assert Items(stack) == [FirstItem(EnabledIn(start))];
      UnderwayStarts(start, coordinator.target, Snapshot(), d);
    }

    /** What the callbacks for a completed trace and for a deadlock are given. */
    method Report(completed: seq<seq<RunnerId>>, deadlocks: seq<seq<RunnerId>>, ghost d: nat)
      returns (completed': seq<seq<RunnerId>>, deadlocks': seq<seq<RunnerId>>)
      requires Exploring(completed, d) && 0 < |stack| && stack[|stack| - 1].enabledRunners == {}
      requires Reported(start, coordinator.target, completed, deadlocks)
      ensures completed' == completed + [coordinator.executed]
      ensures Reported(start, coordinator.target, completed', deadlocks')
    {
      hide Underway, TopIsFresh, StackOk, Coordinator.Valid, Consecutive, CompletedOk, Deadlocks, Reported;
      ghost var s := Snapshot();
      UnderwayShape(start, coordinator.target, s, completed, clockings, d);
      coordinator.ProcessIsInStep();
      var schedule := coordinator.executed;
      var deadlock := coordinator.IsInDeadlock();
      StuckIsDeadlock(start, coordinator.target, s);
      TraceIsNew(start, coordinator.target, s, completed, clockings, d);
      ReportGrows(start, coordinator.target, completed, deadlocks, schedule, deadlock);
      completed' := completed + [schedule];
      deadlocks' := if deadlock then deadlocks + [schedule] else deadlocks;
    }

    /** The lowest `n` items are the same objects. */
    ghost predicate SameBelow(a: seq<StackItem>, b: seq<StackItem>, n: nat)
      requires n <= |a| && n <= |b|
    {
      forall k :: 0 <= k < n ==> a[k] == b[k]
    }

    ghost predicate Extends(stack0: seq<StackItem>)
      reads this`stack
    {
      |stack| == |stack0| + 1 && forall k :: 0 <= k < |stack0| ==> stack[k] == stack0[k]
    }

    /** The stack after a step of the model. */
    method GrowAndUpdate(trace: Trace, next: Pending, enabled: set<RunnerId>)
      requires MayGrow(Items(stack), trace, next) && Distinct(stack)
      modifies this`stack, stack
      ensures Items(stack) == Refreshed(old(Items(stack)), trace, next, enabled)
      ensures Extends(old(stack)) && fresh(stack[|old(stack)|]) && Distinct(stack)
    {
      hide Grown, Updated, Items;
      GrownOuts(Items(stack), trace, next, enabled);
      GrowStackAfterRunning(trace[|trace| - 1], next, enabled);
      assert OutsMatch(stack, trace) by {
        assert forall k :: 0 <= k < |trace| ==> Items(stack)[k].out == stack[k].outTransition;
      }
      assert Items(stack)[|trace|].runnerClocks == TopClocks(stack);
      DynamicallyUpdateBacktrackSets(trace, next, |next|);
    }
  }

  // --- The contracts of a step ---

  /** The last item may go to sleep and be followed by one for the latest moment. */
  ghost predicate MayGrow(items: seq<Item>, trace: Trace, next: Pending) {
    && |trace| == |items| && trace != []
    && |next| <= 0xFFFF && (forall q: RunnerId :: q < |next| ==> q in next)
    && trace[|trace| - 1].executor in next
    && (forall rid :: rid in items[|items| - 1].sleep ==> rid in next)
    && (forall k :: 0 <= k < |trace| - 1 ==> items[k].out == Some(trace[k]))
  }

  lemma GrownOuts(items: seq<Item>, trace: Trace, next: Pending, enabled: set<RunnerId>)
    requires MayGrow(items, trace, next)
    ensures var g := Grown(items, trace[|trace| - 1], next, enabled);
      |g| == |trace| + 1 && forall k :: 0 <= k < |trace| ==> g[k].out == Some(trace[k])
  {
    hide StepClock;
  }

  /** The stack grown for the last step of the trace, with its backtrack sets updated. */
  ghost function Refreshed(items: seq<Item>, trace: Trace, next: Pending, enabled: set<RunnerId>): seq<Item>
    requires MayGrow(items, trace, next)
  {
    var g := Grown(items, trace[|trace| - 1], next, enabled);
    Updated(g[|trace|].runnerClocks, g, trace, next, |next|)
  }

  /** `p` is enabled at the last item of `s` and was not tried there; in `now` it may
      have been marked as tried already. */
  ghost predicate MayTake(start: Moment, target: Target, s: Stack, p: RunnerId, now: Stack) {
    && StackOk(start, target, s) && MomentOk(start) && Faithful(target, start) && Consecutive(start)
    && now.trace == s.trace && now.moments == s.moments
    && MayComeNext(s, p) && MaybeMarked(s.items, p, now.items)
  }

  lemma TakenIsUntried(start: Moment, target: Target, s: Stack, p: RunnerId, now: Stack)
    requires MayTake(start, target, s, p, now)
    ensures |s.moments| == |s.items| == |s.trace| + 1 == |now.items| && now.trace == s.trace
    ensures MayComeNext(s, p)
  {
  }

  ghost predicate MaybeMarked(items: seq<Item>, p: RunnerId, items': seq<Item>) {
    && items != []
    && var n := |items| - 1;
    items' == items || items' == items[n := MarkSearched(items[n], p)]
  }

  /** The search took one step, by an enabled transition of `p`, and handled the races it brings. */
  ghost predicate Took(target: Target, s: Stack, p: RunnerId, now: Stack) {
    && |s.moments| == |s.items| == |s.trace| + 1 && CanRun(s.moments[|s.trace|], p)
    && target(Schedule(s.trace) + [p]).NextOp?
    && SteppedTo(s, p, target(Schedule(s.trace) + [p]).op, now) && Replans(now)
  }

  lemma TakenReplies(start: Moment, target: Target, s: Stack, p: RunnerId, now: Stack)
    requires MayTake(start, target, s, p, now)
    ensures target(Schedule(s.trace) + [p]).NextOp? ==> target(Schedule(s.trace) + [p]).op.executor == p
    ensures CanRun(s.moments[|s.trace|], p)
  {
    hide WellTyped, MomentOk, Consecutive, MaybeMarked, SleepOk, SleepExact, AllSetsOk, StepOk, FirstOnly, Enabled;
    assert (Schedule(s.trace) + [p])[|s.trace|] == p;
  }

  lemma TakenMayGrow(start: Moment, target: Target, s: Stack, p: RunnerId, items: seq<Item>, trace: Trace, past: seq<Moment>)
    requires MayTake(start, target, s, p, Stack(items, s.trace, s.moments))
    requires Grew(s.moments, s.trace, p, target(Schedule(s.trace) + [p]), past, trace)
    ensures MayGrow(items, trace, past[|s.trace| + 1].pending)
  {
    hide WellTyped, Enabled, Schedule, AllSetsOk, SleepOk, SleepExact, StepOk, Faithful;
    var n := |s.trace|;
    PathTyped(start, target, s.trace, s.moments, n);
    assert past[n + 1].pending.Keys == start.pending.Keys;
    SubsetSize(past[n + 1].pending.Keys, start.pending.Keys);
    assert |past[n + 1].pending| == |past[n + 1].pending.Keys| && |start.pending| == |start.pending.Keys|;
    SleepersArePending(s, n);
  }

  lemma SleepersArePending(s: Stack, n: nat)
    requires |s.moments| == |s.items| == |s.trace| + 1 && SleepOk(s) && n < |s.items|
    ensures forall rid :: rid in s.items[n].sleep ==> rid in s.moments[n].pending
  {
    forall rid | rid in s.items[n].sleep ensures rid in s.moments[n].pending {
      var j: nat :| Justified(s, n, rid, j);
    }
  }

  lemma GrowsAlike(s: Stack, p: RunnerId, reply: Reply, items: seq<Item>, past: seq<Moment>, trace: Trace)
    requires |s.moments| == |s.items| == |s.trace| + 1 && MaybeMarked(s.items, p, items)
    requires Grew(s.moments, s.trace, p, reply, past, trace) && trace[|s.trace|].executor == p
    ensures past[|trace|].pending.Keys == s.moments[|s.trace|].pending.Keys
    ensures var g, m := GrownBy(s, p, reply.op), past[|trace|];
      g.trace == trace && g.moments == past && Grown(items, trace[|trace| - 1], m.pending, EnabledIn(m)) == g.items
  {
    hide WellTyped, Enabled, Left, Fresh;
    var m := past[|trace|];
    MarkedGrows(s.items, trace[|s.trace|], m.pending, EnabledIn(m));
  }

  lemma TakenIsStep(start: Moment, target: Target, s: Stack, p: RunnerId, items: seq<Item>, now: Stack)
    requires MayTake(start, target, s, p, Stack(items, s.trace, s.moments))
    requires Grew(s.moments, s.trace, p, target(Schedule(s.trace) + [p]), now.moments, now.trace)
    requires var m := now.moments[|now.trace|];
      MayGrow(items, now.trace, m.pending) && now.items == Refreshed(items, now.trace, m.pending, EnabledIn(m))
    ensures Took(target, s, p, now)
  {
    hide WellTyped, Enabled, Schedule, SleepOk, SleepExact, StepOk, SteppedTo, Updated, GrownBy, Grown, CanRun, MarkSearched, AllSetsOk;
    TakenOwns(start, target, s, p);
    GrowsAlike(s, p, target(Schedule(s.trace) + [p]), items, now.moments, now.trace);
    GrownSize(s, p, target(Schedule(s.trace) + [p]).op);
    UpdatedIsStep(GrownBy(s, p, target(Schedule(s.trace) + [p]).op).items[|s.items|].runnerClocks, s, p,
                  target(Schedule(s.trace) + [p]).op, now, |now.moments[|now.trace|].pending|);
    TakenReplans(start, target, s, p, now);
  }

  lemma GrownSize(s: Stack, p: RunnerId, op: Transition)
    requires |s.moments| == |s.items| == |s.trace| + 1 && CanRun(s.moments[|s.trace|], p)
    ensures |GrownBy(s, p, op).items| == |s.items| + 1
  {
    hide CanRun, Fresh;
  }

  lemma TakenReplans(start: Moment, target: Target, s: Stack, p: RunnerId, now: Stack)
    requires MomentOk(start) && Faithful(target, start) && Consecutive(start) && StackOk(start, target, s)
    requires p in s.items[|s.trace|].enabled && CanRun(s.moments[|s.trace|], p)
    requires target(Schedule(s.trace) + [p]).NextOp?
    requires var g := GrownBy(s, p, target(Schedule(s.trace) + [p]).op); var next := g.moments[|g.trace|].pending;
      && now == g.(items := now.items) && |next| <= 0x1_0000 && (forall q: RunnerId :: q < |next| ==> q in next)
      && g.trace[|s.trace|].executor in next
      && now.items == Updated(g.items[|s.items|].runnerClocks, g.items, g.trace, next, |next|)
    ensures Replans(now)
  {
    hide WellTyped, Enabled, Schedule, SleepOk, SleepExact, StepOk, Updated, Replans, Fresh, FirstOnly;
    var g := GrownBy(s, p, target(Schedule(s.trace) + [p]).op);
    TakenOwns(start, target, s, p);
    PathTyped(start, target, s.trace, s.moments, |s.trace|);
    GrownSets(s, p, target(Schedule(s.trace) + [p]).op);
    var next := g.moments[|g.trace|].pending;
    assert next.Keys == start.pending.Keys && |next| == |next.Keys| && |start.pending| == |start.pending.Keys|;
    UpdatedReplans(g.items, now, |next|);
  }

  lemma TakenOwns(start: Moment, target: Target, s: Stack, p: RunnerId)
    requires MomentOk(start) && Faithful(target, start) && PathOk(start, target, s.trace, s.moments)
    requires CanRun(s.moments[|s.trace|], p)
    ensures s.moments[|s.trace|].pending[p].executor == p
  {
    PathTyped(start, target, s.trace, s.moments, |s.trace|);
  }

  // --- The search as it runs ---

  /** The loop head of a search with what it means to the races. */
  ghost predicate Underway(start: Moment, target: Target, s: Stack, completed: seq<seq<RunnerId>>, clockings: seq<seq<Clocks>>, d: nat) {
    Searching(start, target, s, completed, d) && RacesDealt(start, target, s, completed, clockings)
  }

  lemma UnderwayShape(start: Moment, target: Target, s: Stack, completed: seq<seq<RunnerId>>, clockings: seq<seq<Clocks>>, d: nat)
    requires Underway(start, target, s, completed, clockings, d)
    ensures StackOk(start, target, s) && |s.moments| == |s.items| == |s.trace| + 1 <= d
  {
    hide RacesDealt, Explored, Tried, CompletedOk, MomentOk, Faithful;
    StackSizes(start, target, s);
  }

  lemma FirstMayBeTaken(start: Moment, target: Target, s: Stack, completed: seq<seq<RunnerId>>, clockings: seq<seq<Clocks>>, d: nat)
    requires Underway(start, target, s, completed, clockings, d) && TopIsFresh(s) && Consecutive(start)
    requires |s.moments| == |s.items| == |s.trace| + 1 && s.items[|s.trace|].enabled != {}
    ensures MayTake(start, target, s, Least(s.items[|s.trace|].enabled), s)
  {
    hide StackOk, CompletedOk, Explored, Tried, MomentOk, Faithful, RacesDealt, Consecutive;
  }

  lemma TookRan(start: Moment, target: Target, s: Stack, p: RunnerId, before: Stack, now: Stack)
    requires MayTake(start, target, s, p, before) && Took(target, s, p, now)
    ensures now.trace != [] && now.trace[|now.trace| - 1].executor == p
  {
    hide Replans, Grown, CanRun, MomentOk, Faithful, Consecutive, SleepOk, SleepExact, AllSetsOk, StepOk, FirstOnly, MaybeMarked;
    TakenOwns(start, target, s, p);
  }

  lemma TookSearches(start: Moment, target: Target, s: Stack, p: RunnerId, now: Stack,
                     completed: seq<seq<RunnerId>>, clockings: seq<seq<Clocks>>, d: nat)
    requires Underway(start, target, s, completed, clockings, d) && |s.items| < d
    requires |s.moments| == |s.items| == |s.trace| + 1 && MayComeNext(s, p) && Took(target, s, p, now)
    ensures Underway(start, target, now, completed, clockings, d) && TopIsFresh(now) && |now.items| <= d
    ensures SearchWeight(start, now.items, d) < SearchWeight(start, s.items, d)
  {
    hide SearchWeight, SteppedTo, StackOk, CompletedOk, Explored, Tried, CanRun, RacesDealt, Replans, MomentOk, Faithful, TopIsFresh;
    var op := target(Schedule(s.trace) + [p]).op;
    SearchSteps(start, target, s, p, op, now, completed, d);
    StackSizes(start, target, now);
    NowCached(start, target, now);
    StepperOwns(start, target, s, p);
    StepDeals(start, target, s, p, op, now, completed, clockings);
  }

  lemma NowCached(start: Moment, target: Target, s: Stack)
    requires StackOk(start, target, s)
    ensures CachesEnabled(s)
  {
    hide EnabledIn, SleepOk, SleepExact, AllSetsOk, StepOk, FirstOnly;
  }

  lemma StepperOwns(start: Moment, target: Target, s: Stack, p: RunnerId)
    requires MomentOk(start) && Faithful(target, start) && StackOk(start, target, s)
    requires CanRun(s.moments[|s.trace|], p)
    ensures s.moments[|s.trace|].pending[p].executor == p
  {
    hide SleepOk, SleepExact, AllSetsOk, StepOk, EnabledIn, FirstOnly, MomentOk, Faithful, CanRun;
    TakenOwns(start, target, s, p);
  }

  lemma UnderwayStarts(start: Moment, target: Target, s: Stack, d: nat)
    requires MomentOk(start) && Faithful(target, start) && d >= 1
    requires s == Stack([FirstItem(EnabledIn(start))], [], [start])
    ensures Underway(start, target, s, [], [], d) && TopIsFresh(s)
  {
    hide Searching, RacesDealt, TopIsFresh, MomentOk, Faithful;
    SearchStarts(start, target, s, d);
    NoRacesYet(start, target, EnabledIn(start));
  }

  /** The items from `k` on have nothing left to try. */
  ghost predicate Exhausted(s: Stack, k: nat) {
    forall i :: k <= i < |s.items| ==> s.items[i].backtrack == {}
  }

  lemma StackPath(start: Moment, target: Target, s: Stack)
    requires StackOk(start, target, s)
    ensures PathOk(start, target, s.trace, s.moments) && |s.moments| == |s.items| == |s.trace| + 1 && SleepOk(s)
  {
  }

  lemma UnderwayCompletes(start: Moment, target: Target, s: Stack, completed: seq<seq<RunnerId>>, clockings: seq<seq<Clocks>>,
                          d: nat, k: nat)
    requires Underway(start, target, s, completed, clockings, d) && TopIsFresh(s) && Exhausted(s, k)
    requires s.items[|s.trace|].enabled == {} && 2 <= k <= |s.trace|
    ensures Underway(start, target, Cut(s, k - 1), completed + [Schedule(s.trace)], clockings + [ClocksOf(s)], d)
    ensures SearchWeight(start, s.items[..k], d) <= SearchWeight(start, s.items, d)
  {
    hide SearchWeight, TopIsFresh, StackOk, CompletedOk, Explored, Tried, RacesDealt, MomentOk, Faithful, SleepOk, ClocksOf;
    StackPath(start, target, s);
    SearchCompletes(start, target, s, completed, d, k);
    TraceDeals(start, target, s, completed, clockings, k);
  }

  /** The last trace of a search answers the races that were still open. */
  lemma UnderwayEnds(start: Moment, target: Target, s: Stack, completed: seq<seq<RunnerId>>, clockings: seq<seq<Clocks>>, d: nat)
    requires Underway(start, target, s, completed, clockings, d) && Exhausted(s, 0)
    ensures RacesAnswered(start, target, completed + [Schedule(s.trace)], clockings + [ClocksOf(s)])
  {
    hide StackOk, CompletedOk, Explored, Tried, RacesDealt, RacesAnswered, MomentOk, Faithful, SleepOk, ClocksOf;
    StackPath(start, target, s);
    LastTraceAnswers(start, target, s, completed, clockings);
  }

  /** What remains of the stack ends below the last item and above the first. */
  lemma MustBeBelow(start: Moment, target: Target, s: Stack, completed: seq<seq<RunnerId>>, clockings: seq<seq<Clocks>>,
                    d: nat, k: nat)
    requires Underway(start, target, s, completed, clockings, d) && TopIsFresh(s) && |s.items| == |s.trace| + 1
    requires 1 <= k <= |s.items| && s.items[k - 1].backtrack != {}
    ensures 2 <= k <= |s.trace|
  {
    hide StackOk, CompletedOk, Explored, Tried, RacesDealt, MomentOk, Faithful;
    NeverBackToStart(start, target, s, k - 1);
  }

  lemma NextMayBeTaken(start: Moment, target: Target, s: Stack, completed: seq<seq<RunnerId>>, clockings: seq<seq<Clocks>>,
                       d: nat, p: RunnerId)
    requires Underway(start, target, s, completed, clockings, d) && Consecutive(start)
    requires |s.moments| == |s.items| == |s.trace| + 1 && s.trace != [] && p in s.items[|s.trace|].backtrack
    ensures MayTake(start, target, s, p, s.(items := s.items[|s.trace| := MarkSearched(s.items[|s.trace|], p)]))
  {
    hide CompletedOk, Explored, Tried, MomentOk, Faithful, EnabledIn, SleepOk, SleepExact, StepOk, RacesDealt, Consecutive, FirstOnly;
    assert SetsOk(s.items[|s.trace|]);
  }

  lemma TraceIsNew(start: Moment, target: Target, s: Stack, completed: seq<seq<RunnerId>>, clockings: seq<seq<Clocks>>, d: nat)
    requires Underway(start, target, s, completed, clockings, d) && TopIsFresh(s)
    requires |s.items| == |s.trace| + 1 && s.items[|s.trace|].enabled == {}
    ensures CompletedOk(start, target, completed + [Schedule(s.trace)])
  {
    hide StackOk, CompletedOk, RacesDealt, Tried, MomentOk, Faithful;
    TraceCompletes(start, target, s, completed);
  }
}
