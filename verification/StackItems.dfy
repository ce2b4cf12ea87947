/** The search's record of one state, updated in place. */
module StackItems {
  import opened Basics
  import opened ClockVectors
  import opened Transitions
  import opened ProgramSpec
  import opened ExplorerSpec

  class StackItem {
    var backtrackSet: set<RunnerId>
    var doneSet: set<RunnerId>
    var sleepSet: set<RunnerId>
    const enabledRunners: set<RunnerId>
    var outTransition: Option<Transition>
    /** The clock of the step into this state, and the clocks of all runners in it. */
    const clock: ClockVector
    const runnerClocks: Clocks

    ghost function Value(): Item
      reads this
    {
      Item(backtrackSet, doneSet, sleepSet, enabledRunners, outTransition, clock, runnerClocks)
    }

    constructor (enabledRunners: set<RunnerId>, outTransition: Option<Transition>, clock: ClockVector, runnerClocks: Clocks)
      ensures Value() == Item({}, {}, {}, enabledRunners, outTransition, clock, runnerClocks)
    {
      backtrackSet, doneSet, sleepSet := {}, {}, {};
      this.enabledRunners, this.outTransition := enabledRunners, outTransition;
      this.clock, this.runnerClocks := clock, runnerClocks;
    }

    /** `insert_into_backtrack_set_unless_completed`. */
    method InsertIntoBacktrackSetUnlessCompleted(rid: RunnerId)
      modifies this`backtrackSet
      ensures Value() == InsertUnlessCompleted(old(Value()), rid)
    {
      if rid !in doneSet {
        backtrackSet := backtrackSet + {rid};
      }
    }

    method InsertIntoSleepSet(rid: RunnerId)
      modifies this`sleepSet
      ensures Value() == old(Value()).(sleep := old(sleepSet) + {rid})
    {
      sleepSet := sleepSet + {rid};
    }

    method SetOutTransition(t: Transition)
      modifies this`outTransition
      ensures Value() == old(Value()).(out := Some(t))
    {
      outTransition := Some(t);
    }

    /** `mark_searched`. */
    method MarkSearched(rid: RunnerId)
      modifies this`doneSet, this`backtrackSet
      ensures Value() == ExplorerSpec.MarkSearched(old(Value()), rid)
    {
      doneSet := doneSet + {rid};
      backtrackSet := backtrackSet - {rid};
    }

    /** `backtrack_set_pop_first`; none where the original throws. */
    method BacktrackSetPopFirst() returns (r: Option<RunnerId>)
      modifies this`doneSet, this`backtrackSet
      ensures r.None? <==> old(backtrackSet) == {}
      ensures r.None? ==> Value() == old(Value())
      ensures r.Some? ==> r.value == Least(old(backtrackSet)) && Value() == ExplorerSpec.MarkSearched(old(Value()), r.value)
    {
      if backtrackSet == {} {
        return None;
      }
      var first :| first in backtrackSet;
      first := SmallestOf(backtrackSet, first);
      MarkSearched(first);
      r := Some(first);
    }

    /** `get_first_enabled_runner`. */
    method GetFirstEnabledRunner() returns (r: RunnerId)
      ensures r == if enabledRunners == {} then RUNNER_ID_MAX else Least(enabledRunners)
    {
      r := SmallestOf(enabledRunners, RUNNER_ID_MAX);
    }
  }

  /** The smallest of `from` and the members, found by running over them. */
  method SmallestOf(s: set<RunnerId>, from: RunnerId) returns (r: RunnerId)
    requires s == {} || from in s || from == RUNNER_ID_MAX
    ensures r == if s == {} then from else Least(s)
  {
    r := from;
    var todo := s;
    while todo != {}
      invariant todo <= s
      invariant s != {} ==> r in s || r == RUNNER_ID_MAX
      invariant s == {} ==> r == from
      invariant forall q :: q in s && q !in todo ==> r <= q
    {
      var q :| q in todo;
      r := if q < r then q else r;
      todo := todo - {q};
    }
    assert s != {} ==> Least(s) in s;
  }
}
