/**
 * The model of the program under test: the states visited, the trace that led there
 * and the next step of every runner, all of which can be rewound.
 */
module Program {
  import opened Basics
  import opened Transitions
  import opened StateSequence
  import opened SequenceObject
  import opened ProgramSpec
  import opened ProgramSteps

  datatype ExecuteResult = Executed | WrongRunner | UnknownRunner | NotEnabled

  const UINT32: nat := 0x1_0000_0000

  /** `x - 1` in a `uint32_t`. */
  function Minus1(x: nat): nat {
    if x == 0 then UINT32 - 1 else x - 1
  }

  ghost predicate AllTyped(s: State, next: Pending) {
    forall r :: r in next ==> WellTyped(next[r], s)
  }

  ghost function EnabledRunners(s: State, next: Pending): set<RunnerId>
    requires AllTyped(s, next)
  {
    set r | r in next && Enabled(next[r], s)
  }

  /** Somebody with a next step has not exited. */
  ghost predicate SomeoneRemains(s: State, next: Pending) {
    exists r :: r in next && IsRunner(s, r) && StatusOfRunner(s, r) != Exited
  }

  class ProgramModel {
    const states: StateSeq
    var trace: Slots
    var nextSteps: map<RunnerId, Owned>
    ghost var freed: set<nat>
    ghost var past: seq<Moment>

    ghost function Value(): Model
      reads this, states
    {
      Model(states.Value(), trace, nextSteps, freed, past)
    }

    ghost predicate Valid()
      reads this, states
    {
      ModelInv(Value())
    }

    /** The latest state of the sequence. */
    function Now(): (s: State)
      requires states.elements != []
      reads this, states
      ensures s == Current(Value())
    {
      ViewOf(Contents(states.histories, states.runners, states.elements), states.elements[|states.elements| - 1])
    }

    /** `program(initial_state, initial_first_steps)`. */
    constructor (objs: seq<Obj>, runnerObjs: seq<ObjId>, firstSteps: map<RunnerId, Owned>)
      requires Keyed(NextOps(firstSteps)) && Owns([], firstSteps, {})
      ensures Valid() && Whole(states.Value()) && fresh(states)
      ensures trace == [] && nextSteps == firstSteps && freed == {}
      ensures past == [Moment(Now(), NextOps(firstSteps))]
      ensures forall i: ObjId :: i in Now().objs <==> i < |objs|
      ensures forall i :: 0 <= i < |objs| ==> Now().objs[i] == objs[i]
      ensures Now().runners == map r: RunnerId | 0 <= r < 0x1_0000 && r < |runnerObjs| :: runnerObjs[r]
    {
      states := new StateSeq(objs, runnerObjs);
      trace, nextSteps, freed := [], firstSteps, {};
      new;
      past := [Moment(Now(), NextOps(firstSteps))];
      InitialInv(states.Value(), firstSteps);
    }

    /** `get_enabled_runners`. */
    method GetEnabledRunners() returns (enabled: set<RunnerId>)
      requires Valid() && AllTyped(Now(), NextOps(nextSteps))
      ensures enabled == EnabledRunners(Now(), NextOps(nextSteps))
    {
      hide Apply, Enabled, WellTyped;
      enabled := {};
      var s, next := Now(), NextOps(nextSteps);
      var todo := next.Keys;
      while todo != {}
        invariant todo <= next.Keys
        invariant enabled == set r | r in next && r !in todo && Enabled(next[r], s)
      {
        var r :| r in todo;
        if Enabled(next[r], s) {
          enabled := enabled + {r};
        }
        todo := todo - {r};
      }
    }

    /** `is_in_deadlock`. */
    method IsInDeadlock() returns (r: bool)
      requires Valid() && AllTyped(Now(), NextOps(nextSteps))
      ensures r <==> EnabledRunners(Now(), NextOps(nextSteps)) == {} && SomeoneRemains(Now(), NextOps(nextSteps))
    {
      hide Apply, ViewOf;
      var s, next := Now(), NextOps(nextSteps);
      var todo := next.Keys;
      while todo != {}
        invariant todo <= next.Keys
        invariant forall q :: q in next && q !in todo ==> !Enabled(next[q], s)
      {
        var q :| q in todo;
        if Enabled(next[q], s) {
          assert q in EnabledRunners(s, next);
          return false;
        }
        todo := todo - {q};
      }
      var allExited := true;
      todo := next.Keys;
      while todo != {}
        invariant todo <= next.Keys
        invariant allExited <==> forall q :: q in next && q !in todo ==> StatusOfRunner(s, q) == Exited
      {
        var q :| q in todo;
        if StatusOfRunner(s, q) != Exited {
          allExited := false;
        }
        todo := todo - {q};
      }
      r := !allExited;
    }

    /** `model_execution_of`; an object whose execution is refused stays with the caller. */
    method ModelExecutionOf(p: RunnerId, npo: Owned) returns (result: ExecuteResult)
      requires Valid() && npo.address !in Addresses(Value())
      requires p in nextSteps ==> WellTyped(nextSteps[p].op, Now())
      modifies this, states
      ensures result == if p != npo.op.executor then WrongRunner
                        else if p !in old(nextSteps) then UnknownRunner
                        else if !Enabled(old(nextSteps)[p].op, old(Now())) then NotEnabled else Executed
      ensures Valid()
      ensures result != Executed ==> Value() == old(Value())
      ensures result == Executed ==>
                Value() == Advanced(old(Value()), p, npo, Apply(old(nextSteps)[p].op, old(Now())).diff)
      ensures result == Executed && old(Whole(states.Value())) ==>
                Whole(states.Value()) && Now() == Step(old(nextSteps)[p].op, old(Now()))
    {
      if p != npo.op.executor {
        return WrongRunner;
      }
      if p !in nextSteps {
        return UnknownRunner;
      }
      var applied := Apply(nextSteps[p].op, Now());
      if !applied.Exists? {
        return NotEnabled;
      }
      StepAdvances(Value(), p, npo);
      Advance(p, npo, applied.diff);
      result := Executed;
    }

    method Advance(p: RunnerId, npo: Owned, diff: Diff)
      requires Valid() && p in nextSteps && npo.op.executor == p && npo.address !in Addresses(Value())
      requires forall i :: i in diff ==> i < |states.histories|
      modifies this`trace, this`nextSteps, this`past, states
      ensures Valid() && Value() == Advanced(old(Value()), p, npo, diff)
      ensures old(Whole(states.Value())) ==> Whole(states.Value())
    {
      AdvancedInv(Value(), p, npo, diff);
      states.Commit(diff);
      trace := trace + [Some(nextSteps[p])];
      nextSteps := nextSteps[p := npo];
      past := past + [Moment(Now(), NextOps(nextSteps))];
    }

    /** `discover_object`. */
    method DiscoverObject(o: Obj) returns (id: ObjId)
      requires Valid()
      modifies this`past, states
      ensures Valid() && id == |old(states.histories)|
      ensures Value() == Discovered(old(Value()), AddObject(old(states.Value()), o), nextSteps)
    {
      hide ViewOf, Owns, Shows, PendingAt;
      DiscoveredObjectInv(Value(), o);
      id := states.AddObject(o);
      past := past[|trace| := Moment(Now(), NextOps(nextSteps))];
    }

    /** `discover_runner`: the id is the next one, and `first` is what the runner does first. */
    method DiscoverRunner(o: Obj, first: Owned) returns (r: nat)
      requires Valid() && |states.runners| < 0x1_0000 && first.address !in Addresses(Value())
      requires |states.runners| !in nextSteps && first.op.executor == |states.runners|
      modifies this`past, this`nextSteps, states
      ensures Valid() && r == |old(states.runners)| && nextSteps == old(nextSteps)[r := first]
      ensures Value() == Discovered(old(Value()), AddRunner(old(states.Value()), o), nextSteps)
      // If all others were known, the new runner is, in state `o` and with an object of its own.
      ensures old(Last(states.Value()).maxRunner) == |old(states.runners)| ==>
                && Now() == WithRunner(old(Now()), r, |old(states.histories)|, o)
                && (old(RunnersApart(Now())) ==> RunnersApart(Now()))
    {
      hide ViewOf, Owns, Shows, PendingAt, RunnersApart, Covers, InRange, Extends;
      if Last(states.Value()).maxRunner == |states.runners| {
        NewRunnerIsKnown(states.Value(), o);
      }
      DiscoveredRunnerInv(Value(), o, |states.runners|, first);
      r := states.AddRunner(o);
      nextSteps := nextSteps[r := first];
      past := past[|trace| := Moment(Now(), NextOps(nextSteps))];
    }

    /** `restore_model_at_depth`; fails where the rewind of the state sequence throws.
        The loop guard is computed in thirty-two bits, so at depth 0 it never holds. */
    method RestoreModelAtDepth(n: nat) returns (ok: bool)
      requires Valid() && n < UINT32 && |trace| < UINT32
      modifies this, states
      ensures n >= |old(trace)| ==> ok && Value() == old(Value())
      ensures n < |old(trace)| ==> ok == !RewindThrows(old(states.Value()), n + 1)
      ensures ok && n < |old(trace)| ==>
                && Value() == Restored(old(Value()), n, nextSteps, freed)
                && Rewound(old(trace), old(nextSteps), old(freed), n, trace, nextSteps, freed)
      ensures ok && 1 <= n < |old(trace)| ==> forall r :: r in nextSteps ==>
                nextSteps[r].op == PendingAt(Ops(old(trace)), NextOps(old(nextSteps)), n, r)
      ensures ok && n == 0 < |old(trace)| ==> nextSteps == old(nextSteps)
      ensures ok ==> Valid()
    {
      hide PendingAt, Owns, Keyed, ViewOf, Truncate, RewindThrows, Covers;
      ghost var before := Value();
      RewindSteps(n);
      ok := states.ConsumeIntoSubsequence(n + 1);
      if n < |before.trace| {
        past := Kept(past, n, NextOps(nextSteps));
        if ok {
          RestoredInv(before, n, nextSteps, freed);
        }
      }
    }

    /** The part of the restoration that concerns transitions. */
    method RewindSteps(n: nat)
      requires Full(trace) && Owns(trace, nextSteps, freed) && Covers(trace, nextSteps)
      requires n < UINT32 && |trace| < UINT32
      modifies this`trace, this`nextSteps, this`freed
      ensures n >= |old(trace)| ==> trace == old(trace) && nextSteps == old(nextSteps) && freed == old(freed)
      ensures n < |old(trace)| ==> Rewound(old(trace), old(nextSteps), old(freed), n, trace, nextSteps, freed)
      ensures n == 0 ==> nextSteps == old(nextSteps)
      ensures 1 <= n < |old(trace)| ==> forall r :: r in nextSteps ==>
                nextSteps[r].op == PendingAt(Ops(old(trace)), NextOps(old(nextSteps)), n, r)
    {
      var latest := StepsSince(n);
      ghost var trace0, next0, freed0 := trace, nextSteps, freed;
      forall r | r in latest ensures n <= latest[r] < |trace| && trace[latest[r]].value.op.executor == r {
        LatestSteps(latest, Ops(trace), n, r);
      }
      ReturnSteps(latest, n);
      ghost var trace1, freed1 := trace, freed;
      if n < |trace| {
        CutTrace(n);
        RewindDone(trace0, next0, freed0, latest, n, trace1, nextSteps, freed1, trace, freed);
      }
      forall r | 1 <= n < |trace0| && r in nextSteps
        ensures nextSteps[r].op == PendingAt(Ops(trace0), NextOps(next0), n, r)
      {
        ReturnedArePending(trace0, next0, freed0, latest, n, trace1, nextSteps, freed1, r);
      }
    }

    /** The earliest step each runner took at depth `n` or later. */
    method StepsSince(n: nat) returns (latest: map<RunnerId, nat>)
      requires Full(trace) && n < UINT32 && |trace| < UINT32
      ensures 1 <= n < |trace| ==> Latest(latest, Ops(trace), n)
      ensures n == 0 || n >= |trace| ==> latest == map[]
    {
      latest := map[];
      ghost var ops := Ops(trace);
      var guard := Minus1(n);
      var i := Minus1(|trace|);
      while i > guard && trace != []
        invariant trace != [] && n <= |trace| ==> i < |trace|
        invariant 1 <= n < |trace| ==> n - 1 <= i && Latest(latest, ops, i + 1)
        invariant n == 0 || n >= |trace| ==> latest == map[]
        decreases i
      {
        LatestStep(latest, ops, i);
        latest := latest[trace[i].value.op.executor := i];
        i := i - 1;
      }
    }

    /** `set_transition(extract_at(i))` for each of these steps. */
    method ReturnSteps(latest: map<RunnerId, nat>, n: nat)
      requires Full(trace) && Owns(trace, nextSteps, freed) && Covers(trace, nextSteps)
      requires forall r :: r in latest ==> n <= latest[r] < |trace| && trace[latest[r]].value.op.executor == r
      modifies this`trace, this`nextSteps, this`freed
      ensures Returning(old(trace), old(nextSteps), old(freed), latest, n, {}, trace, nextSteps, freed)
      ensures latest == map[] ==> trace == old(trace) && nextSteps == old(nextSteps) && freed == old(freed)
    {
      var todo := latest.Keys;
      forall r | r in latest ensures r in nextSteps {
        assert trace[latest[r]].Some?;
      }
      ReturningStarts(trace, nextSteps, freed, latest, n);
      while todo != {}
        invariant Returning(old(trace), old(nextSteps), old(freed), latest, n, todo, trace, nextSteps, freed)
        invariant latest == map[] ==> trace == old(trace) && nextSteps == old(nextSteps) && freed == old(freed)
      {
        var r :| r in todo;
        ReturnOne(old(trace), old(nextSteps), old(freed), latest, n, todo, trace, nextSteps, freed, r);
        TakeBack(latest[r]);
        todo := todo - {r};
      }
    }

    method TakeBack(i: nat)
      requires i < |trace| && trace[i].Some? && trace[i].value.op.executor in nextSteps
      requires nextSteps[trace[i].value.op.executor].address !in freed
      modifies this`trace, this`nextSteps, this`freed
      ensures trace == old(trace)[i := None]
      ensures var step := old(trace)[i].value;
        && nextSteps == old(nextSteps)[step.op.executor := step]
        && freed == old(freed) + {old(nextSteps)[step.op.executor].address}
    {
      var step := trace[i].value;
      trace := trace[i := None];
      Delete(nextSteps[step.op.executor]);
      nextSteps := nextSteps[step.op.executor := step];
    }

    /** `delete`, which must not meet the same object twice. */
    ghost method Delete(o: Owned)
      requires o.address !in freed
      modifies this`freed
      ensures freed == old(freed) + {o.address}
    {
      freed := freed + {o.address};
    }

    /** Deletes and erases the trace from depth `n`. */
    method CutTrace(n: nat)
      requires n <= |trace| && Owns(trace, nextSteps, freed)
      modifies this`trace, this`freed
      ensures Rewound(old(trace), nextSteps, old(freed), n, trace, nextSteps, freed)
    {
      CutKeepsOwners(trace, nextSteps, freed, n);
      for i := n to |trace|
        invariant freed == old(freed) + set j | n <= j < i && trace[j].Some? :: trace[j].value.address
      {
        if trace[i].Some? {
          Delete(trace[i].value);
        }
      }
      trace := trace[..n];
    }
  }
}
