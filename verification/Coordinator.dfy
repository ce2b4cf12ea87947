/** The coordinator keeps the program model and the process it describes in step. */
module Coordinator {
  import opened Basics
  import opened Transitions
  import opened StateSequence
  import opened SequenceObject
  import opened ProgramSpec
  import opened ProgramSteps
  import opened Program
  import opened ExplorerSpec

  datatype Execution = Expanded | ProcessDied | Refused

  /** The pending step of `p` joined the trace, and what the process reported follows. */
  ghost predicate Grew(past: seq<Moment>, trace: Trace, p: RunnerId, reply: Reply, past': seq<Moment>, trace': Trace) {
    && |past| == |trace| + 1 && CanRun(past[|trace|], p) && reply.NextOp?
    && trace' == trace + [past[|trace|].pending[p]]
    && past' == past + [ExplorerSpec.Advance(past[|trace|], p, reply.op)]
  }

  /** What executing `p` comes to. */
  function Attempt(m: Moment, p: RunnerId, reply: Reply): Execution {
    if reply.Failed? then ProcessDied
    else if reply.op.executor == p && CanRun(m, p) then Expanded else Refused
  }

  /** The model is on the path that the process took, and the process took all of it. */
  ghost predicate InStep(start: Moment, target: Target, m: Model, executed: seq<RunnerId>)
    requires ModelInv(m)
  {
    && Whole(m.states)
    && PathOk(start, target, Ops(m.trace), m.past)
    && m.past[|m.trace|] == Moment(Current(m), NextOps(m.next))
    && executed == Schedule(Ops(m.trace))
  }

  lemma LatestCanRun(start: Moment, target: Target, m: Model, executed: seq<RunnerId>, p: RunnerId)
    requires ModelInv(m) && InStep(start, target, m, executed)
    requires MomentOk(start) && Faithful(target, start)
    ensures p in m.next ==> WellTyped(m.next[p].op, Current(m))
    ensures CanRun(m.past[|m.trace|], p) <==> p in m.next && Enabled(m.next[p].op, Current(m))
  {
    hide Apply, Enabled, WellTyped;
    PathTyped(start, target, Ops(m.trace), m.past, |m.trace|);
    assert p in m.next ==> NextOps(m.next)[p] == m.next[p].op;
  }

  lemma LatestIsOk(start: Moment, target: Target, m: Model, executed: seq<RunnerId>)
    requires ModelInv(m) && InStep(start, target, m, executed)
    requires MomentOk(start) && Faithful(target, start)
    ensures MomentOk(Moment(Current(m), NextOps(m.next)))
  {
    PathTyped(start, target, Ops(m.trace), m.past, |m.trace|);
  }

  /** The model after the step of `p` was executed. */
  function After(m: Model, p: RunnerId, npo: Owned): Model
    requires Inv(m.states) && p in m.next
    requires WellTyped(m.next[p].op, Current(m)) && Enabled(m.next[p].op, Current(m))
  {
    Advanced(m, p, npo, Apply(m.next[p].op, Current(m)).diff)
  }

  lemma AfterPast(m: Model, p: RunnerId, npo: Owned)
    requires ModelInv(m) && Whole(m.states) && p in m.next
    requires m.past[|m.trace|] == Moment(Current(m), NextOps(m.next))
    requires WellTyped(m.next[p].op, Current(m)) && Enabled(m.next[p].op, Current(m))
    ensures var m' := After(m, p, npo);
      Full(m'.trace) && Grew(m.past, Ops(m.trace), p, NextOp(npo.op), m'.past, Ops(m'.trace))
  {
    hide Modify, Step, ViewOf, Follow, Shows, PendingAt, Owns, Keyed;
    StepAdvances(m, p, npo);
    assert NextOps(m.next[p := npo]) == NextOps(m.next)[p := npo.op];
  }

  lemma AfterInStep(start: Moment, target: Target, m: Model, executed: seq<RunnerId>, p: RunnerId, npo: Owned)
    requires ModelInv(m) && InStep(start, target, m, executed)
    requires p in m.next && npo.op.executor == p && npo.address !in Addresses(m)
    requires WellTyped(m.next[p].op, Current(m)) && Enabled(m.next[p].op, Current(m))
    requires target(executed + [p]) == NextOp(npo.op)
    ensures ModelInv(After(m, p, npo)) && InStep(start, target, After(m, p, npo), executed + [p])
    ensures Addresses(After(m, p, npo)) == Addresses(m) + {npo.address}
  {
    hide Modify, WellTyped, PathOk, ViewOf, Owns, Everything, Shows, Remembers;
    var m' := After(m, p, npo);
    AfterPast(m, p, npo);
    AdvancedInv(m, p, npo, Apply(m.next[p].op, Current(m)).diff);
    assert NextOps(m.next)[p].executor == p;
    PathExtends(start, target, Ops(m.trace), m.past, p, npo.op);
    assert Schedule(Ops(m'.trace)) == executed + [p];
  }

  lemma RestoredInStep(start: Moment, target: Target, m: Model, executed: seq<RunnerId>, n: nat,
                       next: map<RunnerId, Owned>, freed: set<nat>)
    requires ModelInv(m) && InStep(start, target, m, executed) && MomentOk(start) && Faithful(target, start)
    requires 1 <= n < |m.trace| && Owns(m.trace[..n], next, freed) && next.Keys == m.next.Keys
    requires forall r :: r in next ==> next[r].op == PendingAt(Ops(m.trace), NextOps(m.next), n, r)
    ensures var m' := Restored(m, n, next, freed);
      && ModelInv(m') && InStep(start, target, m', Schedule(Ops(m.trace)[..n]))
      && Ops(m'.trace) == Ops(m.trace)[..n]
  {
    hide Enabled, WellTyped, PathOk, ViewOf, Follow, Owns, Everything, Covers, PendingAt, MomentOk, Faithful, StepOk;
    RestoredInv(m, n, next, freed);
    assert Ops(Restored(m, n, next, freed).trace) == Ops(m.trace)[..n];
    PathCut(start, target, Ops(m.trace), m.past, n);
    PathTyped(start, target, Ops(m.trace), m.past, n);
    PathTyped(start, target, Ops(m.trace), m.past, |m.trace|);
    RoundTrip(m, n, next, freed);
  }

  /** The moment that the model takes for depth 0 after it was rewound there. */
  function StaleStart(start: Moment, next: Pending): Moment {
    Moment(start.state, next)
  }

  /** Rewound to depth 0 the model is in step with a new process as far as the model can
      tell, that is from a start with the steps pending then. */
  lemma RestoredToStart(start: Moment, target: Target, m: Model, executed: seq<RunnerId>, freed: set<nat>)
    requires ModelInv(m) && InStep(start, target, m, executed) && MomentOk(start) && Faithful(target, start)
    requires m.trace != [] && Owns([], m.next, freed)
    ensures var m', start' := Restored(m, 0, m.next, freed), StaleStart(start, NextOps(m.next));
      && ModelInv(m') && InStep(start', target, m', []) && MomentOk(start') && Faithful(target, start')
      && m'.past == [start']
  {
    hide Enabled, WellTyped, ViewOf, Truncate, Owns, Everything, PendingAt, Faithful, MomentOk, Keyed;
    var m' := Restored(m, 0, m.next, freed);
    assert m.trace[..0] == [];
    RestoredInv(m, 0, m.next, freed);
    RestoredState(m, 0, m.next, freed);
    StaleStartIsOk(start, target, m, executed);
    assert Schedule(Ops(m'.trace)) == [];
  }

  lemma StaleStartIsOk(start: Moment, target: Target, m: Model, executed: seq<RunnerId>)
    requires ModelInv(m) && InStep(start, target, m, executed) && MomentOk(start) && Faithful(target, start)
    ensures MomentOk(StaleStart(start, NextOps(m.next))) && Faithful(target, StaleStart(start, NextOps(m.next)))
  {
    hide Enabled, WellTyped, ViewOf, Owns, PendingAt, Shows;
    var start' := StaleStart(start, NextOps(m.next));
    PathTyped(start, target, Ops(m.trace), m.past, |m.trace|);
    forall r | r in start'.pending ensures WellTyped(start'.pending[r], start'.state) {
      ShapeKeepsTyping(start'.pending[r], start.state, m.past[|m.trace|].state);
    }
  }

  /** An object table without gaps can always be rewound. */
  lemma WholeRewinds(c: Contents, m: nat)
    requires Inv(c) && Whole(c) && 0 < m < |c.elements|
    ensures !RewindThrows(c, m)
  {
    RewindThrowsOnGap(c, m);
    CompleteIsDense(c, c.elements[m - 1]);
  }

  /** The moment at depth 0. */
  function StartOf(objs: seq<Obj>, runnerObjs: seq<ObjId>, firstSteps: map<RunnerId, Owned>): Moment {
    Moment(State(map i: ObjId | 0 <= i < |objs| :: objs[i],
                 map r: RunnerId | 0 <= r < 0x1_0000 && r < |runnerObjs| :: runnerObjs[r]),
           NextOps(firstSteps))
  }

  class Coordinator {
    const model: ProgramModel
    /** The process: a deterministic function of the schedule. */
    const target: Target
    /** What the current process handle has executed. */
    var executed: seq<RunnerId>
    var nextAddress: nat
    /** What the model takes for the moment at depth 0. */
    ghost var start: Moment

    ghost predicate Valid()
      reads this, model, model.states
    {
      && model.Valid() && MomentOk(start) && Faithful(target, start)
      && InStep(start, target, model.Value(), executed)
      && (forall a :: a in Addresses(model.Value()) ==> a < nextAddress)
    }

    ghost function Trace(): Trace
      reads this, model, model.states
      requires Valid()
    {
      Ops(model.trace)
    }

    ghost function Latest(): Moment
      reads this, model, model.states
      requires Valid()
    {
      model.past[|model.trace|]
    }

    lemma ProcessIsInStep()
      requires Valid()
      ensures executed == Schedule(Trace()) && |model.past| == |Trace()| + 1 == |model.trace| + 1
    {
    }

    lemma AtStart()
      requires Valid() && model.trace == []
      ensures Trace() == [] && model.past == [start] && Latest() == start
    {
    }

    lemma StartIsOk()
      requires Valid()
      ensures MomentOk(start) && Faithful(target, start)
    {
    }

    constructor (objs: seq<Obj>, runnerObjs: seq<ObjId>, firstSteps: map<RunnerId, Owned>, target: Target, nextAddress: nat)
      requires Keyed(NextOps(firstSteps)) && Owns([], firstSteps, {})
      requires forall r :: r in firstSteps ==> firstSteps[r].address < nextAddress
      requires MomentOk(StartOf(objs, runnerObjs, firstSteps)) && Faithful(target, StartOf(objs, runnerObjs, firstSteps))
      ensures Valid() && fresh(model) && fresh(model.states)
      ensures start == StartOf(objs, runnerObjs, firstSteps) && this.target == target
      ensures model.trace == [] && model.past == [start]
    {
      hide MomentOk, Faithful, Apply, WellTyped, Remembers, ViewOf;
      model := new ProgramModel(objs, runnerObjs, firstSteps);
      this.target, this.executed, this.nextAddress := target, [], nextAddress;
      start := StartOf(objs, runnerObjs, firstSteps);
      new;
      assert model.Now().objs == start.state.objs;
      assert Schedule(Ops(model.trace)) == [];
    }

    /** What the explorer asks the model for: its trace, the pending steps and who is enabled. */
    method Observe() returns (trace: Trace, next: Pending, enabled: set<RunnerId>)
      requires Valid()
      ensures trace == Trace() && next == Latest().pending && enabled == EnabledIn(Latest())
    {
      hide PathOk, Faithful, Owns, Everything, Covers, Remembers, Shows, Whole, WellTyped, Apply;
      trace, next := Ops(model.trace), NextOps(model.nextSteps);
      LatestIsOk(start, target, model.Value(), executed);
      enabled := model.GetEnabledRunners();
    }

    method IsInDeadlock() returns (r: bool)
      requires Valid()
      ensures r == Stuck(Latest())
    {
      hide PathOk, Faithful, Owns, Everything, Covers, Remembers, Shows, Whole, WellTyped, Apply;
      LatestIsOk(start, target, model.Value(), executed);
      r := model.IsInDeadlock();
    }

    /** `execute_runner`: the process runs `p` up to its next operation, which is recorded
        once the model took the pending one. */
    method ExecuteRunner(p: RunnerId) returns (result: Execution)
      requires Valid()
      modifies this`executed, this`nextAddress, model, model.states
      ensures result == Attempt(old(Latest()), p, target(old(executed) + [p])) && start == old(start)
      ensures result == Expanded ==>
                Valid() && Grew(old(model.past), old(Trace()), p, target(old(executed) + [p]), model.past, Trace())
    {
      hide PathOk, MomentOk, Faithful, CanRun, WellTyped, Enabled, Apply, ViewOf, Owns, Everything, PendingAt, Shows, Keyed;
      ghost var m, before := model.Value(), executed;
      executed := executed + [p];
      var reply := target(executed);
      if reply.Failed? {
        return ProcessDied;
      }
      var npo := Owned(nextAddress, reply.op);
      nextAddress := nextAddress + 1;
      LatestCanRun(start, target, m, before, p);
      if Attempt(m.past[|m.trace|], p, reply) == Expanded {
        AfterPast(m, p, npo);
        AfterInStep(start, target, m, before, p, npo);
      }
      var outcome := model.ModelExecutionOf(p, npo);
      result := if outcome == Executed then Expanded else Refused;
    }

    /** `return_to_depth`: the model is rewound, and a new process repeats the rest of the
        trace. The two end up in step; at depth 0, though, from a start where the steps
        pending now stand in for the first ones. */
    method ReturnToDepth(n: nat)
      requires Valid() && n < |model.trace| < UINT32
      modifies this`executed, this`start, model, model.states
      ensures Valid() && Trace() == old(Trace())[..n]
      ensures n >= 1 ==> start == old(start) && model.past == old(model.past)[..n + 1]
      ensures n == 0 ==> start == StaleStart(old(start), old(Latest()).pending) && model.past == [start]
    {
      hide MomentOk, Faithful, ViewOf, Whole, Owns, Everything, Covers, PendingAt, Truncate, Keyed, Remembers, Shows, StepOk;
      RewindModel(n);
      ReplayTrace(n);
    }

    /** The half of the return that concerns the model. */
    method RewindModel(n: nat)
      requires Valid() && n < |model.trace| < UINT32
      modifies this`start, model, model.states
      ensures model.Valid() && MomentOk(start) && Faithful(target, start)
      ensures Addresses(model.Value()) == old(Addresses(model.Value()))
      ensures Ops(model.trace) == old(Trace())[..n]
      ensures InStep(start, target, model.Value(), Schedule(Ops(model.trace)))
      ensures n >= 1 ==> start == old(start) && model.past == old(model.past)[..n + 1]
      ensures n == 0 ==> start == StaleStart(old(start), old(Latest()).pending) && model.past == [start]
    {
      hide PathOk, MomentOk, Faithful, ViewOf, Whole, Owns, Everything, Covers, PendingAt, Truncate, Keyed;
      ghost var m, before := model.Value(), executed;
      WholeRewinds(m.states, n + 1);
      var rewound := model.RestoreModelAtDepth(n);
      if n >= 1 {
        RestoredInStep(start, target, m, before, n, model.nextSteps, model.freed);
      } else {
        RestoredToStart(start, target, m, before, model.freed);
        start := StaleStart(start, NextOps(model.nextSteps));
      }
    }

    /** A new process handle executes the runners of the trace in order, and lives. */
    method ReplayTrace(n: nat)
      requires Full(model.trace) && |model.trace| == n && PathOk(start, target, Ops(model.trace), model.past)
      modifies this`executed
      ensures executed == Schedule(Ops(model.trace))
    {
      ghost var schedule := Schedule(Ops(model.trace));
      executed := [];
      for i := 0 to n
        invariant executed == schedule[..i]
      {
        executed := executed + [model.trace[i].value.op.executor];
        assert executed == schedule[..i + 1];
        assert StepOk(target, Ops(model.trace), model.past, i);
        assert target(executed).NextOp?;
      }
    }
  }
}
