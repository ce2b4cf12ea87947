/** The program model as a value: what executing and restoring do to it. */
module ProgramSteps {
  import opened Basics
  import opened Transitions
  import opened StateSequence
  import opened ProgramSpec

  /** The fields of the model. `freed` lists the deleted transition objects; `past` is
      what the model said at each depth so far. */
  datatype Model = Model(states: Contents, trace: Slots, next: map<RunnerId, Owned>, freed: set<nat>, past: seq<Moment>)

  function States(past: seq<Moment>): (r: seq<State>)
    ensures |r| == |past| && forall k :: 0 <= k < |r| ==> r[k] == past[k].state
  {
    seq(|past|, k requires 0 <= k < |past| => past[k].state)
  }

  ghost predicate ModelInv(m: Model) {
    && Inv(m.states) && Shows(m.states, States(m.past))
    && Full(m.trace) && Keyed(NextOps(m.next)) && Owns(m.trace, m.next, m.freed)
    && Covers(m.trace, m.next)
    && Remembers(m.past, Ops(m.trace), NextOps(m.next))
  }

  /** Whoever took a step has a next one. */
  ghost predicate Covers(trace: Slots, next: map<RunnerId, Owned>) {
    forall i :: 0 <= i < |trace| && trace[i].Some? ==> trace[i].value.op.executor in next
  }

  function Current(m: Model): State
    requires m.states.elements != []
  {
    ViewOf(m.states, Last(m.states))
  }

  /** The addresses handed over to the model so far. */
  ghost function Addresses(m: Model): set<nat> {
    Everything(m.trace, m.next, m.freed)
  }

  lemma InitialInv(c: Contents, next: map<RunnerId, Owned>)
    requires Inv(c) && |c.elements| == 1 && Keyed(NextOps(next)) && Owns([], next, {})
    ensures ModelInv(Model(c, [], next, {}, [Moment(View(c, 0), NextOps(next))]))
  {
  }

  // --- Executing ---

  /** The diff is committed, the step of `p` joins the trace and `npo` takes its place. */
  function Advanced(m: Model, p: RunnerId, npo: Owned, diff: Diff): Model
    requires p in m.next && forall i :: 0 <= i < |m.states.histories| ==> m.states.histories[i] != []
  {
    var states := Follow(m.states, diff);
    var next := m.next[p := npo];
    Model(states, m.trace + [Some(m.next[p])], next, m.freed,
          m.past + [Moment(ViewOf(states, Last(states)), NextOps(next))])
  }

  lemma AdvancedRemembers(m: Model, p: RunnerId, npo: Owned, diff: Diff)
    requires ModelInv(m) && p in m.next && npo.op.executor == p
    ensures var m' := Advanced(m, p, npo, diff);
      Full(m'.trace) && Keyed(NextOps(m'.next)) && Remembers(m'.past, Ops(m'.trace), NextOps(m'.next))
  {
    var m' := Advanced(m, p, npo, diff);
    assert Ops(m'.trace) == Ops(m.trace) + [m.next[p].op];
    assert NextOps(m'.next) == NextOps(m.next)[p := npo.op];
    ExecuteRemembers(m.past, Ops(m.trace), NextOps(m.next), p, npo.op, Current(m'));
  }

  lemma AdvancedInv(m: Model, p: RunnerId, npo: Owned, diff: Diff)
    requires ModelInv(m) && p in m.next && npo.op.executor == p && npo.address !in Addresses(m)
    ensures ModelInv(Advanced(m, p, npo, diff))
    ensures Addresses(Advanced(m, p, npo, diff)) == Addresses(m) + {npo.address}
    ensures Whole(m.states) ==> Whole(Advanced(m, p, npo, diff).states)
  {
    hide Advanced, Remembers, Inv, Shows, Whole, Owns, Everything, Keyed;
    AdvancedRemembers(m, p, npo, diff);
    AdvancedOwners(m, p, npo, diff);
    AdvancedStates(m, p, npo, diff);
  }

  lemma AdvancedOwners(m: Model, p: RunnerId, npo: Owned, diff: Diff)
    requires ModelInv(m) && p in m.next && npo.op.executor == p && npo.address !in Addresses(m)
    ensures var m' := Advanced(m, p, npo, diff);
      && Owns(m'.trace, m'.next, m'.freed) && Covers(m'.trace, m'.next)
      && Addresses(m') == Addresses(m) + {npo.address}
  {
    hide ViewOf, Follow, Remembers, Shows, Owns, Everything;
    PushKeepsOwners(m.trace, m.next, m.freed, p, npo);
    assert NextOps(m.next)[p].executor == p;
  }

  lemma AdvancedStates(m: Model, p: RunnerId, npo: Owned, diff: Diff)
    requires ModelInv(m) && p in m.next
    ensures var m' := Advanced(m, p, npo, diff);
      && Inv(m'.states) && Shows(m'.states, States(m'.past))
      && (Whole(m.states) ==> Whole(m'.states))
  {
    hide ViewOf, Follow, Remembers, Owns, Covers, Shows, Whole;
    FollowShows(m.states, diff, States(m.past));
    FollowKeepsInv(m.states, diff);
    assert States(Advanced(m, p, npo, diff).past) == States(m.past) + [Current(Advanced(m, p, npo, diff))];
  }

  /** The objects a step replaces exist, and the model moves where the step leads. */
  lemma StepAdvances(m: Model, p: RunnerId, npo: Owned)
    requires ModelInv(m) && p in m.next
    requires WellTyped(m.next[p].op, Current(m)) && Enabled(m.next[p].op, Current(m))
    ensures forall i :: i in Apply(m.next[p].op, Current(m)).diff ==> i < |m.states.histories|
    ensures Whole(m.states) ==>
              Current(Advanced(m, p, npo, Apply(m.next[p].op, Current(m)).diff)) == Step(m.next[p].op, Current(m))
  {
    DiffFits(m.next[p].op, Current(m));
    var diff := Apply(m.next[p].op, Current(m)).diff;
    assert InRange(m.states, Last(m.states));
    if Whole(m.states) {
      FollowRefines(m.states, diff);
    }
  }

  // --- Discovering ---

  /** The latest moment is corrected, the earlier ones stay. */
  function Discovered(m: Model, states: Contents, next: map<RunnerId, Owned>): Model
    requires states.elements != [] && |m.past| == |m.trace| + 1
  {
    Model(states, m.trace, next, m.freed, m.past[|m.trace| := Moment(ViewOf(states, Last(states)), NextOps(next))])
  }

  lemma DiscoveredShows(m: Model, states: Contents, next: map<RunnerId, Owned>)
    requires ModelInv(m) && Inv(states) && |states.elements| == |m.states.elements|
    requires forall k :: 0 <= k < |m.trace| ==> View(states, k) == View(m.states, k)
    ensures Shows(states, States(Discovered(m, states, next).past))
  {
    var past := Discovered(m, states, next).past;
    forall k | 0 <= k < |past| ensures View(states, k) == States(past)[k] {
      if k < |m.trace| {
        assert States(m.past)[k] == m.past[k].state;
      }
    }
  }

  lemma DiscoveredRemembers(m: Model, states: Contents, next: map<RunnerId, Owned>)
    requires ModelInv(m) && states.elements != [] && forall r :: r in m.next ==> r in next && next[r] == m.next[r]
    ensures Remembers(Discovered(m, states, next).past, Ops(m.trace), NextOps(next))
  {
    hide Inv, Shows, Owns, ViewOf;
    var past, ops := Discovered(m, states, next).past, Ops(m.trace);
    forall k, r | 0 <= k < |past| && r in past[k].pending
      ensures r in NextOps(next) && past[k].pending[r] == PendingAt(ops, NextOps(next), k, r)
    {
      if k < |m.trace| {
        assert m.past[k].pending[r] == PendingAt(ops, NextOps(m.next), k, r);
      }
    }
  }

  /** Discovering an object rewrites nothing that the model remembers. */
  lemma DiscoveredObjectInv(m: Model, o: Obj)
    requires ModelInv(m)
    ensures ModelInv(Discovered(m, AddObject(m.states, o), m.next))
  {
    hide ViewOf, AddObject, Owns, Covers, PendingAt;
    AddObjectShape(m.states, o);
    forall k | 0 <= k < |m.trace| ensures View(AddObject(m.states, o), k) == View(m.states, k) {
      AddObjectViews(m.states, o, k);
    }
    DiscoveredShows(m, AddObject(m.states, o), m.next);
    DiscoveredRemembers(m, AddObject(m.states, o), m.next);
  }

  lemma AddObjectShape(c: Contents, o: Obj)
    requires Inv(c)
    ensures Inv(AddObject(c, o)) && |AddObject(c, o).elements| == |c.elements|
    ensures Inv(AddRunner(c, o)) && |AddRunner(c, o).elements| == |c.elements|
  {
    AddObjectKeepsInv(c, o);
    RecordRunnerKeepsInv(AddObject(c, o), |c.histories|);
  }

  /** Nor does discovering a runner with its first step. */
  lemma DiscoveredRunnerInv(m: Model, o: Obj, r: RunnerId, first: Owned)
    requires ModelInv(m) && r !in m.next && first.op.executor == r && first.address !in Addresses(m)
    ensures ModelInv(Discovered(m, AddRunner(m.states, o), m.next[r := first]))
    ensures Addresses(Discovered(m, AddRunner(m.states, o), m.next[r := first])) == Addresses(m) + {first.address}
  {
    hide ViewOf, AddRunner, Owns, PendingAt;
    AddObjectShape(m.states, o);
    forall k | 0 <= k < |m.trace| ensures View(AddRunner(m.states, o), k) == View(m.states, k) {
      AddRunnerViews(m.states, o, k);
    }
    DiscoveredShows(m, AddRunner(m.states, o), m.next[r := first]);
    DiscoveredRemembers(m, AddRunner(m.states, o), m.next[r := first]);
    InsertKeepsOwners(m.trace, m.next, m.freed, r, first);
    assert NextOps(m.next[r := first]) == NextOps(m.next)[r := first.op];
  }

  // --- Restoring ---

  /** What the model says of the depths up to `n` once it is rewound there: at depth 0
      the steps pending then take the place of the first ones. */
  function Kept(past: seq<Moment>, n: nat, next: Pending): seq<Moment>
    requires n < |past|
  {
    if n == 0 then [Moment(past[0].state, next)] else past[..n + 1]
  }

  /** The model rewound to depth `n`. */
  function Restored(m: Model, n: nat, next: map<RunnerId, Owned>, freed: set<nat>): Model
    requires n < |m.trace| && |m.states.elements| == |m.trace| + 1 == |m.past|
  {
    Model(Truncate(m.states, n + 1), m.trace[..n], next, freed, Kept(m.past, n, NextOps(next)))
  }

  lemma RestoredInv(m: Model, n: nat, next: map<RunnerId, Owned>, freed: set<nat>)
    requires ModelInv(m) && n < |m.trace|
    requires Owns(m.trace[..n], next, freed) && next.Keys == m.next.Keys
    requires n == 0 ==> next == m.next
    requires n > 0 ==> forall r :: r in next ==> next[r].op == PendingAt(Ops(m.trace), NextOps(m.next), n, r)
    ensures ModelInv(Restored(m, n, next, freed))
    ensures Whole(m.states) ==> Whole(Restored(m, n, next, freed).states)
  {
    RestoredShows(m, n, next, freed);
    if n > 0 {
      assert Ops(Restored(m, n, next, freed).trace) == Ops(m.trace)[..n];
      RestoreRemembers(m.past, Ops(m.trace), NextOps(m.next), n, NextOps(next));
      forall r | r in next ensures next[r].op.executor == r {
        var i := FirstBy(Ops(m.trace), n, r);
        assert NextOps(m.next)[r].executor == r;
      }
    }
  }

  lemma RestoredShows(m: Model, n: nat, next: map<RunnerId, Owned>, freed: set<nat>)
    requires ModelInv(m) && n < |m.trace|
    ensures var m' := Restored(m, n, next, freed);
      && Inv(m'.states) && Shows(m'.states, States(m'.past)) && (Whole(m.states) ==> Whole(m'.states))
  {
    ModelSizes(m);
    hide ModelInv, Inv, Shows, Whole, Truncate, Owns, PendingAt, Keyed, ViewOf, States, Kept;
    TruncateShows(m.states, n + 1, States(m.past));
    TruncateKeepsInv(m.states, n + 1);
    KeptStates(m.past, n, NextOps(next));
  }

  lemma KeptStates(past: seq<Moment>, n: nat, next: Pending)
    requires n < |past|
    ensures States(Kept(past, n, next)) == States(past)[..n + 1]
  {
  }

  lemma ModelSizes(m: Model)
    requires ModelInv(m)
    ensures |m.states.elements| == |m.trace| + 1 == |m.past|
    ensures Inv(m.states) && Shows(m.states, States(m.past))
  {
  }

  lemma RestoredState(m: Model, n: nat, next: map<RunnerId, Owned>, freed: set<nat>)
    requires ModelInv(m) && n < |m.trace|
    ensures Current(Restored(m, n, next, freed)) == m.past[n].state
  {
    hide Owns, PendingAt, Keyed, ViewOf, Inv, Kept;
    TruncateShows(m.states, n + 1, States(m.past));
    assert States(m.past)[n] == m.past[n].state;
    assert Last(Restored(m, n, next, freed).states) == Restored(m, n, next, freed).states.elements[n];
  }

  /** Executing and restoring are inverse: at depth 1 and above, the restored model says
      what the model said at that depth. Runners discovered later keep their first step. */
  lemma RoundTrip(m: Model, n: nat, next: map<RunnerId, Owned>, freed: set<nat>)
    requires ModelInv(m) && 1 <= n < |m.trace| && next.Keys == m.next.Keys
    requires forall r :: r in next ==> next[r].op == PendingAt(Ops(m.trace), NextOps(m.next), n, r)
    ensures Current(Restored(m, n, next, freed)) == m.past[n].state
    ensures forall r :: r in m.past[n].pending ==> r in next && next[r].op == m.past[n].pending[r]
    ensures m.past[n].pending.Keys == next.Keys ==> NextOps(next) == m.past[n].pending
  {
    hide ViewOf, PendingAt, Truncate;
    RestoredState(m, n, next, freed);
  }

  /** At depth 0 the pending steps are left alone, so the restored model is right exactly
      when every runner that ran is again about to take its first step. */
  lemma DepthZero(m: Model)
    requires ModelInv(m) && m.trace != [] && m.past[0].pending.Keys == m.next.Keys
    ensures Moment(Current(Restored(m, 0, m.next, m.freed)), NextOps(m.next)) == m.past[0]
            <==> BackAtFirstSteps(Ops(m.trace), NextOps(m.next))
  {
    hide ViewOf, Truncate;
    RestoredState(m, 0, m.next, m.freed);
    assert Recalls(m.past[0].pending, Ops(m.trace), NextOps(m.next));
    BackIffSame(m.past[0].pending, Ops(m.trace), NextOps(m.next));
  }

  /** Once a runner took a first step that it will not repeat next, the model cannot be
      brought back to its start. */
  lemma FirstStepIsLost(m: Model, p: RunnerId, npo: Owned, diff: Diff)
    requires ModelInv(m) && m.trace == [] && m.past[0].pending.Keys == m.next.Keys
    requires p in m.next && npo.op.executor == p && npo.op != m.next[p].op && npo.address !in Addresses(m)
    ensures var m' := Advanced(m, p, npo, diff);
      ModelInv(m') && Moment(Current(Restored(m', 0, m'.next, m'.freed)), NextOps(m'.next)) != m'.past[0]
  {
    var m' := Advanced(m, p, npo, diff);
    AdvancedInv(m, p, npo, diff);
    assert Ops(m'.trace)[0] == m.next[p].op && NextOps(m'.next)[p] == npo.op;
    DepthZero(m');
  }
}
