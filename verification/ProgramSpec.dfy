/**
 * What each runner was about to do at every depth, recovered from the trace, and who
 * owns each transition object.
 */
module ProgramSpec {
  import opened Basics
  import opened Transitions

  type Trace = seq<Transition>
  type Pending = map<RunnerId, Transition>

  ghost predicate Keyed(next: Pending) {
    forall r :: r in next ==> next[r].executor == r
  }

  /** The first step of `r` at depth `k` or later, or the length of the trace. */
  function FirstBy(trace: Trace, k: nat, r: RunnerId): (i: nat)
    requires k <= |trace|
    ensures k <= i <= |trace|
    ensures i < |trace| ==> trace[i].executor == r
    ensures forall j :: k <= j < i ==> trace[j].executor != r
    decreases |trace| - k
  {
    if k == |trace| || trace[k].executor == r then k else FirstBy(trace, k + 1, r)
  }

  /** What `r` was about to do at depth `k`: its next step in the trace, or what it is
      about to do now when it has not run since. */
  function PendingAt(trace: Trace, next: Pending, k: nat, r: RunnerId): Transition
    requires k <= |trace| && r in next
  {
    if FirstBy(trace, k, r) < |trace| then trace[FirstBy(trace, k, r)] else next[r]
  }

  lemma FirstByUnique(trace: Trace, k: nat, r: RunnerId, i: nat)
    requires k <= i <= |trace|
    requires forall j :: k <= j < i ==> trace[j].executor != r
    requires i < |trace| ==> trace[i].executor == r
    ensures FirstBy(trace, k, r) == i
  {
  }

  /** Running a step rewrites nothing in the past. */
  lemma ExecuteKeepsPending(trace: Trace, next: Pending, p: RunnerId, npo: Transition, k: nat, r: RunnerId)
    requires k <= |trace| && p in next && r in next && next[p].executor == p
    ensures PendingAt(trace + [next[p]], next[p := npo], k, r) == PendingAt(trace, next, k, r)
  {
    var i := FirstBy(trace, k, r);
    var trace' := trace + [next[p]];
    if i < |trace| || r == p {
      FirstByUnique(trace', k, r, i);
    } else {
      FirstByUnique(trace', k, r, |trace'|);
    }
  }

  /** Cutting the trace back to depth `n` with the steps pending there keeps the past. */
  lemma RestoreKeepsPending(trace: Trace, next: Pending, n: nat, next': Pending, k: nat, r: RunnerId)
    requires k <= n <= |trace| && r in next && r in next'
    requires next'[r] == PendingAt(trace, next, n, r)
    ensures PendingAt(trace[..n], next', k, r) == PendingAt(trace, next, k, r)
  {
    var i := FirstBy(trace, k, r);
    if i < n {
      FirstByUnique(trace[..n], k, r, i);
    } else {
      FirstByUnique(trace[..n], k, r, n);
      FirstByUnique(trace, n, r, i);
    }
  }

  /** What the program model said at some depth. */
  datatype Moment = Moment(state: State, pending: Pending)

  /** The trace and the pending map still tell what was pending at every depth. */
  ghost predicate Remembers(past: seq<Moment>, trace: Trace, next: Pending) {
    && |past| == |trace| + 1
    && forall k, r :: 0 <= k < |past| && r in past[k].pending ==>
                        r in next && past[k].pending[r] == PendingAt(trace, next, k, r)
  }

  /** What is pending at depth 0 by the trace and the pending steps is `first`. */
  ghost predicate Recalls(first: Pending, trace: Trace, next: Pending) {
    first.Keys == next.Keys && forall r :: r in next ==> first[r] == PendingAt(trace, next, 0, r)
  }

  /** Every runner that ran is again about to take its first step. */
  ghost predicate BackAtFirstSteps(trace: Trace, next: Pending) {
    forall r :: r in next && FirstBy(trace, 0, r) < |trace| ==> next[r] == trace[FirstBy(trace, 0, r)]
  }

  /** Leaving the pending steps alone is right exactly then. */
  lemma BackIffSame(first: Pending, trace: Trace, next: Pending)
    requires Recalls(first, trace, next)
    ensures next == first <==> BackAtFirstSteps(trace, next)
  {
    assert next == first <==> forall r :: r in next ==> next[r] == first[r];
    if BackAtFirstSteps(trace, next) {
      forall r | r in next ensures next[r] == first[r] {
        assert first[r] == PendingAt(trace, next, 0, r);
      }
    }
  }

  lemma ExecuteRemembers(past: seq<Moment>, trace: Trace, next: Pending, p: RunnerId, npo: Transition, now: State)
    requires Remembers(past, trace, next) && Keyed(next) && p in next
    ensures Remembers(past + [Moment(now, next[p := npo])], trace + [next[p]], next[p := npo])
  {
    var past', trace', next' := past + [Moment(now, next[p := npo])], trace + [next[p]], next[p := npo];
    forall k, r | 0 <= k < |past'| && r in past'[k].pending
      ensures r in next' && past'[k].pending[r] == PendingAt(trace', next', k, r)
    {
      if k < |past| {
        ExecuteKeepsPending(trace, next, p, npo, k, r);
      }
    }
  }

  lemma RestoreRemembers(past: seq<Moment>, trace: Trace, next: Pending, n: nat, next': Pending)
    requires Remembers(past, trace, next) && n <= |trace| && next.Keys == next'.Keys
    requires forall r :: r in next ==> next'[r] == PendingAt(trace, next, n, r)
    ensures Remembers(past[..n + 1], trace[..n], next')
  {
    forall k, r | 0 <= k <= n && r in past[k].pending
      ensures r in next' && past[k].pending[r] == PendingAt(trace[..n], next', k, r)
    {
      RestoreKeepsPending(trace, next, n, next', k, r);
    }
  }

  // --- Ownership ---

  /** A transition object: its address and what it holds. */
  datatype Owned = Owned(address: nat, op: Transition)

  type Slots = seq<Option<Owned>>

  ghost predicate Full(trace: Slots) {
    forall i :: 0 <= i < |trace| ==> trace[i].Some?
  }

  function Ops(trace: Slots): (r: Trace)
    requires Full(trace)
    ensures |r| == |trace| && forall i :: 0 <= i < |r| ==> r[i] == trace[i].value.op
  {
    seq(|trace|, i requires 0 <= i < |trace| => trace[i].value.op)
  }

  function NextOps(next: map<RunnerId, Owned>): (r: Pending)
    ensures r.Keys == next.Keys && forall q :: q in r ==> r[q] == next[q].op
  {
    map q | q in next :: next[q].op
  }

  /** Every live object has one owner, a slot of the trace or a pending entry, and no
      owned object has been deleted. */
  ghost predicate Owns(trace: Slots, next: map<RunnerId, Owned>, freed: set<nat>) {
    && (forall i, j :: 0 <= i < j < |trace| && trace[i].Some? && trace[j].Some? ==> trace[i].value.address != trace[j].value.address)
    && (forall q, r :: q in next && r in next && q != r ==> next[q].address != next[r].address)
    && (forall i, r :: 0 <= i < |trace| && trace[i].Some? && r in next ==> trace[i].value.address != next[r].address)
    && (forall i :: 0 <= i < |trace| && trace[i].Some? ==> trace[i].value.address !in freed)
    && (forall r :: r in next ==> next[r].address !in freed)
  }

  /** The addresses handed over to the program so far. */
  ghost function Everything(trace: Slots, next: map<RunnerId, Owned>, freed: set<nat>): set<nat> {
    freed + (set i | 0 <= i < |trace| && trace[i].Some? :: trace[i].value.address) + (set r | r in next :: next[r].address)
  }

  /** `set_transition(extract_at(i))`: the slot gives its object to the pending map, and
      the pending object it replaces is deleted. */
  lemma ExtractKeepsOwners(trace: Slots, next: map<RunnerId, Owned>, freed: set<nat>, i: nat)
    requires Owns(trace, next, freed) && i < |trace| && trace[i].Some? && trace[i].value.op.executor in next
    ensures var r := trace[i].value.op.executor;
      && Owns(trace[i := None], next[r := trace[i].value], freed + {next[r].address})
      && Everything(trace[i := None], next[r := trace[i].value], freed + {next[r].address}) == Everything(trace, next, freed)
  {
    var r := trace[i].value.op.executor;
    var trace', next', freed' := trace[i := None], next[r := trace[i].value], freed + {next[r].address};
    assert next'[r].address in Everything(trace', next', freed');
    forall a | a in Everything(trace, next, freed) ensures a in Everything(trace', next', freed') {
      if q :| q in next && next[q].address == a && q != r {
        assert next'[q].address == a;
      } else if j :| 0 <= j < |trace| && trace[j].Some? && trace[j].value.address == a && j != i {
        assert trace'[j].Some? && trace'[j].value.address == a;
      }
    }
    forall a | a in Everything(trace', next', freed') ensures a in Everything(trace, next, freed) {
      assert next[r].address in Everything(trace, next, freed);
      if j :| 0 <= j < |trace'| && trace'[j].Some? && trace'[j].value.address == a {
        assert trace[j].value.address == a;
      } else if q :| q in next' && next'[q].address == a {
        assert q != r ==> next[q].address == a;
      }
    }
  }

  /** Deleting the tail of the trace. */
  lemma CutKeepsOwners(trace: Slots, next: map<RunnerId, Owned>, freed: set<nat>, n: nat)
    requires Owns(trace, next, freed) && n <= |trace|
    ensures var gone := set i | n <= i < |trace| && trace[i].Some? :: trace[i].value.address;
      && gone !! freed
      && Owns(trace[..n], next, freed + gone)
      && Everything(trace[..n], next, freed + gone) == Everything(trace, next, freed)
  {
    var gone := set i | n <= i < |trace| && trace[i].Some? :: trace[i].value.address;
    forall a | a in Everything(trace, next, freed) ensures a in Everything(trace[..n], next, freed + gone) {
      if j :| 0 <= j < |trace| && trace[j].Some? && trace[j].value.address == a {
        assert j < n ==> trace[..n][j].Some? && trace[..n][j].value.address == a;
      }
    }
  }

  /** `replace_unowned` and `push`: the executed object moves from the map to the trace. */
  lemma PushKeepsOwners(trace: Slots, next: map<RunnerId, Owned>, freed: set<nat>, p: RunnerId, npo: Owned)
    requires Owns(trace, next, freed) && p in next
    requires npo.address !in Everything(trace, next, freed)
    ensures Owns(trace + [Some(next[p])], next[p := npo], freed)
    ensures Everything(trace + [Some(next[p])], next[p := npo], freed) == Everything(trace, next, freed) + {npo.address}
  {
    var trace', next' := trace + [Some(next[p])], next[p := npo];
    forall i | 0 <= i < |trace| && trace[i].Some? ensures trace[i].value.address in Everything(trace, next, freed) {
    }
    forall r | r in next ensures next[r].address in Everything(trace, next, freed) {
    }
    assert trace'[|trace|].Some? && next'[p] == npo;
    forall a | a in Everything(trace, next, freed) + {npo.address} ensures a in Everything(trace', next', freed) {
      if j :| 0 <= j < |trace| && trace[j].Some? && trace[j].value.address == a {
        assert trace'[j].Some? && trace'[j].value.address == a;
      } else if q :| q in next && next[q].address == a {
        assert q != p ==> next'[q].address == a;
      }
    }
    forall a | a in Everything(trace', next', freed) ensures a in Everything(trace, next, freed) + {npo.address} {
      if j :| 0 <= j < |trace'| && trace'[j].Some? && trace'[j].value.address == a {
        assert j < |trace| ==> trace[j].value.address == a;
      } else if q :| q in next' && next'[q].address == a {
        assert q != p ==> next[q].address == a;
      }
    }
  }

  /** `set_transition` for a runner that had no step yet. */
  lemma InsertKeepsOwners(trace: Slots, next: map<RunnerId, Owned>, freed: set<nat>, r: RunnerId, o: Owned)
    requires Owns(trace, next, freed) && r !in next && o.address !in Everything(trace, next, freed)
    ensures Owns(trace, next[r := o], freed)
    ensures Everything(trace, next[r := o], freed) == Everything(trace, next, freed) + {o.address}
  {
    var next' := next[r := o];
    forall i | 0 <= i < |trace| && trace[i].Some? ensures trace[i].value.address in Everything(trace, next, freed) {
    }
    forall q | q in next ensures next[q].address in Everything(trace, next, freed) && next'[q] == next[q] {
    }
    assert next'[r] == o;
    forall a | a in Everything(trace, next, freed) + {o.address} ensures a in Everything(trace, next', freed) {
      if q :| q in next && next[q].address == a {
        assert next'[q].address == a;
      }
    }
  }

  /** Half-way through handing the steps of `latest` back to the pending map: the
      runners in `todo` are still to come. */
  ghost predicate Returning(trace0: Slots, next0: map<RunnerId, Owned>, freed0: set<nat>, latest: map<RunnerId, nat>, n: nat,
                            todo: set<RunnerId>, trace: Slots, next: map<RunnerId, Owned>, freed: set<nat>) {
    && |trace| == |trace0| && next.Keys == next0.Keys && todo <= latest.Keys
    && Owns(trace, next, freed) && freed0 <= freed
    && Everything(trace, next, freed) == Everything(trace0, next0, freed0)
    && (forall j :: 0 <= j < |trace| && j < n ==> trace[j] == trace0[j])
    && (forall r :: r in latest ==> n <= latest[r] < |trace0| && trace0[latest[r]].Some? && trace0[latest[r]].value.op.executor == r)
    && (forall r :: r in latest ==> r in next0)
    && (forall r :: r in todo ==> trace[latest[r]] == trace0[latest[r]])
    && (forall r :: r in next ==> next[r] == if r in latest && r !in todo then trace0[latest[r]].value else next0[r])
  }

  lemma ReturnOne(trace0: Slots, next0: map<RunnerId, Owned>, freed0: set<nat>, latest: map<RunnerId, nat>, n: nat,
                  todo: set<RunnerId>, trace: Slots, next: map<RunnerId, Owned>, freed: set<nat>, r: RunnerId)
    requires Returning(trace0, next0, freed0, latest, n, todo, trace, next, freed) && r in todo
    ensures var i := latest[r];
      && trace[i].Some? && next[r].address !in freed
      && Returning(trace0, next0, freed0, latest, n, todo - {r}, trace[i := None], next[r := trace[i].value], freed + {next[r].address})
  {
    ExtractKeepsOwners(trace, next, freed, latest[r]);
    forall q | q in todo - {r} ensures latest[q] != latest[r] {
      assert trace0[latest[q]].value.op.executor == q;
    }
  }

  /** The trace is cut at depth `n`, nothing leaked and nothing was deleted twice. */
  ghost predicate Rewound(trace0: Slots, next0: map<RunnerId, Owned>, freed0: set<nat>, n: nat,
                          trace: Slots, next: map<RunnerId, Owned>, freed: set<nat>)
    requires n <= |trace0|
  {
    && trace == trace0[..n] && next.Keys == next0.Keys
    && Owns(trace, next, freed) && freed0 <= freed
    && Everything(trace, next, freed) == Everything(trace0, next0, freed0)
  }

  /** `latest` maps each runner that takes a step at depth `k` or later to the first such step. */
  ghost predicate Latest(latest: map<RunnerId, nat>, trace: Trace, k: nat)
    requires k <= |trace|
  {
    forall r :: (r in latest <==> FirstBy(trace, k, r) < |trace|) && (r in latest ==> latest[r] == FirstBy(trace, k, r))
  }

  lemma LatestStep(latest: map<RunnerId, nat>, trace: Trace, i: nat)
    requires i < |trace| && Latest(latest, trace, i + 1)
    ensures Latest(latest[trace[i].executor := i], trace, i)
  {
  }

  lemma LatestSteps(latest: map<RunnerId, nat>, trace: Trace, k: nat, r: RunnerId)
    requires k <= |trace| && Latest(latest, trace, k) && r in latest
    ensures k <= latest[r] < |trace| && trace[latest[r]].executor == r
  {
  }

  lemma ReturningStarts(trace: Slots, next: map<RunnerId, Owned>, freed: set<nat>, latest: map<RunnerId, nat>, n: nat)
    requires Full(trace) && Owns(trace, next, freed)
    requires forall r :: r in latest ==> r in next && n <= latest[r] < |trace| && trace[latest[r]].value.op.executor == r
    ensures Returning(trace, next, freed, latest, n, latest.Keys, trace, next, freed)
  {
  }

  lemma RewindDone(trace0: Slots, next0: map<RunnerId, Owned>, freed0: set<nat>, latest: map<RunnerId, nat>, n: nat,
                   trace1: Slots, next: map<RunnerId, Owned>, freed1: set<nat>, trace: Slots, freed: set<nat>)
    requires Returning(trace0, next0, freed0, latest, n, {}, trace1, next, freed1)
    requires n <= |trace0| && Rewound(trace1, next, freed1, n, trace, next, freed)
    ensures Rewound(trace0, next0, freed0, n, trace, next, freed)
  {
    assert trace1[..n] == trace0[..n];
  }

  /** The steps handed back are those that were pending at depth `n`. */
  lemma ReturnedArePending(trace0: Slots, next0: map<RunnerId, Owned>, freed0: set<nat>, latest: map<RunnerId, nat>, n: nat,
                           trace: Slots, next: map<RunnerId, Owned>, freed: set<nat>, r: RunnerId)
    requires Full(trace0) && n <= |trace0| && Latest(latest, Ops(trace0), n)
    requires Returning(trace0, next0, freed0, latest, n, {}, trace, next, freed) && r in next
    ensures next[r].op == PendingAt(Ops(trace0), NextOps(next0), n, r)
  {
  }
}
