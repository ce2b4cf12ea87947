/**
 * The clocks along a path of the search, how each was computed, and what the comparison of
 * a depth with a clock then says.
 */
module StepClocks {
  import opened Basics
  import opened ClockVectors
  import opened Transitions
  import opened Dependency
  import opened ProgramSpec
  import opened ExplorerSpec
  import opened Search

  /** The clock of the step into depth `k`; the start has none. */
  function ClockInto(clocks: seq<Clocks>, trace: Trace, k: nat): ClockVector
    requires k <= |trace| && k < |clocks|
  {
    if k == 0 then map[] else ClockOf(clocks[k], trace[k - 1].executor)
  }

  /** The maximum of the clocks at the depths below `k` whose steps `t` depends on. Each is
      the clock of the step into that depth, not of the step that was taken there. */
  function Summed(clocks: seq<Clocks>, trace: Trace, k: nat, t: Transition): ClockVector
    requires k <= |trace| && k < |clocks|
  {
    if k == 0 then map[] else
      var rest := Summed(clocks, trace, k - 1, t);
      if AreDependent(trace[k - 1], t) then Max(rest, ClockInto(clocks, trace, k - 1)) else rest
  }

  /** Step `t` found `x` as the out-transition of the item it left. */
  ghost predicate ClockStep(clocks: seq<Clocks>, trace: Trace, t: nat, x: Option<Transition>)
    requires t < |trace| < |clocks|
  {
    var step, sum := trace[t], Summed(clocks, trace, t, trace[t]);
    var all := if x.Some? && AreDependent(x.value, step) then Max(sum, ClockInto(clocks, trace, t)) else sum;
    clocks[t + 1] == clocks[t][step.executor := all[step.executor := t + 1]]
  }

  /** What an item has as its out-transition when it is left: at first the step into it, and
      later the step last tried there. */
  ghost predicate MayBeOut(trace: Trace, moments: seq<Moment>, t: nat, x: Option<Transition>)
    requires t <= |trace| && t < |moments|
  {
    if t == 0 then x == None
    else x == Some(trace[t - 1]) || exists q :: q in moments[t].pending && x == Some(moments[t].pending[q])
  }

  ghost predicate StepIsClocked(clocks: seq<Clocks>, trace: Trace, moments: seq<Moment>, t: nat)
    requires t < |trace| < |clocks| && |trace| < |moments|
  {
    exists x :: MayBeOut(trace, moments, t, x) && ClockStep(clocks, trace, t, x)
  }

  /** The clocks are those that the explorer computes along the path. */
  ghost predicate AsComputed(clocks: seq<Clocks>, trace: Trace, moments: seq<Moment>) {
    && |clocks| == |moments| == |trace| + 1 && clocks[0] == map[]
    && forall t :: 0 <= t < |trace| ==> StepIsClocked(clocks, trace, moments, t)
  }

  // --- What the clocks say ---

  /** A clock is zero or the depth after a step of the runner it is about. */
  ghost predicate IsStepOf(trace: Trace, k: nat, r: RunnerId, v: nat)
    requires k <= |trace|
  {
    v == 0 || (v <= k && trace[v - 1].executor == r)
  }

  lemma {:induction false} SummedIsStep(clocks: seq<Clocks>, trace: Trace, k: nat, t: Transition, r: RunnerId)
    requires k <= |trace| && k < |clocks|
    requires forall j, p :: 0 <= j < k ==> IsStepOf(trace, j, r, ValueFor(ClockOf(clocks[j], p), r))
    ensures IsStepOf(trace, k, r, ValueFor(Summed(clocks, trace, k, t), r))
  {
    if k > 0 {
      SummedIsStep(clocks, trace, k - 1, t, r);
      assert IsStepOf(trace, k - 1, r, ValueFor(ClockInto(clocks, trace, k - 1), r));
    }
  }

  lemma {:induction false} ClockIsStep(clocks: seq<Clocks>, trace: Trace, moments: seq<Moment>, k: nat, p: RunnerId, r: RunnerId)
    requires AsComputed(clocks, trace, moments) && k <= |trace|
    ensures IsStepOf(trace, k, r, ValueFor(ClockOf(clocks[k], p), r))
  {
    if k > 0 {
      forall j, q | 0 <= j < k ensures IsStepOf(trace, j, r, ValueFor(ClockOf(clocks[j], q), r)) {
        ClockIsStep(clocks, trace, moments, j, q, r);
      }
      assert StepIsClocked(clocks, trace, moments, k - 1);
      SummedIsStep(clocks, trace, k - 1, trace[k - 1], r);
      assert IsStepOf(trace, k - 1, r, ValueFor(ClockInto(clocks, trace, k - 1), r));
      assert IsStepOf(trace, k - 1, r, ValueFor(ClockOf(clocks[k - 1], p), r));
    }
  }

  /** A clock knows no step of another runner as late as the depth it is read at. */
  lemma {:induction false} OthersAreOlder(clocks: seq<Clocks>, trace: Trace, moments: seq<Moment>, k: nat, p: RunnerId, r: RunnerId)
    requires AsComputed(clocks, trace, moments) && 1 <= k <= |trace| && r != p
    ensures ValueFor(ClockOf(clocks[k], p), r) < k
  {
    hide IsStepOf, Summed, ClockInto;
    var t := k - 1;
    assert StepIsClocked(clocks, trace, moments, t);
    if trace[t].executor == p {
      forall j, q | 0 <= j <= t ensures IsStepOf(trace, j, r, ValueFor(ClockOf(clocks[j], q), r)) {
        ClockIsStep(clocks, trace, moments, j, q, r);
      }
      SummedIsStep(clocks, trace, t, trace[t], r);
      SummedIsOlder(clocks, trace, t, trace[t], r);
    } else if t > 0 {
      OthersAreOlder(clocks, trace, moments, t, p, r);
    }
  }

  lemma SummedIsOlder(clocks: seq<Clocks>, trace: Trace, t: nat, step: Transition, r: RunnerId)
    requires t <= |trace| && t < |clocks|
    requires forall q :: IsStepOf(trace, t, r, ValueFor(ClockOf(clocks[t], q), r))
    requires IsStepOf(trace, t, r, ValueFor(Summed(clocks, trace, t, step), r))
    ensures ValueFor(ClockInto(clocks, trace, t), r) <= t && ValueFor(Summed(clocks, trace, t, step), r) <= t
  {
    assert t > 0 ==> IsStepOf(trace, t, r, ValueFor(ClockOf(clocks[t], trace[t - 1].executor), r));
  }

  /** What another runner takes comes before nothing that a waiting runner does next,
      unless it is the first step. */
  lemma WaitingIsNotAfter(clocks: seq<Clocks>, trace: Trace, moments: seq<Moment>, i: nat, q: RunnerId)
    requires AsComputed(clocks, trace, moments) && i < |trace| && q != trace[i].executor
    ensures StepBefore(clocks[i + 1], trace, i, q) <==> i == 0
  {
    assert StepIsClocked(clocks, trace, moments, i);
    if i > 0 {
      OthersAreOlder(clocks, trace, moments, i, q, trace[i].executor);
    }
  }

  /** The comparison finds more before a runner than its clock knows of: the first step
      always, and a step right after one of the same runner when the clock knows that one. */
  lemma ComparisonIsOffByOne(clocks: seq<Clocks>, trace: Trace, moments: seq<Moment>, k: nat, i: nat, p: RunnerId)
    requires AsComputed(clocks, trace, moments) && i < k <= |trace|
    ensures var v := ValueFor(ClockOf(clocks[k], p), trace[i].executor);
      StepBefore(clocks[k], trace, i, p) <==>
        i < v || i == 0 || (v == i && trace[i - 1].executor == trace[i].executor)
  {
    ClockIsStep(clocks, trace, moments, k, p, trace[i].executor);
  }

  // --- On the stack ---

  function ClocksOf(s: Stack): seq<Clocks> {
    seq(|s.items|, k requires 0 <= k < |s.items| => s.items[k].runnerClocks)
  }

  ghost predicate ClocksOk(s: Stack) {
    && |s.items| == |s.moments| == |s.trace| + 1
    && AsComputed(ClocksOf(s), s.trace, s.moments)
    && (forall k :: 0 <= k < |s.items| ==> s.items[k].clock == ClockInto(ClocksOf(s), s.trace, k))
    && (forall k :: 0 <= k < |s.trace| ==> s.items[k].out == Some(s.trace[k]))
    && MayBeOut(s.trace, s.moments, |s.trace|, s.items[|s.trace|].out)
  }

  lemma ClocksStart(start: Moment, enabled: set<RunnerId>)
    ensures ClocksOk(Stack([FirstItem(enabled)], [], [start]))
  {
  }

  lemma {:induction false} AccumulatedIsSummed(items: seq<Item>, clocks: seq<Clocks>, trace: Trace, t: Transition)
    requires |items| <= |trace| && |items| < |clocks|
    requires forall k :: 0 <= k < |items| ==> items[k].clock == ClockInto(clocks, trace, k) && items[k].out == Some(trace[k])
    ensures Accumulated(items, t) == Summed(clocks, trace, |items|, t)
  {
    hide AreDependent, Max, ClockInto;
    if items != [] {
      AccumulatedIsSummed(items[..|items| - 1], clocks, trace, t);
      assert items[|items| - 1].out == Some(trace[|items| - 1]);
    }
  }

  /** Clocks further along change nothing below. */
  lemma {:induction false} SameSummed(clocks: seq<Clocks>, clocks': seq<Clocks>, trace: Trace, trace': Trace, k: nat, t: Transition)
    requires k <= |trace| && k <= |trace'| && k < |clocks| && k < |clocks'|
    requires trace[..k] == trace'[..k] && clocks[..k + 1] == clocks'[..k + 1]
    ensures Summed(clocks, trace, k, t) == Summed(clocks', trace', k, t)
    ensures ClockInto(clocks, trace, k) == ClockInto(clocks', trace', k)
  {
    assert clocks[k] == clocks[..k + 1][k] && clocks'[k] == clocks'[..k + 1][k];
    if k > 0 {
      assert trace[k - 1] == trace[..k][k - 1] && trace'[k - 1] == trace'[..k][k - 1];
      assert trace[..k - 1] == trace[..k][..k - 1] && trace'[..k - 1] == trace'[..k][..k - 1];
      assert clocks[..k] == clocks[..k + 1][..k] && clocks'[..k] == clocks'[..k + 1][..k];
      SameSummed(clocks, clocks', trace, trace', k - 1, t);
    }
  }

  lemma SameClocked(clocks: seq<Clocks>, clocks': seq<Clocks>, trace: Trace, trace': Trace,
                    moments: seq<Moment>, moments': seq<Moment>, t: nat)
    requires t < |trace| < |clocks| && |trace| < |moments| && t < |trace'| < |clocks'| && |trace'| < |moments'|
    requires trace[..t + 1] == trace'[..t + 1] && clocks[..t + 2] == clocks'[..t + 2] && moments[..t + 1] == moments'[..t + 1]
    requires StepIsClocked(clocks, trace, moments, t)
    ensures StepIsClocked(clocks', trace', moments', t)
  {
    hide Summed, ClockInto;
    var x :| MayBeOut(trace, moments, t, x) && ClockStep(clocks, trace, t, x);
    assert trace[t] == trace[..t + 1][t] == trace'[..t + 1][t] == trace'[t];
    assert moments[t] == moments[..t + 1][t] == moments'[..t + 1][t] == moments'[t];
    assert clocks[t] == clocks[..t + 2][t] == clocks'[..t + 2][t] == clocks'[t];
    assert clocks[t + 1] == clocks[..t + 2][t + 1] == clocks'[..t + 2][t + 1] == clocks'[t + 1];
    assert trace[..t] == trace[..t + 1][..t] && trace'[..t] == trace'[..t + 1][..t];
    assert clocks[..t + 1] == clocks[..t + 2][..t + 1] && clocks'[..t + 1] == clocks'[..t + 2][..t + 1];
    SameSummed(clocks, clocks', trace, trace', t, trace[t]);
    assert t > 0 ==> trace[t - 1] == trace[..t + 1][t - 1] == trace'[..t + 1][t - 1] == trace'[t - 1];
    assert MayBeOut(trace', moments', t, x) && ClockStep(clocks', trace', t, x);
  }

  /** A step of a path is clocked alike in every longer path. */
  lemma PrefixClocked(clocks: seq<Clocks>, clocks': seq<Clocks>, trace: Trace, trace': Trace,
                      moments: seq<Moment>, moments': seq<Moment>, t: nat)
    requires t < |trace| < |clocks| && |trace| < |moments| && |trace'| < |clocks'| && |trace'| < |moments'|
    requires clocks <= clocks' && trace <= trace' && moments <= moments'
    ensures StepIsClocked(clocks, trace, moments, t) <==> StepIsClocked(clocks', trace', moments', t)
  {
    hide StepIsClocked;
    assert trace[..t + 1] == trace'[..t + 1] && clocks[..t + 2] == clocks'[..t + 2] && moments[..t + 1] == moments'[..t + 1];
    if StepIsClocked(clocks, trace, moments, t) {
      SameClocked(clocks, clocks', trace, trace', moments, moments', t);
    } else if StepIsClocked(clocks', trace', moments', t) {
      SameClocked(clocks', clocks, trace', trace, moments', moments, t);
    }
  }

  lemma ComputedGrows(clocks: seq<Clocks>, trace: Trace, moments: seq<Moment>, now: Clocks, t: Transition, m: Moment,
                      x: Option<Transition>)
    requires AsComputed(clocks, trace, moments) && MayBeOut(trace, moments, |trace|, x)
    requires ClockStep(clocks + [now], trace + [t], |trace|, x)
    ensures AsComputed(clocks + [now], trace + [t], moments + [m])
  {
    hide ClockStep, StepIsClocked;
    var clocks', trace', moments' := clocks + [now], trace + [t], moments + [m];
    LastIsClocked(clocks, trace, moments, now, t, m, x);
    forall k | 0 <= k < |trace'| ensures StepIsClocked(clocks', trace', moments', k) {
      if k < |trace| {
        PrefixClocked(clocks, clocks', trace, trace', moments, moments', k);
      }
    }
  }

  lemma LastIsClocked(clocks: seq<Clocks>, trace: Trace, moments: seq<Moment>, now: Clocks, t: Transition, m: Moment,
                      x: Option<Transition>)
    requires |clocks| == |moments| == |trace| + 1 && MayBeOut(trace, moments, |trace|, x)
    requires ClockStep(clocks + [now], trace + [t], |trace|, x)
    ensures StepIsClocked(clocks + [now], trace + [t], moments + [m], |trace|)
  {
    hide ClockStep;
    assert (moments + [m])[|trace|] == moments[|trace|];
    assert MayBeOut(trace + [t], moments + [m], |trace|, x);
  }

  lemma ComputedPrefix(clocks: seq<Clocks>, trace: Trace, moments: seq<Moment>, n: nat)
    requires AsComputed(clocks, trace, moments) && n <= |trace|
    ensures AsComputed(clocks[..n + 1], trace[..n], moments[..n + 1])
  {
    hide StepIsClocked;
    var clocks', trace', moments' := clocks[..n + 1], trace[..n], moments[..n + 1];
    forall k | 0 <= k < n ensures StepIsClocked(clocks', trace', moments', k) {
      PrefixClocked(clocks', clocks, trace', trace, moments', moments, k);
    }
  }

  /** What growing adds to the clocks. */
  ghost predicate ClocksGrew(s: Stack, t: Transition, g: Stack) {
    && |g.items| == |g.moments| == |g.trace| + 1 == |s.items| + 1 == |s.moments| + 1 == |s.trace| + 2
    && g.trace == s.trace + [t] && g.moments == s.moments + [g.moments[|s.items|]]
    && ClocksOf(g) == ClocksOf(s) + [s.items[|s.trace|].runnerClocks[t.executor := StepClock(s.items, t)]]
    && (forall k :: 0 <= k < |s.items| ==> g.items[k].clock == s.items[k].clock)
    && (forall k :: 0 <= k < |s.trace| ==> g.items[k].out == s.items[k].out)
    && g.items[|s.items|].clock == StepClock(s.items, t) && g.items[|s.items|].out == g.items[|s.trace|].out == Some(t)
  }

  lemma GrownClocksGrew(s: Stack, p: RunnerId, op: Transition)
    requires |s.items| == |s.moments| == |s.trace| + 1 && CanRun(s.moments[|s.trace|], p)
    ensures ClocksGrew(s, s.moments[|s.trace|].pending[p], GrownBy(s, p, op))
  {
    hide Enabled, StepClock;
  }

  lemma AccumulatedLast(items: seq<Item>, t: Transition)
    requires items != []
    ensures var it, rest := items[|items| - 1], Accumulated(items[..|items| - 1], t);
      Accumulated(items, t) == if it.out.Some? && AreDependent(it.out.value, t) then Max(rest, it.clock) else rest
  {
  }

  lemma StepIsAccumulated(items: seq<Item>, clocks: seq<Clocks>, trace: Trace, t: Transition)
    requires |items| == |clocks| == |trace| + 1
    requires forall k :: 0 <= k < |items| ==> items[k].clock == ClockInto(clocks, trace, k)
    requires forall k :: 0 <= k < |trace| ==> items[k].out == Some(trace[k])
    ensures var n, now := |trace|, clocks[|trace|][t.executor := StepClock(items, t)];
      ClockStep(clocks + [now], trace + [t], n, items[n].out)
  {
    hide Max, Summed, ClockInto, AreDependent, Accumulated;
    var n := |trace|;
    var clocks', trace' := clocks + [clocks[n][t.executor := StepClock(items, t)]], trace + [t];
    AccumulatedIsSummed(items[..n], clocks, trace, t);
    AccumulatedLast(items, t);
    assert trace[..n] == trace'[..n] && clocks[..n + 1] == clocks'[..n + 1];
    SameSummed(clocks, clocks', trace, trace', n, t);
  }

  lemma SameInto(clocks: seq<Clocks>, clocks': seq<Clocks>, trace: Trace, trace': Trace, k: nat)
    requires k <= |trace| && k < |clocks| && |trace'| < |clocks'| && clocks <= clocks' && trace <= trace'
    ensures ClockInto(clocks', trace', k) == ClockInto(clocks, trace, k)
  {
  }

  lemma ClocksStayOk(s: Stack, t: Transition, g: Stack)
    requires ClocksOk(s) && ClocksGrew(s, t, g)
    ensures ClocksOk(g)
  {
    ClocksSize(s);
    hide ClockStep, AsComputed, StepClock, ClocksOf, ClockInto;
    var clocks, now := ClocksOf(s), s.items[|s.trace|].runnerClocks[t.executor := StepClock(s.items, t)];
    StepIsAccumulated(s.items, clocks, s.trace, t);
    ComputedGrows(clocks, s.trace, s.moments, now, t, g.moments[|s.items|], s.items[|s.trace|].out);
    forall k | 0 <= k < |s.items| ensures g.items[k].clock == ClockInto(ClocksOf(g), g.trace, k) {
      SameInto(clocks, ClocksOf(g), s.trace, g.trace, k);
    }
    NewestInto(clocks, now, s.trace, t);
  }

  lemma NewestInto(clocks: seq<Clocks>, now: Clocks, trace: Trace, t: Transition)
    requires |clocks| == |trace| + 1 && t.executor in now
    ensures ClockInto(clocks + [now], trace + [t], |clocks|) == now[t.executor]
  {
  }

  lemma ClocksSize(s: Stack)
    ensures |ClocksOf(s)| == |s.items| && forall k :: 0 <= k < |s.items| ==> ClocksOf(s)[k] == s.items[k].runnerClocks
  {
  }

  /** One step of the search computes the clock of the step. */
  lemma StepKeepsClocks(s: Stack, p: RunnerId, op: Transition, s': Stack)
    requires ClocksOk(s) && CanRun(s.moments[|s.trace|], p) && SteppedTo(s, p, op, s')
    ensures ClocksOk(s')
  {
    hide AsComputed, ClockInto, ClocksGrew, Enabled;
    GrownClocksGrew(s, p, op);
    ClocksStayOk(s, s.moments[|s.trace|].pending[p], GrownBy(s, p, op));
    assert ClocksOf(s') == ClocksOf(GrownBy(s, p, op));
  }

  /** A return to a lower depth keeps the clocks there, and leaves the step last tried as
      the out-transition. */
  lemma CutKeepsClocks(start: Moment, target: Target, s: Stack, n: nat)
    requires ClocksOk(s) && PathOk(start, target, s.trace, s.moments) && 1 <= n < |s.trace|
    ensures ClocksOk(Cut(s, n))
  {
    hide AsComputed, CanRun, StepOk, ClockInto;
    var c, clocks := Cut(s, n), ClocksOf(s);
    ComputedPrefix(clocks, s.trace, s.moments, n);
    assert ClocksOf(c) == clocks[..n + 1];
    hide ClocksOf;
    forall k | 0 <= k <= n ensures c.items[k].clock == ClockInto(ClocksOf(c), c.trace, k) {
      SameInto(ClocksOf(c), clocks, c.trace, s.trace, k);
    }
    assert StepOk(target, s.trace, s.moments, n);
    PendingTaken(target, s.trace, s.moments, n);
    assert c.moments[n] == s.moments[n] && c.items[n].out == Some(s.trace[n]);
  }

  lemma PendingTaken(target: Target, trace: Trace, moments: seq<Moment>, k: nat)
    requires k < |trace| < |moments| && StepOk(target, trace, moments, k)
    ensures trace[k].executor in moments[k].pending && moments[k].pending[trace[k].executor] == trace[k]
  {
  }
}
