/**
 * What becomes of the races: at the end of a search each race that an update looked at
 * was answered by a completed schedule that takes a runner able to reverse it, or else
 * everyone enabled before the race was run there or slept there.
 */
module Races {
  import opened Basics
  import opened ClockVectors
  import opened Transitions
  import opened Dependency
  import opened ProgramSpec
  import opened ExplorerSpec
  import opened Search
  import opened StepClocks
  import opened Independence

  /** The path to the state before the earlier step of the race, and the set E of the
      runners that could lead to its reversal. */
  datatype Race = Race(trace: Trace, moments: seq<Moment>, e: set<RunnerId>)

  /** After step `t` of the path the update finds a race of the next step of `q` with step
      `i`: the latest one when `q` took step `t`, and else only one with that step. */
  ghost predicate IsRace(clocks: seq<Clocks>, trace: Trace, moments: seq<Moment>, t: nat, q: RunnerId, i: nat) {
    && t < |trace| && |clocks| == |moments| == |trace| + 1 && q in moments[t + 1].pending
    && var next := moments[t + 1].pending[q];
    if q == trace[t].executor then i < t && LatestRace(clocks[t + 1], trace[..t + 1], t, next, q, i)
    else i == t && Reversible(clocks[t + 1], trace[..t + 1], t, next, q)
  }

  function RaceAt(clocks: seq<Clocks>, trace: Trace, moments: seq<Moment>, t: nat, q: RunnerId, i: nat): Race
    requires i <= t < |trace| && |clocks| == |moments| == |trace| + 1
  {
    Race(trace[..i], moments[..i + 1], InitialsIn(clocks[t + 1], trace[..t + 1], i, q, EnabledIn(moments[i])))
  }

  // --- Answers ---

  /** `q` ran before the race, or it slept there: it ran from a state below, and each step
      since was independent of its step, which it is still about to take. */
  ghost predicate RanOrSlept(completed: seq<seq<RunnerId>>, trace: Trace, moments: seq<Moment>, q: RunnerId)
    requires |moments| == |trace| + 1
  {
    exists j: nat :: j <= |trace| && TookNext(completed, Schedule(trace)[..j], q) && SameStepSince(trace, moments, j, q)
  }

  ghost predicate SameStepSince(trace: Trace, moments: seq<Moment>, j: nat, q: RunnerId)
    requires |moments| == |trace| + 1 && j <= |trace|
  {
    && q in moments[j].pending && q in moments[|trace|].pending
    && moments[|trace|].pending[q] == moments[j].pending[q]
    && forall m :: j <= m < |trace| ==> !AreDependent(moments[j].pending[q], trace[m])
  }

  ghost predicate Answered(r: Race, completed: seq<seq<RunnerId>>) {
    && |r.moments| == |r.trace| + 1
    && (|| (exists q :: q in r.e && TookNext(completed, Schedule(r.trace), q))
        || (forall q :: q in EnabledIn(r.moments[|r.trace|]) ==> RanOrSlept(completed, r.trace, r.moments, q)))
  }

  /** The item before the race is still on the stack, and the answer is planned there. */
  ghost predicate Open(r: Race, s: Stack) {
    var i := |r.trace|;
    && i < |s.items| == |s.trace| + 1 == |s.moments|
    && r.trace == s.trace[..i] && r.moments == s.moments[..i + 1]
    && s.items[i].enabled == EnabledIn(s.moments[i]) && Planned(s.items[i], r.e)
  }

  ghost predicate Planned(it: Item, e: set<RunnerId>) {
    e * (it.backtrack + it.done) != {} || it.enabled <= it.backtrack + it.sleep
  }

  ghost predicate Dealt(r: Race, s: Stack, completed: seq<seq<RunnerId>>) {
    Answered(r, completed) || Open(r, s)
  }

  // --- One race ---

  lemma StepKeepsDealt(s: Stack, p: RunnerId, op: Transition, s': Stack, completed: seq<seq<RunnerId>>, r: Race)
    requires |s.moments| == |s.items| == |s.trace| + 1 && CanRun(s.moments[|s.trace|], p)
    requires s.moments[|s.trace|].pending[p].executor == p
    requires SteppedTo(s, p, op, s') && Dealt(r, s, completed)
    ensures Dealt(r, s', completed)
  {
    hide CanRun, Answered, EnabledIn;
    if Open(r, s) {
      var i := |r.trace|;
      PlannedStays(s, p, op, s', i, r.e);
      assert s'.trace[..i] == s.trace[..i] && s'.moments[..i + 1] == s.moments[..i + 1];
    }
  }

  lemma PlannedStays(s: Stack, p: RunnerId, op: Transition, s': Stack, i: nat, e: set<RunnerId>)
    requires |s.moments| == |s.items| == |s.trace| + 1 && CanRun(s.moments[|s.trace|], p)
    requires s.moments[|s.trace|].pending[p].executor == p && SteppedTo(s, p, op, s')
    requires i < |s.items| && Planned(s.items[i], e)
    ensures s'.items[i].enabled == s.items[i].enabled && Planned(s'.items[i], e)
  {
    hide CanRun, Advance, Fresh;
    var it, it' := s.items[i], s'.items[i];
    assert it.backtrack + it.done <= it'.backtrack + it'.done;
    if e * (it.backtrack + it.done) != {} {
      var q :| q in e * (it.backtrack + it.done);
      assert q in e * (it'.backtrack + it'.done);
    }
  }

  /** A race answered stays answered. */
  lemma MoreAnswers(r: Race, completed: seq<seq<RunnerId>>, c: seq<RunnerId>)
    requires Answered(r, completed)
    ensures Answered(r, completed + [c])
  {
    hide SameStepSince, EnabledIn;
    forall prefix, q | TookNext(completed, prefix, q) ensures TookNext(completed + [c], prefix, q) {
      var d :| d in completed && prefix + [q] <= d;
      assert d in completed + [c];
    }
    if !(exists q :: q in r.e && TookNext(completed, Schedule(r.trace), q)) {
      forall q | q in EnabledIn(r.moments[|r.trace|]) ensures RanOrSlept(completed + [c], r.trace, r.moments, q) {
        assert RanOrSlept(completed, r.trace, r.moments, q);
      }
    }
  }

  /** With nothing left to try at its item, an open race is answered. */
  lemma ExhaustedIsAnswered(s: Stack, completed: seq<seq<RunnerId>>, r: Race)
    requires |s.moments| == |s.items| == |s.trace| + 1 && SleepOk(s) && AllTaken(s, completed)
    requires Open(r, s) && s.items[|r.trace|].backtrack == {}
    ensures Answered(r, completed)
  {
    hide TookNext, EnabledIn;
    var i := |r.trace|;
    var it := s.items[i];
    assert Schedule(r.trace) == Schedule(s.trace)[..i] && r.moments[i] == s.moments[i];
    if r.e * (it.backtrack + it.done) != {} {
      var q :| q in r.e * (it.backtrack + it.done);
      assert q in it.done;
    } else {
      forall q | q in EnabledIn(r.moments[i]) ensures RanOrSlept(completed, r.trace, r.moments, q) {
        SleeperRanOrSlept(s, completed, i, q, r);
      }
    }
  }

  lemma SleeperRanOrSlept(s: Stack, completed: seq<seq<RunnerId>>, i: nat, q: RunnerId, r: Race)
    requires |s.moments| == |s.items| == |s.trace| + 1 && SleepOk(s) && AllTaken(s, completed)
    requires Open(r, s) && i == |r.trace| && q in s.items[i].sleep
    ensures RanOrSlept(completed, r.trace, r.moments, q)
  {
    hide TookNext, Planned, EnabledIn;
    var j: nat :| Justified(s, i, q, j);
    assert Schedule(r.trace)[..j] == Schedule(s.trace)[..j];
    assert TookNext(completed, Schedule(s.trace)[..j], q);
    assert SameStepSince(r.trace, r.moments, j, q);
  }

  lemma CutKeepsDealt(s: Stack, completed: seq<seq<RunnerId>>, k: nat, r: Race)
    requires |s.moments| == |s.items| == |s.trace| + 1 && SleepOk(s) && Tried(s, completed) && k <= |s.items|
    requires forall i :: k <= i < |s.items| ==> s.items[i].backtrack == {}
    requires Dealt(r, s, completed)
    ensures k > 0 ==> Dealt(r, Cut(s, k - 1), completed + [Schedule(s.trace)])
    ensures k == 0 ==> Answered(r, completed + [Schedule(s.trace)])
  {
    hide Answered, SleepOk, Tried, AllTaken, Planned, EnabledIn;
    if Answered(r, completed) {
      MoreAnswers(r, completed, Schedule(s.trace));
    } else if |r.trace| >= k {
      TraceIsTaken(s, completed);
      ExhaustedIsAnswered(s, completed + [Schedule(s.trace)], r);
    } else {
      assert Open(r, Cut(s, k - 1));
    }
  }

  // --- All races ---

  /** Every race along the path is answered, or its answer is planned. */
  ghost predicate DealtAlong(clocks: seq<Clocks>, trace: Trace, moments: seq<Moment>, s: Stack, completed: seq<seq<RunnerId>>) {
    forall t: nat, q, i: nat :: IsRace(clocks, trace, moments, t, q, i) ==>
      Dealt(RaceAt(clocks, trace, moments, t, q, i), s, completed)
  }

  ghost predicate AnsweredAlong(clocks: seq<Clocks>, trace: Trace, moments: seq<Moment>, completed: seq<seq<RunnerId>>) {
    forall t: nat, q, i: nat :: IsRace(clocks, trace, moments, t, q, i) ==>
      Answered(RaceAt(clocks, trace, moments, t, q, i), completed)
  }

  /** The path of a schedule. */
  ghost predicate PathOf(start: Moment, target: Target, c: seq<RunnerId>, trace: Trace, moments: seq<Moment>) {
    PathOk(start, target, trace, moments) && Schedule(trace) == c
  }

  /** What holds of the races at every loop head; `clockings` are the clocks along the
      schedules completed. */
  ghost predicate RacesDealt(start: Moment, target: Target, s: Stack, completed: seq<seq<RunnerId>>, clockings: seq<seq<Clocks>>) {
    && |clockings| == |completed| && ClocksOk(s)
    && DealtAlong(ClocksOf(s), s.trace, s.moments, s, completed)
    && forall n, trace, moments :: 0 <= n < |completed| && PathOf(start, target, completed[n], trace, moments) ==>
         AsComputed(clockings[n], trace, moments) && DealtAlong(clockings[n], trace, moments, s, completed)
  }

  /** What holds of the races when the search is over. */
  ghost predicate RacesAnswered(start: Moment, target: Target, completed: seq<seq<RunnerId>>, clockings: seq<seq<Clocks>>) {
    && |clockings| == |completed|
    && forall n, trace, moments :: 0 <= n < |completed| && PathOf(start, target, completed[n], trace, moments) ==>
         AsComputed(clockings[n], trace, moments) && AnsweredAlong(clockings[n], trace, moments, completed)
  }

  lemma NoRacesYet(start: Moment, target: Target, enabled: set<RunnerId>)
    ensures RacesDealt(start, target, Stack([FirstItem(enabled)], [], [start]), [], [])
  {
    ClocksStart(start, enabled);
  }

  // --- A step ---

  /** The races that the newest step brings are handled. */
  ghost predicate Replans(s: Stack) {
    forall q, i: nat :: s.trace != [] && IsRace(ClocksOf(s), s.trace, s.moments, |s.trace| - 1, q, i) ==>
      i < |s.items| && Handled(s.items[i], Initials(ClocksOf(s)[|s.trace|], s.trace, i, q, s.items[i]))
  }

  lemma UpdatedReplans(items: seq<Item>, s: Stack, n: nat)
    requires |s.items| == |items| == |s.moments| == |s.trace| + 1 && s.trace != [] && AllSetsOk(items)
    requires var next := s.moments[|s.trace|].pending;
      && n <= 0x1_0000 && (forall q: RunnerId :: q in next <==> q < n) && s.trace[|s.trace| - 1].executor in next
      && s.items == Updated(items[|s.trace|].runnerClocks, items, s.trace, next, n)
    ensures Replans(s)
  {
    hide Reversible, Updated, Handled, Initials;
    var t, next, clocks := |s.trace| - 1, s.moments[|s.trace|].pending, items[|s.trace|].runnerClocks;
    assert s.trace[..t + 1] == s.trace;
    RacesAreHandled(clocks, items, s.trace, next, n);
    UpdatedBacktracksOnly(clocks, items, s.trace, next, n);
    assert ClocksOf(s)[|s.trace|] == clocks;
    forall q, i: nat | IsRace(ClocksOf(s), s.trace, s.moments, t, q, i)
      ensures i < |s.items| && Handled(s.items[i], Initials(clocks, s.trace, i, q, s.items[i]))
    {
      SameInitials(clocks, s.trace, i, q, s.items[i], items[i]);
    }
  }

  lemma SameInitials(clocks: Clocks, trace: Trace, i: nat, q: RunnerId, it: Item, it': Item)
    requires it.enabled == it'.enabled
    ensures Initials(clocks, trace, i, q, it) == Initials(clocks, trace, i, q, it')
  {
  }

  /** A race of a path is one of each longer path. */
  lemma SameRaces(clocks: seq<Clocks>, trace: Trace, moments: seq<Moment>,
                  clocks': seq<Clocks>, trace': Trace, moments': seq<Moment>, t: nat, q: RunnerId, i: nat)
    requires |clocks| == |moments| == |trace| + 1 && |clocks'| == |moments'| == |trace'| + 1
    requires clocks <= clocks' && trace <= trace' && moments <= moments' && t < |trace|
    ensures IsRace(clocks', trace', moments', t, q, i) <==> IsRace(clocks, trace, moments, t, q, i)
    ensures IsRace(clocks, trace, moments, t, q, i) ==>
              RaceAt(clocks', trace', moments', t, q, i) == RaceAt(clocks, trace, moments, t, q, i)
  {
    hide Reversible, LatestRace, EnabledIn, InitialsIn;
    assert trace'[..t + 1] == trace[..t + 1];
    if IsRace(clocks, trace, moments, t, q, i) {
      assert trace'[..i] == trace[..i] && moments'[..i + 1] == moments[..i + 1];
    }
  }

  /** The items have cached who is enabled. */
  ghost predicate CachesEnabled(s: Stack) {
    && |s.moments| == |s.items| == |s.trace| + 1
    && forall k :: 0 <= k < |s.items| ==> s.items[k].enabled == EnabledIn(s.moments[k])
  }

  lemma HandledIsOpen(s: Stack, q: RunnerId, i: nat)
    requires CachesEnabled(s) && s.trace != [] && Replans(s)
    requires IsRace(ClocksOf(s), s.trace, s.moments, |s.trace| - 1, q, i)
    ensures Open(RaceAt(ClocksOf(s), s.trace, s.moments, |s.trace| - 1, q, i), s)
  {
    hide Reversible, LatestRace, EnabledIn, InitialsIn;
    var r := RaceAt(ClocksOf(s), s.trace, s.moments, |s.trace| - 1, q, i);
    assert s.trace[..|s.trace|] == s.trace;
    assert r.e == Initials(ClocksOf(s)[|s.trace|], s.trace, i, q, s.items[i]);
    HandledIsPlanned(s.items[i], r.e);
  }

  lemma HandledIsPlanned(it: Item, e: set<RunnerId>)
    requires Handled(it, e)
    ensures Planned(it, e)
  {
    if q :| q in e * it.backtrack {
      assert q in e * (it.backtrack + it.done);
    }
  }

  lemma StepDealsAlong(clocks: seq<Clocks>, trace: Trace, moments: seq<Moment>,
                       s: Stack, p: RunnerId, op: Transition, s': Stack, completed: seq<seq<RunnerId>>)
    requires |s.moments| == |s.items| == |s.trace| + 1 && CanRun(s.moments[|s.trace|], p)
    requires s.moments[|s.trace|].pending[p].executor == p && SteppedTo(s, p, op, s')
    requires DealtAlong(clocks, trace, moments, s, completed)
    ensures DealtAlong(clocks, trace, moments, s', completed)
  {
    hide IsRace, RaceAt, Dealt, CanRun, SteppedTo;
    forall t: nat, q, i: nat | IsRace(clocks, trace, moments, t, q, i)
      ensures i <= t < |trace| && |clocks| == |moments| == |trace| + 1
      ensures Dealt(RaceAt(clocks, trace, moments, t, q, i), s', completed)
    {
      RaceShape(clocks, trace, moments, t, q, i);
      StepKeepsDealt(s, p, op, s', completed, RaceAt(clocks, trace, moments, t, q, i));
    }
  }

  lemma RaceShape(clocks: seq<Clocks>, trace: Trace, moments: seq<Moment>, t: nat, q: RunnerId, i: nat)
    requires IsRace(clocks, trace, moments, t, q, i)
    ensures i <= t < |trace| && |clocks| == |moments| == |trace| + 1
  {
  }

  /** No race is one with the first step. */
  lemma RaceIsLater(clocks: seq<Clocks>, trace: Trace, moments: seq<Moment>, t: nat, q: RunnerId, i: nat)
    requires IsRace(clocks, trace, moments, t, q, i)
    ensures i >= 1
  {
    FirstStepIsBefore(clocks[t + 1], trace[..t + 1], moments[t + 1].pending[q], q);
  }

  /** One step of the search: the races it brings are handled, and those before stay so. */
  lemma StepDeals(start: Moment, target: Target, s: Stack, p: RunnerId, op: Transition, s': Stack,
                  completed: seq<seq<RunnerId>>, clockings: seq<seq<Clocks>>)
    requires |s.moments| == |s.items| == |s.trace| + 1 && CanRun(s.moments[|s.trace|], p)
    requires s.moments[|s.trace|].pending[p].executor == p && SteppedTo(s, p, op, s')
    requires CachesEnabled(s') && Replans(s')
    requires RacesDealt(start, target, s, completed, clockings)
    ensures RacesDealt(start, target, s', completed, clockings)
  {
    hide DealtAlong, CanRun, SteppedTo, CachesEnabled, Replans, PathOf, EnabledIn, AsComputed, ClocksOk;
    forall n, trace, moments | 0 <= n < |completed| && PathOf(start, target, completed[n], trace, moments)
      ensures DealtAlong(clockings[n], trace, moments, s', completed)
    {
      StepDealsAlong(clockings[n], trace, moments, s, p, op, s', completed);
    }
    StepKeepsClocks(s, p, op, s');
    StepDealsAlong(ClocksOf(s), s.trace, s.moments, s, p, op, s', completed);
    NewestDealt(s, p, op, s', completed);
  }

  lemma SteppedClocks(s: Stack, p: RunnerId, op: Transition, s': Stack)
    requires |s.moments| == |s.items| == |s.trace| + 1 && CanRun(s.moments[|s.trace|], p) && SteppedTo(s, p, op, s')
    ensures s.trace <= s'.trace && s.moments <= s'.moments && |s'.trace| == |s.trace| + 1 == |s'.moments| - 1
    ensures ClocksOf(s) <= ClocksOf(s') && |ClocksOf(s)| == |s.items| && |ClocksOf(s')| == |s.items| + 1
  {
    hide CanRun, StepClock;
  }

  lemma NewestDealt(s: Stack, p: RunnerId, op: Transition, s': Stack, completed: seq<seq<RunnerId>>)
    requires |s.moments| == |s.items| == |s.trace| + 1 && CanRun(s.moments[|s.trace|], p) && SteppedTo(s, p, op, s')
    requires CachesEnabled(s') && Replans(s')
    requires DealtAlong(ClocksOf(s), s.trace, s.moments, s', completed)
    ensures DealtAlong(ClocksOf(s'), s'.trace, s'.moments, s', completed)
  {
    hide IsRace, RaceAt, Dealt, CanRun, SteppedTo, CachesEnabled, Replans, ClocksOf;
    SteppedClocks(s, p, op, s');
    var clocks, clocks' := ClocksOf(s), ClocksOf(s');
    forall t: nat, q, i: nat | IsRace(clocks', s'.trace, s'.moments, t, q, i)
      ensures i <= t < |s'.trace| && Dealt(RaceAt(clocks', s'.trace, s'.moments, t, q, i), s', completed)
    {
      RaceShape(clocks', s'.trace, s'.moments, t, q, i);
      if t < |s.trace| {
        SameRaces(clocks, s.trace, s.moments, clocks', s'.trace, s'.moments, t, q, i);
      } else {
        HandledIsOpen(s', q, i);
        OpenIsDealt(RaceAt(clocks', s'.trace, s'.moments, t, q, i), s', completed);
      }
    }
  }

  lemma OpenIsDealt(r: Race, s: Stack, completed: seq<seq<RunnerId>>)
    requires Open(r, s)
    ensures Dealt(r, s, completed)
  {
  }

  // --- Between two traces ---

  /** A schedule has one path. */
  lemma PathIsUnique(start: Moment, target: Target, trace: Trace, moments: seq<Moment>, trace': Trace, moments': seq<Moment>)
    requires PathOk(start, target, trace, moments) && PathOk(start, target, trace', moments')
    requires Schedule(trace) == Schedule(trace')
    ensures trace == trace' && moments == moments'
  {
    hide Run, CanRun;
    assert |trace| == |trace'|;
    forall k | 0 <= k <= |trace| ensures moments[k] == moments'[k] {
      PathIsRun(start, target, trace, moments, k);
      PathIsRun(start, target, trace', moments', k);
    }
    forall k | 0 <= k < |trace| ensures trace[k] == trace'[k] {
      assert StepOk(target, trace, moments, k) && StepOk(target, trace', moments', k);
      assert trace[k].executor == Schedule(trace)[k] == trace'[k].executor;
    }
  }

  /** What a complete trace leaves of the races along a path, when the items from `k` on
      have nothing left to try. */
  ghost predicate LeftAlong(clocks: seq<Clocks>, trace: Trace, moments: seq<Moment>,
                            s: Stack, completed: seq<seq<RunnerId>>, k: nat)
    requires k <= |s.trace| + 1 && |s.moments| == |s.items| == |s.trace| + 1
  {
    if k > 0 then DealtAlong(clocks, trace, moments, Cut(s, k - 1), completed)
    else AnsweredAlong(clocks, trace, moments, completed)
  }

  lemma CutDealsAlong(clocks: seq<Clocks>, trace: Trace, moments: seq<Moment>, s: Stack, completed: seq<seq<RunnerId>>, k: nat)
    requires |s.moments| == |s.items| == |s.trace| + 1 && SleepOk(s) && Tried(s, completed) && k <= |s.items|
    requires forall i :: k <= i < |s.items| ==> s.items[i].backtrack == {}
    requires DealtAlong(clocks, trace, moments, s, completed)
    ensures LeftAlong(clocks, trace, moments, s, completed + [Schedule(s.trace)], k)
  {
    hide IsRace, RaceAt, Dealt, Answered, SleepOk, Tried;
    forall t: nat, q, i: nat | IsRace(clocks, trace, moments, t, q, i)
      ensures i <= t < |trace| && |clocks| == |moments| == |trace| + 1
      ensures var r := RaceAt(clocks, trace, moments, t, q, i);
        if k > 0 then Dealt(r, Cut(s, k - 1), completed + [Schedule(s.trace)]) else Answered(r, completed + [Schedule(s.trace)])
    {
      RaceShape(clocks, trace, moments, t, q, i);
      CutKeepsDealt(s, completed, k, RaceAt(clocks, trace, moments, t, q, i));
    }
  }

  lemma CutPathDeals(clocks: seq<Clocks>, trace: Trace, moments: seq<Moment>, s: Stack, completed: seq<seq<RunnerId>>, k: nat)
    requires |clocks| == |moments| == |trace| + 1 && k <= |trace|
    requires DealtAlong(clocks, trace, moments, s, completed)
    ensures DealtAlong(clocks[..k + 1], trace[..k], moments[..k + 1], s, completed)
  {
    hide IsRace, RaceAt, Dealt;
    var clocks', trace', moments' := clocks[..k + 1], trace[..k], moments[..k + 1];
    forall t: nat, q, i: nat | IsRace(clocks', trace', moments', t, q, i)
      ensures i <= t < k && Dealt(RaceAt(clocks', trace', moments', t, q, i), s, completed)
    {
      RaceShape(clocks', trace', moments', t, q, i);
      SameRaces(clocks', trace', moments', clocks, trace, moments, t, q, i);
    }
  }

  /** The current trace has the path of its schedule, with the clocks on the stack. */
  lemma CurrentPath(start: Moment, target: Target, s: Stack, trace: Trace, moments: seq<Moment>)
    requires PathOk(start, target, s.trace, s.moments) && PathOf(start, target, Schedule(s.trace), trace, moments)
    ensures trace == s.trace && moments == s.moments
  {
    PathIsUnique(start, target, trace, moments, s.trace, s.moments);
  }

  /** What a complete trace leaves of the races along the completed schedules, its own among them. */
  lemma SchedulesLeft(start: Moment, target: Target, s: Stack, completed: seq<seq<RunnerId>>, clockings: seq<seq<Clocks>>,
                      k: nat, n: nat, trace: Trace, moments: seq<Moment>)
    requires PathOk(start, target, s.trace, s.moments) && |s.moments| == |s.items| && SleepOk(s) && Tried(s, completed)
    requires RacesDealt(start, target, s, completed, clockings) && k <= |s.items| && n <= |completed|
    requires forall i :: k <= i < |s.items| ==> s.items[i].backtrack == {}
    requires PathOf(start, target, (completed + [Schedule(s.trace)])[n], trace, moments)
    ensures AsComputed((clockings + [ClocksOf(s)])[n], trace, moments)
    ensures LeftAlong((clockings + [ClocksOf(s)])[n], trace, moments, s, completed + [Schedule(s.trace)], k)
  {
    hide DealtAlong, LeftAlong, Tried, SleepOk, PathOf, AsComputed, PathOk;
    if n < |completed| {
      CutDealsAlong(clockings[n], trace, moments, s, completed, k);
    } else {
      CurrentPath(start, target, s, trace, moments);
      CutDealsAlong(ClocksOf(s), s.trace, s.moments, s, completed, k);
    }
  }

  /** A complete trace answers the races that are open at the items it leaves. */
  lemma TraceDeals(start: Moment, target: Target, s: Stack, completed: seq<seq<RunnerId>>, clockings: seq<seq<Clocks>>, k: nat)
    requires PathOk(start, target, s.trace, s.moments) && |s.moments| == |s.items| && SleepOk(s) && Tried(s, completed)
    requires RacesDealt(start, target, s, completed, clockings) && 2 <= k <= |s.trace|
    requires forall i :: k <= i < |s.items| ==> s.items[i].backtrack == {}
    ensures RacesDealt(start, target, Cut(s, k - 1), completed + [Schedule(s.trace)], clockings + [ClocksOf(s)])
  {
    hide DealtAlong, LeftAlong, Tried, SleepOk, PathOf, AsComputed, PathOk, ClocksOf, Cut;
    var c, completed', clockings' := Cut(s, k - 1), completed + [Schedule(s.trace)], clockings + [ClocksOf(s)];
    OwnRacesLeft(start, target, s, completed, k);
    forall n, trace, moments | 0 <= n < |completed'| && PathOf(start, target, completed'[n], trace, moments)
      ensures AsComputed(clockings'[n], trace, moments) && DealtAlong(clockings'[n], trace, moments, c, completed')
    {
      SchedulesLeft(start, target, s, completed, clockings, k, n, trace, moments);
      LeftIsDealt(clockings'[n], trace, moments, s, completed', k);
    }
  }

  lemma LeftIsDealt(clocks: seq<Clocks>, trace: Trace, moments: seq<Moment>, s: Stack, completed: seq<seq<RunnerId>>, k: nat)
    requires 0 < k <= |s.trace| + 1 && |s.moments| == |s.items| == |s.trace| + 1
    requires LeftAlong(clocks, trace, moments, s, completed, k)
    ensures DealtAlong(clocks, trace, moments, Cut(s, k - 1), completed)
  {
  }

  lemma OwnRacesLeft(start: Moment, target: Target, s: Stack, completed: seq<seq<RunnerId>>, k: nat)
    requires PathOk(start, target, s.trace, s.moments) && ClocksOk(s) && SleepOk(s) && Tried(s, completed)
    requires DealtAlong(ClocksOf(s), s.trace, s.moments, s, completed) && 2 <= k <= |s.trace|
    requires forall i :: k <= i < |s.items| ==> s.items[i].backtrack == {}
    ensures var c := Cut(s, k - 1);
      ClocksOk(c) && DealtAlong(ClocksOf(c), c.trace, c.moments, c, completed + [Schedule(s.trace)])
  {
    hide DealtAlong, LeftAlong, Tried, SleepOk, PathOk, ClocksOf, AsComputed, ClockInto, MayBeOut;
    CutClocked(start, target, s, k - 1);
    ClocksSize(s);
    CutDealsAlong(ClocksOf(s), s.trace, s.moments, s, completed, k);
    LeftIsDealt(ClocksOf(s), s.trace, s.moments, s, completed + [Schedule(s.trace)], k);
    CutPathDeals(ClocksOf(s), s.trace, s.moments, Cut(s, k - 1), completed + [Schedule(s.trace)], k - 1);
  }

  lemma CutClocked(start: Moment, target: Target, s: Stack, n: nat)
    requires ClocksOk(s) && PathOk(start, target, s.trace, s.moments) && 1 <= n < |s.trace|
    ensures ClocksOk(Cut(s, n)) && ClocksOf(Cut(s, n)) == ClocksOf(s)[..n + 1]
  {
    CutKeepsClocks(start, target, s, n);
    hide ClocksOk, PathOk;
  }

  /** The last trace answers whatever is open. */
  lemma LastTraceAnswers(start: Moment, target: Target, s: Stack, completed: seq<seq<RunnerId>>, clockings: seq<seq<Clocks>>)
    requires PathOk(start, target, s.trace, s.moments) && |s.moments| == |s.items| && SleepOk(s) && Tried(s, completed)
    requires RacesDealt(start, target, s, completed, clockings)
    requires forall i :: 0 <= i < |s.items| ==> s.items[i].backtrack == {}
    ensures RacesAnswered(start, target, completed + [Schedule(s.trace)], clockings + [ClocksOf(s)])
  {
    hide DealtAlong, AnsweredAlong, Tried, SleepOk, PathOf, AsComputed, PathOk, ClocksOf, ClocksOk;
    forall n, trace, moments | 0 <= n <= |completed| && PathOf(start, target, (completed + [Schedule(s.trace)])[n], trace, moments)
      ensures AsComputed((clockings + [ClocksOf(s)])[n], trace, moments)
      ensures AnsweredAlong((clockings + [ClocksOf(s)])[n], trace, moments, completed + [Schedule(s.trace)])
    {
      SchedulesLeft(start, target, s, completed, clockings, 0, n, trace, moments);
    }
  }

  // --- What it is for ---

  /** Every race along every completed schedule was answered, for the clocks that the
      explorer computed along it. */
  ghost predicate AllAnswered(start: Moment, target: Target, completed: seq<seq<RunnerId>>) {
    exists clockings :: RacesAnswered(start, target, completed, clockings)
  }

  /** While `q` waits, another runner takes step `i`, which is not the first, and the two
      steps are declared dependent and co-enabled. */
  ghost predicate Contends(trace: Trace, moments: seq<Moment>, i: nat, q: RunnerId) {
    && 1 <= i < |trace| && |moments| == |trace| + 1
    && q != trace[i].executor && q in moments[i].pending
    && AreDependent(moments[i].pending[q], trace[i]) && AreCoenabled(moments[i].pending[q], trace[i])
  }

  /** What an answer to it is: `q` ran there instead, or slept; when it could not run, this
      holds of everyone who could. No clock has a say in it. */
  ghost predicate Contested(completed: seq<seq<RunnerId>>, trace: Trace, moments: seq<Moment>, i: nat, q: RunnerId)
    requires i < |trace| && |moments| == |trace| + 1
  {
    forall r :: r in EnabledIn(moments[i]) && (r == q || q !in EnabledIn(moments[i])) ==>
      RanOrSlept(completed, trace[..i], moments[..i + 1], r)
  }

  ghost predicate ContentionAnswered(start: Moment, target: Target, completed: seq<seq<RunnerId>>) {
    forall c, trace, moments, i: nat, q ::
      c in completed && PathOf(start, target, c, trace, moments) && Contends(trace, moments, i, q) ==>
        Contested(completed, trace, moments, i, q)
  }

  /** Whatever the clocks are, the update after step `i` finds a race for the waiting runner. */
  lemma ContentionIsRace(clocks: seq<Clocks>, trace: Trace, moments: seq<Moment>, i: nat, q: RunnerId)
    requires AsComputed(clocks, trace, moments) && Contends(trace, moments, i, q)
    requires q in moments[i + 1].pending && moments[i + 1].pending[q] == moments[i].pending[q]
    ensures IsRace(clocks, trace, moments, i, q, i)
    ensures RaceAt(clocks, trace, moments, i, q, i).e == EnabledIn(moments[i]) * {q}
  {
    hide StepIsClocked, AreDependent, AreCoenabled, EnabledIn, HappensBeforeThread;
    WaitingIsNotAfter(clocks, trace, moments, i, q);
    assert trace[..i + 1][i] == trace[i];
  }

  lemma WaitersStay(target: Target, trace: Trace, moments: seq<Moment>, i: nat, q: RunnerId)
    requires i < |trace| < |moments| && StepOk(target, trace, moments, i)
    requires q in moments[i].pending && q != trace[i].executor
    ensures q in moments[i + 1].pending && moments[i + 1].pending[q] == moments[i].pending[q]
  {
    hide CanRun;
  }

  /** At the end of a search every contention along every completed schedule was answered. */
  lemma ContentionIsAnswered(start: Moment, target: Target, completed: seq<seq<RunnerId>>)
    requires AllAnswered(start, target, completed)
    ensures ContentionAnswered(start, target, completed)
  {
    hide PathOf, StepIsClocked, RanOrSlept, AnsweredAlong, EnabledIn, AreDependent, AreCoenabled, Contested;
    var clockings :| RacesAnswered(start, target, completed, clockings);
    forall c, trace, moments, i: nat, q | c in completed && PathOf(start, target, c, trace, moments) && Contends(trace, moments, i, q)
      ensures i < |trace| && |moments| == |trace| + 1 && Contested(completed, trace, moments, i, q)
    {
      var n: nat :| n < |completed| && completed[n] == c;
      ContenderIsAnswered(start, target, c, clockings[n], trace, moments, completed, i, q);
    }
  }

  lemma ContenderIsAnswered(start: Moment, target: Target, c: seq<RunnerId>, clocks: seq<Clocks>, trace: Trace, moments: seq<Moment>,
                            completed: seq<seq<RunnerId>>, i: nat, q: RunnerId)
    requires PathOf(start, target, c, trace, moments) && Contends(trace, moments, i, q)
    requires AsComputed(clocks, trace, moments) && AnsweredAlong(clocks, trace, moments, completed)
    ensures Contested(completed, trace, moments, i, q)
  {
    hide StepIsClocked, EnabledIn, IsRace, StepOk, RanOrSlept, AreDependent, AreCoenabled;
    assert StepOk(target, trace, moments, i);
    WaitersStay(target, trace, moments, i, q);
    ContentionIsRace(clocks, trace, moments, i, q);
    var r := RaceAt(clocks, trace, moments, i, q, i);
    assert Answered(r, completed);
    if x :| x in r.e && TookNext(completed, Schedule(r.trace), x) {
      RanThere(completed, r.trace, r.moments, q);
    }
  }

  lemma RanThere(completed: seq<seq<RunnerId>>, trace: Trace, moments: seq<Moment>, q: RunnerId)
    requires |moments| == |trace| + 1 && q in EnabledIn(moments[|trace|]) && TookNext(completed, Schedule(trace), q)
    ensures RanOrSlept(completed, trace, moments, q)
  {
    assert Schedule(trace)[..|trace|] == Schedule(trace);
    assert SameStepSince(trace, moments, |trace|, q);
  }

  lemma LatestExists(clocks: Clocks, trace: Trace, k: nat, next: Transition, p: RunnerId, i: nat) returns (j: nat)
    requires i < k <= |trace| && Reversible(clocks, trace, i, next, p)
    ensures i <= j < k && LatestRace(clocks, trace, k, next, p, j)
  {
    hide Reversible;
    j := k - 1;
    while !Reversible(clocks, trace, j, next, p)
      invariant i <= j < k && forall m :: j < m < k ==> !Reversible(clocks, trace, m, next, p)
      decreases j
    {
      j := j - 1;
    }
  }

  /** After its step `t` a runner is about to take one that is dependent on and co-enabled
      with step `i` of the past, of which its clock knows nothing: the race with that step or
      with a later one was answered. */
  lemma PastContentionIsAnswered(clocks: seq<Clocks>, trace: Trace, moments: seq<Moment>, completed: seq<seq<RunnerId>>, t: nat, i: nat)
    requires |clocks| == |moments| == |trace| + 1 && AnsweredAlong(clocks, trace, moments, completed)
    requires i < t < |trace| && trace[t].executor in moments[t + 1].pending
    requires var p := trace[t].executor; var next := moments[t + 1].pending[p];
      && AreDependent(next, trace[i]) && AreCoenabled(next, trace[i])
      && ValueFor(ClockOf(clocks[t + 1], p), trace[i].executor) < i
    ensures exists k: nat :: i <= k < t && Answered(RaceAt(clocks, trace, moments, t, trace[t].executor, k), completed)
  {
    hide AreDependent, AreCoenabled, Answered, EnabledIn, InitialsIn;
    var p := trace[t].executor;
    assert trace[..t + 1][i] == trace[i];
    var k := LatestExists(clocks[t + 1], trace[..t + 1], t, moments[t + 1].pending[p], p, i);
    assert IsRace(clocks, trace, moments, t, p, k);
  }

  /** Step `i`, which is not the first, and what `q` could have done there do not commute.
      They are not both condition-variable operations, and creates name runners not yet
      started. */
  ghost predicate Conflicts(trace: Trace, moments: seq<Moment>, i: nat, q: RunnerId) {
    && 1 <= i < |trace| && |moments| == |trace| + 1
    && q != trace[i].executor && q in EnabledIn(moments[i]) && WellTyped(trace[i], moments[i].state)
    && Opposed(trace[i], moments[i].pending[q], moments[i].state)
  }

  ghost predicate Opposed(a: Transition, b: Transition, s: State)
    requires WellTyped(a, s) && WellTyped(b, s)
  {
    CreatesEmbryo(a, s) && CreatesEmbryo(b, s) && !(OnCv(a) && OnCv(b)) && !Commute(a, b, s)
  }

  ghost predicate ConflictsAnswered(start: Moment, target: Target, completed: seq<seq<RunnerId>>) {
    forall c, trace, moments, i: nat, q ::
      c in completed && PathOf(start, target, c, trace, moments) && Conflicts(trace, moments, i, q) ==>
        RanOrSlept(completed, trace[..i], moments[..i + 1], q)
  }

  /** Steps that do not commute are declared dependent and co-enabled. */
  lemma OpposedAreRelated(a: Transition, b: Transition, s: State)
    requires WellFormed(s) && WellTyped(a, s) && WellTyped(b, s) && Enabled(a, s) && Enabled(b, s)
    requires a.executor != b.executor && Opposed(a, b, s)
    ensures AreDependent(b, a) && AreCoenabled(b, a)
  {
    hide AreDependent, AreCoenabled, WellFormed, Commute, WellTyped, Modify;
    if !AreDependent(b, a) {
      IndependenceIsValid(a, b, s);
    }
    if !AreCoenabled(b, a) {
      NeverBothEnabled(b, a, s);
    }
  }

  lemma ConflictContends(start: Moment, target: Target, trace: Trace, moments: seq<Moment>, i: nat, q: RunnerId)
    requires MomentOk(start) && Faithful(target, start) && WellFormed(start.state)
    requires PathOk(start, target, trace, moments) && Conflicts(trace, moments, i, q)
    ensures Contends(trace, moments, i, q)
  {
    hide AreDependent, AreCoenabled, Opposed, WellTyped, Enabled, Faithful;
    PathTyped(start, target, trace, moments, i);
    assert StepOk(target, trace, moments, i);
    assert q in moments[i].pending && moments[i].pending[q].executor == q;
    OpposedAreRelated(trace[i], moments[i].pending[q], moments[i].state);
  }

  /** Where the steps themselves do not commute, no table has a say in it either: along
      every completed schedule the runner that could have gone first did, or slept. */
  lemma ConflictsAreAnswered(start: Moment, target: Target, completed: seq<seq<RunnerId>>)
    requires MomentOk(start) && Faithful(target, start) && WellFormed(start.state)
    requires ContentionAnswered(start, target, completed)
    ensures ConflictsAnswered(start, target, completed)
  {
    hide MomentOk, Faithful, WellFormed, Contends, RanOrSlept, Opposed, EnabledIn, PathOk, WellTyped;
    forall c, trace, moments, i: nat, q | c in completed && PathOf(start, target, c, trace, moments) && Conflicts(trace, moments, i, q)
      ensures i < |trace| && |moments| == |trace| + 1 && RanOrSlept(completed, trace[..i], moments[..i + 1], q)
    {
      ConflictContends(start, target, trace, moments, i, q);
      assert Contested(completed, trace, moments, i, q);
    }
  }

  /** Each run has a path, so each completed schedule has races to speak of. */
  lemma {:induction false} RunHasPath(start: Moment, target: Target, c: seq<RunnerId>)
    returns (trace: Trace, moments: seq<Moment>)
    requires MomentOk(start) && Faithful(target, start) && Run(start, target, c).Some?
    ensures PathOk(start, target, trace, moments) && Schedule(trace) == c && moments[|trace|] == Run(start, target, c).value
  {
    hide CanRun, WellTyped;
    if c == [] {
      return [], [start];
    }
    var n := |c| - 1;
    trace, moments := RunHasPath(start, target, c[..n]);
    PathTyped(start, target, trace, moments, n);
    var m, op := moments[n], target(c).op;
    assert CanRun(m, c[n]) && m.pending[c[n]].executor == c[n] && Schedule(trace) + [c[n]] == c by { CanRunIsPending(m, c[n]); }
    PathExtends(start, target, trace, moments, c[n], op);
    trace, moments := trace + [m.pending[c[n]]], moments + [Advance(m, c[n], op)];
    assert Schedule(trace) == c;
  }

  lemma CanRunIsPending(m: Moment, p: RunnerId)
    requires CanRun(m, p) && MomentOk(m)
    ensures p in m.pending && m.pending[p].executor == p
  {
  }
}
