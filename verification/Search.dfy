/**
 * The search as a whole: what holds at every loop head, why no schedule is explored
 * twice, why a sleeping runner need not run, and why the search ends.
 */
module Search {
  import opened Basics
  import opened ClockVectors
  import opened Transitions
  import opened Dependency
  import opened ProgramSpec
  import opened ExplorerSpec

  /** The search stack next to the trace and the moments it refers to. */
  datatype Stack = Stack(items: seq<Item>, trace: Trace, moments: seq<Moment>)

  /** `p` sleeps at `k` because it ran from some `j` at or below `k`, with the same
      pending step, and every step from `j` on was independent of that step. */
  ghost predicate Justified(s: Stack, k: nat, p: RunnerId, j: nat)
    requires k < |s.items| && |s.moments| == |s.items| == |s.trace| + 1
  {
    && j <= k
    && p in s.items[j].done
    && p in s.moments[j].pending && p in s.moments[k].pending
    && s.moments[k].pending[p] == s.moments[j].pending[p]
    && forall i :: j <= i < k ==> !AreDependent(s.moments[j].pending[p], s.trace[i])
  }

  ghost predicate SleepOk(s: Stack)
    requires |s.moments| == |s.items| == |s.trace| + 1
  {
    forall k, p :: 0 <= k < |s.items| && p in s.items[k].sleep ==> exists j: nat :: Justified(s, k, p, j)
  }

  /** Who goes on sleeping at `k`: the sleepers below whose step is independent of the one taken. */
  function Inherited(s: Stack, k: nat): set<RunnerId>
    requires k < |s.items| && |s.moments| == |s.items| == |s.trace| + 1
  {
    if k == 0 then {} else
      set p | p in s.items[k - 1].sleep && p in s.moments[k].pending && !AreDependent(s.moments[k].pending[p], s.trace[k - 1])
  }

  ghost predicate SleepExactAt(s: Stack, k: nat)
    requires k < |s.items| && |s.moments| == |s.items| == |s.trace| + 1
  {
    s.items[k].sleep == s.items[k].done + Inherited(s, k)
  }

  /** A runner sleeps exactly when it is done or was inherited. */
  ghost predicate SleepExact(s: Stack)
    requires |s.moments| == |s.items| == |s.trace| + 1
  {
    forall k :: 0 <= k < |s.items| ==> SleepExactAt(s, k)
  }

  /** Every completed schedule that agrees with the current one up to depth `k` went on
      from there with a runner that is done at `k`. */
  ghost predicate ExploredAt(s: Stack, completed: seq<seq<RunnerId>>, k: nat)
    requires k < |s.items| == |s.trace| + 1
  {
    forall c :: c in completed && Schedule(s.trace)[..k] <= c ==> k < |c| && c[k] in s.items[k].done
  }

  ghost predicate Explored(s: Stack, completed: seq<seq<RunnerId>>, n: nat)
    requires n <= |s.items| == |s.trace| + 1
  {
    forall k :: 0 <= k < n ==> ExploredAt(s, completed, k)
  }

  /** `p` was run at `k`: it is the runner taken there, or some completed schedule took it. */
  ghost predicate TriedAt(s: Stack, completed: seq<seq<RunnerId>>, k: nat, p: RunnerId)
    requires k < |s.items| == |s.trace| + 1
  {
    || (k < |s.trace| && s.trace[k].executor == p)
    || TookNext(completed, Schedule(s.trace)[..k], p)
  }

  ghost predicate TookNext(completed: seq<seq<RunnerId>>, prefix: seq<RunnerId>, p: RunnerId) {
    exists c :: c in completed && prefix + [p] <= c
  }

  /** Whoever is done was run. */
  ghost predicate Tried(s: Stack, completed: seq<seq<RunnerId>>)
    requires |s.items| == |s.trace| + 1
  {
    forall k, p :: 0 <= k < |s.items| && p in s.items[k].done ==> TriedAt(s, completed, k, p)
  }

  /** The first item has nothing planned, and only the first enabled runner was tried there. */
  ghost predicate FirstOnly(it: Item) {
    it.backtrack == {} && forall q :: q in it.done ==> it.enabled != {} && q == Least(it.enabled)
  }

  /** The items fit the path taken. */
  ghost predicate StackOk(start: Moment, target: Target, s: Stack) {
    && PathOk(start, target, s.trace, s.moments)
    && |s.items| == |s.moments|
    && AllSetsOk(s.items) && FirstOnly(s.items[0])
    && (forall k :: 0 <= k < |s.items| ==> s.items[k].enabled == EnabledIn(s.moments[k]))
    && (forall k :: 0 <= k < |s.trace| ==> s.trace[k].executor in s.items[k].done && s.items[k].out == Some(s.trace[k]))
    && SleepOk(s) && SleepExact(s)
  }

  /** The schedule is empty or begins with the smallest runner enabled at the start. */
  ghost predicate LeastFirst(start: Moment, c: seq<RunnerId>) {
    c != [] ==> EnabledIn(start) != {} && c[0] == Least(EnabledIn(start))
  }

  /** No schedule is completed twice, and each is a maximal run that begins with the
      smallest enabled runner. */
  ghost predicate CompletedOk(start: Moment, target: Target, completed: seq<seq<RunnerId>>) {
    Distinct(completed) && forall c :: c in completed ==> CompleteRun(start, target, c) && LeastFirst(start, c)
  }

  // --- One step of the search ---

  /** The last item's runner `p` executes and the stack grows. */
  function GrownBy(s: Stack, p: RunnerId, op: Transition): Stack
    requires |s.moments| == |s.items| == |s.trace| + 1 && CanRun(s.moments[|s.trace|], p)
  {
    var m := s.moments[|s.trace|];
    var m' := Advance(m, p, op);
    Stack(Grown(s.items, m.pending[p], m'.pending, EnabledIn(m')), s.trace + [m.pending[p]], s.moments + [m'])
  }

  /** `s'` is the grown stack, but for backtrack sets below the newest item. */
  ghost predicate SteppedTo(s: Stack, p: RunnerId, op: Transition, s': Stack)
    requires |s.moments| == |s.items| == |s.trace| + 1 && CanRun(s.moments[|s.trace|], p)
  {
    var g := GrownBy(s, p, op);
    && s' == g.(items := s'.items) && BacktracksOnly(g.items, s'.items)
    && s'.items[|s.items|] == g.items[|s.items|]
  }

  lemma GrownSleep(s: Stack, p: RunnerId, op: Transition)
    requires |s.moments| == |s.items| == |s.trace| + 1 && CanRun(s.moments[|s.trace|], p)
    requires s.moments[|s.trace|].pending[p].executor == p && op.executor == p
    requires SleepOk(s)
    ensures SleepOk(GrownBy(s, p, op))
  {
    hide StepClock;
    var g, n := GrownBy(s, p, op), |s.trace|;
    forall k, q | 0 <= k < |g.items| && q in g.items[k].sleep
      ensures exists j: nat :: Justified(g, k, q, j)
    {
      if k == n && q == p {
        assert Justified(g, n, p, n);
      } else if k <= n {
        assert q in s.items[k].sleep;
        var j: nat :| Justified(s, k, q, j);
        assert Justified(g, k, q, j);
      } else {
        assert q in s.items[n].sleep;
        var j: nat :| Justified(s, n, q, j);
        assert q != p;
        assert Justified(g, n + 1, q, j);
      }
    }
  }

  lemma GrownSleepExact(s: Stack, p: RunnerId, op: Transition)
    requires |s.moments| == |s.items| == |s.trace| + 1 && CanRun(s.moments[|s.trace|], p)
    requires s.moments[|s.trace|].pending[p].executor == p && op.executor == p
    requires SleepExact(s)
    ensures SleepExact(GrownBy(s, p, op))
  {
    hide CanRun;
    var g, n := GrownBy(s, p, op), |s.trace|;
    forall k | 0 <= k < |g.items| ensures SleepExactAt(g, k) {
      if k <= n {
        assert SleepExactAt(s, k);
        assert Inherited(g, k) == Inherited(s, k);
      } else {
        assert Inherited(g, n + 1) == g.items[n + 1].sleep;
      }
    }
  }

  lemma UpdateKeepsSleepExact(s: Stack, s': Stack)
    requires |s.moments| == |s.items| == |s.trace| + 1 && SleepExact(s)
    requires s' == s.(items := s'.items) && BacktracksOnly(s.items, s'.items)
    ensures SleepExact(s')
  {
    forall k | 0 <= k < |s'.items| ensures SleepExactAt(s', k) {
      assert SleepExactAt(s, k);
      assert Inherited(s', k) == Inherited(s, k);
    }
  }

  lemma UpdateKeepsSleep(s: Stack, s': Stack)
    requires |s.moments| == |s.items| == |s.trace| + 1 && SleepOk(s)
    requires s' == s.(items := s'.items) && BacktracksOnly(s.items, s'.items)
    ensures SleepOk(s')
  {
    forall k, p | 0 <= k < |s'.items| && p in s'.items[k].sleep
      ensures exists j: nat :: Justified(s', k, p, j)
    {
      var j: nat :| Justified(s, k, p, j);
      assert Justified(s', k, p, j);
    }
  }

  lemma GrownSets(s: Stack, p: RunnerId, op: Transition)
    requires |s.moments| == |s.items| == |s.trace| + 1 && CanRun(s.moments[|s.trace|], p)
    requires AllSetsOk(s.items) && p in s.items[|s.trace|].enabled
    requires s.moments[|s.trace|].pending[p].executor == p
    ensures AllSetsOk(GrownBy(s, p, op).items)
  {
    var g, n := GrownBy(s, p, op), |s.trace|;
    forall k | 0 <= k < |g.items| ensures SetsOk(g.items[k]) {
      if k < n {
        assert g.items[k] == s.items[k];
      }
    }
  }

  lemma GrownMatches(s: Stack, p: RunnerId, op: Transition)
    requires |s.moments| == |s.items| == |s.trace| + 1 && CanRun(s.moments[|s.trace|], p)
    requires s.moments[|s.trace|].pending[p].executor == p
    requires forall k :: 0 <= k < |s.items| ==> s.items[k].enabled == EnabledIn(s.moments[k])
    requires forall k :: 0 <= k < |s.trace| ==> s.trace[k].executor in s.items[k].done && s.items[k].out == Some(s.trace[k])
    ensures var g := GrownBy(s, p, op);
      && (forall k :: 0 <= k < |g.items| ==> g.items[k].enabled == EnabledIn(g.moments[k]))
      && (forall k :: 0 <= k < |g.trace| ==> g.trace[k].executor in g.items[k].done && g.items[k].out == Some(g.trace[k]))
  {
  }

  /** Only the smallest enabled runner takes the first step. */
  ghost predicate MayComeNext(s: Stack, p: RunnerId)
    requires |s.items| == |s.trace| + 1
  {
    && p in s.items[|s.trace|].enabled - s.items[|s.trace|].done
    && (s.trace == [] ==> p == Least(s.items[0].enabled))
  }

  lemma GrownFirst(s: Stack, p: RunnerId, op: Transition)
    requires |s.moments| == |s.items| == |s.trace| + 1 && CanRun(s.moments[|s.trace|], p)
    requires s.moments[|s.trace|].pending[p].executor == p && MayComeNext(s, p) && FirstOnly(s.items[0])
    ensures FirstOnly(GrownBy(s, p, op).items[0])
  {
  }

  lemma GrownOk(start: Moment, target: Target, s: Stack, p: RunnerId, op: Transition)
    requires StackOk(start, target, s) && MayComeNext(s, p) && CanRun(s.moments[|s.trace|], p)
    requires s.moments[|s.trace|].pending[p].executor == p && op.executor == p
    requires target(Schedule(s.trace) + [p]) == NextOp(op)
    ensures StackOk(start, target, GrownBy(s, p, op))
  {
    PathExtends(start, target, s.trace, s.moments, p, op);
    GrownSets(s, p, op);
    GrownFirst(s, p, op);
    GrownMatches(s, p, op);
    GrownSleep(s, p, op);
    GrownSleepExact(s, p, op);
  }

  /** A schedule that went through here before went on with another runner. */
  lemma GrownExplored(s: Stack, p: RunnerId, op: Transition, completed: seq<seq<RunnerId>>)
    requires |s.moments| == |s.items| == |s.trace| + 1 && CanRun(s.moments[|s.trace|], p)
    requires s.moments[|s.trace|].pending[p].executor == p && p !in s.items[|s.trace|].done
    requires Explored(s, completed, |s.items|)
    ensures Explored(GrownBy(s, p, op), completed, |s.items| + 1)
  {
    var g, n := GrownBy(s, p, op), |s.trace|;
    forall k | 0 <= k <= n + 1 ensures ExploredAt(g, completed, k) {
      forall c | c in completed && Schedule(g.trace)[..k] <= c ensures k < |c| && c[k] in g.items[k].done {
        var h := if k <= n then k else n;
        assert Schedule(g.trace)[..h] == Schedule(s.trace)[..h] <= c;
        assert ExploredAt(s, completed, h);
      }
    }
  }

  /** The runner taken is done, and has been taken. */
  lemma GrownTried(s: Stack, p: RunnerId, op: Transition, completed: seq<seq<RunnerId>>)
    requires |s.moments| == |s.items| == |s.trace| + 1 && CanRun(s.moments[|s.trace|], p)
    requires s.moments[|s.trace|].pending[p].executor == p && Tried(s, completed)
    ensures Tried(GrownBy(s, p, op), completed)
  {
    var g, n := GrownBy(s, p, op), |s.trace|;
    forall k, q | 0 <= k < |g.items| && q in g.items[k].done ensures TriedAt(g, completed, k, q) {
      if !(k == n && q == p) {
        assert TriedAt(s, completed, k, q);
        assert Schedule(g.trace)[..k] == Schedule(s.trace)[..k];
      }
    }
  }

  /** Updating backtrack sets keeps everything else. */
  lemma UpdateKeepsStack(start: Moment, target: Target, s: Stack, s': Stack, completed: seq<seq<RunnerId>>)
    requires StackOk(start, target, s) && Explored(s, completed, |s.items|) && Tried(s, completed)
    requires s' == s.(items := s'.items) && BacktracksOnly(s.items, s'.items)
    ensures StackOk(start, target, s') && Explored(s', completed, |s'.items|) && Tried(s', completed)
  {
    UpdateKeepsSleep(s, s');
    UpdateKeepsSleepExact(s, s');
    UpdateKeepsTried(s, s', completed);
    forall k | 0 <= k < |s'.items| ensures ExploredAt(s', completed, k) {
      assert ExploredAt(s, completed, k);
    }
  }

  lemma UpdateKeepsTried(s: Stack, s': Stack, completed: seq<seq<RunnerId>>)
    requires |s.items| == |s.trace| + 1 && Tried(s, completed)
    requires s' == s.(items := s'.items) && BacktracksOnly(s.items, s'.items)
    ensures Tried(s', completed)
  {
    forall k, p | 0 <= k < |s'.items| && p in s'.items[k].done ensures TriedAt(s', completed, k, p) {
      assert TriedAt(s, completed, k, p);
    }
  }

  /** One step of the search keeps every invariant. */
  lemma StepKeepsStack(start: Moment, target: Target, s: Stack, p: RunnerId, op: Transition, s': Stack,
                       completed: seq<seq<RunnerId>>)
    requires StackOk(start, target, s) && Explored(s, completed, |s.items|) && Tried(s, completed)
    requires MayComeNext(s, p) && CanRun(s.moments[|s.trace|], p)
    requires s.moments[|s.trace|].pending[p].executor == p && op.executor == p
    requires target(Schedule(s.trace) + [p]) == NextOp(op)
    requires SteppedTo(s, p, op, s')
    ensures StackOk(start, target, s') && Explored(s', completed, |s'.items|) && Tried(s', completed)
    ensures s'.items[|s.items|].done == s'.items[|s.items|].backtrack == {}
  {
    hide CanRun, SleepOk, SleepExact, AllSetsOk, StepOk, TriedAt, ExploredAt;
    GrownOk(start, target, s, p, op);
    GrownExplored(s, p, op, completed);
    GrownTried(s, p, op, completed);
    UpdateKeepsStack(start, target, GrownBy(s, p, op), s', completed);
  }

  /** Whether or not `p` was marked before it ran makes no difference. */
  lemma MarkedGrows(items: seq<Item>, t: Transition, next: Pending, enabled: set<RunnerId>)
    requires items != []
    ensures Grown(items[|items| - 1 := MarkSearched(items[|items| - 1], t.executor)], t, next, enabled) == Grown(items, t, next, enabled)
  {
    var n, p := |items| - 1, t.executor;
    var it := items[n];
    assert it.done + {p} + {p} == it.done + {p} && it.backtrack - {p} - {p} == it.backtrack - {p};
    assert Left(MarkSearched(it, p), t) == Left(it, t);
    SameAccumulated(items[n := MarkSearched(it, p)], items, t);
    assert Fresh(items[n := MarkSearched(it, p)], t, next, enabled) == Fresh(items, t, next, enabled);
  }

  // --- Between two traces ---

  /** The lowest `n + 1` items. */
  function Cut(s: Stack, n: nat): Stack
    requires n <= |s.trace| && |s.moments| == |s.items| == |s.trace| + 1
  {
    Stack(s.items[..n + 1], s.trace[..n], s.moments[..n + 1])
  }

  lemma CutSleep(s: Stack, n: nat)
    requires |s.moments| == |s.items| == |s.trace| + 1 && n <= |s.trace| && SleepOk(s)
    ensures SleepOk(Cut(s, n))
  {
    var c := Cut(s, n);
    forall k, p | 0 <= k <= n && p in c.items[k].sleep ensures exists j: nat :: Justified(c, k, p, j) {
      var j: nat :| Justified(s, k, p, j);
      assert Justified(c, k, p, j);
    }
  }

  lemma CutSleepExact(s: Stack, n: nat)
    requires |s.moments| == |s.items| == |s.trace| + 1 && n <= |s.trace| && SleepExact(s)
    ensures SleepExact(Cut(s, n))
  {
    forall k | 0 <= k <= n ensures SleepExactAt(Cut(s, n), k) {
      assert SleepExactAt(s, k);
      assert Inherited(Cut(s, n), k) == Inherited(s, k);
    }
  }

  lemma CutExplored(s: Stack, completed: seq<seq<RunnerId>>, n: nat)
    requires |s.moments| == |s.items| == |s.trace| + 1 && n <= |s.trace| && Explored(s, completed, n + 1)
    ensures Explored(Cut(s, n), completed, n + 1)
  {
    forall k | 0 <= k <= n ensures ExploredAt(Cut(s, n), completed, k) {
      assert ExploredAt(s, completed, k);
      assert Schedule(Cut(s, n).trace)[..k] == Schedule(s.trace)[..k];
    }
  }

  lemma CutKeepsStack(start: Moment, target: Target, s: Stack, n: nat)
    requires StackOk(start, target, s) && n <= |s.trace|
    ensures StackOk(start, target, Cut(s, n))
  {
    PathCut(start, target, s.trace, s.moments, n);
    CutSleep(s, n);
    CutSleepExact(s, n);
  }

  /** No completed schedule goes through an item none of whose runners is done. */
  lemma NewSchedule(s: Stack, completed: seq<seq<RunnerId>>)
    requires |s.items| == |s.trace| + 1 && Explored(s, completed, |s.items|)
    requires s.items[|s.trace|].done == {}
    ensures Schedule(s.trace) !in completed
  {
    assert ExploredAt(s, completed, |s.trace|);
    assert Schedule(s.trace)[..|s.trace|] == Schedule(s.trace);
  }

  lemma ExploredByItself(s: Stack, completed: seq<seq<RunnerId>>, k: nat)
    requires k < |s.trace| < |s.items| == |s.trace| + 1 && ExploredAt(s, completed, k)
    requires s.trace[k].executor in s.items[k].done
    ensures ExploredAt(s, completed + [Schedule(s.trace)], k)
  {
  }

  lemma PathCompletes(start: Moment, target: Target, s: Stack)
    requires PathOk(start, target, s.trace, s.moments) && EnabledIn(s.moments[|s.trace|]) == {}
    ensures CompleteRun(start, target, Schedule(s.trace))
  {
    PathIsRun(start, target, s.trace, s.moments, |s.trace|);
    assert Schedule(s.trace)[..|s.trace|] == Schedule(s.trace);
  }

  lemma CompletedGrows(start: Moment, target: Target, completed: seq<seq<RunnerId>>, schedule: seq<RunnerId>)
    requires CompletedOk(start, target, completed) && schedule !in completed
    requires CompleteRun(start, target, schedule) && LeastFirst(start, schedule)
    ensures CompletedOk(start, target, completed + [schedule])
  {
    hide CompleteRun, LeastFirst;
  }

  lemma TraceIsLeastFirst(start: Moment, target: Target, s: Stack)
    requires StackOk(start, target, s)
    ensures LeastFirst(start, Schedule(s.trace))
  {
    hide SleepOk, SleepExact, StepOk, EnabledIn;
    assert s.trace != [] ==> s.trace[0].executor in s.items[0].done && s.items[0].enabled == EnabledIn(s.moments[0]);
  }

  /** Once its trace is complete, every runner done at any item was taken by a completed schedule. */
  ghost predicate AllTaken(s: Stack, completed: seq<seq<RunnerId>>)
    requires |s.items| == |s.trace| + 1
  {
    forall k, p :: 0 <= k < |s.items| && p in s.items[k].done ==> TookNext(completed, Schedule(s.trace)[..k], p)
  }

  lemma TraceIsTaken(s: Stack, completed: seq<seq<RunnerId>>)
    requires |s.items| == |s.trace| + 1 && Tried(s, completed)
    ensures AllTaken(s, completed + [Schedule(s.trace)])
  {
    var completed' := completed + [Schedule(s.trace)];
    forall k, p | 0 <= k < |s.items| && p in s.items[k].done ensures TookNext(completed', Schedule(s.trace)[..k], p) {
      assert TriedAt(s, completed, k, p);
      if TookNext(completed, Schedule(s.trace)[..k], p) {
        var c :| c in completed && Schedule(s.trace)[..k] + [p] <= c;
        assert c in completed';
      } else {
        assert Schedule(s.trace) in completed' && Schedule(s.trace)[..k] + [p] <= Schedule(s.trace);
      }
    }
  }

  lemma CutTried(s: Stack, completed: seq<seq<RunnerId>>, n: nat)
    requires |s.moments| == |s.items| == |s.trace| + 1 && n <= |s.trace| && AllTaken(s, completed)
    ensures Tried(Cut(s, n), completed)
  {
    forall k, p | 0 <= k <= n && p in Cut(s, n).items[k].done ensures TriedAt(Cut(s, n), completed, k, p) {
      assert Schedule(Cut(s, n).trace)[..k] == Schedule(s.trace)[..k];
    }
  }

  /** A completed trace is a new schedule, and every item below the last one has explored it. */
  lemma TraceCompletes(start: Moment, target: Target, s: Stack, completed: seq<seq<RunnerId>>)
    requires StackOk(start, target, s) && Explored(s, completed, |s.items|) && CompletedOk(start, target, completed)
    requires s.items[|s.trace|].enabled == {} && s.items[|s.trace|].done == {}
    ensures CompletedOk(start, target, completed + [Schedule(s.trace)])
    ensures Explored(s, completed + [Schedule(s.trace)], |s.trace|)
  {
    hide EnabledIn, CompletedOk, SleepOk, SleepExact, StepOk, LeastFirst;
    NewSchedule(s, completed);
    PathCompletes(start, target, s);
    TraceIsLeastFirst(start, target, s);
    CompletedGrows(start, target, completed, Schedule(s.trace));
    forall k | 0 <= k < |s.trace| ensures ExploredAt(s, completed + [Schedule(s.trace)], k) {
      assert s.trace[k].executor in s.items[k].done;
      ExploredByItself(s, completed, k);
    }
  }

  /** Depth 0 is never returned to, however many runners were enabled there. */
  lemma NeverBackToStart(start: Moment, target: Target, s: Stack, k: nat)
    requires StackOk(start, target, s) && k < |s.items| && s.items[k].backtrack != {}
    ensures k >= 1
  {
  }

  // --- Races ---

  /** The two updates after a step touch backtrack sets only, and not the newest. */
  lemma UpdatedBacktracksOnly(clocks: Clocks, items: seq<Item>, trace: Trace, next: Pending, n: nat)
    requires trace != [] && |items| == |trace| + 1 && AllSetsOk(items)
    requires n <= 0x1_0000 && forall q: RunnerId :: q < n ==> q in next
    requires trace[|trace| - 1].executor in next
    ensures BacktracksOnly(items, Updated(clocks, items, trace, next, n))
    ensures Updated(clocks, items, trace, next, n)[|trace|] == items[|trace|]
  {
    var last := trace[|trace| - 1].executor;
    UpdateOthersBacktracksOnly(clocks, items, trace, next, last, 0, n);
    var middle := UpdateOthers(clocks, items, trace, next, last, 0, n);
    UpdateLastBacktracksOnly(clocks, middle, trace, next[last], |trace| - 1, last);
  }

  lemma UpdatedIsStep(clocks: Clocks, s: Stack, p: RunnerId, op: Transition, s': Stack, n: nat)
    requires |s.moments| == |s.items| == |s.trace| + 1 && CanRun(s.moments[|s.trace|], p)
    requires AllSetsOk(s.items) && p in s.items[|s.trace|].enabled
    requires s.moments[|s.trace|].pending[p].executor == p
    requires n <= 0x1_0000 && forall q: RunnerId :: q < n ==> q in s.moments[|s.trace|].pending
    requires var g := GrownBy(s, p, op);
      s' == g.(items := s'.items) && s'.items == Updated(clocks, g.items, g.trace, g.moments[|g.trace|].pending, n)
    ensures SteppedTo(s, p, op, s')
  {
    var g := GrownBy(s, p, op);
    GrownSets(s, p, op);
    UpdatedBacktracksOnly(clocks, g.items, g.trace, g.moments[|g.trace|].pending, n);
  }

  /** After an update every reversible race of a waiting runner with the last step is
      handled, and so is the latest one of the runner that took that step. */
  lemma RacesAreHandled(clocks: Clocks, items: seq<Item>, trace: Trace, next: Pending, n: nat)
    requires trace != [] && |items| == |trace| + 1 && AllSetsOk(items)
    requires n <= 0x1_0000 && forall q: RunnerId :: q < n ==> q in next
    requires trace[|trace| - 1].executor in next
    ensures var r, t, last := Updated(clocks, items, trace, next, n), |trace| - 1, trace[|trace| - 1].executor;
      && (forall q: RunnerId :: q < n && q != last && Reversible(clocks, trace, t, next[q], q) ==>
           Handled(r[t], Initials(clocks, trace, t, q, items[t])))
      && (forall i :: 0 <= i < t && LatestRace(clocks, trace, t, next[last], last, i) ==>
           Handled(r[i], Initials(clocks, trace, i, last, items[i])))
  {
    hide Reversible, AddBacktrack, UpdateAt, UpdateOthers, UpdateLast;
    var last := trace[|trace| - 1].executor;
    UpdateOthersBacktracksOnly(clocks, items, trace, next, last, 0, n);
    var middle := UpdateOthers(clocks, items, trace, next, last, 0, n);
    UpdateLastBacktracksOnly(clocks, middle, trace, next[last], |trace| - 1, last);
  }

  // --- Termination ---

  ghost function Pow(b: nat, e: nat): nat {
    if e == 0 then 1 else b * Pow(b, e - 1)
  }

  /** The enabled runners not yet done, the lower items weighing more; `d` bounds the depth. */
  ghost function Weight(items: seq<Item>, b: nat, d: nat): nat
    requires |items| <= d
  {
    if items == [] then 0 else
      var it := items[|items| - 1];
      Weight(items[..|items| - 1], b, d) + |it.enabled - it.done| * Pow(b, d - |items|)
  }

  lemma {:induction false} CutWeighsLess(items: seq<Item>, b: nat, d: nat, n: nat)
    requires n <= |items| <= d
    ensures Weight(items[..n], b, d) <= Weight(items, b, d)
  {
    if n < |items| {
      CutWeighsLess(items[..|items| - 1], b, d, n);
      assert items[..|items| - 1][..n] == items[..n];
    } else {
      assert items[..n] == items;
    }
  }

  lemma {:induction false} SameWeight(items: seq<Item>, items': seq<Item>, b: nat, d: nat)
    requires |items| == |items'| <= d
    requires forall k :: 0 <= k < |items| ==> items[k].enabled == items'[k].enabled && items[k].done == items'[k].done
    ensures Weight(items, b, d) == Weight(items', b, d)
  {
    if items != [] {
      SameWeight(items[..|items| - 1], items'[..|items| - 1], b, d);
    }
  }

  /** One runner fewer at this level pays for everyone at the next. */
  lemma OneLevelDown(left: nat, found: nat, b: nat, e: nat)
    requires found < b && e > 0
    ensures left * Pow(b, e) + found * Pow(b, e - 1) < (left + 1) * Pow(b, e)
  {
    PowPositive(b, e - 1);
    assert found * Pow(b, e - 1) < b * Pow(b, e - 1);
    assert (left + 1) * Pow(b, e) == left * Pow(b, e) + Pow(b, e);
  }

  lemma {:induction false} PowPositive(b: nat, e: nat)
    requires b > 0
    ensures Pow(b, e) > 0
  {
    if e > 0 {
      PowPositive(b, e - 1);
    }
  }

  lemma GrowingWeighsLess(items: seq<Item>, t: Transition, next: Pending, enabled: set<RunnerId>, b: nat, d: nat)
    requires items != [] && |items| < d && |enabled| < b
    requires t.executor in items[|items| - 1].enabled - items[|items| - 1].done
    ensures Weight(Grown(items, t, next, enabled), b, d) < Weight(items, b, d)
  {
    var n, g := |items| - 1, Grown(items, t, next, enabled);
    var it := items[n];
    assert g[..n + 1][..n] == items[..n];
    assert enabled - {} == enabled;
    var left := it.enabled - it.done - {t.executor};
    assert g[n].enabled - g[n].done == left;
    assert |it.enabled - it.done| == |left| + 1;
    OneLevelDown(|left|, |enabled|, b, d - |items|);
    assert Weight(g, b, d) == Weight(items[..n], b, d) + |left| * Pow(b, d - |items|) + |enabled| * Pow(b, d - |items| - 1);
  }

  lemma GrownWeighsLess(s: Stack, p: RunnerId, op: Transition, b: nat, d: nat)
    requires |s.moments| == |s.items| == |s.trace| + 1 < d && CanRun(s.moments[|s.trace|], p)
    requires s.moments[|s.trace|].pending[p].executor == p && |s.moments[|s.trace|].pending| < b
    requires p in s.items[|s.trace|].enabled - s.items[|s.trace|].done
    ensures Weight(GrownBy(s, p, op).items, b, d) < Weight(s.items, b, d)
  {
    var m := s.moments[|s.trace|];
    var m' := Advance(m, p, op);
    assert m'.pending.Keys == m.pending.Keys;
    SubsetSize(EnabledIn(m'), m.pending.Keys);
    assert |m.pending.Keys| == |m.pending|;
    GrowingWeighsLess(s.items, m.pending[p], m'.pending, EnabledIn(m'), b, d);
  }

  /** Every step of the search makes the stack lighter. */
  lemma StepWeighsLess(s: Stack, p: RunnerId, op: Transition, s': Stack, b: nat, d: nat)
    requires |s.moments| == |s.items| == |s.trace| + 1 < d && CanRun(s.moments[|s.trace|], p)
    requires s.moments[|s.trace|].pending[p].executor == p && |s.moments[|s.trace|].pending| < b
    requires p in s.items[|s.trace|].enabled - s.items[|s.trace|].done
    requires SteppedTo(s, p, op, s')
    ensures |s'.items| == |s.items| + 1 && Weight(s'.items, b, d) < Weight(s.items, b, d)
  {
    SameWeight(GrownBy(s, p, op).items, s'.items, b, d);
    GrownWeighsLess(s, p, op, b, d);
  }

  // --- The loop head ---

  /** What holds of the stack and the schedules completed so far while the explorer runs. */
  ghost predicate Searching(start: Moment, target: Target, s: Stack, completed: seq<seq<RunnerId>>, d: nat) {
    && MomentOk(start) && Faithful(target, start)
    && StackOk(start, target, s) && |s.items| <= d
    && Explored(s, completed, |s.items|) && Tried(s, completed) && CompletedOk(start, target, completed)
  }

  /** Nothing was tried or planned yet at the last item. */
  ghost predicate TopIsFresh(s: Stack) {
    s.items != [] && s.items[|s.items| - 1].done == s.items[|s.items| - 1].backtrack == {}
  }

  /** The weight of the stack in a search. */
  ghost function SearchWeight(start: Moment, items: seq<Item>, d: nat): nat
    requires |items| <= d
  {
    Weight(items, |start.pending| + 1, d)
  }

  lemma SearchSteps(start: Moment, target: Target, s: Stack, p: RunnerId, op: Transition, s': Stack,
                    completed: seq<seq<RunnerId>>, d: nat)
    requires Searching(start, target, s, completed, d) && |s.items| < d
    requires MayComeNext(s, p) && target(Schedule(s.trace) + [p]) == NextOp(op) && CanRun(s.moments[|s.trace|], p)
    requires SteppedTo(s, p, op, s')
    ensures Searching(start, target, s', completed, d) && TopIsFresh(s')
    ensures SearchWeight(start, s'.items, d) < SearchWeight(start, s.items, d)
  {
    hide Weight, CanRun, StepOk, SleepOk, SleepExact, AllSetsOk, WellTyped, GrownBy, CompletedOk, Tried, Explored;
    SteppedShape(s, p, op, s');
    SearchStepsTyped(start, target, s, p, op);
    StepKeepsStack(start, target, s, p, op, s', completed);
    StepWeighsLess(s, p, op, s', |start.pending| + 1, d);
  }

  lemma SteppedShape(s: Stack, p: RunnerId, op: Transition, s': Stack)
    requires |s.moments| == |s.items| == |s.trace| + 1 && CanRun(s.moments[|s.trace|], p)
    requires SteppedTo(s, p, op, s')
    ensures |s'.moments| == |s'.items| == |s'.trace| + 1 == |s.items| + 1
  {
  }

  lemma SearchStepsTyped(start: Moment, target: Target, s: Stack, p: RunnerId, op: Transition)
    requires MomentOk(start) && Faithful(target, start) && PathOk(start, target, s.trace, s.moments)
    requires target(Schedule(s.trace) + [p]) == NextOp(op) && CanRun(s.moments[|s.trace|], p)
    ensures s.moments[|s.trace|].pending[p].executor == p && op.executor == p
    ensures |s.moments[|s.trace|].pending| == |start.pending|
  {
    hide StepOk, WellTyped;
    var m := s.moments[|s.trace|];
    PathTyped(start, target, s.trace, s.moments, |s.trace|);
    assert (Schedule(s.trace) + [p])[|s.trace|] == p;
    assert |m.pending| == |m.pending.Keys| && |start.pending| == |start.pending.Keys|;
  }

  lemma SearchCompletes(start: Moment, target: Target, s: Stack, completed: seq<seq<RunnerId>>, d: nat, k: nat)
    requires Searching(start, target, s, completed, d) && TopIsFresh(s)
    requires s.items[|s.trace|].enabled == {} && 1 <= k <= |s.trace|
    ensures Searching(start, target, Cut(s, k - 1), completed + [Schedule(s.trace)], d)
    ensures SearchWeight(start, s.items[..k], d) <= SearchWeight(start, s.items, d)
  {
    hide Weight, StackOk, CompletedOk, EnabledIn, Tried, AllTaken, ExploredAt, MomentOk, Faithful;
    StackSizes(start, target, s);
    TraceCompletes(start, target, s, completed);
    CutKeepsStack(start, target, s, k - 1);
    CutExplored(s, completed + [Schedule(s.trace)], k - 1);
    TraceIsTaken(s, completed);
    CutTried(s, completed + [Schedule(s.trace)], k - 1);
    CutWeighsLess(s.items, |start.pending| + 1, d, k);
  }

  lemma StackSizes(start: Moment, target: Target, s: Stack)
    requires StackOk(start, target, s)
    ensures |s.moments| == |s.items| == |s.trace| + 1
  {
  }

  // --- How a search ends ---

  datatype Verdict =
    | Finished
    | LimitReached(schedule: seq<RunnerId>)
    | Aborted(schedule: seq<RunnerId>)

  /** The schedule leads to a state where the depth limit stops it. */
  ghost predicate ReachesLimit(start: Moment, target: Target, schedule: seq<RunnerId>, max: nat) {
    Run(start, target, schedule).Some? && EnabledIn(Run(start, target, schedule).value) != {} && |schedule| + 1 >= max
  }

  /** The process dies in the last step of the schedule, all of whose steps are enabled. */
  ghost predicate DiesIn(start: Moment, target: Target, schedule: seq<RunnerId>) {
    && schedule != [] && target(schedule).Failed?
    && var n := |schedule| - 1;
    Run(start, target, schedule[..n]).Some? && CanRun(Run(start, target, schedule[..n]).value, schedule[n])
  }

  /** What stopped the search. */
  ghost predicate Interrupted(start: Moment, target: Target, v: Verdict, max: nat) {
    match v
    case Finished => false
    case LimitReached(schedule) => ReachesLimit(start, target, schedule, max)
    case Aborted(schedule) => DiesIn(start, target, schedule)
  }

  /** The item `verify_using` starts with. */
  function FirstItem(enabled: set<RunnerId>): Item {
    Item({}, {}, {}, enabled, None, map[], map[])
  }

  lemma SearchStarts(start: Moment, target: Target, s: Stack, d: nat)
    requires MomentOk(start) && Faithful(target, start) && d >= 1
    requires s == Stack([FirstItem(EnabledIn(start))], [], [start])
    ensures Searching(start, target, s, [], d) && TopIsFresh(s)
  {
  }

  lemma StackRuns(start: Moment, target: Target, s: Stack)
    requires StackOk(start, target, s)
    ensures |s.moments| == |s.items| == |s.trace| + 1
    ensures Run(start, target, Schedule(s.trace)) == Some(s.moments[|s.trace|])
    ensures s.items[|s.trace|].enabled == EnabledIn(s.moments[|s.trace|])
  {
    hide Run, SleepOk, SleepExact, AllSetsOk, StepOk, EnabledIn, FirstOnly;
    PathIsRun(start, target, s.trace, s.moments, |s.trace|);
    assert Schedule(s.trace)[..|s.trace|] == Schedule(s.trace);
  }

  lemma StuckIsDeadlock(start: Moment, target: Target, s: Stack)
    requires StackOk(start, target, s)
    ensures Deadlocks(start, target, Schedule(s.trace)) <==> Stuck(s.moments[|s.trace|])
  {
    hide StackOk, Run, Stuck;
    StackRuns(start, target, s);
  }

  lemma LimitIsReached(start: Moment, target: Target, s: Stack, max: nat)
    requires StackOk(start, target, s) && s.items[|s.trace|].enabled != {} && |s.items| >= max
    ensures ReachesLimit(start, target, Schedule(s.trace), max)
  {
    hide StackOk, Run, EnabledIn;
    StackRuns(start, target, s);
  }

  lemma DeathIsReached(start: Moment, target: Target, s: Stack, p: RunnerId)
    requires StackOk(start, target, s)
    requires p in s.items[|s.trace|].enabled && target(Schedule(s.trace) + [p]).Failed?
    ensures DiesIn(start, target, Schedule(s.trace) + [p])
  {
    hide StackOk, Run, CanRun;
    StackRuns(start, target, s);
    assert (Schedule(s.trace) + [p])[..|s.trace|] == Schedule(s.trace);
  }

  // --- What a search reports ---

  /** The schedules completed, and the deadlocks among them. */
  ghost predicate Reported(start: Moment, target: Target, completed: seq<seq<RunnerId>>, deadlocks: seq<seq<RunnerId>>) {
    && CompletedOk(start, target, completed)
    && forall c :: c in deadlocks <==> c in completed && Deadlocks(start, target, c)
  }

  lemma ReportGrows(start: Moment, target: Target, completed: seq<seq<RunnerId>>, deadlocks: seq<seq<RunnerId>>,
                    schedule: seq<RunnerId>, deadlock: bool)
    requires Reported(start, target, completed, deadlocks)
    requires CompletedOk(start, target, completed + [schedule])
    requires deadlock <==> Deadlocks(start, target, schedule)
    ensures Reported(start, target, completed + [schedule], if deadlock then deadlocks + [schedule] else deadlocks)
  {
    hide CompletedOk, Deadlocks;
  }

  /** Another enabled runner is never tried first: no maximal run that begins with one is
      completed, and a deadlock that only such runs reach is never reported. */
  lemma OthersAreMissed(start: Moment, target: Target, completed: seq<seq<RunnerId>>, deadlocks: seq<seq<RunnerId>>,
                        c: seq<RunnerId>)
    requires Reported(start, target, completed, deadlocks)
    requires CompleteRun(start, target, c) && !LeastFirst(start, c)
    ensures c != [] && c[0] in EnabledIn(start) && c[0] != Least(EnabledIn(start))
    ensures c !in completed && c !in deadlocks
  {
    hide EnabledIn, CompleteRun, Deadlocks;
    FirstCanRun(start, target, c);
  }

  lemma FirstCanRun(start: Moment, target: Target, c: seq<RunnerId>)
    requires CompleteRun(start, target, c) && c != []
    ensures c[0] in EnabledIn(start)
  {
    RunPrefix(start, target, c, 1);
    assert c[..1][..0] == [];
  }

  lemma {:induction false} RunPrefix(start: Moment, target: Target, c: seq<RunnerId>, n: nat)
    requires Run(start, target, c).Some? && n <= |c|
    ensures Run(start, target, c[..n]).Some?
  {
    if n < |c| {
      RunPrefix(start, target, c[..|c| - 1], n);
      assert c[..|c| - 1][..n] == c[..n];
    } else {
      assert c[..n] == c;
    }
  }
}
