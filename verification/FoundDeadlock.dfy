/**
 * A deadlock that the search finds. The main thread creates two threads and joins them.
 * Thread 1 locks a mutex, unlocks it and exits; thread 2 locks it, joins thread 1, unlocks
 * it and exits. When thread 2 comes first both are stuck. The search begins with the main
 * thread alone, so the order of the two locks is reversed in one of its schedules.
 */
module FoundDeadlock {
  import opened Basics
  import opened Transitions
  import opened Dependency
  import opened ProgramSpec
  import opened Program
  import opened ExplorerSpec
  import opened Search
  import opened Races
  import opened ClassicDpor
  import FromMain
  import MissedDeadlock

  const MUTEX: ObjId := 3

  // --- The program ---

  function Count(c: seq<RunnerId>, r: RunnerId): nat {
    MissedDeadlock.Count(c, r)
  }

  /** What each thread does after its first `n` steps. */
  function StepOfMain(n: nat): Transition {
    if n == 0 then ThreadStart(0)
    else if n == 1 then ThreadCreate(0, 2)
    else if n == 2 then ThreadCreate(0, 1)
    else if n == 3 then ThreadJoin(0, 1)
    else if n == 4 then ThreadJoin(0, 2)
    else ThreadExit(0)
  }

  function StepOfOne(n: nat): Transition {
    if n == 0 then ThreadStart(1)
    else if n == 1 then MutexLock(1, MUTEX)
    else if n == 2 then MutexUnlock(1, MUTEX)
    else ThreadExit(1)
  }

  function StepOfTwo(n: nat): Transition {
    if n == 0 then ThreadStart(2)
    else if n == 1 then MutexLock(2, MUTEX)
    else if n == 2 then ThreadJoin(2, 1)
    else if n == 3 then MutexUnlock(2, MUTEX)
    else ThreadExit(2)
  }

  function Process(c: seq<RunnerId>): Reply {
    if c == [] then Failed
    else if c[|c| - 1] == 0 then NextOp(StepOfMain(Count(c, 0)))
    else if c[|c| - 1] == 1 then NextOp(StepOfOne(Count(c, 1)))
    else if c[|c| - 1] == 2 then NextOp(StepOfTwo(Count(c, 2)))
    else Failed
  }

  /** Where the threads are after `x`, `a` and `b` steps of their own. */
  function At(x: nat, a: nat, b: nat): Moment {
    Moment(State(map[0 := Thread(Running),
                     1 := Thread(if x < 3 then Embryo else if a < 4 then Running else Exited),
                     2 := Thread(if x < 2 then Embryo else if b < 5 then Running else Exited),
                     MUTEX := MutexAt(a, b)],
                 map[0 := 0, 1 := 1, 2 := 2]),
           map[0 := StepOfMain(x), 1 := StepOfOne(a), 2 := StepOfTwo(b)])
  }

  function MutexAt(a: nat, b: nat): Obj {
    if a == 2 then Mutex(Locked, 100, 1)
    else if b == 2 || b == 3 then Mutex(Locked, 100, 2)
    else Mutex(Unlocked, 100, RID_INVALID)
  }

  function Others(): seq<Obj> { [Mutex(Unlocked, 100, RID_INVALID)] }

  function First(): Moment { FromMain.AtMain(3, Others()) }

  lemma FirstIsZero()
    ensures First() == At(0, 0, 0)
  {
    ObjectsAreFirst();
    RunnersAreFirst();
    StepsAreFirst();
    hide First, At;
    assert First().state == At(0, 0, 0).state;
  }

  lemma ListsAtMain()
    ensures FromMain.Runners(3) == [0, 1, 2]
    ensures FromMain.Objects(3, Others()) == [Thread(Running), Thread(Embryo), Thread(Embryo)] + Others()
  {
  }

  lemma ObjectsAreFirst()
    ensures First().state.objs == At(0, 0, 0).state.objs
  {
    ListsAtMain();
    hide FromMain.Objects, FromMain.Runners, FromMain.FirstSteps, StepOfMain, StepOfOne, StepOfTwo;
    var objs, objs' := First().state.objs, At(0, 0, 0).state.objs;
    forall i: ObjId ensures i in objs <==> i in objs' {
      assert i < 4 <==> i in {0, 1, 2, 3};
    }
  }

  lemma RunnersAreFirst()
    ensures First().state.runners == At(0, 0, 0).state.runners
  {
    ListsAtMain();
    hide FromMain.Objects, FromMain.Runners, FromMain.FirstSteps, StepOfMain, StepOfOne, StepOfTwo, MutexAt;
    var runners, runners' := First().state.runners, At(0, 0, 0).state.runners;
    forall r: RunnerId ensures r in runners <==> r in runners' {
      assert r < 3 <==> r in {0, 1, 2};
    }
  }

  lemma StepsAreFirst()
    ensures First().pending == At(0, 0, 0).pending
  {
    PendingAt(0, 0, 0);
    hide First, At;
    var p, p' := First().pending, At(0, 0, 0).pending;
    forall r: RunnerId ensures (r in p <==> r in p') && (r in p ==> p[r] == p'[r]) {
      FirstPending(r);
      assert r < 3 <==> r in {0, 1, 2};
    }
  }

  lemma FirstPending(r: RunnerId)
    ensures r in First().pending <==> r < 3
    ensures r < 3 ==> First().pending[r] == ThreadStart(r)
  {
    hide FromMain.AtMain;
    FromMain.PendingAreIds(3, Others(), r);
    if r < 3 {
      FromMain.RunnerIsThread(3, Others(), r);
    }
  }

  lemma PendingAt(x: nat, a: nat, b: nat)
    ensures At(x, a, b).pending.Keys == {0, 1, 2}
    ensures At(x, a, b).pending[0] == StepOfMain(x)
    ensures At(x, a, b).pending[1] == StepOfOne(a) && At(x, a, b).pending[2] == StepOfTwo(b)
  {
  }

  // --- Its runs ---

  /** The counts of a run: threads wait for their creation, not both hold the mutex, and
      a join comes after the exit. */
  predicate Possible(x: nat, a: nat, b: nat) {
    && x <= 5 && a <= 4 && b <= 5
    && (a > 0 ==> x >= 3) && (b > 0 ==> x >= 2)
    && !(a == 2 && (b == 2 || b == 3)) && (b >= 3 ==> a == 4)
    && (x >= 4 ==> a == 4) && (x >= 5 ==> b == 5)
  }

  /** Who can run, by the counts. */
  predicate Goes(x: nat, a: nat, b: nat, r: RunnerId) {
    if r == 0 then x < 3 || (x == 3 && a == 4) || (x == 4 && b == 5)
    else if r == 1 then x >= 3 && (a == 0 || (a == 1 && b != 2 && b != 3) || a == 2 || a == 3)
    else if r == 2 then x >= 2 && (b == 0 || (b == 1 && a != 2) || (b == 2 && a == 4) || b == 3 || b == 4)
    else false
  }

  lemma MainCanRun(x: nat, a: nat, b: nat)
    requires Possible(x, a, b)
    ensures CanRun(At(x, a, b), 0) <==> Goes(x, a, b, 0)
  {
  }

  lemma OneCanRun(x: nat, a: nat, b: nat)
    requires Possible(x, a, b)
    ensures CanRun(At(x, a, b), 1) <==> Goes(x, a, b, 1)
  {
  }

  lemma TwoCanRun(x: nat, a: nat, b: nat)
    requires Possible(x, a, b)
    ensures CanRun(At(x, a, b), 2) <==> Goes(x, a, b, 2)
  {
  }

  lemma WhoCanRun(x: nat, a: nat, b: nat, r: RunnerId)
    requires Possible(x, a, b)
    ensures CanRun(At(x, a, b), r) <==> Goes(x, a, b, r)
  {
    MainCanRun(x, a, b);
    OneCanRun(x, a, b);
    TwoCanRun(x, a, b);
    PendingAt(x, a, b);
    hide At, Possible, Enabled, WellTyped, StepOfMain, StepOfOne, StepOfTwo;
  }

  lemma MainMoves(x: nat, a: nat, b: nat)
    requires Possible(x, a, b) && Goes(x, a, b, 0)
    ensures CanRun(At(x, a, b), 0) && Possible(x + 1, a, b) && Advance(At(x, a, b), 0, StepOfMain(x + 1)) == At(x + 1, a, b)
  {
    MainCanRun(x, a, b);
    assert At(x + 1, a, b).pending == At(x, a, b).pending[0 := StepOfMain(x + 1)];
    assert Step(StepOfMain(x), At(x, a, b).state).objs == At(x + 1, a, b).state.objs;
  }

  lemma OneMoves(x: nat, a: nat, b: nat)
    requires Possible(x, a, b) && Goes(x, a, b, 1)
    ensures CanRun(At(x, a, b), 1) && Possible(x, a + 1, b) && Advance(At(x, a, b), 1, StepOfOne(a + 1)) == At(x, a + 1, b)
  {
    OneCanRun(x, a, b);
    assert At(x, a + 1, b).pending == At(x, a, b).pending[1 := StepOfOne(a + 1)];
    assert Step(StepOfOne(a), At(x, a, b).state).objs == At(x, a + 1, b).state.objs;
  }

  lemma TwoMoves(x: nat, a: nat, b: nat)
    requires Possible(x, a, b) && Goes(x, a, b, 2)
    ensures CanRun(At(x, a, b), 2) && Possible(x, a, b + 1) && Advance(At(x, a, b), 2, StepOfTwo(b + 1)) == At(x, a, b + 1)
  {
    TwoCanRun(x, a, b);
    assert At(x, a, b + 1).pending == At(x, a, b).pending[2 := StepOfTwo(b + 1)];
    assert Step(StepOfTwo(b), At(x, a, b).state).objs == At(x, a, b + 1).state.objs;
  }

  /** One more step of `r`. */
  lemma StepMoves(x: nat, a: nat, b: nat, r: RunnerId, op: Transition, m: Moment)
    requires Possible(x, a, b) && CanRun(At(x, a, b), r) && m == Advance(At(x, a, b), r, op)
    requires op == if r == 0 then StepOfMain(x + 1) else if r == 1 then StepOfOne(a + 1) else StepOfTwo(b + 1)
    ensures r <= 2
    ensures r == 0 ==> Possible(x + 1, a, b) && m == At(x + 1, a, b)
    ensures r == 1 ==> Possible(x, a + 1, b) && m == At(x, a + 1, b)
    ensures r == 2 ==> Possible(x, a, b + 1) && m == At(x, a, b + 1)
  {
    WhoCanRun(x, a, b, r);
    hide CanRun, At, Possible, StepOfMain, StepOfOne, StepOfTwo, Advance;
    if r == 0 {
      MainMoves(x, a, b);
    } else if r == 1 {
      OneMoves(x, a, b);
    } else {
      TwoMoves(x, a, b);
    }
  }

  /** A run leads where its counts say, and is as long as they are together. */
  ghost predicate ByCounts(c: seq<RunnerId>) {
    && Run(First(), Process, c).Some?
    && var x, a, b := Count(c, 0), Count(c, 1), Count(c, 2);
    Possible(x, a, b) && |c| == x + a + b && Run(First(), Process, c).value == At(x, a, b)
  }

  lemma OneMore(c: seq<RunnerId>)
    requires c != [] && Run(First(), Process, c).Some? && ByCounts(c[..|c| - 1])
    ensures ByCounts(c)
  {
    hide CanRun, At, First, Advance, Possible, StepOfMain, StepOfOne, StepOfTwo, Run;
    RunFront(First(), Process, c);
    var n := |c| - 1;
    var x, a, b := Count(c[..n], 0), Count(c[..n], 1), Count(c[..n], 2);
    CanRunIsOneOfThem(x, a, b, c[n]);
    assert Process(c).op == if c[n] == 0 then StepOfMain(x + 1) else if c[n] == 1 then StepOfOne(a + 1) else StepOfTwo(b + 1);
    StepMoves(x, a, b, c[n], Process(c).op, Run(First(), Process, c).value);
  }

  lemma {:induction false} RunIsByCounts(c: seq<RunnerId>)
    requires Run(First(), Process, c).Some?
    ensures ByCounts(c)
  {
    if c == [] {
      FirstIsZero();
      hide At, First;
    } else {
      RunFront(First(), Process, c);
      hide CanRun, ByCounts, First, Run, Process;
      RunIsByCounts(c[..|c| - 1]);
      OneMore(c);
    }
  }

  lemma CanRunIsOneOfThem(x: nat, a: nat, b: nat, r: RunnerId)
    requires CanRun(At(x, a, b), r)
    ensures r <= 2
  {
    PendingAt(x, a, b);
  }

  /** Thread 1 waits for the mutex, and thread 2 holds it and waits for thread 1. (The main
      thread never exits here, so a run that ends well counts as a deadlock too.) */
  ghost predicate BothStuck(c: seq<RunnerId>) {
    && Deadlocks(First(), Process, c)
    && var m := Run(First(), Process, c).value;
    && IsRunner(m.state, 1) && StatusOfRunner(m.state, 1) == Running && 1 in m.pending && m.pending[1] == MutexLock(1, MUTEX)
    && IsRunner(m.state, 2) && StatusOfRunner(m.state, 2) == Running && 2 in m.pending && m.pending[2] == ThreadJoin(2, 1)
    && MUTEX in m.state.objs && m.state.objs[MUTEX] == Mutex(Locked, 100, 2)
  }

  /** A run ends with both stuck or with both gone. */
  lemma WhereItEnds(c: seq<RunnerId>)
    requires CompleteRun(First(), Process, c)
    ensures (Count(c, 1) == 1 && Count(c, 2) == 2 && BothStuck(c)) || (Count(c, 1) == 4 && Count(c, 2) == 5)
  {
    hide First, Run;
    RunIsByCounts(c);
    var x, a, b := Count(c, 0), Count(c, 1), Count(c, 2);
    var m := At(x, a, b);
    forall r | r in m.pending ensures !Goes(x, a, b, r) {
      WhoCanRun(x, a, b, r);
      assert r !in EnabledIn(m);
    }
    assert 0 in m.pending && 1 in m.pending && 2 in m.pending;
    assert IsRunner(m.state, 1);
  }

  // --- What the search makes of it ---

  lemma {:induction false} CountGrows(c: seq<RunnerId>, n: nat, r: RunnerId)
    requires n <= |c|
    ensures Count(c[..n], r) <= Count(c, r)
  {
    if n == |c| {
      assert c[..n] == c;
    } else {
      assert c[..|c| - 1][..n] == c[..n];
      CountGrows(c[..|c| - 1], n, r);
    }
  }

  /** Where thread 1 locks the mutex. */
  lemma {:induction false} WhereOneLocks(c: seq<RunnerId>) returns (i: nat)
    requires Count(c, 1) >= 2
    ensures i < |c| && c[i] == 1 && Count(c[..i], 1) == 1
  {
    var n := |c| - 1;
    if Count(c[..n], 1) >= 2 {
      i := WhereOneLocks(c[..n]);
      assert c[..n][..i] == c[..i];
    } else {
      i := n;
    }
  }

  /** There, thread 2 has not locked it, and could take a step. */
  lemma TwoIsReady(c: seq<RunnerId>, i: nat)
    requires Run(First(), Process, c).Some? && i < |c| && c[i] == 1 && Count(c[..i], 1) == 1
    ensures Run(First(), Process, c[..i]).Some? && Count(c[..i], 2) <= 1 && i >= 3
    ensures Run(First(), Process, c[..i]).value == At(Count(c[..i], 0), 1, Count(c[..i], 2))
    ensures 2 in EnabledIn(Run(First(), Process, c[..i]).value)
  {
    hide At, First, CanRun;
    RunPrefix(First(), Process, c, i + 1);
    assert c[..i + 1][..i] == c[..i];
    RunIsByCounts(c[..i]);
    var x, b := Count(c[..i], 0), Count(c[..i], 2);
    WhoCanRun(x, 1, b, 1);
    WhoCanRun(x, 1, b, 2);
    PendingAt(x, 1, b);
  }

  /** That step and the lock are declared dependent and co-enabled. */
  lemma TwoContends(c: seq<RunnerId>, i: nat, trace: Trace, moments: seq<Moment>)
    requires PathOf(First(), Process, c, trace, moments)
    requires Run(First(), Process, c).Some? && i < |c| && c[i] == 1 && Count(c[..i], 1) == 1
    ensures |c| == |trace| == |moments| - 1 && moments[i] == At(Count(c[..i], 0), 1, Count(c[..i], 2))
    ensures Contends(trace, moments, i, 2) && 2 in EnabledIn(moments[i])
  {
    hide At, First, CanRun, EnabledIn, Advance, Process;
    TwoIsReady(c, i);
    PathIsRun(First(), Process, trace, moments, i);
    assert StepOk(Process, trace, moments, i);
    PendingAt(Count(c[..i], 0), 1, Count(c[..i], 2));
  }

  /** So some schedule completed lets thread 2 take that step while thread 1 is no further. */
  lemma Overtakes(completed: seq<seq<RunnerId>>, c: seq<RunnerId>, i: nat) returns (d: seq<RunnerId>, k: nat)
    requires ContentionAnswered(First(), Process, completed) && c in completed && Run(First(), Process, c).Some?
    requires i < |c| && c[i] == 1 && Count(c[..i], 1) == 1
    ensures d in completed && k <= |d| && Count(d[..k], 1) <= 1 && Count(d[..k], 2) == Count(c[..i], 2) + 1 <= 2
  {
    hide At, First, CanRun, EnabledIn, Process, Contends, Run, SameStepSince;
    StartIsOk();
    var trace, moments := RunHasPath(First(), Process, c);
    TwoContends(c, i, trace, moments);
    TwoIsReady(c, i);
    assert Contested(completed, trace, moments, i, 2);
    var j: nat :| j <= i && TookNext(completed, Schedule(trace[..i])[..j], 2) && SameStepSince(trace[..i], moments[..i + 1], j, 2);
    assert Schedule(trace[..i])[..j] == c[..j];
    d :| d in completed && c[..j] + [2] <= d;
    k := j + 1;
    assert d[..k] == c[..j] + [2] && d[..k][..j] == c[..j];
    assert c[..i][..j] == c[..j];
    CountGrows(c[..i], j, 1);
    SameCount(c, i, j, trace, moments);
  }

  /** The step that thread 2 is about to take tells how many it took. */
  lemma SameCount(c: seq<RunnerId>, i: nat, j: nat, trace: Trace, moments: seq<Moment>)
    requires PathOf(First(), Process, c, trace, moments) && j <= i < |trace| && i < |moments| - 1
    requires Run(First(), Process, c).Some? && Count(c[..i], 2) <= 1
    requires SameStepSince(trace[..i], moments[..i + 1], j, 2)
    ensures Count(c[..j], 2) == Count(c[..i], 2)
  {
    hide At, First, CanRun, Process, StepOk;
    RunPrefix(First(), Process, c, i);
    RunPrefix(First(), Process, c, j);
    RunIsByCounts(c[..i]);
    RunIsByCounts(c[..j]);
    PathIsRun(First(), Process, trace, moments, i);
    PathIsRun(First(), Process, trace, moments, j);
    PendingAt(Count(c[..i], 0), Count(c[..i], 1), Count(c[..i], 2));
    PendingAt(Count(c[..j], 0), Count(c[..j], 1), Count(c[..j], 2));
  }

  /** Once thread 2 holds the mutex before thread 1, neither gets further. */
  lemma {:induction false} TwoFirstStays(d: seq<RunnerId>, k: nat)
    requires Run(First(), Process, d).Some? && k <= |d|
    requires Count(d[..k], 1) <= 1 && Count(d[..k], 2) == 2
    ensures Count(d, 1) <= 1 && Count(d, 2) == 2
  {
    hide At, First, CanRun;
    if k < |d| {
      var n := |d| - 1;
      assert d[..n][..k] == d[..k];
      TwoFirstStays(d[..n], k);
      RunIsByCounts(d[..n]);
      WhoCanRun(Count(d[..n], 0), Count(d[..n], 1), Count(d[..n], 2), d[n]);
    } else {
      assert d[..k] == d;
    }
  }

  /** A completed schedule in which thread 2 is as far as thread 1 when that one locks leads
      to one in which thread 2 locks first. */
  lemma LockedIsStuck(completed: seq<seq<RunnerId>>, c: seq<RunnerId>, i: nat) returns (d: seq<RunnerId>)
    requires CompletedOk(First(), Process, completed) && ContentionAnswered(First(), Process, completed)
    requires c in completed && i < |c| && c[i] == 1 && Count(c[..i], 1) == 1 && Count(c[..i], 2) >= 1
    ensures d in completed && BothStuck(d)
  {
    hide First, Run, Process, EnabledIn, ContentionAnswered, BothStuck;
    var k;
    d, k := Overtakes(completed, c, i);
    assert CompleteRun(First(), Process, d);
    TwoFirstStays(d, k);
    WhereItEnds(d);
  }

  lemma DeadlockIsCompleted(completed: seq<seq<RunnerId>>) returns (d: seq<RunnerId>)
    requires CompletedOk(First(), Process, completed) && ContentionAnswered(First(), Process, completed) && completed != []
    ensures d in completed && BothStuck(d)
  {
    hide First, Run, Process, EnabledIn, ContentionAnswered, BothStuck;
    d := completed[0];
    assert CompleteRun(First(), Process, d);
    WhereItEnds(d);
    if !BothStuck(d) {
      var i := WhereOneLocks(d);
      if Count(d[..i], 2) == 0 {
        var k;
        d, k := Overtakes(completed, d, i);
        assert CompleteRun(First(), Process, d);
        WhereItEnds(d);
        if !BothStuck(d) {
          i := WhereOneLocks(d);
          LaterLock(d, i, k);
          d := LockedIsStuck(completed, d, i);
        }
      } else {
        d := LockedIsStuck(completed, d, i);
      }
    }
  }

  lemma LaterLock(d: seq<RunnerId>, i: nat, k: nat)
    requires i < |d| && d[i] == 1 && Count(d[..i], 1) == 1
    requires k <= |d| && Count(d[..k], 1) <= 1
    ensures k <= i && Count(d[..k], 2) <= Count(d[..i], 2)
  {
    if k > i {
      assert d[..k][..i + 1] == d[..i + 1] && d[..i + 1][..i] == d[..i];
      CountGrows(d[..k], i + 1, 1);
    } else {
      assert d[..i][..k] == d[..k];
      CountGrows(d[..i], k, 2);
    }
  }

  // --- The search itself ---

  lemma StartIsOk()
    ensures MomentOk(First()) && Faithful(Process, First())
  {
    FromMain.MainIsOk(3, Others());
    ProcessIsFaithful();
  }

  lemma ProcessIsFaithful()
    ensures Faithful(Process, First())
  {
    hide First;
    FirstIsZero();
    hide Count;
  }

  /** Nothing stops such a search before its end. */
  lemma NothingStopsIt(v: Verdict, max: nat)
    requires max >= 15
    ensures !Interrupted(First(), Process, v, max)
  {
    hide At, Run, EnabledIn, First;
    match v
    case Finished =>
    case LimitReached(c) =>
      if ReachesLimit(First(), Process, c, max) {
        RunIsByCounts(c);
        LongRunsEnd(c);
      }
    case Aborted(c) =>
      if DiesIn(First(), Process, c) {
        RunIsByCounts(c[..|c| - 1]);
        WhoCanRun(Count(c[..|c| - 1], 0), Count(c[..|c| - 1], 1), Count(c[..|c| - 1], 2), c[|c| - 1]);
      }
  }

  lemma LongRunsEnd(c: seq<RunnerId>)
    requires Run(First(), Process, c).Some? && |c| >= 14
    ensures EnabledIn(Run(First(), Process, c).value) == {}
  {
    hide At, Run, First, CanRun;
    RunIsByCounts(c);
    var x, a, b := Count(c, 0), Count(c, 1), Count(c, 2);
    forall r ensures !CanRun(At(x, a, b), r) {
      WhoCanRun(x, a, b, r);
    }
  }

  /** The search of this program finishes, and reports the deadlock of its two threads. */
  method VerifyIt(maximumTotalExecutionDepth: nat)
    returns (completed: seq<seq<RunnerId>>, deadlocks: seq<seq<RunnerId>>, verdict: Verdict)
    requires 15 <= maximumTotalExecutionDepth < UINT32
    ensures verdict == Finished && exists d :: d in deadlocks && BothStuck(d)
  {
    hide Interrupted, EnabledIn, ContentionAnswered, CompletedOk, FromMain.AtMain, AllAnswered, ConflictsAnswered, Faithful;
    StartIsOk();
    completed, deadlocks, verdict := FromMain.VerifyFromMain(3, Others(), Process, maximumTotalExecutionDepth);
    NothingStopsIt(verdict, maximumTotalExecutionDepth);
    ghost var d := DeadlockIsCompleted(completed);
    assert d in deadlocks;
  }
}
