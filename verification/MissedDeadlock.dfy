/**
 * A deadlock that the search misses, because another enabled runner is never tried first.
 * The main thread has exited, and two threads are about to lock one mutex. Thread 1 locks
 * it, unlocks it and exits; thread 2 locks it, joins thread 1, unlocks it and exits. When
 * thread 2 comes first both are stuck.
 */
module MissedDeadlock {
  import opened Basics
  import opened Transitions
  import opened ProgramSpec
  import opened Program
  import opened ExplorerSpec
  import opened Search
  import opened Races
  import opened Coordinator
  import opened ClassicDpor

  const MUTEX: ObjId := 3

  // --- The program ---

  /** How often `r` ran. */
  function Count(c: seq<RunnerId>, r: RunnerId): nat {
    if c == [] then 0 else Count(c[..|c| - 1], r) + if c[|c| - 1] == r then 1 else 0
  }

  /** What each thread does after its first `n` steps. */
  function StepOfOne(n: nat): Transition {
    if n == 0 then MutexLock(1, MUTEX) else if n == 1 then MutexUnlock(1, MUTEX) else ThreadExit(1)
  }

  function StepOfTwo(n: nat): Transition {
    if n == 0 then MutexLock(2, MUTEX)
    else if n == 1 then ThreadJoin(2, 1)
    else if n == 2 then MutexUnlock(2, MUTEX)
    else ThreadExit(2)
  }

  function Process(c: seq<RunnerId>): Reply {
    if c == [] then Failed
    else if c[|c| - 1] == 1 then NextOp(StepOfOne(Count(c, 1)))
    else if c[|c| - 1] == 2 then NextOp(StepOfTwo(Count(c, 2)))
    else Failed
  }

  /** Where the threads are after `a` and `b` steps of their own. */
  function At(a: nat, b: nat): Moment {
    Moment(State(map[0 := Thread(Exited), 1 := Thread(if a < 3 then Running else Exited),
                     2 := Thread(if b < 4 then Running else Exited), MUTEX := MutexAt(a, b)],
                 map[0 := 0, 1 := 1, 2 := 2]),
           map[0 := ThreadExit(0), 1 := StepOfOne(a), 2 := StepOfTwo(b)])
  }

  function MutexAt(a: nat, b: nat): Obj {
    if a == 1 then Mutex(Locked, 100, 1)
    else if b == 1 || b == 2 then Mutex(Locked, 100, 2)
    else Mutex(Unlocked, 100, RID_INVALID)
  }

  function First(): Moment { At(0, 0) }

  // --- Its runs ---

  /** The counts of a run: not both hold the mutex, and thread 1 exits before it is joined. */
  predicate Possible(a: nat, b: nat) {
    a <= 3 && b <= 4 && !(a == 1 && (b == 1 || b == 2)) && (b >= 2 ==> a == 3)
  }

  /** Who can run, by the counts. */
  predicate Goes(a: nat, b: nat, r: RunnerId) {
    if r == 1 then (a == 0 && b != 1 && b != 2) || a == 1 || a == 2
    else if r == 2 then (b == 0 && a != 1) || (b == 1 && a == 3) || b == 2 || b == 3
    else false
  }

  lemma WhoCanRun(a: nat, b: nat, r: RunnerId)
    requires Possible(a, b)
    ensures CanRun(At(a, b), r) <==> Goes(a, b, r)
  {
  }

  lemma OneMoves(a: nat, b: nat)
    requires Possible(a, b) && Goes(a, b, 1)
    ensures CanRun(At(a, b), 1) && Possible(a + 1, b) && Advance(At(a, b), 1, StepOfOne(a + 1)) == At(a + 1, b)
  {
    WhoCanRun(a, b, 1);
    assert At(a + 1, b).pending == At(a, b).pending[1 := StepOfOne(a + 1)];
    assert Step(StepOfOne(a), At(a, b).state).objs == At(a + 1, b).state.objs;
  }

  lemma TwoMoves(a: nat, b: nat)
    requires Possible(a, b) && Goes(a, b, 2)
    ensures CanRun(At(a, b), 2) && Possible(a, b + 1) && Advance(At(a, b), 2, StepOfTwo(b + 1)) == At(a, b + 1)
  {
    WhoCanRun(a, b, 2);
    assert At(a, b + 1).pending == At(a, b).pending[2 := StepOfTwo(b + 1)];
    assert Step(StepOfTwo(b), At(a, b).state).objs == At(a, b + 1).state.objs;
  }

  /** A run leads where its counts say, and is as long as they are together. */
  lemma {:induction false} RunIsByCounts(c: seq<RunnerId>)
    requires Run(First(), Process, c).Some?
    ensures var a, b := Count(c, 1), Count(c, 2);
      Possible(a, b) && |c| == a + b && Run(First(), Process, c).value == At(a, b)
  {
    hide CanRun, At;
    if c != [] {
      var n := |c| - 1;
      RunIsByCounts(c[..n]);
      var a, b := Count(c[..n], 1), Count(c[..n], 2);
      WhoCanRun(a, b, c[n]);
      if c[n] == 1 {
        OneMoves(a, b);
      } else {
        TwoMoves(a, b);
      }
    }
  }

  /** Nobody can go on when both are stuck, or when both have exited. */
  lemma WhereItEnds(a: nat, b: nat)
    requires Possible(a, b)
    ensures EnabledIn(At(a, b)) == {} <==> (a == 0 && b == 1) || (a == 3 && b == 4)
    ensures Stuck(At(a, b)) <==> a == 0 && b == 1
  {
    var m := At(a, b);
    forall r | r in m.pending ensures CanRun(m, r) <==> Goes(a, b, r) {
      WhoCanRun(a, b, r);
    }
    assert Goes(a, b, 1) ==> 1 in EnabledIn(m);
    assert Goes(a, b, 2) ==> 2 in EnabledIn(m);
    assert IsRunner(m.state, 1) && IsRunner(m.state, 2) && IsRunner(m.state, 0);
    assert m.pending.Keys == {0, 1, 2};
  }

  // --- What the search makes of it ---

  lemma TwoFirstDeadlocks()
    ensures CompleteRun(First(), Process, [2]) && Deadlocks(First(), Process, [2])
  {
    hide At, CanRun, EnabledIn, Stuck;
    TwoMoves(0, 0);
    WhereItEnds(0, 1);
    assert [2][..0] == [] && Count([2], 2) == 1;
  }

  lemma OnlyOneAndTwo()
    ensures EnabledIn(First()) == {1, 2} && Least(EnabledIn(First())) == 1
  {
    WhoCanRun(0, 0, 0);
    WhoCanRun(0, 0, 1);
    WhoCanRun(0, 0, 2);
    assert First().pending.Keys == {0, 1, 2};
  }

  lemma {:induction false} FirstCounts(c: seq<RunnerId>)
    requires c != []
    ensures Count(c, c[0]) >= 1
  {
    if |c| > 1 {
      FirstCounts(c[..|c| - 1]);
      assert c[..|c| - 1][0] == c[0];
    }
  }

  /** Where thread 1 comes first, every run ends with both threads gone. */
  lemma OneFirstIsFine(c: seq<RunnerId>)
    requires Run(First(), Process, c).Some? && LeastFirst(First(), c) && c != []
    ensures !Deadlocks(First(), Process, c)
  {
    hide At, Run, Process, EnabledIn, Stuck;
    OnlyOneAndTwo();
    FirstCounts(c);
    RunIsByCounts(c);
    WhereItEnds(Count(c, 1), Count(c, 2));
  }

  /** Whatever such a search reports, it is no deadlock, although the program has one. */
  lemma DeadlockIsMissed(completed: seq<seq<RunnerId>>, deadlocks: seq<seq<RunnerId>>)
    requires Reported(First(), Process, completed, deadlocks)
    ensures deadlocks == [] && Deadlocks(First(), Process, [2]) && [2] !in completed
  {
    hide At, EnabledIn, Deadlocks, CompleteRun;
    TwoFirstDeadlocks();
    OnlyOneAndTwo();
    if deadlocks != [] {
      var c := deadlocks[0];
      assert c in deadlocks && c in completed;
      NonEmptyRun(c);
      OneFirstIsFine(c);
    }
    assert !LeastFirst(First(), [2]);
  }

  lemma NonEmptyRun(c: seq<RunnerId>)
    requires CompleteRun(First(), Process, c)
    ensures c != [] && Run(First(), Process, c).Some?
  {
    hide EnabledIn, At;
    OnlyOneAndTwo();
  }

  /** Nothing stops such a search before its end. */
  lemma NothingStopsIt(v: Verdict, max: nat)
    requires max >= 9
    ensures !Interrupted(First(), Process, v, max)
  {
    hide At, Run, EnabledIn;
    match v
    case Finished =>
    case LimitReached(c) =>
      if ReachesLimit(First(), Process, c, max) {
        RunIsByCounts(c);
      }
    case Aborted(c) =>
      if DiesIn(First(), Process, c) {
        RunIsByCounts(c[..|c| - 1]);
        WhoCanRun(Count(c[..|c| - 1], 1), Count(c[..|c| - 1], 2), c[|c| - 1]);
      }
  }

  // --- The search itself ---

  function Objects(): seq<Obj> {
    [Thread(Exited), Thread(Running), Thread(Running), Mutex(Unlocked, 100, RID_INVALID)]
  }

  function FirstSteps(): map<RunnerId, Owned> {
    map[0 := Owned(0, ThreadExit(0)), 1 := Owned(1, MutexLock(1, MUTEX)), 2 := Owned(2, MutexLock(2, MUTEX))]
  }

  lemma StartIsFirst()
    ensures StartOf(Objects(), [0, 1, 2], FirstSteps()) == First()
  {
    StateIsFirst();
    hide At, Objects;
    assert NextOps(FirstSteps()) == First().pending by { StepsAreFirst(); }
  }

  lemma StateIsFirst()
    ensures StartOf(Objects(), [0, 1, 2], FirstSteps()).state == First().state
  {
    hide FirstSteps;
    var state, objs, runners := StartOf(Objects(), [0, 1, 2], FirstSteps()).state, Objects(), [0, 1, 2];
    forall i: ObjId ensures i in state.objs <==> i in First().state.objs {
      assert i < 4 <==> i in {0, 1, 2, 3};
    }
    forall r: RunnerId ensures r in state.runners <==> r in First().state.runners {
      assert r < 3 <==> r in {0, 1, 2};
    }
    assert state.objs == First().state.objs && state.runners == First().state.runners;
  }

  lemma StepsAreFirst()
    ensures NextOps(FirstSteps()) == First().pending
    ensures Keyed(NextOps(FirstSteps())) && Owns([], FirstSteps(), {})
  {
    hide Owns, First, FirstSteps;
    StepsOf(FirstSteps());
    StepsAreOwned();
    FirstPending();
    FirstOwned();
    assert NextOps(FirstSteps()) == First().pending;
  }

  lemma FirstPending()
    ensures First().pending.Keys == {0, 1, 2} && First().pending[0] == ThreadExit(0)
    ensures First().pending[1] == MutexLock(1, MUTEX) && First().pending[2] == MutexLock(2, MUTEX)
  {
  }

  lemma FirstOwned()
    ensures FirstSteps().Keys == {0, 1, 2} && FirstSteps()[0].op == ThreadExit(0)
    ensures FirstSteps()[1].op == MutexLock(1, MUTEX) && FirstSteps()[2].op == MutexLock(2, MUTEX)
  {
  }

  lemma StepsOf(next: map<RunnerId, Owned>)
    ensures NextOps(next).Keys == next.Keys && forall r :: r in next ==> NextOps(next)[r] == next[r].op
  {
  }

  lemma StepsAreOwned()
    ensures Owns([], FirstSteps(), {})
  {
    assert FirstSteps().Keys == {0, 1, 2};
  }

  lemma StartIsOk()
    ensures MomentOk(First()) && Faithful(Process, First()) && Consecutive(First())
  {
    FirstIsTyped();
    ProcessIsFaithful();
    hide MomentOk, Faithful;
    var pending := First().pending;
    assert pending.Keys == {0, 1, 2} && |pending| == |pending.Keys|;
  }

  lemma FirstIsTyped()
    ensures MomentOk(First())
  {
  }

  lemma ProcessIsFaithful()
    ensures Faithful(Process, First())
  {
    hide Count;
  }

  /** The search of this program finishes and reports no deadlock. */
  method VerifyIt(maximumTotalExecutionDepth: nat)
    returns (completed: seq<seq<RunnerId>>, deadlocks: seq<seq<RunnerId>>, verdict: Verdict)
    requires 9 <= maximumTotalExecutionDepth < UINT32
    ensures verdict == Finished && completed != [] && deadlocks == []
    ensures Deadlocks(First(), Process, [2])
  {
    hide MomentOk, Faithful, Reported, Interrupted, Consecutive, EnabledIn, StartOf, Coordinator.Valid, Owns, Keyed, Deadlocks, At,
         AllAnswered, First;
    StartIsFirst();
    StepsAreFirst();
    StartIsOk();
    var coordinator := new Coordinator(Objects(), [0, 1, 2], FirstSteps(), Process, 3);
    var explorer := new Explorer(coordinator, maximumTotalExecutionDepth);
    completed, deadlocks, verdict := explorer.VerifyUsing();
    NothingStopsIt(verdict, maximumTotalExecutionDepth);
    DeadlockIsMissed(completed, deadlocks);
  }
}
