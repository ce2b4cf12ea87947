/**
 * Where verification starts: the main thread about to start, and the threads it may
 * create not yet started. Nobody else can take the first step.
 */
module FromMain {
  import opened Basics
  import opened Transitions
  import opened Independence
  import opened ProgramSpec
  import opened Program
  import opened ExplorerSpec
  import opened Search
  import opened Races
  import opened Coordinator
  import opened ClassicDpor

  /** The thread objects, the main thread first, followed by all other objects. */
  function Objects(n: nat, others: seq<Obj>): seq<Obj> {
    seq(n, i => Thread(if i == 0 then Running else Embryo)) + others
  }

  function Runners(n: nat): seq<ObjId> {
    seq(n, i => i)
  }

  /** Everybody starts with `thread_start`. */
  function FirstSteps(n: nat): map<RunnerId, Owned> {
    map r: RunnerId | 0 <= r < 0x1_0000 && r < n :: Owned(r, ThreadStart(r))
  }

  function AtMain(n: nat, others: seq<Obj>): Moment {
    StartOf(Objects(n, others), Runners(n), FirstSteps(n))
  }

  function FirstIds(n: nat): (r: set<RunnerId>)
    requires n <= 0xFFFF
    ensures |r| == n && forall q: RunnerId :: q in r <==> q < n
  {
    if n == 0 then {} else FirstIds(n - 1) + {n - 1}
  }

  lemma StepsAreOwned(n: nat)
    requires n <= 0xFFFF
    ensures Keyed(NextOps(FirstSteps(n))) && Owns([], FirstSteps(n), {})
    ensures forall r :: r in FirstSteps(n) ==> FirstSteps(n)[r].address < n
  {
  }

  lemma RunnerIsThread(n: nat, others: seq<Obj>, r: RunnerId)
    requires r < n <= 0xFFFF
    ensures r in AtMain(n, others).pending && AtMain(n, others).pending[r] == ThreadStart(r)
    ensures IsRunner(AtMain(n, others).state, r)
    ensures StatusOfRunner(AtMain(n, others).state, r) == if r == RID_MAIN_THREAD then Running else Embryo
  {
  }

  lemma MainIsOk(n: nat, others: seq<Obj>)
    requires n <= 0xFFFF
    ensures MomentOk(AtMain(n, others))
  {
    var m := AtMain(n, others);
    StepsAreOwned(n);
    forall r | r in m.pending ensures WellTyped(m.pending[r], m.state) {
      RunnerIsThread(n, others, r);
    }
  }

  lemma IdsAreConsecutive(n: nat, others: seq<Obj>)
    requires n <= 0xFFFF
    ensures Consecutive(AtMain(n, others))
  {
    var pending := AtMain(n, others).pending;
    assert pending.Keys == FirstIds(n) by {
      forall r: RunnerId ensures r in pending <==> r in FirstIds(n) {
        PendingAreIds(n, others, r);
      }
    }
    hide AtMain, FirstIds;
    assert |pending| == |pending.Keys|;
  }

  /** Only the main thread can take the first step. */
  lemma MainRunsAlone(n: nat, others: seq<Obj>)
    requires 1 <= n <= 0xFFFF
    ensures EnabledIn(AtMain(n, others)) == {RID_MAIN_THREAD}
  {
    hide AtMain, CanRun;
    var m := AtMain(n, others);
    assert RID_MAIN_THREAD in m.pending && CanRun(m, RID_MAIN_THREAD) by {
      MainAloneCanRun(n, others, RID_MAIN_THREAD);
    }
    forall r | r in m.pending ensures CanRun(m, r) <==> r == RID_MAIN_THREAD {
      MainAloneCanRun(n, others, r);
    }
  }

  lemma MainAloneCanRun(n: nat, others: seq<Obj>, r: RunnerId)
    requires 1 <= n <= 0xFFFF
    ensures r in AtMain(n, others).pending <==> r < n
    ensures r < n ==> (CanRun(AtMain(n, others), r) <==> r == RID_MAIN_THREAD)
  {
    PendingAreIds(n, others, r);
    if r < n {
      RunnerIsThread(n, others, r);
      ThreadStartCanRun(AtMain(n, others), r);
    }
  }

  lemma PendingAreIds(n: nat, others: seq<Obj>, r: RunnerId)
    ensures r in AtMain(n, others).pending <==> r < n
  {
  }

  lemma ThreadStartCanRun(m: Moment, r: RunnerId)
    requires r in m.pending && m.pending[r] == ThreadStart(r) && IsRunner(m.state, r)
    ensures CanRun(m, r) <==> StatusOfRunner(m.state, r) == Running
  {
  }

  /** Each thread has an object of its own. */
  lemma MainIsWellFormed(n: nat, others: seq<Obj>)
    ensures WellFormed(AtMain(n, others).state)
  {
    var s := AtMain(n, others).state;
    assert forall r :: r in s.runners ==> s.runners[r] == r;
  }

  /** The whole program: a search from the main thread over every schedule it decides to
      try, for any target that answers for the runner scheduled. */
  method VerifyFromMain(n: nat, others: seq<Obj>, target: Target, maximumTotalExecutionDepth: nat)
    returns (completed: seq<seq<RunnerId>>, deadlocks: seq<seq<RunnerId>>, verdict: Verdict)
    requires 1 <= n <= 0xFFFF && Faithful(target, AtMain(n, others))
    requires maximumTotalExecutionDepth < UINT32
    ensures Reported(AtMain(n, others), target, completed, deadlocks)
    ensures forall c :: c in completed ==> c != [] && c[0] == RID_MAIN_THREAD
    ensures verdict == Finished || Interrupted(AtMain(n, others), target, verdict, maximumTotalExecutionDepth)
    ensures verdict == Finished ==> completed != [] && AllAnswered(AtMain(n, others), target, completed)
    ensures verdict == Finished ==> ContentionAnswered(AtMain(n, others), target, completed)
    ensures verdict == Finished ==> ConflictsAnswered(AtMain(n, others), target, completed)
  {
    hide MomentOk, Faithful, Reported, Interrupted, Consecutive, EnabledIn, StartOf, Coordinator.Valid, Owns, Keyed, AllAnswered,
         WellFormed, ContentionAnswered, ConflictsAnswered;
    MainIsWellFormed(n, others);
    StepsAreOwned(n);
    MainIsOk(n, others);
    IdsAreConsecutive(n, others);
    var coordinator := new Coordinator(Objects(n, others), Runners(n), FirstSteps(n), target, n);
    var explorer := new Explorer(coordinator, maximumTotalExecutionDepth);
    completed, deadlocks, verdict := explorer.VerifyUsing();
    MainComesFirst(n, others, target, completed, deadlocks);
  }

  lemma MainComesFirst(n: nat, others: seq<Obj>, target: Target, completed: seq<seq<RunnerId>>, deadlocks: seq<seq<RunnerId>>)
    requires 1 <= n <= 0xFFFF && Reported(AtMain(n, others), target, completed, deadlocks)
    ensures forall c :: c in completed ==> c != [] && c[0] == RID_MAIN_THREAD
  {
    hide AtMain, EnabledIn, Deadlocks;
    MainRunsAlone(n, others);
    forall c | c in completed ensures c != [] && c[0] == RID_MAIN_THREAD {
      assert CompleteRun(AtMain(n, others), target, c) && LeastFirst(AtMain(n, others), c);
    }
  }
}
