/**
 * The handshake between the scheduler and the threads of a branch: each waits on its
 * own semaphore until the other posts it. Threads come and go with create, exit and
 * join. There is one token of control.
 */
module Handshake {
  import opened Basics

  type Tid = nat

  /** What a thread does once the scheduler lets it go on. */
  datatype Resume = GoOn | GoJoin(target: Tid) | GoFinish

  /** Where a thread stands in the wrappers. */
  datatype Pc =
    | Absent
    | Starting                   // created, not yet registered
    | Parked(next: Resume)       // on its mailbox semaphore
    | InTarget                   // in target code
    | Creating(child: Tid)       // on the creation semaphore of its child
    | Announcing                 // its child is registered
    | Granting(target: Tid)      // about to let the joined thread terminate
    | Joining(target: Tid)       // in the real join
    | Finishing                  // about to report its exit
    | AwaitingPermission         // on its exit-permission semaphore
    | Leaving
    | Gone
    | Blocked                    // the main thread after its exit

  /** A thread with the semaphores that belong to it. */
  datatype Thr = Thr(pc: Pc, child: nat, model: nat, created: nat, permit: nat)

  datatype Scheduler = Choosing | WaitingFor(t: Tid)

  datatype World = World(sched: Scheduler, threads: map<Tid, Thr>)

  const MAIN: Tid := 0

  datatype Event =
    | Execute(t: Tid)            // the scheduler posts the mailbox and waits
    | Heard(t: Tid)              // the scheduler's wait succeeds
    | Resumes(t: Tid)            // the thread's wait succeeds
    | Reaches(t: Tid)            // a visible operation
    | ReachesJoin(t: Tid, target: Tid)
    | ReachesExit(t: Tid)
    | Creates(t: Tid, child: Tid)
    | Registers(t: Tid)
    | ChildIsRegistered(t: Tid)
    | Announces(t: Tid)
    | Grants(t: Tid)
    | Joined(t: Tid)
    | Finishes(t: Tid)
    | IsPermitted(t: Tid)
    | Leaves(t: Tid)

  predicate At(w: World, t: Tid, pc: Pc) {
    t in w.threads && w.threads[t].pc == pc
  }

  /** The thread took its exit step and is not the main thread. */
  predicate Exited(w: World, t: Tid) {
    t in w.threads && (w.threads[t].pc == AwaitingPermission || w.threads[t].pc == Leaving || w.threads[t].pc == Gone)
  }

  /** The model enables a join only once its target has exited. */
  predicate CanHappen(w: World, e: Event) {
    match e
    case Execute(t) =>
      w.sched == Choosing && t in w.threads && w.threads[t].pc.Parked?
      && (w.threads[t].pc.next.GoJoin? ==> Exited(w, w.threads[t].pc.next.target))
    case Heard(t) => w.sched == WaitingFor(t) && t in w.threads && w.threads[t].model > 0
    case Resumes(t) => t in w.threads && w.threads[t].pc.Parked? && w.threads[t].child > 0
    case Reaches(t) => At(w, t, InTarget)
    case ReachesJoin(t, u) => At(w, t, InTarget)
    case ReachesExit(t) => At(w, t, InTarget)
    case Creates(t, c) => At(w, t, InTarget) && At(w, c, Absent)
    case Registers(t) => At(w, t, Starting)
    case ChildIsRegistered(t) =>
      t in w.threads && w.threads[t].pc.Creating? && w.threads[t].pc.child in w.threads
      && w.threads[w.threads[t].pc.child].created > 0
    case Announces(t) => At(w, t, Announcing)
    case Grants(t) => t in w.threads && w.threads[t].pc.Granting? && w.threads[t].pc.target in w.threads
    case Joined(t) => t in w.threads && w.threads[t].pc.Joining? && At(w, w.threads[t].pc.target, Gone)
    case Finishes(t) => At(w, t, Finishing)
    case IsPermitted(t) => At(w, t, AwaitingPermission) && w.threads[t].permit > 0
    case Leaves(t) => At(w, t, Leaving)
  }

  function Put(w: World, t: Tid, x: Thr): World {
    w.(threads := w.threads[t := x])
  }

  function Jump(w: World, t: Tid, pc: Pc): World
    requires t in w.threads
  {
    Put(w, t, w.threads[t].(pc := pc))
  }

  /** `thread_wake_scheduler_and_wait`. */
  function Report(w: World, t: Tid, pc: Pc): World
    requires t in w.threads
  {
    Put(w, t, w.threads[t].(pc := pc, model := w.threads[t].model + 1))
  }

  function Next(w: World, e: Event): World
    requires CanHappen(w, e)
  {
    match e
    case Execute(t) => Put(w, t, w.threads[t].(child := w.threads[t].child + 1)).(sched := WaitingFor(t))
    case Heard(t) => Put(w, t, w.threads[t].(model := w.threads[t].model - 1)).(sched := Choosing)
    case Resumes(t) =>
      var x := w.threads[t];
      var pc := match x.pc.next case GoOn => InTarget case GoJoin(u) => Granting(u) case GoFinish => Finishing;
      Put(w, t, x.(pc := pc, child := x.child - 1))
    case Reaches(t) => Report(w, t, Parked(GoOn))
    case ReachesJoin(t, u) => Report(w, t, Parked(GoJoin(u)))
    case ReachesExit(t) => Report(w, t, Parked(GoFinish))
    case Creates(t, c) => Jump(Jump(w, c, Starting), t, Creating(c))
    case Registers(t) => Put(w, t, w.threads[t].(pc := Parked(GoOn), created := w.threads[t].created + 1))
    case ChildIsRegistered(t) =>
      var c := w.threads[t].pc.child;
      Jump(Put(w, c, w.threads[c].(created := w.threads[c].created - 1)), t, Announcing)
    case Announces(t) => Report(w, t, Parked(GoOn))
    case Grants(t) =>
      var u := w.threads[t].pc.target;
      Jump(Put(w, u, w.threads[u].(permit := w.threads[u].permit + 1)), t, Joining(u))
    case Joined(t) => Jump(w, t, InTarget)
    case Finishes(t) => Report(w, t, if t == MAIN then Blocked else AwaitingPermission)
    case IsPermitted(t) => Put(w, t, w.threads[t].(pc := Leaving, permit := w.threads[t].permit - 1))
    case Leaves(t) => Jump(w, t, Gone)
  }

  /** The main thread is parked and nobody else has been created. */
  function Initially(others: set<Tid>): World {
    World(Choosing, map t | t in others + {MAIN} :: Thr(if t == MAIN then Parked(GoOn) else Absent, 0, 0, 0, 0))
  }

  function After(others: set<Tid>, h: seq<Event>): Option<World> {
    if h == [] then Some(Initially(others)) else
      match After(others, h[..|h| - 1])
      case None => None
      case Some(w) => if CanHappen(w, h[|h| - 1]) then Some(Next(w, h[|h| - 1])) else None
  }

  // --- The token ---

  /** Who has control: the scheduler, a post that is still pending, or a thread. */
  datatype Token = WithScheduler | PostedToThread(t: Tid) | PostedToScheduler(t: Tid) | WithThread(t: Tid)

  /** In target code, or on its way between two semaphores on behalf of target code. */
  predicate InControl(pc: Pc) {
    pc == InTarget || pc.Creating? || pc == Announcing || pc.Granting? || pc.Joining? || pc == Finishing
  }

  function One(b: bool): nat { if b then 1 else 0 }

  ghost predicate ThreadOk(k: Token, t: Tid, x: Thr) {
    && x.child == One(k == PostedToThread(t))
    && x.model == One(k == PostedToScheduler(t))
    && (InControl(x.pc) <==> k == WithThread(t))
    && (k == PostedToThread(t) ==> x.pc.Parked?)
  }

  /** Threads on their way in or out are waited for by the thread in control. */
  ghost predicate Escorted(w: World, k: Token, t: Tid)
    requires t in w.threads
  {
    var x := w.threads[t];
    && (x.pc == Starting ==> k.WithThread? && At(w, k.t, Creating(t)))
    && (x.created > 0 ==> k.WithThread? && At(w, k.t, Creating(t)) && x.created == 1 && x.pc == Parked(GoOn))
    && (x.pc == Leaving || (x.pc == AwaitingPermission && x.permit > 0) ==> k.WithThread? && At(w, k.t, Joining(t)))
    && (x.pc.Creating? ==> x.pc.child in w.threads && (At(w, x.pc.child, Starting) || w.threads[x.pc.child].created > 0))
    && (x.pc.Granting? ==> Exited(w, x.pc.target))
    && (x.pc.Joining? ==> Exited(w, x.pc.target) && (At(w, x.pc.target, AwaitingPermission) ==> w.threads[x.pc.target].permit > 0))
    && (k == PostedToThread(t) && x.pc.Parked? && x.pc.next.GoJoin? ==> Exited(w, x.pc.next.target))
    && (x.permit > 0 ==> Exited(w, t))
  }

  ghost predicate Holds(w: World, k: Token) {
    && (w.sched == Choosing <==> k == WithScheduler)
    && (w.sched.WaitingFor? ==> k.t == w.sched.t && k.t in w.threads)
    && (forall t :: t in w.threads ==> ThreadOk(k, t, w.threads[t]))
    && (forall t :: t in w.threads ==> Escorted(w, k, t))
  }

  /** Where the token goes. */
  function Passed(k: Token, e: Event): Token {
    match e
    case Execute(t) => PostedToThread(t)
    case Heard(t) => WithScheduler
    case Resumes(t) => WithThread(t)
    case Reaches(t) => PostedToScheduler(t)
    case ReachesJoin(t, _) => PostedToScheduler(t)
    case ReachesExit(t) => PostedToScheduler(t)
    case Announces(t) => PostedToScheduler(t)
    case Finishes(t) => PostedToScheduler(t)
    case _ => k
  }

  lemma NextKeepsThreads(w: World, k: Token, e: Event)
    requires Holds(w, k) && CanHappen(w, e)
    ensures var w' := Next(w, e); forall t :: t in w'.threads ==> ThreadOk(Passed(k, e), t, w'.threads[t])
  {
    hide Escorted, ThreadOk;
    forall t | t in Next(w, e).threads ensures ThreadOk(Passed(k, e), t, Next(w, e).threads[t]) {
      NextKeepsThread(w, k, e, t);
    }
  }

  lemma NextKeepsThread(w: World, k: Token, e: Event, t: Tid)
    requires Holds(w, k) && CanHappen(w, e) && t in Next(w, e).threads
    ensures ThreadOk(Passed(k, e), t, Next(w, e).threads[t])
  {
    hide Holds, ThreadOk, CanHappen;
    if t == e.t {
      NextKeepsMover(w, k, e);
    } else {
      NextKeepsOther(w, k, e, t);
    }
  }

  lemma NextKeepsMover(w: World, k: Token, e: Event)
    requires Holds(w, k) && CanHappen(w, e) && e.t in Next(w, e).threads
    ensures ThreadOk(Passed(k, e), e.t, Next(w, e).threads[e.t])
  {
    hide Escorted;
    assert e.t in w.threads && ThreadOk(k, e.t, w.threads[e.t]);
  }

  lemma NextKeepsOther(w: World, k: Token, e: Event, t: Tid)
    requires Holds(w, k) && CanHappen(w, e) && t in Next(w, e).threads && t != e.t
    ensures ThreadOk(Passed(k, e), t, Next(w, e).threads[t])
  {
    hide Escorted;
    assert t in w.threads && ThreadOk(k, t, w.threads[t]) && ThreadOk(k, e.t, w.threads[e.t]);
  }

  lemma MailboxesKeepEscorts(w: World, k: Token, e: Event, t: Tid)
    requires Holds(w, k) && CanHappen(w, e) && t in w.threads
    requires e.Execute? || e.Heard? || e.Resumes?
    ensures t in Next(w, e).threads && Escorted(Next(w, e), Passed(k, e), t)
  {
    assert Escorted(w, k, t);
  }

  lemma ReportsKeepEscorts(w: World, k: Token, e: Event, t: Tid)
    requires Holds(w, k) && CanHappen(w, e) && t in w.threads
    requires e.Reaches? || e.ReachesJoin? || e.ReachesExit? || e.Announces? || e.Finishes?
    ensures t in Next(w, e).threads && Escorted(Next(w, e), Passed(k, e), t)
  {
    assert Escorted(w, k, t);
  }

  lemma CreateKeepEscorts(w: World, k: Token, e: Event, t: Tid)
    requires Holds(w, k) && CanHappen(w, e) && t in w.threads
    requires e.Creates?
    ensures t in Next(w, e).threads && Escorted(Next(w, e), Passed(k, e), t)
  {
    assert Escorted(w, k, t);
  }

  lemma RegistrationKeepEscorts(w: World, k: Token, e: Event, t: Tid)
    requires Holds(w, k) && CanHappen(w, e) && t in w.threads
    requires e.Registers? || e.ChildIsRegistered?
    ensures t in Next(w, e).threads && Escorted(Next(w, e), Passed(k, e), t)
  {
    assert Escorted(w, k, t);
  }

  lemma GrantKeepEscorts(w: World, k: Token, e: Event, t: Tid)
    requires Holds(w, k) && CanHappen(w, e) && t in w.threads
    requires e.Grants?
    ensures t in Next(w, e).threads && Escorted(Next(w, e), Passed(k, e), t)
  {
    assert Escorted(w, k, t);
  }

  lemma DepartureKeepEscorts(w: World, k: Token, e: Event, t: Tid)
    requires Holds(w, k) && CanHappen(w, e) && t in w.threads
    requires e.Joined? || e.IsPermitted? || e.Leaves?
    ensures t in Next(w, e).threads && Escorted(Next(w, e), Passed(k, e), t)
  {
    assert Escorted(w, k, t);
  }

  lemma NextKeepsEscorts(w: World, k: Token, e: Event, t: Tid)
    requires Holds(w, k) && CanHappen(w, e) && t in w.threads
    ensures t in Next(w, e).threads && Escorted(Next(w, e), Passed(k, e), t)
  {
    hide Next, Holds, Escorted, CanHappen;
    if e.Execute? || e.Heard? || e.Resumes? { MailboxesKeepEscorts(w, k, e, t); }
    else if e.Reaches? || e.ReachesJoin? || e.ReachesExit? || e.Announces? || e.Finishes? { ReportsKeepEscorts(w, k, e, t); }
    else if e.Creates? { CreateKeepEscorts(w, k, e, t); }
    else if e.Registers? || e.ChildIsRegistered? { RegistrationKeepEscorts(w, k, e, t); }
    else if e.Grants? { GrantKeepEscorts(w, k, e, t); }
    else { DepartureKeepEscorts(w, k, e, t); }
  }

  lemma NextKeepsHolds(w: World, k: Token, e: Event)
    requires Holds(w, k) && CanHappen(w, e)
    ensures Holds(Next(w, e), Passed(k, e))
  {
    NextKeepsThreads(w, k, e);
    forall t | t in w.threads ensures Escorted(Next(w, e), Passed(k, e), t) {
      NextKeepsEscorts(w, k, e, t);
    }
  }

  lemma InitiallyHolds(others: set<Tid>)
    ensures Holds(Initially(others), WithScheduler)
  {
  }

  /** The token of a run. */
  function TokenAfter(h: seq<Event>): Token {
    if h == [] then WithScheduler else Passed(TokenAfter(h[..|h| - 1]), h[|h| - 1])
  }

  lemma {:induction false} RunHolds(others: set<Tid>, h: seq<Event>)
    requires After(others, h).Some?
    ensures Holds(After(others, h).value, TokenAfter(h))
  {
    if h == [] {
      InitiallyHolds(others);
    } else {
      RunHolds(others, h[..|h| - 1]);
      NextKeepsHolds(After(others, h[..|h| - 1]).value, TokenAfter(h[..|h| - 1]), h[|h| - 1]);
    }
  }

  // --- What it is for ---

  /** On a semaphore that is zero, or not running at all. */
  predicate Still(x: Thr) {
    match x.pc
    case Parked(_) => x.child == 0 && x.created == 0
    case AwaitingPermission => x.permit == 0
    case Absent => true
    case Gone => true
    case Blocked => true
    case _ => false
  }

  /** On its way in while `p` waits for it to register, or on its way out while `p` joins it. */
  predicate Accompanies(w: World, p: Tid, t: Tid)
    requires t in w.threads
  {
    || (At(w, p, Creating(t)) && (w.threads[t].pc == Starting || w.threads[t].pc == Parked(GoOn)))
    || (At(w, p, Joining(t)) && Exited(w, t))
  }

  /** One of the scheduler, the posts and the threads has control, and everything else
      stands still, but for a thread that the one in control waits for. */
  ghost predicate OneInControl(w: World) {
    || (w.sched == Choosing && forall t :: t in w.threads ==> Still(w.threads[t]) && w.threads[t].model == 0)
    || exists p :: p in w.threads && w.sched == WaitingFor(p) && HasControl(w, p)
  }

  ghost predicate HasControl(w: World, p: Tid)
    requires p in w.threads
  {
    var x := w.threads[p];
    && One(InControl(x.pc)) + x.child + x.model == 1
    && (x.child == 1 ==> x.pc.Parked?)
    && forall t :: t in w.threads && t != p ==>
         w.threads[t].model == 0 && (Still(w.threads[t]) || Accompanies(w, p, t))
  }

  lemma HeldByThread(w: World, k: Token)
    requires Holds(w, k) && k != WithScheduler
    ensures k.t in w.threads && w.sched == WaitingFor(k.t) && HasControl(w, k.t)
  {
    forall t | t in w.threads && t != k.t
      ensures w.threads[t].model == 0 && (Still(w.threads[t]) || Accompanies(w, k.t, t))
    {
      assert ThreadOk(k, t, w.threads[t]) && Escorted(w, k, t);
    }
    assert ThreadOk(k, k.t, w.threads[k.t]);
  }

  /** In every reachable state exactly one party has control. */
  lemma ExactlyOneToken(others: set<Tid>, h: seq<Event>, w: World)
    requires After(others, h) == Some(w)
    ensures OneInControl(w)
  {
    var k := TokenAfter(h);
    RunHolds(others, h);
    if k == WithScheduler {
      forall t | t in w.threads ensures Still(w.threads[t]) && w.threads[t].model == 0 {
        assert ThreadOk(k, t, w.threads[t]) && Escorted(w, k, t);
      }
    } else {
      HeldByThread(w, k);
    }
  }

  /** No two threads are in target code at once, and none while the scheduler chooses. */
  lemma TargetCodeIsSequential(others: set<Tid>, h: seq<Event>, w: World, t: Tid, u: Tid)
    requires After(others, h) == Some(w) && At(w, t, InTarget)
    ensures w.sched == WaitingFor(t)
    ensures At(w, u, InTarget) ==> u == t
  {
    RunHolds(others, h);
    assert ThreadOk(TokenAfter(h), t, w.threads[t]);
    if At(w, u, InTarget) {
      assert ThreadOk(TokenAfter(h), u, w.threads[u]);
    }
  }

  /** The scheduler never waits in vain: some step can always be taken until it is heard. */
  lemma SchedulerIsAnswered(others: set<Tid>, h: seq<Event>, w: World)
    requires After(others, h) == Some(w) && w.sched.WaitingFor?
    ensures exists e :: CanHappen(w, e)
  {
    RunHolds(others, h);
    var k := TokenAfter(h);
    var t := k.t;
    assert ThreadOk(k, t, w.threads[t]) && Escorted(w, k, t);
    match k {
      case PostedToThread(_) => assert CanHappen(w, Resumes(t));
      case PostedToScheduler(_) => assert CanHappen(w, Heard(t));
      case WithThread(_) => ThreadGoesOn(w, k);
    }
  }

  lemma ThreadGoesOn(w: World, k: Token)
    requires Holds(w, k) && k.WithThread? && k.t in w.threads
    ensures exists e :: CanHappen(w, e)
  {
    var t := k.t;
    assert ThreadOk(k, t, w.threads[t]) && Escorted(w, k, t);
    match w.threads[t].pc {
      case InTarget => assert CanHappen(w, Reaches(t));
      case Creating(c) =>
        if At(w, c, Starting) {
          assert CanHappen(w, Registers(c));
        } else {
          assert CanHappen(w, ChildIsRegistered(t));
        }
      case Announcing => assert CanHappen(w, Announces(t));
      case Granting(_) => assert CanHappen(w, Grants(t));
      case Joining(u) =>
        if At(w, u, AwaitingPermission) {
          assert CanHappen(w, IsPermitted(u));
        } else if At(w, u, Leaving) {
          assert CanHappen(w, Leaves(u));
        } else {
          assert CanHappen(w, Joined(t));
        }
      case Finishing => assert CanHappen(w, Finishes(t));
    }
  }

  // --- Progress ---

  /** How far a thread in control is from its next report, at most. */
  function StepsLeft(w: World, t: Tid): nat
    requires t in w.threads
  {
    match w.threads[t].pc
    case InTarget => 5
    case Creating(c) => if At(w, c, Starting) then 4 else 3
    case Announcing => 2
    case Finishing => 2
    case Granting(_) => 9
    case Joining(u) => if At(w, u, AwaitingPermission) then 8 else if At(w, u, Leaving) then 7 else 6
    case _ => 0
  }

  /** How many steps, at most, until the scheduler is heard. */
  function Distance(w: World, k: Token): nat {
    match k
    case WithScheduler => 0
    case PostedToScheduler(_) => 1
    case WithThread(t) => if t in w.threads then StepsLeft(w, t) else 0
    case PostedToThread(_) => 10
  }

  /** While the scheduler waits, only the one in control and whom it waits for can move. */
  lemma WhoMoves(w: World, k: Token, e: Event)
    requires Holds(w, k) && k != WithScheduler && CanHappen(w, e)
    ensures match e
      case Execute(_) => false
      case Heard(t) => k == PostedToScheduler(t)
      case Resumes(t) => k == PostedToThread(t)
      case Registers(c) => k.WithThread? && At(w, k.t, Creating(c))
      case IsPermitted(u) => k.WithThread? && At(w, k.t, Joining(u))
      case Leaves(u) => k.WithThread? && At(w, k.t, Joining(u))
      case _ => k == WithThread(e.t)
  {
    if !e.Execute? {
      assert ThreadOk(k, e.t, w.threads[e.t]) && Escorted(w, k, e.t);
    }
  }

  lemma PostIsProgress(w: World, k: Token, e: Event)
    requires Holds(w, k) && (k.PostedToScheduler? || k.PostedToThread?) && CanHappen(w, e)
    ensures Distance(Next(w, e), Passed(k, e)) < Distance(w, k)
  {
    WhoMoves(w, k, e);
  }

  lemma HolderIsProgress(w: World, k: Token, e: Event)
    requires Holds(w, k) && k == WithThread(e.t) && CanHappen(w, e)
    ensures Distance(Next(w, e), Passed(k, e)) < Distance(w, k)
  {
    WhoMoves(w, k, e);
    assert ThreadOk(k, e.t, w.threads[e.t]) && Escorted(w, k, e.t);
  }

  lemma EscortIsProgress(w: World, k: Token, e: Event)
    requires Holds(w, k) && k.WithThread? && k.t != e.t && CanHappen(w, e)
    ensures Distance(Next(w, e), Passed(k, e)) < Distance(w, k)
  {
    WhoMoves(w, k, e);
    assert ThreadOk(k, e.t, w.threads[e.t]) && Escorted(w, k, e.t);
  }

  /** Whatever step is taken while the scheduler waits, it comes closer to being heard. */
  lemma EveryStepIsProgress(w: World, k: Token, e: Event)
    requires Holds(w, k) && k != WithScheduler && CanHappen(w, e)
    ensures Distance(Next(w, e), Passed(k, e)) < Distance(w, k)
  {
    hide Holds, CanHappen, Next, Passed, Distance;
    if !k.WithThread? {
      PostIsProgress(w, k, e);
    } else if k.t == e.t {
      HolderIsProgress(w, k, e);
    } else {
      EscortIsProgress(w, k, e);
    }
  }

  lemma DistanceIsSmall(w: World, k: Token)
    ensures Distance(w, k) <= 10
  {
  }

  /** The scheduler has been waiting for the last `n` events. */
  ghost predicate WaitedFor(others: set<Tid>, h: seq<Event>, n: nat) {
    n <= |h| && forall i :: |h| - n <= i <= |h| ==> After(others, h[..i]).Some? && After(others, h[..i]).value.sched.WaitingFor?
  }

  lemma {:induction false} WaitingShrinks(others: set<Tid>, h: seq<Event>, n: nat)
    requires WaitedFor(others, h, n) && After(others, h).Some?
    ensures n + Distance(After(others, h).value, TokenAfter(h)) <= 10
    decreases n
  {
    var w, k := After(others, h).value, TokenAfter(h);
    DistanceIsSmall(w, k);
    if n > 0 {
      var front, e := h[..|h| - 1], h[|h| - 1];
      var w0, k0 := After(others, front).value, TokenAfter(front);
      forall i | |front| - (n - 1) <= i <= |front|
        ensures After(others, front[..i]).Some? && After(others, front[..i]).value.sched.WaitingFor?
      {
        assert front[..i] == h[..i];
      }
      WaitingShrinks(others, front, n - 1);
      RunHolds(others, front);
      assert front[..|front|] == front;
      EveryStepIsProgress(w0, k0, e);
    }
  }

  /** The scheduler is heard within ten steps, whichever they are. */
  lemma SchedulerIsHeard(others: set<Tid>, h: seq<Event>, n: nat)
    requires WaitedFor(others, h, n) && After(others, h).Some?
    ensures n < 10
  {
    WaitingShrinks(others, h, n);
    RunHolds(others, h);
    assert h[..|h|] == h;
    TokenIsFar(After(others, h).value, TokenAfter(h));
  }

  lemma TokenIsFar(w: World, k: Token)
    requires Holds(w, k) && k != WithScheduler
    ensures Distance(w, k) > 0
  {
    assert ThreadOk(k, k.t, w.threads[k.t]);
  }

  // --- What each thread does ---

  /** A step that `t` takes, not one that the scheduler takes for its sake. */
  predicate OwnStep(e: Event, t: Tid) {
    e.t == t && !e.Execute? && !e.Heard?
  }

  function Own(h: seq<Event>, t: Tid): seq<Event> {
    if h == [] then [] else
      Own(h[..|h| - 1], t) + if OwnStep(h[|h| - 1], t) then [h[|h| - 1]] else []
  }

  /** The steps that begin something: a visible operation, a create, or a life. */
  predicate Begins(e: Event) {
    e.Reaches? || e.ReachesJoin? || e.ReachesExit? || e.Creates? || e.Registers?
  }

  /** What the thread does next, until it is in target code again or gone. */
  function Script(e: Event): seq<Event>
    requires Begins(e)
  {
    var t := e.t;
    match e
    case ReachesJoin(_, _) => [Resumes(t), Grants(t), Joined(t)]
    case ReachesExit(_) => if t == MAIN then [Resumes(t), Finishes(t)] else [Resumes(t), Finishes(t), IsPermitted(t), Leaves(t)]
    case Creates(_, _) => [ChildIsRegistered(t), Announces(t), Resumes(t)]
    case _ => [Resumes(t)]
  }

  /** Where it stands after `n` of these steps. */
  function PcAlong(e: Event, n: nat): Pc
    requires Begins(e) && n <= |Script(e)|
  {
    match e
    case ReachesJoin(_, u) => [Parked(GoJoin(u)), Granting(u), Joining(u), InTarget][n]
    case ReachesExit(t) =>
      if t == MAIN then [Parked(GoFinish), Finishing, Blocked][n]
      else [Parked(GoFinish), Finishing, AwaitingPermission, Leaving, Gone][n]
    case Creates(_, c) => [Creating(c), Announcing, Parked(GoOn), InTarget][n]
    case _ => if n == 0 then Parked(GoOn) else InTarget
  }

  /** `t` follows the script of `e` with its own steps since, or has begun something else. */
  ghost predicate Follows(w: World, e: Event, own: seq<Event>)
    requires Begins(e)
  {
    var script := Script(e);
    && e.t in w.threads
    && if |own| <= |script| then own <= script && w.threads[e.t].pc == PcAlong(e, |own|)
       else script <= own && Begins(own[|script|]) && !e.ReachesExit?
  }

  lemma BeginsScript(w: World, e: Event)
    requires CanHappen(w, e) && Begins(e)
    ensures Follows(Next(w, e), e, [])
  {
  }

  lemma ScriptGoesOn(w: World, b: Event, own: seq<Event>, e: Event)
    requires Begins(b) && Follows(w, b, own) && |own| < |Script(b)| && CanHappen(w, e) && OwnStep(e, b.t)
    ensures e == Script(b)[|own|] && At(Next(w, e), b.t, PcAlong(b, |own| + 1))
  {
  }

  lemma OwnStepFollows(w: World, b: Event, own: seq<Event>, e: Event)
    requires Begins(b) && Follows(w, b, own) && CanHappen(w, e) && OwnStep(e, b.t)
    ensures Follows(Next(w, e), b, own + [e])
  {
    var script := Script(b);
    if |own| < |script| {
      hide CanHappen, Next, PcAlong, Script, OwnStep, Begins;
      ScriptGoesOn(w, b, own, e);
      assert own + [e] == script[..|own| + 1];
    } else if |own| == |script| {
      assert own + [e] == script + [e];
    }
  }

  lemma OtherStepFollows(w: World, b: Event, own: seq<Event>, e: Event)
    requires Begins(b) && Follows(w, b, own) && CanHappen(w, e) && !OwnStep(e, b.t)
    ensures Follows(Next(w, e), b, own)
  {
  }

  lemma OwnGrows(h: seq<Event>, e: Event, t: Tid)
    ensures Own(h + [e], t) == Own(h, t) + if OwnStep(e, t) then [e] else []
  {
    assert (h + [e])[..|h|] == h;
  }

  /** Once a thread has begun something, its own steps are those of the script, in order;
      what it announced decides how it goes on when it is resumed, and after the script of
      an exit it takes no step. */
  lemma {:induction false} ScriptIsFollowed(others: set<Tid>, h: seq<Event>, w: World, i: nat)
    requires After(others, h) == Some(w) && i < |h| && Begins(h[i])
    ensures Follows(w, h[i], Own(h[i + 1..], h[i].t))
  {
    hide Next, CanHappen, Follows, Begins, Script, OwnStep;
    var n := |h| - 1;
    var front, e, b := h[..n], h[n], h[i];
    var w0 := After(others, front).value;
    if i == n {
      BeginsScript(w0, e);
      assert h[i + 1..] == [];
    } else {
      ScriptIsFollowed(others, front, w0, i);
      assert h[i + 1..] == front[i + 1..] + [e];
      OwnGrows(front[i + 1..], e, b.t);
      if OwnStep(e, b.t) {
        OwnStepFollows(w0, b, Own(front[i + 1..], b.t), e);
      } else {
        OtherStepFollows(w0, b, Own(front[i + 1..], b.t), e);
        assert Own(h[i + 1..], b.t) == Own(front[i + 1..], b.t);
      }
    }
  }

  /** The main thread begins by being resumed into target code, everybody else by
      registering. */
  ghost predicate StartsRight(w: World, t: Tid, own: seq<Event>) {
    && t in w.threads
    && (own == [] ==> if t == MAIN then At(w, t, Parked(GoOn)) else At(w, t, Absent) || At(w, t, Starting))
    && (own != [] ==> !At(w, t, Absent) && !At(w, t, Starting) && own[0] == if t == MAIN then Resumes(t) else Registers(t))
    && (t == MAIN && |own| == 1 ==> At(w, t, InTarget))
    && (t == MAIN && |own| > 1 ==> Begins(own[1]))
  }

  lemma StartedStep(w: World, e: Event, t: Tid, own: seq<Event>)
    requires StartsRight(w, t, own) && CanHappen(w, e)
    ensures StartsRight(Next(w, e), t, if OwnStep(e, t) then own + [e] else own)
  {
    if OwnStep(e, t) {
      assert |own| > 0 ==> (own + [e])[0] == own[0];
      assert |own| > 1 ==> (own + [e])[1] == own[1];
    }
  }

  lemma {:induction false} FirstSteps(others: set<Tid>, h: seq<Event>, w: World, t: Tid)
    requires After(others, h) == Some(w) && t in others + {MAIN}
    ensures StartsRight(w, t, Own(h, t))
  {
    if h != [] {
      hide StartsRight, CanHappen, Next, OwnStep;
      var n := |h| - 1;
      var front, e := h[..n], h[n];
      var w0 := After(others, front).value;
      FirstSteps(others, front, w0, t);
      StartedStep(w0, e, t, Own(front, t));
      assert h == front + [e];
      OwnGrows(front, e, t);
      assert OwnStep(e, t) || Own(h, t) == Own(front, t);
    }
  }

  // --- What it waits for ---

  lemma GoneStep(w: World, e: Event, u: Tid)
    requires CanHappen(w, e)
    ensures At(Next(w, e), u, Gone) <==> At(w, u, Gone) || e == Leaves(u)
  {
  }

  /** Gone threads took their last step, and stay gone. */
  lemma {:induction false} GoneByLeaves(others: set<Tid>, h: seq<Event>, w: World, u: Tid)
    requires After(others, h) == Some(w)
    ensures At(w, u, Gone) <==> Leaves(u) in h
  {
    hide CanHappen, Next;
    if h != [] {
      var front, e := h[..|h| - 1], h[|h| - 1];
      GoneByLeaves(others, front, After(others, front).value, u);
      GoneStep(After(others, front).value, e, u);
      assert h == front + [e];
    }
  }

  /** A thread that joins is not in target code again before the thread it joins is gone. */
  lemma {:induction false} JoinWaits(others: set<Tid>, h: seq<Event>, w: World, i: nat)
    requires After(others, h) == Some(w) && i < |h| && h[i].ReachesJoin?
    ensures |Own(h[i + 1..], h[i].t)| >= 3 ==> Leaves(h[i].target) in h
  {
    hide Next, Follows, Script;
    var n := |h| - 1;
    if i < n {
      var front, e, b := h[..n], h[n], h[i];
      var w0 := After(others, front).value;
      assert h == front + [e];
      assert h[i + 1..] == front[i + 1..] + [e];
      OwnGrows(front[i + 1..], e, b.t);
      JoinWaits(others, front, w0, i);
      if |Own(front[i + 1..], b.t)| == 2 && OwnStep(e, b.t) {
        ScriptIsFollowed(others, front, w0, i);
        LastOfJoin(w0, b, Own(front[i + 1..], b.t), e);
        GoneByLeaves(others, front, w0, b.target);
      }
    } else {
      assert h[i + 1..] == [];
    }
  }

  lemma LastOfJoin(w: World, b: Event, own: seq<Event>, e: Event)
    requires b.ReachesJoin? && Follows(w, b, own) && |own| == 2 && CanHappen(w, e) && OwnStep(e, b.t)
    ensures At(w, b.target, Gone)
  {
  }

  /** Only registering posts the creation semaphore. */
  lemma CreatedStep(w: World, e: Event, c: Tid)
    requires CanHappen(w, e) && c in w.threads
    ensures c in Next(w, e).threads
    ensures e != Registers(c) ==> Next(w, e).threads[c].created <= w.threads[c].created
  {
  }

  /** A thread that creates goes on only once its child has registered. */
  lemma {:induction false} CreateWaits(others: set<Tid>, h: seq<Event>, w: World, i: nat)
    requires After(others, h) == Some(w) && i < |h| && h[i].Creates?
    ensures h[i].child in w.threads
    ensures Registers(h[i].child) !in h[i + 1..] ==> w.threads[h[i].child].created == 0
    ensures Own(h[i + 1..], h[i].t) != [] ==> Registers(h[i].child) in h[i + 1..]
  {
    hide Follows, Script, Holds, Next;
    var n := |h| - 1;
    var front, e, b := h[..n], h[n], h[i];
    var w0 := After(others, front).value;
    if i == n {
      assert h[i + 1..] == [];
      RunHolds(others, front);
      AbsentIsFresh(w0, TokenAfter(front), b.child);
      CreatedStep(w0, e, b.child);
    } else {
      hide CanHappen, OwnStep, TokenAfter;
      var since := front[i + 1..];
      assert h[i + 1..] == since + [e];
      OwnGrows(since, e, b.t);
      CreateWaits(others, front, w0, i);
      CreatedStep(w0, e, b.child);
      if Own(since, b.t) == [] && OwnStep(e, b.t) {
        ScriptIsFollowed(others, front, w0, i);
        FirstOfCreate(w0, b, e);
      }
    }
  }

  lemma AbsentIsFresh(w: World, k: Token, c: Tid)
    requires Holds(w, k) && At(w, c, Absent)
    ensures w.threads[c].created == 0
  {
    assert Escorted(w, k, c);
  }

  lemma FirstOfCreate(w: World, b: Event, e: Event)
    requires b.Creates? && Follows(w, b, []) && CanHappen(w, e) && OwnStep(e, b.t)
    ensures b.child in w.threads && w.threads[b.child].created > 0
  {
  }
}
