/**
 * The counting semaphore over a bare futex word, as the atomic steps of any number of
 * waiting and posting threads. The word may be reset to zero at any moment.
 */
module RawSemaphore {
  import opened Basics

  type Tid = nat
  type Positive = n: nat | n > 0 witness 1

  const UINT32: nat := 0x1_0000_0000

  /** Where a thread stands: outside, in `mc_raw_sem_wait`, or in `mc_raw_sem_post`. */
  datatype Pc =
    | Outside
    | Loading
    | Swapping(cur: Positive)
    | CallingWait
    | Asleep
    | CallingWake

  /** `posts` and `waits` count the additions and the successful waits since the last reset. */
  datatype Sem = Sem(value: nat, pcs: map<Tid, Pc>, posts: nat, waits: nat)

  datatype Event =
    | EnterWait(t: Tid)
    | Load(t: Tid)
    | Swap(t: Tid)
    | FutexWait(t: Tid)
    | Interrupt(t: Tid)
    | Add(t: Tid)
    | FutexWake(t: Tid, woken: Option<Tid>)
    | Reset

  predicate At(s: Sem, t: Tid, pc: Pc) {
    t in s.pcs && s.pcs[t] == pc
  }

  /** The kernel wakes one of the sleepers unless there is none. */
  predicate CanWake(s: Sem, woken: Option<Tid>) {
    match woken
    case Some(w) => At(s, w, Asleep)
    case None => forall w :: w in s.pcs ==> s.pcs[w] != Asleep
  }

  predicate CanHappen(s: Sem, e: Event) {
    match e
    case EnterWait(t) => At(s, t, Outside)
    case Load(t) => At(s, t, Loading)
    case Swap(t) => t in s.pcs && s.pcs[t].Swapping?
    case FutexWait(t) => At(s, t, CallingWait)
    case Interrupt(t) => At(s, t, Asleep)
    case Add(t) => At(s, t, Outside)
    case FutexWake(t, woken) => At(s, t, CallingWake) && CanWake(s, woken)
    case Reset => true
  }

  function Move(s: Sem, t: Tid, pc: Pc): Sem {
    s.(pcs := s.pcs[t := pc])
  }

  function Next(s: Sem, e: Event): Sem
    requires CanHappen(s, e)
  {
    match e
    case EnterWait(t) => Move(s, t, Loading)
    case Load(t) => Move(s, t, if s.value > 0 then Swapping(s.value) else CallingWait)
    case Swap(t) =>
      if s.value == s.pcs[t].cur then Move(s, t, Outside).(value := s.value - 1, waits := s.waits + 1)
      else Move(s, t, Loading)
    case FutexWait(t) => Move(s, t, if s.value == 0 then Asleep else Loading)
    case Interrupt(t) => Move(s, t, Loading)
    case Add(t) => Move(s, t, CallingWake).(value := (s.value + 1) % UINT32, posts := s.posts + 1)
    case FutexWake(t, woken) =>
      var s' := Move(s, t, Outside);
      if woken.Some? then Move(s', woken.value, Loading) else s'
    case Reset => s.(value := 0, posts := 0, waits := 0)
  }

  /** Where the events lead, one after the other, when every thread starts outside. */
  function After(threads: set<Tid>, h: seq<Event>): Option<Sem> {
    if h == [] then Some(Sem(0, map t | t in threads :: Outside, 0, 0)) else
      match After(threads, h[..|h| - 1])
      case None => None
      case Some(s) => if CanHappen(s, h[|h| - 1]) then Some(Next(s, h[|h| - 1])) else None
  }

  // --- The invariant ---

  function Sleepers(pcs: map<Tid, Pc>): set<Tid> { set t | t in pcs && pcs[t] == Asleep }

  /** In the waiting loop and not asleep. */
  predicate InLoop(pc: Pc) { pc == Loading || pc.Swapping? || pc == CallingWait }

  function Awake(pcs: map<Tid, Pc>): set<Tid> { set t | t in pcs && InLoop(pcs[t]) }

  function Wakers(pcs: map<Tid, Pc>): set<Tid> { set t | t in pcs && pcs[t] == CallingWake }

  ghost predicate Bounded(s: Sem) {
    Sleepers(s.pcs) != {} ==> s.value <= |Wakers(s.pcs)| + |Awake(s.pcs)|
  }

  ghost predicate Counted(s: Sem) {
    s.value < UINT32 && s.waits + s.value <= s.posts && (s.posts - s.waits - s.value) % UINT32 == 0
  }

  function One(b: bool): nat { if b then 1 else 0 }

  /** What moving one thread does to the three sets. */
  lemma MoveCounts(pcs: map<Tid, Pc>, t: Tid, pc: Pc)
    requires t in pcs
    ensures Sleepers(pcs[t := pc]) == Sleepers(pcs) - {t} + (if pc == Asleep then {t} else {})
    ensures |Awake(pcs[t := pc])| == |Awake(pcs)| - One(InLoop(pcs[t])) + One(InLoop(pc))
    ensures |Wakers(pcs[t := pc])| == |Wakers(pcs)| - One(pcs[t] == CallingWake) + One(pc == CallingWake)
  {
    hide Awake, Wakers;
    MoveAwake(pcs, t, pc);
    MoveWakers(pcs, t, pc);
  }

  lemma MoveAwake(pcs: map<Tid, Pc>, t: Tid, pc: Pc)
    requires t in pcs
    ensures |Awake(pcs[t := pc])| == |Awake(pcs)| - One(InLoop(pcs[t])) + One(InLoop(pc))
  {
    Replaced(Awake(pcs), t, InLoop(pc), Awake(pcs[t := pc]));
  }

  lemma MoveWakers(pcs: map<Tid, Pc>, t: Tid, pc: Pc)
    requires t in pcs
    ensures |Wakers(pcs[t := pc])| == |Wakers(pcs)| - One(pcs[t] == CallingWake) + One(pc == CallingWake)
  {
    Replaced(Wakers(pcs), t, pc == CallingWake, Wakers(pcs[t := pc]));
  }

  lemma Replaced(a: set<Tid>, t: Tid, inside: bool, b: set<Tid>)
    requires forall u :: u in b <==> if u == t then inside else u in a
    ensures |b| == |a| - One(t in a) + One(inside)
  {
    assert |a - {t}| == |a| - One(t in a);
    assert b == a - {t} + if inside then {t} else {};
  }

  /** A wake-up moves one thread out of the wakers and, if there is a sleeper, another
      into the waiting loop. */
  lemma WakeKeepsBound(s: Sem, t: Tid, woken: Option<Tid>)
    requires Bounded(s) && CanHappen(s, FutexWake(t, woken))
    ensures Bounded(Next(s, FutexWake(t, woken)))
  {
    hide Awake, Wakers;
    MoveCounts(s.pcs, t, Outside);
    if woken.Some? {
      assert woken.value in Sleepers(s.pcs);
      MoveCounts(s.pcs[t := Outside], woken.value, Loading);
    }
  }

  lemma BoundKept(s: Sem, e: Event)
    requires Bounded(s) && Counted(s) && CanHappen(s, e)
    ensures Bounded(Next(s, e))
  {
    hide Awake, Wakers;
    match e {
      case Reset =>
      case FutexWake(t, woken) => WakeKeepsBound(s, t, woken);
      case EnterWait(t) => MoveCounts(s.pcs, t, Loading);
      case Load(t) => MoveCounts(s.pcs, t, if s.value > 0 then Swapping(s.value) else CallingWait);
      case Swap(t) => MoveCounts(s.pcs, t, if s.value == s.pcs[t].cur then Outside else Loading);
      case FutexWait(t) => MoveCounts(s.pcs, t, if s.value == 0 then Asleep else Loading);
      case Interrupt(t) =>
        MoveCounts(s.pcs, t, Loading);
        assert t in Sleepers(s.pcs);
      case Add(t) => MoveCounts(s.pcs, t, CallingWake);
    }
  }

  /** Every step keeps the bound on sleeping threads and the count. */
  lemma NextKeepsInv(s: Sem, e: Event)
    requires Bounded(s) && Counted(s) && CanHappen(s, e)
    ensures Bounded(Next(s, e)) && Counted(Next(s, e))
  {
    BoundKept(s, e);
  }

  lemma {:induction false} RunKeepsInv(threads: set<Tid>, h: seq<Event>)
    requires After(threads, h).Some?
    ensures Bounded(After(threads, h).value) && Counted(After(threads, h).value)
  {
    if h != [] {
      RunKeepsInv(threads, h[..|h| - 1]);
      NextKeepsInv(After(threads, h[..|h| - 1]).value, h[|h| - 1]);
    }
  }

  // --- What it is for ---

  /** Nobody is between an addition and its wake-up, and nobody in the loop is awake. */
  predicate Quiet(s: Sem) {
    Wakers(s.pcs) == {} && Awake(s.pcs) == {}
  }

  /** No wake-up is lost: once everything has settled, a thread sleeps only on zero. */
  lemma NoLostWakeUp(threads: set<Tid>, h: seq<Event>, s: Sem, t: Tid)
    requires After(threads, h) == Some(s) && Quiet(s) && At(s, t, Asleep)
    ensures s.value == 0
  {
    RunKeepsInv(threads, h);
    assert t in Sleepers(s.pcs);
  }

  /** No wait succeeds without a post of its own since the last reset; none is forgotten
      either as long as the word did not wrap around. */
  lemma WaitsArePaidFor(threads: set<Tid>, h: seq<Event>, s: Sem)
    requires After(threads, h) == Some(s)
    ensures s.waits <= s.posts && (s.posts < UINT32 ==> s.waits + s.value == s.posts)
  {
    RunKeepsInv(threads, h);
  }

  /** As long as anyone sleeps on a word that is not zero, some thread has a step to take. */
  lemma SleeperIsNotAlone(threads: set<Tid>, h: seq<Event>, s: Sem, t: Tid)
    requires After(threads, h) == Some(s) && At(s, t, Asleep) && s.value > 0
    ensures exists other :: other in s.pcs && (InLoop(s.pcs[other]) || s.pcs[other] == CallingWake)
  {
    RunKeepsInv(threads, h);
    assert t in Sleepers(s.pcs);
    if Wakers(s.pcs) != {} {
      var other :| other in Wakers(s.pcs);
    } else {
      assert |Wakers(s.pcs)| == 0;
      var other :| other in Awake(s.pcs);
    }
  }

  // --- Who gets through ---

  /** In `mc_raw_sem_wait`. */
  predicate Inside(pc: Pc) { pc != Outside && pc != CallingWake }

  /** The event takes one off a positive value. */
  predicate TakesOne(s: Sem, e: Event) {
    e.Swap? && CanHappen(s, e) && s.value > 0 && Next(s, e).value == s.value - 1
  }

  /** How often `t` called `mc_raw_sem_wait`. */
  function Entries(h: seq<Event>, t: Tid): nat {
    if h == [] then 0 else Entries(h[..|h| - 1], t) + One(h[|h| - 1] == EnterWait(t))
  }

  /** How often `t` took one off the value. */
  function Taken(threads: set<Tid>, h: seq<Event>, t: Tid): nat {
    if h == [] then 0 else
      var front, e := h[..|h| - 1], h[|h| - 1];
      Taken(threads, front, t) + One(e == Swap(t) && After(threads, front).Some? && TakesOne(After(threads, front).value, e))
  }

  /** The additions since the last reset. */
  function Added(h: seq<Event>): nat {
    if h == [] || h[|h| - 1] == Reset then 0 else Added(h[..|h| - 1]) + One(h[|h| - 1].Add?)
  }

  lemma {:induction false} ThreadsStay(threads: set<Tid>, h: seq<Event>)
    requires After(threads, h).Some?
    ensures After(threads, h).value.pcs.Keys == threads
  {
    if h != [] {
      ThreadsStay(threads, h[..|h| - 1]);
    }
  }

  /** A wait returns only by taking one off the value: the waits of a thread that are over
      are as many as what it took. */
  lemma {:induction false} WaitsAreTaken(threads: set<Tid>, h: seq<Event>, t: Tid)
    requires After(threads, h).Some? && t in After(threads, h).value.pcs
    ensures Entries(h, t) == Taken(threads, h, t) + One(Inside(After(threads, h).value.pcs[t]))
  {
    if h != [] {
      WaitsAreTaken(threads, h[..|h| - 1], t);
      StepIsTaken(After(threads, h[..|h| - 1]).value, h[|h| - 1], t);
    }
  }

  lemma StepIsTaken(s: Sem, e: Event, t: Tid)
    requires CanHappen(s, e) && t in s.pcs
    ensures One(e == EnterWait(t)) + One(Inside(s.pcs[t])) ==
            One(e == Swap(t) && TakesOne(s, e)) + One(Inside(Next(s, e).pcs[t]))
  {
  }

  /** The two counters count the additions and what was taken since the last reset. */
  lemma {:induction false} CountersCount(threads: set<Tid>, h: seq<Event>)
    requires After(threads, h).Some?
    ensures After(threads, h).value.posts == Added(h)
    ensures Reset !in h ==> After(threads, h).value.waits == Sum(threads, t => Taken(threads, h, t))
  {
    if h == [] {
      SumOfNothing(threads, t => Taken(threads, h, t));
    } else {
      var front, e := h[..|h| - 1], h[|h| - 1];
      var s := After(threads, front).value;
      CountersCount(threads, front);
      if Reset !in h {
        assert Reset !in front && e != Reset;
        ThreadsStay(threads, front);
        if TakesOne(s, e) {
          SumGrows(threads, t => Taken(threads, front, t), t => Taken(threads, h, t), e.t);
        } else {
          SameSum(threads, t => Taken(threads, front, t), t => Taken(threads, h, t));
        }
      }
    }
  }

  ghost function Sum(s: set<Tid>, f: Tid -> nat): nat {
    if s == {} then 0 else
      var t :| t in s;
      f(t) + Sum(s - {t}, f)
  }

  lemma {:induction false} SumOfNothing(s: set<Tid>, f: Tid -> nat)
    requires forall t :: t in s ==> f(t) == 0
    ensures Sum(s, f) == 0
    decreases s
  {
    if s != {} {
      var t :| t in s && Sum(s, f) == f(t) + Sum(s - {t}, f);
      SumOfNothing(s - {t}, f);
    }
  }

  lemma {:induction false} SameSum(s: set<Tid>, f: Tid -> nat, g: Tid -> nat)
    requires forall t :: t in s ==> f(t) == g(t)
    ensures Sum(s, f) == Sum(s, g)
    decreases s
  {
    if s != {} {
      var t :| t in s && Sum(s, f) == f(t) + Sum(s - {t}, f);
      SameSum(s - {t}, f, g);
      SumWithout(s, g, t);
    }
  }

  lemma {:induction false} SumWithout(s: set<Tid>, f: Tid -> nat, t: Tid)
    requires t in s
    ensures Sum(s, f) == f(t) + Sum(s - {t}, f)
    decreases s
  {
    var u :| u in s && Sum(s, f) == f(u) + Sum(s - {u}, f);
    if u != t {
      SumWithout(s - {u}, f, t);
      SumWithout(s - {t}, f, u);
      assert s - {u} - {t} == s - {t} - {u};
    }
  }

  lemma SumGrows(s: set<Tid>, f: Tid -> nat, g: Tid -> nat, t: Tid)
    requires t in s && g(t) == f(t) + 1 && forall u :: u in s && u != t ==> f(u) == g(u)
    ensures Sum(s, g) == Sum(s, f) + 1
  {
    SumWithout(s, f, t);
    SumWithout(s, g, t);
    SameSum(s - {t}, f, g);
  }

  /** The waits of `t` that are over. */
  function Completed(s: Sem, h: seq<Event>, t: Tid): int {
    Entries(h, t) - One(t in s.pcs && Inside(s.pcs[t]))
  }

  /** Without a reset, no more waits are over than posts were made, by all threads together,
      and what is left of the posts is the value as long as it did not wrap around. */
  lemma NobodyProceedsUnpaid(threads: set<Tid>, h: seq<Event>, s: Sem)
    requires After(threads, h) == Some(s) && Reset !in h
    ensures forall t :: t in threads ==> Completed(s, h, t) == Taken(threads, h, t)
    ensures Sum(threads, t => Taken(threads, h, t)) + s.value <= Added(h)
    ensures Added(h) < UINT32 ==> Sum(threads, t => Taken(threads, h, t)) + s.value == Added(h)
  {
    RunKeepsInv(threads, h);
    CountersCount(threads, h);
    ThreadsStay(threads, h);
    forall t | t in threads ensures Completed(s, h, t) == Taken(threads, h, t) {
      WaitsAreTaken(threads, h, t);
    }
  }

  // --- A waiter by itself ---

  /** The next step of a waiter that is awake. */
  function OwnStep(s: Sem, t: Tid): Event
    requires t in s.pcs && InLoop(s.pcs[t])
  {
    match s.pcs[t]
    case Loading => Load(t)
    case Swapping(_) => Swap(t)
    case _ => FutexWait(t)
  }

  /** `n` steps of `t` with no other in between, or fewer if it leaves the loop. */
  function Alone(s: Sem, t: Tid, n: nat): Sem
    requires t in s.pcs
    decreases n
  {
    if n == 0 || !InLoop(s.pcs[t]) then s else Alone(Next(s, OwnStep(s, t)), t, n - 1)
  }

  /** Left alone an awake waiter gets through within three steps and takes one off the
      value, or else falls asleep on zero. */
  lemma AloneItEnds(s: Sem, t: Tid)
    requires t in s.pcs && InLoop(s.pcs[t])
    ensures var s' := Alone(s, t, 3);
      s' == if s.value > 0 then Move(s, t, Outside).(value := s.value - 1, waits := s.waits + 1) else Move(s, t, Asleep)
  {
    var s1 := Next(s, OwnStep(s, t));
    if InLoop(s1.pcs[t]) {
      var s2 := Next(s1, OwnStep(s1, t));
      assert Alone(s, t, 3) == Alone(s1, t, 2) == Alone(s2, t, 1);
    }
  }
}
