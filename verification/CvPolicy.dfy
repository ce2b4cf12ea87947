/**
 * The wake policy of a condition variable, as values: the wait queue, the wake
 * groups that pending signals created and the threads freed by a broadcast.
 */
module CvPolicy {
  import opened Basics

  datatype CvStatus = CvUninitialized | CvInitialized | CvWaiting | CvSignaled | CvPrewaiting | CvDestroyed

  type WakeGroup = seq<RunnerId>

  datatype Policy = Policy(
    queue: seq<RunnerId>,
    groups: seq<WakeGroup>,
    eligible: set<RunnerId>,
    states: map<RunnerId, CvStatus>)

  const EMPTY_POLICY := Policy([], [], {}, map[])

  /** The group without the thread, `std::remove` followed by `erase`. */
  function Without(g: WakeGroup, t: RunnerId): (r: WakeGroup)
    ensures forall x :: x in r <==> x in g && x != t
  {
    if g == [] then [] else
      var front := Without(g[..|g| - 1], t);
      if g[|g| - 1] == t then front else front + [g[|g| - 1]]
  }

  /** Striking a thread keeps everybody else, in order and as often. */
  lemma {:induction false} WithoutSplits(g: WakeGroup, h: WakeGroup, t: RunnerId)
    ensures Without(g + h, t) == Without(g, t) + Without(h, t)
    ensures |h| == 1 ==> Without(h, t) == if h[0] == t then [] else h
  {
    if h == [] {
      assert g + h == g;
    } else {
      assert (g + h)[..|g + h| - 1] == g + h[..|h| - 1];
      WithoutSplits(g, h[..|h| - 1], t);
      assert |h| == 1 ==> h[..|h| - 1] == [];
    }
  }

  function WithoutAll(groups: seq<WakeGroup>, t: RunnerId): (r: seq<WakeGroup>)
    ensures |r| == |groups| && forall i :: 0 <= i < |r| ==> r[i] == Without(groups[i], t)
  {
    seq(|groups|, i requires 0 <= i < |groups| => Without(groups[i], t))
  }

  /** `std::find`: the first position of the thread, or the length of the queue. */
  function IndexOf(q: seq<RunnerId>, t: RunnerId): (r: nat)
    ensures r <= |q|
    ensures r < |q| ==> q[r] == t
    ensures forall k :: 0 <= k < r ==> q[k] != t
  {
    if q == [] || q[0] == t then 0 else 1 + IndexOf(q[1..], t)
  }

  /** The queue without the first occurrence of the thread. */
  function RemoveFirst(q: seq<RunnerId>, t: RunnerId): (r: seq<RunnerId>) {
    if IndexOf(q, t) < |q| then DropAt(q, IndexOf(q, t)) else q
  }

  /** The position of the first group holding the thread, or the number of groups. */
  function FirstGroup(groups: seq<WakeGroup>, t: RunnerId): (r: nat)
    ensures r <= |groups|
    ensures r < |groups| ==> t in groups[r]
    ensures forall k :: 0 <= k < r ==> t !in groups[k]
  {
    if groups == [] || t in groups[0] then 0 else 1 + FirstGroup(groups[1..], t)
  }

  function StatusOf(p: Policy, t: RunnerId): CvStatus {
    if t in p.states then p.states[t] else CvUninitialized
  }

  predicate CanExit(p: Policy, t: RunnerId) {
    t in p.eligible || exists g :: g in p.groups && t in g
  }

  predicate HasWaiters(p: Policy) {
    p.queue != []
  }

  function AddWaiter(p: Policy, t: RunnerId, status: CvStatus): Policy {
    p.(queue := p.queue + [t], states := p.states[t := status])
  }

  function AddToWakeGroups(p: Policy, threads: seq<RunnerId>): Policy {
    if threads == [] then p else p.(groups := p.groups + [threads])
  }

  function ReceiveSignal(p: Policy): Policy {
    if p.queue == [] then p else p.(groups := p.groups + [p.queue])
  }

  function Members(groups: seq<WakeGroup>): set<RunnerId> {
    set g, t | g in groups && t in g :: t
  }

  function ReceiveBroadcast(p: Policy): Policy {
    p.(queue := [], groups := [], eligible := p.eligible + Members(p.groups) + set t | t in p.queue)
  }

  /** A waking thread gives up its broadcast pass, or else the first signal that lists it. */
  function Wake(p: Policy, t: RunnerId): Policy
    requires CanExit(p, t)
  {
    var kept := if t in p.eligible then p.groups else
      (assert FirstGroup(p.groups, t) < |p.groups|; DropAt(p.groups, FirstGroup(p.groups, t)));
    p.(queue := RemoveFirst(p.queue, t), groups := WithoutAll(kept, t), eligible := p.eligible - {t})
  }

  /** The queued threads that have reached the waiting state, in queue order. */
  function WaitingIn(p: Policy, q: seq<RunnerId>): (r: seq<RunnerId>)
    ensures forall t :: t in r <==> t in q && StatusOf(p, t) == CvWaiting
  {
    if q == [] then [] else
      var front := WaitingIn(p, q[..|q| - 1]);
      if StatusOf(p, q[|q| - 1]) == CvWaiting then front + [q[|q| - 1]] else front
  }

  /** What a signal transition does to the policy once it has found waiters. */
  function Signal(p: Policy): Policy {
    AddToWakeGroups(p, WaitingIn(p, p.queue))
  }

  /** What a broadcast transition does to the policy once it has found waiters. */
  function Broadcast(p: Policy): Policy {
    ReceiveBroadcast(AddToWakeGroups(p, WaitingIn(p, p.queue)))
  }

  // --- The shape of the policy in every run ---

  ghost predicate Within(g: seq<RunnerId>, h: seq<RunnerId>) {
    forall t :: t in g ==> t in h
  }

  /** Wake groups are nested: an older signal never lists a thread a newer one omits. */
  ghost predicate Chain(groups: seq<WakeGroup>) {
    forall i, j :: 0 <= i < j < |groups| ==> Within(groups[i], groups[j])
  }

  ghost predicate Inv(p: Policy) {
    && Distinct(p.queue)
    && Chain(p.groups)
    && (forall i :: 0 <= i < |p.groups| ==> Within(p.groups[i], p.queue))
    && (forall t :: t in p.eligible ==> t !in p.queue)
    && (forall t :: t in p.queue ==> StatusOf(p, t) == CvWaiting)
  }

  /** What the threads of a program can do to one condition variable. */
  datatype Event = Enqueue(t: RunnerId) | SignalSent | BroadcastSent | WakeUp(t: RunnerId)

  /** A sleeping thread has no other operation, so only a thread outside enqueues itself. */
  predicate CanHappen(p: Policy, e: Event) {
    match e
    case Enqueue(t) => t !in p.queue && t !in p.eligible
    case WakeUp(t) => CanExit(p, t)
    case _ => true
  }

  function Next(p: Policy, e: Event): Policy
    requires CanHappen(p, e)
  {
    match e
    case Enqueue(t) => AddWaiter(p, t, CvWaiting)
    case SignalSent => if HasWaiters(p) then Signal(p) else p
    case BroadcastSent => if HasWaiters(p) then Broadcast(p) else p
    case WakeUp(t) => Wake(p, t)
  }

  /** The policy after the events, or nothing when some event could not happen. */
  function After(h: seq<Event>): Option<Policy> {
    if h == [] then Some(EMPTY_POLICY) else
      match After(h[..|h| - 1])
      case None => None
      case Some(p) => if CanHappen(p, h[|h| - 1]) then Some(Next(p, h[|h| - 1])) else None
  }

  /** The index a group had before group `i` was taken out. */
  function Before(i: nat, k: nat): nat { if k < i then k else k + 1 }

  /** The index group `k` has after group `i` was taken out. */
  function Behind(i: nat, k: nat): nat
    requires k != i
  {
    if k < i then k else k - 1
  }

  lemma RemoveFirstSpec(q: seq<RunnerId>, t: RunnerId)
    requires Distinct(q)
    ensures Distinct(RemoveFirst(q, t))
    ensures forall x :: x in RemoveFirst(q, t) <==> x in q && x != t
  {
    var i := IndexOf(q, t);
    if i < |q| {
      var r := DropAt(q, i);
      forall x | x in q && x != t
        ensures x in r
      {
        var k :| 0 <= k < |q| && q[k] == x;
        assert r[if k < i then k else k - 1] == x;
      }
    }
  }

  lemma {:induction false} WaitingIsWholeQueue(p: Policy, q: seq<RunnerId>)
    requires forall t :: t in q ==> StatusOf(p, t) == CvWaiting
    ensures WaitingIn(p, q) == q
  {
    if q != [] {
      WaitingIsWholeQueue(p, q[..|q| - 1]);
      assert q == q[..|q| - 1] + [q[|q| - 1]];
      assert q[|q| - 1] in q;
    }
  }

  /** The index that group `i` of the woken policy had before the wake-up. */
  function From(p: Policy, t: RunnerId, i: nat): nat {
    if t in p.eligible then i else Before(FirstGroup(p.groups, t), i)
  }

  /** Every group left after a wake-up is an old group without the thread. */
  lemma WokenGroup(p: Policy, t: RunnerId, i: nat)
    requires CanExit(p, t) && i < |Wake(p, t).groups|
    ensures From(p, t, i) < |p.groups|
    ensures Wake(p, t).groups[i] == Without(p.groups[From(p, t, i)], t)
  {
  }

  lemma StrikingKeepsChain(groups: seq<WakeGroup>, t: RunnerId)
    requires Chain(groups)
    ensures Chain(WithoutAll(groups, t))
  {
    forall i, j | 0 <= i < j < |groups|
      ensures Within(Without(groups[i], t), Without(groups[j], t))
    {
      assert Within(groups[i], groups[j]);
    }
  }

  lemma WakeKeepsChain(p: Policy, t: RunnerId)
    requires Chain(p.groups) && CanExit(p, t)
    ensures Chain(Wake(p, t).groups)
  {
    if t in p.eligible {
      StrikingKeepsChain(p.groups, t);
    } else {
      StrikingKeepsChain(DropAt(p.groups, FirstGroup(p.groups, t)), t);
    }
  }

  lemma WakeKeepsInv(p: Policy, t: RunnerId)
    requires Inv(p) && CanExit(p, t)
    ensures Inv(Wake(p, t))
    ensures !CanExit(Wake(p, t), t) && t !in Wake(p, t).queue
  {
    RemoveFirstSpec(p.queue, t);
    WakeKeepsChain(p, t);
    var p' := Wake(p, t);
    forall i | 0 <= i < |p'.groups|
      ensures Within(p'.groups[i], p'.queue)
    {
      WokenGroup(p, t, i);
      assert Within(p.groups[From(p, t, i)], p.queue);
    }
  }

  lemma GroupKeepsInv(p: Policy)
    requires Inv(p)
    ensures Inv(p.(groups := p.groups + [p.queue]))
  {
  }

  /** Everybody queued waits, so the message that the transitions send by hand does what the
      policy's own method does. */
  lemma SignalsAgree(p: Policy)
    requires Inv(p)
    ensures ReceiveSignal(p) == Next(p, SignalSent)
  {
    WaitingIsWholeQueue(p, p.queue);
  }

  lemma NextKeepsInv(p: Policy, e: Event)
    requires Inv(p) && CanHappen(p, e)
    ensures Inv(Next(p, e))
  {
    match e
    case Enqueue(t) =>
    case WakeUp(t) => WakeKeepsInv(p, t);
    case _ =>
      WaitingIsWholeQueue(p, p.queue);
      GroupKeepsInv(p);
  }

  /** In every run the groups are nested, they list only queued threads, and the
      threads a broadcast freed are neither queued nor in any group. */
  lemma {:induction false} RunKeepsInv(h: seq<Event>)
    requires After(h).Some?
    ensures Inv(After(h).value)
  {
    if h != [] {
      RunKeepsInv(h[..|h| - 1]);
      NextKeepsInv(After(h[..|h| - 1]).value, h[|h| - 1]);
    }
  }

  /** A thread freed by a broadcast can exit until it does, whatever the others do;
      in particular later signals and wake-ups cannot take its pass away. */
  lemma {:induction false} BroadcastPassLasts(h: seq<Event>, n: nat, t: RunnerId)
    requires n <= |h| && After(h).Some? && After(h[..n]).Some?
    requires t in After(h[..n]).value.eligible
    requires forall k :: n <= k < |h| ==> h[k] != WakeUp(t)
    ensures t in After(h).value.eligible && CanExit(After(h).value, t)
  {
    if n < |h| {
      var front := h[..|h| - 1];
      assert front[..n] == h[..n];
      BroadcastPassLasts(front, n, t);
    } else {
      assert h[..n] == h;
    }
  }

  // --- First fit ---

  /** All of `ws` can wake in this order with no message in between. */
  predicate CanWakeAll(p: Policy, ws: seq<RunnerId>)
    decreases |ws|
  {
    ws == [] || (CanExit(p, ws[0]) && CanWakeAll(Wake(p, ws[0]), ws[1..]))
  }

  /** `f` gives each thread a signal of its own that lists it. */
  ghost predicate Assigns(groups: seq<WakeGroup>, ws: seq<RunnerId>, f: seq<nat>) {
    && |f| == |ws|
    && Distinct(f)
    && forall i :: 0 <= i < |ws| ==> f[i] < |groups| && ws[i] in groups[f[i]]
  }

  /** `groups'` is `groups` with group `i` taken out and `t` struck from the rest. */
  ghost predicate TakenOut(groups: seq<WakeGroup>, groups': seq<WakeGroup>, i: nat, t: RunnerId) {
    && i < |groups| == |groups'| + 1
    && t in groups[i]
    && forall k, x :: 0 <= k < |groups'| ==> (x in groups'[k] <==> x in groups[Before(i, k)] && x != t)
  }

  lemma WakeTakesOut(p: Policy, t: RunnerId)
    requires CanExit(p, t) && t !in p.eligible
    ensures TakenOut(p.groups, Wake(p, t).groups, FirstGroup(p.groups, t), t)
  {
    var g' := Wake(p, t).groups;
    forall k, x | 0 <= k < |g'|
      ensures x in g'[k] <==> x in p.groups[Before(FirstGroup(p.groups, t), k)] && x != t
    {
      WokenGroup(p, t, k);
    }
  }

  lemma AssignAfter(groups: seq<WakeGroup>, groups': seq<WakeGroup>, ws: seq<RunnerId>, g: seq<nat>)
    returns (rest: seq<nat>)
    requires ws != [] && Distinct(ws) && Assigns(groups, ws, g)
    requires TakenOut(groups, groups', g[0], ws[0])
    ensures Assigns(groups', ws[1..], rest)
  {
    forall k | 1 <= k < |g| ensures g[k] != g[0] && ws[k] != ws[0] {
      assert g[0] != g[k] && ws[0] != ws[k];
    }
    rest := seq(|ws| - 1, k requires 0 <= k < |ws| - 1 => Behind(g[0], g[k + 1]));
    assert forall k :: 0 <= k < |rest| ==> Before(g[0], rest[k]) == g[k + 1];
  }

  lemma AssignBefore(groups: seq<WakeGroup>, groups': seq<WakeGroup>, i: nat, ws: seq<RunnerId>, rest: seq<nat>)
    returns (g: seq<nat>)
    requires ws != [] && Assigns(groups', ws[1..], rest)
    requires TakenOut(groups, groups', i, ws[0])
    ensures Assigns(groups, ws, g)
  {
    g := [i] + seq(|rest|, k requires 0 <= k < |rest| => Before(i, rest[k]));
    forall k | 1 <= k < |ws|
      ensures g[k] < |groups| && ws[k] in groups[g[k]]
    {
      assert ws[k] == ws[1..][k - 1];
    }
    forall j, k | 0 <= j < k < |g| ensures g[j] != g[k] {
      assert j > 0 ==> rest[j - 1] != rest[k - 1];
    }
  }

  lemma {:induction false} GreedyGivesAssignment(p: Policy, ws: seq<RunnerId>) returns (f: seq<nat>)
    requires Distinct(ws) && forall w :: w in ws ==> w !in p.eligible
    requires CanWakeAll(p, ws)
    ensures Assigns(p.groups, ws, f)
    decreases |ws|
  {
    if ws == [] {
      return [];
    }
    var p' := Wake(p, ws[0]);
    var g := GreedyGivesAssignment(p', ws[1..]);
    WakeTakesOut(p, ws[0]);
    f := AssignBefore(p.groups, p'.groups, FirstGroup(p.groups, ws[0]), ws, g);
  }

  /** Nesting lets whoever was given the first fitting group take over the group of `ws[0]`. */
  lemma ExchangeFirst(groups: seq<WakeGroup>, ws: seq<RunnerId>, f: seq<nat>) returns (g: seq<nat>)
    requires Chain(groups) && ws != [] && Assigns(groups, ws, f)
    ensures Assigns(groups, ws, g) && g[0] == FirstGroup(groups, ws[0])
  {
    var i := FirstGroup(groups, ws[0]);
    assert i <= f[0];
    if m :| 0 <= m < |f| && f[m] == i {
      g := f[m := f[0]][0 := i];
      assert i < f[0] ==> Within(groups[i], groups[f[0]]);
    } else {
      g := f[0 := i];
    }
  }

  lemma {:induction false} AssignmentGivesGreedy(p: Policy, ws: seq<RunnerId>, f: seq<nat>)
    requires Distinct(ws) && forall w :: w in ws ==> w !in p.eligible
    requires Chain(p.groups) && Assigns(p.groups, ws, f)
    ensures CanWakeAll(p, ws)
    decreases |ws|
  {
    if ws != [] {
      var g := ExchangeFirst(p.groups, ws, f);
      assert CanExit(p, ws[0]) by {
        assert p.groups[g[0]] in p.groups;
      }
      WakeTakesOut(p, ws[0]);
      var rest := AssignAfter(p.groups, Wake(p, ws[0]).groups, ws, g);
      WakeKeepsChain(p, ws[0]);
      AssignmentGivesGreedy(Wake(p, ws[0]), ws[1..], rest);
    }
  }

  /** Consuming the first signal that fits loses nothing: the threads can all wake in
      the given order exactly when each could be given a signal of its own. */
  lemma FirstFitIsOptimal(p: Policy, ws: seq<RunnerId>)
    requires Inv(p) && Distinct(ws) && forall w :: w in ws ==> w !in p.eligible
    ensures CanWakeAll(p, ws) <==> exists f :: Assigns(p.groups, ws, f)
  {
    if CanWakeAll(p, ws) {
      var f := GreedyGivesAssignment(p, ws);
    }
    if f :| Assigns(p.groups, ws, f) {
      AssignmentGivesGreedy(p, ws, f);
    }
  }

  /** Without nested groups first fit can strand a thread that had a signal. */
  lemma FirstFitNeedsNesting()
    ensures exists p: Policy, ws: seq<RunnerId>, f ::
      Distinct(ws) && p.eligible == {} && Assigns(p.groups, ws, f) && !CanWakeAll(p, ws)
  {
    var p := Policy([1, 2], [[1, 2], [1]], {}, map[]);
    var ws: seq<RunnerId> := [1, 2];
    var f: seq<nat> := [1, 0];
    assert Assigns(p.groups, ws, f);
    assert FirstGroup(p.groups, 1) == 0;
    var p' := Wake(p, 1);
    assert p'.groups == [Without([1], 1)];
    assert Without([1], 1) == [];
    assert !CanExit(p', 2);
    assert ws[0] == 1 && ws[1..] == [2];
    assert !CanWakeAll(p', [2]);
  }
}
