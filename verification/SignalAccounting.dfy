/**
 * Which signal lets which thread out: over any run of one condition variable, every
 * wake-up that is not due to a broadcast uses up a signal of its own.
 */
module SignalAccounting {
  import opened Basics
  import opened CvPolicy

  /** The wake-up at `w` was not a broadcast pass, so it consumed a signal. */
  ghost predicate Consumes(h: seq<Event>, w: nat) {
    && w < |h| && h[w].WakeUp?
    && After(h[..w]).Some? && h[w].t !in After(h[..w]).value.eligible
  }

  /** The signal at `s` can account for the wake-up at `w`: the thread was already
      asleep when it was sent and no broadcast came in between. */
  ghost predicate Feeds(h: seq<Event>, q: nat, s: nat, w: nat) {
    && q < s < w < |h|
    && h[w].WakeUp? && h[s] == SignalSent && h[q] == Enqueue(h[w].t)
    && (forall k :: q < k < w ==> h[k] != h[w])
    && (forall k :: s < k < w ==> h[k] != BroadcastSent)
  }

  ghost predicate Accounts(h: seq<Event>, used: map<nat, nat>) {
    && (forall w: nat :: w in used <==> Consumes(h, w))
    && (forall w :: w in used ==> exists q :: Feeds(h, q, used[w], w))
    && (forall v, w :: v in used && w in used && v != w ==> used[v] != used[w])
  }

  /** The policy together with the sending time of each live group, the wake-ups
      accounted for so far and the time each thread last went to sleep. */
  datatype Book = Book(policy: Policy, sent: seq<nat>, used: map<nat, nat>, since: map<RunnerId, nat>)

  ghost predicate Sleeping(h: seq<Event>, t: RunnerId, q: nat) {
    && q < |h| && h[q] == Enqueue(t)
    && forall k :: q < k < |h| ==> h[k] != WakeUp(t)
  }

  /** Every sleeper's bedtime and every live group's sending time are on record. */
  ghost predicate Ledger(h: seq<Event>, queue: seq<RunnerId>, groups: seq<WakeGroup>, sent: seq<nat>, since: map<RunnerId, nat>) {
    && |sent| == |groups|
    && (forall i :: 0 <= i < |sent| ==> sent[i] < |h| && h[sent[i]] == SignalSent)
    && Distinct(sent)
    && (forall t :: t in queue ==> t in since && Sleeping(h, t, since[t]))
    && (forall i, t :: 0 <= i < |sent| && t in groups[i] ==> t in since && since[t] < sent[i])
    && (forall i, k :: 0 <= i < |sent| && groups[i] != [] && sent[i] < k < |h| ==> h[k] != BroadcastSent)
  }

  ghost predicate Unspent(used: map<nat, nat>, sent: seq<nat>) {
    forall w :: w in used ==> used[w] !in sent
  }

  ghost predicate BookInv(h: seq<Event>, b: Book) {
    && After(h) == Some(b.policy) && Inv(b.policy)
    && Ledger(h, b.policy.queue, b.policy.groups, b.sent, b.since)
    && Accounts(h, b.used)
    && Unspent(b.used, b.sent)
  }

  lemma AccountsGrows(h: seq<Event>, e: Event, used: map<nat, nat>)
    requires Accounts(h, used) && !Consumes(h + [e], |h|)
    ensures Accounts(h + [e], used)
  {
    var h' := h + [e];
    forall w: nat ensures w in used <==> Consumes(h', w) {
      if w < |h| {
        assert h'[..w] == h[..w];
      }
    }
    forall w | w in used ensures exists q :: Feeds(h', q, used[w], w) {
      var q :| Feeds(h, q, used[w], w);
      assert Feeds(h', q, used[w], w);
    }
  }

  lemma AccountsConsumes(h: seq<Event>, e: Event, used: map<nat, nat>, q: nat, s: nat)
    requires Accounts(h, used) && Consumes(h + [e], |h|)
    requires Feeds(h + [e], q, s, |h|)
    requires forall w :: w in used ==> used[w] != s
    ensures Accounts(h + [e], used[|h| := s])
  {
    var h' := h + [e];
    var used' := used[|h| := s];
    forall w: nat ensures w in used' <==> Consumes(h', w) {
      if w < |h| {
        assert h'[..w] == h[..w];
      }
    }
    forall w | w in used' ensures exists q :: Feeds(h', q, used'[w], w) {
      if w != |h| {
        var q :| Feeds(h, q, used[w], w);
        assert Feeds(h', q, used[w], w);
      }
    }
    assert |h| !in used;
  }

  lemma EnqueueBooked(h: seq<Event>, b: Book, t: RunnerId)
    requires BookInv(h, b) && CanHappen(b.policy, Enqueue(t))
    ensures BookInv(h + [Enqueue(t)], b.(policy := Next(b.policy, Enqueue(t)), since := b.since[t := |h|]))
  {
    hide Feeds, Accounts;
    var e := Enqueue(t);
    assert (h + [e])[..|h|] == h;
    NextKeepsInv(b.policy, e);
    AccountsGrows(h, e, b.used);
    forall i | 0 <= i < |b.sent| ensures t !in b.policy.groups[i] {
      assert Within(b.policy.groups[i], b.policy.queue);
    }
  }

  lemma LedgerSignal(h: seq<Event>, queue: seq<RunnerId>, groups: seq<WakeGroup>, sent: seq<nat>, since: map<RunnerId, nat>)
    requires Ledger(h, queue, groups, sent, since)
    ensures Ledger(h + [SignalSent], queue, groups, sent, since)
    ensures Ledger(h + [SignalSent], queue, groups + [queue], sent + [|h|], since)
  {
  }

  lemma UsedIsPast(h: seq<Event>, used: map<nat, nat>, w: nat)
    requires Accounts(h, used) && w in used
    ensures used[w] < |h|
  {
    var q :| Feeds(h, q, used[w], w);
  }

  lemma SignalBooked(h: seq<Event>, b: Book)
    requires BookInv(h, b)
    ensures BookInv(h + [SignalSent], b.(policy := Next(b.policy, SignalSent),
                    sent := if HasWaiters(b.policy) then b.sent + [|h|] else b.sent))
  {
    hide Ledger, Accounts;
    assert (h + [SignalSent])[..|h|] == h;
    NextKeepsInv(b.policy, SignalSent);
    AccountsGrows(h, SignalSent, b.used);
    WaitingIsWholeQueue(b.policy, b.policy.queue);
    LedgerSignal(h, b.policy.queue, b.policy.groups, b.sent, b.since);
    forall w | w in b.used ensures b.used[w] !in b.sent + [|h|] {
      UsedIsPast(h, b.used, w);
    }
  }

  lemma HeadIsMember(g: WakeGroup)
    ensures g == [] || exists t :: t in g
  {
    if g != [] {
      assert g[0] in g;
    }
  }

  lemma BroadcastBooked(h: seq<Event>, b: Book)
    requires BookInv(h, b)
    ensures BookInv(h + [BroadcastSent], b.(policy := Next(b.policy, BroadcastSent),
                    sent := if HasWaiters(b.policy) then [] else b.sent))
  {
    assert (h + [BroadcastSent])[..|h|] == h;
    NextKeepsInv(b.policy, BroadcastSent);
    AccountsGrows(h, BroadcastSent, b.used);
    if !HasWaiters(b.policy) {
      forall i | 0 <= i < |b.sent| ensures b.policy.groups[i] == [] {
        HeadIsMember(b.policy.groups[i]);
        assert Within(b.policy.groups[i], b.policy.queue);
      }
    }
  }

  lemma WokenPolicy(h: seq<Event>, p: Policy, t: RunnerId)
    requires After(h) == Some(p) && Inv(p) && CanExit(p, t)
    ensures After(h + [WakeUp(t)]) == Some(Wake(p, t)) && Inv(Wake(p, t))
  {
    assert (h + [WakeUp(t)])[..|h|] == h;
    WakeKeepsInv(p, t);
  }

  lemma PassedLedger(h: seq<Event>, p: Policy, sent: seq<nat>, since: map<RunnerId, nat>, t: RunnerId)
    requires Ledger(h, p.queue, p.groups, sent, since) && Inv(p) && t in p.eligible
    ensures Ledger(h + [WakeUp(t)], Wake(p, t).queue, Wake(p, t).groups, sent, since)
  {
    RemoveFirstSpec(p.queue, t);
    LedgerPass(h, p.queue, p.groups, sent, since, Wake(p, t).queue, Wake(p, t).groups, t);
  }

  /** The ledger once the thread left on its pass. */
  lemma LedgerPass(h: seq<Event>, queue: seq<RunnerId>, groups: seq<WakeGroup>, sent: seq<nat>, since: map<RunnerId, nat>,
                   queue': seq<RunnerId>, groups': seq<WakeGroup>, t: RunnerId)
    requires Ledger(h, queue, groups, sent, since) && |groups'| == |groups|
    requires forall i, x :: 0 <= i < |groups| && x in groups'[i] ==> x in groups[i]
    requires forall x :: x in queue' ==> x in queue && x != t
    ensures Ledger(h + [WakeUp(t)], queue', groups', sent, since)
  {
    forall k, n | 0 <= k < |sent| && groups'[k] != [] && sent[k] < n < |h| ensures h[n] != BroadcastSent {
      assert groups'[k][0] in groups'[k];
    }
  }

  lemma PassBooked(h: seq<Event>, b: Book, t: RunnerId)
    requires BookInv(h, b) && t in b.policy.eligible
    ensures BookInv(h + [WakeUp(t)], b.(policy := Wake(b.policy, t)))
  {
    hide Feeds, Accounts, Ledger, Inv, Wake, CanExit;
    assert CanExit(b.policy, t) by { PassCanExit(b.policy, t); }
    assert !Consumes(h + [WakeUp(t)], |h|) by { assert (h + [WakeUp(t)])[..|h|] == h; }
    WokenPolicy(h, b.policy, t);
    PassedLedger(h, b.policy, b.sent, b.since, t);
    AccountsGrows(h, WakeUp(t), b.used);
  }

  lemma PassCanExit(p: Policy, t: RunnerId)
    requires t in p.eligible
    ensures CanExit(p, t)
  {
  }

  /** The ledger once the thread took group `i`. */
  lemma LedgerConsume(h: seq<Event>, queue: seq<RunnerId>, groups: seq<WakeGroup>, sent: seq<nat>, since: map<RunnerId, nat>,
                      queue': seq<RunnerId>, groups': seq<WakeGroup>, i: nat, t: RunnerId)
    requires Ledger(h, queue, groups, sent, since) && TakenOut(groups, groups', i, t)
    requires forall x :: x in queue' ==> x in queue && x != t
    ensures Ledger(h + [WakeUp(t)], queue', groups', DropAt(sent, i), since)
  {
    var sent' := DropAt(sent, i);
    forall k | 0 <= k < |sent'| ensures sent'[k] == sent[Before(i, k)] {
    }
    forall k, n | 0 <= k < |sent'| && groups'[k] != [] && sent'[k] < n < |h|
      ensures h[n] != BroadcastSent
    {
      assert groups'[k][0] in groups'[k];
    }
  }

  lemma DropDistinct(sent: seq<nat>, i: nat)
    requires i < |sent| && Distinct(sent)
    ensures sent[i] !in DropAt(sent, i)
    ensures forall s :: s in DropAt(sent, i) ==> s in sent
  {
  }

  /** The first group that lists the thread belongs to a signal it heard. */
  lemma ConsumedFeeds(h: seq<Event>, b: Book, t: RunnerId)
    requires BookInv(h, b) && CanExit(b.policy, t) && t !in b.policy.eligible
    ensures FirstGroup(b.policy.groups, t) < |b.sent| && t in b.since
    ensures Consumes(h + [WakeUp(t)], |h|)
    ensures Feeds(h + [WakeUp(t)], b.since[t], b.sent[FirstGroup(b.policy.groups, t)], |h|)
  {
    assert (h + [WakeUp(t)])[..|h|] == h;
    var i := FirstGroup(b.policy.groups, t);
    assert Within(b.policy.groups[i], b.policy.queue);
  }

  lemma WokenLedger(h: seq<Event>, p: Policy, sent: seq<nat>, since: map<RunnerId, nat>, t: RunnerId, i: nat)
    requires Ledger(h, p.queue, p.groups, sent, since) && Inv(p)
    requires CanExit(p, t) && t !in p.eligible && i == FirstGroup(p.groups, t) < |sent|
    ensures Ledger(h + [WakeUp(t)], Wake(p, t).queue, Wake(p, t).groups, DropAt(sent, i), since)
  {
    RemoveFirstSpec(p.queue, t);
    WakeTakesOut(p, t);
    LedgerConsume(h, p.queue, p.groups, sent, since, Wake(p, t).queue, Wake(p, t).groups, i, t);
  }

  lemma SentOnce(h: seq<Event>, b: Book)
    requires BookInv(h, b)
    ensures Distinct(b.sent)
  {
  }

  lemma ConsumeBooked(h: seq<Event>, b: Book, t: RunnerId)
    requires BookInv(h, b) && CanExit(b.policy, t) && t !in b.policy.eligible
    ensures FirstGroup(b.policy.groups, t) < |b.sent|
    ensures var i := FirstGroup(b.policy.groups, t);
      BookInv(h + [WakeUp(t)], Book(Wake(b.policy, t), DropAt(b.sent, i), b.used[|h| := b.sent[i]], b.since))
  {
    hide After, Inv, Ledger, Accounts, Wake, Feeds, Consumes, CanExit;
    var i := FirstGroup(b.policy.groups, t);
    WokenPolicy(h, b.policy, t);
    ConsumedFeeds(h, b, t);
    WokenLedger(h, b.policy, b.sent, b.since, t, i);
    AccountsConsumes(h, WakeUp(t), b.used, b.since[t], b.sent[i]);
    assert Distinct(b.sent) by { SentOnce(h, b); }
    DropDistinct(b.sent, i);
  }

  // --- What the ledger leaves out, nobody heard ---

  /** Each live group lists exactly the queued threads that went to sleep before its signal. */
  ghost predicate Lists(queue: seq<RunnerId>, groups: seq<WakeGroup>, sent: seq<nat>, since: map<RunnerId, nat>) {
    && |sent| == |groups| && (forall t :: t in queue ==> t in since)
    && forall i, t :: 0 <= i < |sent| ==> (t in groups[i] <==> t in queue && since[t] < sent[i])
  }

  /** Each signal that a queued thread heard is live or used. */
  ghost predicate NoneLost(h: seq<Event>, queue: seq<RunnerId>, sent: seq<nat>, used: map<nat, nat>, since: map<RunnerId, nat>) {
    forall s: nat, t :: s < |h| && h[s] == SignalSent && t in queue && t in since && since[t] < s ==> s in sent || s in used.Values
  }

  /** The queue is in the order of going to sleep. */
  ghost predicate InOrder(queue: seq<RunnerId>, since: map<RunnerId, nat>) {
    forall i, j :: 0 <= i < j < |queue| && queue[i] in since && queue[j] in since ==> since[queue[i]] < since[queue[j]]
  }

  ghost predicate Exact(h: seq<Event>, b: Book) {
    && Lists(b.policy.queue, b.policy.groups, b.sent, b.since)
    && NoneLost(h, b.policy.queue, b.sent, b.used, b.since)
    && InOrder(b.policy.queue, b.since)
  }

  lemma EnqueueExact(h: seq<Event>, b: Book, t: RunnerId)
    requires BookInv(h, b) && Exact(h, b) && CanHappen(b.policy, Enqueue(t))
    ensures Exact(h + [Enqueue(t)], b.(policy := Next(b.policy, Enqueue(t)), since := b.since[t := |h|]))
  {
    hide Accounts, After;
    forall i | 0 <= i < |b.sent| ensures t !in b.policy.groups[i] {
      assert Within(b.policy.groups[i], b.policy.queue);
    }
  }

  lemma ListsSignal(h: seq<Event>, queue: seq<RunnerId>, groups: seq<WakeGroup>, sent: seq<nat>, used: map<nat, nat>, since: map<RunnerId, nat>)
    requires Lists(queue, groups, sent, since) && NoneLost(h, queue, sent, used, since)
    requires forall t :: t in queue ==> since[t] < |h|
    ensures Lists(queue, groups + [queue], sent + [|h|], since)
    ensures NoneLost(h + [SignalSent], queue, sent + [|h|], used, since)
  {
    assert |h| == (sent + [|h|])[|sent|];
  }

  lemma SignalExact(h: seq<Event>, b: Book)
    requires BookInv(h, b) && Exact(h, b)
    ensures Exact(h + [SignalSent], b.(policy := Next(b.policy, SignalSent),
                  sent := if HasWaiters(b.policy) then b.sent + [|h|] else b.sent))
  {
    hide Accounts, After, Lists, NoneLost, InOrder;
    WaitingIsWholeQueue(b.policy, b.policy.queue);
    if HasWaiters(b.policy) {
      HeardSince(h, b);
      ListsSignal(h, b.policy.queue, b.policy.groups, b.sent, b.used, b.since);
    } else {
      assert NoneLost(h + [SignalSent], [], b.sent, b.used, b.since) by { NobodyLosesAny(h + [SignalSent], b.sent, b.used, b.since); }
    }
  }

  lemma HeardSince(h: seq<Event>, b: Book)
    requires BookInv(h, b)
    ensures forall t :: t in b.policy.queue ==> t in b.since && b.since[t] < |h|
  {
    hide Accounts, After;
  }

  lemma NobodyLosesAny(h: seq<Event>, sent: seq<nat>, used: map<nat, nat>, since: map<RunnerId, nat>)
    ensures NoneLost(h, [], sent, used, since)
  {
  }

  lemma BroadcastExact(h: seq<Event>, b: Book)
    requires BookInv(h, b) && Exact(h, b)
    ensures Exact(h + [BroadcastSent], b.(policy := Next(b.policy, BroadcastSent),
                  sent := if HasWaiters(b.policy) then [] else b.sent))
  {
    hide Accounts, After;
  }

  lemma OrderWithout(queue: seq<RunnerId>, since: map<RunnerId, nat>, t: RunnerId)
    requires InOrder(queue, since)
    ensures InOrder(RemoveFirst(queue, t), since)
  {
  }

  lemma PassExact(h: seq<Event>, b: Book, t: RunnerId)
    requires BookInv(h, b) && Exact(h, b) && t in b.policy.eligible
    ensures CanExit(b.policy, t)
    ensures Exact(h + [WakeUp(t)], b.(policy := Wake(b.policy, t)))
  {
    hide Accounts, After;
    assert CanExit(b.policy, t);
    RemoveFirstSpec(b.policy.queue, t);
    OrderWithout(b.policy.queue, b.since, t);
  }

  lemma ConsumeExact(h: seq<Event>, b: Book, t: RunnerId)
    requires BookInv(h, b) && Exact(h, b) && CanExit(b.policy, t) && t !in b.policy.eligible
    ensures FirstGroup(b.policy.groups, t) < |b.sent|
    ensures var i := FirstGroup(b.policy.groups, t);
      Exact(h + [WakeUp(t)], Book(Wake(b.policy, t), DropAt(b.sent, i), b.used[|h| := b.sent[i]], b.since))
  {
    hide Accounts, After, Consumes, CanExit;
    var i := FirstGroup(b.policy.groups, t);
    assert i < |b.sent| by { ConsumedFeeds(h, b, t); }
    WakeTakesOut(b.policy, t);
    RemoveFirstSpec(b.policy.queue, t);
    OrderWithout(b.policy.queue, b.since, t);
    ConsumedNoneLost(h, b, t, i);
    ConsumedLists(b, t, i);
  }

  lemma ConsumedLists(b: Book, t: RunnerId, i: nat)
    requires CanExit(b.policy, t) && Lists(b.policy.queue, b.policy.groups, b.sent, b.since) && i < |b.sent|
    requires TakenOut(b.policy.groups, Wake(b.policy, t).groups, i, t)
    requires forall x :: x in Wake(b.policy, t).queue <==> x in b.policy.queue && x != t
    ensures Lists(Wake(b.policy, t).queue, Wake(b.policy, t).groups, DropAt(b.sent, i), b.since)
  {
    hide Wake, CanExit;
    var sent' := DropAt(b.sent, i);
    forall k | 0 <= k < |sent'| ensures sent'[k] == b.sent[Before(i, k)] {
    }
  }

  lemma ConsumedNoneLost(h: seq<Event>, b: Book, t: RunnerId, i: nat)
    requires NoneLost(h, b.policy.queue, b.sent, b.used, b.since) && i < |b.sent| && Accounts(h, b.used)
    requires CanExit(b.policy, t) && forall x :: x in Wake(b.policy, t).queue <==> x in b.policy.queue && x != t
    ensures NoneLost(h + [WakeUp(t)], Wake(b.policy, t).queue, DropAt(b.sent, i), b.used[|h| := b.sent[i]], b.since)
  {
    hide Wake, CanExit, Feeds;
    var used', sent' := b.used[|h| := b.sent[i]], DropAt(b.sent, i);
    forall s: nat, x | s < |h| && h[s] == SignalSent && x in b.policy.queue && x in b.since && b.since[x] < s
      ensures s in sent' || s in used'.Values
    {
      if s in b.sent {
        StillSent(b.sent, i, s);
        assert used'[|h|] == b.sent[i];
      } else {
        var w :| w in b.used && b.used[w] == s;
        assert w != |h| && used'[w] == s;
      }
    }
  }

  lemma StillSent(sent: seq<nat>, i: nat, s: nat)
    requires i < |sent| && s in sent
    ensures s == sent[i] || s in DropAt(sent, i)
  {
    var k :| 0 <= k < |sent| && sent[k] == s;
    if k != i {
      assert DropAt(sent, i)[Behind(i, k)] == s;
    }
  }

  lemma EmptyBook()
    ensures BookInv([], Book(EMPTY_POLICY, [], map[], map[]))
    ensures Exact([], Book(EMPTY_POLICY, [], map[], map[]))
  {
  }

  lemma {:induction false} BookExists(h: seq<Event>) returns (b: Book)
    requires After(h).Some?
    ensures BookInv(h, b) && Exact(h, b)
  {
    hide Ledger, Accounts, Inv, Unspent, Wake, Exact;
    if h == [] {
      EmptyBook();
      return Book(EMPTY_POLICY, [], map[], map[]);
    }
    var front, e := h[..|h| - 1], h[|h| - 1];
    assert h == front + [e];
    b := BookExists(front);
    match e
    case Enqueue(t) =>
      EnqueueBooked(front, b, t);
      EnqueueExact(front, b, t);
      b := b.(policy := Next(b.policy, e), since := b.since[t := |front|]);
    case SignalSent =>
      SignalBooked(front, b);
      SignalExact(front, b);
      b := b.(policy := Next(b.policy, e), sent := if HasWaiters(b.policy) then b.sent + [|front|] else b.sent);
    case BroadcastSent =>
      BroadcastBooked(front, b);
      BroadcastExact(front, b);
      b := b.(policy := Next(b.policy, e), sent := if HasWaiters(b.policy) then [] else b.sent);
    case WakeUp(t) =>
      if t in b.policy.eligible {
        PassBooked(front, b, t);
        PassExact(front, b, t);
        b := b.(policy := Wake(b.policy, t));
      } else {
        ConsumeBooked(front, b, t);
        ConsumeExact(front, b, t);
        var i := FirstGroup(b.policy.groups, t);
        b := Book(Wake(b.policy, t), DropAt(b.sent, i), b.used[|front| := b.sent[i]], b.since);
      }
  }

  /** Signal accounting: in every run the signal-driven wake-ups can be matched one to
      one with signals sent after the woken thread went to sleep and after the last
      broadcast, so no thread leaves on a signal it was not there to hear. */
  lemma EveryWakeUpHasItsSignal(h: seq<Event>)
    requires After(h).Some?
    ensures exists used :: Accounts(h, used)
  {
    var b := BookExists(h);
  }
}
