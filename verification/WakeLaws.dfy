/**
 * Who may leave a condition variable, told by its history alone: whoever a broadcast found
 * asleep, and whoever was asleep when a signal was sent that nobody has used.
 */
module WakeLaws {
  import opened Basics
  import opened CvPolicy
  import opened SignalAccounting

  // --- Asleep, and freed by a broadcast ---

  datatype Standing = Awake | Asleep | Freed

  /** What the history makes of a thread. */
  function StandingOf(h: seq<Event>, t: RunnerId): Standing {
    if h == [] then Awake else
      var e, before := h[|h| - 1], StandingOf(h[..|h| - 1], t);
      if e == Enqueue(t) then Asleep
      else if e == WakeUp(t) then Awake
      else if e == BroadcastSent && before == Asleep then Freed
      else before
  }

  /** The queue holds the threads asleep, and those freed have a pass. */
  ghost predicate Stands(h: seq<Event>, p: Policy) {
    && (forall t :: t in p.queue <==> StandingOf(h, t) == Asleep)
    && (forall t :: t in p.eligible <==> StandingOf(h, t) == Freed)
  }

  lemma StandingGrows(h: seq<Event>, e: Event, t: RunnerId)
    ensures StandingOf(h + [e], t) ==
            if e == Enqueue(t) then Asleep
            else if e == WakeUp(t) then Awake
            else if e == BroadcastSent && StandingOf(h, t) == Asleep then Freed
            else StandingOf(h, t)
  {
    assert (h + [e])[..|h|] == h;
  }

  lemma BroadcastFrees(p: Policy)
    requires Inv(p)
    ensures Next(p, BroadcastSent).queue == []
    ensures forall t :: t in Next(p, BroadcastSent).eligible <==> t in p.queue || t in p.eligible
  {
    WaitingIsWholeQueue(p, p.queue);
    assert forall i :: 0 <= i < |p.groups| ==> Within(p.groups[i], p.queue);
  }

  lemma WakeLeavesOthers(p: Policy, w: RunnerId, t: RunnerId)
    requires Inv(p) && CanExit(p, w)
    ensures t in Wake(p, w).queue <==> t in p.queue && t != w
    ensures t in Wake(p, w).eligible <==> t in p.eligible && t != w
  {
    RemoveFirstSpec(p.queue, w);
  }

  lemma StandsStep(h: seq<Event>, p: Policy, e: Event, t: RunnerId)
    requires Inv(p) && Stands(h, p) && CanHappen(p, e)
    ensures t in Next(p, e).queue <==> StandingOf(h + [e], t) == Asleep
    ensures t in Next(p, e).eligible <==> StandingOf(h + [e], t) == Freed
  {
    hide Inv, StandingOf, Wake, CanExit, Broadcast;
    StandingGrows(h, e, t);
    match e
    case Enqueue(_) =>
    case SignalSent =>
    case BroadcastSent => BroadcastFrees(p);
    case WakeUp(w) => WakeLeavesOthers(p, w, t);
  }

  lemma AllStand(h: seq<Event>, p: Policy, e: Event)
    requires Inv(p) && Stands(h, p) && CanHappen(p, e)
    ensures Stands(h + [e], Next(p, e))
  {
    hide Inv, StandingOf, CanHappen, Next;
    forall t
      ensures t in Next(p, e).queue <==> StandingOf(h + [e], t) == Asleep
      ensures t in Next(p, e).eligible <==> StandingOf(h + [e], t) == Freed
    {
      StandsStep(h, p, e, t);
    }
  }

  lemma NobodyStands()
    ensures Stands([], EMPTY_POLICY)
  {
  }

  /** In every run the policy is what the history says of each thread. */
  lemma {:induction false} PolicyIsByHistory(h: seq<Event>)
    requires After(h).Some?
    ensures Stands(h, After(h).value)
  {
    hide Inv, Stands, CanHappen, Next;
    if h == [] {
      NobodyStands();
    } else {
      var front, e := h[..|h| - 1], h[|h| - 1];
      PolicyIsByHistory(front);
      RunKeepsInv(front);
      assert h == front + [e];
      AllStand(front, After(front).value, e);
    }
  }

  /** `t` fell asleep at `q`, and neither woke up nor heard a broadcast since. */
  ghost predicate Dozes(h: seq<Event>, t: RunnerId, q: nat) {
    Sleeping(h, t, q) && forall b :: q < b < |h| ==> h[b] != BroadcastSent
  }

  /** `t` fell asleep at `q`, has heard a broadcast and not woken up. */
  ghost predicate Hears(h: seq<Event>, t: RunnerId, q: nat) {
    Sleeping(h, t, q) && exists b :: q < b < |h| && h[b] == BroadcastSent
  }

  lemma DozesGrows(h: seq<Event>, e: Event, t: RunnerId, q: nat)
    ensures Dozes(h + [e], t, q) <==> if q == |h| then e == Enqueue(t) else Dozes(h, t, q) && e != WakeUp(t) && e != BroadcastSent
  {
    var h' := h + [e];
    assert h'[|h|] == e && forall k :: 0 <= k < |h| ==> h'[k] == h[k];
    if q < |h| && Dozes(h', t, q) {
      assert h'[|h|] != WakeUp(t) && h'[|h|] != BroadcastSent;
      assert forall k :: q < k < |h| ==> h[k] == h'[k];
    }
  }

  lemma HearsGrows(h: seq<Event>, e: Event, t: RunnerId, q: nat)
    ensures Hears(h + [e], t, q) <==> q < |h| && e != WakeUp(t) && (Hears(h, t, q) || (e == BroadcastSent && Dozes(h, t, q)))
  {
    var h' := h + [e];
    assert h'[|h|] == e && forall k :: 0 <= k < |h| ==> h'[k] == h[k];
    if Hears(h', t, q) {
      var b :| q < b < |h'| && h'[b] == BroadcastSent;
      assert h'[|h|] != WakeUp(t);
      assert forall k :: q < k < |h| ==> h[k] == h'[k];
      assert b < |h| ==> h[b] == BroadcastSent;
    }
    if q < |h| && e == BroadcastSent && Dozes(h, t, q) {
      assert h'[|h|] == BroadcastSent;
    }
  }

  /** Asleep is whoever enqueued and has neither woken up nor heard a broadcast since; freed
      is whoever enqueued before a broadcast and has not woken up since. */
  lemma {:induction false} StandingIsHistory(h: seq<Event>, t: RunnerId)
    requires After(h).Some?
    ensures StandingOf(h, t) == Asleep <==> exists q: nat :: Dozes(h, t, q)
    ensures StandingOf(h, t) == Freed <==> exists q: nat :: Hears(h, t, q)
  {
    hide Dozes, Hears, StandingOf, Next;
    if h == [] {
      NobodyYet(t);
    } else {
      var front, e := h[..|h| - 1], h[|h| - 1];
      StandingIsHistory(front, t);
      PolicyIsByHistory(front);
      assert h == front + [e];
      StandingFollows(front, e, t);
    }
  }

  lemma NobodyYet(t: RunnerId)
    ensures StandingOf([], t) == Awake && forall q: nat :: !Dozes([], t, q) && !Hears([], t, q)
  {
  }

  lemma StandingFollows(h: seq<Event>, e: Event, t: RunnerId)
    requires StandingOf(h, t) == Asleep <==> exists q: nat :: Dozes(h, t, q)
    requires StandingOf(h, t) == Freed <==> exists q: nat :: Hears(h, t, q)
    requires e == Enqueue(t) ==> StandingOf(h, t) == Awake
    ensures StandingOf(h + [e], t) == Asleep <==> exists q: nat :: Dozes(h + [e], t, q)
    ensures StandingOf(h + [e], t) == Freed <==> exists q: nat :: Hears(h + [e], t, q)
  {
    hide Dozes, Hears, StandingOf;
    StandingGrows(h, e, t);
    DozesGrows(h, e, t, |h|);
    forall q: nat
      ensures Dozes(h + [e], t, q) <==> if q == |h| then e == Enqueue(t) else Dozes(h, t, q) && e != WakeUp(t) && e != BroadcastSent
      ensures Hears(h + [e], t, q) <==> q < |h| && e != WakeUp(t) && (Hears(h, t, q) || (e == BroadcastSent && Dozes(h, t, q)))
    {
      DozesGrows(h, e, t, q);
      HearsGrows(h, e, t, q);
    }
    if StandingOf(h, t) == Asleep {
      var q: nat :| Dozes(h, t, q);
      DozesIsPast(h, t, q);
      assert e != WakeUp(t) && e != BroadcastSent ==> Dozes(h + [e], t, q);
      assert e == BroadcastSent ==> Hears(h + [e], t, q);
    } else if StandingOf(h, t) == Freed {
      var q: nat :| Hears(h, t, q);
      HearsIsPast(h, t, q);
      assert e != WakeUp(t) ==> Hears(h + [e], t, q);
    }
  }

  lemma DozesIsPast(h: seq<Event>, t: RunnerId, q: nat)
    requires Dozes(h, t, q)
    ensures q < |h|
  {
  }

  lemma HearsIsPast(h: seq<Event>, t: RunnerId, q: nat)
    requires Hears(h, t, q)
    ensures q < |h|
  {
  }

  /** Right after a signal or a broadcast everyone who was asleep can leave. */
  lemma MessageFrees(h: seq<Event>, e: Event, t: RunnerId)
    requires After(h + [e]).Some? && (e == SignalSent || e == BroadcastSent)
    requires StandingOf(h, t) == Asleep
    ensures CanExit(After(h + [e]).value, t)
    ensures e == BroadcastSent ==> t in After(h + [e]).value.eligible
  {
    assert (h + [e])[..|h|] == h;
    var p := After(h).value;
    PolicyIsByHistory(h);
    RunKeepsInv(h);
    if e == BroadcastSent {
      BroadcastFrees(p);
    } else {
      WaitingIsWholeQueue(p, p.queue);
      assert p.queue in Next(p, e).groups;
    }
  }

  // --- Signals nobody has used ---

  /** `t` was asleep when the signal at `s` was sent, is still asleep, and heard no broadcast. */
  ghost predicate Heard(h: seq<Event>, t: RunnerId, s: nat) {
    s < |h| && h[s] == SignalSent && exists q: nat :: q < s && Dozes(h, t, q)
  }

  /** A thread can leave exactly when a broadcast freed it, or a signal that it heard has not
      been used by another one. No signal that somebody heard is lost. */
  lemma WhoCanExit(h: seq<Event>) returns (used: map<nat, nat>)
    requires After(h).Some?
    ensures Accounts(h, used)
    ensures forall t :: CanExit(After(h).value, t) <==>
              StandingOf(h, t) == Freed || exists s: nat :: Heard(h, t, s) && s !in used.Values
  {
    hide Ledger, Accounts, Inv, Unspent, Feeds;
    var b := BookExists(h);
    used := b.used;
    PolicyIsByHistory(h);
    forall t ensures CanExit(b.policy, t) <==> StandingOf(h, t) == Freed || exists s: nat :: Heard(h, t, s) && s !in used.Values {
      if t in b.policy.queue {
        QueuedCanExit(h, b, t);
      } else {
        OthersCannotExit(h, b, t);
        StandingIsHistory(h, t);
      }
    }
  }

  lemma OthersCannotExit(h: seq<Event>, b: Book, t: RunnerId)
    requires BookInv(h, b) && t !in b.policy.queue
    ensures CanExit(b.policy, t) <==> t in b.policy.eligible
  {
    hide Ledger, Accounts, Unspent;
    assert forall i :: 0 <= i < |b.policy.groups| ==> Within(b.policy.groups[i], b.policy.queue);
  }

  lemma QueuedCanExit(h: seq<Event>, b: Book, t: RunnerId)
    requires BookInv(h, b) && Exact(h, b) && t in b.policy.queue
    ensures CanExit(b.policy, t) <==> exists s: nat :: Heard(h, t, s) && s !in b.used.Values
  {
    hide Accounts, Inv, StandingOf;
    QueuedDozes(h, b, t);
    if CanExit(b.policy, t) {
      QueuedHasNoPass(h, b, t);
      var g :| g in b.policy.groups && t in g;
      var i :| 0 <= i < |b.policy.groups| && b.policy.groups[i] == g;
      UnspentIsUnused(b.used, b.sent, i);
      assert Heard(h, t, b.sent[i]);
    }
    if s: nat :| Heard(h, t, s) && s !in b.used.Values {
      var i :| 0 <= i < |b.sent| && b.sent[i] == s by { LiveOrUsed(h, b, t, s); }
      assert t in b.policy.groups[i];
    }
  }

  lemma QueuedHasNoPass(h: seq<Event>, b: Book, t: RunnerId)
    requires BookInv(h, b) && t in b.policy.queue
    ensures t !in b.policy.eligible
  {
  }

  lemma UnspentIsUnused(used: map<nat, nat>, sent: seq<nat>, i: nat)
    requires Unspent(used, sent) && i < |sent|
    ensures sent[i] !in used.Values
  {
  }

  lemma AwakeIsNotAsleep(h: seq<Event>, t: RunnerId, q: nat)
    requires After(h).Some? && Sleeping(h, t, q)
    ensures StandingOf(h, t) != Awake
  {
    StandingIsHistory(h, t);
    assert Dozes(h, t, q) || Hears(h, t, q);
  }

  /** A thread is asleep since one time only. */
  lemma {:induction false} OneBedtime(h: seq<Event>, t: RunnerId, q: nat, r: nat)
    requires After(h).Some? && Sleeping(h, t, q) && Sleeping(h, t, r)
    ensures q == r
  {
    hide StandingOf, Next;
    var front, e := h[..|h| - 1], h[|h| - 1];
    assert h == front + [e] && e != WakeUp(t);
    PolicyIsByHistory(front);
    if q < |front| {
      AwakeIsNotAsleep(front, t, q);
    }
    if r < |front| {
      AwakeIsNotAsleep(front, t, r);
    }
    if q < |front| && r < |front| {
      OneBedtime(front, t, q, r);
    }
  }

  /** A queued thread has dozed since the time on record, and since then only. */
  lemma QueuedDozes(h: seq<Event>, b: Book, t: RunnerId)
    requires BookInv(h, b) && t in b.policy.queue
    ensures t in b.since && Dozes(h, t, b.since[t])
    ensures forall q: nat :: Dozes(h, t, q) ==> q == b.since[t]
  {
    hide Accounts, Inv, Unspent, StandingOf, After, Sleeping;
    PolicyIsByHistory(h);
    StandingIsHistory(h, t);
    forall q: nat | Dozes(h, t, q) ensures q == b.since[t] {
      OneBedtime(h, t, q, b.since[t]);
    }
  }

  lemma LiveOrUsed(h: seq<Event>, b: Book, t: RunnerId, s: nat)
    requires BookInv(h, b) && Exact(h, b) && t in b.policy.queue && Heard(h, t, s) && s !in b.used.Values
    ensures s in b.sent && b.since[t] < s
  {
    hide Accounts, Inv, Unspent;
    QueuedDozes(h, b, t);
  }
}
