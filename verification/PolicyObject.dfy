/** The wake policy as the object that condition variables point to. */
module PolicyObject {
  import opened Basics
  import opened CvPolicy

  class ConditionVariablePolicy {
    var waitQueue: seq<RunnerId>
    var wakeGroups: seq<WakeGroup>
    var broadcastEligible: set<RunnerId>
    var threadsWithStates: map<RunnerId, CvStatus>

    function Value(): Policy
      reads this
    {
      Policy(waitQueue, wakeGroups, broadcastEligible, threadsWithStates)
    }

    constructor ()
      ensures Value() == EMPTY_POLICY
    {
      waitQueue, wakeGroups, broadcastEligible, threadsWithStates := [], [], {}, map[];
    }

    /** `clone`: a copy that shares nothing with the original. */
    method Clone() returns (copy: ConditionVariablePolicy)
      ensures fresh(copy) && copy.Value() == Value()
    {
      copy := new ConditionVariablePolicy();
      copy.waitQueue, copy.wakeGroups := waitQueue, wakeGroups;
      copy.broadcastEligible, copy.threadsWithStates := broadcastEligible, threadsWithStates;
    }

    /** `thread_can_exit`. */
    method ThreadCanExit(tid: RunnerId) returns (r: bool)
      ensures r == CanExit(Value(), tid)
    {
      if tid in broadcastEligible {
        return true;
      }
      var i := FirstGroupWith(tid);
      r := i < |wakeGroups|;
    }

    /** `find_if` over the wake groups. */
    method FirstGroupWith(tid: RunnerId) returns (i: nat)
      ensures i == FirstGroup(wakeGroups, tid)
    {
      i := 0;
      while i < |wakeGroups| && tid !in wakeGroups[i]
        invariant i <= |wakeGroups| && forall k :: 0 <= k < i ==> tid !in wakeGroups[k]
      {
        i := i + 1;
      }
      FirstGroupUnique(wakeGroups, tid, i);
    }

    /** `receive_signal_message`. */
    method ReceiveSignalMessage()
      modifies this`wakeGroups
      ensures Value() == ReceiveSignal(old(Value()))
    {
      if waitQueue != [] {
        wakeGroups := wakeGroups + [waitQueue];
      }
    }

    /** `receive_broadcast_message`: whoever is in a group or in the queue gets a pass. */
    method ReceiveBroadcastMessage()
      modifies this`waitQueue, this`wakeGroups, this`broadcastEligible
      ensures Value() == ReceiveBroadcast(old(Value()))
    {
      for i := 0 to |wakeGroups|
        invariant wakeGroups == old(wakeGroups) && waitQueue == old(waitQueue)
        invariant broadcastEligible == old(broadcastEligible) + Members(wakeGroups[..i])
      {
        assert wakeGroups[..i + 1] == wakeGroups[..i] + [wakeGroups[i]];
        for j := 0 to |wakeGroups[i]|
          invariant wakeGroups == old(wakeGroups) && waitQueue == old(waitQueue)
          invariant broadcastEligible == old(broadcastEligible) + Members(wakeGroups[..i]) + set t | t in wakeGroups[i][..j]
        {
          broadcastEligible := broadcastEligible + {wakeGroups[i][j]};
        }
        assert wakeGroups[i][..|wakeGroups[i]|] == wakeGroups[i];
      }
      assert wakeGroups[..|wakeGroups|] == wakeGroups;
      wakeGroups := [];
      for j := 0 to |waitQueue|
        invariant wakeGroups == [] && waitQueue == old(waitQueue)
        invariant broadcastEligible == old(broadcastEligible) + Members(old(wakeGroups)) + set t | t in waitQueue[..j]
      {
        broadcastEligible := broadcastEligible + {waitQueue[j]};
      }
      assert waitQueue[..|waitQueue|] == waitQueue;
      waitQueue := [];
    }

    /** `wake_thread`. The original asserts that the thread may exit. */
    method WakeThread(tid: RunnerId)
      requires CanExit(Value(), tid)
      modifies this`waitQueue, this`wakeGroups, this`broadcastEligible
      ensures Value() == Wake(old(Value()), tid)
    {
      ghost var before := Value();
      if tid in broadcastEligible {
        broadcastEligible := broadcastEligible - {tid};
      } else {
        var signalToConsume := FirstGroupWith(tid);
        assert signalToConsume < |wakeGroups|;
        wakeGroups := DropAt(wakeGroups, signalToConsume);
      }
      RemoveFromGroups(tid);
      var i := 0;
      while i < |waitQueue| && waitQueue[i] != tid
        invariant i <= |waitQueue| && forall k :: 0 <= k < i ==> waitQueue[k] != tid
      {
        i := i + 1;
      }
      IndexOfUnique(waitQueue, tid, i);
      if i < |waitQueue| {
        waitQueue := DropAt(waitQueue, i);
      }
      assert before.eligible - {tid} == broadcastEligible;
    }

    /** `remove_candidate_thread` for every group. */
    method RemoveFromGroups(tid: RunnerId)
      modifies this`wakeGroups
      ensures wakeGroups == WithoutAll(old(wakeGroups), tid)
    {
      for i := 0 to |wakeGroups|
        invariant |wakeGroups| == |old(wakeGroups)|
        invariant forall k :: 0 <= k < i ==> wakeGroups[k] == Without(old(wakeGroups)[k], tid)
        invariant forall k :: i <= k < |wakeGroups| ==> wakeGroups[k] == old(wakeGroups)[k]
      {
        var kept := RemoveCandidateThread(wakeGroups[i], tid);
        wakeGroups := wakeGroups[i := kept];
      }
    }

    /** `add_waiter`. */
    method AddWaiter(tid: RunnerId)
      modifies this`waitQueue
      ensures Value() == old(Value()).(queue := old(waitQueue) + [tid])
    {
      waitQueue := waitQueue + [tid];
    }

    /** `add_waiter_with_state`. */
    method AddWaiterWithState(tid: RunnerId, state: CvStatus)
      modifies this`waitQueue, this`threadsWithStates
      ensures Value() == CvPolicy.AddWaiter(old(Value()), tid, state)
    {
      AddWaiter(tid);
      threadsWithStates := threadsWithStates[tid := state];
    }

    /** `add_to_wake_groups`. */
    method AddToWakeGroups(threads: seq<RunnerId>)
      modifies this`wakeGroups
      ensures Value() == CvPolicy.AddToWakeGroups(old(Value()), threads)
    {
      if threads != [] {
        wakeGroups := wakeGroups + [threads];
      }
    }

    /** `get_thread_cv_state`. */
    method GetThreadCvState(tid: RunnerId) returns (state: CvStatus)
      ensures state == StatusOf(Value(), tid)
    {
      state := if tid in threadsWithStates then threadsWithStates[tid] else CvUninitialized;
    }

    /** `update_thread_cv_state`. */
    method UpdateThreadCvState(tid: RunnerId, state: CvStatus)
      modifies this`threadsWithStates
      ensures Value() == old(Value()).(states := old(threadsWithStates)[tid := state])
    {
      threadsWithStates := threadsWithStates[tid := state];
    }

    /** The loop of the signal and broadcast transitions over the wait queue. */
    method WaitingThreads() returns (threads: seq<RunnerId>)
      ensures threads == WaitingIn(Value(), waitQueue)
    {
      threads := [];
      for i := 0 to |waitQueue|
        invariant threads == WaitingIn(Value(), waitQueue[..i])
      {
        assert waitQueue[..i + 1][..i] == waitQueue[..i];
        var state := GetThreadCvState(waitQueue[i]);
        if state == CvWaiting {
          threads := threads + [waitQueue[i]];
        }
      }
      assert waitQueue[..|waitQueue|] == waitQueue;
    }
  }

  /** `remove_candidate_thread` of one group: `std::remove` and `erase`. */
  method RemoveCandidateThread(g: WakeGroup, tid: RunnerId) returns (r: WakeGroup)
    ensures r == Without(g, tid)
  {
    r := [];
    for j := 0 to |g|
      invariant r == Without(g[..j], tid)
    {
      assert g[..j + 1][..j] == g[..j];
      if g[j] != tid {
        r := r + [g[j]];
      }
    }
    assert g[..|g|] == g;
  }

  lemma {:induction false} FirstGroupUnique(groups: seq<WakeGroup>, t: RunnerId, i: nat)
    requires i <= |groups| && (forall k :: 0 <= k < i ==> t !in groups[k])
    requires i < |groups| ==> t in groups[i]
    ensures FirstGroup(groups, t) == i
    ensures i < |groups| <==> exists g :: g in groups && t in g
  {
    if i < |groups| {
      assert groups[i] in groups;
    }
  }

  lemma {:induction false} IndexOfUnique(q: seq<RunnerId>, t: RunnerId, i: nat)
    requires i <= |q| && (forall k :: 0 <= k < i ==> q[k] != t) && (i < |q| ==> q[i] == t)
    ensures IndexOf(q, t) == i
  {
  }
}
