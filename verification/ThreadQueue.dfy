/** The linked queue of threads and their condition-variable status. */
module ThreadQueue {
  import opened Basics
  import opened CvPolicy

  datatype Entry = Entry(thread: RunnerId, state: CvStatus)

  // --- The queue as a sequence ---

  /** The first entry of the thread, or the length of the queue. */
  function Find(q: seq<Entry>, t: RunnerId): (i: nat)
    ensures i <= |q| && (i < |q| ==> q[i].thread == t)
    ensures forall k :: 0 <= k < i ==> q[k].thread != t
  {
    if q == [] || q[0].thread == t then 0 else 1 + Find(q[1..], t)
  }

  /** The first entry that waits, or the length of the queue. */
  function FindWaiting(q: seq<Entry>): (i: nat)
    ensures i <= |q| && (i < |q| ==> q[i].state == CvWaiting)
    ensures forall k :: 0 <= k < i ==> q[k].state != CvWaiting
  {
    if q == [] || q[0].state == CvWaiting then 0 else 1 + FindWaiting(q[1..])
  }

  lemma FindUnique(q: seq<Entry>, t: RunnerId, i: nat)
    requires i <= |q| && (i < |q| ==> q[i].thread == t) && forall k :: 0 <= k < i ==> q[k].thread != t
    ensures Find(q, t) == i
  {
  }

  lemma FindWaitingUnique(q: seq<Entry>, i: nat)
    requires i <= |q| && (i < |q| ==> q[i].state == CvWaiting) && forall k :: 0 <= k < i ==> q[k].state != CvWaiting
    ensures FindWaiting(q) == i
  {
  }

  /** Removing a thread that was just enqueued for the first time changes nothing. */
  lemma RemoveUndoesEnqueue(q: seq<Entry>, e: Entry)
    requires forall k :: 0 <= k < |q| ==> q[k].thread != e.thread
    ensures Find(q + [e], e.thread) == |q| && DropAt(q + [e], |q|) == q
  {
    FindUnique(q + [e], e.thread, |q|);
  }

  // --- The queue as a linked list ---

  class Node {
    var thread: RunnerId
    var state: CvStatus
    var next: Node?

    constructor (thread: RunnerId, state: CvStatus)
      ensures this.thread == thread && this.state == state && next == null
    {
      this.thread, this.state, next := thread, state, null;
    }
  }

  ghost function NodeAt(nodes: seq<Node>, k: nat): Node? {
    if k < |nodes| then nodes[k] else null
  }

  ghost predicate LinkedAt(nodes: seq<Node>, k: nat)
    requires k < |nodes|
    reads nodes[k]
  {
    nodes[k].next == NodeAt(nodes, k + 1)
  }

  /** The nodes in order, the last one ending the list. */
  ghost predicate Linked(nodes: seq<Node>)
    reads nodes
  {
    && Distinct(nodes)
    && forall k :: 0 <= k < |nodes| ==> LinkedAt(nodes, k)
  }

  ghost function Entries(nodes: seq<Node>): (r: seq<Entry>)
    reads nodes
    ensures |r| == |nodes| && forall k :: 0 <= k < |r| ==> r[k] == Entry(nodes[k].thread, nodes[k].state)
  {
    seq(|nodes|, k requires 0 <= k < |nodes| reads nodes => Entry(nodes[k].thread, nodes[k].state))
  }

  lemma SetState(nodes: seq<Node>, q: seq<Entry>, i: nat, e: Entry)
    requires Distinct(nodes) && i < |nodes| == |q|
    requires forall k :: 0 <= k < |nodes| ==> Entry(nodes[k].thread, nodes[k].state) == if k == i then e else q[k]
    ensures Entries(nodes) == q[i := e]
  {
  }

  class Queue {
    var front: Node?
    var rear: Node?
    var size: int
    ghost var nodes: seq<Node>

    ghost predicate Valid()
      reads this, nodes
    {
      && Linked(nodes)
      && front == (if nodes == [] then null else nodes[0])
      && rear == (if nodes == [] then null else nodes[|nodes| - 1])
    }

    ghost function Contents(): seq<Entry>
      reads this, nodes
    {
      Entries(nodes)
    }

    /** By how much the counter is off. */
    ghost function Skew(): int
      reads this
    {
      size - |nodes|
    }

    /** `create_thread_queue` leaves the counter as it finds it. */
    constructor (leftover: int)
      ensures Valid() && Contents() == [] && Skew() == leftover && nodes == []
    {
      front, rear, size, nodes := null, null, leftover, [];
    }

    /** `enqueue_thread`. */
    method Enqueue(thread: RunnerId, state: CvStatus)
      requires Valid()
      modifies this, nodes
      ensures Valid() && Contents() == old(Contents()) + [Entry(thread, state)] && Skew() == old(Skew())
      ensures |nodes| == |old(nodes)| + 1 && nodes[..|old(nodes)|] == old(nodes) && fresh(nodes[|old(nodes)|])
    {
      var node := new Node(thread, state);
      if rear == null {
        front, rear := node, node;
      } else {
        rear.next := node;
        rear := node;
      }
      size := size + 1;
      nodes := nodes + [node];
      forall k | 0 <= k < |nodes| ensures LinkedAt(nodes, k) {
        assert k < |nodes| - 2 ==> old(LinkedAt(nodes, k));
      }
    }

    /** `is_in_thread_queue`. */
    method Contains(thread: RunnerId) returns (r: bool)
      requires Valid()
      ensures r <==> exists e :: e in Contents() && e.thread == thread
    {
      var i, current := FindNode(thread);
      assert i < |nodes| ==> Contents()[i] in Contents();
      r := current != null;
    }

    /** The walk along the list that the lookups share. */
    method FindNode(thread: RunnerId) returns (ghost i: nat, current: Node?)
      requires Valid()
      ensures i == Find(Contents(), thread)
      ensures current == NodeAt(nodes, i)
    {
      i, current := 0, front;
      while current != null && current.thread != thread
        invariant i <= |nodes| && current == NodeAt(nodes, i)
        invariant forall k :: 0 <= k < i ==> nodes[k].thread != thread
        decreases |nodes| - i
      {
        assert LinkedAt(nodes, i);
        i, current := i + 1, current.next;
      }
      FindUnique(Contents(), thread, i);
    }

    /** `get_thread_cv_state`; none where the original gives up. */
    method GetThreadCvState(thread: RunnerId) returns (state: Option<CvStatus>)
      requires Valid()
      ensures var q, i := Contents(), Find(Contents(), thread);
        state == if i < |q| then Some(q[i].state) else None
    {
      var _, current := FindNode(thread);
      state := if current != null then Some(current.state) else None;
    }

    /** `update_thread_cv_state`. */
    method UpdateThreadCvState(thread: RunnerId, state: CvStatus) returns (found: bool)
      requires Valid()
      modifies nodes
      ensures Valid() && nodes == old(nodes)
      ensures var q, i := old(Contents()), Find(old(Contents()), thread);
        found == (i < |q|) && Contents() == if i < |q| then q[i := Entry(thread, state)] else q
    {
      ghost var q := Contents();
      var i, current := FindNode(thread);
      found := current != null;
      if found {
        current.state := state;
        SetState(nodes, q, i, Entry(thread, state));
        forall k | 0 <= k < |nodes| ensures LinkedAt(nodes, k) {
          assert old(LinkedAt(nodes, k));
        }
      }
    }

    /** `get_waiting_thread_node`. */
    method FirstWaiting() returns (thread: RunnerId)
      requires Valid()
      ensures var q, i := Contents(), FindWaiting(Contents());
        thread == if i < |q| then q[i].thread else RID_INVALID
    {
      ghost var i := 0;
      var current := front;
      while current != null && current.state != CvWaiting
        invariant i <= |nodes| && current == NodeAt(nodes, i)
        invariant forall k :: 0 <= k < i ==> nodes[k].state != CvWaiting
        decreases |nodes| - i
      {
        assert LinkedAt(nodes, i);
        i, current := i + 1, current.next;
      }
      FindWaitingUnique(Contents(), i);
      thread := if current != null then current.thread else RID_INVALID;
    }

    /** `remove_thread_from_queue`: 0 when an entry was removed, -1 otherwise. */
    method Remove(thread: RunnerId) returns (rc: int)
      requires Valid()
      modifies this, nodes
      ensures Valid() && Skew() == old(Skew())
      ensures var q, i := old(Contents()), Find(old(Contents()), thread);
        rc == (if i < |q| then 0 else -1) && Contents() == if i < |q| then DropAt(q, i) else q
    {
      ghost var q := Contents();
      if front == null {
        return -1;
      }
      if front.thread == thread {
        FindUnique(q, thread, 0);
        RemoveFront();
        return 0;
      }
      ghost var i := 0;
      var current := front;
      assert LinkedAt(nodes, 0);
      while current.next != null && current.next.thread != thread
        invariant i < |nodes| && current == nodes[i]
        invariant current.next == NodeAt(nodes, i + 1)
        invariant forall k :: 0 <= k <= i ==> nodes[k].thread != thread
        decreases |nodes| - i
      {
        i, current := i + 1, current.next;
        assert LinkedAt(nodes, i);
      }
      FindUnique(q, thread, i + 1);
      if current.next == null {
        return -1;
      }
      Unlink(current, i);
      rc := 0;
    }

    /** The first node is taken out. */
    method RemoveFront()
      requires Valid() && nodes != []
      modifies this
      ensures Valid() && nodes == DropAt(old(nodes), 0) && size == old(size) - 1
      ensures Contents() == DropAt(old(Contents()), 0)
    {
      assert LinkedAt(nodes, 0);
      front := front.next;
      if front == null {
        rear := null;
      }
      size := size - 1;
      ghost var before := nodes;
      nodes := DropAt(nodes, 0);
      forall k | 0 <= k < |nodes| ensures LinkedAt(nodes, k) {
        assert LinkedAt(before, k + 1);
      }
    }

    /** The node after `current` is taken out. */
    method Unlink(current: Node, ghost i: nat)
      requires Valid() && i + 1 < |nodes| && current == nodes[i]
      modifies this, nodes
      ensures Valid() && nodes == DropAt(old(nodes), i + 1) && size == old(size) - 1
      ensures Contents() == DropAt(old(Contents()), i + 1)
    {
      hide DropAt, Entries;
      assert LinkedAt(nodes, i) && LinkedAt(nodes, i + 1);
      var toRemove := current.next;
      current.next := toRemove.next;
      if toRemove == rear {
        rear := current;
      }
      size := size - 1;
      ghost var before := nodes;
      nodes := DropAt(before, i + 1);
      forall k | 0 <= k < |nodes| ensures LinkedAt(nodes, k) {
        if k < i {
          assert old(LinkedAt(nodes, k)) && before[k] != before[i];
        } else if k > i {
          assert old(LinkedAt(nodes, k + 1)) && before[k + 1] != before[i];
        }
      }
    }
  }
}
