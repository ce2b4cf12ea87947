/**
 * The state sequence: every object keeps the history of its states, and every
 * element of the sequence is a table of positions in those histories.
 */
module StateSequence {
  import opened Basics
  import opened Transitions

  datatype Element = Element(indices: map<ObjId, nat>, maxRunner: nat)

  /** The contents of a `state_sequence`. */
  datatype Contents = Contents(histories: seq<seq<Obj>>, runners: seq<ObjId>, elements: seq<Element>)

  predicate Holds(c: Contents, e: Element, i: ObjId) {
    i in e.indices && i < |c.histories| && e.indices[i] < |c.histories[i]|
  }

  /** The state that an element stands for. */
  function ViewOf(c: Contents, e: Element): State {
    State(map i | i in e.indices.Keys && Holds(c, e, i) :: c.histories[i][e.indices[i]],
          map r: RunnerId | 0 <= r < 0x1_0000 && r < e.maxRunner && r < |c.runners| :: c.runners[r])
  }

  function View(c: Contents, k: nat): State
    requires k < |c.elements|
  {
    ViewOf(c, c.elements[k])
  }

  function Last(c: Contents): Element
    requires c.elements != []
  {
    c.elements[|c.elements| - 1]
  }

  /** Containment is `id < size`, so the table must have an entry for each such id. */
  ghost predicate Dense(e: Element) {
    forall i: ObjId :: i in e.indices <==> i < |e.indices|
  }

  /** The element knows every object discovered so far. */
  ghost predicate Complete(c: Contents, e: Element) {
    forall i: ObjId :: i in e.indices <==> i < |c.histories|
  }

  ghost predicate InRange(c: Contents, e: Element) {
    && (forall i :: i in e.indices ==> Holds(c, e, i))
    && e.maxRunner <= |c.runners|
  }

  /** A later element knows at least as much, in no older state. */
  ghost predicate Extends(e: Element, f: Element) {
    && (forall i :: i in e.indices ==> i in f.indices && e.indices[i] <= f.indices[i])
    && e.maxRunner <= f.maxRunner
  }

  ghost predicate Inv(c: Contents) {
    && c.elements != []
    && (forall k :: 0 <= k < |c.elements| ==> InRange(c, c.elements[k]))
    && (forall j, k :: 0 <= j <= k < |c.elements| ==> Extends(c.elements[j], c.elements[k]))
    // Only the latest state of an object is ever followed by a new one.
    && (forall i :: 0 <= i < |c.histories| ==>
          |c.histories[i]| == if i in Last(c).indices then Last(c).indices[i] + 1 else 1)
  }

  // --- The operations, as values ---

  /** `push_state_snapshot`: every object in its latest state. */
  function Snapshot(c: Contents): Element
    requires forall i :: 0 <= i < |c.histories| ==> c.histories[i] != []
  {
    Element(map i: ObjId | 0 <= i < |c.histories| :: |c.histories[i]| - 1, |c.runners|)
  }

  function Pushed(histories: seq<seq<Obj>>, diff: Diff): (r: seq<seq<Obj>>)
    ensures |r| == |histories|
    ensures forall i :: 0 <= i < |r| ==> r[i] == if i in diff then histories[i] + [diff[i]] else histories[i]
  {
    seq(|histories|, i requires 0 <= i < |histories| => if i in diff then histories[i] + [diff[i]] else histories[i])
  }

  function Follow(c: Contents, diff: Diff): Contents
    requires forall i :: 0 <= i < |c.histories| ==> c.histories[i] != []
  {
    var c' := c.(histories := Pushed(c.histories, diff));
    c'.(elements := c.elements + [Snapshot(c')])
  }

  /** `point_to_next_state_for`. */
  function PointToNext(e: Element, id: ObjId): Element {
    e.(indices := e.indices[id := if id in e.indices then e.indices[id] + 1 else 0])
  }

  /** `add_object`: the last element starts to index the new object. */
  function AddObject(c: Contents, o: Obj): Contents
    requires c.elements != []
  {
    c.(histories := c.histories + [[o]],
       elements := c.elements[|c.elements| - 1 := PointToNext(Last(c), |c.histories|)])
  }

  /** The next runner id is given to the object, which the last element then counts. */
  function RecordRunner(c: Contents, id: ObjId): Contents
    requires c.elements != []
  {
    c.(runners := c.runners + [id],
       elements := c.elements[|c.elements| - 1 := Last(c).(maxRunner := Last(c).maxRunner + 1)])
  }

  function AddRunner(c: Contents, o: Obj): Contents
    requires c.elements != []
  {
    RecordRunner(AddObject(c, o), |c.histories|)
  }

  /** The history that survives when `e` becomes the last element. */
  function Sliced(h: seq<Obj>, e: Element, i: ObjId): seq<Obj> {
    var keep := if i in e.indices then e.indices[i] + 1 else 1;
    if keep <= |h| then h[..keep] else h
  }

  function Truncate(c: Contents, m: nat): Contents
    requires 0 < m < |c.elements|
  {
    var e := c.elements[m - 1];
    Contents(seq(|c.histories|, i requires 0 <= i < |c.histories| => Sliced(c.histories[i], e, i)), c.runners, c.elements[..m])
  }

  // --- Refinement of a plain list of states ---

  lemma NonEmptyHistories(c: Contents)
    requires Inv(c)
    ensures forall i :: 0 <= i < |c.histories| ==> c.histories[i] != []
  {
  }

  lemma LastViewIsLatest(c: Contents, i: ObjId)
    requires Inv(c) && i in Last(c).indices
    ensures i < |c.histories| && ViewOf(c, Last(c)).objs[i] == c.histories[i][|c.histories[i]| - 1]
  {
  }

  /** Histories that only grow leave a view as it is. */
  lemma GrownHistoriesKeepView(c: Contents, c': Contents, e: Element)
    requires InRange(c, e) && c'.runners == c.runners && |c'.histories| == |c.histories|
    requires forall i :: 0 <= i < |c.histories| ==> c.histories[i] <= c'.histories[i]
    ensures ViewOf(c', e) == ViewOf(c, e)
  {
    assert forall i :: i in e.indices ==> Holds(c', e, i) && c'.histories[i][e.indices[i]] == c.histories[i][e.indices[i]];
  }

  /** Following a diff keeps every earlier view ... */
  lemma FollowKeepsViews(c: Contents, diff: Diff, k: nat)
    requires Inv(c) && k < |c.elements|
    ensures View(Follow(c, diff), k) == View(c, k)
  {
    hide ViewOf;
    assert InRange(c, c.elements[k]);
    assert Follow(c, diff).elements[k] == c.elements[k];
    GrownHistoriesKeepView(c, Follow(c, diff), c.elements[k]);
  }

  lemma FollowKeepsInv(c: Contents, diff: Diff)
    requires Inv(c)
    ensures Inv(Follow(c, diff)) && Complete(Follow(c, diff), Last(Follow(c, diff)))
  {
    var c' := Follow(c, diff);
    var n := |c.elements|;
    assert c'.elements[..n] == c.elements && c'.elements[n] == Last(c');
    forall k | 0 <= k <= n
      ensures InRange(c', c'.elements[k]) && Extends(c'.elements[k], Last(c'))
    {
      if k < n {
        assert InRange(c, c.elements[k]) && Extends(c.elements[k], Last(c));
      }
    }
    forall j, k | 0 <= j <= k <= n ensures Extends(c'.elements[j], c'.elements[k]) {
      if k < n {
        assert Extends(c.elements[j], c.elements[k]);
      }
    }
  }

  /** ... and appends a view that knows every object: in the state the diff gives it,
      else in the state it had, else (a rewind hid it) in its first state. */
  lemma FollowAppends(c: Contents, diff: Diff, i: ObjId)
    requires Inv(c) && forall i :: i in diff ==> i < |c.histories|
    ensures i in View(Follow(c, diff), |c.elements|).objs <==> i < |c.histories|
    ensures i < |c.histories| ==> View(Follow(c, diff), |c.elements|).objs[i] ==
                                  (if i in diff then diff[i]
                                   else if i in Last(c).indices then ViewOf(c, Last(c)).objs[i]
                                   else c.histories[i][0])
  {
    var c' := Follow(c, diff);
    assert c'.elements[|c.elements|] == Snapshot(c.(histories := Pushed(c.histories, diff)));
    if i < |c.histories| {
      assert c'.histories[i] == if i in diff then c.histories[i] + [diff[i]] else c.histories[i];
      if i in Last(c).indices {
        LastViewIsLatest(c, i);
      }
    }
  }

  /** As long as no rewind hid anything, the new view is the old one under the diff. */
  lemma FollowRefines(c: Contents, diff: Diff)
    requires Inv(c) && forall i :: i in diff ==> i < |c.histories|
    requires Complete(c, Last(c)) && Last(c).maxRunner == |c.runners|
    ensures View(Follow(c, diff), |c.elements|) == State(ViewOf(c, Last(c)).objs + diff, ViewOf(c, Last(c)).runners)
  {
    var next, last := View(Follow(c, diff), |c.elements|).objs, ViewOf(c, Last(c)).objs;
    assert InRange(c, Last(c));
    forall i: ObjId
      ensures i in next <==> i in last + diff
      ensures i in next ==> next[i] == (last + diff)[i]
    {
      FollowAppends(c, diff, i);
    }
    assert next == last + diff;
  }

  /** The views are this plain list of states. */
  ghost predicate Shows(c: Contents, states: seq<State>) {
    |c.elements| == |states| && forall k :: 0 <= k < |states| ==> View(c, k) == states[k]
  }

  /** Every element knows every object and every runner. */
  ghost predicate Whole(c: Contents) {
    forall k :: 0 <= k < |c.elements| ==> Complete(c, c.elements[k]) && c.elements[k].maxRunner == |c.runners|
  }

  /** `follow` appends to the plain list. */
  lemma FollowShows(c: Contents, diff: Diff, states: seq<State>)
    requires Inv(c) && Shows(c, states)
    ensures Shows(Follow(c, diff), states + [ViewOf(Follow(c, diff), Last(Follow(c, diff)))])
    ensures Whole(c) ==> Whole(Follow(c, diff))
  {
    forall k | 0 <= k < |c.elements| ensures View(Follow(c, diff), k) == View(c, k) {
      FollowKeepsViews(c, diff, k);
    }
    FollowKeepsInv(c, diff);
  }

  // --- Discovery ---

  function Below(n: nat): (r: set<nat>)
    ensures |r| == n
    ensures forall i: nat :: i in r <==> i < n
  {
    if n == 0 then {} else Below(n - 1) + {n - 1}
  }

  lemma CompleteIsDense(c: Contents, e: Element)
    requires Complete(c, e)
    ensures Dense(e) && |e.indices| == |c.histories|
  {
    assert e.indices.Keys == Below(|c.histories|);
    assert |e.indices| == |e.indices.Keys|;
  }

  /** Adding an object keeps the tables gap-free exactly when the last element knew
      every object before. */
  lemma AddObjectDense(c: Contents, o: Obj)
    requires Inv(c)
    ensures Dense(Last(AddObject(c, o))) <==> Complete(c, Last(c))
    ensures Complete(c, Last(c)) ==> Complete(AddObject(c, o), Last(AddObject(c, o)))
  {
    var e, c' := Last(c), AddObject(c, o);
    var e' := Last(c');
    assert InRange(c, e);
    assert e'.indices.Keys == e.indices.Keys + {|c.histories|};
    if Complete(c, e) {
      CompleteIsDense(c', e');
    }
  }

  lemma AddObjectKeepsInv(c: Contents, o: Obj)
    requires Inv(c)
    ensures Inv(AddObject(c, o))
  {
    var c' := AddObject(c, o);
    forall j, k | 0 <= j <= k < |c.elements|
      ensures InRange(c', c'.elements[k]) && Extends(c'.elements[j], c'.elements[k])
    {
      assert InRange(c, c.elements[k]) && InRange(c, c.elements[j]) && Extends(c.elements[j], c.elements[k]);
    }
  }

  /** A new object changes no earlier view, and the last view only by the object itself. */
  lemma AddObjectViews(c: Contents, o: Obj, k: nat)
    requires Inv(c) && k < |c.elements|
    ensures Inv(AddObject(c, o))
    ensures k < |c.elements| - 1 ==> View(AddObject(c, o), k) == View(c, k)
    ensures k == |c.elements| - 1 ==> View(AddObject(c, o), k).objs == View(c, k).objs[|c.histories| := o]
    ensures k == |c.elements| - 1 ==> View(AddObject(c, o), k).runners == View(c, k).runners
  {
    hide ViewOf;
    AddObjectKeepsInv(c, o);
    var e := c.elements[k];
    assert InRange(c, e);
    if k < |c.elements| - 1 {
      EarlierViewStays(c, AddObject(c, o), e);
    } else {
      NewObjectIsSeen(c, o);
    }
  }

  /** A view refers to nothing that was not there. */
  lemma EarlierViewStays(c: Contents, c': Contents, e: Element)
    requires InRange(c, e) && c.histories <= c'.histories && c.runners <= c'.runners
    ensures ViewOf(c', e) == ViewOf(c, e)
  {
    assert forall i :: i in e.indices ==> Holds(c', e, i) && c'.histories[i] == c.histories[i];
  }

  lemma NewObjectIsSeen(c: Contents, o: Obj)
    requires c.elements != [] && InRange(c, Last(c))
    ensures var c' := AddObject(c, o);
      && ViewOf(c', Last(c')).objs == ViewOf(c, Last(c)).objs[|c.histories| := o]
      && ViewOf(c', Last(c')).runners == ViewOf(c, Last(c)).runners
  {
  }

  lemma RecordRunnerKeepsInv(c: Contents, id: ObjId)
    requires Inv(c)
    ensures Inv(RecordRunner(c, id))
    ensures Complete(c, Last(c)) ==> Complete(RecordRunner(c, id), Last(RecordRunner(c, id)))
  {
    var c' := RecordRunner(c, id);
    forall j, k | 0 <= j <= k < |c.elements|
      ensures InRange(c', c'.elements[k]) && Extends(c'.elements[j], c'.elements[k])
    {
      assert InRange(c, c.elements[k]) && InRange(c, c.elements[j]) && Extends(c.elements[j], c.elements[k]);
    }
  }

  /** A new runner changes no earlier view, and no object. */
  lemma RecordRunnerViews(c: Contents, id: ObjId, k: nat)
    requires Inv(c) && k < |c.elements|
    ensures k < |c.elements| - 1 ==> View(RecordRunner(c, id), k) == View(c, k)
    ensures k == |c.elements| - 1 ==> View(RecordRunner(c, id), k).objs == View(c, k).objs
  {
    assert InRange(c, c.elements[k]);
  }

  /** Discovering a runner changes no earlier view. */
  lemma AddRunnerViews(c: Contents, o: Obj, k: nat)
    requires Inv(c) && k < |c.elements| - 1
    ensures Inv(AddRunner(c, o)) && View(AddRunner(c, o), k) == View(c, k)
  {
    AddObjectViews(c, o, k);
    RecordRunnerKeepsInv(AddObject(c, o), |c.histories|);
    RecordRunnerViews(AddObject(c, o), |c.histories|, k);
  }

  lemma RecordRunnerLatest(c: Contents, id: ObjId)
    requires c.elements != [] && Last(c).maxRunner <= |c.runners| < 0x1_0000
    ensures var c', n := RecordRunner(c, id), Last(c).maxRunner;
      ViewOf(c', Last(c')).runners == ViewOf(c, Last(c)).runners[n := if n < |c.runners| then c.runners[n] else id]
  {
  }

  /** The latest view gains the object of the new runner, and of the runners the first one
      that it did not know. That is the new runner if and only if it knew all others. */
  lemma AddRunnerLatest(c: Contents, o: Obj)
    requires Inv(c) && |c.runners| < 0x1_0000
    ensures var c', now := AddRunner(c, o), ViewOf(c, Last(c)); var now', n := ViewOf(c', Last(c')), Last(c).maxRunner;
      && now'.objs == now.objs[|c.histories| := o]
      && (|c.runners| in now'.runners <==> n == |c.runners|)
      && (n == |c.runners| ==> now'.runners == now.runners[|c.runners| := |c.histories|])
      && (n < |c.runners| ==> now'.runners == now.runners[n := c.runners[n]])
  {
    hide ViewOf;
    var c0, n := AddObject(c, o), |c.elements| - 1;
    assert InRange(c, Last(c));
    AddObjectViews(c, o, n);
    RecordRunnerViews(c0, |c.histories|, n);
    RecordRunnerLatest(c0, |c.histories|);
    RunnersKnown(c);
    RunnersKnown(AddRunner(c, o));
  }

  lemma RunnersKnown(c: Contents)
    requires c.elements != []
    ensures forall r: RunnerId :: r in ViewOf(c, Last(c)).runners <==> r < Last(c).maxRunner && r < |c.runners|
  {
  }

  /** The state with one runner more, whose object has the next id. */
  function WithRunner(s: State, r: nat, id: ObjId, o: Obj): State
    requires r < 0x1_0000
  {
    State(s.objs[id := o], s.runners[r := id])
  }

  /** A new runner keeps objects apart that were. */
  lemma AddRunnerKeepsApart(c: Contents, o: Obj)
    requires Inv(c) && Last(c).maxRunner == |c.runners| < 0x1_0000
    requires RunnersApart(ViewOf(c, Last(c)))
    ensures RunnersApart(ViewOf(AddRunner(c, o), Last(AddRunner(c, o))))
  {
    var now := ViewOf(c, Last(c));
    assert InRange(c, Last(c));
    assert |c.histories| !in now.objs;
    hide ViewOf;
    AddRunnerLatest(c, o);
  }

  lemma NewRunnerIsKnown(c: Contents, o: Obj)
    requires Inv(c) && Last(c).maxRunner == |c.runners| < 0x1_0000
    ensures var c' := AddRunner(c, o);
      && ViewOf(c', Last(c')) == WithRunner(ViewOf(c, Last(c)), |c.runners|, |c.histories|, o)
      && (RunnersApart(ViewOf(c, Last(c))) ==> RunnersApart(ViewOf(c', Last(c'))))
  {
    hide ViewOf, AddRunner, InRange, Extends, RunnersApart;
    AddRunnerLatest(c, o);
    if RunnersApart(ViewOf(c, Last(c))) {
      AddRunnerKeepsApart(c, o);
    }
  }

  /** Every runner has an object of its own. */
  ghost predicate RunnersApart(s: State) {
    && (forall r :: r in s.runners ==> s.runners[r] in s.objs)
    && forall q, r :: q in s.runners && r in s.runners && q != r ==> s.runners[q] != s.runners[r]
  }

  // --- Rewinding ---

  /** Cutting the sequence back leaves the views that stay as they were. */
  lemma TruncateKeepsViews(c: Contents, m: nat, k: nat)
    requires Inv(c) && k < m < |c.elements|
    ensures View(Truncate(c, m), k) == View(c, k)
  {
    var c' := Truncate(c, m);
    var e, last := c.elements[k], c.elements[m - 1];
    assert InRange(c, e) && Extends(e, last) && InRange(c, last);
    assert c'.elements[k] == e;
    forall i | i in e.indices
      ensures Holds(c', e, i) && c'.histories[i][e.indices[i]] == c.histories[i][e.indices[i]]
    {
      assert Holds(c, e, i) && Holds(c, last, i);
    }
  }

  /** `consume_into_subsequence` takes a prefix of the plain list. */
  lemma TruncateShows(c: Contents, m: nat, states: seq<State>)
    requires Inv(c) && 0 < m < |c.elements| && Shows(c, states)
    ensures Shows(Truncate(c, m), states[..m])
    ensures Whole(c) ==> Whole(Truncate(c, m))
  {
    forall k | 0 <= k < m ensures View(Truncate(c, m), k) == states[k] {
      TruncateKeepsViews(c, m, k);
    }
  }

  lemma TruncateKeepsInv(c: Contents, m: nat)
    requires Inv(c) && 0 < m < |c.elements|
    ensures Inv(Truncate(c, m))
  {
    var c' := Truncate(c, m);
    forall k | 0 <= k < m ensures InRange(c', c'.elements[k]) {
      assert InRange(c, c.elements[k]) && Extends(c.elements[k], c.elements[m - 1]) && InRange(c, c.elements[m - 1]);
    }
    forall j, k | 0 <= j <= k < m ensures Extends(c'.elements[j], c'.elements[k]) {
      assert Extends(c.elements[j], c.elements[k]);
    }
    assert InRange(c, c.elements[m - 1]) && Extends(c.elements[m - 1], Last(c));
    forall i | 0 <= i < |c'.histories|
      ensures |c'.histories[i]| == if i in Last(c').indices then Last(c').indices[i] + 1 else 1
    {
      if i in Last(c').indices {
        assert Holds(c, Last(c'), i);
      }
    }
  }

  /** The rewind reads the kept element's table at every id below its size, which
      throws on the first missing id. */
  ghost predicate RewindThrows(c: Contents, m: nat)
    requires 0 < m < |c.elements|
  {
    exists i :: i in Below(|c.histories|) && i < |c.elements[m - 1].indices| && i !in c.elements[m - 1].indices
  }

  lemma RewindThrowsOnGap(c: Contents, m: nat)
    requires Inv(c) && 0 < m < |c.elements|
    ensures RewindThrows(c, m) <==> !Dense(c.elements[m - 1])
  {
    var e := c.elements[m - 1];
    assert InRange(c, e);
    SubsetSize(e.indices.Keys, Below(|c.histories|));
    if !RewindThrows(c, m) {
      assert Below(|e.indices|) <= e.indices.Keys;
      SubsetSize(Below(|e.indices|), e.indices.Keys);
    }
  }

  lemma RewindHidesObject(c: Contents, found: Obj)
    requires Inv(c) && Complete(c, Last(c))
    ensures var hidden := Truncate(AddObject(Follow(c, map[]), found), |c.elements|);
      Inv(hidden) && |hidden.elements| == |c.elements| && !Complete(hidden, Last(hidden))
  {
    hide ViewOf, Extends, Pushed;
    var found' := AddObject(Follow(c, map[]), found);
    FollowKeepsInv(c, map[]);
    AddObjectKeepsInv(Follow(c, map[]), found);
    TruncateKeepsInv(found', |c.elements|);
    var hidden := Truncate(found', |c.elements|);
    assert Last(hidden) == Last(c) && |hidden.histories| == |c.histories| + 1;
    assert |c.histories| !in Last(c).indices;
  }

  lemma DiscoveryOverHiddenLeavesGap(c: Contents, other: Obj)
    requires Inv(c) && !Complete(c, Last(c))
    ensures var c' := Follow(AddObject(c, other), map[]);
      Inv(c') && RewindThrows(c', |c.elements|)
  {
    AddObjectDense(c, other);
    AddObjectViews(c, other, 0);
    FollowKeepsInv(AddObject(c, other), map[]);
    RewindThrowsOnGap(Follow(AddObject(c, other), map[]), |c.elements|);
  }

  /** A counterexample to unrestricted rewinding: an object is found, the rewind hides
      it, another object is found before the first reappears, and the next rewind to
      that depth throws. */
  lemma RediscoveryBreaksRewinding(c: Contents, found: Obj, other: Obj)
    requires Inv(c) && Complete(c, Last(c))
    ensures var hidden := Truncate(AddObject(Follow(c, map[]), found), |c.elements|);
      RewindThrows(Follow(AddObject(hidden, other), map[]), |c.elements|)
  {
    RewindHidesObject(c, found);
    DiscoveryOverHiddenLeavesGap(Truncate(AddObject(Follow(c, map[]), found), |c.elements|), other);
  }
}
