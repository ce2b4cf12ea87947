/** The mutable state sequence, proved against its description by values. */
module SequenceObject {
  import opened Basics
  import opened Transitions
  import opened StateSequence

  class StateSeq {
    var histories: seq<seq<Obj>>
    var runners: seq<ObjId>
    var elements: seq<Element>

    ghost function Value(): Contents
      reads this
    {
      Contents(histories, runners, elements)
    }

    ghost predicate Valid()
      reads this
    {
      Inv(Value())
    }

    /** `state_sequence(const state &)`: one element that knows all given objects. */
    constructor (objs: seq<Obj>, runnerObjs: seq<ObjId>)
      ensures Valid() && |elements| == 1 && runners == runnerObjs && Knows(objs)
      ensures Complete(Value(), elements[0]) && elements[0].maxRunner == |runners|
    {
      histories, runners, elements := [], [], [Element(map[], 0)];
      new;
      TrackObjects(objs);
      TrackRunners(runnerObjs);
    }

    method TrackObjects(objs: seq<Obj>)
      requires Valid() && |elements| == 1 && Knows([]) && Complete(Value(), elements[0])
      modifies this`histories, this`elements
      ensures Valid() && |elements| == 1 && Knows(objs) && Complete(Value(), elements[0])
      ensures elements[0].maxRunner == old(elements[0].maxRunner)
    {
      for i := 0 to |objs|
        invariant Valid() && |elements| == 1 && Knows(objs[..i]) && Complete(Value(), elements[0])
        invariant elements[0].maxRunner == old(elements[0].maxRunner)
      {
        var id := AddObject(objs[i]);
      }
    }

    method TrackRunners(runnerObjs: seq<ObjId>)
      requires Valid() && |elements| == 1 && runners == [] && elements[0].maxRunner == 0 && Complete(Value(), elements[0])
      modifies this`runners, this`elements
      ensures Valid() && |elements| == 1 && runners == runnerObjs && elements[0].maxRunner == |runners|
      ensures Complete(Value(), elements[0])
    {
      for p := 0 to |runnerObjs|
        invariant Valid() && |elements| == 1 && runners == runnerObjs[..p] && elements[0].maxRunner == p
        invariant Complete(Value(), elements[0])
      {
        RecordRunnerKeepsInv(Value(), runnerObjs[p]);
        RecordNewRunner(runnerObjs[p]);
      }
    }

    /** The objects are known in these states and have no other history. */
    ghost predicate Knows(objs: seq<Obj>)
      reads this
    {
      |histories| == |objs| && forall i :: 0 <= i < |objs| ==> histories[i] == [objs[i]]
    }

    method RecordNewRunner(id: ObjId)
      requires elements != []
      modifies this`runners, this`elements
      ensures Value() == RecordRunner(old(Value()), id)
    {
      var e := elements[|elements| - 1];
      elements := elements[|elements| - 1 := e.(maxRunner := e.maxRunner + 1)];
      runners := runners + [id];
    }

    method PushStateSnapshot()
      requires forall i :: 0 <= i < |histories| ==> histories[i] != []
      modifies this`elements
      ensures elements == old(elements) + [Snapshot(Value())]
    {
      var indices: map<ObjId, nat> := map[];
      for i := 0 to |histories|
        invariant indices == map k: ObjId | 0 <= k < i :: |histories[k]| - 1
      {
        indices := indices[i := |histories[i]| - 1];
      }
      elements := elements + [Element(indices, |runners|)];
    }

    /** The committing half of `follow`. */
    method Commit(diff: Diff)
      requires Valid() && forall i :: i in diff ==> i < |histories|
      modifies this
      ensures Valid() && Value() == Follow(old(Value()), diff)
    {
      hide Inv;
      NonEmptyHistories(Value());
      FollowKeepsInv(Value(), diff);
      PushStates(diff);
      PushStateSnapshot();
    }

    /** `push_state` for every object in the diff. */
    method PushStates(diff: Diff)
      requires forall i :: i in diff ==> i < |histories|
      modifies this`histories
      ensures histories == Pushed(old(histories), diff)
    {
      var todo := diff.Keys;
      while todo != {}
        invariant todo <= diff.Keys && |histories| == |old(histories)|
        invariant forall i :: 0 <= i < |histories| ==>
                                histories[i] == if i in diff && i !in todo then old(histories)[i] + [diff[i]] else old(histories)[i]
      {
        var i :| i in todo;
        histories := histories[i := histories[i] + [diff[i]]];
        todo := todo - {i};
      }
    }

    method AddObject(o: Obj) returns (id: ObjId)
      requires Valid()
      modifies this`histories, this`elements
      ensures id == |old(histories)| && Value() == StateSequence.AddObject(old(Value()), o)
      ensures Valid()
      ensures Complete(old(Value()), Last(old(Value()))) <==> Dense(Last(Value()))
      ensures Complete(old(Value()), Last(old(Value()))) ==> Complete(Value(), Last(Value()))
    {
      AddObjectViews(Value(), o, 0);
      AddObjectDense(Value(), o);
      id := |histories|;
      elements := elements[|elements| - 1 := PointToNext(elements[|elements| - 1], id)];
      histories := histories + [[o]];
    }

    method AddRunner(o: Obj) returns (r: nat)
      requires Valid()
      modifies this`histories, this`elements, this`runners
      ensures r == |old(runners)| && Valid() && Value() == StateSequence.AddRunner(old(Value()), o)
      // The latest state knows the new runner in state `o`, if it knew all others.
      ensures old(Last(Value()).maxRunner) == |old(runners)| < 0x1_0000 ==>
                ViewOf(Value(), Last(Value())) == WithRunner(old(ViewOf(Value(), Last(Value()))), r, |old(histories)|, o)
    {
      ghost var before := Value();
      if |runners| < 0x1_0000 {
        AddRunnerLatest(before, o);
      }
      hide ViewOf, Inv;
      r := |runners|;
      var id := AddObject(o);
      RecordRunnerKeepsInv(Value(), id);
      RecordNewRunner(id);
    }

    /** Cuts the sequence back to `m` states; fails where the original throws. */
    method ConsumeIntoSubsequence(m: nat) returns (ok: bool)
      requires Valid() && 0 < m
      modifies this
      ensures m >= |old(elements)| ==> ok && Value() == old(Value())
      ensures m < |old(elements)| ==> ok == !RewindThrows(old(Value()), m)
      ensures m < |old(elements)| && ok ==> Valid() && Value() == Truncate(old(Value()), m)
    {
      if m >= |elements| {
        return true;
      }
      ghost var before := Value();
      RewindThrowsOnGap(before, m);
      TruncateKeepsInv(before, m);
      assert InRange(before, elements[m - 1]);
      elements := elements[..m];
      ok := SliceAll(elements[m - 1]);
      assert ok ==> histories == Truncate(before, m).histories;
    }

    /** Cuts every history back to the state that `e` points at. */
    method SliceAll(e: Element) returns (ok: bool)
      requires forall i :: i in e.indices ==> Holds(Value(), e, i)
      requires forall i :: 0 <= i < |histories| ==> histories[i] != []
      modifies this`histories
      ensures ok == forall i: ObjId :: i < |old(histories)| && i < |e.indices| ==> i in e.indices
      ensures ok && Dense(e) ==> histories == SlicedUpTo(old(histories), e, |old(histories)|)
    {
      for i := 0 to |histories|
        invariant |histories| == |old(histories)|
        invariant forall k: ObjId :: k < i && k < |e.indices| ==> k in e.indices
        invariant forall k :: i <= k < |histories| ==> histories[k] == old(histories)[k]
        invariant Dense(e) ==> histories == SlicedUpTo(old(histories), e, i)
      {
        if i < |e.indices| {
          if i !in e.indices {
            return false;
          }
          assert Holds(old(Value()), e, i);
          histories := histories[i := histories[i][..e.indices[i] + 1]];
        } else {
          histories := histories[i := histories[i][..1]];
        }
      }
      ok := true;
    }
  }

  ghost function SlicedUpTo(histories: seq<seq<Obj>>, e: Element, n: nat): (r: seq<seq<Obj>>)
    ensures |r| == |histories|
    ensures forall k :: 0 <= k < |r| ==> r[k] == if k < n then Sliced(histories[k], e, k) else histories[k]
  {
    seq(|histories|, k requires 0 <= k < |histories| => if k < n then Sliced(histories[k], e, k) else histories[k])
  }
}
