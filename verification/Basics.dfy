/** Identifiers and small helpers shared by every part of the model. */
module Basics {

  /** A `runner_id_t`, sixteen bits wide. */
  type RunnerId = r: int | 0 <= r < 0x1_0000

  /** A position in the table of visible objects. */
  type ObjId = nat

  const RID_MAIN_THREAD: RunnerId := 0
  const RID_INVALID: RunnerId := 0xFFFF
  const RUNNER_ID_MAX: RunnerId := 0xFFFF

  datatype Option<+T> = None | Some(value: T)

  ghost predicate Distinct<T>(s: seq<T>) {
    forall i, j :: 0 <= i < j < |s| ==> s[i] != s[j]
  }

  /** `s` without position `i`. */
  function DropAt<T>(s: seq<T>, i: nat): (r: seq<T>)
    requires i < |s|
    ensures |r| == |s| - 1
    ensures forall k :: 0 <= k < i ==> r[k] == s[k]
    ensures forall k :: i <= k < |r| ==> r[k] == s[k + 1]
  {
    s[..i] + s[i + 1..]
  }

  lemma SubsetSize<T>(a: set<T>, b: set<T>)
    requires a <= b
    ensures |a| <= |b|
    ensures |a| == |b| ==> a == b
  {
    assert b == a + (b - a);
  }
}
