/**
 * Clock vectors: for each runner a point in the trace, where an absent entry reads as zero.
 * A runner's clock holds, for each runner, the depth after its latest step known to it.
 */
module ClockVectors {
  import opened Basics

  type ClockVector = map<RunnerId, nat>

  function ValueFor(cv: ClockVector, r: RunnerId): nat {
    if r in cv then cv[r] else 0
  }

  /** The pointwise maximum, with an entry for whoever has one in either. */
  function Max(a: ClockVector, b: ClockVector): ClockVector {
    map r | r in a.Keys + b.Keys :: if ValueFor(a, r) < ValueFor(b, r) then ValueFor(b, r) else ValueFor(a, r)
  }

  ghost predicate Below(a: ClockVector, b: ClockVector) {
    forall r :: ValueFor(a, r) <= ValueFor(b, r)
  }

  /** The maximum is the least upper bound. */
  lemma MaxIsLeast(a: ClockVector, b: ClockVector, c: ClockVector)
    ensures Below(Max(a, b), c) <==> Below(a, c) && Below(b, c)
  {
    if Below(Max(a, b), c) {
      forall r ensures ValueFor(a, r) <= ValueFor(c, r) && ValueFor(b, r) <= ValueFor(c, r) {
        assert ValueFor(Max(a, b), r) <= ValueFor(c, r);
      }
    }
  }

  /** `clock_vector::max`: the entries of the second, then those of the first. */
  method MaxOf(a: ClockVector, b: ClockVector) returns (m: ClockVector)
    ensures m == Max(a, b)
  {
    m := map[];
    var todo := b.Keys;
    while todo != {}
      invariant todo <= b.Keys && m.Keys == b.Keys - todo
      invariant forall r :: r in m ==> m[r] == Max(a, b)[r]
    {
      var r :| r in todo;
      m := m[r := if ValueFor(a, r) < b[r] then b[r] else ValueFor(a, r)];
      todo := todo - {r};
    }
    todo := a.Keys;
    while todo != {}
      invariant todo <= a.Keys && m.Keys == b.Keys + (a.Keys - todo)
      invariant forall r :: r in m ==> m[r] == Max(a, b)[r]
    {
      var r :| r in todo;
      m := m[r := if ValueFor(b, r) < a[r] then a[r] else ValueFor(b, r)];
      todo := todo - {r};
    }
  }

  /** One clock vector for each runner, empty unless it was set. */
  type Clocks = map<RunnerId, ClockVector>

  function ClockOf(clocks: Clocks, p: RunnerId): ClockVector {
    if p in clocks then clocks[p] else map[]
  }

  /** `happens_before_thread`: step `i`, taken by `r`, comes before what `p` does next. */
  predicate HappensBeforeThread(clocks: Clocks, i: nat, r: RunnerId, p: RunnerId) {
    i <= ValueFor(ClockOf(clocks, p), r)
  }
}
