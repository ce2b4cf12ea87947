/**
 * What independence buys: independent transitions neither enable nor disable each
 * other and reach the same state in either order.
 */
module Independence {
  import opened Basics
  import opened CvPolicy
  import opened Transitions
  import opened Dependency

  /** Runner ids name distinct objects, as `injective_function` guarantees. */
  ghost predicate WellFormed(s: State) {
    forall r, q :: r in s.runners && q in s.runners && s.runners[r] == s.runners[q] ==> r == q
  }

  /** A create names a runner that has not started yet. */
  ghost predicate CreatesEmbryo(t: Transition, s: State)
    requires WellTyped(t, s)
  {
    t.ThreadCreate? ==> StatusOfRunner(s, t.target) == Embryo
  }

  ghost predicate Ready(t: Transition, s: State) {
    WellTyped(t, s) && StatusOfRunner(s, t.executor) == Running
  }

  /** `a` would start again an exited runner that `b` joins. */
  ghost predicate Revives(a: Transition, b: Transition, s: State)
    requires WellTyped(a, s) && WellTyped(b, s)
  {
    a.ThreadCreate? && b.ThreadJoin? && a.target == b.target && StatusOfRunner(s, a.target) == Exited
  }

  /** Every object the transition looks at. */
  function Footprint(t: Transition, s: State): set<ObjId>
    requires WellTyped(t, s)
  {
    {s.runners[t.executor]}
    + (if MutexOf(t).Some? then {MutexOf(t).value} else {})
    + (if CvOf(t).Some? then {CvOf(t).value} else {})
    + (if TargetOf(t).Some? then {s.runners[TargetOf(t).value]} else {})
  }

  /** Every object the transition may replace. */
  function Writes(t: Transition, s: State): set<ObjId>
    requires WellTyped(t, s)
  {
    (if MutexOf(t).Some? then {MutexOf(t).value} else {})
    + (if CvOf(t).Some? then {CvOf(t).value} else {})
    + (if t.ThreadCreate? then {s.runners[t.target]} else {})
    + (if t.ThreadExit? then {s.runners[t.executor]} else {})
  }

  ghost predicate AgreeOn(s: State, s': State, ids: set<ObjId>) {
    forall i :: i in ids ==> i in s.objs && i in s'.objs && s.objs[i] == s'.objs[i]
  }

  /** A transition depends on its footprint only. */
  lemma ApplyIsLocal(t: Transition, s: State, s': State)
    requires WellTyped(t, s) && WellTyped(t, s') && s.runners == s'.runners
    requires AgreeOn(s, s', Footprint(t, s))
    ensures Apply(t, s) == Apply(t, s')
  {
  }

  lemma DiffWithinWrites(t: Transition, s: State)
    requires WellTyped(t, s) && Enabled(t, s)
    ensures Apply(t, s).diff.Keys <= Writes(t, s)
  {
  }

  /** Running `a` leaves `b` as enabled, or as disabled, as it was. */
  ghost predicate Undisturbed(a: Transition, b: Transition, s: State)
    requires WellTyped(a, s) && WellTyped(b, s)
  {
    Enabled(a, s) ==> WellTyped(b, Step(a, s)) && (Enabled(b, Step(a, s)) <==> Enabled(b, s))
  }

  /** Neither transition can enable or disable the other, and both orders lead to one state. */
  ghost predicate Commute(a: Transition, b: Transition, s: State)
    requires WellTyped(a, s) && WellTyped(b, s)
  {
    && Undisturbed(a, b, s) && Undisturbed(b, a, s)
    && (Enabled(a, s) && Enabled(b, s) ==> Step(b, Step(a, s)) == Step(a, Step(b, s)))
  }

  /** `a` does not write what `b` looks at. */
  lemma StepIsInvisible(a: Transition, b: Transition, s: State)
    requires WellTyped(a, s) && WellTyped(b, s) && Enabled(a, s)
    requires Writes(a, s) !! Footprint(b, s)
    ensures WellTyped(b, Step(a, s)) && Apply(b, Step(a, s)) == Apply(b, s)
  {
    StepKeepsShape(a, s);
    ShapeKeepsTyping(b, s, Step(a, s));
    DiffWithinWrites(a, s);
    ApplyIsLocal(b, s, Step(a, s));
  }

  lemma WritesWithinFootprint(t: Transition, s: State)
    requires WellTyped(t, s)
    ensures Writes(t, s) <= Footprint(t, s)
  {
  }

  lemma DisjointDiffsMerge(objs: map<ObjId, Obj>, d: Diff, e: Diff)
    requires d.Keys !! e.Keys
    ensures objs + d + e == objs + e + d
  {
  }

  lemma DisjointUndisturbed(a: Transition, b: Transition, s: State)
    requires WellTyped(a, s) && WellTyped(b, s)
    requires Writes(a, s) !! Footprint(b, s)
    ensures Undisturbed(a, b, s)
  {
    if Enabled(a, s) {
      StepIsInvisible(a, b, s);
    }
  }

  lemma DisjointStepsMerge(a: Transition, b: Transition, s: State)
    requires WellTyped(a, s) && WellTyped(b, s) && Enabled(a, s) && Enabled(b, s)
    requires Undisturbed(a, b, s) && Undisturbed(b, a, s)
    requires Writes(a, s) !! Footprint(b, s) && Writes(b, s) !! Footprint(a, s)
    ensures Step(b, Step(a, s)) == Step(a, Step(b, s))
  {
    StepIsInvisible(a, b, s);
    StepIsInvisible(b, a, s);
    DiffWithinWrites(a, s);
    DiffWithinWrites(b, s);
    WritesWithinFootprint(b, s);
    DisjointDiffsMerge(s.objs, Apply(a, s).diff, Apply(b, s).diff);
  }

  lemma DisjointCommute(a: Transition, b: Transition, s: State)
    requires WellTyped(a, s) && WellTyped(b, s)
    requires Writes(a, s) !! Footprint(b, s) && Writes(b, s) !! Footprint(a, s)
    ensures Commute(a, b, s)
  {
    DisjointUndisturbed(a, b, s);
    DisjointUndisturbed(b, a, s);
    if Enabled(a, s) && Enabled(b, s) {
      DisjointStepsMerge(a, b, s);
    }
  }

  /** The two operations share a target that one of them starts; this is the one kind
      of overlap that independence allows. */
  ghost predicate SharedTarget(a: Transition, b: Transition) {
    && (a.ThreadCreate? || b.ThreadCreate?)
    && TargetOf(a).Some? && TargetOf(a) == TargetOf(b)
  }

  /** A create that names a running runner changes nothing. */
  ghost predicate Idle(t: Transition, s: State)
    requires WellTyped(t, s)
  {
    t.ThreadCreate? && StatusOfRunner(s, t.target) == Running
  }

  lemma IdleStep(t: Transition, s: State)
    requires Ready(t, s) && Idle(t, s)
    ensures Enabled(t, s) && Step(t, s) == s
  {
    assert s.objs[s.runners[t.target]] == Thread(Running);
  }

  lemma IdleStaysIdle(a: Transition, b: Transition, s: State)
    requires WellFormed(s) && Ready(a, s) && Ready(b, s) && Idle(a, s) && Enabled(b, s)
    requires a.executor != b.executor && !(b.ThreadExit? && b.executor == a.target)
    ensures Ready(a, Step(b, s)) && Idle(a, Step(b, s))
  {
    StepKeepsShape(b, s);
    ShapeKeepsTyping(a, s, Step(b, s));
    DiffWithinWrites(b, s);
  }

  lemma IdleCommutes(a: Transition, b: Transition, s: State)
    requires WellFormed(s) && Ready(a, s) && Ready(b, s) && Idle(a, s)
    requires a.executor != b.executor && !(b.ThreadExit? && b.executor == a.target)
    ensures Commute(a, b, s) && Commute(b, a, s)
  {
    hide Apply, Enabled, Step, WellTyped, WellFormed, Idle;
    IdleStep(a, s);
    if Enabled(b, s) {
      IdleStaysIdle(a, b, s);
      IdleStep(a, Step(b, s));
    }
  }

  lemma IndependentIsDisjoint(a: Transition, b: Transition, s: State)
    requires WellFormed(s) && Ready(a, s) && Ready(b, s) && !Idle(a, s) && !Idle(b, s)
    requires !AreDependent(a, b) && !SharedTarget(a, b)
    ensures Writes(a, s) !! Footprint(b, s) && Writes(b, s) !! Footprint(a, s)
  {
  }

  lemma SharedTargetTyped(a: Transition, b: Transition, s: State)
    requires Ready(a, s) && Ready(b, s)
    ensures Enabled(a, s) ==> WellTyped(b, Step(a, s))
    ensures Enabled(b, s) ==> WellTyped(a, Step(b, s))
  {
    if Enabled(a, s) {
      StepKeepsShape(a, s);
      ShapeKeepsTyping(b, s, Step(a, s));
    }
    if Enabled(b, s) {
      StepKeepsShape(b, s);
      ShapeKeepsTyping(a, s, Step(b, s));
    }
  }

  lemma SharedTargetCommutes(a: Transition, b: Transition, s: State)
    requires WellFormed(s) && Ready(a, s) && Ready(b, s) && SharedTarget(a, b)
    requires a.executor != b.executor && !Idle(a, s) && !Idle(b, s)
    requires !Revives(a, b, s) && !Revives(b, a, s)
    ensures Commute(a, b, s)
  {
    SharedTargetTyped(a, b, s);
  }

  lemma RevivalInterferes(a: Transition, b: Transition, s: State)
    requires WellFormed(s) && Ready(a, s) && Ready(b, s) && a.executor != b.executor && Revives(a, b, s)
    ensures Enabled(a, s) && Enabled(b, s) && !Undisturbed(a, b, s)
  {
    SharedTargetTyped(a, b, s);
    assert Step(a, s).objs[s.runners[a.target]] == Thread(Running);
  }

  /** The dependency relation is valid, whichever way round its arguments are given,
      except when a create starts again the exited runner that a join waits for. */
  lemma IndependenceIsValid(a: Transition, b: Transition, s: State)
    requires WellFormed(s) && Ready(a, s) && Ready(b, s)
    requires !AreDependent(a, b) || !AreDependent(b, a)
    ensures Commute(a, b, s) <==> !Revives(a, b, s) && !Revives(b, a, s)
  {
    hide Apply, Enabled, Step, WellTyped, WellFormed;
    if Idle(a, s) {
      IdleCommutes(a, b, s);
    } else if Idle(b, s) {
      IdleCommutes(b, a, s);
    } else if Revives(a, b, s) {
      RevivalInterferes(a, b, s);
    } else if Revives(b, a, s) {
      RevivalInterferes(b, a, s);
    } else if SharedTarget(a, b) {
      SharedTargetCommutes(a, b, s);
    } else if !AreDependent(a, b) {
      IndependentIsDisjoint(a, b, s);
      DisjointCommute(a, b, s);
    } else {
      IndependentIsDisjoint(b, a, s);
      DisjointCommute(a, b, s);
    }
  }

  /** A state where it does: two running threads, one about to create the exited thread
      that the other is about to join. */
  lemma RestartingBreaksIndependence()
    ensures exists a, b, s :: WellFormed(s) && Ready(a, s) && Ready(b, s) && !AreDependent(a, b) && !Commute(a, b, s)
  {
    var s := State(map[0 := Thread(Running), 1 := Thread(Running), 2 := Thread(Exited)], map[0 := 0, 1 := 1, 2 := 2]);
    var a, b := ThreadCreate(0, 2), ThreadJoin(1, 2);
    assert WellFormed(s) && Ready(a, s) && Ready(b, s) && Revives(a, b, s);
    IndependenceIsValid(a, b, s);
  }

  // --- Co-enabledness ---

  predicate OnCv(t: Transition) {
    CvOf(t).Some?
  }

  /** Both are enabled in some state that they fit and where creates name runners not
      yet started. */
  ghost predicate CanMeet(a: Transition, b: Transition) {
    exists s :: Meets(a, b, s)
  }

  ghost predicate Meets(a: Transition, b: Transition, s: State) {
    && WellFormed(s) && WellTyped(a, s) && WellTyped(b, s) && CreatesEmbryo(a, s) && CreatesEmbryo(b, s)
    && Enabled(a, s) && Enabled(b, s)
  }

  /** No object is both a condition variable and a mutex. */
  predicate KindsApart(t: Transition) {
    CvOf(t).Some? && MutexOf(t).Some? ==> CvOf(t) != MutexOf(t)
  }

  /** Two transitions that are not condition-variable operations and are declared not
      co-enabled are never both enabled. */
  lemma NeverBothEnabled(a: Transition, b: Transition, s: State)
    requires a.executor != b.executor && !AreCoenabled(a, b) && !(OnCv(a) && OnCv(b))
    ensures !Meets(a, b, s)
  {
  }

  /** Two threads that a broadcast freed, and an unlocked mutex. */
  function Freed(e: RunnerId, f: RunnerId, c: ObjId, m: ObjId): State {
    State(map[c := Cv(PhaseSignaled, RID_INVALID, 7, 0, Policy([], [], {e, f}, map[])),
              m := Mutex(Unlocked, 7, RID_INVALID),
              c + m + 1 := Thread(Running), c + m + 2 := Thread(Running)],
          map[e := c + m + 1, f := c + m + 2])
  }

  lemma FreedMeet(a: Transition, b: Transition, c: ObjId, m: ObjId)
    requires a.executor != b.executor && c != m
    requires a.CvSignal? || a.CvDestroy? || (a.CvWait? && a.mutex == m)
    requires b.CvSignal? || b.CvDestroy? || (b.CvWait? && b.mutex == m)
    requires a.cv == b.cv == c
    ensures Meets(a, b, Freed(a.executor, b.executor, c, m))
  {
    var s := Freed(a.executor, b.executor, c, m);
    assert WellTyped(a, s) && WellTyped(b, s);
    assert CanExit(s.objs[c].policy, a.executor) && CanExit(s.objs[c].policy, b.executor);
  }

  /** What the default co-enabledness relation rules out is impossible exactly when the
      two are not both condition-variable operations. */
  lemma CoenabledIsWrongOnCvs(a: Transition, b: Transition)
    requires a.executor != b.executor && !AreCoenabled(a, b) && KindsApart(a) && KindsApart(b)
    ensures CanMeet(a, b) <==> OnCv(a) && OnCv(b)
  {
    if OnCv(a) && OnCv(b) {
      var m := if a.CvWait? then a.mutex else if b.CvWait? then b.mutex else a.cv + 1;
      FreedMeet(a, b, a.cv, m);
    } else {
      forall s ensures !Meets(a, b, s) {
        NeverBothEnabled(a, b, s);
      }
    }
  }

  /** A signal and the wake-up of a thread freed earlier are declared not co-enabled and
      both enabled. */
  lemma SignalMeetsWait()
    ensures !AreCoenabled(CvSignal(0, 2), CvWait(1, 2, 3)) && Meets(CvSignal(0, 2), CvWait(1, 2, 3), Freed(0, 1, 2, 3))
  {
    FreedMeet(CvSignal(0, 2), CvWait(1, 2, 3), 2, 3);
  }
}
