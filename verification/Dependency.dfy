/**
 * The dependency and co-enabledness relations of the explorer: the double dispatch
 * table, the entries it is filled with, and what independence guarantees.
 */
module Dependency {
  import opened Basics
  import opened Transitions

  datatype Kind =
    | KMutexInit | KMutexLock | KMutexUnlock
    | KCvInit | KCvEnqueue | KCvWait | KCvSignal | KCvBroadcast | KCvDestroy
    | KThreadStart | KThreadCreate | KThreadJoin | KThreadExit

  function KindOf(t: Transition): Kind {
    match t
    case MutexInit(_, _) => KMutexInit
    case MutexLock(_, _) => KMutexLock
    case MutexUnlock(_, _) => KMutexUnlock
    case CvInit(_, _) => KCvInit
    case CvEnqueue(_, _, _) => KCvEnqueue
    case CvWait(_, _, _) => KCvWait
    case CvSignal(_, _) => KCvSignal
    case CvBroadcast(_, _) => KCvBroadcast
    case CvDestroy(_, _) => KCvDestroy
    case ThreadStart(_) => KThreadStart
    case ThreadCreate(_, _) => KThreadCreate
    case ThreadJoin(_, _) => KThreadJoin
    case ThreadExit(_) => KThreadExit
  }

  /** The member functions `depends` and `coenabled_with` that the tables hold, called on
      the first transition. */
  datatype Callback =
    | TargetRuns | SameMutex | SameCv | CvIsMutex
    | TargetElsewhere | OtherMutex | OtherCv | CvIsNotMutex | Anyway

  function MutexOf(t: Transition): Option<ObjId> {
    match t
    case MutexInit(_, m) => Some(m)
    case MutexLock(_, m) => Some(m)
    case MutexUnlock(_, m) => Some(m)
    case CvEnqueue(_, _, m) => Some(m)
    case CvWait(_, _, m) => Some(m)
    case _ => None
  }

  function CvOf(t: Transition): Option<ObjId> {
    match t
    case CvInit(_, c) => Some(c)
    case CvEnqueue(_, c, _) => Some(c)
    case CvWait(_, c, _) => Some(c)
    case CvSignal(_, c) => Some(c)
    case CvBroadcast(_, c) => Some(c)
    case CvDestroy(_, c) => Some(c)
    case _ => None
  }

  function TargetOf(t: Transition): Option<RunnerId> {
    match t
    case ThreadCreate(_, r) => Some(r)
    case ThreadJoin(_, r) => Some(r)
    case _ => None
  }

  predicate Invoke(c: Callback, self: Transition, other: Transition) {
    match c
    case TargetRuns => TargetOf(self) == Some(other.executor)
    case SameMutex => MutexOf(self) == MutexOf(other)
    case SameCv => CvOf(self) == CvOf(other)
    case CvIsMutex => CvOf(self) == MutexOf(other)
    case TargetElsewhere => TargetOf(self) != Some(other.executor)
    case OtherMutex => MutexOf(self) != MutexOf(other)
    case OtherCv => CvOf(self) != CvOf(other)
    case CvIsNotMutex => CvOf(self) != MutexOf(other)
    case Anyway => true
  }

  datatype Entry = Entry(callback: Callback, reversed: bool)

  type PairTable = map<Kind, map<Kind, Entry>>

  /** `double_dispatch_member_function_table`. */
  class DispatchTable {
    var pairs: PairTable
    var single: map<Kind, Callback>

    constructor ()
      ensures pairs == map[] && single == map[]
    {
      pairs, single := map[], map[];
    }

    /** Fails, as the original throws, when the kind already has an entry. */
    method RegisterKind(k: Kind, c: Callback) returns (ok: bool)
      modifies this`single
      ensures ok == (k !in old(single))
      ensures single == if ok then old(single)[k := c] else old(single)
    {
      ok := k !in single;
      if ok {
        single := single[k := c];
      }
    }

    /** Enters the callback for the pair and, with its arguments swapped, for the mirrored pair. */
    method RegisterPair(k1: Kind, k2: Kind, c: Callback) returns (ok: bool)
      modifies this`pairs
      ensures ok == (k2 !in Row(old(pairs), k1))
      ensures ok ==> pairs == EnteredPair(old(pairs), k1, k2, c)
      ensures !ok ==> pairs == old(pairs)
    {
      ok := k2 !in Row(pairs, k1);
      if ok {
        pairs := Entered(pairs, k1, k2, Entry(c, false));
        pairs := Entered(pairs, k2, k1, Entry(c, true));
      }
    }

    /** The pair table decides first; a kind that has any pair entry never falls
        back to its own single entry, nor to the single entry of the other side. */
    predicate CallOr(fallback: bool, a: Transition, b: Transition)
      reads this
    {
      Lookup(pairs, single, fallback, a, b)
    }
  }

  function Entered(pairs: PairTable, k1: Kind, k2: Kind, e: Entry): PairTable {
    pairs[k1 := Row(pairs, k1)[k2 := e]]
  }

  /** `internal_table[k]`, which `operator[]` creates empty when absent. */
  function Row(pairs: PairTable, k: Kind): map<Kind, Entry> {
    if k in pairs then pairs[k] else map[]
  }

  predicate Lookup(pairs: PairTable, single: map<Kind, Callback>, fallback: bool, a: Transition, b: Transition) {
    var ka, kb := KindOf(a), KindOf(b);
    if ka in pairs then
      if kb in pairs[ka] then
        var e := pairs[ka][kb];
        if e.reversed then Invoke(e.callback, b, a) else Invoke(e.callback, a, b)
      else fallback
    else if ka in single then Invoke(single[ka], a, b)
    else if kb in single then Invoke(single[kb], b, a)
    else fallback
  }

  /** What the registrations below leave in the pair table; the mirrored entry of a
      pair of one kind overwrites the direct one. */
  function DefaultPairs(): PairTable {
    map[KMutexLock := map[KMutexInit := Entry(SameMutex, false), KMutexLock := Entry(SameMutex, true),
                          KCvWait := Entry(SameMutex, true), KCvSignal := Entry(CvIsMutex, true)],
        KMutexInit := map[KMutexLock := Entry(SameMutex, true)],
        KCvWait := map[KCvInit := Entry(SameCv, false), KMutexLock := Entry(SameMutex, false), KCvSignal := Entry(SameCv, true)],
        KCvInit := map[KCvWait := Entry(SameCv, true)],
        KCvSignal := map[KCvWait := Entry(SameCv, false), KMutexLock := Entry(CvIsMutex, false)]]
  }

  function DefaultSingle(): map<Kind, Callback> {
    map[KThreadCreate := TargetRuns, KThreadJoin := TargetRuns]
  }

  function EnteredPair(pairs: PairTable, k1: Kind, k2: Kind, c: Callback): PairTable {
    Entered(Entered(pairs, k1, k2, Entry(c, false)), k2, k1, Entry(c, true))
  }

  /** The pair table after the entries of `mutex_lock` alone, and after those of `condition_variable_wait`. */
  function LockPairs(): PairTable {
    map[KMutexLock := map[KMutexInit := Entry(SameMutex, false), KMutexLock := Entry(SameMutex, true)],
        KMutexInit := map[KMutexLock := Entry(SameMutex, true)]]
  }

  function WaitPairs(): PairTable {
    LockPairs()[KMutexLock := LockPairs()[KMutexLock][KCvWait := Entry(SameMutex, true)]]
    + map[KCvWait := map[KCvInit := Entry(SameCv, false), KMutexLock := Entry(SameMutex, false)],
          KCvInit := map[KCvWait := Entry(SameCv, true)]]
  }

  /** Two registrations in a row that both succeed and leave `q`. */
  ghost predicate Enters(p: PairTable, k1: Kind, k2: Kind, c: Callback, l1: Kind, l2: Kind, d: Callback, q: PairTable) {
    && k2 !in Row(p, k1)
    && l2 !in Row(EnteredPair(p, k1, k2, c), l1)
    && EnteredPair(EnteredPair(p, k1, k2, c), l1, l2, d) == q
  }

  lemma LockEntries()
    ensures Enters(map[], KMutexLock, KMutexInit, SameMutex, KMutexLock, KMutexLock, SameMutex, LockPairs())
  {
    var p := EnteredPair(EnteredPair(map[], KMutexLock, KMutexInit, SameMutex), KMutexLock, KMutexLock, SameMutex);
    assert p[KMutexLock] == LockPairs()[KMutexLock];
    assert p[KMutexInit] == LockPairs()[KMutexInit];
  }

  lemma WaitEntries()
    ensures Enters(LockPairs(), KCvWait, KCvInit, SameCv, KCvWait, KMutexLock, SameMutex, WaitPairs())
  {
    var p := EnteredPair(EnteredPair(LockPairs(), KCvWait, KCvInit, SameCv), KCvWait, KMutexLock, SameMutex);
    assert p[KMutexLock] == WaitPairs()[KMutexLock];
    assert p[KCvWait] == WaitPairs()[KCvWait];
    assert p[KCvInit] == WaitPairs()[KCvInit];
  }

  lemma SignalEntries()
    ensures Enters(WaitPairs(), KCvSignal, KCvWait, SameCv, KCvSignal, KMutexLock, CvIsMutex, DefaultPairs())
  {
    var p := EnteredPair(EnteredPair(WaitPairs(), KCvSignal, KCvWait, SameCv), KCvSignal, KMutexLock, CvIsMutex);
    assert p[KMutexLock] == DefaultPairs()[KMutexLock];
    assert p[KCvWait] == DefaultPairs()[KCvWait];
    assert p[KCvSignal] == DefaultPairs()[KCvSignal];
  }

  /** `default_dependencies`; the relation the explorer consults is the closed form below. */
  method DefaultDependencies() returns (d: DispatchTable, ok: bool)
    ensures fresh(d) && ok
    ensures d.pairs == DefaultPairs() && d.single == DefaultSingle()
  {
    d := new DispatchTable();
    var create := d.RegisterKind(KThreadCreate, TargetRuns);
    var join := d.RegisterKind(KThreadJoin, TargetRuns);
    LockEntries();
    var lockInit := d.RegisterPair(KMutexLock, KMutexInit, SameMutex);
    var lockLock := d.RegisterPair(KMutexLock, KMutexLock, SameMutex);
    assert d.pairs == LockPairs();
    WaitEntries();
    var waitInit := d.RegisterPair(KCvWait, KCvInit, SameCv);
    var waitLock := d.RegisterPair(KCvWait, KMutexLock, SameMutex);
    assert d.pairs == WaitPairs();
    SignalEntries();
    var signalWait := d.RegisterPair(KCvSignal, KCvWait, SameCv);
    var signalLock := d.RegisterPair(KCvSignal, KMutexLock, CvIsMutex);
    ok := create && join && lockInit && lockLock && waitInit && waitLock && signalWait && signalLock;
  }

  lemma TableIsRelated(a: Transition, b: Transition)
    ensures Lookup(DefaultPairs(), DefaultSingle(), true, a, b) == Related(a, b)
  {
    match KindOf(a)
    case KMutexLock =>
    case KMutexInit =>
    case KCvWait =>
    case KCvInit =>
    case KCvSignal =>
    case _ =>
  }

  /** The default dependency relation in closed form, on transitions of two runners. */
  predicate Related(a: Transition, b: Transition) {
    match (a, b)
    case (MutexLock(_, m), MutexInit(_, n)) => m == n
    case (MutexInit(_, m), MutexLock(_, n)) => m == n
    case (MutexLock(_, m), MutexLock(_, n)) => m == n
    case (CvWait(_, c, _), CvInit(_, d)) => c == d
    case (CvInit(_, c), CvWait(_, d, _)) => c == d
    case (CvWait(_, _, m), MutexLock(_, n)) => m == n
    case (MutexLock(_, m), CvWait(_, _, n)) => m == n
    case (CvSignal(_, c), CvWait(_, d, _)) => c == d
    case (CvWait(_, c, _), CvSignal(_, d)) => c == d
    case (CvSignal(_, c), MutexLock(_, m)) => c == m
    case (MutexLock(_, m), CvSignal(_, c)) => c == m
    case _ =>
      if a.MutexLock? || a.MutexInit? || a.CvWait? || a.CvInit? || a.CvSignal? then true
      else if TargetOf(a).Some? then TargetOf(a) == Some(b.executor)
      else if TargetOf(b).Some? then TargetOf(b) == Some(a.executor)
      else true
  }

  /** `are_dependent`. */
  predicate AreDependent(a: Transition, b: Transition) {
    a.executor == b.executor || Related(a, b)
  }

  // --- Co-enabledness ---

  /** The pair table after the entries of `mutex_lock` and `condition_variable_signal`,
      then with those of `condition_variable_broadcast`, then complete. */
  function SignalCoPairs(): PairTable {
    map[KMutexLock := map[KMutexUnlock := Entry(OtherMutex, false)],
        KMutexUnlock := map[KMutexLock := Entry(OtherMutex, true), KCvSignal := Entry(CvIsNotMutex, true)],
        KCvSignal := map[KCvWait := Entry(OtherCv, false), KMutexUnlock := Entry(CvIsNotMutex, false)],
        KCvWait := map[KCvSignal := Entry(OtherCv, true)]]
  }

  function BroadcastCoPairs(): PairTable {
    SignalCoPairs()[KMutexUnlock := SignalCoPairs()[KMutexUnlock][KCvBroadcast := Entry(Anyway, true)]]
                   [KCvWait := SignalCoPairs()[KCvWait][KCvBroadcast := Entry(Anyway, true)]]
                   [KCvBroadcast := map[KCvWait := Entry(Anyway, false), KMutexUnlock := Entry(Anyway, false)]]
  }

  function CoPairs(): PairTable {
    map[KMutexLock := map[KMutexUnlock := Entry(OtherMutex, false)],
        KMutexUnlock := map[KMutexLock := Entry(OtherMutex, true), KCvSignal := Entry(CvIsNotMutex, true),
                            KCvBroadcast := Entry(Anyway, true)],
        KCvSignal := map[KCvWait := Entry(OtherCv, false), KMutexUnlock := Entry(CvIsNotMutex, false),
                         KCvDestroy := Entry(OtherCv, true)],
        KCvWait := map[KCvSignal := Entry(OtherCv, true), KCvBroadcast := Entry(Anyway, true), KCvDestroy := Entry(OtherCv, true)],
        KCvBroadcast := map[KCvWait := Entry(Anyway, false), KMutexUnlock := Entry(Anyway, false)],
        KCvDestroy := map[KCvWait := Entry(OtherCv, false), KCvSignal := Entry(OtherCv, false)]]
  }

  function CoSingle(): map<Kind, Callback> {
    map[KThreadCreate := TargetElsewhere, KThreadJoin := TargetElsewhere]
  }

  lemma SignalCoEntries()
    ensures var p := EnteredPair(map[], KMutexLock, KMutexUnlock, OtherMutex);
      Enters(p, KCvSignal, KCvWait, OtherCv, KCvSignal, KMutexUnlock, CvIsNotMutex, SignalCoPairs())
  {
    var p := EnteredPair(map[], KMutexLock, KMutexUnlock, OtherMutex);
    var q := EnteredPair(EnteredPair(p, KCvSignal, KCvWait, OtherCv), KCvSignal, KMutexUnlock, CvIsNotMutex);
    assert q[KMutexUnlock] == SignalCoPairs()[KMutexUnlock];
    assert q[KCvSignal] == SignalCoPairs()[KCvSignal];
    assert q[KMutexLock] == SignalCoPairs()[KMutexLock];
    assert q[KCvWait] == SignalCoPairs()[KCvWait];
  }

  lemma BroadcastCoEntries()
    ensures Enters(SignalCoPairs(), KCvBroadcast, KCvWait, Anyway, KCvBroadcast, KMutexUnlock, Anyway, BroadcastCoPairs())
  {
    var q := EnteredPair(EnteredPair(SignalCoPairs(), KCvBroadcast, KCvWait, Anyway), KCvBroadcast, KMutexUnlock, Anyway);
    assert q[KCvBroadcast] == BroadcastCoPairs()[KCvBroadcast];
  }

  lemma DestroyCoEntries()
    ensures Enters(BroadcastCoPairs(), KCvDestroy, KCvWait, OtherCv, KCvDestroy, KCvSignal, OtherCv, CoPairs())
  {
    var q := EnteredPair(EnteredPair(BroadcastCoPairs(), KCvDestroy, KCvWait, OtherCv), KCvDestroy, KCvSignal, OtherCv);
    assert q[KCvDestroy] == CoPairs()[KCvDestroy];
    assert q[KCvWait] == CoPairs()[KCvWait];
    assert q[KCvSignal] == CoPairs()[KCvSignal];
    assert q[KMutexUnlock] == CoPairs()[KMutexUnlock];
  }

  /** `default_coenabledness`. */
  method DefaultCoenabledness() returns (d: DispatchTable, ok: bool)
    ensures fresh(d) && ok
    ensures d.pairs == CoPairs() && d.single == CoSingle()
  {
    d := new DispatchTable();
    var create := d.RegisterKind(KThreadCreate, TargetElsewhere);
    var join := d.RegisterKind(KThreadJoin, TargetElsewhere);
    SignalCoEntries();
    var lockUnlock := d.RegisterPair(KMutexLock, KMutexUnlock, OtherMutex);
    var signalWait := d.RegisterPair(KCvSignal, KCvWait, OtherCv);
    var signalUnlock := d.RegisterPair(KCvSignal, KMutexUnlock, CvIsNotMutex);
    assert d.pairs == SignalCoPairs();
    BroadcastCoEntries();
    var broadcastWait := d.RegisterPair(KCvBroadcast, KCvWait, Anyway);
    var broadcastUnlock := d.RegisterPair(KCvBroadcast, KMutexUnlock, Anyway);
    assert d.pairs == BroadcastCoPairs();
    DestroyCoEntries();
    var destroyWait := d.RegisterPair(KCvDestroy, KCvWait, OtherCv);
    var destroySignal := d.RegisterPair(KCvDestroy, KCvSignal, OtherCv);
    ok := create && join && lockUnlock && signalWait && signalUnlock
          && broadcastWait && broadcastUnlock && destroyWait && destroySignal;
  }

  lemma CoTableIsMayCoexist(a: Transition, b: Transition)
    ensures Lookup(CoPairs(), CoSingle(), true, a, b) == MayCoexist(a, b)
  {
    if OnMutex(a) {
      MutexCoRows(a, b);
    } else if CvOf(a).Some? {
      CvCoRows(a, b);
    }
  }

  predicate OnMutex(t: Transition) {
    t.MutexInit? || t.MutexLock? || t.MutexUnlock?
  }

  lemma MutexCoRows(a: Transition, b: Transition)
    requires OnMutex(a)
    ensures Lookup(CoPairs(), CoSingle(), true, a, b) == MayCoexist(a, b)
  {
  }

  lemma CvWaitCoRow(a: Transition, b: Transition)
    requires a.CvWait?
    ensures Lookup(CoPairs(), CoSingle(), true, a, b) == MayCoexist(a, b)
  {
  }

  lemma CvSignalCoRow(a: Transition, b: Transition)
    requires a.CvSignal?
    ensures Lookup(CoPairs(), CoSingle(), true, a, b) == MayCoexist(a, b)
  {
  }

  lemma CvCoRows(a: Transition, b: Transition)
    requires CvOf(a).Some?
    ensures Lookup(CoPairs(), CoSingle(), true, a, b) == MayCoexist(a, b)
  {
    hide Lookup, CoPairs, CoSingle, MayCoexist;
    if a.CvWait? {
      CvWaitCoRow(a, b);
    } else if a.CvSignal? {
      CvSignalCoRow(a, b);
    } else {
      OtherCvCoRow(a, b);
    }
  }

  lemma OtherCvCoRow(a: Transition, b: Transition)
    requires CvOf(a).Some? && !a.CvWait? && !a.CvSignal?
    ensures Lookup(CoPairs(), CoSingle(), true, a, b) == MayCoexist(a, b)
  {
  }

  /** The default co-enabledness relation in closed form. */
  predicate MayCoexist(a: Transition, b: Transition) {
    match (a, b)
    case (MutexLock(_, m), MutexUnlock(_, n)) => m != n
    case (MutexUnlock(_, m), MutexLock(_, n)) => m != n
    case (CvSignal(_, c), CvWait(_, d, _)) => c != d
    case (CvWait(_, c, _), CvSignal(_, d)) => c != d
    case (CvSignal(_, c), MutexUnlock(_, m)) => c != m
    case (MutexUnlock(_, m), CvSignal(_, c)) => c != m
    case (CvDestroy(_, c), CvWait(_, d, _)) => c != d
    case (CvWait(_, c, _), CvDestroy(_, d)) => c != d
    case (CvDestroy(_, c), CvSignal(_, d)) => c != d
    case (CvSignal(_, c), CvDestroy(_, d)) => c != d
    case _ =>
      if a.MutexLock? || a.MutexUnlock? || a.CvSignal? || a.CvWait? || a.CvBroadcast? || a.CvDestroy? then true
      else if TargetOf(a).Some? then TargetOf(a) != Some(b.executor)
      else if TargetOf(b).Some? then TargetOf(b) != Some(a.executor)
      else true
  }

  /** `are_coenabled`. */
  predicate AreCoenabled(a: Transition, b: Transition) {
    a.executor != b.executor && MayCoexist(a, b)
  }

  /** The order of the arguments matters: the lookup consults the pair entries of the
      first argument's kind only. */
  lemma DependenceIsNotSymmetric(e: RunnerId, f: RunnerId, m: ObjId, r: RunnerId)
    requires e != f && r != f
    ensures AreDependent(MutexLock(f, m), ThreadCreate(e, r))
    ensures !AreDependent(ThreadCreate(e, r), MutexLock(f, m))
  {
  }

  // --- Every pair the relations let through ---

  /** The kinds of the two, in either order. */
  predicate OfKinds(a: Transition, b: Transition, k: Kind, l: Kind) {
    (KindOf(a) == k && KindOf(b) == l) || (KindOf(a) == l && KindOf(b) == k)
  }

  /** A signal and a mutex operation of kind `k` whose objects have one id. */
  predicate SharesId(a: Transition, b: Transition, k: Kind) {
    || (a.CvSignal? && KindOf(b) == k && Some(a.cv) == MutexOf(b))
    || (b.CvSignal? && KindOf(a) == k && Some(b.cv) == MutexOf(a))
  }

  predicate HasPairs(t: Transition) {
    t.MutexLock? || t.MutexInit? || t.CvWait? || t.CvInit? || t.CvSignal?
  }

  /** On different objects in one of six ways, or a create or join that does not name the
      other thread. */
  predicate Unrelated(a: Transition, b: Transition) {
    || (OfKinds(a, b, KMutexLock, KMutexLock) && MutexOf(a) != MutexOf(b))
    || (OfKinds(a, b, KMutexLock, KMutexInit) && MutexOf(a) != MutexOf(b))
    || (OfKinds(a, b, KMutexLock, KCvWait) && MutexOf(a) != MutexOf(b))
    || (OfKinds(a, b, KCvWait, KCvInit) && CvOf(a) != CvOf(b))
    || (OfKinds(a, b, KCvWait, KCvSignal) && CvOf(a) != CvOf(b))
    || (OfKinds(a, b, KCvSignal, KMutexLock) && !SharesId(a, b, KMutexLock))
    || (TargetOf(a).Some? && TargetOf(a) != Some(b.executor))
    || (TargetOf(a) == None && !HasPairs(a) && TargetOf(b).Some? && TargetOf(b) != Some(a.executor))
  }

  lemma LockRow(a: Transition, b: Transition)
    requires a.MutexLock?
    ensures !Related(a, b) <==> Unrelated(a, b)
  {
  }

  lemma InitRows(a: Transition, b: Transition)
    requires a.MutexInit? || a.CvInit?
    ensures !Related(a, b) <==> Unrelated(a, b)
  {
  }

  lemma WaitRow(a: Transition, b: Transition)
    requires a.CvWait?
    ensures !Related(a, b) <==> Unrelated(a, b)
  {
  }

  lemma SignalRow(a: Transition, b: Transition)
    requires a.CvSignal?
    ensures !Related(a, b) <==> Unrelated(a, b)
  {
  }

  lemma NoRow(a: Transition, b: Transition)
    requires !HasPairs(a)
    ensures !Related(a, b) <==> Unrelated(a, b)
  {
  }

  /** Operations of two threads are independent only in these ways: whatever the tables do
      not mention is dependent. */
  lemma IndependentPairs(a: Transition, b: Transition)
    ensures !AreDependent(a, b) <==> a.executor != b.executor && Unrelated(a, b)
  {
    hide Related, Unrelated;
    if a.MutexLock? {
      LockRow(a, b);
    } else if a.MutexInit? || a.CvInit? {
      InitRows(a, b);
    } else if a.CvWait? {
      WaitRow(a, b);
    } else if a.CvSignal? {
      SignalRow(a, b);
    } else {
      NoRow(a, b);
    }
  }

  predicate HasCoPairs(t: Transition) {
    t.MutexLock? || t.MutexUnlock? || t.CvSignal? || t.CvWait? || t.CvBroadcast? || t.CvDestroy?
  }

  /** A lock and an unlock of one mutex, two of signal, wait and destroy on one condition
      variable, or a create or join and a step of the thread it names. */
  predicate Apart(a: Transition, b: Transition) {
    || (OfKinds(a, b, KMutexLock, KMutexUnlock) && MutexOf(a) == MutexOf(b))
    || (OfKinds(a, b, KCvSignal, KCvWait) && CvOf(a) == CvOf(b))
    || (OfKinds(a, b, KCvDestroy, KCvWait) && CvOf(a) == CvOf(b))
    || (OfKinds(a, b, KCvDestroy, KCvSignal) && CvOf(a) == CvOf(b))
    || SharesId(a, b, KMutexUnlock)
    || TargetOf(a) == Some(b.executor)
    || (TargetOf(a) == None && !HasCoPairs(a) && TargetOf(b) == Some(a.executor))
  }

  lemma MutexRowsApart(a: Transition, b: Transition)
    requires OnMutex(a)
    ensures !MayCoexist(a, b) <==> Apart(a, b)
  {
  }

  lemma WaitRowApart(a: Transition, b: Transition)
    requires a.CvWait? || a.CvSignal?
    ensures !MayCoexist(a, b) <==> Apart(a, b)
  {
  }

  lemma OtherRowsApart(a: Transition, b: Transition)
    requires CvOf(a).Some? && !a.CvWait? && !a.CvSignal?
    ensures !MayCoexist(a, b) <==> Apart(a, b)
  {
  }

  lemma ThreadRowsApart(a: Transition, b: Transition)
    requires !OnMutex(a) && CvOf(a) == None
    ensures !MayCoexist(a, b) <==> Apart(a, b)
  {
  }

  /** Operations of two threads are declared not co-enabled only in these ways. */
  lemma NotCoenabledPairs(a: Transition, b: Transition)
    ensures !AreCoenabled(a, b) <==> a.executor == b.executor || Apart(a, b)
  {
    hide MayCoexist, Apart;
    if OnMutex(a) {
      MutexRowsApart(a, b);
    } else if a.CvWait? || a.CvSignal? {
      WaitRowApart(a, b);
    } else if CvOf(a).Some? {
      OtherRowsApart(a, b);
    } else {
      ThreadRowsApart(a, b);
    }
  }
}
