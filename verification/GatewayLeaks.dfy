/** Runs from an empty cluster in which the account of gateway ports goes wrong. */
module GatewayLeaks {
  import opened PortAlloc
  import opened HAProxy
  import opened Gateway
  import opened GatewayRuns
  import opened GatewayAccounts

  /** A VirtualService as a user creates it. */
  predicate New(r: Record) {
    !r.deleting && r.finalizers == [] && r.status == NO_STATUS && r.generation >= 1
  }

  lemma {:induction false} RangeSize(lo: int, n: nat)
    ensures |FreePorts(Empty(lo, lo + n - 1))| == n
  {
    if n == 0 {
      assert FreePorts(Empty(lo, lo - 1)) == {};
    } else {
      RangeSize(lo, n - 1);
      assert FreePorts(Empty(lo, lo + n - 1)) == FreePorts(Empty(lo, lo + n - 2)) + {lo + n - 1};
    }
  }

  const RANGE_SIZE: nat := PORT_RANGE_END - PORT_RANGE_START + 1

  lemma FreshRangeSuffices(key: string, held: seq<AllocatedPort>, ports: seq<PortSpec>)
    requires held == [] && |ports| <= RANGE_SIZE
    ensures EnsurePorts(Empty(PORT_RANGE_START, PORT_RANGE_END), key, held, ports).ok
  {
    var l := Empty(PORT_RANGE_START, PORT_RANGE_END);
    EnsurePortsOwners(l, key, held, ports);
    RangeSize(PORT_RANGE_START, RANGE_SIZE);
    assert GatewayPorts(held) == [];
  }

  // ---- the first ports of a service ----

  /** In whatever world a finalizer turn takes place, all it leaks is unrecorded. */
  lemma LeaksAreUnrecorded(env: Env, w: World, key: string, calls: Calls)
    requires RecordsKept(w) && PortsSound(w) && AddsFinalizer(w, KeyTaken(key, calls))
    ensures forall p :: (key, p) in Leaks(w, KeyTaken(key, calls)) ==>
        Unrecorded(ReconcileKey(env, w, key, calls).world, key, p)
  {
    var r, w1, r1 := w.stored[key], FinalizerAdded(w, key, calls), WithFinalizer(w.stored[key]);
    FinalizerKeepsRecords(w, key, calls);
    assert r.status.allocatedPorts == [] && GatewayPorts(r.status.allocatedPorts) == [];
    HeldAfterTurn(env, w1, r1, Stale(calls));
    EnsurePortsOwners(w.ledger, key, r.status.allocatedPorts, r.spec.ports);
    EnsuredPortsMatch(w.ledger, key, r.status.allocatedPorts, r.spec.ports);
  }

  lemma FinalizerEventLeaks(env: Env, w: World, e: Event, key: string, p: int)
    requires RecordsKept(w) && PortsSound(w) && (key, p) in Leaks(w, e)
    ensures var w' := StepEvent(env, w, e); RecordsKept(w') && PortsSound(w') && Unrecorded(w', key, p)
  {
    StepStaysSound(env, w, e);
    RecordsStayKept(env, w, e);
    assert AddsFinalizer(w, e) && e.key == key;
    LeaksAreUnrecorded(env, w, key, e.calls);
  }

  /** Over every run, before and after: the ports that a service's first turn claims stay allocated to it for good and
      are never recorded, even after its deletion. */
  lemma FirstPortsLeakForGood(env: Env, w: World, before: seq<Event>, e: Event, later: seq<Event>, key: string, p: int)
    requires FreshWorld(w) && (key, p) in Leaks(RunEvents(env, w, before), e)
    ensures Unrecorded(RunEvents(env, w, before + [e] + later), key, p)
  {
    FreshWorldSound(w);
    RunStaysSound(env, w, before);
    FinalizerEventLeaks(env, RunEvents(env, w, before), e, key, p);
    UnrecordedIsForGood(env, StepEvent(env, RunEvents(env, w, before), e), later, key, p);
    RunThrough(env, w, before, e, later);
  }

  lemma RunThrough(env: Env, w: World, before: seq<Event>, e: Event, later: seq<Event>)
    ensures RunEvents(env, w, before + [e] + later)
        == RunEvents(env, StepEvent(env, RunEvents(env, w, before), e), later)
  {
    RunAppends(env, w, before + [e], later);
    RunAppends(env, w, before, [e]);
    OneEvent(env, RunEvents(env, w, before), e);
  }

  lemma OneEvent(env: Env, w: World, e: Event)
    ensures RunEvents(env, w, [e]) == StepEvent(env, w, e)
  {
    assert [e][1..] == [];
    assert RunEvents(env, StepEvent(env, w, e), []) == StepEvent(env, w, e);
  }

  lemma FiveEvents(env: Env, w: World, a: Event, b: Event, c: Event, d: Event, e: Event)
    ensures RunEvents(env, w, [a, b, c, d, e])
         == StepEvent(env, StepEvent(env, StepEvent(env, StepEvent(env, StepEvent(env, w, a), b), c), d), e)
  {
    var w1 := StepEvent(env, w, a);
    var w2 := StepEvent(env, w1, b);
    var w3 := StepEvent(env, w2, c);
    assert [a, b, c, d, e] == [a] + ([b] + ([c] + ([d] + [e])));
    RunAppends(env, w, [a], [b] + ([c] + ([d] + [e])));
    OneEvent(env, w, a);
    RunAppends(env, w1, [b], [c] + ([d] + [e]));
    OneEvent(env, w1, b);
    RunAppends(env, w2, [c], [d] + [e]);
    OneEvent(env, w2, c);
    RunAppends(env, w3, [d], [e]);
    OneEvent(env, w3, d);
    OneEvent(env, StepEvent(env, w3, d), e);
  }

  /** The ports that the first turn of the first service claims. */
  function FirstPorts(r: Record): seq<int> {
    GatewayPorts(EnsurePorts(Empty(PORT_RANGE_START, PORT_RANGE_END), Key(r), [], r.spec.ports).held)
  }

  function AfterFirst(env: Env, w: World, r: Record, calls: Calls): World {
    StepEvent(env, StepEvent(env, w, Created(r)), KeyTaken(Key(r), calls))
  }

  /** The world in which the first service of a fresh cluster has had its first turn. */
  lemma AfterFirstTurn(env: Env, w: World, r: Record, calls: Calls)
    requires FreshWorld(w) && New(r) && ValidSpec(r.spec) && |r.spec.ports| <= RANGE_SIZE
    requires calls.finalizerWrite == Landed
    ensures var w2 := AfterFirst(env, w, r, calls);
      && RecordsKept(w2) && PortsSound(w2) && w2.stored == map[Key(r) := r.(finalizers := [FINALIZER])]
      && w2.ledger == EnsurePorts(w.ledger, Key(r), [], r.spec.ports).ledger
      && (forall p :: p in FirstPorts(r) ==> Unrecorded(w2, Key(r), p))
  {
    var w1 := w.(stored := map[Key(r) := r]);
    FreshWorldSound(w);
    FirstEvent(env, w, r);
    RecordsStayKept(env, w1, KeyTaken(Key(r), calls));
    StepStaysSound(env, w1, KeyTaken(Key(r), calls));
    FirstTurnStores(env, w1, r, calls);
    FirstPortsLeak(w1, r, calls);
    LeaksAreUnrecorded(env, w1, Key(r), calls);
    FirstLedger(w1, r);
  }

  lemma FirstEvent(env: Env, w: World, r: Record)
    requires w.stored == map[] && New(r) && RecordsKept(w) && PortsSound(w)
    ensures var w1 := w.(stored := map[Key(r) := r]);
      StepEvent(env, w, Created(r)) == w1 && RecordsKept(w1) && PortsSound(w1)
  {
    StepStaysSound(env, w, Created(r));
    RecordsStayKept(env, w, Created(r));
    assert w.stored[Key(r) := r] == map[Key(r) := r];
  }

  lemma FirstLedger(w: World, r: Record)
    requires New(r) && ValidSpec(r.spec)
    ensures LedgerAfter(w, r) == EnsurePorts(w.ledger, Key(r), [], r.spec.ports).ledger
  {
  }

  lemma FirstPortsLeak(w: World, r: Record, calls: Calls)
    requires w.ledger == Empty(PORT_RANGE_START, PORT_RANGE_END) && w.stored == map[Key(r) := r] && New(r)
    requires ValidSpec(r.spec)
    requires |r.spec.ports| <= RANGE_SIZE && calls.finalizerWrite == Landed
    ensures forall p :: p in FirstPorts(r) ==> (Key(r), p) in Leaks(w, KeyTaken(Key(r), calls))
  {
    FreshRangeSuffices(Key(r), [], r.spec.ports);
  }

  /** They are as many as the spec has, and the range has shrunk by so many. */
  lemma FirstPortsFit(r: Record)
    requires |r.spec.ports| <= RANGE_SIZE
    ensures |FirstPorts(r)| == |r.spec.ports| && Distinct(FirstPorts(r))
    ensures var l := EnsurePorts(Empty(PORT_RANGE_START, PORT_RANGE_END), Key(r), [], r.spec.ports).ledger;
      && l.lo == PORT_RANGE_START && l.hi == PORT_RANGE_END && Consistent(l)
      && |FreePorts(l)| >= RANGE_SIZE - |r.spec.ports|
  {
    FreshRangeSuffices(Key(r), [], r.spec.ports);
    RangeSize(PORT_RANGE_START, RANGE_SIZE);
    AllocationFits(Empty(PORT_RANGE_START, PORT_RANGE_END), Key(r), r.spec.ports);
  }

  lemma AllocationFits(l: Ledger, key: string, ports: seq<PortSpec>)
    requires Consistent(l) && EnsurePorts(l, key, [], ports).ok
    ensures var a := EnsurePorts(l, key, [], ports);
      && |GatewayPorts(a.held)| == |ports| && Distinct(GatewayPorts(a.held))
      && a.ledger.lo == l.lo && a.ledger.hi == l.hi && Consistent(a.ledger)
      && |FreePorts(a.ledger)| >= |FreePorts(l)| - |ports|
  {
    assert GatewayPorts([]) == [];
    EnsurePortsOwners(l, key, [], ports);
    EnsuredPortsMatch(l, key, [], ports);
    if !Matches([], ports) {
      ClaimShrinks(l, key, |ports|);
    }
  }

  lemma ClaimShrinks(l: Ledger, key: string, n: nat)
    requires Consistent(l) && ClaimEach(l, key, n).Some?
    ensures |FreePorts(Claimed(l, key, ClaimEach(l, key, n).value))| >= |FreePorts(l)| - n
  {
    var ps := ClaimEach(l, key, n).value;
    ClaimEachTakesLowest(l, key, n);
    LowestIsClaimable(l, key, ps, n);
    ClaimedConsistent(l, key, ps);
    FewMembers(ps);
    LessFew(FreePorts(l), set p | p in ps);
  }

  lemma {:induction false} FewMembers(s: seq<int>)
    ensures |set p | p in s| <= |s|
  {
    if s == [] {
    } else {
      var init, last := s[..|s| - 1], s[|s| - 1];
      FewMembers(init);
      assert s == init + [last];
      assert (set p | p in s) == (set p | p in init) + {last};
    }
  }

  lemma LessFew(a: set<int>, b: set<int>)
    ensures |a - b| >= |a| - |b|
  {
    assert a == (a - b) + (a * b);
    SubsetSize(a * b, b);
  }

  lemma FirstTurnStores(env: Env, w: World, r: Record, calls: Calls)
    requires RecordsKept(w) && w.stored == map[Key(r) := r] && New(r) && calls.finalizerWrite == Landed
    ensures var w' := ReconcileKey(env, w, Key(r), calls).world;
      w'.stored == map[Key(r) := r.(finalizers := [FINALIZER])] && w'.ledger == LedgerAfter(w, r)
  {
    var w1, r1 := FinalizerAdded(w, Key(r), calls), WithFinalizer(r);
    assert r.finalizers + [FINALIZER] == [FINALIZER];
    assert w1.stored == map[Key(r) := r1];
    FinalizerKeepsRecords(w, Key(r), calls);
    ReconcileRecordStores(env, w1, r1, Stale(calls));
    StepsHoldMatchingPorts(env, w1, r1, Stale(calls));
  }

  /** The common life of a service leaks: after creation, two reconciles, the deletion request and the finalization,
      all with writes that land where they can, the service is gone and its first ports are still allocated to it. */
  lemma DeletedServiceLeaks(env: Env, w: World, r: Record, c1: Calls, c2: Calls, c3: Calls)
    requires FreshWorld(w) && New(r) && ValidSpec(r.spec) && |r.spec.ports| <= RANGE_SIZE
    requires c1.finalizerWrite == Landed && Written(c3.finalizerWrite)
    ensures var w' := RunEvents(env, w, [Created(r), KeyTaken(Key(r), c1), KeyTaken(Key(r), c2),
                                         DeletionRequested(Key(r)), KeyTaken(Key(r), c3)]);
      && Key(r) !in w'.stored
      && |FirstPorts(r)| == |r.spec.ports| && Distinct(FirstPorts(r))
      && forall p :: p in FirstPorts(r) ==> Owns(w'.ledger, Key(r), p)
  {
    var key := Key(r);
    var a, b, c, d, e := Created(r), KeyTaken(key, c1), KeyTaken(key, c2), DeletionRequested(key), KeyTaken(key, c3);
    var w2 := AfterFirst(env, w, r, c1);
    AfterFirstTurn(env, w, r, c1);
    FirstPortsFit(r);
    FiveEvents(env, w, a, b, c, d, e);
    var w3, w4 := StepEvent(env, w2, c), StepEvent(env, StepEvent(env, w2, c), d);
    StepStaysSound(env, w2, c);
    RecordsStayKept(env, w2, c);
    StepStaysSound(env, w3, d);
    RecordsStayKept(env, w3, d);
    forall p | p in FirstPorts(r) ensures Unrecorded(StepEvent(env, w4, e), key, p) {
      StepKeepsUnrecorded(env, w2, c, key, p);
      StepKeepsUnrecorded(env, w3, d, key, p);
      StepKeepsUnrecorded(env, w4, e, key, p);
    }
    ServiceGoes(env, w2, key, c2, c3);
  }

  lemma ServiceGoes(env: Env, w: World, key: string, c2: Calls, c3: Calls)
    requires RecordsKept(w) && key in w.stored && !w.stored[key].deleting && w.stored[key].finalizers == [FINALIZER]
    requires Written(c3.finalizerWrite)
    ensures var w1 := StepEvent(env, StepEvent(env, w, KeyTaken(key, c2)), DeletionRequested(key));
      key !in StepEvent(env, w1, KeyTaken(key, c3)).stored
  {
    ReconcileRecordStores(env, w, w.stored[key], c2);
    assert RemoveString([FINALIZER], FINALIZER) == [] by { assert [FINALIZER][1..] == []; }
  }

  // ---- exhaustion ----

  /** A run that exhausts the range of the code: a service has had its two turns; it is edited to want as many ports as
      the range has. The turn releases what it recorded and fails, and the status keeps ports that are free again. */
  lemma ExhaustionLosesPorts(env: Env, w: World, r: Record, c1: Calls, c2: Calls, spec: Spec, c3: Calls)
    requires FreshWorld(w) && New(r) && ValidSpec(r.spec) && 1 <= |r.spec.ports| && 2 * |r.spec.ports| <= 4000
    requires c1.finalizerWrite == Landed && Written(c2.statusWrite)
    requires ValidSpec(spec) && |spec.ports| == 4000
    ensures var w' := RunEvents(env, w, [Created(r), KeyTaken(Key(r), c1), KeyTaken(Key(r), c2),
                                         SpecEdited(Key(r), spec), KeyTaken(Key(r), c3)]);
      && |HeldBy(w'.stored, Key(r))| == |r.spec.ports|
      && forall p :: p in HeldBy(w'.stored, Key(r)) ==> p !in w'.ledger.owner
  {
    var key := Key(r);
    var a, b, c, d, e := Created(r), KeyTaken(key, c1), KeyTaken(key, c2), SpecEdited(key, spec), KeyTaken(key, c3);
    FiveEvents(env, w, a, b, c, d, e);
    AfterSecondTurn(env, w, r, c1, c2);
    var w3 := StepEvent(env, AfterFirst(env, w, r, c1), c);
    RecordsStayKept(env, w3, d);
    EditedTurn(env, w3, key, spec, c3, FirstPorts(r)[0]);
  }

  lemma AfterSecondTurn(env: Env, w: World, r: Record, c1: Calls, c2: Calls)
    requires FreshWorld(w) && New(r) && ValidSpec(r.spec) && 1 <= |r.spec.ports| && 2 * |r.spec.ports| <= RANGE_SIZE
    requires c1.finalizerWrite == Landed && Written(c2.statusWrite)
    ensures |FirstPorts(r)| == |r.spec.ports|
    ensures var w3 := StepEvent(env, AfterFirst(env, w, r, c1), KeyTaken(Key(r), c2));
      && RecordsKept(w3) && PortsSound(w3) && Unrecorded(w3, Key(r), FirstPorts(r)[0])
      && Settled(w3, Key(r), |r.spec.ports|)
  {
    var w2 := AfterFirst(env, w, r, c1);
    AfterFirstTurn(env, w, r, c1);
    FirstPortsFit(r);
    SecondTurnFits(w2.ledger, Key(r), r.spec.ports);
    SecondTurn(env, w2, Key(r), c2, FirstPorts(r)[0]);
  }

  lemma SecondTurn(env: Env, w: World, key: string, calls: Calls, p0: int)
    requires RecordsKept(w) && PortsSound(w) && Unrecorded(w, key, p0) && key in w.stored && Written(calls.statusWrite)
    requires var r := w.stored[key];
      && !r.deleting && r.finalizers == [FINALIZER] && r.status.allocatedPorts == []
      && ValidSpec(r.spec) && r.spec.ports != []
    requires w.ledger.lo == PORT_RANGE_START && w.ledger.hi == PORT_RANGE_END
    requires EnsurePorts(w.ledger, key, [], w.stored[key].spec.ports).ok
    ensures var w' := StepEvent(env, w, KeyTaken(key, calls));
      RecordsKept(w') && PortsSound(w') && Unrecorded(w', key, p0) && Settled(w', key, |w.stored[key].spec.ports|)
  {
    SecondTurnRecords(env, w, key, calls);
    StepKeepsUnrecorded(env, w, KeyTaken(key, calls), key, p0);
    StepStaysSound(env, w, KeyTaken(key, calls));
    RecordsStayKept(env, w, KeyTaken(key, calls));
  }

  lemma SecondTurnFits(l: Ledger, key: string, ports: seq<PortSpec>)
    requires Consistent(l) && |FreePorts(l)| >= |ports|
    ensures EnsurePorts(l, key, [], ports).ok
  {
    assert GatewayPorts([]) == [];
    EnsurePortsOwners(l, key, [], ports);
  }

  /** The service records n ports, which it owns, in the range of the code. */
  ghost predicate Settled(w: World, key: string, n: nat) {
    && key in w.stored && w.stored[key].finalizers == [FINALIZER] && !w.stored[key].deleting
    && |w.stored[key].status.allocatedPorts| == n
    && (forall p :: p in HeldBy(w.stored, key) ==> Owns(w.ledger, key, p))
    && w.ledger.lo == PORT_RANGE_START && w.ledger.hi == PORT_RANGE_END
  }

  lemma EditedTurn(env: Env, w: World, key: string, spec: Spec, calls: Calls, p0: int)
    requires RecordsKept(w) && PortsSound(w) && Unrecorded(w, key, p0)
    requires key in w.stored && Settled(w, key, |w.stored[key].status.allocatedPorts|)
    requires RecordsKept(StepEvent(env, w, SpecEdited(key, spec)))
    requires ValidSpec(spec) && |spec.ports| == RANGE_SIZE > |w.stored[key].status.allocatedPorts|
    ensures var w' := StepEvent(env, StepEvent(env, w, SpecEdited(key, spec)), KeyTaken(key, calls));
      && |HeldBy(w'.stored, key)| == |w.stored[key].status.allocatedPorts|
      && forall p :: p in HeldBy(w'.stored, key) ==> p !in w'.ledger.owner
  {
    EditKeepsRest(env, w, key, spec);
    StepStaysSound(env, w, SpecEdited(key, spec));
    StepKeepsUnrecorded(env, w, SpecEdited(key, spec), key, p0);
    ExhaustedTurn(env, StepEvent(env, w, SpecEdited(key, spec)), key, calls, p0);
  }

  lemma EditKeepsRest(env: Env, w: World, key: string, spec: Spec)
    requires key in w.stored
    ensures var w' := StepEvent(env, w, SpecEdited(key, spec));
      && key in w'.stored && w'.ledger == w.ledger && w'.stored[key].spec == spec
      && w'.stored[key].status == w.stored[key].status && w'.stored[key].finalizers == w.stored[key].finalizers
      && w'.stored[key].deleting == w.stored[key].deleting
  {
  }

  lemma SecondTurnRecords(env: Env, w: World, key: string, calls: Calls)
    requires RecordsKept(w) && PortsSound(w) && key in w.stored && Written(calls.statusWrite)
    requires var r := w.stored[key];
      && !r.deleting && r.finalizers == [FINALIZER] && r.status.allocatedPorts == []
      && ValidSpec(r.spec) && r.spec.ports != []
    requires w.ledger.lo == PORT_RANGE_START && w.ledger.hi == PORT_RANGE_END
    requires EnsurePorts(w.ledger, key, [], w.stored[key].spec.ports).ok
    ensures Settled(ReconcileKey(env, w, key, calls).world, key, |w.stored[key].spec.ports|)
  {
    var r := w.stored[key];
    HeldAfterTurn(env, w, r, calls);
    ReconcileRecordStores(env, w, r, calls);
    EnsurePortsOwners(w.ledger, key, [], r.spec.ports);
    EnsuredPortsMatch(w.ledger, key, [], r.spec.ports);
    NoPortChangeIsLost(env, w, r, calls);
    StepsHoldMatchingPorts(env, w, r, calls);
  }

  lemma ExhaustedTurn(env: Env, w: World, key: string, calls: Calls, p0: int)
    requires RecordsKept(w) && PortsSound(w) && key in w.stored && Unrecorded(w, key, p0)
    requires var r := w.stored[key];
      && !r.deleting && FINALIZER in r.finalizers && ValidSpec(r.spec)
      && |r.status.allocatedPorts| != |r.spec.ports| && |r.spec.ports| == RANGE_SIZE
    requires w.ledger.lo == PORT_RANGE_START && w.ledger.hi == PORT_RANGE_END
    requires forall p :: p in HeldBy(w.stored, key) ==> Owns(w.ledger, key, p)
    ensures var w' := ReconcileKey(env, w, key, calls).world;
      && HeldBy(w'.stored, key) == HeldBy(w.stored, key)
      && forall p :: p in HeldBy(w'.stored, key) ==> p !in w'.ledger.owner
  {
    var r := w.stored[key];
    var l1 := ReleasedMany(w.ledger, key, GatewayPorts(r.status.allocatedPorts));
    HeldAfterTurn(env, w, r, calls);
    EnsurePortsOwners(w.ledger, key, r.status.allocatedPorts, r.spec.ports);
    EnsuredPortsMatch(w.ledger, key, r.status.allocatedPorts, r.spec.ports);
    ReleasedManyOwners(w.ledger, key, GatewayPorts(r.status.allocatedPorts));
    assert Owns(l1, key, p0);
    FewerThanRange(l1, p0);
    forall p | p in HeldBy(w.stored, key) ensures p !in l1.owner {
      assert Owns(w.ledger, key, p);
      assert p in l1.owner ==> Owns(l1, l1.owner[p], p);
    }
  }

  lemma FewerThanRange(l: Ledger, p: int)
    requires l.lo == PORT_RANGE_START && l.hi == PORT_RANGE_END && p in l.owner && l.lo <= p <= l.hi
    ensures |FreePorts(l)| < RANGE_SIZE
  {
    var all := FreePorts(Empty(l.lo, l.hi));
    RangeSize(l.lo, RANGE_SIZE);
    assert p in all && FreePorts(l) <= all - {p};
    SubsetSize(FreePorts(l), all - {p});
  }
}
