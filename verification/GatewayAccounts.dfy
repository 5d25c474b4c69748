/** Who owns which gateway port: what the statuses record, what the allocator holds, and what leaks. */
module GatewayAccounts {
  import opened PortAlloc
  import opened HAProxy
  import opened Gateway
  import opened GatewayRuns

  predicate Owns(l: Ledger, key: string, p: int) {
    p in l.owner && l.owner[p] == key
  }

  /** The ports a record stands for; a record whose finalizer is gone stands for none. */
  function HeldPorts(r: Record): seq<int> {
    if FINALIZER in r.finalizers then GatewayPorts(r.status.allocatedPorts) else []
  }

  function HeldBy(stored: map<string, Record>, key: string): seq<int> {
    if key in stored then HeldPorts(stored[key]) else []
  }

  lemma ReleasedManyOwners(l: Ledger, key: string, ps: seq<int>)
    requires Consistent(l)
    ensures var l' := ReleasedMany(l, key, ps);
      && Consistent(l') && l'.lo == l.lo && l'.hi == l.hi
      && forall k, p :: Owns(l', k, p) <==> Owns(l, k, p) && !(k == key && p in ps)
  {
    ReleasedManyConsistent(l, key, ps);
  }

  lemma ClaimedOwners(l: Ledger, key: string, ps: seq<int>)
    requires forall p :: p in ps ==> p !in l.owner
    ensures forall k, p :: Owns(Claimed(l, key, ps), k, p) <==> Owns(l, k, p) || (k == key && p in ps)
  {
  }

  lemma AscendingIsDistinct(ps: seq<int>)
    requires forall i, j :: 0 <= i < j < |ps| ==> ps[i] < ps[j]
    ensures Distinct(ps)
  {
  }

  /** A whole allocation: other owners are untouched; on success the key owns exactly the new ports, provided it
      owned only the old ones; on failure it owns nothing of the old ones. */
  lemma EnsurePortsOwners(l: Ledger, key: string, held: seq<AllocatedPort>, ports: seq<PortSpec>)
    requires Consistent(l)
    ensures var a := EnsurePorts(l, key, held, ports);
      var kept := Matches(held, ports);
      && Consistent(a.ledger) && a.ledger.lo == l.lo && a.ledger.hi == l.hi
      && (a.ok <==> kept || |ports| <= |FreePorts(ReleasedMany(l, key, GatewayPorts(held)))|)
      && (a.ok && !kept ==> Distinct(GatewayPorts(a.held))
                            && forall p :: p in GatewayPorts(a.held) ==>
                              p in FreePorts(ReleasedMany(l, key, GatewayPorts(held))))
      && (forall k, p :: Owns(a.ledger, k, p) <==>
            || (Owns(l, k, p) && (kept || k != key || p !in GatewayPorts(held)))
            || (a.ok && !kept && k == key && p in GatewayPorts(a.held)))
  {
    if !Matches(held, ports) {
      var l1 := ReleasedMany(l, key, GatewayPorts(held));
      ReleasedManyOwners(l, key, GatewayPorts(held));
      ClaimEachTakesLowest(l1, key, |ports|);
      var ps := ClaimEach(l1, key, |ports|);
      if ps.Some? {
        assert GatewayPorts(Assignments(ports, ps.value)) == ps.value;
        LowestIsClaimable(l1, key, ps.value, |ports|);
        ClaimedOwners(l1, key, ps.value);
      }
    }
  }

  lemma LowestIsClaimable(l: Ledger, key: string, ps: seq<int>, n: nat)
    requires Consistent(l) && LowestOf(FreePorts(l), ps, n)
    ensures Distinct(ps) && (forall p :: p in ps ==> p !in l.owner) && Consistent(Claimed(l, key, ps))
  {
    AscendingIsDistinct(ps);
    ClaimedConsistent(l, key, ps);
  }

  // ---- what every event keeps ----

  /** The allocator's maps mirror each other, and no status records a port twice. */
  ghost predicate PortsSound(w: World) {
    && Consistent(w.ledger)
    && forall key :: key in w.stored ==> Distinct(GatewayPorts(w.stored[key].status.allocatedPorts))
  }

  lemma FreshWorldSound(w: World)
    requires FreshWorld(w)
    ensures RecordsKept(w) && PortsSound(w)
  {
  }

  lemma HeldStaysDistinct(w: World, r: Record)
    requires Consistent(w.ledger) && Distinct(GatewayPorts(r.status.allocatedPorts))
    ensures Consistent(LedgerAfter(w, r)) && Distinct(GatewayPorts(HeldAfter(w, r)))
  {
    EnsurePortsOwners(w.ledger, Key(r), r.status.allocatedPorts, r.spec.ports);
    EnsuredPortsMatch(w.ledger, Key(r), r.status.allocatedPorts, r.spec.ports);
  }

  lemma TurnStaysSound(env: Env, w: World, r: Record, calls: Calls)
    requires PortsSound(w) && Key(r) in w.stored && w.stored[Key(r)] == r
    ensures PortsSound(ReconcileRecord(env, w, r, calls).world)
  {
    HeldStaysDistinct(w, r);
    StepsHoldMatchingPorts(env, w, r, calls);
    ReconcileRecordStores(env, w, r, calls);
  }

  lemma FinalizeStaysSound(env: Env, w: World, r: Record, calls: Calls)
    requires PortsSound(w)
    ensures PortsSound(Finalize(env, w, r, calls))
  {
    ReleasedManyOwners(w.ledger, Key(r), GatewayPorts(r.status.allocatedPorts));
    assert Finalize(env, w, r, calls).stored in {w.stored, DropFinalizer(w.stored, r, calls)};
  }

  lemma KeyStaysSound(env: Env, w: World, key: string, calls: Calls)
    requires RecordsKept(w) && PortsSound(w) && key in w.stored
    ensures PortsSound(ReconcileKey(env, w, key, calls).world)
  {
    var r := w.stored[key];
    if r.deleting {
      FinalizeStaysSound(env, w, r, calls);
    } else if FINALIZER in r.finalizers {
      TurnStaysSound(env, w, r, calls);
    } else {
      FinalizerKeepsRecords(w, key, calls);
      if calls.finalizerWrite == Landed {
        TurnStaysSound(env, FinalizerAdded(w, key, calls), WithFinalizer(r), Stale(calls));
      }
    }
  }

  /** Whatever fails, is lost or is exhausted. */
  lemma StepStaysSound(env: Env, w: World, e: Event)
    requires RecordsKept(w) && PortsSound(w)
    ensures PortsSound(StepEvent(env, w, e))
  {
    if e.KeyTaken? && e.key in w.stored {
      KeyStaysSound(env, w, e.key, e.calls);
    }
  }

  lemma {:induction false} RunStaysSound(env: Env, w: World, events: seq<Event>)
    requires RecordsKept(w) && PortsSound(w)
    ensures PortsSound(RunEvents(env, w, events)) && RecordsKept(RunEvents(env, w, events))
    decreases |events|
  {
    if events == [] {
    } else {
      StepStaysSound(env, w, events[0]);
      RecordsStayKept(env, w, events[0]);
      RunStaysSound(env, StepEvent(env, w, events[0]), events[1..]);
    }
  }

  // ---- the account ----

  /** The allocator holds, each under its service's key, exactly the recorded ports and the leaked ones. */
  ghost predicate Accounted(w: World, leaked: set<(string, int)>) {
    && Consistent(w.ledger)
    && (forall key :: Distinct(HeldBy(w.stored, key)))
    && (forall key, p :: Owns(w.ledger, key, p) <==> p in HeldBy(w.stored, key) || (key, p) in leaked)
    && (forall key, p :: (key, p) in leaked ==> p !in HeldBy(w.stored, key))
  }

  /** Then recorded and leaked ports are in range, and no two services share one. */
  lemma AccountedMeansDisjoint(w: World, leaked: set<(string, int)>, key: string, key': string, p: int)
    requires Accounted(w, leaked) && (p in HeldBy(w.stored, key) || (key, p) in leaked)
    ensures w.ledger.lo <= p <= w.ledger.hi
    ensures p in HeldBy(w.stored, key') || (key', p) in leaked ==> key' == key
  {
    assert Owns(w.ledger, key, p);
    if p in HeldBy(w.stored, key') || (key', p) in leaked {
      assert Owns(w.ledger, key', p);
    }
  }

  predicate SamePortSet(ps: seq<int>, qs: seq<int>) {
    (forall p :: p in ps ==> p in qs) && (forall p :: p in qs ==> p in ps)
  }

  /** Only `key` changes hands: it owns `owned` and its leaks now, and its status says `now`. */
  lemma AccountedIff(w: World, w': World, leaked: set<(string, int)>, key: string, owned: seq<int>, now: seq<int>)
    requires Accounted(w, leaked) && Consistent(w'.ledger) && Distinct(now)
    requires forall k, p :: Owns(w'.ledger, k, p) <==>
      (k != key && Owns(w.ledger, k, p)) || (k == key && (p in owned || (key, p) in leaked))
    requires forall k :: k != key ==> HeldBy(w'.stored, k) == HeldBy(w.stored, k)
    requires HeldBy(w'.stored, key) == now
    requires forall p :: p in owned || p in now ==> (key, p) !in leaked
    ensures Accounted(w', leaked) <==> SamePortSet(owned, now)
  {
    assert Accounted(w', leaked) ==> forall p :: Owns(w'.ledger, key, p) <==> p in now || (key, p) in leaked;
  }

  /** When a reconcile keeps the account: it keeps its ports, or claims new ones and the write lands (or the new
      port numbers are the old ones), or the range is exhausted and there was nothing to lose. */
  predicate TurnConserves(w: World, r: Record, calls: Calls) {
    var held := r.status.allocatedPorts;
    var a := EnsurePorts(w.ledger, Key(r), held, r.spec.ports);
    || !ValidSpec(r.spec)
    || Matches(held, r.spec.ports)
    || (a.ok && (Written(calls.statusWrite) || SamePortSet(GatewayPorts(a.held), GatewayPorts(held))))
    || (!a.ok && held == [])
  }

  lemma HeldAfterTurn(env: Env, w: World, r: Record, calls: Calls)
    requires RecordsKept(w) && Key(r) in w.stored && w.stored[Key(r)] == r && FINALIZER in r.finalizers
    ensures var w' := ReconcileRecord(env, w, r, calls).world;
      && w'.ledger == LedgerAfter(w, r)
      && (forall k :: k != Key(r) ==> HeldBy(w'.stored, k) == HeldBy(w.stored, k))
      && HeldBy(w'.stored, Key(r)) == GatewayPorts(if Written(calls.statusWrite) then HeldAfter(w, r)
                                                   else r.status.allocatedPorts)
  {
    ReconcileRecordStores(env, w, r, calls);
    StepsHoldMatchingPorts(env, w, r, calls);
    NoPortChangeIsLost(env, w, r, calls);
  }

  /** From an accounted world, one reconcile leads to an accounted world exactly when TurnConserves holds before it. */
  lemma TurnConservesExactly(env: Env, w: World, leaked: set<(string, int)>, r: Record, calls: Calls)
    requires RecordsKept(w) && Accounted(w, leaked)
    requires Key(r) in w.stored && w.stored[Key(r)] == r && FINALIZER in r.finalizers
    ensures Accounted(ReconcileRecord(env, w, r, calls).world, leaked) <==> TurnConserves(w, r, calls)
  {
    var key, held, w' := Key(r), r.status.allocatedPorts, ReconcileRecord(env, w, r, calls).world;
    HeldAfterTurn(env, w, r, calls);
    assert HeldBy(w.stored, key) == GatewayPorts(held);
    if !ValidSpec(r.spec) || Matches(held, r.spec.ports) {
      EnsuredPortsMatch(w.ledger, key, held, r.spec.ports);
      assert w'.ledger == w.ledger;
      AccountedIff(w, w', leaked, key, GatewayPorts(held), GatewayPorts(held));
    } else {
      ReallocationConservesExactly(w, w', leaked, r, calls);
    }
  }

  /** After a re-allocation the key owns the claimed ports and its leaks; the claimed ones were not leaked. */
  lemma ReallocatedOwners(w: World, leaked: set<(string, int)>, r: Record)
    requires Accounted(w, leaked) && HeldBy(w.stored, Key(r)) == GatewayPorts(r.status.allocatedPorts)
    requires !Matches(r.status.allocatedPorts, r.spec.ports)
    ensures var a := EnsurePorts(w.ledger, Key(r), r.status.allocatedPorts, r.spec.ports);
      var owned := if a.ok then GatewayPorts(a.held) else [];
      && Consistent(a.ledger) && (a.ok ==> Distinct(GatewayPorts(a.held)))
      && (forall p :: p in owned ==> (Key(r), p) !in leaked)
      && (forall k, p :: Owns(a.ledger, k, p) <==>
            (k != Key(r) && Owns(w.ledger, k, p)) || (k == Key(r) && (p in owned || (k, p) in leaked)))
  {
    var key, held := Key(r), r.status.allocatedPorts;
    var l1 := ReleasedMany(w.ledger, key, GatewayPorts(held));
    EnsurePortsOwners(w.ledger, key, held, r.spec.ports);
    ReleasedManyOwners(w.ledger, key, GatewayPorts(held));
    forall p | (key, p) in leaked ensures p !in FreePorts(l1) {
      assert Owns(w.ledger, key, p);
      assert Owns(l1, key, p);
    }
  }

  lemma ReallocationConservesExactly(w: World, w': World, leaked: set<(string, int)>, r: Record, calls: Calls)
    requires Accounted(w, leaked) && HeldBy(w.stored, Key(r)) == GatewayPorts(r.status.allocatedPorts)
    requires ValidSpec(r.spec) && !Matches(r.status.allocatedPorts, r.spec.ports)
    requires w'.ledger == LedgerAfter(w, r)
    requires forall k :: k != Key(r) ==> HeldBy(w'.stored, k) == HeldBy(w.stored, k)
    requires HeldBy(w'.stored, Key(r))
      == GatewayPorts(if Written(calls.statusWrite) then HeldAfter(w, r) else r.status.allocatedPorts)
    ensures Accounted(w', leaked) <==> TurnConserves(w, r, calls)
  {
    var key, held := Key(r), r.status.allocatedPorts;
    var a := EnsurePorts(w.ledger, key, held, r.spec.ports);
    ReallocatedOwners(w, leaked, r);
    EnsuredPortsMatch(w.ledger, key, held, r.spec.ports);
    var now := if a.ok && Written(calls.statusWrite) then GatewayPorts(a.held) else GatewayPorts(held);
    if a.ok {
      AccountedIff(w, w', leaked, key, GatewayPorts(a.held), now);
    } else {
      AccountedIff(w, w', leaked, key, [], now);
      assert held != [] ==> GatewayPorts(held)[0] in now;
    }
  }

  /** Finalizing frees exactly the recorded ports; the account is kept exactly when the finalizer's removal is written
      or there was no recorded port. */
  lemma FinalizeConservesExactly(env: Env, w: World, leaked: set<(string, int)>, r: Record, calls: Calls)
    requires RecordsKept(w) && Accounted(w, leaked)
    requires Key(r) in w.stored && w.stored[Key(r)] == r && FINALIZER in r.finalizers
    ensures var w' := Finalize(env, w, r, calls);
      && (forall k, p :: Owns(w'.ledger, k, p) <==> Owns(w.ledger, k, p) && (k != Key(r) || (k, p) in leaked))
      && (Accounted(w', leaked) <==> Written(calls.finalizerWrite) || r.status.allocatedPorts == [])
  {
    var key, held, w' := Key(r), r.status.allocatedPorts, Finalize(env, w, r, calls);
    ReleasedManyOwners(w.ledger, key, GatewayPorts(held));
    assert HeldBy(w.stored, key) == GatewayPorts(held);
    RemoveStringRemoves(r.finalizers, FINALIZER);
    var now := if Written(calls.finalizerWrite) then [] else GatewayPorts(held);
    AccountedIff(w, w', leaked, key, [], now);
    assert held != [] ==> GatewayPorts(held)[0] in GatewayPorts(held);
  }

  lemma {:induction false} RemoveStringRemoves(s: seq<string>, x: string)
    ensures forall y :: y in RemoveString(s, x) <==> y in s && y != x
  {
    if s == [] {
    } else {
      RemoveStringRemoves(s[1..], x);
      assert forall y :: y in s <==> y == s[0] || y in s[1..];
    }
  }

  // ---- the turn that adds the finalizer ----

  predicate AddsFinalizer(w: World, e: Event) {
    && e.KeyTaken? && e.key in w.stored && e.calls.finalizerWrite == Landed
    && !w.stored[e.key].deleting && FINALIZER !in w.stored[e.key].finalizers
  }

  /** What such a turn leaks: every port it claims, since its status write is refused. */
  function Leaks(w: World, e: Event): set<(string, int)> {
    if !AddsFinalizer(w, e) || !ValidSpec(w.stored[e.key].spec) then {}
    else
      var r := w.stored[e.key];
      var a := EnsurePorts(w.ledger, e.key, r.status.allocatedPorts, r.spec.ports);
      if a.ok then set p | p in GatewayPorts(a.held) :: (e.key, p) else {}
  }

  lemma SameHolders(w: World, leaked: set<(string, int)>, stored: map<string, Record>)
    requires Accounted(w, leaked) && forall key :: HeldBy(stored, key) == HeldBy(w.stored, key)
    ensures Accounted(w.(stored := stored), leaked)
  {
  }

  /** It changes what nobody's status records. */
  lemma FinalizerTurnRecords(env: Env, w: World, leaked: set<(string, int)>, key: string, calls: Calls)
    requires RecordsKept(w) && Accounted(w, leaked) && AddsFinalizer(w, KeyTaken(key, calls))
    ensures var w' := ReconcileKey(env, w, key, calls).world;
      && (forall k :: HeldBy(w'.stored, k) == HeldBy(w.stored, k)) && HeldBy(w.stored, key) == []
      && w.stored[key].status.allocatedPorts == [] && w'.ledger == LedgerAfter(w, w.stored[key])
  {
    var r, w1, r1 := w.stored[key], FinalizerAdded(w, key, calls), WithFinalizer(w.stored[key]);
    FinalizerKeepsRecords(w, key, calls);
    assert r.status.allocatedPorts == [] && GatewayPorts(r.status.allocatedPorts) == [];
    assert forall k :: HeldBy(w1.stored, k) == HeldBy(w.stored, k);
    HeldAfterTurn(env, w1, r1, Stale(calls));
  }

  lemma FinalizerTurnLeaks(env: Env, w: World, leaked: set<(string, int)>, key: string, calls: Calls)
    requires RecordsKept(w) && Accounted(w, leaked) && AddsFinalizer(w, KeyTaken(key, calls))
    ensures Accounted(ReconcileKey(env, w, key, calls).world, leaked + Leaks(w, KeyTaken(key, calls)))
  {
    var r, w' := w.stored[key], ReconcileKey(env, w, key, calls).world;
    FinalizerTurnRecords(env, w, leaked, key, calls);
    if ValidSpec(r.spec) && !Matches([], r.spec.ports) {
      assert Key(r) == key && GatewayPorts(r.status.allocatedPorts) == [];
      ReallocatedOwners(w, leaked, r);
      ClaimedLeak(w, w', leaked, r);
    } else {
      NothingLeaks(w, w', leaked, key, calls);
    }
  }

  lemma NothingLeaks(w: World, w': World, leaked: set<(string, int)>, key: string, calls: Calls)
    requires Accounted(w, leaked) && key in w.stored && Key(w.stored[key]) == key
    requires w.stored[key].status.allocatedPorts == [] && w'.ledger == LedgerAfter(w, w.stored[key])
    requires forall k :: HeldBy(w'.stored, k) == HeldBy(w.stored, k)
    requires !ValidSpec(w.stored[key].spec) || Matches([], w.stored[key].spec.ports)
    ensures Accounted(w', leaked + Leaks(w, KeyTaken(key, calls)))
  {
    EnsuredPortsMatch(w.ledger, key, [], w.stored[key].spec.ports);
    assert Leaks(w, KeyTaken(key, calls)) == {};
    assert leaked + {} == leaked;
    SameHolders(w, leaked, w'.stored);
  }

  /** What was claimed and not recorded is leaked. */
  lemma ClaimedLeak(w: World, w': World, leaked: set<(string, int)>, r: Record)
    requires Accounted(w, leaked) && w'.ledger == EnsurePorts(w.ledger, Key(r), [], r.spec.ports).ledger
    requires Consistent(w'.ledger) && HeldBy(w.stored, Key(r)) == []
    requires forall k :: HeldBy(w'.stored, k) == HeldBy(w.stored, k)
    requires var a := EnsurePorts(w.ledger, Key(r), [], r.spec.ports);
      forall k, p :: Owns(a.ledger, k, p) <==>
        || (k != Key(r) && Owns(w.ledger, k, p))
        || (k == Key(r) && ((a.ok && p in GatewayPorts(a.held)) || (k, p) in leaked))
    ensures var a := EnsurePorts(w.ledger, Key(r), [], r.spec.ports);
      Accounted(w', leaked + if a.ok then set p | p in GatewayPorts(a.held) :: (Key(r), p) else {})
  {
  }

  // ---- runs ----

  /** When an event keeps the account, its leaks included. The turn that adds the finalizer always does. */
  predicate KeepsAccount(w: World, e: Event) {
    e.KeyTaken? && e.key in w.stored && FINALIZER in w.stored[e.key].finalizers ==>
      var r := w.stored[e.key];
      if r.deleting then Written(e.calls.finalizerWrite) || r.status.allocatedPorts == []
      else TurnConserves(w, r, e.calls)
  }

  /** One event keeps the account exactly when KeepsAccount holds before it. */
  lemma StepAccountsExactly(env: Env, w: World, leaked: set<(string, int)>, e: Event)
    requires RecordsKept(w) && Accounted(w, leaked)
    ensures Accounted(StepEvent(env, w, e), leaked + Leaks(w, e)) <==> KeepsAccount(w, e)
  {
    assert leaked + {} == leaked;
    if AddsFinalizer(w, e) {
      FinalizerTurnLeaks(env, w, leaked, e.key, e.calls);
    } else if e.KeyTaken? && e.key in w.stored {
      var r := w.stored[e.key];
      if FINALIZER !in r.finalizers {
        OneHolder(w, leaked, e.key, WithFinalizer(r));
      } else if r.deleting {
        FinalizeConservesExactly(env, w, leaked, r, e.calls);
      } else {
        TurnConservesExactly(env, w, leaked, r, e.calls);
      }
    } else if !e.PodSeen? && !e.PodGone? {
      UserEventAccounts(env, w, leaked, e);
    }
  }

  lemma UserEventAccounts(env: Env, w: World, leaked: set<(string, int)>, e: Event)
    requires RecordsKept(w) && Accounted(w, leaked)
    requires e.Created? || e.SpecEdited? || e.DeletionRequested? || (e.KeyTaken? && e.key !in w.stored)
    ensures Accounted(StepEvent(env, w, e), leaked)
  {
    match e
    case Created(r) =>
      if Key(r) !in w.stored && r.status == NO_STATUS {
        assert HeldPorts(r) == [];
        OneHolder(w, leaked, Key(r), r);
      }
    case SpecEdited(key, spec) =>
      if key in w.stored {
        OneHolder(w, leaked, key, w.stored[key].(spec := spec, generation := w.stored[key].generation + 1));
      }
    case DeletionRequested(key) =>
      if key in w.stored {
        OneHolder(w, leaked, key, w.stored[key].(deleting := true));
        if w.stored[key].finalizers == [] { NoHolder(w, leaked, key); }
      }
    case _ =>
  }

  lemma OneHolder(w: World, leaked: set<(string, int)>, key: string, r: Record)
    requires Accounted(w, leaked)
    ensures HeldPorts(r) == HeldBy(w.stored, key) ==> Accounted(w.(stored := w.stored[key := r]), leaked)
  {
    if HeldPorts(r) == HeldBy(w.stored, key) {
      var stored := w.stored[key := r];
      assert forall k :: HeldBy(stored, k) == HeldBy(w.stored, k);
      SameHolders(w, leaked, stored);
    }
  }

  lemma NoHolder(w: World, leaked: set<(string, int)>, key: string)
    requires Accounted(w, leaked) && HeldBy(w.stored, key) == []
    ensures Accounted(w.(stored := w.stored - {key}), leaked)
  {
    var stored := w.stored - {key};
    assert forall k :: HeldBy(stored, k) == HeldBy(w.stored, k);
    SameHolders(w, leaked, stored);
  }

  /** All that the finalizer turns of a run claimed. */
  function RunLeaks(env: Env, w: World, events: seq<Event>): set<(string, int)>
    decreases |events|
  {
    if events == [] then {} else Leaks(w, events[0]) + RunLeaks(env, StepEvent(env, w, events[0]), events[1..])
  }

  predicate RunKeepsAccount(env: Env, w: World, events: seq<Event>)
    decreases |events|
  {
    events == [] || (KeepsAccount(w, events[0]) && RunKeepsAccount(env, StepEvent(env, w, events[0]), events[1..]))
  }

  /** Over every run whose later writes land and whose allocations fit: the allocator holds exactly the recorded ports
      and what the finalizer turns claimed. */
  lemma {:induction false} RunAccounts(env: Env, w: World, leaked: set<(string, int)>, events: seq<Event>)
    requires RecordsKept(w) && Accounted(w, leaked) && RunKeepsAccount(env, w, events)
    ensures Accounted(RunEvents(env, w, events), leaked + RunLeaks(env, w, events))
    decreases |events|
  {
    if events == [] {
      assert leaked + {} == leaked;
    } else {
      var w', more := StepEvent(env, w, events[0]), Leaks(w, events[0]);
      StepAccountsExactly(env, w, leaked, events[0]);
      RecordsStayKept(env, w, events[0]);
      RunAccounts(env, w', leaked + more, events[1..]);
      assert leaked + more + RunLeaks(env, w', events[1..]) == leaked + (more + RunLeaks(env, w', events[1..]));
    }
  }

  lemma FreshWorldAccounted(w: World)
    requires FreshWorld(w)
    ensures RecordsKept(w) && Accounted(w, {})
  {
  }

  /** From a controller just started: what is allocated is recorded or was claimed by a finalizer turn, and no two
      services share a port. */
  lemma FreshRunAccounts(env: Env, w: World, events: seq<Event>, key: string, key': string, p: int)
    requires FreshWorld(w) && RunKeepsAccount(env, w, events)
    ensures var w', leaked := RunEvents(env, w, events), RunLeaks(env, w, events);
      && (Owns(w'.ledger, key, p) <==> p in HeldBy(w'.stored, key) || (key, p) in leaked)
      && (p in HeldBy(w'.stored, key) ==> 6000 <= p <= 9999)
      && (p in HeldBy(w'.stored, key) && p in HeldBy(w'.stored, key') ==> key == key')
  {
    FreshWorldAccounted(w);
    RunAccounts(env, w, {}, events);
    assert {} + RunLeaks(env, w, events) == RunLeaks(env, w, events);
    RunKeepsRange(env, w, events);
  }

  /** The allocator's range never changes. */
  lemma {:induction false} RunKeepsRange(env: Env, w: World, events: seq<Event>)
    requires RecordsKept(w) && PortsSound(w)
    ensures var l := RunEvents(env, w, events).ledger; l.lo == w.ledger.lo && l.hi == w.ledger.hi
    decreases |events|
  {
    if events == [] {
    } else {
      StepKeepsRange(env, w, events[0]);
      StepStaysSound(env, w, events[0]);
      RecordsStayKept(env, w, events[0]);
      RunKeepsRange(env, StepEvent(env, w, events[0]), events[1..]);
    }
  }

  lemma StepKeepsRange(env: Env, w: World, e: Event)
    requires RecordsKept(w) && PortsSound(w)
    ensures var l := StepEvent(env, w, e).ledger; l.lo == w.ledger.lo && l.hi == w.ledger.hi
  {
    if e.KeyTaken? && e.key in w.stored {
      KeyKeepsRange(env, w, e.key, e.calls);
    }
  }

  lemma KeyKeepsRange(env: Env, w: World, key: string, calls: Calls)
    requires PortsSound(w) && key in w.stored
    ensures var l := ReconcileKey(env, w, key, calls).world.ledger; l.lo == w.ledger.lo && l.hi == w.ledger.hi
  {
    var r := w.stored[key];
    if r.deleting {
      ReleasedManyOwners(w.ledger, Key(r), GatewayPorts(r.status.allocatedPorts));
    } else {
      RecordKeepsRange(env, w, r, calls);
      RecordKeepsRange(env, FinalizerAdded(w, key, calls), WithFinalizer(r), Stale(calls));
    }
  }

  lemma RecordKeepsRange(env: Env, w: World, r: Record, calls: Calls)
    requires Consistent(w.ledger)
    ensures var l := ReconcileRecord(env, w, r, calls).world.ledger; l.lo == w.ledger.lo && l.hi == w.ledger.hi
  {
    StepsHoldMatchingPorts(env, w, r, calls);
    EnsurePortsOwners(w.ledger, Key(r), r.status.allocatedPorts, r.spec.ports);
  }

  // ---- leaks are for good ----

  /** The allocator keeps the port for a key whose status does not record it. */
  predicate Unrecorded(w: World, key: string, p: int) {
    Owns(w.ledger, key, p) && p !in HeldBy(w.stored, key)
  }

  lemma TurnKeepsUnrecorded(env: Env, w: World, r: Record, calls: Calls, key: string, p: int)
    requires RecordsKept(w) && PortsSound(w) && Unrecorded(w, key, p)
    requires Key(r) in w.stored && w.stored[Key(r)] == r && FINALIZER in r.finalizers
    ensures Unrecorded(ReconcileRecord(env, w, r, calls).world, key, p)
  {
    var held := r.status.allocatedPorts;
    HeldAfterTurn(env, w, r, calls);
    EnsurePortsOwners(w.ledger, Key(r), held, r.spec.ports);
    EnsuredPortsMatch(w.ledger, Key(r), held, r.spec.ports);
    ReleasedManyOwners(w.ledger, Key(r), GatewayPorts(held));
    var l1 := ReleasedMany(w.ledger, Key(r), GatewayPorts(held));
    assert Owns(l1, key, p) && p !in FreePorts(l1);
  }

  lemma FinalizeKeepsUnrecorded(env: Env, w: World, r: Record, calls: Calls, key: string, p: int)
    requires PortsSound(w) && Unrecorded(w, key, p) && Key(r) in w.stored && w.stored[Key(r)] == r
    ensures Unrecorded(Finalize(env, w, r, calls), key, p)
  {
    ReleasedManyOwners(w.ledger, Key(r), GatewayPorts(r.status.allocatedPorts));
    RemoveStringRemoves(r.finalizers, FINALIZER);
  }

  lemma KeyKeepsUnrecorded(env: Env, w: World, turn: string, calls: Calls, key: string, p: int)
    requires RecordsKept(w) && PortsSound(w) && Unrecorded(w, key, p) && turn in w.stored
    ensures Unrecorded(ReconcileKey(env, w, turn, calls).world, key, p)
  {
    var r := w.stored[turn];
    if r.deleting {
      FinalizeKeepsUnrecorded(env, w, r, calls, key, p);
    } else if FINALIZER in r.finalizers {
      TurnKeepsUnrecorded(env, w, r, calls, key, p);
    } else {
      var w1 := FinalizerAdded(w, turn, calls);
      FinalizerKeepsRecords(w, turn, calls);
      assert HeldBy(w1.stored, key) == HeldBy(w.stored, key);
      if calls.finalizerWrite == Landed {
        TurnKeepsUnrecorded(env, w1, WithFinalizer(r), Stale(calls), key, p);
      }
    }
  }

  lemma StepKeepsUnrecorded(env: Env, w: World, e: Event, key: string, p: int)
    requires RecordsKept(w) && PortsSound(w) && Unrecorded(w, key, p)
    ensures Unrecorded(StepEvent(env, w, e), key, p)
  {
    if e.KeyTaken? && e.key in w.stored {
      KeyKeepsUnrecorded(env, w, e.key, e.calls, key, p);
    }
  }

  /** A port that is owned and not recorded stays so through every later run: nothing ever releases it. */
  lemma {:induction false} UnrecordedIsForGood(env: Env, w: World, events: seq<Event>, key: string, p: int)
    requires RecordsKept(w) && PortsSound(w) && Unrecorded(w, key, p)
    ensures Unrecorded(RunEvents(env, w, events), key, p)
    decreases |events|
  {
    if events == [] {
    } else {
      StepKeepsUnrecorded(env, w, events[0], key, p);
      StepStaysSound(env, w, events[0]);
      RecordsStayKept(env, w, events[0]);
      UnrecordedIsForGood(env, StepEvent(env, w, events[0]), events[1..], key, p);
    }
  }

  lemma {:induction false} RunAppends(env: Env, w: World, xs: seq<Event>, ys: seq<Event>)
    ensures RunEvents(env, w, xs + ys) == RunEvents(env, RunEvents(env, w, xs), ys)
    decreases |xs|
  {
    if xs == [] {
      assert xs + ys == ys;
    } else {
      assert (xs + ys)[1..] == xs[1..] + ys;
      RunAppends(env, StepEvent(env, w, xs[0]), xs[1..], ys);
    }
  }

  lemma SubsetSize(a: set<int>, b: set<int>)
    requires a <= b
    ensures |a| <= |b|
  {
    assert b == a + (b - a);
  }
}
