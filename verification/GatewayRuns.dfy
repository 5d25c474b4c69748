/** What the controller keeps over whole runs: no allocation goes unrecorded, and gateway ports are conserved. */
module GatewayRuns {
  import opened Wrappers
  import opened PortAlloc
  import opened HAProxy
  import opened Gateway

  // ---- runs ----

  /** What can happen: users create, edit and delete VirtualServices, pods come and go, and the
      controller takes keys from its queue. */
  datatype Event =
    | Created(r: Record)
    | SpecEdited(key: string, spec: Spec)
    | DeletionRequested(key: string)
    | PodSeen(key: string, pod: PodInfo)
    | PodGone(key: string)
    | KeyTaken(key: string, calls: Calls)

  const NO_STATUS := Status([], [], 0)

  /** The API server's part: a new object has no status; an edit raises the generation; an object without
      finalizers is removed at once when its deletion is requested. */
  function StepEvent(env: Env, w: World, e: Event): World {
    match e
    case Created(r) =>
      if Key(r) in w.stored || r.deleting || r.status != NO_STATUS || r.generation < 1 then w
      else w.(stored := w.stored[Key(r) := r])
    case SpecEdited(key, spec) =>
      if key !in w.stored || w.stored[key].spec == spec then w
      else w.(stored := w.stored[key := w.stored[key].(spec := spec, generation := w.stored[key].generation + 1)])
    case DeletionRequested(key) =>
      if key !in w.stored then w
      else if w.stored[key].finalizers == [] then w.(stored := w.stored - {key})
      else w.(stored := w.stored[key := w.stored[key].(deleting := true)])
    case PodSeen(key, pod) => w.(pods := w.pods[key := pod])
    case PodGone(key) => w.(pods := w.pods - {key})
    case KeyTaken(key, calls) => ReconcileKey(env, w, key, calls).world
  }

  function RunEvents(env: Env, w: World, events: seq<Event>): World
    decreases |events|
  {
    if events == [] then w else RunEvents(env, StepEvent(env, w, events[0]), events[1..])
  }

  /** A controller just started in a cluster without VirtualServices. */
  predicate FreshWorld(w: World) {
    w.ledger == Empty(PORT_RANGE_START, PORT_RANGE_END) && w.stored == map[] && w.listeners == map[]
  }

  // ---- the status invariant ----

  function FindCondition(conditions: seq<Condition>, kind: string): Option<Condition> {
    if conditions == [] then None
    else if conditions[0].kind == kind then Some(conditions[0])
    else FindCondition(conditions[1..], kind)
  }

  predicate PastAllocation(reason: Reason) {
    reason == ServiceConflict || reason == ReconcileError || reason == Reconciled
  }

  predicate RecordsPastAllocation(s: Status) {
    var c := FindCondition(s.conditions, READY);
    c.Some? && PastAllocation(c.value.reason)
  }

  /** A status that observed the current generation and got past allocation records ports that match the spec. */
  predicate StatusKept(r: Record) {
    && r.status.observedGeneration <= r.generation
    && (r.status.observedGeneration == r.generation && RecordsPastAllocation(r.status) ==>
          Matches(r.status.allocatedPorts, r.spec.ports))
    && (!r.deleting && FINALIZER !in r.finalizers ==> r.status.allocatedPorts == [])
  }

  predicate RecordsKept(w: World) {
    forall key :: key in w.stored ==> Key(w.stored[key]) == key && StatusKept(w.stored[key])
  }

  lemma {:induction false} PutConditionIsFound(conditions: seq<Condition>, c: Condition)
    ensures var found := FindCondition(PutCondition(conditions, c), c.kind);
      found.Some? && found.value.reason == c.reason && found.value.status == c.status
    ensures var before := FindCondition(conditions, c.kind);
      PutCondition(conditions, c) == conditions <==>
        before.Some? && ((before.value.reason == c.reason && before.value.status == c.status) || before.value == c)
  {
    if conditions == [] {
    } else {
      if conditions[0].kind == c.kind {
        assert conditions == [conditions[0]] + conditions[1..];
      } else {
        PutConditionIsFound(conditions[1..], c);
        assert conditions == [conditions[0]] + conditions[1..];
      }
    }
  }

  lemma NewAssignmentsMatch(ports: seq<PortSpec>, ps: seq<int>)
    requires |ps| == |ports|
    ensures Matches(Assignments(ports, ps), ports)
  {
    forall i | 0 <= i < |ports| ensures FoundIn(ports[i], Assignments(ports, ps)) {
      assert Allocates(Assignments(ports, ps)[i], ports[i]);
    }
  }

  lemma EnsuredPortsMatch(l: Ledger, key: string, held: seq<AllocatedPort>, ports: seq<PortSpec>)
    ensures var a := EnsurePorts(l, key, held, ports);
      && (a.ok ==> Matches(a.held, ports))
      && (!a.ok ==> a.held == held)
      && (Matches(held, ports) ==> a.ok && a.held == held && a.ledger == l)
  {
    var ps := ClaimEach(ReleasedMany(l, key, GatewayPorts(held)), key, |ports|);
    if ps.Some? {
      NewAssignmentsMatch(ports, ps.value);
    }
  }

  function LedgerAfter(w: World, r: Record): Ledger {
    if ValidSpec(r.spec) then EnsurePorts(w.ledger, Key(r), r.status.allocatedPorts, r.spec.ports).ledger else w.ledger
  }

  lemma PublishKeepsLedger(env: Env, w: World, r: Record, calls: Calls)
    ensures var p := PublishSteps(env, w, r, calls);
      && PastAllocation(p.reason) && p.held == r.status.allocatedPorts
      && p.world.stored == w.stored && p.world.ledger == w.ledger
  {
  }

  lemma StepsHoldMatchingPorts(env: Env, w: World, r: Record, calls: Calls)
    ensures var p := RunSteps(env, w, r, calls);
      && (PastAllocation(p.reason) ==> Matches(p.held, r.spec.ports))
      && (p.held != r.status.allocatedPorts ==> PastAllocation(p.reason))
      && p.world.stored == w.stored && p.world.ledger == LedgerAfter(w, r)
      && p.held == HeldAfter(w, r)
  {
    EnsuredPortsMatch(w.ledger, Key(r), r.status.allocatedPorts, r.spec.ports);
    var a := EnsurePorts(w.ledger, Key(r), r.status.allocatedPorts, r.spec.ports);
    PublishKeepsLedger(env, w.(ledger := a.ledger), r.(status := r.status.(allocatedPorts := a.held)), calls);
  }

  function HeldAfter(w: World, r: Record): seq<AllocatedPort> {
    if ValidSpec(r.spec) then EnsurePorts(w.ledger, Key(r), r.status.allocatedPorts, r.spec.ports).held
    else r.status.allocatedPorts
  }

  /** The status in memory is compared with itself after the ports were changed in it; still, every reconcile
      that changes the allocated ports does write the status. */
  lemma NoPortChangeIsLost(env: Env, w: World, r: Record, calls: Calls)
    requires StatusKept(r)
    ensures RunSteps(env, w, r, calls).held != r.status.allocatedPorts ==> ReconcileRecord(env, w, r, calls).wrote
  {
    var p := RunSteps(env, w, r, calls);
    StepsHoldMatchingPorts(env, w, r, calls);
    if p.held != r.status.allocatedPorts {
      assert !Matches(r.status.allocatedPorts, r.spec.ports);
      PutConditionIsFound(r.status.conditions, ReadyCondition(p.reason, r, calls));
    }
  }

  /** The record as a written status leaves it. */
  function WithStatus(r: Record, held: seq<AllocatedPort>, reason: Reason, calls: Calls): Record {
    r.(status := SetCondition(r.status.(allocatedPorts := held), ReadyCondition(reason, r, calls), r.generation))
  }

  lemma ReconcileRecordStores(env: Env, w: World, r: Record, calls: Calls)
    requires Key(r) in w.stored && w.stored[Key(r)] == r
    ensures var t, p := ReconcileRecord(env, w, r, calls), RunSteps(env, w, r, calls);
      && t.world == p.world.(stored := t.world.stored)
      && (t.world.stored == w.stored
          || t.world.stored == w.stored[Key(r) := WithStatus(r, p.held, p.reason, calls)])
      && (t.wrote && Written(calls.statusWrite) ==>
            t.world.stored == w.stored[Key(r) := WithStatus(r, p.held, p.reason, calls)])
      && (!t.wrote || !Written(calls.statusWrite) ==> t.world.stored == w.stored)
  {
    StepsHoldMatchingPorts(env, w, r, calls);
    var p := RunSteps(env, w, r, calls);
    var r1 := r.(status := r.status.(allocatedPorts := p.held));
    assert ReadyCondition(p.reason, r1, calls) == ReadyCondition(p.reason, r, calls);
  }

  lemma WithStatusKept(env: Env, w: World, r: Record, calls: Calls)
    requires StatusKept(r) && (!r.deleting ==> FINALIZER in r.finalizers)
    ensures var p := RunSteps(env, w, r, calls); StatusKept(WithStatus(r, p.held, p.reason, calls))
  {
    var p := RunSteps(env, w, r, calls);
    StepsHoldMatchingPorts(env, w, r, calls);
    PutConditionIsFound(r.status.conditions, ReadyCondition(p.reason, r, calls));
  }

  lemma TurnKeepsRecords(env: Env, w: World, r: Record, calls: Calls)
    requires RecordsKept(w) && Key(r) in w.stored && w.stored[Key(r)] == r && FINALIZER in r.finalizers
    ensures RecordsKept(ReconcileRecord(env, w, r, calls).world)
  {
    ReconcileRecordStores(env, w, r, calls);
    WithStatusKept(env, w, r, calls);
  }

  lemma FinalizeKeepsRecords(env: Env, w: World, r: Record, calls: Calls)
    requires RecordsKept(w) && Key(r) in w.stored && w.stored[Key(r)] == r && r.deleting
    ensures RecordsKept(Finalize(env, w, r, calls))
  {
    assert Finalize(env, w, r, calls).stored in {w.stored, DropFinalizer(w.stored, r, calls)};
  }

  /** The status invariant survives every event, whatever fails. */
  lemma RecordsStayKept(env: Env, w: World, e: Event)
    requires RecordsKept(w)
    ensures RecordsKept(StepEvent(env, w, e))
  {
    if e.KeyTaken? && e.key in w.stored {
      TurnEventKeepsRecords(env, w, e.key, e.calls);
    }
  }

  lemma TurnEventKeepsRecords(env: Env, w: World, key: string, calls: Calls)
    requires RecordsKept(w) && key in w.stored
    ensures RecordsKept(ReconcileKey(env, w, key, calls).world)
  {
    var r := w.stored[key];
    assert Key(r) == key;
    if r.deleting {
      FinalizeKeepsRecords(env, w, r, calls);
    } else if FINALIZER in r.finalizers {
      TurnKeepsRecords(env, w, r, calls);
    } else {
      FinalizerKeepsRecords(w, key, calls);
      if calls.finalizerWrite == Landed {
        TurnKeepsRecords(env, FinalizerAdded(w, key, calls), WithFinalizer(r), Stale(calls));
      }
    }
  }

  lemma FinalizerKeepsRecords(w: World, key: string, calls: Calls)
    requires RecordsKept(w) && key in w.stored
    ensures RecordsKept(FinalizerAdded(w, key, calls))
    ensures FINALIZER in WithFinalizer(w.stored[key]).finalizers && Key(WithFinalizer(w.stored[key])) == key
  {
    assert StatusKept(WithFinalizer(w.stored[key]));
  }

  lemma {:induction false} RecordsKeptOverRun(env: Env, w: World, events: seq<Event>)
    requires RecordsKept(w)
    ensures RecordsKept(RunEvents(env, w, events))
    decreases |events|
  {
    if events == [] {
    } else {
      RecordsStayKept(env, w, events[0]);
      RecordsKeptOverRun(env, StepEvent(env, w, events[0]), events[1..]);
    }
  }

  /** Over every run from a fresh start, with any failing calls: a reconcile that changes a service's ports
      attempts the status write. */
  lemma NoPortChangeIsLostOverRuns(env: Env, w: World, events: seq<Event>, key: string, calls: Calls)
    requires FreshWorld(w)
    requires var w' := RunEvents(env, w, events);
        key in w'.stored && !w'.stored[key].deleting && FINALIZER in w'.stored[key].finalizers
    ensures var w' := RunEvents(env, w, events);
      var r := w'.stored[key];
      RunSteps(env, w', r, calls).held != r.status.allocatedPorts ==> ReconcileKey(env, w', key, calls).wrote
  {
    RecordsKeptOverRun(env, w, events);
    var w' := RunEvents(env, w, events);
    NoPortChangeIsLost(env, w', w'.stored[key], calls);
  }

  // ---- objects of others ----

  /** The Service under the key exists and does not name this owner. */
  predicate ForeignService(services: map<string, Service>, key: string, uid: string) {
    key in services && uid !in services[key].owners
  }

  predicate ForeignSlice(slices: map<string, Slice>, key: string, uid: string) {
    key in slices && uid !in slices[key].owners
  }

  lemma ServiceLeft(services: map<string, Service>, r: Record, calls: Calls, key: string)
    requires key != Key(r) || ForeignService(services, key, r.uid)
    ensures var (services', s) := EnsureService(services, r, calls);
      && (key in services' <==> key in services) && (key in services ==> services'[key] == services[key])
      && (key == Key(r) ==> s != Done)
  {
  }

  lemma SliceLeft(slices: map<string, Slice>, r: Record, ip: string, calls: Calls, key: string)
    requires key != Key(r) || ForeignSlice(slices, key, r.uid)
    ensures var (slices', s) := EnsureSlice(slices, r, ip, calls);
      && (key in slices' <==> key in slices) && (key in slices ==> slices'[key] == slices[key])
      && (key == Key(r) ==> s != Done)
  {
  }

  /** What a reconcile makes of the services and the slices. */
  lemma StepsWrite(env: Env, w: World, r: Record, calls: Calls)
    ensures var p := RunSteps(env, w, r, calls);
      && (p.world.services == w.services
          || exists r1 :: SameObject(r, r1) && p.world.services == EnsureService(w.services, r1, calls).0)
      && (p.world.slices == w.slices
          || exists r1 :: SameObject(r, r1) && p.world.slices == EnsureSlice(w.slices, r1, w.gatewayIP, calls).0)
  {
    var a := EnsurePorts(w.ledger, Key(r), r.status.allocatedPorts, r.spec.ports);
    var w1, r1 := w.(ledger := a.ledger), r.(status := r.status.(allocatedPorts := a.held));
    assert SameObject(r, r1);
    PublishWritesService(env, w1, r1, calls);
    PublishWritesSlice(env, w1, r1, calls);
  }

  predicate SameObject(r: Record, r1: Record) {
    Key(r1) == Key(r) && r1.name == r.name && r1.uid == r.uid
  }

  lemma PublishWritesService(env: Env, w: World, r: Record, calls: Calls)
    ensures PublishSteps(env, w, r, calls).world.services == EnsureService(w.services, r, calls).0
  {
  }

  lemma PublishWritesSlice(env: Env, w: World, r: Record, calls: Calls)
    ensures PublishSteps(env, w, r, calls).world.slices
         == if EnsureService(w.services, r, calls).1 != Done then w.slices
            else EnsureSlice(w.slices, r, w.gatewayIP, calls).0
  {
  }

  lemma TurnLeavesService(env: Env, w: World, r: Record, calls: Calls, key: string)
    requires key in w.services && (key != Key(r) || ForeignService(w.services, key, r.uid))
    ensures var now := ReconcileRecord(env, w, r, calls).world.services; key in now && now[key] == w.services[key]
    ensures var now := Finalize(env, w, r, calls).services; key in now && now[key] == w.services[key]
  {
    StepsWrite(env, w, r, calls);
    forall r1 | SameObject(r, r1)
      ensures var now := EnsureService(w.services, r1, calls).0; key in now && now[key] == w.services[key]
    {
      ServiceLeft(w.services, r1, calls, key);
    }
  }

  lemma TurnLeavesSlice(env: Env, w: World, r: Record, calls: Calls, key: string)
    requires key in w.slices && (key != Key(r) || ForeignSlice(w.slices, key, r.uid))
    ensures var now := ReconcileRecord(env, w, r, calls).world.slices; key in now && now[key] == w.slices[key]
    ensures var now := Finalize(env, w, r, calls).slices; key in now && now[key] == w.slices[key]
  {
    StepsWrite(env, w, r, calls);
    forall r1 | SameObject(r, r1)
      ensures var now := EnsureSlice(w.slices, r1, w.gatewayIP, calls).0; key in now && now[key] == w.slices[key]
    {
      SliceLeft(w.slices, r1, w.gatewayIP, calls, key);
    }
  }

  lemma KeyLeavesService(env: Env, w: World, turn: string, calls: Calls, key: string)
    requires RecordsKept(w) && turn in w.stored && key in w.services
    requires key in w.stored ==> ForeignService(w.services, key, w.stored[key].uid)
    ensures var now := ReconcileKey(env, w, turn, calls).world.services; key in now && now[key] == w.services[key]
  {
    FinalizerKeepsRecords(w, turn, calls);
    TurnLeavesService(env, w, w.stored[turn], calls, key);
    TurnLeavesService(env, FinalizerAdded(w, turn, calls), WithFinalizer(w.stored[turn]), Stale(calls), key);
  }

  lemma KeyLeavesSlice(env: Env, w: World, turn: string, calls: Calls, key: string)
    requires RecordsKept(w) && turn in w.stored && key in w.slices
    requires key in w.stored ==> ForeignSlice(w.slices, key, w.stored[key].uid)
    ensures var now := ReconcileKey(env, w, turn, calls).world.slices; key in now && now[key] == w.slices[key]
  {
    FinalizerKeepsRecords(w, turn, calls);
    TurnLeavesSlice(env, w, w.stored[turn], calls, key);
    TurnLeavesSlice(env, FinalizerAdded(w, turn, calls), WithFinalizer(w.stored[turn]), Stale(calls), key);
  }

  /** Nothing new is stored, and what stays keeps its name and its owner. */
  predicate SameIdentities(stored: map<string, Record>, stored': map<string, Record>) {
    forall k :: k in stored' ==> k in stored && stored'[k].uid == stored[k].uid && stored'[k].name == stored[k].name
  }

  lemma StoredIdentitiesStay(env: Env, w: World, key: string, calls: Calls)
    requires RecordsKept(w) && key in w.stored
    ensures SameIdentities(w.stored, ReconcileKey(env, w, key, calls).world.stored)
  {
    var r := w.stored[key];
    if r.deleting {
      FinalizedIdentitiesStay(env, w, r, calls);
    } else if FINALIZER in r.finalizers {
      ReconciledIdentitiesStay(env, w, r, calls);
    } else {
      FinalizerIdentitiesStay(env, w, key, calls);
    }
  }

  lemma FinalizerIdentitiesStay(env: Env, w: World, key: string, calls: Calls)
    requires RecordsKept(w) && key in w.stored && !w.stored[key].deleting && FINALIZER !in w.stored[key].finalizers
    ensures SameIdentities(w.stored, ReconcileKey(env, w, key, calls).world.stored)
  {
    var w1 := FinalizerAdded(w, key, calls);
    FinalizerKeepsRecords(w, key, calls);
    FinalizerAddedIdentities(w, key, calls);
    if calls.finalizerWrite == Landed {
      var t := ReconcileRecord(env, w1, WithFinalizer(w.stored[key]), Stale(calls));
      ReconciledIdentitiesStay(env, w1, WithFinalizer(w.stored[key]), Stale(calls));
      IdentitiesCompose(w.stored, w1.stored, t.world.stored);
    }
  }

  lemma FinalizerAddedIdentities(w: World, key: string, calls: Calls)
    requires key in w.stored
    ensures SameIdentities(w.stored, FinalizerAdded(w, key, calls).stored)
  {
  }

  lemma IdentitiesCompose(a: map<string, Record>, b: map<string, Record>, c: map<string, Record>)
    requires SameIdentities(a, b) && SameIdentities(b, c)
    ensures SameIdentities(a, c)
  {
  }

  lemma ReconciledIdentitiesStay(env: Env, w: World, r: Record, calls: Calls)
    requires Key(r) in w.stored && w.stored[Key(r)] == r
    ensures SameIdentities(w.stored, ReconcileRecord(env, w, r, calls).world.stored)
  {
    ReconcileRecordStores(env, w, r, calls);
  }

  lemma FinalizedIdentitiesStay(env: Env, w: World, r: Record, calls: Calls)
    ensures SameIdentities(w.stored, Finalize(env, w, r, calls).stored)
  {
    assert Finalize(env, w, r, calls).stored in {w.stored, DropFinalizer(w.stored, r, calls)};
  }

  predicate CreatesOwner(e: Event, key: string, owners: seq<string>) {
    e.Created? && Key(e.r) == key && e.r.uid in owners
  }

  lemma StepLeavesService(env: Env, w: World, e: Event, key: string)
    requires RecordsKept(w) && key in w.services && !CreatesOwner(e, key, w.services[key].owners)
    requires key in w.stored ==> ForeignService(w.services, key, w.stored[key].uid)
    ensures var w' := StepEvent(env, w, e);
      && key in w'.services && w'.services[key] == w.services[key]
      && (key in w'.stored ==> w'.stored[key].uid !in w'.services[key].owners)
  {
    if e.KeyTaken? && e.key in w.stored {
      KeyLeavesService(env, w, e.key, e.calls, key);
      StoredIdentitiesStay(env, w, e.key, e.calls);
    }
  }

  /** A Service that belongs to nobody of that name survives every run unchanged, whatever VirtualServices of the
      same name come and go and whatever becomes of the EndpointSlice. */
  lemma {:induction false} ForeignServiceSurvives(env: Env, w: World, events: seq<Event>, key: string)
    requires RecordsKept(w) && key in w.services
    requires key in w.stored ==> ForeignService(w.services, key, w.stored[key].uid)
    requires forall e :: e in events ==> !CreatesOwner(e, key, w.services[key].owners)
    ensures var now := RunEvents(env, w, events).services; key in now && now[key] == w.services[key]
    decreases |events|
  {
    if events == [] {
    } else {
      assert events[0] in events;
      StepLeavesService(env, w, events[0], key);
      RecordsStayKept(env, w, events[0]);
      ForeignServiceSurvives(env, StepEvent(env, w, events[0]), events[1..], key);
    }
  }

  lemma StepLeavesSlice(env: Env, w: World, e: Event, key: string)
    requires RecordsKept(w) && key in w.slices && !CreatesOwner(e, key, w.slices[key].owners)
    requires key in w.stored ==> ForeignSlice(w.slices, key, w.stored[key].uid)
    ensures var w' := StepEvent(env, w, e);
      && key in w'.slices && w'.slices[key] == w.slices[key]
      && (key in w'.stored ==> w'.stored[key].uid !in w'.slices[key].owners)
  {
    if e.KeyTaken? && e.key in w.stored {
      KeyLeavesSlice(env, w, e.key, e.calls, key);
      StoredIdentitiesStay(env, w, e.key, e.calls);
    }
  }

  /** The same for an EndpointSlice alone. */
  lemma {:induction false} ForeignSliceSurvives(env: Env, w: World, events: seq<Event>, key: string)
    requires RecordsKept(w) && key in w.slices
    requires key in w.stored ==> ForeignSlice(w.slices, key, w.stored[key].uid)
    requires forall e :: e in events ==> !CreatesOwner(e, key, w.slices[key].owners)
    ensures var now := RunEvents(env, w, events).slices; key in now && now[key] == w.slices[key]
    decreases |events|
  {
    if events == [] {
    } else {
      assert events[0] in events;
      StepLeavesSlice(env, w, events[0], key);
      RecordsStayKept(env, w, events[0]);
      ForeignSliceSurvives(env, StepEvent(env, w, events[0]), events[1..], key);
    }
  }
}
