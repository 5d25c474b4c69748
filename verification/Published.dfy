/** What the generated Service and EndpointSlice say, spelled out in the API's own terms, and when a reconcile ends
    with which reason. */
module Published {
  import opened Wrappers
  import opened HAProxy
  import opened Gateway
  import opened GatewayRuns
  import Names
  import PortAlloc
  import GatewayAccounts

  // ---- the gateway ports ----

  /** The allocation is for this spec port: the same name, number and target. */
  predicate IsFor(a: AllocatedPort, p: PortSpec) {
    a.name == p.name && a.servicePort == p.port && a.targetPort == p.targetPort
  }

  /** The recorded ports fit the spec: as many as it has, and one for each. */
  predicate Fit(held: seq<AllocatedPort>, ports: seq<PortSpec>) {
    |held| == |ports| && forall p :: p in ports ==> exists a :: a in held && IsFor(a, p)
  }

  lemma FitIsMatches(held: seq<AllocatedPort>, ports: seq<PortSpec>)
    ensures Fit(held, ports) <==> Matches(held, ports)
  {
    if Fit(held, ports) {
      forall i | 0 <= i < |ports| ensures FoundIn(ports[i], held) {
        assert ports[i] in ports;
        var a :| a in held && IsFor(a, ports[i]);
        var j :| 0 <= j < |held| && held[j] == a;
        assert Allocates(held[j], ports[i]);
      }
    }
    if Matches(held, ports) {
      forall p | p in ports ensures exists a :: a in held && IsFor(a, p) {
        var i :| 0 <= i < |ports| && ports[i] == p;
        assert FoundIn(ports[i], held);
        var j :| 0 <= j < |held| && Allocates(held[j], ports[i]);
        assert held[j] in held && IsFor(held[j], p);
      }
    }
  }

  /** Each spec port in turn has one of `ps`, with its protocol or else TCP. */
  predicate Assigned(held: seq<AllocatedPort>, ports: seq<PortSpec>, ps: seq<int>) {
    && |held| == |ports| == |ps|
    && forall i :: 0 <= i < |ports| ==>
         && IsFor(held[i], ports[i]) && held[i].gatewayPort == ps[i]
         && held[i].protocol == if ports[i].protocol == "" then "TCP" else ports[i].protocol
  }

  ghost predicate AssignedLowest(held: seq<AllocatedPort>, ports: seq<PortSpec>, free: set<int>) {
    exists ps :: PortAlloc.LowestOf(free, ps, |ports|) && Assigned(held, ports, ps)
  }

  /** Ports that fit are kept. Otherwise the recorded ones are given back, and the spec ports in turn get the lowest
      ports that are free then; if these are too few, the old record is kept. */
  lemma AllocationExactly(l: PortAlloc.Ledger, key: string, held: seq<AllocatedPort>, ports: seq<PortSpec>)
    requires PortAlloc.Consistent(l)
    ensures var a := EnsurePorts(l, key, held, ports);
      var free := PortAlloc.FreePorts(PortAlloc.ReleasedMany(l, key, GatewayPorts(held)));
      if Fit(held, ports) then a == Allocation(l, held, true)
      else if |ports| <= |free| then a.ok && AssignedLowest(a.held, ports, free)
      else !a.ok && a.held == held
  {
    FitIsMatches(held, ports);
    if !Matches(held, ports) {
      var l1 := PortAlloc.ReleasedMany(l, key, GatewayPorts(held));
      PortAlloc.ReleasedManyConsistent(l, key, GatewayPorts(held));
      PortAlloc.ClaimEachTakesLowest(l1, key, |ports|);
      var ps := PortAlloc.ClaimEach(l1, key, |ports|);
      if ps.Some? { assert Assigned(Assignments(ports, ps.value), ports, ps.value); }
    }
  }

  // ---- the Service ----

  predicate FirstWith(ports: seq<PortSpec>, number: int, i: int) {
    && 0 <= i < |ports| && ports[i].port == number
    && forall j :: 0 <= j < i ==> ports[j].port != number
  }

  /** The first spec port with the number decides the node port; nothing or a non-positive one leaves it open. */
  ghost predicate NodePortAsked(ports: seq<PortSpec>, number: int, nodePort: int) {
    && (forall i :: FirstWith(ports, number, i) ==> nodePort == if ports[i].nodePort > 0 then ports[i].nodePort else 0)
    && ((forall i :: !FirstWith(ports, number, i)) ==> nodePort == 0)
  }

  /** The Service port of one allocation: its target is the gateway port. */
  ghost predicate PortAsked(p: ServicePort, a: AllocatedPort, spec: Spec) {
    && p.name == a.name && p.port == a.servicePort && p.targetPort == a.gatewayPort
    && p.protocol == (if a.protocol == "" then "TCP" else a.protocol)
    && if spec.kind == "NodePort" then NodePortAsked(spec.ports, a.servicePort, p.nodePort) else p.nodePort == 0
  }

  ghost predicate ServiceAsked(s: Service, r: Record) {
    && s.kind == (if r.spec.kind == "NodePort" then "NodePort" else "ClusterIP")
    && s.labels
       == map["anex.sh/managed-by" := "virtualservice-controller", "anex.sh/owner-virtualservice" := r.name]
    && |s.ports| == |r.status.allocatedPorts|
    && forall i :: 0 <= i < |s.ports| ==> PortAsked(s.ports[i], r.status.allocatedPorts[i], r.spec)
  }

  /** Nothing of it would change; of the cluster addresses only "None" counts. */
  ghost predicate ServiceCurrent(services: map<string, Service>, r: Record) {
    var key := r.namespace + "/" + r.name;
    && key in services && ServiceAsked(services[key], r)
    && (services[key].kind == "ClusterIP" ==> services[key].clusterIP == "None")
  }

  /** There is none, or one that names this owner. */
  predicate ServiceIsOurs(services: map<string, Service>, r: Record) {
    var key := r.namespace + "/" + r.name;
    key in services ==> r.uid in services[key].owners
  }

  ghost predicate ServiceEnsured(services: map<string, Service>, r: Record, calls: Calls) {
    && calls.serviceAnswers && ServiceIsOurs(services, r)
    && (ServiceCurrent(services, r) || calls.serviceWrite == Landed)
  }

  ghost predicate ServiceConflicts(services: map<string, Service>, r: Record, calls: Calls) {
    && calls.serviceAnswers
    && (!ServiceIsOurs(services, r) || (!ServiceCurrent(services, r) && calls.serviceWrite == Exists))
  }

  lemma {:induction false} NodePortForIsFirst(ports: seq<PortSpec>, number: int, nodePort: int)
    ensures NodePortAsked(ports, number, nodePort) <==> nodePort == NodePortFor(ports, number)
  {
    if ports == [] {
    } else if ports[0].port == number {
      assert FirstWith(ports, number, 0);
      assert forall i :: FirstWith(ports, number, i) ==> i == 0;
    } else {
      NodePortForIsFirst(ports[1..], number, nodePort);
      assert forall i :: FirstWith(ports, number, i) ==> FirstWith(ports[1..], number, i - 1);
      assert forall i :: FirstWith(ports[1..], number, i) ==> FirstWith(ports, number, i + 1);
    }
  }

  lemma PortAskedIs(p: ServicePort, r: Record, i: nat)
    requires i < |r.status.allocatedPorts|
    ensures PortAsked(p, r.status.allocatedPorts[i], r.spec) <==> p == ServicePorts(r)[i]
  {
    NodePortForIsFirst(r.spec.ports, r.status.allocatedPorts[i].servicePort, p.nodePort);
  }

  lemma ServiceAskedIs(s: Service, r: Record)
    ensures ServiceAsked(s, r)
      <==> s.kind == ServiceKind(r) && s.labels == GeneratedLabels(r) && s.ports == ServicePorts(r)
  {
    forall i | 0 <= i < |s.ports| && |s.ports| == |r.status.allocatedPorts|
      ensures PortAsked(s.ports[i], r.status.allocatedPorts[i], r.spec) <==> s.ports[i] == ServicePorts(r)[i]
    {
      PortAskedIs(s.ports[i], r, i);
    }
  }

  /** When ensuring the Service succeeds and when it is a conflict; and what is stored afterwards: a write that lands,
      reported or not, leaves a Service without selector as asked for, with the owners and the cluster address of the
      one before or, for a new one, this owner and the address given. */
  lemma ServiceExactly(services: map<string, Service>, r: Record, calls: Calls)
    ensures var (services', step) := EnsureService(services, r, calls);
      var key := r.namespace + "/" + r.name;
      && (step == Done <==> ServiceEnsured(services, r, calls))
      && (step == Conflict <==> ServiceConflicts(services, r, calls))
      && (if calls.serviceAnswers && ServiceIsOurs(services, r) && !ServiceCurrent(services, r)
             && (calls.serviceWrite == Landed || calls.serviceWrite == Lost)
          then key in services' && services' == services[key := services'[key]]
               && ServiceAsked(services'[key], r) && services'[key].selector == map[]
               && services'[key].owners == (if key in services then services[key].owners else [r.uid])
               && services'[key].clusterIP == (if key in services then services[key].clusterIP else calls.clusterIP)
          else services' == services)
  {
    var key := Key(r);
    if key in services { ServiceAskedIs(services[key], r); }
    var services' := EnsureService(services, r, calls).0;
    if key in services' { ServiceAskedIs(services'[key], r); }
  }

  /** After success the Service is there as asked for. */
  lemma ServiceDone(services: map<string, Service>, r: Record, calls: Calls)
    requires EnsureService(services, r, calls).1 == Done
    ensures var services' := EnsureService(services, r, calls).0;
      var key := r.namespace + "/" + r.name;
      && key in services' && r.uid in services'[key].owners && ServiceAsked(services'[key], r)
      && (ServiceCurrent(services, r) || services'[key].selector == map[])
      && services' - {key} == services - {key}
  {
    ServiceExactly(services, r, calls);
  }

  // ---- the EndpointSlice ----

  /** Kubernetes takes the slice for one of the Service of this name. */
  predicate IsLabelled(slice: Slice, name: string) {
    "kubernetes.io/service-name" in slice.labels && slice.labels["kubernetes.io/service-name"] == name
  }

  /** The gateway is the only endpoint, and the ports are the gateway ports under the names of the allocations. */
  predicate SliceLeads(s: Slice, held: seq<AllocatedPort>, gatewayIP: string) {
    && s.addresses == [gatewayIP] && |s.ports| == |held|
    && forall i :: 0 <= i < |held| ==> s.ports[i].name == held[i].name && s.ports[i].port == held[i].gatewayPort
  }

  predicate SliceCurrent(slices: map<string, Slice>, r: Record, gatewayIP: string) {
    var key := r.namespace + "/" + r.name;
    key in slices && SliceLeads(slices[key], r.status.allocatedPorts, gatewayIP)
  }

  predicate SliceIsOurs(slices: map<string, Slice>, r: Record) {
    var key := r.namespace + "/" + r.name;
    key in slices ==> r.uid in slices[key].owners
  }

  predicate SliceEnsured(slices: map<string, Slice>, r: Record, gatewayIP: string, calls: Calls) {
    && calls.sliceAnswers && SliceIsOurs(slices, r)
    && (SliceCurrent(slices, r, gatewayIP) || calls.sliceWrite == Landed)
  }

  predicate SliceConflicts(slices: map<string, Slice>, r: Record, gatewayIP: string, calls: Calls) {
    && calls.sliceAnswers
    && (!SliceIsOurs(slices, r) || (!SliceCurrent(slices, r, gatewayIP) && calls.sliceWrite == Exists))
  }

  lemma SliceLeadsIs(s: Slice, held: seq<AllocatedPort>, gatewayIP: string)
    ensures SliceLeads(s, held, gatewayIP) <==> s.addresses == [gatewayIP] && s.ports == SlicePorts(held)
  {
    if SliceLeads(s, held, gatewayIP) {
      assert forall i :: 0 <= i < |held| ==> s.ports[i] == SlicePorts(held)[i];
    }
  }

  /** The same for the EndpointSlice: a write that lands leaves one that leads to the gateway, with these labels. */
  lemma SliceExactly(slices: map<string, Slice>, r: Record, gatewayIP: string, calls: Calls)
    ensures var (slices', step) := EnsureSlice(slices, r, gatewayIP, calls);
      var key := r.namespace + "/" + r.name;
      && (step == Done <==> SliceEnsured(slices, r, gatewayIP, calls))
      && (step == Conflict <==> SliceConflicts(slices, r, gatewayIP, calls))
      && (if calls.sliceAnswers && SliceIsOurs(slices, r) && !SliceCurrent(slices, r, gatewayIP)
             && (calls.sliceWrite == Landed || calls.sliceWrite == Lost)
          then key in slices' && slices' == slices[key := slices'[key]]
               && SliceLeads(slices'[key], r.status.allocatedPorts, gatewayIP)
               && slices'[key].labels == map["kubernetes.io/service-name" := r.name,
                                             "anex.sh/managed-by" := "virtualservice-controller",
                                             "anex.sh/owner-virtualservice" := r.name]
               && slices'[key].owners == (if key in slices then slices[key].owners else [r.uid])
          else slices' == slices)
  {
    var key := Key(r);
    if key in slices { SliceLeadsIs(slices[key], r.status.allocatedPorts, gatewayIP); }
    var slices' := EnsureSlice(slices, r, gatewayIP, calls).0;
    if key in slices' { SliceLeadsIs(slices'[key], r.status.allocatedPorts, gatewayIP); }
  }

  /** The label of a slice is repaired only together with its address or its ports. */
  predicate SliceFound(slices: map<string, Slice>, r: Record, gatewayIP: string) {
    SliceCurrent(slices, r, gatewayIP) ==> IsLabelled(slices[r.namespace + "/" + r.name], r.name)
  }

  /** After success the EndpointSlice leads to the gateway; it is one of the Service exactly when an older one that
      already led there was. */
  lemma SliceDone(slices: map<string, Slice>, r: Record, gatewayIP: string, calls: Calls)
    requires EnsureSlice(slices, r, gatewayIP, calls).1 == Done
    ensures var slices' := EnsureSlice(slices, r, gatewayIP, calls).0;
      var key := r.namespace + "/" + r.name;
      && key in slices' && r.uid in slices'[key].owners
      && SliceLeads(slices'[key], r.status.allocatedPorts, gatewayIP)
      && (IsLabelled(slices'[key], r.name) <==> SliceFound(slices, r, gatewayIP))
      && slices' - {key} == slices - {key}
  {
    SliceExactly(slices, r, gatewayIP, calls);
  }

  // ---- the finalizer ----

  /** A turn that finds no finalizer adds it behind the others, if that write is done, and stores nothing else: its
      status write is refused. Unless the write was reported as done, nothing else happens in the turn. */
  lemma FinalizerExactly(env: Env, w: World, key: string, calls: Calls)
    requires RecordsKept(w) && key in w.stored && !w.stored[key].deleting
    requires "anex.sh/virtualservice-finalizer" !in w.stored[key].finalizers
    ensures var t, r := ReconcileKey(env, w, key, calls), w.stored[key];
      var added := r.(finalizers := r.finalizers + ["anex.sh/virtualservice-finalizer"]);
      && t.world.stored == (if calls.finalizerWrite in {Landed, Lost} then w.stored[key := added] else w.stored)
      && (calls.finalizerWrite != Landed ==> t.world == w.(stored := t.world.stored) && !t.wrote)
  {
    var w1 := FinalizerAdded(w, key, calls);
    FinalizerKeepsRecords(w, key, calls);
    if calls.finalizerWrite == Landed {
      ReconcileRecordStores(env, w1, WithFinalizer(w.stored[key]), Stale(calls));
    }
  }

  // ---- removal ----

  /** A finalization deletes the Service exactly if the lookup is answered, the Service names this owner, and the
      deletion is done; the same for the EndpointSlice; the record goes, or loses the finalizer, exactly if that write
      is done. Nothing else is deleted or changed. */
  lemma FinalizationExactly(env: Env, w: World, r: Record, calls: Calls)
    requires RecordsKept(w) && Key(r) in w.stored && w.stored[Key(r)] == r
    requires "anex.sh/virtualservice-finalizer" in r.finalizers
    ensures var w' := Finalize(env, w, r, calls);
      var key := r.namespace + "/" + r.name;
      && w'.services == (if calls.serviceAnswers && key in w.services && r.uid in w.services[key].owners
                            && calls.serviceDelete in {Landed, Lost}
                         then w.services - {key} else w.services)
      && w'.slices == (if calls.sliceAnswers && key in w.slices && r.uid in w.slices[key].owners
                          && calls.sliceDelete in {Landed, Lost}
                       then w.slices - {key} else w.slices)
      && w'.stored - {key} == w.stored - {key}
      && (calls.finalizerWrite !in {Landed, Lost} ==> w'.stored == w.stored)
      && (calls.finalizerWrite in {Landed, Lost} ==>
            && (key in w'.stored
                ==> "anex.sh/virtualservice-finalizer" !in w'.stored[key].finalizers
                    && w'.stored[key] == r.(finalizers := w'.stored[key].finalizers))
            && (key in w'.stored <==> exists f :: f in r.finalizers && f != "anex.sh/virtualservice-finalizer"))
  {
    var left := RemoveString(r.finalizers, FINALIZER);
    GatewayAccounts.RemoveStringRemoves(r.finalizers, FINALIZER);
    assert left != [] ==> left[0] in left;
  }

  // ---- the reason ----

  predicate Supported(p: PortSpec) {
    p.protocol in {"", "TCP"} && 1 <= p.port <= 65535 && 1 <= p.targetPort <= 65535
  }

  predicate AllSupported(spec: Spec) {
    forall p :: p in spec.ports ==> Supported(p)
  }

  lemma SupportedIsValid(spec: Spec)
    ensures AllSupported(spec) <==> ValidSpec(spec)
  {
    if AllSupported(spec) {
      forall i | 0 <= i < |spec.ports| ensures ValidPort(spec.ports[i]) { assert Supported(spec.ports[i]); }
    }
    if ValidSpec(spec) {
      forall p | p in spec.ports ensures Supported(p) {
        var i :| 0 <= i < |spec.ports| && spec.ports[i] == p;
        assert ValidPort(spec.ports[i]);
      }
    }
  }

  /** The recorded ports do not fit the spec, and too few are free once they are given back. */
  predicate Exhausted(w: World, r: Record) {
    && !Fit(r.status.allocatedPorts, r.spec.ports)
    && |r.spec.ports|
       > |PortAlloc.FreePorts(PortAlloc.ReleasedMany(w.ledger, Key(r), GatewayPorts(r.status.allocatedPorts)))|
  }

  function WithPorts(r: Record, held: seq<AllocatedPort>): Record {
    r.(status := r.status.(allocatedPorts := held))
  }

  lemma PublicationReason(env: Env, w: World, r: Record, calls: Calls)
    ensures var reason := PublishSteps(env, w, r, calls).reason;
      var configs := ListenersFor(Key(r), r.status.allocatedPorts,
                                  MatchingPods(w.pods, calls.podOrder, r.namespace, r.spec.selector));
      && reason in {ServiceConflict, ReconcileError, Reconciled}
      && (reason == ServiceConflict
          <==> || ServiceConflicts(w.services, r, calls)
               || (ServiceEnsured(w.services, r, calls) && SliceConflicts(w.slices, r, w.gatewayIP, calls)))
      && (reason == Reconciled
          <==> && ServiceEnsured(w.services, r, calls) && SliceEnsured(w.slices, r, w.gatewayIP, calls)
               && Apply(env, w.api, configs).1)
  {
    ServiceExactly(w.services, r, calls);
    SliceExactly(w.slices, r, w.gatewayIP, calls);
  }

  /** The reason in terms of what the turn finds: an unsupported port, a range without enough free ports, a foreign
      object in the way or a write refused because the object exists, and success. Everything else is a
      ReconcileError. */
  lemma ReasonExactly(env: Env, w: World, r: Record, calls: Calls)
    requires PortAlloc.Consistent(w.ledger)
    ensures var reason := RunSteps(env, w, r, calls).reason;
      var r1 := WithPorts(r, HeldAfter(w, r));
      var configs := ListenersFor(Key(r), r1.status.allocatedPorts,
                                  MatchingPods(w.pods, calls.podOrder, r.namespace, r.spec.selector));
      && reason in {UnsupportedSpec, PortAllocationErr, ServiceConflict, ReconcileError, Reconciled}
      && (reason == UnsupportedSpec <==> !AllSupported(r.spec))
      && (reason == PortAllocationErr <==> AllSupported(r.spec) && Exhausted(w, r))
      && (reason == ServiceConflict
          <==> && AllSupported(r.spec) && !Exhausted(w, r)
               && (|| ServiceConflicts(w.services, r1, calls)
                   || (ServiceEnsured(w.services, r1, calls) && SliceConflicts(w.slices, r1, w.gatewayIP, calls))))
      && (reason == Reconciled
          <==> && AllSupported(r.spec) && !Exhausted(w, r)
               && ServiceEnsured(w.services, r1, calls) && SliceEnsured(w.slices, r1, w.gatewayIP, calls)
               && Apply(env, w.api, configs).1)
  {
    SupportedIsValid(r.spec);
    FitIsMatches(r.status.allocatedPorts, r.spec.ports);
    GatewayAccounts.EnsurePortsOwners(w.ledger, Key(r), r.status.allocatedPorts, r.spec.ports);
    EnsuredPortsMatch(w.ledger, Key(r), r.status.allocatedPorts, r.spec.ports);
    var a := EnsurePorts(w.ledger, Key(r), r.status.allocatedPorts, r.spec.ports);
    PublicationReason(env, w.(ledger := a.ledger), WithPorts(r, a.held), calls);
  }

  // ---- labels over runs ----

  /** The stored services go by the names in their keys, and so does every slice by its label. */
  predicate Labelled(w: World) {
    GoByName(w.stored) && AllLabelled(w.slices)
  }

  predicate GoByName(stored: map<string, Record>) {
    forall k :: k in stored ==> stored[k].name == Names.NameIn(k)
  }

  predicate AllLabelled(slices: map<string, Slice>) {
    forall k :: k in slices ==> IsLabelled(slices[k], Names.NameIn(k))
  }

  /** As the API server has it: no slash in a namespace. */
  predicate NamedProperly(e: Event) {
    e.Created? ==> '/' !in e.r.namespace
  }

  lemma SliceStaysLabelled(slices: map<string, Slice>, r: Record, gatewayIP: string, calls: Calls)
    requires AllLabelled(slices) && Names.NameIn(Key(r)) == r.name
    ensures AllLabelled(EnsureSlice(slices, r, gatewayIP, calls).0)
  {
    SliceExactly(slices, r, gatewayIP, calls);
  }

  lemma TurnStaysLabelled(env: Env, w: World, r: Record, calls: Calls)
    requires AllLabelled(w.slices) && Names.NameIn(Key(r)) == r.name
    ensures AllLabelled(ReconcileRecord(env, w, r, calls).world.slices)
    ensures AllLabelled(Finalize(env, w, r, calls).slices)
  {
    StepsWrite(env, w, r, calls);
    forall r1 | SameObject(r, r1) ensures AllLabelled(EnsureSlice(w.slices, r1, w.gatewayIP, calls).0) {
      SliceStaysLabelled(w.slices, r1, w.gatewayIP, calls);
    }
  }

  lemma KeyStaysLabelled(env: Env, w: World, key: string, calls: Calls)
    requires RecordsKept(w) && Labelled(w) && key in w.stored
    ensures AllLabelled(ReconcileKey(env, w, key, calls).world.slices)
  {
    FinalizerKeepsRecords(w, key, calls);
    TurnStaysLabelled(env, w, w.stored[key], calls);
    TurnStaysLabelled(env, FinalizerAdded(w, key, calls), WithFinalizer(w.stored[key]), Stale(calls));
  }

  lemma NamesStay(stored: map<string, Record>, stored': map<string, Record>)
    requires GoByName(stored) && SameIdentities(stored, stored')
    ensures GoByName(stored')
  {
  }

  lemma TakenStaysLabelled(env: Env, w: World, key: string, calls: Calls)
    requires RecordsKept(w) && Labelled(w) && key in w.stored
    ensures Labelled(ReconcileKey(env, w, key, calls).world)
  {
    KeyStaysLabelled(env, w, key, calls);
    StoredIdentitiesStay(env, w, key, calls);
    NamesStay(w.stored, ReconcileKey(env, w, key, calls).world.stored);
  }

  lemma CreatedStaysLabelled(env: Env, w: World, r: Record)
    requires GoByName(w.stored) && '/' !in r.namespace
    ensures GoByName(StepEvent(env, w, Created(r)).stored)
  {
    Names.NameInKey(r.namespace, r.name);
  }

  lemma EditStaysLabelled(env: Env, w: World, key: string, spec: Spec)
    requires GoByName(w.stored)
    ensures GoByName(StepEvent(env, w, SpecEdited(key, spec)).stored)
  {
  }

  lemma DeletionStaysLabelled(env: Env, w: World, key: string)
    requires GoByName(w.stored)
    ensures GoByName(StepEvent(env, w, DeletionRequested(key)).stored)
  {
    if key in w.stored && w.stored[key].finalizers != [] {
      assert w.stored[key].(deleting := true).name == w.stored[key].name;
    }
  }

  lemma StepStaysLabelled(env: Env, w: World, e: Event)
    requires RecordsKept(w) && Labelled(w) && NamedProperly(e)
    ensures Labelled(StepEvent(env, w, e))
  {
    match e
    case KeyTaken(key, calls) => if key in w.stored { TakenStaysLabelled(env, w, key, calls); }
    case Created(r) => CreatedStaysLabelled(env, w, r);
    case SpecEdited(key, spec) => EditStaysLabelled(env, w, key, spec);
    case DeletionRequested(key) => DeletionStaysLabelled(env, w, key);
    case _ =>
  }

  /** Over every run, with any failing calls: when no slice is without its label at the start, none ever is, and a
      successful turn leaves its slice with the label. */
  lemma {:induction false} RunStaysLabelled(env: Env, w: World, events: seq<Event>)
    requires RecordsKept(w) && Labelled(w) && forall e :: e in events ==> NamedProperly(e)
    ensures Labelled(RunEvents(env, w, events))
    decreases |events|
  {
    if events == [] {
    } else {
      StepStaysLabelled(env, w, events[0]);
      RecordsStayKept(env, w, events[0]);
      RunStaysLabelled(env, StepEvent(env, w, events[0]), events[1..]);
    }
  }

  /** The slice that the next turn of the service finds, with the ports that the turn will hold. */
  predicate SliceIsFound(w: World, r: Record) {
    SliceFound(w.slices, WithPorts(r, HeldAfter(w, r)), w.gatewayIP)
  }

  lemma LabelledIsFound(w: World, key: string)
    requires RecordsKept(w) && Labelled(w) && key in w.stored
    ensures SliceIsFound(w, w.stored[key])
  {
    assert Key(w.stored[key]) == key;
  }

  /** So in a cluster that had no EndpointSlices, every slice of every service is always found. */
  lemma FreshRunFindsSlices(env: Env, w: World, events: seq<Event>, key: string)
    requires FreshWorld(w) && w.slices == map[] && forall e :: e in events ==> NamedProperly(e)
    ensures var w' := RunEvents(env, w, events);
      && (forall k :: k in w'.slices ==> IsLabelled(w'.slices[k], Names.NameIn(k)))
      && (key in w'.stored ==> w'.stored[key].name == Names.NameIn(key) && SliceIsFound(w', w'.stored[key]))
  {
    var w' := RunEvents(env, w, events);
    RunStaysLabelled(env, w, events);
    RecordsKeptOverRun(env, w, events);
    if key in w'.stored { LabelledIsFound(w', key); }
  }
}
