/** Runs from an empty cluster that leave a listener behind, and where it then leads. */
module StaleListeners {
  import opened Wrappers
  import opened PortAlloc
  import opened HAProxy
  import opened Gateway
  import opened GatewayRuns
  import opened Routing
  import Names
  import HAProxySafety
  import GatewayAccounts
  import GatewayLeaks
  import GatewayIdempotence
  import GatewayFrontends
  import Published

  // ---- a stale listener ----

  ghost predicate ListenerLeads(cfg: Config, net: map<string, RunningPod>, f: string, g: int, podKey: string,
                                port: int) {
    exists s :: ListensOn(cfg, f, g) && ServerBehind(cfg, f, s) && TunnelLeads(net, s, podKey, port)
  }

  /** All published objects are this service's. */
  predicate OwnOnly(w: World, key: string, uid: string) {
    && (forall k :: k in w.services ==> k == key && uid in w.services[k].owners)
    && (forall k :: k in w.slices ==> k == key && uid in w.slices[k].owners)
  }

  lemma TurnKeepsOwn(env: Env, w: World, r: Record, calls: Calls)
    requires OwnOnly(w, Key(r), r.uid)
    ensures OwnOnly(ReconcileRecord(env, w, r, calls).world, Key(r), r.uid)
  {
    StepsWrite(env, w, r, calls);
    forall r1 | SameObject(r, r1)
      ensures var now := EnsureService(w.services, r1, calls).0;
        forall k :: k in now ==> k == Key(r) && r.uid in now[k].owners
    {
      ServiceKeepsOwn(w.services, r1, calls);
    }
    forall r1 | SameObject(r, r1)
      ensures var now := EnsureSlice(w.slices, r1, w.gatewayIP, calls).0;
        forall k :: k in now ==> k == Key(r) && r.uid in now[k].owners
    {
      SliceKeepsOwn(w.slices, r1, w.gatewayIP, calls);
    }
    StatusWriteKeepsRest(env, w, r, calls);
  }

  lemma ServiceKeepsOwn(services: map<string, Service>, r: Record, calls: Calls)
    requires forall k :: k in services ==> k == Key(r) && r.uid in services[k].owners
    ensures var now := EnsureService(services, r, calls).0;
      forall k :: k in now ==> k == Key(r) && r.uid in now[k].owners
  {
  }

  lemma SliceKeepsOwn(slices: map<string, Slice>, r: Record, ip: string, calls: Calls)
    requires forall k :: k in slices ==> k == Key(r) && r.uid in slices[k].owners
    ensures var now := EnsureSlice(slices, r, ip, calls).0;
      forall k :: k in now ==> k == Key(r) && r.uid in now[k].owners
  {
  }

  /** A single port takes the lowest free one, whoever asks. */
  lemma OnePortAllocated(l: Ledger, key: string, held: seq<AllocatedPort>, ports: seq<PortSpec>)
    requires Consistent(l) && FreePorts(l) != {} && held == [] && |ports| == 1
    ensures var p := FirstFree(l, l.lo);
      && p.Some? && p.value in FreePorts(l)
      && EnsurePorts(l, key, held, ports)
        == Allocation(Claimed(l, key, [p.value]), [Assignment(ports[0], p.value)], true)
  {
    FirstFreeIsLeast(l, l.lo);
    var p := FirstFree(l, l.lo).value;
    assert GatewayPorts(held) == [];
    assert ClaimEach(Claimed(l, key, [p]), key, 0) == Some([]);
    assert ClaimEach(l, key, 1) == Some([p]) by { assert [p] + [] == [p]; }
    assert Assignments(ports, [p]) == [Assignment(ports[0], p)];
  }

  /** A listener on the lowest free port leads to a pod; so will the next service that asks for one port. */
  ghost predicate StaleAt(w: World, net: map<string, RunningPod>, f: string, podKey: string, port: int) {
    && Consistent(w.ledger) && FreePorts(w.ledger) != {} && FirstFree(w.ledger, w.ledger.lo).Some?
    && ListenerLeads(w.api.committed, net, f, FirstFree(w.ledger, w.ledger.lo).value, podKey, port)
  }

  lemma NextServiceMisroutes(env: Env, w: World, cached: map<string, RunningPod>, net: map<string, RunningPod>,
                             b: Record, calls: Calls, bp: PortSpec, f: string, podKey: string, port: int)
    requires Lawful(env) && HAProxySafety.AllServed(env) && GatewayIdempotence.Answered(calls)
    requires calls.finalizerWrite == Landed
    requires RecordsKept(w) && GatewayAccounts.PortsSound(w) && Managed(w.api.committed)
    requires StaleAt(w, net, f, podKey, port)
    requires GatewayLeaks.New(b) && OnePort(b, bp) && f != GatewayFrontends.FrontendOf(Key(b), bp.port)
    requires Key(b) !in w.stored && Key(b) !in w.services && Key(b) !in w.slices
    requires PodsOnline(w, cached, net, b, calls, bp.targetPort)
    ensures Reaches(StepEvent(env, StepEvent(env, w, Created(b)), KeyTaken(Key(b), calls)), net, Key(b), bp.port,
                    podKey, port)
  {
    CreatedOutside(env, w, b);
    RecordsStayKept(env, w, Created(b));
    GatewayAccounts.StepStaysSound(env, w, Created(b));
    StaleTurnMisroutes(env, StepEvent(env, w, Created(b)), cached, net, b, calls, bp, f, podKey, port);
  }

  lemma TurnIsEvent(env: Env, w: World, key: string, calls: Calls)
    ensures StepEvent(env, w, KeyTaken(key, calls)) == ReconcileKey(env, w, key, calls).world
  {
  }

  lemma CreatedOutside(env: Env, w: World, b: Record)
    requires Key(b) !in w.stored && GatewayLeaks.New(b)
    ensures StepEvent(env, w, Created(b)) == w.(stored := w.stored[Key(b) := b])
  {
  }

  lemma StaleTurnMisroutes(env: Env, w: World, cached: map<string, RunningPod>, net: map<string, RunningPod>, b: Record,
                           calls: Calls, bp: PortSpec, f: string, podKey: string, port: int)
    requires Lawful(env) && HAProxySafety.AllServed(env) && GatewayIdempotence.Answered(calls)
    requires calls.finalizerWrite == Landed
    requires RecordsKept(w) && GatewayAccounts.PortsSound(w) && Managed(w.api.committed)
    requires StaleAt(w, net, f, podKey, port)
    requires GatewayLeaks.New(b) && OnePort(b, bp) && f != GatewayFrontends.FrontendOf(Key(b), bp.port)
    requires Key(b) in w.stored && w.stored[Key(b)] == b && Key(b) !in w.services && Key(b) !in w.slices
    requires PodsOnline(w, cached, net, b, calls, bp.targetPort)
    ensures Reaches(StepEvent(env, w, KeyTaken(Key(b), calls)), net, Key(b), bp.port, podKey, port)
  {
    TurnIsEvent(env, w, Key(b), calls);
    OnePortAllocated(w.ledger, Key(b), b.status.allocatedPorts, b.spec.ports);
    NextTurnSucceeds(env, w, b, calls);
    NextIsForeign(w, net, b, calls, bp, f, podKey, port);
    TurnRoutesExactly(env, w, cached, net, Key(b), calls, bp, podKey, port);
  }

  lemma NextTurnSucceeds(env: Env, w: World, b: Record, calls: Calls)
    requires Lawful(env) && HAProxySafety.AllServed(env) && GatewayIdempotence.Answered(calls)
    requires ValidSpec(b.spec) && EnsurePorts(w.ledger, Key(b), b.status.allocatedPorts, b.spec.ports).ok
    requires Key(b) !in w.services && Key(b) !in w.slices
    ensures RunSteps(env, w, b, calls).reason == Reconciled
  {
    var a := EnsurePorts(w.ledger, Key(b), b.status.allocatedPorts, b.spec.ports);
    GatewayIdempotence.CalmPublishDecides(env, w.(ledger := a.ledger),
                                          b.(status := b.status.(allocatedPorts := a.held)), calls);
  }

  lemma NextIsForeign(w: World, net: map<string, RunningPod>, b: Record, calls: Calls, bp: PortSpec, f: string,
                      podKey: string, port: int)
    requires StaleAt(w, net, f, podKey, port) && GatewayLeaks.New(b) && OnePort(b, bp)
    requires f != GatewayFrontends.FrontendOf(Key(b), bp.port)
    ensures ForeignRoute(w, net, HeldAfter(w, b), ConfigsOf(w, b, calls), bp, podKey, port)
  {
    var p := FirstFree(w.ledger, w.ledger.lo).value;
    OnePortAllocated(w.ledger, Key(b), b.status.allocatedPorts, b.spec.ports);
    var held, configs := HeldAfter(w, b), ConfigsOf(w, b, calls);
    assert held == [Assignment(bp, p)] && Allocates(held[0], bp) && held[0].gatewayPort == p;
    assert configs[0].name == Names.ListenerName(Key(b), bp.port);
    assert f !in HAProxySafety.FrontendNames(configs);
    var s :| ListensOn(w.api.committed, f, p) && ServerBehind(w.api.committed, f, s)
      && TunnelLeads(net, s, podKey, port);
    assert ForeignServer(w.api.committed, configs, held[0].gatewayPort, s);
  }

  lemma FirstTurnOutside(env: Env, w: World, o: Record, calls: Calls)
    requires Lawful(env) && FreshWorld(w) && w.api.committed == Config(map[], map[]) && w.services == map[]
    requires w.slices == map[]
    requires GatewayLeaks.New(o) && calls.finalizerWrite == Landed
    ensures var w2 := GatewayLeaks.AfterFirst(env, w, o, calls);
      Managed(w2.api.committed) && OwnOnly(w2, Key(o), o.uid) && w2.pods == w.pods
  {
    var w1 := w.(stored := map[Key(o) := o]);
    FirstTurnIs(env, w, o, calls);
    ReconcileStaysManaged(env, FinalizerAdded(w1, Key(o), calls), WithFinalizer(o), Stale(calls));
    TurnKeepsOwn(env, FinalizerAdded(w1, Key(o), calls), WithFinalizer(o), Stale(calls));
    TurnKeepsPods(env, FinalizerAdded(w1, Key(o), calls), WithFinalizer(o), Stale(calls));
  }

  lemma FirstTurnIs(env: Env, w: World, o: Record, calls: Calls)
    requires FreshWorld(w) && GatewayLeaks.New(o) && calls.finalizerWrite == Landed
    ensures var w1 := w.(stored := map[Key(o) := o]);
      GatewayLeaks.AfterFirst(env, w, o, calls)
      == ReconcileRecord(env, FinalizerAdded(w1, Key(o), calls), WithFinalizer(o), Stale(calls)).world
  {
    GatewayAccounts.FreshWorldSound(w);
    GatewayLeaks.FirstEvent(env, w, o);
    TurnIsEvent(env, w.(stored := map[Key(o) := o]), Key(o), calls);
  }

  lemma TurnKeepsPods(env: Env, w: World, r: Record, calls: Calls)
    ensures ReconcileRecord(env, w, r, calls).world.pods == w.pods
  {
    var a := EnsurePorts(w.ledger, Key(r), r.status.allocatedPorts, r.spec.ports);
    PublishKeepsPods(env, w.(ledger := a.ledger), r.(status := r.status.(allocatedPorts := a.held)), calls);
    StatusWriteKeepsRest(env, w, r, calls);
  }

  lemma PublishKeepsPods(env: Env, w: World, r: Record, calls: Calls)
    ensures PublishSteps(env, w, r, calls).world.pods == w.pods
  {
  }

  // ---- services that the API server admits ----

  /** A spec that the schema of the resource lets through: at least one port, all of them valid. */
  predicate Admitted(spec: Spec) {
    spec.ports != [] && ValidSpec(spec)
  }

  predicate Proper(r: Record) {
    Admitted(r.spec) && DistinctPorts(r.spec.ports) && Names.Clean(r.namespace) && Names.Clean(r.name)
  }

  predicate OnePort(r: Record, sp: PortSpec) {
    Proper(r) && r.spec.ports == [sp]
  }

  predicate EmptyCluster(w: World) {
    FreshWorld(w) && w.api.committed == Config(map[], map[]) && w.services == map[] && w.slices == map[]
  }

  // ---- what a turn claims ----

  /** Without old ports, the claimed ones are assigned in order. */
  lemma FirstAssigned(l: Ledger, key: string, held: seq<AllocatedPort>, ports: seq<PortSpec>)
    requires held == [] && ports != [] && ClaimEach(l, key, |ports|).Some?
    ensures var ps := ClaimEach(l, key, |ports|).value;
      EnsurePorts(l, key, held, ports) == Allocation(Claimed(l, key, ps), Assignments(ports, ps), true)
  {
    assert GatewayPorts(held) == [];
  }

  /** With old ports, these are given back first: the new ones are what the ledger had to give before. */
  lemma Reassigned(l: Ledger, key: string, ports: seq<PortSpec>, ps: seq<int>, ports': seq<PortSpec>)
    requires Consistent(l) && ClaimEach(l, key, |ports|) == Some(ps) && ClaimEach(l, key, |ports'|).Some?
    requires !Matches(Assignments(ports, ps), ports')
    ensures var qs := ClaimEach(l, key, |ports'|).value;
      EnsurePorts(Claimed(l, key, ps), key, Assignments(ports, ps), ports')
      == Allocation(Claimed(l, key, qs), Assignments(ports', qs), true)
  {
    assert GatewayPorts(Assignments(ports, ps)) == ps;
    ClaimEachTakesLowest(l, key, |ports|);
    GatewayAccounts.LowestIsClaimable(l, key, ps, |ports|);
    RollbackRestores(l, key, ps);
  }

  lemma MatchedNumber(ports: seq<PortSpec>, ps: seq<int>, ports': seq<PortSpec>, j: nat)
    requires |ps| == |ports| && j < |ports| && DistinctPorts(ports') && Matches(Assignments(ports, ps), ports')
    ensures ports[j].port in PortNumbers(ports')
  {
    var held := Assignments(ports, ps);
    MatchesIsPermutation(held, ports');
    assert IsForSome(held[j], ports');
    var i :| 0 <= i < |ports'| && Allocates(held[j], ports'[i]);
    assert ports'[i] in ports' && ports'[i].port == ports[j].port;
  }

  // ---- the second turn ----

  /** What the first service's turns need of the world they start from. */
  ghost predicate Started(w: World, o: Record, pods: map<string, PodInfo>) {
    && RecordsKept(w) && GatewayAccounts.PortsSound(w) && Managed(w.api.committed) && OwnOnly(w, Key(o), o.uid)
    && Published.Labelled(w) && w.stored == map[Key(o) := o] && w.pods == pods
    && o.finalizers == [FINALIZER] && !o.deleting && o.status.allocatedPorts == []
  }

  /** The listeners that a turn publishes which claims the service's first ports. */
  function FirstListeners(w: World, r: Record, calls: Calls, ps: seq<int>): seq<Listener>
    requires |ps| == |r.spec.ports|
  {
    GatewayIdempotence.Listeners(w, r.(status := r.status.(allocatedPorts := Assignments(r.spec.ports, ps))), calls)
  }

  lemma FirstPublication(env: Env, w: World, r: Record, calls: Calls, ps: seq<int>)
    requires Lawful(env) && HAProxySafety.AllServed(env) && GatewayIdempotence.Answered(calls)
    requires OwnOnly(w, Key(r), r.uid)
    requires Proper(r) && r.status.allocatedPorts == [] && ClaimEach(w.ledger, Key(r), |r.spec.ports|) == Some(ps)
    ensures RunSteps(env, w, r, calls).world.api.committed
         == HAProxySafety.Overlay(w.api.committed, FirstListeners(w, r, calls, ps))
    ensures HAProxySafety.DistinctListeners(FirstListeners(w, r, calls, ps))
  {
    FirstAssigned(w.ledger, Key(r), r.status.allocatedPorts, r.spec.ports);
    var a := EnsurePorts(w.ledger, Key(r), r.status.allocatedPorts, r.spec.ports);
    var w1, r1 := w.(ledger := a.ledger), r.(status := r.status.(allocatedPorts := a.held));
    GatewayIdempotence.CalmPublishDecides(env, w1, r1, calls);
    PublishedState(env, w1, r1, calls);
    EnsuredPortsMatch(w.ledger, Key(r), r.status.allocatedPorts, r.spec.ports);
    ListenersDistinct(w1, r1, calls);
  }

  /** The listener of a service's j-th port, after a turn that claims its first ports: it leads to the pods asked
      for. */
  lemma OwnListenerLeads(env: Env, w: World, cached: map<string, RunningPod>, net: map<string, RunningPod>, r: Record,
                         calls: Calls, ps: seq<int>, j: nat, podKey: string)
    requires Lawful(env) && HAProxySafety.AllServed(env) && GatewayIdempotence.Answered(calls)
    requires OwnOnly(w, Key(r), r.uid)
    requires Proper(r) && r.status.allocatedPorts == [] && ClaimEach(w.ledger, Key(r), |r.spec.ports|) == Some(ps)
    requires j < |r.spec.ports| && PodsOnline(w, cached, net, r, calls, r.spec.ports[j].targetPort)
    requires Serves(net, r.namespace, r.spec.selector, podKey, r.spec.ports[j].targetPort)
    ensures ListenerLeads(RunSteps(env, w, r, calls).world.api.committed, net,
                          GatewayFrontends.FrontendOf(Key(r), r.spec.ports[j].port),
                          ps[j], podKey, r.spec.ports[j].targetPort)
  {
    var target, configs := r.spec.ports[j].targetPort, FirstListeners(w, r, calls, ps);
    FirstPublication(env, w, r, calls, ps);
    TargetsLead(cached, net, calls.podOrder, r.namespace, r.spec.selector, target, podKey, target);
    assert configs[j].name == Names.ListenerName(Key(r), r.spec.ports[j].port) && configs[j].port == ps[j];
    ConfiguredListenerLeads(w.api.committed, net, configs, j, podKey, target);
  }

  lemma ConfiguredListenerLeads(cfg: Config, net: map<string, RunningPod>, configs: seq<Listener>, j: nat,
                                podKey: string,
                                port: int)
    requires HAProxySafety.DistinctListeners(configs) && j < |configs|
    requires SomeServerLeads(net, Desired(configs[j].targets), podKey, port)
    ensures ListenerLeads(HAProxySafety.Overlay(cfg, configs), net, FrontendName(configs[j]), configs[j].port,
                          podKey, port)
  {
    var cfg', f, desired := HAProxySafety.Overlay(cfg, configs), FrontendName(configs[j]), Desired(configs[j].targets);
    HAProxySafety.OverlayWrites(cfg, configs, configs[j]);
    var n :| n in desired && TunnelLeads(net, desired[n], podKey, port);
    assert cfg'.frontends[f].binds[BIND] == configs[j].port;
    assert ListensOn(cfg', f, configs[j].port) && ServerBehind(cfg', f, desired[n]);
  }

  /** The service holds `ps`, claimed from `l`; nothing else changed. */
  ghost predicate Holds(w: World, l: Ledger, o: Record, ps: seq<int>, pods: map<string, PodInfo>) {
    var key := Key(o);
    && RecordsKept(w) && GatewayAccounts.PortsSound(w) && Managed(w.api.committed) && OwnOnly(w, key, o.uid)
    && Published.Labelled(w)
    && w.stored.Keys == {key} && w.pods == pods && |ps| == |o.spec.ports|
    && w.stored[key] == o.(status := w.stored[key].status)
    && w.stored[key].status.allocatedPorts == Assignments(o.spec.ports, ps) && w.ledger == Claimed(l, key, ps)
  }

  lemma SecondTurnHolds(env: Env, w: World, o: Record, calls: Calls, ps: seq<int>)
    requires Lawful(env) && Started(w, o, w.pods) && Written(calls.statusWrite) && Proper(o)
    requires ClaimEach(w.ledger, Key(o), |o.spec.ports|) == Some(ps)
    ensures Holds(StepEvent(env, w, KeyTaken(Key(o), calls)), w.ledger, o, ps, w.pods)
  {
    var e := KeyTaken(Key(o), calls);
    TurnIsEvent(env, w, Key(o), calls);
    SecondTurnRecords(env, w, o, calls, ps);
    RecordsStayKept(env, w, e);
    Published.StepStaysLabelled(env, w, e);
    GatewayAccounts.StepStaysSound(env, w, e);
    StepStaysManaged(env, w, e);
    TurnKeepsOwn(env, w, o, calls);
    TurnKeepsPods(env, w, o, calls);
  }

  lemma SecondTurnRecords(env: Env, w: World, o: Record, calls: Calls, ps: seq<int>)
    requires Started(w, o, w.pods) && Written(calls.statusWrite) && Proper(o)
    requires ClaimEach(w.ledger, Key(o), |o.spec.ports|) == Some(ps)
    ensures var w' := ReconcileRecord(env, w, o, calls).world;
      && w'.stored.Keys == {Key(o)} && w'.stored[Key(o)] == o.(status := w'.stored[Key(o)].status)
      && w'.stored[Key(o)].status.allocatedPorts == Assignments(o.spec.ports, ps)
      && w'.ledger == Claimed(w.ledger, Key(o), ps)
  {
    FirstAssigned(w.ledger, Key(o), o.status.allocatedPorts, o.spec.ports);
    StepsHoldMatchingPorts(env, w, o, calls);
    NoPortChangeIsLost(env, w, o, calls);
    ReconcileRecordStores(env, w, o, calls);
  }

  lemma FirstTurnLabelled(env: Env, w: World, o: Record, calls: Calls)
    requires EmptyCluster(w) && Proper(o)
    ensures Published.Labelled(GatewayLeaks.AfterFirst(env, w, o, calls))
  {
    var w1 := StepEvent(env, w, Created(o));
    Published.StepStaysLabelled(env, w, Created(o));
    RecordsStayKept(env, w, Created(o));
    Published.StepStaysLabelled(env, w1, KeyTaken(Key(o), calls));
  }

  lemma FirstTurnStarts(env: Env, w: World, o: Record, calls: Calls)
    requires Lawful(env) && EmptyCluster(w) && GatewayLeaks.New(o) && Proper(o)
    requires |o.spec.ports| <= GatewayLeaks.RANGE_SIZE
    requires calls.finalizerWrite == Landed
    ensures var w2 := GatewayLeaks.AfterFirst(env, w, o, calls);
      && Started(w2, o.(finalizers := [FINALIZER]), w.pods)
      && |FreePorts(w2.ledger)| >= GatewayLeaks.RANGE_SIZE - |o.spec.ports|
  {
    GatewayLeaks.AfterFirstTurn(env, w, o, calls);
    GatewayLeaks.FirstPortsFit(o);
    FirstTurnOutside(env, w, o, calls);
    FirstTurnLabelled(env, w, o, calls);
  }

  // ---- the edit ----

  /** The edit drops port number j of the service; afterwards the record wants the new ports and holds the old ones. */
  ghost predicate Dropped(w: World, l: Ledger, o: Record, ps: seq<int>, spec: Spec, j: nat) {
    var key := Key(o);
    && RecordsKept(w) && GatewayAccounts.PortsSound(w) && Managed(w.api.committed) && OwnOnly(w, key, o.uid)
    && Published.Labelled(w)
    && w.stored.Keys == {key} && |ps| == |o.spec.ports|
    && w.stored[key] == o.(spec := spec, status := w.stored[key].status, generation := w.stored[key].generation)
    && w.stored[key].status.allocatedPorts == Assignments(o.spec.ports, ps) && w.ledger == Claimed(l, key, ps)
    && j < |o.spec.ports| && Admitted(spec) && DistinctPorts(spec.ports)
      && o.spec.ports[j].port !in PortNumbers(spec.ports)
  }

  lemma EditDrops(env: Env, w: World, l: Ledger, o: Record, ps: seq<int>, spec: Spec, j: nat)
    requires Holds(w, l, o, ps, w.pods) && j < |o.spec.ports| && Admitted(spec) && DistinctPorts(spec.ports)
    requires o.spec.ports[j].port !in PortNumbers(spec.ports)
    ensures var w' := StepEvent(env, w, SpecEdited(Key(o), spec));
      Dropped(w', l, o, ps, spec, j) && w'.api == w.api && w'.pods == w.pods
  {
    GatewayFrontends.EditOutside(env, w, Key(o), spec);
    RecordsStayKept(env, w, SpecEdited(Key(o), spec));
    Published.StepStaysLabelled(env, w, SpecEdited(Key(o), spec));
    GatewayAccounts.StepStaysSound(env, w, SpecEdited(Key(o), spec));
  }

  /** What the next turn then holds. */
  lemma DroppedHeld(w: World, l: Ledger, o: Record, ps: seq<int>, spec: Spec, j: nat)
    requires Dropped(w, l, o, ps, spec, j) && Consistent(l)
    requires ClaimEach(l, Key(o), |o.spec.ports|) == Some(ps) && ClaimEach(l, Key(o), |spec.ports|).Some?
    ensures var r, qs := w.stored[Key(o)], ClaimEach(l, Key(o), |spec.ports|).value;
      && Key(r) == Key(o) && r.spec == spec
      && EnsurePorts(w.ledger, Key(r), r.status.allocatedPorts, r.spec.ports)
         == Allocation(Claimed(l, Key(o), qs), Assignments(spec.ports, qs), true)
  {
    if Matches(Assignments(o.spec.ports, ps), spec.ports) { MatchedNumber(o.spec.ports, ps, spec.ports, j); }
    Reassigned(l, Key(o), o.spec.ports, ps, spec.ports);
  }

  /** Port by port: the new ports, in the order of the spec. */
  predicate HoldsInOrder(held: seq<AllocatedPort>, ports: seq<PortSpec>, qs: seq<int>) {
    && |held| == |ports| == |qs|
    && forall i :: 0 <= i < |ports| ==> Allocates(held[i], ports[i]) && held[i].gatewayPort == qs[i]
  }

  lemma DroppedHeldInOrder(w: World, l: Ledger, o: Record, ps: seq<int>, spec: Spec, j: nat)
    requires Dropped(w, l, o, ps, spec, j) && Consistent(l)
    requires ClaimEach(l, Key(o), |o.spec.ports|) == Some(ps) && ClaimEach(l, Key(o), |spec.ports|).Some?
    ensures HoldsInOrder(HeldAfter(w, w.stored[Key(o)]), spec.ports, ClaimEach(l, Key(o), |spec.ports|).value)
  {
    DroppedHeld(w, l, o, ps, spec, j);
  }

  /** No listener of that turn has the dropped port's name. */
  lemma DroppedIsNotNamed(w: World, r: Record, calls: Calls, n: int, qs: seq<int>)
    requires Names.Clean(r.namespace) && Names.Clean(r.name) && ValidSpec(r.spec) && n >= 1
    requires n !in PortNumbers(r.spec.ports)
    requires HoldsInOrder(HeldAfter(w, r), r.spec.ports, qs)
    ensures GatewayFrontends.FrontendOf(Key(r), n) !in HAProxySafety.FrontendNames(ConfigsOf(w, r, calls))
  {
    var configs := ConfigsOf(w, r, calls);
    forall c | c in configs ensures FrontendName(c) != GatewayFrontends.FrontendOf(Key(r), n) {
      var i :| 0 <= i < |configs| && configs[i] == c;
      assert Allocates(HeldAfter(w, r)[i], r.spec.ports[i]);
      assert r.spec.ports[i] in r.spec.ports && ValidPort(r.spec.ports[i]);
      Names.ListenerNamesDistinct(r.namespace, r.name, r.spec.ports[i].port, r.name, n);
    }
  }

  /** An older listener on a port that the turn holds leads astray. */
  lemma StaleIsForeign(w: World, net: map<string, RunningPod>, held: seq<AllocatedPort>, configs: seq<Listener>,
                       sp: PortSpec, i: nat, f: string, podKey: string, port: int)
    requires i < |held| && Allocates(held[i], sp) && f !in HAProxySafety.FrontendNames(configs)
    requires ListenerLeads(w.api.committed, net, f, held[i].gatewayPort, podKey, port)
    ensures ForeignRoute(w, net, held, configs, sp, podKey, port)
  {
    var g := held[i].gatewayPort;
    var s :| ListensOn(w.api.committed, f, g) && ServerBehind(w.api.committed, f, s)
      && TunnelLeads(net, s, podKey, port);
    assert ForeignServer(w.api.committed, configs, g, s);
  }

  // ---- the service itself ----

  lemma DroppedTurnSucceeds(env: Env, w: World, l: Ledger, o: Record, ps: seq<int>, spec: Spec, j: nat, calls: Calls)
    requires Lawful(env) && HAProxySafety.AllServed(env) && GatewayIdempotence.Answered(calls)
    requires Dropped(w, l, o, ps, spec, j) && Consistent(l)
    requires ClaimEach(l, Key(o), |o.spec.ports|) == Some(ps) && ClaimEach(l, Key(o), |spec.ports|).Some?
    ensures RunSteps(env, w, w.stored[Key(o)], calls).reason == Reconciled
  {
    DroppedHeld(w, l, o, ps, spec, j);
    var r := w.stored[Key(o)];
    var a := EnsurePorts(w.ledger, Key(r), r.status.allocatedPorts, r.spec.ports);
    GatewayIdempotence.CalmPublishDecides(env, w.(ledger := a.ledger),
                                          r.(status := r.status.(allocatedPorts := a.held)), calls);
  }

  lemma OwnListenerIsForeign(w: World, net: map<string, RunningPod>, l: Ledger, o: Record, ps: seq<int>, spec: Spec,
                             j: nat, calls: Calls, podKey: string, port: int)
    requires Dropped(w, l, o, ps, spec, j) && Consistent(l) && Proper(o) && j < |spec.ports|
    requires ClaimEach(l, Key(o), |o.spec.ports|) == Some(ps) && ClaimEach(l, Key(o), |spec.ports|).Some?
    requires ListenerLeads(w.api.committed, net, GatewayFrontends.FrontendOf(Key(o), o.spec.ports[j].port), ps[j],
                           podKey, port)
    ensures var r := w.stored[Key(o)];
      ForeignRoute(w, net, HeldAfter(w, r), ConfigsOf(w, r, calls), spec.ports[j], podKey, port)
  {
    var r, qs := w.stored[Key(o)], ClaimEach(l, Key(o), |spec.ports|).value;
    DroppedHeldInOrder(w, l, o, ps, spec, j);
    SameLowest(l, Key(o), |o.spec.ports|, |spec.ports|, j);
    assert Key(r) == Key(o) && ValidPort(o.spec.ports[j]) && Allocates(HeldAfter(w, r)[j], spec.ports[j]);
    DroppedIsNotNamed(w, r, calls, o.spec.ports[j].port, qs);
    StaleIsForeign(w, net, HeldAfter(w, r), ConfigsOf(w, r, calls), spec.ports[j], j,
                   GatewayFrontends.FrontendOf(Key(o), o.spec.ports[j].port), podKey, port);
  }

  lemma OwnPortMisroutes(env: Env, w: World, cached: map<string, RunningPod>, net: map<string, RunningPod>, l: Ledger,
                         o: Record, ps: seq<int>, spec: Spec, j: nat, calls: Calls, podKey: string, port: int)
    requires Lawful(env) && HAProxySafety.AllServed(env) && GatewayIdempotence.Answered(calls)
    requires Dropped(w, l, o, ps, spec, j) && Consistent(l)
    requires ClaimEach(l, Key(o), |o.spec.ports|) == Some(ps) && ClaimEach(l, Key(o), |spec.ports|).Some?
    requires Proper(o) && FINALIZER in o.finalizers && !o.deleting && j < |spec.ports|
    requires ListenerLeads(w.api.committed, net, GatewayFrontends.FrontendOf(Key(o), o.spec.ports[j].port), ps[j],
                           podKey, port)
    requires PodsOnline(w, cached, net, o.(spec := spec), calls, spec.ports[j].targetPort)
    ensures Reaches(StepEvent(env, w, KeyTaken(Key(o), calls)), net, Key(o), spec.ports[j].port, podKey, port)
  {
    OwnListenerIsForeign(w, net, l, o, ps, spec, j, calls, podKey, port);
    DroppedTurnSucceeds(env, w, l, o, ps, spec, j, calls);
    Published.LabelledIsFound(w, Key(o));
    TurnRoutesExactly(env, w, cached, net, Key(o), calls, spec.ports[j], podKey, port);
    TurnIsEvent(env, w, Key(o), calls);
  }

  /** The world after a service's second turn: it holds its ports, and its j-th listener leads to its pods. */
  lemma SecondTurnListens(env: Env, w: World, cached: map<string, RunningPod>, net: map<string, RunningPod>, o: Record,
                          ps: seq<int>, j: nat, calls: Calls, podKey: string)
    requires Lawful(env) && HAProxySafety.AllServed(env) && GatewayIdempotence.Answered(calls)
    requires Written(calls.statusWrite)
    requires Started(w, o, InfosOf(cached)) && Proper(o) && ClaimEach(w.ledger, Key(o), |o.spec.ports|) == Some(ps)
    requires j < |o.spec.ports| && PodsOnline(w, cached, net, o, calls, o.spec.ports[j].targetPort)
    requires Serves(net, o.namespace, o.spec.selector, podKey, o.spec.ports[j].targetPort)
    ensures var w3 := StepEvent(env, w, KeyTaken(Key(o), calls));
      && Holds(w3, w.ledger, o, ps, w.pods)
      && ListenerLeads(w3.api.committed, net, GatewayFrontends.FrontendOf(Key(o), o.spec.ports[j].port), ps[j], podKey,
                       o.spec.ports[j].targetPort)
  {
    OwnListenerLeads(env, w, cached, net, o, calls, ps, j, podKey);
    SecondTurnHolds(env, w, o, calls, ps);
    SameApi(env, w, o, calls);
  }

  /** And after the edit that drops its j-th port: the port's listener is still there. */
  lemma EditedAfterSecondTurn(env: Env, w: World, cached: map<string, RunningPod>, net: map<string, RunningPod>,
                              o: Record, ps: seq<int>, spec: Spec, j: nat, calls: Calls, podKey: string)
    requires Lawful(env) && HAProxySafety.AllServed(env) && GatewayIdempotence.Answered(calls)
    requires Written(calls.statusWrite)
    requires Started(w, o, InfosOf(cached)) && Proper(o) && ClaimEach(w.ledger, Key(o), |o.spec.ports|) == Some(ps)
    requires Drops(o, spec, j) && PodsOnline(w, cached, net, o, calls, o.spec.ports[j].targetPort)
    requires Serves(net, o.namespace, o.spec.selector, podKey, o.spec.ports[j].targetPort)
    ensures var w4 := StepEvent(env, StepEvent(env, w, KeyTaken(Key(o), calls)), SpecEdited(Key(o), spec));
      && Dropped(w4, w.ledger, o, ps, spec, j) && w4.pods == w.pods
      && ListenerLeads(w4.api.committed, net, GatewayFrontends.FrontendOf(Key(o), o.spec.ports[j].port), ps[j], podKey,
                       o.spec.ports[j].targetPort)
  {
    SecondTurnListens(env, w, cached, net, o, ps, j, calls, podKey);
    EditDrops(env, StepEvent(env, w, KeyTaken(Key(o), calls)), w.ledger, o, ps, spec, j);
  }

  lemma SameApi(env: Env, w: World, o: Record, calls: Calls)
    requires Key(o) in w.stored && w.stored[Key(o)] == o && FINALIZER in o.finalizers && !o.deleting
    ensures StepEvent(env, w, KeyTaken(Key(o), calls)).api == RunSteps(env, w, o, calls).world.api
  {
    TurnIsEvent(env, w, Key(o), calls);
    StatusWriteKeepsRest(env, w, o, calls);
  }

  /** An edit that the API server admits and that drops the number of the j-th port. */
  predicate Drops(o: Record, spec: Spec, j: nat) {
    && j < |o.spec.ports| && o.spec.ports[j].port !in PortNumbers(spec.ports)
    && Admitted(spec) && DistinctPorts(spec.ports)
  }

  /** Both the old ports and the new ones fit into what the first turn leaves of the range. */
  predicate Fits(o: Record, spec: Spec) {
    2 * |o.spec.ports| <= GatewayLeaks.RANGE_SIZE && |o.spec.ports| + |spec.ports| <= GatewayLeaks.RANGE_SIZE
  }

  lemma BothClaimed(l: Ledger, key: string, o: Record, spec: Spec)
    requires Consistent(l) && |FreePorts(l)| >= GatewayLeaks.RANGE_SIZE - |o.spec.ports| && Fits(o, spec)
    ensures ClaimEach(l, key, |o.spec.ports|).Some? && ClaimEach(l, key, |spec.ports|).Some?
  {
    ClaimEachTakesLowest(l, key, |o.spec.ports|);
    ClaimEachTakesLowest(l, key, |spec.ports|);
  }

  /** The first five events of the runs. */
  function FirstFive(o: Record, spec: Spec, c1: Calls, c2: Calls, c3: Calls): seq<Event> {
    [Created(o), KeyTaken(Key(o), c1), KeyTaken(Key(o), c2), SpecEdited(Key(o), spec), KeyTaken(Key(o), c3)]
  }

  /** A run: a service is created and has its two turns; its j-th port is renumbered, and it has another turn. That turn
      gives the gateway port back and claims it again, for the new number, while the old listener stays on it: the new
      Service port leads to the old target port of the old pods, whatever the new target and selector are. Every HAProxy
      call was served and every write that can land landed. */
  lemma RenumberedPortMisroutes(env: Env, w: World, cached: map<string, RunningPod>, net: map<string, RunningPod>,
                                o: Record, spec: Spec, j: nat, c1: Calls, c2: Calls, c3: Calls, podKey: string)
    requires Lawful(env) && HAProxySafety.AllServed(env) && EmptyCluster(w) && GatewayLeaks.New(o) && Proper(o)
    requires Drops(o, spec, j) && j < |spec.ports| && Fits(o, spec)
    requires c1.finalizerWrite == Landed && GatewayIdempotence.Answered(c2) && Written(c2.statusWrite)
    requires GatewayIdempotence.Answered(c3)
    requires PodsOnline(w, cached, net, o, c2, o.spec.ports[j].targetPort)
    requires PodsOnline(w, cached, net, o.(spec := spec), c3, spec.ports[j].targetPort)
    requires Serves(net, o.namespace, o.spec.selector, podKey, o.spec.ports[j].targetPort)
    ensures Reaches(RunEvents(env, w, [Created(o), KeyTaken(Key(o), c1), KeyTaken(Key(o), c2), SpecEdited(Key(o), spec),
                                       KeyTaken(Key(o), c3)]),
                    net, Key(o), spec.ports[j].port, podKey, o.spec.ports[j].targetPort)
  {
    GatewayLeaks.FiveEvents(env, w, Created(o), KeyTaken(Key(o), c1), KeyTaken(Key(o), c2), SpecEdited(Key(o), spec),
               KeyTaken(Key(o), c3));
    var w2, o2 := GatewayLeaks.AfterFirst(env, w, o, c1), o.(finalizers := [FINALIZER]);
    FirstTurnStarts(env, w, o, c1);
    RenumberedTurn(env, w2, cached, net, o2, spec, j, c2, c3, podKey);
  }

  lemma RenumberedTurn(env: Env, w: World, cached: map<string, RunningPod>, net: map<string, RunningPod>, o: Record,
                       spec: Spec, j: nat, c2: Calls, c3: Calls, podKey: string)
    requires Lawful(env) && HAProxySafety.AllServed(env) && GatewayIdempotence.Answered(c2) && Written(c2.statusWrite)
    requires GatewayIdempotence.Answered(c3)
    requires Started(w, o, InfosOf(cached)) && Proper(o)
    requires |FreePorts(w.ledger)| >= GatewayLeaks.RANGE_SIZE - |o.spec.ports|
    requires Drops(o, spec, j) && j < |spec.ports| && Fits(o, spec)
    requires PodsOnline(w, cached, net, o, c2, o.spec.ports[j].targetPort)
    requires PodsOnline(w, cached, net, o.(spec := spec), c3, spec.ports[j].targetPort)
    requires Serves(net, o.namespace, o.spec.selector, podKey, o.spec.ports[j].targetPort)
    ensures var w4 := StepEvent(env, StepEvent(env, w, KeyTaken(Key(o), c2)), SpecEdited(Key(o), spec));
      Reaches(StepEvent(env, w4, KeyTaken(Key(o), c3)), net, Key(o), spec.ports[j].port, podKey,
              o.spec.ports[j].targetPort)
  {
    BothClaimed(w.ledger, Key(o), o, spec);
    var ps := ClaimEach(w.ledger, Key(o), |o.spec.ports|).value;
    EditedAfterSecondTurn(env, w, cached, net, o, ps, spec, j, c2, podKey);
    var w4 := StepEvent(env, StepEvent(env, w, KeyTaken(Key(o), c2)), SpecEdited(Key(o), spec));
    OwnPortMisroutes(env, w4, cached, net, w.ledger, o, ps, spec, j, c3, podKey, o.spec.ports[j].targetPort);
  }

  // ---- the next service ----

  lemma ListenerStays(cfg: Config, configs: seq<Listener>, net: map<string, RunningPod>, f: string, g: int,
                      podKey: string, port: int)
    requires Managed(cfg) && f !in HAProxySafety.FrontendNames(configs) && ListenerLeads(cfg, net, f, g, podKey, port)
    ensures ListenerLeads(HAProxySafety.Overlay(cfg, configs), net, f, g, podKey, port)
  {
    var s :| ListensOn(cfg, f, g) && ServerBehind(cfg, f, s) && TunnelLeads(net, s, podKey, port);
    OtherListenerStays(cfg, configs, f, g, s);
  }

  /** The turn after an edit from more ports to j: the listener of the j-th stays where it was, on a port that is the
      lowest free one now. */
  lemma DroppedTurnLeavesStale(env: Env, w: World, net: map<string, RunningPod>, l: Ledger, o: Record, ps: seq<int>,
                               spec: Spec, j: nat, calls: Calls, podKey: string, port: int)
    requires Lawful(env) && HAProxySafety.AllServed(env) && Dropped(w, l, o, ps, spec, j) && Consistent(l)
    requires j == |spec.ports|
    requires ClaimEach(l, Key(o), |o.spec.ports|) == Some(ps) && ClaimEach(l, Key(o), |spec.ports|).Some?
    requires Proper(o) && FINALIZER in o.finalizers && !o.deleting
    requires ListenerLeads(w.api.committed, net, GatewayFrontends.FrontendOf(Key(o), o.spec.ports[j].port), ps[j],
                           podKey, port)
    ensures var w' := StepEvent(env, w, KeyTaken(Key(o), calls));
      && StaleAt(w', net, GatewayFrontends.FrontendOf(Key(o), o.spec.ports[j].port), podKey, port)
      && OwnOnly(w', Key(o), o.uid) && w'.pods == w.pods && w'.stored.Keys == {Key(o)}
  {
    var r, qs := w.stored[Key(o)], ClaimEach(l, Key(o), |spec.ports|).value;
    DroppedHeldInOrder(w, l, o, ps, spec, j);
    DroppedTurnFrees(env, w, l, o, ps, spec, j, calls);
    DroppedTurnKeepsRest(env, w, l, o, ps, spec, j, calls);
    assert Key(r) == Key(o) && ValidPort(o.spec.ports[j]);
    OwnRecordTurn(env, w, o, calls);
    DroppedListenerLeads(env, w, net, o, r, calls, qs, o.spec.ports[j], ps[j], podKey, port);
  }

  lemma OwnRecordTurn(env: Env, w: World, o: Record, calls: Calls)
    requires RecordsKept(w) && Key(o) in w.stored && FINALIZER in w.stored[Key(o)].finalizers
    requires !w.stored[Key(o)].deleting
    ensures StepEvent(env, w, KeyTaken(Key(o), calls)) == ReconcileRecord(env, w, w.stored[Key(o)], calls).world
  {
    TurnIsEvent(env, w, Key(o), calls);
  }

  lemma DroppedTurnFrees(env: Env, w: World, l: Ledger, o: Record, ps: seq<int>, spec: Spec, j: nat, calls: Calls)
    requires Dropped(w, l, o, ps, spec, j) && Consistent(l) && j == |spec.ports|
    requires ClaimEach(l, Key(o), |o.spec.ports|) == Some(ps) && ClaimEach(l, Key(o), |spec.ports|).Some?
    requires Proper(o) && FINALIZER in o.finalizers && !o.deleting
    ensures var l' := StepEvent(env, w, KeyTaken(Key(o), calls)).ledger;
      Consistent(l') && FirstFree(l', l'.lo) == Some(ps[j]) && FreePorts(l') != {}
  {
    var l' := StepEvent(env, w, KeyTaken(Key(o), calls)).ledger;
    DroppedHeld(w, l, o, ps, spec, j);
    TurnIsEvent(env, w, Key(o), calls);
    GatewayAccounts.StepStaysSound(env, w, KeyTaken(Key(o), calls));
    GatewayFrontends.TurnKeepsServices(env, w, w.stored[Key(o)], calls);
    NextLowest(l, Key(o), |o.spec.ports|, j);
    FirstFreeIsLeast(l', l'.lo);
  }

  lemma DroppedTurnKeepsRest(env: Env, w: World, l: Ledger, o: Record, ps: seq<int>, spec: Spec, j: nat, calls: Calls)
    requires Dropped(w, l, o, ps, spec, j) && FINALIZER in o.finalizers && !o.deleting
    ensures var w' := StepEvent(env, w, KeyTaken(Key(o), calls));
      OwnOnly(w', Key(o), o.uid) && w'.pods == w.pods && w'.stored.Keys == {Key(o)}
  {
    var r := w.stored[Key(o)];
    assert Key(r) == Key(o);
    TurnIsEvent(env, w, Key(o), calls);
    GatewayFrontends.TurnKeepsServices(env, w, r, calls);
    TurnKeepsOwn(env, w, r, calls);
    TurnKeepsPods(env, w, r, calls);
  }

  lemma DroppedListenerLeads(env: Env, w: World, net: map<string, RunningPod>, o: Record, r: Record, calls: Calls,
                             qs: seq<int>, op: PortSpec, g: int, podKey: string, port: int)
    requires Lawful(env) && HAProxySafety.AllServed(env) && Managed(w.api.committed) && Key(r) == Key(o)
    requires Names.Clean(r.namespace) && Names.Clean(r.name) && ValidSpec(r.spec) && op.port >= 1
    requires op.port !in PortNumbers(r.spec.ports)
    requires HoldsInOrder(HeldAfter(w, r), r.spec.ports, qs)
    requires ListenerLeads(w.api.committed, net, GatewayFrontends.FrontendOf(Key(o), op.port), g, podKey, port)
    ensures ListenerLeads(ReconcileRecord(env, w, r, calls).world.api.committed, net,
                          GatewayFrontends.FrontendOf(Key(o), op.port), g,
                          podKey, port)
  {
    GatewayFrontends.TurnOutside(env, w, r, calls);
    DroppedIsNotNamed(w, r, calls, op.port, qs);
    if GatewayFrontends.Publishes(w, r, calls) {
      HAProxySafety.ApplyServed(env, w.api, ConfigsOf(w, r, calls));
      ListenerStays(w.api.committed, ConfigsOf(w, r, calls), net, GatewayFrontends.FrontendOf(Key(o), op.port), g,
                    podKey, port);
    }
  }

  lemma FiveThenTwo(env: Env, w: World, first: seq<Event>, d: Event, e: Event)
    requires |first| == 5
    ensures RunEvents(env, w, [first[0], first[1], first[2], first[3], first[4], d, e])
         == StepEvent(env, StepEvent(env, RunEvents(env, w, first), d), e)
  {
    assert [first[0], first[1], first[2], first[3], first[4], d, e] == first + [d, e];
    GatewayAccounts.RunAppends(env, w, first, [d, e]);
    TwoEvents(env, RunEvents(env, w, first), d, e);
  }

  lemma NamesDiffer(o: Record, n: int, b: Record, bp: PortSpec)
    requires Proper(o) && n >= 1 && OnePort(b, bp) && o.namespace == b.namespace && o.name != b.name
    ensures Key(o) != Key(b) && GatewayFrontends.FrontendOf(Key(o), n) != GatewayFrontends.FrontendOf(Key(b), bp.port)
  {
    assert ValidPort(b.spec.ports[0]);
    Names.ListenerNamesDistinct(o.namespace, o.name, n, b.name, n);
    Names.ListenerNamesDistinct(o.namespace, o.name, n, b.name, bp.port);
  }

  lemma StaleTurn(env: Env, w: World, cached: map<string, RunningPod>, net: map<string, RunningPod>, o: Record,
                  spec: Spec, j: nat, c2: Calls, c3: Calls, podKey: string)
    requires Lawful(env) && HAProxySafety.AllServed(env) && GatewayIdempotence.Answered(c2) && Written(c2.statusWrite)
    requires Started(w, o, InfosOf(cached)) && Proper(o)
    requires |FreePorts(w.ledger)| >= GatewayLeaks.RANGE_SIZE - |o.spec.ports|
    requires Drops(o, spec, j) && j == |spec.ports| && Fits(o, spec)
    requires PodsOnline(w, cached, net, o, c2, o.spec.ports[j].targetPort)
    requires Serves(net, o.namespace, o.spec.selector, podKey, o.spec.ports[j].targetPort)
    ensures var w4 := StepEvent(env, StepEvent(env, w, KeyTaken(Key(o), c2)), SpecEdited(Key(o), spec));
      var w' := StepEvent(env, w4, KeyTaken(Key(o), c3));
      && StaleAt(w', net, GatewayFrontends.FrontendOf(Key(o), o.spec.ports[j].port), podKey, o.spec.ports[j].targetPort)
      && OwnOnly(w', Key(o), o.uid) && w'.pods == w.pods && w'.stored.Keys == {Key(o)}
  {
    BothClaimed(w.ledger, Key(o), o, spec);
    var ps := ClaimEach(w.ledger, Key(o), |o.spec.ports|).value;
    EditedAfterSecondTurn(env, w, cached, net, o, ps, spec, j, c2, podKey);
    var w4 := StepEvent(env, StepEvent(env, w, KeyTaken(Key(o), c2)), SpecEdited(Key(o), spec));
    DroppedTurnLeavesStale(env, w4, net, w.ledger, o, ps, spec, j, c3, podKey, o.spec.ports[j].targetPort);
  }

  lemma StaleRun(env: Env, w: World, cached: map<string, RunningPod>, net: map<string, RunningPod>, o: Record,
                 spec: Spec, j: nat, c1: Calls, c2: Calls, c3: Calls, podKey: string)
    requires Lawful(env) && HAProxySafety.AllServed(env) && EmptyCluster(w) && GatewayLeaks.New(o) && Proper(o)
    requires Drops(o, spec, j) && j == |spec.ports| && Fits(o, spec)
    requires c1.finalizerWrite == Landed && GatewayIdempotence.Answered(c2) && Written(c2.statusWrite)
    requires PodsOnline(w, cached, net, o, c2, o.spec.ports[j].targetPort)
    requires Serves(net, o.namespace, o.spec.selector, podKey, o.spec.ports[j].targetPort)
    ensures var w' := RunEvents(env, w, FirstFive(o, spec, c1, c2, c3));
      && RecordsKept(w') && GatewayAccounts.PortsSound(w') && Managed(w'.api.committed)
      && StaleAt(w', net, GatewayFrontends.FrontendOf(Key(o), o.spec.ports[j].port), podKey, o.spec.ports[j].targetPort)
      && OwnOnly(w', Key(o), o.uid) && w'.pods == w.pods && w'.stored.Keys == {Key(o)}
  {
    var first := FirstFive(o, spec, c1, c2, c3);
    GatewayLeaks.FiveEvents(env, w, first[0], first[1], first[2], first[3], first[4]);
    GatewayAccounts.FreshWorldSound(w);
    GatewayAccounts.RunStaysSound(env, w, first);
    RunStaysManaged(env, w, first);
    FirstTurnStarts(env, w, o, c1);
    StaleTurn(env, GatewayLeaks.AfterFirst(env, w, o, c1), cached, net, o.(finalizers := [FINALIZER]), spec, j, c2,
              c3, podKey);
  }

  /** Another run: a service with more than j ports has its two turns, is edited to want j of them and has another turn;
      then a service with one port is created and has its first turn. Its Service port then leads to the pods of the
      first service's dropped j-th port, although every HAProxy call was served. */
  lemma StaleListenerMisroutes(env: Env, w: World, cached: map<string, RunningPod>, net: map<string, RunningPod>,
                               o: Record, spec: Spec, j: nat, b: Record, bp: PortSpec,
                               c1: Calls, c2: Calls, c3: Calls, c4: Calls, podKey: string)
    requires Lawful(env) && HAProxySafety.AllServed(env) && EmptyCluster(w) && GatewayLeaks.New(o) && Proper(o)
    requires Drops(o, spec, j) && j == |spec.ports| && Fits(o, spec)
    requires GatewayLeaks.New(b) && OnePort(b, bp) && o.namespace == b.namespace && o.name != b.name
    requires c1.finalizerWrite == Landed && GatewayIdempotence.Answered(c2) && Written(c2.statusWrite)
    requires GatewayIdempotence.Answered(c4) && c4.finalizerWrite == Landed
    requires PodsOnline(w, cached, net, o, c2, o.spec.ports[j].targetPort)
    requires PodsOnline(w, cached, net, b, c4, bp.targetPort)
    requires Serves(net, o.namespace, o.spec.selector, podKey, o.spec.ports[j].targetPort)
    ensures Reaches(RunEvents(env, w, [Created(o), KeyTaken(Key(o), c1), KeyTaken(Key(o), c2), SpecEdited(Key(o), spec),
                                       KeyTaken(Key(o), c3), Created(b), KeyTaken(Key(b), c4)]),
                    net, Key(b), bp.port, podKey, o.spec.ports[j].targetPort)
  {
    var first := FirstFive(o, spec, c1, c2, c3);
    FiveThenTwo(env, w, first, Created(b), KeyTaken(Key(b), c4));
    StaleRun(env, w, cached, net, o, spec, j, c1, c2, c3, podKey);
    ThenNext(env, RunEvents(env, w, first), cached, net, o, j, b, bp, c4, podKey);
  }

  lemma ThenNext(env: Env, w: World, cached: map<string, RunningPod>, net: map<string, RunningPod>, o: Record, j: nat,
                 b: Record, bp: PortSpec, calls: Calls, podKey: string)
    requires Lawful(env) && HAProxySafety.AllServed(env) && GatewayIdempotence.Answered(calls)
    requires calls.finalizerWrite == Landed
    requires RecordsKept(w) && GatewayAccounts.PortsSound(w) && Managed(w.api.committed) && OwnOnly(w, Key(o), o.uid)
    requires w.stored.Keys == {Key(o)} && Proper(o) && j < |o.spec.ports|
    requires StaleAt(w, net, GatewayFrontends.FrontendOf(Key(o), o.spec.ports[j].port), podKey,
                     o.spec.ports[j].targetPort)
    requires GatewayLeaks.New(b) && OnePort(b, bp) && o.namespace == b.namespace && o.name != b.name
    requires PodsOnline(w, cached, net, b, calls, bp.targetPort)
    ensures Reaches(StepEvent(env, StepEvent(env, w, Created(b)), KeyTaken(Key(b), calls)), net, Key(b), bp.port,
                    podKey, o.spec.ports[j].targetPort)
  {
    assert ValidPort(o.spec.ports[j]);
    NamesDiffer(o, o.spec.ports[j].port, b, bp);
    NextServiceMisroutes(env, w, cached, net, b, calls, bp,
                         GatewayFrontends.FrontendOf(Key(o), o.spec.ports[j].port), podKey,
                         o.spec.ports[j].targetPort);
  }
}
