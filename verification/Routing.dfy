/** End to end: from a Service port through EndpointSlice, listener, server and tunnel to a container port. */
module Routing {
  import opened Wrappers
  import opened HAProxy
  import opened HAProxySafety
  import opened Gateway
  import opened GatewayRuns
  import Names
  import PortAlloc
  import GatewayAccounts
  import GatewayLeaks
  import GatewayIdempotence
  import Published
  import Tunnels

  /** A virtual pod as it runs: its slot decides its machine's tunnel address, its container ports the tunnels. */
  datatype RunningPod = RunningPod(namespace: string, name: string, labels: map<string, string>, slot: int,
                                   containerPorts: seq<int>)

  /** What updateVirtualPodCache keeps of a pod. */
  function InfoOf(pod: RunningPod): PodInfo {
    PodInfo(pod.namespace, pod.name, pod.labels, pod.slot, Tunnels.PeerAddress(pod.slot),
            Tunnels.ControllerPorts(pod.containerPorts))
  }

  function InfosOf(net: map<string, RunningPod>): map<string, PodInfo> {
    map k | k in net :: InfoOf(net[k])
  }

  /** The network leads an address to the machine of the pod in that slot, and there along the tunnel. */
  predicate TunnelLeads(net: map<string, RunningPod>, s: Server, podKey: string, port: int) {
    && podKey in net && s.address == Tunnels.PeerAddress(net[podKey].slot)
    && Tunnels.TunnelTarget(Tunnels.PeerOffset(net[podKey].slot), net[podKey].containerPorts, s.port) == Some(port)
  }

  /** A frontend listens on a gateway port when one of its binds has it. */
  predicate ListensOn(cfg: Config, f: string, gatewayPort: int) {
    f in cfg.frontends && exists b :: b in cfg.frontends[f].binds && cfg.frontends[f].binds[b] == gatewayPort
  }

  predicate ServerBehind(cfg: Config, f: string, s: Server) {
    && f in cfg.frontends && cfg.frontends[f].defaultBackend in cfg.pools
    && exists n :: n in cfg.pools[cfg.frontends[f].defaultBackend] && cfg.pools[cfg.frontends[f].defaultBackend][n] == s
  }

  /** The gateway ports a Service port leads to: the EndpointSlice ports of the same name. */
  predicate LeadsToGateway(service: Service, slice: Slice, servicePort: int, gatewayPort: int) {
    exists sp, ep :: sp in service.ports && ep in slice.ports && sp.port == servicePort
                     && ep.name == sp.name && ep.port == gatewayPort
  }

  /** Kubernetes counts the slice among those of the Service, and its one endpoint is the gateway. */
  predicate ServesFor(slice: Slice, name: string, gatewayIP: string) {
    Published.IsLabelled(slice, name) && slice.addresses == [gatewayIP]
  }

  /** A connection to the Service port can end at this port of this pod. */
  ghost predicate Reaches(w: World, net: map<string, RunningPod>, key: string, servicePort: int, podKey: string,
                          port: int) {
    && key in w.services && key in w.slices && ServesFor(w.slices[key], Names.NameIn(key), w.gatewayIP)
    && exists g: int, f: string, s: Server ::
         LeadsToGateway(w.services[key], w.slices[key], servicePort, g)
         && ListensOn(w.api.committed, f, g) && ServerBehind(w.api.committed, f, s) && TunnelLeads(net, s, podKey, port)
  }

  // ---- the parts a successful reconcile leaves ----

  /** After success: Service, EndpointSlice and HAProxy all follow the allocation that was held. */
  lemma PublishedState(env: Env, w: World, r: Record, calls: Calls)
    requires Lawful(env) && AllServed(env) && PublishSteps(env, w, r, calls).reason == Reconciled
    ensures var w' := PublishSteps(env, w, r, calls).world;
      && ObjectsPublished(w, w', r)
      && w'.api.committed == Overlay(w.api.committed, GatewayIdempotence.Listeners(w, r, calls))
  {
    if EnsureService(w.services, r, calls).1 == Done {
      Published.ServiceDone(w.services, r, calls);
      if EnsureSlice(w.slices, r, w.gatewayIP, calls).1 == Done {
        Published.SliceDone(w.slices, r, w.gatewayIP, calls);
        ApplyServed(env, w.api, GatewayIdempotence.Listeners(w, r, calls));
      }
    }
  }

  /** Service and EndpointSlice are as asked for; the slice is one of the Service exactly when it was found to be. */
  ghost predicate ObjectsPublished(w: World, w': World, r: Record) {
    var key := Key(r);
    && w'.gatewayIP == w.gatewayIP
    && key in w'.services && Published.ServiceAsked(w'.services[key], r)
    && key in w'.slices && Published.SliceLeads(w'.slices[key], r.status.allocatedPorts, w.gatewayIP)
    && (Published.IsLabelled(w'.slices[key], r.name) <==> Published.SliceFound(w.slices, r, w.gatewayIP))
  }

  predicate DistinctPorts(ports: seq<PortSpec>) {
    forall i, j :: 0 <= i < j < |ports| ==> ports[i].port != ports[j].port && ports[i].name != ports[j].name
  }

  // ---- reuse is a permutation ----

  function PortNumbers(ports: seq<PortSpec>): set<int> {
    set p | p in ports :: p.port
  }

  function HeldNumbers(held: seq<AllocatedPort>): set<int> {
    set a | a in held :: a.servicePort
  }

  lemma {:induction false} DistinctNumbers(ports: seq<PortSpec>)
    requires DistinctPorts(ports)
    ensures |PortNumbers(ports)| == |ports|
  {
    if ports == [] {
    } else {
      var init, last := ports[..|ports| - 1], ports[|ports| - 1];
      assert ports == init + [last];
      DistinctNumbers(init);
      assert forall p :: p in ports <==> p in init || p == last;
      assert PortNumbers(ports) == PortNumbers(init) + {last.port};
      assert last.port !in PortNumbers(init);
    }
  }

  lemma {:induction false} FewNumbers(held: seq<AllocatedPort>)
    ensures |HeldNumbers(held)| <= |held|
    ensures |HeldNumbers(held)| == |held| ==>
      forall i, j :: 0 <= i < j < |held| ==> held[i].servicePort != held[j].servicePort
  {
    if held == [] {
    } else {
      var init, last := held[..|held| - 1], held[|held| - 1];
      assert held == init + [last];
      FewNumbers(init);
      HeldNumbersStep(init, last);
      if |HeldNumbers(held)| == |held| {
        NewNumber(init, last);
      }
    }
  }

  lemma NewNumber(init: seq<AllocatedPort>, last: AllocatedPort)
    requires |HeldNumbers(init) + {last.servicePort}| == |init| + 1 && |HeldNumbers(init)| <= |init|
    ensures |HeldNumbers(init)| == |init|
    ensures forall i :: 0 <= i < |init| ==> init[i].servicePort != last.servicePort
  {
    assert last.servicePort !in HeldNumbers(init);
    forall i | 0 <= i < |init| ensures init[i].servicePort != last.servicePort {
      assert init[i] in init && init[i].servicePort in HeldNumbers(init);
    }
  }

  lemma HeldNumbersStep(init: seq<AllocatedPort>, last: AllocatedPort)
    ensures HeldNumbers(init + [last]) == HeldNumbers(init) + {last.servicePort}
  {
    assert forall a :: a in init + [last] <==> a in init || a == last;
  }

  predicate IsForSome(a: AllocatedPort, ports: seq<PortSpec>) {
    exists i :: 0 <= i < |ports| && Allocates(a, ports[i])
  }

  /** With distinct spec ports, matching allocations are a permutation of them: each allocation is for one spec port
      and no two are for the same. */
  lemma MatchesIsPermutation(held: seq<AllocatedPort>, ports: seq<PortSpec>)
    requires Matches(held, ports) && DistinctPorts(ports)
    ensures forall i, j :: 0 <= i < j < |held| ==>
        held[i].servicePort != held[j].servicePort && held[i].name != held[j].name
    ensures forall j :: 0 <= j < |held| ==> IsForSome(held[j], ports)
  {
    DistinctNumbers(ports);
    FewNumbers(held);
    forall n | n in PortNumbers(ports) ensures n in HeldNumbers(held) {
      var p :| p in ports && p.port == n;
      var i :| 0 <= i < |ports| && ports[i] == p;
      assert FoundIn(ports[i], held);
      var j :| 0 <= j < |held| && Allocates(held[j], ports[i]);
      assert held[j] in held;
    }
    assert PortNumbers(ports) <= HeldNumbers(held);
    SubsetSizes(PortNumbers(ports), HeldNumbers(held));
    forall j | 0 <= j < |held| ensures IsForSome(held[j], ports) {
      assert held[j] in held && held[j].servicePort in HeldNumbers(held);
      var p :| p in ports && p.port == held[j].servicePort;
      var i :| 0 <= i < |ports| && ports[i] == p;
      assert FoundIn(ports[i], held);
      var k :| 0 <= k < |held| && Allocates(held[k], ports[i]);
      assert k == j;
    }
  }

  lemma SubsetSizes(a: set<int>, b: set<int>)
    requires a <= b && |b| <= |a|
    ensures a == b
  {
    assert b == a + (b - a) && |b| == |a| + |b - a|;
  }

  predicate OnlyHeldFor(held: seq<AllocatedPort>, sp: PortSpec, j: nat)
    requires j < |held|
  {
    && Allocates(held[j], sp)
    && forall k :: 0 <= k < |held| && (held[k].servicePort == sp.port || held[k].name == sp.name) ==> k == j
  }

  /** The allocation of a service port, by position. */
  lemma HeldFor(held: seq<AllocatedPort>, ports: seq<PortSpec>, sp: PortSpec) returns (j: nat)
    requires Matches(held, ports) && DistinctPorts(ports) && sp in ports
    ensures j < |held| && OnlyHeldFor(held, sp, j)
  {
    var i :| 0 <= i < |ports| && ports[i] == sp;
    assert FoundIn(ports[i], held);
    j :| 0 <= j < |held| && Allocates(held[j], ports[i]);
    MatchesIsPermutation(held, ports);
  }

  // ---- gateway ports ----

  /** By name, the Service port leads to its own gateway port and no other. */
  lemma ServicePortLeads(service: Service, slice: Slice, r: Record, gatewayIP: string, sp: PortSpec, j: nat, g: int)
    requires Published.ServiceAsked(service, r) && Published.SliceLeads(slice, r.status.allocatedPorts, gatewayIP)
    requires j < |r.status.allocatedPorts| && OnlyHeldFor(r.status.allocatedPorts, sp, j)
    ensures LeadsToGateway(service, slice, sp.port, g) <==> g == r.status.allocatedPorts[j].gatewayPort
  {
    var held := r.status.allocatedPorts;
    assert service.ports[j] in service.ports && slice.ports[j] in slice.ports;
    if s, e :| s in service.ports && e in slice.ports && s.port == sp.port && e.name == s.name && e.port == g {
      var k :| 0 <= k < |held| && service.ports[k] == s;
      var l :| 0 <= l < |held| && slice.ports[l] == e;
      assert k == j && l == j;
    }
  }

  /** What the manager writes: a frontend has its own backend and no bind but the manager's. */
  predicate Managed(cfg: Config) {
    forall f :: f in cfg.frontends ==>
      cfg.frontends[f].defaultBackend == f + "-backend" && forall b :: b in cfg.frontends[f].binds ==> b == BIND
  }

  /** A server behind some other listener on the same gateway port. */
  predicate ForeignServer(cfg: Config, configs: seq<Listener>, g: int, s: Server) {
    exists f :: f in cfg.frontends && f !in FrontendNames(configs) && ListensOn(cfg, f, g) && ServerBehind(cfg, f, s)
  }

  lemma ListenersDistinct(w: World, r: Record, calls: Calls)
    requires Names.Clean(r.namespace) && Names.Clean(r.name) && ValidSpec(r.spec)
    requires Matches(r.status.allocatedPorts, r.spec.ports) && DistinctPorts(r.spec.ports)
    ensures DistinctListeners(GatewayIdempotence.Listeners(w, r, calls))
  {
    var held, configs := r.status.allocatedPorts, GatewayIdempotence.Listeners(w, r, calls);
    MatchesIsPermutation(held, r.spec.ports);
    HeldArePositive(held, r.spec);
    forall i, j | 0 <= i < j < |configs| ensures FrontendName(configs[i]) != FrontendName(configs[j]) {
      Names.ListenerNamesDistinct(r.namespace, r.name, held[i].servicePort, r.name, held[j].servicePort);
    }
  }

  lemma HeldArePositive(held: seq<AllocatedPort>, spec: Spec)
    requires ValidSpec(spec)
    requires forall j :: 0 <= j < |held| ==> IsForSome(held[j], spec.ports)
    ensures forall j :: 0 <= j < |held| ==> held[j].servicePort > 0
  {
    forall j | 0 <= j < |held| ensures held[j].servicePort > 0 {
      assert IsForSome(held[j], spec.ports);
      var i :| 0 <= i < |spec.ports| && Allocates(held[j], spec.ports[i]);
      assert ValidPort(spec.ports[i]);
    }
  }

  /** Behind the gateway port of allocation j there are the servers its listener asked for, and those of other
      listeners that were on the port before: none of them is removed. */
  lemma GatewayPortLeads(cfg: Config, held: seq<AllocatedPort>, configs: seq<Listener>, j: nat, s: Server)
    requires |configs| == |held| && j < |held| && DistinctListeners(configs) && Managed(cfg)
    requires forall i :: 0 <= i < |held| ==> configs[i].port == held[i].gatewayPort
    requires PortAlloc.Distinct(GatewayPorts(held))
    ensures Behind(Overlay(cfg, configs), held[j].gatewayPort, s)
      <==> HasServer(Desired(configs[j].targets), s) || ForeignServer(cfg, configs, held[j].gatewayPort, s)
  {
    var cfg', g := Overlay(cfg, configs), held[j].gatewayPort;
    assert configs[j] in configs;
    OverlayWrites(cfg, configs, configs[j]);
    var own := FrontendName(configs[j]);
    assert ListensOn(cfg', own, g) by { assert cfg'.frontends[own].binds[BIND] == g; }
    assert cfg'.frontends[own].defaultBackend == BackendName(configs[j]);
    assert cfg'.pools[BackendName(configs[j])] == Desired(configs[j].targets);
    assert ServerBehind(cfg', own, s) <==> HasServer(Desired(configs[j].targets), s);
    forall f | f !in FrontendNames(configs)
      ensures ListensOn(cfg', f, g) && ServerBehind(cfg', f, s) <==> ListensOn(cfg, f, g) && ServerBehind(cfg, f, s)
    {
      OtherListenerStays(cfg, configs, f, g, s);
    }
    forall f | f in FrontendNames(configs) && ListensOn(cfg', f, g) ensures f == own {
      OnlyListener(cfg, held, configs, j, f);
    }
    if Behind(cfg', g, s) {
      var f :| ListensOn(cfg', f, g) && ServerBehind(cfg', f, s);
      assert f !in FrontendNames(configs) ==> ListensOn(cfg, f, g) && ServerBehind(cfg, f, s);
    }
    if ForeignServer(cfg, configs, g, s) {
      var f :| f in cfg.frontends && f !in FrontendNames(configs) && ListensOn(cfg, f, g) && ServerBehind(cfg, f, s);
      assert ListensOn(cfg', f, g) && ServerBehind(cfg', f, s);
    }
  }

  lemma OtherListenerStays(cfg: Config, configs: seq<Listener>, f: string, g: int, s: Server)
    requires Managed(cfg) && f !in FrontendNames(configs)
    ensures var cfg' := Overlay(cfg, configs);
      ListensOn(cfg', f, g) && ServerBehind(cfg', f, s) <==> ListensOn(cfg, f, g) && ServerBehind(cfg, f, s)
  {
    var cfg' := Overlay(cfg, configs);
    OverlayElsewhere(cfg, configs);
    Untouched(cfg.frontends, cfg'.frontends, FrontendNames(configs), f);
    if f in cfg.frontends {
      OwnBackendIsOthers(configs, f);
      Untouched(cfg.pools, cfg'.pools, BackendNames(configs), f + "-backend");
    }
  }

  lemma OwnBackendIsOthers(configs: seq<Listener>, f: string)
    ensures f + "-backend" in BackendNames(configs) ==> f in FrontendNames(configs)
  {
    if f + "-backend" in BackendNames(configs) {
      var c :| c in configs && BackendName(c) == f + "-backend";
      assert FrontendName(c) == BackendName(c)[..|f|] == f;
    }
  }

  lemma Untouched<T>(m: map<string, T>, m': map<string, T>, names: set<string>, f: string)
    requires m' - names == m - names && f !in names
    ensures f in m' <==> f in m
    ensures f in m ==> m'[f] == m[f]
  {
    assert f in m' <==> f in m' - names;
    assert f in m <==> f in m - names;
  }

  lemma OnlyListener(cfg: Config, held: seq<AllocatedPort>, configs: seq<Listener>, j: nat, f: string)
    requires |configs| == |held| && j < |held| && DistinctListeners(configs) && Managed(cfg)
    requires forall i :: 0 <= i < |held| ==> configs[i].port == held[i].gatewayPort
    requires PortAlloc.Distinct(GatewayPorts(held)) && ListensOn(Overlay(cfg, configs), f, held[j].gatewayPort)
    requires f in FrontendNames(configs)
    ensures f == FrontendName(configs[j])
  {
    var cfg', g := Overlay(cfg, configs), held[j].gatewayPort;
    var b :| b in cfg'.frontends[f].binds && cfg'.frontends[f].binds[b] == g;
    var c :| c in configs && FrontendName(c) == f;
    var i :| 0 <= i < |configs| && configs[i] == c;
    OverlayWrites(cfg, configs, c);
    assert cfg'.frontends[f].binds == BindsOf(cfg, f)[BIND := c.port];
    assert b == BIND && g == held[i].gatewayPort;
    assert GatewayPorts(held)[i] == GatewayPorts(held)[j];
  }

  // ---- servers and tunnels ----

  predicate SlotsDistinct(net: map<string, RunningPod>) {
    forall k, l :: k in net && l in net && net[k].slot == net[l].slot ==> k == l
  }

  predicate NetNamed(net: map<string, RunningPod>) {
    forall k :: k in net ==>
      && k == Names.KeyOf(net[k].namespace, net[k].name)
      && Names.Clean(net[k].namespace) && Names.Clean(net[k].name)
  }

  /** A selector picks the pods of its namespace that have all of its labels. */
  predicate Picks(ns: string, selector: map<string, string>, pod: RunningPod) {
    pod.namespace == ns && forall k :: k in selector ==> k in pod.labels && pod.labels[k] == selector[k]
  }

  /** The pods a selector picks, that expose the port. */
  predicate Serves(net: map<string, RunningPod>, ns: string, selector: map<string, string>, podKey: string, port: int) {
    podKey in net && Picks(ns, selector, net[podKey]) && port in net[podKey].containerPorts
  }

  lemma PicksIsMatching(ns: string, selector: map<string, string>, pod: RunningPod)
    ensures Picks(ns, selector, pod) <==> Matching(InfoOf(pod), ns, selector)
  {
  }

  /** Position i of a pod's ports on its machine. */
  predicate MachineHas(pod: RunningPod, i: int, port: int) {
    0 <= i < |Tunnels.MachinePorts(pod.containerPorts)| && Tunnels.MachinePorts(pod.containerPorts)[i] == port
  }

  /** The server built for a pod leads to whatever runs in the pod's slot, at the position of the target port in the
      controller's list. */
  lemma ServerLeadsToSlot(net: map<string, RunningPod>, pod: RunningPod, targetPort: int, podKey: string, port: int)
    requires targetPort in pod.containerPorts
    ensures BackendPort(InfoOf(pod), targetPort).Some?
    ensures TunnelLeads(net, Server(Tunnels.PeerAddress(pod.slot), BackendPort(InfoOf(pod), targetPort).value),
                        podKey, port)
      <==> && podKey in net && net[podKey].slot == pod.slot
           && MachineHas(net[podKey], IndexOf(Tunnels.ControllerPorts(pod.containerPorts), targetPort), port)
  {
    Exposed(pod, targetPort);
    if podKey in net { Tunnels.PeerAddressesDistinct(pod.slot, net[podKey].slot); }
  }

  /** If the pod runs and lists no smaller port twice, that is the target port of this pod and nothing else. */
  lemma ServerLeads(net: map<string, RunningPod>, k: string, targetPort: int, podKey: string, port: int)
    requires k in net && SlotsDistinct(net) && targetPort in net[k].containerPorts
    requires Tunnels.NoRepeatBelow(net[k].containerPorts, targetPort)
    ensures BackendPort(InfoOf(net[k]), targetPort).Some?
    ensures TunnelLeads(net, Server(Tunnels.PeerAddress(net[k].slot), BackendPort(InfoOf(net[k]), targetPort).value),
                        podKey, port)
      <==> podKey == k && port == targetPort
  {
    Tunnels.PositionsAgree(net[k].containerPorts, targetPort);
    ServerLeadsToSlot(net, net[k], targetPort, podKey, port);
  }

  lemma Exposed(pod: RunningPod, targetPort: int)
    ensures BackendPort(InfoOf(pod), targetPort).Some? <==> targetPort in pod.containerPorts
  {
    Tunnels.SortIntsSorts(pod.containerPorts);
    Tunnels.SameMembers(pod.containerPorts, Tunnels.SortInts(pod.containerPorts));
    Tunnels.DedupAscends(Tunnels.SortInts(pod.containerPorts));
  }

  /** A pod that the controller still knows and whose machine is gone, with a running pod in its slot. */
  predicate FinishedLeads(cached: map<string, RunningPod>, net: map<string, RunningPod>, ns: string,
                          selector: map<string, string>, targetPort: int, k: string, podKey: string, port: int) {
    && k in cached && k !in net && Picks(ns, selector, cached[k]) && targetPort in cached[k].containerPorts
    && podKey in net && net[podKey].slot == cached[k].slot
    && MachineHas(net[podKey], IndexOf(Tunnels.ControllerPorts(cached[k].containerPorts), targetPort), port)
  }

  predicate FinishedRoute(cached: map<string, RunningPod>, net: map<string, RunningPod>, ns: string,
                          selector: map<string, string>, targetPort: int, podKey: string, port: int) {
    exists k :: k in cached && FinishedLeads(cached, net, ns, selector, targetPort, k, podKey, port)
  }

  /** The controller knows every running pod as it runs; it may know others, whose machines are gone or not there
      yet. */
  predicate KnowsRunning(cached: map<string, RunningPod>, net: map<string, RunningPod>) {
    forall k :: k in net ==> k in cached && cached[k] == net[k]
  }

  lemma CachedServerLeads(cached: map<string, RunningPod>, net: map<string, RunningPod>, ns: string,
                          selector: map<string, string>, targetPort: int, k: string, podKey: string, port: int)
    requires KnowsRunning(cached, net) && SlotsDistinct(net)
    requires Serves(net, ns, selector, k, targetPort) ==> Tunnels.NoRepeatBelow(net[k].containerPorts, targetPort)
    requires k in cached && Picks(ns, selector, cached[k]) && targetPort in cached[k].containerPorts
    ensures BackendPort(InfoOf(cached[k]), targetPort).Some?
    ensures TunnelLeads(net, Server(Tunnels.PeerAddress(cached[k].slot),
                                    BackendPort(InfoOf(cached[k]), targetPort).value),
                        podKey, port)
      <==> if k in net then podKey == k && port == targetPort
           else FinishedLeads(cached, net, ns, selector, targetPort, k, podKey, port)
  {
    if k in net {
      ServerLeads(net, k, targetPort, podKey, port);
    } else {
      ServerLeadsToSlot(net, cached[k], targetPort, podKey, port);
    }
  }

  /** The servers asked for one target port, followed through their tunnels, are that port on the serving pods, and
      what took over the slots of finished ones. */
  lemma TargetsLead(cached: map<string, RunningPod>, net: map<string, RunningPod>, order: seq<string>, ns: string,
                    selector: map<string, string>, targetPort: int, podKey: string, port: int)
    requires NetNamed(cached) && KnowsRunning(cached, net) && SlotsDistinct(net)
    requires GatewayIdempotence.RangesOver(order, InfosOf(cached))
    requires forall k :: Serves(net, ns, selector, k, targetPort) ==>
      Tunnels.NoRepeatBelow(net[k].containerPorts, targetPort)
    ensures var desired := Desired(TargetsFor(MatchingPods(InfosOf(cached), order, ns, selector), targetPort));
      SomeServerLeads(net, desired, podKey, port)
      <==> || (Serves(net, ns, selector, podKey, targetPort) && port == targetPort)
           || FinishedRoute(cached, net, ns, selector, targetPort, podKey, port)
  {
    var pods := InfosOf(cached);
    var ts := TargetsFor(MatchingPods(pods, order, ns, selector), targetPort);
    GatewayIdempotence.MatchingTargetsOneServer(pods, order, ns, selector, targetPort);
    DesiredAt(ts);
    var desired := Desired(ts);
    if n :| n in desired && TunnelLeads(net, desired[n], podKey, port) {
      var t :| t in ts && Names.SanitizeName(t.name) == n;
      GatewayIdempotence.MatchingTargets(pods, order, ns, selector, targetPort, t);
      var k :| k in pods && Matching(pods[k], ns, selector) && BackendPort(pods[k], targetPort).Some?
               && t == GatewayIdempotence.TargetOf(pods[k], BackendPort(pods[k], targetPort).value);
      Exposed(cached[k], targetPort);
      PicksIsMatching(ns, selector, cached[k]);
      CachedServerLeads(cached, net, ns, selector, targetPort, k, podKey, port);
    }
    forall k | k in cached && Picks(ns, selector, cached[k]) && targetPort in cached[k].containerPorts
               && if k in net then podKey == k && port == targetPort
                  else FinishedLeads(cached, net, ns, selector, targetPort, k, podKey, port)
      ensures SomeServerLeads(net, desired, podKey, port)
    {
      CachedServerLeads(cached, net, ns, selector, targetPort, k, podKey, port);
      var t := GatewayIdempotence.TargetOf(pods[k], BackendPort(pods[k], targetPort).value);
      PicksIsMatching(ns, selector, cached[k]);
      GatewayIdempotence.MatchingTargets(pods, order, ns, selector, targetPort, t);
      assert t in ts;
      assert TunnelLeads(net, desired[Names.SanitizeName(t.name)], podKey, port);
    }
  }

  // ---- the theorem ----

  /** The gateway port that a spec port gets, and a server of some other listener on it that leads to the pod. */
  ghost predicate ForeignRoute(w: World, net: map<string, RunningPod>, held: seq<AllocatedPort>, configs: seq<Listener>,
                         sp: PortSpec, podKey: string, port: int) {
    exists j, s :: 0 <= j < |held| && Allocates(held[j], sp)
                   && ForeignServer(w.api.committed, configs, held[j].gatewayPort, s)
                   && TunnelLeads(net, s, podKey, port)
  }

  /** What publication needs to know of the service and of the pods. */
  ghost predicate Routable(w: World, cached: map<string, RunningPod>, net: map<string, RunningPod>, r: Record,
                           calls: Calls, sp: PortSpec) {
    && ValidSpec(r.spec) && DistinctPorts(r.spec.ports) && sp in r.spec.ports
    && Names.Clean(r.namespace) && Names.Clean(r.name)
    && Matches(r.status.allocatedPorts, r.spec.ports) && PortAlloc.Distinct(GatewayPorts(r.status.allocatedPorts))
    && Managed(w.api.committed) && PodsOnline(w, cached, net, r, calls, sp.targetPort)
  }

  /** The controller's pods include the running ones; the slots of these differ; no serving pod repeats a container
      port below the target port. */
  ghost predicate PodsOnline(w: World, cached: map<string, RunningPod>, net: map<string, RunningPod>, r: Record,
                             calls: Calls, targetPort: int) {
    && w.pods == InfosOf(cached) && NetNamed(cached) && GatewayIdempotence.RangesOver(calls.podOrder, w.pods)
    && KnowsRunning(cached, net) && SlotsDistinct(net)
    && forall k :: Serves(net, r.namespace, r.spec.selector, k, targetPort) ==>
         Tunnels.NoRepeatBelow(net[k].containerPorts, targetPort)
  }

  /** The routes a service asks for, and those through the slots of its finished pods. */
  predicate PodRoute(cached: map<string, RunningPod>, net: map<string, RunningPod>, r: Record, sp: PortSpec,
                     podKey: string, port: int) {
    || (Serves(net, r.namespace, r.spec.selector, podKey, sp.targetPort) && port == sp.targetPort)
    || FinishedRoute(cached, net, r.namespace, r.spec.selector, sp.targetPort, podKey, port)
  }

  /** After a successful publication, Service port sp.port leads to the pods of the service's namespace that match
      its selector and expose sp.targetPort, there to that port only, and besides only through the slots of finished
      pods and where a listener that was already on the gateway port leads. */
  lemma ServiceRoutesExactly(env: Env, w: World, cached: map<string, RunningPod>, net: map<string, RunningPod>,
                             r: Record, calls: Calls, sp: PortSpec, podKey: string, port: int)
    requires Lawful(env) && AllServed(env) && PublishSteps(env, w, r, calls).reason == Reconciled
    requires Routable(w, cached, net, r, calls, sp)
    ensures Reaches(PublishSteps(env, w, r, calls).world, net, Key(r), sp.port, podKey, port)
      <==> && Published.SliceFound(w.slices, r, w.gatewayIP)
           && (|| PodRoute(cached, net, r, sp, podKey, port)
               || ForeignRoute(w, net, r.status.allocatedPorts, GatewayIdempotence.Listeners(w, r, calls), sp, podKey,
                               port))
  {
    var w' := PublishSteps(env, w, r, calls).world;
    PublishedState(env, w, r, calls);
    var j := HeldFor(r.status.allocatedPorts, r.spec.ports, sp);
    PublishedRoutes(w, w', cached, net, r, calls, sp, j, podKey, port);
  }

  lemma PublishedRoutes(w: World, w': World, cached: map<string, RunningPod>, net: map<string, RunningPod>,
                        r: Record, calls: Calls, sp: PortSpec, j: nat, podKey: string, port: int)
    requires ObjectsPublished(w, w', r)
    requires w'.api.committed == Overlay(w.api.committed, GatewayIdempotence.Listeners(w, r, calls))
    requires Routable(w, cached, net, r, calls, sp)
    requires j < |r.status.allocatedPorts| && OnlyHeldFor(r.status.allocatedPorts, sp, j)
    ensures Reaches(w', net, Key(r), sp.port, podKey, port)
      <==> && Published.SliceFound(w.slices, r, w.gatewayIP)
           && (|| PodRoute(cached, net, r, sp, podKey, port)
               || ForeignRoute(w, net, r.status.allocatedPorts, GatewayIdempotence.Listeners(w, r, calls), sp, podKey,
                               port))
  {
    var held, configs := r.status.allocatedPorts, GatewayIdempotence.Listeners(w, r, calls);
    var desired := DesiredFor(w, r, calls, sp.targetPort);
    var g0 := held[j].gatewayPort;
    TargetsLead(cached, net, calls.podOrder, r.namespace, r.spec.selector, sp.targetPort, podKey, port);
    ServiceSideRoutes(w, w', r, sp, j);
    HAProxySideRoutes(w, w'.api.committed, r, calls, sp, j);
    Compose(w', net, Key(r), sp.port, g0, w.api.committed, configs, desired, podKey, port);
    OneForeignPort(w, net, held, configs, sp, j, podKey, port);
  }

  lemma OneForeignPort(w: World, net: map<string, RunningPod>, held: seq<AllocatedPort>, configs: seq<Listener>,
                       sp: PortSpec, j: nat, podKey: string, port: int)
    requires j < |held| && OnlyHeldFor(held, sp, j)
    ensures ForeignRoute(w, net, held, configs, sp, podKey, port)
      <==> ForeignServerLeads(net, w.api.committed, configs, held[j].gatewayPort, podKey, port)
  {
  }

  lemma ServiceSideRoutes(w: World, w': World, r: Record, sp: PortSpec, j: nat)
    requires ObjectsPublished(w, w', r) && '/' !in r.namespace
    requires j < |r.status.allocatedPorts| && OnlyHeldFor(r.status.allocatedPorts, sp, j)
    ensures LeadsOnlyTo(w'.services[Key(r)], w'.slices[Key(r)], sp.port, r.status.allocatedPorts[j].gatewayPort)
    ensures ServesFor(w'.slices[Key(r)], Names.NameIn(Key(r)), w'.gatewayIP)
       <==> Published.SliceFound(w.slices, r, w.gatewayIP)
  {
    Names.NameInKey(r.namespace, r.name);
    forall g ensures LeadsToGateway(w'.services[Key(r)], w'.slices[Key(r)], sp.port, g)
                     <==> g == r.status.allocatedPorts[j].gatewayPort
    {
      ServicePortLeads(w'.services[Key(r)], w'.slices[Key(r)], r, w.gatewayIP, sp, j, g);
    }
  }

  lemma HAProxySideRoutes(w: World, cfg': Config, r: Record, calls: Calls, sp: PortSpec, j: nat)
    requires cfg' == Overlay(w.api.committed, GatewayIdempotence.Listeners(w, r, calls)) && Managed(w.api.committed)
    requires ValidSpec(r.spec) && DistinctPorts(r.spec.ports) && Names.Clean(r.namespace) && Names.Clean(r.name)
    requires Matches(r.status.allocatedPorts, r.spec.ports) && PortAlloc.Distinct(GatewayPorts(r.status.allocatedPorts))
    requires j < |r.status.allocatedPorts| && OnlyHeldFor(r.status.allocatedPorts, sp, j)
    ensures AllBehind(cfg', r.status.allocatedPorts[j].gatewayPort, w.api.committed,
                      GatewayIdempotence.Listeners(w, r, calls),
                      DesiredFor(w, r, calls, sp.targetPort))
  {
    var held, configs := r.status.allocatedPorts, GatewayIdempotence.Listeners(w, r, calls);
    assert Desired(configs[j].targets) == DesiredFor(w, r, calls, sp.targetPort);
    ListenersDistinct(w, r, calls);
    var g := held[j].gatewayPort;
    forall s ensures Behind(cfg', g, s)
      <==> HasServer(Desired(configs[j].targets), s) || ForeignServer(w.api.committed, configs, g, s)
    {
      GatewayPortLeads(w.api.committed, held, configs, j, s);
    }
  }

  function DesiredFor(w: World, r: Record, calls: Calls, targetPort: int): map<string, Server> {
    Desired(TargetsFor(MatchingPods(w.pods, calls.podOrder, r.namespace, r.spec.selector), targetPort))
  }

  ghost predicate Behind(cfg: Config, g: int, s: Server) {
    exists f :: ListensOn(cfg, f, g) && ServerBehind(cfg, f, s)
  }

  predicate HasServer(desired: map<string, Server>, s: Server) {
    exists n :: n in desired && desired[n] == s
  }

  ghost predicate AllBehind(cfg': Config, g: int, cfg: Config, configs: seq<Listener>, desired: map<string, Server>) {
    forall s :: Behind(cfg', g, s) <==> HasServer(desired, s) || ForeignServer(cfg, configs, g, s)
  }

  ghost predicate LeadsOnlyTo(service: Service, slice: Slice, servicePort: int, g0: int) {
    forall g :: LeadsToGateway(service, slice, servicePort, g) <==> g == g0
  }

  predicate SomeServerLeads(net: map<string, RunningPod>, desired: map<string, Server>, podKey: string, port: int) {
    exists n :: n in desired && TunnelLeads(net, desired[n], podKey, port)
  }

  ghost predicate ForeignServerLeads(net: map<string, RunningPod>, cfg: Config, configs: seq<Listener>, g: int,
                               podKey: string, port: int) {
    exists s :: ForeignServer(cfg, configs, g, s) && TunnelLeads(net, s, podKey, port)
  }

  lemma Compose(w: World, net: map<string, RunningPod>, key: string, servicePort: int, g0: int,
                cfg: Config, configs: seq<Listener>, desired: map<string, Server>, podKey: string, port: int)
    requires key in w.services && key in w.slices
    requires LeadsOnlyTo(w.services[key], w.slices[key], servicePort, g0)
    requires AllBehind(w.api.committed, g0, cfg, configs, desired)
    ensures Reaches(w, net, key, servicePort, podKey, port)
      <==> && ServesFor(w.slices[key], Names.NameIn(key), w.gatewayIP)
           && (|| SomeServerLeads(net, desired, podKey, port)
               || ForeignServerLeads(net, cfg, configs, g0, podKey, port))
  {
    var found := ServesFor(w.slices[key], Names.NameIn(key), w.gatewayIP);
    assert LeadsToGateway(w.services[key], w.slices[key], servicePort, g0);
    if n :| n in desired && TunnelLeads(net, desired[n], podKey, port) {
      assert HasServer(desired, desired[n]) && Behind(w.api.committed, g0, desired[n]);
      var f :| ListensOn(w.api.committed, f, g0) && ServerBehind(w.api.committed, f, desired[n]);
      assert found ==> Reaches(w, net, key, servicePort, podKey, port);
    }
    if s :| ForeignServer(cfg, configs, g0, s) && TunnelLeads(net, s, podKey, port) {
      assert Behind(w.api.committed, g0, s);
      var f :| ListensOn(w.api.committed, f, g0) && ServerBehind(w.api.committed, f, s);
      assert found ==> Reaches(w, net, key, servicePort, podKey, port);
    }
    if Reaches(w, net, key, servicePort, podKey, port) {
      var g: int, f: string, s: Server :| LeadsToGateway(w.services[key], w.slices[key], servicePort, g)
        && ListensOn(w.api.committed, f, g) && ServerBehind(w.api.committed, f, s) && TunnelLeads(net, s, podKey, port);
      assert Behind(w.api.committed, g0, s);
      assert HasServer(desired, s) ==> SomeServerLeads(net, desired, podKey, port);
    }
  }

  // ---- over runs ----

  lemma ConfiguredStaysManaged(cfg: Config, cfg': Config, c: Listener)
    requires Managed(cfg) && Configured(cfg, cfg', c)
    ensures Managed(cfg')
  {
    forall f | f in cfg'.frontends && f != FrontendName(c)
      ensures f in cfg.frontends && cfg'.frontends[f] == cfg.frontends[f]
    {
      Untouched(cfg.frontends, cfg'.frontends, {FrontendName(c)}, f);
    }
  }

  lemma {:induction false} ApplyStaysManaged(env: Env, a: Api, configs: seq<Listener>)
    requires Lawful(env) && Managed(a.committed)
    ensures Managed(Apply(env, a, configs).0.committed)
    decreases |configs|
  {
    if configs == [] {
    } else {
      var a1 := ApplyOne(env, a, configs[0]).0;
      ApplyOneIsAtomic(env, a, configs[0]);
      if a1.committed != a.committed {
        ConfiguredStaysManaged(a.committed, a1.committed, configs[0]);
      }
      ApplyStaysManaged(env, a1, configs[1..]);
    }
  }

  lemma {:induction false} RemoveStaysManaged(env: Env, a: Api, configs: seq<Listener>)
    requires Managed(a.committed)
    ensures Managed(RemoveEach(env, a, configs).0.committed)
    decreases |configs|
  {
    if configs == [] {
    } else {
      RemoveStaysManaged(env, RemoveOne(env, a, configs[0]).0, configs[1..]);
    }
  }

  lemma PublishStaysManaged(env: Env, w: World, r: Record, calls: Calls)
    requires Lawful(env) && Managed(w.api.committed)
    ensures Managed(PublishSteps(env, w, r, calls).world.api.committed)
  {
    ApplyStaysManaged(env, w.api, GatewayIdempotence.Listeners(w, r, calls));
  }

  lemma ReconcileStaysManaged(env: Env, w: World, r: Record, calls: Calls)
    requires Lawful(env) && Managed(w.api.committed)
    ensures Managed(ReconcileRecord(env, w, r, calls).world.api.committed)
  {
    var a := EnsurePorts(w.ledger, Key(r), r.status.allocatedPorts, r.spec.ports);
    PublishStaysManaged(env, w.(ledger := a.ledger), r.(status := r.status.(allocatedPorts := a.held)), calls);
  }

  lemma {:induction false} RunStaysManaged(env: Env, w: World, events: seq<Event>)
    requires Lawful(env) && Managed(w.api.committed) && RecordsKept(w)
    ensures Managed(RunEvents(env, w, events).api.committed)
    decreases |events|
  {
    if events == [] {
    } else {
      StepStaysManaged(env, w, events[0]);
      RecordsStayKept(env, w, events[0]);
      RunStaysManaged(env, StepEvent(env, w, events[0]), events[1..]);
    }
  }

  lemma StepStaysManaged(env: Env, w: World, e: Event)
    requires Lawful(env) && Managed(w.api.committed)
    ensures Managed(StepEvent(env, w, e).api.committed)
  {
    if e.KeyTaken? && e.key in w.stored {
      KeyStaysManaged(env, w, e.key, e.calls);
    }
  }

  lemma KeyStaysManaged(env: Env, w: World, key: string, calls: Calls)
    requires Lawful(env) && Managed(w.api.committed) && key in w.stored
    ensures Managed(ReconcileKey(env, w, key, calls).world.api.committed)
  {
    var r := w.stored[key];
    if r.deleting {
      FinalizeStaysManaged(env, w, r, calls);
    } else if FINALIZER in r.finalizers {
      ReconcileStaysManaged(env, w, r, calls);
    } else {
      ReconcileStaysManaged(env, FinalizerAdded(w, key, calls), WithFinalizer(r), Stale(calls));
    }
  }

  lemma FinalizeStaysManaged(env: Env, w: World, r: Record, calls: Calls)
    requires Managed(w.api.committed)
    ensures Managed(Finalize(env, w, r, calls).api.committed)
  {
    if Key(r) in w.listeners { RemoveStaysManaged(env, w.api, w.listeners[Key(r)]); }
  }

  function ConfigsOf(w: World, r: Record, calls: Calls): seq<Listener> {
    ListenersFor(Key(r), HeldAfter(w, r), MatchingPods(w.pods, calls.podOrder, r.namespace, r.spec.selector))
  }

  /** End to end, over every run from a fresh controller and an empty HAProxy, with any failing and lost writes, any
      failing HAProxy calls and exhausted ranges: when a turn in which HAProxy serves every call then succeeds, each
      Service port leads to its target port on exactly the matching pods, and besides only through the slots of
      finished pods and where an older listener on the same gateway port leads. */
  lemma RunRoutesExactly(env: Env, w0: World, events: seq<Event>, served: Env, cached: map<string, RunningPod>,
                         net: map<string, RunningPod>, key: string, calls: Calls, sp: PortSpec, podKey: string,
                         port: int)
    requires Lawful(env) && FreshWorld(w0) && w0.api.committed == Config(map[], map[])
    requires Lawful(served) && AllServed(served)
    requires var w := RunEvents(env, w0, events); key in w.stored && TurnSucceeds(served, w, w.stored[key], calls)
    requires var w := RunEvents(env, w0, events); var r := w.stored[key];
      && DistinctPorts(r.spec.ports) && sp in r.spec.ports && Names.Clean(r.namespace) && Names.Clean(r.name)
      && PodsOnline(w, cached, net, r, calls, sp.targetPort)
    ensures var w := RunEvents(env, w0, events); var r := w.stored[key];
      Reaches(ReconcileKey(served, w, key, calls).world, net, key, sp.port, podKey, port)
      <==> && Published.SliceIsFound(w, r)
           && (|| PodRoute(cached, net, r, sp, podKey, port)
               || ForeignRoute(w, net, HeldAfter(w, r), ConfigsOf(w, r, calls), sp, podKey, port))
  {
    var w := RunEvents(env, w0, events);
    GatewayAccounts.FreshWorldSound(w0);
    GatewayAccounts.RunStaysSound(env, w0, events);
    RunStaysManaged(env, w0, events);
    TurnRoutesExactly(served, w, cached, net, key, calls, sp, podKey, port);
  }

  /** The turn reconciles the record, and successfully. */
  predicate TurnSucceeds(env: Env, w: World, r: Record, calls: Calls) {
    && !r.deleting && (FINALIZER in r.finalizers || calls.finalizerWrite == Landed)
    && RunSteps(env, w, r, calls).reason == Reconciled
  }

  lemma TurnRoutesExactly(env: Env, w: World, cached: map<string, RunningPod>, net: map<string, RunningPod>,
                          key: string, calls: Calls, sp: PortSpec, podKey: string, port: int)
    requires Lawful(env) && AllServed(env) && RecordsKept(w) && GatewayAccounts.PortsSound(w)
    requires Managed(w.api.committed)
    requires key in w.stored && TurnSucceeds(env, w, w.stored[key], calls)
    requires var r := w.stored[key];
      && DistinctPorts(r.spec.ports) && sp in r.spec.ports && Names.Clean(r.namespace) && Names.Clean(r.name)
      && PodsOnline(w, cached, net, r, calls, sp.targetPort)
    ensures var r := w.stored[key];
      Reaches(ReconcileKey(env, w, key, calls).world, net, key, sp.port, podKey, port)
      <==> && Published.SliceIsFound(w, r)
           && (|| PodRoute(cached, net, r, sp, podKey, port)
               || ForeignRoute(w, net, HeldAfter(w, r), ConfigsOf(w, r, calls), sp, podKey, port))
  {
    var r := w.stored[key];
    assert Key(r) == key;
    if FINALIZER in r.finalizers {
      ReconcileRoutesExactly(env, w, cached, net, r, calls, sp, podKey, port);
    } else {
      FinalizerKeepsRecords(w, key, calls);
      FinalizerTurnRoutes(env, w, cached, net, key, calls, sp, podKey, port);
    }
  }

  lemma FinalizerTurnRoutes(env: Env, w: World, cached: map<string, RunningPod>, net: map<string, RunningPod>,
                            key: string, calls: Calls, sp: PortSpec, podKey: string, port: int)
    requires Lawful(env) && AllServed(env) && GatewayAccounts.PortsSound(w) && Managed(w.api.committed)
    requires key in w.stored && FINALIZER !in w.stored[key].finalizers && Key(w.stored[key]) == key
    requires TurnSucceeds(env, w, w.stored[key], calls)
    requires var r := w.stored[key];
      && DistinctPorts(r.spec.ports) && sp in r.spec.ports && Names.Clean(r.namespace) && Names.Clean(r.name)
      && PodsOnline(w, cached, net, r, calls, sp.targetPort)
    ensures var r := w.stored[key];
      Reaches(ReconcileKey(env, w, key, calls).world, net, key, sp.port, podKey, port)
      <==> && Published.SliceIsFound(w, r)
           && (|| PodRoute(cached, net, r, sp, podKey, port)
               || ForeignRoute(w, net, HeldAfter(w, r), ConfigsOf(w, r, calls), sp, podKey, port))
  {
    var w1, r1 := FinalizerAdded(w, key, calls), WithFinalizer(w.stored[key]);
    SameSteps(env, w, w.stored[key], calls, w1, r1, Stale(calls));
    assert PodsOnline(w1, cached, net, r1, Stale(calls), sp.targetPort);
    ReconcileRoutesExactly(env, w1, cached, net, r1, Stale(calls), sp, podKey, port);
    assert ReconcileKey(env, w, key, calls) == ReconcileRecord(env, w1, r1, Stale(calls));
  }

  /** The steps look at neither the stored records nor the finalizers nor the answer to the status write. */
  lemma SameSteps(env: Env, w: World, r: Record, calls: Calls, w1: World, r1: Record, calls1: Calls)
    requires w1 == w.(stored := w1.stored) && r1 == r.(finalizers := r1.finalizers)
    requires calls1 == calls.(statusWrite := calls1.statusWrite)
    ensures RunSteps(env, w1, r1, calls1).reason == RunSteps(env, w, r, calls).reason
    ensures HeldAfter(w1, r1) == HeldAfter(w, r) && ConfigsOf(w1, r1, calls1) == ConfigsOf(w, r, calls)
    ensures Published.SliceIsFound(w1, r1) <==> Published.SliceIsFound(w, r)
  {
    var a := EnsurePorts(w.ledger, Key(r), r.status.allocatedPorts, r.spec.ports);
    SamePublication(env, w.(ledger := a.ledger), r.(status := r.status.(allocatedPorts := a.held)), calls,
                    w1.(ledger := a.ledger), r1.(status := r1.status.(allocatedPorts := a.held)), calls1);
  }

  lemma SamePublication(env: Env, w: World, r: Record, calls: Calls, w1: World, r1: Record, calls1: Calls)
    requires w1 == w.(stored := w1.stored) && r1 == r.(finalizers := r1.finalizers)
    requires calls1 == calls.(statusWrite := calls1.statusWrite)
    ensures PublishSteps(env, w1, r1, calls1).reason == PublishSteps(env, w, r, calls).reason
  {
    assert EnsureService(w1.services, r1, calls1) == EnsureService(w.services, r, calls);
    assert EnsureSlice(w1.slices, r1, w1.gatewayIP, calls1) == EnsureSlice(w.slices, r, w.gatewayIP, calls);
    assert GatewayIdempotence.Listeners(w1, r1, calls1) == GatewayIdempotence.Listeners(w, r, calls);
  }

  lemma ReconcileRoutesExactly(env: Env, w: World, cached: map<string, RunningPod>, net: map<string, RunningPod>,
                               r: Record, calls: Calls, sp: PortSpec, podKey: string, port: int)
    requires Lawful(env) && AllServed(env) && PortAlloc.Consistent(w.ledger)
    requires PortAlloc.Distinct(GatewayPorts(r.status.allocatedPorts))
    requires Managed(w.api.committed) && Key(r) in w.stored && RunSteps(env, w, r, calls).reason == Reconciled
    requires DistinctPorts(r.spec.ports) && sp in r.spec.ports && Names.Clean(r.namespace) && Names.Clean(r.name)
    requires PodsOnline(w, cached, net, r, calls, sp.targetPort)
    ensures Reaches(ReconcileRecord(env, w, r, calls).world, net, Key(r), sp.port, podKey, port)
      <==> && Published.SliceIsFound(w, r)
           && (|| PodRoute(cached, net, r, sp, podKey, port)
               || ForeignRoute(w, net, HeldAfter(w, r), ConfigsOf(w, r, calls), sp, podKey, port))
  {
    var a := EnsurePorts(w.ledger, Key(r), r.status.allocatedPorts, r.spec.ports);
    var w1, r1 := w.(ledger := a.ledger), r.(status := r.status.(allocatedPorts := a.held));
    StepsHoldMatchingPorts(env, w, r, calls);
    GatewayAccounts.HeldStaysDistinct(w, r);
    StatusWriteKeepsRest(env, w, r, calls);
    ServiceRoutesExactly(env, w1, cached, net, r1, calls, sp, podKey, port);
  }

  lemma StatusWriteKeepsRest(env: Env, w: World, r: Record, calls: Calls)
    ensures var w', p := ReconcileRecord(env, w, r, calls).world, RunSteps(env, w, r, calls).world;
      w' == p.(stored := w'.stored)
  {
  }

  // ---- a new service ----

  /** The first service of a fresh cluster: once created, a single turn with every call answered makes each of its
      ports reach exactly the target port of exactly the pods it selects and that expose it (and what took over the
      slots of its finished pods), although the status write of that turn is refused. */
  lemma NewServiceRoutesExactly(env: Env, w: World, cached: map<string, RunningPod>, net: map<string, RunningPod>,
                                r: Record, calls: Calls, sp: PortSpec, podKey: string, port: int)
    requires Lawful(env) && AllServed(env) && GatewayIdempotence.Answered(calls) && calls.finalizerWrite == Landed
    requires FreshWorld(w) && w.api.committed == Config(map[], map[]) && w.services == map[] && w.slices == map[]
    requires GatewayLeaks.New(r) && Names.Clean(r.namespace) && Names.Clean(r.name) && ValidSpec(r.spec)
    requires DistinctPorts(r.spec.ports) && sp in r.spec.ports && |r.spec.ports| <= GatewayLeaks.RANGE_SIZE
    requires PodsOnline(w, cached, net, r, calls, sp.targetPort)
    ensures Reaches(RunEvents(env, w, [Created(r), KeyTaken(Key(r), calls)]), net, Key(r), sp.port, podKey, port)
      <==> PodRoute(cached, net, r, sp, podKey, port)
  {
    var w1 := w.(stored := map[Key(r) := r]);
    CreatedThenTaken(env, w, r, calls);
    FirstTurnReconciles(env, w1, r, calls);
    EmptyTurnRoutes(env, w1, cached, net, Key(r), calls, sp, podKey, port);
  }

  lemma EmptyTurnRoutes(env: Env, w: World, cached: map<string, RunningPod>, net: map<string, RunningPod>, key: string,
                        calls: Calls, sp: PortSpec, podKey: string, port: int)
    requires Lawful(env) && AllServed(env) && RecordsKept(w) && GatewayAccounts.PortsSound(w)
    requires w.api.committed == Config(map[], map[])
    requires key in w.stored && TurnSucceeds(env, w, w.stored[key], calls)
    requires var r := w.stored[key];
      && DistinctPorts(r.spec.ports) && sp in r.spec.ports && Names.Clean(r.namespace) && Names.Clean(r.name)
      && PodsOnline(w, cached, net, r, calls, sp.targetPort)
    ensures Reaches(ReconcileKey(env, w, key, calls).world, net, key, sp.port, podKey, port)
      <==> Published.SliceIsFound(w, w.stored[key]) && PodRoute(cached, net, w.stored[key], sp, podKey, port)
  {
    var r := w.stored[key];
    TurnRoutesExactly(env, w, cached, net, key, calls, sp, podKey, port);
    EmptyHasNoForeignRoute(w, net, HeldAfter(w, r), ConfigsOf(w, r, calls), sp, podKey, port);
  }

  lemma EmptyHasNoForeignRoute(w: World, net: map<string, RunningPod>, held: seq<AllocatedPort>, configs: seq<Listener>,
                               sp: PortSpec, podKey: string, port: int)
    requires w.api.committed == Config(map[], map[])
    ensures !ForeignRoute(w, net, held, configs, sp, podKey, port)
  {
  }

  lemma CreatedThenTaken(env: Env, w: World, r: Record, calls: Calls)
    requires FreshWorld(w) && GatewayLeaks.New(r)
    ensures var w1 := w.(stored := map[Key(r) := r]);
      && RunEvents(env, w, [Created(r), KeyTaken(Key(r), calls)]) == ReconcileKey(env, w1, Key(r), calls).world
      && RecordsKept(w1) && GatewayAccounts.PortsSound(w1)
  {
    GatewayAccounts.FreshWorldSound(w);
    GatewayLeaks.FirstEvent(env, w, r);
    TwoEvents(env, w, Created(r), KeyTaken(Key(r), calls));
  }

  lemma TwoEvents(env: Env, w: World, e: Event, e': Event)
    ensures RunEvents(env, w, [e, e']) == StepEvent(env, StepEvent(env, w, e), e')
  {
    assert [e, e'] == [e] + [e'];
    GatewayAccounts.RunAppends(env, w, [e], [e']);
    GatewayLeaks.OneEvent(env, w, e);
    GatewayLeaks.OneEvent(env, StepEvent(env, w, e), e');
  }

  lemma FirstTurnReconciles(env: Env, w: World, r: Record, calls: Calls)
    requires Lawful(env) && AllServed(env) && GatewayIdempotence.Answered(calls) && w.services == map[]
    requires w.slices == map[]
    requires w.ledger == PortAlloc.Empty(PORT_RANGE_START, PORT_RANGE_END)
    requires r.status == NO_STATUS && ValidSpec(r.spec) && |r.spec.ports| <= GatewayLeaks.RANGE_SIZE
    ensures RunSteps(env, w, r, calls).reason == Reconciled
  {
    GatewayLeaks.FreshRangeSuffices(Key(r), r.status.allocatedPorts, r.spec.ports);
    var a := EnsurePorts(w.ledger, Key(r), r.status.allocatedPorts, r.spec.ports);
    GatewayIdempotence.CalmPublishDecides(env, w.(ledger := a.ledger),
                                          r.(status := r.status.(allocatedPorts := a.held)), calls);
  }

  // ---- deletion ----

  /** With every call answered, finalization leaves nothing of the service: its listeners are erased from HAProxy and
      forgotten, its recorded ports are free, its own Service and EndpointSlice are gone and so is its finalizer. */
  lemma FinalizeCleansUp(env: Env, w: World, leaked: set<(string, int)>, r: Record, calls: Calls)
    requires AllServed(env) && GatewayIdempotence.Calm(calls) && Written(calls.serviceDelete)
    requires Written(calls.sliceDelete)
    requires RecordsKept(w) && GatewayAccounts.Accounted(w, leaked) && Key(r) in w.stored && w.stored[Key(r)] == r
    requires FINALIZER in r.finalizers
    ensures var w' := Finalize(env, w, r, calls);
      && w'.api.committed == Erase(w.api.committed, if Key(r) in w.listeners then w.listeners[Key(r)] else [])
      && w'.listeners == w.listeners - {Key(r)}
      && (forall p :: GatewayAccounts.Owns(w'.ledger, Key(r), p) <==> (Key(r), p) in leaked)
      && (Key(r) in w'.services ==> r.uid !in w'.services[Key(r)].owners)
      && (Key(r) in w'.slices ==> r.uid !in w'.slices[Key(r)].owners)
      && (Key(r) in w'.stored ==> FINALIZER !in w'.stored[Key(r)].finalizers)
      && (r.finalizers == [FINALIZER] ==> Key(r) !in w'.stored)
  {
    GatewayAccounts.FinalizeConservesExactly(env, w, leaked, r, calls);
    GatewayAccounts.RemoveStringRemoves(r.finalizers, FINALIZER);
    assert r.finalizers == [FINALIZER] ==> RemoveString(r.finalizers, FINALIZER) == [];
    OwnerErased(env, w.api, w.listeners, Key(r));
  }

  lemma OwnerErased(env: Env, a: Api, listeners: map<string, seq<Listener>>, owner: string)
    requires AllServed(env)
    ensures var removal := RemoveOwner(env, a, listeners, owner);
      && removal.api.committed == Erase(a.committed, if owner in listeners then listeners[owner] else [])
      && removal.listeners == listeners - {owner}
  {
    if owner in listeners {
      RemoveServed(env, a, listeners[owner]);
    } else {
      assert a.committed == Erase(a.committed, []);
    }
  }

  // ---- stale listeners ----

  lemma RemoveOneElsewhere(env: Env, a: Api, c: Listener)
    ensures RemoveOne(env, a, c).0.committed.frontends - {FrontendName(c)} == a.committed.frontends - {FrontendName(c)}
  {
  }

  lemma {:induction false} RemoveIsIsolated(env: Env, a: Api, configs: seq<Listener>)
    ensures var cfg, cfg' := a.committed, RemoveEach(env, a, configs).0.committed;
      cfg'.frontends - FrontendNames(configs) == cfg.frontends - FrontendNames(configs)
    decreases |configs|
  {
    if configs == [] {
    } else {
      var c, rest := configs[0], configs[1..];
      var (a1, p) := RemoveOne(env, a, c);
      assert configs == [c] + rest;
      NamesOfCons(c, rest);
      RemoveIsIsolated(env, a1, rest);
      var cfg2 := if p == CommitFailed then a1.committed else RemoveEach(env, a1, rest).0.committed;
      RemoveOneElsewhere(env, a, c);
      SameElsewhere(a.committed.frontends, a1.committed.frontends, cfg2.frontends, {FrontendName(c)},
                    FrontendNames(rest));
    }
  }

  /** A listener for a service port that was dropped from the spec outlives the next reconcile and even the
      deletion of the service: neither call names it any more. */
  lemma DroppedListenerStays(env: Env, a: Api, listeners: map<string, seq<Listener>>, key: string,
                             configs: seq<Listener>, f: string)
    requires Lawful(env) && f in a.committed.frontends && f !in FrontendNames(configs)
    ensures var (a1, ok) := Apply(env, a, configs);
      var a2 := RemoveOwner(env, a1, listeners[key := configs], key).api;
      && f in a1.committed.frontends && a1.committed.frontends[f] == a.committed.frontends[f]
      && f in a2.committed.frontends && a2.committed.frontends[f] == a.committed.frontends[f]
  {
    var a1 := Apply(env, a, configs).0;
    ApplyIsIsolated(env, a, configs);
    RemoveIsIsolated(env, a1, configs);
    Untouched(a.committed.frontends, a1.committed.frontends, FrontendNames(configs), f);
    Untouched(a1.committed.frontends, RemoveEach(env, a1, configs).0.committed.frontends, FrontendNames(configs), f);
  }
}
