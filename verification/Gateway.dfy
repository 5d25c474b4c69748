/** The VirtualService controller: port allocation, the generated Service and EndpointSlice, the HAProxy
    configuration, and the status that records them. */
module Gateway {
  import opened Wrappers
  import opened Names
  import opened PortAlloc
  import opened HAProxy

  // ---- objects ----

  datatype PortSpec = PortSpec(name: string, port: int, targetPort: int, nodePort: int, protocol: string)

  datatype Spec = Spec(kind: string, selector: map<string, string>, ports: seq<PortSpec>)

  datatype AllocatedPort = AllocatedPort(name: string, servicePort: int, targetPort: int, gatewayPort: int,
                                         protocol: string)

  datatype Reason =
    UnsupportedSpec | PortAllocationErr | ServiceConflict | ReconcileError | Reconciled | Other(text: string)

  datatype Truth = ConditionTrue | ConditionFalse | ConditionUnknown

  datatype Condition = Condition(kind: string, status: Truth, reason: Reason, message: string,
                                 observedGeneration: int, since: int)

  datatype Status = Status(allocatedPorts: seq<AllocatedPort>, conditions: seq<Condition>, observedGeneration: int)

  /** A VirtualService as the API server stores it. */
  datatype Record = Record(namespace: string, name: string, uid: string, generation: int, deleting: bool,
                           finalizers: seq<string>, spec: Spec, status: Status)

  datatype ServicePort = ServicePort(name: string, port: int, targetPort: int, protocol: string, nodePort: int)

  datatype Service = Service(owners: seq<string>, labels: map<string, string>, kind: string, clusterIP: string,
                             selector: map<string, string>, ports: seq<ServicePort>)

  datatype SlicePort = SlicePort(name: string, port: int)

  datatype Slice = Slice(owners: seq<string>, labels: map<string, string>, addresses: seq<string>,
                         ports: seq<SlicePort>)

  datatype PodInfo = PodInfo(namespace: string, name: string, labels: map<string, string>, proxySlot: int,
                             wireguardIP: string, containerPorts: seq<int>)

  /** Everything a reconcile reads or writes: the controller's memory, the API server's objects, HAProxy. */
  datatype World = World(ledger: Ledger, stored: map<string, Record>, services: map<string, Service>,
                         slices: map<string, Slice>, pods: map<string, PodInfo>, gatewayIP: string,
                         api: Api, listeners: map<string, seq<Listener>>)

  /** What becomes of a write: done; failed; refused because the object exists; done but reported as failed. */
  datatype Write = Landed | Failed | Exists | Lost

  /** What the API server does during one reconcile, and the order in which the pods are ranged over. */
  datatype Calls = Calls(serviceAnswers: bool, serviceWrite: Write, sliceAnswers: bool, sliceWrite: Write,
                         finalizerWrite: Write, statusWrite: Write, serviceDelete: Write, sliceDelete: Write,
                         clusterIP: string, podOrder: seq<string>, now: int, detail: string)

  predicate Written(w: Write) {
    w == Landed || w == Lost
  }

  const READY := "Ready"
  const FINALIZER := "anex.sh/virtualservice-finalizer"
  const NODE_PORT := "NodePort"
  const CLUSTER_IP := "ClusterIP"
  const PORT_RANGE_START := 6000
  const PORT_RANGE_END := 9999

  function Key(r: Record): string {
    KeyOf(r.namespace, r.name)
  }

  // ---- validation and port allocation ----

  predicate ValidPort(p: PortSpec) {
    && (p.protocol == "" || p.protocol == "TCP")
    && 1 <= p.port <= 65535 && 1 <= p.targetPort <= 65535
  }

  predicate ValidSpec(s: Spec) {
    forall i :: 0 <= i < |s.ports| ==> ValidPort(s.ports[i])
  }

  predicate Allocates(a: AllocatedPort, p: PortSpec) {
    a.servicePort == p.port && a.targetPort == p.targetPort && a.name == p.name
  }

  predicate FoundIn(p: PortSpec, held: seq<AllocatedPort>) {
    exists j :: 0 <= j < |held| && Allocates(held[j], p)
  }

  /** The reuse test: as many allocations as ports, and one for each port. */
  predicate Matches(held: seq<AllocatedPort>, ports: seq<PortSpec>) {
    |held| == |ports| && forall i :: 0 <= i < |ports| ==> FoundIn(ports[i], held)
  }

  function GatewayPorts(held: seq<AllocatedPort>): (ps: seq<int>)
    ensures |ps| == |held|
  {
    seq(|held|, i requires 0 <= i < |held| => held[i].gatewayPort)
  }

  function Assignment(p: PortSpec, gatewayPort: int): AllocatedPort {
    AllocatedPort(p.name, p.port, p.targetPort, gatewayPort, if p.protocol == "" then "TCP" else p.protocol)
  }

  function Assignments(ports: seq<PortSpec>, ps: seq<int>): (held: seq<AllocatedPort>)
    requires |ps| == |ports|
    ensures |held| == |ports|
  {
    seq(|ports|, i requires 0 <= i < |ports| => Assignment(ports[i], ps[i]))
  }

  lemma AssignmentsStep(ports: seq<PortSpec>, ps: seq<int>, p: int)
    requires |ps| < |ports|
    ensures Assignments(ports[..|ps| + 1], ps + [p]) == Assignments(ports[..|ps|], ps) + [Assignment(ports[|ps|], p)]
    ensures GatewayPorts(Assignments(ports[..|ps|], ps)) == ps
  {
  }

  datatype Allocation = Allocation(ledger: Ledger, held: seq<AllocatedPort>, ok: bool)

  /** Keep matching allocations; otherwise release the old ports and claim new ones, or keep the old record
      (of ports already released) when the range is exhausted. */
  function EnsurePorts(l: Ledger, key: string, held: seq<AllocatedPort>, ports: seq<PortSpec>): Allocation {
    if Matches(held, ports) then Allocation(l, held, true)
    else
      var l1 := ReleasedMany(l, key, GatewayPorts(held));
      match ClaimEach(l1, key, |ports|)
      case None => Allocation(l1, held, false)
      case Some(ps) => Allocation(Claimed(l1, key, ps), Assignments(ports, ps), true)
  }

  // ---- generated Service and EndpointSlice ----

  datatype Step = Done | Conflict | Error

  function GeneratedLabels(r: Record): map<string, string> {
    map["anex.sh/managed-by" := "virtualservice-controller", "anex.sh/owner-virtualservice" := r.name]
  }

  function SliceLabels(r: Record): map<string, string> {
    GeneratedLabels(r)["kubernetes.io/service-name" := r.name]
  }

  function ServiceKind(r: Record): string {
    if r.spec.kind == NODE_PORT then NODE_PORT else CLUSTER_IP
  }

  /** The node port asked for by the first spec port with this number. */
  function NodePortFor(ports: seq<PortSpec>, servicePort: int): int {
    if ports == [] then 0
    else if ports[0].port == servicePort then (if ports[0].nodePort > 0 then ports[0].nodePort else 0)
    else NodePortFor(ports[1..], servicePort)
  }

  function ServicePorts(r: Record): (ports: seq<ServicePort>)
    ensures |ports| == |r.status.allocatedPorts|
  {
    var held := r.status.allocatedPorts;
    seq(|held|, i requires 0 <= i < |held| =>
      ServicePort(held[i].name, held[i].servicePort, held[i].gatewayPort,
                  if held[i].protocol != "" then held[i].protocol else "TCP",
                  if ServiceKind(r) == NODE_PORT then NodePortFor(r.spec.ports, held[i].servicePort) else 0))
  }

  function StepOf(w: Write): Step {
    match w case Landed => Done case Exists => Conflict case _ => Error
  }

  function EnsureService(services: map<string, Service>, r: Record, calls: Calls): (map<string, Service>, Step) {
    var key, kind, ports := Key(r), ServiceKind(r), ServicePorts(r);
    if !calls.serviceAnswers then (services, Error)
    else if key !in services then
      var created := Service([r.uid], GeneratedLabels(r), kind, calls.clusterIP, map[], ports);
      (if Written(calls.serviceWrite) then services[key := created] else services, StepOf(calls.serviceWrite))
    else
      var existing := services[key];
      if r.uid !in existing.owners then (services, Conflict)
      else if existing.labels == GeneratedLabels(r) && existing.kind == kind && existing.ports == ports
              && !(kind == CLUSTER_IP && existing.clusterIP != "None") then (services, Done)
      else
        var updated := existing.(kind := kind, selector := map[], ports := ports, labels := GeneratedLabels(r));
        (if Written(calls.serviceWrite) then services[key := updated] else services, StepOf(calls.serviceWrite))
  }

  function SlicePorts(held: seq<AllocatedPort>): (ports: seq<SlicePort>)
    ensures |ports| == |held|
  {
    seq(|held|, i requires 0 <= i < |held| => SlicePort(held[i].name, held[i].gatewayPort))
  }

  function EnsureSlice(slices: map<string, Slice>, r: Record, gatewayIP: string,
                       calls: Calls): (map<string, Slice>, Step) {
    var key, ports := Key(r), SlicePorts(r.status.allocatedPorts);
    var desired := Slice([r.uid], SliceLabels(r), [gatewayIP], ports);
    if !calls.sliceAnswers then (slices, Error)
    else if key !in slices then
      (if Written(calls.sliceWrite) then slices[key := desired] else slices, StepOf(calls.sliceWrite))
    else
      var existing := slices[key];
      if r.uid !in existing.owners then (slices, Conflict)
      else if existing.addresses == desired.addresses && existing.ports == ports then (slices, Done)
      else
        var updated := existing.(addresses := desired.addresses, ports := ports, labels := desired.labels);
        (if Written(calls.sliceWrite) then slices[key := updated] else slices, StepOf(calls.sliceWrite))
  }

  // ---- pods and listeners ----

  /** labels.SelectorFromSet: every pair of the selector is among the labels. */
  predicate Selects(selector: map<string, string>, labels: map<string, string>) {
    forall k :: k in selector ==> k in labels && labels[k] == selector[k]
  }

  predicate Matching(pod: PodInfo, namespace: string, selector: map<string, string>) {
    pod.namespace == namespace && Selects(selector, pod.labels)
  }

  function MatchingPods(pods: map<string, PodInfo>, order: seq<string>, namespace: string,
                        selector: map<string, string>): seq<PodInfo> {
    if order == [] then []
    else
      (if order[0] in pods && Matching(pods[order[0]], namespace, selector) then [pods[order[0]]] else [])
      + MatchingPods(pods, order[1..], namespace, selector)
  }

  function IndexOf(ports: seq<int>, port: int): (i: int)
    ensures -1 <= i < |ports|
    ensures i == -1 <==> port !in ports
    ensures i >= 0 ==> ports[i] == port && forall j :: 0 <= j < i ==> ports[j] != port
  {
    if ports == [] then -1
    else if ports[0] == port then 0
    else var i := IndexOf(ports[1..], port); if i == -1 then -1 else i + 1
  }

  /** calculateBackendPort: the tunnel of the target port's position among the pod's sorted ports. */
  function BackendPort(pod: PodInfo, targetPort: int): Option<int> {
    var portID := IndexOf(pod.containerPorts, targetPort);
    if portID == -1 then None else Some(10000 + pod.proxySlot * 100 + portID + 1)
  }

  function TargetsFor(pods: seq<PodInfo>, targetPort: int): seq<Target> {
    if pods == [] then []
    else
      var port := BackendPort(pods[0], targetPort);
      (if port.Some?
       then [Target(ServerName(pods[0].namespace, pods[0].name), pods[0].wireguardIP, port.value)] else [])
      + TargetsFor(pods[1..], targetPort)
  }

  function ListenerFor(key: string, a: AllocatedPort, pods: seq<PodInfo>): Listener {
    Listener(ListenerName(key, a.servicePort), a.gatewayPort, TargetsFor(pods, a.targetPort))
  }

  function ListenersFor(key: string, held: seq<AllocatedPort>, pods: seq<PodInfo>): (ls: seq<Listener>)
    ensures |ls| == |held|
  {
    seq(|held|, i requires 0 <= i < |held| => ListenerFor(key, held[i], pods))
  }

  // ---- the status write ----

  function SetCondition(s: Status, c: Condition, generation: int): Status {
    s.(conditions := PutCondition(s.conditions, c), observedGeneration := generation)
  }

  /** Replaces the first condition of the kind if its status or reason changed; appends it if there is none. */
  function PutCondition(conditions: seq<Condition>, c: Condition): seq<Condition> {
    if conditions == [] then [c]
    else if conditions[0].kind == c.kind then
      (if conditions[0].status != c.status || conditions[0].reason != c.reason then [c] else [conditions[0]])
      + conditions[1..]
    else [conditions[0]] + PutCondition(conditions[1..], c)
  }

  function ReadyCondition(reason: Reason, r: Record, calls: Calls): Condition {
    Condition(READY, if reason == Reconciled then ConditionTrue else ConditionFalse, reason, calls.detail,
              r.generation, calls.now)
  }

  // ---- one reconcile as a value ----

  datatype Progressed = Progressed(world: World, held: seq<AllocatedPort>, reason: Reason)

  function ReasonOf(s: Step): Reason {
    if s == Conflict then ServiceConflict else ReconcileError
  }

  function RunSteps(env: Env, w: World, r: Record, calls: Calls): Progressed {
    var held := r.status.allocatedPorts;
    if !ValidSpec(r.spec) then Progressed(w, held, UnsupportedSpec)
    else
      var a := EnsurePorts(w.ledger, Key(r), held, r.spec.ports);
      var w1 := w.(ledger := a.ledger);
      if !a.ok then Progressed(w1, held, PortAllocationErr)
      else
        PublishSteps(env, w1, r.(status := r.status.(allocatedPorts := a.held)), calls)
  }

  /** The steps after allocation: Service, EndpointSlice, HAProxy; the first that fails decides the reason. */
  function PublishSteps(env: Env, w: World, r: Record, calls: Calls): Progressed {
    var held := r.status.allocatedPorts;
    var (services, s) := EnsureService(w.services, r, calls);
    var w1 := w.(services := services);
    if s != Done then Progressed(w1, held, ReasonOf(s))
    else
      var (slices, t) := EnsureSlice(w.slices, r, w.gatewayIP, calls);
      var w2 := w1.(slices := slices);
      if t != Done then Progressed(w2, held, ReasonOf(t))
      else
        var configs := ListenersFor(Key(r), held, MatchingPods(w.pods, calls.podOrder, r.namespace, r.spec.selector));
        var (api, ok) := Apply(env, w.api, configs);
        Progressed(w2.(api := api, listeners := w.listeners[Key(r) := configs]), held,
                   if ok then Reconciled else ReconcileError)
  }

  /** The world after one turn of the work queue, and whether a status write was attempted. */
  datatype Turn = Turn(world: World, wrote: bool)

  /** Writes the status only if setting the condition changed the status held in memory. */
  function FinishStatus(w: World, r: Record, reason: Reason, calls: Calls): Turn {
    var status := SetCondition(r.status, ReadyCondition(reason, r, calls), r.generation);
    if status == r.status then Turn(w, false)
    else if Written(calls.statusWrite) && Key(r) in w.stored then
      Turn(w.(stored := w.stored[Key(r) := w.stored[Key(r)].(status := status)]), true)
    else Turn(w, true)
  }

  function ReconcileRecord(env: Env, w: World, r: Record, calls: Calls): Turn {
    var p := RunSteps(env, w, r, calls);
    FinishStatus(p.world, r.(status := r.status.(allocatedPorts := p.held)), p.reason, calls)
  }

  function RemoveString(s: seq<string>, x: string): seq<string> {
    if s == [] then []
    else (if s[0] == x then [] else [s[0]]) + RemoveString(s[1..], x)
  }

  /** Deletion: HAProxy, ports, generated objects, then the finalizer; the API server drops an object
      that is being deleted once its last finalizer is gone. */
  function Finalize(env: Env, w: World, r: Record, calls: Calls): World {
    if FINALIZER !in r.finalizers then w
    else
      var key := Key(r);
      var removal := RemoveOwner(env, w.api, w.listeners, key);
      var ledger := ReleasedMany(w.ledger, key, GatewayPorts(r.status.allocatedPorts));
      w.(ledger := ledger, api := removal.api, listeners := removal.listeners,
         services := DropService(w.services, r, calls), slices := DropSlice(w.slices, r, calls),
         stored := DropFinalizer(w.stored, r, calls))
  }

  function DropService(services: map<string, Service>, r: Record, calls: Calls): map<string, Service> {
    var key := Key(r);
    if calls.serviceAnswers && key in services && r.uid in services[key].owners && Written(calls.serviceDelete)
    then services - {key} else services
  }

  function DropSlice(slices: map<string, Slice>, r: Record, calls: Calls): map<string, Slice> {
    var key := Key(r);
    if calls.sliceAnswers && key in slices && r.uid in slices[key].owners && Written(calls.sliceDelete)
    then slices - {key} else slices
  }

  function DropFinalizer(stored: map<string, Record>, r: Record, calls: Calls): map<string, Record> {
    var key, left := Key(r), RemoveString(r.finalizers, FINALIZER);
    if !Written(calls.finalizerWrite) || key !in stored then stored
    else if left == [] then stored - {key}
    else stored[key := stored[key].(finalizers := left)]
  }

  function WithFinalizer(r: Record): Record {
    r.(finalizers := r.finalizers + [FINALIZER])
  }

  /** The write that adds the finalizer; what it returns is thrown away. */
  function FinalizerAdded(w: World, key: string, calls: Calls): World
    requires key in w.stored
  {
    if Written(calls.finalizerWrite) then w.(stored := w.stored[key := WithFinalizer(w.stored[key])]) else w
  }

  /** The copy at hand has an outdated resource version, so the API server refuses the status written from it. */
  function Stale(calls: Calls): Calls {
    calls.(statusWrite := Failed)
  }

  /** One item of the work queue. The turn that adds the finalizer goes on with the copy from before the write. */
  function ReconcileKey(env: Env, w: World, key: string, calls: Calls): Turn {
    if key !in w.stored then Turn(w, false)
    else
      var r := w.stored[key];
      if r.deleting then Turn(Finalize(env, w, r, calls), false)
      else if FINALIZER in r.finalizers then ReconcileRecord(env, w, r, calls)
      else
        var w1 := FinalizerAdded(w, key, calls);
        if calls.finalizerWrite == Landed then ReconcileRecord(env, w1, WithFinalizer(r), Stale(calls))
        else Turn(w1, false)
  }
}
