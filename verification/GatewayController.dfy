/** The controller in the form the source gives it: objects updated step by step. Every method is tied to
    the value it computes in module Gateway. */
module GatewayController {
  import opened Wrappers
  import opened Names
  import opened PortAlloc
  import opened HAProxy
  import opened Gateway

  lemma RemoveStringStep(before: seq<string>, slice: seq<string>, i: nat, s: string)
    requires i < |slice|
    ensures before + RemoveString(slice[i..], s)
         == (if slice[i] != s then before + [slice[i]] else before) + RemoveString(slice[i + 1..], s)
  {
    assert slice[i..][1..] == slice[i + 1..];
    assert slice[i] != s ==>
      before + ([slice[i]] + RemoveString(slice[i + 1..], s)) == before + [slice[i]] + RemoveString(slice[i + 1..], s);
    assert slice[i] == s ==> [] + RemoveString(slice[i + 1..], s) == RemoveString(slice[i + 1..], s);
  }

  lemma TargetsForStep(before: seq<Target>, pods: seq<PodInfo>, j: nat, targetPort: int)
    requires j < |pods|
    ensures var port := BackendPort(pods[j], targetPort);
      before + TargetsFor(pods[j..], targetPort)
      == (if port.Some?
          then before + [Target(ServerName(pods[j].namespace, pods[j].name), pods[j].wireguardIP, port.value)]
          else before)
         + TargetsFor(pods[j + 1..], targetPort)
  {
    assert pods[j..][1..] == pods[j + 1..];
  }

  lemma PutConditionStep(existing: seq<Condition>, i: nat, c: Condition)
    requires i < |existing|
    ensures existing[i].kind == c.kind ==>
      existing[..i] + PutCondition(existing[i..], c)
      == if existing[i].status != c.status || existing[i].reason != c.reason then existing[i := c] else existing
    ensures existing[i].kind != c.kind ==>
      existing[..i] + PutCondition(existing[i..], c) == existing[..i + 1] + PutCondition(existing[i + 1..], c)
  {
    var rest := existing[i + 1..];
    assert existing[i..][1..] == rest;
    assert existing == existing[..i] + ([existing[i]] + rest);
    assert existing[i := c] == existing[..i] + ([c] + rest);
    assert existing[..i + 1] + PutCondition(rest, c) == existing[..i] + ([existing[i]] + PutCondition(rest, c));
  }

  /** The copy of a VirtualService a reconcile works on. */
  class VirtualService {
    const namespace: string
    const name: string
    const uid: string
    const generation: int
    const deleting: bool
    const spec: Spec
    var finalizers: seq<string>
    var status: Status

    constructor (r: Record)
      ensures Value() == r
    {
      namespace, name, uid, generation := r.namespace, r.name, r.uid, r.generation;
      deleting, spec, finalizers, status := r.deleting, r.spec, r.finalizers, r.status;
    }

    function Value(): Record
      reads this
    {
      Record(namespace, name, uid, generation, deleting, finalizers, spec, status)
    }
  }

  class Controller {
    const portAllocator: Allocator
    const haproxyManager: Manager
    const gatewayIP: string
    var virtualPods: map<string, PodInfo>
    // the API server's objects
    var stored: map<string, Record>
    var services: map<string, Service>
    var slices: map<string, Slice>

    function Value(): World
      reads this, portAllocator, haproxyManager
    {
      World(portAllocator.Value(), stored, services, slices, virtualPods, gatewayIP,
            haproxyManager.api, haproxyManager.listeners)
    }

    constructor (env: Env, api: Api, gatewayIP: string, stored: map<string, Record>,
                 services: map<string, Service>, slices: map<string, Slice>)
      ensures fresh(portAllocator) && fresh(haproxyManager) && haproxyManager.env == env
      ensures Value() == World(Empty(PORT_RANGE_START, PORT_RANGE_END), stored, services, slices, map[], gatewayIP,
                               api, map[])
      ensures Consistent(portAllocator.Value())
    {
      portAllocator := new Allocator(PORT_RANGE_START, PORT_RANGE_END);
      haproxyManager := new Manager(env, api);
      this.gatewayIP := gatewayIP;
      virtualPods := map[];
      this.stored, this.services, this.slices := stored, services, slices;
    }

    method EnsurePortAllocations(vs: VirtualService) returns (ok: bool)
      requires Consistent(portAllocator.Value())
      modifies portAllocator, vs`status
      ensures Consistent(portAllocator.Value())
      ensures var a := EnsurePorts(old(portAllocator.Value()), Key(vs.Value()), old(vs.status.allocatedPorts),
                                   vs.spec.ports);
        && portAllocator.Value() == a.ledger && ok == a.ok
        && vs.status == old(vs.status).(allocatedPorts := a.held)
    {
      var held, ports := vs.status.allocatedPorts, vs.spec.ports;
      var reuse := ReusesAllocations(held, ports);
      if reuse { return true; }

      var vsKey := KeyOf(vs.namespace, vs.name);
      ghost var l0 := portAllocator.Value();
      ReleasedManyConsistent(l0, vsKey, GatewayPorts(held));
      ReleaseEach(vsKey, held);
      var allocation := AllocateEach(vsKey, ports);
      if allocation.None? { return false; }
      vs.status := vs.status.(allocatedPorts := allocation.value);
      return true;
    }

    /** One port for each spec port, or none at all: a failure gives back what was taken. */
    method AllocateEach(vsKey: string, ports: seq<PortSpec>) returns (allocation: Option<seq<AllocatedPort>>)
      requires Consistent(portAllocator.Value())
      modifies portAllocator
      ensures Consistent(portAllocator.Value())
      ensures var ps := ClaimEach(old(portAllocator.Value()), vsKey, |ports|);
        && allocation == (if ps.None? then None else Some(Assignments(ports, ps.value)))
        && portAllocator.Value()
           == if ps.None? then old(portAllocator.Value()) else Claimed(old(portAllocator.Value()), vsKey, ps.value)
    {
      ghost var l1, ps := portAllocator.Value(), [];
      var allocatedPorts: seq<AllocatedPort> := [];
      ClaimStarts(l1, vsKey, |ports|);
      for i := 0 to |ports|
        invariant |ps| == i && allocatedPorts == Assignments(ports[..i], ps)
        invariant ClaimUnderWay(l1, vsKey, |ports|, ps, portAllocator.Value())
      {
        ClaimContinues(l1, vsKey, |ports|, ps, portAllocator.Value());
        var gatewayPort := portAllocator.Allocate(vsKey);
        AssignmentsStep(ports, ps, if gatewayPort.Ok? then gatewayPort.value else 0);
        if gatewayPort.Err? {
          ReleaseEach(vsKey, allocatedPorts);
          return None;
        }
        allocatedPorts := allocatedPorts + [Assignment(ports[i], gatewayPort.value)];
        ps := ps + [gatewayPort.value];
      }
      assert ports[..|ports|] == ports;
      ClaimEnds(l1, vsKey, |ports|, ps, portAllocator.Value());
      return Some(allocatedPorts);
    }

    method ReusesAllocations(held: seq<AllocatedPort>, ports: seq<PortSpec>) returns (allMatch: bool)
      ensures allMatch <==> Matches(held, ports)
    {
      if |held| != |ports| { return false; }
      for i := 0 to |ports|
        invariant forall k :: 0 <= k < i ==> FoundIn(ports[k], held)
      {
        var found := false;
        for j := 0 to |held|
          invariant !found
          invariant forall k :: 0 <= k < j ==> !Allocates(held[k], ports[i])
        {
          if Allocates(held[j], ports[i]) {
            found := true;
            break;
          }
        }
        if !found {
          assert !FoundIn(ports[i], held);
          return false;
        }
      }
      return true;
    }

    method ReleaseEach(ownerKey: string, held: seq<AllocatedPort>)
      modifies portAllocator
      ensures portAllocator.Value() == ReleasedMany(old(portAllocator.Value()), ownerKey, GatewayPorts(held))
    {
      for i := 0 to |held|
        invariant ReleasedMany(portAllocator.Value(), ownerKey, GatewayPorts(held)[i..])
               == ReleasedMany(old(portAllocator.Value()), ownerKey, GatewayPorts(held))
      {
        assert GatewayPorts(held)[i..][1..] == GatewayPorts(held)[i + 1..];
        portAllocator.Release(ownerKey, held[i].gatewayPort);
      }
    }

    /** One backend server for each pod that exposes the port. */
    method BuildTargets(pods: seq<PodInfo>, targetPort: int) returns (backends: seq<Target>)
      ensures backends == TargetsFor(pods, targetPort)
    {
      backends := [];
      for j := 0 to |pods|
        invariant backends + TargetsFor(pods[j..], targetPort) == TargetsFor(pods, targetPort)
      {
        TargetsForStep(backends, pods, j, targetPort);
        var backendPort := BackendPort(pods[j], targetPort);
        if backendPort.None? { continue; }
        backends := backends + [Target(ServerName(pods[j].namespace, pods[j].name), pods[j].wireguardIP,
                                       backendPort.value)];
      }
    }

    method BuildListeners(vs: VirtualService, pods: seq<PodInfo>) returns (configs: seq<Listener>)
      ensures configs == ListenersFor(Key(vs.Value()), vs.status.allocatedPorts, pods)
    {
      var vsKey := KeyOf(vs.namespace, vs.name);
      var held := vs.status.allocatedPorts;
      configs := [];
      for i := 0 to |held|
        invariant configs == ListenersFor(vsKey, held, pods)[..i]
      {
        var backends := BuildTargets(pods, held[i].targetPort);
        configs := configs + [Listener(ListenerName(vsKey, held[i].servicePort), held[i].gatewayPort, backends)];
      }
    }

    method GetMatchingPods(vs: VirtualService, order: seq<string>) returns (matching: seq<PodInfo>)
      ensures matching == MatchingPods(virtualPods, order, vs.namespace, vs.spec.selector)
    {
      matching := [];
      ghost var selected := MatchingPods(virtualPods, order, vs.namespace, vs.spec.selector);
      for i := 0 to |order|
        invariant selected == matching + MatchingPods(virtualPods, order[i..], vs.namespace, vs.spec.selector)
      {
        ghost var rest := MatchingPods(virtualPods, order[i + 1..], vs.namespace, vs.spec.selector);
        assert order[i..][1..] == order[i + 1..];
        if order[i] in virtualPods && Matching(virtualPods[order[i]], vs.namespace, vs.spec.selector) {
          assert matching + ([virtualPods[order[i]]] + rest) == matching + [virtualPods[order[i]]] + rest;
          matching := matching + [virtualPods[order[i]]];
        } else {
          assert [] + rest == rest;
        }
      }
    }

    method EnsureGeneratedService(vs: VirtualService, calls: Calls) returns (step: Step)
      modifies this`services
      ensures var e := EnsureService(old(services), vs.Value(), calls); services == e.0 && step == e.1
    {
      var held := vs.status.allocatedPorts;
      var serviceType := if vs.spec.kind == NODE_PORT then NODE_PORT else CLUSTER_IP;
      var ports: seq<ServicePort> := [];
      for i := 0 to |held|
        invariant services == old(services)
        invariant ports == ServicePorts(vs.Value())[..i]
      {
        var protocol := if held[i].protocol != "" then held[i].protocol else "TCP";
        var nodePort := 0;
        if serviceType == NODE_PORT {
          nodePort := FindNodePort(vs.spec.ports, held[i].servicePort);
        }
        ports := ports + [ServicePort(held[i].name, held[i].servicePort, held[i].gatewayPort, protocol, nodePort)];
      }

      assert ports == ServicePorts(vs.Value());
      var key := KeyOf(vs.namespace, vs.name);
      if !calls.serviceAnswers { return Error; }
      if key !in services {
        if Written(calls.serviceWrite) {
          services := services[key := Service([vs.uid], GeneratedLabels(vs.Value()), serviceType, calls.clusterIP,
                                              map[], ports)];
        }
        return StepOf(calls.serviceWrite);
      }
      var existing := services[key];
      if vs.uid !in existing.owners { return Conflict; }
      var needsUpdate := false;
      if existing.labels != GeneratedLabels(vs.Value()) { needsUpdate := true; }
      if existing.kind != serviceType { needsUpdate := true; }
      if serviceType == CLUSTER_IP && existing.clusterIP != "None" { needsUpdate := true; }
      if existing.ports != ports { needsUpdate := true; }
      if !needsUpdate { return Done; }
      if Written(calls.serviceWrite) {
        services := services[key := existing.(kind := serviceType, selector := map[], ports := ports,
                                           labels := GeneratedLabels(vs.Value()))];
      }
      return StepOf(calls.serviceWrite);
    }

    method EnsureEndpointSlice(vs: VirtualService, calls: Calls) returns (step: Step)
      modifies this`slices
      ensures var e := EnsureSlice(old(slices), vs.Value(), gatewayIP, calls); slices == e.0 && step == e.1
    {
      var held := vs.status.allocatedPorts;
      var ports: seq<SlicePort> := [];
      for i := 0 to |held|
        invariant slices == old(slices)
        invariant ports == SlicePorts(held)[..i]
      {
        ports := ports + [SlicePort(held[i].name, held[i].gatewayPort)];
      }
      assert ports == SlicePorts(held);
      var key := KeyOf(vs.namespace, vs.name);
      if !calls.sliceAnswers { return Error; }
      if key !in slices {
        if Written(calls.sliceWrite) {
          slices := slices[key := Slice([vs.uid], SliceLabels(vs.Value()), [gatewayIP], ports)];
        }
        return StepOf(calls.sliceWrite);
      }
      var existing := slices[key];
      if vs.uid !in existing.owners { return Conflict; }
      if existing.addresses == [gatewayIP] && existing.ports == ports { return Done; }
      if Written(calls.sliceWrite) {
        slices := slices[key := existing.(addresses := [gatewayIP], ports := ports, labels := SliceLabels(vs.Value()))];
      }
      return StepOf(calls.sliceWrite);
    }

    method FindNodePort(ports: seq<PortSpec>, servicePort: int) returns (nodePort: int)
      ensures nodePort == NodePortFor(ports, servicePort)
    {
      nodePort := 0;
      for i := 0 to |ports|
        invariant nodePort == 0
        invariant NodePortFor(ports[i..], servicePort) == NodePortFor(ports, servicePort)
      {
        assert ports[i..][1..] == ports[i + 1..];
        if ports[i].port == servicePort {
          if ports[i].nodePort > 0 { nodePort := ports[i].nodePort; }
          return;
        }
      }
    }

    method SetConditionAndUpdate(vs: VirtualService, reason: Reason, calls: Calls) returns (wrote: bool)
      modifies this`stored, vs`status
      ensures var t := FinishStatus(old(Value()), old(vs.Value()), reason, calls);
        Value() == t.world && wrote == t.wrote
    {
      var original := vs.status;
      var conditions := PutInto(vs.status.conditions, ReadyCondition(reason, vs.Value(), calls));
      vs.status := vs.status.(conditions := conditions, observedGeneration := vs.generation);
      if vs.status == original { return false; }
      var key := KeyOf(vs.namespace, vs.name);
      if Written(calls.statusWrite) && key in stored {
        stored := stored[key := stored[key].(status := vs.status)];
      }
      return true;
    }

    method PutInto(existing: seq<Condition>, condition: Condition) returns (conditions: seq<Condition>)
      ensures conditions == PutCondition(existing, condition)
    {
      conditions := existing;
      for i := 0 to |existing|
        invariant conditions == existing
        invariant PutCondition(existing, condition) == existing[..i] + PutCondition(existing[i..], condition)
      {
        PutConditionStep(existing, i, condition);
        if existing[i].kind == condition.kind {
          if existing[i].status != condition.status || existing[i].reason != condition.reason {
            conditions := existing[i := condition];
          }
          return;
        }
      }
      assert existing[..|existing|] == existing;
      conditions := conditions + [condition];
    }

    method ReconcileVirtualService(vs: VirtualService, calls: Calls) returns (wrote: bool)
      requires Consistent(portAllocator.Value())
      modifies this, portAllocator, haproxyManager, vs
      ensures virtualPods == old(virtualPods)
      ensures Consistent(portAllocator.Value())
      ensures var t := ReconcileRecord(haproxyManager.env, old(Value()), old(vs.Value()), calls);
        Value() == t.world && wrote == t.wrote
    {
      if !ValidSpec(vs.spec) {
        wrote := SetConditionAndUpdate(vs, UnsupportedSpec, calls);
        return;
      }
      var ok := EnsurePortAllocations(vs);
      if !ok {
        wrote := SetConditionAndUpdate(vs, PortAllocationErr, calls);
        return;
      }
      var reason := Publish(vs, calls);
      wrote := SetConditionAndUpdate(vs, reason, calls);
    }

    /** The steps after port allocation; the first that fails gives the reason. */
    method Publish(vs: VirtualService, calls: Calls) returns (reason: Reason)
      modifies this`services, this`slices, haproxyManager
      ensures var p := PublishSteps(haproxyManager.env, old(Value()), vs.Value(), calls);
        Value() == p.world && reason == p.reason && vs.status.allocatedPorts == p.held
    {
      var pods := GetMatchingPods(vs, calls.podOrder);
      var service := EnsureGeneratedService(vs, calls);
      if service != Done { return ReasonOf(service); }
      var slice := EnsureEndpointSlice(vs, calls);
      if slice != Done { return ReasonOf(slice); }
      var configured := ConfigureHAProxy(vs, pods);
      return if configured then Reconciled else ReconcileError;
    }

    method ConfigureHAProxy(vs: VirtualService, pods: seq<PodInfo>) returns (ok: bool)
      modifies haproxyManager
      ensures var configs := ListenersFor(Key(vs.Value()), vs.status.allocatedPorts, pods);
        && haproxyManager.listeners == old(haproxyManager.listeners)[Key(vs.Value()) := configs]
        && (haproxyManager.api, ok) == Apply(haproxyManager.env, old(haproxyManager.api), configs)
    {
      var configs := BuildListeners(vs, pods);
      ok := haproxyManager.Configure(KeyOf(vs.namespace, vs.name), configs);
    }

    method HandleFinalization(vs: VirtualService, calls: Calls)
      requires Consistent(portAllocator.Value())
      modifies this, portAllocator, haproxyManager, vs
      ensures Consistent(portAllocator.Value())
      ensures Value() == Finalize(haproxyManager.env, old(Value()), old(vs.Value()), calls)
    {
      if FINALIZER !in vs.finalizers { return; }
      var vsKey := KeyOf(vs.namespace, vs.name);
      var _ := haproxyManager.Remove(vsKey);
      ReleasedManyConsistent(portAllocator.Value(), vsKey, GatewayPorts(vs.status.allocatedPorts));
      ReleaseEach(vsKey, vs.status.allocatedPorts);
      DeleteGenerated(vs, calls);
      RemoveFinalizer(vs, calls);
    }

    method DeleteGenerated(vs: VirtualService, calls: Calls)
      modifies this`services, this`slices
      ensures services == DropService(old(services), vs.Value(), calls)
      ensures slices == DropSlice(old(slices), vs.Value(), calls)
    {
      var vsKey := KeyOf(vs.namespace, vs.name);
      if calls.serviceAnswers && vsKey in services && vs.uid in services[vsKey].owners {
        if Written(calls.serviceDelete) { services := services - {vsKey}; }
      }
      if calls.sliceAnswers && vsKey in slices && vs.uid in slices[vsKey].owners {
        if Written(calls.sliceDelete) { slices := slices - {vsKey}; }
      }
    }

    method RemoveFinalizer(vs: VirtualService, calls: Calls)
      modifies this`stored, vs`finalizers
      ensures stored == DropFinalizer(old(stored), old(vs.Value()), calls)
    {
      vs.finalizers := WithoutString(vs.finalizers, FINALIZER);
      UpdateFinalizers(vs, calls.finalizerWrite);
    }

    /** The write that drops finalizers; an object being deleted goes with its last one. */
    method UpdateFinalizers(vs: VirtualService, write: Write)
      modifies this`stored
      ensures var key := KeyOf(vs.namespace, vs.name);
        stored == if !Written(write) || key !in old(stored) then old(stored)
                  else if vs.finalizers == [] then old(stored) - {key}
                  else old(stored)[key := old(stored)[key].(finalizers := vs.finalizers)]
    {
      var key := KeyOf(vs.namespace, vs.name);
      if Written(write) && key in stored {
        if vs.finalizers == [] {
          stored := stored - {key};
        } else {
          stored := stored[key := stored[key].(finalizers := vs.finalizers)];
        }
      }
    }

    method WithoutString(slice: seq<string>, s: string) returns (result: seq<string>)
      ensures result == RemoveString(slice, s)
    {
      result := [];
      for i := 0 to |slice|
        invariant result + RemoveString(slice[i..], s) == RemoveString(slice, s)
      {
        RemoveStringStep(result, slice, i, s);
        if slice[i] != s { result := result + [slice[i]]; }
      }
    }

    method Reconcile(key: string, calls: Calls) returns (wrote: bool)
      requires Consistent(portAllocator.Value())
      requires key in stored ==> Key(stored[key]) == key
      modifies this, portAllocator, haproxyManager
      ensures Consistent(portAllocator.Value())
      ensures var t := ReconcileKey(haproxyManager.env, old(Value()), key, calls);
        Value() == t.world && wrote == t.wrote
    {
      if key !in stored { return false; }
      var vs := new VirtualService(stored[key]);
      if vs.deleting {
        HandleFinalization(vs, calls);
        return false;
      }
      if FINALIZER !in vs.finalizers {
        vs.finalizers := vs.finalizers + [FINALIZER];
        if Written(calls.finalizerWrite) {
          stored := stored[key := stored[key].(finalizers := vs.finalizers)];
        }
        if calls.finalizerWrite != Landed { return false; }
        wrote := ReconcileVirtualService(vs, Stale(calls));
        return;
      }
      wrote := ReconcileVirtualService(vs, calls);
    }
  }
}
