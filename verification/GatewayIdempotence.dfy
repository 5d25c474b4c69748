/** Reconciling twice in an unchanged world is reconciling once, on every path. */
module GatewayIdempotence {
  import opened HAProxy
  import opened Gateway
  import opened GatewayRuns
  import Names
  import PortAlloc
  import HAProxySafety
  import GatewayAccounts

  // ---- the pods' targets do not depend on the order the pods are ranged over ----

  /** Pods are known under their own namespace and name, which contain none of the characters that get replaced. */
  predicate PodsNamed(pods: map<string, PodInfo>) {
    forall k :: k in pods ==>
      k == Names.KeyOf(pods[k].namespace, pods[k].name) && Names.Clean(pods[k].namespace) && Names.Clean(pods[k].name)
  }

  predicate RangesOver(order: seq<string>, pods: map<string, PodInfo>) {
    forall k :: k in pods ==> k in order
  }

  lemma {:induction false} MatchingPodsMembers(pods: map<string, PodInfo>, order: seq<string>, ns: string,
                                               selector: map<string, string>, pod: PodInfo)
    ensures pod in MatchingPods(pods, order, ns, selector) <==>
      exists k :: k in order && k in pods && pods[k] == pod && Matching(pod, ns, selector)
    decreases |order|
  {
    if order == [] {
    } else {
      MatchingPodsMembers(pods, order[1..], ns, selector, pod);
      assert forall k :: k in order <==> k == order[0] || k in order[1..];
    }
  }

  function TargetOf(pod: PodInfo, port: int): Target {
    Target(Names.ServerName(pod.namespace, pod.name), pod.wireguardIP, port)
  }

  lemma {:induction false} TargetsForMembers(pods: seq<PodInfo>, targetPort: int, t: Target)
    ensures t in TargetsFor(pods, targetPort) <==>
      exists pod :: pod in pods && BackendPort(pod, targetPort).Some?
                    && t == TargetOf(pod, BackendPort(pod, targetPort).value)
    decreases |pods|
  {
    if pods == [] {
    } else {
      TargetsForMembers(pods[1..], targetPort, t);
      assert forall pod :: pod in pods <==> pod == pods[0] || pod in pods[1..];
    }
  }

  lemma MatchingTargets(pods: map<string, PodInfo>, order: seq<string>, ns: string,
                        selector: map<string, string>, targetPort: int, t: Target)
    requires RangesOver(order, pods)
    ensures t in TargetsFor(MatchingPods(pods, order, ns, selector), targetPort) <==>
      exists k :: k in pods && Matching(pods[k], ns, selector) && BackendPort(pods[k], targetPort).Some?
                  && t == TargetOf(pods[k], BackendPort(pods[k], targetPort).value)
  {
    var matching := MatchingPods(pods, order, ns, selector);
    TargetsForMembers(matching, targetPort, t);
    forall pod
      ensures pod in matching <==> exists k :: k in order && k in pods && pods[k] == pod && Matching(pod, ns, selector)
    {
      MatchingPodsMembers(pods, order, ns, selector, pod);
    }
    if pod :| pod in matching && BackendPort(pod, targetPort).Some?
              && t == TargetOf(pod, BackendPort(pod, targetPort).value) {
      var k :| k in order && k in pods && pods[k] == pod && Matching(pod, ns, selector);
    }
    if k :| k in pods && Matching(pods[k], ns, selector) && BackendPort(pods[k], targetPort).Some?
            && t == TargetOf(pods[k], BackendPort(pods[k], targetPort).value) {
      assert k in order;
      assert pods[k] in matching;
    }
  }

  /** Each matching pod has a server name of its own. */
  lemma MatchingTargetsOneServer(pods: map<string, PodInfo>, order: seq<string>, ns: string,
                                 selector: map<string, string>, targetPort: int)
    requires RangesOver(order, pods) && PodsNamed(pods)
    ensures HAProxySafety.OneServerPerName(TargetsFor(MatchingPods(pods, order, ns, selector), targetPort))
  {
    var ts := TargetsFor(MatchingPods(pods, order, ns, selector), targetPort);
    forall t, u | t in ts && u in ts && Names.SanitizeName(t.name) == Names.SanitizeName(u.name)
      ensures HAProxySafety.ServerOf(t) == HAProxySafety.ServerOf(u)
    {
      MatchingTargets(pods, order, ns, selector, targetPort, t);
      MatchingTargets(pods, order, ns, selector, targetPort, u);
      var j :| j in pods && Matching(pods[j], ns, selector) && BackendPort(pods[j], targetPort).Some?
               && t == TargetOf(pods[j], BackendPort(pods[j], targetPort).value);
      var k :| k in pods && Matching(pods[k], ns, selector) && BackendPort(pods[k], targetPort).Some?
               && u == TargetOf(pods[k], BackendPort(pods[k], targetPort).value);
      Names.ServerNamesDistinct(ns, pods[j].name, pods[k].name);
      assert j == k;
    }
  }

  lemma ListenersOrderFree(key: string, held: seq<AllocatedPort>, pods: map<string, PodInfo>, ns: string,
                           selector: map<string, string>, order: seq<string>, order': seq<string>)
    requires RangesOver(order, pods) && RangesOver(order', pods) && PodsNamed(pods)
    ensures HAProxySafety.SameRequests(ListenersFor(key, held, MatchingPods(pods, order, ns, selector)),
                         ListenersFor(key, held, MatchingPods(pods, order', ns, selector)))
  {
    forall i | 0 <= i < |held|
      ensures Desired(TargetsFor(MatchingPods(pods, order, ns, selector), held[i].targetPort))
           == Desired(TargetsFor(MatchingPods(pods, order', ns, selector), held[i].targetPort))
    {
      var ts := TargetsFor(MatchingPods(pods, order, ns, selector), held[i].targetPort);
      var us := TargetsFor(MatchingPods(pods, order', ns, selector), held[i].targetPort);
      forall t ensures t in ts <==> t in us {
        MatchingTargets(pods, order, ns, selector, held[i].targetPort, t);
        MatchingTargets(pods, order', ns, selector, held[i].targetPort, t);
      }
      MatchingTargetsOneServer(pods, order, ns, selector, held[i].targetPort);
      HAProxySafety.DesiredOrderFree(ts, us);
    }
  }

  // ---- the three published objects ----

  /** Every call about the published objects is answered and every write of them lands. */
  predicate Answered(calls: Calls) {
    && calls.serviceAnswers && calls.sliceAnswers
    && calls.serviceWrite == Landed && calls.sliceWrite == Landed
  }

  /** Every write lands. */
  predicate Calm(calls: Calls) {
    Answered(calls) && calls.finalizerWrite == Landed && calls.statusWrite == Landed
  }

  predicate SameRequest(r: Record, r': Record) {
    && r'.namespace == r.namespace && r'.name == r.name && r'.uid == r.uid && r'.spec == r.spec
    && r'.status.allocatedPorts == r.status.allocatedPorts
  }

  lemma ServiceTwice(services: map<string, Service>, r: Record, r': Record, calls: Calls, calls': Calls)
    requires Calm(calls) && Calm(calls') && SameRequest(r, r')
    ensures var (services1, s) := EnsureService(services, r, calls);
      EnsureService(services1, r', calls') == (services1, s)
  {
    var (services1, s) := EnsureService(services, r, calls);
    assert ServicePorts(r') == ServicePorts(r);
    if s == Done {
      var stored := services1[Key(r)];
      assert stored.(kind := stored.kind, ports := stored.ports, labels := stored.labels) == stored;
      assert services1[Key(r) := stored] == services1;
    }
  }

  lemma SliceTwice(slices: map<string, Slice>, r: Record, r': Record, ip: string, calls: Calls, calls': Calls)
    requires Calm(calls) && Calm(calls') && SameRequest(r, r')
    ensures var (slices1, s) := EnsureSlice(slices, r, ip, calls);
      EnsureSlice(slices1, r', ip, calls') == (slices1, s)
  {
  }

  predicate OwnsIfThere(w: World, r: Record) {
    && (Key(r) in w.services ==> r.uid in w.services[Key(r)].owners)
    && (Key(r) in w.slices ==> r.uid in w.slices[Key(r)].owners)
  }

  /** With every call answered, publication fails only over objects of others, and then says so. */
  lemma CalmPublishDecides(env: Env, w: World, r: Record, calls: Calls)
    requires Lawful(env) && HAProxySafety.AllServed(env) && Answered(calls)
    ensures PublishSteps(env, w, r, calls).reason == if OwnsIfThere(w, r) then Reconciled else ServiceConflict
  {
    HAProxySafety.ApplyServed(env, w.api, Listeners(w, r, calls));
    CalmServiceDecides(w.services, r, calls);
    CalmSliceDecides(w.slices, r, w.gatewayIP, calls);
  }

  lemma CalmServiceDecides(services: map<string, Service>, r: Record, calls: Calls)
    requires Answered(calls)
    ensures EnsureService(services, r, calls).1
         == if Key(r) in services && r.uid !in services[Key(r)].owners then Conflict else Done
  {
  }

  lemma CalmSliceDecides(slices: map<string, Slice>, r: Record, ip: string, calls: Calls)
    requires Answered(calls)
    ensures EnsureSlice(slices, r, ip, calls).1
         == if Key(r) in slices && r.uid !in slices[Key(r)].owners then Conflict else Done
  {
  }

  /** Worlds that agree on everything but counters and the order inside remembered target lists. */
  predicate SameOutside(w: World, w': World) {
    && w'.ledger == w.ledger && w'.stored == w.stored && w'.services == w.services && w'.slices == w.slices
    && w'.api.committed == w.api.committed && w'.pods == w.pods && w'.gatewayIP == w.gatewayIP
    && w'.listeners.Keys == w.listeners.Keys
  }

  lemma PublishTwice(env: Env, w: World, r: Record, calls: Calls, w': World, r': Record, calls': Calls)
    requires Lawful(env) && HAProxySafety.AllServed(env) && Calm(calls) && Calm(calls') && SameRequest(r, r')
    requires PodsNamed(w.pods) && RangesOver(calls.podOrder, w.pods) && RangesOver(calls'.podOrder, w.pods)
    requires var p := PublishSteps(env, w, r, calls).world; w' == p.(stored := w'.stored)
    ensures var p, q := PublishSteps(env, w, r, calls), PublishSteps(env, w', r', calls');
      q.reason == p.reason && SameOutside(w', q.world)
  {
    ServiceTwice(w.services, r, r', calls, calls');
    SliceTwice(w.slices, r, r', w.gatewayIP, calls, calls');
    if EnsureService(w.services, r, calls).1 == Done && EnsureSlice(w.slices, r, w.gatewayIP, calls).1 == Done {
      ListenersTwice(env, w, r, calls, Apply(env, w.api, Listeners(w, r, calls)).0, calls');
      PublishedTwice(env, w, r, calls, w', r', calls');
    } else {
      StoppedTwice(env, w, r, calls, w', r', calls');
    }
  }

  lemma StoppedTwice(env: Env, w: World, r: Record, calls: Calls, w': World, r': Record, calls': Calls)
    requires EnsureService(w.services, r, calls).1 != Done || EnsureSlice(w.slices, r, w.gatewayIP, calls).1 != Done
    requires w' == PublishSteps(env, w, r, calls).world.(stored := w'.stored)
    requires var (services, s) := EnsureService(w.services, r, calls);
      EnsureService(services, r', calls') == (services, s)
    requires var (slices, t) := EnsureSlice(w.slices, r, w.gatewayIP, calls);
      EnsureSlice(slices, r', w.gatewayIP, calls') == (slices, t)
    ensures var p, q := PublishSteps(env, w, r, calls), PublishSteps(env, w', r', calls');
      q.reason == p.reason && SameOutside(w', q.world)
  {
  }

  lemma PublishedTwice(env: Env, w: World, r: Record, calls: Calls, w': World, r': Record, calls': Calls)
    requires SameRequest(r, r')
    requires EnsureService(w.services, r, calls).1 == Done && EnsureSlice(w.slices, r, w.gatewayIP, calls).1 == Done
    requires w' == PublishSteps(env, w, r, calls).world.(stored := w'.stored)
    requires EnsureService(w'.services, r', calls') == (w'.services, Done)
    requires EnsureSlice(w'.slices, r', w.gatewayIP, calls') == (w'.slices, Done)
    requires Apply(env, w.api, Listeners(w, r, calls)).1
    requires var (api', ok) := Apply(env, w'.api, Listeners(w, r, calls')); ok && api'.committed == w'.api.committed
    ensures var q := PublishSteps(env, w', r', calls');
      q.reason == PublishSteps(env, w, r, calls).reason == Reconciled && SameOutside(w', q.world)
  {
    assert Listeners(w', r', calls') == Listeners(w, r, calls');
    assert Key(r') == Key(r) && Key(r) in w'.listeners;
    KeysKept(w'.listeners, Key(r), Listeners(w, r, calls'));
  }

  lemma KeysKept(m: map<string, seq<Listener>>, k: string, v: seq<Listener>)
    requires k in m
    ensures m[k := v].Keys == m.Keys
  {
  }

  function Listeners(w: World, r: Record, calls: Calls): seq<Listener> {
    ListenersFor(Key(r), r.status.allocatedPorts, MatchingPods(w.pods, calls.podOrder, r.namespace, r.spec.selector))
  }

  lemma ListenersTwice(env: Env, w: World, r: Record, calls: Calls, api: Api, calls': Calls)
    requires Lawful(env) && HAProxySafety.AllServed(env)
    requires PodsNamed(w.pods) && RangesOver(calls.podOrder, w.pods) && RangesOver(calls'.podOrder, w.pods)
    requires api == Apply(env, w.api, Listeners(w, r, calls)).0
    ensures Apply(env, w.api, Listeners(w, r, calls)).1
    ensures var (api', ok) := Apply(env, api, Listeners(w, r, calls')); ok && api'.committed == api.committed
  {
    var xs, ys := Listeners(w, r, calls), Listeners(w, r, calls');
    HAProxySafety.ApplyServed(env, w.api, xs);
    HAProxySafety.ApplyServed(env, api, ys);
    ListenersOrderFree(Key(r), r.status.allocatedPorts, w.pods, r.namespace, r.spec.selector, calls.podOrder,
                       calls'.podOrder);
    HAProxySafety.OverlaySameRequests(w.api.committed, xs, ys);
    HAProxySafety.OverlayTwice(w.api.committed, ys);
  }

  // ---- ports ----

  lemma {:induction false} ReleasingNothing(l: PortAlloc.Ledger, key: string, ps: seq<int>)
    requires forall p :: p in ps ==> !GatewayAccounts.Owns(l, key, p)
    ensures PortAlloc.ReleasedMany(l, key, ps) == l
    decreases |ps|
  {
    if ps == [] {
    } else {
      assert ps[0] in ps && PortAlloc.Released(l, key, ps[0]) == l;
      ReleasingNothing(l, key, ps[1..]);
    }
  }

  lemma PortsTwice(l: PortAlloc.Ledger, key: string, held: seq<AllocatedPort>, ports: seq<PortSpec>)
    requires PortAlloc.Consistent(l)
    ensures var a := EnsurePorts(l, key, held, ports); EnsurePorts(a.ledger, key, a.held, ports) == a
  {
    var a := EnsurePorts(l, key, held, ports);
    EnsuredPortsMatch(l, key, held, ports);
    if a.ok {
      EnsuredPortsMatch(a.ledger, key, a.held, ports);
    } else {
      GatewayAccounts.ReleasedManyOwners(l, key, GatewayPorts(held));
      ReleasingNothing(a.ledger, key, GatewayPorts(held));
    }
  }

  // ---- the theorem ----

  /** A second reconcile of a ClusterIP service, in an unchanged world and with every call served, changes nothing
      and writes no status: after success, after a validation error, after port exhaustion, after a conflict. */
  lemma ReconcileTwice(env: Env, w: World, r: Record, calls: Calls, calls': Calls)
    requires Lawful(env) && HAProxySafety.AllServed(env) && Calm(calls) && Calm(calls')
    requires RecordsKept(w) && PortAlloc.Consistent(w.ledger)
    requires Key(r) in w.stored && w.stored[Key(r)] == r && FINALIZER in r.finalizers && !r.deleting
    requires ServiceKind(r) == CLUSTER_IP
    requires PodsNamed(w.pods) && RangesOver(calls.podOrder, w.pods) && RangesOver(calls'.podOrder, w.pods)
    ensures var t := ReconcileKey(env, w, Key(r), calls);
      var t' := ReconcileKey(env, t.world, Key(r), calls');
      SameOutside(t.world, t'.world) && !t'.wrote
  {
    var t := ReconcileKey(env, w, Key(r), calls);
    var p := RunSteps(env, w, r, calls);
    StepsHoldMatchingPorts(env, w, r, calls);
    NoPortChangeIsLost(env, w, r, calls);
    ReconcileRecordStores(env, w, r, calls);
    var r' := t.world.stored[Key(r)];
    PutConditionIsFound(r.status.conditions, ReadyCondition(p.reason, r, calls));
    assert SameRequest(r.(status := r.status.(allocatedPorts := p.held)), r');
    StepsTwice(env, w, r, calls, t.world, r', calls');
    var q := RunSteps(env, t.world, r', calls');
    PutConditionIsFound(r'.status.conditions, ReadyCondition(q.reason, r', calls'));
    assert !FinishStatus(q.world, r', q.reason, calls').wrote;
  }

  lemma StepsTwice(env: Env, w: World, r: Record, calls: Calls, w': World, r': Record, calls': Calls)
    requires Lawful(env) && HAProxySafety.AllServed(env) && Calm(calls) && Calm(calls')
    requires PortAlloc.Consistent(w.ledger)
    requires PodsNamed(w.pods) && RangesOver(calls.podOrder, w.pods) && RangesOver(calls'.podOrder, w.pods)
    requires var p := RunSteps(env, w, r, calls);
      w' == p.world.(stored := w'.stored) && SameRequest(r.(status := r.status.(allocatedPorts := p.held)), r')
    ensures var p, q := RunSteps(env, w, r, calls), RunSteps(env, w', r', calls');
      q.reason == p.reason && q.held == p.held && SameOutside(w', q.world)
  {
    StepsHoldMatchingPorts(env, w, r, calls);
    if ValidSpec(r.spec) {
      PortsTwice(w.ledger, Key(r), r.status.allocatedPorts, r.spec.ports);
      var a := EnsurePorts(w.ledger, Key(r), r.status.allocatedPorts, r.spec.ports);
      if a.ok {
        PublishTwice(env, w.(ledger := a.ledger), r.(status := r.status.(allocatedPorts := a.held)), calls, w', r',
                     calls');
      }
    }
  }
}
