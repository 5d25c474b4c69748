/** Runs from an empty cluster that end with a Service port leading to a pod that its service does not ask for. */
module Misrouting {
  import opened HAProxy
  import opened Gateway
  import opened GatewayRuns
  import opened Routing
  import Names
  import HAProxySafety
  import GatewayLeaks
  import GatewayIdempotence
  import Tunnels

  // ---- a finished pod ----

  /** The controller still knows a finished pod; another pod has its slot. A service that selects the finished one leads
      to the other, which it does not select. */
  lemma FinishedPodMisroutes(env: Env, w: World, r: Record, calls: Calls, sp: PortSpec, a: RunningPod, b: RunningPod)
    requires Lawful(env) && HAProxySafety.AllServed(env) && GatewayIdempotence.Answered(calls)
    requires calls.finalizerWrite == Landed
    requires FreshWorld(w) && w.api.committed == Config(map[], map[]) && w.services == map[] && w.slices == map[]
    requires GatewayLeaks.New(r) && Names.Clean(r.namespace) && Names.Clean(r.name) && ValidSpec(r.spec)
    requires DistinctPorts(r.spec.ports) && sp in r.spec.ports && |r.spec.ports| <= GatewayLeaks.RANGE_SIZE
    requires w.pods == InfosOf(Both(a, b)) && GatewayIdempotence.RangesOver(calls.podOrder, w.pods)
    requires Successor(a, b, sp.targetPort)
    requires Picks(r.namespace, r.spec.selector, a) && !Picks(r.namespace, r.spec.selector, b)
    ensures Reaches(RunEvents(env, w, [Created(r), KeyTaken(Key(r), calls)]), map[PodKey(b) := b], Key(r), sp.port,
                    PodKey(b), sp.targetPort)
  {
    SuccessorIsOnline(w, a, b, r, calls, sp.targetPort);
    SuccessorIsLedTo(a, b, r, sp.targetPort);
    NewServiceRoutesExactly(env, w, Both(a, b), map[PodKey(b) := b], r, calls, sp, PodKey(b), sp.targetPort);
  }

  function Both(a: RunningPod, b: RunningPod): map<string, RunningPod> {
    map[PodKey(a) := a, PodKey(b) := b]
  }

  /** Pod b has the slot that pod a had, and the same container ports, the target port among them. */
  predicate Successor(a: RunningPod, b: RunningPod, targetPort: int) {
    && CleanPod(a) && CleanPod(b) && PodKey(a) != PodKey(b)
    && a.slot == b.slot && a.containerPorts == b.containerPorts
    && targetPort in a.containerPorts && Tunnels.NoRepeatBelow(a.containerPorts, targetPort)
  }

  lemma SuccessorIsOnline(w: World, a: RunningPod, b: RunningPod, r: Record, calls: Calls, targetPort: int)
    requires w.pods == InfosOf(Both(a, b)) && GatewayIdempotence.RangesOver(calls.podOrder, w.pods)
    requires Successor(a, b, targetPort)
    ensures PodsOnline(w, Both(a, b), map[PodKey(b) := b], r, calls, targetPort)
  {
    BothNamed(a, b);
    OnlyOneRuns(a, b);
  }

  lemma BothNamed(a: RunningPod, b: RunningPod)
    requires CleanPod(a) && CleanPod(b)
    ensures NetNamed(Both(a, b))
  {
  }

  lemma OnlyOneRuns(a: RunningPod, b: RunningPod)
    requires PodKey(a) != PodKey(b)
    ensures KnowsRunning(Both(a, b), map[PodKey(b) := b]) && SlotsDistinct(map[PodKey(b) := b])
  {
  }

  lemma SuccessorIsLedTo(a: RunningPod, b: RunningPod, r: Record, targetPort: int)
    requires Successor(a, b, targetPort) && Picks(r.namespace, r.spec.selector, a)
    ensures FinishedRoute(Both(a, b), map[PodKey(b) := b], r.namespace, r.spec.selector, targetPort, PodKey(b),
                          targetPort)
  {
    Tunnels.PositionsAgree(a.containerPorts, targetPort);
    assert FinishedLeads(Both(a, b), map[PodKey(b) := b], r.namespace, r.spec.selector, targetPort, PodKey(a),
                         PodKey(b), targetPort);
  }

  function PodKey(pod: RunningPod): string {
    Names.KeyOf(pod.namespace, pod.name)
  }

  predicate CleanPod(pod: RunningPod) {
    Names.Clean(pod.namespace) && Names.Clean(pod.name)
  }
}
