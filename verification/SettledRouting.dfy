/** End to end along runs that keep every committed frontend current: exactly the asked-for routes and no other. */
module SettledRouting {
  import opened HAProxy
  import opened Gateway
  import opened GatewayRuns
  import opened GatewayFrontends
  import opened Routing
  import PortAlloc
  import HAProxySafety
  import GatewayAccounts
  import GatewayIdempotence
  import Published

  // ---- the theorem ----

  lemma FreshWorldOrderly(w: World)
    requires FreshWorld(w) && w.api.committed == Config(map[], map[])
    ensures Orderly(w, {}) && AllCurrent(w)
  {
    GatewayAccounts.FreshWorldAccounted(w);
  }

  /** Over every run that keeps the frontends current, whatever else fails in it: after a successful turn in which
      HAProxy serves every call, each Service port leads to its target port on exactly the matching pods (and on what
      took over the slots of finished ones), provided its slice is found. No older listener gets in the way. */
  lemma SettledRunRoutesExactly(env: Env, w0: World, events: seq<Event>, served: Env, cached: map<string, RunningPod>,
                                net: map<string, RunningPod>, key: string, calls: Calls, sp: PortSpec, podKey: string,
                                port: int)
    requires Lawful(env) && FreshWorld(w0) && w0.api.committed == Config(map[], map[])
    requires RunKeepsCurrent(env, w0, events)
    requires Lawful(served) && HAProxySafety.AllServed(served)
    requires var w := RunEvents(env, w0, events); key in w.stored && TurnSucceeds(served, w, w.stored[key], calls)
    requires var w := RunEvents(env, w0, events);
      sp in w.stored[key].spec.ports && PodsOnline(w, cached, net, w.stored[key], calls, sp.targetPort)
    ensures var w := RunEvents(env, w0, events);
      Reaches(ReconcileKey(served, w, key, calls).world, net, key, sp.port, podKey, port)
      <==> Published.SliceIsFound(w, w.stored[key]) && PodRoute(cached, net, w.stored[key], sp, podKey, port)
  {
    var w := RunEvents(env, w0, events);
    FreshWorldOrderly(w0);
    GatewayAccounts.FreshWorldSound(w0);
    GatewayAccounts.RunStaysSound(env, w0, events);
    RunStaysCurrent(env, w0, {}, events);
    SettledTurnRoutes(served, w, {} + GatewayAccounts.RunLeaks(env, w0, events), cached, net, key, calls, sp,
                      podKey, port);
  }

  lemma SettledTurnRoutes(env: Env, w: World, leaked: set<(string, int)>, cached: map<string, RunningPod>,
                          net: map<string, RunningPod>, key: string, calls: Calls, sp: PortSpec, podKey: string,
                          port: int)
    requires Lawful(env) && HAProxySafety.AllServed(env) && Orderly(w, leaked) && AllCurrent(w)
    requires GatewayAccounts.PortsSound(w)
    requires key in w.stored && TurnSucceeds(env, w, w.stored[key], calls)
    requires sp in w.stored[key].spec.ports && PodsOnline(w, cached, net, w.stored[key], calls, sp.targetPort)
    ensures Reaches(ReconcileKey(env, w, key, calls).world, net, key, sp.port, podKey, port)
      <==> Published.SliceIsFound(w, w.stored[key]) && PodRoute(cached, net, w.stored[key], sp, podKey, port)
  {
    TurnRoutesExactly(env, w, cached, net, key, calls, sp, podKey, port);
    if FINALIZER in w.stored[key].finalizers {
      NoForeignRoute(env, w, leaked, net, key, calls, sp, podKey, port);
    } else {
      NoForeignRouteAtFirst(env, w, leaked, net, key, calls, sp, podKey, port);
    }
  }

  lemma NoForeignRoute(env: Env, w: World, leaked: set<(string, int)>, net: map<string, RunningPod>, key: string,
                       calls: Calls, sp: PortSpec, podKey: string, port: int)
    requires Orderly(w, leaked) && AllCurrent(w) && key in w.stored && FINALIZER in w.stored[key].finalizers
    requires RunSteps(env, w, w.stored[key], calls).reason == Reconciled
    ensures var r := w.stored[key]; !ForeignRoute(w, net, HeldAfter(w, r), ConfigsOf(w, r, calls), sp, podKey, port)
  {
    assert Key(w.stored[key]) == key;
    SuccessPublishes(env, w, w.stored[key], calls);
    CurrentMeansNoForeignRoute(w, leaked, net, w.stored[key], calls, sp, podKey, port);
  }

  lemma NoForeignRouteAtFirst(env: Env, w: World, leaked: set<(string, int)>, net: map<string, RunningPod>, key: string,
                              calls: Calls, sp: PortSpec, podKey: string, port: int)
    requires Orderly(w, leaked) && AllCurrent(w) && key in w.stored && FINALIZER !in w.stored[key].finalizers
    requires TurnSucceeds(env, w, w.stored[key], calls)
    ensures var r := w.stored[key]; !ForeignRoute(w, net, HeldAfter(w, r), ConfigsOf(w, r, calls), sp, podKey, port)
  {
    var r, w1, r1 := w.stored[key], FinalizerAdded(w, key, calls), WithFinalizer(w.stored[key]);
    FinalizerKeepsCurrent(w, leaked, key, calls);
    FinalizerKeepsRecords(w, key, calls);
    SameSteps(env, w, r, calls, w1, r1, Stale(calls));
    NoForeignRoute(env, w1, leaked, net, key, Stale(calls), sp, podKey, port);
    SameForeignRoute(w, w1, net, HeldAfter(w, r), ConfigsOf(w, r, calls), sp, podKey, port);
  }

  lemma SameForeignRoute(w: World, w1: World, net: map<string, RunningPod>, held: seq<AllocatedPort>,
                         configs: seq<Listener>, sp: PortSpec, podKey: string, port: int)
    requires w1.api == w.api
    ensures ForeignRoute(w1, net, held, configs, sp, podKey, port)
        <==> ForeignRoute(w, net, held, configs, sp, podKey, port)
  {
  }

  // ---- runs that keep every frontend current ----

  /** The turn gives up recorded ports for new ones. */
  predicate Reallocates(r: Record) {
    ValidSpec(r.spec) && r.status.allocatedPorts != [] && !Matches(r.status.allocatedPorts, r.spec.ports)
  }

  /** One namespace and clean names; no edit drops a service port number; a turn that re-allocates ends Reconciled; the
      ports a turn gives out or back are written down. */
  predicate Steady(env: Env, w: World, ns: string, e: Event) {
    && GatewayAccounts.KeepsAccount(w, e)
    && match e
       case Created(r) => r.namespace == ns && CleanName(r) && DistinctPorts(r.spec.ports)
       case SpecEdited(key, spec) =>
         && DistinctPorts(spec.ports)
         && (key in w.stored ==> PortNumbers(w.stored[key].spec.ports) <= PortNumbers(spec.ports))
       case KeyTaken(key, calls) =>
         && key in w.stored && FINALIZER in w.stored[key].finalizers && !w.stored[key].deleting
         && Reallocates(w.stored[key])
         ==> RunSteps(env, w, w.stored[key], calls).reason == Reconciled
       case _ => true
  }

  predicate RunIsSteady(env: Env, w: World, ns: string, events: seq<Event>)
    decreases |events|
  {
    events == [] || (Steady(env, w, ns, events[0]) && RunIsSteady(env, StepEvent(env, w, events[0]), ns, events[1..]))
  }

  predicate OneNamespace(w: World, ns: string) {
    forall k :: k in w.stored ==> w.stored[k].namespace == ns
  }

  /** When HAProxy serves every call, such runs keep every frontend current. */
  lemma {:induction false} SteadyRunKeepsCurrent(env: Env, w: World, leaked: set<(string, int)>, ns: string,
                                                events: seq<Event>)
    requires Lawful(env) && HAProxySafety.AllServed(env) && Orderly(w, leaked) && AllCurrent(w) && OneNamespace(w, ns)
    requires RunIsSteady(env, w, ns, events)
    ensures RunKeepsCurrent(env, w, events)
    decreases |events|
  {
    if events == [] {
    } else {
      SteadyJoins(w, ns, env, events[0]);
      SteadyKeepsCurrent(env, w, leaked, ns, events[0]);
      StepKeepsCurrentExactly(env, w, leaked, events[0]);
      StepKeepsOrder(env, w, leaked, events[0]);
      NamespaceStays(env, w, ns, events[0]);
      SteadyRunKeepsCurrent(env, StepEvent(env, w, events[0]), leaked + GatewayAccounts.Leaks(w, events[0]), ns,
                            events[1..]);
    }
  }

  lemma SteadyJoins(w: World, ns: string, env: Env, e: Event)
    requires RecordsKept(w) && OneNamespace(w, ns) && Steady(env, w, ns, e)
    ensures Joins(w, e)
  {
    if e.Created? { OneNamespaceMayJoin(w, e.r); }
  }

  lemma NamespaceStays(env: Env, w: World, ns: string, e: Event)
    requires RecordsKept(w) && OneNamespace(w, ns) && (e.Created? ==> e.r.namespace == ns)
    ensures OneNamespace(StepEvent(env, w, e), ns)
  {
    if e.KeyTaken? && e.key in w.stored { TurnKeepsNamespace(env, w, ns, e.key, e.calls); }
  }

  lemma TurnKeepsNamespace(env: Env, w: World, ns: string, key: string, calls: Calls)
    requires RecordsKept(w) && OneNamespace(w, ns) && key in w.stored
    ensures OneNamespace(ReconcileKey(env, w, key, calls).world, ns)
  {
    var r := w.stored[key];
    assert Key(r) == key;
    if r.deleting {
      if FINALIZER in r.finalizers { FinalizeStored(env, w, r, calls); }
    } else if FINALIZER in r.finalizers {
      RecordKeepsNamespace(env, w, ns, r, calls);
    } else {
      FinalizerKeepsRecords(w, key, calls);
      if calls.finalizerWrite == Landed {
        RecordKeepsNamespace(env, FinalizerAdded(w, key, calls), ns, WithFinalizer(r), Stale(calls));
      }
    }
  }

  lemma RecordKeepsNamespace(env: Env, w: World, ns: string, r: Record, calls: Calls)
    requires OneNamespace(w, ns) && Key(r) in w.stored && w.stored[Key(r)] == r
    ensures OneNamespace(ReconcileRecord(env, w, r, calls).world, ns)
  {
    ReconcileRecordStores(env, w, r, calls);
  }

  lemma SteadyKeepsCurrent(env: Env, w: World, leaked: set<(string, int)>, ns: string, e: Event)
    requires Lawful(env) && HAProxySafety.AllServed(env) && Orderly(w, leaked) && AllCurrent(w) && Steady(env, w, ns, e)
    ensures KeepsCurrent(env, w, e)
  {
    match e
    case SpecEdited(key, spec) => assert !DropsListener(w, key, spec);
    case KeyTaken(key, calls) =>
      if key in w.stored && FINALIZER in w.stored[key].finalizers {
        assert Key(w.stored[key]) == key;
        if w.stored[key].deleting {
          ServedRemovalLeavesNothing(env, w, w.stored[key], calls);
        } else {
          SteadyTurnStrandsNothing(env, w, leaked, w.stored[key], calls);
        }
      }
    case _ =>
  }

  lemma SteadyTurnStrandsNothing(env: Env, w: World, leaked: set<(string, int)>, r: Record, calls: Calls)
    requires Lawful(env) && HAProxySafety.AllServed(env) && Orderly(w, leaked) && AllCurrent(w)
    requires Key(r) in w.stored && w.stored[Key(r)] == r && FINALIZER in r.finalizers
    requires Reallocates(r) ==> RunSteps(env, w, r, calls).reason == Reconciled
    ensures !Strands(env, w, r, calls)
  {
    if Reallocates(r) {
      SuccessPublishes(env, w, r, calls);
      forall f, n | f in w.api.committed.frontends && n >= 1 && f == FrontendOf(Key(r), n)
        ensures f in Reached(env, w, r, calls)
      {
        OwnIsReached(env, w, r, calls, f, n);
      }
    } else {
      NothingToStrand(env, w, r, calls);
    }
  }

  /** A served publication rebinds every current frontend of the service. */
  lemma OwnIsReached(env: Env, w: World, r: Record, calls: Calls, f: string, n: int)
    requires Lawful(env) && HAProxySafety.AllServed(env) && RecordsKept(w) && NamesApart(w) && AllCurrent(w)
    requires Key(r) in w.stored && w.stored[Key(r)] == r && Publishes(w, r, calls)
    requires f in w.api.committed.frontends && n >= 1 && f == FrontendOf(Key(r), n)
    ensures f in Reached(env, w, r, calls)
  {
    var k, m :| CurrentFor(w, f, k, m);
    FrontendsApart(w, Key(r), n, k, m);
    PublishedNames(w, r, calls, f);
    ServedAppliesAll(env, w.api, ConfigsOf(w, r, calls));
  }

  lemma {:induction false} ServedAppliesAll(env: Env, a: Api, configs: seq<Listener>)
    requires Lawful(env) && HAProxySafety.AllServed(env)
    ensures HAProxySafety.AppliedNames(env, a, configs) == HAProxySafety.FrontendNames(configs)
    decreases |configs|
  {
    if configs == [] {
    } else {
      ServedFirst(env, a, configs);
      ServedAppliesAll(env, ApplyOne(env, a, configs[0]).0, configs[1..]);
      FirstNamed(configs);
    }
  }

  lemma ServedFirst(env: Env, a: Api, configs: seq<Listener>)
    requires Lawful(env) && HAProxySafety.AllServed(env) && configs != []
    ensures HAProxySafety.AppliedNames(env, a, configs)
         == {FrontendName(configs[0])} + HAProxySafety.AppliedNames(env, ApplyOne(env, a, configs[0]).0, configs[1..])
  {
    HAProxySafety.ApplyOneServed(env, a, configs[0]);
  }

  lemma FirstNamed(configs: seq<Listener>)
    requires configs != []
    ensures HAProxySafety.FrontendNames(configs)
        == {FrontendName(configs[0])} + HAProxySafety.FrontendNames(configs[1..])
  {
    assert configs == [configs[0]] + configs[1..];
    HAProxySafety.NamesOfCons(configs[0], configs[1..]);
  }

  lemma ServedRemovalLeavesNothing(env: Env, w: World, r: Record, calls: Calls)
    requires HAProxySafety.AllServed(env) && RecordsKept(w) && NamesApart(w) && AllCurrent(w)
    requires Key(r) in w.stored && w.stored[Key(r)] == r
    ensures !RemovalLeaves(env, w, r, calls)
  {
    forall f, n | f in w.api.committed.frontends && n >= 1 && f == FrontendOf(Key(r), n)
      ensures f in Erased(env, w, Key(r))
    {
      var k, m :| CurrentFor(w, f, k, m);
      FrontendsApart(w, Key(r), n, k, m);
      ServedRemovesAll(env, w.api, w.listeners[Key(r)]);
    }
  }

  lemma {:induction false} ServedRemovesAll(env: Env, a: Api, configs: seq<Listener>)
    requires HAProxySafety.AllServed(env)
    ensures HAProxySafety.RemovedNames(env, a, configs) == HAProxySafety.FrontendNames(configs)
    decreases |configs|
  {
    if configs == [] {
    } else {
      ServedRemovesAll(env, RemoveOne(env, a, configs[0]).0, configs[1..]);
      FirstNamed(configs);
    }
  }

  // ---- conditions that can be looked up before each event ----

  /** A turn that must change the service's ports: enough of them are free once the old ones are given back and the
      status write lands; if there were old ones, no Service or EndpointSlice of others is in the way and the calls
      about these objects are answered. If too few are free there is nothing to give back. */
  predicate PortsChangeWell(w: World, r: Record, calls: Calls) {
    var held := r.status.allocatedPorts;
    if |r.spec.ports| <= |PortAlloc.FreePorts(PortAlloc.ReleasedMany(w.ledger, Key(r), GatewayPorts(held)))| then
      && Written(calls.statusWrite)
      && (held != [] ==> GatewayIdempotence.OwnsIfThere(w, r) && GatewayIdempotence.Answered(calls))
    else held == []
  }

  /** One namespace and clean names; no edit drops a service port number; ports change well; and the removal of a
      finalizer is written. */
  predicate Plain(w: World, ns: string, e: Event) {
    match e
    case Created(r) => r.namespace == ns && CleanName(r) && DistinctPorts(r.spec.ports)
    case SpecEdited(key, spec) =>
      && DistinctPorts(spec.ports)
      && (key in w.stored ==> PortNumbers(w.stored[key].spec.ports) <= PortNumbers(spec.ports))
    case KeyTaken(key, calls) =>
      key in w.stored && FINALIZER in w.stored[key].finalizers ==>
        var r := w.stored[key];
        if r.deleting then Written(calls.finalizerWrite) || r.status.allocatedPorts == []
        else ValidSpec(r.spec) && !Matches(r.status.allocatedPorts, r.spec.ports) ==> PortsChangeWell(w, r, calls)
    case _ => true
  }

  predicate RunIsPlain(env: Env, w: World, ns: string, events: seq<Event>)
    decreases |events|
  {
    events == [] || (Plain(w, ns, events[0]) && RunIsPlain(env, StepEvent(env, w, events[0]), ns, events[1..]))
  }

  lemma PlainTurnReconciles(env: Env, w: World, r: Record, calls: Calls)
    requires Lawful(env) && HAProxySafety.AllServed(env) && PortAlloc.Consistent(w.ledger)
    requires PortsChangeWell(w, r, calls)
    requires ValidSpec(r.spec) && !Matches(r.status.allocatedPorts, r.spec.ports)
    ensures GatewayAccounts.TurnConserves(w, r, calls)
    ensures r.status.allocatedPorts != [] ==> RunSteps(env, w, r, calls).reason == Reconciled
  {
    var a := EnsurePorts(w.ledger, Key(r), r.status.allocatedPorts, r.spec.ports);
    GatewayAccounts.EnsurePortsOwners(w.ledger, Key(r), r.status.allocatedPorts, r.spec.ports);
    if r.status.allocatedPorts != [] {
      GatewayIdempotence.CalmPublishDecides(env, w.(ledger := a.ledger),
                                            r.(status := r.status.(allocatedPorts := a.held)), calls);
    }
  }

  lemma PlainIsSteady(env: Env, w: World, ns: string, e: Event)
    requires Lawful(env) && HAProxySafety.AllServed(env) && RecordsKept(w) && PortAlloc.Consistent(w.ledger)
    requires Plain(w, ns, e)
    ensures Steady(env, w, ns, e)
  {
    if e.KeyTaken? && e.key in w.stored && FINALIZER in w.stored[e.key].finalizers && !w.stored[e.key].deleting {
      var r := w.stored[e.key];
      if ValidSpec(r.spec) && !Matches(r.status.allocatedPorts, r.spec.ports) {
        PlainTurnReconciles(env, w, r, e.calls);
      }
    }
  }

  lemma {:induction false} PlainRunIsSteady(env: Env, w: World, ns: string, events: seq<Event>)
    requires Lawful(env) && HAProxySafety.AllServed(env) && RecordsKept(w) && GatewayAccounts.PortsSound(w)
    requires RunIsPlain(env, w, ns, events)
    ensures RunIsSteady(env, w, ns, events)
    decreases |events|
  {
    if events == [] {
    } else {
      PlainIsSteady(env, w, ns, events[0]);
      GatewayAccounts.StepStaysSound(env, w, events[0]);
      RecordsStayKept(env, w, events[0]);
      PlainRunIsSteady(env, StepEvent(env, w, events[0]), ns, events[1..]);
    }
  }

  lemma {:induction false} PlainRunIsNamed(env: Env, w: World, ns: string, events: seq<Event>)
    requires RunIsPlain(env, w, ns, events)
    ensures forall e :: e in events ==> Published.NamedProperly(e)
    decreases |events|
  {
    if events == [] {
    } else {
      PlainRunIsNamed(env, StepEvent(env, w, events[0]), ns, events[1..]);
      assert forall e :: e in events ==> e == events[0] || e in events[1..];
    }
  }

  /** End to end over such runs: exactly the asked-for routes (and those through the slots of finished pods), provided
      the slice is found, as it always is in a cluster that had no EndpointSlices at the start. */
  lemma PlainRunRoutesExactly(env: Env, w0: World, ns: string, events: seq<Event>, cached: map<string, RunningPod>,
                              net: map<string, RunningPod>, key: string, calls: Calls, sp: PortSpec, podKey: string,
                              port: int)
    requires Lawful(env) && HAProxySafety.AllServed(env) && FreshWorld(w0) && w0.api.committed == Config(map[], map[])
    requires RunIsPlain(env, w0, ns, events)
    requires var w := RunEvents(env, w0, events); key in w.stored && TurnSucceeds(env, w, w.stored[key], calls)
    requires var w := RunEvents(env, w0, events);
      sp in w.stored[key].spec.ports && PodsOnline(w, cached, net, w.stored[key], calls, sp.targetPort)
    ensures var w := RunEvents(env, w0, events);
      Reaches(ReconcileKey(env, w, key, calls).world, net, key, sp.port, podKey, port)
      <==> Published.SliceIsFound(w, w.stored[key]) && PodRoute(cached, net, w.stored[key], sp, podKey, port)
    ensures w0.slices == map[] ==>
      var w := RunEvents(env, w0, events); Published.SliceIsFound(w, w.stored[key])
  {
    FreshWorldOrderly(w0);
    GatewayAccounts.FreshWorldSound(w0);
    PlainRunIsSteady(env, w0, ns, events);
    SteadyRunKeepsCurrent(env, w0, {}, ns, events);
    PlainRunIsNamed(env, w0, ns, events);
    if w0.slices == map[] { Published.FreshRunFindsSlices(env, w0, events, key); }
    SettledRunRoutesExactly(env, w0, events, env, cached, net, key, calls, sp, podKey, port);
  }
}
