/** HAProxy against the allocator and the statuses over runs: when every committed frontend belongs to a service that
    still wants it, on a port of that service. */
module GatewayFrontends {
  import opened HAProxy
  import opened Gateway
  import opened GatewayRuns
  import opened GatewayAccounts
  import opened Routing
  import Names
  import PortAlloc
  import HAProxySafety
  import GatewayIdempotence

  function FrontendOf(key: string, n: int): string {
    Names.SanitizeName(Names.ListenerName(key, n))
  }

  // ---- names ----

  /** Namespace and name as HAProxy sees them. */
  function Dashed(r: Record): string {
    r.namespace + "-" + r.name
  }

  predicate CleanName(r: Record) {
    Names.Clean(r.namespace) && Names.Clean(r.name)
  }

  ghost predicate NamesApart(w: World) {
    && (forall k :: k in w.stored ==> CleanName(w.stored[k]) && DistinctPorts(w.stored[k].spec.ports))
    && (forall k, k' :: k in w.stored && k' in w.stored && Dashed(w.stored[k]) == Dashed(w.stored[k']) ==> k == k')
  }

  /** A service may join if its names are clean and clash with none that is there; its ports are distinct. */
  ghost predicate MayJoin(w: World, r: Record) {
    && CleanName(r) && DistinctPorts(r.spec.ports)
    && forall k :: k in w.stored && Dashed(w.stored[k]) == Dashed(r) ==> k == Key(r)
  }

  /** In one namespace clean names are enough. */
  lemma OneNamespaceMayJoin(w: World, r: Record)
    requires RecordsKept(w) && CleanName(r) && DistinctPorts(r.spec.ports)
    requires forall k :: k in w.stored ==> w.stored[k].namespace == r.namespace
    ensures MayJoin(w, r)
  {
    forall k | k in w.stored && Dashed(w.stored[k]) == Dashed(r) ensures k == Key(r) {
      Names.SamePrefix(r.namespace, w.stored[k].name, r.name);
      assert Key(w.stored[k]) == k;
    }
  }

  lemma FrontendsApart(w: World, k: string, n: int, k': string, n': int)
    requires RecordsKept(w) && NamesApart(w) && k in w.stored && k' in w.stored && n >= 1 && n' >= 1
    ensures FrontendOf(k, n) == FrontendOf(k', n') <==> k == k' && n == n'
  {
    var r, r' := w.stored[k], w.stored[k'];
    assert Key(r) == k && Key(r') == k';
    Names.ListenerNamesClash(r.namespace, r.name, n, r'.namespace, r'.name, n');
  }

  // ---- the invariant ----

  predicate Wants(r: Record, n: int) {
    n >= 1 && n in PortNumbers(r.spec.ports)
  }

  /** The frontend is the one of this port of this service, in its last list of listeners, and bound to its ports
      only. */
  ghost predicate CurrentFor(w: World, f: string, k: string, n: int) {
    && k in w.stored && FINALIZER in w.stored[k].finalizers && Wants(w.stored[k], n) && f == FrontendOf(k, n)
    && k in w.listeners && f in HAProxySafety.FrontendNames(w.listeners[k])
    && BoundTo(w, f, k)
  }

  predicate BoundTo(w: World, f: string, k: string) {
    f in w.api.committed.frontends ==>
      forall b :: b in w.api.committed.frontends[f].binds ==> Owns(w.ledger, k, w.api.committed.frontends[f].binds[b])
  }

  ghost predicate AllCurrent(w: World) {
    forall f :: f in w.api.committed.frontends ==> exists k, n :: CurrentFor(w, f, k, n)
  }

  /** The manager's lists name listeners after their owners. */
  ghost predicate ListsNamed(listeners: map<string, seq<Listener>>) {
    forall k, f :: k in listeners && f in HAProxySafety.FrontendNames(listeners[k]) ==>
      exists n :: n >= 1 && f == FrontendOf(k, n)
  }

  /** What holds along the runs considered, whatever becomes of the frontends. */
  ghost predicate Orderly(w: World, leaked: set<(string, int)>) {
    && RecordsKept(w) && Accounted(w, leaked) && Managed(w.api.committed) && NamesApart(w) && ListsNamed(w.listeners)
  }

  // ---- one turn ----

  /** The turn takes this recorded port from the service: it re-allocates, and the port is not among those that it
      claims then, which are the lowest free ones if there are enough. */
  predicate GivesUp(w: World, r: Record, p: int) {
    && ValidSpec(r.spec) && !Matches(r.status.allocatedPorts, r.spec.ports)
    && p in GatewayPorts(r.status.allocatedPorts)
    && (var l1 := PortAlloc.ReleasedMany(w.ledger, Key(r), GatewayPorts(r.status.allocatedPorts));
        var free := PortAlloc.FreePorts(l1);
        |free| < |r.spec.ports| || |Below(free, p)| >= |r.spec.ports|)
  }

  function Below(free: set<int>, p: int): set<int> {
    set q | q in free && q < p
  }

  /** A committed frontend of the service that the turn does not reach, bound to a port that it gives up. */
  ghost predicate Strands(env: Env, w: World, r: Record, calls: Calls) {
    exists f, n, b :: StrandedAt(env, w, r, calls, f, n, b)
  }

  predicate StrandedAt(env: Env, w: World, r: Record, calls: Calls, f: string, n: int, b: string) {
    && f in w.api.committed.frontends && n >= 1 && f == FrontendOf(Key(r), n) && f !in Reached(env, w, r, calls)
    && b in w.api.committed.frontends[f].binds && GivesUp(w, r, w.api.committed.frontends[f].binds[b])
  }

  /** The frontends that the turn rebinds. */
  function Reached(env: Env, w: World, r: Record, calls: Calls): set<string> {
    if !Publishes(w, r, calls) then {} else HAProxySafety.AppliedNames(env, w.api, ConfigsOf(w, r, calls))
  }

  /** The turn gets as far as HAProxy. */
  predicate Publishes(w: World, r: Record, calls: Calls) {
    && ValidSpec(r.spec) && EnsurePorts(w.ledger, Key(r), r.status.allocatedPorts, r.spec.ports).ok
    && (var r1 := r.(status := r.status.(allocatedPorts := HeldAfter(w, r)));
        EnsureService(w.services, r1, calls).1 == Done && EnsureSlice(w.slices, r1, w.gatewayIP, calls).1 == Done)
  }

  lemma TurnOutside(env: Env, w: World, r: Record, calls: Calls)
    ensures var w' := ReconcileRecord(env, w, r, calls).world;
      if Publishes(w, r, calls) then
        && w'.api == Apply(env, w.api, ConfigsOf(w, r, calls)).0
        && w'.listeners == w.listeners[Key(r) := ConfigsOf(w, r, calls)]
      else w'.api == w.api && w'.listeners == w.listeners
  {
    StatusWriteKeepsRest(env, w, r, calls);
    var a := EnsurePorts(w.ledger, Key(r), r.status.allocatedPorts, r.spec.ports);
    if ValidSpec(r.spec) && a.ok {
      PublicationOutside(env, w.(ledger := a.ledger), r.(status := r.status.(allocatedPorts := a.held)), calls);
    }
  }

  lemma PublicationOutside(env: Env, w: World, r: Record, calls: Calls)
    ensures var w' := PublishSteps(env, w, r, calls).world;
      if EnsureService(w.services, r, calls).1 == Done && EnsureSlice(w.slices, r, w.gatewayIP, calls).1 == Done then
        && w'.api == Apply(env, w.api, GatewayIdempotence.Listeners(w, r, calls)).0
        && w'.listeners == w.listeners[Key(r) := GatewayIdempotence.Listeners(w, r, calls)]
      else w'.api == w.api && w'.listeners == w.listeners
  {
  }

  /** The listeners of a turn that publishes: one for each wanted port and no other. */
  lemma PublishedNames(w: World, r: Record, calls: Calls, f: string)
    requires CleanName(r) && DistinctPorts(r.spec.ports) && Publishes(w, r, calls)
    ensures f in HAProxySafety.FrontendNames(ConfigsOf(w, r, calls))
        <==> exists n :: Wants(r, n) && f == FrontendOf(Key(r), n)
  {
    var held, configs := HeldAfter(w, r), ConfigsOf(w, r, calls);
    EnsuredPortsMatch(w.ledger, Key(r), r.status.allocatedPorts, r.spec.ports);
    if c :| c in configs && FrontendName(c) == f {
      var i :| 0 <= i < |configs| && configs[i] == c;
      HeldAreWanted(held, r, i);
      assert f == FrontendOf(Key(r), held[i].servicePort);
    }
    if n :| Wants(r, n) && f == FrontendOf(Key(r), n) {
      var i := WantedIsHeld(held, r, n);
      assert configs[i] in configs && FrontendName(configs[i]) == f;
    }
  }

  lemma HeldAreWanted(held: seq<AllocatedPort>, r: Record, i: nat)
    requires Matches(held, r.spec.ports) && DistinctPorts(r.spec.ports) && ValidSpec(r.spec) && i < |held|
    ensures Wants(r, held[i].servicePort)
  {
    MatchesIsPermutation(held, r.spec.ports);
    assert IsForSome(held[i], r.spec.ports);
    var m :| 0 <= m < |r.spec.ports| && Allocates(held[i], r.spec.ports[m]);
    assert r.spec.ports[m] in r.spec.ports && ValidPort(r.spec.ports[m]);
  }

  lemma WantedIsHeld(held: seq<AllocatedPort>, r: Record, n: int) returns (i: nat)
    requires Matches(held, r.spec.ports) && Wants(r, n)
    ensures i < |held| && held[i].servicePort == n
  {
    var p :| p in r.spec.ports && p.port == n;
    var m :| 0 <= m < |r.spec.ports| && r.spec.ports[m] == p;
    assert FoundIn(r.spec.ports[m], held);
    i :| 0 <= i < |held| && Allocates(held[i], r.spec.ports[m]);
  }

  /** They are on ports the service owns then. */
  lemma PublishedPorts(w: World, leaked: set<(string, int)>, r: Record, calls: Calls, c: Listener)
    requires Accounted(w, leaked) && Key(r) in w.stored && w.stored[Key(r)] == r && FINALIZER in r.finalizers
    requires Publishes(w, r, calls) && c in ConfigsOf(w, r, calls)
    ensures Owns(LedgerAfter(w, r), Key(r), c.port)
  {
    var held, configs := HeldAfter(w, r), ConfigsOf(w, r, calls);
    var i :| 0 <= i < |configs| && configs[i] == c;
    assert GatewayPorts(held)[i] == c.port && c.port in GatewayPorts(held);
    HeldAfterOwned(w, leaked, r, c.port);
  }

  lemma HeldAfterOwned(w: World, leaked: set<(string, int)>, r: Record, p: int)
    requires Accounted(w, leaked) && Key(r) in w.stored && w.stored[Key(r)] == r && FINALIZER in r.finalizers
    requires ValidSpec(r.spec) && EnsurePorts(w.ledger, Key(r), r.status.allocatedPorts, r.spec.ports).ok
    requires p in GatewayPorts(HeldAfter(w, r))
    ensures Owns(LedgerAfter(w, r), Key(r), p)
  {
    EnsurePortsOwners(w.ledger, Key(r), r.status.allocatedPorts, r.spec.ports);
    EnsuredPortsMatch(w.ledger, Key(r), r.status.allocatedPorts, r.spec.ports);
    assert p in HeldBy(w.stored, Key(r)) ==> Owns(w.ledger, Key(r), p);
  }

  lemma OthersOwn(w: World, r: Record, k: string, p: int)
    requires PortAlloc.Consistent(w.ledger) && k != Key(r)
    ensures Owns(LedgerAfter(w, r), k, p) <==> Owns(w.ledger, k, p)
  {
    EnsurePortsOwners(w.ledger, Key(r), r.status.allocatedPorts, r.spec.ports);
  }

  /** Among the n lowest free ports are exactly those with fewer than n free ones below. */
  lemma LowestAreBelow(free: set<int>, ps: seq<int>, n: nat, p: int)
    requires PortAlloc.LowestOf(free, ps, n) && p in free
    ensures p in ps <==> |Below(free, p)| < n
  {
    var taken := set q | q in ps;
    AscendingIsDistinct(ps);
    AsManyAsListed(ps);
    if p in ps {
      assert Below(free, p) <= taken - {p};
      SubsetSize(Below(free, p), taken - {p});
    } else {
      assert taken <= Below(free, p);
      SubsetSize(taken, Below(free, p));
    }
  }

  lemma {:induction false} AsManyAsListed(ps: seq<int>)
    requires PortAlloc.Distinct(ps)
    ensures |set q | q in ps| == |ps|
  {
    if ps == [] {
    } else {
      var init, last := ps[..|ps| - 1], ps[|ps| - 1];
      AsManyAsListed(init);
      assert ps == init + [last];
      assert (set q | q in ps) == (set q | q in init) + {last};
    }
  }

  /** The service's port is no longer its own after the turn exactly if the turn gives it up. */
  lemma GivenUpExactly(w: World, r: Record, p: int)
    requires PortAlloc.Consistent(w.ledger) && Owns(w.ledger, Key(r), p)
    ensures Owns(LedgerAfter(w, r), Key(r), p) <==> !GivesUp(w, r, p)
  {
    var held, ports, key := r.status.allocatedPorts, r.spec.ports, Key(r);
    EnsurePortsOwners(w.ledger, key, held, ports);
    if ValidSpec(r.spec) && !Matches(held, ports) && p in GatewayPorts(held) {
      var l1 := PortAlloc.ReleasedMany(w.ledger, key, GatewayPorts(held));
      ReleasedManyOwners(w.ledger, key, GatewayPorts(held));
      ReleasedIsFree(w.ledger, l1, key, p);
      PortAlloc.ClaimEachTakesLowest(l1, key, |ports|);
      if PortAlloc.ClaimEach(l1, key, |ports|).Some? {
        var ps := PortAlloc.ClaimEach(l1, key, |ports|).value;
        LowestAreBelow(PortAlloc.FreePorts(l1), ps, |ports|, p);
        assert GatewayPorts(Assignments(ports, ps)) == ps;
      }
    }
  }

  lemma ReleasedIsFree(l: PortAlloc.Ledger, l1: PortAlloc.Ledger, key: string, p: int)
    requires PortAlloc.Consistent(l) && Owns(l, key, p) && l1.lo == l.lo && l1.hi == l.hi && !Owns(l1, key, p)
    requires forall k, q :: Owns(l1, k, q) ==> Owns(l, k, q)
    ensures p in PortAlloc.FreePorts(l1)
  {
    assert p in l1.owner ==> Owns(l1, l1.owner[p], p);
  }

  /** So of a current frontend: it stays bound to the service's ports exactly if none of its ports is given up. */
  lemma BoundAfterExactly(w: World, r: Record, f: string)
    requires PortAlloc.Consistent(w.ledger) && f in w.api.committed.frontends && BoundTo(w, f, Key(r))
    ensures BoundTo(w.(ledger := LedgerAfter(w, r)), f, Key(r))
      <==> forall b :: b in w.api.committed.frontends[f].binds ==> !GivesUp(w, r, w.api.committed.frontends[f].binds[b])
  {
    var binds := w.api.committed.frontends[f].binds;
    forall b | b in binds ensures Owns(LedgerAfter(w, r), Key(r), binds[b]) <==> !GivesUp(w, r, binds[b]) {
      GivenUpExactly(w, r, binds[b]);
    }
  }

  /** A turn leaves every record's name, spec and finalizers as they are. */
  predicate SameServices(w: World, w': World) {
    && w'.stored.Keys == w.stored.Keys
    && forall k :: k in w.stored ==>
         && w'.stored[k].namespace == w.stored[k].namespace && w'.stored[k].name == w.stored[k].name
         && w'.stored[k].spec == w.stored[k].spec && w'.stored[k].finalizers == w.stored[k].finalizers
  }

  lemma TurnKeepsServices(env: Env, w: World, r: Record, calls: Calls)
    requires Key(r) in w.stored && w.stored[Key(r)] == r
    ensures var w' := ReconcileRecord(env, w, r, calls).world; SameServices(w, w') && w'.ledger == LedgerAfter(w, r)
  {
    ReconcileRecordStores(env, w, r, calls);
    StepsHoldMatchingPorts(env, w, r, calls);
  }

  /** A frontend the turn rebinds is current afterwards. */
  lemma ReachedIsCurrent(env: Env, w: World, leaked: set<(string, int)>, r: Record, calls: Calls, f: string)
    requires Lawful(env) && Orderly(w, leaked) && Key(r) in w.stored && w.stored[Key(r)] == r
    requires FINALIZER in r.finalizers
    requires f in Reached(env, w, r, calls)
    ensures exists n :: CurrentFor(ReconcileRecord(env, w, r, calls).world, f, Key(r), n)
  {
    var w', configs := ReconcileRecord(env, w, r, calls).world, ConfigsOf(w, r, calls);
    TurnOutside(env, w, r, calls);
    TurnKeepsServices(env, w, r, calls);
    HAProxySafety.ApplyRebinds(env, w.api, configs, f);
    HAProxySafety.AppliedAreNamed(env, w.api, configs);
    PublishedNames(w, r, calls, f);
    var n :| Wants(r, n) && f == FrontendOf(Key(r), n);
    ReboundIsOwned(w, leaked, r, calls, w', f);
    assert CurrentFor(w', f, Key(r), n);
  }

  lemma ReboundIsOwned(w: World, leaked: set<(string, int)>, r: Record, calls: Calls, w': World, f: string)
    requires Accounted(w, leaked) && Managed(w.api.committed) && Publishes(w, r, calls)
    requires Key(r) in w.stored && w.stored[Key(r)] == r && FINALIZER in r.finalizers
    requires HAProxySafety.Rebound(w.api.committed, w'.api.committed, ConfigsOf(w, r, calls), f)
    requires w'.ledger == LedgerAfter(w, r)
    ensures BoundTo(w', f, Key(r))
  {
    var cfg, cfg' := w.api.committed, w'.api.committed;
    var c :| c in ConfigsOf(w, r, calls) && FrontendName(c) == f && f in cfg'.frontends
             && cfg'.frontends[f].binds == HAProxySafety.BindsOf(cfg, f)[BIND := c.port];
    PublishedPorts(w, leaked, r, calls, c);
    assert forall b :: b in cfg'.frontends[f].binds ==> b == BIND && cfg'.frontends[f].binds[b] == c.port;
  }

  /** One it does not reach stays as it was, and current if its port was not given away. */
  lemma UnreachedStays(env: Env, w: World, r: Record, calls: Calls, f: string)
    requires Lawful(env) && f !in Reached(env, w, r, calls)
    ensures HAProxySafety.SameFrontend(w.api.committed, ReconcileRecord(env, w, r, calls).world.api.committed, f)
  {
    TurnOutside(env, w, r, calls);
    if Publishes(w, r, calls) {
      HAProxySafety.ApplyRebinds(env, w.api, ConfigsOf(w, r, calls), f);
    }
  }

  lemma UnreachedIsCurrent(env: Env, w: World, leaked: set<(string, int)>, r: Record, calls: Calls, f: string,
                           k: string, n: int)
    requires Lawful(env) && Orderly(w, leaked) && Key(r) in w.stored && w.stored[Key(r)] == r
    requires FINALIZER in r.finalizers
    requires f !in Reached(env, w, r, calls) && f in w.api.committed.frontends && CurrentFor(w, f, k, n)
    requires k == Key(r) ==> BoundTo(w.(ledger := LedgerAfter(w, r)), f, k)
    ensures CurrentFor(ReconcileRecord(env, w, r, calls).world, f, k, n)
  {
    var w' := ReconcileRecord(env, w, r, calls).world;
    TurnOutside(env, w, r, calls);
    TurnKeepsServices(env, w, r, calls);
    UnreachedStays(env, w, r, calls, f);
    if Publishes(w, r, calls) && k == Key(r) {
      PublishedNames(w, r, calls, f);
    }
    if k != Key(r) {
      forall b | b in w.api.committed.frontends[f].binds
        ensures Owns(w'.ledger, k, w.api.committed.frontends[f].binds[b])
      {
        OthersOwn(w, r, k, w.api.committed.frontends[f].binds[b]);
      }
    }
  }

  /** For every pattern of failing calls and writes: after a turn every frontend is current exactly if the turn strands
      none of the service's own. */
  lemma TurnKeepsCurrentExactly(env: Env, w: World, leaked: set<(string, int)>, r: Record, calls: Calls)
    requires Lawful(env) && Orderly(w, leaked) && AllCurrent(w)
    requires Key(r) in w.stored && w.stored[Key(r)] == r && FINALIZER in r.finalizers
    ensures AllCurrent(ReconcileRecord(env, w, r, calls).world) <==> !Strands(env, w, r, calls)
  {
    var w' := ReconcileRecord(env, w, r, calls).world;
    if !Strands(env, w, r, calls) {
      forall f | f in w'.api.committed.frontends ensures exists k, n :: CurrentFor(w', f, k, n) {
        if f in Reached(env, w, r, calls) {
          ReachedIsCurrent(env, w, leaked, r, calls, f);
        } else {
          NotStrandedIsCurrent(env, w, leaked, r, calls, f);
        }
      }
    } else {
      var f, n, b :| StrandedAt(env, w, r, calls, f, n, b);
      StrandedIsNotCurrent(env, w, leaked, r, calls, f, n, b);
    }
  }

  lemma NotStrandedIsCurrent(env: Env, w: World, leaked: set<(string, int)>, r: Record, calls: Calls, f: string)
    requires Lawful(env) && Orderly(w, leaked) && AllCurrent(w) && !Strands(env, w, r, calls)
    requires Key(r) in w.stored && w.stored[Key(r)] == r && FINALIZER in r.finalizers
    requires f in ReconcileRecord(env, w, r, calls).world.api.committed.frontends && f !in Reached(env, w, r, calls)
    ensures exists k, n :: CurrentFor(ReconcileRecord(env, w, r, calls).world, f, k, n)
  {
    UnreachedStays(env, w, r, calls, f);
    var k, n :| CurrentFor(w, f, k, n);
    if k == Key(r) {
      forall b | b in w.api.committed.frontends[f].binds
        ensures !GivesUp(w, r, w.api.committed.frontends[f].binds[b])
      {
        assert !StrandedAt(env, w, r, calls, f, n, b);
      }
      BoundAfterExactly(w, r, f);
    }
    UnreachedIsCurrent(env, w, leaked, r, calls, f, k, n);
  }

  lemma StrandedIsNotCurrent(env: Env, w: World, leaked: set<(string, int)>, r: Record, calls: Calls, f: string, n: int,
                             b: string)
    requires Lawful(env) && Orderly(w, leaked) && AllCurrent(w) && StrandedAt(env, w, r, calls, f, n, b)
    requires Key(r) in w.stored && w.stored[Key(r)] == r && FINALIZER in r.finalizers
    ensures !AllCurrent(ReconcileRecord(env, w, r, calls).world)
  {
    var w' := ReconcileRecord(env, w, r, calls).world;
    var k, m :| CurrentFor(w, f, k, m);
    FrontendsApart(w, Key(r), n, k, m);
    BoundAfterExactly(w, r, f);
    UnreachedStays(env, w, r, calls, f);
    TurnKeepsServices(env, w, r, calls);
    NotCurrentForAny(w, w', Key(r), n, f);
  }

  /** A frontend with the name of one service is current for no other. */
  lemma NotCurrentForAny(w: World, w': World, key: string, n: int, f: string)
    requires RecordsKept(w) && NamesApart(w) && SameServices(w, w')
    requires key in w.stored && n >= 1 && f == FrontendOf(key, n) && !BoundTo(w', f, key)
    ensures forall k, m :: !CurrentFor(w', f, k, m)
  {
    forall k, m | k in w'.stored && m >= 1 && f == FrontendOf(k, m) ensures k == key {
      FrontendsApart(w, key, n, k, m);
    }
  }

  // ---- deletion ----

  function Erased(env: Env, w: World, key: string): set<string> {
    if key in w.listeners then HAProxySafety.RemovedNames(env, w.api, w.listeners[key]) else {}
  }

  /** A frontend of the service that the removal does not delete although the service or its list goes. */
  ghost predicate RemovalLeaves(env: Env, w: World, r: Record, calls: Calls) {
    && (Written(calls.finalizerWrite) || RemoveOwner(env, w.api, w.listeners, Key(r)).ok)
    && exists f, n :: f in w.api.committed.frontends && n >= 1 && f == FrontendOf(Key(r), n)
                      && f !in Erased(env, w, Key(r))
  }

  lemma FinalizeOutside(env: Env, w: World, r: Record, calls: Calls)
    requires FINALIZER in r.finalizers
    ensures var w' := Finalize(env, w, r, calls);
      && w'.api.committed.frontends == w.api.committed.frontends - Erased(env, w, Key(r))
      && (forall k :: k != Key(r) ==> (k in w'.listeners <==> k in w.listeners))
      && (forall k :: k in w'.listeners ==> k in w.listeners && w'.listeners[k] == w.listeners[k])
      && (Key(r) in w'.listeners ==> !RemoveOwner(env, w.api, w.listeners, Key(r)).ok)
      && (Key(r) in w.listeners && !RemoveOwner(env, w.api, w.listeners, Key(r)).ok ==> Key(r) in w'.listeners)
  {
    if Key(r) in w.listeners { HAProxySafety.RemoveErases(env, w.api, w.listeners[Key(r)]); }
  }

  lemma FinalizeStored(env: Env, w: World, r: Record, calls: Calls)
    requires Key(r) in w.stored && w.stored[Key(r)] == r && FINALIZER in r.finalizers
    ensures var stored := Finalize(env, w, r, calls).stored;
      && (forall k :: k != Key(r) ==> (k in stored <==> k in w.stored) && (k in stored ==> stored[k] == w.stored[k]))
      && (Key(r) in stored ==> stored[Key(r)].(finalizers := r.finalizers) == r)
      && (Key(r) in stored && FINALIZER in stored[Key(r)].finalizers <==> !Written(calls.finalizerWrite))
      && (!Written(calls.finalizerWrite) ==> stored == w.stored)
  {
    RemoveStringRemoves(r.finalizers, FINALIZER);
  }

  lemma OtherStaysCurrent(env: Env, w: World, r: Record, calls: Calls, f: string, k: string, n: int)
    requires PortAlloc.Consistent(w.ledger) && Key(r) in w.stored && w.stored[Key(r)] == r && FINALIZER in r.finalizers
    requires CurrentFor(w, f, k, n) && f in Finalize(env, w, r, calls).api.committed.frontends
    requires k != Key(r) || (!Written(calls.finalizerWrite) && r.status.allocatedPorts == []
                             && !RemoveOwner(env, w.api, w.listeners, k).ok)
    ensures CurrentFor(Finalize(env, w, r, calls), f, k, n)
  {
    FinalizeOutside(env, w, r, calls);
    FinalizeStored(env, w, r, calls);
    ReleasedManyOwners(w.ledger, Key(r), GatewayPorts(r.status.allocatedPorts));
    var w' := Finalize(env, w, r, calls);
    assert w'.api.committed.frontends[f] == w.api.committed.frontends[f];
  }

  /** For every pattern of failing calls: after a finalization every frontend is current exactly if the removal left
      none of the service's own behind. */
  lemma FinalizeKeepsCurrentExactly(env: Env, w: World, leaked: set<(string, int)>, r: Record, calls: Calls)
    requires Orderly(w, leaked) && AllCurrent(w)
    requires Key(r) in w.stored && w.stored[Key(r)] == r && FINALIZER in r.finalizers
    requires Written(calls.finalizerWrite) || r.status.allocatedPorts == []
    ensures AllCurrent(Finalize(env, w, r, calls)) <==> !RemovalLeaves(env, w, r, calls)
  {
    var w' := Finalize(env, w, r, calls);
    FinalizeOutside(env, w, r, calls);
    if !RemovalLeaves(env, w, r, calls) {
      forall f | f in w'.api.committed.frontends ensures exists k, n :: CurrentFor(w', f, k, n) {
        var k, n :| CurrentFor(w, f, k, n);
        UnremovedStaysCurrent(env, w, r, calls, f, k, n);
      }
    } else {
      var f, n := LeftBehind(env, w, r, calls);
      LeftIsNotCurrent(env, w, leaked, r, calls, f, n);
    }
  }

  lemma UnremovedStaysCurrent(env: Env, w: World, r: Record, calls: Calls, f: string, k: string, n: int)
    requires PortAlloc.Consistent(w.ledger) && Key(r) in w.stored && w.stored[Key(r)] == r && FINALIZER in r.finalizers
    requires !RemovalLeaves(env, w, r, calls) && (Written(calls.finalizerWrite) || r.status.allocatedPorts == [])
    requires CurrentFor(w, f, k, n) && f in Finalize(env, w, r, calls).api.committed.frontends
    ensures CurrentFor(Finalize(env, w, r, calls), f, k, n)
  {
    FinalizeOutside(env, w, r, calls);
    if k == Key(r) {
      assert f in w.api.committed.frontends && n >= 1 && f == FrontendOf(Key(r), n) && f !in Erased(env, w, Key(r));
    }
    OtherStaysCurrent(env, w, r, calls, f, k, n);
  }

  lemma LeftBehind(env: Env, w: World, r: Record, calls: Calls) returns (f: string, n: int)
    requires FINALIZER in r.finalizers && RemovalLeaves(env, w, r, calls)
    ensures n >= 1 && f == FrontendOf(Key(r), n) && f in Finalize(env, w, r, calls).api.committed.frontends
  {
    FinalizeOutside(env, w, r, calls);
    f, n :| f in w.api.committed.frontends && n >= 1 && f == FrontendOf(Key(r), n) && f !in Erased(env, w, Key(r));
  }

  lemma LeftIsNotCurrent(env: Env, w: World, leaked: set<(string, int)>, r: Record, calls: Calls, f: string, n: int)
    requires Orderly(w, leaked) && Key(r) in w.stored && w.stored[Key(r)] == r && FINALIZER in r.finalizers
    requires n >= 1 && f == FrontendOf(Key(r), n)
    requires Written(calls.finalizerWrite) || RemoveOwner(env, w.api, w.listeners, Key(r)).ok
    ensures forall k, m :: !CurrentFor(Finalize(env, w, r, calls), f, k, m)
  {
    var w' := Finalize(env, w, r, calls);
    FinalizeOutside(env, w, r, calls);
    FinalizeStored(env, w, r, calls);
    forall k, m | k in w'.stored && m >= 1 && f == FrontendOf(k, m) ensures k == Key(r) {
      FrontendsApart(w, Key(r), n, k, m);
    }
  }

  // ---- edits and the rest ----

  /** A committed frontend of the service for a port that the edit drops. */
  ghost predicate DropsListener(w: World, key: string, spec: Spec) {
    key in w.stored
    && exists n :: Wants(w.stored[key], n) && !Wants(w.stored[key].(spec := spec), n)
                   && FrontendOf(key, n) in w.api.committed.frontends
  }

  lemma EditKeepsCurrentExactly(env: Env, w: World, leaked: set<(string, int)>, key: string, spec: Spec)
    requires Orderly(w, leaked) && AllCurrent(w)
    ensures AllCurrent(StepEvent(env, w, SpecEdited(key, spec))) <==> !DropsListener(w, key, spec)
  {
    var w' := StepEvent(env, w, SpecEdited(key, spec));
    EditOutside(env, w, key, spec);
    if !DropsListener(w, key, spec) {
      forall f | f in w'.api.committed.frontends ensures exists k, n :: CurrentFor(w', f, k, n) {
        var k, n :| CurrentFor(w, f, k, n);
        EditKeepsOne(w, w', key, spec, f, k, n);
      }
    } else {
      var n :| Wants(w.stored[key], n) && !Wants(w.stored[key].(spec := spec), n)
        && FrontendOf(key, n) in w.api.committed.frontends;
      DroppedIsNotCurrent(w, w', key, spec, n);
    }
  }

  predicate Edited(w: World, w': World, key: string, spec: Spec) {
    && w' == w.(stored := w'.stored) && w'.stored.Keys == w.stored.Keys
    && (forall k :: k in w.stored && k != key ==> w'.stored[k] == w.stored[k])
    && (key in w.stored ==> w'.stored[key] == w.stored[key].(spec := spec, generation := w'.stored[key].generation))
  }

  lemma EditOutside(env: Env, w: World, key: string, spec: Spec)
    ensures Edited(w, StepEvent(env, w, SpecEdited(key, spec)), key, spec)
  {
  }

  lemma EditKeepsOne(w: World, w': World, key: string, spec: Spec, f: string, k: string, n: int)
    requires Edited(w, w', key, spec) && !DropsListener(w, key, spec)
    requires f in w.api.committed.frontends && CurrentFor(w, f, k, n)
    ensures CurrentFor(w', f, k, n)
  {
    if k == key {
      assert FrontendOf(key, n) in w.api.committed.frontends;
      assert Wants(w.stored[key].(spec := spec), n);
    }
  }

  lemma DroppedIsNotCurrent(w: World, w': World, key: string, spec: Spec, n: int)
    requires RecordsKept(w) && NamesApart(w) && Edited(w, w', key, spec) && key in w.stored
    requires Wants(w.stored[key], n) && !Wants(w.stored[key].(spec := spec), n)
    ensures forall k, m :: !CurrentFor(w', FrontendOf(key, n), k, m)
  {
    forall k, m | k in w'.stored && m >= 1 && FrontendOf(key, n) == FrontendOf(k, m) ensures k == key && m == n {
      FrontendsApart(w, key, n, k, m);
    }
  }

  /** A service that is still there as it was keeps its frontends current. */
  lemma StillCurrent(w: World, w': World, f: string, k: string, n: int)
    requires CurrentFor(w, f, k, n) && w'.api == w.api && w'.ledger == w.ledger && w'.listeners == w.listeners
    requires k in w'.stored && w'.stored[k].spec == w.stored[k].spec && FINALIZER in w'.stored[k].finalizers
    ensures CurrentFor(w', f, k, n)
  {
  }

  lemma FinalizerOutside(w: World, key: string, calls: Calls)
    requires key in w.stored
    ensures var w1 := FinalizerAdded(w, key, calls);
      && w1 == w.(stored := w1.stored) && w1.stored.Keys == w.stored.Keys
      && forall k :: k in w.stored ==> w1.stored[k].spec == w.stored[k].spec
                                       && (FINALIZER in w.stored[k].finalizers ==> FINALIZER in w1.stored[k].finalizers)
  {
  }

  /** Creation, the request for deletion and the finalizer's addition never make a frontend stale. */
  lemma FinalizerKeepsCurrent(w: World, leaked: set<(string, int)>, key: string, calls: Calls)
    requires Orderly(w, leaked) && AllCurrent(w)
    requires key in w.stored && !w.stored[key].deleting && FINALIZER !in w.stored[key].finalizers
    ensures Orderly(FinalizerAdded(w, key, calls), leaked) && AllCurrent(FinalizerAdded(w, key, calls))
  {
    FinalizerKeepsOrder(w, leaked, key, calls);
    FinalizerKeepsAll(w, key, calls);
  }

  lemma FinalizerKeepsAll(w: World, key: string, calls: Calls)
    requires AllCurrent(w) && key in w.stored
    ensures AllCurrent(FinalizerAdded(w, key, calls))
  {
    var w1 := FinalizerAdded(w, key, calls);
    FinalizerOutside(w, key, calls);
    forall f | f in w1.api.committed.frontends ensures exists k, n :: CurrentFor(w1, f, k, n) {
      var k, n :| CurrentFor(w, f, k, n);
      StillCurrent(w, w1, f, k, n);
    }
  }

  lemma FinalizerKeepsOrder(w: World, leaked: set<(string, int)>, key: string, calls: Calls)
    requires Orderly(w, leaked) && key in w.stored && !w.stored[key].deleting && FINALIZER !in w.stored[key].finalizers
    ensures Orderly(FinalizerAdded(w, key, calls), leaked)
  {
    FinalizerKeepsRecords(w, key, calls);
    OneHolder(w, leaked, key, WithFinalizer(w.stored[key]));
  }

  /** What events other than turns and edits leave of a service that is there. */
  lemma UserEventStores(env: Env, w: World, e: Event, k: string)
    requires e.Created? || e.DeletionRequested? || e.PodSeen? || e.PodGone?
    ensures var w' := StepEvent(env, w, e); w' == w.(stored := w'.stored, pods := w'.pods)
    ensures k in w.stored && FINALIZER in w.stored[k].finalizers ==>
      var w' := StepEvent(env, w, e);
      k in w'.stored && w'.stored[k].spec == w.stored[k].spec && w'.stored[k].finalizers == w.stored[k].finalizers
  {
  }

  lemma CreationKeepsCurrent(env: Env, w: World, e: Event)
    requires AllCurrent(w) && (e.Created? || e.DeletionRequested? || e.PodSeen? || e.PodGone?)
    ensures AllCurrent(StepEvent(env, w, e))
  {
    var w' := StepEvent(env, w, e);
    UserEventStores(env, w, e, "");
    forall f | f in w'.api.committed.frontends ensures exists k, n :: CurrentFor(w', f, k, n) {
      var k, n :| CurrentFor(w, f, k, n);
      UserEventStores(env, w, e, k);
      StillCurrent(w, w', f, k, n);
    }
  }

  /** A turn that keeps its ports, or has none recorded, gives none up. */
  lemma NothingToStrand(env: Env, w: World, r: Record, calls: Calls)
    requires !ValidSpec(r.spec) || r.status.allocatedPorts == [] || Matches(r.status.allocatedPorts, r.spec.ports)
    ensures !Strands(env, w, r, calls)
  {
    assert r.status.allocatedPorts == [] ==> GatewayPorts(r.status.allocatedPorts) == [];
    forall p ensures !GivesUp(w, r, p) {}
  }

  // ---- events ----

  ghost predicate TurnKeepsCurrent(env: Env, w: World, key: string, calls: Calls) {
    key in w.stored && FINALIZER in w.stored[key].finalizers ==>
      if w.stored[key].deleting then !RemovalLeaves(env, w, w.stored[key], calls)
      else !Strands(env, w, w.stored[key], calls)
  }

  /** When an event keeps every frontend current. */
  ghost predicate KeepsCurrent(env: Env, w: World, e: Event) {
    match e
    case SpecEdited(key, spec) => !DropsListener(w, key, spec)
    case KeyTaken(key, calls) => TurnKeepsCurrent(env, w, key, calls)
    case _ => true
  }

  /** From a world in order, an event leaves every committed frontend current exactly when KeepsCurrent holds before it:
      no committed listener's port is dropped, none is stranded, none is left behind. */
  lemma StepKeepsCurrentExactly(env: Env, w: World, leaked: set<(string, int)>, e: Event)
    requires Lawful(env) && Orderly(w, leaked) && AllCurrent(w) && KeepsAccount(w, e)
    ensures AllCurrent(StepEvent(env, w, e)) <==> KeepsCurrent(env, w, e)
  {
    match e
    case SpecEdited(key, spec) => EditKeepsCurrentExactly(env, w, leaked, key, spec);
    case KeyTaken(key, calls) => if key in w.stored { KeyKeepsCurrentExactly(env, w, leaked, key, calls); }
    case _ => CreationKeepsCurrent(env, w, e);
  }

  lemma KeyKeepsCurrentExactly(env: Env, w: World, leaked: set<(string, int)>, key: string, calls: Calls)
    requires Lawful(env) && Orderly(w, leaked) && AllCurrent(w) && KeepsAccount(w, KeyTaken(key, calls))
    requires key in w.stored
    ensures AllCurrent(ReconcileKey(env, w, key, calls).world) <==> TurnKeepsCurrent(env, w, key, calls)
  {
    if FINALIZER in w.stored[key].finalizers {
      FinalizedKeyKeepsCurrent(env, w, leaked, key, calls);
    } else if w.stored[key].deleting {
      UnfinalizedKeyStays(env, w, key, calls);
    } else {
      FinalizerTurnKeepsCurrent(env, w, leaked, key, calls);
    }
  }

  lemma UnfinalizedKeyStays(env: Env, w: World, key: string, calls: Calls)
    requires key in w.stored && FINALIZER !in w.stored[key].finalizers && w.stored[key].deleting
    ensures ReconcileKey(env, w, key, calls).world == w
  {
  }

  lemma FinalizedKeyKeepsCurrent(env: Env, w: World, leaked: set<(string, int)>, key: string, calls: Calls)
    requires Lawful(env) && Orderly(w, leaked) && AllCurrent(w) && KeepsAccount(w, KeyTaken(key, calls))
    requires key in w.stored && FINALIZER in w.stored[key].finalizers
    ensures AllCurrent(ReconcileKey(env, w, key, calls).world)
      <==> !(if w.stored[key].deleting then RemovalLeaves(env, w, w.stored[key], calls)
             else Strands(env, w, w.stored[key], calls))
  {
    var r := w.stored[key];
    assert Key(r) == key;
    if r.deleting {
      FinalizeKeepsCurrentExactly(env, w, leaked, r, calls);
    } else {
      TurnKeepsCurrentExactly(env, w, leaked, r, calls);
    }
  }

  lemma FinalizerTurnKeepsCurrent(env: Env, w: World, leaked: set<(string, int)>, key: string, calls: Calls)
    requires Lawful(env) && Orderly(w, leaked) && AllCurrent(w)
    requires key in w.stored && !w.stored[key].deleting && FINALIZER !in w.stored[key].finalizers
    ensures AllCurrent(ReconcileKey(env, w, key, calls).world)
  {
    var w1, r1 := FinalizerAdded(w, key, calls), WithFinalizer(w.stored[key]);
    FinalizerKeepsCurrent(w, leaked, key, calls);
    FinalizerKeepsRecords(w, key, calls);
    if calls.finalizerWrite == Landed {
      TurnKeepsCurrentExactly(env, w1, leaked, r1, Stale(calls));
      NothingToStrand(env, w1, r1, Stale(calls));
    }
  }

  /** Names stay apart: who joins clashes with nobody, and specs have distinct ports. */
  ghost predicate Joins(w: World, e: Event) {
    && (e.Created? && Key(e.r) !in w.stored ==> MayJoin(w, e.r))
    && (e.SpecEdited? ==> DistinctPorts(e.spec.ports))
  }

  lemma PublishedStayNamed(w: World, r: Record, calls: Calls)
    requires ListsNamed(w.listeners) && CleanName(r) && DistinctPorts(r.spec.ports) && Publishes(w, r, calls)
    ensures ListsNamed(w.listeners[Key(r) := ConfigsOf(w, r, calls)])
  {
    forall f | f in HAProxySafety.FrontendNames(ConfigsOf(w, r, calls))
      ensures exists n :: n >= 1 && f == FrontendOf(Key(r), n)
    {
      PublishedNames(w, r, calls, f);
      var n :| Wants(r, n) && f == FrontendOf(Key(r), n);
    }
  }

  lemma TurnKeepsOrder(env: Env, w: World, leaked: set<(string, int)>, r: Record, calls: Calls)
    requires Lawful(env) && Orderly(w, leaked) && Key(r) in w.stored && w.stored[Key(r)] == r
    requires FINALIZER in r.finalizers
    ensures var w' := ReconcileRecord(env, w, r, calls).world;
      RecordsKept(w') && Managed(w'.api.committed) && NamesApart(w') && ListsNamed(w'.listeners)
  {
    TurnKeepsRecords(env, w, r, calls);
    ReconcileStaysManaged(env, w, r, calls);
    TurnKeepsServices(env, w, r, calls);
    TurnOutside(env, w, r, calls);
    SameServicesApart(w, ReconcileRecord(env, w, r, calls).world);
    if Publishes(w, r, calls) {
      PublishedStayNamed(w, r, calls);
    }
  }

  lemma SameServicesApart(w: World, w': World)
    requires NamesApart(w) && SameServices(w, w')
    ensures NamesApart(w')
  {
  }

  lemma FinalizeKeepsOrder(env: Env, w: World, leaked: set<(string, int)>, r: Record, calls: Calls)
    requires Orderly(w, leaked) && Key(r) in w.stored && w.stored[Key(r)] == r && FINALIZER in r.finalizers
    requires r.deleting
    ensures var w' := Finalize(env, w, r, calls);
      RecordsKept(w') && Managed(w'.api.committed) && NamesApart(w') && ListsNamed(w'.listeners)
  {
    FinalizeKeepsRecords(env, w, r, calls);
    FinalizeStaysManaged(env, w, r, calls);
    FinalizeOutside(env, w, r, calls);
    FinalizeStored(env, w, r, calls);
  }

  lemma KeyKeepsOrder(env: Env, w: World, leaked: set<(string, int)>, key: string, calls: Calls)
    requires Lawful(env) && Orderly(w, leaked) && key in w.stored
    ensures var w' := ReconcileKey(env, w, key, calls).world;
      RecordsKept(w') && Managed(w'.api.committed) && NamesApart(w') && ListsNamed(w'.listeners)
  {
    var r := w.stored[key];
    assert Key(r) == key;
    if FINALIZER in r.finalizers {
      if r.deleting {
        FinalizeKeepsOrder(env, w, leaked, r, calls);
      } else {
        TurnKeepsOrder(env, w, leaked, r, calls);
      }
    } else if !r.deleting {
      FinalizerKeepsOrder(w, leaked, key, calls);
      FinalizerKeepsRecords(w, key, calls);
      if calls.finalizerWrite == Landed {
        TurnKeepsOrder(env, FinalizerAdded(w, key, calls), leaked, WithFinalizer(r), Stale(calls));
      }
    }
  }

  lemma CreatedKeepsApart(env: Env, w: World, r: Record)
    requires NamesApart(w) && Joins(w, Created(r))
    ensures NamesApart(StepEvent(env, w, Created(r)))
  {
    if Key(r) !in w.stored { OneMoreApart(w, Key(r), r); }
  }

  lemma EditKeepsApart(env: Env, w: World, key: string, spec: Spec)
    requires NamesApart(w) && DistinctPorts(spec.ports)
    ensures NamesApart(StepEvent(env, w, SpecEdited(key, spec)))
  {
    EditOutside(env, w, key, spec);
    EditedApart(w, StepEvent(env, w, SpecEdited(key, spec)), key, spec);
  }

  lemma EditedApart(w: World, w': World, key: string, spec: Spec)
    requires NamesApart(w) && Edited(w, w', key, spec) && DistinctPorts(spec.ports)
    ensures NamesApart(w')
  {
  }

  lemma DeletionKeepsApart(env: Env, w: World, key: string)
    requires NamesApart(w)
    ensures NamesApart(StepEvent(env, w, DeletionRequested(key)))
  {
    if key in w.stored { OneMoreApart(w, key, w.stored[key].(deleting := true)); }
  }

  lemma UserKeepsApart(env: Env, w: World, e: Event)
    requires NamesApart(w) && Joins(w, e) && !e.KeyTaken?
    ensures NamesApart(StepEvent(env, w, e))
  {
    match e
    case Created(r) => CreatedKeepsApart(env, w, r);
    case SpecEdited(key, spec) => EditKeepsApart(env, w, key, spec);
    case DeletionRequested(key) => DeletionKeepsApart(env, w, key);
    case _ =>
  }

  lemma OneMoreApart(w: World, key: string, r: Record)
    requires NamesApart(w) && CleanName(r) && DistinctPorts(r.spec.ports)
    requires forall k :: k in w.stored && Dashed(w.stored[k]) == Dashed(r) ==> k == key
    ensures NamesApart(w.(stored := w.stored[key := r]))
  {
  }

  /** Every event that keeps the account and lets nobody join under a clashing name keeps the rest in order. */
  lemma StepKeepsOrder(env: Env, w: World, leaked: set<(string, int)>, e: Event)
    requires Lawful(env) && Orderly(w, leaked) && KeepsAccount(w, e) && Joins(w, e)
    ensures Orderly(StepEvent(env, w, e), leaked + Leaks(w, e))
  {
    StepAccountsExactly(env, w, leaked, e);
    RecordsStayKept(env, w, e);
    if e.KeyTaken? {
      if e.key in w.stored { KeyKeepsOrder(env, w, leaked, e.key, e.calls); }
    } else {
      UserKeepsApart(env, w, e);
    }
  }

  // ---- runs ----

  ghost predicate RunKeepsCurrent(env: Env, w: World, events: seq<Event>)
    decreases |events|
  {
    events == [] ||
    (&& KeepsAccount(w, events[0]) && Joins(w, events[0]) && KeepsCurrent(env, w, events[0])
     && RunKeepsCurrent(env, StepEvent(env, w, events[0]), events[1..]))
  }

  /** Along such a run every committed frontend stays current, whatever else fails. */
  lemma {:induction false} RunStaysCurrent(env: Env, w: World, leaked: set<(string, int)>, events: seq<Event>)
    requires Lawful(env) && Orderly(w, leaked) && AllCurrent(w) && RunKeepsCurrent(env, w, events)
    ensures Orderly(RunEvents(env, w, events), leaked + RunLeaks(env, w, events))
    ensures AllCurrent(RunEvents(env, w, events))
    decreases |events|
  {
    if events == [] {
      assert leaked + {} == leaked;
    } else {
      var w', more := StepEvent(env, w, events[0]), Leaks(w, events[0]);
      StepKeepsCurrentExactly(env, w, leaked, events[0]);
      StepKeepsOrder(env, w, leaked, events[0]);
      RunStaysCurrent(env, w', leaked + more, events[1..]);
      assert leaked + more + RunLeaks(env, w', events[1..]) == leaked + (more + RunLeaks(env, w', events[1..]));
    }
  }

  /** When every committed frontend is current, no other listener is on the ports of a turn that publishes. */
  lemma CurrentMeansNoForeignRoute(w: World, leaked: set<(string, int)>, net: map<string, RunningPod>, r: Record,
                                   calls: Calls, sp: PortSpec, podKey: string, port: int)
    requires Orderly(w, leaked) && AllCurrent(w) && Key(r) in w.stored && w.stored[Key(r)] == r
    requires FINALIZER in r.finalizers
    requires Publishes(w, r, calls)
    ensures !ForeignRoute(w, net, HeldAfter(w, r), ConfigsOf(w, r, calls), sp, podKey, port)
  {
    var held, configs := HeldAfter(w, r), ConfigsOf(w, r, calls);
    forall j, s | 0 <= j < |held| ensures !ForeignServer(w.api.committed, configs, held[j].gatewayPort, s) {
      forall f | f in w.api.committed.frontends && f !in HAProxySafety.FrontendNames(configs)
        ensures !ListensOn(w.api.committed, f, held[j].gatewayPort)
      {
        NotOnHeldPort(w, leaked, r, calls, j, f);
      }
    }
  }

  lemma NotOnHeldPort(w: World, leaked: set<(string, int)>, r: Record, calls: Calls, j: nat, f: string)
    requires Orderly(w, leaked) && AllCurrent(w) && Key(r) in w.stored && w.stored[Key(r)] == r
    requires FINALIZER in r.finalizers
    requires Publishes(w, r, calls) && j < |HeldAfter(w, r)|
    requires f in w.api.committed.frontends && f !in HAProxySafety.FrontendNames(ConfigsOf(w, r, calls))
    ensures !ListensOn(w.api.committed, f, HeldAfter(w, r)[j].gatewayPort)
  {
    var p := HeldAfter(w, r)[j].gatewayPort;
    var k, n :| CurrentFor(w, f, k, n);
    PublishedNames(w, r, calls, f);
    assert k != Key(r);
    assert GatewayPorts(HeldAfter(w, r))[j] == p && p in GatewayPorts(HeldAfter(w, r));
    HeldAfterOwned(w, leaked, r, p);
    OthersOwn(w, r, k, p);
    assert !Owns(w.ledger, k, p);
  }

  /** A turn that reports success has published. */
  lemma SuccessPublishes(env: Env, w: World, r: Record, calls: Calls)
    requires RunSteps(env, w, r, calls).reason == Reconciled
    ensures Publishes(w, r, calls)
  {
  }
}
