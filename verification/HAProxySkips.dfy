/** Which of the calls that Configure makes decide whether a listener is skipped. */
module HAProxySkips {
  import opened Wrappers
  import opened HAProxy
  import opened HAProxySafety

  // ---- one step ----

  /** A backend must be found or created; a refused lookup counts as absent. */
  predicate BackendFails(env: Env, t: nat, there: bool) {
    || NoReply(env.outcome(t))
    || !(if there then env.outcome(t) == Served else env.outcome(t + 1) == Served)
  }

  function BackendCalls(env: Env, t: nat, there: bool): nat {
    if env.outcome(t) == Served && there then 1 else 2
  }

  /** A bind must be found on its port, moved there or created. */
  predicate BindFails(env: Env, t: nat, bound: Option<int>, port: int) {
    || NoReply(env.outcome(t))
    || (bound.Some? && env.outcome(t) != Served)
    || (bound != Some(port) && env.outcome(t + 1) != Served)
  }

  function BindCalls(env: Env, t: nat, bound: Option<int>, port: int): nat {
    if env.outcome(t) == Served && bound == Some(port) then 1 else 2
  }

  /** A frontend that is there has its bind seen to and is then written; another is created and gets its bind. */
  predicate FrontendFails(env: Env, t: nat, there: bool, bound: Option<int>, port: int) {
    || NoReply(env.outcome(t))
    || (if there then
          || env.outcome(t) != Served
          || BindFails(env, t + 1, bound, port)
          || env.outcome(t + 1 + BindCalls(env, t + 1, bound, port)) != Served
        else env.outcome(t + 1) != Served || BindFails(env, t + 2, None, port))
  }

  function FrontendCalls(env: Env, t: nat, there: bool, bound: Option<int>, port: int): nat {
    if there then 2 + BindCalls(env, t + 1, bound, port) else 2 + BindCalls(env, t + 2, None, port)
  }

  lemma BackendExactly(env: Env, a: Api, name: string)
    ensures var (b, ok) := EnsureBackend(env, a, name);
      && (ok <==> !BackendFails(env, a.calls, name in a.tx.pools))
      && (ok ==> b.calls == a.calls + BackendCalls(env, a.calls, name in a.tx.pools))
  {
  }

  function BoundIn(cfg: Config, f: string): Option<int> {
    if f in cfg.frontends && BIND in cfg.frontends[f].binds then Some(cfg.frontends[f].binds[BIND]) else None
  }

  lemma BindExactly(env: Env, a: Api, f: string, port: int)
    requires f in a.tx.frontends
    ensures var (b, ok) := EnsureBind(env, a, f, port);
      && (ok <==> !BindFails(env, a.calls, BoundIn(a.tx, f), port))
      && (ok ==> b.calls == a.calls + BindCalls(env, a.calls, BoundIn(a.tx, f), port))
  {
  }

  lemma FrontendExactly(env: Env, a: Api, f: string, port: int, backend: string)
    ensures var (b, ok) := EnsureFrontend(env, a, f, port, backend);
      var there, bound := f in a.tx.frontends, BoundIn(a.tx, f);
      && (ok <==> !FrontendFails(env, a.calls, there, bound, port))
      && (ok ==> b.calls == a.calls + FrontendCalls(env, a.calls, there, bound, port))
  {
    if f in a.tx.frontends {
      BindExactly(env, a.(calls := a.calls + 1), f, port);
    } else {
      var made := a.tx.(frontends := a.tx.frontends[f := Frontend(backend, map[])]);
      BindExactly(env, a.(tx := made, calls := a.calls + 2), f, port);
    }
  }

  // ---- the server loops ----

  function DeleteCalls(listed: seq<string>, desired: map<string, Server>): nat {
    if listed == [] then 0 else (if listed[0] in desired then 0 else 1) + DeleteCalls(listed[1..], desired)
  }

  /** How many calls the listing and the two loops make; their failures are only logged. */
  function ServerCalls(env: Env, t: nat, pool: map<string, Server>, desired: map<string, Server>): nat {
    var deletes := DeleteCalls(if env.outcome(t) == Served then env.order(t, pool.Keys) else [], desired);
    1 + deletes + |Ranged(env, t + 1 + deletes, desired)|
  }

  lemma {:induction false} DeleteLoopCalls(env: Env, pool: map<string, Server>, names: seq<string>,
                                           desired: map<string, Server>, calls: nat)
    ensures DeleteServers(env, pool, names, desired, calls).1 == calls + DeleteCalls(names, desired)
    decreases |names|
  {
    if names == [] {
    } else if names[0] in desired {
      DeleteLoopCalls(env, pool, names[1..], desired, calls);
    } else {
      DeleteLoopCalls(env, if TakesEffect(env.outcome(calls)) then pool - {names[0]} else pool, names[1..], desired,
                      calls + 1);
    }
  }

  lemma {:induction false} UpsertLoopCalls(env: Env, pool: map<string, Server>, names: seq<string>, listed: seq<string>,
                                           desired: map<string, Server>, calls: nat)
    requires forall n :: n in names ==> n in desired
    ensures UpsertServers(env, pool, names, listed, desired, calls).1 == calls + |names|
    decreases |names|
  {
    if names == [] {
    } else {
      var n := names[0];
      var pool' := if TakesEffect(env.outcome(calls)) && (n in listed <==> n in pool)
                   then pool[n := desired[n]] else pool;
      UpsertLoopCalls(env, pool', names[1..], listed, desired, calls + 1);
    }
  }

  lemma LoopsExactly(env: Env, pool: map<string, Server>, listed: seq<string>, desired: map<string, Server>, calls: nat)
    ensures var (pool1, calls1) := DeleteServers(env, pool, listed, desired, calls);
      && calls1 == calls + DeleteCalls(listed, desired)
      && UpsertServers(env, pool1, Ranged(env, calls1, desired), listed, desired, calls1).1
         == calls1 + |Ranged(env, calls1, desired)|
  {
    var (pool1, calls1) := DeleteServers(env, pool, listed, desired, calls);
    DeleteLoopCalls(env, pool, listed, desired, calls);
    UpsertLoopCalls(env, pool1, Ranged(env, calls1, desired), listed, desired, calls1);
  }

  lemma ServersExactly(env: Env, a: Api, backend: string, targets: seq<Target>)
    requires backend in a.tx.pools
    ensures var (b, ok) := UpdateServers(env, a, backend, targets);
      && (ok <==> !NoReply(env.outcome(a.calls)))
      && (ok ==> b.calls == a.calls + ServerCalls(env, a.calls, a.tx.pools[backend], Desired(targets))
                 && b.tx.frontends == a.tx.frontends && b.committed == a.committed)
  {
    ServersCounted(env, a, backend, Desired(targets));
  }

  /** The calls of the loops, for any servers asked for. */
  lemma ServersCounted(env: Env, a: Api, backend: string, desired: map<string, Server>)
    requires backend in a.tx.pools
    ensures var listed := Listed(env, a, backend);
      var (pool, calls) := DeleteServers(env, a.tx.pools[backend], listed, desired, a.calls + 1);
      UpsertServers(env, pool, Ranged(env, calls, desired), listed, desired, calls).1
      == a.calls + ServerCalls(env, a.calls, a.tx.pools[backend], desired)
  {
    LoopsExactly(env, a.tx.pools[backend], Listed(env, a, backend), desired, a.calls + 1);
  }

  // ---- one listener ----

  /** What a configuration has of a listener: its backend with the servers, its frontend with the bind. */
  datatype View = View(backend: bool, pool: map<string, Server>, frontend: bool, bound: Option<int>)

  function ViewOf(cfg: Config, c: Listener): View {
    var f, b := FrontendName(c), BackendName(c);
    View(b in cfg.pools, ServersOf(cfg, b), f in cfg.frontends, BoundIn(cfg, f))
  }

  /** The numbers of a listener's calls when its first is number `t` and its server loops make `n`: the server listing,
      the frontend's lookup, the commit. */
  function ServersAt(env: Env, t: nat, v: View): nat {
    t + 2 + BackendCalls(env, t + 2, v.backend)
  }

  function CommitAfter(env: Env, t: nat, v: View, port: int, n: nat): nat {
    var at := ServersAt(env, t, v) + n;
    at + FrontendCalls(env, at, v.frontend, v.bound, port)
  }

  predicate SkipsWith(env: Env, t: nat, v: View, port: int, n: nat) {
    || env.outcome(t) != Served || env.outcome(t + 1) != Served
    || BackendFails(env, t + 2, v.backend)
    || NoReply(env.outcome(ServersAt(env, t, v)))
    || FrontendFails(env, ServersAt(env, t, v) + n, v.frontend, v.bound, port)
  }

  function LoopCalls(env: Env, t: nat, v: View, c: Listener): nat {
    ServerCalls(env, ServersAt(env, t, v), v.pool, Desired(c.targets))
  }

  function CommitAt(env: Env, t: nat, v: View, c: Listener): nat {
    CommitAfter(env, t, v, c.port, LoopCalls(env, t, v, c))
  }

  /** One of the calls that count was not answered as it must be: version and start, backend, server listing, frontend
      and bind. No write of a server is among them. */
  predicate Skips(env: Env, t: nat, v: View, c: Listener) {
    SkipsWith(env, t, v, c.port, LoopCalls(env, t, v, c))
  }

  /** The transaction as it stands before the commit, if every step succeeded. */
  function Prepared(env: Env, a: Api, c: Listener): Option<Api> {
    var (a0, started) := StartTransaction(env, a);
    if started then PreparedFrom(env, a0, c) else None
  }

  function PreparedFrom(env: Env, a: Api, c: Listener): Option<Api> {
    var (a1, backendOk) := EnsureBackend(env, a, BackendName(c));
    if backendOk then PreparedBehind(env, a1, c) else None
  }

  function PreparedBehind(env: Env, a: Api, c: Listener): Option<Api>
    requires BackendName(c) in a.tx.pools
  {
    var (a2, serversOk) := UpdateServers(env, a, BackendName(c), c.targets);
    if !serversOk then None
    else
      var (a3, frontendOk) := EnsureFrontend(env, a2, FrontendName(c), c.port, BackendName(c));
      if frontendOk then Some(a3) else None
  }

  lemma BehindExactly(env: Env, a: Api, c: Listener, v: View, n: nat)
    requires BackendName(c) in a.tx.pools && v.pool == a.tx.pools[BackendName(c)]
    requires v.frontend == (FrontendName(c) in a.tx.frontends) && v.bound == BoundIn(a.tx, FrontendName(c))
    requires n == ServerCalls(env, a.calls, v.pool, Desired(c.targets))
    ensures var p := PreparedBehind(env, a, c);
      && (p.Some? <==> !NoReply(env.outcome(a.calls))
                       && !FrontendFails(env, a.calls + n, v.frontend, v.bound, c.port))
      && (p.Some? ==> p.value.committed == a.committed
                      && p.value.calls == a.calls + n + FrontendCalls(env, a.calls + n, v.frontend, v.bound, c.port))
  {
    ServersExactly(env, a, BackendName(c), c.targets);
    var (a2, ok2) := UpdateServers(env, a, BackendName(c), c.targets);
    if ok2 {
      FrontendExactly(env, a2, FrontendName(c), c.port, BackendName(c));
      FrontendEnsured(env, a2, FrontendName(c), c.port, BackendName(c));
    }
  }

  lemma BackendFirst(env: Env, a: Api, c: Listener, v: View)
    requires a.tx == a.committed && v == ViewOf(a.committed, c)
    ensures var (a1, ok) := EnsureBackend(env, a, BackendName(c));
      && (ok <==> !BackendFails(env, a.calls, v.backend))
      && (ok ==> && a1.calls == a.calls + BackendCalls(env, a.calls, v.backend) && a1.committed == a.committed
                 && BackendName(c) in a1.tx.pools && a1.tx.pools[BackendName(c)] == v.pool
                 && a1.tx.frontends == a.tx.frontends)
  {
    BackendExactly(env, a, BackendName(c));
    BackendEnsured(env, a, BackendName(c));
  }

  /** What comes of a transaction that started with call `t`. */
  ghost predicate EndsAsSaid(env: Env, t: nat, v: View, port: int, n: nat, p: Option<Api>, committed: Config) {
    && (p.Some? <==> !SkipsWith(env, t, v, port, n))
    && (p.Some? ==> p.value.committed == committed && p.value.calls == CommitAfter(env, t, v, port, n))
  }

  /** From the call numbers to the parts: with the backend in place, the rest decides. */
  lemma Assembled(env: Env, t: nat, v: View, port: int, n: nat, at: nat, p: Option<Api>, committed: Config)
    requires env.outcome(t) == Served && env.outcome(t + 1) == Served && at == ServersAt(env, t, v)
    requires !BackendFails(env, t + 2, v.backend)
    requires p.Some? <==> !NoReply(env.outcome(at)) && !FrontendFails(env, at + n, v.frontend, v.bound, port)
    requires p.Some? ==> p.value.committed == committed
                         && p.value.calls == at + n + FrontendCalls(env, at + n, v.frontend, v.bound, port)
    ensures EndsAsSaid(env, t, v, port, n, p, committed)
  {
  }

  lemma FromBackend(env: Env, a: Api, c: Listener, v: View, t: nat)
    requires a.committed == a.tx && v == ViewOf(a.committed, c) && a.calls == t + 2
    ensures var (a1, ok) := EnsureBackend(env, a, BackendName(c));
      && PreparedFrom(env, a, c) == (if ok then PreparedBehind(env, a1, c) else None)
      && (ok <==> !BackendFails(env, t + 2, v.backend))
      && (ok ==> && a1.calls == ServersAt(env, t, v) && a1.committed == a.committed
                 && BackendName(c) in a1.tx.pools && a1.tx.pools[BackendName(c)] == v.pool
                 && a1.tx.frontends == a.tx.frontends)
  {
    BackendFirst(env, a, c, v);
  }

  lemma FromExactly(env: Env, a: Api, c: Listener, v: View, t: nat, n: nat)
    requires a.tx == a.committed && v == ViewOf(a.committed, c) && a.calls == t + 2 && n == LoopCalls(env, t, v, c)
    requires env.outcome(t) == Served && env.outcome(t + 1) == Served
    ensures EndsAsSaid(env, t, v, c.port, n, PreparedFrom(env, a, c), a.committed)
  {
    FromBackend(env, a, c, v, t);
    var (a1, ok) := EnsureBackend(env, a, BackendName(c));
    if ok {
      BehindExactly(env, a1, c, v, n);
      Assembled(env, t, v, c.port, n, a1.calls, PreparedBehind(env, a1, c), a.committed);
    }
  }

  lemma PreparedExactly(env: Env, a: Api, c: Listener, v: View, n: nat)
    requires v == ViewOf(a.committed, c) && n == LoopCalls(env, a.calls, v, c)
    ensures EndsAsSaid(env, a.calls, v, c.port, n, Prepared(env, a, c), a.committed)
  {
    var (a0, started) := StartTransaction(env, a);
    if started { FromExactly(env, a0, c, v, a.calls, n); }
  }

  lemma PreparedIsCommitted(env: Env, a: Api, c: Listener)
    ensures var (b, progress) := ApplyOne(env, a, c);
      var p := Prepared(env, a, c);
      && (progress == Skipped <==> p.None?)
      && (p.Some? ==> (progress == Applied <==> env.outcome(p.value.calls) == Served))
      && (progress == Applied ==> b.calls == p.value.calls + 1)
      && (progress == Skipped ==> b.committed == a.committed)
  {
    var (a0, started) := StartTransaction(env, a);
    if started { BackendEnsured(env, a0, BackendName(c)); }
  }

  /** Under any outcomes: a listener is skipped exactly then; otherwise the commit decides. */
  lemma SkipsExactly(env: Env, a: Api, c: Listener)
    ensures var (b, p) := ApplyOne(env, a, c);
      && (p == Skipped <==> Skips(env, a.calls, ViewOf(a.committed, c), c))
      && (p == Skipped ==> b.committed == a.committed)
      && (p != Skipped ==> (p == Applied <==> env.outcome(CommitAt(env, a.calls, ViewOf(a.committed, c), c)) == Served))
      && (p == Applied ==> b.calls == CommitAt(env, a.calls, ViewOf(a.committed, c), c) + 1)
  {
    var v := ViewOf(a.committed, c);
    PreparedExactly(env, a, c, v, LoopCalls(env, a.calls, v, c));
    PreparedIsCommitted(env, a, c);
  }

  /** For a name that is not in use the calls that count are these nine. */
  lemma NewNameSkips(env: Env, t: nat, cfg: Config, c: Listener)
    requires FrontendName(c) !in cfg.frontends && BackendName(c) !in cfg.pools
    ensures var at := t + 4 + LoopCalls(env, t, ViewOf(cfg, c), c);
      Skips(env, t, ViewOf(cfg, c), c) <==>
        || env.outcome(t) != Served || env.outcome(t + 1) != Served
        || NoReply(env.outcome(t + 2)) || env.outcome(t + 3) != Served
        || NoReply(env.outcome(t + 4))
        || NoReply(env.outcome(at)) || env.outcome(at + 1) != Served
        || NoReply(env.outcome(at + 2)) || env.outcome(at + 3) != Served
  {
  }

  // ---- a whole call ----

  /** For a listener whose calls start with a given number: whether it is skipped, and the number of its commit. */
  datatype Course = Course(skips: (nat, Listener) -> bool, commit: (nat, Listener) -> nat)

  /** As the outcomes of the calls and the configuration from before the first of them have it. */
  function CourseOf(env: Env, cfg: Config): Course {
    Course((t: nat, c: Listener) => Skips(env, t, ViewOf(cfg, c), c),
           (t: nat, c: Listener) => CommitAt(env, t, ViewOf(cfg, c), c))
  }

  /** No listener is skipped; each one's calls start where the previous one's end. */
  predicate NoneSkips(course: Course, t: nat, configs: seq<Listener>)
    decreases |configs|
  {
    configs == []
    || (!course.skips(t, configs[0]) && NoneSkips(course, course.commit(t, configs[0]) + 1, configs[1..]))
  }

  /** Nor is a commit lost or refused. */
  predicate AllPass(env: Env, course: Course, t: nat, configs: seq<Listener>)
    decreases |configs|
  {
    configs == []
    || (!course.skips(t, configs[0]) && env.outcome(course.commit(t, configs[0])) == Served
        && AllPass(env, course, course.commit(t, configs[0]) + 1, configs[1..]))
  }

  /** Two configurations have the same to say of the listener's names. */
  predicate SameFor(cfg: Config, cfg': Config, c: Listener) {
    ViewOf(cfg', c) == ViewOf(cfg, c)
  }

  lemma OthersSame(env: Env, a: Api, c: Listener, d: Listener)
    requires Lawful(env) && FrontendName(c) != FrontendName(d)
    ensures SameFor(a.committed, ApplyOne(env, a, c).0.committed, d)
  {
    ApplyOneIsAtomic(env, a, c);
    BackendNamesDiffer(c, d);
    var cfg, cfg' := a.committed, ApplyOne(env, a, c).0.committed;
    if Configured(cfg, cfg', c) {
      KeptOutside(cfg.frontends, cfg'.frontends, FrontendName(c), FrontendName(d));
      KeptOutside(cfg.pools, cfg'.pools, BackendName(c), BackendName(d));
    }
  }

  lemma KeptOutside<T>(m: map<string, T>, m': map<string, T>, x: string, y: string)
    requires m' - {x} == m - {x} && x != y
    ensures (y in m' <==> y in m) && (y in m ==> m'[y] == m[y])
  {
    assert y in m' <==> y in m' - {x};
    assert y in m <==> y in m - {x};
  }

  lemma FirstNameIsNew(configs: seq<Listener>)
    requires DistinctListeners(configs) && configs != []
    ensures FrontendName(configs[0]) !in FrontendNames(configs[1..]) && DistinctListeners(configs[1..])
  {
    forall d | d in configs[1..] ensures FrontendName(d) != FrontendName(configs[0]) {
      var i :| 0 <= i < |configs[1..]| && configs[1..][i] == d;
      assert configs[i + 1] == d;
    }
  }

  lemma RestStaysSame(env: Env, cfg: Config, a: Api, configs: seq<Listener>)
    requires Lawful(env) && DistinctListeners(configs) && configs != []
    requires forall c :: c in configs ==> SameFor(cfg, a.committed, c)
    ensures forall d :: d in configs[1..] ==> SameFor(cfg, ApplyOne(env, a, configs[0]).0.committed, d)
  {
    RestSame(env, a, configs);
    forall d | d in configs[1..] ensures SameFor(cfg, ApplyOne(env, a, configs[0]).0.committed, d) {
      assert d in configs;
    }
  }

  predicate AllApplied(env: Env, a: Api, configs: seq<Listener>) {
    FrontendNames(configs) <= AppliedNames(env, a, configs)
  }

  /** The first listener and the rest. */
  lemma FirstApplied(env: Env, a: Api, configs: seq<Listener>)
    requires configs != [] && DistinctListeners(configs)
    ensures var (a1, p) := ApplyOne(env, a, configs[0]);
      && (p == Applied ==> (AllApplied(env, a, configs) <==> AllApplied(env, a1, configs[1..])))
      && (p == Skipped ==> !AllApplied(env, a, configs))
  {
    var c, rest := configs[0], configs[1..];
    var (a1, p) := ApplyOne(env, a, c);
    assert configs == [c] + rest;
    NamesOfCons(c, rest);
    FirstNameIsNew(configs);
    AppliedAreNamed(env, a1, rest);
    SkipsExactly(env, a, c);
    assert FrontendName(c) in FrontendNames(configs);
  }

  lemma RestSame(env: Env, a: Api, configs: seq<Listener>)
    requires Lawful(env) && DistinctListeners(configs) && configs != []
    ensures forall d :: d in configs[1..] ==> SameFor(a.committed, ApplyOne(env, a, configs[0]).0.committed, d)
  {
    FirstNameIsNew(configs);
    forall d | d in configs[1..] ensures SameFor(a.committed, ApplyOne(env, a, configs[0]).0.committed, d) {
      assert FrontendName(d) in FrontendNames(configs[1..]);
      OthersSame(env, a, configs[0], d);
    }
  }

  /** The call goes as the course has it, as far as every listener is applied. */
  predicate Follows(env: Env, course: Course, a: Api, configs: seq<Listener>)
    decreases |configs|
  {
    configs == []
    || (var (a1, p) := ApplyOne(env, a, configs[0]);
        && StepFollows(env, course, a.calls, configs[0], a1.calls, p)
        && (p == Applied ==> Follows(env, course, a1, configs[1..])))
  }

  predicate StepFollows(env: Env, course: Course, t: nat, c: Listener, next: nat, p: Progress) {
    && (p == Skipped <==> course.skips(t, c))
    && (p == Applied <==> !course.skips(t, c) && env.outcome(course.commit(t, c)) == Served)
    && (p == Applied ==> next == course.commit(t, c) + 1)
  }

  lemma StepFollowsCourse(env: Env, cfg: Config, a: Api, c: Listener)
    requires SameFor(cfg, a.committed, c)
    ensures var (a1, p) := ApplyOne(env, a, c); StepFollows(env, CourseOf(env, cfg), a.calls, c, a1.calls, p)
  {
    SkipsExactly(env, a, c);
  }

  lemma {:induction false} FollowsCourse(env: Env, cfg: Config, a: Api, configs: seq<Listener>)
    requires Lawful(env) && DistinctListeners(configs) && forall c :: c in configs ==> SameFor(cfg, a.committed, c)
    ensures Follows(env, CourseOf(env, cfg), a, configs)
    decreases |configs|
  {
    if configs == [] {
    } else {
      assert SameFor(cfg, a.committed, configs[0]);
      StepFollowsCourse(env, cfg, a, configs[0]);
      FirstNameIsNew(configs);
      RestStaysSame(env, cfg, a, configs);
      FollowsCourse(env, cfg, ApplyOne(env, a, configs[0]).0, configs[1..]);
    }
  }

  lemma {:induction false} FollowedExactly(env: Env, course: Course, a: Api, configs: seq<Listener>)
    requires DistinctListeners(configs) && Follows(env, course, a, configs)
    ensures Apply(env, a, configs).1 && AllApplied(env, a, configs) <==> AllPass(env, course, a.calls, configs)
    ensures Apply(env, a, configs).1 ==> (AllApplied(env, a, configs) <==> NoneSkips(course, a.calls, configs))
    decreases |configs|
  {
    if configs == [] {
    } else {
      var (a1, p) := ApplyOne(env, a, configs[0]);
      FirstNameIsNew(configs);
      FirstApplied(env, a, configs);
      if p == Applied { FollowedExactly(env, course, a1, configs[1..]); }
    }
  }

  /** For every pattern of outcomes: Configure reports success and has applied every listener exactly if none of the
      calls that count fails; once it reports success, exactly if none is skipped. */
  lemma AppliesAllExactly(env: Env, a: Api, configs: seq<Listener>)
    requires Lawful(env) && DistinctListeners(configs)
    ensures var course := CourseOf(env, a.committed);
      && (Apply(env, a, configs).1 && AllApplied(env, a, configs) <==> AllPass(env, course, a.calls, configs))
      && (Apply(env, a, configs).1 ==> (AllApplied(env, a, configs) <==> NoneSkips(course, a.calls, configs)))
  {
    FollowsCourse(env, a.committed, a, configs);
    FollowedExactly(env, CourseOf(env, a.committed), a, configs);
  }

  /** In terms of what HAProxy then has: after a successful Configure of names that were not in use all their frontends
      are there exactly if none was skipped. */
  lemma SuccessAppliesUnlessSkipped(env: Env, a: Api, configs: seq<Listener>)
    requires Lawful(env) && forall c :: c in configs ==> FrontendName(c) !in a.committed.frontends
    ensures var cfg', applied := Apply(env, a, configs).0.committed, AppliedNames(env, a, configs);
      && (forall c :: c in configs ==> (FrontendName(c) in cfg'.frontends <==> FrontendName(c) in applied))
      && (DistinctListeners(configs) && Apply(env, a, configs).1 ==>
            (FrontendNames(configs) <= cfg'.frontends.Keys
             <==> NoneSkips(CourseOf(env, a.committed), a.calls, configs)))
  {
    forall c | c in configs
      ensures FrontendName(c) in Apply(env, a, configs).0.committed.frontends
          <==> FrontendName(c) in AppliedNames(env, a, configs)
    {
      ApplyRebinds(env, a, configs, FrontendName(c));
    }
    if DistinctListeners(configs) && Apply(env, a, configs).1 {
      AppliesAllExactly(env, a, configs);
    }
  }
}
