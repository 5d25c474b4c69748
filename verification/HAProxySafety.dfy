/** What the manager's calls leave behind in HAProxy, for every pattern of failing calls and every
    iteration order. */
module HAProxySafety {
  import opened Wrappers
  import opened HAProxy
  import opened Names

  predicate EffectiveBetween(env: Env, from: nat, to: nat) {
    forall t :: from <= t < to ==> TakesEffect(env.outcome(t))
  }

  ghost predicate AllServed(env: Env) {
    forall t: nat :: env.outcome(t) == Served
  }

  /** A server of the pool stays as it was or becomes the desired one. */
  predicate ServerFate(was: map<string, Server>, now: map<string, Server>, desired: map<string, Server>, n: string) {
    || (n in desired && n in now && now[n] == desired[n])
    || (n !in desired && n !in now)
    || (n in was && n in now && now[n] == was[n])
    || (n !in was && n !in now)
  }

  predicate PoolFate(was: map<string, Server>, now: map<string, Server>, desired: map<string, Server>) {
    forall n :: n in was.Keys + now.Keys + desired.Keys ==> ServerFate(was, now, desired, n)
  }

  function FrontendNames(configs: seq<Listener>): set<string> {
    set c | c in configs :: FrontendName(c)
  }

  function BackendNames(configs: seq<Listener>): set<string> {
    set c | c in configs :: BackendName(c)
  }

  // ---- server loops ----

  lemma {:induction false} DeleteServersFate(env: Env, pool: map<string, Server>, names: seq<string>,
                                             desired: map<string, Server>, calls: nat)
    ensures var (pool', calls') := DeleteServers(env, pool, names, desired, calls);
      && calls <= calls'
      && (forall n :: n in pool' ==> n in pool && pool'[n] == pool[n])
      && (forall n :: n in pool && n in desired ==> n in pool')
      && (EffectiveBetween(env, calls, calls') ==> forall n :: n in names && n !in desired ==> n !in pool')
    decreases |names|
  {
    if names == [] {
    } else {
      var skip := names[0] in desired;
      var pool1 := if !skip && TakesEffect(env.outcome(calls)) then pool - {names[0]} else pool;
      DeleteServersFate(env, pool1, names[1..], desired, if skip then calls else calls + 1);
      assert forall n :: n in names ==> n == names[0] || n in names[1..];
    }
  }

  lemma {:induction false} UpsertServersFate(env: Env, pool: map<string, Server>, names: seq<string>,
                                             listed: seq<string>, desired: map<string, Server>, calls: nat)
    requires forall n :: n in names ==> n in desired
    ensures var (pool', calls') := UpsertServers(env, pool, names, listed, desired, calls);
      && calls <= calls'
      && (forall n :: n !in names ==> (n in pool' <==> n in pool) && (n in pool ==> pool'[n] == pool[n]))
      && (forall n :: n in names ==> ServerFate(pool, pool', desired, n))
      && (EffectiveBetween(env, calls, calls')
          && (forall n :: n in names ==> (n in listed <==> n in pool) || (n in pool && pool[n] == desired[n]))
          ==> forall n :: n in names ==> n in pool' && pool'[n] == desired[n])
    decreases |names|
  {
    if names == [] {
    } else {
      var n := names[0];
      var pool1 := if TakesEffect(env.outcome(calls)) && (n in listed <==> n in pool)
                   then pool[n := desired[n]] else pool;
      UpsertServersFate(env, pool1, names[1..], listed, desired, calls + 1);
      assert forall m :: m in names <==> m == n || m in names[1..];
    }
  }

  lemma ServerLoopsFate(env: Env, was: map<string, Server>, listed: seq<string>, desired: map<string, Server>,
                        calls: nat)
    requires Lawful(env)
    ensures var (pool, mid) := DeleteServers(env, was, listed, desired, calls);
      var (now, end) := UpsertServers(env, pool, Ranged(env, mid, desired), listed, desired, mid);
      && calls <= end && PoolFate(was, now, desired)
      && ((forall n :: n in listed <==> n in was) && EffectiveBetween(env, calls, end) ==> now == desired)
  {
    var (pool, mid) := DeleteServers(env, was, listed, desired, calls);
    DeleteServersFate(env, was, listed, desired, calls);
    var names := Ranged(env, mid, desired);
    assert forall n :: n in names <==> n in desired;
    UpsertServersFate(env, pool, names, listed, desired, mid);
    var (now, end) := UpsertServers(env, pool, names, listed, desired, mid);
    forall n | n in was.Keys + now.Keys + desired.Keys ensures ServerFate(was, now, desired, n) {
      if n in desired {
        assert ServerFate(pool, now, desired, n);
      }
    }
    if (forall n :: n in listed <==> n in was) && EffectiveBetween(env, calls, end) {
      assert EffectiveBetween(env, calls, mid) && EffectiveBetween(env, mid, end);
      assert now.Keys == desired.Keys;
    }
  }

  /** Every server of the backend keeps its state or reaches the desired one; when the listing is answered
      and the calls take effect, the set is exactly the desired one, in whatever order the loops ran. */
  lemma UpdateServersFate(env: Env, a: Api, backend: string, targets: seq<Target>)
    requires Lawful(env) && backend in a.tx.pools
    ensures var (b, ok) := UpdateServers(env, a, backend, targets);
      && a.calls < b.calls && b.committed == a.committed && b.tx.frontends == a.tx.frontends
      && backend in b.tx.pools && b.tx.pools == a.tx.pools[backend := b.tx.pools[backend]]
      && PoolFate(a.tx.pools[backend], b.tx.pools[backend], Desired(targets))
      && (env.outcome(a.calls) == Served && EffectiveBetween(env, a.calls, b.calls) ==>
          ok && b.tx.pools[backend] == Desired(targets))
  {
    var was := a.tx.pools[backend];
    SamePool(a.tx.pools, backend);
    if !NoReply(env.outcome(a.calls)) {
      var listed := Listed(env, a, backend);
      assert env.outcome(a.calls) == Served ==> forall n :: n in listed <==> n in was.Keys;
      ServerLoopsFate(env, was, listed, Desired(targets), a.calls + 1);
    }
  }

  lemma SamePool(pools: map<string, map<string, Server>>, backend: string)
    requires backend in pools
    ensures pools[backend := pools[backend]] == pools
  {
  }

  // ---- one listener ----

  /** `cfg'` differs from `cfg` only in the listener's frontend and backend: the frontend is bound to the
      requested port and sends to its backend, which exists, and every server there is old or desired. */
  ghost predicate Configured(cfg: Config, cfg': Config, c: Listener) {
    var f, b := FrontendName(c), BackendName(c);
    && f in cfg'.frontends && b in cfg'.pools
    && cfg'.frontends[f].defaultBackend == b
    && cfg'.frontends[f].binds == BindsOf(cfg, f)[BIND := c.port]
    && cfg'.frontends - {f} == cfg.frontends - {f} && cfg'.pools - {b} == cfg.pools - {b}
    && PoolFate(ServersOf(cfg, b), cfg'.pools[b], Desired(c.targets))
  }

  function ServersOf(cfg: Config, b: string): map<string, Server> {
    if b in cfg.pools then cfg.pools[b] else map[]
  }

  function BindsOf(cfg: Config, f: string): map<string, int> {
    if f in cfg.frontends then cfg.frontends[f].binds else map[]
  }

  lemma FrontendEnsured(env: Env, a: Api, name: string, port: int, backend: string)
    ensures var (b, ok) := EnsureFrontend(env, a, name, port, backend);
      && b.committed == a.committed
      && (ok ==>
          && b.tx.pools == a.tx.pools
          && b.tx.frontends == a.tx.frontends[name := Frontend(backend, BindsOf(a.tx, name)[BIND := port])])
  {
    var (b, ok) := EnsureFrontend(env, a, name, port, backend);
    if ok && name in a.tx.frontends {
      var binds := a.tx.frontends[name].binds;
      assert BIND in binds && binds[BIND] == port ==> binds[BIND := port] == binds;
    }
  }

  lemma TransactionConfigures(cfg: Config, tx: Config, c: Listener, f: string, b: string)
    requires f == FrontendName(c) && b == BackendName(c) && b in tx.pools
    requires tx.frontends == cfg.frontends[f := Frontend(b, BindsOf(cfg, f)[BIND := c.port])]
    requires tx.pools - {b} == cfg.pools - {b} && PoolFate(ServersOf(cfg, b), tx.pools[b], Desired(c.targets))
    ensures Configured(cfg, tx, c)
  {
  }

  /** Under any failures one listener is left untouched or completely configured, and nothing else moves. */
  lemma ApplyOneIsAtomic(env: Env, a: Api, c: Listener)
    requires Lawful(env)
    ensures var (b, p) := ApplyOne(env, a, c);
      && (b.committed == a.committed || Configured(a.committed, b.committed, c))
      && (p == Applied ==> Configured(a.committed, b.committed, c))
  {
    var (a0, started) := StartTransaction(env, a);
    if started {
      BackendEnsured(env, a0, BackendName(c));
      var (a1, ok1) := EnsureBackend(env, a0, BackendName(c));
      if ok1 {
        UpdateServersFate(env, a1, BackendName(c), c.targets);
        var (a2, ok2) := UpdateServers(env, a1, BackendName(c), c.targets);
        if ok2 {
          FrontendEnsured(env, a2, FrontendName(c), c.port, BackendName(c));
          var (a3, ok3) := EnsureFrontend(env, a2, FrontendName(c), c.port, BackendName(c));
          if ok3 {
            TransactionConfigures(a.committed, a3.tx, c, FrontendName(c), BackendName(c));
          }
        }
      }
    }
  }

  // ---- a whole call ----

  ghost predicate FrontendFor(cfg: Config, f: string, c: Listener) {
    && FrontendName(c) == f && f in cfg.frontends
    && cfg.frontends[f].defaultBackend == BackendName(c) && BackendName(c) in cfg.pools
    && BIND in cfg.frontends[f].binds && cfg.frontends[f].binds[BIND] == c.port
  }

  lemma NamesOfCons(c: Listener, rest: seq<Listener>)
    ensures FrontendNames([c] + rest) == {FrontendName(c)} + FrontendNames(rest)
    ensures BackendNames([c] + rest) == {BackendName(c)} + BackendNames(rest)
  {
    assert forall d :: d in [c] + rest <==> d == c || d in rest;
  }

  lemma SameElsewhere<T>(m: map<string, T>, m1: map<string, T>, m2: map<string, T>, xs: set<string>, ys: set<string>)
    requires m1 - xs == m - xs && m2 - ys == m1 - ys
    ensures m2 - (xs + ys) == m - (xs + ys)
  {
    assert m2 - (xs + ys) == (m2 - ys) - xs == (m1 - ys) - xs == (m1 - xs) - ys == (m - xs) - ys;
  }

  /** Whatever failed, Configure leaves the frontends and backends of every other listener alone. */
  lemma {:induction false} ApplyIsIsolated(env: Env, a: Api, configs: seq<Listener>)
    requires Lawful(env)
    ensures var cfg, cfg' := a.committed, Apply(env, a, configs).0.committed;
      && cfg'.frontends - FrontendNames(configs) == cfg.frontends - FrontendNames(configs)
      && cfg'.pools - BackendNames(configs) == cfg.pools - BackendNames(configs)
    decreases |configs|
  {
    if configs == [] {
    } else {
      var c, rest := configs[0], configs[1..];
      var (a1, p) := ApplyOne(env, a, c);
      ApplyOneIsAtomic(env, a, c);
      assert configs == [c] + rest;
      NamesOfCons(c, rest);
      ApplyIsIsolated(env, a1, rest);
      var cfg2 := if p == CommitFailed then a1.committed else Apply(env, a1, rest).0.committed;
      SameElsewhere(a.committed.frontends, a1.committed.frontends, cfg2.frontends, {FrontendName(c)},
                    FrontendNames(rest));
      SameElsewhere(a.committed.pools, a1.committed.pools, cfg2.pools, {BackendName(c)}, BackendNames(rest));
    }
  }

  /** Whatever failed, no committed frontend comes to refer to a missing backend, nothing is deleted, and each
      frontend is as it was or is bound to a port it was asked for, with its own backend in place. */
  lemma {:induction false} ApplyIsSafe(env: Env, a: Api, configs: seq<Listener>)
    requires Lawful(env)
    ensures var cfg, cfg' := a.committed, Apply(env, a, configs).0.committed;
      && (NoDangling(cfg) ==> NoDangling(cfg'))
      && cfg.frontends.Keys <= cfg'.frontends.Keys && cfg.pools.Keys <= cfg'.pools.Keys
      && (forall f :: f in cfg'.frontends ==>
            || (f in cfg.frontends && cfg'.frontends[f] == cfg.frontends[f])
            || exists c :: c in configs && FrontendFor(cfg', f, c))
    decreases |configs|
  {
    if configs == [] {
    } else {
      var c0, rest := configs[0], configs[1..];
      var (a1, p) := ApplyOne(env, a, c0);
      ApplyOneIsAtomic(env, a, c0);
      ConfiguredIsSafe(a.committed, a1.committed, c0);
      if p != CommitFailed {
        ApplyIsSafe(env, a1, rest);
      }
      assert forall c :: c in configs <==> c == c0 || c in rest;
      var cfg, cfg1, cfg' := a.committed, a1.committed, Apply(env, a, configs).0.committed;
      forall f | f in cfg'.frontends && !(f in cfg.frontends && cfg'.frontends[f] == cfg.frontends[f])
        ensures exists c :: c in configs && FrontendFor(cfg', f, c)
      {
        if f in cfg1.frontends && cfg'.frontends[f] == cfg1.frontends[f] {
          assert FrontendFor(cfg', f, c0);
        } else {
          var c :| c in rest && FrontendFor(cfg', f, c);
        }
      }
    }
  }

  lemma ConfiguredIsSafe(cfg: Config, cfg': Config, c: Listener)
    requires cfg' == cfg || Configured(cfg, cfg', c)
    ensures NoDangling(cfg) ==> NoDangling(cfg')
    ensures cfg.frontends.Keys <= cfg'.frontends.Keys && cfg.pools.Keys <= cfg'.pools.Keys
    ensures forall f :: f in cfg'.frontends ==>
      (f in cfg.frontends && cfg'.frontends[f] == cfg.frontends[f]) || FrontendFor(cfg', f, c)
  {
    if Configured(cfg, cfg', c) {
      var f0, b0 := FrontendName(c), BackendName(c);
      forall p | p in cfg.pools ensures p in cfg'.pools {
        assert p != b0 ==> p in cfg.pools - {b0};
      }
      forall f | f in cfg.frontends ensures f in cfg'.frontends {
        assert f != f0 ==> f in cfg.frontends - {f0};
      }
      forall f | f in cfg'.frontends && f != f0 ensures f in cfg.frontends && cfg'.frontends[f] == cfg.frontends[f] {
        assert f in cfg'.frontends - {f0};
      }
    }
  }

  /** A skipped listener is not reported: the call succeeds although the listener was not configured. */
  lemma SkippedListenerReportsSuccess(c: Listener)
    ensures var env := Env((t: nat) => Dropped, (t: nat, s: set<string>) => []);
      Apply(env, Api(Config(map[], map[]), Config(map[], map[]), 0), [c])
      == (Api(Config(map[], map[]), Config(map[], map[]), 1), true)
  {
    var env := Env((t: nat) => Dropped, (t: nat, s: set<string>) => []);
    var a := Api(Config(map[], map[]), Config(map[], map[]), 0);
    assert ApplyOne(env, a, c) == (a.(calls := 1), Skipped);
    assert [c][1..] == [];
    assert Apply(env, a.(calls := 1), []) == (a.(calls := 1), true);
  }

  // ---- which listeners a call reaches ----

  /** The names whose transaction was committed, whether or not the commit was acknowledged. */
  function AppliedNames(env: Env, a: Api, configs: seq<Listener>): set<string>
    decreases |configs|
  {
    if configs == [] then {}
    else
      var (a', p) := ApplyOne(env, a, configs[0]);
      (if p == Applied || a'.committed != a.committed then {FrontendName(configs[0])} else {})
      + if p == CommitFailed then {} else AppliedNames(env, a', configs[1..])
  }

  /** The frontend is as it was, or bound by one of the listeners to its port. */
  predicate Rebound(cfg: Config, cfg': Config, configs: seq<Listener>, f: string) {
    exists c :: c in configs && FrontendName(c) == f && f in cfg'.frontends
                && cfg'.frontends[f].binds == BindsOf(cfg, f)[BIND := c.port]
  }

  predicate SameFrontend(cfg: Config, cfg': Config, f: string) {
    (f in cfg'.frontends <==> f in cfg.frontends) && (f in cfg.frontends ==> cfg'.frontends[f] == cfg.frontends[f])
  }

  lemma OneRebound(env: Env, a: Api, c: Listener, f: string)
    requires Lawful(env)
    ensures var (b, p) := ApplyOne(env, a, c);
      if (p == Applied || b.committed != a.committed) && f == FrontendName(c)
      then Rebound(a.committed, b.committed, [c], f) else SameFrontend(a.committed, b.committed, f)
  {
    ApplyOneIsAtomic(env, a, c);
    var (b, p) := ApplyOne(env, a, c);
    if b.committed != a.committed || p == Applied {
      assert c in [c];
      if f != FrontendName(c) {
        assert f in b.committed.frontends <==> f in b.committed.frontends - {FrontendName(c)};
        assert f in a.committed.frontends <==> f in a.committed.frontends - {FrontendName(c)};
      }
    }
  }

  lemma ReboundAfter(cfg: Config, cfg1: Config, cfg': Config, c: Listener, rest: seq<Listener>, f: string)
    requires Rebound(cfg, cfg1, [c], f) || SameFrontend(cfg, cfg1, f)
    ensures Rebound(cfg1, cfg', rest, f) ==> Rebound(cfg, cfg', [c] + rest, f)
    ensures Rebound(cfg, cfg1, [c], f) && SameFrontend(cfg1, cfg', f) ==> Rebound(cfg, cfg', [c] + rest, f)
    ensures SameFrontend(cfg, cfg1, f) && SameFrontend(cfg1, cfg', f) ==> SameFrontend(cfg, cfg', f)
  {
    if Rebound(cfg1, cfg', rest, f) {
      var d :| d in rest && FrontendName(d) == f && f in cfg'.frontends
               && cfg'.frontends[f].binds == BindsOf(cfg1, f)[BIND := d.port];
      assert d in [c] + rest;
      assert BindsOf(cfg1, f)[BIND := d.port] == BindsOf(cfg, f)[BIND := d.port];
    }
    if Rebound(cfg, cfg1, [c], f) && SameFrontend(cfg1, cfg', f) {
      assert c in [c] + rest;
    }
  }

  /** For every pattern of failing and lost calls: exactly the applied listeners are rebound, the others are as
      before. */
  lemma {:induction false} ApplyRebinds(env: Env, a: Api, configs: seq<Listener>, f: string)
    requires Lawful(env)
    ensures var cfg, cfg' := a.committed, Apply(env, a, configs).0.committed;
      if f in AppliedNames(env, a, configs) then Rebound(cfg, cfg', configs, f) else SameFrontend(cfg, cfg', f)
    decreases |configs|
  {
    if configs == [] {
    } else {
      var c, rest := configs[0], configs[1..];
      var (a1, p) := ApplyOne(env, a, c);
      assert configs == [c] + rest;
      OneRebound(env, a, c, f);
      if p == CommitFailed {
        ReboundAfter(a.committed, a1.committed, a1.committed, c, rest, f);
      } else {
        ApplyRebinds(env, a1, rest, f);
        ReboundAfter(a.committed, a1.committed, Apply(env, a1, rest).0.committed, c, rest, f);
      }
    }
  }

  lemma {:induction false} AppliedAreNamed(env: Env, a: Api, configs: seq<Listener>)
    ensures AppliedNames(env, a, configs) <= FrontendNames(configs)
    decreases |configs|
  {
    if configs == [] {
    } else {
      AppliedAreNamed(env, ApplyOne(env, a, configs[0]).0, configs[1..]);
      assert configs == [configs[0]] + configs[1..];
      NamesOfCons(configs[0], configs[1..]);
    }
  }

  /** A removal of an owner that is not recorded does nothing and succeeds. That of a recorded one forgets the owner
      exactly if it succeeds, and it fails exactly if a started transaction is not committed for all it is told. */
  lemma RemoveOwnerExactly(env: Env, a: Api, listeners: map<string, seq<Listener>>, owner: string)
    ensures var r := RemoveOwner(env, a, listeners, owner);
      && (owner !in listeners ==> r.ok && r.api == a && r.listeners == listeners)
      && (owner in listeners ==>
            && r.api == RemoveEach(env, a, listeners[owner]).0
            && (r.ok <==> !SomeRemovalFails(env, a, listeners[owner]))
            && r.listeners == if r.ok then listeners - {owner} else listeners)
  {
    if owner in listeners { RemoveEachFailsExactly(env, a, listeners[owner]); }
  }

  /** The transaction of one of the listeners is started, by the two calls that takes, and its commit not answered. */
  predicate SomeRemovalFails(env: Env, a: Api, configs: seq<Listener>)
    decreases |configs|
  {
    configs != []
    && var started := env.outcome(a.calls) == Served && env.outcome(a.calls + 1) == Served;
       || (started && env.outcome(a.calls + 4) != Served)
       || SomeRemovalFails(env, RemoveOne(env, a, configs[0]).0, configs[1..])
  }

  lemma {:induction false} RemoveEachFailsExactly(env: Env, a: Api, configs: seq<Listener>)
    ensures RemoveEach(env, a, configs).1 <==> !SomeRemovalFails(env, a, configs)
    decreases |configs|
  {
    if configs == [] {
    } else {
      RemoveEachFailsExactly(env, RemoveOne(env, a, configs[0]).0, configs[1..]);
    }
  }

  /** The names that a removal deletes for good. */
  function RemovedNames(env: Env, a: Api, configs: seq<Listener>): set<string>
    decreases |configs|
  {
    if configs == [] then {}
    else
      var c := configs[0];
      var (a', p) := RemoveOne(env, a, c);
      (if StartTransaction(env, a).1 && TakesEffect(env.outcome(a.calls + 2)) && TakesEffect(env.outcome(a.calls + 4))
       then {FrontendName(c)} else {})
      + if p == CommitFailed then {} else RemovedNames(env, a', configs[1..])
  }

  lemma RemoveOneErases(env: Env, a: Api, c: Listener)
    ensures RemoveOne(env, a, c).0.committed.frontends
      == if StartTransaction(env, a).1 && TakesEffect(env.outcome(a.calls + 2)) && TakesEffect(env.outcome(a.calls + 4))
         then a.committed.frontends - {FrontendName(c)} else a.committed.frontends
  {
  }

  /** A listener's frontend is gone after a removal exactly when its transaction was started and both its deletion and
      the commit took effect. */
  lemma {:induction false} RemoveErases(env: Env, a: Api, configs: seq<Listener>)
    ensures RemoveEach(env, a, configs).0.committed.frontends == a.committed.frontends - RemovedNames(env, a, configs)
    decreases |configs|
  {
    if configs == [] {
      assert a.committed.frontends - {} == a.committed.frontends;
    } else {
      var (a1, p) := RemoveOne(env, a, configs[0]);
      RemoveOneErases(env, a, configs[0]);
      if p != CommitFailed {
        RemoveErases(env, a1, configs[1..]);
        ErasedOnTop(a.committed.frontends, a1.committed.frontends, FrontendName(configs[0]),
                    RemovedNames(env, a1, configs[1..]));
      }
    }
  }

  lemma ErasedOnTop<T>(m: map<string, T>, m1: map<string, T>, x: string, xs: set<string>)
    ensures m1 == m - {x} ==> m1 - xs == m - ({x} + xs)
    ensures m1 == m ==> m1 - xs == m - ({} + xs)
  {
  }

  // ---- when every call is served ----

  /** The configuration a listener asks for, written over `cfg`. */
  function Overlay1(cfg: Config, c: Listener): Config {
    var f, b := FrontendName(c), BackendName(c);
    Config(cfg.frontends[f := Frontend(b, BindsOf(cfg, f)[BIND := c.port])], cfg.pools[b := Desired(c.targets)])
  }

  function Overlay(cfg: Config, configs: seq<Listener>): Config
    decreases |configs|
  {
    if configs == [] then cfg else Overlay(Overlay1(cfg, configs[0]), configs[1..])
  }

  lemma ApplyOneServed(env: Env, a: Api, c: Listener)
    requires Lawful(env) && AllServed(env)
    ensures var (b, p) := ApplyOne(env, a, c); p == Applied && b.committed == Overlay1(a.committed, c)
  {
    var (a0, started) := StartTransaction(env, a);
    assert started;
    BackendEnsured(env, a0, BackendName(c));
    var (a1, ok1) := EnsureBackend(env, a0, BackendName(c));
    assert ok1;
    UpdateServersFate(env, a1, BackendName(c), c.targets);
    var (a2, ok2) := UpdateServers(env, a1, BackendName(c), c.targets);
    assert ok2;
    FrontendEnsured(env, a2, FrontendName(c), c.port, BackendName(c));
    var (a3, ok3) := EnsureFrontend(env, a2, FrontendName(c), c.port, BackendName(c));
    assert ok3;
    assert a3.tx.frontends == Overlay1(a.committed, c).frontends;
    assert a3.tx.pools == Overlay1(a.committed, c).pools;
  }

  lemma {:induction false} ApplyServed(env: Env, a: Api, configs: seq<Listener>)
    requires Lawful(env) && AllServed(env)
    ensures var (b, ok) := Apply(env, a, configs); ok && b.committed == Overlay(a.committed, configs)
    decreases |configs|
  {
    if configs == [] {
    } else {
      ApplyOneServed(env, a, configs[0]);
      ApplyServed(env, ApplyOne(env, a, configs[0]).0, configs[1..]);
    }
  }

  predicate DistinctListeners(configs: seq<Listener>) {
    forall i, j :: 0 <= i < j < |configs| ==> FrontendName(configs[i]) != FrontendName(configs[j])
  }

  lemma BackendNamesDiffer(c: Listener, d: Listener)
    ensures BackendName(c) == BackendName(d) <==> FrontendName(c) == FrontendName(d)
  {
    if BackendName(c) == BackendName(d) {
      assert FrontendName(c) == BackendName(c)[..|BackendName(c)| - 8];
      assert FrontendName(d) == BackendName(d)[..|BackendName(d)| - 8];
    }
  }

  /** The last listener with this frontend name. */
  function LastNamed(configs: seq<Listener>, f: string): Option<Listener> {
    if configs == [] then None
    else
      var later := LastNamed(configs[1..], f);
      if later.Some? then later else if FrontendName(configs[0]) == f then Some(configs[0]) else None
  }

  lemma {:induction false} LastNamedIsLast(configs: seq<Listener>, f: string)
    ensures f in FrontendNames(configs) <==> LastNamed(configs, f).Some?
    ensures LastNamed(configs, f).Some? ==>
      (var c := LastNamed(configs, f).value; c in configs && FrontendName(c) == f)
    decreases |configs|
  {
    if configs == [] {
    } else {
      assert configs == [configs[0]] + configs[1..];
      NamesOfCons(configs[0], configs[1..]);
      LastNamedIsLast(configs[1..], f);
    }
  }

  /** Overlay writes under its own names only. */
  lemma Overlay1Elsewhere(cfg: Config, c: Listener, f: string, b: string)
    requires f == FrontendName(c) && b == BackendName(c)
    ensures var cfg1 := Overlay1(cfg, c);
      cfg1.frontends - {f} == cfg.frontends - {f} && cfg1.pools - {b} == cfg.pools - {b}
  {
  }

  lemma {:induction false} OverlayElsewhere(cfg: Config, configs: seq<Listener>)
    ensures var cfg' := Overlay(cfg, configs);
      && cfg'.frontends - FrontendNames(configs) == cfg.frontends - FrontendNames(configs)
      && cfg'.pools - BackendNames(configs) == cfg.pools - BackendNames(configs)
    decreases |configs|
  {
    if configs == [] {
    } else {
      var c0, rest := configs[0], configs[1..];
      var cfg1, cfg' := Overlay1(cfg, c0), Overlay(cfg, configs);
      assert configs == [c0] + rest;
      NamesOfCons(c0, rest);
      Overlay1Elsewhere(cfg, c0, FrontendName(c0), BackendName(c0));
      OverlayElsewhere(cfg1, rest);
      SameElsewhere(cfg.frontends, cfg1.frontends, cfg'.frontends, {FrontendName(c0)}, FrontendNames(rest));
      SameElsewhere(cfg.pools, cfg1.pools, cfg'.pools, {BackendName(c0)}, BackendNames(rest));
    }
  }

  /** Under each of its frontend names Overlay writes what the last listener of that name asks for. */
  lemma {:induction false} OverlayAt(cfg: Config, configs: seq<Listener>, f: string)
    requires f in FrontendNames(configs)
    ensures LastNamed(configs, f).Some? && WrittenFor(cfg, Overlay(cfg, configs), LastNamed(configs, f).value)
    decreases |configs|
  {
    var c0, rest := configs[0], configs[1..];
    var cfg1 := Overlay1(cfg, c0);
    assert configs == [c0] + rest;
    NamesOfCons(c0, rest);
    LastNamedIsLast(rest, f);
    if f in FrontendNames(rest) {
      OverlayAt(cfg1, rest, f);
      WrittenOverFirst(cfg, c0, Overlay(cfg, configs), LastNamed(rest, f).value);
    } else {
      OverlayElsewhere(cfg1, rest);
      FirstStays(cfg1, Overlay(cfg, configs), c0, rest);
      assert WrittenFor(cfg, cfg1, c0);
    }
  }

  lemma WrittenOverFirst(cfg: Config, c0: Listener, cfg': Config, c: Listener)
    requires WrittenFor(Overlay1(cfg, c0), cfg', c)
    ensures WrittenFor(cfg, cfg', c)
  {
    var f := FrontendName(c);
    assert BindsOf(Overlay1(cfg, c0), f)[BIND := c.port] == BindsOf(cfg, f)[BIND := c.port];
  }

  lemma FirstStays(cfg1: Config, cfg': Config, c0: Listener, rest: seq<Listener>)
    requires FrontendName(c0) !in FrontendNames(rest)
    requires cfg'.frontends - FrontendNames(rest) == cfg1.frontends - FrontendNames(rest)
    requires cfg'.pools - BackendNames(rest) == cfg1.pools - BackendNames(rest)
    requires FrontendName(c0) in cfg1.frontends && BackendName(c0) in cfg1.pools
    ensures FrontendName(c0) in cfg'.frontends && cfg'.frontends[FrontendName(c0)] == cfg1.frontends[FrontendName(c0)]
    ensures BackendName(c0) in cfg'.pools && cfg'.pools[BackendName(c0)] == cfg1.pools[BackendName(c0)]
  {
    forall d ensures BackendName(d) == BackendName(c0) <==> FrontendName(d) == FrontendName(c0) {
      BackendNamesDiffer(d, c0);
    }
    assert BackendName(c0) !in BackendNames(rest);
    assert FrontendName(c0) in cfg1.frontends - FrontendNames(rest);
    assert BackendName(c0) in cfg1.pools - BackendNames(rest);
  }

  lemma {:induction false} DistinctLast(configs: seq<Listener>, c: Listener)
    requires DistinctListeners(configs) && c in configs
    ensures LastNamed(configs, FrontendName(c)) == Some(c)
    decreases |configs|
  {
    LastNamedIsLast(configs[1..], FrontendName(c));
    if c !in configs[1..] {
    } else {
      DistinctLast(configs[1..], c);
    }
  }

  /** With distinct names every listener gets what it asks for. */
  lemma OverlayWrites(cfg: Config, configs: seq<Listener>, c: Listener)
    requires DistinctListeners(configs) && c in configs
    ensures WrittenFor(cfg, Overlay(cfg, configs), c)
  {
    DistinctLast(configs, c);
    OverlayAt(cfg, configs, FrontendName(c));
  }

  /** Applying the same listeners twice is applying them once. */
  lemma OverlayTwice(cfg: Config, configs: seq<Listener>)
    ensures Overlay(Overlay(cfg, configs), configs) == Overlay(cfg, configs)
  {
    var once, twice := Overlay(cfg, configs), Overlay(Overlay(cfg, configs), configs);
    OverlayElsewhere(once, configs);
    forall f | f in FrontendNames(configs)
      ensures f in once.frontends && f in twice.frontends && once.frontends[f] == twice.frontends[f]
    {
      OverlayAt(cfg, configs, f);
      OverlayAt(once, configs, f);
      LastNamedIsLast(configs, f);
      var c := LastNamed(configs, f).value;
      assert BindsOf(once, f)[BIND := c.port] == BindsOf(once, f);
    }
    forall b | b in BackendNames(configs)
      ensures b in once.pools && b in twice.pools && once.pools[b] == twice.pools[b]
    {
      var d :| d in configs && BackendName(d) == b;
      OverlayAt(cfg, configs, FrontendName(d));
      OverlayAt(once, configs, FrontendName(d));
      LastNamedIsLast(configs, FrontendName(d));
      BackendNamesDiffer(LastNamed(configs, FrontendName(d)).value, d);
    }
    SameMaps(once.frontends, twice.frontends, FrontendNames(configs));
    SameMaps(once.pools, twice.pools, BackendNames(configs));
  }

  /** Listeners that ask for the same thing: their target lists may differ in order. */
  predicate SameRequests(xs: seq<Listener>, ys: seq<Listener>) {
    |xs| == |ys| && forall i :: 0 <= i < |xs| ==>
      xs[i].name == ys[i].name && xs[i].port == ys[i].port && Desired(xs[i].targets) == Desired(ys[i].targets)
  }

  lemma {:induction false} OverlaySameRequests(cfg: Config, xs: seq<Listener>, ys: seq<Listener>)
    requires SameRequests(xs, ys)
    ensures Overlay(cfg, xs) == Overlay(cfg, ys)
    decreases |xs|
  {
    if xs == [] {
    } else {
      assert Overlay1(cfg, xs[0]) == Overlay1(cfg, ys[0]);
      OverlaySameRequests(Overlay1(cfg, xs[0]), xs[1..], ys[1..]);
    }
  }

  function ServerOf(t: Target): Server {
    Server(t.address, t.port)
  }

  /** Targets that share a sanitized name stand for one server. */
  predicate OneServerPerName(targets: seq<Target>) {
    forall t, u :: t in targets && u in targets && SanitizeName(t.name) == SanitizeName(u.name) ==>
      ServerOf(t) == ServerOf(u)
  }

  /** The i-th target is the last with its sanitized name. */
  predicate IsLastTarget(targets: seq<Target>, i: int) {
    && 0 <= i < |targets|
    && forall j :: i < j < |targets| ==> SanitizeName(targets[j].name) != SanitizeName(targets[i].name)
  }

  /** The server asked for under a name is that of the last target with it; there are no other names. */
  lemma {:induction false} DesiredIsLast(targets: seq<Target>, i: int)
    ensures IsLastTarget(targets, i) ==>
      && SanitizeName(targets[i].name) in Desired(targets)
      && Desired(targets)[SanitizeName(targets[i].name)] == Server(targets[i].address, targets[i].port)
    ensures forall n :: n in Desired(targets) ==> exists t :: t in targets && SanitizeName(t.name) == n
    decreases |targets|
  {
    if targets == [] {
    } else {
      var init := targets[..|targets| - 1];
      DesiredIsLast(init, i);
      if IsLastTarget(targets, i) && i < |init| {
        assert SanitizeName(targets[|init|].name) != SanitizeName(targets[i].name);
        assert IsLastTarget(init, i) by { assert forall j :: 0 <= j < |init| ==> init[j] == targets[j]; }
      }
    }
  }

  lemma {:induction false} DesiredAt(targets: seq<Target>)
    requires OneServerPerName(targets)
    ensures Desired(targets).Keys == set t | t in targets :: SanitizeName(t.name)
    ensures forall t :: t in targets ==>
      SanitizeName(t.name) in Desired(targets) && Desired(targets)[SanitizeName(t.name)] == ServerOf(t)
    decreases |targets|
  {
    if targets == [] {
    } else {
      var init, last := targets[..|targets| - 1], targets[|targets| - 1];
      assert targets == init + [last];
      DesiredAt(init);
      assert forall t :: t in targets <==> t in init || t == last;
    }
  }

  lemma DesiredOrderFree(ts: seq<Target>, us: seq<Target>)
    requires OneServerPerName(ts) && forall t :: t in ts <==> t in us
    ensures Desired(ts) == Desired(us)
  {
    DesiredAt(ts);
    DesiredAt(us);
    assert Desired(ts).Keys == Desired(us).Keys;
    forall n | n in Desired(ts) ensures Desired(ts)[n] == Desired(us)[n] {
      var t :| t in ts && SanitizeName(t.name) == n;
      assert t in us;
    }
  }

  predicate WrittenFor(cfg: Config, cfg': Config, c: Listener) {
    var f, b := FrontendName(c), BackendName(c);
    && f in cfg'.frontends && b in cfg'.pools
    && cfg'.frontends[f] == Frontend(b, BindsOf(cfg, f)[BIND := c.port])
    && cfg'.pools[b] == Desired(c.targets)
  }

  /** Listeners with distinct names can be applied in any order. */
  lemma OverlayOrderFree(cfg: Config, xs: seq<Listener>, ys: seq<Listener>)
    requires DistinctListeners(xs) && DistinctListeners(ys)
    requires forall c :: c in xs <==> c in ys
    ensures Overlay(cfg, xs) == Overlay(cfg, ys)
  {
    OverlayElsewhere(cfg, xs);
    OverlayElsewhere(cfg, ys);
    var p, q := Overlay(cfg, xs), Overlay(cfg, ys);
    assert FrontendNames(xs) == FrontendNames(ys) && BackendNames(xs) == BackendNames(ys);
    forall f | f in FrontendNames(xs)
      ensures f in p.frontends && f in q.frontends && p.frontends[f] == q.frontends[f]
    {
      var c :| c in xs && FrontendName(c) == f;
      OverlayWrites(cfg, xs, c);
      OverlayWrites(cfg, ys, c);
    }
    forall b | b in BackendNames(xs) ensures b in p.pools && b in q.pools && p.pools[b] == q.pools[b] {
      var c :| c in xs && BackendName(c) == b;
      OverlayWrites(cfg, xs, c);
      OverlayWrites(cfg, ys, c);
    }
    SameMaps(p.frontends, q.frontends, FrontendNames(xs));
    SameMaps(p.pools, q.pools, BackendNames(xs));
  }

  lemma SameMaps<T>(m: map<string, T>, m': map<string, T>, xs: set<string>)
    requires m - xs == m' - xs
    requires forall x :: x in xs ==> (x in m <==> x in m') && (x in m ==> m[x] == m'[x])
    ensures m == m'
  {
    forall x ensures (x in m <==> x in m') && (x in m ==> m[x] == m'[x]) {
      assert x in m && x !in xs ==> x in m - xs;
      assert x in m' && x !in xs ==> x in m' - xs;
    }
  }

  function ListenersOf(listeners: map<string, seq<Listener>>, owners: seq<string>): seq<Listener> {
    if owners == [] then []
    else (if owners[0] in listeners then listeners[owners[0]] else []) + ListenersOf(listeners, owners[1..])
  }

  lemma {:induction false} OverlayAppend(cfg: Config, xs: seq<Listener>, ys: seq<Listener>)
    ensures Overlay(cfg, xs + ys) == Overlay(Overlay(cfg, xs), ys)
    decreases |xs|
  {
    if xs == [] {
      assert xs + ys == ys;
    } else {
      assert (xs + ys)[1..] == xs[1..] + ys;
      OverlayAppend(Overlay1(cfg, xs[0]), xs[1..], ys);
    }
  }

  lemma {:induction false} ApplyOwnersServed(env: Env, a: Api, listeners: map<string, seq<Listener>>,
                                             owners: seq<string>)
    requires Lawful(env) && AllServed(env)
    ensures ApplyOwners(env, a, listeners, owners).committed == Overlay(a.committed, ListenersOf(listeners, owners))
    decreases |owners|
  {
    if owners == [] {
    } else {
      var first := if owners[0] in listeners then listeners[owners[0]] else [];
      ApplyServed(env, a, first);
      var a' := if owners[0] in listeners then Apply(env, a, first).0 else a;
      assert a'.committed == Overlay(a.committed, first);
      ApplyOwnersServed(env, a', listeners, owners[1..]);
      OverlayAppend(a.committed, first, ListenersOf(listeners, owners[1..]));
    }
  }

  lemma {:induction false} ListenersOfMembers(listeners: map<string, seq<Listener>>, owners: seq<string>)
    ensures forall c :: c in ListenersOf(listeners, owners) <==>
      exists o :: o in owners && o in listeners && c in listeners[o]
    decreases |owners|
  {
    if owners == [] {
    } else {
      ListenersOfMembers(listeners, owners[1..]);
      assert forall o :: o in owners <==> o == owners[0] || o in owners[1..];
    }
  }

  /** Rebuild reaches one configuration, whatever the order of the owners: two environments that serve every
      call and list the owners differently agree, as long as listener names are distinct. */
  lemma RebuildOrderFree(env: Env, env': Env, a: Api, listeners: map<string, seq<Listener>>,
                         owners: seq<string>, owners': seq<string>)
    requires Lawful(env) && AllServed(env) && Lawful(env') && AllServed(env')
    requires forall o :: o in owners <==> o in owners'
    requires DistinctListeners(ListenersOf(listeners, owners)) && DistinctListeners(ListenersOf(listeners, owners'))
    ensures ApplyOwners(env, a, listeners, owners).committed == ApplyOwners(env', a, listeners, owners').committed
  {
    ApplyOwnersServed(env, a, listeners, owners);
    ApplyOwnersServed(env', a, listeners, owners');
    ListenersOfMembers(listeners, owners);
    ListenersOfMembers(listeners, owners');
    OverlayOrderFree(a.committed, ListenersOf(listeners, owners), ListenersOf(listeners, owners'));
  }

  // ---- removal ----

  function Erase(cfg: Config, configs: seq<Listener>): Config {
    Config(cfg.frontends - FrontendNames(configs), cfg.pools - BackendNames(configs))
  }

  lemma {:induction false} RemoveServed(env: Env, a: Api, configs: seq<Listener>)
    requires AllServed(env)
    ensures var (b, ok) := RemoveEach(env, a, configs); ok && b.committed == Erase(a.committed, configs)
    decreases |configs|
  {
    if configs == [] {
      assert a.committed == Erase(a.committed, configs);
    } else {
      var (a1, p) := RemoveOne(env, a, configs[0]);
      assert p == Applied;
      RemoveServed(env, a1, configs[1..]);
      assert configs == [configs[0]] + configs[1..];
      NamesOfCons(configs[0], configs[1..]);
      ErasedTwice(a.committed.frontends, FrontendName(configs[0]), FrontendNames(configs[1..]));
      ErasedTwice(a.committed.pools, BackendName(configs[0]), BackendNames(configs[1..]));
    }
  }

  lemma ErasedTwice<T>(m: map<string, T>, x: string, xs: set<string>)
    ensures m - {x} - xs == m - ({x} + xs)
  {
  }

  /** Removing an owner right after configuring it restores the store, when its names were not in use and calls
      succeed. */
  lemma RemoveUndoesConfigure(env: Env, a: Api, configs: seq<Listener>)
    requires Lawful(env) && AllServed(env) && DistinctListeners(configs)
    requires forall c :: c in configs ==>
        FrontendName(c) !in a.committed.frontends && BackendName(c) !in a.committed.pools
    ensures RemoveEach(env, Apply(env, a, configs).0, configs).0.committed == a.committed
  {
    ApplyServed(env, a, configs);
    RemoveServed(env, Apply(env, a, configs).0, configs);
    ErasedOverlay(a.committed, configs);
  }

  lemma ErasedOverlay(cfg: Config, configs: seq<Listener>)
    requires forall c :: c in configs ==> FrontendName(c) !in cfg.frontends && BackendName(c) !in cfg.pools
    ensures Erase(Overlay(cfg, configs), configs) == cfg
  {
    OverlayElsewhere(cfg, configs);
    var cfg' := Erase(Overlay(cfg, configs), configs);
    assert cfg'.frontends == cfg.frontends - FrontendNames(configs) == cfg.frontends;
    assert cfg'.pools == cfg.pools - BackendNames(configs) == cfg.pools;
  }

  /** Unlike Configure, removal can commit a frontend without its backend: exactly when the backend's deletion and
      the commit take effect while some frontend that stays still names it. */
  lemma RemoveMayDangle(env: Env, a: Api, c: Listener)
    requires NoDangling(a.committed)
    ensures var cfg := a.committed;
      var kept := if TakesEffect(env.outcome(a.calls + 2)) then cfg.frontends - {FrontendName(c)} else cfg.frontends;
      NoDangling(RemoveOne(env, a, c).0.committed) <==>
        !(&& StartTransaction(env, a).1
          && TakesEffect(env.outcome(a.calls + 3)) && TakesEffect(env.outcome(a.calls + 4))
          && exists f :: f in kept && kept[f].defaultBackend == BackendName(c))
  {
    var (a0, started) := StartTransaction(env, a);
    if started {
      var a1 := DeleteFrontend(env, a0, FrontendName(c));
      var a2 := DeleteBackend(env, a1, BackendName(c));
      var cfg' := RemoveOne(env, a, c).0.committed;
      assert cfg' == if TakesEffect(env.outcome(a.calls + 4)) then a2.tx else a.committed;
      if f :| f in a2.tx.frontends && a2.tx.frontends[f].defaultBackend == BackendName(c) {
        assert f in a2.tx.frontends;
      }
    }
  }
}
