/** HAProxy's Data Plane API as a transactional store whose calls may fail, and the calls the
    gateway's manager makes on it. */
module HAProxy {
  import opened Names

  // ---- the remote store ----

  datatype Server = Server(address: string, port: int)

  datatype Frontend = Frontend(defaultBackend: string, binds: map<string, int>)

  datatype Config = Config(frontends: map<string, Frontend>, pools: map<string, map<string, Server>>)

  /** What becomes of one call: answered; refused with no effect; lost before it took effect; or lost after. */
  datatype Outcome = Served | Rejected | Dropped | Unacked

  /** The world around a run: what becomes of the n-th call, and the order in which the members of a
      set are listed when that call is next to be made. */
  datatype Env = Env(outcome: nat -> Outcome, order: (nat, set<string>) -> seq<string>)

  ghost predicate Lawful(env: Env) {
    forall t: nat, s: set<string>, x: string :: x in env.order(t, s) <==> x in s
  }

  /** `calls` counts the calls made; a transaction is a copy of the committed configuration. */
  datatype Api = Api(committed: Config, tx: Config, calls: nat)

  predicate TakesEffect(o: Outcome) {
    o == Served || o == Unacked
  }

  predicate NoReply(o: Outcome) {
    o == Dropped || o == Unacked
  }

  /** No frontend refers to a backend that is not there. */
  predicate NoDangling(cfg: Config) {
    forall f :: f in cfg.frontends ==> cfg.frontends[f].defaultBackend in cfg.pools
  }

  // ---- the manager's requests ----

  datatype Target = Target(name: string, address: string, port: int)

  datatype Listener = Listener(name: string, port: int, targets: seq<Target>)

  const BIND := "bind_1"

  function FrontendName(c: Listener): string {
    SanitizeName(c.name)
  }

  function BackendName(c: Listener): string {
    SanitizeName(c.name) + "-backend"
  }

  /** The server set asked for; among targets with one sanitized name the last one counts. */
  function Desired(targets: seq<Target>): map<string, Server> {
    if targets == [] then map[]
    else
      var last := targets[|targets| - 1];
      Desired(targets[..|targets| - 1])[SanitizeName(last.name) := Server(last.address, last.port)]
  }

  function StartTransaction(env: Env, a: Api): (Api, bool) {
    if env.outcome(a.calls) != Served then (a.(calls := a.calls + 1), false)
    else if env.outcome(a.calls + 1) != Served then (a.(calls := a.calls + 2), false)
    else (Api(a.committed, a.committed, a.calls + 2), true)
  }

  function Commit(env: Env, a: Api): (Api, bool) {
    var o := env.outcome(a.calls);
    (Api(if TakesEffect(o) then a.tx else a.committed, a.tx, a.calls + 1), o == Served)
  }

  function DeleteTransaction(a: Api): Api {
    a.(calls := a.calls + 1)
  }

  /** Looks the backend up and creates it if the lookup did not find it; a refused lookup counts as absent. */
  function EnsureBackend(env: Env, a: Api, name: string): (Api, bool) {
    var get, post := env.outcome(a.calls), env.outcome(a.calls + 1);
    var found := name in a.tx.pools;
    if NoReply(get) then (a.(calls := a.calls + 1), false)
    else if get == Served && found then (a.(calls := a.calls + 1), true)
    else
      (a.(tx := if TakesEffect(post) && !found then a.tx.(pools := a.tx.pools[name := map[]]) else a.tx,
          calls := a.calls + 2),
       post == Served && !found)
  }

  function SetBind(cfg: Config, frontend: string, port: int): Config
    requires frontend in cfg.frontends
  {
    var f := cfg.frontends[frontend];
    cfg.(frontends := cfg.frontends[frontend := f.(binds := f.binds[BIND := port])])
  }

  function EnsureBind(env: Env, a: Api, frontend: string, port: int): (Api, bool)
    requires frontend in a.tx.frontends
  {
    var get, put := env.outcome(a.calls), env.outcome(a.calls + 1);
    var binds := a.tx.frontends[frontend].binds;
    if NoReply(get) then (a.(calls := a.calls + 1), false)
    else if get == Served && BIND in binds then
      if binds[BIND] == port then (a.(calls := a.calls + 1), true)
      else
        (a.(tx := if TakesEffect(put) then SetBind(a.tx, frontend, port) else a.tx, calls := a.calls + 2),
         put == Served)
    else
      (a.(tx := if TakesEffect(put) && BIND !in binds then SetBind(a.tx, frontend, port) else a.tx,
          calls := a.calls + 2),
       put == Served && BIND !in binds)
  }

  function EnsureFrontend(env: Env, a: Api, name: string, port: int, backend: string): (Api, bool) {
    var get := env.outcome(a.calls);
    if NoReply(get) then (a.(calls := a.calls + 1), false)
    else if get == Served && name in a.tx.frontends then
      var (b, bound) := EnsureBind(env, a.(calls := a.calls + 1), name, port);
      if !bound then (b, false)
      else
        var put := env.outcome(b.calls);
        var f := b.tx.frontends[name].(defaultBackend := backend);
        (b.(tx := if TakesEffect(put) then b.tx.(frontends := b.tx.frontends[name := f]) else b.tx,
            calls := b.calls + 1),
         put == Served)
    else
      var post := env.outcome(a.calls + 1);
      if post == Served && name !in a.tx.frontends then
        EnsureBind(env,
          a.(tx := a.tx.(frontends := a.tx.frontends[name := Frontend(backend, map[])]), calls := a.calls + 2),
          name, port)
      else
        (a.(tx := if TakesEffect(post) && name !in a.tx.frontends
                  then a.tx.(frontends := a.tx.frontends[name := Frontend(backend, map[])]) else a.tx,
            calls := a.calls + 2), false)
  }

  // ---- the server loops; failed server calls are only logged ----

  function DeleteServers(env: Env, pool: map<string, Server>, names: seq<string>,
                         desired: map<string, Server>, calls: nat): (map<string, Server>, nat) {
    if names == [] then (pool, calls)
    else if names[0] in desired then DeleteServers(env, pool, names[1..], desired, calls)
    else DeleteServers(env, if TakesEffect(env.outcome(calls)) then pool - {names[0]} else pool,
                       names[1..], desired, calls + 1)
  }

  /** PUT for a name that was listed, POST otherwise; PUT needs the server to exist and POST that it does not. */
  function UpsertServers(env: Env, pool: map<string, Server>, names: seq<string>, listed: seq<string>,
                         desired: map<string, Server>, calls: nat): (map<string, Server>, nat)
    requires forall n :: n in names ==> n in desired
    decreases |names|
  {
    if names == [] then (pool, calls)
    else
      var n := names[0];
      var pool' := if TakesEffect(env.outcome(calls)) && (n in listed <==> n in pool)
                   then pool[n := desired[n]] else pool;
      UpsertServers(env, pool', names[1..], listed, desired, calls + 1)
  }

  function Listed(env: Env, a: Api, backend: string): seq<string>
    requires backend in a.tx.pools
  {
    if env.outcome(a.calls) == Served then env.order(a.calls, a.tx.pools[backend].Keys) else []
  }

  /** The names the second loop ranges over, in the order of the map iteration. */
  function Ranged(env: Env, calls: nat, desired: map<string, Server>): (names: seq<string>)
    ensures forall n :: n in names ==> n in desired
  {
    KeepOnly(env.order(calls, desired.Keys), desired.Keys)
  }

  function KeepOnly(names: seq<string>, keys: set<string>): (r: seq<string>)
    ensures forall n :: n in r <==> n in names && n in keys
  {
    if names == [] then []
    else (if names[0] in keys then [names[0]] else []) + KeepOnly(names[1..], keys)
  }

  function UpdateServers(env: Env, a: Api, backend: string, targets: seq<Target>): (Api, bool)
    requires backend in a.tx.pools
  {
    if NoReply(env.outcome(a.calls)) then (a.(calls := a.calls + 1), false)
    else
      var listed, desired := Listed(env, a, backend), Desired(targets);
      var (pool, calls) := DeleteServers(env, a.tx.pools[backend], listed, desired, a.calls + 1);
      var (pool', calls') := UpsertServers(env, pool, Ranged(env, calls, desired), listed, desired, calls);
      (a.(tx := a.tx.(pools := a.tx.pools[backend := pool']), calls := calls'), true)
  }

  datatype Progress = Applied | Skipped | CommitFailed

  lemma BackendEnsured(env: Env, a: Api, name: string)
    ensures var (b, ok) := EnsureBackend(env, a, name);
      ok ==> && name in b.tx.pools
             && b.committed == a.committed && b.tx.frontends == a.tx.frontends
             && b.tx.pools == if name in a.tx.pools then a.tx.pools else a.tx.pools[name := map[]]
  {
  }

  /** One listener: a transaction that is committed only when every step but the server calls succeeded. */
  function ApplyOne(env: Env, a: Api, c: Listener): (Api, Progress) {
    var (a0, started) := StartTransaction(env, a);
    if !started then (a0, Skipped)
    else
      var (a1, backendOk) := EnsureBackend(env, a0, BackendName(c));
      if !backendOk then (DeleteTransaction(a1), Skipped)
      else
        var (a2, serversOk) := UpdateServers(env, a1, BackendName(c), c.targets);
        if !serversOk then (DeleteTransaction(a2), Skipped)
        else
          var (a3, frontendOk) := EnsureFrontend(env, a2, FrontendName(c), c.port, BackendName(c));
          if !frontendOk then (DeleteTransaction(a3), Skipped)
          else
            var (a4, committed) := Commit(env, a3);
            if committed then (a4, Applied) else (DeleteTransaction(a4), CommitFailed)
  }

  /** All listeners in turn; a failed commit ends the run with an error, any other failure skips the listener. */
  function Apply(env: Env, a: Api, configs: seq<Listener>): (Api, bool)
    decreases |configs|
  {
    if configs == [] then (a, true)
    else
      var (a', p) := ApplyOne(env, a, configs[0]);
      if p == CommitFailed then (a', false) else Apply(env, a', configs[1..])
  }

  /** A delete's failure is only logged. */
  function DeleteFrontend(env: Env, a: Api, name: string): Api {
    a.(tx := if TakesEffect(env.outcome(a.calls)) then a.tx.(frontends := a.tx.frontends - {name}) else a.tx,
       calls := a.calls + 1)
  }

  function DeleteBackend(env: Env, a: Api, name: string): Api {
    a.(tx := if TakesEffect(env.outcome(a.calls)) then a.tx.(pools := a.tx.pools - {name}) else a.tx,
       calls := a.calls + 1)
  }

  function RemoveOne(env: Env, a: Api, c: Listener): (Api, Progress) {
    var (a0, started) := StartTransaction(env, a);
    if !started then (a0, Skipped)
    else
      var a1 := DeleteFrontend(env, a0, FrontendName(c));
      var a2 := DeleteBackend(env, a1, BackendName(c));
      var (a3, committed) := Commit(env, a2);
      if committed then (a3, Applied) else (DeleteTransaction(a3), CommitFailed)
  }

  function RemoveEach(env: Env, a: Api, configs: seq<Listener>): (Api, bool)
    decreases |configs|
  {
    if configs == [] then (a, true)
    else
      var (a', p) := RemoveOne(env, a, configs[0]);
      if p == CommitFailed then (a', false) else RemoveEach(env, a', configs[1..])
  }

  /** Remove: nothing to do for an unknown owner; the owner stays recorded when a commit fails. */
  function RemoveOwner(env: Env, a: Api, listeners: map<string, seq<Listener>>, owner: string): Removal {
    if owner !in listeners then Removal(a, listeners, true)
    else
      var (a', ok) := RemoveEach(env, a, listeners[owner]);
      Removal(a', if ok then listeners - {owner} else listeners, ok)
  }

  datatype Removal = Removal(api: Api, listeners: map<string, seq<Listener>>, ok: bool)

  /** Rebuild goes on to the next owner when one owner's configuration fails. */
  function ApplyOwners(env: Env, a: Api, listeners: map<string, seq<Listener>>, owners: seq<string>): Api
    decreases |owners|
  {
    if owners == [] then a
    else
      var a' := if owners[0] in listeners then Apply(env, a, listeners[owners[0]]).0 else a;
      ApplyOwners(env, a', listeners, owners[1..])
  }

  // ---- the class ----

  class Manager {
    const env: Env
    var api: Api
    var listeners: map<string, seq<Listener>> // owner key -> listener configurations

    constructor (env: Env, api: Api)
      ensures this.env == env && this.api == api && listeners == map[]
    {
      this.env := env;
      this.api := api;
      listeners := map[];
    }

    method Configure(ownerKey: string, configs: seq<Listener>) returns (ok: bool)
      modifies this
      ensures listeners == old(listeners)[ownerKey := configs]
      ensures (api, ok) == Apply(env, old(api), configs)
    {
      listeners := listeners[ownerKey := configs];
      ok := ApplyConfiguration(configs);
    }

    method Remove(ownerKey: string) returns (ok: bool)
      modifies this
      ensures var r := RemoveOwner(env, old(api), old(listeners), ownerKey);
        api == r.api && listeners == r.listeners && ok == r.ok
    {
      if ownerKey !in listeners { return true; }
      ok := RemoveConfiguration(listeners[ownerKey]);
      if ok {
        listeners := listeners - {ownerKey};
      }
    }

    method Rebuild()
      modifies this
      ensures listeners == old(listeners)
      ensures api == ApplyOwners(env, old(api), listeners, env.order(old(api).calls, listeners.Keys))
    {
      var owners := env.order(api.calls, listeners.Keys);
      for i := 0 to |owners|
        invariant listeners == old(listeners)
        invariant ApplyOwners(env, api, listeners, owners[i..]) == ApplyOwners(env, old(api), listeners, owners)
      {
        if owners[i] in listeners {
          var _ := ApplyConfiguration(listeners[owners[i]]);
        }
      }
    }

    method ApplyConfiguration(configs: seq<Listener>) returns (ok: bool)
      modifies this`api
      ensures (api, ok) == Apply(env, old(api), configs)
    {
      for i := 0 to |configs|
        invariant Apply(env, api, configs[i..]) == Apply(env, old(api), configs)
      {
        var c := configs[i];
        assert configs[i..][0] == c && configs[i..][1..] == configs[i + 1..];
        ghost var expected := ApplyOne(env, api, c);

        var started := StartTransaction(env, api);
        api := started.0;
        if !started.1 { continue; }

        var backend := EnsureBackend(env, api, BackendName(c));
        api := backend.0;
        if !backend.1 { api := DeleteTransaction(api); continue; }

        var serversOk := UpdateBackendServers(BackendName(c), c.targets);
        if !serversOk { api := DeleteTransaction(api); continue; }

        var frontend := EnsureFrontend(env, api, FrontendName(c), c.port, BackendName(c));
        api := frontend.0;
        if !frontend.1 { api := DeleteTransaction(api); continue; }

        var committed := Commit(env, api);
        api := committed.0;
        if !committed.1 {
          api := DeleteTransaction(api);
          assert (api, CommitFailed) == expected;
          return false;
        }
        assert (api, Applied) == expected;
      }
      return true;
    }

    method UpdateBackendServers(backendName: string, targets: seq<Target>) returns (ok: bool)
      requires backendName in api.tx.pools
      modifies this`api
      ensures (api, ok) == UpdateServers(env, old(api), backendName, targets)
    {
      if NoReply(env.outcome(api.calls)) {
        api := api.(calls := api.calls + 1);
        return false;
      }
      var existing := Listed(env, api, backendName);
      var pool := api.tx.pools[backendName];
      var calls: nat := api.calls + 1;

      var desired := map[];
      for i := 0 to |targets|
        invariant desired == Desired(targets[..i])
      {
        assert targets[..i + 1][..i] == targets[..i];
        desired := desired[SanitizeName(targets[i].name) := Server(targets[i].address, targets[i].port)];
      }
      assert targets[..|targets|] == targets;

      for i := 0 to |existing|
        invariant DeleteServers(env, pool, existing[i..], desired, calls)
               == DeleteServers(env, api.tx.pools[backendName], existing, desired, api.calls + 1)
      {
        if existing[i] !in desired {
          if TakesEffect(env.outcome(calls)) { pool := pool - {existing[i]}; }
          calls := calls + 1;
        }
      }

      var names := Ranged(env, calls, desired);
      ghost var pool0, calls0 := pool, calls;
      for i := 0 to |names|
        invariant UpsertServers(env, pool, names[i..], existing, desired, calls)
               == UpsertServers(env, pool0, names, existing, desired, calls0)
      {
        var n := names[i];
        var found := n in existing;
        if TakesEffect(env.outcome(calls)) && (if found then n in pool else n !in pool) {
          pool := pool[n := desired[n]];
        }
        calls := calls + 1;
      }

      api := api.(tx := api.tx.(pools := api.tx.pools[backendName := pool]), calls := calls);
      return true;
    }

    method RemoveConfiguration(configs: seq<Listener>) returns (ok: bool)
      modifies this`api
      ensures (api, ok) == RemoveEach(env, old(api), configs)
    {
      for i := 0 to |configs|
        invariant RemoveEach(env, api, configs[i..]) == RemoveEach(env, old(api), configs)
      {
        var c := configs[i];
        assert configs[i..][0] == c && configs[i..][1..] == configs[i + 1..];

        var started := StartTransaction(env, api);
        api := started.0;
        if !started.1 { continue; }

        api := DeleteFrontend(env, api, FrontendName(c));
        api := DeleteBackend(env, api, BackendName(c));

        var committed := Commit(env, api);
        api := committed.0;
        if !committed.1 {
          api := DeleteTransaction(api);
          return false;
        }
      }
      return true;
    }
  }
}
