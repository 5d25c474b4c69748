/** Getting a machine for a pod: the retry loop with its many ways to fail, and the machines it rents and destroys. */
module Provisioning {
  import opened Wrappers
  import VastAI

  // ---- what the outside world answers ----

  /** One call of the client's SelectAndProvisionMachine. */
  datatype Search = Search(sorted: seq<VastAI.BundleOffer>, now: int, tries: nat -> VastAI.Try)

  datatype MachineState = Pending | Active | Broken | Unknown

  /** What GetMachine answers about the machine it is asked for. */
  datatype Report = GetFailed | NotFound | InState(state: MachineState, stableId: int)

  /** How the wait's context ends if no report decides it. */
  datatype Ending = Deadline | Cancelled

  datatype Wait = MachineReady | MachineFailed | DeadlineExceeded | WaitCancelled

  datatype Setup =
    AgentTimeout | EnvVarsFailed | ConfigMapsFailed | WireproxyFailed | PromtailFailed | CommandFailed | CommandStarted

  /** All that can happen in one attempt, and whether the context has ended when the next one would start. */
  datatype Attempt = Attempt(restarted: bool, searches: seq<Search>, reports: seq<Report>, ending: Ending,
                             setup: Setup, banTime: int, cancelled: bool)

  /** `destroyed(n)`: whether a destroy call that is the n-th call of the log succeeds. */
  datatype Config = Config(maxRetries: nat, supportsBans: bool, banDuration: int, priceMax: Option<real>,
                           destroyed: nat -> bool)

  /** The calls that change something at the cloud provider. */
  datatype Call =
    | Rent(id: int, stableId: int, now: int)
    | Restart(held: Option<int>, ok: bool)
    | Destroy(id: int, ok: bool)
    | Ban(banned: Option<int>, at: int)

  /** The recorded machine by rental and by stable id (None for the empty string), and the log of calls. */
  datatype State = State(machine: Option<int>, stable: Option<int>, completed: bool, restartOnly: bool,
                         lifecycle: bool, bans: map<int, int>, calls: seq<Call>)

  // ---- steps as values ----

  function Cleanup(cfg: Config, s: State): State {
    if !s.completed && s.machine.Some? then
      s.(machine := None, stable := None, calls := s.calls + [Destroy(s.machine.value, cfg.destroyed(|s.calls|))])
    else s
  }

  datatype Rental = Rental(id: int, stableId: int, now: int)

  function SearchOnce(cfg: Config, bans: map<int, int>, search: Search): Option<Rental> {
    var es := VastAI.EligibleOffers(search.sorted, cfg.priceMax, bans, cfg.banDuration, search.now);
    var r := VastAI.Provision(VastAI.OfferIds(es), search.tries).0;
    var chosen := VastAI.Chosen(es, search.tries);
    if r.Ok? && chosen.Some? then Some(Rental(r.value, chosen.value.machineId, search.now)) else None
  }

  /** Searches are repeated until one rents or the context ends. */
  function Select(cfg: Config, bans: map<int, int>, searches: seq<Search>): Option<Rental> {
    if searches == [] then None
    else
      var first := SearchOnce(cfg, bans, searches[0]);
      if first.Some? then first else Select(cfg, bans, searches[1..])
  }

  /** The first report of a running or failed machine decides; other reports are retried. */
  function WaitOutcome(reports: seq<Report>, ending: Ending): Wait {
    if reports == [] then (if ending == Deadline then DeadlineExceeded else WaitCancelled)
    else match reports[0]
      case InState(Active, _) => MachineReady
      case InState(Broken, _) => MachineFailed
      case _ => WaitOutcome(reports[1..], ending)
  }

  /** The stable id known after the wait: the last one reported. */
  function StableAfter(reports: seq<Report>, stable: Option<int>): Option<int> {
    if reports == [] then stable
    else match reports[0]
      case InState(state, id) =>
        if state == Active || state == Broken then Some(id) else StableAfter(reports[1..], Some(id))
      case _ => StableAfter(reports[1..], stable)
  }

  /** Restart the machine at hand, or rent one; with it, whether the attempt goes on. */
  function Begin(cfg: Config, s: State, a: Attempt): (State, bool) {
    if s.restartOnly then
      (s.(completed := false, restartOnly := a.restarted, calls := s.calls + [Restart(s.machine, a.restarted)]),
       a.restarted)
    else
      var s1 := Cleanup(cfg, s);
      match Select(cfg, s1.bans, a.searches)
      case None => (s1, false)
      case Some(r) =>
        (s1.(machine := Some(r.id), stable := None, calls := s1.calls + [Rent(r.id, r.stableId, r.now)]), true)
  }

  function Banned(cfg: Config, s: State, now: int): State {
    if !cfg.supportsBans then s
    else s.(bans := if s.stable.Some? then s.bans[s.stable.value := now] else s.bans,
            calls := s.calls + [Ban(s.stable, now)])
  }

  function AwaitMachine(cfg: Config, s: State, a: Attempt): (State, bool) {
    var w, s1 := WaitOutcome(a.reports, a.ending), s.(stable := StableAfter(a.reports, s.stable));
    if w == MachineReady then (s1, true)
    else if w == WaitCancelled then (Cleanup(cfg, s1), false)
    else (Cleanup(cfg, Banned(cfg, s1, a.banTime).(restartOnly := false)), false)
  }

  /** One attempt. A failed set-up keeps the machine for the next attempt or the final clean-up. */
  function TryOnce(cfg: Config, s: State, a: Attempt): (State, bool) {
    var (s1, begun) := Begin(cfg, s, a);
    if begun then WaitAndStart(cfg, s1, a) else (s1, false)
  }

  function WaitAndStart(cfg: Config, s: State, a: Attempt): (State, bool) {
    var (s1, ready) := AwaitMachine(cfg, s, a);
    if !ready then (s1, false)
    else if a.setup == CommandStarted then (s1.(lifecycle := true), true)
    else (s1, false)
  }

  /** Whether the context has ended when the attempt is over: selecting and waiting give up otherwise only then. */
  predicate Over(cfg: Config, s: State, a: Attempt) {
    || a.cancelled
    || (!s.restartOnly && Select(cfg, Cleanup(cfg, s).bans, a.searches).None?)
    || (Begin(cfg, s, a).1 && WaitOutcome(a.reports, a.ending) == WaitCancelled)
  }

  /** The outcome of the retry loop, the number of attempts made, and whether the context ended it. */
  datatype Retried = Retried(state: State, ok: bool, made: nat, over: bool)

  /** The retry loop: the first attempt is always made. */
  function Retry(cfg: Config, s: State, script: seq<Attempt>): Retried
    requires script != []
    decreases |script|
  {
    var (s1, ok) := TryOnce(cfg, s, script[0]);
    if ok || Over(cfg, s, script[0]) || |script| == 1 then Retried(s1, ok, 1, Over(cfg, s, script[0]))
    else
      var r := Retry(cfg, s1, script[1..]);
      r.(made := r.made + 1)
  }

  /** `made` attempts of the script are over and led to `s`. */
  predicate Underway(cfg: Config, first: State, script: seq<Attempt>, made: nat, s: State) {
    made < |script|
    && (var rest := Retry(cfg, s, script[made..]); Retry(cfg, first, script) == rest.(made := rest.made + made))
  }

  lemma UnderwayStep(cfg: Config, first: State, script: seq<Attempt>, made: nat, s: State)
    requires Underway(cfg, first, script, made, s)
    ensures var (s1, ok) := TryOnce(cfg, s, script[made]);
      var over := Over(cfg, s, script[made]);
      if ok || over || made + 1 == |script| then Retry(cfg, first, script) == Retried(s1, ok, made + 1, over)
      else Underway(cfg, first, script, made + 1, s1)
  {
    var rest := script[made..];
    assert rest[0] == script[made];
    assert made + 1 < |script| ==> rest[1..] == script[made + 1..];
  }

  function Initialize(cfg: Config, s: State, script: seq<Attempt>): Retried
    requires script != []
  {
    var r := Retry(cfg, s, script);
    r.(state := Cleanup(cfg, if r.ok then r.state.(completed := true) else r.state))
  }

  // ---- the class ----

  class Provisioner {
    const cfg: Config
    var machine: Option<int>
    var stable: Option<int>
    var completed: bool
    var restartOnly: bool
    var lifecycle: bool
    var bans: map<int, int>
    var calls: seq<Call>

    function Value(): State
      reads this
    {
      State(machine, stable, completed, restartOnly, lifecycle, bans, calls)
    }

    constructor (cfg: Config, s: State)
      ensures this.cfg == cfg && Value() == s
    {
      this.cfg := cfg;
      machine, stable, completed, restartOnly := s.machine, s.stable, s.completed, s.restartOnly;
      lifecycle, bans, calls := s.lifecycle, s.bans, s.calls;
    }

    method MachineCleanup()
      modifies this`machine, this`stable, this`calls
      ensures Value() == Cleanup(cfg, old(Value()))
    {
      if !completed {
        if machine.Some? {
          calls := calls + [Destroy(machine.value, cfg.destroyed(|calls|))];
          machine, stable := None, None;
        }
      }
    }

    method SelectAndProvisionMachine(searches: seq<Search>) returns (r: Option<Rental>)
      ensures r == Select(cfg, bans, searches)
    {
      for i := 0 to |searches|
        invariant Select(cfg, bans, searches[i..]) == Select(cfg, bans, searches)
      {
        r := SearchOnce(cfg, bans, searches[i]);
        if r.Some? { return; }
      }
      return None;
    }

    method WaitForMachineReady(reports: seq<Report>, ending: Ending) returns (w: Wait)
      modifies this`stable
      ensures w == WaitOutcome(reports, ending)
      ensures Value() == old(Value()).(stable := StableAfter(reports, old(stable)))
    {
      for i := 0 to |reports|
        invariant WaitOutcome(reports[i..], ending) == WaitOutcome(reports, ending)
        invariant StableAfter(reports[i..], stable) == StableAfter(reports, old(stable))
      {
        if reports[i].InState? {
          stable := Some(reports[i].stableId);
          if reports[i].state == Active { return MachineReady; }
          if reports[i].state == Broken { return MachineFailed; }
        }
      }
      return if ending == Deadline then DeadlineExceeded else WaitCancelled;
    }

    /** The operation that is retried. */
    method RunAttempt(a: Attempt) returns (ok: bool)
      modifies this
      ensures (Value(), ok) == TryOnce(cfg, old(Value()), a)
    {
      var begun := RestartOrRent(a);
      if !begun { return false; }
      var ready := AwaitMachineReady(a);
      if !ready { return false; }
      if a.setup != CommandStarted { return false; }
      lifecycle := true;
      return true;
    }

    method RestartOrRent(a: Attempt) returns (begun: bool)
      modifies this
      ensures (Value(), begun) == Begin(cfg, old(Value()), a)
    {
      if restartOnly {
        completed := false;
        calls := calls + [Restart(machine, a.restarted)];
        if !a.restarted {
          restartOnly := false;
          return false;
        }
      } else {
        if machine.Some? {
          MachineCleanup();
        }
        var rental := SelectAndProvisionMachine(a.searches);
        if rental.None? { return false; }
        machine, stable := Some(rental.value.id), None;
        calls := calls + [Rent(rental.value.id, rental.value.stableId, rental.value.now)];
      }
      return true;
    }

    method AwaitMachineReady(a: Attempt) returns (ready: bool)
      modifies this
      ensures (Value(), ready) == AwaitMachine(cfg, old(Value()), a)
    {
      var w := WaitForMachineReady(a.reports, a.ending);
      if w != MachineReady {
        if w == MachineFailed || w == DeadlineExceeded {
          if cfg.supportsBans {
            if stable.Some? { bans := bans[stable.value := a.banTime]; }
            calls := calls + [Ban(stable, a.banTime)];
          }
          restartOnly := false;
        }
        MachineCleanup();
        return false;
      }
      return true;
    }

    method InitializeVirtualPod(script: seq<Attempt>) returns (ok: bool, made: nat)
      requires |script| == cfg.maxRetries + 1
      modifies this
      ensures var r := Initialize(cfg, old(Value()), script);
        Value() == r.state && ok == r.ok && made == r.made
    {
      made := 0;
      ghost var first := old(Value());
      assert script[0..] == script;
      while true
        invariant Underway(cfg, first, script, made, Value())
        decreases |script| - made
      {
        var a := script[made];
        var over := Over(cfg, Value(), a);
        UnderwayStep(cfg, first, script, made, Value());
        ok := RunAttempt(a);
        made := made + 1;
        if ok || over || cfg.maxRetries < made { break; }
      }
      if ok {
        completed := true;
      }
      MachineCleanup();
    }
  }

  // ---- the log of calls ----

  /** What is held after a call if `held` is held before; None for a call that must not be made then. */
  function HeldAfter(held: Option<int>, c: Call): Option<Option<int>> {
    match c
    case Rent(id, _, _) => if held.None? then Some(Some(id)) else None
    case Restart(h, _) => if h == held && held.Some? then Some(held) else None
    case Destroy(id, _) => if held == Some(id) then Some(None) else None
    case Ban(_, _) => Some(held)
  }

  /** The log as an automaton: rent only with empty hands, restart and destroy only the machine at hand. */
  function Holding(start: Option<int>, calls: seq<Call>): Option<Option<int>> {
    if calls == [] then Some(start)
    else
      var before := Holding(start, calls[..|calls| - 1]);
      if before.None? then None else HeldAfter(before.value, calls[|calls| - 1])
  }

  lemma HoldingStep(start: Option<int>, calls: seq<Call>, c: Call)
    ensures Holding(start, calls + [c]) ==
      var before := Holding(start, calls); if before.None? then None else HeldAfter(before.value, c)
  {
    assert (calls + [c])[..|calls|] == calls;
  }

  /** The recorded machine is the one at hand; there is one to restart, and no rental while provisioning is complete. */
  predicate Tracked(start: Option<int>, s: State) {
    && Holding(start, s.calls) == Some(s.machine)
    && (s.restartOnly ==> s.machine.Some?)
    && (!s.restartOnly ==> !s.completed)
  }

  lemma CleanupTracked(cfg: Config, start: Option<int>, s: State)
    requires Holding(start, s.calls) == Some(s.machine)
    ensures var s' := Cleanup(cfg, s);
      && Holding(start, s'.calls) == Some(s'.machine)
      && (!s.completed ==> s'.machine.None?)
  {
    if s.machine.Some? {
      HoldingStep(start, s.calls, Destroy(s.machine.value, cfg.destroyed(|s.calls|)));
    }
  }

  lemma BeginTracked(cfg: Config, start: Option<int>, s: State, a: Attempt)
    requires Tracked(start, s)
    ensures var (s', begun) := Begin(cfg, s, a);
      && Holding(start, s'.calls) == Some(s'.machine) && !s'.completed
      && (begun ==> s'.machine.Some?) && (s'.restartOnly ==> begun)
  {
    if s.restartOnly {
      HoldingStep(start, s.calls, Restart(s.machine, a.restarted));
    } else {
      CleanupTracked(cfg, start, s);
      var s1 := Cleanup(cfg, s);
      var r := Select(cfg, s1.bans, a.searches);
      if r.Some? { HoldingStep(start, s1.calls, Rent(r.value.id, r.value.stableId, r.value.now)); }
    }
  }

  lemma AwaitTracked(cfg: Config, start: Option<int>, s: State, a: Attempt)
    requires Holding(start, s.calls) == Some(s.machine) && !s.completed && s.machine.Some?
    ensures var (s', ready) := AwaitMachine(cfg, s, a);
      && Holding(start, s'.calls) == Some(s'.machine) && !s'.completed
      && (ready <==> s'.machine.Some?)
      && (s'.restartOnly && !ready ==> WaitOutcome(a.reports, a.ending) == WaitCancelled)
  {
    var w, s1 := WaitOutcome(a.reports, a.ending), s.(stable := StableAfter(a.reports, s.stable));
    if w == MachineReady {
    } else if w == WaitCancelled {
      CleanupTracked(cfg, start, s1);
    } else {
      BannedTracked(cfg, start, s1, a.banTime);
    }
  }

  /** A wait that fails bans the machine and cleans up. */
  lemma BannedTracked(cfg: Config, start: Option<int>, s: State, now: int)
    requires Holding(start, s.calls) == Some(s.machine) && !s.completed
    ensures var s' := Cleanup(cfg, Banned(cfg, s, now).(restartOnly := false));
      Holding(start, s'.calls) == Some(s'.machine) && s'.machine.None? && !s'.completed && !s'.restartOnly
  {
    HoldingStep(start, s.calls, Ban(s.stable, now));
    CleanupTracked(cfg, start, Banned(cfg, s, now).(restartOnly := false));
  }

  /** An attempt keeps track whatever fails; unless the context ended, the next attempt finds what it needs. */
  lemma TryOnceTracked(cfg: Config, start: Option<int>, s: State, a: Attempt)
    requires Tracked(start, s)
    ensures var (s', ok) := TryOnce(cfg, s, a);
      && Holding(start, s'.calls) == Some(s'.machine) && !s'.completed
      && (ok ==> s'.machine.Some? && s'.lifecycle)
      && (!ok && !Over(cfg, s, a) ==> Tracked(start, s'))
  {
    BeginTracked(cfg, start, s, a);
    var (s1, begun) := Begin(cfg, s, a);
    if begun {
      WaitAndStartTracked(cfg, start, s1, a);
    }
  }

  lemma WaitAndStartTracked(cfg: Config, start: Option<int>, s: State, a: Attempt)
    requires Holding(start, s.calls) == Some(s.machine) && !s.completed && s.machine.Some?
    ensures var (s', ok) := WaitAndStart(cfg, s, a);
      && Holding(start, s'.calls) == Some(s'.machine) && !s'.completed
      && (ok ==> s'.machine.Some? && s'.lifecycle)
      && (s'.restartOnly && !ok && WaitOutcome(a.reports, a.ending) != WaitCancelled ==> s'.machine.Some?)
  {
    AwaitTracked(cfg, start, s, a);
  }

  lemma {:induction false} RetryTracked(cfg: Config, start: Option<int>, s: State, script: seq<Attempt>)
    requires Tracked(start, s) && script != []
    ensures var r := Retry(cfg, s, script);
      && Holding(start, r.state.calls) == Some(r.state.machine) && !r.state.completed
      && (r.ok ==> r.state.machine.Some?)
      && 1 <= r.made <= |script|
      && (r.ok || r.over || r.made == |script|)
    decreases |script|
  {
    TryOnceTracked(cfg, start, s, script[0]);
    var (s1, ok) := TryOnce(cfg, s, script[0]);
    if ok || Over(cfg, s, script[0]) || |script| == 1 {
    } else {
      RetryTracked(cfg, start, s1, script[1..]);
    }
  }

  /** For every script of outcomes and both ways in: at most MaxRetries + 1 attempts, fewer only after success or
      when the context ended; never a second rental while a
      machine is held; one machine is held at the end of a success, and none, with every rented machine asked to be
      destroyed, at the end of a failure. */
  lemma InitializeTracked(cfg: Config, start: Option<int>, s: State, script: seq<Attempt>)
    requires Tracked(start, s) && |script| == cfg.maxRetries + 1
    ensures var r := Initialize(cfg, s, script);
      && Holding(start, r.state.calls) == Some(r.state.machine)
      && r.state.completed == r.ok == r.state.machine.Some?
      && 1 <= r.made <= cfg.maxRetries + 1
      && (r.ok || r.over || r.made == cfg.maxRetries + 1)
  {
    RetryTracked(cfg, start, s, script);
    var r := Retry(cfg, s, script);
    CleanupTracked(cfg, start, if r.ok then r.state.(completed := true) else r.state);
  }

  // ---- machines rented at the provider ----

  function SetOf(held: Option<int>): set<int> {
    if held.Some? then {held.value} else {}
  }

  /** The machines rented after the log, if `start` are before. */
  function RentedBy(start: set<int>, calls: seq<Call>): set<int> {
    if calls == [] then start
    else
      var before := RentedBy(start, calls[..|calls| - 1]);
      match calls[|calls| - 1]
      case Rent(id, _, _) => before + {id}
      case Destroy(id, true) => before - {id}
      case _ => before
  }

  /** The machines a destroy call of the log failed for. */
  function Undestroyed(calls: seq<Call>): set<int> {
    set i | 0 <= i < |calls| && calls[i].Destroy? && !calls[i].ok :: calls[i].id
  }

  /** Rental ids are never used twice, nor is the first machine's. */
  predicate FreshRentals(start: Option<int>, calls: seq<Call>) {
    && (forall i, j :: 0 <= i < j < |calls| && calls[i].Rent? && calls[j].Rent? ==> calls[i].id != calls[j].id)
    && (forall i :: 0 <= i < |calls| && calls[i].Rent? ==> start != Some(calls[i].id))
  }

  predicate Seen(start: Option<int>, calls: seq<Call>, id: int) {
    start == Some(id) || exists i :: 0 <= i < |calls| && calls[i].Rent? && calls[i].id == id
  }

  lemma UndestroyedStep(calls: seq<Call>, c: Call)
    ensures Undestroyed(calls + [c]) == Undestroyed(calls) + (if c.Destroy? && !c.ok then {c.id} else {})
  {
    var all := calls + [c];
    forall x | x in Undestroyed(calls) ensures x in Undestroyed(all) {
      var i :| 0 <= i < |calls| && calls[i].Destroy? && !calls[i].ok && calls[i].id == x;
      assert all[i] == calls[i];
    }
    if c.Destroy? && !c.ok { assert all[|calls|].id in Undestroyed(all); }
  }

  lemma SeenStep(start: Option<int>, calls: seq<Call>, c: Call, id: int)
    ensures Seen(start, calls, id) ==> Seen(start, calls + [c], id)
    ensures c.Rent? && c.id == id ==> Seen(start, calls + [c], id)
  {
    var all := calls + [c];
    if i :| 0 <= i < |calls| && calls[i].Rent? && calls[i].id == id {
      assert all[i] == calls[i];
    }
    assert all[|calls|] == c;
  }

  lemma SeenStays(start: Option<int>, calls: seq<Call>, c: Call)
    ensures forall x :: Seen(start, calls, x) ==> Seen(start, calls + [c], x)
    ensures c.Rent? ==> Seen(start, calls + [c], c.id)
  {
    forall x ensures Seen(start, calls, x) ==> Seen(start, calls + [c], x) { SeenStep(start, calls, c, x); }
    if c.Rent? { SeenStep(start, calls, c, c.id); }
  }

  /** A log that rents with empty hands only: what is rented is the machine at hand and the undestroyed ones. */
  lemma {:induction false} RentedIsHeldOrUndestroyed(start: Option<int>, calls: seq<Call>)
    requires Holding(start, calls).Some? && FreshRentals(start, calls)
    ensures var held := Holding(start, calls).value;
      && RentedBy(SetOf(start), calls) == SetOf(held) + Undestroyed(calls)
      && (held.Some? ==> Seen(start, calls, held.value) && held.value !in Undestroyed(calls))
      && (forall x :: x in Undestroyed(calls) ==> Seen(start, calls, x))
    decreases |calls|
  {
    if calls == [] {
    } else {
      var init, c := calls[..|calls| - 1], calls[|calls| - 1];
      assert calls == init + [c];
      RentedIsHeldOrUndestroyed(start, init);
      UndestroyedStep(init, c);
      SeenStays(start, init, c);
      assert c.Rent? ==> !Seen(start, init, c.id);
    }
  }

  predicate AllDestroyed(calls: seq<Call>) {
    forall i :: 0 <= i < |calls| && calls[i].Destroy? ==> calls[i].ok
  }

  lemma {:induction false} HoldingPrefix(start: Option<int>, calls: seq<Call>, k: nat)
    requires k <= |calls| && Holding(start, calls).Some?
    ensures Holding(start, calls[..k]).Some?
    decreases |calls|
  {
    if k == |calls| {
      assert calls[..k] == calls;
    } else {
      assert calls[..|calls| - 1][..k] == calls[..k];
      HoldingPrefix(start, calls[..|calls| - 1], k);
    }
  }

  /** With destroy calls that succeed, at every moment of a run at most one machine is rented: the one at hand. */
  lemma OneMachineAtATime(start: Option<int>, calls: seq<Call>, k: nat)
    requires Holding(start, calls).Some? && FreshRentals(start, calls) && AllDestroyed(calls) && k <= |calls|
    ensures Holding(start, calls[..k]).Some?
    ensures RentedBy(SetOf(start), calls[..k]) == SetOf(Holding(start, calls[..k]).value)
    ensures |RentedBy(SetOf(start), calls[..k])| <= 1
  {
    HoldingPrefix(start, calls, k);
    RentedIsHeldOrUndestroyed(start, calls[..k]);
    assert Undestroyed(calls[..k]) == {};
  }

  /** Conservation over a whole provisioning run that starts with an empty log. */
  lemma ProvisioningConserves(cfg: Config, s: State, script: seq<Attempt>)
    requires Tracked(s.machine, s) && s.calls == [] && |script| == cfg.maxRetries + 1
    requires FreshRentals(s.machine, Initialize(cfg, s, script).state.calls)
    ensures var r := Initialize(cfg, s, script);
      var rented := RentedBy(SetOf(s.machine), r.state.calls);
      && rented == SetOf(r.state.machine) + Undestroyed(r.state.calls)
      && (AllDestroyed(r.state.calls) ==> |rented| == if r.ok then 1 else 0)
      && (AllDestroyed(r.state.calls) ==> forall k :: 0 <= k <= |r.state.calls| ==>
            |RentedBy(SetOf(s.machine), r.state.calls[..k])| <= 1)
  {
    InitializeTracked(cfg, s.machine, s, script);
    var calls := Initialize(cfg, s, script).state.calls;
    RentedIsHeldOrUndestroyed(s.machine, calls);
    if AllDestroyed(calls) {
      assert Undestroyed(calls) == {};
      forall k | 0 <= k <= |calls| ensures |RentedBy(SetOf(s.machine), calls[..k])| <= 1 {
        OneMachineAtATime(s.machine, calls, k);
      }
    }
  }

  // ---- bans ----

  function BansOf(bans: map<int, int>, calls: seq<Call>): map<int, int> {
    if calls == [] then bans
    else
      var before := BansOf(bans, calls[..|calls| - 1]);
      match calls[|calls| - 1]
      case Ban(Some(x), at) => before[x := at]
      case _ => before
  }

  lemma BansStep(bans: map<int, int>, calls: seq<Call>, c: Call)
    ensures BansOf(bans, calls + [c])
         == if c.Ban? && c.banned.Some? then BansOf(bans, calls)[c.banned.value := c.at] else BansOf(bans, calls)
  {
    assert (calls + [c])[..|calls|] == calls;
  }

  /** Every rental was of a stable id not banned at that time. */
  ghost predicate RentsUnbanned(cfg: Config, bans: map<int, int>, calls: seq<Call>) {
    forall l :: 0 <= l < |calls| && calls[l].Rent? ==>
      VastAI.Unbanned(BansOf(bans, calls[..l]), cfg.banDuration, calls[l].now, calls[l].stableId)
  }

  ghost predicate BansKept(cfg: Config, bans: map<int, int>, s: State) {
    s.bans == BansOf(bans, s.calls) && RentsUnbanned(cfg, bans, s.calls)
  }

  lemma RentsUnbannedStep(cfg: Config, bans: map<int, int>, calls: seq<Call>, c: Call)
    requires RentsUnbanned(cfg, bans, calls)
    requires c.Rent? ==> VastAI.Unbanned(BansOf(bans, calls), cfg.banDuration, c.now, c.stableId)
    ensures RentsUnbanned(cfg, bans, calls + [c])
  {
    var all := calls + [c];
    forall l | 0 <= l < |all| && all[l].Rent?
      ensures VastAI.Unbanned(BansOf(bans, all[..l]), cfg.banDuration, all[l].now, all[l].stableId)
    {
      assert all[..l] == calls[..l];
      assert calls[..|calls|] == calls;
    }
  }

  lemma {:induction false} SelectedUnbanned(cfg: Config, bans: map<int, int>, searches: seq<Search>)
    ensures var r := Select(cfg, bans, searches);
      r.Some? ==> VastAI.Unbanned(bans, cfg.banDuration, r.value.now, r.value.stableId)
    decreases |searches|
  {
    if searches == [] {
    } else {
      var search := searches[0];
      if SearchOnce(cfg, bans, search).Some? {
        var es := VastAI.EligibleOffers(search.sorted, cfg.priceMax, bans, cfg.banDuration, search.now);
        VastAI.EligibleMembers(search.sorted, cfg.priceMax, bans, cfg.banDuration, search.now);
        assert VastAI.Chosen(es, search.tries).value in es;
      } else {
        SelectedUnbanned(cfg, bans, searches[1..]);
      }
    }
  }

  lemma CleanupKeepsBans(cfg: Config, bans: map<int, int>, s: State)
    requires BansKept(cfg, bans, s)
    ensures BansKept(cfg, bans, Cleanup(cfg, s))
  {
    if !s.completed && s.machine.Some? {
      var c := Destroy(s.machine.value, cfg.destroyed(|s.calls|));
      BansStep(bans, s.calls, c);
      RentsUnbannedStep(cfg, bans, s.calls, c);
    }
  }

  lemma BeginKeepsBans(cfg: Config, bans: map<int, int>, s: State, a: Attempt)
    requires BansKept(cfg, bans, s)
    ensures BansKept(cfg, bans, Begin(cfg, s, a).0)
  {
    if s.restartOnly {
      BansStep(bans, s.calls, Restart(s.machine, a.restarted));
      RentsUnbannedStep(cfg, bans, s.calls, Restart(s.machine, a.restarted));
    } else {
      CleanupKeepsBans(cfg, bans, s);
      var s1 := Cleanup(cfg, s);
      var r := Select(cfg, s1.bans, a.searches);
      SelectedUnbanned(cfg, s1.bans, a.searches);
      if r.Some? {
        var c := Rent(r.value.id, r.value.stableId, r.value.now);
        BansStep(bans, s1.calls, c);
        RentsUnbannedStep(cfg, bans, s1.calls, c);
      }
    }
  }

  lemma AwaitKeepsBans(cfg: Config, bans: map<int, int>, s: State, a: Attempt)
    requires BansKept(cfg, bans, s)
    ensures BansKept(cfg, bans, AwaitMachine(cfg, s, a).0)
  {
    var s1 := s.(stable := StableAfter(a.reports, s.stable));
    var c := Ban(s1.stable, a.banTime);
    BansStep(bans, s1.calls, c);
    RentsUnbannedStep(cfg, bans, s1.calls, c);
    CleanupKeepsBans(cfg, bans, s1);
    CleanupKeepsBans(cfg, bans, Banned(cfg, s1, a.banTime).(restartOnly := false));
  }

  lemma {:induction false} RetryKeepsBans(cfg: Config, bans: map<int, int>, s: State, script: seq<Attempt>)
    requires BansKept(cfg, bans, s) && script != []
    ensures BansKept(cfg, bans, Retry(cfg, s, script).state)
    decreases |script|
  {
    var (s0, begun) := Begin(cfg, s, script[0]);
    BeginKeepsBans(cfg, bans, s, script[0]);
    if begun { AwaitKeepsBans(cfg, bans, s0, script[0]); }
    var (s1, ok) := TryOnce(cfg, s, script[0]);
    assert BansKept(cfg, bans, s1);
    if ok || Over(cfg, s, script[0]) || |script| == 1 {
    } else {
      RetryKeepsBans(cfg, bans, s1, script[1..]);
    }
  }

  /** In one provisioning run a machine is not rented again after it was banned, unless its ban has run out. */
  lemma BannedIsNotRentedAgain(cfg: Config, s: State, script: seq<Attempt>, k: nat, l: nat)
    requires s.calls == [] && script != []
    requires var calls := Initialize(cfg, s, script).state.calls;
      && k < l < |calls| && calls[k].Ban? && calls[k].banned.Some?
      && calls[l].Rent? && calls[l].stableId == calls[k].banned.value
    ensures var calls := Initialize(cfg, s, script).state.calls;
      var bans := BansOf(s.bans, calls[..l]);
      && calls[l].stableId in bans && cfg.banDuration > 0 && calls[l].now - bans[calls[l].stableId] > cfg.banDuration
  {
    RetryKeepsBans(cfg, s.bans, s, script);
    var r := Retry(cfg, s, script);
    CleanupKeepsBans(cfg, s.bans, if r.ok then r.state.(completed := true) else r.state);
    var calls := Initialize(cfg, s, script).state.calls;
    BanIsRemembered(s.bans, calls[..l], k);
  }

  lemma {:induction false} BanIsRemembered(bans: map<int, int>, calls: seq<Call>, k: nat)
    requires k < |calls| && calls[k].Ban? && calls[k].banned.Some?
    ensures calls[k].banned.value in BansOf(bans, calls)
    decreases |calls|
  {
    if k == |calls| - 1 {
    } else {
      BanIsRemembered(bans, calls[..|calls| - 1], k);
    }
  }
}
