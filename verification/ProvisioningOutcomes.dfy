/** How a provisioning run ends, in terms of what the provider and the agent answered. */
module ProvisioningOutcomes {
  import opened Wrappers
  import opened Provisioning
  import VastAI

  // ---- the wait ----

  predicate IsDecisive(report: Report) {
    report.InState? && (report.state == Active || report.state == Broken)
  }

  /** The i-th report is the first of a running or failed machine, and says which. */
  predicate Decides(reports: seq<Report>, i: int, state: MachineState) {
    && 0 <= i < |reports| && reports[i].InState? && reports[i].state == state
    && forall j :: 0 <= j < i ==> !IsDecisive(reports[j])
  }

  ghost predicate DecidedAs(reports: seq<Report>, state: MachineState) {
    exists i :: Decides(reports, i, state)
  }

  /** The machine is ready exactly if the first deciding report finds it running, failed if it finds it failed; without
      a deciding report the wait ends as its context does. */
  lemma {:induction false} WaitExactly(reports: seq<Report>, ending: Ending)
    ensures var w := WaitOutcome(reports, ending);
      && (w == MachineReady <==> DecidedAs(reports, Active))
      && (w == MachineFailed <==> DecidedAs(reports, Broken))
      && (w == DeadlineExceeded
          <==> !DecidedAs(reports, Active) && !DecidedAs(reports, Broken) && ending == Deadline)
      && (w == WaitCancelled
          <==> !DecidedAs(reports, Active) && !DecidedAs(reports, Broken) && ending == Cancelled)
    decreases |reports|
  {
    if reports == [] {
    } else if IsDecisive(reports[0]) {
      assert Decides(reports, 0, reports[0].state);
    } else {
      WaitExactly(reports[1..], ending);
      LaterDecides(reports, Active);
      LaterDecides(reports, Broken);
    }
  }

  lemma LaterDecides(reports: seq<Report>, state: MachineState)
    requires reports != [] && !IsDecisive(reports[0]) && (state == Active || state == Broken)
    ensures DecidedAs(reports, state) <==> DecidedAs(reports[1..], state)
  {
    if i :| Decides(reports, i, state) {
      assert Decides(reports[1..], i - 1, state);
    }
    if i :| Decides(reports[1..], i, state) {
      forall j | 0 <= j < i + 1 ensures !IsDecisive(reports[j]) {
        assert j > 0 ==> reports[j] == reports[1..][j - 1];
      }
      assert Decides(reports, i + 1, state);
    }
  }

  /** The last report heard of the machine: the deciding one, or else the last that found it at all. */
  predicate LastHeard(reports: seq<Report>, i: int) {
    && 0 <= i < |reports| && reports[i].InState?
    && (forall j :: 0 <= j < i ==> !IsDecisive(reports[j]))
    && (IsDecisive(reports[i]) || forall j :: i < j < |reports| ==> !reports[j].InState?)
  }

  lemma {:induction false} StableIsLastHeard(reports: seq<Report>, stable: Option<int>, i: int)
    ensures LastHeard(reports, i) ==> StableAfter(reports, stable) == Some(reports[i].stableId)
    ensures (forall j :: 0 <= j < |reports| ==> !reports[j].InState?) ==> StableAfter(reports, stable) == stable
    decreases |reports|
  {
    if reports == [] {
    } else {
      var known := if reports[0].InState? then Some(reports[0].stableId) else stable;
      StableIsLastHeard(reports[1..], known, i - 1);
      if i == 0 {
        assert LastHeard(reports, i) && !IsDecisive(reports[0]) ==>
          forall j :: 0 <= j < |reports[1..]| ==> reports[1..][j] == reports[j + 1] && !reports[1..][j].InState?;
      } else {
        assert LastHeard(reports, i) ==> LastHeard(reports[1..], i - 1);
      }
    }
  }

  // ---- the search ----

  /** Rented from the i-th offer that may be rented: it granted the contract, and the cheaper ones before it refused. */
  predicate RentsFrom(es: seq<VastAI.BundleOffer>, search: Search, i: nat, r: Rental) {
    && i < |es| && r == Rental(r.id, es[i].machineId, search.now)
    && search.tries(i) == VastAI.Try(false, VastAI.Granted(r.id))
    && forall j: nat :: j < i ==> !search.tries(j).cancelled && VastAI.Refuses(search.tries(j).answer)
  }

  ghost predicate SearchRents(cfg: Config, bans: map<int, int>, search: Search, r: Rental) {
    exists i: nat ::
      RentsFrom(VastAI.EligibleOffers(search.sorted, cfg.priceMax, bans, cfg.banDuration, search.now), search, i, r)
  }

  lemma {:induction false} StopsWhereGranted(ids: seq<int>, tries: nat -> VastAI.Try, i: nat, contract: int, k: nat)
    requires k <= i < |ids| && tries(i) == VastAI.Try(false, VastAI.Granted(contract))
    requires forall j: nat :: j < i ==> !tries(j).cancelled && VastAI.Refuses(tries(j).answer)
    ensures VastAI.ProvisionFrom(ids, tries, k) == (Ok(contract), i + 1)
    decreases i - k
  {
    if k < i { StopsWhereGranted(ids, tries, i, contract, k + 1); }
  }

  lemma SearchExactly(cfg: Config, bans: map<int, int>, search: Search, r: Rental)
    ensures SearchOnce(cfg, bans, search) == Some(r) <==> SearchRents(cfg, bans, search, r)
  {
    var es := VastAI.EligibleOffers(search.sorted, cfg.priceMax, bans, cfg.banDuration, search.now);
    var (outcome, n) := VastAI.Provision(VastAI.OfferIds(es), search.tries);
    if es != [] {
      assert VastAI.OfferIds(es) != [];
      VastAI.ProvisionFromStops(VastAI.OfferIds(es), search.tries, 0);
    }
    if SearchOnce(cfg, bans, search) == Some(r) {
      assert RentsFrom(es, search, n - 1, r);
    }
    if i: nat :| RentsFrom(es, search, i, r) {
      StopsWhereGranted(VastAI.OfferIds(es), search.tries, i, r.id, 0);
    }
  }

  /** The search by which a machine is rented: the first that rents one. */
  ghost predicate FirstRents(cfg: Config, bans: map<int, int>, searches: seq<Search>, k: int, r: Rental) {
    && 0 <= k < |searches| && SearchRents(cfg, bans, searches[k], r)
    && forall j, r' :: 0 <= j < k ==> !SearchRents(cfg, bans, searches[j], r')
  }

  ghost predicate SomeSearchRents(cfg: Config, bans: map<int, int>, searches: seq<Search>, r: Rental) {
    exists k :: FirstRents(cfg, bans, searches, k, r)
  }

  lemma {:induction false} SelectExactly(cfg: Config, bans: map<int, int>, searches: seq<Search>, r: Rental)
    ensures Select(cfg, bans, searches) == Some(r) <==> SomeSearchRents(cfg, bans, searches, r)
    decreases |searches|
  {
    if searches == [] {
    } else {
      forall r' ensures SearchOnce(cfg, bans, searches[0]) == Some(r') <==> SearchRents(cfg, bans, searches[0], r') {
        SearchExactly(cfg, bans, searches[0], r');
      }
      SelectExactly(cfg, bans, searches[1..], r);
      if SearchOnce(cfg, bans, searches[0]).Some? {
        FirstSearchRents(cfg, bans, searches, SearchOnce(cfg, bans, searches[0]).value, r);
      } else {
        LaterSearchRents(cfg, bans, searches, r);
      }
    }
  }

  lemma FirstSearchRents(cfg: Config, bans: map<int, int>, searches: seq<Search>, first: Rental, r: Rental)
    requires searches != [] && SearchRents(cfg, bans, searches[0], first)
    requires SearchRents(cfg, bans, searches[0], r) ==> r == first
    ensures SomeSearchRents(cfg, bans, searches, r) <==> r == first
  {
    assert FirstRents(cfg, bans, searches, 0, first);
  }

  lemma LaterSearchRents(cfg: Config, bans: map<int, int>, searches: seq<Search>, r: Rental)
    requires searches != [] && forall r' :: !SearchRents(cfg, bans, searches[0], r')
    ensures SomeSearchRents(cfg, bans, searches, r) <==> SomeSearchRents(cfg, bans, searches[1..], r)
  {
    if k :| FirstRents(cfg, bans, searches, k, r) {
      assert FirstRents(cfg, bans, searches[1..], k - 1, r);
    }
    if k :| FirstRents(cfg, bans, searches[1..], k, r) {
      forall j, r' | 0 <= j < k + 1 ensures !SearchRents(cfg, bans, searches[j], r') {
        assert j > 0 ==> searches[j] == searches[1..][j - 1];
      }
      assert FirstRents(cfg, bans, searches, k + 1, r);
    }
  }

  // ---- one attempt ----

  /** The calls of a clean-up, as the n-th of the log: one, if a machine is held. */
  function Destroyed(cfg: Config, machine: Option<int>, n: nat): seq<Call> {
    if machine.Some? then [Destroy(machine.value, cfg.destroyed(n))] else []
  }

  /** What a wait does with a machine that is not set up yet. A ready one is kept; a failed one and one that takes too
      long are banned under the stable id heard last, and destroyed; when the context ends, it is only destroyed. */
  lemma AwaitExactly(cfg: Config, s: State, a: Attempt)
    requires !s.completed
    ensures var (s', ready) := AwaitMachine(cfg, s, a);
      var stable := StableAfter(a.reports, s.stable);
      && (ready <==> DecidedAs(a.reports, Active))
      && (ready ==> s' == s.(stable := stable))
      && (!ready ==> s'.machine.None?)
      && (!ready && (DecidedAs(a.reports, Broken) || a.ending == Deadline) ==>
            && !s'.restartOnly
            && (cfg.supportsBans ==>
                  && s'.bans == (if stable.Some? then s.bans[stable.value := a.banTime] else s.bans)
                  && s'.calls == s.calls + [Ban(stable, a.banTime)] + Destroyed(cfg, s.machine, |s.calls| + 1))
            && (!cfg.supportsBans ==>
                  s'.bans == s.bans && s'.calls == s.calls + Destroyed(cfg, s.machine, |s.calls|)))
      && (!ready && !DecidedAs(a.reports, Broken) && a.ending == Cancelled ==>
            && s'.restartOnly == s.restartOnly && s'.bans == s.bans
            && s'.calls == s.calls + Destroyed(cfg, s.machine, |s.calls|))
  {
    WaitExactly(a.reports, a.ending);
    assert s.calls + [] == s.calls;
    var banned := s.calls + [Ban(StableAfter(a.reports, s.stable), a.banTime)];
    assert banned + [] == banned;
  }

  /** In particular a machine reported failed is banned under the id of that very report, and no other report bans. */
  lemma FailureBansWhatWasReported(cfg: Config, s: State, a: Attempt, i: int)
    requires cfg.supportsBans
    ensures Decides(a.reports, i, Broken) ==>
      AwaitMachine(cfg, s, a).0.bans == s.bans[a.reports[i].stableId := a.banTime]
    ensures Decides(a.reports, i, Active) ==> AwaitMachine(cfg, s, a).0.bans == s.bans
    ensures (forall j, state :: IsEnd(state) ==> !Decides(a.reports, j, state)) && LastHeard(a.reports, i) ==>
      AwaitMachine(cfg, s, a).0.bans
      == if a.ending == Deadline then s.bans[a.reports[i].stableId := a.banTime] else s.bans
  {
    WaitExactly(a.reports, a.ending);
    StableIsLastHeard(a.reports, s.stable, i);
  }

  predicate IsEnd(state: MachineState) {
    state == Active || state == Broken
  }

  /** The attempt has a machine to wait for: the one at hand was restarted, or one was rented. */
  ghost predicate Begun(cfg: Config, s: State, a: Attempt) {
    if s.restartOnly then a.restarted else exists r :: SomeSearchRents(cfg, s.bans, a.searches, r)
  }

  /** It came up running and its command was started. */
  ghost predicate Succeeds(cfg: Config, s: State, a: Attempt) {
    Begun(cfg, s, a) && DecidedAs(a.reports, Active) && a.setup == CommandStarted
  }

  /** The context ended: after the attempt, in the search, or in the wait. */
  ghost predicate ContextEnds(cfg: Config, s: State, a: Attempt) {
    || a.cancelled
    || (!s.restartOnly && !Begun(cfg, s, a))
    || (Begun(cfg, s, a) && !DecidedAs(a.reports, Active) && !DecidedAs(a.reports, Broken) && a.ending == Cancelled)
  }

  lemma BegunExactly(cfg: Config, s: State, a: Attempt)
    ensures Begin(cfg, s, a).1 <==> Begun(cfg, s, a)
    ensures !s.restartOnly ==> (Select(cfg, Cleanup(cfg, s).bans, a.searches).Some? <==> Begun(cfg, s, a))
  {
    var selected := Select(cfg, s.bans, a.searches);
    forall r ensures selected == Some(r) <==> SomeSearchRents(cfg, s.bans, a.searches, r) {
      SelectExactly(cfg, s.bans, a.searches, r);
    }
    assert Cleanup(cfg, s).bans == s.bans;
    if selected.Some? { assert SomeSearchRents(cfg, s.bans, a.searches, selected.value); }
  }

  /** An attempt succeeds exactly then, and the retries end early, besides, exactly when the context ended. Success
      starts the lifecycle loop and holds the machine that was restarted or rented; the log says which. A failed restart
      is not tried again, and a machine whose set-up fails is kept. */
  lemma AttemptExactly(cfg: Config, s: State, a: Attempt)
    requires !s.completed || s.restartOnly
    ensures var (s', ok) := TryOnce(cfg, s, a);
      && (ok <==> Succeeds(cfg, s, a)) && (Over(cfg, s, a) <==> ContextEnds(cfg, s, a))
      && (ok ==> s'.lifecycle && s'.stable == StableAfter(a.reports, if s.restartOnly then s.stable else None))
      && (ok && s.restartOnly ==> s'.machine == s.machine && s'.calls == s.calls + [Restart(s.machine, true)])
      && (ok && !s.restartOnly ==>
            exists r :: && SomeSearchRents(cfg, s.bans, a.searches, r) && s'.machine == Some(r.id)
                        && s'.calls == s.calls + Destroyed(cfg, s.machine, |s.calls|)
                                       + [Rent(r.id, r.stableId, r.now)])
      && (!Begun(cfg, s, a) && s.restartOnly ==>
            s' == s.(completed := false, restartOnly := false, calls := s.calls + [Restart(s.machine, false)]))
      && (!Begun(cfg, s, a) && !s.restartOnly ==>
            && s'.machine.None? && !s'.restartOnly && s'.bans == s.bans
            && s'.calls == s.calls + Destroyed(cfg, s.machine, |s.calls|))
      && (Begun(cfg, s, a) && DecidedAs(a.reports, Active) && a.setup != CommandStarted ==>
            && s'.lifecycle == s.lifecycle && s'.restartOnly == s.restartOnly
            && (s'.machine.Some? <==> !s.restartOnly || s.machine.Some?))
  {
    BegunExactly(cfg, s, a);
    WaitExactly(a.reports, a.ending);
    if !s.restartOnly && Begun(cfg, s, a) {
      var r := Select(cfg, s.bans, a.searches).value;
      SelectExactly(cfg, s.bans, a.searches, r);
      assert s.calls + [] == s.calls;
      assert SomeSearchRents(cfg, s.bans, a.searches, r);
    }
  }

  // ---- the retries ----

  /** The state after the first attempts of the script. */
  function After(cfg: Config, s: State, script: seq<Attempt>, made: nat): State
    requires made <= |script|
    decreases |script|
  {
    if made == 0 then s else After(cfg, TryOnce(cfg, s, script[0]).0, script[1..], made - 1)
  }

  /** The attempt neither succeeded nor was it the last. */
  predicate IsRetried(cfg: Config, s: State, a: Attempt) {
    !TryOnce(cfg, s, a).1 && !Over(cfg, s, a)
  }

  predicate AllRetried(cfg: Config, s: State, script: seq<Attempt>, made: nat)
    requires made <= |script|
  {
    forall m: nat :: m < made ==> IsRetried(cfg, After(cfg, s, script, m), script[m])
  }

  predicate RetriedTo(cfg: Config, s: State, script: seq<Attempt>, r: Retried) {
    && 1 <= r.made <= |script| && AllRetried(cfg, s, script, r.made - 1)
    && var last, a := After(cfg, s, script, r.made - 1), script[r.made - 1];
       && (r.state, r.ok) == TryOnce(cfg, last, a) && r.over == Over(cfg, last, a)
       && (r.ok || r.over || r.made == |script|)
  }

  lemma NextAttempts(cfg: Config, s: State, script: seq<Attempt>, s1: State, p: Retried)
    requires script != [] && s1 == TryOnce(cfg, s, script[0]).0 && IsRetried(cfg, s, script[0])
    requires RetriedTo(cfg, s1, script[1..], p)
    ensures RetriedTo(cfg, s, script, p.(made := p.made + 1))
  {
    forall m: nat | m < p.made ensures IsRetried(cfg, After(cfg, s, script, m), script[m]) {
      if m > 0 {
        assert After(cfg, s, script, m) == After(cfg, s1, script[1..], m - 1) && script[m] == script[1..][m - 1];
      }
    }
    assert script[p.made] == script[1..][p.made - 1];
  }

  lemma {:induction false} RetryIsRetriedTo(cfg: Config, s: State, script: seq<Attempt>)
    requires script != []
    ensures RetriedTo(cfg, s, script, Retry(cfg, s, script))
    decreases |script|
  {
    var (s1, ok) := TryOnce(cfg, s, script[0]);
    if ok || Over(cfg, s, script[0]) || |script| == 1 {
    } else {
      RetryIsRetriedTo(cfg, s1, script[1..]);
      NextAttempts(cfg, s, script, s1, Retry(cfg, s1, script[1..]));
    }
  }

  lemma {:induction false} RetriesStayTracked(cfg: Config, start: Option<int>, s: State, script: seq<Attempt>,
                                              made: nat)
    requires Tracked(start, s) && made <= |script| && AllRetried(cfg, s, script, made)
    ensures Tracked(start, After(cfg, s, script, made))
    decreases made
  {
    if made == 0 {
    } else {
      var s1 := TryOnce(cfg, s, script[0]).0;
      assert After(cfg, s, script, 0) == s && IsRetried(cfg, s, script[0]);
      TryOnceTracked(cfg, start, s, script[0]);
      forall m: nat | m < made - 1 ensures IsRetried(cfg, After(cfg, s1, script[1..], m), script[1..][m]) {
        assert After(cfg, s, script, m + 1) == After(cfg, s1, script[1..], m) && script[m + 1] == script[1..][m];
        assert IsRetried(cfg, After(cfg, s, script, m + 1), script[m + 1]);
      }
      RetriesStayTracked(cfg, start, s1, script[1..], made - 1);
    }
  }

  lemma AttemptIsRetried(cfg: Config, s: State, a: Attempt)
    requires !s.completed || s.restartOnly
    ensures IsRetried(cfg, s, a) <==> !Succeeds(cfg, s, a) && !ContextEnds(cfg, s, a)
  {
    AttemptExactly(cfg, s, a);
  }

  /** What a run leaves whose last attempt was made from this state. */
  ghost predicate EndsWith(cfg: Config, last: State, a: Attempt, r: Retried) {
    && (r.ok <==> Succeeds(cfg, last, a)) && (r.over <==> ContextEnds(cfg, last, a))
    && r.state.completed == r.ok && (r.ok ==> r.state.lifecycle)
    && (r.ok && last.restartOnly ==> r.state.machine == last.machine)
    && (r.ok && !last.restartOnly ==>
          exists rental :: SomeSearchRents(cfg, last.bans, a.searches, rental) && r.state.machine == Some(rental.id))
    && (!r.ok ==> r.state.machine.None?)
  }

  lemma LastAttemptEnds(cfg: Config, start: Option<int>, last: State, a: Attempt, p: Retried)
    requires Tracked(start, last) && (p.state, p.ok) == TryOnce(cfg, last, a) && p.over == Over(cfg, last, a)
    ensures EndsWith(cfg, last, a, Finished(cfg, p))
  {
    AttemptExactly(cfg, last, a);
    TryOnceTracked(cfg, start, last, a);
  }

  function Finished(cfg: Config, p: Retried): Retried {
    p.(state := Cleanup(cfg, if p.ok then p.state.(completed := true) else p.state))
  }

  /** The attempts before the last one neither succeeded nor did the context end in them, and the last one ends it. */
  ghost predicate RunsTo(cfg: Config, s: State, script: seq<Attempt>, r: Retried) {
    && 1 <= r.made <= |script|
    && (forall m: nat :: m < r.made - 1 ==>
          var before := After(cfg, s, script, m);
          !Succeeds(cfg, before, script[m]) && !ContextEnds(cfg, before, script[m]))
    && EndsWith(cfg, After(cfg, s, script, r.made - 1), script[r.made - 1], r)
    && (r.ok || r.over || r.made == |script|)
  }

  lemma RetriedRunsTo(cfg: Config, start: Option<int>, s: State, script: seq<Attempt>, p: Retried)
    requires Tracked(start, s) && RetriedTo(cfg, s, script, p)
    ensures RunsTo(cfg, s, script, Finished(cfg, p))
  {
    forall m: nat | m < p.made - 1
      ensures !Succeeds(cfg, After(cfg, s, script, m), script[m])
           && !ContextEnds(cfg, After(cfg, s, script, m), script[m])
    {
      assert IsRetried(cfg, After(cfg, s, script, m), script[m]);
      RetriesStayTracked(cfg, start, s, script, m);
      AttemptIsRetried(cfg, After(cfg, s, script, m), script[m]);
    }
    RetriesStayTracked(cfg, start, s, script, p.made - 1);
    LastAttemptEnds(cfg, start, After(cfg, s, script, p.made - 1), script[p.made - 1], p);
  }

  /** A provisioning run makes attempts up to the first that succeeds or in which the context ends, and no more than
      MaxRetries + 1. It succeeds exactly if the last one made does: its machine was restarted or rented, was reported
      running by the deciding report, and had its command started. Then the pod has that machine and its loop; otherwise
      it has neither machine nor a completed provisioning. */
  lemma InitializeExactly(cfg: Config, start: Option<int>, s: State, script: seq<Attempt>)
    requires Tracked(start, s) && |script| == cfg.maxRetries + 1
    ensures RunsTo(cfg, s, script, Initialize(cfg, s, script))
  {
    RetryIsRetriedTo(cfg, s, script);
    RetriedRunsTo(cfg, start, s, script, Retry(cfg, s, script));
  }
}
