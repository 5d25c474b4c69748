/** What the stored status reports: the Ready condition is true exactly for a reconcile that succeeded. */
module GatewayReports {
  import opened Wrappers
  import opened HAProxy
  import opened Gateway
  import opened GatewayRuns

  function Ready(s: Status): Option<Condition> {
    FindCondition(s.conditions, "Ready")
  }

  /** True with the reason Reconciled, false with any other; never unknown. */
  predicate Truthful(c: Condition) {
    c.status == if c.reason == Reconciled then ConditionTrue else ConditionFalse
  }

  /** Putting a condition leaves those of other kinds alone; its own keeps its text and its time as long as neither
      status nor reason change. */
  lemma {:induction false} PutConditionExactly(conditions: seq<Condition>, c: Condition, kind: string)
    ensures var before, after := FindCondition(conditions, kind), FindCondition(PutCondition(conditions, c), kind);
      if kind != c.kind then after == before
      else if before.Some? && before.value.status == c.status && before.value.reason == c.reason then after == before
      else after == Some(c)
    decreases |conditions|
  {
    if conditions == [] {
    } else if conditions[0].kind == c.kind {
    } else {
      PutConditionExactly(conditions[1..], c, kind);
    }
  }

  ghost predicate OthersStay(s: Status, s': Status) {
    forall kind :: kind != "Ready" ==> FindCondition(s'.conditions, kind) == FindCondition(s.conditions, kind)
  }

  /** What the turn reports under a reason. */
  predicate Reports(before: Option<Condition>, after: Option<Condition>, reason: Reason, generation: int,
                    calls: Calls) {
    && after.Some? && after.value.reason == reason && Truthful(after.value)
    && if before.Some? && before.value.reason == reason && Truthful(before.value) then after == before
       else after.value == Condition("Ready", after.value.status, reason, calls.detail, generation, calls.now)
  }

  /** Written or not, the record ends with the turn's status. */
  lemma StatusIsStored(env: Env, w: World, r: Record, calls: Calls)
    requires StatusKept(r) && Key(r) in w.stored && w.stored[Key(r)] == r && Written(calls.statusWrite)
    ensures var p := RunSteps(env, w, r, calls);
      ReconcileRecord(env, w, r, calls).world.stored
      == w.stored[Key(r) := WithStatus(r, p.held, p.reason, calls)]
  {
    ReconcileRecordStores(env, w, r, calls);
    NoPortChangeIsLost(env, w, r, calls);
    if !ReconcileRecord(env, w, r, calls).wrote {
      var p := RunSteps(env, w, r, calls);
      UnwrittenIsSame(p.world, r.(status := r.status.(allocatedPorts := p.held)), p.reason, calls);
    }
  }

  lemma UnwrittenIsSame(w: World, r: Record, reason: Reason, calls: Calls)
    requires !FinishStatus(w, r, reason, calls).wrote
    ensures SetCondition(r.status, ReadyCondition(reason, r, calls), r.generation) == r.status
  {
  }

  lemma ConditionReports(s: Status, reason: Reason, r: Record, calls: Calls)
    ensures var s' := SetCondition(s, ReadyCondition(reason, r, calls), r.generation);
      && Reports(Ready(s), Ready(s'), reason, r.generation, calls)
      && s'.observedGeneration == r.generation && s'.allocatedPorts == s.allocatedPorts
      && OthersStay(s, s')
  {
    var c := ReadyCondition(reason, r, calls);
    forall kind
      ensures kind != "Ready" ==>
        FindCondition(PutCondition(s.conditions, c), kind) == FindCondition(s.conditions, kind)
    {
      PutConditionExactly(s.conditions, c, kind);
    }
    PutConditionExactly(s.conditions, c, "Ready");
  }

  /** A turn whose status write is accepted if it comes to one: the stored Ready condition is true exactly if the turn
      succeeded, has the turn's reason, and a new one names the record's generation; the status has observed that
      generation and records the ports held, and other conditions stay. */
  lemma TurnReportsReady(env: Env, w: World, r: Record, calls: Calls)
    requires StatusKept(r) && Key(r) in w.stored && w.stored[Key(r)] == r
    requires calls.statusWrite == Landed || calls.statusWrite == Lost
    ensures var p := RunSteps(env, w, r, calls);
      var stored := ReconcileRecord(env, w, r, calls).world.stored;
      && Key(r) in stored && stored == w.stored[Key(r) := r.(status := stored[Key(r)].status)]
      && var s := stored[Key(r)].status;
         && Reports(Ready(r.status), Ready(s), p.reason, r.generation, calls)
         && (Ready(s).value.status == ConditionTrue <==> p.reason == Reconciled)
         && s.observedGeneration == r.generation && s.allocatedPorts == p.held
         && OthersStay(r.status, s)
  {
    var p := RunSteps(env, w, r, calls);
    StatusIsStored(env, w, r, calls);
    ConditionReports(r.status.(allocatedPorts := p.held), p.reason, r, calls);
  }

  // ---- over runs ----

  predicate ReadyIsTruthful(w: World) {
    forall k :: k in w.stored && Ready(w.stored[k].status).Some? ==> Truthful(Ready(w.stored[k].status).value)
  }

  lemma RecordStaysTruthful(env: Env, w: World, r: Record, calls: Calls)
    requires ReadyIsTruthful(w) && Key(r) in w.stored && w.stored[Key(r)] == r
    ensures ReadyIsTruthful(ReconcileRecord(env, w, r, calls).world)
  {
    var p := RunSteps(env, w, r, calls);
    ReconcileRecordStores(env, w, r, calls);
    ConditionReports(r.status.(allocatedPorts := p.held), p.reason, r, calls);
  }

  lemma KeyStaysTruthful(env: Env, w: World, key: string, calls: Calls)
    requires RecordsKept(w) && ReadyIsTruthful(w) && key in w.stored
    ensures ReadyIsTruthful(ReconcileKey(env, w, key, calls).world)
  {
    var r := w.stored[key];
    FinalizerKeepsRecords(w, key, calls);
    if r.deleting {
      assert Finalize(env, w, r, calls).stored in {w.stored, DropFinalizer(w.stored, r, calls)};
    } else if FINALIZER in r.finalizers {
      RecordStaysTruthful(env, w, r, calls);
    } else if calls.finalizerWrite == Landed {
      RecordStaysTruthful(env, FinalizerAdded(w, key, calls), WithFinalizer(r), Stale(calls));
    }
  }

  lemma StepStaysTruthful(env: Env, w: World, e: Event)
    requires RecordsKept(w) && ReadyIsTruthful(w)
    ensures ReadyIsTruthful(StepEvent(env, w, e))
  {
    if e.KeyTaken? && e.key in w.stored {
      KeyStaysTruthful(env, w, e.key, e.calls);
    }
  }

  /** Over every run, with any failing and lost calls: a stored Ready condition is true exactly if its reason is
      Reconciled, and false otherwise. */
  lemma {:induction false} RunStaysTruthful(env: Env, w: World, events: seq<Event>)
    requires RecordsKept(w) && ReadyIsTruthful(w)
    ensures ReadyIsTruthful(RunEvents(env, w, events))
    decreases |events|
  {
    if events == [] {
    } else {
      StepStaysTruthful(env, w, events[0]);
      RecordsStayKept(env, w, events[0]);
      RunStaysTruthful(env, StepEvent(env, w, events[0]), events[1..]);
    }
  }

  /** From a fresh start, then: what is reported is true, and the next turn of a service that has its finalizer, when
      its status write is accepted, reports its own outcome. */
  lemma FreshRunReports(env: Env, w0: World, events: seq<Event>, key: string, calls: Calls)
    requires FreshWorld(w0)
    ensures ReadyIsTruthful(RunEvents(env, w0, events))
    ensures var w := RunEvents(env, w0, events);
      key in w.stored && !w.stored[key].deleting && FINALIZER in w.stored[key].finalizers && Written(calls.statusWrite)
      ==>
        var p, stored := RunSteps(env, w, w.stored[key], calls), ReconcileKey(env, w, key, calls).world.stored;
        && key in stored && Ready(stored[key].status).Some?
        && Ready(stored[key].status).value.reason == p.reason
        && (Ready(stored[key].status).value.status == ConditionTrue <==> p.reason == Reconciled)
  {
    var w := RunEvents(env, w0, events);
    RunStaysTruthful(env, w0, events);
    RecordsKeptOverRun(env, w0, events);
    if key in w.stored && !w.stored[key].deleting && FINALIZER in w.stored[key].finalizers
       && Written(calls.statusWrite) {
      assert Key(w.stored[key]) == key;
      TurnReportsReady(env, w, w.stored[key], calls);
    }
  }
}
