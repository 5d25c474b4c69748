/** A pod's status as the provider keeps it: container state, readiness conditions, restarts and their backoff. */
module VirtualPods {
  import opened Wrappers

  // ---- the status ----

  datatype Waiting = Waiting(reason: string, message: string)

  datatype Running = Running(startedAt: int)

  datatype Terminated = Terminated(exitCode: int, reason: string, message: string, startedAt: int, finishedAt: int)

  /** A union by convention only: three optional parts. */
  datatype ContainerState = ContainerState(waiting: Option<Waiting>, running: Option<Running>,
                                           terminated: Option<Terminated>)

  datatype Tag = IsWaiting | IsRunning | IsTerminated

  datatype Phase = PodPending | PodRunning | PodSucceeded | PodFailed

  datatype RestartPolicy = Always | OnFailure | Never | OtherPolicy

  datatype PodCondition = PodCondition(kind: string, status: bool, since: int)

  datatype Container = Container(ready: bool, restartCount: int, state: ContainerState, lastTermination: ContainerState)

  datatype Status = Status(phase: Phase, container: Container, conditions: seq<PodCondition>,
                           effectiveRestartCounter: nat, readySince: Option<int>, provisioningCompleted: bool)

  datatype StatusUpdate = StatusUpdate(changed: bool, terminated: bool, succeeded: bool, restarts: bool, backoff: int)

  const NO_UPDATE := StatusUpdate(false, false, false, false, 0)
  const CONTAINERS_READY := "ContainersReady"
  const POD_READY := "Ready"
  const SECOND := 1_000_000_000
  const TWO_63 := 0x8000_0000_0000_0000
  const TWO_64 := 0x1_0000_0000_0000_0000

  function InWaiting(w: Waiting): ContainerState {
    ContainerState(Some(w), None, None)
  }

  function InRunning(startedAt: int): ContainerState {
    ContainerState(None, Some(Running(startedAt)), None)
  }

  function InTerminated(t: Terminated): ContainerState {
    ContainerState(None, None, Some(t))
  }

  function ReadContainerState(cs: ContainerState): Tag {
    if cs.waiting.Some? then IsWaiting
    else if cs.running.Some? then IsRunning
    else if cs.terminated.Some? then IsTerminated
    else IsWaiting
  }

  // ---- int64, and the conversion of a float that is a whole number ----

  function Int64(x: int): int {
    (x + TWO_63) % TWO_64 - TWO_63
  }

  function FloatToInt64(x: nat): int {
    if x < TWO_63 then x else -TWO_63
  }

  function Pow2(n: nat): (p: nat)
    ensures p >= 1
  {
    if n == 0 then 1 else 2 * Pow2(n - 1)
  }

  /** The wait, in nanoseconds, before restart number `counter` + 1 of a streak of crashes. */
  function Backoff(counter: nat): int {
    if counter == 0 then 0 else Int64(FloatToInt64(10 * Pow2(counter - 1)) * SECOND)
  }

  // ---- one step as a value ----

  /** The first condition of the kind at or after `from`; the length if there is none. */
  function IndexOfKind(conditions: seq<PodCondition>, kind: string, from: nat): (i: nat)
    requires from <= |conditions|
    ensures from <= i <= |conditions|
    ensures i < |conditions| ==> conditions[i].kind == kind
    ensures forall j :: from <= j < i ==> conditions[j].kind != kind
    decreases |conditions| - from
  {
    if from == |conditions| || conditions[from].kind == kind then from else IndexOfKind(conditions, kind, from + 1)
  }

  /** Replaces the first condition of the kind, or appends one. */
  function PutCondition(conditions: seq<PodCondition>, c: PodCondition): seq<PodCondition> {
    var i := IndexOfKind(conditions, c.kind, 0);
    if i < |conditions| then conditions[i := c] else conditions + [c]
  }

  function WithReadiness(conditions: seq<PodCondition>, ready: bool, now: int): seq<PodCondition> {
    PutCondition(PutCondition(conditions, PodCondition(CONTAINERS_READY, ready, now)),
                 PodCondition(POD_READY, ready, now))
  }

  function Started(s: Status, reply: ContainerState, now: int): Status {
    var startedAt := if reply.running.Some? then reply.running.value.startedAt else now;
    s.(container := s.container.(ready := true, state := InRunning(startedAt)),
       conditions := WithReadiness(s.conditions, true, now))
  }

  /** The message is not carried over. */
  function Ended(s: Status, t: Terminated, now: int): Status {
    var state := InTerminated(t.(message := ""));
    s.(container := s.container.(ready := false, state := state, lastTermination := state),
       conditions := WithReadiness(s.conditions, false, now))
  }

  predicate Restarts(policy: RestartPolicy, exitCode: int) {
    policy == Always || (policy == OnFailure && exitCode != 0)
  }

  /** A crash that lengthens the backoff: a failure within ten minutes of readiness. */
  predicate Counted(s: Status, exitCode: int, now: int) {
    exitCode != 0 && s.readySince.Some? && now - s.readySince.value <= 600 * SECOND
  }

  function Restarted(s: Status, exitCode: int, now: int): (Status, int) {
    var counted, counter := Counted(s, exitCode, now), s.effectiveRestartCounter;
    var backoff := if counted then Backoff(counter) else 0;
    var reason := if backoff > 0 then "CrashLoopBackOff" else "ContainerCreating";
    (s.(effectiveRestartCounter := if counted then counter + 1 else 0,
        provisioningCompleted := false,
        container := s.container.(restartCount := s.container.restartCount + 1,
                                  state := InWaiting(Waiting(reason, "container restarts")))),
     backoff)
  }

  /** One status poll: the agent's answer, if it answers, against the last known state. */
  function Poll(policy: RestartPolicy, s: Status, reply: Option<ContainerState>,
                now: int): (Status, Option<StatusUpdate>) {
    if reply.None? then (s, None)
    else
      var was, sees := ReadContainerState(s.container.state), ReadContainerState(reply.value);
      if was == sees then (s, Some(NO_UPDATE))
      else if sees == IsRunning then
        (Started(s, reply.value, now).(phase := PodRunning), Some(NO_UPDATE.(changed := true)))
      else if sees == IsWaiting then (s, None)
      else
        var seen := if was == IsWaiting then Started(s, reply.value, now).(phase := PodRunning) else s;
        var ended, exitCode := Ended(seen, reply.value.terminated.value, now), reply.value.terminated.value.exitCode;
        Concluded(policy, ended, exitCode, now)
  }

  /** The container has ended: restart it, or end the pod. */
  function Concluded(policy: RestartPolicy, ended: Status, exitCode: int, now: int): (Status, Option<StatusUpdate>) {
    if Restarts(policy, exitCode) then
      var (s', backoff) := Restarted(ended, exitCode, now);
      (s', Some(StatusUpdate(true, false, exitCode == 0, true, backoff)))
    else
      (ended.(phase := if exitCode == 0 then PodSucceeded else PodFailed),
       Some(StatusUpdate(true, true, exitCode == 0, false, 0)))
  }

  function BackoffDone(s: Status): Status {
    if s.container.state.waiting.None? then s
    else s.(container := s.container.(state := s.container.state.(waiting :=
               Some(s.container.state.waiting.value.(reason := "ContainerCreating")))))
  }

  function ContainerFailed(s: Status, message: string, now: int): Status {
    Ended(s, Terminated(1, "Failed", message, now, now), now)
  }

  function PodTerminated(s: Status, exitCode: int, now: int): Status {
    var running := s.container.state.running;
    Ended(s.(phase := if exitCode == 0 then PodSucceeded else PodFailed),
          Terminated(exitCode, "Pod Deleted", "", if running.Some? then running.value.startedAt else 0, now), now)
  }

  // ---- the class ----

  class VirtualPod {
    const policy: RestartPolicy
    var phase: Phase
    var container: Container
    var conditions: seq<PodCondition>
    var effectiveRestartCounter: nat
    var readySince: Option<int>
    var provisioningCompleted: bool

    function Value(): Status
      reads this
    {
      Status(phase, container, conditions, effectiveRestartCounter, readySince, provisioningCompleted)
    }

    constructor (policy: RestartPolicy, phase: Phase, container: Container, conditions: seq<PodCondition>)
      ensures this.policy == policy && Value() == Status(phase, container, conditions, 0, None, false)
    {
      this.policy := policy;
      this.phase := phase;
      this.container := container;
      this.conditions := conditions;
      effectiveRestartCounter := 0;
      readySince := None;
      provisioningCompleted := false;
    }

    method SetProvisioningCompleted(completed: bool, now: int)
      modifies this
      ensures Value() == old(Value()).(provisioningCompleted := completed, readySince := Some(now))
    {
      provisioningCompleted := completed;
      readySince := Some(now);
    }

    method PodStatusUpdate(reply: Option<ContainerState>, now: int) returns (update: Option<StatusUpdate>)
      modifies this
      ensures (Value(), update) == Poll(policy, old(Value()), reply, now)
    {
      if reply.None? { return None; }
      var lastState := ReadContainerState(container.state);
      var newState := ReadContainerState(reply.value);
      if lastState == newState { return Some(NO_UPDATE); }

      if newState == IsRunning {
        HandleContainerStart(reply.value, now);
        phase := PodRunning;
        return Some(NO_UPDATE.(changed := true));
      }

      if lastState == IsWaiting && newState == IsTerminated {
        HandleContainerStart(reply.value, now);
        phase := PodRunning;
      }

      if newState == IsTerminated {
        HandleContainerTermination(reply.value.terminated.value, now);
        var conclusion := ConcludeTermination(now);
        return Some(conclusion);
      }
      return None;
    }

    /** The rest of a status update whose container has ended. */
    method ConcludeTermination(now: int) returns (update: StatusUpdate)
      requires container.state.terminated.Some?
      modifies this
      ensures (Value(), Some(update))
          == Concluded(policy, old(Value()), old(container).state.terminated.value.exitCode, now)
    {
      var restarts := PodShouldRestart();
      var exitCode := container.state.terminated.value.exitCode;

      if restarts {
        var backoff := 0;
        if exitCode == 0 || readySince.None? || now - readySince.value > 600 * SECOND {
          effectiveRestartCounter := 0;
        } else {
          if effectiveRestartCounter > 0 {
            backoff := Int64(FloatToInt64(10 * Pow2(effectiveRestartCounter - 1)) * SECOND);
          }
          effectiveRestartCounter := effectiveRestartCounter + 1;
        }
        provisioningCompleted := false;
        HandleContainerRestart(backoff > 0);
        return StatusUpdate(true, false, exitCode == 0, true, backoff);
      }

      phase := if exitCode == 0 then PodSucceeded else PodFailed;
      return StatusUpdate(true, true, exitCode == 0, false, 0);
    }

    /** Replaces the first condition of the kind in place, or appends it. */
    method SetCondition(kind: string, status: bool, now: int)
      modifies this`conditions
      ensures conditions == PutCondition(old(conditions), PodCondition(kind, status, now))
    {
      var c := PodCondition(kind, status, now);
      for i := 0 to |conditions|
        invariant conditions == old(conditions)
        invariant forall j :: 0 <= j < i ==> conditions[j].kind != kind
      {
        if conditions[i].kind == kind {
          assert IndexOfKind(conditions, kind, 0) == i;
          conditions := conditions[i := c];
          return;
        }
      }
      assert IndexOfKind(conditions, kind, 0) == |conditions|;
      conditions := conditions + [c];
    }

    method PodShouldRestart() returns (restart: bool)
      ensures restart <==>
        container.state.terminated.Some? && Restarts(policy, container.state.terminated.value.exitCode)
    {
      var cs := container.state;
      if cs.terminated.None? { return false; }
      match policy {
        case Always => return true;
        case OnFailure => return cs.terminated.value.exitCode != 0;
        case Never => return false;
        case OtherPolicy => return false;
      }
    }

    method HandleContainerStart(reply: ContainerState, now: int)
      modifies this`container, this`conditions
      ensures Value() == Started(old(Value()), reply, now)
    {
      container := container.(ready := true);
      var startedAt := now;
      if reply.running.Some? { startedAt := reply.running.value.startedAt; }
      container := container.(state := InRunning(startedAt));
      SetCondition(CONTAINERS_READY, true, now);
      SetCondition(POD_READY, true, now);
    }

    method HandleContainerTermination(t: Terminated, now: int)
      modifies this`container, this`conditions
      ensures Value() == Ended(old(Value()), t, now)
    {
      container := container.(ready := false);
      container := container.(state := InTerminated(Terminated(t.exitCode, t.reason, "", t.startedAt, t.finishedAt)));
      container := container.(lastTermination := container.state);
      SetCondition(CONTAINERS_READY, false, now);
      SetCondition(POD_READY, false, now);
    }

    method HandleContainerRestart(backoff: bool)
      modifies this`container
      ensures container == old(container).(restartCount := old(container).restartCount + 1,
        state := InWaiting(Waiting(if backoff then "CrashLoopBackOff" else "ContainerCreating", "container restarts")))
    {
      container := container.(restartCount := container.restartCount + 1);
      container := container.(state := InWaiting(Waiting("ContainerCreating", "container restarts")));
      if backoff {
        container := container.(state := InWaiting(Waiting("CrashLoopBackOff", "container restarts")));
      }
    }

    method CrashLoopBackOffDone()
      modifies this`container
      ensures Value() == BackoffDone(old(Value()))
    {
      if container.state.waiting.None? { return; }
      var w := container.state.waiting.value.(reason := "ContainerCreating");
      container := container.(state := container.state.(waiting := Some(w)));
    }

    method FailContainer(message: string, now: int)
      modifies this`container, this`conditions
      ensures Value() == ContainerFailed(old(Value()), message, now)
    {
      HandleContainerTermination(Terminated(1, "Failed", message, now, now), now);
    }

    method TerminatePod(exitCode: int, now: int)
      modifies this`phase, this`container, this`conditions
      ensures Value() == PodTerminated(old(Value()), exitCode, now)
    {
      phase := if exitCode == 0 then PodSucceeded else PodFailed;
      var t := Terminated(exitCode, "Pod Deleted", "", 0, now);
      if container.state.running.Some? {
        t := t.(startedAt := container.state.running.value.startedAt);
      }
      HandleContainerTermination(t, now);
    }
  }

  // ---- runs ----

  datatype Event =
    | Polled(reply: Option<ContainerState>, now: int)
    | BackedOff
    | Failed(message: string, now: int)
    | PodDeleted(exitCode: int, now: int)
    | Provisioned(completed: bool, now: int)

  function Step(policy: RestartPolicy, s: Status, e: Event): Status {
    match e
    case Polled(reply, now) => Poll(policy, s, reply, now).0
    case BackedOff => BackoffDone(s)
    case Failed(message, now) => ContainerFailed(s, message, now)
    case PodDeleted(exitCode, now) => PodTerminated(s, exitCode, now)
    case Provisioned(completed, now) => s.(provisioningCompleted := completed, readySince := Some(now))
  }

  function Run(policy: RestartPolicy, s: Status, events: seq<Event>): Status
    decreases |events|
  {
    if events == [] then s else Run(policy, Step(policy, s, events[0]), events[1..])
  }

  /** A policy restart that a poll returned: whether the crash counted, and the backoff it asked for. */
  datatype Restart = Restart(counted: bool, backoff: int)

  function RestartOf(policy: RestartPolicy, s: Status, e: Event): seq<Restart> {
    if !e.Polled? then []
    else
      var update := Poll(policy, s, e.reply, e.now).1;
      if update.Some? && update.value.restarts then
        [Restart(!update.value.succeeded && s.readySince.Some? && e.now - s.readySince.value <= 600 * SECOND,
                 update.value.backoff)]
      else []
  }

  function RestartsOf(policy: RestartPolicy, s: Status, events: seq<Event>): seq<Restart>
    decreases |events|
  {
    if events == [] then []
    else RestartOf(policy, s, events[0]) + RestartsOf(policy, Step(policy, s, events[0]), events[1..])
  }

  // ---- the status invariant ----

  predicate UniqueKinds(conditions: seq<PodCondition>) {
    forall i, j :: 0 <= i < j < |conditions| ==> conditions[i].kind != conditions[j].kind
  }

  function StatusOf(conditions: seq<PodCondition>, kind: string): Option<bool> {
    var i := IndexOfKind(conditions, kind, 0);
    if i < |conditions| then Some(conditions[i].status) else None
  }

  predicate ExactlyOne(cs: ContainerState) {
    || (cs.waiting.Some? && cs.running.None? && cs.terminated.None?)
    || (cs.waiting.None? && cs.running.Some? && cs.terminated.None?)
    || (cs.waiting.None? && cs.running.None? && cs.terminated.Some?)
  }

  /** One container state; readiness and both conditions say whether it is Running; a final phase means Terminated. */
  predicate Coherent(s: Status) {
    var running := s.container.state.running.Some?;
    && ExactlyOne(s.container.state)
    && (s.container.ready <==> running)
    && UniqueKinds(s.conditions)
    && StatusOf(s.conditions, POD_READY) == StatusOf(s.conditions, CONTAINERS_READY)
    && (StatusOf(s.conditions, POD_READY) == Some(true) <==> running)
    && (s.phase == PodSucceeded || s.phase == PodFailed ==> s.container.state.terminated.Some?)
  }

  lemma StatusFound(conditions: seq<PodCondition>, i: nat)
    requires UniqueKinds(conditions) && i < |conditions|
    ensures StatusOf(conditions, conditions[i].kind) == Some(conditions[i].status)
  {
    var k := IndexOfKind(conditions, conditions[i].kind, 0);
    assert k <= i;
  }

  lemma PutConditionUnique(conditions: seq<PodCondition>, c: PodCondition)
    requires UniqueKinds(conditions)
    ensures UniqueKinds(PutCondition(conditions, c))
  {
    var i := IndexOfKind(conditions, c.kind, 0);
    assert forall j :: 0 <= j < |conditions| && j != i ==> conditions[j].kind != c.kind;
  }

  lemma PutConditionFinds(conditions: seq<PodCondition>, c: PodCondition, kind: string)
    requires UniqueKinds(conditions)
    ensures StatusOf(PutCondition(conditions, c), kind)
         == if kind == c.kind then Some(c.status) else StatusOf(conditions, kind)
  {
    var put, i := PutCondition(conditions, c), IndexOfKind(conditions, c.kind, 0);
    var k := IndexOfKind(conditions, kind, 0);
    PutConditionUnique(conditions, c);
    if kind == c.kind {
      StatusFound(put, i);
    } else if k < |conditions| {
      assert put[k] == conditions[k];
      StatusFound(put, k);
    } else {
      assert IndexOfKind(put, kind, 0) == |put|;
    }
  }

  lemma ReadinessWritten(conditions: seq<PodCondition>, ready: bool, now: int)
    requires UniqueKinds(conditions)
    ensures var cs := WithReadiness(conditions, ready, now);
      UniqueKinds(cs) && StatusOf(cs, POD_READY) == StatusOf(cs, CONTAINERS_READY) == Some(ready)
  {
    var c, d := PodCondition(CONTAINERS_READY, ready, now), PodCondition(POD_READY, ready, now);
    PutConditionUnique(conditions, c);
    PutConditionUnique(PutCondition(conditions, c), d);
    PutConditionFinds(conditions, c, CONTAINERS_READY);
    PutConditionFinds(PutCondition(conditions, c), d, CONTAINERS_READY);
    PutConditionFinds(PutCondition(conditions, c), d, POD_READY);
  }

  lemma StartedCoherent(s: Status, reply: ContainerState, now: int)
    requires Coherent(s)
    ensures Coherent(Started(s, reply, now).(phase := PodRunning))
  {
    ReadinessWritten(s.conditions, true, now);
  }

  lemma EndedCoherent(s: Status, t: Terminated, now: int)
    requires UniqueKinds(s.conditions)
    ensures Coherent(Ended(s, t, now))
  {
    ReadinessWritten(s.conditions, false, now);
  }

  lemma PollCoherent(policy: RestartPolicy, s: Status, reply: Option<ContainerState>, now: int)
    requires Coherent(s)
    ensures Coherent(Poll(policy, s, reply, now).0)
  {
    if reply.Some? {
      StartedCoherent(s, reply.value, now);
      if ReadContainerState(reply.value) == IsTerminated && ReadContainerState(s.container.state) != IsTerminated {
        var seen := if ReadContainerState(s.container.state) == IsWaiting
                    then Started(s, reply.value, now).(phase := PodRunning) else s;
        ConcludedCoherent(policy, seen, reply.value.terminated.value, now);
      }
    }
  }

  lemma ConcludedCoherent(policy: RestartPolicy, s: Status, t: Terminated, now: int)
    requires Coherent(s) && s.container.state.terminated.None?
    ensures Coherent(Concluded(policy, Ended(s, t, now), t.exitCode, now).0)
  {
    EndedCoherent(s, t, now);
    RestartedCoherent(s, t, now);
  }

  lemma RestartedCoherent(s: Status, t: Terminated, now: int)
    requires Coherent(s) && s.container.state.terminated.None?
    ensures Coherent(Restarted(Ended(s, t, now), t.exitCode, now).0)
  {
    ReadinessWritten(s.conditions, false, now);
  }

  lemma StepCoherent(policy: RestartPolicy, s: Status, e: Event)
    requires Coherent(s)
    ensures Coherent(Step(policy, s, e))
  {
    match e
    case Polled(reply, now) => PollCoherent(policy, s, reply, now);
    case Failed(message, now) => EndedCoherent(s, Terminated(1, "Failed", message, now, now), now);
    case PodDeleted(exitCode, now) =>
      var startedAt := if s.container.state.running.Some? then s.container.state.running.value.startedAt else 0;
      EndedCoherent(s.(phase := if exitCode == 0 then PodSucceeded else PodFailed),
                    Terminated(exitCode, "Pod Deleted", "", startedAt, now), now);
    case _ =>
  }

  /** Over every sequence of polls with any answers, failures, deletions and restarts. */
  lemma {:induction false} RunCoherent(policy: RestartPolicy, s: Status, events: seq<Event>)
    requires Coherent(s)
    ensures Coherent(Run(policy, s, events))
    decreases |events|
  {
    if events == [] {
    } else {
      StepCoherent(policy, s, events[0]);
      RunCoherent(policy, Step(policy, s, events[0]), events[1..]);
    }
  }

  /** A pod as CreatePod leaves it. */
  const CREATED := Status(PodPending,
                          Container(false, 0, InWaiting(Waiting("", "Waiting machine init and container start")),
                                                ContainerState(None, None, None)),
                          [PodCondition("PodScheduled", true, 0)], 0, None, false)

  lemma CreatedCoherent()
    ensures Coherent(CREATED)
  {
    assert IndexOfKind(CREATED.conditions, POD_READY, 0) == 1;
    assert IndexOfKind(CREATED.conditions, CONTAINERS_READY, 0) == 1;
  }

  // ---- restarts ----

  /** What one event does to the two counters. */
  lemma StepRestarts(policy: RestartPolicy, s: Status, e: Event)
    ensures var s', now := Step(policy, s, e), RestartOf(policy, s, e);
      && |now| <= 1
      && s'.container.restartCount == (if now == [] then s.container.restartCount else s.container.restartCount + 1)
      && s'.effectiveRestartCounter == (if now == [] then s.effectiveRestartCounter
                                        else if now[0].counted then s.effectiveRestartCounter + 1 else 0)
      && (now != [] ==> now[0].backoff == if now[0].counted then Backoff(s.effectiveRestartCounter) else 0)
  {
    if e.Polled? && e.reply.Some? {
      PollRestartsByPolicy(policy, s, e.reply, e.now);
    }
  }

  /** RestartCount counts the policy restarts that polls returned. */
  lemma {:induction false} RestartCountCounts(policy: RestartPolicy, s: Status, events: seq<Event>)
    ensures Run(policy, s, events).container.restartCount == s.container.restartCount + |RestartsOf(policy, s, events)|
    decreases |events|
  {
    if events == [] {
    } else {
      StepRestarts(policy, s, events[0]);
      RestartCountCounts(policy, Step(policy, s, events[0]), events[1..]);
    }
  }

  predicate ShowsRunning(cs: ContainerState) {
    cs.waiting.None? && cs.running.Some?
  }

  predicate ShowsTerminated(cs: ContainerState) {
    cs.waiting.None? && cs.running.None? && cs.terminated.Some?
  }

  /** The agent answers that the container has ended, and that is news. */
  predicate NewlyEnded(s: Status, reply: Option<ContainerState>) {
    reply.Some? && ShowsTerminated(reply.value) && !ShowsTerminated(s.container.state)
  }

  predicate NewlyRuns(s: Status, reply: Option<ContainerState>) {
    reply.Some? && ShowsRunning(reply.value) && !ShowsRunning(s.container.state)
  }

  /** A container newly seen terminated is restarted exactly if the policy is Always, or OnFailure and its exit code is
      not zero; otherwise the pod ends, succeeded exactly with exit code zero. Either way the update and the recorded
      termination have that exit code. Nothing else restarts or ends a pod, and a poll never does both. */
  lemma PollRestartsByPolicy(policy: RestartPolicy, s: Status, reply: Option<ContainerState>, now: int)
    ensures var (s', update) := Poll(policy, s, reply, now);
      && (update.Some? && (update.value.restarts || update.value.terminated) <==> NewlyEnded(s, reply))
      && (NewlyEnded(s, reply) ==>
            var t, u := reply.value.terminated.value, update.value;
            var recorded := ContainerState(None, None, Some(Terminated(t.exitCode, t.reason, "", t.startedAt,
                                                                       t.finishedAt)));
            && u.changed && (u.succeeded <==> t.exitCode == 0)
            && (u.restarts <==> policy == Always || (policy == OnFailure && t.exitCode != 0))
            && (u.terminated <==> !u.restarts)
            && s'.container.lastTermination == recorded && !s'.container.ready
            && (if u.restarts
                then && s'.container.state.waiting.Some? && !s'.provisioningCompleted
                     && s'.phase == (if ShowsRunning(s.container.state) then s.phase else PodRunning)
                     && s'.container.restartCount == s.container.restartCount + 1
                     && s'.container.state == ContainerState(
                          Some(Waiting(if u.backoff > 0 then "CrashLoopBackOff" else "ContainerCreating",
                                       "container restarts")), None, None)
                else && s'.phase == (if t.exitCode == 0 then PodSucceeded else PodFailed)
                     && s'.container.state == recorded && s'.container.restartCount == s.container.restartCount
                     && s'.effectiveRestartCounter == s.effectiveRestartCounter
                     && s'.provisioningCompleted == s.provisioningCompleted && u.backoff == 0))
  {
  }

  /** Any other poll: a container newly seen running makes the pod Running from the time reported; an answer that tells
      nothing new is no update; no answer, and a container that falls back to waiting, are errors. The last three change
      nothing. */
  lemma PollOtherwise(policy: RestartPolicy, s: Status, reply: Option<ContainerState>, now: int)
    requires !NewlyEnded(s, reply)
    ensures var (s', update) := Poll(policy, s, reply, now);
      if NewlyRuns(s, reply) then
        && s'.phase == PodRunning && update == Some(StatusUpdate(true, false, false, false, 0))
        && s'.container == Container(true, s.container.restartCount,
                                     ContainerState(None, Some(Running(reply.value.running.value.startedAt)), None),
                                     s.container.lastTermination)
        && s' == s.(phase := s'.phase, container := s'.container, conditions := s'.conditions)
      else
        && s' == s
        && (update == Some(StatusUpdate(false, false, false, false, 0))
            <==> && reply.Some? && (ShowsRunning(reply.value) <==> ShowsRunning(s.container.state))
                 && (ShowsTerminated(reply.value) <==> ShowsTerminated(s.container.state)))
        && (update.Some? ==> !update.value.changed)
  {
  }

  /** Deletion ends the pod by the exit code of its command, with the time it was started if it ran; an unresponsive
      container ends with code 1. */
  lemma OtherEnds(s: Status, exitCode: int, message: string, now: int)
    ensures var s' := PodTerminated(s, exitCode, now);
      && s'.phase == (if exitCode == 0 then PodSucceeded else PodFailed)
      && s'.container.state == s'.container.lastTermination == ContainerState(None, None, Some(
           Terminated(exitCode, "Pod Deleted", "",
                      if s.container.state.running.Some? then s.container.state.running.value.startedAt else 0, now)))
      && !s'.container.ready && s'.container.restartCount == s.container.restartCount
    ensures var s' := ContainerFailed(s, message, now);
      && s'.phase == s.phase
      && s'.container.state == s'.container.lastTermination
         == ContainerState(None, None, Some(Terminated(1, "Failed", "", now, now)))
      && !s'.container.ready && s'.container.restartCount == s.container.restartCount
  {
  }

  /** The end of a backoff changes the reason of a waiting container and nothing else. */
  lemma BackoffEnds(s: Status)
    ensures var w := s.container.state.waiting;
      BackoffDone(s)
      == if w.None? then s
         else s.(container := s.container.(state :=
                s.container.state.(waiting := Some(Waiting("ContainerCreating", w.value.message)))))
  {
  }

  // ---- ended containers and ended pods ----

  predicate Final(phase: Phase) {
    phase == PodSucceeded || phase == PodFailed
  }

  /** The container is Terminated exactly when the pod's phase is final. */
  predicate EndsTogether(s: Status) {
    s.container.state.terminated.Some? <==> Final(s.phase)
  }

  /** Every event keeps container and phase together, but for a pod that stopped responding: FailContainer ends the
      container and leaves the phase. */
  lemma StepEndsTogetherExactly(policy: RestartPolicy, s: Status, e: Event)
    requires Coherent(s) && EndsTogether(s) && (e.Polled? && e.reply.Some? ==> ExactlyOne(e.reply.value))
    ensures EndsTogether(Step(policy, s, e)) <==> !(e.Failed? && !Final(s.phase))
  {
    StepCoherent(policy, s, e);
  }

  /** Container and pod end together over every run in which no live pod stops responding. */
  lemma {:induction false} RunEndsTogether(policy: RestartPolicy, s: Status, events: seq<Event>)
    requires Coherent(s) && EndsTogether(s)
    requires forall e :: e in events ==> !e.Failed? && (e.Polled? && e.reply.Some? ==> ExactlyOne(e.reply.value))
    ensures EndsTogether(Run(policy, s, events))
    decreases |events|
  {
    if events == [] {
    } else {
      assert events[0] in events;
      StepEndsTogetherExactly(policy, s, events[0]);
      StepCoherent(policy, s, events[0]);
      RunEndsTogether(policy, Step(policy, s, events[0]), events[1..]);
    }
  }

  /** A pod whose phase is final has an ended container, and has succeeded exactly if that ended with code zero. */
  predicate EndsByExitCode(s: Status) {
    Final(s.phase) ==>
      && s.container.state.terminated.Some?
      && (s.phase == PodSucceeded <==> s.container.state.terminated.value.exitCode == 0)
  }

  /** Every event keeps it so, but for a pod that stops responding after it succeeded. */
  lemma StepEndsByExitCodeExactly(policy: RestartPolicy, s: Status, e: Event)
    requires Coherent(s) && EndsByExitCode(s)
    ensures EndsByExitCode(Step(policy, s, e)) <==> !(e.Failed? && s.phase == PodSucceeded)
  {
    match e
    case Polled(reply, now) =>
      PollRestartsByPolicy(policy, s, reply, now);
      if !NewlyEnded(s, reply) { PollOtherwise(policy, s, reply, now); }
    case _ =>
  }

  predicate NoneFailsAfterSuccess(policy: RestartPolicy, s: Status, events: seq<Event>)
    decreases |events|
  {
    events == []
    || (!(events[0].Failed? && s.phase == PodSucceeded)
        && NoneFailsAfterSuccess(policy, Step(policy, s, events[0]), events[1..]))
  }

  /** Over every such run, with any answers and deletions: whatever makes the phase final makes it Succeeded exactly if
      the recorded exit code is zero. */
  lemma {:induction false} RunEndsByExitCode(policy: RestartPolicy, s: Status, events: seq<Event>)
    requires Coherent(s) && EndsByExitCode(s) && NoneFailsAfterSuccess(policy, s, events)
    ensures EndsByExitCode(Run(policy, s, events))
    decreases |events|
  {
    if events == [] {
    } else {
      StepEndsByExitCodeExactly(policy, s, events[0]);
      StepCoherent(policy, s, events[0]);
      RunEndsByExitCode(policy, Step(policy, s, events[0]), events[1..]);
    }
  }

  /** The container answers that it runs, or the pod is deleted. */
  predicate Revives(e: Event) {
    e.PodDeleted? || (e.Polled? && e.reply.Some? && ReadContainerState(e.reply.value) == IsRunning)
  }

  lemma EndedStays(policy: RestartPolicy, s: Status, e: Event)
    requires ExactlyOne(s.container.state) && s.container.state.terminated.Some? && !Revives(e)
    ensures var s' := Step(policy, s, e);
      s'.phase == s.phase && s'.container.state.terminated.Some? && ExactlyOne(s'.container.state)
      && (s'.container.state == s.container.state || e.Failed?)
  {
  }

  /** FailContainer leaves the phase behind: the container has failed, the pod has not. And no later poll repairs that:
      until the container answers that it runs or the pod is deleted, the phase stays what it was and the container
      ended with code 1, whatever else is reported, that the container is Terminated included. */
  lemma FailedPodNeverEnds(policy: RestartPolicy, s: Status, message: string, now: int, later: seq<Event>)
    requires forall e :: e in later ==> !Revives(e)
    ensures var s' := Run(policy, s, [Failed(message, now)] + later);
      && s'.phase == s.phase
      && s'.container.state.terminated.Some? && s'.container.state.terminated.value.exitCode == 1
  {
    assert ([Failed(message, now)] + later)[1..] == later;
    EndedStaysOverRun(policy, ContainerFailed(s, message, now), later);
  }

  lemma {:induction false} EndedStaysOverRun(policy: RestartPolicy, s: Status, events: seq<Event>)
    requires ExactlyOne(s.container.state)
    requires s.container.state.terminated.Some? && s.container.state.terminated.value.exitCode == 1
    requires forall e :: e in events ==> !Revives(e)
    ensures var s' := Run(policy, s, events);
      && s'.phase == s.phase
      && s'.container.state.terminated.Some? && s'.container.state.terminated.value.exitCode == 1
    decreases |events|
  {
    if events == [] {
    } else {
      assert events[0] in events;
      EndedStays(policy, s, events[0]);
      EndedStaysOverRun(policy, Step(policy, s, events[0]), events[1..]);
    }
  }

  // ---- backoff ----

  lemma {:induction false} Pow2Grows(m: nat, n: nat)
    requires m <= n
    ensures Pow2(m) <= Pow2(n)
    decreases n
  {
    if m == n {
    } else {
      Pow2Grows(m, n - 1);
    }
  }

  lemma Pow2At29()
    ensures Pow2(29) == 0x2000_0000
  {
    assert Pow2(10) == 1024 by { assert Pow2(5) == 32; }
    assert Pow2(15) == 32768;
    assert Pow2(20) == 1048576;
    assert Pow2(25) == 33554432;
  }

  /** The computed backoff is ten seconds doubled counter - 1 times exactly for counters up to 30; from 31 on the
      nanoseconds do not fit an int64 and the value is another one. */
  lemma BackoffFits(counter: nat)
    requires counter >= 1
    ensures Backoff(counter) == 10 * Pow2(counter - 1) * SECOND <==> counter <= 30
    ensures -TWO_63 <= Backoff(counter) < TWO_63
  {
    Pow2At29();
    if counter <= 30 {
      Pow2Grows(counter - 1, 29);
    } else {
      Pow2Grows(30, counter - 1);
      assert Pow2(30) == 2 * Pow2(29);
    }
  }

  /** At 31 it is negative, so the restart does not wait at all. */
  lemma BackoffWrapsNegative()
    ensures Backoff(31) == -7709325833709551616
  {
    Pow2At29();
    assert Pow2(30) == 0x4000_0000;
  }

  /** The length of the streak of counted crashes at the end. */
  function Streak(restarts: seq<Restart>): nat {
    if restarts == [] || !restarts[|restarts| - 1].counted then 0
    else 1 + Streak(restarts[..|restarts| - 1])
  }

  lemma StreakStep(restarts: seq<Restart>, r: Restart)
    ensures Streak(restarts + [r]) == if r.counted then 1 + Streak(restarts) else 0
  {
    assert (restarts + [r])[..|restarts|] == restarts;
  }

  /** Every restart waits as the streak of crashes before it says. */
  predicate BackoffsFollow(restarts: seq<Restart>) {
    restarts == [] ||
    (var init, last := restarts[..|restarts| - 1], restarts[|restarts| - 1];
     BackoffsFollow(init) && last.backoff == if last.counted then Backoff(Streak(init)) else 0)
  }

  lemma BackoffsFollowStep(restarts: seq<Restart>, r: Restart)
    requires BackoffsFollow(restarts)
    requires r.backoff == if r.counted then Backoff(Streak(restarts)) else 0
    ensures BackoffsFollow(restarts + [r])
  {
    assert (restarts + [r])[..|restarts|] == restarts;
  }

  /** The n-th counted crash in a row, for 2 <= n <= 31, waits 10 * 2^(n-2) seconds; the first does not wait. */
  lemma {:induction false} CrashInARowWaits(restarts: seq<Restart>, k: nat)
    requires BackoffsFollow(restarts) && k < |restarts| && restarts[k].counted
    ensures var n := Streak(restarts[..k + 1]);
      && n >= 1
      && (n == 1 ==> restarts[k].backoff == 0)
      && (2 <= n <= 31 ==> restarts[k].backoff == 10 * Pow2(n - 2) * SECOND)
    decreases |restarts|
  {
    var m := |restarts| - 1;
    if k == m {
      assert restarts[..k + 1] == restarts;
      var n := Streak(restarts);
      if 2 <= n <= 31 {
        BackoffFits(n - 1);
      }
    } else {
      assert restarts[..m][..k + 1] == restarts[..k + 1];
      CrashInARowWaits(restarts[..m], k);
    }
  }

  /** The counter is the current streak, and each restart waits as the streak before it says: the n-th crash in a
      row waits Backoff(n - 1). */
  lemma {:induction false} BackoffsFollowStreaks(policy: RestartPolicy, s: Status, events: seq<Event>,
                                                 before: seq<Restart>)
    requires s.effectiveRestartCounter == Streak(before) && BackoffsFollow(before)
    ensures var all := before + RestartsOf(policy, s, events);
      && Run(policy, s, events).effectiveRestartCounter == Streak(all)
      && BackoffsFollow(all)
    decreases |events|
  {
    if events == [] {
      assert before + [] == before;
    } else {
      var now := RestartOf(policy, s, events[0]);
      BackoffFollowsStreak(policy, s, events[0], before);
      BackoffsFollowStreaks(policy, Step(policy, s, events[0]), events[1..], before + now);
      AppendsTwice(before, now, RestartsOf(policy, Step(policy, s, events[0]), events[1..]));
    }
  }

  lemma AppendsTwice(a: seq<Restart>, b: seq<Restart>, c: seq<Restart>)
    ensures a + b + c == a + (b + c)
  {
  }

  lemma BackoffFollowsStreak(policy: RestartPolicy, s: Status, e: Event, before: seq<Restart>)
    requires s.effectiveRestartCounter == Streak(before) && BackoffsFollow(before)
    ensures var all := before + RestartOf(policy, s, e);
      Step(policy, s, e).effectiveRestartCounter == Streak(all) && BackoffsFollow(all)
  {
    var now := RestartOf(policy, s, e);
    StepRestarts(policy, s, e);
    if now != [] {
      assert now == [now[0]];
      StreakStep(before, now[0]);
      BackoffsFollowStep(before, now[0]);
    } else {
      assert before + now == before;
    }
  }

  /** The time waited in all: a backoff that is not positive is not waited for. */
  function Waited(restarts: seq<Restart>): nat {
    if restarts == [] then 0
    else
      Waited(restarts[..|restarts| - 1])
      + if restarts[|restarts| - 1].backoff > 0 then restarts[|restarts| - 1].backoff else 0
  }

  function Min(a: nat, b: nat): nat {
    if a <= b then a else b
  }

  /** A streak of c >= 1 crashes has waited at least 10 * (2^(c-1) - 1) seconds, up to c = 31, the first streak
      whose next backoff overflows. */
  lemma {:induction false} StreakHasWaited(restarts: seq<Restart>)
    requires BackoffsFollow(restarts)
    ensures var c := Min(Streak(restarts), 31); c >= 1 ==> Waited(restarts) >= 10 * (Pow2(c - 1) - 1) * SECOND
    decreases |restarts|
  {
    if restarts == [] || !restarts[|restarts| - 1].counted {
    } else {
      var init, last := restarts[..|restarts| - 1], restarts[|restarts| - 1];
      StreakHasWaited(init);
      LongerStreakHasWaited(Streak(init), Waited(init), last.backoff);
    }
  }

  lemma LongerStreakHasWaited(m: nat, waited: nat, backoff: int)
    requires backoff == Backoff(m)
    requires Min(m, 31) >= 1 ==> waited >= 10 * (Pow2(Min(m, 31) - 1) - 1) * SECOND
    ensures waited + (if backoff > 0 then backoff else 0) >= 10 * (Pow2(Min(m + 1, 31) - 1) - 1) * SECOND
  {
    if 1 <= m <= 30 {
      SmallBackoff(m);
      assert Pow2(m) == 2 * Pow2(m - 1);
    }
  }

  lemma SmallBackoff(m: nat)
    requires 1 <= m <= 30
    ensures Backoff(m) == 10 * Pow2(m - 1) * SECOND > 0
  {
    BackoffFits(m);
  }

  /** From a new pod or a counter reset: a counter that makes the next backoff overflow takes more than
      10 * (2^30 - 2) seconds of waiting. */
  lemma OverflowNeedsWaiting(policy: RestartPolicy, s: Status, events: seq<Event>)
    requires s.effectiveRestartCounter == 0
    ensures WaitedFor(Run(policy, s, events).effectiveRestartCounter, RestartsOf(policy, s, events))
  {
    CounterIsStreak(policy, s, events);
    OverflowingStreakHasWaited(RestartsOf(policy, s, events));
  }

  /** The waiting that a restart counter stands for. */
  predicate WaitedFor(counter: nat, restarts: seq<Restart>) {
    && (counter >= 1 ==> Waited(restarts) >= 10 * (Pow2(Min(counter, 31) - 1) - 1) * SECOND)
    && (counter >= 31 ==> Waited(restarts) > 10 * (Pow2(30) - 2) * SECOND)
  }

  lemma CounterIsStreak(policy: RestartPolicy, s: Status, events: seq<Event>)
    requires s.effectiveRestartCounter == 0
    ensures Run(policy, s, events).effectiveRestartCounter == Streak(RestartsOf(policy, s, events))
    ensures BackoffsFollow(RestartsOf(policy, s, events))
  {
    BackoffsFollowStreaks(policy, s, events, []);
    assert [] + RestartsOf(policy, s, events) == RestartsOf(policy, s, events);
  }

  lemma OverflowingStreakHasWaited(restarts: seq<Restart>)
    requires BackoffsFollow(restarts)
    ensures WaitedFor(Streak(restarts), restarts)
  {
    StreakHasWaited(restarts);
  }
}
