/** The provider's table of pods, their gateway slots, and who drives each pod. */
module Provider {
  import opened Wrappers

  // ---- the table ----

  /** A pod object: its slot, its flags, whether a provisioning run or a lifecycle loop is active for it, and whether
      it has the cancel function of a loop, past or present. */
  datatype Pod = Pod(slot: nat, finalized: bool, completed: bool, provisioning: bool, lifecycle: bool, looped: bool)

  /** A pod object that has left the table, by the key it had. */
  datatype Stray = Stray(key: string, slot: nat)

  /** Slot flags, the pods by key, the pod objects outside the table that a provisioning run or a lifecycle loop still
      works on, the running gauge, and whether the process is gone. */
  datatype Node = Node(taken: seq<bool>, pods: map<string, Pod>, orphans: seq<Stray>, zombies: seq<Stray>, running: int,
                       crashed: bool)

  const NEW_POD := Pod(0, false, false, true, false, false)

  datatype CreateError = MultipleContainers | NoFreeSlot

  /** What one turn of the lifecycle loop finds. */
  datatype Finding = NothingNew | ContainerRestarts | ContainerEnded

  function FirstUnassigned(taken: seq<bool>, from: nat): (slot: Option<nat>)
    decreases |taken| - from
  {
    if from >= |taken| then None
    else if !taken[from] then Some(from)
    else FirstUnassigned(taken, from + 1)
  }

  lemma {:induction false} FirstUnassignedIsLeast(taken: seq<bool>, from: nat)
    ensures var slot := FirstUnassigned(taken, from);
      && (slot.Some? ==> from <= slot.value < |taken| && !taken[slot.value]
                         && forall i :: from <= i < slot.value ==> taken[i])
      && (slot.None? ==> forall i :: from <= i < |taken| ==> taken[i])
    decreases |taken| - from
  {
    if from >= |taken| || !taken[from] {
    } else {
      FirstUnassignedIsLeast(taken, from + 1);
    }
  }

  function Free(n: Node, slot: nat): Node {
    if slot < |n.taken| then n.(taken := n.taken[slot := false]) else n
  }

  // ---- steps as values ----

  function Create(n: Node, key: string, containers: nat): (Node, Option<CreateError>) {
    if containers > 1 then (n, Some(MultipleContainers))
    else
      var slot := FirstUnassigned(n.taken, 0);
      if slot.None? || slot.value >= |n.taken| then (n, Some(NoFreeSlot))
      else
        (n.(taken := n.taken[slot.value := true],
            pods := n.pods[key := NEW_POD.(slot := slot.value)]), None)
  }

  /** The provisioning run of a pod in the table ends. */
  function EndProvisioning(n: Node, key: string, ok: bool): Node
    requires key in n.pods
  {
    var pod := n.pods[key];
    if ok then
      n.(pods := n.pods[key := pod.(provisioning := false, completed := true, lifecycle := true, looped := true)],
         running := n.running + 1)
    else n.(pods := n.pods[key := pod.(provisioning := false)])
  }

  /** One turn of a pod's lifecycle loop, restart included up to the start of the provisioning run. */
  function Tick(n: Node, key: string, finding: Finding): Node
    requires key in n.pods
  {
    var pod := n.pods[key];
    match finding
    case NothingNew => n
    case ContainerRestarts =>
      n.(pods := n.pods[key := pod.(completed := false, lifecycle := false, provisioning := true)],
         running := n.running - 1)
    case ContainerEnded =>
      Free(n, pod.slot).(pods := n.pods[key := pod.(finalized := true, lifecycle := false)], running := n.running - 1)
  }

  datatype DeleteResult = Deleted | PodNotFound | DestroyFailed

  function Delete(n: Node, key: string, destroyed: bool): (Node, DeleteResult) {
    if key !in n.pods then (n, PodNotFound)
    else
      var pod := n.pods[key];
      if pod.completed then
        if pod.finalized then (n.(pods := n.pods - {key}), Deleted)
        else if !destroyed then (n.(pods := n.pods[key := pod.(lifecycle := false)]), DestroyFailed)
        else (Free(n, pod.slot).(pods := n.pods - {key}, running := n.running - 1), Deleted)
      else
        (Free(n, pod.slot).(pods := n.pods - {key},
                            orphans := if pod.provisioning then n.orphans + [Stray(key, pod.slot)] else n.orphans),
         Deleted)
  }

  // A deleted pod's object goes on being worked on.

  function Drop(strays: seq<Stray>, i: nat): seq<Stray>
    requires i < |strays|
  {
    strays[..i] + strays[i + 1..]
  }

  /** The cancelled provisioning run of a deleted pod ends. If it got through all the same it counts the pod as running
      and starts a lifecycle loop for it. */
  function EndOrphan(n: Node, i: nat, ok: bool): Node
    requires i < |n.orphans|
  {
    var left := n.(orphans := Drop(n.orphans, i));
    if ok then left.(zombies := n.zombies + [n.orphans[i]], running := n.running + 1) else left
  }

  /** One turn of such a loop. On the container's end it cancels the loop of whatever pod has the key now, and crashes
      the process if there is none or that pod never had a loop; its own loop it does not cancel. */
  function TickZombie(n: Node, i: nat, finding: Finding): Node
    requires i < |n.zombies|
  {
    var z := n.zombies[i];
    match finding
    case NothingNew => n
    case ContainerRestarts => n.(zombies := Drop(n.zombies, i), orphans := n.orphans + [z], running := n.running - 1)
    case ContainerEnded =>
      if z.key !in n.pods || !n.pods[z.key].looped then n.(running := n.running - 1, crashed := true)
      else Free(n, z.slot).(pods := n.pods[z.key := n.pods[z.key].(lifecycle := false)], running := n.running - 1)
  }

  // ---- recovery ----

  /** A pod the API server lists at start-up; `slot` is its annotation, 0 if that does not parse. */
  datatype Listed = Listed(key: string, running: bool, slot: nat, hasMachine: bool, restartNever: bool)

  /** A slot that is taken already leaves the pod out; a pod without machine is provisioned again or, under policy
      Never, reported failed without an object of its own. */
  function RecoverOne(n: Node, p: Listed): Node
    requires p.slot < |n.taken|
  {
    if !p.running || n.taken[p.slot] then n
    else
      var n' := n.(taken := n.taken[p.slot := true]);
      if p.hasMachine then n'.(pods := n.pods[p.key := Pod(p.slot, false, true, false, true, true)])
      else if !p.restartNever then n'.(pods := n.pods[p.key := NEW_POD.(slot := p.slot)])
      else n'
  }

  function Recover(n: Node, listed: seq<Listed>): (n': Node)
    requires forall p :: p in listed ==> p.slot < |n.taken|
    ensures |n'.taken| == |n.taken|
  {
    if listed == [] then n
    else RecoverOne(Recover(n, listed[..|listed| - 1]), listed[|listed| - 1])
  }

  // ---- the class ----

  class Provider {
    const clientProxySettings: array<bool> // the Assigned flag of each slot
    var virtualPods: map<string, Pod>
    var orphans: seq<Stray>
    var zombies: seq<Stray>
    var podsRunning: int
    var crashed: bool

    function Value(): Node
      reads this, clientProxySettings
    {
      Node(clientProxySettings[..], virtualPods, orphans, zombies, podsRunning, crashed)
    }

    /** Start-up: the recovery loop, then the start of the loops and runs it found. */
    constructor (slots: nat, listed: seq<Listed>)
      requires forall p :: p in listed ==> p.slot < slots
      ensures fresh(clientProxySettings)
      ensures Value() == Recover(Empty(slots), listed)
    {
      clientProxySettings := new bool[slots](i => false);
      virtualPods := map[];
      orphans, zombies := [], [];
      podsRunning := 0;
      crashed := false;
      new;
      assert clientProxySettings[..] == Empty(slots).taken;
      for i := 0 to |listed|
        invariant Value() == Recover(Empty(slots), listed[..i])
      {
        var p := listed[i];
        assert listed[..i + 1][..i] == listed[..i];
        if !p.running { continue; }
        if clientProxySettings[p.slot] { continue; }
        clientProxySettings[p.slot] := true;
        if p.hasMachine {
          virtualPods := virtualPods[p.key := Pod(p.slot, false, true, false, true, true)];
        } else if !p.restartNever {
          virtualPods := virtualPods[p.key := NEW_POD.(slot := p.slot)];
        }
      }
      assert listed[..|listed|] == listed;
    }

    method ReserveGatewaySlot() returns (slot: Option<nat>)
      modifies clientProxySettings
      ensures slot == FirstUnassigned(old(clientProxySettings[..]), 0)
      ensures clientProxySettings[..] == if slot.Some? && slot.value < clientProxySettings.Length
                                         then old(clientProxySettings[..])[slot.value := true]
                                         else old(clientProxySettings[..])
    {
      for idx := 0 to clientProxySettings.Length
        invariant clientProxySettings[..] == old(clientProxySettings[..])
        invariant FirstUnassigned(old(clientProxySettings[..]), idx) == FirstUnassigned(old(clientProxySettings[..]), 0)
      {
        if clientProxySettings[idx] { continue; }
        clientProxySettings[idx] := true;
        return Some(idx);
      }
      return None;
    }

    method CreatePod(key: string, containers: nat) returns (error: Option<CreateError>)
      modifies this, clientProxySettings
      ensures (Value(), error) == Create(old(Value()), key, containers)
    {
      if containers > 1 { return Some(MultipleContainers); }
      FirstUnassignedIsLeast(clientProxySettings[..], 0);
      var slot := ReserveGatewaySlot();
      if slot.None? { return Some(NoFreeSlot); }
      virtualPods := virtualPods[key := NEW_POD.(slot := slot.value)];
      return None;
    }

    method FinishProvisioning(key: string, ok: bool)
      requires key in virtualPods
      modifies this
      ensures Value() == EndProvisioning(old(Value()), key, ok)
    {
      var pod := virtualPods[key].(provisioning := false);
      if ok {
        pod := pod.(completed := true, lifecycle := true, looped := true);
        podsRunning := podsRunning + 1;
      }
      virtualPods := virtualPods[key := pod];
    }

    method ReconcilePodLifecycle(key: string, finding: Finding)
      requires key in virtualPods && virtualPods[key].slot < clientProxySettings.Length
      modifies this, clientProxySettings
      ensures Value() == Tick(old(Value()), key, finding)
    {
      var pod := virtualPods[key];
      if finding == ContainerRestarts {
        podsRunning := podsRunning - 1;
        virtualPods := virtualPods[key := pod.(completed := false, lifecycle := false, provisioning := true)];
      } else if finding == ContainerEnded {
        podsRunning := podsRunning - 1;
        clientProxySettings[pod.slot] := false;
        virtualPods := virtualPods[key := pod.(finalized := true, lifecycle := false)];
      }
    }

    method DeletePod(key: string, destroyed: bool) returns (r: DeleteResult)
      requires key in virtualPods ==> virtualPods[key].slot < clientProxySettings.Length
      modifies this, clientProxySettings
      ensures (Value(), r) == Delete(old(Value()), key, destroyed)
    {
      if key !in virtualPods { return PodNotFound; }
      var pod := virtualPods[key];
      if pod.completed {
        if !pod.finalized {
          virtualPods := virtualPods[key := pod.(lifecycle := false)];
          if !destroyed { return DestroyFailed; }
          clientProxySettings[pod.slot] := false;
          podsRunning := podsRunning - 1;
        }
        virtualPods := virtualPods - {key};
        assert virtualPods == old(virtualPods) - {key};
      } else {
        if pod.provisioning { orphans := orphans + [Stray(key, pod.slot)]; }
        clientProxySettings[pod.slot] := false;
        virtualPods := virtualPods - {key};
      }
      return Deleted;
    }

    /** The end of the provisioning run of a pod that is not in the table any more. */
    method FinishDeletedProvisioning(i: nat, ok: bool)
      requires i < |orphans|
      modifies this
      ensures Value() == EndOrphan(old(Value()), i, ok)
    {
      if ok {
        podsRunning := podsRunning + 1;
        zombies := zombies + [orphans[i]];
      }
      orphans := Drop(orphans, i);
    }

    /** A turn of the lifecycle loop of a pod that is not in the table any more. */
    method ReconcileDeletedPod(i: nat, finding: Finding)
      requires i < |zombies| && zombies[i].slot < clientProxySettings.Length
      modifies this, clientProxySettings
      ensures Value() == TickZombie(old(Value()), i, finding)
    {
      var z := zombies[i];
      if finding == ContainerRestarts {
        podsRunning := podsRunning - 1;
        orphans := orphans + [z];
        zombies := Drop(zombies, i);
      } else if finding == ContainerEnded {
        podsRunning := podsRunning - 1;
        if z.key !in virtualPods || !virtualPods[z.key].looped {
          crashed := true;
        } else {
          virtualPods := virtualPods[z.key := virtualPods[z.key].(lifecycle := false)];
          clientProxySettings[z.slot] := false;
        }
      }
    }
  }

  function Empty(slots: nat): Node {
    Node(seq(slots, i => false), map[], [], [], 0, false)
  }

  // ---- runs ----

  datatype Event =
    | Created(key: string, containers: nat)
    | Provisioned(key: string, ok: bool)
    | OrphanEnded(i: nat, success: bool)
    | ZombieTicked(i: nat, finding: Finding)
    | Ticked(key: string, finding: Finding)
    | DeleteAsked(key: string, destroyed: bool)

  /** A pod is created only under a key that is not in the table; a run or a loop acts only where one is active;
      nothing happens after a crash. */
  function Step(n: Node, e: Event): Node {
    if n.crashed then n
    else
      match e
      case Created(key, containers) => if key in n.pods then n else Create(n, key, containers).0
      case Provisioned(key, ok) => if key in n.pods && n.pods[key].provisioning then EndProvisioning(n, key, ok) else n
      case OrphanEnded(i, success) => if i < |n.orphans| then EndOrphan(n, i, success) else n
      case ZombieTicked(i, finding) => if i < |n.zombies| then TickZombie(n, i, finding) else n
      case Ticked(key, finding) => if key in n.pods && n.pods[key].lifecycle then Tick(n, key, finding) else n
      case DeleteAsked(key, destroyed) => Delete(n, key, destroyed).0
  }

  function Run(n: Node, events: seq<Event>): Node
    decreases |events|
  {
    if events == [] then n else Run(Step(n, events[0]), events[1..])
  }

  predicate Live(pods: map<string, Pod>, key: string) {
    key in pods && !pods[key].finalized
  }

  function CompletedLive(pods: map<string, Pod>): set<string> {
    set k | k in pods && pods[k].completed && !pods[k].finalized
  }

  predicate HeldBy(pods: map<string, Pod>, slot: nat) {
    exists k :: k in pods && !pods[k].finalized && pods[k].slot == slot
  }

  /** Live pods hold distinct slots; the assigned slots are theirs and the `lost` ones. */
  ghost predicate SlotsSound(taken: seq<bool>, pods: map<string, Pod>, lost: set<nat>) {
    && (forall k :: Live(pods, k) ==> pods[k].slot < |taken| && pods[k].slot !in lost)
    && (forall j, k :: Live(pods, j) && Live(pods, k) && pods[j].slot == pods[k].slot ==> j == k)
    && (forall i :: 0 <= i < |taken| ==> (taken[i] <==> i in lost || HeldBy(pods, i)))
  }

  /** A pod is driven by at most one of a provisioning run and a lifecycle loop, each in its own phase. */
  predicate DrivenOnce(pod: Pod) {
    && !(pod.provisioning && pod.lifecycle)
    && (pod.lifecycle ==> pod.completed && !pod.finalized)
    && (pod.provisioning ==> !pod.completed && !pod.finalized)
    && (pod.finalized ==> pod.completed)
  }

  predicate StraysSound(strays: seq<Stray>, slots: nat, lost: set<nat>) {
    forall i :: 0 <= i < |strays| ==> strays[i].slot < slots && strays[i].slot !in lost
  }

  /** The gauge is off by `drift`. */
  predicate Counted(n: Node, drift: int) {
    (forall k :: k in n.pods ==> DrivenOnce(n.pods[k])) && n.running == |CompletedLive(n.pods)| - drift
  }

  ghost predicate Sound(n: Node, lost: set<nat>, drift: int) {
    && SlotsSound(n.taken, n.pods, lost)
    && StraysSound(n.orphans, |n.taken|, lost) && StraysSound(n.zombies, |n.taken|, lost)
    && Counted(n, drift)
  }

  // A pod changes but keeps its slot.

  lemma ChangedSlots(taken: seq<bool>, pods: map<string, Pod>, lost: set<nat>, key: string, pod: Pod)
    requires SlotsSound(taken, pods, lost) && Live(pods, key)
    requires !pod.finalized && pod.slot == pods[key].slot
    ensures SlotsSound(taken, pods[key := pod], lost)
  {
    var pods' := pods[key := pod];
    forall i: nat ensures HeldBy(pods', i) <==> HeldBy(pods, i) {
      if k :| k in pods && !pods[k].finalized && pods[k].slot == i { assert k in pods' && pods'[k].slot == i; }
    }
    assert forall k :: Live(pods', k) <==> Live(pods, k);
  }

  lemma ChangedCount(pods: map<string, Pod>, key: string, pod: Pod)
    requires Live(pods, key) && !pod.finalized
    ensures |CompletedLive(pods[key := pod])|
         == |CompletedLive(pods)| + (if pod.completed then 1 else 0) - (if pods[key].completed then 1 else 0)
  {
    var was, now := CompletedLive(pods), CompletedLive(pods[key := pod]);
    assert now == if pod.completed then was + {key} else was - {key};
  }

  lemma PodChanged(n: Node, n': Node, lost: set<nat>, drift: int, key: string, pod: Pod)
    requires Sound(n, lost, drift) && Live(n.pods, key)
    requires n'.taken == n.taken && n'.pods == n.pods[key := pod] && n'.orphans == n.orphans && n'.zombies == n.zombies
    requires !pod.finalized && pod.slot == n.pods[key].slot && DrivenOnce(pod)
    requires n'.running == n.running + (if pod.completed then 1 else 0) - (if n.pods[key].completed then 1 else 0)
    ensures Sound(n', lost, drift)
  {
    ChangedSlots(n.taken, n.pods, lost, key, pod);
    ChangedCount(n.pods, key, pod);
  }

  // A live pod gives up its slot: it is finalized or leaves the table.

  lemma FreedSlots(taken: seq<bool>, pods: map<string, Pod>, pods': map<string, Pod>, lost: set<nat>, key: string)
    requires SlotsSound(taken, pods, lost) && Live(pods, key)
    requires pods' - {key} == pods - {key} && !Live(pods', key)
    ensures SlotsSound(taken[pods[key].slot := false], pods', lost)
    ensures taken[pods[key].slot]
  {
    OthersStay(pods, pods', key);
    assert HeldBy(pods, pods[key].slot);
    forall i: nat ensures HeldBy(pods', i) <==> HeldBy(pods, i) && i != pods[key].slot {
      HolderStays(taken, pods, pods', lost, key, i);
    }
    assert forall k :: Live(pods', k) ==> Live(pods, k) && pods'[k] == pods[k];
  }

  lemma HolderStays(taken: seq<bool>, pods: map<string, Pod>, pods': map<string, Pod>, lost: set<nat>,
                    key: string, i: nat)
    requires SlotsSound(taken, pods, lost) && Live(pods, key) && !Live(pods', key)
    requires forall k :: k != key ==> (k in pods' <==> k in pods) && (k in pods ==> pods'[k] == pods[k])
    ensures HeldBy(pods', i) <==> HeldBy(pods, i) && i != pods[key].slot
  {
    if k :| k in pods' && !pods'[k].finalized && pods'[k].slot == i {
      assert Live(pods', k) && k != key && Live(pods, k);
    }
    if k :| k in pods && !pods[k].finalized && pods[k].slot == i {
      assert Live(pods, k);
      assert i != pods[key].slot ==> k != key && k in pods';
    }
  }

  lemma OthersStay(pods: map<string, Pod>, pods': map<string, Pod>, key: string)
    requires pods' - {key} == pods - {key}
    ensures forall k :: k != key ==> (k in pods' <==> k in pods) && (k in pods ==> pods'[k] == pods[k])
  {
    forall k | k != key ensures (k in pods' <==> k in pods) && (k in pods ==> pods'[k] == pods[k]) {
      assert k in pods' <==> k in pods' - {key};
      assert k in pods <==> k in pods - {key};
    }
  }

  lemma FreedCount(pods: map<string, Pod>, pods': map<string, Pod>, key: string)
    requires Live(pods, key) && pods' - {key} == pods - {key} && !Live(pods', key)
    ensures |CompletedLive(pods')| == |CompletedLive(pods)| - (if pods[key].completed then 1 else 0)
  {
    OthersStay(pods, pods', key);
    assert CompletedLive(pods') == CompletedLive(pods) - {key};
  }

  lemma SlotFreed(n: Node, n': Node, lost: set<nat>, drift: int, key: string)
    requires Sound(n, lost, drift) && Live(n.pods, key)
    requires n'.taken == n.taken[n.pods[key].slot := false]
    requires StraysSound(n'.orphans, |n.taken|, lost) && StraysSound(n'.zombies, |n.taken|, lost)
    requires n'.pods - {key} == n.pods - {key} && !Live(n'.pods, key) && (key in n'.pods ==> DrivenOnce(n'.pods[key]))
    requires n'.running == n.running - (if n.pods[key].completed then 1 else 0)
    ensures Sound(n', lost, drift)
  {
    FreedSlots(n.taken, n.pods, n'.pods, lost, key);
    FreedCount(n.pods, n'.pods, key);
    OthersStay(n.pods, n'.pods, key);
  }

  // A pod enters the table on a free slot.

  lemma AddedSlots(taken: seq<bool>, pods: map<string, Pod>, lost: set<nat>, key: string, pod: Pod)
    requires SlotsSound(taken, pods, lost) && key !in pods
    requires pod.slot < |taken| && !taken[pod.slot] && !pod.finalized
    ensures SlotsSound(taken[pod.slot := true], pods[key := pod], lost)
  {
    var pods' := pods[key := pod];
    assert !HeldBy(pods, pod.slot) && pod.slot !in lost;
    forall i: nat ensures HeldBy(pods', i) <==> HeldBy(pods, i) || i == pod.slot {
      if k :| k in pods && !pods[k].finalized && pods[k].slot == i { assert k in pods' && pods'[k].slot == i; }
      if i == pod.slot { assert pods'[key].slot == i; }
    }
    assert forall k :: Live(pods', k) ==> k == key || Live(pods, k);
  }

  lemma PodAdded(n: Node, n': Node, lost: set<nat>, drift: int, drift': int, key: string, pod: Pod)
    requires Sound(n, lost, drift) && key !in n.pods
    requires pod.slot < |n.taken| && !n.taken[pod.slot] && !pod.finalized && DrivenOnce(pod)
    requires n'.taken == n.taken[pod.slot := true] && n'.pods == n.pods[key := pod] && n'.running == n.running
    requires n'.orphans == n.orphans && n'.zombies == n.zombies
    requires drift' == drift + if pod.completed then 1 else 0
    ensures Sound(n', lost, drift')
  {
    AddedSlots(n.taken, n.pods, lost, key, pod);
    AddedCount(n.pods, key, pod);
  }

  lemma AddedCount(pods: map<string, Pod>, key: string, pod: Pod)
    requires key !in pods && !pod.finalized
    ensures |CompletedLive(pods[key := pod])| == |CompletedLive(pods)| + if pod.completed then 1 else 0
  {
    assert CompletedLive(pods[key := pod])
        == if pod.completed then CompletedLive(pods) + {key} else CompletedLive(pods);
  }

  lemma DeleteStaysSound(n: Node, lost: set<nat>, drift: int, key: string, destroyed: bool)
    requires Sound(n, lost, drift)
    ensures Sound(Delete(n, key, destroyed).0, lost, drift)
  {
    if key in n.pods {
      var n' := Delete(n, key, destroyed).0;
      if Live(n.pods, key) {
        if n.pods[key].completed && !destroyed {
          PodChanged(n, n', lost, drift, key, n.pods[key].(lifecycle := false));
        } else {
          assert n'.pods - {key} == n.pods - {key};
          SlotFreed(n, n', lost, drift, key);
        }
      } else {
        FinalizedLeaves(n, n', lost, drift, key);
      }
    }
  }

  lemma FinalizedLeaves(n: Node, n': Node, lost: set<nat>, drift: int, key: string)
    requires Sound(n, lost, drift) && !Live(n.pods, key) && n' == n.(pods := n.pods - {key})
    ensures Sound(n', lost, drift)
  {
    forall i: nat ensures HeldBy(n'.pods, i) <==> HeldBy(n.pods, i) {
      if k :| k in n.pods && !n.pods[k].finalized && n.pods[k].slot == i { assert k in n'.pods; }
    }
    assert forall k :: Live(n'.pods, k) <==> Live(n.pods, k);
    assert CompletedLive(n'.pods) == CompletedLive(n.pods);
  }

  /** What an event adds to the gauge's error: a late success takes one off, a late restart or end puts one on. */
  function Drifts(n: Node, e: Event): int {
    if n.crashed then 0
    else
      match e
      case OrphanEnded(i, success) => if i < |n.orphans| && success then -1 else 0
      case ZombieTicked(i, finding) => if i < |n.zombies| && finding != NothingNew then 1 else 0
      case _ => 0
  }

  /** A deleted pod's loop frees the slot that a live pod holds. */
  predicate Robs(n: Node, e: Event) {
    && !n.crashed && e.ZombieTicked? && e.i < |n.zombies| && e.finding == ContainerEnded
    && (var z := n.zombies[e.i]; z.key in n.pods && n.pods[z.key].looped && HeldBy(n.pods, z.slot))
  }

  lemma TableStepStaysSound(n: Node, lost: set<nat>, drift: int, e: Event)
    requires Sound(n, lost, drift) && !n.crashed && !e.ZombieTicked? && !e.OrphanEnded?
    ensures Sound(Step(n, e), lost, drift)
  {
    match e
    case Created(key, containers) =>
      FirstUnassignedIsLeast(n.taken, 0);
      var slot := FirstUnassigned(n.taken, 0);
      if key !in n.pods && containers <= 1 && slot.Some? {
        PodAdded(n, Step(n, e), lost, drift, drift, key, NEW_POD.(slot := slot.value));
      }
    case Provisioned(key, ok) =>
      if key in n.pods && n.pods[key].provisioning {
        PodChanged(n, Step(n, e), lost, drift, key, Step(n, e).pods[key]);
      }
    case Ticked(key, finding) =>
      if key in n.pods && n.pods[key].lifecycle {
        if finding == ContainerRestarts {
          PodChanged(n, Step(n, e), lost, drift, key, Step(n, e).pods[key]);
        } else if finding == ContainerEnded {
          SlotFreed(n, Step(n, e), lost, drift, key);
        }
      }
    case DeleteAsked(key, destroyed) =>
      DeleteStaysSound(n, lost, drift, key, destroyed);
  }

  lemma DropStaysSound(strays: seq<Stray>, i: nat, slots: nat, lost: set<nat>)
    requires i < |strays| && StraysSound(strays, slots, lost)
    ensures StraysSound(Drop(strays, i), slots, lost)
  {
  }

  /** The loop of a live pod is cancelled: nothing but its flag changes. */
  lemma CancelledLoop(pods: map<string, Pod>, key: string)
    requires key in pods
    ensures var pods' := pods[key := pods[key].(lifecycle := false)];
      && CompletedLive(pods') == CompletedLive(pods)
      && (forall k :: Live(pods', k) <==> Live(pods, k)) && (forall k :: k in pods ==> pods'[k].slot == pods[k].slot)
      && (forall i :: HeldBy(pods', i) <==> HeldBy(pods, i))
  {
    var pods' := pods[key := pods[key].(lifecycle := false)];
    forall i: nat ensures HeldBy(pods', i) <==> HeldBy(pods, i) {
      if k :| k in pods && !pods[k].finalized && pods[k].slot == i { assert k in pods' && pods'[k].slot == i; }
    }
  }

  lemma LateEndExactly(n: Node, lost: set<nat>, drift: int, i: nat)
    requires Sound(n, lost, drift) && !n.crashed && i < |n.zombies|
    requires n.zombies[i].key in n.pods && n.pods[n.zombies[i].key].looped
    ensures Sound(TickZombie(n, i, ContainerEnded), lost, drift + 1) <==> !HeldBy(n.pods, n.zombies[i].slot)
  {
    var z, n' := n.zombies[i], TickZombie(n, i, ContainerEnded);
    CancelledLoop(n.pods, z.key);
    assert n'.taken == n.taken[z.slot := false];
    if HeldBy(n.pods, z.slot) {
      assert HeldBy(n'.pods, z.slot) && !n'.taken[z.slot];
    }
  }

  /** Whatever the event: the invariant is kept, the gauge's error growing by Drifts, exactly when it is not the end of
      a deleted pod whose slot a live pod holds. */
  lemma StepSoundExactly(n: Node, lost: set<nat>, drift: int, e: Event)
    requires Sound(n, lost, drift)
    ensures Sound(Step(n, e), lost, drift + Drifts(n, e)) <==> !Robs(n, e)
  {
    if n.crashed {
    } else if e.OrphanEnded? {
      if e.i < |n.orphans| { DropStaysSound(n.orphans, e.i, |n.taken|, lost); }
    } else if e.ZombieTicked? {
      if e.i < |n.zombies| {
        DropStaysSound(n.zombies, e.i, |n.taken|, lost);
        var z := n.zombies[e.i];
        if e.finding == ContainerEnded && z.key in n.pods && n.pods[z.key].looped {
          LateEndExactly(n, lost, drift, e.i);
        }
      }
    } else {
      TableStepStaysSound(n, lost, drift, e);
    }
  }

  lemma TableStepStaysCounted(n: Node, drift: int, e: Event)
    requires Counted(n, drift) && !n.crashed && (e.Created? || e.Provisioned? || e.Ticked?)
    ensures Counted(Step(n, e), drift)
  {
    var n' := Step(n, e);
    match e
    case Created(key, containers) =>
      if n' != n { AddedCount(n.pods, key, n'.pods[key]); }
    case Provisioned(key, ok) =>
      if key in n.pods && n.pods[key].provisioning { ChangedCount(n.pods, key, n'.pods[key]); }
    case Ticked(key, finding) =>
      if key in n.pods && n.pods[key].lifecycle {
        if finding == ContainerRestarts {
          ChangedCount(n.pods, key, n'.pods[key]);
        } else if finding == ContainerEnded {
          assert n'.pods - {key} == n.pods - {key};
          FreedCount(n.pods, n'.pods, key);
        }
      }
  }

  lemma DeleteStaysCounted(n: Node, drift: int, key: string, destroyed: bool)
    requires Counted(n, drift)
    ensures Counted(Delete(n, key, destroyed).0, drift)
  {
    var n' := Delete(n, key, destroyed).0;
    if key in n.pods {
      if n.pods[key].finalized {
        assert CompletedLive(n'.pods) == CompletedLive(n.pods);
      } else if n.pods[key].completed && !destroyed {
        ChangedCount(n.pods, key, n'.pods[key]);
      } else {
        assert n'.pods - {key} == n.pods - {key};
        FreedCount(n.pods, n'.pods, key);
      }
    }
  }

  /** The gauge's error grows by Drifts, whatever the event and whatever slots it frees. */
  lemma StepStaysCounted(n: Node, drift: int, e: Event)
    requires Counted(n, drift)
    ensures Counted(Step(n, e), drift + Drifts(n, e))
  {
    if n.crashed {
    } else if e.ZombieTicked? {
      if e.i < |n.zombies| && n.zombies[e.i].key in n.pods { CancelledLoop(n.pods, n.zombies[e.i].key); }
    } else if e.DeleteAsked? {
      DeleteStaysCounted(n, drift, e.key, e.destroyed);
    } else if !e.OrphanEnded? {
      TableStepStaysCounted(n, drift, e);
    }
  }

  function RunDrifts(n: Node, events: seq<Event>): int
    decreases |events|
  {
    if events == [] then 0 else Drifts(n, events[0]) + RunDrifts(Step(n, events[0]), events[1..])
  }

  lemma {:induction false} RunStaysCounted(n: Node, drift: int, events: seq<Event>)
    requires Counted(n, drift)
    ensures Counted(Run(n, events), drift + RunDrifts(n, events))
    decreases |events|
  {
    if events == [] {
    } else {
      StepStaysCounted(n, drift, events[0]);
      RunStaysCounted(Step(n, events[0]), drift + Drifts(n, events[0]), events[1..]);
    }
  }

  // Late successes and late ends, counted apart.

  function LateSuccesses(n: Node, events: seq<Event>): nat
    decreases |events|
  {
    if events == [] then 0
    else (if Drifts(n, events[0]) == -1 then 1 else 0) + LateSuccesses(Step(n, events[0]), events[1..])
  }

  function LateEnds(n: Node, events: seq<Event>): nat
    decreases |events|
  {
    if events == [] then 0
    else (if Drifts(n, events[0]) == 1 then 1 else 0) + LateEnds(Step(n, events[0]), events[1..])
  }

  lemma {:induction false} DriftsAreLate(n: Node, events: seq<Event>)
    ensures RunDrifts(n, events) == LateEnds(n, events) - LateSuccesses(n, events)
    decreases |events|
  {
    if events == [] {
    } else {
      DriftsAreLate(Step(n, events[0]), events[1..]);
    }
  }

  /** No event of the run robs a live pod. */
  predicate RunSpares(n: Node, events: seq<Event>)
    decreases |events|
  {
    events == [] || (!Robs(n, events[0]) && RunSpares(Step(n, events[0]), events[1..]))
  }

  /** Over every run of creations, deletions, terminations, restarts, failed destroys and late successes in which no
      live pod is robbed. */
  lemma {:induction false} RunStaysSound(n: Node, lost: set<nat>, drift: int, events: seq<Event>)
    requires Sound(n, lost, drift) && RunSpares(n, events)
    ensures Sound(Run(n, events), lost, drift + RunDrifts(n, events))
    decreases |events|
  {
    if events == [] {
    } else {
      StepSoundExactly(n, lost, drift, events[0]);
      RunStaysSound(Step(n, events[0]), lost, drift + Drifts(n, events[0]), events[1..]);
    }
  }

  /** Without late successes there is nothing to be robbed by: the table's own steps keep everything. */
  lemma {:induction false} NoLateSuccessSpares(n: Node, events: seq<Event>)
    requires n.zombies == [] && forall e :: e in events ==> !(e.OrphanEnded? && e.success)
    ensures RunSpares(n, events) && RunDrifts(n, events) == 0
    decreases |events|
  {
    if events == [] {
    } else {
      assert events[0] in events;
      NoLateSuccessSpares(Step(n, events[0]), events[1..]);
    }
  }

  /** The slot an event frees in the name of a pod in the table. */
  function Freed(n: Node, e: Event): Option<nat> {
    if n.crashed then None
    else
      match e
      case Ticked(key, ContainerEnded) =>
        if key in n.pods && n.pods[key].lifecycle then Some(n.pods[key].slot) else None
      case DeleteAsked(key, destroyed) =>
        if key in n.pods && (!n.pods[key].completed || (!n.pods[key].finalized && destroyed)) then
          Some(n.pods[key].slot)
        else None
      case _ => None
  }

  /** No such slot is freed twice: each is taken when it is freed, free afterwards, and no other flag changes then. */
  lemma FreedWasAssigned(n: Node, lost: set<nat>, drift: int, e: Event)
    requires Sound(n, lost, drift) && Freed(n, e).Some?
    ensures var slot := Freed(n, e).value;
      slot < |n.taken| && n.taken[slot] && Step(n, e).taken == n.taken[slot := false]
  {
    assert Live(n.pods, e.key) && HeldBy(n.pods, n.pods[e.key].slot);
  }

  lemma EmptySound(slots: nat)
    ensures Sound(Empty(slots), {}, 0)
  {
    assert CompletedLive(Empty(slots).pods) == {};
  }

  /** From a fresh start, over every run: the gauge is the number of completed live pods, plus one for each late
      success and minus one for each late restart or end. If no live pod is robbed, the taken slots are exactly the
      live pods'. */
  lemma FreshRun(slots: nat, events: seq<Event>)
    ensures var n := Run(Empty(slots), events);
      && n.running == |CompletedLive(n.pods)| + LateSuccesses(Empty(slots), events) - LateEnds(Empty(slots), events)
      && (RunSpares(Empty(slots), events) ==>
            Sound(n, {}, RunDrifts(Empty(slots), events))
            && forall i :: 0 <= i < |n.taken| ==> (n.taken[i] <==> HeldBy(n.pods, i)))
  {
    EmptySound(slots);
    RunStaysCounted(Empty(slots), 0, events);
    DriftsAreLate(Empty(slots), events);
    if RunSpares(Empty(slots), events) { RunStaysSound(Empty(slots), {}, 0, events); }
  }

  // ---- after a restart of the provider ----

  predicate DistinctKeys(listed: seq<Listed>) {
    forall i, j :: 0 <= i < j < |listed| ==> listed[i].key != listed[j].key
  }

  /** The slots taken by pods that are then reported failed. */
  function LostSlots(n: Node, listed: seq<Listed>): set<nat>
    requires forall p :: p in listed ==> p.slot < |n.taken|
  {
    if listed == [] then {}
    else
      var init, p := listed[..|listed| - 1], listed[|listed| - 1];
      LostSlots(n, init)
      + if p.running && !Recover(n, init).taken[p.slot] && !p.hasMachine && p.restartNever then {p.slot} else {}
  }

  function RestoredCount(n: Node, listed: seq<Listed>): nat
    requires forall p :: p in listed ==> p.slot < |n.taken|
  {
    if listed == [] then 0
    else
      var init, p := listed[..|listed| - 1], listed[|listed| - 1];
      RestoredCount(n, init) + if p.running && !Recover(n, init).taken[p.slot] && p.hasMachine then 1 else 0
  }

  /** Recovery gives distinct slots for any annotations in range. It loses the slots of failed pods for good, and
      leaves the gauge short by the number of restored pods. */
  lemma {:induction false} RecoveryIsSound(slots: nat, listed: seq<Listed>)
    requires DistinctKeys(listed) && forall p :: p in listed ==> p.slot < slots
    ensures var n := Recover(Empty(slots), listed);
      && Sound(n, LostSlots(Empty(slots), listed), RestoredCount(Empty(slots), listed))
      && n.running == 0 && n.orphans == [] && n.zombies == []
      && (forall k :: k in n.pods ==> exists i :: 0 <= i < |listed| && listed[i].key == k)
    decreases |listed|
  {
    var n0 := Empty(slots);
    if listed == [] {
      assert CompletedLive(n0.pods) == {};
    } else {
      var init, p := listed[..|listed| - 1], listed[|listed| - 1];
      RecoveryIsSound(slots, init);
      var n := Recover(n0, init);
      forall k | k in n.pods ensures exists i :: 0 <= i < |listed| && listed[i].key == k {
        var i :| 0 <= i < |init| && init[i].key == k;
        assert listed[i].key == k;
      }
      assert listed[|listed| - 1].key == p.key;
      RecoverOneIsSound(n, LostSlots(n0, init), RestoredCount(n0, init), p);
    }
  }

  lemma RecoverOneIsSound(n: Node, lost: set<nat>, drift: int, p: Listed)
    requires Sound(n, lost, drift) && p.slot < |n.taken| && p.key !in n.pods && n.orphans == [] && n.zombies == []
    ensures var takes := p.running && !n.taken[p.slot];
      Sound(RecoverOne(n, p), lost + (if takes && !p.hasMachine && p.restartNever then {p.slot} else {}),
            drift + if takes && p.hasMachine then 1 else 0)
  {
    var n' := RecoverOne(n, p);
    assert lost + {} == lost;
    if p.running && !n.taken[p.slot] {
      if p.hasMachine {
        PodAdded(n, n', lost, drift, drift + 1, p.key, n'.pods[p.key]);
      } else if !p.restartNever {
        PodAdded(n, n', lost, drift, drift, p.key, n'.pods[p.key]);
      } else {
        SlotLost(n.taken, n.pods, lost, p.slot);
      }
    }
  }

  lemma SlotLost(taken: seq<bool>, pods: map<string, Pod>, lost: set<nat>, slot: nat)
    requires SlotsSound(taken, pods, lost) && slot < |taken| && !taken[slot]
    ensures SlotsSound(taken[slot := true], pods, lost + {slot})
  {
    assert !HeldBy(pods, slot);
  }

  /** Over every run after a recovery in which no live pod is robbed: live pods keep distinct taken slots. The taken
      slots are exactly theirs if and only if no listed pod took the failing branch. Whatever the run, the gauge counts
      the completed live pods if and only if as many late restarts and ends are missing as pods were restored. */
  lemma RecoveredRun(slots: nat, listed: seq<Listed>, events: seq<Event>)
    requires DistinctKeys(listed) && forall p :: p in listed ==> p.slot < slots
    ensures var start := Recover(Empty(slots), listed);
      var n, lost, restored := Run(start, events), LostSlots(Empty(slots), listed), RestoredCount(Empty(slots), listed);
      && (n.running == |CompletedLive(n.pods)|
          <==> restored + LateEnds(start, events) == LateSuccesses(start, events))
      && (RunSpares(start, events) ==>
            Sound(n, lost, restored + RunDrifts(start, events))
            && ((forall i :: 0 <= i < |n.taken| ==> (n.taken[i] <==> HeldBy(n.pods, i))) <==> lost == {}))
  {
    var start, lost := Recover(Empty(slots), listed), LostSlots(Empty(slots), listed);
    RecoveryIsSound(slots, listed);
    RunStaysCounted(start, RestoredCount(Empty(slots), listed), events);
    DriftsAreLate(start, events);
    if RunSpares(start, events) {
      RunStaysSound(start, lost, RestoredCount(Empty(slots), listed), events);
      LostInRange(slots, listed);
      RunKeepsLength(start, events);
      LostAreNotHeld(Run(start, events), lost, RestoredCount(Empty(slots), listed) + RunDrifts(start, events));
    }
  }

  lemma LostAreNotHeld(n: Node, lost: set<nat>, drift: int)
    requires Sound(n, lost, drift) && forall i :: i in lost ==> i < |n.taken|
    ensures (forall i :: 0 <= i < |n.taken| ==> (n.taken[i] <==> HeldBy(n.pods, i))) <==> lost == {}
  {
    forall i | i in lost ensures n.taken[i] && !HeldBy(n.pods, i) {
      assert forall k :: k in n.pods && !n.pods[k].finalized ==> Live(n.pods, k);
    }
    assert lost != {} ==> exists i :: i in lost;
  }

  lemma {:induction false} RunKeepsLength(n: Node, events: seq<Event>)
    ensures |Run(n, events).taken| == |n.taken|
    decreases |events|
  {
    if events == [] {
    } else {
      RunKeepsLength(Step(n, events[0]), events[1..]);
    }
  }

  lemma {:induction false} LostInRange(slots: nat, listed: seq<Listed>)
    requires forall p :: p in listed ==> p.slot < slots
    ensures forall i :: i in LostSlots(Empty(slots), listed) ==> i < slots
    decreases |listed|
  {
    if listed == [] {
    } else {
      LostInRange(slots, listed[..|listed| - 1]);
    }
  }

  // ---- late successes ----

  /** A deleted pod whose cancelled run gets through: nothing is in the table, no slot is taken, and one pod is counted
      as running. */
  lemma LateSuccessMiscounts(key: string)
    ensures var n := Run(Empty(1), [Created(key, 1), DeleteAsked(key, true), OrphanEnded(0, true)]);
      n.pods == map[] && n.taken == [false] && n.zombies == [Stray(key, 0)] && n.running == 1
  {
    var events := [Created(key, 1), DeleteAsked(key, true), OrphanEnded(0, true)];
    var n1 := Step(Empty(1), Created(key, 1));
    assert n1.pods == map[key := NEW_POD] && n1.taken == [true];
    var n2 := Step(n1, DeleteAsked(key, true));
    assert n2.pods == map[] && n2.orphans == [Stray(key, 0)] && n2.taken == [false];
    var n3 := Step(n2, OrphanEnded(0, true));
    assert n3.zombies == [Stray(key, 0)];
    ThreeEvents(Empty(1), events);
  }

  lemma ThreeEvents(n: Node, events: seq<Event>)
    requires |events| == 3
    ensures Run(n, events) == Step(Step(Step(n, events[0]), events[1]), events[2])
  {
    var n1 := Step(n, events[0]);
    var n2 := Step(n1, events[1]);
    assert events[1..][1..] == [events[2]] && [events[2]][1..] == [];
    assert Run(n2, [events[2]]) == Run(Step(n2, events[2]), []);
  }

  lemma {:induction false} RunAppends(n: Node, xs: seq<Event>, ys: seq<Event>)
    ensures Run(n, xs + ys) == Run(Run(n, xs), ys)
    decreases |xs|
  {
    if xs == [] {
      assert xs + ys == ys;
    } else {
      assert (xs + ys)[1..] == xs[1..] + ys;
      RunAppends(Step(n, xs[0]), xs[1..], ys);
    }
  }

  /** When its container then ends, the loop looks the key up in vain: the provider crashes. */
  lemma LateEndCrashes(key: string)
    ensures Run(Empty(1), [Created(key, 1), DeleteAsked(key, true), OrphanEnded(0, true),
                           ZombieTicked(0, ContainerEnded)]).crashed
  {
    var first := [Created(key, 1), DeleteAsked(key, true), OrphanEnded(0, true)];
    var last := [ZombieTicked(0, ContainerEnded)];
    LateSuccessMiscounts(key);
    assert first + last == [Created(key, 1), DeleteAsked(key, true), OrphanEnded(0, true),
                            ZombieTicked(0, ContainerEnded)];
    RunAppends(Empty(1), first, last);
    var n := Run(Empty(1), first);
    assert last[1..] == [];
    assert Run(n, last) == Run(Step(n, last[0]), []);
  }

  /** If the pod was created again and runs, the loop cancels the new pod's loop and frees its slot: the next pod gets
      the same slot, and two live pods share it. */
  lemma LateEndRobs(key: string, other: string)
    requires key != other
    ensures var n := Run(Empty(1), [Created(key, 1), DeleteAsked(key, true), OrphanEnded(0, true)]
                                   + [Created(key, 1), Provisioned(key, true), ZombieTicked(0, ContainerEnded)]
                                   + [Created(other, 1)]);
      && Live(n.pods, key) && Live(n.pods, other) && n.pods[key].slot == n.pods[other].slot
      && n.pods[key].completed && !n.pods[key].lifecycle
  {
    var first := [Created(key, 1), DeleteAsked(key, true), OrphanEnded(0, true)];
    var second := [Created(key, 1), Provisioned(key, true), ZombieTicked(0, ContainerEnded)];
    var third := [Created(other, 1)];
    LateSuccessMiscounts(key);
    var n3 := Run(Empty(1), first);
    LateSuccessLeaves(key);
    RunAppends(Empty(1), first + second, third);
    RunAppends(Empty(1), first, second);
    ThreeEvents(n3, second);
    var n4 := Step(n3, second[0]);
    assert n4.taken == [true] && n4.pods == map[key := NEW_POD];
    var n5 := Step(n4, second[1]);
    var n6 := Step(n5, second[2]);
    assert n6.taken == [false] && n6.pods[key].slot == 0;
    assert third[1..] == [] && Run(n6, third) == Run(Step(n6, third[0]), []);
  }

  lemma LateSuccessLeaves(key: string)
    ensures !Run(Empty(1), [Created(key, 1), DeleteAsked(key, true), OrphanEnded(0, true)]).crashed
  {
    ThreeEvents(Empty(1), [Created(key, 1), DeleteAsked(key, true), OrphanEnded(0, true)]);
  }

  // ---- finished pods ----

  /** A pod that finished keeps its place in the table and its slot number, while the next pod gets the slot. */
  lemma FinishedSlotIsReused(a: string, b: string)
    requires a != b
    ensures var n := Run(Empty(1), [Created(a, 1), Provisioned(a, true), Ticked(a, ContainerEnded)] + [Created(b, 1)]);
      && a in n.pods && n.pods[a].finalized && Live(n.pods, b)
      && n.pods[a].slot == n.pods[b].slot
  {
    var first, last := [Created(a, 1), Provisioned(a, true), Ticked(a, ContainerEnded)], [Created(b, 1)];
    RunAppends(Empty(1), first, last);
    ThreeEvents(Empty(1), first);
    var n1 := Step(Empty(1), first[0]);
    assert n1.taken == [true];
    var n3 := Step(Step(n1, first[1]), first[2]);
    assert n3.taken == [false];
    assert last[1..] == [] && Run(n3, last) == Run(Step(n3, last[0]), []);
  }
}
