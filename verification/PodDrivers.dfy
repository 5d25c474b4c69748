/** Who works on a pod: over every run, which live pods have neither a provisioning run nor a lifecycle loop. */
module PodDrivers {
  import opened Wrappers
  import opened Provider

  // ---- single events ----

  /** A creation is refused exactly for several containers or when no slot is free; otherwise the pod gets the lowest
      free slot and a provisioning run. */
  lemma CreateExactly(n: Node, key: string, containers: nat)
    ensures var (n', error) := Create(n, key, containers);
      && (error == Some(MultipleContainers) <==> containers > 1)
      && (error == Some(NoFreeSlot) <==> containers <= 1 && forall i :: 0 <= i < |n.taken| ==> n.taken[i])
      && (error.Some? ==> n' == n)
      && (error.None? ==>
            && key in n'.pods && n'.pods == n.pods[key := n'.pods[key]]
            && var pod := n'.pods[key];
               && pod.provisioning && !pod.lifecycle && !pod.completed && !pod.finalized && !pod.looped
               && pod.slot < |n.taken| && !n.taken[pod.slot] && (forall i :: 0 <= i < pod.slot ==> n.taken[i])
               && n' == n.(taken := n.taken[pod.slot := true], pods := n'.pods))
  {
    FirstUnassignedIsLeast(n.taken, 0);
  }

  /** A deletion is an error exactly for an unknown pod and when the machine of a completed, unfinished pod could not be
      destroyed. Otherwise the pod leaves the table, its slot is free again unless it was given back before, and a
      provisioning run of it goes on as that of a deleted pod. */
  lemma DeleteExactly(n: Node, key: string, destroyed: bool)
    ensures var (n', r) := Delete(n, key, destroyed);
      && (r == PodNotFound <==> key !in n.pods) && (r == PodNotFound ==> n' == n)
      && (r == DestroyFailed
          <==> key in n.pods && n.pods[key].completed && !n.pods[key].finalized && !destroyed)
      && (r == DestroyFailed ==> n' == n.(pods := n.pods[key := n.pods[key].(lifecycle := false)]))
      && (r == Deleted ==>
            var pod := n.pods[key];
            var slotKept := pod.completed && pod.finalized;
            && n'.pods == n.pods - {key} && n'.zombies == n.zombies && n'.crashed == n.crashed
            && n'.taken == (if slotKept || pod.slot >= |n.taken| then n.taken else n.taken[pod.slot := false])
            && n'.running == n.running - (if pod.completed && !pod.finalized then 1 else 0)
            && n'.orphans
               == if !pod.completed && pod.provisioning then n.orphans + [Stray(key, pod.slot)] else n.orphans)
  {
  }

  /** When a policy restart is due, the pod's loop gives way to a provisioning run: exactly that run is active then, on
      the same slot, the pod counts as running no more, and nothing else changes. */
  lemma RestartStartsRun(n: Node, key: string)
    requires !n.crashed && key in n.pods && n.pods[key].lifecycle && DrivenOnce(n.pods[key])
    ensures var n' := Step(n, Ticked(key, ContainerRestarts));
      && key in n'.pods && n' == n.(pods := n.pods[key := n'.pods[key]], running := n.running - 1)
      && n'.pods[key].provisioning && !n'.pods[key].lifecycle && !n'.pods[key].completed
      && !n'.pods[key].finalized && n'.pods[key].slot == n.pods[key].slot
      && n'.pods[key].looped == n.pods[key].looped
  {
  }

  /** When its run ends, the pod has a loop exactly if the run succeeded. */
  lemma RunEnds(n: Node, key: string, ok: bool)
    requires !n.crashed && key in n.pods && n.pods[key].provisioning && DrivenOnce(n.pods[key])
    ensures var n' := Step(n, Provisioned(key, ok));
      && key in n'.pods
      && n' == n.(pods := n.pods[key := n'.pods[key]], running := n.running + if ok then 1 else 0)
      && !n'.pods[key].provisioning && n'.pods[key].lifecycle == n'.pods[key].completed == ok
      && !n'.pods[key].finalized && n'.pods[key].slot == n.pods[key].slot
      && (n'.pods[key].looped <==> ok || n.pods[key].looped)
  {
  }

  // ---- idle pods ----

  /** The pods left idle by what has happened: a run that failed, a deletion whose destroy failed, and the end of a
      deleted pod that cancels the loop of the pod under its key leave a pod idle; a start ends that, and so does the
      pod's own end. */
  function IdleAfter(n: Node, idle: set<string>, e: Event): set<string> {
    if n.crashed then idle
    else
      match e
      case Created(key, containers) => if key in n.pods then idle else idle - {key}
      case Provisioned(key, ok) =>
        if key in n.pods && n.pods[key].provisioning && !ok then idle + {key} else idle
      case DeleteAsked(key, destroyed) =>
        if key in n.pods && n.pods[key].completed && !n.pods[key].finalized && !destroyed then idle + {key}
        else idle - {key}
      case ZombieTicked(i, ContainerEnded) =>
        if i < |n.zombies| && n.zombies[i].key in n.pods && n.pods[n.zombies[i].key].lifecycle
           && n.pods[n.zombies[i].key].looped
        then idle + {n.zombies[i].key} else idle
      case _ => idle
  }

  function IdleAfterRun(n: Node, idle: set<string>, events: seq<Event>): set<string>
    decreases |events|
  {
    if events == [] then idle else IdleAfterRun(Step(n, events[0]), IdleAfter(n, idle, events[0]), events[1..])
  }

  /** A live pod is idle, or driven by exactly its phase's driver: the provisioning run until it is completed, the
      lifecycle loop from then on. */
  predicate Driven(n: Node, idle: set<string>) {
    && (forall k :: k in n.pods ==> DrivenOnce(n.pods[k]))
    && (forall k :: k in idle ==> k in n.pods && !n.pods[k].finalized)
    && (forall k :: k in n.pods && !n.pods[k].finalized ==>
          && (k in idle <==> !n.pods[k].provisioning && !n.pods[k].lifecycle)
          && (k !in idle ==> n.pods[k].provisioning == !n.pods[k].completed
                             && n.pods[k].lifecycle == n.pods[k].completed))
  }

  lemma StepStaysDriven(n: Node, idle: set<string>, e: Event)
    requires Driven(n, idle)
    ensures Driven(Step(n, e), IdleAfter(n, idle, e))
  {
  }

  /** Over every run, with late successes, ends and crashes: a live pod has neither a run nor a loop exactly if it was
      left idle since its last start, and otherwise it has exactly the one it should have. */
  lemma {:induction false} RunStaysDriven(n: Node, idle: set<string>, events: seq<Event>)
    requires Driven(n, idle)
    ensures Driven(Run(n, events), IdleAfterRun(n, idle, events))
    decreases |events|
  {
    if events == [] {
    } else {
      StepStaysDriven(n, idle, events[0]);
      RunStaysDriven(Step(n, events[0]), IdleAfter(n, idle, events[0]), events[1..]);
    }
  }

  // ---- loops past and present ----

  /** The pods in the table that have had a lifecycle loop: it starts when a run succeeds, and leaving the table ends
      the memory of it. */
  function LoopedAfter(n: Node, looped: set<string>, e: Event): set<string> {
    if n.crashed then looped
    else
      match e
      case Provisioned(key, true) => if key in n.pods && n.pods[key].provisioning then looped + {key} else looped
      case DeleteAsked(key, destroyed) =>
        if key in n.pods && n.pods[key].completed && !n.pods[key].finalized && !destroyed then looped
        else looped - {key}
      case _ => looped
  }

  function LoopedAfterRun(n: Node, looped: set<string>, events: seq<Event>): set<string>
    decreases |events|
  {
    if events == [] then looped else LoopedAfterRun(Step(n, events[0]), LoopedAfter(n, looped, events[0]), events[1..])
  }

  ghost predicate Remembers(n: Node, looped: set<string>) {
    forall k :: k in looped <==> k in n.pods && n.pods[k].looped
  }

  lemma StepRemembers(n: Node, looped: set<string>, e: Event)
    requires Remembers(n, looped)
    ensures Remembers(Step(n, e), LoopedAfter(n, looped, e))
  {
  }

  /** Over every run: a pod has the cancel function of a loop, for a deleted pod's end to call, exactly if a run of it
      has succeeded since it was created, restarts, failures and its own end notwithstanding. */
  lemma {:induction false} RunRemembers(n: Node, looped: set<string>, events: seq<Event>)
    requires Remembers(n, looped)
    ensures Remembers(Run(n, events), LoopedAfterRun(n, looped, events))
    decreases |events|
  {
    if events == [] {
    } else {
      StepRemembers(n, looped, events[0]);
      RunRemembers(Step(n, events[0]), LoopedAfter(n, looped, events[0]), events[1..]);
    }
  }

  // ---- the work on deleted pods ----

  /** What a deleted pod's run or loop does: a run ends for good, or goes on as a loop if it succeeded; a loop goes back
      to a run when a restart is due; and the end of its container crashes the provider unless the pod that has its key
      now has had a loop, which is cancelled then. */
  lemma StraysExactly(n: Node, i: nat)
    requires !n.crashed
    ensures i < |n.orphans| ==>
      var left := n.orphans[..i] + n.orphans[i + 1..];
      && Step(n, OrphanEnded(i, false)) == n.(orphans := left)
      && Step(n, OrphanEnded(i, true))
         == n.(orphans := left, zombies := n.zombies + [n.orphans[i]], running := n.running + 1)
    ensures i < |n.zombies| ==>
      var z := n.zombies[i];
      && Step(n, ZombieTicked(i, ContainerRestarts))
         == n.(zombies := n.zombies[..i] + n.zombies[i + 1..], orphans := n.orphans + [z], running := n.running - 1)
      && var n' := Step(n, ZombieTicked(i, ContainerEnded));
         && n'.orphans == n.orphans && n'.zombies == n.zombies && n'.running == n.running - 1
         && (n'.crashed <==> z.key !in n.pods || !n.pods[z.key].looped)
         && (n'.crashed ==> n'.pods == n.pods && n'.taken == n.taken)
         && (!n'.crashed ==>
               && n'.pods == n.pods[z.key := n.pods[z.key].(lifecycle := false)]
               && n'.taken == if z.slot < |n.taken| then n.taken[z.slot := false] else n.taken)
  {
  }

  /** How much of such work an event adds or ends. */
  function WorkChange(n: Node, e: Event): int {
    if n.crashed then 0
    else
      match e
      case DeleteAsked(key, _) =>
        if key in n.pods && !n.pods[key].completed && n.pods[key].provisioning then 1 else 0
      case OrphanEnded(i, success) => if i < |n.orphans| && !success then -1 else 0
      case _ => 0
  }

  function WorkChanges(n: Node, events: seq<Event>): int
    decreases |events|
  {
    if events == [] then 0 else WorkChange(n, events[0]) + WorkChanges(Step(n, events[0]), events[1..])
  }

  lemma StepConservesWork(n: Node, e: Event)
    ensures var n' := Step(n, e);
      |n'.orphans| + |n'.zombies| == |n.orphans| + |n.zombies| + WorkChange(n, e)
  {
  }

  /** Over every run no work on a deleted pod gets lost: there is as much of it as pods were deleted under their
      provisioning run, less the runs that then failed. */
  lemma {:induction false} RunConservesWork(n: Node, events: seq<Event>)
    ensures var n' := Run(n, events);
      |n'.orphans| + |n'.zombies| == |n.orphans| + |n.zombies| + WorkChanges(n, events)
    decreases |events|
  {
    if events == [] {
    } else {
      StepConservesWork(n, events[0]);
      RunConservesWork(Step(n, events[0]), events[1..]);
    }
  }

  // ---- recovery ----

  /** An earlier pod in the list has the slot. */
  predicate TakenBefore(listed: seq<Listed>, i: int)
    requires 0 <= i < |listed|
  {
    exists j :: 0 <= j < i && listed[j].running && listed[j].slot == listed[i].slot
  }

  /** The object recovery makes for a listed pod, if any. */
  function RecoveredPod(p: Listed): Option<Pod> {
    if p.hasMachine then Some(Pod(p.slot, false, true, false, true, true))
    else if !p.restartNever then Some(Pod(p.slot, false, false, true, false, false))
    else None
  }

  /** A slot is taken after recovery exactly if some listed running pod asks for it. */
  lemma {:induction false} RecoveredSlots(slots: nat, listed: seq<Listed>, slot: nat)
    requires slot < slots && forall p :: p in listed ==> p.slot < slots
    ensures Recover(Empty(slots), listed).taken[slot]
        <==> exists j :: 0 <= j < |listed| && listed[j].running && listed[j].slot == slot
    decreases |listed|
  {
    if listed == [] {
    } else {
      var init, last := listed[..|listed| - 1], |listed| - 1;
      RecoveredSlots(slots, init, slot);
      RecoveredSlots(slots, init, listed[last].slot);
      assert forall j :: 0 <= j < |init| ==> init[j] == listed[j];
    }
  }

  lemma OthersAreRecovered(n: Node, p: Listed, key: string)
    requires p.slot < |n.taken| && key != p.key
    ensures key in RecoverOne(n, p).pods <==> key in n.pods
    ensures key in n.pods ==> RecoverOne(n, p).pods[key] == n.pods[key]
  {
  }

  lemma LastRecovered(n: Node, p: Listed)
    requires p.slot < |n.taken| && p.key !in n.pods
    ensures var n' := RecoverOne(n, p);
      && (p.key in n'.pods <==> p.running && !n.taken[p.slot] && RecoveredPod(p).Some?)
      && (p.key in n'.pods ==> n'.pods[p.key] == RecoveredPod(p).value)
  {
  }

  lemma KeyIsNew(slots: nat, listed: seq<Listed>, last: Listed)
    requires DistinctKeys(listed + [last]) && forall p :: p in listed ==> p.slot < slots
    ensures last.key !in Recover(Empty(slots), listed).pods
  {
    var all := listed + [last];
    assert forall i :: 0 <= i < |listed| ==> all[i] == listed[i];
    assert forall i :: 0 <= i < |listed| ==> all[i].key != all[|listed|].key;
    RecoveryIsSound(slots, listed);
  }

  /** Which pods are recovered: those that run and whose slot no earlier one has, with their loop if they have a
      machine, with a provisioning run if not, and not at all if they must not be restarted either. */
  lemma {:induction false} RecoverExactly(slots: nat, listed: seq<Listed>, i: nat)
    requires DistinctKeys(listed) && i < |listed| && forall p :: p in listed ==> p.slot < slots
    ensures var n, p := Recover(Empty(slots), listed), listed[i];
      && (p.key in n.pods <==> p.running && !TakenBefore(listed, i) && RecoveredPod(p).Some?)
      && (p.key in n.pods ==> n.pods[p.key] == RecoveredPod(p).value)
    decreases |listed|
  {
    var init, last := listed[..|listed| - 1], listed[|listed| - 1];
    var n := Recover(Empty(slots), init);
    assert listed == init + [last];
    if i < |init| {
      RecoverExactly(slots, init, i);
      assert TakenBefore(init, i) <==> TakenBefore(listed, i);
      OthersAreRecovered(n, last, listed[i].key);
    } else {
      KeyIsNew(slots, init, last);
      RecoveredSlots(slots, init, last.slot);
      LastRecovered(n, last);
    }
  }

  lemma {:induction false} RecoveryIsDriven(slots: nat, listed: seq<Listed>)
    requires forall p :: p in listed ==> p.slot < slots
    ensures Driven(Recover(Empty(slots), listed), {})
    decreases |listed|
  {
    if listed == [] {
    } else {
      RecoveryIsDriven(slots, listed[..|listed| - 1]);
    }
  }

  /** From a start of the provider, with whatever pods it finds, and over every run then. */
  lemma StartedRunIsDriven(slots: nat, listed: seq<Listed>, events: seq<Event>)
    requires forall p :: p in listed ==> p.slot < slots
    ensures var start := Recover(Empty(slots), listed);
      Driven(Run(start, events), IdleAfterRun(start, {}, events))
  {
    RecoveryIsDriven(slots, listed);
    RunStaysDriven(Recover(Empty(slots), listed), {}, events);
  }
}
