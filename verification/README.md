# Verified model of the anex provider and gateway

The system runs Kubernetes pods on machines rented from GPU clouds. A provider process gives each pod a gateway
slot, rents and starts a machine for it, watches and restarts its container, and destroys the machine in the end.
A gateway process turns VirtualService objects into gateway ports, a Service, an EndpointSlice and HAProxy
listeners, and each machine opens one tunnel per container port. This project models both, and proves what they
keep over whole runs.

`dafny verify dfyconfig.toml` checks all files.

## How the model is built

| file | models |
|---|---|
| PortAlloc.dfy | the port allocator: two maps updated in place, and the ledger they stand for |
| HAProxy.dfy, HAProxySafety.dfy, HAProxySkips.dfy | the Data Plane API as a transactional store, the manager's calls on it, what they leave behind, and which of them skip a listener |
| Gateway.dfy, GatewayController.dfy | the reconcile as a value, and the controller's methods proved against it |
| ServiceCache.dfy | the generated Service seen through a cache that the update changes in place |
| GatewayRuns.dfy, GatewayIdempotence.dfy | runs of events, the status invariant, objects of others, reconciling twice |
| Published.dfy, GatewayReports.dfy | the published objects and the reported reason and condition in the API's own terms |
| GatewayAccounts.dfy, GatewayLeaks.dfy | who owns which gateway port over runs, and what leaks |
| Names.dfy, Tunnels.dfy, Routing.dfy | names, tunnel numbering, and the way from a Service port to a container port |
| GatewayFrontends.dfy, SettledRouting.dfy | when every HAProxy frontend is current, and exact routing then |
| StaleListeners.dfy, Misrouting.dfy | runs that end astray |
| VirtualPod.dfy | container state, conditions, restarts and backoff |
| Provisioning.dfy, ProvisioningOutcomes.dfy | the retry loop that gets a machine for a pod, and how it ends in terms of what was answered |
| Provider.dfy, PodDrivers.dfy | the table of pods, their slots, and who drives a pod |
| VastAI.dfy | choosing offers, labels, listing, pruning |
| Query.dfy, Shell.dfy, Logging.dfy | annotations to filters, shell quoting, log clean-up |
| Text.dfy, Wrappers.dfy | string operations, Option and Result |

Code that works in place is a class or a method with its loops. Each such method is proved against a function of
the old state; what the code promises is then proved of that function. Calls to other systems are answered by
parameters, so every theorem holds for every pattern of answers. A call to HAProxy can be served, be refused, or
be lost before or after it took effect; a write to the API server can land, fail, find the object there, or land
and be reported as failed. Map iteration orders are parameters too. Times are integers, prices are reals.

Users' edits are any specs at all, also such as the resource's schema refuses (at least one port and valid numbers,
deploy/chart/crds/anex.sh_virtualservices.yaml:87-127); the runs that end astray use only specs that it admits.

A step is one reconcile, or one section of the provider under a pod's lock; the start of a restart is part of the
step that decides it, and a lifecycle loop's first turn comes after provisioning was marked complete.

## Where the code differs from what it promises

Each of these is a lemma with a concrete case, an exact condition, or both.

- The turn that adds the finalizer throws the updated object away and writes the status from the old one
  (internal/gateway/controller.go:427-428, internal/gateway/controller.go:496-509), so the API server refuses that write. The ports of this turn are
  configured and never recorded: the next turn claims new ones, and the first ones stay allocated for the life of the
  controller (`GatewayLeaks.FirstPortsLeakForGood`, `GatewayLeaks.DeletedServiceLeaks`). `GatewayAccounts.FreshRunAccounts`
  counts exactly these leaks.
- Stale listeners: Configure never removes listeners of dropped service ports, and Remove knows only the last
  list (`Routing.DroppedListenerStays`). Renumbering a port is enough: the next turn gives the gateway port back and claims
  it again for the new number, while the old listener stays on it, so that the service itself also reaches its old target
  port (`StaleListeners.RenumberedPortMisroutes`). If the freed gateway port goes to another service, that one reaches the
  old pods (`StaleListeners.StaleListenerMisroutes`). `Routing.RunRoutesExactly` says exactly how far routing goes astray,
  `GatewayFrontends.StepKeepsCurrentExactly` when it starts to, and `SettledRouting.SettledRunRoutesExactly` that until
  then it does not.
- The controller keeps finished pods until their deletion, while the provider gives their slots away: a service that
  selects a finished pod leads to the pod that has its slot now (`Misrouting.FinishedPodMisroutes`,
  `Provider.FinishedSlotIsReused`).
- An update of the Service changes the cached copy before it is written. If the write fails, the next turn reports
  success for a NodePort Service that was never updated (`ServiceCache.RetryAfterFailure`).
- An EndpointSlice that already leads to the gateway on the right ports is left alone even if its service-name label is missing
  or names another Service, so that the Service leads nowhere although the reconcile succeeds (`Published.SliceDone`); no run
  from a cluster without EndpointSlices comes to that (`Published.FreshRunFindsSlices`).
- A pod whose provisioning run failed, or whose machine could not be destroyed, stays in the table with its slot and is worked
  on by nobody until it is deleted (`PodDrivers.RunStaysDriven`).
- A container port listed twice, as for two protocols, shifts the tunnels above it
  (`Tunnels.PositionsAgree`, `Tunnels.RepeatedPortMisroutes`).
- A failed re-allocation has released the old ports but leaves them in the status
  (`GatewayAccounts.TurnConservesExactly`, `GatewayLeaks.ExhaustionLosesPorts`).
- Configure reports success when a listener was skipped (`HAProxySafety.SkippedListenerReportsSuccess`, exactly by
  `HAProxySkips.SkipsExactly`). A removal can commit a dangling frontend where HAProxy accepts it: the model's store does,
  while HAProxy may refuse a configuration whose default backend is missing (`HAProxySafety.RemoveMayDangle`).
- Sanitized names clash across namespaces (`Names.ListenerNamesClash`).
- After a restart of the provider, slots of failed pods stay assigned for good and podsRunning misses the restored
  pods (`Provider.RecoveredRun`).
- The cancelled provisioning run of a deleted pod that gets through all the same is counted as running
  (`Provider.LateSuccessMiscounts`, exactly by `Provider.FreshRun`); when its container ends, the provider crashes or
  takes slot and loop from the pod that has the key by then (`Provider.LateEndCrashes`, `Provider.LateEndRobs`).
- From the 32nd counted crash in a row the backoff overflows, at first to a negative value
  (`VirtualPods.BackoffFits`, `VirtualPods.BackoffWrapsNegative`).
- A pod that stops responding keeps the phase Running until it is deleted or its container answers that it runs
  (`VirtualPods.StepEndsTogetherExactly`,
  `VirtualPods.FailedPodNeverEnds`).
- A machine that times out before its first report is not banned (`ProvisioningOutcomes.AwaitExactly`).
- Listing machines ends on a repeated token but not on a longer cycle (`VastAI.ListingEndsExactly`).
- The comment above `calculateBackendPort` (internal/gateway/reconcile.go:452-454) omits the + 1 that the code adds. Comments and tests
  expect ClusterIP None (internal/gateway/reconcile.go:233), but the code never sets it, so a ClusterIP Service is
  written at every reconcile. The comment on the machine label (cloudprovider/vastai/client.go:73) names five parts; the code uses
  four. The model follows the code in each case.

## Model

| member | source | states |
|---|---|---|
| Routing.RunRoutesExactly | internal/gateway/reconcile.go:21-116 | over every run from an empty controller and an empty HAProxy, with any failing and lost writes, failing HAProxy calls and exhausted ranges: after a turn that succeeds with HAProxy serving every call, Service port p leads (through an EndpointSlice labelled as the Service's own whose one address is the gateway, by port name, listener, server, tunnel) to exactly the target port on exactly the running pods of the namespace that match the selector and expose it, and besides only through the slots of finished pods and where an older listener on the same gateway port leads; all provided that an older slice which already led to the gateway on these ports had the label |
| Routing.ReconcileRoutesExactly | internal/gateway/reconcile.go:21-116 | the same for one reconcile from any world whose allocator is consistent and whose record has distinct ports |
| Routing.TurnRoutesExactly | internal/gateway/controller.go:382-436 | the same for one turn of the queue, also the one that adds the finalizer |
| Routing.ServiceRoutesExactly | internal/gateway/reconcile.go:253-473 | the same for the publication steps: Service ports, slice ports, listeners and servers computed apart agree |
| Routing.NewServiceRoutesExactly | internal/gateway/controller.go:382-436 | the first service of a fresh cluster, created and taken from the queue once with the calls about the published objects answered: its ports reach exactly the target port of exactly the matching pods that expose it, although the status write of that turn is refused |
| Published.ServiceDone | internal/gateway/reconcile.go:223-334 | a Service that was ensured is owned and has, spelled out, the type, the two labels and for each allocation the port whose target is the gateway port, with protocol and node port; unless it was so already its selector is empty; no other Service changed |
| Published.SliceDone | internal/gateway/reconcile.go:336-397 | an EndpointSlice that was ensured is owned, has the gateway as its one address and the gateway ports under their names; it is labelled as the Service's own if and only if an older one that already led there was; no other changed |
| Published.ServiceExactly | internal/gateway/reconcile.go:223-334 | ensuring succeeds if and only if the lookup is answered, the Service is absent or owned, and it is as asked for already or its write lands; it is a conflict if and only if the Service is foreign or the write finds another; and exactly what is stored afterwards, selector, owners and cluster address included |
| Published.SliceExactly | internal/gateway/reconcile.go:336-397 | the same for the EndpointSlice: a write that lands, reported or not, leaves the gateway's address, the gateway ports and these three labels, kubernetes.io/service-name among them |
| Published.AllocationExactly | internal/gateway/reconcile.go:138-205 | recorded ports that fit the spec by name, number and target are kept; otherwise the spec ports in turn get the lowest ports that are free once the recorded ones are given back, with their protocol or TCP, if and only if there are enough |
| Published.ReasonExactly | internal/gateway/reconcile.go:21-136 | the reason of a reconcile in terms of what it finds: UnsupportedSpec, PortAllocationErr, ServiceConflict and Reconciled each if and only if a condition on spec, free ports, stored objects and answers holds; ReconcileError otherwise |
| Published.FinalizerExactly | internal/gateway/controller.go:420-436 | a turn that finds no finalizer adds it behind the others if that write is done and stores nothing else; unless the write was reported as done it does nothing else |
| Published.FinalizationExactly | internal/gateway/reconcile.go:475-522 | whatever fails: a finalization deletes the Service and the EndpointSlice each if and only if it is found, owned and the deletion is done, and takes the finalizer, and with the last one the record, if and only if that write is done |
| Published.RunStaysLabelled | internal/gateway/reconcile.go:357-395 | over every run, whatever fails: every EndpointSlice has the service-name label of the Service its key names, if so at the start |
| Published.FreshRunFindsSlices | internal/gateway/reconcile.go:357-395 | from a cluster without EndpointSlices, over every run: every slice has its label, and every service finds its slice labelled |
| GatewayReports.TurnReportsReady | internal/gateway/reconcile.go:21-116 | after a reconcile whose status write is accepted if it comes to one, the stored Ready condition is true if and only if the reconcile succeeded, has its reason, and is kept with text and time if it said so before; the generation is observed, the ports held are recorded, other conditions stay |
| GatewayReports.RunStaysTruthful | internal/gateway/reconcile.go:27-116 | over every run, with any failing calls, a stored Ready condition is true if and only if its reason is Reconciled, and false otherwise |
| GatewayReports.FreshRunReports | internal/gateway/reconcile.go:21-116 | both from a fresh start, for the next turn after any run |
| GatewayReports.PutConditionExactly | internal/gateway/reconcile.go:528-543 | setting a condition changes the first one of its kind if its status or reason changes, appends it if there is none, and leaves other kinds alone |
| Routing.FinalizeCleansUp | internal/gateway/reconcile.go:475-522 | with every call answered finalization leaves no recorded listener, port, owned object or finalizer of the service; of its ports exactly the leaked ones stay allocated |
| Routing.ServicePortLeads | internal/gateway/reconcile.go:253-351 | matching Service and EndpointSlice ports by name leads from a service port to its own gateway port and no other |
| Routing.GatewayPortLeads | internal/gateway/reconcile.go:408-450 | behind a gateway port are exactly the servers its listener asked for and those of other listeners already on it |
| Routing.TargetsLead | internal/gateway/reconcile.go:414-434 | the servers built for a target port, followed through their tunnels, reach that port on every running pod that serves it, what took over the slots of finished pods, and nothing else, if no serving pod lists a smaller port twice |
| Routing.ServerLeadsToSlot | internal/gateway/reconcile.go:455-473 | a server leads to whatever runs in the slot it was built for, at the position of the target port in the list of the pod it was built for |
| Routing.ServerLeads | internal/gateway/reconcile.go:455-473 | the address and port of a server lead to the pod of that slot and to the target port only |
| Routing.MatchesIsPermutation | internal/gateway/reconcile.go:140-164 | with distinct spec ports, allocations that pass the reuse test are a permutation of the spec ports |
| Routing.RunStaysManaged | internal/gateway/haproxy/manager.go:153-236 | over every run with any failing calls HAProxy holds only frontends with their own backend and the one bind |
| Routing.DroppedListenerStays | internal/gateway/haproxy/manager.go:122-151 | a listener whose service port was dropped outlives the next Configure and even the Remove of its owner |
| SettledRouting.SettledRunRoutesExactly | internal/gateway/reconcile.go:21-116 | over every run that keeps the frontends current, whatever else fails in it: the routes are exactly the asked-for ones and those through the slots of finished pods, provided the slice is found labelled; no older listener gets in the way |
| SettledRouting.PlainRunRoutesExactly | internal/gateway/reconcile.go:21-116 | the same under conditions on the events and the world before each: HAProxy serves every call, one namespace with clean names, no edit drops a service port number, a turn that must change ports finds enough free, no Service or EndpointSlice of others and answered calls, and port changes are written; in a cluster that had no EndpointSlices the slice is always found labelled |
| SettledRouting.SteadyRunKeepsCurrent | internal/gateway/haproxy/manager.go:122-151 | when HAProxy serves every call, runs in one namespace with clean names, in which no edit drops a service port number, re-allocating turns end Reconciled and port changes are written, keep every frontend current |
| SettledRouting.PlainIsSteady | internal/gateway/reconcile.go:138-205 | these outcomes follow from what can be looked up before the turn: enough free ports, no objects of others in the way, answered calls |
| GatewayFrontends.StepKeepsCurrentExactly | internal/gateway/haproxy/manager.go:122-200 | with any failing calls: an event leaves every committed frontend belonging to a stored service that wants it, in its last list and on a port it owns, if and only if it drops no committed listener's port, strands none on a port given away and leaves none behind on removal |
| GatewayFrontends.TurnKeepsCurrentExactly | internal/gateway/reconcile.go:21-116 | one reconcile does so if and only if HAProxy is not brought to rebind a frontend of the service whose port the turn gives up |
| GatewayFrontends.GivenUpExactly | internal/gateway/reconcile.go:166-204 | a service's port is lost in a turn if and only if it was recorded, the ports must change, and once the recorded ones are free either too few are or at least as many free ones lie below it as the spec has ports |
| GatewayFrontends.FinalizeKeepsCurrentExactly | internal/gateway/reconcile.go:475-522 | a finalization does so if and only if the removal deletes every frontend of the service or the service and its list stay |
| GatewayFrontends.EditKeepsCurrentExactly | internal/gateway/haproxy/manager.go:122-132 | an edit does so if and only if no port with a committed listener is dropped |
| GatewayFrontends.RunStaysCurrent | internal/gateway/haproxy/manager.go:122-200 | and so over runs |
| GatewayFrontends.OneNamespaceMayJoin | internal/gateway/reconcile.go:409-436 | in one namespace clean names are enough to keep the listeners of services apart |
| StaleListeners.RenumberedPortMisroutes | internal/gateway/reconcile.go:138-205 | a run from an empty cluster with every HAProxy call served: a service gets its ports, one is renumbered, and the next turn gives the gateway port back and claims it again; the new Service port then leads to the old target port of the old pods, since the old listener is still on the gateway port |
| StaleListeners.StaleListenerMisroutes | internal/gateway/haproxy/manager.go:122-132 | another run: a service is edited from more ports to j; the gateway port of its j-th goes to the next service that is created, whose Service port then leads to the first one's pods |
| Misrouting.FinishedPodMisroutes | internal/gateway/controller.go:310-326 | a run in which the controller still knows a finished pod whose slot another pod has: a service that selects the finished one leads to the other, which it does not select |
| Tunnels.ExtractContainerPorts | internal/gateway/controller.go:347-367 | whatever the map order, the controller's list is the one strictly ascending list of the ports that occur |
| Tunnels.ControllerPortsUnique | internal/gateway/controller.go:357-366 | there is only one such list |
| Tunnels.MachinePortsUnique | cloudprovider/vastai/client.go:314-314 | whatever algorithm sorts, the machine's list is the only ascending list of all the ports |
| Tunnels.SortIntsSorts | internal/gateway/controller.go:357-366 | sorting gives an ascending permutation |
| Tunnels.PositionsAgree | cloudprovider/vastai/onstart.go:107-111 | the controller's position of a port is its position in the machine's list (which keeps repeats) if and only if no smaller port is listed twice |
| Tunnels.RepeatedPortMisroutes | cloudprovider/runpod/onstart.go:45-49 | ports 80, 80, 443: the tunnel computed for 443 leads to 80 |
| Tunnels.GeneratePeers | cmd/gateway-init/main.go:64-83 | the loop gives slot i the address ending in 11 + i and the offset 10000 + 100 i |
| Tunnels.PeersBySlot | cmd/gateway-init/main.go:68-83 | peer i has address 10.254.254.(11 + i)/32 and offset 10000 + 100 i, and is the one the controller and the provider compute for slot i |
| Tunnels.TunnelsApart | cloudprovider/vastai/onstart.go:103-111 | with at most 99 ports a machine listens on its offset, for the agent on 8080, and on exactly one port more for each container port; machines of different slots never listen on one port |
| Tunnels.PeerAddressesDistinct | internal/gateway/controller.go:321-326 | two slots share a tunnel address only if they are one |
| GatewayRuns.NoPortChangeIsLostOverRuns | internal/gateway/reconcile.go:524-555 | over every run of edits, pods, deletions and reconciles with any failing or lost writes, a reconcile that changes allocatedPorts attempts the status write although the status is compared with a copy taken after the change |
| GatewayRuns.NoPortChangeIsLost | internal/gateway/reconcile.go:138-205 | the same for one reconcile, from the status invariant |
| GatewayRuns.RecordsStayKept | internal/gateway/reconcile.go:21-116 | every event keeps the invariant: a status that observed the current generation and got past allocation records ports that match the spec |
| GatewayRuns.RecordsKeptOverRun | internal/gateway/controller.go:382-436 | and so does every run |
| GatewayRuns.PutConditionIsFound | internal/gateway/reconcile.go:528-543 | after setting a condition it is found with its status and reason; the list stays equal only if it said so before |
| GatewayAccounts.FreshRunAccounts | internal/gateway/reconcile.go:138-205 | over every run from a fresh start whose later writes land and whose allocations fit: a port is allocated to a key if and only if that service's status records it or one of its finalizer turns claimed it; recorded ports are in range and no two services share one |
| GatewayAccounts.RunAccounts | internal/gateway/reconcile.go:138-205 | the same from any accounted world: what leaks is exactly what the finalizer turns claim |
| GatewayAccounts.StepAccountsExactly | internal/gateway/controller.go:382-436 | one event keeps the account, its leaks included, if and only if a condition on the event holds that never forbids the turn that adds the finalizer |
| GatewayAccounts.TurnConservesExactly | internal/gateway/reconcile.go:166-204 | one reconcile keeps it if and only if ports are kept, or new ones are claimed and their status write lands (or they are the old numbers), or exhaustion finds nothing to lose |
| GatewayAccounts.FinalizeConservesExactly | internal/gateway/reconcile.go:475-522 | finalizing frees exactly the service's recorded ports; the rest stays; the account survives if and only if the finalizer's removal is written or there was no port |
| GatewayAccounts.AccountedMeansDisjoint | internal/gateway/reconcile.go:166-204 | recorded and leaked ports are in range and no two services share one |
| GatewayAccounts.EnsurePortsOwners | internal/gateway/reconcile.go:138-205 | allocation leaves other owners alone, gives distinct ports, and fails if and only if fewer ports are free than needed once the old ones are released |
| GatewayAccounts.RunStaysSound | internal/gateway/reconcile.go:138-205 | over every run, whatever fails, the allocator's maps mirror each other and no status records a port twice |
| GatewayAccounts.UnrecordedIsForGood | internal/gateway/reconcile.go:166-186 | a port that is allocated to a key and not in its status stays so through every later run |
| GatewayLeaks.FirstPortsLeakForGood | internal/gateway/controller.go:420-436 | in every run: the ports claimed by the turn that adds the finalizer stay allocated for good and are never recorded, whatever happens before and after |
| GatewayLeaks.DeletedServiceLeaks | internal/gateway/controller.go:420-436 | the common life of a service: created, taken twice, deletion requested, finalized; it is gone and its first ports, one for each spec port, are still allocated to it |
| GatewayLeaks.ExhaustionLosesPorts | internal/gateway/reconcile.go:170-186 | a run from an empty cluster that exhausts the range 6000-9999: the re-allocation fails, and the status keeps ports that are free again |
| GatewayRuns.ForeignServiceSurvives | internal/gateway/reconcile.go:296-299 | over every run a Service that no VirtualService of that name owns stays unchanged, whatever becomes of the EndpointSlice |
| GatewayRuns.ForeignSliceSurvives | internal/gateway/reconcile.go:383-385 | and so does an EndpointSlice alone |
| GatewayIdempotence.ReconcileTwice | internal/gateway/reconcile.go:21-116 | a second reconcile of a ClusterIP service in an unchanged world changes neither allocator, Service, EndpointSlice nor HAProxy and writes no status, after success, validation error, exhaustion or conflict |
| GatewayIdempotence.CalmPublishDecides | internal/gateway/reconcile.go:48-116 | with every call answered publication succeeds unless a Service or EndpointSlice of that name belongs to somebody else, and then reports the conflict |
| GatewayIdempotence.PortsTwice | internal/gateway/reconcile.go:138-205 | allocating again after success or after exhaustion changes nothing |
| GatewayIdempotence.ServiceTwice | internal/gateway/reconcile.go:281-333 | ensuring the Service twice is ensuring it once, though the second call may write |
| GatewayIdempotence.SliceTwice | internal/gateway/reconcile.go:373-396 | ensuring the EndpointSlice twice is ensuring it once |
| GatewayIdempotence.ListenersOrderFree | internal/gateway/reconcile.go:207-221 | the listeners ask for the same servers in whatever order the pods are ranged over |
| GatewayController.Controller.Reconcile | internal/gateway/controller.go:382-436 | the method computes the turn of the value model: finalization, finalizer first, then reconcile with the outdated copy, whose status write is refused |
| GatewayController.Controller.ReconcileVirtualService | internal/gateway/reconcile.go:21-116 | validation, allocation, publication; the first failing step decides the reason written |
| GatewayController.Controller.EnsurePortAllocations | internal/gateway/reconcile.go:138-205 | reuse, or release and claim all, or roll back to the state after the release and keep the old record |
| GatewayController.Controller.ReusesAllocations | internal/gateway/reconcile.go:139-164 | the nested loops decide the reuse test |
| GatewayController.Controller.AllocateEach | internal/gateway/reconcile.go:177-201 | all ports or none: a failure restores the ledger exactly |
| GatewayController.Controller.EnsureGeneratedService | internal/gateway/reconcile.go:223-334 | create, conflict, skip or update; an update clears the selector |
| ServiceCache.RetryAfterFailure | internal/gateway/reconcile.go:281-333 | the update changes the cached Service before it is written: after a failed write the retry repairs the Service if and only if it is a ClusterIP Service that is not headless; otherwise it reports success and the API server keeps the outdated one |
| ServiceCache.OutdatedForGood | internal/gateway/reconcile.go:281-333 | and so do all later turns, until the API server sends the Service again |
| ServiceCache.FreshCacheIsEnsure | internal/gateway/reconcile.go:281-333 | with an up-to-date cache this is the step of the other models |
| GatewayController.Controller.EnsureEndpointSlice | internal/gateway/reconcile.go:336-397 | create, conflict, skip or update in place |
| GatewayController.Controller.GetMatchingPods | internal/gateway/reconcile.go:207-221 | the pods of the namespace that the selector matches |
| GatewayController.Controller.BuildListeners | internal/gateway/reconcile.go:411-442 | one listener per allocation with one server per exposing pod; a pod without the port is skipped |
| GatewayController.Controller.ConfigureHAProxy | internal/gateway/reconcile.go:408-450 | hands them to the manager under the service's key |
| GatewayController.Controller.SetConditionAndUpdate | internal/gateway/reconcile.go:524-555 | replaces or appends the condition in place and writes only a changed status |
| GatewayController.Controller.HandleFinalization | internal/gateway/reconcile.go:475-522 | removes HAProxy configuration, ports, owned objects and the finalizer, going on after failures |
| GatewayController.Controller.WithoutString | internal/gateway/controller.go:453-461 | drops every occurrence, keeps the order |
| Gateway.IndexOf | internal/gateway/reconcile.go:456-467 | the least position of the port, -1 if and only if it is absent |
| HAProxy.Manager.Configure | internal/gateway/haproxy/manager.go:122-132 | records the owner's listeners even if applying them fails |
| HAProxy.Manager.Remove | internal/gateway/haproxy/manager.go:134-151 | forgets the owner only if the removal did not fail |
| HAProxy.Manager.Rebuild | internal/gateway/haproxy/manager.go:826-841 | applies every owner, going on after failures |
| HAProxy.Manager.ApplyConfiguration | internal/gateway/haproxy/manager.go:153-200 | one transaction per listener; a failed step skips it, a failed commit ends the call |
| HAProxy.Manager.UpdateBackendServers | internal/gateway/haproxy/manager.go:661-730 | the two loops over listed and desired servers |
| HAProxySafety.ApplyOneIsAtomic | internal/gateway/haproxy/manager.go:157-197 | under any failing or lost calls a listener's committed configuration is unchanged, or its frontend is bound to the port with its own backend present; nothing else moves |
| HAProxySafety.ApplyIsIsolated | internal/gateway/haproxy/manager.go:153-200 | a whole call leaves all other frontends and backends as they were |
| HAProxySafety.ApplyIsSafe | internal/gateway/haproxy/manager.go:153-200 | no committed frontend comes to refer to a missing backend; nothing is deleted; every frontend is as before or as asked for |
| HAProxySafety.UpdateServersFate | internal/gateway/haproxy/manager.go:663-730 | each server keeps its state or reaches the desired one; if the listing is served and the calls take effect the set is exactly the desired one in any iteration order |
| HAProxySafety.DesiredIsLast | internal/gateway/haproxy/manager.go:687-692 | among targets with one sanitized name the last one is the server asked for |
| HAProxySafety.FrontendEnsured | internal/gateway/haproxy/manager.go:373-570 | success leaves the frontend with the requested bind and default backend; its other binds stay |
| HAProxySafety.ApplyServed | internal/gateway/haproxy/manager.go:153-200 | with every call served the configuration becomes the overlay of the listeners |
| HAProxySafety.OverlayWrites | internal/gateway/haproxy/manager.go:157-193 | with distinct names each listener gets what it asks for |
| HAProxySafety.OverlayTwice | internal/gateway/haproxy/manager.go:153-200 | applying the same listeners again changes nothing |
| HAProxySafety.SkippedListenerReportsSuccess | internal/gateway/haproxy/manager.go:161-173 | a listener that could not be configured is skipped and the call still reports success |
| HAProxySkips.SkipsExactly | internal/gateway/haproxy/manager.go:157-197 | under any outcomes a listener is skipped if and only if one of its calls that count is not answered as it must be: version and start, backend, server listing, frontend and bind; no failing server write skips it; otherwise the commit decides |
| HAProxySkips.NewNameSkips | internal/gateway/haproxy/manager.go:157-197 | for a name that is not in use these are nine calls, in a row but for the server loops |
| HAProxySkips.AppliesAllExactly | internal/gateway/haproxy/manager.go:153-200 | a call reports success and has applied every listener if and only if none of the calls that count fails and every commit is served, told from the outcomes and the configuration before the call; once it reports success, if and only if none is skipped |
| HAProxySkips.SuccessAppliesUnlessSkipped | internal/gateway/haproxy/manager.go:153-200 | a successful call has the frontends of all listeners in the configuration, their names being new and distinct, if and only if none is skipped; under any calls exactly the applied names are there |
| HAProxySafety.ApplyRebinds | internal/gateway/haproxy/manager.go:157-197 | under any failing and lost calls exactly the applied names are bound to the port asked for; every other frontend is as before |
| HAProxySafety.RemoveOwnerExactly | internal/gateway/haproxy/manager.go:134-151 | removing an owner that is not recorded succeeds and does nothing; otherwise it fails if and only if a started transaction is not committed as far as is known, and the owner is forgotten if and only if it does not fail |
| HAProxySafety.RemoveErases | internal/gateway/haproxy/manager.go:202-236 | a removal deletes exactly the frontends whose deletion and commit took effect |
| HAProxySafety.RebuildOrderFree | internal/gateway/haproxy/manager.go:828-841 | with distinct names Rebuild reaches one configuration for every order of the owners |
| HAProxySafety.RemoveUndoesConfigure | internal/gateway/haproxy/manager.go:134-151 | Remove after Configure of a new owner restores the configuration when calls succeed |
| HAProxySafety.RemoveMayDangle | internal/gateway/haproxy/manager.go:217-232 | a removal commits a frontend without its backend if and only if the backend's deletion and the commit take effect while a frontend that stays names it |
| Names.SanitizeIsPointwise | internal/gateway/haproxy/manager.go:818-824 | the three replacements are one pointwise map |
| Names.ListenerNamesClash | internal/gateway/reconcile.go:409-436 | listener names clash if and only if dash-joined namespace and name agree and the decimal ports are one number |
| Names.ListenerNamesDistinct | internal/gateway/reconcile.go:409-436 | inside one namespace only for one service and port |
| Names.NamesClashAcrossNamespaces | internal/gateway/reconcile.go:409-436 | across namespaces they do clash |
| Names.ServerNamesDistinct | internal/gateway/reconcile.go:428-432 | inside one namespace server names differ for different pods |
| Text.ItoaInjective | internal/gateway/reconcile.go:436-436 | decimal numbers differ for different ports |
| PortAlloc.Allocator.Allocate | internal/gateway/portalloc/allocator.go:27-43 | gives the lowest free port to the owner and appends it to the owner's list, or changes nothing |
| PortAlloc.Allocator.Release | internal/gateway/portalloc/allocator.go:45-68 | frees the port only if this owner holds it; an emptied list goes |
| PortAlloc.Allocator.ReleaseAll | internal/gateway/portalloc/allocator.go:70-81 | frees every port of the owner |
| PortAlloc.Allocator.GetAllocatedPorts | internal/gateway/portalloc/allocator.go:100-112 | the owner's ports in order of allocation |
| PortAlloc.FirstFreeIsLeast | internal/gateway/portalloc/allocator.go:32-42 | the scan finds the least free port and fails if and only if the range is full |
| PortAlloc.ClaimedConsistent | internal/gateway/portalloc/allocator.go:34-38 | claiming keeps the two maps inverse to each other with duplicate-free lists |
| PortAlloc.ReleasedConsistent | internal/gateway/portalloc/allocator.go:50-67 | so does releasing, and no other owner's port or list changes |
| PortAlloc.ClaimEachTakesLowest | internal/gateway/reconcile.go:177-201 | n allocations succeed if and only if n ports are free, and take the n lowest in order |
| PortAlloc.RollbackRestores | internal/gateway/reconcile.go:181-184 | releasing a partial claim in order restores the ledger exactly, list order included |
| PortAlloc.ReleaseAllIsReleasingEach | internal/gateway/portalloc/allocator.go:70-81 | ReleaseAll equals releasing the owner's ports one by one |
| Shell.JoinShellArgs | cloudprovider/vastai/client.go:290-297 | the loop joins the quoted arguments |
| Shell.JoinedArgsRoundTrip | cloudprovider/vastai/client.go:282-297 | for every list of strings the shell's tokenizer reads the joined line back as exactly that list |
| Shell.ReadsQuotedWord | cloudprovider/runpod/onstart.go:67-73 | a quoted argument, empty or with quotes, blanks or newlines, reads back as itself whatever follows |
| Shell.AgentReceivesArgv | cloudprovider/vastai/client.go:320-344 | the agent gets its own flags and, after --, exactly the command followed by its arguments, or without a command a shell with the arguments as one line |
| VirtualPods.VirtualPod.PodStatusUpdate | virtualpod/virtualpod.go:232-311 | one poll as a state change, with the update it returns |
| VirtualPods.VirtualPod.SetCondition | virtualpod/virtualpod.go:313-328 | replaces the first condition of the type in place or appends |
| VirtualPods.VirtualPod.PodShouldRestart | virtualpod/virtualpod.go:330-346 | restart by policy and exit code |
| VirtualPods.VirtualPod.HandleContainerStart | virtualpod/virtualpod.go:348-364 | Running, ready, both conditions true |
| VirtualPods.VirtualPod.HandleContainerTermination | virtualpod/virtualpod.go:366-381 | Terminated without the message, not ready, both conditions false |
| VirtualPods.VirtualPod.HandleContainerRestart | virtualpod/virtualpod.go:383-395 | counts the restart; Waiting with the backoff reason |
| VirtualPods.VirtualPod.CrashLoopBackOffDone | virtualpod/virtualpod.go:397-405 | only a waiting container changes its reason |
| VirtualPods.VirtualPod.FailContainer | virtualpod/virtualpod.go:407-423 | a failed container; the phase is not touched |
| VirtualPods.VirtualPod.TerminatePod | virtualpod/virtualpod.go:425-449 | final phase by exit code, start time kept from a running container |
| VirtualPods.RunCoherent | virtualpod/virtualpod.go:232-449 | over every sequence of polls with any answers, failures, deletions and restarts: exactly one state, ready and both conditions agree with Running, condition types unique, a final phase only when Terminated |
| VirtualPods.CreatedCoherent | internal/provider/anex/provider.go:371-396 | a created pod satisfies that |
| VirtualPods.RestartCountCounts | virtualpod/virtualpod.go:271-295 | RestartCount grows by exactly the policy restarts that polls returned |
| VirtualPods.PollRestartsByPolicy | virtualpod/virtualpod.go:260-310 | restart and end exclude each other and happen exactly on a newly terminated container: a restart if and only if the policy is Always, or OnFailure with an exit code other than zero; the update says succeeded if and only if the code is zero, and so does the phase at an end; what the container records either way |
| VirtualPods.PollOtherwise | virtualpod/virtualpod.go:246-258 | a container newly seen running makes the pod Running since the time reported; any other answer, and none, changes nothing |
| VirtualPods.OtherEnds | virtualpod/virtualpod.go:407-449 | deletion ends the pod by its exit code, an unresponsive container ends with code 1 and leaves the phase; what each records |
| VirtualPods.BackoffEnds | virtualpod/virtualpod.go:397-405 | the end of a backoff changes a waiting container's reason and nothing else |
| VirtualPods.StepEndsByExitCodeExactly | virtualpod/virtualpod.go:232-449 | every event keeps it so that a final phase is Succeeded if and only if the recorded exit code is zero, but for a succeeded pod that then stops responding |
| VirtualPods.RunEndsByExitCode | virtualpod/virtualpod.go:232-449 | and so does every run without such an event |
| VirtualPods.StepEndsTogetherExactly | virtualpod/virtualpod.go:232-449 | every event keeps the container Terminated exactly when the phase is final, but for a pod without final phase that stops responding |
| VirtualPods.RunEndsTogether | virtualpod/virtualpod.go:232-449 | container and pod end together over every run in which none does |
| VirtualPods.FailedPodNeverEnds | virtualpod/virtualpod.go:407-423 | a pod that stops responding keeps its phase although its container failed with code 1, and no answer but that the container runs, and nothing but deletion, ever changes that: not even the report that the container is Terminated |
| VirtualPods.BackoffsFollowStreaks | virtualpod/virtualpod.go:275-282 | the counter is the number of counted crashes in a row and every restart waits as that number says |
| VirtualPods.CrashInARowWaits | virtualpod/virtualpod.go:278-280 | the n-th counted crash in a row waits 10 * 2^(n-2) seconds for 2 <= n <= 31, the first not at all |
| VirtualPods.BackoffFits | virtualpod/virtualpod.go:279-279 | the int64 nanoseconds are the exact value if and only if the counter is at most 30 |
| VirtualPods.BackoffWrapsNegative | virtualpod/virtualpod.go:279-287 | at 31 the value is negative and the restart does not wait |
| VirtualPods.OverflowNeedsWaiting | internal/provider/anex/provider.go:646-653 | a counter c >= 1 means at least 10 * (2^(c-1) - 1) seconds were waited (c up to 31); reaching 31 takes more than 10 * (2^30 - 2) seconds |
| Provisioning.Provisioner.InitializeVirtualPod | internal/provider/anex/provisioning.go:277-484 | the retry loop with final clean-up, and the number of attempts |
| Provisioning.Provisioner.RunAttempt | internal/provider/anex/provisioning.go:292-468 | one attempt with all its exits |
| Provisioning.Provisioner.RestartOrRent | internal/provider/anex/provisioning.go:293-343 | restart the machine at hand, or clean up and rent |
| Provisioning.Provisioner.AwaitMachineReady | internal/provider/anex/provisioning.go:348-361 | failure or deadline bans and gives up restarting; every failed wait cleans up |
| Provisioning.Provisioner.WaitForMachineReady | internal/provider/anex/provisioning.go:504-542 | the first report of a running or failed machine decides |
| Provisioning.Provisioner.MachineCleanup | internal/provider/anex/provisioning.go:257-271 | destroys and forgets the recorded machine unless provisioning is complete |
| Provisioning.Provisioner.SelectAndProvisionMachine | internal/provider/anex/provisioning.go:486-502 | searches until one rents or the context ends |
| Provisioning.InitializeTracked | internal/provider/anex/provisioning.go:277-484 | for every outcome of every call and both ways in: at most MaxRetries + 1 attempts, fewer only after success or cancellation; never a rental while a machine is held, never a restart or destroy of another machine; one machine held after success, none after failure |
| Provisioning.ProvisioningConserves | internal/provider/anex/provisioning.go:277-484 | rented machines are the recorded one and those whose destroy failed; if none failed, at most one at every moment, exactly one after success and none after failure |
| Provisioning.OneMachineAtATime | internal/provider/anex/provisioning.go:305-334 | at every prefix of the calls the rented machine is the one at hand |
| Provisioning.BannedIsNotRentedAgain | internal/provider/anex/provisioning.go:350-357 | in one run a banned machine is rented again only after its ban has run out |
| ProvisioningOutcomes.FailureBansWhatWasReported | internal/provider/anex/provisioning.go:348-361 | a machine is banned under the id of the report that finds it failed, and under the id heard last if the deadline passes without a deciding report; a running one and a cancelled wait ban nothing |
| ProvisioningOutcomes.WaitExactly | internal/provider/anex/provisioning.go:504-542 | the wait is ready if and only if the first report of a running or failed machine finds it running, failed if and only if it finds it failed, and ends as its context does if there is none |
| ProvisioningOutcomes.StableIsLastHeard | internal/provider/anex/provisioning.go:527-537 | the stable id afterwards is that of the deciding report, or else of the last that found the machine |
| ProvisioningOutcomes.AwaitExactly | internal/provider/anex/provisioning.go:345-361 | what a wait leaves in each case: machine, bans, calls and whether to restart again |
| ProvisioningOutcomes.SearchExactly | cloudprovider/vastai/client.go:236-275 | a search rents a machine if and only if some eligible offer grants it and those before it refuse |
| ProvisioningOutcomes.SelectExactly | internal/provider/anex/provisioning.go:486-502 | the first search that rents gives the machine |
| ProvisioningOutcomes.AttemptExactly | internal/provider/anex/provisioning.go:292-468 | an attempt succeeds if and only if its machine was restarted or rented, the deciding report finds it running, and its command is started; exactly when the context ended; the machine and the log in each case |
| ProvisioningOutcomes.InitializeExactly | internal/provider/anex/provisioning.go:277-484 | a run makes attempts up to the first that succeeds or in which the context ends, at most MaxRetries + 1; it succeeds if and only if the last one made does, and then holds that machine with its loop, otherwise none |
| Provider.Provider.constructor | internal/provider/anex/provider.go:205-249 | the recovery loop: slots taken in list order, restored, re-provisioned or failed pods |
| Provider.Provider.ReserveGatewaySlot | internal/provider/anex/provider.go:306-321 | takes the first unassigned slot or changes nothing |
| Provider.Provider.CreatePod | internal/provider/anex/provider.go:339-418 | a refusal changes nothing; otherwise the pod is in the table with its slot and a provisioning run |
| Provider.Provider.ReconcilePodLifecycle | internal/provider/anex/provider.go:600-682 | nothing, restart (loop to run), or end (slot freed, finalized) |
| Provider.Provider.DeletePod | internal/provider/anex/provider.go:442-508 | unknown, finalized, failing destroy, destroyed, or cancelled |
| Provider.Provider.FinishProvisioning | internal/provider/anex/provisioning.go:462-483 | success completes the pod, starts its loop and counts it; failure only ends the run |
| Provider.Provider.FinishDeletedProvisioning | internal/provider/anex/provisioning.go:462-483 | the end of the run of a deleted pod: success counts it and starts a loop |
| Provider.Provider.ReconcileDeletedPod | internal/provider/anex/provider.go:600-682 | a turn of that loop: nothing, restart, or end, which touches whatever pod has the key, or crashes |
| PodDrivers.RunStaysDriven | internal/provider/anex/provider.go:442-682 | over every run, late successes, ends and crashes included: a live pod has neither a provisioning run nor a loop if and only if, since its last start, its run failed, a deletion could not destroy its machine, or a deleted pod's end cancelled its loop; otherwise exactly the run before completion and exactly the loop after it |
| PodDrivers.StartedRunIsDriven | internal/provider/anex/provider.go:205-249 | the same from a start of the provider with any listed pods |
| PodDrivers.RestartStartsRun | internal/provider/anex/provider.go:640-662 | after a restart that is due exactly a provisioning run is active, on the same slot, and nothing else changed |
| PodDrivers.RunEnds | internal/provider/anex/provisioning.go:462-483 | when its run ends the pod has a loop, is completed and counted if and only if the run succeeded |
| PodDrivers.CreateExactly | internal/provider/anex/provider.go:339-418 | a creation is refused if and only if there are several containers or no free slot; otherwise the lowest free slot and a run |
| PodDrivers.DeleteExactly | internal/provider/anex/provider.go:442-508 | when a deletion is which error, and what a done one leaves: table, slot, gauge, and the run that goes on |
| PodDrivers.RecoverExactly | internal/provider/anex/provider.go:205-249 | a listed pod is recovered if and only if it runs, no earlier one has its slot, and it has a machine or may be restarted; with its loop in the one case, with a run in the other |
| PodDrivers.RunRemembers | internal/provider/anex/provisioning.go:463-466 | over every run a pod has a cancel function for a loop if and only if a run of it has succeeded since it was created |
| PodDrivers.StraysExactly | internal/provider/anex/provider.go:600-682 | what the run and the loop of a deleted pod do; a late end crashes the provider if and only if no pod, or one that never had a loop, has the key |
| PodDrivers.RunConservesWork | internal/provider/anex/provider.go:490-496 | over every run the work on deleted pods is as much as pods deleted under their run less runs that then failed |
| Provider.FirstUnassignedIsLeast | internal/provider/anex/provider.go:311-320 | the reserved slot is the least free one; none if and only if all are assigned |
| Provider.RunStaysSound | internal/provider/anex/provider.go:339-508 | over every run in which no live pod is robbed of its slot: live pods hold distinct assigned slots, the rest of the assigned ones are the lost ones, and no pod is driven by a provisioning run and a lifecycle loop at once |
| Provider.StepSoundExactly | internal/provider/anex/provider.go:600-682 | an event keeps that if and only if it is not the end of a deleted pod whose slot a live pod holds |
| Provider.RunStaysCounted | internal/provider/anex/provider.go:480-495 | whatever the run, podsRunning is off by the late successes less the late restarts and ends |
| Provider.NoLateSuccessSpares | internal/provider/anex/provider.go:490-496 | without late success no pod is robbed and the gauge never drifts |
| Provider.FreshRun | internal/provider/anex/provider.go:339-682 | from a fresh start, over every run: podsRunning is the number of completed live pods plus the late successes minus the late restarts and ends; if no live pod is robbed the assigned slots are exactly the live pods' |
| Provider.FreedWasAssigned | internal/provider/anex/provider.go:480-495 | no slot is freed twice in the name of pods in the table |
| Provider.RecoveryIsSound | internal/provider/anex/provider.go:205-249 | recovery gives distinct slots for any annotations in range |
| Provider.RecoveredRun | internal/provider/anex/provider.go:205-249 | after a recovery, over every run: podsRunning counts the completed live pods if and only if restored pods and late ends together are as many as late successes; if no live pod is robbed, the assigned slots are exactly the live pods' if and only if no listed pod took the failing branch |
| Provider.LateSuccessMiscounts | internal/provider/anex/provider.go:490-496 | a run: created, deleted while provisioning, the cancelled run succeeds all the same; nothing is in the table and podsRunning is 1 |
| Provider.LateEndCrashes | internal/provider/anex/provider.go:670-676 | when that pod's container ends the loop looks its key up in vain, and the provider crashes |
| Provider.LateEndRobs | internal/provider/anex/provider.go:670-676 | if the key is in use again, the loop cancels the new pod's loop and frees its slot: the next pod gets the same slot, and two live pods share it |
| Provider.FinishedSlotIsReused | internal/provider/anex/provider.go:664-680 | a finished pod stays in the table with its slot number while the next pod gets the slot |
| VastAI.Client.GetRentalCandidates | cloudprovider/vastai/client.go:204-221 | drops offers above the limit, keeps the order |
| VastAI.Client.SelectAndProvisionMachine | cloudprovider/vastai/client.go:257-275 | drops banned offers and asks for the rest in turn |
| VastAI.Client.ProvisionMachine | cloudprovider/vastai/client.go:413-447 | the attempt loop with its five answers |
| VastAI.CheapestGrantedIsRented | cloudprovider/vastai/client.go:189-275 | a rented offer costs no more than the limit and has no ban that has not run out, is the last one asked for, by its id, and every strictly cheaper such offer was refused first; all refused or no candidates mean exactly that |
| VastAI.CandidatesAreEligible | cloudprovider/vastai/client.go:209-268 | the two filters keep exactly the eligible offers in order |
| VastAI.ProvisionFromStops | cloudprovider/vastai/client.go:413-447 | nothing is tried after a success, an authorization failure or the end of the context |
| VastAI.Client.BanMachine | cloudprovider/vastai/client.go:229-234 | records the ban with its time |
| VastAI.LabelRoundTrip | cloudprovider/vastai/client.go:72-76 | parsing inverts building if and only if no part has a colon; otherwise the label does not parse |
| VastAI.ParsedLabelsAreBuilt | cloudprovider/vastai/client.go:483-495 | a label that parses was built from its parts |
| VastAI.Client.ListMachinesInternal | cloudprovider/vastai/client.go:85-131 | for a finite token chain the loop ends with the concatenation of all pages, filtered by cluster and node, or with the error |
| VastAI.ListedExactly | cloudprovider/vastai/client.go:85-131 | listed is exactly what is on some page of the chain and has a tag that parses to this cluster and node |
| VastAI.RepeatedTokenEnds | cloudprovider/vastai/client.go:111-115 | a page that names the token it was asked with, or none, ends the listing |
| VastAI.ListingEndsExactly | cloudprovider/vastai/client.go:95-115 | the loop ends if and only if there is no set of tokens, the first among them, from which the listing leads on forever without failing |
| VastAI.CyclicListingNeverEnds | cloudprovider/vastai/client.go:95-115 | from such a set no finite chain leads out: the loop notices a repeated token, not a longer cycle |
| VastAI.Client.PruneDanglingMachines | cloudprovider/vastai/client.go:521-562 | asks to destroy the dangling machines in order, going on after failures |
| VastAI.DanglingExactly | cloudprovider/vastai/client.go:533-558 | a machine is asked for if and only if its label is this cluster's and node's and its pod UID is not listed |
| VastAI.PruningIsExact | cloudprovider/vastai/client.go:521-562 | the same in terms of what the machine was rented for |
| Query.NewMachineSpecification | internal/provider/anex/provisioning.go:72-235 | the passes over the annotations give one specification whatever the iteration orders |
| Query.SettingsByKey | internal/provider/anex/provisioning.go:33-231 | cutting the prefix and the -min or -max suffix off a key finds exactly the setting whose key it is |
| Query.BuildInstanceFilters | cloudprovider/vastai/machine.go:118-277 | one filter per constrained numeric field |
| Query.QueryMeansAnnotations | cloudprovider/vastai/machine.go:118-277 | an offer passes a field if and only if it meets the annotations that count: a present exact one rules out the bounds, even if it does not parse and asks for nothing |
| Logging.InfosExactly | internal/agent/logging.go:129-140 | the files considered are the readable ones, with their times, as often as they matched |
| Logging.SortByModTime | internal/agent/logging.go:142-149 | the exchange sort: an ascending permutation, in place |
| Logging.CleanupOldFiles | internal/agent/logging.go:117-155 | removes exactly the files too many, none newer than one it keeps |

## Left out

- VirtualPods.RestartCountCounts: RestartCount is an unbounded integer; the int32 would wrap after 2^31 restarts, and the 64-bit restart counter after 2^64 crashes.
- VirtualPods.BackoffFits: for counters above 60 the conversion from floating point is undefined in Go; the model takes the amd64 value.
- GatewayIdempotence.ReconcileTwice: NodePort services are not covered, because the API server assigns node ports that the comparison then sees as a change.
- Routing.RunRoutesExactly: the controller knows running pods as they run, and may know pods whose machines are gone; annotations that do not parse are not modelled.
- GatewayFrontends.StepKeepsCurrentExactly: names and namespaces free of the replaced characters, no two services with the same dash-joined name, and specs with distinct port numbers and names are required; Names.ListenerNamesClash says what happens otherwise.
- GatewayController.Controller.EnsureGeneratedService: decides by the API server's Service; the cached copy that the source changes in place is modelled apart, in ServiceCache.
- GatewayIdempotence.ServiceTwice: node ports that the API server assigns to a NodePort Service without them are not modelled.
- VastAI.Client.BanMachine: the file that keeps bans over restarts is not modelled; an empty stable id, which no offer has, bans nothing and is left out.
- Query.NewMachineSpecification: the numeric settings only; regions, lists and flags are not part of the specification.
- Provider.StepSoundExactly: a deleted pod's loop that cancels another pod's loop in the middle of that pod's restart wait is not modelled; a restart is one step.
- Provider.RecoveredRun: slot annotations out of range, on which the provider crashes at start-up, are required not to occur, and so are two pods whose namespace and name join to one key.
- Provisioning.ProvisioningConserves: a rental whose reply is lost is not seen by the provider and not counted; pruning finds such machines.
- Shell.JoinedArgsRoundTrip: NUL characters, which no argument vector can hold, are treated like any other character.
- Query.QueryMeansAnnotations: numbers are reals, while ParseFloat also accepts NaN and infinities, which compare otherwise and are not part of this model; regions, name lists and boolean filters are left out, as is disk-bw, which the code reads and never uses.
- Pod objects in the provider's table, HAProxy objects and API server objects are values in maps that the classes update; aliasing between them is not modelled. Outside ServiceCache the Service lister is taken as up to date.
- Resource versions, apart from the status write that follows adding the finalizer, which is always refused: other refusals for outdated versions are among the failing writes. Version conflicts from other writers of HAProxy's configuration are among the refused calls.
- sort.Slice and the templates are modelled by their results; rental and machine ids are the numbers the client prints; GetMachine is taken to answer about the machine asked for.
- A negative MaxRetries, which the code turns into a practically unlimited number, is not modelled.
- Restart of the gateway controller with existing statuses: its allocator starts empty, and runs start from an empty cluster.
- Finer interleavings than the steps above, goroutine scheduling, and the wall clock.
- HTTP, JSON, informers and queues, metrics, tracing, TLS, events, configuration loading and command-line flags.
- WireGuard keys and the rest of the start scripts; ECR logins; ban persistence in a file; config maps and volumes.
- RunPod's query building and pruning, and the mock provider.
- The container agent's process handling, log writing and log tailing.
- Message texts of conditions, errors and events.
