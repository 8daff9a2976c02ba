# Barenetes: verified models

Barenetes is a small container orchestrator. An API server keeps pods and nodes, a
scheduler places pods, an agent runs them on each node, and a CNI daemon gives each
workload its addresses and host ports. This project models the parts of those daemons
whose correctness spans many calls or many tasks, and proves what they promise:

* **The scheduler's books** (`Ledger`, `Basic`, `Scheduler`, `Placing`). Four hash maps
  are kept in step by hand. In every run claims are exactly the sums of the recorded
  limits, placement is sound, complete and least-loaded, nodes are never over-committed
  and no two pods of a node share a host port. Evicting a node and re-recording its pods
  is the identity exactly when the claimed ports were exact.
* **The scheduler process** (`Protocol`, `WakeUp`, `SchedulerMain`, `Rebuild`). Every
  section under the mutex is one atomic step. Over every interleaving of the two watch
  loops and the retry tasks no pod is silently lost or loses the limits and ports it asked
  for, no wake-up is missed but those named below, and `place` keeps nodes within bounds;
  retry sweeps place a pod at most once. Each
  handler is proved to be a run of that state machine, and a restarted scheduler agrees
  with the API server about what each node has left.
* **The CNI daemon** (`Addressing`, `IpPool`, `CniState`, `Firewall`, `Workload`,
  `Reconcile`). Add, delete and the recovery pass are modelled effect by effect; every
  external command may fail and the process may crash after any write. Addresses and host
  ports stay unique at every point of every lifetime; failures roll back; recovery is exact.
* **The API store** (`PodRecords`, `PodWatch`, `Etcd`, `Liveness`, `ApiStore`). Node
  liveness by counting streams with arbitrarily late teardowns; a snapshot plus the events
  after it gives the stored table; optimistic updates serialise.
* **Two pieces of the agent** (`Vlan`, `ImageReference`).

Objects that the source updates in place are classes (`BasicScheduler`, `SchedulerState`,
`IpPoolDirectory`, `StateStore`, `VlanAllocations`, `Store`). Their methods are tied to
functions on the value of their fields, and the theorems are about those functions and
about runs of them. Hash-map iteration order is arbitrary everywhere. Answers of the API
server, of `ip`, `bridge`, `iptables` and `nsenter`, and crashes are arbitrary choices.

## Assumptions

* CPU and memory are mathematical integers; the source uses `i32`. Limits are at least
  zero where a statement says so (`NonNegative`); the books themselves need no such bound.
* `f32` usage is `Float`: reals with the two infinities and NaN, without rounding.
* A write to a record or pool file happens whole or not at all. Saving a record may fail
  without a crash; releasing an address or deleting a record does not
  (`SurvivingRecordWouldClash` shows what that would cost).
* Host interface names and record file names do not collide; the MTU setting is valid and
  the node id fixed; files decode to what was written.
* The CNI daemon serves one request at a time and only after its recovery pass
  (cni/src/runtime/handler.rs:38-42, cni/src/runtime.rs:22).
* Pods reach the scheduler with the containers reduced to their ports; node addresses and
  resource requests play no part. A status number is the status it decodes to.

## What the code does not do

Where a promised property fails, the model keeps the code's behaviour, a lemma exhibits
the failure, and the property is proved under its exact condition.

* The claimed ports of a node may be fewer than its pods hold even when its pods are
  port-disjoint: two pods that once shared a port leave it unclaimed when one goes
  (`PortsFallShort`). Claimed ports are exact all along a run if and only if no step of it
  releases or moves a pod while another pod of the node still holds one of its ports
  (`PortsExactThroughoutIff`).
* `place` is not least-loaded when some nodes that fit report a capacity and some do not:
  one that does not wins whenever the map yields it first (`LeastLoadedIffMeasured`). A node
  that fits and reports zero capacity of a resource wins against every node that reports
  positive capacities (`ZeroCapacityWins`).
* A pod event that moves a placement may free room that no sweep offers to waiting pods
  (`MovedPlacementMissesWakeUp`). It misses nobody if and only if the node the pod leaves
  does not end up offering what no Ready node offered before (`RecordSettledIff`).
* A pod whose orphan report the API refused waits, although it may fit elsewhere, until
  the next sweep (`RefusedOrphanWaits`); it misses nothing if and only if it fits nowhere
  (`RefusedOrphanSettledIff`). These two are the only excuses in `NoMissedWakeUp`, and a
  sweep lifts them (`SweepLiftsExcuses`).
* A pod scheduled afresh while it holds a placement ends both waiting and placed when it
  fits nowhere, and only then (`TryKeepsApartIff`).
* Nothing but the check under the lock keeps a second sweep from moving a pod
  (`RecheckIsNeeded`).
* A create publishes after it releases the table's lock. A write in between leaves every
  watcher wrong: with the older pod after an update, with a pod that is gone after a
  removal (`OvertakenCreateIsStale`). `WatcherAt` says for every run and every pod whether
  a watcher is right.
* In the etcd branch an update that loses a race answers `false`, which the handlers turn
  into NOT_FOUND (api/src/handlers/scheduler.rs:85-87), although the pod is stored; the
  scheduler then stops retrying it. Versions restart after a delete, so a stale reader can
  bring a deleted pod back (`RecreateLosesThePod`). `CommitSucceedsIff` says when an update
  goes through, deletes included, and `EverythingSerialises` that only such stale updates
  spoil the order.
* A VLAN whose save failed is answered `Ok` when asked for again, without being saved, and
  may go to another pod after a restart (`UnsavedOkIsLost`, `OkIsDurableIff`). Likewise a
  release whose save failed is answered `Ok` when asked for again, without being saved, and
  a restart brings the pod's VLAN back (`UnsavedReleaseReturns`, `ReleaseIsDurableIff`).
* A deleted pod may keep a placement: an orphan whose report was taken is placed after its
  Deleted event, and NOT_FOUND drops it from `pending` only (`DeletedPodKeepsPlacement`). The
  process forgets a deleted pod if and only if no orphan report about it is in flight
  (`DeletedForgottenIff`, `DeletedStaysForgotten`).
* The books keep a placement whose assignment the API refused, and no sweep tries the pod
  again (`AnswerIgnored`). Every placement is the one named by the last event that recorded
  the pod or the last call that assigned it, whatever that call's answer
  (`PlacementsHaveOrigins`).
* The comment at api/src/handlers/agent.rs:149-152 says the desired-state snapshot and
  subscription share one guard; api/src/store.rs:776-783 drops the guard first. Nothing is
  claimed about that stream.

## Model

| member | source | states |
|---|---|---|
| Ledger.SumRemove | scheduler/src/schedulers/basic.rs:102-104 | the sum of limits over a ledger does not depend on the order in which placements are added up |
| Ledger.TotalWithout | scheduler/src/schedulers/basic.rs:119-122 | taking one pod out changes the total of its own node by its limits and no other total |
| Ledger.TotalWith | scheduler/src/schedulers/basic.rs:102-110 | putting one pod in changes the total of its own node by its limits and no other total |
| Ledger.SumsAdd | scheduler/src/schedulers/basic.rs:102-104 | the sum is, number by number, the sum of the limits of all the pods, zero for none |
| Ledger.HeldThere | scheduler/src/schedulers/basic.rs:136-143 | what a node holds are exactly the pods placed on it and the (protocol, external port) pairs of their ports |
| Ledger.PortDisjointMeans | scheduler/src/schedulers/basic.rs:7-15 | in a port-disjoint ledger no two pods of a node have ports that agree in protocol and external port |
| Basic.CouldUnblockMeans | scheduler/src/schedulers/basic.rs:36-59 | a report of a known node could unblock a pod if and only if the node becomes Ready, or its allocatable appears or rises in CPU or memory; an unchanged report never; an unknown node always |
| Basic.RecordMeans | scheduler/src/schedulers/basic.rs:87-111 | after a record the pod is placed as given, nobody else and no node changed, and each of its ports, by protocol and external port, is claimed on its node; recording an equal placement changes nothing at all |
| Basic.ReleaseConserves | scheduler/src/schedulers/basic.rs:114-129 | releasing keeps every claim equal to the sum of limits placed on the node and claims no port that no pod holds |
| Basic.RecordConserves | scheduler/src/schedulers/basic.rs:87-111 | recording, over an older placement or not, keeps the same invariant |
| Basic.RemoveNodeConserves | scheduler/src/schedulers/basic.rs:68-73 | dropping a node keeps the same invariant |
| Basic.EvictMatchesRemoveNode | scheduler/src/schedulers/basic.rs:61-73 | eviction and node removal leave the same placements, claims and claimed ports for every node |
| Basic.ClaimsConservedInEveryRun | scheduler/src/schedulers/basic.rs:42-150 | after any sequence of upserts, removals, records, releases and evictions each claim is the sum of the limits placed there, and claimed ports are a subset of those held |
| Basic.ReleaseKeepsPortsExactIff | scheduler/src/schedulers/basic.rs:123-127 | from exact claimed ports, a release leaves them exact if and only if the pod shares none of its ports on its node |
| Basic.RecordKeepsPortsExactIff | scheduler/src/schedulers/basic.rs:96-108 | from exact claimed ports, recording a pod leaves them exact if and only if it takes the pod off no port that another pod of the node holds and the record does not claim again |
| Basic.ApplyKeepsPortsExactIff | scheduler/src/schedulers/basic.rs:42-150 | the same for every operation, each with its guard |
| Basic.PortsExactThroughoutIff | scheduler/src/schedulers/basic.rs:87-150 | the claimed ports of a node are exact at every point of a run if and only if every step meets its guard |
| Basic.PortsExactInDisjointRuns | scheduler/src/schedulers/basic.rs:87-150 | in particular in a run in which the pods of the node are always port-disjoint |
| Basic.PortsFallShort | scheduler/src/schedulers/basic.rs:123-127 | for any two pods sharing a port, recording both and releasing one leaves the survivor's port unclaimed though the ledger is port-disjoint |
| Basic.ReleaseAllIsEvict | scheduler/src/schedulers/basic.rs:135-150 | releasing the node's pods one at a time, in any order, equals taking out their sum and all their ports at once |
| Basic.EvictBooks | scheduler/src/schedulers/basic.rs:135-150 | eviction removes exactly the node's placements and leaves every other node's claim and ports alone |
| Basic.WithoutThenWith | scheduler/src/schedulers/basic.rs:87-150 | putting a node's pods back in one stroke undoes eviction if and only if its claimed ports were exact |
| Basic.EvictRecordRoundTrip | scheduler/src/schedulers/basic.rs:87-150 | re-recording the evicted pods one at a time, in any order, restores all four maps if and only if the node's claimed ports were exact |
| Scheduler.BasicScheduler.UpsertNode | scheduler/src/schedulers/basic.rs:42-59 | replaces one node's entry and answers whether the change could unblock a waiting pod; claims stay conserved |
| Scheduler.BasicScheduler.RemoveNode | scheduler/src/schedulers/basic.rs:68-73 | forgets the node and its placements; claims stay conserved |
| Scheduler.BasicScheduler.RecordPlacement | scheduler/src/schedulers/basic.rs:87-111 | the pod is placed with exactly that node, limits and ports, which are claimed there; the new books are those of the old placement released and the new one charged; an equal placement changes nothing |
| Scheduler.BasicScheduler.ReleasePlacement | scheduler/src/schedulers/basic.rs:114-129 | refunds the placement and answers whether there was one |
| Scheduler.BasicScheduler.PodsOn | scheduler/src/schedulers/basic.rs:136-143 | lists each pod of the node exactly once, in any order |
| Scheduler.BasicScheduler.EvictNode | scheduler/src/schedulers/basic.rs:135-150 | hands back each pod of the node exactly once; the loop of releases is the one-stroke eviction |
| Scheduler.BasicScheduler.Place | scheduler/src/schedulers/basic.rs:193-248 | a node that fits when there is one, otherwise the first filter that emptied; the node is the election winner of some iteration order of exactly the nodes that fit, and if all of these report positive capacities none of them has a smaller mean share of CPU and memory in use, compared by cross-multiplied integers |
| Scheduler.ElectFrom | scheduler/src/schedulers/basic.rs:228-245 | the loop computes the election over the candidates in their order |
| Scheduler.FilteredAreCandidates | scheduler/src/schedulers/basic.rs:199-223 | the three filters leave exactly the nodes that fit, each once |
| Placing.PlaceSucceedsIff | scheduler/src/schedulers/basic.rs:193-248 | an answer `place` may give is an error if and only if no node fits |
| Placing.FitsMeans | scheduler/src/schedulers/basic.rs:199-223 | with claims conserved, a node fits if and only if it is Ready, its allocatable less the limits of the pods placed on it, but no less than zero, exceeds the limits in CPU and in memory, and no requested port is claimed there |
| Placing.AnswersMean | scheduler/src/schedulers/basic.rs:193-248 | each error is answered in exactly its case: no limits, no Ready node, none of them with room, none of those with the ports free |
| Placing.UsageOfFitting | scheduler/src/schedulers/basic.rs:168-177 | the usage of a node that fits is never NaN and never infinite upwards, even at zero capacity |
| Placing.LessFreeMoreUsed | scheduler/src/schedulers/basic.rs:161-177 | on a node with positive capacity, having less free of one resource and no more of the other scores strictly higher, and only then |
| Placing.UsageIsEven | scheduler/src/schedulers/basic.rs:161-177 | CPU and memory weigh the same: exchanging them leaves the score unchanged |
| Placing.UsageIsMeanShare | scheduler/src/schedulers/basic.rs:161-177 | for positive capacities the score u is finite and 2u times both capacities is the CPU in use times the memory capacity plus the memory in use times the CPU capacity |
| Placing.ScoreComparesLoads | scheduler/src/schedulers/basic.rs:228-245 | one score exceeds another if and only if the cross-multiplied shares do |
| Placing.ElectMinimal | scheduler/src/schedulers/basic.rs:228-245 | the winner is a candidate and no measured candidate has less usage |
| Placing.ElectFirstLeast | scheduler/src/schedulers/basic.rs:228-245 | among the candidates with the least usage the first in the order wins |
| Placing.ElectedIsLeastLoaded | scheduler/src/schedulers/basic.rs:228-245 | with positive capacities no candidate has a smaller mean share in use than the winner |
| Placing.ZeroCapacityWins | scheduler/src/schedulers/basic.rs:161-177 | a node that fits and reports zero capacity of CPU or memory wins against any node with positive capacities, in either order |
| Placing.ElectFirstUnmeasured | scheduler/src/schedulers/basic.rs:232-240 | a first candidate that reports no usage wins whatever follows |
| Placing.LeastLoadedIffMeasured | scheduler/src/schedulers/basic.rs:187-248 | the election is least-loaded for every iteration order if and only if all nodes that fit report their capacity or none does |
| Placing.RecordWithinBounds | scheduler/src/schedulers/basic.rs:87-111 | recording where `place` would put the pod keeps totals below allocatable and host ports exclusive |
| Placing.NewcomerAlone | scheduler/src/schedulers/basic.rs:180-185 | a pod placed where its ports were available shares none of them with any pod of the node |
| Placing.ApplyWithinBounds | scheduler/src/schedulers/basic.rs:42-150 | every disciplined step keeps totals below allocatable and host ports exclusive |
| Placing.NoOverCommitInEveryRun | scheduler/src/schedulers/basic.rs:42-248 | in every run of disciplined steps the limits on a node stay strictly below its allocatable and no two of its pods share a host port |
| Protocol.StepIsOp | scheduler/src/main.rs:102-463 | every locked section does to the four maps exactly one operation of the scheduler, or none |
| Protocol.StepKeepsInv | scheduler/src/main.rs:102-463 | every locked section keeps claims conserved, limits non-negative, and a node about to be evicted NOT_READY |
| Protocol.TryAccounts | scheduler/src/main.rs:396-425 | one attempt settles its pod and, unless it moves a pod and frees room by that, unsettles no other |
| Protocol.StepMissesNothing | scheduler/src/main.rs:102-463 | every locked section keeps: unless a sweep is due, each waiting pod fits nowhere, or a running sweep will still try it, or it is excused |
| Protocol.NoMissedWakeUp | scheduler/src/main.rs:102-463 | over every interleaving of both loops and any number of sweeps that invariant holds; with no sweep due or running every waiting pod not excused is unplaceable on the current view |
| Protocol.ExcusedOnlyBy | scheduler/src/main.rs:194-204 | only a refused orphan report or a move that frees room excuses a pod |
| Protocol.SweepLiftsExcuses | scheduler/src/main.rs:216-224 | after a sweep starts nobody is excused until one of these happens again |
| Protocol.RefusedOrphanSettledIff | scheduler/src/main.rs:194-204 | parking a refused orphan leaves the waiting pods settled if and only if it fits nowhere |
| Protocol.RefusedOrphanWaits | scheduler/src/main.rs:194-204 | for any pod and two nodes: the first is lost, the report refused, and the pod waits at rest though the second would take it |
| Protocol.NoOverCommitInProcess | scheduler/src/main.rs:396-416 | over every interleaving in which events repeat the ledger and reports lower no allocatable, limits stay below allocatable and host ports exclusive |
| Protocol.RetrySweepsAreSafe | scheduler/src/main.rs:210-235 | any interleaving of any number of sweeps from stale snapshots places each waiting pod at most once, moves none, and keeps waiting and placed pods apart |
| Protocol.RetrySweepsStayWithinBounds | scheduler/src/main.rs:396-425 | such interleavings also respect capacity and host ports |
| Protocol.RecheckIsNeeded | scheduler/src/main.rs:377-403 | without the check under the lock a second sweep could move a pod the first placed; with it the pod stays |
| Protocol.TryKeepsApartIff | scheduler/src/main.rs:404-423 | an attempt on any pod keeps waiting and placed pods apart if and only if it places the pod or the pod held no placement |
| Protocol.StepKeepsAsks | scheduler/src/main.rs:102-463 | every locked section leaves a pod, wherever it waits, is placed, in flight or in a sweep, asking for the limits and ports it asked for, unless an event about it says otherwise |
| Protocol.AsksKept | scheduler/src/main.rs:102-463 | so does every interleaving: evicted, reported, parked, retried or placed again, a pod keeps its limits and ports until an event brings others |
| Protocol.EvictedAreListed | scheduler/src/schedulers/basic.rs:135-149 | the list `evict_node` returns names exactly the pods put in flight, each once |
| Protocol.OrphanStepKeeps | scheduler/src/main.rs:188-207 | an answered or re-placed orphan stays tracked unless the answer was NOT_FOUND |
| Protocol.EvictedAreInFlight | scheduler/src/main.rs:145-150 | evicting a node neither loses nor invents a pod: its pods are in flight |
| Protocol.StepTracks | scheduler/src/main.rs:102-463 | each locked section forgets a pod only on deletion or NOT_FOUND, and starts tracking one only on an event for it |
| Protocol.NoPodLost | scheduler/src/main.rs:102-463 | over any interleaving a tracked pod stays waiting, placed or in flight until a Deleted event or a NOT_FOUND answer for it |
| Protocol.NoPodInvented | scheduler/src/main.rs:102-463 | over any interleaving nothing is tracked that was not tracked or introduced by an event |
| Protocol.DeletedForgottenIff | scheduler/src/main.rs:297-300 | a Deleted event makes the process forget the pod if and only if no orphan report about it is in flight |
| Protocol.DeletedStaysForgotten | scheduler/src/main.rs:297-310 | and then no interleaving brings it back but one in which an event introduces it |
| Protocol.DeletedPodKeepsPlacement | scheduler/src/main.rs:404-458 | from any state at rest but for an accepted orphan report, the pod's deletion, its placement and NOT_FOUND end at rest with the deleted pod placed |
| WakeUp.UpsertWakesNobody | scheduler/src/schedulers/basic.rs:36-59 | a node report for which `upsert_node` answers false, or of a node not Ready, makes no pod placeable that was not |
| WakeUp.EvictWakesNobody | scheduler/src/main.rs:118-127 | evicting a node that is not Ready makes no pod placeable, so no sweep is needed |
| WakeUp.RemoveNodeWakesNobody | scheduler/src/main.rs:113-116 | removing a node makes no pod placeable |
| WakeUp.RecordWakesNobodyIff | scheduler/src/main.rs:335-344 | a record makes some pod with non-negative limits placeable that was not if and only if it leaves the pod's old node, a Ready one, with something free and no Ready node offered as much before |
| WakeUp.RecordSettledIff | scheduler/src/main.rs:335-344 | under that condition, and only then, some settled set of waiting pods does not stay settled |
| WakeUp.MovedPlacementMissesWakeUp | scheduler/src/main.rs:335-344 | for any two pods and two nodes there is a settled state in which recording one pod elsewhere leaves the other waiting though it fits |
| SchedulerMain.SchedulerState.PlaceLocked | scheduler/src/main.rs:396-425 | under the lock: a chosen node fits and the pod is recorded there with its own limits and exactly the given ports, which are claimed there unless that placement was in the books already, and waits no more; otherwise it waits with what it asked for and the books are unchanged |
| SchedulerMain.SchedulerState.TrySchedule | scheduler/src/main.rs:385-466 | field by field for every pod and every answer: placed on a node that fits with its own limits and exactly its ports, these claimed, and that node reported; or waiting with pod and ports unchanged and the reason reported; NOT_FOUND drops it from the waiting pods only; a re-check that finds it resolved does nothing; no pod is left on a NOT_READY node |
| SchedulerMain.SchedulerState.RetryPending | scheduler/src/main.rs:216-235 | a sweep, in any order, is a run of the state machine after which every waiting pod is unplaceable and nobody is excused, unless the sweep moved a pod that waited while placed off a node that then offered what no Ready node did; no other placement changed and only pods the API does not know are gone |
| SchedulerMain.SchedulerState.RescheduleOne | scheduler/src/main.rs:163-208 | field by field for each answer and any pod: NOT_FOUND changes nothing; refused, it waits with the limits and ports it had; accepted, it is placed with exactly these on a node that fits, or waits with them and the reason `place` gives; no other pod is touched |
| SchedulerMain.SchedulerState.RescheduleOrphanedPods | scheduler/src/main.rs:140-153 | every pod of the lost node is handled and none is left on it; each that the API still knows, waiting or placed, asks for the limits and ports it had in the old ledger; no other pod is touched |
| SchedulerMain.SchedulerState.HandleNodeReported | scheduler/src/main.rs:118-128 | a run of the state machine that empties a NOT_READY node and sweeps after a change that could unblock a pod; after a sweep nobody is excused unless the sweep itself moved a placed pod and freed room, otherwise at most those before and the orphans refused |
| SchedulerMain.SchedulerState.HandleNodeEvent | scheduler/src/main.rs:108-129 | a run of the state machine that settles the waiting pods but for those excused, who are bounded by what the turn shows; no pod is lost unless the node was deleted; every placement made is the one its call names |
| SchedulerMain.SchedulerState.HandlePodDeleted | scheduler/src/main.rs:297-310 | a run of the state machine after which the pod is gone and no other was lost; it settles the waiting pods, and when a placement was released nobody is excused unless the sweep itself moved a placed pod and freed room |
| SchedulerMain.SchedulerState.HandlePodAssigned | scheduler/src/main.rs:312-345 | for any pod and node, a run of the state machine that records the pod on the node with these limits and ports, or, when the node is NOT_READY, reports it and reschedules it with these; everybody is excused only if the pod moved and freed room unnoticed |
| SchedulerMain.SchedulerState.HandlePodAdded | scheduler/src/main.rs:346-368 | a new pod without a node is tried once: placed with its own limits and ports, or waiting with them; every other pod goes on asking for what it asked for |
| SchedulerMain.SchedulerState.HandlePodEvent | scheduler/src/main.rs:265-368 | the same for every pod event, with the key, limits and ports of the record; an event without a pod, or a change to an unassigned pod, does nothing; each pod goes on asking for what it asked for unless the event says otherwise |
| SchedulerMain.SchedulerState.HandleEvents | scheduler/src/main.rs:102-371 | any sequence of events is handled to its end as one run of the state machine; then every waiting pod is unplaceable but those excused, who are bounded by the turns since the last sweep, every placed pod is where its origin says, and every pod asks for the limits and ports that the events about it, if they agree, gave |
| SchedulerMain.PlacementsHaveOrigins | scheduler/src/main.rs:335-344 | over any sequence of turns every placed pod is on the node named by the last event that recorded it or the last AssignPod call that assigned it, whichever came later |
| SchedulerMain.AsksThroughout | scheduler/src/main.rs:102-371 | over any sequence of turns a pod goes on asking for the same limits and ports as long as every event about it asks for these |
| SchedulerMain.AnswerIgnored | scheduler/src/main.rs:396-463 | whatever AssignPod answers, the placement stays in the books and the pod no longer waits |
| SchedulerMain.PlacementFromMeans | scheduler/src/main.rs:335-344 | a recorded event gives the placement its node, the pod's limits, zero if it has none, and all its ports |
| SchedulerMain.ExcusesOneMore | scheduler/src/main.rs:216-235 | a sweep excuses somebody only by an attempt that moves a placed pod and frees room |
| SchedulerMain.TryDoneKeeps | scheduler/src/main.rs:377-463 | an attempt on a waiting pod moves no pod that only is placed and loses no pod the API knows |
| SchedulerMain.TriedLeads | scheduler/src/main.rs:385-466 | an attempt on a new pod with the API's answer is a run of the state machine |
| SchedulerMain.RetriedLeads | scheduler/src/main.rs:216-231 | a sweep's attempt with the API's answer is a run of the state machine |
| SchedulerMain.QuietRunSettles | scheduler/src/main.rs:102-371 | any run between states of rest keeps the waiting pods settled but for those excused |
| SchedulerMain.OrphanDoneLeads | scheduler/src/main.rs:163-208 | handling one orphan is a run of the state machine that takes it out of flight |
| PodRecords.MutateKeepsIdentity | api/src/handlers/scheduler.rs:67-140 | no handler changes which pod a record is about, its limits or its ports, and a status report leaves the placement alone |
| PodRecords.PlacementIsLastDecision | api/src/handlers/scheduler.rs:67-140 | after any interleaving of assignments and status reports a record is placed where the scheduler last said, or nowhere with the reason it last gave, and has the status set last |
| PodRecords.RuntimeIsLastReported | api/src/handlers/agent.rs:73-85 | after any interleaving of assignments and status reports each of container statuses, address, message and usage is the last value a report brought for it, or the initial one if none did |
| PodRecords.KeyMeans | api/src/store.rs:809-823 | a record is keyed by the namespace of its spec and the name of its pod, what is absent counting as empty |
| PodRecords.AsksMean | scheduler/src/main.rs:281-295 | a record asks for the limits of its pod and the ports of its containers |
| PodRecords.FlattenMeans | scheduler/src/main.rs:281-291 | the ports are those of every container, in order, whatever the containers before and after |
| Rebuild.ReplayClaims | scheduler/src/main.rs:335-344 | recording the stored assignments in an empty scheduler claims on each node exactly the limits stored there |
| Rebuild.ReplayLedger | scheduler/src/main.rs:265-345 | the rebuilt ledger holds exactly the stored pods that name a node, each as stored |
| Rebuild.AllocatedInAnyOrder | api/src/handlers/cli.rs:170-178 | the API's sum does not depend on the order in which it lists its pods |
| Rebuild.RebuildAgreesWithApi | api/src/handlers/cli.rs:168-183 | after a restart each node's effective allocatable equals what the API reports as live over the same pods, in whatever order each lists them |
| Rebuild.TakeSnapshot | scheduler/src/main.rs:263-345 | a restarted scheduler fed the watch's opening snapshot has, when it reaches the first unassigned pod, recorded every stored assignment and agrees with the API on every node; only unassigned pods follow |
| Addressing.PoolsApart | cni/src/addressing.rs:3-12 | as 32-bit numbers the pools of distinct (vlan, node) pairs share no address and contain no gateway |
| CniState.AddressesUniqueInCluster | cni/src/addressing.rs:3-12 | across all VLANs of all nodes no two records with addresses from their pools share one, and none holds a gateway's |
| CniState.SafeMeans | cni/src/network/workload.rs:70-83 | in a safe store no two records hold the same address of a VLAN, or ports that agree in protocol and external port |
| CniState.FreedMeans | cni/src/network/workload.rs:239-247 | dropping a record takes out that record alone, and its address from the pool of its VLAN alone, if that pool hands it out |
| Addressing.AllTakenIff253 | cni/src/addressing.rs:7-12 | a pool is full if and only if 253 of its addresses are taken |
| Addressing.AddressesMean | cni/src/addressing.rs:3-12 | byte by byte: the gateway is 10.vlan.node.1 and the pool exactly 10.vlan.node.2 to 10.vlan.node.254 |
| IpPool.LeastFreeUnique | cni/src/ip_pool.rs:97-100 | the least free address is one address |
| IpPool.IpPoolDirectory.Allocate | cni/src/ip_pool.rs:95-104 | takes exactly the least free address of 10.vlan.node.2 to .254; fails for want of one if and only if 253 are taken |
| IpPool.IpPoolDirectory.Release | cni/src/ip_pool.rs:106-115 | gives back exactly that address; refuses addresses outside the pool, changing nothing |
| IpPool.IpPoolDirectory.Reset | cni/src/ip_pool.rs:117-122 | replaces the allocated set of one VLAN |
| CniState.FreedKeeps | cni/src/network/workload.rs:239-247 | dropping a record and giving its address back keeps addresses and ports unique and every used address allocated |
| CniState.StateStore.Save | cni/src/state.rs:54-79 | stores the record whole or not at all |
| CniState.StateStore.Delete | cni/src/state.rs:88-97 | removes exactly that record and answers whether it existed |
| CniState.StateStore.List | cni/src/state.rs:122-145 | yields every record exactly once |
| CniState.StateStore.PortIsUsed | cni/src/state.rs:99-120 | answers yes if and only if some record holds that protocol and host port |
| Firewall.GoodMappingsMean | cni/src/network/firewall.rs:141-172 | the accepted lists are those with both ports in 1..65535, TCP or UDP, and no two mappings alike in protocol and external port |
| Firewall.ValidateMappings | cni/src/network/firewall.rs:141-172 | accepts if and only if both ports of every mapping are in 1..65535, its protocol is TCP or UDP and no two mappings agree in protocol and external port; otherwise names the first offence |
| Workload.AddedKeeps | cni/src/network/workload.rs:70-83 | a record with a least free address and free host ports keeps addresses and ports unique |
| Workload.AddDeleteRoundTrip | cni/src/network/workload.rs:222-248 | add then delete gives back the records and every pool's addresses |
| Workload.SurvivingRecordWouldClash | cni/src/network/workload.rs:239-246 | were a record to outlive the release of its address, the next add would hand the address out twice |
| Workload.ReleaseRecordIp | cni/src/network/workload.rs:250-266 | gives the address back when its pool can hold it, skips one it cannot, fails on one that does not parse |
| Workload.AnyPortUsed | cni/src/network/workload.rs:70-77 | finds out whether some record holds one of the requested host ports |
| Workload.DropStaleRecord | cni/src/network/workload.rs:239-247 | all or nothing short of a crash: the record and its address go together or stay together |
| Workload.AttachAt | cni/src/network/workload.rs:94-198 | any failure after allocation gives the address back and leaves no record |
| Workload.AttachFresh | cni/src/network/workload.rs:70-198 | success adds one record at the least free address; failure leaves records and pools as they were |
| Workload.AddWorkloadNetwork | cni/src/network/workload.rs:34-199 | field by field: success answers the requested VLAN, ports and interface, "eth0" when empty, on the least free address and the gateway of that VLAN; a stored record that differs in any of the three refuses the add; crash-safe uniqueness of addresses and ports, failure atomicity, idempotent repeat, refusal of bad requests |
| Workload.DeleteWorkloadNetwork | cni/src/network/workload.rs:222-248 | success removes the record and its address, a missing record included; failure changes nothing; a crash keeps uniqueness |
| Reconcile.RecoveredSafe | cni/src/network/reconcile.rs:12-19 | whatever the pools held, recovery makes every used address allocated and keeps uniqueness |
| Reconcile.RecoveredMeans | cni/src/network/reconcile.rs:21-93 | recovery keeps exactly the records whose interface shows or whose probe went unanswered, and each pool holds exactly the addresses of the records kept on its VLAN |
| Reconcile.RecoveryIdempotent | cni/src/network/reconcile.rs:12-19 | a second pass with the same probe answers changes nothing |
| Reconcile.DropStaleRecords | cni/src/network/reconcile.rs:21-63 | leaves exactly the records whose interface is not known to be gone |
| Reconcile.GroupByVlan | cni/src/network/reconcile.rs:65-80 | groups exactly the parsable addresses of the records by VLAN |
| Reconcile.RebuildIpPools | cni/src/network/reconcile.rs:65-93 | each VLAN with a directory or a record ends with exactly its records' addresses |
| Reconcile.Run | cni/src/network/reconcile.rs:12-19 | the pass leaves exactly the live records and their addresses; interrupted anywhere it keeps uniqueness |
| Reconcile.Serve | cni/src/runtime.rs:12-34 | over any requests, failures, crashes and restarts no two records ever share an address of a VLAN or a host port |
| Liveness.StepAccurate | api/src/store.rs:417-590 | every lock section keeps the count equal to live streams plus queued teardowns and READY equal to a positive count, the lock holder's node excepted |
| Liveness.LockStep | api/src/store.rs:493-541 | every lock section leaves the lock holder's view of its node right |
| Liveness.RunKeepsInv | api/src/store.rs:417-590 | so does every interleaving |
| Liveness.LivenessInEveryRun | api/src/store.rs:493-541 | over every interleaving, with teardowns arbitrarily late, a known node is READY if and only if its count is positive whenever the watcher lock is free; a node with a live stream is READY |
| PodWatch.WatcherAt | api/src/store.rs:165-407 | for every run and every pod the last step about the pod decides what a watcher holds: right after an update or removal; right after a create's publish if and only if the table still holds the created pod; unchanged if nothing was said |
| PodWatch.SnapshotPlusStream | api/src/store.rs:659-691 | events replayed over a snapshot keep a watcher right about a pod, unless it is in creation, as long as no write to that pod overtakes its create, whatever happens to others |
| PodWatch.WatchersSeeTheTable | api/src/store.rs:659-691 | once creates have published, and none was overtaken, snapshot plus events equals the table |
| PodWatch.PublishFaithfulIff | api/src/store.rs:189-199 | a create's event leaves watchers right about the pod if and only if the table still holds the created pod |
| PodWatch.OvertakenCreateIsStale | api/src/store.rs:189-199 | in any table, an update or a removal between a create's insert and its publish leaves every watcher with the created pod, older than the stored one or gone |
| PodWatch.CommitSeenOnce | api/src/store.rs:282-348 | an update or removal reaches a subscriber as an event, with the value committed, if and only if the subscription came first; otherwise the snapshot's table follows from the state just after it |
| PodWatch.CreateSeen | api/src/store.rs:189-199 | a create is in the snapshot of every subscription after its insert and an event for every subscription up to its publish |
| PodWatch.StreamFromNothing | api/src/store.rs:686-690 | applying the snapshot's Added events to nothing gives exactly the stored pods |
| Etcd.StepKeepsCurrent | api/src/store.rs:308-337 | a step that goes through applies its mutation to the current value; one that does not changes neither value nor version |
| Etcd.UpdatesSerialise | api/src/store.rs:365-394 | under any interleaving the stored value is the fold of exactly the mutations that went through, in commit order, and the version counts them |
| Etcd.EverythingSerialises | api/src/store.rs:165-394 | creates, updates and deletes of any number of writers, however interleaved, leave what their effects leave one after the other, as long as no update whose read is older than a delete goes through |
| Etcd.CreateThenUpdatesSerialise | api/src/store.rs:165-187 | from an absent key at most one create goes through, and the value is that pod folded through the later updates |
| Etcd.CommitSucceedsIff | api/src/store.rs:308-333 | in any run an update goes through if and only if, with no delete since its read, no other committed, and otherwise the key was created again and that create and the commits since bring the version to the one read; without deletes the pod is stored though a losing update answers false |
| Etcd.RecreateLosesThePod | api/src/store.rs:315-329 | with a delete and re-create in between, a stale read commits and brings the old pod back |
| ApiStore.Store.CreatePod | api/src/store.rs:165-201 | inserts and publishes exactly that pod as Added under its own key unless the key is taken, in which case nothing changes |
| ApiStore.Store.UpdateAndPublishPod | api/src/store.rs:298-350 | changes one stored pod by the mutation and publishes the changed pod; answers false and changes nothing when it is unknown |
| ApiStore.Store.RemovePod | api/src/store.rs:258-293 | removes and publishes one stored pod and hands it back |
| ApiStore.Store.SubscribePodEventsWithSnapshot | api/src/store.rs:659-692 | lists every stored pod once, assigned pods first, together with the position from which events follow |
| ApiStore.Store.RegisterNode | api/src/store.rs:417-455 | takes over the reported capacity and allocatable, keeps the stored status, NOT_READY for a new node, publishes Added or Modified, touches no other node |
| ApiStore.Store.SetNodeStatus | api/src/store.rs:549-590 | sets one node's status and publishes the changed node just when the status changes |
| ApiStore.Store.NodeWatchStarted | api/src/store.rs:493-509 | counts one more stream and makes the node READY, published if it was not; refuses an unknown node; touches no other node |
| ApiStore.Store.DropStream | api/src/service.rs:83-103 | dropping a stream queues its teardown and changes nothing else |
| ApiStore.Store.NodeWatchEnded | api/src/store.rs:523-541 | counts one less stream; the node stays READY just when streams are left, and turning NOT_READY is published |
| Vlan.AsManyVlansAsPods | agent/src/vlan.rs:50-53 | pods with distinct VLANs use as many VLANs as there are pods |
| Vlan.ExhaustedIff4093 | agent/src/vlan.rs:50-53 | every VLAN is taken if and only if 4093 pods hold one |
| Vlan.StickyInEveryRun | agent/src/vlan.rs:45-67 | over every run, failed saves and restarts included, VLANs are distinct and in 2..4094, in the table and on disk |
| Vlan.DurableUntilFreed | agent/src/vlan.rs:3-6 | a pod whose VLAN is on disk keeps it, through restarts, until it is released |
| Vlan.OkIsDurableIff | agent/src/vlan.rs:47-56 | an allocation answered `Ok` is on disk if and only if the pod was new or on disk already |
| Vlan.UnsavedOkIsLost | agent/src/vlan.rs:47-56 | after a failed save the retry answers `Ok`, and a restart gives the VLAN to another pod |
| Vlan.VlanAllocations.AllocateFor | agent/src/vlan.rs:45-57 | a pod keeps its VLAN; a new pod gets the lowest number from 2 to 4094 no other pod holds, saved when answered `Ok`; "no free vlan" if and only if 4093 others hold one |
| Vlan.GoneUntilAllocated | agent/src/vlan.rs:60-66 | a pod that is neither in the table nor on disk stays away, through restarts, until it is allocated a VLAN |
| Vlan.ReleaseIsDurableIff | agent/src/vlan.rs:60-66 | a release answered `Ok` has reached the disk if and only if the pod was still in the table or no longer on disk |
| Vlan.UnsavedReleaseReturns | agent/src/vlan.rs:60-66 | after a failed save the retry answers `Ok`, and a restart brings the pod and its VLAN back |
| Vlan.VlanAllocations.Release | agent/src/vlan.rs:60-66 | forgets exactly that pod's VLAN in the table, and on disk too if the pod was in the table and the answer is `Ok`; always `Ok` for a pod not in the table, which changes nothing |
| ImageReference.HasRegistryHostMeans | agent/src/containerd.rs:392-396 | an image names a registry if and only if the text before its first slash is localhost or has a dot or a colon |
| ImageReference.HasTagOrDigestMeans | agent/src/containerd.rs:406-407 | an image carries a tag or digest if and only if a colon or an at sign comes after its last slash |
| ImageReference.PrependKeepsLast | agent/src/containerd.rs:398-406 | a prefix ending in a slash does not change the last segment |
| ImageReference.QualifyKeepsTag | agent/src/containerd.rs:392-406 | qualifying keeps the last segment and always names a registry |
| ImageReference.NormalizeReferenceCorrect | agent/src/containerd.rs:391-414 | the result names its registry and carries a tag or digest; an input is returned unchanged if and only if it already does; normalising is idempotent, on every string |
| ImageReference.NormalizeReferenceExtends | agent/src/containerd.rs:391-413 | the result is the image with nothing, docker.io/ or docker.io/library/ in front and nothing or :latest behind, each only when it was missing |

## Left out

- gRPC, TLS, certificates, PKI, the containerd client, OCI documents, the barectl CLI and the install scripts: plumbing and user interface.
- Integer width: an `i32` sum that wraps, and the rounding of `f32`.
- Kernel state beyond whether a host interface exists; that firewall rules are installed or deleted all or nothing, which cni/src/network/firewall.rs:174-197 does not promise.
- Removal of orphan interfaces and reinstallation of VLAN networking and port mappings in the recovery pass: they change neither records nor pools, and only whether the pass ends well is modelled.
- Unreadable record or pool files, and reads of them that fail; a pool directory that cannot be listed.
- The name, interface and namespace checks of add and delete requests: one arbitrary answer stands for them.
- Protocol.NoPodLost: a run that removes a node may forget its pods, which `remove_node` does by design (scheduler/src/schedulers/basic.rs:61-67); no such event is published today.
- Protocol.RetrySweepsAreSafe: disjointness of waiting and placed pods is stated for retry sweeps only; over all interleavings it does not hold, because an event may record a pod while it is in flight.
- SchedulerMain.SchedulerState.RetryPending: the attempts of one sweep run one after the other in any order; their interleavings are the subject of Protocol.
- SchedulerMain.SchedulerState.HandleEvents: handlers run one at a time, and the waiting pods are settled only if limits are at least zero; interleaved handlers are the subject of Protocol.
- Protocol.NoMissedWakeUp: limits are at least zero; that a due sweep is eventually run is not stated.
- Placing.NoOverCommitInEveryRun: a node's allocatable is never lowered and a record is new only if `place` just chose it; placements reported by the API are trusted by the code and may exceed a node.
- PodWatch.SnapshotPlusStream: about pods whose create no write overtakes; PodWatch.WatcherAt covers the others.
- Liveness.LivenessInEveryRun: the in-memory branch with READY and NOT_READY only, the statuses the store itself writes.
- Etcd.EverythingSerialises: one key; connection errors and undecodable records are not modelled, nor the order of events published by concurrent writers.
- Workload.AddWorkloadNetwork: the error of a failing request is one of four kinds; messages are not modelled.
- Order of node events: `register_node` and `set_node_status` publish after releasing the lock, so the last event need not equal the stored node.
- Vlan.DurableUntilFreed: a save happens whole or not at all, though the file is overwritten in place.
- Broadcast lag, which ends a stream with an error, and the desired-state channels.
- cgroup arithmetic, role checks, identifier validation and `pod_id` formatting: true but easy.
