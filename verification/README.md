# SmolVM operator: a verified model of its control protocol

The SmolVM operator runs virtual machines on Kubernetes nodes. A central controller reconciles
SmolVM objects: it adds a finalizer, binds the VM to a node, creates a machine through that node's
runtime, resizes, starts or stops it, and reports. On every node an agent publishes the node's
health and, where enabled, sweeps machines that no VM owns. The two processes share only the API
server and the runtimes.

This project models that protocol in Dafny and proves what it guarantees over every run, what each
algorithm inside it computes, and, where the code falls short of what it promises, exactly when.

## Reading order

| file | content |
|---|---|
| `Types.dfy` | the records of the API and the runtime; machine names |
| `Conditions.dfy`, `StatusWriter.dfy` | condition slices as maps; the status update every branch goes through |
| `PortMatch.dfy` | comparing port lists through sorted printed strings |
| `Capacity.dfy`, `Scheduler.dfy` | fixed-width resource sums, host ports, eligibility, first fit |
| `Decision.dfy` | the chain of branches of one reconcile, as a pure decision |
| `Reconciler.dfy` | the reconcile as the source runs it, statement by statement, proved to do what the decision says |
| `NodeAgent.dfy`, `Sweeper.dfy` | the agent's report and its orphan sweep |
| `Protocol.dfy` | controller, sweepers, users, runtimes and failures as one state machine |
| `Safety.dfy`, `Runs.dfy` | the invariant, that every step keeps it, and what follows for every run |
| `Truth.dfy` | what a committed Reconciled=True means in a run, and for which generation |
| `Sweeps.dfy` | that sweeping gets done |
| `Rebind.dfy`, `Pins.dfy` | when reads can disagree and what follows, and when a pin is honoured: exact conditions |
| `Samples.dfy`, `Races.dfy` | concrete nodes and views, and concrete runs in which the races happen |
| `Suitability.dfy` | which nodes suit a VM, on the fields of the objects, and that bindings go to such nodes |
| `Allocation.dfy`, `Edits.dfy` | capacity and host ports over whole runs, and exactly which edits keep them |
| `Convergence.dfy` | undisturbed reconciles settle, with a measure |
| `Undisturbed.dfy` | the same for the protocol: uninterrupted steps from any reachable state are rounds |
| `Wakeup.dfy` | which VMs a node change must wake |

## How the protocol is modelled

Each SmolVM name has a log of committed versions, and the index of a version is its resource
version. The controller reads through a cache: a read returns any version at or after the last one
it saw. A reconcile is a sequence of separate steps (fetch, look, runtime call, second read,
write), a sweep likewise (list machines, list VMs, delete one by one), and anything else may happen
between any two of them. A write commits only from the current resource version. A runtime call
succeeds, fails cleanly, or fails after taking effect; a reconcile may stop anywhere. What the
controller sees of nodes, heartbeats and other VMs is arbitrary. Users create, edit, annotate and
delete within the rules of the CRD, and generations grow as the API server assigns them; machines stop
and vanish on their own.

## Hypotheses

The code needs these and does not enforce them.

- Reads agree (`Protocol.ReadsAgree`): the two reads of one reconcile show the same
  `status.nodeName`. Either may be stale. `Rebind.DisagreeExactly` says in which two ways they can
  disagree; the next section says what follows. `Truth.ReconciledTruthful` does not need it.
- Fresh scheduling (`Allocation.FreshStep`), for allocation only: when a binding commits, the VM
  list used counts the VMs now live on the node with at least what they ask for now, the node's
  allocatable is as read, and the sums do not overflow; and a bound VM is not edited to ask for
  more (the CRD does not freeze its demand: `Edits.OvercommitAfterBinding`). VMs being deleted are
  not counted, as in the code. That the version bound asks for no more than the version the
  scheduler saw (`Allocation.BindsWhatWasSeen`) is needed as well; see the next section.
- One reconcile at a time per VM, so one controller. The manager's leader election, which would see
  to that when several run, is off by default (cmd/main.go:62).
- Names: the ten-character digests of UIDs are distinct, UIDs are never reused, and nobody but the
  controller creates machines whose names start with `k8s-`.
- Runtime: each call is atomic and has no delayed effect, and the endpoint whose identity was
  checked is the one then called.
- Users write neither status nor the finalizer, the cached read position survives a controller
  restart, and one clock value serves all timestamps of one status update or report.

## Where the code falls short of its promises

- A reconcile whose first read shows a live VM unbound and whose second read shows it bound can
  move the committed binding to another node (`Races.RebindHappens`) or clear it
  (`Races.UnbindHappens`): the writes for an unplaced or invalid VM carry no node name. A bound
  version keeps its binding against everything such a reconcile may do if and only if the first
  read already was bound, being deleted, or without finalizer: `Rebind.KeepsBindingExactly`.
- A stale read of a deleted VM can hand its binding and machine name to a new VM of the same name
  (`Races.InheritHappens`). A successor is spared every status write if and only if the first read
  was not of a bound VM being deleted: `Rebind.SparesSuccessorExactly`.
- A pin added between the two reads can be missed even when the reads agree on the binding; the VM
  is then bound elsewhere and its spec invalid for good: `Races.PinMissed`, with the exact condition
  in `Pins.HonoursPinExactly`: the first read showed a pin, or takes a branch that places nothing.
- An edit of resources or host ports between the two reads is bound without any scheduler having
  seen it: `Edits.OvercommitByEdit` is a run with every other hypothesis in force that puts eight
  CPUs on a node with four. `Edits.EditKeepsExactly`: an edit is safe wherever the version read was
  accepted if and only if it asks for no more of any resource and for no new host port.
- An edit between the two reads is reported as reconciled: the status is stamped with the generation
  of the second read, while the machine was compared with the spec of the first.
  `Races.ClaimsUnseen` commits Reconciled=True for a generation whose spec the machine violates.
  It cannot happen when both reads show one generation (`Truth.GenerationTruthful`), and
  `Truth.StampExactly` says which edits are harmless.
- CPU totals beyond int32 wrap negative and the node is accepted: `Capacity.OvercommitAccepted`,
  with the exact condition in `Capacity.FitExactIff`.
- A node whose status carries a duplicate Schedulable entry can look eligible against the agent's
  report, because a set edits the first entry while the controller accepts any:
  `NodeAgent.AgreesIff` gives the exact condition.
- Clearing a binding without a Scheduled verdict would leave a stale Scheduled=True behind:
  `StatusWriter.CoherentAfter` gives the exact condition, and `Runs.StatusCoherent` shows that no
  reachable state does it.

## Model

| member | source | states |
|---|---|---|
| `Runs.NoLostMachine` | internal/controller/smolvm_controller.go:127-376 | in every reachable state each machine with a controller name has an existing VM that holds the finalizer and is bound to that node under that name, or that VM was removed earlier by a force deletion that committed while its runtime was unusable |
| `Runs.SweeperSafe` | cmd/runtime-agent/main.go:304-329 | in every interleaving, a machine a sweeper is about to delete belongs to no VM that is bound to the sweeper's node and not being deleted |
| `Sweeps.CondemnsExactly` | cmd/runtime-agent/main.go:304-327 | at the VM list a machine is condemned if and only if it was listed before under a k8s- name and no existing VM carries it on this node without being deleted |
| `Sweeps.SweepCompletes` | cmd/runtime-agent/main.go:304-328 | in every run, a machine listed under a k8s- name whose VM is gone or being deleted at the VM list stays condemned until its turn or an early end of the sweep, and its slot is empty once the deletion takes effect |
| `Runs.BindingStable` | internal/controller/smolvm_controller.go:131-206 | once committed, node name and machine name stay the same in every later state of that VM, and the machine name is the stable one |
| `Runs.OneNode` | internal/controller/smolvm_controller.go:208-238 | two machines with the same controller name are on the same node, in every reachable state |
| `Runs.PinHonoured` | api/v1alpha1/smolvm_types.go:33-34 | a VM created with a pin keeps it and, whenever bound, is bound to the pinned node |
| `Runs.CallsTargeted` | internal/controller/smolvm_controller.go:208-313 | every mutating call in any run goes to a runtime that identified itself as the VM's committed node, which was reported up within two minutes with all four conditions True, under the VM's machine name; all but deletes only for a VM that still exists and is finalized; no second call follows |
| `Runs.DisksOnlyGrow` | internal/controller/smolvm_controller.go:259-296 | no step of any run shrinks a reported disk of a controller machine; an effective resize strictly raises one, leaves neither shrink nor expansion for its spec, and was sent for a machine seen not running |
| `Runs.DisksOverLife` | internal/controller/smolvm_controller.go:259-296 | between any two states of one machine's life no reported disk shrinks |
| `Runs.StatusCoherent` | internal/controller/smolvm_controller.go:416-452 | every committed version in every reachable state: one entry per type, Scheduled=True exactly when bound and naming the node, Ready and RuntimeReady equal, Ready=True only in phase Running |
| `Runs.RunInv` | internal/controller/smolvm_controller.go:127-376 | the invariant holds in every reachable state |
| `Runs.StepInv` | internal/controller/smolvm_controller.go:127-376 | every enabled step of controller, users, sweepers and environment keeps the invariant |
| `Runs.AbandonStep` | internal/controller/smolvm_controller.go:340-345 | only a force deletion that commits, of a deleting annotated VM with an unusable runtime, can leave a machine behind |
| `Runs.StepGrows` | internal/controller/smolvm_controller.go:416-452 | committed versions are never rewritten and births never forgotten |
| `Runs.PinKept` | internal/controller/smolvm_controller.go:642-645 | under the invariant, pin and binding of a VM agree with the pin recorded at its creation |
| `Runs.SameUid` | internal/controller/smolvm_controller.go:131-140 | any earlier bound version with the current UID has the current binding, machine name and pin |
| `Safety.SecondReadSame` | internal/controller/smolvm_controller.go:416-420 | when the reads agree on the binding, the second read shows the same VM as the first, later, and not a successor of that name |
| `Safety.DraftFit` | internal/controller/smolvm_controller.go:416-452 | a status computed from two agreeing reads is a legal next version, and a new binding in it is the scheduler's choice for this very VM |
| `Safety.PerformInv` | internal/controller/smolvm_controller.go:215-313 | runtime calls keep the invariant whether they succeed, fail, or fail after taking effect |
| `Safety.RereadInv` | internal/controller/smolvm_controller.go:416-449 | the second read keeps the invariant, from any version at or after the cursor |
| `Safety.CommitStatusInv` | internal/controller/smolvm_controller.go:449-451 | committing a drafted status keeps the invariant, also when the resource version has moved |
| `Safety.CommitObjectInv` | internal/controller/smolvm_controller.go:146-149 | adding or removing the finalizer keeps the invariant, also when the resource version has moved |
| `Safety.GoneInv` | internal/controller/smolvm_controller.go:367-376 | a VM may go once its machine is gone or recorded as abandoned |
| `Safety.LiveSheltered` | internal/controller/smolvm_controller.go:142-149 | a plan made for a live finalized bound VM, however stale, still has that VM existing, finalized and bound there |
| `Safety.UserDeleteInv` | api/v1alpha1/smolvm_types.go:24-24 | a user's delete removes a VM without finalizer and only marks one with it, keeping the invariant |
| `Safety.OwnersCondemned` | cmd/runtime-agent/main.go:309-327 | of the machines listed first, those the later VM list does not own belong to VMs that are gone or being deleted |
| `Safety.SweepListInv` | cmd/runtime-agent/main.go:304-308 | a machine that exists when listed has its VM bound to this node for as long as the VM exists |
| `Safety.SweepOwnersInv` | cmd/runtime-agent/main.go:309-319 | the VM list, taken after the machine list, keeps the invariant |
| `Safety.SweepDeleteInv` | cmd/runtime-agent/main.go:320-328 | each deletion keeps the invariant, whether or not it takes effect |
| `Rebind.KeepsBindingExactly` | internal/controller/smolvm_controller.go:167-206 | in any state the invariant allows, a later bound version keeps its node name under every status the reconcile may write, whatever it sees and its call returns, if and only if the first read was bound, being deleted, or without finalizer |
| `Rebind.SparesSuccessorExactly` | internal/controller/smolvm_controller.go:333-376 | a later VM of the same name receives no status from the reconcile, whatever it sees and its call returns, if and only if the first read was not of a bound VM being deleted |
| `Rebind.DisagreeExactly` | internal/controller/smolvm_controller.go:416-420 | the two reads disagree on the binding if and only if the first was unbound and the second bound, or the first was bound and on its way out and the second its unbound successor |
| `Rebind.FinalNode` | internal/controller/smolvm_controller.go:127-376 | every status a reconcile may write names the node the first read was bound to, and none is written for an unbound VM being deleted or for one without finalizer that stays |
| `Races.RebindHappens` | internal/controller/smolvm_controller.go:167-206 | a nine-step run from the empty cluster in which a committed binding moves from node a to node b, the reads disagreeing at one step only |
| `Races.UnbindHappens` | internal/controller/smolvm_controller.go:172-188 | a nine-step run in which a committed binding is cleared, the reads disagreeing at one step only |
| `Races.InheritHappens` | internal/controller/smolvm_controller.go:340-365 | a fifteen-step run in which a new VM receives the binding and the machine name of its deleted namesake, the reads disagreeing at one step only |
| `Races.PinMissed` | internal/controller/smolvm_controller.go:167-206 | a six-step run with agreeing reads that ends with a VM pinned to a, bound to b, and rejected by its own validation |
| `Races.ClaimsUnseen` | internal/controller/smolvm_controller.go:318-330 | a fourteen-step run with agreeing reads that commits Reconciled=True and the newest generation while the machine runs and the spec says it should not |
| `Pins.BindHonoursPin` | internal/controller/smolvm_controller.go:167-206 | in every run, at every committed binding a pin the reconcile read is still the pin and is the node chosen; one it did not read is honoured just when first fit chose that node |
| `Pins.HonoursPinExactly` | internal/controller/smolvm_controller.go:477-483 | in any state the invariant allows, whatever the reconcile of an unbound VM sees and its call returns, every node it names is the pin of the later version, if and only if the first read showed a pin, or was being deleted, without finalizer, or invalid |
| `Pins.PinForever` | api/v1alpha1/smolvm_types.go:34-34 | a pin honoured once remains the pin and remains honoured while the VM exists |
| `Pins.PlacedExactly` | internal/controller/smolvm_controller.go:477-512 | a placement is the pin, or without one is a given node exactly when that node is the first accepted |
| `Allocation.AllocationSafe` | internal/controller/smolvm_controller.go:477-606 | over every run with fresh scheduling that binds no more than what was seen: whichever live VMs of a node one adds up, their spec.cpus, their spec.memoryMiB, and their spec.storageGiB plus spec.overlayGiB are each at most the node's positive allocatable value, and no host port occurs twice across or within them |
| `Allocation.StepKeeps` | internal/controller/smolvm_controller.go:477-606 | every such step keeps that allocation |
| `Allocation.AddKeeps` | internal/controller/smolvm_controller.go:514-538 | where the version read was accepted, binding any version that asks for no more keeps sums within capacity and ports exclusive |
| `Edits.EditKeepsExactly` | internal/controller/smolvm_controller.go:416-423 | binding a version other than the one accepted is safe on every node and for every load if and only if it asks for no more of any resource and for no new host port (or the version read asks for storage beyond int64, which is never accepted within range) |
| `Edits.OvercommitByEdit` | internal/controller/smolvm_controller.go:416-423 | a six-step run with agreeing reads, a current list, real capacity and no edit of a bound VM that ends with a VM asking for eight CPUs live on a node with four |
| `Edits.OvercommitAfterBinding` | api/v1alpha1/smolvm_types.go:33-34 | a six-step run whose last step, an edit of a bound VM, takes the cluster from within capacity to beyond it |
| `Allocation.BoundCovers` | internal/controller/smolvm_controller.go:540-553 | a current VM list, filtered as the scheduler filters it, still counts every live VM of the node |
| `Allocation.TotalCovered` | internal/controller/smolvm_controller.go:564-573 | the scheduler's sum over its list is at least the sum over the node's live VMs |
| `Convergence.Converges` | internal/controller/smolvm_controller.go:146-331 | with a valid fixed spec, usable nodes and an obedient runtime, at most five reconciles settle the VM: Reconciled=True with the machine in the desired state, or exactly one of drift, shrink, expansion while running, fixed by the machine found at the start; further reconciles change nothing |
| `Undisturbed.SettlesAlone` | internal/controller/smolvm_controller.go:127-331 | any run with agreeing reads can go on with undisturbed reconciles of a resting live valid VM, and after at most five the VM the cluster holds is settled with the verdict fixed by the machine on its node at the outset |
| `Undisturbed.RoundSteps` | internal/controller/smolvm_controller.go:127-331 | fetch newest, look, call, second read and write, taken as protocol steps without interruption, lead from any state holding a world to one holding the world after one round |
| `Undisturbed.DeletionCompletes` | internal/controller/smolvm_controller.go:333-376 | from any state of such a run, one undisturbed reconcile of a VM being deleted, with a usable runtime or the force annotation if it is bound, ends with the VM gone, and unless forced with no machine of its name on any node |
| `Convergence.RoundIsTrace` | internal/controller/smolvm_controller.go:127-331 | a round leaves exactly what the reconcile's own effects leave when its second read is current, its write lands and its call is obeyed on the node it was sent to |
| `Convergence.RoundDescends` | internal/controller/smolvm_controller.go:146-331 | every reconcile of an unsettled VM lowers the measure and keeps spec, validity, binding and fate |
| `Convergence.SettledFixpoint` | internal/controller/smolvm_controller.go:243-331 | a settled VM, blocked or reconciled and whatever spec.running says, is left unchanged by any reconcile |
| `Convergence.RoundsProgress` | internal/controller/smolvm_controller.go:146-331 | after n fair reconciles the measure has dropped by n or reached zero |
| `Convergence.SettledShows` | internal/controller/smolvm_controller.go:243-331 | a settled VM shows the verdict of its fate, Reconciled only with a machine that matches the spec, and in its status the machine's own process, network, ports and disks under its own generation |
| `Wakeup.OmittedUnaffected` | internal/controller/smolvm_controller.go:793-805 | if the filter passes a VM over, any two states differing only in that node's SmolVMNode and Node give its reconcile the same calls, updates and statuses |
| `Wakeup.WakeupExact` | internal/controller/smolvm_controller.go:793-805 | for a valid, finalized, staying VM the filter selects it if and only if some change confined to that node's objects changes what its reconcile decides |
| `Wakeup.RequestsExact` | internal/controller/smolvm_controller.go:798-803 | a request is made exactly for the listed VMs the node concerns |
| `Wakeup.RequestsForNodeChange` | internal/controller/smolvm_controller.go:793-805 | the loop returns those requests in list order |
| `Reconciler.TraceBounds` | internal/controller/smolvm_controller.go:127-376 | one reconcile makes at most one mutating call and at most one write, and the call goes to the checked runtime of the VM's own node under its machine name |
| `Reconciler.WorkerIsTrace` | internal/controller/smolvm_controller.go:127-331 | the protocol's worker, taken through its steps without interruption, has exactly the effects of the sequential reconcile |
| `Reconciler.Run.Reconcile` | internal/controller/smolvm_controller.go:127-331 | the branch-by-branch reconcile has exactly the effects the decision prescribes, in order |
| `Reconciler.Run.ReconcileDelete` | internal/controller/smolvm_controller.go:333-376 | likewise for deletion, with its blocked and forced paths, which `Decision.DeleteExactly` characterises |
| `Reconciler.Run.Place` | internal/controller/smolvm_controller.go:167-206 | likewise for placing an unbound VM |
| `Reconciler.Run.Operate` | internal/controller/smolvm_controller.go:208-241 | likewise for reaching the runtime, reading the machine and creating it |
| `Reconciler.Run.Steer` | internal/controller/smolvm_controller.go:243-330 | likewise for drift, shrink, resize, start, stop and report |
| `Reconciler.Run.UpdateStatus` | internal/controller/smolvm_controller.go:416-452 | a status is written exactly when the rewritten one differs from the one just read; it shows the machine given, or what was shown before, and carries the generation of the second read |
| `Reconciler.Run.Drifts` | internal/controller/smolvm_controller.go:700-711 | CPU, memory and ports checked through the printing comparison agree with the multiset meaning of drift |
| `Decision.DecideFacts` | internal/controller/smolvm_controller.go:127-376 | every plan is sanctioned: calls only to a checked runtime of the bound node under the VM's machine name, deletes exactly for deleting VMs, creates only when the machine was not found, forced drops only with an unusable runtime, status inputs coherent and naming the binding or the scheduler's choice |
| `Decision.AfterCallFacts` | internal/controller/smolvm_controller.go:215-313 | what follows a call is sanctioned in the same way and is never another call |
| `Decision.DeleteExactly` | internal/controller/smolvm_controller.go:333-376 | a deleting VM that was never bound is let go; with a usable runtime it is after the delete call succeeds or finds nothing; with an unusable one the finalizer goes if and only if the force annotation is true, and otherwise the status shows DeletionBlocked=True, phase Deleting and the binding |
| `Decision.FailureReported` | internal/controller/smolvm_controller.go:378-395 | a failed call, or one that found no machine where one was needed, is always reported as unknown, not ready and not reconciled, with its error |
| `Decision.LiveExactly` | internal/controller/smolvm_controller.go:146-241 | the finalizer is added if and only if it is missing; an invalid spec fails; an unbound VM is scheduled where the scheduler places it or stays pending; an unusable runtime or a failed read of the machine makes it unknown; none of these is ready or reconciled |
| `Decision.MachineWritten` | internal/controller/smolvm_controller.go:208-330 | a status is written with the machine just read, or the one just created, or none, and where there is one the phase is that machine's |
| `Decision.UsableIff` | internal/controller/smolvm_controller.go:80-118 | the checks let a call through if and only if the node is listed and eligible and what answers is healthy, names that node, does not contradict its UID, and speaks its protocol |
| `Decision.ReconciledSound` | internal/controller/smolvm_controller.go:127-376 | whatever a reconcile does and its call returns, it ends by writing Reconciled=True if and only if the VM is live, finalized, valid, bound and reachable and the machine just read has the desired run state, the same port multiset, and equal CPU, memory and disks wherever both sides state them |
| `Reconciler.TraceSound` | internal/controller/smolvm_controller.go:318-330 | a written status says Reconciled=True if and only if that holds, and where it holds the status says so afterwards even if nothing had to be written |
| `Reconciler.TraceObserves` | internal/controller/smolvm_controller.go:208-330 | a written status shows the machine just read and its phase, or the machine just created, or what was shown before, and is stamped with the generation of the second read |
| `Truth.ReconciledTruthful` | internal/controller/smolvm_controller.go:243-330 | whenever a run commits Reconciled=True, the VM its reconcile read was live, valid and bound, and at an earlier state of the run the machine on its node matched that spec and had the very pid, network flag, ports in order and disks the status shows; the status carries the generation of the second read |
| `Truth.ShownAsAsked` | internal/controller/smolvm_controller.go:423-432 | such a status shows the spec's storage and overlay sizes wherever the spec asks and the runtime reports, and the spec's ports up to order |
| `Truth.CallsAsSpecified` | internal/controller/smolvm_controller.go:667-698 | every call a run performs asks for what the spec its reconcile read asks: creates carry its image or source, sizes, disks, ports, network and ranges, resizes its disks, starts and stops go with spec.running against the state read, deletes only with a VM being deleted |
| `Truth.GenerationTruthful` | internal/controller/smolvm_controller.go:427-450 | when both reads showed one generation, the machine matched, at an earlier state of the run, the very spec whose generation the committed status carries |
| `Truth.StampExactly` | internal/controller/smolvm_controller.go:318-330 | Reconciled=True decided for the first version read is true of another spec, whatever machine was seen, if and only if that spec has no compared wish the first did not have, or the first takes a branch that never reports |
| `Truth.RunHonest` | internal/controller/smolvm_controller.go:208-330 | every plan or draft in flight stems from a look earlier in the run and claims Reconciled=True only for what that look saw |
| `Decision.CreateRoundTrip` | internal/controller/smolvm_controller.go:667-687 | a machine that echoes the create request shows no drift, shrink or expansion, gives back the spec's ports in order, and matches the spec up to its run state |
| `Decision.ResizeGrows` | internal/controller/smolvm_controller.go:689-698 | a permitted resize lowers no reported disk, strictly raises one, and afterwards neither shrink nor expansion holds; drift is unaffected |
| `Decision.ValidateSpec` | internal/controller/smolvm_controller.go:642-665 | the loops find the first problem in order: moved pin, two sources, no source, a host port used twice, a bad CIDR |
| `Decision.ValidExactly` | internal/controller/smolvm_controller.go:642-665 | a spec is valid if and only if its pin does not contradict the binding, exactly one source is given, no two ports share a host port, and every range is well formed |
| `Scheduler.ScheduleExact` | internal/controller/smolvm_controller.go:477-512 | unpinned, the answer is the first listed node with no reject reason, and there is none exactly when all are rejected, with one reason per node in order; pinned, it is the pin if and only if that node is listed with no reject reason, and otherwise names its reason or its absence; `Suitability.PlacedSuits` says the same on the fields |
| `Scheduler.FirstFitExact` | internal/controller/smolvm_controller.go:494-511 | the scan ends at the first accepted node, or has rejected every node with its own reason |
| `Scheduler.PickNode` | internal/controller/smolvm_controller.go:477-512 | the loop with its growing reasons computes that answer |
| `Scheduler.RejectReason` | internal/controller/smolvm_controller.go:514-538 | the reject reason is the first failing test, and there is none if and only if the node is reported up, every selected label has the selected value, the Kubernetes node exists, is not cordoned and is Ready by its first Ready condition, the resources fit and no host port is taken |
| `Scheduler.RejectMeaning` | internal/controller/smolvm_controller.go:514-538 | each reason is given if and only if the tests before it pass and its own fails, read on the fields of the node, the labels and the Kubernetes node |
| `Scheduler.EligibleExactly` | internal/controller/smolvm_controller.go:608-622 | eligible if and only if the four conditions each have a True entry, the protocol is empty or v1alpha1, the heartbeat is at most 120 seconds old, and the endpoint has an IP and a positive port |
| `Scheduler.FirstReadyExactly` | cmd/runtime-agent/main.go:409-416 | the Kubernetes node is ready if and only if its first Ready condition is True |
| `Suitability.AcceptedExactly` | internal/controller/smolvm_controller.go:514-606 | a node is accepted if and only if it suits the VM: up, labelled as selected, taking work in Kubernetes, with no host port of the VM in use by a counted VM and room for its CPU, memory, and storage with overlay |
| `Suitability.PlacedSuits` | internal/controller/smolvm_controller.go:477-512 | unpinned, the VM is placed on the first listed node that suits, and nowhere if and only if none does; pinned, on the node of that name if and only if that one suits |
| `Suitability.BindingSuits` | internal/controller/smolvm_controller.go:167-206 | every binding a run commits names a listed node that suited the VM on the fields of what the reconcile saw |
| `Scheduler.CollectBound` | internal/controller/smolvm_controller.go:540-553 | the loop keeps, in order, the VMs that are bound, not being deleted and not the pending one |
| `Scheduler.BoundVMs` | internal/controller/smolvm_controller.go:540-553 | a VM is counted if and only if it is listed, bound, not being deleted and has another UID |
| `Capacity.FitIsExact` | internal/controller/smolvm_controller.go:564-585 | with wrapping int32 and int64 sums a node is accepted if and only if the column sums of spec.cpus, spec.memoryMiB, and spec.storageGiB plus spec.overlayGiB over the VMs on it, with the request, are each at most its positive offer, for non-negative requests whose CPU total is within int32 and storage total within int64; memory needs only a list shorter than 2^32 |
| `Capacity.FitExactIff` | internal/controller/smolvm_controller.go:574-583 | for any totals, the test agrees with the unbounded comparison if and only if used plus requested stays in range or its residue lies above the node's capacity; every other total beyond the range is accepted |
| `Capacity.WrapMod` | internal/controller/smolvm_controller.go:570-572 | wrap-around is the residue in the signed range |
| `Capacity.OvercommitAccepted` | internal/controller/smolvm_controller.go:574-576 | a node with four CPUs and one in use accepts a request of 2^31 - 1 |
| `Capacity.ResourceFitReason` | internal/controller/smolvm_controller.go:564-585 | the shortage found is the first of CPU, memory, and storage with overlay whose exact column sum with the request, wrapped once, exceeds a positive offer |
| `Capacity.SumBound` | internal/controller/smolvm_controller.go:564-573 | however often the running totals wrap on the way, they end as one wrap of the exact column sums |
| `Capacity.UsedColumns` | internal/controller/smolvm_controller.go:565-573 | the three dimensions of use are the sums of the VMs' own fields: cpus, memoryMiB, and storageGiB plus overlayGiB |
| `Capacity.WrapStep` | internal/controller/smolvm_controller.go:570-572 | wrapping an intermediate sum does not change where the sum ends up |
| `Capacity.UsedBounds` | internal/controller/smolvm_controller.go:565-573 | sums of non-negative requests are non-negative, and memory is bounded by the list length times the int32 maximum |
| `Capacity.HostPortConflict` | internal/controller/smolvm_controller.go:587-606 | a conflict is reported if and only if some counted VM of the node shares a host port with the request |
| `PortMatch.ComparePorts` | internal/controller/smolvm_controller.go:713-733 | true if and only if spec and runtime ports are equal as multisets of (host, guest) pairs |
| `PortMatch.PrintedInjective` | internal/controller/smolvm_controller.go:719-723 | different pairs print differently, also for negative numbers |
| `PortMatch.PrintedMultisets` | internal/controller/smolvm_controller.go:719-723 | printed lists are equal as multisets if and only if the pairs are |
| `PortMatch.SortedFormUnique` | internal/controller/smolvm_controller.go:725-732 | two sorted lists with the same multiset are the same list |
| `PortMatch.SortStrings` | internal/controller/smolvm_controller.go:725-726 | the sort is an ordered permutation |
| `PortMatch.SortAndCompare` | internal/controller/smolvm_controller.go:725-732 | comparing sorted lists position by position decides multiset equality |
| `StatusWriter.CoherentAfter` | internal/controller/smolvm_controller.go:416-452 | updating a coherent status gives a coherent one if and only if it does not clear a binding without a Scheduled verdict |
| `StatusWriter.UpdateQuiescent` | internal/controller/smolvm_controller.go:447-451 | repeating an update at any later time computes the same status, so nothing is written |
| `StatusWriter.VerdictsAfter` | internal/controller/smolvm_controller.go:433-446 | the conditions read back after an update are the ones it was asked to set, Scheduled defaulting to the binding |
| `StatusWriter.ObservedAfter` | internal/controller/smolvm_controller.go:421-432 | an update with a machine shows that machine field by field, one without leaves the five observed fields, and either carries the given generation, phase, node and machine name |
| `StatusWriter.BlockedAfter` | internal/controller/smolvm_controller.go:444-446 | DeletionBlocked reads as set, or as before |
| `StatusWriter.FindAfterAll` | internal/controller/smolvm_controller.go:433-446 | after a list of sets each type reads as set, and all other types as before |
| `StatusWriter.SetAllUnique` | internal/controller/smolvm_controller.go:433-446 | an update keeps one entry per type |
| `StatusWriter.PortsFromRuntime` | internal/controller/smolvm_controller.go:735-744 | ports are carried over one by one in order |
| `StatusWriter.StatusDraft.Apply` | internal/controller/smolvm_controller.go:421-446 | the field-by-field rewrite yields the specified status, which shows the machine's process, network, ports in order and each disk under its own name, or what was shown before when no machine was seen, and carries the generation |
| `StatusWriter.StatusDraft.SetConditions` | internal/controller/smolvm_controller.go:428-446 | the conditional sets amount to the specified list of sets in order |
| `Conditions.SetRefinesMap` | internal/controller/smolvm_controller.go:454-475 | on a list with distinct types a set is a map update; types stay distinct and keep their order |
| `Conditions.FindAfterSet` | internal/controller/smolvm_controller.go:454-475 | a set is read back as written and leaves every other type as it was, on any list |
| `Conditions.TransitionTime` | internal/controller/smolvm_controller.go:457-459 | the transition time moves exactly when the status value changes or the type is new |
| `Conditions.SetAgain` | internal/controller/smolvm_controller.go:454-475 | a set that says nothing new leaves the list as it is |
| `Conditions.UniqueHas` | internal/controller/smolvm_controller.go:624-631 | with distinct types "some entry says so" and "the entry says so" agree |
| `Conditions.ConditionList.Set` | internal/controller/smolvm_controller.go:454-475 | the loop edits the first entry of the type in place or appends |
| `NodeAgent.ReportAgrees` | cmd/runtime-agent/main.go:262-289 | from a status with distinct types the reported node is eligible if and only if it is healthy, its Kubernetes node is Ready, the heartbeat is at most two minutes old and the endpoint has an IP and a positive port; types stay distinct |
| `NodeAgent.AgreesIff` | internal/controller/smolvm_controller.go:608-631 | for arbitrary prior conditions this agreement holds for every report if and only if no later Schedulable entry says True |
| `NodeAgent.EligibleAfterReport` | cmd/runtime-agent/main.go:284-287 | eligibility after a report, from any prior status: each type is as reported or masked by a later True entry |
| `NodeAgent.HasAfterSet` | cmd/runtime-agent/main.go:349-362 | after a set some entry of the type says a value exactly when the set did or a later duplicate does |
| `NodeAgent.HasAfterAll` | cmd/runtime-agent/main.go:284-287 | the same through a whole list of sets |
| `NodeAgent.Agent.Report` | cmd/runtime-agent/main.go:262-289 | the report rewrites every field as specified and publishes the identity, offer, endpoint and heartbeat found; a failed node read keeps the identity last seen and reports not schedulable |
| `NodeAgent.Agent.FirstReady` | cmd/runtime-agent/main.go:409-416 | the first Ready condition of the Kubernetes node decides, and none means not ready |
| `NodeAgent.CheckHealth` | cmd/runtime-agent/main.go:157-177 | healthy if and only if nothing is missing, and otherwise the message lists what is missing, in order |
| `Sweeper.NodeRuntime.CleanupOrphans` | cmd/runtime-agent/main.go:304-329 | a listed machine under a k8s- name whose delete is not refused is gone afterwards if and only if no listed VM carries its name, has this node and is not being deleted; every other machine is still there, unchanged |
| `Sweeper.CollectOwned` | cmd/runtime-agent/main.go:313-319 | a name is collected if and only if some listed VM carries it, has this node, and is not being deleted |
| `Sweeper.SweepExactly` | cmd/runtime-agent/main.go:313-328 | a name is deleted if and only if it was listed, starts with k8s-, and no listed VM carries it on this node without being deleted |
| `Sweeper.OwnedNames` | cmd/runtime-agent/main.go:313-319 | a name is owned if and only if some listed VM owns it |
| `Sweeper.Doomed` | cmd/runtime-agent/main.go:320-328 | a name is deleted if and only if it was listed, is a controller name and is not owned |
| `Types.DistinctTagsDistinctNames` | internal/controller/smolvm_controller.go:781-785 | VMs with different digests have different machine names, whatever dashes their namespaces and names contain |

## Left out

- HTTP, TLS, JSON and token handling of the runtime client and the agent's handlers: only the records and a result of ok, not found or failed remain.
- `RuntimeFactory` and `runtimeClient` of the controller: a hook that bypasses the identity checks, and an unused path.
- SHA-256 in `stableMachineName`: the digest is a ten-character field of the VM.
- The CIDR parser: its verdict is a field of the range.
- Events, logging, metrics, requeue delays and returned errors: no modelled state depends on them.
- Error and reject texts: fixed texts without the formatted values (node names, numbers, underlying errors), except for the Scheduled message, which names the node.
- The endpoint test after the eligibility test in `runtimeForNode`: eligibility already implies it.
- Device, directory and file-system probes, process supervision and certificates of the agent: their results are inputs to health and report.
- The agent's label copy and the creation of its SmolVMNode object: labels are an arbitrary input to scheduling.
- Finalizers of other parties: a VM has the operator's finalizer or none, so it is gone when that is removed.
- Transient API errors: modelled on the scheduling path; elsewhere a failed read or write is a reconcile that stops there.
- Heartbeats are exact instants; the API's rounding to seconds is not modelled.
- Semantic equality of statuses is equality of the modelled fields; nil and empty lists are not told apart.
- Runtime answers about an image's contents and guest readiness: the runtime does not report them.
