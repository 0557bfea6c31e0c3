# Datadog Operator: fleet daemon, profiles, untainting and remote config, verified

A Dafny 4.11 model of four parts of the Datadog Operator, with proofs of what they are for.
`dafny verify dfyconfig.toml` checks everything.

## What is modelled

**The fleet daemon** (`pkg/fleet`). Two protocols share one DatadogAgent object, one Remote Config
installer state and a handful of lock-guarded fields. In the *experiment protocol*, tasks (start,
stop, promote) become annotations that hold one pending operation; status snapshots of the object
finish it. In the *managed installation protocol*, an intent (install, acknowledge, uninstall) is
checked against a record, accepted, carried out in the background and recorded.

- `Json`, `PendingSlot`: merge patches (section 2 of RFC 7396) and the slot in the annotations.
- `Packages`: the package list of the installer state, as a list and as a map; class
  `InstallerState` updates it in place.
- `DatadogAgent`, `Experiments`, `ExperimentProofs`: the object, the transitions of the experiment
  protocol, and what one transition does.
- `Installation`: intents, the record, what may follow what, and the updater tags.
- `FleetWorld`: everything together as a machine of atomic steps. A section under the transition
  lock is one step; every API call of a background operation is one step; any state an object ever
  had may be delivered as a snapshot, at any time and again; other API writers may delete any object,
  and do what they like to it, except to its five pending annotations; a write may land, be refused,
  or land although the client sees an error; after each stored write of the target an event of its
  last state is due until it is forwarded, beside any number of older ones; the process may crash
  between any two steps and inside a status transition, and restarts from the cluster and the record,
  each of which it may fail to read.
- `FleetInvariants`, `FleetSteps`, `FleetTheorems`: the invariants, that every step keeps them, and
  what follows for every run.
- `ReadyLabel`, `WakeUps`: which writes make an object ready, and which steps leave a parked worker
  without a wake-up.
- `PromoteRecovery`: promotion under tasks, deliveries and crashes.
- `FleetRuns`, `PromoteRuns`: for each exception in those theorems a run, from a start, that ends in
  it (a reachable world is exactly the end of such a run, `FleetRuns.ReachableByRun`).
- `Daemon`: the same transitions as methods of a class that update fields in place, each proved
  equal to the machine's step.

**Profiles** (`pkg/agentprofile`): `Sorting`, `Profiles` (conflict-free assignment of nodes) and
`StagedLabelling` (the create strategy, round after round).

**Untainting** (`internal/controller/untaint_controller.go`): `Untaint`, with runs against other
writers and a JSON patch after sections 4.3 and 4.6 of RFC 6902.

**Remote config** (`pkg/remoteconfig/updater.go`): `ConfigMerge` and `ClientHandover`.

Assumptions: a read returns the object as the API server has it at that step. The SHA-256 digests
are free of collisions, and are modelled as injective. UUID syntax is "not blank". Well-known
annotation, label and field names are constructors, distinct by construction. The reconciler that
moves `status.experiment` is another API writer. An event that is due is not counted on once its
object is deleted, since a watch that reconnects skips it. Node names are unique, and a DatadogAgentProfile
has a namespace.

## Results that are not as one would expect

- A remote config with a top-level `metadata` member replaces the signal annotations of the patch it
  is merged into. `PendingSlot.SignalSurvivesIff` says exactly when they survive;
  `PendingSlot.MetadataDropsSignal` is an example.
- A pending start can vanish without a final report. `FleetTheorems.StepLosesIff` says exactly by
  which steps: a stop task without an ID or without a package is written over it (the slot then reads
  as free), or another writer deletes the object. `FleetRuns.StartLostToBlankStop` and
  `FleetRuns.StartLostToDeletion` are runs that end there.
- A worker parked for a Fleet task can be left with nothing to wait for, no token and no event due,
  so that only something unrelated (a retry timer, a resync, a change of the intent) wakes it.
  `WakeUps.StrandsIff` says exactly by which steps. For an uninstall it is the deletion of the target
  alone, for which the informer has no handler. For an install, which also waits for the reported
  and for the running experiment, it is as well the repair of the reported version after a local
  termination, a stop or promote that settles without a write, and an event that is forwarded after
  the result of an operation is on record and before the operation has ended. `FleetRuns` has a run
  for each.
- In unmanaged mode the config of a start is merged unchecked, so it can set the ready label itself:
  `ReadyLabel.ReadyLabelUnderLock` names this as the only write that makes an object ready without
  the checks, and `FleetRuns.ReadiedByConfig` is a run. In managed mode there is none.
- A promotion whose promised version is not the ID of the experiment in the status is found as a
  mixed pair after a restart. `PromoteRecovery.NewPairIff` says exactly when;
  `PromoteRuns.MixedPairReached` is a run that ends there.
- Task and version updates of the package list commute as maps always, as lists exactly when they do
  not both append: `Packages.ListUpdatesCommuteIff`.
- Local-termination repair with a blank experiment ID also hits packages that run no experiment:
  `Packages.BlankRepairHitsIdlePackages`. For any other ID it does what it is for:
  `Packages.RepairClearsOnce`.
- Merging drops the name of a remote config, so the empty config is a left identity exactly for
  configs without a name: `ConfigMerge.EmptyIsIdentity`.
- Two profiles of the same age and name in two namespaces are taken in the order in which they are
  listed: `Profiles.ListingOrderDecides`. With distinct ages or names the order does not matter.

## Model

| member | source | states |
|---|---|---|
| `Json.MergePatchMember` | pkg/fleet/daemon_operations.go:158-165 | A member of a merge-patched document is the patch's member merged into the old one; what the patch does not name stays |
| `PendingSlot.PatchThenParse` | pkg/fleet/daemon_operations.go:114-168 | Applying the patch that writes an operation to any document and reading the slot back returns exactly that operation, and nothing when a field it needs is blank |
| `PendingSlot.WrittenSlot` | pkg/fleet/daemon_operations.go:128-150 | After the patch all five pending annotations are those of the operation; an old result version is gone |
| `PendingSlot.UnrelatedAnnotationsKept` | pkg/fleet/daemon_operations.go:114-168 | An annotation outside the slot that the signal patch does not name is untouched |
| `PendingSlot.SignalSurvivesIff` | pkg/fleet/experiment.go:86-108 | The signal annotations reach the object exactly when the config brings no metadata of its own or brings the same values |
| `PendingSlot.MetadataDropsSignal` | pkg/fleet/experiment.go:86-108 | A config with empty metadata loses the signal while the slot is still written |
| `PendingSlot.PatchedLabel` | pkg/fleet/daemon_operations.go:114-168 | A label after the patch of an operation is the old one merged with what the patch says of it; the slot brings no label |
| `PendingSlot.LabelsUntouched` | pkg/fleet/daemon_operations.go:114-168 | A signal patch that names no labels leaves all labels alone |
| `PendingSlot.ClearedSlot` | pkg/fleet/daemon_worker.go:357-387 | Clearing empties the slot, removes the action and keeps every other annotation |
| `Packages.VersionsRefineView` | pkg/fleet/daemon.go:485-498 | Reading versions from the list is reading them from the map it stands for |
| `Packages.SetTaskRefinesMap` | pkg/fleet/daemon.go:307-348 | A task update keeps names unique and is the map update of that one package |
| `Packages.SetVersionsRefinesMap` | pkg/fleet/daemon.go:501-531 | A version update keeps names unique and is the map update of that one package |
| `Packages.GetAfterSet` | pkg/fleet/daemon.go:485-531 | A get after a set returns what was set; other packages and task updates leave it alone |
| `Packages.UpdatesCommute` | pkg/fleet/daemon.go:307-348 | Task and version updates, in either order, give the same map |
| `Packages.ListUpdatesCommuteIff` | pkg/fleet/daemon.go:307-348 | They give the same list exactly when they do not append two different packages |
| `Packages.RepairPointwise` | pkg/fleet/daemon_worker.go:297-332 | The repair loop acts on each package by itself, whatever the experiment ID |
| `Packages.RepairClearsOnce` | pkg/fleet/daemon_worker.go:297-332 | For a non-blank experiment ID every match is cleared, every stable version kept, and a second repair changes nothing |
| `Packages.BlankRepairHitsIdlePackages` | pkg/fleet/daemon_worker.go:297-332 | With a blank ID packages without an experiment are hit as well |
| `Packages.InstallerState.UpdateTask` | pkg/fleet/daemon.go:307-348 | The loop is the list update, and one report in the log |
| `Packages.InstallerState.UpdateVersions` | pkg/fleet/daemon.go:501-531 | The loop is the list update, and one report in the log |
| `Packages.InstallerState.ReadVersions` | pkg/fleet/daemon.go:485-498 | The scan returns the versions of the first entry with the name |
| `Packages.InstallerState.RepairTerminated` | pkg/fleet/daemon_worker.go:297-332 | The loop over the list as it was is the repair |
| `ExperimentProofs.PersistKeepsSlots` | pkg/fleet/managed_agent_installation.go:444-488 | Persisting a promotion touches no slot and no installer state |
| `ExperimentProofs.TaskSlots` | pkg/fleet/daemon_operations.go:90-112 | A task changes the slot of its own object only, not while an installation is active, and displaces an operation only if that is a start and the task a stop; the stop is in the slot afterwards exactly when neither its ID nor its package is blank, and else the slot reads as free |
| `ExperimentProofs.FinishSlots` | pkg/fleet/daemon_worker.go:195-238 | Finishing reports a final state for its own task and clears the slot only if it still holds that operation |
| `ExperimentProofs.StatusSlots` | pkg/fleet/daemon_worker.go:92-115 | A status update, however stale, takes an operation out of a slot only after reporting how it ended |
| `ExperimentProofs.StatusProvenance` | pkg/fleet/daemon_worker.go:164-217 | A status update moves the stable version of a package only to a version reported as its experiment, and only when the snapshot completes a promote of that package |
| `ExperimentProofs.TaskProvenance` | pkg/fleet/daemon_operations.go:336-387 | A task moves the stable version of a package only to a version reported as its experiment, and only as a promote of that package whose object's status shows phase promoted |
| `ExperimentProofs.LocalRepairAccounted` | pkg/fleet/daemon_worker.go:297-332 | Local-termination repair moves no stable version |
| `Installation.Decode` | pkg/fleet/managed_agent_installation_intent_eks.go:27-112 | A decoded intent is for this installation, has a known desired state, and acknowledges nothing but its own install |
| `Installation.DigestIgnoresAcknowledgement` | pkg/fleet/managed_agent_installation_intent_eks.go:27-112 | Two intents have the same digest exactly when they differ in the acknowledgement at most |
| `Installation.AcceptedIsLater` | pkg/fleet/managed_agent_installation_intent.go:471-510 | A command that the progress check lets through moves the record forward; the first one is an unacknowledged install |
| `Installation.LaterTransitive` | pkg/fleet/managed_agent_installation_intent.go:471-510 | Moving forward twice is moving forward |
| `Installation.NoReadyTagAfterUninstall` | pkg/fleet/managed_agent_installation_state.go:49-112 | No record that can follow an uninstall allows the readiness tag, for any intent |
| `FleetInvariants.TaskKeepsInv` | pkg/fleet/daemon.go:175-223 | A task keeps every invariant of the machine |
| `FleetInvariants.StatusKeepsInv` | pkg/fleet/daemon_worker.go:92-115 | The delivery of any snapshot an object ever had keeps every invariant |
| `FleetInvariants.WriteKeepsInv` | pkg/fleet/daemon_worker.go:120-143 | Any other API writer that leaves the pending annotations alone, or deletes the object, keeps every invariant |
| `FleetSteps.CommandKeepsInv` | pkg/fleet/managed_agent_installation_command.go:57-117 | The accepting transition establishes exclusion and registers the waiter under the lock under which it looked at the slot |
| `FleetSteps.WorkerKeepsInv` | pkg/fleet/managed_agent_installation_intent.go:135-338 | Every step of the intent worker keeps every invariant, also when the intent that owns the record is gone and the worker waits instead of retrying |
| `FleetSteps.PersistAcceptanceKeepsInv` | pkg/fleet/managed_agent_installation_command.go:104-117 | Persisting an acceptance starts the operation or ends it, also when the write landed although it failed |
| `FleetSteps.InstallKeepsInv` | pkg/fleet/managed_agent_installation.go:81-234 | Every API call of an install keeps every invariant, whatever other writers did before it |
| `FleetSteps.UninstallKeepsInv` | pkg/fleet/managed_agent_installation.go:236-277 | Every API call of an uninstall keeps every invariant |
| `FleetSteps.RecordKeepsInv` | pkg/fleet/managed_agent_installation_command.go:119-173 | Recording the result, reporting it and ending the operation keep every invariant |
| `FleetSteps.CrashKeepsInv` | pkg/fleet/daemon.go:134-141 | A crash and the restart from the cluster and the record, of which either may fail to be read, keep every invariant |
| `FleetSteps.NextKeepsInv` | pkg/fleet/managed_agent_installation_command.go:57-232 | Every step of the machine keeps every invariant |
| `FleetTheorems.ReachableInv` | pkg/fleet/managed_agent_installation_command.go:57-232 | The invariants hold in every state of every run |
| `FleetTheorems.MutualExclusion` | pkg/fleet/managed_agent_installation_command.go:175-199 | In every state with an active installation the target has no pending experiment operation, and tasks and status updates change neither the cluster nor the installer state |
| `FleetTheorems.StepLosesIff` | pkg/fleet/daemon_worker.go:195-238 | For every step of any kind: an operation leaves its slot other than by its own final report or by the stop that is then in the slot exactly when another writer deletes the object or a stop without an ID or a package is written over a start |
| `FleetTheorems.PendingTaskNotLost` | pkg/fleet/daemon_operations.go:90-112 | In every run an operation seen in a slot and later not there left it in between, by its final report, by the stop that replaced it, or by exactly one of those two losses |
| `FleetRuns.StartLostToBlankStop` | pkg/fleet/daemon_operations.go:128-150 | From every start of a managed site a run ends with a pending start erased by a stop without an ID |
| `FleetRuns.StartLostToDeletion` | pkg/fleet/daemon_operations.go:114-168 | From every start of a managed site a run ends with a pending start gone with its deleted object |
| `FleetTheorems.FlagsAllOrNone` | pkg/fleet/managed_agent_installation_command.go:94-102 | In every state the active flag, operation ID, cancel function and done signal are all set or all clear |
| `FleetTheorems.DoneExactlyOnce` | pkg/fleet/managed_agent_installation_command.go:201-232 | Every accepted operation is running, or was cut off by a crash, or has had its done signal closed exactly once |
| `FleetTheorems.NoOperationEndsAnother` | pkg/fleet/managed_agent_installation_command.go:201-232 | A step that closes a done signal closes that of the operation it acts for, even when operation IDs are retried |
| `ReadyLabel.ReadyLabelUnderLock` | pkg/fleet/managed_agent_installation.go:498-531 | In every run a step of the operator makes an object ready exactly when it is the locked write, on an object with the expected UID and config ID whose accepted hash is that of its live spec, changing only the label, or an unmanaged start whose config carries the ready label; the latter never happens in managed mode |
| `ReadyLabel.TaskReadiesIff` | pkg/fleet/experiment.go:86-108 | A task makes an object ready exactly when it is such an unmanaged start |
| `FleetRuns.ReadiedByConfig` | pkg/fleet/experiment.go:86-108 | For every unmanaged site a run ends with an object made ready by the config of a start |
| `ReadyLabel.ExpectedUidNeverChanges` | pkg/fleet/managed_agent_installation.go:81-225 | From creation or first sight to the ready label an install expects one UID |
| `FleetTheorems.BackgroundRecordForward` | pkg/fleet/managed_agent_installation_state.go:146-186 | A background result is written only over the record of the same operation, and changes nothing but its state; a superseded operation's late result changes nothing |
| `FleetTheorems.RecordOnlyMovesForward` | pkg/fleet/managed_agent_installation_intent.go:471-510 | In every run the record only moves forward: one install, at most its own acknowledgement, at most one uninstall, which is never left; identity and content never change |
| `FleetTheorems.FirstRecordIsInstall` | pkg/fleet/managed_agent_installation_intent.go:471-477 | The first record is an unacknowledged install |
| `FleetTheorems.ReadyTagEarned` | pkg/fleet/managed_agent_installation_state.go:49-112 | In every run a world that produces the readiness tag has the target ready and the intent acknowledging its own operation, and at an earlier step the install of that operation recorded DONE and at a later one, before now, the worker persisted its acknowledgement |
| `FleetTheorems.NoReadyTagLater` | pkg/fleet/managed_agent_installation_state.go:49-112 | Once an uninstall is on record no intent in the rest of the run gets the readiness tag |
| `WakeUps.MustWaitIsShouldWait` | pkg/fleet/managed_agent_installation_command.go:175-199 | What a parked worker waits for: an uninstall for a pending task on the target, an install also for a reported or unfinished experiment |
| `WakeUps.EventWakes` | pkg/fleet/daemon_worker.go:136-143 | An event of the target queues a token for a parked worker unless an operation is active, which it never is beside a parked uninstall |
| `WakeUps.StrandsIff` | pkg/fleet/managed_agent_installation_command.go:57-70 | For every step: a parked worker is left with nothing to wait for, no token and no event due exactly by one of four kinds of step, each with its guard; a parked uninstall exactly by the deletion of the target |
| `WakeUps.NoLostWakeUp` | pkg/fleet/managed_agent_installation_command.go:57-70 | In every run a worker that is stranded, for an install or an uninstall, was stranded by exactly such a step and has been ever since |
| `WakeUps.ClearingWakesUninstall` | pkg/fleet/daemon_worker.go:234-238 | The status update that clears the slot queues a token for a parked uninstall |
| `WakeUps.TokenStaysUntilRead` | pkg/fleet/managed_agent_installation_intent.go:135-203 | A queued token stays until the worker takes it and reads the intent again |
| `FleetRuns.StrandedByRepair` | pkg/fleet/daemon_worker.go:297-332 | For every managed site a run ends with a parked install stranded by the repair of the reported version after a local termination |
| `FleetRuns.StrandedByStop` | pkg/fleet/daemon_operations.go:278-334 | The same by a stop task that finds the experiment already over |
| `FleetRuns.StrandedByPromote` | pkg/fleet/daemon_operations.go:336-387 | The same by a promote task that finds the experiment already promoted and on the object |
| `FleetRuns.StrandedByEvent` | pkg/fleet/daemon_worker.go:136-143 | The same by the event of the write that ends the experiment, forwarded while the operation whose result is on record has not ended |
| `FleetRuns.StrandedByDeletion` | pkg/fleet/managed_agent_installation_command.go:175-199 | The same by the deletion of the target |
| `FleetRuns.UninstallStrandedByDeletion` | pkg/fleet/managed_agent_installation_command.go:175-199 | For every managed site a run ends with a parked uninstall stranded by the deletion of the target |
| `FleetTheorems.StableProvenance` | pkg/fleet/daemon_worker.go:164-217 | In every run without restart and installation, a changed stable version was last set by a promotion of that package, to a version it had reported as its experiment before |
| `PromoteRecovery.PairDuringPromotion` | pkg/fleet/daemon.go:360-448 | During a promotion a restart reports the new pair if the promotion is on the object and the old pair if it is not |
| `PromoteRecovery.TaskDuringPromotion` | pkg/fleet/daemon_operations.go:90-168 | A task of any kind, except a promote of the target that promises another version, leaves a promotion under way and keeps what is persisted |
| `PromoteRecovery.PromoteCrashConsistent` | pkg/fleet/daemon_worker.go:195-238 | At every point of every run of tasks (except such a promote), deliveries, phase changes and crashes a restart finds exactly the old pair or the new pair, and the new one for good |
| `PromoteRecovery.CrashReportsPair` | pkg/fleet/daemon.go:360-448 | After a crash, if the cluster can be read, the daemon reports that pair |
| `PromoteRecovery.RedeliveryCompletes` | pkg/fleet/daemon_worker.go:195-238 | In every run, after any crashes, tasks and deliveries since the promotion began, delivering the promoted status without a fault while the promote is pending ends in the new pair, the version reported for its package whichever that is, the task DONE and the slot free |
| `PromoteRecovery.CrashThenDelivery` | pkg/fleet/daemon_worker.go:195-238 | A crash at any stage leaves the promote pending, and the delivery after it completes it |
| `PromoteRuns.StartIsUnderWay` | pkg/fleet/daemon.go:360-448 | A start in which a promotion is under way |
| `PromoteRecovery.NewPairIff` | pkg/fleet/managed_agent_installation.go:444-488 | Once persisted, a restart finds the new pair exactly when the promised version is the experiment's ID |
| `PromoteRuns.MixedPairReached` | pkg/fleet/daemon_operations.go:336-387 | A run, from a start, in which the status moves to another experiment before the promote and a restart then finds a mixed pair |
| `Daemon.FleetDaemon.HandleTask` | pkg/fleet/daemon.go:175-302 | The method does the machine's task step |
| `Daemon.FleetDaemon.StartExperiment` | pkg/fleet/daemon_operations.go:175-276 | Starting, in place, is carrying out the plan of a start, also when the config or the object is not there |
| `Daemon.FleetDaemon.StartOn` | pkg/fleet/daemon_operations.go:230-276 | Starting on an object: ownership, or a settled start when the experiment runs already |
| `Daemon.FleetDaemon.SignalStart` | pkg/fleet/daemon_operations.go:230-276 | Signal and operation are written together, or the operation alone when the signal is there |
| `Daemon.FleetDaemon.StopExperiment` | pkg/fleet/daemon_operations.go:197-334 | Stopping, in place, is carrying out the plan of a stop |
| `Daemon.FleetDaemon.PromoteExperiment` | pkg/fleet/daemon_operations.go:217-387 | Promoting, in place, is carrying out the plan of a promote; a mismatch found while persisting is reported as an invalid state |
| `Daemon.FleetDaemon.ApplyOperation` | pkg/fleet/daemon_operations.go:114-168 | One merge patch writes the operation, its signal and whatever labels the patch brings, or nothing |
| `Daemon.FleetDaemon.ReconcileLocalTermination` | pkg/fleet/daemon_worker.go:297-332 | The repair in place is that of the machine |
| `Daemon.FleetDaemon.OnStatusUpdate` | pkg/fleet/daemon_worker.go:92-115 | The method does the machine's status step, with the wake-up |
| `Daemon.FleetDaemon.FinishPendingOperation` | pkg/fleet/daemon_worker.go:195-238 | Persist, versions, task state and clear, in that order |
| `Daemon.FleetDaemon.ClearPendingIfCurrent` | pkg/fleet/daemon_worker.go:357-387 | The slot is cleared only if it still holds the operation |
| `Daemon.FleetDaemon.PersistStable` | pkg/fleet/managed_agent_installation.go:444-488 | The promoted ID and the hash of the live spec are written, after the checks |
| `Daemon.FleetDaemon.Rehydrate` | pkg/fleet/daemon.go:360-448 | The installer state rebuilt in place is that of a restart |
| `Daemon.FleetDaemon.RehydrateAll` | pkg/fleet/daemon.go:450-476 | The loop over the listed objects is the legacy restart |
| `Daemon.FleetDaemon.ShouldWaitForFleet` | pkg/fleet/managed_agent_installation_command.go:175-199 | The method decides what the machine decides |
| `Daemon.FleetDaemon.HandleCommand` | pkg/fleet/managed_agent_installation_command.go:57-102 | The method does the machine's accepting transition |
| `Daemon.FleetDaemon.FinishTask` | pkg/fleet/managed_agent_installation_command.go:217-232 | The fields of the operation with that ID are cleared together and its done signal closed |
| `Sorting.SortIgnoresOrder` | pkg/agentprofile/agent_profile.go:221-237 | With distinct keys a stable sort of two arrangements of one list gives the same list |
| `Profiles.CountsAddUp` | pkg/agentprofile/agent_profile.go:64-89 | Labelled plus waiting counts are the wanted nodes, and the waiting ones are those without the label |
| `Profiles.ConflictIffOverlap` | pkg/agentprofile/agent_profile.go:49-59 | The conflict check finds exactly an overlap with an accepted profile |
| `Profiles.ReconcileWellAssigned` | internal/controller/datadogagent/profile.go:80-134 | Over any profile list, accepted profiles share no node, each holds every node it wants, and all other nodes stay default |
| `Profiles.AcceptedIff` | internal/controller/datadogagent/profile.go:80-134 | A profile is accepted exactly when it is valid, its shared settings fit and no earlier accepted profile shares a node with it; acceptance is final |
| `Profiles.AcceptedCounts` | pkg/agentprofile/agent_profile.go:64-89 | In the end the counts of every accepted profile add up to the nodes it wants |
| `Profiles.OrderIndependent` | pkg/agentprofile/agent_profile.go:221-237 | With distinct (creation time, name) the whole outcome is independent of the listing order |
| `Profiles.ListingOrderDecides` | pkg/agentprofile/agent_profile.go:221-237 | With equal ones it is not: the profile listed first gets the node |
| `Profiles.NodeAssignment.CheckConflicts` | pkg/agentprofile/agent_profile.go:49-59 | The scan reports a conflict exactly when there is one |
| `Profiles.NodeAssignment.AssignNodes` | pkg/agentprofile/agent_profile.go:64-89 | The loop fills both maps as specified |
| `Profiles.NodeAssignment.Reconcile` | internal/controller/datadogagent/profile.go:73-134 | The loop over the sorted profiles is the reconcile |
| `StagedLabelling.RoundBound` | pkg/agentprofile/agent_profile.go:345-366 | A round keeps the unavailable pods at or below the larger of what they were and the maximum, and labels all it may |
| `StagedLabelling.SmallestFirst` | pkg/agentprofile/agent_profile.go:345-366 | The nodes a round labels are the smallest-named of those waiting |
| `StagedLabelling.RoundKeepsPrefix` | pkg/agentprofile/agent_profile.go:345-366 | Of the waiting nodes exactly that prefix stays in the node map; every other node is as it was |
| `StagedLabelling.StatusMeans` | pkg/agentprofile/agent_profile.go:369-401 | In progress exactly when a node is labelled, waiting exactly when nodes remain and none is, completed exactly when none was waiting |
| `StagedLabelling.FitsInt32` | pkg/agentprofile/agent_profile.go:315-342 | When capacity and node count fit 32 bits no intermediate result overflows |
| `StagedLabelling.RolloutBound` | pkg/agentprofile/agent_profile.go:315-342 | Over whole rollouts in which ready pods stay ready the bound holds throughout |
| `StagedLabelling.RoundsConserve` | pkg/agentprofile/agent_profile.go:345-366 | No node is lost or labelled twice over any rounds |
| `StagedLabelling.RoundProgress` | pkg/agentprofile/agent_profile.go:345-366 | With labelled pods ready and a positive maximum the waiting count strictly falls |
| `StagedLabelling.RolloutCompletes` | pkg/agentprofile/agent_profile.go:315-401 | It reaches Completed after exactly the expected number of rounds |
| `StagedLabelling.NextRoundSees` | pkg/agentprofile/agent_profile.go:64-89 | The next reconcile finds on the relabelled nodes the rest of the queue and the higher count |
| `StagedLabelling.Rollout.ApplyMax` | pkg/agentprofile/agent_profile.go:345-366 | Sorting and trimming in place are as specified |
| `StagedLabelling.Rollout.Apply` | pkg/agentprofile/agent_profile.go:315-401 | One round in place: node map, status, counts and the time of the last status change |
| `Untaint.KeptInOrder` | internal/controller/untaint_controller.go:477-490 | Exactly the other taints are kept, in their order |
| `Untaint.PatchLandsIff` | internal/controller/untaint_controller.go:492-513 | The test-and-replace patch lands exactly on the list it was computed from |
| `Untaint.DecideAtDeadline` | internal/controller/untaint_controller.go:312-367 | With a known clock the controller requeues for exactly the time to the deadline, and from then on the timeout fires |
| `Untaint.TimedOutMeans` | internal/controller/untaint_controller.go:312-367 | A timeout fires only when readiness is not met and a deadline has passed |
| `Untaint.UnknownClockPolls` | internal/controller/untaint_controller.go:312-367 | While the clock is unknown the controller polls and never patches |
| `Untaint.UntaintIsSafe` | internal/controller/untaint_controller.go:475-518 | In every run against any other writers a landed patch, also one whose client sees an error, removes exactly the agent-not-ready taints of the list it finds, and was justified by readiness or, with policy remove, by a deadline, of a node, agent pods and CSI pods that the cluster had at earlier moments in this order |
| `Untaint.RemovedBySecondReconcile` | internal/controller/untaint_controller.go:199-410 | With a known clock and an undisturbed node policy remove acts in the first reconcile or in the second, at the deadline and not before |
| `Untaint.LatestPodStartTime` | internal/controller/untaint_controller.go:445-459 | The scan finds the latest start, and whether there is one |
| `Untaint.FilterTaints` | internal/controller/untaint_controller.go:477-490 | The loop keeps what is to be kept |
| `Untaint.EvaluateTimeouts` | internal/controller/untaint_controller.go:312-367 | The timeouts with the scans are as specified |
| `Untaint.NodeStore.RemoveTaint` | internal/controller/untaint_controller.go:475-518 | The patch against what the node has become meanwhile: done, conflict with a short requeue, or failed |
| `Untaint.NodeStore.Reconcile` | internal/controller/untaint_controller.go:199-279 | A whole reconcile with other writers after the read is as specified |
| `ConfigMerge.LastSetterWins` | pkg/remoteconfig/updater.go:534-543 | For any order list each leaf has the value of the last listed config that sets it |
| `ConfigMerge.SectionsPresent` | pkg/remoteconfig/updater.go:546-627 | A section is present exactly when a listed config has it |
| `ConfigMerge.IdsJoined` | pkg/remoteconfig/updater.go:546-551 | The merged ID is the IDs found, joined in the listed order |
| `ConfigMerge.MergeAssociative` | pkg/remoteconfig/updater.go:546-627 | Merging is associative |
| `ConfigMerge.EmptyIsIdentity` | pkg/remoteconfig/updater.go:546-627 | The empty config is a right identity, and a left one exactly for configs without a name |
| `ConfigMerge.NameIsDropped` | pkg/remoteconfig/updater.go:546-627 | A named config merged into the empty one loses its name |
| `ConfigMerge.MergeInParts` | pkg/remoteconfig/updater.go:534-543 | Merging a list in two parts and then the parts is merging the list |
| `ConfigMerge.MergedConfig.MergeFrom` | pkg/remoteconfig/updater.go:546-627 | The merge in place is as specified |
| `ConfigMerge.MergedConfig.MergeAll` | pkg/remoteconfig/updater.go:534-543 | The loop over the order list is as specified |
| `ClientHandover.ReachableInv` | pkg/remoteconfig/updater.go:99-138 | In every state of every run the active client is complete, a refresh excludes callbacks, and callbacks past the check belong to the active client |
| `ClientHandover.ActiveClientComplete` | pkg/remoteconfig/updater.go:308-341 | The active client holds every subscription ever made, once and in order, the last installer state written, and the first client's identity; all others are closed |
| `ClientHandover.RetiredNeverDelivers` | pkg/remoteconfig/updater.go:108-121 | A handler is called only for the client that is active at that moment |
| `ClientHandover.NoHandoverDuringCall` | pkg/remoteconfig/updater.go:108-121 | No handover happens while a handler runs |
| `ClientHandover.Updater.Subscribe` | pkg/remoteconfig/updater.go:99-106 | The subscription goes to the list and to the active client |
| `ClientHandover.Updater.SetInstallerState` | pkg/remoteconfig/updater.go:132-138 | The state goes to the active client, from which a handover carries it on |
| `ClientHandover.Updater.RefreshTags` | pkg/remoteconfig/updater.go:308-341 | The handover in place keeps identity, state and subscriptions and closes the old client, or changes nothing |

## Left out

- The intent worker and the background operation are functions on the machine's state, one step for each lock section or API call; their updates in place are not modelled as methods.
- Informers, retry backoff, timers and the credential retry schedule: a wake-up may come at any time.
- Events, logs, metrics and the text of errors.
- The contents of the Windows profile and the polling for absent cluster resources in an uninstall: one check that may hold or not.
- JSON syntax, the decoding of remote configs into a spec, and how the API server merges a patch into a spec: the spec after a start patch is arbitrary.
- Ownership of the record by the intent ConfigMap: the record is not garbage-collected, so a run is one life of the intent.
- Liveness: that a background operation ends, that a delivered snapshot arrives.
- Times are unbounded integers; the saturation of Go durations after 292 years is not modelled.
- Profile settings that are shared with the default profile: any rule that depends on the profiles accepted so far.
- Parsing the map of received remote configs, and what becomes of the merged config.
- The CSI and agent pod selectors, and the latency metric of untainting.
- Start and stop of the Remote Config client; a subscription made before a start is outside the run.
