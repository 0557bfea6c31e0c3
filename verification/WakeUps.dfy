/** Whether a worker that is parked for Fleet is woken when there is nothing left to wait for. */
module WakeUps {
  import opened Json
  import opened PendingSlot
  import opened Packages
  import opened DatadogAgent
  import opened Experiments
  import opened ExperimentProofs
  import opened Installation
  import opened FleetWorld
  import opened FleetInvariants
  import opened FleetSteps
  import opened FleetTheorems

  // ---------------------------------------------------------------- what a parked worker waits for

  predicate Parked(w: World, desired: Desired) {
    w.worker == Blocked(ForFleet(desired))
  }

  /** An experiment version is reported for the operator package. */
  predicate VersionHolds(w: World) {
    Versions(w.core.installer.packages, OPERATOR_PACKAGE).1 != ""
  }

  /** A task is pending on the target. */
  predicate SlotHolds(w: World) {
    SlotOf(w.core, w.settings.target).Some?
  }

  predicate Unfinished(agent: Agent) {
    agent.experiment.Some? && !IsTerminal(agent.experiment.value.phase)
  }

  /** The target's status shows an experiment that is not over. */
  predicate StatusHolds(w: World) {
    w.settings.target in w.core.agents && Unfinished(w.core.agents[w.settings.target])
  }

  /** An uninstall waits for a pending task, an install also for a reported or running experiment. */
  predicate MustWait(w: World, desired: Desired) {
    SlotHolds(w) || (desired.Installed? && (VersionHolds(w) || StatusHolds(w)))
  }

  lemma MustWaitIsShouldWait(w: World, desired: Desired)
    requires desired.Installed? || desired.Absent?
    ensures ShouldWait(w, desired, false) == Some(MustWait(w, desired))
  {
  }

  /** An event of the target, which is there, is still to be forwarded. */
  predicate EventDue(w: World) {
    w.due && w.settings.target in w.core.agents
  }

  /** Parked with nothing to wait for, and nothing queued or due to wake it. */
  predicate Stranded(w: World, desired: Desired) {
    Parked(w, desired) && !w.token && !EventDue(w) && !MustWait(w, desired)
  }

  // ---------------------------------------------------------------- the steps that strand it

  /** The snapshot finishes no task and shows that the experiment reported for the operator package
      ended on its own. */
  predicate RepairsOperator(w: World, snapshot: Snapshot) {
    && !w.flags.active && Finishes(snapshot).None?
    && snapshot.experiment.Some? && LocallyTerminated(snapshot.experiment.value)
    && Versions(w.core.installer.packages, OPERATOR_PACKAGE).1 == snapshot.experiment.value.id
  }

  /** A stop or promote of the operator package for which there is nothing left to do. */
  predicate SettlesOperator(w: World, req: Request, faults: Faults) {
    && Planned(w, req) && req.package == OPERATOR_PACKAGE && !req.kind.StartTask?
    && PlanOf(w, req, faults).Settle?
  }

  /** Settling this promote stores the target: the promotion is not yet on it. */
  predicate PersistsTarget(w: World, req: Request) {
    && req.kind.PromoteTask? && req.nsn == w.settings.target && w.settings.identity.Some? && req.nsn in w.core.agents
    && var agent := w.core.agents[req.nsn];
       || Label(agent, ConfigID) != Versions(w.core.installer.packages, req.package).1
       || Lookup(agent.annotations, ConfigHash) != SpecHash(agent.spec)
  }

  /** Of all there is to wait for, the worker waits for the reported version alone. */
  predicate OnlyVersion(w: World, desired: Desired) {
    desired.Installed? && VersionHolds(w) && !SlotHolds(w) && !StatusHolds(w) && !EventDue(w)
  }

  /** The steps that take away the last thing a parked worker waits for and leave no token and no
      event: a repair of the reported version, a stop or promote that settles without a write, a
      deletion of the target, and an event that is forwarded while an operation is active. */
  predicate Strands(w: World, step: Step, desired: Desired) {
    && Parked(w, desired) && !w.token && (MustWait(w, desired) || EventDue(w))
    && match step
       case StatusStep(snapshot, _) => OnlyVersion(w, desired) && RepairsOperator(w, snapshot)
       case TaskStep(req, faults) =>
         OnlyVersion(w, desired) && SettlesOperator(w, req, faults) && !PersistsTarget(w, req)
       case WriterStep(nsn, agent) =>
         nsn == w.settings.target && agent.None? && (desired.Installed? ==> !VersionHolds(w))
       case InformerStep(latest) => latest && w.flags.active && !MustWait(w, desired)
       case _ => false
  }

  // ---------------------------------------------------------------- status updates

  lemma RepairedVersion(installer: Installer, experimentID: string, startTaskID: string)
    requires UniqueNames(installer.packages)
    ensures var before := Versions(installer.packages, OPERATOR_PACKAGE).1;
            Versions(Repair(installer, installer.packages, experimentID, startTaskID).packages, OPERATOR_PACKAGE).1 ==
            if before == experimentID then "" else before
  {
    RepairPointwise(installer, experimentID, startTaskID);
    var after := Repair(installer, installer.packages, experimentID, startTaskID).packages;
    if i :| 0 <= i < |installer.packages| && installer.packages[i].name == OPERATOR_PACKAGE {
      FindAt(installer.packages, i);
      FindAt(after, i);
    } else {
      VersionsOfAbsent(installer.packages, OPERATOR_PACKAGE);
      VersionsOfAbsent(after, OPERATOR_PACKAGE);
    }
  }

  /** A status update that finishes nothing touches no object, and the reported version only by the
      repair. */
  lemma UnfinishedStatus(w: World, snapshot: Snapshot, faults: Faults)
    requires Accounted(w.core.installer) && !w.flags.active && Finishes(snapshot).None?
    ensures var after := DoStatus(w, snapshot, faults);
            && after == w.(core := after.core) && after.core.agents == w.core.agents
            && (VersionHolds(after) <==> VersionHolds(w) && !RepairsOperator(w, snapshot))
  {
    var repaired := RepairLocalTermination(w.core, snapshot);
    LocalRepairAccounted(w.core, snapshot);
    if snapshot.experiment.Some? {
      RepairedVersion(w.core.installer, snapshot.experiment.value.id, snapshot.experiment.value.startTaskID);
    }
    match ParseSlot(snapshot.nsn, snapshot.annotations) {
      case None =>
      case Some(op) => TaskReportAccounted(repaired.installer, op.packageName, op.taskID, RUNNING);
    }
  }

  /** While an operation is active a status update does nothing; one that finishes a task wakes a
      parked worker. */
  lemma OtherStatus(w: World, snapshot: Snapshot, faults: Faults)
    requires w.flags.active || Finishes(snapshot).Some?
    ensures var after := DoStatus(w, snapshot, faults);
            && after.worker == w.worker && after.settings == w.settings
            && (w.flags.active ==> after == w)
            && (!w.flags.active && w.settings.intentsEnabled && w.flags.waiting ==> after.token)
  {
  }

  lemma StatusStrandsIff(w: World, step: Step, desired: Desired)
    requires Accounted(w.core.installer) && Enabled(w, step) && step.StatusStep? && !Stranded(w, desired)
    requires Parked(w, desired) ==> w.settings.intentsEnabled && w.flags.waiting
    ensures Stranded(Next(w, step), desired) <==> Strands(w, step, desired)
  {
    if !w.flags.active && Finishes(step.snapshot).None? {
      UnfinishedStrandsIff(w, step, desired);
    } else {
      OtherStatus(w, step.snapshot, step.faults);
    }
  }

  lemma UnfinishedStrandsIff(w: World, step: Step, desired: Desired)
    requires Accounted(w.core.installer) && step.StatusStep? && !Stranded(w, desired)
    requires !w.flags.active && Finishes(step.snapshot).None?
    ensures Stranded(Observe(w, DoStatus(w, step.snapshot, step.faults)), desired) <==> Strands(w, step, desired)
  {
    UnfinishedStatus(w, step.snapshot, step.faults);
    VersionGoes(w, DoStatus(w, step.snapshot, step.faults), step, desired);
  }

  /** Nothing but the reported version changes. */
  lemma VersionGoes(w: World, after: World, step: Step, desired: Desired)
    requires step.StatusStep? && !Stranded(w, desired)
    requires after == w.(core := after.core) && after.core.agents == w.core.agents
    requires VersionHolds(after) <==> VersionHolds(w) && !RepairsOperator(w, step.snapshot)
    ensures Stranded(Observe(w, after), desired) <==> Strands(w, step, desired)
  {
  }

  // ---------------------------------------------------------------- tasks

  lemma PlanKeepsStatus(settings: Settings, core: Core, configs: Configs, req: Request, faults: Faults, nsn: NsName)
    ensures var after := HandleTask(settings, core, configs, false, req, faults);
            && after.agents.Keys == core.agents.Keys
            && (nsn in core.agents ==> after.agents[nsn].experiment == core.agents[nsn].experiment)
  {
    PlanKeepsSlots(settings, core, configs, req, faults, nsn);
    if req.kind.PromoteTask? && req.nsn in core.agents {
      var experiment := Versions(core.installer.packages, req.package).1;
      PersistKeepsStatus(settings, core, req.nsn, CurrentExperiment(core.agents[req.nsn], experiment), experiment,
                         faults.persist, nsn);
    }
    var (plan, planned) := PlanTask(settings, core, configs, req, faults);
    CarryOutKeepsStatus(planned, plan, req, faults, nsn);
  }

  lemma PersistKeepsStatus(settings: Settings, core: Core, nsn: NsName, experimentID: string, configID: string,
                           outcome: Outcome, other: NsName)
    ensures var after := PersistStable(settings, core, nsn, experimentID, configID, outcome).0;
            other in core.agents ==> other in after.agents && after.agents[other].experiment == core.agents[other].experiment
  {
  }

  lemma CarryOutKeepsStatus(core: Core, plan: Plan, req: Request, faults: Faults, other: NsName)
    requires plan.Settle? ==> plan.core.agents == core.agents
    ensures var after := CarryOut(core, plan, req, faults);
            && after.agents.Keys == core.agents.Keys
            && (other in core.agents ==> after.agents[other].experiment == core.agents[other].experiment)
  {
  }

  /** What a settled plan reports for its own package. */
  lemma SettledVersion(settings: Settings, core: Core, configs: Configs, req: Request, faults: Faults)
    requires Accounted(core.installer)
    ensures var plan := PlanTask(settings, core, configs, req, faults).0;
            plan.Settle? ==>
              && (req.kind.StartTask? ==> req.version != "")
              && Versions(plan.core.installer.packages, req.package).1 == if req.kind.StartTask? then req.version else ""
  {
    match req.kind {
      case StartTask => SettledStart(settings, core, configs, req);
      case StopTask => SettledStop(settings, core, req);
      case PromoteTask => SettledPromote(settings, core, req, faults);
      case UnknownTask =>
    }
  }

  lemma SettledStart(settings: Settings, core: Core, configs: Configs, req: Request)
    requires Accounted(core.installer)
    ensures var plan := PlanStart(settings, core, configs, req);
            plan.Settle? ==> req.version != "" && Versions(plan.core.installer.packages, req.package).1 == req.version
  {
    var stable := Versions(core.installer.packages, req.package).0;
    GetAfterSet(core.installer.packages, req.package, req.package, stable, req.version, Task("", RUNNING));
  }

  lemma SettledStop(settings: Settings, core: Core, req: Request)
    requires Accounted(core.installer)
    ensures var plan := PlanStop(settings, core, req);
            plan.Settle? ==> Versions(plan.core.installer.packages, req.package).1 == ""
  {
    var stable := Versions(core.installer.packages, req.package).0;
    GetAfterSet(core.installer.packages, req.package, req.package, stable, "", Task("", RUNNING));
  }

  lemma SettledPromote(settings: Settings, core: Core, req: Request, faults: Faults)
    requires Accounted(core.installer)
    ensures var plan := PlanPromote(settings, core, req, faults).0;
            plan.Settle? ==> Versions(plan.core.installer.packages, req.package).1 == ""
  {
    var experiment := Versions(core.installer.packages, req.package).1;
    GetAfterSet(core.installer.packages, req.package, req.package, experiment, "", Task("", RUNNING));
    if req.nsn in core.agents {
      PersistKeepsSlots(settings, core, req.nsn, CurrentExperiment(core.agents[req.nsn], experiment), experiment,
                        faults.persist, req.nsn);
    }
  }

  /** A task changes the version reported for the operator package only by settling. */
  lemma TaskVersion(w: World, req: Request, faults: Faults)
    requires Accounted(w.core.installer)
    ensures var after := DoTask(w, req, faults);
            && (SettlesOperator(w, req, faults) ==> !VersionHolds(after))
            && (VersionHolds(w) && !SettlesOperator(w, req, faults) ==> VersionHolds(after))
            && (!VersionHolds(w) && VersionHolds(after) ==> req.kind.StartTask?)
  {
    PlanKeepsSlots(w.settings, w.core, w.configs, req, faults, req.nsn);
    PlanProvenance(w.settings, w.core, w.configs, req, faults);
    SettledVersion(w.settings, w.core, w.configs, req, faults);
    var (plan, planned) := PlanTask(w.settings, w.core, w.configs, req, faults);
    CarryOutInstaller(planned, plan, req, faults);
    TaskReportAccounted(w.core.installer, req.package, req.id, INVALID_STATE);
  }

  /** A task writes a slot or settles, not both. */
  lemma TaskSlotHolds(w: World, step: Step)
    requires step.TaskStep?
    ensures var after := DoTask(w, step.req, step.faults);
            && (SlotHolds(w) ==> (SlotHolds(after) <==> !BlankStop(w, step, w.settings.target)))
            && (!SlotHolds(w) && SettlesOperator(w, step.req, step.faults) ==> !SlotHolds(after))
  {
    TaskWrites(w, step.req, step.faults, w.settings.target);
    if SlotHolds(w) { TaskLeaves(w, step, w.settings.target); }
  }

  lemma TaskStatusHolds(w: World, req: Request, faults: Faults)
    ensures var after := DoTask(w, req, faults);
            && (w.settings.target in after.core.agents <==> w.settings.target in w.core.agents)
            && (StatusHolds(after) <==> StatusHolds(w))
  {
    PlanKeepsStatus(w.settings, w.core, w.configs, req, faults, w.settings.target);
  }

  /** A task that settles stores the target exactly when it persists the promotion on it. */
  lemma SettlingStores(w: World, req: Request, faults: Faults)
    requires SettlesOperator(w, req, faults)
    ensures StoresTarget(w, DoTask(w, req, faults).core) <==> PersistsTarget(w, req)
  {
    PlanKeepsSlots(w.settings, w.core, w.configs, req, faults, req.nsn);
  }

  lemma TaskStrandsIff(w: World, step: Step, desired: Desired)
    requires Accounted(w.core.installer) && step.TaskStep? && !Stranded(w, desired)
    ensures Stranded(Next(w, step), desired) <==> Strands(w, step, desired)
  {
    var after := DoTask(w, step.req, step.faults);
    TaskVersion(w, step.req, step.faults);
    TaskSlotHolds(w, step);
    TaskStatusHolds(w, step.req, step.faults);
    if SettlesOperator(w, step.req, step.faults) { SettlingStores(w, step.req, step.faults); }
    HeldTogether(w, step, after, desired);
  }

  lemma HeldTogether(w: World, step: Step, after: World, desired: Desired)
    requires step.TaskStep? && !Stranded(w, desired) && after == w.(core := after.core)
    requires w.settings.target in after.core.agents <==> w.settings.target in w.core.agents
    requires StatusHolds(after) <==> StatusHolds(w)
    requires VersionHolds(w) ==> (VersionHolds(after) <==> !SettlesOperator(w, step.req, step.faults))
    requires SlotHolds(w) && !SlotHolds(after) ==> StoresTarget(w, after.core)
    requires SettlesOperator(w, step.req, step.faults) ==>
               && (SlotHolds(after) ==> SlotHolds(w))
               && (StoresTarget(w, after.core) <==> PersistsTarget(w, step.req))
    ensures Stranded(Observe(w, after), desired) <==> Strands(w, step, desired)
  {
  }

  // ---------------------------------------------------------------- other writers

  lemma WriterStrandsIff(w: World, step: Step, desired: Desired)
    requires LocksOK(w) && Enabled(w, step) && step.WriterStep? && !Stranded(w, desired)
    ensures Stranded(Next(w, step), desired) <==> Strands(w, step, desired)
  {
    WriteKeepsSlots(w, step.nsn, step.agent, w.settings.target);
  }

  // ---------------------------------------------------------------- the daemon's own steps

  /** The worker parks only while there is something to wait for, and stays parked without a token. */
  lemma WorkerNeverStrands(w: World, choice: Choice, desired: Desired)
    requires w.settings.identity.Some? && !Stranded(w, desired) && (desired.Installed? || desired.Absent?)
    ensures !Stranded(Observe(w, DoWorker(w, choice)), desired)
  {
    match w.worker {
      case Commanding(command) => CommandNeverStrands(w, command, choice.fails, desired);
      case Blocked(_) =>
      case _ => WorkerHasShape(w, choice);
    }
  }

  lemma CommandNeverStrands(w: World, command: Command, fails: bool, desired: Desired)
    requires desired.Installed? || desired.Absent?
    ensures !Stranded(Observe(w, HandleCommand(w, command, fails)), desired)
  {
  }

  /** An install in the background leaves the status of the target alone, and the target there. */
  lemma InstallKeepsStatus(w: World, b: Background, choice: Choice)
    requires LocksOK(w) && w.background == Some(b) && !IsUninstallPc(b.pc) && !IsRecordPc(b.pc)
    ensures var after := DoInstall(w, b, choice);
            && (StatusHolds(w) ==> StatusHolds(after))
            && (w.settings.target in w.core.agents ==> w.settings.target in after.core.agents)
  {
    InstallStores(w, b, choice);
  }

  lemma RecordKeepsWorker(w: World, b: Background, choice: Choice)
    requires IsRecordPc(b.pc) && w.background == Some(b)
    ensures var after := DoRecord(w, b, choice);
            after.worker == w.worker && after.token == w.token && after.due == w.due && after.settings == w.settings
  {
    if b.pc.Recorded? { RecordedKeepsWorker(w, b, b.pc.result, b.pc.afterwards); }
  }

  lemma RecordedKeepsWorker(w: World, b: Background, result: TaskState, afterwards: Afterwards)
    ensures var after := DoRecorded(w, b, result, afterwards);
            after.worker == w.worker && after.token == w.token && after.due == w.due && after.settings == w.settings
  {
  }

  /** The background operation beside a parked install is an install: it finds no version reported,
      no task pending, and leaves the target and its status alone. */
  lemma InstallBesideParked(w: World, b: Background, choice: Choice)
    requires Inv(w) && w.background == Some(b) && Parked(w, Installed)
    ensures var after := DoBackground(w, choice);
            && (MustWait(w, Installed) ==> StatusHolds(after))
            && (w.settings.target in w.core.agents ==> w.settings.target in after.core.agents)
  {
    assert !VersionHolds(w) && !SlotHolds(w);
    if IsRecordPc(b.pc) {
      RecordTouchesNoObject(w, b, choice);
      RecordKeepsWorker(w, b, choice);
    } else {
      InstallKeepsStatus(w, b, choice);
    }
  }

  lemma BackgroundKeepsWorker(w: World, b: Background, choice: Choice)
    requires w.background == Some(b)
    ensures var after := DoBackground(w, choice);
            after.worker == w.worker && after.token == w.token && after.due == w.due && after.settings == w.settings
  {
    if IsRecordPc(b.pc) {
      RecordKeepsWorker(w, b, choice);
    } else if !IsUninstallPc(b.pc) {
      InstallStores(w, b, choice);
    }
  }

  lemma BackgroundNeverStrands(w: World, choice: Choice, desired: Desired)
    requires Inv(w) && !Stranded(w, desired) && (desired.Installed? || desired.Absent?)
    ensures !Stranded(Observe(w, DoBackground(w, choice)), desired)
  {
    if w.background.Some? {
      BackgroundKeepsWorker(w, w.background.value, choice);
      if Parked(w, desired) && !w.token {
        NotBesideUninstall(w, desired);
        InstallBesideParked(w, w.background.value, choice);
      }
    }
  }

  /** A parked uninstall has no operation beside it. */
  lemma NotBesideUninstall(w: World, desired: Desired)
    requires Inv(w) && w.background.Some? && Parked(w, desired) && (desired.Installed? || desired.Absent?)
    ensures desired == Installed
  {
  }

  // ---------------------------------------------------------------- every step, every run

  /** An event of the target wakes a parked worker unless an operation is active. */
  lemma EventWakes(w: World, latest: bool, desired: Desired)
    requires Inv(w) && Parked(w, desired)
    ensures !w.flags.active ==> Next(w, InformerStep(latest)).token
    ensures desired.Absent? ==> !w.flags.active
  {
  }

  lemma InformerStrandsIff(w: World, step: Step, desired: Desired)
    requires step.InformerStep? && !Stranded(w, desired)
    requires Parked(w, desired) ==> w.settings.intentsEnabled && w.flags.waiting
    ensures Stranded(Next(w, step), desired) <==> Strands(w, step, desired)
  {
  }

  /** A step strands a parked worker exactly when it is one of those listed: for an uninstall, the
      deletion of the target by another writer alone; for an install, also a repair of the reported
      version, a stop or promote that settles without a write, and an event that comes while an
      operation is still active. */
  lemma StrandsIff(w: World, step: Step, desired: Desired)
    requires Inv(w) && Enabled(w, step) && (desired.Installed? || desired.Absent?) && !Stranded(w, desired)
    ensures Stranded(Next(w, step), desired) <==> Strands(w, step, desired)
    ensures desired.Absent? && Strands(w, step, desired) ==> step == WriterStep(w.settings.target, None)
  {
    DeletionStrandsUninstalls(w, step, desired);
    match step {
      case TaskStep(_, _) => TaskStrandsIff(w, step, desired);
      case StatusStep(_, _) => StatusStrandsIff(w, step, desired);
      case WriterStep(_, _) => WriterStrandsIff(w, step, desired);
      case InformerStep(_) => InformerStrandsIff(w, step, desired);
      case _ => OthersNeverStrand(w, step, desired);
    }
  }

  lemma DeletionStrandsUninstalls(w: World, step: Step, desired: Desired)
    requires WakeOK(w)
    ensures desired.Absent? && Strands(w, step, desired) ==> step == WriterStep(w.settings.target, None)
  {
  }

  lemma OthersNeverStrand(w: World, step: Step, desired: Desired)
    requires Inv(w) && Enabled(w, step) && (desired.Installed? || desired.Absent?) && !Stranded(w, desired)
    requires !step.TaskStep? && !step.StatusStep? && !step.WriterStep? && !step.InformerStep?
    ensures !Stranded(Next(w, step), desired)
  {
    match step {
      case WorkerStep(choice) => WorkerNeverStrands(w, choice, desired);
      case BackgroundStep(choice) => BackgroundNeverStrands(w, choice, desired);
      case _ => QuietNeverStrands(w, step, desired);
    }
  }

  lemma QuietNeverStrands(w: World, step: Step, desired: Desired)
    requires Enabled(w, step) && !Stranded(w, desired)
    requires step.ConfigsStep? || step.TimerStep? || step.IntentStep? || step.CrashStep? || step.StatusCrashStep?
    ensures !Stranded(Next(w, step), desired)
  {
  }

  /** No wake-up is lost otherwise: in every run, a worker that is stranded was stranded by such a
      step, and has been ever since. */
  lemma {:induction false} NoLostWakeUp(worlds: seq<World>, steps: seq<Step>, i: nat, desired: Desired)
    requires Run(worlds, steps) && i < |worlds| && (desired.Installed? || desired.Absent?)
    ensures Stranded(worlds[i], desired) ==>
              exists k :: 0 <= k < i && StrandedFrom(worlds, steps, k, i, desired)
  {
    if Stranded(worlds[i], desired) {
      assert i > 0;
      ReachableInv(worlds, steps, i - 1);
      if Stranded(worlds[i - 1], desired) {
        NoLostWakeUp(worlds, steps, i - 1, desired);
        var k :| 0 <= k < i - 1 && StrandedFrom(worlds, steps, k, i - 1, desired);
        assert StrandedFrom(worlds, steps, k, i, desired);
      } else {
        StrandsIff(worlds[i - 1], steps[i - 1], desired);
        assert StrandedFrom(worlds, steps, i - 1, i, desired);
      }
    }
  }

  /** Step k strands the worker, and it stays stranded up to world i. */
  predicate StrandedFrom(worlds: seq<World>, steps: seq<Step>, k: nat, i: nat, desired: Desired)
    requires |worlds| == |steps| + 1 && k < i < |worlds|
  {
    && Strands(worlds[k], steps[k], desired)
    && forall m :: k < m <= i ==> Stranded(worlds[m], desired)
  }

  /** The status update that clears the slot queues the token for a parked uninstall. */
  lemma ClearingWakesUninstall(worlds: seq<World>, steps: seq<Step>, i: nat)
    requires Run(worlds, steps) && i < |steps|
    ensures var target := worlds[i].settings.target;
            && steps[i].StatusStep? && worlds[i].worker == Blocked(ForFleet(Absent))
            && SlotOf(worlds[i].core, target).Some? && SlotOf(worlds[i + 1].core, target).None?
            ==> worlds[i + 1].token
  {
    ReachableInv(worlds, steps, i);
    if steps[i].StatusStep? && worlds[i].worker == Blocked(ForFleet(Absent)) {
      ClearingWakes(worlds[i], steps[i].snapshot, steps[i].faults);
    }
  }

  lemma ClearingWakes(w: World, snapshot: Snapshot, faults: Faults)
    requires Inv(w) && w.worker == Blocked(ForFleet(Absent))
    ensures var after := DoStatus(w, snapshot, faults);
            SlotOf(w.core, w.settings.target).Some? && SlotOf(after.core, w.settings.target).None? ==> after.token
  {
    if Finishes(snapshot).Some? {
      OtherStatus(w, snapshot, faults);
    } else {
      UnfinishedStatus(w, snapshot, faults);
    }
  }

  /** A queued token stays until the worker takes it and reads the intent again. */
  lemma TokenStaysUntilRead(w: World, step: Step)
    requires Enabled(w, step) && w.settings.intentsEnabled && w.token
    ensures Next(w, step).token || (step.WorkerStep? && Next(w, step).worker == Reading)
  {
    match step {
      case WorkerStep(choice) => WorkerHasShape(w, choice);
      case BackgroundStep(choice) => if w.background.Some? { BackgroundKeepsWorker(w, w.background.value, choice); }
      case _ => OthersKeepToken(w, step);
    }
  }

  lemma OthersKeepToken(w: World, step: Step)
    requires Enabled(w, step) && w.settings.intentsEnabled && w.token && !step.WorkerStep? && !step.BackgroundStep?
    ensures Perform(w, step).token
  {
  }
}
