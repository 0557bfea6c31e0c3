/** What holds in every run of the fleet machine. */
module FleetTheorems {
  import opened Json
  import opened PendingSlot
  import opened Packages
  import opened DatadogAgent
  import opened Experiments
  import opened ExperimentProofs
  import opened Installation
  import opened FleetWorld
  import opened FleetInvariants
  import opened FleetSteps

  /** A run from a start. */
  predicate Run(worlds: seq<World>, steps: seq<Step>) {
    IsRun(worlds, steps) && Init(worlds[0])
  }

  lemma {:induction false} ReachableInv(worlds: seq<World>, steps: seq<Step>, i: nat)
    requires Run(worlds, steps) && i < |worlds|
    ensures Inv(worlds[i])
  {
    if i == 0 {
      InitInv(worlds[0]);
    } else {
      ReachableInv(worlds, steps, i - 1);
      NextKeepsInv(worlds[i - 1], steps[i - 1]);
    }
  }

  // ---------------------------------------------------------------- mutual exclusion

  /** While an installation operation is active, the target carries no pending experiment
      operation, and tasks and status updates change neither the cluster nor the installer. */
  lemma MutualExclusion(worlds: seq<World>, steps: seq<Step>, i: nat)
    requires Run(worlds, steps) && i < |worlds| && worlds[i].flags.active
    ensures SlotOf(worlds[i].core, worlds[i].settings.target) == None
    ensures i < |steps| && (steps[i].TaskStep? || steps[i].StatusStep?) ==> worlds[i + 1].core == worlds[i].core
  {
    ReachableInv(worlds, steps, i);
  }

  // ---------------------------------------------------------------- which steps touch which objects

  /** The task state the worker may report in its next step. */
  function Announced(worker: Worker): Option<Task> {
    match worker
    case Checking(command) => Some(Task(command.intent.operationID, INVALID_STATE))
    case Concluded(_, found) => Some(Task(found.operationID, found.taskState))
    case Commanding(command) => Some(Task(command.intent.operationID, RUNNING))
    case _ => None
  }

  /** The worker reports task states; it touches no object and no config version. */
  predicate WorkerReports(w: World, after: World) {
    || after.core == w.core
    || (var task := Announced(w.worker);
        task.Some? && after.core == ReportTask(w.core, OPERATOR_PACKAGE, task.value.id, task.value.state))
  }

  /** What the worker leaves alone: it touches no object and no config version, takes no token except
      to read the intent, and parks for Fleet only in the accepting transition. */
  predicate WorkerShape(w: World, after: World) {
    && after == w.(core := after.core, flags := after.flags, token := after.token, worker := after.worker,
                   background := after.background, record := after.record, recordVersion := after.recordVersion,
                   instances := after.instances, closed := after.closed)
    && WorkerReports(w, after)
    && (w.worker.Accepted? || after.closed == w.closed)
    && (w.worker.Accepted? || w.worker.Confirming? || after.record == w.record)
    && (w.worker.Blocked? || w.worker.Commanding? || !after.worker.Blocked? || !after.worker.reason.ForFleet?)
    && (w.token ==> after.token || after.worker == Reading)
  }

  lemma WorkerHasShape(w: World, choice: Choice)
    requires w.settings.identity.Some?
    ensures WorkerShape(w, DoWorker(w, choice))
  {
    if Prepares(w.worker) { PreparingShape(w, choice); }
    else if Proceeds(w.worker) { ProceedingShape(w, choice); }
    else if Acknowledges(w.worker) { AcknowledgingShape(w, choice); }
    else { WakingShape(w, choice); }
  }

  lemma WakingShape(w: World, choice: Choice)
    requires w.settings.identity.Some? && (w.worker.Blocked? || w.worker.Retrying? || w.worker.Reading?)
    ensures WorkerShape(w, WakeWorker(w, choice))
  {
  }

  lemma PreparingShape(w: World, choice: Choice)
    requires Prepares(w.worker)
    ensures WorkerShape(w, PrepareWorker(w, choice))
  {
    if w.worker.Checking? { CheckRecordShape(w, w.worker.command, choice); }
  }

  lemma CheckRecordShape(w: World, command: Command, choice: Choice)
    requires w.worker == Checking(command)
    ensures WorkerShape(w, CheckRecord(w, command, choice))
  {
  }

  lemma ProceedingShape(w: World, choice: Choice)
    requires Proceeds(w.worker)
    ensures WorkerShape(w, ProceedWorker(w, choice))
  {
    match w.worker {
      case Commanding(command) => CommandShape(w, command, choice.fails);
      case Accepted(command, instance) => AcceptanceShape(w, command, instance, choice);
      case _ =>
    }
  }

  lemma CommandShape(w: World, command: Command, fails: bool)
    requires w.worker == Commanding(command)
    ensures WorkerShape(w, HandleCommand(w, command, fails))
  {
  }

  lemma AcceptanceShape(w: World, command: Command, instance: nat, choice: Choice)
    requires w.worker.Accepted?
    ensures WorkerShape(w, PersistAcceptance(w, command, instance, choice))
  {
  }

  lemma AcknowledgingShape(w: World, choice: Choice)
    requires Acknowledges(w.worker)
    ensures WorkerShape(w, AcknowledgeWorker(w, choice))
  {
    match w.worker {
      case Acknowledging(command, current) => AcknowledgeableShape(w, command, current, choice);
      case Confirming(_) =>
      case Acknowledged(found) => ReleaseShape(w, found, choice);
    }
  }

  /** The background operation touches no object but its target. */
  ghost predicate OnlyTarget(w: World, after: World) {
    forall nsn :: nsn != w.settings.target ==>
      (nsn in after.core.agents <==> nsn in w.core.agents)
      && (nsn in w.core.agents ==> after.core.agents[nsn] == w.core.agents[nsn])
  }

  /** The target is still as it was read. */
  predicate AsRead(w: World, held: Agent) {
    w.settings.target in w.core.agents && w.core.agents[w.settings.target].version == held.version
  }

  /** What a step of an install stores as the target, if anything. */
  function Stored(w: World, b: Background, choice: Choice): Option<Agent> {
    if choice.outcome.Refused? then None
    else
      match b.pc
      case Creating => if w.settings.target in w.core.agents then None else Some(NewAgent(w, b.command, choice.spec))
      case PatchHash(held, hash, _) =>
        if AsRead(w, held) then Some(held.(annotations := held.annotations[ConfigHash := hash])) else None
      case PatchPartial(held, _) =>
        if AsRead(w, held) then Some(held.(labels := held.labels[InstallState := STATE_PARTIAL])) else None
      case PatchReady(_, held, _) =>
        if AsRead(w, held) then Some(held.(labels := held.labels[InstallState := STATE_READY])) else None
      case _ => None
  }

  /** A step of an install touches only the core, its own program counter and the UID counter, and
      of the objects only the target, when it stores it. */
  predicate Stores(w: World, after: World, stored: Option<Agent>) {
    && after == w.(core := after.core, background := after.background, nextUid := after.nextUid)
    && after.core.agents == if stored.Some? then Put(w.core, w.settings.target, stored.value).agents else w.core.agents
  }

  lemma InstallStores(w: World, b: Background, choice: Choice)
    requires !IsUninstallPc(b.pc) && !IsRecordPc(b.pc)
    ensures Stores(w, DoInstall(w, b, choice), Stored(w, b, choice))
  {
    if !OnlyLooks(b.pc) { ChangeStores(w, b, choice); }
  }

  lemma ChangeStores(w: World, b: Background, choice: Choice)
    requires !OnlyLooks(b.pc) && !IsUninstallPc(b.pc) && !IsRecordPc(b.pc)
    ensures Stores(w, DoChange(w, b, choice), Stored(w, b, choice))
  {
    match b.pc {
      case Creating => CreateStores(w, b, choice);
      case Recovering => RecoverStores(w, b, choice);
      case ReadForPartial(uid, why) => ReadForPartialStores(w, b, uid, why, choice);
      case PatchHash(_, _, _) => PatchHashStores(w, b, choice);
      case PatchPartial(_, _) => PatchPartialStores(w, b, choice);
      case PatchReady(_, _, _) => PatchReadyStores(w, b, choice);
    }
  }

  lemma CreateStores(w: World, b: Background, choice: Choice)
    requires b.pc.Creating?
    ensures Stores(w, DoCreate(w, b, choice), Stored(w, b, choice))
  {
  }

  lemma RecoverStores(w: World, b: Background, choice: Choice)
    ensures Stores(w, DoRecover(w, b, choice), None)
  {
  }

  lemma ReadForPartialStores(w: World, b: Background, uid: nat, why: PartialReason, choice: Choice)
    ensures Stores(w, DoReadForPartial(w, b, uid, why, choice), None)
  {
  }

  lemma PatchHashStores(w: World, b: Background, choice: Choice)
    requires b.pc.PatchHash?
    ensures Stores(w, DoPatchHash(w, b, b.pc.held, b.pc.hash, b.pc.hashNext, choice), Stored(w, b, choice))
  {
  }

  lemma PatchPartialStores(w: World, b: Background, choice: Choice)
    requires b.pc.PatchPartial?
    ensures Stores(w, DoPatchPartial(w, b, b.pc.held, b.pc.why, choice), Stored(w, b, choice))
  {
  }

  lemma PatchReadyStores(w: World, b: Background, choice: Choice)
    requires b.pc.PatchReady?
    ensures Stores(w, DoPatchReady(w, b, b.pc.uid, b.pc.held, b.pc.existing, choice), Stored(w, b, choice))
  {
  }

  lemma BackgroundOnlyTarget(w: World, choice: Choice)
    ensures OnlyTarget(w, DoBackground(w, choice))
  {
    match w.background {
      case None =>
      case Some(b) =>
        if IsUninstallPc(b.pc) { UninstallOnlyTarget(w, b, choice); }
        else if IsRecordPc(b.pc) { RecordTouchesNoObject(w, b, choice); }
        else { InstallStores(w, b, choice); }
    }
  }

  lemma UninstallOnlyTarget(w: World, b: Background, choice: Choice)
    requires IsUninstallPc(b.pc)
    ensures var after := DoUninstall(w, b, choice); OnlyTarget(w, after) && after.record == w.record
  {
  }

  lemma RecordTouchesNoObject(w: World, b: Background, choice: Choice)
    requires IsRecordPc(b.pc)
    ensures DoRecord(w, b, choice).core.agents == w.core.agents
  {
  }

  // ---------------------------------------------------------------- no pending task is lost

  lemma WorkerKeepsSlots(w: World, choice: Choice, nsn: NsName)
    requires w.settings.identity.Some?
    ensures SlotOf(DoWorker(w, choice).core, nsn) == SlotOf(w.core, nsn)
  {
    WorkerHasShape(w, choice);
  }

  /** The target's slot is free while the operation runs, before and after each of its steps. */
  lemma BackgroundKeepsSlots(w: World, choice: Choice, nsn: NsName)
    requires Inv(w)
    ensures SlotOf(DoBackground(w, choice).core, nsn) == SlotOf(w.core, nsn)
  {
    BackgroundOnlyTarget(w, choice);
    BackgroundKeepsInv(w, choice);
    if w.background.Some? {
      StaysActive(w, w.background.value, choice);
    }
  }

  lemma StaysActive(w: World, b: Background, choice: Choice)
    requires w.background == Some(b)
    ensures var after := DoBackground(w, choice);
            if b.pc.Finishing? then after.core == w.core
            else after.flags.active == w.flags.active && after.settings == w.settings
  {
    if !IsUninstallPc(b.pc) && !IsRecordPc(b.pc) { InstallStores(w, b, choice); }
  }

  lemma CrashKeepsSlots(w: World, reload: Reload, nsn: NsName)
    ensures SlotOf(DoCrash(w, reload).core, nsn) == SlotOf(w.core, nsn)
  {
    RestartAccounted(w.settings, w.core, reload.agentsFail, reload.listed);
  }

  lemma CutKeepsSlots(w: World, snapshot: Snapshot, faults: Faults, stage: Stage, reload: Reload,
                      nsn: NsName)
    ensures var cut := w.(core := StatusPrefix(w.settings, w.core, w.flags.active, snapshot, faults, stage));
            SlotOf(DoCrash(cut, reload).core, nsn) == SlotOf(w.core, nsn)
  {
    PrefixKeepsSlots(w.settings, w.core, w.flags.active, snapshot, faults, stage, nsn);
    var cut := w.(core := StatusPrefix(w.settings, w.core, w.flags.active, snapshot, faults, stage));
    CrashKeepsSlots(cut, reload, nsn);
  }

  /** The task gets past the handler's guards to the planning of the operation. */
  predicate Planned(w: World, req: Request) {
    !w.flags.active && !w.flags.reserved
    && (req.expectedStable, req.expectedExperiment) == Versions(w.core.installer.packages, req.package)
  }

  function PlanOf(w: World, req: Request, faults: Faults): Plan {
    PlanTask(w.settings, w.core, w.configs, req, faults).0
  }

  /** How a pending operation is to leave its slot: its own DONE or ERROR is reported in the very
      transition that clears the slot (which reports first), or it is a start and a stop task for
      the same object is in the slot instead. */
  predicate LeavesProperly(before: World, step: Step, after: World, nsn: NsName, op: PendingOperation) {
    || (step.StatusStep? && SlotOf(after.core, nsn) == None
        && FinallyReported(before.core.installer.log, after.core.installer.log, op))
    || (step.TaskStep? && step.req.kind.StopTask? && op.intent.Start?
        && SlotOf(after.core, nsn).Some? && IsStopFor(step.req, SlotOf(after.core, nsn).value) && step.req.nsn == nsn)
  }

  /** A stop task for the object, without an ID or without a package, whose patch lands. */
  predicate BlankStop(w: World, step: Step, nsn: NsName) {
    && step.TaskStep? && step.req.kind.StopTask? && step.req.nsn == nsn && (step.req.id == "" || step.req.package == "")
    && Planned(w, step.req) && PlanOf(w, step.req, step.faults).Write? && !step.faults.patch.Refused?
  }

  /** The two steps that take an operation out of its slot improperly: another writer deletes the
      object, or a stop without an ID or a package is written over a start. */
  predicate LosesSlot(w: World, step: Step, nsn: NsName) {
    step == WriterStep(nsn, None) || BlankStop(w, step, nsn)
  }

  /** A step takes the operation out of the slot, and not properly, exactly when it is one of the
      two, which leave the slot free. */
  predicate LossExact(w: World, step: Step, after: World, nsn: NsName)
    requires SlotOf(w.core, nsn).Some?
  {
    var op := SlotOf(w.core, nsn).value;
    && (SlotOf(after.core, nsn) != Some(op) && !LeavesProperly(w, step, after, nsn, op) <==> LosesSlot(w, step, nsn))
    && (LosesSlot(w, step, nsn) ==> SlotOf(after.core, nsn) == None)
  }

  /** So it is for every step from every world that satisfies the invariants. */
  lemma StepLosesIff(w: World, step: Step, nsn: NsName)
    requires Inv(w) && Enabled(w, step) && SlotOf(w.core, nsn).Some?
    ensures LossExact(w, step, Next(w, step), nsn)
  {
    match step {
      case TaskStep(_, _) => TaskLeaves(w, step, nsn);
      case StatusStep(_, _) => StatusLeaves(w, step, nsn);
      case WriterStep(_, _) => WriterLeaves(w, step, nsn);
      case _ =>
        OtherStepsKeepSlots(w, step, nsn);
        KeptIsExact(w, step, nsn);
    }
  }

  lemma WriterLeaves(w: World, step: Step, nsn: NsName)
    requires step.WriterStep? && Enabled(w, step) && SlotOf(w.core, nsn).Some?
    ensures LossExact(w, step, Next(w, step), nsn)
  {
    WriteKeepsSlots(w, step.nsn, step.agent, nsn);
  }

  lemma KeptIsExact(w: World, step: Step, nsn: NsName)
    requires Enabled(w, step) && !step.TaskStep? && !step.WriterStep? && SlotOf(w.core, nsn).Some?
    requires SlotOf(Perform(w, step).core, nsn) == SlotOf(w.core, nsn)
    ensures LossExact(w, step, Next(w, step), nsn)
  {
  }

  /** A task that changes a slot was planned, and its patch landed. */
  lemma TaskWrites(w: World, req: Request, faults: Faults, nsn: NsName)
    ensures SlotOf(DoTask(w, req, faults).core, nsn) != SlotOf(w.core, nsn) ==>
              Planned(w, req) && PlanOf(w, req, faults).Write? && !faults.patch.Refused?
  {
    PlanKeepsSlots(w.settings, w.core, w.configs, req, faults, nsn);
    var (plan, planned) := PlanTask(w.settings, w.core, w.configs, req, faults);
    CarryOutSlots(planned, plan, req, faults, nsn);
  }

  /** What a stop writes is admitted, and brings no labels. */
  lemma StopLands(settings: Settings, core: Core, req: Request, faults: Faults)
    requires PlanStop(settings, core, req).Write? && !faults.patch.Refused?
    ensures var plan := PlanStop(settings, core, req);
            var after := WriteOperation(core, req, plan.op, plan.patch, faults).0;
            req.nsn in after.agents && SlotOf(after, req.nsn) == if Complete(plan.op) then Some(plan.op) else None
  {
    var plan := PlanStop(settings, core, req);
    PlanStopShape(settings, core, req);
    var agent := core.agents[req.nsn];
    SignalAdmitted(agent.annotations, "rollback", plan.op.experimentID, plan.op);
    LabelsUntouched(agent.labels, plan.patch, plan.op);
    PatchedSlot(agent.annotations, plan.patch, plan.op);
  }

  lemma BlankStopFrees(w: World, step: Step, nsn: NsName)
    requires BlankStop(w, step, nsn)
    ensures SlotOf(DoTask(w, step.req, step.faults).core, nsn) == None
  {
    StopLands(w.settings, w.core, step.req, step.faults);
    PlanStopShape(w.settings, w.core, step.req);
    WriteSettles(w.core, PlanOf(w, step.req, step.faults).op, PlanOf(w, step.req, step.faults).patch, step.req, step.faults);
  }

  lemma TaskLeaves(w: World, step: Step, nsn: NsName)
    requires step.TaskStep? && SlotOf(w.core, nsn).Some?
    ensures LossExact(w, step, Next(w, step), nsn)
  {
    TaskSlots(w.settings, w.core, w.configs, w.flags.active || w.flags.reserved, step.req, step.faults, nsn);
    TaskWrites(w, step.req, step.faults, nsn);
    if BlankStop(w, step, nsn) { BlankStopFrees(w, step, nsn); }
  }

  lemma StatusLeaves(w: World, step: Step, nsn: NsName)
    requires step.StatusStep? && Enabled(w, step) && SlotOf(w.core, nsn).Some?
    ensures LossExact(w, step, Next(w, step), nsn)
  {
    StatusSlots(w.settings, w.core, w.flags.active, step.snapshot, step.faults, nsn);
  }

  lemma OtherStepsKeepSlots(w: World, step: Step, nsn: NsName)
    requires Inv(w) && Enabled(w, step) && !step.TaskStep? && !step.StatusStep? && !step.WriterStep?
    ensures SlotOf(Perform(w, step).core, nsn) == SlotOf(w.core, nsn)
  {
    match step {
      case WorkerStep(choice) => WorkerKeepsSlots(w, choice, nsn);
      case BackgroundStep(choice) => BackgroundKeepsSlots(w, choice, nsn);
      case CrashStep(reload) => CrashKeepsSlots(w, reload, nsn);
      case StatusCrashStep(snapshot, faults, stage, reload) =>
        CutKeepsSlots(w, snapshot, faults, stage, reload, nsn);
      case _ => QuietStep(w, step);
    }
  }

  /** Configs, wake-ups and intents touch no object. */
  lemma QuietStep(w: World, step: Step)
    requires step.ConfigsStep? || step.InformerStep? || step.TimerStep? || step.IntentStep?
    requires Enabled(w, step)
    ensures Perform(w, step).core == w.core
  {
  }

  /** No pending task is lost: in any run, whatever the interleaving of tasks, stale and repeated
      snapshots, installations, other writers and crashes, an operation seen in a slot at one
      time and not later left it in between, and properly, unless another writer deleted the
      object or a stop without an ID or a package was written over it. */
  lemma {:induction false} PendingTaskNotLost(worlds: seq<World>, steps: seq<Step>, i: nat, j: nat, nsn: NsName,
                                              op: PendingOperation)
    requires Run(worlds, steps) && i <= j < |worlds|
    requires SlotOf(worlds[i].core, nsn) == Some(op) && SlotOf(worlds[j].core, nsn) != Some(op)
    ensures exists k :: i <= k < j && SlotOf(worlds[k].core, nsn) == Some(op) && SlotOf(worlds[k + 1].core, nsn) != Some(op)
                        && (LeavesProperly(worlds[k], steps[k], worlds[k + 1], nsn, op) || LosesSlot(worlds[k], steps[k], nsn))
    decreases j - i
  {
    ReachableInv(worlds, steps, i);
    StepLosesIff(worlds[i], steps[i], nsn);
    if SlotOf(worlds[i + 1].core, nsn) == Some(op) {
      PendingTaskNotLost(worlds, steps, i + 1, j, nsn, op);
    }
  }

  // ---------------------------------------------------------------- flags and completion channels

  /** The active flag, the operation ID, the cancel function and the done signal are all set or
      all clear. */
  lemma FlagsAllOrNone(worlds: seq<World>, steps: seq<Step>, i: nat)
    requires Run(worlds, steps) && i < |worlds|
    ensures var f := worlds[i].flags;
            (f.active <==> f.operationID != "") && (f.active <==> f.cancel.Some?) && (f.active <==> f.done.Some?)
  {
    ReachableInv(worlds, steps, i);
  }

  function Count(items: seq<nat>, n: nat): nat {
    if items == [] then 0 else (if items[0] == n then 1 else 0) + Count(items[1..], n)
  }

  lemma {:induction false} CountDistinct(items: seq<nat>, n: nat)
    requires forall i, j :: 0 <= i < j < |items| ==> items[i] != items[j]
    ensures Count(items, n) == if n in items then 1 else 0
  {
    if items != [] {
      CountDistinct(items[1..], n);
      assert items == [items[0]] + items[1..];
    }
  }

  /** Every accepted operation is in exactly one of three conditions: it is the one running, its
      done signal has been closed exactly once, or a crash cut it off and the signal is never
      closed. */
  lemma DoneExactlyOnce(worlds: seq<World>, steps: seq<Step>, i: nat, n: nat)
    requires Run(worlds, steps) && i < |worlds| && n < worlds[i].instances
    ensures var w := worlds[i];
            var running := if w.flags.done == Some(n) then 1 else 0;
            var cutOff := if n in w.abandoned then 1 else 0;
            running + cutOff + Count(w.closed, n) == 1
  {
    ReachableInv(worlds, steps, i);
    CountDistinct(worlds[i].closed, n);
  }

  /** The instance number of the operation on whose behalf a step acts. */
  function Acting(w: World, step: Step): Option<nat> {
    match step
    case BackgroundStep(_) => if w.background.Some? then Some(w.background.value.instance) else None
    case WorkerStep(_) => if w.worker.Accepted? then Some(w.worker.instance) else None
    case _ => None
  }

  lemma AcceptanceClosesOwn(w: World, command: Command, instance: nat, choice: Choice)
    requires FlagsOK(w) && w.worker == Accepted(command, instance)
    ensures var after := PersistAcceptance(w, command, instance, choice);
            after.closed == w.closed || (after.closed == w.closed + [instance] && !after.flags.active)
  {
  }

  lemma WorkerClosesOwn(w: World, choice: Choice)
    requires FlagsOK(w) && w.settings.identity.Some?
    ensures var after := DoWorker(w, choice);
            after.closed == w.closed
            || (w.worker.Accepted? && after.closed == w.closed + [w.worker.instance] && !after.flags.active)
  {
    match w.worker {
      case Accepted(command, instance) => AcceptanceClosesOwn(w, command, instance, choice);
      case _ => WorkerHasShape(w, choice);
    }
  }

  lemma BackgroundClosesOwn(w: World, b: Background, choice: Choice)
    requires FlagsOK(w) && w.background == Some(b)
    ensures var after := DoBackground(w, choice);
            after.closed == w.closed
            || (b.pc.Finishing? && after.closed == w.closed + [b.instance] && !after.flags.active)
  {
    if !IsUninstallPc(b.pc) && !IsRecordPc(b.pc) { InstallStores(w, b, choice); }
  }

  /** A step closes no done signal, or that of the operation it acts for, and clears the flag. */
  predicate ClosesOwn(w: World, step: Step, after: World) {
    after.closed == w.closed
    || (var n := Acting(w, step);
        n.Some? && w.flags.done == n && after.closed == w.closed + [n.value] && !after.flags.active)
  }

  lemma StepClosesOwn(w: World, step: Step)
    requires FlagsOK(w) && Enabled(w, step)
    ensures ClosesOwn(w, step, Next(w, step))
  {
    match step {
      case WorkerStep(choice) => WorkerClosesOwn(w, choice);
      case BackgroundStep(choice) =>
        if w.background.Some? { BackgroundClosesOwn(w, w.background.value, choice); }
      case _ =>
    }
  }

  /** No operation ends another, even one that retries the same operation ID. */
  lemma NoOperationEndsAnother(worlds: seq<World>, steps: seq<Step>, i: nat)
    requires Run(worlds, steps) && i < |steps|
    ensures ClosesOwn(worlds[i], steps[i], worlds[i + 1])
  {
    ReachableInv(worlds, steps, i);
    StepClosesOwn(worlds[i], steps[i]);
  }

  // ---------------------------------------------------------------- the record

  /** Where a record may go in one step. */
  predicate MovesForward(before: Option<Record>, after: Option<Record>) {
    && Later(before, after)
    && (before.None? && after.Some? ==> after.value.desired.Installed? && after.value.acknowledged == "")
  }

  lemma AcceptanceForward(w: World, command: Command, instance: nat, choice: Choice)
    requires w.record.Some? ==> WellFormed(w.record.value)
    requires WellFormedCommand(command) && ValidProgress(w.record, command.intent, command.digest)
    ensures MovesForward(w.record, PersistAcceptance(w, command, instance, choice).record)
  {
    AcceptedIsLater(w.record, command, RUNNING, w.recordVersion + 1);
  }

  lemma AcknowledgementForward(w: World, found: Record, choice: Choice)
    requires w.record == Some(found) && WellFormed(found) && found.desired.Installed?
    ensures MovesForward(w.record, PersistAcknowledgement(w, found, choice).record)
  {
  }

  lemma WorkerRecordForward(w: World, choice: Choice)
    requires WorkerOK(w) && RecordOK(w) && w.settings.identity.Some?
    ensures MovesForward(w.record, DoWorker(w, choice).record)
  {
    match w.worker {
      case Accepted(command, instance) => AcceptanceForward(w, command, instance, choice);
      case Confirming(found) => AcknowledgementForward(w, found, choice);
      case _ => WorkerHasShape(w, choice);
    }
  }

  /** Only the result of the operation that is on record is written, so a superseded operation
      that ends late changes nothing. */
  lemma BackgroundRecordForward(w: World, choice: Choice)
    requires RecordOK(w)
    ensures var after := DoBackground(w, choice);
            && Later(w.record, after.record)
            && (after.record != w.record ==>
                  && w.background.Some? && w.record.Some? && after.record.Some?
                  && w.record.value.operationID == w.background.value.command.intent.operationID
                  && after.record.value == w.record.value.(taskState := after.record.value.taskState,
                                                           version := after.record.value.version))
  {
    match w.background {
      case None =>
      case Some(b) =>
        if IsUninstallPc(b.pc) { UninstallOnlyTarget(w, b, choice); }
        else if IsRecordPc(b.pc) { ResultForward(w, b, choice); }
        else { InstallStores(w, b, choice); }
    }
  }

  lemma ResultForward(w: World, b: Background, choice: Choice)
    requires RecordOK(w) && w.background == Some(b) && IsRecordPc(b.pc)
    ensures var after := DoRecord(w, b, choice);
            && Later(w.record, after.record)
            && (after.record != w.record ==>
                  && w.record.Some? && after.record.Some?
                  && w.record.value.operationID == b.command.intent.operationID
                  && after.record.value == w.record.value.(taskState := after.record.value.taskState,
                                                           version := after.record.value.version))
  {
    if b.pc.PatchRecord? {
      PatchRecordForward(w, b, b.pc.result, b.pc.afterwards, choice);
    } else {
      OthersKeepRecord(w, b, choice);
    }
  }

  lemma PatchRecordForward(w: World, b: Background, result: TaskState, afterwards: Afterwards, choice: Choice)
    requires RecordOK(w) && w.background == Some(b) && b.pc.PatchRecord? && b.pc.result == result
    ensures var after := DoRecord(w, b, choice).record;
            after == w.record
            || (w.record.Some? && w.record.value.operationID == b.command.intent.operationID
                && after == Some(w.record.value.(taskState := result, version := w.recordVersion + 1))
                && Later(w.record, after))
  {
  }

  lemma OthersKeepRecord(w: World, b: Background, choice: Choice)
    requires IsRecordPc(b.pc) && !b.pc.PatchRecord?
    ensures DoRecord(w, b, choice).record == w.record
  {
  }

  lemma StepRecordForward(w: World, step: Step)
    requires WorkerOK(w) && RecordOK(w) && Enabled(w, step)
    ensures MovesForward(w.record, Next(w, step).record)
  {
    match step {
      case WorkerStep(choice) => WorkerRecordForward(w, choice);
      case BackgroundStep(choice) => BackgroundForward(w, choice);
      case _ => OtherStepsForward(w, step);
    }
  }

  lemma BackgroundForward(w: World, choice: Choice)
    requires RecordOK(w)
    ensures MovesForward(w.record, DoBackground(w, choice).record)
  {
    BackgroundRecordForward(w, choice);
  }

  lemma OtherStepsForward(w: World, step: Step)
    requires RecordOK(w) && Enabled(w, step) && !step.WorkerStep? && !step.BackgroundStep?
    ensures MovesForward(w.record, Perform(w, step).record)
  {
    OtherStepsKeepRecord(w, step);
  }

  lemma OtherStepsKeepRecord(w: World, step: Step)
    requires Enabled(w, step) && !step.WorkerStep? && !step.BackgroundStep?
    ensures Perform(w, step).record == w.record
  {
  }

  /** The record only moves forward: whatever the intents, acknowledgements, cancellations,
      results and crashes in between, the later record is one the earlier may become. */
  lemma {:induction false} RecordOnlyMovesForward(worlds: seq<World>, steps: seq<Step>, i: nat, j: nat)
    requires Run(worlds, steps) && i <= j < |worlds|
    ensures Later(worlds[i].record, worlds[j].record)
    decreases j - i
  {
    ReachableInv(worlds, steps, i);
    ReachableInv(worlds, steps, j);
    if i < j {
      StepRecordForward(worlds[i], steps[i]);
      ReachableInv(worlds, steps, i + 1);
      RecordOnlyMovesForward(worlds, steps, i + 1, j);
      LaterTransitive(worlds[i].record, worlds[i + 1].record, worlds[j].record);
    }
  }

  /** The first thing on record is an install that is not acknowledged. */
  lemma FirstRecordIsInstall(worlds: seq<World>, steps: seq<Step>, i: nat)
    requires Run(worlds, steps) && i < |steps| && worlds[i].record.None? && worlds[i + 1].record.Some?
    ensures worlds[i + 1].record.value.desired.Installed? && worlds[i + 1].record.value.acknowledged == ""
  {
    ReachableInv(worlds, steps, i);
    StepRecordForward(worlds[i], steps[i]);
  }

  /** The record says that the install with this ID is done. */
  predicate DoneOnRecord(record: Option<Record>, operationID: string) {
    record.Some? && record.value.operationID == operationID && record.value.desired.Installed? && record.value.taskState.DONE?
  }

  predicate AcknowledgedOnRecord(record: Option<Record>, operationID: string) {
    record.Some? && record.value.operationID == operationID && record.value.desired.Installed?
    && record.value.acknowledged == operationID
  }

  /** The background operation of this install writes its own result, DONE. */
  predicate RecordsDone(before: World, step: Step, after: World, operationID: string) {
    && step.BackgroundStep? && before.background.Some?
    && before.background.value.command.intent.operationID == operationID
    && !DoneOnRecord(before.record, operationID) && DoneOnRecord(after.record, operationID)
  }

  /** The worker persists the acknowledgement of an install that is done. */
  predicate RecordsAcknowledgement(before: World, step: Step, after: World, operationID: string) {
    && step.WorkerStep? && before.worker.Confirming?
    && DoneOnRecord(before.record, operationID) && !AcknowledgedOnRecord(before.record, operationID)
    && DoneOnRecord(after.record, operationID) && AcknowledgedOnRecord(after.record, operationID)
  }

  lemma WorkerWrites(w: World, choice: Choice, operationID: string)
    requires WorkerOK(w) && RecordOK(w) && w.settings.identity.Some? && operationID != ""
    ensures var after := DoWorker(w, choice).record;
            && (DoneOnRecord(after, operationID) ==> DoneOnRecord(w.record, operationID))
            && (AcknowledgedOnRecord(after, operationID) ==>
                  || AcknowledgedOnRecord(w.record, operationID)
                  || (w.worker.Confirming? && DoneOnRecord(w.record, operationID) && DoneOnRecord(after, operationID)))
  {
    match w.worker {
      case Accepted(command, instance) => AcceptanceWrites(w, command, instance, choice);
      case Confirming(found) =>
      case _ => WorkerHasShape(w, choice);
    }
  }

  lemma AcceptanceWrites(w: World, command: Command, instance: nat, choice: Choice)
    ensures var after := PersistAcceptance(w, command, instance, choice).record;
            after == w.record || (after.Some? && after.value == RecordOf(command, RUNNING, after.value.version))
  {
  }

  /** Who writes DONE, and who writes an acknowledgement. */
  lemma StepRecords(w: World, step: Step, operationID: string)
    requires Inv(w) && Enabled(w, step) && operationID != ""
    ensures var after := Next(w, step);
            && (DoneOnRecord(after.record, operationID) ==>
                  DoneOnRecord(w.record, operationID) || RecordsDone(w, step, after, operationID))
            && (AcknowledgedOnRecord(after.record, operationID) ==>
                  AcknowledgedOnRecord(w.record, operationID) || RecordsAcknowledgement(w, step, after, operationID))
  {
    match step {
      case WorkerStep(choice) => WorkerWrites(w, choice, operationID);
      case BackgroundStep(choice) => BackgroundRecordForward(w, choice);
      case _ => OtherStepsKeepRecord(w, step);
    }
  }

  lemma {:induction false} DoneWasRecorded(worlds: seq<World>, steps: seq<Step>, i: nat, operationID: string)
    requires Run(worlds, steps) && i < |worlds| && operationID != "" && DoneOnRecord(worlds[i].record, operationID)
    ensures exists j :: 0 <= j < i && RecordsDone(worlds[j], steps[j], worlds[j + 1], operationID)
  {
    if i > 0 {
      ReachableInv(worlds, steps, i - 1);
      StepRecords(worlds[i - 1], steps[i - 1], operationID);
      if DoneOnRecord(worlds[i - 1].record, operationID) {
        DoneWasRecorded(worlds, steps, i - 1, operationID);
      }
    }
  }

  lemma {:induction false} AcknowledgementWasRecorded(worlds: seq<World>, steps: seq<Step>, i: nat, operationID: string)
    requires Run(worlds, steps) && i < |worlds| && operationID != "" && AcknowledgedOnRecord(worlds[i].record, operationID)
    ensures exists k :: 0 <= k < i && RecordsAcknowledgement(worlds[k], steps[k], worlds[k + 1], operationID)
  {
    if i > 0 {
      ReachableInv(worlds, steps, i - 1);
      StepRecords(worlds[i - 1], steps[i - 1], operationID);
      if AcknowledgedOnRecord(worlds[i - 1].record, operationID) {
        AcknowledgementWasRecorded(worlds, steps, i - 1, operationID);
      }
    }
  }

  /** The updater tags in a world. `profile`: the Windows profile is there. */
  function TagsIn(w: World, profile: bool): Tags
    requires w.settings.identity.Some? && w.intent.Some?
  {
    ReadinessTags(w.settings.identity.value, w.intent.value, w.record, TargetReady(w) && profile)
  }

  /** What the readiness tag shows of the world that produces it. */
  lemma TagShows(w: World, profile: bool, operationID: string)
    requires w.settings.identity.Some? && w.intent.Some?
    ensures TagsIn(w, profile) == AckTag(operationID, true) ==>
              && operationID != "" && TargetReady(w) && profile
              && !w.intent.value.Malformed? && w.intent.value.operationID == operationID
              && w.intent.value.acknowledged == operationID
              && DoneOnRecord(w.record, operationID) && AcknowledgedOnRecord(w.record, operationID)
  {
    ReadyTagMeans(w.settings.identity.value, w.intent.value, w.record, TargetReady(w) && profile);
  }

  /** The install recorded DONE, and later the worker persisted its acknowledgement. */
  predicate Earned(worlds: seq<World>, steps: seq<Step>, j: int, k: int, i: int, operationID: string)
    requires |worlds| == |steps| + 1 && i < |worlds|
  {
    && 0 <= j < k < i
    && RecordsDone(worlds[j], steps[j], worlds[j + 1], operationID)
    && RecordsAcknowledgement(worlds[k], steps[k], worlds[k + 1], operationID)
  }

  lemma AcknowledgedWasEarned(worlds: seq<World>, steps: seq<Step>, i: nat, operationID: string)
    requires Run(worlds, steps) && i < |worlds| && operationID != "" && AcknowledgedOnRecord(worlds[i].record, operationID)
    ensures exists j, k :: Earned(worlds, steps, j, k, i, operationID)
  {
    AcknowledgementWasRecorded(worlds, steps, i, operationID);
    var k :| 0 <= k < i && RecordsAcknowledgement(worlds[k], steps[k], worlds[k + 1], operationID);
    DoneWasRecorded(worlds, steps, k, operationID);
    var j :| 0 <= j < k && RecordsDone(worlds[j], steps[j], worlds[j + 1], operationID);
    assert Earned(worlds, steps, j, k, i, operationID);
  }

  /** The readiness tag is earned: a world that produces it, for the intent it holds, has the target
      ready, and at some earlier time the install of that very operation recorded DONE, and after
      that, and before now, the worker persisted its acknowledgement. */
  lemma ReadyTagEarned(worlds: seq<World>, steps: seq<Step>, i: nat, profile: bool, operationID: string)
    requires Run(worlds, steps) && i < |worlds| && worlds[i].settings.identity.Some? && worlds[i].intent.Some?
    ensures TagsIn(worlds[i], profile) == AckTag(operationID, true) ==>
              && TargetReady(worlds[i]) && profile
              && !worlds[i].intent.value.Malformed? && worlds[i].intent.value.operationID == operationID
              && worlds[i].intent.value.acknowledged == operationID
              && exists j, k :: Earned(worlds, steps, j, k, i, operationID)
  {
    TagShows(worlds[i], profile, operationID);
    if TagsIn(worlds[i], profile) == AckTag(operationID, true) {
      AcknowledgedWasEarned(worlds, steps, i, operationID);
    }
  }

  /** Once an uninstall is on record, no intent in the rest of the run gets the tag that announces
      readiness for config updates. */
  lemma NoReadyTagLater(worlds: seq<World>, steps: seq<Step>, i: nat, j: nat, identity: Identity, raw: RawIntent,
                        installed: bool)
    requires Run(worlds, steps) && i <= j < |worlds|
    requires worlds[i].record.Some? && worlds[i].record.value.desired.Absent?
    ensures var tags := ReadinessTags(identity, raw, worlds[j].record, installed);
            tags.AckTag? ==> !tags.configUpdatesReady
  {
    RecordOnlyMovesForward(worlds, steps, i, j);
    NoReadyTagAfterUninstall(identity, worlds[i].record.value, worlds[j].record, raw, installed);
  }

  // ---------------------------------------------------------------- provenance of stable versions

  function StableOf(w: World, package: string): string {
    Versions(w.core.installer.packages, package).0
  }

  /** The step is a promote task of the package whose object's status shows phase promoted, or the
      delivery of a status that shows it and completes a pending promote of the package. */
  predicate IsPromotion(w: World, step: Step, package: string) {
    || (step.TaskStep? && step.req.kind.PromoteTask? && step.req.package == package && step.req.nsn in w.core.agents
        && w.core.agents[step.req.nsn].experiment.Some? && w.core.agents[step.req.nsn].experiment.value.phase.Promoted?)
    || (step.StatusStep? && step.snapshot.experiment.Some? && step.snapshot.experiment.value.phase.Promoted?
        && Finishes(step.snapshot).Some? && Finishes(step.snapshot).value.intent.Promote?
        && Finishes(step.snapshot).value.packageName == package)
  }

  /** Steps that neither restart the daemon nor install anything. */
  predicate ExperimentSide(step: Step) {
    !step.CrashStep? && !step.StatusCrashStep? && !step.BackgroundStep?
  }

  lemma WorkerKeepsStable(w: World, choice: Choice, package: string)
    requires Accounted(w.core.installer) && w.settings.identity.Some?
    ensures StableOf(DoWorker(w, choice), package) == StableOf(w, package)
  {
    WorkerHasShape(w, choice);
    var task := Announced(w.worker);
    if task.Some? {
      TaskReportAccounted(w.core.installer, OPERATOR_PACKAGE, task.value.id, task.value.state);
    }
  }

  lemma StepStable(w: World, step: Step, package: string)
    requires ProvenanceOK(w) && Enabled(w, step) && ExperimentSide(step)
    ensures StableOf(Next(w, step), package) != StableOf(w, package) ==>
              && IsPromotion(w, step, package)
              && StableOf(Next(w, step), package) != ""
              && EverReported(w.core.installer.log, package, StableOf(Next(w, step), package))
  {
    match step {
      case TaskStep(req, faults) =>
        var busy := w.flags.active || w.flags.reserved;
        TaskProvenance(w.settings, w.core, w.configs, busy, req, faults);
        assert StableFromExperiment(w.core.installer,
                                    HandleTask(w.settings, w.core, w.configs, busy, req, faults).installer, package);
      case StatusStep(snapshot, faults) =>
        StatusProvenance(w.settings, w.core, w.flags.active, snapshot, faults);
        assert StableFromExperiment(w.core.installer,
                                    OnStatusUpdate(w.settings, w.core, w.flags.active, snapshot, faults).installer, package);
      case WorkerStep(choice) => WorkerKeepsStable(w, choice, package);
      case _ =>
    }
  }

  /** Without restart and installation, a package's stable version at any later time is the one
      it had, or the last change to it was a promotion of that package to a version it had
      reported as its experiment before that change. */
  lemma {:induction false} StableProvenance(worlds: seq<World>, steps: seq<Step>, i: nat, j: nat, package: string)
    requires Run(worlds, steps) && i <= j < |worlds|
    requires forall k :: i <= k < j ==> ExperimentSide(steps[k])
    requires StableOf(worlds[j], package) != StableOf(worlds[i], package)
    ensures exists k :: i <= k < j && IsPromotion(worlds[k], steps[k], package)
                        && StableOf(worlds[k + 1], package) == StableOf(worlds[j], package)
                        && EverReported(worlds[k].core.installer.log, package, StableOf(worlds[j], package))
    decreases j - i
  {
    ReachableInv(worlds, steps, j - 1);
    if StableOf(worlds[j - 1], package) == StableOf(worlds[j], package) {
      StableProvenance(worlds, steps, i, j - 1, package);
    } else {
      StepStable(worlds[j - 1], steps[j - 1], package);
    }
  }
}
