/** A promotion under crashes, in managed mode: a restart finds the old config versions or the
    new ones, never a mix, and a redelivered status completes the promotion. */
module PromoteRecovery {
  import opened Json
  import opened PendingSlot
  import opened Packages
  import opened DatadogAgent
  import opened Experiments
  import opened ExperimentProofs
  import opened Installation
  import opened FleetWorld
  import opened FleetInvariants
  import opened FleetSteps
  import opened FleetTheorems
  import opened ReadyLabel

  /** The versions the operator package reports after a restart that can read the cluster. */
  function RestartPair(settings: Settings, core: Core): (string, string) {
    Versions(Restart(settings, core, false, []).installer.packages, OPERATOR_PACKAGE)
  }

  lemma PairFromCluster(settings: Settings, core: Core, listed: seq<NsName>)
    requires settings.identity.Some? && RehydratedVersions(settings, core).Some?
    ensures RestartPair(settings, core) == RehydratedVersions(settings, core).value
    ensures Versions(Restart(settings, core, false, listed).installer.packages, OPERATOR_PACKAGE)
            == RestartPair(settings, core)
  {
    var (stable, experiment) := RehydratedVersions(settings, core).value;
    GetAfterSet(FreshPackages(settings), OPERATOR_PACKAGE, OPERATOR_PACKAGE, stable, experiment, Task("", RUNNING));
  }

  // ---------------------------------------------------------------- the object during a promotion

  /** The object is ours, ready and has a recorded hash; its status shows the experiment running
      or promoted; its label names the old config, or the experiment once that is promoted. */
  predicate Promoting(settings: Settings, agent: Agent, stable: string, experiment: string) {
    && stable != "" && experiment != "" && stable != experiment
    && Classify(agent) == Owned && BelongsTo(settings.identity, agent) && IsReady(agent)
    && Lookup(agent.annotations, ConfigHash) != ""
    && (HasPhase(agent, experiment, Running) || HasPhase(agent, experiment, Promoted))
    && (|| Label(agent, ConfigID) == stable
        || (Label(agent, ConfigID) == experiment && HasPhase(agent, experiment, Promoted)))
  }

  /** A promote of this experiment promises this experiment. */
  predicate PromiseFits(nsn: NsName, annotations: AnnotationMap, experiment: string) {
    var slot := ParseSlot(nsn, annotations);
    slot.Some? && slot.value.intent.Promote? && slot.value.experimentID == experiment ==>
      slot.value.resultVersion == experiment
  }

  predicate CoreUnderWay(settings: Settings, core: Core, stable: string, experiment: string) {
    && settings.identity.Some? && settings.target in core.agents
    && Promoting(settings, core.agents[settings.target], stable, experiment)
    && PromiseFits(settings.target, core.agents[settings.target].annotations, experiment)
  }

  predicate UnderWay(w: World, stable: string, experiment: string) {
    && CoreUnderWay(w.settings, w.core, stable, experiment)
    && forall s :: s in w.observed && s.nsn == w.settings.target ==> PromiseFits(s.nsn, s.annotations, experiment)
  }

  /** The promotion is on the object. */
  predicate Persisted(settings: Settings, core: Core, experiment: string) {
    settings.target in core.agents && Label(core.agents[settings.target], ConfigID) == experiment
  }

  lemma PairDuringPromotion(settings: Settings, core: Core, stable: string, experiment: string)
    requires CoreUnderWay(settings, core, stable, experiment)
    ensures RestartPair(settings, core) ==
            if Persisted(settings, core, experiment) then (experiment, "") else (stable, experiment)
  {
    PairFromCluster(settings, core, []);
  }

  // ---------------------------------------------------------------- steps during a promotion

  /** A change by someone else that leaves the installation alone and moves the experiment on, if
      at all, to promoted. */
  predicate LeavesPromotionAlone(before: Agent, after: Agent) {
    && after.labels == before.labels
    && ConfigHash in after.annotations && ConfigHash in before.annotations
    && after.annotations[ConfigHash] == before.annotations[ConfigHash]
    && before.experiment.Some? && after.experiment.Some?
    && after.experiment.value.id == before.experiment.value.id
    && (after.experiment.value.phase == before.experiment.value.phase || after.experiment.value.phase.Promoted?)
  }

  /** A promote of the target, past the handler's guards, for a package that reports another
      experiment than the one on the object. */
  predicate PromisesAnother(w: World, req: Request, experiment: string) {
    && req.kind.PromoteTask? && req.nsn == w.settings.target && Planned(w, req)
    && var reported := Versions(w.core.installer.packages, req.package).1;
       reported != "" && reported != experiment
  }

  /** Tasks, deliveries of any snapshots, crashes anywhere, other writers that leave the promotion
      alone; no promote that promises another version, and no installation. */
  predicate PromotionStep(w: World, step: Step, experiment: string) {
    match step
    case TaskStep(req, _) => !PromisesAnother(w, req, experiment)
    case BackgroundStep(_) => false
    case WriterStep(nsn, agent) =>
      nsn != w.settings.target
      || (agent.Some? && nsn in w.core.agents && LeavesPromotionAlone(w.core.agents[nsn], agent.value))
    case _ => true
  }

  // ---------------------------------------------------------------- tasks

  /** A write on the target that brings no labels and keeps the hash. */
  lemma WriteDuringPromotion(settings: Settings, core: Core, req: Request, op: PendingOperation, patch: Option<Json>,
                             faults: Faults, stable: string, experiment: string)
    requires CoreUnderWay(settings, core, stable, experiment) && op.nsn == req.nsn
    requires !NamesLabels(patch) && (patch.Some? ==> ConfigHash !in Fields(AnnotationsMember(patch.value)))
    requires req.nsn == settings.target && op.intent.Promote? && op.experimentID == experiment ==> op.resultVersion == experiment
    ensures var after := WriteOperation(core, req, op, patch, faults).0;
            && CoreUnderWay(settings, after, stable, experiment)
            && (Persisted(settings, core, experiment) ==> Persisted(settings, after, experiment))
  {
    var after := WriteOperation(core, req, op, patch, faults).0;
    WrittenAgent(core, req, op, patch, faults);
    if after != core {
      var agent := core.agents[req.nsn];
      var annotations := PatchAnnotations(agent.annotations, OperationPatch(patch, op)).value;
      PatchedSlot(agent.annotations, patch, op);
      WrittenKeepsHash(agent.annotations, patch, op);
      if req.nsn == settings.target {
        StillPromoting(settings, agent, annotations, Written(agent, op, patch, faults).spec, stable, experiment);
      }
      PutDuringPromotion(settings, core, req.nsn, Written(agent, op, patch, faults), stable, experiment);
    }
  }

  /** The object after a write without labels that lands. */
  function Written(agent: Agent, op: PendingOperation, patch: Option<Json>, faults: Faults): Agent
    requires PatchAnnotations(agent.annotations, OperationPatch(patch, op)).Some?
  {
    agent.(annotations := PatchAnnotations(agent.annotations, OperationPatch(patch, op)).value,
           spec := if patch.Some? && op.intent.Start? then faults.specAfter else agent.spec)
  }

  lemma WrittenAgent(core: Core, req: Request, op: PendingOperation, patch: Option<Json>, faults: Faults)
    requires !NamesLabels(patch)
    ensures var after := WriteOperation(core, req, op, patch, faults).0;
            after != core ==>
              && req.nsn in core.agents
              && PatchAnnotations(core.agents[req.nsn].annotations, OperationPatch(patch, op)).Some?
              && after == Put(core, req.nsn, Written(core.agents[req.nsn], op, patch, faults))
  {
    if req.nsn in core.agents {
      LabelsUntouched(core.agents[req.nsn].labels, patch, op);
    }
  }

  lemma PutDuringPromotion(settings: Settings, core: Core, nsn: NsName, agent: Agent, stable: string, experiment: string)
    requires CoreUnderWay(settings, core, stable, experiment)
    requires nsn == settings.target ==>
               && agent.labels == core.agents[nsn].labels && PromiseFits(nsn, agent.annotations, experiment)
               && Promoting(settings, agent.(version := core.version + 1), stable, experiment)
    ensures CoreUnderWay(settings, Put(core, nsn, agent), stable, experiment)
    ensures Persisted(settings, core, experiment) ==> Persisted(settings, Put(core, nsn, agent), experiment)
  {
  }

  lemma WrittenKeepsHash(annotations: AnnotationMap, patch: Option<Json>, op: PendingOperation)
    requires PatchAnnotations(annotations, OperationPatch(patch, op)).Some?
    requires patch.Some? ==> ConfigHash !in Fields(AnnotationsMember(patch.value))
    ensures var after := PatchAnnotations(annotations, OperationPatch(patch, op)).value;
            (ConfigHash in after <==> ConfigHash in annotations) && Lookup(after, ConfigHash) == Lookup(annotations, ConfigHash)
  {
    ReadDocument(annotations);
    UnrelatedAnnotationsKept(Document(annotations), patch, op, ConfigHash);
  }

  lemma StillPromoting(settings: Settings, agent: Agent, annotations: AnnotationMap, spec: Spec, stable: string,
                       experiment: string)
    requires Promoting(settings, agent, stable, experiment)
    requires (ConfigHash in annotations <==> ConfigHash in agent.annotations)
             && Lookup(annotations, ConfigHash) == Lookup(agent.annotations, ConfigHash)
    ensures forall version :: Promoting(settings, agent.(annotations := annotations, spec := spec, version := version),
                                        stable, experiment)
  {
  }

  /** In managed mode a plan's patch names neither labels nor the hash. */
  lemma ManagedPlanPatch(settings: Settings, core: Core, configs: Configs, req: Request, faults: Faults)
    requires settings.identity.Some?
    ensures var plan := PlanTask(settings, core, configs, req, faults).0;
            plan.Write? ==>
              !NamesLabels(plan.patch) && (plan.patch.Some? ==> ConfigHash !in Fields(AnnotationsMember(plan.patch.value)))
  {
    ManagedPlanLabels(settings, core, configs, req, faults);
  }

  /** The version a planned promote promises. */
  lemma PlannedPromise(settings: Settings, core: Core, configs: Configs, req: Request, faults: Faults)
    ensures var plan := PlanTask(settings, core, configs, req, faults).0;
            plan.Write? && plan.op.intent.Promote? ==>
              req.kind.PromoteTask? && plan.op.resultVersion == Versions(core.installer.packages, req.package).1
              && plan.op.resultVersion != ""
  {
  }

  lemma PlanDuringPromotion(w: World, req: Request, faults: Faults, stable: string, experiment: string)
    requires CoreUnderWay(w.settings, w.core, stable, experiment) && Planned(w, req) && !PromisesAnother(w, req, experiment)
    ensures var planned := PlanTask(w.settings, w.core, w.configs, req, faults).1;
            && CoreUnderWay(w.settings, planned, stable, experiment)
            && (Persisted(w.settings, w.core, experiment) ==> Persisted(w.settings, planned, experiment))
  {
    if req.kind.PromoteTask? && req.nsn in w.core.agents {
      var reported := Versions(w.core.installer.packages, req.package).1;
      var op := NewOperation(Promote, req, CurrentExperiment(w.core.agents[req.nsn], reported), reported);
      if reported != "" {
        PersistDuringPromotion(w.settings, w.core, op, faults.persist, stable, experiment);
      }
    }
  }

  lemma TaskDuringPromotion(w: World, req: Request, faults: Faults, stable: string, experiment: string)
    requires CoreUnderWay(w.settings, w.core, stable, experiment) && !PromisesAnother(w, req, experiment)
    ensures var after := DoTask(w, req, faults);
            && CoreUnderWay(w.settings, after.core, stable, experiment)
            && (Persisted(w.settings, w.core, experiment) ==> Persisted(w.settings, after.core, experiment))
  {
    if Planned(w, req) {
      PlanDuringPromotion(w, req, faults, stable, experiment);
      PlanKeepsSlots(w.settings, w.core, w.configs, req, faults, req.nsn);
      ManagedPlanPatch(w.settings, w.core, w.configs, req, faults);
      PlannedPromise(w.settings, w.core, w.configs, req, faults);
      var (plan, planned) := PlanTask(w.settings, w.core, w.configs, req, faults);
      if plan.Write? {
        WriteDuringPromotion(w.settings, w.core, req, plan.op, plan.patch, faults, stable, experiment);
        WriteSettles(w.core, plan.op, plan.patch, req, faults);
      }
    }
  }

  lemma PersistDuringPromotion(settings: Settings, core: Core, op: PendingOperation, outcome: Outcome, stable: string,
                               experiment: string)
    requires CoreUnderWay(settings, core, stable, experiment) && op.intent.Promote?
    requires op.nsn == settings.target && op.experimentID == experiment ==> op.resultVersion == experiment
    ensures var after := PersistStable(settings, core, op.nsn, op.experimentID, op.resultVersion, outcome).0;
            && CoreUnderWay(settings, after, stable, experiment)
            && (Persisted(settings, core, experiment) ==> Persisted(settings, after, experiment))
  {
    PersistKeepsSlots(settings, core, op.nsn, op.experimentID, op.resultVersion, outcome, settings.target);
  }

  lemma ClearDuringPromotion(settings: Settings, core: Core, op: PendingOperation, faults: Faults, stable: string,
                             experiment: string)
    requires CoreUnderWay(settings, core, stable, experiment)
    ensures var after := ClearIfCurrent(core, op, faults);
            && CoreUnderWay(settings, after, stable, experiment)
            && (Persisted(settings, core, experiment) ==> Persisted(settings, after, experiment))
  {
    var after := ClearIfCurrent(core, op, faults);
    if after != core {
      var agent := core.agents[op.nsn];
      var annotations := PatchAnnotations(agent.annotations, ClearPatch()).value;
      ClearedSlot(agent.annotations, op.nsn);
      if op.nsn == settings.target {
        StillPromoting(settings, agent, annotations, agent.spec, stable, experiment);
      }
      PutDuringPromotion(settings, core, op.nsn, agent.(annotations := annotations), stable, experiment);
    }
  }

  lemma StatusDuringPromotion(settings: Settings, core: Core, active: bool, snapshot: Snapshot, faults: Faults,
                              stable: string, experiment: string)
    requires CoreUnderWay(settings, core, stable, experiment)
    requires snapshot.nsn == settings.target ==> PromiseFits(snapshot.nsn, snapshot.annotations, experiment)
    ensures var after := OnStatusUpdate(settings, core, active, snapshot, faults);
            && CoreUnderWay(settings, after, stable, experiment)
            && (Persisted(settings, core, experiment) ==> Persisted(settings, after, experiment))
  {
    if !active && Finishes(snapshot).Some? {
      var op := Finishes(snapshot).value;
      var repaired := RepairLocalTermination(core, snapshot);
      assert repaired.agents == core.agents;
      FinishDuringPromotion(settings, repaired, op, Evaluate(snapshot, op), faults, stable, experiment);
    }
  }

  lemma FinishDuringPromotion(settings: Settings, core: Core, op: PendingOperation, verdict: Verdict, faults: Faults,
                              stable: string, experiment: string)
    requires CoreUnderWay(settings, core, stable, experiment)
    requires op.intent.Promote? && op.nsn == settings.target && op.experimentID == experiment ==> op.resultVersion == experiment
    ensures var after := Finish(settings, core, op, verdict, faults);
            && CoreUnderWay(settings, after, stable, experiment)
            && (Persisted(settings, core, experiment) ==> Persisted(settings, after, experiment))
  {
    var (persisted, ok) := FinishPersist(settings, core, op, verdict, faults);
    if op.intent.Promote? {
      PersistDuringPromotion(settings, core, op, faults.persist, stable, experiment);
    }
    var reported := FinishTask(FinishVersions(persisted, op, ok), op, ok);
    assert reported.agents == persisted.agents;
    ClearDuringPromotion(settings, reported, op, faults, stable, experiment);
  }

  lemma PrefixDuringPromotion(settings: Settings, core: Core, active: bool, snapshot: Snapshot, faults: Faults, stage: Stage,
                              stable: string, experiment: string)
    requires CoreUnderWay(settings, core, stable, experiment)
    requires snapshot.nsn == settings.target ==> PromiseFits(snapshot.nsn, snapshot.annotations, experiment)
    ensures var after := StatusPrefix(settings, core, active, snapshot, faults, stage);
            && CoreUnderWay(settings, after, stable, experiment)
            && (Persisted(settings, core, experiment) ==> Persisted(settings, after, experiment))
  {
    PrefixObjects(settings, core, active, snapshot, faults, stage);
    if Finishes(snapshot).Some? && Finishes(snapshot).value.intent.Promote? {
      var repaired := RepairLocalTermination(core, snapshot);
      assert repaired.agents == core.agents;
      PersistDuringPromotion(settings, repaired, Finishes(snapshot).value, faults.persist, stable, experiment);
    }
  }

  lemma CrashKeepsObjects(w: World, reload: Reload)
    ensures DoCrash(w, reload).core.agents == w.core.agents
    ensures DoCrash(w, reload).settings == w.settings
  {
    RestartAccounted(w.settings, w.core, reload.agentsFail, reload.listed);
  }

  /** The promotion is still under way, and still on the object if it was. */
  predicate KeepsPromotion(w: World, after: World, stable: string, experiment: string) {
    && after.settings == w.settings && after.observed == w.observed
    && CoreUnderWay(w.settings, after.core, stable, experiment)
    && (Persisted(w.settings, w.core, experiment) ==> Persisted(w.settings, after.core, experiment))
  }

  lemma CoreStep(w: World, step: Step, stable: string, experiment: string)
    requires UnderWay(w, stable, experiment) && Enabled(w, step) && PromotionStep(w, step, experiment)
    ensures KeepsPromotion(w, Perform(w, step), stable, experiment)
  {
    match step {
      case TaskStep(_, _) => TaskStepKeeps(w, step, stable, experiment);
      case StatusStep(_, _) => StatusStepKeeps(w, step, stable, experiment);
      case WriterStep(nsn, agent) => WriteStep(w, nsn, agent, stable, experiment);
      case _ => OtherStep(w, step, stable, experiment);
    }
  }

  lemma TaskStepKeeps(w: World, step: Step, stable: string, experiment: string)
    requires UnderWay(w, stable, experiment) && step.TaskStep? && PromotionStep(w, step, experiment)
    ensures KeepsPromotion(w, Perform(w, step), stable, experiment)
  {
    TaskDuringPromotion(w, step.req, step.faults, stable, experiment);
  }

  lemma StatusStepKeeps(w: World, step: Step, stable: string, experiment: string)
    requires UnderWay(w, stable, experiment) && step.StatusStep? && Enabled(w, step)
    ensures KeepsPromotion(w, Perform(w, step), stable, experiment)
  {
    StatusDuringPromotion(w.settings, w.core, w.flags.active, step.snapshot, step.faults, stable, experiment);
    StatusCore(w, step.snapshot, step.faults);
  }

  lemma StatusCore(w: World, snapshot: Snapshot, faults: Faults)
    ensures var after := DoStatus(w, snapshot, faults);
            && after.core == OnStatusUpdate(w.settings, w.core, w.flags.active, snapshot, faults)
            && after.settings == w.settings && after.observed == w.observed
  {
  }

  lemma OtherStep(w: World, step: Step, stable: string, experiment: string)
    requires UnderWay(w, stable, experiment) && Enabled(w, step)
    requires !step.TaskStep? && !step.StatusStep? && !step.WriterStep? && !step.BackgroundStep?
    ensures KeepsPromotion(w, Perform(w, step), stable, experiment)
  {
    match step {
      case StatusCrashStep(_, _, _, _) => CutStep(w, step, stable, experiment);
      case CrashStep(reload) => CrashKeepsObjects(w, reload);
      case WorkerStep(choice) => WorkerHasShape(w, choice);
      case _ =>
    }
  }

  lemma CutStep(w: World, step: Step, stable: string, experiment: string)
    requires UnderWay(w, stable, experiment) && Enabled(w, step) && step.StatusCrashStep?
    ensures KeepsPromotion(w, Perform(w, step), stable, experiment)
  {
    var cut := StatusPrefix(w.settings, w.core, w.flags.active, step.snapshot, step.faults, step.stage);
    PrefixDuringPromotion(w.settings, w.core, w.flags.active, step.snapshot, step.faults, step.stage, stable, experiment);
    CrashKeepsObjects(w.(core := cut), step.reload);
  }

  lemma WriteStep(w: World, nsn: NsName, agent: Option<Agent>, stable: string, experiment: string)
    requires UnderWay(w, stable, experiment) && LegitimateWrite(w, nsn, agent) && PromotionStep(w, WriterStep(nsn, agent), experiment)
    ensures KeepsPromotion(w, DoWrite(w, nsn, agent), stable, experiment)
  {
    WriteKeepsSlots(w, nsn, agent, w.settings.target);
    if nsn == w.settings.target { AloneKeepsPromoting(w.settings, w.core.agents[nsn], agent.value, stable, experiment); }
  }

  lemma AloneKeepsPromoting(settings: Settings, before: Agent, after: Agent, stable: string, experiment: string)
    requires Promoting(settings, before, stable, experiment) && LeavesPromotionAlone(before, after)
    ensures Promoting(settings, after, stable, experiment)
  {
  }

  lemma StepUnderWay(w: World, step: Step, stable: string, experiment: string)
    requires UnderWay(w, stable, experiment) && Enabled(w, step) && PromotionStep(w, step, experiment)
    ensures UnderWay(Next(w, step), stable, experiment)
    ensures Persisted(w.settings, w.core, experiment) ==> Persisted(w.settings, Next(w, step).core, experiment)
    ensures Next(w, step).settings == w.settings
  {
    CoreStep(w, step, stable, experiment);
  }

  // ---------------------------------------------------------------- crash consistency

  lemma {:induction false} RunUnderWay(worlds: seq<World>, steps: seq<Step>, i: nat, j: nat, stable: string, experiment: string)
    requires IsRun(worlds, steps) && i <= j < |worlds| && UnderWay(worlds[i], stable, experiment)
    requires forall k :: i <= k < j ==> PromotionStep(worlds[k], steps[k], experiment)
    ensures UnderWay(worlds[j], stable, experiment) && worlds[j].settings == worlds[i].settings
    ensures Persisted(worlds[i].settings, worlds[i].core, experiment) ==> Persisted(worlds[j].settings, worlds[j].core, experiment)
    decreases j - i
  {
    if i < j {
      RunUnderWay(worlds, steps, i, j - 1, stable, experiment);
      StepUnderWay(worlds[j - 1], steps[j - 1], stable, experiment);
    }
  }

  /** Promotion is crash-consistent: at every point of every run of tasks, deliveries, phase changes
      and crashes, a restart finds exactly the old pair or exactly the new pair, and the new pair for
      good once it is there. */
  lemma PromoteCrashConsistent(worlds: seq<World>, steps: seq<Step>, i: nat, j: nat, stable: string, experiment: string)
    requires IsRun(worlds, steps) && i <= j < |worlds| && UnderWay(worlds[i], stable, experiment)
    requires forall k :: i <= k < j ==> PromotionStep(worlds[k], steps[k], experiment)
    ensures var pair := RestartPair(worlds[j].settings, worlds[j].core);
            && (pair == (stable, experiment) || pair == (experiment, ""))
            && (RestartPair(worlds[i].settings, worlds[i].core) == (experiment, "") ==> pair == (experiment, ""))
  {
    RunUnderWay(worlds, steps, i, j, stable, experiment);
    PairDuringPromotion(worlds[i].settings, worlds[i].core, stable, experiment);
    PairDuringPromotion(worlds[j].settings, worlds[j].core, stable, experiment);
  }

  /** After a crash, at any stage, the daemon reports that pair, if it can read the cluster. */
  lemma CrashReportsPair(w: World, reload: Reload, stable: string, experiment: string)
    requires CoreUnderWay(w.settings, w.core, stable, experiment) && !reload.agentsFail
    ensures Versions(DoCrash(w, reload).core.installer.packages, OPERATOR_PACKAGE) == RestartPair(w.settings, w.core)
  {
    PairFromCluster(w.settings, w.core, reload.listed);
    RestartAccounted(w.settings, w.core, false, reload.listed);
    if w.record.Some? {
      GetAfterSet(Restart(w.settings, w.core, false, reload.listed).installer.packages, OPERATOR_PACKAGE, OPERATOR_PACKAGE,
                  "", "", Task(w.record.value.operationID, w.record.value.taskState));
    }
  }

  /** A promote of the experiment is pending on the target, whose status shows it promoted. */
  predicate AwaitsDelivery(w: World, op: PendingOperation, experiment: string) {
    && SlotOf(w.core, w.settings.target) == Some(op) && op.intent.Promote? && op.experimentID == experiment
    && HasPhase(w.core.agents[w.settings.target], experiment, Promoted)
  }

  /** The new pair is what a restart finds and, for its package, what is reported; the task is DONE
      and the slot free. */
  predicate Completed(settings: Settings, core: Core, op: PendingOperation, experiment: string) {
    && Versions(core.installer.packages, op.packageName) == (experiment, "")
    && RestartPair(settings, core) == (experiment, "")
    && core.installer.log != []
    && core.installer.log[|core.installer.log| - 1] == TaskReport(op.packageName, op.taskID, DONE)
    && SlotOf(core, settings.target) == None
  }

  /** The target as it is, delivered. */
  function Delivery(w: World, faults: Faults): Step
    requires w.settings.target in w.core.agents
  {
    var agent := w.core.agents[w.settings.target];
    StatusStep(Snapshot(w.settings.target, agent.annotations, agent.experiment), faults)
  }

  predicate NoFault(faults: Faults) {
    faults.persist.Landed? && faults.clear.Landed? && !faults.clearReadFails
  }

  /** In every run, however many crashes, tasks and deliveries there were since the promotion began:
      while the promote is pending, delivering the promoted status with no fault completes it. */
  lemma RedeliveryCompletes(worlds: seq<World>, steps: seq<Step>, i: nat, j: nat, op: PendingOperation, faults: Faults,
                            stable: string, experiment: string)
    requires Run(worlds, steps) && i <= j < |steps| && UnderWay(worlds[i], stable, experiment)
    requires forall k :: i <= k < j ==> PromotionStep(worlds[k], steps[k], experiment)
    requires AwaitsDelivery(worlds[j], op, experiment) && steps[j] == Delivery(worlds[j], faults) && NoFault(faults)
    ensures Completed(worlds[j + 1].settings, worlds[j + 1].core, op, experiment)
  {
    RunUnderWay(worlds, steps, i, j, stable, experiment);
    ReachableInv(worlds, steps, j);
    DeliveryCompletes(worlds[j], op, faults, stable, experiment);
  }

  /** A crash, at any stage of a status transition or between two steps, leaves the promote pending
      and the status as it is; the next delivery, of the object as it then is, completes it. */
  lemma CrashThenDelivery(worlds: seq<World>, steps: seq<Step>, i: nat, op: PendingOperation, faults: Faults,
                          stable: string, experiment: string)
    requires Run(worlds, steps) && i + 1 < |steps| && UnderWay(worlds[i], stable, experiment)
    requires AwaitsDelivery(worlds[i], op, experiment) && (steps[i].CrashStep? || steps[i].StatusCrashStep?)
    ensures AwaitsDelivery(worlds[i + 1], op, experiment) && Enabled(worlds[i + 1], Delivery(worlds[i + 1], faults))
    ensures steps[i + 1] == Delivery(worlds[i + 1], faults) && NoFault(faults) ==>
              Completed(worlds[i + 2].settings, worlds[i + 2].core, op, experiment)
  {
    CrashLeavesPending(worlds[i], steps[i], op, stable, experiment);
    if steps[i + 1] == Delivery(worlds[i + 1], faults) && NoFault(faults) {
      RedeliveryCompletes(worlds, steps, i, i + 1, op, faults, stable, experiment);
    }
  }

  lemma CrashLeavesPending(w: World, step: Step, op: PendingOperation, stable: string, experiment: string)
    requires UnderWay(w, stable, experiment) && AwaitsDelivery(w, op, experiment)
    requires Enabled(w, step) && (step.CrashStep? || step.StatusCrashStep?)
    ensures AwaitsDelivery(Next(w, step), op, experiment)
    ensures Next(w, step).settings == w.settings && Snapshots(Next(w, step).core) <= Next(w, step).observed
  {
    match step {
      case CrashStep(reload) => CrashKeepsObjects(w, reload);
      case StatusCrashStep(snapshot, faults, stage, reload) =>
        var cut := StatusPrefix(w.settings, w.core, w.flags.active, snapshot, faults, stage);
        PrefixKeepsStatus(w.settings, w.core, w.flags.active, snapshot, faults, stage);
        CrashKeepsObjects(w.(core := cut), reload);
        CutKeepsSlots(w, snapshot, faults, stage, reload, w.settings.target);
    }
  }

  lemma PrefixKeepsStatus(settings: Settings, core: Core, active: bool, snapshot: Snapshot, faults: Faults, stage: Stage)
    requires settings.target in core.agents
    ensures var after := StatusPrefix(settings, core, active, snapshot, faults, stage);
            settings.target in after.agents && after.agents[settings.target].experiment == core.agents[settings.target].experiment
  {
    PrefixObjects(settings, core, active, snapshot, faults, stage);
  }

  lemma DeliveryCompletes(w: World, op: PendingOperation, faults: Faults, stable: string, experiment: string)
    requires !w.flags.active && Accounted(w.core.installer)
    requires CoreUnderWay(w.settings, w.core, stable, experiment) && AwaitsDelivery(w, op, experiment) && NoFault(faults)
    requires Enabled(w, Delivery(w, faults))
    ensures var after := Next(w, Delivery(w, faults)); Completed(after.settings, after.core, op, experiment)
  {
    var step := Delivery(w, faults);
    PromotedFinishes(w.settings, w.core, op, faults);
    FinishCompletes(w.settings, w.core, op, faults, stable, experiment);
    DeliveredCore(w, step.snapshot, faults);
  }

  lemma DeliveredCore(w: World, snapshot: Snapshot, faults: Faults)
    requires !w.flags.active && snapshot in w.observed
    ensures var after := Next(w, StatusStep(snapshot, faults));
            after.core == OnStatusUpdate(w.settings, w.core, false, snapshot, faults) && after.settings == w.settings
  {
    StatusCore(w, snapshot, faults);
  }

  /** A status that shows the promotion the slot waits for finishes it. */
  lemma PromotedFinishes(settings: Settings, core: Core, op: PendingOperation, faults: Faults)
    requires settings.target in core.agents && SlotOf(core, settings.target) == Some(op) && op.intent.Promote?
    requires HasPhase(core.agents[settings.target], op.experimentID, Promoted)
    ensures var agent := core.agents[settings.target];
            OnStatusUpdate(settings, core, false, Snapshot(settings.target, agent.annotations, agent.experiment), faults)
            == Finish(settings, core, op, Succeeded, faults)
  {
  }

  lemma FinishCompletes(settings: Settings, core: Core, op: PendingOperation, faults: Faults, stable: string,
                        experiment: string)
    requires CoreUnderWay(settings, core, stable, experiment) && Accounted(core.installer) && NoFault(faults)
    requires SlotOf(core, settings.target) == Some(op) && op.intent.Promote? && op.experimentID == experiment
    requires HasPhase(core.agents[settings.target], experiment, Promoted)
    ensures Completed(settings, Finish(settings, core, op, Succeeded, faults), op, experiment)
  {
    var (persisted, ok) := PersistStable(settings, core, op.nsn, op.experimentID, op.resultVersion, faults.persist);
    PersistSucceeds(settings, core, op, faults.persist, stable, experiment);
    PromotionIsReported(persisted, op);
    ClearSucceeds(settings, FinishTask(FinishVersions(persisted, op, true), op, true), op, faults, stable, experiment);
  }

  lemma PromotionIsReported(core: Core, op: PendingOperation)
    requires Accounted(core.installer) && op.intent.Promote?
    ensures var after := FinishTask(FinishVersions(core, op, true), op, true);
            && after.agents == core.agents && Versions(after.installer.packages, op.packageName) == (op.resultVersion, "")
            && after.installer.log != []
            && after.installer.log[|after.installer.log| - 1] == TaskReport(op.packageName, op.taskID, DONE)
  {
    var versioned := FinishVersions(core, op, true);
    VersionReportAccounted(core.installer, op.packageName, op.resultVersion, "");
    TaskReportAccounted(versioned.installer, op.packageName, op.taskID, DONE);
  }

  lemma PersistSucceeds(settings: Settings, core: Core, op: PendingOperation, outcome: Outcome, stable: string,
                        experiment: string)
    requires CoreUnderWay(settings, core, stable, experiment) && outcome.Landed?
    requires SlotOf(core, settings.target) == Some(op) && op.intent.Promote? && op.experimentID == experiment
    requires HasPhase(core.agents[settings.target], experiment, Promoted)
    ensures var (persisted, ok) := PersistStable(settings, core, op.nsn, op.experimentID, op.resultVersion, outcome);
            && ok && Persisted(settings, persisted, experiment) && CoreUnderWay(settings, persisted, stable, experiment)
            && SlotOf(persisted, settings.target) == Some(op) && persisted.installer == core.installer
  {
    PersistKeepsSlots(settings, core, op.nsn, op.experimentID, op.resultVersion, outcome, settings.target);
    PersistDuringPromotion(settings, core, op, outcome, stable, experiment);
  }

  lemma ClearSucceeds(settings: Settings, core: Core, op: PendingOperation, faults: Faults, stable: string, experiment: string)
    requires CoreUnderWay(settings, core, stable, experiment) && Persisted(settings, core, experiment)
    requires SlotOf(core, settings.target) == Some(op) && faults.clear.Landed? && !faults.clearReadFails
    ensures var after := ClearIfCurrent(core, op, faults);
            && SlotOf(after, settings.target) == None && after.installer == core.installer
            && RestartPair(settings, after) == (experiment, "")
  {
    ClearDuringPromotion(settings, core, op, faults, stable, experiment);
    ClearedSlot(core.agents[settings.target].annotations, settings.target);
    PairDuringPromotion(settings, ClearIfCurrent(core, op, faults), stable, experiment);
  }

  /** What the condition on the promised version is for: once a promotion is on the object, a
      restart finds the new pair exactly when the promise is the experiment's own ID. Otherwise
      it finds the promised version as stable beside the experiment that was promoted. */
  lemma NewPairIff(settings: Settings, core: Core, op: PendingOperation, outcome: Outcome, stable: string)
    requires settings.identity.Some? && settings.target in core.agents && op.nsn == settings.target
    requires Promoting(settings, core.agents[settings.target], stable, op.experimentID)
    requires HasPhase(core.agents[settings.target], op.experimentID, Promoted)
    requires op.resultVersion != "" && !outcome.Refused?
    ensures var after := PersistStable(settings, core, op.nsn, op.experimentID, op.resultVersion, outcome).0;
            && (RestartPair(settings, after) == (op.resultVersion, "") <==> op.resultVersion == op.experimentID)
            && (op.resultVersion != op.experimentID ==> RestartPair(settings, after) == (op.resultVersion, op.experimentID))
  {
    var after := PersistStable(settings, core, op.nsn, op.experimentID, op.resultVersion, outcome).0;
    PersistedObject(settings, core, op, outcome, stable);
    PairOnObject(settings, after, op);
    PairFromCluster(settings, after, []);
  }

  /** The promised version is the config of the object, which is ready and shows the promotion. */
  predicate PromotedTo(settings: Settings, agent: Agent, op: PendingOperation) {
    && Classify(agent) == Owned && BelongsTo(settings.identity, agent) && IsReady(agent)
    && Lookup(agent.annotations, ConfigHash) != "" && HasPhase(agent, op.experimentID, Promoted)
    && Label(agent, ConfigID) == op.resultVersion
  }

  lemma PersistedObject(settings: Settings, core: Core, op: PendingOperation, outcome: Outcome, stable: string)
    requires settings.identity.Some? && settings.target in core.agents && op.nsn == settings.target
    requires Promoting(settings, core.agents[settings.target], stable, op.experimentID)
    requires HasPhase(core.agents[settings.target], op.experimentID, Promoted)
    requires op.resultVersion != "" && !outcome.Refused?
    ensures var after := PersistStable(settings, core, op.nsn, op.experimentID, op.resultVersion, outcome).0;
            settings.target in after.agents && PromotedTo(settings, after.agents[settings.target], op)
  {
  }

  lemma PairOnObject(settings: Settings, core: Core, op: PendingOperation)
    requires settings.identity.Some? && settings.target in core.agents && op.resultVersion != "" && op.experimentID != ""
    requires PromotedTo(settings, core.agents[settings.target], op)
    ensures RehydratedVersions(settings, core)
            == Some((op.resultVersion, if op.resultVersion == op.experimentID then "" else op.experimentID))
  {
  }
}
