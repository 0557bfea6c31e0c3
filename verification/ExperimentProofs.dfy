/** What one transition of the experiment protocol does to the slots, to the installer state
    and to the provenance of stable config versions. */
module ExperimentProofs {
  import opened Json
  import opened PendingSlot
  import opened Packages
  import opened DatadogAgent
  import opened Experiments

  function SlotOf(core: Core, nsn: NsName): Option<PendingOperation> {
    if nsn in core.agents then Slot(nsn, core.agents[nsn]) else None
  }

  /** A final state was reported for the task of `op` in the part of the log after `before`. */
  predicate FinallyReported(before: seq<Report>, after: seq<Report>, op: PendingOperation) {
    exists i :: |before| <= i < |after|
      && (after[i] == TaskReport(op.packageName, op.taskID, DONE) || after[i] == TaskReport(op.packageName, op.taskID, ERROR))
  }

  // ---------------------------------------------------------------- objects and slots

  lemma PersistKeepsSlots(settings: Settings, core: Core, nsn: NsName, experimentID: string, configID: string,
                          outcome: Outcome, other: NsName)
    ensures var after := PersistStable(settings, core, nsn, experimentID, configID, outcome).0;
            && after.installer == core.installer
            && after.agents.Keys == core.agents.Keys
            && SlotOf(after, other) == SlotOf(core, other)
            && core.version <= after.version
  {
  }

  /** The stop operation of a task. */
  predicate IsStopFor(req: Request, op: PendingOperation) {
    op.intent.Stop? && op.taskID == req.id && op.packageName == req.package && op.nsn == req.nsn && op.experimentID != ""
  }

  lemma PlanKeepsSlots(settings: Settings, core: Core, configs: Configs, req: Request, faults: Faults, other: NsName)
    ensures var (plan, planned) := PlanTask(settings, core, configs, req, faults);
            && planned.installer == core.installer
            && planned.agents.Keys == core.agents.Keys
            && SlotOf(planned, other) == SlotOf(core, other)
            && (plan.Settle? ==> SlotOf(plan.core, other) == SlotOf(core, other)
                                 && plan.core.agents == planned.agents)
            && (plan.Write? ==> planned == core && req.nsn in core.agents && plan.op.nsn == req.nsn
                                && GuardSlot(core.agents[req.nsn].annotations, req.nsn, plan.op)
                                && (plan.op.intent.Stop? ==> req.kind.StopTask? && IsStopFor(req, plan.op)))
  {
    if !(req.kind.UnknownTask? || !settings.revisionsEnabled || !ValidParams(req)) && !faults.readFails {
      match req.kind {
        case StartTask => PlanStartShape(settings, core, configs, req);
        case StopTask => PlanStopShape(settings, core, req);
        case _ => PlanPromoteShape(settings, core, req, faults, other);
      }
    }
  }

  lemma PlanStartShape(settings: Settings, core: Core, configs: Configs, req: Request)
    ensures var plan := PlanStart(settings, core, configs, req);
            && (plan.Settle? ==> plan.core.agents == core.agents)
            && (plan.Write? ==> req.nsn in core.agents && plan.op.nsn == req.nsn && plan.op.intent.Start?
                                && GuardSlot(core.agents[req.nsn].annotations, req.nsn, plan.op))
  {
  }

  lemma PlanStopShape(settings: Settings, core: Core, req: Request)
    ensures var plan := PlanStop(settings, core, req);
            && (plan.Settle? ==> plan.core.agents == core.agents)
            && (plan.Write? ==> req.nsn in core.agents && IsStopFor(req, plan.op)
                                && GuardSlot(core.agents[req.nsn].annotations, req.nsn, plan.op))
  {
  }

  lemma PlanPromoteShape(settings: Settings, core: Core, req: Request, faults: Faults, other: NsName)
    ensures var (plan, planned) := PlanPromote(settings, core, req, faults);
            && planned.installer == core.installer
            && planned.agents.Keys == core.agents.Keys
            && SlotOf(planned, other) == SlotOf(core, other)
            && (plan.Settle? ==> plan.core.agents == planned.agents)
            && (plan.Write? ==> planned == core && req.nsn in core.agents && plan.op.nsn == req.nsn
                                && plan.op.intent.Promote?
                                && GuardSlot(core.agents[req.nsn].annotations, req.nsn, plan.op))
  {
    var experiment := Versions(core.installer.packages, req.package).1;
    if experiment != "" && req.nsn in core.agents {
      var experimentID := CurrentExperiment(core.agents[req.nsn], experiment);
      PersistKeepsSlots(settings, core, req.nsn, experimentID, experiment, faults.persist, other);
    }
  }

  /** Writing an operation that the guard lets through. */
  lemma WriteSlots(core: Core, req: Request, op: PendingOperation, patch: Option<Json>, faults: Faults, other: NsName)
    requires req.nsn in core.agents && op.nsn == req.nsn && GuardSlot(core.agents[req.nsn].annotations, req.nsn, op)
    ensures var after := WriteOperation(core, req, op, patch, faults).0;
            && after.agents.Keys == core.agents.Keys
            && (SlotOf(after, other) != SlotOf(core, other) ==>
                  && other == req.nsn
                  && SlotOf(after, other) == (if Complete(op) then Some(op) else None)
                  && (SlotOf(core, other).Some? ==> SlotOf(core, other).value.intent.Start? && op.intent.Stop?))
  {
    WriteShape(core, req, op, patch, faults);
    SlotsAfterPut(core, WriteOperation(core, req, op, patch, faults).0, op, patch, other);
  }

  /** A write leaves everything as it was, or stores the object with the patched annotations. */
  predicate StoresPatched(core: Core, after: Core, op: PendingOperation, patch: Option<Json>)
    requires op.nsn in core.agents
  {
    && op.nsn in after.agents && after == Put(core, op.nsn, after.agents[op.nsn])
    && PatchAnnotations(core.agents[op.nsn].annotations, OperationPatch(patch, op)) == Some(after.agents[op.nsn].annotations)
  }

  lemma WriteShape(core: Core, req: Request, op: PendingOperation, patch: Option<Json>, faults: Faults)
    requires req.nsn in core.agents && op.nsn == req.nsn
    ensures var after := WriteOperation(core, req, op, patch, faults).0;
            after == core || StoresPatched(core, after, op, patch)
  {
  }

  lemma SlotsAfterPut(core: Core, after: Core, op: PendingOperation, patch: Option<Json>, other: NsName)
    requires op.nsn in core.agents && GuardSlot(core.agents[op.nsn].annotations, op.nsn, op)
    requires after == core || StoresPatched(core, after, op, patch)
    ensures && after.agents.Keys == core.agents.Keys
            && (SlotOf(after, other) != SlotOf(core, other) ==>
                  && other == op.nsn
                  && SlotOf(after, other) == (if Complete(op) then Some(op) else None)
                  && (SlotOf(core, other).Some? ==> SlotOf(core, other).value.intent.Start? && op.intent.Stop?))
  {
    if after != core {
      PatchedSlot(core.agents[op.nsn].annotations, patch, op);
      SameSlotIfSame(core.agents[op.nsn].annotations, patch, op);
    }
  }

  /** Carrying out a plan changes the slot of its own object only, and only to the operation
      it plans. */
  lemma CarryOutSlots(core: Core, plan: Plan, req: Request, faults: Faults, other: NsName)
    requires plan.Settle? ==> plan.core.agents == core.agents
    requires plan.Write? ==> req.nsn in core.agents && plan.op.nsn == req.nsn
                             && GuardSlot(core.agents[req.nsn].annotations, req.nsn, plan.op)
    ensures var after := CarryOut(core, plan, req, faults);
            && after.agents.Keys == core.agents.Keys
            && (SlotOf(after, other) != SlotOf(core, other) ==>
                  && plan.Write? && other == req.nsn
                  && SlotOf(after, other) == (if Complete(plan.op) then Some(plan.op) else None)
                  && (SlotOf(core, other).Some? ==> SlotOf(core, other).value.intent.Start? && plan.op.intent.Stop?))
  {
    match plan {
      case Write(op, patch) =>
        WriteSlots(core, req, op, patch, faults, other);
        WriteSettles(core, op, patch, req, faults);
      case _ =>
    }
  }

  lemma WriteSettles(core: Core, op: PendingOperation, patch: Option<Json>, req: Request, faults: Faults)
    ensures CarryOut(core, Write(op, patch), req, faults).agents == WriteOperation(core, req, op, patch, faults).0.agents
  {
  }

  /** A task changes the slot of its own object only; an operation in it gives way only when it
      is a start and the task is a stop. The stop is then in the slot, exactly when neither its
      ID nor its package is blank; otherwise the slot reads as free. */
  lemma TaskSlots(settings: Settings, core: Core, configs: Configs, busy: bool, req: Request, faults: Faults, other: NsName)
    ensures var after := HandleTask(settings, core, configs, busy, req, faults);
            && after.agents.Keys == core.agents.Keys
            && (SlotOf(after, other) != SlotOf(core, other) ==>
                  && !busy && other == req.nsn
                  && (SlotOf(core, other).Some? ==>
                        && SlotOf(core, other).value.intent.Start? && req.kind.StopTask?
                        && (SlotOf(after, other).Some? <==> req.id != "" && req.package != "")
                        && (SlotOf(after, other).Some? ==> IsStopFor(req, SlotOf(after, other).value))))
  {
    PlanKeepsSlots(settings, core, configs, req, faults, other);
    var (plan, planned) := PlanTask(settings, core, configs, req, faults);
    CarryOutSlots(planned, plan, req, faults, other);
  }

  /** Writing the operation that is already in the slot leaves it there. */
  lemma SameSlotIfSame(annotations: AnnotationMap, patch: Option<Json>, op: PendingOperation)
    requires PatchAnnotations(annotations, OperationPatch(patch, op)).Some?
    ensures ParseSlot(op.nsn, annotations) == Some(op) ==>
              ParseSlot(op.nsn, PatchAnnotations(annotations, OperationPatch(patch, op)).value) == Some(op)
  {
    PatchedSlot(annotations, patch, op);
  }

  lemma ClearSlots(core: Core, op: PendingOperation, faults: Faults, other: NsName)
    ensures var after := ClearIfCurrent(core, op, faults);
            && after.installer == core.installer
            && after.agents.Keys == core.agents.Keys
            && (SlotOf(after, other) != SlotOf(core, other) ==>
                  other == op.nsn && SlotOf(core, other) == Some(op) && SlotOf(after, other) == None)
  {
    if op.nsn in core.agents {
      ClearedSlot(core.agents[op.nsn].annotations, op.nsn);
    }
  }

  lemma FinishSlots(settings: Settings, core: Core, op: PendingOperation, verdict: Verdict, faults: Faults, other: NsName)
    ensures var after := Finish(settings, core, op, verdict, faults);
            && after.agents.Keys == core.agents.Keys
            && (SlotOf(after, other) != SlotOf(core, other) ==>
                  other == op.nsn && SlotOf(core, other) == Some(op) && SlotOf(after, other) == None)
            && FinallyReported(core.installer.log, after.installer.log, op)
  {
    var (persisted, ok) := FinishPersist(settings, core, op, verdict, faults);
    PersistKeepsSlots(settings, core, op.nsn, op.experimentID, op.resultVersion, faults.persist, other);
    var versioned := FinishVersions(persisted, op, ok);
    var reported := FinishTask(versioned, op, ok);
    ClearSlots(reported, op, faults, other);
    assert reported.installer.log[|versioned.installer.log|] ==
           TaskReport(op.packageName, op.taskID, if ok then DONE else ERROR);
  }

  /** A status update takes an operation out of a slot only after reporting how its task ended. */
  lemma StatusSlots(settings: Settings, core: Core, active: bool, snapshot: Snapshot, faults: Faults, other: NsName)
    ensures var after := OnStatusUpdate(settings, core, active, snapshot, faults);
            && after.agents.Keys == core.agents.Keys
            && (SlotOf(after, other) != SlotOf(core, other) ==>
                  && !active && SlotOf(core, other).Some? && SlotOf(after, other) == None
                  && Finishes(snapshot) == SlotOf(core, other)
                  && FinallyReported(core.installer.log, after.installer.log, SlotOf(core, other).value))
  {
    if !active {
      var repaired := RepairLocalTermination(core, snapshot);
      RepairLogGrows(core.installer, core.installer.packages,
                     if snapshot.experiment.Some? then snapshot.experiment.value.id else "",
                     if snapshot.experiment.Some? then snapshot.experiment.value.startTaskID else "");
      match ParseSlot(snapshot.nsn, snapshot.annotations) {
        case None =>
        case Some(op) =>
          var verdict := Evaluate(snapshot, op);
          if !verdict.Unfinished? {
            FinishSlots(settings, repaired, op, verdict, faults, other);
          }
      }
    }
  }

  lemma {:induction false} RepairLogGrows(installer: Installer, todo: seq<PackageState>, experimentID: string, startTaskID: string)
    ensures installer.log <= Repair(installer, todo, experimentID, startTaskID).log
    decreases |todo|
  {
    if todo != [] {
      RepairLogGrows(RepairStep(installer, todo[0], experimentID, startTaskID), todo[1..], experimentID, startTaskID);
    }
  }

  // ---------------------------------------------------------------- provenance

  /** `version` was reported as the experiment config version of `package` at some time. */
  predicate EverReported(log: seq<Report>, package: string, version: string) {
    exists i :: 0 <= i < |log| && log[i].VersionReport? && log[i].package == package && log[i].experiment == version
  }

  /** A promote in a slot promises a version that its package reported as its experiment. */
  predicate PromiseKept(log: seq<Report>, nsn: NsName, annotations: AnnotationMap) {
    var slot := ParseSlot(nsn, annotations);
    slot.Some? && slot.value.intent.Promote? ==>
      slot.value.resultVersion != "" && EverReported(log, slot.value.packageName, slot.value.resultVersion)
  }

  /** Names are unique, and every experiment version on the list was reported as one. */
  predicate Accounted(installer: Installer) {
    && UniqueNames(installer.packages)
    && forall i :: 0 <= i < |installer.packages| && installer.packages[i].experimentConfig != "" ==>
         EverReported(installer.log, installer.packages[i].name, installer.packages[i].experimentConfig)
  }

  predicate PromisesKept(core: Core) {
    forall nsn :: nsn in core.agents ==> PromiseKept(core.installer.log, nsn, core.agents[nsn].annotations)
  }

  lemma LogGrows(before: seq<Report>, after: seq<Report>, package: string, version: string)
    requires before <= after && EverReported(before, package, version)
    ensures EverReported(after, package, version)
  {
    var i :| 0 <= i < |before| && before[i].VersionReport? && before[i].package == package && before[i].experiment == version;
    assert after[i] == before[i];
  }

  lemma PromiseStaysKept(before: seq<Report>, after: seq<Report>, nsn: NsName, annotations: AnnotationMap)
    requires before <= after && PromiseKept(before, nsn, annotations)
    ensures PromiseKept(after, nsn, annotations)
  {
    var slot := ParseSlot(nsn, annotations);
    if slot.Some? && slot.value.intent.Promote? {
      LogGrows(before, after, slot.value.packageName, slot.value.resultVersion);
    }
  }

  lemma TaskReportAccounted(installer: Installer, name: string, taskID: string, state: TaskState)
    requires Accounted(installer)
    ensures var after := SetTaskState(installer, name, taskID, state);
            && Accounted(after) && installer.log <= after.log
            && forall p :: Versions(after.packages, p) == Versions(installer.packages, p)
  {
    var after := SetTaskState(installer, name, taskID, state);
    SetTaskRefinesMap(installer.packages, name, Task(taskID, state));
    forall i | 0 <= i < |after.packages| && after.packages[i].experimentConfig != ""
      ensures EverReported(after.log, after.packages[i].name, after.packages[i].experimentConfig)
    {
      LogGrows(installer.log, after.log, after.packages[i].name, after.packages[i].experimentConfig);
    }
    forall p ensures Versions(after.packages, p) == Versions(installer.packages, p) {
      GetAfterSet(installer.packages, name, p, "", "", Task(taskID, state));
    }
  }

  lemma VersionReportAccounted(installer: Installer, name: string, stable: string, experiment: string)
    requires Accounted(installer)
    ensures var after := SetVersions(installer, name, stable, experiment);
            && Accounted(after) && installer.log <= after.log
            && EverReported(after.log, name, experiment)
            && forall p :: Versions(after.packages, p) ==
                           if p == name then (stable, experiment) else Versions(installer.packages, p)
  {
    var after := SetVersions(installer, name, stable, experiment);
    SetVersionsRefinesMap(installer.packages, name, stable, experiment);
    assert after.log[|installer.log|] == VersionReport(name, stable, experiment);
    forall i | 0 <= i < |after.packages| && after.packages[i].experimentConfig != ""
      ensures EverReported(after.log, after.packages[i].name, after.packages[i].experimentConfig)
    {
      if after.packages[i].name != name {
        LogGrows(installer.log, after.log, after.packages[i].name, after.packages[i].experimentConfig);
      }
    }
    forall p
      ensures Versions(after.packages, p) == if p == name then (stable, experiment) else Versions(installer.packages, p)
    {
      GetAfterSet(installer.packages, name, p, stable, experiment, Task("", RUNNING));
    }
  }

  /** A reported experiment version was accounted for. */
  lemma VersionsAccounted(installer: Installer, package: string)
    requires Accounted(installer)
    ensures var e := Versions(installer.packages, package).1; e != "" ==> EverReported(installer.log, package, e)
  {
    if Has(installer.packages, package) {
      var i :| 0 <= i < |installer.packages| && installer.packages[i].name == package;
      FindAt(installer.packages, i);
    } else {
      VersionsOfAbsent(installer.packages, package);
    }
  }

  lemma RepairStepAccounted(installer: Installer, package: PackageState, experimentID: string, startTaskID: string)
    requires Accounted(installer) && Versions(installer.packages, package.name).0 == package.stableConfig
    ensures var after := RepairStep(installer, package, experimentID, startTaskID);
            && Accounted(after) && installer.log <= after.log
            && forall p :: Versions(after.packages, p).0 == Versions(installer.packages, p).0
  {
    var reported := if startTaskID != "" then SetTaskState(installer, package.name, startTaskID, ERROR) else installer;
    TaskReportAccounted(installer, package.name, startTaskID, ERROR);
    VersionReportAccounted(reported, package.name, package.stableConfig, "");
  }

  lemma {:induction false} RepairAccounted(installer: Installer, todo: seq<PackageState>, experimentID: string,
                                           startTaskID: string)
    requires Accounted(installer)
    requires forall i :: 0 <= i < |todo| ==> Versions(installer.packages, todo[i].name).0 == todo[i].stableConfig
    ensures var after := Repair(installer, todo, experimentID, startTaskID);
            && Accounted(after) && installer.log <= after.log
            && forall p :: Versions(after.packages, p).0 == Versions(installer.packages, p).0
    decreases |todo|
  {
    if todo != [] {
      RepairStepAccounted(installer, todo[0], experimentID, startTaskID);
      RepairAccounted(RepairStep(installer, todo[0], experimentID, startTaskID), todo[1..], experimentID, startTaskID);
    }
  }

  lemma LocalRepairAccounted(core: Core, snapshot: Snapshot)
    requires Accounted(core.installer)
    ensures var after := RepairLocalTermination(core, snapshot);
            && after.agents == core.agents
            && Accounted(after.installer) && core.installer.log <= after.installer.log
            && forall p :: Versions(after.installer.packages, p).0 == Versions(core.installer.packages, p).0
  {
    if snapshot.experiment.Some? && LocallyTerminated(snapshot.experiment.value) {
      var packages := core.installer.packages;
      forall i | 0 <= i < |packages| ensures Versions(packages, packages[i].name).0 == packages[i].stableConfig {
        FindAt(packages, i);
      }
      RepairAccounted(core.installer, packages, snapshot.experiment.value.id, snapshot.experiment.value.startTaskID);
    }
  }

  /** The stable version of `p` moved from one installer state to the next only to a version
      that `p` had reported as its experiment. */
  predicate StableFromExperiment(before: Installer, after: Installer, p: string) {
    var stable := Versions(after.packages, p).0;
    stable != Versions(before.packages, p).0 ==> stable != "" && EverReported(before.log, p, stable)
  }

  /** Finishing a task whose promise was kept. */
  lemma FinishProvenance(settings: Settings, core: Core, op: PendingOperation, verdict: Verdict, faults: Faults)
    requires Accounted(core.installer)
    requires op.intent.Promote? ==> op.resultVersion != "" && EverReported(core.installer.log, op.packageName, op.resultVersion)
    ensures var after := Finish(settings, core, op, verdict, faults);
            && Accounted(after.installer) && core.installer.log <= after.installer.log
            && forall p :: && StableFromExperiment(core.installer, after.installer, p)
                           && (Versions(after.installer.packages, p).0 != Versions(core.installer.packages, p).0 ==>
                                 op.intent.Promote? && verdict.Succeeded? && p == op.packageName)
  {
    var (persisted, ok) := FinishPersist(settings, core, op, verdict, faults);
    PersistKeepsSlots(settings, core, op.nsn, op.experimentID, op.resultVersion, faults.persist, op.nsn);
    var versioned := FinishVersions(persisted, op, ok);
    VersionsProvenance(persisted, op, ok);
    TaskReportAccounted(versioned.installer, op.packageName, op.taskID, if ok then DONE else ERROR);
    ClearSlots(FinishTask(versioned, op, ok), op, faults, op.nsn);
  }

  /** The versions of a success, by intent. */
  lemma VersionsProvenance(core: Core, op: PendingOperation, ok: bool)
    requires Accounted(core.installer)
    requires op.intent.Promote? ==> op.resultVersion != "" && EverReported(core.installer.log, op.packageName, op.resultVersion)
    ensures var after := FinishVersions(core, op, ok);
            && Accounted(after.installer) && core.installer.log <= after.installer.log
            && forall p :: && StableFromExperiment(core.installer, after.installer, p)
                           && (Versions(after.installer.packages, p).0 != Versions(core.installer.packages, p).0 ==>
                                 op.intent.Promote? && ok && p == op.packageName)
  {
    var stable := Versions(core.installer.packages, op.packageName).0;
    match op.intent {
      case Start => VersionReportAccounted(core.installer, op.packageName, stable, op.experimentID);
      case Stop => VersionReportAccounted(core.installer, op.packageName, stable, "");
      case Promote => VersionReportAccounted(core.installer, op.packageName, op.resultVersion, "");
    }
  }

  /** One status update: a stable version moves only to a version its package reported as an
      experiment, and only when the snapshot completes a promote of that package. */
  lemma StatusProvenance(settings: Settings, core: Core, active: bool, snapshot: Snapshot, faults: Faults)
    requires Accounted(core.installer)
    requires PromiseKept(core.installer.log, snapshot.nsn, snapshot.annotations)
    ensures var after := OnStatusUpdate(settings, core, active, snapshot, faults);
            && Accounted(after.installer) && core.installer.log <= after.installer.log
            && forall p :: && StableFromExperiment(core.installer, after.installer, p)
                           && (Versions(after.installer.packages, p).0 != Versions(core.installer.packages, p).0 ==>
                                 && snapshot.experiment.Some? && snapshot.experiment.value.phase.Promoted?
                                 && Finishes(snapshot).Some? && Finishes(snapshot).value.intent.Promote?
                                 && Finishes(snapshot).value.packageName == p)
  {
    if !active {
      LocalRepairAccounted(core, snapshot);
      var repaired := RepairLocalTermination(core, snapshot);
      match ParseSlot(snapshot.nsn, snapshot.annotations) {
        case None =>
        case Some(op) =>
          var verdict := Evaluate(snapshot, op);
          if verdict.Unfinished? {
            TaskReportAccounted(repaired.installer, op.packageName, op.taskID, RUNNING);
          } else {
            if op.intent.Promote? {
              LogGrows(core.installer.log, repaired.installer.log, op.packageName, op.resultVersion);
            }
            FinishProvenance(settings, repaired, op, verdict, faults);
            if verdict.Succeeded? && op.intent.Promote? {
              assert snapshot.experiment.value.phase.Promoted?;
              assert !LocallyTerminated(snapshot.experiment.value);
            }
          }
      }
    }
  }

  /** What planning promises: a settled plan moves a stable version only to an experiment, and
      then the status shows the promotion; a planned promote promises the reported experiment. */
  predicate PlanSound(core: Core, req: Request, plan: Plan) {
    && (plan.Settle? ==>
          && Accounted(plan.core.installer) && core.installer.log <= plan.core.installer.log
          && (Versions(plan.core.installer.packages, req.package).0 != Versions(core.installer.packages, req.package).0 ==>
                && req.kind.PromoteTask? && req.nsn in core.agents
                && core.agents[req.nsn].experiment.Some? && core.agents[req.nsn].experiment.value.phase.Promoted?
                && StableFromExperiment(core.installer, plan.core.installer, req.package)))
    && (plan.Write? && plan.op.intent.Promote? ==>
          plan.op.resultVersion != ""
          && EverReported(core.installer.log, plan.op.packageName, plan.op.resultVersion))
  }

  /** A settled plan moves the versions of the task's own package only. */
  ghost predicate OthersKept(core: Core, req: Request, plan: Plan) {
    plan.Settle? ==>
      forall p :: p != req.package ==> Versions(plan.core.installer.packages, p) == Versions(core.installer.packages, p)
  }

  lemma PlanStartSound(settings: Settings, core: Core, configs: Configs, req: Request)
    requires Accounted(core.installer)
    ensures var plan := PlanStart(settings, core, configs, req);
            PlanSound(core, req, plan) && OthersKept(core, req, plan)
  {
    VersionReportAccounted(core.installer, req.package, Versions(core.installer.packages, req.package).0, req.version);
  }

  lemma PlanStopSound(settings: Settings, core: Core, req: Request)
    requires Accounted(core.installer)
    ensures var plan := PlanStop(settings, core, req);
            PlanSound(core, req, plan) && OthersKept(core, req, plan)
  {
    VersionReportAccounted(core.installer, req.package, Versions(core.installer.packages, req.package).0, "");
  }

  lemma PlanPromoteSound(settings: Settings, core: Core, req: Request, faults: Faults)
    requires Accounted(core.installer) && req.kind.PromoteTask?
    ensures var plan := PlanPromote(settings, core, req, faults).0;
            PlanSound(core, req, plan) && OthersKept(core, req, plan)
  {
    VersionsAccounted(core.installer, req.package);
    if PlanPromote(settings, core, req, faults).0.Settle? { SettledPromoteSound(settings, core, req, faults); }
  }

  lemma SettledPromoteSound(settings: Settings, core: Core, req: Request, faults: Faults)
    requires Accounted(core.installer) && req.kind.PromoteTask? && PlanPromote(settings, core, req, faults).0.Settle?
    ensures var plan := PlanPromote(settings, core, req, faults).0;
            PlanSound(core, req, plan) && OthersKept(core, req, plan)
  {
    var experiment := Versions(core.installer.packages, req.package).1;
    VersionsAccounted(core.installer, req.package);
    VersionReportAccounted(core.installer, req.package, experiment, "");
    PersistKeepsSlots(settings, core, req.nsn, CurrentExperiment(core.agents[req.nsn], experiment), experiment,
                      faults.persist, req.nsn);
  }

  lemma PlanProvenance(settings: Settings, core: Core, configs: Configs, req: Request, faults: Faults)
    requires Accounted(core.installer)
    ensures var plan := PlanTask(settings, core, configs, req, faults).0;
            PlanSound(core, req, plan) && OthersKept(core, req, plan)
  {
    if !(req.kind.UnknownTask? || !settings.revisionsEnabled || !ValidParams(req)) && !faults.readFails {
      match req.kind {
        case StartTask => PlanStartSound(settings, core, configs, req);
        case StopTask => PlanStopSound(settings, core, req);
        case _ => PlanPromoteSound(settings, core, req, faults);
      }
    }
  }

  /** Only a settled plan moves versions. */
  lemma CarryOutInstaller(core: Core, plan: Plan, req: Request, faults: Faults)
    requires Accounted(core.installer)
    requires plan.Settle? ==> Accounted(plan.core.installer)
    ensures var after := CarryOut(core, plan, req, faults);
            var settled := if plan.Settle? then plan.core.installer else core.installer;
            && Accounted(after.installer) && settled.log <= after.installer.log
            && forall p :: Versions(after.installer.packages, p) == Versions(settled.packages, p)
  {
    match plan
    case Reject(mismatch) =>
      TaskReportAccounted(core.installer, req.package, req.id, if mismatch then INVALID_STATE else ERROR);
    case Settle(settled) => TaskReportAccounted(settled.installer, req.package, req.id, DONE);
    case Write(op, patch) => TaskReportAccounted(core.installer, req.package, req.id, ERROR);
  }

  /** One task: a stable version moves only to a version its package reported as an experiment,
      and only for a promote task of that package whose object's status shows phase promoted. */
  lemma TaskProvenance(settings: Settings, core: Core, configs: Configs, busy: bool, req: Request, faults: Faults)
    requires Accounted(core.installer)
    ensures var after := HandleTask(settings, core, configs, busy, req, faults);
            && Accounted(after.installer) && core.installer.log <= after.installer.log
            && forall p :: && StableFromExperiment(core.installer, after.installer, p)
                           && (Versions(after.installer.packages, p).0 != Versions(core.installer.packages, p).0 ==>
                                 && req.kind.PromoteTask? && req.package == p && req.nsn in core.agents
                                 && core.agents[req.nsn].experiment.Some?
                                 && core.agents[req.nsn].experiment.value.phase.Promoted?)
  {
    PlanProvenance(settings, core, configs, req, faults);
    PlanKeepsSlots(settings, core, configs, req, faults, req.nsn);
    var (plan, planned) := PlanTask(settings, core, configs, req, faults);
    TaskReportAccounted(core.installer, req.package, req.id, INVALID_STATE);
    CarryOutInstaller(planned, plan, req, faults);
  }

  /** After a task every promise on the cluster is still kept: a new promote promises the
      experiment its package reports. */
  lemma TaskPromises(settings: Settings, core: Core, configs: Configs, busy: bool, req: Request, faults: Faults, nsn: NsName)
    requires Accounted(core.installer) && PromisesKept(core)
    requires nsn in core.agents
    ensures var after := HandleTask(settings, core, configs, busy, req, faults);
            nsn in after.agents && PromiseKept(after.installer.log, nsn, after.agents[nsn].annotations)
  {
    var after := HandleTask(settings, core, configs, busy, req, faults);
    TaskProvenance(settings, core, configs, busy, req, faults);
    TaskSlots(settings, core, configs, busy, req, faults, nsn);
    PromiseStaysKept(core.installer.log, after.installer.log, nsn, core.agents[nsn].annotations);
    if SlotOf(after, nsn) != SlotOf(core, nsn) {
      PlanProvenance(settings, core, configs, req, faults);
      PlanKeepsSlots(settings, core, configs, req, faults, nsn);
      var (plan, planned) := PlanTask(settings, core, configs, req, faults);
      CarryOutSlots(planned, plan, req, faults, nsn);
      if plan.Write? && plan.op.intent.Promote? {
        LogGrows(core.installer.log, after.installer.log, plan.op.packageName, plan.op.resultVersion);
      }
    }
  }
}
