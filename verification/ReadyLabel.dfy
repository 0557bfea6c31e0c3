/** Who may mark an object ready, and when. */
module ReadyLabel {
  import opened Json
  import opened PendingSlot
  import opened Packages
  import opened DatadogAgent
  import opened Experiments
  import opened ExperimentProofs
  import opened Installation
  import opened FleetWorld
  import opened FleetInvariants
  import opened FleetSteps
  import opened FleetTheorems

  /** No object comes up and no object becomes ready. */
  predicate NoneBecomesReady(before: Core, after: Core) {
    forall nsn :: nsn in after.agents ==>
      nsn in before.agents && (IsReady(after.agents[nsn]) ==> IsReady(before.agents[nsn]))
  }

  predicate BecomesReady(before: Core, after: Core, nsn: NsName) {
    && nsn in after.agents && IsReady(after.agents[nsn])
    && !(nsn in before.agents && IsReady(before.agents[nsn]))
  }

  lemma PersistReadiesNone(settings: Settings, core: Core, nsn: NsName, experimentID: string, configID: string, outcome: Outcome)
    ensures NoneBecomesReady(core, PersistStable(settings, core, nsn, experimentID, configID, outcome).0)
  {
  }

  /** A plan whose patch brings no labels. */
  lemma CarryOutReadiesNone(core: Core, plan: Plan, req: Request, faults: Faults)
    requires plan.Settle? ==> plan.core.agents == core.agents
    requires plan.Write? ==> !NamesLabels(plan.patch)
    ensures NoneBecomesReady(core, CarryOut(core, plan, req, faults))
  {
    if plan.Write? { WriteReadiesNone(core, req, plan.op, plan.patch, faults); }
  }

  lemma WriteReadiesNone(core: Core, req: Request, op: PendingOperation, patch: Option<Json>, faults: Faults)
    requires !NamesLabels(patch)
    ensures NoneBecomesReady(core, WriteOperation(core, req, op, patch, faults).0)
  {
    if req.nsn in core.agents {
      LabelsUntouched(core.agents[req.nsn].labels, patch, op);
    }
  }

  /** A signal brings labels only if the config it carries does. */
  lemma SignalLabels(signal: string, id: string, config: Option<Json>)
    ensures var patch := SignalPatch(signal, id, config);
            && (NamesLabels(patch) ==> HasMetadata(config))
            && (patch.Some? && HasMetadata(config) ==>
                  (NamesLabels(patch) <==> NamesLabels(config)) && PatchedLabels(patch) == PatchedLabels(config))
  {
  }

  /** In managed mode no plan writes labels. */
  lemma ManagedPlanLabels(settings: Settings, core: Core, configs: Configs, req: Request, faults: Faults)
    requires settings.identity.Some?
    ensures var plan := PlanTask(settings, core, configs, req, faults).0; plan.Write? ==> !NamesLabels(plan.patch)
  {
    if req.version in configs && |configs[req.version]| == 1 {
      SignalLabels("start", req.version, configs[req.version][0].config);
    }
  }

  lemma PlanReadiesNone(settings: Settings, core: Core, configs: Configs, req: Request, faults: Faults)
    ensures NoneBecomesReady(core, PlanTask(settings, core, configs, req, faults).1)
  {
    if req.kind.PromoteTask? && req.nsn in core.agents {
      var experiment := Versions(core.installer.packages, req.package).1;
      PersistReadiesNone(settings, core, req.nsn, CurrentExperiment(core.agents[req.nsn], experiment), experiment,
                         faults.persist);
    }
  }

  lemma TaskReadiesNone(settings: Settings, core: Core, configs: Configs, busy: bool, req: Request, faults: Faults)
    requires var plan := PlanTask(settings, core, configs, req, faults).0; plan.Write? ==> !NamesLabels(plan.patch)
    ensures NoneBecomesReady(core, HandleTask(settings, core, configs, busy, req, faults))
  {
    PlanReadiesNone(settings, core, configs, req, faults);
    PlanKeepsSlots(settings, core, configs, req, faults, req.nsn);
    var (plan, planned) := PlanTask(settings, core, configs, req, faults);
    CarryOutReadiesNone(planned, plan, req, faults);
  }

  lemma ClearReadiesNone(core: Core, op: PendingOperation, faults: Faults)
    ensures NoneBecomesReady(core, ClearIfCurrent(core, op, faults))
  {
  }

  lemma FinishReadiesNone(settings: Settings, core: Core, op: PendingOperation, verdict: Verdict, faults: Faults)
    ensures NoneBecomesReady(core, Finish(settings, core, op, verdict, faults))
  {
    var (persisted, ok) := FinishPersist(settings, core, op, verdict, faults);
    PersistReadiesNone(settings, core, op.nsn, op.experimentID, op.resultVersion, faults.persist);
    var reported := FinishTask(FinishVersions(persisted, op, ok), op, ok);
    assert NoneBecomesReady(core, reported);
    ClearReadiesNone(reported, op, faults);
  }

  lemma StatusReadiesNone(settings: Settings, core: Core, active: bool, snapshot: Snapshot, faults: Faults)
    ensures NoneBecomesReady(core, OnStatusUpdate(settings, core, active, snapshot, faults))
  {
    if !active {
      match ParseSlot(snapshot.nsn, snapshot.annotations) {
        case None =>
        case Some(op) =>
          FinishReadiesNone(settings, RepairLocalTermination(core, snapshot), op, Evaluate(snapshot, op), faults);
      }
    }
  }

  lemma PrefixReadiesNone(settings: Settings, core: Core, active: bool, snapshot: Snapshot, faults: Faults, stage: Stage)
    ensures NoneBecomesReady(core, StatusPrefix(settings, core, active, snapshot, faults, stage))
  {
    if !active {
      match Finishes(snapshot) {
        case None =>
        case Some(op) =>
          PersistReadiesNone(settings, RepairLocalTermination(core, snapshot), op.nsn, op.experimentID, op.resultVersion,
                             faults.persist);
      }
    }
  }

  /** A step of the background operation makes an object ready only by the locked write of
      PatchReady, over the object it checked. */
  predicate ReadyWrite(w: World, after: World, nsn: NsName) {
    && nsn == w.settings.target && nsn in w.core.agents && nsn in after.core.agents
    && w.background.Some? && w.background.value.pc.PatchReady? && !IsReady(w.core.agents[nsn])
    && var before := w.core.agents[nsn];
       && MayBecomeReady(w, before, w.background.value.pc.uid, w.background.value.command.intent.operationID)
       && after.core.agents[nsn] ==
          before.(labels := before.labels[InstallState := STATE_READY], version := w.core.version + 1)
  }

  lemma PatchReadyIsReadyWrite(w: World, b: Background, choice: Choice)
    requires LocksOK(w) && w.background == Some(b) && b.pc.PatchReady?
    ensures var after := DoInstall(w, b, choice);
            BecomesReady(w.core, after.core, w.settings.target) ==> ReadyWrite(w, after, w.settings.target)
  {
    InstallStores(w, b, choice);
  }

  lemma OthersReadyNothing(w: World, b: Background, choice: Choice)
    requires LocksOK(w) && w.background == Some(b) && !IsUninstallPc(b.pc) && !IsRecordPc(b.pc) && !b.pc.PatchReady?
    ensures !BecomesReady(w.core, DoInstall(w, b, choice).core, w.settings.target)
  {
    InstallStores(w, b, choice);
  }

  lemma UninstallReadiesNothing(w: World, b: Background, choice: Choice)
    requires IsUninstallPc(b.pc)
    ensures !BecomesReady(w.core, DoUninstall(w, b, choice).core, w.settings.target)
  {
  }

  lemma BackgroundReadyWrite(w: World, choice: Choice, nsn: NsName)
    requires LocksOK(w)
    ensures BecomesReady(w.core, DoBackground(w, choice).core, nsn) ==> ReadyWrite(w, DoBackground(w, choice), nsn)
  {
    BackgroundOnlyTarget(w, choice);
    match w.background {
      case None =>
      case Some(b) =>
        if IsUninstallPc(b.pc) { UninstallReadiesNothing(w, b, choice); }
        else if IsRecordPc(b.pc) { RecordTouchesNoObject(w, b, choice); }
        else if b.pc.PatchReady? { PatchReadyIsReadyWrite(w, b, choice); }
        else { OthersReadyNothing(w, b, choice); }
    }
  }

  /** A start, in unmanaged mode, whose config brings the ready label along in its own metadata, and
      whose patch lands. */
  predicate ConfigReadies(w: World, step: Step, nsn: NsName) {
    && w.settings.identity.None? && step.TaskStep? && step.req.nsn == nsn && nsn in w.core.agents
    && Planned(w, step.req)
    && var plan := PlanOf(w, step.req, step.faults);
       && plan.Write? && Landing(w.core, step.req, plan, step.faults)
       && Member(PatchedLabels(plan.patch), InstallState) == Str(STATE_READY)
       && !IsReady(w.core.agents[nsn])
  }

  /** The API server takes the patch of the plan. */
  predicate Landing(core: Core, req: Request, plan: Plan, faults: Faults)
    requires plan.Write?
  {
    && req.nsn in core.agents && !faults.patch.Refused?
    && PatchAnnotations(core.agents[req.nsn].annotations, OperationPatch(plan.patch, plan.op)).Some?
    && PatchLabels(core.agents[req.nsn].labels, OperationPatch(plan.patch, plan.op)).Some?
  }

  /** A write that lands makes its object ready exactly when its patch says so. */
  lemma WriteReadiesIff(core: Core, req: Request, plan: Plan, faults: Faults, nsn: NsName)
    requires plan.Write? && req.nsn in core.agents
    ensures BecomesReady(core, CarryOut(core, plan, req, faults), nsn)
       <==> nsn == req.nsn && Landing(core, req, plan, faults) && !IsReady(core.agents[nsn])
            && Member(PatchedLabels(plan.patch), InstallState) == Str(STATE_READY)
  {
    var agent := core.agents[req.nsn];
    WriteSettles(core, plan.op, plan.patch, req, faults);
    if Landing(core, req, plan, faults) {
      LabelAfter(agent.labels, plan.patch, plan.op);
    }
  }

  lemma LabelAfter(labels: LabelMap, patch: Option<Json>, op: PendingOperation)
    requires PatchLabels(labels, OperationPatch(patch, op)).Some?
    ensures var after := PatchLabels(labels, OperationPatch(patch, op)).value;
            InstallState in after && after[InstallState] == STATE_READY <==>
              (|| Member(PatchedLabels(patch), InstallState) == Str(STATE_READY)
               || (InstallState in labels && labels[InstallState] == STATE_READY
                   && (NamesLabels(patch) ==> PatchedLabels(patch).Obj? && InstallState !in PatchedLabels(patch).fields)))
  {
    if !NamesLabels(patch) {
      LabelsUntouched(labels, patch, op);
    } else if PatchedLabels(patch).Obj? {
      PatchedLabel(labels, patch, op, InstallState);
    } else {
      NoLabelsLeft(labels, patch, op);
    }
  }

  /** A patch with null for the labels takes them all away; nothing else but an object is admitted. */
  lemma NoLabelsLeft(labels: LabelMap, patch: Option<Json>, op: PendingOperation)
    requires NamesLabels(patch) && !PatchedLabels(patch).Obj?
    requires PatchLabels(labels, OperationPatch(patch, op)).Some?
    ensures PatchLabels(labels, OperationPatch(patch, op)).value == map[]
  {
    var whole := OperationPatch(patch, op);
    OperationPatchLabels(patch, op);
    MergePatchMember(LabelDocument(labels), whole, Metadata);
    MergePatchMember(Member(LabelDocument(labels), Metadata), Member(whole, Metadata), Labels);
  }

  lemma TaskReadiesIff(w: World, step: Step, nsn: NsName)
    requires step.TaskStep?
    ensures BecomesReady(w.core, DoTask(w, step.req, step.faults).core, nsn) <==> ConfigReadies(w, step, nsn)
  {
    var req, faults := step.req, step.faults;
    PlanKeepsSlots(w.settings, w.core, w.configs, req, faults, req.nsn);
    var (plan, planned) := PlanTask(w.settings, w.core, w.configs, req, faults);
    if plan.Write? {
      if w.settings.identity.Some? { ManagedPlanLabels(w.settings, w.core, w.configs, req, faults); }
      if Planned(w, req) { WriteReadiesIff(w.core, req, plan, faults, nsn); }
    } else {
      TaskReadiesNone(w.settings, w.core, w.configs, w.flags.active || w.flags.reserved, req, faults);
    }
  }

  /** In every run, whatever other writers do in between, the operator's write that makes an
      object ready lands on an object version with the expected UID and config ID whose accepted
      hash is the hash of its live spec, and changes nothing but the label. The one write that
      does so unchecked is exactly that of an unmanaged start whose config says ready itself. */
  lemma ReadyLabelUnderLock(worlds: seq<World>, steps: seq<Step>, i: nat, nsn: NsName)
    requires Run(worlds, steps) && i < |steps|
    ensures !steps[i].WriterStep? ==>
              (BecomesReady(worlds[i].core, worlds[i + 1].core, nsn) <==>
                 (|| ConfigReadies(worlds[i], steps[i], nsn)
                  || (steps[i].BackgroundStep? && ReadyWrite(worlds[i], worlds[i + 1], nsn))))
    ensures steps[i].BackgroundStep? && ReadyWrite(worlds[i], worlds[i + 1], nsn) ==>
              SpecAccepted(worlds[i].core.agents[nsn]) && SpecAccepted(worlds[i + 1].core.agents[nsn])
    ensures worlds[i].settings.identity.Some? ==> !ConfigReadies(worlds[i], steps[i], nsn)
  {
    ReachableInv(worlds, steps, i);
    if !steps[i].WriterStep? { StepReadyWrite(worlds[i], steps[i], nsn); }
  }

  lemma StepReadyWrite(w: World, step: Step, nsn: NsName)
    requires LocksOK(w) && Enabled(w, step) && !step.WriterStep?
    ensures BecomesReady(w.core, Perform(w, step).core, nsn) <==>
              (ConfigReadies(w, step, nsn) || (step.BackgroundStep? && ReadyWrite(w, Perform(w, step), nsn)))
  {
    match step {
      case TaskStep(req, faults) => TaskReadiesIff(w, step, nsn);
      case StatusStep(snapshot, faults) => StatusReadiesNone(w.settings, w.core, w.flags.active, snapshot, faults);
      case WorkerStep(choice) => WorkerHasShape(w, choice);
      case BackgroundStep(choice) => BackgroundReadyWrite(w, choice, nsn);
      case CrashStep(reload) => RestartAccounted(w.settings, w.core, reload.agentsFail, reload.listed);
      case StatusCrashStep(snapshot, faults, stage, reload) =>
        PrefixReadiesNone(w.settings, w.core, w.flags.active, snapshot, faults, stage);
        RestartAccounted(w.settings, StatusPrefix(w.settings, w.core, w.flags.active, snapshot, faults, stage),
                         reload.agentsFail, reload.listed);
      case _ => QuietStep(w, step);
    }
  }

  /** The UID the install expects, once it knows the object. */
  function ExpectedUid(pc: Pc): Option<nat> {
    match pc
    case CheckCreated(uid, _) => Some(uid)
    case CheckRecovered(uid) => Some(uid)
    case ReadForHash(uid, _, _) => Some(uid)
    case PatchHash(held, _, _) => Some(held.uid)
    case ReadForPartial(uid, _) => Some(uid)
    case PatchPartial(held, _) => Some(held.uid)
    case EnsureProfile(uid, _) => Some(uid)
    case ReadForReady(uid, _) => Some(uid)
    case PatchReady(uid, _, _) => Some(uid)
    case Completing(uid) => Some(uid)
    case _ => None
  }

  predicate SameExpectation(b: Background, after: World) {
    after.background.Some? && after.background.value.command == b.command
    && (ExpectedUid(after.background.value.pc).Some? ==> ExpectedUid(after.background.value.pc) == ExpectedUid(b.pc))
  }

  /** From the object's creation or first sight to the ready label, an install expects one UID. */
  lemma ExpectedUidNeverChanges(w: World, b: Background, choice: Choice)
    requires w.background == Some(b) && ExpectedUid(b.pc).Some?
    ensures SameExpectation(b, DoBackground(w, choice))
  {
    if OnlyLooks(b.pc) { LooksKeepUid(w, b, choice); } else { PatchesKeepUid(w, b, choice); }
  }

  lemma LooksKeepUid(w: World, b: Background, choice: Choice)
    requires OnlyLooks(b.pc) && ExpectedUid(b.pc).Some?
    ensures SameExpectation(b, DoInstall(w, b, choice))
  {
  }

  lemma PatchesKeepUid(w: World, b: Background, choice: Choice)
    requires b.pc.PatchHash? || b.pc.ReadForPartial? || b.pc.PatchPartial? || b.pc.PatchReady?
    ensures SameExpectation(b, DoChange(w, b, choice))
  {
    match b.pc {
      case PatchPartial(held, why) => PatchPartialKeepsUid(w, b, held, why, choice);
      case ReadForPartial(uid, why) => ReadForPartialKeepsUid(w, b, uid, why, choice);
      case _ =>
    }
  }

  lemma PatchPartialKeepsUid(w: World, b: Background, held: Agent, why: PartialReason, choice: Choice)
    requires b.pc == PatchPartial(held, why)
    ensures SameExpectation(b, DoPatchPartial(w, b, held, why, choice))
  {
    match LockedPut(w, held, held.(labels := held.labels[InstallState := STATE_PARTIAL]), choice.outcome) {
      case None =>
      case Some(after) => MarkedExpectsSame(after, b, held, why);
    }
  }

  lemma MarkedExpectsSame(w: World, b: Background, held: Agent, why: PartialReason)
    requires b.pc == PatchPartial(held, why)
    ensures SameExpectation(b, AfterPartial(w, b, held.uid, Label(held, ConfigID), why))
  {
  }

  lemma ReadForPartialKeepsUid(w: World, b: Background, uid: nat, why: PartialReason, choice: Choice)
    requires b.pc == ReadForPartial(uid, why)
    ensures SameExpectation(b, DoReadForPartial(w, b, uid, why, choice))
  {
    if !FoundPartial(w, uid, choice) { ReadExpectsSame(w, uid, why, choice); }
  }

  lemma ReadExpectsSame(w: World, uid: nat, why: PartialReason, choice: Choice)
    ensures var pc := ReadForPartialPc(w, uid, why, choice); ExpectedUid(pc).Some? ==> ExpectedUid(pc) == Some(uid)
  {
  }
}
