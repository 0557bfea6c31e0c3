/** What every step of the fleet machine keeps. */
module FleetInvariants {
  import opened Json
  import opened PendingSlot
  import opened Packages
  import opened DatadogAgent
  import opened Experiments
  import opened ExperimentProofs
  import opened Installation
  import opened FleetWorld

  // ---------------------------------------------------------------- the invariants

  /** The command the worker is holding, if any. */
  function Held(worker: Worker): Option<Command> {
    match worker
    case Blocked(_) => None
    case Retrying => None
    case Reading => None
    case Confirming(_) => None
    case Acknowledged(_) => None
    case Checking(command) => Some(command)
    case Reserving(command, _) => Some(command)
    case Refreshing(command, _) => Some(command)
    case Concluded(command, _) => Some(command)
    case Slotting(command) => Some(command)
    case Waiting(command, _) => Some(command)
    case Rereading(command) => Some(command)
    case Commanding(command) => Some(command)
    case Accepted(command, _) => Some(command)
    case Acknowledging(command, _) => Some(command)
  }

  /** A command as decoding produces it. */
  predicate Decoded(command: Command) {
    && command.intent.operationID != ""
    && (command.intent.desired.Installed? || command.intent.desired.Absent?)
    && command.digest == DigestOf(command.intent)
    && (command.intent.desired.Installed? ==>
          command.intent.acknowledged == "" || command.intent.acknowledged == command.intent.operationID)
  }

  /** Everything the worker holds was decoded; past the acknowledgement branch, an install is
      not acknowledged. The worker runs only when intents are enabled. */
  predicate WorkerOK(w: World) {
    && (w.settings.intentsEnabled ==> w.settings.identity.Some?)
    && (w.worker != Blocked(Idle) ==> w.settings.intentsEnabled)
    && (Held(w.worker).Some? ==> Decoded(Held(w.worker).value))
    && (Held(w.worker).Some? && !w.worker.Checking? && !w.worker.Acknowledging? ==>
          WellFormedCommand(Held(w.worker).value))
    && (w.worker.Reserving? || w.worker.Refreshing? ==> w.worker.command.intent.desired.Absent?)
  }

  /** The active flag, the operation ID, the cancel function and the completion channel are all
      set or all clear, and when set they are those of the one operation there is: the one the
      worker is persisting, or the one running in the background. */
  predicate FlagsOK(w: World) {
    var f := w.flags;
    && (f.active <==> f.operationID != "")
    && (f.active <==> f.cancel.Some?)
    && (f.active <==> f.done.Some?)
    && f.cancel == f.done
    && (f.active <==> (w.background.Some? || w.worker.Accepted?))
    && !(w.background.Some? && w.worker.Accepted?)
    && (w.background.Some? ==>
          f.done == Some(w.background.value.instance)
          && f.operationID == w.background.value.command.intent.operationID
          && (IsUninstallPc(w.background.value.pc) ==> w.background.value.command.intent.desired.Absent?))
    && (w.worker.Accepted? ==>
          f.done == Some(w.worker.instance) && f.operationID == w.worker.command.intent.operationID)
  }

  /** Every accepted operation is exactly one of: running, ended (its channel closed once), or
      cut off by a crash. */
  predicate ChannelsOK(w: World) {
    && (w.flags.done.Some? ==> w.flags.done.value < w.instances
                               && w.flags.done.value !in w.closed && w.flags.done.value !in w.abandoned)
    && (forall i :: 0 <= i < |w.closed| ==> w.closed[i] < w.instances && w.closed[i] !in w.abandoned)
    && (forall i, j :: 0 <= i < j < |w.closed| ==> w.closed[i] != w.closed[j])
    && (forall n :: n in w.abandoned ==> n < w.instances)
    && (forall n: nat :: n < w.instances ==> n in w.closed || n in w.abandoned || w.flags.done == Some(n))
    && (w.worker.Waiting? ==> w.flags.done == Some(w.worker.instance) || !w.flags.active)
    && (w.worker.Rereading? ==> !w.flags.active)
  }

  /** While an installation operation is active, no experiment task is pending on the target. */
  predicate Exclusion(w: World) {
    w.flags.active ==> SlotOf(w.core, w.settings.target) == None
  }

  function HeldAgent(pc: Pc): Option<Agent> {
    match pc
    case PatchHash(held, _, _) => Some(held)
    case PatchPartial(held, _) => Some(held)
    case PatchReady(_, held, _) => Some(held)
    case _ => None
  }

  /** Optimistic locking: an object the background operation has read is still the object on the
      server if its version is; and one it is about to mark ready passed the checks. */
  predicate LocksOK(w: World) {
    && (forall nsn :: nsn in w.core.agents ==> w.core.agents[nsn].version <= w.core.version)
    && (w.background.Some? && HeldAgent(w.background.value.pc).Some? ==>
          var held := HeldAgent(w.background.value.pc).value;
          && held.version <= w.core.version
          && (w.settings.target in w.core.agents && w.core.agents[w.settings.target].version == held.version ==>
                w.core.agents[w.settings.target] == held))
    && (w.background.Some? && w.background.value.pc.PatchReady? ==>
          MayBecomeReady(w, w.background.value.pc.held, w.background.value.pc.uid,
                         w.background.value.command.intent.operationID))
  }

  /** The background operation may still write its result. */
  predicate ResultPending(w: World) {
    w.background.Some? && !w.background.value.pc.Recorded? && !w.background.value.pc.Finishing?
  }

  /** The record is the work of the operation that may still write it; and what the worker saw
      of the record, where it acts on it, is still there. */
  predicate RecordOK(w: World) {
    && (w.record.Some? ==> WellFormed(w.record.value) && w.record.value.version <= w.recordVersion)
    && (w.background.Some? ==> WellFormedCommand(w.background.value.command))
    && (w.background.Some? ==> w.record.Some? && w.record.value.digest == w.background.value.command.digest)
    && (ResultPending(w) ==>
          w.record.Some? && w.record.value == RecordOf(w.background.value.command, RUNNING, w.record.value.version))
    && RecordSeen(w)
  }

  predicate RecordSeen(w: World) {
    match w.worker
    case Reserving(command, current) => SeenOK(w, command, current)
    case Refreshing(command, current) => SeenOK(w, command, current)
    case Concluded(command, found) =>
      w.record == Some(found) && !found.taskState.RUNNING? && ValidProgress(w.record, command.intent, command.digest)
    case Commanding(command) => !ResultPending(w) && ValidProgress(w.record, command.intent, command.digest)
    case Accepted(command, _) => w.background.None? && ValidProgress(w.record, command.intent, command.digest)
    case Acknowledging(command, current) =>
      current.Some? && current.value.taskState.DONE? ==>
        w.record == current && command.intent.acknowledged == command.intent.operationID
    case Confirming(found) =>
      w.record == Some(found) && found.taskState.DONE? && found.desired.Installed?
    case _ => true
  }

  /** A result the worker saw stays: nothing else may write once there is a result. */
  predicate SeenOK(w: World, command: Command, current: Option<Record>) {
    current.Some? && current.value.operationID == command.intent.operationID && !current.value.taskState.RUNNING? ==>
      w.record == current && ValidProgress(w.record, command.intent, command.digest)
  }

  /** A worker parked for Fleet is registered as waiting. An uninstall is parked only when no
      operation is active, an install only beside an install. */
  predicate WakeOK(w: World) {
    && (w.worker.Blocked? && w.worker.reason.ForFleet? ==> w.flags.waiting)
    && (w.worker == Blocked(ForFleet(Absent)) ==> !w.flags.active)
    && (w.worker == Blocked(ForFleet(Installed)) && w.background.Some? ==>
          w.background.value.command.intent.desired.Installed?)
  }

  /** The command of the active operation. */
  function ActiveCommand(w: World): Option<Command> {
    if w.background.Some? then Some(w.background.value.command)
    else if w.worker.Accepted? then Some(w.worker.command)
    else None
  }

  /** While an install is active no experiment version is reported. */
  predicate VersionOK(w: World) {
    ActiveCommand(w).Some? && ActiveCommand(w).value.intent.desired.Installed? ==>
      Versions(w.core.installer.packages, OPERATOR_PACKAGE).1 == ""
  }

  /** Names are unique, every experiment version on the list was reported as one, and every
      promote that is pending on the cluster or in an undelivered snapshot promises such a
      version. */
  predicate ProvenanceOK(w: World) {
    && Accounted(w.core.installer)
    && PromisesKept(w.core)
    && forall s :: s in w.observed ==> PromiseKept(w.core.installer.log, s.nsn, s.annotations)
  }

  predicate Inv(w: World) {
    && WorkerOK(w) && FlagsOK(w) && ChannelsOK(w) && Exclusion(w) && LocksOK(w) && RecordOK(w)
    && WakeOK(w) && VersionOK(w) && ProvenanceOK(w)
  }

  lemma InitInv(w: World)
    requires Init(w)
    ensures Inv(w)
  {
    forall nsn | nsn in w.core.agents
      ensures PromiseKept(w.core.installer.log, nsn, w.core.agents[nsn].annotations)
    {
      assert Lookup(w.core.agents[nsn].annotations, PendingAction) == "";
    }
  }

  // ---------------------------------------------------------------- what each step leaves alone

  /** Steps of the experiment protocol and of other writers touch only the core, the token and
      the configs. */
  predicate OnlyCore(w: World, after: World) {
    after == w.(core := after.core, token := after.token, due := after.due, configs := after.configs, intent := after.intent)
    && (w.token ==> after.token)
  }

  lemma OnlyCoreKeeps(w: World, after: World)
    requires Inv(w) && OnlyCore(w, after)
    ensures WorkerOK(after) && FlagsOK(after) && ChannelsOK(after) && RecordOK(after)
  {
    match w.worker {
      case Reserving(command, current) => assert SeenOK(after, command, current);
      case Refreshing(command, current) => assert SeenOK(after, command, current);
      case _ =>
    }
  }

  // ---------------------------------------------------------------- tasks and status updates

  lemma ObjectsKeptVersions(before: Core, after: Core, target: NsName, held: Agent)
    requires before.version <= after.version
    requires forall nsn :: nsn in before.agents ==> before.agents[nsn].version <= before.version
    requires forall nsn :: nsn in after.agents ==>
               (nsn in before.agents && after.agents[nsn] == before.agents[nsn])
               || before.version < after.agents[nsn].version <= after.version
    requires held.version <= before.version
    requires target in before.agents && before.agents[target].version == held.version ==> before.agents[target] == held
    ensures target in after.agents && after.agents[target].version == held.version ==> after.agents[target] == held
  {
  }

  /** Each object is as it was or has a new version. */
  predicate Rewritten(before: Core, after: Core) {
    && before.version <= after.version
    && forall nsn :: nsn in after.agents ==>
         (nsn in before.agents && after.agents[nsn] == before.agents[nsn])
         || before.version < after.agents[nsn].version <= after.version
  }

  lemma RewrittenKeepsLocks(w: World, after: World)
    requires LocksOK(w) && Rewritten(w.core, after.core)
    requires after.background == w.background && after.settings == w.settings
    ensures LocksOK(after)
  {
    if w.background.Some? && HeldAgent(w.background.value.pc).Some? {
      ObjectsKeptVersions(w.core, after.core, w.settings.target, HeldAgent(w.background.value.pc).value);
    }
  }

  lemma PersistRewrites(settings: Settings, core: Core, nsn: NsName, experimentID: string, configID: string, outcome: Outcome)
    ensures Rewritten(core, PersistStable(settings, core, nsn, experimentID, configID, outcome).0)
  {
  }

  lemma CarryOutRewrites(core: Core, plan: Plan, req: Request, faults: Faults)
    requires plan.Settle? ==> plan.core.agents == core.agents && plan.core.version == core.version
    ensures Rewritten(core, CarryOut(core, plan, req, faults))
  {
  }

  lemma PlanPromoteRewrites(settings: Settings, core: Core, req: Request, faults: Faults)
    ensures var (plan, planned) := PlanPromote(settings, core, req, faults);
            && Rewritten(core, planned)
            && (plan.Settle? ==> plan.core.agents == planned.agents && plan.core.version == planned.version)
  {
    var experiment := Versions(core.installer.packages, req.package).1;
    if req.nsn in core.agents {
      PersistRewrites(settings, core, req.nsn, CurrentExperiment(core.agents[req.nsn], experiment), experiment, faults.persist);
    }
  }

  lemma PlanOthersRewrite(settings: Settings, core: Core, configs: Configs, req: Request)
    ensures var plan := PlanStart(settings, core, configs, req);
            plan.Settle? ==> plan.core.agents == core.agents && plan.core.version == core.version
    ensures var plan := PlanStop(settings, core, req);
            plan.Settle? ==> plan.core.agents == core.agents && plan.core.version == core.version
  {
  }

  lemma PlanRewrites(settings: Settings, core: Core, configs: Configs, req: Request, faults: Faults)
    ensures var (plan, planned) := PlanTask(settings, core, configs, req, faults);
            && Rewritten(core, planned)
            && (plan.Settle? ==> plan.core.agents == planned.agents && plan.core.version == planned.version)
  {
    if !(req.kind.UnknownTask? || !settings.revisionsEnabled || !ValidParams(req)) && !faults.readFails {
      if req.kind.PromoteTask? {
        PlanPromoteRewrites(settings, core, req, faults);
      } else {
        PlanOthersRewrite(settings, core, configs, req);
      }
    }
  }

  lemma RewrittenTransitive(a: Core, b: Core, c: Core)
    requires Rewritten(a, b) && Rewritten(b, c)
    ensures Rewritten(a, c)
  {
  }

  lemma TaskRewrites(settings: Settings, core: Core, configs: Configs, busy: bool, req: Request, faults: Faults)
    ensures Rewritten(core, HandleTask(settings, core, configs, busy, req, faults))
  {
    PlanRewrites(settings, core, configs, req, faults);
    var (plan, planned) := PlanTask(settings, core, configs, req, faults);
    CarryOutRewrites(planned, plan, req, faults);
    RewrittenTransitive(core, planned, CarryOut(planned, plan, req, faults));
  }

  lemma ClearRewrites(core: Core, op: PendingOperation, faults: Faults)
    ensures Rewritten(core, ClearIfCurrent(core, op, faults))
  {
  }

  lemma FinishRewrites(settings: Settings, core: Core, op: PendingOperation, verdict: Verdict, faults: Faults)
    ensures Rewritten(core, Finish(settings, core, op, verdict, faults))
  {
    var (persisted, ok) := FinishPersist(settings, core, op, verdict, faults);
    PersistRewrites(settings, core, op.nsn, op.experimentID, op.resultVersion, faults.persist);
    var reported := FinishTask(FinishVersions(persisted, op, ok), op, ok);
    assert Rewritten(core, reported);
    ClearRewrites(reported, op, faults);
    RewrittenTransitive(core, reported, ClearIfCurrent(reported, op, faults));
  }

  lemma StatusRewrites(settings: Settings, core: Core, active: bool, snapshot: Snapshot, faults: Faults)
    ensures Rewritten(core, OnStatusUpdate(settings, core, active, snapshot, faults))
  {
    if !active {
      var repaired := RepairLocalTermination(core, snapshot);
      match ParseSlot(snapshot.nsn, snapshot.annotations) {
        case None =>
        case Some(op) =>
          if !Evaluate(snapshot, op).Unfinished? {
            FinishRewrites(settings, repaired, op, Evaluate(snapshot, op), faults);
          }
      }
    }
  }

  lemma ObservedPromises(w: World, log: seq<Report>)
    requires ProvenanceOK(w) && w.core.installer.log <= log
    ensures forall s :: s in w.observed ==> PromiseKept(log, s.nsn, s.annotations)
  {
    forall s | s in w.observed ensures PromiseKept(log, s.nsn, s.annotations) {
      PromiseStaysKept(w.core.installer.log, log, s.nsn, s.annotations);
    }
  }

  lemma TaskKeepsInv(w: World, req: Request, faults: Faults)
    requires Inv(w)
    ensures Inv(DoTask(w, req, faults))
  {
    var after := DoTask(w, req, faults);
    var busy := w.flags.active || w.flags.reserved;
    OnlyCoreKeeps(w, after);
    TaskSlots(w.settings, w.core, w.configs, busy, req, faults, w.settings.target);
    TaskRewrites(w.settings, w.core, w.configs, busy, req, faults);
    RewrittenKeepsLocks(w, after);
    TaskProvenance(w.settings, w.core, w.configs, busy, req, faults);
    ObservedPromises(w, after.core.installer.log);
    forall nsn | nsn in after.core.agents
      ensures PromiseKept(after.core.installer.log, nsn, after.core.agents[nsn].annotations)
    {
      TaskSlots(w.settings, w.core, w.configs, busy, req, faults, nsn);
      TaskPromises(w.settings, w.core, w.configs, busy, req, faults, nsn);
    }
  }

  lemma StatusKeepsInv(w: World, snapshot: Snapshot, faults: Faults)
    requires Inv(w) && snapshot in w.observed
    ensures Inv(DoStatus(w, snapshot, faults))
  {
    var after := DoStatus(w, snapshot, faults);
    OnlyCoreKeeps(w, after);
    StatusSlots(w.settings, w.core, w.flags.active, snapshot, faults, w.settings.target);
    StatusRewrites(w.settings, w.core, w.flags.active, snapshot, faults);
    RewrittenKeepsLocks(w, after);
    StatusProvenance(w.settings, w.core, w.flags.active, snapshot, faults);
    ObservedPromises(w, after.core.installer.log);
    StatusPromises(w.settings, w.core, w.flags.active, snapshot, faults);
  }

  /** A status update leaves every promise on the cluster kept. */
  lemma StatusPromises(settings: Settings, core: Core, active: bool, snapshot: Snapshot, faults: Faults)
    requires Accounted(core.installer) && PromisesKept(core)
    requires PromiseKept(core.installer.log, snapshot.nsn, snapshot.annotations)
    ensures PromisesKept(OnStatusUpdate(settings, core, active, snapshot, faults))
  {
    var after := OnStatusUpdate(settings, core, active, snapshot, faults);
    StatusProvenance(settings, core, active, snapshot, faults);
    forall nsn | nsn in after.agents ensures PromiseKept(after.installer.log, nsn, after.agents[nsn].annotations) {
      StatusSlots(settings, core, active, snapshot, faults, nsn);
      PromiseStaysKept(core.installer.log, after.installer.log, nsn, core.agents[nsn].annotations);
    }
  }

  // ---------------------------------------------------------------- the environment

  lemma WriteKeepsInv(w: World, nsn: NsName, agent: Option<Agent>)
    requires Inv(w) && LegitimateWrite(w, nsn, agent)
    ensures Inv(DoWrite(w, nsn, agent))
  {
    var after := DoWrite(w, nsn, agent);
    OnlyCoreKeeps(w, after);
    RewrittenKeepsLocks(w, after);
    WriteKeepsSlots(w, nsn, agent, w.settings.target);
    forall n | n in after.core.agents
      ensures PromiseKept(after.core.installer.log, n, after.core.agents[n].annotations)
    {
      WriteKeepsSlots(w, nsn, agent, n);
    }
  }

  /** A legitimate write leaves every slot as it was, except that of an object it deletes. */
  lemma WriteKeepsSlots(w: World, nsn: NsName, agent: Option<Agent>, other: NsName)
    requires LegitimateWrite(w, nsn, agent)
    ensures SlotOf(DoWrite(w, nsn, agent).core, other) ==
            if other == nsn && agent.None? then None else SlotOf(w.core, other)
  {
  }

  lemma ConfigsKeepInv(w: World, configs: Configs)
    requires Inv(w)
    ensures Inv(w.(configs := configs))
  {
    OnlyCoreKeeps(w, w.(configs := configs));
  }

  lemma IntentKeepsInv(w: World, intent: Option<RawIntent>)
    requires Inv(w)
    ensures Inv(w.(intent := intent))
  {
    OnlyCoreKeeps(w, w.(intent := intent));
  }

  lemma TokenKeepsInv(w: World, token: bool, due: bool)
    requires Inv(w) && (w.token ==> token)
    ensures Inv(w.(token := token, due := due))
  {
    OnlyCoreKeeps(w, w.(token := token, due := due));
  }
}
