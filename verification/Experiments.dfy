/** The experiment protocol: Remote Config tasks become annotation writes, status snapshots
    finish them, and the installer state is rebuilt from the cluster after a restart. */
module Experiments {
  import opened Json
  import opened PendingSlot
  import opened Packages
  import opened DatadogAgent

  datatype Settings = Settings(
    identity: Option<Identity>,   // None: the operator has no managed installation
    revisionsEnabled: bool,
    intentsEnabled: bool,
    target: NsName,               // the managed DatadogAgent
    initialVersion: string)       // stable config version of a freshly started client

  const OPERATOR_PACKAGE := "datadog-operator"
  const UNMANAGED := "unmanaged"

  /** The cluster's DatadogAgents, the API server's version counter and the installer state. */
  datatype Core = Core(agents: map<NsName, Agent>, version: nat, installer: Installer)

  datatype TaskKind = StartTask | StopTask | PromoteTask | UnknownTask(name: string)

  datatype Request = Request(
    id: string,
    package: string,
    expectedStable: string,
    expectedExperiment: string,
    kind: TaskKind,
    version: string,
    objectKind: string,
    nsn: NsName)

  /** One operation of an installer config. */
  datatype ConfigOperation = ConfigOperation(isUpdate: bool, config: Option<Json>)

  type Configs = map<string, seq<ConfigOperation>>

  /** A write to the API server: done, not done, or done although the client saw an error. */
  datatype Outcome = Landed | Refused | LandedButReportedFailed

  /** What the API server does to the calls of one transition. `disturbed`: between the two reads
      of a promote task another writer makes the object one that may not be promoted. `specAfter`
      is the spec the server stores after merging a start patch. */
  datatype Faults = Faults(
    readFails: bool,
    disturbed: bool,
    patch: Outcome,
    persist: Outcome,
    clearReadFails: bool,
    clear: Outcome,
    specAfter: Spec)

  datatype Snapshot = Snapshot(nsn: NsName, annotations: AnnotationMap, experiment: Option<ExperimentStatus>)

  /** Store an object under a new resource version. */
  function Put(core: Core, nsn: NsName, agent: Agent): Core {
    core.(agents := core.agents[nsn := agent.(version := core.version + 1)], version := core.version + 1)
  }

  function PutIf(core: Core, outcome: Outcome, nsn: NsName, agent: Agent): Core {
    if outcome.Refused? then core else Put(core, nsn, agent)
  }

  function ReportTask(core: Core, package: string, taskID: string, state: TaskState): Core {
    core.(installer := SetTaskState(core.installer, package, taskID, state))
  }

  function ReportVersions(core: Core, package: string, stable: string, experiment: string): Core {
    core.(installer := SetVersions(core.installer, package, stable, experiment))
  }

  function ReportExperiment(core: Core, package: string, experiment: string): Core {
    ReportVersions(core, package, Versions(core.installer.packages, package).0, experiment)
  }

  // ---------------------------------------------------------------- persisting a promotion

  /** Writes the promoted config ID and the hash of the live spec on the object, in managed
      mode, and says whether that worked. The write carries the version that was read, so it
      lands on the object it checked. */
  function PersistStable(settings: Settings, core: Core, nsn: NsName, experimentID: string, configID: string,
                         outcome: Outcome): (Core, bool)
  {
    if settings.identity.None? then (core, true)
    else if experimentID == "" || configID == "" then (core, false)
    else if nsn !in core.agents then (core, false)
    else
      var agent := core.agents[nsn];
      if !BelongsTo(settings.identity, agent) || !OperationAllowed(nsn, agent, Promote)
         || !HasPhase(agent, experimentID, Promoted)
      then (core, false)
      else if Label(agent, ConfigID) == configID && Lookup(agent.annotations, ConfigHash) == SpecHash(agent.spec)
      then (core, true)
      else
        (PutIf(core, outcome, nsn,
               agent.(labels := agent.labels[ConfigID := configID],
                      annotations := agent.annotations[ConfigHash := SpecHash(agent.spec)])),
         outcome.Landed?)
  }

  // ---------------------------------------------------------------- planning a task

  /** What a task amounts to: an error, something already true (with the state that records
      it), or an operation to write with its signal patch. */
  datatype Plan =
    | Reject(mismatch: bool)
    | Settle(core: Core)
    | Write(op: PendingOperation, patch: Option<Json>)

  function NewOperation(intent: Intent, req: Request, experimentID: string, resultVersion: string): PendingOperation {
    PendingOperation(intent, req.id, req.package, req.nsn, experimentID, resultVersion)
  }

  predicate ValidParams(req: Request) {
    req.nsn.name != "" && req.nsn.namespace != "" && req.objectKind == "DatadogAgent"
  }

  /** In managed mode a remote config may only hold a spec, without credentials. */
  predicate ManagedConfig(config: Option<Json>) {
    && config.Some?
    && (config.value.Null? || (config.value.Obj? && config.value.fields.Keys <= {Key.Spec}))
    && var global := Member(Member(config.value, Key.Spec), Global);
       Member(global, Credentials).Null? && Member(global, ClusterAgentToken).Null?
       && Member(global, ClusterAgentTokenSecret).Null?
  }

  predicate ExperimentTarget(settings: Settings, nsn: NsName, agent: Agent) {
    settings.identity.None? || (BelongsTo(settings.identity, agent) && OperationAllowed(nsn, agent, Start))
  }

  function PlanStart(settings: Settings, core: Core, configs: Configs, req: Request): Plan {
    if req.version == "" || req.version !in configs then Reject(false)
    else
      var operations := configs[req.version];
      if |operations| != 1 || !operations[0].isUpdate then Reject(false)
      else
        var config := operations[0].config;
        if settings.identity.Some? && !ManagedConfig(config) then Reject(false)
        else if req.nsn !in core.agents then Reject(false)
        else PlanStartOn(settings, core, req, config)
  }

  /** A start whose config and object are there. */
  function PlanStartOn(settings: Settings, core: Core, req: Request, config: Option<Json>): Plan
    requires req.nsn in core.agents
  {
    var agent := core.agents[req.nsn];
    var op := NewOperation(Start, req, req.version, "");
    if !ExperimentTarget(settings, req.nsn, agent) then Reject(true)
    else if HasPhase(agent, req.version, Running) then
      Settle(ReportExperiment(core, req.package, req.version))
    else if Lookup(agent.annotations, ExperimentID) == req.version then
      if GuardSlot(agent.annotations, req.nsn, op) then Write(op, None) else Reject(true)
    else if RunningExperiment(agent) != "" then Reject(false)
    else if !GuardSlot(agent.annotations, req.nsn, op) then Reject(true)
    else
      match SignalPatch("start", req.version, config)
      case None => Reject(false)
      case Some(patch) => Write(op, Some(patch))
  }

  /** The experiment a stop or promote is about: the status first, then the signal on the
      object, then what Remote Config reports. */
  function CurrentExperiment(agent: Agent, reported: string): string {
    if agent.experiment.Some? && agent.experiment.value.id != "" then agent.experiment.value.id
    else if Lookup(agent.annotations, ExperimentID) != "" then Lookup(agent.annotations, ExperimentID)
    else reported
  }

  function PlanStop(settings: Settings, core: Core, req: Request): Plan {
    if req.nsn !in core.agents then Reject(false)
    else
      var agent := core.agents[req.nsn];
      var experimentID := CurrentExperiment(agent, Versions(core.installer.packages, req.package).1);
      var op := NewOperation(Stop, req, experimentID, "");
      if !ExperimentTarget(settings, req.nsn, agent) then Reject(true)
      else if agent.experiment.None? && (experimentID == "" || Lookup(agent.annotations, ExperimentSignal) != "start") then
        Settle(ReportExperiment(core, req.package, ""))
      else if agent.experiment.Some? && IsTerminal(agent.experiment.value.phase) then
        Settle(ReportExperiment(core, req.package, ""))
      else if agent.experiment.Some? && !agent.experiment.value.phase.Running? && !agent.experiment.value.phase.NoPhase? then
        Reject(false)
      else if agent.experiment.Some? && experimentID == "" then Reject(false)
      else if !GuardSlot(agent.annotations, req.nsn, op) then Reject(true)
      else Write(op, SignalPatch("rollback", experimentID, None))
  }

  function PlanPromote(settings: Settings, core: Core, req: Request, faults: Faults): (Plan, Core) {
    var experiment := Versions(core.installer.packages, req.package).1;
    if experiment == "" || req.nsn !in core.agents then (Reject(false), core)
    else
      var agent := core.agents[req.nsn];
      var experimentID := CurrentExperiment(agent, experiment);
      var op := NewOperation(Promote, req, experimentID, experiment);
      if !ExperimentTarget(settings, req.nsn, agent) then (Reject(true), core)
      else if HasPhase(agent, experimentID, Promoted) then
        var (persisted, ok) := PersistStable(settings, core, req.nsn, experimentID, experiment, faults.persist);
        if settings.identity.Some? && faults.disturbed then (Reject(true), core)
        else if ok then (Settle(ReportVersions(persisted, req.package, experiment, "")), persisted)
        else (Reject(false), persisted)
      else if !HasPhase(agent, experimentID, Running) then (Reject(false), core)
      else if !GuardSlot(agent.annotations, req.nsn, op) then (Reject(true), core)
      else (Write(op, SignalPatch("promote", experimentID, None)), core)
  }

  /** The plan of a task, and the state in which it leaves the cluster before it is carried out. */
  function PlanTask(settings: Settings, core: Core, configs: Configs, req: Request, faults: Faults): (Plan, Core) {
    if req.kind.UnknownTask? || !settings.revisionsEnabled || !ValidParams(req) then (Reject(false), core)
    else if faults.readFails then (Reject(false), core)
    else
      match req.kind
      case StartTask => (PlanStart(settings, core, configs, req), core)
      case StopTask => (PlanStop(settings, core, req), core)
      case _ => PlanPromote(settings, core, req, faults)
  }

  /** Writes an operation and its signal in one merge patch, with whatever labels a config brings
      along. A refused or invalid patch, or an object that is gone, fails the task. */
  function WriteOperation(core: Core, req: Request, op: PendingOperation, patch: Option<Json>, faults: Faults)
    : (Core, bool)
  {
    if req.nsn !in core.agents then (core, false)
    else
      var agent := core.agents[req.nsn];
      var annotations := PatchAnnotations(agent.annotations, OperationPatch(patch, op));
      var labels := PatchLabels(agent.labels, OperationPatch(patch, op));
      if annotations.None? || labels.None? then (core, false)
      else
        var spec := if patch.Some? && op.intent.Start? then faults.specAfter else agent.spec;
        (PutIf(core, faults.patch, req.nsn,
               agent.(annotations := annotations.value, labels := labels.value, spec := spec)),
         faults.patch.Landed?)
  }

  /** Carries out a plan and reports the task when nothing is left to wait for. */
  function CarryOut(core: Core, plan: Plan, req: Request, faults: Faults): Core {
    match plan
    case Reject(mismatch) => ReportTask(core, req.package, req.id, if mismatch then INVALID_STATE else ERROR)
    case Settle(settled) => ReportTask(settled, req.package, req.id, DONE)
    case Write(op, patch) =>
      var (written, ok) := WriteOperation(core, req, op, patch, faults);
      if ok then written else ReportTask(written, req.package, req.id, ERROR)
  }

  /** One task, from arrival to dispatch. `busy`: a managed installation is active or has the
      task slot reserved. */
  function HandleTask(settings: Settings, core: Core, configs: Configs, busy: bool, req: Request, faults: Faults): Core {
    if busy then core
    else if (req.expectedStable, req.expectedExperiment) != Versions(core.installer.packages, req.package) then
      ReportTask(core, req.package, req.id, INVALID_STATE)
    else
      var (plan, planned) := PlanTask(settings, core, configs, req, faults);
      CarryOut(planned, plan, req, faults)
  }

  // ---------------------------------------------------------------- finishing a task

  datatype Verdict = Unfinished | Succeeded | Failed

  /** Does this status finish this task? The status of another experiment says nothing. */
  function Evaluate(snapshot: Snapshot, op: PendingOperation): Verdict {
    if snapshot.nsn != op.nsn || snapshot.experiment.None? || snapshot.experiment.value.id != op.experimentID then
      Unfinished
    else
      var phase := snapshot.experiment.value.phase;
      match op.intent
      case Start => if phase.Running? then Succeeded else if IsTerminal(phase) then Failed else Unfinished
      case Stop => if IsTerminal(phase) then Succeeded else Unfinished
      case Promote => if phase.Promoted? then Succeeded else if IsTerminal(phase) then Failed else Unfinished
  }

  /** First part of finishing: a successful promote is persisted on the object. */
  function FinishPersist(settings: Settings, core: Core, op: PendingOperation, verdict: Verdict, faults: Faults)
    : (Core, bool)
  {
    if verdict.Succeeded? && op.intent.Promote? then
      PersistStable(settings, core, op.nsn, op.experimentID, op.resultVersion, faults.persist)
    else (core, verdict.Succeeded?)
  }

  /** Second part: the config versions of a success. */
  function FinishVersions(core: Core, op: PendingOperation, ok: bool): Core {
    if !ok then core
    else
      match op.intent
      case Start => ReportExperiment(core, op.packageName, op.experimentID)
      case Stop => ReportExperiment(core, op.packageName, "")
      case Promote => ReportVersions(core, op.packageName, op.resultVersion, "")
  }

  /** Third part: the task state. */
  function FinishTask(core: Core, op: PendingOperation, ok: bool): Core {
    ReportTask(core, op.packageName, op.taskID, if ok then DONE else ERROR)
  }

  /** Last part: the slot is cleared, but only if it still holds this task. */
  function ClearIfCurrent(core: Core, op: PendingOperation, faults: Faults): Core {
    if faults.clearReadFails || op.nsn !in core.agents then core
    else
      var agent := core.agents[op.nsn];
      if Slot(op.nsn, agent) != Some(op) then core
      else
        match PatchAnnotations(agent.annotations, ClearPatch())
        case None => core
        case Some(annotations) => PutIf(core, faults.clear, op.nsn, agent.(annotations := annotations))
  }

  function Finish(settings: Settings, core: Core, op: PendingOperation, verdict: Verdict, faults: Faults): Core {
    var (persisted, ok) := FinishPersist(settings, core, op, verdict, faults);
    ClearIfCurrent(FinishTask(FinishVersions(persisted, op, ok), op, ok), op, faults)
  }

  // ---------------------------------------------------------------- status updates

  /** The experiment ended without a Fleet task: it timed out, or was aborted. */
  predicate LocallyTerminated(experiment: ExperimentStatus) {
    (experiment.phase.Terminated? && experiment.terminationReason == "timed_out") || experiment.phase.Aborted?
  }

  function RepairLocalTermination(core: Core, snapshot: Snapshot): Core {
    if snapshot.experiment.Some? && LocallyTerminated(snapshot.experiment.value) then
      core.(installer := Repair(core.installer, core.installer.packages, snapshot.experiment.value.id,
                                snapshot.experiment.value.startTaskID))
    else core
  }

  /** The task a snapshot finishes, if it finishes one. */
  function Finishes(snapshot: Snapshot): Option<PendingOperation> {
    match ParseSlot(snapshot.nsn, snapshot.annotations)
    case None => None
    case Some(op) => if Evaluate(snapshot, op).Unfinished? then None else Some(op)
  }

  function OnStatusUpdate(settings: Settings, core: Core, active: bool, snapshot: Snapshot, faults: Faults): Core {
    if active then core
    else
      var repaired := RepairLocalTermination(core, snapshot);
      match ParseSlot(snapshot.nsn, snapshot.annotations)
      case None => repaired
      case Some(op) =>
        var verdict := Evaluate(snapshot, op);
        if verdict.Unfinished? then ReportTask(repaired, op.packageName, op.taskID, RUNNING)
        else Finish(settings, repaired, op, verdict, faults)
  }

  // ---------------------------------------------------------------- restart

  function FreshPackages(settings: Settings): seq<PackageState> {
    [BlankPackage(OPERATOR_PACKAGE).(stableConfig := settings.initialVersion)]
  }

  /** The config versions a managed operator reports for what it finds on the cluster, or None
      when it refuses to report (the object belongs to another installation). */
  function RehydratedVersions(settings: Settings, core: Core): Option<(string, string)>
    requires settings.identity.Some?
  {
    if settings.target !in core.agents then Some(("", ""))
    else
      var agent := core.agents[settings.target];
      match ClassifyForRehydration(agent)
      case Conflicting => None
      case Unowned => Some((UNMANAGED, ""))
      case Owned =>
        if !BelongsTo(settings.identity, agent) then None
        else
          var configID := Label(agent, ConfigID);
          var stable := if !IsReady(agent) || Lookup(agent.annotations, ConfigHash) == ""
                        then PARTIAL_PREFIX + configID else configID;
          var experiment :=
            if agent.experiment.None? || agent.experiment.value.id == "" then ""
            else
              var exp := agent.experiment.value;
              if !IsTerminal(exp.phase) then exp.id
              else if exp.phase.Promoted? && configID != exp.id then exp.id
              else "";
          Some((stable, experiment))
  }

  /** Start-up without a managed installation: every unfinished experiment in the list of
      DatadogAgents is reported, so the last one listed stays. */
  function RehydrateLegacy(core: Core, listed: seq<NsName>): Core
    decreases |listed|
  {
    if listed == [] then core
    else
      var unfinished := listed[0] in core.agents && core.agents[listed[0]].experiment.Some?
                        && core.agents[listed[0]].experiment.value.id != ""
                        && !IsTerminal(core.agents[listed[0]].experiment.value.phase);
      RehydrateLegacy(if unfinished
                      then ReportExperiment(core, OPERATOR_PACKAGE, core.agents[listed[0]].experiment.value.id)
                      else core,
                      listed[1..])
  }

  /** The core after the process restarts: the cluster is what it was, the installer state is a
      new client's, updated from the cluster if the cluster can be read. `listed` is the order
      in which the API server lists the objects. */
  function Restart(settings: Settings, core: Core, readFails: bool, listed: seq<NsName>): Core {
    var started := core.(installer := Installer(FreshPackages(settings), core.installer.log));
    if readFails then started
    else if settings.identity.None? then RehydrateLegacy(started, listed)
    else
      match RehydratedVersions(settings, core)
      case None => started
      case Some((stable, experiment)) => ReportVersions(started, OPERATOR_PACKAGE, stable, experiment)
  }
}
