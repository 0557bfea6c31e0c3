/** The daemon's transitions as the methods they are: they update the cluster's objects, the
    installer state and the installation fields in place. Each does exactly what the step machine
    does in one step. */
module Daemon {
  import opened Json
  import opened PendingSlot
  import opened Packages
  import opened DatadogAgent
  import opened Experiments
  import opened Installation
  import opened FleetWorld

  /** What became of a task that was dispatched. */
  datatype Dispatched = Rejected(mismatch: bool) | Settled | Pending

  /** A plan carried out, up to the report of the task state. */
  function Executed(core: Core, plan: Plan, req: Request, faults: Faults): (Core, Dispatched) {
    match plan
    case Reject(mismatch) => (core, Rejected(mismatch))
    case Settle(settled) => (settled, Settled)
    case Write(op, patch) =>
      var (written, ok) := WriteOperation(core, req, op, patch, faults);
      (written, if ok then Pending else Rejected(false))
  }

  class FleetDaemon {
    const settings: Settings
    const rc: InstallerState
    var agents: map<NsName, Agent>
    var version: nat
    var configs: Configs
    var active: bool
    var reserved: bool
    var waiting: bool
    var operationID: string
    var cancel: Option<nat>
    var done: Option<nat>
    var token: bool
    var instances: nat
    var closed: seq<nat>

    /** A daemon that has just started on a cluster, before it looks at it. */
    constructor (settings: Settings, agents: map<NsName, Agent>, version: nat, configs: Configs)
      ensures this.settings == settings && fresh(rc) && rc.packages == FreshPackages(settings) && rc.log == []
      ensures this.agents == agents && this.version == version && this.configs == configs
      ensures Fields() == Flags(false, settings.intentsEnabled, false, "", None, None)
      ensures token == settings.intentsEnabled && instances == 0 && closed == []
    {
      this.settings := settings;
      rc := new InstallerState(FreshPackages(settings));
      this.agents, this.version, this.configs := agents, version, configs;
      active, reserved, waiting, operationID, cancel, done := false, settings.intentsEnabled, false, "", None, None;
      token, instances, closed := settings.intentsEnabled, 0, [];
    }

    ghost function State(): Core
      reads this, rc
    {
      Core(agents, version, rc.Value())
    }

    function Fields(): Flags
      reads this
    {
      Flags(active, reserved, waiting, operationID, cancel, done)
    }

    /** The state of the machine, with everything the daemon object does not hold taken from
        `rest`. */
    ghost function Whole(rest: World): World
      reads this, rc
    {
      rest.(settings := settings, core := State(), configs := configs, flags := Fields(), token := token,
            instances := instances, closed := closed)
    }

    // -------------------------------------------------------------- writing objects

    method Store(outcome: Outcome, nsn: NsName, agent: Agent)
      modifies `agents, `version
      ensures State() == PutIf(old(State()), outcome, nsn, agent)
    {
      if !outcome.Refused? {
        version := version + 1;
        agents := agents[nsn := agent.(version := version)];
      }
    }

    method PersistStable(nsn: NsName, experimentID: string, configID: string, outcome: Outcome) returns (ok: bool)
      modifies `agents, `version
      ensures (State(), ok) == Experiments.PersistStable(settings, old(State()), nsn, experimentID, configID, outcome)
    {
      if settings.identity.None? { return true; }
      if experimentID == "" || configID == "" || nsn !in agents { return false; }
      var agent := agents[nsn];
      if !BelongsTo(settings.identity, agent) || !OperationAllowed(nsn, agent, Promote) { return false; }
      if !HasPhase(agent, experimentID, Promoted) { return false; }
      var hash := SpecHash(agent.spec);
      if Label(agent, ConfigID) == configID && Lookup(agent.annotations, ConfigHash) == hash { return true; }
      Store(outcome, nsn, agent.(labels := agent.labels[ConfigID := configID],
                                 annotations := agent.annotations[ConfigHash := hash]));
      return outcome.Landed?;
    }

    method ApplyOperation(req: Request, op: PendingOperation, patch: Option<Json>, faults: Faults) returns (ok: bool)
      modifies `agents, `version
      ensures (State(), ok) == WriteOperation(old(State()), req, op, patch, faults)
    {
      if req.nsn !in agents { return false; }
      var agent := agents[req.nsn];
      var annotations := PatchAnnotations(agent.annotations, OperationPatch(patch, op));
      var labels := PatchLabels(agent.labels, OperationPatch(patch, op));
      if annotations.None? || labels.None? { return false; }
      var spec := if patch.Some? && op.intent.Start? then faults.specAfter else agent.spec;
      Store(faults.patch, req.nsn, agent.(annotations := annotations.value, labels := labels.value, spec := spec));
      return faults.patch.Landed?;
    }

    /** The operation is pending once its write succeeds. */
    method Submit(req: Request, op: PendingOperation, patch: Option<Json>, faults: Faults) returns (result: Dispatched)
      modifies `agents, `version
      ensures (State(), result) == Executed(old(State()), Write(op, patch), req, faults)
    {
      var ok := ApplyOperation(req, op, patch, faults);
      return if ok then Pending else Rejected(false);
    }

    method ClearPendingIfCurrent(op: PendingOperation, faults: Faults)
      modifies `agents, `version
      ensures State() == ClearIfCurrent(old(State()), op, faults)
    {
      if faults.clearReadFails || op.nsn !in agents { return; }
      var agent := agents[op.nsn];
      if Slot(op.nsn, agent) != Some(op) { return; }
      match PatchAnnotations(agent.annotations, ClearPatch()) {
        case None => return;
        case Some(annotations) => Store(faults.clear, op.nsn, agent.(annotations := annotations));
      }
    }

    // -------------------------------------------------------------- tasks

    method ReportExperimentVersion(package: string, experiment: string)
      modifies rc
      ensures State() == ReportExperiment(old(State()), package, experiment)
    {
      var stable, _ := rc.ReadVersions(package);
      rc.UpdateVersions(package, stable, experiment);
    }

    method StartExperiment(req: Request, faults: Faults) returns (result: Dispatched)
      modifies `agents, `version, rc
      ensures (State(), result) == Executed(old(State()), PlanStart(settings, old(State()), configs, req), req, faults)
    {
      if req.version == "" || req.version !in configs { return Rejected(false); }
      var operations := configs[req.version];
      if |operations| != 1 || !operations[0].isUpdate { return Rejected(false); }
      var config := operations[0].config;
      if settings.identity.Some? && !ManagedConfig(config) { return Rejected(false); }
      if req.nsn !in agents { return Rejected(false); }
      result := StartOn(req, config, faults);
    }

    method StartOn(req: Request, config: Option<Json>, faults: Faults) returns (result: Dispatched)
      requires req.nsn in agents
      modifies `agents, `version, rc
      ensures (State(), result) == Executed(old(State()), PlanStartOn(settings, old(State()), req, config), req, faults)
    {
      var agent := agents[req.nsn];
      if !ExperimentTarget(settings, req.nsn, agent) { return Rejected(true); }
      if HasPhase(agent, req.version, Running) {
        ReportExperimentVersion(req.package, req.version);
        return Settled;
      }
      result := SignalStart(req, config, faults);
    }

    /** The experiment is not running yet: its signal and the operation are written together, or the
        operation alone when the signal is already there. */
    method SignalStart(req: Request, config: Option<Json>, faults: Faults) returns (result: Dispatched)
      requires req.nsn in agents && ExperimentTarget(settings, req.nsn, agents[req.nsn])
      requires !HasPhase(agents[req.nsn], req.version, Running)
      modifies `agents, `version
      ensures (State(), result) == Executed(old(State()), PlanStartOn(settings, old(State()), req, config), req, faults)
    {
      var agent := agents[req.nsn];
      var op := NewOperation(Start, req, req.version, "");
      var signalled := Lookup(agent.annotations, ExperimentID) == req.version;
      if !signalled && RunningExperiment(agent) != "" { return Rejected(false); }
      if !GuardSlot(agent.annotations, req.nsn, op) { return Rejected(true); }
      var patch := if signalled then None else SignalPatch("start", req.version, config);
      if !signalled && patch.None? { return Rejected(false); }
      result := Submit(req, op, patch, faults);
    }

    method StopExperiment(req: Request, faults: Faults) returns (result: Dispatched)
      modifies `agents, `version, rc
      ensures (State(), result) == Executed(old(State()), PlanStop(settings, old(State()), req), req, faults)
    {
      if req.nsn !in agents { return Rejected(false); }
      var agent := agents[req.nsn];
      var _, reported := rc.ReadVersions(req.package);
      var experimentID := CurrentExperiment(agent, reported);
      if !ExperimentTarget(settings, req.nsn, agent) { return Rejected(true); }
      var nothingToStop := if agent.experiment.None?
                           then experimentID == "" || Lookup(agent.annotations, ExperimentSignal) != "start"
                           else IsTerminal(agent.experiment.value.phase);
      if nothingToStop {
        ReportExperimentVersion(req.package, "");
        return Settled;
      }
      if agent.experiment.Some? {
        var phase := agent.experiment.value.phase;
        if (!phase.Running? && !phase.NoPhase?) || experimentID == "" { return Rejected(false); }
      }
      var op := NewOperation(Stop, req, experimentID, "");
      if !GuardSlot(agent.annotations, req.nsn, op) { return Rejected(true); }
      result := Submit(req, op, SignalPatch("rollback", experimentID, None), faults);
    }

    method PromoteExperiment(req: Request, faults: Faults) returns (result: Dispatched)
      modifies `agents, `version, rc
      ensures var (plan, planned) := PlanPromote(settings, old(State()), req, faults);
              (State(), result) == Executed(planned, plan, req, faults)
    {
      var _, experiment := rc.ReadVersions(req.package);
      if experiment == "" || req.nsn !in agents { return Rejected(false); }
      var agent := agents[req.nsn];
      var experimentID := CurrentExperiment(agent, experiment);
      if !ExperimentTarget(settings, req.nsn, agent) { return Rejected(true); }
      if HasPhase(agent, experimentID, Promoted) {
        if settings.identity.Some? && faults.disturbed { return Rejected(true); }
        var persisted := PersistStable(req.nsn, experimentID, experiment, faults.persist);
        if !persisted { return Rejected(false); }
        rc.UpdateVersions(req.package, experiment, "");
        return Settled;
      }
      if !HasPhase(agent, experimentID, Running) { return Rejected(false); }
      var op := NewOperation(Promote, req, experimentID, experiment);
      if !GuardSlot(agent.annotations, req.nsn, op) { return Rejected(true); }
      result := Submit(req, op, SignalPatch("promote", experimentID, None), faults);
    }

    method Dispatch(req: Request, faults: Faults) returns (result: Dispatched)
      modifies `agents, `version, rc
      ensures var (plan, planned) := PlanTask(settings, old(State()), configs, req, faults);
              (State(), result) == Executed(planned, plan, req, faults)
    {
      if req.kind.UnknownTask? || !settings.revisionsEnabled || !ValidParams(req) || faults.readFails {
        return Rejected(false);
      }
      if req.kind.StartTask? {
        result := StartExperiment(req, faults);
      } else if req.kind.StopTask? {
        result := StopExperiment(req, faults);
      } else {
        result := PromoteExperiment(req, faults);
      }
    }

    /** One task, from arrival to dispatch. */
    method HandleTask(req: Request, faults: Faults, ghost rest: World)
      modifies `agents, `version, rc
      ensures Whole(rest) == DoTask(old(Whole(rest)), req, faults)
    {
      if active || reserved { return; }
      var stable, experiment := rc.ReadVersions(req.package);
      if req.expectedStable != stable || req.expectedExperiment != experiment {
        rc.UpdateTask(req.package, req.id, INVALID_STATE);
        return;
      }
      var result := Dispatch(req, faults);
      match result {
        case Rejected(mismatch) => rc.UpdateTask(req.package, req.id, if mismatch then INVALID_STATE else ERROR);
        case Settled => rc.UpdateTask(req.package, req.id, DONE);
        case Pending =>
      }
    }

    // -------------------------------------------------------------- status updates

    method RequestRetryIfWaiting(ghost rest: World)
      modifies `token
      ensures Whole(rest) == FleetWorld.RequestRetryIfWaiting(old(Whole(rest)))
    {
      if settings.intentsEnabled && waiting && !active {
        token := true;
      }
    }

    method FinishPendingOperation(op: PendingOperation, verdict: Verdict, faults: Faults)
      modifies `agents, `version, rc
      ensures State() == Finish(settings, old(State()), op, verdict, faults)
    {
      var ok := verdict.Succeeded?;
      if ok && op.intent.Promote? {
        ok := PersistStable(op.nsn, op.experimentID, op.resultVersion, faults.persist);
      }
      if ok {
        match op.intent {
          case Start => ReportExperimentVersion(op.packageName, op.experimentID);
          case Stop => ReportExperimentVersion(op.packageName, "");
          case Promote => rc.UpdateVersions(op.packageName, op.resultVersion, "");
        }
      }
      rc.UpdateTask(op.packageName, op.taskID, if ok then DONE else ERROR);
      ClearPendingIfCurrent(op, faults);
    }

    /** The experiment ended on its own: the packages that report it are repaired. */
    method ReconcileLocalTermination(snapshot: Snapshot)
      modifies rc
      ensures State() == RepairLocalTermination(old(State()), snapshot)
    {
      if snapshot.experiment.Some? && LocallyTerminated(snapshot.experiment.value) {
        rc.RepairTerminated(snapshot.experiment.value.id, snapshot.experiment.value.startTaskID);
      }
    }

    /** One status snapshot. */
    method OnStatusUpdate(snapshot: Snapshot, faults: Faults, ghost rest: World)
      modifies `agents, `version, `token, rc
      ensures Whole(rest) == DoStatus(old(Whole(rest)), snapshot, faults)
    {
      if active { return; }
      ReconcileLocalTermination(snapshot);
      match ParseSlot(snapshot.nsn, snapshot.annotations) {
        case None =>
        case Some(op) =>
          var verdict := Evaluate(snapshot, op);
          if verdict.Unfinished? {
            rc.UpdateTask(op.packageName, op.taskID, RUNNING);
          } else {
            FinishPendingOperation(op, verdict, faults);
            RequestRetryIfWaiting(rest);
          }
      }
    }

    // -------------------------------------------------------------- start-up

    /** Rebuilds the installer state from the cluster. `listed` is the API server's list. */
    method Rehydrate(readFails: bool, listed: seq<NsName>)
      requires rc.packages == FreshPackages(settings)
      modifies rc
      ensures State() == Restart(settings, old(State()), readFails, listed)
    {
      if readFails { return; }
      if settings.identity.None? {
        RehydrateAll(listed);
        return;
      }
      if settings.target !in agents {
        rc.UpdateVersions(OPERATOR_PACKAGE, "", "");
        return;
      }
      var agent := agents[settings.target];
      var ownership := ClassifyForRehydration(agent);
      if ownership == Conflicting { return; }
      if ownership == Unowned {
        rc.UpdateVersions(OPERATOR_PACKAGE, UNMANAGED, "");
        return;
      }
      if !BelongsTo(settings.identity, agent) { return; }
      var configID := Label(agent, ConfigID);
      var stable := configID;
      if !IsReady(agent) || Lookup(agent.annotations, ConfigHash) == "" {
        stable := PARTIAL_PREFIX + configID;
      }
      var experiment := "";
      if agent.experiment.Some? && agent.experiment.value.id != "" {
        var status := agent.experiment.value;
        if !IsTerminal(status.phase) || (status.phase.Promoted? && configID != status.id) {
          experiment := status.id;
        }
      }
      rc.UpdateVersions(OPERATOR_PACKAGE, stable, experiment);
    }

    method RehydrateAll(listed: seq<NsName>)
      modifies rc
      ensures State() == RehydrateLegacy(old(State()), listed)
    {
      for i := 0 to |listed|
        invariant RehydrateLegacy(State(), listed[i..]) == RehydrateLegacy(old(State()), listed)
      {
        assert listed[i..][0] == listed[i] && listed[i..][1..] == listed[i + 1..];
        if listed[i] in agents {
          var agent := agents[listed[i]];
          if agent.experiment.Some? && agent.experiment.value.id != "" && !IsTerminal(agent.experiment.value.phase) {
            ReportExperimentVersion(OPERATOR_PACKAGE, agent.experiment.value.id);
          }
        }
      }
    }

    // -------------------------------------------------------------- the installation fields

    method ShouldWaitForFleet(desired: Desired, fails: bool, ghost rest: World) returns (wait: Option<bool>)
      ensures wait == ShouldWait(Whole(rest), desired, fails)
    {
      if desired.Installed? {
        var _, experiment := rc.ReadVersions(OPERATOR_PACKAGE);
        if experiment != "" { return Some(true); }
      }
      if fails { return None; }
      if settings.target !in agents { return Some(false); }
      var agent := agents[settings.target];
      if Slot(settings.target, agent).Some? { return Some(true); }
      if desired.Absent? { return Some(false); }
      return Some(agent.experiment.Some? && !IsTerminal(agent.experiment.value.phase));
    }

    /** Sets the fields of a new operation, all of them, and reports it running. */
    method Accept(command: Command)
      modifies `active, `reserved, `operationID, `cancel, `done, `instances, rc
      ensures Fields() == Flags(true, true, waiting, command.intent.operationID, Some(old(instances)), Some(old(instances)))
      ensures instances == old(instances) + 1
      ensures State() == ReportTask(old(State()), OPERATOR_PACKAGE, command.intent.operationID, RUNNING)
    {
      active, reserved, operationID := true, true, command.intent.operationID;
      cancel, done := Some(instances), Some(instances);
      instances := instances + 1;
      rc.UpdateTask(OPERATOR_PACKAGE, command.intent.operationID, RUNNING);
    }

    /** The accepting transition. `next` is where the intent worker goes. */
    method HandleCommand(command: Command, fails: bool, ghost rest: World) returns (next: Worker)
      modifies `active, `reserved, `waiting, `operationID, `cancel, `done, `instances, rc
      ensures Whole(rest.(worker := next)) == FleetWorld.HandleCommand(old(Whole(rest)), command, fails)
    {
      var wait := ShouldWaitForFleet(command.intent.desired, fails, rest);
      if wait.None? { return Retrying; }
      if wait.value {
        waiting := true;
        return Blocked(ForFleet(command.intent.desired));
      }
      waiting := false;
      if active { return Blocked(Stopped); }
      Accept(command);
      return Accepted(command, instances - 1);
    }

    /** Ends the operation with this ID, if it is the active one. */
    method FinishTask(id: string, ghost rest: World) returns (ended: bool)
      modifies `active, `operationID, `cancel, `done, `closed
      ensures ended <==> old(operationID) == id
      ensures Whole(rest) == EndOperation(old(Whole(rest)), id)
    {
      if operationID != id { return false; }
      active := false;
      operationID := "";
      cancel := None;
      if done.Some? {
        closed := closed + [done.value];
        done := None;
      }
      return true;
    }
  }
}
