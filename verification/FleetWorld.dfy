/** The fleet daemon as a whole, as a machine of atomic steps: Remote Config tasks and status
    updates (each one transition under the transition lock), the installation intent worker,
    the background installation (one step for each API call), other API writers, and crashes. */
module FleetWorld {
  import opened Json
  import opened PendingSlot
  import opened Packages
  import opened DatadogAgent
  import opened Experiments
  import opened Installation

  // ---------------------------------------------------------------- state

  /** The mutex-guarded fields. `cancel` and `done` are the context and the completion channel
      of an accepted operation, named by its instance number. */
  datatype Flags = Flags(
    active: bool,
    reserved: bool,
    waiting: bool,
    operationID: string,
    cancel: Option<nat>,
    done: Option<nat>)

  /** Why the intent worker went back to waiting for a token. */
  datatype Park = Idle | Stopped | ForFleet(desired: Desired)

  /** Where the intent worker is. */
  datatype Worker =
    | Blocked(reason: Park)                                  // receiving from the update channel
    | Retrying                                               // after an error, before the next try
    | Reading                                                // about to read the intent
    | Checking(command: Command)                             // about to read and check the record
    | Reserving(command: Command, current: Option<Record>)   // uninstall: about to reserve the task slot
    | Refreshing(command: Command, current: Option<Record>)  // uninstall: about to refresh the updater tags
    | Concluded(command: Command, found: Record)           // the operation already has a result
    | Slotting(command: Command)                             // about to look at the running operation
    | Waiting(command: Command, instance: nat)               // for that operation to end
    | Rereading(command: Command)                            // about to read and check the record again
    | Commanding(command: Command)                           // about to enter the accepting transition
    | Accepted(command: Command, instance: nat)              // about to persist the acceptance
    | Acknowledging(command: Command, current: Option<Record>)
    | Confirming(found: Record)                            // about to persist the acknowledgement
    | Acknowledged(found: Record)

  /** How a background operation fails. */
  datatype Failure = CredentialMissing | Mismatch | Retryable | Permanent

  /** What to do when the record of a result has been written. */
  datatype Afterwards = ParkForCredential | TryAgain | GiveUp | Succeed

  datatype HashNext = ToPartial | ToProfile | ToRecovered
  datatype PartialReason = Installing | Retaining(cause: Failure)

  /** Where the background operation is; `held` is an object as it was read. */
  datatype Pc =
    | CheckCredentials
    | CheckTarget
    | GetExisting
    | Creating
    | CheckCreated(uid: nat, hash: string)
    | Recovering
    | CheckRecovered(uid: nat)
    | ReadForHash(uid: nat, hash: string, hashNext: HashNext)
    | PatchHash(held: Agent, hash: string, hashNext: HashNext)
    | ReadForPartial(uid: nat, why: PartialReason)
    | PatchPartial(held: Agent, why: PartialReason)
    | EnsureProfile(uid: nat, existing: bool)
    | ReadForReady(uid: nat, existing: bool)
    | PatchReady(uid: nat, held: Agent, existing: bool)
    | Completing(uid: nat)
    | CheckBeforeDelete
    | GetForDelete
    | RecheckBeforeDelete(uid: nat)
    | Deleting(uid: nat)
    | AwaitingAbsence(deleted: Option<nat>)
    | Failing(failure: Failure)
    | ReadRecord(result: TaskState, afterwards: Afterwards)
    | PatchRecord(result: TaskState, afterwards: Afterwards, readVersion: nat)
    | Recorded(result: TaskState, afterwards: Afterwards)
    | Finishing

  /** A running operation. */
  datatype Background = Background(instance: nat, command: Command, canceled: bool, pc: Pc)

  datatype World = World(
    settings: Settings,
    core: Core,
    configs: Configs,
    flags: Flags,
    token: bool,                   // the update channel, of capacity one
    due: bool,                     // the informer has not yet forwarded the last state of the target
    worker: Worker,
    background: Option<Background>,
    record: Option<Record>,
    recordVersion: nat,
    intent: Option<RawIntent>,
    observed: set<Snapshot>,       // every object state an informer may still deliver
    instances: nat,                // operations accepted so far
    closed: seq<nat>,              // completion channels closed so far, in order
    abandoned: set<nat>,           // operations a crash cut off
    nextUid: nat)

  /** What the environment decides in one step of the worker or of a background operation. */
  datatype Choice = Choice(
    fails: bool,                   // the call fails
    failure: Failure,              // how, when it does
    outcome: Outcome,              // what a write does
    holds: bool,                   // what a check the model leaves open says
    spec: Spec)                    // the spec the API server stores for a new object

  /** How far a status transition got before the process died. */
  datatype Stage = BeforeFinish | AfterPersist | AfterVersions | AfterTaskState

  /** What a restart meets: either read may fail, and the list has some order. */
  datatype Reload = Reload(agentsFail: bool, recordFails: bool, listed: seq<NsName>)

  datatype Step =
    | TaskStep(req: Request, faults: Faults)
    | StatusStep(snapshot: Snapshot, faults: Faults)
    | ConfigsStep(configs: Configs)
    | WorkerStep(choice: Choice)
    | BackgroundStep(choice: Choice)
    | InformerStep(latest: bool)                     // an event for the target is forwarded, of its last state or not
    | TimerStep                                      // a retry timer, an intent or a credential event
    | IntentStep(intent: Option<RawIntent>)          // the intent ConfigMap changes
    | WriterStep(nsn: NsName, agent: Option<Agent>)  // another API writer
    | CrashStep(reload: Reload)
    | StatusCrashStep(snapshot: Snapshot, faults: Faults, stage: Stage, reload: Reload)

  // ---------------------------------------------------------------- transitions on the flags

  /** finishManagedAgentInstallationTaskLocked: ends the operation with this ID, if it is the one
      that is active, and closes its completion channel. */
  function EndOperation(w: World, operationID: string): World {
    if w.flags.operationID != operationID then w
    else
      w.(flags := w.flags.(active := false, operationID := "", cancel := None, done := None),
         closed := if w.flags.done.Some? then w.closed + [w.flags.done.value] else w.closed)
  }

  function RequestRetryIfWaiting(w: World): World {
    w.(token := w.token || (w.settings.intentsEnabled && w.flags.waiting && !w.flags.active))
  }

  // ---------------------------------------------------------------- experiment steps

  function DoTask(w: World, req: Request, faults: Faults): World {
    w.(core := HandleTask(w.settings, w.core, w.configs, w.flags.active || w.flags.reserved, req, faults))
  }

  function DoStatus(w: World, snapshot: Snapshot, faults: Faults): World {
    var after := w.(core := OnStatusUpdate(w.settings, w.core, w.flags.active, snapshot, faults));
    if !w.flags.active && Finishes(snapshot).Some? then RequestRetryIfWaiting(after) else after
  }

  /** The part of a status transition that happened before a crash. */
  function StatusPrefix(settings: Settings, core: Core, active: bool, snapshot: Snapshot, faults: Faults, stage: Stage): Core {
    if active then core
    else
      var repaired := RepairLocalTermination(core, snapshot);
      match Finishes(snapshot)
      case None => repaired
      case Some(op) =>
        var (persisted, ok) := FinishPersist(settings, repaired, op, Evaluate(snapshot, op), faults);
        match stage
        case BeforeFinish => repaired
        case AfterPersist => persisted
        case AfterVersions => FinishVersions(persisted, op, ok)
        case AfterTaskState => FinishTask(FinishVersions(persisted, op, ok), op, ok)
  }

  // ---------------------------------------------------------------- the intent worker

  function ParkWorker(w: World, reason: Park): World {
    w.(worker := Blocked(reason))
  }

  /** managedAgentInstallationShouldWaitForFleet, with the API call failing or not. None is the
      error. */
  function ShouldWait(w: World, desired: Desired, fails: bool): Option<bool> {
    if desired.Installed? && Versions(w.core.installer.packages, OPERATOR_PACKAGE).1 != "" then Some(true)
    else if fails then None
    else if w.settings.target !in w.core.agents then Some(false)
    else
      var agent := w.core.agents[w.settings.target];
      if Slot(w.settings.target, agent).Some? then Some(true)
      else if desired.Absent? then Some(false)
      else Some(agent.experiment.Some? && !IsTerminal(agent.experiment.value.phase))
  }

  /** After an error the worker tries again, unless the intent was not found: then it waits. */
  function AfterError(w: World, choice: Choice): Worker {
    if w.intent.None? && choice.failure.Permanent? then Blocked(Idle) else Retrying
  }

  /** Reading the record, which looks up the intent that owns it. */
  predicate OwnerGone(w: World) {
    w.record.Some? && w.intent.None?
  }

  /** The accepting transition: wait for Fleet, refuse while an operation is active, or accept. */
  function HandleCommand(w: World, command: Command, fails: bool): World {
    match ShouldWait(w, command.intent.desired, fails)
    case None => w.(worker := Retrying)
    case Some(true) => w.(flags := w.flags.(waiting := true), worker := Blocked(ForFleet(command.intent.desired)))
    case Some(false) =>
      if w.flags.active then w.(flags := w.flags.(waiting := false), worker := Blocked(Stopped))
      else
        w.(flags := Flags(true, true, false, command.intent.operationID, Some(w.instances), Some(w.instances)),
           core := ReportTask(w.core, OPERATOR_PACKAGE, command.intent.operationID, RUNNING),
           instances := w.instances + 1,
           worker := Accepted(command, w.instances))
  }

  /** After the first check of the record: is there already a result, or must we run? */
  function Decide(w: World, command: Command, current: Option<Record>): World {
    w.(worker :=
         if current.Some? && current.value.operationID == command.intent.operationID && !current.value.taskState.RUNNING?
         then Concluded(command, current.value) else Slotting(command))
  }

  function WriteRecord(w: World, record: Record): World {
    w.(record := Some(record.(version := w.recordVersion + 1)), recordVersion := w.recordVersion + 1)
  }

  function FirstPc(desired: Desired): Pc {
    if desired.Installed? then CheckCredentials else CheckBeforeDelete
  }

  predicate TargetReady(w: World) {
    && w.settings.target in w.core.agents
    && var agent := w.core.agents[w.settings.target];
       Classify(agent) == Owned && BelongsTo(w.settings.identity, agent) && IsReady(agent)
  }

  function CheckRecord(w: World, command: Command, choice: Choice): World {
    if choice.fails then w.(worker := AfterError(w, choice))
    else if OwnerGone(w) then ParkWorker(w, Idle)
    else if !ValidProgress(w.record, command.intent, command.digest) then
      ParkWorker(w.(core := ReportTask(w.core, OPERATOR_PACKAGE, command.intent.operationID, INVALID_STATE)), Stopped)
    else if command.intent.desired.Installed? && command.intent.acknowledged != "" then
      if w.record.Some? && w.record.value.acknowledged == command.intent.acknowledged
      then w.(worker := Acknowledged(w.record.value))
      else w.(worker := Acknowledging(command, w.record))
    else if command.intent.desired.Absent? then w.(worker := Reserving(command, w.record))
    else Decide(w, command, w.record)
  }

  function Conclude(w: World, command: Command, current: Record): World {
    if current.taskState.DONE? then w.(worker := Commanding(command))
    else if current.taskState.RUNNING? then w.(worker := Retrying)
    else
      ParkWorker(w.(core := ReportTask(w.core, OPERATOR_PACKAGE, current.operationID, current.taskState),
               flags := w.flags.(reserved := false)), Idle)
  }

  /** waitForManagedAgentInstallationSlot, up to the point where it blocks: an uninstall cancels
      a different operation that is running. */
  function LookAtSlot(w: World, command: Command): World {
    if !w.flags.active then w.(worker := Rereading(command))
    else if w.flags.done.None? then w.(worker := Retrying)
    else
      var cancels := command.intent.desired.Absent? && command.intent.operationID != w.flags.operationID
                     && w.flags.cancel.Some?;
      w.(worker := Waiting(command, w.flags.done.value),
         background := if cancels && w.background.Some? then Some(w.background.value.(canceled := true)) else w.background)
  }

  function Reread(w: World, command: Command, choice: Choice): World {
    if choice.fails then w.(worker := AfterError(w, choice))
    else if OwnerGone(w) then ParkWorker(w, Idle)
    else if !ValidProgress(w.record, command.intent, command.digest) then ParkWorker(w, Stopped)
    else if w.record.Some? && w.record.value.operationID == command.intent.operationID && !w.record.value.taskState.RUNNING?
    then w.(worker := Concluded(command, w.record.value))
    else w.(worker := Commanding(command))
  }

  /** Persisting the acceptance: then the background operation starts; if that fails the
      operation ends and the task slot is released. */
  function PersistAcceptance(w: World, command: Command, instance: nat, choice: Choice): World {
    var written := if choice.outcome.Refused? then w else WriteRecord(w, RecordOf(command, RUNNING, 0));
    if choice.outcome.Landed? then
      ParkWorker(written.(background := Some(Background(instance, command, false, FirstPc(command.intent.desired)))), Idle)
    else if written.flags.operationID == command.intent.operationID then
      var ended := EndOperation(written, command.intent.operationID);
      ended.(flags := ended.flags.(reserved := false), worker := AfterError(w, choice))
    else written.(worker := AfterError(w, choice))
  }

  /** Everything that must hold before an install is acknowledged. */
  function CheckAcknowledgeable(w: World, command: Command, current: Option<Record>, choice: Choice): World {
    if current.None? || !current.value.desired.Installed? || current.value.operationID != command.intent.operationID
       || !current.value.taskState.DONE?
       || (current.value.acknowledged != "" && current.value.acknowledged != command.intent.operationID)
    then w.(worker := Retrying)
    else if choice.fails then w.(worker := Retrying)
    else if w.settings.target !in w.core.agents then ParkWorker(w, Idle)
    else
      var agent := w.core.agents[w.settings.target];
      if !InstallComplete(agent, agent.uid, current.value.operationID) then ParkWorker(w, Stopped)
      else if !choice.holds then w.(worker := Retrying)
      else w.(worker := Confirming(current.value))
  }

  function PersistAcknowledgement(w: World, current: Record, choice: Choice): World {
    var acknowledged := current.(acknowledged := current.operationID);
    var written := if choice.outcome.Refused? then w else WriteRecord(w, acknowledged);
    written.(worker := if choice.outcome.Landed? then Acknowledged(acknowledged) else AfterError(w, choice))
  }

  function ReleaseAfterAcknowledgement(w: World, current: Record, choice: Choice): World {
    if !current.desired.Installed? || !current.taskState.DONE? || current.acknowledged != current.operationID
    then w.(worker := Retrying)
    else if choice.fails || w.settings.target !in w.core.agents then w.(worker := Retrying)
    else if !TargetReady(w) then ParkWorker(w, Stopped)
    else if !choice.holds then w.(worker := Retrying)
    else
      w.(flags := w.flags.(reserved := false),
         worker := if choice.outcome.Landed? then Blocked(Idle) else AfterError(w, choice))
  }

  /** From waiting to the intent. */
  function WakeWorker(w: World, choice: Choice): World
    requires w.settings.identity.Some? && (w.worker.Blocked? || w.worker.Retrying? || w.worker.Reading?)
  {
    match w.worker
    case Blocked(_) => if w.token then w.(token := false, worker := Reading) else w
    case Retrying => w.(token := w.token && choice.holds, worker := Reading)
    case Reading =>
      if choice.fails then w.(worker := Retrying)
      else if w.intent.None? then ParkWorker(w, Idle)
      else
        match Decode(w.intent.value, w.settings.identity.value)
        case None => ParkWorker(w, Stopped)
        case Some(command) => w.(worker := Checking(command))
  }

  /** From the intent to what is to be done about it. */
  predicate Prepares(worker: Worker) {
    worker.Checking? || worker.Reserving? || worker.Refreshing? || worker.Concluded?
  }

  function PrepareWorker(w: World, choice: Choice): World
    requires Prepares(w.worker)
  {
    match w.worker
    case Checking(command) => CheckRecord(w, command, choice)
    case Reserving(command, current) =>
      w.(flags := w.flags.(reserved := true), worker := Refreshing(command, current))
    case Refreshing(command, current) =>
      if choice.fails then w.(worker := AfterError(w, choice)) else Decide(w, command, current)
    case Concluded(command, current) => Conclude(w, command, current)
  }

  /** From there to the operation in the background. */
  predicate Proceeds(worker: Worker) {
    worker.Slotting? || worker.Waiting? || worker.Rereading? || worker.Commanding? || worker.Accepted?
  }

  function ProceedWorker(w: World, choice: Choice): World
    requires Proceeds(w.worker)
  {
    match w.worker
    case Slotting(command) => LookAtSlot(w, command)
    case Waiting(command, instance) => if instance in w.closed then w.(worker := Rereading(command)) else w
    case Rereading(command) => Reread(w, command, choice)
    case Commanding(command) => HandleCommand(w, command, choice.fails)
    case Accepted(command, instance) => PersistAcceptance(w, command, instance, choice)
  }

  predicate Acknowledges(worker: Worker) {
    worker.Acknowledging? || worker.Confirming? || worker.Acknowledged?
  }

  function AcknowledgeWorker(w: World, choice: Choice): World
    requires Acknowledges(w.worker)
  {
    match w.worker
    case Acknowledging(command, current) => CheckAcknowledgeable(w, command, current, choice)
    case Confirming(current) => PersistAcknowledgement(w, current, choice)
    case Acknowledged(current) => ReleaseAfterAcknowledgement(w, current, choice)
  }

  function DoWorker(w: World, choice: Choice): World
    requires w.settings.identity.Some?
  {
    if Prepares(w.worker) then PrepareWorker(w, choice)
    else if Proceeds(w.worker) then ProceedWorker(w, choice)
    else if Acknowledges(w.worker) then AcknowledgeWorker(w, choice)
    else WakeWorker(w, choice)
  }

  // ---------------------------------------------------------------- the background operation

  function Goto(w: World, b: Background, pc: Pc): World {
    w.(background := Some(b.(pc := pc)))
  }

  /** Report the target as partially installed. */
  function PublishPartial(w: World, configID: string): World {
    w.(core := ReportVersions(w.core, OPERATOR_PACKAGE, PARTIAL_PREFIX + configID, ""))
  }

  function DesiredSpec(command: Command): Spec {
    Spec.Spec(command.intent.bootstrap.clusterName + "@" + command.intent.bootstrap.site, true)
  }

  /** validateManagedAgentInstallationTarget on what the API server holds: an absent target is
      fine, a target that is not ours is a mismatch. */
  predicate TargetUsable(w: World) {
    w.settings.target in w.core.agents ==>
      var agent := w.core.agents[w.settings.target];
      Classify(agent) == Owned && BelongsTo(w.settings.identity, agent)
  }

  datatype Replay = Accept | RecordHash(hash: string) | Refuse(failure: Failure)

  /** validateFleetDatadogAgentInstallReplay. `derives`: the live spec contains the desired one. */
  function ReplayOf(w: World, agent: Agent, command: Command, derives: bool): Replay {
    var configID := command.intent.operationID;
    if !OwnedWithConfig(agent, configID) then Refuse(Mismatch)
    else if Slot(w.settings.target, agent).Some? then Refuse(Mismatch)
    else if agent.experiment.Some? && !IsTerminal(agent.experiment.value.phase) then Refuse(Mismatch)
    else if agent.terminating then Refuse(Retryable)
    else if !agent.spec.fleetCredentials || !derives then Refuse(Mismatch)
    else if Lookup(agent.annotations, ConfigHash) == SpecHash(agent.spec) then Accept
    else if Label(agent, InstallState) == STATE_PARTIAL && Lookup(agent.annotations, CreateTaskID) == configID
            && Lookup(agent.annotations, ConfigHash) == SpecHash(DesiredSpec(command))
    then RecordHash(SpecHash(agent.spec))
    else Refuse(Mismatch)
  }

  function NewAgent(w: World, command: Command, spec: Spec): Agent {
    Agent(w.nextUid, 0,
          map[ManagedBy := FLEET_MANAGED, ConfigID := command.intent.operationID, InstallState := STATE_PARTIAL,
              Provider := command.intent.provider, InstallationID := command.intent.installationID,
              TargetID := command.intent.targetID],
          map[ConfigHash := SpecHash(DesiredSpec(command)), CreateTaskID := command.intent.operationID],
          spec, None, false)
  }

  /** What finding the object there already leads to. */
  function ReplayPc(replay: Replay, uid: nat, accepted: Pc, hashNext: HashNext): Pc {
    match replay
    case Accept => accepted
    case RecordHash(hash) => ReadForHash(uid, hash, hashNext)
    case Refuse(failure) => Failing(failure)
  }

  function ExistingPc(w: World, b: Background, choice: Choice): Pc {
    if choice.fails then Failing(choice.failure)
    else if w.settings.target !in w.core.agents then Creating
    else
      var agent := w.core.agents[w.settings.target];
      if !BelongsTo(w.settings.identity, agent) then Failing(Mismatch)
      else ReplayPc(ReplayOf(w, agent, b.command, choice.holds), agent.uid, ReadForPartial(agent.uid, Installing), ToPartial)
  }

  /** Create. When the object is already there, or the call failed in a way that may have
      created it, the object is recovered instead. */
  function DoCreate(w: World, b: Background, choice: Choice): World {
    if w.settings.target in w.core.agents then Goto(w, b, Recovering)
    else if choice.outcome.Refused? then
      Goto(w, b, if choice.failure.Permanent? then Failing(Permanent) else Recovering)
    else
      var created := w.(core := Put(w.core, w.settings.target, NewAgent(w, b.command, choice.spec)),
                        nextUid := w.nextUid + 1);
      if choice.outcome.Landed? then
        Goto(PublishPartial(created, b.command.intent.operationID), b, CheckCreated(w.nextUid, SpecHash(choice.spec)))
      else Goto(created, b, Recovering)
  }

  /** The object that is there is ours, from this operation. */
  predicate Recoverable(w: World, b: Background, choice: Choice) {
    && !choice.fails && w.settings.target in w.core.agents
    && var agent := w.core.agents[w.settings.target];
       OwnedWithConfig(agent, b.command.intent.operationID) && BelongsTo(w.settings.identity, agent)
  }

  function DoRecover(w: World, b: Background, choice: Choice): World {
    if !Recoverable(w, b, choice) then
      Goto(w, b, Failing(if choice.fails || w.settings.target !in w.core.agents then choice.failure else Mismatch))
    else
      var agent := w.core.agents[w.settings.target];
      Goto(PublishPartial(w, b.command.intent.operationID), b,
           ReplayPc(ReplayOf(w, agent, b.command, choice.holds), agent.uid, CheckRecovered(agent.uid), ToRecovered))
  }

  function AfterHash(uid: nat, hashNext: HashNext): Pc {
    match hashNext
    case ToPartial => ReadForPartial(uid, Installing)
    case ToProfile => EnsureProfile(uid, false)
    case ToRecovered => CheckRecovered(uid)
  }

  function ReadForHashPc(w: World, b: Background, uid: nat, hash: string, hashNext: HashNext, choice: Choice): Pc {
    if choice.fails then Failing(choice.failure)
    else if w.settings.target !in w.core.agents then Failing(Permanent)
    else
      var agent := w.core.agents[w.settings.target];
      if agent.uid != uid || !OwnedWithConfig(agent, b.command.intent.operationID)
         || !BelongsTo(w.settings.identity, agent) || SpecHash(agent.spec) != hash
      then Failing(Mismatch)
      else if Lookup(agent.annotations, ConfigHash) == hash then AfterHash(uid, hashNext)
      else PatchHash(agent, hash, hashNext)
  }

  /** A patch that carries the version it was computed from: None when it conflicts. */
  function LockedPut(w: World, held: Agent, patched: Agent, outcome: Outcome): Option<World> {
    if w.settings.target in w.core.agents && w.core.agents[w.settings.target].version == held.version
    then Some(w.(core := PutIf(w.core, outcome, w.settings.target, patched)))
    else None
  }

  function DoPatchHash(w: World, b: Background, held: Agent, hash: string, hashNext: HashNext, choice: Choice): World {
    match LockedPut(w, held, held.(annotations := held.annotations[ConfigHash := hash]), choice.outcome)
    case None => Goto(w, b, ReadForHash(held.uid, hash, hashNext))
    case Some(after) =>
      Goto(after, b, if choice.outcome.Landed? then AfterHash(held.uid, hashNext) else Failing(choice.failure))
  }

  /** Where marking partial leads: on with the install, or to the failure that caused it. */
  function AfterPartial(w: World, b: Background, uid: nat, configID: string, why: PartialReason): World {
    Goto(PublishPartial(w, configID), b, if why.Installing? then EnsureProfile(uid, true) else Failing(why.cause))
  }

  /** Marking partial fails: a mismatch outweighs the failure that caused it. */
  function PartialFailed(why: PartialReason, failure: Failure): Pc {
    Failing(if why.Installing? || failure.Mismatch? then failure else why.cause)
  }

  /** The object is ours, and marked partial already. */
  predicate FoundPartial(w: World, uid: nat, choice: Choice) {
    && !choice.fails && w.settings.target in w.core.agents
    && var agent := w.core.agents[w.settings.target];
       OursToMark(w, agent, uid) && Label(agent, InstallState) == STATE_PARTIAL
  }

  predicate OursToMark(w: World, agent: Agent, uid: nat) {
    agent.uid == uid && OwnedWithConfig(agent, "") && BelongsTo(w.settings.identity, agent)
  }

  function ReadForPartialPc(w: World, uid: nat, why: PartialReason, choice: Choice): Pc {
    if choice.fails then PartialFailed(why, choice.failure)
    else if w.settings.target !in w.core.agents then PartialFailed(why, Permanent)
    else if !OursToMark(w, w.core.agents[w.settings.target], uid) then PartialFailed(why, Mismatch)
    else PatchPartial(w.core.agents[w.settings.target], why)
  }

  function DoReadForPartial(w: World, b: Background, uid: nat, why: PartialReason, choice: Choice): World {
    if FoundPartial(w, uid, choice) then AfterPartial(w, b, uid, Label(w.core.agents[w.settings.target], ConfigID), why)
    else Goto(w, b, ReadForPartialPc(w, uid, why, choice))
  }

  function DoPatchPartial(w: World, b: Background, held: Agent, why: PartialReason, choice: Choice): World {
    match LockedPut(w, held, held.(labels := held.labels[InstallState := STATE_PARTIAL]), choice.outcome)
    case None => Goto(w, b, ReadForPartial(held.uid, why))
    case Some(after) =>
      if choice.outcome.Landed? then AfterPartial(after, b, held.uid, Label(held, ConfigID), why)
      else Goto(after, b, PartialFailed(why, choice.failure))
  }

  function ReadyFailed(uid: nat, existing: bool, failure: Failure): Pc {
    if existing then ReadForPartial(uid, Retaining(failure)) else Failing(failure)
  }

  /** The checks of markFleetDatadogAgentReady. */
  predicate MayBecomeReady(w: World, agent: Agent, uid: nat, configID: string) {
    agent.uid == uid && OwnedWithConfig(agent, configID) && BelongsTo(w.settings.identity, agent) && SpecAccepted(agent)
  }

  function ReadForReadyPc(w: World, b: Background, uid: nat, existing: bool, choice: Choice): Pc {
    if choice.fails then ReadyFailed(uid, existing, choice.failure)
    else if w.settings.target !in w.core.agents then ReadyFailed(uid, existing, Permanent)
    else
      var agent := w.core.agents[w.settings.target];
      if !MayBecomeReady(w, agent, uid, b.command.intent.operationID) then ReadyFailed(uid, existing, Mismatch)
      else if IsReady(agent) then Completing(uid)
      else PatchReady(uid, agent, existing)
  }

  function DoPatchReady(w: World, b: Background, uid: nat, held: Agent, existing: bool, choice: Choice): World {
    match LockedPut(w, held, held.(labels := held.labels[InstallState := STATE_READY]), choice.outcome)
    case None => Goto(w, b, ReadForReady(uid, existing))
    case Some(after) =>
      Goto(after, b, if choice.outcome.Landed? then Completing(uid) else ReadyFailed(uid, existing, choice.failure))
  }

  /** The last look before an install counts as done. */
  function CompletePc(w: World, b: Background, uid: nat, choice: Choice): Pc {
    if choice.fails then ReadForPartial(uid, Retaining(choice.failure))
    else if !TargetUsable(w) || w.settings.target !in w.core.agents
            || !InstallComplete(w.core.agents[w.settings.target], uid, b.command.intent.operationID)
    then ReadForPartial(uid, Retaining(Mismatch))
    else if !choice.holds then ReadForPartial(uid, Retaining(choice.failure))
    else ReadRecord(DONE, Succeed)
  }

  /** The steps of an install that only look at the cluster. */
  predicate OnlyLooks(pc: Pc) {
    || pc.CheckCredentials? || pc.CheckTarget? || pc.CheckCreated? || pc.CheckRecovered? || pc.EnsureProfile? || pc.Completing?
    || pc.GetExisting? || pc.ReadForHash? || pc.ReadForReady?
  }

  function LookPc(w: World, b: Background, choice: Choice): Pc
    requires OnlyLooks(b.pc)
  {
    match b.pc
    case CheckCredentials => if choice.fails then Failing(choice.failure) else CheckTarget
    case CheckTarget =>
      if choice.fails then Failing(choice.failure) else if !TargetUsable(w) then Failing(Mismatch) else GetExisting
    case GetExisting => ExistingPc(w, b, choice)
    case CheckCreated(uid, hash) =>
      if choice.fails then ReadForPartial(uid, Retaining(choice.failure))
      else if !TargetUsable(w) then ReadForPartial(uid, Retaining(Mismatch))
      else ReadForHash(uid, hash, ToProfile)
    case CheckRecovered(uid) =>
      if choice.fails then ReadForPartial(uid, Retaining(choice.failure))
      else if !TargetUsable(w) then ReadForPartial(uid, Retaining(Mismatch))
      else Failing(Retryable)
    case ReadForHash(uid, hash, hashNext) => ReadForHashPc(w, b, uid, hash, hashNext, choice)
    case EnsureProfile(uid, existing) =>
      if choice.fails then ReadForPartial(uid, Retaining(choice.failure)) else ReadForReady(uid, existing)
    case ReadForReady(uid, existing) => ReadForReadyPc(w, b, uid, existing, choice)
    case Completing(uid) => CompletePc(w, b, uid, choice)
  }

  /** The steps of an install that may also change it, or what is reported. */
  function DoChange(w: World, b: Background, choice: Choice): World
    requires !OnlyLooks(b.pc) && !IsUninstallPc(b.pc) && !IsRecordPc(b.pc)
  {
    match b.pc
    case Creating => DoCreate(w, b, choice)
    case Recovering => DoRecover(w, b, choice)
    case PatchHash(held, hash, hashNext) => DoPatchHash(w, b, held, hash, hashNext, choice)
    case ReadForPartial(uid, why) => DoReadForPartial(w, b, uid, why, choice)
    case PatchPartial(held, why) => DoPatchPartial(w, b, held, why, choice)
    case PatchReady(uid, held, existing) => DoPatchReady(w, b, uid, held, existing, choice)
  }

  function DoInstall(w: World, b: Background, choice: Choice): World
    requires !IsUninstallPc(b.pc) && !IsRecordPc(b.pc)
  {
    if OnlyLooks(b.pc) then Goto(w, b, LookPc(w, b, choice)) else DoChange(w, b, choice)
  }

  predicate IsUninstallPc(pc: Pc) {
    pc.CheckBeforeDelete? || pc.GetForDelete? || pc.RecheckBeforeDelete? || pc.Deleting? || pc.AwaitingAbsence?
  }

  /** From here on the operation only deals with its result. */
  predicate IsRecordPc(pc: Pc) {
    pc.Failing? || pc.ReadRecord? || pc.PatchRecord? || pc.Recorded? || pc.Finishing?
  }

  /** Delete with a UID precondition. A foreground deletion may leave the object terminating. */
  function DoDelete(w: World, b: Background, uid: nat, choice: Choice): World {
    var target := w.settings.target;
    if target !in w.core.agents then Goto(w, b, AwaitingAbsence(Some(uid)))
    else if w.core.agents[target].uid != uid || choice.outcome.Refused? then Goto(w, b, Failing(choice.failure))
    else
      var core := if choice.holds then w.core.(agents := w.core.agents - {target}, version := w.core.version + 1)
                  else Put(w.core, target, w.core.agents[target].(terminating := true));
      Goto(w.(core := core), b,
           if choice.outcome.Landed? then AwaitingAbsence(Some(uid)) else Failing(choice.failure))
  }

  /** The steps of an uninstall that only look at the cluster. */
  function UninstallPc(w: World, b: Background, choice: Choice): Pc
    requires IsUninstallPc(b.pc) && !b.pc.Deleting?
  {
    if choice.fails then Failing(choice.failure)
    else
      match b.pc
      case CheckBeforeDelete => if !TargetUsable(w) then Failing(Mismatch) else GetForDelete
      case GetForDelete =>
        if w.settings.target !in w.core.agents then AwaitingAbsence(None)
        else
          var agent := w.core.agents[w.settings.target];
          if Classify(agent) != Owned || !BelongsTo(w.settings.identity, agent) then Failing(Mismatch)
          else RecheckBeforeDelete(agent.uid)
      case RecheckBeforeDelete(uid) => if !TargetUsable(w) then Failing(Mismatch) else Deleting(uid)
      case AwaitingAbsence(deleted) =>
        if w.settings.target in w.core.agents then
          if deleted != Some(w.core.agents[w.settings.target].uid) then Failing(Mismatch) else AwaitingAbsence(deleted)
        else if choice.holds then ReadRecord(DONE, Succeed) else AwaitingAbsence(deleted)
  }

  function DoUninstall(w: World, b: Background, choice: Choice): World
    requires IsUninstallPc(b.pc)
  {
    if b.pc.Deleting? then DoDelete(w, b, b.pc.uid, choice) else Goto(w, b, UninstallPc(w, b, choice))
  }

  /** How a failed operation is recorded. */
  function RecordFailure(b: Background, failure: Failure): Pc {
    if failure.CredentialMissing? && !b.canceled then ReadRecord(RUNNING, ParkForCredential)
    else if !failure.Mismatch? && !failure.Permanent? && !b.canceled then ReadRecord(RUNNING, TryAgain)
    else ReadRecord(if failure.Mismatch? then INVALID_STATE else ERROR, GiveUp)
  }

  function DoRecorded(w: World, b: Background, result: TaskState, afterwards: Afterwards): World {
    var operationID := b.command.intent.operationID;
    match afterwards
    case ParkForCredential => Goto(w.(flags := w.flags.(reserved := false)), b, Finishing)
    case TryAgain => Goto(w, b, Finishing)
    case GiveUp =>
      Goto(w.(core := ReportTask(w.core, OPERATOR_PACKAGE, operationID, result),
              flags := w.flags.(reserved := false)), b, Finishing)
    case Succeed =>
      var versioned := ReportVersions(w.core, OPERATOR_PACKAGE,
                                      if b.command.intent.desired.Installed? then operationID else "", "");
      Goto(w.(core := ReportTask(versioned, OPERATOR_PACKAGE, operationID, DONE)), b, Finishing)
  }

  /** Recording the result: only over a record of the same operation, and only if the record has
      not changed since it was read. */
  function DoRecord(w: World, b: Background, choice: Choice): World
    requires IsRecordPc(b.pc)
  {
    match b.pc
    case Failing(failure) => Goto(w, b, RecordFailure(b, failure))
    case ReadRecord(result, afterwards) =>
      if choice.fails || w.record.None? then Goto(w, b, Finishing)
      else if w.record.value.operationID != b.command.intent.operationID then Goto(w, b, Recorded(result, afterwards))
      else Goto(w, b, PatchRecord(result, afterwards, w.record.value.version))
    case PatchRecord(result, afterwards, readVersion) =>
      if w.record.None? || choice.outcome.Refused? then Goto(w, b, Finishing)
      else if w.record.value.version != readVersion then Goto(w, b, ReadRecord(result, afterwards))
      else
        Goto(WriteRecord(w, RecordOf(b.command, result, 0)), b,
             if choice.outcome.Landed? then Recorded(result, afterwards) else Finishing)
    case Recorded(result, afterwards) => DoRecorded(w, b, result, afterwards)
    case Finishing => EndOperation(w.(background := None), b.command.intent.operationID)
  }

  function DoBackground(w: World, choice: Choice): World {
    match w.background
    case None => w
    case Some(b) =>
      if IsUninstallPc(b.pc) then DoUninstall(w, b, choice)
      else if IsRecordPc(b.pc) then DoRecord(w, b, choice)
      else DoInstall(w, b, choice)
  }

  // ---------------------------------------------------------------- environment steps

  /** Another writer may delete any object, and may do anything to objects except touch the five
      pending annotations. */
  predicate LegitimateWrite(w: World, nsn: NsName, agent: Option<Agent>) {
    agent.Some? ==>
      SamePendingKeys(if nsn in w.core.agents then w.core.agents[nsn].annotations else map[], agent.value.annotations)
  }

  function DoWrite(w: World, nsn: NsName, agent: Option<Agent>): World {
    w.(core := if agent.Some? then Put(w.core, nsn, agent.value)
               else w.core.(agents := w.core.agents - {nsn}, version := w.core.version + 1))
  }

  /** The process dies and starts again: the cluster and the record stay, everything in memory
      is rebuilt from them, and the informer starts with the objects there are. */
  function DoCrash(w: World, reload: Reload): World {
    var restarted := Restart(w.settings, w.core, reload.agentsFail, reload.listed);
    var unfinished := w.settings.intentsEnabled && !reload.recordFails && w.record.Some? && w.settings.identity.Some?
                      && w.record.value.provider == w.settings.identity.value.provider
                      && w.record.value.installationID == w.settings.identity.value.installationID
                      && w.record.value.targetID == w.settings.identity.value.targetID
                      && !w.record.value.taskState.DONE?;
    w.(core := if unfinished then ReportTask(restarted, OPERATOR_PACKAGE, w.record.value.operationID, w.record.value.taskState)
               else restarted,
       flags := Flags(false, w.settings.intentsEnabled && !(unfinished && !w.record.value.taskState.RUNNING?), false, "",
                      None, None),
       token := w.settings.intentsEnabled,
       due := true,
       worker := Blocked(Idle),
       background := None,
       abandoned := if w.flags.done.Some? then w.abandoned + {w.flags.done.value} else w.abandoned)
  }

  // ---------------------------------------------------------------- the machine

  predicate Enabled(w: World, step: Step) {
    match step
    case StatusStep(snapshot, _) => snapshot in w.observed
    case StatusCrashStep(snapshot, _, _, _) => snapshot in w.observed
    case WorkerStep(_) => w.settings.intentsEnabled && w.settings.identity.Some?
    case TimerStep => w.settings.intentsEnabled
    case WriterStep(nsn, agent) => LegitimateWrite(w, nsn, agent)
    case _ => true
  }

  function Perform(w: World, step: Step): World
    requires Enabled(w, step)
  {
    match step
    case TaskStep(req, faults) => DoTask(w, req, faults)
    case StatusStep(snapshot, faults) => DoStatus(w, snapshot, faults)
    case ConfigsStep(configs) => w.(configs := configs)
    case WorkerStep(choice) => DoWorker(w, choice)
    case BackgroundStep(choice) => DoBackground(w, choice)
    case InformerStep(latest) => RequestRetryIfWaiting(w.(due := w.due && !latest))
    case TimerStep => w.(token := true)
    case IntentStep(intent) => w.(intent := intent)
    case WriterStep(nsn, agent) => DoWrite(w, nsn, agent)
    case CrashStep(reload) => DoCrash(w, reload)
    case StatusCrashStep(snapshot, faults, stage, reload) =>
      DoCrash(w.(core := StatusPrefix(w.settings, w.core, w.flags.active, snapshot, faults, stage)), reload)
  }

  function Snapshots(core: Core): set<Snapshot> {
    set nsn | nsn in core.agents :: Snapshot(nsn, core.agents[nsn].annotations, core.agents[nsn].experiment)
  }

  /** The target is there, and not as it was. */
  predicate StoresTarget(w: World, core: Core) {
    && w.settings.target in core.agents
    && (w.settings.target in w.core.agents ==> core.agents[w.settings.target] != w.core.agents[w.settings.target])
  }

  /** What else comes of a step from w: every object state it produces may be delivered later, in
      any order and any number of times, and an event of a target it stored is due. */
  function Observe(w: World, after: World): World {
    after.(observed := after.observed + Snapshots(after.core), due := after.due || StoresTarget(w, after.core))
  }

  /** One step of the machine. */
  function Next(w: World, step: Step): World
    requires Enabled(w, step)
  {
    Observe(w, Perform(w, step))
  }

  /** A run: a sequence of worlds and the steps between them. */
  predicate IsRun(worlds: seq<World>, steps: seq<Step>) {
    && |worlds| == |steps| + 1
    && forall i :: 0 <= i < |steps| ==> Enabled(worlds[i], steps[i]) && worlds[i + 1] == Next(worlds[i], steps[i])
  }

  /** A start: nothing pending on any object, nothing recorded, no operation accepted. */
  predicate Init(w: World) {
    && (w.settings.intentsEnabled ==> w.settings.identity.Some?)
    && (w.settings.identity.Some? ==> w.settings.identity.value.provider == EKS)
    && UniqueNames(w.core.installer.packages)
    && w.core.installer.log == []
    && (forall i :: 0 <= i < |w.core.installer.packages| ==> w.core.installer.packages[i].experimentConfig == "")
    && (forall nsn :: nsn in w.core.agents ==>
          PendingAction !in w.core.agents[nsn].annotations && w.core.agents[nsn].version <= w.core.version)
    && w.flags == Flags(false, w.settings.intentsEnabled, false, "", None, None)
    && w.worker == Blocked(Idle) && w.background.None? && w.due
    && w.record.None?
    && w.observed == Snapshots(w.core)
    && w.instances == 0 && w.closed == [] && w.abandoned == {}
  }
}
