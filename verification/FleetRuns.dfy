/** Runs of the fleet machine that end in what its theorems except: each exception is reached from a
    start, by steps the code takes. */
module FleetRuns {
  import opened Json
  import opened PendingSlot
  import opened Packages
  import opened DatadogAgent
  import opened Experiments
  import opened ExperimentProofs
  import opened Installation
  import opened FleetWorld
  import opened FleetInvariants
  import opened FleetSteps
  import opened FleetTheorems
  import opened ReadyLabel
  import opened WakeUps

  /** A set of worlds that holds every start and every step from a world in it. */
  ghost predicate Closed(worlds: iset<World>) {
    && (forall w :: Init(w) ==> w in worlds)
    && (forall w, step :: w in worlds && Enabled(w, step) ==> Next(w, step) in worlds)
  }

  /** The worlds that are reached from a start: by ReachableByRun, the ends of runs. */
  ghost predicate Reachable(w: World) {
    forall worlds :: Closed(worlds) ==> w in worlds
  }

  ghost predicate EndsRun(w: World) {
    exists worlds, steps :: Run(worlds, steps) && worlds[|steps|] == w
  }

  /** A world is reachable exactly when some run from a start ends in it. */
  lemma ReachableByRun(w: World)
    ensures Reachable(w) <==> EndsRun(w)
  {
    if Reachable(w) {
      RunsAreClosed();
      assert w in iset v: World | EndsRun(v);
    }
    if EndsRun(w) {
      var worlds, steps :| Run(worlds, steps) && worlds[|steps|] == w;
      RunStaysInside(worlds, steps, |steps|);
    }
  }

  lemma RunsAreClosed()
    ensures Closed(iset v: World | EndsRun(v))
  {
    var ends := iset v: World | EndsRun(v);
    forall w | Init(w) ensures w in ends {
      assert Run([w], []);
    }
    forall w, step | w in ends && Enabled(w, step) ensures Next(w, step) in ends {
      EndsLongerRun(w, step);
    }
  }

  lemma EndsLongerRun(w: World, step: Step)
    requires EndsRun(w) && Enabled(w, step)
    ensures EndsRun(Next(w, step))
  {
    var worlds, steps :| Run(worlds, steps) && worlds[|steps|] == w;
    LongerRun(worlds, steps, step);
    var longer, further := worlds + [Next(w, step)], steps + [step];
    assert Run(longer, further) && longer[|further|] == Next(w, step);
  }

  lemma {:induction false} RunStaysInside(worlds: seq<World>, steps: seq<Step>, i: nat)
    requires Run(worlds, steps) && i <= |steps|
    ensures Reachable(worlds[i])
  {
    if i > 0 {
      RunStaysInside(worlds, steps, i - 1);
      assert Enabled(worlds[i - 1], steps[i - 1]);
    }
  }

  lemma ReachableStart(w: World)
    requires Init(w)
    ensures Reachable(w)
  {
  }

  lemma LongerRun(worlds: seq<World>, steps: seq<Step>, step: Step)
    requires Run(worlds, steps) && Enabled(worlds[|steps|], step)
    ensures Run(worlds + [Next(worlds[|steps|], step)], steps + [step])
  {
    var after := Next(worlds[|steps|], step);
    var longer, further := worlds + [after], steps + [step];
    forall i | 0 <= i < |further| ensures Enabled(longer[i], further[i]) && longer[i + 1] == Next(longer[i], further[i]) {
      if i < |steps| {
        assert longer[i] == worlds[i] && longer[i + 1] == worlds[i + 1] && further[i] == steps[i];
      }
    }
  }

  /** One step further along a run. */
  lemma Go(w: World, step: Step) returns (after: World)
    requires Reachable(w) && Enabled(w, step)
    ensures Reachable(after) && after == Next(w, step)
  {
    after := Next(w, step);
  }

  lemma GoWorker(w: World, choice: Choice) returns (after: World)
    requires Reachable(w) && w.settings.intentsEnabled && w.settings.identity.Some?
    ensures Reachable(after) && after == Observe(w, DoWorker(w, choice))
  {
    after := Go(w, WorkerStep(choice));
  }

  lemma GoBackground(w: World, choice: Choice) returns (after: World)
    requires Reachable(w)
    ensures Reachable(after) && after == Observe(w, DoBackground(w, choice))
  {
    after := Go(w, BackgroundStep(choice));
  }

  /** Steps of the background operation by the part of it they belong to. */
  lemma GoRecord(w: World, choice: Choice) returns (after: World)
    requires Reachable(w) && w.background.Some? && IsRecordPc(w.background.value.pc)
    ensures Reachable(after) && after == Observe(w, DoRecord(w, w.background.value, choice))
  {
    after := GoBackground(w, choice);
  }

  lemma GoInstall(w: World, choice: Choice) returns (after: World)
    requires Reachable(w) && w.background.Some? && !IsRecordPc(w.background.value.pc) && !IsUninstallPc(w.background.value.pc)
    ensures Reachable(after) && after == Observe(w, DoInstall(w, w.background.value, choice))
  {
    after := GoBackground(w, choice);
  }

  lemma GoTask(w: World, req: Request, faults: Faults) returns (after: World)
    requires Reachable(w)
    ensures Reachable(after) && after == Observe(w, DoTask(w, req, faults))
  {
    after := Go(w, TaskStep(req, faults));
  }

  lemma GoWrite(w: World, nsn: NsName, agent: Option<Agent>) returns (after: World)
    requires Reachable(w) && LegitimateWrite(w, nsn, agent)
    ensures Reachable(after) && after == Observe(w, DoWrite(w, nsn, agent))
  {
    after := Go(w, WriterStep(nsn, agent));
  }

  lemma GoIntent(w: World, intent: Option<RawIntent>) returns (after: World)
    requires Reachable(w)
    ensures Reachable(after) && after == Observe(w, w.(intent := intent))
  {
    after := Go(w, IntentStep(intent));
  }

  lemma GoConfigs(w: World, configs: Configs) returns (after: World)
    requires Reachable(w)
    ensures Reachable(after) && after == Observe(w, w.(configs := configs))
  {
    after := Go(w, ConfigsStep(configs));
  }

  lemma GoTimer(w: World) returns (after: World)
    requires Reachable(w) && w.settings.intentsEnabled
    ensures Reachable(after) && after == Observe(w, w.(token := true))
  {
    after := Go(w, TimerStep);
  }

  lemma GoInformer(w: World) returns (after: World)
    requires Reachable(w)
    ensures Reachable(after) && after == Observe(w, RequestRetryIfWaiting(w.(due := false)))
  {
    after := Go(w, InformerStep(true));
  }

  lemma ReachableHasInv(w: World)
    requires Reachable(w)
    ensures Inv(w)
  {
    ReachableByRun(w);
    var worlds, steps :| Run(worlds, steps) && worlds[|steps|] == w;
    FleetTheorems.ReachableInv(worlds, steps, |steps|);
  }

  // ---------------------------------------------------------------- the site

  /** A managed installation that takes intents and experiments. */
  predicate Site(settings: Settings) {
    && settings.identity.Some? && settings.identity.value.provider == EKS && settings.identity.value.installationID != ""
    && settings.intentsEnabled && settings.revisionsEnabled
    && settings.target.name != "" && settings.target.namespace != ""
  }

  const BOOTSTRAP := Bootstrap("c", "datadoghq.com")

  function Intended(identity: Identity, operationID: string, desired: Desired): RawIntent {
    EksIntent("v1", identity.installationID, identity.targetID, operationID, desired, "", BOOTSTRAP)
  }

  function CommandFor(identity: Identity, operationID: string, desired: Desired): Command {
    var intent := InstallIntent(EKS, identity.installationID, identity.targetID, operationID, desired, "", BOOTSTRAP);
    Command(intent, DigestOf(intent))
  }

  lemma Decodes(identity: Identity, operationID: string, desired: Desired)
    requires identity.provider == EKS && identity.installationID != "" && operationID != "" && !desired.OtherDesired?
    ensures Decode(Intended(identity, operationID, desired), identity) == Some(CommandFor(identity, operationID, desired))
  {
    assert "datadoghq.com" in ALLOWED_SITES;
  }

  /** Every call succeeds. */
  const FINE := Choice(false, Permanent, Landed, true, Spec.Spec("", false))
  const NO_CREDENTIAL := FINE.(fails := true, failure := CredentialMissing)
  const NO_FAULTS := Faults(false, false, Landed, Landed, false, Landed, Spec.Spec("", true))

  // ---------------------------------------------------------------- the worker at work

  /** Only the worker moved, and what it consumed. */
  predicate OnlyWorker(w: World, after: World) {
    after == w.(worker := after.worker, token := after.token, observed := after.observed) && w.observed <= after.observed
  }

  /** The intent in front of the worker is this command, and it may follow the record, which holds
      no result. */
  predicate InFront(w: World, command: Command) {
    && Site(w.settings) && w.intent.Some? && Decode(w.intent.value, w.settings.identity.value) == Some(command)
    && command.intent.acknowledged == "" && ValidProgress(w.record, command.intent, command.digest)
    && (w.record.Some? ==> w.record.value.taskState.RUNNING? || w.record.value.operationID != command.intent.operationID)
  }

  /** From a queued token to the point where the record has been checked. */
  lemma WakeUp(w: World, command: Command) returns (after: World)
    requires Reachable(w) && w.worker.Blocked? && w.token && InFront(w, command)
    ensures Reachable(after) && OnlyWorker(w, after) && after.worker == Checking(command) && !after.token
  {
    after := ReadIntent(w, command);
  }

  lemma ReadIntent(w: World, command: Command) returns (after: World)
    requires Reachable(w) && Site(w.settings) && w.worker.Blocked? && w.token
    requires w.intent.Some? && Decode(w.intent.value, w.settings.identity.value) == Some(command)
    ensures Reachable(after) && OnlyWorker(w, after) && after.worker == Checking(command) && !after.token
  {
    var reading := TakeToken(w);
    after := GoWorker(reading, FINE);
  }

  lemma TakeToken(w: World) returns (after: World)
    requires Reachable(w) && Site(w.settings) && w.worker.Blocked? && w.token
    ensures Reachable(after) && OnlyWorker(w, after) && after.worker == Reading && !after.token
  {
    after := GoWorker(w, FINE);
  }

  lemma ToSlotting(w: World, command: Command) returns (after: World)
    requires Reachable(w) && w.worker == Checking(command) && InFront(w, command) && command.intent.desired.Installed?
    ensures Reachable(after) && OnlyWorker(w, after) && after.worker == Slotting(command) && after.token == w.token
  {
    after := GoWorker(w, FINE);
  }

  lemma ToRereading(w: World, command: Command) returns (after: World)
    requires Reachable(w) && Site(w.settings) && w.worker == Slotting(command) && !w.flags.active
    ensures Reachable(after) && OnlyWorker(w, after) && after.worker == Rereading(command) && after.token == w.token
  {
    after := GoWorker(w, FINE);
  }

  lemma Reread(w: World, command: Command) returns (after: World)
    requires Reachable(w) && w.worker == Rereading(command) && InFront(w, command)
    ensures Reachable(after) && OnlyWorker(w, after) && after.worker == Commanding(command) && after.token == w.token
  {
    after := GoWorker(w, FINE);
  }

  /** With no operation active, on to the accepting transition. */
  lemma ToCommanding(w: World, command: Command) returns (after: World)
    requires Reachable(w) && w.worker == Slotting(command) && InFront(w, command) && !w.flags.active
    ensures Reachable(after) && OnlyWorker(w, after) && after.worker == Commanding(command) && after.token == w.token
  {
    var rereading := ToRereading(w, command);
    after := Reread(rereading, command);
  }

  lemma InstallCommanding(w: World, command: Command) returns (after: World)
    requires Reachable(w) && w.worker.Blocked? && w.token && InFront(w, command) && !w.flags.active
    requires command.intent.desired.Installed?
    ensures Reachable(after) && OnlyWorker(w, after) && after.worker == Commanding(command) && !after.token
  {
    var checking := WakeUp(w, command);
    var slotting := ToSlotting(checking, command);
    after := ToCommanding(slotting, command);
  }

  /** The worker, woken, parks: there is something to wait for. */
  predicate Parks(w: World, after: World, desired: Desired) {
    && after == w.(worker := after.worker, token := after.token, flags := w.flags.(waiting := true), observed := after.observed)
    && w.observed <= after.observed && Parked(after, desired)
  }

  lemma Park(w: World, command: Command) returns (after: World)
    requires Reachable(w) && w.worker == Commanding(command) && Site(w.settings) && !command.intent.desired.OtherDesired?
    requires MustWait(w, command.intent.desired)
    ensures Reachable(after) && Parks(w, after, command.intent.desired) && after.token == w.token
  {
    MustWaitIsShouldWait(w, command.intent.desired);
    after := GoWorker(w, FINE);
  }

  lemma InstallParks(w: World, command: Command) returns (after: World)
    requires Reachable(w) && w.worker.Blocked? && w.token && InFront(w, command) && !w.flags.active
    requires command.intent.desired.Installed? && MustWait(w, Installed)
    ensures Reachable(after) && Parks(w, after, Installed) && !after.token
  {
    var commanding := InstallCommanding(w, command);
    after := Park(commanding, command);
  }

  // ---------------------------------------------------------------- an install without credentials

  const INSTALL_ID := "install"
  const UNINSTALL_ID := "uninstall"
  const EXPERIMENT := "e"

  function TheInstall(settings: Settings): Command
    requires settings.identity.Some?
  {
    CommandFor(settings.identity.value, INSTALL_ID, Installed)
  }

  function TheUninstall(settings: Settings): Command
    requires settings.identity.Some?
  {
    CommandFor(settings.identity.value, UNINSTALL_ID, Absent)
  }

  /** A start on an empty cluster, with a wake-up queued. */
  function StartWorld(settings: Settings): World {
    World(settings, Core(map[], 0, Installer(FreshPackages(settings), [])), map[],
          Flags(false, settings.intentsEnabled, false, "", None, None), true, true, Blocked(Idle), None, None, 0, None, {}, 0, [],
          {}, 0)
  }

  lemma Starts(settings: Settings)
    requires Site(settings)
    ensures Reachable(StartWorld(settings))
  {
    ReachableStart(StartWorld(settings));
  }

  /** The install is accepted and running. */
  predicate InstallRuns(w: World) {
    && Site(w.settings) && w.core.agents == map[] && w.worker == Blocked(Idle) && w.flags.active && !w.token
    && w.intent == Some(Intended(w.settings.identity.value, INSTALL_ID, Installed))
    && w.record.Some? && w.record.value == RecordOf(TheInstall(w.settings), RUNNING, w.record.value.version)
    && w.background.Some? && w.background.value.command == TheInstall(w.settings)
    && w.background.value.pc == CheckCredentials && !w.background.value.canceled && !VersionHolds(w)
  }

  /** The install, about to be accepted. */
  predicate AboutToAccept(w: World) {
    && Site(w.settings) && w.core == StartWorld(w.settings).core && w.worker == Commanding(TheInstall(w.settings))
    && !w.flags.active && !w.token && w.background.None? && w.record.None?
    && w.intent == Some(Intended(w.settings.identity.value, INSTALL_ID, Installed))
  }

  lemma ComeToAccept(settings: Settings) returns (after: World)
    requires Site(settings)
    ensures Reachable(after) && after.settings == settings && AboutToAccept(after)
  {
    Starts(settings);
    Decodes(settings.identity.value, INSTALL_ID, Installed);
    var intended := GoIntent(StartWorld(settings), Some(Intended(settings.identity.value, INSTALL_ID, Installed)));
    after := InstallCommanding(intended, TheInstall(settings));
  }

  /** Accepted, and about to be persisted. */
  predicate JustAccepted(w: World) {
    && Site(w.settings) && w.core.agents == map[] && w.flags.active && !w.token && w.background.None?
    && w.worker.Accepted? && w.worker.command == TheInstall(w.settings) && !VersionHolds(w)
    && w.intent == Some(Intended(w.settings.identity.value, INSTALL_ID, Installed))
  }

  lemma AcceptIt(w: World) returns (after: World)
    requires Reachable(w) && AboutToAccept(w)
    ensures Reachable(after) && after.settings == w.settings && JustAccepted(after)
  {
    NothingToWaitFor(w);
    GetAfterSet(w.core.installer.packages, OPERATOR_PACKAGE, OPERATOR_PACKAGE, "", "", Task(INSTALL_ID, RUNNING));
    after := GoWorker(w, FINE);
  }

  lemma PersistIt(w: World) returns (after: World)
    requires Reachable(w) && JustAccepted(w)
    ensures Reachable(after) && after.settings == w.settings && InstallRuns(after)
  {
    after := GoWorker(w, FINE);
  }

  lemma RunInstall(settings: Settings) returns (after: World)
    requires Site(settings)
    ensures Reachable(after) && after.settings == settings && InstallRuns(after)
  {
    var commanding := ComeToAccept(settings);
    var accepted := AcceptIt(commanding);
    after := PersistIt(accepted);
  }

  lemma NothingToWaitFor(w: World)
    requires w.core.agents == map[] && w.core.installer.packages == FreshPackages(w.settings)
    ensures ShouldWait(w, Installed, false) == Some(false)
  {
  }

  /** The install has given up for want of a credential: its record is RUNNING, and the task slot is
      no longer reserved. */
  predicate LacksCredential(w: World) {
    AtRest(w) && w.core.agents == map[] && !VersionHolds(w)
  }

  /** Nothing is active or reserved, and an unfinished install is on record and in front of the
      worker, which is parked. */
  predicate AtRest(w: World) {
    && Site(w.settings) && w.worker.Blocked? && w.background.None? && !w.flags.active && !w.flags.reserved
    && w.intent == Some(Intended(w.settings.identity.value, INSTALL_ID, Installed))
    && w.record.Some? && w.record.value == RecordOf(TheInstall(w.settings), RUNNING, w.record.value.version)
  }

  lemma AtRestInFront(w: World)
    requires AtRest(w)
    ensures InFront(w, TheInstall(w.settings))
  {
    Decodes(w.settings.identity.value, INSTALL_ID, Installed);
  }

  /** The background operation moves on to a place, and nothing else changes. */
  predicate MovedOn(w: World, after: World, pc: Pc) {
    && w.background.Some?
    && after == w.(background := Some(w.background.value.(pc := pc)), observed := after.observed)
  }

  lemma LookOn(w: World, choice: Choice) returns (after: World)
    requires Reachable(w) && w.background.Some? && OnlyLooks(w.background.value.pc)
    ensures Reachable(after) && MovedOn(w, after, LookPc(w, w.background.value, choice))
  {
    LooksMoveOn(w, w.background.value, choice);
    after := GoInstall(w, choice);
  }

  lemma LooksMoveOn(w: World, b: Background, choice: Choice)
    requires OnlyLooks(b.pc) && w.background == Some(b)
    ensures MovedOn(w, Observe(w, DoInstall(w, b, choice)), LookPc(w, b, choice))
  {
  }

  lemma CheckFails(w: World) returns (after: World)
    requires Reachable(w) && w.background.Some? && w.background.value.pc == CheckCredentials
    ensures Reachable(after) && MovedOn(w, after, Failing(CredentialMissing))
  {
    after := LookOn(w, NO_CREDENTIAL);
  }

  lemma FailureIsRecorded(w: World) returns (after: World)
    requires Reachable(w) && w.background.Some? && w.background.value.pc.Failing?
    ensures Reachable(after) && MovedOn(w, after, RecordFailure(w.background.value, w.background.value.pc.failure))
  {
    after := GoRecord(w, FINE);
  }

  lemma RecordIsRead(w: World, result: TaskState, afterwards: Afterwards) returns (after: World)
    requires Reachable(w) && w.background.Some? && w.background.value.pc == ReadRecord(result, afterwards)
    requires w.record.Some? && w.record.value.operationID == w.background.value.command.intent.operationID
    ensures Reachable(after) && MovedOn(w, after, PatchRecord(result, afterwards, w.record.value.version))
  {
    after := GoRecord(w, FINE);
  }

  /** The credential is missing. */
  lemma FailForCredential(w: World) returns (after: World)
    requires Reachable(w) && w.background.Some? && w.background.value.pc == CheckCredentials && !w.background.value.canceled
    requires w.record.Some? && w.record.value.operationID == w.background.value.command.intent.operationID
    ensures Reachable(after) && MovedOn(w, after, PatchRecord(RUNNING, ParkForCredential, w.record.value.version))
  {
    var failing := CheckFails(w);
    var reading := FailureIsRecorded(failing);
    after := RecordIsRead(reading, RUNNING, ParkForCredential);
  }

  /** The result is on record. */
  lemma RecordIt(w: World, result: TaskState, afterwards: Afterwards) returns (after: World)
    requires Reachable(w) && w.background.Some? && w.record.Some?
    requires w.background.value.pc == PatchRecord(result, afterwards, w.record.value.version)
    ensures Reachable(after) && after.record == Some(RecordOf(w.background.value.command, result, w.recordVersion + 1))
    ensures after == w.(record := after.record, recordVersion := w.recordVersion + 1, observed := after.observed,
                        background := Some(w.background.value.(pc := Recorded(result, afterwards))))
  {
    after := GoRecord(w, FINE);
  }

  /** Without a credential the task slot is released. */
  lemma ReleaseForCredential(w: World) returns (after: World)
    requires Reachable(w) && w.background.Some? && w.background.value.pc == Recorded(RUNNING, ParkForCredential)
    ensures Reachable(after) && MovedOn(w.(flags := w.flags.(reserved := false)), after, Finishing)
  {
    after := GoRecord(w, FINE);
  }

  lemma FinishIt(w: World) returns (after: World)
    requires Reachable(w) && w.background.Some? && w.background.value.pc == Finishing
    requires w.flags.operationID == w.background.value.command.intent.operationID
    requires w.flags.done == Some(w.background.value.instance)
    ensures Reachable(after) && after.flags == Flags(false, w.flags.reserved, w.flags.waiting, "", None, None)
    ensures after.closed == w.closed + [w.background.value.instance]
    ensures after == w.(flags := after.flags, background := None, closed := after.closed, observed := after.observed)
  {
    after := GoRecord(w, FINE);
  }

  lemma LackCredential(w: World) returns (after: World)
    requires Reachable(w) && InstallRuns(w)
    ensures Reachable(after) && after.settings == w.settings && LacksCredential(after)
  {
    assert FlagsOK(w) by { ReachableHasInv(w); }
    Decodes(w.settings.identity.value, INSTALL_ID, Installed);
    var patching := FailForCredential(w);
    var recorded := RecordIt(patching, RUNNING, ParkForCredential);
    var finishing := ReleaseForCredential(recorded);
    after := FinishIt(finishing);
  }

  // ---------------------------------------------------------------- the target and its experiment

  const RUNNING_STATUS := ExperimentStatus(EXPERIMENT, Running, "s", "")
  const TIMED_OUT_STATUS := ExperimentStatus(EXPERIMENT, Terminated, "s", "timed_out")
  const STOPPED_STATUS := ExperimentStatus(EXPERIMENT, Terminated, "s", "stopped")
  const THE_SPEC := Spec.Spec("", true)
  const PROMOTED_STATUS := ExperimentStatus(EXPERIMENT, Promoted, "s", "")

  /** A ready object of this installation, with the signal of the experiment on it, and the
      experiment as its config once that is promoted. */
  function TheAgent(settings: Settings, experiment: Option<ExperimentStatus>): Agent
    requires settings.identity.Some?
  {
    Agent(0, 0,
          map[ManagedBy := FLEET_MANAGED, ConfigID := if experiment == Some(PROMOTED_STATUS) then EXPERIMENT else INSTALL_ID,
              InstallState := STATE_READY, Provider := EKS, InstallationID := settings.identity.value.installationID,
              TargetID := settings.identity.value.targetID],
          map[ConfigHash := SpecHash(THE_SPEC), ExperimentSignal := "start", ExperimentID := EXPERIMENT],
          THE_SPEC, experiment, false)
  }

  predicate Target(w: World, experiment: Option<ExperimentStatus>)
    requires w.settings.identity.Some?
  {
    && w.settings.target in w.core.agents
    && var agent := w.core.agents[w.settings.target];
       agent == TheAgent(w.settings, experiment).(version := agent.version)
  }

  /** It is a target for experiments, and no task is pending on it. */
  lemma TargetIsReady(w: World, experiment: Option<ExperimentStatus>)
    requires Site(w.settings) && Target(w, experiment)
    ensures var agent := w.core.agents[w.settings.target];
            && ExperimentTarget(w.settings, w.settings.target, agent) && OperationAllowed(w.settings.target, agent, Promote)
            && BelongsTo(w.settings.identity, agent) && !SlotHolds(w)
  {
    var agent := w.core.agents[w.settings.target];
    assert Lookup(agent.annotations, PendingAction) == "";
  }

  /** Another writer creates the target, or moves its experiment. */
  lemma WriteTarget(w: World, experiment: Option<ExperimentStatus>) returns (after: World)
    requires Reachable(w) && Site(w.settings)
    requires w.settings.target in w.core.agents ==> exists was :: Target(w, was)
    ensures Reachable(after) && after == w.(core := after.core, due := after.due, observed := after.observed)
    ensures w.settings.target in w.core.agents && LocksOK(w) ==> after.due
    ensures after.core.installer == w.core.installer && Target(after, experiment)
    ensures Snapshot(w.settings.target, after.core.agents[w.settings.target].annotations, experiment) in after.observed
  {
    after := GoWrite(w, w.settings.target, Some(TheAgent(w.settings, experiment)));
  }

  lemma WakeAndPark(w: World) returns (after: World)
    requires Reachable(w) && AtRest(w) && MustWait(w, Installed)
    ensures Reachable(after) && AtRest(after) && Parked(after, Installed) && !after.token && after.flags.waiting
    ensures after.core == w.core && after.settings == w.settings && after.configs == w.configs && w.observed <= after.observed
  {
    var woken := GoTimer(w);
    AtRestInFront(woken);
    after := InstallParks(woken, TheInstall(w.settings));
  }

  /** An informer event wakes a parked install, which parks again while there is something to wait
      for. */
  lemma InformAndPark(w: World) returns (after: World)
    requires Reachable(w) && AtRest(w) && w.flags.waiting && MustWait(w, Installed)
    ensures Reachable(after) && AtRest(after) && Parked(after, Installed) && !after.token && !after.due
    ensures after.core == w.core && after.settings == w.settings && after.configs == w.configs && w.observed <= after.observed
  {
    var woken := GoInformer(w);
    AtRestInFront(woken);
    after := InstallParks(woken, TheInstall(w.settings));
  }

  const CONFIGS: Configs := map[EXPERIMENT := [ConfigOperation(true, Some(Obj(map[])))]]

  function TaskFor(w: World, id: string, kind: TaskKind): Request {
    var (stable, experiment) := Versions(w.core.installer.packages, OPERATOR_PACKAGE);
    Request(id, OPERATOR_PACKAGE, stable, experiment, kind, EXPERIMENT, "DatadogAgent", w.settings.target)
  }

  lemma ReachableUnique(w: World)
    requires Reachable(w)
    ensures UniqueNames(w.core.installer.packages)
  {
    ReachableHasInv(w);
  }

  /** A task whose plan is settled. */
  lemma TaskSettles(w: World, req: Request, settled: Core)
    requires !w.flags.active && !w.flags.reserved
    requires (req.expectedStable, req.expectedExperiment) == Versions(w.core.installer.packages, req.package)
    requires PlanTask(w.settings, w.core, w.configs, req, NO_FAULTS).0 == Settle(settled)
    ensures DoTask(w, req, NO_FAULTS) == w.(core := ReportTask(settled, req.package, req.id, DONE))
  {
  }

  lemma StartIsSettled(w: World)
    requires Site(w.settings) && Target(w, Some(RUNNING_STATUS)) && w.configs == CONFIGS
    ensures PlanTask(w.settings, w.core, w.configs, TaskFor(w, "s", StartTask), NO_FAULTS).0
            == Settle(ReportExperiment(w.core, OPERATOR_PACKAGE, EXPERIMENT))
  {
    TargetIsReady(w, Some(RUNNING_STATUS));
  }

  /** A start of an experiment that already runs settles at once and reports its version. */
  lemma StartSettles(w: World) returns (after: World)
    requires Reachable(w) && AtRest(w) && Target(w, Some(RUNNING_STATUS))
    ensures Reachable(after) && AtRest(after) && Target(after, Some(RUNNING_STATUS))
    ensures Versions(after.core.installer.packages, OPERATOR_PACKAGE).1 == EXPERIMENT && after.settings == w.settings
  {
    var configured := GoConfigs(w, CONFIGS);
    var req := TaskFor(configured, "s", StartTask);
    ReachableUnique(configured);
    StartIsSettled(configured);
    TaskSettles(configured, req, ReportExperiment(configured.core, OPERATOR_PACKAGE, EXPERIMENT));
    StartedVersion(configured.core);
    after := GoTask(configured, req, NO_FAULTS);
  }

  lemma StartedVersion(core: Core)
    requires UniqueNames(core.installer.packages)
    ensures var after := ReportTask(ReportExperiment(core, OPERATOR_PACKAGE, EXPERIMENT), OPERATOR_PACKAGE, "s", DONE);
            Versions(after.installer.packages, OPERATOR_PACKAGE).1 == EXPERIMENT && after.agents == core.agents
  {
    var stable := Versions(core.installer.packages, OPERATOR_PACKAGE).0;
    GetAfterSet(core.installer.packages, OPERATOR_PACKAGE, OPERATOR_PACKAGE, stable, EXPERIMENT, Task("", RUNNING));
    SetVersionsRefinesMap(core.installer.packages, OPERATOR_PACKAGE, stable, EXPERIMENT);
    GetAfterSet(WithVersions(core.installer.packages, OPERATOR_PACKAGE, stable, EXPERIMENT), OPERATOR_PACKAGE,
                OPERATOR_PACKAGE, "", "", Task("s", DONE));
  }

  // ---------------------------------------------------------------- installs that are stranded

  /** An install parked for the experiment version that is reported; the status shows the experiment
      as given. */
  predicate ParkedForVersion(w: World, status: ExperimentStatus) {
    && AtRest(w) && Parked(w, Installed) && !w.token && Target(w, Some(status))
    && Versions(w.core.installer.packages, OPERATOR_PACKAGE).1 == EXPERIMENT
  }

  lemma NoCredential(settings: Settings) returns (after: World)
    requires Site(settings)
    ensures Reachable(after) && after.settings == settings && LacksCredential(after)
  {
    var running := RunInstall(settings);
    after := LackCredential(running);
  }

  lemma ParkForVersion(settings: Settings) returns (after: World)
    requires Site(settings)
    ensures Reachable(after) && after.settings == settings && ParkedForVersion(after, RUNNING_STATUS)
  {
    var lacking := NoCredential(settings);
    var written := WriteTarget(lacking, Some(RUNNING_STATUS));
    var started := StartSettles(written);
    after := WakeAndPark(started);
  }

  /** The experiment ends; the informer wakes the worker, which parks again: the version is still
      reported. */
  lemma ExperimentEnds(settings: Settings, status: ExperimentStatus) returns (after: World)
    requires Site(settings)
    ensures Reachable(after) && after.settings == settings && ParkedForVersion(after, status) && !after.due
    ensures Snapshot(settings.target, after.core.agents[settings.target].annotations, Some(status)) in after.observed
  {
    var parked := ParkForVersion(settings);
    assert parked.flags.waiting by { ReachableHasInv(parked); }
    var ended := WriteTarget(parked, Some(status));
    after := InformAndPark(ended);
  }

  /** A step that strands a worker, at the end of a run. */
  lemma Strand(w: World, step: Step, desired: Desired)
    requires Reachable(w) && Enabled(w, step) && (desired.Installed? || desired.Absent?) && Strands(w, step, desired)
    ensures Stranded(Next(w, step), desired)
  {
    ReachableHasInv(w);
    StrandsIff(w, step, desired);
  }

  lemma OnlyVersionHolds(w: World, status: ExperimentStatus)
    requires ParkedForVersion(w, status) && IsTerminal(status.phase) && !w.due
    ensures OnlyVersion(w, Installed)
  {
    TargetIsReady(w, Some(status));
  }

  /** A run in which the repair after a local termination strands an install. */
  lemma StrandedByRepair(settings: Settings) returns (w: World, step: Step)
    requires Site(settings)
    ensures Reachable(w) && w.settings == settings && Enabled(w, step) && step.StatusStep?
    ensures Strands(w, step, Installed) && Stranded(Next(w, step), Installed)
  {
    w := ExperimentEnds(settings, TIMED_OUT_STATUS);
    var snapshot := Snapshot(settings.target, w.core.agents[settings.target].annotations, Some(TIMED_OUT_STATUS));
    step := StatusStep(snapshot, NO_FAULTS);
    OnlyVersionHolds(w, TIMED_OUT_STATUS);
    assert Finishes(snapshot).None?;
    Strand(w, step, Installed);
  }

  lemma StopIsSettled(w: World)
    requires Site(w.settings) && Target(w, Some(STOPPED_STATUS))
    ensures PlanTask(w.settings, w.core, w.configs, TaskFor(w, "t", StopTask), NO_FAULTS).0.Settle?
  {
    TargetIsReady(w, Some(STOPPED_STATUS));
  }

  /** A task of the operator package that settles strands an install parked for its version. */
  lemma SettlingStrands(w: World, status: ExperimentStatus, kind: TaskKind)
    requires ParkedForVersion(w, status) && IsTerminal(status.phase) && !w.due
    requires kind.StopTask? || (kind.PromoteTask? && status == PROMOTED_STATUS)
    requires PlanTask(w.settings, w.core, w.configs, TaskFor(w, "t", kind), NO_FAULTS).0.Settle?
    ensures Strands(w, TaskStep(TaskFor(w, "t", kind), NO_FAULTS), Installed)
  {
    OnlyVersionHolds(w, status);
  }

  /** A run in which a stop with nothing left to stop strands an install. */
  lemma StrandedByStop(settings: Settings) returns (w: World, step: Step)
    requires Site(settings)
    ensures Reachable(w) && w.settings == settings && Enabled(w, step) && step.TaskStep? && step.req.kind.StopTask?
    ensures Strands(w, step, Installed) && Stranded(Next(w, step), Installed)
  {
    w := ExperimentEnds(settings, STOPPED_STATUS);
    step := TaskStep(TaskFor(w, "t", StopTask), NO_FAULTS);
    StopIsSettled(w);
    SettlingStrands(w, STOPPED_STATUS, StopTask);
    Strand(w, step, Installed);
  }

  lemma PromoteIsSettled(w: World)
    requires Site(w.settings) && Target(w, Some(PROMOTED_STATUS))
    requires Versions(w.core.installer.packages, OPERATOR_PACKAGE).1 == EXPERIMENT
    ensures PlanTask(w.settings, w.core, w.configs, TaskFor(w, "t", PromoteTask), NO_FAULTS).0.Settle?
  {
    TargetIsReady(w, Some(PROMOTED_STATUS));
  }

  /** A run in which a promote of what is already promoted, and on the object, strands an install. */
  lemma StrandedByPromote(settings: Settings) returns (w: World, step: Step)
    requires Site(settings)
    ensures Reachable(w) && w.settings == settings && Enabled(w, step) && step.TaskStep? && step.req.kind.PromoteTask?
    ensures Strands(w, step, Installed) && Stranded(Next(w, step), Installed)
  {
    w := ExperimentEnds(settings, PROMOTED_STATUS);
    step := TaskStep(TaskFor(w, "t", PromoteTask), NO_FAULTS);
    PromoteIsSettled(w);
    SettlingStrands(w, PROMOTED_STATUS, PromoteTask);
    Strand(w, step, Installed);
  }

  /** A run in which the deletion of the target strands an install that waits for the experiment in
      its status. */
  lemma StrandedByDeletion(settings: Settings) returns (w: World, step: Step)
    requires Site(settings)
    ensures Reachable(w) && w.settings == settings && Enabled(w, step) && step == WriterStep(settings.target, None)
    ensures Strands(w, step, Installed) && Stranded(Next(w, step), Installed)
  {
    var lacking := NoCredential(settings);
    var written := WriteTarget(lacking, Some(RUNNING_STATUS));
    w := WakeAndPark(written);
    step := WriterStep(settings.target, None);
    Strand(w, step, Installed);
  }

  // ---------------------------------------------------------------- an event that comes too early

  /** The target of the install, without an experiment, in this state. */
  predicate Installing(w: World, state: string)
    requires w.settings.identity.Some?
  {
    && w.settings.target in w.core.agents
    && var agent := w.core.agents[w.settings.target];
       agent == InState(TheAgent(w.settings, None), state).(version := agent.version)
  }

  function InState(agent: Agent, state: string): Agent {
    agent.(labels := agent.labels[InstallState := state])
  }

  /** The install is at work on that target. */
  predicate AtWork(w: World, pc: Pc, state: string) {
    && Site(w.settings) && w.worker == Blocked(Idle) && w.flags.active && !VersionHolds(w) && Installing(w, state)
    && w.intent == Some(Intended(w.settings.identity.value, INSTALL_ID, Installed))
    && w.record.Some? && w.record.value == RecordOf(TheInstall(w.settings), RUNNING, w.record.value.version)
    && w.background.Some? && w.background.value.command == TheInstall(w.settings) && w.background.value.pc == pc
  }

  /** Another writer makes the target partial or ready. */
  lemma WriteState(w: World, state: string) returns (after: World)
    requires Reachable(w) && Site(w.settings)
    requires w.settings.target in w.core.agents ==> exists was :: Installing(w, was)
    ensures Reachable(after) && after == w.(core := after.core, due := after.due, observed := after.observed)
    ensures after.core.installer == w.core.installer && Installing(after, state)
  {
    after := GoWrite(w, w.settings.target, Some(InState(TheAgent(w.settings, None), state)));
  }

  lemma FindExisting(w: World) returns (after: World)
    requires Reachable(w) && AtWork(w, CheckCredentials, STATE_PARTIAL)
    ensures Reachable(after) && after.settings == w.settings && AtWork(after, ReadForPartial(0, PartialReason.Installing), STATE_PARTIAL)
  {
    var checked := LookOn(w, FINE);
    UsableIsFound(checked);
    var usable := LookOn(checked, FINE);
    ExistingIsFound(usable, usable.background.value);
    after := LookOn(usable, FINE);
  }

  lemma UsableIsFound(w: World)
    requires Site(w.settings) && Installing(w, STATE_PARTIAL)
    ensures TargetUsable(w)
  {
  }

  lemma ExistingIsFound(w: World, b: Background)
    requires Site(w.settings) && Installing(w, STATE_PARTIAL) && b.command == TheInstall(w.settings)
    ensures ExistingPc(w, b, FINE) == ReadForPartial(0, PartialReason.Installing)
  {
    assert Lookup(w.core.agents[w.settings.target].annotations, PendingAction) == "";
  }

  /** The target is found partial already, and reported so. */
  lemma KeepPartial(w: World) returns (after: World)
    requires Reachable(w) && AtWork(w, ReadForPartial(0, PartialReason.Installing), STATE_PARTIAL)
    ensures Reachable(after) && after.settings == w.settings && AtWork(after, EnsureProfile(0, true), STATE_PARTIAL)
  {
    ReachableUnique(w);
    after := PublishFound(w, w.background.value);
    PublishedStays(w, w.background.value, after);
  }

  lemma PublishFound(w: World, b: Background) returns (after: World)
    requires Reachable(w) && Site(w.settings) && Installing(w, STATE_PARTIAL)
    requires w.background == Some(b) && b.pc == ReadForPartial(0, PartialReason.Installing)
    ensures Reachable(after) && after == Observe(w, Goto(PublishPartial(w, INSTALL_ID), b, EnsureProfile(0, true)))
  {
    PartialIsKept(w, b);
    after := GoInstall(w, FINE);
  }

  lemma PublishedStays(w: World, b: Background, after: World)
    requires AtWork(w, ReadForPartial(0, PartialReason.Installing), STATE_PARTIAL) && w.background == Some(b)
    requires after == Observe(w, Goto(PublishPartial(w, INSTALL_ID), b, EnsureProfile(0, true)))
    requires UniqueNames(w.core.installer.packages)
    ensures after.settings == w.settings && AtWork(after, EnsureProfile(0, true), STATE_PARTIAL)
  {
    PartialVersion(w.core);
  }

  lemma PartialIsKept(w: World, b: Background)
    requires Site(w.settings) && Installing(w, STATE_PARTIAL)
    ensures DoReadForPartial(w, b, 0, PartialReason.Installing, FINE)
            == Goto(PublishPartial(w, INSTALL_ID), b, EnsureProfile(0, true))
  {
  }

  lemma PartialVersion(core: Core)
    requires UniqueNames(core.installer.packages)
    ensures var after := ReportVersions(core, OPERATOR_PACKAGE, PARTIAL_PREFIX + INSTALL_ID, "");
            Versions(after.installer.packages, OPERATOR_PACKAGE).1 == "" && after.agents == core.agents
  {
    GetAfterSet(core.installer.packages, OPERATOR_PACKAGE, OPERATOR_PACKAGE, PARTIAL_PREFIX + INSTALL_ID, "", Task("", RUNNING));
  }

  /** The target turns out ready, and the result is about to be recorded. */
  lemma FindReady(w: World) returns (after: World)
    requires Reachable(w) && AtWork(w, ReadForReady(0, true), STATE_READY)
    ensures Reachable(after) && after.settings == w.settings && AtWork(after, ReadRecord(DONE, Succeed), STATE_READY)
  {
    ReadyIsFound(w, w.background.value);
    var completing := LookOn(w, FINE);
    CompletionIsFound(completing, completing.background.value);
    after := LookOn(completing, FINE);
  }

  lemma ReadyIsFound(w: World, b: Background)
    requires Site(w.settings) && Installing(w, STATE_READY) && b.command == TheInstall(w.settings)
    ensures ReadForReadyPc(w, b, 0, true, FINE) == Completing(0)
  {
  }

  lemma CompletionIsFound(w: World, b: Background)
    requires Site(w.settings) && Installing(w, STATE_READY) && b.command == TheInstall(w.settings)
    ensures CompletePc(w, b, 0, FINE) == ReadRecord(DONE, Succeed)
  {
    assert Lookup(w.core.agents[w.settings.target].annotations, PendingAction) == "";
  }

  /** The result is on record, and the operation has not ended. */
  predicate DoneNotEnded(w: World) {
    && Site(w.settings) && w.worker.Blocked? && w.flags.active && !VersionHolds(w)
    && w.intent == Some(Intended(w.settings.identity.value, INSTALL_ID, Installed))
    && w.record.Some? && w.record.value == RecordOf(TheInstall(w.settings), DONE, w.record.value.version)
  }

  lemma InstallIsDone(settings: Settings) returns (after: World)
    requires Site(settings)
    ensures Reachable(after) && after.settings == settings && DoneNotEnded(after) && Installing(after, STATE_READY)
  {
    var running := RunInstall(settings);
    var written := WriteState(running, STATE_PARTIAL);
    var found := FindExisting(written);
    var partial := KeepPartial(found);
    var ensured := LookOn(partial, FINE);
    assert Installing(ensured, STATE_PARTIAL);
    var readied := WriteState(ensured, STATE_READY);
    var reading := FindReady(readied);
    var patching := RecordIsRead(reading, DONE, Succeed);
    after := RecordIt(patching, DONE, Succeed);
  }

  /** The worker finds the result on record and comes to the accepting transition nevertheless. */
  lemma DoneCommanding(w: World) returns (after: World)
    requires Reachable(w) && DoneNotEnded(w)
    ensures Reachable(after) && OnlyWorker(w, after) && after.worker == Commanding(TheInstall(w.settings)) && !after.token
  {
    var command := TheInstall(w.settings);
    var woken := GoTimer(w);
    Decodes(w.settings.identity.value, INSTALL_ID, Installed);
    var checking := ReadIntent(woken, command);
    var concluded := DoneIsFound(checking, command);
    after := DoneIsTaken(concluded, command);
  }

  lemma DoneIsFound(w: World, command: Command) returns (after: World)
    requires Reachable(w) && Site(w.settings) && w.worker == Checking(command) && w.intent.Some? && w.record.Some?
    requires ValidProgress(w.record, command.intent, command.digest) && command.intent.desired.Installed?
    requires command.intent.acknowledged == "" && w.record.value.operationID == command.intent.operationID
    requires w.record.value.taskState.DONE?
    ensures Reachable(after) && OnlyWorker(w, after) && after.worker == Concluded(command, w.record.value) && after.token == w.token
  {
    after := GoWorker(w, FINE);
  }

  lemma DoneIsTaken(w: World, command: Command) returns (after: World)
    requires Reachable(w) && Site(w.settings) && w.worker.Concluded? && w.worker.command == command
    requires w.worker.found.taskState.DONE?
    ensures Reachable(after) && OnlyWorker(w, after) && after.worker == Commanding(command) && after.token == w.token
  {
    after := GoWorker(w, FINE);
  }

  /** An install parked beside the operation that is done. */
  predicate ParkedBesideDone(w: World) {
    && Site(w.settings) && Parked(w, Installed) && !w.token && w.flags.active && !VersionHolds(w) && Target(w, Some(RUNNING_STATUS))
  }

  lemma ParkBesideDone(settings: Settings) returns (after: World)
    requires Site(settings)
    ensures Reachable(after) && after.settings == settings && ParkedBesideDone(after)
  {
    var done := InstallIsDone(settings);
    assert Target(done, None);
    var started := WriteTarget(done, Some(RUNNING_STATUS));
    var commanding := DoneCommanding(started);
    after := Park(commanding, TheInstall(settings));
  }

  /** A run in which the event that should wake an install comes while the operation is still active:
      its result is on record, it has not ended, and the event queues no token. */
  lemma StrandedByEvent(settings: Settings) returns (w: World, step: Step)
    requires Site(settings)
    ensures Reachable(w) && w.settings == settings && Enabled(w, step) && step == InformerStep(true)
    ensures Strands(w, step, Installed) && Stranded(Next(w, step), Installed)
  {
    var parked := ParkBesideDone(settings);
    assert LocksOK(parked) by { ReachableHasInv(parked); }
    w := WriteTarget(parked, Some(STOPPED_STATUS));
    step := InformerStep(true);
    TargetIsReady(w, Some(STOPPED_STATUS));
    Strand(w, step, Installed);
  }

  // ---------------------------------------------------------------- starts that are lost

  function TheStart(w: World): PendingOperation {
    PendingOperation(Start, "s", OPERATOR_PACKAGE, w.settings.target, EXPERIMENT, "")
  }

  /** The start is pending on the target, which shows no experiment yet. */
  predicate StartPending(w: World) {
    && Site(w.settings) && w.settings.target in w.core.agents && SlotOf(w.core, w.settings.target) == Some(TheStart(w))
    && var agent := w.core.agents[w.settings.target];
       && agent.labels == TheAgent(w.settings, None).labels && agent.experiment.None? && ConfigHash in agent.annotations
       && Lookup(agent.annotations, ExperimentID) == EXPERIMENT && Lookup(agent.annotations, ExperimentSignal) == "start"
  }

  lemma StartIsWritten(w: World)
    requires Site(w.settings) && Target(w, None) && w.configs == CONFIGS
    ensures PlanTask(w.settings, w.core, w.configs, TaskFor(w, "s", StartTask), NO_FAULTS) == (Write(TheStart(w), None), w.core)
  {
    TargetIsReady(w, None);
  }

  lemma StartLands(w: World, req: Request)
    requires Site(w.settings) && Target(w, None) && req.nsn == w.settings.target
    ensures var (after, ok) := WriteOperation(w.core, req, TheStart(w), None, NO_FAULTS);
            ok && StartPending(w.(core := after)) && after.installer == w.core.installer
  {
    var agent := w.core.agents[w.settings.target];
    var op := TheStart(w);
    PatchAdmitted(agent.annotations, None, op);
    LabelsUntouched(agent.labels, None, op);
    PatchedSlot(agent.annotations, None, op);
    ReadDocument(agent.annotations);
    UnrelatedAnnotationsKept(Document(agent.annotations), None, op, ConfigHash);
    UnrelatedAnnotationsKept(Document(agent.annotations), None, op, ExperimentID);
    UnrelatedAnnotationsKept(Document(agent.annotations), None, op, ExperimentSignal);
  }

  lemma TaskIsWritten(w: World, req: Request, op: PendingOperation, patch: Option<Json>)
    requires Planned(w, req) && PlanTask(w.settings, w.core, w.configs, req, NO_FAULTS) == (Write(op, patch), w.core)
    requires WriteOperation(w.core, req, op, patch, NO_FAULTS).1
    ensures DoTask(w, req, NO_FAULTS) == w.(core := WriteOperation(w.core, req, op, patch, NO_FAULTS).0)
  {
  }

  /** A start whose signal is already on the object is recorded as pending. */
  lemma StartPends(w: World) returns (after: World)
    requires Reachable(w) && Site(w.settings) && Target(w, None) && !w.flags.active && !w.flags.reserved
    ensures Reachable(after) && StartPending(after)
    ensures after == w.(core := after.core, configs := CONFIGS, due := after.due, observed := after.observed)
    ensures after.core.installer == w.core.installer
  {
    var configured := GoConfigs(w, CONFIGS);
    var req := TaskFor(configured, "s", StartTask);
    StartIsWritten(configured);
    StartLands(configured, req);
    TaskIsWritten(configured, req, TheStart(configured), None);
    after := GoTask(configured, req, NO_FAULTS);
  }

  function BlankStopOf(w: World): Step {
    TaskStep(TaskFor(w, "", StopTask), NO_FAULTS)
  }

  /** A stop without an ID is written over a pending start. */
  lemma StopIsBlank(w: World)
    requires StartPending(w) && !w.flags.active && !w.flags.reserved
    ensures BlankStop(w, BlankStopOf(w), w.settings.target)
  {
  }

  /** A run in which a stop without an ID takes a pending start out of its slot: nothing is reported,
      and nothing is in the slot instead. */
  lemma StartLostToBlankStop(settings: Settings) returns (w: World, step: Step)
    requires Site(settings)
    ensures Reachable(w) && w.settings == settings && Enabled(w, step) && BlankStop(w, step, settings.target)
    ensures SlotOf(w.core, settings.target).Some? && SlotOf(Next(w, step).core, settings.target).None?
    ensures !LeavesProperly(w, step, Next(w, step), settings.target, SlotOf(w.core, settings.target).value)
  {
    var lacking := NoCredential(settings);
    var written := WriteTarget(lacking, None);
    w := StartPends(written);
    step := BlankStopOf(w);
    StopIsBlank(w);
    ReachableHasInv(w);
    StepLosesIff(w, step, settings.target);
  }

  /** A run in which another writer deletes the object with the pending start on it. */
  lemma StartLostToDeletion(settings: Settings) returns (w: World, step: Step)
    requires Site(settings)
    ensures Reachable(w) && w.settings == settings && Enabled(w, step) && step == WriterStep(settings.target, None)
    ensures SlotOf(w.core, settings.target).Some? && SlotOf(Next(w, step).core, settings.target).None?
    ensures !LeavesProperly(w, step, Next(w, step), settings.target, SlotOf(w.core, settings.target).value)
  {
    var lacking := NoCredential(settings);
    var written := WriteTarget(lacking, None);
    w := StartPends(written);
    step := WriterStep(settings.target, None);
    ReachableHasInv(w);
    StepLosesIff(w, step, settings.target);
  }

  // ---------------------------------------------------------------- uninstalls that are stranded

  /** An uninstall takes the place of the intent, and the worker is woken. */
  lemma IntendUninstall(w: World) returns (after: World)
    requires Reachable(w) && Site(w.settings)
    ensures Reachable(after) && after.intent == Some(Intended(w.settings.identity.value, UNINSTALL_ID, Absent))
    ensures after == w.(intent := after.intent, token := true, observed := after.observed)
  {
    var intended := GoIntent(w, Some(Intended(w.settings.identity.value, UNINSTALL_ID, Absent)));
    after := GoTimer(intended);
  }

  /** Nothing but the worker and the reservation moved. */
  predicate Reserves(w: World, after: World) {
    after == w.(worker := after.worker, token := after.token, flags := w.flags.(reserved := true), observed := after.observed)
  }

  /** An uninstall reserves the task slot on its way. */
  lemma UninstallSlotting(w: World, command: Command) returns (after: World)
    requires Reachable(w) && w.worker == Checking(command) && InFront(w, command) && command.intent.desired.Absent?
    ensures Reachable(after) && Reserves(w, after) && after.worker == Slotting(command) && after.token == w.token
  {
    var reserving := ToReserving(w, command);
    var refreshing := ToRefreshing(reserving, command);
    after := Refresh(refreshing, command);
  }

  lemma Refresh(w: World, command: Command) returns (after: World)
    requires Reachable(w) && InFront(w, command) && w.worker == Refreshing(command, w.record)
    ensures Reachable(after) && OnlyWorker(w, after) && after.worker == Slotting(command) && after.token == w.token
  {
    after := GoWorker(w, FINE);
  }

  lemma ToReserving(w: World, command: Command) returns (after: World)
    requires Reachable(w) && w.worker == Checking(command) && InFront(w, command) && command.intent.desired.Absent?
    ensures Reachable(after) && OnlyWorker(w, after) && after.worker == Reserving(command, w.record) && after.token == w.token
  {
    after := GoWorker(w, FINE);
  }

  lemma ToRefreshing(w: World, command: Command) returns (after: World)
    requires Reachable(w) && Site(w.settings) && w.worker == Reserving(command, w.record)
    ensures Reachable(after) && Reserves(w, after) && after.worker == Refreshing(command, w.record) && after.token == w.token
  {
    after := GoWorker(w, FINE);
  }

  /** The uninstall may follow an install, whatever became of it. */
  predicate AfterInstall(w: World) {
    && Site(w.settings) && w.record.Some?
    && w.record.value == RecordOf(TheInstall(w.settings), w.record.value.taskState, w.record.value.version)
    && w.intent == Some(Intended(w.settings.identity.value, UNINSTALL_ID, Absent))
  }

  lemma UninstallInFront(w: World)
    requires AfterInstall(w)
    ensures InFront(w, TheUninstall(w.settings))
  {
    Decodes(w.settings.identity.value, UNINSTALL_ID, Absent);
  }

  /** A run in which the deletion of the target strands an uninstall that waits for the start
      pending on it. */
  lemma UninstallStrandedByDeletion(settings: Settings) returns (w: World, step: Step)
    requires Site(settings)
    ensures Reachable(w) && w.settings == settings && Enabled(w, step) && step == WriterStep(settings.target, None)
    ensures Strands(w, step, Absent) && Stranded(Next(w, step), Absent)
  {
    var lacking := NoCredential(settings);
    var written := WriteTarget(lacking, None);
    var pending := StartPends(written);
    w := UninstallParks(pending);
    step := WriterStep(settings.target, None);
    Strand(w, step, Absent);
  }

  lemma UninstallParks(w: World) returns (after: World)
    requires Reachable(w) && AtRest(w) && StartPending(w)
    ensures Reachable(after) && Parked(after, Absent) && !after.token && after.settings == w.settings && after.core == w.core
  {
    var intended := IntendUninstall(w);
    var command := TheUninstall(w.settings);
    UninstallInFront(intended);
    var checking := WakeUp(intended, command);
    var slotting := UninstallSlotting(checking, command);
    var commanding := ToCommanding(slotting, command);
    after := Park(commanding, command);
  }

  // ---------------------------------------------------------------- an unchecked ready label

  const READY_CONFIG := Obj(map[Metadata := Obj(map[Labels := Obj(map[InstallState := Str(STATE_READY)])])])
  const PLAIN_AGENT := Agent(0, 0, map[], map[], Spec.Spec("", true), None, false)

  /** A start of an unmanaged operator on a plain object. */
  function UnmanagedWorld(settings: Settings): World {
    var core := Core(map[settings.target := PLAIN_AGENT], 0, Installer(FreshPackages(settings), []));
    World(settings, core, map[EXPERIMENT := [ConfigOperation(true, Some(READY_CONFIG))]],
          Flags(false, false, false, "", None, None), false, true, Blocked(Idle), None, None, 0, None,
          Snapshots(core), 0, [], {}, 0)
  }

  lemma ReadyStartLands(core: Core, req: Request, op: PendingOperation)
    requires req.nsn in core.agents && core.agents[req.nsn] == PLAIN_AGENT
    ensures var plan := Write(op, SignalPatch("start", EXPERIMENT, Some(READY_CONFIG)));
            && Landing(core, req, plan, NO_FAULTS)
            && Member(PatchedLabels(plan.patch), InstallState) == Str(STATE_READY)
  {
    var patch := SignalPatch("start", EXPERIMENT, Some(READY_CONFIG));
    SignalLabels("start", EXPERIMENT, Some(READY_CONFIG));
    assert AnnotationsMember(patch.value) == Null;
    PatchAdmitted(map[], patch, op);
    var whole := OperationPatch(patch, op);
    OperationPatchLabels(patch, op);
    MergePatchMember(LabelDocument(map[]), whole, Metadata);
    MergePatchMember(Member(LabelDocument(map[]), Metadata), Member(whole, Metadata), Labels);
    forall k ensures Member(MergePatch(LabelsMember(LabelDocument(map[])), PatchedLabels(patch)), k)
                     == if k == InstallState then Str(STATE_READY) else Null
    {
      MergePatchMember(LabelsMember(LabelDocument(map[])), PatchedLabels(patch), k);
    }
  }

  /** A run in which an unmanaged start makes an object ready that nobody checked. */
  lemma ReadiedByConfig(settings: Settings) returns (w: World, step: Step)
    requires settings.identity.None? && !settings.intentsEnabled && settings.revisionsEnabled
    requires settings.target.name != "" && settings.target.namespace != ""
    ensures Reachable(w) && w.settings == settings && Enabled(w, step) && ConfigReadies(w, step, settings.target)
    ensures BecomesReady(w.core, Next(w, step).core, settings.target)
  {
    w := UnmanagedWorld(settings);
    ReachableStart(w);
    var req := TaskFor(w, "s", StartTask);
    step := TaskStep(req, NO_FAULTS);
    var op := NewOperation(Start, req, EXPERIMENT, "");
    assert PlanOf(w, req, NO_FAULTS) == Write(op, SignalPatch("start", EXPERIMENT, Some(READY_CONFIG)));
    ReadyStartLands(w.core, req, op);
    TaskReadiesIff(w, step, settings.target);
  }
}
