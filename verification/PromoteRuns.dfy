/** A run in which a promote promises one version and the object's status shows another experiment,
    and a restart finds a mix of the two. */
module PromoteRuns {
  import opened Json
  import opened PendingSlot
  import opened Packages
  import opened DatadogAgent
  import opened Experiments
  import opened ExperimentProofs
  import opened Installation
  import opened FleetWorld
  import opened FleetInvariants
  import opened FleetTheorems
  import opened ReadyLabel
  import opened PromoteRecovery
  import opened FleetRuns

  /** A managed operator that takes experiments but no intents. */
  predicate ExperimentSite(settings: Settings) {
    && settings.identity.Some? && settings.identity.value.provider == EKS
    && !settings.intentsEnabled && settings.revisionsEnabled
    && settings.target.name != "" && settings.target.namespace != ""
  }

  const STABLE := "s"
  const FIRST := "e"
  const SECOND := "f"

  /** The ready object, with this config, these annotations and this experiment. */
  function Promotable(settings: Settings, config: string, annotations: AnnotationMap, experiment: string, phase: Phase): Agent
    requires settings.identity.Some?
  {
    Agent(0, 0,
          map[ManagedBy := FLEET_MANAGED, ConfigID := config, InstallState := STATE_READY, Provider := EKS,
              InstallationID := settings.identity.value.installationID, TargetID := settings.identity.value.targetID],
          annotations, Spec.Spec("", true), Some(ExperimentStatus(experiment, phase, "", "")), false)
  }

  /** The target is that object, whatever its version. */
  predicate Shows(w: World, config: string, annotations: AnnotationMap, experiment: string, phase: Phase)
    requires w.settings.identity.Some?
  {
    && w.settings.target in w.core.agents
    && var agent := w.core.agents[w.settings.target];
       agent == Promotable(w.settings, config, annotations, experiment, phase).(version := agent.version)
  }

  /** Only tasks and deliveries are at work. */
  predicate Open(w: World) {
    ExperimentSite(w.settings) && !w.flags.active && !w.flags.reserved && w.record.None?
  }

  const HASHED: AnnotationMap := map[ConfigHash := "h"]

  lemma ShownIsReady(w: World, config: string, annotations: AnnotationMap, experiment: string, phase: Phase)
    requires ExperimentSite(w.settings) && Shows(w, config, annotations, experiment, phase) && config != ""
    requires ConfigHash in annotations
    ensures var agent := w.core.agents[w.settings.target];
            && Classify(agent) == Owned && BelongsTo(w.settings.identity, agent) && IsReady(agent)
            && ExperimentTarget(w.settings, w.settings.target, agent) && OperationAllowed(w.settings.target, agent, Promote)
  {
  }

  function StartOf(settings: Settings): World
    requires settings.identity.Some?
  {
    var core := Core(map[settings.target := Promotable(settings, STABLE, HASHED, FIRST, Running)], 0,
                     Installer(FreshPackages(settings), []));
    World(settings, core, map[], Flags(false, false, false, "", None, None), false, true, Blocked(Idle), None, None, 0, None,
          Snapshots(core), 0, [], {}, 0)
  }

  /** The operator starts up and reports what it finds. */
  lemma StartUp(settings: Settings) returns (after: World)
    requires ExperimentSite(settings)
    ensures Reachable(after) && after.settings == settings && Open(after) && Shows(after, STABLE, HASHED, FIRST, Running)
    ensures Versions(after.core.installer.packages, OPERATOR_PACKAGE) == (STABLE, FIRST)
  {
    var start := StartOf(settings);
    StartIsInit(settings);
    ReachableStart(start);
    CrashedStart(start);
    after := Go(start, CrashStep(Reload(false, false, [])));
    CrashIsSeen(start);
  }

  lemma StartIsInit(settings: Settings)
    requires ExperimentSite(settings)
    ensures Init(StartOf(settings)) && Shows(StartOf(settings), STABLE, HASHED, FIRST, Running) && Open(StartOf(settings))
  {
  }

  /** A promotion is under way from the very start: the hypotheses on promotions are met. */
  lemma StartIsUnderWay(settings: Settings)
    requires ExperimentSite(settings)
    ensures Init(StartOf(settings)) && UnderWay(StartOf(settings), STABLE, FIRST)
  {
    StartIsInit(settings);
    ShownIsReady(StartOf(settings), STABLE, HASHED, FIRST, Running);
    assert Lookup(HASHED, PendingAction) == "";
  }

  lemma CrashIsSeen(w: World)
    ensures Next(w, CrashStep(Reload(false, false, []))) == Observe(w, DoCrash(w, Reload(false, false, [])))
  {
  }

  lemma CrashedStart(w: World)
    requires Open(w) && Shows(w, STABLE, HASHED, FIRST, Running)
    ensures var after := DoCrash(w, Reload(false, false, []));
            && Versions(after.core.installer.packages, OPERATOR_PACKAGE) == (STABLE, FIRST) && after.settings == w.settings
            && after.core.agents == w.core.agents && Open(after)
  {
    ShownIsReady(w, STABLE, HASHED, FIRST, Running);
    PairFromCluster(w.settings, w.core, []);
  }

  /** Another writer moves the experiment in the status. */
  lemma MoveStatus(w: World, config: string, annotations: AnnotationMap, was: string, before: Phase, experiment: string,
                   phase: Phase) returns (after: World)
    requires Reachable(w) && Open(w) && Shows(w, config, annotations, was, before)
    ensures Reachable(after) && after == w.(core := after.core, due := after.due, observed := after.observed)
    ensures after.core.installer == w.core.installer && Shows(after, config, annotations, experiment, phase)
    ensures Snapshot(w.settings.target, annotations, after.core.agents[w.settings.target].experiment) in after.observed
  {
    after := GoWrite(w, w.settings.target, Some(Promotable(w.settings, config, annotations, experiment, phase)));
  }

  function ThePromote(w: World): Request {
    Request("p", OPERATOR_PACKAGE, STABLE, FIRST, PromoteTask, "", "DatadogAgent", w.settings.target)
  }

  function ThePromise(settings: Settings): PendingOperation {
    PendingOperation(Promote, "p", OPERATOR_PACKAGE, settings.target, SECOND, FIRST)
  }

  lemma PromoteIsPlanned(w: World)
    requires Open(w) && Shows(w, STABLE, HASHED, SECOND, Running)
    requires Versions(w.core.installer.packages, OPERATOR_PACKAGE) == (STABLE, FIRST)
    ensures PlanTask(w.settings, w.core, w.configs, ThePromote(w), NO_FAULTS)
            == (Write(ThePromise(w.settings), SignalPatch("promote", SECOND, None)), w.core)
  {
    ShownIsReady(w, STABLE, HASHED, SECOND, Running);
    assert Lookup(HASHED, PendingAction) == "";
  }

  /** The annotations with the promise in the slot. */
  function Promised(settings: Settings): Option<AnnotationMap> {
    PatchAnnotations(HASHED, OperationPatch(SignalPatch("promote", SECOND, None), ThePromise(settings)))
  }

  lemma PromisedSlot(settings: Settings)
    ensures Promised(settings).Some? && ParseSlot(settings.target, Promised(settings).value) == Some(ThePromise(settings))
    ensures ConfigHash in Promised(settings).value && Promised(settings).value[ConfigHash] == "h"
  {
    var op := ThePromise(settings);
    var patch := SignalPatch("promote", SECOND, None);
    SignalAdmitted(HASHED, "promote", SECOND, op);
    PatchedSlot(HASHED, patch, op);
    assert ConfigHash !in Fields(AnnotationsMember(patch.value));
    WrittenKeepsHash(HASHED, patch, op);
  }

  lemma PromiseLands(w: World, req: Request)
    requires Open(w) && Shows(w, STABLE, HASHED, SECOND, Running) && req.nsn == w.settings.target
    ensures Promised(w.settings).Some?
    ensures var (after, ok) := WriteOperation(w.core, req, ThePromise(w.settings), SignalPatch("promote", SECOND, None), NO_FAULTS);
            ok && Shows(w.(core := after), STABLE, Promised(w.settings).value, SECOND, Running)
  {
    PromisedSlot(w.settings);
    LabelsUntouched(w.core.agents[w.settings.target].labels, SignalPatch("promote", SECOND, None), ThePromise(w.settings));
  }

  /** The promote task writes a promise of the version that is reported, for the experiment that is
      in the status. */
  lemma PromoteIsWritten(w: World) returns (after: World)
    requires Reachable(w) && Open(w) && Shows(w, STABLE, HASHED, SECOND, Running)
    requires Versions(w.core.installer.packages, OPERATOR_PACKAGE) == (STABLE, FIRST)
    ensures Promised(w.settings).Some? && Reachable(after) && Open(after) && after.settings == w.settings
    ensures Shows(after, STABLE, Promised(w.settings).value, SECOND, Running)
  {
    PromoteIsPlanned(w);
    PromisedSlot(w.settings);
    PromiseLands(w, ThePromote(w));
    var patch := SignalPatch("promote", SECOND, None);
    TaskIsWritten(w, ThePromote(w), ThePromise(w.settings), patch);
    after := GoTask(w, ThePromote(w), NO_FAULTS);
  }

  /** A restart looks at the objects only. */
  lemma PairOfObjects(settings: Settings, a: Core, b: Core)
    requires settings.identity.Some? && a.agents == b.agents && RehydratedVersions(settings, a).Some?
    ensures RestartPair(settings, a) == RestartPair(settings, b)
  {
    PairFromCluster(settings, a, []);
    PairFromCluster(settings, b, []);
  }

  /** What a restart looks at on the target. */
  predicate LooksTheSame(a: Agent, b: Agent) {
    && a.labels == b.labels && a.experiment == b.experiment
    && (ConfigHash in a.annotations <==> ConfigHash in b.annotations)
    && (CreateTaskID in a.annotations <==> CreateTaskID in b.annotations)
    && Lookup(a.annotations, ConfigHash) == Lookup(b.annotations, ConfigHash)
  }

  lemma SameRehydration(settings: Settings, a: Core, b: Core)
    requires settings.identity.Some? && settings.target in a.agents && settings.target in b.agents
    requires LooksTheSame(a.agents[settings.target], b.agents[settings.target])
    ensures RehydratedVersions(settings, a) == RehydratedVersions(settings, b)
  {
  }

  lemma ClearLooksTheSame(core: Core, op: PendingOperation, faults: Faults, nsn: NsName)
    requires nsn in core.agents
    ensures var after := ClearIfCurrent(core, op, faults);
            nsn in after.agents && LooksTheSame(after.agents[nsn], core.agents[nsn])
  {
    if op.nsn in core.agents {
      ClearedSlot(core.agents[op.nsn].annotations, op.nsn);
    }
  }

  /** Clearing the slot leaves the pair that a restart finds. */
  lemma ClearKeepsPair(settings: Settings, core: Core, op: PendingOperation, faults: Faults)
    requires settings.identity.Some? && settings.target in core.agents && RehydratedVersions(settings, core).Some?
    ensures RestartPair(settings, ClearIfCurrent(core, op, faults)) == RestartPair(settings, core)
  {
    ClearLooksTheSame(core, op, faults, settings.target);
    SameRehydration(settings, core, ClearIfCurrent(core, op, faults));
    PairFromCluster(settings, core, []);
    PairFromCluster(settings, ClearIfCurrent(core, op, faults), []);
  }

  lemma PersistedRehydrates(w: World)
    requires Promised(w.settings).Some? && Open(w) && Shows(w, STABLE, Promised(w.settings).value, SECOND, Promoted)
    ensures RehydratedVersions(w.settings, PersistStable(w.settings, w.core, w.settings.target, SECOND, FIRST, Landed).0).Some?
    ensures PersistStable(w.settings, w.core, w.settings.target, SECOND, FIRST, Landed).1
  {
    PromisedSlot(w.settings);
    ShownIsReady(w, STABLE, Promised(w.settings).value, SECOND, Promoted);
  }

  lemma MixedAfterFinish(w: World)
    requires Promised(w.settings).Some? && Open(w) && Shows(w, STABLE, Promised(w.settings).value, SECOND, Promoted)
    ensures RestartPair(w.settings, Finish(w.settings, w.core, ThePromise(w.settings), Succeeded, NO_FAULTS)) == (FIRST, SECOND)
  {
    var op := ThePromise(w.settings);
    PersistedRehydrates(w);
    MixedAfterPersist(w);
    PersistKeepsSlots(w.settings, w.core, op.nsn, op.experimentID, op.resultVersion, Landed, op.nsn);
    var persisted := PersistStable(w.settings, w.core, op.nsn, op.experimentID, op.resultVersion, Landed).0;
    MixedAfterClear(w.settings, persisted, op);
  }

  lemma MixedAfterPersist(w: World)
    requires Promised(w.settings).Some? && Open(w) && Shows(w, STABLE, Promised(w.settings).value, SECOND, Promoted)
    ensures RestartPair(w.settings, PersistStable(w.settings, w.core, w.settings.target, SECOND, FIRST, Landed).0) == (FIRST, SECOND)
  {
    PromisedSlot(w.settings);
    ShownIsReady(w, STABLE, Promised(w.settings).value, SECOND, Promoted);
    NewPairIff(w.settings, w.core, ThePromise(w.settings), Landed, STABLE);
  }

  /** Reporting and clearing change nothing that a restart looks at. */
  lemma MixedAfterClear(settings: Settings, core: Core, op: PendingOperation)
    requires settings.identity.Some? && settings.target in core.agents && RehydratedVersions(settings, core).Some?
    ensures var reported := FinishTask(FinishVersions(core, op, true), op, true);
            RestartPair(settings, ClearIfCurrent(reported, op, NO_FAULTS)) == RestartPair(settings, core)
  {
    var reported := FinishTask(FinishVersions(core, op, true), op, true);
    PairOfObjects(settings, core, reported);
    ClearKeepsPair(settings, reported, op, NO_FAULTS);
  }

  /** The status shows the promotion, and is delivered. */
  lemma PromotionIsDelivered(w: World) returns (after: World)
    requires Promised(w.settings).Some? && Open(w) && Reachable(w)
    requires Shows(w, STABLE, Promised(w.settings).value, SECOND, Promoted)
    requires Snapshot(w.settings.target, Promised(w.settings).value, w.core.agents[w.settings.target].experiment) in w.observed
    ensures Reachable(after) && after.settings == w.settings && RestartPair(w.settings, after.core) == (FIRST, SECOND)
  {
    var agent := w.core.agents[w.settings.target];
    var snapshot := Snapshot(w.settings.target, agent.annotations, agent.experiment);
    PromisedSlot(w.settings);
    PromotedFinishes(w.settings, w.core, ThePromise(w.settings), NO_FAULTS);
    MixedAfterFinish(w);
    DeliveredCore(w, snapshot, NO_FAULTS);
    after := Go(w, StatusStep(snapshot, NO_FAULTS));
  }

  /** The run: after it, a restart finds the promised version as stable beside the experiment that
      was promoted, which is neither the old pair nor the new one. */
  lemma MixedPairReached(settings: Settings) returns (after: World)
    requires ExperimentSite(settings)
    ensures Reachable(after) && after.settings == settings && RestartPair(settings, after.core) == (FIRST, SECOND)
  {
    var up := StartUp(settings);
    var moved := MoveStatus(up, STABLE, HASHED, FIRST, Running, SECOND, Running);
    var promised := PromoteIsWritten(moved);
    var promoted := MoveStatus(promised, STABLE, Promised(settings).value, SECOND, Running, SECOND, Promoted);
    after := PromotionIsDelivered(promoted);
  }
}
