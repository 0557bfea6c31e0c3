/** The DatadogAgent object, as far as the fleet daemon looks at it: who owns it, whether its
    installation is complete, and which experiment its status reports. */
module DatadogAgent {
  import opened Json
  import opened PendingSlot

  datatype Phase = NoPhase | Running | Terminated | Promoted | Aborted | OtherPhase(value: string)

  datatype ExperimentStatus = ExperimentStatus(id: string, phase: Phase, startTaskID: string, terminationReason: string)

  /** `fleetCredentials`: the spec references exactly the Fleet-managed API Secret. */
  datatype Spec = Spec(content: string, fleetCredentials: bool)

  /** `version` is the resource version: every write gives the object a new one. */
  datatype Agent = Agent(
    uid: nat,
    version: nat,
    labels: LabelMap,
    annotations: AnnotationMap,
    spec: Spec,
    experiment: Option<ExperimentStatus>,
    terminating: bool)

  datatype Identity = Identity(provider: string, installationID: string, targetID: string)

  const FLEET_MANAGED := "fleet-automation"
  const STATE_PARTIAL := "partial"
  const STATE_READY := "ready"
  const PARTIAL_PREFIX := "partial:"

  function Label(agent: Agent, k: Key): string {
    if k in agent.labels then agent.labels[k] else ""
  }

  /** Stands for the SHA-256 of the encoded spec, taken to be free of collisions. */
  function SpecHash(spec: Spec): string {
    (if spec.fleetCredentials then "f" else "x") + spec.content
  }

  predicate IsTerminal(phase: Phase) {
    phase.Terminated? || phase.Promoted? || phase.Aborted?
  }

  predicate HasPhase(agent: Agent, experimentID: string, phase: Phase) {
    agent.experiment.Some? && agent.experiment.value.id == experimentID && agent.experiment.value.phase == phase
  }

  /** The ID of the experiment the status shows running; blank when there is none. */
  function RunningExperiment(agent: Agent): string {
    if agent.experiment.Some? && agent.experiment.value.phase.Running? then agent.experiment.value.id else ""
  }

  function Slot(nsn: NsName, agent: Agent): Option<PendingOperation> {
    ParseSlot(nsn, agent.annotations)
  }

  // ---------------------------------------------------------------- ownership

  datatype Ownership = Unowned | Owned | Conflicting

  predicate HasFleetMetadata(agent: Agent) {
    || ManagedBy in agent.labels || ConfigID in agent.labels || InstallState in agent.labels
    || Provider in agent.labels || InstallationID in agent.labels || TargetID in agent.labels
    || ConfigHash in agent.annotations || CreateTaskID in agent.annotations
  }

  function Classify(agent: Agent): Ownership {
    if !HasFleetMetadata(agent) then Unowned
    else if Label(agent, ManagedBy) != FLEET_MANAGED || Label(agent, ConfigID) == "" || ConfigHash !in agent.annotations
            || (Label(agent, InstallState) != STATE_PARTIAL && Label(agent, InstallState) != STATE_READY)
    then Conflicting
    else Owned
  }

  /** The laxer rule used when the daemon starts: the install may have been interrupted. */
  function ClassifyForRehydration(agent: Agent): Ownership {
    if !HasFleetMetadata(agent) then Unowned
    else if Label(agent, ManagedBy) != FLEET_MANAGED || Label(agent, ConfigID) == "" then Conflicting
    else Owned
  }

  /** The object belongs to this operator's managed installation (or to none, when the operator
      has none). */
  predicate BelongsTo(identity: Option<Identity>, agent: Agent) {
    match identity
    case None => Label(agent, Provider) == "" && Label(agent, InstallationID) == "" && Label(agent, TargetID) == ""
    case Some(id) =>
      && Label(agent, Provider) == id.provider
      && Label(agent, InstallationID) == id.installationID
      && Label(agent, TargetID) == id.targetID
  }

  predicate OwnedWithConfig(agent: Agent, configID: string) {
    && Label(agent, ManagedBy) == FLEET_MANAGED
    && Label(agent, ConfigID) != ""
    && (configID == "" || Label(agent, ConfigID) == configID)
  }

  /** The accepted hash is the hash of the live spec, which uses the managed credentials. */
  predicate SpecAccepted(agent: Agent) {
    agent.spec.fleetCredentials && Lookup(agent.annotations, ConfigHash) == SpecHash(agent.spec)
  }

  predicate IsReady(agent: Agent) {
    Label(agent, InstallState) == STATE_READY
  }

  /** May an operation of this kind act on the object? Ready objects always; a partial object
      only for a stop that still has something to stop, or for a promote whose promotion the
      status already shows. */
  predicate OperationAllowed(nsn: NsName, agent: Agent, intent: Intent) {
    var pending := Slot(nsn, agent);
    && Classify(agent) == Owned
    && (|| IsReady(agent)
        || (&& intent.Stop? && Label(agent, InstallState) == STATE_PARTIAL
            && (|| (agent.experiment.Some? && agent.experiment.value.id != "" && !IsTerminal(agent.experiment.value.phase))
                || Lookup(agent.annotations, ExperimentID) != ""
                || (pending.Some? && pending.value.intent.Stop?)))
        || (&& intent.Promote? && Label(agent, InstallState) == STATE_PARTIAL
            && pending.Some? && pending.value.intent.Promote?
            && HasPhase(agent, pending.value.experimentID, Promoted)))
  }

  predicate InstallComplete(agent: Agent, uid: nat, configID: string) {
    agent.uid == uid && OwnedWithConfig(agent, configID) && SpecAccepted(agent) && IsReady(agent)
  }
}
