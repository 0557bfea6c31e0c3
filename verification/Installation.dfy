/** Local installation intents, the persisted installation record they are checked against, and
    the updater tags derived from both. */
module Installation {
  import opened PendingSlot
  import opened Packages
  import opened DatadogAgent

  datatype Desired = Installed | Absent | OtherDesired(value: string)

  datatype Bootstrap = Bootstrap(clusterName: string, site: string)

  /** The content of the intent ConfigMap. `Malformed` covers a missing, oversized or
      undecodable document and one with unknown or trailing content. */
  datatype RawIntent =
    | Malformed
    | EksIntent(
        version: string,
        installationID: string,
        targetID: string,          // the encoded ARN hash
        operationID: string,
        desired: Desired,
        acknowledged: string,
        bootstrap: Bootstrap)

  datatype InstallIntent = InstallIntent(
    provider: string,
    installationID: string,
    targetID: string,
    operationID: string,
    desired: Desired,
    acknowledged: string,
    bootstrap: Bootstrap)

  /** The normalised form whose SHA-256 identifies an operation's content. The acknowledgement
      is not part of it. The digest is taken to be free of collisions. */
  datatype Digest = Digest(
    provider: string,
    installationID: string,
    targetID: string,
    operationID: string,
    desired: Desired,
    bootstrap: Bootstrap)

  datatype Command = Command(intent: InstallIntent, digest: Digest)

  /** The persisted record. `version` is its resource version. */
  datatype Record = Record(
    provider: string,
    installationID: string,
    targetID: string,
    operationID: string,
    digest: Digest,
    desired: Desired,
    acknowledged: string,
    taskState: TaskState,
    version: nat)

  const EKS := "eks"
  const ALLOWED_SITES := {"datadoghq.com", "datadoghq.eu", "us3.datadoghq.com", "us5.datadoghq.com",
                          "ddog-gov.com", "ap1.datadoghq.com", "ap2.datadoghq.com"}

  /** Stands for "is a canonical non-zero UUID". */
  predicate CanonicalUUID(value: string) {
    value != ""
  }

  predicate IsSpace(c: char) {
    c == ' ' || c == '\t' || c == '\n' || c == '\r'
  }

  predicate ValidBootstrap(bootstrap: Bootstrap) {
    && 0 < |bootstrap.clusterName| <= 100
    && !IsSpace(bootstrap.clusterName[0]) && !IsSpace(bootstrap.clusterName[|bootstrap.clusterName| - 1])
    && bootstrap.site in ALLOWED_SITES
  }

  function DigestOf(intent: InstallIntent): Digest {
    Digest(intent.provider, intent.installationID, intent.targetID, intent.operationID, intent.desired, intent.bootstrap)
  }

  /** Decodes and validates an intent for this operator's identity. */
  function Decode(raw: RawIntent, identity: Identity): (decoded: Option<Command>)
    ensures decoded.Some? ==> ValidCommand(decoded.value, identity)
    ensures decoded.Some? ==>
              var intent := decoded.value.intent;
              && intent.provider == identity.provider && intent.installationID == identity.installationID
              && intent.targetID == identity.targetID
              && CanonicalUUID(intent.operationID)
              && (intent.desired.Installed? || intent.desired.Absent?)
              && (intent.desired.Installed? ==> intent.acknowledged == "" || intent.acknowledged == intent.operationID)
              && decoded.value.digest == DigestOf(intent)
  {
    if raw.Malformed? || identity.provider != EKS then None
    else if raw.version != "v1" || !CanonicalUUID(raw.installationID) then None
    else if raw.installationID != identity.installationID || raw.targetID != identity.targetID then None
    else if !CanonicalUUID(raw.operationID) then None
    else if raw.acknowledged != "" && raw.desired.Installed? && raw.acknowledged != raw.operationID then None
    else if !ValidBootstrap(raw.bootstrap) || raw.desired.OtherDesired? then None
    else
      var intent := InstallIntent(EKS, raw.installationID, raw.targetID, raw.operationID, raw.desired, raw.acknowledged,
                                  raw.bootstrap);
      Some(Command(intent, DigestOf(intent)))
  }

  /** validateManagedAgentInstallationCommand, for an operator with a valid identity. */
  predicate ValidCommand(command: Command, identity: Identity) {
    && command.intent.operationID != ""
    && command.intent.installationID == identity.installationID
    && command.intent.provider == identity.provider && command.intent.targetID == identity.targetID
    && (command.intent.desired.Installed? || command.intent.desired.Absent?)
  }

  /** The digest tells two intents apart exactly when they differ beyond the acknowledgement. */
  lemma DigestIgnoresAcknowledgement(a: RawIntent, b: RawIntent, identity: Identity)
    requires Decode(a, identity).Some? && Decode(b, identity).Some?
    ensures Decode(a, identity).value.digest == Decode(b, identity).value.digest
       <==> a.(acknowledged := "") == b.(acknowledged := "")
  {
    assert a.version == "v1" && b.version == "v1";
  }

  /** May this intent follow the record? */
  predicate ValidProgress(current: Option<Record>, intent: InstallIntent, digest: Digest) {
    match current
    case None => intent.desired.Installed? && intent.acknowledged == ""
    case Some(record) =>
      && record.provider == intent.provider && record.installationID == intent.installationID
      && record.targetID == intent.targetID
      && if intent.operationID == record.operationID then
           && digest == record.digest
           && (if record.desired.Installed? then
                 || (record.acknowledged == "" && (intent.acknowledged == "" || intent.acknowledged == intent.operationID))
                 || (record.acknowledged == intent.operationID && intent.acknowledged == intent.operationID)
               else intent.acknowledged == record.acknowledged)
         else
           && !record.desired.Absent?
           && intent.desired.Absent?
           && intent.acknowledged == record.acknowledged
  }

  function RecordOf(command: Command, state: TaskState, version: nat): Record {
    Record(command.intent.provider, command.intent.installationID, command.intent.targetID,
           command.intent.operationID, command.digest, command.intent.desired, command.intent.acknowledged, state, version)
  }

  // ---------------------------------------------------------------- what a record can become

  /** A record that decoded commands and acknowledgements can produce. */
  predicate WellFormed(record: Record) {
    && record.operationID != ""
    && (record.desired.Installed? || record.desired.Absent?)
    && record.digest.operationID == record.operationID
    && record.digest.desired == record.desired
    && (record.desired.Installed? ==> record.acknowledged == "" || record.acknowledged == record.operationID)
  }

  predicate WellFormedCommand(command: Command) {
    && command.intent.operationID != ""
    && (command.intent.desired.Installed? || command.intent.desired.Absent?)
    && command.digest == DigestOf(command.intent)
    && (command.intent.desired.Installed? ==> command.intent.acknowledged == "")
  }

  predicate SameInstallation(a: Record, b: Record) {
    a.provider == b.provider && a.installationID == b.installationID && a.targetID == b.targetID
  }

  /** `later` is where `earlier` may have got to: first an unacknowledged install, then at most
      its own acknowledgement, then at most one uninstall, which keeps the acknowledgement and
      is never left. The identity and the content of an operation never change. */
  predicate Later(earlier: Option<Record>, later: Option<Record>) {
    match earlier
    case None => true
    case Some(a) =>
      later.Some? &&
      var b := later.value;
      && SameInstallation(a, b)
      && if b.operationID == a.operationID then
           && b.digest == a.digest && b.desired == a.desired
           && (b.acknowledged == a.acknowledged
               || (a.desired.Installed? && a.acknowledged == "" && b.acknowledged == a.operationID))
         else
           && a.desired.Installed? && b.desired.Absent?
           && (b.acknowledged == a.acknowledged || (a.acknowledged == "" && b.acknowledged == a.operationID))
  }

  lemma LaterTransitive(a: Option<Record>, b: Option<Record>, c: Option<Record>)
    requires Later(a, b) && Later(b, c)
    requires a.Some? ==> WellFormed(a.value)
    requires b.Some? ==> WellFormed(b.value)
    requires c.Some? ==> WellFormed(c.value)
    ensures Later(a, c)
  {
  }

  /** An accepted command moves the record forward. */
  lemma AcceptedIsLater(current: Option<Record>, command: Command, state: TaskState, version: nat)
    requires current.Some? ==> WellFormed(current.value)
    requires WellFormedCommand(command) && ValidProgress(current, command.intent, command.digest)
    requires current.Some? && current.value.desired.Installed? && command.intent.desired.Installed? ==>
               current.value.acknowledged == ""
    ensures Later(current, Some(RecordOf(command, state, version)))
    ensures WellFormed(RecordOf(command, state, version))
    ensures current.None? ==> command.intent.desired.Installed? && command.intent.acknowledged == ""
  {
  }

  // ---------------------------------------------------------------- updater tags

  /** The dynamic updater tags: none, the acknowledgement tag with or without the tag that
      announces readiness for config updates, or an error. */
  datatype Tags = NoTags | AckTag(operationID: string, configUpdatesReady: bool) | TagError

  /** `installed`: the target object exists, is ours, is ready and has its Windows profile. */
  function ReadinessTags(identity: Identity, raw: RawIntent, record: Option<Record>, installed: bool): Tags {
    match Decode(raw, identity)
    case None => TagError
    case Some(Command(intent, digest)) =>
      if intent.acknowledged == "" then NoTags
      else if record.None? then TagError
      else
        var state := record.value;
        if state.provider != intent.provider || state.installationID != intent.installationID
           || state.targetID != intent.targetID || state.acknowledged != intent.acknowledged
        then TagError
        else if intent.desired.Installed? then
          if intent.operationID != intent.acknowledged || state.operationID != intent.acknowledged
             || !state.desired.Installed? || !state.taskState.DONE? || !installed
          then TagError
          else AckTag(intent.acknowledged, true)
        else if (state.desired.Installed? && state.operationID == intent.acknowledged && state.taskState.DONE?)
                || (state.desired.Absent? && state.operationID == intent.operationID && state.digest == digest)
        then AckTag(intent.acknowledged, false)
        else TagError
  }

  /** The readiness tag needs a finished install, acknowledged by the very intent at hand, on a
      ready target. */
  lemma ReadyTagMeans(identity: Identity, raw: RawIntent, record: Option<Record>, installed: bool)
    ensures ReadinessTags(identity, raw, record, installed) == AckTag(
              if raw.Malformed? then "" else raw.operationID, true)
       <==> && Decode(raw, identity).Some?
            && raw.desired.Installed? && raw.acknowledged == raw.operationID
            && record.Some? && installed
            && record.value.provider == identity.provider && record.value.installationID == identity.installationID
            && record.value.targetID == identity.targetID
            && record.value.desired.Installed? && record.value.taskState.DONE?
            && record.value.operationID == raw.operationID && record.value.acknowledged == raw.operationID
  {
  }

  /** Once the record is an uninstall, nothing it can become allows the readiness tag again. */
  lemma NoReadyTagAfterUninstall(identity: Identity, earlier: Record, later: Option<Record>, raw: RawIntent, installed: bool)
    requires earlier.desired.Absent? && Later(Some(earlier), later)
    ensures var tags := ReadinessTags(identity, raw, later, installed);
            tags.AckTag? ==> !tags.configUpdatesReady
  {
  }
}
