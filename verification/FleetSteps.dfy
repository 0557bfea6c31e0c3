/** The worker, the background operation and a crash keep the invariants. */
module FleetSteps {
  import opened Json
  import opened PendingSlot
  import opened Packages
  import opened DatadogAgent
  import opened Experiments
  import opened ExperimentProofs
  import opened Installation
  import opened FleetWorld
  import opened FleetInvariants

  // ---------------------------------------------------------------- the core under daemon reports

  /** A task report changes nothing the invariants about the core look at. */
  lemma TaskReportKeepsCore(w: World, taskID: string, state: TaskState)
    requires LocksOK(w) && ProvenanceOK(w)
    ensures var after := w.(core := ReportTask(w.core, OPERATOR_PACKAGE, taskID, state));
            LocksOK(after) && ProvenanceOK(after)
  {
    var after := w.(core := ReportTask(w.core, OPERATOR_PACKAGE, taskID, state));
    TaskReportAccounted(w.core.installer, OPERATOR_PACKAGE, taskID, state);
    ObservedPromises(w, after.core.installer.log);
    AgentPromises(w.core, after.core);
  }

  lemma AgentPromises(before: Core, after: Core)
    requires PromisesKept(before) && before.installer.log <= after.installer.log
    requires forall nsn :: nsn in after.agents ==>
               SlotOf(after, nsn) == None || (nsn in before.agents && SlotOf(after, nsn) == SlotOf(before, nsn))
    ensures PromisesKept(after)
  {
    forall nsn | nsn in after.agents
      ensures PromiseKept(after.installer.log, nsn, after.agents[nsn].annotations)
    {
      if nsn in before.agents {
        PromiseStaysKept(before.installer.log, after.installer.log, nsn, before.agents[nsn].annotations);
      }
    }
  }

  // ---------------------------------------------------------------- the worker

  /** Steps of the worker that only move it along. */
  lemma MoveKeepsInv(w: World, worker: Worker, token: bool)
    requires Inv(w) && w.settings.intentsEnabled
    requires !w.worker.Accepted? && !worker.Accepted? && !worker.Waiting?
    requires worker.Blocked? ==> !worker.reason.ForFleet?
    requires worker.Rereading? ==> !w.flags.active
    requires Held(worker).Some? ==> Decoded(Held(worker).value)
    requires Held(worker).Some? && !worker.Checking? && !worker.Acknowledging? ==> WellFormedCommand(Held(worker).value)
    requires worker.Reserving? || worker.Refreshing? ==> worker.command.intent.desired.Absent?
    requires RecordSeen(w.(worker := worker))
    ensures Inv(w.(worker := worker, token := token))
  {
    var after := w.(worker := worker, token := token);
    assert RecordSeen(after) by {
      match worker {
        case Reserving(command, current) => assert SeenOK(w.(worker := worker), command, current) == SeenOK(after, command, current);
        case Refreshing(command, current) => assert SeenOK(w.(worker := worker), command, current) == SeenOK(after, command, current);
        case _ =>
      }
    }
  }

  /** While the worker is not persisting an acceptance, the reservation is free to change, and a
      task report may be added. */
  lemma ReserveKeepsInv(w: World, reserved: bool)
    requires Inv(w)
    ensures Inv(w.(flags := w.flags.(reserved := reserved)))
  {
    var after := w.(flags := w.flags.(reserved := reserved));
    assert RecordSeen(after) by {
      match w.worker {
        case Reserving(command, current) => assert SeenOK(after, command, current) == SeenOK(w, command, current);
        case Refreshing(command, current) => assert SeenOK(after, command, current) == SeenOK(w, command, current);
        case _ =>
      }
    }
  }

  lemma ReportKeepsInv(w: World, taskID: string, state: TaskState)
    requires Inv(w)
    ensures Inv(w.(core := ReportTask(w.core, OPERATOR_PACKAGE, taskID, state)))
  {
    var after := w.(core := ReportTask(w.core, OPERATOR_PACKAGE, taskID, state));
    OnlyCoreKeeps(w, after);
    TaskReportKeepsCore(w, taskID, state);
    TaskReportAccounted(w.core.installer, OPERATOR_PACKAGE, taskID, state);
  }

  /** The worker reports a task state and parks. */
  lemma ReportAndStopKeepsInv(w: World, taskID: string, state: TaskState, reason: Park)
    requires Inv(w) && w.settings.intentsEnabled && !w.worker.Accepted? && !reason.ForFleet?
    ensures Inv(w.(core := ReportTask(w.core, OPERATOR_PACKAGE, taskID, state), worker := Blocked(reason)))
  {
    ReportKeepsInv(w, taskID, state);
    MoveKeepsInv(w.(core := ReportTask(w.core, OPERATOR_PACKAGE, taskID, state)), Blocked(reason), w.token);
  }

  lemma CheckRecordKeepsInv(w: World, command: Command, choice: Choice)
    requires Inv(w) && w.worker == Checking(command) && w.settings.intentsEnabled
    ensures Inv(CheckRecord(w, command, choice))
  {
    if choice.fails {
      MoveKeepsInv(w, AfterError(w, choice), w.token);
    } else if OwnerGone(w) {
      MoveKeepsInv(w, Blocked(Idle), w.token);
    } else if !ValidProgress(w.record, command.intent, command.digest) {
      ReportAndStopKeepsInv(w, command.intent.operationID, INVALID_STATE, Stopped);
    } else {
      CheckedKeepsInv(w, command, choice);
    }
  }

  /** The record has been read and lets the command through. */
  lemma CheckedKeepsInv(w: World, command: Command, choice: Choice)
    requires Inv(w) && w.worker == Checking(command) && w.settings.intentsEnabled
    requires !choice.fails && !OwnerGone(w) && ValidProgress(w.record, command.intent, command.digest)
    ensures Inv(CheckRecord(w, command, choice))
  {
    if command.intent.desired.Installed? && command.intent.acknowledged != "" {
      if w.record.Some? && w.record.value.acknowledged == command.intent.acknowledged {
        MoveKeepsInv(w, Acknowledged(w.record.value), w.token);
      } else {
        MoveKeepsInv(w, Acknowledging(command, w.record), w.token);
      }
    } else if command.intent.desired.Absent? {
      MoveKeepsInv(w, Reserving(command, w.record), w.token);
    } else {
      DecideKeepsInv(w, command, w.record);
    }
  }

  lemma DecideKeepsInv(w: World, command: Command, current: Option<Record>)
    requires Inv(w) && !w.worker.Accepted? && w.settings.intentsEnabled
    requires Decoded(command) && WellFormedCommand(command)
    requires SeenOK(w, command, current)
    ensures Inv(Decide(w, command, current))
  {
    MoveKeepsInv(w, Decide(w, command, current).worker, w.token);
  }

  lemma ConcludeKeepsInv(w: World, command: Command, found: Record)
    requires Inv(w) && w.worker == Concluded(command, found) && w.settings.intentsEnabled
    ensures Inv(Conclude(w, command, found))
  {
    if found.taskState.DONE? {
      MoveKeepsInv(w, Commanding(command), w.token);
    } else {
      ReserveKeepsInv(w, false);
      ReportAndStopKeepsInv(w.(flags := w.flags.(reserved := false)), found.operationID, found.taskState, Idle);
    }
  }

  lemma LookAtSlotKeepsInv(w: World, command: Command)
    requires Inv(w) && w.worker == Slotting(command) && w.settings.intentsEnabled
    ensures Inv(LookAtSlot(w, command))
  {
    if !w.flags.active {
      MoveKeepsInv(w, Rereading(command), w.token);
    } else {
      var after := LookAtSlot(w, command);
      BlockKeepsInv(w, command, after.background);
    }
  }

  /** The worker waits for the active operation, which it may have cancelled. */
  lemma BlockKeepsInv(w: World, command: Command, background: Option<Background>)
    requires Inv(w) && w.worker == Slotting(command) && w.settings.intentsEnabled && w.flags.done.Some?
    requires background == w.background || (w.background.Some? && background == Some(w.background.value.(canceled := true)))
    ensures Inv(w.(worker := FleetWorld.Worker.Waiting(command, w.flags.done.value), background := background))
  {
  }

  lemma RereadKeepsInv(w: World, command: Command, choice: Choice)
    requires Inv(w) && w.worker == Rereading(command) && w.settings.intentsEnabled
    ensures Inv(Reread(w, command, choice))
  {
    if choice.fails {
      MoveKeepsInv(w, AfterError(w, choice), w.token);
    } else if OwnerGone(w) {
      MoveKeepsInv(w, Blocked(Idle), w.token);
    } else if !ValidProgress(w.record, command.intent, command.digest) {
      MoveKeepsInv(w, Blocked(Stopped), w.token);
    } else if w.record.Some? && w.record.value.operationID == command.intent.operationID && !w.record.value.taskState.RUNNING? {
      MoveKeepsInv(w, Concluded(command, w.record.value), w.token);
    } else {
      MoveKeepsInv(w, Commanding(command), w.token);
    }
  }

  /** The accepting transition. It is here that exclusion and the wake-up are established: the
      pending slot is looked at under the lock that sets the flags. */
  lemma CommandKeepsInv(w: World, command: Command, fails: bool)
    requires Inv(w) && w.worker == Commanding(command) && w.settings.intentsEnabled
    ensures Inv(HandleCommand(w, command, fails))
  {
    match ShouldWait(w, command.intent.desired, fails) {
      case None => MoveKeepsInv(w, Retrying, w.token);
      case Some(true) => WaitKeepsInv(w, command, fails);
      case Some(false) =>
        if w.flags.active { RefuseKeepsInv(w); } else { AcceptKeepsInv(w, command, fails); }
    }
  }

  lemma WaitKeepsInv(w: World, command: Command, fails: bool)
    requires Inv(w) && w.worker == Commanding(command) && w.settings.intentsEnabled
    requires ShouldWait(w, command.intent.desired, fails) == Some(true)
    ensures Inv(w.(flags := w.flags.(waiting := true), worker := Blocked(ForFleet(command.intent.desired))))
  {
    if command.intent.desired.Absent? { WaitExcludesActive(w, fails); }
  }

  lemma RefuseKeepsInv(w: World)
    requires Inv(w) && w.worker.Commanding? && w.settings.intentsEnabled
    ensures Inv(w.(flags := w.flags.(waiting := false), worker := Blocked(Stopped)))
  {
  }

  lemma AcceptKeepsInv(w: World, command: Command, fails: bool)
    requires Inv(w) && w.worker == Commanding(command) && w.settings.intentsEnabled
    requires ShouldWait(w, command.intent.desired, fails) == Some(false) && !w.flags.active
    ensures Inv(HandleCommand(w, command, fails))
  {
    var after := HandleCommand(w, command, fails);
    TaskReportKeepsCore(w, command.intent.operationID, RUNNING);
    TaskReportAccounted(w.core.installer, OPERATOR_PACKAGE, command.intent.operationID, RUNNING);
    AcceptKeepsChannels(w, after);
    assert LocksOK(after) && ProvenanceOK(after);
    assert Exclusion(after);
    assert RecordOK(after);
  }

  /** An uninstall that must wait is not up against an active operation, by exclusion. */
  lemma WaitExcludesActive(w: World, fails: bool)
    requires Inv(w) && ShouldWait(w, Absent, fails) == Some(true)
    ensures !w.flags.active
  {
  }

  lemma AcceptKeepsChannels(w: World, after: World)
    requires ChannelsOK(w) && !w.flags.active && FlagsOK(w)
    requires after.instances == w.instances + 1 && after.flags.done == Some(w.instances)
    requires after.closed == w.closed && after.abandoned == w.abandoned && after.worker.Accepted?
    ensures ChannelsOK(after)
  {
  }

  /** Ending the current operation closes its own channel, once. */
  lemma EndKeepsChannels(w: World, operationID: string)
    requires ChannelsOK(w) && w.flags.operationID == operationID
    requires w.flags.active && w.flags.done.Some?
    ensures var after := EndOperation(w, operationID);
            ChannelsOK(after) && after.closed == w.closed + [w.flags.done.value]
  {
    var after := EndOperation(w, operationID);
    forall n: nat | n < after.instances
      ensures n in after.closed || n in after.abandoned || after.flags.done == Some(n)
    {
      if n in w.closed { } else if w.flags.done == Some(n) { assert after.closed[|w.closed|] == n; }
    }
  }

  lemma PersistAcceptanceKeepsInv(w: World, command: Command, instance: nat, choice: Choice)
    requires Inv(w) && w.worker == Accepted(command, instance) && w.settings.intentsEnabled
    ensures Inv(PersistAcceptance(w, command, instance, choice))
  {
    if choice.outcome.Landed? {
      LandedAcceptanceKeepsInv(w, command, instance, choice);
    } else {
      FailedAcceptanceKeepsInv(w, command, instance, choice);
    }
  }

  lemma LandedAcceptanceKeepsInv(w: World, command: Command, instance: nat, choice: Choice)
    requires Inv(w) && w.worker == Accepted(command, instance) && w.settings.intentsEnabled && choice.outcome.Landed?
    ensures Inv(PersistAcceptance(w, command, instance, choice))
  {
    AcceptedIsLater(w.record, command, RUNNING, w.recordVersion + 1);
    AcceptedRuns(w, command, instance);
  }

  lemma FailedAcceptanceKeepsInv(w: World, command: Command, instance: nat, choice: Choice)
    requires Inv(w) && w.worker == Accepted(command, instance) && w.settings.intentsEnabled && !choice.outcome.Landed?
    ensures Inv(PersistAcceptance(w, command, instance, choice))
  {
    AcceptedIsLater(w.record, command, RUNNING, w.recordVersion + 1);
    var written := if choice.outcome.Refused? then w else WriteRecord(w, RecordOf(command, RUNNING, 0));
    RefusedAcceptanceEnds(w, command, instance, choice);
    RefusedAcceptanceKeepsInv(w, command, written, AfterError(w, choice));
  }

  /** The acceptance is on record and the operation starts. */
  lemma AcceptedRuns(w: World, command: Command, instance: nat)
    requires Inv(w) && w.worker == Accepted(command, instance) && w.settings.intentsEnabled
    requires WellFormed(RecordOf(command, RUNNING, w.recordVersion + 1))
    ensures var written := WriteRecord(w, RecordOf(command, RUNNING, 0));
            Inv(ParkWorker(written.(background := Some(Background(instance, command, false, FirstPc(command.intent.desired)))), Idle))
  {
  }

  /** The operation that was accepted is the active one, so it is ended. */
  lemma RefusedAcceptanceEnds(w: World, command: Command, instance: nat, choice: Choice)
    requires w.flags.operationID == command.intent.operationID && !choice.outcome.Landed?
    ensures var written := if choice.outcome.Refused? then w else WriteRecord(w, RecordOf(command, RUNNING, 0));
            var ended := EndOperation(written, command.intent.operationID);
            PersistAcceptance(w, command, instance, choice)
            == ended.(flags := ended.flags.(reserved := false), worker := AfterError(w, choice))
  {
  }

  /** An acceptance that could not be persisted, though it may be on record, ends at once. */
  lemma RefusedAcceptanceKeepsInv(w: World, command: Command, written: World, worker: Worker)
    requires Inv(w) && w.worker.Accepted? && w.worker.command == command && w.settings.intentsEnabled
    requires written == w.(record := written.record, recordVersion := written.recordVersion)
    requires written.record.Some? ==> WellFormed(written.record.value) && written.record.value.version <= written.recordVersion
    requires worker == Retrying || worker == Blocked(Idle)
    ensures var ended := EndOperation(written, command.intent.operationID);
            Inv(ended.(flags := ended.flags.(reserved := false), worker := worker))
  {
    EndKeepsChannels(written, command.intent.operationID);
    var ended := EndOperation(written, command.intent.operationID);
    var after := ended.(flags := ended.flags.(reserved := false), worker := worker);
    assert ChannelsOK(after);
    assert FlagsOK(after);
  }

  lemma CheckAcknowledgeableKeepsInv(w: World, command: Command, current: Option<Record>, choice: Choice)
    requires Inv(w) && w.worker == Acknowledging(command, current) && w.settings.intentsEnabled
    ensures Inv(CheckAcknowledgeable(w, command, current, choice))
  {
    AcknowledgeableShape(w, command, current, choice);
    MoveKeepsInv(w, CheckAcknowledgeable(w, command, current, choice).worker, w.token);
  }

  lemma AcknowledgeableShape(w: World, command: Command, current: Option<Record>, choice: Choice)
    ensures var after := CheckAcknowledgeable(w, command, current, choice);
            && after == w.(worker := after.worker)
            && (|| after.worker == Retrying || after.worker == Blocked(Idle) || after.worker == Blocked(Stopped)
                || (current.Some? && current.value.desired.Installed? && current.value.taskState.DONE?
                    && after.worker == Confirming(current.value)))
  {
  }

  lemma PersistAcknowledgementKeepsInv(w: World, found: Record, choice: Choice)
    requires Inv(w) && w.worker == Confirming(found) && w.settings.intentsEnabled
    ensures Inv(PersistAcknowledgement(w, found, choice))
  {
    if choice.outcome.Refused? {
      MoveKeepsInv(w, AfterError(w, choice), w.token);
    } else {
      var acknowledged := found.(acknowledged := found.operationID);
      AcknowledgedKeepsInv(w, found, if choice.outcome.Landed? then Acknowledged(acknowledged) else AfterError(w, choice));
    }
  }

  /** The acknowledgement is on record, whatever the worker was told. */
  lemma AcknowledgedKeepsInv(w: World, found: Record, worker: Worker)
    requires Inv(w) && w.worker == Confirming(found) && w.settings.intentsEnabled
    requires worker == Acknowledged(found.(acknowledged := found.operationID)) || worker == Retrying || worker == Blocked(Idle)
    ensures Inv(WriteRecord(w, found.(acknowledged := found.operationID)).(worker := worker))
  {
  }

  lemma ReleaseShape(w: World, found: Record, choice: Choice)
    ensures var after := ReleaseAfterAcknowledgement(w, found, choice);
            && after == w.(flags := w.flags.(reserved := after.flags.reserved), worker := after.worker)
            && (after.worker == Retrying || after.worker == Blocked(Stopped) || after.worker == Blocked(Idle))
  {
  }

  lemma ReleaseKeepsInv(w: World, found: Record, choice: Choice)
    requires Inv(w) && w.worker == Acknowledged(found) && w.settings.intentsEnabled
    ensures Inv(ReleaseAfterAcknowledgement(w, found, choice))
  {
    ReleaseShape(w, found, choice);
    var after := ReleaseAfterAcknowledgement(w, found, choice);
    ReleasedKeepsInv(w, after.flags.reserved, after.worker);
  }

  lemma ReleasedKeepsInv(w: World, reserved: bool, worker: Worker)
    requires Inv(w) && w.worker.Acknowledged? && w.settings.intentsEnabled
    requires worker == Retrying || worker == Blocked(Stopped) || worker == Blocked(Idle)
    ensures Inv(w.(flags := w.flags.(reserved := reserved), worker := worker))
  {
    ReserveKeepsInv(w, reserved);
    MoveKeepsInv(w.(flags := w.flags.(reserved := reserved)), worker, w.token);
  }

  lemma WorkerKeepsInv(w: World, choice: Choice)
    requires Inv(w) && w.settings.identity.Some? && w.settings.intentsEnabled
    ensures Inv(DoWorker(w, choice))
  {
    if Prepares(w.worker) { PreparingKeepsInv(w, choice); }
    else if Proceeds(w.worker) { ProceedingKeepsInv(w, choice); }
    else if Acknowledges(w.worker) { AcknowledgingKeepsInv(w, choice); }
    else { WakingKeepsInv(w, choice); }
  }

  lemma WakingKeepsInv(w: World, choice: Choice)
    requires Inv(w) && w.settings.identity.Some? && w.settings.intentsEnabled
    requires w.worker.Blocked? || w.worker.Retrying? || w.worker.Reading?
    ensures Inv(WakeWorker(w, choice))
  {
    match w.worker {
      case Blocked(_) => if w.token { MoveKeepsInv(w, Reading, false); }
      case Retrying => MoveKeepsInv(w, Reading, w.token && choice.holds);
      case Reading => ReadingKeepsInv(w, choice);
    }
  }

  lemma ReservingKeepsInv(w: World, command: Command, current: Option<Record>)
    requires Inv(w) && w.settings.intentsEnabled && w.worker == Reserving(command, current)
    ensures Inv(w.(flags := w.flags.(reserved := true), worker := Refreshing(command, current)))
  {
    ReserveKeepsInv(w, true);
    MoveKeepsInv(w.(flags := w.flags.(reserved := true)), Refreshing(command, current), w.token);
  }

  lemma PreparingKeepsInv(w: World, choice: Choice)
    requires Inv(w) && w.settings.intentsEnabled && Prepares(w.worker)
    ensures Inv(PrepareWorker(w, choice))
  {
    match w.worker {
      case Checking(command) => CheckRecordKeepsInv(w, command, choice);
      case Reserving(command, current) => ReservingKeepsInv(w, command, current);
      case Refreshing(command, current) =>
        if choice.fails { MoveKeepsInv(w, AfterError(w, choice), w.token); } else { DecideKeepsInv(w, command, current); }
      case Concluded(command, found) => ConcludeKeepsInv(w, command, found);
    }
  }

  lemma ProceedingKeepsInv(w: World, choice: Choice)
    requires Inv(w) && w.settings.intentsEnabled && Proceeds(w.worker)
    ensures Inv(ProceedWorker(w, choice))
  {
    match w.worker {
      case Slotting(command) => LookAtSlotKeepsInv(w, command);
      case Waiting(command, instance) => WaitingKeepsInv(w, command, instance);
      case Rereading(command) => RereadKeepsInv(w, command, choice);
      case Commanding(command) => CommandKeepsInv(w, command, choice.fails);
      case Accepted(command, instance) => PersistAcceptanceKeepsInv(w, command, instance, choice);
    }
  }

  lemma AcknowledgingKeepsInv(w: World, choice: Choice)
    requires Inv(w) && w.settings.intentsEnabled && Acknowledges(w.worker)
    ensures Inv(AcknowledgeWorker(w, choice))
  {
    match w.worker {
      case Acknowledging(command, current) => CheckAcknowledgeableKeepsInv(w, command, current, choice);
      case Confirming(found) => PersistAcknowledgementKeepsInv(w, found, choice);
      case Acknowledged(found) => ReleaseKeepsInv(w, found, choice);
    }
  }

  lemma ReadingKeepsInv(w: World, choice: Choice)
    requires Inv(w) && w.worker == Reading && w.settings.identity.Some? && w.settings.intentsEnabled
    ensures Inv(WakeWorker(w, choice))
  {
    if choice.fails {
      MoveKeepsInv(w, Retrying, w.token);
    } else if w.intent.None? {
      MoveKeepsInv(w, Blocked(Idle), w.token);
    } else {
      match Decode(w.intent.value, w.settings.identity.value) {
        case None => MoveKeepsInv(w, Blocked(Stopped), w.token);
        case Some(command) => MoveKeepsInv(w, Checking(command), w.token);
      }
    }
  }

  /** When the operation the worker waits for has ended, none is active. */
  lemma WaitingKeepsInv(w: World, command: Command, instance: nat)
    requires Inv(w) && w.worker == Waiting(command, instance) && w.settings.intentsEnabled
    ensures instance in w.closed ==> Inv(w.(worker := Rereading(command)))
  {
    if instance in w.closed {
      MoveKeepsInv(w, Rereading(command), w.token);
    }
  }

  // ---------------------------------------------------------------- the background operation

  /** Where the operation may move: what it newly holds is what the server has, and passed the
      checks if it is to be marked ready. */
  predicate Fits(w: World, b: Background, pc: Pc) {
    && !pc.Recorded? && !pc.Finishing?
    && (IsUninstallPc(pc) ==> b.command.intent.desired.Absent?)
    && (HeldAgent(pc).Some? ==>
          w.settings.target in w.core.agents && w.core.agents[w.settings.target] == HeldAgent(pc).value)
    && (pc.PatchReady? ==> MayBecomeReady(w, pc.held, pc.uid, b.command.intent.operationID))
  }

  lemma GotoKeepsInv(w: World, b: Background, pc: Pc)
    requires Inv(w) && w.background == Some(b) && ResultPending(w)
    requires Fits(w, b, pc)
    ensures Inv(Goto(w, b, pc))
  {
    var after := Goto(w, b, pc);
    assert RecordSeen(after) by { SameRecordSeen(w, after); }
  }

  /** The worker's view of the record depends only on the record and on whether a result is
      still to come. */
  lemma SameRecordSeen(w: World, after: World)
    requires RecordSeen(w) && after.worker == w.worker && after.record == w.record
    requires ResultPending(after) ==> ResultPending(w)
    requires after.background.Some? ==> w.background.Some?
    ensures RecordSeen(after)
  {
    match w.worker {
      case Reserving(command, current) => assert SeenOK(after, command, current) == SeenOK(w, command, current);
      case Refreshing(command, current) => assert SeenOK(after, command, current) == SeenOK(w, command, current);
      case _ =>
    }
  }

  /** Only the core changes, and the target's slot stays free. */
  lemma CoreChangeKeepsInv(w: World, after: World)
    requires Inv(w) && w.background.Some?
    requires after == w.(core := after.core, nextUid := after.nextUid)
    requires Rewritten(w.core, after.core)
    requires forall nsn :: nsn in after.core.agents && nsn != w.settings.target ==>
               nsn in w.core.agents && after.core.agents[nsn] == w.core.agents[nsn]
    requires SlotOf(after.core, w.settings.target) == None
    requires Accounted(after.core.installer) && w.core.installer.log <= after.core.installer.log
    requires after.core.installer.packages == w.core.installer.packages
             || Versions(after.core.installer.packages, OPERATOR_PACKAGE).1 == ""
    ensures Inv(after)
  {
    RewrittenKeepsLocks(w, after);
    ObservedPromises(w, after.core.installer.log);
    AgentPromises(w.core, after.core);
    SameRecordSeen(w, after);
  }

  lemma PublishKeepsInv(w: World, configID: string)
    requires Inv(w) && w.background.Some?
    ensures Inv(PublishPartial(w, configID))
  {
    VersionedKeepsInv(w, PARTIAL_PREFIX + configID);
  }

  /** A locked write of a new label or hash over the object that was read. */
  lemma LockedPutKeepsInv(w: World, held: Agent, patched: Agent, outcome: Outcome)
    requires Inv(w) && w.background.Some? && HeldAgent(w.background.value.pc) == Some(held)
    requires SamePendingKeys(held.annotations, patched.annotations)
    ensures LockedPut(w, held, patched, outcome).Some? ==> Inv(LockedPut(w, held, patched, outcome).value)
  {
    match LockedPut(w, held, patched, outcome) {
      case None =>
      case Some(after) =>
        assert Slot(w.settings.target, patched) == Slot(w.settings.target, held);
        CoreChangeKeepsInv(w, after);
    }
  }

  /** A step that leads from `base` (the world with the step's effect on the core) on to a
      fitting place. */
  predicate Leads(base: World, b: Background, after: World) {
    after.background.Some? && after == Goto(base, b, after.background.value.pc) && Fits(base, b, after.background.value.pc)
  }

  lemma LeadsKeepsInv(base: World, b: Background, after: World)
    requires Inv(base) && base.background == Some(b) && ResultPending(base) && Leads(base, b, after)
    ensures Inv(after)
  {
    GotoKeepsInv(base, b, after.background.value.pc);
  }

  function Created(w: World, b: Background, choice: Choice): World {
    w.(core := Put(w.core, w.settings.target, NewAgent(w, b.command, choice.spec)), nextUid := w.nextUid + 1)
  }

  lemma CreateConflictLeads(w: World, b: Background, choice: Choice)
    requires w.settings.target in w.core.agents || choice.outcome.Refused?
    ensures Leads(w, b, DoCreate(w, b, choice))
  {
  }

  lemma CreateLandedLeads(w: World, b: Background, choice: Choice)
    requires w.settings.target !in w.core.agents && choice.outcome.Landed?
    ensures Leads(PublishPartial(Created(w, b, choice), b.command.intent.operationID), b, DoCreate(w, b, choice))
  {
  }

  lemma CreateUncertainLeads(w: World, b: Background, choice: Choice)
    requires w.settings.target !in w.core.agents && choice.outcome.LandedButReportedFailed?
    ensures Leads(Created(w, b, choice), b, DoCreate(w, b, choice))
  {
  }

  lemma CreatedKeepsInv(w: World, b: Background, choice: Choice)
    requires Inv(w) && w.background == Some(b) && w.settings.target !in w.core.agents
    ensures Inv(Created(w, b, choice))
  {
    assert Lookup(NewAgent(w, b.command, choice.spec).annotations, PendingAction) == "";
    CoreChangeKeepsInv(w, Created(w, b, choice));
  }

  lemma CreateKeepsInv(w: World, b: Background, choice: Choice)
    requires Inv(w) && w.background == Some(b) && ResultPending(w)
    ensures Inv(DoCreate(w, b, choice))
  {
    var after := DoCreate(w, b, choice);
    if w.settings.target in w.core.agents || choice.outcome.Refused? {
      CreateConflictLeads(w, b, choice);
      LeadsKeepsInv(w, b, after);
    } else {
      var created := Created(w, b, choice);
      CreatedKeepsInv(w, b, choice);
      if choice.outcome.Landed? {
        PublishKeepsInv(created, b.command.intent.operationID);
        CreateLandedLeads(w, b, choice);
        LeadsKeepsInv(PublishPartial(created, b.command.intent.operationID), b, after);
      } else {
        CreateUncertainLeads(w, b, choice);
        LeadsKeepsInv(created, b, after);
      }
    }
  }

  lemma RecoverLeads(w: World, b: Background, choice: Choice)
    ensures var after := DoRecover(w, b, choice);
            if Recoverable(w, b, choice) then Leads(PublishPartial(w, b.command.intent.operationID), b, after) else Leads(w, b, after)
  {
    if Recoverable(w, b, choice) {
      var agent := w.core.agents[w.settings.target];
      ReplayFits(PublishPartial(w, b.command.intent.operationID), b, ReplayOf(w, agent, b.command, choice.holds), agent.uid,
                 CheckRecovered(agent.uid), ToRecovered);
    }
  }

  lemma ReplayFits(w: World, b: Background, replay: Replay, uid: nat, accepted: Pc, hashNext: HashNext)
    requires Fits(w, b, accepted)
    ensures Fits(w, b, ReplayPc(replay, uid, accepted, hashNext))
  {
  }

  lemma RecoverKeepsInv(w: World, b: Background, choice: Choice)
    requires Inv(w) && w.background == Some(b) && ResultPending(w)
    ensures Inv(DoRecover(w, b, choice))
  {
    RecoverLeads(w, b, choice);
    var after := DoRecover(w, b, choice);
    if !Recoverable(w, b, choice) {
      LeadsKeepsInv(w, b, after);
    } else {
      PublishKeepsInv(w, b.command.intent.operationID);
      LeadsKeepsInv(PublishPartial(w, b.command.intent.operationID), b, after);
    }
  }

  lemma LockedStepKeepsInv(w: World, b: Background, held: Agent, patched: Agent, outcome: Outcome, after: World)
    requires Inv(w) && w.background == Some(b) && ResultPending(w) && HeldAgent(b.pc) == Some(held)
    requires SamePendingKeys(held.annotations, patched.annotations)
    requires match LockedPut(w, held, patched, outcome)
             case None => Leads(w, b, after)
             case Some(written) => Leads(written, b, after)
    ensures Inv(after)
  {
    LockedPutKeepsInv(w, held, patched, outcome);
    match LockedPut(w, held, patched, outcome) {
      case None => LeadsKeepsInv(w, b, after);
      case Some(written) => LeadsKeepsInv(written, b, after);
    }
  }

  /** A locked write leads on from the world before it (a conflict) or after it. */
  lemma PatchHashLeads(w: World, b: Background, held: Agent, hash: string, hashNext: HashNext, choice: Choice)
    ensures var after := DoPatchHash(w, b, held, hash, hashNext, choice);
            match LockedPut(w, held, held.(annotations := held.annotations[ConfigHash := hash]), choice.outcome)
            case None => Leads(w, b, after)
            case Some(written) => Leads(written, b, after)
  {
  }

  lemma HashIsNotPending(annotations: AnnotationMap, hash: string)
    ensures SamePendingKeys(annotations, annotations[ConfigHash := hash])
  {
  }

  lemma PatchHashKeepsInv(w: World, b: Background, choice: Choice)
    requires Inv(w) && w.background == Some(b) && b.pc.PatchHash?
    ensures Inv(DoPatchHash(w, b, b.pc.held, b.pc.hash, b.pc.hashNext, choice))
  {
    var held := b.pc.held;
    var patched := held.(annotations := held.annotations[ConfigHash := b.pc.hash]);
    var after := DoPatchHash(w, b, held, b.pc.hash, b.pc.hashNext, choice);
    HashIsNotPending(held.annotations, b.pc.hash);
    PatchHashLeads(w, b, held, b.pc.hash, b.pc.hashNext, choice);
    LockedStepKeepsInv(w, b, held, patched, choice.outcome, after);
  }

  lemma AfterPartialKeepsInv(w: World, b: Background, uid: nat, configID: string, why: PartialReason)
    requires Inv(w) && w.background == Some(b) && ResultPending(w)
    ensures Inv(AfterPartial(w, b, uid, configID, why))
  {
    PublishKeepsInv(w, configID);
    var after := AfterPartial(w, b, uid, configID, why);
    assert Leads(PublishPartial(w, configID), b, after);
    LeadsKeepsInv(PublishPartial(w, configID), b, after);
  }

  lemma ReadForPartialFits(w: World, b: Background, uid: nat, why: PartialReason, choice: Choice)
    ensures Fits(w, b, ReadForPartialPc(w, uid, why, choice))
  {
  }

  lemma ReadForPartialKeepsInv(w: World, b: Background, uid: nat, why: PartialReason, choice: Choice)
    requires Inv(w) && w.background == Some(b) && ResultPending(w)
    ensures Inv(DoReadForPartial(w, b, uid, why, choice))
  {
    if FoundPartial(w, uid, choice) {
      AfterPartialKeepsInv(w, b, uid, Label(w.core.agents[w.settings.target], ConfigID), why);
    } else {
      ReadForPartialFits(w, b, uid, why, choice);
      GotoKeepsInv(w, b, ReadForPartialPc(w, uid, why, choice));
    }
  }

  lemma PatchPartialLeads(w: World, b: Background, held: Agent, why: PartialReason, choice: Choice)
    ensures var after := DoPatchPartial(w, b, held, why, choice);
            match LockedPut(w, held, held.(labels := held.labels[InstallState := STATE_PARTIAL]), choice.outcome)
            case None => Leads(w, b, after)
            case Some(written) =>
              if choice.outcome.Landed? then after == AfterPartial(written, b, held.uid, Label(held, ConfigID), why)
              else Leads(written, b, after)
  {
  }

  lemma PatchPartialKeepsInv(w: World, b: Background, choice: Choice)
    requires Inv(w) && w.background == Some(b) && b.pc.PatchPartial?
    ensures Inv(DoPatchPartial(w, b, b.pc.held, b.pc.why, choice))
  {
    var held := b.pc.held;
    var patched := held.(labels := held.labels[InstallState := STATE_PARTIAL]);
    var after := DoPatchPartial(w, b, held, b.pc.why, choice);
    LockedPutKeepsInv(w, held, patched, choice.outcome);
    PatchPartialLeads(w, b, held, b.pc.why, choice);
    match LockedPut(w, held, patched, choice.outcome) {
      case None => LeadsKeepsInv(w, b, after);
      case Some(written) =>
        if choice.outcome.Landed? {
          AfterPartialKeepsInv(written, b, held.uid, Label(held, ConfigID), b.pc.why);
        } else {
          LeadsKeepsInv(written, b, after);
        }
    }
  }

  lemma PatchReadyLeads(w: World, b: Background, uid: nat, held: Agent, existing: bool, choice: Choice)
    ensures var after := DoPatchReady(w, b, uid, held, existing, choice);
            match LockedPut(w, held, held.(labels := held.labels[InstallState := STATE_READY]), choice.outcome)
            case None => Leads(w, b, after)
            case Some(written) => Leads(written, b, after)
  {
  }

  lemma PatchReadyKeepsInv(w: World, b: Background, uid: nat, held: Agent, existing: bool, choice: Choice)
    requires Inv(w) && w.background == Some(b) && ResultPending(w) && HeldAgent(b.pc) == Some(held)
    ensures Inv(DoPatchReady(w, b, uid, held, existing, choice))
  {
    PatchReadyLeads(w, b, uid, held, existing, choice);
    LockedStepKeepsInv(w, b, held, held.(labels := held.labels[InstallState := STATE_READY]), choice.outcome,
                       DoPatchReady(w, b, uid, held, existing, choice));
  }

  lemma LookFits(w: World, b: Background, choice: Choice)
    requires OnlyLooks(b.pc)
    ensures Fits(w, b, LookPc(w, b, choice))
  {
    match b.pc {
      case GetExisting => ExistingFits(w, b, choice);
      case ReadForHash(uid, hash, hashNext) => ReadForHashFits(w, b, uid, hash, hashNext, choice);
      case ReadForReady(uid, existing) => ReadForReadyFits(w, b, uid, existing, choice);
      case Completing(uid) => CompleteFits(w, b, uid, choice);
      case _ =>
    }
  }

  lemma ExistingFits(w: World, b: Background, choice: Choice)
    ensures Fits(w, b, ExistingPc(w, b, choice))
  {
  }

  lemma ReadForHashFits(w: World, b: Background, uid: nat, hash: string, hashNext: HashNext, choice: Choice)
    ensures Fits(w, b, ReadForHashPc(w, b, uid, hash, hashNext, choice))
  {
  }

  lemma ReadForReadyFits(w: World, b: Background, uid: nat, existing: bool, choice: Choice)
    ensures Fits(w, b, ReadForReadyPc(w, b, uid, existing, choice))
  {
  }

  lemma CompleteFits(w: World, b: Background, uid: nat, choice: Choice)
    ensures Fits(w, b, CompletePc(w, b, uid, choice))
  {
  }

  lemma InstallKeepsInv(w: World, b: Background, choice: Choice)
    requires Inv(w) && w.background == Some(b) && !IsUninstallPc(b.pc) && !IsRecordPc(b.pc)
    ensures Inv(DoInstall(w, b, choice))
  {
    if OnlyLooks(b.pc) {
      LookFits(w, b, choice);
      GotoKeepsInv(w, b, LookPc(w, b, choice));
    } else {
      ChangeKeepsInv(w, b, choice);
    }
  }

  lemma ChangeKeepsInv(w: World, b: Background, choice: Choice)
    requires Inv(w) && w.background == Some(b) && !OnlyLooks(b.pc) && !IsUninstallPc(b.pc) && !IsRecordPc(b.pc)
    ensures Inv(DoChange(w, b, choice))
  {
    match b.pc {
      case Creating => CreateKeepsInv(w, b, choice);
      case Recovering => RecoverKeepsInv(w, b, choice);
      case ReadForPartial(uid, why) => ReadForPartialKeepsInv(w, b, uid, why, choice);
      case PatchHash(_, _, _) => PatchHashKeepsInv(w, b, choice);
      case PatchPartial(_, _) => PatchPartialKeepsInv(w, b, choice);
      case PatchReady(_, _, _) => ReadyingKeepsInv(w, b, choice);
    }
  }

  lemma ReadyingKeepsInv(w: World, b: Background, choice: Choice)
    requires Inv(w) && w.background == Some(b) && b.pc.PatchReady?
    ensures Inv(DoChange(w, b, choice))
  {
    assert ResultPending(w);
    PatchReadyKeepsInv(w, b, b.pc.uid, b.pc.held, b.pc.existing, choice);
  }

  /** A deletion touches the target only, whose slot is free while the operation is active. */
  lemma DeleteKeepsInv(w: World, b: Background, uid: nat, choice: Choice)
    requires Inv(w) && w.background == Some(b) && b.pc.Deleting?
    ensures Inv(DoDelete(w, b, uid, choice))
  {
    DeleteLeads(w, b, uid, choice);
    var after := DoDelete(w, b, uid, choice);
    DeletedKeepsInv(w, after.core);
    LeadsKeepsInv(w.(core := after.core), b, after);
  }

  /** The cores a deletion can leave: the target unchanged, terminating or gone. */
  predicate Deleted(w: World, core: Core) {
    var target := w.settings.target;
    || core == w.core
    || core == w.core.(agents := w.core.agents - {target}, version := w.core.version + 1)
    || (target in w.core.agents && core == Put(w.core, target, w.core.agents[target].(terminating := true)))
  }

  lemma DeleteLeads(w: World, b: Background, uid: nat, choice: Choice)
    requires b.command.intent.desired.Absent?
    ensures var after := DoDelete(w, b, uid, choice);
            Deleted(w, after.core) && Leads(w.(core := after.core), b, after)
  {
  }

  lemma DeletedKeepsInv(w: World, core: Core)
    requires Inv(w) && w.background.Some? && Deleted(w, core)
    ensures Inv(w.(core := core))
  {
    CoreChangeKeepsInv(w, w.(core := core));
  }

  lemma UninstallKeepsInv(w: World, b: Background, choice: Choice)
    requires Inv(w) && w.background == Some(b) && IsUninstallPc(b.pc)
    ensures Inv(DoUninstall(w, b, choice))
  {
    if b.pc.Deleting? {
      DeleteKeepsInv(w, b, b.pc.uid, choice);
    } else {
      GotoKeepsInv(w, b, UninstallPc(w, b, choice));
    }
  }

  /** Moving past the write of the result. */
  lemma ResultDoneKeepsInv(w: World, b: Background, pc: Pc)
    requires Inv(w) && w.background == Some(b) && (pc.Recorded? || pc.Finishing?)
    ensures Inv(Goto(w, b, pc))
  {
    SameRecordSeen(w, Goto(w, b, pc));
  }

  /** Writing the result over the record that was read keeps everything in order. The worker
      acts on no record while a result is pending. */
  lemma WriteResultKeepsInv(w: World, b: Background, result: TaskState, pc: Pc)
    requires Inv(w) && w.background == Some(b) && ResultPending(w) && (pc.Recorded? || pc.Finishing?)
    ensures Inv(Goto(WriteRecord(w, RecordOf(b.command, result, 0)), b, pc))
  {
    var after := Goto(WriteRecord(w, RecordOf(b.command, result, 0)), b, pc);
    assert WellFormed(after.record.value);
    assert RecordSeen(after) by {
      match w.worker {
        case Reserving(command, current) => assert SeenOK(w, command, current); assert SeenOK(after, command, current);
        case Refreshing(command, current) => assert SeenOK(w, command, current); assert SeenOK(after, command, current);
        case _ =>
      }
    }
  }

  lemma RecordedKeepsInv(w: World, b: Background, result: TaskState, afterwards: Afterwards)
    requires Inv(w) && w.background == Some(b) && b.pc == Recorded(result, afterwards)
    ensures Inv(DoRecorded(w, b, result, afterwards))
  {
    var operationID := b.command.intent.operationID;
    match afterwards {
      case ParkForCredential =>
        ReserveKeepsInv(w, false);
        ResultDoneKeepsInv(w.(flags := w.flags.(reserved := false)), b, Finishing);
      case TryAgain => ResultDoneKeepsInv(w, b, Finishing);
      case GiveUp =>
        ReportKeepsInv(w, operationID, result);
        var reported := w.(core := ReportTask(w.core, OPERATOR_PACKAGE, operationID, result));
        ReserveKeepsInv(reported, false);
        ResultDoneKeepsInv(reported.(flags := reported.flags.(reserved := false)), b, Finishing);
      case Succeed => SucceedKeepsInv(w, b);
    }
  }

  lemma SucceedKeepsInv(w: World, b: Background)
    requires Inv(w) && w.background == Some(b) && b.pc.Recorded?
    ensures Inv(DoRecorded(w, b, b.pc.result, Succeed))
  {
    var operationID := b.command.intent.operationID;
    var stable := if b.command.intent.desired.Installed? then operationID else "";
    var versioned := w.(core := ReportVersions(w.core, OPERATOR_PACKAGE, stable, ""));
    VersionedKeepsInv(w, stable);
    ReportAndFinish(versioned, b, operationID, DONE);
  }

  lemma ReportAndFinish(w: World, b: Background, taskID: string, state: TaskState)
    requires Inv(w) && w.background == Some(b)
    ensures Inv(Goto(w.(core := ReportTask(w.core, OPERATOR_PACKAGE, taskID, state)), b, Finishing))
  {
    ReportKeepsInv(w, taskID, state);
    ResultDoneKeepsInv(w.(core := ReportTask(w.core, OPERATOR_PACKAGE, taskID, state)), b, Finishing);
  }

  /** A report of versions by the background operation. */
  lemma VersionedKeepsInv(w: World, stable: string)
    requires Inv(w) && w.background.Some?
    ensures Inv(w.(core := ReportVersions(w.core, OPERATOR_PACKAGE, stable, "")))
  {
    VersionReportAccounted(w.core.installer, OPERATOR_PACKAGE, stable, "");
    CoreChangeKeepsInv(w, w.(core := ReportVersions(w.core, OPERATOR_PACKAGE, stable, "")));
  }

  /** An operation that finishes ends itself: the flags are its own. */
  lemma FinishingKeepsInv(w: World, b: Background)
    requires Inv(w) && w.background == Some(b) && b.pc == Finishing
    ensures Inv(EndOperation(w.(background := None), b.command.intent.operationID))
  {
    var without := w.(background := None);
    var after := EndOperation(without, b.command.intent.operationID);
    EndKeepsChannels(without, b.command.intent.operationID);
    SameRecordSeen(w, after);
  }

  lemma ReadRecordKeepsInv(w: World, b: Background, choice: Choice)
    requires Inv(w) && w.background == Some(b) && b.pc.ReadRecord?
    ensures Inv(DoRecord(w, b, choice))
  {
    if choice.fails {
      ResultDoneKeepsInv(w, b, Finishing);
    } else {
      GotoKeepsInv(w, b, PatchRecord(b.pc.result, b.pc.afterwards, w.record.value.version));
    }
  }

  lemma PatchRecordKeepsInv(w: World, b: Background, choice: Choice)
    requires Inv(w) && w.background == Some(b) && b.pc.PatchRecord?
    ensures Inv(DoRecord(w, b, choice))
  {
    var PatchRecord(result, afterwards, readVersion) := b.pc;
    if w.record.None? || choice.outcome.Refused? {
      ResultDoneKeepsInv(w, b, Finishing);
    } else if w.record.value.version != readVersion {
      GotoKeepsInv(w, b, ReadRecord(result, afterwards));
    } else {
      WriteResultKeepsInv(w, b, result, if choice.outcome.Landed? then Recorded(result, afterwards) else Finishing);
    }
  }

  lemma RecordKeepsInv(w: World, b: Background, choice: Choice)
    requires Inv(w) && w.background == Some(b) && IsRecordPc(b.pc)
    ensures Inv(DoRecord(w, b, choice))
  {
    match b.pc {
      case Failing(failure) => GotoKeepsInv(w, b, RecordFailure(b, failure));
      case ReadRecord(_, _) => ReadRecordKeepsInv(w, b, choice);
      case PatchRecord(_, _, _) => PatchRecordKeepsInv(w, b, choice);
      case Recorded(result, afterwards) => RecordedKeepsInv(w, b, result, afterwards);
      case Finishing => FinishingKeepsInv(w, b);
    }
  }

  lemma BackgroundKeepsInv(w: World, choice: Choice)
    requires Inv(w)
    ensures Inv(DoBackground(w, choice))
  {
    match w.background {
      case None =>
      case Some(b) =>
        if IsUninstallPc(b.pc) { UninstallKeepsInv(w, b, choice); }
        else if IsRecordPc(b.pc) { RecordKeepsInv(w, b, choice); }
        else { InstallKeepsInv(w, b, choice); }
    }
  }

  // ---------------------------------------------------------------- crashes

  lemma FreshAccounted(settings: Settings, log: seq<Report>)
    ensures Accounted(Installer(FreshPackages(settings), log))
  {
  }

  lemma {:induction false} LegacyAccounted(core: Core, listed: seq<NsName>)
    requires Accounted(core.installer)
    ensures var after := RehydrateLegacy(core, listed);
            after.agents == core.agents && after.version == core.version
            && Accounted(after.installer) && core.installer.log <= after.installer.log
    decreases |listed|
  {
    if listed != [] {
      var unfinished := listed[0] in core.agents && core.agents[listed[0]].experiment.Some?
                        && core.agents[listed[0]].experiment.value.id != ""
                        && !IsTerminal(core.agents[listed[0]].experiment.value.phase);
      if unfinished {
        var id := core.agents[listed[0]].experiment.value.id;
        VersionReportAccounted(core.installer, OPERATOR_PACKAGE, Versions(core.installer.packages, OPERATOR_PACKAGE).0, id);
        LegacyAccounted(ReportExperiment(core, OPERATOR_PACKAGE, id), listed[1..]);
      } else {
        LegacyAccounted(core, listed[1..]);
      }
    }
  }

  lemma RestartAccounted(settings: Settings, core: Core, readFails: bool, listed: seq<NsName>)
    ensures var after := Restart(settings, core, readFails, listed);
            after.agents == core.agents && after.version == core.version
            && Accounted(after.installer) && core.installer.log <= after.installer.log
  {
    var started := core.(installer := Installer(FreshPackages(settings), core.installer.log));
    FreshAccounted(settings, core.installer.log);
    LegacyAccounted(started, listed);
    if settings.identity.Some? {
      match RehydratedVersions(settings, core) {
        case None =>
        case Some((stable, experiment)) => VersionReportAccounted(started.installer, OPERATOR_PACKAGE, stable, experiment);
      }
    }
  }

  lemma CrashKeepsChannels(w: World, after: World)
    requires ChannelsOK(w) && after.closed == w.closed && after.instances == w.instances
    requires after.abandoned == if w.flags.done.Some? then w.abandoned + {w.flags.done.value} else w.abandoned
    requires after.flags.done.None? && !after.flags.active && after.worker == Blocked(Idle)
    ensures ChannelsOK(after)
  {
  }

  lemma CrashKeepsInv(w: World, reload: Reload)
    requires Inv(w)
    ensures Inv(DoCrash(w, reload))
  {
    var after := DoCrash(w, reload);
    RestartAccounted(w.settings, w.core, reload.agentsFail, reload.listed);
    var restarted := Restart(w.settings, w.core, reload.agentsFail, reload.listed);
    if w.record.Some? {
      TaskReportAccounted(restarted.installer, OPERATOR_PACKAGE, w.record.value.operationID, w.record.value.taskState);
    }
    CrashKeepsChannels(w, after);
    ObservedPromises(w, after.core.installer.log);
    AgentPromises(w.core, after.core);
  }

  predicate SameObjects(a: Core, b: Core) {
    a.agents == b.agents && a.version == b.version
  }

  /** Up to a crash in a status transition only a persisted promotion has touched an object. */
  lemma PrefixObjects(settings: Settings, core: Core, active: bool, snapshot: Snapshot, faults: Faults, stage: Stage)
    ensures var after := StatusPrefix(settings, core, active, snapshot, faults, stage);
            || SameObjects(after, core)
            || (&& Finishes(snapshot).Some? && Finishes(snapshot).value.intent.Promote?
                && var op := Finishes(snapshot).value;
                   SameObjects(after, PersistStable(settings, RepairLocalTermination(core, snapshot), op.nsn, op.experimentID,
                                                    op.resultVersion, faults.persist).0))
  {
  }

  /** So no slot has been touched yet. */
  lemma PrefixKeepsSlots(settings: Settings, core: Core, active: bool, snapshot: Snapshot, faults: Faults, stage: Stage,
                         nsn: NsName)
    ensures var after := StatusPrefix(settings, core, active, snapshot, faults, stage);
            && after.agents.Keys == core.agents.Keys
            && SlotOf(after, nsn) == SlotOf(core, nsn)
  {
    PrefixObjects(settings, core, active, snapshot, faults, stage);
    if Finishes(snapshot).Some? {
      var op := Finishes(snapshot).value;
      PersistKeepsSlots(settings, RepairLocalTermination(core, snapshot), op.nsn, op.experimentID, op.resultVersion,
                        faults.persist, nsn);
    }
  }

  lemma PrefixRewrites(settings: Settings, core: Core, active: bool, snapshot: Snapshot, faults: Faults, stage: Stage)
    ensures Rewritten(core, StatusPrefix(settings, core, active, snapshot, faults, stage))
  {
    PrefixObjects(settings, core, active, snapshot, faults, stage);
    if Finishes(snapshot).Some? {
      var op := Finishes(snapshot).value;
      PersistRewrites(settings, RepairLocalTermination(core, snapshot), op.nsn, op.experimentID, op.resultVersion,
                      faults.persist);
    }
  }

  lemma PrefixAccounted(settings: Settings, core: Core, active: bool, snapshot: Snapshot, faults: Faults, stage: Stage)
    requires Accounted(core.installer)
    ensures var after := StatusPrefix(settings, core, active, snapshot, faults, stage);
            Accounted(after.installer) && core.installer.log <= after.installer.log
  {
    if !active {
      LocalRepairAccounted(core, snapshot);
      var repaired := RepairLocalTermination(core, snapshot);
      match Finishes(snapshot) {
        case None =>
        case Some(op) =>
          var (persisted, ok) := FinishPersist(settings, repaired, op, Evaluate(snapshot, op), faults);
          PersistKeepsSlots(settings, repaired, op.nsn, op.experimentID, op.resultVersion, faults.persist, op.nsn);
          FinishVersionsAccounted(persisted, op, ok);
          TaskReportAccounted(FinishVersions(persisted, op, ok).installer, op.packageName, op.taskID, if ok then DONE else ERROR);
      }
    }
  }

  lemma PrefixKeeps(settings: Settings, core: Core, active: bool, snapshot: Snapshot, faults: Faults, stage: Stage)
    requires Accounted(core.installer)
    ensures var after := StatusPrefix(settings, core, active, snapshot, faults, stage);
            && after.agents.Keys == core.agents.Keys
            && (forall nsn :: SlotOf(after, nsn) == SlotOf(core, nsn))
            && Rewritten(core, after)
            && Accounted(after.installer) && core.installer.log <= after.installer.log
  {
    var after := StatusPrefix(settings, core, active, snapshot, faults, stage);
    PrefixRewrites(settings, core, active, snapshot, faults, stage);
    PrefixAccounted(settings, core, active, snapshot, faults, stage);
    PrefixKeepsSlots(settings, core, active, snapshot, faults, stage, settings.target);
    forall nsn ensures SlotOf(after, nsn) == SlotOf(core, nsn) {
      PrefixKeepsSlots(settings, core, active, snapshot, faults, stage, nsn);
    }
  }

  lemma FinishVersionsAccounted(core: Core, op: PendingOperation, ok: bool)
    requires Accounted(core.installer)
    ensures var after := FinishVersions(core, op, ok);
            after.agents == core.agents && after.version == core.version
            && Accounted(after.installer) && core.installer.log <= after.installer.log
  {
    var stable := Versions(core.installer.packages, op.packageName).0;
    VersionReportAccounted(core.installer, op.packageName, stable, op.experimentID);
    VersionReportAccounted(core.installer, op.packageName, stable, "");
    VersionReportAccounted(core.installer, op.packageName, op.resultVersion, "");
  }

  lemma StatusCrashKeepsInv(w: World, snapshot: Snapshot, faults: Faults, stage: Stage, reload: Reload)
    requires Inv(w) && snapshot in w.observed
    ensures Inv(DoCrash(w.(core := StatusPrefix(w.settings, w.core, w.flags.active, snapshot, faults, stage)), reload))
  {
    var cut := w.(core := StatusPrefix(w.settings, w.core, w.flags.active, snapshot, faults, stage));
    PrefixKeeps(w.settings, w.core, w.flags.active, snapshot, faults, stage);
    OnlyCoreKeeps(w, cut);
    RewrittenKeepsLocks(w, cut);
    ObservedPromises(w, cut.core.installer.log);
    AgentPromises(w.core, cut.core);
    CrashKeepsInv(cut, reload);
  }

  // ---------------------------------------------------------------- every step

  lemma PerformKeepsInv(w: World, step: Step)
    requires Inv(w) && Enabled(w, step)
    ensures Inv(Perform(w, step))
  {
    match step {
      case TaskStep(req, faults) => TaskKeepsInv(w, req, faults);
      case StatusStep(snapshot, faults) => StatusKeepsInv(w, snapshot, faults);
      case WorkerStep(choice) => WorkerKeepsInv(w, choice);
      case BackgroundStep(choice) => BackgroundKeepsInv(w, choice);
      case CrashStep(reload) => CrashKeepsInv(w, reload);
      case StatusCrashStep(snapshot, faults, stage, reload) =>
        StatusCrashKeepsInv(w, snapshot, faults, stage, reload);
      case _ => EnvironmentKeepsInv(w, step);
    }
  }

  lemma EnvironmentKeepsInv(w: World, step: Step)
    requires Inv(w) && Enabled(w, step)
    requires step.ConfigsStep? || step.InformerStep? || step.TimerStep? || step.IntentStep? || step.WriterStep?
    ensures Inv(Perform(w, step))
  {
    match step {
      case ConfigsStep(configs) => ConfigsKeepInv(w, configs);
      case InformerStep(latest) => TokenKeepsInv(w, RequestRetryIfWaiting(w).token, w.due && !latest);
      case TimerStep => TokenKeepsInv(w, true, w.due);
      case IntentStep(intent) => IntentKeepsInv(w, intent);
      case WriterStep(nsn, agent) => WriteKeepsInv(w, nsn, agent);
    }
  }

  /** Adding the current objects to what may be delivered keeps the invariants. */
  lemma ObserveKeepsInv(before: World, w: World)
    requires Inv(w)
    ensures Inv(Observe(before, w))
  {
    var after := Observe(before, w);
    SameRecordSeen(w, after);
    forall s | s in after.observed ensures PromiseKept(after.core.installer.log, s.nsn, s.annotations) {
      if s !in w.observed {
        var nsn :| nsn in w.core.agents && s == Snapshot(nsn, w.core.agents[nsn].annotations, w.core.agents[nsn].experiment);
      }
    }
  }

  /** Every step of the machine keeps every invariant. */
  lemma NextKeepsInv(w: World, step: Step)
    requires Inv(w) && Enabled(w, step)
    ensures Inv(Next(w, step))
  {
    PerformKeepsInv(w, step);
    ObserveKeepsInv(w, Perform(w, step));
  }
}
