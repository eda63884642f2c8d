/**
 * The run store as the program keeps it: a dictionary, per-run lists and a counter for each kind of record, updated in
 * place one after the other. Every method is proved against the operation of the same name on the whole state.
 */
module RunStore {
  import opened Wrappers
  import opened Tables
  import opened Model
  import opened Store
  import opened Indexing
  import opened History
  import opened Footprints
  import Outbox
  import Suite
  import Utf8

  /** The records of one kind: a dictionary from ids to records, the ids of each run, and the next free id. */
  class Records<T> {
    var rows: map<nat, Row<T>>
    var idsByRun: map<nat, seq<nat>>
    var nextId: nat

    /** The three fields as one value. */
    function Table(): Table<T>
      reads this
    {
      Tables.Table(rows, idsByRun, nextId)
    }

    lemma Means()
      ensures Table().rows == rows && Table().byRun == idsByRun && Table().next == nextId
    {
    }

    constructor ()
      ensures Table() == Empty()
    {
      rows, idsByRun, nextId := map[], map[], 1;
    }

    function Ids(run: nat): (ids: seq<nat>)
      reads this
      ensures ids == Table().Ids(run)
    {
      if run in idsByRun then idsByRun[run] else []
    }

    /** The run's records in list order. */
    function OfRun(run: nat): (list: seq<T>)
      reads this
      ensures list == Table().OfRun(run)
    {
      Lookup(rows, Ids(run))
    }

    method OpenRun(run: nat)
      modifies this
      ensures Table() == old(Table()).OpenRun(run)
    {
      idsByRun := idsByRun[run := []];
    }

    /** Stores a record under the next id and lists it for its run. */
    method Store(run: nat, data: T) returns (id: nat)
      modifies this
      ensures id == old(Table()).next && Table() == old(Table()).Add(run, data)
    {
      id := nextId;
      nextId := nextId + 1;
      rows := rows[id := Row(run, data)];
      idsByRun := idsByRun[run := Ids(run) + [id]];
    }

    /** Replaces the record stored under an id; the owner never changes. */
    method Replace(id: nat, data: T)
      requires id in Table().rows
      modifies this
      ensures Table() == old(Table()).Put(id, data)
    {
      rows := rows[id := Row(rows[id].run, data)];
    }
  }

  class InMemoryRunStore {
    const limit: nat
    var now: int
    var runs: map<nat, Run>
    var nextRunId: nat
    var events: map<nat, seq<Event>>
    var nextEventId: nat
    var outbox: map<nat, OutboxEvent>
    var nextOutboxId: nat
    const steps: Records<Step>
    const executions: Records<Execution>
    const chunks: Records<Chunk>
    var storedOutputBytes: map<nat, nat>
    const sources: Records<Source>
    const results: Records<ValidationResult>
    const expectations: Records<Expectation>
    const backups: Records<BackupRecord>
    var drafts: map<nat, Draft>
    var draftIdsByRun: map<nat, nat>
    var nextDraftId: nat
    const requests: Records<IntegrationRequest>

    /** The store and the objects that hold its records. */
    ghost function Footprint(): set<object> {
      {this, steps, executions, chunks, sources, results, expectations, backups, requests}
    }

    /** Everything the store holds, as one value. */
    function View(): State
      reads Footprint()
    {
      State(limit, now, runs, nextRunId, Timeline(events, nextEventId), Queue(outbox, nextOutboxId), steps.Table(),
        executions.Table(), chunks.Table(), storedOutputBytes, sources.Table(), results.Table(), expectations.Table(),
        backups.Table(), drafts, draftIdsByRun, nextDraftId, requests.Table())
    }

    lemma RunsShown()
      ensures View().runs == runs
    {
    }

    ghost predicate Valid()
      reads Footprint()
    {
      Indexed(View())
    }

    constructor (limit: nat, now: int)
      ensures Valid() && fresh(Footprint()) && View() == Initial(limit, now)
    {
      hide Indexed, Records.Table;
      this.limit, this.now := limit, now;
      runs, events, outbox, storedOutputBytes, drafts, draftIdsByRun := map[], map[], map[], map[], map[], map[];
      nextRunId, nextEventId, nextOutboxId, nextDraftId := 1, 1, 1, 1;
      steps := new Records();
      executions := new Records();
      chunks := new Records();
      sources := new Records();
      results := new Records();
      expectations := new Records();
      backups := new Records();
      requests := new Records();
      new;
      InitialIndexed(limit, now);
    }

    // ---- writing to the log and the queue --------------------------------------------------------

    method AppendRunEvent(run: nat, body: Body)
      modifies this`events, this`nextEventId
      ensures View() == Emit(old(View()), run, body)
    {
      hide Records.Table;
      var event := Event(nextEventId, body);
      nextEventId := nextEventId + 1;
      events := events[run := (if run in events then events[run] else []) + [event]];
    }

    method ReplaceRun(id: nat, run: Run)
      modifies this`runs
      ensures View() == PutRun(old(View()), id, run)
    {
      runs := runs[id := run];
    }

    method EnqueueOutbox(run: nat, job: Job)
      modifies this`outbox, this`nextOutboxId
      ensures View() == Enqueue(old(View()), run, job)
    {
      hide Records.Table;
      var event := OutboxEvent(run, job, OutboxStatus.Pending, 0, Some(now), None);
      outbox := outbox[nextOutboxId := event];
      nextOutboxId := nextOutboxId + 1;
    }

    /** Withdraws the run's pending events of one kind, one after the other. */
    method CancelPendingOutboxEvent(run: nat, kind: Outbox.Kind)
      requires forall id :: id in outbox ==> id < nextOutboxId
      modifies this`outbox
      ensures View().queue == Outbox.CancelPending(old(View()).queue, run, kind)
    {
      ghost var before := outbox;
      for id := 0 to nextOutboxId
        invariant outbox.Keys == before.Keys
        invariant forall i :: i in before && i < id ==>
          outbox[i] == if Outbox.Cancelled(before[i], run, kind) then before[i].(status := OutboxStatus.Completed)
            else before[i]
        invariant forall i :: i in before && i >= id ==> outbox[i] == before[i]
      {
        if id in outbox {
          var event := outbox[id];
          if event.run == run && Outbox.KindOf(event.job) == kind && event.status == OutboxStatus.Pending {
            outbox := outbox[id := event.(status := OutboxStatus.Completed)];
          }
        }
      }
      assert outbox == Outbox.CancelPending(Queue(before, nextOutboxId), run, kind).events;
    }

    /** Closes the run's failed planning events, one after the other. */
    method SupersedeFailedPlans(run: nat)
      requires forall id :: id in outbox ==> id < nextOutboxId
      modifies this`outbox
      ensures View().queue == Outbox.Supersede(old(View()).queue, run)
    {
      ghost var before := outbox;
      for id := 0 to nextOutboxId
        invariant outbox.Keys == before.Keys
        invariant forall i :: i in before && i < id ==>
          outbox[i] == if Outbox.Superseded(before[i], run) then before[i].(status := OutboxStatus.Completed)
            else before[i]
        invariant forall i :: i in before && i >= id ==> outbox[i] == before[i]
      {
        if id in outbox {
          var event := outbox[id];
          if event.run == run && Outbox.KindOf(event.job) == Outbox.PlanJob
             && (event.status == OutboxStatus.Failed || event.status == OutboxStatus.DeadLetter) {
            outbox := outbox[id := event.(status := OutboxStatus.Completed)];
          }
        }
      }
      assert outbox == Outbox.Supersede(Queue(before, nextOutboxId), run).events;
    }

    // ---- runs ------------------------------------------------------------------------------------

    method OpenCommandLists(run: nat)
      modifies steps, executions, chunks, sources
      ensures View() == Store.OpenCommandLists(old(View()), run)
    {
      hide Table.OpenRun, Records.Table;
      steps.OpenRun(run);
      executions.OpenRun(run);
      chunks.OpenRun(run);
      sources.OpenRun(run);
    }

    method OpenOutcomeLists(run: nat)
      modifies results, expectations, backups, requests
      ensures View() == Store.OpenOutcomeLists(old(View()), run)
    {
      hide Table.OpenRun, Records.Table;
      results.OpenRun(run);
      expectations.OpenRun(run);
      backups.OpenRun(run);
      requests.OpenRun(run);
    }

    method OpenLists(ticketId: int, snapshot: string) returns (id: nat)
      modifies Footprint()
      ensures id == old(nextRunId) && View() == OpenRun(old(View()), ticketId, snapshot)
    {
      hide Table.OpenRun, Records.Table, Store.OpenCommandLists, Store.OpenOutcomeLists;
      id := nextRunId;
      nextRunId := nextRunId + 1;
      runs := runs[id := Run(ticketId, snapshot, AwaitingConnectionApproval, None, None)];
      events := events[id := []];
      OpenCommandLists(id);
      OpenOutcomeLists(id);
    }

    method CreateRun(ticketId: int, snapshot: string) returns (id: nat)
      requires Valid()
      modifies Footprint()
      ensures Valid()
      ensures Reply(View(), Success(id)) == Store.CreateRun(old(View()), ticketId, snapshot)
    {
      hide Indexed, Advances, OpenRun;
      CreateRunReaches(View(), ticketId, snapshot);
      id := OpenLists(ticketId, snapshot);
      AppendRunEvent(id, RunCreated(ticketId));
      AppendRunEvent(id, ConnectionRequested);
    }

    method ApproveConnection(run: nat) returns (result: Result<nat, StoreError>)
      requires Valid()
      modifies Footprint()
      ensures Valid()
      ensures Reply(View(), result) == Store.ApproveConnection(old(View()), run)
    {
      hide Indexed, Advances;
      ApproveConnectionReaches(View(), run);
      if run !in runs { return Failure(RunNotFound); }
      if runs[run].status != AwaitingConnectionApproval { return Failure(ConnectionNotPending); }
      runs := runs[run := runs[run].(status := Investigating)];
      AppendRunEvent(run, ConnectionApproved);
      AppendRunEvent(run, PlanRequested(ConnectionApproval));
      EnqueueOutbox(run, Plan(ConnectionApproval));
      return Success(run);
    }

    method RetryRun(run: nat) returns (result: Result<nat, StoreError>)
      requires Valid()
      modifies Footprint()
      ensures Valid()
      ensures Reply(View(), result) == Store.RetryRun(old(View()), run)
    {
      hide Indexed, Advances, Outbox.Supersede;
      RetryRunReaches(View(), run);
      QueueBelow();
      if run !in runs { return Failure(RunNotFound); }
      if runs[run].status == Aborted || runs[run].status == Submitted { return Failure(TerminalRun); }
      SupersedeFailedPlans(run);
      runs := runs[run := runs[run].(status := Investigating, pending := None)];
      AppendRunEvent(run, RunRetried);
      EnqueueOutbox(run, Plan(RetryRequested));
      return Success(run);
    }

    lemma QueueBelow()
      requires Valid()
      ensures forall id :: id in outbox ==> id < nextOutboxId
    {
      hide Table.Indexed, TimelineIndexed;
      assert QueueIndexed(View().queue, View().runs.Keys);
    }

    method AbortRun(run: nat) returns (result: Result<nat, StoreError>)
      requires Valid()
      modifies Footprint()
      ensures Valid()
      ensures Reply(View(), result) == Store.AbortRun(old(View()), run)
    {
      hide Indexed, Advances;
      AbortRunReaches(View(), run);
      if run !in runs { return Failure(RunNotFound); }
      if runs[run].status == Aborted || runs[run].status == Submitted { return Success(run); }
      runs := runs[run := runs[run].(status := Aborted, pending := None)];
      AppendRunEvent(run, RunAborted);
      return Success(run);
    }

    method AppendEvent(run: nat, name: string) returns (result: Result<nat, StoreError>)
      requires Valid()
      modifies Footprint()
      ensures Valid()
      ensures Reply(View(), result) == Store.AppendEvent(old(View()), run, name)
    {
      hide Indexed, Advances;
      AppendEventReaches(View(), run, name);
      if run !in runs { return Failure(RunNotFound); }
      AppendRunEvent(run, Informational(name));
      return Success(run);
    }

    // ---- steps -----------------------------------------------------------------------------------

    /** Plans the backup a step asks for, unless the same one is planned already. */
    method RecordBackupPlan(p: Policy, run: nat, ticketId: int, requirement: Requirement)
      modifies Footprint()
      ensures View() == Store.RecordBackupPlan(p, old(View()), run, ticketId, requirement)
    {
      hide Table.OfRun;
      var records := backups.OfRun(run);
      if exists i :: 0 <= i < |records| && SamePlan(records[i], requirement) { return; }
      var id := backups.Store(run,
        BackupRecord(None, requirement.path, requirement.kind, p.restorePlan(run, ticketId, requirement), true, false));
      AppendRunEvent(run, BackupPlanned(id));
    }

    /** Stores the step and writes its proposal and its classification to the log. */
    method AnnounceStep(run: nat, step: Step)
      modifies Footprint()
      ensures View() == Store.AnnounceStep(old(View()), run, step)
    {
      hide Records.Table;
      var id := steps.Store(run, step);
      if step.origin == Manual { AppendRunEvent(run, ManualStepEntered(id)); }
      AppendRunEvent(run, StepProposed(id, step.phase));
      AppendRunEvent(run, SafetyClassified(id, step.command, !step.blocked, false));
    }

    method CreateStep(p: Policy, run: nat, origin: Origin, command: string, purpose: string,
        phase: Phase) returns (result: Result<nat, StoreError>)
      requires Valid()
      modifies Footprint()
      ensures Valid()
      ensures Reply(View(), result) == Store.CreateStep(p, old(View()), run, origin, command, purpose, phase)
    {
      hide Indexed, Advances, Store.RecordBackupPlan, Store.AnnounceStep, PutRun, IdleStatus, Records.Table;
      steps.Means();
      CreateStepReaches(p, View(), run, origin, command, purpose, phase);
      if run !in runs { return Failure(RunNotFound); }
      var current := runs[run];
      if current.status == Aborted || current.status == Submitted || current.status == RunStatus.Failed {
        return Failure(TerminalRun);
      }
      if current.status == AwaitingStepApproval && current.pending.Some? { return Failure(StepAlreadyPending); }
      var safety := p.classify(command);
      var status := if safety.blocked then StepStatus.Blocked else Proposed;
      var step := Step(origin, phase, command, purpose, safety.risk, safety.blocked, status, None);
      var id := steps.nextId;
      AnnounceStep(run, step);
      var requirement := p.requirement(command, step.risk);
      if requirement.required { RecordBackupPlan(p, run, current.ticketId, requirement); }
      if safety.blocked {
        ReplaceRun(run, current.(status := IdleStatus(current.status), pending := None));
      } else {
        ReplaceRun(run, current.(status := AwaitingStepApproval, pending := Some(id)));
      }
      return Success(id);
    }

    method CreateManualStep(p: Policy, run: nat, command: string, purpose: string,
        phase: Phase) returns (result: Result<nat, StoreError>)
      requires Valid()
      modifies Footprint()
      ensures Valid()
      ensures Reply(View(), result) == Store.CreateManualStep(p, old(View()), run, command, purpose, phase)
    {
      hide Indexed, Advances, Store.CreateStep, Outbox.CancelPending;
      WithdrawnIndexed(View(), run);
      QueueBelow();
      CancelPendingOutboxEvent(run, Outbox.PlanJob);
      result := CreateStep(p, run, Manual, command, purpose, phase);
    }

    method ProposeAgentStep(p: Policy, run: nat, command: string, purpose: string,
        phase: Phase) returns (result: Result<nat, StoreError>)
      requires Valid()
      modifies Footprint()
      ensures Valid()
      ensures Reply(View(), result) == Store.ProposeAgentStep(p, old(View()), run, command, purpose, phase)
    {
      hide Indexed, Store.CreateStep;
      result := CreateStep(p, run, Agent, command, purpose, phase);
    }

    method ProposeRestoreCommand(p: Policy, run: nat, record: nat, reason: string) returns (result: Result<nat,
        StoreError>)
      requires Valid()
      modifies Footprint()
      ensures Valid()
      ensures Reply(View(), result) == Store.ProposeRestore(p, old(View()), run, record, reason)
    {
      hide Indexed, Advances, Store.CreateStep;
      ProposeRestoreReaches(p, View(), run, record, reason);
      if record !in backups.rows || backups.rows[record].run != run { return Failure(RecordNotInRun); }
      var command := backups.rows[record].data.restoreCommand;
      if command.None? || command.value == "" { return Failure(NoRestoreCommand); }
      result := CreateStep(p, run, FromBackup, command.value, reason, Restore);
      if result.Failure? { return; }
      AppendRunEvent(run, RestoreProposed(record, result.value));
    }

    method RecordBackupNotApplicable(run: nat, path: Option<string>) returns (result: Result<nat, StoreError>)
      requires Valid()
      modifies Footprint()
      ensures Valid()
      ensures Reply(View(), result) == Store.RecordBackupNotApplicable(old(View()), run, path)
    {
      hide Indexed, Advances;
      RecordBackupNotApplicableReaches(View(), run, path);
      if run !in runs { return Failure(RunNotFound); }
      var id := backups.Store(run, BackupRecord(None, path, NotApplicable, None, false, false));
      AppendRunEvent(run, BackupNotApplicable(id));
      return Success(id);
    }

    // ---- approval --------------------------------------------------------------------------------

    /** Refuses a fix without related evidence; either way the log says what was found. */
    method AssertFixPolicy(p: Policy, run: nat, id: nat, step: Step) returns (refused: Option<StoreError>)
      requires run in runs
      modifies this`events, this`nextEventId
      ensures var gate := FixGate(p, old(View()), run, id, step);
              View() == Note(old(View()), run, gate) && refused == gate.error
    {
      hide Table.OfRun, EvidenceIn;
      if step.phase != Fix { return None; }
      if step.risk == ReadOnly || p.targetedBackup(step.command) { return None; }
      var evidence := EvidenceIn(sources.OfRun(run));
      if evidence == [] {
        AppendRunEvent(run, FixBlocked(id));
        return Some(FixNeedsEvidence);
      }
      var service := p.serviceTarget(step.command);
      if service.Some? {
        var related := p.relatedServices(runs[run].snapshot, evidence);
        if related != {} && service.value !in related {
          AppendRunEvent(run, FixBlocked(id));
          return Some(UnrelatedService);
        }
      }
      AppendRunEvent(run, FixVerified(id));
      return None;
    }

    method AssertBackupRequirementSatisfied(p: Policy, run: nat, id: nat,
        step: Step) returns (refused: Option<StoreError>)
      modifies this`events, this`nextEventId
      ensures var gate := BackupGate(p, old(View()), run, id, step);
              View() == Note(old(View()), run, gate) && refused == gate.error
    {
      hide Table.OfRun, Satisfies;
      var requirement := p.requirement(step.command, step.risk);
      if !requirement.required { return None; }
      var records := backups.OfRun(run);
      if exists i :: 0 <= i < |records| && Satisfies(records[i], requirement.path) { return None; }
      AppendRunEvent(run, BackupApprovalRequested(id));
      return Some(BackupMissing);
    }

    method QueueCommandExecution(run: nat, id: nat)
      modifies Footprint()
      ensures View() == QueueExecution(old(View()), run, id)
    {
      AppendRunEvent(run, ExecutionRequested(id));
      EnqueueOutbox(run, Execute(id));
    }

    /** Records the approval and queues the command. */
    method Grant(run: nat, id: nat, body: Body)
      requires run in runs && id in steps.Table().rows
      modifies Footprint()
      ensures View() == Store.Grant(old(View()), run, id, body)
    {
      hide QueueExecution, Records.Table;
      steps.Means();
      var step := steps.rows[id].data;
      steps.Replace(id, step.(status := Approved, approvedCommand := Some(step.command)));
      ReplaceRun(run, runs[run].(status := StatusForApproved(step.phase), pending := None));
      AppendRunEvent(run, body);
      QueueCommandExecution(run, id);
    }

    /** Both gates, then the approval. */
    method GateAndApprove(p: Policy, run: nat, id: nat, body: Body) returns (result: Result<nat, StoreError>)
      requires run in runs && id in steps.Table().rows
      modifies Footprint()
      ensures Reply(View(), result) == ApproveThroughGates(p, old(View()), run, id, body)
    {
      hide FixGate, BackupGate, Note, Store.Grant, Records.Table;
      steps.Means();
      var step := steps.rows[id].data;
      var refused := AssertFixPolicy(p, run, id, step);
      if refused.Some? { return Failure(refused.value); }
      refused := AssertBackupRequirementSatisfied(p, run, id, step);
      if refused.Some? { return Failure(refused.value); }
      Grant(run, id, body);
      return Success(run);
    }

    method ApproveStep(p: Policy, run: nat, id: nat) returns (result: Result<nat, StoreError>)
      requires Valid()
      modifies Footprint()
      ensures Valid()
      ensures Reply(View(), result) == Store.ApproveStep(p, old(View()), run, id)
    {
      hide Indexed, Advances, ApproveThroughGates;
      ApproveStepReaches(p, View(), run, id);
      if run !in runs { return Failure(RunNotFound); }
      if id !in steps.rows || steps.rows[id].run != run { return Failure(StepNotInRun); }
      var step := steps.rows[id].data;
      if runs[run].status != AwaitingStepApproval { return Failure(NotAwaitingApproval); }
      if step.status != Proposed { return Failure(NotProposed); }
      if step.blocked { return Failure(StepBlocked); }
      result := GateAndApprove(p, run, id, StepApproved(id, step.command));
    }

    method EditAndApproveStep(p: Policy, run: nat, id: nat, command: string,
        purpose: Option<string>) returns (result: Result<nat, StoreError>)
      requires Valid()
      modifies Footprint()
      ensures Valid()
      ensures Reply(View(), result) == Store.EditAndApproveStep(p, old(View()), run, id, command, purpose)
    {
      hide Indexed, Advances, ApproveThroughGates, Records.Table;
      steps.Means();
      EditAndApproveStepReaches(p, View(), run, id, command, purpose);
      if run !in runs { return Failure(RunNotFound); }
      if id !in steps.rows || steps.rows[id].run != run { return Failure(StepNotInRun); }
      var step := steps.rows[id].data;
      if runs[run].status != AwaitingStepApproval { return Failure(NotAwaitingApproval); }
      if step.status != Proposed { return Failure(NotProposed); }
      var safety := p.classify(command);
      steps.Replace(id, step.(command := command, risk := safety.risk, blocked := safety.blocked,
                                   purpose := if purpose.Some? && purpose.value != "" then purpose.value
                                     else step.purpose));
      AppendRunEvent(run, SafetyClassified(id, command, !safety.blocked, true));
      if safety.blocked { return Failure(EditBlocked); }
      result := GateAndApprove(p, run, id, StepEditedAndApproved(id, command));
    }

    method RejectStep(run: nat, id: nat) returns (result: Result<nat, StoreError>)
      requires Valid()
      modifies Footprint()
      ensures Valid()
      ensures Reply(View(), result) == Store.RejectStep(old(View()), run, id)
    {
      hide Indexed, Advances, Records.Table;
      steps.Means();
      RejectStepReaches(View(), run, id);
      if run !in runs { return Failure(RunNotFound); }
      if id !in steps.rows || steps.rows[id].run != run { return Failure(StepNotInRun); }
      var step := steps.rows[id].data;
      if runs[run].status != AwaitingStepApproval || step.status != Proposed { return Failure(NotAwaitingApproval); }
      steps.Replace(id, step.(status := Rejected));
      runs := runs[run := runs[run].(status := IdleStatus(runs[run].status), pending := None)];
      AppendRunEvent(run, StepRejected(id));
      return Success(run);
    }

    // ---- commands --------------------------------------------------------------------------------

    method StartCommandExecution(run: nat, stepId: nat) returns (result: Result<nat, StoreError>)
      requires Valid()
      modifies Footprint()
      ensures Valid()
      ensures Reply(View(), result) == StartExecution(old(View()), run, stepId)
    {
      hide Indexed, Advances, Records.Table;
      steps.Means();
      executions.Means();
      StartExecutionReaches(View(), run, stepId);
      if run !in runs { return Failure(RunNotFound); }
      if stepId !in steps.rows || steps.rows[stepId].run != run { return Failure(StepNotInRun); }
      var step := steps.rows[stepId].data;
      if runs[run].status == Aborted { return Failure(TerminalRun); }
      if step.status != Approved || step.blocked || step.approvedCommand.None? || step.approvedCommand.value == "" {
        return Failure(NotExecutable);
      }
      if runs[run].status != StatusForApproved(step.phase) { return Failure(StaleStep); }
      if exists x :: x in executions.rows && executions.rows[x].data.stepId == stepId {
        return Failure(AlreadyExecuted);
      }
      var id := executions.nextId;
      var command := step.approvedCommand.value;
      var _ := executions.Store(run, Execution(stepId, command, Running, limit, false, false, None, None, "", ""));
      storedOutputBytes := storedOutputBytes[id := 0];
      AppendRunEvent(run, CommandStarted(stepId, id, command));
      return Success(id);
    }

    method MarkExecutionTruncated(run: nat, id: nat)
      requires id in executions.rows
      modifies Footprint()
      ensures View() == MarkTruncated(old(View()), run, id)
    {
      var current := executions.rows[id].data;
      if current.truncated { return; }
      executions.Replace(id, current.(truncated := true));
      AppendRunEvent(run, OutputTruncated(id));
    }

    /** Stores a chunk and counts its bytes. */
    method CountChunk(run: nat, chunk: Chunk, stored: nat)
      modifies this`storedOutputBytes, chunks
      ensures var s := old(View());
              View() == s.(chunks := s.chunks.Add(run, chunk),
                storedBytes := s.storedBytes[chunk.executionId := stored + Utf8.Size(chunk.content)])
    {
      hide Utf8.Size, Table.Add, Records.Table;
      var _ := chunks.Store(run, chunk);
      storedOutputBytes := storedOutputBytes[chunk.executionId := stored + Utf8.Size(chunk.content)];
    }

    /** Stores one piece of output under the execution's next sequence number. */
    method StoreChunk(run: nat, id: nat, stream: Stream, kept: string, redacted: bool)
      requires id in executions.rows
      modifies Footprint()
      ensures View() == Store.StoreChunk(old(View()), run, id, stream, kept, redacted) && id in executions.rows
    {
      hide ChunksFor, Table.OfRun, Utf8.Size, AppendTo, Table.Add, Emit, Table.Has, Records.Table;
      executions.Means();
      var execution := executions.rows[id].data;
      var sequence := |ChunksFor(chunks.OfRun(run), id)| + 1;
      var stored := if id in storedOutputBytes then storedOutputBytes[id] else 0;
      CountChunk(run, Chunk(id, sequence, stream, kept, redacted), stored);
      executions.Replace(id, AppendTo(execution, stream, kept));
      AppendRunEvent(run, OutputChunk(id, sequence));
      executions.Means();
    }

    method AppendCommandOutputChunk(p: Policy, run: nat, id: nat, stream: Stream, content: string, redacted: bool)
      returns (result: Result<Option<nat>, StoreError>)
      requires Valid()
      modifies Footprint()
      ensures Valid()
      ensures Reply(View(), result) == AppendChunk(p, old(View()), run, id, stream, content, redacted)
    {
      hide Indexed, Advances, Store.StoreChunk, MarkTruncated, Utf8.Size, Utf8.Fitting, Records.Table;
      executions.Means();
      chunks.Means();
      AppendChunkReaches(p, View(), run, id, stream, content, redacted);
      if run !in runs { return Failure(RunNotFound); }
      if id !in executions.rows || executions.rows[id].run != run { return Failure(ExecutionNotInRun); }
      if stream.OtherStream? { return Failure(BadStream); }
      var execution := executions.rows[id].data;
      var (clean, changed) := p.redact(content);
      var stored := if id in storedOutputBytes then storedOutputBytes[id] else 0;
      if stored >= execution.limit {
        MarkExecutionTruncated(run, id);
        return Success(None);
      }
      var kept, truncated := Utf8.TruncateToBytes(clean, execution.limit - stored);
      if kept == "" {
        MarkExecutionTruncated(run, id);
        return Success(None);
      }
      var chunkId := chunks.nextId;
      StoreChunk(run, id, stream, kept, redacted || changed);
      if truncated { MarkExecutionTruncated(run, id); }
      return Success(Some(chunkId));
    }

    method Replan(run: nat, status: RunStatus, reason: PlanReason)
      requires run in runs
      modifies Footprint()
      ensures View() == Store.Replan(old(View()), run, status, reason)
    {
      ReplaceRun(run, runs[run].(status := status, pending := None));
      AppendRunEvent(run, PlanRequested(reason));
      EnqueueOutbox(run, Plan(reason));
    }

    method RecordValidationResult(run: nat, result: ValidationResult)
      modifies Footprint()
      ensures View() == RecordResult(old(View()), run, result)
    {
      var id := results.Store(run, result);
      AppendRunEvent(run, ValidationRecorded(id, result.passed));
    }

    method DecideExpectation(run: nat, expectation: nat, resultId: nat, result: ValidationResult)
      requires expectation in expectations.rows
      modifies Footprint()
      ensures View() == Decide(old(View()), run, expectation, resultId, result)
    {
      var verdict := if result.passed then CheckStatus.Passed else CheckStatus.Failed;
      var check := expectations.rows[expectation].data;
      expectations.Replace(expectation, check.(status := verdict, resultId := Some(resultId)));
      AppendRunEvent(run, ExpectationUpdated(expectation, resultId, verdict));
    }

    method ApplyValidationResultToSuite(p: Policy, run: nat, resultId: nat, result: ValidationResult)
      modifies Footprint()
      ensures View() == ApplyResult(p, old(View()), run, resultId, result)
    {
      hide LatestIds, Lookup, Suite.Matching, Decide;
      var ids := LatestIds(expectations.rows, expectations.Ids(run));
      if ids == [] {
        AppendRunEvent(run, SuiteMissing(resultId));
        return;
      }
      var found := Suite.Matching(p, Lookup(expectations.rows, ids), result);
      if found.Some? && found.value < |ids| && ids[found.value] in expectations.rows {
        DecideExpectation(run, ids[found.value], resultId, result);
      }
    }

    method MoveOnFromValidation(run: nat, resultId: nat, suite: Suite.SuiteStatus, passed: bool)
      requires run in runs
      modifies Footprint()
      ensures View() == MoveOn(old(View()), run, resultId, suite, passed)
    {
      hide Store.Replan;
      if suite == Suite.SuiteStatus.Passed {
        ReplaceRun(run, runs[run].(status := ReadyForActivity, pending := None));
        AppendRunEvent(run, SuitePassed(resultId));
        AppendRunEvent(run, DraftRequested(resultId));
        EnqueueOutbox(run, DraftActivity(resultId));
      } else if suite == Suite.SuiteStatus.Failed || !passed {
        Replan(run, Validating, ValidationFailed);
      } else {
        Replan(run, Validating, SuiteIncomplete);
      }
    }

    method ConcludeValidation(p: Policy, run: nat, id: nat, done: Execution)
      requires run in runs
      modifies Footprint()
      ensures View() == Store.ConcludeValidation(p, old(View()), run, id, done)
    {
      hide ApplyResult, MoveOn, SuiteVerdict, ResultOf;
      var result := ResultOf(p, id, done);
      var resultId := results.nextId;
      RecordValidationResult(run, result);
      ApplyValidationResultToSuite(p, run, resultId, result);
      MoveOnFromValidation(run, resultId, SuiteVerdict(View(), run, result), result.passed);
    }

    /** One pending expectation for each wanted check. */
    method CreateValidationExpectationsForFix(run: nat, fixId: nat, specs: seq<Suite.CheckSpec>) returns (ids: seq<nat>)
      modifies expectations
      ensures expectations.Table() == AddExpectations(old(expectations.Table()), run, fixId, specs)
      ensures ids == NewIds(old(expectations.nextId), |specs|)
    {
      ghost var before := expectations.Table();
      ids := [];
      for i := 0 to |specs|
        invariant AddExpectations(expectations.Table(), run, fixId, specs[i..]) ==
          AddExpectations(before, run, fixId, specs)
        invariant expectations.nextId == before.next + i && ids == NewIds(before.next, i)
      {
        assert specs[i..][1..] == specs[i + 1..];
        var expectation := Expectation(fixId, specs[i].checkType, specs[i].target, true, CheckStatus.Pending, None);
        var id := expectations.Store(run, expectation);
        ids := ids + [id];
      }
      assert specs[|specs|..] == [];
    }

    method ConcludeFix(p: Policy, run: nat, id: nat, step: Step, done: Execution)
      requires run in runs
      modifies Footprint()
      ensures View() == Store.ConcludeFix(p, old(View()), run, id, step, done)
    {
      hide AddExpectations, NewIds, Suite.Specs;
      var specs := Suite.BuildSpecs(p.suiteFacts(runs[run].snapshot, done.command, step.purpose));
      var ids := CreateValidationExpectationsForFix(run, id, specs);
      ReplaceRun(run, runs[run].(status := Validating, pending := None));
      AppendRunEvent(run, SuiteRequired(done.stepId, id, ids));
      AppendRunEvent(run, ValidationRequired(done.stepId, id));
      AppendRunEvent(run, PlanRequested(FixCompleted));
      EnqueueOutbox(run, Plan(FixCompleted));
    }

    method Conclude(p: Policy, run: nat, id: nat, step: Step, done: Execution)
      requires run in runs
      modifies Footprint()
      ensures View() == Store.Conclude(p, old(View()), run, id, step, done)
    {
      hide Store.ConcludeValidation, Store.ConcludeFix, Store.Replan, FailedUnseen;
      if step.phase == Validation {
        ConcludeValidation(p, run, id, done);
      } else if done.status == ExecutionStatus.Completed && step.phase == Fix {
        ConcludeFix(p, run, id, step, done);
      } else if done.status == ExecutionStatus.Completed {
        Replan(run, Investigating, ObservationRecorded);
      } else if FailedUnseen(done.status, done.exitCode, done.stdout, done.stderr, done.error) {
        ReplaceRun(run, runs[run].(status := RunStatus.Failed, pending := None));
      } else {
        Replan(run, Investigating, CommandFailure);
      }
    }

    method RecordInspectedSource(run: nat, source: Source)
      modifies Footprint()
      ensures View() == RecordSource(old(View()), run, source)
    {
      var id := sources.Store(run, source);
      AppendRunEvent(run, SourceDetected(id));
      if source.redacted { AppendRunEvent(run, SourceRedacted(id)); }
    }

    /** The evidence found in the output, and the backup the command made, if any. */
    method RecordLedgersForCompletedCommand(p: Policy, run: nat, id: nat, done: Execution, step: Step)
      modifies Footprint()
      ensures View() == RecordLedgers(p, old(View()), run, id, done, step)
    {
      hide AnyRedacted, Table.OfRun, RecordSource, Records.Table;
      ghost var before := View();
      var found := p.detectSources(done.command, done.stdout, done.stderr, step.purpose, step.phase,
        AnyRedacted(chunks.OfRun(run), id));
      for i := 0 to |found|
        invariant RecordSources(View(), run, id, found[i..]) == RecordSources(before, run, id, found)
      {
        assert found[i..][1..] == found[i + 1..];
        RecordInspectedSource(run, Source(id, found[i].supports, found[i].redacted, found[i].detail));
      }
      assert found[|found|..] == [];
      var backup := p.detectBackup(done.command, done.stdout + "\n" + done.stderr);
      if backup.None? { return; }
      var recordId := backups.Store(run,
        BackupRecord(Some(id), Some(backup.value.path), backup.value.kind, Some(backup.value.restoreCommand), true,
          true));
      AppendRunEvent(run, BackupCreated(recordId));
    }

    method RecordRestoreCompleted(run: nat, id: nat, done: Execution, step: Step)
      modifies Footprint()
      ensures View() == NoteRestore(old(View()), run, id, done, step)
    {
      hide RestoredRecord, Table.OfRun;
      if step.phase != Restore || done.status != ExecutionStatus.Completed { return; }
      var found := RestoredRecord(backups.OfRun(run), done.command);
      var ids := backups.Ids(run);
      if found.None? || found.value >= |ids| { return; }
      AppendRunEvent(run, BackupRestored(ids[found.value], id));
    }

    method Settle(p: Policy, run: nat, id: nat, step: Step, done: Execution)
      requires run in runs
      modifies Footprint()
      ensures View() == Store.Settle(p, old(View()), run, id, step, done)
    {
      hide Store.Conclude, RecordLedgers, NoteRestore, Records.Table;
      if runs[run].status != Aborted { Conclude(p, run, id, step, done); }
      AppendRunEvent(run, CommandFinished(done.stepId, id, done.status, done.exitCode, done.stdout, done.stderr,
        done.error));
      if RemoteStarted(done.status, done.exitCode, done.stdout, done.stderr) {
        RecordLedgersForCompletedCommand(p, run, id, done, step);
        RecordRestoreCompleted(run, id, done, step);
      }
    }

    method CompleteCommandExecution(p: Policy, run: nat, id: nat, exitCode: Option<int>, error: Option<string>,
        timedOut: bool)
      returns (result: Result<nat, StoreError>)
      requires Valid()
      modifies Footprint()
      ensures Valid()
      ensures Reply(View(), result) == CompleteExecution(p, old(View()), run, id, exitCode, error, timedOut)
    {
      hide Indexed, Advances, Store.Settle, FinalStatus, Records.Table;
      steps.Means();
      executions.Means();
      CompleteExecutionReaches(p, View(), run, id, exitCode, error, timedOut);
      if run !in runs { return Failure(RunNotFound); }
      if id !in executions.rows || executions.rows[id].run != run { return Failure(ExecutionNotInRun); }
      var done := executions.rows[id].data.(status := FinalStatus(exitCode, error, timedOut), finished := true,
        exitCode := exitCode, error := error);
      executions.Replace(id, done);
      if done.stepId !in steps.rows || steps.rows[done.stepId].run != run { return Failure(StepNotInRun); }
      var step := steps.rows[done.stepId].data;
      steps.Replace(done.stepId,
        step.(status := if done.status == ExecutionStatus.Completed then Executed else StepStatus.Failed));
      Settle(p, run, id, step, done);
      return Success(id);
    }

    // ---- drafts and submissions ------------------------------------------------------------------

    method SaveActivityDraft(p: Policy, run: nat, draft: Draft, edited: bool) returns (result: Result<nat, StoreError>)
      requires Valid()
      modifies Footprint()
      ensures Valid()
      ensures Reply(View(), result) == Store.SaveActivityDraft(p, old(View()), run, draft, edited)
    {
      hide Indexed, Advances, NotReady, Incomplete, Records.Table;
      SaveActivityDraftReaches(p, View(), run, draft, edited);
      if run !in runs { return Failure(RunNotFound); }
      var refused := NotReady(View(), run);
      if refused.Some? { return Failure(refused.value); }
      var clean := p.redactDraft(draft);
      refused := Incomplete(clean, runs[run].ticketId);
      if refused.Some? { return Failure(refused.value); }
      var id := nextDraftId;
      nextDraftId := nextDraftId + 1;
      draftIdsByRun := draftIdsByRun[run := id];
      drafts := drafts[run := clean];
      runs := runs[run := runs[run].(draft := Some(clean))];
      AppendRunEvent(run, DraftSaved(id, edited));
      return Success(id);
    }

    method CreateActivityDraft(p: Policy, run: nat, draft: Draft) returns (result: Result<nat, StoreError>)
      requires Valid()
      modifies Footprint()
      ensures Valid()
      ensures Reply(View(), result) == Store.CreateActivityDraft(p, old(View()), run, draft)
    {
      hide Indexed, NotReady, Store.SaveActivityDraft;
      if run !in runs { return Failure(RunNotFound); }
      var refused := NotReady(View(), run);
      if refused.Some? { return Failure(refused.value); }
      result := SaveActivityDraft(p, run, draft, false);
    }

    /** The run's newest open request, found from the end of its list. */
    method FindOpenRequest(run: nat) returns (found: Option<nat>)
      ensures found == OpenRequest(requests.rows, requests.Ids(run))
    {
      hide Open;
      var ids := requests.Ids(run);
      var i := |ids|;
      assert ids[..i] == ids;
      while i > 0
        invariant 0 <= i <= |ids|
        invariant OpenRequest(requests.rows, ids) == OpenRequest(requests.rows, ids[..i])
      {
        i := i - 1;
        assert ids[..i + 1][..i] == ids[..i];
        if ids[i] in requests.rows && Open(requests.rows[ids[i]].data.status) { return Some(ids[i]); }
      }
      return None;
    }

    /** Stores a request, announces it, and queues it in place of a draft still to be written. */
    method FileRequest(run: nat, request: IntegrationRequest) returns (id: nat)
      requires forall id :: id in outbox ==> id < nextOutboxId
      modifies Footprint()
      ensures id == old(View()).requests.next
      ensures var s := old(View());
              var s1 := Emit(s.(requests := s.requests.Add(run, request)), run, SubmissionRequested(id));
              View() == Enqueue(s1.(queue := Outbox.CancelPending(s1.queue, run, Outbox.DraftJob)), run, Submit(id))
    {
      hide Outbox.CancelPending, Records.Table, Table.Add, Outbox.Enqueue, Emit;
      id := requests.Store(run, request);
      AppendRunEvent(run, SubmissionRequested(id));
      CancelPendingOutboxEvent(run, Outbox.DraftJob);
      EnqueueOutbox(run, Submit(id));
    }

    method QueueActivitySubmission(run: nat) returns (result: Result<nat, StoreError>)
      requires Valid()
      modifies Footprint()
      ensures Valid()
      ensures Reply(View(), result) == QueueSubmission(old(View()), run)
    {
      hide Indexed, Advances, NotReady, Incomplete, OpenRequest, Outbox.CancelPending, Records.Table;
      requests.Means();
      QueueSubmissionReaches(View(), run);
      QueueBelow();
      if run !in runs { return Failure(RunNotFound); }
      var refused := NotReady(View(), run);
      if refused.Some? { return Failure(refused.value); }
      var draft := if run in drafts then Some(drafts[run]) else runs[run].draft;
      if draft.None? { return Failure(NoDraft); }
      refused := Incomplete(draft.value, runs[run].ticketId);
      if refused.Some? { return Failure(refused.value); }
      var existing := FindOpenRequest(run);
      if existing.Some? { return Success(existing.value); }
      var draftId := if run in draftIdsByRun then Some(draftIdsByRun[run]) else None;
      var id := FileRequest(run,
        IntegrationRequest(runs[run].ticketId, draftId, draft.value, RequestStatus.Pending, None, false, 0));
      return Success(id);
    }

    method MarkIntegrationRequestProcessing(run: nat, id: nat) returns (result: Result<nat, StoreError>)
      requires Valid()
      modifies Footprint()
      ensures Valid()
      ensures Reply(View(), result) == MarkProcessing(old(View()), run, id)
    {
      hide Indexed, Advances;
      MarkProcessingReaches(View(), run, id);
      if run !in runs { return Failure(RunNotFound); }
      if id !in requests.rows || requests.rows[id].run != run { return Failure(RequestNotInRun); }
      var request := requests.rows[id].data;
      if request.status == RequestStatus.Completed { return Success(id); }
      requests.Replace(id, request.(status := RequestStatus.Processing, attempts := request.attempts + 1));
      return Success(id);
    }

    method MarkIntegrationActivityCreated(run: nat, id: nat, activityId: int) returns (result: Result<nat, StoreError>)
      requires Valid()
      modifies Footprint()
      ensures Valid()
      ensures Reply(View(), result) == MarkActivityCreated(old(View()), run, id, activityId)
    {
      hide Indexed, Advances;
      MarkActivityCreatedReaches(View(), run, id, activityId);
      if run !in runs { return Failure(RunNotFound); }
      if id !in requests.rows || requests.rows[id].run != run { return Failure(RequestNotInRun); }
      requests.Replace(id, requests.rows[id].data.(status := ActivityCreated, activityId := Some(activityId)));
      AppendRunEvent(run, ActivityRecorded(id, activityId));
      return Success(id);
    }

    method MarkIntegrationRequestCompleted(run: nat, id: nat) returns (result: Result<nat, StoreError>)
      requires Valid()
      modifies Footprint()
      ensures Valid()
      ensures Reply(View(), result) == MarkCompleted(old(View()), run, id)
    {
      hide Indexed, Advances;
      MarkCompletedReaches(View(), run, id);
      if run !in runs { return Failure(RunNotFound); }
      if id !in requests.rows || requests.rows[id].run != run { return Failure(RequestNotInRun); }
      requests.Replace(id, requests.rows[id].data.(status := RequestStatus.Completed, ticketDone := true));
      ReplaceRun(run, runs[run].(status := Submitted));
      AppendRunEvent(run, ActivitySubmitted(id));
      AppendRunEvent(run, TicketUpdated(id));
      return Success(run);
    }

    method FailIntegrationRequest(run: nat, id: nat, terminal: bool) returns (result: Result<nat, StoreError>)
      requires Valid()
      modifies Footprint()
      ensures Valid()
      ensures Reply(View(), result) == FailRequest(old(View()), run, id, terminal)
    {
      hide Indexed, Advances;
      FailRequestReaches(View(), run, id, terminal);
      if run !in runs { return Failure(RunNotFound); }
      if id !in requests.rows || requests.rows[id].run != run { return Failure(RequestNotInRun); }
      var request := requests.rows[id].data;
      var status: RequestStatus;
      if request.status == ActivityCreated && !terminal {
        status := ActivityCreated;
      } else {
        status := if terminal then RequestStatus.DeadLetter else RequestStatus.Failed;
      }
      requests.Replace(id, request.(status := status));
      AppendRunEvent(run, IntegrationFailed(id, status));
      return Success(id);
    }

    // ---- the outbox ------------------------------------------------------------------------------

    /** Takes back every event whose worker has been silent for too long, in id order. */
    method RecoverStaleOutboxEvents()
      requires Valid()
      modifies Footprint()
      ensures Valid()
      ensures View() == RecoverStale(old(View()))
    {
      hide Indexed, Later, RecoverBelow;
      ghost var before := View();
      RecoverBelowKeeps(before, before.queue.next);
      RecoverNothing(before);
      for id := 0 to nextOutboxId
        invariant View() == RecoverBelow(before, id)
        invariant nextOutboxId == before.queue.next
      {
        RecoverBelowKeeps(before, id);
        RecoverOneMore(before, id);
        if id in outbox {
          var event := outbox[id];
          if event.status == OutboxStatus.Processing && event.claimedAt.Some?
            && event.claimedAt.value < now - Outbox.STALE_AFTER_S {
            outbox := outbox[id := event.(status := OutboxStatus.Pending, claimedAt := None, availableAt := Some(now))];
            AppendRunEvent(event.run, OutboxRecovered(id));
          }
        }
      }
    }

    method ClaimNextOutboxEvent() returns (claimed: Option<nat>)
      requires Valid()
      modifies Footprint()
      ensures Valid()
      ensures Reply(View(), Success(claimed)) == ClaimNext(old(View()))
    {
      hide Indexed, Later, RecoverStale, Outbox.FirstClaimable;
      ClaimNextKeeps(View());
      RecoverStaleOutboxEvents();
      claimed := Outbox.FirstClaimable(Queue(outbox, nextOutboxId), now, 0);
      if claimed.None? { return; }
      var event := outbox[claimed.value];
      outbox := outbox[claimed.value :=
        event.(status := OutboxStatus.Processing, attempts := event.attempts + 1, claimedAt := Some(now))];
    }

    method CompleteOutboxEvent(id: nat)
      requires Valid()
      modifies Footprint()
      ensures Valid()
      ensures View() == CompleteOutbox(old(View()), id)
    {
      hide Indexed, Advances;
      if id in outbox {
        CompleteOutboxReaches(View(), id);
        outbox := outbox[id := outbox[id].(status := OutboxStatus.Completed)];
      }
    }

    method FailOutboxEvent(id: nat)
      requires Valid()
      modifies Footprint()
      ensures Valid()
      ensures View() == FailOutbox(old(View()), id).state
    {
      hide Indexed, Advances, FailRequest;
      if id !in outbox { return; }
      var event := outbox[id];
      PutOutboxReaches(View(), id, Outbox.FailedDelivery(event, now));
      if event.attempts >= Outbox.MAX_ATTEMPTS {
        outbox := outbox[id := event.(status := OutboxStatus.DeadLetter, availableAt := None, claimedAt := None)];
      } else {
        outbox := outbox[id :=
          event.(status := OutboxStatus.Failed, availableAt := Some(now + Outbox.BackoffSeconds(event.attempts)),
            claimedAt := None)];
      }
      if event.job.Submit? {
        var _ := FailIntegrationRequest(event.run, event.job.requestId, event.attempts >= Outbox.MAX_ATTEMPTS);
      }
    }
  }

  lemma RecoverNothing(s: State)
    ensures RecoverBelow(s, 0) == s
  {
  }

  lemma RecoverOneMore(s: State, id: nat)
    ensures RecoverBelow(s, id + 1) ==
            var s1 := RecoverBelow(s, id);
            if id in s.queue.events && Outbox.Stale(s.queue.events[id], s.clock)
            then Emit(PutOutboxEvent(s1, id, Outbox.Recovered(s.queue.events[id], s.clock)), s.queue.events[id].run,
              OutboxRecovered(id)) else s1
  {
  }

  /** Withdrawing queued work leaves the store well indexed. */
  lemma WithdrawnIndexed(s: State, run: nat)
    requires Indexed(s)
    ensures Indexed(s.(queue := Outbox.CancelPending(s.queue, run, Outbox.PlanJob)))
  {
    hide Indexed, Advances, QueueLater, Outbox.CancelPending;
    if run in s.runs {
      CancelLater(s.queue, run, Outbox.PlanJob);
      QueueReaches(s, run, Outbox.CancelPending(s.queue, run, Outbox.PlanJob));
    } else {
      NothingToCancel(s, run, Outbox.PlanJob);
    }
  }
}
