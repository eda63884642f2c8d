/** Every operation of the store, whether it raises or not, only moves forward and only touches its own run. */
module Footprints {
  import opened Wrappers
  import opened Tables
  import opened Model
  import opened Store
  import opened Indexing
  import opened History
  import Outbox
  import Suite
  import Utf8

  lemma Nothing(s: State, run: nat)
    requires Indexed(s)
    ensures Reaches(s, s, run)
  {
    hide Indexed, Advances;
    Still(s, run);
  }

  /** One more timeline entry after what has been reached. */
  lemma ThenEmit(s: State, t: State, run: nat, body: Body)
    requires Reaches(s, t, run) && run in t.runs
    ensures Reaches(s, Emit(t, run, body), run)
  {
    hide Indexed, Advances;
    EmitReaches(t, run, body);
    ReachesThen(s, t, Emit(t, run, body), run);
  }

  lemma ThenPutRun(s: State, t: State, run: nat, r: Run)
    requires Reaches(s, t, run) && run in t.runs && r.ticketId == t.runs[run].ticketId
      && r.snapshot == t.runs[run].snapshot
    ensures Reaches(s, PutRun(t, run, r), run)
  {
    hide Indexed, Advances;
    PutRunReaches(t, run, r);
    ReachesThen(s, t, PutRun(t, run, r), run);
  }

  lemma ThenEnqueue(s: State, t: State, run: nat, job: Job)
    requires Reaches(s, t, run) && run in t.runs
    ensures Reaches(s, Enqueue(t, run, job), run)
  {
    hide Indexed, Advances;
    EnqueueReaches(t, run, job);
    ReachesThen(s, t, Enqueue(t, run, job), run);
  }

  // ---- runs --------------------------------------------------------------------------------------

  lemma OpenTable<T>(t: Table<T>, runs: set<nat>, run: nat)
    requires t.Indexed(runs) && run !in runs
    ensures Owned(t, t.OpenRun(run)) && Elsewhere(t, t.OpenRun(run), run) && Preserved(t, t.OpenRun(run))
  {
  }

  lemma OpenRunReaches(s: State, ticketId: int, snapshot: string)
    requires Indexed(s)
    ensures Reaches(s, OpenRun(s, ticketId, snapshot), s.nextRun)
  {
    hide Table.Indexed, QueueIndexed, TablesOwned, TablesElsewhere, TablesLater, TimelineLater;
    OpenTimeline(s.timeline, s.runs.Keys, s.nextRun);
    OpenRunTables(s, ticketId, snapshot);
    OpenRunKeepsIndexed(s, ticketId, snapshot);
  }

  lemma OpenTimeline(t: Timeline, runs: set<nat>, run: nat)
    requires TimelineIndexed(t, runs) && run !in runs
    ensures TimelineLater(t, t.(events := t.events[run := []]), run)
  {
  }

  lemma OpenRunTables(s: State, ticketId: int, snapshot: string)
    requires Indexed(s) && s.nextRun !in s.runs.Keys
    ensures var t := OpenRun(s, ticketId, snapshot);
            TablesOwned(s, t) && TablesElsewhere(s, t, s.nextRun) && TablesLater(s, t)
  {
    hide Table.Indexed, TimelineIndexed, QueueIndexed, Owned, Elsewhere, Preserved;
    OpenTable(s.steps, s.runs.Keys, s.nextRun);
    OpenTable(s.executions, s.runs.Keys, s.nextRun);
    OpenTable(s.chunks, s.runs.Keys, s.nextRun);
    OpenTable(s.sources, s.runs.Keys, s.nextRun);
    OpenTable(s.results, s.runs.Keys, s.nextRun);
    OpenTable(s.expectations, s.runs.Keys, s.nextRun);
    OpenTable(s.backups, s.runs.Keys, s.nextRun);
    OpenTable(s.requests, s.runs.Keys, s.nextRun);
  }

  lemma CreateRunReaches(s: State, ticketId: int, snapshot: string)
    requires Indexed(s)
    ensures Reaches(s, CreateRun(s, ticketId, snapshot).state, s.nextRun)
  {
    hide Indexed, Advances;
    var begun := OpenRun(s, ticketId, snapshot);
    OpenRunReaches(s, ticketId, snapshot);
    ThenEmit(s, begun, s.nextRun, RunCreated(ticketId));
    ThenEmit(s, Emit(begun, s.nextRun, RunCreated(ticketId)), s.nextRun, ConnectionRequested);
  }

  lemma ApproveConnectionReaches(s: State, run: nat)
    requires Indexed(s)
    ensures Reaches(s, ApproveConnection(s, run).state, run)
  {
    hide Indexed, Advances;
    Nothing(s, run);
    if ApproveConnection(s, run).result.Success? {
      var s1 := PutRun(s, run, s.runs[run].(status := Investigating));
      ThenPutRun(s, s, run, s.runs[run].(status := Investigating));
      ThenEmit(s, s1, run, ConnectionApproved);
      var s2 := Emit(s1, run, ConnectionApproved);
      ThenEmit(s, s2, run, PlanRequested(ConnectionApproval));
      ThenEnqueue(s, Emit(s2, run, PlanRequested(ConnectionApproval)), run, Plan(ConnectionApproval));
    }
  }

  lemma CancelLater(q: Queue, run: nat, kind: Outbox.Kind)
    ensures QueueLater(q, Outbox.CancelPending(q, run, kind), run)
      && Outbox.CancelPending(q, run, kind).events.Keys == q.events.Keys
  {
  }

  lemma RetryRunReaches(s: State, run: nat)
    requires Indexed(s)
    ensures Reaches(s, RetryRun(s, run).state, run)
  {
    hide Indexed, Advances;
    Nothing(s, run);
    if RetryRun(s, run).result.Success? {
      var s1 := s.(queue := Outbox.Supersede(s.queue, run));
      QueueReaches(s, run, s1.queue);
      var r := s.runs[run].(status := Investigating, pending := None);
      ThenPutRun(s, s1, run, r);
      ThenEmit(s, PutRun(s1, run, r), run, RunRetried);
      ThenEnqueue(s, Emit(PutRun(s1, run, r), run, RunRetried), run, Plan(RetryRequested));
    }
  }

  lemma AbortRunReaches(s: State, run: nat)
    requires Indexed(s)
    ensures Reaches(s, AbortRun(s, run).state, run)
  {
    hide Indexed, Advances;
    Nothing(s, run);
    if AbortRun(s, run).state != s {
      var r := s.runs[run].(status := Aborted, pending := None);
      ThenPutRun(s, s, run, r);
      ThenEmit(s, PutRun(s, run, r), run, RunAborted);
    }
  }

  lemma AppendEventReaches(s: State, run: nat, name: string)
    requires Indexed(s)
    ensures Reaches(s, AppendEvent(s, run, name).state, run)
  {
    hide Indexed, Advances;
    Nothing(s, run);
    if run in s.runs { EmitReaches(s, run, Informational(name)); }
  }

  // ---- proposing steps ---------------------------------------------------------------------------

  lemma PlanBackupReaches(p: Policy, s: State, run: nat, ticketId: int, step: Step)
    requires Indexed(s) && run in s.runs
    ensures Reaches(s, PlanBackup(p, s, run, ticketId, step), run)
  {
    hide Indexed, Advances;
    Nothing(s, run);
    if PlanBackup(p, s, run, ticketId, step) != s {
      var requirement := p.requirement(step.command, step.risk);
      var record := BackupRecord(None, requirement.path, requirement.kind, p.restorePlan(run, ticketId, requirement),
        true, false);
      AddBackupReaches(s, run, record);
      ThenEmit(s, s.(backups := s.backups.Add(run, record)), run, BackupPlanned(s.backups.next));
    }
  }

  lemma AnnounceStepReaches(s: State, run: nat, step: Step)
    requires Indexed(s) && run in s.runs
    ensures Reaches(s, AnnounceStep(s, run, step), run)
  {
    hide Indexed, Advances;
    var id := s.steps.next;
    var s1 := s.(steps := s.steps.Add(run, step));
    AddStepReaches(s, run, step);
    var s2 := if step.origin == Manual then Emit(s1, run, ManualStepEntered(id)) else s1;
    ThenEmit(s, s1, run, ManualStepEntered(id));
    ThenEmit(s, s2, run, StepProposed(id, step.phase));
    ThenEmit(s, Emit(s2, run, StepProposed(id, step.phase)), run,
      SafetyClassified(id, step.command, !step.blocked, false));
  }

  lemma CreateStepReaches(p: Policy, s: State, run: nat, origin: Origin, command: string, purpose: string, phase: Phase)
    requires Indexed(s)
    ensures Reaches(s, CreateStep(p, s, run, origin, command, purpose, phase).state, run)
  {
    hide Indexed, Advances, AnnounceStep, PlanBackup;
    Nothing(s, run);
    if CreateStep(p, s, run, origin, command, purpose, phase).result.Success? {
      var step := NewStep(p, origin, command, purpose, phase);
      var s1 := AnnounceStep(s, run, step);
      AnnounceStepReaches(s, run, step);
      PlanBackupReaches(p, s1, run, s.runs[run].ticketId, step);
      var s2 := PlanBackup(p, s1, run, s.runs[run].ticketId, step);
      ReachesThen(s, s1, s2, run);
      ThenPutRun(s, s2, run, AfterProposal(s.runs[run], s.steps.next, step.blocked));
    }
  }

  lemma CreateManualStepReaches(p: Policy, s: State, run: nat, command: string, purpose: string, phase: Phase)
    requires Indexed(s)
    ensures Reaches(s, CreateManualStep(p, s, run, command, purpose, phase).state, run)
  {
    hide Indexed, Advances, CreateStep, QueueLater;
    if run in s.runs {
      CancelLater(s.queue, run, Outbox.PlanJob);
      var s1 := s.(queue := Outbox.CancelPending(s.queue, run, Outbox.PlanJob));
      QueueReaches(s, run, s1.queue);
      CreateStepReaches(p, s1, run, Manual, command, purpose, phase);
      ReachesThen(s, s1, CreateManualStep(p, s, run, command, purpose, phase).state, run);
    } else {
      NothingToCancel(s, run, Outbox.PlanJob);
      CreateStepReaches(p, s, run, Manual, command, purpose, phase);
    }
  }

  lemma NothingToCancel(s: State, run: nat, kind: Outbox.Kind)
    requires Indexed(s) && run !in s.runs
    ensures s.(queue := Outbox.CancelPending(s.queue, run, kind)) == s
  {
    hide Table.Indexed, TimelineIndexed;
    var q := Outbox.CancelPending(s.queue, run, kind);
    assert q.events == s.queue.events;
  }

  lemma ProposeRestoreReaches(p: Policy, s: State, run: nat, recordId: nat, reason: string)
    requires Indexed(s)
    ensures Reaches(s, ProposeRestore(p, s, run, recordId, reason).state, run)
  {
    hide Indexed, Advances;
    Nothing(s, run);
    if s.backups.Has(run, recordId) && s.backups.rows[recordId].data.restoreCommand.Some? {
      var command := s.backups.rows[recordId].data.restoreCommand.value;
      var reply := CreateStep(p, s, run, FromBackup, command, reason, Restore);
      CreateStepReaches(p, s, run, FromBackup, command, reason, Restore);
      if reply.result.Success? {
        ThenEmit(s, reply.state, run, RestoreProposed(recordId, reply.result.value));
      }
    }
  }

  lemma RecordBackupNotApplicableReaches(s: State, run: nat, path: Option<string>)
    requires Indexed(s)
    ensures Reaches(s, RecordBackupNotApplicable(s, run, path).state, run)
  {
    hide Indexed, Advances;
    Nothing(s, run);
    if run in s.runs {
      var record := BackupRecord(None, path, NotApplicable, None, false, false);
      AddBackupReaches(s, run, record);
      ThenEmit(s, s.(backups := s.backups.Add(run, record)), run, BackupNotApplicable(s.backups.next));
    }
  }

  // ---- approving steps ---------------------------------------------------------------------------

  lemma NoteReaches(s: State, run: nat, gate: Gate)
    requires Indexed(s) && run in s.runs
    ensures Reaches(s, Note(s, run, gate), run)
  {
    hide Indexed, Advances;
    Nothing(s, run);
    if gate.note.Some? { EmitReaches(s, run, gate.note.value); }
  }

  lemma GrantReaches(s: State, run: nat, id: nat, body: Body)
    requires Indexed(s) && run in s.runs && s.steps.Has(run, id) && s.steps.rows[id].data.status == Proposed
    ensures Reaches(s, Grant(s, run, id, body), run)
  {
    hide Indexed, Advances;
    var step := s.steps.rows[id].data;
    var granted := step.(status := Approved, approvedCommand := Some(step.command));
    var s1 := s.(steps := s.steps.Put(id, granted));
    PutStepReaches(s, run, id, granted);
    var r := s.runs[run].(status := StatusForApproved(step.phase), pending := None);
    ThenPutRun(s, s1, run, r);
    var s2 := PutRun(s1, run, r);
    ThenEmit(s, s2, run, body);
    var s3 := Emit(s2, run, body);
    ThenEmit(s, s3, run, ExecutionRequested(id));
    ThenEnqueue(s, Emit(s3, run, ExecutionRequested(id)), run, Execute(id));
  }

  lemma ApproveThroughGatesReaches(p: Policy, s: State, run: nat, id: nat, body: Body)
    requires Indexed(s) && run in s.runs && s.steps.Has(run, id) && s.steps.rows[id].data.status == Proposed
    ensures Reaches(s, ApproveThroughGates(p, s, run, id, body).state, run)
  {
    hide Indexed, Advances, Note, FixGate, BackupGate, Grant;
    var step := s.steps.rows[id].data;
    var fix := FixGate(p, s, run, id, step);
    var s1 := Note(s, run, fix);
    NoteReaches(s, run, fix);
    if fix.error.None? {
      var backup := BackupGate(p, s1, run, id, step);
      var s2 := Note(s1, run, backup);
      NoteReaches(s1, run, backup);
      ReachesThen(s, s1, s2, run);
      if backup.error.None? {
        GrantReaches(s2, run, id, body);
        ReachesThen(s, s2, Grant(s2, run, id, body), run);
      }
    }
  }

  lemma ApproveStepReaches(p: Policy, s: State, run: nat, id: nat)
    requires Indexed(s)
    ensures Reaches(s, ApproveStep(p, s, run, id).state, run)
  {
    hide Indexed, Advances, ApproveThroughGates;
    Nothing(s, run);
    if run in s.runs && s.steps.Has(run, id) && s.steps.rows[id].data.status == Proposed {
      ApproveThroughGatesReaches(p, s, run, id, StepApproved(id, s.steps.rows[id].data.command));
    }
  }

  lemma ReclassifyReaches(s: State, run: nat, id: nat, edited: Step)
    requires Indexed(s) && run in s.runs && s.steps.Has(run, id) && StepLater(s.steps.rows[id].data, edited)
    ensures Reaches(s, Reclassify(s, run, id, edited), run)
  {
    hide Indexed, Advances;
    PutStepReaches(s, run, id, edited);
    ThenEmit(s, s.(steps := s.steps.Put(id, edited)), run, SafetyClassified(id, edited.command, !edited.blocked, true));
  }

  lemma EditAndApproveStepReaches(p: Policy, s: State, run: nat, id: nat, command: string, purpose: Option<string>)
    requires Indexed(s)
    ensures Reaches(s, EditAndApproveStep(p, s, run, id, command, purpose).state, run)
  {
    hide Indexed, Advances, ApproveThroughGates;
    Nothing(s, run);
    if run in s.runs && s.steps.Has(run, id) && s.steps.rows[id].data.status == Proposed {
      var edited := EditedStep(p, s.steps.rows[id].data, command, purpose);
      var s1 := Reclassify(s, run, id, edited);
      ReclassifyReaches(s, run, id, edited);
      ApproveThroughGatesReaches(p, s1, run, id, StepEditedAndApproved(id, command));
      ReachesThen(s, s1, ApproveThroughGates(p, s1, run, id, StepEditedAndApproved(id, command)).state, run);
    }
  }

  lemma RejectStepReaches(s: State, run: nat, id: nat)
    requires Indexed(s)
    ensures Reaches(s, RejectStep(s, run, id).state, run)
  {
    hide Indexed, Advances;
    Nothing(s, run);
    if RejectStep(s, run, id).result.Success? {
      var rejected := s.steps.rows[id].data.(status := Rejected);
      var s1 := s.(steps := s.steps.Put(id, rejected));
      PutStepReaches(s, run, id, rejected);
      var r := s.runs[run].(status := IdleStatus(s.runs[run].status), pending := None);
      ThenPutRun(s, s1, run, r);
      ThenEmit(s, PutRun(s1, run, r), run, StepRejected(id));
    }
  }

  // ---- executing commands ------------------------------------------------------------------------

  /** What a command was when it was started, and how it is on record. */
  lemma StartedIs(s: State, run: nat, step: nat)
    ensures var t := StartExecution(s, run, step);
            if t.result.Failure? then t.state == s
            else
              var x, record := s.executions.next, s.steps.rows[step].data;
              && t.result.value == x && run in s.runs && s.steps.Has(run, step)
              && s.runs[run].status == StatusForApproved(record.phase)
              && record.status == Approved && !record.blocked && record.approvedCommand.Some?
              && (forall y :: y in s.executions.rows ==> s.executions.rows[y].data.stepId != step)
              && t.state.executions.rows == s.executions.rows[x :=
                   Row(run, Execution(step, record.approvedCommand.value, Running, s.limit, false, false, None, None,
                     "", ""))]
              && t.state.executions.next == x + 1 && t.state.storedBytes == s.storedBytes[x := 0]
  {
  }

  lemma StartExecutionReaches(s: State, run: nat, stepId: nat)
    requires Indexed(s)
    ensures Reaches(s, StartExecution(s, run, stepId).state, run)
  {
    hide Indexed, Advances;
    Nothing(s, run);
    if StartExecution(s, run, stepId).result.Success? {
      var command := s.steps.rows[stepId].data.approvedCommand.value;
      var execution := Execution(stepId, command, Running, s.limit, false, false, None, None, "", "");
      AddExecutionReaches(s, run, execution);
      ThenEmit(s, s.(executions := s.executions.Add(run, execution),
        storedBytes := s.storedBytes[s.executions.next := 0]), run,
               CommandStarted(stepId, s.executions.next, command));
    }
  }

  lemma MarkTruncatedReaches(s: State, run: nat, id: nat)
    requires Indexed(s) && run in s.runs && s.executions.Has(run, id)
    ensures Reaches(s, MarkTruncated(s, run, id), run)
  {
    hide Indexed, Advances;
    Nothing(s, run);
    var marked := s.executions.rows[id].data.(truncated := true);
    PutExecutionReaches(s, run, id, marked);
    ThenEmit(s, s.(executions := s.executions.Put(id, marked)), run, OutputTruncated(id));
  }

  lemma StoreChunkReaches(s: State, run: nat, id: nat, stream: Stream, kept: string, redacted: bool)
    requires Indexed(s) && run in s.runs && s.executions.Has(run, id)
    ensures Reaches(s, StoreChunk(s, run, id, stream, kept, redacted), run)
    ensures StoreChunk(s, run, id, stream, kept, redacted).executions.Has(run, id)
  {
    hide Indexed, Advances, ChunksFor, Table.OfRun;
    var sequence := |ChunksFor(s.chunks.OfRun(run), id)| + 1;
    var chunk := Chunk(id, sequence, stream, kept, redacted);
    var longer := AppendTo(s.executions.rows[id].data, stream, kept);
    var bytes := Stored(s, id) + Utf8.Size(kept);
    AddChunkReaches(s, run, id, chunk, longer, bytes);
    ThenEmit(s, s.(chunks := s.chunks.Add(run, chunk), executions := s.executions.Put(id, longer),
      storedBytes := s.storedBytes[id := bytes]),
             run, OutputChunk(id, sequence));
  }

  lemma AppendChunkReaches(p: Policy, s: State, run: nat, id: nat, stream: Stream, content: string, redacted: bool)
    requires Indexed(s)
    ensures Reaches(s, AppendChunk(p, s, run, id, stream, content, redacted).state, run)
  {
    hide Indexed, Advances, StoreChunk, MarkTruncated;
    Nothing(s, run);
    if run in s.runs && s.executions.Has(run, id) {
      MarkTruncatedReaches(s, run, id);
      var execution := s.executions.rows[id].data;
      var (clean, changed) := p.redact(content);
      if Stored(s, id) < execution.limit {
        var kept := Utf8.Fitting(clean, execution.limit - Stored(s, id));
        var s1 := StoreChunk(s, run, id, stream, kept, redacted || changed);
        StoreChunkReaches(s, run, id, stream, kept, redacted || changed);
        MarkTruncatedReaches(s1, run, id);
        ReachesThen(s, s1, MarkTruncated(s1, run, id), run);
      }
    }
  }

  // ---- completing commands -----------------------------------------------------------------------

  lemma ReplanReaches(s: State, run: nat, status: RunStatus, reason: PlanReason)
    requires Indexed(s) && run in s.runs
    ensures Reaches(s, Replan(s, run, status, reason), run)
  {
    hide Indexed, Advances;
    var r := s.runs[run].(status := status, pending := None);
    PutRunReaches(s, run, r);
    ThenEmit(s, PutRun(s, run, r), run, PlanRequested(reason));
    ThenEnqueue(s, Emit(PutRun(s, run, r), run, PlanRequested(reason)), run, Plan(reason));
  }

  lemma RecordResultReaches(s: State, run: nat, result: ValidationResult)
    requires Indexed(s) && run in s.runs
    ensures Reaches(s, RecordResult(s, run, result), run)
  {
    hide Indexed, Advances;
    AddResultReaches(s, run, result);
    ThenEmit(s, s.(results := s.results.Add(run, result)), run, ValidationRecorded(s.results.next, result.passed));
  }

  lemma DecideReaches(s: State, run: nat, expectationId: nat, resultId: nat, result: ValidationResult)
    requires Indexed(s) && run in s.runs && s.expectations.Has(run, expectationId)
    requires s.expectations.rows[expectationId].data.status == CheckStatus.Pending
    ensures Reaches(s, Decide(s, run, expectationId, resultId, result), run)
  {
    hide Indexed, Advances;
    var verdict := if result.passed then CheckStatus.Passed else CheckStatus.Failed;
    var decided := s.expectations.rows[expectationId].data.(status := verdict, resultId := Some(resultId));
    PutExpectationReaches(s, run, expectationId, decided);
    ThenEmit(s, s.(expectations := s.expectations.Put(expectationId, decided)), run,
      ExpectationUpdated(expectationId, resultId, verdict));
  }

  lemma {:induction false} WithFixListed(rows: map<nat, Row<Expectation>>, ids: seq<nat>, fixId: nat)
    ensures forall id :: id in WithFix(rows, ids, fixId) <==> id in ids && id in rows && rows[id].data.fixId == fixId
  {
    if ids != [] { WithFixListed(rows, ids[1..], fixId); }
  }

  /** The latest suite consists of the run's own expectations. */
  lemma SuiteIsOwned(s: State, run: nat)
    requires s.expectations.Indexed(s.runs.Keys) && run in s.runs
    ensures forall id :: id in LatestSuite(s, run) ==> s.expectations.Has(run, id)
    ensures |LatestExpectations(s, run)| == |LatestSuite(s, run)|
    ensures forall i :: 0 <= i < |LatestSuite(s, run)| ==> LatestSuite(s, run)[i] in s.expectations.rows
    ensures forall i :: 0 <= i < |LatestSuite(s, run)| ==>
      LatestExpectations(s, run)[i] == s.expectations.rows[LatestSuite(s, run)[i]].data
  {
    var ids := s.expectations.byRun[run];
    var suite := LatestSuite(s, run);
    if suite != [] {
      WithFixListed(s.expectations.rows, ids, s.expectations.rows[ids[|ids| - 1]].data.fixId);
      forall id | id in suite ensures s.expectations.Has(run, id) { assert id in s.expectations.byRun[run]; }
    }
    LookupAt(s.expectations.rows, suite);
    forall i | 0 <= i < |suite| ensures suite[i] in s.expectations.rows { assert suite[i] in suite; }
  }

  /** The expectation a result is applied to, if any: one of the latest suite, still pending, of the result's type. */
  function Chosen(p: Policy, s: State, run: nat, result: ValidationResult): Option<nat> {
    var ids := LatestSuite(s, run);
    var found := Suite.Matching(p, LatestExpectations(s, run), result);
    if ids != [] && found.Some? && found.value < |ids| && ids[found.value] in s.expectations.rows
      then Some(ids[found.value]) else None
  }

  lemma ChosenIsPending(p: Policy, s: State, run: nat, result: ValidationResult)
    requires s.expectations.Indexed(s.runs.Keys) && run in s.runs && Chosen(p, s, run, result).Some?
    ensures var id := Chosen(p, s, run, result).value;
            id in LatestSuite(s, run) && s.expectations.Has(run, id)
              && Suite.Waits(s.expectations.rows[id].data, result)
  {
    hide Table.Indexed, LatestSuite, LatestExpectations;
    SuiteIsOwned(s, run);
  }

  lemma ApplyResultReaches(p: Policy, s: State, run: nat, resultId: nat, result: ValidationResult)
    requires Indexed(s) && run in s.runs
    ensures Reaches(s, ApplyResult(p, s, run, resultId, result), run)
  {
    hide Table.Indexed, TimelineIndexed, QueueIndexed, Advances, LatestSuite, LatestExpectations, Decide;
    Nothing(s, run);
    EmitReaches(s, run, SuiteMissing(resultId));
    var id := Chosen(p, s, run, result);
    if id.Some? {
      ChosenIsPending(p, s, run, result);
      DecideReaches(s, run, id.value, resultId, result);
    }
  }

  lemma MoveOnReaches(s: State, run: nat, resultId: nat, suite: Suite.SuiteStatus, passed: bool)
    requires Indexed(s) && run in s.runs
    ensures Reaches(s, MoveOn(s, run, resultId, suite, passed), run)
  {
    hide Indexed, Advances, Replan;
    ReplanReaches(s, run, Validating, if suite == Suite.SuiteStatus.Failed || !passed then ValidationFailed
      else SuiteIncomplete);
    var r := s.runs[run].(status := ReadyForActivity, pending := None);
    var s1 := PutRun(s, run, r);
    PutRunReaches(s, run, r);
    ThenEmit(s, s1, run, SuitePassed(resultId));
    var s2 := Emit(s1, run, SuitePassed(resultId));
    ThenEmit(s, s2, run, DraftRequested(resultId));
    ThenEnqueue(s, Emit(s2, run, DraftRequested(resultId)), run, DraftActivity(resultId));
  }

  lemma ConcludeValidationReaches(p: Policy, s: State, run: nat, id: nat, done: Execution)
    requires Indexed(s) && run in s.runs
    ensures Reaches(s, ConcludeValidation(p, s, run, id, done), run)
  {
    hide Indexed, Advances, ApplyResult, MoveOn, SuiteVerdict, ResultOf;
    var result := ResultOf(p, id, done);
    var s1 := RecordResult(s, run, result);
    RecordResultReaches(s, run, result);
    assert run in s1.runs;
    var s2 := ApplyResult(p, s1, run, s.results.next, result);
    ApplyResultReaches(p, s1, run, s.results.next, result);
    ReachesThen(s, s1, s2, run);
    MoveOnReaches(s2, run, s.results.next, SuiteVerdict(s2, run, result), result.passed);
    ReachesThen(s, s2, ConcludeValidation(p, s, run, id, done), run);
  }

  lemma {:induction false} AddExpectationsReaches(s: State, run: nat, fixId: nat, specs: seq<Suite.CheckSpec>)
    requires Indexed(s) && run in s.runs
    ensures Reaches(s, s.(expectations := AddExpectations(s.expectations, run, fixId, specs)), run)
    decreases |specs|
  {
    hide Indexed, Advances;
    Nothing(s, run);
    if specs != [] {
      var e := Expectation(fixId, specs[0].checkType, specs[0].target, true, CheckStatus.Pending, None);
      var s1 := s.(expectations := s.expectations.Add(run, e));
      AddExpectationReaches(s, run, e);
      AddExpectationsReaches(s1, run, fixId, specs[1..]);
      ReachesThen(s, s1, s1.(expectations := AddExpectations(s1.expectations, run, fixId, specs[1..])), run);
    }
  }

  lemma ConcludeFixReaches(p: Policy, s: State, run: nat, id: nat, step: Step, done: Execution)
    requires Indexed(s) && run in s.runs
    ensures Reaches(s, ConcludeFix(p, s, run, id, step, done), run)
  {
    hide Indexed, Advances, AddExpectations, Suite.Specs, NewIds;
    var specs := Suite.Specs(p.suiteFacts(s.runs[run].snapshot, done.command, step.purpose));
    var s1 := s.(expectations := AddExpectations(s.expectations, run, id, specs));
    AddExpectationsReaches(s, run, id, specs);
    var r := s.runs[run].(status := Validating, pending := None);
    ThenPutRun(s, s1, run, r);
    var s2 := PutRun(s1, run, r);
    var body := SuiteRequired(done.stepId, id, NewIds(s.expectations.next, |specs|));
    ThenEmit(s, s2, run, body);
    var s3 := Emit(s2, run, body);
    ThenEmit(s, s3, run, ValidationRequired(done.stepId, id));
    var s4 := Emit(s3, run, ValidationRequired(done.stepId, id));
    ThenEmit(s, s4, run, PlanRequested(FixCompleted));
    ThenEnqueue(s, Emit(s4, run, PlanRequested(FixCompleted)), run, Plan(FixCompleted));
  }

  lemma ConcludeReaches(p: Policy, s: State, run: nat, id: nat, step: Step, done: Execution)
    requires Indexed(s) && run in s.runs
    ensures Reaches(s, Conclude(p, s, run, id, step, done), run)
  {
    hide Indexed, Advances, ConcludeValidation, ConcludeFix, Replan;
    ConcludeValidationReaches(p, s, run, id, done);
    ConcludeFixReaches(p, s, run, id, step, done);
    ReplanReaches(s, run, Investigating, ObservationRecorded);
    ReplanReaches(s, run, Investigating, CommandFailure);
    PutRunReaches(s, run, s.runs[run].(status := RunStatus.Failed, pending := None));
  }

  lemma RecordSourceReaches(s: State, run: nat, source: Source)
    requires Indexed(s) && run in s.runs
    ensures Reaches(s, RecordSource(s, run, source), run)
  {
    hide Indexed, Advances;
    AddSourceReaches(s, run, source);
    var s1 := Emit(s.(sources := s.sources.Add(run, source)), run, SourceDetected(s.sources.next));
    ThenEmit(s, s.(sources := s.sources.Add(run, source)), run, SourceDetected(s.sources.next));
    ThenEmit(s, s1, run, SourceRedacted(s.sources.next));
  }

  lemma {:induction false} RecordSourcesReaches(s: State, run: nat, id: nat, found: seq<DetectedSource>)
    requires Indexed(s) && run in s.runs
    ensures Reaches(s, RecordSources(s, run, id, found), run)
    decreases |found|
  {
    hide Indexed, Advances, RecordSource;
    Nothing(s, run);
    if found != [] {
      var source := Source(id, found[0].supports, found[0].redacted, found[0].detail);
      var s1 := RecordSource(s, run, source);
      RecordSourceReaches(s, run, source);
      RecordSourcesReaches(s1, run, id, found[1..]);
      ReachesThen(s, s1, RecordSources(s1, run, id, found[1..]), run);
    }
  }

  lemma RecordLedgersReaches(p: Policy, s: State, run: nat, id: nat, done: Execution, step: Step)
    requires Indexed(s) && run in s.runs
    ensures Reaches(s, RecordLedgers(p, s, run, id, done, step), run)
  {
    hide Indexed, Advances, RecordSources, AnyRedacted, Table.OfRun;
    var found := p.detectSources(done.command, done.stdout, done.stderr, step.purpose, step.phase,
      AnyRedacted(s.chunks.OfRun(run), id));
    var s1 := RecordSources(s, run, id, found);
    RecordSourcesReaches(s, run, id, found);
    var backup := p.detectBackup(done.command, done.stdout + "\n" + done.stderr);
    if backup.Some? {
      var record := BackupRecord(Some(id), Some(backup.value.path), backup.value.kind,
        Some(backup.value.restoreCommand), true, true);
      AddBackupReaches(s1, run, record);
      var s2 := s1.(backups := s1.backups.Add(run, record));
      ReachesThen(s, s1, s2, run);
      ThenEmit(s, s2, run, BackupCreated(s1.backups.next));
    }
  }

  lemma RecordObservationsReaches(p: Policy, s: State, run: nat, id: nat, done: Execution, step: Step)
    requires Indexed(s) && run in s.runs
    ensures Reaches(s, RecordObservations(p, s, run, id, done, step), run)
  {
    hide Indexed, Advances, RecordLedgers, RestoredRecord, Table.OfRun;
    Nothing(s, run);
    var s1 := RecordLedgers(p, s, run, id, done, step);
    RecordLedgersReaches(p, s, run, id, done, step);
    var found := RestoredRecord(s1.backups.OfRun(run), done.command);
    if found.Some? && found.value < |s1.backups.Ids(run)| {
      ThenEmit(s, s1, run, BackupRestored(s1.backups.Ids(run)[found.value], id));
    }
  }

  lemma CompleteExecutionReaches(p: Policy, s: State, run: nat, id: nat, exitCode: Option<int>, error: Option<string>,
      timedOut: bool)
    requires Indexed(s)
    ensures Reaches(s, CompleteExecution(p, s, run, id, exitCode, error, timedOut).state, run)
  {
    hide Indexed, Advances, Settle, FinalStatus;
    Nothing(s, run);
    if run in s.runs && s.executions.Has(run, id) {
      var done := WithOutcome(s.executions.rows[id].data, exitCode, error, timedOut);
      var s1 := s.(executions := s.executions.Put(id, done));
      PutExecutionReaches(s, run, id, done);
      if s.steps.Has(run, done.stepId) {
        var step := s.steps.rows[done.stepId].data;
        var s2 := s1.(steps := s1.steps.Put(done.stepId, step.(status := OutcomeOf(done.status))));
        PutStepReaches(s1, run, done.stepId, step.(status := OutcomeOf(done.status)));
        ReachesThen(s, s1, s2, run);
        SettleReaches(p, s2, run, id, step, done);
        ReachesThen(s, s2, Settle(p, s2, run, id, step, done), run);
      }
    }
  }

  lemma SettleReaches(p: Policy, s: State, run: nat, id: nat, step: Step, done: Execution)
    requires Indexed(s) && run in s.runs
    ensures Reaches(s, Settle(p, s, run, id, step, done), run)
  {
    hide Indexed, Advances, Conclude, RecordObservations, FinishedBody;
    Nothing(s, run);
    var s1 := if s.runs[run].status != Aborted then Conclude(p, s, run, id, step, done) else s;
    ConcludeReaches(p, s, run, id, step, done);
    ConcludeKeepsRun(p, s, run, id, step, done);
    ThenEmit(s, s1, run, FinishedBody(id, done));
    var s2 := Emit(s1, run, FinishedBody(id, done));
    RecordObservationsReaches(p, s2, run, id, done, step);
    ReachesThen(s, s2, RecordObservations(p, s2, run, id, done, step), run);
  }

  lemma ConcludeKeepsRun(p: Policy, s: State, run: nat, id: nat, step: Step, done: Execution)
    requires Indexed(s) && run in s.runs
    ensures run in Conclude(p, s, run, id, step, done).runs
  {
    hide Conclude, Indexed, TablesOwned, TablesElsewhere, TablesLater, TimelineLater, QueueLater;
    ConcludeReaches(p, s, run, id, step, done);
  }

  // ---- drafts and submissions --------------------------------------------------------------------

  lemma SaveActivityDraftReaches(p: Policy, s: State, run: nat, draft: Draft, edited: bool)
    requires Indexed(s)
    ensures Reaches(s, SaveActivityDraft(p, s, run, draft, edited).state, run)
  {
    hide Indexed, Advances, NotReady, Incomplete;
    Nothing(s, run);
    if SaveActivityDraft(p, s, run, draft, edited).result.Success? {
      var clean := p.redactDraft(draft);
      var id := s.nextDraft;
      var r := s.runs[run].(draft := Some(clean));
      PutRunReaches(s, run, r);
      var s1 := PutRun(s, run, r);
      var s2 := s1.(nextDraft := id + 1, draftIds := s.draftIds[run := id], drafts := s.drafts[run := clean]);
      DraftsReach(s1, run, s2);
      ReachesThen(s, s1, s2, run);
      ThenEmit(s, s2, run, DraftSaved(id, edited));
    }
  }

  lemma DraftsReach(s: State, run: nat, t: State)
    requires Indexed(s) && t == s.(nextDraft := t.nextDraft, draftIds := t.draftIds, drafts := t.drafts)
    requires DraftsElsewhere(s.drafts, t.drafts, run) && DraftsElsewhere(s.draftIds, t.draftIds, run)
    ensures Reaches(s, t, run)
  {
    hide Table.Indexed, TimelineIndexed, QueueIndexed, Owned, Elsewhere, Preserved, StepsLater, ExecutionsLater,
      ExpectationsLater, TimelineLater, QueueLater;
    Still(s, run);
  }

  lemma CreateActivityDraftReaches(p: Policy, s: State, run: nat, draft: Draft)
    requires Indexed(s)
    ensures Reaches(s, CreateActivityDraft(p, s, run, draft).state, run)
  {
    hide Indexed, Advances, NotReady, SaveActivityDraft;
    Nothing(s, run);
    SaveActivityDraftReaches(p, s, run, draft, false);
  }

  lemma QueueSubmissionReaches(s: State, run: nat)
    requires Indexed(s)
    ensures Reaches(s, QueueSubmission(s, run).state, run)
  {
    hide Indexed, Advances, NotReady, Incomplete, OpenRequest, SavedDraft, QueueLater;
    Nothing(s, run);
    if QueueSubmission(s, run).state != s {
      var id := s.requests.next;
      var request := NewRequest(s, run);
      var s0 := s.(requests := s.requests.Add(run, request));
      AddRequestReaches(s, run, request);
      ThenEmit(s, s0, run, SubmissionRequested(id));
      var s1 := Emit(s0, run, SubmissionRequested(id));
      CancelLater(s1.queue, run, Outbox.DraftJob);
      var s2 := s1.(queue := Outbox.CancelPending(s1.queue, run, Outbox.DraftJob));
      QueueReaches(s1, run, s2.queue);
      ReachesThen(s, s1, s2, run);
      ThenEnqueue(s, s2, run, Submit(id));
    }
  }

  lemma MarkProcessingReaches(s: State, run: nat, id: nat)
    requires Indexed(s)
    ensures Reaches(s, MarkProcessing(s, run, id).state, run)
  {
    hide Indexed, Advances;
    Nothing(s, run);
    if run in s.runs && s.requests.Has(run, id) {
      var request := s.requests.rows[id].data;
      PutRequestReaches(s, run, id, request.(status := RequestStatus.Processing, attempts := request.attempts + 1));
    }
  }

  lemma MarkActivityCreatedReaches(s: State, run: nat, id: nat, activityId: int)
    requires Indexed(s)
    ensures Reaches(s, MarkActivityCreated(s, run, id, activityId).state, run)
  {
    hide Indexed, Advances;
    Nothing(s, run);
    if run in s.runs && s.requests.Has(run, id) {
      var request := s.requests.rows[id].data.(status := ActivityCreated, activityId := Some(activityId));
      PutRequestReaches(s, run, id, request);
      ThenEmit(s, s.(requests := s.requests.Put(id, request)), run, ActivityRecorded(id, activityId));
    }
  }

  lemma MarkCompletedReaches(s: State, run: nat, id: nat)
    requires Indexed(s)
    ensures Reaches(s, MarkCompleted(s, run, id).state, run)
  {
    hide Indexed, Advances;
    Nothing(s, run);
    if run in s.runs && s.requests.Has(run, id) {
      var request := s.requests.rows[id].data.(status := RequestStatus.Completed, ticketDone := true);
      var s0 := s.(requests := s.requests.Put(id, request));
      PutRequestReaches(s, run, id, request);
      var r := s.runs[run].(status := Submitted);
      ThenPutRun(s, s0, run, r);
      ThenEmit(s, PutRun(s0, run, r), run, ActivitySubmitted(id));
      ThenEmit(s, Emit(PutRun(s0, run, r), run, ActivitySubmitted(id)), run, TicketUpdated(id));
    }
  }

  lemma FailRequestReaches(s: State, run: nat, id: nat, terminal: bool)
    requires Indexed(s)
    ensures Reaches(s, FailRequest(s, run, id, terminal).state, run)
  {
    hide Indexed, Advances;
    Nothing(s, run);
    if run in s.runs && s.requests.Has(run, id) {
      var request := s.requests.rows[id].data;
      var status := FailedStatus(request.status, terminal);
      PutRequestReaches(s, run, id, request.(status := status));
      ThenEmit(s, s.(requests := s.requests.Put(id, request.(status := status))), run, IntegrationFailed(id, status));
    }
  }

  // ---- the outbox --------------------------------------------------------------------------------

  lemma PutOutboxReaches(s: State, id: nat, e: OutboxEvent)
    requires Indexed(s) && id in s.queue.events && e.run == s.queue.events[id].run && e.job == s.queue.events[id].job
    ensures Reaches(s, PutOutboxEvent(s, id, e), e.run) && e.run in s.runs
  {
    hide Table.Indexed, TimelineIndexed, Advances;
    QueueReaches(s, e.run, PutOutboxEvent(s, id, e).queue);
  }

  lemma CompleteOutboxReaches(s: State, id: nat)
    requires Indexed(s) && id in s.queue.events
    ensures Reaches(s, CompleteOutbox(s, id), s.queue.events[id].run)
  {
    hide Indexed, Advances;
    PutOutboxReaches(s, id, s.queue.events[id].(status := OutboxStatus.Completed));
  }

  lemma FailOutboxReaches(s: State, id: nat)
    requires Indexed(s) && id in s.queue.events
    ensures Reaches(s, FailOutbox(s, id).state, s.queue.events[id].run)
  {
    hide Indexed, Advances, FailRequest;
    var e := s.queue.events[id];
    var s1 := PutOutboxEvent(s, id, Outbox.FailedDelivery(e, s.clock));
    PutOutboxReaches(s, id, Outbox.FailedDelivery(e, s.clock));
    if e.job.Submit? {
      FailRequestReaches(s1, e.run, e.job.requestId, Outbox.LastAttempt(e));
      ReachesThen(s, s1, FailRequest(s1, e.run, e.job.requestId, Outbox.LastAttempt(e)).state, e.run);
    }
  }

  /** Recovery changes exactly the stale events below the bound, and reports each on its own run's timeline. */
  lemma {:induction false} RecoverBelowKeeps(s: State, bound: nat)
    requires Indexed(s)
    ensures var t := RecoverBelow(s, bound);
            Indexed(t) && Later(s, t) && t.queue.next == s.queue.next && t.queue.events.Keys == s.queue.events.Keys
    ensures forall id :: id in s.queue.events ==>
      RecoverBelow(s, bound).queue.events[id] ==
      (if id < bound && Outbox.Stale(s.queue.events[id], s.clock) then Outbox.Recovered(s.queue.events[id], s.clock)
        else s.queue.events[id])
    decreases bound
  {
    hide Indexed, Later, Advances, Outbox.Stale;
    if bound == 0 {
      LaterStill(s);
    } else {
      var id := bound - 1;
      var s1 := RecoverBelow(s, id);
      RecoverBelowKeeps(s, id);
      if id in s.queue.events && Outbox.Stale(s.queue.events[id], s.clock) {
        var e := Outbox.Recovered(s.queue.events[id], s.clock);
        var s2 := PutOutboxEvent(s1, id, e);
        PutOutboxReaches(s1, id, e);
        ThenEmit(s1, s2, e.run, OutboxRecovered(id));
        AdvancesLater(s1, Emit(s2, e.run, OutboxRecovered(id)), e.run);
        LaterThen(s, s1, Emit(s2, e.run, OutboxRecovered(id)));
      }
    }
  }

  lemma ClaimNextKeeps(s: State)
    requires Indexed(s)
    ensures Indexed(ClaimNext(s).state) && Later(s, ClaimNext(s).state)
  {
    hide Indexed, Later, Advances, Outbox.FirstClaimable;
    var s1 := RecoverStale(s);
    RecoverBelowKeeps(s, s.queue.next);
    var found := Outbox.FirstClaimable(s1.queue, s1.clock, 0);
    if found.Some? {
      var e := s1.queue.events[found.value];
      var claimed := e.(status := OutboxStatus.Processing, attempts := e.attempts + 1, claimedAt := Some(s1.clock));
      PutOutboxReaches(s1, found.value, claimed);
      AdvancesLater(s1, ClaimNext(s).state, e.run);
      LaterThen(s, s1, ClaimNext(s).state);
    }
  }
}
