/** Where the backups on record come from: every one that counts as made was read off a command of its own run. */
module Provenance {
  import opened Wrappers
  import opened Tables
  import opened Model
  import opened Store
  import opened Indexing
  import opened History
  import opened Delivery
  import opened Runs
  import opened Launching
  import opened Pending
  import opened Backup
  import opened Safety
  import Outbox

  /** The record was detected in the output of a command started in the run. */
  ghost predicate MadeBy(p: Policy, record: BackupRecord, run: nat, executions: Table<Execution>) {
    && record.executionId.Some? && executions.Has(run, record.executionId.value) && record.path.Some?
      && record.restoreCommand.Some?
    && exists output: string :: p.detectBackup(executions.rows[record.executionId.value].data.command, output)
         == Some(DetectedBackup(record.path.value, record.kind, record.restoreCommand.value))
  }

  ghost predicate Sourced(p: Policy, backups: Table<BackupRecord>, executions: Table<Execution>) {
    forall b :: b in backups.rows && backups.rows[b].data.created ==>
      MadeBy(p, backups.rows[b].data, backups.rows[b].run, executions)
  }

  /** What was not on record before does not count as made. */
  ghost predicate OnlyPlanned(a: Table<BackupRecord>, b: Table<BackupRecord>) {
    forall i :: i in b.rows && i !in a.rows ==> !b.rows[i].data.created
  }

  // ---- what only plans -----------------------------------------------------------------------------

  lemma SamePlans(a: Table<BackupRecord>)
    ensures OnlyPlanned(a, a)
  {
  }

  lemma CreateStepPlans(p: Policy, s: State, run: nat, origin: Origin, command: string, purpose: string, phase: Phase)
    ensures OnlyPlanned(s.backups, CreateStep(p, s, run, origin, command, purpose, phase).state.backups)
  {
    hide AnnounceStep, NewStep, Closed, AfterProposal;
    SamePlans(s.backups);
    if run in s.runs {
      var step := NewStep(p, origin, command, purpose, phase);
    }
  }

  lemma RestorePlans(p: Policy, s: State, run: nat, record: nat, reason: string)
    ensures OnlyPlanned(s.backups, ProposeRestore(p, s, run, record, reason).state.backups)
  {
    hide OnlyPlanned, CreateStep;
    SamePlans(s.backups);
    if s.backups.Has(run, record) && s.backups.rows[record].data.restoreCommand.Some? {
      CreateStepPlans(p, s, run, FromBackup, s.backups.rows[record].data.restoreCommand.value, reason, Restore);
    }
  }

  lemma CallPlans(p: Policy, s: State, call: Call)
    ensures OnlyPlanned(s.backups, Apply(p, s, call).backups)
  {
    hide CreateStep, ProposeRestore, ApproveConnection, RetryRun, AbortRun, ApproveStep, EditAndApproveStep, RejectStep,
      CreateActivityDraft, SaveActivityDraft, QueueSubmission, Outbox.CancelPending;
    SamePlans(s.backups);
    match call
    case NewRun(ticketId, snapshot) =>
    case EnterStep(run, command, purpose, phase) =>
      CreateStepPlans(p, s.(queue := Outbox.CancelPending(s.queue, run, Outbox.PlanJob)), run, Manual, command,
        purpose, phase);
    case ProposeRestoreOf(run, record, reason) => RestorePlans(p, s, run, record, reason);
    case NoBackupNeeded(run, path) =>
    case _ =>
  }

  lemma OtherWorkPlans(p: Policy, y: System, a: Action)
    requires Enabled(y.stage, a) && !a.Finish?
    ensures OnlyPlanned(y.store.backups, Work(p, y, a).store.backups)
  {
    hide OnlyPlanned, CreateStep, ClaimNext, ReadPlannerContext, CheckNotAborted, AppendEvent, StartExecution,
      AppendChunk, MarkProcessing, MarkActivityCreated, MarkCompleted, FailRequest, FailOutbox, CompleteOutbox,
      CreateActivityDraft, Recoveries, StaleIds;
    SamePlans(y.store.backups);
    if a.Propose? { CreateStepPlans(p, y.store, y.stage.run, Agent, a.command, a.purpose, a.phase); }
  }

  // ---- completing a command ------------------------------------------------------------------------

  /** At most one backup is made, and by the command. */
  ghost predicate OneMade(p: Policy, a: Table<BackupRecord>, b: Table<BackupRecord>, run: nat, id: nat,
      command: string) {
    forall i :: i in b.rows && i !in a.rows ==>
      b.rows[i].run == run && b.rows[i].data.executionId == Some(id) && b.rows[i].data.path.Some?
        && b.rows[i].data.restoreCommand.Some?
      && exists output: string :: p.detectBackup(command, output)
           == Some(DetectedBackup(b.rows[i].data.path.value, b.rows[i].data.kind, b.rows[i].data.restoreCommand.value))
  }

  lemma LedgersMake(p: Policy, s: State, run: nat, id: nat, done: Execution, step: Step)
    ensures OneMade(p, s.backups, RecordLedgers(p, s, run, id, done, step).backups, run, id, done.command)
  {
    hide RecordSources, AnyRedacted, Table.OfRun;
  }

  lemma SettleMakes(p: Policy, s: State, run: nat, id: nat, step: Step, done: Execution)
    requires run in s.runs
    ensures OneMade(p, s.backups, Settle(p, s, run, id, step, done).backups, run, id, done.command)
  {
    hide Conclude, RecordLedgers, NoteRestore;
    var s1 := if s.runs[run].status != Aborted then Conclude(p, s, run, id, step, done) else s;
    LedgersMake(p, Emit(s1, run, FinishedBody(id, done)), run, id, done, step);
  }

  lemma CompleteMakes(p: Policy, s: State, run: nat, id: nat, exitCode: Option<int>, error: Option<string>,
      timedOut: bool)
    ensures var t := CompleteExecution(p, s, run, id, exitCode, error, timedOut).state;
            t == s || (s.executions.Has(run, id)
              && OneMade(p, s.backups, t.backups, run, id, s.executions.rows[id].data.command))
  {
    hide Settle, FinalStatus;
    if run in s.runs && s.executions.Has(run, id) {
      var done := WithOutcome(s.executions.rows[id].data, exitCode, error, timedOut);
      if s.steps.Has(run, done.stepId) {
        var step := s.steps.rows[done.stepId].data;
        var s1 := s.(executions := s.executions.Put(id, done));
        SettleMakes(p, s1.(steps := s1.steps.Put(done.stepId, step.(status := OutcomeOf(done.status)))), run, id, step,
          done);
      }
    }
  }

  lemma MadeSourced(p: Policy, s: State, t: State, run: nat, id: nat)
    requires Sourced(p, s.backups, s.executions) && Later(s, t) && s.executions.Has(run, id)
    requires OneMade(p, s.backups, t.backups, run, id, s.executions.rows[id].data.command)
    ensures Sourced(p, t.backups, t.executions)
  {
    forall b | b in t.backups.rows && t.backups.rows[b].data.created
      ensures MadeBy(p, t.backups.rows[b].data, t.backups.rows[b].run, t.executions)
    {
    }
  }

  // ---- over whole histories --------------------------------------------------------------------------

  lemma NextSourced(p: Policy, y: System, a: Action)
    requires Indexed(y.store) && Sourced(p, y.store.backups, y.store.executions)
    ensures Sourced(p, Next(p, y, a).store.backups, Next(p, y, a).store.executions)
  {
    hide Indexed, OneMade, Apply, Work, Enabled, CompleteExecution, ProposeAgentStep, CreateActivityDraft,
      MarkCompleted;
    NextForward(p, y, a);
    match a
    case Api(call) =>
      CallPlans(p, y.store, call);
    case Finish(exitCode, error, timedOut) =>
      if Enabled(y.stage, a) {
        WorkIs(p, y, a);
        CompleteMakes(p, y.store, y.stage.run, y.stage.execution, exitCode, error, timedOut);
        var t := Next(p, y, a).store;
        if t != y.store { MadeSourced(p, y.store, t, y.stage.run, y.stage.execution); }
      }
    case _ =>
      SamePlans(y.store.backups);
      if Enabled(y.stage, a) && !a.Wait? && !a.Crash? { OtherWorkPlans(p, y, a); }
  }

  lemma BeginsSourced(p: Policy, limit: nat, clock: int)
    ensures Sourced(p, Begin(limit, clock).store.backups, Begin(limit, clock).store.executions)
  {
  }

  lemma {:induction false} AlwaysSourced(p: Policy, limit: nat, clock: int, actions: seq<Action>)
    ensures var s := After(p, Begin(limit, clock), actions).store; Sourced(p, s.backups, s.executions)
    decreases |actions|
  {
    hide *;
    AfterUnfolds(p, Begin(limit, clock), actions);
    if actions == [] {
      BeginsSourced(p, limit, clock);
    } else {
      AlwaysSourced(p, limit, clock, actions[..|actions| - 1]);
      AlwaysIndexed(p, limit, clock, actions[..|actions| - 1]);
      NextSourced(p, After(p, Begin(limit, clock), actions[..|actions| - 1]), actions[|actions| - 1]);
    }
  }

  // ---- the gate --------------------------------------------------------------------------------------

  /**
   * A technician's declaration that no backup applies to the target, or a backup of it that a command of the run made.
   */
  ghost predicate Answers(p: Policy, s: State, run: nat, b: nat, path: string) {
    && s.backups.Has(run, b) && s.backups.rows[b].data.path == Some(path)
    && (s.backups.rows[b].data.kind == NotApplicable || MadeBy(p, s.backups.rows[b].data, run, s.executions))
  }

  lemma SatisfiedAnswers(p: Policy, s: State, run: nat, b: nat, path: string)
    requires s.backups.Has(run, b) && Satisfies(s.backups.rows[b].data, Some(path))
      && Sourced(p, s.backups, s.executions)
    ensures Answers(p, s, run, b, path)
  {
    hide MadeBy;
  }

  /**
   * With requirements decided as the program decides them: in every reachable state, each approved, executed or failed
   * step whose command changes a file or a service has a record in its run that names exactly that file or service, and
   * that is either a declaration that no backup applies or was detected in the output of a command of that run.
   */
  lemma ChangesAreAnswered(p: Policy, q: Patterns, split: string -> seq<string>, limit: nat, clock: int,
      actions: seq<Action>, run: nat, id: nat)
    requires forall command: string, risk: Risk ::
      p.requirement(command, risk) == RequirementFor(q, split(command), risk)
    requires var s := After(p, Begin(limit, clock), actions).store;
             && s.steps.Has(run, id) && Granted(s.steps.rows[id].data)
             && RequirementFor(q, split(s.steps.rows[id].data.command), s.steps.rows[id].data.risk).required
    ensures var s := After(p, Begin(limit, clock), actions).store;
            var need := RequirementFor(q, split(s.steps.rows[id].data.command), s.steps.rows[id].data.risk);
            need.path.Some? && exists b :: Answers(p, s, run, b, need.path.value)
  {
    hide After, Sourced, Answers, MadeBy, Satisfies;
    var s := After(p, Begin(limit, clock), actions).store;
    var step := s.steps.rows[id].data;
    assert p.requirement(step.command, step.risk) == RequirementFor(q, split(step.command), step.risk);
    ApprovalsStayCovered(p, limit, clock, actions, run, id);
    AlwaysSourced(p, limit, clock, actions);
    var need := p.requirement(step.command, step.risk);
    var b :| s.backups.Has(run, b) && Satisfies(s.backups.rows[b].data, need.path);
    SatisfiedAnswers(p, s, run, b, need.path.value);
  }

  /**
   * With backups detected, and commands classified, as the program does both: in every reachable state, whatever step
   * is proposed to restore what a look at a file's metadata recorded is blocked.
   */
  lemma MetadataIsNeverRestored(p: Policy, q: Patterns, r: Rules, split: string -> seq<string>, limit: nat, clock: int,
      actions: seq<Action>, run: nat, b: nat, reason: string)
    requires forall command: string :: p.classify(command) == Classify(r, command)
    requires forall command: string, output: string ::
      p.detectBackup(command, output) == match Detect(q, split(command), output)
                                         case None => None
                                         case Some(d) => Some(OnFile(q, d, output))
    requires var s := After(p, Begin(limit, clock), actions).store;
             && s.backups.Has(run, b) && s.backups.rows[b].data.created
             && s.backups.rows[b].data.kind == MetadataSnapshot
    ensures ProposedBlocked(ProposeRestore(p, After(p, Begin(limit, clock), actions).store, run, b, reason))
  {
    hide After, Detect, Classify, MetadataRestore, ProposeRestore, ProposedBlocked;
    var s := After(p, Begin(limit, clock), actions).store;
    AlwaysSourced(p, limit, clock, actions);
    var record := s.backups.rows[b].data;
    assert MadeBy(p, record, run, s.executions);
    var command := s.executions.rows[record.executionId.value].data.command;
    var output: string :| p.detectBackup(command, output)
      == Some(DetectedBackup(record.path.value, record.kind, record.restoreCommand.value));
    var d := Detect(q, split(command), output).value;
    MetadataRestoresAreBlocked(p, r, s, run, b, reason, q.owner(output), q.group(output), q.mode(output), d.path);
  }
}
