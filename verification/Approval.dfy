/** What an approval guarantees about a step and its execution, in every reachable state. */
module Approval {
  import opened Wrappers
  import opened Tables
  import opened Model
  import opened Store
  import opened Indexing
  import opened History
  import opened Footprints
  import opened Delivery
  import opened Runs
  import Outbox
  import Utf8

  /**
   * The verdict stored with a step is the verdict on its present command, and the step carries an approved
   * command exactly when it was approved: its own command, which is not blocked.
   */
  predicate StepSound(p: Policy, step: Step) {
    && step.blocked == p.classify(step.command).blocked
    && step.risk == p.classify(step.command).risk
    && (if Granted(step) then step.approvedCommand == Some(step.command) && !step.blocked
      else step.approvedCommand.None?)
    && (step.status == StepStatus.Blocked ==> step.blocked)
  }

  ghost predicate Covered(backups: Table<BackupRecord>, run: nat, path: Option<string>) {
    exists b :: backups.Has(run, b) && Satisfies(backups.rows[b].data, path)
  }

  ghost predicate Evidenced(sources: Table<Source>, run: nat) {
    exists e :: sources.Has(run, e) && Evidence(sources.rows[e].data)
  }

  predicate NeedsEvidence(p: Policy, step: Step) {
    step.phase == Fix && step.risk != ReadOnly && !p.targetedBackup(step.command)
  }

  /** The backup and the evidence a step needs are on record in its own run. */
  ghost predicate GatesMet(p: Policy, run: nat, step: Step, backups: Table<BackupRecord>, sources: Table<Source>) {
    && (p.requirement(step.command, step.risk).required ==>
      Covered(backups, run, p.requirement(step.command, step.risk).path))
    && (NeedsEvidence(p, step) ==> Evidenced(sources, run))
  }

  ghost predicate StepVetted(p: Policy, row: Row<Step>, backups: Table<BackupRecord>, sources: Table<Source>) {
    StepSound(p, row.data) && (Granted(row.data) ==> GatesMet(p, row.run, row.data, backups, sources))
  }

  ghost predicate StepsVetted(p: Policy, steps: Table<Step>, backups: Table<BackupRecord>, sources: Table<Source>) {
    forall id :: id in steps.rows ==> StepVetted(p, steps.rows[id], backups, sources)
  }

  /**
   * An execution runs the approved command of an approved step of its own run; the step has its outcome once it ends.
   */
  predicate ExecutionSound(row: Row<Execution>, steps: Table<Step>) {
    && steps.Has(row.run, row.data.stepId)
    && var step := steps.rows[row.data.stepId].data;
       && Granted(step)
       && row.data.command == step.command
       && row.data.finished == (row.data.status != Running)
       && step.status == (if row.data.finished then OutcomeOf(row.data.status) else Approved)
  }

  ghost predicate ExecutionsSound(executions: Table<Execution>, steps: Table<Step>) {
    forall x :: x in executions.rows ==> ExecutionSound(executions.rows[x], steps)
  }

  ghost predicate OneEach(executions: Table<Execution>) {
    forall x, y ::
      x in executions.rows && y in executions.rows
      && executions.rows[x].data.stepId == executions.rows[y].data.stepId
      ==> x == y
  }

  ghost predicate Vetted(p: Policy, s: State) {
    StepsVetted(p, s.steps, s.backups, s.sources) && ExecutionsSound(s.executions, s.steps) && OneEach(s.executions)
  }

  // ---- moving on ---------------------------------------------------------------------------------

  /** What calls may do to the steps: change or approve those not yet approved, and add new ones. */
  ghost predicate StepsMove(p: Policy, a: Table<Step>, b: Table<Step>, backups: Table<BackupRecord>,
      sources: Table<Source>) {
    && (forall id :: id in a.rows ==>
          id in b.rows && b.rows[id].run == a.rows[id].run
          && (b.rows[id] == a.rows[id] || (!Granted(a.rows[id].data) && StepVetted(p, b.rows[id], backups, sources))))
    && (forall id :: id in b.rows && id !in a.rows ==> StepVetted(p, b.rows[id], backups, sources))
  }

  lemma StepsStay(p: Policy, a: Table<Step>, backups: Table<BackupRecord>, sources: Table<Source>)
    ensures StepsMove(p, a, a, backups, sources)
  {
  }

  lemma VettedAfter(p: Policy, s: State, t: State)
    requires Vetted(p, s) && Later(s, t) && StepsMove(p, s.steps, t.steps, t.backups, t.sources)
      && t.executions.rows == s.executions.rows
    ensures Vetted(p, t)
  {
  }

  // ---- calls -------------------------------------------------------------------------------------

  lemma AddStepMoves(p: Policy, a: Table<Step>, runs: set<nat>, run: nat, step: Step, backups: Table<BackupRecord>,
      sources: Table<Source>)
    requires a.Indexed(runs) && StepVetted(p, Row(run, step), backups, sources)
    ensures StepsMove(p, a, a.Add(run, step), backups, sources)
  {
  }

  lemma PutStepMoves(p: Policy, a: Table<Step>, id: nat, step: Step, backups: Table<BackupRecord>,
      sources: Table<Source>)
    requires id in a.rows && !Granted(a.rows[id].data) && StepVetted(p, Row(a.rows[id].run, step), backups, sources)
    ensures StepsMove(p, a, a.Put(id, step), backups, sources)
  {
  }

  lemma CreateStepVets(p: Policy, s: State, run: nat, origin: Origin, command: string, purpose: string, phase: Phase)
    requires Indexed(s)
    ensures var t := CreateStep(p, s, run, origin, command, purpose, phase).state;
            StepsMove(p, s.steps, t.steps, t.backups, t.sources)
  {
    var t := CreateStep(p, s, run, origin, command, purpose, phase).state;
    StepsStay(p, s.steps, t.backups, t.sources);
    hide StepsMove, AnnounceStep, PlanBackup, Table.Indexed, TimelineIndexed, QueueIndexed;
    var step := NewStep(p, origin, command, purpose, phase);
    AddStepMoves(p, s.steps, s.runs.Keys, run, step, t.backups, t.sources);
  }

  lemma {:induction false} EvidenceFound(sources: seq<Source>)
    requires EvidenceIn(sources) != []
    ensures exists i :: 0 <= i < |sources| && Evidence(sources[i])
  {
    if !Evidence(sources[0]) {
      EvidenceFound(sources[1..]);
      var i :| 0 <= i < |sources[1..]| && Evidence(sources[1..][i]);
      assert Evidence(sources[i + 1]);
    } else {
      assert Evidence(sources[0]);
    }
  }

  /** Gates that let a step pass have found what it needs. */
  lemma OpenGatesAreMet(p: Policy, s: State, run: nat, id: nat, step: Step)
    requires Indexed(s) && run in s.runs
    requires FixGate(p, s, run, id, step).error.None? && BackupGate(p, s, run, id, step).error.None?
    ensures GatesMet(p, run, step, s.backups, s.sources)
  {
    hide Table.Indexed, TimelineIndexed, QueueIndexed, EvidenceIn, Table.OfRun;
    if NeedsEvidence(p, step) { EvidenceKept(s, run); }
    var need := p.requirement(step.command, step.risk);
    if need.required { CoverKept(s, run, need.path); }
  }

  lemma EvidenceKept(s: State, run: nat)
    requires s.sources.Indexed(s.runs.Keys) && run in s.runs && EvidenceIn(s.sources.OfRun(run)) != []
    ensures Evidenced(s.sources, run)
  {
    assert run in s.sources.byRun;
    hide Table.Indexed, EvidenceIn, Table.OfRun;
    EvidenceFound(s.sources.OfRun(run));
    OwnedRecords(s.sources, s.runs.Keys, run);
    var i :| 0 <= i < |s.sources.OfRun(run)| && Evidence(s.sources.OfRun(run)[i]);
    assert s.sources.Has(run, s.sources.byRun[run][i]);
  }

  lemma CoverKept(s: State, run: nat, path: Option<string>)
    requires s.backups.Indexed(s.runs.Keys) && run in s.runs && AnySatisfies(s.backups.OfRun(run), path)
    ensures Covered(s.backups, run, path)
  {
    assert run in s.backups.byRun;
    hide Table.Indexed, Table.OfRun, Satisfies;
    OwnedRecords(s.backups, s.runs.Keys, run);
    var i :| 0 <= i < |s.backups.OfRun(run)| && Satisfies(s.backups.OfRun(run)[i], path);
    assert s.backups.Has(run, s.backups.byRun[run][i]);
  }

  function Agreed(step: Step): Step { step.(status := Approved, approvedCommand := Some(step.command)) }

  /** Either the steps are as before, or both gates were open and the step is now approved. */
  lemma ThroughGatesSteps(p: Policy, s: State, run: nat, id: nat, body: Body)
    requires run in s.runs && s.steps.Has(run, id)
    ensures var steps := ApproveThroughGates(p, s, run, id, body).state.steps;
            steps == s.steps
            || (steps == s.steps.Put(id, Agreed(s.steps.rows[id].data))
                && FixGate(p, s, run, id, s.steps.rows[id].data).error.None?
                  && BackupGate(p, s, run, id, s.steps.rows[id].data).error.None?)
  {
    hide FixGate;
    var step := s.steps.rows[id].data;
    var fix := FixGate(p, s, run, id, step);
    var s2 := Note(Note(s, run, fix), run, BackupGate(p, s, run, id, step));
  }

  lemma ThroughGatesVets(p: Policy, s: State, run: nat, id: nat, body: Body)
    requires Indexed(s) && run in s.runs && s.steps.Has(run, id)
    requires var step := s.steps.rows[id].data; StepSound(p, step) && !step.blocked && !Granted(step)
    ensures var t := ApproveThroughGates(p, s, run, id, body).state;
            StepsMove(p, s.steps, t.steps, s.backups, s.sources)
  {
    var step := s.steps.rows[id].data;
    StepsStay(p, s.steps, s.backups, s.sources);
    hide StepsMove, FixGate, BackupGate, ApproveThroughGates, Indexed;
    ThroughGatesSteps(p, s, run, id, body);
    if FixGate(p, s, run, id, step).error.None? && BackupGate(p, s, run, id, step).error.None? {
      OpenGatesAreMet(p, s, run, id, step);
      PutStepMoves(p, s.steps, id, Agreed(step), s.backups, s.sources);
    }
  }

  lemma ApproveVets(p: Policy, s: State, run: nat, id: nat)
    requires Indexed(s) && Vetted(p, s)
    ensures var t := ApproveStep(p, s, run, id).state; StepsMove(p, s.steps, t.steps, t.backups, t.sources)
  {
    StepsStay(p, s.steps, s.backups, s.sources);
    hide StepsMove, Indexed, ApproveThroughGates;
    if run in s.runs && s.steps.Has(run, id) {
      var step := s.steps.rows[id].data;
      if step.status == Proposed && !step.blocked { ThroughGatesVets(p, s, run, id, StepApproved(id, step.command)); }
    }
  }

  lemma StepsMoveThen(p: Policy, a: Table<Step>, b: Table<Step>, c: Table<Step>, backups: Table<BackupRecord>,
      sources: Table<Source>)
    requires StepsMove(p, a, b, backups, sources) && StepsMove(p, b, c, backups, sources)
    ensures StepsMove(p, a, c, backups, sources)
  {
    hide StepVetted;
  }

  lemma EditVets(p: Policy, s: State, run: nat, id: nat, command: string, purpose: Option<string>)
    requires Indexed(s) && Vetted(p, s)
    ensures var t := EditAndApproveStep(p, s, run, id, command, purpose).state;
            StepsMove(p, s.steps, t.steps, t.backups, t.sources)
  {
    StepsStay(p, s.steps, s.backups, s.sources);
    hide StepsMove, Indexed, ApproveThroughGates, Advances, GatesMet;
    if run in s.runs && s.steps.Has(run, id) && s.steps.rows[id].data.status == Proposed {
      var step := s.steps.rows[id].data;
      var edited := EditedStep(p, step, command, purpose);
      PutStepMoves(p, s.steps, id, edited, s.backups, s.sources);
      var s1 := Reclassify(s, run, id, edited);
      ReclassifyReaches(s, run, id, edited);
      if !edited.blocked {
        ThroughGatesVets(p, s1, run, id, StepEditedAndApproved(id, command));
        StepsMoveThen(p, s.steps, s1.steps,
          ApproveThroughGates(p, s1, run, id, StepEditedAndApproved(id, command)).state.steps, s.backups, s.sources);
      }
    }
  }

  lemma RejectVets(p: Policy, s: State, run: nat, id: nat)
    requires Vetted(p, s)
    ensures StepsMove(p, s.steps, RejectStep(s, run, id).state.steps, s.backups, s.sources)
  {
    StepsStay(p, s.steps, s.backups, s.sources);
    hide StepsMove;
    if run in s.runs && s.steps.Has(run, id) && s.steps.rows[id].data.status == Proposed {
      PutStepMoves(p, s.steps, id, s.steps.rows[id].data.(status := Rejected), s.backups, s.sources);
    }
  }

  lemma RestoreVets(p: Policy, s: State, run: nat, record: nat, reason: string)
    requires Indexed(s)
    ensures var t := ProposeRestore(p, s, run, record, reason).state;
            StepsMove(p, s.steps, t.steps, t.backups, t.sources)
  {
    StepsStay(p, s.steps, s.backups, s.sources);
    hide StepsMove, CreateStep, Indexed;
    if s.backups.Has(run, record) && s.backups.rows[record].data.restoreCommand.Some? {
      CreateStepVets(p, s, run, FromBackup, s.backups.rows[record].data.restoreCommand.value, reason, Restore);
    }
  }

  lemma ManualVets(p: Policy, s: State, run: nat, command: string, purpose: string, phase: Phase)
    requires Indexed(s)
    ensures var t := CreateManualStep(p, s, run, command, purpose, phase).state;
            StepsMove(p, s.steps, t.steps, t.backups, t.sources)
  {
    hide StepsMove, CreateStep, Indexed, Advances, QueueLater;
    if run in s.runs {
      CancelLater(s.queue, run, Outbox.PlanJob);
      QueueReaches(s, run, Outbox.CancelPending(s.queue, run, Outbox.PlanJob));
    } else {
      NothingToCancel(s, run, Outbox.PlanJob);
    }
    CreateStepVets(p, s.(queue := Outbox.CancelPending(s.queue, run, Outbox.PlanJob)), run, Manual, command, purpose,
      phase);
  }

  lemma CallVets(p: Policy, s: State, call: Call)
    requires Indexed(s) && Vetted(p, s)
    ensures var t := Apply(p, s, call);
            StepsMove(p, s.steps, t.steps, t.backups, t.sources) && t.executions.rows == s.executions.rows
  {
    StepsStay(p, s.steps, s.backups, s.sources);
    StepsStay(p, s.steps, Apply(p, s, call).backups, s.sources);
    hide Indexed, Vetted, ApproveStep, EditAndApproveStep, RejectStep, ProposeRestore, CreateStep;
    match call
    case NewRun(ticketId, snapshot) =>
    case EnterStep(run, command, purpose, phase) => ManualVets(p, s, run, command, purpose, phase);
    case Approve(run, step) => ApproveVets(p, s, run, step);
    case EditAndApprove(run, step, command, purpose) => EditVets(p, s, run, step, command, purpose);
    case Reject(run, step) => RejectVets(p, s, run, step);
    case ProposeRestoreOf(run, record, reason) => RestoreVets(p, s, run, record, reason);
    case _ =>
  }

  lemma CallVetted(p: Policy, s: State, call: Call)
    requires Indexed(s) && Vetted(p, s)
    ensures Vetted(p, Apply(p, s, call))
  {
    hide *;
    EveryCallStaysInItsRun(p, s, call);
    AdvancesLater(s, Apply(p, s, call), Scope(s, call));
    CallVets(p, s, call);
    VettedAfter(p, s, Apply(p, s, call));
  }

  // ---- the worker --------------------------------------------------------------------------------

  lemma StartVetted(p: Policy, s: State, run: nat, stepId: nat)
    requires Indexed(s) && Vetted(p, s)
    ensures Vetted(p, StartExecution(s, run, stepId).state)
  {
    hide Indexed, StartExecution, GatesMet;
    FreshIds(s);
    StartedIs(s, run, stepId);
    var x, t := s.executions.next, StartExecution(s, run, stepId);
    if t.result.Success? {
      forall y | y in t.state.executions.rows ensures ExecutionSound(t.state.executions.rows[y], s.steps) {
        assert y != x ==> ExecutionSound(s.executions.rows[y], s.steps);
      }
    }
  }

  /** What storing output may do to executions. */
  ghost predicate OutputOnly(a: Table<Execution>, b: Table<Execution>) {
    && a.rows.Keys == b.rows.Keys && a.next == b.next && a.byRun == b.byRun
    && forall x :: x in a.rows ==>
         b.rows[x] == Row(a.rows[x].run,
           a.rows[x].data.(stdout := b.rows[x].data.stdout, stderr := b.rows[x].data.stderr,
             truncated := b.rows[x].data.truncated))
  }

  lemma TruncatedOutputOnly(s: State, run: nat, id: nat)
    requires id in s.executions.rows
    ensures OutputOnly(s.executions, MarkTruncated(s, run, id).executions)
  {
    var current := s.executions.rows[id].data;
    if !current.truncated {
      assert MarkTruncated(s, run, id).executions == s.executions.Put(id, current.(truncated := true));
    }
  }

  lemma StoredOutputOnly(s: State, run: nat, id: nat, stream: Stream, kept: string, redacted: bool)
    requires id in s.executions.rows
    ensures OutputOnly(s.executions, StoreChunk(s, run, id, stream, kept, redacted).executions)
  {
    hide ChunksFor, Table.OfRun, Utf8.Size;
  }

  lemma OutputOnlyThen(a: Table<Execution>, b: Table<Execution>, c: Table<Execution>)
    requires OutputOnly(a, b) && OutputOnly(b, c)
    ensures OutputOnly(a, c)
  {
  }

  lemma OutputOnlyStill(a: Table<Execution>)
    ensures OutputOnly(a, a)
  {
  }

  lemma AppendOutputOnly(p: Policy, s: State, run: nat, id: nat, stream: Stream, content: string, redacted: bool)
    ensures OutputOnly(s.executions, AppendChunk(p, s, run, id, stream, content, redacted).state.executions)
  {
    OutputOnlyStill(s.executions);
    hide OutputOnly, MarkTruncated, StoreChunk, Utf8.Size;
    if s.executions.Has(run, id) {
      TruncatedOutputOnly(s, run, id);
      var execution := s.executions.rows[id].data;
      if Stored(s, id) < execution.limit {
        var (clean, changed) := p.redact(content);
        var kept := Utf8.Fitting(clean, execution.limit - Stored(s, id));
        var s1 := StoreChunk(s, run, id, stream, kept, redacted || changed);
        StoredOutputOnly(s, run, id, stream, kept, redacted || changed);
        TruncatedOutputOnly(s1, run, id);
        OutputOnlyThen(s.executions, s1.executions, MarkTruncated(s1, run, id).executions);
      }
    }
  }

  lemma ReceiveVetted(p: Policy, y: System, run: nat, execution: nat, stream: Stream, content: string)
    requires Vetted(p, y.store)
    ensures Vetted(p, ReceiveOutput(p, y, run, execution, stream, content).store)
  {
    hide AppendChunk;
    AppendOutputOnly(p, y.store, run, execution, stream, p.redact(content).0, p.redact(content).1);
  }

  /** The execution and its step receive matching outcomes. */
  lemma OutcomeKeepsExecutions(s: State, x: nat, exitCode: Option<int>, error: Option<string>, timedOut: bool)
    requires x in s.executions.rows && ExecutionsSound(s.executions, s.steps) && OneEach(s.executions)
    ensures var done := WithOutcome(s.executions.rows[x].data, exitCode, error, timedOut);
            done.stepId in s.steps.rows
            && var executions := s.executions.Put(x, done);
               var steps := s.steps.Put(done.stepId, s.steps.rows[done.stepId].data.(status := OutcomeOf(done.status)));
               ExecutionsSound(executions, steps)
  {
    assert ExecutionSound(s.executions.rows[x], s.steps);
    var done := WithOutcome(s.executions.rows[x].data, exitCode, error, timedOut);
    var executions := s.executions.Put(x, done);
    var steps := s.steps.Put(done.stepId, s.steps.rows[done.stepId].data.(status := OutcomeOf(done.status)));
    forall y | y in executions.rows ensures ExecutionSound(executions.rows[y], steps) {
      assert ExecutionSound(s.executions.rows[y], s.steps);
    }
  }

  lemma OutcomeVetted(p: Policy, s: State, x: nat, exitCode: Option<int>, error: Option<string>, timedOut: bool,
      t: State)
    requires Vetted(p, s) && x in s.executions.rows
    requires var done := WithOutcome(s.executions.rows[x].data, exitCode, error, timedOut);
             done.stepId in s.steps.rows
             && t.executions == s.executions.Put(x, done)
             && t.steps == s.steps.Put(done.stepId, s.steps.rows[done.stepId].data.(status := OutcomeOf(done.status)))
    requires Owned(s.backups, t.backups) && Preserved(s.backups, t.backups) && Owned(s.sources, t.sources)
      && Preserved(s.sources, t.sources)
    ensures Vetted(p, t)
  {
    var done := WithOutcome(s.executions.rows[x].data, exitCode, error, timedOut);
    var id := done.stepId;
    assert ExecutionSound(s.executions.rows[x], s.steps);
    OutcomeKeepsExecutions(s, x, exitCode, error, timedOut);
    forall i | i in t.steps.rows ensures StepVetted(p, t.steps.rows[i], t.backups, t.sources) {
      hide WithOutcome;
      assert StepVetted(p, s.steps.rows[i], s.backups, s.sources);
    }
  }

  lemma FinishVetted(p: Policy, s: State, run: nat, id: nat, exitCode: Option<int>, error: Option<string>,
      timedOut: bool)
    requires Indexed(s) && Vetted(p, s)
    ensures Vetted(p, CompleteExecution(p, s, run, id, exitCode, error, timedOut).state)
  {
    hide Indexed, Settle, Advances;
    var t := CompleteExecution(p, s, run, id, exitCode, error, timedOut).state;
    if run in s.runs && s.executions.Has(run, id) {
      CompleteExecutionReaches(p, s, run, id, exitCode, error, timedOut);
      AdvancesLater(s, t, run);
      OutcomeVetted(p, s, id, exitCode, error, timedOut, t);
    }
  }

  lemma ProposeVets(p: Policy, s: State, run: nat, command: string, purpose: string, phase: Phase)
    requires Indexed(s) && Vetted(p, s)
    ensures Vetted(p, ProposeAgentStep(p, s, run, command, purpose, phase).state)
  {
    hide Indexed, Vetted, CreateStep, Later, Advances, StepsMove;
    CreateStepVets(p, s, run, Agent, command, purpose, phase);
    ProposeAgentStepReaches(p, s, run, command, purpose, phase);
    AdvancesLater(s, CreateStep(p, s, run, Agent, command, purpose, phase).state, run);
    VettedAfter(p, s, CreateStep(p, s, run, Agent, command, purpose, phase).state);
  }

  lemma WorkVetted(p: Policy, y: System, a: Action)
    requires Indexed(y.store) && Vetted(p, y.store) && Enabled(y.stage, a)
    ensures Vetted(p, Work(p, y, a).store)
  {
    hide Indexed;
    if a.Propose? || a.Start? || a.Receive? || a.Finish? {
      CommandWorkVetted(p, y, a);
    }
  }

  lemma CommandWorkVetted(p: Policy, y: System, a: Action)
    requires Indexed(y.store) && Vetted(p, y.store) && Enabled(y.stage, a)
      && (a.Propose? || a.Start? || a.Receive? || a.Finish?)
    ensures Vetted(p, Work(p, y, a).store)
  {
    hide Indexed, Vetted, StartExecution, ProposeAgentStep, ReceiveOutput, CompleteExecution;
    var at := y.stage;
    match a
    case Propose(command, purpose, phase) => ProposeVets(p, y.store, at.run, command, purpose, phase);
    case Start => StartVetted(p, y.store, at.run, at.step);
    case Receive(stream, content) => ReceiveVetted(p, y, at.run, at.execution, stream, content);
    case Finish(exitCode, error, timedOut) => FinishVetted(p, y.store, at.run, at.execution, exitCode, error, timedOut);
  }

  lemma NextVetted(p: Policy, y: System, a: Action)
    requires Indexed(y.store) && Vetted(p, y.store)
    ensures Vetted(p, Next(p, y, a).store)
  {
    hide Indexed, Apply, Work, Enabled;
    match a
    case Api(call) => CallVetted(p, y.store, call);
    case Wait(_) =>
    case _ => if Enabled(y.stage, a) { WorkVetted(p, y, a); }
  }

  /** In every run of the system every step and every execution is vetted. */
  lemma {:induction false} AlwaysVetted(p: Policy, limit: nat, clock: int, actions: seq<Action>)
    ensures Vetted(p, After(p, Begin(limit, clock), actions).store)
    decreases |actions|
  {
    if actions != [] {
      hide Indexed, Vetted, Next;
      AlwaysVetted(p, limit, clock, actions[..|actions| - 1]);
      AlwaysIndexed(p, limit, clock, actions[..|actions| - 1]);
      NextVetted(p, After(p, Begin(limit, clock), actions[..|actions| - 1]), actions[|actions| - 1]);
    }
  }
}
