/** An aborted or submitted run stays so, and nothing new begins in it. */
module Ending {
  import opened Wrappers
  import opened Tables
  import opened Model
  import opened Store
  import opened Indexing
  import opened History
  import opened Footprints
  import opened Delivery
  import opened Runs
  import Approval
  import Outbox
  import Suite

  predicate Over(status: RunStatus) { status == Aborted || status == Submitted }

  /** A run that is over does not move; any other may, but not to its activity and not to its end by submission. */
  predicate Move(a: RunStatus, b: RunStatus) { b == a || (!Over(a) && b != ReadyForActivity && b != Submitted) }

  ghost predicate Moves(a: map<nat, Run>, b: map<nat, Run>) {
    && (forall r :: r in a ==> r in b && Move(a[r].status, b[r].status))
    && (forall r :: r in b && r !in a ==> b[r].status == AwaitingConnectionApproval)
  }

  /** Rows are only added to runs that are not over. */
  ghost predicate NoneLate<T>(a: Table<T>, b: Table<T>, runs: map<nat, Run>) {
    forall id :: id in b.rows && id !in a.rows ==> b.rows[id].run in runs && !Over(runs[b.rows[id].run].status)
  }

  lemma MovesStill(a: map<nat, Run>)
    ensures Moves(a, a)
  {
  }

  // ---- calls -------------------------------------------------------------------------------------

  lemma ThroughGatesMoves(p: Policy, s: State, run: nat, id: nat, body: Body)
    requires run in s.runs && id in s.steps.rows && s.runs[run].status == AwaitingStepApproval
    ensures var t := ApproveThroughGates(p, s, run, id, body).state;
            Moves(s.runs, t.runs) && NoneLate(s.steps, t.steps, s.runs)
  {
    hide FixGate, BackupGate, Note, Grant, Moves;
    var fix := FixGate(p, s, run, id, s.steps.rows[id].data);
    var s1 := Note(s, run, fix);
    var s2 := Note(s1, run, BackupGate(p, s1, run, id, s.steps.rows[id].data));
    MovesStill(s.runs);
    GrantMoves(s2, run, id, body);
  }

  lemma GrantMoves(s: State, run: nat, id: nat, body: Body)
    requires run in s.runs && id in s.steps.rows && s.runs[run].status == AwaitingStepApproval
    ensures Moves(s.runs, Grant(s, run, id, body).runs) && NoneLate(s.steps, Grant(s, run, id, body).steps, s.runs)
  {
  }

  lemma EditMoves(p: Policy, s: State, run: nat, id: nat, command: string, purpose: Option<string>)
    ensures var t := EditAndApproveStep(p, s, run, id, command, purpose).state;
            Moves(s.runs, t.runs) && NoneLate(s.steps, t.steps, s.runs)
  {
    hide ApproveThroughGates, EditedStep;
    if run in s.runs && s.steps.Has(run, id) && s.runs[run].status == AwaitingStepApproval {
      ThroughGatesMoves(p, Reclassify(s, run, id, EditedStep(p, s.steps.rows[id].data, command, purpose)), run, id,
        StepEditedAndApproved(id, command));
    }
  }

  lemma CreateStepMoves(p: Policy, s: State, run: nat, origin: Origin, command: string, purpose: string, phase: Phase)
    ensures var t := CreateStep(p, s, run, origin, command, purpose, phase).state;
            Moves(s.runs, t.runs) && NoneLate(s.steps, t.steps, s.runs)
  {
    hide NewStep, PlanBackup, AnnounceStep, Table.OfRun, Table.Ids;
    var t := CreateStep(p, s, run, origin, command, purpose, phase).state;
    if t != s {
      assert run in s.runs && t.steps == s.steps.Add(run, NewStep(p, origin, command, purpose, phase));
      assert t.runs == s.runs[run := t.runs[run]];
    }
  }

  lemma RestoreMoves(p: Policy, s: State, run: nat, record: nat, reason: string)
    ensures var t := ProposeRestore(p, s, run, record, reason).state;
            Moves(s.runs, t.runs) && NoneLate(s.steps, t.steps, s.runs)
  {
    hide CreateStep;
    if s.backups.Has(run, record) && s.backups.rows[record].data.restoreCommand.Some? {
      CreateStepMoves(p, s, run, FromBackup, s.backups.rows[record].data.restoreCommand.value, reason, Restore);
    }
  }

  lemma NewRunMoves(s: State, ticketId: int, snapshot: string)
    requires Indexed(s)
    ensures Moves(s.runs, CreateRun(s, ticketId, snapshot).state.runs)
    ensures NoneLate(s.steps, CreateRun(s, ticketId, snapshot).state.steps, s.runs)
    ensures CreateRun(s, ticketId, snapshot).state.executions.rows == s.executions.rows
  {
    hide Table.Indexed, TimelineIndexed, QueueIndexed;
  }

  lemma CallMoves(p: Policy, s: State, call: Call)
    requires Indexed(s)
    ensures Moves(s.runs, Apply(p, s, call).runs) && NoneLate(s.steps, Apply(p, s, call).steps, s.runs)
    ensures Apply(p, s, call).executions.rows == s.executions.rows
  {
    MovesStill(s.runs);
    hide Indexed, ApproveThroughGates, EditAndApproveStep, CreateStep, ProposeRestore, NotReady, Outbox.CancelPending,
      Outbox.Supersede, SavedDraft, OpenRequest, Incomplete, Moves, CreateRun;
    match call
    case NewRun(ticketId, snapshot) => NewRunMoves(s, ticketId, snapshot);
    case EnterStep(run, command, purpose, phase) =>
      CreateStepMoves(p, s.(queue := Outbox.CancelPending(s.queue, run, Outbox.PlanJob)), run, Manual, command,
        purpose, phase);
    case Approve(run, step) =>
      if run in s.runs && s.steps.Has(run, step) && s.runs[run].status == AwaitingStepApproval {
        ThroughGatesMoves(p, s, run, step, StepApproved(step, s.steps.rows[step].data.command));
      }
    case EditAndApprove(run, step, command, purpose) => EditMoves(p, s, run, step, command, purpose);
    case ProposeRestoreOf(run, record, reason) => RestoreMoves(p, s, run, record, reason);
    case Connect(run) => MoveOne(s, run, Investigating);
    case Reject(run, step) => RejectMoves(s, run, step);
    case Retry(run) => MoveOne(s, run, Investigating);
    case Abort(run) => MoveOne(s, run, Aborted);
    case WriteDraft(run, draft) => DraftMoves(p, s, run, draft, false);
    case SaveDraft(run, draft) => DraftMoves(p, s, run, draft, true);
    case _ =>
  }

  lemma MoveOne(s: State, run: nat, status: RunStatus)
    ensures run in s.runs && !Over(s.runs[run].status) && status != ReadyForActivity && status != Submitted ==>
            Moves(s.runs, s.runs[run := s.runs[run].(status := status)])
            && Moves(s.runs, s.runs[run := s.runs[run].(status := status, pending := None)])
  {
  }

  lemma RejectMoves(s: State, run: nat, id: nat)
    ensures Moves(s.runs, RejectStep(s, run, id).state.runs)
      && NoneLate(s.steps, RejectStep(s, run, id).state.steps, s.runs)
  {
  }

  lemma DraftMoves(p: Policy, s: State, run: nat, draft: Draft, edited: bool)
    ensures Moves(s.runs, SaveActivityDraft(p, s, run, draft, edited).state.runs)
  {
    hide NotReady, Incomplete;
  }

  // ---- the worker --------------------------------------------------------------------------------

  /** No run is submitted while one of its commands is under way. */
  ghost predicate Attended(y: System) {
    y.stage.Launched? || y.stage.InFlight? ==>
      y.stage.run in y.store.runs && y.store.runs[y.stage.run].status != Submitted
  }

  /** What completing a command does to a run. */
  lemma FinishMoves(p: Policy, s: State, run: nat, id: nat, exitCode: Option<int>, error: Option<string>,
      timedOut: bool)
    requires Indexed(s) && run in s.runs && s.runs[run].status != Submitted
    ensures var t := CompleteExecution(p, s, run, id, exitCode, error, timedOut).state;
            && (forall r :: r in s.runs ==>
              r in t.runs && (r != run || Over(s.runs[r].status) ==> t.runs[r] == s.runs[r]))
            && t.runs.Keys == s.runs.Keys && t.steps.rows.Keys == s.steps.rows.Keys
              && t.executions.rows.Keys == s.executions.rows.Keys
            && (Over(t.runs[run].status) ==> t.runs[run] == s.runs[run])
  {
    hide Indexed, Settle, WithOutcome, Advances;
    CompleteExecutionReaches(p, s, run, id, exitCode, error, timedOut);
    RunsElse(s, CompleteExecution(p, s, run, id, exitCode, error, timedOut).state, run);
    if s.executions.Has(run, id) {
      var done := WithOutcome(s.executions.rows[id].data, exitCode, error, timedOut);
      var s1 := s.(executions := s.executions.Put(id, done));
      assert s1.executions.rows.Keys == s.executions.rows.Keys;
      if s.steps.Has(run, done.stepId) {
        var step := s.steps.rows[done.stepId].data;
        var s2 := s1.(steps := s1.steps.Put(done.stepId, step.(status := OutcomeOf(done.status))));
        assert s2.steps.rows.Keys == s.steps.rows.Keys;
        SettleMoves(p, s2, run, id, step, done);
      }
    }
  }

  lemma RunsElse(s: State, t: State, run: nat)
    requires Advances(s, t, run) && run in s.runs
    ensures forall r :: r in s.runs && r != run ==> r in t.runs && t.runs[r] == s.runs[r]
    ensures t.runs.Keys == s.runs.Keys
  {
    hide TablesOwned, TablesElsewhere, TablesLater, TimelineLater, QueueLater;
  }

  lemma SettleMoves(p: Policy, s: State, run: nat, id: nat, step: Step, done: Execution)
    requires run in s.runs
    ensures var t := Settle(p, s, run, id, step, done);
            run in t.runs && (s.runs[run].status == Aborted ==> t.runs == s.runs)
            && (s.runs[run].status != Aborted ==> !Over(t.runs[run].status))
  {
    hide Conclude, RecordObservations, FinishedBody;
    ConcludeMoves(p, s, run, id, step, done);
  }

  lemma ConcludeMoves(p: Policy, s: State, run: nat, id: nat, step: Step, done: Execution)
    requires run in s.runs
    ensures var t := Conclude(p, s, run, id, step, done); run in t.runs && !Over(t.runs[run].status)
  {
    hide ConcludeValidation, ConcludeFix, Replan, FailedUnseen;
    ValidationMoves(p, s, run, id, done);
    FixMoves(p, s, run, id, step, done);
    ReplanMoves(s, run, Investigating, ObservationRecorded);
    ReplanMoves(s, run, Investigating, CommandFailure);
  }

  lemma ReplanMoves(s: State, run: nat, status: RunStatus, reason: PlanReason)
    requires run in s.runs
    ensures run in Replan(s, run, status, reason).runs && Replan(s, run, status, reason).runs[run].status == status
  {
  }

  lemma FixMoves(p: Policy, s: State, run: nat, id: nat, step: Step, done: Execution)
    requires run in s.runs
    ensures var t := ConcludeFix(p, s, run, id, step, done); run in t.runs && t.runs[run].status == Validating
  {
    hide AddExpectations, Suite.Specs, NewIds;
  }

  lemma ValidationMoves(p: Policy, s: State, run: nat, id: nat, done: Execution)
    requires run in s.runs
    ensures var t := ConcludeValidation(p, s, run, id, done);
            run in t.runs && (t.runs[run].status == ReadyForActivity || t.runs[run].status == Validating)
  {
    hide SuiteVerdict, ApplyResult, ResultOf, Replan;
    var result := ResultOf(p, id, done);
    var s2 := ApplyResult(p, RecordResult(s, run, result), run, s.results.next, result);
    var reason := if SuiteVerdict(s2, run, result) == Suite.SuiteStatus.Failed || !result.passed then ValidationFailed
      else SuiteIncomplete;
    ReplanMoves(s2, run, Validating, reason);
  }

  /** What the worker's other actions do to the runs; submitting one is the exception. */
  lemma WorkMoves(p: Policy, y: System, a: Action)
    requires Indexed(y.store) && Enabled(y.stage, a) && !a.Finish? && !a.CompleteSubmission?
    ensures Moves(y.store.runs, Work(p, y, a).store.runs)
      && NoneLate(y.store.steps, Work(p, y, a).store.steps, y.store.runs)
    ensures NoneLate(y.store.executions, Work(p, y, a).store.executions, y.store.runs)
  {
    MovesStill(y.store.runs);
    hide Indexed, CreateStep, ReadPlannerContext, CheckNotAborted, RecoverBelow, Recoveries, StaleIds,
      CreateActivityDraft, FailRequest, MarkActivityCreated, MarkProcessing, ReceiveOutput, StartCommand, FailOutbox,
      Moves;
    var at := y.stage;
    match a
    case Propose(command, purpose, phase) => CreateStepMoves(p, y.store, at.run, Agent, command, purpose, phase);
    case Draft(draft) => WrittenMoves(p, y.store, at.run, draft);
    case Start => CommandWorkMoves(p, y, a);
    case Receive(_, _) => CommandWorkMoves(p, y, a);
    case _ =>
  }

  lemma WrittenMoves(p: Policy, s: State, run: nat, draft: Draft)
    ensures Moves(s.runs, CreateActivityDraft(p, s, run, draft).state.runs)
  {
    hide NotReady, SaveActivityDraft, Moves;
    MovesStill(s.runs);
    DraftMoves(p, s, run, draft, false);
  }

  lemma CommandWorkMoves(p: Policy, y: System, a: Action)
    requires Enabled(y.stage, a) && (a.Start? || a.Receive?)
    ensures var t := Work(p, y, a).store;
            NoneLate(y.store.executions, t.executions, y.store.runs) && t.runs == y.store.runs
              && t.steps == y.store.steps
  {
    hide StartExecution, AppendChunk;
    var at := y.stage;
    if a.Start? {
      StartedIs(y.store, at.run, at.step);
    } else {
      Approval.AppendOutputOnly(p, y.store, at.run, at.execution, a.stream, p.redact(a.content).0,
        p.redact(a.content).1);
    }
  }

  lemma WorkAttended(p: Policy, y: System, a: Action)
    requires Indexed(y.store) && Attended(y) && Enabled(y.stage, a)
    ensures Attended(Work(p, y, a))
  {
    hide Indexed, CreateStep, RecoverBelow, Recoveries, StaleIds, NotReady, Incomplete, FailRequest, CompleteExecution,
      MarkActivityCreated, MarkProcessing, AppendChunk, Outbox.FirstClaimable, ReadPlannerContext, CheckNotAborted;
    if a.Finish? {
      assert !Work(p, y, a).stage.Launched? && !Work(p, y, a).stage.InFlight?;
    }
  }

  lemma NextAttended(p: Policy, y: System, a: Action)
    requires Indexed(y.store) && Attended(y)
    ensures Attended(Next(p, y, a))
  {
    hide Indexed, Apply, Work, Enabled;
    match a
    case Api(call) => CallMoves(p, y.store, call);
    case _ => if Enabled(y.stage, a) { WorkAttended(p, y, a); }
  }

  // ---- stopping is final -------------------------------------------------------------------------

  /** The run ended in s, and still has, with the same steps and executions, in t. */
  ghost predicate Frozen(s: State, t: State, run: nat)
    requires run in s.runs
  {
    && run in t.runs && Over(t.runs[run].status)
    && (s.runs[run].status == Submitted ==> t.runs[run].status == Submitted)
    && (forall id :: t.steps.Has(run, id) <==> s.steps.Has(run, id))
    && (forall id :: t.executions.Has(run, id) <==> s.executions.Has(run, id))
  }

  lemma FrozenBy(s: State, t: State, run: nat)
    requires run in s.runs && Over(s.runs[run].status) && run in t.runs
    requires t.runs[run].status == s.runs[run].status || t.runs[run].status == Submitted
    requires Owned(s.steps, t.steps) && Owned(s.executions, t.executions)
    requires NoneLate(s.steps, t.steps, s.runs) && NoneLate(s.executions, t.executions, s.runs)
    ensures Frozen(s, t, run)
  {
  }

  lemma LaterOwns(s: State, t: State)
    requires Later(s, t)
    ensures Owned(s.steps, t.steps) && Owned(s.executions, t.executions)
  {
    hide Owned, TablesLater;
  }

  lemma FrozenStep(p: Policy, y: System, a: Action, run: nat)
    requires Indexed(y.store) && Attended(y) && run in y.store.runs && Over(y.store.runs[run].status)
    ensures Frozen(y.store, Next(p, y, a).store, run)
  {
    var s, t := y.store, Next(p, y, a).store;
    assert run in t.runs && (t.runs[run].status == s.runs[run].status || t.runs[run].status == Submitted)
      && NoneLate(s.steps, t.steps, s.runs)
        && NoneLate(s.executions, t.executions, s.runs) by { FrozenParts(p, y, a, run); }
    hide *;
    NextForward(p, y, a);
    LaterOwns(s, t);
    FrozenBy(s, t, run);
  }

  lemma FrozenParts(p: Policy, y: System, a: Action, run: nat)
    requires Indexed(y.store) && Attended(y) && run in y.store.runs && Over(y.store.runs[run].status)
    ensures var s, t := y.store, Next(p, y, a).store;
            run in t.runs && (t.runs[run].status == s.runs[run].status || t.runs[run].status == Submitted)
            && NoneLate(s.steps, t.steps, s.runs) && NoneLate(s.executions, t.executions, s.runs)
  {
    hide Indexed, Attended, Apply, Work, Enabled;
    if a.Api? { CallMoves(p, y.store, a.call); }
    else if Enabled(y.stage, a) && !a.Wait? && !a.Crash? {
      if a.Finish? { FinishFrozen(p, y, a, run); }
      else if a.CompleteSubmission? { SubmissionFrozen(p, y, a, run); }
      else { WorkMoves(p, y, a); }
    }
  }

  lemma FinishFrozen(p: Policy, y: System, a: Action, run: nat)
    requires Indexed(y.store) && Attended(y) && run in y.store.runs && Over(y.store.runs[run].status)
    requires Enabled(y.stage, a) && a.Finish?
    ensures var t := Work(p, y, a).store;
            run in t.runs && t.runs[run] == y.store.runs[run] && t.steps.rows.Keys == y.store.steps.rows.Keys
            && t.executions.rows.Keys == y.store.executions.rows.Keys
  {
    hide Indexed, CompleteExecution;
    FinishMoves(p, y.store, y.stage.run, y.stage.execution, a.exitCode, a.error, a.timedOut);
  }

  lemma SubmissionFrozen(p: Policy, y: System, a: Action, run: nat)
    requires run in y.store.runs && Over(y.store.runs[run].status) && Enabled(y.stage, a) && a.CompleteSubmission?
    ensures var t := Work(p, y, a).store;
            run in t.runs && (t.runs[run] == y.store.runs[run] || t.runs[run].status == Submitted)
            && t.steps == y.store.steps && t.executions == y.store.executions
  {
  }

  /**
   * Once a run is aborted or submitted, whatever calls, worker steps and crashes follow: it stays aborted or
   * submitted, a submitted run stays submitted, no step is created in it and no execution starts in it.
   */
  lemma {:induction false} StoppingIsFinal(p: Policy, y: System, actions: seq<Action>, run: nat)
    requires Indexed(y.store) && Attended(y) && run in y.store.runs && Over(y.store.runs[run].status)
    ensures Indexed(After(p, y, actions).store) && Attended(After(p, y, actions))
    ensures Frozen(y.store, After(p, y, actions).store, run)
    decreases |actions|
  {
    if actions != [] {
      var before := After(p, y, actions[..|actions| - 1]);
      var a := actions[|actions| - 1];
      assert After(p, y, actions) == Next(p, before, a);
      hide *;
      StoppingIsFinal(p, y, actions[..|actions| - 1], run);
      StillOver(y.store, before.store, run);
      NextIndexed(p, before, a);
      NextAttended(p, before, a);
      FrozenStep(p, before, a, run);
      FrozenThen(y.store, before.store, Next(p, before, a).store, run);
    } else {
      hide Indexed, Attended;
    }
  }

  lemma StillOver(s: State, t: State, run: nat)
    requires run in s.runs && Frozen(s, t, run)
    ensures run in t.runs && Over(t.runs[run].status)
  {
  }

  lemma FrozenThen(s: State, t: State, u: State, run: nat)
    requires run in s.runs && Frozen(s, t, run) && run in t.runs && Frozen(t, u, run)
    ensures Frozen(s, u, run)
  {
  }

  lemma {:induction false} AlwaysAttended(p: Policy, limit: nat, clock: int, actions: seq<Action>)
    ensures Attended(After(p, Begin(limit, clock), actions))
    decreases |actions|
  {
    if actions != [] {
      hide Indexed, Attended, Next;
      var before := After(p, Begin(limit, clock), actions[..|actions| - 1]);
      AlwaysAttended(p, limit, clock, actions[..|actions| - 1]);
      AlwaysIndexed(p, limit, clock, actions[..|actions| - 1]);
      NextAttended(p, before, actions[|actions| - 1]);
    }
  }

  /** Aborting an active run of the system, at any moment of any run of it, ends that run for good. */
  lemma AbortEndsTheRun(p: Policy, limit: nat, clock: int, before: seq<Action>, run: nat, after: seq<Action>)
    requires run in After(p, Begin(limit, clock), before).store.runs
    ensures var y := After(p, Begin(limit, clock), before);
            var stopped := Next(p, y, Api(Abort(run)));
            run in stopped.store.runs && Frozen(stopped.store, After(p, stopped, after).store, run)
  {
    var y := After(p, Begin(limit, clock), before);
    assert var stopped := Next(p, y, Api(Abort(run)));
      run in stopped.store.runs && Over(stopped.store.runs[run].status) by {
      hide After;
    }
    hide *;
    AlwaysIndexed(p, limit, clock, before);
    AlwaysAttended(p, limit, clock, before);
    NextIndexed(p, y, Api(Abort(run)));
    NextAttended(p, y, Api(Abort(run)));
    StoppingIsFinal(p, Next(p, y, Api(Abort(run))), after, run);
  }

  lemma NextIndexed(p: Policy, y: System, a: Action)
    requires Indexed(y.store)
    ensures Indexed(Next(p, y, a).store)
  {
    hide Indexed, Later, Next;
    NextForward(p, y, a);
  }
}
