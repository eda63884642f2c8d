/**
 * How many commands of a run may wait for approval. The documents allow one. The code keeps to one as long as a run is
 * not retried, and no command of it completes, while it awaits an approval; either leaves the waiting step behind.
 */
module Pending {
  import opened Wrappers
  import opened Tables
  import opened Model
  import opened Store
  import opened Indexing
  import opened History
  import opened Footprints
  import opened Delivery
  import opened Runs
  import opened Approval
  import opened Ending
  import opened Readiness
  import opened Earning
  import opened Validation
  import Audit
  import Outbox

  predicate Waiting(steps: Table<Step>, run: nat, id: nat) {
    steps.Has(run, id) && steps.rows[id].data.status == Proposed
  }

  /** A run that awaits an approval names a step of its own that is still only proposed. */
  predicate Asked(r: Run, steps: Table<Step>, run: nat) {
    r.status == AwaitingStepApproval ==> r.pending.Some? && Waiting(steps, run, r.pending.value)
  }

  /** At most one step waits, and in a run that goes on it is the one the run awaits. */
  ghost predicate Alone(r: Run, steps: Table<Step>, run: nat) {
    && Asked(r, steps, run)
    && (forall a, b :: Waiting(steps, run, a) && Waiting(steps, run, b) ==> a == b)
    && (!Over(r.status) ==>
      forall id: nat :: Waiting(steps, run, id) ==> r.status == AwaitingStepApproval && r.pending == Some(id))
  }

  ghost predicate KeepsAsked(s: State, t: State, run: nat) {
    run in s.runs ==> run in t.runs && (Asked(s.runs[run], s.steps, run) ==> Asked(t.runs[run], t.steps, run))
  }

  ghost predicate Keeps(s: State, t: State, run: nat) {
    KeepsAsked(s, t, run) && (run in s.runs && Alone(s.runs[run], s.steps, run) ==> Alone(t.runs[run], t.steps, run))
  }

  // ---- the ways an operation touches a run ---------------------------------------------------------

  lemma SameWaiting(s: State, t: State, run: nat)
    requires run in s.runs ==>
      run in t.runs && t.runs[run].status == s.runs[run].status && t.runs[run].pending == s.runs[run].pending
    requires forall id :: Waiting(t.steps, run, id) <==> Waiting(s.steps, run, id)
    ensures Keeps(s, t, run)
  {
  }

  lemma Elsewhere(s: State, t: State, run: nat, other: nat)
    requires Advances(s, t, other) && run != other
    ensures Keeps(s, t, run)
  {
    hide TimelineLater, QueueLater, TablesLater;
    forall id ensures Waiting(t.steps, run, id) <==> Waiting(s.steps, run, id) { }
    SameWaiting(s, t, run);
  }

  /** A run that no longer awaits anything keeps to one, unless it awaited a step that still waits. */
  lemma Answered(s: State, t: State, run: nat)
    requires run in s.runs && run in t.runs && t.runs[run].status != AwaitingStepApproval
    requires forall id :: Waiting(t.steps, run, id) ==> Waiting(s.steps, run, id)
    requires Over(t.runs[run].status) || !Over(s.runs[run].status)
    requires (!Over(t.runs[run].status) && s.runs[run].status == AwaitingStepApproval
              && Alone(s.runs[run], s.steps, run)) ==>
               !Waiting(t.steps, run, s.runs[run].pending.value)
    ensures Keeps(s, t, run)
  {
  }

  // ---- calls -------------------------------------------------------------------------------------

  lemma CreatedStep(p: Policy, s: State, run: nat, origin: Origin, command: string, purpose: string, phase: Phase)
    ensures var t := CreateStep(p, s, run, origin, command, purpose, phase).state;
            var step := NewStep(p, origin, command, purpose, phase);
            if run in s.runs && !Closed(s.runs[run].status)
              && !(s.runs[run].status == AwaitingStepApproval && s.runs[run].pending.Some?)
            then t.steps == s.steps.Add(run, step)
              && t.runs == s.runs[run := AfterProposal(s.runs[run], s.steps.next, step.blocked)]
            else t == s
  {
    hide NewStep, AfterProposal, Table.Add, AnnounceStep, PlanBackup, Closed;
  }

  lemma WaitingAfterAdd(t: Table<Step>, run: nat, step: Step)
    requires t.next !in t.rows
    ensures forall i: nat ::
      Waiting(t.Add(run, step), run, i) <==> Waiting(t, run, i) || (i == t.next && step.status == Proposed)
  {
  }

  lemma CreateStepKeeps(p: Policy, s: State, run: nat, origin: Origin, command: string, purpose: string, phase: Phase)
    requires s.steps.next !in s.steps.rows
    ensures Keeps(s, CreateStep(p, s, run, origin, command, purpose, phase).state, run)
  {
    hide CreateStep, Table.Add;
    CreatedStep(p, s, run, origin, command, purpose, phase);
    WaitingAfterAdd(s.steps, run, NewStep(p, origin, command, purpose, phase));
    var t := CreateStep(p, s, run, origin, command, purpose, phase).state;
    if t == s { SameWaiting(s, t, run); }
  }

  lemma ManualKeeps(p: Policy, s: State, run: nat, command: string, purpose: string, phase: Phase)
    requires s.steps.next !in s.steps.rows
    ensures Keeps(s, CreateManualStep(p, s, run, command, purpose, phase).state, run)
  {
    hide CreateStep, Outbox.CancelPending;
    CreateStepKeeps(p, s.(queue := Outbox.CancelPending(s.queue, run, Outbox.PlanJob)), run, Manual, command, purpose,
      phase);
  }

  lemma RestoreKeeps(p: Policy, s: State, run: nat, record: nat, reason: string)
    requires s.steps.next !in s.steps.rows
    ensures Keeps(s, ProposeRestore(p, s, run, record, reason).state, run)
  {
    hide CreateStep;
    if s.backups.Has(run, record) && s.backups.rows[record].data.restoreCommand.Some? {
      CreateStepKeeps(p, s, run, FromBackup, s.backups.rows[record].data.restoreCommand.value, reason, Restore);
    }
  }

  lemma GrantKeeps(s: State, run: nat, id: nat, body: Body)
    requires run in s.runs && s.runs[run].status == AwaitingStepApproval && Waiting(s.steps, run, id)
    ensures Keeps(s, Grant(s, run, id, body), run)
  {
    hide Keeps;
    Answered(s, Grant(s, run, id, body), run);
  }

  lemma ThroughGatesKeeps(p: Policy, s: State, run: nat, id: nat, body: Body)
    requires run in s.runs && s.runs[run].status == AwaitingStepApproval && Waiting(s.steps, run, id)
    ensures Keeps(s, ApproveThroughGates(p, s, run, id, body).state, run)
  {
    hide FixGate, BackupGate, Note, Grant;
    var s1 := Note(s, run, FixGate(p, s, run, id, s.steps.rows[id].data));
    GrantKeeps(Note(s1, run, BackupGate(p, s1, run, id, s.steps.rows[id].data)), run, id, body);
  }

  lemma EditKeeps(p: Policy, s: State, run: nat, id: nat, command: string, purpose: Option<string>)
    ensures Keeps(s, EditAndApproveStep(p, s, run, id, command, purpose).state, run)
  {
    hide ApproveThroughGates;
    SameWaiting(s, s, run);
    if run in s.runs && Waiting(s.steps, run, id) && s.runs[run].status == AwaitingStepApproval {
      var s1 := Reclassify(s, run, id, EditedStep(p, s.steps.rows[id].data, command, purpose));
      SameWaiting(s, s1, run);
      if !p.classify(command).blocked {
        ThroughGatesKeeps(p, s1, run, id, StepEditedAndApproved(id, command));
      }
    }
  }

  lemma RejectKeeps(s: State, run: nat, id: nat)
    ensures Keeps(s, RejectStep(s, run, id).state, run)
  {
    hide Keeps;
    if run in s.runs && Waiting(s.steps, run, id) && s.runs[run].status == AwaitingStepApproval {
      Answered(s, RejectStep(s, run, id).state, run);
    } else {
      SameWaiting(s, RejectStep(s, run, id).state, run);
    }
  }

  /** Connecting, retrying or aborting a run; retrying one that awaits an approval is the exception. */
  lemma StatusKeeps(s: State, t: State, run: nat, status: RunStatus)
    requires run in s.runs && t.steps == s.steps && status != AwaitingStepApproval
    requires t.runs == s.runs || t.runs == s.runs[run := s.runs[run].(status := status)]
      || t.runs == s.runs[run := s.runs[run].(status := status, pending := None)]
    requires t.runs != s.runs ==>
      Over(status) || (!Over(s.runs[run].status) && s.runs[run].status != AwaitingStepApproval)
    ensures Keeps(s, t, run)
  {
    hide Keeps;
    if t.runs == s.runs { SameWaiting(s, t, run); } else { Answered(s, t, run); }
  }

  lemma DraftKeeps(p: Policy, s: State, run: nat, draft: Draft, edited: bool)
    ensures Keeps(s, SaveActivityDraft(p, s, run, draft, edited).state, run)
  {
    hide NotReady, Incomplete, Keeps;
    SameWaiting(s, SaveActivityDraft(p, s, run, draft, edited).state, run);
  }

  predicate Awaits(s: State, run: nat) { run in s.runs && s.runs[run].status == AwaitingStepApproval }

  lemma OwnCallKeeps(p: Policy, s: State, call: Call)
    requires s.steps.next !in s.steps.rows && !call.NewRun? && Scope(s, call) in s.runs
    requires !(call.Retry? && Awaits(s, call.run))
    ensures Keeps(s, Apply(p, s, call), Scope(s, call))
  {
    hide Keeps, Waiting, CreateManualStep, ApproveThroughGates, EditAndApproveStep, RejectStep, ProposeRestore,
      SaveActivityDraft, NotReady, Outbox.CancelPending, Outbox.Supersede, SavedDraft, OpenRequest, Incomplete;
    SameWaiting(s, s, Scope(s, call));
    match call
    case Connect(run) => StatusKeeps(s, Apply(p, s, call), run, Investigating);
    case EnterStep(run, command, purpose, phase) => ManualKeeps(p, s, run, command, purpose, phase);
    case Approve(run, step) => ApproveKeeps(p, s, run, step);
    case EditAndApprove(run, step, command, purpose) => EditKeeps(p, s, run, step, command, purpose);
    case Reject(run, step) => RejectKeeps(s, run, step);
    case Retry(run) => StatusKeeps(s, Apply(p, s, call), run, Investigating);
    case Abort(run) => StatusKeeps(s, Apply(p, s, call), run, Aborted);
    case NoBackupNeeded(run, path) => StatusKeeps(s, Apply(p, s, call), run, Aborted);
    case ProposeRestoreOf(run, record, reason) => RestoreKeeps(p, s, run, record, reason);
    case WriteDraft(run, draft) => DraftKeeps(p, s, run, draft, false);
    case SaveDraft(run, draft) => DraftKeeps(p, s, run, draft, true);
    case SubmitActivity(run) => StatusKeeps(s, Apply(p, s, call), run, Aborted);
  }

  lemma ApproveKeeps(p: Policy, s: State, run: nat, id: nat)
    ensures Keeps(s, ApproveStep(p, s, run, id).state, run)
  {
    hide ApproveThroughGates, Keeps;
    SameWaiting(s, s, run);
    if run in s.runs && Waiting(s.steps, run, id) && s.runs[run].status == AwaitingStepApproval {
      ThroughGatesKeeps(p, s, run, id, StepApproved(id, s.steps.rows[id].data.command));
    }
  }

  lemma CallKeeps(p: Policy, s: State, call: Call, run: nat)
    requires Indexed(s) && run in s.runs
    ensures KeepsAsked(s, Apply(p, s, call), run)
    ensures !(call == Retry(run) && Awaits(s, run)) ==> Keeps(s, Apply(p, s, call), run)
  {
    if call == Retry(run) {
      hide Indexed, Keeps;
      if !Awaits(s, run) { RetriedKeeps(s, run); }
    } else {
      hide Apply, Awaits, Indexed;
      OtherCallKeeps(p, s, call, run);
    }
  }

  lemma RetriedKeeps(s: State, run: nat)
    requires run in s.runs && !Awaits(s, run)
    ensures Keeps(s, RetryRun(s, run).state, run)
  {
    hide Keeps, Outbox.Supersede;
    StatusKeeps(s, RetryRun(s, run).state, run, Investigating);
  }

  lemma OtherCallKeeps(p: Policy, s: State, call: Call, run: nat)
    requires Indexed(s) && run in s.runs && call != Retry(run)
    ensures Keeps(s, Apply(p, s, call), run)
  {
    hide Indexed, Advances, Apply, Keeps;
    FreshIds(s); OwnersAreKnown(s);
    if Scope(s, call) != run {
      hide Scope;
      EveryCallStaysInItsRun(p, s, call);
      Elsewhere(s, Apply(p, s, call), run, Scope(s, call));
    } else {
      OwnCallKeeps(p, s, call);
    }
  }

  // ---- the worker ----------------------------------------------------------------------------------

  /** The action takes a run away from the step it awaits, without answering for that step. */
  predicate Abandons(y: System, a: Action, run: nat) {
    Awaits(y.store, run) && (a == Api(Retry(run)) || (a.Finish? && y.stage.InFlight? && y.stage.run == run))
  }

  lemma FinishKeeps(p: Policy, s: State, run: nat, x: nat, exitCode: Option<int>, error: Option<string>, timedOut: bool)
    requires Indexed(s) && Vetted(p, s) && run in s.runs && s.runs[run].status != Submitted && s.executions.Has(run, x)
    ensures var t := CompleteExecution(p, s, run, x, exitCode, error, timedOut).state;
            KeepsAsked(s, t, run) && (!Awaits(s, run) ==> Keeps(s, t, run))
  {
    hide Indexed, Vetted, CompleteExecution, Waiting;
    var t := CompleteExecution(p, s, run, x, exitCode, error, timedOut).state;
    FinishedRun(p, s, run, x, exitCode, error, timedOut);
    FinishedSteps(p, s, run, x, exitCode, error, timedOut);
    if s.runs[run].status == Aborted || !Awaits(s, run) { Answered(s, t, run); }
  }

  lemma FinishedRun(p: Policy, s: State, run: nat, x: nat, exitCode: Option<int>, error: Option<string>, timedOut: bool)
    requires Indexed(s) && Vetted(p, s) && run in s.runs && s.runs[run].status != Submitted && s.executions.Has(run, x)
    ensures var t := CompleteExecution(p, s, run, x, exitCode, error, timedOut).state;
            run in t.runs && t.runs[run].status != AwaitingStepApproval
            && (if s.runs[run].status == Aborted then t.runs[run] == s.runs[run] else !Over(t.runs[run].status))
  {
    hide Indexed, Settle;
    var done := WithOutcome(s.executions.rows[x].data, exitCode, error, timedOut);
    var s2 := EndedState(s, x, done);
    SettledStatus(p, s2, run, x, s.steps.rows[done.stepId].data, done);
  }

  lemma SettledStatus(p: Policy, s: State, run: nat, id: nat, step: Step, done: Execution)
    requires run in s.runs
    ensures var t := Settle(p, s, run, id, step, done);
            run in t.runs && (s.runs[run].status == Aborted ==> t.runs == s.runs)
            && (s.runs[run].status != Aborted ==>
              !Over(t.runs[run].status) && t.runs[run].status != AwaitingStepApproval)
  {
    hide ConcludeValidation, ConcludeFix, Replan, FailedUnseen, RecordObservations, FinishedBody;
    ValidationMoves(p, s, run, id, done);
    FixMoves(p, s, run, id, step, done);
    ReplanMoves(s, run, Investigating, ObservationRecorded);
    ReplanMoves(s, run, Investigating, CommandFailure);
  }

  lemma FinishedSteps(p: Policy, s: State, run: nat, x: nat, exitCode: Option<int>, error: Option<string>,
      timedOut: bool)
    requires Vetted(p, s) && s.executions.Has(run, x)
    ensures var t := CompleteExecution(p, s, run, x, exitCode, error, timedOut).state;
            forall id :: Waiting(t.steps, run, id) <==> Waiting(s.steps, run, id)
  {
    hide Settle;
    assert WithOutcome(s.executions.rows[x].data, exitCode, error, timedOut).stepId ==
      s.executions.rows[x].data.stepId;
  }

  lemma FinishEachKeeps(p: Policy, s: State, other: nat, x: nat, exitCode: Option<int>, error: Option<string>,
      timedOut: bool, run: nat)
    requires run in s.runs && other in s.runs && s.runs[other].status != Submitted && s.executions.Has(other, x)
    requires Indexed(s) && Vetted(p, s)
    ensures var t := CompleteExecution(p, s, other, x, exitCode, error, timedOut).state;
            KeepsAsked(s, t, run) && (!(other == run && Awaits(s, run)) ==> Keeps(s, t, run))
  {
    hide Indexed, Vetted, CompleteExecution, Advances;
    if other == run {
      FinishKeeps(p, s, run, x, exitCode, error, timedOut);
    } else {
      var t := CompleteExecution(p, s, other, x, exitCode, error, timedOut).state;
      CompleteExecutionReaches(p, s, other, x, exitCode, error, timedOut);
      Elsewhere(s, t, run, other);
    }
  }

  lemma ProposeEachKeeps(p: Policy, s: State, other: nat, command: string, purpose: string, phase: Phase, run: nat)
    requires Indexed(s)
    ensures Keeps(s, ProposeAgentStep(p, s, other, command, purpose, phase).state, run)
  {
    hide Indexed, CreateStep, Advances, Keeps;
    FreshIds(s); OwnersAreKnown(s);
    CreateStepKeeps(p, s, other, Agent, command, purpose, phase);
    if other != run {
      ProposeAgentStepReaches(p, s, other, command, purpose, phase);
      Elsewhere(s, ProposeAgentStep(p, s, other, command, purpose, phase).state, run, other);
    }
  }

  lemma DraftEachKeeps(p: Policy, s: State, other: nat, draft: Draft, run: nat)
    requires Indexed(s)
    ensures Keeps(s, CreateActivityDraft(p, s, other, draft).state, run)
  {
    hide Indexed, SaveActivityDraft, NotReady, Advances, Keeps;
    SameWaiting(s, s, run);
    DraftKeeps(p, s, other, draft, false);
    if other != run {
      SaveActivityDraftReaches(p, s, other, draft, false);
      Elsewhere(s, SaveActivityDraft(p, s, other, draft, false).state, run, other);
    }
  }

  lemma SubmitEachKeeps(s: State, other: nat, request: nat, run: nat)
    ensures Keeps(s, MarkCompleted(s, other, request).state, run)
  {
    hide Keeps, Waiting;
    if other == run && run in s.runs { StatusKeeps(s, MarkCompleted(s, other, request).state, run, Submitted); }
    else { SameWaiting(s, MarkCompleted(s, other, request).state, run); }
  }

  lemma WorkIs(p: Policy, y: System, a: Action)
    requires Enabled(y.stage, a)
    ensures var s, t, at := y.store, Work(p, y, a).store, y.stage;
            match a
            case Finish(exitCode, error, timedOut) =>
              at.InFlight? && t == CompleteExecution(p, s, at.run, at.execution, exitCode, error, timedOut).state
            case Propose(command, purpose, phase) =>
              at.Thinking? && t == ProposeAgentStep(p, s, at.run, command, purpose, phase).state
            case Draft(draft) => at.Claimed? && t == CreateActivityDraft(p, s, at.run, draft).state
            case CompleteSubmission => at.TicketClosed? && t == MarkCompleted(s, at.run, at.request).state
            case _ => t.runs == s.runs && t.steps == s.steps
  {
    hide ClaimNext, CheckNotAborted, ReadPlannerContext, AppendEvent, StartExecution, AppendChunk, MarkProcessing,
      MarkActivityCreated, FailRequest, FailOutbox, CompleteOutbox, Recoveries, StaleIds, CompleteExecution,
      ProposeAgentStep, CreateActivityDraft, MarkCompleted;
  }

  lemma HealthyMeans(p: Policy, y: System)
    requires Healthy(p, y)
    ensures Indexed(y.store) && Vetted(p, y.store)
    ensures y.stage.InFlight? ==> y.stage.run in y.store.runs && y.store.runs[y.stage.run].status != Submitted
                                  && y.store.executions.Has(y.stage.run, y.stage.execution)
  {
    hide Indexed, Vetted, Validated;
  }

  lemma WorkKeeps(p: Policy, y: System, a: Action, run: nat)
    requires Enabled(y.stage, a) && run in y.store.runs && Healthy(p, y)
    ensures KeepsAsked(y.store, Work(p, y, a).store, run)
    ensures !Abandons(y, a, run) ==> Keeps(y.store, Work(p, y, a).store, run)
  {
    hide Work, Enabled, Healthy, Indexed, Vetted, CompleteExecution, ProposeAgentStep, CreateActivityDraft,
      MarkCompleted, Waiting;
    WorkIs(p, y, a);
    HealthyMeans(p, y);
    var s, t, at := y.store, Work(p, y, a).store, y.stage;
    match a {
      case Finish(exitCode, error, timedOut) =>
        FinishEachKeeps(p, s, at.run, at.execution, exitCode, error, timedOut, run);
      case Propose(command, purpose, phase) => ProposeEachKeeps(p, s, at.run, command, purpose, phase, run);
      case Draft(draft) => DraftEachKeeps(p, s, at.run, draft, run);
      case CompleteSubmission => SubmitEachKeeps(s, at.run, at.request, run);
      case _ => SameWaiting(s, t, run);
    }
  }

  lemma NextKeeps(p: Policy, y: System, a: Action, run: nat)
    requires run in y.store.runs && Healthy(p, y)
    ensures KeepsAsked(y.store, Next(p, y, a).store, run)
    ensures !Abandons(y, a, run) ==> Keeps(y.store, Next(p, y, a).store, run)
  {
    hide Indexed, Vetted, Healthy, Apply, Work, Waiting, Enabled;
    HealthyMeans(p, y);
    SameWaiting(y.store, y.store, run);
    match a
    case Api(call) => CallKeeps(p, y.store, call, run);
    case Wait(_) => SameWaiting(y.store, Next(p, y, a).store, run);
    case _ => if Enabled(y.stage, a) { WorkKeeps(p, y, a, run); }
  }

  // ---- runs of the system --------------------------------------------------------------------------

  /** A run's first state: nothing waits in it. */
  lemma NewlyAlone(p: Policy, y: System, a: Action, run: nat)
    requires run !in y.store.runs && run in Next(p, y, a).store.runs && Indexed(y.store)
    ensures Alone(Next(p, y, a).store.runs[run], Next(p, y, a).store.steps, run)
  {
    hide Indexed, Next, Alone;
    OnlyCallsOpenRuns(p, y, a, run);
    NewRunAlone(y.store, a.call.ticketId, a.call.snapshot);
    NextIsCall(p, y, a);
  }

  lemma NextIsCall(p: Policy, y: System, a: Action)
    requires a.Api? && a.call.NewRun?
    ensures Next(p, y, a).store == CreateRun(y.store, a.call.ticketId, a.call.snapshot).state
  {
    hide CreateRun;
  }

  lemma NewRunAlone(s: State, ticketId: int, snapshot: string)
    requires Indexed(s)
    ensures var t := CreateRun(s, ticketId, snapshot).state;
            s.nextRun in t.runs && Alone(t.runs[s.nextRun], t.steps, s.nextRun)
  {
    hide Indexed, CreateRun;
    NewRunIs(s, ticketId, snapshot);
    FreshIds(s); OwnersAreKnown(s);
    var t := CreateRun(s, ticketId, snapshot).state;
    forall id: nat ensures !Waiting(t.steps, s.nextRun, id) {
      assert t.steps.Has(s.nextRun, id) <==> s.steps.Has(s.nextRun, id);
    }
  }

  lemma NewRunIs(s: State, ticketId: int, snapshot: string)
    ensures var t := CreateRun(s, ticketId, snapshot).state;
            t.steps.rows == s.steps.rows && s.nextRun in t.runs
              && t.runs[s.nextRun].status == AwaitingConnectionApproval
  {
  }

  lemma OnlyCallsOpenRuns(p: Policy, y: System, a: Action, run: nat)
    requires run !in y.store.runs && run in Next(p, y, a).store.runs && Indexed(y.store)
    ensures a.Api? && a.call.NewRun? && run == y.store.nextRun
  {
    hide Indexed, Apply, Work, Enabled, Scope;
    match a
    case Api(call) => CallOpensScope(p, y.store, call, run);
    case Wait(_) =>
    case Crash =>
    case _ => if Enabled(y.stage, a) { WorkOpensNone(p, y, a); }
  }

  lemma CallOpensScope(p: Policy, s: State, call: Call, run: nat)
    requires run !in s.runs && run in Apply(p, s, call).runs && Indexed(s)
    ensures call.NewRun? && run == s.nextRun
  {
    hide Indexed, Apply;
    EveryCallStaysInItsRun(p, s, call);
    if !call.NewRun? { Audit.UnknownRun(p, s, call); }
  }

  lemma WorkOpensNone(p: Policy, y: System, a: Action)
    requires Enabled(y.stage, a) && Indexed(y.store)
    ensures Work(p, y, a).store.runs.Keys == y.store.runs.Keys
  {
    hide Work, Enabled, Indexed, CreateStep, NotReady, Advances;
    WorkIs(p, y, a);
    var s, at := y.store, y.stage;
    match a
    case Finish(exitCode, error, timedOut) =>
      if at.run in s.runs {
        CompleteExecutionReaches(p, s, at.run, at.execution, exitCode, error, timedOut);
        RunsElse(s, CompleteExecution(p, s, at.run, at.execution, exitCode, error, timedOut).state, at.run);
      }
    case Propose(command, purpose, phase) => CreatedStep(p, s, at.run, Agent, command, purpose, phase);
    case Draft(draft) =>
    case _ =>
  }

  /**
   * In every reachable state, a run that awaits an approval awaits a step of its own that is on record and undecided.
   */
  lemma {:induction false} AwaitedIsWaiting(p: Policy, limit: nat, clock: int, actions: seq<Action>, run: nat)
    requires var s := After(p, Begin(limit, clock), actions).store; Awaits(s, run)
    ensures var s := After(p, Begin(limit, clock), actions).store;
            s.runs[run].pending.Some? && Waiting(s.steps, run, s.runs[run].pending.value)
    decreases |actions|
  {
    AlwaysAsked(p, limit, clock, actions, run);
  }

  lemma {:induction false} AlwaysAsked(p: Policy, limit: nat, clock: int, actions: seq<Action>, run: nat)
    ensures var s := After(p, Begin(limit, clock), actions).store; run in s.runs ==> Asked(s.runs[run], s.steps, run)
    decreases |actions|
  {
    if actions != [] {
      var before := After(p, Begin(limit, clock), actions[..|actions| - 1]);
      var a := actions[|actions| - 1];
      assert After(p, Begin(limit, clock), actions) == Next(p, before, a);
      hide Healthy, Next, After, Asked, Alone, Indexed;
      AlwaysAsked(p, limit, clock, actions[..|actions| - 1], run);
      AlwaysHealthy(p, limit, clock, actions[..|actions| - 1]);
      if run in before.store.runs {
        NextKeeps(p, before, a, run);
      } else if run in Next(p, before, a).store.runs {
        AlwaysIndexed(p, limit, clock, actions[..|actions| - 1]);
        NewlyAlone(p, before, a, run);
        AloneMeans(Next(p, before, a).store, run);
      }
    }
  }

  lemma AloneMeans(s: State, run: nat)
    requires run in s.runs && Alone(s.runs[run], s.steps, run)
    ensures Asked(s.runs[run], s.steps, run)
    ensures forall a, b :: Waiting(s.steps, run, a) && Waiting(s.steps, run, b) ==> a == b
  {
  }

  /** No action of the list abandons a step the run awaits. */
  predicate Undisturbed(p: Policy, y: System, actions: seq<Action>, run: nat)
    decreases |actions|
  {
    actions == []
    || (Undisturbed(p, y, actions[..|actions| - 1], run)
      && !Abandons(After(p, y, actions[..|actions| - 1]), actions[|actions| - 1], run))
  }

  /**
   * Only one command of a run waits for approval, provided the run was never retried, and no command of it completed,
   * while it awaited an approval.
   */
  lemma OneCommandWaits(p: Policy, limit: nat, clock: int, actions: seq<Action>, run: nat, a: nat, b: nat)
    requires Undisturbed(p, Begin(limit, clock), actions, run)
    requires var s := After(p, Begin(limit, clock), actions).store; Waiting(s.steps, run, a) && Waiting(s.steps, run, b)
    ensures a == b
  {
    hide *;
    var s := After(p, Begin(limit, clock), actions).store;
    AlwaysIndexed(p, limit, clock, actions);
    WaitsInRun(s, run, a);
    AlwaysAlone(p, limit, clock, actions, run);
    AloneMeans(s, run);
  }

  lemma WaitsInRun(s: State, run: nat, id: nat)
    requires Indexed(s) && Waiting(s.steps, run, id)
    ensures run in s.runs
  {
    hide Indexed;
    FreshIds(s); OwnersAreKnown(s);
  }

  lemma {:induction false} AlwaysAlone(p: Policy, limit: nat, clock: int, actions: seq<Action>, run: nat)
    requires Undisturbed(p, Begin(limit, clock), actions, run)
    ensures var s := After(p, Begin(limit, clock), actions).store; run in s.runs ==> Alone(s.runs[run], s.steps, run)
    decreases |actions|
  {
    if actions != [] {
      var before := After(p, Begin(limit, clock), actions[..|actions| - 1]);
      var a := actions[|actions| - 1];
      assert After(p, Begin(limit, clock), actions) == Next(p, before, a);
      hide Healthy, Next, After, Asked, Alone, Abandons, Indexed;
      AlwaysAlone(p, limit, clock, actions[..|actions| - 1], run);
      AlwaysHealthy(p, limit, clock, actions[..|actions| - 1]);
      if run in before.store.runs {
        NextKeeps(p, before, a, run);
      } else if run in Next(p, before, a).store.runs {
        AlwaysIndexed(p, limit, clock, actions[..|actions| - 1]);
        NewlyAlone(p, before, a, run);
      }
    }
  }

  // ---- the condition is needed ----------------------------------------------------------------------

  /**
   * Whatever anyone does next, a run that keeps to one waiting command goes on doing so exactly if its step is not
   * abandoned.
   */
  lemma StaysAloneExactly(p: Policy, y: System, a: Action, run: nat)
    requires run in y.store.runs && Alone(y.store.runs[run], y.store.steps, run) && Healthy(p, y)
    ensures var t := Next(p, y, a).store; run in t.runs && (Alone(t.runs[run], t.steps, run) <==> !Abandons(y, a, run))
  {
    hide Healthy, Next, Alone, Abandons;
    NextKeeps(p, y, a, run);
    if Abandons(y, a, run) { AbandonedIsBehind(p, y, a, run); }
  }

  lemma AbandonedIsBehind(p: Policy, y: System, a: Action, run: nat)
    requires run in y.store.runs && Alone(y.store.runs[run], y.store.steps, run) && Abandons(y, a, run) && Healthy(p, y)
    ensures var t := Next(p, y, a).store; run in t.runs && !Alone(t.runs[run], t.steps, run)
  {
    hide Healthy, Indexed, Vetted, Apply, Work, RetryRun, CompleteExecution;
    HealthyMeans(p, y);
    var s, at := y.store, y.stage;
    var k := s.runs[run].pending.value;
    if a.Api? {
      assert a == Api(Retry(run));
      RetriedIs(p, y, run);
      RetriedRun(s, run);
    } else {
      WorkIs(p, y, a);
      FinishedRun(p, s, run, at.execution, a.exitCode, a.error, a.timedOut);
      FinishedSteps(p, s, run, at.execution, a.exitCode, a.error, a.timedOut);
    }
  }

  lemma RetriedIs(p: Policy, y: System, run: nat)
    ensures Next(p, y, Api(Retry(run))).store == RetryRun(y.store, run).state
  {
    hide RetryRun;
  }

  /**
   * Retrying a run that awaits an approval always leaves the step behind: the next command entered that is not blocked
   * waits beside it.
   */
  lemma RetryLeavesOneBehind(p: Policy, s: State, run: nat, command: string, purpose: string, phase: Phase)
    requires Indexed(s) && Awaits(s, run) && s.runs[run].pending.Some?
      && Waiting(s.steps, run, s.runs[run].pending.value)
    requires !p.classify(command).blocked
    ensures var t := Apply(p, Apply(p, s, Retry(run)), EnterStep(run, command, purpose, phase));
            && Awaits(t, run) && Waiting(t.steps, run, s.runs[run].pending.value) && Waiting(t.steps, run, s.steps.next)
            && s.runs[run].pending.value != s.steps.next
  {
    hide Indexed, RetryRun, CreateStep, Table.Add, Outbox.CancelPending;
    FreshIds(s); OwnersAreKnown(s);
    var r := RetryRun(s, run).state;
    RetriedRun(s, run);
    CreatedStep(p, r.(queue := Outbox.CancelPending(r.queue, run, Outbox.PlanJob)), run, Manual, command, purpose,
      phase);
    WaitingAfterAdd(s.steps, run, NewStep(p, Manual, command, purpose, phase));
  }

  lemma RetriedRun(s: State, run: nat)
    requires Awaits(s, run)
    ensures var t := RetryRun(s, run).state;
            t.steps == s.steps && t.runs == s.runs[run := s.runs[run].(status := Investigating, pending := None)]
  {
    hide Outbox.Supersede;
  }

  /**
   * What a further step meets in a run that awaits nothing: it waits, unless it is blocked or the run accepts no more.
   */
  lemma EnteredBeside(p: Policy, s: State, run: nat, command: string, purpose: string, phase: Phase, k: nat)
    requires run in s.runs && !Awaits(s, run) && Waiting(s.steps, run, k) && s.steps.next !in s.steps.rows
      && !p.classify(command).blocked
    ensures var t := Apply(p, s, EnterStep(run, command, purpose, phase));
            if Closed(s.runs[run].status) then t.steps == s.steps
            else Awaits(t, run) && Waiting(t.steps, run, k) && Waiting(t.steps, run, s.steps.next) && k != s.steps.next
  {
    hide CreateStep, Table.Add, Outbox.CancelPending, Closed;
    CreatedStep(p, s.(queue := Outbox.CancelPending(s.queue, run, Outbox.PlanJob)), run, Manual, command, purpose,
      phase);
    WaitingAfterAdd(s.steps, run, NewStep(p, Manual, command, purpose, phase));
  }

  lemma FinishedBehind(p: Policy, y: System, a: Action, k: nat)
    requires a.Finish? && y.stage.InFlight? && Awaits(y.store, y.stage.run) && Waiting(y.store.steps, y.stage.run, k)
      && Healthy(p, y)
    ensures var z, run := Next(p, y, a).store, y.stage.run;
            run in z.runs && !Awaits(z, run) && !Over(z.runs[run].status) && Waiting(z.steps, run, k)
              && z.steps.next !in z.steps.rows
  {
    hide Healthy, Indexed, Vetted, Work, CompleteExecution, Waiting;
    HealthyMeans(p, y);
    NextHealthy(p, y, a);
    HealthyMeans(p, Next(p, y, a));
    FreshIds(Next(p, y, a).store); OwnersAreKnown(Next(p, y, a).store);
    var s, at := y.store, y.stage;
    WorkIs(p, y, a);
    FinishedRun(p, s, at.run, at.execution, a.exitCode, a.error, a.timedOut);
    FinishedSteps(p, s, at.run, at.execution, a.exitCode, a.error, a.timedOut);
  }

  /**
   * So does a command that completes while its run awaits an approval: the next command entered that is not blocked
   * waits beside the old one, unless the command failed before it reached the host, when the run takes no more steps.
   */
  lemma CompletionLeavesOneBehind(p: Policy, y: System, a: Action, k: nat, command: string, purpose: string,
      phase: Phase)
    requires a.Finish? && y.stage.InFlight? && Awaits(y.store, y.stage.run) && Waiting(y.store.steps, y.stage.run, k)
      && Healthy(p, y)
    requires !p.classify(command).blocked
    ensures var z, run := Next(p, y, a).store, y.stage.run;
            var t := Apply(p, z, EnterStep(run, command, purpose, phase));
            && run in z.runs
            && if z.runs[run].status == RunStatus.Failed then t.steps == z.steps
               else (Awaits(t, run) && Waiting(t.steps, run, k) && Waiting(t.steps, run, z.steps.next)
                     && k != z.steps.next)
  {
    hide Healthy, Next, Apply, Waiting;
    FinishedBehind(p, y, a, k);
    EnteredBeside(p, Next(p, y, a).store, y.stage.run, command, purpose, phase, k);
  }

  // ---- the departure at an input -------------------------------------------------------------------

  /** A run is opened, a command entered, the run retried, and another command entered. */
  function RetriedTooEarly(): seq<Action> {
    [Api(NewRun(7, "")), Api(EnterStep(1, "uptime", "", OtherPhase("diagnostic"))), Api(Retry(1)),
     Api(EnterStep(1, "df", "", OtherPhase("diagnostic")))]
  }

  lemma FourSteps(p: Policy, y: System, a: Action, b: Action, c: Action, d: Action)
    ensures After(p, y, [a, b, c, d]) == Next(p, Next(p, Next(p, Next(p, y, a), b), c), d)
  {
    hide Next;
    assert [a, b, c, d][..3] == [a, b, c] && [a, b, c][..2] == [a, b] && [a, b][..1] == [a] && [a][..0] == [];
    AfterUnfolds(p, y, [a, b, c, d]);
    AfterUnfolds(p, y, [a, b, c]);
    AfterUnfolds(p, y, [a, b]);
    AfterUnfolds(p, y, [a]);
    AfterUnfolds(p, y, []);
  }

  lemma FirstStep(p: Policy, s: State, command: string)
    requires 1 in s.runs && s.runs[1].status == AwaitingConnectionApproval && s.steps.rows == map[] && s.steps.next == 1
    requires !p.classify(command).blocked
    ensures var t := Apply(p, s, EnterStep(1, command, "", OtherPhase("diagnostic")));
            Awaits(t, 1) && t.runs[1].pending == Some(1) && Waiting(t.steps, 1, 1) && t.steps.next == 2
  {
    hide CreateStep, Waiting, Outbox.CancelPending;
    CreatedStep(p, s.(queue := Outbox.CancelPending(s.queue, 1, Outbox.PlanJob)), 1, Manual, command, "",
      OtherPhase("diagnostic"));
    WaitingAfterAdd(s.steps, 1, NewStep(p, Manual, command, "", OtherPhase("diagnostic")));
  }

  /** From the start of the system, with any policy that blocks neither command, this leaves two commands waiting. */
  lemma TwoCommandsWait(p: Policy, limit: nat, clock: int)
    requires !p.classify("uptime").blocked && !p.classify("df").blocked
    ensures var s := After(p, Begin(limit, clock), RetriedTooEarly()).store;
            Waiting(s.steps, 1, 1) && Waiting(s.steps, 1, 2)
  {
    hide Apply, Waiting, After, Indexed;
    var diagnostic := OtherPhase("diagnostic");
    var y := Begin(limit, clock);
    var a, b := Api(NewRun(7, "")), Api(EnterStep(1, "uptime", "", diagnostic));
    FourSteps(p, y, a, b, Api(Retry(1)), Api(EnterStep(1, "df", "", diagnostic)));
    NextIsCall(p, y, a);
    var s := Next(p, y, a).store;
    FirstStep(p, s, "uptime");
    InitialIndexed(limit, clock);
    NextIndexed(p, y, a);
    NextIndexed(p, Next(p, y, a), b);
    RetryLeavesOneBehind(p, Apply(p, s, EnterStep(1, "uptime", "", diagnostic)), 1, "df", "", diagnostic);
  }
}
