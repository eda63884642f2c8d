/**
 * What each operation may write to the timeline: which of them say nothing about a step's way to the host, which
 * nothing about dropped output, and which nothing that changes what a reader knows of the run.
 */
module Silence {
  import opened Wrappers
  import opened Tables
  import opened Model
  import opened Store
  import opened Delivery
  import Outbox
  import Suite
  import Utf8

  /**
   * A step's proposal, clearance, approval, request and start; the dropping of output; or the run's status, its pending
   * step and its checks.
   */
  datatype Topic = StepProgress | OutputDropped | RunMoved

  predicate About(topic: Topic, body: Body) {
    match topic
    case StepProgress =>
      body.StepProposed? || body.SafetyClassified? || body.StepApproved? || body.StepEditedAndApproved?
      || body.ExecutionRequested? || body.CommandStarted?
    case OutputDropped => body.OutputTruncated?
    case RunMoved =>
      body.RunCreated? || body.ConnectionApproved? || body.StepProposed? || body.SafetyClassified? || body.StepApproved?
      || body.StepEditedAndApproved? || body.StepRejected? || body.RunRetried? || body.RunAborted?
      || body.SuiteRequired? || body.ExpectationUpdated? || body.SuitePassed? || body.PlanRequested?
      || body.CommandFinished? || body.ActivitySubmitted?
  }

  ghost predicate NoneAbout(topic: Topic, es: seq<Event>, from: nat) {
    forall i :: from <= i < |es| ==> !About(topic, es[i].body)
  }

  /** Every timeline was at most extended, by entries on other topics only. */
  ghost predicate Silent(topic: Topic, a: Timeline, b: Timeline) {
    forall r: nat :: a.Of(r) <= b.Of(r) && NoneAbout(topic, b.Of(r), |a.Of(r)|)
  }

  lemma SilentStill(topic: Topic, a: Timeline)
    ensures Silent(topic, a, a)
  {
  }

  lemma SilentThen(topic: Topic, a: Timeline, b: Timeline, c: Timeline)
    requires Silent(topic, a, b) && Silent(topic, b, c)
    ensures Silent(topic, a, c)
  {
    hide About;
    forall r: nat ensures a.Of(r) <= c.Of(r) && NoneAbout(topic, c.Of(r), |a.Of(r)|) {
      assert a.Of(r) <= b.Of(r) <= c.Of(r);
      forall i | |a.Of(r)| <= i < |c.Of(r)| ensures !About(topic, c.Of(r)[i].body) {
        if i < |b.Of(r)| { assert c.Of(r)[i] == b.Of(r)[i] && NoneAbout(topic, b.Of(r), |a.Of(r)|); }
      }
    }
  }

  lemma EmitSilent(topic: Topic, s: State, run: nat, body: Body)
    requires !About(topic, body)
    ensures Silent(topic, s.timeline, Emit(s, run, body).timeline)
  {
    hide About;
  }

  /** Silence from a state on is kept by doing nothing and by an entry on another topic. */
  lemma SilenceRules(topic: Topic, a: Timeline)
    ensures Silent(topic, a, a)
    ensures forall s: State, run: nat, body: Body {:trigger Emit(s, run, body)} ::
      Silent(topic, a, s.timeline) && !About(topic, body) ==> Silent(topic, a, Emit(s, run, body).timeline)
  {
    hide Silent, About, Emit;
    SilentStill(topic, a);
    forall s: State, run: nat, body: Body | Silent(topic, a, s.timeline) && !About(topic, body)
      ensures Silent(topic, a, Emit(s, run, body).timeline)
    {
      EmitSilent(topic, s, run, body);
      SilentThen(topic, a, s.timeline, Emit(s, run, body).timeline);
    }
  }

  // ---- completing a command ----------------------------------------------------------------------

  lemma MoveOnSilent(topic: Topic, s: State, run: nat, resultId: nat, suite: Suite.SuiteStatus, passed: bool)
    requires run in s.runs && topic != RunMoved
    ensures Silent(topic, s.timeline, MoveOn(s, run, resultId, suite, passed).timeline)
  {
    hide Silent, Emit, Outbox.Enqueue;
    SilenceRules(topic, s.timeline);
  }

  lemma ConcludeValidationSilent(topic: Topic, p: Policy, s: State, run: nat, id: nat, done: Execution)
    requires run in s.runs && topic != RunMoved
    ensures Silent(topic, s.timeline, ConcludeValidation(p, s, run, id, done).timeline)
  {
    hide Silent, LatestSuite, LatestExpectations, Suite.Matching, SuiteVerdict, ResultOf, MoveOn;
    SilenceRules(topic, s.timeline);
    var result := ResultOf(p, id, done);
    var s2 := ApplyResult(p, RecordResult(s, run, result), run, s.results.next, result);
    MoveOnSilent(topic, s2, run, s.results.next, SuiteVerdict(s2, run, result), result.passed);
    SilentThen(topic, s.timeline, s2.timeline, ConcludeValidation(p, s, run, id, done).timeline);
  }

  lemma ConcludeFixSilent(topic: Topic, p: Policy, s: State, run: nat, id: nat, step: Step, done: Execution)
    requires run in s.runs && topic != RunMoved
    ensures Silent(topic, s.timeline, ConcludeFix(p, s, run, id, step, done).timeline)
  {
    hide Silent, Emit, AddExpectations, Suite.Specs, NewIds, Outbox.Enqueue;
    SilenceRules(topic, s.timeline);
  }

  lemma ConcludeSilent(topic: Topic, p: Policy, s: State, run: nat, id: nat, step: Step, done: Execution)
    requires run in s.runs && topic != RunMoved
    ensures Silent(topic, s.timeline, Conclude(p, s, run, id, step, done).timeline)
  {
    hide Silent, Emit, ConcludeValidation, ConcludeFix, FailedUnseen, Outbox.Enqueue;
    SilenceRules(topic, s.timeline);
    ConcludeValidationSilent(topic, p, s, run, id, done);
    ConcludeFixSilent(topic, p, s, run, id, step, done);
  }

  lemma {:induction false} RecordSourcesSilent(topic: Topic, s: State, run: nat, id: nat, found: seq<DetectedSource>)
    ensures Silent(topic, s.timeline, RecordSources(s, run, id, found).timeline)
    decreases |found|
  {
    hide Silent, Emit;
    SilenceRules(topic, s.timeline);
    if found != [] {
      var s1 := RecordSource(s, run, Source(id, found[0].supports, found[0].redacted, found[0].detail));
      assert Silent(topic, s.timeline, s1.timeline);
      RecordSourcesSilent(topic, s1, run, id, found[1..]);
      SilentThen(topic, s.timeline, s1.timeline, RecordSources(s1, run, id, found[1..]).timeline);
    }
  }

  lemma RecordObservationsSilent(topic: Topic, p: Policy, s: State, run: nat, id: nat, done: Execution, step: Step)
    ensures Silent(topic, s.timeline, RecordObservations(p, s, run, id, done, step).timeline)
  {
    hide Silent, Emit, RecordSources, AnyRedacted, Table.OfRun, Table.Ids, RestoredRecord, RemoteStarted;
    SilenceRules(topic, s.timeline);
    RecordSourcesSilent(topic, s, run, id, p.detectSources(done.command, done.stdout, done.stderr, step.purpose,
      step.phase, AnyRedacted(s.chunks.OfRun(run), id)));
  }

  lemma SettleSilent(topic: Topic, p: Policy, s: State, run: nat, id: nat, step: Step, done: Execution)
    requires run in s.runs && topic != RunMoved
    ensures Silent(topic, s.timeline, Settle(p, s, run, id, step, done).timeline)
  {
    hide Silent, Emit, Conclude, RecordObservations;
    SilenceRules(topic, s.timeline);
    var s1 := if s.runs[run].status != Aborted then Conclude(p, s, run, id, step, done) else s;
    ConcludeSilent(topic, p, s, run, id, step, done);
    var s2 := Emit(s1, run, FinishedBody(id, done));
    RecordObservationsSilent(topic, p, s2, run, id, done, step);
    SilentThen(topic, s.timeline, s2.timeline, Settle(p, s, run, id, step, done).timeline);
  }

  lemma CompleteExecutionSilent(topic: Topic, p: Policy, s: State, run: nat, id: nat, exitCode: Option<int>,
      error: Option<string>, timedOut: bool)
    requires topic != RunMoved
    ensures Silent(topic, s.timeline, CompleteExecution(p, s, run, id, exitCode, error, timedOut).state.timeline)
  {
    hide Silent, Emit, Settle, WithOutcome;
    SilenceRules(topic, s.timeline);
    if run in s.runs && s.executions.Has(run, id) {
      var done := WithOutcome(s.executions.rows[id].data, exitCode, error, timedOut);
      if s.steps.Has(run, done.stepId) {
        var step := s.steps.rows[done.stepId].data;
        var s1 := s.(executions := s.executions.Put(id, done),
                     steps := s.steps.Put(done.stepId, step.(status := OutcomeOf(done.status))));
        SettleSilent(topic, p, s1, run, id, step, done);
      }
    }
  }

  // ---- proposing and approving -------------------------------------------------------------------

  lemma PlanBackupSilent(topic: Topic, p: Policy, s: State, run: nat, ticketId: int, step: Step)
    ensures Silent(topic, s.timeline, PlanBackup(p, s, run, ticketId, step).timeline)
  {
    hide Silent, Emit, Table.OfRun, SamePlan;
    SilenceRules(topic, s.timeline);
  }

  lemma CreateStepSilent(p: Policy, s: State, run: nat, origin: Origin, command: string, purpose: string,
      phase: Phase)
    ensures Silent(OutputDropped, s.timeline, CreateStep(p, s, run, origin, command, purpose, phase).state.timeline)
  {
    hide Silent, Emit, PlanBackup;
    SilenceRules(OutputDropped, s.timeline);
    if run in s.runs {
      var step := NewStep(p, origin, command, purpose, phase);
      var s1 := AnnounceStep(s, run, step);
      assert Silent(OutputDropped, s.timeline, s1.timeline);
      PlanBackupSilent(OutputDropped, p, s1, run, s.runs[run].ticketId, step);
      SilentThen(OutputDropped, s.timeline, s1.timeline, PlanBackup(p, s1, run, s.runs[run].ticketId, step).timeline);
    }
  }

  lemma GatesSilent(topic: Topic, p: Policy, s: State, run: nat, id: nat, step: Step)
    requires run in s.runs
    ensures Silent(topic, s.timeline, Note(s, run, FixGate(p, s, run, id, step)).timeline)
    ensures Silent(topic, s.timeline, Note(s, run, BackupGate(p, s, run, id, step)).timeline)
  {
    hide Silent, Emit, Table.OfRun, EvidenceIn, AnySatisfies;
    SilenceRules(topic, s.timeline);
  }

  lemma ThroughGatesSilent(p: Policy, s: State, run: nat, id: nat, body: Body)
    requires run in s.runs && id in s.steps.rows && !body.OutputTruncated?
    ensures Silent(OutputDropped, s.timeline, ApproveThroughGates(p, s, run, id, body).state.timeline)
  {
    hide Silent, Emit, FixGate, BackupGate, Note, Outbox.Enqueue;
    SilenceRules(OutputDropped, s.timeline);
    var step := s.steps.rows[id].data;
    var s1 := Note(s, run, FixGate(p, s, run, id, step));
    GatesSilent(OutputDropped, p, s, run, id, step);
    GatesSilent(OutputDropped, p, s1, run, id, step);
    SilentThen(OutputDropped, s.timeline, s1.timeline, Note(s1, run, BackupGate(p, s1, run, id, step)).timeline);
  }

  lemma EditSilent(p: Policy, s: State, run: nat, id: nat, command: string, purpose: Option<string>)
    ensures Silent(OutputDropped, s.timeline, EditAndApproveStep(p, s, run, id, command, purpose).state.timeline)
  {
    hide Silent, ApproveThroughGates, EditedStep;
    SilenceRules(OutputDropped, s.timeline);
    if run in s.runs && s.steps.Has(run, id) {
      var s1 := Reclassify(s, run, id, EditedStep(p, s.steps.rows[id].data, command, purpose));
      var body := StepEditedAndApproved(id, command);
      ThroughGatesSilent(p, s1, run, id, body);
      SilentThen(OutputDropped, s.timeline, s1.timeline, ApproveThroughGates(p, s1, run, id, body).state.timeline);
    }
  }

  // ---- calls -------------------------------------------------------------------------------------

  /** The calls that concern steps; the others write nothing about a step's progress. */
  predicate AboutSteps(call: Call) {
    call.EnterStep? || call.Approve? || call.EditAndApprove? || call.Reject? || call.ProposeRestoreOf?
  }

  /** The calls that move the run in another way. */
  predicate AboutRuns(call: Call) { call.NewRun? || call.Connect? || call.Retry? || call.Abort? }

  lemma StepCallSilent(p: Policy, s: State, call: Call)
    requires AboutSteps(call)
    ensures Silent(OutputDropped, s.timeline, Apply(p, s, call).timeline)
  {
    hide Silent, Emit, CreateStep, ApproveThroughGates, EditAndApproveStep, Outbox.CancelPending;
    SilenceRules(OutputDropped, s.timeline);
    match call
    case EnterStep(run, command, purpose, phase) =>
      CreateStepSilent(p, s.(queue := Outbox.CancelPending(s.queue, run, Outbox.PlanJob)), run, Manual, command,
        purpose, phase);
    case Approve(run, id) =>
      if run in s.runs && s.steps.Has(run, id) {
        ThroughGatesSilent(p, s, run, id, StepApproved(id, s.steps.rows[id].data.command));
      }
    case EditAndApprove(run, id, command, purpose) => EditSilent(p, s, run, id, command, purpose);
    case ProposeRestoreOf(run, record, reason) =>
      if s.backups.Has(run, record) && s.backups.rows[record].data.restoreCommand.Some? {
        CreateStepSilent(p, s, run, FromBackup, s.backups.rows[record].data.restoreCommand.value, reason, Restore);
      }
    case Reject(_, _) =>
  }

  lemma NewRunSilent(topic: Topic, s: State, ticketId: int, snapshot: string)
    requires s.nextRun !in s.timeline.events && topic != RunMoved
    ensures Silent(topic, s.timeline, CreateRun(s, ticketId, snapshot).state.timeline)
  {
    var t := s.timeline;
    assert Silent(topic, t, t.(events := t.events[s.nextRun := []]));
    hide Silent, Emit;
    SilenceRules(topic, s.timeline);
  }

  lemma DraftSilent(topic: Topic, p: Policy, s: State, run: nat, draft: Draft, edited: bool)
    ensures Silent(topic, s.timeline, SaveActivityDraft(p, s, run, draft, edited).state.timeline)
    ensures Silent(topic, s.timeline, CreateActivityDraft(p, s, run, draft).state.timeline)
  {
    hide Silent, Emit, NotReady, Incomplete;
    SilenceRules(topic, s.timeline);
  }

  lemma SubmitSilent(topic: Topic, s: State, run: nat)
    ensures Silent(topic, s.timeline, QueueSubmission(s, run).state.timeline)
  {
    hide Silent, Emit, NotReady, Incomplete, SavedDraft, OpenRequest, NewRequest, Outbox.CancelPending,
      Outbox.Enqueue;
    SilenceRules(topic, s.timeline);
  }

  lemma RunCallSilent(topic: Topic, s: State, run: nat)
    requires topic != RunMoved
    ensures Silent(topic, s.timeline, ApproveConnection(s, run).state.timeline)
    ensures Silent(topic, s.timeline, RetryRun(s, run).state.timeline)
    ensures Silent(topic, s.timeline, AbortRun(s, run).state.timeline)
  {
    hide Silent, Emit, Outbox.Supersede, Outbox.Enqueue, FailedUnseen;
    SilenceRules(topic, s.timeline);
  }

  lemma OtherCallSilent(topic: Topic, p: Policy, s: State, call: Call)
    requires !AboutSteps(call) && if topic == RunMoved then !AboutRuns(call) else !call.NewRun?
    ensures var t := Apply(p, s, call);
            Silent(topic, s.timeline, t.timeline) && t.steps == s.steps && t.executions == s.executions
  {
    hide Silent, Emit, CreateActivityDraft, SaveActivityDraft, QueueSubmission, ApproveConnection, RetryRun, AbortRun;
    SilenceRules(topic, s.timeline);
    match call
    case Connect(run) => RunCallSilent(topic, s, run);
    case Retry(run) => RunCallSilent(topic, s, run);
    case Abort(run) => RunCallSilent(topic, s, run);
    case WriteDraft(run, draft) => DraftSilent(topic, p, s, run, draft, true);
    case SaveDraft(run, draft) => DraftSilent(topic, p, s, run, draft, true);
    case SubmitActivity(run) => SubmitSilent(topic, s, run);
    case _ =>
  }

  // ---- the worker --------------------------------------------------------------------------------

  lemma StartSilent(topic: Topic, s: State, run: nat, step: nat)
    requires topic != StepProgress
    ensures Silent(topic, s.timeline, StartExecution(s, run, step).state.timeline)
  {
    hide Silent, Emit;
    SilenceRules(topic, s.timeline);
  }

  lemma OutputSilent(topic: Topic, s: State, run: nat, id: nat, stream: Stream, kept: string, redacted: bool)
    requires topic != OutputDropped && id in s.executions.rows
    ensures Silent(topic, s.timeline, MarkTruncated(s, run, id).timeline)
    ensures Silent(topic, s.timeline, StoreChunk(s, run, id, stream, kept, redacted).timeline)
  {
    hide Silent, Emit, ChunksFor, Table.OfRun, Utf8.Size;
    SilenceRules(topic, s.timeline);
  }

  lemma AppendSilent(topic: Topic, p: Policy, s: State, run: nat, id: nat, stream: Stream, content: string,
      redacted: bool)
    requires topic != OutputDropped
    ensures Silent(topic, s.timeline, AppendChunk(p, s, run, id, stream, content, redacted).state.timeline)
  {
    hide Silent, MarkTruncated, StoreChunk, Stored, Utf8.Size, Utf8.Fitting;
    SilentStill(topic, s.timeline);
    if s.executions.Has(run, id) {
      var (clean, changed) := p.redact(content);
      var kept := Utf8.Fitting(clean, s.executions.rows[id].data.limit - Stored(s, id));
      var s1 := StoreChunk(s, run, id, stream, kept, redacted || changed);
      OutputSilent(topic, s, run, id, stream, kept, redacted || changed);
      OutputSilent(topic, s1, run, id, stream, kept, false);
      SilentThen(topic, s.timeline, s1.timeline, MarkTruncated(s1, run, id).timeline);
    }
  }

  lemma {:induction false} RecoverBelowSilent(topic: Topic, s: State, bound: nat)
    ensures Silent(topic, s.timeline, RecoverBelow(s, bound).timeline)
    decreases bound
  {
    hide Silent, Emit, Outbox.Stale, Outbox.Recovered;
    SilenceRules(topic, s.timeline);
    if bound > 0 { RecoverBelowSilent(topic, s, bound - 1); }
  }

  lemma RequestWorkSilent(topic: Topic, s: State, run: nat, id: nat, activityId: int, terminal: bool)
    ensures Silent(topic, s.timeline, MarkActivityCreated(s, run, id, activityId).state.timeline)
    ensures Silent(topic, s.timeline, FailRequest(s, run, id, terminal).state.timeline)
  {
    hide Silent, Emit, FailedStatus, Table.Put, Table.OfRun, Table.Ids;
    SilenceRules(topic, s.timeline);
  }

  lemma CompletedSilent(topic: Topic, s: State, run: nat, id: nat)
    requires topic != RunMoved
    ensures Silent(topic, s.timeline, MarkCompleted(s, run, id).state.timeline)
  {
    hide Silent, Emit;
    SilenceRules(topic, s.timeline);
  }

  lemma ClaimSilent(topic: Topic, y: System)
    ensures Silent(topic, y.store.timeline, ClaimEvent(y).store.timeline)
  {
    hide Silent, RecoverBelow, Recoveries, StaleIds, Outbox.FirstClaimable, Outbox.Claim;
    RecoverBelowSilent(topic, y.store, y.store.queue.next);
  }

  lemma NotesSilent(topic: Topic, y: System, event: nat, run: nat, step: nat, name: string)
    ensures Silent(topic, y.store.timeline, ReadPlannerContext(y, event, run).store.timeline)
    ensures Silent(topic, y.store.timeline, CheckNotAborted(y, event, run, step).store.timeline)
    ensures Silent(topic, y.store.timeline, AppendEvent(y.store, run, name).state.timeline)
  {
    hide Silent, Emit, PlanningPointless;
    SilentStill(topic, y.store.timeline);
    EmitSilent(topic, y.store, run, Informational("agent.plan_skipped"));
    EmitSilent(topic, y.store, run, Informational("agent.context_built"));
    EmitSilent(topic, y.store, run, Informational("command.skipped"));
    EmitSilent(topic, y.store, run, Informational(name));
  }

  lemma FailSilent(topic: Topic, s: State, id: nat)
    ensures Silent(topic, s.timeline, FailOutbox(s, id).state.timeline)
  {
    hide Silent, Emit, FailRequest;
    SilenceRules(topic, s.timeline);
    if id in s.queue.events && s.queue.events[id].job.Submit? {
      var e := s.queue.events[id];
      RequestWorkSilent(topic, PutOutboxEvent(s, id, Outbox.FailedDelivery(e, s.clock)), e.run, e.job.requestId, 0,
        Outbox.LastAttempt(e));
    }
  }

  /** What the worker may do without writing about a topic. */
  predicate OffTopic(topic: Topic, a: Action) {
    && !a.Propose?
    && match topic
       case StepProgress => !a.Start?
       case OutputDropped => !a.Receive?
       case RunMoved => !a.Finish? && !a.CompleteSubmission?
  }

  lemma OtherWorkSilent(topic: Topic, p: Policy, y: System, a: Action)
    requires Enabled(y.stage, a) && OffTopic(topic, a)
    ensures Silent(topic, y.store.timeline, Work(p, y, a).store.timeline)
  {
    hide Silent, StartExecution, AppendChunk, CompleteExecution, CreateActivityDraft, MarkActivityCreated,
      MarkCompleted, FailRequest, FailOutbox, AskForActivity, InvokeRunner, TakeRequest, ClaimEvent,
      ReadPlannerContext, CheckNotAborted, AppendEvent;
    SilentStill(topic, y.store.timeline);
    var s, at := y.store, y.stage;
    match a
    case Start => StartSilent(topic, s, at.run, at.step);
    case Receive(stream, content) =>
      AppendSilent(topic, p, s, at.run, at.execution, stream, p.redact(content).0, p.redact(content).1);
    case Finish(exitCode, error, timedOut) =>
      CompleteExecutionSilent(topic, p, s, at.run, at.execution, exitCode, error, timedOut);
    case Draft(draft) => DraftSilent(topic, p, s, at.run, draft, false);
    case RecordActivity => RequestWorkSilent(topic, s, at.run, at.request, at.activity, false);
    case CompleteSubmission => CompletedSilent(topic, s, at.run, at.request);
    case FailSubmission => RequestWorkSilent(topic, s, at.run, at.request, 0, false);
    case Fail => FailSilent(topic, s, at.event);
    case Claim => ClaimSilent(topic, y);
    case ReadContext => NotesSilent(topic, y, at.event, at.run, 0, "");
    case CheckRun => NotesSilent(topic, y, at.event, at.run, at.job.stepId, "");
    case Remark(name) => NotesSilent(topic, y, 0, at.run, 0, name);
    case _ =>
  }
}
