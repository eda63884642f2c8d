/** Facts about every call, every step of the worker and every run of the system. */
module Runs {
  import opened Wrappers
  import opened Tables
  import opened Model
  import opened Store
  import opened Indexing
  import opened History
  import opened Footprints
  import opened Delivery
  import Outbox

  /** The run a call is about; a new run is about itself. */
  function Scope(s: State, call: Call): nat {
    match call
    case NewRun(_, _) => s.nextRun
    case Connect(run) => run
    case EnterStep(run, _, _, _) => run
    case Approve(run, _) => run
    case EditAndApprove(run, _, _, _) => run
    case Reject(run, _) => run
    case Retry(run) => run
    case Abort(run) => run
    case NoBackupNeeded(run, _) => run
    case ProposeRestoreOf(run, _, _) => run
    case WriteDraft(run, _) => run
    case SaveDraft(run, _) => run
    case SubmitActivity(run) => run
  }

  /**
   * Whatever a call does, and whether or not it raises: the lists still index the records, nothing
   * recorded is lost or rewritten, and every other run's records, events and queued work are untouched.
   */
  lemma EveryCallStaysInItsRun(p: Policy, s: State, call: Call)
    requires Indexed(s)
    ensures Indexed(Apply(p, s, call)) && Advances(s, Apply(p, s, call), Scope(s, call))
  {
    hide Indexed, Advances, CreateRun, ApproveConnection, CreateManualStep, ApproveStep, EditAndApproveStep, RejectStep,
      RetryRun, AbortRun, RecordBackupNotApplicable, ProposeRestore, CreateActivityDraft, SaveActivityDraft,
      QueueSubmission;
    match call
    case NewRun(ticketId, snapshot) => CreateRunReaches(s, ticketId, snapshot);
    case Connect(run) => ApproveConnectionReaches(s, run);
    case EnterStep(run, command, purpose, phase) => CreateManualStepReaches(p, s, run, command, purpose, phase);
    case Approve(run, step) => ApproveStepReaches(p, s, run, step);
    case EditAndApprove(run, step, command, purpose) => EditAndApproveStepReaches(p, s, run, step, command, purpose);
    case Reject(run, step) => RejectStepReaches(s, run, step);
    case Retry(run) => RetryRunReaches(s, run);
    case Abort(run) => AbortRunReaches(s, run);
    case NoBackupNeeded(run, path) => RecordBackupNotApplicableReaches(s, run, path);
    case ProposeRestoreOf(run, record, reason) => ProposeRestoreReaches(p, s, run, record, reason);
    case WriteDraft(run, draft) => CreateActivityDraftReaches(p, s, run, draft);
    case SaveDraft(run, draft) => SaveActivityDraftReaches(p, s, run, draft, true);
    case SubmitActivity(run) => QueueSubmissionReaches(s, run);
  }

  lemma Forward(s: State, t: State, run: nat)
    requires Reaches(s, t, run)
    ensures Indexed(t) && Later(s, t)
  {
    hide Indexed, Advances, Later;
    AdvancesLater(s, t, run);
  }

  lemma ClockForward(s: State, clock: int)
    requires Indexed(s)
    ensures Indexed(s.(clock := clock)) && Later(s, s.(clock := clock))
  {
    hide Table.Indexed, TimelineIndexed, QueueIndexed, Owned, Preserved, StepsLater, ExecutionsLater, ExpectationsLater,
      EventsKept;
    LaterStill(s);
  }

  /** The run an action is about: a call's own, or the one whose event the worker holds. */
  function RunAtHand(y: System, a: Action): nat {
    match a
    case Api(call) => Scope(y.store, call)
    case _ =>
      if y.stage.Idle? then 0
      else if y.stage.Finished? || y.stage.Failing? then
        if y.stage.event in y.store.queue.events then y.store.queue.events[y.stage.event].run else 0
      else y.stage.run
  }

  lemma WorkReaches(p: Policy, y: System, a: Action)
    requires Enabled(y.stage, a) && a != Claim && Indexed(y.store)
    ensures Reaches(y.store, Work(p, y, a).store, RunAtHand(y, a))
  {
    hide Indexed, Advances, Emit, AppendEvent, ProposeAgentStep, StartExecution, AppendChunk, CompleteExecution,
      CreateActivityDraft, MarkProcessing, MarkActivityCreated, MarkCompleted, FailRequest, CompleteOutbox, FailOutbox;
    var at := y.stage;
    Nothing(y.store, RunAtHand(y, a));
    match a
    case ReadContext =>
      RemarkReaches(y.store, at.run, "agent.plan_skipped");
      RemarkReaches(y.store, at.run, "agent.context_built");
    case CheckRun => RemarkReaches(y.store, at.run, "command.skipped");
    case Remark(name) => AppendEventReaches(y.store, at.run, name);
    case Propose(command, purpose, phase) => ProposeAgentStepReaches(p, y.store, at.run, command, purpose, phase);
    case Start => StartExecutionReaches(y.store, at.run, at.step);
    case Receive(stream, content) =>
      AppendChunkReaches(p, y.store, at.run, at.execution, stream, p.redact(content).0, p.redact(content).1);
    case Finish(exitCode, error, timedOut) =>
      CompleteExecutionReaches(p, y.store, at.run, at.execution, exitCode, error, timedOut);
    case Draft(draft) => CreateActivityDraftReaches(p, y.store, at.run, draft);
    case BeginSubmission => MarkProcessingReaches(y.store, at.run, at.job.requestId);
    case RecordActivity => MarkActivityCreatedReaches(y.store, at.run, at.request, at.activity);
    case CompleteSubmission => MarkCompletedReaches(y.store, at.run, at.request);
    case FailSubmission => FailRequestReaches(y.store, at.run, at.request, false);
    case Acknowledge => AcknowledgedReaches(y.store, at.event);
    case Fail => FailedReaches(y.store, at.event);
    case _ =>
  }

  lemma RemarkReaches(s: State, run: nat, name: string)
    requires Indexed(s)
    ensures run in s.runs ==> Reaches(s, Emit(s, run, Informational(name)), run)
  {
    hide Indexed, Advances, Emit;
    if run in s.runs { EmitReaches(s, run, Informational(name)); }
  }

  lemma AcknowledgedReaches(s: State, id: nat)
    requires Indexed(s)
    ensures Reaches(s, CompleteOutbox(s, id), if id in s.queue.events then s.queue.events[id].run else 0)
  {
    hide Indexed, Advances;
    Nothing(s, 0);
    if id in s.queue.events { CompleteOutboxReaches(s, id); }
  }

  lemma FailedReaches(s: State, id: nat)
    requires Indexed(s)
    ensures Reaches(s, FailOutbox(s, id).state, if id in s.queue.events then s.queue.events[id].run else 0)
  {
    hide Indexed, Advances, FailRequest;
    Nothing(s, 0);
    if id in s.queue.events { FailOutboxReaches(s, id); }
  }

  /**
   * Whoever acts, and whether or not the operation raises: the lists still index the records, nothing recorded is lost
   * or rewritten, and every run but the one at hand keeps its records, events, drafts, byte counters and queued work.
   * Only claiming, which recovers stale events of any run, is not bound to one.
   */
  lemma NextStaysInItsRun(p: Policy, y: System, a: Action)
    requires a != Claim && !a.Wait? && Indexed(y.store)
    ensures Indexed(Next(p, y, a).store) && Advances(y.store, Next(p, y, a).store, RunAtHand(y, a))
  {
    hide Indexed, Advances, Apply, Enabled, Work;
    Still(y.store, RunAtHand(y, a));
    match a
    case Api(call) =>
      EveryCallStaysInItsRun(p, y.store, call);
    case _ => if Enabled(y.stage, a) { WorkReaches(p, y, a); }
  }

  /** Recovery reports on no run without a stale event. */
  lemma {:induction false} RecoverySpares(s: State, bound: nat, run: nat)
    requires forall id :: id in s.queue.events && s.queue.events[id].run == run ==>
      !Outbox.Stale(s.queue.events[id], s.clock)
    ensures RecoverBelow(s, bound).timeline.Of(run) == s.timeline.Of(run)
    decreases bound
  {
    hide Outbox.Stale, Outbox.Recovered;
    if bound > 0 { RecoverySpares(s, bound - 1, run); }
  }

  /** A run with no stale event, and not the claimed one, does not notice a claim. */
  lemma ClaimSparesTheRest(s: State, run: nat)
    requires Indexed(s)
    requires forall id :: id in s.queue.events && s.queue.events[id].run == run ==>
      !Outbox.Stale(s.queue.events[id], s.clock) && ClaimNext(s).result != Success(Some(id))
    ensures var t := ClaimNext(s).state;
            && t == s.(timeline := t.timeline, queue := t.queue) && t.timeline.Of(run) == s.timeline.Of(run)
            && forall id :: id in s.queue.events && s.queue.events[id].run == run ==>
              id in t.queue.events && t.queue.events[id] == s.queue.events[id]
  {
    hide Indexed, Later, Outbox.Stale, Outbox.Recovered, RecoverBelow, Outbox.FirstClaimable;
    RecoverBelowKeeps(s, s.queue.next);
    RecoverySpares(s, s.queue.next, run);
  }

  lemma WorkForward(p: Policy, y: System, a: Action)
    requires Indexed(y.store) && Enabled(y.stage, a)
    ensures Indexed(Work(p, y, a).store) && Later(y.store, Work(p, y, a).store)
  {
    hide Indexed, Later, Advances, Enabled, RunAtHand;
    if a == Claim {
      hide ClaimNext, Recoveries, StaleIds;
      ClaimNextKeeps(y.store);
    } else {
      hide Work;
      WorkReaches(p, y, a);
      Forward(y.store, Work(p, y, a).store, RunAtHand(y, a));
    }
  }

  /** One action of anyone keeps the lists in order and never loses or rewrites a record. */
  lemma NextForward(p: Policy, y: System, a: Action)
    requires Indexed(y.store)
    ensures Indexed(Next(p, y, a).store) && Later(y.store, Next(p, y, a).store)
  {
    hide Indexed, Later, Advances, Apply, Enabled, Work;
    LaterStill(y.store);
    match a
    case Api(call) =>
      EveryCallStaysInItsRun(p, y.store, call);
      AdvancesLater(y.store, Apply(p, y.store, call), Scope(y.store, call));
    case Wait(seconds) => ClockForward(y.store, y.store.clock + seconds);
    case _ => if Enabled(y.stage, a) { WorkForward(p, y, a); }
  }

  lemma ProposeAgentStepReaches(p: Policy, s: State, run: nat, command: string, purpose: string, phase: Phase)
    requires Indexed(s)
    ensures Reaches(s, ProposeAgentStep(p, s, run, command, purpose, phase).state, run)
  {
    hide Indexed, Advances, CreateStep;
    CreateStepReaches(p, s, run, Agent, command, purpose, phase);
  }

  /** In every run of the system the lists index the records. */
  lemma {:induction false} AlwaysIndexed(p: Policy, limit: nat, clock: int, actions: seq<Action>)
    ensures Indexed(After(p, Begin(limit, clock), actions).store)
    decreases |actions|
  {
    hide Indexed, Later, Next;
    if actions == [] {
      InitialIndexed(limit, clock);
    } else {
      AlwaysIndexed(p, limit, clock, actions[..|actions| - 1]);
      NextForward(p, After(p, Begin(limit, clock), actions[..|actions| - 1]), actions[|actions| - 1]);
    }
  }

  /** From any state on, no sequence of actions loses or rewrites anything that was recorded. */
  lemma {:induction false} HistoryIsKept(p: Policy, y: System, actions: seq<Action>)
    requires Indexed(y.store)
    ensures Indexed(After(p, y, actions).store) && Later(y.store, After(p, y, actions).store)
    decreases |actions|
  {
    hide Indexed, Later, Next;
    LaterStill(y.store);
    if actions != [] {
      var before := After(p, y, actions[..|actions| - 1]);
      HistoryIsKept(p, y, actions[..|actions| - 1]);
      NextForward(p, before, actions[|actions| - 1]);
      LaterThen(y.store, before.store, After(p, y, actions).store);
    }
  }
}
