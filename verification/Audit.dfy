/** In every run of the system the timeline alone tells the state of every run. */
module Audit {
  import opened Wrappers
  import opened Tables
  import opened Model
  import opened Store
  import opened Indexing
  import opened History
  import opened Footprints
  import opened Silence
  import opened Replay
  import opened Delivery
  import opened Runs
  import Outbox

  /** A call about a run that does not exist changes no run. */
  lemma UnknownRun(p: Policy, s: State, call: Call)
    requires !call.NewRun? && Scope(s, call) !in s.runs
    ensures Apply(p, s, call).runs == s.runs
  {
    hide Outbox.CancelPending;
  }

  lemma CallAgrees(p: Policy, s: State, call: Call)
    requires Indexed(s) && Faithful(s) && Scope(s, call) in s.runs
    requires !call.NewRun? && (AboutSteps(call) || AboutRuns(call))
    ensures Scope(s, call) in Apply(p, s, call).runs ==> Agrees(Apply(p, s, call), Scope(s, call))
  {
    hide Indexed, Agrees, CreateRun, ApproveConnection, CreateManualStep, ApproveStep, EditAndApproveStep, RejectStep,
      RetryRun, AbortRun, RecordBackupNotApplicable, ProposeRestore, CreateActivityDraft, SaveActivityDraft,
      QueueSubmission;
    match call
    case Connect(run) => ApproveConnectionAgrees(s, run);
    case EnterStep(run, command, purpose, phase) => CreateManualStepAgrees(p, s, run, command, purpose, phase);
    case Approve(run, step) => ApproveStepAgrees(p, s, run, step);
    case EditAndApprove(run, step, command, purpose) => EditAndApproveStepAgrees(p, s, run, step, command, purpose);
    case Reject(run, step) => RejectStepAgrees(s, run, step);
    case Retry(run) => RetryRunAgrees(s, run);
    case Abort(run) => AbortRunAgrees(s, run);
    case ProposeRestoreOf(run, record, reason) => ProposeRestoreAgrees(p, s, run, record, reason);
  }

  /** The other calls change nothing a reader of the timeline is told about. */
  lemma OtherCallFaithful(p: Policy, s: State, call: Call)
    requires Faithful(s) && !AboutSteps(call) && !AboutRuns(call)
    ensures Faithful(Apply(p, s, call))
  {
    OtherCallUnmoved(p, s, call);
    OtherCallSilent(RunMoved, p, s, call);
    hide *;
    SilentFaithful(s, Apply(p, s, call));
  }

  lemma OtherCallUnmoved(p: Policy, s: State, call: Call)
    requires !AboutSteps(call) && !AboutRuns(call)
    ensures Unmoved(s, Apply(p, s, call))
  {
    hide NotReady, Incomplete, SavedDraft, OpenRequest, NewRequest, Outbox.CancelPending, Outbox.Enqueue;
  }

  lemma CallFaithful(p: Policy, s: State, call: Call)
    requires Indexed(s) && Faithful(s)
    ensures Faithful(Apply(p, s, call))
  {
    hide Indexed, Agrees, Advances, Faithful, CreateRun, AboutSteps;
    EveryCallStaysInItsRun(p, s, call);
    if !AboutSteps(call) && !AboutRuns(call) {
      OtherCallFaithful(p, s, call);
      return;
    }
    if call.NewRun? {
      CreateRunAgrees(s, call.ticketId, call.snapshot);
      hide Scope;
      assert Apply(p, s, call) == CreateRun(s, call.ticketId, call.snapshot).state;
    } else if Scope(s, call) in s.runs {
      CallAgrees(p, s, call);
    } else {
      UnknownRun(p, s, call);
    }
    FaithfulAfter(s, Apply(p, s, call), Scope(s, call));
  }

  /** One run's agreement is all an operation on it has to show. */
  lemma ReachesFaithful(s: State, t: State, run: nat)
    requires Faithful(s) && Reaches(s, t, run) && (run in t.runs ==> Agrees(t, run))
    ensures Faithful(t)
  {
    hide Indexed, Advances, Agrees, Faithful;
    FaithfulAfter(s, t, run);
  }

  lemma FinishFaithful(p: Policy, s: State, run: nat, id: nat, exitCode: Option<int>, error: Option<string>,
      timedOut: bool)
    requires Indexed(s) && Faithful(s)
    ensures Faithful(CompleteExecution(p, s, run, id, exitCode, error, timedOut).state)
  {
    hide Indexed, Advances, Settle, WithOutcome;
    if run in s.runs {
      CompleteExecutionAgrees(p, s, run, id, exitCode, error, timedOut);
      CompleteExecutionReaches(p, s, run, id, exitCode, error, timedOut);
      ReachesFaithful(s, CompleteExecution(p, s, run, id, exitCode, error, timedOut).state, run);
    }
  }

  lemma ProposeFaithful(p: Policy, s: State, run: nat, command: string, purpose: string, phase: Phase)
    requires Indexed(s) && Faithful(s)
    ensures Faithful(ProposeAgentStep(p, s, run, command, purpose, phase).state)
  {
    hide Indexed, Advances, AnnounceStep, PlanBackup, NewStep;
    if run in s.runs {
      CreateStepAgrees(p, s, run, Agent, command, purpose, phase);
      CreateStepReaches(p, s, run, Agent, command, purpose, phase);
      ReachesFaithful(s, CreateStep(p, s, run, Agent, command, purpose, phase).state, run);
    }
  }

  lemma SubmittedFaithful(s: State, run: nat, id: nat)
    requires Indexed(s) && Faithful(s)
    ensures Faithful(MarkCompleted(s, run, id).state)
  {
    hide Indexed, Advances;
    if run in s.runs {
      MarkCompletedAgrees(s, run, id);
      MarkCompletedReaches(s, run, id);
      ReachesFaithful(s, MarkCompleted(s, run, id).state, run);
    }
  }

  /** Work off the topic changes no status, pending step or check. */
  lemma OtherWorkUnmoved(p: Policy, y: System, a: Action)
    requires Enabled(y.stage, a) && OffTopic(RunMoved, a)
    ensures Unmoved(y.store, Work(p, y, a).store)
  {
    hide NotReady, Incomplete, ClaimEvent, InvokeRunner, AskForActivity, MarkActivityCreated, FailRequest;
  }

  lemma WorkFaithful(p: Policy, y: System, a: Action)
    requires Indexed(y.store) && Faithful(y.store) && Enabled(y.stage, a)
    ensures Faithful(Work(p, y, a).store)
  {
    hide Indexed, Faithful, Unmoved, Silent, ClaimEvent, ReadPlannerContext, CheckNotAborted, StartCommand,
      InvokeRunner, ReceiveOutput, TakeRequest, AskForActivity, AppendEvent, ProposeAgentStep, CompleteExecution,
      CreateActivityDraft, MarkActivityCreated, MarkCompleted, FailRequest, FailOutbox, CompleteOutbox;
    var s, at := y.store, y.stage;
    if a.Propose? {
      ProposeFaithful(p, s, at.run, a.command, a.purpose, a.phase);
    } else if a.Finish? {
      FinishFaithful(p, s, at.run, at.execution, a.exitCode, a.error, a.timedOut);
    } else if a.CompleteSubmission? {
      SubmittedFaithful(s, at.run, at.request);
    } else {
      OtherWorkUnmoved(p, y, a);
      OtherWorkSilent(RunMoved, p, y, a);
      SilentFaithful(s, Work(p, y, a).store);
    }
  }

  lemma NextFaithful(p: Policy, y: System, a: Action)
    requires Indexed(y.store) && Faithful(y.store)
    ensures Faithful(Next(p, y, a).store)
  {
    hide Indexed, Faithful, Silent, Apply, Enabled, Work;
    match a
    case Api(call) => CallFaithful(p, y.store, call);
    case Wait(seconds) =>
      SilentStill(RunMoved, y.store.timeline);
      SilentFaithful(y.store, Next(p, y, a).store);
    case _ => if Enabled(y.stage, a) { WorkFaithful(p, y, a); }
  }

  /**
   * After any interleaving of calls, worker steps and crashes, folding a run's timeline from nothing gives
   * exactly its status, its pending step and the status of each of its expectations.
   */
  lemma {:induction false} TimelineTellsTheState(p: Policy, limit: nat, clock: int, actions: seq<Action>, run: nat)
    requires run in After(p, Begin(limit, clock), actions).store.runs
    ensures var s := After(p, Begin(limit, clock), actions).store;
            var v := ReadAll(s.timeline.Of(run));
            && v.status == s.runs[run].status
            && v.pending == s.runs[run].pending
            && (forall id :: id in v.checks <==> s.expectations.Has(run, id))
            && (forall id :: s.expectations.Has(run, id) ==> v.checks[id] == s.expectations.rows[id].data.status)
  {
    hide After, ReadAll;
    AlwaysFaithful(p, limit, clock, actions);
  }

  lemma {:induction false} AlwaysFaithful(p: Policy, limit: nat, clock: int, actions: seq<Action>)
    ensures Faithful(After(p, Begin(limit, clock), actions).store)
    decreases |actions|
  {
    if actions != [] {
      hide Indexed, Faithful, Next;
      AlwaysFaithful(p, limit, clock, actions[..|actions| - 1]);
      AlwaysIndexed(p, limit, clock, actions[..|actions| - 1]);
      NextFaithful(p, After(p, Begin(limit, clock), actions[..|actions| - 1]), actions[|actions| - 1]);
    }
  }
}
