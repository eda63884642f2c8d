/**
 * One worker, any number of API callers, and a worker that may crash between any two of its steps
 * (backend/app/worker.py and the command and planner workflows of backend/app/agent_graph.py).
 * An action that is not enabled leaves the system as it is, so every list of actions is a run.
 */
module Delivery {
  import opened Wrappers
  import opened Tables
  import opened Model
  import opened Store
  import Outbox
  import Utf8

  /** The routes' calls on the store. */
  datatype Call =
    | NewRun(ticketId: int, snapshot: string)
    | Connect(run: nat)
    | EnterStep(run: nat, command: string, purpose: string, phase: Phase)
    | Approve(run: nat, step: nat)
    | EditAndApprove(run: nat, step: nat, command: string, newPurpose: Option<string>)
    | Reject(run: nat, step: nat)
    | Retry(run: nat)
    | Abort(run: nat)
    | NoBackupNeeded(run: nat, path: Option<string>)
    | ProposeRestoreOf(run: nat, record: nat, reason: string)
    | WriteDraft(run: nat, draft: Draft)
    | SaveDraft(run: nat, draft: Draft)
    | SubmitActivity(run: nat)

  function Apply(p: Policy, s: State, call: Call): State {
    match call
    case NewRun(ticketId, snapshot) => CreateRun(s, ticketId, snapshot).state
    case Connect(run) => ApproveConnection(s, run).state
    case EnterStep(run, command, purpose, phase) => CreateManualStep(p, s, run, command, purpose, phase).state
    case Approve(run, step) => ApproveStep(p, s, run, step).state
    case EditAndApprove(run, step, command, purpose) => EditAndApproveStep(p, s, run, step, command, purpose).state
    case Reject(run, step) => RejectStep(s, run, step).state
    case Retry(run) => RetryRun(s, run).state
    case Abort(run) => AbortRun(s, run).state
    case NoBackupNeeded(run, path) => RecordBackupNotApplicable(s, run, path).state
    case ProposeRestoreOf(run, record, reason) => ProposeRestore(p, s, run, record, reason).state
    case WriteDraft(run, draft) => CreateActivityDraft(p, s, run, draft).state
    case SaveDraft(run, draft) => SaveActivityDraft(p, s, run, draft, true).state
    case SubmitActivity(run) => QueueSubmission(s, run).state
  }

  /** Where the worker is with the event it holds. */
  datatype Stage =
    | Idle
    | Claimed(event: nat, run: nat, job: Job)
    | Thinking(event: nat, run: nat)
    | Cleared(event: nat, run: nat, step: nat)
    | Launched(event: nat, run: nat, execution: nat)
    | InFlight(event: nat, run: nat, execution: nat)
    | Submitting(event: nat, run: nat, request: nat, known: Option<int>)
    | Created(event: nat, run: nat, request: nat, activity: int)
    | Recorded(event: nat, run: nat, request: nat)
    | TicketClosed(event: nat, run: nat, request: nat)
    | SubmissionFailed(event: nat, run: nat, request: nat)
    | Finished(event: nat)
    | Failing(event: nat)

  /** A call of the remote runner. */
  datatype Invocation = Invocation(execution: nat, step: nat, command: string)

  /** What happened to an outbox event, in order. */
  datatype Delivery =
    | WasClaimed(event: nat)
    | WasRecovered(event: nat)
    | WasAcknowledged(event: nat)
    | HasFailed(event: nat)

  /** The store, the worker, and a record of what the worker did to the outside world. */
  datatype System = System(
    store: State,
    stage: Stage,
    invocations: seq<Invocation>,
    creations: seq<nat>,
    offered: map<nat, nat>,
    deliveries: seq<Delivery>)

  datatype Action =
    | Api(call: Call)
    | Wait(seconds: nat)
    | Claim
    | ReadContext
    | Remark(name: string)
    | Propose(command: string, purpose: string, phase: Phase)
    | CheckRun
    | Start
    | Invoke
    | Receive(stream: Stream, content: string)
    | Finish(exitCode: Option<int>, error: Option<string>, timedOut: bool)
    | Draft(draft: Draft)
    | BeginSubmission
    | CreateActivity(answer: Option<int>)
    | RecordActivity
    | CloseTicket(succeeded: bool)
    | CompleteSubmission
    | FailSubmission
    | Break
    | Acknowledge
    | Fail
    | Crash

  function Begin(limit: nat, clock: int): System { System(Initial(limit, clock), Idle, [], [], map[], []) }

  function StaleIds(q: Queue, now: int, bound: nat): seq<nat>
    decreases bound
  {
    if bound == 0 then []
    else StaleIds(q, now, bound - 1) + if bound - 1 in q.events && Outbox.Stale(q.events[bound - 1], now)
      then [bound - 1] else []
  }

  function Recoveries(ids: seq<nat>): seq<Delivery> {
    if ids == [] then [] else [WasRecovered(ids[0])] + Recoveries(ids[1..])
  }

  /** Success moves on, an exception fails the delivery. */
  function Branch<T>(y: System, reply: Reply<T>, onSuccess: Stage, event: nat): System {
    y.(store := reply.state, stage := if reply.result.Success? then onSuccess else Failing(event))
  }

  function ClaimEvent(y: System): (z: System)
    ensures z == y.(store := y.store.(timeline := z.store.timeline, queue := z.store.queue), stage := z.stage,
      deliveries := z.deliveries)
    ensures z.stage == y.stage || z.stage.Claimed?
  {
    var reply := ClaimNext(y.store);
    var recovered := Recoveries(StaleIds(y.store.queue, y.store.clock, y.store.queue.next));
    if reply.result.Success? && reply.result.value.Some? && reply.result.value.value in reply.state.queue.events then
      var id := reply.result.value.value;
      var e := reply.state.queue.events[id];
      y.(store := reply.state, stage := Claimed(id, e.run, e.job),
        deliveries := y.deliveries + recovered + [WasClaimed(id)])
    else y.(store := reply.state, deliveries := y.deliveries + recovered)
  }

  /** The planner gives up on runs that ended, are ready, or already have a pending step. */
  predicate PlanningPointless(run: Run) {
    run.status == Aborted || run.status == ReadyForActivity || run.status == Submitted
      || run.status == RunStatus.Failed || run.pending.Some?
  }

  function ReadPlannerContext(y: System, event: nat, run: nat): (z: System)
    ensures z == y.(store := y.store.(timeline := z.store.timeline), stage := z.stage)
    ensures z.stage == Stage.Finished(event) || z.stage == Failing(event)
      || (z.stage == Thinking(event, run) && run in y.store.runs && !PlanningPointless(y.store.runs[run]))
  {
    if run !in y.store.runs then y.(stage := Failing(event))
    else if PlanningPointless(y.store.runs[run])
    then y.(store := Emit(y.store, run, Informational("agent.plan_skipped")), stage := Stage.Finished(event))
    else y.(store := Emit(y.store, run, Informational("agent.context_built")), stage := Thinking(event, run))
  }

  function CheckNotAborted(y: System, event: nat, run: nat, step: nat): (z: System)
    ensures z == y.(store := y.store.(timeline := z.store.timeline), stage := z.stage)
    ensures z.stage == Stage.Finished(event) || z.stage == Failing(event) || z.stage == Cleared(event, run, step)
  {
    if run !in y.store.runs then y.(stage := Failing(event))
    else if y.store.runs[run].status == Aborted
    then y.(store := Emit(y.store, run, Informational("command.skipped")), stage := Stage.Finished(event))
    else y.(stage := Cleared(event, run, step))
  }

  function StartCommand(y: System, event: nat, run: nat, step: nat): (z: System)
    ensures z == y.(store := z.store, stage := z.stage, offered := z.offered)
    ensures z.store == y.store.(timeline := z.store.timeline, executions := z.store.executions,
      storedBytes := z.store.storedBytes)
    ensures z.stage.Failing? || z.stage.Launched?
  {
    var reply := StartExecution(y.store, run, step);
    if reply.result.Failure? then y.(stage := Failing(event))
    else y.(store := reply.state, stage := Launched(event, run, reply.result.value),
      offered := y.offered[reply.result.value := 0])
  }

  /** The runner gets the command of the execution row. */
  function InvokeRunner(y: System, event: nat, run: nat, execution: nat): (z: System)
    ensures z == y.(stage := z.stage, invocations := z.invocations)
  {
    if execution !in y.store.executions.rows then y
    else
      var row := y.store.executions.rows[execution].data;
      y.(stage := InFlight(event, run, execution),
        invocations := y.invocations + [Invocation(execution, row.stepId, row.command)])
  }

  /** Output is redacted by the worker and once more by the store; empty pieces are never sent. */
  function ReceiveOutput(p: Policy, y: System, run: nat, execution: nat, stream: Stream, content: string): (z: System)
    ensures z == y.(store := z.store, offered := z.offered)
    ensures z.store == y.store.(timeline := z.store.timeline, executions := z.store.executions,
      storedBytes := z.store.storedBytes, chunks := z.store.chunks)
  {
    if content == "" || stream.OtherStream? then y
    else
      var (clean, changed) := p.redact(content);
      var reply := AppendChunk(p, y.store, run, execution, stream, clean, changed);
      y.(store := reply.state, offered := y.offered[execution := Offered(y, execution) + Utf8.Size(p.redact(clean).0)])
  }

  function Offered(y: System, execution: nat): nat { if execution in y.offered then y.offered[execution] else 0 }

  function TakeRequest(y: System, event: nat, run: nat, request: nat): (z: System)
    ensures z == y.(store := y.store.(requests := z.store.requests), stage := z.stage)
    ensures z.stage.Failing? || z.stage.Finished? || z.stage.Submitting?
  {
    if run !in y.store.runs || !y.store.requests.Has(run, request) then y.(stage := Failing(event))
    else if y.store.requests.rows[request].data.status == RequestStatus.Completed
      then y.(stage := Stage.Finished(event))
    else y.(store := MarkProcessing(y.store, run, request).state,
            stage := Submitting(event, run, request, y.store.requests.rows[request].data.activityId))
  }

  /** Phoenix is only asked for an activity when the request does not carry one yet. */
  function AskForActivity(y: System, event: nat, run: nat, request: nat, known: Option<int>,
      answer: Option<int>): (z: System)
    ensures z == y.(stage := z.stage, creations := z.creations)
    ensures z.stage.Recorded? || z.stage.Created? || z.stage.SubmissionFailed?
  {
    if known.Some? then y.(stage := Recorded(event, run, request))
    else
      y.(creations := y.creations + [request],
         stage := if answer.Some? then Created(event, run, request, answer.value)
           else SubmissionFailed(event, run, request))
  }

  function Next(p: Policy, y: System, a: Action): System {
    match a
    case Api(call) => y.(store := Apply(p, y.store, call))
    case Wait(seconds) => y.(store := y.store.(clock := y.store.clock + seconds))
    case Crash => y.(stage := Idle)
    case _ => if Enabled(y.stage, a) then Work(p, y, a) else y
  }

  /** Which of its actions the worker can take at a stage. */
  predicate Enabled(stage: Stage, a: Action) {
    match a
    case Claim => stage.Idle?
    case ReadContext => stage.Claimed? && stage.job.Plan?
    case Remark(_) => stage.Thinking?
    case Propose(_, _, _) => stage.Thinking?
    case Break => stage.Thinking?
    case CheckRun => stage.Claimed? && stage.job.Execute?
    case Start => stage.Cleared?
    case Invoke => stage.Launched?
    case Receive(_, _) => stage.InFlight?
    case Finish(_, _, _) => stage.InFlight?
    case Draft(_) => stage.Claimed? && stage.job.DraftActivity?
    case BeginSubmission => stage.Claimed? && stage.job.Submit?
    case CreateActivity(_) => stage.Submitting?
    case RecordActivity => stage.Created?
    case CloseTicket(_) => stage.Recorded?
    case CompleteSubmission => stage.TicketClosed?
    case FailSubmission => stage.SubmissionFailed?
    case Acknowledge => stage.Finished?
    case Fail => stage.Failing?
    case _ => false
  }

  function Work(p: Policy, y: System, a: Action): System
    requires Enabled(y.stage, a)
  {
    var at := y.stage;
    match a
    case Claim => ClaimEvent(y)
    case ReadContext => ReadPlannerContext(y, at.event, at.run)
    case Remark(name) => y.(store := AppendEvent(y.store, at.run, name).state)
    case Propose(command, purpose, phase) =>
      Branch(y, ProposeAgentStep(p, y.store, at.run, command, purpose, phase), Stage.Finished(at.event), at.event)
    case Break => y.(stage := Failing(at.event))
    case CheckRun => CheckNotAborted(y, at.event, at.run, at.job.stepId)
    case Start => StartCommand(y, at.event, at.run, at.step)
    case Invoke => InvokeRunner(y, at.event, at.run, at.execution)
    case Receive(stream, content) => ReceiveOutput(p, y, at.run, at.execution, stream, content)
    case Finish(exitCode, error, timedOut) =>
      Branch(y, CompleteExecution(p, y.store, at.run, at.execution, exitCode, error, timedOut),
        Stage.Finished(at.event), at.event)
    case Draft(draft) => Branch(y, CreateActivityDraft(p, y.store, at.run, draft), Stage.Finished(at.event), at.event)
    case BeginSubmission => TakeRequest(y, at.event, at.run, at.job.requestId)
    case CreateActivity(answer) => AskForActivity(y, at.event, at.run, at.request, at.known, answer)
    case RecordActivity =>
      Branch(y, MarkActivityCreated(y.store, at.run, at.request, at.activity), Recorded(at.event, at.run, at.request),
        at.event)
    case CloseTicket(succeeded) =>
      y.(stage := if succeeded then TicketClosed(at.event, at.run, at.request)
        else SubmissionFailed(at.event, at.run, at.request))
    case CompleteSubmission => Branch(y, MarkCompleted(y.store, at.run, at.request), Stage.Finished(at.event), at.event)
    case FailSubmission =>
      y.(store := FailRequest(y.store, at.run, at.request, false).state, stage := Failing(at.event))
    case Acknowledge =>
      y.(store := CompleteOutbox(y.store, at.event), stage := Idle,
        deliveries := y.deliveries + [WasAcknowledged(at.event)])
    case Fail =>
      y.(store := FailOutbox(y.store, at.event).state, stage := Idle,
        deliveries := y.deliveries + [HasFailed(at.event)])
  }

  /** The system after a list of actions. */
  function After(p: Policy, y: System, actions: seq<Action>): System
    decreases |actions|
  {
    if actions == [] then y else Next(p, After(p, y, actions[..|actions| - 1]), actions[|actions| - 1])
  }

  lemma AfterUnfolds(p: Policy, y: System, actions: seq<Action>)
    ensures After(p, y, actions) ==
            if actions == [] then y else Next(p, After(p, y, actions[..|actions| - 1]), actions[|actions| - 1])
  {
    hide Next;
  }

  lemma {:induction false} AfterAppend(p: Policy, y: System, a: seq<Action>, b: seq<Action>)
    ensures After(p, y, a + b) == After(p, After(p, y, a), b)
    decreases |b|
  {
    hide Next;
    if b == [] {
      assert a + b == a;
    } else {
      assert (a + b)[..|a + b| - 1] == a + b[..|b| - 1];
      AfterAppend(p, y, a, b[..|b| - 1]);
    }
  }
}
