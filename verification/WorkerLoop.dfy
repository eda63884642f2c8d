/**
 * The worker as the program writes it (backend/app/worker.py and the command workflow of backend/app/agent_graph.py),
 * on the store's methods, proved to take the steps of the delivery protocol and no others.
 */
module WorkerLoop {
  import opened Wrappers
  import opened Tables
  import opened Model
  import opened Store
  import opened Indexing
  import Footprints
  import opened Delivery
  import opened RunStore
  import opened Planning

  /** What the outside world answers while one event is processed. */
  datatype World = World(
    remarks: seq<string>,
    mind: Option<Mind>,
    output: seq<(Stream, string)>,
    exitCode: Option<int>,
    error: Option<string>,
    timedOut: bool,
    draft: Draft,
    activity: Option<int>,
    ticketCloses: bool)

  function RemarkAll(names: seq<string>): seq<Action> {
    if names == [] then [] else [Remark(names[0])] + RemarkAll(names[1..])
  }

  function ReceiveAll(output: seq<(Stream, string)>): seq<Action> {
    if output == [] then [] else [Receive(output[0].0, output[0].1)] + ReceiveAll(output[1..])
  }

  /** The planner's proposal for the run as it stands, unless planning breaks off. */
  function Planned(w: World, read: State, run: nat): Option<(string, string, Phase)> {
    if w.mind.Some? then Some((Chosen(w.mind.value, read, run), w.mind.value.purpose, w.mind.value.phase)) else None
  }

  function ProposeOrBreak(proposal: Option<(string, string, Phase)>): Action {
    if proposal.Some? then Propose(proposal.value.0, proposal.value.1, proposal.value.2) else Break
  }

  function Thoughts(w: World, proposal: Option<(string, string, Phase)>): seq<Action> {
    RemarkAll(w.remarks) + [ProposeOrBreak(proposal)]
  }

  function PlanScript(w: World, proposal: Option<(string, string, Phase)>): seq<Action> {
    [ReadContext] + Thoughts(w, proposal)
  }

  function ExecuteScript(w: World): seq<Action> {
    [CheckRun] + ([Start] + ([Invoke] + (ReceiveAll(w.output) + [Finish(w.exitCode, w.error, w.timedOut)])))
  }

  function SubmitScript(w: World): seq<Action> {
    [BeginSubmission] + ([CreateActivity(w.activity)]
      + ([RecordActivity] + ([CloseTicket(w.ticketCloses)] + ([CompleteSubmission] + [FailSubmission]))))
  }

  /**
   * The protocol steps one event of the run takes, the planner reading the store as it is when the event is taken up;
   * steps that are not enabled when their turn comes are skipped.
   */
  function Script(job: Job, w: World, read: State, run: nat): seq<Action> {
    match job
    case Plan(_) => PlanScript(w, Planned(w, read, run))
    case Execute(_) => ExecuteScript(w)
    case DraftActivity(_) => [Action.Draft(w.draft)]
    case Submit(_) => SubmitScript(w)
  }

  // ---- runs of the protocol ----------------------------------------------------------------------

  lemma AfterFirst(p: Policy, y: System, a: Action, rest: seq<Action>)
    ensures After(p, y, [a] + rest) == After(p, Next(p, y, a), rest)
  {
    hide Next;
    AfterAppend(p, y, [a], rest);
    AfterUnfolds(p, y, [a]);
    AfterUnfolds(p, y, []);
    assert [a][..0] == [];
  }

  predicate Settling(a: Action) { !a.Api? && !a.Wait? && !a.Crash? && !a.Acknowledge? && !a.Fail? }

  /** Once an event is finished or failing, the rest of its script is skipped. */
  lemma {:induction false} RestIsSkipped(p: Policy, y: System, rest: seq<Action>)
    requires y.stage.Finished? || y.stage.Failing?
    requires forall i :: 0 <= i < |rest| ==> Settling(rest[i])
    ensures After(p, y, rest) == y
    decreases |rest|
  {
    hide Work;
    AfterUnfolds(p, y, rest);
    if rest != [] { RestIsSkipped(p, y, rest[..|rest| - 1]); }
  }

  lemma {:induction false} RemarksSettling(names: seq<string>)
    ensures forall i :: 0 <= i < |RemarkAll(names)| ==> Settling(RemarkAll(names)[i])
  {
    if names != [] { RemarksSettling(names[1..]); }
  }

  lemma ThoughtsSettling(w: World, proposal: Option<(string, string, Phase)>)
    ensures forall i :: 0 <= i < |Thoughts(w, proposal)| ==> Settling(Thoughts(w, proposal)[i])
  {
    hide RemarkAll;
    RemarksSettling(w.remarks);
  }

  lemma {:induction false} ReceivesSettling(output: seq<(Stream, string)>)
    ensures forall i :: 0 <= i < |ReceiveAll(output)| ==> Settling(ReceiveAll(output)[i])
  {
    if output != [] { ReceivesSettling(output[1..]); }
  }

  // ---- the steps of a submission -----------------------------------------------------------------

  lemma RequestStepIs(p: Policy, y: System, answer: Option<int>)
    ensures y.stage.Claimed? && y.stage.job.Submit? ==>
      Next(p, y, BeginSubmission) == TakeRequest(y, y.stage.event, y.stage.run, y.stage.job.requestId)
    ensures y.stage.Submitting? ==>
      Next(p, y, CreateActivity(answer)) ==
      AskForActivity(y, y.stage.event, y.stage.run, y.stage.request, y.stage.known, answer)
  {
    hide TakeRequest, AskForActivity;
  }

  lemma BookingStepIs(p: Policy, y: System)
    ensures var at := y.stage;
            && Next(p, y, RecordActivity) == (
                 if at.Created?
                 then Branch(y, MarkActivityCreated(y.store, at.run, at.request, at.activity),
                        Recorded(at.event, at.run, at.request), at.event)
                 else y)
            && Next(p, y, CompleteSubmission) == (
                 if at.TicketClosed?
                 then Branch(y, MarkCompleted(y.store, at.run, at.request), Stage.Finished(at.event), at.event)
                 else y)
  {
    hide MarkActivityCreated, MarkCompleted, Branch;
  }

  lemma ClosingStepIs(p: Policy, y: System, closes: bool)
    ensures var at := y.stage;
            && Next(p, y, CloseTicket(closes)) == (
                 if at.Recorded?
                 then y.(stage := if closes then TicketClosed(at.event, at.run, at.request)
                           else SubmissionFailed(at.event, at.run, at.request))
                 else y)
            && Next(p, y, FailSubmission) == (
                 if at.SubmissionFailed?
                 then y.(store := FailRequest(y.store, at.run, at.request, false).state, stage := Failing(at.event))
                 else y)
  {
    hide FailRequest;
  }

  lemma RequestStays(s: State, run: nat, q: nat, activity: int)
    requires run in s.runs && s.requests.Has(run, q)
    ensures MarkProcessing(s, run, q).state.requests.Has(run, q)
    ensures var reply := MarkActivityCreated(s, run, q, activity);
            reply.state.requests.Has(run, q) && reply.result.Success?
    ensures MarkCompleted(s, run, q).result.Success?
  {
  }

  // ---- the steps of a command --------------------------------------------------------------------

  lemma CommandStepIs(p: Policy, y: System)
    ensures y.stage.Claimed? && y.stage.job.Execute? ==>
      Next(p, y, CheckRun) == CheckNotAborted(y, y.stage.event, y.stage.run, y.stage.job.stepId)
    ensures y.stage.Cleared? ==> Next(p, y, Start) == StartCommand(y, y.stage.event, y.stage.run, y.stage.step)
    ensures y.stage.Launched? ==>
      Next(p, y, Invoke) == InvokeRunner(y, y.stage.event, y.stage.run, y.stage.execution)
  {
    hide CheckNotAborted, StartCommand, InvokeRunner;
  }

  lemma StartCommandIs(y: System, event: nat, run: nat, step: nat)
    ensures var z, reply := StartCommand(y, event, run, step), StartExecution(y.store, run, step);
            && z.store == reply.state
            && z.stage == (if reply.result.Success? then Launched(event, run, reply.result.value) else Failing(event))
            && (reply.result.Success? ==> reply.result.value in reply.state.executions.rows)
  {
    hide StartExecution;
    Footprints.StartedIs(y.store, run, step);
  }

  lemma OutputStepIs(p: Policy, y: System, stream: Stream, content: string, w: World)
    requires y.stage.InFlight?
    ensures var z, at := Next(p, y, Receive(stream, content)), y.stage;
            z.stage == at
            && z.store == if content == "" || stream.OtherStream? then y.store
                          else AppendChunk(p, y.store, at.run, at.execution, stream, p.redact(content).0,
                            p.redact(content).1).state
    ensures var at := y.stage;
            Next(p, y, Finish(w.exitCode, w.error, w.timedOut)) ==
            Branch(y, CompleteExecution(p, y.store, at.run, at.execution, w.exitCode, w.error, w.timedOut),
              Stage.Finished(at.event), at.event)
  {
    hide AppendChunk, CompleteExecution, Branch;
  }

  // ---- the steps of planning and drafting --------------------------------------------------------

  lemma ThoughtIs(p: Policy, y: System, name: string, proposal: Option<(string, string, Phase)>)
    requires y.stage.Thinking?
    ensures var at := y.stage;
            && Next(p, y, Remark(name)) == y.(store := Store.AppendEvent(y.store, at.run, name).state)
            && Next(p, y, ProposeOrBreak(proposal)) ==
               match proposal
               case None => y.(stage := Failing(at.event))
               case Some((command, purpose, phase)) =>
                 Branch(y, Store.ProposeAgentStep(p, y.store, at.run, command, purpose, phase),
                   Stage.Finished(at.event), at.event)
  {
    hide Store.AppendEvent, Store.ProposeAgentStep, Branch;
  }

  lemma DraftIs(p: Policy, y: System, draft: Draft)
    requires y.stage.Claimed? && y.stage.job.DraftActivity?
    ensures Next(p, y, Action.Draft(draft)) ==
      Branch(y, Store.CreateActivityDraft(p, y.store, y.stage.run, draft), Stage.Finished(y.stage.event), y.stage.event)
  {
    hide Store.CreateActivityDraft, Branch;
  }

  // ---- claiming and settling ---------------------------------------------------------------------

  lemma ClaimIs(p: Policy, y: System)
    requires y.stage == Idle
    ensures var z := Next(p, y, Claim);
            var reply := ClaimNext(y.store);
            && z.store == reply.state && reply.result.Success?
            && (if reply.result.value.Some? then
                  var id := reply.result.value.value;
                  id in z.store.queue.events
                    && z.stage == Claimed(id, z.store.queue.events[id].run, z.store.queue.events[id].job)
                else z.stage == Idle)
  {
    hide RecoverBelow, Recoveries, StaleIds;
  }

  lemma SettlingIs(p: Policy, y: System)
    ensures var z := Next(p, y, Acknowledge);
            if y.stage.Finished? then z.store == CompleteOutbox(y.store, y.stage.event) && z.stage == Idle else z == y
    ensures var z := Next(p, y, Fail);
            if y.stage.Failing? then z.store == FailOutbox(y.store, y.stage.event).state && z.stage == Idle else z == y
  {
    hide CompleteOutbox, FailOutbox, Branch, Apply, ClaimEvent, ReadPlannerContext, CheckNotAborted, StartCommand,
      InvokeRunner, ReceiveOutput, TakeRequest, AskForActivity, FailRequest;
  }

  lemma AfterTwo(p: Policy, y: System, a: Action, b: Action)
    ensures After(p, y, [a] + [b]) == Next(p, Next(p, y, a), b)
  {
    hide Next;
    AfterFirst(p, y, a, [b]);
    AfterFirst(p, Next(p, y, a), b, []);
    assert [b] + [] == [b];
    AfterUnfolds(p, Next(p, Next(p, y, a), b), []);
  }

  lemma AfterOne(p: Policy, y: System, a: Action)
    ensures After(p, y, [a]) == Next(p, y, a)
  {
    hide Next;
    AfterUnfolds(p, y, [a]);
    AfterUnfolds(p, y, []);
    assert [a][..0] == [];
  }

  function Closing(w: World): seq<Action> { [CloseTicket(w.ticketCloses)] + ([CompleteSubmission] + [FailSubmission]) }

  /** Two last steps of a script of three. */
  lemma AfterThree(p: Policy, y: System, a: Action, b: Action, c: Action)
    ensures After(p, y, [a] + ([b] + [c])) == Next(p, Next(p, Next(p, y, a), b), c)
  {
    hide Next;
    AfterFirst(p, y, a, [b] + [c]);
    AfterFirst(p, Next(p, y, a), b, [c]);
    AfterFirst(p, Next(p, Next(p, y, a), b), c, []);
    assert [c] + [] == [c];
    AfterUnfolds(p, Next(p, Next(p, Next(p, y, a), b), c), []);
  }

  class Worker {
    const store: InMemoryRunStore

    constructor (store: InMemoryRunStore)
      ensures this.store == store
    {
      this.store := store;
    }

    /** Creates the Phoenix activity unless its id is on record, closes the ticket, and completes the request. */
    method ProcessActivitySubmission(p: Policy, event: nat, run: nat, request: nat, w: World, ghost y0: System)
      returns (ok: bool, ghost y: System)
      requires y0.store == store.View() && y0.stage == Claimed(event, run, Submit(request)) && store.Valid()
      modifies store.Footprint()
      ensures y.stage == if ok then Stage.Finished(event) else Failing(event)
      ensures y.store == store.View() && y == After(p, y0, SubmitScript(w)) && store.Valid()
    {
      hide Indexed, After, Next, MarkProcessing, MarkActivityCreated, MarkCompleted, Closing;
      ghost var rest := [CreateActivity(w.activity)]
        + ([RecordActivity] + ([CloseTicket(w.ticketCloses)] + ([CompleteSubmission] + [FailSubmission])));
      AfterFirst(p, y0, BeginSubmission, rest);
      RequestStepIs(p, y0, w.activity);
      y := Next(p, y0, BeginSubmission);
      if run !in store.runs || request !in store.requests.rows || store.requests.rows[request].run != run {
        RestIsSkipped(p, y, rest);
        return false, y;
      }
      if store.requests.rows[request].data.status == RequestStatus.Completed {
        RestIsSkipped(p, y, rest);
        return true, y;
      }
      var known := store.requests.rows[request].data.activityId;
      RequestStays(y0.store, run, request, 0);
      var _ := store.MarkIntegrationRequestProcessing(run, request);
      ok, y := CreateActivityAndClose(p, event, run, request, known, w, y);
    }

    /** The steps whose failure also fails the request. */
    method CreateActivityAndClose(p: Policy, event: nat, run: nat, request: nat, known: Option<int>, w: World,
        ghost y0: System)
      returns (ok: bool, ghost y: System)
      requires y0.store == store.View() && y0.stage == Submitting(event, run, request, known)
      requires run in store.runs && store.requests.Table().Has(run, request) && store.Valid()
      modifies store.Footprint()
      ensures y.stage == if ok then Stage.Finished(event) else Failing(event)
      ensures y.store == store.View() && store.Valid()
      ensures y == After(p, y0,
        [CreateActivity(w.activity)]
          + ([RecordActivity] + ([CloseTicket(w.ticketCloses)] + ([CompleteSubmission] + [FailSubmission]))))
    {
      hide Indexed, After, Next, MarkActivityCreated, Enabled;
      AfterFirst(p, y0, CreateActivity(w.activity), [RecordActivity] + Closing(w));
      RequestStepIs(p, y0, w.activity);
      y := Next(p, y0, CreateActivity(w.activity));
      AfterFirst(p, y, RecordActivity, Closing(w));
      BookingStepIs(p, y);
      if known.None? && w.activity.Some? {
        RequestStays(y.store, run, request, w.activity.value);
        var _ := store.MarkIntegrationActivityCreated(run, request, w.activity.value);
      }
      y := Next(p, y, RecordActivity);
      ok, y := CloseAndComplete(p, event, run, request, known.Some? || w.activity.Some?, w, y);
    }

    /** Closes the ticket and completes the request, unless an earlier step or the closing failed. */
    method CloseAndComplete(p: Policy, event: nat, run: nat, request: nat, recorded: bool, w: World, ghost y0: System)
      returns (ok: bool, ghost y: System)
      requires y0.stage == if recorded then Recorded(event, run, request) else SubmissionFailed(event, run, request)
      requires y0.store == store.View() && run in store.runs && store.requests.Table().Has(run, request)
        && store.Valid()
      modifies store.Footprint()
      ensures y.stage == if ok then Stage.Finished(event) else Failing(event)
      ensures y.store == store.View() && y == After(p, y0, Closing(w)) && store.Valid()
    {
      hide Indexed, After, Next, MarkCompleted, FailRequest, Enabled;
      AfterThree(p, y0, CloseTicket(w.ticketCloses), CompleteSubmission, FailSubmission);
      y := Next(p, y0, CloseTicket(w.ticketCloses));
      ClosingStepIs(p, y0, w.ticketCloses);
      ClosingStepIs(p, y, w.ticketCloses);
      BookingStepIs(p, y);
      RequestStays(y.store, run, request, 0);
      if recorded && w.ticketCloses {
        y := Next(p, y, CompleteSubmission);
        ClosingStepIs(p, y, w.ticketCloses);
        var _ := store.MarkIntegrationRequestCompleted(run, request);
        return true, y;
      }
      y := Next(p, y, FailSubmission);
      var _ := store.FailIntegrationRequest(run, request, false);
      return false, y;
    }

    /** Starts the approved command unless the run was aborted, and runs it. */
    method ProcessCommandExecution(p: Policy, event: nat, run: nat, stepId: nat, w: World,
        ghost y0: System) returns (ok: bool, ghost y: System)
      requires y0.store == store.View() && y0.stage == Claimed(event, run, Execute(stepId)) && store.Valid()
      modifies store.Footprint()
      ensures y.stage == if ok then Stage.Finished(event) else Failing(event)
      ensures y.store == store.View() && y == After(p, y0, ExecuteScript(w)) && store.Valid()
    {
      hide Indexed, After, Next, StartExecution, StartCommand, InvokeRunner, ReceiveAll, InMemoryRunStore.View,
        InMemoryRunStore.Valid;
      store.RunsShown();
      ghost var running := [Invoke] + (ReceiveAll(w.output) + [Finish(w.exitCode, w.error, w.timedOut)]);
      ReceivesSettling(w.output);
      AfterFirst(p, y0, CheckRun, [Start] + running);
      CommandStepIs(p, y0);
      CommandStepIs(p, Next(p, y0, CheckRun));
      y := Next(p, y0, CheckRun);
      if run !in store.runs {
        RestIsSkipped(p, y, [Start] + running);
        return false, y;
      }
      if store.runs[run].status == Aborted {
        RestIsSkipped(p, y, [Start] + running);
        var _ := store.AppendEvent(run, "command.skipped");
        return true, y;
      }
      AfterFirst(p, y, Start, running);
      StartCommandIs(y, event, run, stepId);
      y := Next(p, y, Start);
      var started := store.StartCommandExecution(run, stepId);
      if started.Failure? {
        RestIsSkipped(p, y, running);
        return false, y;
      }
      ok, y := RunCommand(p, event, run, started.value, w, y);
    }

    /** Hands the command to the runner, stores what it sends, and completes the execution. */
    method RunCommand(p: Policy, event: nat, run: nat, id: nat, w: World, ghost y0: System) returns (ok: bool,
        ghost y: System)
      requires y0.store == store.View() && y0.stage == Launched(event, run, id) && id in y0.store.executions.rows
        && store.Valid()
      modifies store.Footprint()
      ensures y.stage == if ok then Stage.Finished(event) else Failing(event)
      ensures y.store == store.View()
        && y == After(p, y0, [Invoke] + (ReceiveAll(w.output) + [Finish(w.exitCode, w.error, w.timedOut)]))
          && store.Valid()
    {
      hide Indexed, After, Next, AppendChunk, CompleteExecution, Records.Table;
      ghost var last := [Finish(w.exitCode, w.error, w.timedOut)];
      AfterFirst(p, y0, Invoke, ReceiveAll(w.output) + last);
      CommandStepIs(p, y0);
      y := Next(p, y0, Invoke);
      ghost var final := After(p, y, ReceiveAll(w.output) + last);
      for i := 0 to |w.output|
        invariant store.Valid() && y.store == store.View() && y.stage == InFlight(event, run, id)
        invariant After(p, y, ReceiveAll(w.output[i..]) + last) == final
      {
        var (stream, content) := w.output[i];
        assert w.output[i..][1..] == w.output[i + 1..];
        assert ReceiveAll(w.output[i..]) + last == [Receive(stream, content)] + (ReceiveAll(w.output[i + 1..]) + last);
        AfterFirst(p, y, Receive(stream, content), ReceiveAll(w.output[i + 1..]) + last);
        OutputStepIs(p, y, stream, content, w);
        y := Next(p, y, Receive(stream, content));
        if content != "" && !stream.OtherStream? {
          var (clean, redacted) := p.redact(content);
          var _ := store.AppendCommandOutputChunk(p, run, id, stream, clean, redacted);
        }
      }
      assert ReceiveAll(w.output[|w.output|..]) + last == last;
      AfterOne(p, y, last[0]);
      OutputStepIs(p, y, Stdout, "", w);
      y := Next(p, y, last[0]);
      var completed := store.CompleteCommandExecution(p, run, id, w.exitCode, w.error, w.timedOut);
      ok := completed.Success?;
    }

    /** Builds the context, remarks on the way, and proposes one step, unless planning is pointless. */
    method ProcessAgentPlan(p: Policy, event: nat, run: nat, reason: PlanReason, w: World,
        ghost y0: System) returns (ok: bool, ghost y: System)
      requires y0.store == store.View() && y0.stage == Claimed(event, run, Plan(reason)) && store.Valid()
      modifies store.Footprint()
      ensures y.stage == if ok then Stage.Finished(event) else Failing(event)
      ensures y.store == store.View() && y == After(p, y0, PlanScript(w, Planned(w, y0.store, run))) && store.Valid()
    {
      hide Indexed, After, Thoughts, Planned, PlanningPointless, Settling, InMemoryRunStore.View,
        InMemoryRunStore.Valid;
      store.RunsShown();
      var proposal := Planned(w, store.View(), run);
      ghost var rest := Thoughts(w, proposal);
      ThoughtsSettling(w, proposal);
      AfterFirst(p, y0, ReadContext, rest);
      y := Next(p, y0, ReadContext);
      if run !in store.runs {
        RestIsSkipped(p, y, rest);
        return false, y;
      }
      if PlanningPointless(store.runs[run]) {
        RestIsSkipped(p, y, rest);
        var _ := store.AppendEvent(run, "agent.plan_skipped");
        return true, y;
      }
      var _ := store.AppendEvent(run, "agent.context_built");
      ok, y := RemarkAndPropose(p, event, run, w, proposal, y);
    }

    method RemarkAndPropose(p: Policy, event: nat, run: nat, w: World, proposal: Option<(string, string, Phase)>,
        ghost y0: System)
      returns (ok: bool, ghost y: System)
      requires y0.store == store.View() && y0.stage == Thinking(event, run) && store.Valid()
      modifies store.Footprint()
      ensures y.stage == if ok then Stage.Finished(event) else Failing(event)
      ensures y.store == store.View() && store.Valid()
      ensures y == After(p, y0, Thoughts(w, proposal))
    {
      hide Indexed, After, Next, Store.AppendEvent, Store.ProposeAgentStep;
      ghost var last := [ProposeOrBreak(proposal)];
      y := y0;
      for i := 0 to |w.remarks|
        invariant store.Valid() && y.store == store.View() && y.stage == Thinking(event, run)
        invariant After(p, y, RemarkAll(w.remarks[i..]) + last) == After(p, y0, RemarkAll(w.remarks) + last)
      {
        var name := w.remarks[i];
        assert w.remarks[i..][1..] == w.remarks[i + 1..];
        assert RemarkAll(w.remarks[i..]) + last == [Remark(name)] + (RemarkAll(w.remarks[i + 1..]) + last);
        AfterFirst(p, y, Remark(name), RemarkAll(w.remarks[i + 1..]) + last);
        ThoughtIs(p, y, name, proposal);
        y := Next(p, y, Remark(name));
        var _ := store.AppendEvent(run, name);
      }
      assert RemarkAll(w.remarks[|w.remarks|..]) + last == last;
      AfterOne(p, y, last[0]);
      ThoughtIs(p, y, "", proposal);
      if proposal.None? {
        y := Next(p, y, last[0]);
        return false, y;
      }
      var (command, purpose, phase) := proposal.value;
      y := Next(p, y, last[0]);
      var proposed := store.ProposeAgentStep(p, run, command, purpose, phase);
      ok := proposed.Success?;
    }

    method ProcessActivityDraft(p: Policy, event: nat, run: nat, resultId: nat, w: World,
        ghost y0: System) returns (ok: bool, ghost y: System)
      requires y0.store == store.View() && y0.stage == Claimed(event, run, DraftActivity(resultId)) && store.Valid()
      modifies store.Footprint()
      ensures y.stage == if ok then Stage.Finished(event) else Failing(event)
      ensures y.store == store.View() && y == After(p, y0, [Action.Draft(w.draft)]) && store.Valid()
    {
      hide Indexed, After, Next, Store.CreateActivityDraft;
      AfterOne(p, y0, Action.Draft(w.draft));
      DraftIs(p, y0, w.draft);
      y := Next(p, y0, Action.Draft(w.draft));
      var drafted := store.CreateActivityDraft(p, run, w.draft);
      ok := drafted.Success?;
    }

    method Process(p: Policy, event: nat, run: nat, job: Job, w: World, ghost y0: System) returns (ok: bool,
        ghost y: System)
      requires y0.store == store.View() && y0.stage == Claimed(event, run, job) && store.Valid()
      modifies store.Footprint()
      ensures y.stage == if ok then Stage.Finished(event) else Failing(event)
      ensures y.store == store.View() && y == After(p, y0, Script(job, w, y0.store, run)) && store.Valid()
    {
      hide Indexed, After, PlanScript, ExecuteScript, SubmitScript;
      match job
      case Plan(reason) => ok, y := ProcessAgentPlan(p, event, run, reason, w, y0);
      case Execute(stepId) => ok, y := ProcessCommandExecution(p, event, run, stepId, w, y0);
      case DraftActivity(resultId) => ok, y := ProcessActivityDraft(p, event, run, resultId, w, y0);
      case Submit(request) => ok, y := ProcessActivitySubmission(p, event, run, request, w, y0);
    }

    /** One round: claim an event, process it, then acknowledge it or record its failure. */
    method ProcessNext(p: Policy, w: World, ghost y0: System) returns (worked: bool, ghost job: Job, ghost y: System)
      requires y0.store == store.View() && y0.stage == Idle && store.Valid()
      modifies store.Footprint()
      ensures y.store == store.View() && y.stage == Idle && store.Valid()
      ensures var claimed := Next(p, y0, Claim);
              if worked then
                claimed.stage.Claimed? && claimed.stage.job == job
                && y == After(p, y0,
                  [Claim] + (Script(job, w, claimed.store, claimed.stage.run) + ([Acknowledge] + [Fail])))
              else claimed.stage == Idle && y == After(p, y0, [Claim])
    {
      hide Indexed, After, Next, ClaimNext, Script, CompleteOutbox, FailOutbox;
      ClaimIs(p, y0);
      y := Next(p, y0, Claim);
      job := Plan(RetryRequested);
      var claimed := store.ClaimNextOutboxEvent();
      if claimed.None? {
        AfterOne(p, y0, Claim);
        return false, job, y;
      }
      var id := claimed.value;
      var event := store.outbox[id];
      job := event.job;
      ghost var script := Script(job, w, y.store, event.run);
      AfterFirst(p, y0, Claim, script + ([Acknowledge] + [Fail]));
      AfterAppend(p, y, script, [Acknowledge] + [Fail]);
      var ok;
      ok, y := Process(p, id, event.run, event.job, w, y);
      AfterTwo(p, y, Acknowledge, Fail);
      worked := true;
      SettlingIs(p, y);
      if ok {
        y := Next(p, y, Acknowledge);
        SettlingIs(p, y);
        store.CompleteOutboxEvent(id);
      } else {
        y := Next(p, y, Fail);
        store.FailOutboxEvent(id);
      }
    }
  }
}
