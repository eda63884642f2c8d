/** Submitting an activity is safe under redelivery, with one worker that may crash between any two steps. */
module Submission {
  import opened Wrappers
  import opened Tables
  import opened Model
  import opened Store
  import opened Indexing
  import opened History
  import opened Footprints
  import opened Delivery
  import opened Runs
  import opened Accounting
  import opened Ending
  import Outbox

  type Requests = map<nat, Row<IntegrationRequest>>

  // ---- the invariant -----------------------------------------------------------------------------

  predicate Alive(status: RequestStatus) { status != RequestStatus.DeadLetter }

  predicate BothAlive(a: Row<IntegrationRequest>, b: Row<IntegrationRequest>) {
    a.run == b.run && Alive(a.data.status) && Alive(b.data.status)
  }

  /** At most one request of a run has not been given up. */
  ghost predicate OneAlive(rows: Requests) {
    forall a, b :: a in rows && b in rows && BothAlive(rows[a], rows[b]) ==> a == b
  }

  /** A completed request carries its activity and its closed ticket, and its run is submitted. */
  ghost predicate CompletedSound(rows: Requests, runs: map<nat, Run>) {
    forall q :: q in rows && rows[q].data.status == RequestStatus.Completed ==>
      rows[q].data.activityId.Some? && rows[q].data.ticketDone && rows[q].run in runs
        && runs[rows[q].run].status == Submitted
  }

  /** A submitted run has a completed request. */
  ghost predicate SubmittedSound(rows: Requests, runs: map<nat, Run>) {
    forall r :: r in runs && runs[r].status == Submitted ==> HasCompleted(rows, r)
  }

  ghost predicate HasCompleted(rows: Requests, run: nat) {
    exists q :: q in rows && rows[q].run == run && rows[q].data.status == RequestStatus.Completed
  }

  /** The event is the delivery of the request. */
  predicate Carries(e: OutboxEvent, q: nat) { e.job.Submit? && e.job.requestId == q }

  /** Every submission event belongs to a request of its run, no two to the same one, and it dies with its request. */
  ghost predicate Linked(events: map<nat, OutboxEvent>, rows: Requests) {
    && (forall id :: id in events && events[id].job.Submit? ==>
          events[id].job.requestId in rows && rows[events[id].job.requestId].run == events[id].run
          && (rows[events[id].job.requestId].data.status == RequestStatus.DeadLetter ==>
            events[id].status == OutboxStatus.DeadLetter))
    && (forall a, b :: a in events && b in events && events[a].job.Submit? && events[a].job == events[b].job ==> a == b)
  }

  predicate Serves(e: OutboxEvent, run: nat, q: nat, rows: Requests) {
    Carries(e, q) && e.run == run && q in rows && rows[q].run == run
  }

  predicate Underway(status: RequestStatus) { status == RequestStatus.Processing || status == ActivityCreated }

  /** What the worker knows at each stage about the request it is working on. */
  predicate Handles(stage: Stage, events: map<nat, OutboxEvent>, rows: Requests) {
    if stage.Idle? then true
    else
      stage.event in events && events[stage.event].status == OutboxStatus.Processing
      && var e := events[stage.event];
         match stage
         case Claimed(_, run, job) => run == e.run && job == e.job
         case Submitting(_, run, q, known) =>
           Serves(e, run, q, rows) && rows[q].data.status == RequestStatus.Processing
             && known == rows[q].data.activityId
         case Created(_, run, q, _) =>
           Serves(e, run, q, rows) && rows[q].data.status == RequestStatus.Processing && rows[q].data.activityId.None?
         case Recorded(_, run, q) =>
           Serves(e, run, q, rows) && Underway(rows[q].data.status) && rows[q].data.activityId.Some?
         case TicketClosed(_, run, q) =>
           Serves(e, run, q, rows) && Underway(rows[q].data.status) && rows[q].data.activityId.Some?
         case SubmissionFailed(_, run, q) => Serves(e, run, q, rows) && Underway(rows[q].data.status)
         case Finished(_) => true
         case Failing(_) =>
           e.job.Submit? ==> e.job.requestId in rows && rows[e.job.requestId].data.status != RequestStatus.Completed
                             && Alive(rows[e.job.requestId].data.status)
         case _ => !e.job.Submit?
  }

  ghost predicate Filed(y: System) {
    && OneAlive(y.store.requests.rows)
    && CompletedSound(y.store.requests.rows, y.store.runs)
    && SubmittedSound(y.store.requests.rows, y.store.runs)
    && Linked(y.store.queue.events, y.store.requests.rows)
    && Handles(y.stage, y.store.queue.events, y.store.requests.rows)
  }

  // ---- actions that are not about submissions ----------------------------------------------------

  /** No run becomes submitted or stops being so. */
  ghost predicate SubmittedStay(a: map<nat, Run>, b: map<nat, Run>) {
    && (forall r :: r in a ==> r in b && (b[r].status == Submitted <==> a[r].status == Submitted))
    && (forall r :: r in b && r !in a ==> b[r].status != Submitted)
  }

  lemma FiledStays(y: System, z: System)
    requires Filed(y) && z.store.requests.rows == y.store.requests.rows
    requires Tended(y.store.queue, z.store.queue, false) && SubmittedStay(y.store.runs, z.store.runs)
    requires Handles(z.stage, y.store.queue.events, y.store.requests.rows)
    ensures Filed(z)
  {
    hide HasCompleted, OneAlive;
  }

  lemma MovesSubmitted(a: map<nat, Run>, b: map<nat, Run>)
    requires Moves(a, b)
    ensures SubmittedStay(a, b)
  {
  }

  lemma CallFiled(p: Policy, y: System, call: Call)
    requires Indexed(y.store) && Filed(y) && !call.SubmitActivity?
    ensures Filed(y.(store := Apply(p, y.store, call)))
  {
    assert Handles(y.stage, y.store.queue.events, y.store.requests.rows);
    hide *;
    CallMoves(p, y.store, call);
    MovesSubmitted(y.store.runs, Apply(p, y.store, call).runs);
    CallTended(p, y.store, call);
    FiledStays(y, y.(store := Apply(p, y.store, call)));
  }

  // ---- asking for a submission -------------------------------------------------------------------

  lemma RequestCompleted(rows: Requests, runs: map<nat, Run>, q: nat, row: Row<IntegrationRequest>)
    requires CompletedSound(rows, runs) && SubmittedSound(rows, runs) && q !in rows
      && row.data.status == RequestStatus.Pending
    ensures CompletedSound(rows[q := row], runs) && SubmittedSound(rows[q := row], runs)
  {
    forall r | r in runs && runs[r].status == Submitted ensures HasCompleted(rows[q := row], r) {
      var o :| o in rows && rows[o].run == r && rows[o].data.status == RequestStatus.Completed;
      assert rows[q := row][o] == rows[o];
    }
  }

  lemma RequestLinked(events: map<nat, OutboxEvent>, rows: Requests, q: nat, row: Row<IntegrationRequest>, id: nat,
      e: OutboxEvent)
    requires Linked(events, rows) && q !in rows && id !in events && row.data.status == RequestStatus.Pending
    requires e.job == Submit(q) && e.run == row.run
    ensures Linked(events[id := e], rows[q := row])
  {
    forall i | i in events && events[i].job.Submit? ensures events[i].job.requestId in rows { }
  }

  /** A new request with its event, in a run that is not submitted and has no open request. */
  lemma RequestAdded(y: System, z: System, run: nat, r: IntegrationRequest)
    requires Filed(y) && run in y.store.runs && y.store.runs[run].status != Submitted
      && r.status == RequestStatus.Pending
    requires y.store.requests.next !in y.store.requests.rows && y.store.queue.next !in y.store.queue.events
    requires forall q :: q in y.store.requests.rows && y.store.requests.rows[q].run == run ==>
      !Open(y.store.requests.rows[q].data.status)
    requires z.stage == y.stage && z.store.runs == y.store.runs && z.store.requests == y.store.requests.Add(run, r)
    requires z.store.queue == Outbox.Enqueue(y.store.queue, run, Submit(y.store.requests.next), y.store.clock)
    ensures Filed(z)
  {
    var rows, events := y.store.requests.rows, y.store.queue.events;
    var q, id := y.store.requests.next, y.store.queue.next;
    RequestCompleted(rows, y.store.runs, q, Row(run, r));
    RequestLinked(events, rows, q, Row(run, r), id, z.store.queue.events[id]);
    hide SubmittedSound, Linked;
  }

  lemma NoOpenRequest(s: State, run: nat)
    requires Indexed(s) && run in s.runs && OpenRequest(s.requests.rows, s.requests.Ids(run)).None?
    ensures forall q :: q in s.requests.rows && s.requests.rows[q].run == run ==> !Open(s.requests.rows[q].data.status)
  {
    hide TimelineIndexed, QueueIndexed, OpenRequest;
    assert s.requests.Indexed(s.runs.Keys);
    forall q | q in s.requests.rows && s.requests.rows[q].run == run ensures q in s.requests.Ids(run) {
      assert s.requests.Has(run, q);
    }
  }

  /** What queueing a submission did, when it did something. */
  lemma QueuedIs(s: State, run: nat)
    requires QueueSubmission(s, run).state != s
    ensures var t := QueueSubmission(s, run).state;
            && run in s.runs && s.runs[run].status == ReadyForActivity && SavedDraft(s, run).Some?
            && OpenRequest(s.requests.rows, s.requests.Ids(run)).None?
            && t.runs == s.runs && t.requests == s.requests.Add(run, NewRequest(s, run))
            && t.queue == Outbox.Enqueue(Outbox.CancelPending(s.queue, run, Outbox.DraftJob), run,
              Submit(s.requests.next), s.clock)
  {
    hide LatestExpectations, HasCompletedFix, Incomplete, OpenRequest, SavedDraft, Outbox.CancelPending, Outbox.Enqueue,
      Table.OfRun;
  }

  lemma QueueFiled(p: Policy, y: System, run: nat)
    requires Indexed(y.store) && Filed(y)
    ensures Filed(y.(store := QueueSubmission(y.store, run).state))
  {
    hide Indexed, Filed, QueueSubmission, Outbox.Enqueue, OpenRequest;
    var s := y.store;
    var t := QueueSubmission(s, run).state;
    if t != s {
      QueuedIs(s, run);
      NoOpenRequest(s, run);
      FreshIds(s);
      var w := y.(store := s.(queue := Outbox.CancelPending(s.queue, run, Outbox.DraftJob)));
      CancelFiled(y, run);
      RequestAdded(w, y.(store := t), run, NewRequest(s, run));
    }
  }

  lemma CancelFiled(y: System, run: nat)
    requires Indexed(y.store) && Filed(y)
    ensures Filed(y.(store := y.store.(queue := Outbox.CancelPending(y.store.queue, run, Outbox.DraftJob))))
  {
    var z := y.(store := y.store.(queue := Outbox.CancelPending(y.store.queue, run, Outbox.DraftJob)));
    assert Handles(y.stage, y.store.queue.events, y.store.requests.rows);
    MovesStill(y.store.runs);
    hide Indexed, QueueIndexed, TimelineIndexed, Table.Indexed, Filed, Outbox.CancelPending, Tended, Moves,
      SubmittedStay, Handles;
    IndexedMeans(y.store);
    TendedRules(y.store.queue, y.store.runs.Keys, false);
    MovesSubmitted(y.store.runs, y.store.runs);
    FiledStays(y, z);
  }

  // ---- working on a submission -------------------------------------------------------------------

  /** The worker's request changes, still alive and not completed; nothing else does. */
  lemma RequestMoves(y: System, z: System, q: nat)
    requires Filed(y) && q in y.store.requests.rows && Alive(y.store.requests.rows[q].data.status)
    requires y.store.requests.rows[q].data.status != RequestStatus.Completed
    requires q in z.store.requests.rows && z.store.requests.rows == y.store.requests.rows[q := z.store.requests.rows[q]]
    requires z.store.requests.rows[q].run == y.store.requests.rows[q].run
    requires Alive(z.store.requests.rows[q].data.status)
      && z.store.requests.rows[q].data.status != RequestStatus.Completed
    requires z.store.queue == y.store.queue && z.store.runs == y.store.runs
    requires Handles(z.stage, z.store.queue.events, z.store.requests.rows)
    ensures Filed(z)
  {
    hide Handles;
    forall r | r in z.store.runs && z.store.runs[r].status == Submitted ensures HasCompleted(z.store.requests.rows, r) {
      assert HasCompleted(y.store.requests.rows, r);
      var o :| o in y.store.requests.rows && y.store.requests.rows[o].run == r
        && y.store.requests.rows[o].data.status == RequestStatus.Completed;
      assert z.store.requests.rows[o] == y.store.requests.rows[o];
    }
  }

  lemma TakeFiled(y: System)
    requires Indexed(y.store) && Filed(y) && y.stage.Claimed? && y.stage.job.Submit?
    ensures Filed(TakeRequest(y, y.stage.event, y.stage.run, y.stage.job.requestId))
  {
    hide Indexed, OneAlive, CompletedSound, SubmittedSound;
    var q := y.stage.job.requestId;
    OwnersAreKnown(y.store);
    var z := TakeRequest(y, y.stage.event, y.stage.run, q);
    assert Serves(y.store.queue.events[y.stage.event], y.stage.run, q, y.store.requests.rows)
      && Alive(y.store.requests.rows[q].data.status);
    if z.stage.Submitting? { RequestMoves(y, z, q); }
  }

  lemma AskFiled(y: System, answer: Option<int>)
    requires Filed(y) && y.stage.Submitting?
    ensures Filed(AskForActivity(y, y.stage.event, y.stage.run, y.stage.request, y.stage.known, answer))
  {
    var z := AskForActivity(y, y.stage.event, y.stage.run, y.stage.request, y.stage.known, answer);
    assert Handles(z.stage, y.store.queue.events, y.store.requests.rows);
    hide OneAlive, CompletedSound, SubmittedSound, Linked, AskForActivity;
  }

  lemma RecordFiled(y: System)
    requires Indexed(y.store) && Filed(y) && y.stage.Created?
    ensures Filed(Branch(y, MarkActivityCreated(y.store, y.stage.run, y.stage.request, y.stage.activity),
                         Recorded(y.stage.event, y.stage.run, y.stage.request), y.stage.event))
  {
    hide Indexed, OneAlive, CompletedSound, SubmittedSound, Linked;
    OwnersAreKnown(y.store);
    RequestMoves(y, Branch(y, MarkActivityCreated(y.store, y.stage.run, y.stage.request, y.stage.activity),
                           Recorded(y.stage.event, y.stage.run, y.stage.request), y.stage.event), y.stage.request);
  }

  lemma CloseFiled(y: System, succeeded: bool)
    requires Filed(y) && y.stage.Recorded?
    ensures Filed(y.(stage := if succeeded then TicketClosed(y.stage.event, y.stage.run, y.stage.request)
                              else SubmissionFailed(y.stage.event, y.stage.run, y.stage.request)))
  {
    hide OneAlive, CompletedSound, SubmittedSound, Linked;
  }

  /** Completing the request submits the run. */
  lemma CompletedMoves(y: System, z: System, run: nat, q: nat)
    requires Filed(y) && q in y.store.requests.rows && y.store.requests.rows[q].run == run && run in y.store.runs
    requires Alive(y.store.requests.rows[q].data.status)
    requires q in z.store.requests.rows && z.store.requests.rows == y.store.requests.rows[q := z.store.requests.rows[q]]
    requires var r := z.store.requests.rows[q];
             r.run == run && r.data.status == RequestStatus.Completed && r.data.activityId.Some? && r.data.ticketDone
    requires run in z.store.runs && z.store.runs[run].status == Submitted
      && z.store.runs == y.store.runs[run := z.store.runs[run]]
    requires z.store.queue == y.store.queue && Handles(z.stage, z.store.queue.events, z.store.requests.rows)
    ensures Filed(z)
  {
    hide Handles;
    forall r | r in z.store.runs && z.store.runs[r].status == Submitted ensures HasCompleted(z.store.requests.rows, r) {
      if r == run {
        assert z.store.requests.rows[q].run == r;
      } else {
        assert HasCompleted(y.store.requests.rows, r);
        var o :| o in y.store.requests.rows && y.store.requests.rows[o].run == r
          && y.store.requests.rows[o].data.status == RequestStatus.Completed;
        assert z.store.requests.rows[o] == y.store.requests.rows[o];
      }
    }
  }

  lemma CompleteFiled(y: System)
    requires Indexed(y.store) && Filed(y) && y.stage.TicketClosed?
    ensures Filed(Branch(y, MarkCompleted(y.store, y.stage.run, y.stage.request), Stage.Finished(y.stage.event),
      y.stage.event))
  {
    hide Indexed, OneAlive, CompletedSound, SubmittedSound, Linked;
    OwnersAreKnown(y.store);
    CompletedMoves(y, Branch(y, MarkCompleted(y.store, y.stage.run, y.stage.request), Stage.Finished(y.stage.event),
      y.stage.event),
                   y.stage.run, y.stage.request);
  }

  lemma GiveUpFiled(y: System)
    requires Indexed(y.store) && Filed(y) && y.stage.SubmissionFailed?
    ensures Filed(y.(store := FailRequest(y.store, y.stage.run, y.stage.request, false).state,
      stage := Failing(y.stage.event)))
  {
    hide Indexed, OneAlive, CompletedSound, SubmittedSound, Linked;
    OwnersAreKnown(y.store);
    RequestMoves(y, y.(store := FailRequest(y.store, y.stage.run, y.stage.request, false).state,
      stage := Failing(y.stage.event)), y.stage.request);
  }

  // ---- settling and claiming ---------------------------------------------------------------------

  /** One event the worker holds is settled; unless its delivery is given up for good, no request changes. */
  lemma EventMoves(y: System, z: System, id: nat)
    requires Filed(y) && id in y.store.queue.events && y.store.queue.events[id].status == OutboxStatus.Processing
    requires id in z.store.queue.events && z.store.queue.events == y.store.queue.events[id := z.store.queue.events[id]]
    requires z.store.queue.events[id].job == y.store.queue.events[id].job
      && z.store.queue.events[id].run == y.store.queue.events[id].run
    requires z.store.requests.rows == y.store.requests.rows && z.store.runs == y.store.runs && z.stage == Idle
    ensures Filed(z)
  {
    assert Handles(z.stage, z.store.queue.events, z.store.requests.rows);
    hide OneAlive, CompletedSound, SubmittedSound, Handles;
    EventLinked(y.store.queue.events, y.store.requests.rows, id, z.store.queue.events[id]);
  }

  lemma EventLinked(events: map<nat, OutboxEvent>, rows: Requests, id: nat, e: OutboxEvent)
    requires Linked(events, rows) && id in events && events[id].status != OutboxStatus.DeadLetter
    requires e.job == events[id].job && e.run == events[id].run
    ensures Linked(events[id := e], rows)
  {
  }

  lemma AcknowledgeFiled(y: System, log: seq<Delivery>)
    requires Filed(y) && y.stage.Finished?
    ensures Filed(y.(store := CompleteOutbox(y.store, y.stage.event), stage := Idle, deliveries := log))
  {
    EventMoves(y, y.(store := CompleteOutbox(y.store, y.stage.event), stage := Idle, deliveries := log), y.stage.event);
  }

  lemma SubmittedGivenUp(rows: Requests, q: nat, r: Row<IntegrationRequest>, runs: map<nat, Run>)
    requires SubmittedSound(rows, runs) && q in rows && rows[q].data.status != RequestStatus.Completed
    ensures SubmittedSound(rows[q := r], runs)
  {
    forall run | run in runs && runs[run].status == Submitted ensures HasCompleted(rows[q := r], run) {
      assert HasCompleted(rows, run);
      var o :| o in rows && rows[o].run == run && rows[o].data.status == RequestStatus.Completed;
      assert rows[q := r][o] == rows[o];
    }
  }

  /** The last failed attempt gives up the request together with its event. */
  lemma GivenUpMoves(y: System, z: System, id: nat)
    requires Filed(y) && id in y.store.queue.events && y.store.queue.events[id].job.Submit?
    requires id in z.store.queue.events && z.store.queue.events == y.store.queue.events[id := z.store.queue.events[id]]
    requires z.store.queue.events[id].job == y.store.queue.events[id].job
      && z.store.queue.events[id].run == y.store.queue.events[id].run
    requires z.store.queue.events[id].status == OutboxStatus.DeadLetter
    requires var q := y.store.queue.events[id].job.requestId;
             && q in y.store.requests.rows && y.store.requests.rows[q].data.status != RequestStatus.Completed
             && q in z.store.requests.rows
               && z.store.requests.rows == y.store.requests.rows[q := z.store.requests.rows[q]]
             && z.store.requests.rows[q].run == y.store.requests.rows[q].run
             && z.store.requests.rows[q].data.status == RequestStatus.DeadLetter
    requires z.store.runs == y.store.runs && z.stage == Idle
    ensures Filed(z)
  {
    hide SubmittedSound;
    var q := y.store.queue.events[id].job.requestId;
    var rows, r := y.store.requests.rows, z.store.requests.rows[q];
    SubmittedGivenUp(rows, q, r, y.store.runs);
  }

  /** What failing the held delivery does. */
  lemma FailedIs(s: State, id: nat)
    requires id in s.queue.events
    ensures var e, t := s.queue.events[id], FailOutbox(s, id).state;
            && t.runs == s.runs
            && t.queue.events == s.queue.events[id := Outbox.FailedDelivery(e, s.clock)]
            && (if e.job.Submit? && e.run in s.runs && s.requests.Has(e.run, e.job.requestId) then
                  var request := s.requests.rows[e.job.requestId].data;
                  t.requests.rows == s.requests.rows[e.job.requestId :=
                    Row(e.run, request.(status := FailedStatus(request.status, Outbox.LastAttempt(e))))]
                else t.requests.rows == s.requests.rows)
  {
    hide Outbox.FailedDelivery, Outbox.LastAttempt, FailedStatus;
  }

  lemma FailFiled(y: System, log: seq<Delivery>)
    requires Indexed(y.store) && Filed(y) && y.stage.Failing?
    ensures Filed(y.(store := FailOutbox(y.store, y.stage.event).state, stage := Idle, deliveries := log))
  {
    hide Indexed, FailOutbox;
    var id := y.stage.event;
    var z := y.(store := FailOutbox(y.store, id).state, stage := Idle, deliveries := log);
    var e := y.store.queue.events[id];
    FailedIs(y.store, id);
    if e.job.Submit? {
      var q := e.job.requestId;
      OwnersAreKnown(y.store);
      if Outbox.LastAttempt(e) {
        GivenUpMoves(y, z, id);
      } else {
        var w := y.(store := y.store.(requests := z.store.requests));
        RequestMoves(y, w, q);
        EventMoves(w, z, id);
      }
    } else {
      EventMoves(y, z, id);
    }
  }

  /** Recovering and claiming: dead events stay dead, and the claimed event is not one of them. */
  lemma ClaimFiled(y: System)
    requires Indexed(y.store) && Filed(y) && y.stage.Idle?
    ensures Filed(ClaimEvent(y))
  {
    hide Indexed, Later, OneAlive, CompletedSound, SubmittedSound, RecoverBelow, Recoveries, StaleIds;
    var z := ClaimEvent(y);
    var s1 := RecoverStale(y.store);
    RecoverBelowKeeps(y.store, y.store.queue.next);
    RecoveredLinked(y.store.queue.events, s1.queue.events, y.store.requests.rows);
    var found := Outbox.FirstClaimable(s1.queue, s1.clock, 0);
    if found.Some? {
      EventLinked(s1.queue.events, y.store.requests.rows, found.value,
        Outbox.Claim(s1.queue, found.value, s1.clock).events[found.value]);
    }
  }

  lemma RecoveredLinked(a: map<nat, OutboxEvent>, b: map<nat, OutboxEvent>, rows: Requests)
    requires Linked(a, rows) && a.Keys == b.Keys
    requires forall id :: id in a ==>
      b[id].job == a[id].job && b[id].run == a[id].run && (a[id].status == OutboxStatus.DeadLetter ==> b[id] == a[id])
    ensures Linked(b, rows)
  {
  }

  // ---- the worker's other actions ----------------------------------------------------------------

  predicate SubmissionWork(a: Action) {
    a.BeginSubmission? || a.CreateActivity? || a.RecordActivity? || a.CloseTicket? || a.CompleteSubmission?
      || a.FailSubmission?
  }

  lemma OtherStagesHandled(p: Policy, y: System, a: Action)
    requires Enabled(y.stage, a) && !SubmissionWork(a) && !Delivers(y, a)
    requires Handles(y.stage, y.store.queue.events, y.store.requests.rows)
    ensures Handles(Work(p, y, a).stage, y.store.queue.events, y.store.requests.rows)
  {
    hide ReadPlannerContext, CheckNotAborted, AppendEvent, CreateActivityDraft, ReceiveOutput, ProposeAgentStep,
      CompleteExecution;
  }

  lemma OtherWorkStays(p: Policy, y: System, a: Action)
    requires Indexed(y.store) && Enabled(y.stage, a) && !SubmissionWork(a) && !Delivers(y, a)
    ensures Work(p, y, a).store.requests == y.store.requests
    ensures Tended(y.store.queue, Work(p, y, a).store.queue, false)
  {
    hide Indexed, Tended, CreateStep, CompleteExecution, ReceiveOutput, StartCommand, ReadPlannerContext,
      CheckNotAborted, AppendEvent, CreateActivityDraft, InvokeRunner;
    WorkTended(p, y, a);
  }

  lemma FinishSubmitted(p: Policy, y: System, a: Action)
    requires Indexed(y.store) && Attended(y) && Enabled(y.stage, a) && a.Finish?
    ensures SubmittedStay(y.store.runs, Work(p, y, a).store.runs)
  {
    hide Indexed, CompleteExecution;
    FinishMoves(p, y.store, y.stage.run, y.stage.execution, a.exitCode, a.error, a.timedOut);
  }

  lemma OtherWorkFiled(p: Policy, y: System, a: Action)
    requires Indexed(y.store) && Attended(y) && Filed(y) && Enabled(y.stage, a) && !SubmissionWork(a) && !Delivers(y, a)
    ensures Filed(Work(p, y, a))
  {
    assert Handles(y.stage, y.store.queue.events, y.store.requests.rows);
    assert !a.CompleteSubmission?;
    hide *;
    var z := Work(p, y, a);
    OtherStagesHandled(p, y, a);
    OtherWorkStays(p, y, a);
    if a.Finish? {
      FinishSubmitted(p, y, a);
    } else {
      WorkMoves(p, y, a);
      MovesSubmitted(y.store.runs, z.store.runs);
    }
    FiledStays(y, z);
  }

  lemma SubmissionWorkFiled(p: Policy, y: System, a: Action)
    requires Indexed(y.store) && Filed(y) && Enabled(y.stage, a) && SubmissionWork(a)
    ensures Filed(Work(p, y, a))
  {
    hide Indexed, Filed, TakeRequest, AskForActivity, Branch, MarkActivityCreated, MarkCompleted, FailRequest;
    match a
    case BeginSubmission => TakeFiled(y);
    case CreateActivity(answer) => AskFiled(y, answer);
    case RecordActivity => RecordFiled(y);
    case CloseTicket(succeeded) => CloseFiled(y, succeeded);
    case CompleteSubmission => CompleteFiled(y);
    case FailSubmission => GiveUpFiled(y);
  }

  lemma DeliveryFiled(p: Policy, y: System, a: Action)
    requires Indexed(y.store) && Filed(y) && Enabled(y.stage, a) && Delivers(y, a)
    ensures Filed(Work(p, y, a))
  {
    hide Indexed, Filed, ClaimEvent, CompleteOutbox, FailOutbox;
    match a
    case Claim => ClaimFiled(y);
    case Acknowledge => AcknowledgeFiled(y, y.deliveries + [WasAcknowledged(y.stage.event)]);
    case Fail => FailFiled(y, y.deliveries + [HasFailed(y.stage.event)]);
  }

  lemma WorkFiled(p: Policy, y: System, a: Action)
    requires Indexed(y.store) && Attended(y) && Filed(y) && Enabled(y.stage, a)
    ensures Filed(Work(p, y, a))
  {
    hide *;
    if SubmissionWork(a) { SubmissionWorkFiled(p, y, a); }
    else if Delivers(y, a) { DeliveryFiled(p, y, a); }
    else { OtherWorkFiled(p, y, a); }
  }

  lemma NextFiled(p: Policy, y: System, a: Action)
    requires Indexed(y.store) && Attended(y) && Filed(y)
    ensures Filed(Next(p, y, a))
  {
    hide Indexed, Attended, Work, Enabled, QueueSubmission;
    match a
    case Api(call) => if call.SubmitActivity? {
      QueueFiled(p, y, call.run);
    } else {
      hide Apply;
      CallFiled(p, y, call);
    }
    case Wait(_) =>
    case Crash =>
    case _ => if Enabled(y.stage, a) { WorkFiled(p, y, a); }
  }

  lemma {:induction false} AlwaysFiled(p: Policy, limit: nat, clock: int, actions: seq<Action>)
    ensures Filed(After(p, Begin(limit, clock), actions))
    decreases |actions|
  {
    if actions != [] {
      hide Indexed, Attended, Filed, Next;
      AlwaysFiled(p, limit, clock, actions[..|actions| - 1]);
      AlwaysIndexed(p, limit, clock, actions[..|actions| - 1]);
      AlwaysAttended(p, limit, clock, actions[..|actions| - 1]);
      NextFiled(p, After(p, Begin(limit, clock), actions[..|actions| - 1]), actions[|actions| - 1]);
    }
  }

  /**
   * In every reachable state a run has at most one open request; it is submitted exactly if it has a completed request;
   * and a completed request carries an activity id and a closed ticket, and is the only one not given up.
   */
  lemma SubmissionIsSafe(p: Policy, limit: nat, clock: int, actions: seq<Action>, run: nat)
    requires run in After(p, Begin(limit, clock), actions).store.runs
    ensures var s := After(p, Begin(limit, clock), actions).store;
            && (forall a, b ::
                  s.requests.Has(run, a) && s.requests.Has(run, b)
                  && Open(s.requests.rows[a].data.status) && Open(s.requests.rows[b].data.status)
                  ==> a == b)
            && (s.runs[run].status == Submitted <==>
              exists q :: s.requests.Has(run, q) && s.requests.rows[q].data.status == RequestStatus.Completed)
            && (forall q :: s.requests.Has(run, q) && s.requests.rows[q].data.status == RequestStatus.Completed ==>
                  s.requests.rows[q].data.activityId.Some? && s.requests.rows[q].data.ticketDone
                  && forall o :: s.requests.Has(run, o) && Alive(s.requests.rows[o].data.status) ==> o == q)
  {
    hide After;
    AlwaysFiled(p, limit, clock, actions);
  }

  // ---- what is never undone ----------------------------------------------------------------------

  predicate RequestLater(a: IntegrationRequest, b: IntegrationRequest) {
    && (a.activityId.Some? ==> b.activityId == a.activityId)
    && (a.status == RequestStatus.Completed ==> b == a)
  }

  ghost predicate RequestsLater(a: Requests, b: Requests) {
    forall q :: q in a ==> q in b && RequestLater(a[q].data, b[q].data)
  }

  /** Phoenix is asked for at most one more activity, and not for a request that has its activity. */
  ghost predicate AskedLater(y: System, z: System) {
    z.creations == y.creations
    || exists q :: q in y.store.requests.rows && y.store.requests.rows[q].data.activityId.None?
         && z.creations == y.creations + [q]
  }

  lemma AskKeeps(y: System, answer: Option<int>)
    requires Filed(y) && y.stage.Submitting?
    ensures AskedLater(y, AskForActivity(y, y.stage.event, y.stage.run, y.stage.request, y.stage.known, answer))
  {
    hide OneAlive, CompletedSound, SubmittedSound, Linked;
  }

  lemma RecordKeeps(y: System)
    requires Filed(y) && y.stage.Created?
    ensures RequestsLater(y.store.requests.rows,
      MarkActivityCreated(y.store, y.stage.run, y.stage.request, y.stage.activity).state.requests.rows)
  {
    hide OneAlive, CompletedSound, SubmittedSound, Linked;
  }

  lemma CompleteKeeps(y: System)
    requires Filed(y) && y.stage.TicketClosed?
    ensures RequestsLater(y.store.requests.rows,
      MarkCompleted(y.store, y.stage.run, y.stage.request).state.requests.rows)
  {
    hide OneAlive, CompletedSound, SubmittedSound, Linked;
  }

  lemma GiveUpKeeps(y: System)
    requires Filed(y) && y.stage.SubmissionFailed?
    ensures RequestsLater(y.store.requests.rows,
      FailRequest(y.store, y.stage.run, y.stage.request, false).state.requests.rows)
  {
    hide OneAlive, CompletedSound, SubmittedSound, Linked;
  }

  lemma FailKeeps(y: System)
    requires Filed(y) && y.stage.Failing?
    ensures RequestsLater(y.store.requests.rows, FailOutbox(y.store, y.stage.event).state.requests.rows)
  {
    hide FailOutbox, Outbox.FailedDelivery, Outbox.LastAttempt, FailedStatus, OneAlive, CompletedSound, SubmittedSound,
      Linked;
    FailedIs(y.store, y.stage.event);
  }

  lemma SubmitKeeps(s: State, run: nat)
    requires Indexed(s)
    ensures RequestsLater(s.requests.rows, QueueSubmission(s, run).state.requests.rows)
  {
    hide Indexed, QueueSubmission;
    FreshIds(s);
    if QueueSubmission(s, run).state != s { QueuedIs(s, run); }
  }

  lemma TakeKeeps(y: System)
    ensures y.stage.Claimed? && y.stage.job.Submit? ==>
              RequestsLater(y.store.requests.rows,
                TakeRequest(y, y.stage.event, y.stage.run, y.stage.job.requestId).store.requests.rows)
  {
  }

  lemma SameRequests(a: Requests)
    ensures RequestsLater(a, a)
  {
  }

  lemma SubmissionWorkKeeps(p: Policy, y: System, a: Action)
    requires Filed(y) && Enabled(y.stage, a) && (SubmissionWork(a) || a.Fail?)
    ensures RequestsLater(y.store.requests.rows, Work(p, y, a).store.requests.rows) && AskedLater(y, Work(p, y, a))
  {
    SameRequests(y.store.requests.rows);
    hide Filed, RequestsLater, TakeRequest, AskForActivity, MarkActivityCreated, MarkCompleted, FailRequest, FailOutbox;
    match a
    case BeginSubmission => TakeKeeps(y);
    case CreateActivity(answer) => AskKeeps(y, answer);
    case RecordActivity => RecordKeeps(y);
    case CloseTicket(succeeded) =>
    case CompleteSubmission => CompleteKeeps(y);
    case FailSubmission => GiveUpKeeps(y);
    case Fail => FailKeeps(y);
  }

  lemma OtherWorkKeeps(p: Policy, y: System, a: Action)
    requires Indexed(y.store) && Enabled(y.stage, a) && !SubmissionWork(a) && !a.Fail?
    ensures Work(p, y, a).store.requests == y.store.requests
  {
    if Delivers(y, a) {
      hide Indexed, ClaimEvent, CompleteOutbox;
    } else {
      hide *;
      OtherWorkStays(p, y, a);
    }
  }

  lemma NextSettles(p: Policy, y: System, a: Action)
    requires Indexed(y.store) && Filed(y)
    ensures RequestsLater(y.store.requests.rows, Next(p, y, a).store.requests.rows) && AskedLater(y, Next(p, y, a))
  {
    hide Indexed, Filed, Apply, Work, Enabled;
    match a
    case Api(call) => CallKeeps(p, y.store, call);
    case _ =>
      if Enabled(y.stage, a) { WorkKeeps(p, y, a); }
  }

  lemma CallKeeps(p: Policy, s: State, call: Call)
    requires Indexed(s)
    ensures RequestsLater(s.requests.rows, Apply(p, s, call).requests.rows)
  {
    hide Indexed, QueueSubmission;
    if call.SubmitActivity? { SubmitKeeps(s, call.run); } else { hide Apply; CallTended(p, s, call); }
  }

  lemma WorkKeeps(p: Policy, y: System, a: Action)
    requires Indexed(y.store) && Filed(y) && Enabled(y.stage, a)
    ensures RequestsLater(y.store.requests.rows, Work(p, y, a).store.requests.rows) && AskedLater(y, Work(p, y, a))
  {
    hide Indexed, Filed;
    if SubmissionWork(a) || a.Fail? {
      SubmissionWorkKeeps(p, y, a);
    } else {
      OtherWorkKeeps(p, y, a);
    }
  }

  /** The request has its activity, and nothing was asked for it since. */
  ghost predicate Settles(y: System, z: System, q: nat) {
    && q in y.store.requests.rows && q in z.store.requests.rows
    && RequestLater(y.store.requests.rows[q].data, z.store.requests.rows[q].data)
    && y.creations <= z.creations
    && forall i :: |y.creations| <= i < |z.creations| ==> z.creations[i] != q
  }

  lemma SettlesThen(y: System, w: System, z: System, q: nat)
    requires Settles(y, w, q) && y.store.requests.rows[q].data.activityId.Some?
    requires RequestsLater(w.store.requests.rows, z.store.requests.rows) && AskedLater(w, z)
    ensures Settles(y, z, q)
  {
  }

  ghost predicate Orderly(y: System) { Indexed(y.store) && Attended(y) && Filed(y) }

  lemma NextOrderly(p: Policy, y: System, a: Action)
    requires Orderly(y)
    ensures Orderly(Next(p, y, a)) && RequestsLater(y.store.requests.rows, Next(p, y, a).store.requests.rows)
      && AskedLater(y, Next(p, y, a))
  {
    hide Indexed, Attended, Filed, Next, RequestsLater, AskedLater;
    NextIndexed(p, y, a);
    NextAttended(p, y, a);
    NextFiled(p, y, a);
    NextSettles(p, y, a);
  }

  /**
   * Once Phoenix's activity id is recorded for a request it never changes, and Phoenix is never asked for another
   * activity for that request; and once a request is completed nothing about it changes, however often it is
   * redelivered.
   */
  lemma {:induction false} RecordedForGood(p: Policy, y: System, actions: seq<Action>, q: nat)
    requires q in y.store.requests.rows && y.store.requests.rows[q].data.activityId.Some?
    requires Orderly(y)
    ensures Orderly(After(p, y, actions)) && Settles(y, After(p, y, actions), q)
    decreases |actions|
  {
    hide *;
    AfterUnfolds(p, y, actions);
    if actions == [] {
      SettlesStill(y, q);
    } else {
      var before, a := After(p, y, actions[..|actions| - 1]), actions[|actions| - 1];
      RecordedForGood(p, y, actions[..|actions| - 1], q);
      NextOrderly(p, before, a);
      SettlesThen(y, before, Next(p, before, a), q);
    }
  }

  lemma SettlesStill(y: System, q: nat)
    requires q in y.store.requests.rows
    ensures Settles(y, y, q)
  {
  }

  lemma AlwaysOrderly(p: Policy, limit: nat, clock: int, actions: seq<Action>)
    ensures Orderly(After(p, Begin(limit, clock), actions))
  {
    hide After, Indexed, Attended, Filed;
    AlwaysIndexed(p, limit, clock, actions);
    AlwaysAttended(p, limit, clock, actions);
    AlwaysFiled(p, limit, clock, actions);
  }

  /** The same from the start of the system. */
  lemma NoSecondActivity(p: Policy, limit: nat, clock: int, before: seq<Action>, after: seq<Action>, q: nat)
    requires var y := After(p, Begin(limit, clock), before);
             q in y.store.requests.rows && y.store.requests.rows[q].data.activityId.Some?
    ensures Settles(After(p, Begin(limit, clock), before), After(p, After(p, Begin(limit, clock), before), after), q)
  {
    AlwaysOrderly(p, limit, clock, before);
    hide *;
    RecordedForGood(p, After(p, Begin(limit, clock), before), after, q);
  }

  /** Redelivering a completed submission changes nothing in the store: the worker goes straight to acknowledging it. */
  lemma RedeliveryDoesNothing(p: Policy, y: System)
    requires y.stage.Claimed? && y.stage.job.Submit? && y.stage.job.requestId in y.store.requests.rows
    requires y.store.requests.rows[y.stage.job.requestId].data.status == RequestStatus.Completed
    requires Indexed(y.store) && Filed(y)
    ensures Next(p, y, BeginSubmission) == y.(stage := Stage.Finished(y.stage.event))
  {
    hide Indexed, OneAlive, CompletedSound, SubmittedSound;
    OwnersAreKnown(y.store);
  }
}
