/** How often Phoenix can be asked for the activity of one request, over any history with crashes and redeliveries. */
module Asking {
  import opened Wrappers
  import opened Tables
  import opened Model
  import opened Store
  import opened Indexing
  import opened History
  import Footprints
  import opened Delivery
  import opened Accounting
  import opened Ending
  import opened Submission
  import Outbox

  /** The worker is about to ask for the request. */
  function AboutToAsk(stage: Stage, q: nat): nat {
    if stage.Submitting? && stage.request == q && stage.known.None? then 1 else 0
  }

  /** The worker holds the event and has not yet turned to its request. */
  function JustClaimed(stage: Stage, id: nat): nat { if stage.Claimed? && stage.event == id then 1 else 0 }

  /** No request was asked for more often than it was attempted. */
  ghost predicate AsksCounted(stage: Stage, creations: seq<nat>, rows: Requests) {
    forall q :: q in rows ==> multiset(creations)[q] + AboutToAsk(stage, q) <= rows[q].data.attempts
  }

  /** No request was attempted more often than its event was delivered. */
  ghost predicate AttemptsCounted(stage: Stage, events: map<nat, OutboxEvent>, rows: Requests) {
    forall id :: id in events && events[id].job.Submit? ==>
      && events[id].job.requestId in rows
      && rows[events[id].job.requestId].data.attempts + JustClaimed(stage, id) <= events[id].attempts
  }

  ghost predicate HasEvent(events: map<nat, OutboxEvent>, q: nat) {
    exists id :: id in events && events[id].job == Submit(q)
  }

  ghost predicate AsksKnown(creations: seq<nat>, events: map<nat, OutboxEvent>, rows: Requests) {
    forall q :: q in creations ==> q in rows && HasEvent(events, q)
  }

  ghost predicate Tallied(y: System) {
    && AsksCounted(y.stage, y.creations, y.store.requests.rows)
    && AttemptsCounted(y.stage, y.store.queue.events, y.store.requests.rows)
    && AsksKnown(y.creations, y.store.queue.events, y.store.requests.rows)
  }

  // ---- actions that leave submissions alone ----------------------------------------------------------

  lemma TalliedStays(y: System, z: System)
    requires Tallied(y) && z.creations == y.creations && z.store.requests.rows == y.store.requests.rows
    requires Tended(y.store.queue, z.store.queue, false)
    requires z.stage == y.stage || !(z.stage.Submitting? || z.stage.Claimed?)
    ensures Tallied(z)
  {
    forall q | q in z.creations ensures HasEvent(z.store.queue.events, q) {
      var id :| id in y.store.queue.events && y.store.queue.events[id].job == Submit(q);
      assert z.store.queue.events[id].job == Submit(q);
    }
  }

  lemma TalliedQueued(y: System, z: System, run: nat)
    requires Tallied(y) && y.store.requests.next !in y.store.requests.rows
      && y.store.queue.next !in y.store.queue.events
    requires z.stage == y.stage && z.creations == y.creations
      && (y.stage.Claimed? ==> y.stage.event in y.store.queue.events)
    requires y.store.requests.next in z.store.requests.rows
    requires z.store.requests.rows ==
      y.store.requests.rows[y.store.requests.next := z.store.requests.rows[y.store.requests.next]]
    requires z.store.requests.rows[y.store.requests.next].data.attempts == 0
    requires (y.stage.Submitting? ==> y.stage.request in y.store.requests.rows)
    requires z.store.queue == Outbox.Enqueue(y.store.queue, run, Submit(y.store.requests.next), y.store.clock)
    ensures Tallied(z)
  {
    forall q | q in z.creations ensures HasEvent(z.store.queue.events, q) {
      var id :| id in y.store.queue.events && y.store.queue.events[id].job == Submit(q);
      assert z.store.queue.events[id].job == Submit(q);
    }
    assert y.store.requests.next !in y.creations;
  }

  lemma SubmitTallied(y: System, run: nat)
    requires Indexed(y.store) && Filed(y) && Tallied(y)
    ensures Tallied(y.(store := QueueSubmission(y.store, run).state))
  {
    hide Indexed, QueueIndexed, TimelineIndexed, Table.Indexed, Tallied, Tended, QueueSubmission, Outbox.Enqueue;
    var s, t := y.store, QueueSubmission(y.store, run).state;
    if t != s {
      QueuedIs(s, run);
      FreshIds(s);
      IndexedMeans(s);
      TendedRules(s.queue, s.runs.Keys, false);
      var w := y.(store := s.(queue := Outbox.CancelPending(s.queue, run, Outbox.DraftJob)));
      TalliedStays(y, w);
      TalliedQueued(w, y.(store := t), run);
    }
  }

  lemma CallTallied(p: Policy, y: System, call: Call)
    requires Indexed(y.store) && Filed(y) && Tallied(y)
    ensures Tallied(y.(store := Apply(p, y.store, call)))
  {
    hide Indexed, Filed, Tallied, QueueSubmission, Tended;
    if call.SubmitActivity? {
      SubmitTallied(y, call.run);
    } else {
      hide Apply;
      CallTended(p, y.store, call);
      TalliedStays(y, y.(store := Apply(p, y.store, call)));
    }
  }

  lemma OtherWorkTallied(p: Policy, y: System, a: Action)
    requires Enabled(y.stage, a) && !SubmissionWork(a) && !Delivers(y, a) && Indexed(y.store) && Tallied(y)
    ensures Tallied(Work(p, y, a))
  {
    hide Indexed, Tallied, Tended;
    OtherWorkStays(p, y, a);
    TalliedStays(y, Work(p, y, a));
  }

  // ---- submitting ------------------------------------------------------------------------------------

  lemma SameTally(y: System, z: System)
    requires Tallied(y) && z.creations == y.creations && z.store.queue.events.Keys == y.store.queue.events.Keys
    requires forall id :: id in y.store.queue.events ==>
      z.store.queue.events[id].job == y.store.queue.events[id].job
        && z.store.queue.events[id].attempts == y.store.queue.events[id].attempts
    requires z.store.requests.rows.Keys == y.store.requests.rows.Keys
    requires forall q :: q in y.store.requests.rows ==>
      z.store.requests.rows[q].data.attempts == y.store.requests.rows[q].data.attempts
    requires !(z.stage.Submitting? || z.stage.Claimed?)
    ensures Tallied(z)
  {
    forall q | q in z.creations ensures HasEvent(z.store.queue.events, q) {
      var id :| id in y.store.queue.events && y.store.queue.events[id].job == Submit(q);
      assert z.store.queue.events[id].job == Submit(q);
    }
  }

  lemma TakeTallied(y: System)
    requires y.stage.Claimed? && y.stage.job.Submit? && Indexed(y.store) && Filed(y) && Tallied(y)
    ensures Tallied(TakeRequest(y, y.stage.event, y.stage.run, y.stage.job.requestId))
  {
    hide Indexed, OneAlive, CompletedSound, SubmittedSound;
    var q := y.stage.job.requestId;
    var z := TakeRequest(y, y.stage.event, y.stage.run, q);
    if !z.stage.Submitting? { SameTally(y, z); }
  }

  lemma AskTallied(y: System, answer: Option<int>)
    requires y.stage.Submitting? && Filed(y) && Tallied(y)
    ensures Tallied(AskForActivity(y, y.stage.event, y.stage.run, y.stage.request, y.stage.known, answer))
  {
    assert HasEvent(y.store.queue.events, y.stage.request);
  }

  predicate SameAttempts(a: Requests, b: Requests) {
    b.Keys == a.Keys && forall q :: q in a ==> b[q].data.attempts == a[q].data.attempts
  }

  lemma SameAttemptsAfter(s: State, run: nat, id: nat, activityId: int, terminal: bool)
    ensures SameAttempts(s.requests.rows, MarkActivityCreated(s, run, id, activityId).state.requests.rows)
    ensures SameAttempts(s.requests.rows, MarkCompleted(s, run, id).state.requests.rows)
    ensures SameAttempts(s.requests.rows, FailRequest(s, run, id, terminal).state.requests.rows)
  {
    hide FailedStatus;
  }

  /** Recording, closing, completing and giving up change no count. */
  lemma ClosingWorkIs(p: Policy, y: System, a: Action)
    requires Enabled(y.stage, a) && (a.RecordActivity? || a.CloseTicket? || a.CompleteSubmission? || a.FailSubmission?)
    ensures var z := Work(p, y, a);
            && z.creations == y.creations && z.store.queue == y.store.queue
            && !(z.stage.Submitting? || z.stage.Claimed?)
            && SameAttempts(y.store.requests.rows, z.store.requests.rows)
  {
    hide MarkActivityCreated, MarkCompleted, FailRequest;
    var s, at := y.store, y.stage;
    match a
    case RecordActivity => SameAttemptsAfter(s, at.run, at.request, at.activity, false);
    case CloseTicket(_) => assert SameAttempts(s.requests.rows, s.requests.rows);
    case CompleteSubmission => SameAttemptsAfter(s, at.run, at.request, 0, false);
    case FailSubmission => SameAttemptsAfter(s, at.run, at.request, 0, false);
    case _ => assert false;
  }

  lemma SubmissionWorkTallied(p: Policy, y: System, a: Action)
    requires SubmissionWork(a) && Enabled(y.stage, a) && Indexed(y.store) && Filed(y) && Tallied(y)
    ensures Tallied(Work(p, y, a))
  {
    hide Indexed, Filed, Tallied, TakeRequest, AskForActivity, MarkActivityCreated, MarkCompleted, FailRequest;
    if a.BeginSubmission? {
      TakeTallied(y);
    } else if a.CreateActivity? {
      AskTallied(y, a.answer);
    } else {
      ClosingWorkIs(p, y, a);
      SameTally(y, Work(p, y, a));
    }
  }

  // ---- deliveries ------------------------------------------------------------------------------------

  lemma ClaimTallied(y: System)
    requires y.stage.Idle? && Indexed(y.store) && Filed(y) && Tallied(y)
    ensures Tallied(ClaimEvent(y))
  {
    hide Indexed, Filed, Tallied, RecoverBelow, Outbox.Stale, Later;
    var z, s1 := ClaimEvent(y), RecoverStale(y.store);
    RecoveredAlike(y.store);
    var w := y.(store := y.store.(queue := s1.queue));
    SameTally(y, w);
    var found := Outbox.FirstClaimable(s1.queue, s1.clock, 0);
    if found.Some? { ClaimedTallied(w, z, found.value); } else { SameTally(w, z); }
  }

  lemma RecoveredAlike(s: State)
    requires Indexed(s)
    ensures RecoverStale(s).queue.events.Keys == s.queue.events.Keys
    ensures forall id :: id in s.queue.events ==>
      RecoverStale(s).queue.events[id].job == s.queue.events[id].job
        && RecoverStale(s).queue.events[id].attempts == s.queue.events[id].attempts
  {
    hide Indexed, Later, RecoverBelow, Outbox.Stale;
    Footprints.RecoverBelowKeeps(s, s.queue.next);
  }

  lemma ClaimedTallied(w: System, z: System, id: nat)
    requires Tallied(w) && w.stage.Idle? && z.creations == w.creations && z.store.requests == w.store.requests
    requires id in w.store.queue.events && z.store.queue == Outbox.Claim(w.store.queue, id, w.store.clock)
    requires z.stage == Claimed(id, w.store.queue.events[id].run, w.store.queue.events[id].job)
    ensures Tallied(z)
  {
    forall q | q in z.creations ensures HasEvent(z.store.queue.events, q) {
      var e :| e in w.store.queue.events && w.store.queue.events[e].job == Submit(q);
      assert z.store.queue.events[e].job == Submit(q);
    }
  }

  lemma FailTallied(y: System, log: seq<Delivery>)
    requires y.stage.Failing? && Filed(y) && Tallied(y)
    ensures Tallied(y.(store := FailOutbox(y.store, y.stage.event).state, stage := Idle, deliveries := log))
  {
    hide Tallied, FailOutbox, Outbox.LastAttempt, FailedStatus;
    FailedIs(y.store, y.stage.event);
    SameTally(y, y.(store := FailOutbox(y.store, y.stage.event).state, stage := Idle, deliveries := log));
  }

  lemma DeliveryTallied(p: Policy, y: System, a: Action)
    requires Delivers(y, a) && Enabled(y.stage, a) && Indexed(y.store) && Filed(y) && Tallied(y)
    ensures Tallied(Work(p, y, a))
  {
    hide Indexed, Filed, Tallied, ClaimEvent, FailOutbox;
    match a
    case Claim => ClaimTallied(y);
    case Acknowledge => SameTally(y, Work(p, y, a));
    case Fail => FailTallied(y, Work(p, y, a).deliveries);
  }

  lemma NextTallied(p: Policy, y: System, a: Action)
    requires Indexed(y.store) && Filed(y) && Tallied(y)
    ensures Tallied(Next(p, y, a))
  {
    hide Indexed, QueueIndexed, TimelineIndexed, Table.Indexed, Filed, Tallied, Tended, Apply, Work, Enabled, Delivers;
    IndexedMeans(y.store);
    TendedRules(y.store.queue, y.store.runs.Keys, false);
    match a
    case Api(call) => CallTallied(p, y, call);
    case Wait(_) => TalliedStays(y, Next(p, y, a));
    case Crash => TalliedStays(y, Next(p, y, a));
    case _ =>
      if Enabled(y.stage, a) {
        if Delivers(y, a) { DeliveryTallied(p, y, a); }
        else if SubmissionWork(a) { SubmissionWorkTallied(p, y, a); }
        else { OtherWorkTallied(p, y, a); }
      }
  }

  // ---- over whole histories --------------------------------------------------------------------------

  lemma BeginsTallied(limit: nat, clock: int)
    ensures Tallied(Begin(limit, clock))
  {
  }

  lemma {:induction false} AlwaysTallied(p: Policy, limit: nat, clock: int, actions: seq<Action>)
    ensures Tallied(After(p, Begin(limit, clock), actions))
    decreases |actions|
  {
    hide *;
    AfterUnfolds(p, Begin(limit, clock), actions);
    if actions == [] {
      BeginsTallied(limit, clock);
    } else {
      AlwaysTallied(p, limit, clock, actions[..|actions| - 1]);
      AlwaysOrderly(p, limit, clock, actions[..|actions| - 1]);
      OrderlyMeans(After(p, Begin(limit, clock), actions[..|actions| - 1]));
      NextTallied(p, After(p, Begin(limit, clock), actions[..|actions| - 1]), actions[|actions| - 1]);
    }
  }

  lemma OrderlyMeans(y: System)
    requires Orderly(y)
    ensures Indexed(y.store) && Filed(y)
  {
    hide Indexed, Attended, Filed;
  }

  lemma TalliedMeans(y: System, q: nat)
    requires Tallied(y) && q in y.creations
    ensures q in y.store.requests.rows
    ensures exists id :: id in y.store.queue.events && y.store.queue.events[id].job == Submit(q)
              && multiset(y.creations)[q] <= y.store.requests.rows[q].data.attempts <= y.store.queue.events[id].attempts
  {
    var id :| id in y.store.queue.events && y.store.queue.events[id].job == Submit(q);
    assert y.store.requests.rows[q].data.attempts <= y.store.queue.events[id].attempts;
  }

  /**
   * Phoenix is asked for the activity of a request no more often than the request was attempted, which is no more often
   * than its event was delivered: three times, and once more for each time the worker was lost while it held the event.
   */
  lemma AsksAreBounded(p: Policy, limit: nat, clock: int, actions: seq<Action>, q: nat)
    requires q in After(p, Begin(limit, clock), actions).creations
    ensures var y := After(p, Begin(limit, clock), actions);
            && q in y.store.requests.rows
            && exists id :: id in y.store.queue.events && y.store.queue.events[id].job == Submit(q)
                 && multiset(y.creations)[q] <= y.store.requests.rows[q].data.attempts
                 && y.store.requests.rows[q].data.attempts <= y.store.queue.events[id].attempts
                 && y.store.queue.events[id].attempts <= 3 + Count(y.deliveries, WasRecovered(id))
  {
    hide *;
    var y := After(p, Begin(limit, clock), actions);
    AlwaysTallied(p, limit, clock, actions);
    TalliedMeans(y, q);
    AttemptsAreAccountedFor(p, limit, clock, actions);
  }
}
