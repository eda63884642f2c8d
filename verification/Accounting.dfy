/** The outbox keeps exact books of every delivery, under one worker that may crash. */
module Accounting {
  import opened Wrappers
  import opened Tables
  import opened Model
  import opened Store
  import opened Indexing
  import opened History
  import opened Footprints
  import opened Delivery
  import opened Runs
  import Outbox

  function Count(log: seq<Delivery>, d: Delivery): nat {
    if log == [] then 0 else Count(log[..|log| - 1], d) + if log[|log| - 1] == d then 1 else 0
  }

  predicate Settled(status: OutboxStatus) { status == OutboxStatus.Completed || status == OutboxStatus.DeadLetter }

  function Held(status: OutboxStatus): nat { if status == OutboxStatus.Processing then 1 else 0 }

  /** The books of one event. */
  ghost predicate BooksAgree(e: OutboxEvent, claims: nat, failures: nat, recoveries: nat, acks: nat) {
    && e.attempts == claims
    && claims == failures + recoveries + acks + Held(e.status)
    && (!Settled(e.status) ==> failures <= 2 && acks == 0)
    && (Settled(e.status) ==> failures + acks <= 3 && acks <= 1)
    && (e.status == OutboxStatus.Failed ==> 1 <= failures && e.attempts <= 2)
    && (e.status == OutboxStatus.DeadLetter ==> e.attempts >= 3 && acks == 0)
  }

  ghost predicate Balanced(q: Queue, log: seq<Delivery>) {
    && (forall id :: id in q.events ==>
          BooksAgree(q.events[id], Count(log, WasClaimed(id)), Count(log, HasFailed(id)),
                     Count(log, WasRecovered(id)), Count(log, WasAcknowledged(id))))
    && (forall i :: 0 <= i < |log| ==> log[i].event in q.events)
  }

  /** The event the worker holds. */
  function InHand(stage: Stage): Option<nat> { if stage.Idle? then None else Some(stage.event) }

  /** The worker's event is the only one it is processing, and it is still marked as such. */
  ghost predicate Holding(q: Queue, stage: Stage) {
    InHand(stage).Some? ==>
      InHand(stage).value in q.events && q.events[InHand(stage).value].status == OutboxStatus.Processing
  }

  /**
   * What calls and store operations other than claiming and settling may do to the queue: close events that are not
   * being processed, and add new ones; submissions are never closed, and only added where that is allowed.
   */
  ghost predicate Tended(a: Queue, b: Queue, submits: bool) {
    && a.next <= b.next
    && (forall id :: id in b.events ==> id < b.next)
    && (forall id :: id in a.events ==> id in b.events)
    && (forall id :: id in a.events ==>
          b.events[id] == a.events[id]
          || (a.events[id].status != OutboxStatus.Processing && !a.events[id].job.Submit?
              && b.events[id] == a.events[id].(status := OutboxStatus.Completed)))
    && (forall id :: id in b.events && id !in a.events ==>
          && b.events[id].attempts == 0
          && (b.events[id].status == OutboxStatus.Pending || b.events[id].status == OutboxStatus.Completed)
          && (b.events[id].job.Submit? ==> submits))
  }

  /** Ways of tending the queue. */
  lemma TendedRules(a: Queue, runs: set<nat>, submits: bool)
    requires QueueIndexed(a, runs)
    ensures Tended(a, a, submits)
    ensures forall q: Queue, run: nat, job: Job, now: int {:trigger Outbox.Enqueue(q, run, job, now)} ::
      Tended(a, q, submits) && (job.Submit? ==> submits) ==> Tended(a, Outbox.Enqueue(q, run, job, now), submits)
    ensures forall q: Queue, run: nat, kind: Outbox.Kind {:trigger Outbox.CancelPending(q, run, kind)} ::
      Tended(a, q, submits) && kind != Outbox.SubmitJob ==> Tended(a, Outbox.CancelPending(q, run, kind), submits)
    ensures forall q: Queue, run: nat {:trigger Outbox.Supersede(q, run)} ::
      Tended(a, q, submits) ==> Tended(a, Outbox.Supersede(q, run), submits)
  {
    forall q: Queue, run: nat, kind: Outbox.Kind {:trigger Outbox.CancelPending(q, run, kind)}
      | Tended(a, q, submits) && kind != Outbox.SubmitJob
      ensures Tended(a, Outbox.CancelPending(q, run, kind), submits)
    {
    }
    forall q: Queue, run: nat | Tended(a, q, submits) ensures Tended(a, Outbox.Supersede(q, run), submits) {
    }
  }

  lemma EditTended(p: Policy, s: State, run: nat, id: nat, command: string, purpose: Option<string>)
    requires Indexed(s)
    ensures Tended(s.queue, EditAndApproveStep(p, s, run, id, command, purpose).state.queue, false)
  {
    hide Indexed, QueueIndexed, TimelineIndexed, Table.Indexed, Tended, Outbox.Enqueue, Note, FixGate, BackupGate,
      EditedStep;
    IndexedMeans(s);
    TendedRules(s.queue, s.runs.Keys, false);
  }

  lemma CallTended(p: Policy, s: State, call: Call)
    requires Indexed(s)
    ensures Tended(s.queue, Apply(p, s, call).queue, call.SubmitActivity?)
    ensures !call.SubmitActivity? ==> Apply(p, s, call).requests.rows == s.requests.rows
  {
    hide Indexed, QueueIndexed, TimelineIndexed, Table.Indexed, Tended, Outbox.Enqueue, Outbox.CancelPending,
      Outbox.Supersede, Note, FixGate, BackupGate, EditAndApproveStep, CreateStep, NotReady, SavedDraft, NewRequest,
      OpenRequest, Incomplete;
    IndexedMeans(s);
    TendedRules(s.queue, s.runs.Keys, call.SubmitActivity?);
    if call.EditAndApprove? { EditTended(p, s, call.run, call.step, call.command, call.newPurpose); }
  }

  lemma ConcludeTended(p: Policy, s: State, run: nat, id: nat, step: Step, done: Execution)
    requires QueueIndexed(s.queue, s.runs.Keys) && run in s.runs
    ensures Tended(s.queue, Conclude(p, s, run, id, step, done).queue, false)
  {
    hide QueueIndexed, Tended, Outbox.Enqueue, ApplyResult, SuiteVerdict, ResultOf, AddExpectations, Suite.Specs,
      NewIds, FailedUnseen;
    TendedRules(s.queue, s.runs.Keys, false);
  }

  lemma CompleteTended(p: Policy, s: State, run: nat, id: nat, exitCode: Option<int>, error: Option<string>,
      timedOut: bool)
    requires QueueIndexed(s.queue, s.runs.Keys)
    ensures Tended(s.queue, CompleteExecution(p, s, run, id, exitCode, error, timedOut).state.queue, false)
  {
    hide QueueIndexed, Tended, Conclude, RecordObservations, FinishedBody, WithOutcome;
    TendedRules(s.queue, s.runs.Keys, false);
    if run in s.runs && s.executions.Has(run, id) {
      var done := WithOutcome(s.executions.rows[id].data, exitCode, error, timedOut);
      if s.steps.Has(run, done.stepId) {
        var step := s.steps.rows[done.stepId].data;
        var s2 := s.(executions := s.executions.Put(id, done),
                     steps := s.steps.Put(done.stepId, step.(status := OutcomeOf(done.status))));
        ConcludeTended(p, s2, run, id, step, done);
      }
    }
  }

  // ---- the books ---------------------------------------------------------------------------------

  lemma {:induction false} CountAppend(a: seq<Delivery>, b: seq<Delivery>, d: Delivery)
    ensures Count(a + b, d) == Count(a, d) + Count(b, d)
  {
    if b == [] {
      assert a + b == a;
    } else {
      assert (a + b)[..|a + b| - 1] == a + b[..|b| - 1];
      CountAppend(a, b[..|b| - 1], d);
    }
  }

  lemma CountOne(log: seq<Delivery>, e: Delivery, d: Delivery)
    ensures Count(log + [e], d) == Count(log, d) + if e == d then 1 else 0
  {
    assert (log + [e])[..|log|] == log;
  }

  lemma {:induction false} CountAbsent(log: seq<Delivery>, d: Delivery)
    requires forall i :: 0 <= i < |log| ==> log[i] != d
    ensures Count(log, d) == 0
  {
    if log != [] { CountAbsent(log[..|log| - 1], d); }
  }

  lemma {:induction false} RecoveriesAppend(a: seq<nat>, b: seq<nat>)
    ensures Recoveries(a + b) == Recoveries(a) + Recoveries(b)
  {
    if a == [] {
      assert a + b == b;
    } else {
      assert (a + b)[1..] == a[1..] + b;
      RecoveriesAppend(a[1..], b);
    }
  }

  /** One recovery is logged for each stale event, and nothing else. */
  lemma {:induction false} RecoveriesCounted(q: Queue, now: int, bound: nat, d: Delivery)
    ensures Count(Recoveries(StaleIds(q, now, bound)), d) ==
            if d.WasRecovered? && d.event < bound && d.event in q.events && Outbox.Stale(q.events[d.event], now) then 1
              else 0
    decreases bound
  {
    hide Outbox.Stale;
    if bound > 0 {
      RecoveriesCounted(q, now, bound - 1, d);
      var earlier := StaleIds(q, now, bound - 1);
      if bound - 1 in q.events && Outbox.Stale(q.events[bound - 1], now) {
        RecoveriesAppend(earlier, [bound - 1]);
        assert Recoveries([bound - 1]) == [WasRecovered(bound - 1)];
        CountOne(Recoveries(earlier), WasRecovered(bound - 1), d);
      } else {
        assert earlier + [] == earlier;
      }
    }
  }

  lemma TendedBalanced(a: Queue, b: Queue, log: seq<Delivery>)
    requires Balanced(a, log) && Tended(a, b, true)
    ensures Balanced(b, log)
  {
    forall id | id in b.events
      ensures BooksAgree(b.events[id], Count(log, WasClaimed(id)), Count(log, HasFailed(id)),
                         Count(log, WasRecovered(id)), Count(log, WasAcknowledged(id)))
    {
      if id !in a.events {
        CountAbsent(log, WasClaimed(id));
        CountAbsent(log, HasFailed(id));
        CountAbsent(log, WasRecovered(id));
        CountAbsent(log, WasAcknowledged(id));
      }
    }
  }

  ghost predicate Books(y: System) { Balanced(y.store.queue, y.deliveries) && Holding(y.store.queue, y.stage) }

  /** The actions that claim, acknowledge or fail an event. */
  predicate Delivers(y: System, a: Action) {
    (a.Claim? && y.stage.Idle?) || (a.Acknowledge? && y.stage.Finished?) || (a.Fail? && y.stage.Failing?)
  }

  lemma WorkTended(p: Policy, y: System, a: Action)
    requires Indexed(y.store) && Enabled(y.stage, a) && !Delivers(y, a)
    ensures var z := Work(p, y, a);
            Tended(y.store.queue, z.store.queue, false) && z.deliveries == y.deliveries
              && InHand(z.stage) == InHand(y.stage)
  {
    hide Indexed, QueueIndexed, TimelineIndexed, Table.Indexed, Tended, CreateStep, CompleteExecution, AppendChunk,
      StartExecution, ReadPlannerContext, CheckNotAborted, AppendEvent, CreateActivityDraft, MarkProcessing,
      MarkActivityCreated, MarkCompleted, FailRequest;
    var s, at := y.store, y.stage;
    IndexedMeans(s);
    TendedRules(s.queue, s.runs.Keys, false);
    if a.Finish? { CompleteTended(p, s, at.run, at.execution, a.exitCode, a.error, a.timedOut); }
  }

  lemma OthersTended(p: Policy, y: System, a: Action)
    requires Indexed(y.store) && !Delivers(y, a)
    ensures var z := Next(p, y, a);
            Tended(y.store.queue, z.store.queue, true) && z.deliveries == y.deliveries
              && (z.stage == Idle || InHand(z.stage) == InHand(y.stage))
  {
    hide Indexed, QueueIndexed, TimelineIndexed, Table.Indexed, Apply, Work, Enabled;
    IndexedMeans(y.store);
    TendedRules(y.store.queue, y.store.runs.Keys, true);
    match a
    case Api(call) =>
      CallTended(p, y.store, call);
    case _ =>
      if Enabled(y.stage, a) {
        WorkTended(p, y, a);
      }
  }

  lemma ClaimBalanced(y: System)
    requires Indexed(y.store) && Books(y) && y.stage.Idle?
    ensures Books(ClaimEvent(y))
  {
    hide Table.Indexed, TimelineIndexed, Balanced, Later, Outbox.Stale, RecoverBelow, Recoveries, StaleIds, Count;
    var q := y.store.queue;
    var s1 := RecoverStale(y.store);
    RecoverBelowKeeps(y.store, q.next);
    var log := y.deliveries + Recoveries(StaleIds(q, y.store.clock, q.next));
    RecoveryBalanced(y, s1.queue, log);
    var found := Outbox.FirstClaimable(s1.queue, s1.clock, 0);
    if found.Some? { OneClaimBalanced(s1.queue, log, found.value, s1.clock); }
  }

  lemma RecoveryBalanced(y: System, q: Queue, log: seq<Delivery>)
    requires Indexed(y.store) && Balanced(y.store.queue, y.deliveries)
    requires log == y.deliveries + Recoveries(StaleIds(y.store.queue, y.store.clock, y.store.queue.next))
    requires q.events.Keys == y.store.queue.events.Keys
    requires forall id :: id in y.store.queue.events ==>
      q.events[id] == (if Outbox.Stale(y.store.queue.events[id], y.store.clock)
                       then Outbox.Recovered(y.store.queue.events[id], y.store.clock) else y.store.queue.events[id])
    ensures Balanced(q, log)
  {
    hide Table.Indexed, TimelineIndexed, Count, Recoveries, StaleIds;
    var before := y.store.queue;
    var extra := Recoveries(StaleIds(before, y.store.clock, before.next));
    forall id | id in q.events
      ensures BooksAgree(q.events[id], Count(log, WasClaimed(id)), Count(log, HasFailed(id)),
                         Count(log, WasRecovered(id)), Count(log, WasAcknowledged(id)))
    {
      CountAppend(y.deliveries, extra, WasClaimed(id));
      CountAppend(y.deliveries, extra, HasFailed(id));
      CountAppend(y.deliveries, extra, WasRecovered(id));
      CountAppend(y.deliveries, extra, WasAcknowledged(id));
      RecoveriesCounted(before, y.store.clock, before.next, WasClaimed(id));
      RecoveriesCounted(before, y.store.clock, before.next, HasFailed(id));
      RecoveriesCounted(before, y.store.clock, before.next, WasRecovered(id));
      RecoveriesCounted(before, y.store.clock, before.next, WasAcknowledged(id));
    }
    RecoveriesKnown(before, y.store.clock, before.next);
  }

  lemma {:induction false} RecoveriesKnown(q: Queue, now: int, bound: nat)
    ensures forall i :: 0 <= i < |Recoveries(StaleIds(q, now, bound))| ==>
      Recoveries(StaleIds(q, now, bound))[i].event in q.events
    decreases bound
  {
    if bound > 0 {
      RecoveriesKnown(q, now, bound - 1);
      var last := if bound - 1 in q.events && Outbox.Stale(q.events[bound - 1], now) then [bound - 1] else [];
      RecoveriesAppend(StaleIds(q, now, bound - 1), last);
    }
  }

  lemma OneClaimBalanced(q: Queue, log: seq<Delivery>, id: nat, now: int)
    requires Balanced(q, log) && id in q.events && Outbox.Claimable(q.events[id], now)
    ensures Balanced(Outbox.Claim(q, id, now), log + [WasClaimed(id)])
  {
    hide Count;
    OneMoreEntry(q, log, Outbox.Claim(q, id, now), WasClaimed(id));
  }

  /** Changing one event and logging one entry about it leaves every other event's books as they were. */
  lemma OneMoreEntry(q: Queue, log: seq<Delivery>, r: Queue, d: Delivery)
    requires Balanced(q, log) && d.event in q.events && r.events.Keys == q.events.Keys
    requires forall id :: id in q.events && id != d.event ==> r.events[id] == q.events[id]
    requires BooksAgree(r.events[d.event], Count(log, WasClaimed(d.event)) + (if d.WasClaimed? then 1 else 0),
                        Count(log, HasFailed(d.event)) + (if d.HasFailed? then 1 else 0),
                        Count(log, WasRecovered(d.event)) + (if d.WasRecovered? then 1 else 0),
                        Count(log, WasAcknowledged(d.event)) + (if d.WasAcknowledged? then 1 else 0))
    ensures Balanced(r, log + [d])
  {
    hide BooksAgree, Count;
    forall id | id in r.events
      ensures BooksAgree(r.events[id], Count(log + [d], WasClaimed(id)), Count(log + [d], HasFailed(id)),
                         Count(log + [d], WasRecovered(id)), Count(log + [d], WasAcknowledged(id)))
    {
      CountOne(log, d, WasClaimed(id));
      CountOne(log, d, HasFailed(id));
      CountOne(log, d, WasRecovered(id));
      CountOne(log, d, WasAcknowledged(id));
    }
  }

  lemma AcknowledgeBalanced(y: System)
    requires Books(y) && y.stage.Finished?
    ensures Balanced(CompleteOutbox(y.store, y.stage.event).queue, y.deliveries + [WasAcknowledged(y.stage.event)])
  {
    hide Count;
    OneMoreEntry(y.store.queue, y.deliveries, CompleteOutbox(y.store, y.stage.event).queue,
      WasAcknowledged(y.stage.event));
  }

  lemma FailureBalanced(y: System)
    requires Books(y) && y.stage.Failing?
    ensures Balanced(FailOutbox(y.store, y.stage.event).state.queue, y.deliveries + [HasFailed(y.stage.event)])
  {
    hide Count, FailRequest;
    OneMoreEntry(y.store.queue, y.deliveries, FailOutbox(y.store, y.stage.event).state.queue,
      HasFailed(y.stage.event));
  }

  lemma NextBooks(p: Policy, y: System, a: Action)
    requires Indexed(y.store) && Books(y)
    ensures Books(Next(p, y, a))
  {
    if !Delivers(y, a) {
      hide Next, Indexed, Balanced;
      OthersTended(p, y, a);
      TendedBalanced(y.store.queue, Next(p, y, a).store.queue, y.deliveries);
    } else {
      hide Indexed, Balanced, ClaimEvent, CompleteOutbox, FailOutbox;
      if a.Claim? { ClaimBalanced(y); }
      else if a.Acknowledge? { AcknowledgeBalanced(y); }
      else { FailureBalanced(y); }
    }
  }

  lemma BooksMean(y: System)
    requires Books(y)
    ensures forall id :: id in y.store.queue.events ==>
      var e := y.store.queue.events[id];
      && e.attempts == Count(y.deliveries, HasFailed(id)) + Count(y.deliveries, WasRecovered(id))
                       + (if e.status == OutboxStatus.Processing || Count(y.deliveries, WasAcknowledged(id)) == 1
                         then 1 else 0)
      && (e.status == OutboxStatus.Failed ==> 1 <= e.attempts <= 2)
      && (e.status == OutboxStatus.DeadLetter ==> e.attempts >= 3)
      && e.attempts <= 3 + Count(y.deliveries, WasRecovered(id))
  {
    hide Holding, Count;
    assert Balanced(y.store.queue, y.deliveries);
  }

  /**
   * In every run: the attempts of an event are its failures plus its recoveries, plus one if it is being
   * processed or was acknowledged; a failed event has had one or two attempts, a dead one at least three,
   * and no event more than three beyond its recoveries.
   */
  lemma {:induction false} AttemptsAreAccountedFor(p: Policy, limit: nat, clock: int, actions: seq<Action>)
    ensures var y := After(p, Begin(limit, clock), actions);
            Books(y) && forall id :: id in y.store.queue.events ==>
              var e := y.store.queue.events[id];
              && e.attempts == Count(y.deliveries, HasFailed(id)) + Count(y.deliveries, WasRecovered(id))
                               + (if e.status == OutboxStatus.Processing
                                    || Count(y.deliveries, WasAcknowledged(id)) == 1 then 1 else 0)
              && (e.status == OutboxStatus.Failed ==> 1 <= e.attempts <= 2)
              && (e.status == OutboxStatus.DeadLetter ==> e.attempts >= 3)
              && e.attempts <= 3 + Count(y.deliveries, WasRecovered(id))
    decreases |actions|
  {
    if actions != [] {
      hide Next, Books, Balanced, Indexed;
      AttemptsAreAccountedFor(p, limit, clock, actions[..|actions| - 1]);
      AlwaysIndexed(p, limit, clock, actions[..|actions| - 1]);
      NextBooks(p, After(p, Begin(limit, clock), actions[..|actions| - 1]), actions[|actions| - 1]);
    }
    BooksMean(After(p, Begin(limit, clock), actions));
  }

  /** A claim never takes an event that was settled. */
  lemma ClaimSparesSettled(y: System, id: nat)
    requires Indexed(y.store) && id in y.store.queue.events && Settled(y.store.queue.events[id].status)
    ensures id in ClaimEvent(y).store.queue.events && ClaimEvent(y).store.queue.events[id] == y.store.queue.events[id]
  {
    hide Indexed, Later, RecoverBelow, Recoveries, StaleIds;
    RecoverBelowKeeps(y.store, y.store.queue.next);
  }

  lemma SettledBesides(p: Policy, y: System, a: Action, id: nat)
    requires Indexed(y.store) && !Delivers(y, a)
    requires id in y.store.queue.events && Settled(y.store.queue.events[id].status)
    ensures var after := Next(p, y, a).store.queue.events;
            id in after && Settled(after[id].status) && after[id].attempts == y.store.queue.events[id].attempts
  {
    hide Next, Indexed;
    OthersTended(p, y, a);
  }

  lemma DeliveryIs(p: Policy, y: System, a: Action)
    requires Delivers(y, a)
    ensures Next(p, y, a).store ==
      if a.Claim? then ClaimEvent(y).store
      else if a.Acknowledge? then CompleteOutbox(y.store, y.stage.event)
      else FailOutbox(y.store, y.stage.event).state
  {
    hide ClaimEvent, CompleteOutbox, FailOutbox;
  }

  lemma SettledDelivery(p: Policy, y: System, a: Action, id: nat)
    requires Indexed(y.store) && Books(y) && Delivers(y, a)
    requires id in y.store.queue.events && Settled(y.store.queue.events[id].status)
    ensures var after := Next(p, y, a).store.queue.events;
            id in after && Settled(after[id].status) && after[id].attempts == y.store.queue.events[id].attempts
  {
    hide Indexed, Balanced, Next, ClaimEvent;
    DeliveryIs(p, y, a);
    if a.Claim? {
      ClaimSparesSettled(y, id);
    } else if a.Acknowledge? {
    }
  }

  lemma SettledStep(p: Policy, y: System, a: Action, id: nat)
    requires Indexed(y.store) && Books(y) && id in y.store.queue.events && Settled(y.store.queue.events[id].status)
    ensures var after := Next(p, y, a).store.queue.events;
            id in after && Settled(after[id].status) && after[id].attempts == y.store.queue.events[id].attempts
  {
    hide *;
    if Delivers(y, a) { SettledDelivery(p, y, a, id); } else { SettledBesides(p, y, a, id); }
  }

  /** Once acknowledged, cancelled, superseded or given up, an event is never delivered again. */
  lemma {:induction false} SettledForGood(p: Policy, y: System, actions: seq<Action>, id: nat)
    requires Indexed(y.store) && Books(y) && id in y.store.queue.events && Settled(y.store.queue.events[id].status)
    ensures Indexed(After(p, y, actions).store) && Books(After(p, y, actions))
    ensures var after := After(p, y, actions).store.queue.events;
            id in after && Settled(after[id].status) && after[id].attempts == y.store.queue.events[id].attempts
    decreases |actions|
  {
    if actions != [] {
      hide Next, Indexed, Books, Later;
      var before := After(p, y, actions[..|actions| - 1]);
      SettledForGood(p, y, actions[..|actions| - 1], id);
      NextForward(p, before, actions[|actions| - 1]);
      NextBooks(p, before, actions[|actions| - 1]);
      SettledStep(p, before, actions[|actions| - 1], id);
    }
  }

  lemma ShortBackoff(e: OutboxEvent, now: int, claims: nat, failures: nat, recoveries: nat, acks: nat)
    requires BooksAgree(e, claims, failures, recoveries, acks) && e.status == OutboxStatus.Processing
      && !Outbox.LastAttempt(e)
    ensures var f := Outbox.FailedDelivery(e, now);
            f.status == OutboxStatus.Failed && (f.availableAt == Some(now + 2) || f.availableAt == Some(now + 4))
  {
    assert e.attempts == 1 || e.attempts == 2;
    assert Outbox.Power2(1) == 2 && Outbox.Power2(2) == 4;
  }

  /** When a delivery fails and will be retried, it waits two or four seconds. */
  lemma BackoffIsTwoOrFour(y: System)
    requires Books(y) && y.stage.Failing?
    requires !Outbox.LastAttempt(y.store.queue.events[y.stage.event])
    ensures var e := FailOutbox(y.store, y.stage.event).state.queue.events[y.stage.event];
            e.status == OutboxStatus.Failed
            && (e.availableAt == Some(y.store.clock + 2) || e.availableAt == Some(y.store.clock + 4))
  {
    hide BooksAgree, Count, Outbox.LastAttempt;
    var id := y.stage.event;
    ShortBackoff(y.store.queue.events[id], y.store.clock, Count(y.deliveries, WasClaimed(id)),
      Count(y.deliveries, HasFailed(id)),
                 Count(y.deliveries, WasRecovered(id)), Count(y.deliveries, WasAcknowledged(id)));
  }
}
