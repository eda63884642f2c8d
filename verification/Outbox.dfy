/** The durable work queue: enqueue, cancel, claim, recover, acknowledge, fail. */
module Outbox {
  import opened Wrappers
  import opened Model

  const STALE_AFTER_S := 120
  const MAX_ATTEMPTS := 3

  datatype Kind = PlanJob | ExecuteJob | DraftJob | SubmitJob

  function KindOf(job: Job): Kind {
    match job
    case Plan(_) => PlanJob
    case Execute(_) => ExecuteJob
    case DraftActivity(_) => DraftJob
    case Submit(_) => SubmitJob
  }

  function Enqueue(q: Queue, run: nat, job: Job, now: int): Queue {
    Queue(q.events[q.next := OutboxEvent(run, job, OutboxStatus.Pending, 0, Some(now), None)], q.next + 1)
  }

  /** The pending events of one kind that a run no longer wants. */
  predicate Cancelled(e: OutboxEvent, run: nat, kind: Kind) {
    e.run == run && KindOf(e.job) == kind && e.status == OutboxStatus.Pending
  }

  function CancelPending(q: Queue, run: nat, kind: Kind): Queue {
    q.(events := map id | id in q.events ::
         if Cancelled(q.events[id], run, kind) then q.events[id].(status := OutboxStatus.Completed) else q.events[id])
  }

  predicate Superseded(e: OutboxEvent, run: nat) {
    e.run == run && KindOf(e.job) == PlanJob && (e.status == OutboxStatus.Failed || e.status == OutboxStatus.DeadLetter)
  }

  /** A retry closes the run's failed planning events. */
  function Supersede(q: Queue, run: nat): Queue {
    q.(events := map id | id in q.events ::
         if Superseded(q.events[id], run) then q.events[id].(status := OutboxStatus.Completed) else q.events[id])
  }

  predicate Stale(e: OutboxEvent, now: int) {
    e.status == OutboxStatus.Processing && e.claimedAt.Some? && e.claimedAt.value < now - STALE_AFTER_S
  }

  function Recovered(e: OutboxEvent, now: int): OutboxEvent {
    e.(status := OutboxStatus.Pending, claimedAt := None, availableAt := Some(now))
  }

  predicate Claimable(e: OutboxEvent, now: int) {
    && (e.status == OutboxStatus.Pending || e.status == OutboxStatus.Failed)
    && (e.availableAt.None? || e.availableAt.value <= now)
  }

  /** The least claimable id from the given one on. */
  function FirstClaimable(q: Queue, now: int, from: nat): (found: Option<nat>)
    ensures found.Some? ==>
      from <= found.value < q.next && found.value in q.events && Claimable(q.events[found.value], now)
    ensures forall id :: from <= id < (if found.Some? then found.value else q.next) && id in q.events ==>
      !Claimable(q.events[id], now)
    decreases q.next - from
  {
    if from >= q.next then None
    else if from in q.events && Claimable(q.events[from], now) then Some(from)
    else FirstClaimable(q, now, from + 1)
  }

  function Claim(q: Queue, id: nat, now: int): Queue
    requires id in q.events
  {
    var e := q.events[id];
    q.(events := q.events[id :=
      e.(status := OutboxStatus.Processing, attempts := e.attempts + 1, claimedAt := Some(now))])
  }

  function Acknowledge(q: Queue, id: nat): Queue {
    if id in q.events then q.(events := q.events[id := q.events[id].(status := OutboxStatus.Completed)]) else q
  }

  function Power2(n: nat): nat { if n == 0 then 1 else 2 * Power2(n - 1) }

  function BackoffSeconds(attempts: nat): nat {
    var wait := Power2(if attempts < 1 then 1 else attempts);
    if wait < 60 then wait else 60
  }

  predicate LastAttempt(e: OutboxEvent) { e.attempts >= MAX_ATTEMPTS }

  /** A failed delivery is retried later, or given up for good after the third attempt. */
  function FailedDelivery(e: OutboxEvent, now: int): OutboxEvent {
    if LastAttempt(e) then e.(status := OutboxStatus.DeadLetter, availableAt := None, claimedAt := None)
    else e.(status := OutboxStatus.Failed, availableAt := Some(now + BackoffSeconds(e.attempts)), claimedAt := None)
  }
}
