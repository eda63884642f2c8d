/**
 * What no operation ever undoes, and what an operation on one run leaves alone in every other.
 * `Advances(s, t, run)` says both: t is a later state of the store, and only `run` was touched.
 */
module History {
  import opened Tables
  import opened Model
  import opened Store
  import opened Indexing
  import Outbox

  // ---- one table ---------------------------------------------------------------------------------

  /** Records and lists of the other runs are exactly as they were. */
  ghost predicate Elsewhere<T>(a: Table<T>, b: Table<T>, run: nat) {
    && (forall id :: id in a.rows && a.rows[id].run != run ==> id in b.rows && b.rows[id] == a.rows[id])
    && (forall id :: id in b.rows && b.rows[id].run != run ==> id in a.rows)
    && (forall r :: r != run ==> b.Ids(r) == a.Ids(r))
  }

  /** Records stay in the run that owns them. */
  ghost predicate Owned<T>(a: Table<T>, b: Table<T>) {
    a.next <= b.next && forall id :: id in a.rows ==> id in b.rows && b.rows[id].run == a.rows[id].run
  }

  /** Nothing is ever rewritten. */
  ghost predicate Preserved<T>(a: Table<T>, b: Table<T>) {
    forall id :: id in a.rows ==> id in b.rows && b.rows[id].data == a.rows[id].data
  }

  predicate Granted(step: Step) {
    step.status == Approved || step.status == Executed || step.status == StepStatus.Failed
  }

  /** A step keeps its phase; once approved, everything but its outcome is frozen. */
  predicate StepLater(a: Step, b: Step) {
    b.phase == a.phase && (Granted(a) ==> Granted(b) && b == a.(status := b.status))
  }

  /** An execution keeps its step, its command and its cap; its output only grows. */
  predicate ExecutionLater(a: Execution, b: Execution) {
    b.stepId == a.stepId && b.command == a.command && b.limit == a.limit && a.stdout <= b.stdout && a.stderr <= b.stderr
  }

  /** An expectation only ever receives its verdict, and receives it once. */
  predicate ExpectationLater(a: Expectation, b: Expectation) {
    b == a.(status := b.status, resultId := b.resultId) && (a.status != CheckStatus.Pending ==> b == a)
  }

  ghost predicate StepsLater(a: Table<Step>, b: Table<Step>) {
    forall id :: id in a.rows ==> id in b.rows && StepLater(a.rows[id].data, b.rows[id].data)
  }

  ghost predicate ExecutionsLater(a: Table<Execution>, b: Table<Execution>) {
    forall id :: id in a.rows ==> id in b.rows && ExecutionLater(a.rows[id].data, b.rows[id].data)
  }

  ghost predicate ExpectationsLater(a: Table<Expectation>, b: Table<Expectation>) {
    forall id :: id in a.rows ==> id in b.rows && ExpectationLater(a.rows[id].data, b.rows[id].data)
  }

  // ---- the rest of the state ---------------------------------------------------------------------

  ghost predicate TimelineLater(a: Timeline, b: Timeline, run: nat) {
    && a.next <= b.next
    && (forall r :: a.Of(r) <= b.Of(r))
    && (forall r :: r != run ==> b.Of(r) == a.Of(r))
  }

  ghost predicate RunsLater(a: map<nat, Run>, b: map<nat, Run>, run: nat) {
    && (forall r :: r in a ==> r in b && b[r].ticketId == a[r].ticketId && b[r].snapshot == a[r].snapshot)
    && (forall r :: r in a && r != run ==> b[r] == a[r])
    && (forall r :: r in b && r != run ==> r in a)
  }

  ghost predicate QueueLater(a: Queue, b: Queue, run: nat) {
    && a.next <= b.next
    && (forall id :: id in a.events ==>
      id in b.events && b.events[id].run == a.events[id].run && b.events[id].job == a.events[id].job)
    && (forall id :: id in a.events && a.events[id].run != run ==> b.events[id] == a.events[id])
    && (forall id :: id in b.events && b.events[id].run != run ==> id in a.events)
  }

  ghost predicate TablesOwned(s: State, t: State) {
    && Owned(s.steps, t.steps) && Owned(s.executions, t.executions) && Owned(s.chunks, t.chunks)
      && Owned(s.sources, t.sources)
    && Owned(s.results, t.results) && Owned(s.expectations, t.expectations) && Owned(s.backups, t.backups)
      && Owned(s.requests, t.requests)
  }

  ghost predicate TablesElsewhere(s: State, t: State, run: nat) {
    && Elsewhere(s.steps, t.steps, run) && Elsewhere(s.executions, t.executions, run)
      && Elsewhere(s.chunks, t.chunks, run)
    && Elsewhere(s.sources, t.sources, run) && Elsewhere(s.results, t.results, run)
      && Elsewhere(s.expectations, t.expectations, run)
    && Elsewhere(s.backups, t.backups, run) && Elsewhere(s.requests, t.requests, run)
  }

  ghost predicate TablesLater(s: State, t: State) {
    && StepsLater(s.steps, t.steps) && ExecutionsLater(s.executions, t.executions)
      && ExpectationsLater(s.expectations, t.expectations)
    && Preserved(s.chunks, t.chunks) && Preserved(s.sources, t.sources) && Preserved(s.results, t.results)
      && Preserved(s.backups, t.backups)
  }

  /** What is kept per run is as it was for every other run. */
  ghost predicate DraftsElsewhere<T>(a: map<nat, T>, b: map<nat, T>, run: nat) {
    forall r :: r != run ==> (r in b <==> r in a) && (r in a ==> b[r] == a[r])
  }

  /** The byte counters of other runs' executions are as they were. */
  ghost predicate BytesElsewhere(executions: Table<Execution>, a: map<nat, nat>, b: map<nat, nat>, run: nat) {
    forall x :: x in executions.rows && executions.rows[x].run != run ==>
      (x in b <==> x in a) && (x in a ==> b[x] == a[x])
  }

  ghost predicate Advances(s: State, t: State, run: nat) {
    && t.limit == s.limit && t.clock == s.clock
    && s.nextRun <= t.nextRun
    && RunsLater(s.runs, t.runs, run)
    && TimelineLater(s.timeline, t.timeline, run)
    && QueueLater(s.queue, t.queue, run)
    && TablesOwned(s, t)
    && TablesElsewhere(s, t, run)
    && TablesLater(s, t)
    && DraftsElsewhere(s.drafts, t.drafts, run) && DraftsElsewhere(s.draftIds, t.draftIds, run)
    && BytesElsewhere(s.executions, s.storedBytes, t.storedBytes, run)
  }

  lemma Still(s: State, run: nat)
    ensures Advances(s, s, run)
  {
  }

  lemma TablesElsewhereThen(s: State, t: State, u: State, run: nat)
    requires TablesOwned(s, t) && TablesOwned(t, u) && TablesElsewhere(s, t, run) && TablesElsewhere(t, u, run)
    ensures TablesElsewhere(s, u, run)
  {
  }

  lemma TablesThen(s: State, t: State, u: State)
    requires TablesOwned(s, t) && TablesOwned(t, u) && TablesLater(s, t) && TablesLater(t, u)
    ensures TablesOwned(s, u) && TablesLater(s, u)
  {
    assert StepsLater(s.steps, u.steps);
    assert ExecutionsLater(s.executions, u.executions);
    assert ExpectationsLater(s.expectations, u.expectations);
  }

  lemma ListsThen(a: State, b: State, c: State, run: nat)
    requires TimelineLater(a.timeline, b.timeline, run) && TimelineLater(b.timeline, c.timeline, run)
    requires QueueLater(a.queue, b.queue, run) && QueueLater(b.queue, c.queue, run)
    ensures TimelineLater(a.timeline, c.timeline, run) && QueueLater(a.queue, c.queue, run)
  {
    forall r ensures a.timeline.Of(r) <= c.timeline.Of(r) {
      assert a.timeline.Of(r) <= b.timeline.Of(r) <= c.timeline.Of(r);
    }
  }

  /** Advancing twice is advancing. */
  lemma Then(s: State, t: State, u: State, run: nat)
    requires Advances(s, t, run) && Advances(t, u, run)
    ensures Advances(s, u, run)
  {
    hide TablesElsewhere, TablesLater, TimelineLater, QueueLater;
    TablesThen(s, t, u);
    TablesElsewhereThen(s, t, u, run);
    ListsThen(s, t, u, run);
  }

  // ---- later, whatever the run -------------------------------------------------------------------

  ghost predicate RunsKept(a: map<nat, Run>, b: map<nat, Run>) {
    forall r :: r in a ==> r in b && b[r].ticketId == a[r].ticketId && b[r].snapshot == a[r].snapshot
  }

  /** Timelines only grow. */
  ghost predicate EventsKept(a: Timeline, b: Timeline) { a.next <= b.next && forall r :: a.Of(r) <= b.Of(r) }

  ghost predicate QueueKept(a: Queue, b: Queue) {
    && a.next <= b.next
    && (forall id :: id in a.events ==>
      id in b.events && b.events[id].run == a.events[id].run && b.events[id].job == a.events[id].job)
  }

  /** Nothing recorded in s has been lost or rewritten in t. */
  ghost predicate Later(s: State, t: State) {
    && t.limit == s.limit && s.nextRun <= t.nextRun
    && RunsKept(s.runs, t.runs) && EventsKept(s.timeline, t.timeline) && QueueKept(s.queue, t.queue)
    && TablesOwned(s, t) && TablesLater(s, t)
  }

  lemma LaterStill(s: State)
    ensures Later(s, s)
  {
    Still(s, 0);
  }

  lemma AdvancesLater(s: State, t: State, run: nat)
    requires Advances(s, t, run)
    ensures Later(s, t)
  {
    hide TablesOwned, TablesElsewhere, TablesLater;
  }

  lemma GrowsThen(a: Timeline, b: Timeline, c: Timeline)
    requires EventsKept(a, b) && EventsKept(b, c)
    ensures EventsKept(a, c)
  {
    forall r ensures a.Of(r) <= c.Of(r) {
      assert a.Of(r) <= b.Of(r) <= c.Of(r);
    }
  }

  lemma LaterThen(s: State, t: State, u: State)
    requires Later(s, t) && Later(t, u)
    ensures Later(s, u)
  {
    hide TablesOwned, TablesLater, EventsKept;
    TablesThen(s, t, u);
    GrowsThen(s.timeline, t.timeline, u.timeline);
  }

  // ---- single changes ----------------------------------------------------------------------------

  /** A well-indexed later state in which only `run` was touched. */
  ghost predicate Reaches(s: State, t: State, run: nat) { Indexed(t) && Advances(s, t, run) }

  lemma ReachesThen(s: State, t: State, u: State, run: nat)
    requires Reaches(s, t, run) && Reaches(t, u, run)
    ensures Reaches(s, u, run)
  {
    hide Indexed, Advances;
    Then(s, t, u, run);
  }

  lemma AddMoves<T>(t: Table<T>, runs: set<nat>, run: nat, data: T)
    requires t.Indexed(runs)
    ensures Owned(t, t.Add(run, data)) && Elsewhere(t, t.Add(run, data), run) && Preserved(t, t.Add(run, data))
  {
  }

  lemma PutMoves<T>(t: Table<T>, id: nat, data: T)
    requires id in t.rows
    ensures Owned(t, t.Put(id, data)) && Elsewhere(t, t.Put(id, data), t.rows[id].run)
  {
  }

  lemma EmitReaches(s: State, run: nat, body: Body)
    requires Indexed(s) && run in s.runs
    ensures Reaches(s, Emit(s, run, body), run)
  {
    hide Indexed, Owned, Elsewhere, Preserved, StepsLater, ExecutionsLater, ExpectationsLater;
    EmitIndexed(s, run, body);
    Still(s, run);
  }

  lemma PutRunReaches(s: State, run: nat, r: Run)
    requires Indexed(s) && run in s.runs && r.ticketId == s.runs[run].ticketId && r.snapshot == s.runs[run].snapshot
    ensures Reaches(s, PutRun(s, run, r), run)
  {
    hide Indexed, Owned, Elsewhere, Preserved, StepsLater, ExecutionsLater, ExpectationsLater, TimelineLater,
      QueueLater;
    PutRunIndexed(s, run, r);
    Still(s, run);
  }

  lemma EnqueueLater(q: Queue, runs: set<nat>, run: nat, job: Job, now: int)
    requires QueueIndexed(q, runs) && run in runs
    ensures QueueIndexed(Outbox.Enqueue(q, run, job, now), runs) && QueueLater(q, Outbox.Enqueue(q, run, job, now), run)
  {
    assert q.next !in q.events;
  }

  lemma EnqueueReaches(s: State, run: nat, job: Job)
    requires Indexed(s) && run in s.runs
    ensures Reaches(s, Enqueue(s, run, job), run)
  {
    hide Table.Indexed, Owned, Elsewhere, Preserved, StepsLater, ExecutionsLater, ExpectationsLater, TimelineIndexed,
      QueueIndexed, TimelineLater, QueueLater;
    EnqueueLater(s.queue, s.runs.Keys, run, job, s.clock);
    Still(s, run);
  }

  lemma QueueStaysIndexed(a: Queue, b: Queue, runs: set<nat>, run: nat)
    requires QueueIndexed(a, runs) && QueueLater(a, b, run) && b.events.Keys == a.events.Keys
    ensures QueueIndexed(b, runs)
  {
    forall id | id in b.events ensures id < b.next && b.events[id].run in runs { assert id in a.events; }
  }

  /** Changes to queued events that keep their run and job, and leave other runs' events alone. */
  lemma QueueReaches(s: State, run: nat, q: Queue)
    requires Indexed(s) && run in s.runs && QueueLater(s.queue, q, run) && q.events.Keys == s.queue.events.Keys
    ensures Reaches(s, s.(queue := q), run)
  {
    hide Table.Indexed, Owned, Elsewhere, Preserved, StepsLater, ExecutionsLater, ExpectationsLater, TimelineIndexed,
      QueueIndexed, TimelineLater, QueueLater;
    QueueStaysIndexed(s.queue, q, s.runs.Keys, run);
    Still(s, run);
  }

  lemma AddStepLater(t: Table<Step>, runs: set<nat>, run: nat, data: Step)
    requires t.Indexed(runs)
    ensures StepsLater(t, t.Add(run, data))
  {
  }

  lemma AddExpectationLater(t: Table<Expectation>, runs: set<nat>, run: nat, data: Expectation)
    requires t.Indexed(runs)
    ensures ExpectationsLater(t, t.Add(run, data))
  {
  }

  lemma AddExecutionLater(t: Table<Execution>, runs: set<nat>, run: nat, data: Execution)
    requires t.Indexed(runs)
    ensures ExecutionsLater(t, t.Add(run, data))
  {
  }

  lemma PutExecutionLater(t: Table<Execution>, id: nat, data: Execution)
    requires id in t.rows && ExecutionLater(t.rows[id].data, data)
    ensures ExecutionsLater(t, t.Put(id, data))
  {
  }

  lemma AddSourceReaches(s: State, run: nat, data: Source)
    requires Indexed(s) && run in s.runs
    ensures Reaches(s, s.(sources := s.sources.Add(run, data)), run)
  {
    hide Table.Indexed, Owned, Elsewhere, Preserved, StepsLater, ExecutionsLater, ExpectationsLater, TimelineIndexed,
      QueueIndexed, TimelineLater, QueueLater;
    AddIndexed(s.sources, s.runs.Keys, run, data);
    AddMoves(s.sources, s.runs.Keys, run, data);
    Still(s, run);
  }

  lemma AddResultReaches(s: State, run: nat, data: ValidationResult)
    requires Indexed(s) && run in s.runs
    ensures Reaches(s, s.(results := s.results.Add(run, data)), run)
  {
    hide Table.Indexed, Owned, Elsewhere, Preserved, StepsLater, ExecutionsLater, ExpectationsLater, TimelineIndexed,
      QueueIndexed, TimelineLater, QueueLater;
    AddIndexed(s.results, s.runs.Keys, run, data);
    AddMoves(s.results, s.runs.Keys, run, data);
    Still(s, run);
  }

  lemma AddBackupReaches(s: State, run: nat, data: BackupRecord)
    requires Indexed(s) && run in s.runs
    ensures Reaches(s, s.(backups := s.backups.Add(run, data)), run)
  {
    hide Table.Indexed, Owned, Elsewhere, Preserved, StepsLater, ExecutionsLater, ExpectationsLater, TimelineIndexed,
      QueueIndexed, TimelineLater, QueueLater;
    AddIndexed(s.backups, s.runs.Keys, run, data);
    AddMoves(s.backups, s.runs.Keys, run, data);
    Still(s, run);
  }

  lemma AddRequestReaches(s: State, run: nat, data: IntegrationRequest)
    requires Indexed(s) && run in s.runs
    ensures Reaches(s, s.(requests := s.requests.Add(run, data)), run)
  {
    hide Table.Indexed, Owned, Elsewhere, Preserved, StepsLater, ExecutionsLater, ExpectationsLater, TimelineIndexed,
      QueueIndexed, TimelineLater, QueueLater;
    AddIndexed(s.requests, s.runs.Keys, run, data);
    AddMoves(s.requests, s.runs.Keys, run, data);
    Still(s, run);
  }

  lemma AddStepReaches(s: State, run: nat, data: Step)
    requires Indexed(s) && run in s.runs
    ensures Reaches(s, s.(steps := s.steps.Add(run, data)), run)
  {
    hide Table.Indexed, Owned, Elsewhere, Preserved, StepsLater, ExecutionsLater, ExpectationsLater, TimelineIndexed,
      QueueIndexed, TimelineLater, QueueLater;
    AddIndexed(s.steps, s.runs.Keys, run, data);
    AddMoves(s.steps, s.runs.Keys, run, data);
    AddStepLater(s.steps, s.runs.Keys, run, data);
    Still(s, run);
  }

  lemma AddExpectationReaches(s: State, run: nat, data: Expectation)
    requires Indexed(s) && run in s.runs
    ensures Reaches(s, s.(expectations := s.expectations.Add(run, data)), run)
  {
    hide Table.Indexed, Owned, Elsewhere, Preserved, StepsLater, ExecutionsLater, ExpectationsLater, TimelineIndexed,
      QueueIndexed, TimelineLater, QueueLater;
    AddIndexed(s.expectations, s.runs.Keys, run, data);
    AddMoves(s.expectations, s.runs.Keys, run, data);
    AddExpectationLater(s.expectations, s.runs.Keys, run, data);
    Still(s, run);
  }

  lemma AddExecutionReaches(s: State, run: nat, data: Execution)
    requires Indexed(s) && run in s.runs
    ensures Reaches(s, s.(executions := s.executions.Add(run, data),
      storedBytes := s.storedBytes[s.executions.next := 0]), run)
  {
    hide Table.Indexed, Owned, Elsewhere, Preserved, StepsLater, ExecutionsLater, ExpectationsLater, TimelineIndexed,
      QueueIndexed, TimelineLater, QueueLater;
    AddIndexed(s.executions, s.runs.Keys, run, data);
    AddMoves(s.executions, s.runs.Keys, run, data);
    AddExecutionLater(s.executions, s.runs.Keys, run, data);
    NextIsNew(s.executions, s.runs.Keys);
    assert s.storedBytes[s.executions.next := 0].Keys == s.executions.Add(run, data).rows.Keys;
    Still(s, run);
  }

  lemma PutStepReaches(s: State, run: nat, id: nat, data: Step)
    requires Indexed(s) && run in s.runs && s.steps.Has(run, id) && StepLater(s.steps.rows[id].data, data)
    ensures Reaches(s, s.(steps := s.steps.Put(id, data)), run)
  {
    hide Table.Indexed, Owned, Elsewhere, Preserved, ExecutionsLater, ExpectationsLater, TimelineIndexed, QueueIndexed,
      TimelineLater, QueueLater;
    PutIndexed(s.steps, s.runs.Keys, id, data);
    PutMoves(s.steps, id, data);
    Still(s, run);
  }

  lemma PutExecutionReaches(s: State, run: nat, id: nat, data: Execution)
    requires Indexed(s) && run in s.runs && s.executions.Has(run, id)
      && ExecutionLater(s.executions.rows[id].data, data)
    ensures Reaches(s, s.(executions := s.executions.Put(id, data)), run)
  {
    hide Table.Indexed, Owned, Elsewhere, Preserved, StepsLater, ExecutionsLater, ExpectationsLater, TimelineIndexed,
      QueueIndexed, TimelineLater, QueueLater;
    PutIndexed(s.executions, s.runs.Keys, id, data);
    PutMoves(s.executions, id, data);
    PutExecutionLater(s.executions, id, data);
    assert s.executions.Put(id, data).rows.Keys == s.executions.rows.Keys;
    Still(s, run);
  }

  lemma PutExpectationReaches(s: State, run: nat, id: nat, data: Expectation)
    requires Indexed(s) && run in s.runs && s.expectations.Has(run, id)
      && ExpectationLater(s.expectations.rows[id].data, data)
    ensures Reaches(s, s.(expectations := s.expectations.Put(id, data)), run)
  {
    hide Table.Indexed, Owned, Elsewhere, Preserved, StepsLater, ExecutionsLater, TimelineIndexed, QueueIndexed,
      TimelineLater, QueueLater;
    PutIndexed(s.expectations, s.runs.Keys, id, data);
    PutMoves(s.expectations, id, data);
    Still(s, run);
  }

  lemma PutRequestReaches(s: State, run: nat, id: nat, data: IntegrationRequest)
    requires Indexed(s) && run in s.runs && s.requests.Has(run, id)
    ensures Reaches(s, s.(requests := s.requests.Put(id, data)), run)
  {
    hide Table.Indexed, Owned, Elsewhere, Preserved, StepsLater, ExecutionsLater, ExpectationsLater, TimelineIndexed,
      QueueIndexed, TimelineLater, QueueLater;
    PutIndexed(s.requests, s.runs.Keys, id, data);
    PutMoves(s.requests, id, data);
    Still(s, run);
  }

  lemma AddChunkReaches(s: State, run: nat, id: nat, chunk: Chunk, data: Execution, bytes: nat)
    requires Indexed(s) && run in s.runs && s.executions.Has(run, id)
      && ExecutionLater(s.executions.rows[id].data, data)
    ensures Reaches(s, s.(chunks := s.chunks.Add(run, chunk), executions := s.executions.Put(id, data),
      storedBytes := s.storedBytes[id := bytes]), run)
  {
    hide Table.Indexed, Owned, Elsewhere, Preserved, StepsLater, ExecutionsLater, ExpectationsLater, TimelineIndexed,
      QueueIndexed, TimelineLater, QueueLater;
    AddIndexed(s.chunks, s.runs.Keys, run, chunk);
    AddMoves(s.chunks, s.runs.Keys, run, chunk);
    PutIndexed(s.executions, s.runs.Keys, id, data);
    PutMoves(s.executions, id, data);
    PutExecutionLater(s.executions, id, data);
    assert s.executions.Put(id, data).rows.Keys == s.executions.rows.Keys;
    assert s.storedBytes[id := bytes].Keys == s.executions.rows.Keys;
    Still(s, run);
  }
}
