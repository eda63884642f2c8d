/**
 * The run store's operations as functions from one state to the next (backend/app/run_store.py).
 * An operation that raises may already have changed something, so a reply always carries a state.
 */
module Store {
  import opened Wrappers
  import opened Tables
  import opened Model
  import Outbox
  import Suite
  import Text
  import Utf8

  function Initial(limit: nat, clock: int): State {
    State(limit, clock, map[], 1, Timeline(map[], 1), Queue(map[], 1), Empty(), Empty(), Empty(), map[],
          Empty(), Empty(), Empty(), Empty(), map[], map[], 1, Empty())
  }

  // ---- primitives --------------------------------------------------------------------------------

  function Emit(s: State, run: nat, body: Body): State {
    var t := s.timeline;
    s.(timeline := Timeline(t.events[run := t.Of(run) + [Event(t.next, body)]], t.next + 1))
  }

  function Enqueue(s: State, run: nat, job: Job): State {
    s.(queue := Outbox.Enqueue(s.queue, run, job, s.clock))
  }

  function PutRun(s: State, id: nat, run: Run): State { s.(runs := s.runs[id := run]) }

  function PutOutboxEvent(s: State, id: nat, e: OutboxEvent): State {
    s.(queue := s.queue.(events := s.queue.events[id := e]))
  }

  function Raise<T>(s: State, error: StoreError): Reply<T> { Reply(s, Failure(error)) }

  function Return<T>(s: State, value: T): Reply<T> { Reply(s, Success(value)) }

  // ---- runs --------------------------------------------------------------------------------------

  function OpenCommandLists(s: State, id: nat): State {
    s.(steps := s.steps.OpenRun(id), executions := s.executions.OpenRun(id), chunks := s.chunks.OpenRun(id),
      sources := s.sources.OpenRun(id))
  }

  function OpenOutcomeLists(s: State, id: nat): State {
    s.(results := s.results.OpenRun(id), expectations := s.expectations.OpenRun(id), backups := s.backups.OpenRun(id),
       requests := s.requests.OpenRun(id))
  }

  function OpenTimeline(s: State, ticketId: int, snapshot: string): State {
    var id := s.nextRun;
    s.(runs := s.runs[id := Run(ticketId, snapshot, AwaitingConnectionApproval, None, None)], nextRun := id + 1,
       timeline := s.timeline.(events := s.timeline.events[id := []]))
  }

  /** A fresh run with empty lists. */
  function OpenRun(s: State, ticketId: int, snapshot: string): State {
    OpenOutcomeLists(OpenCommandLists(OpenTimeline(s, ticketId, snapshot), s.nextRun), s.nextRun)
  }

  function CreateRun(s: State, ticketId: int, snapshot: string): Reply<nat> {
    var id := s.nextRun;
    Return(Emit(Emit(OpenRun(s, ticketId, snapshot), id, RunCreated(ticketId)), id, ConnectionRequested), id)
  }

  function ApproveConnection(s: State, run: nat): (r: Reply<nat>)
    ensures r.state == s.(timeline := r.state.timeline, queue := r.state.queue, runs := r.state.runs)
  {
    if run !in s.runs then Raise(s, RunNotFound)
    else if s.runs[run].status != AwaitingConnectionApproval then Raise(s, ConnectionNotPending)
    else
      var s1 := PutRun(s, run, s.runs[run].(status := Investigating));
      var s2 := Emit(Emit(s1, run, ConnectionApproved), run, PlanRequested(ConnectionApproval));
      Return(Enqueue(s2, run, Plan(ConnectionApproval)), run)
  }

  function RetryRun(s: State, run: nat): (r: Reply<nat>)
    ensures r.state == s.(timeline := r.state.timeline, queue := r.state.queue, runs := r.state.runs)
  {
    if run !in s.runs then Raise(s, RunNotFound)
    else if s.runs[run].status == Aborted || s.runs[run].status == Submitted then Raise(s, TerminalRun)
    else
      var s1 := s.(queue := Outbox.Supersede(s.queue, run));
      var s2 := PutRun(s1, run, s.runs[run].(status := Investigating, pending := None));
      Return(Enqueue(Emit(s2, run, RunRetried), run, Plan(RetryRequested)), run)
  }

  function AbortRun(s: State, run: nat): (r: Reply<nat>)
    ensures r.state == s.(timeline := r.state.timeline, runs := r.state.runs)
  {
    if run !in s.runs then Raise(s, RunNotFound)
    else if s.runs[run].status == Aborted || s.runs[run].status == Submitted then Return(s, run)
    else Return(Emit(PutRun(s, run, s.runs[run].(status := Aborted, pending := None)), run, RunAborted), run)
  }

  function AppendEvent(s: State, run: nat, name: string): (r: Reply<nat>)
    ensures r.state == s.(timeline := r.state.timeline)
  {
    if run !in s.runs then Raise(s, RunNotFound) else Return(Emit(s, run, Informational(name)), run)
  }

  // ---- proposing steps ---------------------------------------------------------------------------

  function IdleStatus(status: RunStatus): RunStatus { if status == Validating then Validating else Investigating }

  /** The record of an unfulfilled plan for the same target, if there is one. */
  predicate SamePlan(record: BackupRecord, requirement: Requirement) {
    record.required && !record.created && record.kind == requirement.kind && record.path == requirement.path
  }

  function RecordBackupPlan(p: Policy, s: State, run: nat, ticketId: int, requirement: Requirement): (t: State)
    ensures t == s.(timeline := t.timeline, backups := t.backups)
  {
    var records := s.backups.OfRun(run);
    if exists i :: 0 <= i < |records| && SamePlan(records[i], requirement) then s
    else
      var record := BackupRecord(None, requirement.path, requirement.kind, p.restorePlan(run, ticketId, requirement),
        true, false);
      Emit(s.(backups := s.backups.Add(run, record)), run, BackupPlanned(s.backups.next))
  }

  function CreateStep(p: Policy, s: State, run: nat, origin: Origin, command: string, purpose: string,
      phase: Phase): (r: Reply<nat>)
    ensures r.state == s.(timeline := r.state.timeline, steps := r.state.steps, backups := r.state.backups,
      runs := r.state.runs)
  {
    if run !in s.runs then Raise(s, RunNotFound)
    else if Closed(s.runs[run].status) then Raise(s, TerminalRun)
    else if s.runs[run].status == AwaitingStepApproval && s.runs[run].pending.Some? then Raise(s, StepAlreadyPending)
    else
      var step := NewStep(p, origin, command, purpose, phase);
      var s1 := AnnounceStep(s, run, step);
      var s2 := PlanBackup(p, s1, run, s.runs[run].ticketId, step);
      Return(PutRun(s2, run, AfterProposal(s.runs[run], s.steps.next, step.blocked)), s.steps.next)
  }

  predicate Closed(status: RunStatus) { status == Aborted || status == Submitted || status == RunStatus.Failed }

  function NewStep(p: Policy, origin: Origin, command: string, purpose: string, phase: Phase): Step {
    var verdict := p.classify(command);
    var status := if verdict.blocked then StepStatus.Blocked else Proposed;
    Step(origin, phase, command, purpose, verdict.risk, verdict.blocked, status, None)
  }

  /** Stores the step and writes its proposal and its classification to the timeline. */
  function AnnounceStep(s: State, run: nat, step: Step): (t: State)
    ensures t == s.(timeline := t.timeline, steps := s.steps.Add(run, step))
  {
    var id := s.steps.next;
    var s1 := s.(steps := s.steps.Add(run, step));
    var s2 := if step.origin == Manual then Emit(s1, run, ManualStepEntered(id)) else s1;
    Emit(Emit(s2, run, StepProposed(id, step.phase)), run, SafetyClassified(id, step.command, !step.blocked, false))
  }

  function PlanBackup(p: Policy, s: State, run: nat, ticketId: int, step: Step): (t: State)
    ensures t == s.(timeline := t.timeline, backups := t.backups)
  {
    var requirement := p.requirement(step.command, step.risk);
    if requirement.required then RecordBackupPlan(p, s, run, ticketId, requirement) else s
  }

  function AfterProposal(run: Run, id: nat, blocked: bool): Run {
    if blocked then run.(status := IdleStatus(run.status), pending := None)
    else run.(status := AwaitingStepApproval, pending := Some(id))
  }

  /** A manual step first withdraws the run's queued planning, even if it is then refused. */
  function CreateManualStep(p: Policy, s: State, run: nat, command: string, purpose: string,
      phase: Phase): (r: Reply<nat>)
    ensures r.state == s.(timeline := r.state.timeline, queue := r.state.queue, steps := r.state.steps,
      backups := r.state.backups, runs := r.state.runs)
  {
    CreateStep(p, s.(queue := Outbox.CancelPending(s.queue, run, Outbox.PlanJob)), run, Manual, command, purpose, phase)
  }

  function ProposeAgentStep(p: Policy, s: State, run: nat, command: string, purpose: string,
      phase: Phase): (r: Reply<nat>)
    ensures r.state == s.(timeline := r.state.timeline, steps := r.state.steps, backups := r.state.backups,
      runs := r.state.runs)
  {
    CreateStep(p, s, run, Agent, command, purpose, phase)
  }

  function ProposeRestore(p: Policy, s: State, run: nat, recordId: nat, reason: string): (r: Reply<nat>)
    ensures r.state == s.(timeline := r.state.timeline, steps := r.state.steps, backups := r.state.backups,
      runs := r.state.runs)
  {
    if !s.backups.Has(run, recordId) then Raise(s, RecordNotInRun)
    else
      var command := s.backups.rows[recordId].data.restoreCommand;
      if command.None? || command.value == "" then Raise(s, NoRestoreCommand)
      else
        var reply := CreateStep(p, s, run, FromBackup, command.value, reason, Restore);
        if reply.result.Failure? then reply
        else reply.(state := Emit(reply.state, run, RestoreProposed(recordId, reply.result.value)))
  }

  function RecordBackupNotApplicable(s: State, run: nat, path: Option<string>): (r: Reply<nat>)
    ensures r.state == s.(timeline := r.state.timeline, backups := r.state.backups)
  {
    if run !in s.runs then Raise(s, RunNotFound)
    else
      var id := s.backups.next;
      var record := BackupRecord(None, path, NotApplicable, None, false, false);
      Return(Emit(s.(backups := s.backups.Add(run, record)), run, BackupNotApplicable(id)), id)
  }

  // ---- approving steps ---------------------------------------------------------------------------

  function StatusForApproved(phase: Phase): RunStatus {
    match phase
    case Fix => Fixing
    case Validation => Validating
    case _ => Executing
  }

  /** What a gate writes to the timeline, and the error it raises if it refuses. */
  datatype Gate = Gate(note: Option<Body>, error: Option<StoreError>)

  const OPEN := Gate(None, None)

  function Note(s: State, run: nat, gate: Gate): (t: State)
    ensures t == s.(timeline := t.timeline)
  {
    if gate.note.Some? then Emit(s, run, gate.note.value) else s
  }

  predicate Evidence(source: Source) { source.supports == RootCause || source.supports == FixChoice }

  function EvidenceIn(sources: seq<Source>): seq<Source> {
    if sources == [] then [] else (if Evidence(sources[0]) then [sources[0]] else []) + EvidenceIn(sources[1..])
  }

  /** Fix steps that change something need recorded evidence for a service they relate to. */
  function FixGate(p: Policy, s: State, run: nat, id: nat, step: Step): Gate
    requires run in s.runs
  {
    if step.phase != Fix || step.risk == ReadOnly || p.targetedBackup(step.command) then OPEN
    else
      var evidence := EvidenceIn(s.sources.OfRun(run));
      if evidence == [] then Gate(Some(FixBlocked(id)), Some(FixNeedsEvidence))
      else
        var service := p.serviceTarget(step.command);
        var related := p.relatedServices(s.runs[run].snapshot, evidence);
        if service.Some? && related != {} && service.value !in related
          then Gate(Some(FixBlocked(id)), Some(UnrelatedService))
        else Gate(Some(FixVerified(id)), None)
  }

  /** Whether one backup record covers a command's target. */
  predicate Satisfies(record: BackupRecord, path: Option<string>) {
    if record.kind == NotApplicable then path.None? || record.path == path
    else record.created && (path.None? || record.path == path)
  }

  predicate AnySatisfies(records: seq<BackupRecord>, path: Option<string>) {
    exists i :: 0 <= i < |records| && Satisfies(records[i], path)
  }

  function BackupGate(p: Policy, s: State, run: nat, id: nat, step: Step): Gate {
    var requirement := p.requirement(step.command, step.risk);
    if !requirement.required || AnySatisfies(s.backups.OfRun(run), requirement.path) then OPEN
    else Gate(Some(BackupApprovalRequested(id)), Some(BackupMissing))
  }

  function QueueExecution(s: State, run: nat, id: nat): State {
    Enqueue(Emit(s, run, ExecutionRequested(id)), run, Execute(id))
  }

  /** Records the approval and queues the command; `body` is the approval's timeline entry. */
  function Grant(s: State, run: nat, id: nat, body: Body): State
    requires run in s.runs && id in s.steps.rows
  {
    var step := s.steps.rows[id].data;
    var s1 := s.(steps := s.steps.Put(id, step.(status := Approved, approvedCommand := Some(step.command))));
    var s2 := PutRun(s1, run, s.runs[run].(status := StatusForApproved(step.phase), pending := None));
    QueueExecution(Emit(s2, run, body), run, id)
  }

  /** Both gates, then the approval itself. */
  function ApproveThroughGates(p: Policy, s: State, run: nat, id: nat, body: Body): (r: Reply<nat>)
    requires run in s.runs && id in s.steps.rows
    ensures r.state == s.(timeline := r.state.timeline, queue := r.state.queue, steps := r.state.steps,
      runs := r.state.runs)
  {
    var step := s.steps.rows[id].data;
    var fix := FixGate(p, s, run, id, step);
    var s1 := Note(s, run, fix);
    if fix.error.Some? then Raise(s1, fix.error.value)
    else
      var backup := BackupGate(p, s1, run, id, step);
      var s2 := Note(s1, run, backup);
      if backup.error.Some? then Raise(s2, backup.error.value) else Return(Grant(s2, run, id, body), run)
  }

  function ApproveStep(p: Policy, s: State, run: nat, id: nat): (r: Reply<nat>)
    ensures r.state == s.(timeline := r.state.timeline, queue := r.state.queue, steps := r.state.steps,
      runs := r.state.runs)
  {
    if run !in s.runs then Raise(s, RunNotFound)
    else if !s.steps.Has(run, id) then Raise(s, StepNotInRun)
    else
      var step := s.steps.rows[id].data;
      if s.runs[run].status != AwaitingStepApproval then Raise(s, NotAwaitingApproval)
      else if step.status != Proposed then Raise(s, NotProposed)
      else if step.blocked then Raise(s, StepBlocked)
      else ApproveThroughGates(p, s, run, id, StepApproved(id, step.command))
  }

  /** The edited command is classified and stored before the gates run, and stays stored if they refuse. */
  function EditAndApproveStep(p: Policy, s: State, run: nat, id: nat, command: string,
      purpose: Option<string>): (r: Reply<nat>)
    ensures r.state == s.(timeline := r.state.timeline, queue := r.state.queue, steps := r.state.steps,
      runs := r.state.runs)
  {
    if run !in s.runs then Raise(s, RunNotFound)
    else if !s.steps.Has(run, id) then Raise(s, StepNotInRun)
    else
      var step := s.steps.rows[id].data;
      if s.runs[run].status != AwaitingStepApproval then Raise(s, NotAwaitingApproval)
      else if step.status != Proposed then Raise(s, NotProposed)
      else
        var s1 := Reclassify(s, run, id, EditedStep(p, step, command, purpose));
        if p.classify(command).blocked then Raise(s1, EditBlocked)
        else ApproveThroughGates(p, s1, run, id, StepEditedAndApproved(id, command))
  }

  function EditedStep(p: Policy, step: Step, command: string, purpose: Option<string>): Step {
    var verdict := p.classify(command);
    step.(command := command, risk := verdict.risk, blocked := verdict.blocked,
          purpose := if purpose.Some? && purpose.value != "" then purpose.value else step.purpose)
  }

  function Reclassify(s: State, run: nat, id: nat, edited: Step): State
    requires id in s.steps.rows
  {
    Emit(s.(steps := s.steps.Put(id, edited)), run, SafetyClassified(id, edited.command, !edited.blocked, true))
  }

  function RejectStep(s: State, run: nat, id: nat): (r: Reply<nat>)
    ensures r.state == s.(timeline := r.state.timeline, steps := r.state.steps, runs := r.state.runs)
  {
    if run !in s.runs then Raise(s, RunNotFound)
    else if !s.steps.Has(run, id) then Raise(s, StepNotInRun)
    else
      var step := s.steps.rows[id].data;
      if s.runs[run].status != AwaitingStepApproval || step.status != Proposed then Raise(s, NotAwaitingApproval)
      else
        var s1 := s.(steps := s.steps.Put(id, step.(status := Rejected)));
        var s2 := PutRun(s1, run, s.runs[run].(status := IdleStatus(s.runs[run].status), pending := None));
        Return(Emit(s2, run, StepRejected(id)), run)
  }

  // ---- executing commands ------------------------------------------------------------------------

  function StartExecution(s: State, run: nat, stepId: nat): (r: Reply<nat>)
    ensures r.state == s.(timeline := r.state.timeline, executions := r.state.executions,
      storedBytes := r.state.storedBytes)
  {
    if run !in s.runs then Raise(s, RunNotFound)
    else if !s.steps.Has(run, stepId) then Raise(s, StepNotInRun)
    else
      var step := s.steps.rows[stepId].data;
      if s.runs[run].status == Aborted then Raise(s, TerminalRun)
      else if step.status != Approved || step.blocked || step.approvedCommand.None? || step.approvedCommand.value == ""
        then Raise(s, NotExecutable)
      else if s.runs[run].status != StatusForApproved(step.phase) then Raise(s, StaleStep)
      else if exists x :: x in s.executions.rows && s.executions.rows[x].data.stepId == stepId
        then Raise(s, AlreadyExecuted)
      else
        var id := s.executions.next;
        var command := step.approvedCommand.value;
        var execution := Execution(stepId, command, Running, s.limit, false, false, None, None, "", "");
        var s1 := s.(executions := s.executions.Add(run, execution), storedBytes := s.storedBytes[id := 0]);
        Return(Emit(s1, run, CommandStarted(stepId, id, command)), id)
  }

  function MarkTruncated(s: State, run: nat, id: nat): (t: State)
    requires id in s.executions.rows
    ensures t == s.(timeline := t.timeline, executions := t.executions)
  {
    var current := s.executions.rows[id].data;
    if current.truncated then s
    else Emit(s.(executions := s.executions.Put(id, current.(truncated := true))), run, OutputTruncated(id))
  }

  /** The run's chunks that belong to one execution. */
  function ChunksFor(chunks: seq<Chunk>, id: nat): seq<Chunk> {
    if chunks == [] then []
    else (if chunks[0].executionId == id then [chunks[0]] else []) + ChunksFor(chunks[1..], id)
  }

  function Stored(s: State, id: nat): nat { if id in s.storedBytes then s.storedBytes[id] else 0 }

  function AppendTo(e: Execution, stream: Stream, content: string): Execution {
    if stream == Stdout then e.(stdout := e.stdout + content) else e.(stderr := e.stderr + content)
  }

  function AppendChunk(p: Policy, s: State, run: nat, id: nat, stream: Stream, content: string,
      redacted: bool): (r: Reply<Option<nat>>)
    ensures r.state == s.(timeline := r.state.timeline, executions := r.state.executions,
      storedBytes := r.state.storedBytes, chunks := r.state.chunks)
  {
    if run !in s.runs then Raise(s, RunNotFound)
    else if !s.executions.Has(run, id) then Raise(s, ExecutionNotInRun)
    else if stream.OtherStream? then Raise(s, BadStream)
    else
      var execution := s.executions.rows[id].data;
      var (clean, changed) := p.redact(content);
      var stored := Stored(s, id);
      if stored >= execution.limit then Return(MarkTruncated(s, run, id), None)
      else
        var kept := Utf8.Fitting(clean, execution.limit - stored);
        if kept == "" then Return(MarkTruncated(s, run, id), None)
        else
          var s1 := StoreChunk(s, run, id, stream, kept, redacted || changed);
          var s2 := if Utf8.Size(clean) > execution.limit - stored then MarkTruncated(s1, run, id) else s1;
          Return(s2, Some(s.chunks.next))
  }

  function StoreChunk(s: State, run: nat, id: nat, stream: Stream, kept: string, redacted: bool): (t: State)
    requires id in s.executions.rows
    ensures id in t.executions.rows
    ensures t == s.(timeline := t.timeline, executions := t.executions, chunks := t.chunks,
      storedBytes := t.storedBytes)
  {
    var sequence := |ChunksFor(s.chunks.OfRun(run), id)| + 1;
    var s1 := s.(chunks := s.chunks.Add(run, Chunk(id, sequence, stream, kept, redacted)),
                 storedBytes := s.storedBytes[id := Stored(s, id) + Utf8.Size(kept)],
                 executions := s.executions.Put(id, AppendTo(s.executions.rows[id].data, stream, kept)));
    Emit(s1, run, OutputChunk(id, sequence))
  }

  predicate Truthy(text: Option<string>) { text.Some? && text.value != "" }

  function FinalStatus(exitCode: Option<int>, error: Option<string>, timedOut: bool): ExecutionStatus {
    if timedOut then TimedOut
    else if Truthy(error) || (exitCode.Some? && exitCode.value != 0) then ExecutionStatus.Failed
    else ExecutionStatus.Completed
  }

  predicate RemoteStarted(status: ExecutionStatus, exitCode: Option<int>, stdout: string, stderr: string) {
    exitCode.Some? || status == TimedOut || stdout != "" || stderr != ""
  }

  predicate FailedUnseen(status: ExecutionStatus, exitCode: Option<int>, stdout: string, stderr: string,
      error: Option<string>) {
    status == ExecutionStatus.Failed && Truthy(error) && !RemoteStarted(status, exitCode, stdout, stderr)
  }

  function CompleteExecution(p: Policy, s: State, run: nat, id: nat, exitCode: Option<int>, error: Option<string>,
      timedOut: bool): (r: Reply<nat>)
    ensures r.state == s.(timeline := r.state.timeline, queue := r.state.queue, runs := r.state.runs,
      steps := r.state.steps, executions := r.state.executions, sources := r.state.sources, results := r.state.results,
        expectations := r.state.expectations, backups := r.state.backups)
  {
    if run !in s.runs then Raise(s, RunNotFound)
    else if !s.executions.Has(run, id) then Raise(s, ExecutionNotInRun)
    else
      var done := WithOutcome(s.executions.rows[id].data, exitCode, error, timedOut);
      var s1 := s.(executions := s.executions.Put(id, done));
      if !s.steps.Has(run, done.stepId) then Raise(s1, StepNotInRun)
      else
        var step := s.steps.rows[done.stepId].data;
        var s2 := s1.(steps := s1.steps.Put(done.stepId, step.(status := OutcomeOf(done.status))));
        Return(Settle(p, s2, run, id, step, done), id)
  }

  /** Everything that follows once the execution and its step have their outcome; an aborted run is left alone. */
  function Settle(p: Policy, s: State, run: nat, id: nat, step: Step, done: Execution): (t: State)
    requires run in s.runs
    ensures t == s.(timeline := t.timeline, queue := t.queue, runs := t.runs, sources := t.sources,
      results := t.results,
                    expectations := t.expectations, backups := t.backups)
  {
    var s1 := if s.runs[run].status != Aborted then Conclude(p, s, run, id, step, done) else s;
    RecordObservations(p, Emit(s1, run, FinishedBody(id, done)), run, id, done, step)
  }

  function WithOutcome(e: Execution, exitCode: Option<int>, error: Option<string>, timedOut: bool): Execution {
    e.(status := FinalStatus(exitCode, error, timedOut), finished := true, exitCode := exitCode, error := error)
  }

  function OutcomeOf(status: ExecutionStatus): StepStatus {
    if status == ExecutionStatus.Completed then Executed else StepStatus.Failed
  }

  function FinishedBody(id: nat, done: Execution): Body {
    CommandFinished(done.stepId, id, done.status, done.exitCode, done.stdout, done.stderr, done.error)
  }

  /** Evidence, backups and restores are only recorded when the remote host was reached. */
  function RecordObservations(p: Policy, s: State, run: nat, id: nat, done: Execution, step: Step): (t: State)
    ensures t == s.(timeline := t.timeline, sources := t.sources, backups := t.backups)
  {
    if RemoteStarted(done.status, done.exitCode, done.stdout, done.stderr)
    then NoteRestore(RecordLedgers(p, s, run, id, done, step), run, id, done, step)
    else s
  }

  /** What a finished command means for its run. */
  function Conclude(p: Policy, s: State, run: nat, id: nat, step: Step, done: Execution): (t: State)
    requires run in s.runs
    ensures t == s.(timeline := t.timeline, queue := t.queue, runs := t.runs, results := t.results,
      expectations := t.expectations)
  {
    if step.phase == Validation then ConcludeValidation(p, s, run, id, done)
    else if done.status == ExecutionStatus.Completed && step.phase == Fix then ConcludeFix(p, s, run, id, step, done)
    else if done.status == ExecutionStatus.Completed then Replan(s, run, Investigating, ObservationRecorded)
    else if FailedUnseen(done.status, done.exitCode, done.stdout, done.stderr, done.error)
    then PutRun(s, run, s.runs[run].(status := RunStatus.Failed, pending := None))
    else Replan(s, run, Investigating, CommandFailure)
  }

  /** Moves the run and asks the planner for the next step. */
  function Replan(s: State, run: nat, status: RunStatus, reason: PlanReason): (t: State)
    requires run in s.runs
    ensures t == s.(timeline := t.timeline, queue := t.queue, runs := t.runs)
  {
    Enqueue(Emit(PutRun(s, run, s.runs[run].(status := status, pending := None)), run, PlanRequested(reason)), run,
      Plan(reason))
  }

  function ResultOf(p: Policy, id: nat, done: Execution): ValidationResult {
    var kind := p.checkType(done.command);
    var passed := done.status == ExecutionStatus.Completed && done.exitCode == Some(0)
                  && p.outputPasses(kind, if done.stdout != "" then done.stdout else done.stderr);
    ValidationResult(id, kind, p.checkTarget(done.command, kind), passed)
  }

  function LatestIds(rows: map<nat, Row<Expectation>>, ids: seq<nat>): seq<nat> {
    if ids == [] || ids[|ids| - 1] !in rows then [] else WithFix(rows, ids, rows[ids[|ids| - 1]].data.fixId)
  }

  function WithFix(rows: map<nat, Row<Expectation>>, ids: seq<nat>, fixId: nat): seq<nat> {
    if ids == [] then []
    else (if ids[0] in rows && rows[ids[0]].data.fixId == fixId then [ids[0]] else []) + WithFix(rows, ids[1..], fixId)
  }

  /** The ids of the expectations of the run's latest fix. */
  function LatestSuite(s: State, run: nat): seq<nat> { LatestIds(s.expectations.rows, s.expectations.Ids(run)) }

  function LatestExpectations(s: State, run: nat): seq<Expectation> { Lookup(s.expectations.rows, LatestSuite(s, run)) }

  predicate FixCompletedBy(executions: Table<Execution>, steps: Table<Step>, run: nat, x: nat) {
    && executions.Has(run, x) && executions.rows[x].data.status == ExecutionStatus.Completed
    && executions.rows[x].data.stepId in steps.rows && steps.rows[executions.rows[x].data.stepId].data.phase == Fix
  }

  predicate CompletedFix(s: State, run: nat, x: nat) { FixCompletedBy(s.executions, s.steps, run, x) }

  predicate HasCompletedFix(s: State, run: nat) {
    exists x :: x in s.executions.rows && CompletedFix(s, run, x)
  }

  /** Applies a result to the latest suite. */
  function ApplyResult(p: Policy, s: State, run: nat, resultId: nat, result: ValidationResult): (t: State)
    ensures t == s.(timeline := t.timeline, expectations := t.expectations)
  {
    var ids := LatestSuite(s, run);
    if ids == [] then Emit(s, run, SuiteMissing(resultId))
    else
      var found := Suite.Matching(p, LatestExpectations(s, run), result);
      if found.Some? && found.value < |ids| && ids[found.value] in s.expectations.rows
      then Decide(s, run, ids[found.value], resultId, result) else s
  }

  /** What the suite amounts to once the result has been applied. */
  function SuiteVerdict(s: State, run: nat, result: ValidationResult): Suite.SuiteStatus {
    if LatestSuite(s, run) != [] then Suite.StatusOf(LatestExpectations(s, run))
    else if HasCompletedFix(s, run) then Suite.Incomplete
    else if result.passed then Suite.SuiteStatus.Passed else Suite.SuiteStatus.Failed
  }

  function Decide(s: State, run: nat, expectationId: nat, resultId: nat, result: ValidationResult): (t: State)
    ensures t == s.(timeline := t.timeline, expectations := t.expectations)
    requires expectationId in s.expectations.rows
  {
    var verdict := if result.passed then CheckStatus.Passed else CheckStatus.Failed;
    var decided := s.expectations.rows[expectationId].data.(status := verdict, resultId := Some(resultId));
    Emit(s.(expectations := s.expectations.Put(expectationId, decided)), run,
      ExpectationUpdated(expectationId, resultId, verdict))
  }

  /** Stores the result, applies it, and moves the run according to what the suite amounts to. */
  function ConcludeValidation(p: Policy, s: State, run: nat, id: nat, done: Execution): (t: State)
    requires run in s.runs
    ensures t == s.(timeline := t.timeline, queue := t.queue, runs := t.runs, results := t.results,
      expectations := t.expectations)
  {
    var result := ResultOf(p, id, done);
    var s1 := RecordResult(s, run, result);
    var s2 := ApplyResult(p, s1, run, s.results.next, result);
    MoveOn(s2, run, s.results.next, SuiteVerdict(s2, run, result), result.passed)
  }

  function RecordResult(s: State, run: nat, result: ValidationResult): State {
    Emit(s.(results := s.results.Add(run, result)), run, ValidationRecorded(s.results.next, result.passed))
  }

  function MoveOn(s: State, run: nat, resultId: nat, suite: Suite.SuiteStatus, passed: bool): (t: State)
    requires run in s.runs
    ensures t == s.(timeline := t.timeline, queue := t.queue, runs := t.runs)
  {
    if suite == Suite.SuiteStatus.Passed then
      var s1 := PutRun(s, run, s.runs[run].(status := ReadyForActivity, pending := None));
      Enqueue(Emit(Emit(s1, run, SuitePassed(resultId)), run, DraftRequested(resultId)), run, DraftActivity(resultId))
    else Replan(s, run, Validating, if suite == Suite.SuiteStatus.Failed || !passed then ValidationFailed
      else SuiteIncomplete)
  }

  function AddExpectations(t: Table<Expectation>, run: nat, fixId: nat, specs: seq<Suite.CheckSpec>): Table<Expectation>
    decreases |specs|
  {
    if specs == [] then t
    else AddExpectations(t.Add(run,
      Expectation(fixId, specs[0].checkType, specs[0].target, true, CheckStatus.Pending, None)), run, fixId, specs[1..])
  }

  function NewIds(from: nat, count: nat): seq<nat> { seq(count, i requires 0 <= i < count => from + i) }

  function ConcludeFix(p: Policy, s: State, run: nat, id: nat, step: Step, done: Execution): (t: State)
    requires run in s.runs
    ensures t == s.(timeline := t.timeline, queue := t.queue, runs := t.runs, expectations := t.expectations)
  {
    var specs := Suite.Specs(p.suiteFacts(s.runs[run].snapshot, done.command, step.purpose));
    var s1 := s.(expectations := AddExpectations(s.expectations, run, id, specs));
    var s2 := PutRun(s1, run, s.runs[run].(status := Validating, pending := None));
    var s3 := Emit(s2, run, SuiteRequired(done.stepId, id, NewIds(s.expectations.next, |specs|)));
    var s4 := Emit(Emit(s3, run, ValidationRequired(done.stepId, id)), run, PlanRequested(FixCompleted));
    Enqueue(s4, run, Plan(FixCompleted))
  }

  function RecordSources(s: State, run: nat, id: nat, found: seq<DetectedSource>): (t: State)
    ensures t == s.(timeline := t.timeline, sources := t.sources)
    decreases |found|
  {
    if found == [] then s
    else
      RecordSources(RecordSource(s, run, Source(id, found[0].supports, found[0].redacted, found[0].detail)), run, id,
        found[1..])
  }

  function RecordSource(s: State, run: nat, source: Source): (t: State)
    ensures t == s.(timeline := t.timeline, sources := s.sources.Add(run, source))
  {
    var s1 := Emit(s.(sources := s.sources.Add(run, source)), run, SourceDetected(s.sources.next));
    if source.redacted then Emit(s1, run, SourceRedacted(s.sources.next)) else s1
  }

  predicate AnyRedacted(chunks: seq<Chunk>, id: nat) {
    exists i :: 0 <= i < |chunks| && chunks[i].executionId == id && chunks[i].redacted
  }

  function RecordLedgers(p: Policy, s: State, run: nat, id: nat, done: Execution, step: Step): (t: State)
    ensures t == s.(timeline := t.timeline, sources := t.sources, backups := t.backups)
  {
    var redacted := AnyRedacted(s.chunks.OfRun(run), id);
    var s1 := RecordSources(s, run, id,
      p.detectSources(done.command, done.stdout, done.stderr, step.purpose, step.phase, redacted));
    var backup := p.detectBackup(done.command, done.stdout + "\n" + done.stderr);
    if backup.None? then s1
    else
      var record := BackupRecord(Some(id), Some(backup.value.path), backup.value.kind,
        Some(backup.value.restoreCommand), true, true);
      Emit(s1.(backups := s1.backups.Add(run, record)), run, BackupCreated(s1.backups.next))
  }

  /** Position of the first record whose restore command was just run. */
  function RestoredRecord(records: seq<BackupRecord>, command: string): Option<nat> {
    if records == [] then None
    else if records[0].restoreCommand == Some(command) then Some(0)
    else match RestoredRecord(records[1..], command)
      case None => None
      case Some(i) => Some(i + 1)
  }

  function NoteRestore(s: State, run: nat, id: nat, done: Execution, step: Step): (t: State)
    ensures t == s.(timeline := t.timeline)
  {
    if step.phase != Restore || done.status != ExecutionStatus.Completed then s
    else
      var found := RestoredRecord(s.backups.OfRun(run), done.command);
      if found.None? || found.value >= |s.backups.Ids(run)| then s
      else Emit(s, run, BackupRestored(s.backups.Ids(run)[found.value], id))
  }

  // ---- drafts and submissions --------------------------------------------------------------------

  predicate AnyPassed(results: seq<ValidationResult>) { exists i :: 0 <= i < |results| && results[i].passed }

  /** Why the run may not be drafted or submitted yet, if so. */
  function NotReady(s: State, run: nat): Option<StoreError>
    requires run in s.runs
  {
    var expectations := LatestExpectations(s, run);
    var suite := Suite.StatusOf(expectations);
    var withoutSuite := expectations == [] && !HasCompletedFix(s, run) && AnyPassed(s.results.OfRun(run));
    if suite == Suite.SuiteStatus.Failed then Some(SuiteFailedEarlier)
    else if suite != Suite.SuiteStatus.Passed && !withoutSuite then Some(SuiteNotPassed)
    else if s.runs[run].status != ReadyForActivity then Some(RunNotReady)
    else None
  }

  predicate Blank(text: string) { forall i :: 0 <= i < |text| ==> Text.IsSpace(text[i]) }

  function Incomplete(draft: Draft, ticketId: int): Option<StoreError> {
    if draft.ticketId != ticketId then Some(WrongTicket)
    else if exists i :: 0 <= i < |draft.sections| && Blank(draft.sections[i]) then Some(MissingSections)
    else None
  }

  /** The draft builder's text is an input; the readiness test comes first, as when saving. */
  function CreateActivityDraft(p: Policy, s: State, run: nat, draft: Draft): (r: Reply<nat>)
    ensures r.state == s.(timeline := r.state.timeline, runs := r.state.runs, drafts := r.state.drafts,
      draftIds := r.state.draftIds, nextDraft := r.state.nextDraft)
  {
    if run !in s.runs then Raise(s, RunNotFound)
    else if NotReady(s, run).Some? then Raise(s, NotReady(s, run).value)
    else SaveActivityDraft(p, s, run, draft, false)
  }

  function SaveActivityDraft(p: Policy, s: State, run: nat, draft: Draft, edited: bool): (r: Reply<nat>)
    ensures r.state == s.(timeline := r.state.timeline, runs := r.state.runs, drafts := r.state.drafts,
      draftIds := r.state.draftIds, nextDraft := r.state.nextDraft)
  {
    if run !in s.runs then Raise(s, RunNotFound)
    else if NotReady(s, run).Some? then Raise(s, NotReady(s, run).value)
    else
      var clean := p.redactDraft(draft);
      var problem := Incomplete(clean, s.runs[run].ticketId);
      if problem.Some? then Raise(s, problem.value)
      else
        var id := s.nextDraft;
        var s1 := s.(nextDraft := id + 1, draftIds := s.draftIds[run := id], drafts := s.drafts[run := clean],
                     runs := s.runs[run := s.runs[run].(draft := Some(clean))]);
        Return(Emit(s1, run, DraftSaved(id, edited)), id)
  }

  predicate Open(status: RequestStatus) { status != RequestStatus.Completed && status != RequestStatus.DeadLetter }

  /** The run's newest request that is still open. */
  function OpenRequest(rows: map<nat, Row<IntegrationRequest>>, ids: seq<nat>): (found: Option<nat>)
    ensures found.Some? ==> found.value in ids && found.value in rows && Open(rows[found.value].data.status)
    ensures found.None? ==> forall id :: id in ids && id in rows ==> !Open(rows[id].data.status)
  {
    if ids == [] then None
    else
      var last := ids[|ids| - 1];
      if last in rows && Open(rows[last].data.status) then Some(last) else OpenRequest(rows, ids[..|ids| - 1])
  }

  function SavedDraft(s: State, run: nat): Option<Draft>
    requires run in s.runs
  {
    if run in s.drafts then Some(s.drafts[run]) else s.runs[run].draft
  }

  function NewRequest(s: State, run: nat): IntegrationRequest
    requires run in s.runs && SavedDraft(s, run).Some?
  {
    IntegrationRequest(s.runs[run].ticketId, if run in s.draftIds then Some(s.draftIds[run]) else None,
                       SavedDraft(s, run).value, RequestStatus.Pending, None, false, 0)
  }

  function QueueSubmission(s: State, run: nat): (r: Reply<nat>)
    ensures r.state == s.(timeline := r.state.timeline, queue := r.state.queue, requests := r.state.requests)
  {
    if run !in s.runs then Raise(s, RunNotFound)
    else if NotReady(s, run).Some? then Raise(s, NotReady(s, run).value)
    else
      var draft := SavedDraft(s, run);
      if draft.None? then Raise(s, NoDraft)
      else
        var problem := Incomplete(draft.value, s.runs[run].ticketId);
        if problem.Some? then Raise(s, problem.value)
        else
          var existing := OpenRequest(s.requests.rows, s.requests.Ids(run));
          if existing.Some? then Return(s, existing.value)
          else
            var id := s.requests.next;
            var s1 := Emit(s.(requests := s.requests.Add(run, NewRequest(s, run))), run, SubmissionRequested(id));
            var s2 := s1.(queue := Outbox.CancelPending(s1.queue, run, Outbox.DraftJob));
            Return(Enqueue(s2, run, Submit(id)), id)
  }

  function MarkProcessing(s: State, run: nat, id: nat): (r: Reply<nat>)
    ensures r.state == s.(requests := r.state.requests)
  {
    if run !in s.runs then Raise(s, RunNotFound)
    else if !s.requests.Has(run, id) then Raise(s, RequestNotInRun)
    else
      var request := s.requests.rows[id].data;
      if request.status == RequestStatus.Completed then Return(s, id)
      else Return(s.(requests :=
        s.requests.Put(id, request.(status := RequestStatus.Processing, attempts := request.attempts + 1))), id)
  }

  function MarkActivityCreated(s: State, run: nat, id: nat, activityId: int): (r: Reply<nat>)
    ensures r.state == s.(timeline := r.state.timeline, requests := r.state.requests)
  {
    if run !in s.runs then Raise(s, RunNotFound)
    else if !s.requests.Has(run, id) then Raise(s, RequestNotInRun)
    else
      var request := s.requests.rows[id].data.(status := ActivityCreated, activityId := Some(activityId));
      Return(Emit(s.(requests := s.requests.Put(id, request)), run, ActivityRecorded(id, activityId)), id)
  }

  function MarkCompleted(s: State, run: nat, id: nat): (r: Reply<nat>)
    ensures r.state == s.(timeline := r.state.timeline, requests := r.state.requests, runs := r.state.runs)
  {
    if run !in s.runs then Raise(s, RunNotFound)
    else if !s.requests.Has(run, id) then Raise(s, RequestNotInRun)
    else
      var request := s.requests.rows[id].data.(status := RequestStatus.Completed, ticketDone := true);
      var s1 := PutRun(s.(requests := s.requests.Put(id, request)), run, s.runs[run].(status := Submitted));
      Return(Emit(Emit(s1, run, ActivitySubmitted(id)), run, TicketUpdated(id)), run)
  }

  function FailedStatus(status: RequestStatus, terminal: bool): RequestStatus {
    if status == ActivityCreated && !terminal then ActivityCreated
    else if terminal then RequestStatus.DeadLetter else RequestStatus.Failed
  }

  function FailRequest(s: State, run: nat, id: nat, terminal: bool): (r: Reply<nat>)
    ensures r.state == s.(timeline := r.state.timeline, requests := r.state.requests)
  {
    if run !in s.runs then Raise(s, RunNotFound)
    else if !s.requests.Has(run, id) then Raise(s, RequestNotInRun)
    else
      var request := s.requests.rows[id].data;
      var status := FailedStatus(request.status, terminal);
      Return(Emit(s.(requests := s.requests.Put(id, request.(status := status))), run, IntegrationFailed(id, status)),
        id)
  }

  // ---- the outbox --------------------------------------------------------------------------------

  /** Recovers the stale events with ids below the bound, in id order. */
  function RecoverBelow(s: State, bound: nat): (t: State)
    ensures t == s.(timeline := t.timeline, queue := t.queue)
    decreases bound
  {
    if bound == 0 then s
    else
      var id := bound - 1;
      var s1 := RecoverBelow(s, id);
      if id in s.queue.events && Outbox.Stale(s.queue.events[id], s.clock)
      then Emit(PutOutboxEvent(s1, id, Outbox.Recovered(s.queue.events[id], s.clock)), s.queue.events[id].run,
        OutboxRecovered(id))
      else s1
  }

  function RecoverStale(s: State): State { RecoverBelow(s, s.queue.next) }

  function ClaimNext(s: State): (r: Reply<Option<nat>>)
    ensures r.state == s.(timeline := r.state.timeline, queue := r.state.queue)
  {
    var s1 := RecoverStale(s);
    var found := Outbox.FirstClaimable(s1.queue, s1.clock, 0);
    if found.None? then Return(s1, None)
    else Return(s1.(queue := Outbox.Claim(s1.queue, found.value, s1.clock)), found)
  }

  function CompleteOutbox(s: State, id: nat): (t: State)
    ensures t == s.(queue := t.queue)
  {
    s.(queue := Outbox.Acknowledge(s.queue, id))
  }

  /** A failed delivery also fails the integration request it carried. */
  function FailOutbox(s: State, id: nat): (r: Reply<nat>)
    ensures r.state == s.(timeline := r.state.timeline, requests := r.state.requests, queue := r.state.queue)
  {
    if id !in s.queue.events then Return(s, id)
    else
      var e := s.queue.events[id];
      var s1 := PutOutboxEvent(s, id, Outbox.FailedDelivery(e, s.clock));
      if e.job.Submit? then FailRequest(s1, e.run, e.job.requestId, Outbox.LastAttempt(e)) else Return(s1, id)
  }
}
