/** Folding a run's timeline alone reconstructs its status, its pending step and the status of every expectation. */
module Replay {
  import opened Wrappers
  import opened Tables
  import opened Model
  import opened Store
  import opened Indexing
  import opened History
  import opened Footprints
  import opened Silence
  import Outbox
  import Suite

  /** What a reader of the timeline knows about the run. */
  datatype View = View(status: RunStatus, pending: Option<nat>, phases: map<nat, Phase>, checks: map<nat, CheckStatus>)
  {
    function To(status: RunStatus): View { this.(status := status, pending := None) }
  }

  function AllPending(ids: seq<nat>): map<nat, CheckStatus> { map id | id in ids :: CheckStatus.Pending }

  /** The effect of one entry. */
  function Read(v: View, body: Body): View {
    match body
    case RunCreated(_) => View(AwaitingConnectionApproval, None, map[], map[])
    case ConnectionApproved => v.(status := Investigating)
    case StepProposed(id, phase) => v.(phases := v.phases[id := phase])
    case SafetyClassified(id, _, allowed, edited) =>
      if edited then v
      else if allowed then v.(status := AwaitingStepApproval, pending := Some(id))
      else v.To(IdleStatus(v.status))
    case StepApproved(id, _) => if id in v.phases then v.To(StatusForApproved(v.phases[id])) else v
    case StepEditedAndApproved(id, _) => if id in v.phases then v.To(StatusForApproved(v.phases[id])) else v
    case StepRejected(_) => v.To(IdleStatus(v.status))
    case RunRetried => v.To(Investigating)
    case RunAborted => v.To(Aborted)
    case SuiteRequired(_, _, ids) => v.To(Validating).(checks := v.checks + AllPending(ids))
    case ExpectationUpdated(id, _, verdict) => v.(checks := v.checks[id := verdict])
    case SuitePassed(_) => v.To(ReadyForActivity)
    case PlanRequested(reason) =>
      if reason == ValidationFailed || reason == SuiteIncomplete then v.To(Validating)
      else if reason == ObservationRecorded || reason == CommandFailure then v.To(Investigating)
      else v
    case CommandFinished(stepId, _, status, exitCode, stdout, stderr, error) =>
      if v.status != Aborted && stepId in v.phases && v.phases[stepId] != Validation
        && FailedUnseen(status, exitCode, stdout, stderr, error)
      then v.To(RunStatus.Failed) else v
    case ActivitySubmitted(_) => v.(status := Submitted)
    case _ => v
  }

  function ReadAll(es: seq<Event>): View {
    if es == [] then View(AwaitingConnectionApproval, None, map[], map[])
    else Read(ReadAll(es[..|es| - 1]), es[|es| - 1].body)
  }

  function Seen(s: State, run: nat): View { ReadAll(s.timeline.Of(run)) }

  /** The view and the records say the same about the run. */
  ghost predicate Matches(v: View, r: Run, steps: Table<Step>, expectations: Table<Expectation>, run: nat) {
    && v.status == r.status && v.pending == r.pending
    && (forall id :: steps.Has(run, id) ==> id in v.phases && v.phases[id] == steps.rows[id].data.phase)
    && (forall id :: id in v.checks <==> expectations.Has(run, id))
    && (forall id :: expectations.Has(run, id) ==> v.checks[id] == expectations.rows[id].data.status)
  }

  ghost predicate Agrees(s: State, run: nat)
    requires run in s.runs
  {
    Matches(Seen(s, run), s.runs[run], s.steps, s.expectations, run)
  }

  ghost predicate Faithful(s: State) { forall run :: run in s.runs ==> Agrees(s, run) }

  // ---- reading on --------------------------------------------------------------------------------

  lemma EmitRead(s: State, run: nat, body: Body)
    ensures Seen(Emit(s, run, body), run) == Read(Seen(s, run), body)
  {
    var es := s.timeline.Of(run);
    assert (es + [Event(s.timeline.next, body)])[..|es|] == es;
  }

  lemma {:induction false} SilentReads(a: seq<Event>, b: seq<Event>)
    requires a <= b && NoneAbout(RunMoved, b, |a|)
    ensures ReadAll(b) == ReadAll(a)
    decreases |b|
  {
    if |b| > |a| {
      var c := b[..|b| - 1];
      assert NoneAbout(RunMoved, c, |a|) && !About(RunMoved, b[|b| - 1].body);
      SilentReads(a, c);
    } else {
      assert a == b;
    }
  }

  /** Entries that do not move the run leave the reader's view as it is. */
  lemma SilentSeen(s: State, t: State)
    requires Silent(RunMoved, s.timeline, t.timeline)
    ensures forall run: nat :: Seen(t, run) == Seen(s, run)
  {
    hide ReadAll, NoneAbout;
    forall run: nat ensures Seen(t, run) == Seen(s, run) { SilentReads(s.timeline.Of(run), t.timeline.Of(run)); }
  }

  /** Nothing changed that the view speaks about. */
  ghost predicate Unmoved(s: State, t: State) {
    && t.runs.Keys == s.runs.Keys && t.steps == s.steps && t.expectations == s.expectations
    && forall run :: run in s.runs ==>
      t.runs[run].status == s.runs[run].status && t.runs[run].pending == s.runs[run].pending
  }

  lemma SilentFaithful(s: State, t: State)
    requires Faithful(s) && Unmoved(s, t) && Silent(RunMoved, s.timeline, t.timeline)
    ensures Faithful(t)
  {
    hide Silent, Seen;
    SilentSeen(s, t);
    forall run | run in t.runs ensures Agrees(t, run) { assert Agrees(s, run); }
  }

  lemma Untouched(s: State, t: State, run: nat, other: nat)
    requires Advances(s, t, run) && other != run && other in s.runs
    ensures other in t.runs && t.runs[other] == s.runs[other] && t.timeline.Of(other) == s.timeline.Of(other)
    ensures Owned(s.steps, t.steps) && Elsewhere(s.steps, t.steps, run)
    ensures Owned(s.expectations, t.expectations) && Elsewhere(s.expectations, t.expectations, run)
  {
    hide Elsewhere, Owned, TablesLater, QueueLater;
  }

  lemma MatchesElsewhere(v: View, r: Run, a: Table<Step>, b: Table<Step>, c: Table<Expectation>, d: Table<Expectation>,
      run: nat, other: nat)
    requires Owned(a, b) && Owned(c, d) && Elsewhere(a, b, run) && Elsewhere(c, d, run) && other != run
      && Matches(v, r, a, c, other)
    ensures Matches(v, r, b, d, other)
  {
  }

  /** Work on one run leaves the agreement of every other run alone. */
  lemma AgreesElsewhere(s: State, t: State, run: nat, other: nat)
    requires Advances(s, t, run) && other != run && other in s.runs && Agrees(s, other)
    ensures other in t.runs && Agrees(t, other)
  {
    hide Advances, Matches, ReadAll, Elsewhere, Owned;
    Untouched(s, t, run, other);
    MatchesElsewhere(Seen(s, other), s.runs[other], s.steps, t.steps, s.expectations, t.expectations, run, other);
  }

  /** A move of the run matches the same move of the view. */
  lemma MovedMatches(v: View, r: Run, steps: Table<Step>, expectations: Table<Expectation>, run: nat,
      status: RunStatus, pending: Option<nat>)
    requires Matches(v, r, steps, expectations, run)
    ensures Matches(v.(status := status, pending := pending), r.(status := status, pending := pending), steps,
      expectations, run)
  {
  }

  lemma StatusMatches(v: View, r: Run, steps: Table<Step>, expectations: Table<Expectation>, run: nat)
    requires Matches(v, r, steps, expectations, run)
    ensures v.status == r.status && v.pending == r.pending
    ensures forall id :: steps.Has(run, id) ==> id in v.phases && v.phases[id] == steps.rows[id].data.phase
  {
  }

  lemma NewStepMatches(v: View, r: Run, steps: Table<Step>, expectations: Table<Expectation>, run: nat, step: Step)
    requires Matches(v, r, steps, expectations, run)
    ensures Matches(v.(phases := v.phases[steps.next := step.phase]), r, steps.Add(run, step), expectations, run)
  {
  }

  /** An operation on one run that keeps that run in agreement keeps all of them. */
  lemma FaithfulAfter(s: State, t: State, run: nat)
    requires Faithful(s) && Advances(s, t, run) && (run in t.runs ==> Agrees(t, run))
    ensures Faithful(t)
  {
    hide Agrees;
    forall other | other in t.runs ensures Agrees(t, other) {
      if other != run {
        AgreesElsewhere(s, t, run, other);
      }
    }
  }

  // ---- runs --------------------------------------------------------------------------------------

  lemma CreateRunAgrees(s: State, ticketId: int, snapshot: string)
    requires Indexed(s)
    ensures Agrees(CreateRun(s, ticketId, snapshot).state, s.nextRun)
  {
    hide Indexed, ReadAll, Matches, OpenRun;
    var begun := OpenRun(s, ticketId, snapshot);
    EmitRead(begun, s.nextRun, RunCreated(ticketId));
    EmitRead(Emit(begun, s.nextRun, RunCreated(ticketId)), s.nextRun, ConnectionRequested);
    FreshMatches(s, ticketId, snapshot);
  }

  lemma FreshMatches(s: State, ticketId: int, snapshot: string)
    requires Indexed(s)
    ensures var begun := OpenRun(s, ticketId, snapshot);
            s.nextRun in begun.runs
              && Matches(View(AwaitingConnectionApproval, None, map[], map[]), begun.runs[s.nextRun], begun.steps,
                begun.expectations, s.nextRun)
  {
    hide Table.Indexed, TimelineIndexed, QueueIndexed;
    NoneOwned(s.steps, s.runs.Keys, s.nextRun);
    NoneOwned(s.expectations, s.runs.Keys, s.nextRun);
  }

  lemma NoneOwned<T>(t: Table<T>, runs: set<nat>, run: nat)
    requires t.Indexed(runs) && run !in runs
    ensures forall id :: id in t.rows ==> t.rows[id].run != run
  {
  }

  lemma ApproveConnectionAgrees(s: State, run: nat)
    requires run in s.runs && Agrees(s, run)
    ensures run in ApproveConnection(s, run).state.runs && Agrees(ApproveConnection(s, run).state, run)
  {
    hide ReadAll, Matches;
    var s1 := PutRun(s, run, s.runs[run].(status := Investigating));
    StatusMatches(Seen(s, run), s.runs[run], s.steps, s.expectations, run);
    MovedMatches(Seen(s, run), s.runs[run], s.steps, s.expectations, run, Investigating, s.runs[run].pending);
    EmitRead(s1, run, ConnectionApproved);
    EmitRead(Emit(s1, run, ConnectionApproved), run, PlanRequested(ConnectionApproval));
  }

  lemma RetryRunAgrees(s: State, run: nat)
    requires run in s.runs && Agrees(s, run)
    ensures run in RetryRun(s, run).state.runs && Agrees(RetryRun(s, run).state, run)
  {
    hide ReadAll, Outbox.Supersede, Matches;
    MovedMatches(Seen(s, run), s.runs[run], s.steps, s.expectations, run, Investigating, None);
    var s1 := PutRun(s.(queue := Outbox.Supersede(s.queue, run)), run,
      s.runs[run].(status := Investigating, pending := None));
    EmitRead(s1, run, RunRetried);
  }

  lemma AbortRunAgrees(s: State, run: nat)
    requires run in s.runs && Agrees(s, run)
    ensures run in AbortRun(s, run).state.runs && Agrees(AbortRun(s, run).state, run)
  {
    hide ReadAll, Matches;
    MovedMatches(Seen(s, run), s.runs[run], s.steps, s.expectations, run, Aborted, None);
    EmitRead(PutRun(s, run, s.runs[run].(status := Aborted, pending := None)), run, RunAborted);
  }

  // ---- steps -------------------------------------------------------------------------------------

  lemma AnnounceStepRead(s: State, run: nat, step: Step)
    ensures Seen(AnnounceStep(s, run, step), run) ==
            Read(Read(Seen(s, run), StepProposed(s.steps.next, step.phase)),
              SafetyClassified(s.steps.next, step.command, !step.blocked, false))
  {
    hide ReadAll;
    var id := s.steps.next;
    var s1 := s.(steps := s.steps.Add(run, step));
    var s2 := if step.origin == Manual then Emit(s1, run, ManualStepEntered(id)) else s1;
    EmitRead(s1, run, ManualStepEntered(id));
    EmitRead(s2, run, StepProposed(id, step.phase));
    EmitRead(Emit(s2, run, StepProposed(id, step.phase)), run,
      SafetyClassified(id, step.command, !step.blocked, false));
  }

  lemma CreateStepAgrees(p: Policy, s: State, run: nat, origin: Origin, command: string, purpose: string, phase: Phase)
    requires run in s.runs && Agrees(s, run)
    ensures var t := CreateStep(p, s, run, origin, command, purpose, phase).state; run in t.runs && Agrees(t, run)
  {
    hide ReadAll, Silent, AnnounceStep, PlanBackup, Matches;
    var step := NewStep(p, origin, command, purpose, phase);
    NewStepMatches(Seen(s, run), s.runs[run], s.steps, s.expectations, run, step);
    var v := Seen(s, run).(phases := Seen(s, run).phases[s.steps.next := step.phase]);
    MovedMatches(v, s.runs[run], s.steps.Add(run, step), s.expectations, run, IdleStatus(s.runs[run].status), None);
    MovedMatches(v, s.runs[run], s.steps.Add(run, step), s.expectations, run, AwaitingStepApproval, Some(s.steps.next));
    StatusMatches(Seen(s, run), s.runs[run], s.steps, s.expectations, run);
    var s1 := AnnounceStep(s, run, step);
    AnnounceStepRead(s, run, step);
    PlanBackupSilent(RunMoved, p, s1, run, s.runs[run].ticketId, step);
    SilentSeen(s1, PlanBackup(p, s1, run, s.runs[run].ticketId, step));
  }

  lemma CreateManualStepAgrees(p: Policy, s: State, run: nat, command: string, purpose: string, phase: Phase)
    requires run in s.runs && Agrees(s, run)
    ensures var t := CreateManualStep(p, s, run, command, purpose, phase).state; run in t.runs && Agrees(t, run)
  {
    hide ReadAll, CreateStep, Outbox.CancelPending;
    CreateStepAgrees(p, s.(queue := Outbox.CancelPending(s.queue, run, Outbox.PlanJob)), run, Manual, command, purpose,
      phase);
  }

  lemma ProposeRestoreAgrees(p: Policy, s: State, run: nat, recordId: nat, reason: string)
    requires run in s.runs && Agrees(s, run)
    ensures var t := ProposeRestore(p, s, run, recordId, reason).state; run in t.runs && Agrees(t, run)
  {
    hide ReadAll, CreateStep;
    if s.backups.Has(run, recordId) && s.backups.rows[recordId].data.restoreCommand.Some? {
      var command := s.backups.rows[recordId].data.restoreCommand.value;
      var reply := CreateStep(p, s, run, FromBackup, command, reason, Restore);
      CreateStepAgrees(p, s, run, FromBackup, command, reason, Restore);
      if reply.result.Success? { EmitRead(reply.state, run, RestoreProposed(recordId, reply.result.value)); }
    }
  }

  lemma StepMatches(v: View, r: Run, steps: Table<Step>, expectations: Table<Expectation>, run: nat, id: nat,
      step: Step)
    requires Matches(v, r, steps, expectations, run) && id in steps.rows && step.phase == steps.rows[id].data.phase
    ensures Matches(v, r, steps.Put(id, step), expectations, run)
  {
  }

  lemma GrantAgrees(s: State, run: nat, id: nat, body: Body)
    requires run in s.runs && s.steps.Has(run, id) && Agrees(s, run)
    requires body == StepApproved(id, s.steps.rows[id].data.command)
      || body == StepEditedAndApproved(id, s.steps.rows[id].data.command)
    ensures run in Grant(s, run, id, body).runs && Agrees(Grant(s, run, id, body), run)
  {
    hide ReadAll, Matches;
    var step := s.steps.rows[id].data;
    var approved := step.(status := Approved, approvedCommand := Some(step.command));
    StatusMatches(Seen(s, run), s.runs[run], s.steps, s.expectations, run);
    StepMatches(Seen(s, run), s.runs[run], s.steps, s.expectations, run, id, approved);
    MovedMatches(Seen(s, run), s.runs[run], s.steps.Put(id, approved), s.expectations, run,
      StatusForApproved(step.phase), None);
    var s1 := s.(steps := s.steps.Put(id, step.(status := Approved, approvedCommand := Some(step.command))));
    var s2 := PutRun(s1, run, s.runs[run].(status := StatusForApproved(step.phase), pending := None));
    EmitRead(s2, run, body);
    EmitRead(Emit(s2, run, body), run, ExecutionRequested(id));
  }

  lemma ApproveThroughGatesAgrees(p: Policy, s: State, run: nat, id: nat, body: Body)
    requires run in s.runs && s.steps.Has(run, id) && Agrees(s, run)
    requires body == StepApproved(id, s.steps.rows[id].data.command)
      || body == StepEditedAndApproved(id, s.steps.rows[id].data.command)
    ensures var t := ApproveThroughGates(p, s, run, id, body).state; run in t.runs && Agrees(t, run)
  {
    hide Silent, Seen, Note, FixGate, BackupGate, Grant, Matches;
    var step := s.steps.rows[id].data;
    var fix := FixGate(p, s, run, id, step);
    var s1 := Note(s, run, fix);
    GatesSilent(RunMoved, p, s, run, id, step);
    SilentSeen(s, s1);
    if fix.error.None? {
      var backup := BackupGate(p, s1, run, id, step);
      GatesSilent(RunMoved, p, s1, run, id, step);
      SilentSeen(s1, Note(s1, run, backup));
      if backup.error.None? { GrantAgrees(Note(s1, run, backup), run, id, body); }
    }
  }

  lemma ApproveStepAgrees(p: Policy, s: State, run: nat, id: nat)
    requires run in s.runs && Agrees(s, run)
    ensures var t := ApproveStep(p, s, run, id).state; run in t.runs && Agrees(t, run)
  {
    hide ReadAll, ApproveThroughGates, Matches;
    if s.steps.Has(run, id) {
      ApproveThroughGatesAgrees(p, s, run, id, StepApproved(id, s.steps.rows[id].data.command));
    }
  }

  lemma ReclassifyAgrees(s: State, run: nat, id: nat, edited: Step)
    requires run in s.runs && s.steps.Has(run, id) && Agrees(s, run) && edited.phase == s.steps.rows[id].data.phase
    ensures Agrees(Reclassify(s, run, id, edited), run)
  {
    hide ReadAll;
    EmitRead(s.(steps := s.steps.Put(id, edited)), run, SafetyClassified(id, edited.command, !edited.blocked, true));
  }

  lemma EditAndApproveStepAgrees(p: Policy, s: State, run: nat, id: nat, command: string, purpose: Option<string>)
    requires run in s.runs && Agrees(s, run)
    ensures var t := EditAndApproveStep(p, s, run, id, command, purpose).state; run in t.runs && Agrees(t, run)
  {
    hide ReadAll, ApproveThroughGates, Matches;
    if s.steps.Has(run, id) {
      var edited := EditedStep(p, s.steps.rows[id].data, command, purpose);
      ReclassifyAgrees(s, run, id, edited);
      ApproveThroughGatesAgrees(p, Reclassify(s, run, id, edited), run, id, StepEditedAndApproved(id, command));
    }
  }

  lemma RejectStepAgrees(s: State, run: nat, id: nat)
    requires run in s.runs && Agrees(s, run)
    ensures run in RejectStep(s, run, id).state.runs && Agrees(RejectStep(s, run, id).state, run)
  {
    hide ReadAll;
    if s.steps.Has(run, id) {
      var rejected := s.steps.rows[id].data.(status := Rejected);
      StatusMatches(Seen(s, run), s.runs[run], s.steps, s.expectations, run);
      MovedMatches(Seen(s, run), s.runs[run], s.steps.Put(id, rejected), s.expectations, run,
        IdleStatus(s.runs[run].status), None);
      var s1 := s.(steps := s.steps.Put(id, s.steps.rows[id].data.(status := Rejected)));
      var s2 := PutRun(s1, run, s.runs[run].(status := IdleStatus(s.runs[run].status), pending := None));
      EmitRead(s2, run, StepRejected(id));
    }
  }

  // ---- commands ----------------------------------------------------------------------------------

  lemma ReplanAgrees(s: State, run: nat, status: RunStatus, reason: PlanReason)
    requires run in s.runs && Agrees(s, run)
    requires if status == Validating then reason == ValidationFailed || reason == SuiteIncomplete
             else status == Investigating && (reason == ObservationRecorded || reason == CommandFailure)
    ensures Agrees(Replan(s, run, status, reason), run)
  {
    hide ReadAll, Matches;
    MovedMatches(Seen(s, run), s.runs[run], s.steps, s.expectations, run, status, None);
    EmitRead(PutRun(s, run, s.runs[run].(status := status, pending := None)), run, PlanRequested(reason));
  }

  lemma DecidedMatches(v: View, r: Run, steps: Table<Step>, expectations: Table<Expectation>, run: nat, id: nat,
      e: Expectation)
    requires Matches(v, r, steps, expectations, run) && expectations.Has(run, id)
    ensures Matches(v.(checks := v.checks[id := e.status]), r, steps, expectations.Put(id, e), run)
  {
  }

  lemma DecideAgrees(s: State, run: nat, expectationId: nat, resultId: nat, result: ValidationResult)
    requires run in s.runs && Agrees(s, run) && s.expectations.Has(run, expectationId)
    ensures Agrees(Decide(s, run, expectationId, resultId, result), run)
  {
    hide ReadAll, Matches;
    var verdict := if result.passed then CheckStatus.Passed else CheckStatus.Failed;
    var decided := s.expectations.rows[expectationId].data.(status := verdict, resultId := Some(resultId));
    DecidedMatches(Seen(s, run), s.runs[run], s.steps, s.expectations, run, expectationId, decided);
    EmitRead(s.(expectations := s.expectations.Put(expectationId, decided)), run,
      ExpectationUpdated(expectationId, resultId, verdict));
  }

  lemma ApplyResultAgrees(p: Policy, s: State, run: nat, resultId: nat, result: ValidationResult)
    requires Indexed(s) && run in s.runs && Agrees(s, run)
    ensures Agrees(ApplyResult(p, s, run, resultId, result), run)
  {
    hide Table.Indexed, TimelineIndexed, QueueIndexed, LatestSuite, LatestExpectations, Decide, Matches, Seen;
    EmitRead(s, run, SuiteMissing(resultId));
    var id := Chosen(p, s, run, result);
    if id.Some? {
      ChosenIsPending(p, s, run, result);
      DecideAgrees(s, run, id.value, resultId, result);
    }
  }

  lemma ReadyAgrees(s: State, run: nat, resultId: nat)
    requires run in s.runs && Agrees(s, run)
    ensures var s1 := PutRun(s, run, s.runs[run].(status := ReadyForActivity, pending := None));
            Agrees(Emit(Emit(s1, run, SuitePassed(resultId)), run, DraftRequested(resultId)), run)
  {
    hide ReadAll, Matches;
    MovedMatches(Seen(s, run), s.runs[run], s.steps, s.expectations, run, ReadyForActivity, None);
    var s1 := PutRun(s, run, s.runs[run].(status := ReadyForActivity, pending := None));
    EmitRead(s1, run, SuitePassed(resultId));
    EmitRead(Emit(s1, run, SuitePassed(resultId)), run, DraftRequested(resultId));
  }

  lemma MoveOnAgrees(s: State, run: nat, resultId: nat, suite: Suite.SuiteStatus, passed: bool)
    requires run in s.runs && Agrees(s, run)
    ensures Agrees(MoveOn(s, run, resultId, suite, passed), run)
  {
    hide ReadAll, Matches, Replan, Read;
    if suite == Suite.SuiteStatus.Passed {
      ReadyAgrees(s, run, resultId);
    } else {
      ReplanAgrees(s, run, Validating, if suite == Suite.SuiteStatus.Failed || !passed then ValidationFailed
        else SuiteIncomplete);
    }
  }

  lemma RecordResultAgrees(s: State, run: nat, result: ValidationResult)
    requires run in s.runs && Agrees(s, run)
    ensures run in RecordResult(s, run, result).runs && Agrees(RecordResult(s, run, result), run)
  {
    hide Matches;
    var s1 := s.(results := s.results.Add(run, result));
    EmitRead(s1, run, ValidationRecorded(s.results.next, result.passed));
  }

  lemma ConcludeValidationAgrees(p: Policy, s: State, run: nat, id: nat, done: Execution)
    requires Indexed(s) && run in s.runs && Agrees(s, run)
    ensures run in ConcludeValidation(p, s, run, id, done).runs && Agrees(ConcludeValidation(p, s, run, id, done), run)
  {
    hide Indexed, Seen, Matches, RecordResult, ApplyResult, SuiteVerdict, ResultOf, Advances;
    var result := ResultOf(p, id, done);
    RecordResultReaches(s, run, result);
    RecordResultAgrees(s, run, result);
    var s1 := RecordResult(s, run, result);
    ApplyResultAgrees(p, s1, run, s.results.next, result);
    var s2 := ApplyResult(p, s1, run, s.results.next, result);
    MoveOnAgrees(s2, run, s.results.next, SuiteVerdict(s2, run, result), result.passed);
  }

  function PendingFor(fixId: nat, spec: Suite.CheckSpec): Expectation {
    Expectation(fixId, spec.checkType, spec.target, true, CheckStatus.Pending, None)
  }

  /** The next ids are given out in order, one for each check, and no other record changes. */
  lemma {:induction false} AddedExpectations(t: Table<Expectation>, run: nat, fixId: nat, specs: seq<Suite.CheckSpec>)
    ensures AddExpectations(t, run, fixId, specs).next == t.next + |specs|
    ensures forall id: nat :: id < t.next || t.next + |specs| <= id ==>
      (id in AddExpectations(t, run, fixId, specs).rows <==> id in t.rows)
    ensures forall id: nat :: (id < t.next || t.next + |specs| <= id) && id in t.rows ==>
      AddExpectations(t, run, fixId, specs).rows[id] == t.rows[id]
    ensures forall id: nat :: t.next <= id < t.next + |specs| ==>
      id in AddExpectations(t, run, fixId, specs).rows
      && AddExpectations(t, run, fixId, specs).rows[id] == Row(run, PendingFor(fixId, specs[id - t.next]))
    decreases |specs|
  {
    if specs != [] {
      var t1 := t.Add(run, PendingFor(fixId, specs[0]));
      AddedExpectations(t1, run, fixId, specs[1..]);
      assert AddExpectations(t, run, fixId, specs) == AddExpectations(t1, run, fixId, specs[1..]);
      forall id: nat | t.next <= id < t.next + |specs|
        ensures id in AddExpectations(t, run, fixId, specs).rows
                && AddExpectations(t, run, fixId, specs).rows[id] == Row(run, PendingFor(fixId, specs[id - t.next]))
      {
        if id == t.next { assert id < t1.next && id in t1.rows; }
        else { assert specs[id - t.next] == specs[1..][id - t1.next]; }
      }
    }
  }

  lemma NewIdsAre(from: nat, count: nat)
    ensures forall id: nat :: id in NewIds(from, count) <==> from <= id < from + count
  {
    forall id: nat | from <= id < from + count ensures id in NewIds(from, count) {
      assert NewIds(from, count)[id - from] == id;
    }
  }

  /** A check of the run is read as it is on record, whether it was just opened or was there before. */
  lemma OpenedCheckMatches(checks: map<nat, CheckStatus>, t: Table<Expectation>, run: nat, fixId: nat,
      specs: seq<Suite.CheckSpec>, id: nat)
    requires (forall i :: i in checks <==> t.Has(run, i))
      && (forall i :: t.Has(run, i) ==> checks[i] == t.rows[i].data.status)
    requires forall i :: i in t.rows ==> i < t.next
    ensures var u, after := AddExpectations(t, run, fixId, specs), checks + AllPending(NewIds(t.next, |specs|));
            (id in after <==> u.Has(run, id)) && (u.Has(run, id) ==> after[id] == u.rows[id].data.status)
  {
    hide AddExpectations, NewIds;
    AddedExpectations(t, run, fixId, specs);
    NewIdsAre(t.next, |specs|);
    var u := AddExpectations(t, run, fixId, specs);
    if t.next <= id < t.next + |specs| {
      assert u.rows[id] == Row(run, PendingFor(fixId, specs[id - t.next]));
    } else {
      assert id in u.rows <==> id in t.rows;
    }
  }

  lemma SuiteMatches(v: View, r: Run, steps: Table<Step>, t: Table<Expectation>, runs: set<nat>, run: nat, fixId: nat,
      specs: seq<Suite.CheckSpec>)
    requires Matches(v, r, steps, t, run) && t.Indexed(runs)
    ensures Matches(v.(checks := v.checks + AllPending(NewIds(t.next, |specs|))), r, steps,
      AddExpectations(t, run, fixId, specs), run)
  {
    hide AddExpectations, NewIds, AllPending;
    forall id: nat { OpenedCheckMatches(v.checks, t, run, fixId, specs, id); }
  }

  lemma ConcludeFixAgrees(p: Policy, s: State, run: nat, id: nat, step: Step, done: Execution)
    requires Indexed(s) && run in s.runs && Agrees(s, run)
    ensures run in ConcludeFix(p, s, run, id, step, done).runs && Agrees(ConcludeFix(p, s, run, id, step, done), run)
  {
    hide Table.Indexed, TimelineIndexed, QueueIndexed, AddExpectations, Suite.Specs, NewIds, Matches, ReadAll,
      AllPending, FailedUnseen, IdleStatus, StatusForApproved, Outbox.Enqueue;
    var specs := Suite.Specs(p.suiteFacts(s.runs[run].snapshot, done.command, step.purpose));
    var ids := NewIds(s.expectations.next, |specs|);
    var v := Seen(s, run);
    SuiteMatches(v, s.runs[run], s.steps, s.expectations, s.runs.Keys, run, id, specs);
    var u := AddExpectations(s.expectations, run, id, specs);
    MovedMatches(v.(checks := v.checks + AllPending(ids)), s.runs[run], s.steps, u, run, Validating, None);
    var s2 := PutRun(s.(expectations := u), run, s.runs[run].(status := Validating, pending := None));
    EmitRead(s2, run, SuiteRequired(done.stepId, id, ids));
    var s3 := Emit(s2, run, SuiteRequired(done.stepId, id, ids));
    EmitRead(s3, run, ValidationRequired(done.stepId, id));
    var s4 := Emit(s3, run, ValidationRequired(done.stepId, id));
    EmitRead(s4, run, PlanRequested(FixCompleted));
    assert Seen(s2, run) == v;
    assert Seen(Emit(s4, run, PlanRequested(FixCompleted)), run) == Seen(s3, run);
  }

  /** Before its closing entry a concluded command has moved the run, except when it never reached the host. */
  lemma ConcludeAgrees(p: Policy, s: State, run: nat, id: nat, step: Step, done: Execution)
    requires Indexed(s) && run in s.runs && Agrees(s, run) && s.steps.Has(run, done.stepId)
    requires step.phase == s.steps.rows[done.stepId].data.phase && s.runs[run].status != Aborted
    ensures run in Conclude(p, s, run, id, step, done).runs
    ensures Agrees(Emit(Conclude(p, s, run, id, step, done), run, FinishedBody(id, done)), run)
  {
    hide Indexed, ReadAll, Matches, ConcludeValidation, ConcludeFix, Replan;
    var t := Conclude(p, s, run, id, step, done);
    ConcludeKeepsRun(p, s, run, id, step, done);
    EmitRead(t, run, FinishedBody(id, done));
    StatusMatches(Seen(s, run), s.runs[run], s.steps, s.expectations, run);
    if step.phase == Validation {
      ConcludeValidationAgrees(p, s, run, id, done);
      StatusMatches(Seen(t, run), t.runs[run], t.steps, t.expectations, run);
    } else if FailedUnseen(done.status, done.exitCode, done.stdout, done.stderr, done.error) {
      MovedMatches(Seen(s, run), s.runs[run], s.steps, s.expectations, run, RunStatus.Failed, None);
    } else if done.status == ExecutionStatus.Completed && step.phase == Fix {
      ConcludeFixAgrees(p, s, run, id, step, done);
    } else {
      ReplanAgrees(s, run, Investigating, if done.status == ExecutionStatus.Completed then ObservationRecorded
        else CommandFailure);
    }
  }

  lemma SettleAgrees(p: Policy, s: State, run: nat, id: nat, step: Step, done: Execution)
    requires Indexed(s) && run in s.runs && Agrees(s, run) && s.steps.Has(run, done.stepId)
    requires step.phase == s.steps.rows[done.stepId].data.phase
    ensures run in Settle(p, s, run, id, step, done).runs && Agrees(Settle(p, s, run, id, step, done), run)
  {
    hide Indexed, Silent, Seen, Matches, Conclude, RecordObservations, FinishedBody;
    var s1 := if s.runs[run].status != Aborted then Conclude(p, s, run, id, step, done) else s;
    if s.runs[run].status != Aborted {
      ConcludeAgrees(p, s, run, id, step, done);
    } else {
      AbortedIgnores(s, run, id, done);
    }
    var s2 := Emit(s1, run, FinishedBody(id, done));
    RecordObservationsSilent(RunMoved, p, s2, run, id, done, step);
    SilentSeen(s2, RecordObservations(p, s2, run, id, done, step));
  }

  lemma AbortedIgnores(s: State, run: nat, id: nat, done: Execution)
    requires run in s.runs && Agrees(s, run) && s.runs[run].status == Aborted
    ensures Agrees(Emit(s, run, FinishedBody(id, done)), run)
  {
    hide ReadAll, Matches;
    EmitRead(s, run, FinishedBody(id, done));
    StatusMatches(Seen(s, run), s.runs[run], s.steps, s.expectations, run);
  }

  lemma CompleteExecutionAgrees(p: Policy, s: State, run: nat, id: nat, exitCode: Option<int>, error: Option<string>,
      timedOut: bool)
    requires Indexed(s) && run in s.runs && Agrees(s, run)
    ensures var t := CompleteExecution(p, s, run, id, exitCode, error, timedOut).state; run in t.runs && Agrees(t, run)
  {
    hide Indexed, Advances, ReadAll, Settle, FinalStatus;
    if s.executions.Has(run, id) {
      var done := WithOutcome(s.executions.rows[id].data, exitCode, error, timedOut);
      var s1 := s.(executions := s.executions.Put(id, done));
      PutExecutionReaches(s, run, id, done);
      if s.steps.Has(run, done.stepId) {
        var step := s.steps.rows[done.stepId].data;
        var outcome := step.(status := OutcomeOf(done.status));
        var s2 := s1.(steps := s1.steps.Put(done.stepId, outcome));
        PutStepReaches(s1, run, done.stepId, outcome);
        SettleAgrees(p, s2, run, id, step, done);
      }
    }
  }

  // ---- submissions -------------------------------------------------------------------------------

  lemma SubmittedAgrees(s: State, t: State, run: nat, id: nat)
    requires run in s.runs && Agrees(s, run)
    requires t == s.(requests := t.requests, runs := s.runs[run := s.runs[run].(status := Submitted)])
    ensures Agrees(Emit(t, run, ActivitySubmitted(id)), run)
  {
    hide ReadAll, Matches;
    StatusMatches(Seen(s, run), s.runs[run], s.steps, s.expectations, run);
    MovedMatches(Seen(s, run), s.runs[run], s.steps, s.expectations, run, Submitted, s.runs[run].pending);
    EmitRead(t, run, ActivitySubmitted(id));
  }

  lemma MarkCompletedAgrees(s: State, run: nat, id: nat)
    requires run in s.runs && Agrees(s, run)
    ensures var t := MarkCompleted(s, run, id).state; run in t.runs && Agrees(t, run)
  {
    hide Seen, Matches;
    if s.requests.Has(run, id) {
      var request := s.requests.rows[id].data.(status := RequestStatus.Completed, ticketDone := true);
      var s1 := PutRun(s.(requests := s.requests.Put(id, request)), run, s.runs[run].(status := Submitted));
      SubmittedAgrees(s, s1, run, id);
      var s2 := Emit(s1, run, ActivitySubmitted(id));
      EmitRead(s2, run, TicketUpdated(id));
    }
  }
}
