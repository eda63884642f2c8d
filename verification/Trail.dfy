/** The approval chain in the timeline: proposed, cleared for one command, approved, requested, started. */
module Trail {
  import opened Wrappers
  import opened Tables
  import opened Model
  import opened Store
  import opened Indexing
  import opened History
  import opened Footprints
  import opened Silence
  import opened Delivery
  import opened Runs
  import opened Approval
  import Outbox

  /** How far a step has come according to the log. */
  datatype Progress =
    | Unseen
    | Announced
    | Classified(command: string)
    | Endorsed(command: string)
    | Queued(command: string)
    | Begun(execution: nat, command: string)

  /** The effect of one entry on one step's progress; an entry out of order has none. */
  function Follow(t: Progress, body: Body, id: nat): Progress {
    match body
    case StepProposed(i, _) => if i == id && t.Unseen? then Announced else t
    case SafetyClassified(i, c, allowed, _) =>
      if i == id && (t.Announced? || t.Classified?) then if allowed then Classified(c) else Announced else t
    case StepApproved(i, c) => if i == id && t == Classified(c) then Endorsed(c) else t
    case StepEditedAndApproved(i, c) => if i == id && t == Classified(c) then Endorsed(c) else t
    case ExecutionRequested(i) => if i == id && t.Endorsed? then Queued(t.command) else t
    case CommandStarted(i, x, c) => if i == id && t == Queued(c) then Begun(x, c) else t
    case _ => t
  }

  function TrailOf(es: seq<Event>, id: nat): Progress {
    if es == [] then Unseen else Follow(TrailOf(es[..|es| - 1], id), es[|es| - 1].body, id)
  }

  function At(s: State, run: nat, id: nat): Progress { TrailOf(s.timeline.Of(run), id) }

  /** The step's record and its progress in the log agree. */
  predicate Fits(t: Progress, step: Step, id: nat, executions: Table<Execution>) {
    if Granted(step) then
      t == Queued(step.command)
      || (t.Begun? && t.command == step.command && t.execution in executions.rows
        && executions.rows[t.execution].data.stepId == id)
    else step.status != Rejected ==> t == if step.blocked then Announced else Classified(step.command)
  }

  ghost predicate StepsFit(s: State) {
    forall id :: id in s.steps.rows ==> Fits(At(s, s.steps.rows[id].run, id), s.steps.rows[id].data, id, s.executions)
  }

  ghost predicate FutureUnseen(s: State) { forall r: nat, id: nat :: id >= s.steps.next ==> At(s, r, id) == Unseen }

  ghost predicate ExecutionsFit(s: State) {
    forall x :: x in s.executions.rows ==>
      At(s, s.executions.rows[x].run, s.executions.rows[x].data.stepId) == Begun(x, s.executions.rows[x].data.command)
  }

  ghost predicate Traced(s: State) { StepsFit(s) && FutureUnseen(s) && ExecutionsFit(s) }

  // ---- reading on --------------------------------------------------------------------------------

  lemma EmitFollow(s: State, run: nat, body: Body, r: nat, id: nat)
    ensures At(Emit(s, run, body), r, id) == if r == run then Follow(At(s, run, id), body, id) else At(s, r, id)
  {
    var es := s.timeline.Of(run);
    assert (es + [Event(s.timeline.next, body)])[..|es|] == es;
  }

  lemma {:induction false} SilentTrail(a: seq<Event>, b: seq<Event>, id: nat)
    requires a <= b && NoneAbout(StepProgress, b, |a|)
    ensures TrailOf(b, id) == TrailOf(a, id)
    decreases |b|
  {
    if |b| > |a| {
      var c := b[..|b| - 1];
      assert NoneAbout(StepProgress, c, |a|) && !About(StepProgress, b[|b| - 1].body);
      SilentTrail(a, c, id);
    } else {
      assert a == b;
    }
  }

  /** Steps keep their command; a step that was not approved may only be rejected. */
  predicate StepKept(a: Step, b: Step) {
    b.command == a.command && b.blocked == a.blocked
      && (b.status == a.status || b.status == Rejected || (Granted(a) && Granted(b)))
  }

  ghost predicate StepsKept(a: Table<Step>, b: Table<Step>) {
    && a.next <= b.next
    && forall id :: id in b.rows ==>
      id in a.rows && b.rows[id].run == a.rows[id].run && StepKept(a.rows[id].data, b.rows[id].data)
  }

  ghost predicate ExecutionsKept(a: Table<Execution>, b: Table<Execution>) {
    && a.rows.Keys == b.rows.Keys
    && forall x :: x in a.rows ==> b.rows[x].run == a.rows[x].run && b.rows[x].data.stepId == a.rows[x].data.stepId
                                   && b.rows[x].data.command == a.rows[x].data.command
  }

  /** What happens off the trail keeps it. */
  lemma SilentTraced(s: State, t: State)
    requires Traced(s) && StepsKept(s.steps, t.steps) && ExecutionsKept(s.executions, t.executions)
    requires Silent(StepProgress, s.timeline, t.timeline)
    ensures Traced(t)
  {
    hide TrailOf, NoneAbout;
    forall r: nat, id: nat ensures At(t, r, id) == At(s, r, id) {
      SilentTrail(s.timeline.Of(r), t.timeline.Of(r), id);
    }
    hide At, Silent;
    forall id | id in t.steps.rows
      ensures Fits(At(t, t.steps.rows[id].run, id), t.steps.rows[id].data, id, t.executions)
    {
      assert Fits(At(s, s.steps.rows[id].run, id), s.steps.rows[id].data, id, s.executions);
    }
  }

  lemma AllKept(steps: Table<Step>, executions: Table<Execution>)
    ensures StepsKept(steps, steps) && ExecutionsKept(executions, executions)
  {
  }

  lemma QuietlyTraced(s: State, t: State)
    requires Traced(s) && Silent(StepProgress, s.timeline, t.timeline)
    requires t.steps == s.steps && t.executions == s.executions
    ensures Traced(t)
  {
    hide *;
    AllKept(s.steps, s.executions);
    SilentTraced(s, t);
  }

  // ---- steps -------------------------------------------------------------------------------------

  lemma AnnounceTrail(s: State, run: nat, step: Step, r: nat, id: nat)
    requires At(s, run, s.steps.next) == Unseen
    ensures At(AnnounceStep(s, run, step), r, id) ==
            if r == run && id == s.steps.next then if step.blocked then Announced else Classified(step.command)
              else At(s, r, id)
  {
    hide TrailOf;
    var i := s.steps.next;
    var s1 := s.(steps := s.steps.Add(run, step));
    var s2 := if step.origin == Manual then Emit(s1, run, ManualStepEntered(i)) else s1;
    EmitFollow(s1, run, ManualStepEntered(i), r, id);
    EmitFollow(s2, run, StepProposed(i, step.phase), r, id);
    EmitFollow(Emit(s2, run, StepProposed(i, step.phase)), run,
      SafetyClassified(i, step.command, !step.blocked, false), r, id);
  }

  lemma AnnounceTraced(s: State, run: nat, step: Step)
    requires Indexed(s) && Traced(s) && (step.status == Proposed || step.status == StepStatus.Blocked)
      && ExecutionSteps(s)
    ensures Traced(AnnounceStep(s, run, step))
  {
    hide Indexed, At, AnnounceStep, Fits;
    var t := AnnounceStep(s, run, step);
    FreshIds(s);
    forall r: nat, id: nat
      ensures At(t, r, id) == if r == run && id == s.steps.next then if step.blocked then Announced
        else Classified(step.command) else At(s, r, id)
    {
      AnnounceTrail(s, run, step, r, id);
    }
    AnnouncedFits(s, run, step, t);
  }

  /** Executions belong to known steps. */
  ghost predicate ExecutionSteps(s: State) {
    forall x :: x in s.executions.rows ==> s.executions.rows[x].data.stepId in s.steps.rows
  }

  lemma AnnouncedFits(s: State, run: nat, step: Step, t: State)
    requires Traced(s) && ExecutionSteps(s) && (step.status == Proposed || step.status == StepStatus.Blocked)
    requires s.steps.next !in s.steps.rows && t.steps == s.steps.Add(run, step) && t.executions == s.executions
    requires forall r: nat, id: nat ::
      At(t, r, id) == if r == run && id == s.steps.next then if step.blocked then Announced
        else Classified(step.command) else At(s, r, id)
    ensures Traced(t)
  {
    hide At;
  }

  lemma CreateStepTraced(p: Policy, s: State, run: nat, origin: Origin, command: string, purpose: string, phase: Phase)
    requires Indexed(s) && Traced(s) && ExecutionSteps(s)
    ensures Traced(CreateStep(p, s, run, origin, command, purpose, phase).state)
  {
    hide Indexed, Traced, AnnounceStep, PlanBackup, Silent, ExecutionSteps;
    var step := NewStep(p, origin, command, purpose, phase);
    if CreateStep(p, s, run, origin, command, purpose, phase).result.Success? {
      var s1 := AnnounceStep(s, run, step);
      AnnounceTraced(s, run, step);
      PlanBackupSilent(StepProgress, p, s1, run, s.runs[run].ticketId, step);
      QuietlyTraced(s1, CreateStep(p, s, run, origin, command, purpose, phase).state);
    }
  }

  lemma ReclassifyTraced(s: State, run: nat, id: nat, edited: Step)
    requires Traced(s) && s.steps.Has(run, id) && ExecutionsOfGranted(s)
    requires s.steps.rows[id].data.status == Proposed && edited.status == Proposed
    ensures Traced(Reclassify(s, run, id, edited))
  {
    hide TrailOf;
    var body := SafetyClassified(id, edited.command, !edited.blocked, true);
    var s1 := s.(steps := s.steps.Put(id, edited));
    var t := Reclassify(s, run, id, edited);
    forall r: nat, i: nat ensures At(t, r, i) == if r == run && i == id then Follow(At(s, run, id), body, id)
      else At(s, r, i) {
      EmitFollow(s1, run, body, r, i);
      if r == run && i != id { assert Follow(At(s, run, i), body, i) == At(s, run, i); }
    }
    assert Fits(At(s, run, id), s.steps.rows[id].data, id, s.executions);
    OneStepTraced(s, t, run, id);
  }

  /** Executions exist only for approved steps, in the step's run. */
  ghost predicate ExecutionsOfGranted(s: State) {
    forall x :: x in s.executions.rows ==>
      s.steps.Has(s.executions.rows[x].run, s.executions.rows[x].data.stepId)
        && Granted(s.steps.rows[s.executions.rows[x].data.stepId].data)
  }

  /** Progress of one step that has not been executed, with everything else as it was. */
  lemma OneStepTraced(s: State, t: State, run: nat, id: nat)
    requires Traced(s) && s.steps.Has(run, id) && ExecutionsOfGranted(s) && t.executions == s.executions
    requires !Granted(s.steps.rows[id].data)
    requires id in t.steps.rows && t.steps == s.steps.Put(id, t.steps.rows[id].data)
    requires forall r: nat, i: nat :: r != run || i != id ==> At(t, r, i) == At(s, r, i)
    requires Fits(At(t, run, id), t.steps.rows[id].data, id, t.executions) && id < s.steps.next
    ensures Traced(t)
  {
    hide At;
  }

  lemma StepFits(s: State, id: nat)
    requires Traced(s) && id in s.steps.rows
    ensures Fits(At(s, s.steps.rows[id].run, id), s.steps.rows[id].data, id, s.executions)
  {
    hide At, Fits;
  }

  /** The two entries of an approval take the step from cleared to queued. */
  lemma GrantTrail(s: State, run: nat, id: nat, body: Body, r: nat, i: nat)
    requires run in s.runs && id in s.steps.rows
    requires body == StepApproved(id, s.steps.rows[id].data.command)
      || body == StepEditedAndApproved(id, s.steps.rows[id].data.command)
    requires At(s, run, id) == Classified(s.steps.rows[id].data.command)
    ensures At(Grant(s, run, id, body), r, i) == if r == run && i == id then Queued(s.steps.rows[id].data.command)
      else At(s, r, i)
  {
    hide TrailOf;
    var step := s.steps.rows[id].data;
    var s1 := s.(steps := s.steps.Put(id, step.(status := Approved, approvedCommand := Some(step.command))));
    var s2 := PutRun(s1, run, s.runs[run].(status := StatusForApproved(step.phase), pending := None));
    EmitFollow(s2, run, body, r, i);
    EmitFollow(Emit(s2, run, body), run, ExecutionRequested(id), r, i);
  }

  lemma GrantTraced(s: State, run: nat, id: nat, body: Body)
    requires Indexed(s) && Traced(s) && run in s.runs && s.steps.Has(run, id) && ExecutionsOfGranted(s)
    requires s.steps.rows[id].data.status == Proposed && !s.steps.rows[id].data.blocked
    requires body == StepApproved(id, s.steps.rows[id].data.command)
      || body == StepEditedAndApproved(id, s.steps.rows[id].data.command)
    ensures Traced(Grant(s, run, id, body))
  {
    hide Indexed, At, StepsFit, FutureUnseen, ExecutionsFit, ExecutionsOfGranted;
    StepFits(s, id);
    OwnersAreKnown(s);
    var t := Grant(s, run, id, body);
    forall r: nat, i: nat ensures At(t, r, i) == if r == run && i == id then Queued(s.steps.rows[id].data.command)
      else At(s, r, i) {
      GrantTrail(s, run, id, body, r, i);
    }
    OneStepTraced(s, t, run, id);
  }

  lemma NoteTraced(s: State, run: nat, gate: Gate)
    requires Indexed(s) && Traced(s) && ExecutionsOfGranted(s) && run in s.runs
      && Silent(StepProgress, s.timeline, Note(s, run, gate).timeline)
    ensures Indexed(Note(s, run, gate)) && Traced(Note(s, run, gate)) && ExecutionsOfGranted(Note(s, run, gate))
  {
    hide Indexed, Traced, Note, Silent, Advances;
    NoteReaches(s, run, gate);
    QuietlyTraced(s, Note(s, run, gate));
  }

  lemma ThroughGatesTraced(p: Policy, s: State, run: nat, id: nat, body: Body)
    requires Indexed(s) && Traced(s) && run in s.runs && s.steps.Has(run, id) && ExecutionsOfGranted(s)
    requires s.steps.rows[id].data.status == Proposed && !s.steps.rows[id].data.blocked
    requires body == StepApproved(id, s.steps.rows[id].data.command)
      || body == StepEditedAndApproved(id, s.steps.rows[id].data.command)
    ensures Traced(ApproveThroughGates(p, s, run, id, body).state)
  {
    hide Indexed, Traced, Note, FixGate, BackupGate, Grant, Silent, ExecutionsOfGranted;
    var step := s.steps.rows[id].data;
    var fix := FixGate(p, s, run, id, step);
    var s1 := Note(s, run, fix);
    GatesSilent(StepProgress, p, s, run, id, step);
    NoteTraced(s, run, fix);
    if fix.error.None? {
      var backup := BackupGate(p, s1, run, id, step);
      GatesSilent(StepProgress, p, s1, run, id, step);
      NoteTraced(s1, run, backup);
      if backup.error.None? { GrantTraced(Note(s1, run, backup), run, id, body); }
    }
  }

  lemma ApproveTraced(p: Policy, s: State, run: nat, id: nat)
    requires Indexed(s) && Traced(s) && ExecutionsOfGranted(s)
    ensures Traced(ApproveStep(p, s, run, id).state)
  {
    hide Indexed, Traced, ApproveThroughGates, ExecutionsOfGranted;
    if run in s.runs && s.steps.Has(run, id) && s.steps.rows[id].data.status == Proposed
      && !s.steps.rows[id].data.blocked {
      ThroughGatesTraced(p, s, run, id, StepApproved(id, s.steps.rows[id].data.command));
    }
  }

  lemma EditTraced(p: Policy, s: State, run: nat, id: nat, command: string, purpose: Option<string>)
    requires Indexed(s) && Traced(s) && ExecutionsOfGranted(s)
    ensures Traced(EditAndApproveStep(p, s, run, id, command, purpose).state)
  {
    hide Indexed, Traced, ApproveThroughGates, ExecutionsOfGranted, Advances, Reclassify;
    if run in s.runs && s.steps.Has(run, id) && s.steps.rows[id].data.status == Proposed {
      var edited := EditedStep(p, s.steps.rows[id].data, command, purpose);
      var s1 := Reclassify(s, run, id, edited);
      ReclassifyTraced(s, run, id, edited);
      ReclassifyReaches(s, run, id, edited);
      ReclassifyFrame(s, run, id, edited);
      if !edited.blocked {
        ThroughGatesTraced(p, s1, run, id, StepEditedAndApproved(id, command));
      }
    }
  }

  lemma ReclassifyFrame(s: State, run: nat, id: nat, edited: Step)
    requires id in s.steps.rows && ExecutionsOfGranted(s) && !Granted(s.steps.rows[id].data)
    ensures var t := Reclassify(s, run, id, edited);
            t.runs == s.runs && t.steps == s.steps.Put(id, edited) && ExecutionsOfGranted(t)
  {
  }

  lemma RejectTraced(s: State, run: nat, id: nat)
    requires Traced(s)
    ensures Traced(RejectStep(s, run, id).state)
  {
    var t := RejectStep(s, run, id).state;
    if t != s {
      var s1 := s.(steps := s.steps.Put(id, s.steps.rows[id].data.(status := Rejected)));
      var s2 := PutRun(s1, run, s.runs[run].(status := IdleStatus(s.runs[run].status), pending := None));
      EmitSilent(StepProgress, s2, run, StepRejected(id));
      RejectKeeps(s.steps, id);
      AllKept(s.steps, s.executions);
      hide Traced, Silent, StepsKept, ExecutionsKept;
      SilentTraced(s, t);
    }
  }

  lemma RejectKeeps(steps: Table<Step>, id: nat)
    requires id in steps.rows && steps.rows[id].data.status == Proposed
    ensures StepsKept(steps, steps.Put(id, steps.rows[id].data.(status := Rejected)))
  {
  }

  // ---- executing ---------------------------------------------------------------------------------

  lemma StartTrail(s: State, run: nat, id: nat, r: nat, i: nat)
    requires StartExecution(s, run, id).result.Success?
      && At(s, run, id) == Queued(s.steps.rows[id].data.approvedCommand.value)
    ensures At(StartExecution(s, run, id).state, r, i) ==
            if r == run && i == id then Begun(s.executions.next, s.steps.rows[id].data.approvedCommand.value)
              else At(s, r, i)
  {
    hide TrailOf;
    var command := s.steps.rows[id].data.approvedCommand.value;
    var x := s.executions.next;
    var execution := Execution(id, command, Running, s.limit, false, false, None, None, "", "");
    var s1 := s.(executions := s.executions.Add(run, execution), storedBytes := s.storedBytes[x := 0]);
    EmitFollow(s1, run, CommandStarted(id, x, command), r, i);
  }

  lemma StartTraced(s: State, run: nat, id: nat)
    requires Indexed(s) && Traced(s)
    requires forall i :: i in s.steps.rows && Granted(s.steps.rows[i].data) ==>
      s.steps.rows[i].data.approvedCommand == Some(s.steps.rows[i].data.command)
    ensures Traced(StartExecution(s, run, id).state)
  {
    hide Indexed;
    var t := StartExecution(s, run, id);
    if t.result.Success? {
      OwnersAreKnown(s);
      FreshIds(s);
      var command := s.steps.rows[id].data.command;
      forall r: nat, i: nat ensures At(t.state, r, i) == if r == run && i == id then Begun(s.executions.next, command)
        else At(s, r, i) {
        StartTrail(s, run, id, r, i);
      }
      StartedTraced(s, t.state, run, id, Execution(id, command, Running, s.limit, false, false, None, None, "", ""));
    }
  }

  lemma StartedTraced(s: State, t: State, run: nat, id: nat, execution: Execution)
    requires Traced(s) && s.steps.Has(run, id) && id < s.steps.next && s.executions.next !in s.executions.rows
    requires Granted(s.steps.rows[id].data) && execution.stepId == id
      && execution.command == s.steps.rows[id].data.command
    requires t.steps == s.steps && t.executions == s.executions.Add(run, execution)
    requires forall x :: x in s.executions.rows ==> s.executions.rows[x].data.stepId != id
    requires forall r: nat, i: nat ::
      At(t, r, i) == if r == run && i == id then Begun(s.executions.next, execution.command) else At(s, r, i)
    ensures Traced(t)
  {
    hide At;
  }

  lemma ReceiveTraced(p: Policy, y: System, run: nat, execution: nat, stream: Stream, content: string)
    requires Traced(y.store)
    ensures Traced(ReceiveOutput(p, y, run, execution, stream, content).store)
  {
    hide AppendChunk, Traced, Silent;
    var clean := p.redact(content);
    var t := AppendChunk(p, y.store, run, execution, stream, clean.0, clean.1).state;
    AppendOutputOnly(p, y.store, run, execution, stream, clean.0, clean.1);
    AppendSilent(StepProgress, p, y.store, run, execution, stream, clean.0, clean.1);
    SilentTraced(y.store, t);
  }

  lemma OutcomeKeeps(s: State, x: nat, exitCode: Option<int>, error: Option<string>, timedOut: bool)
    requires ExecutionsOfGranted(s) && x in s.executions.rows
    ensures var done := WithOutcome(s.executions.rows[x].data, exitCode, error, timedOut);
            done.stepId in s.steps.rows && ExecutionsKept(s.executions, s.executions.Put(x, done))
            && StepsKept(s.steps,
              s.steps.Put(done.stepId, s.steps.rows[done.stepId].data.(status := OutcomeOf(done.status))))
  {
  }

  lemma FinishTraced(p: Policy, s: State, run: nat, id: nat, exitCode: Option<int>, error: Option<string>,
      timedOut: bool)
    requires Traced(s) && ExecutionsOfGranted(s)
    ensures Traced(CompleteExecution(p, s, run, id, exitCode, error, timedOut).state)
  {
    hide Traced, Settle, Silent, StepsKept, ExecutionsKept;
    if run in s.runs && s.executions.Has(run, id) {
      CompleteExecutionSilent(StepProgress, p, s, run, id, exitCode, error, timedOut);
      OutcomeKeeps(s, id, exitCode, error, timedOut);
      AllKept(s.steps, s.executions);
      SilentTraced(s, CompleteExecution(p, s, run, id, exitCode, error, timedOut).state);
    }
  }

  // ---- every action ------------------------------------------------------------------------------

  lemma NewRunTraced(s: State, ticketId: int, snapshot: string)
    requires Indexed(s) && Traced(s)
    ensures Traced(CreateRun(s, ticketId, snapshot).state)
  {
    hide Indexed, Traced, Silent;
    FreshIds(s);
    NewRunSilent(StepProgress, s, ticketId, snapshot);
    SilentTraced(s, CreateRun(s, ticketId, snapshot).state);
  }

  lemma ManualTraced(p: Policy, s: State, run: nat, command: string, purpose: string, phase: Phase)
    requires Indexed(s) && Traced(s) && ExecutionSteps(s)
    ensures Traced(CreateManualStep(p, s, run, command, purpose, phase).state)
  {
    hide Indexed, Traced, CreateStep, Advances, QueueLater, Silent;
    if run in s.runs {
      CancelLater(s.queue, run, Outbox.PlanJob);
      QueueReaches(s, run, Outbox.CancelPending(s.queue, run, Outbox.PlanJob));
    } else {
      NothingToCancel(s, run, Outbox.PlanJob);
    }
    var s1 := s.(queue := Outbox.CancelPending(s.queue, run, Outbox.PlanJob));
    SilentStill(StepProgress, s.timeline);
    QuietlyTraced(s, s1);
    assert ExecutionSteps(s1);
    CreateStepTraced(p, s1, run, Manual, command, purpose, phase);
  }

  lemma RestoreTraced(p: Policy, s: State, run: nat, record: nat, reason: string)
    requires Indexed(s) && Traced(s) && ExecutionSteps(s)
    ensures Traced(ProposeRestore(p, s, run, record, reason).state)
  {
    hide Indexed, Traced, CreateStep, ExecutionSteps, Silent;
    if s.backups.Has(run, record) && s.backups.rows[record].data.restoreCommand.Some? {
      var command := s.backups.rows[record].data.restoreCommand.value;
      var reply := CreateStep(p, s, run, FromBackup, command, reason, Restore);
      CreateStepTraced(p, s, run, FromBackup, command, reason, Restore);
      if reply.result.Success? {
        EmitSilent(StepProgress, reply.state, run, RestoreProposed(record, reply.result.value));
        QuietlyTraced(reply.state, Emit(reply.state, run, RestoreProposed(record, reply.result.value)));
      }
    }
  }

  lemma CallTraced(p: Policy, s: State, call: Call)
    requires Indexed(s) && Vetted(p, s) && Traced(s)
    ensures Traced(Apply(p, s, call))
  {
    hide Indexed, Traced, Silent, CreateRun, ApproveConnection, CreateManualStep, ApproveStep, EditAndApproveStep,
      RejectStep, RetryRun, AbortRun, RecordBackupNotApplicable, ProposeRestore, CreateActivityDraft, SaveActivityDraft,
      QueueSubmission;
    match call
    case NewRun(ticketId, snapshot) => NewRunTraced(s, ticketId, snapshot);
    case EnterStep(run, command, purpose, phase) => ManualTraced(p, s, run, command, purpose, phase);
    case Approve(run, step) => ApproveTraced(p, s, run, step);
    case EditAndApprove(run, step, command, purpose) => EditTraced(p, s, run, step, command, purpose);
    case Reject(run, step) => RejectTraced(s, run, step);
    case ProposeRestoreOf(run, record, reason) => RestoreTraced(p, s, run, record, reason);
    case _ =>
      OtherCallSilent(StepProgress, p, s, call);
      QuietlyTraced(s, Apply(p, s, call));
  }

  lemma ProposeTraced(p: Policy, s: State, run: nat, command: string, purpose: string, phase: Phase)
    requires Indexed(s) && Traced(s) && ExecutionSteps(s)
    ensures Traced(ProposeAgentStep(p, s, run, command, purpose, phase).state)
  {
    hide Indexed, Traced, ExecutionSteps, CreateStep;
    CreateStepTraced(p, s, run, Agent, command, purpose, phase);
  }

  lemma CommandWorkTraced(p: Policy, y: System, a: Action)
    requires Indexed(y.store) && Vetted(p, y.store) && Traced(y.store) && Enabled(y.stage, a)
      && (a.Propose? || a.Start? || a.Receive? || a.Finish?)
    ensures Traced(Work(p, y, a).store)
  {
    hide Indexed, Traced, StartExecution, ProposeAgentStep, ReceiveOutput, CompleteExecution;
    var at := y.stage;
    match a
    case Propose(command, purpose, phase) => ProposeTraced(p, y.store, at.run, command, purpose, phase);
    case Start => StartTraced(y.store, at.run, at.step);
    case Receive(stream, content) => ReceiveTraced(p, y, at.run, at.execution, stream, content);
    case Finish(exitCode, error, timedOut) => FinishTraced(p, y.store, at.run, at.execution, exitCode, error, timedOut);
  }

  lemma WorkTraced(p: Policy, y: System, a: Action)
    requires Indexed(y.store) && Vetted(p, y.store) && Traced(y.store) && Enabled(y.stage, a)
    ensures Traced(Work(p, y, a).store)
  {
    hide Indexed, Vetted, Traced, Silent;
    if a.Propose? || a.Start? || a.Receive? || a.Finish? {
      CommandWorkTraced(p, y, a);
    } else {
      OtherWorkSilent(StepProgress, p, y, a);
      QuietlyTraced(y.store, Work(p, y, a).store);
    }
  }

  lemma NextTraced(p: Policy, y: System, a: Action)
    requires Indexed(y.store) && Vetted(p, y.store) && Traced(y.store)
    ensures Traced(Next(p, y, a).store)
  {
    hide Indexed, Vetted, Traced, Apply, Work, Enabled, Silent;
    match a
    case Api(call) => CallTraced(p, y.store, call);
    case Wait(seconds) => SilentStill(StepProgress, y.store.timeline); QuietlyTraced(y.store, Next(p, y, a).store);
    case _ => if Enabled(y.stage, a) { WorkTraced(p, y, a); }
  }

  lemma {:induction false} AlwaysTraced(p: Policy, limit: nat, clock: int, actions: seq<Action>)
    ensures Traced(After(p, Begin(limit, clock), actions).store)
    decreases |actions|
  {
    if actions != [] {
      hide Indexed, Vetted, Traced, Next;
      AlwaysTraced(p, limit, clock, actions[..|actions| - 1]);
      AlwaysIndexed(p, limit, clock, actions[..|actions| - 1]);
      AlwaysVetted(p, limit, clock, actions[..|actions| - 1]);
      NextTraced(p, After(p, Begin(limit, clock), actions[..|actions| - 1]), actions[|actions| - 1]);
    }
  }

  // ---- what progress means -----------------------------------------------------------------------

  /** The entry that made the last move, and how far the step had come before it. */
  lemma {:induction false} LastMove(es: seq<Event>, id: nat) returns (at: nat)
    requires !TrailOf(es, id).Unseen?
    ensures at < |es| && TrailOf(es[..at + 1], id) == TrailOf(es, id) && TrailOf(es[..at], id) != TrailOf(es, id)
    ensures TrailOf(es, id) == Follow(TrailOf(es[..at], id), es[at].body, id)
    decreases |es|
  {
    var n := |es| - 1;
    if TrailOf(es[..n], id) == TrailOf(es, id) {
      at := LastMove(es[..n], id);
      assert es[..n][..at] == es[..at] && es[..n][..at + 1] == es[..at + 1];
    } else {
      at := n;
      assert es[..n + 1] == es;
    }
  }

  /** A step that has been announced was proposed. */
  lemma {:induction false} ProposedBefore(es: seq<Event>, id: nat) returns (at: nat)
    requires !TrailOf(es, id).Unseen?
    ensures at < |es| && es[at].body.StepProposed? && es[at].body.stepId == id
    decreases |es|
  {
    var n := |es| - 1;
    if TrailOf(es[..n], id).Unseen? {
      at := n;
    } else {
      at := ProposedBefore(es[..n], id);
    }
  }

  predicate ApprovalOf(body: Body, id: nat, command: string) {
    body == StepApproved(id, command) || body == StepEditedAndApproved(id, command)
  }

  /** The entries that lead to a granted step, in the order of the log. */
  lemma GrantChainOf(es: seq<Event>, id: nat, command: string) returns (proposed: nat, cleared: nat, approved: nat,
      requested: nat)
    requires TrailOf(es, id) == Queued(command)
    ensures proposed < cleared < approved < requested < |es|
    ensures es[proposed].body.StepProposed? && es[proposed].body.stepId == id
    ensures exists edited :: es[cleared].body == SafetyClassified(id, command, true, edited)
    ensures ApprovalOf(es[approved].body, id, command)
    ensures es[requested].body == ExecutionRequested(id)
  {
    requested := LastMove(es, id);
    approved := LastMove(es[..requested], id);
    assert es[..requested][..approved] == es[..approved];
    cleared := LastMove(es[..approved], id);
    assert es[..approved][..cleared] == es[..cleared];
    proposed := ProposedBefore(es[..cleared], id);
    hide TrailOf;
    assert es[cleared].body == SafetyClassified(id, command, true, es[cleared].body.edited);
  }

  ghost predicate GrantChain(es: seq<Event>, id: nat, command: string, i: nat, j: nat, k: nat, l: nat) {
    && i < j < k < l < |es|
    && es[i].id < es[j].id < es[k].id < es[l].id
    && es[i].body.StepProposed? && es[i].body.stepId == id
    && (exists edited :: es[j].body == SafetyClassified(id, command, true, edited))
    && ApprovalOf(es[k].body, id, command)
    && es[l].body == ExecutionRequested(id)
  }

  ghost predicate Chain(es: seq<Event>, id: nat, x: nat, command: string, i: nat, j: nat, k: nat, l: nat, m: nat) {
    && GrantChain(es, id, command, i, j, k, l)
    && l < m < |es| && es[l].id < es[m].id
    && es[m].body == CommandStarted(id, x, command)
  }

  lemma TrailChained(es: seq<Event>, next: nat, id: nat, command: string)
    requires Ordered(es, next) && TrailOf(es, id) == Queued(command)
    ensures exists i, j, k, l :: GrantChain(es, id, command, i, j, k, l)
  {
    hide TrailOf, ApprovalOf;
    var i, j, k, l := GrantChainOf(es, id, command);
    assert GrantChain(es, id, command, i, j, k, l);
  }

  /** A trail that ends in a start passed through the request. */
  lemma StartedAfterRequest(es: seq<Event>, id: nat, x: nat, command: string) returns (started: nat)
    requires TrailOf(es, id) == Begun(x, command)
    ensures started < |es| && es[started].body == CommandStarted(id, x, command)
      && TrailOf(es[..started], id) == Queued(command)
  {
    started := LastMove(es, id);
  }

  lemma BegunChained(es: seq<Event>, next: nat, id: nat, x: nat, command: string)
    requires Ordered(es, next) && TrailOf(es, id) == Begun(x, command)
    ensures exists i, j, k, l, m :: Chain(es, id, x, command, i, j, k, l, m)
    ensures exists i, j, k, l :: GrantChain(es, id, command, i, j, k, l)
  {
    hide TrailOf, GrantChain, Chain;
    var m := StartedAfterRequest(es, id, x, command);
    TrailChained(es[..m], next, id, command);
    var i, j, k, l :| GrantChain(es[..m], id, command, i, j, k, l);
    ChainExtends(es, next, m, id, x, command, i, j, k, l);
  }

  lemma ChainExtends(es: seq<Event>, next: nat, m: nat, id: nat, x: nat, command: string, i: nat, j: nat, k: nat,
      l: nat)
    requires Ordered(es, next) && m < |es| && es[m].body == CommandStarted(id, x, command)
    requires GrantChain(es[..m], id, command, i, j, k, l)
    ensures GrantChain(es, id, command, i, j, k, l) && Chain(es, id, x, command, i, j, k, l, m)
  {
    hide ApprovalOf;
  }

  /**
   * In every reachable state, every execution is preceded in its run's log, in increasing id order, by its step's
   * proposal, an allowing classification of exactly the command executed, its approval, the execution request and its
   * start.
   */
  lemma EveryExecutionWasApproved(p: Policy, limit: nat, clock: int, actions: seq<Action>, x: nat)
    requires x in After(p, Begin(limit, clock), actions).store.executions.rows
    ensures var s := After(p, Begin(limit, clock), actions).store;
            var e := s.executions.rows[x];
            exists i, j, k, l, m :: Chain(s.timeline.Of(e.run), e.data.stepId, x, e.data.command, i, j, k, l, m)
  {
    hide *;
    var s := After(p, Begin(limit, clock), actions).store;
    var e := s.executions.rows[x];
    AlwaysTraced(p, limit, clock, actions);
    AlwaysIndexed(p, limit, clock, actions);
    ExecutionChained(s, x);
  }

  lemma ExecutionChained(s: State, x: nat)
    requires Indexed(s) && Traced(s) && x in s.executions.rows
    ensures var e := s.executions.rows[x];
            exists i, j, k, l, m :: Chain(s.timeline.Of(e.run), e.data.stepId, x, e.data.command, i, j, k, l, m)
  {
    hide TrailOf, Chain;
    var e := s.executions.rows[x];
    BegunChained(s.timeline.Of(e.run), s.timeline.next, e.data.stepId, x, e.data.command);
  }

  /**
   * Every granted step, executed or not, was proposed, then cleared for exactly the command it has now, then approved,
   * then queued: no state holds an approved command that its run's log does not show as allowed.
   */
  lemma EveryGrantedStepWasCleared(p: Policy, limit: nat, clock: int, actions: seq<Action>, run: nat, id: nat)
    requires var s := After(p, Begin(limit, clock), actions).store;
             s.steps.Has(run, id) && Granted(s.steps.rows[id].data)
    ensures var s := After(p, Begin(limit, clock), actions).store;
            exists i, j, k, l :: GrantChain(s.timeline.Of(run), id, s.steps.rows[id].data.command, i, j, k, l)
  {
    hide *;
    var s := After(p, Begin(limit, clock), actions).store;
    AlwaysTraced(p, limit, clock, actions);
    AlwaysIndexed(p, limit, clock, actions);
    StepChained(s, run, id);
  }

  lemma StepChained(s: State, run: nat, id: nat)
    requires Indexed(s) && Traced(s) && s.steps.Has(run, id) && Granted(s.steps.rows[id].data)
    ensures exists i, j, k, l :: GrantChain(s.timeline.Of(run), id, s.steps.rows[id].data.command, i, j, k, l)
  {
    hide TrailOf, GrantChain, Chain;
    var command := s.steps.rows[id].data.command;
    var t := At(s, run, id);
    if t == Queued(command) {
      TrailChained(s.timeline.Of(run), s.timeline.next, id, command);
    } else {
      BegunChained(s.timeline.Of(run), s.timeline.next, id, t.execution, command);
    }
  }
}
