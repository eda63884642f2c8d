/** Validation over whole runs of the system: readiness is earned, and a failed suite cannot heal. */
module Validation {
  import opened Wrappers
  import opened Tables
  import opened Model
  import opened Store
  import opened Indexing
  import opened History
  import opened Footprints
  import opened Delivery
  import opened Runs
  import opened Approval
  import opened Ending
  import opened Readiness
  import opened Earning
  import Suite

  // ---- the live execution ------------------------------------------------------------------------

  lemma CallLive(p: Policy, s: State, call: Call)
    ensures Apply(p, s, call).executions.next == s.executions.next
      && Apply(p, s, call).executions.rows == s.executions.rows
    ensures Apply(p, s, call).results.rows == s.results.rows
      && Apply(p, s, call).expectations.rows == s.expectations.rows
  {
    hide CreateStep, ApproveConnection, CreateManualStep, ApproveStep, EditAndApproveStep, RejectStep, RetryRun,
      AbortRun, RecordBackupNotApplicable, ProposeRestore, CreateActivityDraft, SaveActivityDraft, QueueSubmission;
  }

  lemma ReceiveLive(p: Policy, y: System, stream: Stream, content: string)
    requires Live(y) && y.stage.InFlight?
    ensures Live(ReceiveOutput(p, y, y.stage.run, y.stage.execution, stream, content))
    ensures OutputOnly(y.store.executions,
      ReceiveOutput(p, y, y.stage.run, y.stage.execution, stream, content).store.executions)
  {
    hide AppendChunk;
    OutputOnlyStill(y.store.executions);
    AppendOutputOnly(p, y.store, y.stage.run, y.stage.execution, stream, p.redact(content).0, p.redact(content).1);
  }

  lemma OtherStages(p: Policy, y: System, a: Action)
    requires Enabled(y.stage, a) && !a.Start? && !a.Receive?
    ensures var z := Work(p, y, a);
            z.stage.Launched? || z.stage.InFlight? ==>
              y.stage.Launched? && z.store == y.store && z.stage.run == y.stage.run
                && z.stage.execution == y.stage.execution
  {
    hide ClaimEvent, ReadPlannerContext, CheckNotAborted, AppendEvent, CreateActivityDraft, TakeRequest, AskForActivity,
      MarkActivityCreated, MarkCompleted, FailRequest, FailOutbox, CompleteOutbox, ProposeAgentStep, CompleteExecution;
  }

  lemma WorkLive(p: Policy, y: System, a: Action)
    requires Live(y) && Enabled(y.stage, a)
    ensures Live(Work(p, y, a))
  {
    hide Work, Enabled, OutputOnly;
    if a.Start? || a.Receive? { CommandWorkLive(p, y, a); } else { OtherStages(p, y, a); }
  }

  lemma CommandWorkLive(p: Policy, y: System, a: Action)
    requires Live(y) && Enabled(y.stage, a) && (a.Start? || a.Receive?)
    ensures Live(Work(p, y, a))
  {
    hide ReceiveOutput, OutputOnly;
    if a.Start? {
    } else {
      ReceiveLive(p, y, a.stream, a.content);
    }
  }

  lemma NextLive(p: Policy, y: System, a: Action)
    requires Indexed(y.store) && Live(y)
    ensures Live(Next(p, y, a))
  {
    hide Indexed, Apply, Work, Enabled, Move;
    match a
    case Api(call) => CallLive(p, y.store, call); CallMoves(p, y.store, call);
    case _ => if Enabled(y.stage, a) { WorkLive(p, y, a); }
  }

  // ---- every action keeps validation sound -------------------------------------------------------

  lemma LaterPhases(s: State, t: State)
    requires Later(s, t)
    ensures SamePhases(s.steps, t.steps)
  {
    hide ExecutionsLater, ExpectationsLater, Preserved, RunsKept, EventsKept, QueueKept;
    assert Owned(s.steps, t.steps) && StepsLater(s.steps, t.steps);
  }

  lemma MovesNotPromoted(s: State, t: State)
    requires Moves(s.runs, t.runs)
    ensures NotPromoted(s, t)
  {
  }

  lemma SameRows(a: Table<Execution>, b: Table<Execution>)
    requires b.rows == a.rows
    ensures SameOutcomes(a, b)
  {
  }

  lemma CallValidated(p: Policy, s: State, call: Call)
    requires Indexed(s) && Vetted(p, s) && Validated(s)
    ensures Validated(Apply(p, s, call))
  {
    hide *;
    var t := Apply(p, s, call);
    EveryCallStaysInItsRun(p, s, call);
    AdvancesLater(s, t, Scope(s, call));
    LaterPhases(s, t);
    CallMoves(p, s, call);
    MovesNotPromoted(s, t);
    CallLive(p, s, call);
    SameRows(s.executions, t.executions);
    KnownSteps(p, s);
    OwnersAreKnown(s);
    ValidatedStays(s, t);
  }

  lemma StartOutcomes(s: State, run: nat, step: nat)
    requires Indexed(s)
    ensures var t := StartExecution(s, run, step).state;
            SameOutcomes(s.executions, t.executions) && t.results == s.results && t.expectations == s.expectations
  {
    hide Indexed, StartExecution;
    FreshIds(s);
    StartedIs(s, run, step);
  }

  ghost predicate RecordsAlike(s: State, t: State) {
    SameOutcomes(s.executions, t.executions) && t.results == s.results && t.expectations == s.expectations
  }

  lemma StartAlike(p: Policy, y: System, a: Action)
    requires Indexed(y.store) && Enabled(y.stage, a) && a.Start?
    ensures RecordsAlike(y.store, Work(p, y, a).store)
  {
    hide Indexed, StartExecution, SameOutcomes;
    SameRows(y.store.executions, y.store.executions);
    StartOutcomes(y.store, y.stage.run, y.stage.step);
  }

  lemma ReceiveAlike(p: Policy, y: System, a: Action)
    requires Live(y) && Enabled(y.stage, a) && a.Receive?
    ensures RecordsAlike(y.store, Work(p, y, a).store)
  {
    hide ReceiveOutput, Live;
    ReceiveLive(p, y, a.stream, a.content);
  }

  lemma ProposeAlike(p: Policy, y: System, a: Action)
    requires Enabled(y.stage, a) && a.Propose?
    ensures RecordsAlike(y.store, Work(p, y, a).store)
  {
    hide SameOutcomes, ProposeAgentStep;
    SameRows(y.store.executions, y.store.executions);
  }

  lemma WorkOutcomes(p: Policy, y: System, a: Action)
    requires Indexed(y.store) && Live(y) && Enabled(y.stage, a) && !a.Finish?
    ensures RecordsAlike(y.store, Work(p, y, a).store)
  {
    hide Indexed, Live, SameOutcomes;
    if a.Start? { StartAlike(p, y, a); }
    else if a.Receive? { ReceiveAlike(p, y, a); }
    else if a.Propose? { ProposeAlike(p, y, a); }
    else {
      SameRows(y.store.executions, y.store.executions);
    }
  }

  lemma WorkNotPromoted(p: Policy, y: System, a: Action)
    requires Indexed(y.store) && Enabled(y.stage, a) && !a.Finish?
    ensures NotPromoted(y.store, Work(p, y, a).store)
  {
    if a.CompleteSubmission? {
      hide Indexed;
    } else {
      hide Indexed, Work, Enabled, Moves, NotPromoted;
      WorkMoves(p, y, a);
      MovesNotPromoted(y.store, Work(p, y, a).store);
    }
  }

  lemma AlikeMeans(s: State, t: State)
    requires RecordsAlike(s, t)
    ensures SameOutcomes(s.executions, t.executions) && t.results.rows == s.results.rows
      && t.expectations.rows == s.expectations.rows
  {
    hide SameOutcomes;
  }

  lemma WorkValidated(p: Policy, y: System, a: Action)
    requires Indexed(y.store) && Vetted(p, y.store) && Validated(y.store) && Live(y) && Enabled(y.stage, a)
      && !a.Finish?
    ensures Validated(Work(p, y, a).store)
  {
    hide *;
    var s, t := y.store, Work(p, y, a).store;
    WorkForward(p, y, a);
    LaterPhases(s, t);
    WorkNotPromoted(p, y, a);
    WorkOutcomes(p, y, a);
    AlikeMeans(s, t);
    KnownSteps(p, s);
    OwnersAreKnown(s);
    ValidatedStays(s, t);
  }

  lemma FinishWork(p: Policy, y: System, a: Action)
    requires Indexed(y.store) && Vetted(p, y.store) && Validated(y.store) && Live(y) && Attended(y)
      && Enabled(y.stage, a) && a.Finish?
    ensures Validated(Work(p, y, a).store)
  {
    hide Indexed, Vetted, Validated, CompleteExecution;
    FinishValidated(p, y.store, y.stage.run, y.stage.execution, a.exitCode, a.error, a.timedOut);
  }

  lemma NextValidated(p: Policy, y: System, a: Action)
    requires Indexed(y.store) && Vetted(p, y.store) && Validated(y.store) && Live(y) && Attended(y)
    ensures Validated(Next(p, y, a).store)
  {
    hide Indexed, Vetted, Live, Attended, Apply, Work, Enabled;
    match a
    case Api(call) => CallValidated(p, y.store, call);
    case Wait(_) =>
    case _ =>
      if Enabled(y.stage, a) {
        if a.Finish? { FinishWork(p, y, a); } else { WorkValidated(p, y, a); }
      }
  }

  /** Everything the validation argument needs of a state of the system. */
  ghost predicate Healthy(p: Policy, y: System) {
    Indexed(y.store) && Vetted(p, y.store) && Validated(y.store) && Live(y) && Attended(y)
  }

  lemma NextHealthy(p: Policy, y: System, a: Action)
    requires Healthy(p, y)
    ensures Healthy(p, Next(p, y, a))
  {
    hide Indexed, Vetted, Validated, Live, Attended, Next;
    NextIndexed(p, y, a);
    NextVetted(p, y, a);
    NextValidated(p, y, a);
    NextLive(p, y, a);
    NextAttended(p, y, a);
  }

  lemma BeginsHealthy(p: Policy, limit: nat, clock: int)
    ensures Healthy(p, Begin(limit, clock))
  {
    InitialIndexed(limit, clock);
  }

  lemma {:induction false} StaysHealthy(p: Policy, y: System, actions: seq<Action>)
    requires Healthy(p, y)
    ensures Healthy(p, After(p, y, actions))
    decreases |actions|
  {
    if actions != [] {
      hide Healthy, Next;
      StaysHealthy(p, y, actions[..|actions| - 1]);
      NextHealthy(p, After(p, y, actions[..|actions| - 1]), actions[|actions| - 1]);
    }
  }

  lemma AlwaysHealthy(p: Policy, limit: nat, clock: int, actions: seq<Action>)
    ensures Healthy(p, After(p, Begin(limit, clock), actions))
  {
    hide *;
    BeginsHealthy(p, limit, clock);
    StaysHealthy(p, Begin(limit, clock), actions);
  }

  // ---- readiness is earned -----------------------------------------------------------------------

  /** A passed check, with the approved and successful later command that passed it. */
  ghost predicate CheckEarned(s: State, run: nat, e: nat) {
    && s.expectations.Has(run, e)
    && var check := s.expectations.rows[e].data;
       && check.required && check.status == CheckStatus.Passed && check.resultId.Some?
       && s.results.Has(run, check.resultId.value)
       && var result := s.results.rows[check.resultId.value].data;
          && result.passed && result.checkType == check.checkType && result.executionId > check.fixId
          && s.executions.Has(run, result.executionId)
          && var command := s.executions.rows[result.executionId].data;
             && command.status == ExecutionStatus.Completed && command.exitCode == Some(0)
             && s.steps.Has(run, command.stepId)
             && var step := s.steps.rows[command.stepId].data;
                step.phase == Validation && step.status == Executed && step.approvedCommand == Some(command.command)
  }

  lemma PassedCheckEarned(p: Policy, s: State, run: nat, e: nat)
    requires Vetted(p, s) && RecordsSound(s) && s.expectations.Has(run, e)
      && s.expectations.rows[e].data.status == CheckStatus.Passed
    ensures CheckEarned(s, run, e)
  {
    hide OneEach, OneResultEach, OneCommandEach, SuitesOrdered, GatesMet;
    assert ExpectationSound(s.expectations.rows[e], s.executions, s.steps, s.results);
    var v := s.expectations.rows[e].data.resultId.value;
    assert ResultSound(s.results.rows[v], s.executions, s.steps);
    var x := s.results.rows[v].data.executionId;
    assert ExecutionSound(s.executions.rows[x], s.steps);
    assert StepVetted(p, s.steps.rows[s.executions.rows[x].data.stepId], s.backups, s.sources);
  }

  function ResultFor(s: State, e: nat): nat
    requires e in s.expectations.rows && s.expectations.rows[e].data.resultId.Some?
  {
    s.expectations.rows[e].data.resultId.value
  }

  /** Two checks of one suite: different types, different results, different commands. */
  ghost predicate Independent(s: State, d: nat, e: nat) {
    && d in s.expectations.rows && e in s.expectations.rows
    && s.expectations.rows[d].data.resultId.Some? && s.expectations.rows[e].data.resultId.Some?
    && s.expectations.rows[d].data.checkType != s.expectations.rows[e].data.checkType
    && ResultFor(s, d) != ResultFor(s, e)
    && ResultFor(s, d) in s.results.rows && ResultFor(s, e) in s.results.rows
    && s.results.rows[ResultFor(s, d)].data.executionId != s.results.rows[ResultFor(s, e)].data.executionId
  }

  lemma ChecksIndependent(s: State, run: nat, d: nat, e: nat)
    requires RecordsSound(s) && d != e && CheckEarned(s, run, d) && CheckEarned(s, run, e)
    requires s.expectations.rows[d].data.fixId == s.expectations.rows[e].data.fixId
    ensures Independent(s, d, e)
  {
    hide ExpectationsSound, ResultsSound;
    assert SameSuite(s.expectations.rows[d], s.expectations.rows[e]);
    assert SameResult(s.expectations.rows[d].data, s.expectations.rows[e].data) ==> d == e;
  }

  lemma FixIsFixed(p: Policy, s: State, run: nat)
    requires Vetted(p, s)
    ensures forall x :: CompletedFix(s, run, x) ==> Fixed(run, x, s.executions, s.steps)
  {
    hide StepVetted, OneEach;
    forall x | CompletedFix(s, run, x) ensures Fixed(run, x, s.executions, s.steps) {
      assert ExecutionSound(s.executions.rows[x], s.steps);
    }
  }

  /** No fix completed after the one the latest suite is for. */
  ghost predicate NoFixAfterSuite(s: State, run: nat) {
    forall e :: e in LatestSuite(s, run) ==>
      e in s.expectations.rows && forall x: nat :: CompletedFix(s, run, x) ==> x <= s.expectations.rows[e].data.fixId
  }

  /** In a run that is not over, a completed fix has its suite, and the latest suite is of the latest completed fix. */
  lemma SuiteOfTheLatestFix(p: Policy, s: State, run: nat)
    requires run in s.runs && !Over(s.runs[run].status) && s.expectations.Indexed(s.runs.Keys)
    requires Vetted(p, s) && Validated(s)
    ensures HasCompletedFix(s, run) <==> LatestSuite(s, run) != []
    ensures NoFixAfterSuite(s, run)
  {
    hide Table.Indexed, LatestSuite, Vetted, ResultsSound, OneResultEach, OneCommandEach, Earned, Fixed;
    FixIsFixed(p, s, run);
    LatestSuiteIs(s, run);
    forall x | CompletedFix(s, run, x) ensures Demanded(run, x, s.expectations) {
      assert AllDemanded(run, s.executions, s.steps, s.expectations);
    }
    if LatestSuite(s, run) != [] {
      var e := LatestSuite(s, run)[0];
      assert e in LatestSuite(s, run);
      FixOfCheck(s, run, e);
    }
    forall e, x: nat | e in LatestSuite(s, run)
      && CompletedFix(s, run, x) ensures x <= s.expectations.rows[e].data.fixId {
      assert Demanded(run, x, s.expectations);
    }
  }

  lemma FixOfCheck(s: State, run: nat, e: nat)
    requires ExpectationsSound(s.expectations, s.executions, s.steps, s.results) && s.expectations.Has(run, e)
    ensures CompletedFix(s, run, s.expectations.rows[e].data.fixId)
      && s.expectations.rows[e].data.fixId in s.executions.rows
  {
    assert ExpectationSound(s.expectations.rows[e], s.executions, s.steps, s.results);
  }

  lemma SomePassed(s: State, run: nat, v: nat)
    requires s.results.Indexed(s.runs.Keys) && run in s.runs && s.results.Has(run, v) && s.results.rows[v].data.passed
    ensures AnyPassed(s.results.OfRun(run))
  {
    OwnedRecords(s.results, s.runs.Keys, run);
    var ids := s.results.byRun[run];
    assert v in ids;
    var i :| 0 <= i < |ids| && ids[i] == v;
    assert s.results.OfRun(run)[i].passed;
  }

  lemma ReadyWithoutSuite(p: Policy, s: State, run: nat)
    requires Indexed(s) && Vetted(p, s) && Validated(s) && run in s.runs && s.runs[run].status == ReadyForActivity
      && LatestSuite(s, run) == []
    ensures !HasCompletedFix(s, run) && AnyPassed(s.results.OfRun(run)) && LatestExpectations(s, run) == []
  {
    hide Indexed, Table.Indexed, TimelineIndexed, QueueIndexed, Vetted, LatestSuite, AnyPassed, ExpectationsSound,
      ResultsSound, OneResultEach, OneCommandEach, SuitesOrdered, HasCompletedFix, AllDemanded;
    IndexedMeans(s);
    SuiteOfTheLatestFix(p, s, run);
    LatestSuiteIs(s, run);
    assert Earned(run, s.expectations, s.results);
    var v :| s.results.Has(run, v) && s.results.rows[v].data.passed;
    SomePassed(s, run, v);
  }

  lemma ReadyWithSuite(p: Policy, s: State, run: nat)
    requires Indexed(s) && Vetted(p, s) && Validated(s) && run in s.runs && s.runs[run].status == ReadyForActivity
      && LatestSuite(s, run) != []
    ensures Suite.StatusOf(LatestExpectations(s, run)) == Suite.SuiteStatus.Passed
    ensures forall e :: e in LatestSuite(s, run) ==> CheckEarned(s, run, e)
    ensures forall d, e :: d in LatestSuite(s, run) && e in LatestSuite(s, run) && d != e ==> Independent(s, d, e)
  {
    hide Indexed, Vetted, LatestSuite, LatestExpectations, ExpectationsSound, ResultsSound, OneResultEach,
      OneCommandEach, SuitesOrdered, AllDemanded, CheckEarned, Independent, Suite.StatusOf;
    IndexedMeans(s);
    PassedSuite(s, run);
    LatestSuiteIs(s, run);
    assert Earned(run, s.expectations, s.results);
    forall e | e in LatestSuite(s, run) ensures CheckEarned(s, run, e) { PassedCheckEarned(p, s, run, e); }
    forall d, e | d in LatestSuite(s, run) && e in LatestSuite(s, run) && d != e ensures Independent(s, d, e) {
      ChecksIndependent(s, run, d, e);
    }
  }

  lemma ReadyIsReady(p: Policy, s: State, run: nat)
    requires Indexed(s) && Vetted(p, s) && Validated(s) && run in s.runs && s.runs[run].status == ReadyForActivity
    ensures NotReady(s, run).None?
  {
    hide Indexed, Vetted, Validated, LatestSuite, LatestExpectations, AnyPassed, HasCompletedFix, CheckEarned,
      Independent;
    if LatestSuite(s, run) == [] { ReadyWithoutSuite(p, s, run); } else { ReadyWithSuite(p, s, run); }
  }

  /**
   * In every reachable state a run that is ready for its activity has earned it. After a completed fix, every check of
   * the suite of the latest completed fix passed, each by a result of its own from an approved validation command of
   * its own, which ran after the fix, completed and exited with 0. Without a fix there is no suite and some check
   * passed. So the readiness test never refuses a ready run.
   */
  lemma ReadinessIsEarned(p: Policy, limit: nat, clock: int, actions: seq<Action>, run: nat)
    requires var s := After(p, Begin(limit, clock), actions).store;
             run in s.runs && s.runs[run].status == ReadyForActivity
    ensures var s := After(p, Begin(limit, clock), actions).store;
            && NotReady(s, run).None?
            && (if HasCompletedFix(s, run) then
                  && LatestSuite(s, run) != []
                  && (forall e :: e in LatestSuite(s, run) ==> CheckEarned(s, run, e))
                  && (forall d, e :: d in LatestSuite(s, run) && e in LatestSuite(s, run) && d != e ==>
                    Independent(s, d, e))
                  && NoFixAfterSuite(s, run)
                else LatestSuite(s, run) == [] && AnyPassed(s.results.OfRun(run)))
  {
    var s := After(p, Begin(limit, clock), actions).store;
    AlwaysHealthy(p, limit, clock, actions);
    hide After, Indexed, Vetted, Validated, Live, Attended, LatestSuite, AnyPassed, HasCompletedFix, CheckEarned,
      Independent, CompletedFix, NoFixAfterSuite;
    ReadyIsReady(p, s, run);
    IndexedMeans(s);
    SuiteOfTheLatestFix(p, s, run);
    if LatestSuite(s, run) == [] { ReadyWithoutSuite(p, s, run); } else { ReadyWithSuite(p, s, run); }
  }

  /** A completed fix without a suite occurs only in runs that are over. */
  lemma MissingSuiteMeansOver(p: Policy, limit: nat, clock: int, actions: seq<Action>, run: nat)
    requires var s := After(p, Begin(limit, clock), actions).store;
             run in s.runs && HasCompletedFix(s, run) && LatestSuite(s, run) == []
    ensures Over(After(p, Begin(limit, clock), actions).store.runs[run].status)
  {
    var s := After(p, Begin(limit, clock), actions).store;
    AlwaysHealthy(p, limit, clock, actions);
    hide After, Indexed, Vetted, Validated, Live, Attended, LatestSuite, HasCompletedFix, CompletedFix;
    IndexedMeans(s);
    if !Over(s.runs[run].status) { SuiteOfTheLatestFix(p, s, run); }
  }

  // ---- a failed suite cannot heal ----------------------------------------------------------------

  ghost predicate Sane(p: Policy, s: State) { Indexed(s) && Vetted(p, s) && Validated(s) }

  lemma ReadyNeedsNewFix(p: Policy, s: State, t: State, run: nat, e: nat)
    requires run in s.runs && run in t.runs && !Over(s.runs[run].status) && t.runs[run].status == ReadyForActivity
    requires e in LatestSuite(s, run) && e in s.expectations.rows
      && s.expectations.rows[e].data.status == CheckStatus.Failed
    requires Sane(p, s) && Sane(p, t) && Later(s, t)
    ensures exists x: nat ::
      CompletedFix(t, run, x) && !CompletedFix(s, run, x) && x > s.expectations.rows[e].data.fixId
  {
    hide Indexed, Table.Indexed, TimelineIndexed, QueueIndexed, Vetted, LatestSuite, ExpectationsSound, ResultsSound,
      OneResultEach, OneCommandEach, SuitesOrdered, AllDemanded, CompletedFix, HasCompletedFix;
    IndexedMeans(s);
    IndexedMeans(t);
    LatestSuiteIs(s, run);
    LatestSuiteIs(t, run);
    assert Earned(run, t.expectations, t.results);
    assert !LatestOf(run, e, t.expectations);
    assert LatestSuite(t, run) != [];
    var d := LatestSuite(t, run)[0];
    assert d in LatestSuite(t, run);
    FixOfCheck(t, run, d);
    var x := t.expectations.rows[d].data.fixId;
    SuiteOfTheLatestFix(p, s, run);
    assert !CompletedFix(s, run, x);
  }

  lemma ReadyWasNotOver(p: Policy, y: System, actions: seq<Action>, run: nat)
    requires run in y.store.runs && Indexed(y.store) && Attended(y)
    requires run in After(p, y, actions).store.runs && !Over(After(p, y, actions).store.runs[run].status)
    ensures !Over(y.store.runs[run].status)
  {
    hide After, Indexed, Attended, Frozen;
    if Over(y.store.runs[run].status) {
      StoppingIsFinal(p, y, actions, run);
      StillOver(y.store, After(p, y, actions).store, run);
    }
  }

  lemma NoHealing(p: Policy, y: System, actions: seq<Action>, run: nat, e: nat)
    requires run in y.store.runs && e in LatestSuite(y.store, run) && e in y.store.expectations.rows
    requires y.store.expectations.rows[e].data.status == CheckStatus.Failed
    requires run in After(p, y, actions).store.runs && After(p, y, actions).store.runs[run].status == ReadyForActivity
    requires Healthy(p, y)
    ensures exists x: nat :: CompletedFix(After(p, y, actions).store, run, x) && !CompletedFix(y.store, run, x)
                             && x > y.store.expectations.rows[e].data.fixId
  {
    hide After, Indexed, Vetted, Validated, Live, Attended, Later, LatestSuite, CompletedFix;
    StaysHealthy(p, y, actions);
    HistoryIsKept(p, y, actions);
    ReadyWasNotOver(p, y, actions, run);
    ReadyNeedsNewFix(p, y.store, After(p, y, actions).store, run, e);
  }

  /**
   * Once a check of a run's latest suite has failed, no sequence of calls, worker steps and crashes makes the run
   * ready unless another, later fix has completed in between.
   */
  lemma FailedSuiteCannotHeal(p: Policy, limit: nat, clock: int, before: seq<Action>, after: seq<Action>, run: nat,
      e: nat)
    requires var s := After(p, Begin(limit, clock), before).store;
             run in s.runs && e in LatestSuite(s, run) && e in s.expectations.rows
               && s.expectations.rows[e].data.status == CheckStatus.Failed
    requires var t := After(p, After(p, Begin(limit, clock), before), after).store;
             run in t.runs && t.runs[run].status == ReadyForActivity
    ensures var s := After(p, Begin(limit, clock), before).store;
            var t := After(p, After(p, Begin(limit, clock), before), after).store;
            exists x: nat :: CompletedFix(t, run, x) && !CompletedFix(s, run,
              x) && x > s.expectations.rows[e].data.fixId
  {
    hide *;
    AlwaysHealthy(p, limit, clock, before);
    NoHealing(p, After(p, Begin(limit, clock), before), after, run, e);
  }

  /** In every reachable state, decided checks map one-to-one to results of their type and outcome. */
  lemma DecidedByItsOwnResult(p: Policy, limit: nat, clock: int, actions: seq<Action>)
    ensures var s := After(p, Begin(limit, clock), actions).store;
            && (forall e :: e in s.expectations.rows && s.expectations.rows[e].data.status != CheckStatus.Pending ==>
                  var check := s.expectations.rows[e].data;
                  check.resultId.Some? && s.results.Has(s.expectations.rows[e].run, check.resultId.value)
                  && s.results.rows[check.resultId.value].data.checkType == check.checkType
                  && s.results.rows[check.resultId.value].data.passed == (check.status == CheckStatus.Passed))
            && (forall d, e ::
                  d in s.expectations.rows && e in s.expectations.rows && d != e
                  && s.expectations.rows[d].data.resultId.Some?
                  ==> s.expectations.rows[d].data.resultId != s.expectations.rows[e].data.resultId)
  {
    var s := After(p, Begin(limit, clock), actions).store;
    AlwaysHealthy(p, limit, clock, actions);
    hide After, Indexed, Vetted, RunsEarned, Live, Attended;
  }
}
