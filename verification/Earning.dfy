/** Completing a command keeps validation sound, and makes a run ready only when its latest suite has passed. */
module Earning {
  import opened Wrappers
  import opened Tables
  import opened Model
  import opened Store
  import opened Indexing
  import opened History
  import opened Footprints
  import opened Replay
  import opened Delivery
  import opened Approval
  import opened Ending
  import opened Readiness
  import Suite

  /** The command has ended and nothing has been recorded about it yet. */
  ghost predicate Concluding(s: State, run: nat, x: nat) {
    && Indexed(s) && run in s.runs && RecordsSound(s)
    && s.executions.Has(run, x) && s.executions.rows[x].data.finished
      && s.executions.rows[x].data.stepId in s.steps.rows
    && (forall v :: v in s.results.rows ==> s.results.rows[v].data.executionId != x)
    && (forall e :: e in s.expectations.rows ==> s.expectations.rows[e].data.fixId < x)
  }

  /** Afterwards the records are sound, and every fix that had its suite still has it. */
  ghost predicate Kept(s: State, t: State) {
    && RecordsSound(t) && t.executions == s.executions && t.steps == s.steps
    && forall r, y :: Demanded(r, y, s.expectations) ==> Demanded(r, y, t.expectations)
  }

  // ---- a validation command ----------------------------------------------------------------------

  ghost predicate Recorded(s: State, t: State, run: nat, result: ValidationResult) {
    && Indexed(t) && RecordsSound(t)
    && t == s.(timeline := t.timeline, results := s.results.Add(run, result))
    && t.results.Has(run, s.results.next) && t.results.rows[s.results.next].data == result
    && (forall e :: e in t.expectations.rows ==> t.expectations.rows[e].data.resultId != Some(s.results.next))
  }

  lemma ResultRecorded(p: Policy, s: State, run: nat, x: nat)
    requires Concluding(s, run, x) && s.steps.rows[s.executions.rows[x].data.stepId].data.phase == Validation
    ensures Recorded(s, RecordResult(s, run, ResultOf(p, x, s.executions.rows[x].data)), run,
      ResultOf(p, x, s.executions.rows[x].data))
  {
    hide Indexed, RecordsSound, Advances;
    var result := ResultOf(p, x, s.executions.rows[x].data);
    FreshIds(s);
    RecordResultReaches(s, run, result);
    NewResultSound(s, RecordResult(s, run, result), run, result);
  }

  lemma DemandsStay(a: Table<Expectation>, e: nat, v: nat, passed: bool)
    requires e in a.rows
    ensures forall r, y :: Demanded(r, y, a) ==> Demanded(r, y, a.Put(e, Decided(a.rows[e].data, v, passed)))
  {
    forall r, y | Demanded(r, y, a) ensures Demanded(r, y, a.Put(e, Decided(a.rows[e].data, v, passed))) {
      var d :| d in a.rows && a.rows[d].run == r && a.rows[d].data.fixId == y;
      assert d in a.Put(e, Decided(a.rows[e].data, v, passed)).rows;
    }
  }

  lemma ResultApplied(p: Policy, s: State, run: nat, v: nat, result: ValidationResult)
    requires Indexed(s) && run in s.runs && RecordsSound(s) && s.results.Has(run, v) && s.results.rows[v].data == result
    requires forall e :: e in s.expectations.rows ==>
      s.expectations.rows[e].data.resultId != Some(v) && s.expectations.rows[e].data.fixId < result.executionId
    ensures Indexed(ApplyResult(p, s, run, v, result)) && Kept(s, ApplyResult(p, s, run, v, result))
  {
    hide Indexed, LatestSuite, LatestExpectations, Demanded, Advances, Suite.Matching;
    ApplyResultReaches(p, s, run, v, result);
    var t := ApplyResult(p, s, run, v, result);
    var e := Chosen(p, s, run, result);
    if e.Some? {
      IndexedMeans(s);
      ChosenIsPending(p, s, run, result);
      DecidedSound(s, t, run, e.value, v);
      DemandsStay(s.expectations, e.value, v, result.passed);
    } else {
      assert t == s.(timeline := t.timeline);
    }
  }

  lemma VerdictEarned(s: State, run: nat, v: nat, result: ValidationResult)
    requires Indexed(s) && run in s.runs && RecordsSound(s) && s.results.Has(run, v) && s.results.rows[v].data == result
    requires SuiteVerdict(s, run, result) == Suite.SuiteStatus.Passed
    ensures Earned(run, s.expectations, s.results)
  {
    hide Indexed, ExpectationsSound, ResultsSound, OneResultEach, OneCommandEach, SuitesOrdered, LatestSuite,
      LatestExpectations, HasCompletedFix;
    IndexedMeans(s);
    PassedSuite(s, run);
    LatestSuiteIs(s, run);
    if LatestSuite(s, run) == [] {
      assert s.results.Has(run, v) && s.results.rows[v].data.passed;
    }
  }

  lemma ValidationConcluded(p: Policy, s: State, run: nat, x: nat)
    requires Concluding(s, run, x) && s.steps.rows[s.executions.rows[x].data.stepId].data.phase == Validation
    ensures var t := ConcludeValidation(p, s, run, x, s.executions.rows[x].data);
            && Kept(s, t) && run in t.runs
              && (t.runs[run].status == ReadyForActivity ==> Earned(run, t.expectations, t.results))
  {
    hide Indexed, RecordResult, ApplyResult, SuiteVerdict, Earned, Demanded;
    var done := s.executions.rows[x].data;
    var result := ResultOf(p, x, done);
    var v := s.results.next;
    var s1 := RecordResult(s, run, result);
    ResultRecorded(p, s, run, x);
    ResultApplied(p, s1, run, v, result);
    var s2 := ApplyResult(p, s1, run, v, result);
    var verdict := SuiteVerdict(s2, run, result);
    if verdict == Suite.SuiteStatus.Passed { VerdictEarned(s2, run, v, result); }
  }

  // ---- a completed fix ---------------------------------------------------------------------------

  /** What adding a suite does to the table, by id. */
  ghost predicate Extended(a: Table<Expectation>, b: Table<Expectation>, run: nat, x: nat,
      specs: seq<Suite.CheckSpec>) {
    && (forall e :: e in a.rows ==> e < a.next && e in b.rows && b.rows[e] == a.rows[e])
    && (forall e :: e in b.rows && e !in a.rows ==>
      a.next <= e < a.next + |specs| && b.rows[e] == Row(run, PendingFor(x, specs[e - a.next])))
    && (specs != [] ==> a.next in b.rows && a.next !in a.rows)
  }

  lemma AddedExtends(a: Table<Expectation>, runs: set<nat>, run: nat, x: nat, specs: seq<Suite.CheckSpec>)
    requires a.Indexed(runs)
    ensures Extended(a, AddExpectations(a, run, x, specs), run, x, specs)
  {
    assert forall e :: e in a.rows ==> e < a.next;
    AddedExpectations(a, run, x, specs);
    hide Table.Indexed, AddExpectations;
    var b := AddExpectations(a, run, x, specs);
    forall e | e in b.rows && e !in a.rows ensures a.next <= e < a.next + |specs| { }
    if specs != [] { assert a.next <= a.next < a.next + |specs|; }
  }

  lemma SuiteOrdered(a: Table<Expectation>, b: Table<Expectation>, run: nat, x: nat, specs: seq<Suite.CheckSpec>)
    requires SuitesOrdered(a) && Extended(a, b, run, x, specs) && Suite.DistinctTypes(specs)
    requires forall e :: e in a.rows ==> a.rows[e].data.fixId < x
    ensures SuitesOrdered(b)
  {
    forall c, d | c in b.rows && d in b.rows && c != d
      && SameSuite(b.rows[c], b.rows[d]) ensures b.rows[c].data.checkType != b.rows[d].data.checkType {
      if c !in a.rows && d !in a.rows {
        assert specs[c - a.next].checkType != specs[d - a.next].checkType;
      }
    }
  }

  lemma SuiteSound(s: State, t: State, run: nat, x: nat, specs: seq<Suite.CheckSpec>)
    requires ExpectationsSound(s.expectations, s.executions, s.steps, s.results) && Fixed(run, x, s.executions, s.steps)
    requires Extended(s.expectations, t.expectations, run, x, specs)
    requires t.results == s.results && t.executions == s.executions && t.steps == s.steps
    ensures ExpectationsSound(t.expectations, t.executions, t.steps, t.results)
  {
    forall e | e in t.expectations.rows ensures ExpectationSound(t.expectations.rows[e], t.executions, t.steps,
      t.results) {
      if e in s.expectations.rows { assert ExpectationSound(s.expectations.rows[e], s.executions, s.steps, s.results); }
    }
  }

  lemma SuiteDemanded(a: Table<Expectation>, b: Table<Expectation>, run: nat, x: nat, specs: seq<Suite.CheckSpec>)
    requires Extended(a, b, run, x, specs) && OneResultEach(a)
    ensures OneResultEach(b)
    ensures forall r, y :: Demanded(r, y, a) ==> Demanded(r, y, b)
    ensures specs != [] ==> Demanded(run, x, b)
  {
    forall r, y | Demanded(r, y, a) ensures Demanded(r, y, b) {
      var e :| e in a.rows && a.rows[e].run == r && a.rows[e].data.fixId == y;
      assert e in b.rows;
    }
  }

  lemma FixConcluded(p: Policy, s: State, run: nat, x: nat, step: Step)
    requires Concluding(s, run, x) && Fixed(run, x, s.executions, s.steps)
    ensures var t := ConcludeFix(p, s, run, x, step, s.executions.rows[x].data);
            Kept(s, t) && Demanded(run, x, t.expectations) && run in t.runs && t.runs[run].status == Validating
  {
    hide Indexed, AddExpectations, Suite.Specs, NewIds, Demanded, Extended, ExpectationsSound, ResultsSound,
      OneResultEach, OneCommandEach, SuitesOrdered, Fixed;
    var done := s.executions.rows[x].data;
    var t := ConcludeFix(p, s, run, x, step, done);
    var facts := p.suiteFacts(s.runs[run].snapshot, done.command, step.purpose);
    var specs := Suite.Specs(facts);
    Suite.SuiteKeyedByType(facts);
    FixMoves(p, s, run, x, step, done);
    IndexedMeans(s);
    AddedExtends(s.expectations, s.runs.Keys, run, x, specs);
    SuiteOrdered(s.expectations, t.expectations, run, x, specs);
    SuiteSound(s, t, run, x, specs);
    SuiteDemanded(s.expectations, t.expectations, run, x, specs);
  }

  // ---- any command -------------------------------------------------------------------------------

  /** What the conclusion of the command x leaves of its run. */
  lemma Concluded(p: Policy, s: State, run: nat, x: nat, step: Step)
    requires Concluding(s, run, x) && step.phase == s.steps.rows[s.executions.rows[x].data.stepId].data.phase
    ensures var t := Conclude(p, s, run, x, step, s.executions.rows[x].data);
            && Kept(s, t) && run in t.runs
            && (t.runs[run].status == ReadyForActivity ==> Earned(run, t.expectations, t.results))
            && (Fixed(run, x, s.executions, s.steps) ==> Demanded(run, x, t.expectations))
  {
    hide Indexed, ConcludeValidation, ConcludeFix, Replan, Earned, Demanded, FailedUnseen;
    var done := s.executions.rows[x].data;
    if step.phase == Validation {
      ValidationConcluded(p, s, run, x);
    } else if done.status == ExecutionStatus.Completed && step.phase == Fix {
      FixConcluded(p, s, run, x, step);
    } else {
      ReplanMoves(s, run, Investigating, ObservationRecorded);
      ReplanMoves(s, run, Investigating, CommandFailure);
    }
  }

  // ---- the whole completion ----------------------------------------------------------------------

  /** The worker's current execution: the newest one, still unfinished. */
  ghost predicate Live(y: System) {
    y.stage.Launched? || y.stage.InFlight? ==>
      && y.stage.run in y.store.runs
      && y.store.executions.Has(y.stage.run, y.stage.execution)
      && !y.store.executions.rows[y.stage.execution].data.finished
      && y.stage.execution + 1 == y.store.executions.next
  }

  /** The state in which the command and its step have their outcome. */
  function EndedState(s: State, x: nat, done: Execution): State
    requires x in s.executions.rows && done.stepId in s.steps.rows
  {
    s.(executions := s.executions.Put(x, done),
       steps := s.steps.Put(done.stepId, s.steps.rows[done.stepId].data.(status := OutcomeOf(done.status))))
  }

  lemma EndedReaches(s: State, run: nat, x: nat, exitCode: Option<int>, error: Option<string>, timedOut: bool)
    requires Indexed(s) && run in s.runs && s.executions.Has(run, x)
      && s.steps.Has(run, s.executions.rows[x].data.stepId)
    ensures var done := WithOutcome(s.executions.rows[x].data, exitCode, error, timedOut);
            done.stepId == s.executions.rows[x].data.stepId && Reaches(s, EndedState(s, x, done), run)
  {
    hide Indexed, Advances, FinalStatus;
    var done := WithOutcome(s.executions.rows[x].data, exitCode, error, timedOut);
    var s1 := s.(executions := s.executions.Put(x, done));
    PutExecutionReaches(s, run, x, done);
    var outcome := s.steps.rows[done.stepId].data.(status := OutcomeOf(done.status));
    PutStepReaches(s1, run, done.stepId, outcome);
    ReachesThen(s, s1, s1.(steps := s1.steps.Put(done.stepId, outcome)), run);
  }

  lemma EndedIs(s: State, x: nat, exitCode: Option<int>, error: Option<string>, timedOut: bool)
    requires x in s.executions.rows && s.executions.rows[x].data.stepId in s.steps.rows
      && !s.executions.rows[x].data.finished
    ensures var done := WithOutcome(s.executions.rows[x].data, exitCode, error, timedOut);
            && done.stepId in s.steps.rows && done.finished
            && JustEnded(s.executions, EndedState(s, x, done).executions, x)
            && SamePhases(s.steps, EndedState(s, x, done).steps)
            && EndedState(s, x, done).executions.rows[x].data == done
  {
    hide FinalStatus;
  }

  lemma NewestIsLast(s: State, x: nat)
    requires Indexed(s) && x + 1 == s.executions.next
    ensures forall y :: y in s.executions.rows ==> y <= x
  {
    hide TimelineIndexed, QueueIndexed;
  }

  lemma EndedConcluding(s: State, run: nat, x: nat, exitCode: Option<int>, error: Option<string>, timedOut: bool)
    requires Indexed(s) && RecordsSound(s) && run in s.runs && s.executions.Has(run, x)
      && !s.executions.rows[x].data.finished
    requires x + 1 == s.executions.next && s.steps.Has(run, s.executions.rows[x].data.stepId)
    ensures var done := WithOutcome(s.executions.rows[x].data, exitCode, error, timedOut);
            done.stepId in s.steps.rows && Concluding(EndedState(s, x, done), run, x)
  {
    hide Indexed, JustEnded, SamePhases, WithOutcome, Advances;
    var done := WithOutcome(s.executions.rows[x].data, exitCode, error, timedOut);
    EndedIs(s, x, exitCode, error, timedOut);
    EndedReaches(s, run, x, exitCode, error, timedOut);
    var t := EndedState(s, x, done);
    RecordsOutlive(s, t, x);
    NewestIsLast(t, x);
  }

  /** What completing a live command leaves of the records and of its run. */
  ghost predicate WellFinished(s: State, t: State, run: nat, x: nat) {
    && RecordsSound(t) && run in t.runs
    && JustEnded(s.executions, t.executions, x) && SamePhases(s.steps, t.steps)
    && (forall r, y :: Demanded(r, y, s.expectations) ==> Demanded(r, y, t.expectations))
    && (!Over(t.runs[run].status) ==>
          (t.runs[run].status == ReadyForActivity ==> Earned(run, t.expectations, t.results))
          && (Fixed(run, x, t.executions, t.steps) ==> Demanded(run, x, t.expectations)))
  }

  lemma SettledWell(p: Policy, s: State, run: nat, x: nat, step: Step)
    requires Concluding(s, run, x) && step.phase == s.steps.rows[s.executions.rows[x].data.stepId].data.phase
    requires s.runs[run].status != Submitted
    ensures var t := Settle(p, s, run, x, step, s.executions.rows[x].data);
            && Kept(s, t) && run in t.runs
            && (!Over(t.runs[run].status) ==>
                  (t.runs[run].status == ReadyForActivity ==> Earned(run, t.expectations, t.results))
                  && (Fixed(run, x, t.executions, t.steps) ==> Demanded(run, x, t.expectations)))
  {
    hide Indexed, Conclude, RecordObservations, Earned, Demanded, FinishedBody;
    var done := s.executions.rows[x].data;
    var t := Settle(p, s, run, x, step, done);
    if s.runs[run].status != Aborted {
      Concluded(p, s, run, x, step);
    }
  }

  lemma FinishedWell(p: Policy, s: State, run: nat, x: nat, exitCode: Option<int>, error: Option<string>,
      timedOut: bool)
    requires Indexed(s) && RecordsSound(s) && run in s.runs && s.executions.Has(run, x)
      && !s.executions.rows[x].data.finished
    requires x + 1 == s.executions.next && s.steps.Has(run, s.executions.rows[x].data.stepId)
      && s.runs[run].status != Submitted
    ensures WellFinished(s, CompleteExecution(p, s, run, x, exitCode, error, timedOut).state, run, x)
  {
    hide Indexed, RecordsSound, JustEnded, SamePhases, Earned, Demanded, Concluding, Fixed;
    var done := WithOutcome(s.executions.rows[x].data, exitCode, error, timedOut);
    EndedConcluding(s, run, x, exitCode, error, timedOut);
    EndedIs(s, x, exitCode, error, timedOut);
    var t := EndedState(s, x, done);
    SettledWell(p, t, run, x, s.steps.rows[done.stepId].data);
  }

  // ---- the other runs ----------------------------------------------------------------------------

  lemma EarnedElsewhere(r: nat, run: nat, a: Table<Expectation>, b: Table<Expectation>, c: Table<ValidationResult>,
      d: Table<ValidationResult>)
    requires Earned(r, a, c) && r != run && Owned(a, b) && Owned(c, d) && Elsewhere(a, b, run) && Elsewhere(c, d, run)
    ensures Earned(r, b, d)
  {
    forall e | LatestOf(r, e, b) ensures b.rows[e].data.status == CheckStatus.Passed {
      assert a.rows[e] == b.rows[e];
      forall f | f in a.rows && a.rows[f].run == r ensures a.rows[f].data.fixId <= a.rows[e].data.fixId {
        assert b.rows[f] == a.rows[f];
      }
      assert LatestOf(r, e, a);
    }
    if forall e :: e in b.rows ==> b.rows[e].run != r {
      assert forall e :: e in a.rows ==> a.rows[e].run != r;
      var v :| c.Has(r, v) && c.rows[v].data.passed;
      assert d.Has(r, v);
    }
  }

  lemma DemandsOutlive(s: State, t: State, run: nat, x: nat, r: nat)
    requires WellFinished(s, t, run, x) && s.executions.Has(run, x) && StepsKnown(s.executions, s.steps)
    requires AllDemanded(r, s.executions, s.steps, s.expectations)
    requires r != run || (Fixed(run, x, t.executions, t.steps) ==> Demanded(run, x, t.expectations))
    ensures AllDemanded(r, t.executions, t.steps, t.expectations)
  {
    hide RecordsSound, Earned, Demanded;
  }

  ghost predicate RunEarned(s: State, r: nat)
    requires r in s.runs
  {
    && (!Over(s.runs[r].status) ==> AllDemanded(r, s.executions, s.steps, s.expectations))
    && (s.runs[r].status == ReadyForActivity ==> Earned(r, s.expectations, s.results))
  }

  lemma EachRunEarned(s: State)
    ensures RunsEarned(s) <==> forall r :: r in s.runs ==> RunEarned(s, r)
  {
    hide AllDemanded, Earned;
  }

  lemma OwnRunEarned(s: State, t: State, run: nat, x: nat)
    requires WellFinished(s, t, run, x) && run in s.runs && RunEarned(s, run) && s.executions.Has(run, x)
    requires StepsKnown(s.executions, s.steps) && (Over(s.runs[run].status) ==> Over(t.runs[run].status))
    ensures run in t.runs && RunEarned(t, run)
  {
    hide RecordsSound, JustEnded, SamePhases, StepsKnown, AllDemanded, Earned, Demanded, Fixed;
    if !Over(t.runs[run].status) { DemandsOutlive(s, t, run, x, run); }
  }

  lemma OtherRunEarned(s: State, t: State, run: nat, x: nat, r: nat)
    requires WellFinished(s, t, run, x) && Advances(s, t, run) && r in s.runs && r != run && RunEarned(s, r)
      && s.executions.Has(run, x) && run in s.runs
    requires StepsKnown(s.executions, s.steps)
    ensures r in t.runs && RunEarned(t, r)
  {
    hide WellFinished, StepsKnown, AllDemanded, Earned;
    RunsElse(s, t, run);
    if !Over(t.runs[r].status) { DemandsOutlive(s, t, run, x, r); }
    if t.runs[r].status == ReadyForActivity {
      EarnedElsewhere(r, run, s.expectations, t.expectations, s.results, t.results);
    }
  }

  lemma FinishKeepsRuns(s: State, t: State, run: nat, x: nat)
    requires RunsEarned(s) && WellFinished(s, t, run, x) && Advances(s, t, run) && run in s.runs
      && s.executions.Has(run, x)
    requires StepsKnown(s.executions, s.steps) && (Over(s.runs[run].status) ==> Over(t.runs[run].status))
    ensures RunsEarned(t)
  {
    hide *;
    EachRunEarned(s);
    EachRunEarned(t);
    RunsElse(s, t, run);
    forall r | r in t.runs ensures RunEarned(t, r) {
      if r == run { OwnRunEarned(s, t, run, x); } else { OtherRunEarned(s, t, run, x, r); }
    }
  }

  lemma FinishValidated(p: Policy, s: State, run: nat, x: nat, exitCode: Option<int>, error: Option<string>,
      timedOut: bool)
    requires Indexed(s) && Vetted(p, s) && Validated(s) && run in s.runs && s.executions.Has(run, x)
      && !s.executions.rows[x].data.finished
    requires x + 1 == s.executions.next && s.runs[run].status != Submitted
    ensures Validated(CompleteExecution(p, s, run, x, exitCode, error, timedOut).state)
  {
    hide Indexed, RecordsSound, RunsEarned, CompleteExecution, Advances, JustEnded, SamePhases, Earned, Demanded, Fixed,
      StepsKnown;
    var t := CompleteExecution(p, s, run, x, exitCode, error, timedOut).state;
    KnownSteps(p, s);
    FinishedWell(p, s, run, x, exitCode, error, timedOut);
    CompleteExecutionReaches(p, s, run, x, exitCode, error, timedOut);
    FinishMoves(p, s, run, x, exitCode, error, timedOut);
    FinishKeepsRuns(s, t, run, x);
  }

  lemma KnownSteps(p: Policy, s: State)
    requires Vetted(p, s)
    ensures StepsKnown(s.executions, s.steps)
  {
    hide StepVetted, OneEach;
    forall x | x in s.executions.rows ensures s.executions.rows[x].data.stepId in s.steps.rows {
      assert ExecutionSound(s.executions.rows[x], s.steps);
    }
  }
}
