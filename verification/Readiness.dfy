/** A run becomes ready for its activity only by passing the suite of its latest fix. */
module Readiness {
  import opened Wrappers
  import opened Tables
  import opened Model
  import opened Store
  import opened Indexing
  import opened Footprints
  import opened Delivery
  import opened Ending
  import Suite

  // ---- the invariant -----------------------------------------------------------------------------

  /** A completed fix, on record as finished. */
  predicate Fixed(run: nat, x: nat, executions: Table<Execution>, steps: Table<Step>) {
    FixCompletedBy(executions, steps, run, x) && executions.rows[x].data.finished
  }

  predicate Verdict(status: CheckStatus, passed: bool) {
    status == if passed then CheckStatus.Passed else CheckStatus.Failed
  }

  /** A required check of a completed fix; once decided, by a result of its type and outcome from a later command. */
  predicate ExpectationSound(row: Row<Expectation>, executions: Table<Execution>, steps: Table<Step>,
      results: Table<ValidationResult>) {
    && row.data.required
    && Fixed(row.run, row.data.fixId, executions, steps)
    && (row.data.status == CheckStatus.Pending <==> row.data.resultId.None?)
    && (row.data.resultId.Some? ==>
          results.Has(row.run, row.data.resultId.value)
          && var result := results.rows[row.data.resultId.value].data;
             result.checkType == row.data.checkType && Verdict(row.data.status, result.passed)
               && result.executionId > row.data.fixId)
  }

  /** The result of a finished validation command, which exited with 0 if the result says so. */
  predicate ResultSound(row: Row<ValidationResult>, executions: Table<Execution>, steps: Table<Step>) {
    && executions.Has(row.run, row.data.executionId)
    && var e := executions.rows[row.data.executionId].data;
       && e.finished && e.stepId in steps.rows && steps.rows[e.stepId].data.phase == Validation
       && (row.data.passed ==> e.status == ExecutionStatus.Completed && e.exitCode == Some(0))
  }

  ghost predicate ExpectationsSound(expectations: Table<Expectation>, executions: Table<Execution>, steps: Table<Step>,
      results: Table<ValidationResult>) {
    forall e :: e in expectations.rows ==> ExpectationSound(expectations.rows[e], executions, steps, results)
  }

  ghost predicate ResultsSound(results: Table<ValidationResult>, executions: Table<Execution>, steps: Table<Step>) {
    forall v :: v in results.rows ==> ResultSound(results.rows[v], executions, steps)
  }

  predicate SameResult(a: Expectation, b: Expectation) { a.resultId.Some? && a.resultId == b.resultId }

  /** No two checks were decided by one result. */
  ghost predicate OneResultEach(expectations: Table<Expectation>) {
    forall a, b ::
      a in expectations.rows && b in expectations.rows
      && SameResult(expectations.rows[a].data, expectations.rows[b].data)
      ==> a == b
  }

  ghost predicate OneCommandEach(results: Table<ValidationResult>) {
    forall a, b ::
      a in results.rows && b in results.rows
      && results.rows[a].data.executionId == results.rows[b].data.executionId
      ==> a == b
  }

  predicate SameSuite(a: Row<Expectation>, b: Row<Expectation>) { a.run == b.run && a.data.fixId == b.data.fixId }

  /** Suites follow one another in the order of their fixes, and each is keyed by check type. */
  ghost predicate SuitesOrdered(expectations: Table<Expectation>) {
    && (forall a, b ::
          a in expectations.rows && b in expectations.rows && a < b
          && expectations.rows[a].run == expectations.rows[b].run
          ==> expectations.rows[a].data.fixId <= expectations.rows[b].data.fixId)
    && (forall a, b ::
          a in expectations.rows && b in expectations.rows && a != b
          && SameSuite(expectations.rows[a], expectations.rows[b])
          ==> expectations.rows[a].data.checkType != expectations.rows[b].data.checkType)
  }

  predicate Demanded(run: nat, x: nat, expectations: Table<Expectation>) {
    exists e :: e in expectations.rows && expectations.rows[e].run == run && expectations.rows[e].data.fixId == x
  }

  /** Every completed fix of the run has its suite. */
  ghost predicate AllDemanded(run: nat, executions: Table<Execution>, steps: Table<Step>,
      expectations: Table<Expectation>) {
    forall x :: Fixed(run, x, executions, steps) ==> Demanded(run, x, expectations)
  }

  predicate LatestOf(run: nat, e: nat, expectations: Table<Expectation>) {
    && expectations.Has(run, e)
    && forall d :: d in expectations.rows && expectations.rows[d].run == run ==>
      expectations.rows[d].data.fixId <= expectations.rows[e].data.fixId
  }

  /** The latest suite is passed, or there never was one and some check passed. */
  ghost predicate Earned(run: nat, expectations: Table<Expectation>, results: Table<ValidationResult>) {
    && (forall e :: LatestOf(run, e, expectations) ==> expectations.rows[e].data.status == CheckStatus.Passed)
    && ((forall e :: e in expectations.rows ==> expectations.rows[e].run != run) ==>
      exists v :: results.Has(run, v) && results.rows[v].data.passed)
  }

  ghost predicate RunsEarned(s: State) {
    forall r :: r in s.runs ==>
      && (!Over(s.runs[r].status) ==> AllDemanded(r, s.executions, s.steps, s.expectations))
      && (s.runs[r].status == ReadyForActivity ==> Earned(r, s.expectations, s.results))
  }

  ghost predicate RecordsSound(s: State) {
    && ExpectationsSound(s.expectations, s.executions, s.steps, s.results)
      && ResultsSound(s.results, s.executions, s.steps)
    && OneResultEach(s.expectations) && OneCommandEach(s.results) && SuitesOrdered(s.expectations)
  }

  ghost predicate Validated(s: State) { RecordsSound(s) && RunsEarned(s) }

  // ---- actions that do not complete a command ----------------------------------------------------

  ghost predicate SamePhases(a: Table<Step>, b: Table<Step>) {
    forall id :: id in a.rows ==>
      id in b.rows && b.rows[id].run == a.rows[id].run && b.rows[id].data.phase == a.rows[id].data.phase
  }

  /** Outcomes stay; new executions have none yet. */
  ghost predicate SameOutcomes(a: Table<Execution>, b: Table<Execution>) {
    && (forall x :: x in a.rows ==>
          x in b.rows && b.rows[x].run == a.rows[x].run && b.rows[x].data.stepId == a.rows[x].data.stepId
          && b.rows[x].data.status == a.rows[x].data.status && b.rows[x].data.finished == a.rows[x].data.finished
          && b.rows[x].data.exitCode == a.rows[x].data.exitCode)
    && (forall x :: x in b.rows && x !in a.rows ==> !b.rows[x].data.finished)
  }

  /** Steps named by executions are known. */
  ghost predicate StepsKnown(executions: Table<Execution>, steps: Table<Step>) {
    forall x :: x in executions.rows ==> executions.rows[x].data.stepId in steps.rows
  }

  /** A run does not become ready, nor active again. */
  ghost predicate NotPromoted(s: State, t: State) {
    forall r :: r in t.runs ==>
      if r in s.runs then t.runs[r].status == s.runs[r].status || (t.runs[r].status != ReadyForActivity
        && (Over(s.runs[r].status) ==> Over(t.runs[r].status)))
      else t.runs[r].status != ReadyForActivity
  }

  lemma RecordsStay(s: State, t: State)
    requires RecordsSound(s) && SamePhases(s.steps, t.steps) && SameOutcomes(s.executions, t.executions)
    requires t.results.rows == s.results.rows && t.expectations.rows == s.expectations.rows
    ensures RecordsSound(t)
  {
    forall e | e in t.expectations.rows ensures ExpectationSound(t.expectations.rows[e], t.executions, t.steps,
      t.results) {
      assert ExpectationSound(s.expectations.rows[e], s.executions, s.steps, s.results);
    }
    forall v | v in t.results.rows ensures ResultSound(t.results.rows[v], t.executions, t.steps) {
      assert ResultSound(s.results.rows[v], s.executions, s.steps);
    }
  }

  lemma FixesStay(s: State, t: State, r: nat)
    requires SamePhases(s.steps, t.steps) && SameOutcomes(s.executions, t.executions)
      && StepsKnown(s.executions, s.steps)
    ensures forall x :: Fixed(r, x, t.executions, t.steps) <==> Fixed(r, x, s.executions, s.steps)
  {
  }

  lemma EarnedStays(r: nat, a: Table<Expectation>, b: Table<Expectation>, c: Table<ValidationResult>,
      d: Table<ValidationResult>)
    requires b.rows == a.rows && d.rows == c.rows && Earned(r, a, c)
    ensures Earned(r, b, d)
  {
    forall e | LatestOf(r, e, b) ensures b.rows[e].data.status == CheckStatus.Passed { assert LatestOf(r, e, a); }
    if exists v :: c.Has(r, v) && c.rows[v].data.passed {
      var v :| c.Has(r, v) && c.rows[v].data.passed;
      assert d.Has(r, v);
    }
  }

  lemma DemandedStays(r: nat, a: Table<Expectation>, b: Table<Expectation>)
    requires b.rows == a.rows
    ensures forall x :: Demanded(r, x, a) <==> Demanded(r, x, b)
  {
  }

  lemma RunsStay(s: State, t: State)
    requires RunsEarned(s) && SamePhases(s.steps, t.steps) && SameOutcomes(s.executions, t.executions)
      && StepsKnown(s.executions, s.steps)
    requires t.results.rows == s.results.rows && t.expectations.rows == s.expectations.rows && NotPromoted(s, t)
    requires forall x :: x in s.executions.rows ==> s.executions.rows[x].run in s.runs
    ensures RunsEarned(t)
  {
    hide Earned, Demanded;
    forall r | r in t.runs
      ensures !Over(t.runs[r].status) ==> AllDemanded(r, t.executions, t.steps, t.expectations)
      ensures t.runs[r].status == ReadyForActivity ==> Earned(r, t.expectations, t.results)
    {
      FixesStay(s, t, r);
      DemandedStays(r, s.expectations, t.expectations);
      if r in s.runs {
        if t.runs[r].status == ReadyForActivity {
          EarnedStays(r, s.expectations, t.expectations, s.results, t.results);
        }
      }
    }
  }

  lemma ValidatedStays(s: State, t: State)
    requires Validated(s) && SamePhases(s.steps, t.steps) && SameOutcomes(s.executions, t.executions)
      && StepsKnown(s.executions, s.steps)
    requires t.results.rows == s.results.rows && t.expectations.rows == s.expectations.rows && NotPromoted(s, t)
    requires forall x :: x in s.executions.rows ==> s.executions.rows[x].run in s.runs
    ensures Validated(t)
  {
    hide RecordsSound, RunsEarned, SamePhases, SameOutcomes, StepsKnown, NotPromoted;
    RecordsStay(s, t);
    RunsStay(s, t);
  }

  // ---- completing a command ----------------------------------------------------------------------

  /** One execution has just ended, nothing else about executions has changed. */
  ghost predicate JustEnded(a: Table<Execution>, b: Table<Execution>, x: nat) {
    && x in a.rows && !a.rows[x].data.finished && a.rows.Keys == b.rows.Keys
    && b.rows[x].run == a.rows[x].run && b.rows[x].data.stepId == a.rows[x].data.stepId && b.rows[x].data.finished
    && forall y :: y in a.rows && y != x ==> b.rows[y] == a.rows[y]
  }

  /** What was recorded before stays sound: nothing was recorded about the command that has just ended. */
  lemma RecordsOutlive(s: State, t: State, x: nat)
    requires RecordsSound(s) && JustEnded(s.executions, t.executions, x) && SamePhases(s.steps, t.steps)
    requires t.results == s.results && t.expectations == s.expectations
    ensures RecordsSound(t)
    ensures forall v :: v in t.results.rows ==> t.results.rows[v].data.executionId != x
    ensures forall e :: e in t.expectations.rows ==> t.expectations.rows[e].data.fixId != x
  {
    forall e | e in t.expectations.rows
      ensures ExpectationSound(t.expectations.rows[e], t.executions, t.steps, t.results)
              && t.expectations.rows[e].data.fixId != x
    {
      assert ExpectationSound(s.expectations.rows[e], s.executions, s.steps, s.results);
    }
    forall v | v in t.results.rows
      ensures ResultSound(t.results.rows[v], t.executions, t.steps) && t.results.rows[v].data.executionId != x
    {
      assert ResultSound(s.results.rows[v], s.executions, s.steps);
    }
  }

  // ---- a new result ------------------------------------------------------------------------------

  lemma NewResultSound(s: State, t: State, run: nat, result: ValidationResult)
    requires RecordsSound(s) && ResultSound(Row(run, result), s.executions, s.steps)
    requires forall v :: v in s.results.rows ==> s.results.rows[v].data.executionId != result.executionId
    requires s.results.next !in s.results.rows
    requires t.results == s.results.Add(run, result) && t.expectations == s.expectations
      && t.executions == s.executions && t.steps == s.steps
    ensures RecordsSound(t)
    ensures forall e :: e in t.expectations.rows ==> t.expectations.rows[e].data.resultId != Some(s.results.next)
  {
    forall e | e in t.expectations.rows
      ensures ExpectationSound(t.expectations.rows[e], t.executions, t.steps, t.results)
        && t.expectations.rows[e].data.resultId != Some(s.results.next)
    {
      assert ExpectationSound(s.expectations.rows[e], s.executions, s.steps, s.results);
    }
    forall v | v in t.results.rows ensures ResultSound(t.results.rows[v], t.executions, t.steps) {
      if v != s.results.next { assert ResultSound(s.results.rows[v], s.executions, s.steps); }
    }
  }

  function Decided(e: Expectation, v: nat, passed: bool): Expectation {
    e.(status := if passed then CheckStatus.Passed else CheckStatus.Failed, resultId := Some(v))
  }

  /** Deciding a pending check by a fresh result of its type from a later command. */
  lemma DecidedSound(s: State, t: State, run: nat, e: nat, v: nat)
    requires RecordsSound(s) && s.expectations.Has(run, e)
    requires s.results.Has(run, v) && s.results.rows[v].data.checkType == s.expectations.rows[e].data.checkType
    requires s.results.rows[v].data.executionId > s.expectations.rows[e].data.fixId
    requires forall d :: d in s.expectations.rows ==> s.expectations.rows[d].data.resultId != Some(v)
    requires t.results == s.results && t.executions == s.executions && t.steps == s.steps
    requires t.expectations ==
      s.expectations.Put(e, Decided(s.expectations.rows[e].data, v, s.results.rows[v].data.passed))
    ensures RecordsSound(t)
  {
    DecidedOnce(s.expectations, e, v, s.results.rows[v].data.passed);
    DecidedMeans(s.expectations, e, v, s.executions, s.steps, s.results);
    hide SuitesOrdered, OneResultEach, OneCommandEach, ResultsSound, ExpectationsSound;
  }

  lemma DecidedMeans(t: Table<Expectation>, e: nat, v: nat, executions: Table<Execution>, steps: Table<Step>,
      results: Table<ValidationResult>)
    requires ExpectationsSound(t, executions, steps, results) && e in t.rows && results.Has(t.rows[e].run, v)
    requires results.rows[v].data.checkType == t.rows[e].data.checkType
      && results.rows[v].data.executionId > t.rows[e].data.fixId
    ensures ExpectationsSound(t.Put(e, Decided(t.rows[e].data, v, results.rows[v].data.passed)), executions, steps,
      results)
  {
    var u := t.Put(e, Decided(t.rows[e].data, v, results.rows[v].data.passed));
    forall d | d in u.rows ensures ExpectationSound(u.rows[d], executions, steps, results) {
      assert ExpectationSound(t.rows[d], executions, steps, results);
    }
  }

  lemma DecidedOnce(t: Table<Expectation>, e: nat, v: nat, passed: bool)
    requires SuitesOrdered(t) && OneResultEach(t) && e in t.rows
    requires forall d :: d in t.rows ==> t.rows[d].data.resultId != Some(v)
    ensures var u := t.Put(e, Decided(t.rows[e].data, v, passed)); SuitesOrdered(u) && OneResultEach(u)
  {
  }

  // ---- what the latest suite is ------------------------------------------------------------------

  /** The latest suite is the set of the run's expectations with the greatest fix id. */
  lemma LatestSuiteIs(s: State, run: nat)
    requires s.expectations.Indexed(s.runs.Keys) && run in s.runs && SuitesOrdered(s.expectations)
    ensures forall e :: e in LatestSuite(s, run) <==> LatestOf(run, e, s.expectations)
    ensures LatestSuite(s, run) == [] <==> forall e :: e in s.expectations.rows ==> s.expectations.rows[e].run != run
  {
    var t := s.expectations;
    var ids := t.byRun[run];
    assert t.Ids(run) == ids;
    assert forall e :: e in ids <==> t.Has(run, e);
    assert Ascending(ids);
    if ids == [] {
      assert LatestSuite(s, run) == [];
      forall e | e in t.rows ensures t.rows[e].run != run { assert !t.Has(run, e); }
    } else {
      var last := ids[|ids| - 1];
      assert last in ids;
      hide Table.Indexed;
      WithFixListed(t.rows, ids, t.rows[last].data.fixId);
      forall e | e in ids ensures t.rows[e].data.fixId <= t.rows[last].data.fixId {
        var i :| 0 <= i < |ids| && ids[i] == e;
        assert i < |ids| - 1 ==> ids[i] < ids[|ids| - 1];
      }
      assert last in LatestSuite(s, run);
      forall e ensures e in LatestSuite(s, run) <==> LatestOf(run, e, t) {
        if LatestOf(run, e, t) { assert t.rows[last].data.fixId <= t.rows[e].data.fixId; }
      }
    }
  }

  /** The suite's overall status, when every check is required. */
  lemma StatusMeans(es: seq<Expectation>)
    requires forall i :: 0 <= i < |es| ==> es[i].required
    ensures Suite.StatusOf(es) == Suite.SuiteStatus.Passed <==>
      es != [] && forall i :: 0 <= i < |es| ==> es[i].status == CheckStatus.Passed
    ensures Suite.StatusOf(es) == Suite.SuiteStatus.Failed <==>
      exists i :: 0 <= i < |es| && es[i].status == CheckStatus.Failed
  {
    Suite.AllRequired(es);
  }

  /** The latest suite lists the records of the latest fix's checks, all of them and no others. */
  lemma LatestRecords(s: State, run: nat)
    requires s.expectations.Indexed(s.runs.Keys) && run in s.runs
    requires SuitesOrdered(s.expectations) && ExpectationsSound(s.expectations, s.executions, s.steps, s.results)
    ensures var ids, es := LatestSuite(s, run), LatestExpectations(s, run);
            && |es| == |ids|
            && (forall i :: 0 <= i < |ids| ==>
              LatestOf(run, ids[i], s.expectations) && es[i] == s.expectations.rows[ids[i]].data && es[i].required)
            && (forall e :: LatestOf(run, e, s.expectations) ==> e in ids)
  {
    var ids, es := LatestSuite(s, run), LatestExpectations(s, run);
    LatestSuiteIs(s, run);
    SuiteIsOwned(s, run);
    hide Table.Indexed, LatestSuite, LatestExpectations, LatestOf, SuitesOrdered;
    forall i | 0 <= i < |ids| ensures LatestOf(run, ids[i], s.expectations) && es[i].required {
      assert ids[i] in ids;
      assert ExpectationSound(s.expectations.rows[ids[i]], s.executions, s.steps, s.results);
    }
  }

  lemma PassedSuite(s: State, run: nat)
    requires s.expectations.Indexed(s.runs.Keys) && run in s.runs && RecordsSound(s)
    ensures Suite.StatusOf(LatestExpectations(s, run)) == Suite.SuiteStatus.Passed <==>
            (LatestSuite(s, run) != []
              && forall e :: LatestOf(run, e, s.expectations) ==>
                s.expectations.rows[e].data.status == CheckStatus.Passed)
  {
    hide ResultsSound, OneResultEach, OneCommandEach, Table.Indexed, LatestSuite, LatestExpectations, Suite.StatusOf,
      SuitesOrdered, ExpectationsSound;
    var ids, es := LatestSuite(s, run), LatestExpectations(s, run);
    LatestRecords(s, run);
    StatusMeans(es);
    if forall i :: 0 <= i < |es| ==> es[i].status == CheckStatus.Passed {
      forall e | LatestOf(run, e, s.expectations) ensures s.expectations.rows[e].data.status == CheckStatus.Passed {
        var i :| 0 <= i < |ids| && ids[i] == e;
        assert es[i].status == CheckStatus.Passed;
      }
    }
  }
}
