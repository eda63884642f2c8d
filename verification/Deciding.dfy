/**
 * Running the command the planner renders for a check decides that check, exactly for the names the evaluator reads
 * right.
 */
module Deciding {
  import opened Wrappers
  import opened Tables
  import opened Model
  import opened Store
  import opened Indexing
  import opened Delivery
  import opened Text
  import opened Renderer
  import opened Readiness
  import opened Approval
  import opened Earning
  import opened Validation
  import Suite

  /** The targets for which the renderer's command is modelled. */
  predicate Renderable(e: Expectation) {
    && e.target.Some?
    && match e.checkType
       case ServiceHealth => UnitName(e.target.value)
       case CustomerBenefit => Url(e.target.value)
       case LogsClean => UnitName(e.target.value)
       case Persistence => UnitName(e.target.value)
       case _ => false
  }

  function Rendered(e: Expectation): string
    requires Renderable(e)
  {
    match e.checkType
    case ServiceHealth => HealthCommand(e.target.value)
    case CustomerBenefit => BenefitCommand(e.target.value)
    case LogsClean => LogsCommand(e.target.value)
    case Persistence => RestartCommand(e.target.value)
  }

  /**
   * A check of anything named a reboot, a log check of a unit named like a network tool, or a restart check of one
   * named after the journal reader.
   */
  predicate Misread(e: Expectation) {
    && e.target.Some?
    && (|| NamesReboot(Lower(e.target.value))
        || (e.checkType == LogsClean && EndsInTool(Lower(e.target.value)))
        || (e.checkType == Persistence && Contains(Lower(e.target.value), "journalctl")))
  }

  lemma RenderedType(e: Expectation)
    requires Renderable(e)
    ensures CheckTypeOf(Rendered(e)) == e.checkType <==> !Misread(e)
  {
    hide CheckTypeOf, HealthCommand, BenefitCommand, LogsCommand, RestartCommand, Lower, Contains, NamesReboot,
      EndsInTool, UnitName, Url;
    match e.checkType
    case ServiceHealth => HealthAgrees(e.target.value);
    case CustomerBenefit => BenefitAgrees(e.target.value);
    case LogsClean => LogsAgree(e.target.value);
    case Persistence => RestartAgrees(e.target.value);
  }

  ghost predicate KeyedByType(es: seq<Expectation>) {
    forall j, k :: 0 <= j < k < |es| ==> es[j].checkType != es[k].checkType
  }

  /** The evaluator's reading of the command, and none of its reading of the output, picks the check. */
  lemma RenderedCheckDecidesItself(p: Policy, es: seq<Expectation>, i: nat, id: nat, done: Execution)
    requires i < |es| && es[i].status == CheckStatus.Pending && Renderable(es[i]) && done.command == Rendered(es[i])
    requires KeyedByType(es) && p.checkType(done.command) == CheckTypeOf(done.command)
    ensures Suite.Matching(p, es, ResultOf(p, id, done)) == Some(i) <==> !Misread(es[i])
  {
    hide CheckTypeOf, Rendered, Renderable, Misread;
    RenderedType(es[i]);
    var result := ResultOf(p, id, done);
    if Misread(es[i]) {
    } else {
      Suite.TargetsNeverDecide(p, es, result, i);
    }
  }

  // ---- in the store --------------------------------------------------------------------------------

  lemma LatestKeyed(s: State, run: nat)
    requires s.expectations.Indexed(s.runs.Keys) && run in s.runs && RecordsSound(s)
    ensures KeyedByType(LatestExpectations(s, run))
  {
    hide ResultsSound, OneResultEach, OneCommandEach, Table.Indexed, LatestSuite, LatestExpectations, ExpectationsSound,
      SuitesOrdered;
    LatestRecords(s, run);
    var ids, es := LatestSuite(s, run), LatestExpectations(s, run);
    DistinctIds(s, run);
    forall j, k | 0 <= j < k < |es| ensures es[j].checkType != es[k].checkType { TypesDiffer(s, run, ids[j], ids[k]); }
  }

  lemma TypesDiffer(s: State, run: nat, d: nat, e: nat)
    requires SuitesOrdered(s.expectations) && LatestOf(run, d, s.expectations) && LatestOf(run, e, s.expectations)
      && d != e
    ensures s.expectations.rows[d].data.checkType != s.expectations.rows[e].data.checkType
  {
    assert SameSuite(s.expectations.rows[d], s.expectations.rows[e]);
  }

  lemma {:induction false} WithFixDistinct(rows: map<nat, Row<Expectation>>, ids: seq<nat>, fixId: nat)
    requires Ascending(ids)
    ensures Ascending(WithFix(rows, ids, fixId)) && forall e :: e in WithFix(rows, ids, fixId) ==> e in ids
  {
    if ids != [] {
      WithFixDistinct(rows, ids[1..], fixId);
      var rest := WithFix(rows, ids[1..], fixId);
      forall j | 0 <= j < |rest| ensures ids[0] < rest[j] { assert rest[j] in ids[1..]; }
    }
  }

  lemma DistinctIds(s: State, run: nat)
    requires s.expectations.Indexed(s.runs.Keys) && run in s.runs
    ensures var ids := LatestSuite(s, run); forall j, k :: 0 <= j < k < |ids| ==> ids[j] != ids[k]
  {
    var t := s.expectations;
    var ids := t.Ids(run);
    assert Ascending(ids);
    if ids != [] && ids[|ids| - 1] in t.rows { WithFixDistinct(t.rows, ids, t.rows[ids[|ids| - 1]].data.fixId); }
  }

  /** A check that is read right gets the result and its verdict; one that is misread stays as it was. */
  predicate Fate(before: Expectation, after: Expectation, resultId: nat, passed: bool) {
    after == if Misread(before) then before
             else before.(resultId := Some(resultId),
                          status := if passed then CheckStatus.Passed else CheckStatus.Failed)
  }

  lemma SameSuites(s: State, t: State, run: nat)
    requires t.expectations == s.expectations
    ensures LatestSuite(t, run) == LatestSuite(s, run) && LatestExpectations(t, run) == LatestExpectations(s, run)
  {
    hide LatestIds;
  }

  /** What applying the result of its rendered command does to a check. */
  lemma AppliedToItsCheck(p: Policy, s: State, now: State, run: nat, e: nat, id: nat, done: Execution, resultId: nat)
    requires s.expectations.Indexed(s.runs.Keys) && run in s.runs && RecordsSound(s)
    requires e in LatestSuite(s, run) && e in s.expectations.rows && now.expectations == s.expectations
    requires var check := s.expectations.rows[e].data;
             check.status == CheckStatus.Pending && Renderable(check) && done.command == Rendered(check)
    requires p.checkType(done.command) == CheckTypeOf(done.command)
    ensures var result := ResultOf(p, id, done);
            var t := ApplyResult(p, now, run, resultId, result);
            e in t.expectations.rows
            && Fate(s.expectations.rows[e].data, t.expectations.rows[e].data, resultId, result.passed)
  {
    hide ResultsSound, OneResultEach, OneCommandEach, Table.Indexed, LatestSuite, LatestExpectations, ExpectationsSound,
      SuitesOrdered, CheckTypeOf, Rendered, Renderable, Misread, Suite.Matching, ResultOf, LatestOf;
    var ids, es := LatestSuite(s, run), LatestExpectations(s, run);
    SameSuites(s, now, run);
    LatestRecords(s, run);
    LatestKeyed(s, run);
    DistinctIds(s, run);
    var i: nat :| i < |ids| && ids[i] == e;
    RenderedCheckDecidesItself(p, es, i, id, done);
  }

  /** Completing a validation command applies its result to checks that nothing touched since. */
  lemma FinishApplies(p: Policy, s: State, run: nat, x: nat, exitCode: Option<int>, error: Option<string>,
      timedOut: bool) returns (now: State)
    requires run in s.runs && s.runs[run].status != Aborted && s.executions.Has(run, x)
    requires s.steps.Has(run, s.executions.rows[x].data.stepId)
      && s.steps.rows[s.executions.rows[x].data.stepId].data.phase == Validation
    ensures now.expectations == s.expectations
    ensures var result := ResultOf(p, x, WithOutcome(s.executions.rows[x].data, exitCode, error, timedOut));
            CompleteExecution(p, s, run, x, exitCode, error, timedOut).state.expectations
            == ApplyResult(p, now, run, s.results.next, result).expectations
  {
    hide ApplyResult, MoveOn, RecordObservations, SuiteVerdict, ResultOf, FinalStatus, FinishedBody;
    var done := WithOutcome(s.executions.rows[x].data, exitCode, error, timedOut);
    now := RecordResult(EndedState(s, x, done), run, ResultOf(p, x, done));
  }

  /** The worker runs, in a run that was not aborted, the command rendered for a pending check of its latest suite. */
  predicate RunsTheCheck(y: System, e: nat) {
    && y.stage.InFlight?
    && var s, run, x := y.store, y.stage.run, y.stage.execution;
       && run in s.runs && s.runs[run].status != Aborted && s.executions.Has(run, x)
       && var command := s.executions.rows[x].data;
          && s.steps.Has(run, command.stepId) && s.steps.rows[command.stepId].data.phase == Validation
          && e in LatestSuite(s, run) && e in s.expectations.rows
          && var check := s.expectations.rows[e].data;
             check.status == CheckStatus.Pending && Renderable(check) && command.command == Rendered(check)
  }

  lemma FinishDecides(p: Policy, y: System, a: Action, e: nat)
    requires forall command: string :: p.checkType(command) == CheckTypeOf(command)
    requires a.Finish? && RunsTheCheck(y, e)
    requires y.store.expectations.Indexed(y.store.runs.Keys) && RecordsSound(y.store)
    ensures var s, z := y.store, Next(p, y, a).store;
            var done := WithOutcome(s.executions.rows[y.stage.execution].data, a.exitCode, a.error, a.timedOut);
            e in z.expectations.rows && Fate(s.expectations.rows[e].data, z.expectations.rows[e].data, s.results.next,
              ResultOf(p, y.stage.execution, done).passed)
  {
    hide CompleteExecution, RecordsSound, Table.Indexed, LatestSuite, Renderable, Rendered, Fate, ResultOf, FinalStatus,
      ApplyResult, CheckTypeOf;
    var s, run, x := y.store, y.stage.run, y.stage.execution;
    var now := FinishApplies(p, s, run, x, a.exitCode, a.error, a.timedOut);
    var done := WithOutcome(s.executions.rows[x].data, a.exitCode, a.error, a.timedOut);
    assert p.checkType(done.command) == CheckTypeOf(done.command);
    AppliedToItsCheck(p, s, now, run, e, x, done, s.results.next);
  }

  /**
   * In every reachable state, when the worker completes the command rendered for a pending check of the run's latest
   * suite, however the command ends and whatever the other checks are: a check that is read right is decided by the
   * command's result, with that result's verdict, and one that is misread stays pending.
   */
  lemma RenderedCommandsDecide(p: Policy, limit: nat, clock: int, actions: seq<Action>, a: Action, e: nat)
    requires forall command: string :: p.checkType(command) == CheckTypeOf(command)
    requires a.Finish? && RunsTheCheck(After(p, Begin(limit, clock), actions), e)
    ensures var y := After(p, Begin(limit, clock), actions);
            var s, z, x := y.store, Next(p, y, a).store, y.stage.execution;
            var done := WithOutcome(s.executions.rows[x].data, a.exitCode, a.error, a.timedOut);
            e in z.expectations.rows && Fate(s.expectations.rows[e].data, z.expectations.rows[e].data, s.results.next,
              ResultOf(p, x, done).passed)
  {
    hide *;
    var y := After(p, Begin(limit, clock), actions);
    AlwaysHealthy(p, limit, clock, actions);
    HealthyRecords(p, y);
    FinishDecides(p, y, a, e);
  }

  lemma HealthyRecords(p: Policy, y: System)
    requires Healthy(p, y)
    ensures y.store.expectations.Indexed(y.store.runs.Keys) && RecordsSound(y.store)
  {
    hide Table.Indexed, TimelineIndexed, QueueIndexed, Vetted, RecordsSound, RunsEarned;
  }
}
