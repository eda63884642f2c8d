/** The planner's choice read off the run store, and what it means for the steps the worker proposes. */
module Planning {
  import opened Wrappers
  import opened Tables
  import opened Model
  import opened Store
  import opened Indexing
  import opened History
  import opened Delivery
  import opened Runs
  import opened Validation
  import opened Pending
  import opened Planner

  /** An executed command as the planner reads it. */
  function PastOf(e: Execution, steps: Table<Step>): Past {
    var isFix := e.stepId in steps.rows && steps.rows[e.stepId].data.phase == Fix;
    Past(e.command, isFix, e.finished, e.status == ExecutionStatus.Completed && e.exitCode == Some(0))
  }

  function Pasts(es: seq<Execution>, steps: Table<Step>): seq<Past> {
    seq(|es|, i requires 0 <= i < |es| => PastOf(es[i], steps))
  }

  /** The run's commands in the order they were started. */
  function CommandsOf(s: State, run: nat): seq<Past> { Pasts(s.executions.OfRun(run), s.steps) }

  /** Everything about one planning round that is not read off the store. */
  datatype Mind = Mind(reading: Reading, render: Expectation -> string, model: Option<string>, purpose: string,
    phase: Phase)

  function ChecksOf(mind: Mind, es: seq<Expectation>): seq<Check> {
    seq(|es|, i requires 0 <= i < |es| => Check(es[i].required, es[i].status == CheckStatus.Pending,
      mind.render(es[i])))
  }

  predicate Validates(s: State, run: nat) { run in s.runs && s.runs[run].status == Validating }

  /** The command the planner proposes for the run. */
  function Chosen(mind: Mind, s: State, run: nat): string {
    Proposal(mind.reading, mind.model, Validates(s, run), ChecksOf(mind, s.expectations.OfRun(run)), CommandsOf(s, run))
  }

  /** A required check of a validating run is pending. */
  predicate ChecksPending(mind: Mind, s: State, run: nat) {
    SuitePending(Validates(s, run), ChecksOf(mind, s.expectations.OfRun(run)))
  }

  /** A state that differs in its timeline at most changes neither the choice nor what it must differ from. */
  lemma ChosenAlike(mind: Mind, s: State, t: State, run: nat)
    requires t == s.(timeline := t.timeline)
    ensures Chosen(mind, t, run) == Chosen(mind, s, run)
    ensures forall x: nat :: MustDiffer(mind, s, run, x) ==> MustDiffer(mind, t, run, x)
  {
    hide Proposal, SuitePending, Pasts, ChecksOf, Table.OfRun, SuccessfulFix;
    assert ChecksPending(mind, t, run) == ChecksPending(mind, s, run);
    forall f: nat ensures FixSucceeded(t, f) == FixSucceeded(s, f) { }
  }

  // ---- what was executed ----------------------------------------------------------------------------

  /** The execution completed a fix. */
  predicate FixSucceeded(s: State, x: nat) {
    && x in s.executions.rows && s.executions.rows[x].data.finished
    && SuccessfulFix(PastOf(s.executions.rows[x].data, s.steps))
  }

  /** What a command may not be: one the run completed, unless checks are pending and a fix succeeded since. */
  ghost predicate MustDiffer(mind: Mind, s: State, run: nat, x: nat) {
    && s.executions.Has(run, x) && s.executions.rows[x].data.finished
    && (ChecksPending(mind, s, run) ==> forall f: nat :: s.executions.Has(run, f) && f >= x ==> !FixSucceeded(s, f))
  }

  lemma {:induction false} CompletedKeepsLast(cs: seq<Past>)
    ensures cs != [] ==>
      Planner.Completed(cs) == Planner.Completed(cs[..|cs| - 1]) + if cs[|cs| - 1].completed then [cs[|cs| - 1]] else []
  {
    if |cs| > 1 {
      CompletedKeepsLast(cs[1..]);
      assert cs[1..][..|cs| - 2] == cs[..|cs| - 1][1..];
    }
  }

  /**
   * A completed command behind which, itself included, no completed fix succeeded, belongs to the part since the latest
   * fix.
   */
  lemma {:induction false} SinceLatest(cs: seq<Past>, i: nat)
    requires i < |cs| && cs[i].completed && forall j :: i <= j < |cs| && cs[j].completed ==> !SuccessfulFix(cs[j])
    ensures cs[i] in SinceLatestFix(Planner.Completed(cs))
    decreases |cs|
  {
    var last := cs[|cs| - 1];
    var rest := cs[..|cs| - 1];
    CompletedKeepsLast(cs);
    if i < |cs| - 1 { SinceLatest(rest, i); }
    if last.completed {
    } else {
      assert Planner.Completed(rest) + [] == Planner.Completed(rest);
    }
  }

  /** The position of an execution in its run's list. */
  lemma PositionOf(s: State, run: nat, x: nat) returns (i: nat)
    requires s.executions.Indexed(s.runs.Keys) && run in s.runs && s.executions.Has(run, x)
    ensures |CommandsOf(s, run)| == |s.executions.Ids(run)| && i < |CommandsOf(s, run)|
    ensures CommandsOf(s, run)[i] == PastOf(s.executions.rows[x].data, s.steps)
    ensures forall j :: i <= j < |CommandsOf(s, run)| ==>
      var f := s.executions.Ids(run)[j];
      s.executions.Has(run, f) && f >= x && CommandsOf(s, run)[j] == PastOf(s.executions.rows[f].data, s.steps)
  {
    OwnedRecords(s.executions, s.runs.Keys, run);
    var ids := s.executions.byRun[run];
    assert x in ids;
    i :| 0 <= i < |ids| && ids[i] == x;
    assert Ascending(ids);
    forall j | i <= j < |ids| ensures ids[j] >= x { if j > i { assert ids[i] < ids[j]; } }
  }

  /** The choice differs canonically from every command it must differ from. */
  lemma ChosenDiffers(mind: Mind, s: State, run: nat, x: nat)
    requires SafeServices(mind.reading) && s.executions.Indexed(s.runs.Keys) && run in s.runs
      && MustDiffer(mind, s, run, x)
    ensures Canonical(mind.reading, Chosen(mind, s, run)) != Canonical(mind.reading, s.executions.rows[x].data.command)
  {
    hide SafeServices, Proposal, Canonical, Table.Indexed, CommandsOf, ChecksOf, SuitePending, Planner.Completed,
      SinceLatestFix, SuccessfulFix;
    var cs := CommandsOf(s, run);
    var checks := ChecksOf(mind, s.expectations.OfRun(run));
    NeverRepeats(mind.reading, mind.model, Validates(s, run), checks, cs);
    var i := PositionOf(s, run, x);
    if ChecksPending(mind, s, run) {
      forall j | i <= j < |cs| && cs[j].completed ensures !SuccessfulFix(cs[j]) {
        assert !FixSucceeded(s, s.executions.Ids(run)[j]);
      }
      SinceLatest(cs, i);
    } else {
      assert cs[i] in cs;
    }
  }

  /** What may happen between reading the context and proposing: calls, remarks and the passing of time. */
  predicate Meanwhile(a: Action) { a.Api? || a.Wait? || a.Remark? }

  /** While the planner thinks, no command starts, sends output or completes. */
  lemma {:induction false} NothingRunsMeanwhile(p: Policy, y: System, actions: seq<Action>)
    requires y.stage.Thinking? && forall i :: 0 <= i < |actions| ==> Meanwhile(actions[i])
    ensures After(p, y, actions).stage == y.stage
      && After(p, y, actions).store.executions.rows == y.store.executions.rows
    decreases |actions|
  {
    hide Apply, AppendEvent;
    if actions != [] {
      var a := actions[|actions| - 1];
      NothingRunsMeanwhile(p, y, actions[..|actions| - 1]);
      if a.Api? { CallLive(p, After(p, y, actions[..|actions| - 1]).store, a.call); }
    }
  }

  /**
   * The planner reads the store, thinks while others act, and proposes what it chose. The new step's command then
   * differs canonically from that of every execution of the run that has completed since its latest successful fix, and
   * from every completed one unless a required check of a validating run is pending; nothing else completed in the
   * meantime.
   */
  lemma ProposedIsNew(p: Policy, mind: Mind, y: System, actions: seq<Action>, x: nat)
    requires y.stage.Thinking? && y.stage.run in y.store.runs && SafeServices(mind.reading) && Indexed(y.store)
    requires (forall i :: 0 <= i < |actions| ==> Meanwhile(actions[i])) && MustDiffer(mind, y.store, y.stage.run, x)
    ensures var s := After(p, y, actions).store;
            var t := Next(p, After(p, y, actions),
              Propose(Chosen(mind, y.store, y.stage.run), mind.purpose, mind.phase)).store;
            && s.executions.rows == y.store.executions.rows
            && (t.steps == s.steps || (t.steps.next == s.steps.next + 1 && s.steps.next in t.steps.rows))
            && (t.steps != s.steps ==>
                  Canonical(mind.reading, t.steps.rows[s.steps.next].data.command)
                  != Canonical(mind.reading, s.executions.rows[x].data.command))
  {
    hide SafeServices, Chosen, Canonical, Indexed, Table.Indexed, TimelineIndexed, QueueIndexed, CreateStep, Table.Has,
      FixSucceeded, After, Meanwhile;
    var run := y.stage.run;
    NothingRunsMeanwhile(p, y, actions);
    IndexedMeans(y.store);
    ChosenDiffers(mind, y.store, run, x);
    CreatedStep(p, After(p, y, actions).store, run, Agent, Chosen(mind, y.store, run), mind.purpose, mind.phase);
  }

  /**
   * From any reachable state in which the worker holds a planning event: it reads its context, thinks while others act,
   * and proposes what the planner chose on the store as it was when the event was taken up. The command of the step it
   * creates, if any, is new in the same sense.
   */
  lemma PlannedIsNew(p: Policy, mind: Mind, limit: nat, clock: int, before: seq<Action>, between: seq<Action>, x: nat)
    requires SafeServices(mind.reading) && forall i :: 0 <= i < |between| ==> Meanwhile(between[i])
    requires var y := After(p, Begin(limit, clock), before);
             && y.stage.Claimed? && y.stage.job.Plan? && y.stage.run in y.store.runs
             && MustDiffer(mind, y.store, y.stage.run, x) && Next(p, y, ReadContext).stage.Thinking?
    ensures var y := After(p, Begin(limit, clock), before);
            var w := After(p, Next(p, y, ReadContext), between);
            var s := w.store;
            var t := Next(p, w, Propose(Chosen(mind, y.store, y.stage.run), mind.purpose, mind.phase)).store;
            && s.executions.rows == y.store.executions.rows
            && (t.steps == s.steps || (t.steps.next == s.steps.next + 1 && s.steps.next in t.steps.rows))
            && (t.steps != s.steps ==>
                  Canonical(mind.reading, t.steps.rows[s.steps.next].data.command)
                  != Canonical(mind.reading, s.executions.rows[x].data.command))
  {
    hide SafeServices, Chosen, Canonical, Indexed, MustDiffer, After, Meanwhile, Later;
    var y := After(p, Begin(limit, clock), before);
    AlwaysIndexed(p, limit, clock, before);
    NextForward(p, y, ReadContext);
    ChosenAlike(mind, y.store, Next(p, y, ReadContext).store, y.stage.run);
    ProposedIsNew(p, mind, Next(p, y, ReadContext), between, x);
  }
}
