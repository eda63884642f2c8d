/** The remote runner is called at most once per approved step, whatever is redelivered. */
module Launching {
  import opened Wrappers
  import opened Tables
  import opened Model
  import opened Store
  import opened Indexing
  import opened History
  import opened Footprints
  import opened Delivery
  import opened Runs
  import opened Approval

  predicate CarriesOut(i: Invocation, executions: Table<Execution>) {
    i.execution in executions.rows && executions.rows[i.execution].data.stepId == i.step
      && executions.rows[i.execution].data.command == i.command
  }

  /** Every call of the runner belongs to its own execution row; a row just started has not been run yet. */
  ghost predicate Launches(y: System) {
    && (forall i :: 0 <= i < |y.invocations| ==> CarriesOut(y.invocations[i], y.store.executions))
    && (forall i, j :: 0 <= i < j < |y.invocations| ==> y.invocations[i].execution != y.invocations[j].execution)
    && (y.stage.Launched? ==>
          y.stage.execution in y.store.executions.rows
          && forall i :: 0 <= i < |y.invocations| ==> y.invocations[i].execution != y.stage.execution)
  }

  lemma KeepsLaunches(y: System, z: System)
    requires Launches(y) && ExecutionsLater(y.store.executions, z.store.executions)
    requires z.invocations == y.invocations && (z.stage.Launched? ==> z.stage == y.stage)
    ensures Launches(z)
  {
  }

  lemma StartLaunches(y: System, event: nat, run: nat, step: nat)
    requires Indexed(y.store) && Launches(y)
    ensures Launches(StartCommand(y, event, run, step))
  {
    hide Indexed, StartExecution;
    FreshIds(y.store);
    StartedIs(y.store, run, step);
  }

  lemma InvokeLaunches(y: System)
    requires Launches(y) && y.stage.Launched?
    ensures Launches(InvokeRunner(y, y.stage.event, y.stage.run, y.stage.execution))
  {
  }

  lemma LaterExecutions(s: State, t: State)
    requires Later(s, t)
    ensures ExecutionsLater(s.executions, t.executions)
  {
    hide TablesOwned, StepsLater, ExecutionsLater, ExpectationsLater, Preserved, RunsKept, EventsKept, QueueKept;
  }

  lemma OthersLaunch(p: Policy, y: System, a: Action)
    requires Enabled(y.stage, a) && !a.Start? && !a.Invoke?
    ensures var z := Work(p, y, a); z.invocations == y.invocations && !z.stage.Launched?
  {
    hide ClaimEvent, ReadPlannerContext, CheckNotAborted, AppendEvent, CreateActivityDraft, TakeRequest, AskForActivity,
      ReceiveOutput, MarkActivityCreated, MarkCompleted, FailRequest, FailOutbox, CompleteOutbox, ProposeAgentStep,
      CompleteExecution;
  }

  lemma WorkLaunches(p: Policy, y: System, a: Action)
    requires Indexed(y.store) && Launches(y) && Enabled(y.stage, a)
    ensures Launches(Work(p, y, a))
  {
    if a.Start? {
      hide Indexed, Launches, StartCommand;
      StartLaunches(y, y.stage.event, y.stage.run, y.stage.step);
    } else if a.Invoke? {
      hide Indexed, Launches, InvokeRunner;
      InvokeLaunches(y);
    } else {
      hide *;
      WorkForward(p, y, a);
      LaterExecutions(y.store, Work(p, y, a).store);
      OthersLaunch(p, y, a);
      KeepsLaunches(y, Work(p, y, a));
    }
  }

  lemma NextLaunches(p: Policy, y: System, a: Action)
    requires Indexed(y.store) && Launches(y)
    ensures Launches(Next(p, y, a))
  {
    hide Apply, Work, Enabled, Later, ExecutionsLater;
    match a
    case Api(call) => CallLaunches(p, y, call);
    case Wait(_) =>
    case Crash =>
    case _ => if Enabled(y.stage, a) { WorkLaunches(p, y, a); }
  }

  lemma CallLaunches(p: Policy, y: System, call: Call)
    requires Indexed(y.store) && Launches(y)
    ensures Launches(y.(store := Apply(p, y.store, call)))
  {
    hide *;
    EveryCallStaysInItsRun(p, y.store, call);
    AdvancesLater(y.store, Apply(p, y.store, call), Scope(y.store, call));
    LaterExecutions(y.store, Apply(p, y.store, call));
    KeepsLaunches(y, y.(store := Apply(p, y.store, call)));
  }

  lemma {:induction false} AlwaysLaunches(p: Policy, limit: nat, clock: int, actions: seq<Action>)
    ensures Launches(After(p, Begin(limit, clock), actions))
    decreases |actions|
  {
    if actions != [] {
      hide Indexed, Launches, Next;
      AlwaysLaunches(p, limit, clock, actions[..|actions| - 1]);
      AlwaysIndexed(p, limit, clock, actions[..|actions| - 1]);
      NextLaunches(p, After(p, Begin(limit, clock), actions[..|actions| - 1]), actions[|actions| - 1]);
    }
  }

  /**
   * For every interleaving of calls, worker steps, crashes, recoveries and redeliveries, the runner is called at most
   * once for a step, only if the step was approved, and only with its approved command, which is not a blocked one.
   */
  lemma AtMostOncePerStep(p: Policy, limit: nat, clock: int, actions: seq<Action>)
    ensures var y := After(p, Begin(limit, clock), actions);
            && (forall i, j :: 0 <= i < j < |y.invocations| ==> y.invocations[i].step != y.invocations[j].step)
            && (forall i :: 0 <= i < |y.invocations| ==>
                  var v := y.invocations[i];
                  v.step in y.store.steps.rows && Granted(y.store.steps.rows[v.step].data)
                  && y.store.steps.rows[v.step].data.approvedCommand == Some(v.command)
                    && !p.classify(v.command).blocked)
  {
    hide After;
    AlwaysLaunches(p, limit, clock, actions);
    AlwaysVetted(p, limit, clock, actions);
  }

  /**
   * In every reachable state an approved, executed or failed step has the backup and the evidence it needs on record.
   */
  lemma ApprovalsStayCovered(p: Policy, limit: nat, clock: int, actions: seq<Action>, run: nat, id: nat)
    requires var s := After(p, Begin(limit, clock), actions).store;
             s.steps.Has(run, id) && Granted(s.steps.rows[id].data)
    ensures var s := After(p, Begin(limit, clock), actions).store;
            var step := s.steps.rows[id].data;
            var need := p.requirement(step.command, step.risk);
            && step.approvedCommand == Some(step.command) && !step.blocked && !p.classify(step.command).blocked
            && (need.required ==> exists b :: s.backups.Has(run, b) && Satisfies(s.backups.rows[b].data, need.path))
            && (step.phase == Fix && step.risk != ReadOnly && !p.targetedBackup(step.command) ==>
                  exists e :: s.sources.Has(run, e) && Evidence(s.sources.rows[e].data))
  {
    var s := After(p, Begin(limit, clock), actions).store;
    hide After;
    AlwaysVetted(p, limit, clock, actions);
    assert StepVetted(p, s.steps.rows[id], s.backups, s.sources) by { hide ExecutionsSound, OneEach; }
  }
}
