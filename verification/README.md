# The troubleshooting run store and its worker, verified

The program guides a technician through repairing a customer's Linux system. A *run* belongs to a ticket. Commands are
proposed as *steps* (by a planner or by hand), classified by a safety layer, approved, executed over SSH by a *worker*,
and their outcome moves the run on: a completed fix demands a *suite* of validation checks, a passed suite makes the run
ready for its *activity*, which is drafted and submitted to the Phoenix ERP. Work reaches the worker through an *outbox*;
everything that happens is appended to the run's *timeline*.

This project models the in-memory run store (`InMemoryRunStore`), the outbox worker with the command, planning and
submission workflows, the planner's choice of commands, the safety layer's two shell scanners and the backup rules, and
proves what holds over every history of the system.

## How it is organised

| files | content |
|---|---|
| `Wrappers`, `Text`, `Tables`, `Model` | value types, text facts, a dictionary with its per-run lists and counter, the records and the state |
| `Utf8`, `Outbox`, `Suite`, `Store` | what each operation computes, as functions from state to state |
| `RunStore` | the store as the program has it: a class whose methods update dictionaries, per-run lists and counters in place, one after the other, each proved to do exactly what the function of the same name says |
| `Delivery` | the whole system as a state machine: any API call at any moment, one worker in small steps, time passing, and a crash between any two steps |
| `WorkerLoop` | the worker as the program has it, proved to take exactly the machine's steps |
| `Indexing`, `History`, `Footprints`, `Runs` | lists index the records; nothing recorded is lost or rewritten; other runs are untouched |
| `Silence`, `Replay`, `Audit` | what each operation may write to the timeline; the timeline alone tells the state |
| `Ending`, `Approval`, `Launching`, `Trail` | stopping, approval gates, at-most-once execution, the approval chain |
| `Pending` | one command waits for approval, and exactly what breaks that |
| `Planning`, `Deciding` | the planner's proposals in the store: never a command again; the rendered command decides its check |
| `Provenance` | every approved change is answered by a backup record on file |
| `Readiness`, `Earning`, `Validation` | readiness is earned; a failed suite cannot heal |
| `Accounting`, `Submission`, `Asking`, `Transcript` | outbox attempts, submission to Phoenix, how often Phoenix is asked, stored output |
| `Planner`, `Renderer`, `Quoting`, `Safety`, `Backup` | the planner, its commands as the evaluator reads them, the scanners, the classification, the backup rules |

The functions of `Store` and `Delivery` are the specification: the rows below name the methods proved against them and the
lemmas about them. A *reachable state* is `After(p, Begin(limit, clock), actions)` for any list of actions whatever; an
action that is not possible when its turn comes does nothing, so every list is a history. `p: Policy` holds the text
analyses the store calls (classification, redaction, detectors) as arbitrary functions, so the theorems hold whatever
those do.

## Where the code departs from its documents

The model follows the code.

- One pending command: the architecture and agent documents under `docs/` allow a run one pending step. Retrying a run
  that awaits an approval leaves the awaited step proposed beside the next one (`Pending.RetryLeavesOneBehind`). So does a
  command of the run that completes meanwhile, unless it failed before it reached the host, which fails the run
  (`Pending.CompletionLeavesOneBehind`). Nothing else does (`Pending.StaysAloneExactly`). Four calls lead there from
  the start (`Pending.TwoCommandsWait`).
- Output after truncation: the live-terminal document under `docs/` says storing stops at the cap. A later piece whose
  first character still fits is stored (`Transcript.AddsIfFirstFits`; with a cap of two bytes, "a" after "€":
  `Transcript.StoredAfterTruncation`); it is three bytes at most (`Transcript.LittleAfterTruncation`).
- Rendered checks: the evaluator takes the log check of a unit such as `rsync` for a customer check, the restart check of
  a unit such as `my-journalctl` for a log check, and every check of a unit or URL that holds the word `reboot` for a
  reboot (`Renderer.MisreadUnits`), so completing the command rendered for such a check leaves the check pending
  (`Deciding.RenderedCommandsDecide`).
- Backups of another kind: the backup policy under `docs/` wants a file copied before it is edited. The gate compares the
  target and not the kind of the record (`Backup.GateComparesTargetsOnly`), so `stat` on `/etc/nginx/nginx.conf` opens it
  for `sed -i` on that file (`Backup.LookingOpensAnEdit`).
- Backups of secrets: a copy of a file whose name looks like a secret is not recognised as its backup
  (`Backup.CopiesAreARemedyUnlessSecret`), so no copy ever answers for an edit of `/etc/app/token.conf`
  (`Backup.NoCopyAnswersForTokens`).
- Restoring metadata: the restore command of a metadata snapshot joins two commands, so the safety layer always refuses it
  and the step that proposes it is always blocked (`Backup.MetadataRestoresAreBlocked`,
  `Provenance.MetadataIsNeverRestored`).

## Model

| member | source | states |
|---|---|---|
| Audit.TimelineTellsTheState | backend/app/run_store.py:314-1014 | after any history, folding a run's timeline from nothing yields exactly its status, its pending step, and the status of each of its expectations and of no others |
| Audit.AlwaysFaithful | backend/app/run_store.py:1588-1624 | the same for all runs at once, as an invariant of every history |
| Audit.NextFaithful | backend/app/run_store.py:1588-1624 | no call, worker step or crash lets timeline and records drift apart |
| Replay.CompleteExecutionAgrees | backend/app/run_store.py:852-1014 | completing a command writes timeline entries that tell precisely where it takes the run and which expectations it decides |
| Replay.EditAndApproveStepAgrees | backend/app/run_store.py:469-541 | an edit keeps records and timeline in agreement, also when a gate refuses after the edit was stored |
| Replay.RetryRunAgrees | backend/app/run_store.py:567-596 | a retry keeps records and timeline in agreement |
| Replay.MarkCompletedAgrees | backend/app/run_store.py:1256-1295 | completing a submission keeps records and timeline in agreement |
| Runs.EveryCallStaysInItsRun | backend/app/run_store.py:314-1212 | whatever an API operation does, and whether or not it raises: the per-run lists still index the records, nothing recorded is lost or rewritten, and all other runs' records, events, drafts, draft ids, byte counters and queued work are untouched |
| Runs.NextStaysInItsRun | backend/app/worker.py:65-171 | the same for every action of the worker other than claiming: processing, acknowledging or failing an event, or crashing, touches the run of the event in hand only |
| Runs.ClaimSparesTheRest | backend/app/run_store.py:670-709 | a claim, with all its recoveries, changes nothing of a run that has no stale event and whose event is not the one claimed |
| Runs.NextForward | backend/app/worker.py:65-171 | every action whatever, claiming and the passing of time included, keeps the lists in order and loses or rewrites no record |
| Runs.AlwaysIndexed | backend/app/run_store.py:268-312 | in every reachable state each per-run list is the strictly ascending list of exactly the ids whose record belongs to the run, all below the next id, and event ids increase along each timeline |
| Runs.HistoryIsKept | backend/app/run_store.py:1588-1624 | from any state on: timelines only grow at the end, ledgers, chunks and results are never rewritten, an approved step and a decided expectation never change, stored output only grows |
| Footprints.CompleteExecutionReaches | backend/app/run_store.py:852-1014 | completing a command touches its own run only and keeps all lists in order |
| Footprints.AppendChunkReaches | backend/app/run_store.py:782-850 | storing output touches its own run only and keeps all lists in order |
| Footprints.StartExecutionReaches | backend/app/run_store.py:741-780 | starting a command touches its own run only and keeps all lists in order |
| Footprints.ClaimNextKeeps | backend/app/run_store.py:670-709 | claiming, with all the recoveries it makes, keeps the lists in order and loses nothing |
| Tables.AddIndexed | backend/app/run_store.py:1363-1366 | storing a record under the next id keeps the list of its run ascending and complete |
| Tables.AddExtends | backend/app/run_store.py:1363-1366 | a run's records in list order gain exactly the new one, at the end |
| Tables.OtherRunsKept | backend/app/run_store.py:429-434 | adding or replacing one run's record does not show in another run's list |
| Launching.AtMostOncePerStep | backend/app/agent_graph.py:442-506 | under every interleaving of calls, crashes, recoveries and redeliveries the runner is called at most once for a step, and only with the approved, not blocked command of an approved step |
| Launching.ApprovalsStayCovered | backend/app/run_store.py:1470-1547 | every approved, executed or failed step has the command approved for it, an allowing verdict, a satisfying backup record of its own run if its command needs one, and recorded evidence if it is a changing fix |
| Launching.NextLaunches | backend/app/agent_graph.py:457-506 | every action keeps: one invocation per execution at most, none yet for one about to be launched |
| Approval.AlwaysVetted | backend/app/run_store.py:436-541 | in every reachable state steps satisfy their gates, every execution is of a granted step of its run with that step's command, and no step has two executions |
| Approval.NextVetted | backend/app/run_store.py:436-541 | no action breaks any of that |
| Trail.EveryExecutionWasApproved | backend/app/run_store.py:1368-1392 | every execution is preceded in its run's timeline, in increasing id order, by its step's proposal, an allowing classification of exactly the executed command, the approval, the execution request and the start |
| Trail.EveryGrantedStepWasCleared | backend/alembic/versions/20260607_0001_initial_run_store.py:38-69 | every approved step, executed or not, was proposed, then cleared for exactly the command it has now, then approved, then queued, in increasing id order, so the database's guard on approvals can never fire |
| Trail.AlwaysTraced | backend/app/run_store.py:741-780 | in every reachable state the timeline follows each step through these stages, and never ahead of the records |
| Trail.NextTraced | backend/app/run_store.py:741-780 | every action keeps that |
| Ending.StoppingIsFinal | backend/app/run_store.py:598-612 | once a run is aborted or submitted it stays so whatever follows, a submitted one stays submitted, no step is created in it and no execution starts in it |
| Ending.AbortEndsTheRun | backend/app/run_store.py:598-612 | an abort at any moment of any history, with planning, a command or a submission under way, ends the run for good |
| Ending.FinishMoves | backend/app/run_store.py:883-964 | completing a command of a run that was not submitted leaves it as it is if aborted, never ends it, and changes no other run |
| Pending.AwaitedIsWaiting | backend/app/run_store.py:1400-1406 | in every reachable state a run that awaits an approval names a step of its own that is on record and still only proposed |
| Pending.OneCommandWaits | backend/app/run_store.py:1340-1343 | at most one step of a run is proposed, if the run was never retried and no command of it completed while it awaited an approval |
| Pending.StaysAloneExactly | backend/app/run_store.py:567-596 | whatever anyone does next, a run with one waiting command keeps to one exactly if its awaited step is not abandoned in one of these two ways |
| Pending.RetryLeavesOneBehind | backend/app/run_store.py:586-587 | after retrying an awaiting run, the next command entered that is not blocked always waits beside the old one |
| Pending.CompletionLeavesOneBehind | backend/app/run_store.py:883-964 | after a command completes in an awaiting run, the next command entered that is not blocked waits beside the old one, unless the completed one failed before it reached the host: then the run is failed and takes no step |
| Pending.TwoCommandsWait | backend/app/run_store.py:567-596 | from the start of the system, a list of actions that ends with two commands waiting in one run |
| Validation.ReadinessIsEarned | backend/app/run_store.py:1963-1987 | a ready run is never refused; after a fix every check of the latest suite passed, each by a result of its own from an approved validation command of its own that ran after the fix, completed and exited with 0; without a fix there is no suite and some check passed |
| Validation.MissingSuiteMeansOver | backend/app/run_store.py:1821-1837 | a completed fix without a suite occurs only in aborted or submitted runs |
| Validation.FailedSuiteCannotHeal | backend/app/run_store.py:1821-1865 | once a check of the latest suite failed, a run becomes ready only if another, later fix completed in between |
| Validation.DecidedByItsOwnResult | backend/app/run_store.py:1839-1848 | decided checks map one-to-one to results of their run, type and outcome |
| Validation.NextHealthy | backend/app/run_store.py:852-964 | every action keeps the records sound and every ready run earned |
| Earning.FinishValidated | backend/app/run_store.py:852-964 | so does the completion of any command, the one operation that decides checks and makes runs ready |
| Suite.BuildSpecs | backend/app/run_store.py:2315-2330 | the loop with its set of seen keys yields the de-duplicated checks, or the catch-all check if there are none |
| Suite.SuiteKeyedByType | backend/app/run_store.py:2240-2330 | a suite is never empty and never has two checks of one type, so de-duplication drops nothing |
| Suite.TargetsNeverDecide | backend/app/run_store.py:2394-2413 | in such a suite a result always meets the one pending check of its type, whatever the targets say |
| Suite.Matching | backend/app/run_store.py:2394-2407 | the match is a pending check of the result's type, and there is none only if no such check is pending |
| Submission.SubmissionIsSafe | backend/app/run_store.py:1170-1324 | a run has at most one open request; it is submitted exactly if it has a completed one, which carries an activity id and a closed ticket and is the only one not given up |
| Submission.RecordedForGood | backend/app/worker.py:136-171 | once an activity id is recorded it never changes, Phoenix is never asked for that request again, and a completed request never changes |
| Submission.NoSecondActivity | backend/app/worker.py:147-158 | the same between any two moments of any history |
| Submission.RedeliveryDoesNothing | backend/app/worker.py:143-145 | redelivering a completed submission goes straight to its acknowledgement |
| Submission.NextFiled | backend/app/run_store.py:1170-1324 | every action keeps requests, their events and the worker's position in step |
| Accounting.AttemptsAreAccountedFor | backend/app/run_store.py:670-739 | attempts are failures plus recoveries plus one if the event is being processed or was acknowledged; failed means one or two attempts, given up at least three, and never more than three beyond the recoveries |
| Accounting.SettledForGood | backend/app/run_store.py:670-739 | a completed or given-up event is never delivered again |
| Accounting.BackoffIsTwoOrFour | backend/app/run_store.py:2022-2023 | a failed delivery that will be retried waits two or four seconds, never more |
| Asking.AsksAreBounded | backend/app/worker.py:136-158 | Phoenix is asked for the activity of a request at most as often as the request was attempted, which is at most as often as its event was delivered: three times, and once more for each time the worker was lost holding it |
| Asking.AlwaysTallied | backend/app/run_store.py:1215-1228 | in every reachable state asks, attempts and deliveries are tied together in this way, the one in hand included |
| Asking.NextTallied | backend/app/run_store.py:1215-1228 | every action keeps that |
| Outbox.FirstClaimable | backend/app/run_store.py:670-690 | the event claimed is the one with the least id among those pending or failed whose time has come, and there is none only if no such event exists |
| Transcript.TranscriptsAgree | backend/app/run_store.py:782-850 | for every execution: the counter is the encoded size of the aggregates and of the chunks, within the cap; chunks are numbered 1 to n and spell out the aggregates stream by stream; the truncation mark means exactly that something was dropped, then at most three bytes are unused, and the timeline says so exactly once |
| Transcript.LittleAfterTruncation | backend/app/run_store.py:797-805 | once something was dropped at most three more bytes are ever stored |
| Transcript.AddsIfFirstFits | backend/app/run_store.py:797-805 | a piece adds to the transcript exactly if its first character still fits |
| Transcript.StoredAfterTruncation | backend/app/run_store.py:797-850 | with a cap of two bytes the euro sign is dropped and marks the output truncated, and the letter sent after it is stored |
| Transcript.EmptyPieceIsMarked | backend/app/run_store.py:803-805 | the store marks an empty piece as truncation although nothing was dropped; the runner sends none, so this concerns the store on its own |
| Utf8.TruncateToBytes | backend/app/run_store.py:2115-2125 | the back-off loop keeps the longest run of whole code points that fits and reports a cut exactly if the encoding exceeds the limit, negative limits included |
| Utf8.FittingIsLongest | backend/app/run_store.py:2115-2125 | what is kept is a prefix, it fits, and no longer prefix does |
| Utf8.FittingWastesLittle | backend/app/run_store.py:2115-2125 | a cut leaves at most three bytes unused |
| Utf8.CutDecodes | backend/app/run_store.py:2119-2124 | cut bytes decode exactly at the last code-point boundary, so the loop cannot stop early or late |
| Utf8.BackOffIsShort | backend/app/run_store.py:2119-2124 | the loop drops at most three bytes |
| Utf8.RoundTrip | backend/app/run_store.py:2115-2125 | decoding an encoding gives the text back, for every text |
| Planner.NeverRepeats | backend/app/agent_graph.py:345-378 | for every history and every answer of the model, the proposed command differs canonically from every command completed since the latest successful fix, and from every completed one unless a required check of a validating run is pending |
| Planning.ProposedIsNew | backend/app/agent_graph.py:179-412 | the step the worker proposes after reading the store, whatever is called meanwhile, differs canonically from every execution of the run completed since its latest successful fix, and from every completed one unless a required check of a validating run is pending |
| Planning.PlannedIsNew | backend/app/agent_graph.py:179-412 | the same from any reachable state in which the worker takes up a planning event, for the choice made on the store as it was then, through reading the context and whatever is called before the proposal |
| Planning.ChosenDiffers | backend/app/agent_graph.py:345-378 | the choice made on the executions and checks as the store holds them differs from each of those |
| Planning.NothingRunsMeanwhile | backend/app/worker.py:95-115 | no command starts, sends output or completes while the planner thinks, so the choice is still new when it is proposed |
| Planner.NextStepIsNew | backend/app/agent_orchestrator.py:562-601 | the deterministic choice is never among the commands it has to avoid |
| Planner.ContinuationDiagnosticStep | backend/app/agent_orchestrator.py:964-1047 | the unbounded search for an untried command terminates on every input and returns the first untried candidate or window |
| Planner.SearchEnds | backend/app/agent_orchestrator.py:1035-1047 | the widening search skips only attempted windows and looks at no more than one window beyond the number of attempted commands |
| Planner.WindowsDiffer | backend/app/agent_orchestrator.py:1035-1047 | windows of different lengths are canonically different commands |
| Planner.DefaultIsIrrelevant | backend/app/agent_orchestrator.py:970-974 | the default taken for an empty set of attempted commands changes nothing on the paths that pass one |
| Planner.CommandsAttemptedSinceLatestFix | backend/app/agent_orchestrator.py:604-617 | the loop over the history finds the commands behind the latest successful fix |
| Planner.SinceLatestFixIs | backend/app/agent_orchestrator.py:604-617 | that part is a suffix without a successful fix, and what precedes it, if anything, ends with one |
| Planner.FirstUntried | backend/app/agent_orchestrator.py:1031-1033 | the candidate found is untried, and none is found only if all were tried |
| Renderer.HealthAgrees | backend/app/agent_orchestrator.py:1059-1067 | the rendered health check of any unit name without blank or slash is classified as one exactly if the name does not hold the word reboot; else as a reboot |
| Renderer.BenefitAgrees | backend/app/agent_orchestrator.py:1068-1077 | the rendered customer check of any http(s) URL without blanks is classified as one exactly if it does not hold the word reboot; else as a reboot |
| Renderer.LogsAgree | backend/app/agent_orchestrator.py:1078-1086 | the rendered log check is classified as a reboot exactly if the unit's name holds that word, else as a customer check exactly if it ends in curl, ss or nc, else as a log check |
| Renderer.RestartAgrees | backend/app/agent_orchestrator.py:1087-1098 | the rendered restart check is classified as a reboot exactly if the unit's name holds that word, else as a log check exactly if it contains journalctl, else as a restart check |
| Renderer.MisreadUnits | backend/app/run_store.py:2453-2467 | three units whose checks are taken for another type |
| Deciding.RenderedCheckDecidesItself | backend/app/run_store.py:2394-2413 | in a suite keyed by type, the result of the command rendered for a pending check picks that check exactly if the name is not one of the misread ones, whatever the output and the targets of the other checks |
| Deciding.RenderedCommandsDecide | backend/app/run_store.py:852-925 | in every reachable state, when the worker completes the command rendered for a pending check of the latest suite, however it ends: the check gets that command's result and its verdict if its name is read right, and stays as it was if it is misread |
| Quoting.ShellSyntaxBlockReason | backend/app/safety_layer.py:180-220 | the scanner reports the first fault of the line as the shell reads it (sections 2.2.1 to 2.2.3 of the POSIX Shell Command Language), although it treats backslashes in double quotes differently |
| Quoting.PassesIffSingle | backend/app/safety_layer.py:180-220 | it passes a line exactly if at no index there is an unquoted control operator, redirection, grouping or newline, or a substitution that single quotes or a backslash do not disarm |
| Quoting.UnquotedGlobTokens | backend/app/safety_layer.py:232-268 | the second scanner returns exactly the words holding an unquoted, unescaped glob character, in order |
| Quoting.MirrorStep | backend/app/safety_layer.py:180-220 | both scanners' flags follow one quoting automaton at every character |
| Quoting.GlobHasText | backend/app/safety_layer.py:240-246 | a word with a glob is never empty, so dropping empty words loses none |
| Safety.AllowedIsSingle | backend/app/safety_layer.py:82-140 | an allowed command is a single one, has no globs on sensitive paths, and expands no glob at all if its program changes files |
| Safety.OnlySingleCommandsRun | backend/app/agent_graph.py:479-506 | whatever is redelivered, the remote runner is only ever given single commands |
| Backup.SystemctlActionAndUnit | backend/app/backup_service.py:331-350 | the loop returns the first operand as the action and the last of the others as the unit, options and their values left aside |
| Backup.GateComparesTargetsOnly | backend/app/backup_service.py:252-265 | for any change that needs a backup and any command that made one: a made record opens the gate exactly if it names the same target, whatever its kind, and a planned one never does; an edit passes without its old content being kept exactly if the record came from `stat` or `systemctl show` |
| Backup.LookingOpensAnEdit | backend/app/backup_service.py:199-224 | the input at which it does: `stat` on a file, then `sed -i` on it |
| Provenance.ChangesAreAnswered | backend/app/run_store.py:1524-1547 | with requirements decided by the backup rules: in every reachable state each approved, executed or failed step that changes a file or a service has a record in its run naming exactly that target, which is a declaration that no backup applies or was detected in the output of a command of that run |
| Provenance.AlwaysSourced | backend/app/run_store.py:1883-1928 | in every reachable state each made backup was detected in a command of its own run, and carries what was detected |
| Provenance.NextSourced | backend/app/run_store.py:1883-1928 | every action keeps that |
| Backup.StateChangesHaveARemedy | backend/app/backup_service.py:54-81 | for every service state change, however it is written, showing the unit's state records a backup that satisfies the demand |
| Backup.CopiesAreARemedyUnlessSecret | backend/app/backup_service.py:226-249 | for every change to a file and every copy of that file to a backup place, however they are written, the copy is recognised as its backup exactly if the file is no whole tree and its name does not look like a secret |
| Backup.NoCopyAnswersForTokens | backend/app/backup_service.py:312-314 | a file whose edit needs a backup and none of whose copies is recognised as one |
| Backup.MetadataRestoresAreRefused | backend/app/backup_service.py:211-214 | the safety layer refuses the restore command of every metadata snapshot, whatever owner, group, mode and path it quotes |
| Backup.MetadataRestoresAreBlocked | backend/app/run_store.py:1082-1121 | so a step proposed to restore metadata is always blocked |
| Provenance.MetadataIsNeverRestored | backend/app/backup_service.py:199-224 | with detection and classification as in the program: in every reachable state, whatever step is proposed to restore what a look at metadata recorded is blocked |
| RunStore.Records.constructor | backend/app/run_store.py:268-312 | a kind of record starts with an empty dictionary, no lists and the id 1 |
| RunStore.Records.Store | backend/app/run_store.py:1363-1366 | takes the next id, moves the counter, and writes the dictionary and the list of the run |
| RunStore.Records.Replace | backend/app/run_store.py:429-434 | rewrites a record in the dictionary and leaves lists and counter alone |
| RunStore.Records.OpenRun | backend/app/run_store.py:314-350 | gives a run its empty list |
| RunStore.InMemoryRunStore.constructor | backend/app/run_store.py:268-312 | a new store is empty and in order |
| RunStore.InMemoryRunStore.CreateRun | backend/app/run_store.py:314-350 | opens a run with empty lists, awaiting its connection, in two timeline entries |
| RunStore.InMemoryRunStore.ApproveConnection | backend/app/run_store.py:358-381 | moves an awaiting run to investigating and asks for a plan, or raises and changes nothing |
| RunStore.InMemoryRunStore.CreateManualStep | backend/app/run_store.py:383-405 | withdraws queued planning, also if the step is then refused, and proposes the step |
| RunStore.InMemoryRunStore.CreateStep | backend/app/run_store.py:1326-1406 | classifies, stores and announces a step, plans its backup, and makes the run await it or carry on if it is blocked |
| RunStore.InMemoryRunStore.RecordBackupPlan | backend/app/run_store.py:1408-1460 | plans one backup per target and kind |
| RunStore.InMemoryRunStore.ApproveStep | backend/app/run_store.py:436-467 | approves a proposed step through both gates and queues it, or raises; a refusing gate leaves its timeline entry |
| RunStore.InMemoryRunStore.EditAndApproveStep | backend/app/run_store.py:469-541 | stores and classifies the edited command before the gates, and leaves it stored if they refuse |
| RunStore.InMemoryRunStore.AssertFixPolicy | backend/app/run_store.py:1470-1522 | the evidence gate's entry and its refusal |
| RunStore.InMemoryRunStore.AssertBackupRequirementSatisfied | backend/app/run_store.py:1524-1547 | the backup gate's entry and its refusal |
| RunStore.InMemoryRunStore.RejectStep | backend/app/run_store.py:543-565 | rejects a proposed step and lets the run carry on |
| RunStore.InMemoryRunStore.RetryRun | backend/app/run_store.py:567-596 | closes failed planning events one after the other and asks for a new plan |
| RunStore.InMemoryRunStore.AbortRun | backend/app/run_store.py:598-612 | aborts a run that goes on, and leaves one that is over |
| RunStore.InMemoryRunStore.AppendEvent | backend/app/run_store.py:648-668 | appends an informational entry to an existing run |
| RunStore.InMemoryRunStore.RecordBackupNotApplicable | backend/app/run_store.py:1044-1080 | records that no backup applies |
| RunStore.InMemoryRunStore.ProposeRestoreCommand | backend/app/run_store.py:1082-1121 | proposes a backup's restore command as a step of its run |
| RunStore.InMemoryRunStore.StartCommandExecution | backend/app/run_store.py:741-780 | starts the approved command of a step that is current and was never started, or raises |
| RunStore.InMemoryRunStore.AppendCommandOutputChunk | backend/app/run_store.py:782-850 | stores what fits under the cap, as the next chunk and in the aggregate, and marks a cut once |
| RunStore.InMemoryRunStore.CompleteCommandExecution | backend/app/run_store.py:852-1014 | settles execution, step, validation, run, follow-up work and ledgers, leaving an aborted run alone |
| RunStore.InMemoryRunStore.ConcludeValidation | backend/app/run_store.py:884-925 | records the result, decides its check, and moves the run by what the suite then amounts to |
| RunStore.InMemoryRunStore.CreateValidationExpectationsForFix | backend/app/run_store.py:1792-1819 | stores one pending check for each specification, in order |
| RunStore.InMemoryRunStore.ApplyValidationResultToSuite | backend/app/run_store.py:1821-1865 | decides the matching check of the latest suite and reports the suite's status |
| RunStore.InMemoryRunStore.RecordLedgersForCompletedCommand | backend/app/run_store.py:1670-1695 | records the sources and the backup found in a command's output |
| RunStore.InMemoryRunStore.RecordRestoreCompleted | backend/app/run_store.py:1930-1961 | notes the first backup whose restore command was run |
| RunStore.InMemoryRunStore.SaveActivityDraft | backend/app/run_store.py:1137-1168 | saves a complete, redacted draft of a ready run, or raises |
| RunStore.InMemoryRunStore.CreateActivityDraft | backend/app/run_store.py:1123-1135 | the same for a generated draft |
| RunStore.InMemoryRunStore.QueueActivitySubmission | backend/app/run_store.py:1170-1213 | returns the open request of a ready run or files a new one and queues it |
| RunStore.InMemoryRunStore.MarkIntegrationRequestProcessing | backend/app/run_store.py:1215-1228 | counts an attempt unless the request is completed |
| RunStore.InMemoryRunStore.MarkIntegrationActivityCreated | backend/app/run_store.py:1230-1254 | records the activity id |
| RunStore.InMemoryRunStore.MarkIntegrationRequestCompleted | backend/app/run_store.py:1256-1295 | completes the request and submits the run |
| RunStore.InMemoryRunStore.FailIntegrationRequest | backend/app/run_store.py:1297-1324 | fails or gives up a request; one whose activity exists stays there unless given up |
| RunStore.InMemoryRunStore.RecoverStaleOutboxEvents | backend/app/run_store.py:691-709 | the loop returns every event claimed over 120 seconds ago to the queue and notes each |
| RunStore.InMemoryRunStore.ClaimNextOutboxEvent | backend/app/run_store.py:670-689 | recovers, then claims the first event that is due |
| RunStore.InMemoryRunStore.CompleteOutboxEvent | backend/app/run_store.py:711-716 | acknowledges an event |
| RunStore.InMemoryRunStore.FailOutboxEvent | backend/app/run_store.py:718-739 | schedules a retry or gives up after the third attempt, and fails the request the event carried |
| WorkerLoop.Worker.ProcessNext | backend/app/worker.py:65-93 | one round without interruption claims, processes and then acknowledges or fails an event: exactly the machine's steps, taken one after the other |
| WorkerLoop.Worker.Process | backend/app/worker.py:95-115 | each kind of event takes its own script of machine steps |
| WorkerLoop.Worker.ProcessActivitySubmission | backend/app/worker.py:136-171 | take the request, create the activity unless known, record it, close the ticket, complete; any failure fails the request |
| WorkerLoop.Worker.ProcessCommandExecution | backend/app/agent_graph.py:442-477 | skip an aborted run, start the command, run it |
| WorkerLoop.Worker.RunCommand | backend/app/agent_graph.py:479-518 | hand the command to the runner, store each piece as it comes, complete the execution |
| WorkerLoop.Worker.ProcessAgentPlan | backend/app/agent_graph.py:179-412 | skip pointless planning, else build the context, remark, and propose one step, whose command is the planner's choice on the store as it is read, or break off |
| WorkerLoop.Worker.ProcessActivityDraft | backend/app/worker.py:131-134 | draft the activity |

## Left out

- The Postgres store, its transactions, triggers and unique indexes, and all routes, configuration, logging and user interface.
- Overlapping workers: there is one worker; it may crash at any point and is replaced by one that starts idle. With a slow worker still alive after its event was recovered, several of these theorems fail.
- A worker without a Phoenix client, which only fails its submission events.
- Outbox events without a run or of an unknown type; no operation of the store creates one.
- Timeline entries appended from outside the program: only the informational entries the worker writes are modelled.
- The connection gate as a bar to executing commands: a step may be entered and approved before the connection is approved (`backend/app/run_store.py:1340`); each command still needs its own approval.
- The redaction ledger and its counters, and the texts that only describe (actors, summaries, expected signals, notes, timeouts, durations, hosts, metadata of backups).
- The clock is one number that only waiting moves; an operation reads it once where the program reads it several times.
- The dictionary, the per-run lists and the counter of a kind of record are fields of an object of its own, a `Records`, and not of the store itself; the three are still written one after the other. The program replaces a record by assigning into the dictionary alone, as `Records.Replace` does.
- WorkerLoop.Worker.ProcessNext: one round of the worker program with nothing between its steps, the outside world's answers given beforehand; calls in between, crashes and passing time exist in the state machine only, where the theorems about histories take them into account.
- A step's snapshot inside the run is represented by its id; the record itself is always looked up, as the program does.
- Pattern tables, evidence and service detection, redaction, `shlex` and the language model are arbitrary functions; so is the tail of the risk classification.
- Transcript.TranscriptsAgree: assumes that redaction turns a text that is not empty into one that is not empty, and that the runner sends only standard output and standard error and no empty pieces; another stream name is refused by the store, which is modelled.
- Utf8.TruncateToBytes: texts with lone surrogates, which the program's encoder refuses, are not texts here.
- Planner.NeverRepeats: assumes that service names consist of characters the shell needs no quotes for, as the patterns that extract them require; the candidate that depends on the phase is an arbitrary function of the history, and the recovery branch for an error the deterministic planner never raises is not modelled.
- Planning.ProposedIsNew: makes the same assumption on service names.
- Deciding.RenderedCommandsDecide: covers the checks whose rendering is modelled, those of a named unit or URL, and takes the evaluator's classification to be the one of `Renderer`.
- Renderer.BenefitAgrees: covers targets that are URLs; the endpoint derived from the ticket for other targets is not modelled.
- Renderer.RestartAgrees: lower-casing, and what counts as part of a word next to reboot, are those of ASCII, as in the other three rendering results and in the names that look like secrets.
- Quoting.UnquotedGlobTokens: inside double quotes the words lose backslashes the shell would keep, as in the program; the choice of words is unaffected.
- Whether an idle run always has work queued: rejecting or blocking a step queues nothing, so progress is up to the technician.
