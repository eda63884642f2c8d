/** Records of the run store (backend/app/schemas.py) and the whole state it keeps in memory. */
module Model {
  import opened Wrappers
  import opened Tables

  datatype RunStatus =
    | AwaitingConnectionApproval | Investigating | Planning | AwaitingStepApproval | Executing | Fixing
    | Validating | ReadyForActivity | Submitted | Aborted | Failed

  datatype StepStatus = Proposed | Approved | Rejected | Blocked | Executed | Failed

  datatype ExecutionStatus = Running | Completed | Failed | TimedOut

  datatype CheckStatus = Pending | Passed | Failed

  datatype OutboxStatus = Pending | Processing | Completed | Failed | DeadLetter

  datatype RequestStatus = Pending | Processing | ActivityCreated | Completed | Failed | DeadLetter

  /** The phase is free text in the source; only three values are ever tested for. */
  datatype Phase = Fix | Validation | Restore | OtherPhase(name: string)

  datatype Origin = Manual | Agent | FromBackup

  datatype Risk = ReadOnly | LowRisk | MediumRisk | BlockedRisk

  datatype Verdict = Verdict(blocked: bool, risk: Risk)

  datatype CheckType =
    | ServiceHealth
    | CustomerBenefit
    | LogsClean
    | Persistence
    | PublicValidation
    | Reboot
    | OtherCheck

  datatype BackupKind = FileCopy | MetadataSnapshot | ServiceState | ConfigDump | NotApplicable

  datatype Requirement = Requirement(required: bool, path: Option<string>, kind: BackupKind)

  datatype Supports = RootCause | FixChoice | OtherSupport

  datatype Stream = Stdout | Stderr | OtherStream(name: string)

  datatype PlanReason =
    | ConnectionApproval | RetryRequested | ValidationFailed | SuiteIncomplete | FixCompleted
    | ObservationRecorded | CommandFailure

  /** An activity draft: its ticket and the five sections Phoenix requires. */
  datatype Draft = Draft(ticketId: int, sections: seq<string>)

  datatype Run = Run(ticketId: int, snapshot: string, status: RunStatus, pending: Option<nat>, draft: Option<Draft>)

  datatype Step = Step(
    origin: Origin, phase: Phase, command: string, purpose: string, risk: Risk, blocked: bool,
    status: StepStatus, approvedCommand: Option<string>)

  datatype Execution = Execution(
    stepId: nat, command: string, status: ExecutionStatus, limit: nat, truncated: bool, finished: bool,
    exitCode: Option<int>, error: Option<string>, stdout: string, stderr: string)

  datatype Chunk = Chunk(executionId: nat, sequence: nat, stream: Stream, content: string, redacted: bool)

  datatype Source = Source(executionId: nat, supports: Supports, redacted: bool, detail: string)

  datatype ValidationResult = ValidationResult(executionId: nat, checkType: CheckType, target: Option<string>,
    passed: bool)

  datatype Expectation = Expectation(
    fixId: nat, checkType: CheckType, target: Option<string>, required: bool, status: CheckStatus,
      resultId: Option<nat>)

  datatype BackupRecord = BackupRecord(
    executionId: Option<nat>, path: Option<string>, kind: BackupKind, restoreCommand: Option<string>,
    required: bool, created: bool)

  datatype IntegrationRequest = IntegrationRequest(
    ticketId: int, draftId: Option<nat>, payload: Draft, status: RequestStatus,
    activityId: Option<int>, ticketDone: bool, attempts: nat)

  datatype Job = Plan(reason: PlanReason) | Execute(stepId: nat) | DraftActivity(resultId: nat) | Submit(requestId: nat)

  datatype OutboxEvent = OutboxEvent(
    run: nat, job: Job, status: OutboxStatus, attempts: nat, availableAt: Option<int>, claimedAt: Option<int>)

  datatype Queue = Queue(events: map<nat, OutboxEvent>, next: nat)

  /** What a timeline entry says: its event type together with the payload fields that matter. */
  datatype Body =
    | RunCreated(ticketId: int)
    | ConnectionRequested
    | ConnectionApproved
    | PlanRequested(reason: PlanReason)
    | DraftRequested(resultId: nat)
    | ManualStepEntered(stepId: nat)
    | StepProposed(stepId: nat, phase: Phase)
    | SafetyClassified(stepId: nat, command: string, allowed: bool, edited: bool)
    | StepApproved(stepId: nat, command: string)
    | StepEditedAndApproved(stepId: nat, command: string)
    | StepRejected(stepId: nat)
    | ExecutionRequested(stepId: nat)
    | CommandStarted(stepId: nat, executionId: nat, command: string)
    | OutputChunk(executionId: nat, sequence: nat)
    | OutputTruncated(executionId: nat)
    | CommandFinished(stepId: nat, executionId: nat, status: ExecutionStatus, exitCode: Option<int>,
                      stdout: string, stderr: string, error: Option<string>)
    | FixBlocked(stepId: nat)
    | FixVerified(stepId: nat)
    | BackupPlanned(recordId: nat)
    | BackupNotApplicable(recordId: nat)
    | BackupApprovalRequested(stepId: nat)
    | BackupCreated(recordId: nat)
    | RestoreProposed(recordId: nat, stepId: nat)
    | BackupRestored(recordId: nat, executionId: nat)
    | SourceDetected(sourceId: nat)
    | SourceRedacted(sourceId: nat)
    | ValidationRecorded(resultId: nat, passed: bool)
    | SuiteMissing(resultId: nat)
    | ExpectationUpdated(expectationId: nat, resultId: nat, verdict: CheckStatus)
    | SuitePassed(resultId: nat)
    | SuiteRequired(stepId: nat, executionId: nat, expectationIds: seq<nat>)
    | ValidationRequired(stepId: nat, executionId: nat)
    | DraftSaved(draftId: nat, edited: bool)
    | SubmissionRequested(requestId: nat)
    | ActivityRecorded(requestId: nat, activityId: int)
    | ActivitySubmitted(requestId: nat)
    | TicketUpdated(requestId: nat)
    | IntegrationFailed(requestId: nat, outcome: RequestStatus)
    | OutboxRecovered(outboxId: nat)
    | RunRetried
    | RunAborted
    | Informational(name: string)

  datatype Event = Event(id: nat, body: Body)

  datatype Timeline = Timeline(events: map<nat, seq<Event>>, next: nat)
  {
    function Of(run: nat): seq<Event> { if run in events then events[run] else [] }
  }

  datatype State = State(
    limit: nat,
    clock: int,
    runs: map<nat, Run>,
    nextRun: nat,
    timeline: Timeline,
    queue: Queue,
    steps: Table<Step>,
    executions: Table<Execution>,
    chunks: Table<Chunk>,
    storedBytes: map<nat, nat>,
    sources: Table<Source>,
    results: Table<ValidationResult>,
    expectations: Table<Expectation>,
    backups: Table<BackupRecord>,
    drafts: map<nat, Draft>,
    draftIds: map<nat, nat>,
    nextDraft: nat,
    requests: Table<IntegrationRequest>)

  /** Facts the suite builder extracts from the ticket, the command and the step's purpose. */
  datatype SuiteFacts = SuiteFacts(
    service: Option<string>, endpoint: string, persistence: bool, serviceAction: bool,
    customerFacing: bool, publicCommand: Option<string>)

  datatype DetectedSource = DetectedSource(supports: Supports, redacted: bool, detail: string)

  datatype DetectedBackup = DetectedBackup(path: string, kind: BackupKind, restoreCommand: string)

  /**
   * The text analyses the store calls: safety classification, redaction and the detectors.
   * Everything proved about the store holds whatever these functions are.
   */
  datatype Policy = Policy(
    classify: string -> Verdict,
    requirement: (string, Risk) -> Requirement,
    restorePlan: (nat, int, Requirement) -> Option<string>,
    targetedBackup: string -> bool,
    serviceTarget: string -> Option<string>,
    relatedServices: (string, seq<Source>) -> set<string>,
    redact: string -> (string, bool),
    detectSources: (string, string, string, string, Phase, bool) -> seq<DetectedSource>,
    detectBackup: (string, string) -> Option<DetectedBackup>,
    suiteFacts: (string, string, string) -> SuiteFacts,
    checkType: string -> CheckType,
    checkTarget: (string, CheckType) -> Option<string>,
    sameTarget: (string, string) -> bool,
    outputPasses: (CheckType, string) -> bool,
    redactDraft: Draft -> Draft)

  /** Why an operation raised. */
  datatype StoreError =
    | RunNotFound | StepNotInRun | ExecutionNotInRun | RequestNotInRun | RecordNotInRun
    | ConnectionNotPending | TerminalRun | StepAlreadyPending | NotAwaitingApproval | NotProposed | StepBlocked
    | EditBlocked | FixNeedsEvidence | UnrelatedService | BackupMissing | NotExecutable | StaleStep
    | AlreadyExecuted | BadStream | NoRestoreCommand | SuiteFailedEarlier | SuiteNotPassed | RunNotReady
    | WrongTicket | MissingSections | NoDraft

  /** The state an operation leaves, raising or not, and what it returned. */
  datatype Reply<+T> = Reply(state: State, result: Result<T, StoreError>)
}
