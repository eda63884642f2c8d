/** The deterministic planner never proposes a command again that it has seen completed, and always answers. */
module Planner {
  import opened Wrappers
  import opened Text

  /** A command of the run's history. */
  datatype Past = Past(command: string, isFix: bool, completed: bool, succeeded: bool)

  /** A required check as the planner sees it. */
  datatype Check = Check(required: bool, pending: bool, command: string)

  /**
   * What the planner reads off the ticket and the history: texts found by pattern matching, the phase-dependent
   * candidate, and the shell's canonical form of a line that is not plainly written.
   */
  datatype Reading = Reading(
    discovered: seq<Past> -> Option<string>,
    service: seq<Past> -> Option<string>,
    fallbackService: seq<Past> -> string,
    endpoint: string,
    candidate: seq<Past> -> string,
    requoted: string -> string)

  /** Service names come out of patterns that admit only safe characters. */
  ghost predicate SafeServices(a: Reading) { forall commands: seq<Past> :: SafeWord(a.fallbackService(commands)) }

  /** Splitting a line into words and joining them again; a line of safe words is its own canonical form. */
  function Canonical(a: Reading, command: string): string { if SafeLine(command) then command else a.requoted(command) }

  function Completed(commands: seq<Past>): seq<Past> {
    if commands == [] then [] else (if commands[0].completed then [commands[0]] else []) + Completed(commands[1..])
  }

  function Forms(a: Reading, commands: seq<Past>): set<string> { set c | c in commands :: Canonical(a, c.command) }

  function Attempted(a: Reading, commands: seq<Past>): set<string> { Forms(a, Completed(commands)) }

  predicate SuccessfulFix(c: Past) { c.isFix && c.succeeded }

  /** The part of a history after its latest successful fix. */
  function SinceLatestFix(completed: seq<Past>): seq<Past> {
    if completed == [] then []
    else if SuccessfulFix(completed[|completed| - 1]) then []
    else SinceLatestFix(completed[..|completed| - 1]) + [completed[|completed| - 1]]
  }

  lemma OneMore(completed: seq<Past>, index: nat)
    requires index < |completed|
    ensures SinceLatestFix(completed[..index + 1])
         == if SuccessfulFix(completed[index]) then [] else SinceLatestFix(completed[..index]) + [completed[index]]
  {
    assert completed[..index + 1][..index] == completed[..index];
  }

  /** The history after its latest successful fix, found by remembering the index of the latest one seen. */
  method CommandsAttemptedSinceLatestFix(a: Reading, commands: seq<Past>) returns (attempted: set<string>)
    ensures attempted == Forms(a, SinceLatestFix(Completed(commands)))
  {
    hide Forms, Completed, SuccessfulFix;
    var completed := Completed(commands);
    var latestFixIndex := -1;
    for index := 0 to |completed|
      invariant -1 <= latestFixIndex < index
      invariant completed[latestFixIndex + 1..index] == SinceLatestFix(completed[..index])
    {
      OneMore(completed, index);
      if SuccessfulFix(completed[index]) { latestFixIndex := index; }
    }
    assert completed[..|completed|] == completed;
    attempted := Forms(a, completed[latestFixIndex + 1..]);
  }

  /** It is the part behind the last successful fix: none in it, and what precedes it ends with one. */
  lemma {:induction false} SinceLatestFixIs(completed: seq<Past>)
    ensures var recent := SinceLatestFix(completed);
            && |recent| <= |completed| && recent == completed[|completed| - |recent|..]
            && (forall i :: 0 <= i < |recent| ==> !SuccessfulFix(recent[i]))
            && (|recent| < |completed| ==> SuccessfulFix(completed[|completed| - |recent| - 1]))
  {
    if completed != [] && !SuccessfulFix(completed[|completed| - 1]) {
      SinceLatestFixIs(completed[..|completed| - 1]);
    }
  }

  // ---- the widening search -----------------------------------------------------------------------

  const STEP_MINUTES := 15

  function Since(minutes: nat): string { "-" + Decimal(minutes) + "min" }

  function Window(service: string, minutes: nat): string {
    "journalctl -u" + " " + service + " " + "--since" + " " + Since(minutes) + " " + "--no-pager -n 200"
  }

  lemma FixedPartsSafe()
    ensures SafeLine("journalctl -u") && SafeLine("--since") && SafeLine("--no-pager -n 200")
  {
  }

  lemma WindowSafe(service: string, minutes: nat)
    requires SafeWord(service)
    ensures SafeLine(Window(service, minutes))
  {
    FixedPartsSafe();
    var a := "journalctl -u" + " " + service;
  }

  lemma SameMiddle(a: string, x: string, y: string, b: string)
    requires a + x + b == a + y + b
    ensures x == y
  {
    assert |x| == |y|;
    assert (a + x + b)[|a|..|a| + |x|] == x && (a + y + b)[|a|..|a| + |y|] == y;
  }

  /** Different windows are different commands, canonically too. */
  lemma WindowsDiffer(a: Reading, service: string, m: nat, n: nat)
    requires SafeWord(service) && Canonical(a, Window(service, m)) == Canonical(a, Window(service, n))
    ensures m == n
  {
    WindowSafe(service, m);
    WindowSafe(service, n);
    hide SafeLine, SafeWord, Decimal;
    var before := "journalctl -u" + " " + service + " " + "--since" + " ";
    Regroup(before, Since(m), " ", "--no-pager -n 200");
    Regroup(before, Since(n), " ", "--no-pager -n 200");
    SameMiddle(before, Since(m), Since(n), " " + "--no-pager -n 200");
    SameMiddle("-", Decimal(m), Decimal(n), "min");
    DecimalInjective(m, n);
  }

  lemma Regroup(a: string, b: string, c: string, d: string)
    ensures a + b + c + d == a + b + (c + d)
  {
  }

  /** The first window that is not among the commands still to be reckoned with. */
  function FirstWindow(a: Reading, service: string, minutes: nat, remaining: set<string>): nat
    decreases |remaining|
  {
    var form := Canonical(a, Window(service, minutes));
    if form !in remaining then minutes else FirstWindow(a, service, minutes + STEP_MINUTES, remaining - {form})
  }

  /** The search is over after at most one more window than there are commands, and skips only attempted ones. */
  lemma {:induction false} FirstWindowIs(a: Reading, service: string, minutes: nat,
      remaining: set<string>) returns (k: nat)
    requires SafeWord(service)
    ensures k <= |remaining| && FirstWindow(a, service, minutes, remaining) == minutes + STEP_MINUTES * k
    ensures Canonical(a, Window(service, minutes + STEP_MINUTES * k)) !in remaining
    ensures forall j: nat :: j < k ==> Canonical(a, Window(service, minutes + STEP_MINUTES * j)) in remaining
    decreases |remaining|
  {
    hide Canonical, Window, SafeWord;
    var form := Canonical(a, Window(service, minutes));
    k := 0;
    if form in remaining {
      var next := minutes + STEP_MINUTES;
      var rest := FirstWindowIs(a, service, next, remaining - {form});
      k := rest + 1;
      assert minutes + STEP_MINUTES * k == next + STEP_MINUTES * rest;
      if Canonical(a, Window(service, minutes + STEP_MINUTES * k)) == form {
        WindowsDiffer(a, service, minutes + STEP_MINUTES * k, minutes);
      }
      forall j: nat | j < k ensures Canonical(a, Window(service, minutes + STEP_MINUTES * j)) in remaining {
        if j > 0 {
          var i: nat := j - 1;
          assert minutes + STEP_MINUTES * j == next + STEP_MINUTES * i;
        }
      }
    }
  }

  function FirstUntried(a: Reading, candidates: seq<string>, attempted: set<string>): (found: Option<string>)
    ensures found.Some? ==> found.value in candidates && Canonical(a, found.value) !in attempted
    ensures found.None? ==> forall c :: c in candidates ==> Canonical(a, c) in attempted
  {
    if candidates == [] then None
    else if Canonical(a, candidates[0]) !in attempted then Some(candidates[0])
    else FirstUntried(a, candidates[1..], attempted)
  }

  function StartMinutes(attempted: set<string>): nat {
    var wide := (|attempted| + 1) * STEP_MINUTES;
    if wide > 30 then wide else 30
  }

  function WideCandidates(service: string, endpoint: string): seq<string> {
    ["systemctl cat " + service,
     "systemctl show " + service
       + " --property=LoadState,ActiveState,SubState,UnitFileState,ExecStart,Restart,NRestarts,Result --no-pager",
     "systemctl list-dependencies " + service + " --all --no-pager",
     "ss -H -ltnp",
     "curl -fsS " + endpoint,
     "journalctl -u " + service + " --since -15min --no-pager -n 200"]
  }

  /** What the continuation proposes for a set of attempted commands. */
  function Widened(a: Reading, service: string, attempted: set<string>): string {
    var untried := FirstUntried(a, WideCandidates(service, a.endpoint), attempted);
    if untried.Some? then untried.value
      else Window(service, FirstWindow(a, service, StartMinutes(attempted), attempted))
  }

  /** An empty set of attempted commands stands for all completed ones. */
  function OrCompleted(a: Reading, commands: seq<Past>, attempted: set<string>): set<string> {
    if attempted == {} then Attempted(a, commands) else attempted
  }

  function Continuation(a: Reading, commands: seq<Past>, attempted: set<string>): string {
    Widened(a, a.fallbackService(commands), OrCompleted(a, commands, attempted))
  }

  /** The search as the program runs it: an unbounded loop over ever wider windows. */
  method ContinuationDiagnosticStep(a: Reading, commands: seq<Past>, given: set<string>) returns (command: string)
    requires SafeServices(a)
    ensures command == Continuation(a, commands, given)
  {
    hide Window, Canonical, WideCandidates, SafeWord, OrCompleted;
    var attempted := OrCompleted(a, commands, given);
    var service := a.fallbackService(commands);
    var candidates := WideCandidates(service, a.endpoint);
    for i := 0 to |candidates|
      invariant FirstUntried(a, candidates, attempted) == FirstUntried(a, candidates[i..], attempted)
    {
      if Canonical(a, candidates[i]) !in attempted { return candidates[i]; }
      assert candidates[i..][1..] == candidates[i + 1..];
    }
    var minutes: nat := StartMinutes(attempted);
    ghost var remaining := attempted;
    while true
      invariant FirstWindow(a, service, minutes, remaining) ==
        FirstWindow(a, service, StartMinutes(attempted), attempted)
      invariant remaining <= attempted
      invariant forall form :: form in attempted && form !in remaining ==>
        exists m: nat :: m < minutes && form == Canonical(a, Window(service, m))
      decreases |remaining|
    {
      var candidate := Window(service, minutes);
      var form := Canonical(a, candidate);
      if form !in attempted { return candidate; }
      if form !in remaining {
        var m: nat :| m < minutes && form == Canonical(a, Window(service, m));
        WindowsDiffer(a, service, m, minutes);
      }
      remaining := remaining - {form};
      minutes := minutes + STEP_MINUTES;
    }
  }

  // ---- choosing the next step --------------------------------------------------------------------

  function PendingCommands(checks: seq<Check>): seq<string> {
    if checks == [] then []
    else (if checks[0].required && checks[0].pending then [checks[0].command] else []) + PendingCommands(checks[1..])
  }

  function NextUntriedValidation(a: Reading, checks: seq<Check>, attempted: set<string>): string {
    var untried := FirstUntried(a, PendingCommands(checks), attempted);
    if untried.Some? then untried.value else Continuation(a, [], attempted)
  }

  function Status(service: string): string { "systemctl status " + service + " --no-pager" }

  function ServiceCandidates(service: Option<string>): seq<string> {
    (if service.Some? then [Status(service.value), "journalctl -u " + service.value + " --no-pager -n 80"] else [])
    + ["systemctl list-units --type=service --state=running --no-pager", "ps -eo pid,comm,args --sort=comm",
       "systemctl list-sockets --all --no-pager", "systemctl list-unit-files --type=service --no-pager"]
  }

  function Discovered(a: Reading, commands: seq<Past>): seq<string> {
    if a.discovered(commands).Some? then [Status(a.discovered(commands).value)] else []
  }

  function NextUntriedDiagnostic(a: Reading, commands: seq<Past>, attempted: set<string>): string {
    var untried := FirstUntried(a, Discovered(a, commands) + ServiceCandidates(a.service(commands)), attempted);
    if untried.Some? then untried.value else Continuation(a, commands, attempted)
  }

  /** The step chosen when no required check of a validating run is pending. */
  function NextDiagnostic(a: Reading, commands: seq<Past>): string {
    var attempted := Attempted(a, commands);
    var untried := FirstUntried(a, Discovered(a, commands) + [a.candidate(commands)], attempted);
    if untried.Some? then untried.value else NextUntriedDiagnostic(a, commands, attempted)
  }

  predicate SuitePending(validating: bool, checks: seq<Check>) { validating && PendingCommands(checks) != [] }

  function DeterministicNextStep(a: Reading, validating: bool, checks: seq<Check>, commands: seq<Past>): string {
    if SuitePending(validating, checks) then
      var attempted := Forms(a, SinceLatestFix(Completed(commands)));
      var first := PendingCommands(checks)[0];
      if Canonical(a, first) !in attempted then first else NextUntriedValidation(a, checks, attempted)
    else NextDiagnostic(a, commands)
  }

  /** What the planner must not repeat. */
  function Excluded(a: Reading, validating: bool, checks: seq<Check>, commands: seq<Past>): set<string> {
    if SuitePending(validating, checks) then Forms(a, SinceLatestFix(Completed(commands))) else Attempted(a, commands)
  }

  predicate Repeated(a: Reading, command: string, commands: seq<Past>) { Canonical(a, command) in Forms(a, commands) }

  /** The proposal: the model's step if it gave a usable one, unless the command was run before. */
  function Proposal(a: Reading, model: Option<string>, validating: bool, checks: seq<Check>,
      commands: seq<Past>): string {
    var chosen := if model.Some? then model.value else DeterministicNextStep(a, validating, checks, commands);
    if Repeated(a, chosen, commands) then DeterministicNextStep(a, validating, checks, commands) else chosen
  }

  // ---- never twice -------------------------------------------------------------------------------

  /** Whatever set was passed, on these call paths the default for an empty set changes nothing. */
  lemma DefaultIsIrrelevant(a: Reading, commands: seq<Past>)
    ensures OrCompleted(a, commands, Attempted(a, commands)) == Attempted(a, commands)
    ensures forall attempted :: OrCompleted(a, [], attempted) == attempted
  {
    assert Attempted(a, []) == {};
  }

  lemma ContinuationIsNew(a: Reading, commands: seq<Past>, attempted: set<string>)
    requires SafeServices(a) && OrCompleted(a, commands, attempted) == attempted
    ensures Canonical(a, Continuation(a, commands, attempted)) !in attempted
  {
    hide FirstUntried, FirstWindow, Window, Canonical, WideCandidates, SafeWord;
    var k := FirstWindowIs(a, a.fallbackService(commands), StartMinutes(attempted), attempted);
  }

  lemma NextStepIsNew(a: Reading, validating: bool, checks: seq<Check>, commands: seq<Past>)
    requires SafeServices(a)
    ensures Canonical(a, DeterministicNextStep(a, validating, checks, commands)) !in Excluded(a, validating, checks,
      commands)
  {
    hide Continuation, Canonical, Forms, SinceLatestFix, Completed, ServiceCandidates, SafeServices;
    DefaultIsIrrelevant(a, commands);
    if SuitePending(validating, checks) {
      ContinuationIsNew(a, [], Excluded(a, validating, checks, commands));
    } else {
      ContinuationIsNew(a, commands, Attempted(a, commands));
    }
  }

  lemma {:induction false} CompletedIn(commands: seq<Past>)
    ensures forall c :: c in Completed(commands) <==> c in commands && c.completed
  {
    if commands != [] { CompletedIn(commands[1..]); }
  }

  lemma ExcludedWereRun(a: Reading, validating: bool, checks: seq<Check>, commands: seq<Past>)
    ensures Excluded(a, validating, checks, commands) <= Forms(a, commands)
  {
    CompletedIn(commands);
    SinceLatestFixIs(Completed(commands));
    var recent := SinceLatestFix(Completed(commands));
    assert forall c :: c in recent ==> c in Completed(commands);
  }

  lemma ProposalIsNew(a: Reading, model: Option<string>, validating: bool, checks: seq<Check>, commands: seq<Past>)
    requires SafeServices(a)
    ensures Canonical(a, Proposal(a, model, validating, checks, commands)) !in Excluded(a, validating, checks, commands)
  {
    hide DeterministicNextStep, Canonical, SafeServices, Excluded, Forms;
    NextStepIsNew(a, validating, checks, commands);
    ExcludedWereRun(a, validating, checks, commands);
  }

  /**
   * For every history and whatever the model answers, the proposed command is canonically different from every command
   * completed since the latest successful fix, and from every completed command unless a required check of a validating
   * run is pending.
   */
  lemma NeverRepeats(a: Reading, model: Option<string>, validating: bool, checks: seq<Check>, commands: seq<Past>)
    requires SafeServices(a)
    ensures forall c :: c in SinceLatestFix(Completed(commands)) ==>
      Canonical(a, Proposal(a, model, validating, checks, commands)) != Canonical(a, c.command)
    ensures !SuitePending(validating, checks) ==> forall c :: c in commands && c.completed ==>
      Canonical(a, Proposal(a, model, validating, checks, commands)) != Canonical(a, c.command)
  {
    hide DeterministicNextStep, Canonical, SafeServices, PendingCommands, Proposal, Completed, SinceLatestFix;
    ProposalIsNew(a, model, validating, checks, commands);
    CompletedIn(commands);
    SinceLatestFixIs(Completed(commands));
    assert forall c :: c in SinceLatestFix(Completed(commands)) ==> c in Completed(commands);
  }

  function WindowAt(start: nat, k: nat): nat { start + STEP_MINUTES * k }

  /** The widening loop looks at no more than one window more than there are attempted commands. */
  lemma SearchEnds(a: Reading, service: string, attempted: set<string>)
    requires SafeWord(service)
    ensures var start := StartMinutes(attempted);
            exists k: nat :: k <= |attempted| && FirstWindow(a, service, start, attempted) == WindowAt(start, k)
              && forall j: nat :: j < k ==> Canonical(a, Window(service, WindowAt(start, j))) in attempted
  {
    hide Canonical, Window, FirstWindow, SafeWord;
    var start := StartMinutes(attempted);
    var k := FirstWindowIs(a, service, start, attempted);
    assert FirstWindow(a, service, start, attempted) == WindowAt(start, k);
    forall j: nat | j < k ensures Canonical(a, Window(service, WindowAt(start, j))) in attempted { }
  }
}
