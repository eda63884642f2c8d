/** The decision pipeline that classifies a command, around the two scanners. */
module Safety {
  import opened Wrappers
  import opened Text
  import opened Model
  import opened Quoting
  import opened Delivery
  import Launching

  /** The pattern tables and the shell's word splitting, which stay opaque. */
  datatype Rules = Rules(
    blocks: string -> bool,
    split: string -> Option<seq<string>>,
    sensitivePath: string -> bool,
    archives: (string, seq<string>) -> bool,
    risk: (string, seq<string>) -> Risk)

  function StripLeft(s: string): string { if s != "" && IsSpace(s[0]) then StripLeft(s[1..]) else s }

  function StripRight(s: string): string { if s != "" && IsSpace(s[|s| - 1]) then StripRight(s[..|s| - 1]) else s }

  function Strip(s: string): string { StripRight(StripLeft(s)) }

  /** The part behind the last slash. */
  function BaseName(s: string): string {
    if s == "" then "" else if s[|s| - 1] == '/' then "" else BaseName(s[..|s| - 1]) + [s[|s| - 1]]
  }

  function WithoutSudo(parts: seq<string>): seq<string> {
    if |parts| >= 3 && BaseName(parts[0]) == "sudo" && (parts[1] == "-n" || parts[1] == "--non-interactive")
      then parts[2..] else parts
  }

  predicate Mutating(executable: string) {
    executable in ["chmod", "chown", "cp", "install", "mkdir", "mv", "rm", "sed", "tee", "touch", "truncate"]
  }

  predicate UnsafeGlobbing(r: Rules, command: string, executable: string) {
    var globs := GlobWords(command, 0);
    globs != [] && (Mutating(executable) || exists k :: 0 <= k < |globs| && r.sensitivePath(globs[k]))
  }

  const BLOCKED := Verdict(true, BlockedRisk)

  function Classify(r: Rules, command: string): Verdict {
    var stripped := Strip(command);
    if stripped == "" then BLOCKED
    else if r.blocks(stripped) then BLOCKED
    else if FirstFault(stripped, 0).Some? then BLOCKED
    else
      match r.split(stripped)
      case None => BLOCKED
      case Some(words) =>
        if words == [] then BLOCKED
        else
          var parts := WithoutSudo(words);
          var executable := BaseName(parts[0]);
          if UnsafeGlobbing(r, stripped, executable) then BLOCKED
          else if r.archives(executable, parts) then BLOCKED
          else Verdict(false, r.risk(executable, parts))
  }

  /** An allowed command is one simple command, and if it changes files it expands no globs. */
  lemma AllowedIsSingle(r: Rules, command: string)
    requires !Classify(r, command).blocked
    ensures SingleCommand(Strip(command)) && !r.blocks(Strip(command))
    ensures var globs := GlobWords(Strip(command), 0);
            && (forall k :: 0 <= k < |globs| ==> !r.sensitivePath(globs[k]))
            && (globs != [] ==>
                  r.split(Strip(command)).Some?
                  && !Mutating(BaseName(WithoutSudo(r.split(Strip(command)).value)[0])))
  {
    hide Fault, HarmlessAt, GlobWords, Strip, BaseName, WithoutSudo;
    PassesIffSingle(Strip(command));
  }

  /** In every run of the system, whatever is redelivered, the runner only ever gets single commands. */
  lemma OnlySingleCommandsRun(p: Policy, r: Rules, limit: nat, clock: int, actions: seq<Action>, i: nat)
    requires forall command: string :: p.classify(command) == Classify(r, command)
    requires i < |After(p, Begin(limit, clock), actions).invocations|
    ensures SingleCommand(Strip(After(p, Begin(limit, clock), actions).invocations[i].command))
  {
    hide After, Classify, SingleCommand, Strip;
    Launching.AtMostOncePerStep(p, limit, clock, actions);
    var v := After(p, Begin(limit, clock), actions).invocations[i];
    assert p.classify(v.command) == Classify(r, v.command);
    AllowedIsSingle(r, v.command);
  }
}
