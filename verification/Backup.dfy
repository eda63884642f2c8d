/** Which commands need a backup first, which commands make one, and that the second satisfy the first. */
module Backup {
  import opened Wrappers
  import opened Text
  import opened Model
  import opened Store
  import opened Quoting
  import opened Safety

  /** Path and output patterns, and what is read off a command's output, which stay opaque. */
  datatype Patterns = Patterns(
    isPath: string -> bool,
    suffix: string -> bool,
    stateSnapshot: string -> bool,
    metadata: string -> bool,
    difference: string -> bool,
    owner: string -> string,
    group: string -> string,
    mode: string -> string,
    otherRestore: (string, BackupKind, string) -> string)

  datatype Detected = Detected(path: string, kind: BackupKind)

  predicate BackupPath(path: string) {
    StartsWith(path, "/var/backups/techbold-autopilot/") || StartsWith(path, "/tmp/techbold-autopilot-backups/")
  }

  predicate Persistent(path: string) {
    (StartsWith(path, "/etc/") || StartsWith(path, "/srv/") || StartsWith(path, "/var/www/")
      || StartsWith(path, "/opt/")) && !BackupPath(path)
  }

  function WithoutSlashes(path: string): string {
    if path != "" && path[|path| - 1] == '/' then WithoutSlashes(path[..|path| - 1]) else path
  }

  /** Whole trees that are never copied. */
  predicate Broad(path: string) { WithoutSlashes(path) in ["/", "/etc", "/home", "/var", "/srv"] }

  const SECRET_MARKS := [".env", "id_rsa", "id_ed25519", "private_key", "credential", "token"]

  /** Files that are not copied because their name looks like a secret. */
  predicate Secret(path: string) { exists i :: 0 <= i < |SECRET_MARKS| && Contains(Lower(path), SECRET_MARKS[i]) }

  function Paths(q: Patterns, parts: seq<string>): seq<string> {
    if parts == [] then [] else (if q.isPath(parts[0]) then [parts[0]] else []) + Paths(q, parts[1..])
  }

  function FirstPersistent(paths: seq<string>): (found: Option<string>)
    ensures found.Some? ==> found.value in paths && Persistent(found.value)
    ensures found.None? ==> forall path :: path in paths ==> !Persistent(path)
  {
    if paths == [] then None else if Persistent(paths[0]) then Some(paths[0]) else FirstPersistent(paths[1..])
  }

  // ---- action and unit ---------------------------------------------------------------------------

  predicate TakesValue(part: string) { part == "-p" || part == "--property" }

  predicate IsOption(part: string) { StartsWith(part, "-") }

  /** The words that are neither options nor the value of one. */
  function Operands(parts: seq<string>): seq<string> {
    if parts == [] then []
    else if TakesValue(parts[0]) then (if |parts| == 1 then [] else Operands(parts[2..]))
    else if IsOption(parts[0]) then Operands(parts[1..])
    else [parts[0]] + Operands(parts[1..])
  }

  /** The first operand is the action, the last of the others the unit. */
  function ActionAndUnit(operands: seq<string>): (Option<string>, Option<string>) {
    if operands == [] then (None, None)
    else if |operands| == 1 then (Some(operands[0]), None)
    else (Some(operands[0]), Some(operands[|operands| - 1]))
  }

  lemma OperandsFrom(parts: seq<string>, i: nat)
    requires i < |parts|
    ensures Operands(parts[i..]) ==
            if TakesValue(parts[i]) then (if i + 1 == |parts| then [] else Operands(parts[i + 2..]))
            else if IsOption(parts[i]) then Operands(parts[i + 1..])
            else [parts[i]] + Operands(parts[i + 1..])
  {
    assert parts[i..][1..] == parts[i + 1..];
    if i + 1 < |parts| { assert parts[i..][2..] == parts[i + 2..]; }
  }

  /** The program's loop over the words of a systemctl command. */
  method SystemctlActionAndUnit(parts: seq<string>) returns (action: Option<string>, unit: Option<string>)
    requires parts != []
    ensures (action, unit) == ActionAndUnit(Operands(parts[1..]))
  {
    hide TakesValue, IsOption;
    action, unit := None, None;
    var skipNext := false;
    var rest := parts[1..];
    assert rest[|rest|..] == [];
    ghost var seen: seq<string> := [];
    for i := 0 to |rest|
      invariant (action, unit) == ActionAndUnit(seen)
      invariant seen + (if skipNext then (if i < |rest| then Operands(rest[i + 1..]) else [])
        else Operands(rest[i..])) == Operands(rest)
    {
      var part := rest[i];
      OperandsFrom(rest, i);
      if skipNext {
        skipNext := false;
        continue;
      }
      if TakesValue(part) {
        skipNext := true;
        continue;
      }
      if IsOption(part) { continue; }
      assert seen + ([part] + Operands(rest[i + 1..])) == seen + [part] + Operands(rest[i + 1..]);
      if action.None? { action := Some(part); } else { unit := Some(part); }
      seen := seen + [part];
    }
    assert seen + [] == seen;
  }

  // ---- making and needing backups ----------------------------------------------------------------

  /** An in-place edit that keeps the old file under another suffix. */
  function SedInlineBackup(q: Patterns, parts: seq<string>): Option<string> {
    if |parts| != 4 || BaseName(parts[0]) != "sed" then None
    else if !StartsWith(parts[1], "-i.") || parts[1] == "-i." || !Persistent(parts[3]) || !q.suffix(parts[1][2..])
      then None
    else Some(parts[3])
  }

  /** What a finished command has backed up, if anything. */
  function Detect(q: Patterns, parts: seq<string>, output: string): Option<Detected> {
    if |parts| < 3 then None
    else
      var executable := BaseName(parts[0]);
      var paths := Paths(q, parts[1..]);
      if executable == "sed" then
        match SedInlineBackup(q, parts)
        case None => None
        case Some(path) => Some(Detected(path, FileCopy))
      else if executable == "systemctl" then
        var (action, unit) := ActionAndUnit(Operands(parts[1..]));
        if (action == Some("show") || action == Some("status")) && Truthy(unit) && q.stateSnapshot(output)
        then Some(Detected(unit.value, ServiceState)) else None
      else if executable == "diff" then
        if |paths| >= 2 && BackupPath(paths[|paths| - 2]) && Persistent(paths[|paths| - 1])
          && !Secret(paths[|paths| - 1]) && q.difference(output)
        then Some(Detected(paths[|paths| - 1], ConfigDump)) else None
      else if executable == "stat" then
        match FirstPersistent(paths)
        case None => None
        case Some(path) => if q.metadata(output) then Some(Detected(path, MetadataSnapshot)) else None
      else if executable == "cp" then
        if |paths| >= 2 && !Broad(paths[|paths| - 2]) && BackupPath(paths[|paths| - 1])
          && !Secret(paths[|paths| - 2])
        then Some(Detected(paths[|paths| - 2], FileCopy)) else None
      else None
  }

  predicate StateAction(action: Option<string>) {
    action.Some? && action.value in ["enable", "disable", "restart", "reload", "try-restart", "start", "stop"]
  }

  const NOTHING_NEEDED := Requirement(false, None, NotApplicable)

  function RequirementFor(q: Patterns, parts: seq<string>, risk: Risk): Requirement {
    if parts == [] || Detect(q, parts, "").Some? || SedInlineBackup(q, parts).Some? then NOTHING_NEEDED
    else
      var executable := BaseName(parts[0]);
      var (action, unit) := ActionAndUnit(Operands(parts[1..]));
      var path := FirstPersistent(Paths(q, parts[1..]));
      if executable == "systemctl" && StateAction(action) && Truthy(unit) then Requirement(true, unit, ServiceState)
      else if risk != MediumRisk then NOTHING_NEEDED
      else if executable in ["sed", "tee", "install", "cp", "mv"] && path.Some? then Requirement(true, path, FileCopy)
      else if executable in ["chmod", "chown"] && path.Some? then Requirement(true, path, MetadataSnapshot)
      else NOTHING_NEEDED
  }

  /** The ledger entry made from a detected backup. */
  function RecordOf(d: Detected): BackupRecord { BackupRecord(None, Some(d.path), d.kind, None, true, true) }

  // ---- what opens the gate -------------------------------------------------------------------------

  /** Backups of these kinds hold the file's old content, or name a place that does. */
  predicate HoldsContent(kind: BackupKind) { kind == FileCopy || kind == ConfigDump }

  /**
   * The gate compares targets and nothing else. Whatever change asks for a backup, and whatever command made one, the
   * record opens the gate exactly if it names the same target, also if it is of another kind. So a change to a file's
   * content passes without its old content being kept exactly if the record was made by looking at the file's metadata
   * (or by showing a unit of that name).
   */
  lemma GateComparesTargetsOnly(q: Patterns, change: seq<string>, risk: Risk, look: seq<string>, output: string)
    requires RequirementFor(q, change, risk).required && Detect(q, look, output).Some?
    ensures var need, made := RequirementFor(q, change, risk), Detect(q, look, output).value;
            && (Satisfies(RecordOf(made), need.path) <==> need.path == Some(made.path))
            && !Satisfies(RecordOf(made).(created := false), need.path)
            && (need.kind == FileCopy && Satisfies(RecordOf(made), need.path) ==>
                  (!HoldsContent(made.kind) <==> BaseName(look[0]) == "stat" || BaseName(look[0]) == "systemctl"))
  {
  }

  const EDITED := "/etc/nginx/nginx.conf"

  /**
   * An input at which it does: the file is edited in place after nothing but its owner, group and mode were recorded.
   */
  lemma LookingOpensAnEdit(q: Patterns, output: string)
    requires q.isPath(EDITED) && !q.isPath("-i") && !q.isPath("s/80/81/") && !q.isPath("-c")
      && !q.isPath("owner=%U group=%G mode=%a size=%s mtime=%Y") && q.metadata(output)
    ensures var need := RequirementFor(q, ["sed", "-i", "s/80/81/", EDITED], MediumRisk);
            var made := Detect(q, ["stat", "-c", "owner=%U group=%G mode=%a size=%s mtime=%Y", EDITED], output);
            && need == Requirement(true, Some(EDITED), FileCopy)
            && made == Some(Detected(EDITED, MetadataSnapshot)) && Satisfies(RecordOf(made.value), need.path)
  {
    ThreeWords(q, "-i", "s/80/81/", EDITED);
    ThreeWords(q, "-c", "owner=%U group=%G mode=%a size=%s mtime=%Y", EDITED);
    NoSlash("sed");
    NoSlash("stat");
    assert Persistent(EDITED) && FirstPersistent([EDITED]) == Some(EDITED);
    assert ["sed", "-i", "s/80/81/", EDITED][1..] == ["-i", "s/80/81/", EDITED];
    assert ["stat", "-c", "owner=%U group=%G mode=%a size=%s mtime=%Y", EDITED][1..] ==
      ["-c", "owner=%U group=%G mode=%a size=%s mtime=%Y", EDITED];
    assert !StartsWith("-i", "-i.");
    hide BaseName, Paths, Persistent, FirstPersistent, Operands;
  }

  /** Two words that are no paths before one that is. */
  lemma ThreeWords(q: Patterns, a: string, b: string, path: string)
    requires !q.isPath(a) && !q.isPath(b) && q.isPath(path)
    ensures Paths(q, [a, b, path]) == [path]
  {
    assert [a, b, path][1..] == [b, path] && [b, path][1..] == [path] && [path][1..] == [];
    assert Paths(q, [path]) == [path] + Paths(q, []);
  }

  // ---- what satisfies it ---------------------------------------------------------------------------

  lemma {:induction false} OperandsAreNoOptions(parts: seq<string>)
    ensures forall o :: o in Operands(parts) ==> !IsOption(o)
    decreases |parts|
  {
    hide IsOption;
    if parts != [] {
      if TakesValue(parts[0]) {
        if |parts| > 1 { OperandsAreNoOptions(parts[2..]); }
      } else {
        OperandsAreNoOptions(parts[1..]);
      }
    }
  }

  /** A service state is asked for the unit the change names. */
  lemma StateNeedsAUnit(q: Patterns, change: seq<string>, risk: Risk)
    requires RequirementFor(q, change, risk).kind == ServiceState
    ensures var need := RequirementFor(q, change, risk);
            need.required && need.path.Some? && need.path.value != "" && !IsOption(need.path.value)
  {
    if change != [] { OperandsAreNoOptions(change[1..]); }
    hide IsOption, Operands, BaseName, Paths, FirstPersistent, Detect, SedInlineBackup;
  }

  lemma OneOperand(a: string, b: string)
    requires !IsOption(a) && !IsOption(b)
    ensures Operands([a, b]) == [a, b]
  {
    assert !TakesValue(a) && !TakesValue(b);
    assert [a, b][1..] == [b] && [b][1..] == [];
    assert Operands([b]) == [b] + Operands([]);
  }

  /** For every service state change, however it is written, showing the unit is a backup of the kind it asks for. */
  lemma StateChangesHaveARemedy(q: Patterns, change: seq<string>, risk: Risk, output: string)
    requires RequirementFor(q, change, risk).kind == ServiceState && q.stateSnapshot(output)
    ensures var need := RequirementFor(q, change, risk);
            && need.required && need.path.Some?
            && var made := Detect(q, ["systemctl", "show", need.path.value], output);
               made == Some(Detected(need.path.value, ServiceState)) && Satisfies(RecordOf(made.value), need.path)
  {
    hide RequirementFor, BaseName, Operands, Paths;
    StateNeedsAUnit(q, change, risk);
    var unit := RequirementFor(q, change, risk).path.value;
    assert ["systemctl", "show", unit][1..] == ["show", unit];
    OneOperand("show", unit);
    NoSlash("systemctl");
  }

  lemma {:induction false} NoSlash(s: string)
    requires '/' !in s
    ensures BaseName(s) == s
  {
    if s != "" {
      assert s[|s| - 1] in s;
      NoSlash(s[..|s| - 1]);
    }
  }

  /**
   * For every change to a file, however it is written, a copy of the file to a backup place, however that is written,
   * is recognised as its backup exactly if the file is no whole tree and its name does not look like a secret.
   */
  lemma CopiesAreARemedyUnlessSecret(q: Patterns, change: seq<string>, risk: Risk, copy: seq<string>, output: string)
    requires RequirementFor(q, change, risk).required && RequirementFor(q, change, risk).kind != ServiceState
    requires |copy| >= 3 && BaseName(copy[0]) == "cp"
    requires var paths := Paths(q, copy[1..]);
             |paths| >= 2 && Some(paths[|paths| - 2]) == RequirementFor(q, change, risk).path
               && BackupPath(paths[|paths| - 1])
    ensures var need, made := RequirementFor(q, change, risk), Detect(q, copy, output);
            && need.path.Some? && (made.Some? <==> !Broad(need.path.value) && !Secret(need.path.value))
            && (made.Some? ==> HoldsContent(made.value.kind) && Satisfies(RecordOf(made.value), need.path))
  {
    hide BaseName, Paths, BackupPath, Secret, Broad;
  }

  const TOKENS := "/etc/app/token.conf"

  /** A file none of whose copies is ever recognised as the backup its edit needs. */
  lemma NoCopyAnswersForTokens(q: Patterns, copy: seq<string>, output: string)
    requires q.isPath(TOKENS) && !q.isPath("-i") && !q.isPath("s/a/b/")
    requires |copy| >= 3 && BaseName(copy[0]) == "cp"
    requires var paths := Paths(q, copy[1..]);
             |paths| >= 2 && paths[|paths| - 2] == TOKENS && BackupPath(paths[|paths| - 1])
    ensures RequirementFor(q, ["sed", "-i", "s/a/b/", TOKENS], MediumRisk) == Requirement(true, Some(TOKENS), FileCopy)
    ensures Detect(q, copy, output).None?
  {
    var change := ["sed", "-i", "s/a/b/", TOKENS];
    ThreeWords(q, "-i", "s/a/b/", TOKENS);
    NoSlash("sed");
    assert Persistent(TOKENS) && FirstPersistent([TOKENS]) == Some(TOKENS);
    assert change[1..] == ["-i", "s/a/b/", TOKENS];
    assert !StartsWith("-i", "-i.");
    TokensAreSecret();
    hide BaseName, Paths, Persistent, FirstPersistent, Operands, Secret, Broad, BackupPath;
    CopiesAreARemedyUnlessSecret(q, change, MediumRisk, copy, output);
  }

  lemma TokensAreSecret()
    ensures Secret(TOKENS)
  {
    assert Lower(TOKENS)[9..14] == "token";
    assert At(Lower(TOKENS), 9, "token");
    assert SECRET_MARKS[5] == "token";
  }

  // ---- restoring metadata --------------------------------------------------------------------------

  /** What needs no quotes in a shell word. */
  predicate QuoteSafe(c: char) { SafeChar(c) || c == '%' }

  function EscapedQuotes(s: string): string {
    if s == "" then "" else (if s[0] == '\'' then "'\"'\"'" else [s[0]]) + EscapedQuotes(s[1..])
  }

  /** A text as one shell word. */
  function Quote(s: string): string {
    if s != "" && forall i :: 0 <= i < |s| ==> QuoteSafe(s[i]) then s else "'" + EscapedQuotes(s) + "'"
  }

  /** The restore command recorded with a metadata snapshot. */
  function MetadataRestore(owner: string, group: string, mode: string, path: string): string {
    "chown " + (Quote(owner) + (":" + (Quote(group) + (" " + (Quote(path) + Chmod(mode, path))))))
  }

  function Chmod(mode: string, path: string): string { " " + ("&& chmod " + (Quote(mode) + (" " + Quote(path)))) }

  /** The text stands in the line at the position. */
  predicate Stands(line: string, at: nat, text: string) { at + |text| <= |line| && line[at..at + |text|] == text }

  lemma StandsChar(line: string, at: nat, text: string, k: nat)
    requires Stands(line, at, text) && k < |text|
    ensures line[at + k] == text[k]
  {
    assert line[at..at + |text|][k] == line[at + k];
  }

  lemma StandsSplit(line: string, at: nat, a: string, b: string)
    requires Stands(line, at, a + b)
    ensures Stands(line, at, a) && Stands(line, at + |a|, b)
  {
    assert line[at..at + |a + b|][..|a|] == a && line[at..at + |a + b|][|a|..] == b;
  }

  /** Characters that mean nothing to the shell leave an unquoted line unquoted. */
  lemma {:induction false} PlainStaysBare(line: string, at: nat, text: string)
    requires Stands(line, at, text) && ModeAt(line, at) == Bare
    requires forall i :: 0 <= i < |text| ==> text[i] !in "\\'\""
    ensures ModeAt(line, at + |text|) == Bare
    decreases |text|
  {
    if text != "" {
      StandsChar(line, at, text, 0);
      assert text == [text[0]] + text[1..];
      StandsSplit(line, at, [text[0]], text[1..]);
      PlainStaysBare(line, at + 1, text[1..]);
    }
  }

  lemma QuoteStaysSingle(line: string, at: nat)
    requires Stands(line, at, "'\"'\"'") && ModeAt(line, at) == InSingle
    ensures ModeAt(line, at + 5) == InSingle
  {
    var text := "'\"'\"'";
    StandsChar(line, at, text, 0);
    StandsChar(line, at, text, 1);
    StandsChar(line, at, text, 2);
    StandsChar(line, at, text, 3);
    StandsChar(line, at, text, 4);
    assert ModeAt(line, at + 1) == Bare;
    assert ModeAt(line, at + 2) == InDouble;
    assert ModeAt(line, at + 3) == InDouble;
    assert ModeAt(line, at + 4) == Bare;
  }

  lemma {:induction false} EscapedStaysSingle(line: string, at: nat, s: string)
    requires Stands(line, at, EscapedQuotes(s)) && ModeAt(line, at) == InSingle
    ensures ModeAt(line, at + |EscapedQuotes(s)|) == InSingle
    decreases |s|
  {
    if s != "" {
      var first := if s[0] == '\'' then "'\"'\"'" else [s[0]];
      StandsSplit(line, at, first, EscapedQuotes(s[1..]));
      StandsChar(line, at, first, 0);
      if s[0] == '\'' { QuoteStaysSingle(line, at); }
      EscapedStaysSingle(line, at + |first|, s[1..]);
    }
  }

  lemma QuotedStaysBare(line: string, at: nat, s: string)
    requires Stands(line, at, "'" + (EscapedQuotes(s) + "'")) && ModeAt(line, at) == Bare
    ensures ModeAt(line, at + |EscapedQuotes(s)| + 2) == Bare
  {
    hide EscapedQuotes, Stands;
    var inner := EscapedQuotes(s);
    StandsSplit(line, at, "'", inner + "'");
    StandsSplit(line, at + 1, inner, "'");
    StandsChar(line, at, "'", 0);
    EscapedStaysSingle(line, at + 1, s);
    StandsChar(line, at + 1 + |inner|, "'", 0);
  }

  /** A quoted word leaves the line as unquoted as it found it. */
  lemma WordStaysBare(line: string, at: nat, s: string)
    requires Stands(line, at, Quote(s)) && ModeAt(line, at) == Bare
    ensures ModeAt(line, at + |Quote(s)|) == Bare
  {
    hide ModeAt, EscapedQuotes, Stands;
    if s != "" && forall i :: 0 <= i < |s| ==> QuoteSafe(s[i]) {
      PlainStaysBare(line, at, s);
    } else {
      assert Quote(s) == "'" + (EscapedQuotes(s) + "'");
      QuotedStaysBare(line, at, s);
    }
  }

  /** Reading on behind characters that mean nothing to the shell. */
  lemma PastPlain(line: string, at: nat, text: string, rest: string)
    requires Stands(line, at, text + rest) && ModeAt(line, at) == Bare
    requires forall i :: 0 <= i < |text| ==> text[i] !in "\\'\""
    ensures Stands(line, at + |text|, rest) && ModeAt(line, at + |text|) == Bare
  {
    hide ModeAt, Stands;
    StandsSplit(line, at, text, rest);
    PlainStaysBare(line, at, text);
  }

  /** Reading on behind a quoted word. */
  lemma PastWord(line: string, at: nat, s: string, rest: string)
    requires Stands(line, at, Quote(s) + rest) && ModeAt(line, at) == Bare
    ensures Stands(line, at + |Quote(s)|, rest) && ModeAt(line, at + |Quote(s)|) == Bare
  {
    hide ModeAt, Stands, Quote;
    StandsSplit(line, at, Quote(s), rest);
    WordStaysBare(line, at, s);
  }

  /** The control operator in a metadata restore stands where the shell reads it as one. */
  lemma OperatorIsBare(owner: string, group: string, mode: string, path: string) returns (at: nat)
    ensures var line := MetadataRestore(owner, group, mode, path);
            at < |line| && line[at] == '&' && ModeAt(line, at) == Bare
  {
    hide Quote, ModeAt, Stands, Chmod;
    var line := MetadataRestore(owner, group, mode, path);
    var end := Chmod(mode, path);
    StartsBare(line);
    PastPlain(line, 0, "chown ", Quote(owner) + (":" + (Quote(group) + (" " + (Quote(path) + end)))));
    PastWord(line, 6, owner, ":" + (Quote(group) + (" " + (Quote(path) + end))));
    at := 6 + |Quote(owner)|;
    PastPlain(line, at, ":", Quote(group) + (" " + (Quote(path) + end)));
    PastWord(line, at + 1, group, " " + (Quote(path) + end));
    at := at + 1 + |Quote(group)|;
    PastPlain(line, at, " ", Quote(path) + end);
    PastWord(line, at + 1, path, end);
    at := ChmodOperator(line, at + 1 + |Quote(path)|, mode, path);
  }

  lemma ChmodOperator(line: string, from: nat, mode: string, path: string) returns (at: nat)
    requires Stands(line, from, Chmod(mode, path)) && ModeAt(line, from) == Bare
    ensures at < |line| && line[at] == '&' && ModeAt(line, at) == Bare
  {
    hide ModeAt, Quote;
    PastPlain(line, from, " ", "&& chmod " + (Quote(mode) + (" " + Quote(path))));
    at := from + 1;
    StandsChar(line, at, "&& chmod " + (Quote(mode) + (" " + Quote(path))), 0);
  }

  lemma StartsBare(line: string)
    ensures Stands(line, 0, line) && ModeAt(line, 0) == Bare
  {
  }

  lemma NothingToStrip(s: string)
    requires s != "" && !IsSpace(s[0]) && !IsSpace(s[|s| - 1])
    ensures Strip(s) == s
  {
  }

  lemma EndsWithPath(owner: string, group: string, mode: string, path: string)
    requires Quote(path) != ""
    ensures var line := MetadataRestore(owner, group, mode, path);
            line[0] == 'c' && line[|line| - 1] == Quote(path)[|Quote(path)| - 1]
  {
    hide Quote;
  }

  /** The safety layer refuses every metadata restore: it joins two commands. */
  lemma MetadataRestoresAreRefused(r: Rules, owner: string, group: string, mode: string, path: string)
    ensures Classify(r, MetadataRestore(owner, group, mode, path)) == BLOCKED
  {
    hide ModeAt, Fault, HarmlessAt, GlobWords, BaseName, WithoutSudo, Strip;
    var line := MetadataRestore(owner, group, mode, path);
    EndsWithPath(owner, group, mode, path);
    NothingToStrip(line);
    var at := OperatorIsBare(owner, group, mode, path);
    OperatorIsHarmful(line, at);
    PassesIffSingle(line);
  }

  lemma OperatorIsHarmful(line: string, at: nat)
    requires at < |line| && line[at] == '&' && ModeAt(line, at) == Bare
    ensures !SingleCommand(line)
  {
    hide ModeAt;
    assert !HarmlessAt(line, at);
  }

  /** So a step proposed to restore metadata is always blocked, and can never be approved. */
  lemma MetadataRestoresAreBlocked(p: Policy, r: Rules, s: State, run: nat, record: nat, reason: string,
                                   owner: string, group: string, mode: string, path: string)
    requires forall command: string :: p.classify(command) == Classify(r, command)
    requires s.backups.Has(run, record)
      && s.backups.rows[record].data.restoreCommand == Some(MetadataRestore(owner, group, mode, path))
    ensures ProposedBlocked(ProposeRestore(p, s, run, record, reason))
  {
    hide Classify, MetadataRestore, PlanBackup, AnnounceStep;
    MetadataRestoresAreRefused(r, owner, group, mode, path);
    assert p.classify(MetadataRestore(owner, group, mode, path)) ==
      Classify(r, MetadataRestore(owner, group, mode, path));
  }

  /** If a step was proposed at all, it is blocked. */
  predicate ProposedBlocked(reply: Reply<nat>) {
    reply.result.Success? ==>
      reply.result.value in reply.state.steps.rows
      && reply.state.steps.rows[reply.result.value].data.status == StepStatus.Blocked
  }

  /** What is recorded of a detected backup, with the command that restores it. */
  function OnFile(q: Patterns, d: Detected, output: string): DetectedBackup {
    DetectedBackup(d.path, d.kind,
      if d.kind == MetadataSnapshot then MetadataRestore(q.owner(output), q.group(output), q.mode(output), d.path)
      else q.otherRestore(d.path, d.kind, output))
  }
}
