/** The two hand-written scanners of the safety layer against one account of shell quoting. */
module Quoting {
  import opened Wrappers
  import opened Text

  /** How a character is read: plainly, inside quotes, or right after a backslash. */
  datatype Mode = Bare | InSingle | InDouble | Escaped(inDouble: bool)

  /** Inside double quotes a backslash only quotes one of these (section 2.2.3 of the POSIX Shell Command Language). */
  predicate Quotable(c: char) { c in "$`\"\\\n" }

  /**
   * The mode in which the character at a position is read, by sections 2.2.1 to 2.2.3 of the POSIX Shell Command
   * Language; at the end of the line, the mode in which a further character would be read.
   */
  function ModeAt(s: string, i: nat): Mode
    requires i <= |s|
  {
    if i == 0 then Bare
    else
      var c := s[i - 1];
      match ModeAt(s, i - 1)
      case Bare =>
        if c == '\\' then Escaped(false) else if c == '\'' then InSingle else if c == '"' then InDouble else Bare
      case InSingle => if c == '\'' then Bare else InSingle
      case InDouble =>
        if c == '"' then Bare else if c == '\\' && i < |s| && Quotable(s[i]) then Escaped(true) else InDouble
      case Escaped(inDouble) => if inDouble then InDouble else Bare
  }

  /**
   * Quoting marks and backslashes are not text. (The program also drops the backslashes the shell keeps in double
   * quotes.)
   */
  predicate IsMark(s: string, i: nat)
    requires i < |s|
  {
    match ModeAt(s, i)
    case Bare => s[i] == '\\' || s[i] == '\'' || s[i] == '"'
    case InSingle => s[i] == '\''
    case InDouble => s[i] == '"' || s[i] == '\\'
    case Escaped(_) => false
  }

  // ---- the scanner for control operators ---------------------------------------------------------

  datatype Reason = Substitution | ManyCommands | Background | Pipe | Redirection | Grouping

  function CharAt(s: string, i: nat): char { if i < |s| then s[i] else ' ' }

  predicate StartsSubstitution(s: string, i: nat)
    requires i < |s|
  {
    s[i] == '`' || (s[i] == '$' && i + 1 < |s| && s[i + 1] == '(')
  }

  function Operator(c: char, next: char): Option<Reason> {
    if c == ';' || c == '\n' then Some(ManyCommands)
    else if c == '&' then Some(if next == '>' then Redirection else Background)
    else if c == '|' then Some(if next == '|' then ManyCommands else Pipe)
    else if c == '<' || c == '>' then Some(Redirection)
    else if c == '(' || c == ')' then Some(Grouping)
    else None
  }

  /** What is wrong with the character at a position, given how it is read. */
  function Fault(s: string, i: nat): Option<Reason>
    requires i < |s|
  {
    match ModeAt(s, i)
    case Bare => if StartsSubstitution(s, i) then Some(Substitution) else Operator(s[i], CharAt(s, i + 1))
    case InDouble => if StartsSubstitution(s, i) then Some(Substitution) else None
    case _ => None
  }

  /** The reason found first from a position on. */
  function FirstFault(s: string, from: nat): (found: Option<Reason>)
    requires from <= |s|
    ensures found.None? <==> forall i :: from <= i < |s| ==> Fault(s, i).None?
    decreases |s| - from
  {
    if from == |s| then None else if Fault(s, from).Some? then Fault(s, from) else FirstFault(s, from + 1)
  }

  /** The mode the three flags of a scanner stand for. */
  function Flags(single: bool, double: bool, escaped: bool): Mode {
    if escaped then Escaped(double) else if single then InSingle else if double then InDouble else Bare
  }

  /**
   * The flags mirror the mode, except that inside double quotes the scanners take every backslash for an escape. Where
   * the shell does not, the next character is an ordinary one, so nothing depends on it.
   */
  predicate Mirrors(s: string, i: nat, single: bool, double: bool, escaped: bool)
    requires i <= |s|
  {
    && !(single && (double || escaped))
    && (ModeAt(s, i) == Flags(single, double, escaped)
        || (escaped && double && ModeAt(s, i) == InDouble && (i < |s| ==> !Quotable(s[i]))))
  }

  /** The scan for a construct that makes a line more than one simple command. */
  method ShellSyntaxBlockReason(command: string) returns (reason: Option<Reason>)
    ensures reason == FirstFault(command, 0)
  {
    var singleQuoted, doubleQuoted, escaped := false, false, false;
    for index := 0 to |command|
      invariant Mirrors(command, index, singleQuoted, doubleQuoted, escaped)
      invariant FirstFault(command, 0) == FirstFault(command, index)
    {
      var c := command[index];
      if escaped {
        escaped := false;
        continue;
      }
      if c == '\\' && !singleQuoted {
        escaped := true;
        continue;
      }
      if c == '\'' && !doubleQuoted {
        singleQuoted := !singleQuoted;
        continue;
      }
      if c == '"' && !singleQuoted {
        doubleQuoted := !doubleQuoted;
        continue;
      }
      var next := CharAt(command, index + 1);
      if !singleQuoted && c == '$' && index + 1 < |command| && next == '(' { return Some(Substitution); }
      if !singleQuoted && c == '`' { return Some(Substitution); }
      if singleQuoted || doubleQuoted { continue; }
      if c == ';' || c == '\n' { return Some(ManyCommands); }
      if c == '&' {
        if next == '>' { return Some(Redirection); }
        return Some(Background);
      }
      if c == '|' {
        if next == '|' { return Some(ManyCommands); }
        return Some(Pipe);
      }
      if c == '<' || c == '>' { return Some(Redirection); }
      if c == '(' || c == ')' { return Some(Grouping); }
    }
    return None;
  }

  /**
   * No control operator if the character is unquoted, and no start of a substitution unless in single quotes or
   * escaped.
   */
  predicate HarmlessAt(command: string, i: nat)
    requires i < |command|
  {
    && (ModeAt(command, i) == Bare ==> command[i] !in ";&|<>()\n")
    && (ModeAt(command, i) == Bare || ModeAt(command, i) == InDouble ==> command[i] != '`')
    && (ModeAt(command, i) == Bare || ModeAt(command, i) == InDouble ==>
      !(command[i] == '$' && i + 1 < |command| && command[i + 1] == '('))
  }

  predicate SingleCommand(command: string) { forall i :: 0 <= i < |command| ==> HarmlessAt(command, i) }

  /** The scan passes exactly the lines that are harmless at every index. */
  lemma PassesIffSingle(command: string)
    ensures FirstFault(command, 0).None? <==> SingleCommand(command)
  {
    forall i | 0 <= i < |command| ensures Fault(command, i).None? <==> HarmlessAt(command, i) {
    }
  }

  // ---- the scanner for globs ---------------------------------------------------------------------

  predicate GlobChar(c: char) { c in "*?[{" }

  /** An unquoted blank between words. */
  predicate Separator(s: string, i: nat)
    requires i < |s|
  {
    ModeAt(s, i) == Bare && IsSpace(s[i])
  }

  predicate GlobAt(s: string, i: nat)
    requires i < |s|
  {
    ModeAt(s, i) == Bare && GlobChar(s[i])
  }

  /** The text of a stretch of the line with its quoting marks removed. */
  function Unquoted(s: string, from: nat, till: nat): string
    requires from <= till <= |s|
  {
    if from == till then "" else Unquoted(s, from, till - 1) + if IsMark(s, till - 1) then "" else [s[till - 1]]
  }

  predicate GlobIn(s: string, from: nat, till: nat)
    requires from <= till <= |s|
  {
    exists i :: from <= i < till && GlobAt(s, i)
  }

  /** The end of the word that starts at a position: the next separator, or the end of the line. */
  function WordEnd(s: string, from: nat): (end: nat)
    requires from <= |s|
    ensures from <= end <= |s|
    ensures forall i :: from <= i < end ==> !Separator(s, i)
    ensures end < |s| ==> Separator(s, end)
    decreases |s| - from
  {
    if from == |s| || Separator(s, from) then from else WordEnd(s, from + 1)
  }

  /** The words, in order, that hold an unquoted glob character. */
  function GlobWords(s: string, from: nat): seq<string>
    requires from <= |s|
    decreases |s| - from
  {
    var end := WordEnd(s, from);
    var here := if GlobIn(s, from, end) then [Unquoted(s, from, end)] else [];
    if end == |s| then here else here + GlobWords(s, end + 1)
  }

  lemma {:induction false} GlobHasText(s: string, from: nat, till: nat)
    requires from <= till <= |s| && GlobIn(s, from, till)
    ensures Unquoted(s, from, till) != ""
    decreases till
  {
    var i :| from <= i < till && GlobAt(s, i);
    if i < till - 1 {
      assert GlobIn(s, from, till - 1);
      GlobHasText(s, from, till - 1);
    }
  }

  /** The texts of the tokens that are flagged. */
  function Flagged(tokens: seq<(string, bool)>): seq<string> {
    if tokens == [] then []
      else Flagged(tokens[..|tokens| - 1]) + if tokens[|tokens| - 1].1 then [tokens[|tokens| - 1].0] else []
  }

  /** One step of either scanner's flags follows the mode. */
  lemma MirrorStep(s: string, i: nat, single: bool, double: bool, escaped: bool)
    requires i < |s| && Mirrors(s, i, single, double, escaped)
    ensures if escaped then
              Mirrors(s, i + 1, single, double, false) && !IsMark(s, i) && !Separator(s, i) && !GlobAt(s, i)
            else if s[i] == '\\' && !single then Mirrors(s, i + 1, single, double, true) && IsMark(s, i)
            else if s[i] == '\'' && !double then Mirrors(s, i + 1, !single, double, false) && IsMark(s, i)
            else if s[i] == '"' && !single then Mirrors(s, i + 1, single, !double, false) && IsMark(s, i)
            else
              Mirrors(s, i + 1, single, double, false) && !IsMark(s, i) && ModeAt(s, i) == Flags(single, double, false)
  {
  }

  lemma GlobGrows(s: string, from: nat, till: nat)
    requires from <= till < |s|
    ensures GlobIn(s, from, till + 1) <==> GlobIn(s, from, till) || GlobAt(s, till)
  {
    hide GlobAt;
    if GlobIn(s, from, till) {
      var i :| from <= i < till && GlobAt(s, i);
      assert from <= i < till + 1 && GlobAt(s, i);
    }
    if GlobAt(s, till) { assert from <= till < till + 1 && GlobAt(s, till); }
  }

  /** The scan for words with unquoted globs. */
  method UnquotedGlobTokens(command: string) returns (globs: seq<string>)
    ensures globs == GlobWords(command, 0)
  {
    hide WordEnd, GlobIn, GlobWords;
    var tokens: seq<(string, bool)>, current, hasGlob := [], "", false;
    var singleQuoted, doubleQuoted, escaped := false, false, false;
    ghost var start: nat := 0;
    assert Mirrors(command, 0, false, false, false);
    NothingYet(command, 0);
    for index := 0 to |command|
      invariant start <= index && Mirrors(command, index, singleQuoted, doubleQuoted, escaped)
      invariant forall i :: start <= i < index ==> !Separator(command, i)
      invariant current == Unquoted(command, start, index) && hasGlob == GlobIn(command, start, index)
      invariant Flagged(tokens) + GlobWords(command, start) == GlobWords(command, 0)
    {
      var c := command[index];
      MirrorStep(command, index, singleQuoted, doubleQuoted, escaped);
      GlobGrows(command, start, index);
      MarksAreNoText(command, index);
      if escaped {
        current := current + [c];
        escaped := false;
        continue;
      }
      if c == '\\' && !singleQuoted {
        escaped := true;
        continue;
      }
      if c == '\'' && !doubleQuoted {
        singleQuoted := !singleQuoted;
        continue;
      }
      if c == '"' && !singleQuoted {
        doubleQuoted := !doubleQuoted;
        continue;
      }
      if IsSpace(c) && !singleQuoted && !doubleQuoted {
        WordEnds(command, start, index);
        if current != "" {
          tokens := tokens + [(current, hasGlob)];
          current := "";
          hasGlob := false;
        }
        start := index + 1;
        NothingYet(command, start);
        continue;
      }
      if !singleQuoted && !doubleQuoted && GlobChar(c) { hasGlob := true; }
      current := current + [c];
    }
    WordEnds(command, start, |command|);
    if current != "" { tokens := tokens + [(current, hasGlob)]; }
    globs := Flagged(tokens);
  }

  lemma NothingYet(s: string, from: nat)
    requires from <= |s|
    ensures !GlobIn(s, from, from) && Unquoted(s, from, from) == "" && Flagged([]) == []
  {
  }

  /** A word that is over contributes its text if it holds a glob, and then it is not empty. */
  lemma WordEnds(s: string, from: nat, till: nat)
    requires from <= till <= |s| && (forall i :: from <= i < till ==> !Separator(s, i))
      && (till == |s| || Separator(s, till))
    ensures GlobIn(s, from, till) ==> Unquoted(s, from, till) != ""
    ensures GlobWords(s, from) == (if GlobIn(s, from, till) then [Unquoted(s, from, till)] else [])
                                  + if till == |s| then [] else GlobWords(s, till + 1)
  {
    hide GlobAt, IsMark;
    if GlobIn(s, from, till) { GlobHasText(s, from, till); }
  }

  /** Marks are neither separators nor globs. */
  lemma MarksAreNoText(s: string, i: nat)
    requires i < |s|
    ensures IsMark(s, i) ==> !Separator(s, i) && !GlobAt(s, i)
  {
  }
}
