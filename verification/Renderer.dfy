/** The planner's validation commands against the evaluator that classifies them back to a check type. */
module Renderer {
  import opened Text
  import opened Model

  predicate EndsWith(s: string, sub: string) { |sub| <= |s| && s[|s| - |sub|..] == sub }

  // ---- the evaluator -----------------------------------------------------------------------------

  predicate SpaceOrEnd(s: string, i: int) { 0 <= i && (i < |s| ==> IsSpace(s[i])) }

  /** A word that is an absolute path to a shell script. */
  predicate ScriptFrom(s: string, i: nat, j: nat) {
    i + 1 < j && At(s, j, ".sh") && s[i] == '/' && (i > 0 ==> IsSpace(s[i - 1])) && SpaceOrEnd(s, j + 3)
    && forall k :: i < k < j ==> !IsSpace(s[k])
  }

  predicate PublicScript(s: string) { exists i: nat, j: nat :: i < |s| && j < |s| && ScriptFrom(s, i, j) }

  predicate WordChar(c: char) { 'a' <= c <= 'z' || 'A' <= c <= 'Z' || '0' <= c <= '9' || c == '_' }

  /** Exactly one side of the position is inside a word. */
  predicate Boundary(s: string, i: int) { (0 < i <= |s| && WordChar(s[i - 1])) != (0 <= i < |s| && WordChar(s[i])) }

  predicate RebootAt(s: string, i: int) { At(s, i, "reboot") && Boundary(s, i) && Boundary(s, i + 6) }

  /** The word reboot stands in the text. */
  predicate NamesReboot(s: string) { exists i :: 0 <= i < |s| && RebootAt(s, i) }

  predicate ShutdownFrom(s: string, i: int, j: int) {
    At(s, i, "shutdown") && i + 8 < j && At(s, j, "-r") && forall k :: i + 8 <= k < j ==> IsSpace(s[k])
  }

  /** A reboot asked for by name, with or without systemctl before it, or by shutting down with -r. */
  predicate AsksReboot(s: string) {
    NamesReboot(s)
    || (exists i, j :: 0 <= i < j < |s| && ShutdownFrom(s, i, j) && Boundary(s, i) && Boundary(s, j + 2))
  }

  function CheckTypeOf(command: string): CheckType {
    var lowered := Lower(command);
    if PublicScript(lowered) then PublicValidation
    else if AsksReboot(lowered) then Reboot
    else if Contains(lowered, "systemctl is-active") || Contains(lowered, "systemctl status") then ServiceHealth
    else if Contains(" " + lowered, "curl ") || Contains(" " + lowered, "ss ") || Contains(" " + lowered, "nc ")
      then CustomerBenefit
    else if Contains(lowered, "journalctl") || Contains(lowered, "/var/log/") then LogsClean
    else if Contains(lowered, "restart") || Contains(lowered, "reload") then Persistence
    else OtherCheck
  }

  // ---- the renderer ------------------------------------------------------------------------------

  /** Words joined by single blanks. */
  function Line(ws: seq<string>): string {
    if ws == [] then "" else if |ws| == 1 then ws[0] else ws[0] + " " + Line(ws[1..])
  }

  function HealthCommand(unit: string): string { Line(["systemctl", "is-active", unit]) }

  function BenefitCommand(url: string): string { Line(["curl", "-sS", "-i", url]) }

  function LogsCommand(unit: string): string {
    Line(["journalctl", "-u", unit, "--since", "-5min", "--no-pager", "-n", "80"])
  }

  function RestartCommand(unit: string): string { Line(["sudo", "-n", "systemctl", "restart", unit]) }

  predicate UnitName(s: string) { s != "" && SpaceFree(s) && '/' !in s }

  predicate Url(s: string) { SpaceFree(s) && (StartsWith(s, "http://") || StartsWith(s, "https://")) }

  // ---- words -------------------------------------------------------------------------------------

  lemma NotWithout(s: string, sub: string, c: char)
    requires c in sub && c !in s
    ensures !Contains(s, sub)
  {
  }

  lemma AtRight(a: string, b: string, i: int, sub: string)
    requires i >= |a|
    ensures At(a + b, i, sub) <==> At(b, i - |a|, sub)
  {
    if i + |sub| <= |a + b| { assert (a + b)[i..i + |sub|] == b[i - |a|..i - |a| + |sub|]; }
  }

  /** The characters of an occurrence. */
  lemma AtChar(s: string, i: int, sub: string, k: nat)
    requires At(s, i, sub) && k < |sub|
    ensures s[i + k] == sub[k]
  {
    assert s[i..i + |sub|][k] == s[i + k];
  }

  lemma ContainsRight(a: string, b: string, sub: string)
    requires Contains(b, sub)
    ensures Contains(a + b, sub)
  {
    var i :| 0 <= i <= |b| - |sub| && At(b, i, sub);
    AtRight(a, b, i + |a|, sub);
    assert At(a + b, i + |a|, sub);
  }

  lemma ContainsLeft(a: string, b: string, sub: string)
    requires Contains(a, sub)
    ensures Contains(a + b, sub)
  {
    var i :| 0 <= i <= |a| - |sub| && At(a, i, sub);
    assert At(a + b, i, sub);
  }

  /** A text without blanks occurs in one of two words or in neither. */
  lemma InOneWord(a: string, b: string, sub: string)
    requires SpaceFree(sub) && sub != ""
    ensures Contains(a + " " + b, sub) <==> Contains(a, sub) || Contains(b, sub)
  {
    var s := a + " " + b;
    forall i | 0 <= i <= |s| - |sub| && At(s, i, sub) ensures Contains(a, sub) || Contains(b, sub) {
      if i + |sub| <= |a| {
        assert s == a + (" " + b);
        assert At(a, i, sub);
      } else if i > |a| {
        AtRight(a + " ", b, i, sub);
        assert At(b, i - |a| - 1, sub);
      } else {
        AtChar(s, i, sub, |a| - i);
      }
    }
    if Contains(a, sub) { ContainsLeft(a, " " + b, sub); assert a + (" " + b) == s; }
    if Contains(b, sub) { ContainsRight(a + " ", b, sub); }
  }

  lemma StraddleAt(a: string, b: string, p: string, q: string)
    requires |p| <= |a|
    ensures At(a + " " + b, |a| - |p|, p + " " + q) <==> EndsWith(a, p) && StartsWith(b, q)
  {
    var s, i, n := a + " " + b, |a| - |p|, |p| + 1 + |q|;
    if |q| <= |b| {
      assert s[i..i + n] == a[i..] + " " + b[..|q|];
      if s[i..i + n] == p + " " + q {
        assert a[i..] == s[i..i + n][..|p|] && b[..|q|] == s[i..i + n][|p| + 1..];
      }
    }
  }

  /** A text around one blank occurs across the first blank or behind it. */
  lemma AcrossBlank(a: string, b: string, p: string, q: string)
    requires SpaceFree(a) && SpaceFree(p) && p != ""
    ensures Contains(a + " " + b, p + " " + q) <==> (EndsWith(a, p) && StartsWith(b, q)) || Contains(b, p + " " + q)
  {
    hide At, EndsWith, StartsWith;
    var s, sub := a + " " + b, p + " " + q;
    forall i | 0 <= i <= |s| - |sub| && At(s, i, sub) ensures (EndsWith(a, p) && StartsWith(b, q)) || Contains(b, sub) {
      AtChar(s, i, sub, |p|);
      if i > |a| {
        AtRight(a + " ", b, i, sub);
        assert At(b, i - |a| - 1, sub);
      } else {
        assert forall k :: 0 <= k < |a| ==> s[k] == a[k];
        if i + |p| > |a| { AtChar(s, i, sub, |a| - i); }
        StraddleAt(a, b, p, q);
      }
    }
    if EndsWith(a, p) && StartsWith(b, q) {
      Straddles(a, b, p, q);
    }
    if Contains(b, sub) { ContainsRight(a + " ", b, sub); }
  }

  lemma Straddles(a: string, b: string, p: string, q: string)
    requires EndsWith(a, p) && StartsWith(b, q)
    ensures Contains(a + " " + b, p + " " + q)
  {
    StraddleAt(a, b, p, q);
    assert At(a + " " + b, |a| - |p|, p + " " + q);
  }

  // ---- lines -------------------------------------------------------------------------------------

  predicate Words(ws: seq<string>) { forall k :: 0 <= k < |ws| ==> ws[k] != "" && SpaceFree(ws[k]) }

  lemma {:induction false} LineContains(ws: seq<string>, sub: string)
    requires ws != [] && SpaceFree(sub) && sub != ""
    ensures Contains(Line(ws), sub) <==> exists k :: 0 <= k < |ws| && Contains(ws[k], sub)
  {
    hide Contains, SpaceFree;
    if |ws| > 1 {
      InOneWord(ws[0], Line(ws[1..]), sub);
      LineContains(ws[1..], sub);
      if Contains(Line(ws[1..]), sub) {
        var k :| 0 <= k < |ws[1..]| && Contains(ws[1..][k], sub);
        assert Contains(ws[k + 1], sub);
      }
      if exists k :: 1 <= k < |ws| && Contains(ws[k], sub) {
        var k :| 1 <= k < |ws| && Contains(ws[k], sub);
        assert Contains(ws[1..][k - 1], sub);
      }
    }
  }

  predicate Joint(ws: seq<string>, k: int, p: string, q: string) {
    0 <= k < |ws| - 1 && EndsWith(ws[k], p) && StartsWith(ws[k + 1], q)
  }

  lemma LineStarts(ws: seq<string>, q: string)
    requires ws != [] && SpaceFree(q)
    ensures StartsWith(Line(ws), q) <==> StartsWith(ws[0], q)
  {
    if |ws| > 1 {
      var s := ws[0] + " " + Line(ws[1..]);
      assert q <= s ==> forall k :: 0 <= k < |q| ==> q[k] == s[k];
      assert s[|ws[0]|] == ' ' && forall k :: 0 <= k < |ws[0]| ==> s[k] == ws[0][k];
    }
  }

  lemma {:induction false} LineAcross(ws: seq<string>, p: string, q: string)
    requires ws != [] && Words(ws) && SpaceFree(p) && SpaceFree(q) && p != ""
    ensures Contains(Line(ws), p + " " + q) <==> exists k :: Joint(ws, k, p, q)
  {
    if |ws| > 1 {
      var rest := ws[1..];
      AcrossBlank(ws[0], Line(rest), p, q);
      LineStarts(rest, q);
      LineAcross(rest, p, q);
      if Contains(Line(rest), p + " " + q) {
        var k :| Joint(rest, k, p, q);
        assert Joint(ws, k + 1, p, q);
      }
      if EndsWith(ws[0], p) && StartsWith(Line(rest), q) { assert Joint(ws, 0, p, q); }
      if exists k :: Joint(ws, k, p, q) {
        var k :| Joint(ws, k, p, q);
        if k > 0 { assert Joint(rest, k - 1, p, q); }
      }
    } else {
      NoBlankInside(ws[0], p, q);
    }
  }

  lemma NoBlankInside(a: string, p: string, q: string)
    requires SpaceFree(a)
    ensures !Contains(a, p + " " + q)
  {
    forall i | 0 <= i <= |a| - |p + " " + q| ensures !At(a, i, p + " " + q) {
      if At(a, i, p + " " + q) { AtChar(a, i, p + " " + q, |p|); }
    }
  }

  /** A slash at the start of the text or behind a blank. */
  predicate SlashStart(s: string) { exists i :: 0 <= i < |s| && s[i] == '/' && (i > 0 ==> IsSpace(s[i - 1])) }

  lemma {:induction false} NoSlashStart(ws: seq<string>)
    requires ws != [] && Words(ws) && forall k :: 0 <= k < |ws| ==> ws[k][0] != '/'
    ensures !SlashStart(Line(ws))
  {
    var s := Line(ws);
    if |ws| > 1 {
      NoSlashStart(ws[1..]);
      var b := Line(ws[1..]);
      forall i | 0 <= i < |s| && s[i] == '/' ensures i > 0 && !IsSpace(s[i - 1]) {
        if i < |ws[0]| {
          assert forall k :: 0 <= k < |ws[0]| ==> s[k] == ws[0][k];
        } else {
          assert i > |ws[0]| && s[i] == b[i - |ws[0]| - 1];
          if i > |ws[0]| + 1 { assert s[i - 1] == b[i - |ws[0]| - 2]; }
        }
      }
    } else {
      assert s == ws[0];
    }
  }

  lemma ShutdownRight(a: string, b: string, i: int, j: int)
    requires ShutdownFrom(a + " " + b, i, j) && i > |a|
    ensures ShutdownFrom(b, i - |a| - 1, j - |a| - 1)
  {
    AtRight(a + " ", b, i, "shutdown");
    AtRight(a + " ", b, j, "-r");
    forall k | i - |a| - 1 + 8 <= k < j - |a| - 1 ensures IsSpace(b[k]) { assert b[k] == (a + " " + b)[k + |a| + 1]; }
  }

  lemma ShutdownAcross(a: string, b: string, i: int, j: int)
    requires ShutdownFrom(a + " " + b, i, j) && i <= |a| && SpaceFree(a) && b != "" && !IsSpace(b[0])
    ensures EndsWith(a, "shutdown") && StartsWith(b, "-r")
  {
    var s := a + " " + b;
    ShutdownSplits(a, b, i, j);
    assert s[|a| + 1] == b[0];
    assert j == |a| + 1;
    AtRight(a + " ", b, j, "-r");
    assert b[..2] == "-r";
  }

  /** A shutdown with -r spans two neighbouring words. */
  lemma {:induction false} ShutdownJoint(ws: seq<string>, i: int, j: int)
    requires ws != [] && Words(ws) && ShutdownFrom(Line(ws), i, j)
    ensures exists k :: Joint(ws, k, "shutdown", "-r")
  {
    assert IsSpace(Line(ws)[i + 8]);
    if |ws| > 1 {
      var a, rest := ws[0], ws[1..];
      var b := Line(rest);
      assert Words(rest) && rest != [];
      hide ShutdownFrom;
      if i > |a| {
        ShutdownRight(a, b, i, j);
        ShutdownJoint(rest, i - |a| - 1, j - |a| - 1);
        var k :| Joint(rest, k, "shutdown", "-r");
        assert Joint(ws, k + 1, "shutdown", "-r");
      } else {
        ShutdownAcross(a, b, i, j);
        LineStarts(rest, "-r");
        assert Joint(ws, 0, "shutdown", "-r");
      }
    }
  }

  lemma ShutdownSplits(a: string, b: string, i: int, j: int)
    requires SpaceFree(a) && ShutdownFrom(a + " " + b, i, j) && i <= |a|
    ensures EndsWith(a, "shutdown") && i + 8 == |a|
  {
    var s := a + " " + b;
    assert forall k :: 0 <= k < |a| ==> s[k] == a[k];
    assert SpaceFree("shutdown");
    assert i + 8 <= |a| by {
      if i + 8 > |a| { AtChar(s, i, "shutdown", |a| - i); }
    }
    assert IsSpace(s[i + 8]);
    assert i + 8 == |a|;
    assert s == a + (" " + b);
  }

  // ---- lower case --------------------------------------------------------------------------------

  lemma LowerWords(ws: seq<string>)
    ensures Lower(Line(ws)) == Line(LowerAll(ws))
  {
    if |ws| > 1 {
      LowerWords(ws[1..]);
      assert LowerAll(ws)[1..] == LowerAll(ws[1..]);
      assert Lower(ws[0] + " " + Line(ws[1..])) == Lower(ws[0]) + " " + Lower(Line(ws[1..]));
    }
  }

  function LowerAll(ws: seq<string>): seq<string> { seq(|ws|, k requires 0 <= k < |ws| => Lower(ws[k])) }

  lemma LowerKeeps(s: string)
    ensures |Lower(s)| == |s|
    ensures SpaceFree(s) ==> SpaceFree(Lower(s))
    ensures '/' !in s ==> '/' !in Lower(s)
  {
  }

  // ---- rendering and evaluating agree ------------------------------------------------------------

  lemma NoScript(ws: seq<string>)
    requires ws != [] && Words(ws) && forall k :: 0 <= k < |ws| ==> ws[k][0] != '/'
    ensures !PublicScript(Line(ws))
  {
    hide Line, SpaceFree;
    NoSlashStart(ws);
    assert PublicScript(Line(ws)) ==> SlashStart(Line(ws));
  }

  /** The word is looked for inside one word of a line: a blank is a word's boundary. */
  lemma RebootBeside(a: string, b: string, i: int)
    ensures var s := a + " " + b;
            && (i > |a| ==> (RebootAt(s, i) <==> RebootAt(b, i - |a| - 1)))
            && (i <= |a| ==> (RebootAt(s, i) <==> RebootAt(a, i)))
            && (RebootAt(a, i) ==> i < |a|)
  {
    var s := a + " " + b;
    assert s == a + (" " + b);
    if i > |a| {
      AtRight(a + " ", b, i, "reboot");
      assert forall k :: |a| < k < |s| ==> s[k] == b[k - |a| - 1];
    } else if i + 6 <= |a| {
      assert forall k :: 0 <= k < |a| ==> s[k] == a[k];
    } else if At(s, i, "reboot") {
      AtChar(s, i, "reboot", |a| - i);
    }
  }

  lemma {:induction false} LineNamesReboot(ws: seq<string>)
    requires ws != []
    ensures NamesReboot(Line(ws)) <==> exists k :: 0 <= k < |ws| && NamesReboot(ws[k])
  {
    hide RebootAt;
    if |ws| > 1 {
      var a, b := ws[0], Line(ws[1..]);
      var s := a + " " + b;
      LineNamesReboot(ws[1..]);
      forall i { RebootBeside(a, b, i); }
      if NamesReboot(a) { var i :| 0 <= i < |a| && RebootAt(a, i); assert RebootAt(s, i); }
      if NamesReboot(b) { var i :| 0 <= i < |b| && RebootAt(b, i); assert RebootAt(s, i + |a| + 1); }
      if NamesReboot(s) {
        var i :| 0 <= i < |s| && RebootAt(s, i);
        assert if i > |a| then RebootAt(b, i - |a| - 1) else RebootAt(a, i);
      }
      if exists k :: 1 <= k < |ws| && NamesReboot(ws[k]) {
        var k :| 1 <= k < |ws| && NamesReboot(ws[k]);
        assert NamesReboot(ws[1..][k - 1]);
      }
      if exists k :: 0 <= k < |ws[1..]| && NamesReboot(ws[1..][k]) {
        var k :| 0 <= k < |ws[1..]| && NamesReboot(ws[1..][k]);
        assert NamesReboot(ws[k + 1]);
      }
    }
  }

  /** A line asks for a reboot exactly if one of its words does, if none of them shuts down. */
  lemma RebootsMean(ws: seq<string>)
    requires ws != [] && Words(ws) && forall k :: !Joint(ws, k, "shutdown", "-r")
    ensures AsksReboot(Line(ws)) <==> exists k :: 0 <= k < |ws| && NamesReboot(ws[k])
  {
    hide Line, SpaceFree, Joint, At, ShutdownFrom, Boundary, NamesReboot;
    var s := Line(ws);
    LineNamesReboot(ws);
    forall i, j | 0 <= i < j < |s| ensures !ShutdownFrom(s, i, j) {
      if ShutdownFrom(s, i, j) { ShutdownJoint(ws, i, j); }
    }
  }

  /** The fixed words of the rendered commands are in lower case, plain, and without the telling letters. */
  predicate Plain(w: string) {
    w != "" && SpaceFree(w) && w[0] != '/' && 'b' !in w && (forall i :: 0 <= i < |w| ==> !('A' <= w[i] <= 'Z'))
  }

  lemma PlainWord(w: string)
    requires Plain(w)
    ensures Lower(w) == w && !NamesReboot(w)
  {
    NoNameWithout(w);
  }

  lemma NoNameWithout(w: string)
    requires 'b' !in w
    ensures !NamesReboot(w)
  {
    hide Boundary;
    forall i | 0 <= i < |w| ensures !RebootAt(w, i) { if At(w, i, "reboot") { AtChar(w, i, "reboot", 2); } }
  }

  lemma PlainSystemctl()
    ensures Plain("systemctl") && Plain("is-active")
  {
  }

  lemma PlainJournalctl()
    ensures Plain("journalctl") && Plain("-u") && Plain("--since") && Plain("-5min")
  {
  }

  lemma PlainOptions()
    ensures Plain("--no-pager") && Plain("-n") && Plain("80")
  {
  }

  lemma {:induction false} HealthWords(unit: string)
    requires UnitName(unit)
    ensures Lower(HealthCommand(unit)) == Line(["systemctl", "is-active", Lower(unit)])
    ensures Words(["systemctl", "is-active", Lower(unit)])
  {
    PlainSystemctl();
    PlainWord("systemctl");
    PlainWord("is-active");
    LowerKeeps(unit);
    LowerWords(["systemctl", "is-active", unit]);
    assert LowerAll(["systemctl", "is-active", unit]) == ["systemctl", "is-active", Lower(unit)];
  }

  /** Words that are plain save one are no script, and ask for a reboot exactly if that one does. */
  lemma PlainSaveOne(ws: seq<string>, odd: nat)
    requires odd < |ws| && Words(ws) && (forall k :: 0 <= k < |ws| && k != odd ==> Plain(ws[k]))
    requires ws[odd][0] != '/' && forall k :: !Joint(ws, k, "shutdown", "-r")
    ensures !PublicScript(Line(ws)) && (AsksReboot(Line(ws)) <==> NamesReboot(ws[odd]))
  {
    hide PublicScript, AsksReboot, Line, NamesReboot, Joint, SpaceFree;
    forall k | 0 <= k < |ws| && k != odd ensures ws[k][0] != '/' && !NamesReboot(ws[k]) { PlainWord(ws[k]); }
    NoScript(ws);
    RebootsMean(ws);
  }

  /** A rendered health check is recognised as one exactly if the unit's name does not hold the word reboot. */
  lemma HealthAgrees(unit: string)
    requires UnitName(unit)
    ensures CheckTypeOf(HealthCommand(unit)) == if NamesReboot(Lower(unit)) then Reboot else ServiceHealth
  {
    var n := Lower(unit);
    var ws := ["systemctl", "is-active", n];
    HealthWords(unit);
    LowerKeeps(unit);
    PlainSystemctl();
    hide Lower, Plain, Contains, NamesReboot, PublicScript, AsksReboot, Line, SpaceFree;
    assert ws[2] == n && n[0] != '/';
    PlainSaveOne(ws, 2);
    HealthQuery(ws);
  }

  lemma HealthQuery(ws: seq<string>)
    requires ws != [] && Words(ws) && Joint(ws, 0, "systemctl", "is-active")
    ensures Contains(Line(ws), "systemctl is-active")
  {
    hide Contains, Line, Joint;
    assert SpaceFree("systemctl") && SpaceFree("is-active");
    LineAcross(ws, "systemctl", "is-active");
    assert "systemctl" + " " + "is-active" == "systemctl is-active";
  }

  lemma BenefitWords(url: string)
    requires Url(url)
    ensures Lower(BenefitCommand(url)) == Line(["curl", "-ss", "-i", Lower(url)])
    ensures Lower(url) != "" && SpaceFree(Lower(url)) && Lower(url)[0] == 'h'
  {
    PlainWord("curl");
    PlainWord("-i");
    LowerKeeps(url);
    LowerWords(["curl", "-sS", "-i", url]);
    assert Lower("-sS") == "-ss";
    assert LowerAll(["curl", "-sS", "-i", url]) == ["curl", "-ss", "-i", Lower(url)];
    assert url[0] == 'h';
  }

  /** A rendered customer check is recognised as one exactly if the URL does not hold the word reboot. */
  lemma BenefitAgrees(url: string)
    requires Url(url)
    ensures CheckTypeOf(BenefitCommand(url)) == if NamesReboot(Lower(url)) then Reboot else CustomerBenefit
  {
    var ws := ["curl", "-ss", "-i", Lower(url)];
    BenefitWords(url);
    hide Lower, Contains, NamesReboot, PublicScript, AsksReboot, Line;
    assert forall k :: !Joint(ws, k, "shutdown", "-r");
    PlainSaveOne(ws, 3);
    NoHealth(ws);
    CurlFirst(ws);
  }

  /** No service health check: no word ends in systemctl before one that goes on with a status query. */
  lemma NoHealth(ws: seq<string>)
    requires ws != [] && Words(ws)
    requires forall k :: !Joint(ws, k, "systemctl", "is-active") && !Joint(ws, k, "systemctl", "status")
    ensures !Contains(Line(ws), "systemctl is-active") && !Contains(Line(ws), "systemctl status")
  {
    hide Contains, Line, Joint;
    assert SpaceFree("systemctl") && SpaceFree("is-active") && SpaceFree("status");
    LineAcross(ws, "systemctl", "is-active");
    LineAcross(ws, "systemctl", "status");
    assert "systemctl" + " " + "is-active" == "systemctl is-active";
    assert "systemctl" + " " + "status" == "systemctl status";
  }

  lemma CurlFirst(ws: seq<string>)
    requires |ws| > 1 && ws[0] == "curl"
    ensures Contains(" " + Line(ws), "curl ")
  {
    var s := " " + Line(ws);
    assert s == " " + ("curl" + " " + Line(ws[1..]));
    assert s[1..6] == "curl ";
    assert At(s, 1, "curl ");
  }

  /** One of the network tools' names right before a blank. */
  predicate EndsInTool(w: string) { EndsWith(w, "curl") || EndsWith(w, "ss") || EndsWith(w, "nc") }

  predicate ToolBefore(ws: seq<string>, k: int) { 0 <= k < |ws| - 1 && EndsInTool(ws[k]) }

  lemma ToolsMean(ws: seq<string>)
    requires ws != [] && Words(ws)
    ensures (Contains(" " + Line(ws), "curl ") || Contains(" " + Line(ws), "ss ")
      || Contains(" " + Line(ws), "nc ")) <==> exists k :: ToolBefore(ws, k)
  {
    ToolMeans(ws, "curl");
    ToolMeans(ws, "ss");
    ToolMeans(ws, "nc");
    assert "curl" + " " == "curl " && "ss" + " " == "ss " && "nc" + " " == "nc ";
    hide Contains, Line, EndsWith;
    forall k | Ends(ws, k, "curl") || Ends(ws, k, "ss") || Ends(ws, k, "nc") ensures ToolBefore(ws, k) { }
    if exists k :: ToolBefore(ws, k) {
      var k :| ToolBefore(ws, k);
      assert Ends(ws, k, "curl") || Ends(ws, k, "ss") || Ends(ws, k, "nc");
    }
  }

  predicate Ends(ws: seq<string>, k: int, p: string) { 0 <= k < |ws| - 1 && EndsWith(ws[k], p) }

  lemma ToolMeans(ws: seq<string>, p: string)
    requires ws != [] && Words(ws) && SpaceFree(p) && p != ""
    ensures Contains(" " + Line(ws), p + " ") <==> exists k :: Ends(ws, k, p)
  {
    LineAcross(ws, p, "");
    assert p + " " + "" == p + " ";
    LeadingBlank(Line(ws), p + " ");
    if exists k :: Ends(ws, k, p) {
      var k :| Ends(ws, k, p);
      assert Joint(ws, k, p, "");
    }
    if exists k :: Joint(ws, k, p, "") {
      var k :| Joint(ws, k, p, "");
      assert Ends(ws, k, p);
    }
  }

  lemma LeadingBlank(s: string, sub: string)
    requires sub != "" && sub[0] != ' '
    ensures Contains(" " + s, sub) <==> Contains(s, sub)
  {
    if Contains(s, sub) { ContainsRight(" ", s, sub); }
    if Contains(" " + s, sub) {
      var i :| 0 <= i <= |" " + s| - |sub| && At(" " + s, i, sub);
      AtChar(" " + s, i, sub, 0);
      AtRight(" ", s, i, sub);
      assert At(s, i - 1, sub);
    }
  }

  function LogWords(n: string): seq<string> { ["journalctl", "-u", n, "--since", "-5min", "--no-pager", "-n", "80"] }

  lemma LogsWords(unit: string)
    requires UnitName(unit)
    ensures Lower(LogsCommand(unit)) == Line(LogWords(Lower(unit))) && Words(LogWords(Lower(unit)))
    ensures forall k :: 0 <= k < |LogWords(Lower(unit))| && k != 2 ==> Plain(LogWords(Lower(unit))[k])
  {
    PlainJournalctl();
    PlainOptions();
    LowerKeeps(unit);
    hide Lower;
    forall k | 0 <= k < |LogWords(unit)| && k != 2 ensures Lower(LogWords(unit)[k]) == LogWords(unit)[k] {
      PlainWord(LogWords(unit)[k]);
    }
    assert LowerAll(LogWords(unit)) == LogWords(Lower(unit));
    LowerWords(LogWords(unit));
  }

  /** An option word that begins none of the texts looked for, and ends none either. */
  predicate Inert(w: string) {
    && !StartsWith(w, "-r") && !StartsWith(w, "is-active") && !StartsWith(w, "status")
    && !EndsWith(w, "shutdown") && !EndsWith(w, "systemctl")
  }

  lemma InertByEnds(w: string)
    requires |w| >= 2 && (w[0] != '-' || w[1] != 'r') && w[0] != 'i' && w[0] != 's'
    requires w[|w| - 1] != 'l' && (w[|w| - 1] != 'n' || w[|w| - 2] != 'w')
    ensures Inert(w)
  {
  }

  predicate Harmless(ws: seq<string>, k: int) {
    !Joint(ws, k, "shutdown", "-r") && !Joint(ws, k, "systemctl", "is-active") && !Joint(ws, k, "systemctl", "status")
  }

  lemma LogJoints(n: string)
    ensures forall k :: Harmless(LogWords(n), k)
  {
    InertByEnds("-u");
    InertByEnds("--since");
    InertByEnds("-5min");
    InertByEnds("--no-pager");
    InertByEnds("-n");
    InertByEnds("80");
    forall k ensures Harmless(LogWords(n), k) {
    }
  }

  lemma LogTools(n: string)
    ensures (exists k :: ToolBefore(LogWords(n), k)) <==> EndsInTool(n)
  {
    var ws := LogWords(n);
    if EndsInTool(n) { assert ToolBefore(ws, 2); }
  }

  /**
   * A rendered log check is recognised as one exactly if the unit's name neither holds the word reboot nor ends in the
   * name of a network tool; otherwise the evaluator takes it for a reboot or for a customer check.
   */
  lemma LogsAgree(unit: string)
    requires UnitName(unit)
    ensures var n := Lower(unit);
            CheckTypeOf(LogsCommand(unit)) ==
            if NamesReboot(n) then Reboot else if EndsInTool(n) then CustomerBenefit else LogsClean
  {
    var n := Lower(unit);
    var ws := LogWords(n);
    LogsWords(unit);
    LowerKeeps(unit);
    LogJoints(n);
    LogTools(n);
    hide Lower, Plain, PublicScript, AsksReboot, Line, Joint, ToolBefore, EndsInTool, Contains, NamesReboot;
    forall k ensures !Joint(ws, k, "shutdown", "-r") && !Joint(ws, k, "systemctl", "is-active")
      && !Joint(ws, k, "systemctl", "status") {
      assert Harmless(ws, k);
    }
    assert ws[2] == n && n[0] != '/';
    PlainSaveOne(ws, 2);
    NoHealth(ws);
    ToolsMean(ws);
    JournalFirst(ws);
  }

  lemma JournalFirst(ws: seq<string>)
    requires |ws| > 1 && ws[0] == "journalctl"
    ensures Contains(Line(ws), "journalctl")
  {
    assert Line(ws) == "journalctl" + (" " + Line(ws[1..]));
    assert Line(ws)[0..10] == "journalctl";
    assert At(Line(ws), 0, "journalctl");
  }

  lemma RestartWords(unit: string)
    requires UnitName(unit)
    ensures Lower(RestartCommand(unit)) == Line(["sudo", "-n", "systemctl", "restart", Lower(unit)])
    ensures Words(["sudo", "-n", "systemctl", "restart", Lower(unit)])
  {
    PlainOptions();
    PlainSystemctl();
    LowerKeeps(unit);
    hide Lower;
    PlainWord("sudo");
    PlainWord("-n");
    PlainWord("systemctl");
    PlainWord("restart");
    assert LowerAll(["sudo", "-n", "systemctl", "restart", unit]) ==
      ["sudo", "-n", "systemctl", "restart", Lower(unit)];
    LowerWords(["sudo", "-n", "systemctl", "restart", unit]);
  }

  lemma RestartJoints(n: string)
    ensures var ws := ["sudo", "-n", "systemctl", "restart", n]; forall k :: Harmless(ws, k) && !ToolBefore(ws, k)
  {
    var ws := ["sudo", "-n", "systemctl", "restart", n];
    InertByEnds("restart");
    InertByEnds("-n");
    forall k ensures Harmless(ws, k) {
    }
  }

  lemma NoLogPaths(ws: seq<string>)
    requires forall k :: 0 <= k < |ws| ==> '/' !in ws[k]
    ensures forall k :: 0 <= k < |ws| ==> !Contains(ws[k], "/var/log/")
  {
    hide Contains;
    forall k | 0 <= k < |ws| ensures !Contains(ws[k], "/var/log/") { NotWithout(ws[k], "/var/log/", '/'); }
  }

  lemma RestartContains(ws: seq<string>, n: string)
    requires ws == ["sudo", "-n", "systemctl", "restart", n] && Words(ws) && '/' !in n
    ensures Contains(Line(ws), "restart")
    ensures Contains(Line(ws), "journalctl") <==> Contains(n, "journalctl")
    ensures !Contains(Line(ws), "/var/log/")
  {
    NotWithout("sudo", "journalctl", 'j');
    NotWithout("-n", "journalctl", 'j');
    NotWithout("systemctl", "journalctl", 'j');
    NotWithout("restart", "journalctl", 'j');
    NoLogPaths(ws);
    assert At("restart", 0, "restart");
    assert Contains(ws[3], "restart");
    assert SpaceFree("restart") && SpaceFree("journalctl") && SpaceFree("/var/log/");
    hide Line, SpaceFree, Contains;
    LineContains(ws, "restart");
    LineContains(ws, "journalctl");
    LineContains(ws, "/var/log/");
    if Contains(n, "journalctl") { assert Contains(ws[4], "journalctl"); }
  }

  /**
   * A rendered restart check is recognised as one exactly if the unit's name holds neither the word reboot nor the
   * journal reader's name; otherwise the evaluator takes it for a reboot or for a log check.
   */
  lemma RestartAgrees(unit: string)
    requires UnitName(unit)
    ensures var n := Lower(unit);
            CheckTypeOf(RestartCommand(unit)) ==
            if NamesReboot(n) then Reboot else if Contains(n, "journalctl") then LogsClean else Persistence
  {
    var n := Lower(unit);
    var ws := ["sudo", "-n", "systemctl", "restart", n];
    RestartWords(unit);
    LowerKeeps(unit);
    PlainOptions();
    PlainSystemctl();
    RestartJoints(n);
    hide Lower, PublicScript, AsksReboot, Line, Joint, ToolBefore, Contains, NamesReboot;
    forall k ensures !Joint(ws, k, "shutdown", "-r") && !Joint(ws, k, "systemctl", "is-active")
      && !Joint(ws, k, "systemctl", "status") {
      assert Harmless(ws, k);
    }
    PlainSaveOne(ws, 4);
    NoHealth(ws);
    ToolsMean(ws);
    RestartContains(ws, n);
  }

  lemma RsyncIs()
    ensures UnitName("rsync") && Lower("rsync") == "rsync" && EndsInTool("rsync") && !NamesReboot("rsync")
  {
    NoNameWithout("rsync");
  }

  lemma RebootIs()
    ensures UnitName("reboot") && NamesReboot(Lower("reboot"))
  {
    assert Lower("reboot") == "reboot";
    assert "reboot"[0..6] == "reboot";
    assert RebootAt("reboot", 0);
  }

  lemma JournalctlIs()
    ensures UnitName("my-journalctl") && Lower("my-journalctl") == "my-journalctl" && !NamesReboot("my-journalctl")
    ensures Contains("my-journalctl", "journalctl")
  {
    NoNameWithout("my-journalctl");
    hide IsSpace;
    assert "my-journalctl"[3..13] == "journalctl";
    assert At("my-journalctl", 3, "journalctl");
  }

  /** The exceptions are real: units whose checks the evaluator takes for another type. */
  lemma MisreadUnits()
    ensures CheckTypeOf(LogsCommand("rsync")) == CustomerBenefit
    ensures CheckTypeOf(RestartCommand("my-journalctl")) == LogsClean
    ensures CheckTypeOf(HealthCommand("reboot")) == Reboot
  {
    hide CheckTypeOf, LogsCommand, RestartCommand, HealthCommand, UnitName, Lower, EndsInTool, NamesReboot, Contains;
    RsyncIs();
    RebootIs();
    JournalctlIs();
    LogsAgree("rsync");
    RestartAgrees("my-journalctl");
    HealthAgrees("reboot");
  }
}
