/** `late_failure`: a script that fails just before its final COMMIT, built by cutting and joining text. */
module LateFailure {
  import opened Text
  import opened Scanner
  import opened ScannerLaws
  import opened Masking
  import opened Fragments
  import opened Builder
  import opened BuilderLaws

  const RAISE := " BEGIN RAISE EXCEPTION USING " + "ERRCODE='P4001'; END "
  const FAILURE := "DO " + "$$" + RAISE + "$$" + ";"

  /** `^COMMIT;\r?$` matches at the head of s, given that s starts a line. */
  predicate CommitAt(s: string) {
    "COMMIT;" <= s &&
    (var z := s[7..]; z == "" || z[0] == '\n' || (z[0] == '\r' && (|z| == 1 || z[1] == '\n')))
  }

  /** The number of lines that consist of COMMIT; alone. */
  function CommitLines(s: string, start: bool): nat {
    if s == "" then 0
    else (if start && CommitAt(s) then 1 else 0) + CommitLines(s[1..], s[0] == '\n')
  }

  function NewlineOf(text: string): string {
    if EndsWith(text, "COMMIT;\r\n") then "\r\n" else "\n"
  }

  function LateFailure(text: string, control: string): Result<string> {
    var ending := "COMMIT;" + NewlineOf(text);
    if EndsWith(text, ending) && CommitLines(text, true) == 1
    then Ok(text[..|text| - |ending|] + control + (FAILURE + NewlineOf(text)) + ending)
    else Err
  }

  predicate IsNewline(nl: string) {
    nl == "\n" || nl == "\r\n"
  }

  lemma NewlineFacts(nl: string)
    requires IsNewline(nl)
    ensures Blank(nl) && Newlines(nl) == 1 && nl != "" && IsSpace(nl[0]) && nl[|nl| - 1] == '\n' && Inert(nl)
  {
    if nl == "\r\n" {
      assert nl[1..] == "\n";
    }
    NoNewlines("");
    assert Newlines("\n") == 1 + Newlines("\n"[1..]);
    BlankIsInert(nl);
  }

  /** A final COMMIT line is one statement with whatever is still in the buffer. */
  lemma CommitRun(nl: string, buf: string, line: nat)
    requires IsNewline(nl)
    ensures Run("COMMIT;" + nl, buf, line) == Some(Emit(buf + "COMMIT", line))
  {
    NewlineFacts(nl);
    assert Calm("COMMIT");
    hide Run, Emit, Newlines, Calm;
    assert "COMMIT;" + nl == "COMMIT" + (";" + nl);
    CalmRun("COMMIT", ";" + nl, buf, line);
    StopHere(nl, buf + "COMMIT", line);
    BlankRun(nl, "", line + Newlines(buf + "COMMIT"));
    assert Emit(buf + "COMMIT", line) + [] == Emit(buf + "COMMIT", line);
    assert Blank("");
  }

  lemma LastBlank(a: string, z: string)
    requires Blank(z) && z != ""
    ensures IsSpace((a + z)[|a + z| - 1])
  {
    assert (a + z)[|a + z| - 1] == z[|z| - 1];
  }

  /** If that statement is COMMIT alone, the buffer was blank. */
  lemma OnlyCommit(buf: string)
    requires Strip(buf + "COMMIT") + ";" == "COMMIT;"
    ensures Blank(buf)
  {
    var u := buf + "COMMIT";
    assert u[|u| - 1] == 'T';
    assert !IsSpace(u[|u| - 1]);
    var a, m, z := Significant(u);
    assert m == (m + ";")[..|m|] == ("COMMIT" + ";")[..|m|] && |m| == 6 by {
      assert |m + ";"| == 7;
    }
    if z != "" {
      LastBlank(a + m, z);
      assert false;
    }
    assert a == u[..|a|] == buf;
  }

  /** A text before its final COMMIT line: it scans completely just when the whole ends in the statement COMMIT. */
  lemma {:induction false} BeforeCommit(r: string, nl: string, buf: string, line: nat)
    requires IsNewline(nl) && Run(r + ("\n" + ("COMMIT;" + nl)), buf, line).Some?
    ensures var ss := Run(r + ("\n" + ("COMMIT;" + nl)), buf, line).value;
      ss != [] && (ss[|ss| - 1].text == "COMMIT;" ==> Run(r + "\n", buf, line) == Some(ss[..|ss| - 1]))
    decreases |r|
  {
    var w := "\n" + ("COMMIT;" + nl);
    if r == "" {
      assert r + w == w && r + "\n" == "\n";
      BaseCommit(nl, buf, line);
    } else {
      TailFacts(nl);
      hide Inert, IsSpace;
      if Two(r, '-', '-') {
        CommentCut(r + w);
        CommentCut(r + "\n");
        LineEndLocal(r, w);
        LineEndLocal(r, "\n");
      } else {
        RunNotBroken(r + w, buf, line);
        CutLocal(r, w, "\n");
      }
      RunNotBroken(r + w, buf, line);
      StepCommit(r, nl, buf, line);
    }
  }

  lemma TailFacts(nl: string)
    requires IsNewline(nl)
    ensures Inert("\n" + ("COMMIT;" + nl)) && IsSpace('\n')
  {
  }

  lemma RunNotBroken(t: string, buf: string, line: nat)
    requires t != "" && Run(t, buf, line).Some?
    ensures CutOf(t) != Broken
  {
    hide CutOf;
  }

  lemma BaseCommit(nl: string, buf: string, line: nat)
    requires IsNewline(nl)
    ensures var r := Run("\n" + ("COMMIT;" + nl), buf, line);
      r.Some? && r.value != []
      && (r.value[|r.value| - 1].text == "COMMIT;" ==> Run("\n", buf, line) == Some(r.value[..|r.value| - 1]))
  {
    NewlineFacts("\n");
    hide Run, IsSpace;
    BlankThrough("\n", "COMMIT;" + nl, buf, line);
    CommitRun(nl, buf + "\n", line);
    var u := buf + "\n" + "COMMIT";
    assert u[|u| - 1] == 'T';
    NotSpaceT();
    BlankRun("\n", buf, line);
    if Strip(u) + ";" == "COMMIT;" {
      OnlyCommit(buf + "\n");
      BlankConcat(buf, "\n");
    }
    assert !Blank(u);
  }

  lemma NotSpaceT()
    ensures !IsSpace('T')
  {
  }

  lemma StepCommit(r: string, nl: string, buf: string, line: nat)
    requires IsNewline(nl) && r != "" && Run(r + ("\n" + ("COMMIT;" + nl)), buf, line).Some?
    requires var c := CutOf(r + ("\n" + ("COMMIT;" + nl)));
      c == CutOf(r + "\n") != Broken && (c.Gap? || c.Code? ==> c.n <= |r|)
    ensures var ss := Run(r + ("\n" + ("COMMIT;" + nl)), buf, line).value;
      ss != [] && (ss[|ss| - 1].text == "COMMIT;" ==> Run(r + "\n", buf, line) == Some(ss[..|ss| - 1]))
    decreases |r|, 0
  {
    var w := "\n" + ("COMMIT;" + nl);
    hide CutOf, Run, Emit, IsNewline, Newlines;
    var c := CutOf(r + w);
    Cutting(r, w, buf, line);
    Cutting(r, "\n", buf, line);
    match c {
      case Gap(n) => BeforeCommit(r[n..], nl, buf + Hide(r[..n]), line);
      case Code(n) => BeforeCommit(r[n..], nl, buf + r[..n], line);
      case Stop =>
        var e, l := Emit(buf, line), line + Newlines(buf);
        BeforeCommit(r[1..], nl, "", l);
        var rest := Run(r[1..] + w, "", l).value;
        assert (e + rest)[|e + rest| - 1] == rest[|rest| - 1];
        assert (e + rest)[..|e + rest| - 1] == e + rest[..|rest| - 1];
    }
  }

  /** For a text whose final COMMIT starts a line: complete up to there, or else no final statement COMMIT. */
  lemma CompleteBeforeCommit(p: string, nl: string, ss: seq<Stmt>)
    requires IsNewline(nl) && Closed(p)
    requires StatementsOf(p + "COMMIT;" + nl) == Some(ss)
    ensures ss != [] && (ss[|ss| - 1].text == "COMMIT;" <==> StatementsOf(p).Some?)
    ensures StatementsOf(p).Some? ==> StatementsOf(p).value == ss[..|ss| - 1]
  {
    hide Run, IsNewline, Newlines;
    CommitAlone(nl);
    if p == "" {
      assert p + "COMMIT;" + nl == "COMMIT;" + nl;
      BlankRun("", "", 0);
      assert Blank("");
    } else {
      var r := p[..|p| - 1];
      assert p == r + "\n" && p + "COMMIT;" + nl == r + ("\n" + ("COMMIT;" + nl));
      BeforeCommit(r, nl, "", 0);
      if StatementsOf(p).Some? {
        Homomorphism(p, "COMMIT;" + nl);
        assert p + "COMMIT;" + nl == p + ("COMMIT;" + nl);
      }
    }
  }

  lemma CommitAlone(nl: string)
    requires IsNewline(nl)
    ensures StatementsOf("COMMIT;" + nl) == Some([Stmt(1, "COMMIT;")])
  {
    CommitRun(nl, "", 0);
    assert "" + "COMMIT" == "COMMIT" && "COMMIT" + ";" == "COMMIT;";
    WholeText("COMMIT", 0);
  }

  /** The injected statement is one failing DO block. */
  lemma FailureAlone(nl: string)
    requires IsNewline(nl)
    ensures StatementsOf(FAILURE + nl) == Some([Stmt(1, FAILURE)]) && Newlines(FAILURE + nl) == 1
  {
    RaiseFacts();
    NewlineFacts(nl);
    hide *;
    DoBlock(RAISE, nl);
  }

  lemma DoBlock(body: string, nl: string)
    requires Sealed("$$", body) && Calm("DO ") && Newlines(body) == 0 && Blank(nl) && Newlines(nl) == 1
    ensures var s := "DO " + "$$" + body + "$$" + ";";
      StatementsOf(s + nl) == Some([Stmt(1, s)]) && Newlines(s + nl) == 1
  {
    hide Sealed, Calm, Run, Newlines, StatementsOf, Blank;
    var fs := [Word("DO "), Body("$$", body)];
    var s := "DO " + "$$" + body + "$$";
    PrintDo(body);
    OneStatement(fs, nl, 0);
    BlankRun(nl, "", 0 + Newlines(s));
    EmptyBlank();
    ScannedFrom(s + ";" + nl);
    JoinNothing([Stmt(1, s + ";")]);
    NoNewlines("DO ");
    NoNewlines("$$");
    NoNewlines(";");
    NewlinesConcat("DO ", "$$");
    NewlinesConcat("DO " + "$$", body);
    NewlinesConcat("DO " + "$$" + body, "$$");
    NewlinesConcat(s, ";");
    NewlinesConcat(s + ";", nl);
  }

  lemma PrintDo(body: string)
    ensures var s := "DO " + "$$" + body + "$$";
      PrintAll([Word("DO "), Body("$$", body)]) == s && !IsSpace(s[0]) && !IsSpace(s[|s| - 1])
  {
    var fs := [Word("DO "), Body("$$", body)];
    var rest := fs[1..];
    assert rest == [Body("$$", body)] && rest[1..] == [];
    assert PrintAll(rest) == "$$" + body + "$$" + "";
    assert PrintAll(fs) == "DO " + PrintAll(rest);
    assert "DO " + ("$$" + body + "$$") == "DO " + "$$" + body + "$$";
  }

  lemma EmptyBlank()
    ensures Blank("")
  {
  }

  lemma ScannedFrom(t: string)
    ensures StatementsOf(t) == Run(t, "", 0)
  {
  }

  lemma JoinNothing(ss: seq<Stmt>)
    ensures Join(ss, Some([])) == Some(ss)
  {
    assert ss + [] == ss;
  }

  lemma RaiseFacts()
    ensures Sealed("$$", RAISE) && Calm("DO ") && Newlines(RAISE) == 0
  {
    RaiseNoDollar();
    DollarFree(RAISE);
    assert OneLine(" BEGIN RAISE EXCEPTION USING ");
    assert OneLine("ERRCODE='P4001'; END ");
    NoNewlines(RAISE);
  }

  lemma RaiseNoDollar()
    ensures '$' !in RAISE
  {
    assert forall i | 0 <= i < |" BEGIN RAISE EXCEPTION USING "| :: " BEGIN RAISE EXCEPTION USING "[i] != '$';
    assert forall i | 0 <= i < |"ERRCODE='P4001'; END "| :: "ERRCODE='P4001'; END "[i] != '$';
  }

  lemma DollarFree(body: string)
    requires '$' !in body
    ensures Sealed("$$", body)
  {
    var t := body + "$$";
    assert t[|body|..] == "$$";
    forall k | 0 <= k < |body|
      ensures !("$$" <= t[k..])
    {
      assert t[k..][0] == body[k] && body[k] in body;
    }
    FindIs(t, "$$", |body|);
  }

  /**
   The negative variant of a complete script: its statements without the final COMMIT, then the control
   statements, then one failing DO, then COMMIT, with LF and with CRLF alike.
   */
  lemma LateFailureMeaning(p: string, nl: string, control: string)
    requires IsNewline(nl) && Closed(p) && Closed(control)
    requires StatementsOf(p).Some? && StatementsOf(control).Some?
    requires CommitLines(p + "COMMIT;" + nl, true) == 1
    ensures LateFailure(p + "COMMIT;" + nl, control).Ok?
    ensures var a, c := Newlines(p), Newlines(p) + Newlines(control);
      StatementsOf(LateFailure(p + "COMMIT;" + nl, control).value)
        == Some(StatementsOf(p).value + Shift(StatementsOf(control).value, a)
                + [Stmt(c + 1, FAILURE)] + [Stmt(c + 2, "COMMIT;")])
  {
    LateText(p, nl, control);
    CommitAlone(nl);
    FailureAlone(nl);
    hide *;
    InTurn(p, control, FAILURE + nl, "COMMIT;" + nl, FAILURE, "COMMIT;");
  }

  lemma InTurn(p: string, control: string, f: string, e: string, x: string, y: string)
    requires StatementsOf(p).Some? && Closed(p) && StatementsOf(control).Some? && Closed(control)
    requires StatementsOf(f) == Some([Stmt(1, x)]) && Newlines(f) == 1 && Closed(f)
    requires StatementsOf(e) == Some([Stmt(1, y)])
    ensures var a, c := Newlines(p), Newlines(p) + Newlines(control);
      StatementsOf(p + (control + (f + e)))
        == Some(StatementsOf(p).value + Shift(StatementsOf(control).value, a) + [Stmt(c + 1, x)] + [Stmt(c + 2, y)])
  {
    hide StatementsOf, Newlines, Closed;
    ThenAfter(f, e);
    ThenAfter(control, f + e);
    ThenAfter(p, control + (f + e));
    Gather(StatementsOf(p).value, StatementsOf(control).value, Newlines(p), Newlines(control), x, y);
  }

  lemma LateText(p: string, nl: string, control: string)
    requires IsNewline(nl) && CommitLines(p + "COMMIT;" + nl, true) == 1
    ensures LateFailure(p + "COMMIT;" + nl, control) == Ok(p + (control + ((FAILURE + nl) + ("COMMIT;" + nl))))
    ensures Closed(FAILURE + nl)
  {
    hide CommitLines;
    var text, e := p + "COMMIT;" + nl, "COMMIT;" + nl;
    assert text == p + e;
    assert text[|text| - |e|..] == e && text[..|text| - |e|] == p;
    NewlineSeen(p, nl);
    assert p + control + (FAILURE + nl) + e == p + (control + ((FAILURE + nl) + e));
    ClosedByNewline(FAILURE, nl);
  }

  lemma ClosedByNewline(f: string, nl: string)
    requires IsNewline(nl)
    ensures Closed(f + nl)
  {
  }

  lemma NewlineSeen(p: string, nl: string)
    requires IsNewline(nl)
    ensures NewlineOf(p + "COMMIT;" + nl) == nl
  {
    var text, z := p + "COMMIT;" + nl, "COMMIT;\r\n";
    if nl == "\r\n" {
      assert "COMMIT;" + nl == z;
      assert text[|text| - 9..] == z;
    } else {
      assert text[|text| - 2] == ';';
      assert |text| >= 9 ==> text[|text| - 9..][7] == ';' && z[7] == '\r';
    }
  }

  /** Homomorphism for a closed text that scans completely, the empty text included. */
  lemma ThenAfter(a: string, b: string)
    requires StatementsOf(a).Some? && Closed(a)
    ensures StatementsOf(a + b) == Join(StatementsOf(a).value, ShiftOpt(StatementsOf(b), Newlines(a)))
  {
    if a == "" {
      assert a + b == b;
      LinesShift(b, "", 0, 0);
      JoinLaws([], [], StatementsOf(b));
      assert StatementsOf("") == Some([]);
    } else {
      Homomorphism(a, b);
    }
  }

  lemma Gather(p: seq<Stmt>, k: seq<Stmt>, a: nat, n: nat, x: string, y: string)
    ensures Join(p, ShiftOpt(Join(k, ShiftOpt(Join([Stmt(1, x)], ShiftOpt(Some([Stmt(1, y)]), 1)), n)), a))
         == Some(p + Shift(k, a) + [Stmt(a + n + 1, x)] + [Stmt(a + n + 2, y)])
  {
    var fe := [Stmt(1, x)] + [Stmt(2, y)];
    assert Shift([Stmt(1, y)], 1) == [Stmt(2, y)];
    assert Shift(fe, n) == [Stmt(n + 1, x)] + [Stmt(n + 2, y)];
    var z := [Stmt(a + n + 1, x)] + [Stmt(a + n + 2, y)];
    assert Shift(k + Shift(fe, n), a) == Shift(k, a) + z;
    assert p + (Shift(k, a) + z) == p + Shift(k, a) + [Stmt(a + n + 1, x)] + [Stmt(a + n + 2, y)];
  }
}
