/** Two sources whose COMMIT the builder and the scanner take for part of a value, and the server for a statement. */
module ServerExamples {
  import opened Text
  import opened Scanner
  import opened ScannerLaws
  import opened Fragments
  import opened BuilderLaws
  import opened Release
  import opened ReleaseLaws
  import opened ReleaseMeaning
  import opened ServerScan
  import opened ServerLaws
  import opened Transactions
  import Lexer

  lemma {:induction false} ServerCalm(s: string, x: string, buf: string, line: nat, m: Mode)
    requires Calm(s)
    ensures Server(s + x, buf, line, m) == Server(x, buf + s, line, After(s, m))
  {
    if s == "" {
      assert s + x == x && buf + s == buf;
    } else {
      assert Plain(s[0]);
      CalmCut(s + x, m);
      assert (s + x)[..1] == s[..1] && (s + x)[1..] == s[1..] + x;
      assert buf + s[..1] + s[1..] == buf + s;
      hide ServerCut, BehindChar;
      ServerCalm(s[1..], x, buf + s[..1], line, BehindChar(s[0], m));
    }
  }

  lemma CalmCut(t: string, m: Mode)
    requires t != "" && Plain(t[0])
    ensures ServerCut(t, m) == Code(1) && Behind(t, 1, m) == BehindChar(t[0], m)
  {
    PlainCut(t);
    hide CutOf;
  }

  lemma {:induction false} AfterConcat(a: string, b: string, m: Mode)
    ensures After(a + b, m) == After(b, After(a, m))
  {
    if a == "" {
      assert a + b == b;
    } else {
      assert (a + b)[1..] == a[1..] + b;
      AfterConcat(a[1..], b, BehindChar(a[0], m));
    }
  }

  /** A word closed by a semicolon, whatever was read before it. */
  lemma ServerStop(s: string, rest: string, line: nat, m: Mode)
    requires Trimmed(s)
    ensures Server(";" + rest, s, line, m)
         == Join([Stmt(line + 1, s + ";")], Server(rest, "", line + Newlines(s), Between))
  {
    assert ServerCut(";" + rest, m) == Stop && (";" + rest)[1..] == rest;
    WholeText(s, line);
    hide Emit, ServerCut, Newlines;
  }

  /** The same behind a blank. */
  lemma ServerStopBlank(s: string, rest: string, line: nat, m: Mode)
    requires Trimmed(s) && Newlines(s) == 0
    ensures Server(";" + rest, " " + s, line, m) == Join([Stmt(line + 1, s + ";")], Server(rest, "", line, Between))
  {
    assert ServerCut(";" + rest, m) == Stop && (";" + rest)[1..] == rest;
    BlankEmit(s, line);
    hide Emit, ServerCut;
  }

  lemma BlankEmit(s: string, line: nat)
    requires Trimmed(s) && Newlines(s) == 0
    ensures Emit(" " + s, line) == [Stmt(line + 1, s + ";")] && Newlines(" " + s) == 0
  {
    hide IsSpace;
    assert IsSpace(' ') by { OneBlank(); }
    assert " " + s + "" == " " + s && Blank(" ");
    StripUnique(" " + s, " ", s, "");
    NoNewlines(" ");
    NewlinesConcat(" ", s);
    assert (" " + s)[..1] == " ";
  }

  lemma OneBlank()
    ensures IsSpace(' ')
  {
  }

  lemma CommitNext(end: string)
    ensures Server(" COMMIT" + (";" + end), "", 0, Between)
         == Join([Stmt(1, "COMMIT" + ";")], Server(end, "", 0, Between))
  {
    CommitWord();
    hide *;
    ServerCalm(" COMMIT", ";" + end, "", 0, Between);
    assert "" + " COMMIT" == " " + "COMMIT";
    ServerStopBlank("COMMIT", end, 0, After(" COMMIT", Between));
  }

  lemma CommitWord()
    ensures Calm(" COMMIT") && Trimmed("COMMIT") && Newlines("COMMIT") == 0
  {
    NoNewlines("COMMIT");
  }

  // A backslash in an escape string --------------------------------------------------------------------

  function EscapedSource(): string {
    "SELECT E" + ("'\\''" + (";" + (" COMMIT" + (";" + " --';\n"))))
  }

  lemma EscapeHead()
    ensures Calm("SELECT E") && After("SELECT E", Between) == InName(true)
  {
    assert "SELECT E" == "SELECT " + "E";
    AfterConcat("SELECT ", "E", Between);
    AfterEnds("SELECT ", Between);
    assert "E"[1..] == "";
  }

  lemma EscapeStep(rest: string, buf: string, line: nat)
    requires rest != "" && rest[0] != '\''
    ensures Server("'\\''" + rest, buf, line, InName(true)) == Server(rest, buf + "'\\''", line, BehindEscape(false))
  {
    var q := "'\\''";
    var t := q + rest;
    assert t[1..][2..] == "'" + rest && ("'" + rest)[0] == '\'';
    assert Lexer.EscapeEnd(t[1..][2..]) == Some(1);
    assert Lexer.EscapeEnd(t[1..]) == Some(3);
    assert ServerCut(t, InName(true)) == Code(4);
    assert t[..4] == q && t[4..] == rest;
    hide ServerCut, Lexer.EscapeEnd;
  }

  lemma CommentLast()
    ensures Server(" --';\n", "", 0, Between) == Some([])
  {
    var y := "--';\n";
    assert " --';\n" == " " + y && "" + " " == " ";
    CalmBlank();
    ServerCalm(" ", y, "", 0, Between);
    LastComment();
  }

  lemma CalmBlank()
    ensures Calm(" ") && Blank(" ") && After(" ", Between) == Between
  {
    assert " "[1..] == "";
  }

  lemma LastComment()
    ensures Server("--';\n", " ", 0, Between) == Some([])
  {
    var h := "--';";
    assert "--';\n" == h + "\n" && OneLine(h) && '\r' !in h;
    CommentThenEnd(h);
  }

  lemma CommentThenEnd(h: string)
    requires Two(h, '-', '-') && OneLine(h) && '\r' !in h
    ensures Server(h + "\n", " ", 0, Between) == Some([])
  {
    var t := h + "\n";
    UnderstoodComment(h, "");
    assert t + "" == t;
    LineEndAll(h);
    LineEndLocal(h, "\n");
    CommentCut(t);
    SpaceLine();
    CalmBlank();
    assert t[..|h|] == h && t[|h|..] == "\n";
    hide LineEnd, Understood, CutOf, Server;
    SameStatements(t, " ", 0, Between);
    BlankRun("\n", " " + Hide(h), 0);
    BlankConcat(" ", Hide(h));
  }

  /** A first statement, a COMMIT and the rest, once the server stands at the first semicolon. */
  lemma CommitFound(c: string, s: string, end: string, m: Mode, rest: seq<Stmt>)
    requires Server(c, "", 0, Between) == Server(";" + (" COMMIT" + (";" + end)), s, 0, m)
    requires Trimmed(s) && Newlines(s) == 0 && Server(end, "", 0, Between) == Some(rest)
    ensures ServerStatements(c) == Some([Stmt(1, s + ";")] + ([Stmt(1, "COMMIT" + ";")] + rest))
  {
    hide Server, Trimmed, Newlines;
    ServerStop(s, " COMMIT" + (";" + end), 0, m);
    CommitNext(end);
  }

  lemma EscapeByServer()
    ensures ServerStatements(EscapedSource())
         == Some([Stmt(1, "SELECT E" + "'\\''" + ";")] + ([Stmt(1, "COMMIT" + ";")] + []))
  {
    EscapeTrimmed();
    CommentLast();
    EscapeReached();
    hide *;
    CommitFound(EscapedSource(), "SELECT E" + "'\\''", " --';\n", BehindEscape(false), []);
  }

  lemma EscapeReached()
    ensures Server(EscapedSource(), "", 0, Between)
         == Server(";" + (" COMMIT" + (";" + " --';\n")), "SELECT E" + "'\\''", 0, BehindEscape(false))
  {
    EscapeHead();
    var z := " COMMIT" + (";" + " --';\n");
    assert "" + "SELECT E" == "SELECT E" && (";" + z)[0] == ';';
    hide Server, Calm, After;
    ServerCalm("SELECT E", "'\\''" + (";" + z), "", 0, Between);
    EscapeStep(";" + z, "SELECT E", 0);
  }

  lemma EscapeTrimmed()
    ensures Trimmed("SELECT E" + "'\\''") && Newlines("SELECT E" + "'\\''") == 0
  {
    NoNewlines("SELECT E");
    NoNewlines("'\\''");
    NewlinesConcat("SELECT E", "'\\''");
  }

  /** The scanner finds one statement. */
  lemma EscapeByScanner()
    ensures StatementsOf(EscapedSource()) == Some([Stmt(1, EscapedText() + ";")])
  {
    var v := "\\" + ("'" + "; COMMIT; --");
    EscapeSound(v);
    EscapeText(v);
    SpaceLine();
    hide *;
    StatementAlone([Word("SELECT E"), Quoted(v)], "\n");
  }

  function EscapedText(): string {
    "SELECT E" + ("'\\''" + ("; COMMIT; --" + "'"))
  }

  lemma EscapeText(v: string)
    requires v == "\\" + ("'" + "; COMMIT; --")
    ensures PrintAll([Word("SELECT E"), Quoted(v)]) == EscapedText() && EscapedSource() == EscapedText() + ";" + "\n"
  {
    PrintTwo(Word("SELECT E"), Quoted(v));
    EscapedLiteral("; COMMIT; --");
  }

  lemma EscapedLiteral(b: string)
    requires '\'' !in b
    ensures Literal("\\" + ("'" + b)) == "'\\''" + (b + "'")
  {
    PlainDouble(b);
    DoubleQuote(b);
    DoubleOther('\\', "'" + b);
    hide *;
    Around("\\", "'", b);
  }

  lemma Around(e: string, q: string, b: string)
    ensures q + (e + (q + q + b)) + q == q + e + q + q + (b + q)
  {
  }

  lemma DoubleQuote(b: string)
    ensures Double("'" + b) == "''" + Double(b)
  {
    assert ("'" + b)[1..] == b;
  }

  lemma DoubleOther(c: char, b: string)
    requires c != '\''
    ensures Double([c] + b) == [c] + Double(b)
  {
    assert ([c] + b)[1..] == b;
  }

  lemma {:induction false} PlainDouble(v: string)
    requires '\'' !in v
    ensures Double(v) == v
  {
    if v != "" {
      PlainDouble(v[1..]);
    }
  }

  lemma EscapeSound(v: string)
    ensures var fs := [Word("SELECT E"), Quoted(v)]; Sound(fs) && Trimmed(PrintAll(fs))
  {
    EscapeHead();
    PrintTwo(Word("SELECT E"), Quoted(v));
    hide Double, PrintAll, Calm;
    var z := Literal(v);
    assert z[|z| - 1] == '\'';
  }

  // Dollar signs in names ------------------------------------------------------------------------------

  function NamedSource(): string {
    "SELECT 1 AS a" + ("$$" + (";" + (" COMMIT" + (";" + NamedEnd()))))
  }

  function NamedEnd(): string {
    " SELECT 2 AS b" + ("$$" + (";" + "\n"))
  }

  /** A dollar sign in a name does not begin a tag. */
  lemma DollarsStep(rest: string, buf: string)
    ensures Server("$$" + rest, buf, 0, InName(false)) == Server(rest, buf + "$$", 0, InName(false))
  {
    var t := "$$" + rest;
    assert ServerCut(t, InName(false)) == Code(1) && t[..1] == "$" && t[1..] == "$" + rest;
    assert ServerCut(t[1..], InName(false)) == Code(1) && t[1..][..1] == "$" && t[1..][1..] == rest;
    assert buf + "$" + "$" == buf + "$$";
    hide ServerCut;
  }

  lemma NameReached(a: string, c: char, buf: string, rest: string)
    requires Calm(a) && EndsApart(a) && Plain(c) && StartsName(c) && c != 'e' && c != 'E'
    ensures Server(a + [c] + ("$$" + rest), buf, 0, Between) == Server(rest, buf + (a + [c]) + "$$", 0, InName(false))
  {
    AfterEnds(a, Between);
    AfterConcat(a, [c], Between);
    assert [c][1..] == "" && forall i | 0 <= i < |a + [c]| :: Plain((a + [c])[i]);
    hide Server, Plain;
    ServerCalm(a + [c], "$$" + rest, buf, 0, Between);
    DollarsStep(rest, buf + (a + [c]));
  }

  lemma NamedWords()
    ensures Calm("SELECT 1 AS ") && EndsApart("SELECT 1 AS ") && Calm(" SELECT 2 AS ") && EndsApart(" SELECT 2 AS ")
    ensures "SELECT 1 AS " + ['a'] == "SELECT 1 AS a" && " SELECT 2 AS " + ['b'] == " SELECT 2 AS b"
  {
  }

  lemma NamedTrimmed()
    ensures Trimmed("SELECT 1 AS a" + "$$") && Newlines("SELECT 1 AS a" + "$$") == 0
  {
    NoNewlines("SELECT 1 AS a" + "$$");
  }

  lemma LastTrimmed()
    ensures Trimmed("SELECT 2 AS b" + "$$") && Newlines("SELECT 2 AS b" + "$$") == 0
    ensures "" + " SELECT 2 AS b" + "$$" == " " + ("SELECT 2 AS b" + "$$")
  {
    NoNewlines("SELECT 2 AS b" + "$$");
  }

  lemma NamedLast()
    ensures Server(NamedEnd(), "", 0, Between) == Some([Stmt(1, "SELECT 2 AS b" + "$$" + ";")])
  {
    NamedWords();
    LastTrimmed();
    BreakLast();
    hide Server, Calm, EndsApart, Trimmed, Newlines;
    NameReached(" SELECT 2 AS ", 'b', "", ";" + "\n");
    ServerStopBlank("SELECT 2 AS b" + "$$", "\n", 0, InName(false));
    assert [Stmt(1, "SELECT 2 AS b" + "$$" + ";")] + [] == [Stmt(1, "SELECT 2 AS b" + "$$" + ";")];
  }

  lemma BreakLast()
    ensures Server("\n", "", 0, Between) == Some([])
  {
    assert CutOf("\n") == Code(1) && "\n"[1..] == "" && "\n"[..1] == "\n";
    SpaceLine();
    hide CutOf;
    assert "" + "\n" == "\n";
  }

  lemma NamedByServer()
    ensures ServerStatements(NamedSource())
         == Some([Stmt(1, "SELECT 1 AS a" + "$$" + ";")]
                 + ([Stmt(1, "COMMIT" + ";")] + [Stmt(1, "SELECT 2 AS b" + "$$" + ";")]))
  {
    NamedWords();
    NamedTrimmed();
    NamedLast();
    hide Server, Calm, EndsApart, Trimmed, Newlines;
    NameReached("SELECT 1 AS ", 'a', "", ";" + (" COMMIT" + (";" + NamedEnd())));
    assert "" + "SELECT 1 AS a" == "SELECT 1 AS a";
    CommitFound(NamedSource(), "SELECT 1 AS a" + "$$", NamedEnd(), InName(false),
                [Stmt(1, "SELECT 2 AS b" + "$$" + ";")]);
  }

  function NamedBody(): string {
    ";" + (" COMMIT" + (";" + " SELECT 2 AS b"))
  }

  /** The scanner finds one statement. */
  lemma NamedByScanner()
    ensures StatementsOf(NamedSource()) == Some([Stmt(1, "SELECT 1 AS a" + ("$$" + NamedBody() + "$$") + ";")])
  {
    var fs := [Word("SELECT 1 AS a"), Body("$$", NamedBody())];
    NamedSound(fs);
    NamedText(fs);
    SpaceLine();
    hide *;
    StatementAlone(fs, "\n");
  }

  lemma NamedText(fs: seq<Fragment>)
    requires fs == [Word("SELECT 1 AS a"), Body("$$", NamedBody())]
    ensures PrintAll(fs) == "SELECT 1 AS a" + ("$$" + NamedBody() + "$$")
    ensures NamedSource() == "SELECT 1 AS a" + ("$$" + NamedBody() + "$$") + ";" + "\n"
  {
    PrintTwo(fs[0], fs[1]);
    Regrouped("SELECT 1 AS a", "$$", ";", " COMMIT", " SELECT 2 AS b", "\n");
    hide PrintAll;
  }

  lemma Regrouped(a: string, d: string, s: string, c: string, b: string, n: string)
    ensures a + (d + (s + (c + (s + (b + (d + (s + n))))))) == a + (d + (s + (c + (s + b))) + d) + s + n
  {
  }

  lemma NamedSound(fs: seq<Fragment>)
    requires fs == [Word("SELECT 1 AS a"), Body("$$", NamedBody())]
    ensures Sound(fs) && Trimmed(PrintAll(fs))
  {
    NamedSealed();
    assert Calm("SELECT 1 AS a");
    PrintTwo(fs[0], fs[1]);
    hide PrintAll, Calm, Sealed, NamedBody;
    DollarEnds("SELECT 1 AS a", NamedBody());
  }

  lemma DollarEnds(a: string, b: string)
    requires a != "" && a[0] == 'S'
    ensures Trimmed(a + ("$$" + b + "$$"))
  {
    var t := a + ("$$" + b + "$$");
    assert t[0] == 'S' && t[|t| - 1] == '$';
  }

  lemma NamedSealed()
    ensures Sealed("$$", NamedBody())
  {
    var b := NamedBody();
    assert '$' !in b;
    hide NamedBody;
    DollarFree(b);
  }

  lemma DollarFree(b: string)
    requires '$' !in b
    ensures Sealed("$$", b)
  {
    var t := b + "$$";
    assert t[|b|..] == "$$";
    forall k | 0 <= k < |b|
      ensures !("$$" <= t[k..])
    {
      assert t[k..][0] == b[k];
    }
    FindIs(t, "$$", |b|);
  }

  // Both together --------------------------------------------------------------------------------------

  /** Both sources are accepted. The scanner finds neither an opening nor an end in them, so it counts one of each in
      the artifacts; the server finds a COMMIT. */
  lemma ServerFindsCommit(p: Plan, ending: string, e: Edge)
    requires IsEnding(ending)
    ensures forall c | c in {EscapedSource(), NamedSource()} ::
      && Ready(Alone(c)) && CountEdges(ReleaseStmts(Alone(c), p, ending), e) == 1
      && ServerStatements(c).Some? && CountEdges(ServerStatements(c).value, Closes) >= 1
  {
    EscapedLine();
    NamedLine();
    EscapeByScanner();
    NamedByScanner();
    EscapeByServer();
    NamedByServer();
    OwnEdges(Closes);
    hide *;
    QuietLine(EscapedSource(), EscapedText() + ";", p, ending, e);
    QuietLine(NamedSource(), "SELECT 1 AS a" + ("$$" + NamedBody() + "$$") + ";", p, ending, e);
    SecondCloses("SELECT E" + "'\\''" + ";", []);
    SecondCloses("SELECT 1 AS a" + "$$" + ";", [Stmt(1, "SELECT 2 AS b" + "$$" + ";")]);
  }

  lemma EscapedLine()
    ensures Line(EscapedSource()) && Two(EscapedText() + ";", 'S', 'E')
  {
  }

  lemma NamedLine()
    ensures Line(NamedSource()) && Two("SELECT 1 AS a" + ("$$" + NamedBody() + "$$") + ";", 'S', 'E')
  {
  }

  lemma QuietLine(c: string, text: string, p: Plan, ending: string, e: Edge)
    requires Line(c) && StatementsOf(c) == Some([Stmt(1, text)]) && IsEnding(ending) && Two(text, 'S', 'E')
    ensures Ready(Alone(c)) && CountEdges(ReleaseStmts(Alone(c), p, ending), e) == 1
  {
    hide *;
    OneLineArtifact(c, [Stmt(1, text)], p, ending, e);
    CountTwo(Stmt(1, text), Stmt(1, ""), e);
    SelectIsHarmless(text);
    HarmlessIsNeither(text, e);
  }

  lemma SelectIsHarmless(t: string)
    requires Two(t, 'S', 'E')
    ensures Harmless(t)
  {
  }

  lemma SecondCloses(a: string, rest: seq<Stmt>)
    requires Is(Closes, "COMMIT" + ";")
    ensures CountEdges([Stmt(1, a)] + ([Stmt(1, "COMMIT" + ";")] + rest), Closes) >= 1
  {
    hide Is;
    var z := Stmt(1, "COMMIT" + ";");
    CountConcat([Stmt(1, a)], [z] + rest, Closes);
    CountConcat([z], rest, Closes);
    CountTwo(z, z, Closes);
  }
}
