/** Where transactions open and close in the release artifacts. */
module Transactions {
  import opened Text
  import opened Scanner
  import opened ScannerLaws
  import opened Masking
  import opened Fragments
  import opened Builder
  import opened BuilderLaws
  import opened Release
  import opened ReleaseLaws
  import opened ReleaseMeaning

  // Transaction control ------------------------------------------------------------------------------

  function LowerChar(c: char): char {
    if 'A' <= c <= 'Z' then c - 'A' + 'a' else c
  }

  function Lower(s: string): (r: string)
    ensures |r| == |s| && forall i | 0 <= i < |s| :: r[i] == LowerChar(s[i])
  {
    seq(|s|, i requires 0 <= i < |s| => LowerChar(s[i]))
  }

  /** The words at the head of a statement, with whitespace between them, whatever their case. */
  function Words(t: string): (ws: seq<string>)
    ensures ws != [] ==> t != "" && ws[0] != "" && |ws[0]| <= |t|
    ensures ws != [] ==> forall i | 0 <= i < |ws[0]| :: ws[0][i] == LowerChar(t[i])
    decreases |t|
  {
    var n := WordLen(t);
    if n == 0 then [] else [Lower(t[..n])] + Words(t[n + Lead(t[n..])..])
  }

  /** Without the noise word that may follow the first. */
  function Core(ws: seq<string>): seq<string> {
    if |ws| >= 2 && (ws[1] == "work" || ws[1] == "transaction") then [ws[0]] + ws[2..] else ws
  }

  predicate IsCloserWord(w: string) {
    w == "commit" || w == "end" || w == "rollback" || w == "abort"
  }

  /** The statement ends the transaction it stands in; rolling back to a savepoint and deciding a prepared
      transaction do not. */
  predicate ClosesOne(t: string) {
    var ws := Words(t);
    var c := Core(ws);
    || (c != [] && IsCloserWord(c[0]) && (|c| >= 2 ==> c[1] != "to" && c[1] != "prepared"))
    || ["prepare", "transaction"] <= ws
  }

  /** The statement begins a transaction, also where it does so by ending another with `AND CHAIN`. */
  predicate OpensOne(t: string) {
    var ws := Words(t);
    || ["begin"] <= ws || ["start", "transaction"] <= ws
    || (ws != [] && IsCloserWord(ws[0]) && ["and", "chain"] <= Core(ws)[1..])
  }

  datatype Edge = Opens | Closes

  predicate Is(e: Edge, t: string) {
    if e.Opens? then OpensOne(t) else ClosesOne(t)
  }

  /** A statement that begins like those the release script adds is neither. */
  predicate Harmless(t: string) {
    t != "" && (t[0] in {'L', 'D', 'I'} || Two(t, 'S', 'E'))
  }

  lemma HarmlessIsNeither(t: string, e: Edge)
    requires Harmless(t)
    ensures !Is(e, t)
  {
    var ws := Words(t);
    hide Words;
    if ws != [] {
      assert ws[0][0] == LowerChar(t[0]) && (|ws[0]| > 1 ==> ws[0][1] == LowerChar(t[1]));
      NoControlWord(ws[0]);
      hide IsCloserWord;
    }
  }

  lemma NoControlWord(w: string)
    requires w != "" && (w[0] in {'l', 'd', 'i'} || (w[0] == 's' && (|w| > 1 ==> w[1] == 'e')))
    ensures w != "begin" && w != "start" && w != "prepare" && !IsCloserWord(w)
  {
  }

  lemma OneWordOnly(w: string)
    requires AllWord(w) && w != ""
    ensures Words(w + ";") == [Lower(w)]
  {
    WordLenAll(w);
    WordLocal(w, ";");
    var t := w + ";";
    assert t[..|w|] == w && t[|w|..] == ";";
    assert Lead(t[|w|..]) == 0;
  }

  lemma EdgeWords(w: string, e: Edge)
    requires AllWord(w) && w != ""
    ensures Is(e, w + ";") <==> if e.Opens? then Lower(w) == "begin" else IsCloserWord(Lower(w))
  {
    OneWordOnly(w);
    hide Words;
  }

  /** The boundaries of the artifacts themselves. */
  lemma OwnEdges(e: Edge)
    ensures Is(e, "BEGIN" + ";") <==> e.Opens?
    ensures Is(e, "COMMIT" + ";") <==> e.Closes?
    ensures Is(e, "ROLLBACK" + ";") <==> e.Closes?
  {
    assert Lower("BEGIN") == "begin" && Lower("COMMIT") == "commit" && Lower("ROLLBACK") == "rollback";
    assert AllWord("BEGIN") && AllWord("COMMIT") && AllWord("ROLLBACK");
    EdgeWords("BEGIN", e);
    EdgeWords("COMMIT", e);
    EdgeWords("ROLLBACK", e);
    hide Is;
  }

  // Counting -----------------------------------------------------------------------------------------

  function CountEdges(ss: seq<Stmt>, e: Edge): nat {
    if ss == [] then 0 else (if Is(e, ss[0].text) then 1 else 0) + CountEdges(ss[1..], e)
  }

  lemma {:induction false} CountConcat(a: seq<Stmt>, b: seq<Stmt>, e: Edge)
    ensures CountEdges(a + b, e) == CountEdges(a, e) + CountEdges(b, e)
  {
    hide Is;
    if a == [] {
      assert a + b == b;
    } else {
      assert (a + b)[1..] == a[1..] + b;
      CountConcat(a[1..], b, e);
    }
  }

  /** How often the statements of the sources open or close a transaction. */
  function SourceCount(sources: seq<Source>, e: Edge): nat
    requires AllComplete(sources)
  {
    if sources == [] then 0
    else CountEdges(StatementsOf(Unix(sources[0].content)).value, e) + SourceCount(sources[1..], e)
  }

  lemma {:induction false} CountShift(ss: seq<Stmt>, d: nat, e: Edge)
    ensures CountEdges(Shift(ss, d), e) == CountEdges(ss, e)
  {
    hide Is;
    if ss != [] {
      assert Shift(ss, d)[1..] == Shift(ss[1..], d);
      CountShift(ss[1..], d, e);
    }
  }

  lemma {:induction false} CountSources(sources: seq<Source>, line: nat, e: Edge)
    requires AllComplete(sources)
    ensures CountEdges(SourceStmts(sources, line), e) == SourceCount(sources, e)
  {
    hide StatementsOf, Unix, Block, Newlines, CountEdges;
    if sources == [] {
      NoneCounted([], e);
    } else {
      var ss := StatementsOf(Unix(sources[0].content)).value;
      var next := line + Newlines(Block(sources[0]));
      CountShift(ss, line + 2, e);
      CountSources(sources[1..], next, e);
      CountConcat(Shift(ss, line + 2), SourceStmts(sources[1..], next), e);
    }
  }

  predicate Without(ss: seq<Stmt>, e: Edge) {
    forall k | 0 <= k < |ss| :: !Is(e, ss[k].text)
  }

  lemma {:induction false} NoneCounted(ss: seq<Stmt>, e: Edge)
    ensures CountEdges(ss, e) == 0 <==> Without(ss, e)
  {
    hide Is;
    if ss != [] {
      NoneCounted(ss[1..], e);
      assert forall k | 1 <= k < |ss| :: ss[k] == ss[1..][k - 1];
      assert forall k | 0 <= k < |ss[1..]| :: ss[1..][k] == ss[k + 1];
    }
  }

  /** No statement of any source opens a transaction, or none closes one. */
  predicate SourcesWithout(sources: seq<Source>, e: Edge)
    requires AllComplete(sources)
  {
    forall i | 0 <= i < |sources| :: Without(StatementsOf(Unix(sources[i].content)).value, e)
  }

  lemma {:induction false} NoneInSources(sources: seq<Source>, e: Edge)
    requires AllComplete(sources)
    ensures SourceCount(sources, e) == 0 <==> SourcesWithout(sources, e)
  {
    hide StatementsOf, Unix, CountEdges, Without;
    if sources != [] {
      NoneCounted(StatementsOf(Unix(sources[0].content)).value, e);
      NoneInSources(sources[1..], e);
      assert forall k | 1 <= k < |sources| :: sources[k] == sources[1..][k - 1];
      assert forall k | 0 <= k < |sources[1..]| :: sources[1..][k] == sources[k + 1];
    }
  }

  predicate StartsHarmless(fs: seq<Fragment>) {
    fs != [] && fs[0].Word? && Harmless(fs[0].s)
  }

  lemma {:induction false} HarmlessScript(ss: seq<seq<Fragment>>, line: nat, e: Edge)
    requires forall k | 0 <= k < |ss| :: StartsHarmless(ss[k])
    ensures CountEdges(ScriptStmts(ss, line), e) == 0
  {
    hide Is, Newlines;
    if ss != [] {
      var next := line + Newlines(PrintAll(ss[0]) + ";\n");
      HarmlessScript(ss[1..], next, e);
      HarmlessPrint(ss[0], e);
      hide PrintAll;
      assert ScriptStmts(ss, line)[1..] == ScriptStmts(ss[1..], next);
    }
  }

  lemma HarmlessPrint(fs: seq<Fragment>, e: Edge)
    requires StartsHarmless(fs)
    ensures !Is(e, PrintAll(fs) + ";")
  {
    var t := PrintAll(fs) + ";";
    assert t[0] == fs[0].s[0] && (|fs[0].s| > 1 ==> t[1] == fs[0].s[1]);
    hide Is;
    HarmlessIsNeither(t, e);
  }

  lemma GuardHarmless(json: string, w: Wording)
    ensures forall k | 1 <= k < |GuardScript(json, w)| :: StartsHarmless(GuardScript(json, w)[k])
  {
    HarmlessHeads();
    hide GuardBody, Harmless;
  }

  lemma HarmlessHeads()
    ensures Harmless("SET LOCAL lock_timeout = ") && Harmless("SET LOCAL statement_timeout = ") && Harmless("DO ")
    ensures Harmless("SELECT pg_catalog.pg_advisory_xact_lock(") && Harmless("LOCK TABLE supabase_migrations.")
  {
  }

  lemma CountGuard(json: string, w: Wording, e: Edge)
    ensures CountEdges(ScriptStmts(GuardScript(json, w), 1), e) == if e.Opens? then 1 else 0
  {
    hide PrintAll, Newlines, Is;
    var ss := GuardScript(json, w);
    var next := 1 + Newlines(PrintAll(ss[0]) + ";\n");
    PrintOne(Word("BEGIN"));
    assert ss != [] && ss[0] == [Word("BEGIN")];
    GuardHarmless(json, w);
    hide GuardScript, StartsHarmless;
    HarmlessScript(ss[1..], next, e);
    assert ScriptStmts(ss, 1)[1..] == ScriptStmts(ss[1..], next);
    assert ScriptStmts(ss, 1)[0].text == "BEGIN" + ";";
    OwnEdges(e);
  }

  lemma CountSummary(p: Plan, ending: string, line: nat, e: Edge)
    requires IsEnding(ending)
    ensures CountEdges(ScriptStmts(SummaryScript(p.version, p.hash, ending, p.words), line), e)
         == if e.Closes? then 1 else 0
  {
    hide Newlines, PrintAll, Is;
    var ss := SummaryScript(p.version, p.hash, ending, p.words);
    SummaryTwo(p, ending, line);
    assert ss[0][0] == Word("SELECT jsonb_build_object(\n    ");
    HarmlessPrint(ss[0], e);
    OwnEdges(e);
    var all := ScriptStmts(ss, line);
    assert all == [all[0], all[1]];
    hide ScriptStmts, SummaryScript;
    CountTwo(all[0], all[1], e);
  }

  lemma CountTwo(a: Stmt, b: Stmt, e: Edge)
    ensures CountEdges([a, b], e) == (if Is(e, a.text) then 1 else 0) + if Is(e, b.text) then 1 else 0
    ensures CountEdges([a], e) == if Is(e, a.text) then 1 else 0
  {
    hide Is;
    assert [a, b][1..] == [b] && [b][1..] == [] && [a][1..] == [];
    assert CountEdges([], e) == 0;
    assert CountEdges([b], e) == if Is(e, b.text) then 1 else 0;
  }

  lemma CountInsert(m: string, columns: seq<string>, v: string, n: string, line: nat, e: Edge)
    ensures CountEdges(ScriptStmts([InsertFragments(m, columns, v, n)], line), e) == 0
  {
    hide Newlines, PrintAll, NameFragments, ValueFragments;
    var fs := InsertFragments(m, columns, v, n);
    assert fs[0] == Word("INSERT INTO supabase_migrations.");
    HarmlessScript([fs], line, e);
  }

  /** An artifact opens a transaction once and closes one once, each plus what the sources bring along. */
  lemma TransactionBoundaries(sources: seq<Source>, p: Plan, ending: string, e: Edge)
    requires AllComplete(sources) && IsEnding(ending)
    ensures CountEdges(ReleaseStmts(sources, p, ending), e) == SourceCount(sources, e) + 1
  {
    hide Newlines, PrintScript, ScriptStmts, SourceStmts, GuardScript, SummaryScript, InsertFragments, Blocks;
    hide LedgerInsert, Migration, CountEdges;
    var m := Migration(sources);
    var l2 := 1 + Newlines(PrintScript(GuardScript(p.json, p.words))) + 2;
    var l3 := l2 + Newlines(Blocks(sources)) + 1;
    var l4 := l3 + Newlines(LedgerInsert(m, p.columns, p.version, p.name));
    var a, b := ScriptStmts(GuardScript(p.json, p.words), 1), SourceStmts(sources, l2);
    var c := ScriptStmts([InsertFragments(m, p.columns, p.version, p.name)], l3);
    var d := ScriptStmts(SummaryScript(p.version, p.hash, ending, p.words), l4);
    CountGuard(p.json, p.words, e);
    CountSources(sources, l2, e);
    CountInsert(m, p.columns, p.version, p.name, l3, e);
    CountSummary(p, ending, l4, e);
    CountConcat(a, b, e);
    CountConcat(a + b, c, e);
    CountConcat(a + b + c, d, e);
  }

  /** Its own boundaries are its first and its last statement. */
  lemma FirstAndLast(sources: seq<Source>, p: Plan, ending: string)
    requires AllComplete(sources) && IsEnding(ending)
    ensures var ss := ReleaseStmts(sources, p, ending);
      |ss| >= 2 && ss[0].text == "BEGIN;" && ss[|ss| - 1].text == ending + ";"
  {
    hide Newlines, PrintScript, ScriptStmts, SourceStmts, SummaryScript, InsertFragments, Blocks, LedgerInsert;
    hide Migration, GuardBody, PrintAll;
    var m := Migration(sources);
    var guard := GuardScript(p.json, p.words);
    var l4 := 1 + Newlines(PrintScript(guard)) + 2 + Newlines(Blocks(sources)) + 1
              + Newlines(LedgerInsert(m, p.columns, p.version, p.name));
    SummaryTwo(p, ending, l4);
    assert guard != [] && guard[0] == [Word("BEGIN")];
    hide GuardScript;
    GuardFirst(guard);
  }

  lemma GuardFirst(guard: seq<seq<Fragment>>)
    requires guard != [] && guard[0] == [Word("BEGIN")]
    ensures ScriptStmts(guard, 1) != [] && ScriptStmts(guard, 1)[0].text == "BEGIN;"
  {
    PrintOne(Word("BEGIN"));
    hide PrintAll, Newlines;
    assert "BEGIN" + ";" == "BEGIN;";
  }

  /** An artifact opens exactly one transaction just when no source statement opens one, and closes exactly one just
      when no source statement closes one. */
  lemma OneTransactionIff(sources: seq<Source>, p: Plan, ending: string, e: Edge)
    requires AllComplete(sources) && IsEnding(ending)
    ensures CountEdges(ReleaseStmts(sources, p, ending), e) == 1 <==> SourcesWithout(sources, e)
  {
    hide ReleaseStmts, CountEdges, SourcesWithout;
    TransactionBoundaries(sources, p, ending, e);
    NoneInSources(sources, e);
  }

  // What the line search does not see ----------------------------------------------------------------

  lemma {:induction false} UnixSame(s: string)
    requires forall k | 0 <= k < |s| :: s[k] != '\r'
    ensures Unix(s) == s
  {
    if s != "" {
      UnixSame(s[1..]);
    }
  }

  lemma {:induction false} LineCountBound(s: string, open: bool)
    ensures LineCount(s, open) <= |s| + 1
    decreases |s|
  {
    if Two(s, '\r', '\n') {
      LineCountBound(s[2..], false);
    } else if s != "" {
      LineCountBound(s[1..], !IsBreak(s[0]));
    }
  }

  /** A single line that does not begin with B, C or R holds no boundary the search would see. */
  lemma {:induction false} NoOuterInLine(s: string, start: bool)
    requires forall k | 0 <= k < |s| - 1 :: s[k] != '\n'
    requires start ==> s != "" && s[0] !in {'B', 'C', 'R'}
    ensures !HasOuter(s, start)
  {
    if |s| > 1 {
      NoOuterInLine(s[1..], false);
    }
  }

  /** A source of one short line. */
  predicate Line(c: string) {
    && 1 < |c| <= 100 && c[|c| - 1] == '\n' && c[0] !in {'B', 'C', 'R'}
    && (forall k | 0 <= k < |c| - 1 :: c[k] != '\n') && forall k | 0 <= k < |c| :: c[k] != '\r'
  }

  function Alone(c: string): seq<Source> {
    [Source("a.sql", "", c)]
  }

  lemma LineReady(c: string)
    requires Line(c) && StatementsOf(c).Some?
    ensures Unix(c) == c && Ready(Alone(c))
  {
    UnixSame(c);
    LineCountBound(c, false);
    NoOuterInLine(c, true);
    hide Unix, StatementsOf, LineCount, HasOuter;
  }

  /** The artifact of one source line counts the line's own openings and ends on top. */
  lemma OneLineArtifact(c: string, ss: seq<Stmt>, p: Plan, ending: string, e: Edge)
    requires Line(c) && StatementsOf(c) == Some(ss) && IsEnding(ending)
    ensures Ready(Alone(c)) && CountEdges(ReleaseStmts(Alone(c), p, ending), e) == CountEdges(ss, e) + 1
  {
    LineReady(c);
    hide StatementsOf, CountEdges, Unix, ReleaseStmts;
    TransactionBoundaries(Alone(c), p, ending, e);
    assert Alone(c)[1..] == [];
    assert SourceCount([], e) == 0;
  }

  /** The search accepts a BEGIN behind another statement on its line, one in lower case, and the other word for
      COMMIT; the artifacts made of such sources open or close two transactions. */
  lemma SearchMisses(p: Plan, ending: string)
    requires IsEnding(ending)
    ensures Ready(Alone("A; BEGIN;\n")) && CountEdges(ReleaseStmts(Alone("A; BEGIN;\n"), p, ending), Opens) == 2
    ensures Ready(Alone("begin;\n")) && CountEdges(ReleaseStmts(Alone("begin;\n"), p, ending), Opens) == 2
    ensures Ready(Alone("END;\n")) && CountEdges(ReleaseStmts(Alone("END;\n"), p, ending), Closes) == 2
  {
    hide *;
    LinesOfThree();
    HiddenBegin();
    SimpleWords();
    OneWordLine("begin");
    OneWordLine("END");
    SmallWords();
    assert "begin" + ";" + "\n" == "begin;\n" && "END" + ";" + "\n" == "END;\n";
    OneLineArtifact("A; BEGIN;\n", [Stmt(1, "A;"), Stmt(1, "BEGIN;")], p, ending, Opens);
    OneLineArtifact("begin;\n", [Stmt(1, "begin" + ";")], p, ending, Opens);
    OneLineArtifact("END;\n", [Stmt(1, "END" + ";")], p, ending, Closes);
  }

  lemma LinesOfThree()
    ensures Line("A; BEGIN;\n") && Line("begin;\n") && Line("END;\n")
  {
  }

  lemma SmallWords()
    ensures CountEdges([Stmt(1, "A;"), Stmt(1, "BEGIN;")], Opens) == 1
    ensures CountEdges([Stmt(1, "begin" + ";")], Opens) == 1
    ensures CountEdges([Stmt(1, "END" + ";")], Closes) == 1
  {
    assert "A" + ";" == "A;" && "BEGIN" + ";" == "BEGIN;";
    OwnEdges(Opens);
    OtherEdges();
    hide *;
    CountTwo(Stmt(1, "A;"), Stmt(1, "BEGIN;"), Opens);
    CountTwo(Stmt(1, "begin" + ";"), Stmt(1, ""), Opens);
    CountTwo(Stmt(1, "END" + ";"), Stmt(1, ""), Closes);
  }

  lemma OtherEdges()
    ensures !Is(Opens, "A" + ";") && Is(Opens, "begin" + ";") && Is(Closes, "END" + ";")
  {
    assert Lower("A") == "a" && Lower("begin") == "begin" && Lower("END") == "end";
    assert AllWord("A") && AllWord("begin") && AllWord("END");
    EdgeWords("A", Opens);
    EdgeWords("begin", Opens);
    EdgeWords("END", Closes);
    hide Is;
  }

  predicate Trimmed(s: string) {
    s != "" && !IsSpace(s[0]) && !IsSpace(s[|s| - 1])
  }

  /** A word that is a statement by itself. */
  predicate Simple(w: string) {
    Calm(w) && Trimmed(w)
  }

  lemma SimpleWords()
    ensures Simple("begin") && Simple("END")
  {
  }

  lemma OneWordLine(w: string)
    requires Simple(w)
    ensures StatementsOf(w + ";" + "\n") == Some([Stmt(1, w + ";")])
  {
    CalmWord(w);
    assert Blank("\n");
    hide *;
    StatementAlone([Word(w)], "\n");
  }

  lemma StatementAlone(fs: seq<Fragment>, end: string)
    requires Sound(fs) && Trimmed(PrintAll(fs)) && Blank(end)
    ensures StatementsOf(PrintAll(fs) + ";" + end) == Some([Stmt(1, PrintAll(fs) + ";")])
  {
    hide *;
    FirstStatement(fs, end);
    NothingMore(PrintAll(fs), end, Stmt(1, PrintAll(fs) + ";"));
  }

  lemma FirstStatement(fs: seq<Fragment>, rest: string)
    requires Sound(fs) && Trimmed(PrintAll(fs))
    ensures Run(PrintAll(fs) + ";" + rest, "", 0)
         == Join([Stmt(1, PrintAll(fs) + ";")], Run(rest, "", Newlines(PrintAll(fs))))
  {
    hide IsSpace, Sound, PrintAll, Run, Newlines, Join;
    OneStatement(fs, rest, 0);
  }

  lemma NothingMore(s: string, end: string, stmt: Stmt)
    requires Run(s + ";" + end, "", 0) == Join([stmt], Run(end, "", Newlines(s))) && Blank(end)
    ensures StatementsOf(s + ";" + end) == Some([stmt])
  {
    BlankRun(end, "", Newlines(s));
    assert [stmt] + [] == [stmt];
    hide Run, Newlines, Blank;
  }

  lemma CalmWord(w: string)
    requires Calm(w)
    ensures Sound([Word(w)]) && PrintAll([Word(w)]) == w
  {
    PrintOne(Word(w));
    hide Calm;
  }

  lemma HiddenBegin()
    ensures StatementsOf("A; BEGIN;\n") == Some([Stmt(1, "A;"), Stmt(1, "BEGIN;")])
  {
    var x := "BEGIN" + ";" + "\n";
    var rest := " " + x;
    HiddenWords();
    hide *;
    OneStatement([Word("A")], rest, 0);
    BlankThrough(" ", x, "", 0);
    BlankBefore(x, " ", "", 0);
    OneStatement([Word("BEGIN")], "\n", 0);
    BlankRun("\n", "", 0);
    Scanned("A; BEGIN;\n");
    assert "" + " " == " " + "" && "A" + ";" == "A;" && "BEGIN" + ";" == "BEGIN;";
    assert "A; BEGIN;\n" == "A" + ";" + rest;
    JoinLaws([Stmt(1, "A;")], [Stmt(1, "BEGIN;")], Some([]));
    TwoJoined(Stmt(1, "A;"), Stmt(1, "BEGIN;"));
  }

  lemma HiddenWords()
    ensures Sound([Word("A")]) && PrintAll([Word("A")]) == "A"
    ensures Sound([Word("BEGIN")]) && PrintAll([Word("BEGIN")]) == "BEGIN"
    ensures !IsSpace('A') && !IsSpace('B') && !IsSpace('N') && Blank(" ") && Blank("\n") && Blank("")
    ensures Newlines("A") == Newlines("BEGIN") == Newlines(" ") == 0
  {
    CalmWord("A");
    CalmWord("BEGIN");
    NoNewlines("A");
    NoNewlines("BEGIN");
    NoNewlines(" ");
  }

  lemma TwoJoined(a: Stmt, b: Stmt)
    ensures Join([a], Join([b], Some([]))) == Some([a, b])
  {
    assert [b] + [] == [b] && [a] + [b] == [a, b];
  }
}
