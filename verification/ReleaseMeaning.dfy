/** The release pipeline end to end: from bounded sources to the statements of both artifacts. */
module ReleaseMeaning {
  import opened Text
  import opened Scanner
  import opened ScannerLaws
  import opened Fragments
  import opened Builder
  import opened BuilderLaws
  import opened Release
  import opened ReleaseLaws

  /** Sources the builder accepts, that scan completely and whose comment lines are single lines. */
  predicate Ready(sources: seq<Source>) {
    Buildable(sources) && Tidy(sources) && AllComplete(sources)
  }

  /** The statements of one artifact: guard, the sources in order, one ledger insert, summary and ending. */
  function ReleaseStmts(sources: seq<Source>, p: Plan, ending: string): seq<Stmt>
    requires AllComplete(sources)
  {
    var migration := Migration(sources);
    var guard := GuardScript(p.json, p.words);
    var l2 := 1 + Newlines(PrintScript(guard)) + 2;
    var l3 := l2 + Newlines(Blocks(sources)) + 1;
    var l4 := l3 + Newlines(LedgerInsert(migration, p.columns, p.version, p.name));
    ScriptStmts(guard, 1) + SourceStmts(sources, l2)
    + ScriptStmts([InsertFragments(migration, p.columns, p.version, p.name)], l3)
    + ScriptStmts(SummaryScript(p.version, p.hash, ending, p.words), l4)
  }

  /** Stripping the outer transaction leaves the two comment lines and the blocks. */
  lemma StrippedBody(sources: seq<Source>)
    requires Buildable(sources) && Tidy(sources)
    ensures RemoveSuffix(ReplaceFirst(Migration(sources), "\nBEGIN;\n", "\n"), "COMMIT;\n")
         == GENERATED + "\n" + (EDIT + "\n" + Blocks(sources))
  {
    MigrationShape(sources);
    MigrationText(sources);
    hide *;
    StripText(GENERATED + "\n" + EDIT, Blocks(sources));
    Nested3(GENERATED, EDIT, Blocks(sources));
  }

  lemma MigrationText(sources: seq<Source>)
    ensures Migration(sources) == GENERATED + "\n" + EDIT + "\nBEGIN;\n" + (Blocks(sources) + "COMMIT;\n")
  {
    hide Blocks;
    assert "\nBEGIN;\n" == "\n" + "BEGIN;" + "\n";
  }

  lemma Nested3(g: string, e: string, b: string)
    ensures g + "\n" + e + "\n" + b == g + "\n" + (e + "\n" + b)
  {
  }

  lemma StripText(a: string, b: string)
    requires Find(a + "\nBEGIN;\n" + (b + "COMMIT;\n"), "\nBEGIN;\n") == Some(|a|)
    ensures RemoveSuffix(ReplaceFirst(a + "\nBEGIN;\n" + (b + "COMMIT;\n"), "\nBEGIN;\n", "\n"), "COMMIT;\n")
         == a + "\n" + b
  {
    hide Find;
    ReplaceAt(a, "\nBEGIN;\n", b + "COMMIT;\n", "\n");
    SuffixOff(a + "\n" + b, "COMMIT;\n");
    assert a + "\n" + (b + "COMMIT;\n") == a + "\n" + b + "COMMIT;\n";
  }

  lemma ReplaceAt(a: string, pat: string, z: string, put: string)
    requires Find(a + pat + z, pat) == Some(|a|)
    ensures ReplaceFirst(a + pat + z, pat, put) == a + put + z
  {
    hide Find;
    assert (a + pat + z)[..|a|] == a && (a + pat + z)[|a| + |pat|..] == z;
  }

  lemma SuffixOff(t: string, z: string)
    ensures RemoveSuffix(t + z, z) == t
  {
    assert (t + z)[|t|..] == z && (t + z)[..|t|] == t;
  }

  /**
   The release pipeline preserves meaning. Both artifacts are produced, and under the scanner each is
   the guard, the sources' statements in order, one ledger insert, the summary and the chosen ending.
   */
  lemma ReleasePreservesMeaning(sources: seq<Source>, p: Plan)
    requires Ready(sources) && Fixed(p.words) && !Contains(p.json, TAG)
    ensures Prepare(Migration(sources), true, p).Ok?
    ensures StatementsOf(Prepare(Migration(sources), true, p).value.0) == Some(ReleaseStmts(sources, p, "ROLLBACK"))
    ensures StatementsOf(Prepare(Migration(sources), true, p).value.1) == Some(ReleaseStmts(sources, p, "COMMIT"))
  {
    hide Payload, ReleaseStmts, StatementsOf, Find, Migration, Fixed, Contains, Blocks;
    MigrationShape(sources);
    StrippedBody(sources);
    PayloadStatements(sources, p, "ROLLBACK");
    PayloadStatements(sources, p, "COMMIT");
  }

  lemma PayloadStatements(sources: seq<Source>, p: Plan, ending: string)
    requires Ready(sources) && Fixed(p.words) && !Contains(p.json, TAG) && IsEnding(ending)
    ensures StatementsOf(Payload(GENERATED + "\n" + (EDIT + "\n" + Blocks(sources)), Migration(sources), p, ending))
         == Some(ReleaseStmts(sources, p, ending))
  {
    hide *;
    Parts(sources, p, ending);
    var m := Migration(sources);
    var guard := GuardScript(p.json, p.words);
    var ins := [InsertFragments(m, p.columns, p.version, p.name)];
    var sum := SummaryScript(p.version, p.hash, ending, p.words);
    var b, gt, it, st := Blocks(sources), PrintScript(guard), PrintScript(ins), PrintScript(sum);
    var l1 := 1 + Newlines(gt);
    var l3 := l1 + 2 + Newlines(b) + 1;
    var l4 := l3 + Newlines(it);
    ScriptAlone(sum, l4);
    ScriptRun(ins, st, l3);
    FreshLine(it + st, l3 - 1);
    BlocksRun(sources, "\n" + (it + st), l1 + 2);
    var rest := b + ("\n" + (it + st));
    CommentRun(EDIT, rest, l1 + 1);
    CommentRun(GENERATED, EDIT + "\n" + rest, l1);
    ScriptRun(guard, GENERATED + "\n" + (EDIT + "\n" + rest), 1);
    CommentRun(PREPARED, gt + (GENERATED + "\n" + (EDIT + "\n" + rest)), 0);
    PayloadText(sources, m, p, ending, b, gt, it, st);
    Collect(sources, m, p, ending, ScriptStmts(guard, 1), SourceStmts(sources, l1 + 2), ScriptStmts(ins, l3),
            ScriptStmts(sum, l4), l1, l3, l4);
    JoinFour(ScriptStmts(guard, 1), SourceStmts(sources, l1 + 2), ScriptStmts(ins, l3), ScriptStmts(sum, l4));
    Scanned(Payload(GENERATED + "\n" + (EDIT + "\n" + b), m, p, ending));
  }

  lemma Parts(sources: seq<Source>, p: Plan, ending: string)
    requires Ready(sources) && Fixed(p.words) && !Contains(p.json, TAG) && IsEnding(ending)
    ensures Tidy(sources) && AllComplete(sources)
    ensures AllProper(GuardScript(p.json, p.words)) && AllProper(SummaryScript(p.version, p.hash, ending, p.words))
    ensures var m := Migration(sources); var ins := [InsertFragments(m, p.columns, p.version, p.name)];
      AllProper(ins) && PrintScript(ins) == LedgerInsert(m, p.columns, p.version, p.name)
    ensures OneLine(EDIT) && Two(EDIT, '-', '-') && OneLine(GENERATED) && Two(GENERATED, '-', '-')
    ensures OneLine(PREPARED) && Two(PREPARED, '-', '-')
  {
    PreludeLines();
    PreparedLine();
    hide Fixed, Contains, IsEnding, AllProper, Tidy, AllComplete, OneLine, Two, Find, Calm, Sound, PrintScript;
    hide Migration;
    GuardProper(p.json, p.words);
    var m := Migration(sources);
    InsertProper(m, p.columns, p.version, p.name);
    OneProper(InsertFragments(m, p.columns, p.version, p.name));
    SummaryProper(p.version, p.hash, ending, p.words);
  }

  lemma Scanned(t: string)
    ensures StatementsOf(t) == Run(t, "", 0)
  {
  }

  lemma OneProper(fs: seq<Fragment>)
    requires Proper(fs)
    ensures AllProper([fs])
  {
  }

  lemma JoinFour(g: seq<Stmt>, s: seq<Stmt>, i: seq<Stmt>, z: seq<Stmt>)
    ensures Join(g, Join(s, Join(i, Some(z)))) == Some(g + s + i + z)
  {
    assert g + (s + (i + z)) == g + s + i + z;
  }

  lemma PreparedLine()
    ensures OneLine(PREPARED) && Two(PREPARED, '-', '-')
  {
    assert OneLine("-- Prepared offline; execute only") && OneLine(" against explicitly pinned ");
    assert OneLine("Supabase project.");
  }

  lemma CommentRun(h: string, b: string, line: nat)
    requires OneLine(h) && Two(h, '-', '-')
    ensures Run(h + "\n" + b, "", line) == Run(b, "", line + 1)
  {
    hide Run;
    AfterComment(h, b);
    RunIsShift(h + "\n" + b, line);
    RunIsShift(b, line + 1);
    ShiftTwice(StatementsOf(b), 1, line);
  }

  lemma ScriptAlone(ss: seq<seq<Fragment>>, line: nat)
    requires AllProper(ss)
    ensures Run(PrintScript(ss), "", line) == Some(ScriptStmts(ss, line))
  {
    hide PrintScript, ScriptStmts, AllProper, Newlines;
    ScriptRun(ss, "", line);
    assert PrintScript(ss) + "" == PrintScript(ss);
    assert ScriptStmts(ss, line) + [] == ScriptStmts(ss, line);
  }

  lemma BlocksRun(sources: seq<Source>, rest: string, line: nat)
    requires Tidy(sources) && AllComplete(sources)
    ensures Run(Blocks(sources) + rest, "", line)
         == Join(SourceStmts(sources, line), Run(rest, "", line + Newlines(Blocks(sources))))
  {
    hide Run, Blocks;
    BlocksStatements(sources, rest, line);
    RunIsShift(Blocks(sources) + rest, line);
    RunIsShift(rest, line + Newlines(Blocks(sources)));
  }

  lemma PayloadText(sources: seq<Source>, m: string, p: Plan, ending: string, b: string, gt: string, it: string,
                    st: string)
    requires b == Blocks(sources) && gt == PrintScript(GuardScript(p.json, p.words))
    requires it == LedgerInsert(m, p.columns, p.version, p.name)
    requires st == PrintScript(SummaryScript(p.version, p.hash, ending, p.words))
    ensures Payload(GENERATED + "\n" + (EDIT + "\n" + b), m, p, ending)
         == PREPARED + "\n" + (gt + (GENERATED + "\n" + (EDIT + "\n" + (b + ("\n" + (it + st))))))
  {
    hide Blocks, PrintScript, GuardScript, LedgerInsert, SummaryScript;
    Nested(PREPARED + "\n", gt, GENERATED + "\n", EDIT + "\n", b, it, st);
  }

  lemma Nested(a: string, gt: string, g: string, e: string, b: string, it: string, st: string)
    ensures a + gt + (g + (e + b)) + "\n" + it + st == a + (gt + (g + (e + (b + ("\n" + (it + st))))))
  {
  }

  lemma Collect(sources: seq<Source>, m: string, p: Plan, ending: string,
                g: seq<Stmt>, s: seq<Stmt>, i: seq<Stmt>, z: seq<Stmt>, l1: nat, l3: nat, l4: nat)
    requires AllComplete(sources) && m == Migration(sources)
    requires l1 == 1 + Newlines(PrintScript(GuardScript(p.json, p.words)))
    requires l3 == l1 + 2 + Newlines(Blocks(sources)) + 1
    requires l4 == l3 + Newlines(LedgerInsert(m, p.columns, p.version, p.name))
    requires g == ScriptStmts(GuardScript(p.json, p.words), 1) && s == SourceStmts(sources, l1 + 2)
    requires i == ScriptStmts([InsertFragments(m, p.columns, p.version, p.name)], l3)
    requires z == ScriptStmts(SummaryScript(p.version, p.hash, ending, p.words), l4)
    ensures ReleaseStmts(sources, p, ending) == g + s + i + z
  {
    hide ScriptStmts, SourceStmts, GuardScript, SummaryScript, InsertFragments, LedgerInsert, PrintScript, Newlines;
    hide Blocks, Migration, AllComplete;
  }

  // The two artifacts ------------------------------------------------------------------------------

  lemma SummaryTwo(p: Plan, ending: string, line: nat)
    ensures var ss := SummaryScript(p.version, p.hash, ending, p.words); var all := ScriptStmts(ss, line);
      |all| == 2 && all[0] == Stmt(line + 1, PrintAll(ss[0]) + ";") && all[1].text == ending + ";"
      && all[1].line == line + Newlines(PrintAll(ss[0]) + ";\n") + 1
  {
    var ss := SummaryScript(p.version, p.hash, ending, p.words);
    PrintOne(Word(ending));
    TwoStmts(ss[0], ss[1], line);
  }

  lemma TwoStmts(a: seq<Fragment>, b: seq<Fragment>, line: nat)
    ensures ScriptStmts([a, b], line)
         == [Stmt(line + 1, PrintAll(a) + ";"), Stmt(line + Newlines(PrintAll(a) + ";\n") + 1, PrintAll(b) + ";")]
  {
    hide Newlines, PrintAll;
    var ss, last: seq<seq<Fragment>> := [a, b], [b];
    var next := line + Newlines(PrintAll(a) + ";\n");
    assert ss[1..] == last && last[1..] == [];
    assert ScriptStmts(last, next) == [Stmt(next + 1, PrintAll(b) + ";")];
    assert ScriptStmts(ss, line) == [Stmt(line + 1, PrintAll(a) + ";")] + ScriptStmts(last, next);
  }

  /** Rehearsal and commit artifact agree on every statement but the last two, line for line. */
  lemma RehearsalDiffersOnlyInEnding(sources: seq<Source>, p: Plan)
    requires AllComplete(sources)
    ensures var r := ReleaseStmts(sources, p, "ROLLBACK"); var c := ReleaseStmts(sources, p, "COMMIT");
      && |r| == |c| >= 2 && r[..|r| - 2] == c[..|c| - 2]
      && r[|r| - 2].line == c[|c| - 2].line
      && r[|r| - 1].text == "ROLLBACK;" && c[|c| - 1].text == "COMMIT;"
  {
    hide ScriptStmts, SourceStmts, GuardScript, SummaryScript, InsertFragments, Newlines;
    hide PrintAll, LedgerInsert, PrintScript;
    var m := Migration(sources);
    var l4 := 1 + Newlines(PrintScript(GuardScript(p.json, p.words))) + 2 + Newlines(Blocks(sources)) + 1
              + Newlines(LedgerInsert(m, p.columns, p.version, p.name));
    SummaryTwo(p, "ROLLBACK", l4);
    SummaryTwo(p, "COMMIT", l4);
  }
}
