/** What the guard and the summary of a release say, statement by statement. */
module ReleaseControls {
  import opened Text
  import opened Scanner
  import opened Fragments
  import opened Builder
  import opened BuilderLaws
  import opened Release
  import opened ReleaseLaws
  import opened ReleaseMeaning
  import opened ReleaseLedger

  predicate Unquoted(v: string) {
    forall i | 0 <= i < |v| :: v[i] != '\''
  }

  lemma {:induction false} NoQuotes(v: string)
    requires Unquoted(v)
    ensures Double(v) == v
  {
    if v != "" {
      NoQuotes(v[1..]);
      assert [v[0]] + v[1..] == v;
    }
  }

  lemma PlainLiteral(v: string)
    requires Unquoted(v)
    ensures Literal(v) == "'" + v + "'"
  {
    NoQuotes(v);
    hide Double;
  }

  lemma {:induction false} TextAt(ss: seq<seq<Fragment>>, line: nat, k: nat)
    requires k < |ss|
    ensures |ScriptStmts(ss, line)| == |ss| && ScriptStmts(ss, line)[k].text == PrintAll(ss[k]) + ";"
  {
    hide PrintAll, Newlines;
    var next := line + Newlines(PrintAll(ss[0]) + ";\n");
    if k == 0 {
      ScriptSize(ss, line);
    } else {
      TextAt(ss[1..], next, k - 1);
    }
  }

  lemma {:induction false} ScriptSize(ss: seq<seq<Fragment>>, line: nat)
    ensures |ScriptStmts(ss, line)| == |ss|
  {
    hide PrintAll, Newlines;
    if ss != [] {
      ScriptSize(ss[1..], line + Newlines(PrintAll(ss[0]) + ";\n"));
    }
  }

  // The guard ----------------------------------------------------------------------------------------

  lemma SettingsPrinted()
    ensures PrintAll([Word("BEGIN")]) == "BEGIN"
    ensures PrintAll([Word("SET LOCAL lock_timeout = "), Quoted("10s")]) == "SET LOCAL lock_timeout = " + "'10s'"
    ensures PrintAll([Word("SET LOCAL statement_timeout = "), Quoted("120s")])
      == "SET LOCAL statement_timeout = " + "'120s'"
  {
    PrintOne(Word("BEGIN"));
    PrintTwo(Word("SET LOCAL lock_timeout = "), Quoted("10s"));
    PrintTwo(Word("SET LOCAL statement_timeout = "), Quoted("120s"));
    hide PrintAll;
    PlainLiteral("10s");
    PlainLiteral("120s");
    assert "'" + "10s" + "'" == "'10s'" && "'" + "120s" + "'" == "'120s'";
  }

  lemma Sequences(a: Fragment, b: Fragment, c: Fragment, d: Fragment)
    ensures [a, b] + [c, d] == [a, b, c, d] && [a, b] + [c] == [a, b, c]
  {
  }

  lemma Chain(a: string, b: string, c: string)
    ensures a + (b + c) == a + b + c
  {
  }

  lemma Four(a: Fragment, b: Fragment, c: Fragment, d: Fragment)
    ensures PrintAll([a, b, c, d]) == Print(a) + Print(b) + Print(c) + Print(d)
    ensures PrintAll([a, b, c]) == Print(a) + Print(b) + Print(c)
  {
    hide *;
    PrintTwo(a, b);
    PrintTwo(c, d);
    PrintOne(c);
    PrintAllConcat([a, b], [c, d]);
    PrintAllConcat([a, b], [c]);
    Sequences(a, b, c, d);
    Chain(Print(a) + Print(b), Print(c), Print(d));
  }

  lemma LockNameUnquoted()
    ensures Unquoted("academic-decommission:rjnfmjcvkfotneswpygr")
  {
  }

  lemma Printed(v: string)
    requires Unquoted(v)
    ensures Print(Quoted(v)) == "'" + v + "'"
  {
    PlainLiteral(v);
    hide Literal;
  }

  lemma PrintedWord(s: string)
    ensures Print(Word(s)) == s
  {
  }

  lemma AdvisoryPrinted()
    ensures PrintAll([Word("SELECT pg_catalog.pg_advisory_xact_lock("), Word("pg_catalog.hashtextextended("),
                      Quoted("academic-decommission:rjnfmjcvkfotneswpygr"), Word(",0))")])
      == "SELECT pg_catalog.pg_advisory_xact_lock(" + "pg_catalog.hashtextextended("
         + ("'" + "academic-decommission:rjnfmjcvkfotneswpygr" + "'") + ",0))"
  {
    LockNameUnquoted();
    hide *;
    Four(Word("SELECT pg_catalog.pg_advisory_xact_lock("), Word("pg_catalog.hashtextextended("),
         Quoted("academic-decommission:rjnfmjcvkfotneswpygr"), Word(",0))"));
    Printed("academic-decommission:rjnfmjcvkfotneswpygr");
    PrintedWord("SELECT pg_catalog.pg_advisory_xact_lock(");
    PrintedWord("pg_catalog.hashtextextended(");
    PrintedWord(",0))");
  }

  lemma LockPrinted()
    ensures PrintAll([Word("LOCK TABLE supabase_migrations."), Word("schema_migrations IN ACCESS "),
                      Word("EXCLUSIVE MODE")])
      == "LOCK TABLE supabase_migrations." + "schema_migrations IN ACCESS " + "EXCLUSIVE MODE"
  {
    Four(Word("LOCK TABLE supabase_migrations."), Word("schema_migrations IN ACCESS "), Word("EXCLUSIVE MODE"),
         Word(""));
    hide PrintAll;
  }

  /** The guard opens the transaction, limits waiting and running, takes the advisory lock and the lock of the ledger,
      and checks the inspection in one DO block, whose text it holds as a quoted value. */
  predicate GuardSays(stmts: seq<Stmt>, json: string, w: Wording, value: string) {
    && |stmts| == 6
    && stmts[0].text == "BEGIN" + ";"
    && stmts[1].text == "SET LOCAL lock_timeout = " + "'10s'" + ";"
    && stmts[2].text == "SET LOCAL statement_timeout = " + "'120s'" + ";"
    && stmts[3].text
       == "SELECT pg_catalog.pg_advisory_xact_lock(" + "pg_catalog.hashtextextended("
          + ("'" + "academic-decommission:rjnfmjcvkfotneswpygr" + "'") + ",0))" + ";"
    && stmts[4].text
       == "LOCK TABLE supabase_migrations." + "schema_migrations IN ACCESS " + "EXCLUSIVE MODE" + ";"
    && stmts[5].text == "DO " + (TAG + (w.declare + value + w.checks) + TAG) + ";"
    && Quotes(value, json)
  }

  lemma GuardText(json: string, w: Wording, line: nat)
    ensures GuardSays(ScriptStmts(GuardScript(json, w), line), json, w, Literal(json))
  {
    var ss := GuardScript(json, w);
    SettingsPrinted();
    AdvisoryPrinted();
    LockPrinted();
    PrintTwo(Word("DO "), Body(TAG, GuardBody(json, w)));
    LiteralQuotes(json);
    hide PrintAll, Literal, Quotes, TAG, ScriptStmts;
    TextAt(ss, line, 0);
    TextAt(ss, line, 1);
    TextAt(ss, line, 2);
    TextAt(ss, line, 3);
    TextAt(ss, line, 4);
    TextAt(ss, line, 5);
  }

  // The summary --------------------------------------------------------------------------------------

  /** The summary names the version, the digest and the ending, each as a quoted value, reports the fixed projection and
      whether the ledger has the version, and then the transaction ends as asked. */
  predicate SummarySays(stmts: seq<Stmt>, version: string, hash: string, ending: string, w: Wording,
                        values: (string, string, string)) {
    && |stmts| == 2
    && stmts[0].text
       == "SELECT jsonb_build_object(\n    " + ("'" + "migration_version" + "'") + "," + values.0
          + ("," + ("'" + "migration_sha256" + "'") + "," + values.1)
          + ("," + ("'" + "transaction_end" + "'") + "," + values.2 + ",\n    ")
          + PrintAll(w.projection)
          + ("'" + "ledger_version_exists" + "'" + ",EXISTS(SELECT 1 FROM " + "supabase_migrations.schema_migrations"
             + (" WHERE version=" + values.0 + ")\n) AS academic_decommission_release"))
          + ";"
    && stmts[1].text == ending + ";"
    && Quotes(values.0, version) && Quotes(values.1, hash) && Quotes(values.2, ending)
  }

  lemma HeadPrinted(version: string, hash: string, ending: string)
    ensures PrintAll(SummaryHead(version, hash, ending))
      == "SELECT jsonb_build_object(\n    " + ("'" + "migration_version" + "'") + "," + Literal(version)
         + ("," + ("'" + "migration_sha256" + "'") + "," + Literal(hash))
         + ("," + ("'" + "transaction_end" + "'") + "," + Literal(ending) + ",\n    ")
  {
    NamesPrinted();
    PrintedWord("SELECT jsonb_build_object(\n    ");
    PrintedWord(",");
    PrintedWord(",\n    ");
    PrintedValue(version);
    PrintedValue(hash);
    PrintedValue(ending);
    HeadParts(version, hash, ending);
    hide *;
    Regrouped(Print(Word("SELECT jsonb_build_object(\n    ")), "'" + "migration_version" + "'", ",", Literal(version),
           "'" + "migration_sha256" + "'", Literal(hash), "'" + "transaction_end" + "'", Literal(ending), ",\n    ");
  }

  lemma Regrouped(a: string, b: string, c: string, v: string, d: string, h: string, e: string, z: string, y: string)
    ensures a + b + c + v + (c + d + c + h) + (c + e + c + z) + y
         == a + b + c + v + (c + d + c + h) + (c + e + c + z + y)
  {
  }

  lemma PrintedValue(v: string)
    ensures Print(Quoted(v)) == Literal(v)
  {
  }

  lemma HeadParts(version: string, hash: string, ending: string)
    ensures PrintAll(SummaryHead(version, hash, ending))
      == Print(Word("SELECT jsonb_build_object(\n    ")) + Print(Quoted("migration_version"))
         + Print(Word(",")) + Print(Quoted(version))
         + (Print(Word(",")) + Print(Quoted("migration_sha256")) + Print(Word(",")) + Print(Quoted(hash)))
         + (Print(Word(",")) + Print(Quoted("transaction_end")) + Print(Word(",")) + Print(Quoted(ending)))
         + Print(Word(",\n    "))
  {
    hide PrintAll, Print;
    var x, y := Word("SELECT jsonb_build_object(\n    "), Word(",");
    HeadIs(version, hash, ending);
    HeadTexts(x, Quoted("migration_version"), y, Quoted(version), Quoted("migration_sha256"), Quoted(hash),
             Quoted("transaction_end"), Quoted(ending), Word(",\n    "));
  }

  lemma HeadIs(version: string, hash: string, ending: string)
    ensures SummaryHead(version, hash, ending)
      == [Word("SELECT jsonb_build_object(\n    "), Quoted("migration_version"), Word(","), Quoted(version)]
         + [Word(","), Quoted("migration_sha256"), Word(","), Quoted(hash)]
         + [Word(","), Quoted("transaction_end"), Word(","), Quoted(ending)] + [Word(",\n    ")]
  {
  }

  lemma HeadTexts(x: Fragment, a: Fragment, y: Fragment, v: Fragment, b: Fragment, h: Fragment, c: Fragment,
                 e: Fragment, z: Fragment)
    ensures PrintAll([x, a, y, v] + [y, b, y, h] + [y, c, y, e] + [z])
      == Print(x) + Print(a) + Print(y) + Print(v) + (Print(y) + Print(b) + Print(y) + Print(h))
         + (Print(y) + Print(c) + Print(y) + Print(e)) + Print(z)
  {
    hide *;
    Four(x, a, y, v);
    Four(y, b, y, h);
    Four(y, c, y, e);
    PrintOne(z);
    PrintAllConcat([x, a, y, v], [y, b, y, h]);
    PrintAllConcat([x, a, y, v] + [y, b, y, h], [y, c, y, e]);
    PrintAllConcat([x, a, y, v] + [y, b, y, h] + [y, c, y, e], [z]);
  }

  lemma NamesUnquoted()
    ensures Unquoted("migration_version") && Unquoted("migration_sha256") && Unquoted("transaction_end")
    ensures Unquoted("ledger_version_exists")
  {
  }

  lemma NamesPrinted()
    ensures Print(Quoted("migration_version")) == "'" + "migration_version" + "'"
    ensures Print(Quoted("migration_sha256")) == "'" + "migration_sha256" + "'"
    ensures Print(Quoted("transaction_end")) == "'" + "transaction_end" + "'"
    ensures Print(Quoted("ledger_version_exists")) == "'" + "ledger_version_exists" + "'"
  {
    NamesUnquoted();
    hide *;
    Printed("migration_version");
    Printed("migration_sha256");
    Printed("transaction_end");
    Printed("ledger_version_exists");
  }

  lemma TailPrinted(version: string)
    ensures PrintAll(SummaryTail(version))
      == ("'" + "ledger_version_exists" + "'") + ",EXISTS(SELECT 1 FROM " + "supabase_migrations.schema_migrations"
         + (" WHERE version=" + Literal(version) + ")\n) AS academic_decommission_release")
  {
    var a := [Quoted("ledger_version_exists"), Word(",EXISTS(SELECT 1 FROM "),
              Word("supabase_migrations.schema_migrations")];
    var b := [Word(" WHERE version="), Quoted(version), Word(")\n) AS academic_decommission_release")];
    assert SummaryTail(version) == a + b;
    Four(a[0], a[1], a[2], Word(""));
    Four(b[0], b[1], b[2], Word(""));
    PrintAllConcat(a, b);
    NamesPrinted();
    hide PrintAll, Literal;
  }

  lemma SummaryText(version: string, hash: string, ending: string, w: Wording, line: nat)
    ensures SummarySays(ScriptStmts(SummaryScript(version, hash, ending, w), line), version, hash, ending, w,
                        (Literal(version), Literal(hash), Literal(ending)))
  {
    var ss := SummaryScript(version, hash, ending, w);
    HeadPrinted(version, hash, ending);
    TailPrinted(version);
    PrintOne(Word(ending));
    PrintAllConcat(SummaryHead(version, hash, ending), w.projection);
    PrintAllConcat(SummaryHead(version, hash, ending) + w.projection, SummaryTail(version));
    LiteralQuotes(version);
    LiteralQuotes(hash);
    LiteralQuotes(ending);
    hide PrintAll, Literal, Quotes, SummaryHead, SummaryTail, ScriptStmts;
    TextAt(ss, line, 0);
    TextAt(ss, line, 1);
  }

  // In the artifacts ---------------------------------------------------------------------------------

  lemma Layout(sources: seq<Source>, p: Plan, ending: string) returns (s: seq<Stmt>, l3: nat, l4: nat)
    requires AllComplete(sources)
    ensures ReleaseStmts(sources, p, ending)
      == ScriptStmts(GuardScript(p.json, p.words), 1) + s
         + ScriptStmts([InsertFragments(Migration(sources), p.columns, p.version, p.name)], l3)
         + ScriptStmts(SummaryScript(p.version, p.hash, ending, p.words), l4)
  {
    hide GuardScript, ScriptStmts, InsertFragments, SummaryScript, SourceStmts, Newlines, LedgerInsert, PrintScript;
    hide Blocks, Migration, AllComplete;
    var l2 := 1 + Newlines(PrintScript(GuardScript(p.json, p.words))) + 2;
    s := SourceStmts(sources, l2);
    l3 := l2 + Newlines(Blocks(sources)) + 1;
    l4 := l3 + Newlines(LedgerInsert(Migration(sources), p.columns, p.version, p.name));
  }

  lemma InsertText(m: string, p: Plan, line: nat)
    ensures var i := ScriptStmts([InsertFragments(m, p.columns, p.version, p.name)], line);
      |i| == 1 && i[0].text + "\n" == LedgerInsert(m, p.columns, p.version, p.name)
  {
    var fs := InsertFragments(m, p.columns, p.version, p.name);
    InsertProper(m, p.columns, p.version, p.name);
    hide InsertFragments, LedgerInsert, PrintAll, Proper;
    assert PrintScript([]) == "" && [fs][1..] == [];
    assert PrintScript([fs]) == PrintAll(fs) + ";\n" + "";
    hide PrintScript;
    TextAt([fs], line, 0);
    EndLine(PrintAll(fs));
  }

  /** Of both artifacts: the first six statements are the guard's, the last three the ledger insert and the summary. */
  lemma ControlsOf(sources: seq<Source>, p: Plan, ending: string)
    requires Ready(sources)
    ensures AllComplete(sources)
    ensures var r := ReleaseStmts(sources, p, ending); var n := |r|;
      && n >= 9
      && GuardSays(r[..6], p.json, p.words, Literal(p.json))
      && r[n - 3].text + "\n" == LedgerInsert(Migration(sources), p.columns, p.version, p.name)
      && SummarySays(r[n - 2..], p.version, p.hash, ending, p.words,
                     (Literal(p.version), Literal(p.hash), Literal(ending)))
  {
    ReadyComplete(sources);
    hide *;
    var s, l3, l4 := Layout(sources, p, ending);
    var g, z := ScriptStmts(GuardScript(p.json, p.words), 1),
                ScriptStmts(SummaryScript(p.version, p.hash, ending, p.words), l4);
    GuardText(p.json, p.words, 1);
    GuardSize(g, p.json, p.words, Literal(p.json));
    SummaryText(p.version, p.hash, ending, p.words, l4);
    SummarySize(z, p.version, p.hash, ending, p.words, (Literal(p.version), Literal(p.hash), Literal(ending)));
    InsertText(Migration(sources), p, l3);
    Parts(g, s, ScriptStmts([InsertFragments(Migration(sources), p.columns, p.version, p.name)], l3), z);
  }

  lemma ReadyComplete(sources: seq<Source>)
    requires Ready(sources)
    ensures AllComplete(sources)
  {
    hide AllComplete;
  }

  lemma GuardSize(stmts: seq<Stmt>, json: string, w: Wording, value: string)
    requires GuardSays(stmts, json, w, value)
    ensures |stmts| == 6
  {
  }

  lemma SummarySize(stmts: seq<Stmt>, version: string, hash: string, ending: string, w: Wording,
                    values: (string, string, string))
    requires SummarySays(stmts, version, hash, ending, w, values)
    ensures |stmts| == 2
  {
  }

  lemma Parts(g: seq<Stmt>, s: seq<Stmt>, i: seq<Stmt>, z: seq<Stmt>)
    requires |g| == 6 && |i| == 1 && |z| == 2
    ensures var r := g + s + i + z; |r| >= 9 && r[..6] == g && r[|r| - 3] == i[0] && r[|r| - 2..] == z
  {
  }

  lemma EndLine(t: string)
    ensures t + ";\n" == t + ";" + "\n"
  {
  }
}
