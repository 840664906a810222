/** The release artifacts as the database server reads them. */
module ServerRelease {
  import opened Text
  import opened Scanner
  import opened Fragments
  import opened Builder
  import opened BuilderLaws
  import opened Release
  import opened ReleaseLaws
  import opened ReleaseMeaning
  import opened ReleaseWording
  import opened ServerScan
  import opened ServerLaws
  import opened Transactions

  /** Sources whose statements the server cuts as the scanner does, and whose comment lines stay one line for it. */
  predicate Clear(sources: seq<Source>) {
    forall k | 0 <= k < |sources| ::
      Understood(Unix(sources[k].content), Between) && '\r' !in sources[k].path && '\r' !in sources[k].digest
  }

  lemma HeaderUnderstood(s: Source, b: string)
    requires OneLine(s.path) && OneLine(s.digest) && '\r' !in s.path && '\r' !in s.digest && Understood(b, Between)
    ensures Understood(Header(s)[1..] + "\n" + b, Between)
  {
    HeaderOneLine(s);
    var h := Header(s)[1..];
    assert h == "-- SOURCE " + s.path + " sha256=" + s.digest;
    assert '\r' !in "-- SOURCE " && '\r' !in " sha256=";
    hide Understood;
    UnderstoodComment(h, b);
  }

  lemma BlockUnderstood(s: Source)
    requires OneLine(s.path) && OneLine(s.digest) && '\r' !in s.path && '\r' !in s.digest
    requires StatementsOf(Unix(s.content)).Some? && Understood(Unix(s.content), Between)
    ensures Understood(Block(s), Between)
  {
    hide StatementsOf, TrimRight, Unix, Understood;
    HeaderOneLine(s);
    var h, c := Header(s)[1..], TrimRight(Unix(s.content)) + "\n";
    var y := h + "\n" + c;
    assert Block(s) == "\n" + y && ("\n" + y)[1..] == y;
    UnderstoodTrimmed(Unix(s.content));
    HeaderUnderstood(s, c);
    BreakUnderstood("\n" + y, Between);
  }

  lemma {:induction false} BlocksUnderstood(sources: seq<Source>, rest: string)
    requires Tidy(sources) && AllComplete(sources) && Clear(sources) && Understood(rest, Between)
    ensures Understood(Blocks(sources) + rest, Between)
  {
    hide StatementsOf, Unix, Block, Understood, OneLine;
    if sources == [] {
      assert "" + rest == rest;
    } else {
      var s, more := sources[0], sources[1..];
      var b, z := Block(s), Blocks(more) + rest;
      assert Blocks(sources) + rest == b + z;
      BlocksUnderstood(more, rest);
      BlockUnderstood(s);
      BlockStatements(s);
      BlockClosed(s);
      UnderstoodConcat(b, z);
    }
  }

  // Printed statements ---------------------------------------------------------------------------------

  lemma GuardSpaced(json: string, w: Wording)
    ensures AllSpaced(GuardScript(json, w))
  {
    hide GuardBody;
    assert EndsApart("SET LOCAL lock_timeout = ") && EndsApart("SET LOCAL statement_timeout = ");
    assert EndsApart("pg_catalog.hashtextextended(") && EndsApart("DO ");
    hide EndsApart;
  }

  lemma {:induction false} NamesSpaced(keys: seq<string>)
    ensures forall k | 0 <= k < |NameFragments(keys)| :: NameFragments(keys)[k].Word?
  {
    if |keys| > 1 {
      NamesSpaced(keys[1..]);
    }
  }

  lemma {:induction false} ValuesSpaced(keys: seq<string>, m: string, v: string, n: string)
    ensures Spaced(ValueFragments(keys, m, v, n)) && ValueFragments(keys, m, v, n) != []
  {
    assert EndsApart("ARRAY[") && EndsApart("]::text[]") && EndsApart(",") && EndsApart(")");
    hide EndsApart;
    if |keys| > 1 {
      ValuesSpaced(keys[1..], m, v, n);
      var rest := ValueFragments(keys[1..], m, v, n);
      hide ValueFragments;
      SpacedConcat([Word(",")], rest);
    }
  }

  lemma InsertSpaced(m: string, columns: seq<string>, v: string, n: string)
    ensures AllSpaced([InsertFragments(m, columns, v, n)])
  {
    var keys := Selected(columns);
    NamesSpaced(keys);
    ValuesSpaced(keys, m, v, n);
    hide NameFragments, ValueFragments;
    var a := [Word("INSERT INTO supabase_migrations."), Word("schema_migrations (")] + NameFragments(keys);
    assert EndsApart(") VALUES (");
    hide EndsApart;
    SpacedConcat(a + [Word(") VALUES (")], ValueFragments(keys, m, v, n));
  }

  lemma SummarySpaced(version: string, hash: string, ending: string, w: Wording)
    requires Piece(w.projection)
    ensures AllSpaced(SummaryScript(version, hash, ending, w))
  {
    var a, z := SummaryHead(version, hash, ending), SummaryTail(version);
    HeadSpaced(version, hash, ending);
    TailSpaced(version);
    hide SummaryHead, SummaryTail, EndsApart, Sound;
    SpacedConcat(a, w.projection);
    SpacedConcat(a + w.projection, z);
  }

  lemma HeadSpaced(version: string, hash: string, ending: string)
    ensures var a := SummaryHead(version, hash, ending);
      Spaced(a) && a != [] && a[0].Word? && a[|a| - 1].Word? && EndsApart(a[|a| - 1].s)
  {
    assert EndsApart("SELECT jsonb_build_object(\n    ") && EndsApart(",") && EndsApart(",\n    ");
    hide EndsApart;
  }

  lemma TailSpaced(version: string)
    ensures Spaced(SummaryTail(version))
  {
    assert EndsApart(" WHERE version=");
    hide EndsApart;
  }

  // The artifacts --------------------------------------------------------------------------------------

  lemma FixedLines()
    ensures '\r' !in GENERATED && '\r' !in EDIT && '\r' !in PREPARED
  {
    assert '\r' !in "-- GENERATED by scripts/" && '\r' !in "maintenance/migrations/";
    assert '\r' !in "build_academic_decommission.py";
    EditFree();
    PreparedFree();
  }

  lemma EditFree()
    ensures '\r' !in EDIT
  {
    assert '\r' !in "-- Edit maintained academic_" && '\r' !in "decommission sources; retain all ";
    assert '\r' !in "applied migrations.";
  }

  lemma PreparedFree()
    ensures '\r' !in PREPARED
  {
    assert '\r' !in "-- Prepared offline; execute only" && '\r' !in " against explicitly pinned ";
    assert '\r' !in "Supabase project.";
  }

  /** What follows the sources. */
  lemma TailUnderstood(m: string, p: Plan, ending: string)
    requires Piece(p.words.projection) && IsEnding(ending)
    requires AllProper(SummaryScript(p.version, p.hash, ending, p.words))
    requires AllProper([InsertFragments(m, p.columns, p.version, p.name)])
    ensures Understood("\n" + (PrintScript([InsertFragments(m, p.columns, p.version, p.name)])
                               + PrintScript(SummaryScript(p.version, p.hash, ending, p.words))), Between)
  {
    hide *;
    SummarySpaced(p.version, p.hash, ending, p.words);
    LastScript(SummaryScript(p.version, p.hash, ending, p.words));
    InsertSpaced(m, p.columns, p.version, p.name);
    ScriptUnderstood([InsertFragments(m, p.columns, p.version, p.name)],
                     PrintScript(SummaryScript(p.version, p.hash, ending, p.words)));
    LineUnderstood(PrintScript([InsertFragments(m, p.columns, p.version, p.name)])
                   + PrintScript(SummaryScript(p.version, p.hash, ending, p.words)));
  }

  /** What precedes the sources. */
  lemma HeadUnderstood(guard: seq<seq<Fragment>>, rest: string)
    requires AllProper(guard) && AllSpaced(guard) && Understood(rest, Between)
    ensures Understood(PREPARED + "\n" + (PrintScript(guard) + (GENERATED + "\n" + (EDIT + "\n" + rest))), Between)
  {
    FixedLines();
    PreludeLines();
    PreparedLine();
    hide *;
    UnderstoodComment(EDIT, rest);
    UnderstoodComment(GENERATED, EDIT + "\n" + rest);
    ScriptUnderstood(guard, GENERATED + "\n" + (EDIT + "\n" + rest));
    UnderstoodComment(PREPARED, PrintScript(guard) + (GENERATED + "\n" + (EDIT + "\n" + rest)));
  }

  lemma PayloadUnderstood(sources: seq<Source>, p: Plan, ending: string)
    requires Ready(sources) && Clear(sources) && p.words == RealWording() && !Contains(p.json, TAG) && IsEnding(ending)
    ensures Understood(Payload(GENERATED + "\n" + (EDIT + "\n" + Blocks(sources)), Migration(sources), p, ending),
                       Between)
  {
    hide *;
    RealFixed();
    RealPieces(p.words);
    Parts(sources, p, ending);
    var m := Migration(sources);
    TailUnderstood(m, p, ending);
    GuardSpaced(p.json, p.words);
    AroundBlocks(sources, GuardScript(p.json, p.words), [InsertFragments(m, p.columns, p.version, p.name)],
                 SummaryScript(p.version, p.hash, ending, p.words));
    PayloadText(sources, m, p, ending, Blocks(sources), PrintScript(GuardScript(p.json, p.words)),
                PrintScript([InsertFragments(m, p.columns, p.version, p.name)]),
                PrintScript(SummaryScript(p.version, p.hash, ending, p.words)));
  }

  lemma RealPieces(w: Wording)
    requires w == RealWording()
    ensures Piece(w.projection)
  {
    hide Piece, Projection, Checks, Flat, Declare;
  }

  lemma AroundBlocks(sources: seq<Source>, guard: seq<seq<Fragment>>, ins: seq<seq<Fragment>>, sum: seq<seq<Fragment>>)
    requires Tidy(sources) && AllComplete(sources) && Clear(sources) && AllProper(guard) && AllSpaced(guard)
    requires Understood("\n" + (PrintScript(ins) + PrintScript(sum)), Between)
    ensures Understood(
      PREPARED + "\n" + (PrintScript(guard) + (GENERATED + "\n" + (EDIT + "\n"
      + (Blocks(sources) + ("\n" + (PrintScript(ins) + PrintScript(sum))))))), Between)
  {
    hide *;
    BlocksUnderstood(sources, "\n" + (PrintScript(ins) + PrintScript(sum)));
    HeadUnderstood(guard, Blocks(sources) + ("\n" + (PrintScript(ins) + PrintScript(sum))));
  }

  lemma LastScript(ss: seq<seq<Fragment>>)
    requires AllProper(ss) && AllSpaced(ss)
    ensures Understood(PrintScript(ss), Between)
  {
    ScriptUnderstood(ss, "");
    assert PrintScript(ss) + "" == PrintScript(ss);
  }

  lemma LineUnderstood(b: string)
    requires Understood(b, Between)
    ensures Understood("\n" + b, Between)
  {
    assert ("\n" + b)[1..] == b;
    BreakUnderstood("\n" + b, Between);
  }

  /** The server finds in both artifacts exactly the statements of the guard, of the sources, of the ledger insert and
      of the summary, and in each source those the scanner finds. */
  lemma ServerReadsRelease(sources: seq<Source>, p: Plan)
    requires Ready(sources) && Clear(sources) && p.words == RealWording() && !Contains(p.json, TAG)
    ensures Prepare(Migration(sources), true, p).Ok?
    ensures ServerStatements(Prepare(Migration(sources), true, p).value.0) == Some(ReleaseStmts(sources, p, "ROLLBACK"))
    ensures ServerStatements(Prepare(Migration(sources), true, p).value.1) == Some(ReleaseStmts(sources, p, "COMMIT"))
  {
    hide Payload, ReleaseStmts, Find, Migration, Contains, Blocks, Understood, RealWording, Server, Run;
    MigrationShape(sources);
    StrippedBody(sources);
    ReleaseAsWritten(sources, p);
    PayloadUnderstood(sources, p, "ROLLBACK");
    PayloadUnderstood(sources, p, "COMMIT");
    SameStatements(Prepare(Migration(sources), true, p).value.0, "", 0, Between);
    SameStatements(Prepare(Migration(sources), true, p).value.1, "", 0, Between);
  }

  /** The sources as the server reads them. */
  predicate ServerWithout(sources: seq<Source>, e: Edge) {
    forall i | 0 <= i < |sources| ::
      var ss := ServerStatements(Unix(sources[i].content)); ss.Some? && Without(ss.value, e)
  }

  lemma SameSources(sources: seq<Source>, e: Edge)
    requires AllComplete(sources) && Clear(sources)
    ensures ServerWithout(sources, e) <==> SourcesWithout(sources, e)
  {
    hide Unix, Server, Run, Without, Understood;
    forall k | 0 <= k < |sources|
      ensures ServerStatements(Unix(sources[k].content)) == StatementsOf(Unix(sources[k].content))
    {
      SameStatements(Unix(sources[k].content), "", 0, Between);
    }
  }

  /** For the server each artifact opens exactly one transaction if and only if no statement it finds in a source
      opens one, and closes exactly one if and only if none closes one. */
  lemma OneTransactionForServer(sources: seq<Source>, p: Plan, e: Edge)
    requires Ready(sources) && Clear(sources) && p.words == RealWording() && !Contains(p.json, TAG)
    ensures Prepare(Migration(sources), true, p).Ok?
    ensures var rehearsal := ServerStatements(Prepare(Migration(sources), true, p).value.0);
      rehearsal.Some? && (CountEdges(rehearsal.value, e) == 1 <==> ServerWithout(sources, e))
    ensures var commit := ServerStatements(Prepare(Migration(sources), true, p).value.1);
      commit.Some? && (CountEdges(commit.value, e) == 1 <==> ServerWithout(sources, e))
  {
    hide *;
    ServerReadsRelease(sources, p);
    ReadyIsComplete(sources);
    SameSources(sources, e);
    BothEndings();
    OneTransactionIff(sources, p, "ROLLBACK", e);
    OneTransactionIff(sources, p, "COMMIT", e);
  }

  lemma ReadyIsComplete(sources: seq<Source>)
    requires Ready(sources)
    ensures AllComplete(sources)
  {
  }

  lemma BothEndings()
    ensures IsEnding("ROLLBACK") && IsEnding("COMMIT")
  {
  }
}
