/** The fixed wording of the guard and of the summary, as the release script has it, meets what was asked of it. */
module ReleaseWording {
  import opened Text
  import opened Scanner
  import opened Fragments
  import opened Builder
  import opened Release
  import opened ReleaseLaws
  import opened ReleaseMeaning
  import opened ServerLaws

  // The guard's body behind the inspection, in small pieces --------------------------------------------

  predicate Free(s: string) {
    forall i | 0 <= i < |s| :: s[i] != '$'
  }

  predicate AllFree(cs: seq<string>) {
    forall k | 0 <= k < |cs| :: Free(cs[k])
  }

  function Flat(cs: seq<string>): string {
    if cs == [] then "" else cs[0] + Flat(cs[1..])
  }

  lemma {:induction false} FlatFree(cs: seq<string>)
    requires AllFree(cs)
    ensures '$' !in Flat(cs)
  {
    if cs != [] {
      assert Free(cs[0]);
      FlatFree(cs[1..]);
    }
  }

  function Principal(): (r: seq<string>)
    ensures AllFree(r)
  {
    var r := ["::jsonb; item record; ", "row_count bigint; fingerprint ", "text; observed jsonb;\nBEGIN\n",
              "    IF current_user <> ", "'postgres' OR ", "current_database() <> ", "'postgres' THEN\n"];
    assert Free(r[0]) && Free(r[1]) && Free(r[2]) && Free(r[3]) && Free(r[4]) && Free(r[5]) && Free(r[6]);
    r
  }

  function PrincipalSame(): (r: seq<string>)
    ensures AllFree(r)
  {
    var r := ["        RAISE EXCEPTION ", "'Unexpected database ", "principal or database; ",
              "release refused';\n    END IF;\n"];
    assert Free(r[0]) && Free(r[1]) && Free(r[2]) && Free(r[3]);
    r
  }

  function Ledger(): (r: seq<string>)
    ensures AllFree(r)
  {
    var r := ["    SELECT COALESCE(jsonb_agg(", "version ORDER BY version),", "'[]'::jsonb) INTO observed\n",
              "    FROM ", "supabase_migrations.schema_migrations;\n"];
    assert Free(r[0]) && Free(r[1]) && Free(r[2]) && Free(r[3]) && Free(r[4]);
    r
  }

  function LedgerSame(): (r: seq<string>)
    ensures AllFree(r)
  {
    var r := ["    IF observed IS DISTINCT ", "FROM expected->'ledger' THEN\n", "        RAISE EXCEPTION ",
              "'Migration ledger changed; ", "release refused';\n    END IF;\n"];
    assert Free(r[0]) && Free(r[1]) && Free(r[2]) && Free(r[3]) && Free(r[4]);
    r
  }

  function Columns(): (r: seq<string>)
    ensures AllFree(r)
  {
    var r := ["    SELECT jsonb_agg(", "jsonb_build_object('name',", "column_name,'type',data_type,",
              "'nullable',is_nullable,\n", "        'default',", "column_default) ORDER BY ",
              "ordinal_position) INTO ", "observed FROM ", "information_schema.columns\n"];
    assert Free(r[0]) && Free(r[1]) && Free(r[2]) && Free(r[3]) && Free(r[4]) && Free(r[5]) && Free(r[6]) &&
           Free(r[7]) && Free(r[8]);
    r
  }

  function ColumnsKept(): (r: seq<string>)
    ensures AllFree(r)
  {
    var r := ["    WHERE ", "table_schema='supabase_migrations' ", "AND ", "table_name='schema_migrations';\n",
              "    IF observed IS DISTINCT ", "FROM ", "expected->'ledger_columns' ", "THEN\n"];
    assert Free(r[0]) && Free(r[1]) && Free(r[2]) && Free(r[3]) && Free(r[4]) && Free(r[5]) && Free(r[6]) &&
           Free(r[7]);
    r
  }

  function ColumnsSame(): (r: seq<string>)
    ensures AllFree(r)
  {
    var r := ["        RAISE EXCEPTION ", "'Migration ledger contract ", "changed; release refused';\n",
              "    END IF;\n"];
    assert Free(r[0]) && Free(r[1]) && Free(r[2]) && Free(r[3]);
    r
  }

  function Locks(): (r: seq<string>)
    ensures AllFree(r)
  {
    var r := ["    FOR item IN SELECT * FROM ", "jsonb_to_recordset(", "expected->'tables')\n",
              "        AS t(schema_name text,", "table_name text,row_count ", "bigint,fingerprint text) ",
              "ORDER BY schema_name,", "table_name LOOP\n"];
    assert Free(r[0]) && Free(r[1]) && Free(r[2]) && Free(r[3]) && Free(r[4]) && Free(r[5]) && Free(r[6]) &&
           Free(r[7]);
    r
  }

  function LocksTaken(): (r: seq<string>)
    ensures AllFree(r)
  {
    var r := ["        EXECUTE format('LOCK ", "TABLE %I.%I IN ACCESS ", "EXCLUSIVE MODE',", "item.schema_name,",
              "item.table_name);\n    END ", "LOOP;\n"];
    assert Free(r[0]) && Free(r[1]) && Free(r[2]) && Free(r[3]) && Free(r[4]) && Free(r[5]);
    r
  }

  function Institutions(): (r: seq<string>)
    ensures AllFree(r)
  {
    var r := ["    SELECT COALESCE(jsonb_agg(", "jsonb_build_object(", "'institution_id',",
              "institution_id,'code',code)\n", "        ORDER BY ", "institution_id),'[]'::jsonb) ",
              "INTO observed FROM ", "public.institutions;\n"];
    assert Free(r[0]) && Free(r[1]) && Free(r[2]) && Free(r[3]) && Free(r[4]) && Free(r[5]) && Free(r[6]) &&
           Free(r[7]);
    r
  }

  function InstitutionsSame(): (r: seq<string>)
    ensures AllFree(r)
  {
    var r := ["    IF observed IS DISTINCT ", "FROM expected->'institutions' ", "THEN\n        RAISE EXCEPTION ",
              "'Institution scope changed; ", "release refused';\n    END IF;\n"];
    assert Free(r[0]) && Free(r[1]) && Free(r[2]) && Free(r[3]) && Free(r[4]);
    r
  }

  function Tables(): (r: seq<string>)
    ensures AllFree(r)
  {
    var r := ["    SELECT jsonb_agg(", "jsonb_build_object(", "'schema_name',n.nspname,",
              "'table_name',c.relname)\n", "        ORDER BY n.nspname,", "c.relname) INTO observed FROM ",
              "pg_catalog.pg_class c\n"];
    assert Free(r[0]) && Free(r[1]) && Free(r[2]) && Free(r[3]) && Free(r[4]) && Free(r[5]) && Free(r[6]);
    r
  }

  function TablesKept(): (r: seq<string>)
    ensures AllFree(r)
  {
    var r := ["    JOIN ", "pg_catalog.pg_namespace n ON ", "n.oid=c.relnamespace WHERE ",
              "c.relkind='r'\n      AND (", "n.nspname='public' OR (", "n.nspname='auth' AND ",
              "c.relname='users'));\n"];
    assert Free(r[0]) && Free(r[1]) && Free(r[2]) && Free(r[3]) && Free(r[4]) && Free(r[5]) && Free(r[6]);
    r
  }

  function TablesListed(): (r: seq<string>)
    ensures AllFree(r)
  {
    var r := ["    IF observed IS DISTINCT ", "FROM (SELECT jsonb_agg(", "jsonb_build_object(", "'schema_name',",
              "t->>'schema_name',\n", "        'table_name',", "t->>'table_name') ORDER BY ", "t->>'schema_name',",
              "t->>'table_name')\n"];
    assert Free(r[0]) && Free(r[1]) && Free(r[2]) && Free(r[3]) && Free(r[4]) && Free(r[5]) && Free(r[6]) &&
           Free(r[7]) && Free(r[8]);
    r
  }

  function TablesSame(): (r: seq<string>)
    ensures AllFree(r)
  {
    var r := ["        FROM ", "jsonb_array_elements(", "expected->'tables') t) THEN\n",
              "        RAISE EXCEPTION ", "'Application table inventory ", "changed; release refused';\n",
              "    END IF;\n"];
    assert Free(r[0]) && Free(r[1]) && Free(r[2]) && Free(r[3]) && Free(r[4]) && Free(r[5]) && Free(r[6]);
    r
  }

  function Counts(): (r: seq<string>)
    ensures AllFree(r)
  {
    var r := ["    FOR item IN SELECT * FROM ", "jsonb_to_recordset(", "expected->'tables')\n",
              "        AS t(schema_name text,", "table_name text,row_count ", "bigint,fingerprint text) LOOP\n"];
    assert Free(r[0]) && Free(r[1]) && Free(r[2]) && Free(r[3]) && Free(r[4]) && Free(r[5]);
    r
  }

  function Rows(): (r: seq<string>)
    ensures AllFree(r)
  {
    var r := ["        EXECUTE format(", "'SELECT count(*),md5(COALESCE(", "jsonb_agg(to_jsonb(t) ORDER ",
              "BY to_jsonb(t)::text),", "''[]''::jsonb)::text) FROM ", "%I.%I t',\n",
              "            item.schema_name,", "item.table_name) INTO ", "row_count,fingerprint;\n"];
    assert Free(r[0]) && Free(r[1]) && Free(r[2]) && Free(r[3]) && Free(r[4]) && Free(r[5]) && Free(r[6]) &&
           Free(r[7]) && Free(r[8]);
    r
  }

  function RowsSame(): (r: seq<string>)
    ensures AllFree(r)
  {
    var r := ["        IF row_count IS ", "DISTINCT FROM item.row_count ", "OR fingerprint IS DISTINCT ",
              "FROM item.fingerprint THEN\n", "            RAISE EXCEPTION ", "'Inspected data changed in ",
              "%.%; release refused',", "item.schema_name,", "item.table_name;\n"];
    assert Free(r[0]) && Free(r[1]) && Free(r[2]) && Free(r[3]) && Free(r[4]) && Free(r[5]) && Free(r[6]) &&
           Free(r[7]) && Free(r[8]);
    r
  }

  function RowsDone(): (r: seq<string>)
    ensures AllFree(r)
  {
    var r := ["        END IF;\n    END LOOP;\n"];
    assert Free(r[0]);
    r
  }

  function Routines(): (r: seq<string>)
    ensures AllFree(r)
  {
    var r := ["    SELECT COALESCE(jsonb_agg(", "jsonb_build_object('identity',", "p.oid::regprocedure::text,\n",
              "        'fingerprint',md5(", "pg_get_functiondef(p.oid))) ", "ORDER BY ",
              "p.oid::regprocedure::text),", "'[]'::jsonb)\n"];
    assert Free(r[0]) && Free(r[1]) && Free(r[2]) && Free(r[3]) && Free(r[4]) && Free(r[5]) && Free(r[6]) &&
           Free(r[7]);
    r
  }

  function RoutinesListed(): (r: seq<string>)
    ensures AllFree(r)
  {
    var r := ["        INTO observed FROM ", "pg_catalog.pg_proc p WHERE ",
              "p.pronamespace='public'::regnamespace ", "AND p.prokind='f';\n    IF ",
              "observed IS DISTINCT FROM ", "expected->'routines' THEN\n"];
    assert Free(r[0]) && Free(r[1]) && Free(r[2]) && Free(r[3]) && Free(r[4]) && Free(r[5]);
    r
  }

  function RoutinesSame(): (r: seq<string>)
    ensures AllFree(r)
  {
    var r := ["        RAISE EXCEPTION ", "'Application routine ", "inventory changed; release ",
              "refused';\n    END IF;\nEND;\n"];
    assert Free(r[0]) && Free(r[1]) && Free(r[2]) && Free(r[3]);
    r
  }

  /** The pieces in order. */
  function Checks(): seq<string> {
    Principal() + PrincipalSame() + Ledger() + LedgerSame() + Columns() + ColumnsKept() + ColumnsSame()
    + Locks() + LocksTaken() + Institutions() + InstitutionsSame() + Tables() + TablesKept() + TablesListed()
    + TablesSame() + Counts() + Rows() + RowsSame() + RowsDone() + Routines() + RoutinesListed()
    + RoutinesSame()
  }

  lemma ChecksFree()
    ensures AllFree(Checks())
  {
    hide Free, Principal, PrincipalSame, Ledger, LedgerSame, Columns, ColumnsKept, ColumnsSame, Locks, LocksTaken;
    hide Institutions, InstitutionsSame, Tables, TablesKept, TablesListed, TablesSame, Counts;
    hide Rows, RowsSame, RowsDone, Routines, RoutinesListed, RoutinesSame;
  }

  // The summary's projection ---------------------------------------------------------------------------

  /** Sound and spaced, and ending in wording, so that a value may follow. */
  predicate Piece(fs: seq<Fragment>) {
    Sound(fs) && Spaced(fs) && fs != [] && fs[|fs| - 1].Word? && EndsApart(fs[|fs| - 1].s)
  }

  predicate AllCalm(cs: seq<string>) {
    forall k | 0 <= k < |cs| :: Calm(cs[k])
  }

  /** Calm wording that may stand between two values. */
  predicate Worded(words: seq<string>) {
    words != [] && words[0] != "" && AllCalm(words) && EndsApart(words[|words| - 1])
  }

  /** A quoted value and the wording behind it. */
  function Field(value: string, words: seq<string>): (r: seq<Fragment>)
    requires Worded(words)
    ensures Piece(r)
  {
    hide Calm, EndsApart;
    [Quoted(value)] + seq(|words|, k requires 0 <= k < |words| => Word(words[k]))
  }

  lemma PieceConcat(a: seq<Fragment>, b: seq<Fragment>)
    requires Piece(a) && Piece(b)
    ensures Piece(a + b)
  {
    hide Sound, EndsApart;
    SoundConcat(a, b);
    SpacedConcat(a, b);
  }

  lemma TallyCalm()
    ensures Calm(",(SELECT count(*) FROM ") && Calm("),") && Calm("),\n    ")
    ensures EndsApart("),") && EndsApart("),\n    ")
  {
  }

  /** A key with the number of rows of a table; more says that another line follows. */
  function Tally(key: string, table: string, more: bool): (r: seq<Fragment>)
    requires Calm(table)
    ensures Piece(r)
  {
    TallyCalm();
    hide Calm, EndsApart;
    Field(key, [",(SELECT count(*) FROM ", table, if more then "),\n    " else "),"])
  }

  function RemainingTablesStart(): (r: seq<string>)
    ensures AllCalm(r) && r != [] && r[0] != ""
  {
    var r := [",(SELECT count(*) FROM ", "academic_decommission_tables "];
    assert Calm(r[0]) && Calm(r[1]);
    hide Calm;
    r
  }

  function RemainingTablesRest(): (r: seq<string>)
    ensures Worded(r)
  {
    var r := ["WHERE to_regclass(format("];
    assert Calm(r[0]);
    assert EndsApart(r[0]);
    hide Calm, EndsApart;
    r
  }

  function RemainingTables(): (r: seq<string>)
    ensures Worded(r)
  {
    hide Calm, EndsApart, RemainingTablesStart, RemainingTablesRest;
    RemainingTablesStart() + RemainingTablesRest()
  }

  function RemainingNames(): (r: seq<string>)
    ensures Worded(r)
  {
    var r := [",name)) IS NOT NULL),\n    "];
    assert Calm(r[0]);
    assert EndsApart(r[0]);
    hide Calm, EndsApart;
    r
  }

  function RemainingRoutinesStart(): (r: seq<string>)
    ensures AllCalm(r) && r != [] && r[0] != ""
  {
    var r := [",(SELECT count(*) FROM ", "pg_catalog.pg_proc p WHERE "];
    assert Calm(r[0]) && Calm(r[1]);
    hide Calm;
    r
  }

  function RemainingRoutinesRest(): (r: seq<string>)
    ensures Worded(r)
  {
    var r := ["p.pronamespace="];
    assert Calm(r[0]);
    assert EndsApart(r[0]);
    hide Calm, EndsApart;
    r
  }

  function RemainingRoutines(): (r: seq<string>)
    ensures Worded(r)
  {
    hide Calm, EndsApart, RemainingRoutinesStart, RemainingRoutinesRest;
    RemainingRoutinesStart() + RemainingRoutinesRest()
  }

  function RemainingInStart(): (r: seq<string>)
    ensures AllCalm(r) && r != [] && r[0] != ""
  {
    var r := ["::regnamespace\n        AND ", "p.proname IN(SELECT name FROM "];
    assert Calm(r[0]) && Calm(r[1]);
    hide Calm;
    r
  }

  function RemainingInRest(): (r: seq<string>)
    ensures Worded(r)
  {
    var r := ["academic_decommission_functions)),\n", "    "];
    assert Calm(r[0]) && Calm(r[1]);
    assert EndsApart(r[1]);
    hide Calm, EndsApart;
    r
  }

  function RemainingIn(): (r: seq<string>)
    ensures Worded(r)
  {
    hide Calm, EndsApart, RemainingInStart, RemainingInRest;
    RemainingInStart() + RemainingInRest()
  }

  function PreservedRowsStart(): (r: seq<string>)
    ensures AllCalm(r) && r != [] && r[0] != ""
  {
    var r := [",(SELECT sum(", "jsonb_array_length(rows)) ", "FROM "];
    assert Calm(r[0]) && Calm(r[1]) && Calm(r[2]);
    hide Calm;
    r
  }

  function PreservedRowsRest(): (r: seq<string>)
    ensures Worded(r)
  {
    var r := ["academic_decommission_preserved),\n", "    "];
    assert Calm(r[0]) && Calm(r[1]);
    assert EndsApart(r[1]);
    hide Calm, EndsApart;
    r
  }

  function PreservedRows(): (r: seq<string>)
    ensures Worded(r)
  {
    hide Calm, EndsApart, PreservedRowsStart, PreservedRowsRest;
    PreservedRowsStart() + PreservedRowsRest()
  }

  function ApprovalName(): (r: seq<string>)
    ensures Worded(r)
  {
    var r := [",to_regprocedure("];
    assert Calm(r[0]);
    assert EndsApart(r[0]);
    hide Calm, EndsApart;
    r
  }

  function ApprovalThere(): (r: seq<string>)
    ensures Worded(r)
  {
    var r := [") IS NOT NULL,\n    "];
    assert Calm(r[0]);
    assert EndsApart(r[0]);
    hide Calm, EndsApart;
    r
  }

  lemma TablesCalm1()
    ensures Calm("academic_decommission_tables") && Calm("academic_decommission_functions")
  {
  }

  lemma TablesCalm2()
    ensures Calm("academic_decommission_permissions") && Calm("academic_decommission_preserved")
  {
  }

  lemma TablesCalm3()
    ensures Calm("auth.users") && Calm("public.users")
  {
  }

  lemma TablesCalm4()
    ensures Calm("public.user_roles") && Calm("public.institutions")
  {
  }

  lemma TablesCalm5()
    ensures Calm("public.students")
  {
  }

  function TableFields(): (r: seq<Fragment>)
    ensures Piece(r)
  {
    TablesCalm1();
    hide Calm, Piece, RemainingTables, RemainingNames;
    var a := Tally("retired_table_count", "academic_decommission_tables", true);
    var b := Field("remaining_retired_tables", RemainingTables());
    var c := Field("public.%I", RemainingNames());
    PieceConcat(a, b);
    PieceConcat(a + b, c);
    a + b + c
  }

  function RoutineFields(): (r: seq<Fragment>)
    ensures Piece(r)
  {
    TablesCalm1();
    hide Calm, Piece, RemainingRoutines, RemainingIn;
    var a := Tally("retired_routine_name_count", "academic_decommission_functions", true);
    var b := Field("remaining_retired_routines", RemainingRoutines());
    var c := Field("public", RemainingIn());
    PieceConcat(a, b);
    PieceConcat(a + b, c);
    a + b + c
  }

  function PreservedFields(): (r: seq<Fragment>)
    ensures Piece(r)
  {
    TablesCalm2();
    hide Calm, Piece, PreservedRows;
    var a := Tally("retired_permission_count", "academic_decommission_permissions", true);
    var b := Tally("preserved_table_count", "academic_decommission_preserved", true);
    var c := Field("preserved_row_count", PreservedRows());
    PieceConcat(a, b);
    PieceConcat(a + b, c);
    a + b + c
  }

  function UserFields(): (r: seq<Fragment>)
    ensures Piece(r)
  {
    TablesCalm3();
    TablesCalm4();
    hide Calm, Piece;
    var a := Tally("auth_user_count", "auth.users", false);
    var b := Tally("application_user_count", "public.users", true);
    var c := Tally("user_role_count", "public.user_roles", false);
    PieceConcat(a, b);
    PieceConcat(a + b, c);
    a + b + c
  }

  function PeopleFields(): (r: seq<Fragment>)
    ensures Piece(r)
  {
    TablesCalm4();
    TablesCalm5();
    hide Calm, Piece, ApprovalName;
    var a := Tally("institution_count", "public.institutions", true);
    var b := Tally("student_identity_count", "public.students", true);
    var c := Field("approval_rpc_present", ApprovalName());
    PieceConcat(a, b);
    PieceConcat(a + b, c);
    a + b + c
  }

  function ApprovalFields(): (r: seq<Fragment>)
    ensures Piece(r)
  {
    hide Calm, Piece, ApprovalThere;
    var a := Field("public.b05_approve_student(uuid,uuid,uuid,uuid)", ApprovalThere());
    a
  }

  function Projection(): (r: seq<Fragment>)
    ensures Piece(r)
  {
    hide Piece, TableFields, RoutineFields, PreservedFields, UserFields, PeopleFields, ApprovalFields;
    var a := TableFields();
    var b := RoutineFields();
    var c := PreservedFields();
    var d := UserFields();
    var e := PeopleFields();
    var f := ApprovalFields();
    PieceConcat(a, b);
    PieceConcat(a + b, c);
    PieceConcat(a + b + c, d);
    PieceConcat(a + b + c + d, e);
    PieceConcat(a + b + c + d + e, f);
    a + b + c + d + e + f
  }

  function Declare(): (r: string)
    ensures '$' !in r
  {
    var r := "\nDECLARE expected jsonb := ";
    assert Free(r);
    r
  }

  function RealWording(): Wording {
    Wording(Declare(), Flat(Checks()), Projection())
  }

  lemma RealFixed()
    ensures Fixed(RealWording())
  {
    hide Checks, Projection, AllFree, Sound, Declare;
    ChecksFree();
    FlatFree(Checks());
    assert Piece(Projection());
  }

  // As written -----------------------------------------------------------------------------------------

  /** The dollar body of the guard closes where it is meant to, and all of the guard is well-formed, exactly when
      the inspection does not contain the tag. */
  lemma GuardAsWritten(json: string)
    ensures Sealed(TAG, GuardBody(json, RealWording())) <==> !Contains(json, TAG)
    ensures AllProper(GuardScript(json, RealWording())) <==> !Contains(json, TAG)
  {
    RealFixed();
    hide RealWording, Contains, Sealed;
    var w := RealWording();
    GuardBodySealed(json, w);
    if Contains(json, TAG) {
      var ss := GuardScript(json, w);
      hide GuardBody, GuardScript;
      assert ss[5][1] == Body(TAG, GuardBody(json, w));
      assert !Fits(ss[5], 1);
    } else {
      GuardProper(json, w);
    }
  }

  lemma SummaryAsWritten(version: string, hash: string, ending: string)
    requires IsEnding(ending)
    ensures AllProper(SummaryScript(version, hash, ending, RealWording()))
  {
    RealFixed();
    hide RealWording;
    SummaryProper(version, hash, ending, RealWording());
  }

  /** The release pipeline with the script's own wording preserves meaning. */
  lemma ReleaseAsWritten(sources: seq<Source>, p: Plan)
    requires Ready(sources) && p.words == RealWording() && !Contains(p.json, TAG)
    ensures Prepare(Migration(sources), true, p).Ok?
    ensures StatementsOf(Prepare(Migration(sources), true, p).value.0) == Some(ReleaseStmts(sources, p, "ROLLBACK"))
    ensures StatementsOf(Prepare(Migration(sources), true, p).value.1) == Some(ReleaseStmts(sources, p, "COMMIT"))
  {
    RealFixed();
    hide *;
    ReleasePreservesMeaning(sources, p);
  }
}
