/** The release artifacts: guard, stripped migration, ledger insert and summary, joined as text. */
module Release {
  import opened Text
  import opened Scanner
  import opened Fragments
  import opened Builder
  import opened BuilderLaws

  const TAG := "$" + "release_guard" + "$"
  const PREPARED := "-- Prepared offline; execute only" + " against explicitly pinned " + "Supabase project."

  /** The long fixed wording of the guard's body around the inspection and of the summary's projection. */
  datatype Wording = Wording(declare: string, checks: string, projection: seq<Fragment>)

  /** What the fixed wording has to satisfy: no dollar sign in the body, well-formed projection. */
  predicate Fixed(w: Wording) {
    && '$' !in w.declare && '$' !in w.checks
    && Sound(w.projection) && (w.projection != [] ==> !w.projection[|w.projection| - 1].Quoted?)
  }

  // Scripts: statements printed one after the other, each closed by ";\n" ---------------------------

  function PrintScript(ss: seq<seq<Fragment>>): string {
    if ss == [] then "" else PrintAll(ss[0]) + ";\n" + PrintScript(ss[1..])
  }

  /** Sound, with a first and a last character that is not whitespace. */
  predicate Proper(fs: seq<Fragment>) {
    && Sound(fs) && fs != []
    && (var a := Print(fs[0]); a != "" && !IsSpace(a[0]))
    && (var z := Print(fs[|fs| - 1]); z != "" && !IsSpace(z[|z| - 1]))
  }

  predicate AllProper(ss: seq<seq<Fragment>>) {
    forall k | 0 <= k < |ss| :: Proper(ss[k])
  }

  function ScriptStmts(ss: seq<seq<Fragment>>, line: nat): seq<Stmt> {
    if ss == [] then [] else
      [Stmt(line + 1, PrintAll(ss[0]) + ";")]
      + ScriptStmts(ss[1..], line + Newlines(PrintAll(ss[0]) + ";\n"))
  }

  // The parts --------------------------------------------------------------------------------------

  function GuardBody(json: string, w: Wording): string {
    w.declare + Literal(json) + w.checks
  }

  /** `guard`; json is the serialised inspection. */
  function GuardScript(json: string, w: Wording): seq<seq<Fragment>> {
    [[Word("BEGIN")],
     [Word("SET LOCAL lock_timeout = "), Quoted("10s")],
     [Word("SET LOCAL statement_timeout = "), Quoted("120s")],
     [Word("SELECT pg_catalog.pg_advisory_xact_lock("), Word("pg_catalog.hashtextextended("),
      Quoted("academic-decommission:rjnfmjcvkfotneswpygr"), Word(",0))")],
     [Word("LOCK TABLE supabase_migrations."), Word("schema_migrations IN ACCESS "), Word("EXCLUSIVE MODE")],
     [Word("DO "), Body(TAG, GuardBody(json, w))]]
  }

  predicate IsLedgerKey(c: string) {
    c == "version" || c == "name" || c == "statements"
  }

  function Selected(columns: seq<string>): (r: seq<string>)
    ensures forall k | 0 <= k < |r| :: IsLedgerKey(r[k])
  {
    if columns == [] then []
    else (if IsLedgerKey(columns[0]) then [columns[0]] else []) + Selected(columns[1..])
  }

  function ValueOf(key: string, migration: string, version: string, name: string): string {
    if key == "version" then Literal(version)
    else if key == "name" then Literal(name)
    else "ARRAY[" + Literal(migration) + "]::text[]"
  }

  function Values(keys: seq<string>, migration: string, version: string, name: string): seq<string> {
    seq(|keys|, i requires 0 <= i < |keys| => ValueOf(keys[i], migration, version, name))
  }

  function JoinComma(parts: seq<string>): string {
    if parts == [] then "" else if |parts| == 1 then parts[0] else parts[0] + "," + JoinComma(parts[1..])
  }

  /** `ledger_insert`. */
  function LedgerInsert(migration: string, columns: seq<string>, version: string, name: string): string {
    var keys := Selected(columns);
    "INSERT INTO supabase_migrations." + "schema_migrations (" + JoinComma(keys) + ") VALUES ("
    + JoinComma(Values(keys, migration, version, name)) + ");\n"
  }

  function SummaryHead(version: string, hash: string, ending: string): seq<Fragment> {
    [Word("SELECT jsonb_build_object(\n    "), Quoted("migration_version"), Word(","), Quoted(version),
     Word(","), Quoted("migration_sha256"), Word(","), Quoted(hash),
     Word(","), Quoted("transaction_end"), Word(","), Quoted(ending), Word(",\n    ")]
  }

  function SummaryTail(version: string): seq<Fragment> {
    [Quoted("ledger_version_exists"), Word(",EXISTS(SELECT 1 FROM "), Word("supabase_migrations.schema_migrations"),
     Word(" WHERE version="), Quoted(version), Word(")\n) AS academic_decommission_release")]
  }

  /** `summary`. */
  function SummaryScript(version: string, hash: string, ending: string, w: Wording): seq<seq<Fragment>> {
    [SummaryHead(version, hash, ending) + w.projection + SummaryTail(version), [Word(ending)]]
  }

  // The whole --------------------------------------------------------------------------------------

  function ReplaceFirst(t: string, pat: string, put: string): string {
    match Find(t, pat)
    case None => t
    case Some(k) => t[..k] + put + t[k + |pat|..]
  }

  function RemoveSuffix(t: string, z: string): string {
    if EndsWith(t, z) then t[..|t| - |z|] else t
  }

  /** Everything the caller supplies besides the migration text. */
  datatype Plan = Plan(json: string, columns: seq<string>, version: string, name: string, hash: string, words: Wording)

  function Payload(body: string, migration: string, p: Plan, ending: string): string {
    PREPARED + "\n" + PrintScript(GuardScript(p.json, p.words))
    + body + "\n" + LedgerInsert(migration, p.columns, p.version, p.name)
    + PrintScript(SummaryScript(p.version, p.hash, ending, p.words))
  }

  /** `render`: the rehearsal and the commit artifact. */
  function Prepare(migration: string, pinned: bool, p: Plan): Result<(string, string)> {
    if !pinned then Err
    else if Count(migration, "\nBEGIN;\n") != 1 || !EndsWith(migration, "COMMIT;\n") then Err
    else
      var body := RemoveSuffix(ReplaceFirst(migration, "\nBEGIN;\n", "\n"), "COMMIT;\n");
      Ok((Payload(body, migration, p, "ROLLBACK"), Payload(body, migration, p, "COMMIT")))
  }
}

/** What the release artifacts mean under the scanner. */
module ReleaseLaws {
  import opened Text
  import opened Scanner
  import opened ScannerLaws
  import opened Fragments
  import opened Release

  lemma RunIsShift(t: string, line: nat)
    ensures Run(t, "", line) == ShiftOpt(StatementsOf(t), line)
  {
    LinesShift(t, "", 0, line);
  }

  lemma {:induction false} PrintAllConcat(a: seq<Fragment>, b: seq<Fragment>)
    ensures PrintAll(a + b) == PrintAll(a) + PrintAll(b)
  {
    if a == [] {
      assert a + b == b;
    } else {
      assert (a + b)[1..] == a[1..] + b;
      PrintAllConcat(a[1..], b);
    }
  }

  lemma SoundConcat(a: seq<Fragment>, b: seq<Fragment>)
    requires Sound(a) && Sound(b)
    requires a != [] && a[|a| - 1].Quoted? ==> b == [] || (b[0].Word? && b[0].s != "")
    ensures Sound(a + b)
  {
    hide Calm, Sealed;
    forall i | 0 <= i < |a + b|
      ensures Fits(a + b, i)
    {
      if i < |a| {
        assert Fits(a, i);
      } else {
        assert Fits(b, i - |a|);
      }
    }
  }

  lemma ProperEnds(fs: seq<Fragment>)
    requires Proper(fs)
    ensures var s := PrintAll(fs); s != "" && !IsSpace(s[0]) && !IsSpace(s[|s| - 1])
  {
    hide IsSpace;
    var n := |fs| - 1;
    assert fs == fs[..n] + [fs[n]];
    PrintAllConcat(fs[..n], [fs[n]]);
    assert PrintAll([fs[n]]) == Print(fs[n]) + "";
  }

  /** A script scans to its statements, whatever follows. */
  lemma {:induction false} ScriptRun(ss: seq<seq<Fragment>>, rest: string, line: nat)
    requires AllProper(ss)
    ensures Run(PrintScript(ss) + rest, "", line)
         == Join(ScriptStmts(ss, line), Run(rest, "", line + Newlines(PrintScript(ss))))
  {
    hide Run, Newlines, PrintAll, Proper, IsSpace;
    if ss == [] {
      assert PrintScript(ss) + rest == rest;
      NoNewlines("");
      JoinLaws([], [], Run(rest, "", line));
    } else {
      var s := PrintAll(ss[0]);
      var y := PrintScript(ss[1..]) + rest;
      assert PrintScript(ss) + rest == s + ";" + ("\n" + y);
      assert Proper(ss[0]);
      StatementLine(ss[0], y, line);
      var next := line + Newlines(s + ";\n");
      ScriptRun(ss[1..], rest, next);
      assert PrintScript(ss) == s + ";\n" + PrintScript(ss[1..]);
      NewlinesConcat(s + ";\n", PrintScript(ss[1..]));
      JoinLaws([Stmt(line + 1, s + ";")], ScriptStmts(ss[1..], next),
               Run(rest, "", next + Newlines(PrintScript(ss[1..]))));
    }
  }

  lemma StatementLine(fs: seq<Fragment>, y: string, line: nat)
    requires Proper(fs)
    ensures var s := PrintAll(fs);
      Run(s + ";" + ("\n" + y), "", line) == Join([Stmt(line + 1, s + ";")], Run(y, "", line + Newlines(s + ";\n")))
  {
    hide Run, IsSpace, PrintAll;
    var s := PrintAll(fs);
    ProperEnds(fs);
    OneStatement(fs, "\n" + y, line);
    FreshLine(y, line + Newlines(s));
    assert s + ";\n" == s + ";" + "\n";
    NewlinesConcat(s + ";", "\n");
    NewlinesConcat(s, ";");
    NoNewlines(";");
  }

  // The guard's body -------------------------------------------------------------------------------

  lemma TagFacts()
    ensures TagLen(TAG) == |TAG| && '\'' !in TAG && TAG != "" && TAG[0] == '$' && TAG[|TAG| - 1] == '$'
  {
    TagWord();
    hide AllWord;
    DollarTag("release_guard");
  }

  predicate AllWord(w: string) {
    forall i | 0 <= i < |w| :: IsWord(w[i])
  }

  lemma TagWord()
    ensures AllWord("release_guard")
  {
  }

  lemma DollarTag(w: string)
    requires w != "" && IsLetter(w[0]) && AllWord(w)
    ensures var t := "$" + w + "$"; TagLen(t) == |t| && '\'' !in t
  {
    var t := "$" + w + "$";
    WordLenAll(w);
    WordLocal(w, "$");
    assert t[1..] == w + "$";
  }

  lemma {:induction false} WordLenAll(w: string)
    requires forall i | 0 <= i < |w| :: IsWord(w[i])
    ensures WordLen(w) == |w|
  {
    if w != "" {
      WordLenAll(w[1..]);
    }
  }

  /** The dollar body of the guard closes where it should exactly when the inspection lacks the tag. */
  lemma GuardBodySealed(json: string, w: Wording)
    requires '$' !in w.declare && '$' !in w.checks
    ensures Sealed(TAG, GuardBody(json, w)) <==> !Contains(json, TAG)
  {
    hide Find, TagLen;
    TagFacts();
    if Contains(json, TAG) {
      TagInside(json, w);
    } else {
      TagOutside(json, w);
    }
  }

  lemma TagOutside(json: string, w: Wording)
    requires '$' !in w.declare && '$' !in w.checks && !Contains(json, TAG)
    requires '\'' !in TAG && TAG != "" && TAG[0] == '$'
    ensures Find(GuardBody(json, w) + TAG, TAG) == Some(|GuardBody(json, w)|)
  {
    var body, tag := GuardBody(json, w), TAG;
    var t := body + tag;
    var z := "'" + w.checks + tag;
    var d := Double(json) + z;
    assert t == w.declare + "'" + d;
    hide Double, Contains;
    DoubleKeepsAbsence(json, tag, z);
    forall k | 0 <= k < |body|
      ensures !(tag <= t[k..])
    {
      var at := k - |w.declare| - 1;
      if 0 <= at < |Double(json)| {
        assert t[k..] == d[at..];
      } else {
        assert t[k..][0] == t[k];
        assert t[k] != '$' by {
          if at < 0 {
            assert t[k] == (w.declare + "'")[k];
          } else {
            assert t[k] == ("'" + w.checks)[at - |Double(json)|];
          }
        }
      }
    }
    assert t[|body|..] == tag;
    FindIs(t, tag, |body|);
  }

  lemma TagInside(json: string, w: Wording)
    requires Contains(json, TAG) && '\'' !in TAG && TAG != ""
    ensures Find(GuardBody(json, w) + TAG, TAG) != Some(|GuardBody(json, w)|)
  {
    var body, tag := GuardBody(json, w), TAG;
    var k := DoubleKeepsPresence(json, tag);
    var t := body + tag;
    var i := |w.declare| + 1 + k;
    var rest := Double(json)[k..];
    assert t == w.declare + "'" + Double(json)[..k] + rest + ("'" + w.checks + tag);
    assert t[i..] == rest + ("'" + w.checks + tag);
    assert tag <= t[i..];
  }

  lemma {:induction false} DoubleKeepsPresence(v: string, pat: string) returns (k: nat)
    requires pat != "" && '\'' !in pat && Contains(v, pat)
    ensures k < |Double(v)| && pat <= Double(v)[k..]
  {
    if pat <= v {
      k := 0;
      PrefixDoubled(v, pat);
      assert Double(v)[0..] == Double(v);
    } else {
      var i := Find(v, pat).value;
      assert i > 0 by { assert v[0..] == v; }
      assert v[i..] == v[1..][i - 1..];
      assert Contains(v[1..], pat);
      var n := if v[0] == '\'' then 2 else 1;
      k := DoubleKeepsPresence(v[1..], pat);
      assert Double(v)[n..] == Double(v[1..]);
      assert Double(v)[n + k..] == Double(v[1..])[k..];
      k := n + k;
    }
  }

  lemma {:induction false} PrefixDoubled(v: string, pat: string)
    requires '\'' !in pat && pat <= v
    ensures pat <= Double(v)
  {
    if pat != "" {
      assert pat[0] in pat && pat[0] == v[0];
      PrefixTail(pat, v);
      PrefixDoubled(v[1..], pat[1..]);
      assert Double(v)[1..] == Double(v[1..]);
      PrefixTail(pat, Double(v));
    }
  }

  // Every part is made of proper statements --------------------------------------------------------

  lemma GuardProper(json: string, w: Wording)
    requires Fixed(w) && !Contains(json, TAG)
    ensures AllProper(GuardScript(json, w))
  {
    hide Sealed, Contains, GuardBody, Proper;
    GuardBodySealed(json, w);
    TimeoutsProper();
    AdvisoryProper();
    LockProper();
    DoProper(GuardBody(json, w));
    var ss := GuardScript(json, w);
    assert Proper(ss[0]);
    assert Proper(ss[1]);
    assert Proper(ss[2]);
    assert Proper(ss[3]);
    assert Proper(ss[4]);
    assert Proper(ss[5]);
  }

  lemma GuardWordsCalm()
    ensures Calm("BEGIN") && Calm("SET LOCAL lock_timeout = ") && Calm("SET LOCAL statement_timeout = ")
  {
  }

  lemma TimeoutsProper()
    ensures Proper([Word("BEGIN")])
    ensures Proper([Word("SET LOCAL lock_timeout = "), Quoted("10s")])
    ensures Proper([Word("SET LOCAL statement_timeout = "), Quoted("120s")])
  {
    GuardWordsCalm();
    hide Calm, Proper;
    OneWord("BEGIN");
    WordThenValue("SET LOCAL lock_timeout = ", "10s");
    WordThenValue("SET LOCAL statement_timeout = ", "120s");
  }

  lemma LockWordsCalm()
    ensures Calm("LOCK TABLE supabase_migrations.") && Calm("schema_migrations IN ACCESS ") && Calm("EXCLUSIVE MODE")
  {
  }

  lemma LockProper()
    ensures Proper([Word("LOCK TABLE supabase_migrations."), Word("schema_migrations IN ACCESS "),
                    Word("EXCLUSIVE MODE")])
  {
    hide Calm, Sealed;
    LockWordsCalm();
  }

  lemma OneWord(s: string)
    requires Calm(s) && s != "" && !IsSpace(s[0]) && !IsSpace(s[|s| - 1])
    ensures Proper([Word(s)])
  {
    hide Calm, Sealed;
  }

  lemma WordThenValue(s: string, v: string)
    requires Calm(s) && s != "" && !IsSpace(s[0])
    ensures Proper([Word(s), Quoted(v)])
  {
    hide Calm, Sealed, Double;
    var z := Literal(v);
    assert z[|z| - 1] == '\'';
  }

  lemma AdvisoryWordsCalm()
    ensures Calm("SELECT pg_catalog.pg_advisory_xact_lock(") && Calm("pg_catalog.hashtextextended(") && Calm(",0))")
  {
  }

  lemma AdvisoryProper()
    ensures Proper([Word("SELECT pg_catalog.pg_advisory_xact_lock("), Word("pg_catalog.hashtextextended("),
                    Quoted("academic-decommission:rjnfmjcvkfotneswpygr"), Word(",0))")])
  {
    hide Calm, Sealed, Double;
    AdvisoryWordsCalm();
  }

  lemma DoProper(body: string)
    requires Sealed(TAG, body)
    ensures Proper([Word("DO "), Body(TAG, body)])
  {
    DoCalm();
    hide Sealed, Calm;
    TagEnds(body, TAG);
  }

  lemma DoCalm()
    ensures Calm("DO ")
  {
  }

  lemma TagEnds(body: string, tag: string)
    requires tag != "" && tag[|tag| - 1] == '$'
    ensures var z := tag + body + tag; z != "" && !IsSpace(z[|z| - 1])
  {
  }

  function NameFragments(keys: seq<string>): seq<Fragment> {
    if keys == [] then [] else if |keys| == 1 then [Word(keys[0])]
    else [Word(keys[0]), Word(",")] + NameFragments(keys[1..])
  }

  function ValueFragment(key: string, m: string, v: string, n: string): seq<Fragment> {
    if key == "version" then [Quoted(v)] else if key == "name" then [Quoted(n)]
    else [Word("ARRAY["), Quoted(m), Word("]::text[]")]
  }

  /** The values, each followed by its comma or by the closing parenthesis. */
  function ValueFragments(keys: seq<string>, m: string, v: string, n: string): seq<Fragment> {
    if keys == [] then [Word(")")]
    else
      ValueFragment(keys[0], m, v, n)
      + (if |keys| == 1 then [Word(")")] else [Word(",")] + ValueFragments(keys[1..], m, v, n))
  }

  function InsertFragments(m: string, columns: seq<string>, v: string, n: string): seq<Fragment> {
    var keys := Selected(columns);
    [Word("INSERT INTO supabase_migrations."), Word("schema_migrations (")] + NameFragments(keys)
    + [Word(") VALUES (")] + ValueFragments(keys, m, v, n)
  }

  lemma {:induction false} NamesSound(keys: seq<string>)
    requires forall k | 0 <= k < |keys| :: IsLedgerKey(keys[k])
    ensures Sound(NameFragments(keys)) && PrintAll(NameFragments(keys)) == JoinComma(keys)
    ensures forall k | 0 <= k < |NameFragments(keys)| :: NameFragments(keys)[k].Word?
  {
    hide IsLedgerKey, Sealed;
    if keys != [] {
      KeysCalm(keys[0]);
      assert Calm(",");
      hide Calm;
      if |keys| == 1 {
        PrintOne(Word(keys[0]));
      } else {
        NamesSound(keys[1..]);
        var head := [Word(keys[0]), Word(",")];
        SoundConcat(head, NameFragments(keys[1..]));
        PrintAllConcat(head, NameFragments(keys[1..]));
        PrintTwo(Word(keys[0]), Word(","));
      }
    }
  }

  lemma PrintTwo(f: Fragment, g: Fragment)
    ensures PrintAll([f, g]) == Print(f) + Print(g)
  {
    assert [f, g] == [f] + [g];
    PrintAllConcat([f], [g]);
    PrintOne(f);
    PrintOne(g);
  }

  lemma KeysCalm(k: string)
    requires IsLedgerKey(k)
    ensures Calm(k)
  {
  }

  lemma {:induction false} ValuesSound(keys: seq<string>, m: string, v: string, n: string)
    ensures Sound(ValueFragments(keys, m, v, n))
    ensures PrintAll(ValueFragments(keys, m, v, n)) == JoinComma(Values(keys, m, v, n)) + ")"
    ensures var fs := ValueFragments(keys, m, v, n); fs != [] && fs[|fs| - 1] == Word(")")
  {
    hide Literal, Sound, Sealed, ValueFragment, ValueOf, PrintAll;
    MarkSound(")");
    MarkSound(",");
    if keys != [] {
      var a := ValueFragment(keys[0], m, v, n);
      OneValue(keys[0], m, v, n);
      var vs := Values(keys, m, v, n);
      if |keys| == 1 {
        SoundConcat(a, [Word(")")]);
        PrintAllConcat(a, [Word(")")]);
      } else {
        ValuesSound(keys[1..], m, v, n);
        var b := ValueFragments(keys[1..], m, v, n);
        assert vs[1..] == Values(keys[1..], m, v, n);
        SoundConcat([Word(",")], b);
        SoundConcat(a, [Word(",")] + b);
        PrintAllConcat([Word(",")], b);
        PrintAllConcat(a, [Word(",")] + b);
      }
    }
  }

  lemma MarkSound(s: string)
    requires s == "," || s == ")"
    ensures Sound([Word(s)]) && PrintAll([Word(s)]) == s
  {
    assert Calm(s);
    PrintOne(Word(s));
  }

  lemma PrintOne(f: Fragment)
    ensures PrintAll([f]) == Print(f)
  {
    assert [f][1..] == [];
  }

  lemma OneValue(key: string, m: string, v: string, n: string)
    ensures Sound(ValueFragment(key, m, v, n)) && PrintAll(ValueFragment(key, m, v, n)) == ValueOf(key, m, v, n)
  {
    hide Literal, Sealed;
    PrintOne(Quoted(v));
    PrintOne(Quoted(n));
    var a, z := [Word("ARRAY["), Quoted(m)], [Word("]::text[]")];
    assert [Word("ARRAY["), Quoted(m), Word("]::text[]")] == a + z;
    assert Calm("ARRAY[") && Calm("]::text[]");
    PrintTwo(Word("ARRAY["), Quoted(m));
    PrintOne(Word("]::text[]"));
    PrintAllConcat(a, z);
  }

  /** The ledger insert is one proper statement, whatever the migration contains. */
  lemma InsertProper(m: string, columns: seq<string>, v: string, n: string)
    ensures Proper(InsertFragments(m, columns, v, n))
    ensures LedgerInsert(m, columns, v, n) == PrintScript([InsertFragments(m, columns, v, n)])
  {
    hide Literal, Values, ValueFragments, NameFragments, JoinComma, Selected, Sound, PrintAll;
    var keys := Selected(columns);
    var head := [Word("INSERT INTO supabase_migrations."), Word("schema_migrations (")];
    var mid := [Word(") VALUES (")];
    HeadSound();
    NamesSound(keys);
    ValuesSound(keys, m, v, n);
    var names, vals := NameFragments(keys), ValueFragments(keys, m, v, n);
    SoundConcat(head, names);
    var hn := head + names;
    assert hn[|hn| - 1].Word?;
    SoundConcat(hn, mid);
    SoundConcat(hn + mid, vals);
    PrintAllConcat(head, names);
    PrintAllConcat(hn, mid);
    PrintAllConcat(hn + mid, vals);
    var fs := InsertFragments(m, columns, v, n);
    assert fs == hn + mid + vals;
    assert fs[0] == head[0] && fs[|fs| - 1] == vals[|vals| - 1];
    PrintSingle(fs);
  }

  lemma PrintSingle(fs: seq<Fragment>)
    ensures PrintScript([fs]) == PrintAll(fs) + ";\n"
  {
    var ss: seq<seq<Fragment>> := [fs];
    assert |ss[1..]| == 0;
    assert PrintScript(ss) == PrintAll(fs) + ";\n" + "";
  }

  lemma HeadSound()
    ensures Sound([Word("INSERT INTO supabase_migrations."), Word("schema_migrations (")])
    ensures PrintAll([Word("INSERT INTO supabase_migrations."), Word("schema_migrations (")])
         == "INSERT INTO supabase_migrations." + "schema_migrations ("
    ensures Sound([Word(") VALUES (")]) && PrintAll([Word(") VALUES (")]) == ") VALUES ("
  {
    assert Calm("INSERT INTO supabase_migrations.");
    assert Calm("schema_migrations (");
    assert Calm(") VALUES (");
    hide Calm, Sealed;
    PrintTwo(Word("INSERT INTO supabase_migrations."), Word("schema_migrations ("));
    PrintOne(Word(") VALUES ("));
  }

  predicate IsEnding(e: string) {
    e == "ROLLBACK" || e == "COMMIT"
  }

  lemma SummaryProper(version: string, hash: string, ending: string, w: Wording)
    requires Fixed(w) && IsEnding(ending)
    ensures AllProper(SummaryScript(version, hash, ending, w))
  {
    hide Literal, Double, Sound, Calm;
    var ss := SummaryScript(version, hash, ending, w);
    var a, z := SummaryHead(version, hash, ending), SummaryTail(version);
    SummaryHeadSound(version, hash, ending);
    SummaryTailSound(version);
    SoundConcat(a, w.projection);
    SoundConcat(a + w.projection, z);
    assert ss[0][0] == a[0] && ss[0][|ss[0]| - 1] == z[5];
    assert Proper(ss[0]);
    EndingProper(ending);
    assert Proper(ss[1]);
  }

  lemma EndingProper(ending: string)
    requires IsEnding(ending)
    ensures Proper([Word(ending)])
  {
    assert Calm(ending);
    OneWord(ending);
  }

  lemma SummaryHeadSound(version: string, hash: string, ending: string)
    ensures Sound(SummaryHead(version, hash, ending))
  {
    assert Calm("SELECT jsonb_build_object(\n    ") && Calm(",") && Calm(",\n    ");
    hide Calm, Sealed;
  }

  lemma TailWordsCalm()
    ensures Calm(",EXISTS(SELECT 1 FROM ") && Calm("supabase_migrations.schema_migrations")
    ensures Calm(" WHERE version=") && Calm(")\n) AS academic_decommission_release")
  {
  }

  lemma SummaryTailSound(version: string)
    ensures Sound(SummaryTail(version))
  {
    TailWordsCalm();
    hide Calm, Sealed;
  }
}
