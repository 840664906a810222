/** What the built migration is: its transaction shape and its statements. */
module BuilderLaws {
  import opened Text
  import opened Scanner
  import opened ScannerLaws
  import opened Builder

  predicate OneLine(s: string) {
    forall i | 0 <= i < |s| :: s[i] != '\n'
  }

  predicate Closed(t: string) {
    t == "" || t[|t| - 1] == '\n'
  }

  // Lines ------------------------------------------------------------------------------------------

  /** Some line of t begins with p. */
  ghost predicate HasLine(t: string, p: string) {
    exists k | 0 <= k <= |t| :: LineAt(t, k, p)
  }

  predicate LineAt(t: string, k: nat, p: string)
    requires k <= |t|
  {
    (k == 0 || t[k - 1] == '\n') && p <= t[k..]
  }

  /** A whole line found in two closed texts is found in one of them. */
  lemma LineSplit(a: string, b: string, w: string)
    requires Closed(a) && OneLine(w) && w != "" && HasLine(a + b, w + "\n")
    ensures HasLine(a, w + "\n") || HasLine(b, w + "\n")
  {
    var p, t := w + "\n", a + b;
    var k :| 0 <= k <= |t| && LineAt(t, k, p);
    if k >= |a| {
      assert t[k..] == b[k - |a|..];
      assert k > |a| ==> t[k - 1] == b[k - |a| - 1];
      assert LineAt(b, k - |a|, p);
    } else {
      LineEndsInside(a, b, w, k);
      assert t[k..k + |p|] == p && t[k..][..|p|] == p;
      assert a[k..][..|p|] == t[k..][..|p|];
      assert LineAt(a, k, p);
    }
  }

  lemma LineEndsInside(a: string, b: string, w: string, k: nat)
    requires Closed(a) && OneLine(w) && k < |a| && w + "\n" <= (a + b)[k..]
    ensures k + |w| + 1 <= |a|
  {
    var t := a + b;
    assert forall i | 0 <= i < |w| :: t[k..][i] == (w + "\n")[i] == w[i];
    assert forall j | k <= j < k + |w| :: t[j] == t[k..][j - k] == w[j - k];
    assert forall j | k <= j < k + |w| :: t[j] != '\n';
    assert t[|a| - 1] == '\n';
  }

  /** An occurrence of "\n" + w is a line that begins with w. */
  lemma OccurrenceIsLine(t: string, w: string)
    requires Contains(t, "\n" + w)
    ensures HasLine(t, w)
  {
    var k := Find(t, "\n" + w).value;
    assert t[k..][..1 + |w|] == "\n" + w;
    assert t[k] == t[k..][0];
    assert t[k + 1..] == t[k..][1..];
    assert LineAt(t, k + 1, w);
  }

  /** The lines of a trimmed source that consist of BEGIN; are seen by the builder's search. */
  lemma BeginLineIsOuter(c: string)
    requires HasLine(TrimRight(c) + "\n", "BEGIN;" + "\n")
    ensures HasOuter(c, true)
  {
    var r := TrimRight(c);
    var k :| 0 <= k <= |r + "\n"| && LineAt(r + "\n", k, "BEGIN;" + "\n");
    BeginAt(r, k);
    OuterBehind(c, r, k);
    hide *;
    OuterAt(c, k, true);
  }

  lemma BeginAt(r: string, k: nat)
    requires k <= |r + "\n"| && LineAt(r + "\n", k, "BEGIN;" + "\n")
    ensures k + 6 <= |r| && "BEGIN;" <= r[k..] && (k + 6 < |r| ==> r[k + 6] == '\n') && (k > 0 ==> r[k - 1] == '\n')
  {
    var p := "BEGIN;" + "\n";
    var u := (r + "\n")[k..];
    assert u[..7] == p && |u| >= 7;
    assert r[k..k + 6] == u[..6] == "BEGIN;";
    assert r[k..][..6] == r[k..k + 6];
    assert k + 6 < |r| ==> r[k + 6] == u[6];
  }

  lemma OuterBehind(c: string, r: string, k: nat)
    requires r <= c && Blank(c[|r|..]) && k + 6 <= |r| && "BEGIN;" <= r[k..] && (k + 6 < |r| ==> r[k + 6] == '\n')
    ensures k < |c| && Outer(c[k..])
  {
    assert c[k..][..6] == r[k..][..6];
    assert c[k..][6..] == c[k + 6..];
    if k + 6 == |r| {
      BlankEndsLine(c[|r|..]);
    }
  }

  lemma {:induction false} BlankEndsLine(w: string)
    requires Blank(w)
    ensures EndsLine(w)
  {
    if w != "" {
      assert IsSpace(w[0]);
      BlankEndsLine(w[1..]);
    }
  }

  lemma {:induction false} OuterAt(s: string, k: nat, start: bool)
    requires k < |s| && Outer(s[k..]) && (if k == 0 then start else s[k - 1] == '\n')
    ensures HasOuter(s, start)
  {
    if k == 0 {
      assert s[0..] == s;
    } else {
      assert s[k..] == s[1..][k - 1..];
      OuterAt(s[1..], k - 1, s[0] == '\n');
    }
  }

  // Transaction shape ------------------------------------------------------------------------------

  /** `t.count(pat)`. */
  function Count(t: string, pat: string): nat
    requires pat != ""
    decreases |t|
  {
    match Find(t, pat)
    case None => 0
    case Some(k) => 1 + Count(t[k + |pat|..], pat)
  }

  /** The comment lines the builder writes hold no newline of their own. */
  predicate Tidy(sources: seq<Source>) {
    forall k | 0 <= k < |sources| :: OneLine(sources[k].path) && OneLine(sources[k].digest)
  }

  lemma HeaderOneLine(s: Source)
    requires OneLine(s.path) && OneLine(s.digest)
    ensures OneLine(Header(s)[1..]) && Header(s) == "\n" + Header(s)[1..] && Two(Header(s)[1..], '-', '-')
  {
    var h := "-- SOURCE " + s.path + " sha256=" + s.digest;
    assert Header(s) == "\n" + h;
    assert OneLine("-- SOURCE ") && OneLine(" sha256=");
    assert h[0] == '-' && h[1] == '-';
  }

  lemma PreludeLines()
    ensures OneLine(GENERATED) && OneLine(EDIT) && Two(GENERATED, '-', '-') && Two(EDIT, '-', '-')
  {
    assert OneLine("-- GENERATED by scripts/") && OneLine("maintenance/migrations/");
    assert OneLine("build_academic_decommission.py");
    EditLine();
  }

  lemma EditLine()
    ensures OneLine(EDIT) && Two(EDIT, '-', '-')
  {
    assert OneLine("-- Edit maintained academic_") && OneLine("decommission sources; retain all ");
    assert OneLine("applied migrations.");
  }

  lemma CommentHasNoBegin(h: string)
    requires OneLine(h) && (h == "" || h[0] == '-')
    ensures !HasLine(h + "\n", "BEGIN;" + "\n")
  {
    NotB(h + "\n");
  }

  lemma NotB(t: string)
    requires forall k | 0 <= k < |t| && (k == 0 || t[k - 1] == '\n') :: t[k] != 'B'
    ensures !HasLine(t, "BEGIN;" + "\n")
  {
    forall k | 0 <= k <= |t|
      ensures !LineAt(t, k, "BEGIN;" + "\n")
    {
      assert k < |t| ==> t[k..][0] == t[k];
    }
  }

  lemma {:induction false} BlocksHaveNoBegin(sources: seq<Source>)
    requires Tidy(sources) && forall k | 0 <= k < |sources| :: Accepts(sources[k])
    ensures Closed(Blocks(sources)) && !HasLine(Blocks(sources), "BEGIN;" + "\n")
  {
    if sources == [] {
      assert !HasLine("", "BEGIN;" + "\n");
    } else {
      BlocksHaveNoBegin(sources[1..]);
      BlockHasNoBegin(sources[0]);
      if HasLine(Blocks(sources), "BEGIN;" + "\n") {
        BeginIsOneLine();
        LineSplit(Block(sources[0]), Blocks(sources[1..]), "BEGIN;");
      }
    }
  }

  lemma BeginIsOneLine()
    ensures OneLine("BEGIN;")
  {
  }

  lemma BlockHasNoBegin(s: Source)
    requires OneLine(s.path) && OneLine(s.digest) && Accepts(s)
    ensures Closed(Block(s)) && !HasLine(Block(s), "BEGIN;" + "\n")
  {
    hide TrimRight, Unix, HasOuter, HasLine;
    HeaderOneLine(s);
    BeginIsOneLine();
    var h, c := Header(s)[1..], TrimRight(Unix(s.content)) + "\n";
    assert Block(s) == "\n" + (h + "\n" + c);
    CommentHasNoBegin("");
    CommentHasNoBegin(h);
    assert "" + "\n" == "\n";
    if HasLine(Block(s), "BEGIN;" + "\n") {
      LineSplit("\n", h + "\n" + c, "BEGIN;");
      LineSplit(h + "\n", c, "BEGIN;");
      BeginLineIsOuter(Unix(s.content));
    }
  }

  /** The rendered migration passes the release script's test: one "\nBEGIN;\n" and a final COMMIT line. */
  lemma MigrationShape(sources: seq<Source>)
    requires Buildable(sources) && Tidy(sources)
    ensures Find(Migration(sources), "\nBEGIN;\n") == Some(|GENERATED + "\n" + EDIT|)
    ensures Count(Migration(sources), "\nBEGIN;\n") == 1 && EndsWith(Migration(sources), "COMMIT;\n")
  {
    hide Blocks, Buildable;
    var pat := "\nBEGIN;\n";
    var a := GENERATED + "\n" + EDIT;
    var z := Blocks(sources) + "COMMIT;\n";
    assert Migration(sources) == a + pat + z by { assert pat == "\n" + "BEGIN;" + "\n"; }
    PreludeLines();
    FirstBegin(GENERATED, EDIT, z);
    NoLaterBegin(sources);
    Tail(a, pat, z);
    assert z[|z| - 8..] == "COMMIT;\n";
  }

  lemma Tail(a: string, pat: string, z: string)
    requires pat != "" && Find(a + pat + z, pat) == Some(|a|) && Find(z, pat).None?
    ensures Count(a + pat + z, pat) == 1
  {
    assert (a + pat + z)[|a| + |pat|..] == z;
  }

  lemma FirstBegin(g: string, e: string, z: string)
    requires OneLine(g) && OneLine(e) && Two(e, '-', '-')
    ensures var pat := "\nBEGIN;\n"; Find(g + "\n" + e + pat + z, pat) == Some(|g + "\n" + e|)
  {
    var pat := "\nBEGIN;\n";
    var a := g + "\n" + e;
    var t := a + pat + z;
    assert t[|a|..] == pat + z;
    forall j | 0 <= j < |a|
      ensures !(pat <= t[j..])
    {
      assert t[j..][0] == a[j] && (j < |a| - 1 ==> t[j..][1] == a[j + 1]);
      if j == |g| {
        assert a[j + 1] == e[0];
      } else {
        assert a[j] != '\n';
      }
    }
    FindIs(t, pat, |a|);
  }

  lemma NoLaterBegin(sources: seq<Source>)
    requires Buildable(sources) && Tidy(sources)
    ensures Find(Blocks(sources) + "COMMIT;\n", "\nBEGIN;\n").None?
  {
    hide Blocks, HasLine;
    var z := Blocks(sources) + "COMMIT;\n";
    assert "\n" + ("BEGIN;" + "\n") == "\nBEGIN;\n";
    if Contains(z, "\nBEGIN;\n") {
      OccurrenceIsLine(z, "BEGIN;" + "\n");
      BlocksHaveNoBegin(sources);
      BeginIsOneLine();
      LineSplit(Blocks(sources), "COMMIT;\n", "BEGIN;");
      CommitHasNoBegin();
    }
  }

  lemma CommitHasNoBegin()
    ensures !HasLine("COMMIT;\n", "BEGIN;" + "\n")
  {
    NotB("COMMIT;\n");
  }

  // Statements -------------------------------------------------------------------------------------

  lemma CommentLine(h: string, line: nat)
    requires OneLine(h) && Two(h, '-', '-')
    ensures StatementsOf(h + "\n") == Some([]) && Newlines(h + "\n") == 1
  {
    var t := h + "\n";
    CommentCut(t);
    LineEndOne(h);
    assert t[..|h|] == h && t[|h|..] == "\n";
    SpaceLine();
    BlankRun("\n", "" + Hide(h), 0);
    NewlinesConcat(h, "\n");
    NoNewlines(h);
    FreshLine("", 0);
    assert Blank("" + Hide(h));
  }

  lemma {:induction false} LineEndOne(h: string)
    requires OneLine(h)
    ensures LineEnd(h + "\n") == |h|
  {
    var n := LineEnd(h + "\n");
    assert (h + "\n")[|h|] == '\n';
    assert forall k | 0 <= k < |h| :: (h + "\n")[k] == h[k];
  }

  /** A comment line in front of a text only moves its lines. */
  lemma AfterComment(h: string, b: string)
    requires OneLine(h) && Two(h, '-', '-')
    ensures StatementsOf(h + "\n" + b) == ShiftOpt(StatementsOf(b), 1)
  {
    hide Run, Newlines;
    CommentLine(h, 0);
    Homomorphism(h + "\n", b);
    JoinLaws([], [], ShiftOpt(StatementsOf(b), 1));
  }

  lemma AfterNewline(b: string)
    ensures StatementsOf("\n" + b) == ShiftOpt(StatementsOf(b), 1)
  {
    FreshLine(b, 0);
    LinesShift(b, "", 0, 1);
  }

  lemma ShiftTwice(r: Option<seq<Stmt>>, d: nat, e: nat)
    ensures ShiftOpt(ShiftOpt(r, d), e) == ShiftOpt(r, d + e)
  {
    if r.Some? {
      assert Shift(Shift(r.value, d), e) == Shift(r.value, d + e);
    }
  }

  /** A source keeps its statements in its block, two lines further down. */
  lemma BlockStatements(s: Source)
    requires OneLine(s.path) && OneLine(s.digest) && StatementsOf(Unix(s.content)).Some?
    ensures StatementsOf(Block(s)) == ShiftOpt(StatementsOf(Unix(s.content)), 2)
  {
    hide StatementsOf, TrimRight, Unix;
    HeaderOneLine(s);
    var h, c := Header(s)[1..], TrimRight(Unix(s.content)) + "\n";
    assert Block(s) == "\n" + (h + "\n" + c);
    AfterNewline(h + "\n" + c);
    AfterComment(h, c);
    TrimmedSource(Unix(s.content));
    ShiftTwice(StatementsOf(c), 1, 1);
  }

  /** The statements of the blocks: those of the sources, in order, each on its line. */
  function SourceStmts(sources: seq<Source>, line: nat): seq<Stmt>
    requires AllComplete(sources)
  {
    if sources == [] then []
    else
      Shift(StatementsOf(Unix(sources[0].content)).value, line + 2)
      + SourceStmts(sources[1..], line + Newlines(Block(sources[0])))
  }

  predicate AllComplete(sources: seq<Source>) {
    forall k | 0 <= k < |sources| :: StatementsOf(Unix(sources[k].content)).Some?
  }

  lemma {:induction false} BlocksStatements(sources: seq<Source>, rest: string, line: nat)
    requires Tidy(sources) && AllComplete(sources)
    ensures ShiftOpt(StatementsOf(Blocks(sources) + rest), line)
         == Join(SourceStmts(sources, line), ShiftOpt(StatementsOf(rest), line + Newlines(Blocks(sources))))
  {
    hide StatementsOf, Unix, Block, Newlines;
    if sources == [] {
      assert "" + rest == rest;
      NoNewlines("");
      JoinLaws([], [], ShiftOpt(StatementsOf(rest), line));
    } else {
      var s, more := sources[0], sources[1..];
      var b, z := Block(s), Blocks(more) + rest;
      assert Blocks(sources) + rest == b + z;
      BlockStatements(s);
      BlockClosed(s);
      Homomorphism(b, z);
      NewlinesConcat(b, Blocks(more));
      BlocksStatements(more, rest, line + Newlines(b));
      FirstBlock(StatementsOf(Unix(s.content)).value, StatementsOf(z), Newlines(b), line);
      JoinLaws(Shift(StatementsOf(Unix(s.content)).value, line + 2), SourceStmts(more, line + Newlines(b)),
               ShiftOpt(StatementsOf(rest), line + Newlines(b) + Newlines(Blocks(more))));
    }
  }

  lemma BlockClosed(s: Source)
    ensures Block(s) != "" && Block(s)[|Block(s)| - 1] == '\n'
  {
  }

  lemma FirstBlock(ss: seq<Stmt>, z: Option<seq<Stmt>>, n: nat, line: nat)
    ensures ShiftOpt(Join(Shift(ss, 2), ShiftOpt(z, n)), line) == Join(Shift(ss, line + 2), ShiftOpt(z, line + n))
  {
    if z.Some? {
      assert Shift(Shift(ss, 2) + Shift(z.value, n), line) == Shift(ss, line + 2) + Shift(z.value, line + n);
    }
  }
}
