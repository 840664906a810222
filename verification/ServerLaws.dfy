/** Texts the server reads as the scanner does, put together from parts: sources, comment lines and printed SQL. */
module ServerLaws {
  import opened Text
  import opened Scanner
  import opened ScannerLaws
  import opened ServerScan
  import opened Fragments
  import opened BuilderLaws
  import opened Release
  import Lexer

  // A text in front of another -------------------------------------------------------------------------

  lemma {:induction false} EscapeLocal(s: string, w: string, y: string, n: nat)
    requires Lexer.EscapeEnd(s + w) == Some(n) && n <= |s| && Blank(w) && (y == "" || y[0] == '\n')
    ensures Lexer.EscapeEnd(s + y) == Some(n)
    decreases |s|
  {
    if s != "" {
      var k := if s[0] == '\\' || (s[0] == '\'' && |s| >= 2 && s[1] == '\'') then 2 else 1;
      assert |s| == 1 && w != "" ==> IsSpace((s + w)[1]);
      if k <= |s| {
        assert (s + w)[k..] == s[k..] + w && (s + y)[k..] == s[k..] + y;
        if s[0] != '\'' || k == 2 {
          EscapeLocal(s[k..], w, y, n - k);
        }
      }
    }
  }

  lemma {:induction false} TagRunLocal(s: string, y: string)
    requires y == "" || !TagChar(y[0])
    ensures TagRun(s + y) == TagRun(s)
  {
    if s == "" {
      assert s + y == y;
    } else {
      assert (s + y)[1..] == s[1..] + y;
      TagRunLocal(s[1..], y);
    }
  }

  lemma {:induction false} TagRunWithin(s: string, w: string)
    ensures TagRun(s + w) == TagRun(s) || (TagRun(s) == |s| && TagRun(s + w) >= |s|)
  {
    if s == "" {
      assert s + w == w;
    } else {
      assert (s + w)[1..] == s[1..] + w;
      TagRunWithin(s[1..], w);
    }
  }

  /** Neither whitespace nor a line break completes a dollar tag. */
  lemma ServerTagLocal(r: string, w: string, y: string)
    requires r != "" && Blank(w) && (y == "" || y[0] == '\n')
    ensures ServerTag(r + y) == ServerTag(r + w)
  {
    assert (r + w)[1..] == r[1..] + w && (r + y)[1..] == r[1..] + y;
    TagRunLocal(r[1..], y);
    TagRunWithin(r[1..], w);
    forall k | |r| <= k < |r + w|
      ensures (r + w)[k] != '$'
    {
      assert (r + w)[k] == w[k - |r|] && IsSpace(w[k - |r|]);
    }
  }

  lemma AlikeLocal(r: string, w: string, y: string, m: Mode)
    requires r != "" && Blank(w) && y != "" && y[0] == '\n' && Alike(r + w, m)
    requires CutOf(r + y) == CutOf(r + w) != Broken
    requires var c := CutOf(r + w); c.Gap? || c.Code? ==> c.n <= |r|
    ensures Alike(r + y, m)
  {
    BlankHead(w);
    PairLocal(r, w);
    PairLocal(r, y);
    if Two(r, '-', '-') {
      CommentCut(r + w);
      CommentCut(r + y);
      assert (r + y)[..LineEnd(r + y)] == (r + w)[..LineEnd(r + w)];
    } else if r[0] == '\'' {
      if Escapes(m) {
        EscapeAlike(r, w, y);
      }
    } else if r[0] == '$' {
      TagLocal(r, w);
      TagLocal(r, y);
      ServerTagLocal(r, w, y);
    }
  }

  lemma BlankHead(w: string)
    requires Blank(w)
    ensures w == "" || IsSpace(w[0])
  {
  }

  lemma EscapeAlike(r: string, w: string, y: string)
    requires r != "" && r[0] == '\'' && Blank(w) && y != "" && y[0] == '\n'
    requires CutOf(r + y) == CutOf(r + w) != Broken
    requires var c := CutOf(r + w); c.Gap? || c.Code? ==> c.n <= |r|
    requires Lexer.EscapeEnd((r + w)[1..]) == QuoteEnd((r + w)[1..], '\'')
    ensures Lexer.EscapeEnd((r + y)[1..]) == QuoteEnd((r + y)[1..], '\'')
  {
    hide QuoteEnd, Lexer.EscapeEnd;
    assert (r + w)[1..] == r[1..] + w && (r + y)[1..] == r[1..] + y;
    EscapeLocal(r[1..], w, y, QuoteEnd(r[1..] + w, '\'').value);
  }

  /** A line break ends every mode but that behind an escape string. */
  lemma BreakUnderstood(y: string, m: Mode)
    requires y != "" && y[0] == '\n' && Understood(y[1..], Between) && !m.BehindEscape?
    ensures Understood(y, m)
  {
    assert CutOf(y) == Code(1);
  }

  /** Behind an escape string something stands in the buffer. */
  predicate Fitting(buf: string, m: Mode) {
    m.BehindEscape? ==> !Blank(buf)
  }

  /** What a complete text is followed by does not change how it is read. */
  lemma {:induction false} UnderstoodSplice(r: string, w: string, y: string, buf: string, line: nat, m: Mode)
    requires Blank(w) && y != "" && y[0] == '\n' && Run(r + w, buf, line).Some? && Fitting(buf, m)
    requires Understood(r + w, m) && Understood(y[1..], Between)
    ensures Understood(r + y, m)
    decreases |r|, 2
  {
    if r == "" {
      assert r + w == w && r + y == y;
      BlankRun(w, buf, line);
      BreakUnderstood(y, m);
    } else if Two(r, '-', '-') && LineEnd(r) == |r| {
      LastCommentUnderstood(r, w, y, buf, line, m);
    } else {
      hide Run, CutOf, Blank, Understood, Alike, Fitting;
      CutHolds(r + w, buf, line);
      if Two(r, '-', '-') {
        CommentLocal(r, w, y);
      } else {
        BlankIsInert(w);
        CutLocal(r, w, y);
      }
      UnderstoodCut(r, w, y, buf, line, m);
    }
  }

  lemma CutHolds(t: string, buf: string, line: nat)
    requires t != "" && Run(t, buf, line).Some?
    ensures CutOf(t) != Broken
  {
    hide CutOf;
  }

  lemma CommentLocal(r: string, w: string, y: string)
    requires Two(r, '-', '-') && LineEnd(r) < |r|
    ensures CutOf(r + y) == CutOf(r + w) == Gap(LineEnd(r))
  {
    CommentCut(r + w);
    CommentCut(r + y);
    LineEndLocal(r, w);
    LineEndLocal(r, y);
  }

  lemma LastCommentUnderstood(r: string, w: string, y: string, buf: string, line: nat, m: Mode)
    requires Blank(w) && y != "" && y[0] == '\n' && Run(r + w, buf, line).Some? && Fitting(buf, m)
    requires Understood(r + w, m) && Understood(y[1..], Between) && Two(r, '-', '-') && LineEnd(r) == |r|
    ensures Understood(r + y, m)
  {
    var n := LineEnd(r + w);
    CommentCut(r + w);
    CommentCut(r + y);
    LineEndLocal(r, y);
    LineEndBeyond(r, w);
    assert (r + y)[..|r|] == (r + w)[..n][..|r|] && (r + y)[|r|..] == y;
    BufferBlank(r, w, buf, line);
    hide Blank, LineEnd;
    BreakUnderstood(y, BehindGap(r + y, m));
  }

  lemma BufferBlank(r: string, w: string, buf: string, line: nat)
    requires Blank(w) && Run(r + w, buf, line).Some? && Two(r, '-', '-') && LineEnd(r) == |r|
    ensures Blank(buf)
  {
    hide IsSpace, SameLines;
    var n := LineEnd(r + w);
    CommentCut(r + w);
    LineEndBeyond(r, w);
    var tail := w[n - |r|..];
    assert (r + w)[n..] == tail;
    BlankRun(tail, buf + Hide((r + w)[..n]), line);
    BlankConcat(buf, Hide((r + w)[..n]));
  }

  lemma UnderstoodCut(r: string, w: string, y: string, buf: string, line: nat, m: Mode)
    requires r != "" && Blank(w) && y != "" && y[0] == '\n' && Run(r + w, buf, line).Some? && Fitting(buf, m)
    requires CutOf(r + y) == CutOf(r + w) != Broken
    requires var c := CutOf(r + w); c.Gap? || c.Code? ==> c.n <= |r|
    requires Understood(r + w, m) && Understood(y[1..], Between)
    ensures Understood(r + y, m)
    decreases |r|, 1
  {
    hide CutOf, Newlines, Emit, Run, Blank, Alike;
    AlikeLocal(r, w, y, m);
    Cutting(r, w, buf, line);
    var c := CutOf(r + w);
    var n := if c.Stop? then 1 else c.n;
    assert (r + w)[n..] == r[n..] + w && (r + y)[n..] == r[n..] + y;
    if c.Stop? {
      UnderstoodSplice(r[1..], w, y, "", line + Newlines(buf), Between);
    } else {
      var k := if c.Gap? then BehindGap(r + w, m) else Behind(r + w, n, m);
      var add := if c.Gap? then Hide(r[..n]) else r[..n];
      StillFits(buf, add, r + w, n, m, k);
      SameMode(r, w, y, n, m);
      UnderstoodSplice(r[n..], w, y, buf + add, line, k);
    }
  }

  lemma SameMode(r: string, w: string, y: string, n: nat, m: Mode)
    requires r != "" && Blank(w) && y != "" && y[0] == '\n'
    ensures Behind(r + y, n, m) == Behind(r + w, n, m) && BehindGap(r + y, m) == BehindGap(r + w, m)
  {
    BlankHead(w);
    PairLocal(r, w);
    PairLocal(r, y);
  }

  lemma StillFits(buf: string, add: string, t: string, n: nat, m: Mode, k: Mode)
    requires Fitting(buf, m) && t != "" && 0 < n <= |t|
    requires k == BehindGap(t, m) || (k == Behind(t, n, m) && add == t[..n])
    ensures Fitting(buf + add, k)
  {
    BlankConcat(buf, add);
    assert add == t[..n] ==> add[0] == t[0];
  }

  /** Behind a complete text that ends its last line, another is read as it is alone. */
  lemma UnderstoodConcat(a: string, b: string)
    requires StatementsOf(a).Some? && a != "" && a[|a| - 1] == '\n'
    requires Understood(a, Between) && Understood(b, Between)
    ensures Understood(a + b, Between)
  {
    hide Run, Understood;
    SpaceLine();
    var r, y := a[..|a| - 1], "\n" + b;
    assert a == r + "\n" && a + b == r + y && y[1..] == b;
    UnderstoodSplice(r, "\n", y, "", 0, Between);
  }

  /** Exchanging trailing whitespace for one newline does not change how a source is read. */
  lemma UnderstoodTrimmed(c: string)
    requires StatementsOf(c).Some? && Understood(c, Between)
    ensures Understood(TrimRight(c) + "\n", Between)
  {
    var r := TrimRight(c);
    var w := c[|r|..];
    assert c == r + w && "\n"[1..] == "";
    hide Run, TrimRight;
    UnderstoodSplice(r, w, "\n", "", 0, Between);
  }

  /** A comment line without a carriage return. */
  lemma UnderstoodComment(h: string, b: string)
    requires Two(h, '-', '-') && OneLine(h) && '\r' !in h && Understood(b, Between)
    ensures Understood(h + "\n" + b, Between)
  {
    var t := h + "\n" + b;
    var y := "\n" + b;
    assert t == h + y && y[1..] == b;
    LineEndAll(h);
    LineEndLocal(h, y);
    CommentCut(t);
    assert t[..|h|] == h && t[|h|..] == y;
    BreakUnderstood(y, Between);
    hide LineEnd;
  }

  lemma LineEndAll(h: string)
    requires OneLine(h)
    ensures LineEnd(h) == |h|
  {
  }

  // Printed SQL ----------------------------------------------------------------------------------------

  /** Behind some calm text. */
  function After(s: string, m: Mode): Mode {
    if s == "" then m else After(s[1..], BehindChar(s[0], m))
  }

  lemma {:induction false} CalmUnderstood(s: string, x: string, m: Mode)
    requires Calm(s) && Understood(x, After(s, m))
    ensures Understood(s + x, m)
  {
    if s == "" {
      assert s + x == x;
    } else {
      assert Plain(s[0]);
      PlainCut(s + x);
      assert (s + x)[1..] == s[1..] + x;
      hide CutOf, BehindChar;
      CalmUnderstood(s[1..], x, BehindChar(s[0], m));
    }
  }

  /** The last character is not part of a name. */
  predicate EndsApart(s: string) {
    s != "" && !ContinuesName(s[|s| - 1])
  }

  lemma {:induction false} AfterEnds(s: string, m: Mode)
    requires !m.BehindEscape?
    ensures !After(s, m).BehindEscape? && (EndsApart(s) ==> After(s, m) == Between)
  {
    if s != "" {
      AfterEnds(s[1..], BehindChar(s[0], m));
    }
  }

  /** Values and bodies stand behind wording that does not end in a name. */
  predicate Spaced(fs: seq<Fragment>) {
    forall i | 0 < i < |fs| && !fs[i].Word? :: fs[i - 1].Word? && EndsApart(fs[i - 1].s)
  }

  lemma SpacedConcat(a: seq<Fragment>, b: seq<Fragment>)
    requires Spaced(a) && Spaced(b) && a != [] && a[|a| - 1].Word? && EndsApart(a[|a| - 1].s)
    ensures Spaced(a + b)
  {
    hide EndsApart;
    var all := a + b;
    forall i | 0 < i < |all| && !all[i].Word?
      ensures all[i - 1].Word? && EndsApart(all[i - 1].s)
    {
      if i < |a| {
        assert all[i] == a[i] && all[i - 1] == a[i - 1];
      } else if i > |a| {
        assert all[i] == b[i - |a|] && all[i - 1] == b[i - |a| - 1];
      }
    }
  }

  lemma SpacedTail(fs: seq<Fragment>)
    requires fs != [] && Spaced(fs)
    ensures Spaced(fs[1..])
    ensures |fs| > 1 && !fs[1..][0].Word? ==> fs[0].Word? && EndsApart(fs[0].s)
  {
    hide EndsApart;
    var rest := fs[1..];
    forall i | 0 < i < |rest| && !rest[i].Word?
      ensures rest[i - 1].Word? && EndsApart(rest[i - 1].s)
    {
      assert rest[i] == fs[i + 1] && rest[i - 1] == fs[i];
    }
  }

  lemma {:induction false} FragmentsUnderstood(fs: seq<Fragment>, x: string, m: Mode)
    requires Sound(fs) && Spaced(fs) && (fs != [] && !fs[0].Word? ==> m == Between) && !m.BehindEscape?
    requires x != "" && x[0] == ';' && Understood(x[1..], Between)
    ensures Understood(PrintAll(fs) + x, m)
  {
    hide CutOf, Calm, Sealed, EndsApart, Understood;
    if fs == [] {
      assert PrintAll(fs) + x == x;
      StopUnderstood(x, m);
    } else {
      var h, y := Print(fs[0]), PrintAll(fs[1..]) + x;
      assert PrintAll(fs) + x == h + y;
      assert Fits(fs, 0);
      SoundTail(fs);
      SpacedTail(fs);
      hide Sound, Spaced, PrintAll;
      match fs[0] {
        case Word(s) =>
          AfterEnds(s, m);
          FragmentsUnderstood(fs[1..], x, After(s, m));
          CalmUnderstood(s, y, m);
        case Quoted(v) =>
          FragmentsUnderstood(fs[1..], x, Between);
          QuotedUnderstood(fs, x, y);
        case Body(tag, text) =>
          FragmentsUnderstood(fs[1..], x, Between);
          BodyUnderstood(tag, text, y);
      }
    }
  }

  lemma StopUnderstood(x: string, m: Mode)
    requires x != "" && x[0] == ';' && Understood(x[1..], Between)
    ensures Understood(x, m)
  {
    assert CutOf(x) == Stop;
    hide CutOf;
  }

  lemma QuotedUnderstood(fs: seq<Fragment>, x: string, y: string)
    requires fs != [] && Sound(fs) && fs[0].Quoted? && x != "" && x[0] == ';' && y == PrintAll(fs[1..]) + x
    requires Understood(y, Between)
    ensures Understood(Print(fs[0]) + y, Between)
  {
    var h := Print(fs[0]);
    NoQuoteNext(fs, x);
    LiteralScans(fs[0].v, y);
    assert (h + y)[|h|..] == y && h[0] == '\'';
    hide CutOf, Double, Sound, PrintAll;
  }

  lemma BodyUnderstood(tag: string, text: string, y: string)
    requires Sealed(tag, text) && Understood(y, Between)
    ensures Understood(tag + text + tag + y, Between)
  {
    var n := |tag| + |text| + |tag|;
    SealedCut(tag, text, y);
    SealedParts(tag, text, y);
    hide *;
    TaggedUnderstood(tag + text + tag + y, n);
  }

  lemma SealedParts(tag: string, text: string, y: string)
    requires Sealed(tag, text)
    ensures var t := tag + text + tag + y; TagLen(t) > 0 && t[|tag| + |text| + |tag|..] == y && |tag| > 1
  {
    TagBefore(tag, text + tag + y);
    SealedShape(tag, text, y);
    hide Find;
  }

  lemma SealedShape(a: string, b: string, y: string)
    ensures a + b + a + y == a + (b + a + y) && (a + b + a + y)[|a| + |b| + |a|..] == y
  {
    assert |a + b + a| == |a| + |b| + |a|;
  }

  lemma TaggedUnderstood(t: string, n: nat)
    requires 1 < n <= |t| && TagLen(t) > 0 && CutOf(t) == Code(n) && Understood(t[n..], Between)
    ensures Understood(t, Between)
  {
    TagIsServers(t);
    hide CutOf, ServerTag;
  }

  /** Every statement begins with wording. */
  predicate AllSpaced(ss: seq<seq<Fragment>>) {
    forall k | 0 <= k < |ss| :: Spaced(ss[k]) && ss[k] != [] && ss[k][0].Word?
  }

  lemma {:induction false} ScriptUnderstood(ss: seq<seq<Fragment>>, rest: string)
    requires AllProper(ss) && AllSpaced(ss) && Understood(rest, Between)
    ensures Understood(PrintScript(ss) + rest, Between)
  {
    hide Understood, Sound, Spaced, PrintAll, IsSpace;
    if ss == [] {
      assert PrintScript(ss) + rest == rest;
    } else {
      ScriptUnderstood(ss[1..], rest);
      StatementUnderstood(ss[0], PrintScript(ss[1..]) + rest);
      OneMore(PrintAll(ss[0]), PrintScript(ss[1..]), rest);
    }
  }

  lemma OneMore(s: string, more: string, rest: string)
    ensures s + ";\n" + more + rest == s + (";" + ("\n" + (more + rest)))
  {
    assert ";\n" == ";" + "\n";
  }

  lemma StatementUnderstood(fs: seq<Fragment>, y: string)
    requires Proper(fs) && Spaced(fs) && fs[0].Word? && Understood(y, Between)
    ensures Understood(PrintAll(fs) + (";" + ("\n" + y)), Between)
  {
    var x := ";" + ("\n" + y);
    assert x[1..] == "\n" + y && ("\n" + y)[1..] == y;
    hide Understood, Sound, Spaced, PrintAll, IsSpace;
    BreakUnderstood("\n" + y, Between);
    FragmentsUnderstood(fs, x, Between);
  }
}
