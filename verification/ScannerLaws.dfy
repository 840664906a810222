/** How the scanner's result depends on what surrounds a text. */
module ScannerLaws {
  import opened Text
  import opened Scanner

  function Shift(ss: seq<Stmt>, d: nat): (r: seq<Stmt>)
    ensures |r| == |ss|
  {
    seq(|ss|, i requires 0 <= i < |ss| => Stmt(ss[i].line + d, ss[i].text))
  }

  function ShiftOpt(r: Option<seq<Stmt>>, d: nat): Option<seq<Stmt>> {
    if r.None? then None else Some(Shift(r.value, d))
  }

  lemma {:induction false} LinesShift(t: string, buf: string, line: nat, d: nat)
    ensures Run(t, buf, line + d) == ShiftOpt(Run(t, buf, line), d)
    decreases |t|
  {
    hide CutOf;
    if t != "" {
      match CutOf(t) {
        case Broken =>
        case Gap(n) => LinesShift(t[n..], buf + Hide(t[..n]), line, d);
        case Code(n) => LinesShift(t[n..], buf + t[..n], line, d);
        case Stop =>
          LinesShift(t[1..], "", line + Newlines(buf), d);
          var rest := Run(t[1..], "", line + Newlines(buf));
          if rest.Some? {
            assert Shift(Emit(buf, line) + rest.value, d) == Shift(Emit(buf, line), d) + Shift(rest.value, d);
          }
          assert Emit(buf, line + d) == Shift(Emit(buf, line), d);
      }
    }
  }

  /** Whitespace in front of the buffer only moves the line. */
  lemma {:induction false} BlankBefore(t: string, w: string, buf: string, line: nat)
    requires Blank(w)
    ensures Run(t, w + buf, line) == Run(t, buf, line + Newlines(w))
    decreases |t|
  {
    hide CutOf, Blank, Newlines, Emit, Hide;
    BlankConcat(w, buf);
    if t != "" {
      match CutOf(t) {
        case Broken =>
        case Gap(n) =>
          assert w + buf + Hide(t[..n]) == w + (buf + Hide(t[..n]));
          BlankBefore(t[n..], w, buf + Hide(t[..n]), line);
        case Code(n) =>
          assert w + buf + t[..n] == w + (buf + t[..n]);
          BlankBefore(t[n..], w, buf + t[..n], line);
        case Stop =>
          NewlinesConcat(w, buf);
          BlankBeforeEmit(w, buf, line);
      }
    }
  }

  lemma BlankBeforeEmit(w: string, buf: string, line: nat)
    requires Blank(w)
    ensures Emit(w + buf, line) == Emit(buf, line + Newlines(w))
  {
    hide Blank, Lead, Strip, Newlines;
    BlankConcat(w, buf);
    if !Blank(buf) {
      StripAfterBlank(w, buf);
      var n := Lead(buf);
      assert (w + buf)[..|w| + n] == w + buf[..n];
      NewlinesConcat(w, buf[..n]);
    }
  }

  lemma StripAfterBlank(w: string, buf: string)
    requires Blank(w) && !Blank(buf)
    ensures Lead(w + buf) == |w| + Lead(buf) && Strip(w + buf) == Strip(buf)
  {
    var a, m, z := Significant(buf);
    hide *;
    BlankConcat(w, a);
    Reassociate(w, a, m, z);
    StripUnique(w + buf, w + a, m, z);
  }

  lemma Reassociate(w: string, a: string, m: string, z: string)
    ensures w + (a + m + z) == (w + a) + m + z
  {
    assert w + (a + m + z) == (w + a) + (m + z);
  }

  /** A text that is not blank is its significant part between two stretches of whitespace. */
  lemma Significant(buf: string) returns (a: string, m: string, z: string)
    requires !Blank(buf)
    ensures buf == a + m + z && Blank(a) && Blank(z) && m != "" && !IsSpace(m[0]) && !IsSpace(m[|m| - 1])
    ensures |a| == Lead(buf) && m == Strip(buf)
  {
    hide Blank, IsSpace;
    LeadStops(buf);
    var n := Lead(buf);
    var u := buf[n..];
    TrimSome(u);
    a, m, z := buf[..n], TrimRight(u), u[|TrimRight(u)|..];
    Glue(buf, n, m);
  }

  lemma LeadStops(buf: string)
    requires !Blank(buf)
    ensures Lead(buf) < |buf|
  {
    assert buf[..|buf|] == buf;
  }

  lemma Glue(buf: string, n: nat, m: string)
    requires n <= |buf| && m <= buf[n..]
    ensures buf == buf[..n] + m + buf[n..][|m|..]
  {
  }

  lemma TrimSome(u: string)
    requires u != "" && !IsSpace(u[0])
    ensures var m := TrimRight(u); m != "" && m[0] == u[0] && m <= u
  {
    assert u[0..][0] == u[0];
  }

  /** Whitespace alone yields no statement. */
  lemma {:induction false} BlankRun(w: string, buf: string, line: nat)
    requires Blank(w)
    ensures Run(w, buf, line) == if Blank(buf) then Some([]) else None
  {
    if w != "" {
      assert IsSpace(w[0]);
      assert CutOf(w) == Code(1);
      BlankRun(w[1..], buf + w[..1], line);
      BlankConcat(buf, w[..1]);
    }
  }

  // A cut that ends before trailing whitespace does not see what follows. ----------------------

  predicate IsCloser(c: char) {
    c == '*' || c == '/' || c == '\'' || c == '"' || c == '$'
  }

  /** A tail in which nothing opened before it can end. */
  predicate Inert(w: string) {
    (w == "" || IsSpace(w[0])) && forall i | 0 <= i < |w| :: !IsCloser(w[i])
  }

  lemma BlankIsInert(w: string)
    requires Blank(w)
    ensures Inert(w)
  {
    forall i | 0 <= i < |w|
      ensures !IsCloser(w[i])
    {
      assert IsSpace(w[i]);
    }
  }

  lemma {:induction false} BlockLocal(r: string, w: string, y: string, d: nat)
    requires Inert(w) && y != "" && IsSpace(y[0]) && d > 0 && BlockEnd(r + w, d).Some?
    ensures BlockEnd(r + w, d).value <= |r| && BlockEnd(r + y, d) == BlockEnd(r + w, d)
    decreases |r|
  {
    if r == "" {
      assert r + w == w;
      NeverCloses(w, d);
    } else {
      PairLocal(r, w);
      PairLocal(r, y);
      hide IsSpace, Inert;
      var k := if Two(r, '/', '*') || Two(r, '*', '/') then 2 else 1;
      assert (r + w)[k..] == r[k..] + w && (r + y)[k..] == r[k..] + y;
      if Two(r, '/', '*') {
        BlockLocal(r[2..], w, y, d + 1);
      } else if !Two(r, '*', '/') {
        BlockLocal(r[1..], w, y, d);
      } else if d > 1 {
        BlockLocal(r[2..], w, y, d - 1);
      }
    }
  }

  lemma {:induction false} NeverCloses(w: string, d: nat)
    requires d > 0 && forall i | 0 <= i < |w| :: !IsCloser(w[i])
    ensures BlockEnd(w, d).None?
  {
    if w != "" {
      NeverCloses(w[1..], d);
    }
  }

  lemma {:induction false} QuoteLocal(r: string, w: string, y: string, q: char)
    requires Inert(w) && y != "" && IsSpace(y[0]) && (q == '\'' || q == '"') && QuoteEnd(r + w, q).Some?
    ensures QuoteEnd(r + w, q).value <= |r| && QuoteEnd(r + y, q) == QuoteEnd(r + w, q)
    decreases |r|
  {
    if r == "" {
      assert r + w == w;
      NeverQuotes(w, q);
    } else {
      assert |r| == 1 && w != "" ==> IsSpace((r + w)[1]);
      assert |r| == 1 ==> IsSpace((r + y)[1]);
      var k := if |r| >= 2 && r[0] == q && r[1] == q then 2 else 1;
      assert (r + w)[k..] == r[k..] + w && (r + y)[k..] == r[k..] + y;
      if r[0] != q || k == 2 {
        QuoteLocal(r[k..], w, y, q);
      }
    }
  }

  lemma {:induction false} NeverQuotes(w: string, q: char)
    requires (q == '\'' || q == '"') && forall i | 0 <= i < |w| :: !IsCloser(w[i])
    ensures QuoteEnd(w, q).None?
  {
    if w != "" {
      NeverQuotes(w[1..], q);
    }
  }

  lemma {:induction false} WordLocal(r: string, x: string)
    requires x == "" || !IsWord(x[0])
    ensures WordLen(r + x) == WordLen(r)
  {
    if r == "" {
      assert r + x == x;
    } else {
      assert (r + x)[1..] == r[1..] + x;
      WordLocal(r[1..], x);
    }
  }

  lemma TagLocal(r: string, x: string)
    requires r != "" && (x == "" || IsSpace(x[0]))
    ensures TagLen(r + x) == TagLen(r)
  {
    assert (r + x)[1..] == r[1..] + x;
    WordLocal(r[1..], x);
  }

  lemma {:induction false} FindLocal(r: string, w: string, y: string, pat: string)
    requires Inert(w) && pat != "" && pat[|pat| - 1] == '$' && Find(r + w, pat).Some?
    ensures Find(r + w, pat).value + |pat| <= |r| && Find(r + y, pat) == Find(r + w, pat)
  {
    var k := Find(r + w, pat).value;
    EndsWithin(r, w, pat, k);
    forall j | 0 <= j <= k
      ensures (pat <= (r + y)[j..]) == (pat <= (r + w)[j..])
    {
      PrefixWithin(r, w, pat, j);
      PrefixWithin(r, y, pat, j);
    }
    FindIs(r + y, pat, k);
  }

  lemma PrefixWithin(r: string, x: string, pat: string, j: nat)
    requires j + |pat| <= |r|
    ensures (pat <= (r + x)[j..]) == (pat <= r[j..])
  {
    assert (r + x)[j..] == r[j..] + x;
  }

  lemma EndsWithin(r: string, w: string, pat: string, k: nat)
    requires Inert(w) && pat != "" && pat[|pat| - 1] == '$' && k + |pat| <= |r + w| && pat <= (r + w)[k..]
    ensures k + |pat| <= |r|
  {
    hide IsSpace, IsCloser;
    assert IsCloser('$') by { DollarCloses(); }
    assert pat[|pat| - 1] == (r + w)[k..][|pat| - 1] == (r + w)[k + |pat| - 1];
    assert forall i | |r| <= i < |r + w| :: (r + w)[i] == w[i - |r|] && !IsCloser((r + w)[i]);
  }

  lemma DollarCloses()
    ensures IsCloser('$')
  {
  }

  lemma InertHead(w: string)
    requires Inert(w)
    ensures w == "" || IsSpace(w[0])
  {
  }

  lemma CutLocal(r: string, w: string, y: string)
    requires r != "" && Inert(w) && y != "" && IsSpace(y[0])
    requires !Two(r, '-', '-') && CutOf(r + w) != Broken
    ensures CutOf(r + y) == CutOf(r + w)
    ensures var c := CutOf(r + w); c.Gap? || c.Code? ==> c.n <= |r|
  {
    hide CutOf, TagLen, IsSpace, Inert;
    InertHead(w);
    PairLocal(r, w);
    PairLocal(r, y);
    TagLocal(r, w);
    TagLocal(r, y);
    if Two(r, '/', '*') {
      BlockCut(r, w, y);
    } else if r[0] == '\'' || r[0] == '"' {
      QuoteCut(r, w, y);
    } else if TagLen(r) > 0 {
      BodyCut(r, w, y);
    } else {
      LoneCut(r, w);
      LoneCut(r, y);
    }
  }

  lemma BlockCut(r: string, w: string, y: string)
    requires Two(r, '/', '*') && Inert(w) && y != "" && IsSpace(y[0]) && CutOf(r + w) != Broken
    ensures CutOf(r + y) == CutOf(r + w) && CutOf(r + w).Gap? && CutOf(r + w).n <= |r|
  {
    hide TagLen, Find, QuoteEnd, IsSpace, Inert;
    assert (r + w)[2..] == r[2..] + w && (r + y)[2..] == r[2..] + y;
    BlockLocal(r[2..], w, y, 1);
  }

  lemma QuoteCut(r: string, w: string, y: string)
    requires r != "" && (r[0] == '\'' || r[0] == '"') && Inert(w) && y != "" && IsSpace(y[0]) && CutOf(r + w) != Broken
    ensures CutOf(r + y) == CutOf(r + w) && CutOf(r + w).Code? && CutOf(r + w).n <= |r|
  {
    hide TagLen, Find, BlockEnd, IsSpace, Inert;
    assert (r + w)[1..] == r[1..] + w && (r + y)[1..] == r[1..] + y;
    QuoteLocal(r[1..], w, y, r[0]);
  }

  lemma BodyCut(r: string, w: string, y: string)
    requires r != "" && TagLen(r) > 0 && TagLen(r + w) == TagLen(r + y) == TagLen(r) && Inert(w)
    requires CutOf(r + w) != Broken
    ensures CutOf(r + y) == CutOf(r + w) && CutOf(r + w).Code? && CutOf(r + w).n <= |r|
  {
    hide TagLen, Find, BlockEnd, QuoteEnd, IsSpace, Inert;
    var k := TagLen(r);
    assert (r + w)[k..] == r[k..] + w && (r + y)[k..] == r[k..] + y;
    assert (r + w)[..k] == r[..k] == (r + y)[..k];
    FindLocal(r[k..], w, y, r[..k]);
  }

  lemma LoneCut(r: string, x: string)
    requires r != "" && TagLen(r + x) == 0 && r[0] != '\'' && r[0] != '"'
    requires !Two(r + x, '-', '-') && !Two(r + x, '/', '*')
    ensures CutOf(r + x) == if r[0] == ';' then Stop else Code(1)
  {
    hide TagLen, Find, BlockEnd, QuoteEnd;
  }

  lemma PairLocal(r: string, x: string)
    requires r != "" && (x == "" || IsSpace(x[0]))
    ensures Two(r + x, '-', '-') == Two(r, '-', '-')
    ensures Two(r + x, '/', '*') == Two(r, '/', '*') && Two(r + x, '*', '/') == Two(r, '*', '/')
  {
  }

  /**
   A text that scans completely hands its statements over unchanged when its trailing whitespace
   is exchanged for anything that begins with a newline; the rest then runs with an empty buffer.
   */
  lemma {:induction false} Splice(r: string, w: string, y: string, buf: string, line: nat)
    requires Blank(w) && y != "" && y[0] == '\n' && Run(r + w, buf, line).Some?
    ensures Run(r + y, buf, line)
         == Join(Run(r + w, buf, line).value, Run(y, "", line + Newlines(buf) + Newlines(r)))
    decreases |r|, 2
  {
    if r == "" {
      assert r + w == w && r + y == y;
      BlankRun(w, buf, line);
      BlankBefore(y, buf, "", line);
      assert buf + "" == buf;
      JoinLaws([], [], Run(y, "", line + Newlines(buf)));
    } else if Two(r, '-', '-') {
      SpliceComment(r, w, y, buf, line);
    } else {
      BlankIsInert(w);
      CutLocal(r, w, y);
      SpliceCut(r, w, y, buf, line);
    }
  }

  lemma SpliceComment(r: string, w: string, y: string, buf: string, line: nat)
    requires Blank(w) && y != "" && y[0] == '\n' && Run(r + w, buf, line).Some? && Two(r, '-', '-')
    ensures Run(r + y, buf, line)
         == Join(Run(r + w, buf, line).value, Run(y, "", line + Newlines(buf) + Newlines(r)))
    decreases |r|, 1
  {
    hide CutOf, IsSpace, Blank, Newlines, SameLines;
    var n := LineEnd(r);
    CommentCut(r + w);
    CommentCut(r + y);
    LineEndLocal(r, y);
    if n < |r| {
      LineEndLocal(r, w);
      SpliceCut(r, w, y, buf, line);
    } else {
      SpliceLastComment(r, w, y, buf, line);
    }
  }

  /** A line comment that runs into the trailing whitespace: all of it is blank either way. */
  lemma SpliceLastComment(r: string, w: string, y: string, buf: string, line: nat)
    requires Blank(w) && y != "" && Run(r + w, buf, line).Some? && Two(r, '-', '-')
    requires LineEnd(r) == |r| && CutOf(r + y) == Gap(|r|)
    ensures Run(r + y, buf, line)
         == Join(Run(r + w, buf, line).value, Run(y, "", line + Newlines(buf) + Newlines(r)))
  {
    hide CutOf, IsSpace, Blank, Newlines, SameLines;
    var m := LineEnd(r + w);
    CommentCut(r + w);
    LineEndBeyond(r, w);
    var shown, tail := Hide((r + w)[..m]), w[m - |r|..];
    assert (r + w)[m..] == tail && w == w[..m - |r|] + tail;
    BlankConcat(w[..m - |r|], tail);
    BlankRun(tail, buf + shown, line);
    BlankConcat(buf, shown);
    LastCommentGone(r, y, buf, line);
    JoinLaws([], [], Run(y, "", line + Newlines(buf) + Newlines(r)));
  }

  lemma LastCommentGone(r: string, y: string, buf: string, line: nat)
    requires r != "" && LineEnd(r) == |r| && CutOf(r + y) == Gap(|r|) && Blank(buf)
    ensures Run(r + y, buf, line) == Run(y, "", line + Newlines(buf) + Newlines(r))
  {
    hide CutOf, IsSpace, Blank, Newlines, SameLines;
    assert (r + y)[..|r|] == r && (r + y)[|r|..] == y;
    BlankConcat(buf, Hide(r));
    BlankBefore(y, buf + Hide(r), "", line);
    assert buf + Hide(r) + "" == buf + Hide(r);
    NewlinesConcat(buf, Hide(r));
    SameLinesCount(Hide(r), r);
  }

  lemma CommentCut(t: string)
    requires Two(t, '-', '-')
    ensures CutOf(t) == Gap(LineEnd(t))
  {
  }

  lemma SpliceCut(r: string, w: string, y: string, buf: string, line: nat)
    requires r != "" && Blank(w) && y != "" && y[0] == '\n' && Run(r + w, buf, line).Some?
    requires CutOf(r + y) == CutOf(r + w) != Broken
    requires var c := CutOf(r + w); c.Gap? || c.Code? ==> c.n <= |r|
    ensures Run(r + y, buf, line)
         == Join(Run(r + w, buf, line).value, Run(y, "", line + Newlines(buf) + Newlines(r)))
    decreases |r|, 0
  {
    hide CutOf, Blank, Newlines, IsSpace, SameLines, Run, Emit;
    var c := CutOf(r + w);
    if c.Stop? {
      StopIsSemicolon(r + w);
      NoNewlines(r[..1]);
      assert r == r[..1] + r[1..];
      NewlinesConcat(r[..1], r[1..]);
      Cutting(r, w, buf, line);
      Cutting(r, y, buf, line);
      var l := line + Newlines(buf);
      Splice(r[1..], w, y, "", l);
      NoNewlines("");
      JoinLaws(Emit(buf, line), Run(r[1..] + w, "", l).value, Run(y, "", l + Newlines(r[1..])));
    } else {
      var n := c.n;
      var add := if c.Gap? then Hide(r[..n]) else r[..n];
      assert r == r[..n] + r[n..];
      NewlinesConcat(r[..n], r[n..]);
      NewlinesConcat(buf, add);
      ShownLines(add, r[..n]);
      Cutting(r, w, buf, line);
      Cutting(r, y, buf, line);
      Splice(r[n..], w, y, buf + add, line);
    }
  }

  lemma ShownLines(add: string, s: string)
    requires add == s || add == Hide(s)
    ensures Newlines(add) == Newlines(s)
  {
    SameLinesCount(add, s);
  }

  /** One step of Run when the first cut lies within r. */
  lemma Cutting(r: string, x: string, buf: string, line: nat)
    requires r != "" && CutOf(r + x) != Broken
    requires var c := CutOf(r + x); c.Gap? || c.Code? ==> c.n <= |r|
    ensures var c := CutOf(r + x);
      match c
      case Stop => Run(r + x, buf, line) == Join(Emit(buf, line), Run(r[1..] + x, "", line + Newlines(buf)))
      case Gap(n) => Run(r + x, buf, line) == Run(r[n..] + x, buf + Hide(r[..n]), line)
      case Code(n) => Run(r + x, buf, line) == Run(r[n..] + x, buf + r[..n], line)
  {
    hide CutOf, Newlines, Emit;
    var c := CutOf(r + x);
    var n := if c.Stop? then 1 else c.n;
    assert (r + x)[..n] == r[..n];
    assert (r + x)[n..] == r[n..] + x;
  }

  lemma StopIsSemicolon(t: string)
    requires t != "" && CutOf(t) == Stop
    ensures t[0] == ';'
  {
  }

  lemma {:induction false} LineEndLocal(r: string, x: string)
    requires x == "" || LineEnd(r) < |r| || x[0] == '\n'
    ensures LineEnd(r + x) == LineEnd(r)
  {
    if r == "" {
      assert r + x == x;
    } else if r[0] != '\n' {
      assert (r + x)[1..] == r[1..] + x;
      LineEndLocal(r[1..], x);
    }
  }

  lemma {:induction false} LineEndBeyond(r: string, x: string)
    requires LineEnd(r) == |r|
    ensures LineEnd(r + x) >= |r|
  {
    if r != "" {
      assert (r + x)[1..] == r[1..] + x;
      LineEndBeyond(r[1..], x);
    }
  }

  lemma {:induction false} NoNewlines(s: string)
    requires forall k | 0 <= k < |s| :: s[k] != '\n'
    ensures Newlines(s) == 0
  {
    if s != "" {
      NoNewlines(s[1..]);
    }
  }

  /** Scanning is a homomorphism on texts that scan completely and end with a newline. */
  lemma Homomorphism(a: string, b: string)
    requires StatementsOf(a).Some? && a != "" && a[|a| - 1] == '\n'
    ensures StatementsOf(a + b) == Join(StatementsOf(a).value, ShiftOpt(StatementsOf(b), Newlines(a)))
    ensures StatementsOf(a + b).Some? <==> StatementsOf(b).Some?
  {
    hide Run, Newlines, IsSpace;
    SpaceLine();
    JoinLaws([], [], None);
    var r, y := a[..|a| - 1], "\n" + b;
    assert a == r + "\n" && a + b == r + y;
    Splice(r, "\n", y, "", 0);
    NewlinesConcat(r, "\n");
    FreshLine(b, Newlines(r));
    assert r + "\n" == a;
    LinesShift(b, "", 0, Newlines(a));
    assert StatementsOf(a) == Run(a, "", 0) && StatementsOf(b) == Run(b, "", 0);
    assert StatementsOf(a + b) == Run(r + y, "", 0);
    NoNewlines("");
    assert 0 + Newlines("") + Newlines(r) + 1 == 0 + Newlines(a);
  }

  lemma SpaceLine()
    ensures IsSpace('\n') && Blank("\n")
  {
  }

  lemma FreshLine(b: string, line: nat)
    ensures Run("\n" + b, "", line) == Run(b, "", line + 1)
    ensures Newlines("\n") == 1
  {
    var t := "\n" + b;
    assert CutOf(t) == Code(1);
    assert t[..1] == "\n" && t[1..] == b;
    assert "" + "\n" == "\n" + "";
    BlankBefore(b, "\n", "", line);
    assert Newlines("\n") == 1 + Newlines("\n"[1..]);
  }

  /** Exchanging trailing whitespace for one newline changes nothing, so a trimmed source keeps its statements. */
  lemma TrimmedSource(c: string)
    requires StatementsOf(c).Some?
    ensures StatementsOf(TrimRight(c) + "\n") == StatementsOf(c)
  {
    hide Run, Newlines, IsSpace;
    SpaceLine();
    var r := TrimRight(c);
    var w := c[|r|..];
    assert c == r + w;
    Splice(r, w, "\n", "", 0);
    BlankRun("\n", "", 0 + Newlines("") + Newlines(r));
    assert Blank("");
    assert StatementsOf(c).value + [] == StatementsOf(c).value;
  }
}
