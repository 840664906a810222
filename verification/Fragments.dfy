/** Building blocks of generated SQL: plain wording, quoted literals and dollar bodies. */
module Fragments {
  import opened Text
  import opened Scanner
  import opened ScannerLaws

  /** Every quote written twice. */
  function Double(v: string): string {
    if v == "" then ""
    else if v[0] == '\'' then "''" + Double(v[1..])
    else [v[0]] + Double(v[1..])
  }

  function Literal(v: string): string {
    "'" + Double(v) + "'"
  }

  /** Reads a doubled text back, one quote for every pair. */
  function Undouble(s: string): string {
    if s == "" then ""
    else if Two(s, '\'', '\'') then "'" + Undouble(s[2..])
    else [s[0]] + Undouble(s[1..])
  }

  lemma {:induction false} UndoubleDouble(v: string)
    ensures Undouble(Double(v)) == v
  {
    if v != "" {
      UndoubleDouble(v[1..]);
      if v[0] == '\'' {
        assert Double(v)[2..] == Double(v[1..]);
      } else {
        assert Double(v)[0] == v[0] && Double(v)[1..] == Double(v[1..]);
      }
      assert v == [v[0]] + v[1..];
    }
  }

  lemma {:induction false} DoubledCloses(v: string, x: string)
    requires x == "" || x[0] != '\''
    ensures QuoteEnd(Double(v) + "'" + x, '\'') == Some(|Double(v)| + 1)
  {
    var t := Double(v) + "'" + x;
    if v == "" {
      assert t == "'" + x;
    } else {
      DoubledCloses(v[1..], x);
      var n := if v[0] == '\'' then 2 else 1;
      assert t[n..] == Double(v[1..]) + "'" + x;
    }
  }

  /** Scanning a printed literal consumes exactly it, whatever follows that is not a quote, and gives the value back. */
  lemma LiteralScans(v: string, x: string)
    requires x == "" || x[0] != '\''
    ensures CutOf(Literal(v) + x) == Code(|Literal(v)|)
    ensures Undouble(Literal(v)[1..|Literal(v)| - 1]) == v
  {
    DoubledCloses(v, x);
    UndoubleDouble(v);
    assert (Literal(v) + x)[1..] == Double(v) + "'" + x;
    assert Literal(v)[1..|Literal(v)| - 1] == Double(v);
  }

  /** And back: every single-quoted value the scanner takes is the printed literal of what it denotes. */
  lemma ScannedIsLiteral(t: string, n: nat)
    requires t != "" && t[0] == '\'' && CutOf(t) == Code(n)
    ensures 2 <= n <= |t| && t[..n] == Literal(Undouble(t[1..n - 1]))
  {
    QuotedIsDoubled(t[1..]);
    var k := QuoteEnd(t[1..], '\'').value;
    assert n == k + 1;
    assert t[1..][..k - 1] == t[1..n - 1];
    assert t[..n] == "'" + t[1..n - 1] + "'" by {
      assert t[n - 1] == t[1..][k - 1] == '\'';
    }
  }

  lemma {:induction false} QuotedIsDoubled(t: string)
    requires QuoteEnd(t, '\'').Some?
    ensures var k := QuoteEnd(t, '\'').value;
      1 <= k <= |t| && t[k - 1] == '\'' && Double(Undouble(t[..k - 1])) == t[..k - 1]
    decreases |t|
  {
    var k := QuoteEnd(t, '\'').value;
    if t[0] != '\'' || Two(t, '\'', '\'') {
      var n := if t[0] == '\'' then 2 else 1;
      QuotedIsDoubled(t[n..]);
      var s := t[..k - 1];
      assert s[n..] == t[n..][..k - 1 - n] && s == s[..n] + s[n..];
      assert n == 2 ==> s[..2] == "''";
    } else {
      assert t[..k - 1] == "";
    }
  }

  /** Doubling quotes neither adds nor removes an occurrence of a pattern without quotes. */
  lemma {:induction false} DoubleKeepsAbsence(v: string, pat: string, z: string)
    requires pat != "" && '\'' !in pat && z != "" && z[0] !in pat && !Contains(v, pat)
    ensures forall k | 0 <= k < |Double(v)| :: !(pat <= (Double(v) + z)[k..])
  {
    if v != "" {
      assert !(pat <= v[0..]) && v[0..] == v;
      forall k | 0 <= k <= |v[1..]|
        ensures !(pat <= v[1..][k..])
      {
        assert v[1..][k..] == v[k + 1..];
      }
      DoubleKeepsAbsence(v[1..], pat, z);
      var d, n := Double(v) + z, if v[0] == '\'' then 2 else 1;
      assert d[n..] == Double(v[1..]) + z;
      forall k | 0 <= k < |Double(v)|
        ensures !(pat <= d[k..])
      {
        if k >= n {
          assert d[k..] == d[n..][k - n..];
        } else if v[0] == '\'' {
          assert d[k] == '\'' && d[k..][0] == d[k];
        } else {
          DoubledHead(v, pat, z);
        }
      }
    }
  }

  /** A pattern without quotes at the head of a doubled text stands at the head of the text itself. */
  lemma {:induction false} DoubledHead(v: string, pat: string, z: string)
    requires '\'' !in pat && z != "" && z[0] !in pat && !(pat <= v)
    ensures !(pat <= Double(v) + z)
    decreases |v|
  {
    if v != "" && v[0] != '\'' && v[0] == pat[0] {
      var d := Double(v) + z;
      assert d[1..] == Double(v[1..]) + z;
      PrefixTail(pat, v);
      PrefixTail(pat, d);
      DoubledHead(v[1..], pat[1..], z);
    } else {
      assert pat[0] in pat;
    }
  }

  lemma PrefixTail(p: string, d: string)
    requires p != "" && d != "" && p[0] == d[0]
    ensures p <= d <==> p[1..] <= d[1..]
  {
    assert p == [p[0]] + p[1..] && d == [d[0]] + d[1..];
  }

  // Wording ----------------------------------------------------------------------------------------

  /** A character that never starts anything but itself. */
  predicate Plain(c: char) {
    c != ';' && c != '\'' && c != '"' && c != '$' && c != '-' && c != '/'
  }

  predicate Calm(s: string) {
    forall i | 0 <= i < |s| :: Plain(s[i])
  }

  datatype Fragment = Word(s: string) | Quoted(v: string) | Body(tag: string, text: string)

  function Print(f: Fragment): string {
    match f
    case Word(s) => s
    case Quoted(v) => Literal(v)
    case Body(tag, text) => tag + text + tag
  }

  function PrintAll(fs: seq<Fragment>): string {
    if fs == [] then "" else Print(fs[0]) + PrintAll(fs[1..])
  }

  /** A dollar tag whose first return in `text + tag` is the closing one. */
  predicate Sealed(tag: string, text: string) {
    tag != "" && TagLen(tag) == |tag| && Find(text + tag, tag) == Some(|text|)
  }

  /** The fragment at index i keeps to itself: wording is calm, no literal meets a quote, bodies lack their tag. */
  predicate Fits(fs: seq<Fragment>, i: nat)
    requires i < |fs|
  {
    match fs[i]
    case Word(s) => Calm(s)
    case Quoted(v) => i + 1 == |fs| || (fs[i + 1].Word? && fs[i + 1].s != "")
    case Body(tag, text) => Sealed(tag, text)
  }

  predicate Sound(fs: seq<Fragment>) {
    forall i | 0 <= i < |fs| :: Fits(fs, i)
  }

  lemma {:induction false} CalmRun(s: string, x: string, buf: string, line: nat)
    requires Calm(s)
    ensures Run(s + x, buf, line) == Run(x, buf + s, line)
  {
    if s == "" {
      assert s + x == x && buf + s == buf;
    } else {
      assert Plain(s[0]);
      PlainCut(s + x);
      assert (s + x)[..1] == s[..1] && (s + x)[1..] == s[1..] + x;
      assert buf + s[..1] + s[1..] == buf + s;
      hide CutOf;
      CalmRun(s[1..], x, buf + s[..1], line);
    }
  }

  lemma PlainCut(t: string)
    requires t != "" && Plain(t[0])
    ensures CutOf(t) == Code(1)
  {
  }

  lemma SealedCut(tag: string, text: string, x: string)
    requires Sealed(tag, text)
    ensures CutOf(tag + text + tag + x) == Code(|tag| + |text| + |tag|)
  {
    hide TagLen, Find;
    var t := tag + text + tag + x;
    var y := text + tag + x;
    assert t == tag + y;
    TagBefore(tag, y);
    assert t[|tag|..] == y && t[..|tag|] == tag;
    FindExtended(text + tag, x, tag);
    TagCut(t, |tag|, |text|);
  }

  lemma TagCut(t: string, k: nat, p: nat)
    requires t != "" && TagLen(t) == k > 0 && Find(t[k..], t[..k]) == Some(p)
    ensures CutOf(t) == Code(k + p + k)
  {
    hide TagLen, Find;
  }

  lemma TagBefore(tag: string, y: string)
    requires tag != "" && TagLen(tag) == |tag|
    ensures TagLen(tag + y) == |tag|
  {
    var t := tag + y;
    if tag[1] != '$' {
      var k := 1 + WordLen(tag[1..]);
      WordStops(tag[1..], y);
      assert t[1..] == tag[1..] + y;
    }
  }

  lemma {:induction false} WordStops(s: string, y: string)
    requires WordLen(s) < |s|
    ensures WordLen(s + y) == WordLen(s)
  {
    if IsWord(s[0]) {
      assert (s + y)[1..] == s[1..] + y;
      WordStops(s[1..], y);
    }
  }

  lemma FindExtended(a: string, x: string, pat: string)
    requires pat != "" && Find(a, pat).Some?
    ensures Find(a + x, pat) == Find(a, pat)
  {
    var k := Find(a, pat).value;
    forall j | 0 <= j <= k
      ensures (pat <= (a + x)[j..]) == (pat <= a[j..])
    {
      PrefixWithin(a, x, pat, j);
    }
    FindIs(a + x, pat, k);
  }

  /** Sound fragments pass into the buffer exactly as printed, up to a calm character that follows. */
  lemma {:induction false} FragmentsRun(fs: seq<Fragment>, x: string, buf: string, line: nat)
    requires Sound(fs) && (x == "" || x[0] != '\'')
    ensures Run(PrintAll(fs) + x, buf, line) == Run(x, buf + PrintAll(fs), line)
  {
    hide CutOf, TagLen, Find, Calm, Sealed;
    if fs == [] {
      assert PrintAll(fs) + x == x && buf + PrintAll(fs) == buf;
    } else {
      var h, y := Print(fs[0]), PrintAll(fs[1..]) + x;
      assert PrintAll(fs) + x == h + y;
      assert buf + h + PrintAll(fs[1..]) == buf + PrintAll(fs);
      assert Fits(fs, 0);
      match fs[0] {
        case Word(s) =>
          CalmRun(s, y, buf, line);
        case Quoted(v) =>
          NoQuoteNext(fs, x);
          LiteralScans(v, y);
          OneCut(h, y, buf, line);
        case Body(tag, text) =>
          SealedCut(tag, text, y);
          OneCut(h, y, buf, line);
      }
      SoundTail(fs);
      FragmentsRun(fs[1..], x, buf + h, line);
    }
  }

  lemma SoundTail(fs: seq<Fragment>)
    requires fs != [] && Sound(fs)
    ensures Sound(fs[1..])
  {
    hide Calm, Sealed;
    forall i | 0 <= i < |fs[1..]|
      ensures Fits(fs[1..], i)
    {
      assert Fits(fs, i + 1);
    }
  }

  lemma OneCut(h: string, y: string, buf: string, line: nat)
    requires h != "" && CutOf(h + y) == Code(|h|)
    ensures Run(h + y, buf, line) == Run(y, buf + h, line)
  {
    hide CutOf;
    assert (h + y)[..|h|] == h && (h + y)[|h|..] == y;
  }

  lemma NoQuoteNext(fs: seq<Fragment>, x: string)
    requires fs != [] && Sound(fs) && fs[0].Quoted? && (x == "" || x[0] != '\'')
    ensures var y := PrintAll(fs[1..]) + x; y == "" || y[0] != '\''
  {
    assert Fits(fs, 0);
    if fs[1..] != [] {
      assert Fits(fs, 1);
      assert fs[1..][0] == fs[1];
      assert Plain(fs[1].s[0]);
      assert PrintAll(fs[1..])[0] == fs[1].s[0];
    } else {
      assert PrintAll(fs[1..]) + x == x;
    }
  }

  /** Sound fragments followed by a semicolon are one statement, with their own text. */
  lemma OneStatement(fs: seq<Fragment>, rest: string, line: nat)
    requires Sound(fs) && PrintAll(fs) != ""
    requires !IsSpace(PrintAll(fs)[0]) && !IsSpace(PrintAll(fs)[|PrintAll(fs)| - 1])
    ensures Run(PrintAll(fs) + ";" + rest, "", line)
         == Join([Stmt(line + 1, PrintAll(fs) + ";")], Run(rest, "", line + Newlines(PrintAll(fs))))
  {
    hide Run, Emit, PrintAll, Sound, IsSpace, Newlines;
    var s := PrintAll(fs);
    var x := ";" + rest;
    assert s + ";" + rest == s + x;
    FragmentsRun(fs, x, "", line);
    assert "" + s == s;
    StopHere(rest, s, line);
    WholeText(s, line);
  }

  lemma StopHere(rest: string, s: string, line: nat)
    ensures Run(";" + rest, s, line) == Join(Emit(s, line), Run(rest, "", line + Newlines(s)))
  {
    var x := ";" + rest;
    assert CutOf(x) == Stop;
    assert x[1..] == rest;
    hide CutOf, Emit;
  }

  lemma WholeText(s: string, line: nat)
    requires s != "" && !IsSpace(s[0]) && !IsSpace(s[|s| - 1])
    ensures Emit(s, line) == [Stmt(line + 1, s + ";")]
  {
    hide IsSpace;
    assert "" + s + "" == s;
    StripUnique(s, "", s, "");
    NoNewlines(s[..0]);
  }
}
