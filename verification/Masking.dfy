/** The text with its comments blanked in place, which is what the scanner's buffer shows. */
module Masking {
  import opened Text
  import opened Scanner
  import opened ScannerLaws

  /** t with every comment hidden; everything else, offsets and newlines included, stays put. */
  function Mask(t: string): (m: string)
    ensures |m| == |t|
    decreases |t|
  {
    if t == "" then "" else match CutOf(t)
      case Broken => t
      case Stop => t[..1] + Mask(t[1..])
      case Gap(n) => Hide(t[..n]) + Mask(t[n..])
      case Code(n) => t[..n] + Mask(t[n..])
  }

  lemma {:induction false} MaskKeepsLines(t: string)
    ensures SameLines(Mask(t), t)
    decreases |t|
  {
    hide CutOf;
    if t != "" && CutOf(t) != Broken {
      var c := CutOf(t);
      var n := if c.Stop? then 1 else c.n;
      MaskKeepsLines(t[n..]);
      assert t == t[..n] + t[n..];
      SameLinesConcat(Mask(t)[..n], t[..n], Mask(t[n..]), t[n..]);
    }
  }

  // Blanking a comment does not disturb what stands before it. ------------------------------------

  /** Equal up to some place d where a comment begins in s and a space stands in m. */
  predicate Alike(s: string, m: string, d: nat) {
    && d <= |s| == |m| && s[..d] == m[..d]
    && (d < |s| ==> (s[d] == '-' || s[d] == '/') && m[d] == ' ')
  }

  lemma {:induction false} MaskAlike(t: string) returns (d: nat)
    ensures Alike(t, Mask(t), d)
    decreases |t|
  {
    if t == "" {
      return 0;
    }
    match CutOf(t) {
      case Broken =>
        d := |t|;
      case Gap(n) =>
        d := 0;
        assert t[..0] == Mask(t)[..0];
        assert Mask(t)[0] == Hide(t[..n])[0];
      case Code(n) =>
        d := MaskAlike(t[n..]);
        d := AlikeBehind(t, Mask(t), n, d);
      case Stop =>
        d := MaskAlike(t[1..]);
        d := AlikeBehind(t, Mask(t), 1, d);
    }
  }

  lemma AlikeBehind(t: string, m: string, n: nat, e: nat) returns (d: nat)
    requires n <= |t| == |m| && t[..n] == m[..n] && Alike(t[n..], m[n..], e)
    ensures Alike(t, m, d) && d == n + e
  {
    d := n + e;
    assert t[..d] == t[..n] + t[n..][..e] && m[..d] == m[..n] + m[n..][..e];
  }

  lemma {:induction false} WordAlike(s: string, m: string, d: nat)
    requires Alike(s, m, d)
    ensures WordLen(s) == WordLen(m) <= d
  {
    if s != "" && d > 0 {
      assert s[0] == s[..d][0] == m[..d][0] == m[0];
      assert s[1..][..d - 1] == s[..d][1..] == m[..d][1..] == m[1..][..d - 1];
      WordAlike(s[1..], m[1..], d - 1);
    }
  }

  lemma TagAlike(s: string, m: string, d: nat)
    requires Alike(s, m, d) && d > 0
    ensures TagLen(s) == TagLen(m)
  {
    assert s[0] == s[..d][0] == m[..d][0] == m[0];
    assert s[1..][..d - 1] == s[..d][1..] == m[..d][1..] == m[1..][..d - 1];
    assert Alike(s[1..], m[1..], d - 1);
    WordAlike(s[1..], m[1..], d - 1);
    assert forall k | 0 <= k < d :: s[k] == s[..d][k] == m[..d][k] == m[k];
  }

  lemma {:induction false} QuoteBefore(a: string, r: string, m: string, q: char)
    requires QuoteEnd(a + r, q) == Some(|a|) && (m != "" ==> m[0] != q)
    ensures QuoteEnd(a + m, q) == Some(|a|)
    decreases |a|
  {
    if a != "" {
      var k := if Two(a + r, q, q) then 2 else 1;
      if |a| == 1 && k == 2 {
        assert (a + r)[2..] == r[1..];
      } else if a[0] != q || k == 2 {
        var n := if a[0] != q then 1 else 2;
        assert (a + r)[n..] == a[n..] + r && (a + m)[n..] == a[n..] + m;
        QuoteBefore(a[n..], r, m, q);
      }
    }
  }

  lemma {:induction false} FindBefore(a: string, r: string, m: string, pat: string)
    requires pat != "" && Find(a + r, pat) == Some(|a| - |pat|)
    ensures Find(a + m, pat) == Some(|a| - |pat|)
  {
    var k := |a| - |pat|;
    forall j | 0 <= j <= k
      ensures (pat <= (a + m)[j..]) == (pat <= (a + r)[j..])
    {
      PrefixWithin(a, r, pat, j);
      PrefixWithin(a, m, pat, j);
    }
    FindIs(a + m, pat, k);
  }

  /** A cut that keeps its characters is the same in the masked text. */
  lemma CutMasked(t: string, n: nat)
    requires t != "" && n <= |t| && (CutOf(t) == Code(n) || (CutOf(t) == Stop && n == 1))
    ensures Mask(t) == t[..n] + Mask(t[n..]) && CutOf(Mask(t)) == CutOf(t)
  {
    var h, r := t[..n], t[n..];
    var m := Mask(r);
    var u := Mask(t);
    assert t == h + r && u == h + m;
    var d := MaskAlike(t);
    var e := MaskAlike(r);
    assert e > 0 && r != "" ==> m[0] == m[..e][0] == r[..e][0] == r[0];
    assert r != "" && e == 0 ==> m[0] == ' ';
    assert d > 0 by { assert t[0] == h[0] == u[0]; }
    TagAlike(t, u, d);
    CutMaskedCase(t, u, h, r, m);
  }

  lemma CutMaskedCase(t: string, u: string, h: string, r: string, m: string)
    requires h != "" && t == h + r && u == h + m && TagLen(t) == TagLen(u) && |r| == |m|
    requires CutOf(t) == Code(|h|) || (CutOf(t) == Stop && |h| == 1)
    requires r != "" ==> m[0] == r[0] || m[0] == ' '
    ensures CutOf(u) == CutOf(t)
  {
    hide CutOf, TagLen;
    TwoMasked(t, u, h, r, m);
    if t[0] == '\'' || t[0] == '"' {
      QuoteMasked(t, u, h, r, m);
    } else if TagLen(t) > 0 {
      BodyMasked(t, u, h, r, m);
    } else {
      PlainMasked(t, u, |h|);
    }
  }

  lemma PlainMasked(t: string, u: string, n: nat)
    requires t != "" && u != "" && t[0] == u[0] && t[0] != '\'' && t[0] != '"' && TagLen(t) == TagLen(u) == 0
    requires CutOf(t) == Code(n) || CutOf(t) == Stop
    requires (Two(u, '-', '-') ==> Two(t, '-', '-')) && (Two(u, '/', '*') ==> Two(t, '/', '*'))
    ensures CutOf(u) == CutOf(t)
  {
    hide TagLen, Find, QuoteEnd, BlockEnd, Plus;
  }

  lemma QuoteMasked(t: string, u: string, h: string, r: string, m: string)
    requires h != "" && t == h + r && u == h + m && |r| == |m| && (h[0] == '\'' || h[0] == '"')
    requires CutOf(t) == Code(|h|) || (CutOf(t) == Stop && |h| == 1)
    requires r != "" ==> m[0] == r[0] || m[0] == ' '
    ensures CutOf(u) == CutOf(t)
  {
    hide TagLen, Find, QuoteEnd, BlockEnd, Plus;
    assert t[1..] == h[1..] + r && u[1..] == h[1..] + m;
    QuoteCloses(h[1..], r, h[0]);
    QuoteBefore(h[1..], r, m, h[0]);
  }

  lemma BodyMasked(t: string, u: string, h: string, r: string, m: string)
    requires h != "" && t == h + r && u == h + m && TagLen(t) == TagLen(u) > 0 && h[0] == '$'
    requires CutOf(t) == Code(|h|) || (CutOf(t) == Stop && |h| == 1)
    ensures CutOf(u) == CutOf(t)
  {
    hide TagLen, QuoteEnd, BlockEnd, Plus, Find;
    var k := TagLen(t);
    assert t[k..] == h[k..] + r && u[k..] == h[k..] + m && t[..k] == h[..k] == u[..k];
    FindBefore(h[k..], r, m, h[..k]);
  }

  lemma TwoMasked(t: string, u: string, h: string, r: string, m: string)
    requires h != "" && t == h + r && u == h + m && |r| == |m|
    requires r != "" ==> m[0] == r[0] || m[0] == ' '
    ensures t[0] == u[0] == h[0]
    ensures Two(u, '-', '-') ==> Two(t, '-', '-')
    ensures Two(u, '/', '*') ==> Two(t, '/', '*')
  {
    if |h| > 1 {
      assert t[1] == u[1] == h[1];
    } else if r != "" {
      assert t[1] == r[0] && u[1] == m[0];
    }
  }

  /** What follows a closed quoted value is not the same quote. */
  lemma {:induction false} QuoteCloses(a: string, r: string, q: char)
    requires QuoteEnd(a + r, q) == Some(|a|)
    ensures r != "" ==> r[0] != q
    decreases |a|
  {
    if a != "" && r != "" {
      if |a| == 1 {
        assert (a + r)[1..] == r;
        assert |a + r| >= 2 && (a + r)[1] == r[0];
      } else if (a + r)[0] != q {
        assert (a + r)[1..] == a[1..] + r;
        QuoteCloses(a[1..], r, q);
      } else if a[1] == q {
        assert (a + r)[2..] == a[2..] + r;
        QuoteCloses(a[2..], r, q);
      }
    }
  }

  lemma {:induction false} BlankThrough(w: string, x: string, buf: string, line: nat)
    requires Blank(w)
    ensures Run(w + x, buf, line) == Run(x, buf + w, line)
  {
    if w == "" {
      assert w + x == x && buf + w == buf;
    } else {
      assert IsSpace(w[0]);
      SpaceCut(w + x);
      assert (w + x)[..1] == w[..1] && (w + x)[1..] == w[1..] + x;
      assert buf + w[..1] + w[1..] == buf + w;
      hide CutOf;
      BlankThrough(w[1..], x, buf + w[..1], line);
    }
  }

  lemma SpaceCut(t: string)
    requires t != "" && IsSpace(t[0])
    ensures CutOf(t) == Code(1)
  {
  }

  /** Scanning the masked text again gives the same statements on the same lines. */
  lemma {:induction false} MaskedRun(t: string, buf: string, line: nat)
    requires Run(t, buf, line).Some?
    ensures Run(Mask(t), buf, line) == Run(t, buf, line)
    decreases |t|
  {
    hide CutOf;
    if t != "" {
      match CutOf(t) {
        case Gap(n) =>
          BlankThrough(Hide(t[..n]), Mask(t[n..]), buf, line);
          MaskedRun(t[n..], buf + Hide(t[..n]), line);
        case Code(n) =>
          CutMasked(t, n);
          assert Mask(t)[..n] == t[..n] && Mask(t)[n..] == Mask(t[n..]);
          MaskedRun(t[n..], buf + t[..n], line);
        case Stop =>
          CutMasked(t, 1);
          assert Mask(t)[1..] == Mask(t[1..]);
          MaskedRun(t[1..], "", line + Newlines(buf));
      }
    }
  }

  lemma CommentsAreInert(text: string)
    requires StatementsOf(text).Some?
    ensures StatementsOf(Mask(text)) == StatementsOf(text)
    ensures SameLines(Mask(text), text)
  {
    MaskedRun(text, "", 0);
    MaskKeepsLines(text);
  }

  // The statements are slices of the masked text. ------------------------------------------------

  predicate Filler(s: string) {
    forall i | 0 <= i < |s| :: IsSpace(s[i]) || s[i] == ';'
  }

  /** From lo on, the masked text m is exactly the given slices in order, each closed by a semicolon
      and reported on the line of its first character, with only whitespace and semicolons between. */
  predicate Tiles(text: string, m: string, lo: nat, ss: seq<Stmt>, ps: seq<(nat, nat)>)
    requires |m| == |text|
    decreases |ps|
  {
    if ps == [] then ss == [] && lo <= |m| && Filler(m[lo..])
    else
      var (p, q) := ps[0];
      && ss != [] && lo <= p < q < |m| && Filler(m[lo..p])
      && !IsSpace(m[p]) && !IsSpace(m[q - 1])
      && ss[0] == Stmt(Newlines(text[..p]) + 1, m[p..q] + ";")
      && q + Lead(m[q..]) < |m| && m[q + Lead(m[q..])] == ';'
      && Tiles(text, m, q, ss[1..], ps[1..])
  }

  lemma TilesBack(text: string, m: string, lo: nat, hi: nat, ss: seq<Stmt>, ps: seq<(nat, nat)>)
    requires |m| == |text| && lo <= hi && Tiles(text, m, hi, ss, ps) && hi <= |m| && Filler(m[lo..hi])
    ensures Tiles(text, m, lo, ss, ps)
  {
    var to := if ps == [] then |m| else ps[0].0;
    assert m[lo..to] == m[lo..hi] + m[hi..to];
    assert m[lo..] == m[lo..|m|] && m[hi..] == m[hi..|m|];
  }

  /** The statements of a text that scans completely, with their exact places. */
  lemma Located(text: string) returns (ps: seq<(nat, nat)>)
    requires StatementsOf(text).Some?
    ensures Tiles(text, Mask(text), 0, StatementsOf(text).value, ps)
  {
    MaskKeepsLines(text);
    assert text[0..] == text && Mask(text)[0..] == Mask(text);
    ps := LocatedFrom(text, Mask(text), 0, 0);
  }

  lemma {:induction false} LocatedFrom(text: string, m: string, start: nat, i: nat) returns (ps: seq<(nat, nat)>)
    requires |m| == |text| && SameLines(m, text) && start <= i <= |text| && Mask(text[i..]) == m[i..]
    requires Run(text[i..], m[start..i], Newlines(text[..start])).Some?
    ensures Tiles(text, m, start, Run(text[i..], m[start..i], Newlines(text[..start])).value, ps)
    decreases |text| - i
  {
    hide CutOf, Blank, Newlines, IsSpace, SameLines, Tiles, Emit;
    var t, buf, line := text[i..], m[start..i], Newlines(text[..start]);
    if t == "" {
      ps := [];
      NoneLeft(text, m, start, buf);
    } else {
      var c := CutOf(t);
      var n := if c.Stop? then 1 else c.n;
      Onward(text, m, start, i, n);
      if c.Stop? {
        StopIsSemicolon(t);
        PrefixLines(text, m, start, i);
        assert m[i + 1..i + 1] == "";
        ps := LocatedFrom(text, m, i + 1, i + 1);
        ps := Placed(text, m, start, i, Run(t[1..], "", line + Newlines(buf)).value, ps);
      } else {
        ps := LocatedFrom(text, m, start, i + n);
      }
    }
  }

  lemma NoneLeft(text: string, m: string, start: nat, buf: string)
    requires |m| == |text| && start <= |m| && buf == m[start..] && Blank(buf)
    ensures Tiles(text, m, start, [], [])
  {
  }

  lemma Onward(text: string, m: string, start: nat, i: nat, n: nat)
    requires start <= i < |text| == |m| && Mask(text[i..]) == m[i..] && CutOf(text[i..]) != Broken
    requires n == if CutOf(text[i..]).Stop? then 1 else CutOf(text[i..]).n
    ensures i + n <= |m| && text[i..][n..] == text[i + n..] && Mask(text[i + n..]) == m[i + n..]
    ensures CutOf(text[i..]).Stop? ==> m[i] == text[i]
    ensures CutOf(text[i..]).Gap? ==> m[start..i] + Hide(text[i..][..n]) == m[start..i + n]
    ensures CutOf(text[i..]).Code? ==> m[start..i] + text[i..][..n] == m[start..i + n]
  {
    hide CutOf;
    var t := text[i..];
    var shown := if CutOf(t).Gap? then Hide(t[..n]) else t[..n];
    assert t[n..] == text[i + n..];
    assert m[i..] == shown + Mask(t[n..]);
    assert m[i..][..n] == shown && m[i..][n..] == Mask(t[n..]);
    assert m[i] == m[i..][0] && t[0] == text[i];
    Bisect(m, start, i, n);
  }

  lemma Bisect(m: string, start: nat, i: nat, n: nat)
    requires start <= i && i + n <= |m|
    ensures m[start..i] + m[i..][..n] == m[start..i + n] && m[i..][n..] == m[i + n..]
  {
  }

  lemma BlankIsFiller(s: string)
    requires Blank(s)
    ensures Filler(s) && Filler(s + ";")
  {
  }

  lemma PrefixLines(text: string, m: string, start: nat, i: nat)
    requires |m| == |text| && SameLines(m, text) && start <= i < |text| && text[i] == ';'
    ensures Newlines(text[..start]) + Newlines(m[start..i]) == Newlines(text[..i + 1])
  {
    assert SameLines(m[start..i], text[start..i]);
    EmitHere(text, start, i, m[start..i]);
  }

  /** The statement closed at index i takes its place in front of the later ones. */
  lemma Placed(text: string, m: string, start: nat, i: nat, rest: seq<Stmt>, ps: seq<(nat, nat)>)
      returns (r: seq<(nat, nat)>)
    requires |m| == |text| && SameLines(m, text) && start <= i < |text| && text[i] == m[i] == ';'
    requires Tiles(text, m, i + 1, rest, ps)
    ensures Tiles(text, m, start, Emit(m[start..i], Newlines(text[..start])) + rest, r)
  {
    hide SameLines, Blank, IsSpace, Newlines, Filler, Lead, Strip, Tiles;
    var buf := m[start..i];
    if Blank(buf) {
      BlankIsFiller(buf);
      assert m[start..i + 1] == buf + ";";
      r := ps;
      TilesBack(text, m, start, i + 1, rest, ps);
      assert [] + rest == rest;
    } else {
      PlacedLine(text, m, start, i);
      var p, q := Slice(m, start, i);
      TilesBack(text, m, q, i + 1, rest, ps);
      r := [(p, q)] + ps;
      TilesCons(text, m, start, p, q, Emit(buf, Newlines(text[..start]))[0], rest, ps);
    }
  }

  /** Where the significant part of m[start..i] stands. */
  lemma Slice(m: string, start: nat, i: nat) returns (p: nat, q: nat)
    requires start <= i < |m| && m[i] == ';' && !Blank(m[start..i])
    ensures start <= p < q <= i && Filler(m[start..p]) && !IsSpace(m[p]) && !IsSpace(m[q - 1])
    ensures p == start + Lead(m[start..i]) && m[p..q] == Strip(m[start..i])
    ensures Filler(m[q..i + 1]) && q + Lead(m[q..]) == i
  {
    hide *;
    var a, s, z := Middle(m[start..i]);
    p := start + |a|;
    q := p + |s|;
    SliceFrom(m, start, i, a, s, z);
  }

  predicate Framed(buf: string, a: string, s: string, z: string) {
    buf == a + s + z && Blank(a) && Blank(z) && s != "" && !IsSpace(s[0]) && !IsSpace(s[|s| - 1])
  }

  lemma Middle(buf: string) returns (a: string, s: string, z: string)
    requires !Blank(buf)
    ensures Framed(buf, a, s, z) && |a| == Lead(buf) && s == Strip(buf)
  {
    a, s, z := Significant(buf);
    hide Blank, IsSpace, Lead, Strip;
  }

  lemma SliceFrom(m: string, start: nat, i: nat, a: string, s: string, z: string)
    requires start <= i < |m| && m[i] == ';' && Framed(m[start..i], a, s, z)
    ensures var p := start + |a|; var q := p + |s|;
      && p < q <= i && Filler(m[start..p]) && !IsSpace(m[p]) && !IsSpace(m[q - 1]) && m[p..q] == s
      && Filler(m[q..i + 1]) && q + Lead(m[q..]) == i
  {
    hide Blank, IsSpace, Lead, Filler;
    Thirds(m, start, i, a, s, z);
    SliceEnds(m, start, start + |a|, start + |a| + |s|, i);
  }

  lemma SliceEnds(m: string, start: nat, p: nat, q: nat, i: nat)
    requires start <= p < q <= i < |m| && m[i] == ';' && Blank(m[start..p]) && Blank(m[q..i])
    requires !IsSpace(m[p..q][0]) && !IsSpace(m[p..q][q - p - 1])
    ensures Filler(m[start..p]) && !IsSpace(m[p]) && !IsSpace(m[q - 1])
    ensures Filler(m[q..i + 1]) && q + Lead(m[q..]) == i
  {
    hide IsSpace, Lead, Blank, Filler;
    BlankIsFiller(m[start..p]);
    BlankIsFiller(m[q..i]);
    assert m[q..i + 1] == m[q..i] + ";";
    assert m[q..] == m[q..i] + m[i..];
    LeadIs(m[q..i], m[i..]);
  }

  lemma Thirds(m: string, start: nat, i: nat, a: string, s: string, z: string)
    requires start <= i <= |m| && m[start..i] == a + s + z
    ensures var p := start + |a|; var q := p + |s|;
      q <= i && m[start..p] == a && m[p..q] == s && m[q..i] == z
  {
    assert |m[start..i]| == |a| + |s| + |z|;
    var p := start + |a|;
    var q := p + |s|;
    assert forall k | start <= k < i :: m[k] == (a + s + z)[k - start];
    assert m[start..p] == a;
    assert m[p..q] == s;
    assert m[q..i] == z;
  }

  lemma LeadIs(z: string, x: string)
    requires Blank(z) && x != "" && x[0] == ';'
    ensures Lead(z + x) == |z|
  {
    var n := Lead(z + x);
    assert forall k | 0 <= k < |z| :: (z + x)[k] == z[k] && IsSpace((z + x)[k]);
    assert (z + x)[|z|] == ';';
    assert forall k | 0 <= k < n :: (z + x)[k] == (z + x)[..n][k] && IsSpace((z + x)[k]);
  }

  lemma PlacedLine(text: string, m: string, start: nat, i: nat)
    requires |m| == |text| && SameLines(m, text) && start <= i < |text| && text[i] == ';'
    ensures var n := Lead(m[start..i]);
      Newlines(text[..start + n]) == Newlines(text[..start]) + Newlines(m[start..i][..n])
  {
    assert SameLines(m[start..i], text[start..i]);
    EmitHere(text, start, i, m[start..i]);
  }

  lemma TilesCons(text: string, m: string, lo: nat, p: nat, q: nat, s: Stmt, rest: seq<Stmt>, ps: seq<(nat, nat)>)
    requires |m| == |text| && lo <= p < q < |m| && Filler(m[lo..p]) && !IsSpace(m[p]) && !IsSpace(m[q - 1])
    requires s == Stmt(Newlines(text[..p]) + 1, m[p..q] + ";")
    requires q + Lead(m[q..]) < |m| && m[q + Lead(m[q..])] == ';'
    requires Tiles(text, m, q, rest, ps)
    ensures Tiles(text, m, lo, [s] + rest, [(p, q)] + ps)
  {
    assert ([s] + rest)[1..] == rest;
    assert ([(p, q)] + ps)[1..] == ps;
  }
}
