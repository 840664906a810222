/**
 The statement scanner: comments are blanked in place, quoted values and dollar bodies are opaque,
 and a top-level semicolon ends a statement. The lexical rules are those of section 4.1 "Lexical
 Structure" of the PostgreSQL documentation, as far as the script implements them.
 */
module Scanner {
  import opened Text

  /** A statement with the line of its first significant character. */
  datatype Stmt = Stmt(line: nat, text: string)

  /** What stands at the head of a text: n characters of comment, n characters kept as they are,
      a top-level semicolon, or something that is never closed. */
  datatype Cut = Gap(n: nat) | Code(n: nat) | Stop | Broken

  predicate IsLetter(c: char) {
    'a' <= c <= 'z' || 'A' <= c <= 'Z' || c == '_'
  }

  predicate IsWord(c: char) {
    IsLetter(c) || '0' <= c <= '9'
  }

  predicate Two(t: string, a: char, b: char) {
    |t| >= 2 && t[0] == a && t[1] == b
  }

  function LineEnd(t: string): (n: nat)
    ensures n <= |t| && (n < |t| ==> t[n] == '\n') && forall k | 0 <= k < n :: t[k] != '\n'
  {
    if t == "" || t[0] == '\n' then 0 else 1 + LineEnd(t[1..])
  }

  /** Characters up to the point where comment depth d has come back to zero. */
  function BlockEnd(t: string, d: nat): (r: Option<nat>)
    ensures r.Some? ==> r.value <= |t|
  {
    if d == 0 then Some(0)
    else if t == "" then None
    else if Two(t, '/', '*') then Plus(BlockEnd(t[2..], d + 1), 2)
    else if Two(t, '*', '/') then Plus(BlockEnd(t[2..], d - 1), 2)
    else Plus(BlockEnd(t[1..], d), 1)
  }

  function Plus(r: Option<nat>, k: nat): Option<nat> {
    if r.None? then None else Some(r.value + k)
  }

  /** Characters up to and including the closing quote; a doubled quote does not close. */
  function QuoteEnd(t: string, q: char): (r: Option<nat>)
    ensures r.Some? ==> 0 < r.value <= |t|
  {
    if t == "" then None
    else if t[0] != q then Plus(QuoteEnd(t[1..], q), 1)
    else if |t| >= 2 && t[1] == q then Plus(QuoteEnd(t[2..], q), 2)
    else Some(1)
  }

  function WordLen(t: string): (n: nat)
    ensures n <= |t| && (n < |t| ==> !IsWord(t[n])) && forall k | 0 <= k < n :: IsWord(t[k])
  {
    if t == "" || !IsWord(t[0]) then 0 else 1 + WordLen(t[1..])
  }

  /** Length of the dollar tag at the head of t, or 0 when there is none. */
  function TagLen(t: string): (n: nat)
    ensures n <= |t| && (n > 0 ==> n >= 2 && t[0] == '$' && t[n - 1] == '$')
  {
    if |t| < 2 || t[0] != '$' then 0
    else if t[1] == '$' then 2
    else if !IsLetter(t[1]) then 0
    else
      var k := 1 + WordLen(t[1..]);
      if k < |t| && t[k] == '$' then k + 1 else 0
  }

  function CutOf(t: string): (c: Cut)
    requires t != ""
    ensures c.Gap? || c.Code? ==> 0 < c.n <= |t|
    ensures c.Gap? ==> c.n >= 2
  {
    if Two(t, '-', '-') then
      Gap(LineEnd(t))
    else if Two(t, '/', '*') then
      match BlockEnd(t[2..], 1) case None => Broken case Some(n) => Gap(n + 2)
    else if t[0] == '\'' || t[0] == '"' then
      match QuoteEnd(t[1..], t[0]) case None => Broken case Some(n) => Code(n + 1)
    else if TagLen(t) > 0 then
      var k := TagLen(t);
      match Find(t[k..], t[..k]) case None => Broken case Some(p) => Code(k + p + k)
    else if t[0] == ';' then Stop
    else Code(1)
  }

  /** A comment with everything but its newlines turned into spaces. */
  function Hide(s: string): (r: string)
    ensures SameLines(r, s) && Blank(r)
  {
    seq(|s|, i requires 0 <= i < |s| => if s[i] == '\n' then '\n' else ' ')
  }

  function Emit(buf: string, line: nat): seq<Stmt> {
    if Blank(buf) then [] else [Stmt(line + Newlines(buf[..Lead(buf)]) + 1, Strip(buf) + ";")]
  }

  function Join(ss: seq<Stmt>, r: Option<seq<Stmt>>): Option<seq<Stmt>> {
    if r.None? then None else Some(ss + r.value)
  }

  lemma JoinLaws(a: seq<Stmt>, b: seq<Stmt>, r: Option<seq<Stmt>>)
    ensures Join([], r) == r
    ensures Join(a, Join(b, r)) == Join(a + b, r)
  {
    if r.Some? {
      assert [] + r.value == r.value;
      assert a + (b + r.value) == a + b + r.value;
    }
  }

  /** The statements of t when buf, begun on the given zero-based line, is already collected. */
  function Run(t: string, buf: string, line: nat): Option<seq<Stmt>>
    decreases |t|
  {
    if t == "" then if Blank(buf) then Some([]) else None
    else match CutOf(t)
      case Broken => None
      case Stop => Join(Emit(buf, line), Run(t[1..], "", line + Newlines(buf)))
      case Gap(n) => Run(t[n..], buf + Hide(t[..n]), line)
      case Code(n) => Run(t[n..], buf + t[..n], line)
  }

  function StatementsOf(text: string): Option<seq<Stmt>> {
    Run(text, "", 0)
  }

  /** Walks a block comment from just behind its opening; None when it is never closed. */
  method SkipBlock(text: string, begin: nat) returns (r: Option<nat>)
    requires begin <= |text|
    ensures r == Plus(BlockEnd(text[begin..], 1), begin)
  {
    hide BlockEnd;
    var depth, i := 1, begin;
    PlusLaws(BlockEnd(text[begin..], 1), 0, 0);
    while depth > 0 && i < |text|
      invariant begin <= i <= |text|
      invariant BlockEnd(text[begin..], 1) == Plus(BlockEnd(text[i..], depth), i - begin)
      decreases |text| - i
    {
      BlockStep(text, i, depth);
      if Two(text[i..], '/', '*') {
        PlusLaws(BlockEnd(text[i + 2..], depth + 1), 2, i - begin);
        depth, i := depth + 1, i + 2;
      } else if Two(text[i..], '*', '/') {
        PlusLaws(BlockEnd(text[i + 2..], depth - 1), 2, i - begin);
        depth, i := depth - 1, i + 2;
      } else {
        PlusLaws(BlockEnd(text[i + 1..], depth), 1, i - begin);
        i := i + 1;
      }
    }
    BlockDone(text, i, depth);
    return if depth == 0 then Some(i) else None;
  }

  lemma PlusLaws(r: Option<nat>, a: nat, b: nat)
    ensures Plus(Plus(r, a), b) == Plus(r, a + b)
    ensures Plus(r, 0) == r
  {
  }

  lemma BlockStep(text: string, i: nat, d: nat)
    requires i < |text| && d > 0
    ensures BlockEnd(text[i..], d) ==
      if Two(text[i..], '/', '*') then Plus(BlockEnd(text[i + 2..], d + 1), 2)
      else if Two(text[i..], '*', '/') then Plus(BlockEnd(text[i + 2..], d - 1), 2)
      else Plus(BlockEnd(text[i + 1..], d), 1)
  {
    assert text[i..][1..] == text[i + 1..];
    assert |text| - i >= 2 ==> text[i..][2..] == text[i + 2..];
  }

  lemma BlockDone(text: string, i: nat, d: nat)
    requires i <= |text| && (d == 0 || i == |text|)
    ensures BlockEnd(text[i..], d) == if d == 0 then Some(0) else None
  {
  }

  /** Walks a quoted value from just behind its opening quote; None when it is never closed. */
  method SkipQuote(text: string, begin: nat, quote: char) returns (r: Option<nat>)
    requires begin <= |text|
    ensures r == Plus(QuoteEnd(text[begin..], quote), begin)
  {
    var i := begin;
    while i < |text|
      invariant begin <= i <= |text|
      invariant QuoteEnd(text[begin..], quote) == Plus(QuoteEnd(text[i..], quote), i - begin)
    {
      if text[i] != quote {
        assert text[i..][1..] == text[i + 1..];
        i := i + 1;
      } else if i + 1 < |text| && text[i + 1] == quote {
        assert text[i..][2..] == text[i + 2..];
        i := i + 2;
      } else {
        return Some(i + 1);
      }
    }
    return None;
  }

  /** Decides which branch of the scanner's loop runs at index i, and how far it goes. */
  method Next(text: string, i: nat) returns (c: Cut)
    requires i < |text|
    ensures c == CutOf(text[i..])
  {
    hide Find, TagLen, BlockEnd, QuoteEnd, LineEnd;
    ghost var t := text[i..];
    if Two(text[i..], '-', '-') {
      var end := Find(text[i..], "\n");
      var n := if end.None? then |text| - i else end.value;
      LineEndIs(t, n);
      c := Gap(n);
    } else if Two(text[i..], '/', '*') {
      var end := SkipBlock(text, i + 2);
      assert t[2..] == text[i + 2..];
      c := if end.None? then Broken else Gap(end.value - i);
    } else if text[i] == '\'' || text[i] == '"' {
      var end := SkipQuote(text, i + 1, text[i]);
      assert t[1..] == text[i + 1..];
      c := if end.None? then Broken else Code(end.value - i);
    } else if TagLen(text[i..]) > 0 {
      var k := TagLen(text[i..]);
      var end := Find(text[i + k..], text[i..i + k]);
      assert t[..k] == text[i..i + k] && t[k..] == text[i + k..];
      c := if end.None? then Broken else Code(k + end.value + k);
    } else if text[i] == ';' {
      c := Stop;
    } else {
      c := Code(1);
    }
  }

  /** Where the loop stands: out is done, buf shows text[start..i], and the rest is still to run. */
  predicate Midway(text: string, out: seq<Stmt>, buf: string, start: nat, i: nat) {
    && start <= i <= |text| && |buf| == i - start
    && SameLines(buf, text[start..i])
    && StatementsOf(text) == Join(out, Run(text[i..], buf, Newlines(text[..start])))
  }

  /** `statements`, step by step as the script runs. None stands for its failed assertions. */
  method Statements(text: string) returns (r: Option<seq<Stmt>>)
    ensures r == StatementsOf(text)
  {
    hide CutOf;
    hide SameLines;
    var out, buf, i, start := [], "", 0, 0;
    Starting(text);
    while i < |text|
      invariant i <= |text| && Midway(text, out, buf, start, i)
    {
      var c := Next(text, i);
      match c {
        case Broken =>
          return None;
        case Gap(n) =>
          Taken(text, out, start, i, i + n, buf, Hide(text[i..i + n]));
          buf, i := buf + Hide(text[i..i + n]), i + n;
        case Code(n) =>
          Taken(text, out, start, i, i + n, buf, text[i..i + n]);
          buf, i := buf + text[i..i + n], i + n;
        case Stop =>
          Ended(text, out, start, i, buf);
          if !Blank(buf) {
            var offset := Lead(buf);
            out := out + [Stmt(Newlines(text[..start + offset]) + 1, Strip(buf) + ";")];
          }
          buf, i := "", i + 1;
          start := i;
      }
    }
    assert out + [] == out;
    return if Blank(buf) then Some(out) else None;
  }

  lemma Starting(text: string)
    ensures Midway(text, [], "", 0, 0)
  {
    assert text[0..] == text;
    JoinLaws([], [], StatementsOf(text));
  }

  /** One cut, up to index j, collected into the buffer. */
  lemma Taken(text: string, out: seq<Stmt>, start: nat, i: nat, j: nat, buf: string, add: string)
    requires i < j <= |text| && Midway(text, out, buf, start, i)
    requires
      || (CutOf(text[i..]) == Gap(j - i) && add == Hide(text[i..j]))
      || (CutOf(text[i..]) == Code(j - i) && add == text[i..j])
    ensures Midway(text, out, buf + add, start, j)
  {
    hide CutOf, Run, Newlines, SameLines, StatementsOf;
    Slices(text, start, i, j);
    TakenRun(text[i..], j - i, buf, add, Newlines(text[..start]));
    ShownSame(add, text[i..j]);
    SameLinesConcat(buf, text[start..i], add, text[i..j]);
  }

  lemma Slices(text: string, start: nat, i: nat, j: nat)
    requires start <= i <= j <= |text|
    ensures text[i..][..j - i] == text[i..j] && text[i..][j - i..] == text[j..]
    ensures text[start..i] + text[i..j] == text[start..j]
  {
  }

  lemma ShownSame(add: string, s: string)
    requires add == s || add == Hide(s)
    ensures SameLines(add, s) && |add| == |s|
  {
  }

  lemma TakenRun(t: string, n: nat, buf: string, add: string, line: nat)
    requires 0 < n <= |t|
    requires (CutOf(t) == Gap(n) && add == Hide(t[..n])) || (CutOf(t) == Code(n) && add == t[..n])
    ensures Run(t, buf, line) == Run(t[n..], buf + add, line)
  {
  }

  lemma SameLinesConcat(a: string, b: string, c: string, d: string)
    requires SameLines(a, b) && SameLines(c, d)
    ensures SameLines(a + c, b + d)
  {
  }

  /** The line counts the script takes from the text are those of the specification. */
  lemma EmitHere(text: string, start: nat, i: nat, buf: string)
    requires start <= i < |text| && text[i] == ';' && SameLines(buf, text[start..i])
    ensures Newlines(text[..i + 1]) == Newlines(text[..start]) + Newlines(buf)
    ensures Newlines(text[..start + Lead(buf)]) == Newlines(text[..start]) + Newlines(buf[..Lead(buf)])
  {
    var n := Lead(buf);
    var piece := text[start..i];
    assert text[..start + n] == text[..start] + piece[..n];
    NewlinesConcat(text[..start], piece[..n]);
    SameLinesCount(buf[..n], piece[..n]);
    assert text[..i] == text[..start] + piece;
    assert text[..i + 1] == text[..i] + [text[i]];
    NewlinesConcat(text[..i], ";");
    NewlinesConcat(text[..start], piece);
    SameLinesCount(buf, piece);
  }

  /** A top-level semicolon hands the buffer over as a statement, unless it is blank. */
  lemma Ended(text: string, out: seq<Stmt>, start: nat, i: nat, buf: string)
    requires i < |text| && Midway(text, out, buf, start, i) && CutOf(text[i..]) == Stop
    ensures
      var more := if Blank(buf) then out
                  else out + [Stmt(Newlines(text[..start + Lead(buf)]) + 1, Strip(buf) + ";")];
      Midway(text, more, "", i + 1, i + 1)
  {
    hide CutOf, SameLines, Newlines, Blank, Lead, Strip;
    var line := Newlines(text[..start]);
    StopAt(text, i);
    EmitHere(text, start, i, buf);
    NothingYet(text, i + 1);
    var rest := Run(text[i + 1..], "", line + Newlines(buf));
    assert text[i..][1..] == text[i + 1..];
    assert Run(text[i..], buf, line) == Join(Emit(buf, line), rest);
    JoinLaws(out, Emit(buf, line), rest);
    assert out + [] == out;
  }

  lemma StopAt(text: string, i: nat)
    requires i < |text| && CutOf(text[i..]) == Stop
    ensures text[i] == ';'
  {
  }

  lemma NothingYet(text: string, i: nat)
    requires i <= |text|
    ensures SameLines("", text[i..i]) && |text[i..i]| == 0
  {
  }

  lemma {:induction false} LineEndIs(t: string, n: nat)
    requires n <= |t| && Find(t, "\n") == if n == |t| then None else Some(n)
    ensures LineEnd(t) == n
  {
    if t != "" {
      assert "\n" <= t <==> t[0] == '\n';
      if t[0] != '\n' {
        LineEndIs(t[1..], n - 1);
      }
    }
  }
}
