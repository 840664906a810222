/** What the tokens of a text are, kind by kind, and that printed tokens are read back. */
module LexerTokens {
  import opened Text
  import opened Scanner
  import opened ScannerLaws
  import opened Fragments
  import opened Brackets
  import Lexer

  /** A letter or underscore, then letters, digits and underscores. */
  predicate IsName(w: string) {
    w != "" && IsLetter(w[0]) && forall i | 0 <= i < |w| :: IsWord(w[i])
  }

  predicate IsNumber(w: string) {
    w != "" && forall i | 0 <= i < |w| :: '0' <= w[i] <= '9'
  }

  /** A character that is a token by itself where whitespace follows. */
  predicate IsMark(w: string) {
    |w| == 1 && !IsSpace(w[0]) && !IsWord(w[0]) && w[0] != '\'' && w[0] != '"'
  }

  ghost predicate IsValue(w: string) {
    exists v :: w == Literal(v)
  }

  /** The text begins with this token, and the rest is tokenized as it is by itself. */
  predicate Begins(w: string, rest: string) {
    Lexer.Raw(w + rest) == Lexer.Prepend([w], [], Lexer.Raw(rest))
  }

  lemma OneToken(t: string, n: nat, token: string)
    requires t != "" && n <= |t| && Lexer.PieceOf(t) == Lexer.Token(n, token)
    ensures Lexer.Raw(t) == Lexer.Prepend([token], [], Lexer.Raw(t[n..]))
  {
    Lexer.RawStep(t);
    hide Lexer.PieceOf;
  }

  /** A word is one token, as long as it can be, unless it is an E right in front of a quote. */
  lemma NameFirst(w: string, rest: string)
    requires IsName(w) && (rest == "" || !IsWord(rest[0]))
    requires (w == "E" || w == "e") && rest != "" ==> rest[0] != '\''
    ensures Begins(w, rest)
  {
    var t := w + rest;
    WordsOnly(w);
    WordLocal(w, rest);
    LettersAreNot(w[0]);
    assert t[..|w|] == w && t[|w|..] == rest;
    assert !Lexer.Quoted(t) by {
      if |w| > 1 {
        LettersAreNot(w[1]);
      }
    }
    hide WordLen;
    OneToken(t, |w|, w);
  }

  lemma {:induction false} WordsOnly(w: string)
    requires forall i | 0 <= i < |w| :: IsWord(w[i])
    ensures WordLen(w) == |w|
  {
    if w != "" {
      WordsOnly(w[1..]);
    }
  }

  lemma LettersAreNot(c: char)
    requires IsWord(c)
    ensures !IsSpace(c) && c != '-' && c != '/' && c != '\'' && c != '"' && c != '$'
  {
  }

  /** A run of digits is one token, as long as it can be. */
  lemma NumberFirst(w: string, rest: string)
    requires IsNumber(w) && (rest == "" || !IsDigit(rest[0]))
    ensures Begins(w, rest)
  {
    var t := w + rest;
    DigitsOnly(w, rest);
    assert t[..|w|] == w && t[|w|..] == rest && IsWord(w[0]);
    LettersAreNot(w[0]);
    hide Lexer.DigitLen;
    OneToken(t, |w|, w);
  }

  lemma {:induction false} DigitsOnly(w: string, rest: string)
    requires forall i | 0 <= i < |w| :: '0' <= w[i] <= '9'
    requires rest == "" || !IsDigit(rest[0])
    ensures Lexer.DigitLen(w + rest) == |w|
  {
    if w == "" {
      assert w + rest == rest;
    } else {
      assert (w + rest)[1..] == w[1..] + rest;
      DigitsOnly(w[1..], rest);
    }
  }

  /** A quoted value is one token, quotes and doubled quotes included. */
  lemma ValueFirst(v: string, rest: string)
    requires rest == "" || rest[0] != '\''
    ensures Begins(Literal(v), rest)
  {
    var w := Literal(v);
    var t := w + rest;
    DoubledCloses(v, rest);
    assert t[1..] == Double(v) + "'" + rest && t[..|w|] == w && t[|w|..] == rest && t[0] == '\'';
    hide Double, QuoteEnd;
    QuoteIsNoSpace();
    OneToken(t, |w|, w);
  }

  lemma QuoteIsNoSpace()
    ensures !IsSpace('\'') && !IsSpace('"')
  {
  }

  /** Any other character is a token by itself where whitespace follows. */
  lemma MarkFirst(w: string, rest: string)
    requires IsMark(w) && rest != "" && IsSpace(rest[0])
    ensures Begins(w, rest)
  {
    var t := w + rest;
    assert t[..1] == w && t[1..] == rest;
    NotLetters(w[0], rest[0]);
    TagLocal(w, rest);
    OneToken(t, 1, w);
  }

  lemma NotLetters(c: char, d: char)
    requires IsSpace(d) && !IsWord(c)
    ensures d != '-' && d != '*' && d != '$' && d != '\'' && !IsLetter(c) && !IsDigit(c) && c != 'E' && c != 'e'
  {
  }

  /** Whitespace is no token. */
  lemma SpaceSkipped(c: char, rest: string)
    requires IsSpace(c)
    ensures Lexer.Raw([c] + rest) == Lexer.Raw(rest)
  {
    assert Lexer.PieceOf([c] + rest) == Lexer.Skip(1) && ([c] + rest)[1..] == rest;
    hide Lexer.PieceOf;
  }

  /** A name in double quotes is the token between them. */
  lemma QuotedFirst(v: string, rest: string)
    requires '"' !in v && (rest == "" || rest[0] != '"')
    ensures Lexer.Raw("\"" + v + "\"" + rest) == Lexer.Prepend([v], [], Lexer.Raw(rest))
  {
    var t := "\"" + v + "\"" + rest;
    NameCloses(v, rest);
    assert t[1..] == v + "\"" + rest && t[1..|v| + 1] == v && t[|v| + 2..] == rest;
    QuoteIsNoSpace();
    hide QuoteEnd;
    OneToken(t, |v| + 2, v);
  }

  lemma {:induction false} NameCloses(v: string, rest: string)
    requires '"' !in v && (rest == "" || rest[0] != '"')
    ensures QuoteEnd(v + "\"" + rest, '"') == Some(|v| + 1)
  {
    var t := v + "\"" + rest;
    if v == "" {
      assert t == "\"" + rest;
    } else {
      assert t[1..] == v[1..] + "\"" + rest;
      NameCloses(v[1..], rest);
    }
  }

  /** A dollar body is the token of its tag, and is tokenized by itself. */
  lemma BodyFirst(tag: string, text: string, rest: string)
    requires Sealed(tag, text)
    ensures Lexer.Raw(tag + text + tag + rest) ==
      match Lexer.LexOf(text) case None => None case Some(b) => Lexer.Prepend([tag], [b], Lexer.Raw(rest))
  {
    var t := tag + text + tag + rest;
    BodyPiece(tag, text, rest);
    assert Lexer.PieceOf(t) == Lexer.Body(|tag| + |text| + |tag|, tag, text);
    hide Lexer.PieceOf, Lexer.LexOf, Sealed;
    TailOf(tag, text, rest);
  }

  lemma TailOf(a: string, b: string, y: string)
    ensures (a + b + a + y)[|a| + |b| + |a|..] == y
  {
    assert |a + b + a| == |a| + |b| + |a|;
  }

  lemma BodyPiece(tag: string, text: string, rest: string)
    requires Sealed(tag, text)
    ensures Lexer.PieceOf(tag + text + tag + rest) == Lexer.Body(|tag| + |text| + |tag|, tag, text)
  {
    SealedFound(tag, text, rest);
    BodyShape(tag, text, rest);
    hide *;
    TagPieceAt(tag + text + tag + rest, tag, text);
  }

  lemma SealedFound(tag: string, text: string, rest: string)
    requires Sealed(tag, text)
    ensures TagLen(tag + (text + tag + rest)) == |tag| > 0 && Find(text + tag + rest, tag) == Some(|text|)
  {
    TagBefore(tag, text + tag + rest);
    FindExtended(text + tag, rest, tag);
    hide TagLen, Find;
  }

  lemma TagPieceAt(t: string, tag: string, text: string)
    requires |tag| + |text| <= |t| && TagLen(t) == |tag| > 0 && t[..|tag|] == tag
    requires t[|tag|..|tag| + |text|] == text && Find(t[|tag|..], tag) == Some(|text|)
    ensures Lexer.PieceOf(t) == Lexer.Body(|tag| + |text| + |tag|, tag, text)
  {
    hide *;
    TagPiece(t, |tag|, |text|);
  }

  lemma BodyShape(tag: string, text: string, rest: string)
    ensures var y := text + tag + rest;
      && tag + text + tag + rest == tag + y && (tag + y)[..|tag|] == tag && (tag + y)[|tag|..] == y
      && (tag + y)[|tag|..|tag| + |text|] == text
  {
    var y := text + tag + rest;
    assert tag + text + tag + rest == tag + y;
    assert text + tag + rest == text + (tag + rest);
  }

  lemma TagPiece(t: string, k: nat, p: nat)
    requires TagLen(t) == k > 0 && Find(t[k..], t[..k]) == Some(p)
    ensures k + p <= |t| && Lexer.PieceOf(t) == Lexer.Body(k + p + k, t[..k], t[k..k + p])
  {
    DollarFirst(t);
    hide TagLen, Find, Lexer.QuotedPiece, Lexer.WordPiece, BlockEnd, LineEnd, IsSpace;
  }

  lemma DollarFirst(t: string)
    requires TagLen(t) > 0
    ensures t != "" && t[0] == '$' && !IsSpace(t[0]) && !Lexer.Quoted(t) && !Two(t, '-', '-') && !Two(t, '/', '*')
  {
    hide TagLen;
  }

  /** Doubled quotes and doubled backslashes. */
  function Escaping(v: string): string {
    if v == "" then ""
    else (if v[0] == '\'' then "''" else if v[0] == '\\' then "\\\\" else [v[0]]) + Escaping(v[1..])
  }

  lemma {:induction false} EscapedCloses(v: string, x: string)
    requires x == "" || x[0] != '\''
    ensures Lexer.EscapeEnd(Escaping(v) + "'" + x) == Some(|Escaping(v)| + 1)
  {
    var t := Escaping(v) + "'" + x;
    if v == "" {
      assert t == "'" + x;
    } else {
      EscapedCloses(v[1..], x);
      var n := if v[0] == '\'' || v[0] == '\\' then 2 else 1;
      assert t[n..] == Escaping(v[1..]) + "'" + x;
    }
  }

  /** An escape string is one token. */
  lemma EscapeFirst(e: char, v: string, rest: string)
    requires (e == 'E' || e == 'e') && (rest == "" || rest[0] != '\'')
    ensures Begins([e] + ("'" + Escaping(v) + "'"), rest)
  {
    var w := [e] + ("'" + Escaping(v) + "'");
    var t := w + rest;
    EscapedCloses(v, rest);
    assert t[2..] == Escaping(v) + "'" + rest && t[..|w|] == w && t[|w|..] == rest && t[1] == '\'';
    LettersAreNot(e);
    hide Escaping, Lexer.EscapeEnd;
    OneToken(t, |w|, w);
  }

  // Printed tokens -------------------------------------------------------------------------------------

  ghost predicate IsToken(w: string) {
    IsName(w) || IsNumber(w) || IsMark(w) || IsValue(w)
  }

  /** Tokens with a blank behind each. */
  function Printed(ts: Stream): string {
    if ts == [] then "" else ts[0] + (" " + Printed(ts[1..]))
  }

  lemma TokenFirst(w: string, rest: string)
    requires IsToken(w)
    ensures Lexer.Raw(w + (" " + rest)) == Lexer.Prepend([w], [], Lexer.Raw(rest))
  {
    var z := " " + rest;
    BlankIsSpace();
    SpaceSkipped(' ', rest);
    assert [' '] + rest == z;
    hide Lexer.Raw, Literal;
    if IsName(w) {
      NameFirst(w, z);
    } else if IsNumber(w) {
      NumberFirst(w, z);
    } else if IsMark(w) {
      MarkFirst(w, z);
    } else {
      var v :| w == Literal(v);
      ValueFirst(v, z);
    }
  }

  lemma BlankIsSpace()
    ensures IsSpace(' ') && !IsWord(' ') && !IsDigit(' ')
  {
  }

  lemma {:induction false} PrintedRaw(ts: Stream)
    requires forall k | 0 <= k < |ts| :: IsToken(ts[k])
    ensures Lexer.Raw(Printed(ts)) == Some(Lexer.Tree(ts, []))
  {
    hide IsToken;
    if ts == [] {
      Lexer.RawEmpty();
    } else {
      PrintedRaw(ts[1..]);
      TokenFirst(ts[0], Printed(ts[1..]));
      InFront(ts[0], ts[1..]);
      assert [ts[0]] + ts[1..] == ts;
      hide Lexer.Raw, Lexer.Prepend;
    }
  }

  lemma InFront(w: string, ts: Stream)
    ensures Lexer.Prepend([w], [], Some(Lexer.Tree(ts, []))) == Some(Lexer.Tree([w] + ts, []))
  {
    var none: seq<Lexer.Tree> := [];
    assert none + none == none;
  }

  /** Words, numbers, values and marks, printed with blanks, are read back as they were, if their brackets are
      balanced; otherwise the text is refused. */
  lemma PrintedTokens(ts: Stream)
    requires forall k | 0 <= k < |ts| :: IsToken(ts[k])
    ensures Lexer.LexOf(Printed(ts)) == if Balanced(ts) then Some(Lexer.Tree(ts, [])) else None
  {
    PrintedRaw(ts);
    hide Lexer.Raw, Balanced, IsToken;
  }

  /** In front of any text a word or number is its first token, and the text is accepted with it exactly when it is
      without. */
  lemma WordInFront(w: string, rest: string)
    requires Begins(w, rest) && (IsName(w) || IsNumber(w))
    ensures Lexer.LexOf(w + rest) == Lexer.Prepend([w], [], Lexer.LexOf(rest))
  {
    hide Lexer.Raw, Stack;
    assert w != "(" && w != "[" && w != ")" && w != "]" by {
      NoBracket(w);
    }
    OneBalanced(w);
    if Lexer.Raw(rest).Some? {
      BalancedConcat([w], Lexer.Raw(rest).value.tokens);
    }
  }

  lemma NoBracket(w: string)
    requires IsName(w) || IsNumber(w)
    ensures w[0] != '(' && w[0] != '[' && w[0] != ')' && w[0] != ']'
  {
  }

  lemma OneBalanced(w: string)
    requires !Opens(w) && !Closes(w)
    ensures Balanced([w])
  {
    assert Stack([w], 0) == Some([]);
  }
}
