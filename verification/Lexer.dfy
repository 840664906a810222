/**
 The tokenizer of the review draft: comments vanish, single-quoted values stay whole, double-quoted names
 lose their quotes, and the body between two dollar tags is tokenized on its own.
 */
module Lexer {
  import opened Text
  import opened Scanner
  import opened ScannerLaws
  import opened Brackets

  datatype Tree = Tree(tokens: Stream, bodies: seq<Tree>)

  /** What stands at the head of a text. */
  datatype Piece = Skip(n: nat) | Token(n: nat, token: string) | Body(n: nat, tag: string, body: string) | Bad

  /** Like a quoted value, but a backslash takes the next character along. */
  function EscapeEnd(t: string): (r: Option<nat>)
    ensures r.Some? ==> 0 < r.value <= |t|
  {
    if t == "" then None
    else if t[0] == '\\' then if |t| < 2 then None else Plus(EscapeEnd(t[2..]), 2)
    else if t[0] != '\'' then Plus(EscapeEnd(t[1..]), 1)
    else if |t| >= 2 && t[1] == '\'' then Plus(EscapeEnd(t[2..]), 2)
    else Some(1)
  }

  function DigitLen(t: string): (n: nat)
    ensures n <= |t|
  {
    if t == "" || !IsDigit(t[0]) then 0 else 1 + DigitLen(t[1..])
  }

  predicate Escaped(t: string) {
    |t| >= 2 && (t[0] == 'E' || t[0] == 'e') && t[1] == '\''
  }

  predicate Quoted(t: string) {
    t != "" && (t[0] == '\'' || t[0] == '"' || Escaped(t))
  }

  function QuotedPiece(t: string): (p: Piece)
    requires Quoted(t)
    ensures p.Token? || p.Bad?
    ensures !p.Bad? ==> 0 < p.n <= |t|
  {
    if t[0] == '\'' then
      match QuoteEnd(t[1..], '\'') case None => Bad case Some(n) => Token(n + 1, t[..n + 1])
    else if t[0] == '"' then
      match QuoteEnd(t[1..], '"') case None => Bad case Some(n) => Token(n + 1, t[1..n])
    else
      match EscapeEnd(t[2..]) case None => Bad case Some(n) => Token(n + 2, t[..n + 2])
  }

  function BodyPiece(t: string): (p: Piece)
    requires TagLen(t) > 0
    ensures p.Body? || p.Bad?
    ensures p.Body? ==> 0 < p.n <= |t| && |p.body| < |t|
  {
    var k := TagLen(t);
    match Find(t[k..], t[..k]) case None => Bad case Some(p) => Body(k + p + k, t[..k], t[k..k + p])
  }

  function WordPiece(t: string): (p: Piece)
    requires t != ""
    ensures p.Token? && 0 < p.n <= |t|
  {
    var n := if IsLetter(t[0]) then WordLen(t) else if IsDigit(t[0]) then DigitLen(t) else 1;
    Token(n, t[..n])
  }

  function PieceOf(t: string): (p: Piece)
    requires t != ""
    ensures !p.Bad? ==> 0 < p.n <= |t|
    ensures p.Body? ==> |p.body| < |t|
  {
    if IsSpace(t[0]) then Skip(1)
    else if Two(t, '-', '-') then Skip(if LineEnd(t) == |t| then |t| else LineEnd(t) + 1)
    else if Two(t, '/', '*') then
      match BlockEnd(t[2..], 1) case None => Bad case Some(n) => Skip(n + 2)
    else if Quoted(t) then QuotedPiece(t)
    else if TagLen(t) > 0 then BodyPiece(t)
    else WordPiece(t)
  }

  function Prepend(tokens: Stream, bodies: seq<Tree>, r: Option<Tree>): Option<Tree> {
    if r == None then None else Some(Tree(tokens + r.value.tokens, bodies + r.value.bodies))
  }

  /** The tokens of t, before their brackets are checked; every dollar body has to lex completely. */
  function Raw(t: string): Option<Tree>
    decreases |t|, 0
  {
    if t == "" then Some(Tree([], []))
    else match PieceOf(t)
      case Bad => None
      case Skip(n) => Raw(t[n..])
      case Token(n, token) => Prepend([token], [], Raw(t[n..]))
      case Body(n, tag, body) =>
        match LexOf(body) case None => None case Some(b) => Prepend([tag], [b], Raw(t[n..]))
  }

  function LexOf(t: string): Option<Tree>
    decreases |t|, 1
  {
    var r := Raw(t);
    if r.Some? && Balanced(r.value.tokens) then r else None
  }

  lemma PrependLaws(a: Stream, b: seq<Tree>, c: Stream, d: seq<Tree>, r: Option<Tree>)
    ensures Prepend([], [], r) == r
    ensures Prepend(a, b, Prepend(c, d, r)) == Prepend(a + c, b + d, r)
  {
    if r.Some? {
      assert [] + r.value.tokens == r.value.tokens && [] + r.value.bodies == r.value.bodies;
      assert a + (c + r.value.tokens) == a + c + r.value.tokens;
      assert b + (d + r.value.bodies) == b + d + r.value.bodies;
    }
  }

  /** Walks an escape string from just behind its opening quote; None when it is never closed. */
  method SkipEscape(text: string, begin: nat) returns (r: Option<nat>)
    requires begin <= |text|
    ensures r == Plus(EscapeEnd(text[begin..]), begin)
  {
    hide EscapeEnd;
    var i := begin;
    PlusLaws(EscapeEnd(text[begin..]), 0, 0);
    EscapeNone(text);
    while i < |text|
      invariant begin <= i
      invariant EscapeEnd(text[begin..]) == if i <= |text| then Plus(EscapeEnd(text[i..]), i - begin) else None
    {
      EscapeStep(text, i);
      if text[i] == '\\' {
        i := i + 2;
      } else if text[i] == '\'' {
        if i + 1 < |text| && text[i + 1] == '\'' {
          i := i + 2;
        } else {
          return Some(i + 1);
        }
      } else {
        i := i + 1;
      }
    }
    return None;
  }

  lemma EscapeNone(text: string)
    ensures EscapeEnd(text[|text|..]) == None
  {
  }

  lemma EscapeStep(text: string, i: nat)
    requires i < |text|
    ensures EscapeEnd(text[i..]) ==
      if text[i] == '\\' then if i + 1 == |text| then None else Plus(EscapeEnd(text[i + 2..]), 2)
      else if text[i] != '\'' then Plus(EscapeEnd(text[i + 1..]), 1)
      else if i + 1 < |text| && text[i + 1] == '\'' then Plus(EscapeEnd(text[i + 2..]), 2)
      else Some(1)
  {
    assert text[i..][1..] == text[i + 1..] && (|text| - i >= 2 ==> text[i..][2..] == text[i + 2..]);
  }

  method NextQuoted(text: string, i: nat) returns (p: Piece)
    requires i < |text| && Quoted(text[i..])
    ensures p == QuotedPiece(text[i..])
  {
    hide QuoteEnd, EscapeEnd;
    ghost var t := text[i..];
    var c := text[i];
    var end;
    if c == '\'' || c == '"' {
      end := SkipQuote(text, i + 1, c);
      assert t[1..] == text[i + 1..];
    } else {
      end := SkipEscape(text, i + 2);
      assert t[2..] == text[i + 2..];
    }
    if end.None? {
      p := Bad;
    } else if c == '"' {
      p := Token(end.value - i, text[i + 1..end.value - 1]);
      assert t[1..end.value - 1 - i] == text[i + 1..end.value - 1];
    } else {
      p := Token(end.value - i, text[i..end.value]);
      assert t[..end.value - i] == text[i..end.value];
    }
  }

  method NextBody(text: string, i: nat) returns (p: Piece)
    requires i < |text| && TagLen(text[i..]) > 0
    ensures p == BodyPiece(text[i..])
  {
    hide TagLen, Find;
    ghost var t := text[i..];
    var k := TagLen(text[i..]);
    var tag, rest := text[i..i + k], text[i + k..];
    assert t[..k] == tag && t[k..] == rest;
    var end := Find(rest, tag);
    p := if end.None? then Bad else Body(k + end.value + k, tag, rest[..end.value]);
    assert end.Some? ==> t[k..k + end.value] == rest[..end.value];
  }

  lemma RawEmpty()
    ensures Raw("") == Some(Tree([], []))
  {
  }

  function TokensOf(p: Piece): Stream {
    match p case Token(_, token) => [token] case Body(_, tag, _) => [tag] case _ => []
  }

  predicate Lexes(p: Piece) {
    p != Bad && (p.Body? ==> LexOf(p.body).Some?)
  }

  function BodiesOf(p: Piece): seq<Tree>
    requires Lexes(p)
  {
    if p.Body? then [LexOf(p.body).value] else []
  }

  lemma RawStep(t: string)
    requires t != ""
    ensures Raw(t).Some? ==> Lexes(PieceOf(t))
    ensures Lexes(PieceOf(t)) ==> Raw(t) == Prepend(TokensOf(PieceOf(t)), BodiesOf(PieceOf(t)), Raw(t[PieceOf(t).n..]))
  {
    hide PieceOf;
    if PieceOf(t) != Bad {
      PrependLaws([], [], [], [], Raw(t[PieceOf(t).n..]));
    }
  }

  /** Decides which branch of the loop runs at index i, and how far it goes. */
  method NextPiece(text: string, i: nat) returns (p: Piece)
    requires i < |text|
    ensures p == PieceOf(text[i..])
  {
    hide BlockEnd, IsSpace, LineEnd, TagLen, Quoted, QuotedPiece, BodyPiece;
    ghost var t := text[i..];
    if IsSpace(text[i]) {
      p := Skip(1);
    } else if Two(text[i..], '-', '-') {
      var end := Find(text[i..], "\n");
      LineEndIs(t, if end.None? then |t| else end.value);
      p := Skip(if end.None? then |text| - i else end.value + 1);
    } else if Two(text[i..], '/', '*') {
      var end := SkipBlock(text, i + 2);
      assert t[2..] == text[i + 2..];
      p := if end.None? then Bad else Skip(end.value - i);
    } else if Quoted(text[i..]) {
      p := NextQuoted(text, i);
    } else if TagLen(text[i..]) > 0 {
      p := NextBody(text, i);
    } else {
      p := WordPiece(text[i..]);
    }
  }

  /** `lex`, step by step; None stands for its failed assertions. Recursion is on shorter texts only. */
  method Lex(text: string) returns (r: Option<Tree>)
    ensures r == LexOf(text)
    decreases |text|
  {
    hide PieceOf, Balanced, Raw;
    var out: Stream, bodies: seq<Tree>, i := [], [], 0;
    PrependLaws([], [], [], [], Raw(text));
    RawEmpty();
    assert text[0..] == text;
    while i < |text|
      invariant i <= |text| && Raw(text) == Prepend(out, bodies, Raw(text[i..]))
    {
      var p := NextPiece(text, i);
      assert p.Bad? || text[i..][p.n..] == text[i + p.n..];
      RawStep(text[i..]);
      match p {
        case Bad => return None;
        case Skip(n) =>
          PrependLaws([], [], [], [], Raw(text[i + n..]));
          i := i + n;
        case Token(n, token) =>
          PrependLaws(out, bodies, [token], [], Raw(text[i + n..]));
          assert bodies + [] == bodies;
          out, i := out + [token], i + n;
        case Body(n, tag, body) =>
          var tree := Lex(body);
          if tree == None {
            return None;
          }
          PrependLaws(out, bodies, [tag], [tree.value], Raw(text[i + n..]));
          bodies := bodies + [tree.value];
          out, i := out + [tag], i + n;
      }
    }
    assert text[i..] == "" && out + [] == out && bodies + [] == bodies;
    var ok := CheckDelimiters(out);
    return if ok then Some(Tree(out, bodies)) else None;
  }

  // What a lexed text promises -----------------------------------------------------------------------

  /** All token streams of a tree, as `all_streams` yields them. */
  predicate EveryStreamBalanced(tree: Tree) {
    Balanced(tree.tokens) && forall b | b in tree.bodies :: EveryStreamBalanced(b)
  }

  lemma {:induction false} RawBodies(t: string)
    requires Raw(t).Some?
    ensures forall b | b in Raw(t).value.bodies :: EveryStreamBalanced(b)
    decreases |t|, 0
  {
    hide PieceOf, Balanced;
    if t != "" {
      var p := PieceOf(t);
      RawBodies(t[p.n..]);
      if p.Body? {
        LexBalanced(p.body);
      }
    }
  }

  /** In a text that lexes, the brackets of every stream are balanced, down to the innermost dollar body. */
  lemma {:induction false} LexBalanced(t: string)
    requires LexOf(t).Some?
    ensures EveryStreamBalanced(LexOf(t).value)
    decreases |t|, 1
  {
    hide Balanced;
    RawBodies(t);
  }

  // Lexing one text after another --------------------------------------------------------------------

  lemma ShortOpens(r: string)
    requires r == "" || r == "\\"
    ensures EscapeEnd(r + "\n") == None
  {
    assert (r + "\n")[|r| + 1..] == "";
  }

  lemma {:induction false} EscapeLocal(r: string, y: string)
    requires y != "" && y[0] == '\n' && EscapeEnd(r + "\n").Some?
    ensures EscapeEnd(r + "\n").value <= |r| && EscapeEnd(r + y) == EscapeEnd(r + "\n")
  {
    var w := "\n";
    if r == "" || r == "\\" {
      ShortOpens(r);
      assert false;
    } else {
      assert (r + w)[1..] == r[1..] + w && (r + y)[1..] == r[1..] + y;
      if |r| >= 2 {
        assert (r + w)[2..] == r[2..] + w && (r + y)[2..] == r[2..] + y;
      }
      if r[0] == '\\' || (r[0] == '\'' && |r| >= 2 && r[1] == '\'') {
        EscapeLocal(r[2..], y);
      } else if r[0] != '\'' {
        EscapeLocal(r[1..], y);
      }
    }
  }

  lemma {:induction false} DigitLocal(r: string, y: string)
    requires y != "" && IsSpace(y[0])
    ensures DigitLen(r + y) == DigitLen(r)
  {
    if r == "" {
      assert r + y == y;
    } else {
      assert (r + y)[1..] == r[1..] + y;
      if IsDigit(r[0]) {
        DigitLocal(r[1..], y);
      }
    }
  }

  lemma QuotedLocal(r: string, y: string)
    requires r != "" && y != "" && y[0] == '\n'
    ensures Quoted(r + y) == Quoted(r) == Quoted(r + "\n")
    ensures Quoted(r) && QuotedPiece(r + "\n") != Bad ==>
      QuotedPiece(r + y) == QuotedPiece(r + "\n") && QuotedPiece(r + y).n <= |r|
  {
    if Quoted(r) && QuotedPiece(r + "\n") != Bad {
      if r[0] == '\'' || r[0] == '"' {
        QuoteCase(r, y);
      } else {
        EscapeCase(r, y);
      }
    }
  }

  lemma QuoteCase(r: string, y: string)
    requires r != "" && (r[0] == '\'' || r[0] == '"') && y != "" && y[0] == '\n' && QuotedPiece(r + "\n") != Bad
    ensures QuotedPiece(r + y) == QuotedPiece(r + "\n") && QuotedPiece(r + y).n <= |r|
  {
    hide QuoteEnd, EscapeEnd;
    var w := "\n";
    BlankIsInert(w);
    assert (r + w)[1..] == r[1..] + w && (r + y)[1..] == r[1..] + y;
    QuoteLocal(r[1..], w, y, r[0]);
    SameHead(r, w, y, QuoteEnd(r[1..] + w, r[0]).value + 1);
  }

  lemma EscapeCase(r: string, y: string)
    requires Escaped(r) && y != "" && y[0] == '\n' && QuotedPiece(r + "\n") != Bad
    ensures QuotedPiece(r + y) == QuotedPiece(r + "\n") && QuotedPiece(r + y).n <= |r|
  {
    hide QuoteEnd, EscapeEnd;
    var w := "\n";
    assert (r + w)[2..] == r[2..] + w && (r + y)[2..] == r[2..] + y;
    EscapeLocal(r[2..], y);
    SameHead(r, w, y, EscapeEnd(r[2..] + w).value + 2);
  }

  lemma SameHead(r: string, w: string, y: string, n: nat)
    requires n <= |r|
    ensures (r + w)[..n] == (r + y)[..n] == r[..n]
    ensures forall k | 0 <= k <= n :: (r + w)[k..n] == (r + y)[k..n]
  {
  }

  lemma BodyLocal(r: string, y: string)
    requires r != "" && y != "" && y[0] == '\n'
    ensures TagLen(r + y) == TagLen(r) == TagLen(r + "\n")
    ensures TagLen(r) > 0 && BodyPiece(r + "\n") != Bad ==>
      BodyPiece(r + y) == BodyPiece(r + "\n") && BodyPiece(r + y).n <= |r|
  {
    TagLocal(r, "\n");
    TagLocal(r, y);
    if TagLen(r) > 0 && BodyPiece(r + "\n") != Bad {
      BodyCase(r, y);
    }
  }

  /** The closing tag is found at the same place, within r. */
  lemma TagFound(r: string, y: string, k: nat)
    requires r != "" && y != "" && y[0] == '\n' && TagLen(r) == k > 0 && Find(r[k..] + "\n", r[..k]).Some?
    ensures Find(r[k..] + y, r[..k]) == Find(r[k..] + "\n", r[..k])
    ensures k + Find(r[k..] + "\n", r[..k]).value + k <= |r|
  {
    assert r[..k][k - 1] == '$';
    hide TagLen, Find;
    BlankIsInert("\n");
    FindLocal(r[k..], "\n", y, r[..k]);
  }

  lemma BodyCase(r: string, y: string)
    requires r != "" && y != "" && y[0] == '\n' && TagLen(r) > 0
    requires TagLen(r + y) == TagLen(r) == TagLen(r + "\n") && BodyPiece(r + "\n") != Bad
    ensures BodyPiece(r + y) == BodyPiece(r + "\n") && BodyPiece(r + y).n <= |r|
  {
    hide TagLen, Find;
    var w, k := "\n", TagLen(r);
    assert (r + w)[k..] == r[k..] + w && (r + y)[k..] == r[k..] + y;
    SameHead(r, w, y, k);
    TagFound(r, y, k);
    SameHead(r, w, y, k + Find(r[k..] + w, r[..k]).value);
  }

  lemma WordPieceLocal(r: string, y: string)
    requires r != "" && y != "" && IsSpace(y[0])
    ensures WordPiece(r + y) == WordPiece(r) && WordPiece(r).n <= |r|
  {
    assert !IsWord(y[0]);
    WordLocal(r, y);
    DigitLocal(r, y);
    SameHead(r, y, y, WordPiece(r).n);
  }

  /** A piece that ends within r, or a comment that reaches the newline behind it, stays as it is. */
  lemma PieceLocal(r: string, y: string)
    requires r != "" && y != "" && y[0] == '\n' && PieceOf(r + "\n") != Bad
    ensures PieceOf(r + y) == PieceOf(r + "\n")
    ensures PieceOf(r + y).n <= |r| || (PieceOf(r + y) == Skip(|r| + 1))
  {
    var w := "\n";
    BlankIsInert(w);
    PairLocal(r, w);
    PairLocal(r, y);
    QuotedLocal(r, y);
    QuotedLocal(r, w);
    BodyLocal(r, y);
    BodyLocal(r, w);
    WordPieceLocal(r, y);
    WordPieceLocal(r, w);
    if Two(r, '-', '-') {
      LineEndLocal(r, y);
      LineEndLocal(r, w);
    } else if Two(r, '/', '*') {
      assert (r + w)[2..] == r[2..] + w && (r + y)[2..] == r[2..] + y;
      hide BlockEnd;
      if !IsSpace(r[0]) {
        BlockLocal(r[2..], w, y, 1);
      }
    }
  }

  lemma NewlineSkipped(b: string)
    ensures Raw("\n" + b) == Raw(b)
  {
    assert PieceOf("\n" + b) == Skip(1);
    assert ("\n" + b)[1..] == b;
  }

  /** A text that ends its last line can be tokenized before what follows is known. */
  lemma {:induction false} RawConcat(r: string, b: string)
    requires Raw(r + "\n").Some?
    ensures var x := Raw(r + "\n").value; Raw(r + "\n" + b) == Prepend(x.tokens, x.bodies, Raw(b))
    decreases |r|
  {
    hide PieceOf, Raw, LexOf, Lexes, TokensOf, BodiesOf;
    var w, y := "\n", "\n" + b;
    assert r + w + b == r + y;
    PrependLaws([], [], [], [], Raw(b));
    RawEmpty();
    if r == "" {
      NewlineSkipped(b);
      NewlineSkipped("");
      assert r + w == "\n" + "" && r + y == y;
    } else {
      RawStep(r + w);
      PieceIsNotBad(r + w);
      PieceLocal(r, y);
      RawStep(r + y);
      var p := PieceOf(r + w);
      if p.n <= |r| {
        assert (r + w)[p.n..] == r[p.n..] + w && (r + y)[p.n..] == r[p.n..] + y;
        assert r[p.n..] + w + b == r[p.n..] + y;
        RawConcat(r[p.n..], b);
        var x := Raw(r[p.n..] + w).value;
        PrependLaws(TokensOf(p), BodiesOf(p), x.tokens, x.bodies, Raw(b));
      } else {
        assert (r + w)[p.n..] == "" && (r + y)[p.n..] == b;
        CommentOnly(p, |r| + 1);
        assert Raw(r + w) == Prepend([], [], Some(Tree([], [])));
      }
    }
  }

  lemma PieceIsNotBad(t: string)
    requires t != "" && Lexes(PieceOf(t))
    ensures PieceOf(t) != Bad
  {
  }

  lemma CommentOnly(p: Piece, n: nat)
    requires p == Skip(n)
    ensures Lexes(p) && TokensOf(p) == [] && BodiesOf(p) == []
  {
  }

  /** Behind a text that lexes and ends its last line, anything lexes exactly when it lexes alone, to the tokens
      of both. */
  lemma LexConcat(a: string, b: string)
    requires a != "" && a[|a| - 1] == '\n' && LexOf(a).Some?
    ensures var x := LexOf(a).value; LexOf(a + b) == Prepend(x.tokens, x.bodies, LexOf(b))
  {
    hide Balanced;
    var r := a[..|a| - 1];
    assert a == r + "\n";
    RawConcat(r, b);
    var x := LexOf(a).value;
    if Raw(b).Some? {
      BalancedConcat(x.tokens, Raw(b).value.tokens);
    }
  }

  /** Names lose their quotes, so a name that is a bracket counts as one: a quoted `(` alone is refused, and
      closes with a real `)`. */
  lemma QuotedNameCounts()
    ensures LexOf("\"(\"") == None && LexOf("\"(\"" + ")").Some?
  {
    hide Raw, Balanced;
    OneAndTwo();
    RawEmpty();
    QuotedBracket("", []);
    assert "\"(\"" + "" == "\"(\"" && ["("] + [] == ["("];
    RawClose();
    QuotedBracket(")", [")"]);
    assert ["("] + [")"] == ["(", ")"];
  }

  lemma RawClose()
    ensures Raw(")") == Some(Tree([")"], []))
  {
    assert PieceOf(")") == Token(1, ")") && ")"[1..] == "";
    RawEmpty();
    RawStep(")");
    PrependLaws([")"], [], [], [], Some(Tree([], [])));
    assert [")"] + [] == [")"];
  }

  lemma OneAndTwo()
    ensures !Balanced(["("]) && Balanced(["(", ")"])
  {
    StackNext(["("], 0);
    StackNext(["(", ")"], 0);
    StackNext(["(", ")"], 1);
  }

  lemma QuotedBracket(z: string, ts: Stream)
    requires (z == "" || z[0] != '"') && Raw(z) == Some(Tree(ts, []))
    ensures Raw("\"(\"" + z) == Some(Tree(["("] + ts, []))
  {
    var t := "\"(\"" + z;
    assert t[1..][1..] == t[2..] && t[2..][0] == '"';
    assert QuoteEnd(t[2..], '"') == Some(1);
    assert t[1..2] == "(" && t[3..] == z;
    assert PieceOf(t) == Token(3, "(");
    hide PieceOf, Raw;
    RawStep(t);
    assert Raw(t) == Prepend(["("], [], Raw(z));
    assert [] + [] == BodiesOf(Token(3, "("));
  }
}
