/** The pieces of SQL text, kind by kind: comments however deeply nested, names in double quotes, and plain text. */
module ScannerPieces {
  import opened Text
  import opened Scanner
  import opened Fragments
  import Lexer

  // Block comments -------------------------------------------------------------------------------------

  /** What stands in a block comment: text without stars and slashes, and further comments. */
  datatype Remark = Note(text: string) | Inner(parts: seq<Remark>)

  predicate Readable(parts: seq<Remark>) {
    forall k | 0 <= k < |parts| :: ReadableOne(parts[k])
  }

  predicate ReadableOne(r: Remark) {
    match r
    case Note(text) => '*' !in text && '/' !in text
    case Inner(parts) => Readable(parts)
  }

  function Written(parts: seq<Remark>): string {
    if parts == [] then "" else WrittenOne(parts[0]) + Written(parts[1..])
  }

  function WrittenOne(r: Remark): string {
    match r
    case Note(text) => text
    case Inner(parts) => "/*" + Written(parts) + "*/"
  }

  lemma {:induction false} NoteInside(text: string, x: string, d: nat)
    requires '*' !in text && '/' !in text && d > 0
    ensures BlockEnd(text + x, d) == Plus(BlockEnd(x, d), |text|)
  {
    PlusLaws(BlockEnd(x, d), 0, 0);
    if text == "" {
      assert text + x == x;
    } else {
      assert (text + x)[1..] == text[1..] + x;
      NoteInside(text[1..], x, d);
      PlusLaws(BlockEnd(x, d), |text| - 1, 1);
    }
  }

  lemma {:induction false} RemarksInside(parts: seq<Remark>, x: string, d: nat)
    requires Readable(parts) && d > 0
    ensures BlockEnd(Written(parts) + x, d) == Plus(BlockEnd(x, d), |Written(parts)|)
    decreases parts
  {
    hide BlockEnd;
    PlusLaws(BlockEnd(x, d), 0, 0);
    if parts == [] {
      assert Written(parts) + x == x;
    } else {
      var y := Written(parts[1..]) + x;
      assert Written(parts) + x == WrittenOne(parts[0]) + y;
      assert ReadableOne(parts[0]) && Readable(parts[1..]);
      RemarkInside(parts[0], y, d);
      RemarksInside(parts[1..], x, d);
      PlusLaws(BlockEnd(x, d), |Written(parts[1..])|, |WrittenOne(parts[0])|);
    }
  }

  lemma {:induction false} RemarkInside(r: Remark, x: string, d: nat)
    requires ReadableOne(r) && d > 0
    ensures BlockEnd(WrittenOne(r) + x, d) == Plus(BlockEnd(x, d), |WrittenOne(r)|)
    decreases r
  {
    match r {
      case Note(text) => NoteInside(text, x, d);
      case Inner(parts) =>
        var y := "*/" + x;
        RemarksInside(parts, y, d + 1);
        OpenAndClose(Written(parts), x, d);
    }
  }

  lemma OpenAndClose(body: string, x: string, d: nat)
    requires d > 0 && BlockEnd(body + ("*/" + x), d + 1) == Plus(BlockEnd("*/" + x, d + 1), |body|)
    ensures BlockEnd("/*" + body + "*/" + x, d) == Plus(BlockEnd(x, d), |"/*" + body + "*/"|)
  {
    var t := "/*" + body + "*/" + x;
    assert t[2..] == body + ("*/" + x) && ("*/" + x)[2..] == x;
    assert BlockEnd(t, d) == Plus(BlockEnd(t[2..], d + 1), 2);
    assert BlockEnd("*/" + x, d + 1) == Plus(BlockEnd(x, d), 2);
    hide BlockEnd;
    PlusLaws(BlockEnd(x, d), 2, |body|);
    PlusLaws(BlockEnd(x, d), 2 + |body|, 2);
  }

  /** A block comment is one gap, down to its own end and no further, whatever is nested in it. */
  lemma CommentCut(parts: seq<Remark>, rest: string)
    requires Readable(parts)
    ensures var w := WrittenOne(Inner(parts)); CutOf(w + rest) == Gap(|w|)
    ensures var w := WrittenOne(Inner(parts)); Lexer.PieceOf(w + rest) == Lexer.Skip(|w|)
  {
    var w := "/*" + Written(parts) + "*/";
    var t := w + rest;
    RemarksInside(parts, "*/" + rest, 1);
    assert t[2..] == Written(parts) + ("*/" + rest);
    assert ("*/" + rest)[2..] == rest && BlockEnd("*/" + rest, 1) == Plus(BlockEnd(rest, 0), 2) == Some(2);
    hide BlockEnd, Written;
  }

  /** It leaves blanks in the statement around it, as long as itself, and no token. */
  lemma CommentGone(parts: seq<Remark>, rest: string, buf: string, line: nat)
    requires Readable(parts)
    ensures var w := WrittenOne(Inner(parts));
      && Run(w + rest, buf, line) == Run(rest, buf + Hide(w), line) && Blank(Hide(w)) && SameLines(Hide(w), w)
      && Lexer.Raw(w + rest) == Lexer.Raw(rest)
  {
    CommentCut(parts, rest);
    var w := WrittenOne(Inner(parts));
    assert (w + rest)[..|w|] == w && (w + rest)[|w|..] == rest && w != "";
    hide CutOf, Lexer.PieceOf, Written;
  }

  /** A line comment ends with its line. */
  lemma LineGone(text: string, rest: string, buf: string, line: nat)
    requires '\n' !in text
    ensures Run("--" + text + "\n" + rest, buf, line) == Run("\n" + rest, buf + Hide("--" + text), line)
    ensures Lexer.Raw("--" + text + "\n" + rest) == Lexer.Raw(rest)
  {
    var w := "--" + text;
    var t := w + ("\n" + rest);
    assert "--" + text + "\n" + rest == t;
    forall k | 0 <= k < |w|
      ensures t[k] != '\n'
    {
      assert t[k] == w[k] && (k >= 2 ==> w[k] == text[k - 2] && text[k - 2] in text);
    }
    assert t[|w|] == '\n' && LineEnd(t) == |w|;
    assert t[..|w|] == w && t[|w|..] == "\n" + rest && t[|w| + 1..] == rest;
    hide LineEnd;
  }

  // Names ----------------------------------------------------------------------------------------------

  /** A name in double quotes passes into the statement as it stands, whatever it holds. */
  lemma NamePasses(v: string, rest: string, buf: string, line: nat)
    requires '"' !in v && (rest == "" || rest[0] != '"')
    ensures Run("\"" + v + "\"" + rest, buf, line) == Run(rest, buf + ("\"" + v + "\""), line)
  {
    var w := "\"" + v + "\"";
    var t := w + rest;
    NameEnds(v, rest);
    assert t[1..] == v + "\"" + rest && t[..|w|] == w && t[|w|..] == rest;
    hide QuoteEnd;
    assert CutOf(t) == Code(|w|);
    hide CutOf;
  }

  lemma {:induction false} NameEnds(v: string, rest: string)
    requires '"' !in v && (rest == "" || rest[0] != '"')
    ensures QuoteEnd(v + "\"" + rest, '"') == Some(|v| + 1)
  {
    var t := v + "\"" + rest;
    if v == "" {
      assert t == "\"" + rest;
    } else {
      assert t[1..] == v[1..] + "\"" + rest;
      NameEnds(v[1..], rest);
    }
  }

  /** So does a quoted value. */
  lemma ValuePasses(v: string, rest: string, buf: string, line: nat)
    requires rest == "" || rest[0] != '\''
    ensures Run(Literal(v) + rest, buf, line) == Run(rest, buf + Literal(v), line)
  {
    LiteralScans(v, rest);
    hide Double, CutOf;
    OneCut(Literal(v), rest, buf, line);
  }

  /** So does a dollar body, up to the first return of its tag. */
  lemma BodyPasses(tag: string, text: string, rest: string, buf: string, line: nat)
    requires Sealed(tag, text)
    ensures Run(tag + text + tag + rest, buf, line) == Run(rest, buf + (tag + text + tag), line)
  {
    SealedCut(tag, text, rest);
    hide CutOf, Sealed;
    OneCut(tag + text + tag, rest, buf, line);
  }

  predicate TagName(w: string) {
    || w == ""
    || ((('a' <= w[0] <= 'z') || ('A' <= w[0] <= 'Z') || w[0] == '_') && forall i | 0 <= i < |w| :: IsWord(w[i]))
  }

  /** The tags are two dollar signs, alone or around a letter or underscore and further word characters. */
  lemma TagIff(w: string)
    ensures TagLen("$" + w + "$") == |w| + 2 <==> TagName(w)
  {
    var t := "$" + w + "$";
    if w != "" {
      assert t[1..] == w + "$" && t[1] == w[0];
      var n := WordLen(t[1..]);
      assert t[1..][|w|] == '$' && !IsWord('$');
      assert forall k | 0 <= k < |w| :: t[1..][k] == w[k];
      hide WordLen;
    }
  }
}
