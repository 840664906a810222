/**
 Statements as the database server cuts them, after section 4.1 "Lexical Structure" of the PostgreSQL documentation:
 an E in front of a quote makes backslashes escape, names may hold dollar signs, and a carriage return ends a comment.
 The scanner knows none of this; here is when the two agree nevertheless.
 */
module ServerScan {
  import opened Text
  import opened Scanner
  import Lexer

  /** What the server remembers of the text before: whether it is inside a name, and whether that is only an E so far;
      whether it is behind an escape string, which another quote continues after a line break. */
  datatype Mode = Between | InName(alone: bool) | BehindEscape(newline: bool)

  predicate StartsName(c: char) {
    IsLetter(c) || c as int >= 0x80
  }

  /** A character of a dollar tag behind its first. */
  predicate TagChar(c: char) {
    IsWord(c) || c as int >= 0x80
  }

  predicate ContinuesName(c: char) {
    TagChar(c) || c == '$'
  }

  predicate ServerSpace(c: char) {
    c == ' ' || 0x09 <= c as int <= 0x0D
  }

  /** The next quote begins or continues an escape string. */
  predicate Escapes(m: Mode) {
    m == InName(true) || m == BehindEscape(true)
  }

  function BehindChar(c: char, m: Mode): Mode {
    if ContinuesName(c) && (m.InName? || StartsName(c)) then InName(!m.InName? && (c == 'e' || c == 'E'))
    else if ServerSpace(c) && m.BehindEscape? then BehindEscape(m.newline || c == '\n' || c == '\r')
    else Between
  }

  /** Behind the first n characters of t, if they belong together. */
  function Behind(t: string, n: nat, m: Mode): Mode
    requires t != ""
  {
    if t[0] == '\'' then if Escapes(m) then BehindEscape(false) else Between
    else if n > 1 then Between
    else BehindChar(t[0], m)
  }

  function BehindGap(t: string, m: Mode): Mode {
    if Two(t, '-', '-') && m.BehindEscape? then m else Between
  }

  function CommentEnd(t: string): (n: nat)
    ensures n <= |t|
  {
    if t == "" || t[0] == '\n' || t[0] == '\r' then 0 else 1 + CommentEnd(t[1..])
  }

  function TagRun(t: string): (n: nat)
    ensures n <= |t|
  {
    if t == "" || !TagChar(t[0]) then 0 else 1 + TagRun(t[1..])
  }

  /** Length of the dollar tag at the head of t, whose letters need not be ASCII. */
  function ServerTag(t: string): (n: nat)
    ensures n <= |t| && n != 1
  {
    if |t| < 2 || t[0] != '$' then 0
    else if t[1] == '$' then 2
    else if !StartsName(t[1]) then 0
    else
      var k := 1 + TagRun(t[1..]);
      if k < |t| && t[k] == '$' then k + 1 else 0
  }

  function Quotation(end: Option<nat>): Cut {
    match end case None => Broken case Some(n) => Code(n + 1)
  }

  function ServerCut(t: string, m: Mode): (c: Cut)
    requires t != ""
    ensures c.Gap? || c.Code? ==> 0 < c.n <= |t|
  {
    if Two(t, '-', '-') then Gap(2 + CommentEnd(t[2..]))
    else if t[0] == '\'' && Escapes(m) then Quotation(Lexer.EscapeEnd(t[1..]))
    else if t[0] == '$' then
      var k := if m.InName? then 0 else ServerTag(t);
      if k == 0 then Code(1)
      else match Find(t[k..], t[..k]) case None => Broken case Some(p) => Code(k + p + k)
    else CutOf(t)
  }

  /** The statements the server finds, with the same text and lines the scanner would give them. */
  function Server(t: string, buf: string, line: nat, m: Mode): Option<seq<Stmt>>
    decreases |t|
  {
    if t == "" then if Blank(buf) then Some([]) else None
    else match ServerCut(t, m)
      case Broken => None
      case Stop => Join(Emit(buf, line), Server(t[1..], "", line + Newlines(buf), Between))
      case Gap(n) => Server(t[n..], buf + Hide(t[..n]), line, BehindGap(t, m))
      case Code(n) => Server(t[n..], buf + t[..n], line, Behind(t, n, m))
  }

  function ServerStatements(t: string): Option<seq<Stmt>> {
    Server(t, "", 0, Between)
  }

  // Where both read the same ---------------------------------------------------------------------------

  /** No carriage return in a line comment, no escape string that closes elsewhere for the server, and no dollar tag
      that the server sees inside a name or sees differently. */
  predicate Alike(t: string, m: Mode)
    requires t != ""
  {
    if Two(t, '-', '-') then '\r' !in t[..LineEnd(t)]
    else if t[0] == '\'' then Escapes(m) ==> Lexer.EscapeEnd(t[1..]) == QuoteEnd(t[1..], '\'')
    else if t[0] == '$' then TagLen(t) == if m.InName? then 0 else ServerTag(t)
    else true
  }

  lemma {:induction false} CommentEndIs(t: string)
    ensures CommentEnd(t) <= LineEnd(t)
    ensures CommentEnd(t) == LineEnd(t) <==> '\r' !in t[..LineEnd(t)]
  {
    if t != "" && t[0] != '\n' {
      CommentEndIs(t[1..]);
      assert t[..LineEnd(t)] == [t[0]] + t[1..][..LineEnd(t[1..])];
    }
  }

  /** At the head of a text both cut alike exactly under that condition. */
  lemma SameCutIff(t: string, m: Mode)
    requires t != ""
    ensures ServerCut(t, m) == CutOf(t) <==> Alike(t, m)
  {
    hide Find, ServerTag, QuoteEnd, LineEnd, CommentEnd, TagLen;
    if Two(t, '-', '-') {
      SameComment(t);
    } else if t[0] == '$' {
      SameTag(t, m);
    }
  }

  lemma SameComment(t: string)
    requires Two(t, '-', '-')
    ensures 2 + CommentEnd(t[2..]) == LineEnd(t) <==> '\r' !in t[..LineEnd(t)]
  {
    CommentEndIs(t);
    assert CommentEnd(t) == 1 + CommentEnd(t[1..]) && t[1..][1..] == t[2..];
  }

  lemma SameTag(t: string, m: Mode)
    requires t != "" && t[0] == '$'
    ensures ServerCut(t, m) == CutOf(t) <==> TagLen(t) == if m.InName? then 0 else ServerTag(t)
  {
    TagIsServers(t);
    hide Find, TagLen, ServerTag;
  }

  lemma {:induction false} WordRun(t: string)
    ensures WordLen(t) <= TagRun(t) && (WordLen(t) < |t| && t[WordLen(t)] == '$' ==> TagRun(t) == WordLen(t))
  {
    if t != "" {
      WordRun(t[1..]);
    }
  }

  /** A tag of the scanner is one of the server, unless it stands in a name. */
  lemma TagIsServers(t: string)
    ensures TagLen(t) > 0 ==> ServerTag(t) == TagLen(t)
  {
    if |t| >= 2 {
      WordRun(t[1..]);
      var k := 1 + WordLen(t[1..]);
      assert k < |t| ==> t[k] == t[1..][k - 1];
    }
  }

  /** Both cut alike from here to the end of the text, or to where nothing closes any more. */
  predicate Understood(t: string, m: Mode)
    decreases |t|
  {
    t == "" || (Alike(t, m) &&
      match CutOf(t)
      case Broken => true
      case Stop => Understood(t[1..], Between)
      case Gap(n) => Understood(t[n..], BehindGap(t, m))
      case Code(n) => Understood(t[n..], Behind(t, n, m)))
  }

  /** Then server and scanner find the same statements. */
  lemma {:induction false} SameStatements(t: string, buf: string, line: nat, m: Mode)
    requires Understood(t, m)
    ensures Server(t, buf, line, m) == Run(t, buf, line)
    decreases |t|
  {
    hide CutOf, ServerCut, Alike, Emit, Blank, Newlines, Behind, BehindGap;
    if t != "" {
      SameCutIff(t, m);
      match CutOf(t) {
        case Broken =>
        case Stop => SameStatements(t[1..], "", line + Newlines(buf), Between);
        case Gap(n) => SameStatements(t[n..], buf + Hide(t[..n]), line, BehindGap(t, m));
        case Code(n) => SameStatements(t[n..], buf + t[..n], line, Behind(t, n, m));
      }
    }
  }

  lemma {:induction false} NoEscapes(t: string)
    requires '\\' !in t
    ensures Lexer.EscapeEnd(t) == QuoteEnd(t, '\'')
  {
    if t != "" {
      NoEscapes(t[1..]);
      if |t| >= 2 {
        NoEscapes(t[2..]);
      }
    }
  }

  /** A text without backslashes, dollar signs and carriage returns is always understood. */
  lemma {:induction false} PlainUnderstood(t: string, m: Mode)
    requires '\\' !in t && '$' !in t && '\r' !in t
    ensures Understood(t, m)
    decreases |t|
  {
    if t != "" {
      if t[0] == '\'' {
        NoEscapes(t[1..]);
      }
      hide Lexer.EscapeEnd, QuoteEnd, TagLen, Find, Behind, BehindGap;
      match CutOf(t) {
        case Broken =>
        case Stop => PlainUnderstood(t[1..], Between);
        case Gap(n) => PlainUnderstood(t[n..], BehindGap(t, m));
        case Code(n) => PlainUnderstood(t[n..], Behind(t, n, m));
      }
    }
  }
}
