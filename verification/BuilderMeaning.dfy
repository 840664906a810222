/** What the builder accepts and writes, told by the characters of the sources. */
module BuilderMeaning {
  import opened Text
  import opened Builder

  // Line ends ----------------------------------------------------------------------------------------

  /** Somewhere a carriage return stands before a newline. */
  predicate Paired(s: string) {
    exists i | 0 <= i < |s| - 1 :: s[i] == '\r' && s[i + 1] == '\n'
  }

  /** Every carriage return before a newline is dropped, from the first on, and nothing else. */
  lemma {:induction false} UnixLines(a: string, b: string)
    requires !Paired(a)
    ensures Unix(a) == a && Unix(a + "\r\n" + b) == a + "\n" + Unix(b)
  {
    var t := a + "\r\n" + b;
    if a == "" {
      assert t[2..] == b;
    } else {
      assert t[1..] == a[1..] + "\r\n" + b;
      forall i | 0 <= i < |a[1..]| - 1
        ensures !(a[1..][i] == '\r' && a[1..][i + 1] == '\n')
      {
        assert a[1..][i] == a[i + 1] && a[1..][i + 1] == a[i + 2];
      }
      UnixLines(a[1..], b);
      assert |a| >= 2 ==> !(a[0] == '\r' && a[0 + 1] == '\n');
      assert [a[0]] + a[1..] == a;
      assert [a[0]] + (a[1..] + "\n" + Unix(b)) == a + "\n" + Unix(b);
    }
  }

  /** What ends a line: a carriage return with a newline, or one character unless it is the first half of that pair. */
  predicate EndOfLine(z: string, rest: string) {
    || z == "\r\n"
    || (|z| == 1 && z[0] in "\n\r" + [0x0B as char, 0x0C as char, 0x1C as char, 0x1D as char, 0x1E as char]
                            + [0x85 as char, 0x2028 as char, 0x2029 as char]
        && !(z[0] == '\r' && rest != "" && rest[0] == '\n'))
  }

  predicate WithinLine(s: string) {
    forall i | 0 <= i < |s| :: !EndOfLine([s[i]], "")
  }

  lemma BreaksAre(c: char, rest: string)
    ensures EndOfLine([c], rest) <==> IsBreak(c) && !(c == '\r' && rest != "" && rest[0] == '\n')
  {
  }

  /** A line counts once, whether it is ended or only begun. */
  lemma {:induction false} LineCounts(s: string, z: string, rest: string, open: bool)
    requires WithinLine(s) && EndOfLine(z, rest)
    ensures LineCount(s, open) == if s == "" && !open then 0 else 1
    ensures LineCount(s + z + rest, open) == 1 + LineCount(rest, false)
  {
    var t := s + z + rest;
    if s == "" {
      assert t == z + rest && t[|z|..] == rest;
      if z != "\r\n" {
        BreaksAre(z[0], rest);
        assert t[0] == z[0] && (rest != "" ==> t[1] == rest[0]);
      }
      hide IsBreak;
    } else {
      assert t[1..] == s[1..] + z + rest && t[0] == s[0];
      BreaksAre(s[0], "");
      hide IsBreak;
      assert WithinLine(s[1..]) by {
        hide EndOfLine;
      }
      hide EndOfLine, WithinLine;
      LineCounts(s[1..], z, rest, true);
    }
  }

  // Transaction lines --------------------------------------------------------------------------------

  /** From m on there is only whitespace up to the end of the line. */
  predicate BlankToEnd(s: string, m: nat) {
    exists j | m <= j <= |s| :: (j == |s| || s[j] == '\n') && Blank(s[m..j])
  }

  lemma {:induction false} EndsLineIff(s: string)
    ensures EndsLine(s) <==> BlankToEnd(s, 0)
  {
    hide IsSpace;
    if s == "" || s[0] == '\n' {
      assert Blank(s[0..0]);
    } else {
      EndsLineIff(s[1..]);
      if EndsLine(s) {
        var j :| 0 <= j <= |s[1..]| && (j == |s[1..]| || s[1..][j] == '\n') && Blank(s[1..][0..j]);
        assert s[0..j + 1] == [s[0]] + s[1..][0..j];
        assert Blank(s[0..j + 1]);
      }
      if BlankToEnd(s, 0) {
        var j :| 0 <= j <= |s| && (j == |s| || s[j] == '\n') && Blank(s[0..j]);
        assert j > 0;
        assert s[0..j][0] == s[0];
        assert s[1..][0..j - 1] == s[0..j][1..];
        assert Blank(s[1..][0..j - 1]);
      }
    }
  }

  /** A line that says only that a transaction begins or ends. */
  predicate TransactionLine(s: string, k: nat, w: string) {
    && (w == "BEGIN;" || w == "COMMIT;" || w == "ROLLBACK;")
    && k + |w| <= |s| && s[k..k + |w|] == w && (k == 0 || s[k - 1] == '\n') && BlankToEnd(s, k + |w|)
  }

  lemma BlankFrom(s: string, m: nat)
    requires m <= |s|
    ensures BlankToEnd(s, m) <==> EndsLine(s[m..])
  {
    EndsLineIff(s[m..]);
    hide EndsLine;
    if BlankToEnd(s, m) {
      var j :| m <= j <= |s| && (j == |s| || s[j] == '\n') && Blank(s[m..j]);
      assert s[m..][0..j - m] == s[m..j];
      assert Blank(s[m..][0..j - m]);
    }
    if BlankToEnd(s[m..], 0) {
      var j :| 0 <= j <= |s[m..]| && (j == |s[m..]| || s[m..][j] == '\n') && Blank(s[m..][0..j]);
      assert s[m..][0..j] == s[m..m + j];
      assert Blank(s[m..m + j]) && (m + j == |s| || s[m + j] == '\n');
    }
  }

  predicate LineHead(s: string, k: nat, start: bool) {
    if k == 0 then start else k <= |s| && s[k - 1] == '\n'
  }

  predicate OuterLine(s: string, k: nat) {
    k < |s| && Outer(s[k..])
  }

  lemma {:induction false} HasOuterIff(s: string, start: bool)
    ensures HasOuter(s, start) <==> exists k: nat :: OuterLine(s, k) && LineHead(s, k, start)
  {
    hide Outer;
    if s != "" {
      HasOuterIff(s[1..], s[0] == '\n');
      assert s[0..] == s;
      if start && Outer(s) {
        assert OuterLine(s, 0) && LineHead(s, 0, start);
      } else if HasOuter(s[1..], s[0] == '\n') {
        var k: nat :| OuterLine(s[1..], k) && LineHead(s[1..], k, s[0] == '\n');
        assert s[1..][k..] == s[k + 1..];
        assert OuterLine(s, k + 1) && LineHead(s, k + 1, start);
      }
      if k: nat :| OuterLine(s, k) && LineHead(s, k, start) {
        if k > 0 {
          assert s[1..][k - 1..] == s[k..];
          assert OuterLine(s[1..], k - 1) && LineHead(s[1..], k - 1, s[0] == '\n');
        }
      }
    }
  }

  lemma WordLine(s: string, k: nat, w: string)
    requires k <= |s|
    ensures (w <= s[k..] && EndsLine(s[k..][|w|..]))
      <==> k + |w| <= |s| && s[k..k + |w|] == w && BlankToEnd(s, k + |w|)
  {
    hide EndsLine, BlankToEnd;
    if k + |w| <= |s| {
      assert s[k..][|w|..] == s[k + |w|..] && s[k..][..|w|] == s[k..k + |w|];
      BlankFrom(s, k + |w|);
    }
  }

  lemma OuterLineIff(s: string, k: nat)
    requires k < |s| && (k == 0 || s[k - 1] == '\n')
    ensures OuterLine(s, k) <==> exists w :: TransactionLine(s, k, w)
  {
    WordLine(s, k, "BEGIN;");
    WordLine(s, k, "COMMIT;");
    WordLine(s, k, "ROLLBACK;");
    hide EndsLine, BlankToEnd;
    if OuterLine(s, k) {
      assert TransactionLine(s, k, "BEGIN;") || TransactionLine(s, k, "COMMIT;") || TransactionLine(s, k, "ROLLBACK;");
    }
  }

  /** A source is accepted exactly when it has at most 250 lines and none of them is a transaction line. */
  lemma AcceptsIff(source: Source)
    ensures var s := Unix(source.content);
      Accepts(source) <==> LineCount(s, false) <= 250 && !exists k: nat, w :: TransactionLine(s, k, w)
  {
    var s := Unix(source.content);
    HasOuterIff(s, true);
    hide Outer, HasOuter, LineCount, BlankToEnd, Unix;
    if k: nat :| OuterLine(s, k) && LineHead(s, k, true) {
      OuterLineIff(s, k);
    }
    if k: nat, w :| TransactionLine(s, k, w) {
      OuterLineIff(s, k);
      assert OuterLine(s, k) && LineHead(s, k, true);
    }
  }

  // The migration ------------------------------------------------------------------------------------

  /** What stands for one source: a comment line with its path and digest, and its text without trailing whitespace. */
  function Entry(path: string, digest: string, text: string): string {
    "\n" + "-- SOURCE " + path + " sha256=" + digest + "\n" + text + "\n"
  }

  /** The text is the source's up to its trailing whitespace. */
  predicate TextOf(source: Source, text: string) {
    var s := Unix(source.content);
    text <= s && Blank(s[|text|..]) && (text != "" ==> !IsSpace(text[|text| - 1]))
  }

  predicate EntryAt(migration: string, source: Source, text: string, a: nat, b: nat) {
    a < b <= |migration| && TextOf(source, text) && migration[a..b] == Entry(source.path, source.digest, text)
  }

  /** Entry after entry, each from where the former ends. */
  predicate Written(migration: string, sources: seq<Source>, starts: seq<nat>, texts: seq<string>) {
    && |texts| == |sources| && |starts| == |sources| + 1
    && (forall k | 0 <= k <= |sources| :: starts[k] <= |migration|)
    && forall k | 0 <= k < |sources| :: EntryAt(migration, sources[k], texts[k], starts[k], starts[k + 1])
  }

  lemma OneEntry(source: Source)
    ensures TextOf(source, TrimRight(Unix(source.content)))
    ensures Block(source) == Entry(source.path, source.digest, TrimRight(Unix(source.content))) != ""
  {
    assert "\n-- SOURCE " == "\n" + "-- SOURCE ";
    hide Unix;
  }

  lemma EntryStays(a: string, z: string, source: Source, text: string, i: nat, j: nat)
    requires EntryAt(a, source, text, i, j)
    ensures EntryAt(a + z, source, text, i, j)
  {
    assert (a + z)[i..j] == a[i..j];
  }

  lemma EntryLast(a: string, source: Source, text: string)
    requires TextOf(source, text)
    ensures var m := a + Entry(source.path, source.digest, text); EntryAt(m, source, text, |a|, |m|)
  {
    hide TextOf;
    var b := Entry(source.path, source.digest, text);
    assert (a + b)[|a|..|a + b|] == b;
  }

  lemma WrittenMore(a: string, sources: seq<Source>, starts: seq<nat>, texts: seq<string>, s: Source, text: string)
    requires Written(a, sources, starts, texts) && starts[|sources|] == |a| && TextOf(s, text)
    ensures var m := a + Entry(s.path, s.digest, text);
      Written(m, sources + [s], starts + [|m|], texts + [text])
  {
    var b := Entry(s.path, s.digest, text);
    EntryLast(a, s, text);
    hide TextOf, Entry, EntryAt;
    forall k | 0 <= k < |sources|
      ensures EntryAt(a + b, sources[k], texts[k], starts[k], starts[k + 1])
    {
      EntryStays(a, b, sources[k], texts[k], starts[k], starts[k + 1]);
    }
  }

  lemma NothingWritten(head: string)
    ensures head + Blocks([]) == head && Written(head, [], [|head|], [])
  {
    assert head + "" == head;
  }

  lemma BlocksLast(head: string, p: seq<Source>, s: Source)
    ensures head + Blocks(p + [s]) == head + Blocks(p) + Block(s)
  {
    BlocksMore(p, s);
    hide Blocks, Block;
    assert head + (Blocks(p) + Block(s)) == head + Blocks(p) + Block(s);
  }

  lemma {:induction false} BlocksWritten(head: string, sources: seq<Source>)
    returns (starts: seq<nat>, texts: seq<string>)
    ensures Written(head + Blocks(sources), sources, starts, texts)
    ensures starts[0] == |head| && starts[|sources|] == |head + Blocks(sources)|
  {
    if sources == [] {
      NothingWritten(head);
      starts, texts := [|head|], [];
    } else {
      var p, s := sources[..|sources| - 1], sources[|sources| - 1];
      assert p + [s] == sources;
      starts, texts := BlocksWritten(head, p);
      var text := TrimRight(Unix(s.content));
      OneEntry(s);
      BlocksLast(head, p, s);
      hide *;
      WrittenSize(head + Blocks(p), p, starts, texts);
      WrittenMore(head + Blocks(p), p, starts, texts, s, text);
      LastOf(starts, |head + Blocks(sources)|);
      texts := texts + [text];
      starts := starts + [|head + Blocks(sources)|];
    }
  }

  lemma WrittenSize(m: string, sources: seq<Source>, starts: seq<nat>, texts: seq<string>)
    requires Written(m, sources, starts, texts)
    ensures |starts| == |sources| + 1
  {
  }

  lemma LastOf(starts: seq<nat>, n: nat)
    ensures (starts + [n])[|starts|] == n
    ensures |starts| > 0 ==> (starts + [n])[0] == starts[0]
  {
  }

  /** The migration is the opening, then one entry per source in order with nothing between them, then the final
      COMMIT. */
  lemma SourcesWritten(sources: seq<Source>) returns (starts: seq<nat>, texts: seq<string>)
    ensures var m := Migration(sources);
      && Written(m, sources, starts, texts)
      && m[..starts[0]] == GENERATED + "\n" + EDIT + "\nBEGIN;\n" && m[starts[|sources|]..] == "COMMIT;\n"
  {
    starts, texts := BlocksWritten(Opening(), sources);
    OpeningIs();
    WrittenBefore(Opening() + Blocks(sources), "COMMIT;\n", sources, starts, texts);
    WrittenSize(Opening() + Blocks(sources), sources, starts, texts);
    hide Opening, Blocks, Written;
    Ends(Opening(), Blocks(sources), "COMMIT;\n");
  }

  lemma Ends(a: string, b: string, z: string)
    ensures (a + b + z)[..|a|] == a && (a + b + z)[|a + b|..] == z
  {
  }

  lemma OpeningIs()
    ensures Opening() == GENERATED + "\n" + EDIT + "\nBEGIN;\n"
  {
    assert "\nBEGIN;\n" == "\n" + "BEGIN;" + "\n";
  }

  lemma WrittenBefore(a: string, z: string, sources: seq<Source>, starts: seq<nat>, texts: seq<string>)
    requires Written(a, sources, starts, texts)
    ensures Written(a + z, sources, starts, texts)
  {
    hide EntryAt;
    forall k | 0 <= k < |sources|
      ensures EntryAt(a + z, sources[k], texts[k], starts[k], starts[k + 1])
    {
      EntryStays(a, z, sources[k], texts[k], starts[k], starts[k + 1]);
    }
  }
}
