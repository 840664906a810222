/** The migration builder: bounded SQL sources concatenated into one transaction. */
module Builder {
  import opened Text
  import opened Scanner

  datatype Result<+T> = Ok(value: T) | Err

  /** A SQL source as listed in the manifest; digest is the hexadecimal SHA-256 the script prints. */
  datatype Source = Source(path: string, digest: string, content: string)

  const GENERATED := "-- GENERATED by scripts/" + "maintenance/migrations/" + "build_academic_decommission.py"
  const EDIT := "-- Edit maintained academic_" + "decommission sources; retain all " + "applied migrations."

  /** `replace("\r\n", "\n")`. */
  function Unix(s: string): string {
    if s == "" then ""
    else if Two(s, '\r', '\n') then "\n" + Unix(s[2..])
    else [s[0]] + Unix(s[1..])
  }

  /** The characters at which `splitlines` ends a line. */
  predicate IsBreak(c: char) {
    var n := c as int;
    0x0A <= n <= 0x0D || 0x1C <= n <= 0x1E || n == 0x85 || n == 0x2028 || n == 0x2029
  }

  /** `len(s.splitlines())`; open says that an unfinished line precedes s. */
  function LineCount(s: string, open: bool): nat {
    if s == "" then if open then 1 else 0
    else if Two(s, '\r', '\n') then 1 + LineCount(s[2..], false)
    else if IsBreak(s[0]) then 1 + LineCount(s[1..], false)
    else LineCount(s[1..], true)
  }

  /** `\s*$` in multi-line mode matches at the head of s. */
  predicate EndsLine(s: string) {
    s == "" || s[0] == '\n' || (IsSpace(s[0]) && EndsLine(s[1..]))
  }

  predicate Outer(s: string) {
    || ("BEGIN;" <= s && EndsLine(s[6..]))
    || ("COMMIT;" <= s && EndsLine(s[7..]))
    || ("ROLLBACK;" <= s && EndsLine(s[9..]))
  }

  /** The search for a line `BEGIN;`, `COMMIT;` or `ROLLBACK;`; start says s starts a line. */
  predicate HasOuter(s: string, start: bool) {
    s != "" && ((start && Outer(s)) || HasOuter(s[1..], s[0] == '\n'))
  }

  predicate Accepts(s: Source) {
    LineCount(Unix(s.content), false) <= 250 && !HasOuter(Unix(s.content), true)
  }

  function Header(s: Source): string {
    "\n-- SOURCE " + s.path + " sha256=" + s.digest
  }

  function Block(s: Source): string {
    Header(s) + "\n" + TrimRight(Unix(s.content)) + "\n"
  }

  function Blocks(sources: seq<Source>): string {
    if sources == [] then "" else Block(sources[0]) + Blocks(sources[1..])
  }

  function Opening(): string {
    GENERATED + "\n" + EDIT + "\n" + "BEGIN;" + "\n"
  }

  function Migration(sources: seq<Source>): string {
    Opening() + Blocks(sources) + "COMMIT;\n"
  }

  predicate Distinct(sources: seq<Source>) {
    forall i, j | 0 <= i < j < |sources| :: sources[i].path != sources[j].path
  }

  predicate Buildable(sources: seq<Source>) {
    && sources != [] && Distinct(sources)
    && forall k | 0 <= k < |sources| :: Accepts(sources[k])
  }

  /** `"\n".join(parts)`. */
  function JoinLines(parts: seq<string>): string
    requires parts != []
  {
    if |parts| == 1 then parts[0] else JoinLines(parts[..|parts| - 1]) + "\n" + parts[|parts| - 1]
  }

  /** `render`, growing the list of parts source by source. */
  method Render(sources: seq<Source>) returns (r: Result<string>)
    ensures r == if Buildable(sources) then Ok(Migration(sources)) else Err
  {
    if sources == [] || !Distinct(sources) { return Err; }
    var parts := [GENERATED, EDIT, "BEGIN;"];
    Started(sources);
    hide JoinLines, Opening, Blocks, Block, Header, Migration, HasOuter, LineCount, Unix, TrimRight, Distinct;
    for i := 0 to |sources|
      invariant parts != []
      invariant forall k | 0 <= k < i :: Accepts(sources[k])
      invariant JoinLines(parts) + "\n" == Opening() + Blocks(sources[..i])
    {
      var s := sources[i];
      var content := Unix(s.content);
      if LineCount(content, false) > 250 { return Err; }
      if HasOuter(content, true) { return Err; }
      Appended(sources, i, parts);
      parts := parts + [Header(s), TrimRight(content)];
    }
    Finished(sources, parts);
    return Ok(JoinLines(parts + ["COMMIT;", ""]));
  }

  lemma JoinThree(a: string, b: string, c: string)
    ensures JoinLines([a, b, c]) + "\n" == a + "\n" + b + "\n" + c + "\n"
  {
    JoinMore([a], b);
    JoinMore([a, b], c);
    assert [a] + [b] == [a, b] && [a, b] + [c] == [a, b, c];
  }

  lemma JoinTwo(parts: seq<string>, a: string, b: string)
    requires parts != []
    ensures JoinLines(parts + [a, b]) + "\n" == JoinLines(parts) + "\n" + (a + "\n" + b + "\n")
  {
    JoinMore(parts, a);
    JoinMore(parts + [a], b);
    assert parts + [a] + [b] == parts + [a, b];
  }

  lemma Started(sources: seq<Source>)
    ensures JoinLines([GENERATED, EDIT, "BEGIN;"]) + "\n" == Opening() + Blocks(sources[..0])
  {
    JoinThree(GENERATED, EDIT, "BEGIN;");
  }

  lemma Appended(sources: seq<Source>, i: nat, parts: seq<string>)
    requires i < |sources| && parts != []
    requires JoinLines(parts) + "\n" == Opening() + Blocks(sources[..i])
    ensures var s := sources[i];
      JoinLines(parts + [Header(s), TrimRight(Unix(s.content))]) + "\n" == Opening() + Blocks(sources[..i + 1])
  {
    hide JoinLines, Opening, Blocks, Header, Unix, TrimRight;
    var s := sources[i];
    JoinTwo(parts, Header(s), TrimRight(Unix(s.content)));
    BlocksMore(sources[..i], s);
    assert sources[..i + 1] == sources[..i] + [s];
    assert Opening() + (Blocks(sources[..i]) + Block(s)) == Opening() + Blocks(sources[..i]) + Block(s);
  }

  lemma Finished(sources: seq<Source>, parts: seq<string>)
    requires parts != [] && JoinLines(parts) + "\n" == Opening() + Blocks(sources[..|sources|])
    ensures JoinLines(parts + ["COMMIT;", ""]) == Migration(sources)
  {
    hide JoinLines, Opening, Blocks;
    JoinTwo(parts, "COMMIT;", "");
    assert sources[..|sources|] == sources;
    LastNewline(JoinLines(parts + ["COMMIT;", ""]), Migration(sources), Opening() + Blocks(sources));
  }

  lemma LastNewline(j: string, m: string, t: string)
    requires j + "\n" == t + ("COMMIT;" + "\n" + "" + "\n") && m == t + "COMMIT;\n"
    ensures j == m
  {
    assert "COMMIT;" + "\n" + "" + "\n" == "COMMIT;\n" + "\n";
    assert j + "\n" == m + "\n";
    assert (j + "\n")[..|j|] == (m + "\n")[..|m|];
  }

  lemma JoinMore(parts: seq<string>, p: string)
    requires parts != []
    ensures JoinLines(parts + [p]) == JoinLines(parts) + "\n" + p
  {
    assert (parts + [p])[..|parts|] == parts;
  }

  lemma {:induction false} BlocksMore(a: seq<Source>, s: Source)
    ensures Blocks(a + [s]) == Blocks(a) + Block(s)
  {
    if a == [] {
      assert ([] + [s])[1..] == [];
    } else {
      assert (a + [s])[1..] == a[1..] + [s];
      BlocksMore(a[1..], s);
    }
  }
}
