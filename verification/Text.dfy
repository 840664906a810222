/** Strings as the scripts see them: whitespace, newline counting, stripping and searching. */
module Text {

  datatype Option<+T> = None | Some(value: T)

  /** The characters Python's `str.isspace` and `\s` accept. */
  predicate IsSpace(c: char) {
    var n := c as int;
    || 0x09 <= n <= 0x0D || 0x1C <= n <= 0x20 || n == 0x85 || n == 0xA0 || n == 0x1680
    || 0x2000 <= n <= 0x200A || n == 0x2028 || n == 0x2029 || n == 0x202F || n == 0x205F || n == 0x3000
  }

  predicate Blank(s: string) {
    forall i | 0 <= i < |s| :: IsSpace(s[i])
  }

  lemma BlankConcat(a: string, b: string)
    ensures Blank(a + b) <==> Blank(a) && Blank(b)
  {
    assert forall i | 0 <= i < |a| :: a[i] == (a + b)[i];
    assert forall i | 0 <= i < |b| :: b[i] == (a + b)[|a| + i];
  }

  /** Number of newlines in s. */
  function Newlines(s: string): nat {
    if s == "" then 0 else (if s[0] == '\n' then 1 else 0) + Newlines(s[1..])
  }

  lemma {:induction false} NewlinesConcat(a: string, b: string)
    ensures Newlines(a + b) == Newlines(a) + Newlines(b)
  {
    if a == "" {
      assert a + b == b;
    } else {
      assert (a + b)[1..] == a[1..] + b;
      NewlinesConcat(a[1..], b);
    }
  }

  /** Two texts of the same length whose newlines stand at the same places. */
  predicate SameLines(a: string, b: string) {
    |a| == |b| && forall k | 0 <= k < |a| :: a[k] == '\n' <==> b[k] == '\n'
  }

  lemma {:induction false} SameLinesCount(a: string, b: string)
    requires SameLines(a, b)
    ensures Newlines(a) == Newlines(b)
  {
    if a != "" {
      SameLinesCount(a[1..], b[1..]);
    }
  }

  /** Length of the leading whitespace of s. */
  function Lead(s: string): (n: nat)
    ensures n <= |s| && Blank(s[..n]) && (n < |s| ==> !IsSpace(s[n]))
  {
    if s == "" || !IsSpace(s[0]) then 0 else
      assert s[..1 + Lead(s[1..])] == [s[0]] + s[1..][..Lead(s[1..])];
      1 + Lead(s[1..])
  }

  function TrimRight(s: string): (r: string)
    ensures r <= s && Blank(s[|r|..]) && (r != "" ==> !IsSpace(r[|r| - 1]))
  {
    if s == "" || !IsSpace(s[|s| - 1]) then s else
      var r := TrimRight(s[..|s| - 1]);
      assert s[|r|..] == s[..|s| - 1][|r|..] + [s[|s| - 1]];
      r
  }

  function Strip(s: string): string {
    TrimRight(s[Lead(s)..])
  }

  /** The stripped text is pinned down by its surroundings. */
  lemma StripUnique(s: string, a: string, m: string, z: string)
    requires s == a + m + z && Blank(a) && Blank(z) && m != ""
    requires !IsSpace(m[0]) && !IsSpace(m[|m| - 1])
    ensures Lead(s) == |a| && Strip(s) == m
  {
    var n := Lead(s);
    assert s[|a|] == m[0];
    assert forall k | 0 <= k < |a| :: s[k] == a[k] && IsSpace(s[k]);
    assert forall k | 0 <= k < n :: s[k] == s[..n][k] && IsSpace(s[k]);
    assert n == |a|;
    var u := s[n..];
    assert u == m + z;
    TrimIs(u, m, z);
  }

  lemma {:induction false} TrimIs(u: string, m: string, z: string)
    requires u == m + z && Blank(z) && m != "" && !IsSpace(m[|m| - 1])
    ensures TrimRight(u) == m
  {
    if z == "" {
      assert u == m;
    } else {
      assert u[|u| - 1] == z[|z| - 1];
      assert u[..|u| - 1] == m + z[..|z| - 1];
      TrimIs(u[..|u| - 1], m, z[..|z| - 1]);
    }
  }

  /** Index of the first occurrence of pat in t. */
  function Find(t: string, pat: string): (r: Option<nat>)
    ensures r.Some? ==> r.value + |pat| <= |t| && pat <= t[r.value..]
    ensures r.Some? ==> forall k | 0 <= k < r.value :: !(pat <= t[k..])
    ensures r.None? ==> forall k | 0 <= k <= |t| :: !(pat <= t[k..])
  {
    if pat <= t then Some(0)
    else if t == "" then None
    else match Find(t[1..], pat)
      case None =>
        assert forall k | 1 <= k <= |t| :: t[k..] == t[1..][k - 1..];
        None
      case Some(k) =>
        assert t[k + 1..] == t[1..][k..];
        assert forall j | 1 <= j < k + 1 :: t[j..] == t[1..][j - 1..];
        Some(k + 1)
  }

  lemma FindIs(t: string, pat: string, k: nat)
    requires k + |pat| <= |t| && pat <= t[k..]
    requires forall j | 0 <= j < k :: !(pat <= t[j..])
    ensures Find(t, pat) == Some(k)
  {
  }

  predicate Contains(t: string, pat: string) {
    Find(t, pat).Some?
  }

  predicate EndsWith(t: string, z: string) {
    |z| <= |t| && t[|t| - |z|..] == z
  }

  predicate IsDigit(c: char) {
    '0' <= c <= '9'
  }
}
