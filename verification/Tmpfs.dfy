/** The tmpfs options of a disposable container: which lists are accepted, and how their size is read. */
module Tmpfs {
  import opened Text

  const MAX_BYTES := 536870912

  // Lists with commas --------------------------------------------------------------------------------

  /** Python's split: always at least one part. */
  function Split(s: string): (parts: seq<string>)
    ensures parts != []
  {
    if s == "" then [""]
    else
      var rest := Split(s[1..]);
      if s[0] == ',' then [""] + rest else [[s[0]] + rest[0]] + rest[1..]
  }

  function Join(parts: seq<string>): string
    requires parts != []
  {
    if |parts| == 1 then parts[0] else parts[0] + "," + Join(parts[1..])
  }

  predicate Plain(part: string) {
    ',' !in part
  }

  lemma {:induction false} SplitPlain(part: string, rest: string)
    requires Plain(part)
    ensures Split(part) == [part] && Split(part + "," + rest) == [part] + Split(rest)
  {
    if part == "" {
      assert part + "," + rest == "," + rest && ("," + rest)[1..] == rest;
    } else {
      var tail := part[1..];
      assert (part + "," + rest)[1..] == tail + "," + rest;
      SplitPlain(tail, rest);
      assert [part[0]] + tail == part;
    }
  }

  lemma {:induction false} SplitJoin(parts: seq<string>)
    requires parts != [] && forall i | 0 <= i < |parts| :: Plain(parts[i])
    ensures Split(Join(parts)) == parts
  {
    if |parts| == 1 {
      SplitPlain(parts[0], "");
    } else {
      SplitJoin(parts[1..]);
      SplitPlain(parts[0], Join(parts[1..]));
      assert parts == [parts[0]] + parts[1..];
    }
  }

  // Sizes --------------------------------------------------------------------------------------------

  predicate Digits(s: string) {
    s != "" && forall i | 0 <= i < |s| :: IsDigit(s[i])
  }

  function Number(s: string): nat
    requires forall i | 0 <= i < |s| :: IsDigit(s[i])
  {
    if s == "" then 0
    else
      assert IsDigit(s[|s| - 1]);
      Number(s[..|s| - 1]) * 10 + (s[|s| - 1] as int - '0' as int)
  }

  /** The factor a trailing letter stands for, if it is a unit. */
  function Unit(c: char): Option<nat> {
    if c in {'k', 'K'} then Some(1024)
    else if c in {'m', 'M'} then Some(1024 * 1024)
    else if c in {'g', 'G'} then Some(1024 * 1024 * 1024)
    else None
  }

  /** Decimal digits with at most one unit letter. */
  function Bytes(s: string): Option<nat> {
    if Digits(s) then Some(Number(s))
    else if s != "" && Digits(s[..|s| - 1]) && Unit(s[|s| - 1]).Some?
    then Some(Number(s[..|s| - 1]) * Unit(s[|s| - 1]).value)
    else None
  }

  function Decimal(n: nat): (s: string)
    ensures Digits(s)
  {
    if n < 10 then ['0' + n as char] else Decimal(n / 10) + ['0' + (n % 10) as char]
  }

  lemma {:induction false} NumberDecimal(n: nat)
    ensures Number(Decimal(n)) == n
  {
    if n < 10 {
      assert Number("") == 0 && Decimal(n)[..0] == "";
    } else {
      NumberDecimal(n / 10);
      assert Decimal(n)[..|Decimal(n)| - 1] == Decimal(n / 10);
    }
  }

  /** Printing any size with any unit and reading it back gives the same bytes. */
  lemma BytesDecimal(n: nat, c: char)
    requires Unit(c).Some?
    ensures Bytes(Decimal(n)) == Some(n) && Bytes(Decimal(n) + [c]) == Some(n * Unit(c).value)
  {
    NumberDecimal(n);
    var s := Decimal(n) + [c];
    assert s[..|s| - 1] == Decimal(n) && s[|s| - 1] == c;
    assert !IsDigit(c);
  }

  function Zeros(n: nat): string {
    seq(n, _ => '0')
  }

  /** A run of digits is worth the number whose decimal print it is behind some zeros. */
  lemma {:induction false} DigitsAre(s: string)
    requires Digits(s)
    ensures var d := Decimal(Number(s)); |d| <= |s| && s == Zeros(|s| - |d|) + d
  {
    var p, c := s[..|s| - 1], s[|s| - 1];
    assert IsDigit(c) && s == p + [c];
    var n := Number(s);
    if p == "" {
      assert Number(p) == 0 && Decimal(n) == [c];
    } else {
      assert Digits(p);
      DigitsAre(p);
      OneDigitMore(p, c);
    }
  }

  lemma OneDigitMore(p: string, c: char)
    requires Digits(p) && IsDigit(c) && var d := Decimal(Number(p)); |d| <= |p| && p == Zeros(|p| - |d|) + d
    ensures var n := Number(p) * 10 + (c as int - '0' as int);
      |Decimal(n)| <= |p| + 1 && p + [c] == Zeros(|p| + 1 - |Decimal(n)|) + Decimal(n)
  {
    hide Decimal, Number, Zeros;
    var m, d := Number(p), Decimal(Number(p));
    assert c as int - '0' as int >= 0;
    Printed(m, c);
    if m == 0 {
      AllZeros(p);
    } else {
      Moved(Zeros(|p| - |d|), d, [c]);
    }
  }

  lemma AllZeros(p: string)
    requires p != "" && p == Zeros(|p| - 1) + "0"
    ensures p == Zeros(|p|)
  {
  }

  lemma Printed(m: nat, c: char)
    requires IsDigit(c)
    ensures var v := c as int - '0' as int;
      Decimal(0) == "0" && v >= 0 && Decimal(m * 10 + v) == if m == 0 then [c] else Decimal(m) + [c]
  {
    var v := c as int - '0' as int;
    assert (m * 10 + v) / 10 == m && (m * 10 + v) % 10 == v;
    assert ('0' as int + v) as char == c;
  }

  lemma Moved(z: string, d: string, c: string)
    ensures z + d + c == z + (d + c)
  {
  }

  lemma BytesRead(s: string, n: nat)
    ensures Bytes(s) == Some(n) <==> Reads(s, n)
  {
    hide Number;
    assert UNITS[0] in UNITS && UNITS[1] in UNITS && UNITS[2] in UNITS;
    if s != "" {
      UnitIs(s[|s| - 1]);
    }
  }

  lemma UnitIs(c: char)
    ensures Unit(c) == (if c in "kK" then Some(1024) else if c in "mM" then Some(1048576)
                        else if c in "gG" then Some(1073741824) else None)
    ensures IsDigit(c) ==> Unit(c) == None
  {
  }

  // Acceptance ---------------------------------------------------------------------------------------

  predicate IsSize(part: string) {
    "size=" <= part
  }

  predicate Flag(part: string) {
    part in {"rw", "noexec", "nosuid", "nodev"}
  }

  function Sizes(parts: seq<string>): seq<string> {
    if parts == [] then []
    else
      var last := parts[|parts| - 1];
      Sizes(parts[..|parts| - 1]) + if IsSize(last) then [last[5..]] else []
  }

  /** `validate_tmpfs_options`: true stands for returning without an error. */
  predicate Validate(options: string) {
    var parts := Split(options);
    var sizes := Sizes(parts);
    if |parts| != |set p | p in parts| || multiset(parts)["rw"] != 1 || |sizes| != 1 then false
    else if exists p | p in parts :: !Flag(p) && !IsSize(p) then false
    else
      var size := Bytes(sizes[0]);
      size.Some? && 0 < size.value <= MAX_BYTES
  }

  /** No option twice, all of them known, writable, and exactly one size, positive and within the cap. */
  predicate Accepted(parts: seq<string>) {
    && (forall i, j | 0 <= i < j < |parts| :: parts[i] != parts[j])
    && (forall p | p in parts :: p == "rw" || p == "noexec" || p == "nosuid" || p == "nodev" || "size=" <= p)
    && "rw" in parts
    && exists p | p in parts && "size=" <= p ::
         && (forall q | q in parts && "size=" <= q :: q == p)
         && exists n | 0 < n <= 536870912 :: Reads(p[5..], n)
  }

  /** Decimal digits with at most one unit letter that come to n bytes. */
  predicate Reads(s: string, n: nat) {
    || (Digits(s) && n == Number(s))
    || exists u | u in UNITS :: s != "" && s[|s| - 1] in u.0 && Digits(s[..|s| - 1]) && n == Number(s[..|s| - 1]) * u.1
  }

  const UNITS: seq<(string, nat)> := [("kK", 1024), ("mM", 1048576), ("gG", 1073741824)]

  function SetOf(parts: seq<string>): set<string> {
    set p | p in parts
  }

  lemma {:induction false} SetSize(parts: seq<string>)
    ensures |SetOf(parts)| <= |parts|
    ensures |SetOf(parts)| == |parts| <==> forall i, j | 0 <= i < j < |parts| :: parts[i] != parts[j]
  {
    if parts != [] {
      var p, last := parts[..|parts| - 1], parts[|parts| - 1];
      SetSize(p);
      assert parts == p + [last];
      assert SetOf(parts) == SetOf(p) + {last};
      if last in p {
        var i :| 0 <= i < |p| && p[i] == last;
        assert parts[i] == parts[|parts| - 1];
        assert SetOf(parts) == SetOf(p);
      }
    }
  }

  lemma OnceIfPresent(parts: seq<string>, x: string)
    requires forall i, j | 0 <= i < j < |parts| :: parts[i] != parts[j]
    ensures multiset(parts)[x] == if x in parts then 1 else 0
  {
    if x in parts {
      var i :| 0 <= i < |parts| && parts[i] == x;
      assert parts == parts[..i] + [x] + parts[i + 1..];
      assert x !in parts[..i] && x !in parts[i + 1..];
      assert multiset(parts) == multiset(parts[..i]) + multiset{x} + multiset(parts[i + 1..]);
    }
  }

  /** The sizes found are those of the parts that are sizes. */
  lemma {:induction false} SizesOf(parts: seq<string>)
    requires forall i, j | 0 <= i < j < |parts| :: parts[i] != parts[j]
    ensures |Sizes(parts)| == 0 <==> forall p | p in parts :: !IsSize(p)
    ensures |Sizes(parts)| == 1 <==> exists p :: OnlySize(parts, p)
    ensures forall p | OnlySize(parts, p) :: Sizes(parts) == [p[5..]]
  {
    if parts != [] {
      var p, last := parts[..|parts| - 1], parts[|parts| - 1];
      assert parts == p + [last] && last !in p;
      SizesOf(p);
      if IsSize(last) {
        if |Sizes(p)| == 0 {
          assert OnlySize(parts, last);
        } else {
          var y :| y in p && IsSize(y);
          assert y in parts && last in parts && y != last;
        }
      } else {
        forall x
          ensures OnlySize(parts, x) <==> OnlySize(p, x)
        {
        }
      }
    }
  }

  predicate OnlySize(parts: seq<string>, p: string) {
    p in parts && IsSize(p) && forall q | q in parts && IsSize(q) :: q == p
  }

  /** The options are accepted exactly when they are in order, for every string. */
  lemma AcceptedIff(options: string)
    ensures Validate(options) <==> Accepted(Split(options))
  {
    var parts := Split(options);
    SetSize(parts);
    SameTerms(parts);
    if forall i, j | 0 <= i < j < |parts| :: parts[i] != parts[j] {
      OnceIfPresent(parts, "rw");
      SizesOf(parts);
      hide Split, Sizes, Bytes, Accepted;
      if p :| OnlySize(parts, p) {
        assert Sizes(parts)[0] == p[5..];
      }
    }
  }

  lemma ValidateJoin(parts: seq<string>)
    requires parts != [] && forall i | 0 <= i < |parts| :: Plain(parts[i])
    ensures Validate(Join(parts)) <==> Accepted(parts)
  {
    SplitJoin(parts);
    AcceptedIff(Join(parts));
  }

  /** The order of the options does not matter. */
  lemma OrderIrrelevant(a: seq<string>, b: seq<string>)
    requires a != [] && b != [] && multiset(a) == multiset(b) && forall i | 0 <= i < |a| :: Plain(a[i])
    ensures Validate(Join(a)) == Validate(Join(b))
  {
    hide Validate, Join, Accepted;
    SameMembers(a, b);
    ValidateJoin(a);
    ValidateJoin(b);
    if Accepted(a) {
      Rearranged(a, b);
    }
    if Accepted(b) {
      Rearranged(b, a);
    }
  }

  lemma SameMembers(a: seq<string>, b: seq<string>)
    requires multiset(a) == multiset(b)
    ensures forall x :: x in a <==> x in b
    ensures (forall i | 0 <= i < |a| :: Plain(a[i])) ==> forall i | 0 <= i < |b| :: Plain(b[i])
  {
    assert forall x :: x in a <==> x in multiset(a);
    assert forall x :: x in b <==> x in multiset(b);
    assert forall i | 0 <= i < |b| :: b[i] in a;
  }

  /** Accepted, with the terms of the code. */
  ghost predicate AcceptedByCode(parts: seq<string>) {
    && (forall i, j | 0 <= i < j < |parts| :: parts[i] != parts[j])
    && (forall p | p in parts :: Flag(p) || IsSize(p))
    && "rw" in parts
    && exists p | OnlySize(parts, p) :: var size := Bytes(p[5..]); size.Some? && 0 < size.value <= MAX_BYTES
  }

  lemma SameTerms(parts: seq<string>)
    ensures Accepted(parts) <==> AcceptedByCode(parts)
  {
    hide Bytes, Reads;
    if p :| p in parts && "size=" <= p && forall q | q in parts && "size=" <= q :: q == p {
      assert OnlySize(parts, p);
      SizeReads(p[5..]);
    }
    if p :| OnlySize(parts, p) {
      SizeReads(p[5..]);
    }
  }

  lemma SizeReads(s: string)
    ensures (exists n | 0 < n <= 536870912 :: Reads(s, n)) <==> Bytes(s).Some? && 0 < Bytes(s).value <= MAX_BYTES
  {
    hide Reads, Bytes;
    if Bytes(s).Some? {
      BytesRead(s, Bytes(s).value);
    }
    if n :| 0 < n <= 536870912 && Reads(s, n) {
      BytesRead(s, n);
    }
  }

  lemma Rearranged(a: seq<string>, b: seq<string>)
    requires multiset(a) == multiset(b) && (forall x :: x in a <==> x in b) && Accepted(a)
    ensures Accepted(b)
  {
    hide Reads;
    SetSize(a);
    SetSize(b);
    assert SetOf(a) == SetOf(b);
    assert |a| == |multiset(a)| == |multiset(b)| == |b|;
  }

  lemma FlagsDiffer()
    ensures Plain("rw") && Plain("noexec") && Plain("nosuid") && Plain("nodev")
    ensures !IsSize("rw") && !IsSize("noexec") && !IsSize("nosuid") && !IsSize("nodev")
    ensures "rw" != "noexec" && "rw" != "nosuid" && "rw" != "nodev"
    ensures "noexec" != "nosuid" && "noexec" != "nodev" && "nosuid" != "nodev"
  {
    assert "size="[0] == 's' && "rw"[0] == 'r' && "noexec"[0] == 'n' && "nosuid"[0] == 'n' && "nodev"[0] == 'n';
    assert "noexec"[2] == 'e' && "nosuid"[2] == 's';
  }

  /** The options the harness asks for, with any size, are accepted exactly up to the cap. */
  lemma HarnessOptions(n: nat)
    ensures Validate(Join(["rw", "noexec", "nosuid", "nodev", "size=" + Decimal(n)])) <==> 0 < n <= 536870912
  {
    hide Validate, Join, Decimal;
    var size := "size=" + Decimal(n);
    var parts := ["rw", "noexec", "nosuid", "nodev", size];
    FlagsDiffer();
    PlainDecimal(n);
    ValidateJoin(parts);
    BytesDecimal(n, 'k');
    SizeReads(Decimal(n));
    assert size[5..] == Decimal(n) && "size=" <= size;
    hide Bytes, Plain, Reads;
    assert forall p | p in parts :: p == size || p == "rw" || p == "noexec" || p == "nosuid" || p == "nodev";
    assert forall q | q in parts && "size=" <= q :: q == size;
    assert parts[0] == "rw" && parts[4] == size;
  }

  lemma PlainDecimal(n: nat)
    ensures Plain("size=" + Decimal(n))
  {
  }
}
