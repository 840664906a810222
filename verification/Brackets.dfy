/**
 Brackets in a token stream. A stack decides whether two kinds of brackets are balanced; two other
 routines only count, one of them just the parentheses. On streams the stack accepts they agree.
 */
module Brackets {
  import opened Text

  type Stream = seq<string>

  predicate Opens(t: string) {
    t == "(" || t == "["
  }

  predicate Closes(t: string) {
    t == ")" || t == "]"
  }

  predicate Pair(a: string, z: string) {
    (a == "(" && z == ")") || (a == "[" && z == "]")
  }

  // The stack ----------------------------------------------------------------------------------------

  predicate Places(ts: Stream, st: seq<nat>, n: nat) {
    n <= |ts| && forall k | 0 <= k < |st| :: st[k] < n && Opens(ts[st[k]])
  }

  /** One token: an opening bracket is put on the stack, a closing one has to match the top. */
  function Move(ts: Stream, st: seq<nat>, n: nat): (r: Option<seq<nat>>)
    requires n < |ts| && Places(ts, st, n)
    ensures r.Some? ==> Places(ts, r.value, n + 1)
  {
    if Opens(ts[n]) then Some(st + [n])
    else if !Closes(ts[n]) then Some(st)
    else if st != [] && Pair(ts[st[|st| - 1]], ts[n]) then Some(st[..|st| - 1])
    else None
  }

  /** The places of the brackets still open behind the first n tokens; nothing after a wrong bracket. */
  function Stack(ts: Stream, n: nat): (r: Option<seq<nat>>)
    requires n <= |ts|
    ensures r.Some? ==> Places(ts, r.value, n)
  {
    if n == 0 then Some([])
    else
      var s := Stack(ts, n - 1);
      if s == None then None else Move(ts, s.value, n - 1)
  }

  predicate Balanced(ts: Stream) {
    Stack(ts, |ts|) == Some([])
  }

  /** The closing bracket that takes s off the stack. */
  predicate Partners(ts: Stream, s: nat, e: nat)
    requires s < |ts| && e < |ts|
  {
    var st := Stack(ts, e);
    s < e && Closes(ts[e]) && st.Some? && st.value != [] && st.value[|st.value| - 1] == s && Pair(ts[s], ts[e])
  }

  method CheckDelimiters(ts: Stream) returns (ok: bool)
    ensures ok == Balanced(ts)
  {
    var stack: seq<string> := [];
    for i := 0 to |ts|
      invariant var s := Stack(ts, i);
        s.Some? && |stack| == |s.value| && forall k | 0 <= k < |stack| :: stack[k] == ts[s.value[k]]
    {
      if Opens(ts[i]) {
        stack := stack + [ts[i]];
      } else if Closes(ts[i]) {
        if stack == [] || !Pair(stack[|stack| - 1], ts[i]) {
          NeverRecovers(ts, i + 1, |ts|);
          return false;
        }
        stack := stack[..|stack| - 1];
      }
    }
    ok := stack == [];
  }

  lemma {:induction false} NeverRecovers(ts: Stream, m: nat, n: nat)
    requires m <= n <= |ts| && Stack(ts, m) == None
    ensures Stack(ts, n) == None
  {
    if m < n {
      NeverRecovers(ts, m, n - 1);
    }
  }

  lemma Accepted(ts: Stream, n: nat)
    requires Balanced(ts) && n <= |ts|
    ensures Stack(ts, n).Some?
  {
    if Stack(ts, n) == None {
      NeverRecovers(ts, n, |ts|);
    }
  }

  // Counting parentheses -----------------------------------------------------------------------------

  function Rise(t: string): int {
    if t == "(" then 1 else if t == ")" then -1 else 0
  }

  /** Net parentheses among tokens a..b. */
  function Parens(ts: Stream, a: nat, b: nat): int
    requires a <= b <= |ts|
  {
    if a == b then 0 else Parens(ts, a, b - 1) + Rise(ts[b - 1])
  }

  /** The first place from e on where the count falls to zero. */
  function CloseFrom(ts: Stream, e: nat, depth: int): Option<nat>
    requires e <= |ts|
    decreases |ts| - e
  {
    if e == |ts| then None
    else if depth + Rise(ts[e]) == 0 then Some(e)
    else CloseFrom(ts, e + 1, depth + Rise(ts[e]))
  }

  /** `enclosed`: the tokens between an opening parenthesis and the place where the count returns to zero. */
  method Enclosed(ts: Stream, start: nat) returns (r: Option<(Stream, nat)>)
    requires start < |ts|
    ensures r == if ts[start] != "(" then None else
      match CloseFrom(ts, start + 1, 1) case None => None case Some(e) => Inner(ts, start, e)
  {
    if ts[start] != "(" {
      return None;
    }
    var depth := 1;
    for end := start + 1 to |ts|
      invariant CloseFrom(ts, start + 1, 1) == CloseFrom(ts, end, depth)
    {
      depth := depth + (if ts[end] == "(" then 1 else 0) - (if ts[end] == ")" then 1 else 0);
      if depth == 0 {
        return Some((ts[start + 1..end], end + 1));
      }
    }
    r := None;
  }

  function Inner(ts: Stream, start: nat, e: nat): Option<(Stream, nat)> {
    if start < e < |ts| then Some((ts[start + 1..e], e + 1)) else None
  }

  /** How many of the open brackets are parentheses. */
  function Count(ts: Stream, st: seq<nat>): nat
    requires forall k | 0 <= k < |st| :: st[k] < |ts|
  {
    if st == [] then 0 else Count(ts, st[..|st| - 1]) + if ts[st[|st| - 1]] == "(" then 1 else 0
  }

  lemma CountPush(ts: Stream, st: seq<nat>, k: nat)
    requires (forall j | 0 <= j < |st| :: st[j] < |ts|) && k < |ts|
    ensures Count(ts, st + [k]) == Count(ts, st) + if ts[k] == "(" then 1 else 0
  {
    assert (st + [k])[..|st|] == st;
  }

  lemma CountMove(ts: Stream, st: seq<nat>, n: nat)
    requires n < |ts| && Places(ts, st, n) && Move(ts, st, n).Some?
    ensures Count(ts, Move(ts, st, n).value) == Count(ts, st) + Rise(ts[n])
  {
    if Opens(ts[n]) {
      CountPush(ts, st, n);
    }
  }

  /** On a legal prefix the count of parentheses is that of the stack. */
  lemma {:induction false} CountsAgree(ts: Stream, a: nat, b: nat)
    requires a <= b <= |ts| && Stack(ts, a).Some? && Stack(ts, b).Some?
    ensures Parens(ts, a, b) == Count(ts, Stack(ts, b).value) - Count(ts, Stack(ts, a).value)
  {
    if a < b {
      assert Stack(ts, b - 1).Some? && Stack(ts, b) == Move(ts, Stack(ts, b - 1).value, b - 1);
      hide Stack, Move, Count;
      CountsAgree(ts, a, b - 1);
      CountMove(ts, Stack(ts, b - 1).value, b - 1);
    }
  }

  lemma {:induction false} CountPrefix(ts: Stream, st: seq<nat>, n: nat)
    requires (forall j | 0 <= j < |st| :: st[j] < |ts|) && n <= |st|
    ensures Count(ts, st[..n]) <= Count(ts, st)
  {
    if n < |st| {
      CountPrefix(ts, st[..|st| - 1], n);
      assert st[..|st| - 1][..n] == st[..n];
    } else {
      assert st[..n] == st;
    }
  }

  /** s lies on the stack, directly on what was open before it. */
  predicate Holds(ts: Stream, s: nat, k: nat)
    requires s < k <= |ts|
  {
    var a, b := Stack(ts, s), Stack(ts, k);
    a.Some? && b.Some? && a.value + [s] <= b.value
  }

  /** One more token: either s stays where it is, or this is the bracket that closes it. */
  lemma HoldsOn(ts: Stream, s: nat, k: nat)
    requires s < k < |ts| && Holds(ts, s, k) && Stack(ts, k + 1).Some?
    ensures Holds(ts, s, k + 1) || (Partners(ts, s, k) && Stack(ts, k + 1) == Stack(ts, s))
  {
    var base, st := Stack(ts, s).value, Stack(ts, k).value;
    assert Stack(ts, k + 1) == Move(ts, st, k);
    hide Stack;
    if Closes(ts[k]) && |st| == |base| + 1 {
      assert st == base + [s];
    }
  }

  /** An opened bracket stays in its place on the stack until its partner takes it off. */
  lemma {:induction false} Finds(ts: Stream, s: nat, n: nat) returns (e: Option<nat>)
    requires s < n <= |ts| && Opens(ts[s]) && Stack(ts, n).Some?
    ensures e == None ==> Holds(ts, s, n) && forall k | s < k <= n :: Holds(ts, s, k)
    ensures e.Some? ==> s < e.value < n && Partners(ts, s, e.value) && Stack(ts, e.value + 1) == Stack(ts, s)
    ensures e.Some? ==> forall k | s < k <= e.value :: Holds(ts, s, k)
  {
    assert Stack(ts, n - 1).Some? && Stack(ts, n) == Move(ts, Stack(ts, n - 1).value, n - 1);
    hide Stack, Partners;
    if n == s + 1 {
      e := None;
    } else {
      e := Finds(ts, s, n - 1);
      if e == None {
        hide Holds;
        HoldsOn(ts, s, n - 1);
        if !Holds(ts, s, n) {
          e := Some(n - 1);
        }
      }
    }
  }

  /** The count of parentheses since s falls to zero where the stack lets s go, and not before. */
  lemma {:induction false} CountReaches(ts: Stream, s: nat, e: nat, k: nat)
    requires s < k <= e < |ts| && ts[s] == "("
    requires (forall j | s < j <= e :: Holds(ts, s, j)) && Stack(ts, e + 1).Some? && Stack(ts, e + 1) == Stack(ts, s)
    ensures CloseFrom(ts, k, Parens(ts, s, k)) == Some(e)
    decreases e - k
  {
    hide Stack, Count;
    assert Holds(ts, s, k);
    if k == e {
      CountsAgree(ts, s, e + 1);
      assert Parens(ts, s, e + 1) == Parens(ts, s, e) + Rise(ts[e]);
    } else {
      StillOpen(ts, s, k + 1);
      assert Parens(ts, s, k + 1) == Parens(ts, s, k) + Rise(ts[k]);
      CountReaches(ts, s, e, k + 1);
    }
  }

  lemma StillOpen(ts: Stream, s: nat, k: nat)
    requires s < k <= |ts| && ts[s] == "(" && Holds(ts, s, k)
    ensures Parens(ts, s, k) >= 1
  {
    var base, st := Stack(ts, s).value, Stack(ts, k).value;
    CountsAgree(ts, s, k);
    hide Stack;
    CountPrefix(ts, st, |base| + 1);
    assert st[..|base| + 1] == base + [s];
    CountPush(ts, base, s);
  }

  /** On a balanced stream, `enclosed` at any opening parenthesis ends at the partner the stack gives it, although
      it counts only parentheses. */
  lemma EnclosedFindsPartner(ts: Stream, s: nat) returns (e: nat)
    requires Balanced(ts) && s < |ts| && ts[s] == "("
    ensures s < e < |ts| && Partners(ts, s, e) && CloseFrom(ts, s + 1, 1) == Some(e)
    ensures Stack(ts, e + 1).Some? && forall k | s < k <= e :: Holds(ts, s, k)
  {
    var found := Finds(ts, s, |ts|);
    assert found.Some?;
    e := found.value;
    Accepted(ts, e + 1);
    hide Stack, Partners;
    CountReaches(ts, s, e, s + 1);
    assert Parens(ts, s, s + 1) == Parens(ts, s, s) + Rise(ts[s]) == 1;
  }

  // Slices of a stream -------------------------------------------------------------------------------

  /** A stack above its base, seen from place a. */
  predicate Shifted(st: seq<nat>, base: seq<nat>, sub: seq<nat>, a: nat) {
    && |st| == |base| + |sub| && base <= st
    && forall k | 0 <= k < |sub| :: st[|base| + k] == sub[k] + a
  }

  /** While the base stays on the stack, a slice runs like the stream it is cut from. */
  lemma {:induction false} SliceStack(ts: Stream, a: nat, b: nat, n: nat)
    requires a + n <= b <= |ts| && Stack(ts, a).Some?
    requires forall k | a <= k <= a + n :: Above(ts, a, k)
    ensures Stack(ts[a..b], n).Some?
    ensures Stack(ts, a + n).Some? && Shifted(Stack(ts, a + n).value, Stack(ts, a).value, Stack(ts[a..b], n).value, a)
  {
    if n > 0 {
      SliceStack(ts, a, b, n - 1);
      assert Above(ts, a, a + n - 1) && Above(ts, a, a + n);
      hide Above;
      SliceMove(ts, a, b, n - 1);
    } else {
      assert Above(ts, a, a);
    }
  }

  predicate Above(ts: Stream, a: nat, k: nat)
    requires a <= |ts| && k <= |ts|
  {
    Stack(ts, a).Some? && Stack(ts, k).Some? && Stack(ts, a).value <= Stack(ts, k).value
  }

  /** One token read in the slice moves the slice's stack as it moves the whole one. */
  lemma MoveShift(ts: Stream, ps: Stream, a: nat, n: nat, base: seq<nat>, st: seq<nat>, sub: seq<nat>)
    requires a + n < |ts| && n < |ps| && Places(ts, st, a + n) && Places(ps, sub, n) && Shifted(st, base, sub, a)
    requires ps[n] == ts[a + n] && forall k | 0 <= k < |sub| :: ps[sub[k]] == ts[sub[k] + a]
    requires Move(ts, st, a + n).Some? && base <= Move(ts, st, a + n).value
    ensures Move(ps, sub, n).Some? && Shifted(Move(ts, st, a + n).value, base, Move(ps, sub, n).value, a)
  {
    hide Places, Opens, Closes, Pair;
    if Closes(ts[a + n]) && !Opens(ts[a + n]) {
      assert |sub| > 0;
      assert st[|base| + (|sub| - 1)] == sub[|sub| - 1] + a;
    }
  }

  lemma SliceMove(ts: Stream, a: nat, b: nat, n: nat)
    requires a + n < b <= |ts| && Stack(ts, a).Some? && Stack(ts, a + n).Some? && Stack(ts[a..b], n).Some?
    requires Shifted(Stack(ts, a + n).value, Stack(ts, a).value, Stack(ts[a..b], n).value, a)
    requires Stack(ts, a + n + 1).Some? && Stack(ts, a).value <= Stack(ts, a + n + 1).value
    ensures Stack(ts[a..b], n + 1).Some?
    ensures Shifted(Stack(ts, a + n + 1).value, Stack(ts, a).value, Stack(ts[a..b], n + 1).value, a)
  {
    var base, st, sub := Stack(ts, a).value, Stack(ts, a + n).value, Stack(ts[a..b], n).value;
    assert Stack(ts, a + n + 1) == Move(ts, st, a + n);
    assert Stack(ts[a..b], n + 1) == Move(ts[a..b], sub, n);
    hide Stack, Move, Shifted;
    MoveShift(ts, ts[a..b], a, n, base, st, sub);
  }

  lemma BalancedSlice(ts: Stream, a: nat, b: nat)
    requires a <= b <= |ts| && Stack(ts, a).Some? && Stack(ts, b) == Stack(ts, a)
    requires forall k | a <= k <= b :: Above(ts, a, k)
    ensures Balanced(ts[a..b])
  {
    hide Stack, Above;
    SliceStack(ts, a, b, b - a);
    assert |ts[a..b]| == b - a;
  }

  /** The group `enclosed` returns is balanced itself. */
  lemma GroupBalanced(ts: Stream, s: nat, e: nat)
    requires s < e < |ts| && Opens(ts[s]) && Partners(ts, s, e) && Stack(ts, e + 1).Some?
    requires forall k | s < k <= e :: Holds(ts, s, k)
    ensures Balanced(ts[s + 1..e])
  {
    assert Holds(ts, s, s + 1) && Holds(ts, s, e);
    var base := Stack(ts, s).value + [s];
    var a := s + 1;
    assert Stack(ts, a) == Some(base);
    hide Stack;
    forall k | a <= k <= e
      ensures Above(ts, a, k)
    {
      assert Holds(ts, s, k);
    }
    OnTop(Stack(ts, e).value, Stack(ts, s).value, s, e, ts);
    hide Above, Partners, Holds;
    BalancedSlice(ts, a, e);
  }

  lemma OnTop(st: seq<nat>, base: seq<nat>, s: nat, e: nat, ts: Stream)
    requires s < e <= |ts| && Stack(ts, e) == Some(st) && base + [s] <= st && st[|st| - 1] == s
    ensures st == base + [s]
  {
    Ascending(ts, e);
    assert st[|base|] == (base + [s])[|base|] == s;
    assert |st| == |base| + 1;
  }

  /** Places lie on the stack in the order they were opened. */
  lemma {:induction false} Ascending(ts: Stream, n: nat)
    requires n <= |ts| && Stack(ts, n).Some?
    ensures forall i, j | 0 <= i < j < |Stack(ts, n).value| :: Stack(ts, n).value[i] < Stack(ts, n).value[j]
  {
    if n > 0 {
      Ascending(ts, n - 1);
    }
  }

  // Parts --------------------------------------------------------------------------------------------

  function Level(t: string): int {
    if Opens(t) then 1 else if Closes(t) then -1 else 0
  }

  function Depth(ts: Stream, n: nat): int
    requires n <= |ts|
  {
    if n == 0 then 0 else Depth(ts, n - 1) + Level(ts[n - 1])
  }

  /** A comma outside all brackets. */
  predicate Separates(ts: Stream, k: nat)
    requires k < |ts|
  {
    ts[k] == "," && Depth(ts, k + 1) == 0
  }

  /** The finished pieces and the piece being collected after n tokens. */
  function Split(ts: Stream, n: nat): (seq<Stream>, Stream)
    requires n <= |ts|
  {
    if n == 0 then ([], [])
    else
      var (done, current) := Split(ts, n - 1);
      if Separates(ts, n - 1) then (done + [current], []) else (done, current + [ts[n - 1]])
  }

  function PartsOf(ts: Stream): seq<Stream> {
    var (done, current) := Split(ts, |ts|);
    if current != [] then done + [current] else done
  }

  /** `parts`: the pieces between commas that stand outside all brackets. */
  method Parts(ts: Stream) returns (result: seq<Stream>)
    ensures result == PartsOf(ts)
  {
    var current: Stream, depth := [], 0;
    result := [];
    for i := 0 to |ts|
      invariant (result, current) == Split(ts, i) && depth == Depth(ts, i)
    {
      depth := depth + Level(ts[i]);
      if ts[i] == "," && depth == 0 {
        result := result + [current];
        current := [];
      } else {
        current := current + [ts[i]];
      }
    }
    if current != [] {
      result := result + [current];
    }
  }

  function Join(pieces: seq<Stream>): Stream {
    if pieces == [] then []
    else if |pieces| == 1 then pieces[0]
    else Join(pieces[..|pieces| - 1]) + [","] + pieces[|pieces| - 1]
  }

  function Terminated(pieces: seq<Stream>): Stream {
    if pieces == [] then [] else Terminated(pieces[..|pieces| - 1]) + pieces[|pieces| - 1] + [","]
  }

  lemma {:induction false} JoinTerminated(pieces: seq<Stream>)
    requires pieces != []
    ensures Join(pieces) + [","] == Terminated(pieces)
  {
    var p, last := pieces[..|pieces| - 1], pieces[|pieces| - 1];
    if p == [] {
      assert pieces == [last] && [] + last + [","] == last + [","];
    } else {
      JoinTerminated(p);
    }
  }

  lemma {:induction false} SplitKeeps(ts: Stream, n: nat)
    requires n <= |ts|
    ensures Terminated(Split(ts, n).0) + Split(ts, n).1 == ts[..n]
    ensures Split(ts, n).1 == [] <==> n == 0 || Separates(ts, n - 1)
  {
    if n > 0 {
      SplitKeeps(ts, n - 1);
      var (done, current) := Split(ts, n - 1);
      assert ts[..n] == ts[..n - 1] + [ts[n - 1]];
      assert (done + [current])[..|done|] == done;
    }
  }

  /** Commas put the pieces back together exactly when the stream does not end in a separating comma. */
  lemma PartsRejoin(ts: Stream)
    ensures Join(PartsOf(ts)) == ts <==> ts == [] || !Separates(ts, |ts| - 1)
    ensures ts != [] && Separates(ts, |ts| - 1) ==> Join(PartsOf(ts)) + [","] == ts
  {
    var (done, current) := Split(ts, |ts|);
    SplitKeeps(ts, |ts|);
    assert ts[..|ts|] == ts;
    if current != [] {
      var all := done + [current];
      JoinTerminated(all);
      assert all[..|done|] == done;
      assert Join(all) + [","] == ts + [","];
      assert Join(all) == (Join(all) + [","])[..|Join(all)|] && ts == (ts + [","])[..|ts|];
    } else if done != [] {
      JoinTerminated(done);
    }
  }

  /** On a legal prefix the level is the height of the stack. */
  lemma {:induction false} DepthIsHeight(ts: Stream, n: nat)
    requires n <= |ts| && Stack(ts, n).Some?
    ensures Depth(ts, n) == |Stack(ts, n).value|
  {
    if n > 0 {
      DepthIsHeight(ts, n - 1);
    }
  }

  predicate Simple(piece: Stream) {
    Balanced(piece) && forall k | 0 <= k < |piece| :: !Separates(piece, k)
  }

  /** Outside all brackets of the whole stream, the slice has the depth of the stream. */
  lemma SliceDepth(ts: Stream, a: nat, b: nat, n: nat)
    requires Balanced(ts) && a + n <= b <= |ts| && Depth(ts, a) == 0
    ensures Depth(ts[a..b], n) == Depth(ts, a + n) && Stack(ts[a..b], n).Some?
  {
    Accepted(ts, a);
    Accepted(ts, a + n);
    DepthIsHeight(ts, a);
    DepthIsHeight(ts, a + n);
    AllAbove(ts, a);
    hide Stack, Above;
    SliceStack(ts, a, b, n);
    DepthIsHeight(ts[a..b], n);
  }

  lemma AllAbove(ts: Stream, a: nat)
    requires Balanced(ts) && a <= |ts| && Depth(ts, a) == 0
    ensures forall k | a <= k <= |ts| :: Above(ts, a, k)
  {
    hide Stack;
    forall k | a <= k <= |ts|
      ensures Above(ts, a, k)
    {
      Accepted(ts, a);
      Accepted(ts, k);
      DepthIsHeight(ts, a);
    }
  }

  /** A slice between two places outside all brackets, without a separating comma, is a simple piece. */
  lemma SimpleSlice(ts: Stream, a: nat, b: nat)
    requires Balanced(ts) && a <= b <= |ts| && Depth(ts, a) == 0 && Depth(ts, b) == 0
    requires forall k | a <= k < b :: !Separates(ts, k)
    ensures Simple(ts[a..b])
  {
    hide Stack, Depth;
    SliceDepth(ts, a, b, b - a);
    DepthIsHeight(ts[a..b], b - a);
    forall k | 0 <= k < b - a
      ensures !Separates(ts[a..b], k)
    {
      assert !Separates(ts, a + k);
      SliceDepth(ts, a, b, k + 1);
    }
  }

  /** Where the piece being collected began. */
  ghost predicate Collects(ts: Stream, n: nat, a: nat)
    requires n <= |ts|
  {
    && a <= n && Split(ts, n).1 == ts[a..n] && Depth(ts, a) == 0
    && (forall k | a <= k < n :: !Separates(ts, k))
    && forall p | p in Split(ts, n).0 :: Simple(p)
  }

  lemma {:induction false} SplitSimple(ts: Stream, n: nat) returns (a: nat)
    requires Balanced(ts) && n <= |ts|
    ensures Collects(ts, n, a)
  {
    if n == 0 {
      a := 0;
    } else {
      a := SplitSimple(ts, n - 1);
      hide Balanced, Simple;
      if Separates(ts, n - 1) {
        assert Level(",") == 0;
        SimpleSlice(ts, a, n - 1);
        a := n;
      } else {
        assert ts[a..n] == ts[a..n - 1] + [ts[n - 1]];
      }
    }
  }

  /** Every piece of a balanced stream is balanced and has no comma outside its brackets. */
  lemma PartsSimple(ts: Stream)
    requires Balanced(ts)
    ensures forall p | p in PartsOf(ts) :: Simple(p)
  {
    var a := SplitSimple(ts, |ts|);
    DepthIsHeight(ts, |ts|);
    SimpleSlice(ts, a, |ts|);
    hide Simple;
  }

  /** The group behind any opening parenthesis of a balanced stream falls into simple pieces that rejoin to it,
      unless it is empty or ends in a comma. */
  lemma GroupParts(ts: Stream, s: nat) returns (e: nat)
    requires Balanced(ts) && s < |ts| && ts[s] == "("
    ensures s < e < |ts| && CloseFrom(ts, s + 1, 1) == Some(e) && Partners(ts, s, e)
    ensures var group := ts[s + 1..e];
      && Balanced(group)
      && (forall p | p in PartsOf(group) :: Simple(p))
      && (group == [] || group[|group| - 1] != "," ==> Join(PartsOf(group)) == group)
      && (group != [] && group[|group| - 1] == "," ==> Join(PartsOf(group)) + [","] == group)
  {
    e := EnclosedFindsPartner(ts, s);
    var group := ts[s + 1..e];
    GroupBalanced(ts, s, e);
    PartsSimple(group);
    PartsRejoin(group);
    DepthIsHeight(group, |group|);
  }

  // Streams one after another ------------------------------------------------------------------------

  function Moved(st: Option<seq<nat>>, d: nat): Option<seq<nat>> {
    if st == None then None else Some(seq(|st.value|, k requires 0 <= k < |st.value| => st.value[k] + d))
  }

  lemma {:induction false} PrefixStack(ps: Stream, qs: Stream, n: nat)
    requires n <= |ps|
    ensures Stack(ps + qs, n) == Stack(ps, n)
  {
    if n > 0 {
      PrefixStack(ps, qs, n - 1);
      assert (ps + qs)[n - 1] == ps[n - 1];
      var st := Stack(ps, n - 1);
      if st.Some? {
        assert forall k | 0 <= k < |st.value| :: (ps + qs)[st.value[k]] == ps[st.value[k]];
      }
    }
  }

  lemma MoveBehind(ps: Stream, qs: Stream, st: seq<nat>, n: nat)
    requires n < |qs| && Places(qs, st, n) && Places(ps + qs, Moved(Some(st), |ps|).value, |ps| + n)
    ensures Move(ps + qs, Moved(Some(st), |ps|).value, |ps| + n) == Moved(Move(qs, st, n), |ps|)
  {
    hide Pair, Opens, Closes;
    var up := Moved(Some(st), |ps|).value;
    assert (ps + qs)[|ps| + n] == qs[n];
    assert Moved(Some(st + [n]), |ps|).value == up + [|ps| + n];
    if st != [] {
      assert qs[st[|st| - 1]] == (ps + qs)[up[|up| - 1]];
      assert Moved(Some(st[..|st| - 1]), |ps|).value == up[..|up| - 1];
    }
  }

  lemma StackNext(ts: Stream, n: nat)
    requires n < |ts|
    ensures Stack(ts, n).Some? ==> Places(ts, Stack(ts, n).value, n)
    ensures var st := Stack(ts, n); Stack(ts, n + 1) == if st == None then None else Move(ts, st.value, n)
  {
  }

  lemma BehindStep(ps: Stream, qs: Stream, n: nat, st: Option<seq<nat>>, up: Option<seq<nat>>)
    requires n < |qs| && up == Moved(st, |ps|)
    requires st.Some? ==> Places(qs, st.value, n) && Places(ps + qs, up.value, |ps| + n)
    ensures (if up == None then None else Move(ps + qs, up.value, |ps| + n))
      == Moved(if st == None then None else Move(qs, st.value, n), |ps|)
  {
    hide Move, Places;
    if st.Some? {
      MoveBehind(ps, qs, st.value, n);
    }
  }

  lemma MovedSome(st: Option<seq<nat>>, d: nat)
    ensures Moved(st, d).Some? == st.Some?
  {
  }

  lemma StackBase(ps: Stream, qs: Stream)
    requires Balanced(ps)
    ensures Stack(ps + qs, |ps|) == Moved(Stack(qs, 0), |ps|)
  {
    PrefixStack(ps, qs, |ps|);
    assert Moved(Some([]), |ps|).value == [];
  }

  lemma {:induction false} StackBehind(ps: Stream, qs: Stream, n: nat)
    requires Balanced(ps) && n <= |qs|
    ensures Stack(ps + qs, |ps| + n) == Moved(Stack(qs, n), |ps|)
  {
    hide Stack, Move, Places, Moved, Balanced;
    if n == 0 {
      StackBase(ps, qs);
    } else {
      StackBehind(ps, qs, n - 1);
      StackNext(qs, n - 1);
      StackNext(ps + qs, |ps| + (n - 1));
      var st, up := Stack(qs, n - 1), Stack(ps + qs, |ps| + (n - 1));
      MovedSome(st, |ps|);
      BehindStep(ps, qs, n - 1, st, up);
    }
  }

  lemma BalancedConcat(ps: Stream, qs: Stream)
    requires Balanced(ps)
    ensures Balanced(ps + qs) <==> Balanced(qs)
  {
    StackBehind(ps, qs, |qs|);
  }
}
