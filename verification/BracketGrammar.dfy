/** Balanced streams and their pieces by a grammar, without a stack and without counting. */
module BracketGrammar {
  import opened Text
  import opened Brackets

  predicate Bracket(t: string) {
    t == "(" || t == ")" || t == "[" || t == "]"
  }

  predicate Matches(a: string, z: string) {
    (a == "(" && z == ")") || (a == "[" && z == "]")
  }

  /** Other tokens and groups one after another; a group is a nested stream between matching brackets. */
  predicate Nested(ts: Stream)
    decreases |ts|
  {
    || ts == []
    || (!Bracket(ts[0]) && Nested(ts[1..]))
    || exists e | 0 < e < |ts| :: Matches(ts[0], ts[e]) && Nested(ts[1..e]) && Nested(ts[e + 1..])
  }

  /** The same, and none of the other tokens is a comma; inside the groups commas may stand. */
  predicate Unseparated(ts: Stream)
    decreases |ts|
  {
    || ts == []
    || (!Bracket(ts[0]) && ts[0] != "," && Unseparated(ts[1..]))
    || exists e | 0 < e < |ts| :: Matches(ts[0], ts[e]) && Nested(ts[1..e]) && Unseparated(ts[e + 1..])
  }

  lemma MatchesIsPair(a: string, z: string)
    ensures Matches(a, z) <==> Pair(a, z)
    ensures Matches(a, z) ==> Opens(a) && Closes(z) && a != "," && z != ","
  {
  }

  lemma BracketIs(t: string)
    ensures Bracket(t) <==> Opens(t) || Closes(t)
    ensures Opens(t) ==> !Closes(t) && t != ","
  {
  }

  // Stacks upon stacks -------------------------------------------------------------------------------

  lemma MoveUpon(ps: Stream, qs: Stream, base: seq<nat>, sub: seq<nat>, n: nat)
    requires n < |qs| && Places(ps, base, |ps|) && Places(qs, sub, n) && Move(qs, sub, n).Some?
    requires Places(ps + qs, base + Moved(Some(sub), |ps|).value, |ps| + n)
    ensures Move(ps + qs, base + Moved(Some(sub), |ps|).value, |ps| + n)
      == Some(base + Moved(Move(qs, sub, n), |ps|).value)
  {
    hide Pair, Opens, Closes;
    var up := Moved(Some(sub), |ps|).value;
    assert (ps + qs)[|ps| + n] == qs[n];
    assert Moved(Some(sub + [n]), |ps|).value == up + [|ps| + n];
    assert base + (up + [|ps| + n]) == base + up + [|ps| + n];
    if sub != [] {
      assert qs[sub[|sub| - 1]] == (ps + qs)[up[|up| - 1]];
      assert Moved(Some(sub[..|sub| - 1]), |ps|).value == up[..|up| - 1];
      assert (base + up)[..|base + up| - 1] == base + up[..|up| - 1];
    }
  }

  /** A stream read behind another one leaves what was open there where it is. */
  lemma {:induction false} StackUpon(ps: Stream, qs: Stream, base: seq<nat>, n: nat)
    requires Stack(ps, |ps|) == Some(base) && n <= |qs| && Stack(qs, n).Some?
    ensures Stack(ps + qs, |ps| + n) == Some(base + Moved(Stack(qs, n), |ps|).value)
  {
    hide Stack, Move, Places, Moved;
    if n == 0 {
      UponNothing(ps, qs, base);
    } else {
      StackNext(qs, n - 1);
      StackNext(ps + qs, |ps| + (n - 1));
      StackUpon(ps, qs, base, n - 1);
      PlacesOf(ps, |ps|);
      MoveUpon(ps, qs, base, Stack(qs, n - 1).value, n - 1);
    }
  }

  lemma UponNothing(ps: Stream, qs: Stream, base: seq<nat>)
    requires Stack(ps, |ps|) == Some(base)
    ensures Stack(ps + qs, |ps| + 0) == Some(base + Moved(Stack(qs, 0), |ps|).value)
  {
    PrefixStack(ps, qs, |ps|);
    assert base + Moved(Some([]), |ps|).value == base;
  }

  lemma PlacesOf(ts: Stream, n: nat)
    requires n <= |ts| && Stack(ts, n).Some?
    ensures Places(ts, Stack(ts, n).value, n)
  {
  }

  lemma OneToken(t: string)
    requires Opens(t) || !Closes(t)
    ensures Stack([t], 1) == Some(if Opens(t) then [0] else [])
  {
    assert Stack([t], 0) == Some([]);
    assert [] + [0 as nat] == [0];
  }

  /** The first group of a stream and what follows it. */
  lemma Reassembled(ts: Stream, e: nat)
    requires 0 < e < |ts|
    ensures [ts[0]] + ts[1..e] + [ts[e]] + ts[e + 1..] == ts
  {
  }

  lemma FirstOff(ts: Stream)
    requires ts != []
    ensures [ts[0]] + ts[1..] == ts
  {
  }

  /** A balanced stream between matching brackets is balanced. */
  lemma GroupIsBalanced(a: string, x: Stream, z: string)
    requires Pair(a, z) && Balanced(x)
    ensures Balanced([a] + x + [z])
  {
    var ts, p := [a] + x + [z], [a] + x;
    OpenedOnce(a, x);
    PrefixStack(p, [z], |p|);
    StackNext(ts, |p|);
    assert ts[|p|] == z && ts[0] == a;
    hide Stack, Pair;
    ClosesLast(ts, |p|);
  }

  lemma OpenedOnce(a: string, x: Stream)
    requires Opens(a) && Balanced(x)
    ensures Stack([a] + x, |[a] + x|) == Some([0])
  {
    OneToken(a);
    hide Stack, Opens, Moved;
    StackUpon([a], x, [0], |x|);
    MovedNothing([0], 1);
    assert |[a] + x| == |[a]| + |x|;
  }

  lemma MovedNothing(base: seq<nat>, d: nat)
    ensures Moved(Some([]), d).Some? && base + Moved(Some([]), d).value == base
  {
  }

  lemma ClosesLast(ts: Stream, n: nat)
    requires n + 1 == |ts| && n > 0 && Pair(ts[0], ts[n])
    ensures Places(ts, [0], n) && Move(ts, [0], n) == Some([])
  {
    assert [0 as nat][..0] == [];
  }

  lemma TokenIsBalanced(t: string)
    requires !Bracket(t)
    ensures Balanced([t])
  {
    OneToken(t);
  }

  // The stack accepts what the grammar has -----------------------------------------------------------

  lemma {:induction false} NestedIsBalanced(ts: Stream)
    requires Nested(ts)
    ensures Balanced(ts)
    decreases |ts|
  {
    hide Balanced, Bracket, Matches;
    if ts == [] {
      assert Balanced([]) by { NothingBalanced(); }
    } else if !Bracket(ts[0]) && Nested(ts[1..]) {
      NestedIsBalanced(ts[1..]);
      TokenIsBalanced(ts[0]);
      BalancedConcat([ts[0]], ts[1..]);
      FirstOff(ts);
    } else {
      var e :| 0 < e < |ts| && Matches(ts[0], ts[e]) && Nested(ts[1..e]) && Nested(ts[e + 1..]);
      NestedIsBalanced(ts[1..e]);
      NestedIsBalanced(ts[e + 1..]);
      MatchesIsPair(ts[0], ts[e]);
      GroupIsBalanced(ts[0], ts[1..e], ts[e]);
      BalancedConcat([ts[0]] + ts[1..e] + [ts[e]], ts[e + 1..]);
      Reassembled(ts, e);
    }
  }

  lemma NothingBalanced()
    ensures Balanced([])
  {
  }

  lemma GroupNested(ts: Stream, e: nat)
    requires 0 < e < |ts| && Matches(ts[0], ts[e]) && Nested(ts[1..e]) && Nested(ts[e + 1..])
    ensures Nested(ts)
  {
  }

  /** The first bracket of a balanced stream has a partner, and what is between them and behind them is balanced. */
  lemma FirstGroup(ts: Stream) returns (e: nat)
    requires Balanced(ts) && ts != [] && Opens(ts[0])
    ensures 0 < e < |ts| && Matches(ts[0], ts[e]) && Balanced(ts[1..e]) && Balanced(ts[e + 1..])
  {
    var found := Finds(ts, 0, |ts|);
    NeverHeld(ts);
    e := found.value;
    hide Stack, Holds, Move, Opens, Pair, Matches;
    Accepted(ts, e + 1);
    GroupBalanced(ts, 0, e);
    MatchesIsPair(ts[0], ts[e]);
    NothingOpen(ts);
    RestBalanced(ts, e + 1);
  }

  lemma NeverHeld(ts: Stream)
    requires Balanced(ts) && ts != []
    ensures !Holds(ts, 0, |ts|)
  {
  }

  lemma NothingOpen(ts: Stream)
    ensures Stack(ts, 0) == Some([])
  {
  }

  lemma RestBalanced(ts: Stream, n: nat)
    requires Balanced(ts) && n <= |ts| && Stack(ts, n) == Some([])
    ensures Balanced(ts[n..])
  {
    hide Stack;
    var head, rest := ts[..n], ts[n..];
    assert head + rest == ts;
    PrefixStack(head, rest, |head|);
    BalancedConcat(head, rest);
  }

  lemma FirstToken(ts: Stream)
    requires Balanced(ts) && ts != [] && !Opens(ts[0])
    ensures !Bracket(ts[0]) && Balanced(ts[1..])
  {
    Accepted(ts, 1);
    assert Stack(ts, 0) == Some([]);
    assert [ts[0]] + ts[1..] == ts;
    BracketIs(ts[0]);
    TokenIsBalanced(ts[0]);
    BalancedConcat([ts[0]], ts[1..]);
  }

  lemma {:induction false} BalancedIsNested(ts: Stream)
    requires Balanced(ts)
    ensures Nested(ts)
    decreases |ts|
  {
    hide Balanced, Bracket, Matches, Opens;
    if ts != [] {
      if Opens(ts[0]) {
        var e := FirstGroup(ts);
        BalancedIsNested(ts[1..e]);
        BalancedIsNested(ts[e + 1..]);
        GroupNested(ts, e);
      } else {
        FirstToken(ts);
        BalancedIsNested(ts[1..]);
      }
    }
  }

  /** The stack of two kinds of brackets accepts exactly the streams of the grammar. */
  lemma BalancedIffNested(ts: Stream)
    ensures Balanced(ts) <==> Nested(ts)
  {
    if Nested(ts) {
      NestedIsBalanced(ts);
    }
    if Balanced(ts) {
      BalancedIsNested(ts);
    }
  }

  // Pieces -------------------------------------------------------------------------------------------

  lemma {:induction false} DepthConcat(x: Stream, y: Stream, n: nat)
    requires n <= |y|
    ensures Depth(x + y, |x| + n) == Depth(x, |x|) + Depth(y, n)
    decreases n
  {
    if n == 0 {
      DepthPrefix(x, y, |x|);
    } else {
      DepthConcat(x, y, n - 1);
      assert (x + y)[|x| + n - 1] == y[n - 1];
    }
  }

  lemma {:induction false} DepthPrefix(x: Stream, y: Stream, n: nat)
    requires n <= |x|
    ensures Depth(x + y, n) == Depth(x, n)
  {
    if n > 0 {
      DepthPrefix(x, y, n - 1);
    }
  }

  /** A token of a stream with no comma outside its groups. */
  predicate Quiet(ts: Stream) {
    Depth(ts, |ts|) == 0 && forall k | 0 <= k < |ts| :: !Separates(ts, k)
  }

  lemma QuietConcat(x: Stream, y: Stream)
    requires Quiet(x) && Quiet(y)
    ensures Quiet(x + y)
  {
    hide Depth;
    var t := x + y;
    DepthConcat(x, y, |y|);
    forall k | 0 <= k < |t|
      ensures !Separates(t, k)
    {
      if k < |x| {
        DepthPrefix(x, y, k + 1);
        assert !Separates(x, k);
      } else {
        DepthConcat(x, y, k - |x| + 1);
        assert !Separates(y, k - |x|);
      }
    }
  }

  lemma QuietToken(t: string)
    requires !Bracket(t) && t != ","
    ensures Quiet([t])
  {
    BracketIs(t);
    hide Bracket;
    assert Depth([t], 0) == 0;
  }

  /** Inside a group every comma stands in brackets. */
  lemma QuietGroup(a: string, x: Stream, z: string)
    requires Matches(a, z) && Balanced(x)
    ensures Quiet([a] + x + [z])
  {
    MatchesIsPair(a, z);
    var p, t := [a] + x, [a] + x + [z];
    assert Depth([a], 0) == 0 && Depth([a], 1) == 1;
    BalancedDepth(x, |x|);
    BalancedEnds(x);
    hide Balanced, Depth, Matches;
    DepthConcat([a], x, |x|);
    DepthLast(p, z);
    forall k | 0 <= k < |t|
      ensures !Separates(t, k)
    {
      if 0 < k <= |x| {
        BalancedDepth(x, k);
        DepthConcat([a], x, k);
        DepthPrefix(p, [z], k + 1);
        assert 1 + k == |[a]| + k;
      } else if k == 0 {
        assert t[k] == a;
      } else {
        assert t[k] == z;
      }
    }
  }

  lemma DepthLast(p: Stream, z: string)
    requires Closes(z)
    ensures Depth(p + [z], |p| + 1) == Depth(p, |p|) - 1
  {
    DepthPrefix(p, [z], |p|);
  }

  lemma BalancedEnds(x: Stream)
    requires Balanced(x)
    ensures Depth(x, |x|) == 0
  {
    DepthIsHeight(x, |x|);
  }

  lemma BalancedDepth(x: Stream, n: nat)
    requires Balanced(x) && n <= |x|
    ensures Depth(x, n) >= 0
  {
    Accepted(x, n);
    DepthIsHeight(x, n);
  }

  lemma {:induction false} UnseparatedIsQuiet(ts: Stream)
    requires Unseparated(ts)
    ensures Quiet(ts)
    decreases |ts|
  {
    hide Quiet, Bracket, Matches, Nested;
    if ts == [] {
      QuietNothing();
    } else if !Bracket(ts[0]) && ts[0] != "," && Unseparated(ts[1..]) {
      UnseparatedIsQuiet(ts[1..]);
      QuietToken(ts[0]);
      QuietConcat([ts[0]], ts[1..]);
      FirstOff(ts);
    } else {
      var e :| 0 < e < |ts| && Matches(ts[0], ts[e]) && Nested(ts[1..e]) && Unseparated(ts[e + 1..]);
      UnseparatedIsQuiet(ts[e + 1..]);
      NestedIsBalanced(ts[1..e]);
      QuietGroup(ts[0], ts[1..e], ts[e]);
      QuietConcat([ts[0]] + ts[1..e] + [ts[e]], ts[e + 1..]);
      Reassembled(ts, e);
    }
  }

  lemma QuietNothing()
    ensures Quiet([])
  {
  }

  /** Up to the first separating comma everything is collected into one piece. */
  lemma {:induction false} SplitQuiet(x: Stream, y: Stream, n: nat)
    requires Quiet(x) && n <= |x|
    ensures Split(x + y, n) == ([], x[..n])
  {
    if n > 0 {
      SplitQuiet(x, y, n - 1);
      DepthPrefix(x, y, n);
      assert !Separates(x, n - 1);
      hide Depth;
      assert x[..n] == x[..n - 1] + [x[n - 1]];
    }
  }

  /** Behind a comma outside all brackets the pieces are those of what follows. */
  lemma {:induction false} SplitBehind(x: Stream, y: Stream, n: nat)
    requires Quiet(x) && n <= |y|
    ensures Split(x + [","] + y, |x| + 1 + n) == ([x] + Split(y, n).0, Split(y, n).1)
    decreases n
  {
    var c := x + [","];
    CommaDepth(x);
    DepthConcat(c, y, n);
    hide Depth;
    if n == 0 {
      SplitQuiet(x, [","] + y, |x|);
      assert x + ([","] + y) == c + y && x[..|x|] == x;
      assert (c + y)[|x|] == ",";
      DepthPrefix(c, y, |x| + 1);
      assert x + [","] + y == c + y && [] + [x] == [x] + [];
      assert Separates(c + y, |x|);
    } else {
      SplitBehind(x, y, n - 1);
      SplitOne(c, y, n, [x]);
    }
  }

  lemma SplitOne(c: Stream, y: Stream, n: nat, done: seq<Stream>)
    requires 0 < n <= |y| && Depth(c + y, |c| + n) == Depth(y, n)
    requires Split(c + y, |c| + (n - 1)) == (done + Split(y, n - 1).0, Split(y, n - 1).1)
    ensures Split(c + y, |c| + n) == (done + Split(y, n).0, Split(y, n).1)
  {
    assert (c + y)[|c| + n - 1] == y[n - 1];
    hide Depth;
    var (pieces, current) := Split(y, n - 1);
    assert done + pieces + [current] == done + (pieces + [current]);
  }

  lemma CommaDepth(x: Stream)
    requires Quiet(x)
    ensures Depth(x + [","], |x + [","]|) == 0
  {
    DepthConcat(x, [","], 1);
    assert Depth([","], 0) == 0 && Depth([","], 1) == 0;
  }

  /** A stream with no comma outside its groups is one piece; with a comma behind it, it is the first piece of the
      whole, and the other pieces are those of what follows. */
  lemma FirstPiece(x: Stream, y: Stream)
    requires Unseparated(x)
    ensures PartsOf(x) == if x == [] then [] else [x]
    ensures PartsOf(x + [","] + y) == [x] + PartsOf(y)
  {
    hide Unseparated, Quiet, Split;
    UnseparatedIsQuiet(x);
    SplitQuiet(x, [], |x|);
    assert x + [] == x && x[..|x|] == x;
    SplitBehind(x, y, |y|);
    var (done, current) := Split(y, |y|);
    assert |x + [","] + y| == |x| + 1 + |y|;
    assert [x] + done + [current] == [x] + (done + [current]);
  }
}
