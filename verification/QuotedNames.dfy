/**
 What the tokenizer makes of double-quoted names. A name loses its quotes, so a name that is a bracket counts as
 one. Here every token still knows whether it was a name, and the streams can be read with and without names.
 */
module QuotedNames {
  import opened Text
  import opened Brackets
  import opened Lexer

  datatype Item = Item(text: string, name: bool)

  datatype Marked = Marked(items: seq<Item>, bodies: seq<Marked>)

  function Add(item: Item, bodies: seq<Marked>, r: Option<Marked>): Option<Marked> {
    if r == None then None else Some(Marked([item] + r.value.items, bodies + r.value.bodies))
  }

  /** All tokens of t and of its dollar bodies, whether their brackets are balanced or not. */
  function Skeleton(t: string): Option<Marked>
    decreases |t|
  {
    if t == "" then Some(Marked([], []))
    else match PieceOf(t)
      case Bad => None
      case Skip(n) => Skeleton(t[n..])
      case Token(n, token) => Add(Item(token, t[0] == '"'), [], Skeleton(t[n..]))
      case Body(n, tag, body) =>
        match Skeleton(body) case None => None case Some(b) => Add(Item(tag, false), [b], Skeleton(t[n..]))
  }

  function Texts(items: seq<Item>): Stream {
    if items == [] then [] else Texts(items[..|items| - 1]) + [items[|items| - 1].text]
  }

  /** The tokens that are not names. */
  function Unnamed(items: seq<Item>): Stream {
    if items == [] then []
    else
      var last := items[|items| - 1];
      Unnamed(items[..|items| - 1]) + if last.name then [] else [last.text]
  }

  /** The tree as the tokenizer sees it. */
  function Whole(m: Marked): Tree {
    Tree(Texts(m.items), seq(|m.bodies|, i requires 0 <= i < |m.bodies| => Whole(m.bodies[i])))
  }

  /** The tree without the names. */
  function Bare(m: Marked): Tree {
    Tree(Unnamed(m.items), seq(|m.bodies|, i requires 0 <= i < |m.bodies| => Bare(m.bodies[i])))
  }

  // The verdict is that of all streams ----------------------------------------------------------------

  lemma {:induction false} TextsFirst(item: Item, items: seq<Item>)
    ensures Texts([item] + items) == [item.text] + Texts(items)
  {
    var all := [item] + items;
    if items == [] {
      assert all[..0] == [];
    } else {
      assert all[..|all| - 1] == [item] + items[..|items| - 1];
      TextsFirst(item, items[..|items| - 1]);
    }
  }

  lemma WholeAdd(item: Item, bodies: seq<Marked>, m: Marked)
    ensures var trees := seq(|bodies|, i requires 0 <= i < |bodies| => Whole(bodies[i]));
      Some(Whole(Add(item, bodies, Some(m)).value)) == Prepend([item.text], trees, Some(Whole(m)))
  {
    TextsFirst(item, m.items);
    var all := bodies + m.bodies;
    var trees := seq(|bodies|, i requires 0 <= i < |bodies| => Whole(bodies[i]));
    assert Whole(Marked([item] + m.items, all)).bodies == trees + Whole(m).bodies;
  }

  predicate BodiesBalanced(tree: Tree) {
    forall b | b in tree.bodies :: EveryStreamBalanced(b)
  }

  lemma {:induction false} RawIffBodies(t: string)
    ensures Raw(t).Some? <==> Skeleton(t).Some? && BodiesBalanced(Whole(Skeleton(t).value))
    ensures Raw(t).Some? ==> Raw(t) == Some(Whole(Skeleton(t).value))
    decreases |t|, 0
  {
    hide PieceOf, Balanced, EveryStreamBalanced;
    if t != "" {
      var p := PieceOf(t);
      match p {
        case Bad =>
        case Skip(n) => RawIffBodies(t[n..]);
        case Token(n, token) =>
          RawIffBodies(t[n..]);
          if Skeleton(t[n..]).Some? {
            WholeAdd(Item(token, t[0] == '"'), [], Skeleton(t[n..]).value);
            hide Whole;
          }
        case Body(n, tag, body) =>
          LexesIffBalanced(body);
          RawIffBodies(t[n..]);
          if Skeleton(body).Some? && Skeleton(t[n..]).Some? {
            WholeBody(Item(tag, false), Skeleton(body).value, Skeleton(t[n..]).value);
            hide Whole;
          }
      }
    }
  }

  lemma WholeBody(item: Item, b: Marked, m: Marked)
    ensures Some(Whole(Add(item, [b], Some(m)).value)) == Prepend([item.text], [Whole(b)], Some(Whole(m)))
  {
    WholeAdd(item, [b], m);
    assert seq(1, i requires 0 <= i < 1 => Whole([b][i])) == [Whole(b)];
  }

  /** A text is accepted exactly when every piece of it is closed and all its streams are balanced, names counted as
      what they say, and then its tree is the one with all tokens. */
  lemma {:induction false} LexesIffBalanced(t: string)
    ensures LexOf(t).Some? <==> Skeleton(t).Some? && EveryStreamBalanced(Whole(Skeleton(t).value))
    ensures LexOf(t).Some? ==> LexOf(t) == Some(Whole(Skeleton(t).value))
    decreases |t|, 1
  {
    RawIffBodies(t);
    hide Raw, Skeleton, Whole, Balanced;
  }

  // Only brackets matter -----------------------------------------------------------------------------

  function Push(st: Option<Stream>, t: string): Option<Stream> {
    if st == None then None
    else if Opens(t) then Some(st.value + [t])
    else if !Closes(t) then st
    else if st.value != [] && Pair(st.value[|st.value| - 1], t) then Some(st.value[..|st.value| - 1])
    else None
  }

  /** The brackets still open behind a stream. */
  function Open(ts: Stream): Option<Stream> {
    if ts == [] then Some([]) else Push(Open(ts[..|ts| - 1]), ts[|ts| - 1])
  }

  lemma {:induction false} OpenIsStack(ts: Stream, n: nat)
    requires n <= |ts|
    ensures var s, o := Stack(ts, n), Open(ts[..n]);
      && (s.Some? <==> o.Some?)
      && (s.Some? ==> |s.value| == |o.value| && forall k | 0 <= k < |s.value| :: o.value[k] == ts[s.value[k]])
  {
    if n > 0 {
      OpenIsStack(ts, n - 1);
      assert ts[..n][..n - 1] == ts[..n - 1];
      var s, o := Stack(ts, n - 1), Open(ts[..n - 1]);
      if s.Some? {
        PushIsMove(ts, s.value, n - 1, o.value);
      }
      hide Move, Push;
    }
  }

  lemma PushIsMove(ts: Stream, st: seq<nat>, n: nat, o: Stream)
    requires n < |ts| && Places(ts, st, n) && |o| == |st| && forall k | 0 <= k < |st| :: o[k] == ts[st[k]]
    ensures var s, r := Move(ts, st, n), Push(Some(o), ts[n]);
      && (s.Some? <==> r.Some?)
      && (s.Some? ==> |s.value| == |r.value| && forall k | 0 <= k < |s.value| :: r.value[k] == ts[s.value[k]])
  {
    hide Opens, Closes, Pair;
  }

  lemma BalancedIsOpen(ts: Stream)
    ensures Balanced(ts) <==> Open(ts) == Some([])
  {
    OpenIsStack(ts, |ts|);
    assert ts[..|ts|] == ts;
    hide Stack, Open;
  }

  predicate Bracket(t: string) {
    Opens(t) || Closes(t)
  }

  predicate Harmless(items: seq<Item>) {
    forall i | 0 <= i < |items| && items[i].name :: !Bracket(items[i].text)
  }

  lemma {:induction false} HarmlessOpen(items: seq<Item>)
    requires Harmless(items)
    ensures Open(Texts(items)) == Open(Unnamed(items))
  {
    if items != [] {
      var p, last := items[..|items| - 1], items[|items| - 1];
      HarmlessOpen(p);
      assert (Texts(p) + [last.text])[..|Texts(p)|] == Texts(p);
      if last.name {
        assert Unnamed(p) + [] == Unnamed(p);
      } else {
        assert (Unnamed(p) + [last.text])[..|Unnamed(p)|] == Unnamed(p);
      }
    }
  }

  /** At no level a name is a bracket. */
  predicate NoBracketNames(m: Marked) {
    Harmless(m.items) && forall b | b in m.bodies :: NoBracketNames(b)
  }

  lemma HarmlessBalanced(items: seq<Item>)
    requires Harmless(items)
    ensures Balanced(Texts(items)) <==> Balanced(Unnamed(items))
  {
    HarmlessOpen(items);
    BalancedIsOpen(Texts(items));
    BalancedIsOpen(Unnamed(items));
    hide Open, Balanced, Texts, Unnamed;
  }

  lemma {:induction false} BareBalanced(m: Marked)
    requires NoBracketNames(m)
    ensures EveryStreamBalanced(Whole(m)) <==> EveryStreamBalanced(Bare(m))
  {
    HarmlessBalanced(m.items);
    hide Balanced, Texts, Unnamed, Harmless, Whole, Bare, EveryStreamBalanced;
    forall i | 0 <= i < |m.bodies|
      ensures SameVerdict(m.bodies[i])
    {
      BareBalanced(m.bodies[i]);
    }
    hide SameVerdict, NoBracketNames;
    BodiesAlike(m);
  }

  predicate SameVerdict(m: Marked) {
    EveryStreamBalanced(Whole(m)) <==> EveryStreamBalanced(Bare(m))
  }

  lemma BodiesAlike(m: Marked)
    requires Balanced(Texts(m.items)) <==> Balanced(Unnamed(m.items))
    requires forall i | 0 <= i < |m.bodies| :: SameVerdict(m.bodies[i])
    ensures EveryStreamBalanced(Whole(m)) <==> EveryStreamBalanced(Bare(m))
  {
    StreamsAt(m);
    hide Balanced, Texts, Unnamed, Whole, Bare, EveryStreamBalanced;
    assert forall i | 0 <= i < |m.bodies| :: SameVerdict(m.bodies[i]);
  }

  /** The verdict on a tree, body by body. */
  lemma StreamsAt(m: Marked)
    ensures EveryStreamBalanced(Whole(m)) <==>
      (Balanced(Texts(m.items)) && forall i | 0 <= i < |m.bodies| :: EveryStreamBalanced(Whole(m.bodies[i])))
    ensures EveryStreamBalanced(Bare(m)) <==>
      (Balanced(Unnamed(m.items)) && forall i | 0 <= i < |m.bodies| :: EveryStreamBalanced(Bare(m.bodies[i])))
  {
    var w, b := Whole(m), Bare(m);
    assert forall i | 0 <= i < |m.bodies| :: w.bodies[i] == Whole(m.bodies[i]) && b.bodies[i] == Bare(m.bodies[i]);
    assert w.tokens == Texts(m.items) && b.tokens == Unnamed(m.items);
    assert |w.bodies| == |b.bodies| == |m.bodies|;
    hide Balanced, Texts, Unnamed, Whole, Bare;
    BodyByBody(w);
    BodyByBody(b);
    hide EveryStreamBalanced;
  }

  lemma BodyByBody(tree: Tree)
    ensures EveryStreamBalanced(tree) <==>
      (Balanced(tree.tokens) && forall i | 0 <= i < |tree.bodies| :: EveryStreamBalanced(tree.bodies[i]))
  {
    hide Balanced;
  }

  /** Where no double-quoted name is a bracket, names do not matter: a text is accepted exactly when every piece is
      closed and its streams without the names are balanced, down to the innermost dollar body. */
  lemma NamesDoNotMatter(t: string)
    requires Skeleton(t).Some? ==> NoBracketNames(Skeleton(t).value)
    ensures LexOf(t).Some? <==> Skeleton(t).Some? && EveryStreamBalanced(Bare(Skeleton(t).value))
  {
    LexesIffBalanced(t);
    hide LexOf, EveryStreamBalanced, Whole, Bare;
    if Skeleton(t).Some? {
      BareBalanced(Skeleton(t).value);
    }
  }

  // Names that are brackets --------------------------------------------------------------------------

  function CountBrackets(ts: Stream): nat {
    if ts == [] then 0 else CountBrackets(ts[..|ts| - 1]) + if Bracket(ts[|ts| - 1]) then 1 else 0
  }

  function CountNames(items: seq<Item>): nat {
    if items == [] then 0
    else
      var last := items[|items| - 1];
      CountNames(items[..|items| - 1]) + if last.name && Bracket(last.text) then 1 else 0
  }

  lemma {:induction false} OpenParity(ts: Stream)
    requires Open(ts).Some?
    ensures (|Open(ts).value| + CountBrackets(ts)) % 2 == 0
  {
    if ts != [] {
      OpenParity(ts[..|ts| - 1]);
    }
  }

  lemma {:induction false} NamesCounted(items: seq<Item>)
    ensures CountBrackets(Texts(items)) == CountBrackets(Unnamed(items)) + CountNames(items)
  {
    if items != [] {
      var p, last := items[..|items| - 1], items[|items| - 1];
      NamesCounted(p);
      assert (Texts(p) + [last.text])[..|Texts(p)|] == Texts(p);
      if last.name {
        assert Unnamed(p) + [] == Unnamed(p);
      } else {
        assert (Unnamed(p) + [last.text])[..|Unnamed(p)|] == Unnamed(p);
      }
    }
  }

  /** At some level an odd number of names are brackets. */
  predicate OddNames(m: Marked) {
    CountNames(m.items) % 2 == 1 || exists b | b in m.bodies :: OddNames(b)
  }

  lemma OddStream(items: seq<Item>)
    requires CountNames(items) % 2 == 1 && Balanced(Texts(items))
    ensures !Balanced(Unnamed(items))
  {
    NamesCounted(items);
    BalancedIsOpen(Texts(items));
    BalancedIsOpen(Unnamed(items));
    hide Balanced, Texts, Unnamed, CountNames;
    OpenParity(Texts(items));
    if Balanced(Unnamed(items)) {
      OpenParity(Unnamed(items));
    }
  }

  lemma {:induction false} OddNotBoth(m: Marked)
    requires OddNames(m) && EveryStreamBalanced(Whole(m))
    ensures !EveryStreamBalanced(Bare(m))
  {
    if CountNames(m.items) % 2 == 1 {
      OddStream(m.items);
    } else {
      var b :| b in m.bodies && OddNames(b);
      var i :| 0 <= i < |m.bodies| && m.bodies[i] == b;
      StreamsAt(m);
      hide EveryStreamBalanced, Whole, Bare, OddNames;
      OddNotBoth(b);
    }
  }

  /** With a bracket among its names a text may be judged wrongly, either way. With an odd number of them at some
      level its two readings are never both balanced, so it is judged rightly only if both refuse it. */
  lemma OddNamesMislead(t: string)
    requires Skeleton(t).Some? && OddNames(Skeleton(t).value)
    ensures var rightly := EveryStreamBalanced(Bare(Skeleton(t).value));
      (LexOf(t).Some? <==> rightly) <==> LexOf(t) == None && !rightly
  {
    LexesIffBalanced(t);
    var m := Skeleton(t).value;
    if EveryStreamBalanced(Whole(m)) {
      OddNotBoth(m);
    }
    hide LexOf, Whole, Bare, OddNames;
  }
}
