/** When the two replays of the grant history agree, and what happens when they need not. */
module AclAgreement {
  import opened Text
  import opened AclReplay

  // The live functions, as both replays see them -----------------------------------------------------

  /** The functions that exist after the first n statements. */
  function Live(h: seq<Entry>, n: nat): set<Sig>
    requires n <= |h|
  {
    RunTable(h[..n]).Keys
  }

  lemma {:induction false} AppendKeys(t: Table, sigs: seq<Sig>, m: Mark)
    ensures Append(t, sigs, m).Keys == t.Keys
  {
    if sigs != [] {
      AppendKeys(t, sigs[..|sigs| - 1], m);
    }
  }

  /** Both scripts keep the same functions, for any history. */
  lemma {:induction false} SameFunctions(h: seq<Entry>)
    ensures RunLog(h).created.Keys == RunTable(h).Keys
  {
    if h != [] {
      var p, e := h[..|h| - 1], h[|h| - 1];
      SameFunctions(p);
      if e.stmt.Acl? {
        AppendKeys(RunTable(p), e.stmt.sigs, Mark(e.loc, e.stmt.op, e.stmt.roles));
      }
    }
  }

  // The histories on which they agree ----------------------------------------------------------------

  predicate Ordered(h: seq<Entry>) {
    forall i, j | 0 <= i < j < |h| :: NotAfter(h[i].loc, h[j].loc)
  }

  /** The statement grants or revokes on s. */
  predicate Names(e: Entry, s: Sig) {
    e.stmt.Acl? && s in e.stmt.sigs
  }

  /** A function is not created anew on the line of a grant on its former self, nor granted on under a new name
      on the line of a grant on it under the old one. */
  predicate Separated(h: seq<Entry>) {
    && (forall i, j | 0 <= i < j < |h| && h[j].stmt.Create? && h[j].stmt.sig !in Live(h, j)
            && Names(h[i], h[j].stmt.sig) ::
          Before(h[i].loc, h[j].loc))
    && (forall i, k, j | 0 <= i < k < j < |h| && h[k].stmt.Rename? && Names(h[i], h[k].stmt.former)
            && Names(h[j], h[k].stmt.later) ::
          Before(h[i].loc, h[j].loc))
  }

  ghost predicate IsSource(h: seq<Entry>, s: Sig) {
    exists i | 0 <= i < |h| :: h[i].stmt.Rename? && h[i].stmt.former == s
  }

  ghost predicate IsTarget(h: seq<Entry>, s: Sig) {
    exists i | 0 <= i < |h| :: h[i].stmt.Rename? && h[i].stmt.later == s
  }

  ghost predicate Involved(h: seq<Entry>, s: Sig) {
    IsSource(h, s) || IsTarget(h, s)
  }

  /** Statement j brings s to life. */
  predicate Born(h: seq<Entry>, j: nat, s: Sig)
    requires j < |h|
  {
    s !in Live(h, j) && s in Live(h, j + 1)
  }

  /** One statement respects the live set: no CREATE over a live function without OR REPLACE, renames
      from a live to a free name, no role suffix, and grants on renamed functions only while they live. */
  ghost predicate Respects(h: seq<Entry>, i: nat)
    requires i < |h|
  {
    match h[i].stmt
    case Create(s, replacing) => s in Live(h, i) ==> replacing
    case Acl(_, sigs, _, suffix) => suffix.None? && forall s | s in sigs && Involved(h, s) :: s in Live(h, i)
    case Rename(a, b) => a in Live(h, i) && b !in Live(h, i)
    case _ => true
  }

  /** Statements come in the order of their locations, each respects the live set, a name involved in a rename
      has one lifetime, and no function is renamed twice. */
  ghost predicate Regular(h: seq<Entry>) {
    && Ordered(h) && Separated(h)
    && (forall i | 0 <= i < |h| :: Respects(h, i))
    && (forall s, j, k | 0 <= j < |h| && 0 <= k < |h| && Involved(h, s) && Born(h, j, s) && Born(h, k, s) :: j == k)
    && (forall s | IsSource(h, s) :: !IsTarget(h, s))
  }

  // What every prefix keeps --------------------------------------------------------------------------

  predicate Sorted(marks: seq<Mark>) {
    forall i, j | 0 <= i < j < |marks| :: NotAfter(marks[i].loc, marks[j].loc)
  }

  /** All of xs stands strictly before all of ys. */
  predicate Apart(xs: seq<Mark>, ys: seq<Mark>) {
    forall i, j | 0 <= i < |xs| && 0 <= j < |ys| :: Before(xs[i].loc, ys[j].loc)
  }

  function DirectOf(g: Log, s: Sig): seq<Mark>
    requires s in g.created
  {
    Direct(g.events, s, g.created[s])
  }

  /** The log's view of one live function and the table's: inherited marks, then its own. */
  predicate Agrees(g: Log, t: Table, s: Sig)
    requires s in g.created && s in t
  {
    var x, y := Inherited(g.renames, s), DirectOf(g, s);
    t[s] == x + y && Sorted(x) && Sorted(y) && Apart(x, y)
  }

  /** Nothing recorded so far stands behind loc. */
  predicate Past(g: Log, loc: Loc) {
    && (forall i | 0 <= i < |g.events| :: NotAfter(g.events[i].mark.loc, loc))
    && (forall s | s in g.created :: NotAfter(g.created[s], loc))
    && (forall i | 0 <= i < |g.renames| :: UpTo(g.renames[i].inherited, loc))
  }

  predicate AllAgree(g: Log, t: Table) {
    g.created.Keys == t.Keys && forall s | s in t :: Agrees(g, t, s)
  }

  /** Nothing still to come stands before what is recorded. */
  predicate AllPast(h: seq<Entry>, n: nat, g: Log) {
    forall j | n <= j < |h| :: Past(g, h[j].loc)
  }

  ghost predicate TargetsOnly(h: seq<Entry>, g: Log) {
    forall i | 0 <= i < |g.renames| :: IsTarget(h, g.renames[i].later)
  }

  /** A live function that will be renamed owns every mark under its name. */
  ghost predicate SourcesOwn(h: seq<Entry>, g: Log) {
    forall s | s in g.created && IsSource(h, s) :: MarksOf(g.events, s) == DirectOf(g, s)
  }

  ghost predicate Unborn(h: seq<Entry>, n: nat, s: Sig)
    requires n <= |h|
  {
    forall k | 0 <= k < n :: !Born(h, k, s)
  }

  /** A renamed name that has not lived yet has left no trace. */
  ghost predicate NoTrace(h: seq<Entry>, n: nat, g: Log)
    requires n <= |h|
  {
    forall s | Involved(h, s) && Unborn(h, n, s) :: MarksOf(g.events, s) == [] && Inherited(g.renames, s) == []
  }

  ghost predicate Holds(h: seq<Entry>, n: nat)
    requires n <= |h|
  {
    var g, t := RunLog(h[..n]), RunTable(h[..n]);
    AllAgree(g, t) && AllPast(h, n, g) && TargetsOnly(h, g) && SourcesOwn(h, g) && NoTrace(h, n, g)
  }

  // Filters ------------------------------------------------------------------------------------------

  function Repeat(m: Mark, sigs: seq<Sig>, s: Sig): seq<Mark> {
    if sigs == [] then []
    else Repeat(m, sigs[..|sigs| - 1], s) + if sigs[|sigs| - 1] == s then [m] else []
  }

  lemma {:induction false} RepeatAll(m: Mark, sigs: seq<Sig>, s: Sig)
    ensures forall k | 0 <= k < |Repeat(m, sigs, s)| :: Repeat(m, sigs, s)[k] == m
    ensures s !in sigs ==> Repeat(m, sigs, s) == []
  {
    if sigs != [] {
      RepeatAll(m, sigs[..|sigs| - 1], s);
      assert sigs[|sigs| - 1] in sigs;
      assert forall x | x in sigs[..|sigs| - 1] :: x in sigs;
    }
  }

  lemma {:induction false} AppendRepeats(t: Table, sigs: seq<Sig>, m: Mark, s: Sig)
    requires s in t
    ensures s in Append(t, sigs, m) && Append(t, sigs, m)[s] == t[s] + Repeat(m, sigs, s)
  {
    if sigs == [] {
      assert t[s] + [] == t[s];
    } else {
      var p := sigs[..|sigs| - 1];
      AppendRepeats(t, p, m, s);
      AppendKeys(t, p, m);
      if sigs[|sigs| - 1] == s {
        assert t[s] + Repeat(m, p, s) + [m] == t[s] + (Repeat(m, p, s) + [m]);
      } else {
        assert Repeat(m, p, s) + [] == Repeat(m, p, s);
      }
    }
  }

  lemma {:induction false} LoggedMore(events: seq<Event>, sigs: seq<Sig>, m: Mark, s: Sig, from: Loc)
    ensures MarksOf(events + Logged(sigs, m), s) == MarksOf(events, s) + Repeat(m, sigs, s)
    ensures NotAfter(from, m.loc) ==>
      Direct(events + Logged(sigs, m), s, from) == Direct(events, s, from) + Repeat(m, sigs, s)
  {
    var all := events + Logged(sigs, m);
    if sigs == [] {
      assert all == events;
      assert MarksOf(events, s) + [] == MarksOf(events, s) && Direct(events, s, from) + [] == Direct(events, s, from);
    } else {
      var p := sigs[..|sigs| - 1];
      LoggedMore(events, p, m, s, from);
      assert all[..|all| - 1] == events + Logged(p, m);
      assert all[|all| - 1] == Event(sigs[|sigs| - 1], m);
      var z := if sigs[|sigs| - 1] == s then [m] else [];
      assert MarksOf(events, s) + Repeat(m, p, s) + z == MarksOf(events, s) + (Repeat(m, p, s) + z);
      assert Direct(events, s, from) + Repeat(m, p, s) + z == Direct(events, s, from) + (Repeat(m, p, s) + z);
    }
  }

  /** All marks stand before a location. */
  predicate Below(marks: seq<Mark>, loc: Loc) {
    forall k | 0 <= k < |marks| :: Before(marks[k].loc, loc)
  }

  /** No mark stands behind a location. */
  predicate UpTo(marks: seq<Mark>, loc: Loc) {
    forall k | 0 <= k < |marks| :: NotAfter(marks[k].loc, loc)
  }

  /** Filtering keeps bounds. */
  lemma {:induction false} DirectBounds(events: seq<Event>, s: Sig, from: Loc, loc: Loc)
    requires forall i | 0 <= i < |events| :: NotAfter(events[i].mark.loc, loc)
    ensures UpTo(Direct(events, s, from), loc) && UpTo(MarksOf(events, s), loc)
  {
    if events != [] {
      DirectBounds(events[..|events| - 1], s, from, loc);
    }
  }

  /** Nothing is found from a location that all events on s precede. */
  lemma {:induction false} NoneFrom(events: seq<Event>, s: Sig, loc: Loc)
    requires forall i | 0 <= i < |events| && events[i].sig == s :: Before(events[i].mark.loc, loc)
    ensures Direct(events, s, loc) == []
  {
    if events != [] {
      NoneFrom(events[..|events| - 1], s, loc);
    }
  }

  lemma {:induction false} MarksFrom(events: seq<Event>, s: Sig, k: nat) returns (i: nat)
    requires k < |MarksOf(events, s)|
    ensures i < |events| && events[i].sig == s && events[i].mark == MarksOf(events, s)[k]
  {
    var p, e := events[..|events| - 1], events[|events| - 1];
    if k < |MarksOf(p, s)| {
      i := MarksFrom(p, s, k);
    } else {
      i := |events| - 1;
    }
  }

  lemma {:induction false} InheritedFrom(renames: seq<RenameRecord>, s: Sig, k: nat) returns (i: nat, m: nat)
    requires k < |Inherited(renames, s)|
    ensures i < |renames| && renames[i].later == s && m < |renames[i].inherited|
    ensures renames[i].inherited[m] == Inherited(renames, s)[k]
  {
    var p := renames[..|renames| - 1];
    if k < |Inherited(p, s)| {
      i, m := InheritedFrom(p, s, k);
    } else {
      i, m := |renames| - 1, k - |Inherited(p, s)|;
    }
  }

  // Where records come from --------------------------------------------------------------------------

  predicate FromAcl(h: seq<Entry>, n: nat, s: Sig, loc: Loc) {
    n <= |h| && exists i | 0 <= i < n :: Names(h[i], s) && h[i].loc == loc
  }

  predicate FromRename(h: seq<Entry>, n: nat, s: Sig, loc: Loc) {
    n <= |h|
    && exists k | 0 <= k < n :: h[k].stmt.Rename? && h[k].stmt.later == s && FromAcl(h, k, h[k].stmt.former, loc)
  }

  ghost predicate Sourced(h: seq<Entry>, n: nat, g: Log) {
    && (forall i | 0 <= i < |g.events| :: FromAcl(h, n, g.events[i].sig, g.events[i].mark.loc))
    && (forall i, m | 0 <= i < |g.renames| && 0 <= m < |g.renames[i].inherited| ::
          FromRename(h, n, g.renames[i].later, g.renames[i].inherited[m].loc))
  }

  lemma FromLater(h: seq<Entry>, n: nat, s: Sig, loc: Loc)
    requires n < |h|
    ensures FromAcl(h, n, s, loc) ==> FromAcl(h, n + 1, s, loc)
    ensures FromRename(h, n, s, loc) ==> FromRename(h, n + 1, s, loc)
  {
    hide Names;
  }

  /** Every logged event comes from a statement on that function, every inherited one from before the rename. */
  lemma {:induction false} AllSourced(h: seq<Entry>, n: nat)
    requires n <= |h|
    ensures Sourced(h, n, RunLog(h[..n]))
  {
    if n == 0 {
      assert h[..0] == [];
    } else {
      AllSourced(h, n - 1);
      Unfolded(h, n - 1);
      hide RunLog, RunTable;
      SourcedNext(h, n - 1, RunLog(h[..n - 1]));
    }
  }

  lemma SourcedNext(h: seq<Entry>, n: nat, g: Log)
    requires n < |h| && Sourced(h, n, g)
    ensures Sourced(h, n + 1, LogStep(g, h[n]))
  {
    hide FromAcl, FromRename;
    var g', e := LogStep(g, h[n]), h[n];
    forall i | 0 <= i < |g'.events|
      ensures FromAcl(h, n + 1, g'.events[i].sig, g'.events[i].mark.loc)
    {
      if i < |g.events| {
        FromLater(h, n, g.events[i].sig, g.events[i].mark.loc);
      } else {
        NamedHere(h, n, g'.events[i].sig);
      }
    }
    forall i, m | 0 <= i < |g'.renames| && 0 <= m < |g'.renames[i].inherited|
      ensures FromRename(h, n + 1, g'.renames[i].later, g'.renames[i].inherited[m].loc)
    {
      if i < |g.renames| {
        FromLater(h, n, g.renames[i].later, g.renames[i].inherited[m].loc);
      } else {
        var k := MarksFrom(g.events, e.stmt.former, m);
        RenamedHere(h, n, g.events[k].mark.loc);
      }
    }
  }

  lemma NamedHere(h: seq<Entry>, n: nat, s: Sig)
    requires n < |h| && h[n].stmt.Acl? && s in h[n].stmt.sigs
    ensures FromAcl(h, n + 1, s, h[n].loc)
  {
    assert Names(h[n], s);
  }

  lemma RenamedHere(h: seq<Entry>, n: nat, loc: Loc)
    requires n < |h| && h[n].stmt.Rename? && FromAcl(h, n, h[n].stmt.former, loc)
    ensures FromRename(h, n + 1, h[n].stmt.later, loc)
  {
  }

  lemma {:induction false} NoMarksNoDirect(events: seq<Event>, s: Sig, from: Loc)
    requires MarksOf(events, s) == []
    ensures Direct(events, s, from) == []
  {
    if events != [] {
      NoMarksNoDirect(events[..|events| - 1], s, from);
    }
  }

  lemma {:induction false} InheritedBounds(renames: seq<RenameRecord>, s: Sig, loc: Loc)
    requires forall i | 0 <= i < |renames| :: UpTo(renames[i].inherited, loc)
    ensures UpTo(Inherited(renames, s), loc)
    ensures (forall i | 0 <= i < |renames| :: renames[i].later != s) ==> Inherited(renames, s) == []
  {
    if renames != [] {
      var p := renames[..|renames| - 1];
      assert forall i | 0 <= i < |p| :: p[i] == renames[i];
      InheritedBounds(p, s, loc);
    }
  }

  // One step ------------------------------------------------------------------------------------------

  lemma {:induction false} LiveWasBorn(h: seq<Entry>, n: nat, s: Sig)
    requires n <= |h| && s in Live(h, n)
    ensures exists k | 0 <= k < n :: Born(h, k, s)
  {
    if n > 0 && s in Live(h, n - 1) {
      LiveWasBorn(h, n - 1, s);
    } else {
      assert h[..0] == [];
      assert Born(h, n - 1, s);
    }
  }

  /** The only birth of an involved name is at n: before that it has left no trace. */
  lemma BornNow(h: seq<Entry>, n: nat, g: Log, s: Sig)
    requires n < |h| && Regular(h) && Involved(h, s) && Born(h, n, s) && NoTrace(h, n, g)
    ensures MarksOf(g.events, s) == [] && Inherited(g.renames, s) == []
  {
    assert Unborn(h, n, s);
  }

  lemma NotTargetNoInherited(h: seq<Entry>, n: nat, g: Log, s: Sig)
    requires n < |h| && TargetsOnly(h, g) && !IsTarget(h, s) && AllPast(h, n, g)
    ensures Inherited(g.renames, s) == []
  {
    assert Past(g, h[n].loc);
    InheritedBounds(g.renames, s, h[n].loc);
  }

  /** Nothing logged under the name counts for a function created anew. */
  lemma CreatedAnew(h: seq<Entry>, n: nat, g: Log, s: Sig)
    requires n < |h| && Separated(h) && h[n].stmt.Create? && h[n].stmt.sig == s && s !in Live(h, n)
    requires g == RunLog(h[..n])
    ensures Direct(g.events, s, h[n].loc) == []
  {
    AllSourced(h, n);
    hide RunLog, Live;
    forall i | 0 <= i < |g.events| && g.events[i].sig == s
      ensures Before(g.events[i].mark.loc, h[n].loc)
    {
      assert FromAcl(h, n, s, g.events[i].mark.loc);
    }
    NoneFrom(g.events, s, h[n].loc);
  }

  /** What a renamed function inherited stands strictly before a grant on it. */
  lemma InheritedBefore(h: seq<Entry>, n: nat, g: Log, s: Sig)
    requires n < |h| && Separated(h) && Names(h[n], s) && g == RunLog(h[..n])
    ensures Below(Inherited(g.renames, s), h[n].loc)
  {
    AllSourced(h, n);
    hide RunLog, Live, Inherited;
    var x := Inherited(g.renames, s);
    forall k | 0 <= k < |x|
      ensures Before(x[k].loc, h[n].loc)
    {
      var i, m := InheritedFrom(g.renames, s, k);
      assert FromRename(h, n, s, x[k].loc);
    }
  }

  lemma CreateStep(h: seq<Entry>, n: nat, g: Log, t: Table, s: Sig, replacing: bool)
    requires n < |h| && Regular(h) && h[n].stmt == Create(s, replacing)
    requires g == RunLog(h[..n]) && t == RunTable(h[..n])
    requires RunLog(h[..n + 1]) == LogStep(g, h[n]) && RunTable(h[..n + 1]) == TableStep(t, h[n])
    requires Holds(h, n)
    ensures Holds(h, n + 1)
  {
    assert Respects(h, n) && Past(g, h[n].loc);
    if s !in t {
      CreatedAnew(h, n, g, s);
      if Involved(h, s) {
        BornNow(h, n, g, s);
      } else {
        NotTargetNoInherited(h, n, g, s);
      }
    }
    assert s in t ==> replacing;
    assert forall x | Unborn(h, n + 1, x) :: Unborn(h, n, x);
    hide Live, RunLog, RunTable, Regular, Respects, Born;
    Created(g, t, h[n], s, replacing);
    CreatedRest(h, n, g, s);
  }

  lemma Created(g: Log, t: Table, e: Entry, s: Sig, replacing: bool)
    requires e.stmt == Create(s, replacing) && AllAgree(g, t) && (s in t ==> replacing)
    requires s !in t ==> Direct(g.events, s, e.loc) == [] && Inherited(g.renames, s) == []
    ensures AllAgree(LogStep(g, e), TableStep(t, e))
  {
    var g', t' := LogStep(g, e), TableStep(t, e);
    forall x | x in t'
      ensures Agrees(g', t', x)
    {
      if x in t {
        assert Agrees(g, t, x);
      }
    }
  }

  lemma CreatedRest(h: seq<Entry>, n: nat, g: Log, s: Sig)
    requires n < |h| && h[n].stmt.Create? && h[n].stmt.sig == s && Ordered(h)
    requires AllPast(h, n, g) && TargetsOnly(h, g) && SourcesOwn(h, g) && NoTrace(h, n, g)
    requires forall x | Unborn(h, n + 1, x) :: Unborn(h, n, x)
    requires s !in g.created && Involved(h, s) ==> MarksOf(g.events, s) == [] && Direct(g.events, s, h[n].loc) == []
    ensures var g' := LogStep(g, h[n]);
      AllPast(h, n + 1, g') && TargetsOnly(h, g') && SourcesOwn(h, g') && NoTrace(h, n + 1, g')
  {
    hide Live, Born, Unborn;
    var g' := LogStep(g, h[n]);
    forall j | n + 1 <= j < |h|
      ensures Past(g', h[j].loc)
    {
      assert Past(g, h[j].loc);
    }
  }

  lemma AclStep(h: seq<Entry>, n: nat, g: Log, t: Table, op: Op, sigs: seq<Sig>, roles: seq<string>)
    requires n < |h| && Regular(h) && h[n].stmt == Acl(op, sigs, roles, None)
    requires g == RunLog(h[..n]) && t == RunTable(h[..n])
    requires RunLog(h[..n + 1]) == LogStep(g, h[n]) && RunTable(h[..n + 1]) == TableStep(t, h[n])
    requires Holds(h, n)
    ensures Holds(h, n + 1)
  {
    var g', t' := LogStep(g, h[n]), TableStep(t, h[n]);
    var m := Mark(h[n].loc, op, roles);
    assert g' == g.(events := g.events + Logged(sigs, m));
    assert Respects(h, n) && Past(g, h[n].loc);
    AppendKeys(t, sigs, m);
    forall x | x in t'
      ensures Agrees(g', t', x)
      ensures MarksOf(g'.events, x) == MarksOf(g.events, x) + Repeat(m, sigs, x)
      ensures DirectOf(g', x) == DirectOf(g, x) + Repeat(m, sigs, x)
    {
      assert Agrees(g, t, x);
      AppendRepeats(t, sigs, m, x);
      LoggedMore(g.events, sigs, m, x, g.created[x]);
      RepeatAll(m, sigs, x);
      DirectBounds(g.events, x, g.created[x], h[n].loc);
      if x in sigs {
        InheritedBefore(h, n, g, x);
      }
      Extended(Inherited(g.renames, x), DirectOf(g, x), Repeat(m, sigs, x), m);
    }
    forall x | Involved(h, x) && Unborn(h, n + 1, x)
      ensures MarksOf(g'.events, x) == []
      ensures Inherited(g'.renames, x) == []
    {
      assert Unborn(h, n, x);
      if x in Live(h, n) {
        LiveWasBorn(h, n, x);
      }
      LoggedMore(g.events, sigs, m, x, h[n].loc);
      RepeatAll(m, sigs, x);
    }
    forall j | n + 1 <= j < |h|
      ensures Past(g', h[j].loc)
    {
      assert Past(g, h[j].loc);
    }
  }

  lemma Extended(x: seq<Mark>, y: seq<Mark>, z: seq<Mark>, m: Mark)
    requires Sorted(x) && Sorted(y) && Apart(x, y)
    requires forall k | 0 <= k < |z| :: z[k] == m
    requires (z != [] ==> Below(x, m.loc)) && UpTo(y, m.loc)
    ensures x + y + z == x + (y + z) && Sorted(y + z) && Apart(x, y + z)
  {
  }

  lemma RenameStep(h: seq<Entry>, n: nat, g: Log, t: Table, a: Sig, b: Sig)
    requires n < |h| && Regular(h) && h[n].stmt == Rename(a, b)
    requires g == RunLog(h[..n]) && t == RunTable(h[..n])
    requires RunLog(h[..n + 1]) == LogStep(g, h[n]) && RunTable(h[..n + 1]) == TableStep(t, h[n])
    requires Holds(h, n)
    ensures Holds(h, n + 1)
  {
    assert Live(h, n) == t.Keys && Live(h, n + 1) == TableStep(t, h[n]).Keys;
    assert Respects(h, n) && Past(g, h[n].loc);
    assert IsSource(h, a) && IsTarget(h, b) && !IsTarget(h, a) && Born(h, n, b);
    BornNow(h, n, g, b);
    NotTargetNoInherited(h, n, g, a);
    NoMarksNoDirect(g.events, b, g.created[a]);
    assert forall x | Unborn(h, n + 1, x) :: Unborn(h, n, x) && x != b;
    assert !IsSource(h, b);
    hide Live, RunLog, RunTable, Regular, Respects, Born;
    Renamed(g, t, a, b, h[n]);
    RenamedRest(h, n, g, a, b);
  }

  lemma Renamed(g: Log, t: Table, a: Sig, b: Sig, e: Entry)
    requires e.stmt == Rename(a, b) && AllAgree(g, t) && a in t && b !in t
    requires Inherited(g.renames, a) == [] && MarksOf(g.events, a) == DirectOf(g, a)
    requires Inherited(g.renames, b) == [] && Direct(g.events, b, g.created[a]) == []
    ensures AllAgree(LogStep(g, e), TableStep(t, e))
  {
    var g', t' := LogStep(g, e), TableStep(t, e);
    assert Agrees(g, t, a);
    RenamedHistory(g, t, a, b, e);
    RenamedKeys(g, t, a, b, e);
    hide LogStep, TableStep, Inherited, MarksOf, Direct;
    forall x | x in t' && x != b
      ensures Agrees(g', t', x)
    {
      assert Agrees(g, t, x);
      hide Agrees;
      RenamedOther(g, t, a, b, e, x);
    }
  }

  lemma RenamedKeys(g: Log, t: Table, a: Sig, b: Sig, e: Entry)
    requires e.stmt == Rename(a, b) && g.created.Keys == t.Keys && a in t && b !in t
    ensures LogStep(g, e).created.Keys == TableStep(t, e).Keys == t.Keys - {a} + {b}
  {
    hide MarksOf;
  }

  lemma RenamedOther(g: Log, t: Table, a: Sig, b: Sig, e: Entry, x: Sig)
    requires e.stmt == Rename(a, b) && g.created.Keys == t.Keys && a in t
    requires x in t && x != a && x != b && Agrees(g, t, x)
    ensures x in LogStep(g, e).created && x in TableStep(t, e) && Agrees(LogStep(g, e), TableStep(t, e), x)
  {
    InheritedSkips(g, a, b, x);
    hide Inherited, MarksOf, Direct;
  }

  lemma RenamedRest(h: seq<Entry>, n: nat, g: Log, a: Sig, b: Sig)
    requires n < |h| && h[n].stmt == Rename(a, b) && Ordered(h) && IsTarget(h, b) && !IsSource(h, b)
    requires AllPast(h, n, g) && TargetsOnly(h, g) && SourcesOwn(h, g) && NoTrace(h, n, g)
    requires forall x | Unborn(h, n + 1, x) :: Unborn(h, n, x) && x != b
    ensures var g' := LogStep(g, h[n]);
      AllPast(h, n + 1, g') && TargetsOnly(h, g') && SourcesOwn(h, g') && NoTrace(h, n + 1, g')
  {
    hide Live, Born, Unborn, Inherited, MarksOf, Direct, Past;
    var g' := LogStep(g, h[n]);
    forall x | x != b
      ensures Inherited(g'.renames, x) == Inherited(g.renames, x)
    {
      InheritedSkips(g, a, b, x);
    }
    forall j | n + 1 <= j < |h|
      ensures Past(g', h[j].loc)
    {
      RenamedPast(g, a, b, h[n], h[j].loc);
    }
    hide Ordered;
  }

  lemma RenamedPast(g: Log, a: Sig, b: Sig, e: Entry, loc: Loc)
    requires e.stmt == Rename(a, b) && Past(g, loc)
    ensures Past(LogStep(g, e), loc)
  {
    DirectBounds(g.events, a, loc, loc);
    hide Direct, MarksOf;
  }

  lemma InheritedSkips(g: Log, a: Sig, b: Sig, x: Sig)
    requires x != b
    ensures Inherited(g.renames + [RenameRecord(b, MarksOf(g.events, a))], x) == Inherited(g.renames, x)
  {
    var rs := g.renames + [RenameRecord(b, MarksOf(g.events, a))];
    assert rs[..|rs| - 1] == g.renames;
  }

  /** The renamed function inherits exactly what it owned under its old name. */
  lemma RenamedHistory(g: Log, t: Table, a: Sig, b: Sig, e: Entry)
    requires e.stmt == Rename(a, b) && a != b && g.created.Keys == t.Keys && a in t && Agrees(g, t, a)
    requires Inherited(g.renames, a) == [] && MarksOf(g.events, a) == DirectOf(g, a)
    requires Inherited(g.renames, b) == [] && Direct(g.events, b, g.created[a]) == []
    ensures b in LogStep(g, e).created && b in TableStep(t, e) && Agrees(LogStep(g, e), TableStep(t, e), b)
  {
    TakenAlong(g, a, b, e);
    hide MarksOf, Direct, Inherited;
    var y := DirectOf(g, a);
    assert [] + y == y && y + [] == y;
  }

  lemma TakenAlong(g: Log, a: Sig, b: Sig, e: Entry)
    requires e.stmt == Rename(a, b) && Inherited(g.renames, b) == []
    ensures Inherited(LogStep(g, e).renames, b) == MarksOf(g.events, a)
  {
    var rs := LogStep(g, e).renames;
    hide MarksOf;
    assert rs[..|rs| - 1] == g.renames;
  }

  lemma DropStep(h: seq<Entry>, n: nat, g: Log, t: Table, sigs: seq<Sig>)
    requires n < |h| && Regular(h) && h[n].stmt == Drop(sigs)
    requires g == RunLog(h[..n]) && t == RunTable(h[..n])
    requires RunLog(h[..n + 1]) == LogStep(g, h[n]) && RunTable(h[..n + 1]) == TableStep(t, h[n])
    requires Holds(h, n)
    ensures Holds(h, n + 1)
  {
    var g', t' := LogStep(g, h[n]), TableStep(t, h[n]);
    forall x | x in t'
      ensures Agrees(g', t', x)
    {
      assert Agrees(g, t, x);
    }
    assert forall x | Unborn(h, n + 1, x) :: Unborn(h, n, x);
    forall j | n + 1 <= j < |h|
      ensures Past(g', h[j].loc)
    {
      assert Past(g, h[j].loc);
    }
  }

  lemma Unfolded(h: seq<Entry>, n: nat)
    requires n < |h|
    ensures RunLog(h[..n + 1]) == LogStep(RunLog(h[..n]), h[n])
    ensures RunTable(h[..n + 1]) == TableStep(RunTable(h[..n]), h[n])
  {
    var p := h[..n + 1];
    assert p[..|p| - 1] == h[..n] && p[|p| - 1] == h[n];
  }

  lemma Step(h: seq<Entry>, n: nat)
    requires n < |h| && Regular(h) && Holds(h, n)
    ensures Holds(h, n + 1)
  {
    Unfolded(h, n);
    assert Respects(h, n);
    hide Holds, Regular, RunLog, RunTable, LogStep, TableStep, Live;
    var g, t := RunLog(h[..n]), RunTable(h[..n]);
    match h[n].stmt {
      case Create(s, replacing) => CreateStep(h, n, g, t, s, replacing);
      case Acl(op, sigs, roles, _) => AclStep(h, n, g, t, op, sigs, roles);
      case Rename(a, b) => RenameStep(h, n, g, t, a, b);
      case Drop(sigs) => DropStep(h, n, g, t, sigs);
      case Other => OtherStep(h, n, g, t);
    }
  }

  lemma {:induction false} AllHold(h: seq<Entry>, n: nat)
    requires n <= |h| && Regular(h)
    ensures Holds(h, n)
  {
    if n == 0 {
      assert h[..0] == [];
    } else {
      AllHold(h, n - 1);
      Step(h, n - 1);
    }
  }

  lemma OtherStep(h: seq<Entry>, n: nat, g: Log, t: Table)
    requires n < |h| && h[n].stmt == Other
    requires g == RunLog(h[..n]) && t == RunTable(h[..n])
    requires RunLog(h[..n + 1]) == LogStep(g, h[n]) && RunTable(h[..n + 1]) == TableStep(t, h[n])
    requires Holds(h, n)
    ensures Holds(h, n + 1)
  {
    assert forall x | Unborn(h, n + 1, x) :: Unborn(h, n, x);
  }

  // The sorted query ---------------------------------------------------------------------------------

  lemma {:induction false} SortSorted(y: seq<Mark>)
    requires Sorted(y)
    ensures Sort(y) == y
  {
    if y != [] {
      var p, m := y[..|y| - 1], y[|y| - 1];
      assert p + [m] == y;
      SortSorted(p);
      InsertLast(p, m);
      hide Insert, NotAfter;
    }
  }

  lemma InsertLast(p: seq<Mark>, m: Mark)
    requires Sorted(p + [m])
    ensures Insert(p, m) == p + [m]
  {
    if p != [] {
      var y := p + [m];
      assert NotAfter(y[|p| - 1].loc, y[|p|].loc);
    }
  }

  /** Inherited marks, appended behind the direct ones, are sorted in front of them. */
  lemma {:induction false} SortMerges(y: seq<Mark>, x: seq<Mark>)
    requires Sorted(x) && Sorted(y) && Apart(x, y)
    ensures Sort(y + x) == x + y
    decreases |x|
  {
    if x == [] {
      SortSorted(y);
      assert y + x == y && x + y == y;
    } else {
      var p, m := x[..|x| - 1], x[|x| - 1];
      SortMerges(y, p);
      assert (y + x)[..|y + x| - 1] == y + p;
      InsertBetween(p, y, m);
      assert p + [m] == x;
    }
  }

  lemma {:induction false} InsertBetween(p: seq<Mark>, y: seq<Mark>, m: Mark)
    requires forall i | 0 <= i < |p| :: NotAfter(p[i].loc, m.loc)
    requires forall j | 0 <= j < |y| :: Before(m.loc, y[j].loc)
    ensures Insert(p + y, m) == p + [m] + y
    decreases |y|
  {
    if y == [] {
      assert p + y == p && p + [m] + y == p + [m];
    } else {
      var q := y[..|y| - 1];
      assert (p + y)[..|p + y| - 1] == p + q;
      InsertBetween(p, q, m);
      assert p + [m] + q + [y[|y| - 1]] == p + [m] + y;
    }
  }

  /** On regular histories the queried log gives every final function exactly the table's list of marks. */
  lemma HistoriesAgree(h: seq<Entry>)
    requires Regular(h)
    ensures RunLog(h).created.Keys == RunTable(h).Keys
    ensures forall s | s in RunTable(h) :: LogHistory(RunLog(h), s) == RunTable(h)[s]
  {
    AllHold(h, |h|);
    assert h[..|h|] == h;
    var g, t := RunLog(h), RunTable(h);
    forall s | s in t
      ensures LogHistory(g, s) == t[s]
    {
      assert Agrees(g, t, s);
      SortMerges(DirectOf(g, s), Inherited(g.renames, s));
    }
  }

  /** The two scripts report the same last explicit operation per role for every final function. */
  lemma ReplaysAgree(h: seq<Entry>)
    requires Regular(h)
    ensures LogSummary(RunLog(h)) == TableSummary(RunTable(h))
  {
    HistoriesAgree(h);
  }
}
