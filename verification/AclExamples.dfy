/** Histories on which the two replays differ: each breaks one of the conditions under which they agree. */
module AclExamples {
  import opened Text
  import opened AclReplay

  lemma LogOf(h: seq<Entry>, e: Entry)
    ensures RunLog(h + [e]) == LogStep(RunLog(h), e) && RunTable(h + [e]) == TableStep(RunTable(h), e)
  {
    assert (h + [e])[..|h + [e]| - 1] == h;
  }

  /** The marks both replays report for a function at the end of a history. */
  predicate Reports(h: seq<Entry>, s: Sig, logged: seq<Mark>, tabled: seq<Mark>) {
    && s in RunLog(h).created && LogHistory(RunLog(h), s) == logged
    && s in RunTable(h) && RunTable(h)[s] == tabled
  }

  function At(line: nat, stmt: Statement): Entry {
    Entry(Loc(0, line), stmt)
  }

  lemma GrantOf(h: seq<Entry>, g: Log, t: Table, s: Sig, m: Mark) returns (e: Entry)
    requires RunLog(h) == g && RunTable(h) == t && s in t
    ensures e == Entry(m.loc, Acl(m.op, [s], m.roles, None))
    ensures RunLog(h + [e]) == g.(events := g.events + [Event(s, m)])
    ensures RunTable(h + [e]) == t[s := t[s] + [m]]
  {
    e := Entry(m.loc, Acl(m.op, [s], m.roles, None));
    LogOf(h, e);
    hide RunLog, RunTable;
    OneAppend(t, s, m);
    assert Logged([s], m) == [Event(s, m)];
  }

  /** A grant, a drop and a new CREATE on one line: the log still counts the grant of the dropped function. */
  lemma SameLineDiffers(m: Mark) returns (h: seq<Entry>)
    requires m == Mark(Loc(0, 2), Grant, ["anon"])
    ensures h == [At(1, Create("f", false)), At(2, Acl(Grant, ["f"], ["anon"], None)), At(2, Drop(["f"])),
                  At(2, Create("f", false))]
    ensures Reports(h, "f", [m], [])
  {
    h := Granted("f", "anon");
    hide RunLog, RunTable, Direct, MarksOf;
    LogOf(h, At(2, Drop(["f"])));
    h := h + [At(2, Drop(["f"]))];
    assert RunLog(h) == Log(map[], [Event("f", m)], []) && RunTable(h) == map[];
    LogOf(h, At(2, Create("f", false)));
    h := h + [At(2, Create("f", false))];
    OneDirect(Event("f", m), Loc(0, 2));
    OneSort(m);
  }

  lemma OneAppend(t: Table, s: Sig, m: Mark)
    requires s in t
    ensures Append(t, [s], m) == t[s := t[s] + [m]]
  {
    assert [s][..0] == [];
  }

  lemma OneDirect(e: Event, from: Loc)
    requires NotAfter(from, e.mark.loc)
    ensures Direct([e], e.sig, from) == [e.mark] && MarksOf([e], e.sig) == [e.mark]
  {
    assert [e][..0] == [];
  }

  lemma OneSort(m: Mark)
    ensures Sort([m] + Inherited([], "f")) == [m]
  {
    assert [m] + [] == [m] && [m][..0] == [];
  }

  /** A function renamed twice: the log loses the grant made under the first name. */
  lemma TwiceRenamedDiffers(m: Mark) returns (h: seq<Entry>)
    requires m == Mark(Loc(0, 2), Grant, ["anon"])
    ensures h == [At(1, Create("a", false)), At(2, Acl(Grant, ["a"], ["anon"], None)), At(3, Rename("a", "b")),
                  At(4, Rename("b", "c"))]
    ensures Reports(h, "c", [], [m])
  {
    h := RenamedOnce(m, 3);
    hide RunLog, RunTable, Direct;
    var ev := [Event("a", m)];
    var r1, r2 := RenameRecord("b", [m]), RenameRecord("c", []);
    NoneUnder(ev[0], "b", Loc(0, 1));
    NoneUnder(ev[0], "c", Loc(0, 1));
    var e := At(4, Rename("b", "c"));
    OneRename(h, Log(map["b" := Loc(0, 1)], ev, [r1]), e, [m]);
    h := h + [e];
    NothingInherited(r1, r2, "c");
    assert RunLog(h) == Log(map["c" := Loc(0, 1)], ev, [r1] + [r2]);
    assert Sort([] + []) == [];
  }

  lemma RenamedOnce(m: Mark, line: nat) returns (h: seq<Entry>)
    requires m == Mark(Loc(0, 2), Grant, ["anon"])
    ensures h == [At(1, Create("a", false)), At(2, Acl(Grant, ["a"], ["anon"], None)), At(line, Rename("a", "b"))]
    ensures RunLog(h) == Log(map["b" := Loc(0, 1)], [Event("a", m)], [RenameRecord("b", [m])])
    ensures RunTable(h) == map["b" := [m]]
  {
    h := Granted("a", "anon");
    hide RunLog, RunTable, Direct;
    OneDirect(Event("a", m), Loc(0, 1));
    var e := At(line, Rename("a", "b"));
    OneRename(h, Log(map["a" := Loc(0, 1)], [Event("a", m)], []), e, [m]);
    h := h + [e];
    assert [] + [RenameRecord("b", [m])] == [RenameRecord("b", [m])];
  }

  /** A function created on line 1. */
  lemma Created(s: Sig) returns (h: seq<Entry>)
    ensures h == [At(1, Create(s, false))]
    ensures RunLog(h) == Log(map[s := Loc(0, 1)], [], []) && RunTable(h) == map[s := []]
  {
    h := [At(1, Create(s, false))];
    LogOf([], h[0]);
    assert [] + h == h;
  }

  /** A function created on line 1 and granted on line 2. */
  lemma Granted(s: Sig, role: string) returns (h: seq<Entry>)
    ensures h == [At(1, Create(s, false)), At(2, Acl(Grant, [s], [role], None))]
    ensures var m := Mark(Loc(0, 2), Grant, [role]);
      RunLog(h) == Log(map[s := Loc(0, 1)], [Event(s, m)], []) && RunTable(h) == map[s := [m]]
  {
    var m := Mark(Loc(0, 2), Grant, [role]);
    h := Created(s);
    hide RunLog, RunTable;
    var t: Table := map[s := []];
    var e := GrantOf(h, Log(map[s := Loc(0, 1)], [], []), t, s, m);
    h := h + [e];
    assert [] + [m] == [m] && t[s := [m]] == map[s := [m]] && [] + [Event(s, m)] == [Event(s, m)];
  }

  lemma OneRename(h: seq<Entry>, g: Log, e: Entry, ms: seq<Mark>)
    requires e.stmt.Rename? && RunLog(h) == g && RunTable(h) == map[e.stmt.former := ms]
    requires g.created == map[e.stmt.former := Loc(0, 1)]
    ensures RunLog(h + [e]) == Log(map[e.stmt.later := Loc(0, 1)], g.events,
                                   g.renames + [RenameRecord(e.stmt.later, MarksOf(g.events, e.stmt.former))])
    ensures RunTable(h + [e]) == map[e.stmt.later := ms]
  {
    LogOf(h, e);
  }

  lemma NothingInherited(r1: RenameRecord, r2: RenameRecord, s: Sig)
    requires r1.later != s && r2 == RenameRecord(s, [])
    ensures Inherited([r1] + [r2], s) == []
  {
    var rs := [r1] + [r2];
    assert rs[..1] == [r1] && [r1][..0] == [];
    assert Inherited([r1], s) == [] + [];
    assert Inherited(rs, s) == Inherited([r1], s) + [];
  }

  /** A grant, a rename and a revoke on one line: the log takes the inherited grant for the later one. */
  lemma SameLineRenameDiffers(g: Mark, r: Mark) returns (h: seq<Entry>)
    requires g == Mark(Loc(0, 2), Grant, ["anon"]) && r == Mark(Loc(0, 2), Revoke, ["anon"])
    ensures h == [At(1, Create("a", false)), At(2, Acl(Grant, ["a"], ["anon"], None)), At(2, Rename("a", "b")),
                  At(2, Acl(Revoke, ["b"], ["anon"], None))]
    ensures Reports(h, "b", [r] + [g], [g] + [r])
  {
    h := RenamedOnce(g, 2);
    hide RunLog, RunTable, Reports;
    var t: Table := map["b" := [g]];
    var z := GrantOf(h, Log(map["b" := Loc(0, 1)], [Event("a", g)], [RenameRecord("b", [g])]), t, "b", r);
    h := h + [z];
    FinalReports(h, g, r);
  }

  lemma FinalReports(h: seq<Entry>, g: Mark, r: Mark)
    requires g.loc == r.loc == Loc(0, 2)
    requires RunLog(h) == Log(map["b" := Loc(0, 1)], [Event("a", g)] + [Event("b", r)], [RenameRecord("b", [g])])
    requires RunTable(h) == map["b" := [g] + [r]]
    ensures Reports(h, "b", [r] + [g], [g] + [r])
  {
    hide RunLog, RunTable, Direct, Inherited, Sort;
    TwoEvents(g, r);
    Pair(r, g);
  }

  lemma TwoEvents(g: Mark, r: Mark)
    requires g.loc == r.loc == Loc(0, 2)
    ensures Direct([Event("a", g)] + [Event("b", r)], "b", Loc(0, 1)) == [r]
    ensures Inherited([RenameRecord("b", [g])], "b") == [g]
  {
    var ev, rs := [Event("a", g)] + [Event("b", r)], [RenameRecord("b", [g])];
    assert ev[..1] == [Event("a", g)] && [Event("a", g)][..0] == [] && rs[..0] == [];
    assert Direct(ev[..1], "b", Loc(0, 1)) == [] + [];
    assert [] + [r] == [r] && [] + [g] == [g];
  }

  lemma Pair(a: Mark, b: Mark)
    requires a.loc == b.loc
    ensures Sort([a] + [b]) == [a] + [b]
  {
    assert ([a] + [b])[..1] == [a] && [a][..0] == [];
    assert Sort([a]) == [] + [a];
  }

  lemma NoneUnder(e: Event, s: Sig, from: Loc)
    requires e.sig != s
    ensures Direct([e], s, from) == [] && MarksOf([e], s) == []
  {
    assert [e][..0] == [];
  }

  /** A role list that ends in CASCADE: the log no longer recognises the last role. */
  lemma SuffixDiffers(m: Mark, n: Mark) returns (h: seq<Entry>)
    requires m == Mark(Loc(0, 2), Revoke, ["anon"]) && n == m.(roles := RolesAsLogged(["anon"], Some("cascade")))
    ensures h == [At(1, Create("f", false)), At(2, Acl(Revoke, ["f"], ["anon"], Some("cascade")))]
    ensures Reports(h, "f", [n], [m])
    ensures Summary([n]) != Summary([m])
  {
    h := Created("f");
    hide RunLog, RunTable, RolesAsLogged, Direct;
    var e := At(2, Acl(Revoke, ["f"], ["anon"], Some("cascade")));
    LogOf(h, e);
    h := h + [e];
    OneAppend(map["f" := []], "f", m);
    assert Logged(["f"], n) == [Event("f", n)] && [] + [Event("f", n)] == [Event("f", n)] && [] + [m] == [m];
    assert RunLog(h) == Log(map["f" := Loc(0, 1)], [Event("f", n)], []) && RunTable(h) == map["f" := [m]];
    OneDirect(Event("f", n), Loc(0, 1));
    OneSort(n);
    SuffixHides(m, n);
  }

  lemma SuffixHides(m: Mark, n: Mark)
    requires m.op == Revoke && m.roles == ["anon"] && n == m.(roles := RolesAsLogged(["anon"], Some("cascade")))
    ensures Summary([n]) != Summary([m])
  {
    var roles := RolesAsLogged(["anon"], Some("cascade"));
    assert roles == ["anon" + " " + "cascade"] && |roles[0]| == 12;
    assert "anon" !in roles && "anon" in ROLES;
    assert [n][..0] == [];
    assert LastOp([n], "anon") == None && LastOp([m], "anon") == Some(Revoke);
    assert Summary([n])["anon"] != Summary([m])["anon"];
  }

  /** CREATE over a live function without OR REPLACE: the log keeps the grant on it. */
  lemma RecreatedDiffers(m: Mark) returns (h: seq<Entry>)
    requires m == Mark(Loc(0, 2), Grant, ["anon"])
    ensures h == [At(1, Create("f", false)), At(2, Acl(Grant, ["f"], ["anon"], None)), At(3, Create("f", false))]
    ensures Reports(h, "f", [m], [])
  {
    h := Granted("f", "anon");
    hide RunLog, RunTable, Direct;
    var e := At(3, Create("f", false));
    LogOf(h, e);
    h := h + [e];
    OneDirect(Event("f", m), Loc(0, 1));
    OneSort(m);
  }

  /** A rename of a function that does not exist: what was granted under its name reaches a function created later
      under the new one. */
  lemma MissingSourceDiffers(m: Mark) returns (h: seq<Entry>)
    requires m == Mark(Loc(0, 1), Grant, ["anon"])
    ensures h == [At(1, Acl(Grant, ["a"], ["anon"], None)), At(2, Rename("a", "b")), At(3, Create("b", false))]
    ensures Reports(h, "b", [m], [])
  {
    var p := GrantedToNobody("a", m);
    var d, e := At(2, Rename("a", "b")), At(3, Create("b", false));
    hide *;
    RenamedNobody(p, d, m);
    CreatedLater(p + [d], e, m);
    h := p + [d] + [e];
    Joined(p[0], d, e);
  }

  lemma Joined(c: Entry, d: Entry, e: Entry)
    ensures [c] + [d] + [e] == [c, d, e]
  {
  }

  lemma RenamedNobody(h: seq<Entry>, e: Entry, m: Mark)
    requires RunLog(h) == Log(map[], [Event("a", m)], []) && RunTable(h) == map[] && e == At(2, Rename("a", "b"))
    ensures RunLog(h + [e]) == Log(map[], [Event("a", m)], [RenameRecord("b", [m])]) && RunTable(h + [e]) == map[]
  {
    LogOf(h, e);
    OneDirect(Event("a", m), m.loc);
    assert [] + [RenameRecord("b", [m])] == [RenameRecord("b", [m])];
    hide RunLog, RunTable, MarksOf;
  }

  lemma CreatedLater(h: seq<Entry>, e: Entry, m: Mark)
    requires RunLog(h) == Log(map[], [Event("a", m)], [RenameRecord("b", [m])]) && RunTable(h) == map[]
    requires e == At(3, Create("b", false))
    ensures Reports(h + [e], "b", [m], [])
  {
    LogOf(h, e);
    hide RunLog, RunTable, Reports, Inherited;
    OneInherited("b", m);
    InheritedOnly(h + [e], "a", "b", m, [RenameRecord("b", [m])]);
  }

  lemma GrantedToNobody(s: Sig, m: Mark) returns (h: seq<Entry>)
    requires m == Mark(Loc(0, 1), Grant, ["anon"])
    ensures h == [At(1, Acl(Grant, [s], ["anon"], None))]
    ensures RunLog(h) == Log(map[], [Event(s, m)], []) && RunTable(h) == map[]
  {
    h := [At(1, Acl(Grant, [s], ["anon"], None))];
    LogOf([], h[0]);
    assert [] + h == h;
    NotThere(map[], s, m);
    assert Logged([s], m) == [Event(s, m)] && [] + [Event(s, m)] == [Event(s, m)];
  }

  lemma OneInherited(s: Sig, m: Mark)
    ensures Inherited([RenameRecord(s, [m])], s) == [m]
  {
    assert [RenameRecord(s, [m])][..0] == [];
    assert [] + [m] == [m];
  }

  /** What was logged only under another name, but inherited. */
  lemma InheritedOnly(h: seq<Entry>, x: Sig, s: Sig, m: Mark, rs: seq<RenameRecord>)
    requires RunLog(h).events == [Event(x, m)] && RunLog(h).renames == rs && s in RunLog(h).created && x != s
    requires s in RunTable(h) && RunTable(h)[s] == [] && Inherited(rs, s) == [m]
    ensures Reports(h, s, [m], [])
  {
    hide RunLog, RunTable, Inherited;
    NoneUnder(Event(x, m), s, RunLog(h).created[s]);
    SortOne(m);
    hide Direct, Sort;
  }

  lemma SortOne(m: Mark)
    ensures Sort([] + [m]) == [m]
  {
    assert [] + [m] == [m] && [m][..0] == [];
  }

  /** A rename onto a live function: the log counts the grant on the function that was there before. */
  lemma TakenTargetDiffers(m: Mark) returns (h: seq<Entry>)
    requires m == Mark(Loc(0, 2), Grant, ["anon"])
    ensures h == [At(1, Create("a", false)), At(1, Create("f", false)), At(2, Acl(Grant, ["f"], ["anon"], None)),
                  At(3, Rename("a", "f"))]
    ensures Reports(h, "f", [m], [])
  {
    h := Created("a");
    hide RunLog, RunTable, Direct, MarksOf;
    var c, e := At(1, Create("f", false)), At(3, Rename("a", "f"));
    LogOf(h, c);
    h := h + [c];
    var both := map["a" := Loc(0, 1), "f" := Loc(0, 1)];
    var z := GrantOf(h, Log(both, [], []), map["a" := [], "f" := []], "f", m);
    h := h + [z];
    assert [] + [Event("f", m)] == [Event("f", m)] && [] + [m] == [m];
    assert RunLog(h) == Log(both, [Event("f", m)], []) && RunTable(h) == map["a" := [], "f" := [m]];
    LogOf(h, e);
    h := h + [e];
    NoneUnder(Event("f", m), "a", Loc(0, 1));
    OneDirect(Event("f", m), Loc(0, 1));
    assert [] + [RenameRecord("f", [])] == [RenameRecord("f", [])];
    EmptyInherited("f", m);
  }

  lemma EmptyInherited(s: Sig, m: Mark)
    ensures Sort([m] + Inherited([RenameRecord(s, [])], s)) == [m]
  {
    assert [RenameRecord(s, [])][..0] == [];
    assert [m] + [] == [m] && [m][..0] == [];
  }

  /** A grant under a name that a live function is renamed to later: only the log counts it. */
  lemma EarlyGrantDiffers(m: Mark) returns (h: seq<Entry>)
    requires m == Mark(Loc(0, 2), Grant, ["anon"])
    ensures h == [At(1, Create("a", false)), At(2, Acl(Grant, ["b"], ["anon"], None)), At(3, Rename("a", "b"))]
    ensures Reports(h, "b", [m], [])
  {
    h := Created("a");
    hide RunLog, RunTable, Direct, MarksOf;
    var d, e := At(2, Acl(Grant, ["b"], ["anon"], None)), At(3, Rename("a", "b"));
    LogOf(h, d);
    h := h + [d];
    NotThere(map["a" := []], "b", m);
    assert Logged(["b"], m) == [Event("b", m)] && [] + [Event("b", m)] == [Event("b", m)];
    assert RunLog(h) == Log(map["a" := Loc(0, 1)], [Event("b", m)], []) && RunTable(h) == map["a" := []];
    LogOf(h, e);
    h := h + [e];
    NoneUnder(Event("b", m), "a", Loc(0, 1));
    OneDirect(Event("b", m), Loc(0, 1));
    assert [] + [RenameRecord("b", [])] == [RenameRecord("b", [])];
    EmptyInherited("b", m);
  }

  lemma NotThere(t: Table, s: Sig, m: Mark)
    requires s !in t
    ensures Append(t, [s], m) == t
  {
    assert [s][..0] == [];
  }

  /** A name that lives twice and is renamed both times: the second function is given the grants of the first. */
  lemma SecondLifeDiffers(m: Mark) returns (h: seq<Entry>)
    requires m == Mark(Loc(0, 2), Grant, ["anon"])
    ensures h == [At(1, Create("a", false)), At(2, Acl(Grant, ["a"], ["anon"], None)), At(3, Rename("a", "b")),
                  At(4, Create("a", false)), At(5, Rename("a", "c"))]
    ensures Reports(h, "c", [m], [])
  {
    var p := RenamedOnce(m, 3);
    var d, e := At(4, Create("a", false)), At(5, Rename("a", "c"));
    hide *;
    CreatedAgain(p, d, m);
    RenamedAgain(p + [d], e, m);
    h := p + [d] + [e];
    JoinedTwo(p[0], p[1], p[2], d, e);
  }

  lemma JoinedTwo(a: Entry, b: Entry, c: Entry, d: Entry, e: Entry)
    ensures [a, b, c] + [d] + [e] == [a, b, c, d, e]
  {
  }

  lemma CreatedAgain(h: seq<Entry>, e: Entry, m: Mark)
    requires RunLog(h) == Log(map["b" := Loc(0, 1)], [Event("a", m)], [RenameRecord("b", [m])])
    requires RunTable(h) == map["b" := [m]] && e == At(4, Create("a", false))
    ensures RunLog(h + [e])
      == Log(map["b" := Loc(0, 1), "a" := Loc(0, 4)], [Event("a", m)], [RenameRecord("b", [m])])
    ensures RunTable(h + [e]) == map["b" := [m], "a" := []]
  {
    LogOf(h, e);
    hide RunLog, RunTable;
  }

  lemma RenamedAgain(h: seq<Entry>, e: Entry, m: Mark)
    requires RunLog(h) == Log(map["b" := Loc(0, 1), "a" := Loc(0, 4)], [Event("a", m)], [RenameRecord("b", [m])])
    requires RunTable(h) == map["b" := [m], "a" := []] && e == At(5, Rename("a", "c"))
    ensures Reports(h + [e], "c", [m], [])
  {
    LogOf(h, e);
    OneDirect(Event("a", m), m.loc);
    hide RunLog, RunTable, MarksOf, Inherited, Reports;
    var r1, r2 := RenameRecord("b", [m]), RenameRecord("c", [m]);
    SecondInherited(r1, r2, "c");
    InheritedOnly(h + [e], "a", "c", m, [r1] + [r2]);
  }

  lemma SecondInherited(r1: RenameRecord, r2: RenameRecord, s: Sig)
    requires r1.later != s && r2.later == s
    ensures Inherited([r1] + [r2], s) == r2.inherited
  {
    var rs := [r1] + [r2];
    assert rs[..1] == [r1] && [r1][..0] == [];
    assert Inherited([r1], s) == [] + [];
    assert Inherited(rs, s) == Inherited([r1], s) + r2.inherited;
  }
}
