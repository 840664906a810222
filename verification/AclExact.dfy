/** Without renames and role suffixes: exactly when the two replays of the grant history report alike. */
module AclExact {
  import opened Text
  import opened AclReplay
  import opened AclAgreement

  /** Statements in the order of their locations, none of them a rename, no role list with a suffix. */
  predicate Unrenamed(h: seq<Entry>) {
    && Ordered(h)
    && forall i | 0 <= i < |h| :: !h[i].stmt.Rename? && (h[i].stmt.Acl? ==> h[i].stmt.suffix == None)
  }

  /** The marks of s that stand before its last creation, but not before the place of its first one in this life: the
      log counts them, the table has dropped them. A creation over a live function without OR REPLACE adds all marks
      so far, a creation of a function that does not exist those of its own line. */
  function Early(h: seq<Entry>, s: Sig): seq<Mark> {
    if h == [] then []
    else
      var p, e := h[..|h| - 1], h[|h| - 1];
      if !e.stmt.Create? || e.stmt.sig != s then Early(p, s)
      else if s !in RunTable(p) then Direct(RunLog(p).events, s, e.loc)
      else if e.stmt.replacing then Early(p, s)
      else Early(p, s) + RunTable(p)[s]
  }

  lemma UnrenamedBefore(h: seq<Entry>)
    requires h != [] && Unrenamed(h)
    ensures Unrenamed(h[..|h| - 1])
  {
    var p := h[..|h| - 1];
    assert forall i | 0 <= i < |p| :: p[i] == h[i];
  }

  /** The log holds nothing behind the last statement, in order, and nothing inherited. */
  predicate Quiet(g: Log, loc: Loc) {
    && g.renames == [] && (forall i | 0 <= i < |g.events| :: NotAfter(g.events[i].mark.loc, loc))
    && forall s | s in g.created :: NotAfter(g.created[s], loc)
  }

  lemma {:induction false} QuietBefore(h: seq<Entry>, loc: Loc)
    requires Unrenamed(h) && forall i | 0 <= i < |h| :: NotAfter(h[i].loc, loc)
    ensures Quiet(RunLog(h), loc)
  {
    if h != [] {
      UnrenamedBefore(h);
      QuietBefore(h[..|h| - 1], loc);
    }
  }

  /** What the log counts for a live function: the early marks, then the table's. */
  predicate Split(h: seq<Entry>, s: Sig) {
    var g, t := RunLog(h), RunTable(h);
    s in g.created && s in t && DirectOf(g, s) == Early(h, s) + t[s]
  }

  lemma {:induction false} AllSplit(h: seq<Entry>, s: Sig)
    requires Unrenamed(h) && s in RunTable(h)
    ensures Split(h, s)
  {
    SameFunctions(h);
    if h != [] {
      var p, e := h[..|h| - 1], h[|h| - 1];
      UnrenamedBefore(h);
      QuietBefore(p, e.loc);
      SameFunctions(p);
      if e.stmt.Acl? {
        AppendKeys(RunTable(p), e.stmt.sigs, Mark(e.loc, e.stmt.op, e.stmt.roles));
      }
      if s in RunTable(p) {
        AllSplit(p, s);
        StepSplit(h, p, e, s);
      } else {
        BornSplit(h, p, e, s);
      }
    }
  }

  lemma BornSplit(h: seq<Entry>, p: seq<Entry>, e: Entry, s: Sig)
    requires h != [] && p == h[..|h| - 1] && e == h[|h| - 1] && !e.stmt.Rename?
    requires s in RunTable(h) && s !in RunTable(p) && RunLog(p).created.Keys == RunTable(p).Keys
    requires e.stmt.Acl? ==> RunTable(h).Keys == RunTable(p).Keys
    ensures Split(h, s)
  {
    hide Direct;
    assert e.stmt == Create(s, e.stmt.replacing);
    assert Early(h, s) + [] == Early(h, s);
  }

  lemma StepSplit(h: seq<Entry>, p: seq<Entry>, e: Entry, s: Sig)
    requires h != [] && p == h[..|h| - 1] && e == h[|h| - 1] && !e.stmt.Rename? && s in RunTable(h)
    requires (e.stmt.Acl? ==> e.stmt.suffix == None) && Quiet(RunLog(p), e.loc) && Split(p, s)
    ensures Split(h, s)
  {
    var g, t := RunLog(p), RunTable(p);
    match e.stmt {
      case Create(x, replacing) =>
        hide Direct;
        if x == s && !replacing {
          assert Early(h, s) + [] == Early(h, s);
        }
      case Acl(op, sigs, roles, suffix) =>
        EarlyKept(h, p, e, s);
        hide Direct, Early, Append;
        AclSplit(g, t, e, s, Early(p, s));
      case _ =>
        hide Direct;
    }
  }

  lemma AclSplit(g: Log, t: Table, e: Entry, s: Sig, early: seq<Mark>)
    requires e.stmt.Acl? && e.stmt.suffix == None && Quiet(g, e.loc) && s in g.created && s in t
    requires DirectOf(g, s) == early + t[s]
    ensures s in LogStep(g, e).created && s in TableStep(t, e)
    ensures DirectOf(LogStep(g, e), s) == early + TableStep(t, e)[s]
  {
    var m := Mark(e.loc, e.stmt.op, e.stmt.roles);
    AppendRepeats(t, e.stmt.sigs, m, s);
    LoggedMore(g.events, e.stmt.sigs, m, s, g.created[s]);
    hide Direct, MarksOf, Append, Repeat;
    assert early + t[s] + Repeat(m, e.stmt.sigs, s) == early + (t[s] + Repeat(m, e.stmt.sigs, s));
  }

  lemma EarlyKept(h: seq<Entry>, p: seq<Entry>, e: Entry, s: Sig)
    requires h != [] && p == h[..|h| - 1] && e == h[|h| - 1] && !e.stmt.Create?
    ensures Early(h, s) == Early(p, s)
  {
  }

  // The queried log ------------------------------------------------------------------------------------

  predicate InOrder(events: seq<Event>) {
    forall i, j | 0 <= i < j < |events| :: NotAfter(events[i].mark.loc, events[j].mark.loc)
  }

  lemma {:induction false} EventsInOrder(h: seq<Entry>)
    requires Unrenamed(h)
    ensures InOrder(RunLog(h).events)
  {
    if h != [] {
      var p, e := h[..|h| - 1], h[|h| - 1];
      UnrenamedBefore(h);
      EventsInOrder(p);
      QuietBefore(p, e.loc);
    }
  }

  lemma {:induction false} DirectSorted(events: seq<Event>, s: Sig, from: Loc)
    requires InOrder(events)
    ensures Sorted(Direct(events, s, from))
    ensures forall loc | (forall i | 0 <= i < |events| :: NotAfter(events[i].mark.loc, loc)) ::
      UpTo(Direct(events, s, from), loc)
  {
    if events != [] {
      DirectSorted(events[..|events| - 1], s, from);
      assert UpTo(Direct(events[..|events| - 1], s, from), events[|events| - 1].mark.loc);
    }
  }

  /** The queried log gives a final function the early marks, then the table's list. */
  lemma HistoryIs(h: seq<Entry>, s: Sig)
    requires Unrenamed(h) && s in RunTable(h)
    ensures s in RunLog(h).created && LogHistory(RunLog(h), s) == Early(h, s) + RunTable(h)[s]
  {
    AllSplit(h, s);
    EventsInOrder(h);
    var g := RunLog(h);
    DirectSorted(g.events, s, g.created[s]);
    NothingRenamed(h);
    SortSorted(DirectOf(g, s));
    assert DirectOf(g, s) + [] == DirectOf(g, s);
    hide Sort, Direct, Early, RunLog, RunTable;
  }

  lemma {:induction false} NothingRenamed(h: seq<Entry>)
    requires Unrenamed(h)
    ensures RunLog(h).renames == []
  {
    if h != [] {
      UnrenamedBefore(h);
      NothingRenamed(h[..|h| - 1]);
    }
  }

  /** Both replays hold the same marks for all final functions exactly when none of them has early marks. */
  lemma HistoriesAgreeIff(h: seq<Entry>)
    requires Unrenamed(h)
    ensures RunLog(h).created.Keys == RunTable(h).Keys
    ensures (forall s | s in RunTable(h) :: LogHistory(RunLog(h), s) == RunTable(h)[s])
       <==> forall s | s in RunTable(h) :: Early(h, s) == []
  {
    SameFunctions(h);
    hide LogHistory, Early, RunLog, RunTable, Unrenamed;
    forall s | s in RunTable(h)
      ensures LogHistory(RunLog(h), s) == RunTable(h)[s] <==> Early(h, s) == []
    {
      HistoryIs(h, s);
      LongerBy(Early(h, s), RunTable(h)[s]);
    }
  }

  lemma LongerBy(a: seq<Mark>, b: seq<Mark>)
    ensures a + b == b <==> a == []
  {
    if a == [] {
      assert a + b == b;
    } else {
      assert |a + b| > |b|;
    }
  }

  lemma {:induction false} LastOpConcat(a: seq<Mark>, b: seq<Mark>, role: string)
    ensures LastOp(a + b, role) == if LastOp(b, role).Some? then LastOp(b, role) else LastOp(a, role)
  {
    if b == [] {
      assert a + b == a;
    } else {
      assert (a + b)[..|a + b| - 1] == a + b[..|b| - 1];
      LastOpConcat(a, b[..|b| - 1], role);
    }
  }

  /** Every role an early mark names is named again in the table's list. */
  predicate Overridden(early: seq<Mark>, marks: seq<Mark>) {
    forall role | role in ROLES && LastOp(early, role).Some? :: LastOp(marks, role).Some?
  }

  lemma SameSummary(a: seq<Mark>, b: seq<Mark>)
    ensures Summary(a + b) == Summary(b) <==> Overridden(a, b)
  {
    forall role | role in ROLES
      ensures Summary(a + b)[role] == if LastOp(b, role).Some? then LastOp(b, role) else LastOp(a, role)
    {
      LastOpConcat(a, b, role);
    }
    hide LastOp;
    if Overridden(a, b) {
      assert Summary(a + b) == Summary(b);
    } else {
      var role :| role in ROLES && LastOp(a, role).Some? && LastOp(b, role) == None;
      assert Summary(a + b)[role] != Summary(b)[role];
    }
  }

  /** The two scripts report alike exactly when, for every final function, every reported role that an early mark names
      is named again later. */
  lemma ReplaysAgreeIff(h: seq<Entry>)
    requires Unrenamed(h)
    ensures LogSummary(RunLog(h)) == TableSummary(RunTable(h))
       <==> forall s | s in RunTable(h) :: Overridden(Early(h, s), RunTable(h)[s])
  {
    SameFunctions(h);
    hide LogHistory, Early, RunLog, RunTable, Unrenamed, Overridden, Summary;
    var g, t := RunLog(h), RunTable(h);
    forall s | s in t
      ensures LogSummary(g)[s] == TableSummary(t)[s] <==> Overridden(Early(h, s), t[s])
    {
      HistoryIs(h, s);
      SameSummary(Early(h, s), t[s]);
    }
    hide LogSummary, TableSummary;
    SameMaps(g, t);
  }

  lemma SameMaps(g: Log, t: Table)
    requires g.created.Keys == t.Keys
    ensures LogSummary(g).Keys == TableSummary(t).Keys == t.Keys
    ensures LogSummary(g) == TableSummary(t) <==> forall s | s in t :: LogSummary(g)[s] == TableSummary(t)[s]
  {
    hide LogHistory, Summary;
    if forall s | s in t :: LogSummary(g)[s] == TableSummary(t)[s] {
      assert LogSummary(g) == TableSummary(t);
    }
  }
}
