/**
 What the replays report, read off the history itself: which functions exist, and the last grant or revoke for a
 role.
 */
module AclLives {
  import opened Text
  import opened AclReplay
  import opened AclAgreement

  /** Statement i brings s to life: it creates it, or gives its name to a function that exists. */
  ghost predicate Brings(h: seq<Entry>, i: nat, s: Sig)
    requires i < |h|
    decreases i, 1
  {
    || (h[i].stmt.Create? && h[i].stmt.sig == s)
    || (h[i].stmt.Rename? && h[i].stmt.later == s && Exists(h, i, h[i].stmt.former))
  }

  /** Statement j drops s or renames it away. */
  predicate Takes(h: seq<Entry>, j: nat, s: Sig)
    requires j < |h|
  {
    || (h[j].stmt.Drop? && s in h[j].stmt.sigs)
    || (h[j].stmt.Rename? && h[j].stmt.former == s && h[j].stmt.later != s)
  }

  /** Among the first n statements one brings s to life, and no later one takes it away. */
  ghost predicate Exists(h: seq<Entry>, n: nat, s: Sig)
    requires n <= |h|
    decreases n, 0
  {
    exists i | 0 <= i < n :: Brings(h, i, s) && Spared(h, i, n, s)
  }

  predicate Spared(h: seq<Entry>, i: nat, n: nat, s: Sig)
    requires n <= |h|
  {
    forall j | i < j < n :: !Takes(h, j, s)
  }

  lemma Bringer(h: seq<Entry>, n: nat, s: Sig) returns (i: nat)
    requires n <= |h| && Exists(h, n, s)
    ensures i < n && Brings(h, i, s) && Spared(h, i, n, s)
  {
    i :| 0 <= i < n && Brings(h, i, s) && Spared(h, i, n, s);
  }

  lemma ExistsNext(h: seq<Entry>, n: nat, s: Sig)
    requires n < |h|
    ensures Exists(h, n + 1, s) <==> Brings(h, n, s) || (Exists(h, n, s) && !Takes(h, n, s))
  {
    hide Takes;
    if Exists(h, n + 1, s) {
      var i := Bringer(h, n + 1, s);
      if i < n {
        assert Spared(h, i, n, s) && !Takes(h, n, s);
      }
    }
    if Brings(h, n, s) {
      assert Spared(h, n, n + 1, s);
    }
    if Exists(h, n, s) && !Takes(h, n, s) {
      var i := Bringer(h, n, s);
      assert Spared(h, i, n + 1, s);
    }
  }

  lemma TableNext(t: Table, e: Entry, s: Sig)
    ensures s in TableStep(t, e) <==>
      match e.stmt
      case Create(x, _) => x == s || s in t
      case Rename(a, b) => (b == s && a in t) || (s in t && (a != s || b == s))
      case Drop(sigs) => s in t && s !in sigs
      case _ => s in t
  {
    if e.stmt.Acl? {
      AppendKeys(t, e.stmt.sigs, Mark(e.loc, e.stmt.op, e.stmt.roles));
    }
  }

  /** A function is in the table after n statements exactly when it exists by the statements alone. */
  lemma {:induction false} TableHolds(h: seq<Entry>, n: nat, s: Sig)
    requires n <= |h|
    ensures s in RunTable(h[..n]) <==> Exists(h, n, s)
  {
    if n > 0 {
      Unfolded(h, n - 1);
      TableHolds(h, n - 1, s);
      ExistsNext(h, n - 1, s);
      TableNext(RunTable(h[..n - 1]), h[n - 1], s);
      if h[n - 1].stmt.Rename? {
        TableHolds(h, n - 1, h[n - 1].stmt.former);
      }
      hide Exists, RunTable, TableStep;
    }
  }

  /** Both replays end with exactly the functions that exist by the statements alone. */
  lemma FinalFunctions(h: seq<Entry>, s: Sig)
    ensures s in RunTable(h) <==> Exists(h, |h|, s)
    ensures s in RunLog(h).created <==> Exists(h, |h|, s)
  {
    TableHolds(h, |h|, s);
    SameFunctions(h);
    assert h[..|h|] == h;
  }

  /** Searching backwards from the first n statements for the last word on a role: a function created anew has none
      from before, one that was renamed is searched for under its former name. */
  ghost function LastWord(h: seq<Entry>, n: nat, s: Sig, role: string): Option<Op>
    requires n <= |h|
    decreases n
  {
    if n == 0 then None
    else match h[n - 1].stmt
      case Acl(op, sigs, roles, _) => if s in sigs && role in roles then Some(op) else LastWord(h, n - 1, s, role)
      case Create(x, replacing) =>
        if x == s && !(replacing && Exists(h, n - 1, s)) then None else LastWord(h, n - 1, s, role)
      case Rename(a, b) =>
        if b == s && Exists(h, n - 1, a) then LastWord(h, n - 1, a, role) else LastWord(h, n - 1, s, role)
      case _ => LastWord(h, n - 1, s, role)
  }

  lemma {:induction false} RepeatLast(marks: seq<Mark>, m: Mark, sigs: seq<Sig>, s: Sig, role: string)
    ensures LastOp(marks + Repeat(m, sigs, s), role)
         == if s in sigs && role in m.roles then Some(m.op) else LastOp(marks, role)
  {
    if sigs == [] {
      assert marks + [] == marks;
    } else {
      var p, last := sigs[..|sigs| - 1], sigs[|sigs| - 1];
      RepeatLast(marks, m, p, s, role);
      var more := marks + Repeat(m, p, s);
      assert s in sigs <==> s in p || s == last;
      if last == s {
        assert marks + Repeat(m, sigs, s) == more + [m] && (more + [m])[..|more|] == more;
      } else {
        assert Repeat(m, p, s) + [] == Repeat(m, p, s);
      }
    }
  }

  /** What is kept for s, if anything is. */
  function Kept(t: Table, s: Sig): seq<Mark> {
    if s in t then t[s] else []
  }

  lemma AclSays(t: Table, e: Entry, s: Sig, role: string)
    requires e.stmt.Acl? && s in t
    ensures s in TableStep(t, e)
    ensures LastOp(TableStep(t, e)[s], role)
         == if s in e.stmt.sigs && role in e.stmt.roles then Some(e.stmt.op) else LastOp(t[s], role)
  {
    var m := Mark(e.loc, e.stmt.op, e.stmt.roles);
    AppendKeys(t, e.stmt.sigs, m);
    AppendRepeats(t, e.stmt.sigs, m, s);
    RepeatLast(t[s], m, e.stmt.sigs, s, role);
    hide LastOp, Append, Repeat;
  }

  /** What one statement makes of the last operation on s. */
  function Then(t: Table, e: Entry, s: Sig, role: string): Option<Op> {
    match e.stmt
    case Acl(op, sigs, roles, _) => if s in sigs && role in roles then Some(op) else LastOp(Kept(t, s), role)
    case Create(x, replacing) => if x == s && !(replacing && s in t) then None else LastOp(Kept(t, s), role)
    case Rename(a, b) => LastOp(Kept(t, if b == s && a in t then a else s), role)
    case _ => LastOp(Kept(t, s), role)
  }

  lemma StepSays(t: Table, e: Entry, s: Sig, role: string)
    requires s in TableStep(t, e)
    ensures s in t || (e.stmt.Create? && e.stmt.sig == s) || (e.stmt.Rename? && e.stmt.later == s && e.stmt.former in t)
    ensures LastOp(TableStep(t, e)[s], role) == Then(t, e, s, role)
  {
    TableNext(t, e, s);
    if e.stmt.Acl? {
      AclSays(t, e, s, role);
      hide LastOp, TableStep;
    } else {
      assert LastOp([], role) == None;
      hide LastOp;
    }
  }

  /** The table's last operation for a role is the last word of the statements on it. */
  lemma {:induction false} TableSays(h: seq<Entry>, n: nat, s: Sig, role: string)
    requires n <= |h| && s in RunTable(h[..n])
    ensures LastOp(RunTable(h[..n])[s], role) == LastWord(h, n, s, role)
  {
    if n > 0 {
      var t, e := RunTable(h[..n - 1]), h[n - 1];
      Unfolded(h, n - 1);
      hide LastOp, Exists, RunTable, TableStep;
      StepSays(t, e, s, role);
      TableHolds(h, n - 1, s);
      if s in t {
        TableSays(h, n - 1, s, role);
      }
      if e.stmt.Rename? {
        TableHolds(h, n - 1, e.stmt.former);
        if e.stmt.former in t {
          TableSays(h, n - 1, e.stmt.former, role);
        }
      }
    }
  }

  const REPORTED := {"public", "anon", "authenticated", "service_role"}

  /** Every final report covers the four roles, and gives for each the last word of the statements. */
  lemma FinalReport(h: seq<Entry>, s: Sig, role: string)
    requires Exists(h, |h|, s) && role in REPORTED
    ensures s in TableSummary(RunTable(h)) && TableSummary(RunTable(h))[s].Keys == REPORTED
    ensures TableSummary(RunTable(h))[s][role] == LastWord(h, |h|, s, role)
  {
    TableHolds(h, |h|, s);
    assert h[..|h|] == h;
    TableSays(h, |h|, s, role);
    hide LastOp, LastWord, RunTable, Exists;
  }

  /** On regular histories the queried log reports the same. */
  lemma FinalLogReport(h: seq<Entry>, s: Sig, role: string)
    requires Regular(h) && Exists(h, |h|, s) && role in REPORTED
    ensures s in LogSummary(RunLog(h)) && LogSummary(RunLog(h))[s].Keys == REPORTED
    ensures LogSummary(RunLog(h))[s][role] == LastWord(h, |h|, s, role)
  {
    ReplaysAgree(h);
    FinalReport(h, s, role);
    hide LogSummary, TableSummary, LastWord, Exists, Regular;
  }
}
