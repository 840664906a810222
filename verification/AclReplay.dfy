/**
 The history of function grants, replayed twice: one script logs every event and queries the log at
 the end, the other keeps a list per live function while it reads.
 */
module AclReplay {
  import opened Text

  type Sig = string

  /** Rank of the migration file in path order, and the line within it. */
  datatype Loc = Loc(source: nat, line: nat)

  datatype Op = Grant | Revoke

  /** What one GRANT or REVOKE says about a function, apart from its name. */
  datatype Mark = Mark(loc: Loc, op: Op, roles: seq<string>)

  datatype Statement =
    | Create(sig: Sig, replacing: bool)
    | Acl(op: Op, sigs: seq<Sig>, roles: seq<string>, suffix: Option<string>)
    | Rename(former: Sig, later: Sig)
    | Drop(sigs: seq<Sig>)
    | Other

  datatype Entry = Entry(loc: Loc, stmt: Statement)

  predicate Before(a: Loc, b: Loc) {
    a.source < b.source || (a.source == b.source && a.line < b.line)
  }

  predicate NotAfter(a: Loc, b: Loc) {
    !Before(b, a)
  }

  const ROLES: seq<string> := ["public", "anon", "authenticated", "service_role"]

  // Role lists -------------------------------------------------------------------------------------

  /** The logging script takes a trailing RESTRICT or CASCADE for part of the last role's name. */
  function RolesAsLogged(roles: seq<string>, suffix: Option<string>): seq<string> {
    if suffix.None? || roles == [] then roles
    else roles[..|roles| - 1] + [roles[|roles| - 1] + " " + suffix.value]
  }

  /** The last operation among marks that names the role. */
  function LastOp(marks: seq<Mark>, role: string): Option<Op> {
    if marks == [] then None
    else
      var m := marks[|marks| - 1];
      if role in m.roles then Some(m.op) else LastOp(marks[..|marks| - 1], role)
  }

  function Summary(marks: seq<Mark>): map<string, Option<Op>> {
    map r | r in ROLES :: LastOp(marks, r)
  }

  // The log replay ---------------------------------------------------------------------------------

  datatype Event = Event(sig: Sig, mark: Mark)

  datatype RenameRecord = RenameRecord(later: Sig, inherited: seq<Mark>)

  datatype Log = Log(created: map<Sig, Loc>, events: seq<Event>, renames: seq<RenameRecord>)

  function Logged(sigs: seq<Sig>, m: Mark): seq<Event> {
    seq(|sigs|, i requires 0 <= i < |sigs| => Event(sigs[i], m))
  }

  /** All marks logged under a name. */
  function MarksOf(events: seq<Event>, s: Sig): seq<Mark> {
    if events == [] then []
    else
      var e := events[|events| - 1];
      MarksOf(events[..|events| - 1], s) + if e.sig == s then [e.mark] else []
  }

  /** The marks logged under a name from a location on. */
  function Direct(events: seq<Event>, s: Sig, from: Loc): seq<Mark> {
    if events == [] then []
    else
      var e := events[|events| - 1];
      Direct(events[..|events| - 1], s, from) + if e.sig == s && NotAfter(from, e.mark.loc) then [e.mark] else []
  }

  function Inherited(renames: seq<RenameRecord>, s: Sig): seq<Mark> {
    if renames == [] then []
    else
      var r := renames[|renames| - 1];
      Inherited(renames[..|renames| - 1], s) + if r.later == s then r.inherited else []
  }

  function DropKeys<T>(m: map<Sig, T>, sigs: seq<Sig>): map<Sig, T> {
    map s | s in m && s !in sigs :: m[s]
  }

  function Moved<T>(m: map<Sig, T>, a: Sig, b: Sig): map<Sig, T> {
    if a in m then (m - {a})[b := m[a]] else m
  }

  function LogStep(g: Log, e: Entry): Log {
    match e.stmt
    case Create(s, _) => g.(created := g.created[s := if s in g.created then g.created[s] else e.loc])
    case Acl(op, sigs, roles, suffix) =>
      g.(events := g.events + Logged(sigs, Mark(e.loc, op, RolesAsLogged(roles, suffix))))
    case Rename(a, b) =>
      g.(renames := g.renames + [RenameRecord(b, MarksOf(g.events, a))], created := Moved(g.created, a, b))
    case Drop(sigs) => g.(created := DropKeys(g.created, sigs))
    case Other => g
  }

  function RunLog(h: seq<Entry>): Log {
    if h == [] then Log(map[], [], []) else LogStep(RunLog(h[..|h| - 1]), h[|h| - 1])
  }

  /** Python's stable `sorted` by location: each mark goes behind those not after it. */
  function Insert(marks: seq<Mark>, m: Mark): seq<Mark> {
    if marks == [] || NotAfter(marks[|marks| - 1].loc, m.loc) then marks + [m]
    else Insert(marks[..|marks| - 1], m) + [marks[|marks| - 1]]
  }

  function Sort(marks: seq<Mark>): seq<Mark> {
    if marks == [] then [] else Insert(Sort(marks[..|marks| - 1]), marks[|marks| - 1])
  }

  function LogHistory(g: Log, s: Sig): seq<Mark>
    requires s in g.created
  {
    Sort(Direct(g.events, s, g.created[s]) + Inherited(g.renames, s))
  }

  function LogSummary(g: Log): map<Sig, map<string, Option<Op>>> {
    map s | s in g.created :: Summary(LogHistory(g, s))
  }

  // The incremental replay -------------------------------------------------------------------------

  type Table = map<Sig, seq<Mark>>

  function Append(t: Table, sigs: seq<Sig>, m: Mark): Table {
    if sigs == [] then t
    else
      var u := Append(t, sigs[..|sigs| - 1], m);
      var s := sigs[|sigs| - 1];
      if s in u then u[s := u[s] + [m]] else u
  }

  function TableStep(t: Table, e: Entry): Table {
    match e.stmt
    case Create(s, replacing) => t[s := if replacing && s in t then t[s] else []]
    case Acl(op, sigs, roles, _) => Append(t, sigs, Mark(e.loc, op, roles))
    case Rename(a, b) => Moved(t, a, b)
    case Drop(sigs) => DropKeys(t, sigs)
    case Other => t
  }

  function RunTable(h: seq<Entry>): Table {
    if h == [] then map[] else TableStep(RunTable(h[..|h| - 1]), h[|h| - 1])
  }

  function TableSummary(t: Table): map<Sig, map<string, Option<Op>>> {
    map s | s in t :: Summary(t[s])
  }

  // The scripts themselves -------------------------------------------------------------------------

  /** The loop over one function's events: the last operation per role of interest. */
  method Summarise(marks: seq<Mark>) returns (state: map<string, Option<Op>>)
    ensures state == Summary(marks)
  {
    state := map r | r in ROLES :: None;
    assert marks[..0] == [];
    for i := 0 to |marks|
      invariant state == Summary(marks[..i])
    {
      var m := marks[i];
      LastOpNext(marks, i);
      for k := 0 to |m.roles|
        invariant state.Keys == Summary([]).Keys
        invariant forall r | r in state ::
          state[r] == if r in m.roles[..k] then Some(m.op) else LastOp(marks[..i], r)
      {
        if m.roles[k] in state {
          state := state[m.roles[k] := Some(m.op)];
        }
      }
      assert m.roles[..|m.roles|] == m.roles;
    }
    assert marks[..|marks|] == marks;
  }

  lemma LastOpNext(marks: seq<Mark>, i: nat)
    requires i < |marks|
    ensures forall r ::
      LastOp(marks[..i + 1], r) == if r in marks[i].roles then Some(marks[i].op) else LastOp(marks[..i], r)
  {
    assert marks[..i + 1][..i] == marks[..i];
  }

  /** The logging script: events, renames and creation places grow; the log is queried at the end. */
  method LogReplay(h: seq<Entry>) returns (inventory: map<Sig, map<string, Option<Op>>>)
    ensures inventory == LogSummary(RunLog(h))
  {
    var created: map<Sig, Loc> := map[];
    var events: seq<Event> := [];
    var renames: seq<RenameRecord> := [];
    assert h[..0] == [];
    for i := 0 to |h|
      invariant RunLog(h[..i]) == Log(created, events, renames)
    {
      var e := h[i];
      assert h[..i + 1][..i] == h[..i];
      match e.stmt {
        case Create(s, _) =>
          if s !in created {
            created := created[s := e.loc];
          }
        case Acl(op, sigs, roles, suffix) =>
          var m := Mark(e.loc, op, RolesAsLogged(roles, suffix));
          ghost var was := events;
          for k := 0 to |sigs|
            invariant events == was + Logged(sigs, m)[..k]
          {
            events := events + [Event(sigs[k], m)];
          }
        case Rename(a, b) =>
          var carried := [];
          for k := 0 to |events|
            invariant carried == MarksOf(events[..k], a)
          {
            assert events[..k + 1][..k] == events[..k];
            if events[k].sig == a {
              carried := carried + [events[k].mark];
            }
          }
          assert events[..|events|] == events;
          renames := renames + [RenameRecord(b, carried)];
          created := Moved(created, a, b);
        case Drop(sigs) =>
          created := PopAll(created, sigs);
        case Other =>
      }
    }
    assert h[..|h|] == h;
    inventory := QueryLog(Log(created, events, renames));
  }

  /** The queries at the end of the logging script. */
  method QueryLog(g: Log) returns (inventory: map<Sig, map<string, Option<Op>>>)
    ensures inventory == LogSummary(g)
  {
    hide LogHistory, Summary;
    inventory := map[];
    var todo := g.created.Keys;
    while todo != {}
      invariant todo <= g.created.Keys && inventory.Keys == g.created.Keys - todo
      invariant forall s | s in inventory :: inventory[s] == Summary(LogHistory(g, s))
      decreases todo
    {
      var s :| s in todo;
      var state := Summarise(LogHistory(g, s));
      inventory := inventory[s := state];
      todo := todo - {s};
    }
  }

  method PopAll<T>(m: map<Sig, T>, sigs: seq<Sig>) returns (r: map<Sig, T>)
    ensures r == DropKeys(m, sigs)
    ensures forall s :: s in r <==> s in m && s !in sigs
    ensures forall s | s in r :: r[s] == m[s]
  {
    r := m;
    for k := 0 to |sigs|
      invariant r == DropKeys(m, sigs[..k])
    {
      r := r - {sigs[k]};
    }
    assert sigs[..|sigs|] == sigs;
  }

  /** The incremental script: every live function carries its own list of events. */
  method TableReplay(h: seq<Entry>) returns (inventory: map<Sig, map<string, Option<Op>>>)
    ensures inventory == TableSummary(RunTable(h))
  {
    var current: Table := map[];
    assert h[..0] == [];
    for i := 0 to |h|
      invariant RunTable(h[..i]) == current
    {
      var e := h[i];
      assert h[..i + 1][..i] == h[..i];
      match e.stmt {
        case Create(s, replacing) =>
          current := current[s := if replacing && s in current then current[s] else []];
        case Acl(op, sigs, roles, _) =>
          ghost var was := current;
          var m := Mark(e.loc, op, roles);
          assert sigs[..0] == [];
          for k := 0 to |sigs|
            invariant current == Append(was, sigs[..k], m)
          {
            assert sigs[..k + 1][..k] == sigs[..k];
            if sigs[k] in current {
              current := current[sigs[k] := current[sigs[k]] + [m]];
            }
          }
          assert sigs[..|sigs|] == sigs;
        case Rename(a, b) =>
          current := Moved(current, a, b);
        case Drop(sigs) =>
          current := PopAll(current, sigs);
        case Other =>
      }
    }
    assert h[..|h|] == h;
    inventory := map[];
    var todo := current.Keys;
    while todo != {}
      invariant todo <= current.Keys && inventory.Keys == current.Keys - todo
      invariant forall s | s in inventory :: inventory[s] == Summary(current[s])
      decreases todo
    {
      var s :| s in todo;
      var state := Summarise(current[s]);
      inventory := inventory[s := state];
      todo := todo - {s};
    }
  }
}
