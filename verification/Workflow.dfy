/** The replay of the whole plan through one session: what is sent, when it stops, and how it is cleaned up. */
module Workflow {
  import opened Text
  import opened Transport
  import opened Lifecycle
  import opened LifecycleLaws
  import opened LifecycleRuns
  import opened Sessions
  import LateFailure

  datatype Item = Item(text: string, want: Option<Expectation>)

  /** The loaded inputs; the text of the snapshot and the pairs of concurrent scripts are prepared elsewhere. */
  datatype Plan = Plan(
    migrations: seq<string>,
    sql: string -> string,
    fixture: string,
    snapshot: Option<string>,
    lanes: seq<(string, string)>,
    replayable: string -> bool)

  predicate Loaded(p: Plan) {
    |p.migrations| == 49
  }

  function Run(text: string): Option<Item> {
    Some(Item(text, None))
  }

  function Probe(text: string, state: string, message: Option<string>): Option<Item> {
    Some(Item(text, Some(Expectation(state, message))))
  }

  /** Each migration in its own psql session, refused before it is sent if it is not plain SQL. */
  function Replay(p: Plan, texts: seq<string>): seq<Option<Item>> {
    seq(|texts|, i requires 0 <= i < |texts| => if p.replayable(texts[i]) then Run(texts[i]) else None)
  }

  function LateVariant(text: string, control: string): Option<Item> {
    match LateFailure.LateFailure(text, control)
    case Ok(variant) => Probe(variant, "P4001", None)
    case Err => None
  }

  const REFUSED := "Unexpected preserved-table foreign key into academic domain; removal refused"
  const RECAPTURE :=
    "UPDATE academic_setup_check.snapshots SET value=academic_setup_check.capture(name='post_decommission_catalog') " +
    "WHERE name IN ('post_decommission','post_decommission_catalog');"

  function RunAll(texts: seq<string>): seq<Option<Item>> {
    seq(|texts|, i requires 0 <= i < |texts| => Run(texts[i]))
  }

  function Prepare(p: Plan): seq<Option<Item>>
    requires Loaded(p)
  {
    RunAll([p.sql("runtime_probe"), p.sql("bootstrap")]) + Replay(p, p.migrations[..45]) + RunAll([p.fixture])
    + (if p.snapshot.Some? then RunAll([p.snapshot.value]) else [None]) + RunAll([p.sql("probes/snapshot_differences")])
  }

  /** Three ways the decommission has to fail, each followed by the proof that nothing of it remains. */
  function Rehearse(p: Plan): seq<Option<Item>>
    requires Loaded(p)
  {
    var text, rolledBack := p.migrations[45], Run(p.sql("rollback_verify"));
    var controls := p.sql("probes/decommission_retention") + p.sql("probes/catalog_properties");
    [Run(p.sql("prerequisite_violation")), Probe(text, "P0001", Some(REFUSED)), rolledBack,
     Run(p.sql("prerequisite_restore")), LateVariant(text, controls), rolledBack, LateVariant(text, ""), rolledBack]
  }

  function Lanes(lanes: seq<(string, string)>): seq<string> {
    if lanes == [] then [] else [lanes[0].0, lanes[0].1] + Lanes(lanes[1..])
  }

  function Verify(p: Plan): seq<string> {
    [p.sql("academic_probes"), p.sql("security_probes"), p.sql("probes/helpers"), p.sql("probes/object_inventory"),
     p.sql("probes/catalog_retention"), p.sql("probes/privilege_roles"), p.sql("probes/tenancy_authority"),
     p.sql("probes/lifecycle"), p.sql("probes/audit_atomicity")]
    + [p.sql("concurrency/setup"), p.sql("concurrency/synchronization")] + Lanes(p.lanes)
    + [p.sql("concurrency/verify"), p.sql("concurrency/teardown")]
    + ["SELECT academic_setup_check.verify_post_academic();"]
  }

  function Finish(p: Plan): seq<Option<Item>>
    requires Loaded(p)
  {
    Replay(p, [p.migrations[45]]) + RunAll([p.sql("retained_verify"), RECAPTURE]) + Replay(p, p.migrations[46..])
    + RunAll(Verify(p))
  }

  /** The SQL of the plan in order; a missing item is one whose text is refused before it is sent. */
  function Items(p: Plan): seq<Option<Item>>
    requires Loaded(p)
  {
    Prepare(p) + Rehearse(p) + Finish(p)
  }

  // Every expected failure is checked ----------------------------------------------------------------

  /** A statement that has to fail is followed at once by the proof that it was rolled back. */
  predicate Checked(p: Plan, items: seq<Option<Item>>) {
    forall i | 0 <= i < |items| && items[i].Some? && items[i].value.want.Some? ::
      i + 1 < |items| && items[i + 1] == Run(p.sql("rollback_verify"))
  }

  lemma CheckedConcat(p: Plan, a: seq<Option<Item>>, b: seq<Option<Item>>)
    requires Checked(p, a) && Checked(p, b)
    ensures Checked(p, a + b)
  {
    var c := a + b;
    forall i | 0 <= i < |c| && c[i].Some? && c[i].value.want.Some?
      ensures i + 1 < |c| && c[i + 1] == Run(p.sql("rollback_verify"))
    {
      if i < |a| {
        assert c[i] == a[i] && c[i + 1] == a[i + 1];
      } else {
        assert c[i] == b[i - |a|] && c[i + 1] == b[i + 1 - |a|];
      }
    }
  }

  predicate AllMustSucceed(items: seq<Option<Item>>) {
    forall i | 0 <= i < |items| && items[i].Some? :: items[i].value.want == None
  }

  lemma Outside(p: Plan)
    requires Loaded(p)
    ensures AllMustSucceed(Prepare(p)) && AllMustSucceed(Finish(p))
  {
    hide Verify;
    assert forall texts :: AllMustSucceed(RunAll(texts)) && AllMustSucceed(Replay(p, texts));
  }

  /** In the whole plan, a statement expected to fail is always followed by the rollback check. */
  lemma EveryProbeChecked(p: Plan)
    requires Loaded(p)
    ensures Checked(p, Items(p))
  {
    Outside(p);
    RehearsalChecked(p);
    hide Prepare, Rehearse, Finish;
    CheckedConcat(p, Prepare(p), Rehearse(p));
    CheckedConcat(p, Prepare(p) + Rehearse(p), Finish(p));
  }

  lemma RehearsalChecked(p: Plan)
    requires Loaded(p)
    ensures Checked(p, Rehearse(p))
  {
  }

  // The run ------------------------------------------------------------------------------------------

  function AsCall(item: Option<Item>): Option<Request> {
    if item.Some? then Some(RunSql(item.value.text, item.value.want)) else None
  }

  /** The calls a plan makes in order. */
  function Calls(items: seq<Option<Item>>): seq<Option<Request>> {
    [Some(CreateContainer), Some(StartContainer), Some(AwaitReady(60.0))] + SqlCalls(items)
  }

  function SqlCalls(items: seq<Option<Item>>): seq<Option<Request>> {
    seq(|items|, i requires 0 <= i < |items| => AsCall(items[i]))
  }

  /** How the whole run ends; an interrupt leaves it as it is, without a cleanup or in the middle of one. */
  datatype Close = Verified | CleanedUp | CleanupUnverified | Interrupted

  /** The calls made so far are the plan's first ones, and all but perhaps the last returned normally. */
  predicate Along(calls: seq<Option<Request>>, cs: seq<Episode>) {
    && |cs| <= |calls|
    && (forall i | 0 <= i < |cs| :: calls[i] == Some(cs[i].req))
    && (forall i | 0 <= i < |cs| - 1 :: cs[i].ending == Returned)
  }

  predicate Through(calls: seq<Option<Request>>, cs: seq<Episode>) {
    |cs| == |calls| && forall i | 0 <= i < |cs| :: cs[i].ending == Returned
  }

  /** Stopped at the first call that did not return, or before the first text that was refused. */
  predicate Broken(calls: seq<Option<Request>>, cs: seq<Episode>, ending: Ending) {
    if cs != [] && cs[|cs| - 1].ending != Returned then ending == cs[|cs| - 1].ending
    else ending == Raised && |cs| < |calls| && calls[|cs|] == None
  }

  lemma OneMore(calls: seq<Option<Request>>, cs: seq<Episode>, c: Episode)
    requires Along(calls, cs) && (forall i | 0 <= i < |cs| :: cs[i].ending == Returned)
    requires |cs| < |calls| && calls[|cs|] == Some(c.req)
    ensures Along(calls, cs + [c]) && (c.ending != Returned ==> Broken(calls, cs + [c], c.ending))
    ensures c.ending == Returned ==> forall i | 0 <= i < |cs + [c]| :: (cs + [c])[i].ending == Returned
  {
  }

  lemma CallsAre(items: seq<Option<Item>>)
    ensures var calls := Calls(items);
      && |calls| == 3 + |items| && calls[0] == Some(CreateContainer) && calls[1] == Some(StartContainer)
      && calls[2] == Some(AwaitReady(60.0))
      && forall i | 0 <= i < |items| :: calls[3 + i] == AsCall(items[i])
  {
  }

  /** The body of the try block. */
  method Attempt(session: Session, items: seq<Option<Item>>) returns (ending: Ending, ghost cs: seq<Episode>)
    requires session.Valid()
    modifies session, session.docker, session.clock
    ensures session.Valid() && session.history == old(session.history) + cs && Along(Calls(items), cs)
    ensures if ending == Returned then Through(Calls(items), cs) else Broken(Calls(items), cs, ending)
  {
    hide Legal, Lawful, Outcome, After, Calls, Along;
    ghost var calls := Calls(items);
    CallsAre(items);
    cs := [];
    AlongNone(calls);
    ghost var c;
    var id;
    id, ending, c := session.Create();
    OneMore(calls, cs, c);
    cs := cs + [c];
    if ending != Returned {
      return;
    }
    ending, c := session.Start();
    OneMore(calls, cs, c);
    cs := cs + [c];
    if ending != Returned {
      return;
    }
    ending, c := session.Ready(60.0);
    OneMore(calls, cs, c);
    cs := cs + [c];
    if ending != Returned {
      return;
    }
    for i := 0 to |items|
      invariant session.Valid() && session.history == old(session.history) + cs && |cs| == 3 + i
      invariant ending == Returned && Along(calls, cs) && forall k | 0 <= k < |cs| :: cs[k].ending == Returned
    {
      if items[i] == None {
        ending := Raised;
        return;
      }
      var out;
      ending, out, c := session.Sql(items[i].value.text, items[i].value.want);
      OneMore(calls, cs, c);
      cs := cs + [c];
      if ending != Returned {
        return;
      }
    }
  }

  lemma AlongNone(calls: seq<Option<Request>>)
    ensures Along(calls, [])
  {
  }

  /** A run that is interrupted while it waits for readiness: a container is held, and nothing cleans it up. */
  lemma InterruptedRun(items: seq<Option<Item>>) returns (cs: seq<Episode>)
    ensures Lawful(Lenient(), cs) && Along(Calls(items), cs) && Broken(Calls(items), cs, Aborted)
    ensures Outcome(cs).id.Some? && !Outcome(cs).closed
  {
    cs := Begun();
    CallsAre(items);
    hide Lawful, Outcome, Legal, Calls;
    WaitLegal();
    Continued(Lenient(), cs, Waiting());
    cs := cs + [Waiting()];
  }

  /** A run that returns or fails cleans up once, and returns normally only if the plan went through and the removal
      was verified. A run that is interrupted is left as it is. */
  method ExecutePlan(session: Session, p: Plan)
    returns (close: Close, ghost cs: seq<Episode>, ghost cleanup: seq<Episode>)
    requires session.Valid() && Loaded(p)
    modifies session, session.docker, session.clock
    ensures session.Valid() && session.history == old(session.history) + cs + cleanup
    ensures Along(Calls(Items(p)), cs)
    ensures Through(Calls(Items(p)), cs) || exists ending :: Broken(Calls(Items(p)), cs, ending)
    ensures |cleanup| <= 1 && (cleanup != [] ==> cleanup[0].req == CleanUp)
    ensures cleanup == [] <==> Broken(Calls(Items(p)), cs, Aborted)
    ensures close == Verified <==> Through(Calls(Items(p)), cs) && Closes(cleanup, Returned)
    ensures close == CleanedUp <==> Broken(Calls(Items(p)), cs, Raised) && Closes(cleanup, Returned)
    ensures close == CleanupUnverified <==> Closes(cleanup, Raised)
    ensures close == Verified || close == CleanedUp ==> session.closed
  {
    hide Legal, Lawful, Outcome, Calls, Along, Items;
    var ending;
    ending, cs := Attempt(session, Items(p));
    cleanup := [];
    Exclusive(Calls(Items(p)), cs);
    if ending == Aborted {
      assert cs + [] == cs;
      return Interrupted, cs, [];
    }
    ghost var last;
    var clean;
    clean, last := session.Cleanup();
    cleanup := [last];
    close := if clean == Raised then CleanupUnverified else if clean == Aborted then Interrupted
             else if ending == Returned then Verified else CleanedUp;
  }

  predicate Closes(cleanup: seq<Episode>, ending: Ending) {
    cleanup != [] && cleanup[0].ending == ending
  }

  /** A plan went through, failed or was interrupted, and only one of these. */
  lemma Exclusive(calls: seq<Option<Request>>, cs: seq<Episode>)
    ensures !(Broken(calls, cs, Raised) && Broken(calls, cs, Aborted)) && !Broken(calls, cs, Returned)
    ensures Through(calls, cs) ==> !Broken(calls, cs, Raised) && !Broken(calls, cs, Aborted)
  {
  }

  // What reaches the server --------------------------------------------------------------------------

  /** The SQL texts handed to psql. */
  function Queries(es: seq<Exchange>): seq<string> {
    if es == [] then []
    else Queries(es[..|es| - 1]) + if es[|es| - 1].cmd.Psql? then [es[|es| - 1].cmd.text] else []
  }

  function Sent(cs: seq<Episode>): seq<string> {
    if cs == [] then [] else Queries(cs[0].sent) + Sent(cs[1..])
  }

  /** The texts of the calls up to the first refused text. */
  function Texts(calls: seq<Option<Request>>): seq<string> {
    if calls == [] || calls[0] == None then []
    else (if calls[0].value.RunSql? then [calls[0].value.text] else []) + Texts(calls[1..])
  }

  lemma {:induction false} NoQueries(es: seq<Exchange>)
    requires forall k | 0 <= k < |es| :: !es[k].cmd.Psql?
    ensures Queries(es) == []
  {
    if es != [] {
      NoQueries(es[..|es| - 1]);
    }
  }

  lemma QueriesOf(pins: Pins, st: State, c: Episode)
    requires Legal(pins, st, c)
    ensures Queries(c.sent) == [] || (c.req.RunSql? && Queries(c.sent) == [c.req.text])
    ensures |c.sent| == 6 && c.sent[5].cmd.Psql? ==> Queries(c.sent) != []
  {
    hide Legal;
    forall k | 0 <= k < |c.sent| && c.sent[k].cmd.Psql?
      ensures c.req.RunSql? && k == |c.sent| - 1 && c.sent[k].cmd.text == c.req.text
    {
      SqlSentOnce(pins, st, c, k);
    }
    if c.sent != [] {
      NoQueries(c.sent[..|c.sent| - 1]);
    }
  }

  function Query(req: Request): seq<string> {
    if req.RunSql? then [req.text] else []
  }

  /** A call sends its own SQL or none, and its own if it succeeds. */
  lemma CallQueries(pins: Pins, h: seq<Episode>, m: nat)
    requires Lawful(pins, h) && m < |h|
    ensures Queries(h[m].sent) <= Query(h[m].req)
    ensures h[m].ending == Returned ==> Queries(h[m].sent) == Query(h[m].req)
  {
    hide Legal, Lawful, Queries;
    LegalAt(pins, h, m);
    QueriesOf(pins, LifecycleLaws.At(h, m), h[m]);
    if h[m].ending == Returned && h[m].req.RunSql? {
      SqlSucceeds(pins, h, m);
    }
  }

  lemma {:induction false} SentPrefix(pins: Pins, h: seq<Episode>, m: nat, calls: seq<Option<Request>>,
                                      cs: seq<Episode>)
    requires Lawful(pins, h) && m + |cs| <= |h| && cs == h[m..m + |cs|] && Along(calls, cs)
    ensures Sent(cs) <= Texts(calls)
    ensures Through(calls, cs) ==> Sent(cs) == Texts(calls) && forall i | 0 <= i < |calls| :: calls[i].Some?
    decreases |cs|
  {
    hide Lawful, Queries;
    if cs != [] {
      var c := cs[0];
      assert c == h[m] && cs[1..] == h[m + 1..m + 1 + |cs[1..]|];
      CallQueries(pins, h, m);
      assert calls[0] == Some(c.req) && Texts(calls) == Query(c.req) + Texts(calls[1..]);
      if c.ending == Returned {
        SentPrefix(pins, h, m + 1, calls[1..], cs[1..]);
      } else {
        assert cs == [c] && cs[1..] == [];
      }
    }
  }

  function AllTexts(items: seq<Option<Item>>): seq<string>
    requires forall i | 0 <= i < |items| :: items[i].Some?
  {
    seq(|items|, i requires 0 <= i < |items| => items[i].value.text)
  }

  lemma {:induction false} TextsOfSql(items: seq<Option<Item>>)
    requires forall i | 0 <= i < |items| :: items[i].Some?
    ensures Texts(SqlCalls(items)) == AllTexts(items)
  {
    if items != [] {
      TextsOfSql(items[1..]);
      assert SqlCalls(items)[1..] == SqlCalls(items[1..]);
      assert AllTexts(items) == [items[0].value.text] + AllTexts(items[1..]);
    }
  }

  lemma TextsOfCalls(items: seq<Option<Item>>)
    ensures Texts(Calls(items)) == Texts(SqlCalls(items))
  {
    var calls, sql := Calls(items), SqlCalls(items);
    assert calls[1..][1..][1..] == sql;
    hide SqlCalls;
    assert Texts(calls) == [] + Texts(calls[1..]) == Texts(calls[1..]);
    assert Texts(calls[1..]) == [] + Texts(calls[1..][1..]) == Texts(calls[1..][1..]);
    assert Texts(calls[1..][1..]) == [] + Texts(sql) == Texts(sql);
  }

  /** What a run of the plan hands to psql is a prefix of the plan's texts up to the first refused one, and all
      of them when it went through; after that only a cleanup sends anything, and no SQL. */
  lemma PlanPrefix(pins: Pins, before: seq<Episode>, cs: seq<Episode>, cleanup: seq<Episode>, items: seq<Option<Item>>)
    requires Lawful(pins, before + cs + cleanup) && Along(Calls(items), cs)
    requires |cleanup| <= 1 && (cleanup != [] ==> cleanup[0].req == CleanUp)
    ensures Sent(cs) <= Texts(SqlCalls(items)) && (cleanup != [] ==> Queries(cleanup[0].sent) == [])
    ensures Through(Calls(items), cs) ==>
      (forall i | 0 <= i < |items| :: items[i].Some?) && Sent(cs) == AllTexts(items)
  {
    hide Legal, Lawful, Along, Queries, Sent, Texts, Calls, SqlCalls;
    var h := before + cs + cleanup;
    var n := |before| + |cs|;
    assert h[|before|..n] == cs;
    SentPrefix(pins, h, |before|, Calls(items), cs);
    TextsOfCalls(items);
    if cleanup != [] {
      assert h[n] == cleanup[0];
      LegalAt(pins, h, n);
      QueriesOf(pins, LifecycleLaws.At(h, n), cleanup[0]);
    }
    if Through(Calls(items), cs) {
      AllPresent(items);
      TextsOfSql(items);
    }
  }

  lemma LegalAt(pins: Pins, h: seq<Episode>, n: nat)
    requires Lawful(pins, h) && n < |h|
    ensures Legal(pins, LifecycleLaws.At(h, n), h[n])
  {
    hide Legal;
  }

  lemma AllPresent(items: seq<Option<Item>>)
    requires forall i | 0 <= i < |Calls(items)| :: Calls(items)[i].Some?
    ensures forall i | 0 <= i < |items| :: items[i].Some?
  {
    forall i | 0 <= i < |items|
      ensures items[i].Some?
    {
      assert Calls(items)[3 + i] == AsCall(items[i]);
    }
  }
}
