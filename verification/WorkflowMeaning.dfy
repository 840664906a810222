/** The calls of the whole plan, place by place: when each migration is sent, and what has to fail. */
module WorkflowMeaning {
  import opened Text
  import Scanner
  import ScannerLaws
  import opened Lifecycle
  import opened Transport
  import BuilderLaws
  import opened Workflow
  import LateFailure

  /** Where migration i is sent to stay: the first 45 in order, the last four behind the rehearsal. */
  function Place(i: nat): nat {
    if i < 45 then 5 + i else if i == 45 then 61 else 18 + i
  }

  /** A text that has to succeed. */
  function Sends(text: string): Option<Request> {
    Some(RunSql(text, None))
  }

  function Fails(text: string, state: string, message: Option<string>): Option<Request> {
    Some(RunSql(text, Some(Expectation(state, message))))
  }

  function Replayed(p: Plan, i: nat): Option<Item>
    requires Loaded(p) && i < 49
  {
    if p.replayable(p.migrations[i]) then Run(p.migrations[i]) else None
  }

  lemma PrepareAt(p: Plan)
    requires Loaded(p)
    ensures var items := Prepare(p);
      && |items| == 50 && items[0] == Run(p.sql("runtime_probe")) && items[1] == Run(p.sql("bootstrap"))
      && (forall i | 0 <= i < 45 :: items[2 + i] == Replayed(p, i))
      && items[47] == Run(p.fixture) && items[48] == (if p.snapshot.Some? then Run(p.snapshot.value) else None)
      && items[49] == Run(p.sql("probes/snapshot_differences"))
  {
    hide Run;
    var a, b := RunAll([p.sql("runtime_probe"), p.sql("bootstrap")]), Replay(p, p.migrations[..45]);
    assert |a| == 2 && |b| == 45;
    forall i | 0 <= i < 45
      ensures Prepare(p)[2 + i] == Replayed(p, i)
    {
      assert Prepare(p)[2 + i] == b[i] && p.migrations[..45][i] == p.migrations[i];
    }
  }

  lemma FinishAt(p: Plan)
    requires Loaded(p)
    ensures var items, texts := Finish(p), Verify(p);
      && |items| == 6 + |texts|
      && items[0] == Replayed(p, 45)
      && items[1] == Run(p.sql("retained_verify")) && items[2] == Run(RECAPTURE)
      && (forall i | 46 <= i < 49 :: items[i - 43] == Replayed(p, i))
      && forall j | 0 <= j < |texts| :: items[6 + j] == Run(texts[j])
  {
    hide Run, Verify, RECAPTURE;
    assert |Replay(p, p.migrations[46..])| == 3;
    forall i | 46 <= i < 49
      ensures Finish(p)[i - 43] == Replayed(p, i)
    {
      assert Finish(p)[i - 43] == Replay(p, p.migrations[46..])[i - 46];
      assert p.migrations[46..][i - 46] == p.migrations[i];
    }
  }

  lemma CallAt(items: seq<Option<Item>>, k: nat)
    requires k < |items|
    ensures |Calls(items)| == 3 + |items| && Calls(items)[3 + k] == AsCall(items[k])
  {
    CallsAre(items);
  }

  lemma SentToStay(p: Plan, k: nat, text: string)
    requires Loaded(p) && k < |Items(p)|
    requires Items(p)[k] == if p.replayable(text) then Run(text) else None
    ensures 3 + k < |Calls(Items(p))|
    ensures Calls(Items(p))[3 + k] == if p.replayable(text) then Sends(text) else None
  {
    hide Items, Calls;
    CallAt(Items(p), k);
  }

  lemma ItemsAt(p: Plan)
    requires Loaded(p)
    ensures |Prepare(p)| == 50 && |Rehearse(p)| == 8 && |Items(p)| == 58 + |Finish(p)|
    ensures forall k | 0 <= k < 50 :: Items(p)[k] == Prepare(p)[k]
    ensures forall k | 0 <= k < 8 :: Items(p)[50 + k] == Rehearse(p)[k]
    ensures forall k | 0 <= k < |Finish(p)| :: Items(p)[58 + k] == Finish(p)[k]
  {
    PrepareAt(p);
    assert |Rehearse(p)| == 8;
    hide Prepare, Rehearse, Finish;
  }

  /** Every migration has its place behind the former ones; there it is sent as it is and has to succeed, or the run
      stops because it is no plain SQL. */
  lemma MigrationsInOrder(p: Plan, i: nat)
    requires Loaded(p) && i < 49
    ensures i > 0 ==> Place(i - 1) < Place(i)
    ensures var calls := Calls(Items(p));
      && Place(i) < |calls|
      && calls[Place(i)] == if p.replayable(p.migrations[i]) then Sends(p.migrations[i]) else None
  {
    hide Items, Calls, Run;
    MigrationItem(p, i);
    SentToStay(p, Place(i) - 3, p.migrations[i]);
  }

  lemma MigrationItem(p: Plan, i: nat)
    requires Loaded(p) && i < 49
    ensures Place(i) >= 3 && Place(i) - 3 < |Items(p)| && Items(p)[Place(i) - 3] == Replayed(p, i)
  {
    hide *;
    ItemsAt(p);
    PlaceIs(i);
    if i < 45 {
      PrepareAt(p);
      assert Items(p)[2 + i] == Prepare(p)[2 + i];
    } else {
      FinishAt(p);
      if i == 45 {
        assert Items(p)[58 + 0] == Finish(p)[0];
      } else {
        assert Items(p)[58 + (i - 43)] == Finish(p)[i - 43];
      }
    }
  }

  lemma PlaceIs(i: nat)
    ensures Place(i) == if i < 45 then 5 + i else if i == 45 then 61 else 18 + i
  {
  }

  /** The late variant of a migration is built and has to fail with its own state, or the run stops there. */
  predicate LateCall(call: Option<Request>, text: string, control: string) {
    match LateFailure.LateFailure(text, control)
    case Ok(variant) => call == Fails(variant, "P4001", None)
    case Err => call == None
  }

  /** One failure after a preparation, two late ones, each followed at once by the check of the rollback. */
  predicate FailsThreeTimes(calls: seq<Option<Request>>, text: string, violate: string, restore: string,
                            controls: string, check: string) {
    && |calls| == 8
    && calls[0] == Sends(violate) && calls[1] == Fails(text, "P0001", Some(REFUSED)) && calls[2] == Sends(check)
    && calls[3] == Sends(restore) && LateCall(calls[4], text, controls) && calls[5] == Sends(check)
    && LateCall(calls[6], text, "") && calls[7] == Sends(check)
  }

  /** The three ways the decommission has to fail come before it is sent to stay, each with its own input and followed
      at once by the check of the rollback. */
  lemma Rehearsed(p: Plan)
    requires Loaded(p)
    ensures Place(44) < 53 && Place(45) == 61 < |Calls(Items(p))|
    ensures FailsThreeTimes(Calls(Items(p))[53..61], p.migrations[45], p.sql("prerequisite_violation"),
                            p.sql("prerequisite_restore"),
                            p.sql("probes/decommission_retention") + p.sql("probes/catalog_properties"),
                            p.sql("rollback_verify"))
  {
    RehearsalIs(p);
    PlaceIs(44);
    PlaceIs(45);
    hide *;
    forall k | 0 <= k < 8
      ensures |Rehearse(p)| == 8 && |Calls(Items(p))| > 61 && Calls(Items(p))[53 + k] == AsCall(Rehearse(p)[k])
    {
      RehearsalCall(p, k);
    }
    SliceIs(Calls(Items(p)), Rehearse(p));
  }

  lemma SliceIs(calls: seq<Option<Request>>, items: seq<Option<Item>>)
    requires |calls| > 61 && |items| == 8 && forall k | 0 <= k < 8 :: calls[53 + k] == AsCall(items[k])
    ensures calls[53..61] == SqlCalls(items)
  {
    hide AsCall;
  }

  lemma RehearsalCall(p: Plan, k: nat)
    requires Loaded(p) && k < 8
    ensures |Rehearse(p)| == 8 && |Calls(Items(p))| > 61 && Calls(Items(p))[53 + k] == AsCall(Rehearse(p)[k])
  {
    hide *;
    ItemsAt(p);
    FinishAt(p);
    CallAt(Items(p), 50 + k);
    assert Items(p)[50 + k] == Rehearse(p)[k];
  }

  lemma RehearsalIs(p: Plan)
    requires Loaded(p)
    ensures FailsThreeTimes(SqlCalls(Rehearse(p)), p.migrations[45], p.sql("prerequisite_violation"),
                            p.sql("prerequisite_restore"),
                            p.sql("probes/decommission_retention") + p.sql("probes/catalog_properties"),
                            p.sql("rollback_verify"))
  {
    hide REFUSED, LateFailure.LateFailure;
  }

  predicate ToFail(call: Option<Request>) {
    call.Some? && call.value.RunSql? && call.value.want.Some?
  }

  lemma ItemSucceeds(p: Plan, k: nat)
    requires Loaded(p) && k < |Items(p)| && k != 51 && k != 54 && k != 56
    ensures !ToFail(AsCall(Items(p)[k]))
  {
    ItemsAt(p);
    Outside(p);
    if 50 <= k < 58 {
      RestOfRehearsal(p, k - 50);
      hide *;
    } else {
      hide Items, Prepare, Rehearse, Finish;
    }
  }

  lemma RestOfRehearsal(p: Plan, k: nat)
    requires Loaded(p) && k < 8 && k != 1 && k != 4 && k != 6
    ensures |Rehearse(p)| == 8 && !ToFail(AsCall(Rehearse(p)[k]))
  {
    hide LateVariant, REFUSED;
  }

  /** Nothing else has to fail. */
  lemma OnlyThreeFail(p: Plan, k: nat)
    requires Loaded(p) && k < |Calls(Items(p))| && ToFail(Calls(Items(p))[k])
    ensures k == 54 || k == 57 || k == 59
  {
    CallsAre(Items(p));
    if k >= 3 && k != 54 && k != 57 && k != 59 {
      hide Items, Calls;
      CallAt(Items(p), k - 3);
      ItemSucceeds(p, k - 3);
    }
  }

  // What is sent besides the migrations --------------------------------------------------------------

  lemma {:induction false} LanesAt(lanes: seq<(string, string)>, l: nat)
    ensures |Lanes(lanes)| == 2 * |lanes|
    ensures l < |lanes| ==> Lanes(lanes)[2 * l] == lanes[l].0 && Lanes(lanes)[2 * l + 1] == lanes[l].1
  {
    if lanes != [] {
      LanesAt(lanes[1..], if l == 0 then 0 else l - 1);
    }
  }

  /** Before the migrations the server is probed and prepared, behind the first 45 the state is captured, and both
      again behind the decommission. */
  lemma Surroundings(p: Plan)
    requires Loaded(p)
    ensures var calls := Calls(Items(p));
      && |calls| > 63
      && calls[0] == Some(CreateContainer) && calls[1] == Some(StartContainer) && calls[2] == Some(AwaitReady(60.0))
      && calls[3] == Sends(p.sql("runtime_probe")) && calls[4] == Sends(p.sql("bootstrap"))
      && calls[50] == Sends(p.fixture) && calls[51] == (if p.snapshot.Some? then Sends(p.snapshot.value) else None)
      && calls[52] == Sends(p.sql("probes/snapshot_differences"))
      && calls[62] == Sends(p.sql("retained_verify")) && calls[63] == Sends(RECAPTURE)
  {
    ItemsAt(p);
    PrepareAt(p);
    FinishAt(p);
    CallsAre(Items(p));
    var items := Items(p);
    assert items[58 + 1] == Finish(p)[1] && items[58 + 2] == Finish(p)[2];
    hide Prepare, Rehearse, Finish, Items, Calls, RECAPTURE;
    CallAt(items, 0);
    CallAt(items, 1);
    CallAt(items, 47);
    CallAt(items, 48);
    CallAt(items, 49);
    CallAt(items, 59);
    CallAt(items, 60);
  }

  lemma BehindMigrations(p: Plan, j: nat)
    requires Loaded(p) && j < |Verify(p)|
    ensures |Calls(Items(p))| == 67 + |Verify(p)| && Calls(Items(p))[67 + j] == Sends(Verify(p)[j])
  {
    ItemsAt(p);
    FinishAt(p);
    hide Prepare, Rehearse, Finish, Items, Calls, Verify;
    CallAt(Items(p), 64 + j);
    assert Items(p)[58 + (6 + j)] == Finish(p)[6 + j];
  }

  /** The probes that follow the last migration. */
  function FirstProbes(p: Plan): seq<string> {
    [p.sql("academic_probes"), p.sql("security_probes"), p.sql("probes/helpers"), p.sql("probes/object_inventory"),
     p.sql("probes/catalog_retention"), p.sql("probes/privilege_roles"), p.sql("probes/tenancy_authority"),
     p.sql("probes/lifecycle"), p.sql("probes/audit_atomicity"), p.sql("concurrency/setup"),
     p.sql("concurrency/synchronization")]
  }

  lemma VerifyLength(p: Plan)
    ensures |Verify(p)| == 14 + 2 * |p.lanes|
  {
    LanesAt(p.lanes, 0);
    hide Lanes;
  }

  lemma VerifyFront(p: Plan)
    ensures |Verify(p)| >= 11 && Verify(p)[..11] == FirstProbes(p)
  {
    hide Lanes;
  }

  lemma VerifyLane(p: Plan, l: nat)
    requires l < |p.lanes|
    ensures |Verify(p)| == 14 + 2 * |p.lanes|
    ensures Verify(p)[11 + 2 * l] == p.lanes[l].0 && Verify(p)[12 + 2 * l] == p.lanes[l].1
  {
    VerifyLength(p);
    LanesAt(p.lanes, l);
    VerifyMiddle(p, 2 * l);
    VerifyMiddle(p, 2 * l + 1);
    hide Lanes, Verify;
  }

  lemma VerifyMiddle(p: Plan, k: nat)
    requires k < |Lanes(p.lanes)|
    ensures 11 + k < |Verify(p)| && Verify(p)[11 + k] == Lanes(p.lanes)[k]
  {
    hide Lanes;
  }

  lemma VerifyBack(p: Plan)
    ensures var texts, n := Verify(p), 2 * |p.lanes|;
      && |texts| == 14 + n
      && texts[11 + n] == p.sql("concurrency/verify") && texts[12 + n] == p.sql("concurrency/teardown")
      && texts[13 + n] == "SELECT academic_setup_check.verify_post_academic();"
  {
    LanesAt(p.lanes, 0);
    hide Lanes;
  }

  /** Behind the last migration come the probes in order, then both halves of every concurrent pair between their setup
      and their verification, and the final verification is the last call of all. */
  lemma Probes(p: Plan, j: nat, l: nat)
    requires Loaded(p) && j < 11
    ensures var calls, n := Calls(Items(p)), 2 * |p.lanes|;
      && |calls| == 81 + n && |FirstProbes(p)| == 11
      && calls[67 + j] == Sends(FirstProbes(p)[j])
      && (l < |p.lanes| ==>
            calls[78 + 2 * l] == Sends(p.lanes[l].0) && calls[79 + 2 * l] == Sends(p.lanes[l].1))
      && calls[78 + n] == Sends(p.sql("concurrency/verify")) && calls[79 + n] == Sends(p.sql("concurrency/teardown"))
      && calls[80 + n] == Sends("SELECT academic_setup_check.verify_post_academic();")
  {
    hide *;
    VerifyLength(p);
    VerifyFront(p);
    assert Verify(p)[..11][j] == Verify(p)[j];
    BehindMigrations(p, j);
    if l < |p.lanes| {
      VerifyLane(p, l);
      BehindMigrations(p, 11 + 2 * l);
      BehindMigrations(p, 12 + 2 * l);
    }
    LastCalls(p);
  }

  lemma LastCalls(p: Plan)
    requires Loaded(p)
    ensures var calls, n := Calls(Items(p)), 2 * |p.lanes|;
      && |calls| == 81 + n
      && calls[78 + n] == Sends(p.sql("concurrency/verify")) && calls[79 + n] == Sends(p.sql("concurrency/teardown"))
      && calls[80 + n] == Sends("SELECT academic_setup_check.verify_post_academic();")
  {
    hide *;
    VerifyBack(p);
    var n := 2 * |p.lanes|;
    BehindMigrations(p, 11 + n);
    BehindMigrations(p, 12 + n);
    BehindMigrations(p, 13 + n);
  }

  // What the late variant runs -----------------------------------------------------------------------

  /** The failing statement of the late variant raises the very state the plan expects: the decommission's own
      statements have run before it, and only its final COMMIT stands behind it. */
  lemma LateStatements(p: Plan, body: string, nl: string, control: string, call: Option<Request>)
    requires Loaded(p) && p.migrations[45] == body + "COMMIT;" + nl && LateFailure.IsNewline(nl)
    requires BuilderLaws.Closed(body) && Scanner.StatementsOf(body).Some?
    requires BuilderLaws.Closed(control) && Scanner.StatementsOf(control).Some?
    requires LateFailure.CommitLines(p.migrations[45], true) == 1 && LateCall(call, p.migrations[45], control)
    ensures ToFail(call) && call.value.want == Some(Expectation("P4001", None))
    ensures var a, c := Newlines(body), Newlines(body) + Newlines(control);
      Scanner.StatementsOf(call.value.text)
        == Some(Scanner.StatementsOf(body).value + ScannerLaws.Shift(Scanner.StatementsOf(control).value, a)
                + [Scanner.Stmt(c + 1, "DO $$ BEGIN RAISE EXCEPTION USING " + "ERRCODE='P4001'; END $$;")]
                + [Scanner.Stmt(c + 2, "COMMIT;")])
  {
    LateFailure.LateFailureMeaning(body, nl, control);
    FailureWords();
    hide Newlines, Scanner.StatementsOf, ScannerLaws.Shift;
    hide LateFailure.FAILURE, LateFailure.LateFailure, LateFailure.CommitLines;
  }

  lemma FailureWords()
    ensures LateFailure.FAILURE == "DO $$ BEGIN RAISE EXCEPTION USING " + "ERRCODE='P4001'; END $$;"
  {
    assert "DO $$ BEGIN RAISE EXCEPTION USING " == "DO " + "$$" + " BEGIN RAISE EXCEPTION USING ";
    assert "ERRCODE='P4001'; END $$;" == "ERRCODE='P4001'; END " + "$$" + ";";
  }
}
