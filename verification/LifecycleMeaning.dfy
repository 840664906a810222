/** What each kind of call has done when it returns, told by the commands sent and the answers to them. */
module LifecycleMeaning {
  import opened Text
  import opened Transport
  import opened Lifecycle
  import opened LifecycleLaws

  /** The command was sent and answered with success. */
  predicate Answered(e: Exchange, cmd: Command) {
    e.cmd == cmd && e.reply.Done? && e.reply.code == 0
  }

  /** From k on, versions, engine and image were asked for, and each answer was as reviewed. */
  predicate Preflighted(pins: Pins, es: seq<Exchange>, k: nat) {
    && k + 3 <= |es|
    && Answered(es[k], Version) && pins.versions(es[k].reply.stdout)
    && Answered(es[k + 1], Info) && pins.engine(es[k + 1].reply.stdout)
    && Answered(es[k + 2], Image) && pins.labels(es[k + 2].reply.stdout).Some?
  }

  /** From k on, a preflight and a look at the container, read with the labels of the image just asked for. */
  predicate Looked(pins: Pins, es: seq<Exchange>, k: nat, id: string, s: Status) {
    && Preflighted(pins, es, k) && k + 4 <= |es| && Answered(es[k + 3], Inspect(id))
    && pins.container(pins.labels(es[k + 2].reply.stdout).value, id, es[k + 3].reply.stdout) == Some(s)
  }

  lemma PreflightAt(pins: Pins, plan: seq<Step>, es: seq<Exchange>, k: nat)
    requires Completed(pins, plan, es) && k + 3 <= |plan|
    requires plan[k] == Plain(Version) && plan[k + 1] == Plain(Info) && plan[k + 2] == Plain(Image)
    ensures Preflighted(pins, es, k)
  {
    assert Passed(pins, plan, es, k) && Passed(pins, plan, es, k + 1) && Passed(pins, plan, es, k + 2);
  }

  lemma LookAt(pins: Pins, plan: seq<Step>, es: seq<Exchange>, k: nat, id: string, running: Option<bool>)
    returns (s: Status)
    requires Completed(pins, plan, es) && k + 4 <= |plan|
    requires plan[k] == Plain(Version) && plan[k + 1] == Plain(Info) && plan[k + 2] == Plain(Image)
    requires plan[k + 3] == Look(id, running)
    ensures Looked(pins, es, k, id, s) && Wanted(running, s)
    ensures Seen(pins, id, Labels(pins, es[..k + 3]), es[k + 3].reply) == Some(s)
  {
    PreflightAt(pins, plan, es, k);
    assert Passed(pins, plan, es, k + 3);
    assert es[..k + 3][k + 2] == es[k + 2];
    s := Seen(pins, id, Labels(pins, es[..k + 3]), es[k + 3].reply).value;
  }

  lemma PlainAt(pins: Pins, plan: seq<Step>, es: seq<Exchange>, k: nat, cmd: Command)
    requires Completed(pins, plan, es) && k < |plan| && plan[k] == Plain(cmd)
    ensures Answered(es[k], cmd)
    ensures cmd.Identity? ==> pins.identity(es[k].reply.stdout)
    ensures cmd.List? ==> es[k].reply.stdout == ""
    ensures cmd.Create? ==> IsId(Strip(es[k].reply.stdout))
  {
    assert Passed(pins, plan, es, k);
  }

  /** The plan a returned call has completed. */
  lemma Returning(pins: Pins, h: seq<Episode>, i: nat) returns (n: nat)
    requires Lawful(pins, h) && i < |h| && h[i].ending == Returned
    requires h[i].req.CleanUp? ==> At(h, i).id.Some?
    ensures !Refuses(At(h, i), h[i].req) && (h[i].req.CreateContainer? || Held(At(h, i)))
    ensures Completed(pins, PlanOf(pins, At(h, i), h[i], n), h[i].sent)
  {
    assert Legal(pins, At(h, i), h[i]);
    hide Completed, AllTimed, Polls, CreatePlan, StartPlan, ReadyPlan, SqlPlan, CleanupPlan, Lawful;
    n := 0;
    if h[i].req.AwaitReady? {
      n :| Follows(pins, ReadyPlan(At(h, i).id.value, n), h[i].sent, h[i].ending, Late(h[i].finish, h[i].deadline));
    }
  }

  /** A create that returns was answered with an ID, and the container of that ID was then seen freshly created. */
  lemma CreateReturns(pins: Pins, h: seq<Episode>, i: nat)
    requires Lawful(pins, h) && i < |h| && h[i].req.CreateContainer? && h[i].ending == Returned
    ensures var es := h[i].sent;
      && |es| == 8 && Preflighted(pins, es, 0) && Answered(es[3], Create)
      && var id := Strip(es[3].reply.stdout);
        IsId(id) && Looked(pins, es, 4, id, Created) && At(h, i + 1).id == Some(id)
  {
    var n := Returning(pins, h, i);
    hide Lawful, Completed, Strip, IsId, CreatePlan, Looked, Answered, Preflighted;
    Acknowledged(pins, h[i].sent);
    Next(h, i);
  }

  lemma Acknowledged(pins: Pins, es: seq<Exchange>)
    requires Completed(pins, CreatePlan(Answer(es)), es)
    ensures |es| == 8 && Preflighted(pins, es, 0) && Answered(es[3], Create) && Answer(es) == Strip(es[3].reply.stdout)
    ensures IsId(Answer(es)) && Looked(pins, es, 4, Answer(es), Created)
  {
    var plan := CreatePlan(Answer(es));
    Completes(pins, plan, es);
    hide Completed, Strip, IsId, Looked, Answered, Preflighted, Seen, Labels;
    PreflightAt(pins, plan, es, 0);
    PlainAt(pins, plan, es, 3, Create);
    var s := LookAt(pins, plan, es, 4, Answer(es), Some(false));
  }

  /** A start that returns saw the container freshly created, started it, and saw it running. */
  lemma StartReturns(pins: Pins, h: seq<Episode>, i: nat)
    requires Lawful(pins, h) && i < |h| && h[i].req.StartContainer? && h[i].ending == Returned
    ensures At(h, i).id.Some?
    ensures var es, id := h[i].sent, At(h, i).id.value;
      |es| == 9 && Looked(pins, es, 0, id, Created) && Answered(es[4], Start(id)) && Looked(pins, es, 5, id, Running)
  {
    var n := Returning(pins, h, i);
    hide Lawful, Completed, StartPlan, Answered, Looked;
    Started(pins, h[i].sent, At(h, i).id.value);
  }

  lemma Started(pins: Pins, es: seq<Exchange>, id: string)
    requires Completed(pins, StartPlan(id), es)
    ensures |es| == 9 && Looked(pins, es, 0, id, Created)
    ensures Answered(es[4], Start(id)) && Looked(pins, es, 5, id, Running)
  {
    var plan := StartPlan(id);
    Completes(pins, plan, es);
    hide Completed, Looked, Answered, Seen, Labels;
    var s := LookAt(pins, plan, es, 0, id, Some(false));
    PlainAt(pins, plan, es, 4, Start(id));
    var z := LookAt(pins, plan, es, 5, id, Some(true));
  }

  /** A cleanup that returns while an ID is held looked at the container, stopped it if it was running and removed it
      otherwise, and then saw, behind a fresh preflight, that no container of this ID is listed. */
  lemma CleanupReturns(pins: Pins, h: seq<Episode>, i: nat)
    requires Lawful(pins, h) && i < |h| && h[i].req.CleanUp? && h[i].ending == Returned && At(h, i).id.Some?
    ensures var es, id := h[i].sent, At(h, i).id.value;
      && |es| == 9
      && (exists s :: Looked(pins, es, 0, id, s) && Answered(es[4], if s == Running then Stop(id) else Remove(id)))
      && Preflighted(pins, es, 5) && Answered(es[8], List(id)) && es[8].reply.stdout == ""
  {
    var n := Returning(pins, h, i);
    hide Lawful, Completed, CleanupPlan, Shown, Answered, Looked, Preflighted;
    Cleaned(pins, h[i].sent, At(h, i).id.value);
  }

  lemma CleanupSteps(id: string, running: bool)
    ensures var plan := CleanupPlan(id, running);
      && |plan| == 9 && plan[0] == Plain(Version) && plan[1] == Plain(Info) && plan[2] == Plain(Image)
      && plan[3] == Look(id, None) && plan[4] == Plain(if running then Stop(id) else Remove(id))
      && plan[5] == Plain(Version) && plan[6] == Plain(Info) && plan[7] == Plain(Image) && plan[8] == Plain(List(id))
  {
  }

  lemma Cleaned(pins: Pins, es: seq<Exchange>, id: string)
    requires Completed(pins, CleanupPlan(id, Shown(pins, id, es) == Some(Running)), es)
    ensures |es| == 9
    ensures exists s :: Looked(pins, es, 0, id, s) && Answered(es[4], if s == Running then Stop(id) else Remove(id))
    ensures Preflighted(pins, es, 5) && Answered(es[8], List(id)) && es[8].reply.stdout == ""
  {
    var plan := CleanupPlan(id, Shown(pins, id, es) == Some(Running));
    CleanupSteps(id, Shown(pins, id, es) == Some(Running));
    Completes(pins, plan, es);
    hide Completed, CleanupPlan, Looked, Answered, Preflighted, Seen, Labels;
    var s := LookAt(pins, plan, es, 0, id, None);
    assert (Shown(pins, id, es) == Some(Running)) == (s == Running);
    PlainAt(pins, plan, es, 4, if s == Running then Stop(id) else Remove(id));
    PreflightAt(pins, plan, es, 5);
    PlainAt(pins, plan, es, 8, List(id));
  }

  lemma {:induction false} RoundsAt(id: string, n: nat, r: nat)
    requires r < n
    ensures |Rounds(id, n)| == 5 * n && Rounds(id, n)[5 * r..5 * r + 5] == InspectPlan(id, Some(true)) + [Wait(id)]
  {
    if n == 1 {
      assert Rounds(id, 0) == [];
    } else if r < n - 1 {
      RoundsAt(id, n - 1, r);
      assert Rounds(id, n)[5 * r..5 * r + 5] == Rounds(id, n - 1)[5 * r..5 * r + 5];
    } else {
      RoundsAt(id, n - 1, 0);
    }
  }

  lemma WaitAt(pins: Pins, plan: seq<Step>, es: seq<Exchange>, k: nat, id: string)
    requires Completed(pins, plan, es) && k < |plan| && plan[k] == Wait(id)
    ensures es[k].cmd == PgIsReady(id) && es[k].reply.Done? && es[k].reply.code in {1, 2}
  {
    assert Passed(pins, plan, es, k);
  }

  /** One round of waiting: the container was seen running, and the server did not answer yet. */
  predicate Waited(pins: Pins, es: seq<Exchange>, k: nat, id: string) {
    && Looked(pins, es, k, id, Running) && k + 5 <= |es|
    && es[k + 4].cmd == PgIsReady(id) && es[k + 4].reply.Done? && es[k + 4].reply.code in {1, 2}
  }

  lemma RoundSteps(id: string, n: nat, r: nat)
    requires r < n
    ensures var plan := ReadyPlan(id, n);
      && |plan| >= 5 * r + 5 && plan[5 * r] == Plain(Version) && plan[5 * r + 1] == Plain(Info)
      && plan[5 * r + 2] == Plain(Image) && plan[5 * r + 3] == Look(id, Some(true)) && plan[5 * r + 4] == Wait(id)
  {
    RoundsAt(id, n, r);
    var part := Rounds(id, n)[5 * r..5 * r + 5];
    hide Rounds;
    assert part[0] == Plain(Version) && part[1] == Plain(Info) && part[2] == Plain(Image);
    assert part[3] == Look(id, Some(true)) && part[4] == Wait(id);
  }

  lemma RoundAt(pins: Pins, id: string, n: nat, es: seq<Exchange>, r: nat)
    requires Completed(pins, ReadyPlan(id, n), es) && r < n
    ensures Waited(pins, es, 5 * r, id)
  {
    RoundSteps(id, n, r);
    Completes(pins, ReadyPlan(id, n), es);
    hide Completed, ReadyPlan, Rounds, Looked;
    var s := LookAt(pins, ReadyPlan(id, n), es, 5 * r, id, Some(true));
    WaitAt(pins, ReadyPlan(id, n), es, 5 * r + 4, id);
  }

  lemma {:induction false} RoundsLong(id: string, n: nat)
    ensures |Rounds(id, n)| == 5 * n
  {
    if n > 0 {
      RoundsLong(id, n - 1);
    }
  }

  /** A readiness call that returns went through some rounds of waiting; then the container was seen running once more,
      the server answered, and its identity was accepted. */
  lemma ReadyReturns(pins: Pins, h: seq<Episode>, i: nat) returns (n: nat)
    requires Lawful(pins, h) && i < |h| && h[i].req.AwaitReady? && h[i].ending == Returned
    ensures At(h, i).id.Some? && |h[i].sent| == 5 * n + 6
    ensures var es, id := h[i].sent, At(h, i).id.value;
      && (forall r | 0 <= r < n :: Waited(pins, es, 5 * r, id))
      && Looked(pins, es, 5 * n, id, Running) && Answered(es[5 * n + 4], PgIsReady(id))
      && Answered(es[5 * n + 5], Identity(id)) && pins.identity(es[5 * n + 5].reply.stdout)
  {
    n := Returning(pins, h, i);
    hide Lawful, Completed, ReadyPlan, Waited, Looked, Answered;
    BecameReady(pins, h[i].sent, At(h, i).id.value, n);
  }

  lemma BecameReady(pins: Pins, es: seq<Exchange>, id: string, n: nat)
    requires Completed(pins, ReadyPlan(id, n), es)
    ensures |es| == 5 * n + 6 && forall r | 0 <= r < n :: Waited(pins, es, 5 * r, id)
    ensures Looked(pins, es, 5 * n, id, Running) && Answered(es[5 * n + 4], PgIsReady(id))
    ensures Answered(es[5 * n + 5], Identity(id)) && pins.identity(es[5 * n + 5].reply.stdout)
  {
    RoundsLong(id, n);
    var plan := ReadyPlan(id, n);
    hide Completed, Rounds, Waited, Looked, Answered, Seen, Labels;
    forall r | 0 <= r < n
      ensures Waited(pins, es, 5 * r, id)
    {
      RoundAt(pins, id, n, es, r);
    }
    Completes(pins, plan, es);
    var s := LookAt(pins, plan, es, 5 * n, id, Some(true));
    PlainAt(pins, plan, es, 5 * n + 4, PgIsReady(id));
    PlainAt(pins, plan, es, 5 * n + 5, Identity(id));
  }

  lemma Completes(pins: Pins, plan: seq<Step>, es: seq<Exchange>)
    requires Completed(pins, plan, es)
    ensures |es| == |plan|
  {
  }

  /** A SQL call that returns saw the container running and its identity accepted, sent the text, and psql either
      succeeded or, where a failure was expected, exited with 3 and reported that one error and no other. */
  lemma SqlReturns(pins: Pins, h: seq<Episode>, i: nat)
    requires Lawful(pins, h) && i < |h| && h[i].req.RunSql? && h[i].ending == Returned
    ensures At(h, i).id.Some?
    ensures var es, id := h[i].sent, At(h, i).id.value;
      && |es| == 6 && Looked(pins, es, 0, id, Running)
      && Answered(es[4], Identity(id)) && pins.identity(es[4].reply.stdout)
      && es[5].cmd == Psql(id, h[i].req.text) && es[5].reply.Done?
      && match h[i].req.want
         case None => es[5].reply.code == 0
         case Some(w) =>
           var d := pins.diagnose(es[5].reply.stderr);
           && es[5].reply.code == 3 && !d.ambiguous && |d.errors| == 1 && d.errors[0].0 == w.state
           && (w.message.Some? ==> d.errors[0].1 == w.message)
  {
    var n := Returning(pins, h, i);
    SqlSucceeds(pins, h, i);
    hide Lawful, Completed, SqlPlan, Looked, Answered;
    Inspected(pins, h[i].sent, At(h, i).id.value, h[i].req.text, h[i].req.want);
  }

  lemma Inspected(pins: Pins, es: seq<Exchange>, id: string, text: string, want: Option<Expectation>)
    requires Completed(pins, SqlPlan(id, text, want), es)
    ensures |es| == 6 && Looked(pins, es, 0, id, Running)
    ensures Answered(es[4], Identity(id)) && pins.identity(es[4].reply.stdout)
  {
    var plan := SqlPlan(id, text, want);
    Completes(pins, plan, es);
    hide Completed, Looked, Answered, Seen, Labels;
    var s := LookAt(pins, plan, es, 0, id, Some(true));
    PlainAt(pins, plan, es, 4, Identity(id));
  }

  /** How long a command may take, where no deadline cuts it shorter: SQL two minutes, asking whether the server answers
      and what it is five seconds, everything else twenty. */
  lemma Limits(pins: Pins, h: seq<Episode>, i: nat, k: nat)
    requires Lawful(pins, h) && i < |h| && k < |h[i].sent|
    ensures var e := h[i].sent[k];
      var most := match e.cmd case Psql(_, _) => 120.0 case PgIsReady(_) => 5.0 case Identity(_) => 5.0 case _ => 20.0;
      0.0 < e.timeout <= most && (h[i].deadline == None ==> e.timeout == most)
  {
    assert Legal(pins, At(h, i), h[i]);
    assert Timed(h[i].sent[k], Cap(h[i].sent[k].cmd), h[i].deadline);
  }

  // Refusals -------------------------------------------------------------------------------------------

  /** Some earlier call other than a cleanup was not refused and failed. */
  predicate FailedBefore(h: seq<Episode>, n: nat)
    requires n <= |h|
  {
    exists a | 0 <= a < n :: h[a].ending == Raised && !h[a].req.CleanUp? && !Refuses(At(h, a), h[a].req)
  }

  /** Some earlier cleanup returned without being refused. */
  predicate ClosedBefore(h: seq<Episode>, n: nat)
    requires n <= |h|
  {
    exists a | 0 <= a < n :: h[a].ending == Returned && h[a].req.CleanUp? && !Refuses(At(h, a), h[a].req)
  }

  predicate CreatedBefore(h: seq<Episode>, n: nat)
    requires n <= |h|
  {
    exists a | 0 <= a < n :: h[a].req.CreateContainer? && !Refuses(At(h, a), h[a].req)
  }

  lemma {:induction false} FailedFlag(h: seq<Episode>, n: nat)
    requires n <= |h|
    ensures At(h, n).failed <==> FailedBefore(h, n)
  {
    if n > 0 {
      FailedFlag(h, n - 1);
      Next(h, n - 1);
      hide Outcome;
    }
  }

  lemma {:induction false} ClosedFlag(h: seq<Episode>, n: nat)
    requires n <= |h|
    ensures At(h, n).closed <==> ClosedBefore(h, n)
  {
    if n > 0 {
      ClosedFlag(h, n - 1);
      Next(h, n - 1);
      hide Outcome;
    }
  }

  lemma {:induction false} AttemptedFlag(h: seq<Episode>, n: nat)
    requires n <= |h|
    ensures At(h, n).attempted <==> CreatedBefore(h, n)
  {
    if n > 0 {
      AttemptedFlag(h, n - 1);
      Next(h, n - 1);
      hide Outcome;
    }
  }

  /** A SQLSTATE: five digits or capital letters. */
  predicate FiveLetters(s: string) {
    |s| == 5 && forall i | 0 <= i < |s| :: '0' <= s[i] <= '9' || 'A' <= s[i] <= 'Z'
  }

  /** When a call is refused: a create if there was one before or the session is closed, a start after a failure, a
      readiness call also if its timeout is not within a minute, SQL also while readiness is unfinished or for an
      improper SQLSTATE, a cleanup of a container once it is closed. Refused calls send nothing and raise. */
  lemma RefusedIff(pins: Pins, h: seq<Episode>, i: nat)
    requires Lawful(pins, h) && i < |h|
    ensures Refuses(At(h, i), h[i].req) <==>
      match h[i].req
      case CreateContainer => CreatedBefore(h, i) || ClosedBefore(h, i)
      case StartContainer => FailedBefore(h, i)
      case AwaitReady(timeout) => FailedBefore(h, i) || timeout <= 0.0 || timeout > 60.0
      case RunSql(_, want) =>
        || FailedBefore(h, i) || (exists k: nat :: LastBegun(h, i, k) && h[k].ending != Returned)
        || (want.Some? && !FiveLetters(want.value.state))
      case CleanUp => ClosedBefore(h, i) && At(h, i).id.Some?
    ensures Refuses(At(h, i), h[i].req) ==> h[i].sent == [] && h[i].ending == Raised
  {
    FailedFlag(h, i);
    ClosedFlag(h, i);
    AttemptedFlag(h, i);
    Latch(h, i);
    assert Legal(pins, At(h, i), h[i]);
    hide Outcome, FailedBefore, ClosedBefore, CreatedBefore, Follows, AllTimed;
  }
}
