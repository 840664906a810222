/** What holds of every run of calls on one session, whatever Docker answers and however time passes. */
module LifecycleLaws {
  import opened Text
  import opened Transport
  import opened Lifecycle

  /** The state before call i. */
  function At(h: seq<Episode>, i: nat): State
    requires i <= |h|
  {
    Outcome(h[..i])
  }

  lemma Next(h: seq<Episode>, i: nat)
    requires i < |h|
    ensures At(h, i + 1) == After(At(h, i), h[i])
  {
    assert h[..i + 1][..i] == h[..i];
  }

  // Flags only move one way --------------------------------------------------------------------------

  lemma {:induction false} Lasting(h: seq<Episode>, i: nat, j: nat)
    requires i <= j <= |h|
    ensures At(h, i).attempted ==> At(h, j).attempted
    ensures At(h, i).submitted ==> At(h, j).submitted
    ensures At(h, i).failed ==> At(h, j).failed
    ensures At(h, i).closed ==> At(h, j).closed
    ensures At(h, i).attempted ==> At(h, j).id == At(h, i).id && At(h, j).submitted == At(h, i).submitted
    ensures At(h, i).failed && At(h, i).pending ==> At(h, j).pending
  {
    if i < j {
      Lasting(h, i, j - 1);
      Next(h, j - 1);
    }
  }

  /** An acknowledged container comes from the answer to the one submitted create. */
  ghost predicate Grounded(pins: Pins, h: seq<Episode>, st: State) {
    && (st.submitted ==> st.attempted)
    && (st.id.Some? ==> exists a | 0 <= a < |h| :: Creates(pins, h[a], st.id.value))
    && ((exists a | 0 <= a < |h| :: h[a].req.CreateContainer? && |h[a].sent| > 3) ==> st.submitted)
  }

  /** The call submitted a create, and Docker answered with this ID. */
  predicate Creates(pins: Pins, c: Episode, id: string) {
    && c.req.CreateContainer? && |c.sent| > 3 && c.sent[3].cmd == Create
    && c.sent[3].reply.Done? && c.sent[3].reply.code == 0
    && id == Strip(c.sent[3].reply.stdout) && IsId(id)
  }

  lemma SubmitsCreate(pins: Pins, st: State, c: Episode)
    requires Legal(pins, st, c) && c.req.CreateContainer? && !Refuses(st, c.req)
    ensures c.noted ==> Creates(pins, c, Answer(c.sent))
    ensures |c.sent| > 3 ==> c.announced
  {
    hide Follows, Strip, IsId;
    InOrder(pins, CreatePlan(Answer(c.sent)), c.sent, c.ending, false);
  }

  lemma RefusedSilent(pins: Pins, st: State, c: Episode)
    requires Legal(pins, st, c)
    ensures Refuses(st, c.req) ==> c.sent == []
  {
  }

  lemma GroundedNext(pins: Pins, p: seq<Episode>, st: State, c: Episode)
    requires Grounded(pins, p, st) && (Refuses(st, c.req) ==> c.sent == [])
    requires c.req.CreateContainer? && !Refuses(st, c.req) ==>
      (c.noted ==> Creates(pins, c, Answer(c.sent))) && (|c.sent| > 3 ==> c.announced)
    ensures Grounded(pins, p + [c], After(st, c))
  {
    hide Creates, Acknowledges, Answer;
    var h := p + [c];
    assert forall a | 0 <= a < |p| :: h[a] == p[a];
    assert h[|p|] == c;
    if st.id.Some? {
      var a :| 0 <= a < |p| && Creates(pins, p[a], st.id.value);
      assert Creates(pins, h[a], st.id.value);
    }
  }

  lemma Last(p: seq<Episode>, c: Episode)
    ensures Outcome(p + [c]) == After(Outcome(p), c)
  {
    assert (p + [c])[..|p|] == p;
  }

  lemma GroundedStep(pins: Pins, p: seq<Episode>, st: State, c: Episode)
    requires Grounded(pins, p, st) && Legal(pins, st, c)
    ensures Grounded(pins, p + [c], After(st, c))
  {
    hide Legal, Grounded, After, Creates, Refuses;
    RefusedSilent(pins, st, c);
    if c.req.CreateContainer? && !Refuses(st, c.req) {
      SubmitsCreate(pins, st, c);
    }
    GroundedNext(pins, p, st, c);
  }

  lemma {:induction false} AllGrounded(pins: Pins, h: seq<Episode>)
    requires Lawful(pins, h)
    ensures Grounded(pins, h, Outcome(h))
  {
    if h != [] {
      var p, c := h[..|h| - 1], h[|h| - 1];
      assert p + [c] == h;
      LawfulBefore(pins, h);
      hide Lawful;
      AllGrounded(pins, p);
      hide *;
      GroundedStep(pins, p, Outcome(p), c);
      Last(p, c);
    }
  }

  lemma LawfulBefore(pins: Pins, h: seq<Episode>)
    requires Lawful(pins, h) && h != []
    ensures Lawful(pins, h[..|h| - 1]) && Legal(pins, Outcome(h[..|h| - 1]), h[|h| - 1])
  {
    var p := h[..|h| - 1];
    forall i | 0 <= i < |p|
      ensures Legal(pins, Outcome(p[..i]), p[i])
    {
      assert p[..i] == h[..i] && p[i] == h[i];
    }
  }

  // One create ---------------------------------------------------------------------------------------

  predicate Harmless(cmd: Command) {
    !cmd.Create? && !cmd.Stop? && !cmd.Remove? && !cmd.Psql?
  }

  lemma {:induction false} RoundsSteps(id: string, n: nat)
    ensures forall i | 0 <= i < |Rounds(id, n)| :: Harmless(Cmd(Rounds(id, n)[i]))
  {
    if n > 0 {
      RoundsSteps(id, n - 1);
    }
  }

  lemma ReadySteps(id: string, n: nat)
    ensures forall i | 0 <= i < |ReadyPlan(id, n)| :: Harmless(Cmd(ReadyPlan(id, n)[i]))
  {
    RoundsSteps(id, n);
  }

  /** The plan a call follows once it sends anything. */
  function PlanOf(pins: Pins, st: State, c: Episode, n: nat): seq<Step>
    requires c.req.CreateContainer? || st.id.Some?
  {
    match c.req
    case CreateContainer => CreatePlan(Answer(c.sent))
    case StartContainer => StartPlan(st.id.value)
    case AwaitReady(timeout) => ReadyPlan(st.id.value, n)
    case RunSql(text, want) => SqlPlan(st.id.value, text, want)
    case CleanUp => CleanupPlan(st.id.value, Shown(pins, st.id.value, c.sent) == Some(Running))
  }

  lemma Planned(pins: Pins, st: State, c: Episode) returns (n: nat)
    requires Legal(pins, st, c) && c.sent != []
    ensures !Refuses(st, c.req) && (c.req.CreateContainer? || Held(st))
    ensures Follows(pins, PlanOf(pins, st, c, n), c.sent, c.ending, Late(c.finish, c.deadline))
  {
    hide Follows, AllTimed, Polls, CreatePlan, StartPlan, ReadyPlan, SqlPlan, CleanupPlan;
    n := 0;
    if c.req.AwaitReady? {
      n :| Follows(pins, ReadyPlan(st.id.value, n), c.sent, c.ending, Late(c.finish, c.deadline));
    }
  }

  lemma PlanCreates(pins: Pins, st: State, c: Episode, n: nat, k: nat)
    requires c.req.CreateContainer? || st.id.Some?
    requires k < |PlanOf(pins, st, c, n)| && Cmd(PlanOf(pins, st, c, n)[k]).Create?
    ensures c.req.CreateContainer? && k == 3
  {
    hide Shown, Answer;
    if c.req.AwaitReady? {
      ReadySteps(st.id.value, n);
    }
  }

  /** A create is sent only by the first create call, as its fourth command. */
  lemma CreateOnly(pins: Pins, st: State, c: Episode, k: nat)
    requires Legal(pins, st, c) && k < |c.sent| && c.sent[k].cmd == Create
    ensures c.req.CreateContainer? && k == 3 && !st.attempted
  {
    var n := Planned(pins, st, c);
    hide Follows, PlanOf;
    InOrder(pins, PlanOf(pins, st, c, n), c.sent, c.ending, Late(c.finish, c.deadline));
    PlanCreates(pins, st, c, n, k);
  }

  /** Every run submits at most one create. */
  lemma OneCreate(pins: Pins, h: seq<Episode>, i: nat, k: nat, j: nat, l: nat)
    requires Lawful(pins, h) && i < |h| && j < |h| && k < |h[i].sent| && l < |h[j].sent|
    requires h[i].sent[k].cmd == Create && h[j].sent[l].cmd == Create
    ensures i == j && k == l
  {
    CreateOnly(pins, At(h, i), h[i], k);
    CreateOnly(pins, At(h, j), h[j], l);
    if i < j {
      Next(h, i);
      Lasting(h, i + 1, j);
    } else if j < i {
      Next(h, j);
      Lasting(h, j + 1, i);
    }
  }

  // Every action is on the acknowledged container, after looking at it --------------------------------

  predicate Acts(cmd: Command) {
    cmd.Start? || cmd.PgIsReady? || cmd.Identity? || cmd.Psql? || cmd.Stop? || cmd.Remove?
  }

  function Target(cmd: Command): string
    requires Acts(cmd)
  {
    cmd.id
  }

  function Required(cmd: Command): Option<bool> {
    if cmd.Start? then Some(false) else if cmd.Stop? || cmd.Remove? then None else Some(true)
  }

  /** Every action of the plan comes after a look at its target. */
  predicate Guarded(plan: seq<Step>, id: string) {
    forall k | 0 <= k < |plan| && Acts(Cmd(plan[k])) ::
      && Target(Cmd(plan[k])) == id
      && exists j | 0 <= j < k :: plan[j] == Look(id, Required(Cmd(plan[k])))
  }

  lemma GuardedConcat(p: seq<Step>, q: seq<Step>, id: string)
    requires Guarded(p, id) && Guarded(q, id)
    ensures Guarded(p + q, id)
  {
    var r := p + q;
    forall k | 0 <= k < |r| && Acts(Cmd(r[k]))
      ensures Target(Cmd(r[k])) == id && exists j | 0 <= j < k :: r[j] == Look(id, Required(Cmd(r[k])))
    {
      if k < |p| {
        var j :| 0 <= j < k && p[j] == Look(id, Required(Cmd(p[k])));
        assert r[j] == p[j];
      } else {
        var j :| 0 <= j < k - |p| && q[j] == Look(id, Required(Cmd(q[k - |p|])));
        assert r[|p| + j] == q[j];
      }
    }
  }

  lemma {:induction false} RoundsGuarded(id: string, n: nat)
    ensures Guarded(Rounds(id, n), id)
  {
    if n > 0 {
      RoundsGuarded(id, n - 1);
      var round := InspectPlan(id, Some(true)) + [Wait(id)];
      assert round[3] == Look(id, Some(true));
      GuardedConcat(Rounds(id, n - 1), round, id);
    }
  }

  lemma ReadyGuarded(id: string, n: nat)
    ensures Guarded(ReadyPlan(id, n), id)
  {
    RoundsGuarded(id, n);
    var last := InspectPlan(id, Some(true)) + [Plain(PgIsReady(id))] + [Plain(Identity(id))];
    assert last[3] == Look(id, Some(true));
    GuardedConcat(Rounds(id, n), last, id);
  }

  /** The status a look at the container showed within the call. */
  function SeenAt(pins: Pins, c: Episode, j: nat, id: string): Option<Status>
    requires j < |c.sent|
  {
    if c.sent[j].cmd == Inspect(id) then Seen(pins, id, Labels(pins, c.sent[..j]), c.sent[j].reply) else None
  }

  /** Which status allows which action. */
  predicate Fits(cmd: Command, s: Status) {
    if cmd.Start? then s == Created
    else if cmd.Remove? then s != Running
    else s == Running
  }

  /** Earlier in the same call an inspection of this container was accepted and showed a fitting status. */
  predicate Vetted(pins: Pins, c: Episode, k: nat, id: string)
    requires k < |c.sent|
  {
    exists j | 0 <= j < k :: var s := SeenAt(pins, c, j, id); s.Some? && Fits(c.sent[k].cmd, s.value)
  }

  lemma GuardedVets(pins: Pins, plan: seq<Step>, c: Episode, late: bool, k: nat, id: string)
    requires Follows(pins, plan, c.sent, c.ending, late) && Guarded(plan, id)
    requires k < |c.sent| && Acts(c.sent[k].cmd) && Required(c.sent[k].cmd).Some?
    ensures Target(c.sent[k].cmd) == id && Vetted(pins, c, k, id)
  {
    InOrder(pins, plan, c.sent, c.ending, late);
    var j :| 0 <= j < k && plan[j] == Look(id, Required(Cmd(plan[k])));
    LookPassed(pins, plan, c, j, id, Required(Cmd(plan[k])));
  }

  lemma LookPassed(pins: Pins, plan: seq<Step>, c: Episode, j: nat, id: string, running: Option<bool>)
    requires j < |plan| && j < |c.sent| && plan[j] == Look(id, running) && Passed(pins, plan, c.sent, j)
    ensures SeenAt(pins, c, j, id).Some? && Wanted(running, SeenAt(pins, c, j, id).value)
  {
  }

  lemma CleanupVets(pins: Pins, c: Episode, k: nat, id: string)
    requires Follows(pins, CleanupPlan(id, Shown(pins, id, c.sent) == Some(Running)), c.sent, c.ending, false)
    requires k < |c.sent| && Acts(c.sent[k].cmd)
    ensures Target(c.sent[k].cmd) == id && Vetted(pins, c, k, id)
  {
    hide Follows, Passed, Seen, Labels;
    var plan := CleanupPlan(id, Shown(pins, id, c.sent) == Some(Running));
    InOrder(pins, plan, c.sent, c.ending, false);
    assert k == 4;
    LookPassed(pins, plan, c, 3, id, None);
    assert SeenAt(pins, c, 3, id) == Shown(pins, id, c.sent);
  }

  /** Every plan but that of a cleanup is guarded, and stops or removes nothing. */
  lemma PlanGuarded(pins: Pins, st: State, c: Episode, n: nat)
    requires st.id.Some? && !c.req.CreateContainer? && !c.req.CleanUp?
    ensures var plan := PlanOf(pins, st, c, n);
      Guarded(plan, st.id.value) && forall k | 0 <= k < |plan| && Acts(Cmd(plan[k])) :: Required(Cmd(plan[k])).Some?
  {
    var id := st.id.value;
    match c.req {
      case StartContainer => assert StartPlan(id)[3] == Look(id, Some(false));
      case AwaitReady(timeout) =>
        ReadyGuarded(id, n);
        ReadySteps(id, n);
      case RunSql(text, want) => assert SqlPlan(id, text, want)[3] == Look(id, Some(true));
    }
  }

  lemma CreateActsNot(id: string)
    ensures forall k | 0 <= k < |CreatePlan(id)| :: !Acts(Cmd(CreatePlan(id)[k]))
  {
  }

  /** Every start, readiness poll, identity check, SQL, stop and removal names the container the state holds,
      and follows an accepted inspection in the same call that showed a fitting status. */
  lemma ActionVetted(pins: Pins, st: State, c: Episode, k: nat)
    requires Legal(pins, st, c) && k < |c.sent| && Acts(c.sent[k].cmd)
    ensures st.id == Some(Target(c.sent[k].cmd)) && Vetted(pins, c, k, st.id.value)
  {
    var n := Planned(pins, st, c);
    var late := Late(c.finish, c.deadline);
    assert c.req.CleanUp? ==> !late;
    hide Legal, Follows, Guarded, Vetted, CreatePlan, StartPlan, ReadyPlan, SqlPlan, CleanupPlan, Late;
    var plan := PlanOf(pins, st, c, n);
    InOrder(pins, plan, c.sent, c.ending, late);
    if c.req.CreateContainer? {
      CreateActsNot(Answer(c.sent));
      assert false;
    } else if c.req.CleanUp? {
      CleanupVets(pins, c, k, st.id.value);
    } else {
      PlanGuarded(pins, st, c, n);
      GuardedVets(pins, plan, c, late, k, st.id.value);
    }
  }

  lemma Prefix(pins: Pins, h: seq<Episode>, i: nat)
    requires Lawful(pins, h) && i <= |h|
    ensures Lawful(pins, h[..i])
  {
    hide Legal;
    var p := h[..i];
    assert forall j | 0 <= j < i :: p[..j] == h[..j] && p[j] == h[j];
  }

  /** In every run, whatever acts on a container names the one that an earlier create call was answered with,
      and follows an accepted inspection of it in the same call. */
  lemma ActionOnAcknowledged(pins: Pins, h: seq<Episode>, i: nat, k: nat)
    requires Lawful(pins, h) && i < |h| && k < |h[i].sent| && Acts(h[i].sent[k].cmd)
    ensures var id := Target(h[i].sent[k].cmd);
      && Vetted(pins, h[i], k, id)
      && exists a | 0 <= a < i :: Creates(pins, h[a], id)
  {
    hide Legal, Vetted, Creates;
    Prefix(pins, h, i);
    AllGrounded(pins, h[..i]);
    ActionVetted(pins, At(h, i), h[i], k);
    var id := Target(h[i].sent[k].cmd);
    var a :| 0 <= a < i && Creates(pins, h[..i][a], id);
    assert h[a] == h[..i][a];
  }

  // Failure, unfinished readiness, closing -----------------------------------------------------------

  /** Once a call has failed, no later start, readiness or SQL call sends anything or returns. */
  lemma FailedIsSilent(pins: Pins, h: seq<Episode>, i: nat, j: nat)
    requires Lawful(pins, h) && i < j < |h|
    requires !Refuses(At(h, i), h[i].req) && h[i].ending == Raised && !h[i].req.CleanUp?
    requires h[j].req.StartContainer? || h[j].req.AwaitReady? || h[j].req.RunSql?
    ensures Silent(h[j])
  {
    hide Follows, AllTimed, Polls;
    Next(h, i);
    Lasting(h, i + 1, j);
    assert Legal(pins, At(h, j), h[j]);
  }

  /** A readiness call that was not refused: it set the latch. */
  predicate Begins(h: seq<Episode>, i: nat)
    requires i < |h|
  {
    h[i].req.AwaitReady? && !Refuses(At(h, i), h[i].req)
  }

  /** Call i is the last readiness call that began among the first n. */
  predicate LastBegun(h: seq<Episode>, n: nat, i: nat)
    requires n <= |h|
  {
    i < n && Begins(h, i) && forall k | i < k < n :: !Begins(h, k)
  }

  lemma PendingNext(h: seq<Episode>, n: nat)
    requires n < |h|
    ensures At(h, n + 1).pending == if Begins(h, n) then h[n].ending != Returned else At(h, n).pending
  {
    Next(h, n);
  }

  /** The latch says whether the last readiness call that began did not return, however it was left. */
  lemma {:induction false} Latch(h: seq<Episode>, n: nat)
    requires n <= |h|
    ensures At(h, n).pending <==> exists i: nat :: LastBegun(h, n, i) && h[i].ending != Returned
  {
    if n > 0 {
      Latch(h, n - 1);
      PendingNext(h, n - 1);
      hide Outcome, Begins;
      if Begins(h, n - 1) {
        assert LastBegun(h, n, n - 1);
        assert forall i: nat | LastBegun(h, n, i) :: i == n - 1;
      } else {
        assert forall i: nat :: LastBegun(h, n, i) <==> LastBegun(h, n - 1, i);
      }
    }
  }

  /** SQL is sent only if the last readiness call that began before it returned: one that failed, was
      interrupted or was left in any other way blocks it, even where the session has not failed. */
  lemma SqlNeedsReadiness(pins: Pins, h: seq<Episode>, i: nat, j: nat)
    requires Lawful(pins, h) && j < |h| && h[j].req.RunSql? && h[j].sent != [] && LastBegun(h, j, i)
    ensures h[i].ending == Returned
  {
    hide Follows, AllTimed, Polls, Outcome;
    assert Legal(pins, At(h, j), h[j]);
    Latch(h, j);
  }

  lemma {:induction false} SomeLast(h: seq<Episode>, n: nat, i: nat) returns (k: nat)
    requires i < n <= |h| && Begins(h, i)
    ensures LastBegun(h, n, k)
    decreases n
  {
    if n == i + 1 || Begins(h, n - 1) {
      k := n - 1;
    } else {
      k := SomeLast(h, n - 1, i);
    }
  }

  /** The exact sense in which SQL comes after readiness: when it is sent, some earlier readiness call succeeded
      if and only if any was begun at all. */
  lemma ReadinessIff(pins: Pins, h: seq<Episode>, j: nat)
    requires Lawful(pins, h) && j < |h| && h[j].req.RunSql? && h[j].sent != []
    ensures (exists i | 0 <= i < j :: h[i].req.AwaitReady? && h[i].ending == Returned)
       <==> exists i | 0 <= i < j :: Begins(h, i)
  {
    if i :| 0 <= i < j && Begins(h, i) {
      var k := SomeLast(h, j, i);
      SqlNeedsReadiness(pins, h, k, j);
    }
    forall i | 0 <= i < j && h[i].req.AwaitReady? && h[i].ending == Returned
      ensures Begins(h, i)
    {
      assert Legal(pins, At(h, i), h[i]);
    }
  }

  /** A closed session sends nothing more and never succeeds in reaching its container. */
  lemma ClosedIsSilent(pins: Pins, h: seq<Episode>, i: nat, j: nat)
    requires Lawful(pins, h) && i <= j < |h| && At(h, i).closed
    ensures h[j].sent == []
  {
    Lasting(h, i, j);
    assert Legal(pins, At(h, j), h[j]);
  }

  /** Docker's own list, asked for this ID, came back empty as the last thing the call did. */
  predicate Removed(c: Episode, id: string) {
    && c.req.CleanUp? && c.ending == Returned && |c.sent| > 0
    && var e := c.sent[|c.sent| - 1];
       e.cmd == List(id) && e.reply.Done? && e.reply.code == 0 && e.reply.stdout == ""
  }

  lemma CleanupRemoves(pins: Pins, c: Episode, id: string)
    requires c.req.CleanUp? && c.ending == Returned
    requires Follows(pins, CleanupPlan(id, Shown(pins, id, c.sent) == Some(Running)), c.sent, Returned, false)
    ensures Removed(c, id)
  {
    var plan := CleanupPlan(id, Shown(pins, id, c.sent) == Some(Running));
    assert |plan| == 9 && plan[8] == Plain(List(id));
    assert Passed(pins, plan, c.sent, 8);
  }

  lemma OnlyCleanupCloses(st: State, c: Episode)
    requires After(st, c).closed && !st.closed
    ensures c.req.CleanUp? && c.ending == Returned
  {
  }

  lemma {:induction false} ClosingCall(pins: Pins, h: seq<Episode>) returns (i: nat)
    requires Lawful(pins, h) && Outcome(h).closed
    ensures i < |h| && h[i].req.CleanUp? && h[i].ending == Returned && !At(h, i).closed
  {
    assert h != [];
    hide After, Legal, Lawful, Outcome;
    var n := |h| - 1;
    assert h[..n + 1] == h && h[..|h|] == h;
    if At(h, n).closed {
      Prefix(pins, h, n);
      i := ClosingCall(pins, h[..n]);
      assert h[..n][..i] == h[..i] && h[..n][i] == h[i];
    } else {
      Next(h, n);
      OnlyCleanupCloses(At(h, n), h[n]);
      i := n;
    }
  }

  lemma Closing(pins: Pins, h: seq<Episode>, i: nat)
    requires Lawful(pins, h) && i < |h| && h[i].req.CleanUp? && h[i].ending == Returned && !At(h, i).closed
    ensures At(h, i + 1).closed
    ensures var id := At(h, i).id;
      if id == None then !At(h, i).submitted && h[i].sent == [] else Removed(h[i], id.value)
  {
    hide Follows;
    assert Legal(pins, At(h, i), h[i]);
    Next(h, i);
    var id := At(h, i).id;
    if id.Some? {
      CleanupRemoves(pins, h[i], id.value);
    }
  }

  /** A closed session either never submitted a create, or a cleanup call verified that the container it was
      acknowledged is gone, and nothing was sent since. */
  lemma ClosedMeansGone(pins: Pins, h: seq<Episode>)
    requires Lawful(pins, h) && Outcome(h).closed
    ensures (forall a, k | 0 <= a < |h| && 0 <= k < |h[a].sent| :: h[a].sent[k].cmd != Create)
      || exists i, id | 0 <= i < |h| ::
        && Removed(h[i], id)
        && (exists a | 0 <= a < i :: Creates(pins, h[a], id))
        && forall j | i < j < |h| :: h[j].sent == []
  {
    hide Legal, Creates, Removed, Outcome;
    var i := ClosingCall(pins, h);
    Closing(pins, h, i);
    Prefix(pins, h, i);
    AllGrounded(pins, h[..i]);
    forall j | i < j < |h|
      ensures h[j].sent == []
    {
      ClosedIsSilent(pins, h, i + 1, j);
    }
    if At(h, i).id == None {
      NoneCreated(pins, h, i);
    } else {
      var id := At(h, i).id.value;
      var a :| 0 <= a < i && Creates(pins, h[..i][a], id);
      assert h[..i][a] == h[a];
    }
  }

  lemma NoneCreated(pins: Pins, h: seq<Episode>, i: nat)
    requires Lawful(pins, h) && i < |h| && !At(h, i).submitted && h[i].sent == []
    requires forall j | i < j < |h| :: h[j].sent == []
    ensures forall a, k | 0 <= a < |h| && 0 <= k < |h[a].sent| :: h[a].sent[k].cmd != Create
  {
    Prefix(pins, h, i);
    AllGrounded(pins, h[..i]);
    forall a, k | 0 <= a < |h| && 0 <= k < |h[a].sent|
      ensures h[a].sent[k].cmd != Create
    {
      if h[a].sent[k].cmd == Create {
        assert a < i && h[..i][a] == h[a];
        CreateOnly(pins, At(h, a), h[a], k);
        assert false;
      }
    }
  }

  // Deadlines ----------------------------------------------------------------------------------------

  /** Every command of a readiness or SQL call runs under a positive limit within the time left, no such call
      succeeds at or after its deadline, and readiness polls at most ceil(timeout / 0.1) times. */
  lemma Punctual(pins: Pins, h: seq<Episode>, i: nat)
    requires Lawful(pins, h) && i < |h| && h[i].deadline.Some? && h[i].sent != []
    ensures forall k | 0 <= k < |h[i].sent| ::
      0.0 < h[i].sent[k].timeout <= h[i].deadline.value - h[i].sent[k].at && h[i].sent[k].timeout <= 120.0
    ensures h[i].ending == Returned ==> h[i].finish < h[i].deadline.value
    ensures h[i].req.AwaitReady? ==> Polls(h[i].sent) <= CeilTenths(h[i].req.timeout)
  {
    var c := h[i];
    assert Legal(pins, At(h, i), c);
    var n := Planned(pins, At(h, i), c);
    forall k | 0 <= k < |c.sent|
      ensures 0.0 < c.sent[k].timeout <= c.deadline.value - c.sent[k].at && c.sent[k].timeout <= 120.0
    {
      assert Timed(c.sent[k], Cap(c.sent[k].cmd), c.deadline);
    }
  }

  /** The least whole number of tenths that covers the time. */
  function CeilTenths(t: real): (n: int)
    ensures n as real - 1.0 < 10.0 * t <= n as real
  {
    -((-10.0 * t).Floor)
  }

  // What success means -------------------------------------------------------------------------------

  /** Successful SQL was sent once, last, to the inspected and identified server, and psql's answer was as wanted. */
  lemma SqlSucceeds(pins: Pins, h: seq<Episode>, i: nat)
    requires Lawful(pins, h) && i < |h| && h[i].req.RunSql? && h[i].ending == Returned
    ensures At(h, i).id.Some? && |h[i].sent| == 6
    ensures var id, e := At(h, i).id.value, h[i].sent[5];
      && e.cmd == Psql(id, h[i].req.text) && e.reply.Done?
      && Verdict(pins, h[i].req.want, e.reply.code, e.reply.stderr)
      && h[i].sent[4].cmd == Identity(id) && h[i].sent[4].reply.Done? && pins.identity(h[i].sent[4].reply.stdout)
  {
    var st := At(h, i);
    assert Legal(pins, st, h[i]);
    var plan := SqlPlan(st.id.value, h[i].req.text, h[i].req.want);
    assert Passed(pins, plan, h[i].sent, 4) && Passed(pins, plan, h[i].sent, 5);
  }

  /** However its call ends, SQL text reaches psql at most once, as the call's last command. */
  lemma SqlSentOnce(pins: Pins, st: State, c: Episode, k: nat)
    requires Legal(pins, st, c) && k < |c.sent| && c.sent[k].cmd.Psql?
    ensures c.req.RunSql? && k == 5 == |c.sent| - 1 && c.sent[k].cmd.text == c.req.text
  {
    var n := Planned(pins, st, c);
    hide Legal, Follows, PlanOf, Late;
    InOrder(pins, PlanOf(pins, st, c, n), c.sent, c.ending, Late(c.finish, c.deadline));
    PlanPsql(pins, st, c, n, k);
  }

  lemma PlanPsql(pins: Pins, st: State, c: Episode, n: nat, k: nat)
    requires c.req.CreateContainer? || st.id.Some?
    requires k < |PlanOf(pins, st, c, n)| && Cmd(PlanOf(pins, st, c, n)[k]).Psql?
    ensures c.req.RunSql? && k == 5 && |PlanOf(pins, st, c, n)| == 6
    ensures Cmd(PlanOf(pins, st, c, n)[k]).text == c.req.text
  {
    hide Shown, Answer;
    if c.req.AwaitReady? {
      ReadySteps(st.id.value, n);
    }
  }
}
