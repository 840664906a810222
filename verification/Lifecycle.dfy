/**
 The life of one disposable container as a state machine: what each call may send from each state,
 what it leaves behind, and what holds of every run.
 */
module Lifecycle {
  import opened Text
  import opened Transport

  datatype State = State(id: Option<string>, failed: bool, closed: bool, attempted: bool, submitted: bool,
                         pending: bool)

  const INITIAL := State(None, false, false, false, false, false)

  datatype Request =
    | CreateContainer
    | StartContainer
    | AwaitReady(timeout: real)
    | RunSql(text: string, want: Option<Expectation>)
    | CleanUp

  /** One public call: what it sent, how it ended, its deadline and the clock at its end. For a create call also
      whether it announced the create and whether it noted the container ID. */
  datatype Episode = Episode(req: Request, sent: seq<Exchange>, ending: Ending, deadline: Option<real>, finish: real,
                             announced: bool := false, noted: bool := false)

  // Plans --------------------------------------------------------------------------------------------

  function CreatePlan(id: string): seq<Step> {
    PreflightPlan() + [Plain(Create)] + InspectPlan(id, Some(false))
  }

  function StartPlan(id: string): seq<Step> {
    InspectPlan(id, Some(false)) + [Plain(Start(id))] + InspectPlan(id, Some(true))
  }

  function Rounds(id: string, n: nat): seq<Step> {
    if n == 0 then [] else Rounds(id, n - 1) + (InspectPlan(id, Some(true)) + [Wait(id)])
  }

  /** After n unanswered rounds the server answers and proves its identity. */
  function ReadyPlan(id: string, n: nat): seq<Step> {
    Rounds(id, n) + (InspectPlan(id, Some(true)) + [Plain(PgIsReady(id))] + [Plain(Identity(id))])
  }

  function SqlPlan(id: string, text: string, want: Option<Expectation>): seq<Step> {
    InspectPlan(id, Some(true)) + [Plain(Identity(id))] + [Ask(id, text, want)]
  }

  function CleanupPlan(id: string, running: bool): seq<Step> {
    InspectPlan(id, None) + [Plain(if running then Stop(id) else Remove(id))] + (PreflightPlan() + [Plain(List(id))])
  }

  // Calls --------------------------------------------------------------------------------------------

  predicate IsState(s: string) {
    |s| == 5 && forall i | 0 <= i < |s| :: '0' <= s[i] <= '9' || 'A' <= s[i] <= 'Z'
  }

  predicate Malformed(want: Option<Expectation>) {
    want.Some? && !IsState(want.value.state)
  }

  predicate Proper(timeout: real) {
    0.0 < timeout <= 60.0
  }

  predicate Held(st: State) {
    st.id.Some? && !st.closed
  }

  /** The container ID a create call was answered with. */
  function Answer(es: seq<Exchange>): string {
    if |es| > 3 && es[3].reply.Done? then Strip(es[3].reply.stdout) else ""
  }

  predicate Acknowledges(es: seq<Exchange>) {
    |es| > 3 && es[3].reply.Done? && es[3].reply.code == 0 && IsId(Answer(es))
  }

  /** The status the first inspection of a call showed. */
  function Shown(pins: Pins, id: string, es: seq<Exchange>): Option<Status> {
    if |es| > 3 then Seen(pins, id, Labels(pins, es[..3]), es[3].reply) else None
  }

  function Polls(es: seq<Exchange>): nat {
    if es == [] then 0 else Polls(es[..|es| - 1]) + if es[|es| - 1].cmd.PgIsReady? then 1 else 0
  }

  lemma {:induction false} PollsConcat(a: seq<Exchange>, b: seq<Exchange>)
    ensures Polls(a + b) == Polls(a) + Polls(b)
  {
    if b == [] {
      assert a + b == a;
    } else {
      assert (a + b)[..|a + b| - 1] == a + b[..|b| - 1];
      PollsConcat(a, b[..|b| - 1]);
    }
  }

  lemma {:induction false} NoPolls(es: seq<Exchange>)
    requires forall i | 0 <= i < |es| :: !es[i].cmd.PgIsReady?
    ensures Polls(es) == 0
  {
    if es != [] {
      NoPolls(es[..|es| - 1]);
    }
  }

  predicate Silent(c: Episode) {
    c.sent == [] && c.ending == Raised
  }

  /** Nothing is held, so nothing is sent and nothing succeeds. */
  predicate Idle(c: Episode) {
    c.sent == [] && c.ending != Returned
  }

  /** The create is announced before it is sent, and its answer noted before the container is inspected; only an
      aborted call may end in between. */
  predicate Announces(c: Episode) {
    && (|c.sent| > 3 ==> c.announced) && (|c.sent| > 4 ==> c.noted)
    && (c.noted ==> c.announced && Acknowledges(c.sent))
    && (c.ending != Aborted ==> c.announced == (|c.sent| > 3) && c.noted == Acknowledges(c.sent))
  }

  predicate Refuses(st: State, req: Request) {
    match req
    case CreateContainer => st.attempted || st.closed
    case StartContainer => st.failed
    case AwaitReady(timeout) => st.failed || !Proper(timeout)
    case RunSql(_, want) => st.failed || st.pending || Malformed(want)
    case CleanUp => st.closed && st.id.Some?
  }

  /** What a call may do from a state. */
  ghost predicate Legal(pins: Pins, st: State, c: Episode) {
    && AllTimed(c.sent, c.deadline)
    && if Refuses(st, c.req) then Silent(c) else
       match c.req
       case CreateContainer =>
         && c.deadline == None && Announces(c)
         && Follows(pins, CreatePlan(Answer(c.sent)), c.sent, c.ending, false)
       case StartContainer =>
         && c.deadline == None
         && if !Held(st) then Idle(c) else Follows(pins, StartPlan(st.id.value), c.sent, c.ending, false)
       case AwaitReady(timeout) =>
         && c.deadline.Some? && Polls(c.sent) as real < 10.0 * timeout + 1.0
         && if !Held(st) then Idle(c) else
            exists n :: Follows(pins, ReadyPlan(st.id.value, n), c.sent, c.ending, Late(c.finish, c.deadline))
       case RunSql(text, want) =>
         && c.deadline.Some?
         && if !Held(st) then Idle(c) else
            Follows(pins, SqlPlan(st.id.value, text, want), c.sent, c.ending, Late(c.finish, c.deadline))
       case CleanUp =>
         && c.deadline == None
         && if st.id == None then c.sent == [] && c.ending == if st.submitted then Raised else Returned else
            var live := Shown(pins, st.id.value, c.sent) == Some(Running);
            Follows(pins, CleanupPlan(st.id.value, live), c.sent, c.ending, false)
  }

  /** What a call leaves behind. */
  function After(st: State, c: Episode): State {
    if Refuses(st, c.req) then st else
    match c.req
    case CreateContainer =>
      st.(attempted := true, submitted := st.submitted || c.announced, failed := st.failed || c.ending == Raised,
          id := if c.noted then Some(Answer(c.sent)) else st.id)
    case StartContainer => st.(failed := c.ending == Raised)
    case AwaitReady(_) => st.(failed := c.ending == Raised, pending := c.ending != Returned)
    case RunSql(_, _) => st.(failed := c.ending == Raised)
    case CleanUp => st.(closed := st.closed || c.ending == Returned)
  }

  function Outcome(h: seq<Episode>): State {
    if h == [] then INITIAL else After(Outcome(h[..|h| - 1]), h[|h| - 1])
  }

  ghost predicate Lawful(pins: Pins, h: seq<Episode>) {
    forall i | 0 <= i < |h| :: Legal(pins, Outcome(h[..i]), h[i])
  }

  lemma Continued(pins: Pins, h: seq<Episode>, c: Episode)
    requires Lawful(pins, h) && Legal(pins, Outcome(h), c)
    ensures Lawful(pins, h + [c]) && Outcome(h + [c]) == After(Outcome(h), c)
  {
    hide Legal;
    var g := h + [c];
    assert g[..|h|] == h;
    assert forall i | 0 <= i < |h| :: g[..i] == h[..i] && g[i] == h[i];
  }
}
