/** Over whole runs the answer to a turn is appended at most once to a transcript. */
module ChatAnswers {
  import opened Text
  import opened Chat
  import opened ChatLaws
  import opened ChatRuns

  /** The turn whose answer an event appends, if it appends one. */
  function Replying(s: System, e: Event): seq<nat>
    requires Possible(s, e)
  {
    match e
    case Arrived(i, Replied(r)) =>
      if Valid(s.hook, s.flights[i]) && Confirms(s.flights[i].request, r) then [s.flights[i].request.turn] else []
    case Answered(i, Reported(turn, Some(r), retryable, request)) =>
      var c := s.checks[i];
      if Current(s.hook, c) && Matches(c, Reported(turn, Some(r), retryable, request)) && Confirms(request, r)
         && !(r.messageId.Some? && Known(s.hook.messages, r.messageId.value))
      then [c.selected.turn] else []
    case _ => []
  }

  /** Every answer shown was shown before, at the same place, or is the one appended now; loading another conversation
      brings its own. */
  lemma AnswersCounted(s: System, e: Event, k: nat)
    requires Possible(s, e) && !e.Loaded? && k < |Step(s, e).hook.messages| && !Step(s, e).hook.messages[k].fromUser
    ensures var ms := s.hook.messages;
      (k < |ms| && ms[k] == Step(s, e).hook.messages[k]) || (k == |ms| && Replying(s, e) != [])
  {
    match e {
      case Arrived(i, outcome) =>
        SettleCounted(s.hook, s.flights[i], outcome);
        hide Settle, Confirms;
      case Answered(i, report) =>
        EndCheckCounted(s.hook, s.checks[i], report);
        hide EndCheck, Confirms, Known;
      case Sent(query, randomSession) =>
        hide RequestFor;
      case _ =>
    }
  }

  /** The transcript g shows is h's, a beginning of it, or empty; answers are added only if more says so. */
  predicate Counted(h: seq<Message>, g: seq<Message>, more: bool) {
    forall k | 0 <= k < |g| && !g[k].fromUser :: (k < |h| && h[k] == g[k]) || (k == |h| && more)
  }

  lemma SettleCounted(h: Hook, op: Op, outcome: Outcome)
    ensures Counted(h.messages, Settle(h, op, outcome).messages,
                    Valid(h, op) && outcome.Replied? && Confirms(op.request, outcome.response))
  {
    hide Withdrawn, Known, Confirms;
  }

  lemma EndCheckCounted(h: Hook, c: Check, report: Report)
    ensures Counted(h.messages, EndCheck(h, c, report).messages,
                    Current(h, c) && Matches(c, report) && report.completed.Some?
                    && Confirms(report.request, report.completed.value)
                    && !(report.completed.value.messageId.Some?
                         && Known(h.messages, report.completed.value.messageId.value)))
  {
    hide Withdrawn, Known, Confirms;
  }

  /** The turns answered since the transcript was last empty or loaded. */
  function AnsweredTurns(p: Props, es: seq<Event>): seq<nat>
    requires Run(p, es).Some?
  {
    if es == [] then []
    else
      var before, e := es[..|es| - 1], es[|es| - 1];
      if e.Loaded? || Run(p, es).value.hook.messages == [] then []
      else AnsweredTurns(p, before) + Replying(Run(p, before).value, e)
  }

  predicate Free(h: Hook, answered: seq<nat>, turn: nat) {
    turn < h.turns && turn !in answered
  }

  /** No answered turn is being recovered or asked again, and while a reply is awaited nothing is recovered. */
  predicate Unanswered(h: Hook, fs: seq<Op>, answered: seq<nat>) {
    && (forall i, j | 0 <= i < j < |answered| :: answered[i] != answered[j])
    && (forall turn | turn in answered :: turn < h.turns)
    && (h.active.Some? ==> Free(h, answered, h.active.value.turn))
    && (h.recovery.Some? ==> Free(h, answered, h.recovery.value.turn))
    && forall i | 0 <= i < |fs| && fs[i].id == h.epoch ::
      Free(h, answered, fs[i].request.turn) && h.active == None && h.recovery == None
  }

  /** Forgetting answers only helps. */
  lemma Forgotten(h: Hook, fs: seq<Op>, answered: seq<nat>)
    requires Unanswered(h, fs, answered)
    ensures Unanswered(h, fs, [])
  {
  }

  /** The same turns, none of them new. */
  predicate Narrowed(h: Hook, g: Hook) {
    && h.turns <= g.turns && (g.active == None || (h.active.Some? && g.active.value.turn == h.active.value.turn))
    && (g.recovery == None || (h.recovery.Some? && g.recovery.value.turn == h.recovery.value.turn))
  }

  lemma NarrowedUnanswered(h: Hook, g: Hook, fs: seq<Op>, rest: seq<Op>, answered: seq<nat>)
    requires Unanswered(h, fs, answered) && Narrowed(h, g)
    requires forall i | 0 <= i < |rest| && rest[i].id == g.epoch :: g.epoch == h.epoch && rest[i] in fs
    ensures Unanswered(g, rest, answered)
  {
    forall i | 0 <= i < |rest| && rest[i].id == g.epoch
      ensures Free(g, answered, rest[i].request.turn) && g.active == None && g.recovery == None
    {
      var k :| 0 <= k < |fs| && fs[k] == rest[i];
    }
  }

  lemma WithoutIn(fs: seq<Op>, i: nat)
    requires i < |fs|
    ensures forall x | x in Without(fs, i) :: x in fs
  {
  }

  // Calls ----------------------------------------------------------------------------------------------

  lemma PerformUnanswered(h: Hook, fs: seq<Op>, request: Request, asked: bool, answered: seq<nat>)
    requires Unanswered(h, fs, answered) && Numbered(h, fs) && Free(h, answered, request.turn)
    ensures var (g, op) := Perform(h, request, asked); Unanswered(g, With(fs, op), answered)
  {
    var (g, op) := Perform(h, request, asked);
    if op == None {
      assert With(fs, op) == fs;
    } else {
      hide Numbered;
      assert Numbered(h, fs);
      NewestUnanswered(h, g, fs, op.value, answered);
    }
  }

  lemma NewestUnanswered(h: Hook, g: Hook, fs: seq<Op>, op: Op, answered: seq<nat>)
    requires Unanswered(h, fs, answered) && Numbered(h, fs) && Free(h, answered, op.request.turn)
    requires g.epoch == h.epoch + 1 == op.id && g.active == None && g.recovery == None && g.turns == h.turns
    ensures Unanswered(g, fs + [op], answered)
  {
    var all := fs + [op];
    assert forall i | 0 <= i < |fs| :: all[i] == fs[i] && fs[i].id <= h.epoch;
  }

  lemma SendUnanswered(h: Hook, fs: seq<Op>, query: string, randomSession: string, answered: seq<nat>)
    requires Unanswered(h, fs, answered) && Numbered(h, fs)
    ensures var (g, op) := Send(h, query, randomSession); Unanswered(g, With(fs, op), answered)
  {
    hide Perform;
    if query == "" || h.recovery.Some? || h.pending || h.blocked {
      assert With(fs, None) == fs;
    } else {
      var k := h.(turns := h.turns + 1);
      NarrowedUnanswered(h, k, fs, fs, answered);
      hide Unanswered;
      PerformUnanswered(k, fs, RequestFor(h, query, randomSession), true, answered);
    }
  }

  lemma RetryUnanswered(s: System, answered: seq<nat>)
    requires Unanswered(s.hook, s.flights, answered) && Numbered(s.hook, s.flights) && Remembered(s)
    ensures var (g, op) := Retry(s.hook); Unanswered(g, With(s.flights, op), answered)
  {
    var h := s.hook;
    if h.recovery.Some? && h.recovery.value.retryable && h.recovery.value.request.Some? {
      assert h.recovery.value.request.value.turn == h.recovery.value.turn;
      hide Perform, Numbered, Remembered;
      PerformUnanswered(h, s.flights, h.recovery.value.request.value, false, answered);
    } else {
      assert With(s.flights, None) == s.flights;
    }
  }

  // Replies and reports --------------------------------------------------------------------------------

  lemma OthersOlder(h: Hook, fs: seq<Op>, i: nat)
    requires i < |fs| && fs[i].id == h.epoch && Numbered(h, fs)
    ensures forall k | 0 <= k < |Without(fs, i)| :: Without(fs, i)[k].id != h.epoch
  {
    forall k | 0 <= k < |Without(fs, i)|
      ensures Without(fs, i)[k].id != h.epoch
    {
      CameFrom(fs, i, k);
    }
  }

  /** Whether a reply is recovered, and by which turn, and whether it leaves answers standing. */
  lemma SettleTurns(h: Hook, op: Op, outcome: Outcome)
    requires Valid(h, op) && h.active == None && h.recovery == None
    ensures var g := Settle(h, op, outcome);
      && g.epoch == h.epoch && g.turns == h.turns
      && (g.active.Some? ==> g.active.value.turn == op.request.turn)
      && (g.recovery.Some? ==> g.recovery.value.turn == op.request.turn)
      && (outcome.Replied? && Confirms(op.request, outcome.response) ==> g.active == None && g.recovery == None)
  {
    hide Withdrawn, Known;
  }

  lemma ArrivalUnanswered(s: System, i: nat, outcome: Outcome, answered: seq<nat>)
    requires Inv(s) && Possible(s, Arrived(i, outcome)) && Unanswered(s.hook, s.flights, answered)
    ensures var t := Step(s, Arrived(i, outcome));
      Unanswered(t.hook, t.flights, answered + Replying(s, Arrived(i, outcome)))
  {
    var h, fs, op := s.hook, s.flights, s.flights[i];
    WithoutIn(fs, i);
    if Valid(h, op) {
      SettleTurns(h, op, outcome);
      OthersOlder(h, fs, i);
      hide Settle, Confirms, Without, Inv;
      if Replying(s, Arrived(i, outcome)) == [] {
        assert answered + [] == answered;
      }
    } else {
      assert answered + [] == answered;
      hide Settle, Without, Inv;
      NarrowedUnanswered(h, h, fs, Without(fs, i), answered);
    }
  }

  lemma EndCheckTurns(h: Hook, c: Check, report: Report)
    requires Current(h, c)
    ensures var g := EndCheck(h, c, report);
      && g.epoch == h.epoch && g.turns == h.turns
      && (g.active.Some? ==> g.active.value.turn == c.selected.turn)
      && (g.recovery.Some? ==>
            g.recovery.value.turn == c.selected.turn
            || (h.recovery.Some? && g.recovery.value.turn == h.recovery.value.turn))
      && (Matches(c, report) && report.completed.Some? && Confirms(report.request, report.completed.value) ==>
            g.active == None && g.recovery == None)
  {
    hide Withdrawn, Known;
  }

  lemma ReportUnanswered(s: System, i: nat, report: Report, answered: seq<nat>)
    requires Possible(s, Answered(i, report)) && Unanswered(s.hook, s.flights, answered)
    ensures var t := Step(s, Answered(i, report));
      Unanswered(t.hook, t.flights, answered + Replying(s, Answered(i, report)))
  {
    var h, c := s.hook, s.checks[i];
    if Current(h, c) {
      EndCheckTurns(h, c, report);
      hide EndCheck, Confirms, Known;
      if Replying(s, Answered(i, report)) == [] {
        assert answered + [] == answered;
      }
    } else {
      assert answered + [] == answered;
    }
  }

  // Every run ------------------------------------------------------------------------------------------

  lemma ResetUnanswered(h: Hook, fs: seq<Op>, answered: seq<nat>)
    requires Unanswered(h, fs, answered) && Numbered(h, fs)
    ensures Unanswered(Reset(h), fs, answered) && Unanswered(Effects(h), fs, answered)
    ensures Unanswered(Unmount(h), fs, answered)
  {
  }

  lemma LoadUnanswered(h: Hook, fs: seq<Op>, id: string, saved: seq<Saved>, resource: Option<Resource>,
                       unfinished: Option<nat>)
    requires Numbered(h, fs)
    ensures Unanswered(Load(h, id, saved, resource, unfinished).0, fs, [])
  {
    hide Restored;
  }

  lemma CheckUnanswered(h: Hook, fs: seq<Op>, answered: seq<nat>)
    requires Unanswered(h, fs, answered)
    ensures Unanswered(StartCheck(h).0, fs, answered)
  {
  }

  lemma StepUnanswered(s: System, e: Event, answered: seq<nat>)
    requires Inv(s) && Remembered(s) && Possible(s, e) && Unanswered(s.hook, s.flights, answered)
    ensures Unanswered(Step(s, e).hook, Step(s, e).flights, if e.Loaded? then [] else answered + Replying(s, e))
  {
    var h, fs := s.hook, s.flights;
    assert answered + [] == answered;
    hide Unanswered, Remembered, AskedOnce, Clean;
    match e {
      case Rendered(p) => SameTurns(h, Render(h, p), fs, answered);
      case Sent(query, randomSession) =>
        SendUnanswered(h, fs, query, randomSession, answered);
        hide Send;
      case Retried =>
        RetryUnanswered(s, answered);
        hide Retry;
      case Arrived(i, outcome) => ArrivalUnanswered(s, i, outcome, answered);
      case Loaded(id, saved, resource, unfinished) => LoadUnanswered(h, fs, id, saved, resource, unfinished);
      case CheckPressed => CheckUnanswered(h, fs, answered);
      case Answered(i, report) => ReportUnanswered(s, i, report, answered);
      case _ => ResetUnanswered(h, fs, answered);
    }
  }

  lemma SameTurns(h: Hook, g: Hook, fs: seq<Op>, answered: seq<nat>)
    requires Unanswered(h, fs, answered) && g.epoch == h.epoch && g.turns == h.turns
    requires g.active == h.active && g.recovery == h.recovery
    ensures Unanswered(g, fs, answered)
  {
  }

  lemma {:induction false} RunUnanswered(p: Props, es: seq<Event>)
    requires Proper(p) && Run(p, es).Some?
    ensures Unanswered(Run(p, es).value.hook, Run(p, es).value.flights, AnsweredTurns(p, es))
  {
    if es != [] {
      var before, e := es[..|es| - 1], es[|es| - 1];
      RunKeeps(p, before);
      RunRemembers(p, before);
      RunUnanswered(p, before);
      hide Inv, Remembered, Unanswered, Step, Possible, Replying;
      var s := Run(p, before).value;
      StepUnanswered(s, e, AnsweredTurns(p, before));
      Forgotten(Run(p, es).value.hook, Run(p, es).value.flights,
                if e.Loaded? then [] else AnsweredTurns(p, before) + Replying(s, e));
    }
  }

  /** In every run no turn is answered twice in one transcript. */
  lemma AnsweredOnce(p: Props, es: seq<Event>)
    requires Proper(p) && Run(p, es).Some?
    ensures var turns := AnsweredTurns(p, es); forall i, j | 0 <= i < j < |turns| :: turns[i] != turns[j]
  {
    RunUnanswered(p, es);
    hide Run, AnsweredTurns;
  }
}
