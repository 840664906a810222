/** The promises of the chat over whole runs, and where they end. */
module ChatRuns {
  import opened Text
  import opened Chat
  import opened ChatLaws

  // One operation at a time --------------------------------------------------------------------------

  /** Replies to replaced operations change nothing, and at most one operation under way is not replaced. */
  lemma OnlyCurrentChanges(p: Props, es: seq<Event>, i: nat, outcome: Outcome)
    requires Proper(p) && Run(p, es).Some? && i < |Run(p, es).value.flights|
    ensures var s := Run(p, es).value;
      Settle(s.hook, s.flights[i], outcome) != s.hook ==>
        && Valid(s.hook, s.flights[i]) && s.hook.pending
        && forall j | 0 <= j < |s.flights| && Valid(s.hook, s.flights[j]) :: j == i
  {
    RunKeeps(p, es);
    var s := Run(p, es).value;
    hide Run, Clean, AskedOnce;
    if Valid(s.hook, s.flights[i]) {
      assert Undisturbed(s.hook, s.flights[i]);
    }
  }

  /** The latch cannot stick: while it blocks a visible chat, exactly one current operation is under way, and its
      reply, whatever it is, releases the latch. */
  lemma LatchReleases(p: Props, es: seq<Event>) returns (i: nat)
    requires Proper(p) && Run(p, es).Some?
    requires var h := Run(p, es).value.hook; h.mounted && Visible(h) && h.pending
    ensures var s := Run(p, es).value;
      && i < |s.flights| && Valid(s.hook, s.flights[i])
      && (forall j | 0 <= j < |s.flights| && Valid(s.hook, s.flights[j]) :: j == i)
      && forall outcome :: !Settle(s.hook, s.flights[i], outcome).pending
  {
    RunKeeps(p, es);
    var s := Run(p, es).value;
    hide Run, Clean, AskedOnce, LatestOwn, AllUndisturbed;
    i :| 0 <= i < |s.flights| && Valid(s.hook, s.flights[i]);
    forall outcome
      ensures !Settle(s.hook, s.flights[i], outcome).pending
    {
      SettleFrame(s.hook, s.flights[i], outcome);
    }
  }

  // The transcript -----------------------------------------------------------------------------------

  /** Until its reply comes, the transcript is what it was when the operation started, with the question if one
      was asked, and nothing is being recovered. */
  lemma InFlight(p: Props, es: seq<Event>, i: nat)
    requires Proper(p) && Run(p, es).Some? && i < |Run(p, es).value.flights|
    requires var s := Run(p, es).value; Valid(s.hook, s.flights[i])
    ensures Undisturbed(Run(p, es).value.hook, Run(p, es).value.flights[i])
  {
    RunKeeps(p, es);
    hide Run, Clean, AskedOnce;
  }

  predicate Refused(f: Failure) {
    !Uncertain(f) && f.code == Some("CHAT_TURN_BUSY")
  }

  /** The transcript a reply has to leave: the answer is appended, a busy turn gives back exactly the transcript from
      before, a denial empties it, anything else leaves the question standing. */
  function Transcript(op: Op, outcome: Outcome): seq<Message> {
    var asked := op.before + if op.asked then [Question(op.request, op.account)] else [];
    match outcome
    case Replied(r) => if Confirms(op.request, r) then asked + [Answer(r, op.account)] else []
    case Failed(f) =>
      if Refused(f) then op.before
      else if !Uncertain(f) && (op.scoped || f.status in {403, 404, 409}) then []
      else asked
  }

  lemma SettledTranscript(h: Hook, op: Op, outcome: Outcome)
    requires Valid(h, op) && Undisturbed(h, op)
    ensures Settle(h, op, outcome).messages == Transcript(op, outcome)
  {
    if op.asked {
      assert (op.before + [Question(op.request, op.account)])[..|op.before|] == op.before;
    } else {
      assert op.before + [] == op.before;
    }
  }

  /** In every run the reply to the current operation leaves exactly that transcript. */
  lemma Accounted(p: Props, es: seq<Event>, i: nat, outcome: Outcome)
    requires Proper(p) && Run(p, es).Some? && i < |Run(p, es).value.flights|
    requires var s := Run(p, es).value; Valid(s.hook, s.flights[i])
    ensures var s := Run(p, es).value;
      Settle(s.hook, s.flights[i], outcome).messages == Transcript(s.flights[i], outcome)
  {
    InFlight(p, es, i);
    hide Run;
    SettledTranscript(Run(p, es).value.hook, Run(p, es).value.flights[i], outcome);
  }

  /** After a confirmed answer the chat takes the next question, in the session and conversation of the answer and
      about its source, unless that has become unavailable. */
  lemma ConversationContinues(p: Props, es: seq<Event>, i: nat, r: Response, query: string, randomSession: string)
    requires Proper(p) && Run(p, es).Some? && i < |Run(p, es).value.flights|
    requires var s := Run(p, es).value; Valid(s.hook, s.flights[i]) && Confirms(s.flights[i].request, r)
    requires query != "" && Run(p, es).value.hook.props.token && Run(p, es).value.hook.props.institution
    ensures var s := Run(p, es).value;
      var h := Settle(s.hook, s.flights[i], Replied(r));
      var (g, op) := Send(h, query, randomSession);
      && (op.Some? <==> (r.resource.Some? ==> r.resource.value.available))
      && (op.Some? ==>
            && op.value.request.session.value == r.session
            && op.value.request.conversation == Some(Tagged(r.conversation, s.flights[i].account))
            && op.value.request.resource == (if r.resource.Some? then Some(r.resource.value.source) else None)
            && g.messages == h.messages + [Question(op.value.request, op.value.account)])
  {
    InFlight(p, es, i);
    hide Run;
  }

  /** In every run each question asked here stands in the transcript at most once. */
  lemma QuestionsOnce(p: Props, es: seq<Event>)
    requires Proper(p) && Run(p, es).Some?
    ensures var ms := Run(p, es).value.hook.messages;
      forall i, j | 0 <= i < j < |ms| && ms[i].turn.Some? :: ms[i].turn != ms[j].turn
  {
    RunKeeps(p, es);
    hide Run, Clean, Control;
  }

  /** Where the requests that may be retried come from. */
  predicate Traceable(s: System, r: Option<Request>, turn: nat) {
    r.Some? ==> r.value.turn == turn && (r.value in s.sent || r.value in s.told)
  }

  predicate Remembered(s: System) {
    && (forall i | 0 <= i < |s.flights| :: s.flights[i].request in s.sent)
    && (forall i | 0 <= i < |s.checks| :: Traceable(s, s.checks[i].selected.request, s.checks[i].selected.turn))
    && (s.hook.active.Some? ==> Traceable(s, s.hook.active.value.request, s.hook.active.value.turn))
    && (s.hook.recovery.Some? ==> Traceable(s, s.hook.recovery.value.request, s.hook.recovery.value.turn))
  }

  /** A reply leaves what may be retried as it was, or is recovered by its own request. */
  lemma SettleKeepsRequests(h: Hook, op: Op, outcome: Outcome)
    ensures var g := Settle(h, op, outcome);
      && (g.active == h.active
          || (g.active.Some? && g.active.value.turn == op.request.turn && g.active.value.request == Some(op.request)))
      && (g.recovery == h.recovery || g.recovery == Some(Recovery(op.request.turn, Some(op.request), false, false)))
  {
    hide Withdrawn, Confirms, Known;
  }

  lemma SettleRemembers(s: System, i: nat, outcome: Outcome)
    requires Remembered(s) && i < |s.flights|
    ensures Remembered(s.(hook := Settle(s.hook, s.flights[i], outcome), flights := Without(s.flights, i)))
  {
    SettleKeepsRequests(s.hook, s.flights[i], outcome);
    hide Settle;
    var fs := Without(s.flights, i);
    forall k | 0 <= k < |fs|
      ensures fs[k].request in s.sent
    {
      CameFrom(s.flights, i, k);
    }
  }

  /** What a check leaves to retry was there before, or is what the report says. */
  lemma EndCheckKeepsRequests(h: Hook, c: Check, report: Report)
    requires report.Reported?
    ensures var g, own := EndCheck(h, c, report), Received(report.request, c.account);
      && (g.active == None || g.active == h.active
          || (Matches(c, report) && g.active.value.turn == own.turn && g.active.value.request == Some(own)))
      && (g.recovery == None || SameTurn(g.recovery, h.recovery)
          || (Matches(c, report) && g.recovery.value.turn == own.turn && g.recovery.value.request == Some(own)))
  {
    hide Confirms, Known;
  }

  predicate SameTurn(x: Option<Recovery>, y: Option<Recovery>) {
    x.Some? && y.Some? && x.value.turn == y.value.turn && x.value.request == y.value.request
  }

  lemma FailedKeepsRequests(h: Hook, c: Check, f: Failure)
    ensures var g := EndCheck(h, c, NotReported(f));
      (g.active == None || g.active == h.active) && (g.recovery == None || SameTurn(g.recovery, h.recovery))
  {
  }

  lemma EndCheckRemembers(s: System, i: nat, report: Report)
    requires Remembered(s) && i < |s.checks|
    ensures Remembered(Step(s, Answered(i, report)))
  {
    var t := Step(s, Answered(i, report));
    if report.Reported? {
      EndCheckKeepsRequests(s.hook, s.checks[i], report);
    } else {
      FailedKeepsRequests(s.hook, s.checks[i], report.failure);
    }
    hide EndCheck, Matches, Received;
    forall k | 0 <= k < |t.checks|
      ensures Traceable(t, t.checks[k].selected.request, t.checks[k].selected.turn)
    {
      assert t.checks[k] in s.checks;
    }
    assert forall r | r in s.told :: r in t.told;
  }

  lemma LaunchRemembers(s: System, h: Hook, op: Option<Op>)
    requires Remembered(s) && (h.active == None || h.active == s.hook.active)
    requires h.recovery == None || h.recovery == s.hook.recovery
    ensures Remembered(Launch(s, h, op))
  {
    var t := Launch(s, h, op);
    assert forall r | r in s.sent :: r in t.sent;
    forall i | 0 <= i < |t.flights|
      ensures t.flights[i].request in t.sent
    {
      if i == |s.flights| {
        assert t.sent[|s.sent|] == op.value.request;
      }
    }
  }

  lemma CallRemembers(s: System, c: Option<Check>, h: Hook)
    requires Remembered(s.(hook := h)) && (c.Some? ==> h.active == Some(c.value.selected))
    ensures Remembered(s.(hook := h, checks := With(s.checks, c)))
  {
  }

  lemma StepRemembers(s: System, e: Event)
    requires Remembered(s) && Possible(s, e)
    ensures Remembered(Step(s, e))
  {
    match e {
      case Sent(query, randomSession) =>
        var (h, op) := Send(s.hook, query, randomSession);
        hide Remembered;
        LaunchRemembers(s, h, op);
      case Retried =>
        var (h, op) := Retry(s.hook);
        hide Remembered;
        LaunchRemembers(s, h, op);
      case Arrived(i, outcome) =>
        SettleRemembers(s, i, outcome);
        hide Settle;
      case Loaded(id, saved, resource, unfinished) =>
        var (h, c) := Load(s.hook, id, saved, resource, unfinished);
        CallRemembers(s, c, h);
      case CheckPressed =>
        var (h, c) := StartCheck(s.hook);
        CallRemembers(s, c, h);
      case Answered(i, report) =>
        EndCheckRemembers(s, i, report);
      case _ =>
    }
  }

  lemma {:induction false} RunRemembers(p: Props, es: seq<Event>)
    requires Run(p, es).Some?
    ensures Remembered(Run(p, es).value)
  {
    if es != [] {
      RunRemembers(p, es[..|es| - 1]);
      hide Step, Possible, Remembered;
      StepRemembers(Run(p, es[..|es| - 1]).value, es[|es| - 1]);
    }
  }

  /** In every run a retry sends the request of an earlier operation, or the one reported for the selected turn,
      about that very turn, and asks nothing a second time. */
  lemma RetryResends(p: Props, es: seq<Event>)
    requires Run(p, es).Some?
    ensures var s := Run(p, es).value;
      var (g, op) := Retry(s.hook);
      && g.messages == s.hook.messages
      && (op.Some? ==>
            && !op.value.asked && s.hook.recovery.Some? && op.value.request.turn == s.hook.recovery.value.turn
            && (op.value.request in s.sent || op.value.request in s.told))
  {
    RunRemembers(p, es);
    hide Run;
  }

  // Checks -------------------------------------------------------------------------------------------

  /** Versions and serial numbers only grow, and the selected turn has one of the numbers given out. */
  predicate Grows(h: Hook, g: Hook) {
    h.version <= g.version && h.serials <= g.serials && (g.active.Some? ==> g.active.value.serial < g.serials)
  }

  lemma SettleGrows(h: Hook, op: Op, outcome: Outcome)
    requires Grows(h, h)
    ensures Grows(h, Settle(h, op, outcome))
  {
    hide Withdrawn, Confirms, Known;
  }

  lemma EndCheckGrows(h: Hook, c: Check, report: Report)
    requires Grows(h, h)
    ensures Grows(h, EndCheck(h, c, report))
  {
    hide Received, Confirms, Known;
  }

  lemma PerformGrows(h: Hook, request: Request, asked: bool)
    requires Grows(h, h)
    ensures Grows(h, Perform(h, request, asked).0)
  {
  }

  lemma CallsGrow(h: Hook, query: string, randomSession: string)
    requires Grows(h, h)
    ensures Grows(h, Send(h, query, randomSession).0) && Grows(h, Retry(h).0)
  {
    PerformGrows(h.(turns := h.turns + 1), RequestFor(h, query, randomSession), true);
    if h.recovery.Some? && h.recovery.value.request.Some? {
      PerformGrows(h, h.recovery.value.request.value, false);
    }
    hide Perform, RequestFor;
  }

  predicate Dated(h: Hook, c: Check) {
    c.version <= h.version && c.selected.serial < h.serials
  }

  ghost predicate AllDated(s: System) {
    Grows(s.hook, s.hook) && forall i | 0 <= i < |s.checks| :: Dated(s.hook, s.checks[i])
  }

  lemma DatedLater(s: System, g: Hook, c: Option<Check>)
    requires AllDated(s) && Grows(s.hook, g) && (c.Some? ==> Dated(g, c.value))
    ensures forall i | 0 <= i < |With(s.checks, c)| :: Dated(g, With(s.checks, c)[i])
  {
  }

  lemma LoadDated(h: Hook, id: string, saved: seq<Saved>, resource: Option<Resource>, unfinished: Option<nat>)
    requires Grows(h, h)
    ensures var (g, c) := Load(h, id, saved, resource, unfinished); Grows(h, g) && (c.Some? ==> Dated(g, c.value))
  {
    hide Restored;
  }

  lemma StepDated(s: System, e: Event)
    requires AllDated(s) && Possible(s, e)
    ensures AllDated(Step(s, e))
  {
    var h := s.hook;
    match e {
      case Sent(query, randomSession) =>
        CallsGrow(h, query, randomSession);
        hide Send;
      case Retried =>
        CallsGrow(h, "", "");
        hide Retry;
      case Arrived(i, outcome) =>
        SettleGrows(h, s.flights[i], outcome);
        hide Settle;
      case Loaded(id, saved, resource, unfinished) =>
        LoadDated(h, id, saved, resource, unfinished);
        hide Load;
        var (g, c) := Load(h, id, saved, resource, unfinished);
        DatedLater(s, g, c);
      case CheckPressed =>
        var (g, c) := StartCheck(h);
        DatedLater(s, g, c);
      case Answered(i, report) =>
        EndCheckGrows(h, s.checks[i], report);
        hide EndCheck;
      case _ =>
    }
  }

  lemma {:induction false} RunDated(p: Props, es: seq<Event>)
    requires Run(p, es).Some?
    ensures AllDated(Run(p, es).value)
  {
    if es != [] {
      RunDated(p, es[..|es| - 1]);
      hide Step, Possible, AllDated;
      StepDated(Run(p, es[..|es| - 1]).value, es[|es| - 1]);
    }
  }

  /** Of checks under way at the same time only the first report acts: whatever the others bring comes too late,
      so a recovered answer is appended once. */
  lemma FirstReportActs(p: Props, es: seq<Event>, i: nat, j: nat, report: Report, late: Report)
    requires Run(p, es).Some?
    requires var s := Run(p, es).value;
      i < |s.checks| && j < |s.checks| && Current(s.hook, s.checks[i]) && Matches(s.checks[i], report)
    ensures var s := Run(p, es).value;
      var h := EndCheck(s.hook, s.checks[i], report);
      EndCheck(h, s.checks[j], late) == h
  {
    RunDated(p, es);
    hide Run;
    var s := Run(p, es).value;
    assert Dated(s.hook, s.checks[j]);
    NowStale(s.hook, s.checks[i], report, s.checks[j]);
    hide Current;
  }

  lemma NowStale(h: Hook, c: Check, report: Report, d: Check)
    requires Current(h, c) && Matches(c, report) && Dated(h, d)
    ensures !Current(EndCheck(h, c, report), d)
  {
    hide Received, Known, Confirms;
  }

  // Accounts -----------------------------------------------------------------------------------------

  datatype State = State(messages: seq<Message>, error: Option<Tagged<Notice>>, session: Option<Tagged<string>>,
                         conversation: Option<Tagged<string>>, resource: Option<Tagged<Resource>>, blocked: bool,
                         recovery: Option<Recovery>)

  /** What the hook returns to the page. */
  function Shown(h: Hook): State {
    if Visible(h) then State(h.messages, h.error, h.session, h.conversation, h.resource, h.blocked, h.recovery)
    else State([], None, None, None, Initial(h.props), false, None)
  }

  predicate ShowsOnly(v: State, a: Account) {
    && (forall i | 0 <= i < |v.messages| :: v.messages[i].account == a)
    && Own(v.error, a) && Own(v.session, a) && Own(v.conversation, a)
    && (v.recovery.Some? && v.recovery.value.request.Some? ==> Mine(v.recovery.value.request.value, a))
    && (Own(v.resource, a) || (Unavailable(v.resource) && a.source == Some(v.resource.value.value.source)))
  }

  /** In every run the page is shown nothing of another account, but possibly that the source it was opened with
      is unavailable. */
  lemma NothingForeign(p: Props, es: seq<Event>)
    requires Proper(p) && Run(p, es).Some?
    ensures var h := Run(p, es).value.hook; ShowsOnly(Shown(h), h.Identity())
  {
    RunKeeps(p, es);
    hide Run, Control, AskedOnce;
  }

  /** A title of the former account is still there after the reset exactly when its resource was marked
      unavailable without losing the title, and is the source the page is opened with now. */
  lemma TitleKept(h: Hook)
    requires h.seen != h.Identity() && !Visible(h) && Proper(h.props)
    ensures var r := Effects(h).resource;
      (r.Some? && r.value.account != h.Identity() && r.value.value.title.Some?) <==>
        && Unavailable(h.resource) && h.Identity().source == Some(h.resource.value.value.source)
        && h.resource.value.account != h.Identity() && h.resource.value.value.title.Some?
  {
  }

  /** Unavailable resources carry no title, as the type of resource contexts promises. */
  predicate Untitled(r: Option<Resource>) {
    r.Some? && !r.value.available ==> r.value.title == None
  }

  predicate Honest(e: Event) {
    match e
    case Rendered(p) => Untitled(p.initial)
    case Arrived(_, Replied(r)) => Untitled(r.resource)
    case Loaded(_, _, resource, _) => Untitled(resource)
    case Answered(_, Reported(_, Some(r), _, _)) => Untitled(r.resource)
    case _ => true
  }

  /** Where the promise is kept, no title of another account is ever shown. */
  lemma {:induction false} HonestTitles(p: Props, es: seq<Event>)
    requires Proper(p) && Run(p, es).Some? && Untitled(p.initial) && forall i | 0 <= i < |es| :: Honest(es[i])
    ensures HookUntitled(Run(p, es).value.hook)
    ensures var h := Run(p, es).value.hook;
      var r := Shown(h).resource; r.Some? && r.value.value.title.Some? ==> r.value.account == h.Identity()
  {
    NothingForeign(p, es);
    if es != [] {
      var before, e := es[..|es| - 1], es[|es| - 1];
      HonestTitles(p, before);
      hide Run, ShowsOnly;
      StepUntitled(Run(p, before).value, e);
    }
  }

  predicate HookUntitled(h: Hook) {
    Untitled(h.props.initial) && (Unavailable(h.resource) ==> h.resource.value.value.title == None)
  }

  lemma SettleUntitled(h: Hook, op: Op, outcome: Outcome)
    requires HookUntitled(h) && (outcome.Replied? ==> Untitled(outcome.response.resource))
    ensures HookUntitled(Settle(h, op, outcome))
  {
  }

  lemma EndCheckUntitled(h: Hook, c: Check, report: Report)
    requires HookUntitled(h)
    requires report.Reported? && report.completed.Some? ==> Untitled(report.completed.value.resource)
    ensures HookUntitled(EndCheck(h, c, report))
  {
    CheckFailedUntitled(h, c, Api(409, None));
    if report.NotReported? {
      CheckFailedUntitled(h, c, report.failure);
    }
    hide CheckFailed, Current, Received;
  }

  lemma CheckFailedUntitled(h: Hook, c: Check, f: Failure)
    requires HookUntitled(h)
    ensures HookUntitled(CheckFailed(h, c, f))
  {
  }

  lemma PerformUntitled(h: Hook, request: Request, asked: bool)
    requires HookUntitled(h)
    ensures HookUntitled(Perform(h, request, asked).0)
  {
  }

  lemma StepUntitled(s: System, e: Event)
    requires Possible(s, e) && HookUntitled(s.hook) && Honest(e)
    ensures HookUntitled(Step(s, e).hook)
  {
    match e {
      case Sent(query, randomSession) =>
        PerformUntitled(s.hook.(turns := s.hook.turns + 1), RequestFor(s.hook, query, randomSession), true);
        hide Perform;
      case Retried =>
        if s.hook.recovery.Some? && s.hook.recovery.value.request.Some? {
          PerformUntitled(s.hook, s.hook.recovery.value.request.value, false);
        }
        hide Perform;
      case Arrived(i, outcome) =>
        SettleUntitled(s.hook, s.flights[i], outcome);
        hide Settle;
      case Answered(i, report) =>
        EndCheckUntitled(s.hook, s.checks[i], report);
        hide EndCheck;
      case _ =>
    }
  }

  /** Such a run exists: a conversation is loaded whose source is unavailable but comes with a title. */
  lemma TitleShown() returns (p: Props, es: seq<Event>)
    ensures Proper(p) && Run(p, es).Some?
    ensures var h := Run(p, es).value.hook;
      var r := Shown(h).resource;
      r.Some? && r.value.account != h.Identity() && r.value.value.title == Some("title")
  {
    var here := Resource("s", None, true);
    p := Props(Account("a", Some("s")), Some(here), true, true);
    var q := Props(Account("b", Some("s")), Some(here), true, true);
    var load := Loaded("c", [], Some(Resource("s", Some("title"), false)), None);
    es := [load];
    RunMore(p, [], load);
    RunMore(p, es, Rendered(q));
    es := es + [Rendered(q)];
    RunMore(p, es, EffectsRun);
    es := es + [EffectsRun];
  }

  lemma RunMore(p: Props, es: seq<Event>, e: Event)
    ensures var s := Run(p, es);
      Run(p, es + [e]) == if s.Some? && Possible(s.value, e) then Some(Step(s.value, e)) else None
    ensures es == [] ==> es + [e] == [e]
  {
    assert (es + [e])[..|es + [e]| - 1] == es;
  }

  /** The open session and conversation are the account's own. */
  predicate OpenedOwn(h: Hook) {
    Own(h.session, h.Identity()) && Own(h.conversation, h.Identity())
  }

  /** What is sent carries the account's own identifiers exactly when the open session and conversation are its
      own, for questions; and exactly when the remembered request is, for retries. */
  lemma SentOwnIff(h: Hook, query: string, randomSession: string)
    ensures var op := Send(h, query, randomSession).1;
      op.Some? ==> Mine(op.value.request, op.value.account) == OpenedOwn(h)
    ensures var op := Retry(h).1;
      op.Some? ==> (Mine(op.value.request, op.value.account) <==> Mine(h.recovery.value.request.value, h.Identity()))
  {
  }

  /** In every run this holds while the chat is visible. */
  lemma SentOwn(p: Props, es: seq<Event>, query: string, randomSession: string)
    requires Proper(p) && Run(p, es).Some? && Visible(Run(p, es).value.hook)
    ensures var h := Run(p, es).value.hook;
      && (var op := Send(h, query, randomSession).1; op.Some? ==> Mine(op.value.request, op.value.account))
      && (var op := Retry(h).1; op.Some? ==> Mine(op.value.request, op.value.account))
  {
    RunKeeps(p, es);
    hide Run, Control, AskedOnce;
    SentOwnIff(Run(p, es).value.hook, query, randomSession);
  }

  /** Between a change of account and the reset, a question carries own identifiers exactly when no session and no
      conversation was open, and a retry never does. */
  lemma SentBeforeReset(p: Props, es: seq<Event>, q: Props, query: string, randomSession: string)
    requires Proper(p) && Run(p, es).Some? && Possible(Run(p, es).value, Rendered(q))
    requires q.identity != Run(p, es).value.hook.Identity()
    ensures var h := Render(Run(p, es).value.hook, q);
      && (var op := Send(h, query, randomSession).1;
          op.Some? ==> (Mine(op.value.request, op.value.account) <==> h.session == None && h.conversation == None))
      && (var op := Retry(h).1; op.Some? ==> !Mine(op.value.request, op.value.account))
  {
    RunKeeps(p, es);
    hide Run, Control, AskedOnce;
    SentOwnIff(Render(Run(p, es).value.hook, q), query, randomSession);
    hide Send, Retry;
  }

  /** A question sent after a change of account but before the reset takes the former conversation along. */
  lemma SentTooEarly() returns (p: Props, es: seq<Event>)
    ensures Proper(p) && Run(p, es).Some?
    ensures var s := Run(p, es).value;
      |s.flights| == 1 && s.flights[0].account == Account("b", None)
      && s.flights[0].request.conversation == Some(Tagged("c", Account("a", None)))
  {
    p := Props(Account("a", None), None, true, true);
    var q := Props(Account("b", None), None, true, true);
    var load := Loaded("c", [], None, None);
    es := [load];
    RunMore(p, [], load);
    RunMore(p, es, Rendered(q));
    es := es + [Rendered(q)];
    RunMore(p, es, Sent("?", "r"));
    es := es + [Sent("?", "r")];
  }

}
