/** What holds of the chat in every run, in whatever order replies, checks, renders and effects come. */
module ChatLaws {
  import opened Text
  import opened Chat

  predicate Mine(r: Request, a: Account) {
    r.session.account == a && (r.conversation.Some? ==> r.conversation.value.account == a)
  }

  predicate Own<T>(x: Option<Tagged<T>>, a: Account) {
    x.Some? ==> x.value.account == a
  }

  /** The chat belongs to the account it is rendered for, so what it holds is shown. */
  predicate Visible(h: Hook) {
    h.owner == h.Identity()
  }

  /** A resource kept from another account is marked unavailable and is the source this page was opened with. */
  predicate OwnOrWithdrawn(h: Hook) {
    Own(h.resource, h.Identity())
    || (Unavailable(h.resource) && h.Identity().source == Some(h.resource.value.value.source))
  }

  predicate Clean(h: Hook) {
    var me := h.Identity();
    && (forall i | 0 <= i < |h.messages| :: h.messages[i].account == me)
    && Own(h.error, me) && Own(h.session, me) && Own(h.conversation, me) && OwnOrWithdrawn(h)
    && (h.recovery.Some? && h.recovery.value.request.Some? ==> Mine(h.recovery.value.request.value, me))
    && (h.active.Some? && h.active.value.request.Some? ==> Mine(h.active.value.request.value, me))
  }

  predicate Numbered(h: Hook, fs: seq<Op>) {
    && (forall i | 0 <= i < |fs| :: fs[i].id <= h.epoch)
    && (forall i, j | 0 <= i < j < |fs| :: fs[i].id != fs[j].id)
  }

  /** While the chat is visible, an operation of the current epoch is the current account's own. */
  predicate LatestOwn(h: Hook, fs: seq<Op>) {
    Visible(h) ==>
      forall i | 0 <= i < |fs| && fs[i].id == h.epoch ::
        fs[i].account == h.Identity() && Mine(fs[i].request, fs[i].account)
  }

  predicate Undisturbed(h: Hook, op: Op) {
    && h.pending && h.active == None && h.recovery == None && !h.blocked && !Unavailable(h.resource)
    && h.messages == op.before + if op.asked then [Question(op.request, op.account)] else []
  }

  predicate AllUndisturbed(h: Hook, fs: seq<Op>) {
    forall i | 0 <= i < |fs| && Valid(h, fs[i]) :: Undisturbed(h, fs[i])
  }

  ghost predicate Latched(h: Hook, fs: seq<Op>) {
    h.mounted && Visible(h) && h.pending ==> exists i | 0 <= i < |fs| :: Valid(h, fs[i])
  }

  /** No two messages ask the question of the same turn. */
  predicate AskedOnce(ms: seq<Message>, turns: nat) {
    && (forall i | 0 <= i < |ms| && ms[i].turn.Some? :: ms[i].turn.value < turns)
    && (forall i, j | 0 <= i < j < |ms| && ms[i].turn.Some? :: ms[i].turn != ms[j].turn)
  }

  ghost predicate Control(h: Hook, fs: seq<Op>) {
    Numbered(h, fs) && LatestOwn(h, fs) && AllUndisturbed(h, fs) && Latched(h, fs)
  }

  ghost predicate Keeps(h: Hook, fs: seq<Op>) {
    && Proper(h.props) && (h.seen == h.Identity() ==> Visible(h)) && Control(h, fs)
    && AskedOnce(h.messages, h.turns) && (Visible(h) ==> Clean(h))
  }

  ghost predicate Inv(s: System) {
    Keeps(s.hook, s.flights)
  }

  lemma Initially(p: Props)
    requires Proper(p)
    ensures Inv(Start(p))
  {
  }

  lemma RenderKeeps(s: System, p: Props)
    requires Inv(s) && Possible(s, Rendered(p))
    ensures Inv(Step(s, Rendered(p)))
  {
    hide AskedOnce;
    if p.identity == s.hook.Identity() && s.hook.mounted && Visible(s.hook) && s.hook.pending {
      var i :| 0 <= i < |s.flights| && Valid(s.hook, s.flights[i]);
      assert Valid(Render(s.hook, p), s.flights[i]);
    }
  }

  lemma EffectsKeep(s: System)
    requires Inv(s) && Possible(s, EffectsRun)
    ensures Inv(Step(s, EffectsRun))
  {
    var h := Effects(s.hook);
    if s.hook.seen != s.hook.Identity() && Visible(s.hook) && s.hook.pending && s.hook.mounted {
      var i :| 0 <= i < |s.flights| && Valid(s.hook, s.flights[i]);
      assert Valid(h, s.flights[i]);
    }
  }

  lemma UnmountKeeps(s: System)
    requires Inv(s) && Possible(s, Unmounted)
    ensures Inv(Step(s, Unmounted))
  {
    hide AskedOnce, Clean;
    assert Clean(Unmount(s.hook)) == Clean(s.hook) by {
      assert Unmount(s.hook).resource == s.hook.resource;
      CleanSame(s.hook, Unmount(s.hook));
    }
  }

  lemma CleanSame(h: Hook, g: Hook)
    requires g.props.identity == h.props.identity && g.messages == h.messages && g.error == h.error
    requires g.session == h.session && g.conversation == h.conversation && g.resource == h.resource
    requires g.recovery == h.recovery && g.active == h.active
    ensures Clean(g) == Clean(h)
  {
  }

  lemma ResetKeeps(s: System)
    requires Inv(s) && Possible(s, ResetPressed)
    ensures Inv(Step(s, ResetPressed))
  {
  }

  lemma RestoredOwn(saved: seq<Saved>, a: Account, turns: nat)
    ensures forall i | 0 <= i < |Restored(saved, a)| :: Restored(saved, a)[i].account == a
    ensures AskedOnce(Restored(saved, a), turns)
  {
  }

  lemma LoadKeeps(s: System, id: string, saved: seq<Saved>, resource: Option<Resource>, unfinished: Option<nat>)
    requires Inv(s) && Possible(s, Loaded(id, saved, resource, unfinished))
    ensures Inv(Step(s, Loaded(id, saved, resource, unfinished)))
  {
    RestoredOwn(saved, s.hook.Identity(), Beyond(s.hook.turns, unfinished));
    hide Restored, AskedOnce;
  }

  lemma CheckKeeps(s: System)
    requires Inv(s) && Possible(s, CheckPressed)
    ensures Inv(Step(s, CheckPressed))
  {
    hide AskedOnce;
    var h := StartCheck(s.hook).0;
    if s.hook.mounted && Visible(s.hook) && s.hook.pending {
      var i :| 0 <= i < |s.flights| && Valid(s.hook, s.flights[i]);
      assert Valid(h, s.flights[i]);
    }
    forall i | 0 <= i < |s.flights| && Valid(h, s.flights[i])
      ensures Undisturbed(h, s.flights[i])
    {
      assert Valid(s.hook, s.flights[i]);
    }
  }

  /** No message asks the question of this turn yet. */
  predicate NewTurn(h: Hook, request: Request) {
    request.turn < h.turns && forall i | 0 <= i < |h.messages| :: h.messages[i].turn != Some(request.turn)
  }

  lemma PerformFine(h: Hook, request: Request, asked: bool)
    requires (Visible(h) ==> Clean(h) && Mine(request, h.Identity())) && AskedOnce(h.messages, h.turns)
    requires asked ==> NewTurn(h, request)
    ensures var g := Perform(h, request, asked).0;
      (Visible(g) ==> Clean(g)) && AskedOnce(g.messages, g.turns)
  {
  }

  lemma ControlSame(h: Hook, g: Hook, fs: seq<Op>)
    requires g.props.identity == h.props.identity && g.mounted == h.mounted && g.epoch == h.epoch && g.owner == h.owner
    requires g.pending == h.pending && g.messages == h.messages && g.active == h.active && g.recovery == h.recovery
    requires g.blocked == h.blocked && g.resource == h.resource
    requires Control(h, fs)
    ensures Control(g, fs)
  {
    assert forall i | 0 <= i < |fs| :: Valid(g, fs[i]) == Valid(h, fs[i]);
  }

  lemma Launched(h: Hook, g: Hook, fs: seq<Op>, op: Op)
    requires Control(h, fs) && g.props == h.props && g.owner == h.owner && g.epoch == h.epoch + 1 == op.id
    requires op.account == g.Identity() && (Visible(g) ==> Mine(op.request, op.account)) && Undisturbed(g, op)
    requires g.mounted
    ensures Control(g, fs + [op])
  {
    var all := fs + [op];
    assert all[|fs|] == op && Valid(g, all[|fs|]);
    hide Undisturbed, Mine;
  }

  /** Starting an operation, if the latch lets it through. */
  lemma PerformKeeps(h: Hook, fs: seq<Op>, request: Request, asked: bool)
    requires Control(h, fs) && h.mounted && (Visible(h) ==> Mine(request, h.Identity()))
    ensures var (g, op) := Perform(h, request, asked);
      && Control(g, With(fs, op)) && g.props == h.props && g.seen == h.seen && g.owner == h.owner
  {
    hide Control, Mine;
    var (g, op) := Perform(h, request, asked);
    if op == None {
      ControlSame(h, g, fs);
    } else {
      Launched(h, g, fs, op.value);
    }
  }

  lemma PerformInv(h: Hook, fs: seq<Op>, request: Request, asked: bool)
    requires Keeps(h, fs) && h.mounted && (Visible(h) ==> Mine(request, h.Identity()))
    requires asked ==> NewTurn(h, request)
    ensures var (g, op) := Perform(h, request, asked); Keeps(g, With(fs, op))
  {
    hide Control, Clean, Proper, Mine;
    PerformFine(h, request, asked);
    hide AskedOnce, Perform;
    PerformKeeps(h, fs, request, asked);
  }

  lemma TurnTaken(h: Hook, fs: seq<Op>)
    requires Keeps(h, fs)
    ensures Keeps(h.(turns := h.turns + 1), fs)
  {
    hide Control, Clean;
    ControlSame(h, h.(turns := h.turns + 1), fs);
    CleanSame(h, h.(turns := h.turns + 1));
  }

  /** A question asked in a visible chat carries only the account's own identifiers. */
  lemma SentMine(h: Hook, query: string, randomSession: string)
    requires Visible(h) ==> Clean(h)
    ensures Visible(h) ==> Mine(RequestFor(h, query, randomSession), h.Identity())
  {
  }

  lemma SendReady(h: Hook, fs: seq<Op>, query: string, randomSession: string)
    requires Keeps(h, fs)
    ensures var k, request := h.(turns := h.turns + 1), RequestFor(h, query, randomSession);
      Keeps(k, fs) && NewTurn(k, request) && (Visible(k) ==> Mine(request, k.Identity()))
  {
    TurnTaken(h, fs);
    SentMine(h, query, randomSession);
    hide Control, Clean, Mine;
  }

  lemma SendInv(h: Hook, fs: seq<Op>, query: string, randomSession: string)
    requires Keeps(h, fs) && h.mounted
    ensures var (g, op) := Send(h, query, randomSession); Keeps(g, With(fs, op))
  {
    hide Keeps, Perform, RequestFor, Mine;
    if query == "" || h.recovery.Some? || h.pending || h.blocked {
      assert With(fs, None) == fs;
    } else {
      SendReady(h, fs, query, randomSession);
      PerformInv(h.(turns := h.turns + 1), fs, RequestFor(h, query, randomSession), true);
    }
  }

  lemma SendKeeps(s: System, query: string, randomSession: string)
    requires Inv(s) && Possible(s, Sent(query, randomSession))
    ensures Inv(Step(s, Sent(query, randomSession)))
  {
    hide Keeps, Send;
    SendInv(s.hook, s.flights, query, randomSession);
  }

  lemma RetryKeeps(s: System)
    requires Inv(s) && Possible(s, Retried)
    ensures Inv(Step(s, Retried))
  {
    var h := s.hook;
    if h.recovery.Some? && h.recovery.value.retryable && h.recovery.value.request.Some? {
      assert Visible(h) ==> Mine(h.recovery.value.request.value, h.Identity());
      hide Keeps, Perform;
      PerformInv(h, s.flights, h.recovery.value.request.value, false);
    } else {
      assert With(s.flights, None) == s.flights;
    }
  }

  // Replies and checks -------------------------------------------------------------------------------

  /** What the content alone has to satisfy. */
  predicate Fine(h: Hook) {
    (Visible(h) ==> Clean(h)) && AskedOnce(h.messages, h.turns)
  }

  lemma AcceptFine(h: Hook, r: Response, a: Account, recovered: bool)
    requires Fine(h) && a == h.Identity()
    ensures Fine(Accept(h, r, a, recovered))
  {
  }

  lemma DenyFine(h: Hook, f: Failure, a: Account)
    requires Fine(h) && a == h.Identity()
    ensures Fine(Deny(h, f, a))
  {
  }

  lemma RememberFine(h: Hook, request: Option<Request>, turn: nat)
    requires Fine(h) && (Visible(h) && request.Some? ==> Mine(request.value, h.Identity()))
    ensures Fine(Remember(h, request, turn)) && Fine(Clear(h))
  {
    hide AskedOnce;
  }

  lemma ErrorFine(h: Hook, error: Tagged<Notice>, blocked: bool)
    requires Fine(h) && error.account == h.Identity()
    ensures Fine(h.(error := Some(error), blocked := blocked))
  {
    hide AskedOnce;
  }

  lemma ShorterFine(h: Hook, n: nat)
    requires Fine(h) && n <= |h.messages|
    ensures Fine(h.(messages := h.messages[..n]))
  {
  }

  lemma CaughtFine(h: Hook, op: Op, f: Failure)
    requires Fine(h) && op.account == h.Identity() && (Visible(h) ==> Mine(op.request, op.account))
    ensures Fine(Caught(h, op, f))
  {
    RememberFine(h, Some(op.request), op.request.turn);
    DenyFine(h, f, op.account);
    ErrorFine(h, Tagged(About(f), op.account), h.blocked);
    var busy := h.(blocked := true, error := Some(Tagged(Busy, op.account)));
    ErrorFine(h, Tagged(Busy, op.account), true);
    if h.messages != [] {
      ShorterFine(busy, |h.messages| - 1);
    }
    hide Remember, Deny, Uncertain, Fine;
  }

  lemma SettleFine(h: Hook, op: Op, outcome: Outcome)
    requires Fine(h) && Valid(h, op) && (Visible(h) ==> Mine(op.request, op.account))
    ensures Fine(Settle(h, op, outcome))
  {
    hide Caught, Accept, Clean, AskedOnce;
    match outcome {
      case Replied(r) =>
        AcceptFine(h, r, op.account, false);
        CaughtFine(h, op, Api(409, None));
        Unlatched(Accept(h, r, op.account, false));
        Unlatched(Caught(h, op, Api(409, None)));
      case Failed(f) =>
        CaughtFine(h, op, f);
        Unlatched(Caught(h, op, f));
    }
  }

  lemma Unlatched(h: Hook)
    ensures Fine(h.(pending := false)) == Fine(h)
  {
    hide AskedOnce;
    CleanSame(h, h.(pending := false));
  }

  /** A reply leaves everything but the content and the latch as it was. */
  predicate Framed(h: Hook, g: Hook) {
    && g.props == h.props && g.seen == h.seen && g.mounted == h.mounted && g.epoch == h.epoch
    && g.owner == h.owner && g.turns == h.turns
  }

  lemma SettleFrame(h: Hook, op: Op, outcome: Outcome)
    ensures Framed(h, Settle(h, op, outcome))
    ensures Valid(h, op) ==> !Settle(h, op, outcome).pending
  {
    hide Withdrawn, Confirms, Known;
  }

  lemma CheckFailedFrame(h: Hook, c: Check, f: Failure)
    ensures Framed(h, CheckFailed(h, c, f)) && CheckFailed(h, c, f).pending == h.pending
  {
    hide Withdrawn;
  }

  lemma EndCheckFrame(h: Hook, c: Check, report: Report)
    ensures Framed(h, EndCheck(h, c, report)) && EndCheck(h, c, report).pending == h.pending
  {
    CheckFailedFrame(h, c, Api(409, None));
    if report.NotReported? {
      CheckFailedFrame(h, c, report.failure);
    }
    hide CheckFailed, Current, Confirms, Received;
  }

  /** Where an element of the shortened list stood. */
  function Back(k: nat, i: nat): nat {
    if k < i then k else k + 1
  }

  lemma CameFrom(fs: seq<Op>, i: nat, k: nat)
    requires i < |fs| && k < |Without(fs, i)|
    ensures Back(k, i) < |fs| && Back(k, i) != i && Without(fs, i)[k] == fs[Back(k, i)]
  {
  }

  lemma Remaining(h: Hook, g: Hook, fs: seq<Op>, i: nat)
    requires i < |fs| && Framed(h, g) && Numbered(h, fs) && LatestOwn(h, fs)
    ensures Numbered(g, Without(fs, i)) && LatestOwn(g, Without(fs, i))
  {
    var rest := Without(fs, i);
    hide Without, Mine;
    forall k | 0 <= k < |rest|
      ensures rest[k].id <= g.epoch
      ensures Visible(g) && rest[k].id == g.epoch ==>
        rest[k].account == g.Identity() && Mine(rest[k].request, rest[k].account)
    {
      CameFrom(fs, i, k);
    }
    forall k, l | 0 <= k < l < |rest|
      ensures rest[k].id != rest[l].id
    {
      CameFrom(fs, i, k);
      CameFrom(fs, i, l);
    }
  }

  lemma StaleArrives(h: Hook, fs: seq<Op>, i: nat)
    requires i < |fs| && Control(h, fs) && !Valid(h, fs[i])
    ensures Control(h, Without(fs, i))
  {
    var rest := Without(fs, i);
    Remaining(h, h, fs, i);
    hide Undisturbed, Mine, Numbered, LatestOwn;
    forall k | 0 <= k < |rest| && Valid(h, rest[k])
      ensures Undisturbed(h, rest[k])
    {
      CameFrom(fs, i, k);
    }
    if h.mounted && Visible(h) && h.pending {
      var k :| 0 <= k < |fs| && Valid(h, fs[k]);
      assert Valid(h, rest[if k < i then k else k - 1]);
    }
  }

  lemma CurrentArrives(h: Hook, g: Hook, fs: seq<Op>, i: nat)
    requires i < |fs| && Control(h, fs) && Valid(h, fs[i]) && Framed(h, g) && !g.pending
    ensures Control(g, Without(fs, i))
  {
    var rest := Without(fs, i);
    Remaining(h, g, fs, i);
    hide Undisturbed, Mine, Without, LatestOwn;
    forall k | 0 <= k < |rest|
      ensures !Valid(g, rest[k])
    {
      CameFrom(fs, i, k);
    }
  }

  lemma ArrivalKeeps(s: System, i: nat, outcome: Outcome)
    requires Inv(s) && Possible(s, Arrived(i, outcome))
    ensures Inv(Step(s, Arrived(i, outcome)))
  {
    var h, fs, op := s.hook, s.flights, s.flights[i];
    if Valid(h, op) {
      assert Visible(h) ==> Mine(op.request, op.account);
      SettleFine(h, op, outcome);
      SettleFrame(h, op, outcome);
      hide Clean, AskedOnce, Settle, Control;
      CurrentArrives(h, Settle(h, op, outcome), fs, i);
    } else {
      hide Clean, AskedOnce, Control;
      StaleArrives(h, fs, i);
    }
  }

  lemma CheckFailedFine(h: Hook, c: Check, f: Failure)
    requires Fine(h) && c.account == h.Identity()
    ensures Fine(CheckFailed(h, c, f))
  {
    RememberFine(h, None, 0);
    DenyFine(Clear(h), f, c.account);
    hide Deny;
  }

  lemma EndCheckFine(h: Hook, c: Check, report: Report)
    requires Fine(h)
    ensures Fine(EndCheck(h, c, report))
  {
    if Current(h, c) {
      match report {
        case NotReported(f) => CheckFailedFine(h, c, f);
        case Reported(turn, completed, retryable, request) =>
          CheckFailedFine(h, c, Api(409, None));
          if completed.Some? {
            AcceptFine(h, completed.value, c.account, true);
            RememberFine(Accept(h, completed.value, c.account, true), None, 0);
          }
          hide CheckFailed, Accept, AskedOnce;
      }
    }
  }

  lemma ReportKeeps(s: System, i: nat, report: Report)
    requires Inv(s) && Possible(s, Answered(i, report))
    ensures Inv(Step(s, Answered(i, report)))
  {
    var h, fs, c := s.hook, s.flights, s.checks[i];
    var g := EndCheck(h, c, report);
    EndCheckFrame(h, c, report);
    EndCheckFine(h, c, report);
    if !Current(h, c) {
      assert g == h;
    } else {
      hide Clean, AskedOnce, EndCheck;
      assert forall k | 0 <= k < |fs| :: Valid(g, fs[k]) == Valid(h, fs[k]);
    }
  }

  // Every run ----------------------------------------------------------------------------------------

  lemma StepKeeps(s: System, e: Event)
    requires Inv(s) && Possible(s, e)
    ensures Inv(Step(s, e))
  {
    hide Inv, Step, Possible;
    match e {
      case Rendered(p) => RenderKeeps(s, p);
      case EffectsRun => EffectsKeep(s);
      case Unmounted => UnmountKeeps(s);
      case Sent(query, randomSession) => SendKeeps(s, query, randomSession);
      case Retried => RetryKeeps(s);
      case Arrived(i, outcome) => ArrivalKeeps(s, i, outcome);
      case ResetPressed => ResetKeeps(s);
      case Loaded(id, saved, resource, unfinished) => LoadKeeps(s, id, saved, resource, unfinished);
      case CheckPressed => CheckKeeps(s);
      case Answered(i, report) => ReportKeeps(s, i, report);
    }
  }

  lemma {:induction false} RunKeeps(p: Props, es: seq<Event>)
    requires Proper(p) && Run(p, es).Some?
    ensures Inv(Run(p, es).value)
  {
    if es == [] {
      Initially(p);
    } else {
      RunKeeps(p, es[..|es| - 1]);
      hide Inv, Step, Possible;
      StepKeeps(Run(p, es[..|es| - 1]).value, es[|es| - 1]);
    }
  }
}
