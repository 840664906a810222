/**
 The shared chat state as a machine: what each user action, reply, render and effect makes of it. A reply
 or a check that is still under way belongs to the system around the hook and may come back at any time.
 */
module Chat {
  import opened Text

  /** What the identity string stands for: the session and user, and the source the page was opened with. */
  datatype Account = Account(user: string, source: Option<string>)

  /** A value and the account it was obtained for. */
  datatype Tagged<+T> = Tagged(value: T, account: Account)

  datatype Resource = Resource(source: string, title: Option<string>, available: bool)

  /** Turn numbers stand for the random identifiers of questions asked here. */
  datatype Message =
    Message(fromUser: bool, text: string, turn: Option<nat>, serverId: Option<string>, account: Account)

  datatype Request = Request(query: string, session: Tagged<string>, conversation: Option<Tagged<string>>, turn: nat,
                             resource: Option<string>)

  datatype Response = Response(text: string, session: string, conversation: string, resource: Option<Resource>,
                               messageId: Option<string>)

  datatype Failure = Unreachable | Api(status: int, code: Option<string>)

  datatype Notice = SignIn | Busy | About(failure: Failure)

  datatype Recovery = Recovery(turn: nat, request: Option<Request>, retryable: bool, checking: bool)

  /** The turn being recovered; the serial number stands for the identity of the object. */
  datatype Active = Active(serial: nat, turn: nat, request: Option<Request>)

  datatype Props = Props(identity: Account, initial: Option<Resource>, token: bool, institution: bool)

  predicate Proper(p: Props) {
    p.identity.source == if p.initial.Some? then Some(p.initial.value.source) else None
  }

  datatype Hook = Hook(
    props: Props,
    seen: Account,
    mounted: bool,
    epoch: nat,
    pending: bool,
    owner: Account,
    messages: seq<Message>,
    error: Option<Tagged<Notice>>,
    session: Option<Tagged<string>>,
    conversation: Option<Tagged<string>>,
    resource: Option<Tagged<Resource>>,
    blocked: bool,
    recovery: Option<Recovery>,
    active: Option<Active>,
    version: nat,
    serials: nat,
    turns: nat)
  {
    function Identity(): Account {
      props.identity
    }
  }

  /** A request that was sent: its epoch, its account, and what the callback remembers from the call. */
  datatype Op = Op(id: nat, account: Account, request: Request, asked: bool, scoped: bool, before: seq<Message>)

  /** A status check under way. */
  datatype Check = Check(version: nat, account: Account, selected: Active)

  datatype Outcome = Replied(response: Response) | Failed(failure: Failure)

  datatype Report =
    | Reported(turn: nat, completed: Option<Response>, retryable: bool, request: Request)
    | NotReported(failure: Failure)

  function Initial(p: Props): Option<Tagged<Resource>> {
    if p.initial.Some? then Some(Tagged(p.initial.value, p.identity)) else None
  }

  function Mounted(p: Props): Hook {
    Hook(p, p.identity, true, 0, false, p.identity, [], None, None, None, Initial(p), false, None, None, 0, 0, 0)
  }

  // Recovery -----------------------------------------------------------------------------------------

  function Clear(h: Hook): Hook {
    h.(version := h.version + 1, active := None, recovery := None)
  }

  function Remember(h: Hook, request: Option<Request>, turn: nat): Hook {
    h.(version := h.version + 1, active := Some(Active(h.serials, turn, request)), serials := h.serials + 1,
       recovery := Some(Recovery(turn, request, false, false)))
  }

  function StartCheck(h: Hook): (Hook, Option<Check>) {
    if h.active == None || !h.props.token then (h, None)
    else
      (h.(recovery := if h.recovery.Some? then Some(h.recovery.value.(checking := true)) else None),
       Some(Check(h.version, h.Identity(), h.active.value)))
  }

  // Replies ------------------------------------------------------------------------------------------

  /** A reply about another source than the one asked about is not accepted. */
  predicate Confirms(request: Request, r: Response) {
    request.resource.Some? ==> r.resource.Some? && r.resource.value.source == request.resource.value
  }

  function Answer(r: Response, account: Account): Message {
    Message(false, r.text, None, r.messageId, account)
  }

  predicate Known(messages: seq<Message>, id: string) {
    exists i | 0 <= i < |messages| :: messages[i].serverId == Some(id)
  }

  function Accept(h: Hook, r: Response, account: Account, recovered: bool): Hook {
    h.(session := Some(Tagged(r.session, account)), conversation := Some(Tagged(r.conversation, account)),
       resource := if r.resource.Some? then Some(Tagged(r.resource.value, account)) else None,
       messages := if recovered && r.messageId.Some? && Known(h.messages, r.messageId.value) then h.messages
                   else h.messages + [Answer(r, account)],
       blocked := false, error := None)
  }

  function Withdrawn(r: Option<Tagged<Resource>>): Option<Tagged<Resource>> {
    if r.Some? then Some(r.value.(value := r.value.value.(title := None, available := false))) else None
  }

  function Deny(h: Hook, f: Failure, account: Account): Hook {
    h.(error := Some(Tagged(About(f), account)), blocked := true, messages := [], resource := Withdrawn(h.resource))
  }

  predicate Valid(h: Hook, op: Op) {
    h.mounted && h.Identity() == op.account && h.epoch == op.id
  }

  predicate Uncertain(f: Failure) {
    f.Unreachable? || f.status == 0 || f.status >= 500
    || f.code == Some("CHAT_TURN_PENDING") || f.code == Some("CHAT_TURN_REPLACED")
  }

  function Caught(h: Hook, op: Op, f: Failure): Hook {
    if Uncertain(f) then Remember(h, Some(op.request), op.request.turn)
    else if f.code == Some("CHAT_TURN_BUSY") then
      h.(blocked := true, error := Some(Tagged(Busy, op.account)),
         messages := if op.asked && h.messages != [] then h.messages[..|h.messages| - 1] else h.messages)
    else if op.scoped || f.status in {403, 404, 409} then Deny(h, f, op.account)
    else h.(error := Some(Tagged(About(f), op.account)))
  }

  /** The reply to an operation; nothing happens unless it is still the current one. */
  function Settle(h: Hook, op: Op, outcome: Outcome): Hook {
    if !Valid(h, op) then h
    else
      var done :=
        match outcome
        case Replied(r) =>
          if Confirms(op.request, r) then Accept(h, r, op.account, false) else Caught(h, op, Api(409, None))
        case Failed(f) => Caught(h, op, f);
      done.(pending := false)
  }

  /** A request the server returned to an account carries that account's identifiers. */
  function Received(r: Request, account: Account): Request {
    r.(session := Tagged(r.session.value, account),
       conversation := if r.conversation.Some? then Some(Tagged(r.conversation.value.value, account)) else None)
  }

  /** A report about the turn that was asked for. */
  predicate Matches(c: Check, report: Report) {
    report.Reported? && report.turn == c.selected.turn && report.request.turn == c.selected.turn
  }

  predicate Current(h: Hook, c: Check) {
    c.version == h.version && h.Identity() == c.account && h.active == Some(c.selected)
  }

  function CheckFailed(h: Hook, c: Check, f: Failure): Hook {
    if f.Api? && f.status in {403, 409} then Deny(Clear(h), f, c.account)
    else
      h.(recovery := if h.recovery.Some?
                     then Some(h.recovery.value.(checking := false,
                       retryable := f.Api? && f.status == 404 && c.selected.request.Some?))
                     else None)
  }

  function EndCheck(h: Hook, c: Check, report: Report): Hook {
    if !Current(h, c) then h
    else match report
      case NotReported(f) => CheckFailed(h, c, f)
      case Reported(_, completed, retryable, request) =>
        if !Matches(c, report) then CheckFailed(h, c, Api(409, None))
        else if completed.Some? then
          if Confirms(request, completed.value) then Clear(Accept(h, completed.value, c.account, true))
          else CheckFailed(h, c, Api(409, None))
        else
          var own := Received(request, c.account);
          h.(active := Some(Active(h.serials, c.selected.turn, Some(own))), serials := h.serials + 1,
             recovery := Some(Recovery(c.selected.turn, Some(own), retryable, false)))
  }

  // Calls --------------------------------------------------------------------------------------------

  predicate Unavailable(r: Option<Tagged<Resource>>) {
    r.Some? && !r.value.value.available
  }

  function Question(r: Request, account: Account): Message {
    Message(true, r.query, Some(r.turn), None, account)
  }

  function Perform(h: Hook, request: Request, asked: bool): (Hook, Option<Op>) {
    if h.pending || h.blocked || Unavailable(h.resource) then (h, None)
    else if !h.props.token || !h.props.institution then (h.(error := Some(Tagged(SignIn, h.Identity()))), None)
    else
      var started := Clear(h.(pending := true, epoch := h.epoch + 1, error := None)).(session := Some(request.session));
      (started.(messages := if asked then h.messages + [Question(request, h.Identity())] else h.messages),
       Some(Op(h.epoch + 1, h.Identity(), request, asked, h.resource.Some?, h.messages)))
  }

  /** The request a question becomes; randomSession is used when nothing is open yet. */
  function RequestFor(h: Hook, query: string, randomSession: string): Request {
    var session := if h.session.Some? then h.session.value
                   else if h.conversation.Some? then h.conversation.value
                   else Tagged(randomSession, h.Identity());
    Request(query, session, h.conversation, h.turns,
            if h.resource.Some? then Some(h.resource.value.value.source) else None)
  }

  function Send(h: Hook, query: string, randomSession: string): (Hook, Option<Op>) {
    if query == "" || h.recovery.Some? || h.pending || h.blocked then (h, None)
    else Perform(h.(turns := h.turns + 1), RequestFor(h, query, randomSession), true)
  }

  function Retry(h: Hook): (Hook, Option<Op>) {
    if h.recovery.Some? && h.recovery.value.retryable && h.recovery.value.request.Some?
    then Perform(h, h.recovery.value.request.value, false) else (h, None)
  }

  function Reset(h: Hook): Hook {
    var kept := Unavailable(h.resource) && h.props.initial.Some?
      && h.resource.value.value.source == h.props.initial.value.source;
    Clear(h.(epoch := h.epoch + 1, pending := false, owner := h.Identity(), messages := [], session := None,
             conversation := None, resource := if kept then h.resource else Initial(h.props), error := None,
             blocked := false))
  }

  datatype Saved = Saved(fromUser: bool, text: string, id: string)

  function Restored(saved: seq<Saved>, account: Account): seq<Message> {
    seq(|saved|, i requires 0 <= i < |saved| =>
      Message(saved[i].fromUser, saved[i].text, None, Some(saved[i].id), account))
  }

  /** The next turn number, given that this one is taken: new identifiers differ from all that are known. */
  function Beyond(turns: nat, taken: Option<nat>): nat {
    if taken.Some? && taken.value >= turns then taken.value + 1 else turns
  }

  function Load(h: Hook, id: string, saved: seq<Saved>, resource: Option<Resource>, unfinished: Option<nat>):
    (Hook, Option<Check>)
  {
    var me := h.Identity();
    var tagged := if resource.Some? then Some(Tagged(resource.value, me)) else None;
    var loaded := Clear(h.(epoch := h.epoch + 1, pending := false, turns := Beyond(h.turns, unfinished))).(
      owner := me, messages := Restored(saved, me), conversation := Some(Tagged(id, me)), session := None,
      resource := tagged, blocked := Unavailable(tagged), error := None);
    if unfinished.Some? && !Unavailable(tagged) then StartCheck(Remember(loaded, None, unfinished.value))
    else (loaded, None)
  }

  // React --------------------------------------------------------------------------------------------

  function Render(h: Hook, p: Props): Hook {
    h.(props := p)
  }

  /** After a change of identity: the recovery effect is cleaned up, then the chat is reset. */
  function Effects(h: Hook): Hook {
    if h.seen == h.Identity() then h
    else
      var cleaned := h.(version := h.version + 1, seen := h.Identity());
      if h.owner != h.Identity() then Reset(cleaned) else cleaned
  }

  function Unmount(h: Hook): Hook {
    h.(mounted := false, epoch := h.epoch + 1, version := h.version + 1)
  }

  // The system: the hook with everything that may still come back -------------------------------------

  /** sent lists every request of an operation, told every request a check was given for the turn it asked about. */
  datatype System = System(hook: Hook, flights: seq<Op>, checks: seq<Check>, sent: seq<Request>, told: seq<Request>)

  datatype Event =
    | Rendered(props: Props)
    | EffectsRun
    | Unmounted
    | Sent(query: string, randomSession: string)
    | Retried
    | Arrived(flight: nat, outcome: Outcome)
    | ResetPressed
    | Loaded(id: string, saved: seq<Saved>, resource: Option<Resource>, unfinished: Option<nat>)
    | CheckPressed
    | Answered(check: nat, report: Report)

  function Without<T>(s: seq<T>, i: nat): seq<T>
    requires i < |s|
  {
    s[..i] + s[i + 1..]
  }

  function With<T>(s: seq<T>, x: Option<T>): seq<T> {
    if x.Some? then s + [x.value] else s
  }

  function Launch(s: System, h: Hook, op: Option<Op>): System {
    s.(hook := h, flights := With(s.flights, op), sent := s.sent + if op.Some? then [op.value.request] else [])
  }

  /** Effects run before the next change of identity; after unmounting only replies still arrive. */
  predicate Possible(s: System, e: Event) {
    match e
    case Arrived(i, _) => i < |s.flights|
    case Answered(i, _) => i < |s.checks|
    case Rendered(p) =>
      s.hook.mounted && Proper(p) && (p.identity == s.hook.Identity() || s.hook.seen == s.hook.Identity())
    case _ => s.hook.mounted
  }

  function Step(s: System, e: Event): System
    requires Possible(s, e)
  {
    match e
    case Rendered(p) => s.(hook := Render(s.hook, p))
    case EffectsRun => s.(hook := Effects(s.hook))
    case Unmounted => s.(hook := Unmount(s.hook))
    case Sent(query, randomSession) =>
      var (h, op) := Send(s.hook, query, randomSession);
      Launch(s, h, op)
    case Retried =>
      var (h, op) := Retry(s.hook);
      Launch(s, h, op)
    case Arrived(i, outcome) =>
      s.(hook := Settle(s.hook, s.flights[i], outcome), flights := Without(s.flights, i))
    case ResetPressed => s.(hook := Reset(s.hook))
    case Loaded(id, saved, resource, unfinished) =>
      var (h, c) := Load(s.hook, id, saved, resource, unfinished);
      s.(hook := h, checks := With(s.checks, c))
    case CheckPressed =>
      var (h, c) := StartCheck(s.hook);
      s.(hook := h, checks := With(s.checks, c))
    case Answered(i, report) =>
      s.(hook := EndCheck(s.hook, s.checks[i], report), checks := Without(s.checks, i),
         told := s.told + if Matches(s.checks[i], report) then [Received(report.request, s.checks[i].account)] else [])
  }

  function Start(p: Props): System {
    System(Mounted(p), [], [], [], [])
  }

  /** The system after some events, if each was possible when it happened. */
  function Run(p: Props, es: seq<Event>): Option<System> {
    if es == [] then Some(Start(p))
    else
      var s := Run(p, es[..|es| - 1]);
      if s.Some? && Possible(s.value, es[|es| - 1]) then Some(Step(s.value, es[|es| - 1])) else None
  }
}
