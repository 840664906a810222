/** What each call, reply and report does to the chat, told field by field, for any state of the hook. */
module ChatMeaning {
  import opened Text
  import opened Chat
  import ChatRuns

  /** The source the chat is about is not available. */
  predicate Lost(h: Hook) {
    h.resource.Some? && !h.resource.value.value.available
  }

  /** Nothing stands in the way of a call, and the user may make it. */
  predicate May(h: Hook) {
    !h.pending && !h.blocked && !Lost(h) && h.props.token && h.props.institution
  }

  /** A call went out: the latch is set, nothing is shown as an error or being recovered, and the session is that of the
      request; source, conversation and account stay. */
  predicate WentOut(h: Hook, g: Hook, op: Op, asked: bool) {
    && g.pending && g.error == None && g.recovery == None && g.active == None && g.session == Some(op.request.session)
    && g.resource == h.resource && g.conversation == h.conversation && g.owner == h.owner && g.blocked == h.blocked
    && g.epoch == h.epoch + 1 == op.id && g.version == h.version + 1
    && op.account == h.props.identity && op.asked == asked && op.before == h.messages && op.scoped == h.resource.Some?
  }

  /** A question goes out exactly if it is not empty, nothing is being recovered and the user may call. The request
      carries the question under a new turn, with the open session, or else the open conversation's, or else a new one,
      with the open conversation and source; the transcript grows by the question, as the user's. */
  lemma SendMeans(h: Hook, query: string, randomSession: string)
    ensures var (g, op) := Send(h, query, randomSession);
      && (op.Some? <==> query != "" && h.recovery == None && May(h))
      && (op.Some? ==>
            var r := op.value.request;
            && WentOut(h, g, op.value, true) && g.turns == h.turns + 1
            && r.query == query && r.turn == h.turns && r.conversation == h.conversation
            && r.session == (if h.session.Some? then h.session.value
                             else if h.conversation.Some? then h.conversation.value
                             else Tagged(randomSession, h.props.identity))
            && (r.resource.Some? <==> h.resource.Some?)
            && (h.resource.Some? ==> r.resource.value == h.resource.value.value.source)
            && g.messages == h.messages + [Message(true, query, Some(h.turns), None, h.props.identity)])
      && (op == None ==>
            && g.messages == h.messages && g.pending == h.pending && g.recovery == h.recovery && g.session == h.session
            && (g.error != h.error ==> g.error == Some(Tagged(SignIn, h.props.identity))))
  {
  }

  /** A retry goes out exactly if it is offered and the user may call: the remembered request as it is, and nothing is
      added to the transcript. */
  lemma RetryMeans(h: Hook)
    ensures var (g, op) := Retry(h);
      && (op.Some? <==> May(h) && h.recovery.Some? && h.recovery.value.retryable && h.recovery.value.request.Some?)
      && (op.Some? ==> WentOut(h, g, op.value, false) && op.value.request == h.recovery.value.request.value)
      && g.messages == h.messages && g.turns == h.turns
  {
  }

  /** The chat is closed by a denial: nothing is shown but the error and the bare source. */
  predicate Denied(h: Hook, g: Hook, f: Failure, account: Account) {
    && g.messages == [] && g.blocked && g.error == Some(Tagged(About(f), account))
    && (g.resource.Some? <==> h.resource.Some?)
    && (h.resource.Some? ==>
          && g.resource.value.account == h.resource.value.account
          && g.resource.value.value == Resource(h.resource.value.value.source, None, false))
    && g.session == h.session && g.conversation == h.conversation
  }

  /** An answer was taken over: it stands behind the transcript as the assistant's, unless it is already there. */
  predicate TakenOver(h: Hook, g: Hook, r: Response, account: Account, there: bool) {
    && g.messages == h.messages + (if there then [] else [Message(false, r.text, None, r.messageId, account)])
    && g.session == Some(Tagged(r.session, account)) && g.conversation == Some(Tagged(r.conversation, account))
    && (g.resource.Some? <==> r.resource.Some?)
    && (r.resource.Some? ==> g.resource == Some(Tagged(r.resource.value, account)))
    && !g.blocked && g.error == None
  }

  /** The operation is still the one the chat waits for. */
  predicate Awaited(h: Hook, op: Op) {
    h.mounted && h.props.identity == op.account && h.epoch == op.id
  }

  /** The answer is about the source that was asked about, if one was. */
  predicate SameSource(request: Request, r: Response) {
    request.resource == None || (r.resource.Some? && request.resource.value == r.resource.value.source)
  }

  /** An awaited answer is taken over, one about another source closes the chat, and the latch is released. */
  lemma ReplyMeans(h: Hook, op: Op, r: Response)
    ensures var g := Settle(h, op, Replied(r));
      if !Awaited(h, op) then g == h
      else
        && !g.pending && g.recovery == h.recovery && g.active == h.active
        && if SameSource(op.request, r) then TakenOver(h, g, r, op.account, false)
           else Denied(h, g, Api(409, None), op.account)
  {
    assert h.messages + [] == h.messages;
  }

  /** What kind of failure it is. */
  datatype Kind = Unsure | TurnBusy | Forbidden | Other

  function KindOf(f: Failure, scoped: bool): Kind {
    match f
    case Unreachable => Unsure
    case Api(status, code) =>
      if status == 0 || status >= 500 || code in {Some("CHAT_TURN_PENDING"), Some("CHAT_TURN_REPLACED")} then Unsure
      else if code == Some("CHAT_TURN_BUSY") then TurnBusy
      else if scoped || status == 403 || status == 404 || status == 409 then Forbidden
      else Other
  }

  /** A failure that leaves the outcome open selects the request for recovery; a busy turn blocks the chat and takes the
      question back; a denial closes the chat; anything else is shown. The latch is released. */
  lemma FailureMeans(h: Hook, op: Op, f: Failure)
    ensures var g := Settle(h, op, Failed(f));
      if !Awaited(h, op) then g == h
      else
        && !g.pending && g.session == h.session && g.conversation == h.conversation
        && match KindOf(f, op.scoped)
           case Unsure =>
             && g.messages == h.messages && g.error == h.error && g.blocked == h.blocked && g.resource == h.resource
             && g.recovery == Some(Recovery(op.request.turn, Some(op.request), false, false))
             && g.active == Some(Active(h.serials, op.request.turn, Some(op.request))) && g.version == h.version + 1
           case TurnBusy =>
             && g.blocked && g.error == Some(Tagged(Busy, op.account)) && g.recovery == h.recovery
             && g.resource == h.resource
             && g.messages == (if op.asked && h.messages != [] then h.messages[..|h.messages| - 1] else h.messages)
           case Forbidden => Denied(h, g, f, op.account) && g.recovery == h.recovery
           case Other =>
             && g.messages == h.messages && g.error == Some(Tagged(About(f), op.account)) && g.blocked == h.blocked
             && g.recovery == h.recovery && g.resource == h.resource
  {
  }

  // Checks ---------------------------------------------------------------------------------------------

  /** A check begins exactly with a selected turn and a token; it remembers both and the account, and only shows that it
      is under way. */
  lemma CheckMeans(h: Hook)
    ensures var (g, c) := StartCheck(h);
      && (c.Some? <==> h.active.Some? && h.props.token)
      && (c.Some? ==> c.value == Check(h.version, h.props.identity, h.active.value))
      && (c == None ==> g == h)
      && g.messages == h.messages && g.active == h.active && g.version == h.version
      && (g.recovery.Some? <==> h.recovery.Some?)
      && (c.Some? && h.recovery.Some? ==>
            g.recovery == Some(h.recovery.value.(checking := true)))
  {
  }

  /** The check is still about the account and the turn the chat recovers. */
  predicate Watched(h: Hook, c: Check) {
    c.version == h.version && c.account == h.props.identity && h.active == Some(c.selected)
  }

  /** A check that failed: a denial closes the chat and ends the recovery; otherwise the turn may be retried exactly if
      the server does not know it and its question is known here. */
  predicate CheckBroke(h: Hook, g: Hook, c: Check, f: Failure) {
    if f.Api? && (f.status == 403 || f.status == 409) then
      Denied(h, g, f, c.account) && g.recovery == None && g.active == None && g.version == h.version + 1
    else
      && g.messages == h.messages && g.error == h.error && g.blocked == h.blocked && g.active == h.active
      && (g.recovery.Some? <==> h.recovery.Some?)
      && (h.recovery.Some? ==>
            g.recovery.value.turn == h.recovery.value.turn && g.recovery.value.request == h.recovery.value.request
            && !g.recovery.value.checking
            && (g.recovery.value.retryable <==> f.Api? && f.status == 404 && c.selected.request.Some?))
  }

  /** The same request with the identifiers of this account. */
  predicate Owned(r: Request, own: Request, account: Account) {
    && own.query == r.query && own.turn == r.turn && own.resource == r.resource
    && own.session == Tagged(r.session.value, account)
    && (own.conversation.Some? <==> r.conversation.Some?)
    && (r.conversation.Some? ==> own.conversation == Some(Tagged(r.conversation.value.value, account)))
  }

  /** What a report about the wanted turn does: a finished answer is taken over, unless a message with its ID is shown,
      and ends the recovery; an unfinished turn is remembered as the server knows it. */
  predicate Informed(h: Hook, g: Hook, c: Check, report: Report)
    requires report.Reported?
  {
    match report.completed
    case Some(r) =>
      if !SameSource(report.request, r) then CheckBroke(h, g, c, Api(409, None))
      else
        && TakenOver(h, g, r, c.account, r.messageId.Some? && exists i | 0 <= i < |h.messages| ::
                     h.messages[i].serverId == r.messageId)
        && g.recovery == None && g.active == None && g.version == h.version + 1
    case None =>
      && g.messages == h.messages && g.error == h.error && g.blocked == h.blocked && g.version == h.version
      && g.recovery.Some? && g.recovery.value.request.Some?
      && Owned(report.request, g.recovery.value.request.value, c.account)
      && g.recovery.value.turn == c.selected.turn && g.recovery.value.retryable == report.retryable
      && !g.recovery.value.checking
      && g.active == Some(Active(h.serials, c.selected.turn, g.recovery.value.request)) && g.serials == h.serials + 1
  }

  /** A report is looked at only by a check that is still watched; one about another turn counts as a conflict. */
  lemma ReportMeans(h: Hook, c: Check, report: Report)
    ensures var g := EndCheck(h, c, report);
      && g.pending == h.pending
      && if !Watched(h, c) then g == h
         else match report
           case NotReported(f) => CheckBroke(h, g, c, f)
           case Reported(turn, completed, retryable, request) =>
             if turn != c.selected.turn || request.turn != c.selected.turn then CheckBroke(h, g, c, Api(409, None))
             else Informed(h, g, c, report)
  {
    CheckBreaks(h, c, Api(409, None));
    if report.NotReported? {
      CheckBreaks(h, c, report.failure);
    } else if Watched(h, c) && report.turn == c.selected.turn && report.request.turn == c.selected.turn {
      ReportInforms(h, c, report);
    }
    hide CheckFailed, CheckBroke, Informed, Accept, Received, Confirms;
  }

  lemma ReportInforms(h: Hook, c: Check, report: Report)
    requires Watched(h, c) && report.Reported?
    requires report.turn == c.selected.turn && report.request.turn == c.selected.turn
    ensures Informed(h, EndCheck(h, c, report), c, report) && EndCheck(h, c, report).pending == h.pending
  {
    CheckBreaks(h, c, Api(409, None));
    if report.completed.Some? && report.completed.value.messageId.Some? {
      SameKnown(h.messages, report.completed.value.messageId.value);
    }
    assert h.messages + [] == h.messages;
    hide CheckFailed, CheckBroke, Known;
  }

  lemma CheckBreaks(h: Hook, c: Check, f: Failure)
    ensures CheckBroke(h, CheckFailed(h, c, f), c, f) && CheckFailed(h, c, f).pending == h.pending
  {
  }

  lemma SameKnown(messages: seq<Message>, id: string)
    ensures Known(messages, id) <==> exists i | 0 <= i < |messages| :: messages[i].serverId == Some(id)
  {
  }

  // Starting over --------------------------------------------------------------------------------------

  /** Nothing under way can be awaited any more, and nothing is being recovered. */
  predicate Afresh(h: Hook, g: Hook) {
    && g.epoch == h.epoch + 1 && !g.pending && g.owner == h.props.identity && g.error == None && g.session == None
    && g.props == h.props && g.turns >= h.turns
  }

  /** A reset leaves an empty chat about the opened source, or about the lost one if that is the opened one. */
  lemma ResetMeans(h: Hook)
    ensures var g := Reset(h);
      && Afresh(h, g) && g.messages == [] && g.conversation == None && !g.blocked
      && g.recovery == None && g.active == None && g.version == h.version + 1
      && (if Lost(h) && h.props.initial.Some? && h.props.initial.value.source == h.resource.value.value.source
          then g.resource == h.resource
          else if h.props.initial.Some? then g.resource == Some(Tagged(h.props.initial.value, h.props.identity))
          else g.resource == None)
  {
  }

  /** Loading shows the saved messages in their order, each with its author, text and ID, and takes over conversation
      and source; with a source that is not available the chat is blocked, and otherwise an unfinished turn is selected
      for recovery and checked. */
  lemma LoadMeans(h: Hook, id: string, saved: seq<Saved>, resource: Option<Resource>, unfinished: Option<nat>)
    ensures var (g, c) := Load(h, id, saved, resource, unfinished);
      var me, open := h.props.identity, resource == None || resource.value.available;
      && Afresh(h, g) && g.conversation == Some(Tagged(id, me)) && (g.blocked <==> !open)
      && |g.messages| == |saved|
      && (forall i | 0 <= i < |saved| ::
            g.messages[i] == Message(saved[i].fromUser, saved[i].text, None, Some(saved[i].id), me))
      && (g.resource.Some? <==> resource.Some?) && (resource.Some? ==> g.resource == Some(Tagged(resource.value, me)))
      && (if open && unfinished.Some? then
            && g.active == Some(Active(h.serials, unfinished.value, None))
            && g.recovery == Some(Recovery(unfinished.value, None, false, h.props.token))
            && (c.Some? <==> h.props.token)
            && (c.Some? ==> c.value == Check(g.version, me, g.active.value))
          else g.recovery == None && g.active == None && c == None)
  {
  }

  /** After a change of account the chat is reset, and every check of before is stale; otherwise nothing happens. */
  lemma EffectsMean(h: Hook)
    ensures var g := Effects(h);
      && g.seen == h.props.identity
      && (h.seen == h.props.identity ==> g == h)
      && (h.seen != h.props.identity ==> g.version > h.version && g.owner == h.props.identity)
      && (h.seen != h.props.identity && h.owner != h.props.identity ==>
            Afresh(h, g) && g.messages == [] && g.conversation == None && g.recovery == None && !g.blocked)
      && (h.seen != h.props.identity && h.owner == h.props.identity ==>
            g.messages == h.messages && g.recovery == h.recovery && g.epoch == h.epoch && g.pending == h.pending)
  {
  }

  /** Rendering changes only what the page passes in, unmounting only ends what is under way. */
  lemma RenderMeans(h: Hook, p: Props)
    ensures var g := Render(h, p); g.props == p && g.(props := h.props) == h
    ensures var g := Unmount(h);
      !g.mounted && g.epoch > h.epoch && g.version > h.version && g.messages == h.messages && g.pending == h.pending
  {
  }

  /** The page is shown everything if the chat belongs to the account it is rendered for, and otherwise an empty chat
      about the opened source. */
  lemma ShownMeans(h: Hook)
    ensures var v := ChatRuns.Shown(h);
      if h.owner == h.props.identity then
        && v.messages == h.messages && v.error == h.error && v.session == h.session && v.conversation == h.conversation
        && v.resource == h.resource && v.blocked == h.blocked && v.recovery == h.recovery
      else
        && v.messages == [] && v.error == None && v.session == None && v.conversation == None && !v.blocked
        && v.recovery == None && (v.resource.Some? <==> h.props.initial.Some?)
        && (h.props.initial.Some? ==> v.resource == Some(Tagged(h.props.initial.value, h.props.identity)))
  {
  }
}
