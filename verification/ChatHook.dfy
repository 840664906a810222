/**
 The hook itself: refs and state setters, step by step between the awaits. Ghost state remembers the calls that
 wait for an answer, so that every handler keeps what every run keeps, and promises what its step promises.
 */
module ChatHook {
  import opened Text
  import opened Chat
  import opened ChatLaws
  import opened ChatRuns
  import opened ChatSteps
  import opened ChatMeaning

  /** The values of the hook's useState calls as the setters called so far leave them. */
  datatype Panel = Panel(
    owner: Account,
    messages: seq<Message>,
    error: Option<Tagged<Notice>>,
    session: Option<Tagged<string>>,
    conversation: Option<Tagged<string>>,
    resource: Option<Tagged<Resource>>,
    blocked: bool)

  /** The state and the refs of the recovery hook. */
  datatype TurnRecovery = TurnRecovery(state: Option<Recovery>, active: Option<Active>, version: nat, serials: nat)

  /** What the hook has under way and has sent so far. */
  datatype Traffic = Traffic(flights: seq<Op>, checks: seq<Check>, sent: seq<Request>, told: seq<Request>)

  class ChatHook {
    var props: Props
    var effectsOf: Account
    var mounted: bool
    var epoch: nat
    var pending: bool
    var panel: Panel
    var turn: TurnRecovery
    var turns: nat
    ghost var traffic: Traffic

    /** A page just opened: the account's own, nothing shown but the source, nothing under way. */
    constructor (p: Props)
      requires Proper(p)
      ensures Sound() && System() == Start(p)
      ensures Visible(View()) && Shown(View()) == State([], None, None, None, Initial(p), false, None)
    {
      props, effectsOf, mounted, epoch, pending := p, p.identity, true, 0, false;
      panel := Panel(p.identity, [], None, None, None, Initial(p), false);
      turn := TurnRecovery(None, None, 0, 0);
      turns := 0;
      traffic := Traffic([], [], [], []);
      new;
      StartKept(p);
    }

    function View(): Hook
      reads this
    {
      Hook(props, effectsOf, mounted, epoch, pending, panel.owner, panel.messages, panel.error, panel.session,
           panel.conversation, panel.resource, panel.blocked, turn.state, turn.active, turn.version, turn.serials,
           turns)
    }

    ghost function System(): System
      reads this
    {
      Chat.System(View(), traffic.flights, traffic.checks, traffic.sent, traffic.told)
    }

    ghost predicate Sound()
      reads this
    {
      Kept(System())
    }

    /** What the hook returns to the page. */
    method Return() returns (state: State)
      requires Sound()
      ensures state == Shown(View()) && ShowsOnly(state, props.identity)
    {
      KeptShows(System());
      if panel.owner == props.identity {
        state := State(panel.messages, panel.error, panel.session, panel.conversation, panel.resource, panel.blocked,
                       turn.state);
      } else {
        state := State([], None, None, None, Initial(props), false, None);
      }
    }

    // useTurnRecovery --------------------------------------------------------------------------------

    /** Nothing is being recovered, and no check that began before can act. */
    method ClearRecovery()
      modifies `turn
      ensures View() == Clear(old(View()))
      ensures forall check: Check | check.version <= old(turn.version) :: !Current(View(), check)
    {
      turn := turn.(version := turn.version + 1, active := None, state := None);
    }

    /** The turn is selected: no check that began before can act, and no question is taken until it is recovered. */
    method RememberTurn(request: Option<Request>, id: nat)
      modifies `turn
      ensures View() == Remember(old(View()), request, id)
      ensures forall check: Check | check.version <= old(turn.version) :: !Current(View(), check)
      ensures forall query, randomSession :: Send(View(), query, randomSession).1 == None
    {
      turn := turn.(version := turn.version + 1, active := Some(Active(turn.serials, id, request)),
                    serials := turn.serials + 1, state := Some(Recovery(id, request, false, false)));
    }

    /** A check begins whenever a turn is selected and a token is there; it is current and disturbs no other. */
    method BeginCheck() returns (check: Option<Check>)
      modifies `turn
      ensures (View(), check) == StartCheck(old(View()))
      ensures check.Some? <==> turn.active.Some? && props.token
      ensures check.Some? ==> Current(View(), check.value) && Some(check.value.selected) == turn.active
      ensures forall other :: Current(View(), other) <==> Current(old(View()), other)
    {
      check := None;
      if turn.active.Some? && props.token {
        check := Some(Check(turn.version, props.identity, turn.active.value));
        if turn.state.Some? {
          turn := turn.(state := Some(turn.state.value.(checking := true)));
        }
      }
    }

    /** The catch block of a check: a denial closes the chat and drops the turn, otherwise the transcript stays, and a
        retry of the turn is offered only where the server does not know it and its question is known here. */
    method CatchCheck(check: Check, failure: Failure)
      modifies this
      ensures View() == CheckFailed(old(View()), check, failure) && traffic == old(traffic)
      ensures if failure.Api? && failure.status in {403, 409} then Closed() && turn.active == None && turn.state == None
              else panel == old(panel) && turn.active == old(turn.active)
                   && (Offered() ==> failure == Api(404, failure.code) && check.selected.request.Some?)
    {
      if failure.Api? && failure.status in {403, 409} {
        ClearRecovery();
        DenyAccess(failure, check.account);
        return;
      }
      var retryable := failure.Api? && failure.status == 404 && check.selected.request.Some?;
      if turn.state.Some? {
        turn := turn.(state := Some(turn.state.value.(checking := false, retryable := retryable)));
      }
    }

    /** A retry is offered to the user. */
    predicate Offered()
      reads this
    {
      turn.state.Some? && turn.state.value.retryable && turn.state.value.request.Some?
    }

    /** A check behind its await; the ghost index is its place among the checks under way. */
    method FinishCheck(check: Check, report: Report, ghost i: nat)
      requires Sound() && i < |traffic.checks| && traffic.checks[i] == check
      modifies this
      ensures Sound() && System() == Step(old(System()), Answered(i, report))
      ensures ReportedBy(old(System()), System(), check, report)
    {
      ReportPromise(System(), i, report);
      hide Kept, ReportedBy, EndCheck;
      ResumeCheck(check, report);
      traffic := traffic.(
        checks := Without(traffic.checks, i),
        told := traffic.told + if Matches(check, report) then [Received(report.request, check.account)] else []);
    }

    predicate IsCurrent(check: Check)
      reads this
      ensures IsCurrent(check) == Current(View(), check)
    {
      check.version == turn.version && props.identity == check.account && turn.active == Some(check.selected)
    }

    method ResumeCheck(check: Check, report: Report)
      modifies this
      ensures View() == EndCheck(old(View()), check, report) && traffic == old(traffic)
    {
      hide CheckFailed, Accept, Clear, Confirms, Current;
      if !IsCurrent(check) {
        return;
      }
      match report {
        case NotReported(failure) =>
          CatchCheck(check, failure);
        case Reported(id, completed, retryable, request) =>
          if id != check.selected.turn || request.turn != check.selected.turn {
            CatchCheck(check, Api(409, None));
          } else if completed.Some? {
            var accepted := TryAccept(completed.value, request, check.account, true);
            if accepted {
              ClearRecovery();
            } else {
              CatchCheck(check, Api(409, None));
            }
          } else {
            var received := Received(request, check.account);
            turn := turn.(active := Some(Active(turn.serials, check.selected.turn, Some(received))),
                          serials := turn.serials + 1,
                          state := Some(Recovery(check.selected.turn, Some(received), retryable, false)));
          }
      }
    }

    // useChat ----------------------------------------------------------------------------------------

    /** False stands for the thrown scope error, before which nothing is set. */
    method TryAccept(response: Response, request: Request, account: Account, recovered: bool) returns (ok: bool)
      modifies `panel
      ensures ok == Confirms(request, response)
      ensures View() == if ok then Accept(old(View()), response, account, recovered) else old(View())
    {
      var r := response.resource;
      if request.resource.Some? && (r == None || r.value.source != request.resource.value) {
        return false;
      }
      panel := panel.(session := Some(Tagged(response.session, account)),
                      conversation := Some(Tagged(response.conversation, account)),
                      resource := if r.Some? then Some(Tagged(r.value, account)) else None);
      var known := false;
      if recovered && response.messageId.Some? {
        known := HasMessage(panel.messages, response.messageId.value);
      }
      if !known {
        panel := panel.(messages := panel.messages + [Answer(response, account)]);
      }
      panel := panel.(blocked := false, error := None);
      ok := true;
    }

    static method HasMessage(messages: seq<Message>, id: string) returns (found: bool)
      ensures found == Known(messages, id)
    {
      found := false;
      for i := 0 to |messages|
        invariant found == exists k | 0 <= k < i :: messages[k].serverId == Some(id)
      {
        if messages[i].serverId == Some(id) {
          found := true;
        }
      }
    }

    /** No call goes out any more until the chat is reset or another conversation is loaded. */
    ghost predicate Closed()
      reads this
    {
      && panel.messages == [] && panel.blocked && (panel.resource.Some? ==> panel.resource.value.value.title == None)
      && forall request, asked :: Perform(View(), request, asked) == (View(), None)
    }

    /** A denial leaves neither transcript nor title, and closes the chat. */
    method DenyAccess(failure: Failure, account: Account)
      modifies `panel
      ensures View() == Deny(old(View()), failure, account) && Closed()
    {
      panel := panel.(error := Some(Tagged(About(failure), account)), blocked := true, messages := []);
      if panel.resource.Some? {
        var previous := panel.resource.value;
        panel := panel.(resource := Some(previous.(value := Resource(previous.value.source, None, false))));
      }
    }

    /** perform up to its await: the returned operation stands for the rest of the call. It is current and takes the
        place of every earlier one, and until it is answered no other can begin. */
    method Begin(request: Request, asked: bool) returns (op: Option<Op>)
      modifies this
      ensures (View(), op) == Perform(old(View()), request, asked) && traffic == old(traffic)
      ensures op.Some? && mounted ==> Valid(View(), op.value)
      ensures op.Some? ==> Undisturbed(View(), op.value) && op.value.before == old(panel.messages)
      ensures op.Some? ==> forall other: Op | other.id <= old(epoch) :: !Valid(View(), other)
      ensures op.Some? ==> forall next, again :: Perform(View(), next, again).1 == None
    {
      op := None;
      if pending || panel.blocked || (panel.resource.Some? && !panel.resource.value.value.available) {
        return;
      }
      if !props.token || !props.institution {
        panel := panel.(error := Some(Tagged(SignIn, props.identity)));
        return;
      }
      pending := true;
      epoch := epoch + 1;
      op := Some(Op(epoch, props.identity, request, asked, panel.resource.Some?, panel.messages));
      panel := panel.(error := None);
      ClearRecovery();
      panel := panel.(session := Some(request.session));
      if asked {
        panel := panel.(messages := panel.messages + [Question(request, props.identity)]);
      }
    }

    /** The catch block of perform: an uncertain failure selects the request for recovery, a refusal of a busy turn
        gives the transcript from before back, a denial closes the chat. */
    method Catch(op: Op, failure: Failure)
      modifies this
      ensures View() == Caught(old(View()), op, failure) && traffic == old(traffic)
      ensures old(Valid(View(), op) && Undisturbed(View(), op)) ==> panel.messages == Transcript(op, Failed(failure))
      ensures Uncertain(failure) ==> turn.active.Some? && turn.active.value.request == Some(op.request) && !Offered()
      ensures !Uncertain(failure) && !Refused(failure) && (op.scoped || failure.status in {403, 404, 409}) ==> Closed()
    {
      hide Deny, Perform;
      ghost var h := View();
      if Undisturbed(h, op) && mounted && props.identity == op.account && epoch == op.id {
        SettledTranscript(h, op, Failed(failure));
      }
      if Uncertain(failure) {
        RememberTurn(Some(op.request), op.request.turn);
      } else if failure.code == Some("CHAT_TURN_BUSY") {
        panel := panel.(blocked := true, error := Some(Tagged(Busy, op.account)));
        if op.asked && panel.messages != [] {
          panel := panel.(messages := panel.messages[..|panel.messages| - 1]);
        }
      } else if op.scoped || failure.status in {403, 404, 409} {
        DenyAccess(failure, op.account);
      } else {
        panel := panel.(error := Some(Tagged(About(failure), op.account)));
      }
    }

    /** perform behind its await; the ghost index is its place among the operations under way. */
    method FinishReply(op: Op, outcome: Outcome, ghost i: nat)
      requires Sound() && i < |traffic.flights| && traffic.flights[i] == op
      modifies this
      ensures Sound() && System() == Step(old(System()), Arrived(i, outcome))
      ensures SettledBy(old(System()), System(), op, outcome)
    {
      ReplyPromise(System(), i, outcome);
      hide Kept, SettledBy, Settle;
      Resume(op, outcome);
      traffic := traffic.(flights := Without(traffic.flights, i));
    }

    method Resume(op: Op, outcome: Outcome)
      modifies this
      ensures View() == Settle(old(View()), op, outcome) && traffic == old(traffic)
    {
      hide Caught, Accept, Confirms, Transcript, Undisturbed, Perform;
      if !mounted || props.identity != op.account || epoch != op.id {
        return;
      }
      match outcome {
        case Replied(response) =>
          var accepted := TryAccept(response, op.request, op.account, false);
          if !accepted {
            Catch(op, Api(409, None));
          }
        case Failed(failure) =>
          Catch(op, failure);
      }
      pending := false;
    }

    /** A question is sent at most once at a time, stands behind the transcript, and carries only the account's own
        identifiers while the chat is visible. */
    method SendMessage(query: string, randomSession: string) returns (op: Option<Op>)
      requires Sound() && mounted
      modifies this
      ensures Sound() && System() == Step(old(System()), Sent(query, randomSession))
      ensures if op.Some? then Began(old(System()), System(), true) else Refrained(old(System()), System())
      ensures op.Some? ==>
        op.value.request.query == query
        && panel.messages == old(panel.messages) + [Message(true, query, Some(old(turns)), None, props.identity)]
    {
      SendPromise(System(), query, randomSession);
      SendMeans(View(), query, randomSession);
      hide Kept, Began, Refrained, Send;
      op := Ask(query, randomSession);
      Launched(op);
    }

    method Ask(query: string, randomSession: string) returns (op: Option<Op>)
      modifies this
      ensures (View(), op) == Send(old(View()), query, randomSession) && traffic == old(traffic)
    {
      hide Perform, RequestFor, Undisturbed, Valid;
      op := None;
      if query == "" || turn.state.Some? || pending || panel.blocked {
        return;
      }
      var request := RequestFor(View(), query, randomSession);
      turns := turns + 1;
      op := Begin(request, true);
    }

    /** A retry sends the request remembered or reported for the turn once more and asks nothing anew. */
    method RetryReply() returns (op: Option<Op>)
      requires Sound() && mounted
      modifies this
      ensures Sound() && System() == Step(old(System()), Retried)
      ensures if op.Some? then Began(old(System()), System(), false) && Resent(old(System()), System())
              else Refrained(old(System()), System())
    {
      RetryPromise(System());
      hide Kept, Began, Resent, Refrained, Retry;
      op := AskAgain();
      Launched(op);
    }

    method AskAgain() returns (op: Option<Op>)
      modifies this
      ensures (View(), op) == Retry(old(View())) && traffic == old(traffic)
    {
      hide Perform, Undisturbed, Valid;
      op := None;
      if turn.state.Some? && turn.state.value.retryable && turn.state.value.request.Some? {
        op := Begin(turn.state.value.request.value, false);
      }
    }

    ghost method Launched(op: Option<Op>)
      modifies `traffic
      ensures System() == Launch(old(System()), View(), op) && View() == old(View())
    {
      traffic := traffic.(flights := With(traffic.flights, op),
                          sent := traffic.sent + if op.Some? then [op.value.request] else []);
    }

    /** Whatever was open or under way, the chat is the current account's and empty. */
    method ResetChat()
      requires Sound() && mounted
      modifies this
      ensures Sound() && System() == Step(old(System()), ResetPressed) && Emptied(System())
    {
      ResetPromise(System());
      hide Kept, Emptied;
      StartOver();
    }

    method StartOver()
      modifies this
      ensures View() == Reset(old(View())) && traffic == old(traffic)
    {
      epoch := epoch + 1;
      pending := false;
      var previous := panel.resource;
      var kept := previous.Some? && !previous.value.value.available && props.initial.Some?
        && previous.value.value.source == props.initial.value.source;
      panel := Panel(props.identity, [], None, None, None, if kept then previous else Initial(props), false);
      ClearRecovery();
    }

    /** The saved transcript is shown, and of all calls under way only the new check can change it. */
    method LoadConversation(id: string, saved: seq<Saved>, resource: Option<Resource>, unfinished: Option<nat>)
      returns (check: Option<Check>)
      requires Sound() && mounted
      modifies this
      ensures Sound() && System() == Step(old(System()), Loaded(id, saved, resource, unfinished))
      ensures Opened(old(System()), System(), id, saved, check)
    {
      LoadPromise(System(), id, saved, resource, unfinished);
      hide Kept, Opened, Load;
      check := Open(id, saved, resource, unfinished);
      traffic := traffic.(checks := With(traffic.checks, check));
    }

    method Open(id: string, saved: seq<Saved>, resource: Option<Resource>, unfinished: Option<nat>)
      returns (check: Option<Check>)
      modifies this
      ensures (View(), check) == Load(old(View()), id, saved, resource, unfinished) && traffic == old(traffic)
    {
      hide Restored, Remember, StartCheck, Current, Send, Beyond;
      check := None;
      turns := Beyond(turns, unfinished);
      epoch := epoch + 1;
      pending := false;
      ClearRecovery();
      var me := props.identity;
      var tagged := if resource.Some? then Some(Tagged(resource.value, me)) else None;
      panel := Panel(me, Restored(saved, me), None, None, Some(Tagged(id, me)), tagged, Unavailable(tagged));
      if unfinished.Some? && !(resource.Some? && !resource.value.available) {
        RememberTurn(None, unfinished.value);
        check := BeginCheck();
      }
    }

    /** Pressing the button to check for a reply. */
    method CheckReply() returns (check: Option<Check>)
      requires Sound() && mounted
      modifies this
      ensures Sound() && System() == Step(old(System()), CheckPressed) && Asked(old(System()), System(), check)
    {
      CheckPromise(System());
      hide Kept, Asked, StartCheck, Current;
      check := BeginCheck();
      traffic := traffic.(checks := With(traffic.checks, check));
    }

    // React ------------------------------------------------------------------------------------------

    /** A render for another account shows nothing of the one before, even until the effects run. */
    method Rerender(p: Props)
      requires Sound() && Possible(System(), Rendered(p))
      modifies `props
      ensures Sound() && System() == Step(old(System()), Rendered(p)) && Rerendered(old(System()), System())
    {
      RenderPromise(System(), p);
      hide Kept, Rerendered;
      props := p;
    }

    /** The chat belongs to the account it is rendered for, and is empty if it changed. */
    method RunEffects()
      requires Sound() && mounted
      modifies this
      ensures Sound() && System() == Step(old(System()), EffectsRun)
      ensures Visible(View()) && Switched(old(System()), System())
    {
      EffectsPromise(System());
      hide Kept, Switched, Effects;
      SwitchAccount();
    }

    method SwitchAccount()
      modifies this
      ensures View() == Effects(old(View())) && traffic == old(traffic)
    {
      hide Reset;
      if effectsOf != props.identity {
        turn := turn.(version := turn.version + 1);
        effectsOf := props.identity;
        if panel.owner != props.identity {
          StartOver();
        }
      }
    }

    /** Nothing that is under way acts on the hook again. */
    method TearDown()
      requires Sound() && mounted
      modifies this
      ensures Sound() && System() == Step(old(System()), Unmounted) && Replaced(System()) && Outdated(System())
    {
      UnmountPromise(System());
      hide Kept, Replaced, Outdated;
      mounted := false;
      epoch := epoch + 1;
      turn := turn.(version := turn.version + 1);
    }
  }
}
