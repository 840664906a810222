/** What each single step promises, in every state a run can reach. */
module ChatSteps {
  import opened Text
  import opened Chat
  import opened ChatLaws
  import opened ChatRuns

  /** What every run keeps: the invariant, the dates of the checks and the origin of the remembered requests. */
  ghost predicate Kept(s: System) {
    Inv(s) && AllDated(s) && Remembered(s)
  }

  lemma StartKept(p: Props)
    requires Proper(p)
    ensures Kept(Start(p))
  {
    Initially(p);
  }

  lemma StepKept(s: System, e: Event)
    requires Kept(s) && Possible(s, e)
    ensures Kept(Step(s, e))
  {
    hide Inv, AllDated, Remembered, Step, Possible;
    StepKeeps(s, e);
    StepDated(s, e);
    StepRemembers(s, e);
  }

  /** The page is shown nothing of another account. */
  predicate OwnShown(h: Hook) {
    ShowsOnly(Shown(h), h.Identity())
  }

  lemma KeptShows(s: System)
    requires Kept(s)
    ensures OwnShown(s.hook)
  {
    hide AllDated, Remembered, Control, AskedOnce;
  }

  /** Of the operations under way only the one at position n can still change the hook. */
  predicate OnlyCurrent(s: System, n: nat) {
    n < |s.flights| && forall i | 0 <= i < |s.flights| :: Valid(s.hook, s.flights[i]) <==> i == n
  }

  /** No reply under way can still change the hook. */
  predicate Replaced(s: System) {
    forall i | 0 <= i < |s.flights| :: !Valid(s.hook, s.flights[i])
  }

  /** No check under way can still change the hook. */
  predicate Outdated(s: System) {
    forall i | 0 <= i < |s.checks| :: !Current(s.hook, s.checks[i])
  }

  // Calls --------------------------------------------------------------------------------------------

  /** One operation was added, it alone is current, the latch is set, the transcript grew by the question if one was
      asked, and what was sent is the account's own if the chat was visible. */
  predicate Began(s: System, t: System, asked: bool) {
    var n := |s.flights|;
    && OnlyCurrent(t, n) && t.flights[..n] == s.flights && t.hook.pending
    && t.sent == s.sent + [t.flights[n].request]
    && t.flights[n].asked == asked && t.flights[n].before == s.hook.messages
    && Undisturbed(t.hook, t.flights[n])
    && (Visible(t.hook) ==> Mine(t.flights[n].request, t.hook.Identity()))
  }

  /** Nothing was sent or lost. */
  predicate Refrained(s: System, t: System) {
    t.flights == s.flights && t.sent == s.sent && t.hook.messages == s.hook.messages && t.hook.pending == s.hook.pending
  }

  lemma Launches(s: System, h: Hook, request: Request, asked: bool)
    requires Inv(s) && s.hook.mounted && h.epoch == s.hook.epoch && h.messages == s.hook.messages
    requires h.pending == s.hook.pending && h.mounted
    ensures var (g, op) := Perform(h, request, asked);
      var t := Launch(s, g, op);
      Inv(t) ==> if op.Some? then Began(s, t, asked) else Refrained(s, t)
  {
    var (g, op) := Perform(h, request, asked);
    var t := Launch(s, g, op);
    if op.Some? && Inv(t) {
      hide Clean, AskedOnce, Mine, Perform;
      assert t.flights[|s.flights|] == op.value;
      assert Valid(t.hook, t.flights[|s.flights|]);
    }
  }

  lemma SendPromise(s: System, query: string, randomSession: string)
    requires Kept(s) && Possible(s, Sent(query, randomSession))
    ensures var t := Step(s, Sent(query, randomSession));
      Kept(t) && if Send(s.hook, query, randomSession).1.Some? then Began(s, t, true) else Refrained(s, t)
  {
    StepKept(s, Sent(query, randomSession));
    Launches(s, s.hook.(turns := s.hook.turns + 1), RequestFor(s.hook, query, randomSession), true);
    hide Kept, Inv, Began, Perform, RequestFor;
  }

  /** A retry asks nothing anew: it sends the remembered request once more. */
  lemma RetryPromise(s: System)
    requires Kept(s) && Possible(s, Retried)
    ensures var t := Step(s, Retried);
      && Kept(t)
      && if Retry(s.hook).1.Some? then Began(s, t, false) && Resent(s, t) else Refrained(s, t)
  {
    StepKept(s, Retried);
    var h := s.hook;
    if h.recovery.Some? && h.recovery.value.retryable && h.recovery.value.request.Some? {
      var request := h.recovery.value.request.value;
      Launches(s, h, request, false);
      hide Inv, AllDated, Perform;
    } else {
      hide Kept, Perform;
    }
  }

  /** The request sent last was sent before, or was reported for the turn being recovered. */
  predicate Resent(s: System, t: System) {
    && t.sent != [] && s.hook.recovery.Some? && t.hook.messages == s.hook.messages
    && var r := t.sent[|t.sent| - 1];
      r.turn == s.hook.recovery.value.turn && (r in s.sent || r in s.told)
  }

  // Replies ------------------------------------------------------------------------------------------

  /** A reply nobody waits for any more changes nothing. The awaited one releases the latch, leaves the transcript it
      has to, and no other reply under way can act. */
  predicate SettledBy(s: System, t: System, op: Op, outcome: Outcome) {
    if Valid(s.hook, op) then !t.hook.pending && t.hook.messages == Transcript(op, outcome) && Replaced(t)
    else t.hook == s.hook
  }

  lemma ReplyPromise(s: System, i: nat, outcome: Outcome)
    requires Kept(s) && Possible(s, Arrived(i, outcome))
    ensures var t := Step(s, Arrived(i, outcome)); Kept(t) && SettledBy(s, t, s.flights[i], outcome)
  {
    StepKept(s, Arrived(i, outcome));
    var t := Step(s, Arrived(i, outcome));
    if Valid(s.hook, s.flights[i]) {
      SettledTranscript(s.hook, s.flights[i], outcome);
      SettleFrame(s.hook, s.flights[i], outcome);
      hide Settle, Transcript, Clean, AskedOnce, AllDated, Remembered;
      forall k | 0 <= k < |t.flights|
        ensures !Valid(t.hook, t.flights[k])
      {
        CameFrom(s.flights, i, k);
      }
    }
  }

  /** A check that is no longer current changes nothing; the first report about the turn asked for outdates every
      other check. */
  predicate ReportedBy(s: System, t: System, c: Check, report: Report) {
    if Current(s.hook, c) then t.hook.pending == s.hook.pending && (Matches(c, report) ==> Outdated(t))
    else t.hook == s.hook
  }

  lemma ReportPromise(s: System, i: nat, report: Report)
    requires Kept(s) && Possible(s, Answered(i, report))
    ensures var t := Step(s, Answered(i, report)); Kept(t) && ReportedBy(s, t, s.checks[i], report)
  {
    StepKept(s, Answered(i, report));
    var t := Step(s, Answered(i, report));
    if Current(s.hook, s.checks[i]) {
      EndCheckFrame(s.hook, s.checks[i], report);
      hide EndCheck, Inv, Remembered;
      if Matches(s.checks[i], report) {
        forall k | 0 <= k < |t.checks|
          ensures !Current(t.hook, t.checks[k])
        {
          assert t.checks[k] in s.checks;
          NowStale(s.hook, s.checks[i], report, t.checks[k]);
        }
      }
    }
  }

  // Starting over ------------------------------------------------------------------------------------

  /** The chat shows an empty transcript of the current account; nothing under way can change that. */
  predicate Emptied(t: System) {
    && Visible(t.hook) && t.hook.messages == [] && t.hook.error == None && t.hook.recovery == None
    && !t.hook.pending && !t.hook.blocked && Replaced(t) && Outdated(t)
  }

  lemma ResetPromise(s: System)
    requires Kept(s) && Possible(s, ResetPressed)
    ensures var t := Step(s, ResetPressed); Kept(t) && Emptied(t)
  {
    StepKept(s, ResetPressed);
    hide Clean, AskedOnce, Remembered;
  }

  /** The saved transcript is shown, and of all that is under way only its own check can change that. */
  predicate Opened(s: System, t: System, id: string, saved: seq<Saved>, check: Option<Check>) {
    && Visible(t.hook) && !t.hook.pending && t.hook.messages == Restored(saved, t.hook.Identity())
    && t.hook.conversation == Some(Tagged(id, t.hook.Identity())) && Replaced(t)
    && t.checks == With(s.checks, check)
    && forall i | 0 <= i < |t.checks| :: Current(t.hook, t.checks[i]) <==> check.Some? && i == |s.checks|
  }

  lemma LoadPromise(s: System, id: string, saved: seq<Saved>, resource: Option<Resource>, unfinished: Option<nat>)
    requires Kept(s) && Possible(s, Loaded(id, saved, resource, unfinished))
    ensures var t := Step(s, Loaded(id, saved, resource, unfinished));
      Kept(t) && Opened(s, t, id, saved, Load(s.hook, id, saved, resource, unfinished).1)
  {
    StepKept(s, Loaded(id, saved, resource, unfinished));
    hide Clean, AskedOnce, Remembered, Restored;
  }

  /** Every check asked for is current, and so stays every check that was. */
  predicate Asked(s: System, t: System, check: Option<Check>) {
    && (check.Some? <==> s.hook.active.Some? && s.hook.props.token)
    && (check.Some? ==> Current(t.hook, check.value) && check.value.selected == s.hook.active.value)
    && t.checks == With(s.checks, check) && t.flights == s.flights && t.hook.messages == s.hook.messages
    && forall i | 0 <= i < |s.checks| :: Current(t.hook, s.checks[i]) <==> Current(s.hook, s.checks[i])
  }

  lemma CheckPromise(s: System)
    requires Kept(s) && Possible(s, CheckPressed)
    ensures var t := Step(s, CheckPressed); Kept(t) && Asked(s, t, StartCheck(s.hook).1)
  {
    StepKept(s, CheckPressed);
    hide Kept;
  }

  // React --------------------------------------------------------------------------------------------

  /** Rendering shows nothing of the account before, even until the effects have run. */
  predicate Rerendered(s: System, t: System) {
    && OwnShown(t.hook)
    && (t.hook.Identity() != s.hook.Identity() ==>
          Shown(t.hook) == State([], None, None, None, Initial(t.hook.props), false, None))
  }

  lemma RenderPromise(s: System, p: Props)
    requires Kept(s) && Possible(s, Rendered(p))
    ensures var t := Step(s, Rendered(p)); Kept(t) && Rerendered(s, t)
  {
    StepKept(s, Rendered(p));
    KeptShows(Step(s, Rendered(p)));
    hide Control, Clean, AskedOnce, Remembered, AllDated, ShowsOnly;
  }

  /** After the effects the chat belongs to the current account; after a change of account it is empty. */
  predicate Switched(s: System, t: System) {
    if s.hook.seen == s.hook.Identity() then t == s
    else Visible(t.hook) && Outdated(t) && (!Visible(s.hook) ==> Emptied(t))
  }

  lemma EffectsPromise(s: System)
    requires Kept(s) && Possible(s, EffectsRun)
    ensures var t := Step(s, EffectsRun); Kept(t) && Visible(t.hook) && Switched(s, t)
  {
    StepKept(s, EffectsRun);
    hide Clean, AskedOnce, Remembered;
  }

  /** Nothing that is under way when the hook is unmounted acts on it again. */
  lemma UnmountPromise(s: System)
    requires Kept(s) && Possible(s, Unmounted)
    ensures var t := Step(s, Unmounted); Kept(t) && Replaced(t) && Outdated(t)
  {
    StepKept(s, Unmounted);
    hide Clean, AskedOnce, Remembered;
  }
}
