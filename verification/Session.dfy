/** The session object: each public method is one legal call of the container's life. */
module Sessions {
  import opened Text
  import opened Transport
  import opened Lifecycle

  lemma ShownIs(pins: Pins, id: string, es: seq<Exchange>, a: seq<Exchange>)
    requires Completed(pins, PreflightPlan(), es) && |a| == 1
    ensures Shown(pins, id, es + a) == Seen(pins, id, Labels(pins, es), a[0].reply)
  {
    assert (es + a)[..3] == es && (es + a)[3] == a[0];
  }

  lemma AcceptedLook(pins: Pins, id: string, running: Option<bool>, labels: Option<string>, r: Reply)
    requires Acceptable(pins, Look(id, running), labels, r)
    ensures Seen(pins, id, labels, r).Some? && Wanted(running, Seen(pins, id, labels, r).value)
  {
  }

  lemma AnswerIs(pins: Pins, es: seq<Exchange>, a: seq<Exchange>)
    requires |es| == 3 && |a| == 1
    ensures a[0].reply.Done? ==> Answer(es + a) == Strip(a[0].reply.stdout)
    ensures Acknowledges(es + a) <==> Acceptable(pins, Plain(Command.Create), Labels(pins, es), a[0].reply)
  {
    hide Strip, IsId;
  }

  lemma AnswerKept(es: seq<Exchange>, b: seq<Exchange>)
    requires |es| == 4
    ensures Answer(es + b) == Answer(es) && Acknowledges(es + b) == Acknowledges(es)
  {
    hide Strip, IsId;
  }

  lemma CreateAcknowledges(pins: Pins, es: seq<Exchange>)
    requires Follows(pins, CreatePlan(Answer(es)), es, Returned, false)
    ensures Acknowledges(es)
  {
    hide Strip, IsId;
    assert Passed(pins, CreatePlan(Answer(es)), es, 3);
  }

  lemma ShownKept(pins: Pins, id: string, es: seq<Exchange>, b: seq<Exchange>)
    requires |es| > 3
    ensures Shown(pins, id, es + b) == Shown(pins, id, es)
  {
    assert (es + b)[..3] == es[..3];
  }

  function AskPlan(id: string): seq<Step> {
    InspectPlan(id, Some(true)) + [Plain(PgIsReady(id))]
  }

  function WaitPlan(id: string): seq<Step> {
    InspectPlan(id, Some(true)) + [Wait(id)]
  }

  /** How many tenths of a second are left, rounded up. */
  ghost function Left(now: real, limit: real): nat {
    if now >= limit then 0 else 1 + (10.0 * (limit - now)).Floor
  }

  lemma LeftShrinks(a: real, b: real, limit: real)
    requires a < limit && (b >= a + 0.1 || b >= limit)
    ensures Left(b, limit) < Left(a, limit)
  {
    if b < limit {
      assert 10.0 * (limit - b) <= 10.0 * (limit - a) - 1.0;
    }
  }

  lemma RoundsAre(id: string, n: nat)
    ensures Rounds(id, 0) == [] && Rounds(id, n + 1) == Rounds(id, n) + WaitPlan(id)
    ensures Fresh(WaitPlan(id)) && Fresh(AskPlan(id))
  {
  }

  lemma ReadyPlanIs(id: string, n: nat)
    ensures ReadyPlan(id, n) == Rounds(id, n) + AskPlan(id) + [Plain(Identity(id))]
    ensures ReadyPlan(id, n) == Rounds(id, n) + (AskPlan(id) + [Plain(Identity(id))])
    ensures ReadyPlan(id, n) == Rounds(id, n) + AskPlan(id) + [Plain(Identity(id))] + []
  {
  }

  lemma InspectPolls(pins: Pins, id: string, es: seq<Exchange>, ending: Ending, late: bool)
    requires Follows(pins, InspectPlan(id, Some(true)), es, ending, late)
    ensures Polls(es) == 0
  {
    InOrder(pins, InspectPlan(id, Some(true)), es, ending, late);
    assert forall i | 0 <= i < 4 :: !Cmd(InspectPlan(id, Some(true))[i]).PgIsReady?;
    NoPolls(es);
  }

  lemma Polled(pins: Pins, id: string, es: seq<Exchange>, a: seq<Exchange>, ending: Ending, up: bool,
               now: real, limit: real)
    requires Completed(pins, InspectPlan(id, Some(true)), es) && Polls(es) == 0 && AllTimed(es, Some(limit))
    requires a == [] || (|a| == 1 && a[0].cmd == PgIsReady(id) && Timed(a[0], 5.0, Some(limit)))
    requires ending == Returned ==> |a| == 1 && a[0].reply.Done? && a[0].reply.code in (if up then {0} else {1, 2})
    requires ending == Raised ==> now >= limit || (|a| == 1 && !(a[0].reply.Done? && a[0].reply.code in {0, 1, 2}))
    ensures AllTimed(es + a, Some(limit)) && Polls(es + a) == |a|
    ensures ending == Returned ==> Completed(pins, if up then AskPlan(id) else WaitPlan(id), es + a)
    ensures ending != Returned ==> Follows(pins, AskPlan(id), es + a, ending, now >= limit)
  {
    hide Completed, Follows;
    PollsConcat(es, a);
    if a != [] {
      assert a[..0] == [];
    }
    var p, ask, wait := InspectPlan(id, Some(true)), Plain(PgIsReady(id)), Wait(id);
    assert p + [ask] + [] == AskPlan(id);
    if ending == Returned && !up {
      Extended(pins, p, es, wait, a, [], ending, now >= limit);
    } else {
      Extended(pins, p, es, ask, a, [], ending, now >= limit);
    }
  }

  /** The call ends between two rounds, late or aborted. */
  lemma EndsBetweenRounds(pins: Pins, id: string, n: nat, es: seq<Exchange>, ending: Ending, late: bool)
    requires Completed(pins, Rounds(id, n), es) && ending != Returned && (ending == Raised ==> late)
    ensures Follows(pins, ReadyPlan(id, n), es, ending, late)
  {
    ReadyPlanIs(id, n);
    EndsAfter(pins, Rounds(id, n), es, AskPlan(id) + [Plain(Identity(id))], ending, late);
  }

  lemma EndsInRound(pins: Pins, id: string, n: nat, es: seq<Exchange>, a: seq<Exchange>, ending: Ending, late: bool)
    requires Completed(pins, Rounds(id, n), es) && Follows(pins, AskPlan(id), a, ending, late) && ending != Returned
    requires pins.reviewed || es == []
    ensures Follows(pins, ReadyPlan(id, n), es + a, ending, late)
  {
    hide Completed, Follows;
    ReadyPlanIs(id, n);
    Then(pins, Rounds(id, n), es, AskPlan(id), a, ending, late);
    CutShort(pins, Rounds(id, n) + AskPlan(id), es + a, [Plain(Identity(id))], ending, late);
  }

  lemma IdentityPolls(a: seq<Exchange>, id: string)
    requires a == [] || (|a| == 1 && a[0].cmd == Identity(id))
    ensures Polls(a) == 0
  {
    NoPolls(a);
  }

  /** What the last command wrote to its standard output. */
  function Printed(es: seq<Exchange>): Option<string> {
    if es != [] && es[|es| - 1].reply.Done? then Some(es[|es| - 1].reply.stdout) else None
  }

  class Session {
    const docker: Docker
    const clock: Clock
    var containerId: Option<string>
    var failed: bool
    var closed: bool
    var createAttempted: bool
    var createSubmitted: bool
    var readinessPending: bool
    ghost var history: seq<Episode>

    constructor (docker: Docker, clock: Clock)
      ensures this.docker == docker && this.clock == clock && history == [] && Valid()
    {
      this.docker := docker;
      this.clock := clock;
      containerId := None;
      failed, closed, createAttempted, createSubmitted, readinessPending := false, false, false, false, false;
      history := [];
    }

    function View(): State
      reads this
    {
      State(containerId, failed, closed, createAttempted, createSubmitted, readinessPending)
    }

    ghost predicate Valid()
      reads this
    {
      && View() == Outcome(history) && Lawful(docker.pins, history)
      && (containerId.Some? ==> createSubmitted && IsId(containerId.value))
      && (createSubmitted ==> createAttempted)
    }

    /** What every public call promises: it is one legal step, and sends nothing beside it. */
    twostate predicate Stepped(c: Episode)
      reads this, docker
    {
      && history == old(history) + [c] && Valid()
      && docker.log == old(docker.log) + c.sent
      && Legal(docker.pins, old(View()), c) && View() == After(old(View()), c)
    }

    method Inspect(running: Option<bool>, deadline: Option<real>)
      returns (ending: Ending, status: Option<Status>, ghost es: seq<Exchange>)
      requires containerId.Some? ==> IsId(containerId.value)
      modifies docker, clock
      ensures docker.log == old(docker.log) + es && clock.now >= old(clock.now) && AllTimed(es, deadline)
      ensures !Held(View()) ==> ending == Raised && es == []
      ensures Held(View()) ==>
        Follows(docker.pins, InspectPlan(containerId.value, running), es, ending, Late(clock.now, deadline))
      ensures status.Some? <==> ending == Returned
      ensures status.Some? ==> docker.pins.reviewed && status == Shown(docker.pins, containerId.value, es)
    {
      hide Completed, Stopped, Underway, AllTimed, Acceptable, Labels, Strip;
      ending, status, es := Raised, None, [];
      Nothing(docker.pins, [], deadline);
      if containerId == None || closed {
        return;
      }
      var id := containerId.value;
      ending, es := docker.Preflight(clock, deadline);
      if ending != Returned {
        CutShort(docker.pins, PreflightPlan(), es, [Look(id, running)], ending, Late(clock.now, deadline));
        return;
      }
      assert InspectPlan(id, running) == PreflightPlan() + [Look(id, running)] + [];
      ghost var a;
      var r;
      ending, r, a := docker.Expect(Look(id, running), 20.0, clock, deadline, PreflightPlan(), es, []);
      if r.Some? {
        status := Seen(docker.pins, id, Some(docker.imageLabels), r.value);
        ShownIs(docker.pins, id, es, a);
        AcceptedLook(docker.pins, id, running, Labels(docker.pins, es), r.value);
      }
      es := es + a;
    }

    /** The part of create that may fail half-way. */
    method TryCreate() returns (ending: Ending, ghost es: seq<Exchange>)
      requires !createSubmitted && containerId == None && !closed
      modifies this`containerId, this`createSubmitted, docker, clock
      ensures docker.log == old(docker.log) + es && AllTimed(es, None)
      ensures Follows(docker.pins, CreatePlan(Answer(es)), es, ending, false)
      ensures Announces(Episode(CreateContainer, es, ending, None, clock.now, createSubmitted, containerId.Some?))
      ensures containerId.Some? ==> containerId.value == Answer(es)
    {
      hide Completed, Stopped, Underway, Follows, AllTimed, Acceptable, Labels, Strip, IsId;
      ending, es := docker.Preflight(clock, None);
      Length(docker.pins, PreflightPlan(), es, ending, false);
      if ending != Returned {
        ghost var rest := [Plain(Command.Create)] + InspectPlan(Answer(es), Some(false));
        CutShort(docker.pins, PreflightPlan(), es, rest, ending, false);
        assert CreatePlan(Answer(es)) == PreflightPlan() + rest;
        return;
      }
      createSubmitted := true;
      ghost var a;
      var r;
      ghost var p := PreflightPlan() + [Plain(Command.Create)];
      assert p + [] == p;
      ending, r, a := docker.Expect(Plain(Command.Create), 20.0, clock, None, PreflightPlan(), es, []);
      if a == [] {
        assert es + a == es;
      } else {
        AnswerIs(docker.pins, es, a);
      }
      es := es + a;
      if r.None? {
        CutShort(docker.pins, p, es, InspectPlan(Answer(es), Some(false)), ending, false);
        return;
      }
      containerId := Some(Strip(r.value.stdout));
      ghost var b;
      var status;
      ending, status, b := Inspect(Some(false), None);
      Then(docker.pins, p, es, InspectPlan(Answer(es), Some(false)), b, ending, false);
      AllTimedConcat(es, b, None);
      AnswerKept(es, b);
      es := es + b;
    }

    /** A harness error marks the session; anything else leaves with what the call had set so far. */
    method Create() returns (id: Option<string>, ending: Ending, ghost c: Episode)
      requires Valid()
      modifies this, docker, clock
      ensures Stepped(c) && c.req == CreateContainer && c.ending == ending
      ensures (id.Some? <==> ending == Returned) && (id.Some? ==> containerId == id)
    {
      hide Lawful, Outcome, Follows, AllTimed, Strip, IsId;
      id, ending := None, Raised;
      Nothing(docker.pins, [], None);
      c := Episode(CreateContainer, [], ending, None, clock.now);
      if !createAttempted && !closed {
        createAttempted := true;
        ghost var es;
        ending, es := TryCreate();
        c := Episode(CreateContainer, es, ending, None, clock.now, createSubmitted, containerId.Some?);
        if ending == Returned {
          CreateAcknowledges(docker.pins, es);
          id := containerId;
        } else if ending == Raised {
          failed := true;
        }
      }
      Continued(docker.pins, history, c);
      history := history + [c];
    }

    method TryStart() returns (ending: Ending, ghost es: seq<Exchange>)
      requires containerId.Some? ==> IsId(containerId.value)
      modifies docker, clock
      ensures docker.log == old(docker.log) + es && AllTimed(es, None)
      ensures !Held(View()) ==> ending == Raised && es == []
      ensures Held(View()) ==> Follows(docker.pins, StartPlan(containerId.value), es, ending, false)
    {
      hide Completed, Stopped, Underway, Follows, AllTimed, Acceptable, Labels, IsId;
      var status;
      ending, status, es := Inspect(Some(false), None);
      if !Held(View()) {
        return;
      }
      var id := containerId.value;
      ghost var p := InspectPlan(id, Some(false));
      ghost var q := p + [Plain(Command.Start(id))];
      ghost var last := InspectPlan(id, Some(true));
      assert StartPlan(id) == q + last == p + ([Plain(Command.Start(id))] + last);
      Length(docker.pins, p, es, ending, false);
      if ending != Returned {
        CutShort(docker.pins, p, es, [Plain(Command.Start(id))] + last, ending, false);
        return;
      }
      ghost var a;
      var r;
      ending, r, a := docker.Expect(Plain(Command.Start(id)), 20.0, clock, None, p, es, last);
      es := es + a;
      if ending != Returned {
        return;
      }
      ending, status, a := Inspect(Some(true), None);
      Then(docker.pins, q, es, last, a, ending, false);
      AllTimedConcat(es, a, None);
      es := es + a;
    }

    method Start() returns (ending: Ending, ghost c: Episode)
      requires Valid()
      modifies this, docker, clock
      ensures Stepped(c) && c.req == StartContainer && c.ending == ending
    {
      hide Lawful, Outcome, Follows, AllTimed, IsId;
      Nothing(docker.pins, [], None);
      ending := Raised;
      c := Episode(StartContainer, [], ending, None, clock.now);
      if !failed {
        ghost var es;
        ending, es := TryStart();
        c := Episode(StartContainer, es, ending, None, clock.now);
        if ending == Raised {
          failed := true;
        }
      }
      Continued(docker.pins, history, c);
      history := history + [c];
    }

    /** One round of the readiness loop: up tells whether the server answered. */
    method Poll(limit: real) returns (ending: Ending, up: bool, ghost es: seq<Exchange>)
      requires containerId.Some? ==> IsId(containerId.value)
      modifies docker, clock
      ensures docker.log == old(docker.log) + es && AllTimed(es, Some(limit)) && clock.now >= old(clock.now)
      ensures !Held(View()) ==> ending == Raised && es == []
      ensures Held(View()) && ending != Returned ==> Polls(es) <= 1
      ensures Held(View()) && ending != Returned ==>
        Follows(docker.pins, AskPlan(containerId.value), es, ending, clock.now >= limit)
      ensures ending == Returned ==> docker.pins.reviewed && Polls(es) == 1 && clock.now < limit
      ensures ending == Returned && up ==> Completed(docker.pins, AskPlan(containerId.value), es)
      ensures ending == Returned && !up ==> Completed(docker.pins, WaitPlan(containerId.value), es)
    {
      hide Completed, Stopped, Underway, Follows, AllTimed, Acceptable, Labels, IsId, Polls, Shown;
      var deadline := Some(limit);
      up := false;
      var status;
      ending, status, es := Inspect(Some(true), deadline);
      if !Held(View()) {
        return;
      }
      var id := containerId.value;
      ghost var p := InspectPlan(id, Some(true));
      ghost var late := Late(clock.now, deadline);
      Length(docker.pins, p, es, ending, late);
      InspectPolls(docker.pins, id, es, ending, late);
      if ending != Returned {
        CutShort(docker.pins, p, es, [Plain(PgIsReady(id))], ending, late);
        return;
      }
      var t := clock.Read();
      if t >= limit {
        ending := Raised;
        EndsAfter(docker.pins, p, es, [Plain(PgIsReady(id))], ending, true);
        return;
      }
      ghost var a;
      var r;
      ending, r, a := docker.Call(PgIsReady(id), 5.0, true, clock, deadline);
      if r.Some? {
        ending := Raised;
        t := clock.Read();
        if t < limit && r.value.code in {0, 1, 2} {
          ending, up := Returned, r.value.code == 0;
        }
      }
      Polled(docker.pins, id, es, a, ending, up, clock.now, limit);
      es := es + a;
    }

    /** The answering server proves its identity, still in time. */
    method Confirm(limit: real, ghost n: nat, ghost es: seq<Exchange>) returns (ending: Ending, ghost a: seq<Exchange>)
      requires Held(View()) && AllTimed(es, Some(limit))
      requires var id := containerId.value; Completed(docker.pins, Rounds(id, n) + AskPlan(id), es)
      modifies docker, clock
      ensures docker.log == old(docker.log) + a && AllTimed(es + a, Some(limit)) && Polls(es + a) == Polls(es)
      ensures Follows(docker.pins, ReadyPlan(containerId.value, n), es + a, ending, clock.now >= limit)
    {
      hide Completed, Stopped, Underway, Follows, AllTimed, Acceptable, Labels, Polls, ReadyPlan;
      var id := containerId.value;
      ghost var p := Rounds(id, n) + AskPlan(id);
      ReadyPlanIs(id, n);
      var r;
      ending, r, a := docker.Expect(Plain(Identity(id)), 5.0, clock, Some(limit), p, es, []);
      PollsConcat(es, a);
      IdentityPolls(a, id);
      if r.Some? {
        var t := clock.Read();
        if t < limit {
          Finished(docker.pins, p + [Plain(Identity(id))], es + a);
        } else {
          ending := Raised;
          EndsAfter(docker.pins, p + [Plain(Identity(id))], es + a, [], ending, true);
        }
      }
    }

    method TryReady(timeout: real, start: real) returns (ending: Ending, ghost n: nat, ghost es: seq<Exchange>)
      requires containerId.Some? ==> IsId(containerId.value)
      requires Proper(timeout) && start <= clock.now
      modifies docker, clock
      ensures docker.log == old(docker.log) + es && AllTimed(es, Some(start + timeout))
      ensures Polls(es) as real < 10.0 * timeout + 1.0
      ensures !Held(View()) ==> ending == Raised && es == []
      ensures Held(View()) ==>
        Follows(docker.pins, ReadyPlan(containerId.value, n), es, ending, clock.now >= start + timeout)
    {
      hide Completed, Follows, AllTimed, IsId, Polls, ReadyPlan, Rounds, AskPlan, WaitPlan, Left;
      var limit := start + timeout;
      ending, n, es := Raised, 0, [];
      Nothing(docker.pins, [], Some(limit));
      NoPolls([]);
      if Held(View()) {
        RoundsAre(containerId.value, 0);
      }
      while true
        invariant View() == old(View()) && docker.log == old(docker.log) + es && start <= clock.now
        invariant AllTimed(es, Some(limit)) && Polls(es) == n
        invariant n == 0 || clock.now >= start + 0.1 * n as real || clock.now >= limit
        invariant if n == 0 then es == [] else Held(View()) && docker.pins.reviewed
        invariant Held(View()) ==> Completed(docker.pins, Rounds(containerId.value, n), es)
        invariant n as real < 10.0 * timeout + 1.0
        decreases Left(clock.now, limit)
      {
        ghost var head := clock.now;
        var t := clock.Read();
        if t >= limit {
          ending := Raised;
          if Held(View()) {
            EndsBetweenRounds(docker.pins, containerId.value, n, es, ending, true);
          }
          return;
        }
        assert n as real < 10.0 * timeout;
        ghost var a;
        var up;
        ending, up, a := Poll(limit);
        if !Held(View()) {
          return;
        }
        var id := containerId.value;
        PollsConcat(es, a);
        AllTimedConcat(es, a, Some(limit));
        if ending != Returned {
          EndsInRound(docker.pins, id, n, es, a, ending, clock.now >= limit);
          es := es + a;
          return;
        }
        if up {
          CompletedThen(docker.pins, Rounds(id, n), es, AskPlan(id), a);
          es := es + a;
          ending, a := Confirm(limit, n, es);
          es := es + a;
          return;
        }
        RoundsAre(id, n);
        CompletedThen(docker.pins, Rounds(id, n), es, WaitPlan(id), a);
        es, n := es + a, n + 1;
        var struck := Interrupted();
        if struck {
          ending := Aborted;
          EndsBetweenRounds(docker.pins, id, n, es, ending, clock.now >= limit);
          return;
        }
        t := clock.Read();
        clock.Sleep(if limit - t > 0.1 then 0.1 else if limit - t > 0.0 then limit - t else 0.0);
        LeftShrinks(head, clock.now, limit);
      }
    }

    /** Waits until the server answers; a call that began but did not return leaves readiness pending, however it
        was left. */
    method Ready(timeout: real) returns (ending: Ending, ghost c: Episode)
      requires Valid()
      modifies this, docker, clock
      ensures Stepped(c) && c.req == AwaitReady(timeout) && c.ending == ending
    {
      hide Lawful, Outcome, Follows, AllTimed, IsId, Polls, ReadyPlan;
      Nothing(docker.pins, [], None);
      ending := Raised;
      c := Episode(AwaitReady(timeout), [], ending, None, clock.now);
      if !failed && 0.0 < timeout <= 60.0 {
        var start := clock.Read();
        readinessPending := true;
        ghost var n, es;
        ending, n, es := TryReady(timeout, start);
        c := Episode(AwaitReady(timeout), es, ending, Some(start + timeout), clock.now);
        if ending == Returned {
          readinessPending := false;
        } else if ending == Raised {
          failed := true;
        }
      }
      Continued(docker.pins, history, c);
      history := history + [c];
    }

    method TrySql(text: string, want: Option<Expectation>, limit: real)
      returns (ending: Ending, out: Option<string>, ghost es: seq<Exchange>)
      requires containerId.Some? ==> IsId(containerId.value)
      requires clock.now + 120.0 >= limit
      modifies docker, clock
      ensures docker.log == old(docker.log) + es && AllTimed(es, Some(limit))
      ensures !Held(View()) ==> ending == Raised && es == []
      ensures Held(View()) ==>
        Follows(docker.pins, SqlPlan(containerId.value, text, want), es, ending, clock.now >= limit)
      ensures (out.Some? <==> ending == Returned) && (out.Some? ==> Printed(es) == out)
    {
      hide Completed, Stopped, Underway, Follows, AllTimed, Acceptable, Labels, IsId;
      var deadline := Some(limit);
      out := None;
      var status;
      ending, status, es := Inspect(Some(true), deadline);
      if !Held(View()) {
        return;
      }
      var id := containerId.value;
      ghost var p := InspectPlan(id, Some(true));
      ghost var identity, ask := Plain(Identity(id)), Ask(id, text, want);
      ghost var q := p + [identity];
      assert SqlPlan(id, text, want) == p + ([identity] + [ask]) == q + [ask] == q + [ask] + [];
      Length(docker.pins, p, es, ending, Late(clock.now, deadline));
      if status.None? {
        CutShort(docker.pins, p, es, [identity] + [ask], ending, Late(clock.now, deadline));
        return;
      }
      ghost var a;
      var r;
      ending, r, a := docker.Expect(Plain(Identity(id)), 5.0, clock, deadline, p, es, [ask]);
      es := es + a;
      if r.None? {
        return;
      }
      var u := clock.Read();
      if u < limit {
        u := clock.Read();
      }
      if u >= limit {
        ending := Raised;
        EndsAfter(docker.pins, q, es, [ask], ending, true);
        return;
      }
      ending, r, a := docker.Expect(Ask(id, text, want), limit - u, clock, deadline, q, es, []);
      es := es + a;
      if r.Some? {
        out := Some(r.value.stdout);
        assert es[|es| - 1] == a[0];
        Finished(docker.pins, q + [ask], es);
      }
    }

    /** SQL runs unless a readiness call is unfinished, within two minutes, and judges psql's answer. */
    method Sql(text: string, want: Option<Expectation>)
      returns (ending: Ending, out: Option<string>, ghost c: Episode)
      requires Valid()
      modifies this, docker, clock
      ensures Stepped(c) && c.req == RunSql(text, want) && c.ending == ending
      ensures (out.Some? <==> ending == Returned) && (out.Some? ==> Printed(c.sent) == out)
    {
      hide Lawful, Outcome, Follows, AllTimed, IsId;
      ending, out := Raised, None;
      Nothing(docker.pins, [], None);
      c := Episode(RunSql(text, want), [], ending, None, clock.now);
      if !failed && !readinessPending {
        var t := clock.Read();
        if want == None || IsState(want.value.state) {
          ghost var es;
          ending, out, es := TrySql(text, want, t + 120.0);
          c := Episode(RunSql(text, want), es, ending, Some(t + 120.0), clock.now);
          if ending == Raised {
            failed := true;
          }
        }
      }
      Continued(docker.pins, history, c);
      history := history + [c];
    }

    /** The engine is checked again before its list of containers counts as proof of removal. */
    method Gone(id: string) returns (ending: Ending, ghost es: seq<Exchange>)
      modifies docker, clock
      ensures docker.log == old(docker.log) + es && AllTimed(es, None)
      ensures Follows(docker.pins, PreflightPlan() + [Plain(List(id))], es, ending, false)
    {
      hide Completed, Stopped, Underway, Follows, AllTimed, Acceptable, Labels;
      ending, es := docker.Preflight(clock, None);
      ghost var list := [Plain(List(id))];
      Length(docker.pins, PreflightPlan(), es, ending, false);
      if ending != Returned {
        CutShort(docker.pins, PreflightPlan(), es, list, ending, false);
        return;
      }
      ghost var a;
      var r;
      assert PreflightPlan() + list + [] == PreflightPlan() + list;
      ending, r, a := docker.Expect(Plain(List(id)), 20.0, clock, None, PreflightPlan(), es, []);
      es := es + a;
      if ending == Returned {
        Finished(docker.pins, PreflightPlan() + list, es);
      }
    }

    method TryCleanup() returns (ending: Ending, ghost es: seq<Exchange>)
      requires containerId.Some? && IsId(containerId.value)
      modifies docker, clock
      ensures docker.log == old(docker.log) + es && AllTimed(es, None)
      ensures closed ==> ending == Raised && es == []
      ensures !closed ==>
        var id := containerId.value;
        Follows(docker.pins, CleanupPlan(id, Shown(docker.pins, id, es) == Some(Running)), es, ending, false)
    {
      hide Completed, Stopped, Underway, Follows, AllTimed, Acceptable, Labels, Seen, IsId, Shown;
      var status;
      ending, status, es := Inspect(None, None);
      if closed {
        return;
      }
      var id := containerId.value;
      var act := Plain(if status == Some(Running) then Command.Stop(id) else Command.Remove(id));
      ghost var p, last := InspectPlan(id, None), PreflightPlan() + [Plain(List(id))];
      Length(docker.pins, p, es, ending, false);
      if ending != Returned {
        ghost var shown := Shown(docker.pins, id, es) == Some(Running);
        ghost var rest := [Plain(if shown then Command.Stop(id) else Command.Remove(id))] + last;
        assert CleanupPlan(id, shown) == p + rest;
        CutShort(docker.pins, p, es, rest, ending, false);
        return;
      }
      assert CleanupPlan(id, status == Some(Running)) == p + ([act] + last) == p + [act] + last;
      ghost var a;
      var r;
      ending, r, a := docker.Expect(act, 20.0, clock, None, p, es, last);
      ShownKept(docker.pins, id, es, a);
      es := es + a;
      if ending != Returned {
        return;
      }
      ending, a := Gone(id);
      ShownKept(docker.pins, id, es, a);
      Then(docker.pins, p + [act], es, last, a, ending, false);
      AllTimedConcat(es, a, None);
      es := es + a;
    }

    /** Stops or removes exactly the acknowledged container, and closes only when it is gone. */
    method Cleanup() returns (ending: Ending, ghost c: Episode)
      requires Valid()
      modifies this, docker, clock
      ensures Stepped(c) && c.req == CleanUp && c.ending == ending
    {
      hide Lawful, Outcome, Follows, AllTimed, IsId;
      Nothing(docker.pins, [], None);
      ghost var es: seq<Exchange> := [];
      if containerId == None {
        ending := if createSubmitted then Raised else Returned;
      } else {
        ending, es := TryCleanup();
      }
      c := Episode(CleanUp, es, ending, None, clock.now);
      if ending == Returned {
        closed := true;
      }
      Continued(docker.pins, history, c);
      history := history + [c];
    }
  }
}
