/**
 The bounded Docker transport. What Docker answers is arbitrary; so is how much time passes between
 two readings of the clock.
 */
module Transport {
  import opened Text

  datatype Command =
    | Version | Info | Image
    | Create
    | Inspect(id: string)
    | Start(id: string)
    | PgIsReady(id: string)
    | Identity(id: string)
    | Psql(id: string, text: string)
    | Stop(id: string)
    | Remove(id: string)
    | List(id: string)

  /** Broken stands for a timeout, an operating system error and a completion without an integer code. */
  datatype Reply = Done(code: int, stdout: string, stderr: string) | Broken

  /** One command handed to the transport, the time limit it ran under and the clock before it was sent. */
  datatype Exchange = Exchange(cmd: Command, reply: Reply, timeout: real, at: real)

  datatype Status = Created | Running | Exited

  datatype Diagnosis = Diagnosis(errors: seq<(string, Option<string>)>, ambiguous: bool)

  /** The reviewed pins, seen as what they make of Docker's output: no reading means rejected. */
  datatype Pins = Pins(
    reviewed: bool,
    versions: string -> bool,
    engine: string -> bool,
    labels: string -> Option<string>,
    container: (string, string, string) -> Option<Status>,
    identity: string -> bool,
    diagnose: string -> Diagnosis)

  /** The SQLSTATE, and possibly the message, a statement has to fail with. */
  datatype Expectation = Expectation(state: string, message: Option<string>)

  predicate IsId(s: string) {
    |s| == 64 && forall i | 0 <= i < |s| :: '0' <= s[i] <= '9' || 'a' <= s[i] <= 'f'
  }

  // Plans: the commands a call sends as long as every answer is acceptable ---------------------------

  datatype Step =
    | Plain(cmd: Command)
    | Look(id: string, running: Option<bool>)
    | Wait(id: string)
    | Ask(id: string, text: string, want: Option<Expectation>)

  function Cmd(s: Step): Command {
    match s
    case Plain(cmd) => cmd
    case Look(id, _) => Inspect(id)
    case Wait(id) => PgIsReady(id)
    case Ask(id, text, _) => Psql(id, text)
  }

  /** A container that must not run yet has to be freshly created. */
  predicate Wanted(running: Option<bool>, s: Status) {
    running == None || s == if running.value then Running else Created
  }

  predicate Verdict(pins: Pins, want: Option<Expectation>, code: int, stderr: string) {
    match want
    case None => code == 0
    case Some(w) =>
      var d := pins.diagnose(stderr);
      && code == 3 && !d.ambiguous && |d.errors| == 1 && d.errors[0].0 == w.state
      && (w.message.Some? ==> d.errors[0].1 == w.message)
  }

  /** The status of the inspected container, read with the labels of the reviewed image. */
  function Seen(pins: Pins, id: string, labels: Option<string>, reply: Reply): Option<Status> {
    if reply.Done? && reply.code == 0 && labels.Some? then pins.container(labels.value, id, reply.stdout) else None
  }

  predicate Acceptable(pins: Pins, s: Step, labels: Option<string>, reply: Reply) {
    && reply.Done?
    && match s
       case Look(id, running) =>
         var status := Seen(pins, id, labels, reply);
         status.Some? && Wanted(running, status.value)
       case Wait(_) => reply.code in {1, 2}
       case Ask(_, _, want) => Verdict(pins, want, reply.code, reply.stderr)
       case Plain(cmd) =>
         && reply.code == 0
         && match cmd
            case Version => pins.versions(reply.stdout)
            case Info => pins.engine(reply.stdout)
            case Image => pins.labels(reply.stdout).Some?
            case Create => IsId(Strip(reply.stdout))
            case Identity(_) => pins.identity(reply.stdout)
            case List(_) => reply.stdout == ""
            case _ => true
  }

  /** The labels the last answer gives, if it was about the image. */
  function Labels(pins: Pins, es: seq<Exchange>): Option<string> {
    if es != [] && es[|es| - 1].reply.Done? then pins.labels(es[|es| - 1].reply.stdout) else None
  }

  predicate Passed(pins: Pins, plan: seq<Step>, es: seq<Exchange>, i: nat)
    requires i < |es| && i < |plan|
  {
    es[i].cmd == Cmd(plan[i]) && Acceptable(pins, plan[i], Labels(pins, es[..i]), es[i].reply)
  }

  predicate Completed(pins: Pins, plan: seq<Step>, es: seq<Exchange>) {
    |es| == |plan| && forall i | 0 <= i < |es| :: Passed(pins, plan, es, i)
  }

  /** The last answer was refused, and nothing was sent after it. */
  predicate Stopped(pins: Pins, plan: seq<Step>, es: seq<Exchange>) {
    && 0 < |es| <= |plan|
    && Completed(pins, plan[..|es| - 1], es[..|es| - 1])
    && es[|es| - 1].cmd == Cmd(plan[|es| - 1])
    && !Passed(pins, plan, es, |es| - 1)
  }

  /** Everything so far was accepted, and something remains to be sent or checked. */
  predicate Underway(pins: Pins, plan: seq<Step>, es: seq<Exchange>) {
    |es| <= |plan| && Completed(pins, plan[..|es|], es)
  }

  /** How a call ends: normally, with a harness error, or by anything else, such as an interrupt. */
  datatype Ending = Returned | Raised | Aborted

  /** A call that follows its plan: it returns exactly when the plan completes, and raises only on a refused
      answer, on an unreviewed bootstrap command or when it is late. It may be aborted anywhere. */
  predicate Follows(pins: Pins, plan: seq<Step>, es: seq<Exchange>, ending: Ending, late: bool) {
    match ending
    case Returned => Completed(pins, plan, es) && !late
    case Raised => Stopped(pins, plan, es) || (Underway(pins, plan, es) && (late || (!pins.reviewed && es == [])))
    case Aborted => Stopped(pins, plan, es) || Underway(pins, plan, es)
  }

  function PreflightPlan(): seq<Step> {
    [Plain(Version), Plain(Info), Plain(Image)]
  }

  function InspectPlan(id: string, running: Option<bool>): seq<Step> {
    PreflightPlan() + [Look(id, running)]
  }

  /** A plan may be continued by one that does not start by reading its predecessor's answer. */
  predicate Fresh(plan: seq<Step>) {
    plan != [] ==> !plan[0].Look?
  }

  lemma PassedShift(pins: Pins, p: seq<Step>, a: seq<Exchange>, q: seq<Step>, b: seq<Exchange>, i: nat)
    requires |a| == |p| && Fresh(q) && i < |b| && i < |q|
    ensures Passed(pins, p + q, a + b, |a| + i) == Passed(pins, q, b, i)
  {
    assert (p + q)[|a| + i] == q[i] && (a + b)[|a| + i] == b[i];
    if i > 0 {
      assert (a + b)[..|a| + i] == a + b[..i];
    }
  }

  lemma PassedKept(pins: Pins, p: seq<Step>, a: seq<Exchange>, q: seq<Step>, b: seq<Exchange>, i: nat)
    requires i < |a| && i < |p|
    ensures Passed(pins, p + q, a + b, i) == Passed(pins, p, a, i)
  {
    assert (p + q)[i] == p[i] && (a + b)[i] == a[i] && (a + b)[..i] == a[..i];
  }

  lemma CompletedThen(pins: Pins, p: seq<Step>, a: seq<Exchange>, q: seq<Step>, b: seq<Exchange>)
    requires Completed(pins, p, a) && Completed(pins, q, b) && Fresh(q)
    ensures Completed(pins, p + q, a + b)
  {
    forall i | 0 <= i < |a + b|
      ensures Passed(pins, p + q, a + b, i)
    {
      if i < |a| {
        PassedKept(pins, p, a, q, b, i);
      } else {
        PassedShift(pins, p, a, q, b, i - |a|);
      }
    }
  }

  lemma Length(pins: Pins, plan: seq<Step>, es: seq<Exchange>, ending: Ending, late: bool)
    requires Follows(pins, plan, es, ending, late)
    ensures |es| <= |plan|
    ensures ending == Returned ==> Completed(pins, plan, es) && |es| == |plan| && !late
  {
  }

  /** Whatever the ending, the plan's commands were sent in order, each after its predecessors passed. */
  lemma InOrder(pins: Pins, plan: seq<Step>, es: seq<Exchange>, ending: Ending, late: bool)
    requires Follows(pins, plan, es, ending, late)
    ensures |es| <= |plan| && forall i | 0 <= i < |es| :: es[i].cmd == Cmd(plan[i])
    ensures forall i | 0 <= i < |es| - 1 :: Passed(pins, plan, es, i)
  {
    if ending != Returned && Stopped(pins, plan, es) {
      var n := |es| - 1;
      forall i | 0 <= i < n
        ensures Passed(pins, plan, es, i) && es[i].cmd == Cmd(plan[i])
      {
        assert Passed(pins, plan[..n], es[..n], i) && es[..n][..i] == es[..i];
      }
    } else if ending != Returned {
      assert es[..|es|] == es;
      forall i | 0 <= i < |es|
        ensures Passed(pins, plan, es, i) && es[i].cmd == Cmd(plan[i])
      {
        assert Passed(pins, plan[..|es|], es, i);
      }
    } else {
      forall i | 0 <= i < |es|
        ensures es[i].cmd == Cmd(plan[i])
      {
        assert Passed(pins, plan, es, i);
      }
    }
  }

  /** A completed plan continued by another. */
  lemma Then(pins: Pins, p: seq<Step>, a: seq<Exchange>, q: seq<Step>, b: seq<Exchange>, ending: Ending, late: bool)
    requires Completed(pins, p, a) && Follows(pins, q, b, ending, late) && Fresh(q)
    requires pins.reviewed || late || a == []
    ensures Follows(pins, p + q, a + b, ending, late)
  {
    if ending == Returned {
      CompletedThen(pins, p, a, q, b);
    } else if Stopped(pins, q, b) {
      var n := |b| - 1;
      CompletedThen(pins, p, a, q[..n], b[..n]);
      assert (p + q)[..|a| + n] == p + q[..n] && (a + b)[..|a| + n] == a + b[..n];
      PassedShift(pins, p, a, q, b, n);
      assert (a + b)[|a| + n] == b[n] && (p + q)[|a| + n] == q[n];
    } else {
      CompletedThen(pins, p, a, q[..|b|], b);
      assert (p + q)[..|a + b|] == p + q[..|b|];
    }
  }

  /** A plan that did not complete goes the same way when more steps were to come. */
  lemma CutShort(pins: Pins, p: seq<Step>, a: seq<Exchange>, q: seq<Step>, ending: Ending, late: bool)
    requires Follows(pins, p, a, ending, late) && ending != Returned
    ensures Follows(pins, p + q, a, ending, late)
  {
    if Stopped(pins, p, a) {
      var n := |a| - 1;
      assert (p + q)[..n] == p[..n] && (p + q)[n] == p[n];
    } else {
      assert (p + q)[..|a|] == p[..|a|];
    }
  }

  lemma Nothing(pins: Pins, plan: seq<Step>, deadline: Option<real>)
    ensures Completed(pins, [], []) && Underway(pins, plan, []) && AllTimed([], deadline)
  {
  }

  lemma Finished(pins: Pins, plan: seq<Step>, es: seq<Exchange>)
    requires Completed(pins, plan, es)
    ensures Follows(pins, plan, es, Returned, false)
  {
  }

  /** A completed plan whose call still ends, because time ran out before the next command or it was aborted. */
  lemma EndsAfter(pins: Pins, p: seq<Step>, a: seq<Exchange>, q: seq<Step>, ending: Ending, late: bool)
    requires Completed(pins, p, a) && ending != Returned && (ending == Raised ==> late)
    ensures Follows(pins, p + q, a, ending, late)
  {
    assert (p + q)[..|a|] == p;
  }

  /** One more command after a completed plan: either it is accepted, or the call ends here. */
  lemma Extended(pins: Pins, p: seq<Step>, a: seq<Exchange>, s: Step, b: seq<Exchange>, rest: seq<Step>,
                 ending: Ending, late: bool)
    requires Completed(pins, p, a) && (b == [] || (|b| == 1 && b[0].cmd == Cmd(s)))
    requires ending == Returned ==> |b| == 1 && Acceptable(pins, s, Labels(pins, a), b[0].reply)
    requires ending == Raised ==> late || (|b| == 1 && !Acceptable(pins, s, Labels(pins, a), b[0].reply))
    ensures ending == Returned ==> Completed(pins, p + [s], a + b)
    ensures ending != Returned ==> Follows(pins, p + [s] + rest, a + b, ending, late)
  {
    hide Acceptable;
    forall i | 0 <= i < |a|
      ensures Passed(pins, p + [s], a + b, i)
    {
      PassedKept(pins, p, a, [s], b, i);
    }
    if b == [] {
      assert (p + [s] + rest)[..|a|] == p && a + b == a;
    } else {
      assert (a + b)[|a|] == b[0] && (a + b)[..|a|] == a;
      assert (p + [s])[|a|] == s && (p + [s] + rest)[|a|] == s;
      assert (p + [s] + rest)[..|a|] == p && (a + b)[..|a|] == a;
      if Passed(pins, p + [s], a + b, |a|) {
        assert (p + [s] + rest)[..|a + b|] == p + [s];
      }
    }
  }

  // The clock and the transport ----------------------------------------------------------------------

  /** Whether something other than a harness error strikes here. */
  method Interrupted() returns (struck: bool)
  {
    struck := *;
  }

  class Clock {
    var now: real

    constructor ()
    {
      now := 0.0;
    }

    /** A monotone clock: any amount of time may have passed. */
    method Read() returns (t: real)
      modifies this
      ensures t == now && now >= old(now)
    {
      var elapsed: real := *;
      if elapsed > 0.0 {
        now := now + elapsed;
      }
      t := now;
    }

    method Sleep(duration: real)
      modifies this
      ensures now >= old(now) && now >= old(now) + duration
    {
      var oversleep: real := *;
      if duration > 0.0 {
        now := now + duration;
      }
      if oversleep > 0.0 {
        now := now + oversleep;
      }
    }
  }

  predicate Good(r: Reply, allowFailure: bool) {
    r.Done? && (allowFailure || r.code == 0)
  }

  /** The command ran under a positive limit no larger than the time that was left. */
  predicate Timed(e: Exchange, limit: real, deadline: Option<real>) {
    && 0.0 < e.timeout <= limit
    && match deadline
       case None => e.timeout == limit
       case Some(d) => e.timeout <= d - e.at
  }

  /** The most time a command is ever given. */
  function Cap(cmd: Command): real {
    if cmd.Psql? then 120.0 else if cmd.PgIsReady? || cmd.Identity? then 5.0 else 20.0
  }

  predicate AllTimed(es: seq<Exchange>, deadline: Option<real>) {
    forall i | 0 <= i < |es| :: Timed(es[i], Cap(es[i].cmd), deadline)
  }

  lemma AllTimedConcat(a: seq<Exchange>, b: seq<Exchange>, deadline: Option<real>)
    requires AllTimed(a, deadline) && AllTimed(b, deadline)
    ensures AllTimed(a + b, deadline)
  {
  }

  predicate Late(now: real, deadline: Option<real>) {
    deadline.Some? && now >= deadline.value
  }

  class Docker {
    const pins: Pins
    var imageLabels: string
    ghost var log: seq<Exchange>

    constructor (pins: Pins)
      ensures this.pins == pins && log == []
    {
      this.pins := pins;
      imageLabels := "";
      log := [];
    }

    method Invoke(cmd: Command, timeout: real, ghost at: real) returns (reply: Reply)
      modifies this`log
      ensures log == old(log) + [Exchange(cmd, reply, timeout, at)]
    {
      reply := *;
      log := log + [Exchange(cmd, reply, timeout, at)];
    }

    /** One command: refused when late, clipped to the time left, and failed unless Docker completed. It may be
        aborted before the command is handed over or before its answer is looked at. */
    method Call(cmd: Command, limit: real, allowFailure: bool, clock: Clock, deadline: Option<real>)
      returns (ending: Ending, r: Option<Reply>, ghost es: seq<Exchange>)
      requires 0.0 < limit <= 120.0
      modifies this`log, clock
      ensures log == old(log) + es && clock.now >= old(clock.now)
      ensures es == [] || (|es| == 1 && es[0].cmd == cmd && Timed(es[0], limit, deadline))
      ensures r.Some? <==> ending == Returned
      ensures r.Some? ==> |es| == 1 && es[0].reply == r.value && Good(r.value, allowFailure)
      ensures r.Some? ==> !Late(clock.now, deadline)
      ensures ending == Raised ==> Late(clock.now, deadline) || (|es| == 1 && !Good(es[0].reply, allowFailure))
    {
      es := [];
      ending, r := Raised, None;
      var timeout := limit;
      if deadline.Some? {
        var t := clock.Read();
        if t >= deadline.value {
          return;
        }
        var u := clock.Read();
        if deadline.value - u < timeout {
          timeout := deadline.value - u;
        }
        if timeout <= 0.0 {
          return;
        }
      }
      var struck := Interrupted();
      if struck {
        ending := Aborted;
        return;
      }
      ghost var at := clock.now;
      var reply := Invoke(cmd, timeout, at);
      es := [Exchange(cmd, reply, timeout, at)];
      struck := Interrupted();
      if struck {
        ending := Aborted;
        return;
      }
      if deadline.Some? {
        var t := clock.Read();
        if t >= deadline.value {
          return;
        }
      }
      if !reply.Done? || (!allowFailure && reply.code != 0) {
        return;
      }
      ending, r := Returned, Some(reply);
    }

    /** One command and the judgement of its answer, as the next step of a plan. */
    method Expect(s: Step, limit: real, clock: Clock, deadline: Option<real>,
                  ghost p: seq<Step>, ghost a: seq<Exchange>, ghost rest: seq<Step>)
      returns (ending: Ending, r: Option<Reply>, ghost es: seq<Exchange>)
      requires 0.0 < limit <= Cap(Cmd(s)) && (deadline == None ==> limit == Cap(Cmd(s)))
      requires Completed(pins, p, a) && AllTimed(a, deadline)
      requires s.Look? ==> Labels(pins, a) == Some(imageLabels)
      modifies this`log, clock
      ensures log == old(log) + es && clock.now >= old(clock.now)
      ensures AllTimed(a + es, deadline) && (es == [] || (|es| == 1 && es[0].cmd == Cmd(s)))
      ensures r.Some? <==> ending == Returned
      ensures r.Some? ==> |es| == 1 && es[0].reply == r.value && r.value.Done? && !Late(clock.now, deadline)
      ensures r.Some? ==> Completed(pins, p + [s], a + es) && Acceptable(pins, s, Labels(pins, a), r.value)
      ensures r.None? ==> Follows(pins, p + [s] + rest, a + es, ending, Late(clock.now, deadline))
      ensures deadline == None && ending == Raised ==>
        |es| == 1 && !Acceptable(pins, s, Labels(pins, a), es[0].reply)
    {
      hide Completed, Follows;
      ending, r, es := Call(Cmd(s), limit, s.Ask? || s.Wait?, clock, deadline);
      if r.Some? && deadline.Some? {
        var t := clock.Read();
        if t >= deadline.value {
          ending, r := Raised, None;
        }
      }
      if r.Some? && !Acceptable(pins, s, Some(imageLabels), r.value) {
        ending, r := Raised, None;
      }
      Extended(pins, p, a, s, es, rest, ending, Late(clock.now, deadline));
      AllTimedConcat(a, es, deadline);
    }

    /** Client and server versions, engine and image are checked before anything else. */
    method Preflight(clock: Clock, deadline: Option<real>) returns (ending: Ending, ghost es: seq<Exchange>)
      modifies this, clock
      ensures log == old(log) + es && clock.now >= old(clock.now) && AllTimed(es, deadline)
      ensures Follows(pins, PreflightPlan(), es, ending, Late(clock.now, deadline))
      ensures ending == Returned ==> pins.reviewed && Labels(pins, es) == Some(imageLabels)
    {
      hide Acceptable, Completed, Stopped, Underway, AllTimed, Labels;
      ending, es := Raised, [];
      Nothing(pins, PreflightPlan(), deadline);
      if !pins.reviewed {
        return;
      }
      var v, i, m := Plain(Version), Plain(Info), Plain(Image);
      assert PreflightPlan() == [] + [v] + [i, m] == [] + [v] + [i] + [m] == [] + [v] + [i] + [m] + [];
      var r;
      ghost var a;
      ending, r, a := Expect(v, 20.0, clock, deadline, [], es, [i, m]);
      es := es + a;
      if r.None? {
        return;
      }
      ending, r, a := Expect(i, 20.0, clock, deadline, [] + [v], es, [m]);
      es := es + a;
      if r.None? {
        return;
      }
      ghost var labels := Labels(pins, es);
      ending, r, a := Expect(m, 20.0, clock, deadline, [] + [v] + [i], es, []);
      es := es + a;
      if r.None? {
        return;
      }
      ImageLabels(pins, es, r.value, labels);
      imageLabels := pins.labels(r.value.stdout).value;
    }
  }

  lemma ImageLabels(pins: Pins, es: seq<Exchange>, r: Reply, labels: Option<string>)
    requires es != [] && es[|es| - 1].reply == r && Acceptable(pins, Plain(Image), labels, r)
    ensures r.Done? && pins.labels(r.stdout).Some? && Labels(pins, es) == pins.labels(r.stdout)
  {
  }
}
