/** Two lawful runs: SQL that nobody asked readiness for, and a latch that is set without a failure. */
module LifecycleRuns {
  import opened Text
  import opened Transport
  import opened Lifecycle

  function Zeros(n: nat): string {
    if n == 0 then "" else "0" + Zeros(n - 1)
  }

  function Id(): string {
    Zeros(64)
  }

  lemma {:induction false} AllZeros(n: nat)
    ensures |Zeros(n)| == n && forall i | 0 <= i < n :: Zeros(n)[i] == '0'
  {
    if n > 0 {
      AllZeros(n - 1);
    }
  }

  lemma IdStands()
    ensures IsId(Id()) && Strip(Id()) == Id()
  {
    AllZeros(64);
    hide Zeros, Strip;
    assert "" + Id() + "" == Id();
    StripUnique(Id(), "", Id(), "");
  }

  /** Pins that accept everything; a container runs if its inspection says so. */
  function Lenient(): Pins {
    Pins(true, s => true, s => true, s => Some(""), (l, i, s) => Some(if s == "running" then Running else Created),
         s => true, s => Diagnosis([], false))
  }

  function AnswerTo(s: Step): Reply {
    match s
    case Look(_, Some(true)) => Done(0, "running", "")
    case Wait(_) => Done(1, "", "")
    case Plain(Create) => Done(0, Id(), "")
    case _ => Done(0, "", "")
  }

  /** Every command of the plan, answered as wanted. */
  function Play(plan: seq<Step>): seq<Exchange> {
    seq(|plan|, i requires 0 <= i < |plan| => Exchange(Cmd(plan[i]), AnswerTo(plan[i]), Cap(Cmd(plan[i])), 0.0))
  }

  lemma Played(plan: seq<Step>)
    requires Fresh(plan) && forall i | 0 <= i < |plan| && plan[i].Ask? :: plan[i].want == None
    ensures Completed(Lenient(), plan, Play(plan)) && AllTimed(Play(plan), None) && AllTimed(Play(plan), Some(120.0))
  {
    forall i | 0 <= i < |plan|
      ensures Passed(Lenient(), plan, Play(plan), i)
    {
      PlayedAt(plan, i);
    }
    hide Passed, Lenient;
  }

  lemma PlayedAt(plan: seq<Step>, i: nat)
    requires Fresh(plan) && i < |plan| && (plan[i].Ask? ==> plan[i].want == None)
    ensures Passed(Lenient(), plan, Play(plan), i)
  {
    IdStands();
    hide Strip, IsId;
    var es := Play(plan);
    if i > 0 {
      assert es[..i][|es[..i]| - 1] == es[i - 1];
    }
  }

  function Creation(): Episode {
    Episode(CreateContainer, Play(CreatePlan(Id())), Returned, None, 0.0, true, true)
  }

  function Starting(): Episode {
    Episode(StartContainer, Play(StartPlan(Id())), Returned, None, 0.0)
  }

  function Up(): State {
    State(Some(Id()), false, false, true, true, false)
  }

  /** A container is created and started. */
  lemma Begun() returns (h: seq<Episode>)
    ensures h == [Creation(), Starting()] && Lawful(Lenient(), h) && Outcome(h) == Up()
  {
    h := [Creation()];
    CreateLegal();
    Continued(Lenient(), [], Creation());
    assert [] + h == h;
    StartLegal();
    Continued(Lenient(), h, Starting());
    h := h + [Starting()];
  }

  lemma CreateLegal()
    ensures Legal(Lenient(), INITIAL, Creation()) && Answer(Creation().sent) == Id()
  {
    CreateAnswered();
    Played(CreatePlan(Id()));
    hide Strip, IsId, Completed, AllTimed, Play, CreatePlan;
  }

  lemma CreateAnswered()
    ensures var es := Play(CreatePlan(Id())); |es| > 4 && Answer(es) == Id() && Acknowledges(es)
  {
    IdStands();
    hide Strip, IsId, Zeros;
  }

  lemma StartLegal()
    ensures Legal(Lenient(), Up(), Starting())
  {
    Played(StartPlan(Id()));
    hide Completed, AllTimed;
  }

  /** SQL is sent in a lawful run in which readiness was never asked for. */
  lemma SqlUnasked(text: string) returns (h: seq<Episode>)
    ensures Lawful(Lenient(), h) && |h| == 3 && h[2].req == RunSql(text, None) && h[2].sent != []
    ensures forall i | 0 <= i < |h| :: !h[i].req.AwaitReady?
  {
    h := Begun();
    hide *;
    SqlLegal(text);
    Continued(Lenient(), h, Asking(text));
    h := h + [Asking(text)];
  }

  function Asking(text: string): Episode {
    Episode(RunSql(text, None), Play(SqlPlan(Id(), text, None)), Returned, Some(120.0), 0.0)
  }

  lemma SqlLegal(text: string)
    ensures Legal(Lenient(), Up(), Asking(text)) && Asking(text).sent != [] && Asking(text).req == RunSql(text, None)
    ensures !Creation().req.AwaitReady? && !Starting().req.AwaitReady?
  {
    Played(SqlPlan(Id(), text, None));
    hide Completed, AllTimed;
  }

  /** A readiness call is interrupted: the session has not failed, but its latch is set. */
  lemma LatchWithoutFailure() returns (h: seq<Episode>)
    ensures Lawful(Lenient(), h) && Outcome(h).pending && !Outcome(h).failed
  {
    h := Begun();
    hide *;
    WaitLegal();
    Continued(Lenient(), h, Waiting());
    h := h + [Waiting()];
  }

  function Waiting(): Episode {
    Episode(AwaitReady(60.0), [], Aborted, Some(60.0), 0.0)
  }

  lemma WaitLegal()
    ensures Legal(Lenient(), Up(), Waiting()) && After(Up(), Waiting()).pending && !After(Up(), Waiting()).failed
  {
    Nothing(Lenient(), ReadyPlan(Id(), 0), Some(60.0));
    assert Follows(Lenient(), ReadyPlan(Id(), 0), [], Aborted, false);
    hide Follows;
  }
}
