/** The hands stated in their messages: what the last state sample, the last command and the clock decide of a tick. */
module HandSamples {
  import opened Numbers
  import opened Gates
  import opened MotorPipeline
  import opened Hands
  import opened HandLaws
  import Commands

  // A state sample m, received at t, lets a hand run at now: fresh, long enough, finite, slow and cool enough.
  predicate GoodSample(cfg: Config, m: seq<HandMotor>, t: real, now: real) {
    && now - t <= cfg.stateTimeout && |m| >= |cfg.joints|
    && forall i :: 0 <= i < |cfg.joints| ==> GoodFinger(m[i], cfg.joints[i].dqLimit, cfg.hottest)
  }

  predicate GoodFinger(m: HandMotor, dqLimit: real, hottest: real) {
    && IsFinite(m.q) && IsFinite(m.dq) && IsFinite(m.tauEst) && Within(m.dq.r, dqLimit)
    && forall c :: c in m.temperatures ==> c as real <= hottest
  }

  // A command message that is taken.
  predicate GoodMessage(cfg: Config, c: HandCmd) {
    && |c.cmds| == |cfg.joints| && IsFinite(c.duration) && c.duration.r >= 0.0
    && forall i :: 0 <= i < |c.cmds| ==> Commands.Sane(c.cmds[i])
  }

  lemma GoodMessageIff(cfg: Config, c: HandCmd)
    ensures GoodCmd(cfg, c) <==> GoodMessage(cfg, c)
  {
    forall i | 0 <= i < |c.cmds|
      ensures Commands.Accepted(c.cmds[i]) <==> Commands.Sane(c.cmds[i])
    {
      Commands.AcceptedIff(c.cmds[i]);
    }
  }

  lemma FingerIff(cfg: Config, m: HandMotor, j: Joint)
    ensures MotorOk(cfg, m, j) <==> GoodFinger(m, j.dqLimit, cfg.hottest)
  {}

  lemma SampleIff(cfg: Config, h: Hand, now: real)
    requires h.seen
    ensures StateOk(cfg, h, now) <==> GoodSample(cfg, h.state, h.stateTime, now)
  {
    if |h.state| >= |cfg.joints| {
      forall i | 0 <= i < |cfg.joints|
        ensures MotorOk(cfg, h.state[i], cfg.joints[i]) <==>
                GoodFinger(h.state[i], cfg.joints[i].dqLimit, cfg.hottest)
      {
        FingerIff(cfg, h.state[i], cfg.joints[i]);
      }
    }
  }

  // --- Runs of messages --------------------------------------------------------------------------------------

  // Event a is the last state message for a side.
  ghost predicate LastSample(es: seq<Event>, a: nat, side: Side) {
    && a < |es| && es[a].StateMsg? && es[a].side == side
    && forall k :: a < k < |es| ==> !(es[k].StateMsg? && es[k].side == side)
  }

  // The hand remembers exactly the last sample.
  lemma {:induction false} SampleLasts(w: Setup, p: Pair, es: seq<Event>, a: nat, side: Side)
    requires GoodSetup(w) && BothSized(w, p) && LastSample(es, a, side)
    ensures var h := HandOf(AfterAll(w, p, es), side); h.seen && h.state == es[a].state && h.stateTime == es[a].at
  {
    var n := |es| - 1;
    SampleStep(w, AfterAll(w, p, es[..n]), es[n], side);
    if a < n {
      SampleLasts(w, p, es[..n], a, side);
    }
  }

  lemma SampleStep(w: Setup, p: Pair, e: Event, side: Side)
    requires GoodSetup(w) && BothSized(w, p)
    ensures var h, r := HandOf(p, side), HandOf(After(w, p, e), side);
      if e.StateMsg? && e.side == side then r.seen && r.state == e.state && r.stateTime == e.at
      else r.seen == h.seen && r.state == h.state && r.stateTime == h.stateTime
  {}

  // What starts or restarts a hand's watchdog: a start, or a command for it.
  predicate Restarts(e: Event, side: Side) {
    e.Start? || (e.Command? && e.side == side)
  }

  lemma {:induction false} DeadlineLasts(w: Setup, p: Pair, es: seq<Event>, b: nat, side: Side)
    requires GoodSetup(w) && BothSized(w, p) && b <= |es|
    requires forall k :: b <= k < |es| ==> !Restarts(es[k], side)
    ensures HandOf(AfterAll(w, p, es), side).tValid == HandOf(AfterAll(w, p, es[..b]), side).tValid
  {
    var n := |es| - 1;
    if b <= n {
      assert es[..n][..b] == es[..b];
      DeadlineLasts(w, p, es[..n], b, side);
      DeadlineStep(w, AfterAll(w, p, es[..n]), es[n], side);
    } else {
      assert es[..b] == es;
    }
  }

  lemma DeadlineStep(w: Setup, p: Pair, e: Event, side: Side)
    requires GoodSetup(w) && BothSized(w, p) && !Restarts(e, side)
    ensures HandOf(After(w, p, e), side).tValid == HandOf(p, side).tValid
  {}

  // Event b is the last command for a live hand, and is taken.
  ghost predicate LastCommand(w: Setup, p: Pair, es: seq<Event>, b: nat, side: Side)
    requires GoodSetup(w) && BothSized(w, p)
  {
    && b < |es| && es[b].Command? && es[b].side == side && GoodMessage(ConfigOf(w, side), es[b].cmd)
    && AfterAll(w, p, es[..b]).started && HandOf(AfterAll(w, p, es[..b]), side).live
    && forall k :: b < k < |es| ==> !Restarts(es[k], side)
  }

  lemma CommandDeadline(w: Setup, p: Pair, es: seq<Event>, b: nat, side: Side)
    requires GoodSetup(w) && BothSized(w, p) && LastCommand(w, p, es, b, side)
    ensures var h, c := HandOf(AfterAll(w, p, es), side), es[b];
      h.tValid == if c.cmd.hold then Never else By(c.at + c.cmd.duration.r + 0.2)
  {
    GoodMessageIff(ConfigOf(w, side), es[b].cmd);
    DeadlineLasts(w, p, es, b + 1, side);
    assert es[..b + 1][..b] == es[..b];
  }

  // Event b is the last start or command for a hand, and a start that finds a good sample.
  ghost predicate LastStart(w: Setup, p: Pair, es: seq<Event>, b: nat, side: Side)
    requires GoodSetup(w) && BothSized(w, p)
  {
    && b < |es| && es[b].Start? && HandOf(AfterAll(w, p, es[..b + 1]), side).live
    && forall k :: b < k < |es| ==> !Restarts(es[k], side)
  }

  lemma StartDeadline(w: Setup, p: Pair, es: seq<Event>, b: nat, side: Side)
    requires GoodSetup(w) && BothSized(w, p) && LastStart(w, p, es, b, side)
    ensures HandOf(AfterAll(w, p, es), side).tValid == Never
  {
    DeadlineLasts(w, p, es, b + 1, side);
    assert es[..b + 1][..b] == es[..b];
  }

  // The last thing a hand was sent is a live frame.
  predicate LiveLast(h: Hand) {
    h.sent != [] && h.sent[|h.sent| - 1].Live?
  }

  // A tick of a live hand, after any run of messages and ticks: it goes on exactly if the bridge is not latched, the
  // last sample is good, and its last command, if it was not to hold, is over for at most 0.2 s.
  lemma CommandedHandGoesOnIff(w: Setup, p: Pair, es: seq<Event>, a: nat, b: nat, side: Side, latched: bool, now: real)
    requires GoodSetup(w) && BothSized(w, p) && LastSample(es, a, side) && LastCommand(w, p, es, b, side)
    requires AfterAll(w, p, es).started && HandOf(AfterAll(w, p, es), side).live
    ensures LiveLast(HandOf(After(w, AfterAll(w, p, es), Timer(latched, now)), side)) <==>
            && !latched && GoodSample(ConfigOf(w, side), es[a].state, es[a].at, now)
            && (es[b].cmd.hold || now <= es[b].at + es[b].cmd.duration.r + 0.2)
  {
    SampleLasts(w, p, es, a, side);
    CommandDeadline(w, p, es, b, side);
    SampleIff(ConfigOf(w, side), HandOf(AfterAll(w, p, es), side), now);
  }

  // A started hand without a command holds its pose for ever.
  lemma StartedHandGoesOnIff(w: Setup, p: Pair, es: seq<Event>, a: nat, b: nat, side: Side, latched: bool, now: real)
    requires GoodSetup(w) && BothSized(w, p) && LastSample(es, a, side) && LastStart(w, p, es, b, side)
    requires AfterAll(w, p, es).started && HandOf(AfterAll(w, p, es), side).live
    ensures LiveLast(HandOf(After(w, AfterAll(w, p, es), Timer(latched, now)), side)) <==>
            !latched && GoodSample(ConfigOf(w, side), es[a].state, es[a].at, now)
  {
    SampleLasts(w, p, es, a, side);
    StartDeadline(w, p, es, b, side);
    SampleIff(ConfigOf(w, side), HandOf(AfterAll(w, p, es), side), now);
  }

  // A start makes a hand live exactly on a good sample, and turns hand control on if it did so for either.
  lemma StartsOnGoodSampleIff(w: Setup, p: Pair, es: seq<Event>, a: nat, side: Side, now: real)
    requires GoodSetup(w) && BothSized(w, p) && LastSample(es, a, side)
    ensures var q := After(w, AfterAll(w, p, es), Start(now));
      && (HandOf(q, side).live <==> GoodSample(ConfigOf(w, side), es[a].state, es[a].at, now))
      && (q.started <==> q.left.live || q.right.live)
  {
    SampleLasts(w, p, es, a, side);
    SampleIff(ConfigOf(w, side), HandOf(AfterAll(w, p, es), side), now);
  }

  // A command moves nothing but a live hand of hand control that is on, and only if it is good.
  lemma OnlyGoodMessagesCount(w: Setup, p: Pair, side: Side, c: HandCmd, at: real)
    requires GoodSetup(w) && BothSized(w, p)
    requires !(p.started && HandOf(p, side).live && GoodMessage(ConfigOf(w, side), c))
    ensures After(w, p, Command(side, c, at)) == p
  {
    GoodMessageIff(ConfigOf(w, side), c);
  }

  // A released hand whose state is known is told to go slack where it is.
  lemma SlackWhereItIs(w: Setup, p: Pair, es: seq<Event>, a: nat, side: Side, latched: bool, now: real, i: nat)
    requires GoodSetup(w) && BothSized(w, p) && LastSample(es, a, side) && i < |ConfigOf(w, side).joints|
    requires AfterAll(w, p, es).started && !HandOf(AfterAll(w, p, es), side).live && now - es[a].at <= 1.2
    ensures var h := HandOf(After(w, AfterAll(w, p, es), Timer(latched, now)), side);
      && h.sent != [] && h.sent[|h.sent| - 1] == Limp(h.last) && i < |h.last|
      && h.last[i] == CmdN(if i < |es[a].state| && IsFinite(es[a].state[i].q) then es[a].state[i].q else Fin(0.0),
                           Fin(0.0), Fin(0.0), Fin(0.0), Fin(0.0))
  {
    SampleLasts(w, p, es, a, side);
  }

  // Once the hands are stopped nothing is sent to either, and nothing is live, until they are started again.
  lemma {:induction false} StoppedHandsAreSilent(w: Setup, p: Pair, es: seq<Event>, side: Side)
    requires GoodSetup(w) && BothSized(w, p) && es != [] && es[0].StopAll?
    requires forall k :: 0 < k < |es| ==> !es[k].Start?
    ensures var q := AfterAll(w, p, es); !q.started && !HandOf(q, side).live
    ensures es[|es| - 1].Timer? ==>
      var h := HandOf(AfterAll(w, p, es), side); h.sent != [] && h.sent[|h.sent| - 1] == Silent
  {
    var n := |es| - 1;
    assert es[..n] != [] ==> es[..n][0] == es[0];
    if n > 0 {
      StoppedHandsAreSilent(w, p, es[..n], side);
    }
    StoppedStep(w, AfterAll(w, p, es[..n]), es[n], side);
  }

  lemma StoppedStep(w: Setup, p: Pair, e: Event, side: Side)
    requires GoodSetup(w) && BothSized(w, p) && !e.Start?
    requires e.StopAll? || (!p.started && !HandOf(p, side).live)
    ensures var q := After(w, p, e); !q.started && !HandOf(q, side).live
    ensures e.Timer? ==> var h := HandOf(After(w, p, e), side); h.sent != [] && h.sent[|h.sent| - 1] == Silent
  {}
}
