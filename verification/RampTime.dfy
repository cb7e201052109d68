/** Ramps in time: where a command of the body or of a hand stands at every moment, from the moment it was taken. Stated
in seconds; Ramp only says in which order a ramp is run through.
*/
module RampTime {
  import opened Numbers
  import opened Gates
  import opened MotorPipeline
  import opened PipelineLaws
  import opened RobotRamp
  import Commands
  import Hands
  import Ramp

  // A field that goes from one value to another in d seconds from t0 on, at now; a ramp of no time is over at once.
  function InTime(from: real, to: real, t0: real, d: real, now: real): real {
    if d <= 0.000001 || now >= t0 + d then to
    else if now <= t0 then from
    else from + (to - from) * ((now - t0) / d)
  }

  lemma QuotientInUnit(x: real, d: real)
    requires d > 0.0
    ensures x <= 0.0 ==> x / d <= 0.0
    ensures x >= d ==> x / d >= 1.0
    ensures 0.0 <= x <= d ==> 0.0 <= x / d <= 1.0
  {
    ScaledQuotient(x, d);
    ScaledOrder(d, x / d, 0.0);
    ScaledOrder(d, 0.0, x / d);
    ScaledOrder(d, x / d, 1.0);
    ScaledOrder(d, 1.0, x / d);
  }

  lemma LineInTime(from: real, to: real, t0: real, d: real, now: real)
    ensures Ramp.At(Ramp.From(from, to), Ramp.Phase(now, t0, t0 + d)) == InTime(from, to, t0, d, now)
  {
    Ramp.LineEnds(from, to);
    if d > 0.000001 {
      QuotientInUnit(now - t0, d);
    }
  }

  lemma LineInTimeN(from: Num, to: Num, t0: real, d: real, now: real)
    requires IsFinite(from) && IsFinite(to)
    ensures AtN(FromN(from, to), Ramp.Phase(now, t0, t0 + d)) == Fin(InTime(from.r, to.r, t0, d, now))
  {
    LineInTime(from.r, to.r, t0, d, now);
  }

  // --- The body ---------------------------------------------------------------------------------------------

  // Nothing cuts a target q of joint j that is ramped from lastCommand_ at last: it is in range and within one step.
  predicate Reaches(j: Joint, dt: real, last: real, q: real) {
    && j.qMin <= q <= j.qMax
    && (j.qRateLimit > 0.0 && dt > 0.0 ==> -(j.qRateLimit * dt) <= q - last <= j.qRateLimit * dt)
  }

  lemma ReachedTarget(q: real, last: real, j: Joint, dt: real)
    requires Reaches(j, dt, last, q)
    ensures LimitTargetN(Fin(q), Fin(last), j, dt) == Fin(q)
  {
    assert StepSize(j.qRateLimit, dt) == j.qRateLimit * dt;
  }

  // What the target t of joint j is on its way from one command to another.
  ghost predicate OnTheWay(t: CmdN, from: Cmd, to: Cmd, j: Joint, dt: real, last: Num, t0: real, d: real, now: real) {
    var q, dq := InTime(from.q, to.q, t0, d, now), InTime(from.dq, to.dq, t0, d, now);
    && t.kp == Fin(InTime(from.kp, to.kp, t0, d, now)) && t.kd == Fin(InTime(from.kd, to.kd, t0, d, now))
    && t.tau == Fin(to.tau)
    && (Within(dq, j.dqLimit) ==> t.dq == Fin(dq))
    && (IsFinite(last) && Reaches(j, dt, last.r, q) ==> t.q == Fin(q))
  }

  lemma TargetOnTheWay(from: Cmd, to: Cmd, last: CmdN, j: Joint, dt: real, t0: real, d: real, now: real)
    ensures OnTheWay(TargetN(1.0, ParamsFor(1.0, Exact(to), Exact(from)), Ramp.Phase(now, t0, t0 + d), last, j, dt),
                     from, to, j, dt, last.q, t0, d, now)
  {
    LineInTimeN(Fin(from.kp), Fin(to.kp), t0, d, now);
    LineInTimeN(Fin(from.kd), Fin(to.kd), t0, d, now);
    HoldsLine(to.tau, Ramp.Phase(now, t0, t0 + d));
    SpeedOnTheWay(from.dq, to.dq, last.dq, j, t0, d, now);
    PositionOnTheWay(from.q, to.q, last.q, j, dt, t0, d, now);
  }

  lemma SpeedOnTheWay(from: real, to: real, last: Num, j: Joint, t0: real, d: real, now: real)
    ensures Within(InTime(from, to, t0, d, now), j.dqLimit) ==>
      BoundN(InterpolatedN(1.0, FromN(Fin(from), Fin(to)), Ramp.Phase(now, t0, t0 + d), last), j.dqLimit)
      == Fin(InTime(from, to, t0, d, now))
  {
    LineInTimeN(Fin(from), Fin(to), t0, d, now);
  }

  lemma PositionOnTheWay(from: real, to: real, last: Num, j: Joint, dt: real, t0: real, d: real, now: real)
    ensures IsFinite(last) && Reaches(j, dt, last.r, InTime(from, to, t0, d, now)) ==>
      LimitTargetN(InterpolatedN(1.0, FromN(Fin(from), Fin(to)), Ramp.Phase(now, t0, t0 + d), last), last, j, dt)
      == Fin(InTime(from, to, t0, d, now))
  {
    LineInTimeN(Fin(from), Fin(to), t0, d, now);
    var q := InTime(from, to, t0, d, now);
    if IsFinite(last) && Reaches(j, dt, last.r, q) {
      ReachedTarget(q, last.r, j, dt);
    }
  }

  // A command of order 1 taken at t0: at every later tick each joint is on the way from what it was last sent to what
  // is asked, in its duration.
  lemma BodyInTime(b: Body, s: State, duration: real, hold: bool, t0: real, es: seq<Event>, now: real, i: nat)
    requires Shaped(b, s) && i < |b.joints| && FiniteCommand(s.last[i]) && FiniteCommand(s.desired[i])
    requires OnlyTicks(b, AfterInterpolation(b, s, duration, 1.0, hold, t0), es, i)
    ensures var r := AfterAll(b, AfterInterpolation(b, s, duration, 1.0, hold, t0), es);
      OnTheWay(Targets(b, r, now)[i], RealCmd(s.last[i]), RealCmd(s.desired[i]), b.joints[i], b.dt, r.last[i].q, t0,
               duration, now)
  {
    var p := AfterInterpolation(b, s, duration, 1.0, hold, t0);
    TicksKeepCommand(b, p, es, i);
    TargetOnTheWay(RealCmd(s.last[i]), RealCmd(s.desired[i]), AfterAll(b, p, es).last[i], b.joints[i], b.dt, t0,
                   duration, now);
  }

  // A command of any other order: itself, or filtered by the orders strictly inside, which leave of the last value the
  // part the order says.
  function Filtered(order: real, last: real, to: real): real {
    if 0.000001 < order < 1.0 - 0.000001 then last * order + to * (1.0 - order) else to
  }

  lemma FilteredN(order: real, last: real, to: real, phase: real)
    ensures InterpolatedN(order, ConstantN(Fin(to)), phase, Fin(last)) == Fin(Filtered(order, last, to))
  {
    HoldsLine(to, phase);
  }

  // Its gains and feedforward go out at once, whenever the tick.
  ghost predicate AtOnce(t: CmdN, to: Cmd, order: real, j: Joint, dt: real, last: CmdN) {
    && t.kp == Fin(to.kp) && t.kd == Fin(to.kd) && t.tau == Fin(to.tau)
    && (FiniteCommand(last) ==>
          var q, dq := Filtered(order, last.q.r, to.q), Filtered(order, last.dq.r, to.dq);
          && (Within(dq, j.dqLimit) ==> t.dq == Fin(dq))
          && (Reaches(j, dt, last.q.r, q) ==> t.q == Fin(q)))
  }

  lemma TargetAtOnce(order: real, to: Cmd, from: CmdN, phase: real, last: CmdN, j: Joint, dt: real)
    requires order < 1.0
    ensures AtOnce(TargetN(order, ParamsFor(order, Exact(to), from), phase, last, j, dt), to, order, j, dt, last)
  {
    HoldsLine(to.kp, phase);
    HoldsLine(to.kd, phase);
    HoldsLine(to.tau, phase);
    if FiniteCommand(last) {
      FilteredN(order, last.q.r, to.q, phase);
      FilteredN(order, last.dq.r, to.dq, phase);
      var q := Filtered(order, last.q.r, to.q);
      if Reaches(j, dt, last.q.r, q) {
        ReachedTarget(q, last.q.r, j, dt);
      }
    }
  }

  lemma HoldsLine(x: real, phase: real)
    ensures AtN(ConstantN(Fin(x)), phase) == Fin(x)
  {}

  lemma BodyAtOnce(b: Body, s: State, duration: real, order: real, hold: bool, t0: real, es: seq<Event>, now: real,
      i: nat)
    requires Shaped(b, s) && i < |b.joints| && FiniteCommand(s.desired[i]) && 0.0 <= order < 1.0
    requires OnlyTicks(b, AfterInterpolation(b, s, duration, order, hold, t0), es, i)
    ensures var r := AfterAll(b, AfterInterpolation(b, s, duration, order, hold, t0), es);
      AtOnce(Targets(b, r, now)[i], RealCmd(s.desired[i]), order, b.joints[i], b.dt, r.last[i])
  {
    var p := AfterInterpolation(b, s, duration, order, hold, t0);
    TicksKeepCommand(b, p, es, i);
    TargetAtOnce(order, RealCmd(s.desired[i]), s.last[i], Ramp.Phase(now, t0, p.tFinal), AfterAll(b, p, es).last[i],
                 b.joints[i], b.dt);
  }

  // --- The hands --------------------------------------------------------------------------------------------

  // The live frame f of joint j is on its way from one command to another.
  predicate FingerOnTheWay(f: CmdN, from: CmdN, to: CmdN, j: Joint, t0: real, d: real, now: real)
    requires FiniteCommand(from) && FiniteCommand(to)
  {
    && f.kp == Fin(InTime(from.kp.r, to.kp.r, t0, d, now)) && f.kd == Fin(InTime(from.kd.r, to.kd.r, t0, d, now))
    && f.dq == Fin(InTime(from.dq.r, to.dq.r, t0, d, now)) && f.tau == to.tau
    && f.q == Fin(Clamp(InTime(from.q.r, to.q.r, t0, d, now), j.qMin, j.qMax))
  }

  lemma FingerInTime(from: CmdN, to: CmdN, j: Joint, t0: real, d: real, now: real)
    requires FiniteCommand(from) && FiniteCommand(to)
    ensures var f := Hands.LiveEntry(Hands.RampTo(from, to), Ramp.Phase(now, t0, t0 + d), j);
      FingerOnTheWay(f, from, to, j, t0, d, now)
  {
    LineInTimeN(from.q, to.q, t0, d, now);
    LineInTimeN(from.dq, to.dq, t0, d, now);
    LineInTimeN(from.kp, to.kp, t0, d, now);
    LineInTimeN(from.kd, to.kd, t0, d, now);
    HoldsLine(to.tau.r, Ramp.Phase(now, t0, t0 + d));
  }

  // A start ramps like a command to the ready pose.
  lemma StartIsRamp(from: CmdN, to: CmdN)
    requires FiniteCommand(from) && FiniteCommand(to) && to.dq == to.tau == ZERO
    ensures Hands.StartRamp(from, to) == Hands.RampTo(from, to)
  {}

  // r is the hand h after ticks and state messages: its ramp is still that of h.
  predicate SameRamp(h: Hands.Hand, r: Hands.Hand) {
    r.params == h.params && r.tStart == h.tStart && r.tFinal == h.tFinal
  }

  // A tick at now that leaves hand r live sends the frame f.
  ghost predicate SendsFrame(cfg: Hands.Config, r: Hands.Hand, now: real, f: seq<CmdN>)
    requires Hands.Sized(cfg, r)
  {
    Hands.AfterTimer(cfg, true, r, false, now).sent == r.sent + [Hands.Live(f)] && |f| == |cfg.joints|
  }

  // A command taken at t0: every live frame after it has each finger on the way from its last frame to the stored
  // command, in the command's duration.
  lemma HandInTime(cfg: Hands.Config, h: Hands.Hand, c: Hands.HandCmd, t0: real, r: Hands.Hand, now: real)
    requires Hands.LoadedHand(cfg) && Hands.Sized(cfg, h) && Hands.Sized(cfg, r) && h.live && Hands.GoodCmd(cfg, c)
    requires FiniteFrame(h.last)
    requires SameRamp(Hands.AfterCmd(cfg, true, h, c, t0), r) && Hands.StaysLive(cfg, r, false, now)
    ensures exists f :: SendsFrame(cfg, r, now, f) && forall i :: 0 <= i < |f| ==>
      FiniteCommand(Hands.Stored(c.cmds[i], cfg.joints[i], cfg.gains)) &&
      FingerOnTheWay(f[i], h.last[i], Hands.Stored(c.cmds[i], cfg.joints[i], cfg.gains), cfg.joints[i], t0,
                     c.duration.r, now)
  {
    var f := Hands.Frame(cfg, r, false, now);
    assert SendsFrame(cfg, r, now, f);
    forall i | 0 <= i < |f|
      ensures FiniteCommand(Hands.Stored(c.cmds[i], cfg.joints[i], cfg.gains))
      ensures FingerOnTheWay(f[i], h.last[i], Hands.Stored(c.cmds[i], cfg.joints[i], cfg.gains), cfg.joints[i], t0,
                             c.duration.r, now)
    {
      assert Commands.Clampable(cfg.joints[i]);
      Commands.ClippedIsAdmissible(c.cmds[i], cfg.joints[i], cfg.gains);
      FingerInTime(h.last[i], Hands.Stored(c.cmds[i], cfg.joints[i], cfg.gains), cfg.joints[i], t0, c.duration.r, now);
    }
  }

  // Where a start ramps from: a live hand's last frame, any other hand's measured pose with no gain.
  function StartsFrom(started: bool, h: Hands.Hand, i: nat): CmdN
    requires i < |h.last| && i < |h.state|
  {
    if started && h.live then h.last[i] else CmdN(h.state[i].q, ZERO, ZERO, ZERO, ZERO)
  }

  function Ready(cfg: Hands.Config, i: nat): CmdN
    requires i < |cfg.joints| == |cfg.readyQ|
  {
    CmdN(Fin(cfg.readyQ[i]), ZERO, Fin(cfg.joints[i].kp), Fin(cfg.joints[i].kd), ZERO)
  }

  lemma StartedFinger(cfg: Hands.Config, started: bool, h: Hands.Hand, t0: real, r: Hands.Hand, now: real, i: nat)
    requires Hands.LoadedHand(cfg) && Hands.Sized(cfg, h) && Hands.Sized(cfg, r) && Hands.StateOk(cfg, h, t0)
    requires FiniteFrame(h.last) && SameRamp(Hands.AfterStart(cfg, started, h, t0), r) && i < |cfg.joints|
    ensures FiniteCommand(StartsFrom(started, h, i))
    ensures FingerOnTheWay(Hands.Frame(cfg, r, false, now)[i], StartsFrom(started, h, i), Ready(cfg, i), cfg.joints[i],
                           t0, cfg.rampTime, now)
  {
    assert Hands.MotorOk(cfg, h.state[i], cfg.joints[i]);
    var from, to := StartsFrom(started, h, i), Ready(cfg, i);
    StartIsRamp(from, to);
    assert r.params[i] == Hands.StartRamp(from, to);
    FingerInTime(from, to, cfg.joints[i], t0, cfg.rampTime, now);
  }

  // A start at t0: on the way to the ready pose, in the configured ramp time.
  lemma HandStartsInTime(cfg: Hands.Config, started: bool, h: Hands.Hand, t0: real, r: Hands.Hand, now: real)
    requires Hands.LoadedHand(cfg) && Hands.Sized(cfg, h) && Hands.Sized(cfg, r) && Hands.StateOk(cfg, h, t0)
    requires FiniteFrame(h.last)
    requires SameRamp(Hands.AfterStart(cfg, started, h, t0), r) && Hands.StaysLive(cfg, r, false, now)
    ensures exists f :: SendsFrame(cfg, r, now, f) && forall i :: 0 <= i < |f| ==>
      FiniteCommand(StartsFrom(started, h, i)) &&
      FingerOnTheWay(f[i], StartsFrom(started, h, i), Ready(cfg, i), cfg.joints[i], t0, cfg.rampTime, now)
  {
    var f := Hands.Frame(cfg, r, false, now);
    assert SendsFrame(cfg, r, now, f);
    forall i | 0 <= i < |f|
      ensures FiniteCommand(StartsFrom(started, h, i))
      ensures FingerOnTheWay(f[i], StartsFrom(started, h, i), Ready(cfg, i), cfg.joints[i], t0, cfg.rampTime, now)
    {
      StartedFinger(cfg, started, h, t0, r, now, i);
    }
  }
}
