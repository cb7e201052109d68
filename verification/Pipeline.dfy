/** The motor pipeline on whole robots and on every float (trackingFrame_, interpolationParams_,
initControl_'s seed, publishStopCommand_): the arrays the control thread rewrites each tick, with infinities and NaN.

The `...N` functions say what one joint's expressions make of any float; the `...Exact` lemmas show
that on finite values they are the functions of Gates and Ramp, so every bound proved there holds of
what `Pipeline` sends.
*/
module MotorPipeline {
  import opened Numbers
  import opened Gates
  import Ramp
  import Estop

  datatype CmdN = CmdN(q: Num, dq: Num, kp: Num, kd: Num, tau: Num)

  datatype MotorN = MotorN(q: Num, dq: Num)

  datatype LineN = LineN(at0: Num, rise: Num)

  datatype ParamsN = ParamsN(q: LineN, dq: LineN, tau: LineN, kp: LineN, kd: LineN)

  const ZERO := Fin(0.0)

  predicate FiniteCommand(c: CmdN) {
    IsFinite(c.q) && IsFinite(c.dq) && IsFinite(c.kp) && IsFinite(c.kd) && IsFinite(c.tau)
  }

  predicate FiniteMotor(m: MotorN) {
    IsFinite(m.q) && IsFinite(m.dq)
  }

  predicate FiniteLine(l: LineN) {
    IsFinite(l.at0) && IsFinite(l.rise)
  }

  predicate FiniteParams(p: ParamsN) {
    FiniteLine(p.q) && FiniteLine(p.dq) && FiniteLine(p.tau) && FiniteLine(p.kp) && FiniteLine(p.kd)
  }

  // --- One joint ------------------------------------------------------------------------------------

  // x clamped to [-limit, limit].
  function BoundN(x: Num, limit: real): Num {
    ClampN(x, Fin(-limit), Fin(limit))
  }

  function PullN(gain: Num, to: Num, from: Num): Num {
    Mul(gain, Sub(to, from))
  }

  function LimitTargetN(q: Num, prev: Num, j: Joint, dt: real): Num {
    var c := ClampN(q, Fin(j.qMin), Fin(j.qMax));
    if j.qRateLimit > 0.0 && IsFinite(prev) && dt > 0.0
    then Add(prev, BoundN(Sub(c, prev), StepSize(j.qRateLimit, dt)))
    else c
  }

  function WindowN(q: Num, kp: Num, lo: Num, hi: Num, qMeas: Num): Num {
    ClampN(q, Add(Div(lo, kp), qMeas), Add(Div(hi, kp), qMeas))
  }

  function TorqueWindowN(q: Num, m: MotorN, dq: Num, kp: Num, kd: Num, tau: Num, limit: real): Num {
    if Less(Fin(KP_ZERO), kp) then
      var bias := Sub(PullN(kd, m.dq, dq), tau);
      WindowN(q, kp, Sub(bias, Fin(limit)), Add(bias, Fin(limit)), m.q)
    else m.q
  }

  function AtN(l: LineN, phase: real): Num {
    Add(l.at0, Mul(l.rise, Fin(phase)))
  }

  function MixN(last: Num, goal: Num, order: real): Num {
    Add(Mul(last, Fin(order)), Mul(goal, Fin(1.0 - order)))
  }

  function InterpolatedN(order: real, l: LineN, phase: real, last: Num): Num {
    if Ramp.LowPass(order) then MixN(last, l.at0, order) else AtN(l, phase)
  }

  function ConstantN(x: Num): LineN {
    LineN(x, ZERO)
  }

  function FromN(x: Num, to: Num): LineN {
    LineN(x, Sub(to, x))
  }

  function ParamsFor(order: real, desired: CmdN, last: CmdN): ParamsN {
    if order < 1.0 then
      ParamsN(ConstantN(desired.q), ConstantN(desired.dq), ConstantN(desired.tau), ConstantN(desired.kp),
          ConstantN(desired.kd))
    else
      ParamsN(FromN(last.q, desired.q), FromN(last.dq, desired.dq), ConstantN(desired.tau),
              FromN(last.kp, desired.kp), FromN(last.kd, desired.kd))
  }

  function TargetN(order: real, p: ParamsN, phase: real, last: CmdN, j: Joint, dt: real): CmdN {
    CmdN(LimitTargetN(InterpolatedN(order, p.q, phase, last.q), last.q, j, dt),
         BoundN(InterpolatedN(order, p.dq, phase, last.dq), j.dqLimit),
         AtN(p.kp, phase), AtN(p.kd, phase), AtN(p.tau, phase))
  }

  function BridgePdN(t: CmdN, m: MotorN): CmdN {
    t.(tau := Add(Add(PullN(t.kp, t.q, m.q), PullN(t.kd, t.dq, m.dq)), t.tau), kp := ZERO, kd := ZERO)
  }

  function FinishN(c: CmdN, m: MotorN, j: Joint, parallel: bool): CmdN {
    var tau := BoundN(c.tau, j.tauLimit);
    var q := TorqueWindowN(c.q, m, c.dq, c.kp, c.kd, if parallel then ZERO else tau, j.tauLimit);
    if parallel && Less(ZERO, c.kp) then CmdN(m.q, c.dq, ZERO, c.kd, BoundN(Mul(Sub(q, m.q), c.kp), j.tauLimit))
    else CmdN(q, c.dq, c.kp, c.kd, tau)
  }

  function NextLastN(t: CmdN, m: MotorN, j: Joint, parallel: bool): CmdN {
    t.(q := TorqueWindowN(t.q, m, t.dq, t.kp, t.kd, if parallel then ZERO else t.tau, j.tauLimit))
  }

  function StopFrameN(mode: Estop.Mode, j: Joint, q: Num, qHold: Num): CmdN {
    if !IsFinite(q) || (mode == Estop.Hold && !IsFinite(qHold)) then CmdN(ZERO, ZERO, ZERO, Fin(j.dampKd), ZERO)
    else if mode == Estop.Damp then CmdN(q, ZERO, ZERO, Fin(j.dampKd), ZERO)
    else if j.kp <= 0.0 then CmdN(q, ZERO, ZERO, Fin(j.kd), ZERO)
    else
      var w := Div(Fin(j.tauLimit), Fin(j.kp));
      var held := ClampN(qHold, Sub(q, w), Add(q, w));
      if j.isParallel then CmdN(q, ZERO, ZERO, Fin(j.kd), BoundN(Mul(Sub(held, q), Fin(j.kp)), j.tauLimit))
      else CmdN(held, ZERO, Fin(j.kp), Fin(j.kd), ZERO)
  }

  // initControl_'s start of the arming ramp: the measured pose, in range, at rest.
  function SeedN(last: CmdN, q: Num, j: Joint): CmdN {
    last.(q := ClampN(q, Fin(j.qMin), Fin(j.qMax)), dq := ZERO, tau := ZERO)
  }

  function SeedGoalN(q: Num, j: Joint): CmdN {
    CmdN(ClampN(q, Fin(j.qMin), Fin(j.qMax)), ZERO, Fin(j.kp), Fin(j.kd), ZERO)
  }

  // --- The robot --------------------------------------------------------------------------------------

  datatype Body = Body(joints: seq<Joint>, dt: real, mapsParallel: bool)

  // Other: a plugin, which may put out anything for every joint.
  datatype Controller = MotorPd | BridgePd | Other(out: seq<CmdN>)

  // When a command times out.
  datatype Deadline = Never | By(at: real)

  // What the control thread and the commands share, and the frames sent so far.
  datatype State = State(
    order: real, params: seq<ParamsN>, tStart: real, tFinal: real, tValid: Deadline, desired: seq<CmdN>, received: bool,
    last: seq<CmdN>, target: seq<CmdN>, frame: seq<CmdN>, invalid: bool, sent: seq<seq<CmdN>>)

  ghost predicate Shaped(b: Body, s: State) {
    |b.joints| == |s.params| == |s.desired| == |s.last| == |s.target| == |s.frame|
  }

  predicate Parallel(b: Body, received: bool, i: nat)
    requires i < |b.joints|
  {
    received && b.joints[i].isParallel && !b.mapsParallel
  }

  function Targets(b: Body, s: State, now: real): (r: seq<CmdN>)
    requires Shaped(b, s)
  {
    seq(|b.joints|, i requires 0 <= i < |b.joints| =>
      TargetN(s.order, s.params[i], Ramp.Phase(now, s.tStart, s.tFinal), s.last[i], b.joints[i], b.dt))
  }

  function Output(c: Controller, target: seq<CmdN>, motors: seq<MotorN>): seq<CmdN>
    requires |motors| == |target| && (c.Other? ==> |c.out| == |target|)
  {
    match c
    case MotorPd => target
    case BridgePd => seq(|target|, i requires 0 <= i < |target| => BridgePdN(target[i], motors[i]))
    case Other(out) => out
  }

  function Finished(b: Body, received: bool, out: seq<CmdN>, motors: seq<MotorN>): seq<CmdN>
    requires |b.joints| == |motors| == |out|
  {
    seq(|out|, i requires 0 <= i < |out| => FinishN(out[i], motors[i], b.joints[i], Parallel(b, received, i)))
  }

  function NextLasts(b: Body, received: bool, target: seq<CmdN>, motors: seq<MotorN>): seq<CmdN>
    requires |b.joints| == |motors| == |target|
  {
    seq(|target|, i requires 0 <= i < |target| =>
        NextLastN(target[i], motors[i], b.joints[i], Parallel(b, received, i)))
  }

  predicate FiniteFrame(frame: seq<CmdN>) {
    forall i :: 0 <= i < |frame| ==> FiniteCommand(frame[i])
  }

  ghost predicate Fits(b: Body, c: Controller, motors: seq<MotorN>) {
    |motors| == |b.joints| && (c.Other? ==> |c.out| == |b.joints|)
  }

  const NO_CMD := CmdN(ZERO, ZERO, ZERO, ZERO, ZERO)
  const NO_PARAMS := ParamsN(ConstantN(ZERO), ConstantN(ZERO), ConstantN(ZERO), ConstantN(ZERO), ConstantN(ZERO))

  // What the constructors leave: zeros everywhere.
  function Booted(b: Body): (s: State)
    ensures Shaped(b, s)
  {
    var still := seq(|b.joints|, _ => NO_CMD);
    State(0.0, seq(|b.joints|, _ => NO_PARAMS), 0.0, 0.0, By(0.0), still, false, still, still, still, false, [])
  }

  // trackingFrame_ on the whole state.
  function AfterTick(b: Body, s: State, now: real, motors: seq<MotorN>, c: Controller): State
    requires Shaped(b, s) && Fits(b, c, motors)
  {
    var target := Targets(b, s, now);
    var frame := Finished(b, s.received, Output(c, target, motors), motors);
    s.(target := target, frame := frame, last := NextLasts(b, s.received, target, motors),
       invalid := s.invalid || !FiniteFrame(frame))
  }

  function AllParams(order: real, desired: seq<CmdN>, last: seq<CmdN>): seq<ParamsN>
    requires |desired| == |last|
  {
    seq(|last|, i requires 0 <= i < |last| => ParamsFor(order, desired[i], last[i]))
  }

  // publishLowCommand_: the frame goes out if all of it is finite.
  function AfterPublish(b: Body, s: State, now: real, motors: seq<MotorN>, c: Controller): State
    requires Shaped(b, s) && Fits(b, c, motors)
  {
    var t := AfterTick(b, s, now, motors, c);
    if FiniteFrame(t.frame) then t.(sent := t.sent + [t.frame]) else t
  }

  // interpolationParams_: an order outside [0, 1] throws before anything else is written.
  function AfterInterpolation(b: Body, s: State, duration: real, order: real, hold: bool, now: real): State
    requires Shaped(b, s)
  {
    if Ramp.ValidOrder(order) then
      s.(order := order, params := AllParams(order, s.desired, s.last), tStart := now, tFinal := now + duration,
         tValid := if hold then Never else By(now + duration + 0.2))
    else s.(order := order)
  }

  function Seeded(b: Body, last: seq<CmdN>, motors: seq<MotorN>): seq<CmdN>
    requires |b.joints| == |motors| == |last|
  {
    seq(|last|, i requires 0 <= i < |last| => SeedN(last[i], motors[i].q, b.joints[i]))
  }

  function SeedDesired(b: Body, motors: seq<MotorN>): seq<CmdN>
    requires |b.joints| == |motors|
  {
    seq(|motors|, i requires 0 <= i < |motors| => SeedGoalN(motors[i].q, b.joints[i]))
  }

  function AfterSeed(b: Body, s: State, motors: seq<MotorN>): State
    requires Shaped(b, s) && |motors| == |b.joints|
  {
    s.(last := Seeded(b, s.last, motors), desired := SeedDesired(b, motors))
  }

  // Where the second ramp of an arming goes: the default command it was given, in range, or the ready pose at the
  // configured gains.
  function ArmGoal(b: Body, ready: seq<real>, cmd: seq<CmdN>): (r: seq<CmdN>)
    requires |ready| == |b.joints|
    ensures |r| == |b.joints|
  {
    seq(|ready|, i requires 0 <= i < |ready| => var j := b.joints[i];
      if |cmd| == |b.joints| then cmd[i].(q := ClampN(cmd[i].q, Fin(j.qMin), Fin(j.qMax)))
      else CmdN(Fin(ready[i]), ZERO, Fin(j.kp), Fin(j.kd), ZERO))
  }

  // initControl_'s second part sets no dq and no tau: the seed's stay.
  function Aimed(desired: seq<CmdN>, goal: seq<CmdN>): seq<CmdN>
    requires |desired| == |goal|
  {
    seq(|goal|, i requires 0 <= i < |goal| => desired[i].(q := goal[i].q, kp := goal[i].kp, kd := goal[i].kd))
  }

  // setPose_.
  function Posed(b: Body, q: seq<real>): (r: seq<CmdN>)
    requires |q| == |b.joints|
    ensures |r| == |b.joints|
  {
    seq(|q|, i requires 0 <= i < |q| => CmdN(Fin(q[i]), ZERO, Fin(b.joints[i].kp), Fin(b.joints[i].kd), ZERO))
  }

  function StopFrames(b: Body, mode: Estop.Mode, motors: seq<MotorN>, hold: seq<Num>): seq<CmdN>
    requires |b.joints| == |motors| == |hold|
  {
    seq(|motors|, i requires 0 <= i < |motors| => StopFrameN(mode, b.joints[i], motors[i].q, hold[i]))
  }

  // publishStopCommand_.
  function AfterStopFrames(b: Body, s: State, mode: Estop.Mode, motors: seq<MotorN>, hold: seq<Num>): State
    requires Shaped(b, s) && |b.joints| == |motors| == |hold|
  {
    var frames := StopFrames(b, mode, motors, hold);
    s.(last := frames, sent := s.sent + [frames])
  }

  // --- The class ----------------------------------------------------------------------------------------

  class Pipeline {
    const body: Body
    const params: array<ParamsN>
    const desired: array<CmdN>
    const last: array<CmdN>
    const target: array<CmdN>
    const frame: array<CmdN>
    var order: real
    var tStart: real
    var tFinal: real
    var tValid: Deadline
    var received: bool
    var invalid: bool
    ghost var sent: seq<seq<CmdN>>

    constructor (body: Body)
      ensures Valid() && this.body == body && View() == Booted(body)
      ensures fresh(params) && fresh(desired) && fresh(last) && fresh(target) && fresh(frame)
    {
      this.body := body;
      order, tStart, tFinal, tValid, received, invalid, sent := 0.0, 0.0, 0.0, By(0.0), false, false, [];
      params := new ParamsN[|body.joints|](_ => NO_PARAMS);
      desired := new CmdN[|body.joints|](_ => NO_CMD);
      last := new CmdN[|body.joints|](_ => NO_CMD);
      target := new CmdN[|body.joints|](_ => NO_CMD);
      frame := new CmdN[|body.joints|](_ => NO_CMD);
      new;
      assert View() == Booted(body);
    }

    ghost predicate Valid()
      reads this
    {
      && |body.joints| == params.Length == desired.Length == last.Length == target.Length == frame.Length
      && desired != last && desired != target && desired != frame && last != target && last != frame && target != frame
    }

    ghost function View(): (s: State)
      requires Valid()
      reads this, params, desired, last, target, frame
      ensures Shaped(body, s)
    {
      State(order, params[..], tStart, tFinal, tValid, desired[..], received, last[..],
          target[..], frame[..], invalid, sent)
    }

    // interpolationParams_; !ok where the source throws.
    method InterpolationParams(duration: real, interpolationOrder: real, hold: bool, now: real) returns (ok: bool)
      requires Valid()
      modifies this, params
      ensures Valid() && ok == (0.0 <= interpolationOrder <= 1.0)
      ensures View() == AfterInterpolation(body, old(View()), duration, interpolationOrder, hold, now)
    {
      order := interpolationOrder;
      if !(0.0 <= order && order < 1.0) && order != 1.0 {
        return false;
      }
      for i := 0 to params.Length
        modifies params
        invariant forall k :: 0 <= k < i ==> params[k] == ParamsFor(order, desired[k], last[k])
      {
        if order < 1.0 {
          params[i] := ParamsN(LineN(desired[i].q, ZERO), LineN(desired[i].dq, ZERO), LineN(desired[i].tau, ZERO),
                               LineN(desired[i].kp, ZERO), LineN(desired[i].kd, ZERO));
        } else {
          params[i] := ParamsN(LineN(last[i].q, Sub(desired[i].q, last[i].q)),
              LineN(last[i].dq, Sub(desired[i].dq, last[i].dq)),
                               LineN(desired[i].tau, ZERO),
                               LineN(last[i].kp, Sub(desired[i].kp, last[i].kp)),
                                   LineN(last[i].kd, Sub(desired[i].kd, last[i].kd)));
        }
      }
      tStart := now;
      tFinal := tStart + duration;
      tValid := if hold then Never else By(tFinal + 0.2);
      assert params[..] == AllParams(order, desired[..], last[..]);
      return true;
    }

    // The first loop of trackingFrame_.
    method MakeTargets(now: real)
      requires Valid()
      modifies target
      ensures target[..] == Targets(body, old(View()), now)
    {
      var phase := 1.0;
      if tFinal - tStart > 0.000001 {
        phase := Clamp((now - tStart) / (tFinal - tStart), 0.0, 1.0);
      }
      for i := 0 to target.Length
        invariant forall k :: 0 <= k < i ==>
                    target[k] == TargetN(order, params[k], phase, last[k], body.joints[k], body.dt)
      {
        var p, prev, j := params[i], last[i], body.joints[i];
        var q, dq;
        if 0.000001 < order && order < 1.0 - 0.000001 {
          q := MixN(prev.q, p.q.at0, order);
          dq := MixN(prev.dq, p.dq.at0, order);
        } else {
          q := AtN(p.q, phase);
          dq := AtN(p.dq, phase);
        }
        target[i] := CmdN(LimitTargetN(q, prev.q, j, body.dt), BoundN(dq, j.dqLimit),
                          AtN(p.kp, phase), AtN(p.kd, phase), AtN(p.tau, phase));
      }
      assert target[..] == Targets(body, old(View()), now);
    }

    // The controllers' compute; a plugin's output is given.
    method Compute(c: Controller, motors: seq<MotorN>)
      requires Valid() && Fits(body, c, motors)
      modifies frame
      ensures frame[..] == Output(c, target[..], motors)
    {
      match c
      case MotorPd =>
        forall i | 0 <= i < frame.Length {
          frame[i] := target[i];
        }
        assert frame[..] == target[..];
      case Other(out) =>
        forall i | 0 <= i < frame.Length {
          frame[i] := out[i];
        }
        assert frame[..] == out;
      case BridgePd =>
        for i := 0 to target.Length
          invariant forall k :: 0 <= k < i ==> frame[k] == BridgePdN(target[k], motors[k])
        {
          var cmd, joint := target[i], motors[i];
          frame[i] := cmd;
          frame[i] := frame[i].(tau := Add(Add(Mul(cmd.kp, Sub(cmd.q, joint.q)), Mul(cmd.kd, Sub(cmd.dq, joint.dq))),
              cmd.tau));
          frame[i] := frame[i].(kp := ZERO);
          frame[i] := frame[i].(kd := ZERO);
        }
        assert frame[..] == Output(c, target[..], motors);
    }

    // The second loop of trackingFrame_.
    method FinishFrame(motors: seq<MotorN>) returns (finite: bool)
      requires Valid() && |motors| == |body.joints|
      modifies frame, last
      ensures frame[..] == Finished(body, received, old(frame[..]), motors)
      ensures last[..] == NextLasts(body, received, target[..], motors)
      ensures finite == FiniteFrame(frame[..])
    {
      finite := true;
      ghost var out := frame[..];
      for i := 0 to frame.Length
        invariant forall k :: i <= k < frame.Length ==> frame[k] == out[k]
        invariant forall k :: 0 <= k < i ==> frame[k] == FinishN(out[k], motors[k], body.joints[k],
            Parallel(body, received, k))
        invariant forall k :: 0 <= k < i ==> last[k] == NextLastN(target[k], motors[k], body.joints[k],
            Parallel(body, received, k))
        invariant finite <==> forall k :: 0 <= k < i ==> FiniteCommand(frame[k])
      {
        var t, m, j := target[i], motors[i], body.joints[i];
        var parallel := received && j.isParallel && !body.mapsParallel;
        last[i] := CmdN(TorqueWindowN(t.q, m, t.dq, t.kp, t.kd, if parallel then ZERO else t.tau, j.tauLimit),
                        t.dq, t.kp, t.kd, t.tau);
        var cmd := frame[i];
        cmd := cmd.(tau := BoundN(cmd.tau, j.tauLimit));
        cmd := cmd.(q := TorqueWindowN(cmd.q, m, cmd.dq, cmd.kp, cmd.kd,
            if parallel then ZERO else cmd.tau, j.tauLimit));
        if parallel && Less(ZERO, cmd.kp) {
          cmd := cmd.(tau := BoundN(Mul(Sub(cmd.q, m.q), cmd.kp), j.tauLimit));
          cmd := cmd.(q := m.q);
          cmd := cmd.(kp := ZERO);
        }
        frame[i] := cmd;
        finite := finite && FiniteCommand(cmd);
      }
      assert frame[..] == Finished(body, received, out, motors);
      assert last[..] == NextLasts(body, received, target[..], motors);
    }

    // trackingFrame_: the frame goes out only if it returns true.
    method TrackingFrame(now: real, motors: seq<MotorN>, c: Controller) returns (finite: bool)
      requires Valid() && Fits(body, c, motors)
      modifies this`invalid, target, frame, last
      ensures Valid() && View() == AfterTick(body, old(View()), now, motors, c)
      ensures finite == FiniteFrame(frame[..])
    {
      MakeTargets(now);
      Compute(c, motors);
      finite := FinishFrame(motors);
      if !finite {
        invalid := true;
      }
    }

    // publishLowCommand_.
    method PublishLow(now: real, motors: seq<MotorN>, c: Controller) returns (went: bool)
      requires Valid() && Fits(body, c, motors)
      modifies this`invalid, this`sent, target, frame, last
      ensures Valid() && View() == AfterPublish(body, old(View()), now, motors, c)
      ensures went ==> FiniteFrame(frame[..]) && sent == old(sent) + [frame[..]]
      ensures !went ==> !FiniteFrame(frame[..]) && sent == old(sent)
    {
      went := TrackingFrame(now, motors, c);
      if went {
        sent := sent + [frame[..]];
      }
    }

    // The first section of initControl_.
    method Seed(motors: seq<MotorN>)
      requires Valid() && |motors| == |body.joints|
      modifies last, desired
      ensures Valid() && View() == AfterSeed(body, old(View()), motors)
    {
      ghost var was := last[..];
      for i := 0 to last.Length
        invariant forall k :: i <= k < last.Length ==> last[k] == was[k]
        invariant forall k :: 0 <= k < i ==> last[k] == SeedN(was[k], motors[k].q, body.joints[k])
        invariant forall k :: 0 <= k < i ==> desired[k] == SeedGoalN(motors[k].q, body.joints[k])
      {
        var j := body.joints[i];
        var q := ClampN(motors[i].q, Fin(j.qMin), Fin(j.qMax));
        last[i] := last[i].(q := q, dq := ZERO, tau := ZERO);
        desired[i] := CmdN(q, ZERO, Fin(j.kp), Fin(j.kd), ZERO);
      }
      assert last[..] == Seeded(body, was, motors);
      assert desired[..] == SeedDesired(body, motors);
    }

    // The second section of initControl_.
    method Aim(cmd: seq<CmdN>, ready: seq<real>)
      requires Valid() && |ready| == |body.joints|
      modifies desired
      ensures Valid() && View() == old(View()).(desired := Aimed(old(desired[..]), ArmGoal(body, ready, cmd)))
    {
      ghost var was, goal := desired[..], ArmGoal(body, ready, cmd);
      for i := 0 to desired.Length
        invariant forall k :: i <= k < desired.Length ==> desired[k] == was[k]
        invariant forall k :: 0 <= k < i ==> desired[k] == Aimed(was, goal)[k]
      {
        var j := body.joints[i];
        if |cmd| == |body.joints| {
          desired[i] := desired[i].(q := ClampN(cmd[i].q, Fin(j.qMin), Fin(j.qMax)), kp := cmd[i].kp, kd := cmd[i].kd);
        } else {
          desired[i] := desired[i].(q := Fin(ready[i]), kp := Fin(j.kp), kd := Fin(j.kd));
        }
      }
      assert desired[..] == Aimed(was, goal);
    }

    // setPose_.
    method SetPose(q: seq<real>)
      requires Valid() && |q| == |body.joints|
      modifies desired
      ensures Valid() && View() == old(View()).(desired := Posed(body, q))
    {
      for i := 0 to desired.Length
        invariant forall k :: 0 <= k < i ==> desired[k] == Posed(body, q)[k]
      {
        desired[i] := CmdN(Fin(q[i]), ZERO, Fin(body.joints[i].kp), Fin(body.joints[i].kd), ZERO);
      }
      assert desired[..] == Posed(body, q);
    }

    // publishStopCommand_: what it sends is also what the next ramp starts from.
    method StopCommand(mode: Estop.Mode, motors: seq<MotorN>, hold: seq<Num>) returns (out: seq<CmdN>)
      requires Valid() && |hold| == |motors| == |body.joints|
      modifies this`sent, last
      ensures out == StopFrames(body, mode, motors, hold)
      ensures Valid() && View() == AfterStopFrames(body, old(View()), mode, motors, hold)
    {
      out := [];
      for i := 0 to last.Length
        modifies last
        invariant |out| == i
        invariant forall k :: 0 <= k < i ==> last[k] == out[k] == StopFrameN(mode, body.joints[k], motors[k].q, hold[k])
      {
        var f := StopFrameN(mode, body.joints[i], motors[i].q, hold[i]);
        out := out + [f];
        last[i] := f;
      }
      assert last[..] == out;
      sent := sent + [out];
    }
  }
}
