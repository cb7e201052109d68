/** What the motor pipeline guarantees: on finite values it is the real pipeline of Gates and Ramp; what a
corrupt state can and cannot do; and, over whole runs, that no controller moves the targets or the
next ramp's start, and that finite states and commands never cost a frame.
*/
module PipelineLaws {
  import opened Numbers
  import opened Gates
  import opened MotorPipeline
  import Ramp
  import Estop

  // --- Finite values: the real pipeline ---------------------------------------------------------------

  function Exact(c: Cmd): CmdN {
    CmdN(Fin(c.q), Fin(c.dq), Fin(c.kp), Fin(c.kd), Fin(c.tau))
  }

  function ExactMotor(m: Motor): MotorN {
    MotorN(Fin(m.q), Fin(m.dq))
  }

  function ExactLine(l: Ramp.Line): LineN {
    LineN(Fin(l.at0), Fin(l.rise))
  }

  function ExactParams(p: Ramp.Params): ParamsN {
    ParamsN(ExactLine(p.q), ExactLine(p.dq), ExactLine(p.tau), ExactLine(p.kp), ExactLine(p.kd))
  }

  lemma PullExact(gain: real, to: real, from: real)
    ensures PullN(Fin(gain), Fin(to), Fin(from)) == Fin(Pull(gain, to, from))
  {}

  lemma LimitTargetExact(q: real, prev: real, j: Joint, dt: real)
    ensures LimitTargetN(Fin(q), Fin(prev), j, dt) == Fin(LimitTarget(q, prev, j, dt))
  {}

  lemma WindowExact(q: real, kp: real, lo: real, hi: real, qMeas: real)
    requires kp > 0.0
    ensures WindowN(Fin(q), Fin(kp), Fin(lo), Fin(hi), Fin(qMeas)) == Fin(Window(q, kp, lo, hi, qMeas))
  {}

  lemma TorqueWindowExact(q: real, m: Motor, dq: real, kp: real, kd: real, tau: real, limit: real)
    ensures TorqueWindowN(Fin(q), ExactMotor(m), Fin(dq), Fin(kp), Fin(kd), Fin(tau), limit)
         == Fin(TorqueWindow(q, m, dq, kp, kd, tau, limit))
  {
    PullExact(kd, m.dq, dq);
    if kp > KP_ZERO {
      var bias := Pull(kd, m.dq, dq) - tau;
      WindowExact(q, kp, bias - limit, bias + limit, m.q);
    }
  }

  lemma AtExact(l: Ramp.Line, phase: real)
    ensures AtN(ExactLine(l), phase) == Fin(Ramp.At(l, phase))
  {}

  lemma InterpolatedExact(order: real, l: Ramp.Line, phase: real, last: real)
    ensures InterpolatedN(order, ExactLine(l), phase, Fin(last)) == Fin(Ramp.Interpolated(order, l, phase, last))
  {
    AtExact(l, phase);
  }

  lemma TargetExact(order: real, p: Ramp.Params, phase: real, last: Cmd, j: Joint, dt: real)
    ensures TargetN(order, ExactParams(p), phase, Exact(last), j, dt)
        == Exact(Ramp.Target(order, p, phase, last, j, dt))
  {
    InterpolatedExact(order, p.q, phase, last.q);
    InterpolatedExact(order, p.dq, phase, last.dq);
    LimitTargetExact(Ramp.Interpolated(order, p.q, phase, last.q), last.q, j, dt);
    AtExact(p.kp, phase);
    AtExact(p.kd, phase);
    AtExact(p.tau, phase);
  }

  lemma ParamsExact(order: real, desired: Cmd, last: Cmd)
    requires Ramp.ValidOrder(order)
    ensures ParamsFor(order, Exact(desired), Exact(last)) == ExactParams(Ramp.InterpolationParams(order, desired, last))
  {}

  lemma BridgePdExact(t: Cmd, m: Motor)
    ensures BridgePdN(Exact(t), ExactMotor(m)) == Exact(Gates.BridgePd(t, m))
  {
    PullExact(t.kp, t.q, m.q);
    PullExact(t.kd, t.dq, m.dq);
  }

  lemma ConversionExact(q: real, at: real, kp: real, limit: real)
    ensures BoundN(Mul(Sub(Fin(q), Fin(at)), Fin(kp)), limit) == Fin(Bound(Pull(kp, q, at), limit))
  {
    assert (q - at) * kp == Pull(kp, q, at);
  }

  // What goes out for a finite command in a finite state is the real pipeline's command, whatever the
  // controller that made it.
  lemma FinishExact(c: Cmd, m: Motor, j: Joint, parallel: bool)
    ensures FinishN(Exact(c), ExactMotor(m), j, parallel) == Exact(Finish(c, m, j, parallel))
  {
    var tau := Bound(c.tau, j.tauLimit);
    var t := if parallel then 0.0 else tau;
    TorqueWindowExact(c.q, m, c.dq, c.kp, c.kd, t, j.tauLimit);
    ConversionExact(TorqueWindow(c.q, m, c.dq, c.kp, c.kd, t, j.tauLimit), m.q, c.kp, j.tauLimit);
  }

  lemma NextLastExact(t: Cmd, m: Motor, j: Joint, parallel: bool)
    ensures NextLastN(Exact(t), ExactMotor(m), j, parallel) == Exact(NextLast(t, m, j, parallel))
  {
    TorqueWindowExact(t.q, m, t.dq, t.kp, t.kd, if parallel then 0.0 else t.tau, j.tauLimit);
  }

  lemma HeldExact(q: real, hold: real, window: real)
    ensures ClampN(Fin(hold), Sub(Fin(q), Fin(window)), Add(Fin(q), Fin(window))) == Fin(Clamp(hold, q - window,
        q + window))
  {}

  lemma StopFrameExact(mode: Estop.Mode, j: Joint, q: real, hold: real)
    requires j.kp > 0.0
    ensures StopFrameN(mode, j, Fin(q), Fin(hold)) == Exact(StopFrame(mode, j, q, hold))
  {
    if mode == Estop.Hold {
      HeldExact(q, hold, j.tauLimit / j.kp);
      assert Div(Fin(j.tauLimit), Fin(j.kp)) == Fin(j.tauLimit / j.kp);
      ConversionExact(HeldPose(j, q, hold), q, j.kp, j.tauLimit);
    }
  }

  // --- A corrupt state ------------------------------------------------------------------------------------

  // A stop frame is finite on any state at all, and off the measured pose it applies no spring.
  lemma StopFrameFinite(mode: Estop.Mode, j: Joint, q: Num, hold: Num)
    ensures FiniteCommand(StopFrameN(mode, j, q, hold))
    ensures !IsFinite(q) || (mode == Estop.Hold && !IsFinite(hold)) ==>
      StopFrameN(mode, j, q, hold) == CmdN(ZERO, ZERO, ZERO, Fin(j.dampKd), ZERO)
    ensures mode == Estop.Hold && IsFinite(q) && IsFinite(hold) && j.kp <= 0.0 ==>
      StopFrameN(mode, j, q, hold) == CmdN(q, ZERO, ZERO, Fin(j.kd), ZERO)
  {}

  // At one tick the ramp starts afresh from any last command but one: only a low-pass takes over a NaN.
  lemma TargetFiniteIff(order: real, p: ParamsN, phase: real, last: CmdN, j: Joint, dt: real)
    requires Ramp.ValidOrder(order) && FiniteParams(p) && Loaded(j)
    ensures IsFinite(TargetN(order, p, phase, last, j, dt).q) <==> !(Ramp.LowPass(order) && last.q.NaN?)
    ensures IsFinite(TargetN(order, p, phase, last, j, dt).dq) <==> !(Ramp.LowPass(order) && last.dq.NaN?)
    ensures !IsFinite(last.q) && IsFinite(TargetN(order, p, phase, last, j, dt).q) ==>
      j.qMin <= TargetN(order, p, phase, last, j, dt).q.r <= j.qMax
  {
    if Ramp.LowPass(order) {
      MixOfFinite(last.q, p.q.at0, order);
      MixOfFinite(last.dq, p.dq.at0, order);
    }
  }

  lemma MixOfFinite(last: Num, goal: Num, order: real)
    requires order > 0.0 && IsFinite(goal)
    ensures MixN(last, goal, order).NaN? <==> last.NaN?
    ensures IsFinite(MixN(last, goal, order)) <==> IsFinite(last)
  {}

  predicate Infinite(x: Num) {
    x.PosInf? || x.NegInf?
  }

  // The middle of gate 4's window, times kp: what damping makes of the measured speed, around the measured q.
  function WindowCentre(t: CmdN, m: MotorN): Num {
    Add(PullN(t.kd, m.dq, t.dq), m.q)
  }

  // What a corrupt state after the state check does to a motor_pd frame, for any measured q and dq: with a spring on a
  // serial joint the frame is lost only to an infinite window, and a NaN sends the target without its window; else it
  // is lost exactly to a measured q that is not finite.
  lemma MotorPdFiniteIff(t: CmdN, m: MotorN, j: Joint, parallel: bool)
    requires FiniteCommand(t)
    ensures FiniteCommand(FinishN(t, m, j, parallel)) <==>
            if t.kp.r > KP_ZERO && !parallel then !Infinite(WindowCentre(t, m)) else IsFinite(m.q)
    ensures t.kp.r > KP_ZERO && !parallel && WindowCentre(t, m).NaN? ==> FinishN(t, m, j, parallel).q == t.q
  {
    if t.kp.r > KP_ZERO {
      var tau := if parallel then ZERO else BoundN(t.tau, j.tauLimit);
      WindowOfCentre(t.q, t.kp, PullN(t.kd, m.dq, t.dq), tau, j.tauLimit, m.q);
    }
  }

  lemma WindowOfCentre(q: Num, kp: Num, pull: Num, tau: Num, limit: real, qMeas: Num)
    requires IsFinite(q) && IsFinite(kp) && kp.r > KP_ZERO && IsFinite(tau)
    ensures var bias := Sub(pull, tau);
            var w := WindowN(q, kp, Sub(bias, Fin(limit)), Add(bias, Fin(limit)), qMeas);
      && !w.NaN? && (IsFinite(w) <==> !Infinite(Add(pull, qMeas))) && (Add(pull, qMeas).NaN? ==> w == q)
  {}

  // And to a bridge_pd frame: it is lost exactly to a measured q that is not finite, or to a damping torque that is
  // NaN.
  lemma BridgePdFiniteIff(t: CmdN, m: MotorN, j: Joint, parallel: bool)
    requires FiniteCommand(t)
    ensures FiniteCommand(FinishN(BridgePdN(t, m), m, j, parallel)) <==>
            IsFinite(m.q) && !m.dq.NaN? && (IsFinite(m.dq) || t.kd.r != 0.0)
  {}

  // A NaN target never goes out with a spring, under either controller.
  lemma NaNTargetIsLost(t: CmdN, m: MotorN, j: Joint, parallel: bool)
    requires t.q.NaN? && IsFinite(t.kp) && t.kp.r > KP_ZERO
    ensures !FiniteCommand(FinishN(t, m, j, parallel)) && !FiniteCommand(FinishN(BridgePdN(t, m), m, j, parallel))
  {}

  // Nor does a tick that leaves a NaN in lastCommand_ send a frame, under either controller, with a spring or without.
  lemma KeptNaNIsLost(t: CmdN, m: MotorN, j: Joint, parallel: bool)
    requires IsFinite(t.kp) && NextLastN(t, m, j, parallel).q.NaN?
    ensures !FiniteCommand(FinishN(t, m, j, parallel)) && !FiniteCommand(FinishN(BridgePdN(t, m), m, j, parallel))
  {}

  // A motor_pd frame carries its spring in the feedforward instead exactly on a parallel joint of a robot that does
  // not map its own, once a command or an arming came in.
  lemma ConvertsIff(b: Body, s: State, now: real, motors: seq<MotorN>, i: nat)
    requires Shaped(b, s) && |motors| == |b.joints| && i < |b.joints|
    ensures var t, f := Targets(b, s, now)[i], AfterTick(b, s, now, motors, MotorPd).frame[i];
      IsFinite(t.kp) && t.kp.r > 0.0 ==>
      (f.kp == ZERO <==> s.received && b.joints[i].isParallel && !b.mapsParallel)
  {}

  // Without a spring lastCommand_ follows the joint, so that the next ramp starts where it is; with one it is the
  // target inside the window that the torque limit leaves around the joint.
  lemma LastFollows(t: Cmd, m: Motor, j: Joint, parallel: bool)
    requires j.tauLimit >= 0.0
    ensures t.kp <= 0.000001 ==> NextLast(t, m, j, parallel) == t.(q := m.q)
    ensures t.kp > 0.000001 ==>
      var x, tau := NextLast(t, m, j, parallel), if parallel then 0.0 else t.tau;
      && x == t.(q := x.q)
      && Pull(t.kp, x.q, m.q) + Pull(t.kd, t.dq, m.dq) + tau
         == Bound(Pull(t.kp, t.q, m.q) + Pull(t.kd, t.dq, m.dq) + tau, j.tauLimit)
  {
    if t.kp > 0.000001 {
      WindowCutsTorque(t.q, m, t.dq, t.kp, t.kd, if parallel then 0.0 else t.tau, j.tauLimit);
    }
  }

  // --- Runs ------------------------------------------------------------------------------------------------

  datatype Event =
    | Desire(desired: seq<CmdN>)
    | Aim(goal: seq<CmdN>)
    | Received
    | Interpolate(duration: real, order: real, holdPosition: bool, at: real)
    | Tick(now: real, motors: seq<MotorN>, controller: Controller)
    | Seed(pose: seq<MotorN>)
    | Stop(mode: Estop.Mode, state: seq<MotorN>, hold: seq<Num>)

  ghost predicate Possible(b: Body, e: Event) {
    match e
    case Desire(d) => |d| == |b.joints|
    case Aim(goal) => |goal| == |b.joints|
    case Received => true
    case Interpolate(_, _, _, _) => true
    case Tick(_, motors, c) => Fits(b, c, motors)
    case Seed(pose) => |pose| == |b.joints|
    case Stop(_, motors, hold) => |motors| == |hold| == |b.joints|
  }

  function AfterEvent(b: Body, s: State, e: Event): (r: State)
    requires Shaped(b, s) && Possible(b, e)
    ensures Shaped(b, r)
  {
    match e
    case Desire(d) => s.(desired := d)
    case Aim(goal) => s.(desired := Aimed(s.desired, goal))
    case Received => s.(received := true)
    case Interpolate(duration, order, hold, at) => AfterInterpolation(b, s, duration, order, hold, at)
    case Tick(now, motors, c) => AfterPublish(b, s, now, motors, c)
    case Seed(pose) => AfterSeed(b, s, pose)
    case Stop(mode, motors, hold) => AfterStopFrames(b, s, mode, motors, hold)
  }

  ghost predicate AllPossible(b: Body, es: seq<Event>) {
    forall i :: 0 <= i < |es| ==> Possible(b, es[i])
  }

  // The state after every event of a run.
  function AfterAll(b: Body, s: State, es: seq<Event>): (r: State)
    requires Shaped(b, s) && AllPossible(b, es)
    ensures Shaped(b, r)
  {
    if es == [] then s else AfterEvent(b, AfterAll(b, s, es[..|es| - 1]), es[|es| - 1])
  }

  // --- No controller moves a target --------------------------------------------------------------------------

  // The same event, with any other controller at a tick.
  predicate SameButController(d: Event, e: Event) {
    if d.Tick? && e.Tick? then d.now == e.now && d.motors == e.motors else d == e
  }

  // The same state, but for what the controller put out.
  predicate SameButFrame(s: State, t: State) {
    s.(frame := t.frame, invalid := t.invalid, sent := t.sent) == t
  }

  lemma EventIndependent(b: Body, s: State, t: State, d: Event, e: Event)
    requires Shaped(b, s) && Shaped(b, t) && SameButFrame(s, t) && Possible(b, d) && Possible(b, e)
    requires SameButController(d, e)
    ensures SameButFrame(AfterEvent(b, s, d), AfterEvent(b, t, e))
  {
    if d.Tick? {
      assert Targets(b, s, d.now) == Targets(b, t, e.now);
    }
  }

  // Whatever the controllers, and whenever they change: the same commands, times and states give the
  // same targets, and every ramp starts from the same command.
  lemma {:induction false} ControllerIndependent(b: Body, s: State, t: State, ds: seq<Event>, es: seq<Event>)
    requires Shaped(b, s) && Shaped(b, t) && SameButFrame(s, t) && AllPossible(b, ds) && AllPossible(b, es)
    requires |ds| == |es|
    requires forall i :: 0 <= i < |ds| ==> SameButController(ds[i], es[i])
    ensures AfterAll(b, s, ds).target == AfterAll(b, t, es).target
    ensures AfterAll(b, s, ds).last == AfterAll(b, t, es).last
    ensures SameButFrame(AfterAll(b, s, ds), AfterAll(b, t, es))
  {
    if ds == [] {
      assert es == [];
    } else {
      var n := |ds| - 1;
      ControllerIndependent(b, s, t, ds[..n], es[..n]);
      EventIndependent(b, AfterAll(b, s, ds[..n]), AfterAll(b, t, es[..n]), ds[n], es[n]);
    }
  }

  // --- Finite in, finite out ------------------------------------------------------------------------------------

  ghost predicate AllFinite(s: State) {
    && Ramp.ValidOrder(s.order)
    && (forall i :: 0 <= i < |s.params| ==> FiniteParams(s.params[i]))
    && FiniteFrame(s.desired)
    && FiniteFrame(s.last)
  }

  predicate FiniteMotors(motors: seq<MotorN>) {
    forall i :: 0 <= i < |motors| ==> FiniteMotor(motors[i])
  }

  // Checked commands, states that pass the state check, and the default controllers; what a stop frame
  // reads may be anything.
  ghost predicate Clean(e: Event) {
    match e
    case Desire(d) => FiniteFrame(d)
    case Aim(goal) => FiniteFrame(goal)
    case Received => true
    case Interpolate(_, order, _, _) => Ramp.ValidOrder(order)
    case Tick(_, motors, c) => FiniteMotors(motors) && !c.Other?
    case Seed(pose) => FiniteMotors(pose)
    case Stop(_, _, _) => true
  }

  lemma TargetFinite(order: real, p: ParamsN, phase: real, last: CmdN, j: Joint, dt: real)
    requires FiniteParams(p) && FiniteCommand(last)
    ensures FiniteCommand(TargetN(order, p, phase, last, j, dt))
  {
    var rp := Ramp.Params(Real(p.q), Real(p.dq), Real(p.tau), Real(p.kp), Real(p.kd));
    assert ExactParams(rp) == p;
    var rl := RealCmd(last);
    TargetExact(order, rp, phase, rl, j, dt);
  }

  function Real(l: LineN): Ramp.Line
    requires FiniteLine(l)
  {
    Ramp.Line(l.at0.r, l.rise.r)
  }

  function RealCmd(c: CmdN): (r: Cmd)
    requires FiniteCommand(c)
    ensures Exact(r) == c
  {
    Cmd(c.q.r, c.dq.r, c.kp.r, c.kd.r, c.tau.r)
  }

  function RealMotor(m: MotorN): (r: Motor)
    requires FiniteMotor(m)
    ensures ExactMotor(r) == m
  {
    Motor(m.q.r, m.dq.r)
  }

  lemma TickFinite(b: Body, s: State, now: real, motors: seq<MotorN>, c: Controller)
    requires Shaped(b, s) && Fits(b, c, motors) && AllFinite(s) && FiniteMotors(motors) && !c.Other?
    ensures FiniteFrame(AfterTick(b, s, now, motors, c).frame)
    ensures FiniteFrame(AfterTick(b, s, now, motors, c).last)
  {
    var phase := Ramp.Phase(now, s.tStart, s.tFinal);
    var r := AfterTick(b, s, now, motors, c);
    var out := Output(c, r.target, motors);
    forall i | 0 <= i < |b.joints|
      ensures FiniteCommand(r.frame[i]) && FiniteCommand(r.last[i])
    {
      TargetFinite(s.order, s.params[i], phase, s.last[i], b.joints[i], b.dt);
      assert r.target[i] == TargetN(s.order, s.params[i], phase, s.last[i], b.joints[i], b.dt);
      var t, m := RealCmd(r.target[i]), RealMotor(motors[i]);
      var p := Parallel(b, s.received, i);
      BridgePdExact(t, m);
      var o := if c.MotorPd? then t else Gates.BridgePd(t, m);
      assert out[i] == Exact(o);
      FinishExact(o, m, b.joints[i], p);
      NextLastExact(t, m, b.joints[i], p);
    }
  }

  lemma EventFinite(b: Body, s: State, e: Event)
    requires Shaped(b, s) && Possible(b, e) && AllFinite(s) && Clean(e)
    ensures AllFinite(AfterEvent(b, s, e)) && AfterEvent(b, s, e).invalid == s.invalid
    ensures |AfterEvent(b, s, e).sent| == |s.sent| + FramesDue(e)
  {
    match e {
      case Tick(now, motors, c) => TickFinite(b, s, now, motors, c);
      case Stop(mode, motors, hold) =>
        forall i | 0 <= i < |motors| {
          StopFrameFinite(mode, b.joints[i], motors[i].q, hold[i]);
        }
      case _ =>
    }
  }

  // Ticks and stop ticks each owe the robot one frame.
  function FramesDue(e: Event): nat {
    if e.Tick? || e.Stop? then 1 else 0
  }

  function AllFramesDue(es: seq<Event>): nat {
    if es == [] then 0 else AllFramesDue(es[..|es| - 1]) + FramesDue(es[|es| - 1])
  }

  // No run of finite states and checked commands ever loses a frame to the finite check, or leaves a ramp
  // that starts from anything but finite commands.
  lemma {:induction false} NoFrameLost(b: Body, s: State, es: seq<Event>)
    requires Shaped(b, s) && AllPossible(b, es) && AllFinite(s) && !s.invalid
    requires forall i :: 0 <= i < |es| ==> Clean(es[i])
    ensures AllFinite(AfterAll(b, s, es)) && !AfterAll(b, s, es).invalid
    ensures |AfterAll(b, s, es).sent| == |s.sent| + AllFramesDue(es)
  {
    if es != [] {
      var n := |es| - 1;
      NoFrameLost(b, s, es[..n]);
      EventFinite(b, AfterAll(b, s, es[..n]), es[n]);
    }
  }

  // --- Nothing but finite frames --------------------------------------------------------------------------

  ghost predicate AllSentFinite(s: State) {
    forall k :: 0 <= k < |s.sent| ==> FiniteFrame(s.sent[k])
  }

  lemma StopFramesFinite(b: Body, mode: Estop.Mode, motors: seq<MotorN>, hold: seq<Num>)
    requires |b.joints| == |motors| == |hold|
    ensures FiniteFrame(StopFrames(b, mode, motors, hold))
  {
    forall i | 0 <= i < |motors|
      ensures FiniteCommand(StopFrames(b, mode, motors, hold)[i])
    {
      StopFrameFinite(mode, b.joints[i], motors[i].q, hold[i]);
    }
  }

  // Every frame the body ever sends is finite: on every run, whatever the state holds, whatever commands and plugins
  // do.
  lemma {:induction false} SentAlwaysFinite(b: Body, s: State, es: seq<Event>)
    requires Shaped(b, s) && AllPossible(b, es) && AllSentFinite(s)
    ensures AllSentFinite(AfterAll(b, s, es))
  {
    if es != [] {
      var n := |es| - 1;
      SentAlwaysFinite(b, s, es[..n]);
      if es[n].Stop? {
        StopFramesFinite(b, es[n].mode, es[n].state, es[n].hold);
      }
    }
  }

  // --- The torque of what is sent ------------------------------------------------------------------------------------

  // On a finite state, for any controller whose output is finite, the frame's torque is within the limit exactly
  // where Gates says so.
  lemma SentTorqueIff(b: Body, s: State, now: real, motors: seq<MotorN>, c: Controller, i: nat)
    requires Shaped(b, s) && Fits(b, c, motors) && i < |b.joints| && b.joints[i].tauLimit >= 0.0
    requires FiniteMotor(motors[i])
    ensures var out, sent := Output(c, Targets(b, s, now), motors)[i], AfterTick(b, s, now, motors, c).frame[i];
      FiniteCommand(out) ==>
      && FiniteCommand(sent)
      && (Within(Torque(RealCmd(sent), RealMotor(motors[i])), b.joints[i].tauLimit) <==>
          Bounded(RealCmd(out), RealMotor(motors[i]), b.joints[i], Parallel(b, s.received, i)))
  {
    var out := Output(c, Targets(b, s, now), motors)[i];
    if FiniteCommand(out) {
      var p := Parallel(b, s.received, i);
      FinishExact(RealCmd(out), RealMotor(motors[i]), b.joints[i], p);
      TorqueBoundIff(RealCmd(out), RealMotor(motors[i]), b.joints[i], p);
      assert AfterTick(b, s, now, motors, c).frame[i]
          == Exact(Finish(RealCmd(out), RealMotor(motors[i]), b.joints[i], p));
    }
  }

  // --- The ramp of one joint in the robot -----------------------------------------------------------

  // The command joint i of s is under, and what tick e shows it of the state.
  function CommandOf(b: Body, s: State, i: nat, p: Ramp.Params): Ramp.Command
    requires i < |b.joints|
  {
    Ramp.Command(s.order, p, b.joints[i], b.dt, Parallel(b, s.received, i))
  }

  function TicksOf(b: Body, s: State, es: seq<Event>, i: nat): seq<Ramp.Tick>
    requires i < |b.joints| && AllPossible(b, es)
    requires forall k :: 0 <= k < |es| ==> es[k].Tick? && FiniteMotor(es[k].motors[i])
  {
    seq(|es|, k requires 0 <= k < |es| =>
        Ramp.Tick(Ramp.Phase(es[k].now, s.tStart, s.tFinal), RealMotor(es[k].motors[i])))
  }

  lemma TicksAsRamp(b: Body, s: State, e: Event, i: nat, p: Ramp.Params, last: Cmd)
    requires Shaped(b, s) && Possible(b, e) && i < |b.joints| && e.Tick? && FiniteMotor(e.motors[i])
    requires s.params[i] == ExactParams(p) && s.last[i] == Exact(last)
    ensures AfterEvent(b, s, e).last[i] == Exact(Ramp.TickLast(CommandOf(b, s, i, p), last,
      Ramp.Tick(Ramp.Phase(e.now, s.tStart, s.tFinal), RealMotor(e.motors[i]))))
    ensures SameButTick(s, AfterEvent(b, s, e))
  {
    var c, phase := CommandOf(b, s, i, p), Ramp.Phase(e.now, s.tStart, s.tFinal);
    TargetExact(s.order, p, phase, last, c.joint, b.dt);
    NextLastExact(Ramp.Target(s.order, p, phase, last, c.joint, b.dt), RealMotor(e.motors[i]), c.joint, c.parallel);
    assert Targets(b, s, e.now)[i] == Exact(Ramp.Target(s.order, p, phase, last, c.joint, b.dt));
  }

  // A tick writes nothing else.
  predicate SameButTick(s: State, t: State) {
    t == s.(last := t.last, target := t.target, frame := t.frame, invalid := t.invalid, sent := t.sent)
  }

  // Under one command each joint's lastCommand_ runs as Ramp's does, so its laws hold of the robot.
  lemma {:induction false} RunsAsRamp(b: Body, s: State, es: seq<Event>, i: nat, p: Ramp.Params, last: Cmd)
    requires Shaped(b, s) && AllPossible(b, es) && i < |b.joints|
    requires forall k :: 0 <= k < |es| ==> es[k].Tick? && FiniteMotor(es[k].motors[i])
    requires s.params[i] == ExactParams(p) && s.last[i] == Exact(last)
    ensures AfterAll(b, s, es).last[i] == Exact(Ramp.Last(CommandOf(b, s, i, p), last, TicksOf(b, s, es, i), |es|))
    ensures SameButTick(s, AfterAll(b, s, es))
  {
    if es != [] {
      var n := |es| - 1;
      RunsAsRamp(b, s, es[..n], i, p, last);
      var c, ts := CommandOf(b, s, i, p), TicksOf(b, s, es, i);
      RampPrefix(c, last, TicksOf(b, s, es[..n], i), ts, n);
      TickContinues(b, s, AfterAll(b, s, es[..n]), es, n, i, p, Ramp.Last(c, last, ts, n));
    }
  }

  // r is what n ticks left of s.
  lemma TickContinues(b: Body, s: State, r: State, es: seq<Event>, n: nat, i: nat, p: Ramp.Params, last: Cmd)
    requires Shaped(b, s) && Shaped(b, r) && SameButTick(s, r) && AllPossible(b, es) && i < |b.joints| && n < |es|
    requires forall k :: 0 <= k < |es| ==> es[k].Tick? && FiniteMotor(es[k].motors[i])
    requires s.params[i] == ExactParams(p) && r.last[i] == Exact(last)
    ensures AfterEvent(b, r, es[n]).last[i]
         == Exact(Ramp.TickLast(CommandOf(b, s, i, p), last, TicksOf(b, s, es, i)[n]))
    ensures SameButTick(s, AfterEvent(b, r, es[n]))
  {
    TicksAsRamp(b, r, es[n], i, p, last);
  }

  // The first n ticks decide the command after them.
  lemma {:induction false} RampPrefix(c: Ramp.Command, last: Cmd, ts: seq<Ramp.Tick>, us: seq<Ramp.Tick>, n: nat)
    requires n <= |ts| && n <= |us| && ts[..n] == us[..n]
    ensures Ramp.Last(c, last, ts, n) == Ramp.Last(c, last, us, n)
  {
    if n > 0 {
      assert ts[..n][n - 1] == us[..n][n - 1];
      assert ts[..n][..n - 1] == ts[..n - 1] && us[..n][..n - 1] == us[..n - 1];
      RampPrefix(c, last, ts, us, n - 1);
    }
  }
}
