/** The motor pipeline in exact reals (gates.cpp, controllers.cpp, trackingFrame_, stopFrame): what
the gates, the controllers and the conversion for parallel joints make of one joint's command, and
the torque the motor then applies.
*/
module Gates {
  import opened Numbers
  import opened Estop

  datatype Joint = Joint(
    qMin: real, qMax: real, dqLimit: real, tauLimit: real, kp: real, kd: real, dampKd: real,
    isParallel: bool, qRateLimit: real)

  // What parameter loading leaves true of every joint.
  predicate Loaded(j: Joint) {
    j.qMin <= j.qMax && j.dqLimit >= 0.0 && j.tauLimit >= 0.0 && j.kp > 0.0 && j.kd >= 0.0 && j.dampKd >= 0.0 &&
    j.qRateLimit >= 0.0
  }

  datatype Cmd = Cmd(q: real, dq: real, kp: real, kd: real, tau: real)

  datatype Motor = Motor(q: real, dq: real)

  const KP_ZERO := 0.000001

  // What a gain makes of a distance.
  function Pull(gain: real, to: real, from: real): real {
    gain * (to - from)
  }

  // The torque a motor in state m applies for a command.
  function Torque(c: Cmd, m: Motor): real {
    Pull(c.kp, c.q, m.q) + Pull(c.kd, c.dq, m.dq) + c.tau
  }

  function Bound(x: real, limit: real): real {
    Clamp(x, -limit, limit)
  }

  predicate Within(x: real, limit: real) {
    -limit <= x <= limit
  }

  // How far gate 2 lets a target move in one tick.
  function StepSize(rate: real, dt: real): real {
    rate * dt
  }

  // Gates 1 and 2.
  function LimitTarget(q: real, prev: real, j: Joint, dt: real): real {
    var c := Clamp(q, j.qMin, j.qMax);
    if j.qRateLimit > 0.0 && dt > 0.0 then prev + Bound(c - prev, StepSize(j.qRateLimit, dt)) else c
  }

  // q clamped to [lo/kp, hi/kp] around the measured q.
  function Window(q: real, kp: real, lo: real, hi: real, qMeas: real): real
    requires kp > 0.0
  {
    Clamp(q, lo / kp + qMeas, hi / kp + qMeas)
  }

  // Gate 4.
  function TorqueWindow(q: real, m: Motor, dq: real, kp: real, kd: real, tau: real, limit: real): real {
    if kp > KP_ZERO then
      var bias := Pull(kd, m.dq, dq) - tau;
      Window(q, kp, bias - limit, bias + limit, m.q)
    else m.q
  }

  // The controllers: motor_pd passes the target on, bridge_pd runs the PD itself.
  function MotorPd(target: Cmd): Cmd {
    target
  }

  function BridgePd(target: Cmd, m: Motor): Cmd {
    target.(tau := Torque(target, m), kp := 0.0, kd := 0.0)
  }

  // The tail of trackingFrame_ on one joint of a controller's output.
  function Finish(c: Cmd, m: Motor, j: Joint, parallel: bool): Cmd {
    var tau := Bound(c.tau, j.tauLimit);
    var q := TorqueWindow(c.q, m, c.dq, c.kp, c.kd, if parallel then 0.0 else tau, j.tauLimit);
    if parallel && c.kp > 0.0 then Cmd(m.q, c.dq, 0.0, c.kd, Bound(Pull(c.kp, q, m.q), j.tauLimit))
    else Cmd(q, c.dq, c.kp, c.kd, tau)
  }

  // lastCommand_: the target as a motor_pd frame would send it; the next ramp and gate 2 start here.
  function NextLast(target: Cmd, m: Motor, j: Joint, parallel: bool): Cmd {
    target.(q := TorqueWindow(target.q, m, target.dq, target.kp, target.kd, if parallel then 0.0 else target.tau,
        j.tauLimit))
  }

  // A stop frame on a finite state.
  function StopFrame(mode: Mode, j: Joint, q: real, qHold: real): Cmd
    requires j.kp > 0.0
  {
    if mode == Damp then Cmd(q, 0.0, 0.0, j.dampKd, 0.0)
    else
      var held := HeldPose(j, q, qHold);
      if j.isParallel then Cmd(q, 0.0, 0.0, j.kd, Bound(Pull(j.kp, held, q), j.tauLimit))
      else Cmd(held, 0.0, j.kp, j.kd, 0.0)
  }

  function HeldPose(j: Joint, q: real, qHold: real): real
    requires j.kp > 0.0
  {
    var w := j.tauLimit / j.kp;
    Clamp(qHold, q - w, q + w)
  }

  // --- The torque window ------------------------------------------------------------------------

  lemma MulPositive(x: real, y: real)
    requires x > 0.0 && y > 0.0
    ensures x * y > 0.0
  {}

  // What a gain makes of a distance x: Pull(gain, to, from) with x for to - from.
  function Scaled(gain: real, x: real): real {
    gain * x
  }

  // A positive gain keeps the order of its distances.
  lemma ScaledOrder(k: real, x: real, y: real)
    requires k > 0.0
    ensures x < y <==> Scaled(k, x) < Scaled(k, y)
  {
    if x < y {
      MulPositive(k, y - x);
      assert k * (y - x) == k * y - k * x;
    } else if y < x {
      MulPositive(k, x - y);
      assert k * (x - y) == k * x - k * y;
    }
  }

  lemma ScaleClamp(k: real, x: real, lo: real, hi: real)
    requires k > 0.0
    ensures Scaled(k, Clamp(x, lo, hi)) == Clamp(Scaled(k, x), Scaled(k, lo), Scaled(k, hi))
  {
    ScaledOrder(k, x, lo);
    ScaledOrder(k, hi, x);
  }

  lemma ClampShift(x: real, lo: real, hi: real, s: real)
    ensures Clamp(x, lo + s, hi + s) - s == Clamp(x - s, lo, hi)
  {}

  lemma ScaledQuotient(x: real, k: real)
    requires k > 0.0
    ensures Scaled(k, x / k) == x
  {}

  // The window around the measured q is a window on the spring torque.
  lemma WindowedPull(q: real, kp: real, lo: real, hi: real, qMeas: real)
    requires kp > 0.0
    ensures Pull(kp, Window(q, kp, lo, hi, qMeas), qMeas) == Clamp(Pull(kp, q, qMeas), lo, hi)
  {
    var a, b := lo / kp, hi / kp;
    ClampShift(q, a, b, qMeas);
    assert Window(q, kp, lo, hi, qMeas) - qMeas == Clamp(q - qMeas, a, b);
    ScaleClamp(kp, q - qMeas, a, b);
    ScaledQuotient(lo, kp);
    ScaledQuotient(hi, kp);
  }

  lemma PullReversed(gain: real, to: real, from: real)
    ensures Pull(gain, to, from) == -Pull(gain, from, to)
  {}

  lemma PullNowhere(gain: real, at: real)
    ensures Pull(gain, at, at) == 0.0
  {}

  // A spring torque cut to what damping and feedforward leave of the limit cuts the total to the limit.
  lemma CutTotal(wanted: real, bias: real, rest: real, limit: real)
    requires rest == -bias
    ensures Clamp(wanted, bias - limit, bias + limit) + rest == Bound(wanted + rest, limit)
  {}

  // Gate 4 in torques: the spring torque of the windowed target, plus the rest, is the wanted torque
  // cut to the limit.
  lemma WindowCutsTorque(q: real, m: Motor, dq: real, kp: real, kd: real, tau: real, limit: real)
    requires kp > KP_ZERO
    ensures Pull(kp, TorqueWindow(q, m, dq, kp, kd, tau, limit), m.q) + (Pull(kd, dq, m.dq) + tau)
         == Bound(Pull(kp, q, m.q) + (Pull(kd, dq, m.dq) + tau), limit)
  {
    var bias := Pull(kd, m.dq, dq) - tau;
    WindowedPull(q, kp, bias - limit, bias + limit, m.q);
    PullReversed(kd, dq, m.dq);
    CutTotal(Pull(kp, q, m.q), bias, Pull(kd, dq, m.dq) + tau, limit);
  }

  // --- The torque of every tracking frame -----------------------------------------------------------

  // A serial joint applies what its controller asked for, cut to the limit.
  lemma SerialTorque(c: Cmd, m: Motor, j: Joint)
    requires c.kp > KP_ZERO
    ensures Torque(Finish(c, m, j, false), m) == Bound(Torque(c.(tau := Bound(c.tau, j.tauLimit)), m), j.tauLimit)
  {
    var tau := Bound(c.tau, j.tauLimit);
    WindowCutsTorque(c.q, m, c.dq, c.kp, c.kd, tau, j.tauLimit);
    assert Torque(c.(tau := tau), m) == Pull(c.kp, c.q, m.q) + (Pull(c.kd, c.dq, m.dq) + tau);
  }

  // What a converted parallel joint applies: the windowed spring, clamped once more, and the damping.
  lemma ParallelTorque(c: Cmd, m: Motor, j: Joint)
    requires c.kp > KP_ZERO
    ensures Torque(Finish(c, m, j, true), m) == Converted(Pull(c.kp, c.q, m.q), Pull(c.kd, c.dq, m.dq), j.tauLimit)
  {
    var w := TorqueWindow(c.q, m, c.dq, c.kp, c.kd, 0.0, j.tauLimit);
    WindowCutsTorque(c.q, m, c.dq, c.kp, c.kd, 0.0, j.tauLimit);
    ConvertedOf(Pull(c.kp, c.q, m.q), Pull(c.kd, c.dq, m.dq), Pull(c.kp, w, m.q), j.tauLimit);
    assert Pull(0.0, m.q, m.q) == 0.0;
  }

  function Converted(spring: real, damping: real, limit: real): real {
    Bound(Bound(spring + damping, limit) - damping, limit) + damping
  }

  lemma ConvertedOf(spring: real, damping: real, cut: real, limit: real)
    requires cut + (damping + 0.0) == Bound(spring + (damping + 0.0), limit)
    ensures Bound(cut, limit) + damping == Converted(spring, damping, limit)
  {}

  // At kp ~ 0 there is no spring to cut: the damping goes out as commanded, with the feedforward
  // unless the conversion dropped it.
  lemma SpringlessTorque(c: Cmd, m: Motor, j: Joint, parallel: bool)
    requires c.kp <= KP_ZERO && j.tauLimit >= 0.0
    ensures Torque(Finish(c, m, j, parallel), m)
         == Pull(c.kd, c.dq, m.dq) + if parallel && c.kp > 0.0 then 0.0 else Bound(c.tau, j.tauLimit)
  {
    PullNowhere(c.kp, m.q);
    PullNowhere(0.0, m.q);
  }

  // Exactly when a frame's torque stays within the limit, for any controller's output: always with a
  // spring on a serial joint; with a spring on a parallel joint while the damping is within twice the
  // limit; without one while the damping (and the feedforward, where it goes out) is within it.
  predicate Bounded(c: Cmd, m: Motor, j: Joint, parallel: bool) {
    var damping := Pull(c.kd, c.dq, m.dq);
    if c.kp > KP_ZERO then parallel ==> Within(damping, 2.0 * j.tauLimit)
    else if parallel && c.kp > 0.0 then Within(damping, j.tauLimit)
    else Within(damping + Bound(c.tau, j.tauLimit), j.tauLimit)
  }

  lemma TorqueBoundIff(c: Cmd, m: Motor, j: Joint, parallel: bool)
    requires j.tauLimit >= 0.0
    ensures Within(Torque(Finish(c, m, j, parallel), m), j.tauLimit) <==> Bounded(c, m, j, parallel)
  {
    if c.kp <= KP_ZERO {
      SpringlessTorque(c, m, j, parallel);
    } else if parallel {
      ParallelTorque(c, m, j);
      TwoCuts(Pull(c.kp, c.q, m.q), Pull(c.kd, c.dq, m.dq), j.tauLimit);
    } else {
      SerialTorque(c, m, j);
      BoundWithin(Torque(c.(tau := Bound(c.tau, j.tauLimit)), m), j.tauLimit);
    }
  }

  lemma BoundWithin(x: real, limit: real)
    requires limit >= 0.0
    ensures Within(Bound(x, limit), limit)
  {}

  // The window and the conversion's clamp leave the total within the limit exactly when the two
  // ranges meet.
  lemma TwoCuts(spring: real, damping: real, limit: real)
    requires limit >= 0.0
    ensures Within(Converted(spring, damping, limit), limit) <==> Within(damping, 2.0 * limit)
  {}

  // Every bridge_pd frame is within the limit, on serial and parallel joints alike.
  lemma BridgePdBounded(target: Cmd, m: Motor, j: Joint, parallel: bool)
    requires j.tauLimit >= 0.0
    ensures Within(Torque(Finish(BridgePd(target, m), m, j, parallel), m), j.tauLimit)
  {
    TorqueBoundIff(BridgePd(target, m), m, j, parallel);
    BoundWithin(Torque(target, m), j.tauLimit);
  }

  // motor_pd and bridge_pd put the same torque on a serial joint with a spring and an admissible
  // feedforward: the PD torque cut to the limit.
  lemma ControllersAgree(target: Cmd, m: Motor, j: Joint)
    requires j.tauLimit >= 0.0 && target.kp > KP_ZERO && Within(target.tau, j.tauLimit)
    ensures Torque(Finish(MotorPd(target), m, j, false), m) == Bound(Torque(target, m), j.tauLimit)
    ensures Torque(Finish(BridgePd(target, m), m, j, false), m) == Bound(Torque(target, m), j.tauLimit)
  {
    SerialTorque(target, m, j);
    assert target.(tau := Bound(target.tau, j.tauLimit)) == target;
    SpringlessTorque(BridgePd(target, m), m, j, false);
  }

  // Adding p to x and cutting to the limit gives x back.
  predicate Rests(p: real, x: real, limit: real) {
    Within(x, limit) && (p == 0.0 || (x == limit && p > 0.0) || (x == -limit && p < 0.0))
  }

  lemma RestsIff(p: real, x: real, limit: real)
    requires limit >= 0.0
    ensures x == Bound(p + x, limit) <==> Rests(p, x, limit)
  {}

  // x and y are one torque, or both are cut to the same one.
  predicate SameCut(x: real, y: real, limit: real) {
    x == y || limit == 0.0 || (x >= limit && y >= limit) || (x <= -limit && y <= -limit)
  }

  // On a converted joint the spring is cut before the damping joins it, and the feedforward is dropped.
  predicate ParallelAgrees(spring: real, damping: real, tau: real, limit: real) {
    Within(damping, 2.0 * limit) && SameCut(Bound(spring, limit) + damping, spring + damping + tau, limit)
  }

  lemma CutsAlike(x: real, y: real, limit: real)
    requires limit >= 0.0
    ensures Bound(x, limit) == Bound(y, limit) <==> SameCut(x, y, limit)
  {}

  lemma ParallelAgreesIff(spring: real, damping: real, tau: real, limit: real)
    requires limit >= 0.0
    ensures Converted(spring, damping, limit) == Bound(spring + damping + tau, limit)
       <==> ParallelAgrees(spring, damping, tau, limit)
  {
    CutsAlike(Bound(spring, limit) + damping, spring + damping + tau, limit);
    ConvertedInOrder(spring, damping, limit);
  }

  // As long as the window and the conversion's clamp meet, their order does not matter; else the limit is missed.
  lemma ConvertedInOrder(spring: real, damping: real, limit: real)
    requires limit >= 0.0
    ensures if Within(damping, 2.0 * limit)
            then Converted(spring, damping, limit) == Bound(Bound(spring, limit) + damping, limit)
            else !Within(Converted(spring, damping, limit), limit)
  {}

  // Exactly when the two controllers put the same torque on a joint. With a spring: always on a serial joint; on a
  // parallel one when neither the spring's own cut nor the dropped feedforward tells. Up to 1e-6, where bridge_pd adds
  // the spring motor_pd does not send: when the rest needs no cut and the spring changes nothing.
  predicate SameTorque(t: Cmd, m: Motor, j: Joint, parallel: bool) {
    var spring, damping := Pull(t.kp, t.q, m.q), Pull(t.kd, t.dq, m.dq);
    if t.kp > KP_ZERO then
      !parallel || ParallelAgrees(spring, damping, t.tau, j.tauLimit)
    else if parallel && t.kp > 0.0 then Rests(spring + t.tau, damping, j.tauLimit)
    else Rests(spring, damping + t.tau, j.tauLimit)
  }

  lemma ControllersAgreeIff(t: Cmd, m: Motor, j: Joint, parallel: bool)
    requires j.tauLimit >= 0.0 && Within(t.tau, j.tauLimit)
    ensures Torque(Finish(MotorPd(t), m, j, parallel), m) == Torque(Finish(BridgePd(t, m), m, j, parallel), m)
       <==> SameTorque(t, m, j, parallel)
  {
    var spring, damping := Pull(t.kp, t.q, m.q), Pull(t.kd, t.dq, m.dq);
    BridgePdTorque(t, m, j, parallel);
    if t.kp > KP_ZERO {
      if parallel {
        ParallelTorque(t, m, j);
        ParallelAgreesIff(spring, damping, t.tau, j.tauLimit);
      } else {
        ControllersAgree(t, m, j);
      }
    } else {
      SpringlessTorque(t, m, j, parallel);
      RestsIff(spring + t.tau, damping, j.tauLimit);
      RestsIff(spring, damping + t.tau, j.tauLimit);
    }
  }

  lemma BridgePdTorque(t: Cmd, m: Motor, j: Joint, parallel: bool)
    requires j.tauLimit >= 0.0
    ensures Torque(Finish(BridgePd(t, m), m, j, parallel), m) == Bound(Torque(t, m), j.tauLimit)
  {
    SpringlessTorque(BridgePd(t, m), m, j, parallel);
    NoGain(t.dq, m.dq);
  }

  lemma NoGain(to: real, from: real)
    ensures Pull(0.0, to, from) == 0.0
  {}

  // lastCommand_ is the motor_pd frame itself on a serial joint with an admissible feedforward.
  lemma LastIsMotorPdFrame(target: Cmd, m: Motor, j: Joint)
    requires Within(target.tau, j.tauLimit)
    ensures NextLast(target, m, j, false) == Finish(MotorPd(target), m, j, false)
  {}

  // --- Hold frames ------------------------------------------------------------------------------------

  // A hold frame's spring never asks for more than the limit, in serial and parallel form, and the two forms pull
  // alike; the joint's damping comes on top.
  lemma HoldTorque(j: Joint, m: Motor, qHold: real)
    requires j.tauLimit >= 0.0 && j.kp > 0.0
    ensures var f := StopFrame(Hold, j, m.q, qHold);
      && Pull(f.kp, f.q, m.q) + f.tau == Bound(Pull(j.kp, qHold, m.q), j.tauLimit)
      && Torque(f, m) == Bound(Pull(j.kp, qHold, m.q), j.tauLimit) + Pull(j.kd, 0.0, m.dq)
  {
    WindowedPull(qHold, j.kp, -j.tauLimit, j.tauLimit, m.q);
    DivNegated(j.tauLimit, j.kp);
    assert HeldPose(j, m.q, qHold) == Window(qHold, j.kp, -j.tauLimit, j.tauLimit, m.q);
    PullNowhere(0.0, m.q);
  }

  // A damp frame only damps.
  lemma DampTorque(j: Joint, m: Motor, qHold: real)
    requires j.kp > 0.0
    ensures Torque(StopFrame(Damp, j, m.q, qHold), m) == Pull(j.dampKd, 0.0, m.dq)
  {
    PullNowhere(0.0, m.q);
  }

  lemma DivNegated(x: real, y: real)
    requires y > 0.0
    ensures (-x) / y == -(x / y)
  {}
}
