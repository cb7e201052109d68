/** The ramp of one joint in exact reals: a command's interpolation (interpolationParams_,
trackingFrame_), gates 1 and 2, and the `lastCommand_` each tick leaves to the next.
*/
module Ramp {
  import opened Numbers
  import opened Gates

  // CmdParams: every field a line over the phase.
  datatype Line = Line(at0: real, rise: real)

  datatype Params = Params(q: Line, dq: Line, tau: Line, kp: Line, kd: Line)

  function At(l: Line, phase: real): real {
    l.at0 + l.rise * phase
  }

  function Mix(last: real, goal: real, order: real): real {
    last * order + goal * (1.0 - order)
  }

  // The order of a checked command, or 1.
  predicate ValidOrder(order: real) {
    0.0 <= order <= 1.0
  }

  predicate LowPass(order: real) {
    0.000001 < order < 1.0 - 0.000001
  }

  function Constant(x: real): Line {
    Line(x, 0.0)
  }

  function From(x: real, to: real): Line {
    Line(x, to - x)
  }

  // interpolationParams_: order 1 ramps from the last command, any other holds the new one.
  function InterpolationParams(order: real, desired: Cmd, last: Cmd): Params
    requires ValidOrder(order)
  {
    if order < 1.0 then
      Params(Constant(desired.q), Constant(desired.dq), Constant(desired.tau), Constant(desired.kp),
          Constant(desired.kd))
    else
      Params(From(last.q, desired.q), From(last.dq, desired.dq), Constant(desired.tau),
             From(last.kp, desired.kp), From(last.kd, desired.kd))
  }

  // How far a ramp from tStart to tFinal is at now.
  function Phase(now: real, tStart: real, tFinal: real): (r: real)
    ensures 0.0 <= r <= 1.0
  {
    if tFinal - tStart > 0.000001 then Clamp((now - tStart) / (tFinal - tStart), 0.0, 1.0) else 1.0
  }

  // A later tick is never earlier in the ramp.
  lemma PhaseNeverFalls(now: real, later: real, tStart: real, tFinal: real)
    requires now <= later
    ensures Phase(now, tStart, tFinal) <= Phase(later, tStart, tFinal)
  {
    if tFinal - tStart > 0.000001 {
      QuotientOrder(now - tStart, later - tStart, tFinal - tStart);
    }
  }

  lemma QuotientOrder(x: real, y: real, d: real)
    requires x <= y && d > 0.0
    ensures x / d <= y / d
  {
    ScaledQuotient(x, d);
    ScaledQuotient(y, d);
    ScaledOrder(d, y / d, x / d);
  }

  function Interpolated(order: real, l: Line, phase: real, last: real): real {
    if LowPass(order) then Mix(last, l.at0, order) else At(l, phase)
  }

  // The target of one tick: interpolation, then gates 1 and 2.
  function Target(order: real, p: Params, phase: real, last: Cmd, j: Joint, dt: real): Cmd {
    Cmd(LimitTarget(Interpolated(order, p.q, phase, last.q), last.q, j, dt),
        Bound(Interpolated(order, p.dq, phase, last.dq), j.dqLimit),
        At(p.kp, phase), At(p.kd, phase), At(p.tau, phase))
  }

  // --- A run of ticks under one command ------------------------------------------------------------

  datatype Tick = Tick(phase: real, motor: Motor)

  datatype Command = Command(order: real, params: Params, joint: Joint, dt: real, parallel: bool)

  function TickTarget(c: Command, last: Cmd, t: Tick): Cmd {
    Target(c.order, c.params, t.phase, last, c.joint, c.dt)
  }

  function TickLast(c: Command, last: Cmd, t: Tick): Cmd {
    NextLast(TickTarget(c, last, t), t.motor, c.joint, c.parallel)
  }

  // lastCommand_ after the first n ticks.
  function Last(c: Command, last: Cmd, ts: seq<Tick>, n: nat): Cmd
    requires n <= |ts|
  {
    if n == 0 then last else TickLast(c, Last(c, last, ts, n - 1), ts[n - 1])
  }

  // Gate 4 does not move the target of tick i.
  predicate FreeAt(c: Command, last: Cmd, ts: seq<Tick>, i: nat)
    requires i < |ts|
  {
    TickLast(c, Last(c, last, ts, i), ts[i]).q == TickTarget(c, Last(c, last, ts, i), ts[i]).q
  }

  // Gate 4 moves none of the first n targets.
  ghost predicate Free(c: Command, last: Cmd, ts: seq<Tick>, n: nat)
    requires n <= |ts|
  {
    forall i: nat :: i < n ==> FreeAt(c, last, ts, i)
  }

  // The clock never turns back.
  ghost predicate Ordered(ts: seq<Tick>) {
    forall i: nat, k: nat :: i <= k < |ts| ==> 0.0 <= ts[i].phase <= ts[k].phase <= 1.0
  }

  // What gate 1 lets through at a tick: the value gate 2 moves toward.
  function Aim(c: Command, q: real, phase: real): real {
    Clamp(Interpolated(c.order, c.params.q, phase, q), c.joint.qMin, c.joint.qMax)
  }

  predicate RateLimited(c: Command) {
    c.joint.qRateLimit > 0.0 && c.dt > 0.0
  }

  function StepOf(c: Command): real {
    c.joint.qRateLimit * c.dt
  }

  lemma StepPositive(c: Command)
    requires RateLimited(c)
    ensures StepOf(c) > 0.0
  {
    MulPositive(c.joint.qRateLimit, c.dt);
  }

  // Gate 2 moves from q toward the aim, by at most one step.
  function Moved(c: Command, q: real, aim: real): real {
    if RateLimited(c) then q + Bound(aim - q, StepOf(c)) else aim
  }

  lemma TargetMoves(c: Command, x: Cmd, t: Tick)
    ensures TickTarget(c, x, t).q == Moved(c, x.q, Aim(c, x.q, t.phase))
  {}

  lemma LastMoves(c: Command, last: Cmd, ts: seq<Tick>, n: nat)
    requires n < |ts|
    ensures FreeAt(c, last, ts, n) ==>
      Last(c, last, ts, n + 1).q
      == Moved(c, Last(c, last, ts, n).q, Aim(c, Last(c, last, ts, n).q, ts[n].phase))
  {
    TargetMoves(c, Last(c, last, ts, n), ts[n]);
  }

  // x is on the way from q to goal.
  predicate Between(q: real, x: real, goal: real) {
    q <= x <= goal || goal <= x <= q
  }

  lemma MovedBetween(c: Command, q: real, aim: real)
    ensures Between(q, Moved(c, q, aim), aim)
    ensures RateLimited(c) ==> Abs(Moved(c, q, aim) - q) <= StepOf(c)
  {
    if RateLimited(c) {
      StepPositive(c);
    }
  }

  // --- The range -------------------------------------------------------------------------------------

  predicate InRange(c: Command, q: real) {
    c.joint.qMin <= q <= c.joint.qMax
  }

  // How far q is outside the joint's range.
  function Outside(c: Command, q: real): real {
    if q < c.joint.qMin then c.joint.qMin - q else if q > c.joint.qMax then q - c.joint.qMax else 0.0
  }

  // Whatever the command: once in range the target never leaves it, and from outside it comes one
  // full step closer each tick, or all the way.
  lemma ReturnsToRange(c: Command, last: Cmd, ts: seq<Tick>, n: nat)
    requires n < |ts| && Loaded(c.joint)
    ensures var q, q' := Last(c, last, ts, n).q, Last(c, last, ts, n + 1).q;
      FreeAt(c, last, ts, n) ==>
      && (InRange(c, q) ==> InRange(c, q'))
      && Outside(c, q') == (if RateLimited(c) && Outside(c, q) > StepOf(c) then Outside(c, q) - StepOf(c) else 0.0)
  {
    LastMoves(c, last, ts, n);
    if RateLimited(c) {
      StepPositive(c);
    }
  }

  lemma {:induction false} StaysInRange(c: Command, last: Cmd, ts: seq<Tick>, i: nat, n: nat)
    requires i <= n <= |ts| && Loaded(c.joint) && Free(c, last, ts, n)
    ensures InRange(c, Last(c, last, ts, i).q) ==> InRange(c, Last(c, last, ts, n).q)
    decreases n
  {
    if i < n {
      StaysInRange(c, last, ts, i, n - 1);
      assert FreeAt(c, last, ts, n - 1);
      ReturnsToRange(c, last, ts, n - 1);
    }
  }

  // --- Monotone, no overshoot ---------------------------------------------------------------------------

  lemma MulNonNegative(x: real, y: real)
    requires x >= 0.0 && y >= 0.0
    ensures x * y >= 0.0
  {}

  // goal is a part of the way from q, whatever its direction.
  lemma PartWay(q: real, goal: real, part: real)
    requires 0.0 <= part <= 1.0
    ensures Between(q, q + (goal - q) * part, goal)
  {
    if q <= goal {
      MulNonNegative(goal - q, part);
      MulNonNegative(goal - q, 1.0 - part);
      assert (goal - q) * (1.0 - part) == (goal - q) - (goal - q) * part;
    } else {
      MulNonNegative(q - goal, part);
      MulNonNegative(q - goal, 1.0 - part);
      assert (q - goal) * (1.0 - part) == (q - goal) + (goal - q) * part;
      assert (q - goal) * part == -((goal - q) * part);
    }
  }

  lemma MixBetween(q: real, goal: real, order: real)
    requires ValidOrder(order)
    ensures Between(q, Mix(q, goal, order), goal)
  {
    PartWay(q, goal, 1.0 - order);
    assert Mix(q, goal, order) == q + (goal - q) * (1.0 - order);
  }

  lemma LineBetween(from: real, goal: real, phase: real, later: real)
    requires 0.0 <= phase <= later <= 1.0
    ensures Between(from, At(From(from, goal), phase), goal)
    ensures Between(At(From(from, goal), phase), At(From(from, goal), later), goal)
  {
    PartWay(from, goal, phase);
    PartWay(from, goal, later);
    if from <= goal {
      MulNonNegative(goal - from, later - phase);
    } else {
      MulNonNegative(from - goal, later - phase);
    }
    assert At(From(from, goal), later) - At(From(from, goal), phase) == (goal - from) * (later - phase);
  }

  // The command is a move to a pose in range, from the last command.
  ghost predicate IsMove(c: Command, desired: Cmd, last: Cmd) {
    && ValidOrder(c.order) && c.params == InterpolationParams(c.order, desired, last)
    && Loaded(c.joint) && InRange(c, desired.q)
  }

  lemma BetweenOnward(from: real, before: real, aim: real, moved: real, goal: real)
    requires Between(from, before, goal) && Between(before, aim, goal) && Between(before, moved, aim)
    ensures Between(from, moved, goal) && Between(moved, aim, goal)
  {}

  // Clamping to a range that holds the goal keeps the order of the way there.
  lemma ClampOnward(q: real, x: real, y: real, goal: real, lo: real, hi: real)
    requires lo <= goal <= hi && Between(q, Clamp(x, lo, hi), goal) && Between(x, y, goal)
    ensures Between(q, Clamp(y, lo, hi), goal)
  {}

  // A later tick of an order-1 ramp aims no less far.
  lemma LineOnward(c: Command, desired: Cmd, last: Cmd, q: real, phase: real, later: real)
    requires IsMove(c, desired, last) && c.order == 1.0 && 0.0 <= phase <= later <= 1.0
    requires Between(q, Aim(c, q, phase), desired.q)
    ensures Between(q, Aim(c, q, later), desired.q)
  {
    LineBetween(last.q, desired.q, phase, later);
    ClampOnward(q, At(c.params.q, phase), At(c.params.q, later), desired.q, c.joint.qMin, c.joint.qMax);
  }

  lemma FirstAim(c: Command, desired: Cmd, last: Cmd, phase: real)
    requires IsMove(c, desired, last) && 0.0 <= phase <= 1.0
    ensures Between(last.q, Aim(c, last.q, phase), desired.q)
  {
    if LowPass(c.order) {
      MixBetween(last.q, desired.q, c.order);
    } else if c.order == 1.0 {
      LineBetween(last.q, desired.q, phase, phase);
    } else {
      AtConstant(desired.q, phase);
    }
  }

  lemma FilterAim(c: Command, desired: Cmd, last: Cmd, q: real, phase: real)
    requires IsMove(c, desired, last) && c.order < 1.0
    ensures Between(q, Aim(c, q, phase), desired.q)
  {
    if LowPass(c.order) {
      MixBetween(q, desired.q, c.order);
    } else {
      AtConstant(desired.q, phase);
    }
  }

  // At every tick the aim lies between the target and the goal.
  lemma {:induction false} AimAhead(c: Command, desired: Cmd, last: Cmd, ts: seq<Tick>, n: nat)
    requires IsMove(c, desired, last) && n < |ts| && Ordered(ts) && Free(c, last, ts, n)
    ensures var q := Last(c, last, ts, n).q; Between(q, Aim(c, q, ts[n].phase), desired.q)
    ensures Between(last.q, Last(c, last, ts, n).q, desired.q)
    decreases n
  {
    var q := Last(c, last, ts, n).q;
    if n == 0 {
      FirstAim(c, desired, last, ts[0].phase);
    } else {
      AimAhead(c, desired, last, ts, n - 1);
      assert FreeAt(c, last, ts, n - 1);
      var before, phase := Last(c, last, ts, n - 1).q, ts[n - 1].phase;
      var aim := Aim(c, before, phase);
      LastMoves(c, last, ts, n - 1);
      MovedBetween(c, before, aim);
      BetweenOnward(last.q, before, aim, q, desired.q);
      if c.order < 1.0 {
        FilterAim(c, desired, last, q, ts[n].phase);
      } else {
        assert Aim(c, q, phase) == aim;
        LineOnward(c, desired, last, q, phase, ts[n].phase);
      }
    }
  }

  lemma AtConstant(x: real, phase: real)
    ensures At(Constant(x), phase) == x
  {}

  // The target moves monotonically toward the goal, never past it, at most one step a tick, for every
  // interpolation order.
  lemma RampLaw(c: Command, desired: Cmd, last: Cmd, ts: seq<Tick>, n: nat)
    requires IsMove(c, desired, last) && n < |ts| && Ordered(ts) && Free(c, last, ts, n + 1)
    ensures var q, q' := Last(c, last, ts, n).q, Last(c, last, ts, n + 1).q;
      Between(q, q', desired.q) && (RateLimited(c) ==> Abs(q' - q) <= StepOf(c))
  {
    var q := Last(c, last, ts, n).q;
    assert FreeAt(c, last, ts, n);
    AimAhead(c, desired, last, ts, n);
    LastMoves(c, last, ts, n);
    MovedBetween(c, q, Aim(c, q, ts[n].phase));
  }

  // An order-1 command takes gains and speed from the last command to its own along with the position; its feedforward
  // goes out at once, and the speed stays within the joint's limit.
  lemma GainsRamp(desired: Cmd, last: Cmd, j: Joint, dt: real, phase: real)
    requires 0.0 <= phase <= 1.0 && j.dqLimit >= 0.0
    ensures var t := Target(1.0, InterpolationParams(1.0, desired, last), phase, last, j, dt);
      && Between(last.kp, t.kp, desired.kp) && Between(last.kd, t.kd, desired.kd)
      && t.tau == desired.tau && Within(t.dq, j.dqLimit)
      && (phase == 0.0 ==> t.kp == last.kp && t.kd == last.kd && t.dq == Bound(last.dq, j.dqLimit))
      && (phase == 1.0 ==> t.kp == desired.kp && t.kd == desired.kd && t.dq == Bound(desired.dq, j.dqLimit))
  {
    LineBetween(last.kp, desired.kp, phase, phase);
    LineBetween(last.kd, desired.kd, phase, phase);
    AtConstant(desired.tau, phase);
    LineEnds(last.kp, desired.kp);
    LineEnds(last.kd, desired.kd);
    LineEnds(last.dq, desired.dq);
    BoundWithin(At(From(last.dq, desired.dq), phase), j.dqLimit);
  }

  lemma LineEnds(from: real, to: real)
    ensures At(From(from, to), 0.0) == from && At(From(from, to), 1.0) == to
  {}

  // --- Landing at order 0 -----------------------------------------------------------------------------

  // The command goes out as a step: order 0, or so close to 0 or 1 that no filter runs.
  predicate IsStep(order: real) {
    order < 1.0 && !LowPass(order)
  }

  function Steps(n: nat, step: real): real {
    if n == 0 then 0.0 else Steps(n - 1, step) + step
  }

  lemma {:induction false} StepsIsProduct(n: nat, step: real)
    ensures Steps(n, step) == Scaled(step, n as real)
  {
    if n > 0 {
      StepsIsProduct(n - 1, step);
      assert step * n as real == step * (n - 1) as real + step;
    }
  }

  // What is left to go after n ticks.
  lemma {:induction false} Remaining(c: Command, desired: Cmd, last: Cmd, ts: seq<Tick>, n: nat)
    requires IsMove(c, desired, last) && IsStep(c.order) && RateLimited(c) && n <= |ts| && Free(c, last, ts, n)
    ensures var left := Abs(desired.q - last.q) - Steps(n, StepOf(c));
      Abs(desired.q - Last(c, last, ts, n).q) == if left > 0.0 then left else 0.0
    decreases n
  {
    StepPositive(c);
    if n > 0 {
      Remaining(c, desired, last, ts, n - 1);
      assert FreeAt(c, last, ts, n - 1);
      LastMoves(c, last, ts, n - 1);
      AtConstant(desired.q, ts[n - 1].phase);
    }
  }

  // ceil(distance / step).
  function TicksFor(distance: real, step: real): int
    requires step > 0.0
  {
    -((-(distance / step)).Floor)
  }

  lemma CeilingIff(d: real, n: int)
    ensures n as real >= d <==> n >= -((-d).Floor)
  {
    var f := (-d).Floor;
    assert f as real <= -d < f as real + 1.0;
    if n >= -f {
      assert n as real >= (-f) as real;
    } else {
      assert (n + 1) as real <= (-f) as real;
    }
  }

  lemma TicksForSteps(distance: real, step: real, n: nat)
    requires step > 0.0
    ensures Steps(n, step) >= distance <==> n >= TicksFor(distance, step)
  {
    StepsIsProduct(n, step);
    ScaledOrder(step, n as real, distance / step);
    ScaledQuotient(distance, step);
    CeilingIff(distance / step, n);
  }

  // A step command lands in exactly ceil(distance / step) ticks: not one earlier, and it stays.
  lemma LandsExactly(c: Command, desired: Cmd, last: Cmd, ts: seq<Tick>, n: nat)
    requires IsMove(c, desired, last) && IsStep(c.order) && RateLimited(c) && n <= |ts| && Free(c, last, ts, n)
    requires StepOf(c) > 0.0
    ensures Last(c, last, ts, n).q == desired.q <==> n >= TicksFor(Abs(desired.q - last.q), StepOf(c))
  {
    Remaining(c, desired, last, ts, n);
    TicksForSteps(Abs(desired.q - last.q), StepOf(c), n);
  }

  // --- When gate 4 leaves a ramp alone ------------------------------------------------------------------

  // Gate 4 has nothing to cut of a target q, dq at tick t: reaching it takes no more than the torque limit; without a
  // spring it is where the joint is.
  predicate Admits(c: Command, t: Tick, q: real, dq: real) {
    var kp, kd := At(c.params.kp, t.phase), At(c.params.kd, t.phase);
    if kp > KP_ZERO then
      Within(Pull(kp, q, t.motor.q) + (Pull(kd, dq, t.motor.dq) +
          (if c.parallel then 0.0 else At(c.params.tau, t.phase))),
             c.joint.tauLimit)
    else q == t.motor.q
  }

  lemma FreeIffAdmits(c: Command, x: Cmd, t: Tick)
    requires c.joint.tauLimit >= 0.0
    ensures var target := TickTarget(c, x, t);
      TickLast(c, x, t).q == target.q <==> Admits(c, t, target.q, target.dq)
  {
    var target := TickTarget(c, x, t);
    var tau := if c.parallel then 0.0 else target.tau;
    if target.kp > KP_ZERO {
      var w := TorqueWindow(target.q, t.motor, target.dq, target.kp, target.kd, tau, c.joint.tauLimit);
      WindowCutsTorque(target.q, t.motor, target.dq, target.kp, target.kd, tau, c.joint.tauLimit);
      PullTells(target.kp, w, target.q, t.motor.q);
    }
  }

  lemma PullTells(gain: real, x: real, y: real, from: real)
    requires gain > 0.0
    ensures Pull(gain, x, from) == Pull(gain, y, from) <==> x == y
  {
    ScaledOrder(gain, x - from, y - from);
    ScaledOrder(gain, y - from, x - from);
  }

  // Every target on the way from last to desired can be reached at tick t.
  ghost predicate Roomy(c: Command, desired: Cmd, last: Cmd, t: Tick) {
    forall q, dq :: Between(last.q, q, desired.q) && SpeedBetween(c, last.dq, dq, desired.dq) ==> Admits(c, t, q, dq)
  }

  predicate SpeedBetween(c: Command, from: real, dq: real, to: real) {
    Between(Bound(from, c.joint.dqLimit), dq, Bound(to, c.joint.dqLimit))
  }

  lemma BoundBetween(x: real, y: real, z: real, limit: real)
    requires limit >= 0.0 && Between(x, y, z)
    ensures Between(Bound(x, limit), Bound(y, limit), Bound(z, limit))
  {}

  // The target's speed stays between the last command's and the goal's.
  lemma {:induction false} SpeedStays(c: Command, desired: Cmd, last: Cmd, ts: seq<Tick>, n: nat)
    requires IsMove(c, desired, last) && n < |ts| && Ordered(ts)
    ensures SpeedBetween(c, last.dq, TickTarget(c, Last(c, last, ts, n), ts[n]).dq, desired.dq)
    decreases n
  {
    var x, limit := Last(c, last, ts, n), c.joint.dqLimit;
    if n > 0 {
      SpeedStays(c, desired, last, ts, n - 1);
    }
    if LowPass(c.order) {
      MixBetween(x.dq, desired.dq, c.order);
      BoundBetween(x.dq, Mix(x.dq, desired.dq, c.order), desired.dq, limit);
    } else if c.order == 1.0 {
      LineBetween(last.dq, desired.dq, ts[n].phase, ts[n].phase);
      BoundBetween(last.dq, At(From(last.dq, desired.dq), ts[n].phase), desired.dq, limit);
    } else {
      AtConstant(desired.dq, ts[n].phase);
    }
  }

  // So a condition on the command and the measured states alone keeps gate 4 out of the whole ramp.
  lemma {:induction false} RoomyIsFree(c: Command, desired: Cmd, last: Cmd, ts: seq<Tick>, n: nat)
    requires IsMove(c, desired, last) && n <= |ts| && Ordered(ts)
    requires forall k :: 0 <= k < n ==> Roomy(c, desired, last, ts[k])
    ensures Free(c, last, ts, n)
    decreases n
  {
    if n > 0 {
      RoomyIsFree(c, desired, last, ts, n - 1);
      var x, t := Last(c, last, ts, n - 1), ts[n - 1];
      AimAhead(c, desired, last, ts, n - 1);
      TargetMoves(c, x, t);
      MovedBetween(c, x.q, Aim(c, x.q, t.phase));
      SpeedStays(c, desired, last, ts, n - 1);
      assert Roomy(c, desired, last, t);
      assert Admits(c, t, TickTarget(c, x, t).q, TickTarget(c, x, t).dq);
      FreeIffAdmits(c, x, t);
    }
  }

  // --- Holding still ---------------------------------------------------------------------------------------

  // The command of an arming's first ramp: to the pose it starts from, at rest.
  predicate IsStill(c: Command, pose: real) {
    && c.order == 1.0 && c.params.q == From(pose, pose) && c.params.dq == From(0.0, 0.0)
    && Loaded(c.joint) && InRange(c, pose)
  }

  lemma StillAim(c: Command, pose: real, x: real, phase: real)
    requires IsStill(c, pose)
    ensures Aim(c, x, phase) == pose
  {
    assert At(From(pose, pose), phase) == pose;
  }

  // Whatever a tick before left in last: the target is the pose exactly when gate 2 can reach it in one step.
  lemma StillTargetIff(c: Command, pose: real, x: Cmd, t: Tick)
    requires IsStill(c, pose)
    ensures TickTarget(c, x, t).q == pose <==> !RateLimited(c) || Abs(pose - x.q) <= StepOf(c)
    ensures TickTarget(c, x, t).dq == 0.0
  {
    StillAim(c, pose, x.q, t.phase);
    TargetMoves(c, x, t);
    assert At(From(0.0, 0.0), t.phase) == 0.0;
    if RateLimited(c) {
      StepPositive(c);
    }
  }

  // lastCommand_ is at the pose before and after each of the first n ticks.
  predicate StillFor(c: Command, pose: real, last: Cmd, ts: seq<Tick>, n: nat)
    requires n <= |ts|
  {
    Last(c, last, ts, n).q == pose && (n > 0 ==> StillFor(c, pose, last, ts, n - 1))
  }

  predicate LastIs(c: Command, pose: real, last: Cmd, ts: seq<Tick>, k: nat)
    requires k <= |ts|
  {
    Last(c, last, ts, k).q == pose
  }

  lemma {:induction false} StillForAll(c: Command, pose: real, last: Cmd, ts: seq<Tick>, n: nat)
    requires n <= |ts|
    ensures StillFor(c, pose, last, ts, n) <==> forall k: nat :: k <= n ==> LastIs(c, pose, last, ts, k)
  {
    assert LastIs(c, pose, last, ts, n) <==> Last(c, last, ts, n).q == pose;
    if n > 0 {
      StillForAll(c, pose, last, ts, n - 1);
    }
  }

  // Holding the pose at rest takes no more than the torque limit at any of the first n ticks.
  predicate AdmitsFor(c: Command, pose: real, ts: seq<Tick>, n: nat)
    requires n <= |ts|
  {
    n > 0 ==> Admits(c, ts[n - 1], pose, 0.0) && AdmitsFor(c, pose, ts, n - 1)
  }

  lemma StillTickIff(c: Command, pose: real, x: Cmd, t: Tick)
    requires IsStill(c, pose) && x.q == pose
    ensures TickLast(c, x, t).q == pose <==> Admits(c, t, pose, 0.0)
  {
    if RateLimited(c) {
      StepPositive(c);
    }
    StillTargetIff(c, pose, x, t);
    FreeIffAdmits(c, x, t);
  }

  // The first n ticks leave the pose exactly when holding it takes no more than the torque limit at each of them.
  lemma {:induction false} HoldsStillIff(c: Command, pose: real, last: Cmd, ts: seq<Tick>, n: nat)
    requires IsStill(c, pose) && last.q == pose && n <= |ts|
    ensures StillFor(c, pose, last, ts, n) <==> AdmitsFor(c, pose, ts, n)
  {
    if n > 0 {
      HoldsStillIff(c, pose, last, ts, n - 1);
      var x := Last(c, last, ts, n - 1);
      if StillFor(c, pose, last, ts, n - 1) {
        StillTickIff(c, pose, x, ts[n - 1]);
      }
    }
  }
}
