/** The laws of Ramp on the robot: what one joint of the arrays does over a run of ticks under one command, on finite
states and on corrupt ones.
*/
module RobotRamp {
  import opened Numbers
  import opened Gates
  import opened MotorPipeline
  import opened PipelineLaws
  import Ramp

  // A run of ticks and nothing else.
  ghost predicate OnlyTicks(b: Body, s: State, es: seq<Event>, i: nat) {
    Shaped(b, s) && AllPossible(b, es) && i < |b.joints| && forall k :: 0 <= k < |es| ==> es[k].Tick?
  }

  // A tick's phase, and the gain of its target.
  function PhaseOf(s: State, e: Event): real
    requires e.Tick?
  {
    Ramp.Phase(e.now, s.tStart, s.tFinal)
  }

  function KpOf(s: State, e: Event, i: nat): Num
    requires e.Tick? && i < |s.params|
  {
    AtN(s.params[i].kp, PhaseOf(s, e))
  }

  lemma {:induction false} TicksKeepCommand(b: Body, s: State, es: seq<Event>, i: nat)
    requires OnlyTicks(b, s, es, i)
    ensures SameButTick(s, AfterAll(b, s, es))
  {
    if es != [] {
      TicksKeepCommand(b, s, es[..|es| - 1], i);
    }
  }

  // --- How long a NaN lasts -----------------------------------------------------------------------------

  ghost predicate FiniteCommandAt(b: Body, s: State, i: nat) {
    i < |b.joints| == |s.params| && Ramp.ValidOrder(s.order) && FiniteParams(s.params[i]) && Loaded(b.joints[i])
  }

  // A window never makes a NaN of a q that is none.
  lemma WindowKeepsNaN(q: Num, kp: Num, lo: Num, hi: Num, qMeas: Num)
    ensures WindowN(q, kp, lo, hi, qMeas).NaN? <==> q.NaN?
  {}

  // One tick: with a spring lastCommand_ keeps a NaN exactly under a low-pass; without one it takes the measured q.
  lemma NaNStep(b: Body, s: State, e: Event, i: nat)
    requires Shaped(b, s) && Possible(b, e) && e.Tick? && FiniteCommandAt(b, s, i)
    ensures Targets(b, s, e.now)[i].q.NaN? <==> Ramp.LowPass(s.order) && s.last[i].q.NaN?
    ensures IsFinite(KpOf(s, e, i))
    ensures AfterEvent(b, s, e).last[i].q.NaN? <==>
            if KpOf(s, e, i).r > KP_ZERO then Ramp.LowPass(s.order) && s.last[i].q.NaN? else e.motors[i].q.NaN?
  {
    var j, phase := b.joints[i], PhaseOf(s, e);
    TargetFiniteIff(s.order, s.params[i], phase, s.last[i], j, b.dt);
    var t := Targets(b, s, e.now)[i];
    assert t == TargetN(s.order, s.params[i], phase, s.last[i], j, b.dt);
    TargetNaNIff(s.order, s.params[i], phase, s.last[i], j, b.dt);
    var tau := if Parallel(b, s.received, i) then ZERO else t.tau;
    var bias := Sub(PullN(t.kd, e.motors[i].dq, t.dq), tau);
    WindowKeepsNaN(t.q, t.kp, Sub(bias, Fin(j.tauLimit)), Add(bias, Fin(j.tauLimit)), e.motors[i].q);
    assert AfterEvent(b, s, e).last[i] == NextLastN(t, e.motors[i], j, Parallel(b, s.received, i));
  }

  lemma TargetNaNIff(order: real, p: ParamsN, phase: real, last: CmdN, j: Joint, dt: real)
    requires Ramp.ValidOrder(order) && FiniteParams(p) && Loaded(j)
    ensures TargetN(order, p, phase, last, j, dt).q.NaN? <==> Ramp.LowPass(order) && last.q.NaN?
  {
    if Ramp.LowPass(order) {
      MixOfFinite(last.q, p.q.at0, order);
    }
  }

  // Where a NaN comes in: at the start, or from the measured q of a tick without a spring.
  predicate NaNEnters(s: State, es: seq<Event>, i: nat, j: nat)
    requires j <= |es| && i < |s.last| && i < |s.params|
    requires forall k :: 0 <= k < |es| ==> es[k].Tick? && i < |es[k].motors|
  {
    if j == 0 then s.last[i].q.NaN? else !Springs(s, es[j - 1], i) && es[j - 1].motors[i].q.NaN?
  }

  predicate Springs(s: State, e: Event, i: nat)
    requires e.Tick? && i < |s.params|
  {
    Less(Fin(KP_ZERO), KpOf(s, e, i))
  }

  ghost predicate Persists(s: State, es: seq<Event>, i: nat, j: nat)
    requires j <= |es| && i < |s.last| && i < |s.params|
    requires forall k :: 0 <= k < |es| ==> es[k].Tick? && i < |es[k].motors|
  {
    NaNEnters(s, es, i, j) && forall k :: j <= k < |es| ==> Springs(s, es[k], i)
  }

  // A NaN that came in before the last tick outlives it exactly if that tick has a spring.
  lemma PersistsFront(s: State, es: seq<Event>, i: nat, j: nat)
    requires es != [] && j < |es| && i < |s.last| && i < |s.params|
    requires forall k :: 0 <= k < |es| ==> es[k].Tick? && i < |es[k].motors|
    ensures Persists(s, es, i, j) <==> Persists(s, es[..|es| - 1], i, j) && Springs(s, es[|es| - 1], i)
  {
    var front := es[..|es| - 1];
    assert NaNEnters(s, es, i, j) <==> NaNEnters(s, front, i, j);
    assert forall k :: j <= k < |front| ==> es[k] == front[k];
  }

  lemma NaNLastsSpring(b: Body, s: State, es: seq<Event>, front: seq<Event>, i: nat)
    requires es != [] && front == es[..|es| - 1] && OnlyTicks(b, s, es, i) && Springs(s, es[|es| - 1], i)
    ensures (exists j: nat :: j <= |es| && Persists(s, es, i, j)) <==>
            (exists j: nat :: j <= |front| && Persists(s, front, i, j))
  {
    forall j: nat | j <= |front|
      ensures Persists(s, es, i, j) <==> Persists(s, front, i, j)
    {
      PersistsFront(s, es, i, j);
    }
    assert !Persists(s, es, i, |es|);
  }

  lemma NaNLastsFresh(b: Body, s: State, es: seq<Event>, i: nat)
    requires es != [] && OnlyTicks(b, s, es, i) && !Springs(s, es[|es| - 1], i)
    ensures (exists j: nat :: j <= |es| && Persists(s, es, i, j)) <==> es[|es| - 1].motors[i].q.NaN?
  {
    assert Persists(s, es, i, |es|) <==> es[|es| - 1].motors[i].q.NaN?;
    forall j: nat | j < |es|
      ensures !Persists(s, es, i, j)
    {
      PersistsFront(s, es, i, j);
    }
  }

  lemma {:induction false} NaNLasts(b: Body, s: State, es: seq<Event>, i: nat)
    requires OnlyTicks(b, s, es, i) && FiniteCommandAt(b, s, i) && Ramp.LowPass(s.order)
    ensures AfterAll(b, s, es).last[i].q.NaN? <==> exists j: nat :: j <= |es| && Persists(s, es, i, j)
  {
    if es == [] {
      assert Persists(s, es, i, 0) <==> s.last[i].q.NaN?;
    } else {
      var n, front := |es| - 1, es[..|es| - 1];
      NaNLasts(b, s, front, i);
      TicksKeepCommand(b, s, front, i);
      NaNStep(b, AfterAll(b, s, front), es[n], i);
      if Springs(s, es[n], i) {
        NaNLastsSpring(b, s, es, front, i);
      } else {
        NaNLastsFresh(b, s, es, i);
      }
    }
  }

  // The target of the next tick is NaN if and only if a low-pass runs, a NaN came in, and every tick since had a
  // spring.
  lemma NaNTargetIff(b: Body, s: State, es: seq<Event>, e: Event, i: nat)
    requires OnlyTicks(b, s, es, i) && FiniteCommandAt(b, s, i) && Possible(b, e) && e.Tick?
    ensures AfterEvent(b, AfterAll(b, s, es), e).target[i].q.NaN? <==>
            Ramp.LowPass(s.order) && exists j: nat :: j <= |es| && Persists(s, es, i, j)
  {
    TicksKeepCommand(b, s, es, i);
    NaNStep(b, AfterAll(b, s, es), e, i);
    if Ramp.LowPass(s.order) {
      NaNLasts(b, s, es, i);
    }
  }

  // On a healthy state: only a NaN at the start, and only as long as the command has a spring.
  lemma NaNOnHealthyStateIff(b: Body, s: State, es: seq<Event>, e: Event, i: nat)
    requires OnlyTicks(b, s, es, i) && FiniteCommandAt(b, s, i) && Possible(b, e) && e.Tick?
    requires forall k :: 0 <= k < |es| ==> FiniteMotor(es[k].motors[i])
    ensures AfterEvent(b, AfterAll(b, s, es), e).target[i].q.NaN? <==>
            Ramp.LowPass(s.order) && s.last[i].q.NaN? && forall k :: 0 <= k < |es| ==> Springs(s, es[k], i)
  {
    NaNTargetIff(b, s, es, e, i);
    HealthyIff(s, es, i);
  }

  lemma HealthyIff(s: State, es: seq<Event>, i: nat)
    requires i < |s.last| && i < |s.params|
    requires forall k :: 0 <= k < |es| ==> es[k].Tick? && i < |es[k].motors| && FiniteMotor(es[k].motors[i])
    ensures (exists j: nat :: j <= |es| && Persists(s, es, i, j)) <==>
            s.last[i].q.NaN? && forall k :: 0 <= k < |es| ==> Springs(s, es[k], i)
  {
    assert forall j: nat :: 0 < j <= |es| ==> !NaNEnters(s, es, i, j);
    assert Persists(s, es, i, 0) <==> s.last[i].q.NaN? && forall k :: 0 <= k < |es| ==> Springs(s, es[k], i);
  }

  // --- The ramp of a command -----------------------------------------------------------------------------

  // Joint i is under a move from last to desired, on finite states and a clock that never turns back.
  ghost predicate Moving(b: Body, s: State, es: seq<Event>, i: nat, desired: Cmd, last: Cmd) {
    && OnlyTicks(b, s, es, i)
    && (forall k :: 0 <= k < |es| ==> FiniteMotor(es[k].motors[i]))
    && (forall k, l :: 0 <= k <= l < |es| ==> es[k].now <= es[l].now)
    && Ramp.ValidOrder(s.order) && Loaded(b.joints[i]) && b.joints[i].qMin <= desired.q <= b.joints[i].qMax
    && s.params[i] == ParamsFor(s.order, Exact(desired), Exact(last)) && s.last[i] == Exact(last)
  }

  function MoveOf(b: Body, s: State, i: nat, desired: Cmd, last: Cmd): Ramp.Command
    requires i < |b.joints| && Ramp.ValidOrder(s.order)
  {
    CommandOf(b, s, i, Ramp.InterpolationParams(s.order, desired, last))
  }

  // Gate 4 has room for the whole way at every tick's measured state.
  ghost predicate RoomAllAlong(b: Body, s: State, es: seq<Event>, i: nat, desired: Cmd, last: Cmd)
    requires Moving(b, s, es, i, desired, last)
  {
    forall k :: 0 <= k < |es| ==> Ramp.Roomy(MoveOf(b, s, i, desired, last), desired, last, TicksOf(b, s, es, i)[k])
  }

  lemma TicksAreOrdered(b: Body, s: State, es: seq<Event>, i: nat, desired: Cmd, last: Cmd)
    requires Moving(b, s, es, i, desired, last)
    ensures Ramp.Ordered(TicksOf(b, s, es, i))
  {
    forall k: nat, l: nat | k <= l < |es|
      ensures TicksOf(b, s, es, i)[k].phase <= TicksOf(b, s, es, i)[l].phase
    {
      Ramp.PhaseNeverFalls(es[k].now, es[l].now, s.tStart, s.tFinal);
    }
  }

  lemma RoomIsFree(b: Body, s: State, es: seq<Event>, i: nat, desired: Cmd, last: Cmd)
    requires Moving(b, s, es, i, desired, last) && RoomAllAlong(b, s, es, i, desired, last)
    ensures Ramp.Free(MoveOf(b, s, i, desired, last), last, TicksOf(b, s, es, i), |es|)
    ensures Ramp.Ordered(TicksOf(b, s, es, i))
  {
    TicksAreOrdered(b, s, es, i, desired, last);
    Ramp.RoomyIsFree(MoveOf(b, s, i, desired, last), desired, last, TicksOf(b, s, es, i), |es|);
  }

  // lastCommand_ of the joint after n of the ticks.
  lemma AfterSome(b: Body, s: State, es: seq<Event>, i: nat, desired: Cmd, last: Cmd, n: nat)
    requires Moving(b, s, es, i, desired, last) && n <= |es|
    ensures AfterAll(b, s, es[..n]).last[i]
         == Exact(Ramp.Last(MoveOf(b, s, i, desired, last), last, TicksOf(b, s, es, i), n))
  {
    var p := Ramp.InterpolationParams(s.order, desired, last);
    ParamsExact(s.order, desired, last);
    RunsAsRamp(b, s, es[..n], i, p, last);
    RampPrefix(MoveOf(b, s, i, desired, last), last, TicksOf(b, s, es[..n], i), TicksOf(b, s, es, i), n);
  }

  // The two ends of a tick in order, at most a step apart.
  predicate StepsToward(c: Ramp.Command, x: Num, y: Num, goal: real) {
    && IsFinite(x) && IsFinite(y) && Ramp.Between(x.r, y.r, goal)
    && (Ramp.RateLimited(c) ==> Abs(y.r - x.r) <= Ramp.StepOf(c))
  }

  lemma RampSteps(c: Ramp.Command, desired: Cmd, last: Cmd, ts: seq<Ramp.Tick>, n: nat)
    requires Ramp.IsMove(c, desired, last) && n < |ts| && Ramp.Ordered(ts) && Ramp.Free(c, last, ts, n + 1)
    ensures StepsToward(c, Fin(Ramp.Last(c, last, ts, n).q), Fin(Ramp.Last(c, last, ts, n + 1).q), desired.q)
  {
    Ramp.RampLaw(c, desired, last, ts, n);
  }

  // The ramp law on the robot's arrays: with room for gate 4, every tick moves the joint's lastCommand_ toward the
  // goal, never past it, at most one step.
  lemma RobotRamps(b: Body, s: State, es: seq<Event>, i: nat, desired: Cmd, last: Cmd, n: nat)
    requires Moving(b, s, es, i, desired, last) && RoomAllAlong(b, s, es, i, desired, last) && n < |es|
    ensures StepsToward(MoveOf(b, s, i, desired, last), AfterAll(b, s, es[..n]).last[i].q,
                        AfterAll(b, s, es[..n + 1]).last[i].q, desired.q)
  {
    RoomIsFree(b, s, es, i, desired, last);
    AfterSome(b, s, es, i, desired, last, n);
    AfterSome(b, s, es, i, desired, last, n + 1);
    RampSteps(MoveOf(b, s, i, desired, last), desired, last, TicksOf(b, s, es, i), n);
  }

  // And at order 0 it is on the goal after exactly ceil(distance / step) ticks.
  lemma RobotLands(b: Body, s: State, es: seq<Event>, i: nat, desired: Cmd, last: Cmd, n: nat)
    requires Moving(b, s, es, i, desired, last) && RoomAllAlong(b, s, es, i, desired, last) && n <= |es|
    requires Ramp.IsStep(s.order) && Ramp.RateLimited(MoveOf(b, s, i, desired, last))
    ensures Ramp.StepOf(MoveOf(b, s, i, desired, last)) > 0.0
    ensures AfterAll(b, s, es[..n]).last[i].q == Fin(desired.q) <==>
            n >= Ramp.TicksFor(Abs(desired.q - last.q), Ramp.StepOf(MoveOf(b, s, i, desired, last)))
  {
    Ramp.StepPositive(MoveOf(b, s, i, desired, last));
    RoomIsFree(b, s, es, i, desired, last);
    AfterSome(b, s, es, i, desired, last, n);
    Ramp.LandsExactly(MoveOf(b, s, i, desired, last), desired, last, TicksOf(b, s, es, i), n);
  }

  // --- The first ramp of an arming ---------------------------------------------------------------------------

  // The state after the seed of an arming and its first interpolation.
  function Armed(b: Body, s: State, pose: seq<MotorN>, duration: real, at: real): State
    requires Shaped(b, s) && |pose| == |b.joints|
  {
    AfterInterpolation(b, AfterSeed(b, s, pose), duration, 1.0, true, at)
  }

  // Joint i is armed from a finite pose, and its states stay finite.
  ghost predicate Arming(b: Body, s: State, pose: seq<MotorN>, es: seq<Event>, i: nat) {
    && OnlyTicks(b, s, es, i) && |pose| == |b.joints| && Loaded(b.joints[i])
    && IsFinite(pose[i].q) && FiniteCommand(s.last[i])
    && forall k :: 0 <= k < |es| ==> FiniteMotor(es[k].motors[i])
  }

  function PoseOf(b: Body, pose: seq<MotorN>, i: nat): real
    requires i < |b.joints| == |pose| && IsFinite(pose[i].q)
  {
    Clamp(pose[i].q.r, b.joints[i].qMin, b.joints[i].qMax)
  }

  function Seeds(b: Body, s: State, pose: seq<MotorN>, i: nat): Cmd
    requires i < |b.joints| == |pose| && i < |s.last| && IsFinite(pose[i].q) && FiniteCommand(s.last[i])
  {
    Cmd(PoseOf(b, pose, i), 0.0, s.last[i].kp.r, s.last[i].kd.r, 0.0)
  }

  function SeedGoal(b: Body, pose: seq<MotorN>, i: nat): Cmd
    requires i < |b.joints| == |pose| && IsFinite(pose[i].q)
  {
    Cmd(PoseOf(b, pose, i), 0.0, b.joints[i].kp, b.joints[i].kd, 0.0)
  }

  function ArmingCommand(b: Body, s: State, pose: seq<MotorN>, i: nat): Ramp.Command
    requires i < |b.joints| == |pose| && i < |s.last| && IsFinite(pose[i].q) && FiniteCommand(s.last[i])
  {
    Ramp.Command(1.0, Ramp.InterpolationParams(1.0, SeedGoal(b, pose, i), Seeds(b, s, pose, i)), b.joints[i], b.dt,
                 Parallel(b, s.received, i))
  }

  lemma SeedsExact(b: Body, s: State, pose: seq<MotorN>, i: nat)
    requires Shaped(b, s) && i < |b.joints| == |pose| && IsFinite(pose[i].q) && FiniteCommand(s.last[i])
    ensures AfterSeed(b, s, pose).last[i] == Exact(Seeds(b, s, pose, i))
    ensures AfterSeed(b, s, pose).desired[i] == Exact(SeedGoal(b, pose, i))
  {}

  lemma StillCommand(b: Body, s: State, pose: seq<MotorN>, i: nat)
    requires i < |b.joints| == |pose| && i < |s.last| && Loaded(b.joints[i]) && IsFinite(pose[i].q)
    requires FiniteCommand(s.last[i])
    ensures Ramp.IsStill(ArmingCommand(b, s, pose, i), PoseOf(b, pose, i))
  {}

  lemma ArmsStill(b: Body, s: State, pose: seq<MotorN>, duration: real, at: real, es: seq<Event>, i: nat)
    requires Arming(b, s, pose, es, i)
    ensures var r := Armed(b, s, pose, duration, at);
      && Shaped(b, r) && r.last[i] == Exact(Seeds(b, s, pose, i)) && r.order == 1.0 && r.received == s.received
      && r.params[i] == ExactParams(ArmingCommand(b, s, pose, i).params)
    ensures Ramp.IsStill(ArmingCommand(b, s, pose, i), PoseOf(b, pose, i))
  {
    SeedsExact(b, s, pose, i);
    StillCommand(b, s, pose, i);
    ParamsExact(1.0, SeedGoal(b, pose, i), Seeds(b, s, pose, i));
    var seeded := AfterSeed(b, s, pose);
    assert AllParams(1.0, seeded.desired, seeded.last)[i] == ParamsFor(1.0, seeded.desired[i], seeded.last[i]);
  }

  // lastCommand_ after the ticks that follow a seed.
  lemma ArmedLast(b: Body, s: State, pose: seq<MotorN>, duration: real, at: real, es: seq<Event>, i: nat)
    requires Arming(b, s, pose, es, i)
    ensures var r := Armed(b, s, pose, duration, at);
      AfterAll(b, r, es).last[i]
      == Exact(Ramp.Last(ArmingCommand(b, s, pose, i), Seeds(b, s, pose, i), TicksOf(b, r, es, i), |es|))
  {
    ArmsStill(b, s, pose, duration, at, es, i);
    RunsAsRamp(b, Armed(b, s, pose, duration, at), es, i, ArmingCommand(b, s, pose, i).params, Seeds(b, s, pose, i));
  }

  // Any number of ticks after the seed, the next target is at rest, and is the pose exactly when gate 2 can reach it
  // from what gate 4 left in lastCommand_.
  lemma SeededTargetIff(b: Body, s: State, pose: seq<MotorN>, duration: real, at: real, es: seq<Event>,
      e: Event, i: nat)
    requires Arming(b, s, pose, es, i) && Possible(b, e) && e.Tick? && FiniteMotor(e.motors[i])
    ensures var before := AfterAll(b, Armed(b, s, pose, duration, at), es);
            var t, last, j := AfterEvent(b, before, e).target[i], before.last[i].q, b.joints[i];
      && IsFinite(last) && IsFinite(t.q) && t.dq == ZERO && t.tau == ZERO
      && (t.q == Fin(PoseOf(b, pose, i)) <==>
          !(j.qRateLimit > 0.0 && b.dt > 0.0) ||
          Abs(PoseOf(b, pose, i) - last.r) <= Ramp.StepOf(ArmingCommand(b, s, pose, i)))
  {
    var r, c := Armed(b, s, pose, duration, at), ArmingCommand(b, s, pose, i);
    ArmsStill(b, s, pose, duration, at, es, i);
    ArmedLast(b, s, pose, duration, at, es, i);
    TicksKeepCommand(b, r, es, i);
    var before := AfterAll(b, r, es);
    var x := Ramp.Last(c, Seeds(b, s, pose, i), TicksOf(b, r, es, i), |es|);
    var tick := Ramp.Tick(PhaseOf(r, e), RealMotor(e.motors[i]));
    TargetExact(1.0, c.params, tick.phase, x, c.joint, b.dt);
    assert AfterEvent(b, before, e).target[i] == Exact(Ramp.TickTarget(c, x, tick));
    Ramp.StillTargetIff(c, PoseOf(b, pose, i), x, tick);
    Ramp.AtConstant(0.0, tick.phase);
  }

  lemma ArmedPrefix(b: Body, s: State, pose: seq<MotorN>, duration: real, at: real, es: seq<Event>, i: nat, k: nat)
    requires Arming(b, s, pose, es, i) && k <= |es|
    ensures var r := Armed(b, s, pose, duration, at);
      AfterAll(b, r, es[..k]).last[i]
      == Exact(Ramp.Last(ArmingCommand(b, s, pose, i), Seeds(b, s, pose, i), TicksOf(b, r, es, i), k))
  {
    var r := Armed(b, s, pose, duration, at);
    ArmedLast(b, s, pose, duration, at, es[..k], i);
    RampPrefix(ArmingCommand(b, s, pose, i), Seeds(b, s, pose, i), TicksOf(b, r, es[..k], i), TicksOf(b, r, es, i), k);
  }

  // lastCommand_ is at x after the first k of the ticks.
  ghost predicate IsAt(b: Body, r: State, es: seq<Event>, i: nat, x: real, k: nat)
    requires Shaped(b, r) && AllPossible(b, es) && i < |b.joints| && k <= |es|
  {
    AfterAll(b, r, es[..k]).last[i].q == Fin(x)
  }

  // From r on, and after each of the ticks.
  ghost predicate HoldsStill(b: Body, r: State, es: seq<Event>, i: nat, x: real)
    requires Shaped(b, r) && AllPossible(b, es) && i < |b.joints|
  {
    forall k: nat :: k <= |es| ==> IsAt(b, r, es, i, x, k)
  }

  lemma HeldAsRamp(b: Body, r: State, es: seq<Event>, i: nat, x: real, c: Ramp.Command, last: Cmd, ts: seq<Ramp.Tick>)
    requires Shaped(b, r) && AllPossible(b, es) && i < |b.joints| && |ts| == |es|
    requires forall k: nat :: k <= |es| ==> (IsAt(b, r, es, i, x, k) <==> Ramp.LastIs(c, x, last, ts, k))
    ensures HoldsStill(b, r, es, i, x) <==> Ramp.StillFor(c, x, last, ts, |es|)
  {
    Ramp.StillForAll(c, x, last, ts, |es|);
  }

  // The robot's lastCommand_ is at the pose from the seed on, after each of the ticks, exactly when at each of them
  // holding the pose takes no more than the torque limit.
  lemma ArmingHoldsStillIff(b: Body, s: State, pose: seq<MotorN>, duration: real, at: real, es: seq<Event>, i: nat)
    requires Arming(b, s, pose, es, i)
    ensures var r, c, x := Armed(b, s, pose, duration, at), ArmingCommand(b, s, pose, i), PoseOf(b, pose, i);
      HoldsStill(b, r, es, i, x) <==> Ramp.AdmitsFor(c, x, TicksOf(b, r, es, i), |es|)
  {
    var r, c, x := Armed(b, s, pose, duration, at), ArmingCommand(b, s, pose, i), PoseOf(b, pose, i);
    ArmsStill(b, s, pose, duration, at, es, i);
    forall k: nat | k <= |es|
      ensures IsAt(b, r, es, i, x, k) <==> Ramp.LastIs(c, x, Seeds(b, s, pose, i), TicksOf(b, r, es, i), k)
    {
      ArmedPrefix(b, s, pose, duration, at, es, i, k);
    }
    HeldAsRamp(b, r, es, i, x, c, Seeds(b, s, pose, i), TicksOf(b, r, es, i));
    Ramp.HoldsStillIff(c, x, Seeds(b, s, pose, i), TicksOf(b, r, es, i), |es|);
  }
}
