/** The torques of what goes out on /lowcmd: on every interleaving in which commands pass the check and states pass
checkState_, the bound and the agreement of the two controllers hold of the frames that are sent.
*/
module LowcmdTorque {
  import opened Numbers
  import opened Gates
  import opened Threads
  import opened Safety
  import opened Lowcmd
  import opened MP = MotorPipeline
  import PL = PipelineLaws
  import Bridge
  import Commands
  import Ramp

  // --- Stored commands stay admissible ------------------------------------------------------------------------

  // A feedforward that is constant and within the joint's limit.
  predicate TameParams(p: ParamsN, j: Joint) {
    p.tau.rise == ZERO && IsFinite(p.tau.at0) && Within(p.tau.at0.r, j.tauLimit)
  }

  predicate TameCommand(c: CmdN, j: Joint) {
    FiniteCommand(c) && Within(c.tau.r, j.tauLimit)
  }

  // Everything stored is finite, and every feedforward is within its limit.
  ghost predicate Tame(b: Body, s: State) {
    && Shaped(b, s) && PL.AllFinite(s)
    && forall i :: 0 <= i < |b.joints| ==>
         TameParams(s.params[i], b.joints[i]) && TameCommand(s.desired[i], b.joints[i])
  }

  ghost predicate LoadedBody(b: Body) {
    forall i :: 0 <= i < |b.joints| ==> b.joints[i].tauLimit >= 0.0
  }

  // A command that passed the check, a finite state; any controller, plugins included.
  ghost predicate Passed(b: Body, e: PL.Event) {
    match e
    case Desire(d) => |d| == |b.joints| && forall i :: 0 <= i < |d| ==> TameCommand(d[i], b.joints[i])
    case Aim(goal) => FiniteFrame(goal)
    case Interpolate(_, order, _, _) => Ramp.ValidOrder(order)
    case Tick(_, motors, _) => PL.FiniteMotors(motors)
    case Seed(pose) => PL.FiniteMotors(pose)
    case _ => true
  }

  lemma BootIsTame(b: Body)
    requires LoadedBody(b)
    ensures Tame(b, Booted(b))
  {}

  // lastCommand_ depends on no controller.
  lemma TickTame(b: Body, s: State, now: real, motors: seq<MotorN>, c: Controller)
    requires Tame(b, s) && Fits(b, c, motors) && PL.FiniteMotors(motors)
    ensures Tame(b, AfterPublish(b, s, now, motors, c))
  {
    PL.TickFinite(b, s, now, motors, MotorPd);
    assert AfterTick(b, s, now, motors, c).last == AfterTick(b, s, now, motors, MotorPd).last;
  }

  lemma InterpolationTame(b: Body, s: State, duration: real, order: real, hold: bool, now: real)
    requires Tame(b, s) && Ramp.ValidOrder(order)
    ensures Tame(b, AfterInterpolation(b, s, duration, order, hold, now))
  {
    forall i | 0 <= i < |b.joints|
      ensures FiniteParams(ParamsFor(order, s.desired[i], s.last[i]))
      ensures TameParams(ParamsFor(order, s.desired[i], s.last[i]), b.joints[i])
    {
      assert TameCommand(s.desired[i], b.joints[i]) && FiniteCommand(s.last[i]);
    }
  }

  lemma SeedTame(b: Body, s: State, pose: seq<MotorN>)
    requires Tame(b, s) && LoadedBody(b) && |pose| == |b.joints| && PL.FiniteMotors(pose)
    ensures Tame(b, AfterSeed(b, s, pose))
  {
    forall i | 0 <= i < |b.joints|
      ensures FiniteCommand(SeedN(s.last[i], pose[i].q, b.joints[i]))
      ensures TameCommand(SeedGoalN(pose[i].q, b.joints[i]), b.joints[i])
    {
      assert FiniteCommand(s.last[i]) && FiniteMotor(pose[i]);
    }
  }

  lemma EventTame(b: Body, s: State, e: PL.Event)
    requires Tame(b, s) && LoadedBody(b) && PL.Possible(b, e) && Passed(b, e)
    ensures Tame(b, PL.AfterEvent(b, s, e))
  {
    match e
    case Desire(_) =>
    case Aim(goal) =>
    case Received =>
    case Interpolate(duration, order, hold, at) => InterpolationTame(b, s, duration, order, hold, at);
    case Tick(now, motors, c) => TickTame(b, s, now, motors, c);
    case Seed(pose) => SeedTame(b, s, pose);
    case Stop(mode, state, hold) => PL.StopFramesFinite(b, mode, state, hold);
  }

  lemma {:induction false} EventsTame(b: Body, s: State, es: seq<PL.Event>)
    requires Tame(b, s) && LoadedBody(b) && PL.AllPossible(b, es)
    requires forall i :: 0 <= i < |es| ==> Passed(b, es[i])
    ensures Tame(b, PL.AfterAll(b, s, es))
  {
    if es != [] {
      var n := |es| - 1;
      EventsTame(b, s, es[..n]);
      EventTame(b, PL.AfterAll(b, s, es[..n]), es[n]);
    }
  }

  // What a step brings to the pipeline passed the checks.
  ghost predicate PassedAt(w: World, rs: seq<Robot>, es: seq<Event>, gs: seq<Given>, k: nat)
    requires k < |es| == |gs| && |es| < |rs|
  {
    forall n :: 0 <= n < |Work(w, rs[k].sys, es[k], gs[k])| ==> Passed(w.body, Work(w, rs[k].sys, es[k], gs[k])[n])
  }

  // An interleaving from boot with checked commands and finite states.
  ghost predicate CheckedRun(w: World, rs: seq<Robot>, es: seq<Event>, gs: seq<Given>) {
    && RobotRun(w, rs, es, gs) && LoadedBody(w.body) && rs[0].pipe == Booted(w.body)
    && forall k :: 0 <= k < |es| ==> PassedAt(w, rs, es, gs, k)
  }

  lemma {:induction false} AlwaysTame(w: World, rs: seq<Robot>, es: seq<Event>, gs: seq<Given>, i: nat)
    requires CheckedRun(w, rs, es, gs) && i < |rs|
    ensures Tame(w.body, rs[i].pipe)
  {
    if i == 0 {
      BootIsTame(w.body);
    } else {
      AlwaysTame(w, rs, es, gs, i - 1);
      assert Lowcmd.StepAt(w, rs, es, gs, i - 1);
      assert PassedAt(w, rs, es, gs, i - 1);
      EventsTame(w.body, rs[i - 1].pipe, Work(w, rs[i - 1].sys, es[i - 1], gs[i - 1]));
    }
  }

  // What the command check stores is such a command.
  lemma StoredIsTame(c: CmdN, j: Joint, g: Commands.Gains)
    requires Commands.Accepted(c) && Commands.Clampable(j) && Commands.LoadedGains(g)
    ensures TameCommand(Commands.Clipped(c, j, g), j)
  {
    Commands.ClippedIsAdmissible(c, j, g);
  }

  // --- One tick -------------------------------------------------------------------------------------------------

  lemma TargetTame(b: Body, s: State, now: real, i: nat)
    requires Tame(b, s) && i < |b.joints|
    ensures FiniteCommand(Targets(b, s, now)[i]) && Within(Targets(b, s, now)[i].tau.r, b.joints[i].tauLimit)
  {
    PL.TargetFinite(s.order, s.params[i], Ramp.Phase(now, s.tStart, s.tFinal), s.last[i], b.joints[i], b.dt);
    assert TameParams(s.params[i], b.joints[i]);
    Level(s.params[i].tau, Ramp.Phase(now, s.tStart, s.tFinal));
  }

  lemma Level(l: LineN, phase: real)
    requires IsFinite(l.at0) && l.rise == ZERO
    ensures AtN(l, phase) == l.at0
  {}

  // What joint i applies of a frame.
  function Applied(frame: seq<CmdN>, motors: seq<MotorN>, i: nat): real
    requires i < |frame| && i < |motors| && FiniteCommand(frame[i]) && FiniteMotor(motors[i])
  {
    Torque(PL.RealCmd(frame[i]), PL.RealMotor(motors[i]))
  }

  // What the controllers of the source make of the target of joint i.
  function Asked(b: Body, s: State, now: real, motors: seq<MotorN>, c: Controller, i: nat): Cmd
    requires Shaped(b, s) && |motors| == |b.joints| && i < |b.joints| && !c.Other?
    requires FiniteCommand(Targets(b, s, now)[i]) && FiniteMotor(motors[i])
  {
    var t, m := PL.RealCmd(Targets(b, s, now)[i]), PL.RealMotor(motors[i]);
    if c.MotorPd? then Gates.MotorPd(t) else Gates.BridgePd(t, m)
  }

  lemma AskedOf(b: Body, s: State, now: real, motors: seq<MotorN>, c: Controller, i: nat)
    requires Tame(b, s) && PL.FiniteMotors(motors) && |motors| == |b.joints| && i < |b.joints| && !c.Other?
    ensures FiniteCommand(Targets(b, s, now)[i])
    ensures Output(c, Targets(b, s, now), motors)[i] == PL.Exact(Asked(b, s, now, motors, c, i))
    ensures AfterTick(b, s, now, motors, c).frame[i]
         == PL.Exact(Finish(Asked(b, s, now, motors, c, i), PL.RealMotor(motors[i]), b.joints[i],
                            Parallel(b, s.received, i)))
  {
    TargetTame(b, s, now, i);
    var t, m := PL.RealCmd(Targets(b, s, now)[i]), PL.RealMotor(motors[i]);
    PL.BridgePdExact(t, m);
    assert Output(c, Targets(b, s, now), motors)[i] == PL.Exact(Asked(b, s, now, motors, c, i));
    PL.FinishExact(Asked(b, s, now, motors, c, i), m, b.joints[i], Parallel(b, s.received, i));
  }

  // The two controllers apply the same torque exactly where Gates says so of the target.
  lemma TickAgreesIff(b: Body, s: State, now: real, motors: seq<MotorN>, i: nat)
    requires Tame(b, s) && LoadedBody(b) && PL.FiniteMotors(motors) && |motors| == |b.joints| && i < |b.joints|
    ensures FiniteCommand(Targets(b, s, now)[i])
    ensures FiniteCommand(AfterTick(b, s, now, motors, MotorPd).frame[i])
    ensures FiniteCommand(AfterTick(b, s, now, motors, BridgePd).frame[i])
    ensures SameTorque(PL.RealCmd(Targets(b, s, now)[i]), PL.RealMotor(motors[i]), b.joints[i],
                       Parallel(b, s.received, i)) <==>
            Applied(AfterTick(b, s, now, motors, MotorPd).frame, motors, i) ==
            Applied(AfterTick(b, s, now, motors, BridgePd).frame, motors, i)
  {
    AskedOf(b, s, now, motors, MotorPd, i);
    AskedOf(b, s, now, motors, BridgePd, i);
    TargetTame(b, s, now, i);
    ControllersAgreeIff(PL.RealCmd(Targets(b, s, now)[i]), PL.RealMotor(motors[i]), b.joints[i],
                        Parallel(b, s.received, i));
  }

  // --- Every tick of every interleaving -----------------------------------------------------------------------

  // Step i puts a tracking frame on /lowcmd.
  predicate Tracks(rs: seq<Robot>, es: seq<Event>, i: nat)
    requires i < |es| && i < |rs|
  {
    es[i].Published? && FrameOf(rs[i].sys, es[i]) == Bridge.TrackingFrame
  }

  lemma TracksWith(w: World, rs: seq<Robot>, es: seq<Event>, gs: seq<Given>, i: nat)
    requires CheckedRun(w, rs, es, gs) && i < |es| && Tracks(rs, es, i)
    ensures Tame(w.body, rs[i].pipe) && Fits(w.body, gs[i].controller, gs[i].motors) && PL.FiniteMotors(gs[i].motors)
    ensures RunsUnder(rs[i].sys.core.controller, gs[i].controller)
    ensures rs[i + 1].pipe.sent == rs[i].pipe.sent +
              [AfterTick(w.body, rs[i].pipe, gs[i].now, gs[i].motors, gs[i].controller).frame]
  {
    AlwaysTame(w, rs, es, gs, i);
    StepAdds(w, rs, es, gs, i);
    assert Lowcmd.StepAt(w, rs, es, gs, i);
    assert PassedAt(w, rs, es, gs, i);
    var work := Work(w, rs[i].sys, es[i], gs[i]);
    assert work == [PL.Tick(gs[i].now, gs[i].motors, gs[i].controller)];
    assert Passed(w.body, work[0]) && PL.Possible(w.body, work[0]);
  }

  // Every tracking frame on /lowcmd: wherever the controller put out finite values, as the two of the source always do,
  // a joint's torque is within its limit if and only if that output was Bounded; under bridge_pd it always is.
  lemma SentWithinLimitIff(w: World, rs: seq<Robot>, es: seq<Event>, gs: seq<Given>, i: nat, n: nat)
    requires CheckedRun(w, rs, es, gs) && i < |es| && n < |w.body.joints| && Tracks(rs, es, i)
    ensures var b, s, g := w.body, rs[i].pipe, gs[i];
      && Shaped(b, s) && Fits(b, g.controller, g.motors) && FiniteMotor(g.motors[n])
      && var frame := AfterTick(b, s, g.now, g.motors, g.controller).frame;
         var out := Output(g.controller, Targets(b, s, g.now), g.motors)[n];
      && rs[i + 1].pipe.sent == s.sent + [frame]
      && (!g.controller.Other? ==> FiniteCommand(out))
      && (FiniteCommand(out) ==>
          && FiniteCommand(frame[n])
          && (Within(Applied(frame, g.motors, n), b.joints[n].tauLimit) <==>
              Bounded(PL.RealCmd(out), PL.RealMotor(g.motors[n]), b.joints[n], Parallel(b, s.received, n)))
          && (g.controller.BridgePd? ==> Within(Applied(frame, g.motors, n), b.joints[n].tauLimit)))
  {
    TracksWith(w, rs, es, gs, i);
    var b, s, g := w.body, rs[i].pipe, gs[i];
    assert FiniteMotor(g.motors[n]);
    PL.SentTorqueIff(b, s, g.now, g.motors, g.controller, n);
    if !g.controller.Other? {
      AskedOf(b, s, g.now, g.motors, g.controller, n);
    }
    if g.controller.BridgePd? {
      BridgePdBounded(PL.RealCmd(Targets(b, s, g.now)[n]), PL.RealMotor(g.motors[n]), b.joints[n],
                      Parallel(b, s.received, n));
    }
  }

  // At every tracking frame on /lowcmd the two controllers of the source would apply the same torque to a joint if and
  // only if its target is one where Gates says so.
  lemma ControllersAgreeOnLowcmdIff(w: World, rs: seq<Robot>, es: seq<Event>, gs: seq<Given>, i: nat, n: nat)
    requires CheckedRun(w, rs, es, gs) && i < |es| && n < |w.body.joints| && Tracks(rs, es, i)
    ensures var b, s, g := w.body, rs[i].pipe, gs[i];
      && Tame(b, s) && |g.motors| == |b.joints| && PL.FiniteMotors(g.motors) && FiniteCommand(Targets(b, s, g.now)[n])
      && var one := AfterTick(b, s, g.now, g.motors, MotorPd).frame;
         var other := AfterTick(b, s, g.now, g.motors, BridgePd).frame;
      && FiniteCommand(one[n]) && FiniteCommand(other[n])
      && (Applied(one, g.motors, n) == Applied(other, g.motors, n) <==>
          SameTorque(PL.RealCmd(Targets(b, s, g.now)[n]), PL.RealMotor(g.motors[n]), b.joints[n],
                     Parallel(b, s.received, n)))
  {
    TracksWith(w, rs, es, gs, i);
    TickAgreesIff(w.body, rs[i].pipe, gs[i].now, gs[i].motors, n);
  }
}
