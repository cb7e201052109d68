/** What the bridge stores, on every interleaving: each callback's command, the ramp it starts and its deadline, and
with them where every tracking target of an arming, of a command and of a pose stands at every moment.
*/
module LowcmdStores {
  import opened Numbers
  import opened Gates
  import opened Threads
  import opened Invariant
  import opened Safety
  import opened Lowcmd
  import opened LowcmdTorque
  import opened MP = MotorPipeline
  import opened RampTime
  import PL = PipelineLaws
  import Bridge
  import Estop
  import Ramp

  // --- One step -----------------------------------------------------------------------------------------------

  // The steps that store a command or start a ramp.
  predicate Stores(e: Event) {
    e.ArmSeeded? || e.ArmHeld? || e.ArmRamped? || e.CommandApplied? || e.PoseSet?
  }

  predicate SameStored(p: State, q: State) {
    && q.desired == p.desired && q.params == p.params && q.order == p.order
    && q.tStart == p.tStart && q.tFinal == p.tFinal && q.tValid == p.tValid
  }

  // A measured joint, in its range.
  function PoseAt(s: System, j: Joint, n: nat): Num
    requires n < |s.core.measured|
  {
    ClampN(s.core.measured[n], Fin(j.qMin), Fin(j.qMax))
  }

  // q starts the ramp of order 1 from p's last commands to q's desired ones, at t0, over d seconds; it never times out.
  predicate StartsRamp(p: State, q: State, t0: real, d: real) {
    && |q.params| == |q.desired| == |p.last|
    && q.order == 1.0 && q.tStart == t0 && q.tFinal == t0 + d && q.tValid == Never
    && q.params == AllParams(1.0, q.desired, p.last)
  }

  lemma OneStep(w: World, rs: seq<Robot>, es: seq<Event>, gs: seq<Given>, i: nat)
    requires RobotRun(w, rs, es, gs) && i < |es|
    ensures Shaped(w.body, rs[i].pipe) && Shaped(w.body, rs[i + 1].pipe) && Enabled(rs[i].sys, es[i])
    ensures |gs[i].motors| == |rs[i].sys.core.measured|
    ensures forall n :: 0 <= n < |gs[i].motors| ==> gs[i].motors[n].q == rs[i].sys.core.measured[n]
    ensures PL.AllPossible(w.body, Work(w, rs[i].sys, es[i], gs[i]))
    ensures rs[i + 1].pipe == PL.AfterAll(w.body, rs[i].pipe, Work(w, rs[i].sys, es[i], gs[i]))
  {
    assert Lowcmd.StepAt(w, rs, es, gs, i);
  }

  lemma OneMore(b: Body, s: State, es: seq<PL.Event>, e: PL.Event)
    requires Shaped(b, s) && PL.AllPossible(b, es) && PL.Possible(b, e)
    ensures PL.AllPossible(b, es + [e])
    ensures PL.AfterAll(b, s, es + [e]) == PL.AfterEvent(b, PL.AfterAll(b, s, es), e)
  {
    assert (es + [e])[..|es|] == es;
  }

  lemma TwoEvents(b: Body, s: State, d: PL.Event, e: PL.Event)
    requires Shaped(b, s) && PL.Possible(b, d) && PL.Possible(b, e)
    ensures PL.AllPossible(b, [d, e])
    ensures PL.AfterAll(b, s, [d, e]) == PL.AfterEvent(b, PL.AfterEvent(b, s, d), e)
  {
    OneEvent(b, s, d);
    OneMore(b, s, [d], e);
    assert [d] + [e] == [d, e];
  }

  lemma ThreeEvents(b: Body, s: State, c: PL.Event, d: PL.Event, e: PL.Event)
    requires Shaped(b, s) && PL.Possible(b, c) && PL.Possible(b, d) && PL.Possible(b, e)
    ensures PL.AllPossible(b, [c, d, e])
    ensures PL.AfterAll(b, s, [c, d, e]) == PL.AfterEvent(b, PL.AfterEvent(b, PL.AfterEvent(b, s, c), d), e)
  {
    TwoEvents(b, s, c, d);
    OneMore(b, s, [c, d], e);
    assert [c, d] + [e] == [c, d, e];
  }

  // The seed of an arming: every joint stands where it was measured, in range, at rest and at the configured gains.
  lemma SeedOutcome(w: World, rs: seq<Robot>, es: seq<Event>, gs: seq<Given>, i: nat, n: nat)
    requires RobotRun(w, rs, es, gs) && i < |es| && es[i].ArmSeeded? && n < |w.body.joints|
    ensures Shaped(w.body, rs[i].pipe) && Shaped(w.body, rs[i + 1].pipe) && n < |rs[i].sys.core.measured|
    ensures var j, p, q := w.body.joints[n], rs[i].pipe, rs[i + 1].pipe;
      && q.desired[n] == CmdN(PoseAt(rs[i].sys, j, n), Fin(0.0), Fin(j.kp), Fin(j.kd), Fin(0.0))
      && q.last[n] == p.last[n].(q := PoseAt(rs[i].sys, j, n), dq := Fin(0.0), tau := Fin(0.0))
      && q.sent == p.sent
  {
    OneStep(w, rs, es, gs, i);
    var work := Work(w, rs[i].sys, es[i], gs[i]);
    assert work == [PL.Seed(gs[i].motors)] && PL.Possible(w.body, work[0]);
    OneEvent(w.body, rs[i].pipe, work[0]);
  }

  // From an arming's store on parallel joints are converted.
  lemma StoreOutcome(w: World, rs: seq<Robot>, es: seq<Event>, gs: seq<Given>, i: nat)
    requires RobotRun(w, rs, es, gs) && i < |es| && es[i].ArmStored?
    ensures rs[i + 1].pipe == rs[i].pipe.(received := true) && rs[i + 1].sys.core.tracking
  {
    OneStep(w, rs, es, gs, i);
    assert Lowcmd.StepAt(w, rs, es, gs, i);
    var work := Work(w, rs[i].sys, es[i], gs[i]);
    assert work == [PL.Received];
    OneEvent(w.body, rs[i].pipe, work[0]);
  }

  // The first interpolation of an arming is over at once.
  lemma HeldOutcome(w: World, rs: seq<Robot>, es: seq<Event>, gs: seq<Given>, i: nat)
    requires RobotRun(w, rs, es, gs) && i < |es| && es[i].ArmHeld?
    ensures StartsRamp(rs[i].pipe, rs[i + 1].pipe, gs[i].now, 0.0)
    ensures rs[i + 1].pipe.desired == rs[i].pipe.desired && rs[i + 1].pipe.last == rs[i].pipe.last
  {
    OneStep(w, rs, es, gs, i);
    var work := Work(w, rs[i].sys, es[i], gs[i]);
    assert work == [PL.Interpolate(0.0, 1.0, true, gs[i].now)];
    OneEvent(w.body, rs[i].pipe, work[0]);
  }

  // Where the second ramp of an arming takes joint n: the position asked for, in range, or the ready pose; at the
  // configured gains, or none for a limp arming that was given its pose.
  function GoalOf(w: World, limp: bool, start: seq<Num>, n: nat, was: CmdN): CmdN
    requires n < |w.body.joints|
  {
    var j, given := w.body.joints[n], |start| == |w.body.joints|;
    was.(q := if given then ClampN(start[n], Fin(j.qMin), Fin(j.qMax)) else Fin(w.ready[n]),
         kp := if given && limp then Fin(0.0) else Fin(j.kp), kd := if given && limp then Fin(0.0) else Fin(j.kd))
  }

  lemma RampedOutcome(w: World, rs: seq<Robot>, es: seq<Event>, gs: seq<Given>, i: nat, n: nat)
    requires RobotRun(w, rs, es, gs) && i < |es| && es[i].ArmRamped? && n < |w.body.joints|
    ensures rs[i].sys.exec.ArmRamp? && StartsRamp(rs[i].pipe, rs[i + 1].pipe, gs[i].now, w.rampTime)
    ensures rs[i + 1].pipe.last == rs[i].pipe.last
    ensures |rs[i].pipe.desired| == |rs[i + 1].pipe.desired| == |w.body.joints|
    ensures rs[i + 1].pipe.desired[n] == GoalOf(w, rs[i].sys.exec.limp, gs[i].start, n, rs[i].pipe.desired[n])
  {
    OneStep(w, rs, es, gs, i);
    var work := Work(w, rs[i].sys, es[i], gs[i]);
    var goal := ArmGoal(w.body, w.ready, DefaultCmd(w.body, rs[i].sys.exec.limp, gs[i].start));
    assert work == [PL.Aim(goal), PL.Interpolate(w.rampTime, 1.0, true, gs[i].now)];
    TwoEvents(w.body, rs[i].pipe, work[0], work[1]);
  }

  // Ready and Zero.
  lemma PoseOutcome(w: World, rs: seq<Robot>, es: seq<Event>, gs: seq<Given>, i: nat, n: nat)
    requires RobotRun(w, rs, es, gs) && i < |es| && es[i].PoseSet? && n < |w.body.joints|
    ensures StartsRamp(rs[i].pipe, rs[i + 1].pipe, gs[i].now, w.rampTime)
    ensures rs[i + 1].pipe.last == rs[i].pipe.last && |rs[i + 1].pipe.desired| == |w.body.joints|
    ensures var j := w.body.joints[n];
      rs[i + 1].pipe.desired[n]
      == CmdN(Fin(if gs[i].zero then 0.0 else w.ready[n]), Fin(0.0), Fin(j.kp), Fin(j.kd), Fin(0.0))
  {
    OneStep(w, rs, es, gs, i);
    var work := Work(w, rs[i].sys, es[i], gs[i]);
    var q := if gs[i].zero then ZeroPose(|w.ready|) else w.ready;
    assert work == [PL.Desire(Posed(w.body, q)), PL.Interpolate(w.rampTime, 1.0, true, gs[i].now)];
    TwoEvents(w.body, rs[i].pipe, work[0], work[1]);
  }

  // A command is taken while the robot tracks, is neither arming nor limp, and no other controller's stream runs.
  predicate Taken(s: System) {
    && s.exec.CommandApply? && s.core.tracking && !s.core.arming && !s.core.limp
    && s.core.stream in {"", s.exec.controller}
  }

  // q runs the command g from p's last commands.
  predicate Runs(p: State, q: State, g: Given) {
    && |g.desired| == |p.last| && q.desired == g.desired && q.order == g.order
    && q.params == AllParams(g.order, g.desired, p.last)
    && q.tStart == g.now && q.tFinal == g.now + g.duration
    && q.tValid == if g.hold then Never else By(g.now + g.duration + 0.2)
  }

  // A command that is taken is stored with its ramp, and with its deadline 0.2 s after it; any other changes nothing.
  lemma CommandOutcome(w: World, rs: seq<Robot>, es: seq<Event>, gs: seq<Given>, i: nat)
    requires RobotRun(w, rs, es, gs) && i < |es| && es[i].CommandApplied? && 0.0 <= gs[i].order <= 1.0
    ensures |rs[i].pipe.last| == |w.body.joints|
    ensures !Taken(rs[i].sys) ==> rs[i + 1].pipe == rs[i].pipe
    ensures var g, p, q := gs[i], rs[i].pipe, rs[i + 1].pipe;
      Taken(rs[i].sys) ==> Runs(p, q, g) && q.last == p.last && q.received
  {
    OneStep(w, rs, es, gs, i);
    var work, g := Work(w, rs[i].sys, es[i], gs[i]), gs[i];
    if Taken(rs[i].sys) {
      assert work == [PL.Desire(g.desired), PL.Received, PL.Interpolate(g.duration, g.order, g.hold, g.now)];
      assert PL.Possible(w.body, work[0]);
      ThreeEvents(w.body, rs[i].pipe, work[0], work[1], work[2]);
    } else {
      assert work == [];
    }
  }

  // --- Between the stores -----------------------------------------------------------------------------------------

  lemma OthersKeepStored(w: World, rs: seq<Robot>, es: seq<Event>, gs: seq<Given>, i: nat)
    requires RobotRun(w, rs, es, gs) && i < |es| && !Stores(es[i])
    ensures SameStored(rs[i].pipe, rs[i + 1].pipe)
  {
    OneStep(w, rs, es, gs, i);
    var work := Work(w, rs[i].sys, es[i], gs[i]);
    if work != [] {
      assert work == [work[0]] && PL.Possible(w.body, work[0]);
      OneEvent(w.body, rs[i].pipe, work[0]);
    }
  }

  lemma {:induction false} StoredLasts(w: World, rs: seq<Robot>, es: seq<Event>, gs: seq<Given>, i: nat, j: nat)
    requires RobotRun(w, rs, es, gs) && i <= j < |rs| && forall k :: i <= k < j ==> !Stores(es[k])
    ensures SameStored(rs[i].pipe, rs[j].pipe)
    decreases j
  {
    if i < j {
      StoredLasts(w, rs, es, gs, i, j - 1);
      OthersKeepStored(w, rs, es, gs, j - 1);
    }
  }

  lemma TickTargets(w: World, rs: seq<Robot>, es: seq<Event>, gs: seq<Given>, j: nat)
    requires RobotRun(w, rs, es, gs) && j < |es| && TicksTracking(rs, es, j)
    ensures Shaped(w.body, rs[j].pipe) && rs[j + 1].pipe.target == Targets(w.body, rs[j].pipe, gs[j].now)
  {
    OneStep(w, rs, es, gs, j);
    var work := Work(w, rs[j].sys, es[j], gs[j]);
    assert work == [PL.Tick(gs[j].now, gs[j].motors, gs[j].controller)] && PL.Possible(w.body, work[0]);
    OneEvent(w.body, rs[j].pipe, work[0]);
  }

  // Inside an arming no other callback stores anything.
  lemma {:induction false} SeedLasts(w: World, rs: seq<Robot>, es: seq<Event>, gs: seq<Given>, i: nat, j: nat)
    requires RobotRun(w, rs, es, gs) && i < j < |rs| && es[i].ArmSeeded?
    requires forall k :: i < k < j ==> !es[k].ArmRamped?
    ensures rs[j].sys.exec.ArmHold? || rs[j].sys.exec.ArmStore? || rs[j].sys.exec.ArmRamp?
    ensures rs[j].pipe.desired == rs[i + 1].pipe.desired
    ensures forall k :: i < k < j ==> !es[k].CommandApplied? && !es[k].PoseSet? && !es[k].ArmSeeded?
    decreases j
  {
    OneStep(w, rs, es, gs, j - 1);
    assert Lowcmd.StepAt(w, rs, es, gs, j - 1);
    if j > i + 1 {
      SeedLasts(w, rs, es, gs, i, j - 1);
      if es[j - 1].ArmHeld? {
        HeldOutcome(w, rs, es, gs, j - 1);
      } else {
        OthersKeepStored(w, rs, es, gs, j - 1);
      }
    }
  }

  // --- An arming ---------------------------------------------------------------------------------------------------

  // Step h is the first interpolation of the arming that seeds at i, and step j comes before its second.
  ghost predicate FirstRamp(es: seq<Event>, i: nat, h: nat, j: nat)
    requires i < h < j <= |es|
  {
    && es[i].ArmSeeded? && es[h].ArmHeld?
    && (forall k :: i < k < j ==> !es[k].ArmRamped?) && (forall k :: h < k < j ==> !es[k].ArmHeld?)
  }

  lemma FirstRampStored(w: World, rs: seq<Robot>, es: seq<Event>, gs: seq<Given>, i: nat, h: nat, j: nat)
    requires RobotRun(w, rs, es, gs) && i < h < j < |rs| && FirstRamp(es, i, h, j)
    ensures Shaped(w.body, rs[h].pipe) && Shaped(w.body, rs[j].pipe)
    ensures StartsRamp(rs[h].pipe, rs[j].pipe, gs[h].now, 0.0) && rs[j].pipe.desired == rs[i + 1].pipe.desired
  {
    SeedLasts(w, rs, es, gs, i, j);
    HeldOutcome(w, rs, es, gs, h);
    OneStep(w, rs, es, gs, h);
    OneStep(w, rs, es, gs, j - 1);
    StoredLasts(w, rs, es, gs, h + 1, j);
  }

  // A tracking tick between the two ramps of an arming asks of each joint to stand where the seed measured it, at rest,
  // with no feedforward and at the configured gains, whatever ran before; it is at that pose if and only if the rate
  // limit reaches it from lastCommand_.
  lemma ArmingStands(w: World, rs: seq<Robot>, es: seq<Event>, gs: seq<Given>, i: nat, h: nat, j: nat, n: nat)
    requires CheckedRun(w, rs, es, gs) && i < h < j < |es| && FirstRamp(es, i, h, j) && TicksTracking(rs, es, j)
    requires n < |w.body.joints| && Loaded(w.body.joints[n])
    ensures n < |rs[i].sys.core.measured| && IsFinite(rs[i].sys.core.measured[n])
    ensures n < |rs[j].pipe.last| && n < |rs[j + 1].pipe.target| && IsFinite(rs[j].pipe.last[n].q)
    ensures var joint, t := w.body.joints[n], rs[j + 1].pipe.target[n];
            var pose, last := Clamp(rs[i].sys.core.measured[n].r, joint.qMin, joint.qMax), rs[j].pipe.last[n].q.r;
      && t.dq == Fin(0.0) && t.tau == Fin(0.0) && t.kp == Fin(joint.kp) && t.kd == Fin(joint.kd)
      && (t.q == Fin(pose) <==> Reaches(joint, w.body.dt, last, pose))
  {
    var joint, b := w.body.joints[n], w.body;
    SeedOutcome(w, rs, es, gs, i, n);
    FirstRampStored(w, rs, es, gs, i, h, j);
    TickTargets(w, rs, es, gs, j);
    AlwaysTame(w, rs, es, gs, h);
    AlwaysTame(w, rs, es, gs, j);
    SeededFinite(w, rs, es, gs, i, n);
    var pose := Clamp(rs[i].sys.core.measured[n].r, joint.qMin, joint.qMax);
    assert PoseAt(rs[i].sys, joint, n) == Fin(pose);
    StandsAt(PL.RealCmd(rs[h].pipe.last[n]), Cmd(pose, 0.0, joint.kp, joint.kd, 0.0), rs[j].pipe.last[n], joint, b.dt,
             gs[h].now, gs[j].now);
  }

  lemma SeededFinite(w: World, rs: seq<Robot>, es: seq<Event>, gs: seq<Given>, i: nat, n: nat)
    requires CheckedRun(w, rs, es, gs) && i < |es| && es[i].ArmSeeded? && n < |w.body.joints|
    ensures n < |rs[i].sys.core.measured| && IsFinite(rs[i].sys.core.measured[n])
  {
    OneStep(w, rs, es, gs, i);
    assert PassedAt(w, rs, es, gs, i);
    var work := Work(w, rs[i].sys, es[i], gs[i]);
    assert work == [PL.Seed(gs[i].motors)] && Passed(w.body, work[0]) && PL.Possible(w.body, work[0]);
    assert FiniteMotor(gs[i].motors[n]);
  }

  // A ramp of no time to a command at rest.
  lemma StandsAt(from: Cmd, to: Cmd, last: CmdN, j: Joint, dt: real, t0: real, now: real)
    requires Loaded(j) && j.qMin <= to.q <= j.qMax && to.dq == 0.0 && FiniteCommand(last)
    ensures var params := ParamsFor(1.0, PL.Exact(to), PL.Exact(from));
            var t := TargetN(1.0, params, Ramp.Phase(now, t0, t0 + 0.0), last, j, dt);
      && t.dq == Fin(0.0) && t.tau == Fin(to.tau) && t.kp == Fin(to.kp) && t.kd == Fin(to.kd)
      && (t.q == Fin(to.q) <==> Reaches(j, dt, last.q.r, to.q))
  {
    TargetOnTheWay(from, to, last, j, dt, t0, 0.0, now);
    LineInTimeN(Fin(from.q), Fin(to.q), t0, 0.0, now);
    ReachedIff(to.q, last.q.r, j, dt);
  }

  lemma ReachedIff(q: real, last: real, j: Joint, dt: real)
    requires Loaded(j) && j.qMin <= q <= j.qMax
    ensures LimitTargetN(Fin(q), Fin(last), j, dt) == Fin(q) <==> Reaches(j, dt, last, q)
  {
    PL.LimitTargetExact(q, last, j, dt);
    assert StepSize(j.qRateLimit, dt) == j.qRateLimit * dt;
    if j.qRateLimit > 0.0 && dt > 0.0 {
      MulPositive(j.qRateLimit, dt);
    }
  }

  // A ramp that has started, at any later moment.
  lemma OnTheRamp(b: Body, p: State, q: State, t0: real, d: real, now: real, n: nat)
    requires Shaped(b, p) && Shaped(b, q) && n < |b.joints| && StartsRamp(p, q, t0, d)
    requires FiniteCommand(p.last[n]) && FiniteCommand(q.desired[n])
    ensures OnTheWay(Targets(b, q, now)[n], PL.RealCmd(p.last[n]), PL.RealCmd(q.desired[n]), b.joints[n], b.dt,
                     q.last[n].q, t0, d, now)
  {
    TargetOnTheWay(PL.RealCmd(p.last[n]), PL.RealCmd(q.desired[n]), q.last[n], b.joints[n], b.dt, t0, d, now);
  }

  lemma SecondRampStored(w: World, rs: seq<Robot>, es: seq<Event>, gs: seq<Given>, i: nat, r: nat, j: nat, n: nat)
    requires RobotRun(w, rs, es, gs) && i < r < j < |rs| && es[i].ArmSeeded? && es[r].ArmRamped?
    requires forall k :: i < k < r ==> !es[k].ArmRamped?
    requires forall k :: r < k < j ==> !Stores(es[k])
    requires n < |w.body.joints|
    ensures rs[r].sys.exec.ArmRamp? && Shaped(w.body, rs[r].pipe) && Shaped(w.body, rs[j].pipe)
    ensures StartsRamp(rs[r].pipe, rs[j].pipe, gs[r].now, w.rampTime)
    ensures rs[j].pipe.desired[n] == GoalOf(w, rs[r].sys.exec.limp, gs[r].start, n, STILL)
  {
    SeedOutcome(w, rs, es, gs, i, n);
    SeedLasts(w, rs, es, gs, i, r);
    RampedOutcome(w, rs, es, gs, r, n);
    OneStep(w, rs, es, gs, r);
    OneStep(w, rs, es, gs, j - 1);
    StoredLasts(w, rs, es, gs, r + 1, j);
  }

  const STILL := CmdN(Fin(0.0), Fin(0.0), Fin(0.0), Fin(0.0), Fin(0.0))

  // The second ramp goes from where lastCommand_ stands when it starts to the pose asked for or the ready pose, at
  // rest and with no feedforward, in the configured time; limp, its gains fade out.
  lemma ArmingRamps(w: World, rs: seq<Robot>, es: seq<Event>, gs: seq<Given>, i: nat, r: nat, j: nat, n: nat)
    requires CheckedRun(w, rs, es, gs) && i < r < j < |es| && es[i].ArmSeeded? && es[r].ArmRamped?
    requires forall k :: i < k < r ==> !es[k].ArmRamped?
    requires forall k :: r < k < j ==> !Stores(es[k])
    requires TicksTracking(rs, es, j) && n < |w.body.joints|
    ensures rs[r].sys.exec.ArmRamp? && n < |rs[r].pipe.last| && n < |rs[j + 1].pipe.target| && n < |rs[j].pipe.last|
    ensures var goal := GoalOf(w, rs[r].sys.exec.limp, gs[r].start, n, STILL);
      && FiniteCommand(rs[r].pipe.last[n]) && FiniteCommand(goal)
      && OnTheWay(rs[j + 1].pipe.target[n], PL.RealCmd(rs[r].pipe.last[n]), PL.RealCmd(goal), w.body.joints[n],
                  w.body.dt, rs[j].pipe.last[n].q, gs[r].now, w.rampTime, gs[j].now)
  {
    SecondRampStored(w, rs, es, gs, i, r, j, n);
    TickTargets(w, rs, es, gs, j);
    AlwaysTame(w, rs, es, gs, r);
    AlwaysTame(w, rs, es, gs, j);
    assert TameCommand(rs[j].pipe.desired[n], w.body.joints[n]);
    OnTheRamp(w.body, rs[r].pipe, rs[j].pipe, gs[r].now, w.rampTime, gs[j].now, n);
  }

  // Ready and Zero ramp from lastCommand_ to the pose, in the configured time and at the configured gains.
  lemma PoseInTime(w: World, rs: seq<Robot>, es: seq<Event>, gs: seq<Given>, i: nat, j: nat, n: nat)
    requires CheckedRun(w, rs, es, gs) && i < j < |es| && es[i].PoseSet? && n < |w.body.joints|
    requires forall k :: i < k < j ==> !Stores(es[k])
    requires TicksTracking(rs, es, j)
    ensures n < |rs[i].pipe.last| && n < |rs[j + 1].pipe.target| && n < |rs[j].pipe.last|
    ensures var joint := w.body.joints[n];
      && FiniteCommand(rs[i].pipe.last[n])
      && OnTheWay(rs[j + 1].pipe.target[n], PL.RealCmd(rs[i].pipe.last[n]),
                  Cmd(if gs[i].zero then 0.0 else w.ready[n], 0.0, joint.kp, joint.kd, 0.0), joint, w.body.dt,
                  rs[j].pipe.last[n].q, gs[i].now, w.rampTime, gs[j].now)
  {
    PoseOutcome(w, rs, es, gs, i, n);
    OneStep(w, rs, es, gs, i);
    StoredLasts(w, rs, es, gs, i + 1, j);
    TickTargets(w, rs, es, gs, j);
    AlwaysTame(w, rs, es, gs, i);
    OnTheRamp(w.body, rs[i].pipe, rs[j].pipe, gs[i].now, w.rampTime, gs[j].now, n);
  }

  // --- A command ---------------------------------------------------------------------------------------------------

  // From the moment a command is taken until the next store: every target is on its way, or filtered or stepped, as its
  // order says.
  lemma CommandInTime(w: World, rs: seq<Robot>, es: seq<Event>, gs: seq<Given>, i: nat, j: nat, n: nat)
    requires CheckedRun(w, rs, es, gs) && i < j < |es| && es[i].CommandApplied? && Taken(rs[i].sys)
    requires 0.0 <= gs[i].order <= 1.0
    requires forall k :: i < k < j ==> !Stores(es[k])
    requires TicksTracking(rs, es, j) && n < |w.body.joints|
    ensures n < |rs[i].pipe.last| && n < |rs[j + 1].pipe.target| && n < |rs[j].pipe.last| && n < |gs[i].desired|
    ensures var g, joint, t := gs[i], w.body.joints[n], rs[j + 1].pipe.target[n];
      && FiniteCommand(rs[i].pipe.last[n]) && FiniteCommand(g.desired[n])
      && (g.order == 1.0 ==>
            OnTheWay(t, PL.RealCmd(rs[i].pipe.last[n]), PL.RealCmd(g.desired[n]), joint, w.body.dt,
                     rs[j].pipe.last[n].q, g.now, g.duration, gs[j].now))
      && (g.order < 1.0 ==> AtOnce(t, PL.RealCmd(g.desired[n]), g.order, joint, w.body.dt, rs[j].pipe.last[n]))
  {
    CommandStored(w, rs, es, gs, i, j, n);
    TickTargets(w, rs, es, gs, j);
    if gs[i].order == 1.0 {
      RampTarget(w.body, rs[i].pipe, rs[j].pipe, gs[i], gs[j].now, n);
    } else {
      StepTarget(w.body, rs[i].pipe, rs[j].pipe, gs[i], gs[j].now, n);
    }
  }

  lemma CommandStored(w: World, rs: seq<Robot>, es: seq<Event>, gs: seq<Given>, i: nat, j: nat, n: nat)
    requires CheckedRun(w, rs, es, gs) && i < j < |es| && es[i].CommandApplied? && Taken(rs[i].sys)
    requires 0.0 <= gs[i].order <= 1.0 && n < |w.body.joints|
    requires forall k :: i < k < j ==> !Stores(es[k])
    ensures Shaped(w.body, rs[i].pipe) && Shaped(w.body, rs[j].pipe) && Runs(rs[i].pipe, rs[j].pipe, gs[i])
    ensures FiniteCommand(rs[i].pipe.last[n]) && FiniteCommand(gs[i].desired[n])
  {
    CommandOutcome(w, rs, es, gs, i);
    StoredLasts(w, rs, es, gs, i + 1, j);
    AlwaysTame(w, rs, es, gs, i);
    AlwaysTame(w, rs, es, gs, j);
    assert TameCommand(rs[j].pipe.desired[n], w.body.joints[n]);
  }

  lemma RampTarget(b: Body, p: State, q: State, g: Given, now: real, n: nat)
    requires Shaped(b, p) && Shaped(b, q) && n < |b.joints| && Runs(p, q, g) && g.order == 1.0
    requires FiniteCommand(p.last[n]) && FiniteCommand(g.desired[n])
    ensures OnTheWay(Targets(b, q, now)[n], PL.RealCmd(p.last[n]), PL.RealCmd(g.desired[n]), b.joints[n], b.dt,
                     q.last[n].q, g.now, g.duration, now)
  {
    TargetOnTheWay(PL.RealCmd(p.last[n]), PL.RealCmd(g.desired[n]), q.last[n], b.joints[n], b.dt, g.now, g.duration,
                   now);
  }

  lemma StepTarget(b: Body, p: State, q: State, g: Given, now: real, n: nat)
    requires Shaped(b, p) && Shaped(b, q) && n < |b.joints| && Runs(p, q, g) && 0.0 <= g.order < 1.0
    requires FiniteCommand(g.desired[n])
    ensures AtOnce(Targets(b, q, now)[n], PL.RealCmd(g.desired[n]), g.order, b.joints[n], b.dt, q.last[n])
  {
    TargetAtOnce(g.order, PL.RealCmd(g.desired[n]), p.last[n], Ramp.Phase(now, g.now, g.now + g.duration), q.last[n],
                 b.joints[n], b.dt);
  }

  // The command timeout: with no new fault, a check of the tracking robot stops it if and only if the command was not
  // to hold and its ramp is over for more than 0.2 s.
  lemma CommandTimesOutIff(w: World, rs: seq<Robot>, es: seq<Event>, gs: seq<Given>, i: nat, j: nat)
    requires RobotRun(w, rs, es, gs) && i < j < |es| && es[i].CommandApplied? && Taken(rs[i].sys)
    requires 0.0 <= gs[i].order <= 1.0
    requires forall k :: i < k < j ==> !Stores(es[k])
    requires es[j].Checked? && rs[j].sys.core.tracking && es[j].fault == Estop.NoCause
    ensures rs[j + 1].sys.control == Stopping(Estop.CmdTimeout) <==>
            !gs[i].hold && gs[j].now > gs[i].now + gs[i].duration + 0.2
  {
    CommandOutcome(w, rs, es, gs, i);
    StoredLasts(w, rs, es, gs, i + 1, j);
    OverdueStops(w, rs, es, gs, j);
  }

  // --- Stop frames -------------------------------------------------------------------------------------------------

  // A stop tick in damp sends every joint damping alone, at the measured pose if there is one; the next ramp starts
  // there.
  lemma DampFrames(w: World, rs: seq<Robot>, es: seq<Event>, gs: seq<Given>, i: nat, n: nat)
    requires RobotRun(w, rs, es, gs) && i < |es| && n < |w.body.joints|
    requires FrameOf(rs[i].sys, es[i]) == Bridge.StopFrame && rs[i].sys.core.latch.mode == Estop.Damp
    ensures var f, joint := rs[i + 1].pipe.last, w.body.joints[n];
      && rs[i + 1].pipe.sent == rs[i].pipe.sent + [f] && n < |f| && n < |rs[i].sys.core.measured|
      && var q := rs[i].sys.core.measured[n];
         f[n] == CmdN(if IsFinite(q) then q else Fin(0.0), Fin(0.0), Fin(0.0), Fin(joint.dampKd), Fin(0.0))
  {
    OneStep(w, rs, es, gs, i);
    var work := Work(w, rs[i].sys, es[i], gs[i]);
    assert work == [work[0]] && work[0].Stop? && work[0].mode == Estop.Damp && work[0].state == gs[i].motors;
    assert PL.Possible(w.body, work[0]);
    OneEvent(w.body, rs[i].pipe, work[0]);
  }
}
