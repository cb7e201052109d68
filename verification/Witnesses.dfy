/** Inputs at which the conditions proved elsewhere fail, each at a command the bridge accepts and each with the number
the robot gets.
*/
module Witnesses {
  import opened Numbers
  import opened Gates
  import opened MotorPipeline
  import opened PipelineLaws
  import opened Plane
  import Ankle
  import CrankSigns
  import Cranks
  import Commands
  import Estop
  import HoldLaws
  import Newton
  import Ramp
  import Safety
  import Streams
  import Threads

  // A joint of 1 Nm and 20 rad/s, and gains from 0 up.
  const JOINT := Joint(-3.0, 3.0, 20.0, 1.0, 10.0, 1.0, 2.0, false, 1.0)
  const ANKLE := JOINT.(isParallel := true)
  const GAINS := Commands.Gains(0.0, 100.0, 0.0, 10.0)

  predicate Stored(c: Cmd, j: Joint) {
    Commands.Accepted(Exact(c)) && Commands.Admissible(Exact(c), j, GAINS)
  }

  // --- The torque bound -----------------------------------------------------------------------------------

  // Without a spring the damping goes out uncut: 10 Nm/(rad/s) at 1 rad/s on a joint of 1 Nm.
  lemma SpringlessOverLimit()
    ensures var c, m := Cmd(0.0, 0.0, 0.0, 10.0, 0.0), Motor(0.0, 1.0);
      && Stored(c, JOINT) && Torque(Finish(Gates.MotorPd(c), m, JOINT, false), m) == -10.0
      && !Within(Torque(Finish(Gates.MotorPd(c), m, JOINT, false), m), JOINT.tauLimit)
  {}

  // A converted parallel joint with a spring and damping over twice the limit.
  lemma ConvertedOverLimit()
    ensures var c, m := Cmd(0.0, 0.0, 10.0, 10.0, 0.0), Motor(0.0, 1.0);
      && Stored(c, ANKLE) && Torque(Finish(Gates.MotorPd(c), m, ANKLE, true), m) == -9.0
      && !Within(Torque(Finish(Gates.MotorPd(c), m, ANKLE, true), m), ANKLE.tauLimit)
  {
    var c, m := Cmd(0.0, 0.0, 10.0, 10.0, 0.0), Motor(0.0, 1.0);
    ParallelTorque(c, m, ANKLE);
    assert Pull(c.kp, c.q, m.q) == 0.0 && Pull(c.kd, c.dq, m.dq) == -10.0;
  }

  // The controllers part at kp 0, ...
  lemma ControllersPartAtZero()
    ensures var c, m := Cmd(0.0, 0.0, 0.0, 10.0, 0.0), Motor(0.0, 1.0);
      && Stored(c, JOINT)
      && Torque(Finish(Gates.MotorPd(c), m, JOINT, false), m) == -10.0
      && Torque(Finish(Gates.BridgePd(c, m), m, JOINT, false), m) == -1.0
  {}

  // ... and below 1e-6, where bridge_pd still adds the spring.
  lemma ControllersPartBelowThreshold()
    ensures var c, m := Cmd(1.0, 0.0, KP_ZERO, 0.0, 0.0), Motor(0.0, 0.0);
      && Stored(c, JOINT)
      && Torque(Finish(Gates.MotorPd(c), m, JOINT, false), m) == 0.0
      && Torque(Finish(Gates.BridgePd(c, m), m, JOINT, false), m) == KP_ZERO
  {
    SmallSpringStored();
    SmallSpring(Cmd(1.0, 0.0, KP_ZERO, 0.0, 0.0), Motor(0.0, 0.0), JOINT);
  }

  lemma SmallSpringStored()
    ensures Stored(Cmd(1.0, 0.0, KP_ZERO, 0.0, 0.0), JOINT)
  {}

  lemma SmallSpring(c: Cmd, m: Motor, j: Joint)
    requires c.kp == KP_ZERO && Pull(c.kp, c.q, m.q) == KP_ZERO && Pull(c.kd, c.dq, m.dq) == 0.0 && c.tau == 0.0
    requires j.tauLimit == 1.0
    ensures Torque(Finish(Gates.MotorPd(c), m, j, false), m) == 0.0
    ensures Torque(Finish(Gates.BridgePd(c, m), m, j, false), m) == KP_ZERO
  {
    SpringlessTorque(c, m, j, false);
    BridgePdTorque(c, m, j, false);
  }

  // --- Corrupt states ----------------------------------------------------------------------------------------

  // A NaN measured q sends the target of a serial spring without its window, and so does a NaN speed.
  lemma NaNGoesUnwindowed(t: CmdN, x: Num, j: Joint)
    requires FiniteCommand(t) && t.kp.r > KP_ZERO
    ensures var f, g := FinishN(t, MotorN(NaN, x), j, false), FinishN(t, MotorN(x, NaN), j, false);
      FiniteCommand(f) && f.q == t.q && FiniteCommand(g) && g.q == t.q
  {
    NaNCentre(t, x);
    MotorPdFiniteIff(t, MotorN(NaN, x), j, false);
    MotorPdFiniteIff(t, MotorN(x, NaN), j, false);
  }

  lemma NaNCentre(t: CmdN, x: Num)
    ensures WindowCentre(t, MotorN(NaN, x)).NaN? && WindowCentre(t, MotorN(x, NaN)).NaN?
  {}

  // A NaN in lastCommand_ under a low-pass leaves at a command without a spring: the target is NaN once, the frame is
  // finite all the same, and the next ramp starts from the measured q.
  lemma NaNLeavesWithoutSpring(x: real)
    ensures var c := CmdN(ZERO, ZERO, ZERO, Fin(1.0), ZERO);
            var last, m := c.(q := NaN), MotorN(Fin(x), ZERO);
            var t := TargetN(0.5, ParamsFor(0.5, c, last), 1.0, last, JOINT, 0.001);
      && Commands.Accepted(c) && Commands.Admissible(c, JOINT, GAINS)
      && t.q == NaN && FiniteCommand(FinishN(t, m, JOINT, false)) && NextLastN(t, m, JOINT, false).q == Fin(x)
  {
    var c := CmdN(ZERO, ZERO, ZERO, Fin(1.0), ZERO);
    NaNTarget(c, c.(q := NaN));
    SpringlessStored(c);
    SpringlessGoesOut(c.(q := NaN), x);
  }

  lemma SpringlessStored(c: CmdN)
    requires c == CmdN(ZERO, ZERO, ZERO, Fin(1.0), ZERO)
    ensures Commands.Accepted(c) && Commands.Admissible(c, JOINT, GAINS)
  {}

  lemma NaNTarget(c: CmdN, last: CmdN)
    requires c == CmdN(ZERO, ZERO, ZERO, Fin(1.0), ZERO) && last == c.(q := NaN)
    ensures TargetN(0.5, ParamsFor(0.5, c, last), 1.0, last, JOINT, 0.001) == last
  {
    HeldLine(0.0);
    HeldLine(1.0);
    NaNStays();
    RestStays(JOINT.dqLimit);
  }

  lemma NaNStays()
    ensures LimitTargetN(InterpolatedN(0.5, ConstantN(ZERO), 1.0, NaN), NaN, JOINT, 0.001) == NaN
  {}

  lemma RestStays(limit: real)
    requires limit >= 0.0
    ensures BoundN(InterpolatedN(0.5, ConstantN(ZERO), 1.0, ZERO), limit) == ZERO
  {
    RestMixes(ZERO);
    assert InterpolatedN(0.5, ConstantN(ZERO), 1.0, ZERO) == MixN(ZERO, ZERO, 0.5);
    RestIsInBounds(ZERO, limit);
  }

  lemma RestMixes(x: Num)
    requires x == ZERO
    ensures MixN(x, x, 0.5) == x
  {}

  lemma RestIsInBounds(x: Num, limit: real)
    requires x == ZERO && limit >= 0.0
    ensures BoundN(x, limit) == x
  {}

  lemma HeldLine(x: real)
    ensures AtN(ConstantN(Fin(x)), 1.0) == Fin(x)
  {}

  lemma SpringlessGoesOut(t: CmdN, x: real)
    requires t == CmdN(NaN, ZERO, ZERO, Fin(1.0), ZERO)
    ensures var m := MotorN(Fin(x), ZERO);
      FiniteCommand(FinishN(t, m, JOINT, false)) && NextLastN(t, m, JOINT, false).q == Fin(x)
  {}

  // --- Arming --------------------------------------------------------------------------------------------------

  // An arming that does not hold still: the joint moves at 5 rad/s when it is armed at 0. Gate 4 lets lastCommand_
  // slip to 0.4 at the first tick, and gate 2 keeps the second target at 0.399.
  lemma ArmingSlips()
    ensures var still := Cmd(0.0, 0.0, 10.0, 1.0, 0.0);
            var c := Ramp.Command(1.0, Ramp.InterpolationParams(1.0, still, still), JOINT, 0.001, false);
            var t := Ramp.Tick(1.0, Motor(0.0, 5.0));
      && Ramp.IsStill(c, 0.0) && !Ramp.Admits(c, t, 0.0, 0.0)
      && Ramp.TickTarget(c, still, t).q == 0.0 && Ramp.TickLast(c, still, t).q == 0.4
      && Ramp.TickTarget(c, Ramp.TickLast(c, still, t), t).q == 0.399
  {
    var still := Cmd(0.0, 0.0, 10.0, 1.0, 0.0);
    var c := Ramp.Command(1.0, Ramp.InterpolationParams(1.0, still, still), JOINT, 0.001, false);
    var t := Ramp.Tick(1.0, Motor(0.0, 5.0));
    assert Ramp.At(c.params.kp, 1.0) == 10.0 && Ramp.At(c.params.kd, 1.0) == 1.0;
    assert Pull(1.0, 5.0, 0.0) == 5.0;
    assert Ramp.StepOf(c) == 0.001;
  }

  // --- The cranks ----------------------------------------------------------------------------------------------

  // A crank sign of 2 in the config, under a damping command to the speed the joints have, so with no torque asked for:
  // the mapping succeeds, and a motor of 1 Nm applies 30.
  const TWICE := Cranks.Wiring(false, V2(2.0, 2.0), 1.0, 0.0)
  const FLAT := Cranks.Maps(Straight, Straight, Longer)

  // Cranks that turn as the joints do.
  function Straight(q: V2): Newton.Kin {
    Newton.Kin(q, M2(1.0, 0.0, 0.0, 1.0), 0.0)
  }

  function Longer(v: V2): real {
    if Abs(v.x) < Abs(v.y) then Abs(v.y) else Abs(v.x)
  }

  function AtOneRadPerSecond(): seq<Motor> {
    seq(Cranks.JOINTS, _ => Motor(0.0, 1.0))
  }

  function AtZero(): seq<Motor> {
    seq(Cranks.JOINTS, _ => Motor(0.0, 0.0))
  }

  function Damping(): seq<Cmd> {
    seq(Cranks.JOINTS, _ => Cmd(0.0, 2.0, 0.0, 10.0, 0.0))
  }

  ghost predicate DrivesTwice(w: Cranks.Wiring, m: Cranks.Maps, parallel: seq<Motor>, serial: seq<Motor>, cmd: seq<Cmd>)
  {
    w == TWICE && m == FLAT && parallel == AtOneRadPerSecond() && serial == AtZero() && cmd == Damping()
  }

  lemma SignTwoBreaksLimit(w: Cranks.Wiring, m: Cranks.Maps, parallel: seq<Motor>, serial: seq<Motor>, cmd: seq<Cmd>,
      side: nat, k: nat)
    requires DrivesTwice(w, m, parallel, serial, cmd) && side < 2 && k < 2
    ensures Cranks.BothMap(w, m, parallel, serial, cmd)
    ensures CrankSigns.Applied(w, m, parallel, serial, cmd, side, k) == 30.0
  {
    TwiceMaps(w, m, parallel, serial, cmd);
    TwiceApplies(w, m, parallel, serial, cmd, side, k);
  }

  lemma TwiceMaps(w: Cranks.Wiring, m: Cranks.Maps, parallel: seq<Motor>, serial: seq<Motor>, cmd: seq<Cmd>)
    requires DrivesTwice(w, m, parallel, serial, cmd)
    ensures Cranks.BothMap(w, m, parallel, serial, cmd)
  {
    forall side: nat | side < 2
      ensures Cranks.SideOk(w, m, parallel, serial, cmd, side)
    {
      StraightCrank(w, m, parallel, serial, cmd, side);
    }
    BothMapped(w, m, parallel, serial, cmd);
  }

  lemma BothMapped(w: Cranks.Wiring, m: Cranks.Maps, parallel: seq<Motor>, serial: seq<Motor>, cmd: seq<Cmd>)
    requires |serial| == |cmd| == Cranks.JOINTS
    requires forall side: nat :: side < 2 ==> Cranks.SideOk(w, m, parallel, serial, cmd, side)
    ensures Cranks.BothMap(w, m, parallel, serial, cmd)
  {}

  lemma TwiceApplies(w: Cranks.Wiring, m: Cranks.Maps, parallel: seq<Motor>, serial: seq<Motor>, cmd: seq<Cmd>,
      side: nat, k: nat)
    requires DrivesTwice(w, m, parallel, serial, cmd) && side < 2 && k < 2
    ensures CrankSigns.Applied(w, m, parallel, serial, cmd, side, k) == 30.0
  {
    StraightCrank(w, m, parallel, serial, cmd, side);
    TwiceApplied(w, m, parallel, serial, cmd, side, k, Cranks.SideCrank(w, m, parallel, serial, cmd, side));
  }

  lemma TwiceApplied(w: Cranks.Wiring, m: Cranks.Maps, parallel: seq<Motor>, serial: seq<Motor>, cmd: seq<Cmd>,
      side: nat, k: nat, c: Ankle.Crank)
    requires |serial| == |cmd| == Cranks.JOINTS && parallel == AtOneRadPerSecond() && w == TWICE && side < 2 && k < 2
    requires c.kd == V2(10.0, 10.0) && c.tau == V2(20.0, 20.0)
    ensures c == Cranks.SideCrank(w, m, parallel, serial, cmd, side) ==>
      CrankSigns.Applied(w, m, parallel, serial, cmd, side, k) == 30.0
  {
    EntryOfTwo(c, k);
    if c == Cranks.SideCrank(w, m, parallel, serial, cmd, side) {
      CrankSigns.AppliedIs(w, m, parallel, serial, cmd, side, k, Motor(0.0, 1.0), Cmd(0.0, 0.0, 0.0, 10.0, 40.0));
    }
  }

  lemma EntryOfTwo(c: Ankle.Crank, k: nat)
    requires k < 2 && c.kd == V2(10.0, 10.0) && c.tau == V2(20.0, 20.0)
    ensures Cranks.CrankEntry(TWICE, c, k, 0.0) == Cmd(0.0, 0.0, 0.0, 10.0, 40.0)
    ensures Torque(Cmd(0.0, 0.0, 0.0, 10.0, 40.0), Motor(0.0, 1.0)) == 30.0
  {
    TwoTimes();
  }

  lemma TwoTimes()
    ensures Cranks.Signed(2.0, 0.0) == 0.0 && Cranks.Signed(2.0, 1.0) == 2.0 && Cranks.Signed(2.0, 20.0) == 40.0
    ensures Torque(Cmd(0.0, 0.0, 0.0, 10.0, 40.0), Motor(0.0, 1.0)) == 30.0
    ensures Scaled(10.0, 2.0) == 20.0
  {}

  lemma SideIs(w: Cranks.Wiring, m: Cranks.Maps, parallel: seq<Motor>, serial: seq<Motor>, cmd: seq<Cmd>, side: nat,
      dqM: V2, q: V2, law: Ankle.Law, limit: real)
    requires side < 2 && |parallel| == |serial| == |cmd| == Cranks.JOINTS
    requires dqM == Cranks.CrankSpeeds(w, parallel, side) && q == Cranks.Two(serial, side)
    requires law == Cranks.LawOf(cmd, side) && limit == w.tauLimit && w.maxError >= 0.0
    ensures var c := Ankle.CrankOf(SideProblem(w, m, parallel, side), dqM, q, law, limit);
      && Cranks.SideCrank(w, m, parallel, serial, cmd, side) == c
      && (c.ok && c.qS == q ==> Cranks.SideOk(w, m, parallel, serial, cmd, side))
  {}

  function SideProblem(w: Cranks.Wiring, m: Cranks.Maps, parallel: seq<Motor>, side: nat): Newton.Problem
    requires side < 2 && |parallel| == Cranks.JOINTS
  {
    Newton.Problem(Cranks.KinOf(m, side), Cranks.CrankAngles(w, parallel, side), m.length)
  }

  lemma StraightCrank(w: Cranks.Wiring, m: Cranks.Maps, parallel: seq<Motor>, serial: seq<Motor>, cmd: seq<Cmd>,
      side: nat)
    requires DrivesTwice(w, m, parallel, serial, cmd) && side < 2
    ensures Cranks.SideOk(w, m, parallel, serial, cmd, side)
    ensures var c := Cranks.SideCrank(w, m, parallel, serial, cmd, side);
      c.kd == V2(10.0, 10.0) && c.tau == V2(20.0, 20.0)
  {
    StraightReads(side);
    SideIs(w, m, parallel, serial, cmd, side, V2(2.0, 2.0), ORIGIN, LAW, 1.0);
    StraightProblem(side);
    StraightJacobian(Newton.Jacobian(SideProblem(w, m, parallel, side), ORIGIN));
    StraightLaw(SideProblem(w, m, parallel, side), V2(2.0, 2.0), ORIGIN, LAW, 1.0, UNIT);
  }

  lemma StraightProblem(side: nat)
    requires side < 2
    ensures var p := SideProblem(TWICE, FLAT, AtOneRadPerSecond(), side);
      p.kin(ORIGIN) == Newton.Kin(ORIGIN, UNIT, 0.0) && p.length(ORIGIN) == 0.0 && p.qM == ORIGIN
  {
    StraightReads(side);
  }

  const LAW := Ankle.Law(ORIGIN, V2(2.0, 2.0), ORIGIN, V2(10.0, 10.0), ORIGIN)
  const UNIT := M2(1.0, 0.0, 0.0, 1.0)

  lemma StraightReads(side: nat)
    requires side < 2
    ensures Cranks.KinOf(FLAT, side) == Straight && Cranks.LawOf(Damping(), side) == LAW
    ensures Cranks.CrankAngles(TWICE, AtOneRadPerSecond(), side) == ORIGIN
    ensures Cranks.CrankSpeeds(TWICE, AtOneRadPerSecond(), side) == V2(2.0, 2.0)
    ensures Cranks.Two(AtZero(), side) == ORIGIN
  {
    TwoTimes();
  }

  lemma StraightLaw(p: Newton.Problem, dqM: V2, q: V2, law: Ankle.Law, limit: real, ji: M2)
    requires q == ORIGIN && p.kin(q).f == p.qM && p.kin(q).margin == 0.0 && p.length(q) == 0.0
    requires !Singular(Newton.Jacobian(p, q)) && Inverse(Newton.Jacobian(p, q)) == ji == UNIT
    requires dqM == V2(2.0, 2.0) && law == LAW && limit == 1.0
    ensures var c := Ankle.CrankOf(p, dqM, q, law, limit);
      c.ok && c.qS == q && c.kd == V2(10.0, 10.0) && c.tau == V2(20.0, 20.0)
  {
    FoundCrank(p, dqM, q, law, limit);
    Realised(law, dqM);
  }

  lemma StraightJacobian(m: M2)
    requires m == UNIT
    ensures !Singular(m) && Inverse(m) == UNIT
  {
    UnitDet();
    UnitInverse(m);
  }

  lemma FoundCrank(p: Newton.Problem, dqM: V2, q: V2, law: Ankle.Law, limit: real)
    requires p.kin(q).f == p.qM && p.length(ORIGIN) == 0.0 && !Singular(Newton.Jacobian(p, q))
    ensures Ankle.CrankOf(p, dqM, q, law, limit)
         == Ankle.Realise(Inverse(Newton.Jacobian(p, q)), law, q, dqM, limit, p.kin(q).margin)
  {
    Newton.ExactStart(p, q, 20);
  }

  lemma UnitDet()
    ensures Det(UNIT) == 1.0 && !Singular(UNIT)
  {}

  lemma OverOne(x: real, d: real)
    requires d == 1.0
    ensures x / d == x
  {}

  lemma UnitInverse(m: M2)
    requires Det(m) == 1.0
    ensures Inverse(m) == M2(m.yy, -m.xy, -m.yx, m.xx)
  {
    OverOne(m.yy, Det(m));
    OverOne(-m.xy, Det(m));
    OverOne(-m.yx, Det(m));
    OverOne(m.xx, Det(m));
  }

  lemma UnitApplies(v: V2)
    ensures Apply(UNIT, v) == ApplyT(UNIT, v) == v
    ensures Ankle.DriverKd(UNIT, v) == v
  {}

  // The joints have the speed asked for.
  lemma NothingAsked(law: Ankle.Law, dq: V2)
    requires law == LAW && dq == V2(2.0, 2.0)
    ensures Ankle.SerialPd(law, ORIGIN, dq) == ORIGIN && Ankle.BoundV(ORIGIN, 1.0) == ORIGIN
  {
    NoGain(0.0, 0.0);
    assert Pull(10.0, 2.0, 2.0) == 0.0;
  }

  lemma Realised(law: Ankle.Law, dqM: V2)
    requires law == LAW && dqM == V2(2.0, 2.0)
    ensures var c := Ankle.Realise(UNIT, law, ORIGIN, dqM, 1.0, 0.0);
      c.ok && c.qS == ORIGIN && c.kd == V2(10.0, 10.0) && c.tau == V2(20.0, 20.0)
  {
    UnitApplies(dqM);
    UnitApplies(ORIGIN);
    UnitApplies(law.kd);
    NothingAsked(law, dqM);
    TwoTimes();
  }

  // --- A hold undone -------------------------------------------------------------------------------------------

  // A hold asked for while a lost state is about to stop the robot, and that stop.
  lemma AskHold(w: Threads.Setup, ss: seq<Threads.System>, es: seq<Threads.Event>)
    returns (ss': seq<Threads.System>, es': seq<Threads.Event>)
    requires Threads.Run(w, ss, es) && Streams.Last(ss).exec == Threads.Waiting
    requires Streams.Last(ss).control == Threads.Stopping(Estop.StateLoss)
    requires Streams.Last(ss).core.latch.cause != Estop.Shutdown
    ensures Threads.Run(w, ss', es') && es' == es + [Threads.ServiceStop(Estop.ServiceHold)]
    ensures ss'[|es|] == Streams.Last(ss)
    ensures HoldLaws.Holding(Streams.Last(ss')) && Safety.IsLatched(Streams.Last(ss'))
    ensures Streams.Last(ss').control == Threads.Stopping(Estop.StateLoss)
  {
    ss', es' := Streams.Extend(w, ss, es, Threads.ServiceStop(Estop.ServiceHold));
    assert ss'[|es|] == ss[|es|];
    HoldLaws.OperatorHoldSettles(w, ss', es', |es|);
    HoldLaws.HoldCause(w, ss', es', |es|);
  }

  // A run in which a lost state is detected, the operator asks for a hold, and the stop already under way turns it into
  // the damp configured for a lost state.
  lemma HoldUndone(w: Threads.Setup) returns (ss: seq<Threads.System>, es: seq<Threads.Event>, n: nat)
    requires Threads.GoodSetup(w) && w.config.stateLoss == Estop.Damp
    ensures Threads.Run(w, ss, es) && |es| == n + 2
    ensures es[n] == Threads.ServiceStop(Estop.ServiceHold) && es[n + 1] == Threads.Stop
    ensures HoldLaws.Holding(ss[n + 1]) && !HoldLaws.Holding(ss[n + 2])
  {
    ss, es := DetectedLoss(w);
    n := |es|;
    var before := Streams.Last(ss);
    ss, es := AskHold(w, ss, es);
    var held := Streams.Last(ss);
    ss, es := Streams.Extend(w, ss, es, Threads.Stop);
    assert ss[n] == before && ss[n + 1] == held;
    HoldLaws.PendingFaultKeepsHoldIff(w, ss, es, n, n + 1);
  }

  // The robot is armed, and the control loop has seen the state lost.
  lemma DetectedLoss(w: Threads.Setup) returns (ss: seq<Threads.System>, es: seq<Threads.Event>)
    requires Threads.GoodSetup(w)
    ensures Threads.Run(w, ss, es) && Streams.Last(ss).exec == Threads.Waiting
    ensures Streams.Last(ss).control == Threads.Stopping(Estop.StateLoss)
    ensures Streams.Last(ss).core.latch.cause != Estop.Shutdown && Streams.Last(ss).core.tracking
  {
    ss, es := [Threads.Boot(0, true)], [];
    assert Threads.Run(w, ss, es);
    ss, es := Streams.ArmOnce(w, ss, es);
    ss, es := Streams.Extend(w, ss, es, Threads.Looked);
    ss, es := Streams.Extend(w, ss, es, Threads.Checked(Estop.StateLoss, false));
  }
}
