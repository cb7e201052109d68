/** The three threads and the motor pipeline together: which frame each step of an interleaving puts on /lowcmd, field
by field. A step of Threads comes with what it brings to the pipeline; the flags Threads leaves open (is the frame
finite, is the command overdue) are the pipeline's own answers here.
*/
module Lowcmd {
  import opened Numbers
  import opened Threads
  import opened Invariant
  import opened Safety
  import Bridge
  import Estop
  import HoldLaws
  import PL = PipelineLaws
  import MP = MotorPipeline

  datatype Robot = Robot(sys: System, pipe: MP.State)

  // What the outside brings along with a step: the state message under the lock, a plugin's output, a command.
  datatype Given = Given(
    now: real, motors: seq<MP.MotorN>, controller: MP.Controller, desired: seq<MP.CmdN>, duration: real, order: real,
    hold: bool, start: seq<Num>, zero: bool)

  // The ready pose and the time of the bridge's own ramps are config keys.
  datatype Config = Config(threads: Setup, body: MP.Body, ready: seq<real>, rampTime: real)

  type World = w: Config | |w.ready| == |w.body.joints| witness SMALLEST

  const SMALLEST := Config(Setup(Estop.Config(Estop.Damp, Estop.Damp, Estop.Damp, Estop.Damp, Estop.Damp), {}),
                           MP.Body([], 0.0, false), [], 0.0)

  // The command an arming ramps to, if it is given one: the measured pose at no gain for a limp one.
  function DefaultCmd(b: MP.Body, limp: bool, start: seq<Num>): seq<MP.CmdN> {
    if |start| != |b.joints| then []
    else
      seq(|start|, i requires 0 <= i < |start| =>
        MP.CmdN(start[i], Fin(0.0), if limp then Fin(0.0) else Fin(b.joints[i].kp),
                if limp then Fin(0.0) else Fin(b.joints[i].kd), Fin(0.0)))
  }

  function ZeroPose(n: nat): seq<real> {
    seq(n, _ => 0.0)
  }

  // What a step makes the pipeline do.
  function Work(w: World, s: System, e: Event, g: Given): seq<PL.Event>
  {
    match e
    case Published(age, _) =>
      var c := Bridge.AfterPublish(s.core, age);
      (match Bridge.Sent(c)
       case TrackingFrame => [PL.Tick(g.now, g.motors, g.controller)]
       case StopFrame => [PL.Stop(c.latch.mode, g.motors, c.holdQ)]
       case NoFrame => [])
    case ArmSeeded => [PL.Seed(g.motors)]
    case ArmHeld => [PL.Interpolate(0.0, 1.0, true, g.now)]
    case ArmStored => [PL.Received]
    case ArmRamped =>
      var limp := s.exec.ArmRamp? && s.exec.limp;
      [PL.Aim(MP.ArmGoal(w.body, w.ready, DefaultCmd(w.body, limp, g.start))),
       PL.Interpolate(w.rampTime, 1.0, true, g.now)]
    case CommandApplied =>
      if s.exec.CommandApply? && Bridge.Accepts(s.core, s.exec.controller)
      then [PL.Desire(g.desired), PL.Received, PL.Interpolate(g.duration, g.order, g.hold, g.now)]
      else []
    case PoseSet =>
      [PL.Desire(MP.Posed(w.body, if g.zero then ZeroPose(|w.ready|) else w.ready)),
       PL.Interpolate(w.rampTime, 1.0, true, g.now)]
    case _ => []
  }

  // The controller that runs is the one named.
  predicate RunsUnder(name: string, c: MP.Controller) {
    (name == Bridge.MOTOR_PD <==> c.MotorPd?) && (name == "bridge_pd" <==> c.BridgePd?)
  }

  predicate Overdue(d: MP.Deadline, now: real) {
    d.By? && now > d.at
  }

  // The open flags of a step are what the pipeline says.
  ghost predicate Answers(w: World, r: Robot, e: Event, g: Given)
    requires MP.Shaped(w.body, r.pipe) && PL.AllPossible(w.body, Work(w, r.sys, e, g))
  {
    match e
    case Published(age, finite) =>
      Bridge.Sent(Bridge.AfterPublish(r.sys.core, age)) == Bridge.TrackingFrame ==>
        assert Work(w, r.sys, e, g)[0] == PL.Tick(g.now, g.motors, g.controller);
        RunsUnder(r.sys.core.controller, g.controller) &&
        finite == MP.FiniteFrame(MP.AfterTick(w.body, r.pipe, g.now, g.motors, g.controller).frame)
    case Checked(_, timeout) => timeout == Overdue(r.pipe.tValid, g.now)
    case _ => true
  }

  // The message under the lock is the one the stops took their pose from.
  ghost predicate Measures(c: Bridge.Core, motors: seq<MP.MotorN>) {
    |motors| == |c.measured| && forall i :: 0 <= i < |motors| ==> motors[i].q == c.measured[i]
  }

  ghost predicate StepAt(w: World, rs: seq<Robot>, es: seq<Event>, gs: seq<Given>, i: nat)
    requires i < |es| == |gs| && |es| < |rs|
  {
    var r, e, g := rs[i], es[i], gs[i];
    && Enabled(r.sys, e) && MP.Shaped(w.body, r.pipe) && PL.AllPossible(w.body, Work(w, r.sys, e, g))
    && Measures(r.sys.core, g.motors) && Answers(w, r, e, g)
    && rs[i + 1] == Robot(After(w.threads, r.sys, e), PL.AfterAll(w.body, r.pipe, Work(w, r.sys, e, g)))
  }

  ghost predicate RobotRun(w: World, rs: seq<Robot>, es: seq<Event>, gs: seq<Given>) {
    && |es| == |gs| && |rs| == |es| + 1 && GoodSetup(w.threads)
    && (exists n, ticks :: rs[0].sys == Boot(n, ticks))
    && MP.Shaped(w.body, rs[0].pipe) && rs[0].pipe.sent == []
    && forall i :: 0 <= i < |es| ==> StepAt(w, rs, es, gs, i)
  }

  // What the threads do in it is a run of the threads alone, so every law of theirs holds of it.
  function Sys(rs: seq<Robot>): (ss: seq<System>)
    ensures |ss| == |rs| && forall i :: 0 <= i < |rs| ==> ss[i] == rs[i].sys
  {
    seq(|rs|, i requires 0 <= i < |rs| => rs[i].sys)
  }

  lemma ThreadsRun(w: World, rs: seq<Robot>, es: seq<Event>, gs: seq<Given>)
    requires RobotRun(w, rs, es, gs)
    ensures Run(w.threads, Sys(rs), es)
  {
    forall i | 0 <= i < |es|
      ensures Threads.StepAt(w.threads, Sys(rs), es, i)
    {
      assert StepAt(w, rs, es, gs, i);
    }
    var n, ticks :| rs[0].sys == Boot(n, ticks);
    assert Sys(rs)[0] == Boot(n, ticks);
  }

  // --- What goes out ------------------------------------------------------------------------------------------

  // The frames a step adds to /lowcmd: the finite frame of the tick, the stop frames of the latch, or none.
  function Added(w: World, r: Robot, e: Event, g: Given): seq<seq<MP.CmdN>>
    requires MP.Shaped(w.body, r.pipe) && PL.AllPossible(w.body, Work(w, r.sys, e, g))
  {
    match e
    case Published(age, _) =>
      var c := Bridge.AfterPublish(r.sys.core, age);
      (match FrameOf(r.sys, e)
       case TrackingFrame =>
         assert Work(w, r.sys, e, g)[0] == PL.Tick(g.now, g.motors, g.controller);
         [MP.AfterTick(w.body, r.pipe, g.now, g.motors, g.controller).frame]
       case StopFrame =>
         assert Work(w, r.sys, e, g)[0] == PL.Stop(c.latch.mode, g.motors, c.holdQ);
         [MP.StopFrames(w.body, c.latch.mode, g.motors, c.holdQ)]
       case NoFrame => [])
    case _ => []
  }

  lemma OneEvent(b: MP.Body, s: MP.State, e: PL.Event)
    requires MP.Shaped(b, s) && PL.Possible(b, e)
    ensures PL.AllPossible(b, [e]) && PL.AfterAll(b, s, [e]) == PL.AfterEvent(b, s, e)
  {
    assert [e][..0] == [];
  }

  lemma {:induction false} QuietWork(b: MP.Body, s: MP.State, es: seq<PL.Event>)
    requires MP.Shaped(b, s) && PL.AllPossible(b, es) && forall i :: 0 <= i < |es| ==> !es[i].Tick? && !es[i].Stop?
    ensures PL.AfterAll(b, s, es).sent == s.sent
  {
    if es != [] {
      QuietWork(b, s, es[..|es| - 1]);
    }
  }

  // Step by step, /lowcmd gets exactly the frame Threads says it gets.
  lemma StepAdds(w: World, rs: seq<Robot>, es: seq<Event>, gs: seq<Given>, i: nat)
    requires RobotRun(w, rs, es, gs) && i < |es|
    ensures MP.Shaped(w.body, rs[i].pipe) && PL.AllPossible(w.body, Work(w, rs[i].sys, es[i], gs[i]))
    ensures rs[i + 1].pipe.sent == rs[i].pipe.sent + Added(w, rs[i], es[i], gs[i])
    ensures |Added(w, rs[i], es[i], gs[i])| == if FrameOf(rs[i].sys, es[i]) == Bridge.NoFrame then 0 else 1
  {
    assert StepAt(w, rs, es, gs, i);
    var r, e, g := rs[i], es[i], gs[i];
    if e.Published? && Work(w, r.sys, e, g) != [] {
      OneEvent(w.body, r.pipe, Work(w, r.sys, e, g)[0]);
      assert Work(w, r.sys, e, g) == [Work(w, r.sys, e, g)[0]];
    } else {
      QuietWork(w.body, r.pipe, Work(w, r.sys, e, g));
    }
  }

  // On every interleaving, whatever the robot's state holds, whatever commands and plugins do: every frame that ever
  // goes out on /lowcmd is finite.
  lemma {:induction false} OnlyFiniteFrames(w: World, rs: seq<Robot>, es: seq<Event>, gs: seq<Given>, i: nat)
    requires RobotRun(w, rs, es, gs) && i < |rs|
    ensures PL.AllSentFinite(rs[i].pipe)
  {
    if i > 0 {
      OnlyFiniteFrames(w, rs, es, gs, i - 1);
      assert StepAt(w, rs, es, gs, i - 1);
      PL.SentAlwaysFinite(w.body, rs[i - 1].pipe, Work(w, rs[i - 1].sys, es[i - 1], gs[i - 1]));
    }
  }

  // Step k is the entry into a hold, and step j sends stop frames joint by joint toward the pose measured there.
  ghost predicate HoldsEntryPose(w: World, rs: seq<Robot>, es: seq<Event>, gs: seq<Given>, k: nat, j: nat)
    requires k < j < |es| == |gs| && |es| < |rs| && MP.Shaped(w.body, rs[j].pipe)
    requires PL.AllPossible(w.body, Work(w, rs[j].sys, es[j], gs[j]))
  {
    && IsStop(es[k]) && !HoldLaws.Holding(rs[k].sys)
    && |gs[j].motors| == |rs[k].sys.core.measured| == |w.body.joints|
    && Added(w, rs[j], es[j], gs[j]) == [MP.StopFrames(w.body, Estop.Hold, gs[j].motors, rs[k].sys.core.measured)]
  }

  // Every stop frame sent during a hold pulls toward the pose that was measured at the entry into the hold.
  lemma HoldFramesHoldTheEntryPose(w: World, rs: seq<Robot>, es: seq<Event>, gs: seq<Given>, j: nat)
    requires RobotRun(w, rs, es, gs) && j < |es| && HoldLaws.Holding(rs[j].sys)
    requires FrameOf(rs[j].sys, es[j]) == Bridge.StopFrame
    ensures MP.Shaped(w.body, rs[j].pipe) && PL.AllPossible(w.body, Work(w, rs[j].sys, es[j], gs[j]))
    ensures exists k: nat :: k < j && HoldsEntryPose(w, rs, es, gs, k, j)
  {
    ThreadsRun(w, rs, es, gs);
    StepAdds(w, rs, es, gs, j);
    HoldLaws.HoldPose(w.threads, Sys(rs), es, j);
    var k: nat :| k < j && HoldLaws.HeldSince(Sys(rs), es, k, j);
    assert Sys(rs)[j].core.holdQ == Sys(rs)[k].core.measured;
    HoldWork(w, rs[j].sys, es[j], gs[j]);
    assert PL.Possible(w.body, Work(w, rs[j].sys, es[j], gs[j])[0]);
    assert HoldsEntryPose(w, rs, es, gs, k, j);
  }

  lemma HoldWork(w: World, s: System, e: Event, g: Given)
    requires HoldLaws.Holding(s) && FrameOf(s, e) == Bridge.StopFrame
    ensures Work(w, s, e, g) == [PL.Stop(Estop.Hold, g.motors, s.core.holdQ)]
    ensures Bridge.AfterPublish(s.core, e.stateAge).latch.mode == Estop.Hold
    ensures Bridge.AfterPublish(s.core, e.stateAge).holdQ == s.core.holdQ
  {}

  // A command that holds no position is overdue 0.2 s after its ramp: from then on the first check of a tracking robot
  // without a fault stops it.
  lemma OverdueStops(w: World, rs: seq<Robot>, es: seq<Event>, gs: seq<Given>, i: nat)
    requires RobotRun(w, rs, es, gs) && i < |es| && es[i].Checked? && rs[i].sys.core.tracking
    requires Estop.FaultOnset(es[i].fault, rs[i].sys.lastFault) == Estop.NoCause
    ensures rs[i + 1].sys.control == Stopping(Estop.CmdTimeout) <==> Overdue(rs[i].pipe.tValid, gs[i].now)
  {
    assert StepAt(w, rs, es, gs, i);
  }

  // --- A NaN in lastCommand_ ------------------------------------------------------------------------------------

  // Step i is a tracking tick, whether its frame goes out or not.
  predicate TicksTracking(rs: seq<Robot>, es: seq<Event>, i: nat)
    requires i < |es| && i < |rs|
  {
    es[i].Published? && rs[i].sys.core.tracking && !IsLatched(rs[i].sys)
  }

  predicate OwnController(name: string) {
    name == Bridge.MOTOR_PD || name == "bridge_pd"
  }

  lemma KeptNaNSpoilsFrame(b: MP.Body, s: MP.State, now: real, motors: seq<MP.MotorN>, c: MP.Controller, n: nat)
    requires MP.Shaped(b, s) && MP.Fits(b, c, motors) && n < |b.joints| && !c.Other? && MP.FiniteParams(s.params[n])
    ensures MP.AfterTick(b, s, now, motors, c).last[n].q.NaN? ==>
      !MP.FiniteFrame(MP.AfterTick(b, s, now, motors, c).frame)
  {
    var t := MP.Targets(b, s, now)[n];
    if MP.AfterTick(b, s, now, motors, c).last[n].q.NaN? {
      PL.KeptNaNIsLost(t, motors[n], b.joints[n], MP.Parallel(b, s.received, n));
      assert !MP.FiniteCommand(MP.AfterTick(b, s, now, motors, c).frame[n]);
    }
  }

  // A tick of the source's own controllers that leaves a NaN in lastCommand_ loses its frame.
  lemma KeptNaNIsLostAt(w: World, rs: seq<Robot>, es: seq<Event>, gs: seq<Given>, i: nat, n: nat)
    requires RobotRun(w, rs, es, gs) && i < |es| && TicksTracking(rs, es, i) && OwnController(rs[i].sys.core.controller)
    requires n < |w.body.joints| && |rs[i].pipe.params| == |rs[i + 1].pipe.last| == |w.body.joints|
    requires MP.FiniteParams(rs[i].pipe.params[n]) && rs[i + 1].pipe.last[n].q.NaN?
    ensures FrameOf(rs[i].sys, es[i]) == Bridge.NoFrame && rs[i + 1].sys.control == Invalid
  {
    assert StepAt(w, rs, es, gs, i);
    var r, g := rs[i], gs[i];
    var work := Work(w, r.sys, es[i], g);
    assert work == [PL.Tick(g.now, g.motors, g.controller)];
    assert PL.Possible(w.body, work[0]);
    OneEvent(w.body, r.pipe, work[0]);
    KeptNaNSpoilsFrame(w.body, r.pipe, g.now, g.motors, g.controller, n);
  }

  // Until the control loop stops the robot for it, there is no other tick.
  lemma {:induction false} FindInvalidStop(w: Setup, ss: seq<System>, es: seq<Event>, i: nat, j: nat) returns (k: nat)
    requires Run(w, ss, es) && i < j < |es| && ss[i].control == Invalid && es[j].Published?
    ensures i <= k < j && es[k].StopInvalid? && IsLatched(ss[k + 1])
    decreases j - i
  {
    if es[i].StopInvalid? {
      InvalidStops(w, ss, es, i);
      k := i;
    } else {
      InvalidWaits(w, ss, es, i);
      assert Threads.StepAt(w, ss, es, j);
      k := FindInvalidStop(w, ss, es, i + 1, j);
    }
  }

  lemma InvalidStops(w: Setup, ss: seq<System>, es: seq<Event>, i: nat)
    requires Run(w, ss, es) && i < |es| && es[i].StopInvalid?
    ensures IsLatched(ss[i + 1])
  {
    InvAlways(w, ss, es, i);
    assert Threads.StepAt(w, ss, es, i);
    StopClears(w.config, ss[i], Estop.StateInvalid);
  }

  lemma InvalidWaits(w: Setup, ss: seq<System>, es: seq<Event>, i: nat)
    requires Run(w, ss, es) && i < |es| && ss[i].control == Invalid && !es[i].StopInvalid?
    ensures ss[i + 1].control == Invalid && !es[i].Published?
  {
    assert Threads.StepAt(w, ss, es, i);
  }

  // So under motor_pd and bridge_pd no NaN reaches a second tracking tick: before it come a reset and an arming, whose
  // seed overwrites lastCommand_.
  lemma NoSecondNaN(w: World, rs: seq<Robot>, es: seq<Event>, gs: seq<Given>, i: nat, j: nat, n: nat)
    requires RobotRun(w, rs, es, gs) && i < j < |es| && TicksTracking(rs, es, i) && TicksTracking(rs, es, j)
    requires OwnController(rs[i].sys.core.controller)
    requires n < |w.body.joints| && |rs[i].pipe.params| == |rs[i + 1].pipe.last| == |w.body.joints|
    requires MP.FiniteParams(rs[i].pipe.params[n]) && rs[i + 1].pipe.last[n].q.NaN?
    ensures exists r: nat, a: nat, g: nat :: i < r < a < g < j && ResetSucceeds(Sys(rs)[r], es[r]) &&
              OneArming(Sys(rs), es, a, g)
  {
    ThreadsRun(w, rs, es, gs);
    KeptNaNIsLostAt(w, rs, es, gs, i, n);
    InvalidWaitsAt(w, rs, es, gs, i, j);
    var k := FindInvalidStop(w.threads, Sys(rs), es, i + 1, j);
    ArmedAfterLatch(w.threads, Sys(rs), es, k + 1, j);
  }

  // The tick right after is not the next step: the control loop stops the robot first.
  lemma InvalidWaitsAt(w: World, rs: seq<Robot>, es: seq<Event>, gs: seq<Given>, i: nat, j: nat)
    requires RobotRun(w, rs, es, gs) && i < j < |es| && rs[i + 1].sys.control == Invalid && es[j].Published?
    ensures i + 1 < j
  {
    assert StepAt(w, rs, es, gs, j);
  }
}
