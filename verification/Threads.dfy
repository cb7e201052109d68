/** The three threads of a G1 or Go2 bridge, interleaved.

An `Event` is one atomic step of one thread: a `mutex_` section of BridgeCore, one unlocked
load or store of an atomic, or a step on data only the executor touches. `ExecPc` is where the
single-threaded executor stands inside a callback, so no second callback starts before the
first is over; `ControlPc` is where the 1 kHz loop stands; the shutdown callback is one step.
What the outside decides (faults seen, gates, ages, clocks) rides on the event.
*/
module Threads {
  import opened Numbers
  import opened Estop
  import opened Bridge
  import LinkWatching

  // After = the callback still has a pose to apply once armed (Ready, Zero).
  datatype ExecPc =
    | Waiting
    // armControl_
    | ArmLink(limp: bool, pose: bool)
    | ArmLatch(limp: bool, pose: bool)
    | ArmGates(limp: bool, pose: bool, generation: nat)
    | ArmSeed(limp: bool, pose: bool, generation: nat)
    | ArmHold(limp: bool, pose: bool, generation: nat)
    | ArmStore(limp: bool, pose: bool, generation: nat)
    | ArmRamp(limp: bool, pose: bool, generation: nat)
    | ArmCommit(limp: bool, pose: bool, generation: nat)
    | ArmEnd(ok: bool, pose: bool)
    // movePose_
    | PoseGates
    | PoseApply
    // estopResetServiceCB_
    | ResetLatch
    | ResetLink
    // robotCmdCallBack_
    | CommandApply(controller: string)
    // lowStateHandler_
    | NoteLink
    | NoteRestart
    | StopRestarted

  datatype ControlPc = Look | LookStop | Check | Stopping(cause: Cause) | Publish | Invalid

  datatype System = System(core: Core, exec: ExecPc, control: ControlPc, lastFault: Cause)

  datatype Event =
    // executor
    | Measured(q: seq<Num>)
    | LinkState(now: real, tick: nat)
    | LinkSending
    | LinkStop
    | LinkPoll(now: real)
    | ServiceStop(cause: Cause)
    | ArmBegin(limp: bool)
    | PoseBegin
    | PoseAllowed(gates: bool)
    | PoseSet
    | ArmLinkChecked
    | ArmLatchRead
    | ArmGatesRead(gates: bool)
    | ArmSeeded
    | ArmHeld
    | ArmStored
    | ArmRamped
    | ArmCommitted
    | ArmEnded
    | ResetBegin
    | ResetApplied(present: bool)
    | ResetCleared
    | CommandBegin(controller: string, checked: bool)
    | CommandApplied
    // control thread
    | Looked
    | LookedStop
    | Checked(fault: Cause, timeout: bool)
    | Stop
    | Published(stateAge: real, finite: bool)
    | StopInvalid
    // shutdown callback
    | ShutdownStop

  predicate IsStateFault(c: Cause) {
    c == NoCause || c == StateLoss || c == StateInvalid || c == Imu
  }

  // A cause some executor callback stops with: the remote, a service, another /lowcmd sender.
  predicate IsExecutorCause(c: Cause) {
    c == RemoteDamp || c == RemoteHold || c == ServiceDamp || c == ServiceHold || c == StopService || c == OtherLowcmd
  }

  predicate Enabled(s: System, e: Event) {
    match e
    case Measured(_) => s.exec == Waiting
    case LinkState(_, _) => s.exec == NoteLink
    case LinkSending => s.exec == NoteRestart
    case LinkStop => s.exec == StopRestarted
    case LinkPoll(_) => s.exec == Waiting
    case ServiceStop(c) => s.exec == Waiting && IsExecutorCause(c)
    case ArmBegin(_) => s.exec == Waiting
    case PoseBegin => s.exec == Waiting
    case PoseAllowed(_) => s.exec == PoseGates
    case PoseSet => s.exec == PoseApply
    case ArmLinkChecked => s.exec.ArmLink?
    case ArmLatchRead => s.exec.ArmLatch?
    case ArmGatesRead(_) => s.exec.ArmGates?
    case ArmSeeded => s.exec.ArmSeed?
    case ArmHeld => s.exec.ArmHold?
    case ArmStored => s.exec.ArmStore?
    case ArmRamped => s.exec.ArmRamp?
    case ArmCommitted => s.exec.ArmCommit?
    case ArmEnded => s.exec.ArmEnd?
    case ResetBegin => s.exec == Waiting
    case ResetApplied(_) => s.exec == ResetLatch
    case ResetCleared => s.exec == ResetLink
    case CommandBegin(_, _) => s.exec == Waiting
    case CommandApplied => s.exec.CommandApply?
    case Looked => s.control == Look
    case LookedStop => s.control == LookStop
    case Checked(fault, _) => s.control == Check && IsStateFault(fault)
    case Stop => s.control.Stopping?
    case Published(_, _) => s.control == Publish
    case StopInvalid => s.control == Invalid
    case ShutdownStop => true
  }

  // The cause an event stops with, if it is a call of enterStop_.
  function StopCause(s: System, e: Event): Cause {
    match e
    case LinkStop => RobotRestart
    case ServiceStop(c) => c
    case Stop => if s.control.Stopping? then s.control.cause else NoCause
    case StopInvalid => StateInvalid
    case ShutdownStop => Shutdown
    case _ => NoCause
  }

  predicate IsStop(e: Event) {
    e.LinkStop? || e.ServiceStop? || e.Stop? || e.StopInvalid? || e.ShutdownStop?
  }

  // What the event makes of the shared state.
  function CoreAfter(cfg: Config, s: System, e: Event): Core
    requires Enabled(s, e)
  {
    var c := s.core;
    if IsStop(e) then AfterStop(cfg, c, StopCause(s, e))
    else
      match e
      case Measured(q) => AfterMeasured(c, q)
      case LinkState(now, tick) => AfterLinkState(c, now, tick)
      case LinkPoll(now) => AfterPollLink(c, now)
      case ArmBegin(_) => c.(arming := true)
      case PoseBegin => if c.tracking then c else c.(arming := true)
      case PoseSet => AfterPose(c)
      case ArmStored => c.(tracking := true)
      case ArmCommitted => AfterCommit(c, s.exec.generation, s.exec.limp)
      case ArmEnded => c.(arming := false)
      case ResetApplied(present) => AfterResetSection(c, present)
      case ResetCleared => AfterClearLink(c)
      case CommandApplied => AfterCommand(c, s.exec.controller)
      case Published(age, _) => AfterPublish(c, age)
      case _ => c
  }

  function ExecAfter(allowed: set<string>, s: System, e: Event): ExecPc
    requires Enabled(s, e)
  {
    var c, pc := s.core, s.exec;
    match e
    case Measured(_) => NoteLink
    case LinkState(now, tick) =>
      if LinkWatching.Returns(c.link, now) && LinkWatching.AfterState(c.link, now, tick).restarted
      then NoteRestart else Waiting
    case LinkSending => if c.tracking || c.latch.phase != Idle then StopRestarted else Waiting
    case LinkStop => Waiting
    case ArmBegin(limp) => ArmLink(limp, false)
    case PoseBegin => if c.tracking then PoseGates else ArmLink(false, true)
    case PoseAllowed(gates) => if gates && !c.link.restarted then PoseApply else Waiting
    case PoseSet => Waiting
    case ArmLinkChecked => if c.link.restarted then ArmEnd(false, pc.pose) else ArmLatch(pc.limp, pc.pose)
    case ArmLatchRead =>
      if c.latch.phase == Latched then ArmEnd(false, pc.pose)
      else ArmGates(pc.limp, pc.pose, c.latch.generation)
    case ArmGatesRead(gates) =>
      if gates && !c.link.restarted then ArmSeed(pc.limp, pc.pose, pc.generation) else ArmEnd(false, pc.pose)
    case ArmSeeded => ArmHold(pc.limp, pc.pose, pc.generation)
    case ArmHeld => ArmStore(pc.limp, pc.pose, pc.generation)
    case ArmStored => ArmRamp(pc.limp, pc.pose, pc.generation)
    case ArmRamped => ArmCommit(pc.limp, pc.pose, pc.generation)
    case ArmCommitted => ArmEnd(CommitAllowed(c.latch, pc.generation), pc.pose)
    case ArmEnded => if pc.ok && pc.pose then PoseApply else Waiting
    case ResetBegin => if c.link.restarted then Waiting else ResetLatch
    case ResetApplied(present) => if ResetAllowed(c.latch, present) then ResetLink else Waiting
    case ResetCleared => Waiting
    case CommandBegin(name, checked) =>
      var controller := if name == "" then MOTOR_PD else name;
      if c.tracking && controller in allowed && checked then CommandApply(controller) else Waiting
    case CommandApplied => Waiting
    case _ => pc
  }

  function ControlAfter(s: System, e: Event): ControlPc
    requires Enabled(s, e)
  {
    var c := s.core;
    match e
    case Looked => if c.tracking then Check else LookStop
    case LookedStop => if c.publishingFlag then Check else Look
    case Checked(fault, timeout) =>
      var fired := FaultOnset(fault, s.lastFault);
      if fired != NoCause then Stopping(fired)
      else if c.tracking && timeout then Stopping(CmdTimeout)
      else Publish
    case Stop => Publish
    case Published(age, finite) =>
      if Sent(AfterPublish(c, age)) == TrackingFrame && !finite then Invalid else Look
    case StopInvalid => Look
    case _ => s.control
  }

  function FaultAfter(s: System, e: Event): Cause
    requires Enabled(s, e)
  {
    match e
    case LookedStop => if s.core.publishingFlag then s.lastFault else NoCause
    case Checked(fault, _) => fault
    case StopInvalid => StateInvalid
    case _ => s.lastFault
  }

  // Names in controllers_allowed, beside motor_pd, are not empty.
  datatype Setup = Setup(config: Config, allowed: set<string>)

  predicate GoodSetup(w: Setup) {
    MOTOR_PD in w.allowed && NO_STREAM !in w.allowed
  }

  function After(w: Setup, s: System, e: Event): System
    requires Enabled(s, e)
  {
    System(CoreAfter(w.config, s, e), ExecAfter(w.allowed, s, e), ControlAfter(s, e), FaultAfter(s, e))
  }

  // The frame an event puts on /lowcmd. A tracking frame that is not finite is not sent.
  function FrameOf(s: System, e: Event): Frame {
    match e
    case Published(age, finite) =>
      var f := Sent(AfterPublish(s.core, age));
      if f == TrackingFrame && !finite then NoFrame else f
    case _ => NoFrame
  }

  // --- Runs -----------------------------------------------------------------------------------

  function Boot(n: nat, ticks: bool): System {
    System(Started(n, ticks), Waiting, Look, NoCause)
  }

  ghost predicate StepAt(w: Setup, ss: seq<System>, es: seq<Event>, i: nat)
    requires i < |es| < |ss|
  {
    Enabled(ss[i], es[i]) && ss[i + 1] == After(w, ss[i], es[i])
  }

  // The states and events of one interleaving, from boot.
  ghost predicate Run(w: Setup, ss: seq<System>, es: seq<Event>) {
    && |ss| == |es| + 1
    && GoodSetup(w)
    && (exists n, ticks :: ss[0] == Boot(n, ticks))
    && forall i :: 0 <= i < |es| ==> StepAt(w, ss, es, i)
  }
}
