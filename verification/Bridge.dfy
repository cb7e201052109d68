/** The protected state of BridgeCore (bridge_core.cpp) and its critical sections.

`Core` is the value of everything the three threads share. Each function `After...` is one
`mutex_` section, one unlocked store, or one executor-only step of the source; the class
`BridgeCore` carries the sections out on fields, a SafetyLatch, a LinkWatch and the pose
arrays, and every method is tied to its function. How the threads interleave the sections is
module `Threads`.
*/
module Bridge {
  import opened Numbers
  import opened Estop
  import LinkWatching

  const MOTOR_PD := "motor_pd"
  const NO_STREAM := ""

  // /bridge_state.
  datatype Text =
    | LatchedText(mode: Mode, cause: Cause, silent: bool)
    | StoppedText(mode: Mode, cause: Cause)
    | Armed | ArmedLimp | Disarmed

  datatype Core = Core(
    latch: Latch,
    tracking: bool,        // controlStarted_
    latchedFlag: bool,     // latched_, mirrors latch.phase
    publishingFlag: bool,  // stopPublishing_, mirrors latch.publishing
    limp: bool,
    arming: bool,
    stream: string,        // NO_STREAM when no stream runs
    controller: string,    // the tick's
    measured: seq<Num>,
    holdQ: seq<Num>,
    text: Text,            // the last /bridge_state
    link: LinkWatching.Link,
    linkText: LinkWatching.LinkText)  // the last /robot_link

  function Describe(l: Latch, tracking: bool): Text {
    match l.phase
    case Latched => LatchedText(l.mode, l.cause, !l.publishing)
    case Stopped => StoppedText(l.mode, l.cause)
    case Idle => if tracking then Armed else Disarmed
  }

  function StateText(c: Core): Text {
    var t := Describe(c.latch, c.tracking);
    if c.limp && t == Armed then ArmedLimp else t
  }

  function Synced(c: Core): Core {
    c.(latchedFlag := c.latch.phase == Latched, publishingFlag := c.latch.publishing)
  }

  function Started(n: nat, ticks: bool): Core {
    Core(FRESH, false, false, false, false, false, NO_STREAM, MOTOR_PD,
         seq(n, _ => Fin(0.0)), seq(n, _ => Fin(0.0)), Disarmed,
         LinkWatching.Fresh(ticks), LinkWatching.Ok)
  }

  // --- Stops --------------------------------------------------------------------------------

  // A stop's end: the hold pose, the mirrors and /bridge_state after the trigger.
  function Settled(c: Core, changed: bool, snapshot: bool): Core {
    Synced(c.(holdQ := if snapshot then c.measured else c.holdQ,
              text := if changed then Describe(c.latch, c.tracking) else c.text))
  }

  // enterStop_, the only way any thread stops the robot.
  function AfterStop(cfg: Config, c: Core, cause: Cause): Core {
    var t := AfterTrigger(cfg, c.latch, cause, c.tracking);
    Settled(c.(tracking := false, limp := false, stream := NO_STREAM, controller := MOTOR_PD, latch := t.latch),
            t.changed, t.snapshot)
  }

  function AfterResetSection(c: Core, present: bool): Core {
    var l := AfterReset(c.latch, present);
    Synced(c.(latch := l, text := if ResetAllowed(c.latch, present) then Describe(l, c.tracking) else c.text))
  }

  // --- Arming ---------------------------------------------------------------------------------

  // A granted arming: ARMED or ARMED limp, whatever was stopped before.
  function Committed(c: Core, limp: bool): Core {
    var d := Synced(c.(latch := AfterCommitArm(c.latch, c.latch.generation), limp := limp,
                       stream := if limp then NO_STREAM else c.stream,
                       controller := if limp then MOTOR_PD else c.controller));
    d.(text := StateText(d))
  }

  // The last section of armControl_: a refused commit clears controlStarted_.
  function AfterCommit(c: Core, generation: nat, limp: bool): Core {
    if CommitAllowed(c.latch, generation) then AfterClearLink(Committed(c, limp)) else c.(tracking := false)
  }

  // Ready and Zero: the pose ramp runs motor_pd, and ends limp.
  function AfterPose(c: Core): Core {
    var d := c.(controller := MOTOR_PD, limp := false);
    if c.limp then d.(text := StateText(d)) else d
  }

  // --- The stream -----------------------------------------------------------------------------

  // The section of robotCmdCallBack_, for a checked command that names an allowed controller.
  predicate Accepts(c: Core, controller: string) {
    c.tracking && !c.arming && !c.limp && (c.stream == NO_STREAM || c.stream == controller)
  }

  function AfterCommand(c: Core, controller: string): Core {
    if Accepts(c, controller) then c.(stream := controller, controller := controller) else c
  }

  // --- The tick ---------------------------------------------------------------------------------

  const SILENT_AFTER_S := LinkWatching.STATE_LOSS_S + 1.0

  datatype Frame = NoFrame | TrackingFrame | StopFrame

  predicate Silences(c: Core, stateAge: real) {
    SilenceAllowed(c.latch) && stateAge > SILENT_AFTER_S
  }

  function AfterPublish(c: Core, stateAge: real): Core {
    if Silences(c, stateAge) then
      var d := Synced(c.(latch := AfterSilence(c.latch)));
      d.(text := Describe(d.latch, d.tracking))
    else c
  }

  // What update_ sends in the section, after any silence.
  function Sent(c: Core): Frame {
    if c.tracking && c.latch.phase != Latched then TrackingFrame
    else if c.latch.publishing then StopFrame
    else NoFrame
  }

  // --- The link -----------------------------------------------------------------------------------

  function Shown(c: Core, link: LinkWatching.Link, changed: bool): Core {
    c.(link := link, linkText := if changed then LinkWatching.Describe(link) else c.linkText)
  }

  function AfterLinkState(c: Core, now: real, tick: nat): Core {
    Shown(c, LinkWatching.AfterState(c.link, now, tick), LinkWatching.Returns(c.link, now))
  }

  function AfterPollLink(c: Core, now: real): Core {
    Shown(c, LinkWatching.AfterPoll(c.link, now), LinkWatching.PollReports(c.link, now))
  }

  function AfterClearLink(c: Core): Core {
    Shown(c, LinkWatching.AfterClear(c.link), LinkWatching.ClearReports(c.link))
  }

  // The state copy of lowStateHandler_: a short message leaves the tail as it was.
  function AfterMeasured(c: Core, q: seq<Num>): Core {
    c.(measured := if |q| <= |c.measured| then q + c.measured[|q|..] else q[..|c.measured|])
  }

  // --- The class ----------------------------------------------------------------------------------

  class BridgeCore {
    const config: Config
    const latch: SafetyLatch
    const link: LinkWatching.LinkWatch
    const measured: array<Num>
    const holdQ: array<Num>
    var controlStarted: bool
    var latchedFlag: bool
    var stopPublishing: bool
    var limp: bool
    var arming: bool
    var stream: string
    var controllerName: string
    var bridgeState: Text
    var robotLink: LinkWatching.LinkText

    ghost predicate Valid()
      reads this
    {
      latch.config == config && measured != holdQ && measured.Length == holdQ.Length
    }

    function View(): Core
      reads this, latch, link, measured, holdQ
    {
      Core(latch.View(), controlStarted, latchedFlag, stopPublishing, limp, arming, stream, controllerName,
           measured[..], holdQ[..], bridgeState, link.View(), robotLink)
    }

    constructor (config: Config, numJoint: nat, ticks: bool)
      ensures Valid() && this.config == config && View() == Started(numJoint, ticks)
      ensures fresh(latch) && fresh(link) && fresh(measured) && fresh(holdQ)
    {
      this.config := config;
      latch := new SafetyLatch(config);
      link := new LinkWatching.LinkWatch(ticks);
      measured := new Num[numJoint](_ => Fin(0.0));
      holdQ := new Num[numJoint](_ => Fin(0.0));
      controlStarted, latchedFlag, stopPublishing, limp, arming := false, false, false, false, false;
      stream, controllerName := NO_STREAM, MOTOR_PD;
      bridgeState, robotLink := Disarmed, LinkWatching.Ok;
      new;
      assert measured[..] == seq(numJoint, _ => Fin(0.0));
      assert holdQ[..] == seq(numJoint, _ => Fin(0.0));
    }

    method SyncLatchFlags()
      modifies this
      ensures View() == Synced(old(View()))
    {
      latchedFlag := latch.state == Latched;
      stopPublishing := latch.publishing;
    }

    method Settle(changed: bool, snapshot: bool)
      requires Valid()
      modifies this, holdQ
      ensures Valid() && View() == Settled(old(View()), changed, snapshot)
    {
      if snapshot {
        for i := 0 to holdQ.Length
          invariant forall k :: 0 <= k < i ==> holdQ[k] == measured[k]
          modifies holdQ
        {
          holdQ[i] := measured[i];
        }
        assert holdQ[..] == measured[..];
      }
      SyncLatchFlags();
      if changed {
        bridgeState := Describe(latch.View(), controlStarted);
      }
    }

    method EnterStop(cause: Cause)
      requires Valid()
      modifies this, latch, holdQ
      ensures Valid() && View() == AfterStop(config, old(View()), cause)
    {
      var wasTracking := controlStarted;
      controlStarted := false;
      limp := false;
      stream, controllerName := NO_STREAM, MOTOR_PD;
      var changed, snapshot := latch.Trigger(cause, wasTracking);
      Settle(changed, snapshot);
    }

    method ResetSection(present: bool) returns (ok: bool)
      requires Valid()
      modifies this, latch
      ensures Valid() && View() == AfterResetSection(old(View()), present)
      ensures ok <==> ResetAllowed(old(View()).latch, present)
    {
      var why;
      ok, why := latch.Reset(present);
      SyncLatchFlags();
      if ok {
        bridgeState := Describe(latch.View(), controlStarted);
      }
    }

    // The first section of armControl_.
    method ArmRead() returns (refused: bool, generation: nat)
      ensures refused <==> View().latch.phase == Latched
      ensures generation == View().latch.generation
    {
      return latch.state == Latched, latch.generation;
    }

    method CommitSection(generation: nat, asLimp: bool) returns (ok: bool)
      requires Valid()
      modifies this, latch, link
      ensures Valid() && View() == AfterCommit(old(View()), generation, asLimp)
      ensures ok <==> CommitAllowed(old(View()).latch, generation)
    {
      ok := latch.CommitArm(generation);
      if !ok {
        controlStarted := false;
        return;
      }
      SyncLatchFlags();
      limp := asLimp;
      if asLimp {
        stream, controllerName := NO_STREAM, MOTOR_PD;
      }
      bridgeState := StateText(View());
      assert View() == Committed(old(View()), asLimp);
      ClearLink();
    }

    method CommandSection(controller: string)
      requires Valid()
      modifies this
      ensures Valid() && View() == AfterCommand(old(View()), controller)
    {
      if !controlStarted || arming {
        return;
      }
      if limp {
        return;
      }
      if stream != NO_STREAM && controller != stream {
        return;
      }
      stream := controller;
      controllerName := controller;
    }

    method PoseSection()
      requires Valid()
      modifies this
      ensures Valid() && View() == AfterPose(old(View()))
    {
      controllerName := MOTOR_PD;
      if limp {
        limp := false;
        bridgeState := StateText(View());
      }
    }

    method PublishSection(stateAge: real) returns (frame: Frame)
      requires Valid()
      modifies this, latch
      ensures Valid() && View() == AfterPublish(old(View()), stateAge) && frame == Sent(View())
    {
      if latch.state == Latched && latch.publishing && stateAge > SILENT_AFTER_S {
        var ok := latch.Silence();
        SyncLatchFlags();
        bridgeState := Describe(latch.View(), controlStarted);
      }
      if controlStarted && latch.state != Latched {
        return TrackingFrame;
      } else if latch.publishing {
        return StopFrame;
      }
      return NoFrame;
    }

    method NoteLink(now: real, tick: nat) returns (restarted: bool)
      requires Valid()
      modifies this, link
      ensures Valid() && View() == AfterLinkState(old(View()), now, tick)
      ensures restarted <==> LinkWatching.Returns(old(View()).link, now) && View().link.restarted
    {
      var changed := link.OnState(now, tick);
      if !changed {
        return false;
      }
      robotLink := LinkWatching.Describe(link.View());
      return link.restarted;
    }

    method PollLink(now: real)
      requires Valid()
      modifies this, link
      ensures Valid() && View() == AfterPollLink(old(View()), now)
    {
      var changed := link.Poll(now);
      if changed {
        robotLink := LinkWatching.Describe(link.View());
      }
    }

    method ClearLink()
      requires Valid()
      modifies this, link
      ensures Valid() && View() == AfterClearLink(old(View()))
    {
      var changed := link.Clear();
      if changed {
        robotLink := LinkWatching.Describe(link.View());
      }
    }

    method LowState(q: seq<Num>)
      requires Valid()
      modifies measured
      ensures Valid() && View() == AfterMeasured(old(View()), q)
    {
      var count := if |q| < measured.Length then |q| else measured.Length;
      for i := 0 to count
        invariant forall k :: 0 <= k < i ==> measured[k] == q[k]
        invariant forall k :: i <= k < measured.Length ==> measured[k] == old(measured[k])
      {
        measured[i] := q[i];
      }
    }
  }
}
