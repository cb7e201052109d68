/** The control loop and the services over every interleaving, stated in what they see: which faults stop the robot and
how, which passes of the loop send a frame, what a reset, a command and a state message change.
*/
module FaultLaws {
  import opened Numbers
  import opened Estop
  import opened Bridge
  import opened Threads
  import opened Invariant
  import opened Safety

  // --- A new fault stops the robot --------------------------------------------------------------------------

  // The loop takes note of a fault, or of none: a check, a frame that was not finite, a pass with nothing to watch.
  predicate Notes(s: System, e: Event) {
    e.Checked? || e.StopInvalid? || (e.LookedStop? && !s.core.latch.publishing)
  }

  function Noted(s: System, e: Event): Cause
    requires Notes(s, e)
  {
    match e
    case Checked(fault, _) => fault
    case StopInvalid => StateInvalid
    case _ => NoCause
  }

  lemma NoteStep(w: Setup, ss: seq<System>, es: seq<Event>, i: nat)
    requires Run(w, ss, es) && i < |es|
    ensures ss[i + 1].lastFault == if Notes(ss[i], es[i]) then Noted(ss[i], es[i]) else ss[i].lastFault
  {
    InvAlways(w, ss, es, i);
    assert StepAt(w, ss, es, i);
  }

  // Step k is the last before j that took note of anything.
  ghost predicate LastNote(ss: seq<System>, es: seq<Event>, k: nat, j: nat)
    requires k < j < |es| < |ss|
  {
    Notes(ss[k], es[k]) && forall m :: k < m < j ==> !Notes(ss[m], es[m])
  }

  lemma {:induction false} NoteLasts(w: Setup, ss: seq<System>, es: seq<Event>, i: nat, j: nat)
    requires Run(w, ss, es) && i <= j < |ss|
    requires forall m :: i <= m < j ==> !Notes(ss[m], es[m])
    ensures ss[j].lastFault == ss[i].lastFault
    decreases j
  {
    if i < j {
      NoteLasts(w, ss, es, i, j - 1);
      NoteStep(w, ss, es, j - 1);
    }
  }

  // What a check leads to, for what was noted before it.
  ghost predicate StopsForNew(s: System, e: Event, s': System, noted: Cause)
    requires e.Checked?
  {
    if e.fault != NoCause && e.fault != noted then s'.control == Stopping(e.fault)
    else s'.control == (if s.core.tracking && e.timeout then Stopping(CmdTimeout) else Publish)
  }

  lemma CheckStep(w: Setup, ss: seq<System>, es: seq<Event>, i: nat)
    requires Run(w, ss, es) && i < |es| && es[i].Checked?
    ensures StopsForNew(ss[i], es[i], ss[i + 1], ss[i].lastFault)
  {
    assert StepAt(w, ss, es, i);
  }

  // A check stops the robot for a state fault if and only if the one noted last is another; a lasting one fires once,
  // and again after the loop had nothing to watch.
  lemma NewFaultStopsIff(w: Setup, ss: seq<System>, es: seq<Event>, k: nat, j: nat)
    requires Run(w, ss, es) && k < j < |es| && LastNote(ss, es, k, j) && es[j].Checked?
    ensures StopsForNew(ss[j], es[j], ss[j + 1], Noted(ss[k], es[k]))
    ensures ss[j + 1].control == Stopping(es[j].fault) <==>
            es[j].fault in {StateLoss, StateInvalid, Imu} && es[j].fault != Noted(ss[k], es[k])
  {
    NoteStep(w, ss, es, k);
    NoteLasts(w, ss, es, k + 1, j);
    CheckStep(w, ss, es, j);
    assert StepAt(w, ss, es, j);
  }

  // The first check of all stops the robot for any fault.
  lemma FirstFaultStopsIff(w: Setup, ss: seq<System>, es: seq<Event>, j: nat)
    requires Run(w, ss, es) && j < |es| && es[j].Checked? && forall m :: 0 <= m < j ==> !Notes(ss[m], es[m])
    ensures ss[j + 1].control == Stopping(es[j].fault) <==> es[j].fault in {StateLoss, StateInvalid, Imu}
  {
    NoteLasts(w, ss, es, 0, j);
    CheckStep(w, ss, es, j);
    assert StepAt(w, ss, es, j);
  }

  // No tick comes between a stop that is due and the stop: the robot is latched and tracks nothing before the next.
  lemma {:induction false} DueStopComesFirst(w: Setup, ss: seq<System>, es: seq<Event>, i: nat, j: nat, cause: Cause)
    returns (k: nat)
    requires Run(w, ss, es) && i <= j < |es| && ss[i].control == Stopping(cause) && es[j].Published?
    ensures i <= k < j && es[k] == Stop && StopCause(ss[k], es[k]) == cause
    ensures IsLatched(ss[k + 1]) && !ss[k + 1].core.tracking
    decreases j - i
  {
    if es[i].Stop? {
      DueStop(w, ss, es, i, cause);
      k := i;
    } else {
      DueStopWaits(w, ss, es, i, cause);
      k := DueStopComesFirst(w, ss, es, i + 1, j, cause);
    }
  }

  lemma DueStop(w: Setup, ss: seq<System>, es: seq<Event>, i: nat, cause: Cause)
    requires Run(w, ss, es) && i < |es| && ss[i].control == Stopping(cause) && es[i].Stop?
    ensures StopCause(ss[i], es[i]) == cause && IsLatched(ss[i + 1]) && !ss[i + 1].core.tracking
  {
    InvAlways(w, ss, es, i);
    assert StepAt(w, ss, es, i);
    StopClears(w.config, ss[i], cause);
  }

  lemma DueStopWaits(w: Setup, ss: seq<System>, es: seq<Event>, i: nat, cause: Cause)
    requires Run(w, ss, es) && i < |es| && ss[i].control == Stopping(cause) && !es[i].Stop?
    ensures ss[i + 1].control == Stopping(cause) && !es[i].Published?
  {
    assert StepAt(w, ss, es, i);
  }

  // A tracking frame that is not finite is not sent, and stops the robot the same way.
  lemma LostFrameIsInvalid(w: Setup, ss: seq<System>, es: seq<Event>, i: nat)
    requires Run(w, ss, es) && i < |es| && es[i].Published?
    ensures var tracks := ss[i].core.tracking && !IsLatched(ss[i]);
      && (FrameOf(ss[i], es[i]) == TrackingFrame <==> tracks && es[i].finite)
      && ss[i + 1].control == if tracks && !es[i].finite then Invalid else Look
  {
    assert StepAt(w, ss, es, i);
  }

  // --- What a stop makes of the robot -----------------------------------------------------------------------

  // A stop reaches the latch as it is, with what tracked before it.
  lemma StopTriggers(w: Setup, ss: seq<System>, es: seq<Event>, i: nat)
    requires Run(w, ss, es) && i < |es| && IsStop(es[i])
    ensures StopCause(ss[i], es[i]) != NoCause && Coherent(ss[i].core.latch)
    ensures ss[i + 1].core.latch
         == AfterTrigger(w.config, ss[i].core.latch, StopCause(ss[i], es[i]), ss[i].core.tracking).latch
  {
    InvAlways(w, ss, es, i);
    assert StepAt(w, ss, es, i);
  }

  // From idle: latched, or stopped by /stop_control, in the mode asked for; frames exactly if the robot was tracking.
  lemma StopFromIdle(w: Setup, ss: seq<System>, es: seq<Event>, i: nat)
    requires Run(w, ss, es) && i < |es| && IsStop(es[i]) && ss[i].core.latch.phase == Idle
    ensures FromIdle(w.config, ss[i].core.latch, StopCause(ss[i], es[i]), ss[i].core.tracking, ss[i + 1].core.latch)
  {
    StopTriggers(w, ss, es, i);
    TriggerFromIdle(w.config, ss[i].core.latch, StopCause(ss[i], es[i]), ss[i].core.tracking);
  }

  // From a stop: /stop_control changes nothing, anything else latches and keeps the frames as they are. An operator
  // sets the mode; a fault keeps hold only if it is to hold itself.
  lemma StopFromStop(w: Setup, ss: seq<System>, es: seq<Event>, i: nat)
    requires Run(w, ss, es) && i < |es| && IsStop(es[i]) && ss[i].core.latch.phase != Idle
    requires ss[i].core.latch.cause != Shutdown
    ensures FromStop(w.config, ss[i].core.latch, StopCause(ss[i], es[i]), ss[i + 1].core.latch)
  {
    StopTriggers(w, ss, es, i);
    TriggerFromStop(w.config, ss[i].core.latch, StopCause(ss[i], es[i]), ss[i].core.tracking);
  }

  // --- The loop skips no pass -------------------------------------------------------------------------------

  // The pass that begins at i still runs at j.
  ghost predicate InPass(es: seq<Event>, i: nat, j: nat)
    requires i < j <= |es|
  {
    es[i].Looked? && forall k :: i < k < j ==> !es[k].Looked? && !es[k].Published?
  }

  lemma {:induction false} PassGoesOn(w: Setup, ss: seq<System>, es: seq<Event>, i: nat, j: nat)
    requires Run(w, ss, es) && i < j < |ss| && InPass(es, i, j)
    requires ss[i].core.tracking || forall k :: i <= k < j ==> ss[k].core.latch.publishing
    ensures ss[j].control in {Check, Publish} || ss[j].control.Stopping? ||
            (ss[j].control == LookStop && !ss[i].core.tracking)
    decreases j
  {
    assert StepAt(w, ss, es, j - 1);
    InvAlways(w, ss, es, j - 1);
    if j > i + 1 {
      PassGoesOn(w, ss, es, i, j - 1);
    }
  }

  // While the robot tracks at the start of a pass, or stop frames are on through it, no pass ends without a tick.
  lemma EveryPassTicks(w: Setup, ss: seq<System>, es: seq<Event>, i: nat, j: nat)
    requires Run(w, ss, es) && i < j < |es| && es[i].Looked? && es[j].Looked?
    requires forall k :: i < k < j ==> !es[k].Looked?
    requires ss[i].core.tracking || forall k :: i <= k < j ==> ss[k].core.latch.publishing
    ensures exists k :: i < k < j && es[k].Published?
  {
    assert StepAt(w, ss, es, j);
    if InPass(es, i, j) {
      PassGoesOn(w, ss, es, i, j);
    }
  }

  // --- Services and messages ----------------------------------------------------------------------------------

  // A reset succeeds exactly on a latched robot that is not shutting down and whose cause is gone; frames that were on
  // stay on. Any other changes nothing.
  lemma ResetOutcome(w: Setup, ss: seq<System>, es: seq<Event>, i: nat)
    requires Run(w, ss, es) && i < |es| && es[i].ResetApplied?
    ensures var l, c, c' := ss[i].core.latch, ss[i].core, ss[i + 1].core;
      if l.phase == Latched && l.cause != Shutdown && !es[i].present then
        && c'.latch == l.(phase := if l.publishing then Stopped else Idle)
        && ss[i + 1].exec == ResetLink && c'.tracking == c.tracking
      else c' == c && ss[i + 1].exec == Waiting
  {
    InvAlways(w, ss, es, i);
    assert StepAt(w, ss, es, i);
  }

  // A checked command is taken exactly while the robot tracks, is not arming and not limp, and no stream of another
  // controller runs; an empty name is motor_pd.
  lemma CommandOutcome(w: Setup, ss: seq<System>, es: seq<Event>, i: nat)
    requires Run(w, ss, es) && i < |es|
    ensures es[i].CommandBegin? ==>
      && ss[i + 1].core == ss[i].core
      && (var name := if es[i].controller == "" then "motor_pd" else es[i].controller;
          ss[i + 1].exec == if ss[i].core.tracking && name in w.allowed && es[i].checked then CommandApply(name)
                            else Waiting)
    ensures es[i].CommandApplied? ==>
      && ss[i].exec.CommandApply? && ss[i + 1].exec == Waiting
      && var c, name := ss[i].core, ss[i].exec.controller;
         ss[i + 1].core ==
           if c.tracking && !c.arming && !c.limp && c.stream in {"", name} then c.(stream := name, controller := name)
           else c
  {
    assert StepAt(w, ss, es, i);
  }

  // A sample that ends a gap with a tick that did not grow, or any after a restart that ends one, takes the executor to
  // the restart; there the robot is stopped unless it is disarmed.
  lemma LinkOutcome(w: Setup, ss: seq<System>, es: seq<Event>, i: nat)
    requires Run(w, ss, es) && i < |es|
    ensures es[i].LinkState? ==>
      var l := ss[i].core.link;
      var gap := l.seen && (l.lost || es[i].now - l.lastState > 0.2);
      && (ss[i + 1].core.link.restarted <==> l.restarted || (gap && l.ticks && es[i].tick <= l.tick))
      && ss[i + 1].exec == if gap && ss[i + 1].core.link.restarted then NoteRestart else Waiting
    ensures es[i].LinkSending? ==>
      ss[i + 1].exec == if ss[i].core.tracking || ss[i].core.latch.phase != Idle then StopRestarted else Waiting
    ensures es[i].LinkStop? ==> ss[i].exec == StopRestarted && StopCause(ss[i], es[i]) == RobotRestart
  {
    assert StepAt(w, ss, es, i);
  }

  // A state message overwrites the joints it carries.
  lemma MeasuredOutcome(w: Setup, ss: seq<System>, es: seq<Event>, i: nat)
    requires Run(w, ss, es) && i < |es|
    ensures |ss[i + 1].core.measured| == |ss[i].core.measured|
    ensures forall k :: 0 <= k < |ss[i].core.measured| ==>
              ss[i + 1].core.measured[k] == if es[i].Measured? && k < |es[i].q| then es[i].q[k]
                                             else ss[i].core.measured[k]
  {
    assert StepAt(w, ss, es, i);
  }

  // A granted arming leaves the robot armed, or armed limp; a refused one clears what it had set and nothing else.
  lemma CommitOutcome(w: Setup, ss: seq<System>, es: seq<Event>, i: nat)
    requires Run(w, ss, es) && i < |es| && es[i].ArmCommitted?
    ensures ss[i].exec.ArmCommit?
    ensures var c, c', limp := ss[i].core, ss[i + 1].core, ss[i].exec.limp;
      if IsLatched(ss[i]) then c' == c.(tracking := false)
      else
        && c'.latch == c.latch.(phase := Idle, publishing := false, cause := NoCause)
        && c'.tracking == c.tracking && c'.limp == limp && c'.holdQ == c.holdQ && c'.measured == c.measured
        && (limp ==> c'.stream == "" && c'.controller == "motor_pd")
        && (!limp ==> c'.stream == c.stream && c'.controller == c.controller)
  {
    InvAlways(w, ss, es, i);
    assert StepAt(w, ss, es, i);
  }

  // Ready and Zero run motor_pd and end a limp arming; the stream goes on.
  lemma PoseOutcome(w: Setup, ss: seq<System>, es: seq<Event>, i: nat)
    requires Run(w, ss, es) && i < |es| && es[i].PoseSet?
    ensures var c, c' := ss[i].core, ss[i + 1].core;
      && c'.controller == "motor_pd" && !c'.limp && c'.stream == c.stream
      && c'.latch == c.latch && c'.tracking == c.tracking
  {
    assert StepAt(w, ss, es, i);
  }

  // --- No pose without gates ---------------------------------------------------------------------------------

  // A step that lets Ready or Zero go on: all gates of a tracking robot, or its own arming granted.
  predicate LetsPose(s: System, e: Event) {
    || (e.PoseAllowed? && e.gates && !s.core.link.restarted)
    || (e.ArmCommitted? && s.exec.ArmCommit? && s.exec.pose && s.core.latch.phase != Latched)
  }

  // The executor is past such a step.
  predicate PosePassed(pc: ExecPc) {
    pc == PoseApply || (pc.ArmEnd? && pc.ok && pc.pose)
  }

  lemma PoseStep(w: Setup, ss: seq<System>, es: seq<Event>, i: nat)
    requires Run(w, ss, es) && i < |es| && PosePassed(ss[i + 1].exec) && !PosePassed(ss[i].exec)
    ensures LetsPose(ss[i], es[i])
  {
    InvAlways(w, ss, es, i);
    assert StepAt(w, ss, es, i);
  }

  // A pose is applied only after such a step of its own callback.
  lemma {:induction false} PoseIsAllowed(w: Setup, ss: seq<System>, es: seq<Event>, j: nat) returns (i: nat)
    requires Run(w, ss, es) && j < |ss| && PosePassed(ss[j].exec)
    ensures i < j && LetsPose(ss[i], es[i]) && forall k :: i < k <= j ==> PosePassed(ss[k].exec)
  {
    if j > 0 && PosePassed(ss[j - 1].exec) {
      i := PoseIsAllowed(w, ss, es, j - 1);
    } else {
      PoseStart(w, ss, es, j);
      PoseStep(w, ss, es, j - 1);
      i := j - 1;
    }
  }

  lemma PoseStart(w: Setup, ss: seq<System>, es: seq<Event>, j: nat)
    requires Run(w, ss, es) && j < |ss| && PosePassed(ss[j].exec)
    ensures j > 0
  {}
}
