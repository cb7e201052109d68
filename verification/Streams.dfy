/** What clients see over every interleaving: the /robot_cmd stream's controller and the published
texts.
*/
module Streams {
  import opened Estop
  import opened Bridge
  import opened Threads
  import opened Invariant
  import opened Safety
  import LinkWatching

  // --- Texts ------------------------------------------------------------------------------------

  // The atomics mirror the latch after every step; the last /robot_link is the current one, and so is
  // the last /bridge_state whenever no arming is under way.
  lemma PublishedIsCurrent(w: Setup, ss: seq<System>, es: seq<Event>, i: nat)
    requires Run(w, ss, es) && i < |ss|
    ensures ss[i].core.latchedFlag == IsLatched(ss[i]) && ss[i].core.publishingFlag == ss[i].core.latch.publishing
    ensures !ss[i].core.arming ==> Says(ss[i].core, ss[i].core.text)
    ensures LinkSays(ss[i].core.link, ss[i].core.linkText)
  {
    InvAlways(w, ss, es, i);
  }

  // What a client reads off /bridge_state, ...
  predicate Says(c: Core, text: Text) {
    match text
    case LatchedText(mode, cause, silent) =>
      c.latch.phase == Latched && mode == c.latch.mode && cause == c.latch.cause && (silent <==> !c.latch.publishing)
    case StoppedText(mode, cause) => c.latch.phase == Stopped && mode == c.latch.mode && cause == c.latch.cause
    case Armed => c.latch.phase == Idle && c.tracking && !c.limp
    case ArmedLimp => c.latch.phase == Idle && c.tracking && c.limp
    case Disarmed => c.latch.phase == Idle && !c.tracking
  }

  // ... and off /robot_link: a loss over everything else, a restart over a gap that was none.
  predicate LinkSays(l: LinkWatching.Link, text: LinkWatching.LinkText) {
    match text
    case Lost(age) => l.lost && age == l.lostShown
    case Restarted(gap) => !l.lost && l.restarted && gap == l.gap
    case BackNoRestart(gap) => !l.lost && !l.restarted && l.back && l.ticks && gap == l.gap
    case BackNoTick(gap) => !l.lost && !l.restarted && l.back && !l.ticks && gap == l.gap
    case Ok => !l.lost && !l.restarted && !l.back
  }

  // --- The stream ---------------------------------------------------------------------------------

  predicate Accepted(s: System, e: Event) {
    e.CommandApplied? && s.exec.CommandApply? && Accepts(s.core, s.exec.controller)
  }

  // A stop, or an arming granted as limp.
  predicate EndsStream(s: System, e: Event) {
    IsStop(e) || (e.ArmCommitted? && s.exec.ArmCommit? && s.exec.limp && CommitAllowed(s.core.latch, s.exec.generation))
  }

  // A stream runs only while the robot tracks, and the tick runs the stream's controller or motor_pd.
  lemma StreamTracks(w: Setup, ss: seq<System>, es: seq<Event>, i: nat)
    requires Run(w, ss, es) && i < |ss|
    ensures ss[i].core.stream != NO_STREAM ==> ss[i].core.tracking && ss[i].core.latch.phase == Idle
    ensures ss[i].core.controller in {MOTOR_PD, ss[i].core.stream}
  {
    InvAlways(w, ss, es, i);
  }

  lemma StreamStep(w: Setup, ss: seq<System>, es: seq<Event>, i: nat)
    requires Run(w, ss, es) && i < |es|
    ensures Accepted(ss[i], es[i]) ==>
              && ss[i].exec.controller != NO_STREAM
              && ss[i + 1].core.stream == ss[i].exec.controller
              && ss[i].core.stream in {NO_STREAM, ss[i].exec.controller}
    ensures !Accepted(ss[i], es[i]) && !EndsStream(ss[i], es[i]) ==> ss[i + 1].core.stream == ss[i].core.stream
  {
    InvAlways(w, ss, es, i);
    assert StepAt(w, ss, es, i);
  }

  lemma {:induction false} StreamLasts(w: Setup, ss: seq<System>, es: seq<Event>, i: nat, j: nat)
    requires Run(w, ss, es) && i < j < |ss| && Accepted(ss[i], es[i])
    requires forall k :: i < k < j ==> !EndsStream(ss[k], es[k])
    ensures ss[j].core.stream == ss[i].exec.controller
    decreases j
  {
    if j == i + 1 {
      StreamStep(w, ss, es, i);
    } else {
      StreamLasts(w, ss, es, i, j - 1);
      StreamStep(w, ss, es, i);
      StreamStep(w, ss, es, j - 1);
    }
  }

  // Every command accepted between two stream ends names the same controller.
  lemma OneController(w: Setup, ss: seq<System>, es: seq<Event>, i: nat, j: nat)
    requires Run(w, ss, es) && i < j < |es| && Accepted(ss[i], es[i]) && Accepted(ss[j], es[j])
    requires forall k :: i < k < j ==> !EndsStream(ss[k], es[k])
    ensures ss[i].exec.controller == ss[j].exec.controller
  {
    StreamLasts(w, ss, es, i, j);
    StreamStep(w, ss, es, i);
    StreamStep(w, ss, es, j);
  }

  lemma NoStreamStep(w: Setup, ss: seq<System>, es: seq<Event>, i: nat)
    requires Run(w, ss, es) && i < |es|
    requires IsStop(es[i]) || (ss[i].core.stream == NO_STREAM && ss[i].core.controller == MOTOR_PD)
    requires !Accepted(ss[i], es[i])
    ensures ss[i + 1].core.stream == NO_STREAM && ss[i + 1].core.controller == MOTOR_PD
  {
    assert StepAt(w, ss, es, i);
  }

  // From every stop until the next accepted command the tick's controller is motor_pd.
  lemma {:induction false} MotorPdSinceStop(w: Setup, ss: seq<System>, es: seq<Event>, i: nat, j: nat)
    requires Run(w, ss, es) && i < j < |ss| && IsStop(es[i])
    requires forall k :: i < k < j ==> !Accepted(ss[k], es[k])
    ensures ss[j].core.stream == NO_STREAM && ss[j].core.controller == MOTOR_PD
    decreases j
  {
    if j > i + 1 {
      MotorPdSinceStop(w, ss, es, i, j - 1);
    }
    NoStreamStep(w, ss, es, j - 1);
  }

  // --- Arming inside a stream ------------------------------------------------------------------------

  // A granted commit runs motor_pd exactly when it is limp or motor_pd ran before.
  lemma CommitRunsMotorPdIff(w: Setup, ss: seq<System>, es: seq<Event>, i: nat)
    requires Run(w, ss, es) && i < |es| && es[i].ArmCommitted? && !IsLatched(ss[i])
    ensures ss[i].exec.ArmCommit? && ss[i + 1].exec.ArmEnd? && ss[i + 1].exec.ok
    ensures ss[i + 1].core.controller == MOTOR_PD <==> ss[i].exec.limp || ss[i].core.controller == MOTOR_PD
  {
    InvAlways(w, ss, es, i);
    assert StepAt(w, ss, es, i);
  }

  // Whether the arming that begins at an event is limp.
  predicate BeginsLimp(e: Event) {
    e.ArmBegin? && e.limp
  }

  // Inside one arming, still unlatched: the controller is the one it began under, and so is its limp flag.
  ghost predicate ArmsUnder(s: System, controller: string, limp: bool) {
    (IsLatched(s) || s.core.controller == controller) &&
    (s.exec.ArmLink? || s.exec.ArmLatch? || PastRead(s.exec) ==> s.exec.limp == limp)
  }

  // A stop inside an arming latches.
  lemma ArmsUnderStop(w: Setup, ss: seq<System>, es: seq<Event>, i: nat, controller: string, limp: bool)
    requires Run(w, ss, es) && i < |es| && InArm(ss[i].exec) && IsStop(es[i]) && ArmsUnder(ss[i], controller, limp)
    ensures ArmsUnder(ss[i + 1], controller, limp)
  {
    InvAlways(w, ss, es, i);
    assert StepAt(w, ss, es, i);
    StopClears(w.config, ss[i], StopCause(ss[i], es[i]));
    assert ss[i + 1].exec == ss[i].exec && IsLatched(ss[i + 1]);
  }

  lemma ArmsUnderStep(w: Setup, ss: seq<System>, es: seq<Event>, i: nat, controller: string, limp: bool)
    requires Run(w, ss, es) && i < |es| && InArm(ss[i].exec) && !ss[i].exec.ArmEnd? && !es[i].ArmCommitted?
    requires !IsStop(es[i]) && ArmsUnder(ss[i], controller, limp)
    ensures ArmsUnder(ss[i + 1], controller, limp)
  {
    assert StepAt(w, ss, es, i);
  }

  lemma {:induction false} ArmKeepsController(w: Setup, ss: seq<System>, es: seq<Event>, a: nat, j: nat)
    requires Run(w, ss, es) && a < j < |ss| && BeginsArming(ss[a], es[a])
    requires forall k :: a < k < j ==> InArm(ss[k].exec) && !ss[k].exec.ArmEnd? && !es[k].ArmCommitted?
    ensures ArmsUnder(ss[j], ss[a].core.controller, BeginsLimp(es[a]))
    decreases j
  {
    if j == a + 1 {
      assert StepAt(w, ss, es, a);
    } else {
      ArmKeepsController(w, ss, es, a, j - 1);
      if IsStop(es[j - 1]) {
        ArmsUnderStop(w, ss, es, j - 1, ss[a].core.controller, BeginsLimp(es[a]));
      } else {
        ArmsUnderStep(w, ss, es, j - 1, ss[a].core.controller, BeginsLimp(es[a]));
      }
    }
  }

  // A granted arming ends under motor_pd exactly when it is limp or motor_pd ran when it was asked for: /start_control
  // inside a stream ramps to the start pose under the stream's controller.
  lemma ArmRunsMotorPdIff(w: Setup, ss: seq<System>, es: seq<Event>, a: nat, j: nat)
    requires Run(w, ss, es) && a < j < |es| && BeginsArming(ss[a], es[a]) && es[j].ArmCommitted?
    requires forall k :: a < k < j ==> InArm(ss[k].exec) && !ss[k].exec.ArmEnd? && !es[k].ArmCommitted?
    ensures ss[j + 1].exec.ArmEnd?
    ensures ss[j + 1].exec.ok ==>
      (ss[j + 1].core.controller == MOTOR_PD <==> BeginsLimp(es[a]) || ss[a].core.controller == MOTOR_PD)
  {
    ArmKeepsController(w, ss, es, a, j);
    ReadStep(w, ss, es, j);
    if ss[j + 1].exec.ok {
      CommitRunsMotorPdIff(w, ss, es, j);
    }
  }

  function Last(ss: seq<System>): System
    requires ss != []
  {
    ss[|ss| - 1]
  }

  lemma Extend(w: Setup, ss: seq<System>, es: seq<Event>, e: Event) returns (ss': seq<System>, es': seq<Event>)
    requires Run(w, ss, es) && Enabled(Last(ss), e)
    ensures Run(w, ss', es') && Last(ss') == After(w, Last(ss), e)
    ensures es' == es + [e] && |ss'| == |ss| + 1 && ss'[..|ss|] == ss
  {
    ss', es' := ss + [After(w, Last(ss), e)], es + [e];
    forall i | 0 <= i < |es'|
      ensures StepAt(w, ss', es', i)
    {
      if i < |es| {
        assert StepAt(w, ss, es, i);
      }
    }
    assert ss'[0] == ss[0];
  }

  // The control loop did not step.
  predicate SameControl(s: System, t: System) {
    t.control == s.control && t.lastFault == s.lastFault
  }

  predicate ReadyToArm(s: System) {
    s.exec == Waiting && s.core.latch.phase == Idle && !s.core.link.restarted
  }

  // An undisturbed /start_control whose gates pass, up to the gates ...
  lemma ArmToGates(w: Setup, ss: seq<System>, es: seq<Event>) returns (ss': seq<System>, es': seq<Event>)
    requires Run(w, ss, es) && ReadyToArm(Last(ss))
    ensures Run(w, ss', es')
    ensures Last(ss').exec == ArmGates(false, false, Last(ss).core.latch.generation)
    ensures Last(ss').core == Last(ss).core.(arming := true) && SameControl(Last(ss), Last(ss'))
  {
    ss', es' := Extend(w, ss, es, ArmBegin(false));
    ss', es' := Extend(w, ss', es', ArmLinkChecked);
    ss', es' := Extend(w, ss', es', ArmLatchRead);
  }

  // ... to the store of controlStarted_ ...
  lemma ArmToStore(w: Setup, ss: seq<System>, es: seq<Event>) returns (ss': seq<System>, es': seq<Event>)
    requires Run(w, ss, es) && ReadyToArm(Last(ss))
    ensures Run(w, ss', es')
    ensures Last(ss').exec == ArmStore(false, false, Last(ss).core.latch.generation)
    ensures Last(ss').core == Last(ss).core.(arming := true) && SameControl(Last(ss), Last(ss'))
  {
    ss', es' := ArmToGates(w, ss, es);
    ss', es' := Extend(w, ss', es', ArmGatesRead(true));
    ss', es' := Extend(w, ss', es', ArmSeeded);
    ss', es' := Extend(w, ss', es', ArmHeld);
  }

  // ... to the commit ...
  lemma ArmToCommit(w: Setup, ss: seq<System>, es: seq<Event>) returns (ss': seq<System>, es': seq<Event>)
    requires Run(w, ss, es) && ReadyToArm(Last(ss))
    ensures Run(w, ss', es')
    ensures Last(ss').exec == ArmCommit(false, false, Last(ss).core.latch.generation)
    ensures Last(ss').core == Last(ss).core.(arming := true, tracking := true) && SameControl(Last(ss), Last(ss'))
  {
    ss', es' := ArmToStore(w, ss, es);
    ss', es' := Extend(w, ss', es', ArmStored);
    ss', es' := Extend(w, ss', es', ArmRamped);
  }

  // ... and to its end.
  lemma ArmOnce(w: Setup, ss: seq<System>, es: seq<Event>) returns (ss': seq<System>, es': seq<Event>)
    requires Run(w, ss, es) && ReadyToArm(Last(ss))
    ensures Run(w, ss', es') && ReadyToArm(Last(ss')) && Last(ss').core.tracking && !Last(ss').core.limp
    ensures !Last(ss').core.arming
    ensures Last(ss').core.stream == Last(ss).core.stream && Last(ss').core.controller == Last(ss).core.controller
    ensures SameControl(Last(ss), Last(ss')) && Last(ss').core.latch.cause == NoCause
  {
    ss', es' := ArmToCommit(w, ss, es);
    ss', es' := Extend(w, ss', es', ArmCommitted);
    ss', es' := Extend(w, ss', es', ArmEnded);
  }

  // Such a run: arm, one bridge_pd command, arm again. The second arming ramps under bridge_pd.
  lemma ArmUnderBridgePd(w: Setup) returns (ss: seq<System>, es: seq<Event>)
    requires GoodSetup(w) && "bridge_pd" in w.allowed
    ensures Run(w, ss, es) && Last(ss).core.text == Armed && Last(ss).exec == Waiting
    ensures Last(ss).core.controller == "bridge_pd"
  {
    ss, es := [Boot(0, true)], [];
    assert Run(w, ss, es);
    ss, es := ArmOnce(w, ss, es);
    ss, es := Extend(w, ss, es, CommandBegin("bridge_pd", true));
    ss, es := Extend(w, ss, es, CommandApplied);
    ss, es := ArmOnce(w, ss, es);
    InvAlways(w, ss, es, |es|);
  }
}
