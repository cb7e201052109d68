/** Safety of the stop and arming protocol over every interleaving of the three threads.

A lemma named `...Step` is about one step of a run; the lemmas after it follow the whole run.
*/
module Safety {
  import opened Numbers
  import opened Estop
  import opened Bridge
  import opened Threads
  import opened Invariant

  predicate IsLatched(s: System) {
    s.core.latch.phase == Latched
  }

  // A reset of a latch whose cause is gone, and not of a shutdown.
  predicate ResetSucceeds(s: System, e: Event) {
    && e.ResetApplied? && s.exec == ResetLatch
    && s.core.latch.phase == Latched && s.core.latch.cause != Shutdown && !e.present
  }

  predicate BeginsArming(s: System, e: Event) {
    e.ArmBegin? || (e.PoseBegin? && !s.core.tracking)
  }

  predicate PassesGates(s: System, e: Event) {
    e.ArmGatesRead? && s.exec.ArmGates? && e.gates && !s.core.link.restarted
  }

  // --- Nothing tracks again before a reset and a fresh arming ---------------------------------------

  lemma Unlatches(w: Setup, s: System, e: Event)
    requires Inv(s) && Enabled(s, e) && IsLatched(s) && !ResetSucceeds(s, e)
    ensures IsLatched(After(w, s, e))
  {
    if IsStop(e) {
      assert AfterTrigger(w.config, s.core.latch, StopCause(s, e), s.core.tracking).latch.phase == Latched;
    }
  }

  lemma UnlatchStep(w: Setup, ss: seq<System>, es: seq<Event>, i: nat)
    requires Run(w, ss, es) && i < |es|
    requires IsLatched(ss[i]) && !ResetSucceeds(ss[i], es[i])
    ensures IsLatched(ss[i + 1])
  {
    InvAlways(w, ss, es, i);
    assert StepAt(w, ss, es, i);
    Unlatches(w, ss[i], es[i]);
  }

  lemma TrackStep(w: Setup, ss: seq<System>, es: seq<Event>, i: nat)
    requires Run(w, ss, es) && i < |es|
    ensures !ss[i].core.tracking && ss[i + 1].core.tracking ==> es[i].ArmStored? && ss[i].exec.ArmStore?
    ensures ResetSucceeds(ss[i], es[i]) ==> ss[i + 1].exec == ResetLink && !ss[i + 1].core.tracking
  {
    InvAlways(w, ss, es, i);
    assert StepAt(w, ss, es, i);
  }

  // The executor reaches each stage of armControl_ only through the one before it.
  lemma StageStep(w: Setup, ss: seq<System>, es: seq<Event>, i: nat)
    requires Run(w, ss, es) && i < |es|
    ensures PastGates(ss[i + 1].exec) && !PastGates(ss[i].exec) ==> PassesGates(ss[i], es[i])
    ensures InArm(ss[i + 1].exec) && !InArm(ss[i].exec) ==> BeginsArming(ss[i], es[i])
  {
    assert StepAt(w, ss, es, i);
  }

  lemma {:induction false} FindReset(w: Setup, ss: seq<System>, es: seq<Event>, i: nat, j: nat) returns (r: nat)
    requires Run(w, ss, es) && i <= j < |ss| && IsLatched(ss[i]) && !IsLatched(ss[j])
    ensures i <= r < j && ResetSucceeds(ss[r], es[r])
    decreases j - i
  {
    if ResetSucceeds(ss[i], es[i]) {
      r := i;
    } else {
      UnlatchStep(w, ss, es, i);
      r := FindReset(w, ss, es, i + 1, j);
    }
  }

  lemma {:induction false} FindStore(w: Setup, ss: seq<System>, es: seq<Event>, i: nat, j: nat) returns (t: nat)
    requires Run(w, ss, es) && i <= j < |ss| && !ss[i].core.tracking && ss[j].core.tracking
    ensures i <= t < j && ss[t].exec.ArmStore?
    decreases j - i
  {
    TrackStep(w, ss, es, i);
    if ss[i + 1].core.tracking {
      t := i;
    } else {
      t := FindStore(w, ss, es, i + 1, j);
    }
  }

  lemma {:induction false} FindGates(w: Setup, ss: seq<System>, es: seq<Event>, i: nat, j: nat) returns (g: nat)
    requires Run(w, ss, es) && i <= j < |ss| && !InArm(ss[i].exec) && PastGates(ss[j].exec)
    ensures i <= g < j && PassesGates(ss[g], es[g])
    decreases j - i
  {
    StageStep(w, ss, es, j - 1);
    if PastGates(ss[j - 1].exec) {
      g := FindGates(w, ss, es, i, j - 1);
    } else {
      g := j - 1;
    }
  }

  lemma {:induction false} FindBegin(w: Setup, ss: seq<System>, es: seq<Event>, i: nat, j: nat) returns (a: nat)
    requires Run(w, ss, es) && i <= j < |ss| && !InArm(ss[i].exec) && InArm(ss[j].exec)
    ensures i <= a < j && BeginsArming(ss[a], es[a])
    ensures forall k :: a < k <= j ==> InArm(ss[k].exec)
    decreases j - i
  {
    StageStep(w, ss, es, j - 1);
    if InArm(ss[j - 1].exec) {
      a := FindBegin(w, ss, es, i, j - 1);
    } else {
      a := j - 1;
    }
  }

  // While latched, nothing but an arming already past its store tracks.
  lemma LatchedTracksNothing(w: Setup, ss: seq<System>, es: seq<Event>, i: nat)
    requires Run(w, ss, es) && i < |ss| && IsLatched(ss[i]) && !InFlight(ss[i].exec)
    ensures !ss[i].core.tracking
  {
    InvAlways(w, ss, es, i);
  }

  // One armControl_ call: begun at a, its gates passed at g, the executor inside it all along.
  ghost predicate OneArming(ss: seq<System>, es: seq<Event>, a: nat, g: nat)
    requires a < g < |es| < |ss|
  {
    && BeginsArming(ss[a], es[a]) && PassesGates(ss[g], es[g])
    && forall k :: a < k <= g ==> InArm(ss[k].exec)
  }

  lemma ArmedAfterLatch(w: Setup, ss: seq<System>, es: seq<Event>, i: nat, j: nat)
    requires Run(w, ss, es) && i <= j < |es|
    requires IsLatched(ss[i]) && !IsLatched(ss[j]) && ss[j].core.tracking
    ensures exists r: nat, a: nat, g: nat ::
              i <= r < a < g < j && ResetSucceeds(ss[r], es[r]) && OneArming(ss, es, a, g)
  {
    var r := FindReset(w, ss, es, i, j);
    TrackStep(w, ss, es, r);
    var t := FindStore(w, ss, es, r + 1, j);
    var g := FindGates(w, ss, es, r + 1, t);
    var a := FindBegin(w, ss, es, r + 1, g);
    assert OneArming(ss, es, a, g);
  }

  // A tracking frame after a latched moment proves, in this order: a successful reset, an arming
  // begun after that reset, and that arming's gates all passed.
  lemma NoTrackingAfterLatch(w: Setup, ss: seq<System>, es: seq<Event>, i: nat, j: nat)
    requires Run(w, ss, es) && i <= j < |es|
    requires IsLatched(ss[i]) && FrameOf(ss[j], es[j]) == TrackingFrame
    ensures exists r: nat, a: nat, g: nat ::
              i <= r < a < g < j && ResetSucceeds(ss[r], es[r]) && OneArming(ss, es, a, g)
  {
    TickSends(ss[j], es[j]);
    ArmedAfterLatch(w, ss, es, i, j);
  }

  // --- A commit is granted exactly when no stop landed ------------------------------------------------

  lemma ArmingStop(w: Setup, s: System, e: Event)
    requires Inv(s) && Enabled(s, e) && PastRead(s.exec) && IsStop(e)
    ensures IsLatched(After(w, s, e))
  {
    StopClears(w.config, s, StopCause(s, e));
  }

  lemma ArmingOther(w: Setup, s: System, e: Event)
    requires Enabled(s, e) && PastRead(s.exec) && !IsStop(e)
    ensures IsLatched(After(w, s, e)) <==> IsLatched(s)
  {}

  // Inside an arming every stop latches, and nothing else does.
  lemma ArmingStep(w: Setup, ss: seq<System>, es: seq<Event>, i: nat)
    requires Run(w, ss, es) && i < |es| && PastRead(ss[i].exec)
    ensures IsLatched(ss[i + 1]) <==> IsLatched(ss[i]) || IsStop(es[i])
  {
    InvAlways(w, ss, es, i);
    assert StepAt(w, ss, es, i);
    if IsStop(es[i]) {
      ArmingStop(w, ss[i], es[i]);
    } else {
      ArmingOther(w, ss[i], es[i]);
    }
  }

  lemma {:induction false} LatchedSinceStop(w: Setup, ss: seq<System>, es: seq<Event>, i: nat, j: nat)
    requires Run(w, ss, es) && i < j < |ss| && !IsLatched(ss[i + 1])
    requires forall k :: i < k < j ==> PastRead(ss[k].exec)
    ensures !IsLatched(ss[j]) <==> forall k :: i < k < j ==> !IsStop(es[k])
    decreases j
  {
    if j > i + 1 {
      LatchedSinceStop(w, ss, es, i, j - 1);
      ArmingStep(w, ss, es, j - 1);
    }
  }

  lemma ReadStep(w: Setup, ss: seq<System>, es: seq<Event>, i: nat)
    requires Run(w, ss, es) && i < |es|
    ensures es[i].ArmLatchRead? && ss[i + 1].exec.ArmGates? ==> !IsLatched(ss[i + 1])
    ensures es[i].ArmCommitted? ==>
              && PastRead(ss[i].exec) && ss[i + 1].exec.ArmEnd?
              && (ss[i + 1].exec.ok <==> !IsLatched(ss[i]))
              && (ss[i + 1].exec.ok ==>
                    ss[i].core.tracking && ss[i + 1].core.tracking && ss[i + 1].core.latch.phase == Idle)
              && (!ss[i + 1].exec.ok ==> IsLatched(ss[i + 1]) && !ss[i + 1].core.tracking)
  {
    InvAlways(w, ss, es, i);
    assert StepAt(w, ss, es, i);
  }

  // A latched bridge starts no new arming.
  lemma LatchedReadStep(w: Setup, ss: seq<System>, es: seq<Event>, i: nat)
    requires Run(w, ss, es) && i < |es| && IsLatched(ss[i]) && !PastRead(ss[i].exec)
    ensures !PastRead(ss[i + 1].exec)
  {
    assert StepAt(w, ss, es, i);
  }

  // commitArm succeeds if and only if no thread called enterStop_ since this arming read the
  // generation. The robot is then still tracking and ends armed; otherwise it ends latched.
  lemma CommitIffNoStop(w: Setup, ss: seq<System>, es: seq<Event>, i: nat, j: nat)
    requires Run(w, ss, es) && i < j < |es|
    requires es[i].ArmLatchRead? && ss[i + 1].exec.ArmGates? && es[j].ArmCommitted?
    requires forall k :: i < k <= j ==> PastRead(ss[k].exec)
    ensures ss[j + 1].exec.ArmEnd?
    ensures ss[j + 1].exec.ok <==> forall k :: i < k < j ==> !IsStop(es[k])
    ensures ss[j + 1].exec.ok ==> ss[j].core.tracking && ss[j + 1].core.tracking && ss[j + 1].core.latch.phase == Idle
    ensures !ss[j + 1].exec.ok ==> IsLatched(ss[j + 1]) && !ss[j + 1].core.tracking
  {
    ReadStep(w, ss, es, i);
    ReadStep(w, ss, es, j);
    LatchedSinceStop(w, ss, es, i, j);
  }

  // --- No gap ---------------------------------------------------------------------------------------

  // One frame source is on.
  predicate Sending(c: Core) {
    (c.tracking && c.latch.phase != Latched) || c.latch.publishing
  }

  // Frames of a latched robot end 1.2 s after its last state.
  predicate SilencesNow(s: System, e: Event) {
    e.Published? && s.core.latch.phase == Latched && s.core.latch.publishing && e.stateAge > 1.2
  }

  // What a tick sends and what it leaves, in every case.
  lemma TickOutcome(w: Setup, ss: seq<System>, es: seq<Event>, i: nat)
    requires Run(w, ss, es) && i < |es| && es[i].Published?
    ensures var c, c' := ss[i].core, ss[i + 1].core;
      if c.tracking && c.latch.phase != Latched then
        FrameOf(ss[i], es[i]) == (if es[i].finite then TrackingFrame else NoFrame) && c' == c
      else if !c.latch.publishing then FrameOf(ss[i], es[i]) == NoFrame && c' == c
      else if c.latch.phase == Latched && es[i].stateAge > 1.2 then
        && FrameOf(ss[i], es[i]) == NoFrame && !c'.publishingFlag
        && c'.latch == c.latch.(publishing := false, generation := c.latch.generation + 1)
        && c'.text == LatchedText(c.latch.mode, c.latch.cause, true)
        && c'.tracking == c.tracking
      else FrameOf(ss[i], es[i]) == StopFrame && c' == c
  {
    InvAlways(w, ss, es, i);
    assert StepAt(w, ss, es, i);
  }

  // A robot that is latched and sends damp or hold frames goes on sending them, whatever it tracks or fails to: a tick
  // ends them if and only if the last state is more than 1.2 s old.
  lemma LatchedKeepsPublishingIff(w: Setup, ss: seq<System>, es: seq<Event>, i: nat)
    requires Run(w, ss, es) && i < |es| && es[i].Published? && IsLatched(ss[i]) && ss[i].core.latch.publishing
    ensures ss[i + 1].core.latch.publishing <==> es[i].stateAge <= 1.2
    ensures FrameOf(ss[i], es[i]) == StopFrame <==> es[i].stateAge <= 1.2
    ensures FrameOf(ss[i], es[i]) == NoFrame <==> es[i].stateAge > 1.2
  {
    TickOutcome(w, ss, es, i);
  }

  // The tick sends a frame exactly while a source is on.
  lemma TickSends(s: System, e: Event)
    ensures e.Published? && e.finite && Coherent(s.core.latch) ==>
              (FrameOf(s, e) != NoFrame <==> Sending(s.core) && !SilencesNow(s, e))
    ensures FrameOf(s, e) == TrackingFrame ==> !IsLatched(s) && s.core.tracking
  {}

  lemma StopKeepsSending(cfg: Config, s: System, cause: Cause)
    requires Inv(s) && cause != NoCause && Sending(s.core)
    ensures Sending(AfterStop(cfg, s.core, cause))
  {}

  lemma OthersKeepSending(w: Setup, s: System, e: Event)
    requires Inv(s) && Enabled(s, e) && Sending(s.core) && !SilencesNow(s, e) && !IsStop(e)
    ensures Sending(After(w, s, e).core)
  {}

  lemma SendingStep(w: Setup, ss: seq<System>, es: seq<Event>, i: nat)
    requires Run(w, ss, es) && i < |es| && Sending(ss[i].core) && !SilencesNow(ss[i], es[i])
    ensures Sending(ss[i + 1].core)
  {
    InvAlways(w, ss, es, i);
    assert StepAt(w, ss, es, i);
    if IsStop(es[i]) {
      StopKeepsSending(w.config, ss[i], StopCause(ss[i], es[i]));
    } else {
      OthersKeepSending(w, ss[i], es[i]);
    }
  }

  // Once a frame source is on, only the latch's own silence ends it: through any stop, fault, reset,
  // refused or granted arming.
  lemma {:induction false} NoGap(w: Setup, ss: seq<System>, es: seq<Event>, i: nat, j: nat)
    requires Run(w, ss, es) && i <= j < |ss| && Sending(ss[i].core)
    requires forall k :: i <= k < j ==> !SilencesNow(ss[k], es[k])
    ensures Sending(ss[j].core)
    decreases j
  {
    if i < j {
      NoGap(w, ss, es, i, j - 1);
      SendingStep(w, ss, es, j - 1);
    }
  }

  // While states arrive nothing ends them: every tick whose own frame is finite sends one.
  lemma NoGapOnFreshStates(w: Setup, ss: seq<System>, es: seq<Event>, i: nat, j: nat)
    requires Run(w, ss, es) && i <= j < |es| && Sending(ss[i].core)
    requires forall k :: i <= k <= j && es[k].Published? ==> es[k].stateAge <= 1.2
    ensures es[j].Published? && es[j].finite ==> FrameOf(ss[j], es[j]) != NoFrame
  {
    NoGap(w, ss, es, i, j);
    if es[j].Published? {
      TickOutcome(w, ss, es, j);
    }
  }

  // --- A silent latch ---------------------------------------------------------------------------------

  // No frame source is on, and none comes on before an arming passes its gates. Inside a latch an arming may
  // still be past its gates, or track already: it can no longer be granted.
  predicate Silent(s: System) {
    !s.core.latch.publishing && (IsLatched(s) || (!s.core.tracking && !PastGates(s.exec)))
  }

  // Wherever the executor stands, a silence leaves the bridge silent and latched.
  lemma SilenceBegins(w: Setup, ss: seq<System>, es: seq<Event>, i: nat)
    requires Run(w, ss, es) && i < |es| && SilencesNow(ss[i], es[i])
    ensures Silent(ss[i + 1]) && IsLatched(ss[i + 1]) && FrameOf(ss[i], es[i]) == NoFrame
  {
    assert StepAt(w, ss, es, i);
  }

  lemma SilentStep(w: Setup, ss: seq<System>, es: seq<Event>, i: nat)
    requires Run(w, ss, es) && i < |es| && Silent(ss[i]) && !PassesGates(ss[i], es[i])
    ensures Silent(ss[i + 1])
  {
    InvAlways(w, ss, es, i);
    StageStep(w, ss, es, i);
    assert StepAt(w, ss, es, i);
    if IsStop(es[i]) {
      TriggerStaysSilent(w.config, ss[i].core.latch, StopCause(ss[i], es[i]), ss[i].core.tracking);
    }
  }

  lemma TriggerStaysSilent(cfg: Config, l: Latch, cause: Cause, tracking: bool)
    requires !l.publishing && (l.phase == Latched || !tracking)
    ensures !AfterTrigger(cfg, l, cause, tracking).latch.publishing
    ensures l.phase == Latched ==> AfterTrigger(cfg, l, cause, tracking).latch.phase == Latched
  {}

  // A silent bridge sends no frame of either kind until the gates of an arming pass.
  lemma {:induction false} SilentUntilArmed(w: Setup, ss: seq<System>, es: seq<Event>, i: nat, j: nat)
    requires Run(w, ss, es) && i <= j < |es| && Silent(ss[i])
    requires forall k :: i <= k < j ==> !PassesGates(ss[k], es[k])
    ensures Silent(ss[j]) && FrameOf(ss[j], es[j]) == NoFrame
    decreases j
  {
    if i < j {
      SilentUntilArmed(w, ss, es, i, j - 1);
      SilentStep(w, ss, es, j - 1);
    }
  }

  // Latched and silent lasts, step by step, until a reset; the reset leaves no arming under way.
  lemma LatchedSilentStep(w: Setup, ss: seq<System>, es: seq<Event>, i: nat)
    requires Run(w, ss, es) && i < |es| && Silent(ss[i]) && IsLatched(ss[i])
    ensures FrameOf(ss[i], es[i]) == NoFrame
    ensures !ResetSucceeds(ss[i], es[i]) ==> Silent(ss[i + 1]) && IsLatched(ss[i + 1])
    ensures ResetSucceeds(ss[i], es[i]) ==> Silent(ss[i + 1]) && !InArm(ss[i + 1].exec)
  {
    InvAlways(w, ss, es, i);
    assert StepAt(w, ss, es, i);
    if IsStop(es[i]) {
      TriggerStaysSilent(w.config, ss[i].core.latch, StopCause(ss[i], es[i]), ss[i].core.tracking);
    }
  }

  lemma {:induction false} FindSilentReset(w: Setup, ss: seq<System>, es: seq<Event>, i: nat, j: nat) returns (r: nat)
    requires Run(w, ss, es) && i <= j < |es| && Silent(ss[i]) && IsLatched(ss[i]) && FrameOf(ss[j], es[j]) != NoFrame
    ensures i <= r < j && ResetSucceeds(ss[r], es[r]) && Silent(ss[r + 1]) && !InArm(ss[r + 1].exec)
    decreases j - i
  {
    LatchedSilentStep(w, ss, es, i);
    if ResetSucceeds(ss[i], es[i]) {
      r := i;
    } else {
      r := FindSilentReset(w, ss, es, i + 1, j);
    }
  }

  // A silent latch never publishes again before a new arming: a frame of either kind after a silence proves, in this
  // order, a successful reset, an arming begun after it, and that arming's gates all passed.
  lemma NothingAfterSilence(w: Setup, ss: seq<System>, es: seq<Event>, i: nat, j: nat)
    requires Run(w, ss, es) && i < j < |es| && SilencesNow(ss[i], es[i]) && FrameOf(ss[j], es[j]) != NoFrame
    ensures exists r: nat, a: nat, g: nat ::
              i < r < a < g < j && ResetSucceeds(ss[r], es[r]) && OneArming(ss, es, a, g)
  {
    SilenceBegins(w, ss, es, i);
    var r := FindSilentReset(w, ss, es, i + 1, j);
    if forall k :: r + 1 <= k < j ==> !PassesGates(ss[k], es[k]) {
      SilentUntilArmed(w, ss, es, r + 1, j);
      assert false;
    }
    var g: nat :| r + 1 <= g < j && PassesGates(ss[g], es[g]);
    var a := FindBegin(w, ss, es, r + 1, g);
    assert OneArming(ss, es, a, g);
  }

  // --- Absorbing runs ------------------------------------------------------------------------------------

  predicate ShutDown(s: System) {
    s.core.latch.cause == Shutdown && s.core.latch.phase == Latched && s.core.latch.mode == Damp
  }

  lemma ShutDownStep(w: Setup, ss: seq<System>, es: seq<Event>, i: nat)
    requires Run(w, ss, es) && i < |es|
    requires ShutDown(ss[i]) || es[i].ShutdownStop?
    ensures ShutDown(ss[i + 1])
  {
    InvAlways(w, ss, es, i);
    assert StepAt(w, ss, es, i);
    if ShutDown(ss[i]) && IsStop(es[i]) {
      ShutdownIsFinal(w.config, ss[i].core.latch, StopCause(ss[i], es[i]), ss[i].core.tracking, false, 0);
    } else if es[i].ShutdownStop? {
      ShutdownAlwaysLatches(w.config, ss[i].core.latch, ss[i].core.tracking);
    }
  }

  // After the shutdown callback: damp and latched for ever, no reset, no granted arming, no tracking frame.
  lemma {:induction false} ShutdownForEver(w: Setup, ss: seq<System>, es: seq<Event>, i: nat, j: nat)
    requires Run(w, ss, es) && i < j < |ss| && es[i].ShutdownStop?
    ensures ShutDown(ss[j])
    ensures j < |es| ==> FrameOf(ss[j], es[j]) != TrackingFrame && !ResetSucceeds(ss[j], es[j])
    ensures j < |es| && es[j].ArmCommitted? ==> ss[j + 1].exec.ArmEnd? && !ss[j + 1].exec.ok
    decreases j
  {
    if i + 1 < j {
      ShutdownForEver(w, ss, es, i, j - 1);
    }
    ShutDownStep(w, ss, es, j - 1);
    if j < |es| {
      TickSends(ss[j], es[j]);
      ReadStep(w, ss, es, j);
    }
  }

  // The robot restarted, and the executor is past the callback that saw it: nothing tracks, no
  // callback that already passed the link check is still under way.
  predicate Restarted(s: System) {
    && s.core.link.restarted
    && !s.core.tracking && s.core.latch.phase != Stopped
    && !s.exec.ArmLatch? && !PastRead(s.exec) && !s.exec.ResetLatch? && !s.exec.PoseApply?
    && !(s.exec.ArmEnd? && s.exec.ok)
  }

  lemma RestartedStop(w: Setup, ss: seq<System>, es: seq<Event>, i: nat)
    requires Run(w, ss, es) && i < |es| && Restarted(ss[i]) && IsStop(es[i])
    ensures Restarted(ss[i + 1])
  {
    assert StepAt(w, ss, es, i);
    var t := AfterTrigger(w.config, ss[i].core.latch, StopCause(ss[i], es[i]), false);
    assert t.latch.phase != Stopped;
    assert ss[i + 1].core.link == ss[i].core.link && (ss[i + 1].exec == ss[i].exec || ss[i + 1].exec == Waiting);
  }

  lemma RestartedStep(w: Setup, ss: seq<System>, es: seq<Event>, i: nat)
    requires Run(w, ss, es) && i < |es| && Restarted(ss[i])
    ensures Restarted(ss[i + 1])
  {
    if IsStop(es[i]) {
      RestartedStop(w, ss, es, i);
    } else {
      TrackStep(w, ss, es, i);
      assert StepAt(w, ss, es, i);
    }
  }

  // The callback that sees a restart, step by step: it ends with nothing tracking, latched by
  // enterStop_ or DISARMED already.
  lemma RestartCallbackStep(w: Setup, ss: seq<System>, es: seq<Event>, i: nat)
    requires Run(w, ss, es) && i < |es|
    ensures es[i].LinkState? && ss[i + 1].exec.NoteRestart? ==> ss[i + 1].core.link.restarted
    ensures ss[i].core.link.restarted && (ss[i].exec.NoteRestart? || ss[i].exec.StopRestarted?) ==>
              && ss[i + 1].core.link.restarted
              && (ss[i + 1].exec.NoteRestart? || ss[i + 1].exec.StopRestarted? || Restarted(ss[i + 1]))
  {
    InvAlways(w, ss, es, i);
    assert StepAt(w, ss, es, i);
    if ss[i].core.link.restarted && (ss[i].exec.NoteRestart? || ss[i].exec.StopRestarted?) {
      if es[i].LinkStop? {
        LinkStopRestarts(w, ss[i], es[i]);
      } else if es[i].LinkSending? {
        SendingGoesOn(w, ss[i], es[i]);
      } else {
        OthersLeaveCallback(w, ss[i], es[i]);
      }
    }
  }

  lemma LinkStopRestarts(w: Setup, s: System, e: Event)
    requires Inv(s) && Enabled(s, e) && e.LinkStop? && s.core.link.restarted
    ensures Restarted(After(w, s, e)) && After(w, s, e).core.link.restarted
  {
    StopClears(w.config, s, RobotRestart);
  }

  lemma SendingGoesOn(w: Setup, s: System, e: Event)
    requires Inv(s) && Enabled(s, e) && e.LinkSending? && s.core.link.restarted
    ensures After(w, s, e).core.link.restarted && (After(w, s, e).exec.StopRestarted? || Restarted(After(w, s, e)))
  {}

  lemma OthersLeaveCallback(w: Setup, s: System, e: Event)
    requires Enabled(s, e) && !e.LinkStop? && !e.LinkSending? && (s.exec.NoteRestart? || s.exec.StopRestarted?)
    ensures After(w, s, e).exec == s.exec && After(w, s, e).core.link == s.core.link
  {}

  lemma {:induction false} RestartCallbackEnds(w: Setup, ss: seq<System>, es: seq<Event>, i: nat, k: nat)
    requires Run(w, ss, es) && i < k < |ss| && es[i].LinkState? && ss[i + 1].exec.NoteRestart?
    ensures ss[k].core.link.restarted
    ensures ss[k].exec.NoteRestart? || ss[k].exec.StopRestarted? || Restarted(ss[k])
    decreases k
  {
    if k == i + 1 {
      RestartCallbackStep(w, ss, es, i);
    } else {
      RestartCallbackEnds(w, ss, es, i, k - 1);
      if Restarted(ss[k - 1]) {
        RestartedStep(w, ss, es, k - 1);
      } else {
        RestartCallbackStep(w, ss, es, k - 1);
      }
    }
  }

  // Once LinkWatch reported a restart and its callback is over, no reset or arming ever succeeds and
  // no tracking frame is sent again.
  lemma RestartForEver(w: Setup, ss: seq<System>, es: seq<Event>, i: nat, j: nat)
    requires Run(w, ss, es) && i < j < |es| && es[i].LinkState? && ss[i + 1].exec.NoteRestart?
    requires !ss[j].exec.NoteRestart? && !ss[j].exec.StopRestarted?
    ensures !ResetSucceeds(ss[j], es[j]) && !PassesGates(ss[j], es[j]) && FrameOf(ss[j], es[j]) != TrackingFrame
    ensures !PastRead(ss[j].exec)
  {
    RestartCallbackEnds(w, ss, es, i, j);
    TickSends(ss[j], es[j]);
  }
}
