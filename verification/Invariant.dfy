/** What every step of every thread keeps, and so holds at every point of every run.

The clauses that matter outside: the atomics mirror the latch, a latched bridge tracks nothing
unless an arming is in flight, an arming's generation is current exactly while no stop has
landed, and the published texts are the current ones.
*/
module Invariant {
  import opened Estop
  import opened Bridge
  import opened Threads
  import LinkWatching

  predicate InArm(pc: ExecPc) {
    pc.ArmLink? || pc.ArmLatch? || PastRead(pc) || pc.ArmEnd?
  }

  // armControl_ has read the generation and not yet committed.
  predicate PastRead(pc: ExecPc) {
    pc.ArmGates? || PastGates(pc)
  }

  predicate PastGates(pc: ExecPc) {
    pc.ArmSeed? || pc.ArmHold? || pc.ArmStore? || InFlight(pc)
  }

  // armControl_ has set controlStarted_ and not yet committed.
  predicate InFlight(pc: ExecPc) {
    pc.ArmRamp? || pc.ArmCommit?
  }

  ghost predicate FlagsMirror(c: Core) {
    c.latchedFlag == (c.latch.phase == Latched) && c.publishingFlag == c.latch.publishing
  }

  // Only an uncommitted arming can track beside a stop.
  ghost predicate TrackingIsIdle(s: System) {
    s.core.tracking && !InFlight(s.exec) ==> s.core.latch.phase == Idle
  }

  ghost predicate GenerationTells(s: System) {
    PastRead(s.exec) ==>
      var l, g := s.core.latch, s.exec.generation;
      && g <= l.generation
      && (g == l.generation <==> l.phase != Latched)
      && (g == l.generation && InFlight(s.exec) ==> s.core.tracking)
  }

  ghost predicate StreamIsTracking(c: Core) {
    && (c.stream != NO_STREAM ==> c.tracking && c.latch.phase == Idle)
    && (c.limp ==> c.tracking && c.latch.phase == Idle)
    && (c.controller == c.stream || c.controller == MOTOR_PD)
  }

  ghost predicate TextsCurrent(s: System) {
    && (!(InFlight(s.exec) && s.core.latch.phase == Idle) ==> s.core.text == StateText(s.core))
    && s.core.linkText == LinkWatching.Describe(s.core.link)
  }

  ghost predicate Inv(s: System) {
    && Coherent(s.core.latch)
    && FlagsMirror(s.core)
    && s.core.arming == InArm(s.exec)
    && TrackingIsIdle(s)
    && GenerationTells(s)
    && StreamIsTracking(s.core)
    && TextsCurrent(s)
    && |s.core.holdQ| == |s.core.measured|
    && (s.control.Stopping? ==> Latches(s.control.cause) && !IsOperator(s.control.cause))
    && (s.exec.CommandApply? ==> s.exec.controller != NO_STREAM)
  }

  // What a stop leaves behind, from any state: nothing tracks, no stream, motor_pd. Only a stop
  // that latches moves the phase of an untracked latch, and it bumps the generation.
  ghost predicate Cleared(c: Core, d: Core) {
    && !d.tracking && !d.limp && d.stream == NO_STREAM && d.controller == MOTOR_PD
    && Coherent(d.latch) && FlagsMirror(d)
    && d.arming == c.arming && d.measured == c.measured && d.link == c.link && d.linkText == c.linkText
    && |d.holdQ| == |c.holdQ|
    && d.latch.generation >= c.latch.generation
    && d.text == StateText(d)
  }

  lemma StopClears(cfg: Config, s: System, cause: Cause)
    requires Inv(s) && cause != NoCause && (InArm(s.exec) ==> Latches(cause))
    ensures var d := AfterStop(cfg, s.core, cause);
      && Cleared(s.core, d)
      && (Latches(cause) ==> d.latch.phase == Latched)
      && (Latches(cause) && s.core.latch.phase != Latched ==> d.latch.generation > s.core.latch.generation)
  {
    TriggerKeepsCoherent(cfg, s.core.latch, cause, s.core.tracking);
  }

  lemma StoppedKeepsInv(s: System, s': System, latching: bool)
    requires Inv(s) && Cleared(s.core, s'.core) && (InArm(s.exec) ==> latching)
    requires latching ==> s'.core.latch.phase == Latched
    requires latching && s.core.latch.phase != Latched ==> s'.core.latch.generation > s.core.latch.generation
    requires s'.exec == s.exec || (!InArm(s.exec) && s'.exec == Waiting)
    requires !s'.control.Stopping? || s'.control == s.control
    ensures Inv(s')
  {}

  lemma StopKeepsInv(w: Setup, s: System, e: Event)
    requires Inv(s) && Enabled(s, e) && IsStop(e)
    ensures Inv(After(w, s, e))
  {
    StopClears(w.config, s, StopCause(s, e));
    StoppedKeepsInv(s, After(w, s, e), Latches(StopCause(s, e)));
  }

  lemma CommitKeepsInv(w: Setup, s: System)
    requires Inv(s) && s.exec.ArmCommit?
    ensures Inv(After(w, s, ArmCommitted))
  {
    var c, g := s.core, s.exec.generation;
    if CommitAllowed(c.latch, g) {
      var d := Committed(c, s.exec.limp);
      assert d.tracking && d.latch.phase == Idle && Coherent(d.latch) && FlagsMirror(d) && StreamIsTracking(d);
      assert d.text == StateText(d);
      assert AfterCommit(c, g, s.exec.limp) == AfterClearLink(d);
    } else {
      assert c.latch.phase == Latched;
    }
  }

  lemma ArmReadsKeepInv(w: Setup, s: System, e: Event)
    requires Inv(s) && Enabled(s, e)
    requires e.ArmLinkChecked? || e.ArmLatchRead? || e.ArmGatesRead? || e.ArmSeeded? || e.ArmHeld? || e.ArmRamped?
    ensures Inv(After(w, s, e))
  {
    assert After(w, s, e).core == s.core && After(w, s, e).control == s.control;
  }

  lemma ArmStoresKeepInv(w: Setup, s: System, e: Event)
    requires Inv(s) && Enabled(s, e) && (e.ArmStored? || e.ArmEnded?)
    ensures Inv(After(w, s, e))
  {
    assert After(w, s, e).core.latch == s.core.latch && After(w, s, e).control == s.control;
  }

  lemma SilenceKeepsInv(w: Setup, s: System, age: real, finite: bool)
    requires Inv(s) && s.control == Publish
    ensures Inv(After(w, s, Published(age, finite)))
  {}

  lemma LookKeepsInv(w: Setup, s: System, e: Event)
    requires Inv(s) && Enabled(s, e)
    requires e.Looked? || e.LookedStop? || e.Checked?
    ensures Inv(After(w, s, e))
  {
    assert After(w, s, e).core == s.core && After(w, s, e).exec == s.exec;
  }

  lemma CallbackMovesKeepInv(w: Setup, s: System, e: Event)
    requires GoodSetup(w) && Inv(s) && Enabled(s, e)
    requires e.LinkSending? || e.PoseAllowed? || e.ResetBegin? || e.CommandBegin?
    ensures Inv(After(w, s, e))
  {
    assert After(w, s, e).core == s.core && After(w, s, e).control == s.control;
  }

  lemma CallbackStartsKeepInv(w: Setup, s: System, e: Event)
    requires Inv(s) && Enabled(s, e)
    requires e.Measured? || e.LinkState? || e.LinkPoll? || e.ArmBegin? || e.PoseBegin? || e.ResetCleared?
    ensures Inv(After(w, s, e))
  {
    assert After(w, s, e).core.latch == s.core.latch && After(w, s, e).control == s.control;
  }

  lemma CallbackStateKeepsInv(w: Setup, s: System, e: Event)
    requires Inv(s) && Enabled(s, e)
    requires e.PoseSet? || e.ResetApplied? || e.CommandApplied?
    ensures Inv(After(w, s, e))
  {
    assert After(w, s, e).core.link == s.core.link && After(w, s, e).control == s.control;
  }

  lemma StepKeepsInv(w: Setup, s: System, e: Event)
    requires GoodSetup(w) && Inv(s) && Enabled(s, e)
    ensures Inv(After(w, s, e))
  {
    if IsStop(e) {
      StopKeepsInv(w, s, e);
    } else if e.Looked? || e.LookedStop? || e.Checked? {
      LookKeepsInv(w, s, e);
    } else if e.Published? {
      SilenceKeepsInv(w, s, e.stateAge, e.finite);
    } else if e.ArmCommitted? {
      CommitKeepsInv(w, s);
    } else if e.ArmStored? || e.ArmEnded? {
      ArmStoresKeepInv(w, s, e);
    } else if InArm(s.exec) {
      ArmReadsKeepInv(w, s, e);
    } else if e.LinkSending? || e.PoseAllowed? || e.ResetBegin? || e.CommandBegin? {
      CallbackMovesKeepInv(w, s, e);
    } else if e.PoseSet? || e.ResetApplied? || e.CommandApplied? {
      CallbackStateKeepsInv(w, s, e);
    } else {
      CallbackStartsKeepInv(w, s, e);
    }
  }

  lemma BootInv(n: nat, ticks: bool)
    ensures Inv(Boot(n, ticks))
  {}

  lemma {:induction false} InvAlways(w: Setup, ss: seq<System>, es: seq<Event>, i: nat)
    requires Run(w, ss, es) && i < |ss|
    ensures Inv(ss[i])
  {
    if i == 0 {
      var n, ticks :| ss[0] == Boot(n, ticks);
      BootInv(n, ticks);
    } else {
      InvAlways(w, ss, es, i - 1);
      assert StepAt(w, ss, es, i - 1);
      StepKeepsInv(w, ss[i - 1], es[i - 1]);
    }
  }
}
