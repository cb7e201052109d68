/** Damp, hold and the hold pose over every interleaving. */
module HoldLaws {
  import opened Numbers
  import opened Estop
  import opened Bridge
  import opened Threads
  import opened Invariant
  import opened Safety

  // The stop frames hold a pose.
  predicate Holding(s: System) {
    s.core.latch.phase != Idle && s.core.latch.mode == Hold
  }

  lemma StopHolds(cfg: Config, c: Core, cause: Cause)
    ensures var d := AfterStop(cfg, c, cause);
      && (c.latch.phase != Idle && c.latch.mode == Damp && d.latch.mode == Hold ==> cause in {RemoteHold, ServiceHold})
      && (d.latch.phase != Idle && d.latch.mode == Hold ==>
            d.holdQ == if c.latch.phase != Idle && c.latch.mode == Hold then c.holdQ else c.measured)
  {}

  // Only a stop changes the mode or the hold pose, or leaves Idle.
  lemma HoldStep(w: Setup, ss: seq<System>, es: seq<Event>, i: nat)
    requires Run(w, ss, es) && i < |es|
    ensures !IsStop(es[i]) ==>
              && ss[i + 1].core.holdQ == ss[i].core.holdQ
              && ss[i + 1].core.latch.mode == ss[i].core.latch.mode
              && (ss[i + 1].core.latch.phase != Idle ==> ss[i].core.latch.phase != Idle)
    ensures IsStop(es[i]) ==> ss[i + 1].core == AfterStop(w.config, ss[i].core, StopCause(ss[i], es[i]))
  {
    assert StepAt(w, ss, es, i);
  }

  // While stopped, only an operator's hold turns damp into hold.
  lemma DampToHold(w: Setup, ss: seq<System>, es: seq<Event>, i: nat)
    requires Run(w, ss, es) && i < |es|
    requires ss[i].core.latch.phase != Idle && ss[i].core.latch.mode == Damp && Holding(ss[i + 1])
    ensures IsStop(es[i]) && StopCause(ss[i], es[i]) in {RemoteHold, ServiceHold}
  {
    HoldStep(w, ss, es, i);
    StopHolds(w.config, ss[i].core, StopCause(ss[i], es[i]));
  }

  lemma HoldPoseStep(w: Setup, ss: seq<System>, es: seq<Event>, i: nat)
    requires Run(w, ss, es) && i < |es| && Holding(ss[i + 1])
    ensures Holding(ss[i]) ==> ss[i + 1].core.holdQ == ss[i].core.holdQ
    ensures !Holding(ss[i]) ==> IsStop(es[i]) && ss[i + 1].core.holdQ == ss[i].core.measured
  {
    HoldStep(w, ss, es, i);
    StopHolds(w.config, ss[i].core, StopCause(ss[i], es[i]));
  }

  // At every moment of a hold there is one entry into it, a stop; the pose held is the one measured
  // there, and the hold lasted ever since.
  ghost predicate HeldSince(ss: seq<System>, es: seq<Event>, k: nat, j: nat)
    requires k < j < |ss| && j <= |es|
  {
    && IsStop(es[k]) && !Holding(ss[k])
    && (forall m :: k < m <= j ==> Holding(ss[m]))
    && ss[j].core.holdQ == ss[k].core.measured
  }

  lemma {:induction false} HoldPose(w: Setup, ss: seq<System>, es: seq<Event>, j: nat)
    requires Run(w, ss, es) && j < |ss| && Holding(ss[j])
    ensures exists k: nat :: k < j && HeldSince(ss, es, k, j)
    decreases j
  {
    if j > 0 {
      HoldPoseStep(w, ss, es, j - 1);
      if Holding(ss[j - 1]) {
        HoldPose(w, ss, es, j - 1);
        var k: nat :| k < j - 1 && HeldSince(ss, es, k, j - 1);
        assert HeldSince(ss, es, k, j);
      } else {
        assert HeldSince(ss, es, j - 1, j);
      }
    }
  }

  // --- An operator hold during a lasting fault --------------------------------------------------------

  // A latched hold, no arming under way, and a control loop that has already seen the fault (or
  // watches nothing, as a silent latch does).
  predicate Steady(s: System, fault: Cause) {
    && IsLatched(s) && Holding(s) && !PastRead(s.exec)
    && !s.control.Stopping? && s.control != Invalid
    && (s.lastFault == fault ||
        (!s.core.latch.publishing && (s.control == Look || s.control == LookStop)))
  }

  // Nothing but the control loop may stop the robot, and it keeps seeing the same fault.
  predicate Unchanged(s: System, e: Event, fault: Cause) {
    && !e.ServiceStop? && !e.LinkStop? && !e.ShutdownStop? && !ResetSucceeds(s, e)
    && (e.Checked? ==> e.fault == fault)
  }

  lemma SteadyControlStep(w: Setup, ss: seq<System>, es: seq<Event>, i: nat, fault: Cause)
    requires Run(w, ss, es) && i < |es| && Steady(ss[i], fault) && Unchanged(ss[i], es[i], fault)
    requires !ss[i].core.tracking && ss[i].core.publishingFlag == ss[i].core.latch.publishing
    ensures !IsStop(es[i])
    ensures var s' := ss[i + 1];
      && !s'.control.Stopping? && s'.control != Invalid
      && (s'.lastFault == fault || (!s'.core.latch.publishing && (s'.control == Look || s'.control == LookStop)))
  {
    assert StepAt(w, ss, es, i);
  }

  lemma SteadyStep(w: Setup, ss: seq<System>, es: seq<Event>, i: nat, fault: Cause)
    requires Run(w, ss, es) && i < |es| && Steady(ss[i], fault) && Unchanged(ss[i], es[i], fault)
    ensures Steady(ss[i + 1], fault) && ss[i + 1].core.holdQ == ss[i].core.holdQ
  {
    InvAlways(w, ss, es, i);
    UnlatchStep(w, ss, es, i);
    HoldStep(w, ss, es, i);
    SteadyControlStep(w, ss, es, i, fault);
    LatchedReadStep(w, ss, es, i);
  }

  // An operator hold outlives a fault that lasts unchanged, for any number of ticks.
  lemma {:induction false} HoldSurvivesFault(w: Setup, ss: seq<System>, es: seq<Event>, i: nat, j: nat, fault: Cause)
    requires Run(w, ss, es) && i <= j < |ss| && Steady(ss[i], fault)
    requires forall k :: i <= k < j ==> Unchanged(ss[k], es[k], fault)
    ensures Holding(ss[j]) && ss[j].core.holdQ == ss[i].core.holdQ && Steady(ss[j], fault)
    decreases j
  {
    if i < j {
      HoldSurvivesFault(w, ss, es, i, j - 1, fault);
      SteadyStep(w, ss, es, j - 1, fault);
    }
  }

  // The control loop has detected a fault and is about to stop the robot with it.
  predicate StopPending(s: System) {
    s.control.Stopping? || s.control == Invalid
  }

  function PendingCause(s: System): Cause
    requires StopPending(s)
  {
    if s.control.Stopping? then s.control.cause else StateInvalid
  }

  predicate IsOperatorHold(e: Event) {
    e.ServiceStop? && (e.cause == RemoteHold || e.cause == ServiceHold)
  }

  // An operator hold, on an armed, stopped or latched robot alike, reaches the state the lemma above starts from,
  // unless a fault is detected already.
  lemma OperatorHoldSettles(w: Setup, ss: seq<System>, es: seq<Event>, i: nat)
    requires Run(w, ss, es) && i < |es| && IsOperatorHold(es[i]) && ss[i].core.latch.cause != Shutdown
    ensures Holding(ss[i + 1]) && IsLatched(ss[i + 1])
    ensures Steady(ss[i + 1], ss[i].lastFault) <==> !StopPending(ss[i])
    ensures !Holding(ss[i]) ==> ss[i + 1].core.holdQ == ss[i].core.measured
  {
    assert StepAt(w, ss, es, i);
    InvAlways(w, ss, es, i);
  }

  // What the pending stop finds, however many other steps come before it.
  lemma {:induction false} PendingLasts(w: Setup, ss: seq<System>, es: seq<Event>, i: nat, j: nat)
    requires Run(w, ss, es) && i < j < |ss| && IsOperatorHold(es[i])
    requires StopPending(ss[i]) && ss[i].core.latch.cause != Shutdown
    requires forall k :: i < k < j ==> !IsStop(es[k])
    ensures ss[j].core.latch.mode == Hold && ss[j].core.latch.cause != Shutdown && ss[j].control == ss[i].control
    decreases j
  {
    if j == i + 1 {
      OperatorHoldSettles(w, ss, es, i);
      HoldCause(w, ss, es, i);
    } else {
      PendingLasts(w, ss, es, i, j - 1);
      assert StepAt(w, ss, es, j - 1);
    }
  }

  lemma HoldCause(w: Setup, ss: seq<System>, es: seq<Event>, i: nat)
    requires Run(w, ss, es) && i < |es| && IsOperatorHold(es[i]) && ss[i].core.latch.cause != Shutdown
    ensures ss[i + 1].core.latch.cause != Shutdown && ss[i + 1].control == ss[i].control
  {
    assert StepAt(w, ss, es, i);
  }

  // A fault detected before the hold stops the robot after it: the hold outlives that stop exactly when the fault's
  // configured mode is hold too.
  lemma PendingFaultKeepsHoldIff(w: Setup, ss: seq<System>, es: seq<Event>, i: nat, j: nat)
    requires Run(w, ss, es) && i < j < |es| && IsOperatorHold(es[i])
    requires StopPending(ss[i]) && ss[i].core.latch.cause != Shutdown
    requires forall k :: i < k < j ==> !IsStop(es[k])
    requires es[j].Stop? || es[j].StopInvalid?
    ensures Holding(ss[j + 1]) <==> ModeFor(w.config, PendingCause(ss[i])) == Hold
  {
    PendingLasts(w, ss, es, i, j);
    InvAlways(w, ss, es, j);
    assert StepAt(w, ss, es, j);
    FaultOverHold(w.config, ss[j].core.latch, StopCause(ss[j], es[j]), ss[j].core.tracking);
  }

  lemma FaultOverHold(cfg: Config, l: Latch, cause: Cause, tracking: bool)
    requires l.mode == Hold && l.cause != Shutdown && Latches(cause) && !IsOperator(cause)
    ensures var t := AfterTrigger(cfg, l, cause, tracking).latch;
      t.phase != Idle && t.mode == ModeFor(cfg, cause)
  {}
}
