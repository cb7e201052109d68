/** The e-stop latch (estop.cpp): causes, modes and the stop state beside `controlStarted_`.

`SafetyLatch` is the class, field by field and branch by branch; `Latch` is its value, and
`AfterTrigger`, `AfterReset`, `AfterCommitArm` and `AfterSilence` say what each method makes of that value. The
lemmas below them are about those four functions.
*/
module Estop {

  datatype Mode = Damp | Hold

  datatype Cause =
    | NoCause
    | RemoteDamp | RemoteHold
    | ServiceDamp | ServiceHold
    | Shutdown
    | StopService
    | Imu | StateLoss | StateInvalid | CmdTimeout
    | OtherLowcmd
    | RobotRestart

  // The configurable modes (estop.mode.*); every other cause has a fixed one.
  datatype Config = Config(stop: Mode, imu: Mode, stateLoss: Mode, stateInvalid: Mode, cmdTimeout: Mode)

  datatype Phase = Idle | Stopped | Latched

  // generation is a uint64_t that no run wraps.
  datatype Latch = Latch(phase: Phase, mode: Mode, cause: Cause, publishing: bool, generation: nat)

  datatype Triggered = Triggered(latch: Latch, changed: bool, snapshot: bool)

  predicate IsOperator(c: Cause) {
    c == RemoteDamp || c == RemoteHold || c == ServiceDamp || c == ServiceHold || c == Shutdown
  }

  predicate Latches(c: Cause) {
    c != NoCause && c != StopService
  }

  function ModeFor(cfg: Config, c: Cause): Mode {
    match c
    case RemoteHold => Hold
    case ServiceHold => Hold
    case StopService => cfg.stop
    case Imu => cfg.imu
    case StateLoss => cfg.stateLoss
    case StateInvalid => cfg.stateInvalid
    case CmdTimeout => cfg.cmdTimeout
    case _ => Damp
  }

  // Of the mode in force and the one a cause asks for, damping wins.
  function Escalate(current: Mode, wanted: Mode): Mode {
    if current == Damp || wanted == Damp then Damp else Hold
  }

  const FRESH := Latch(Idle, Damp, NoCause, false, 0)

  // --- What each method makes of the latch ------------------------------------------------

  // The phase, mode and publishing a cause leads to, or no change at all.
  function Wanted(cfg: Config, l: Latch, c: Cause, tracking: bool): Latch {
    if l.phase == Idle then
      if tracking || Latches(c) then
        l.(phase := if Latches(c) then Latched else Stopped, mode := ModeFor(cfg, c), publishing := tracking)
      else l
    else if Latches(c) then
      l.(phase := Latched, mode := if IsOperator(c) then ModeFor(cfg, c) else Escalate(l.mode, ModeFor(cfg, c)))
    else l
  }

  predicate Ignored(l: Latch, c: Cause) {
    c == NoCause || l.cause == Shutdown
  }

  // Whether a cause that changes nothing else still replaces the latch's cause.
  predicate TakesCause(l: Latch, c: Cause) {
    c == Shutdown || (c == RobotRestart && l.cause != c)
  }

  predicate Changes(cfg: Config, l: Latch, c: Cause, tracking: bool) {
    !Ignored(l, c) && (Latches(c) || (l.phase == Idle && tracking)) &&
    (TakesCause(l, c) || Wanted(cfg, l, c, tracking) != l)
  }

  function AfterTrigger(cfg: Config, l: Latch, c: Cause, tracking: bool): Triggered {
    var voided := if tracking && !Ignored(l, c) then 1 else 0;
    if Changes(cfg, l, c, tracking) then
      var w := Wanted(cfg, l, c, tracking);
      Triggered(w.(cause := c, generation := l.generation + voided + 1), true,
                w.mode == Hold && (l.phase == Idle || l.mode != Hold))
    else
      Triggered(l.(generation := l.generation + voided), false, false)
  }

  predicate ResetAllowed(l: Latch, present: bool) {
    l.phase == Latched && l.cause != Shutdown && !present
  }

  function AfterReset(l: Latch, present: bool): Latch {
    if ResetAllowed(l, present) then l.(phase := if l.publishing then Stopped else Idle) else l
  }

  predicate CommitAllowed(l: Latch, generation: nat) {
    l.phase != Latched && generation == l.generation
  }

  function AfterCommitArm(l: Latch, generation: nat): Latch {
    if CommitAllowed(l, generation) then l.(phase := Idle, publishing := false, cause := NoCause) else l
  }

  predicate SilenceAllowed(l: Latch) {
    l.phase == Latched && l.publishing
  }

  function AfterSilence(l: Latch): Latch {
    if SilenceAllowed(l) then l.(publishing := false, generation := l.generation + 1) else l
  }

  // --- The class ---------------------------------------------------------------------------

  // Why a reset was refused.
  datatype Refusal = NotLatched | ShuttingDown | CauseStillPresent | NotRefused

  class SafetyLatch {
    const config: Config
    var state: Phase
    var mode: Mode
    var cause: Cause
    var publishing: bool
    var generation: nat

    function View(): Latch
      reads this
    {
      Latch(state, mode, cause, publishing, generation)
    }

    constructor (config: Config)
      ensures this.config == config && View() == FRESH
    {
      this.config := config;
      state, mode, cause, publishing, generation := Idle, Damp, NoCause, false, 0;
    }

    method Trigger(c: Cause, wasTracking: bool) returns (changed: bool, snapshot: bool)
      modifies this
      ensures View() == AfterTrigger(config, old(View()), c, wasTracking).latch
      ensures changed == AfterTrigger(config, old(View()), c, wasTracking).changed
      ensures snapshot == AfterTrigger(config, old(View()), c, wasTracking).snapshot
    {
      ghost var l := View();
      ghost var t := AfterTrigger(config, l, c, wasTracking);
      changed, snapshot := false, false;
      if c == NoCause || cause == Shutdown {
        assert t == Triggered(l, false, false);
        return;
      }
      if wasTracking {
        generation := generation + 1;
      }
      var wanted := ModeFor(config, c);
      var latching := Latches(c);
      var nextState, nextMode, nextPublishing := state, mode, publishing;
      if state == Idle {
        if !wasTracking && !latching {
          assert t == Triggered(l, false, false);
          return;
        }
        nextState := if latching then Latched else Stopped;
        nextMode := wanted;
        nextPublishing := wasTracking;
      } else {
        if !latching {
          assert t == Triggered(l.(generation := generation), false, false);
          return;
        }
        nextState := Latched;
        nextMode := if IsOperator(c) then wanted else Escalate(mode, wanted);
      }
      var takesCause := c == Shutdown || (c == RobotRestart && cause != c);
      if !takesCause && nextState == state && nextMode == mode && nextPublishing == publishing {
        assert t == Triggered(l.(generation := generation), false, false);
        return;
      }
      changed := true;
      snapshot := nextMode == Hold && (state == Idle || mode != Hold);
      assert t == Triggered(Latch(nextState, nextMode, c, nextPublishing, generation + 1), true, snapshot);
      state, mode, publishing, cause := nextState, nextMode, nextPublishing, c;
      generation := generation + 1;
    }

    method Reset(present: bool) returns (ok: bool, why: Refusal)
      modifies this
      ensures View() == AfterReset(old(View()), present)
      ensures ok <==> ResetAllowed(old(View()), present)
      ensures why == NotRefused <==> ok
      ensures why == ShuttingDown ==> old(state) == Latched && old(cause) == Shutdown
      ensures why == CauseStillPresent ==> present && old(state) == Latched
    {
      if state != Latched {
        return false, NotLatched;
      }
      if cause == Shutdown {
        return false, ShuttingDown;
      }
      if present {
        return false, CauseStillPresent;
      }
      state := if publishing then Stopped else Idle;
      return true, NotRefused;
    }

    method CommitArm(g: nat) returns (ok: bool)
      modifies this
      ensures View() == AfterCommitArm(old(View()), g)
      ensures ok <==> CommitAllowed(old(View()), g)
    {
      if state == Latched || g != generation {
        return false;
      }
      state, publishing, cause := Idle, false, NoCause;
      return true;
    }

    method Silence() returns (ok: bool)
      modifies this
      ensures View() == AfterSilence(old(View()))
      ensures ok <==> SilenceAllowed(old(View()))
    {
      if state != Latched || !publishing {
        return false;
      }
      publishing := false;
      generation := generation + 1;
      return true;
    }
  }

  // --- Onsets -------------------------------------------------------------------------------

  // What fires at a sample, given the one before: a lasting fault fires once, ...
  function FaultOnset(current: Cause, last: Cause): Cause {
    if current != NoCause && current != last then current else NoCause
  }

  // ... a combo at its press, and damp over hold; damp -> hold does not fire.
  function RemoteOnset(current: Cause, last: Cause): Cause {
    if (current != NoCause && last == NoCause) || (current == RemoteDamp && last == RemoteHold)
    then current else NoCause
  }

  class Onset {
    var last: Cause

    constructor ()
      ensures last == NoCause
    {
      last := NoCause;
    }

    method Fault(current: Cause) returns (fired: Cause)
      modifies this
      ensures fired == FaultOnset(current, old(last)) && last == current
    {
      fired := if current != NoCause && current != last then current else NoCause;
      last := current;
    }

    method Remote(current: Cause) returns (fired: Cause)
      modifies this
      ensures fired == RemoteOnset(current, old(last)) && last == current
    {
      var press := current != NoCause && last == NoCause;
      var escalate := current == RemoteDamp && last == RemoteHold;
      last := current;
      fired := if press || escalate then current else NoCause;
    }
  }

  // What the remote's sample k fires in a run of samples.
  function RemoteFires(cs: seq<Cause>, k: nat): Cause
    requires k < |cs|
  {
    RemoteOnset(cs[k], if k == 0 then NoCause else cs[k - 1])
  }

  predicate IsRemote(c: Cause) {
    c == NoCause || c == RemoteDamp || c == RemoteHold
  }

  // A damp combo that is held has fired, and was held ever since; hold fires only as a fresh press.
  lemma {:induction false} HeldDampHasFired(cs: seq<Cause>, k: nat)
    requires k < |cs| && forall i :: 0 <= i < |cs| ==> IsRemote(cs[i])
    ensures cs[k] == RemoteDamp ==>
      exists i: nat :: i <= k && RemoteFires(cs, i) == RemoteDamp && forall m :: i <= m <= k ==> cs[m] == RemoteDamp
    ensures RemoteFires(cs, k) == RemoteHold <==> cs[k] == RemoteHold && (k == 0 || cs[k - 1] == NoCause)
    decreases k
  {
    if cs[k] == RemoteDamp {
      if k > 0 && cs[k - 1] == RemoteDamp {
        HeldDampHasFired(cs, k - 1);
      } else {
        assert RemoteFires(cs, k) == RemoteDamp;
      }
    }
  }

  // --- The stop rules --------------------------------------------------------------------------

  // The mode a cause asks for: fixed, or its key of the config.
  predicate AsksFor(cfg: Config, c: Cause, m: Mode) {
    && (c in {RemoteDamp, ServiceDamp, Shutdown, OtherLowcmd, RobotRestart} ==> m == Damp)
    && (c in {RemoteHold, ServiceHold} ==> m == Hold)
    && (c == StopService ==> m == cfg.stop) && (c == Imu ==> m == cfg.imu)
    && (c == StateLoss ==> m == cfg.stateLoss) && (c == StateInvalid ==> m == cfg.stateInvalid)
    && (c == CmdTimeout ==> m == cfg.cmdTimeout)
  }

  // The latch l' a cause leads to from an idle one, ...
  predicate FromIdle(cfg: Config, l: Latch, c: Cause, tracking: bool, l': Latch) {
    if !tracking && c == StopService then l' == l
    else
      && l'.phase == (if c == StopService then Stopped else Latched)
      && l'.cause == c && l'.publishing == tracking && AsksFor(cfg, c, l'.mode)
  }

  // ... and from a stopped or latched one that is not shut down.
  predicate FromStop(cfg: Config, l: Latch, c: Cause, l': Latch) {
    && l'.publishing == l.publishing
    && if c == StopService then l'.phase == l.phase && l'.mode == l.mode && l'.cause == l.cause
       else
         && l'.phase == Latched
         && (c in {RemoteDamp, ServiceDamp, Shutdown} ==> l'.mode == Damp)
         && (c in {RemoteHold, ServiceHold} ==> l'.mode == Hold)
         && (c in {OtherLowcmd, RobotRestart, Imu, StateLoss, StateInvalid, CmdTimeout} ==>
               (l'.mode == Hold <==> l.mode == Hold && AsksFor(cfg, c, Hold)))
         && l'.cause == (if l.phase == Stopped || l'.mode != l.mode || c in {Shutdown, RobotRestart} then c
                           else l.cause)
  }

  lemma TriggerFromIdle(cfg: Config, l: Latch, c: Cause, tracking: bool)
    requires Coherent(l) && l.phase == Idle && c != NoCause
    ensures FromIdle(cfg, l, c, tracking, AfterTrigger(cfg, l, c, tracking).latch)
  {}

  lemma TriggerFromStop(cfg: Config, l: Latch, c: Cause, tracking: bool)
    requires Coherent(l) && l.phase != Idle && c != NoCause && l.cause != Shutdown
    ensures FromStop(cfg, l, c, AfterTrigger(cfg, l, c, tracking).latch)
  {}

  // --- What the latch keeps ------------------------------------------------------------------

  // True of a fresh latch and kept by all four operations.
  predicate Coherent(l: Latch) {
    && (l.phase == Idle ==> !l.publishing)
    && (l.phase == Stopped ==> l.publishing && l.cause != NoCause)
    && (l.cause == Shutdown ==> l.phase == Latched && l.mode == Damp)
    && (l.phase == Latched ==> Latches(l.cause))
  }

  lemma TriggerKeepsCoherent(cfg: Config, l: Latch, c: Cause, tracking: bool)
    requires Coherent(l)
    ensures Coherent(AfterTrigger(cfg, l, c, tracking).latch)
  {}

  // Every trigger but /stop_control leaves the latch latched; an effective one bumps the
  // generation, so an arming that read it before is refused.
  lemma LatchingTriggerVoidsArming(cfg: Config, l: Latch, c: Cause, tracking: bool)
    requires Coherent(l) && Latches(c)
    ensures AfterTrigger(cfg, l, c, tracking).latch.phase == Latched
    ensures !CommitAllowed(AfterTrigger(cfg, l, c, tracking).latch, l.generation)
    ensures l.phase != Latched ==> AfterTrigger(cfg, l, c, tracking).latch.generation > l.generation
  {}

  // Shutdown is final: whatever is called next, the latch stays latched in damp.
  lemma ShutdownIsFinal(cfg: Config, l: Latch, c: Cause, tracking: bool, present: bool, g: nat)
    requires Coherent(l) && l.cause == Shutdown
    ensures AfterTrigger(cfg, l, c, tracking).latch == l
    ensures AfterReset(l, present) == l && AfterCommitArm(l, g) == l
    ensures AfterSilence(l).phase == Latched && AfterSilence(l).cause == Shutdown && AfterSilence(l).mode == Damp
  {}

  // Shutdown takes the latch over from any state.
  lemma ShutdownAlwaysLatches(cfg: Config, l: Latch, tracking: bool)
    requires Coherent(l)
    ensures var t := AfterTrigger(cfg, l, Shutdown, tracking).latch;
      t.phase == Latched && t.cause == Shutdown && t.mode == Damp
  {}

  // --- Generations -----------------------------------------------------------------------------

  datatype Call = DoTrigger(c: Cause, tracking: bool) | DoReset(present: bool) | DoCommit(g: nat) | DoSilence

  function AfterCall(cfg: Config, l: Latch, call: Call): Latch {
    match call
    case DoTrigger(c, tracking) => AfterTrigger(cfg, l, c, tracking).latch
    case DoReset(present) => AfterReset(l, present)
    case DoCommit(g) => AfterCommitArm(l, g)
    case DoSilence => AfterSilence(l)
  }

  function AfterCalls(cfg: Config, l: Latch, calls: seq<Call>): Latch {
    if calls == [] then l else AfterCall(cfg, AfterCalls(cfg, l, calls[..|calls| - 1]), calls[|calls| - 1])
  }

  lemma {:induction false} GenerationGrows(cfg: Config, l: Latch, calls: seq<Call>)
    ensures AfterCalls(cfg, l, calls).generation >= l.generation
  {
    if calls != [] {
      GenerationGrows(cfg, l, calls[..|calls| - 1]);
    }
  }

  // An arming that read the generation before a stop of the robot, or before its silence, is refused for ever: through
  // resets, other armings and any other calls.
  lemma StaleArmingIsRefused(cfg: Config, l: Latch, call: Call, calls: seq<Call>, g: nat)
    requires g <= l.generation && Coherent(l) && l.cause != Shutdown
    requires (call.DoTrigger? && call.c != NoCause && (call.tracking || (Latches(call.c) && l.phase != Latched))) ||
             (call.DoSilence? && l.phase == Latched && l.publishing)
    ensures var r := AfterCalls(cfg, AfterCall(cfg, l, call), calls); AfterCommitArm(r, g) == r
  {
    GenerationGrows(cfg, AfterCall(cfg, l, call), calls);
  }
}
