/** The hands beside the three threads: their callbacks share the single-threaded executor with arming, reset and the
link, while the control loop and the shutdown callback may latch between any two steps.
*/
module HandThreads {
  import opened Hands
  import opened Invariant
  import opened Safety
  import Estop
  import HandLaws
  import Threads

  // Where the executor stands in a hand start: asked for and allowed by the latch, or allowed by every gate.
  datatype StartPc = NoStart | Gating | Applying

  datatype Whole = Whole(sys: Threads.System, pair: Pair, start: StartPc)

  datatype Event =
    | Body(e: Threads.Event)
    | HandMsg(h: HandLaws.Event)
    | HandTick(at: real)
    | StartAsked
    | StartGated(gates: bool)
    | StartApplied(at: real)
    | StopAsked

  datatype Setup = Setup(body: Threads.Setup, hands: HandLaws.Setup)

  ghost predicate GoodSetup(w: Setup) {
    Threads.GoodSetup(w.body) && HandLaws.GoodSetup(w.hands)
  }

  // Steps of the control loop and of the shutdown callback, which no callback holds up.
  predicate OtherThread(e: Threads.Event) {
    e.Looked? || e.LookedStop? || e.Checked? || e.Stop? || e.Published? || e.StopInvalid? || e.ShutdownStop?
  }

  predicate IsMessage(h: HandLaws.Event) {
    h.StateMsg? || h.Command?
  }

  predicate Enabled(s: Whole, e: Event) {
    var idle := s.sys.exec == Threads.Waiting && s.start == NoStart;
    match e
    case Body(b) => Threads.Enabled(s.sys, b) && (s.start == NoStart || OtherThread(b))
    case HandMsg(h) => idle && IsMessage(h)
    case HandTick(_) => idle
    case StartAsked => idle
    case StartGated(_) => s.start == Gating
    case StartApplied(_) => s.start == Applying
    case StopAsked => idle
  }

  // handsAllowStart_ up to the latch: neither a restart nor the latch's mirror stands against it.
  predicate LetIn(s: Whole) {
    !s.sys.core.link.restarted && !s.sys.core.latchedFlag
  }

  function After(w: Setup, s: Whole, e: Event): (r: Whole)
    requires GoodSetup(w) && HandLaws.BothSized(w.hands, s.pair) && Enabled(s, e)
    ensures HandLaws.BothSized(w.hands, r.pair)
  {
    match e
    case Body(b) => s.(sys := Threads.After(w.body, s.sys, b))
    case HandMsg(h) => s.(pair := HandLaws.After(w.hands, s.pair, h))
    case HandTick(at) => s.(pair := HandLaws.After(w.hands, s.pair, HandLaws.Timer(s.sys.core.latchedFlag, at)))
    case StartAsked => s.(start := if LetIn(s) then Gating else NoStart)
    case StartGated(gates) => s.(start := if gates && !s.sys.core.link.restarted then Applying else NoStart)
    case StartApplied(at) => s.(pair := HandLaws.After(w.hands, s.pair, HandLaws.Start(at)), start := NoStart)
    case StopAsked => s.(pair := HandLaws.After(w.hands, s.pair, HandLaws.StopAll))
  }

  ghost predicate Boots(w: Setup, s: Whole) {
    && (exists n, ticks :: s.sys == Threads.Boot(n, ticks))
    && HandLaws.JustBuilt(w.hands.left, s.pair.left) && HandLaws.JustBuilt(w.hands.right, s.pair.right)
    && s.start == NoStart && !s.pair.started
  }

  ghost predicate StepAt(w: Setup, ss: seq<Whole>, es: seq<Event>, i: nat)
    requires i < |es| < |ss| && GoodSetup(w)
  {
    HandLaws.BothSized(w.hands, ss[i].pair) && Enabled(ss[i], es[i]) && ss[i + 1] == After(w, ss[i], es[i])
  }

  // One interleaving of everything, from boot.
  ghost predicate Run(w: Setup, ss: seq<Whole>, es: seq<Event>) {
    && |ss| == |es| + 1 && GoodSetup(w) && Boots(w, ss[0])
    && forall i :: 0 <= i < |es| ==> StepAt(w, ss, es, i)
  }

  lemma {:induction false} Always(w: Setup, ss: seq<Whole>, es: seq<Event>, i: nat)
    requires Run(w, ss, es) && i < |ss|
    ensures Inv(ss[i].sys) && HandLaws.Good(w.hands, ss[i].pair)
  {
    if i == 0 {
      var n, ticks :| ss[0].sys == Threads.Boot(n, ticks);
      BootInv(n, ticks);
      HandLaws.BuiltIsGood(w.hands, ss[0].pair);
    } else {
      Always(w, ss, es, i - 1);
      assert StepAt(w, ss, es, i - 1);
      var s, e := ss[i - 1], es[i - 1];
      match e
      case Body(b) => StepKeepsInv(w.body, s.sys, b);
      case HandMsg(h) => HandLaws.StepKeepsGood(w.hands, s.pair, h);
      case HandTick(at) => HandLaws.StepKeepsGood(w.hands, s.pair, HandLaws.Timer(s.sys.core.latchedFlag, at));
      case StartApplied(at) => HandLaws.StepKeepsGood(w.hands, s.pair, HandLaws.Start(at));
      case StopAsked => HandLaws.StepKeepsGood(w.hands, s.pair, HandLaws.StopAll);
      case _ =>
    }
  }

  predicate Live(s: Whole, side: HandLaws.Side) {
    HandLaws.HandOf(s.pair, side).live
  }

  predicate ResetAt(s: Whole, e: Event) {
    e.Body? && ResetSucceeds(s.sys, e.e)
  }

  // Step k is a tick that puts a live frame on a hand's topic.
  predicate SendsLive(ss: seq<Whole>, es: seq<Event>, k: nat, side: HandLaws.Side)
    requires k < |es| < |ss|
  {
    es[k].HandTick? && var h := HandLaws.HandOf(ss[k + 1].pair, side); h.sent != [] && h.sent[|h.sent| - 1].Live?
  }

  // --- Steps ------------------------------------------------------------------------------------------------

  lemma LatchLasts(w: Setup, ss: seq<Whole>, es: seq<Event>, i: nat)
    requires Run(w, ss, es) && i < |es| && IsLatched(ss[i].sys) && !ResetAt(ss[i], es[i])
    ensures IsLatched(ss[i + 1].sys)
  {
    Always(w, ss, es, i);
    assert StepAt(w, ss, es, i);
    if es[i].Body? {
      Unlatches(w.body, ss[i].sys, es[i].e);
    }
  }

  // Only an applied start makes a hand live.
  lemma LiveStep(w: Setup, ss: seq<Whole>, es: seq<Event>, i: nat, side: HandLaws.Side)
    requires Run(w, ss, es) && i < |es| && !Live(ss[i], side) && Live(ss[i + 1], side)
    ensures es[i].StartApplied? && ss[i].start == Applying
  {
    assert StepAt(w, ss, es, i);
  }

  // A hand is live only while hand control is on.
  lemma {:induction false} LiveIsStarted(w: Setup, ss: seq<Whole>, es: seq<Event>, i: nat, side: HandLaws.Side)
    requires Run(w, ss, es) && i < |ss|
    ensures Live(ss[i], side) ==> ss[i].pair.started
    decreases i
  {
    if i > 0 {
      LiveIsStarted(w, ss, es, i - 1, side);
      assert StepAt(w, ss, es, i - 1);
    }
  }

  // Only an unlatched bridge lets a start in.
  lemma StartStep(w: Setup, ss: seq<Whole>, es: seq<Event>, i: nat)
    requires Run(w, ss, es) && i < |es| && ss[i].start == NoStart && ss[i + 1].start != NoStart
    ensures es[i].StartAsked? && !IsLatched(ss[i].sys)
  {
    Always(w, ss, es, i);
    assert StepAt(w, ss, es, i);
  }

  // A hand start goes on only where neither a restart nor the latch stands against it, and then only past every gate.
  lemma StartGoesOn(w: Setup, ss: seq<Whole>, es: seq<Event>, i: nat)
    requires Run(w, ss, es) && i < |es| && ss[i + 1].start != ss[i].start
    ensures ss[i + 1].start == Gating ==>
      es[i].StartAsked? && !IsLatched(ss[i].sys) && !ss[i].sys.core.link.restarted
    ensures ss[i + 1].start == Applying ==>
      es[i] == StartGated(true) && ss[i].start == Gating && !ss[i].sys.core.link.restarted
  {
    Always(w, ss, es, i);
    assert StepAt(w, ss, es, i);
  }

  // A tick that sees the latch releases a hand, with no start under way; a live frame takes a live hand.
  lemma TickStep(w: Setup, ss: seq<Whole>, es: seq<Event>, i: nat, side: HandLaws.Side)
    requires Run(w, ss, es) && i < |es| && es[i].HandTick?
    ensures IsLatched(ss[i].sys) ==> !Live(ss[i + 1], side)
    ensures IsLatched(ss[i].sys) ==> !SendsLive(ss, es, i, side)
    ensures ss[i + 1].start == NoStart && ss[i + 1].sys == ss[i].sys
    ensures SendsLive(ss, es, i, side) ==> Live(ss[i], side)
  {
    Always(w, ss, es, i);
    LiveIsStarted(w, ss, es, i, side);
    assert StepAt(w, ss, es, i);
  }

  lemma {:induction false} FindReset(w: Setup, ss: seq<Whole>, es: seq<Event>, i: nat, j: nat) returns (r: nat)
    requires Run(w, ss, es) && i <= j < |ss| && IsLatched(ss[i].sys) && !IsLatched(ss[j].sys)
    ensures i <= r < j && ResetAt(ss[r], es[r])
    decreases j - i
  {
    if ResetAt(ss[i], es[i]) {
      r := i;
    } else {
      LatchLasts(w, ss, es, i);
      r := FindReset(w, ss, es, i + 1, j);
    }
  }

  lemma {:induction false} FindApplied(w: Setup, ss: seq<Whole>, es: seq<Event>, i: nat, j: nat, side: HandLaws.Side)
    returns (h: nat)
    requires Run(w, ss, es) && i <= j < |ss| && !Live(ss[i], side) && Live(ss[j], side)
    ensures i <= h < j && es[h].StartApplied? && ss[h].start == Applying
    decreases j - i
  {
    if Live(ss[i + 1], side) {
      LiveStep(w, ss, es, i, side);
      h := i;
    } else {
      h := FindApplied(w, ss, es, i + 1, j, side);
    }
  }

  lemma {:induction false} FindAsked(w: Setup, ss: seq<Whole>, es: seq<Event>, i: nat, j: nat) returns (u: nat)
    requires Run(w, ss, es) && i <= j < |ss| && ss[i].start == NoStart && ss[j].start != NoStart
    ensures i <= u < j && es[u].StartAsked? && !IsLatched(ss[u].sys)
    decreases j - i
  {
    if ss[j - 1].start == NoStart {
      StartStep(w, ss, es, j - 1);
      u := j - 1;
    } else {
      u := FindAsked(w, ss, es, i, j - 1);
    }
  }

  // After a hand tick has seen the latch, a live frame proves in this order a successful reset, a hand start asked for
  // after it, and that start applied.
  lemma NoLiveHandAfterLatch(w: Setup, ss: seq<Whole>, es: seq<Event>, i: nat, j: nat, side: HandLaws.Side)
    requires Run(w, ss, es) && i < j < |es| && es[i].HandTick? && IsLatched(ss[i].sys)
    requires es[j].HandTick?
    ensures SendsLive(ss, es, j, side) ==>
      exists r: nat, u: nat, h: nat :: i < r < u < h < j && ResetAt(ss[r], es[r])
          && es[u].StartAsked? && es[h].StartApplied?
  {
    TickStep(w, ss, es, i, side);
    TickStep(w, ss, es, j, side);
    if SendsLive(ss, es, j, side) {
      var h := FindApplied(w, ss, es, i + 1, j, side);
      var u := FindAsked(w, ss, es, i + 1, h);
      var r := FindReset(w, ss, es, i + 1, u);
    }
  }

  // From any latched moment on, whether a tick sees it or not, no live frame goes out before a successful reset.
  lemma NoLiveFrameBeforeReset(w: Setup, ss: seq<Whole>, es: seq<Event>, i: nat, j: nat, side: HandLaws.Side)
    requires Run(w, ss, es) && i <= j < |es| && IsLatched(ss[i].sys) && es[j].HandTick?
    ensures SendsLive(ss, es, j, side) ==> exists r: nat :: i <= r < j && ResetAt(ss[r], es[r])
  {
    TickStep(w, ss, es, j, side);
    if SendsLive(ss, es, j, side) {
      var r := FindReset(w, ss, es, i, j);
    }
  }

  // --- Exactly when a hand stays live ------------------------------------------------------------------------

  // The hand's own checks pass at a time: its state is good and its command not expired.
  ghost predicate Passes(w: Setup, s: Whole, side: HandLaws.Side, at: real) {
    StateOk(HandLaws.ConfigOf(w.hands, side), HandLaws.HandOf(s.pair, side), at) &&
    !Expired(HandLaws.HandOf(s.pair, side), at)
  }

  // Step k releases a live hand: hand control is stopped, or a tick sees the latch or a failed check.
  ghost predicate Releases(w: Setup, ss: seq<Whole>, es: seq<Event>, k: nat, side: HandLaws.Side)
    requires k < |es| < |ss|
  {
    es[k].StopAsked? || (es[k].HandTick? && (IsLatched(ss[k].sys) || !Passes(w, ss[k], side, es[k].at)))
  }

  lemma ReleaseStep(w: Setup, ss: seq<Whole>, es: seq<Event>, i: nat, side: HandLaws.Side)
    requires Run(w, ss, es) && i < |es| && !es[i].StartApplied?
    ensures Live(ss[i + 1], side) <==> Live(ss[i], side) && !Releases(w, ss, es, i, side)
  {
    Always(w, ss, es, i);
    LiveIsStarted(w, ss, es, i, side);
    assert StepAt(w, ss, es, i);
  }

  // A tick sends a live frame exactly when it leaves the hand live.
  lemma TickSends(w: Setup, ss: seq<Whole>, es: seq<Event>, i: nat, side: HandLaws.Side)
    requires Run(w, ss, es) && i < |es| && es[i].HandTick?
    ensures SendsLive(ss, es, i, side) <==> Live(ss[i + 1], side)
  {
    LiveIsStarted(w, ss, es, i, side);
    assert StepAt(w, ss, es, i);
  }

  // With no start in between, a live hand is still live exactly when no step released it.
  lemma {:induction false} StaysLiveIff(w: Setup, ss: seq<Whole>, es: seq<Event>, i: nat, j: nat, side: HandLaws.Side)
    requires Run(w, ss, es) && i <= j < |ss| && Live(ss[i], side)
    requires forall k :: i <= k < j ==> !es[k].StartApplied?
    ensures Live(ss[j], side) <==> forall k: nat :: i <= k < j ==> !Releases(w, ss, es, k, side)
    decreases j - i
  {
    if i < j {
      StaysLiveIff(w, ss, es, i, j - 1, side);
      ReleaseStep(w, ss, es, j - 1, side);
    }
  }

  // So is a live frame: without a start since the hand was live, a tick sends one if and only if no service stopped the
  // hands, and neither this tick nor any before saw the latch or a failed check.
  lemma LiveFrameIff(w: Setup, ss: seq<Whole>, es: seq<Event>, i: nat, j: nat, side: HandLaws.Side)
    requires Run(w, ss, es) && i <= j < |es| && Live(ss[i], side) && es[j].HandTick?
    requires forall k :: i <= k < j ==> !es[k].StartApplied?
    ensures SendsLive(ss, es, j, side) <==>
            forall k: nat :: i <= k <= j ==> !Releases(w, ss, es, k, side)
  {
    TickSends(w, ss, es, j, side);
    StaysLiveIff(w, ss, es, i, j + 1, side);
  }

  // While the checks pass and nobody stops the hands, only the latch decides: a stop, of whatever cause and however
  // often, releases a hand if and only if it is still latched at some tick.
  lemma LatchReleasesIff(w: Setup, ss: seq<Whole>, es: seq<Event>, i: nat, j: nat, side: HandLaws.Side)
    requires Run(w, ss, es) && i <= j < |es| && Live(ss[i], side) && es[j].HandTick?
    requires forall k :: i <= k <= j ==> !es[k].StartApplied? && !es[k].StopAsked?
    requires forall k :: i <= k <= j && es[k].HandTick? ==> Passes(w, ss[k], side, es[k].at)
    ensures SendsLive(ss, es, j, side) <==>
            forall k :: i <= k <= j ==> !(es[k].HandTick? && IsLatched(ss[k].sys))
  {
    LiveFrameIff(w, ss, es, i, j, side);
    forall k: nat | i <= k <= j
      ensures Releases(w, ss, es, k, side) <==> es[k].HandTick? && IsLatched(ss[k].sys)
    {}
  }

  // --- A latch no tick sees --------------------------------------------------------------------------------

  lemma Extend(w: Setup, ss: seq<Whole>, es: seq<Event>, e: Event) returns (ss': seq<Whole>, es': seq<Event>)
    requires Run(w, ss, es) && HandLaws.BothSized(w.hands, ss[|es|].pair) && Enabled(ss[|es|], e)
    ensures Run(w, ss', es') && |es'| == |es| + 1 && ss'[|es'|] == After(w, ss[|es|], e)
    ensures es' == es + [e] && ss == ss'[..|ss|]
  {
    ss', es' := ss + [After(w, ss[|es|], e)], es + [e];
    forall i | 0 <= i < |es'|
      ensures StepAt(w, ss', es', i)
    {
      if i < |es| {
        assert StepAt(w, ss, es, i);
      }
    }
    assert ss'[0] == ss[0];
  }

  predicate CanStopAndReset(s: Threads.System) {
    s.exec == Threads.Waiting && !s.core.link.restarted && s.core.latch.cause != Estop.Shutdown
  }

  // A damp service and the reset after it, with nothing in between.
  lemma Stops(w: Threads.Setup, s: Threads.System)
    requires Inv(s) && CanStopAndReset(s)
    ensures Threads.Enabled(s, Threads.ServiceStop(Estop.ServiceDamp))
    ensures var r := Threads.After(w, s, Threads.ServiceStop(Estop.ServiceDamp)); IsLatched(r) && CanStopAndReset(r)
  {}

  lemma Resets(w: Threads.Setup, s: Threads.System)
    requires Inv(s) && CanStopAndReset(s) && IsLatched(s)
    ensures Threads.Enabled(s, Threads.ResetBegin)
    ensures var r := Threads.After(w, s, Threads.ResetBegin); r == s.(exec := Threads.ResetLatch)
  {}

  lemma ResetUnlatches(w: Threads.Setup, s: Threads.System)
    requires s.exec == Threads.ResetLatch && IsLatched(s) && s.core.latch.cause != Estop.Shutdown
    ensures Threads.Enabled(s, Threads.ResetApplied(false))
    ensures var r := Threads.After(w, s, Threads.ResetApplied(false));
        r.exec == Threads.ResetLink && !r.core.latchedFlag
  {}

  lemma ResetEnds(w: Threads.Setup, s: Threads.System)
    requires s.exec == Threads.ResetLink && !s.core.latchedFlag
    ensures Threads.Enabled(s, Threads.ResetCleared)
    ensures var r := Threads.After(w, s, Threads.ResetCleared); r.exec == Threads.Waiting && !r.core.latchedFlag
  {}

  // The hands as they are before and after some body steps.
  ghost predicate HandsAlone(s: Whole, r: Whole) {
    r.pair == s.pair && r.start == s.start == NoStart
  }

  lemma StopOnce(w: Setup, ss: seq<Whole>, es: seq<Event>) returns (ss': seq<Whole>, es': seq<Event>)
    requires Run(w, ss, es) && CanStopAndReset(ss[|es|].sys) && ss[|es|].start == NoStart
    ensures Run(w, ss', es') && es' == es + [Body(Threads.ServiceStop(Estop.ServiceDamp))] && ss == ss'[..|ss|]
    ensures var r := ss'[|es'|]; IsLatched(r.sys) && CanStopAndReset(r.sys) && HandsAlone(ss[|es|], r)
  {
    Always(w, ss, es, |es|);
    Stops(w.body, ss[|es|].sys);
    ss', es' := Extend(w, ss, es, Body(Threads.ServiceStop(Estop.ServiceDamp)));
  }

  lemma BeginReset(w: Setup, ss: seq<Whole>, es: seq<Event>) returns (ss': seq<Whole>, es': seq<Event>)
    requires Run(w, ss, es) && IsLatched(ss[|es|].sys) && CanStopAndReset(ss[|es|].sys) && ss[|es|].start == NoStart
    ensures Run(w, ss', es') && es' == es + [Body(Threads.ResetBegin)] && ss == ss'[..|ss|]
    ensures var s, r := ss[|es|], ss'[|es'|]; r.sys == s.sys.(exec := Threads.ResetLatch) && HandsAlone(s, r)
  {
    Always(w, ss, es, |es|);
    Resets(w.body, ss[|es|].sys);
    ss', es' := Extend(w, ss, es, Body(Threads.ResetBegin));
  }

  lemma EndReset(w: Setup, ss: seq<Whole>, es: seq<Event>) returns (ss': seq<Whole>, es': seq<Event>)
    requires Run(w, ss, es) && ss[|es|].sys.exec == Threads.ResetLatch && IsLatched(ss[|es|].sys)
    requires ss[|es|].sys.core.latch.cause != Estop.Shutdown && ss[|es|].start == NoStart
    ensures Run(w, ss', es') && es' == es + [Body(Threads.ResetApplied(false))] + [Body(Threads.ResetCleared)]
    ensures ss == ss'[..|ss|]
    ensures var r := ss'[|es'|]; r.sys.exec == Threads.Waiting && !r.sys.core.latchedFlag && HandsAlone(ss[|es|], r)
  {
    Always(w, ss, es, |es|);
    ResetUnlatches(w.body, ss[|es|].sys);
    ss', es' := Extend(w, ss, es, Body(Threads.ResetApplied(false)));
    Always(w, ss', es', |es'|);
    ResetEnds(w.body, ss'[|es'|].sys);
    ss', es' := Extend(w, ss', es', Body(Threads.ResetCleared));
  }

  const STOP_AND_RESET := [Body(Threads.ServiceStop(Estop.ServiceDamp)), Body(Threads.ResetBegin),
                           Body(Threads.ResetApplied(false)), Body(Threads.ResetCleared)]

  // The first of the steps latches, the last of them leaves no latch, and the hands are not touched.
  ghost predicate StopsAndResets(ss: seq<Whole>, ss': seq<Whole>, n: nat)
    requires n < |ss| && n + 4 < |ss'|
  {
    && ss'[n] == ss[n]
    && IsLatched(ss'[n + 1].sys) && HandsAlone(ss[n], ss'[n + 1])
    && ss'[n + 4].sys.exec == Threads.Waiting && !IsLatched(ss'[n + 4].sys) && HandsAlone(ss[n], ss'[n + 4])
  }

  lemma StopAndReset(w: Setup, ss: seq<Whole>, es: seq<Event>) returns (ss': seq<Whole>, es': seq<Event>)
    requires Run(w, ss, es) && CanStopAndReset(ss[|es|].sys) && ss[|es|].start == NoStart
    ensures Run(w, ss', es') && es' == es + STOP_AND_RESET && StopsAndResets(ss, ss', |es|)
  {
    var n := |es|;
    ss', es' := StopOnce(w, ss, es);
    assert ss'[n] == ss[n];
    ghost var stopped := ss';
    ss', es' := BeginReset(w, ss', es');
    assert ss'[n] == ss[n] && ss'[n + 1] == stopped[n + 1];
    ghost var begun := ss';
    ss', es' := EndReset(w, ss', es');
    assert ss'[n] == begun[n] && ss'[n + 1] == begun[n + 1];
    Always(w, ss', es', n + 4);
  }

  // The latch is not always seen: after any run that leaves a hand live, a stop and its reset between two ticks let the
  // next live frame out with no start in between.
  lemma MissedLatch(w: Setup, ss: seq<Whole>, es: seq<Event>, side: HandLaws.Side, at: real)
    returns (ss': seq<Whole>, es': seq<Event>)
    requires Run(w, ss, es) && CanStopAndReset(ss[|es|].sys) && ss[|es|].start == NoStart
    requires Live(ss[|es|], side) && Passes(w, ss[|es|], side, at)
    ensures Run(w, ss', es') && es' == es + STOP_AND_RESET + [HandTick(at)]
    ensures IsLatched(ss'[|es| + 1].sys) && Live(ss'[|es| + 1], side)
    ensures SendsLive(ss', es', |es| + 4, side)
  {
    var n := |es|;
    ss', es' := StopAndReset(w, ss, es);
    ghost var reset := ss';
    Always(w, ss', es', n + 4);
    ss', es' := Extend(w, ss', es', HandTick(at));
    assert forall k :: n <= k <= n + 4 ==> ss'[k] == reset[k];
    NothingReleases(w, ss', es', n, side, at);
    LiveFrameIff(w, ss', es', n, n + 4, side);
  }

  lemma NothingReleases(w: Setup, ss: seq<Whole>, es: seq<Event>, n: nat, side: HandLaws.Side, at: real)
    requires n + 5 == |es| < |ss| && es[n..] == STOP_AND_RESET + [HandTick(at)]
    requires !IsLatched(ss[n + 4].sys) && Passes(w, ss[n + 4], side, at)
    ensures forall k: nat :: n <= k <= n + 4 ==> !Releases(w, ss, es, k, side)
  {
    forall k: nat | n <= k <= n + 4
      ensures es[k] == (STOP_AND_RESET + [HandTick(at)])[k - n]
    {
      assert es[n..][k - n] == es[k];
    }
  }

  // --- Such a run, from boot -----------------------------------------------------------------------------------

  lemma Boot(w: Setup) returns (ss: seq<Whole>, es: seq<Event>)
    requires GoodSetup(w)
    ensures Run(w, ss, es) && es == [] && CanStopAndReset(ss[0].sys) && ss[0].start == NoStart
    ensures !ss[0].sys.core.latchedFlag
  {
    var pair := Pair(false, HandLaws.BuiltHand(w.hands.left), HandLaws.BuiltHand(w.hands.right));
    ss, es := [Whole(Threads.Boot(0, true), pair, NoStart)], [];
  }

  lemma HandStarts(w: Setup, ss: seq<Whole>, es: seq<Event>, side: HandLaws.Side, at: real)
    returns (ss': seq<Whole>, es': seq<Event>)
    requires Run(w, ss, es) && ss[|es|].start == Applying && CanStopAndReset(ss[|es|].sys)
    requires HandLaws.BothSized(w.hands, ss[|es|].pair) && !ss[|es|].pair.started
    requires StateOk(HandLaws.ConfigOf(w.hands, side), HandLaws.HandOf(ss[|es|].pair, side), at)
    ensures Run(w, ss', es') && es' == es + [StartApplied(at)]
    ensures var r := ss'[|es'|]; r.start == NoStart && CanStopAndReset(r.sys) && Live(r, side) && Passes(w, r, side, at)
  {
    ss', es' := Extend(w, ss, es, StartApplied(at));
  }

  // From boot: a hand that shows its state is started and live.
  lemma LiveHand(w: Setup, side: HandLaws.Side, at: real) returns (ss: seq<Whole>, es: seq<Event>)
    requires GoodSetup(w) && HandLaws.ConfigOf(w.hands, side).stateTimeout >= 0.0
    ensures Run(w, ss, es) && |es| == 4
    ensures var r := ss[|es|]; r.start == NoStart && CanStopAndReset(r.sys) && Live(r, side) && Passes(w, r, side, at)
  {
    var cfg := HandLaws.ConfigOf(w.hands, side);
    ss, es := Boot(w);
    ss, es := Extend(w, ss, es, HandMsg(HandLaws.StateMsg(side, HandLaws.AtRest(cfg), at)));
    HandLaws.AtRestIsOk(cfg, HandLaws.HandOf(ss[1].pair, side), at);
    ss, es := Extend(w, ss, es, StartAsked);
    ss, es := Extend(w, ss, es, StartGated(true));
    ss, es := HandStarts(w, ss, es, side, at);
  }

  // And so the latch is missed on a run from boot.
  lemma HandOutlivesStop(w: Setup, side: HandLaws.Side, at: real)
    returns (ss: seq<Whole>, es: seq<Event>, s: nat, t: nat)
    requires GoodSetup(w) && HandLaws.ConfigOf(w.hands, side).stateTimeout >= 0.0
    ensures Run(w, ss, es) && s < t < |es| && Live(ss[s], side) && IsLatched(ss[s].sys)
    ensures forall k :: s <= k < t ==> es[k].Body?
    ensures SendsLive(ss, es, t, side)
  {
    ss, es := LiveHand(w, side, at);
    s, t := 5, 8;
    ss, es := MissedLatch(w, ss, es, side, at);
  }
}
