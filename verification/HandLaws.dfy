/** What the hands guarantee over every run of messages, ticks and services, whatever the device and the commands
send.
*/
module HandLaws {
  import opened Numbers
  import opened Gates
  import opened MotorPipeline
  import opened Commands
  import opened Hands
  import Ramp

  datatype Side = LeftHand | RightHand

  datatype Event =
    | StateMsg(side: Side, state: seq<HandMotor>, at: real)
    | Command(side: Side, cmd: HandCmd, at: real)
    | Timer(latched: bool, at: real)
    | Start(at: real)
    | StopAll

  // Both hands' configurations.
  datatype Setup = Setup(left: Config, right: Config)

  ghost predicate GoodSetup(w: Setup) {
    LoadedHand(w.left) && LoadedHand(w.right)
  }

  ghost predicate BothSized(w: Setup, p: Pair) {
    Sized(w.left, p.left) && Sized(w.right, p.right)
  }

  function ConfigOf(w: Setup, side: Side): Config {
    if side == LeftHand then w.left else w.right
  }

  function HandOf(p: Pair, side: Side): Hand {
    if side == LeftHand then p.left else p.right
  }

  function OnSide(p: Pair, side: Side, h: Hand): Pair {
    if side == LeftHand then p.(left := h) else p.(right := h)
  }

  function After(w: Setup, p: Pair, e: Event): (r: Pair)
    requires GoodSetup(w) && BothSized(w, p)
    ensures BothSized(w, r)
  {
    match e
    case StateMsg(side, state, at) => OnSide(p, side, AfterState(HandOf(p, side), state, at))
    case Command(side, cmd, at) => OnSide(p, side, AfterCmd(ConfigOf(w, side), p.started, HandOf(p, side), cmd, at))
    case Timer(latched, at) => PairAfterTimer(w.left, w.right, p, latched, at)
    case Start(at) => PairAfterStart(w.left, w.right, p, at)
    case StopAll => PairAfterStop(p)
  }

  function AfterAll(w: Setup, p: Pair, es: seq<Event>): (r: Pair)
    requires GoodSetup(w) && BothSized(w, p)
    ensures BothSized(w, r)
  {
    if es == [] then p else After(w, AfterAll(w, p, es[..|es| - 1]), es[|es| - 1])
  }

  // --- Every frame is finite and in bounds -------------------------------------------------------------

  predicate LimpCmd(c: CmdN) {
    IsFinite(c.q) && c == CmdN(c.q, ZERO, ZERO, ZERO, ZERO)
  }

  predicate LiveCmd(c: CmdN, j: Joint) {
    && FiniteCommand(c)
    && j.qMin <= c.q.r <= j.qMax
    && Within(c.dq.r, j.dqLimit)
    && Within(c.tau.r, j.tauLimit)
  }

  predicate GoodOut(cfg: Config, o: Out) {
    match o
    case Silent => true
    case Limp(f) => |f| == |cfg.joints| && forall i :: 0 <= i < |f| ==> LimpCmd(f[i])
    case Live(f) => |f| == |cfg.joints| && forall i :: 0 <= i < |f| ==> LiveCmd(f[i], cfg.joints[i])
  }

  // Both ends of a line are within the limit.
  predicate Spans(l: LineN, limit: real) {
    FiniteLine(l) && Within(l.at0.r, limit) && Within(l.at0.r + l.rise.r, limit)
  }

  predicate GoodParams(p: ParamsN, j: Joint) {
    && FiniteParams(p) && Spans(p.dq, j.dqLimit)
    && p.tau.rise == ZERO && Within(p.tau.at0.r, j.tauLimit)
  }

  predicate GoodLast(c: CmdN, j: Joint) {
    FiniteCommand(c) && Within(c.dq.r, j.dqLimit)
  }

  ghost predicate GoodHand(cfg: Config, h: Hand) {
    && Sized(cfg, h)
    && (forall i :: 0 <= i < |h.last| ==> GoodLast(h.last[i], cfg.joints[i]))
    && (h.live ==> forall i :: 0 <= i < |h.params| ==> GoodParams(h.params[i], cfg.joints[i]))
    && (forall k :: 0 <= k < |h.sent| ==> GoodOut(cfg, h.sent[k]))
  }

  lemma SpanHolds(l: LineN, limit: real, phase: real)
    requires Spans(l, limit) && 0.0 <= phase <= 1.0
    ensures IsFinite(AtN(l, phase)) && Within(AtN(l, phase).r, limit)
  {
    Ramp.PartWay(l.at0.r, l.at0.r + l.rise.r, phase);
    assert (l.at0.r + l.rise.r - l.at0.r) * phase == l.rise.r * phase;
  }

  lemma LiveEntryGood(p: ParamsN, j: Joint, phase: real)
    requires GoodParams(p, j) && 0.0 <= phase <= 1.0 && j.qMin <= j.qMax
    ensures LiveCmd(LiveEntry(p, phase, j), j)
  {
    SpanHolds(p.dq, j.dqLimit, phase);
    assert AtN(p.tau, phase) == p.tau.at0;
  }

  lemma RampToGood(last: CmdN, c: CmdN, j: Joint, g: Gains)
    requires GoodLast(last, j) && Accepted(c) && Clampable(j) && LoadedGains(g)
    ensures GoodParams(RampTo(last, Stored(c, j, g)), j)
  {
    ClippedIsAdmissible(c, j, g);
  }

  lemma StartGood(last: CmdN, j: Joint, readyQ: real)
    requires GoodLast(last, j) && Clampable(j)
    ensures GoodParams(StartRamp(last, CmdN(Fin(readyQ), ZERO, Fin(j.kp), Fin(j.kd), ZERO)), j)
  {}

  lemma TimerKeepsGood(cfg: Config, started: bool, h: Hand, latched: bool, now: real)
    requires LoadedHand(cfg) && GoodHand(cfg, h)
    ensures GoodHand(cfg, AfterTimer(cfg, started, h, latched, now))
  {
    var live := StaysLive(cfg, h, latched, now);
    var frame := Frame(cfg, h, !live, now);
    forall i | 0 <= i < |frame|
      ensures GoodLast(frame[i], cfg.joints[i]) &&
          (if live then LiveCmd(frame[i], cfg.joints[i]) else LimpCmd(frame[i]))
    {
      assert Clampable(cfg.joints[i]);
      if live {
        LiveEntryGood(h.params[i], cfg.joints[i], Ramp.Phase(now, h.tStart, h.tFinal));
      }
    }
    assert GoodOut(cfg, if live then Live(frame) else Limp(frame));
  }

  lemma CmdKeepsGood(cfg: Config, started: bool, h: Hand, c: HandCmd, now: real)
    requires LoadedHand(cfg) && GoodHand(cfg, h)
    ensures GoodHand(cfg, AfterCmd(cfg, started, h, c, now))
  {
    if GoodCmd(cfg, c) {
      forall i | 0 <= i < |cfg.joints|
        ensures GoodParams(RampTo(h.last[i], Stored(c.cmds[i], cfg.joints[i], cfg.gains)), cfg.joints[i])
      {
        assert Clampable(cfg.joints[i]);
        RampToGood(h.last[i], c.cmds[i], cfg.joints[i], cfg.gains);
      }
    }
  }

  lemma StartKeepsGood(cfg: Config, started: bool, h: Hand, now: real)
    requires LoadedHand(cfg) && GoodHand(cfg, h)
    ensures GoodHand(cfg, AfterStart(cfg, started, h, now))
  {
    if StateOk(cfg, h, now) {
      var last := StartLasts(cfg, started, h);
      forall i | 0 <= i < |cfg.joints|
        ensures GoodLast(last[i], cfg.joints[i]) && GoodParams(StartRamp(last[i], ReadyEntry(cfg, i)), cfg.joints[i])
      {
        assert Clampable(cfg.joints[i]);
        assert MotorOk(cfg, h.state[i], cfg.joints[i]);
        StartGood(last[i], cfg.joints[i], cfg.readyQ[i]);
      }
    }
  }

  ghost predicate Good(w: Setup, p: Pair) {
    GoodHand(w.left, p.left) && GoodHand(w.right, p.right)
  }

  lemma StepKeepsGood(w: Setup, p: Pair, e: Event)
    requires GoodSetup(w) && Good(w, p)
    ensures Good(w, After(w, p, e))
  {
    match e {
      case StateMsg(side, state, at) =>
      case Command(side, cmd, at) => CmdKeepsGood(ConfigOf(w, side), p.started, HandOf(p, side), cmd, at);
      case Timer(latched, at) =>
        TimerKeepsGood(w.left, p.started, p.left, latched, at);
        TimerKeepsGood(w.right, p.started, p.right, latched, at);
      case Start(at) =>
        StartKeepsGood(w.left, p.started, p.left, at);
        StartKeepsGood(w.right, p.started, p.right, at);
      case StopAll =>
    }
  }

  // On every run, even on NaN states and commands: every frame is finite, a live one has every finger in its range and
  // its dq and tau within their limits, and any other has no gain and no torque.
  lemma {:induction false} FramesAlwaysGood(w: Setup, p: Pair, es: seq<Event>)
    requires GoodSetup(w) && Good(w, p)
    ensures Good(w, AfterAll(w, p, es))
  {
    if es != [] {
      FramesAlwaysGood(w, p, es[..|es| - 1]);
      StepKeepsGood(w, AfterAll(w, p, es[..|es| - 1]), es[|es| - 1]);
    }
  }

  // A hand as it is built: released, nothing sent, at zeros.
  ghost predicate JustBuilt(cfg: Config, h: Hand) {
    && Sized(cfg, h) && !h.live && h.sent == []
    && forall i :: 0 <= i < |h.last| ==> h.last[i] == CmdN(ZERO, ZERO, ZERO, ZERO, ZERO)
  }

  // One such hand.
  function BuiltHand(cfg: Config): Hand {
    var still := CmdN(ZERO, ZERO, ZERO, ZERO, ZERO);
    Hand([], 0.0, false, false, seq(|cfg.joints|, _ => ParamsN(ConstantN(ZERO), ConstantN(ZERO), ConstantN(ZERO),
        ConstantN(ZERO), ConstantN(ZERO))), seq(|cfg.joints|, _ => still), 0.0, 0.0, By(0.0), [])
  }

  // So the runs above may start where the bridge does.
  lemma BuiltIsGood(w: Setup, p: Pair)
    requires GoodSetup(w) && JustBuilt(w.left, p.left) && JustBuilt(w.right, p.right)
    ensures Good(w, p)
  {
    BuiltHandIsGood(w.left, p.left);
    BuiltHandIsGood(w.right, p.right);
  }

  lemma BuiltHandIsGood(cfg: Config, h: Hand)
    requires LoadedHand(cfg) && JustBuilt(cfg, h)
    ensures GoodHand(cfg, h)
  {
    forall i | 0 <= i < |h.last|
      ensures GoodLast(h.last[i], cfg.joints[i])
    {
      assert Clampable(cfg.joints[i]);
    }
  }

  // A healthy state message.
  function AtRest(cfg: Config): seq<HandMotor> {
    seq(|cfg.joints|, _ => HandMotor(ZERO, ZERO, ZERO, []))
  }

  lemma AtRestIsOk(cfg: Config, h: Hand, at: real)
    requires LoadedHand(cfg) && cfg.stateTimeout >= 0.0
    requires h.seen && h.stateTime == at && h.state == AtRest(cfg)
    ensures StateOk(cfg, h, at)
  {
    forall i | 0 <= i < |cfg.joints|
      ensures MotorOk(cfg, h.state[i], cfg.joints[i])
    {
      assert Clampable(cfg.joints[i]);
    }
  }

  // --- A released hand -------------------------------------------------------------------------------------

  // h comes after before, and nothing live was sent in between.
  ghost predicate NothingLive(before: Hand, h: Hand) {
    && !h.live && before.sent <= h.sent
    && forall k :: |before.sent| <= k < |h.sent| ==> !h.sent[k].Live?
  }

  lemma ReleasedStep(w: Setup, p: Pair, e: Event, side: Side)
    requires GoodSetup(w) && BothSized(w, p) && !HandOf(p, side).live && !e.Start?
    ensures NothingLive(HandOf(p, side), HandOf(After(w, p, e), side))
  {}

  // Once released, a hand gets nothing but limp frames or silence until hands are started again.
  lemma {:induction false} ReleasedStaysLimp(w: Setup, p: Pair, es: seq<Event>, side: Side)
    requires GoodSetup(w) && BothSized(w, p) && !HandOf(p, side).live
    requires forall i :: 0 <= i < |es| ==> !es[i].Start?
    ensures NothingLive(HandOf(p, side), HandOf(AfterAll(w, p, es), side))
  {
    if es != [] {
      var n := |es| - 1;
      ReleasedStaysLimp(w, p, es[..n], side);
      ReleasedStep(w, AfterAll(w, p, es[..n]), es[n], side);
    }
  }

  // The watchdog: from its deadline on a hand gets no live frame until a command or a start for it.
  lemma {:induction false} DeadlineStays(w: Setup, p: Pair, es: seq<Event>, side: Side)
    requires GoodSetup(w) && BothSized(w, p)
    requires forall i :: 0 <= i < |es| ==> !es[i].Start? && !(es[i].Command? && es[i].side == side)
    ensures HandOf(AfterAll(w, p, es), side).tValid == HandOf(p, side).tValid
  {
    if es != [] {
      DeadlineStays(w, p, es[..|es| - 1], side);
    }
  }

  lemma WatchdogReleases(w: Setup, p: Pair, es: seq<Event>, side: Side, latched: bool, now: real)
    requires GoodSetup(w) && BothSized(w, p) && HandOf(p, side).tValid.By? && now > HandOf(p, side).tValid.at
    requires forall i :: 0 <= i < |es| ==> !es[i].Start? && !(es[i].Command? && es[i].side == side)
    ensures var h := HandOf(After(w, AfterAll(w, p, es), Timer(latched, now)), side);
      h.sent != [] && !h.sent[|h.sent| - 1].Live?
  {
    DeadlineStays(w, p, es, side);
  }

  // A released hand is told to go slack, not left alone, as long as it was seen within 1.2 s.
  lemma ReleasedHandGoesSlack(w: Setup, p: Pair, side: Side, latched: bool, now: real)
    requires GoodSetup(w) && BothSized(w, p) && p.started
    ensures var h, r := HandOf(p, side), HandOf(After(w, p, Timer(latched, now)), side);
      && r.sent != []
      && (h.seen && now - h.stateTime <= 1.2 && !r.live ==>
            r.sent[|r.sent| - 1].Limp? && forall i :: 0 <= i < |r.last| ==> LimpCmd(r.last[i]))
      && (r.sent[|r.sent| - 1].Silent? <==> !r.live && !(h.seen && now - h.stateTime <= 1.2))
  {}

  // --- The sides ----------------------------------------------------------------------------------------------

  // The events one hand sees.
  predicate Sees(side: Side, e: Event) {
    match e
    case StateMsg(s, _, _) => s == side
    case Command(s, _, _) => s == side
    case _ => true
  }

  function Own(side: Side, es: seq<Event>): seq<Event> {
    if es == [] then []
    else
      var n := |es| - 1;
      Own(side, es[..n]) + (if Sees(side, es[n]) then [es[n]] else [])
  }

  // One hand on its own.
  function AfterOwn(cfg: Config, started: bool, h: Hand, e: Event): (r: Hand)
    requires Sized(cfg, h)
    ensures Sized(cfg, r)
  {
    match e
    case StateMsg(_, state, at) => AfterState(h, state, at)
    case Command(_, cmd, at) => AfterCmd(cfg, started, h, cmd, at)
    case Timer(latched, at) => AfterTimer(cfg, started, h, latched, at)
    case Start(_) => h
    case StopAll => h
  }

  function AfterAllOwn(cfg: Config, started: bool, h: Hand, es: seq<Event>): (r: Hand)
    requires Sized(cfg, h)
    ensures Sized(cfg, r)
  {
    if es == [] then h else AfterOwn(cfg, started, AfterAllOwn(cfg, started, h, es[..|es| - 1]), es[|es| - 1])
  }

  // Between service calls each hand runs, and sends, as if the other were not there: its frames depend only on its own
  // messages, the ticks and the latch.
  lemma {:induction false} SidesDoNotInterfere(w: Setup, p: Pair, es: seq<Event>, side: Side)
    requires GoodSetup(w) && BothSized(w, p)
    requires forall i :: 0 <= i < |es| ==> !es[i].Start? && !es[i].StopAll?
    ensures AfterAll(w, p, es).started == p.started
    ensures HandOf(AfterAll(w, p, es), side)
         == AfterAllOwn(ConfigOf(w, side), p.started, HandOf(p, side), Own(side, es))
  {
    if es != [] {
      var n := |es| - 1;
      SidesDoNotInterfere(w, p, es[..n], side);
      if Sees(side, es[n]) {
        var own := Own(side, es[..n]);
        assert (own + [es[n]])[..|own|] == own;
      } else {
        assert Own(side, es[..n]) + [] == Own(side, es[..n]);
      }
    }
  }

  // --- Ramps -----------------------------------------------------------------------------------------------------

  // A command moves a hand from exactly what it was last sent, gains and all, to exactly the stored command; only the
  // feedforward torque steps at once.
  lemma RampMeetsBothEnds(last: CmdN, c: CmdN, j: Joint)
    requires FiniteCommand(last) && FiniteCommand(c)
    ensures LiveEntry(RampTo(last, c), 0.0, j) == last.(q := InRangeN(last.q, j), tau := c.tau)
    ensures LiveEntry(RampTo(last, c), 1.0, j) == c.(q := InRangeN(c.q, j))
  {}

  lemma FromZero(goal: real, phase: real)
    ensures AtN(FromN(ZERO, Fin(goal)), phase) == Fin(Scaled(goal, phase))
  {}

  lemma AtStart(q: real, goal: real)
    ensures AtN(FromN(Fin(q), Fin(goal)), 0.0) == Fin(q)
  {}

  lemma StartEntry(q: Num, ready: real, kp: real, kd: real, phase: real, j: Joint)
    requires IsFinite(q)
    ensures var f := LiveEntry(StartRamp(CmdN(q, ZERO, ZERO, ZERO, ZERO),
        CmdN(Fin(ready), ZERO, Fin(kp), Fin(kd), ZERO)), phase, j);
      && f.kp == Fin(Scaled(kp, phase)) && f.kd == Fin(Scaled(kd, phase))
      && (phase == 0.0 ==> f.q == InRangeN(q, j))
  {
    FromZero(kp, phase);
    FromZero(kd, phase);
    AtStart(q.r, ready);
  }

  // A start of a released hand begins where the hand is, with gains that rise from zero in step with the ramp.
  lemma StartRaisesGains(cfg: Config, started: bool, h: Hand, at: real, now: real, i: nat)
    requires LoadedHand(cfg) && Sized(cfg, h) && !h.live && StateOk(cfg, h, at) && i < |cfg.joints|
    ensures var r := AfterStart(cfg, started, h, at);
            var f, phase := Frame(cfg, r, false, now)[i], Ramp.Phase(now, at, at + cfg.rampTime);
      && r.live && f.kp == Fin(Scaled(cfg.joints[i].kp, phase)) && f.kd == Fin(Scaled(cfg.joints[i].kd, phase))
      && (phase == 0.0 ==> f.q == InRangeN(h.state[i].q, cfg.joints[i]))
  {
    var j, phase := cfg.joints[i], Ramp.Phase(now, at, at + cfg.rampTime);
    assert MotorOk(cfg, h.state[i], j);
    StartEntry(h.state[i].q, cfg.readyQ[i], j.kp, j.kd, phase, j);
    var r := AfterStart(cfg, started, h, at);
    assert r.last[i] == CmdN(h.state[i].q, ZERO, ZERO, ZERO, ZERO);
    assert r.params[i] == StartRamp(r.last[i], ReadyEntry(cfg, i));
    assert Frame(cfg, r, false, now)[i] == LiveEntry(r.params[i], phase, j);
  }
}
