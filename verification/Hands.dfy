/** The Dex3 hands of the G1 (handStateHandler_, checkHandState_, checkHandCommand_, handCmdCallBack_, publishOneHand_,
publishHandCommand_, startHands_, stopHandControlServiceCB_ in G1_bridge.cpp), all on the executor thread.

The functions say what each callback makes of one hand; the classes are the source's, field by field.
*/
module Hands {
  import opened Numbers
  import opened Gates
  import opened MotorPipeline
  import opened Commands
  import Ramp

  datatype HandMotor = HandMotor(q: Num, dq: Num, tauEst: Num, temperatures: seq<int>)

  // What parameter loading leaves; readyQ is in range.
  datatype Config = Config(joints: seq<Joint>, gains: Gains, readyQ: seq<real>, stateTimeout: real, hottest: real,
      rampTime: real)

  predicate LoadedHand(cfg: Config) {
    && LoadedGains(cfg.gains) && |cfg.readyQ| == |cfg.joints|
    && forall i :: 0 <= i < |cfg.joints| ==> var j := cfg.joints[i];
         Clampable(j) && j.qMin <= cfg.readyQ[i] <= j.qMax && j.kp >= 0.0 && j.kd >= 0.0
  }

  // One timer tick of one hand.
  datatype Out = Silent | Limp(limp: seq<CmdN>) | Live(frame: seq<CmdN>)

  datatype Hand = Hand(
    state: seq<HandMotor>, stateTime: real, seen: bool, live: bool, params: seq<ParamsN>, last: seq<CmdN>,
    tStart: real, tFinal: real, tValid: Deadline, sent: seq<Out>)

  ghost predicate Sized(cfg: Config, h: Hand) {
    |h.params| == |h.last| == |cfg.joints|
  }

  datatype HandCmd = HandCmd(cmds: seq<CmdN>, duration: Num, hold: bool)

  const GONE_AFTER := 1.2   // STATE_LOSS_S + SILENCE_AFTER_S

  function AfterState(h: Hand, state: seq<HandMotor>, now: real): Hand {
    h.(state := state, stateTime := now, seen := true)
  }

  // --- The checks -----------------------------------------------------------------------------------

  predicate MotorOk(cfg: Config, m: HandMotor, j: Joint) {
    && IsFinite(m.q) && IsFinite(m.dq) && IsFinite(m.tauEst)
    && !Exceeds(m.dq, j.dqLimit)
    && forall t :: t in m.temperatures ==> t as real <= cfg.hottest
  }

  predicate StateOk(cfg: Config, h: Hand, now: real) {
    && h.seen && now - h.stateTime <= cfg.stateTimeout
    && |h.state| >= |cfg.joints|
    && forall i :: 0 <= i < |cfg.joints| ==> MotorOk(cfg, h.state[i], cfg.joints[i])
  }

  predicate GoodCmd(cfg: Config, c: HandCmd) {
    && |c.cmds| == |cfg.joints|
    && IsFinite(c.duration) && c.duration.r >= 0.0
    && forall i :: 0 <= i < |c.cmds| ==> Accepted(c.cmds[i])
  }

  function InRangeN(q: Num, j: Joint): Num {
    ClampN(q, Fin(j.qMin), Fin(j.qMax))
  }

  // An accepted command as it is stored: clipped like a body command, and q to the finger's range.
  function Stored(c: CmdN, j: Joint, g: Gains): CmdN {
    Clipped(c, j, g).(q := InRangeN(c.q, j))
  }

  // What a refused message leaves of a joint's command: itself, or clipped before the refusal.
  predicate KeptOrStored(was: CmdN, now: CmdN, j: Joint, g: Gains) {
    now == was || (Accepted(was) && now == Stored(was, j, g))
  }

  // --- One hand ---------------------------------------------------------------------------------------

  // A linear ramp of everything but the feedforward, from what was last sent.
  function RampTo(last: CmdN, target: CmdN): ParamsN {
    ParamsN(FromN(last.q, target.q), FromN(last.dq, target.dq), ConstantN(target.tau), FromN(last.kp, target.kp),
            FromN(last.kd, target.kd))
  }

  function RampsTo(cfg: Config, last: seq<CmdN>, cmds: seq<CmdN>): seq<ParamsN>
    requires |last| == |cmds| == |cfg.joints|
  {
    seq(|last|, i requires 0 <= i < |last| => RampTo(last[i], Stored(cmds[i], cfg.joints[i], cfg.gains)))
  }

  // handCmdCallBack_.
  function AfterCmd(cfg: Config, started: bool, h: Hand, c: HandCmd, now: real): Hand
    requires Sized(cfg, h)
  {
    if started && h.live && GoodCmd(cfg, c) then
      h.(params := RampsTo(cfg, h.last, c.cmds), tStart := now, tFinal := now + c.duration.r,
         tValid := if c.hold then Never else By(now + c.duration.r + 0.2))
    else h
  }

  function LimpEntry(h: Hand, i: nat): CmdN {
    CmdN(if i < |h.state| && IsFinite(h.state[i].q) then h.state[i].q else ZERO, ZERO, ZERO, ZERO, ZERO)
  }

  function LiveEntry(p: ParamsN, phase: real, j: Joint): CmdN {
    CmdN(InRangeN(AtN(p.q, phase), j), AtN(p.dq, phase), AtN(p.kp, phase), AtN(p.kd, phase), AtN(p.tau, phase))
  }

  // publishOneHand_.
  function Frame(cfg: Config, h: Hand, limp: bool, now: real): seq<CmdN>
    requires Sized(cfg, h)
  {
    seq(|cfg.joints|, i requires 0 <= i < |cfg.joints| =>
      if limp then LimpEntry(h, i) else LiveEntry(h.params[i], Ramp.Phase(now, h.tStart, h.tFinal), cfg.joints[i]))
  }

  predicate Expired(h: Hand, now: real) {
    h.tValid.By? && now > h.tValid.at
  }

  // Whether a timer tick leaves the hand live.
  predicate StaysLive(cfg: Config, h: Hand, latched: bool, now: real) {
    h.live && !latched && StateOk(cfg, h, now) && !Expired(h, now)
  }

  predicate Gone(h: Hand, now: real) {
    !h.seen || now - h.stateTime > GONE_AFTER
  }

  // One side's turn of publishHandCommand_.
  function AfterTimer(cfg: Config, started: bool, h: Hand, latched: bool, now: real): Hand
    requires Sized(cfg, h)
  {
    if !started then h.(sent := h.sent + [Silent])
    else
      var live := StaysLive(cfg, h, latched, now);
      if !live && Gone(h, now) then h.(live := false, sent := h.sent + [Silent])
      else
        var frame := Frame(cfg, h, !live, now);
        h.(live := live, last := frame, sent := h.sent + [if live then Live(frame) else Limp(frame)])
  }

  // Where a start ramps from: a live hand's last frame, else the measured pose at zero gain.
  function StartLast(started: bool, h: Hand, i: nat): CmdN
    requires i < |h.last| && i < |h.state|
  {
    if started && h.live then h.last[i] else CmdN(h.state[i].q, ZERO, ZERO, ZERO, ZERO)
  }

  function ReadyEntry(cfg: Config, i: nat): CmdN
    requires i < |cfg.joints| == |cfg.readyQ|
  {
    CmdN(Fin(cfg.readyQ[i]), ZERO, Fin(cfg.joints[i].kp), Fin(cfg.joints[i].kd), ZERO)
  }

  function StartLasts(cfg: Config, started: bool, h: Hand): seq<CmdN>
    requires Sized(cfg, h) && |h.state| >= |cfg.joints|
  {
    seq(|cfg.joints|, i requires 0 <= i < |cfg.joints| => StartLast(started, h, i))
  }

  function StartParams(cfg: Config, last: seq<CmdN>): seq<ParamsN>
    requires |last| == |cfg.joints| == |cfg.readyQ|
  {
    seq(|last|, i requires 0 <= i < |last| => StartRamp(last[i], ReadyEntry(cfg, i)))
  }

  function StartRamp(last: CmdN, target: CmdN): ParamsN {
    ParamsN(FromN(last.q, target.q), LineN(last.dq, Neg(last.dq)), ConstantN(ZERO), FromN(last.kp, target.kp),
            FromN(last.kd, target.kd))
  }

  // One side's turn of startHands_.
  function AfterStart(cfg: Config, started: bool, h: Hand, now: real): Hand
    requires Sized(cfg, h) && |cfg.readyQ| == |cfg.joints|
  {
    if StateOk(cfg, h, now) then
      var last := StartLasts(cfg, started, h);
      h.(last := last, params := StartParams(cfg, last), tStart := now, tFinal := now + cfg.rampTime, tValid := Never,
          live := true)
    else h.(live := false)
  }

  // --- The classes ---------------------------------------------------------------------------------------

  class HandChannel {
    const cfg: Config
    const params: array<ParamsN>
    const last: array<CmdN>
    var state: seq<HandMotor>
    var stateTime: real
    var seen: bool
    var live: bool
    var tStart: real
    var tFinal: real
    var tValid: Deadline
    ghost var sent: seq<Out>

    constructor (cfg: Config)
      requires LoadedHand(cfg)
      ensures Valid() && this.cfg == cfg && fresh(params) && fresh(last)
      ensures !seen && !live && sent == [] && last[..] == seq(|cfg.joints|, _ => CmdN(ZERO, ZERO, ZERO, ZERO, ZERO))
    {
      this.cfg := cfg;
      params := new ParamsN[|cfg.joints|];
      last := new CmdN[|cfg.joints|](_ => CmdN(ZERO, ZERO, ZERO, ZERO, ZERO));
      state, stateTime, seen, live, tStart, tFinal, tValid, sent := [], 0.0, false, false, 0.0, 0.0, By(0.0), [];
      new;
      assert last[..] == seq(|cfg.joints|, _ => CmdN(ZERO, ZERO, ZERO, ZERO, ZERO));
    }

    ghost predicate Valid()
      reads this
    {
      params.Length == last.Length == |cfg.joints| && LoadedHand(cfg)
    }

    ghost function View(): (h: Hand)
      requires Valid()
      reads this, params, last
      ensures Sized(cfg, h)
    {
      Hand(state, stateTime, seen, live, params[..], last[..], tStart, tFinal, tValid, sent)
    }

    method OnState(msg: seq<HandMotor>, now: real)
      requires Valid()
      modifies this
      ensures Valid() && View() == AfterState(old(View()), msg, now)
    {
      state := msg;
      stateTime := now;
      seen := true;
    }

    // checkHandState_: the device decides how many motors and temperatures a message has.
    method CheckState(now: real) returns (ok: bool)
      requires Valid()
      ensures ok == StateOk(cfg, View(), now)
    {
      if !seen {
        return false;
      }
      if now - stateTime > cfg.stateTimeout {
        return false;
      }
      if |state| < |cfg.joints| {
        return false;
      }
      for i := 0 to |cfg.joints|
        invariant forall k :: 0 <= k < i ==> MotorOk(cfg, state[k], cfg.joints[k])
      {
        var m := state[i];
        if !IsFinite(m.q) || !IsFinite(m.dq) || !IsFinite(m.tauEst) {
          return false;
        }
        if Exceeds(m.dq, cfg.joints[i].dqLimit) {
          return false;
        }
        for t := 0 to |m.temperatures|
          invariant forall u :: 0 <= u < t ==> m.temperatures[u] as real <= cfg.hottest
        {
          if m.temperatures[t] as real > cfg.hottest {
            assert m.temperatures[t] in m.temperatures;
            return false;
          }
        }
        assert MotorOk(cfg, m, cfg.joints[i]);
      }
      return true;
    }

    // checkHandCommand_, on the message in place.
    method CheckCommand(cmds: array<CmdN>, duration: Num) returns (ok: bool)
      requires Valid()
      modifies cmds
      ensures ok == GoodCmd(cfg, HandCmd(old(cmds[..]), duration, false))
      ensures ok ==> forall i :: 0 <= i < cmds.Length ==> cmds[i] == Stored(old(cmds[i]), cfg.joints[i], cfg.gains)
      ensures ok || cmds[..] == old(cmds[..]) || (cmds.Length == |cfg.joints| &&
                forall i :: 0 <= i < cmds.Length ==> KeptOrStored(old(cmds[i]), cmds[i], cfg.joints[i], cfg.gains))
    {
      ghost var was := cmds[..];
      if cmds.Length != |cfg.joints| {
        return false;
      }
      if !IsFinite(duration) || duration.r < 0.0 {
        return false;
      }
      var clipped := false;
      for i := 0 to cmds.Length
        invariant forall k :: i <= k < cmds.Length ==> cmds[k] == was[k]
        invariant forall k :: 0 <= k < i ==> Accepted(was[k])
        invariant forall k :: 0 <= k < i ==> cmds[k] == Stored(was[k], cfg.joints[k], cfg.gains)
      {
        var j := cfg.joints[i];
        var accepted, cmd;
        accepted, cmd, clipped := CheckMotorCmd(cmds[i], j, cfg.gains, clipped);
        cmds[i] := cmd;
        if !accepted {
          assert !Accepted(was[i]);
          return false;
        }
        if cmd.q.r < j.qMin || cmd.q.r > j.qMax {
          cmds[i] := cmds[i].(q := InRangeN(cmd.q, j));
          clipped := true;
        }
      }
      return true;
    }

    // handCmdCallBack_.
    method OnCmd(started: bool, cmds: array<CmdN>, duration: Num, hold: bool, now: real)
      requires Valid() && cmds != last
      modifies this, params, cmds
      ensures Valid() && View() == AfterCmd(cfg, started, old(View()), HandCmd(old(cmds[..]), duration, hold), now)
    {
      if !started {
        return;
      }
      if !live {
        return;
      }
      ghost var was := cmds[..];
      var good := CheckCommand(cmds, duration);
      if !good {
        return;
      }
      for i := 0 to |cfg.joints|
        modifies params
        invariant forall k :: 0 <= k < i ==> params[k] == RampTo(last[k], Stored(was[k], cfg.joints[k], cfg.gains))
      {
        var target, prev := cmds[i], last[i];
        params[i] := ParamsN(LineN(prev.q, Sub(target.q, prev.q)), LineN(prev.dq, Sub(target.dq, prev.dq)),
            LineN(target.tau, ZERO),
                             LineN(prev.kp, Sub(target.kp, prev.kp)), LineN(prev.kd, Sub(target.kd, prev.kd)));
      }
      assert params[..] == RampsTo(cfg, last[..], was);
      tStart := now;
      tFinal := tStart + duration.r;
      tValid := if hold then Never else By(tFinal + 0.2);
    }

    // publishOneHand_: what goes out is also what the next ramp starts from.
    method PublishOne(limp: bool, now: real) returns (out: seq<CmdN>)
      requires Valid()
      modifies last
      ensures Valid() && out == Frame(cfg, old(View()), limp, now)
      ensures View() == old(View()).(last := out)
    {
      var phase := 1.0;
      if tFinal - tStart > 0.000001 {
        phase := Clamp((now - tStart) / (tFinal - tStart), 0.0, 1.0);
      }
      ghost var h := View();
      out := [];
      for i := 0 to |cfg.joints|
        invariant |out| == i
        invariant forall k :: 0 <= k < i ==> last[k] == out[k] == Frame(cfg, h, limp, now)[k]
      {
        var cmd := CmdN(ZERO, ZERO, ZERO, ZERO, ZERO);
        if limp {
          cmd := cmd.(q := if |state| > i && IsFinite(state[i].q) then state[i].q else ZERO);
        } else {
          var p := params[i];
          cmd := CmdN(AtN(p.q, phase), AtN(p.dq, phase), AtN(p.kp, phase), AtN(p.kd, phase), AtN(p.tau, phase));
          cmd := cmd.(q := InRangeN(cmd.q, cfg.joints[i]));
        }
        assert cmd == Frame(cfg, h, limp, now)[i];
        last[i] := cmd;
        out := out + [cmd];
      }
      assert last[..] == out;
    }

    // One side of publishHandCommand_, which returns first while hand control is off.
    method OnTimer(started: bool, latched: bool, now: real)
      requires Valid()
      modifies this, last
      ensures Valid() && View() == AfterTimer(cfg, started, old(View()), latched, now)
    {
      if !started {
        sent := sent + [Silent];
        return;
      }
      if latched && live {
        live := false;
      }
      if live {
        var ok := CheckState(now);
        if !ok {
          live := false;
        } else if tValid.By? && now > tValid.at {
          live := false;
        }
      }
      var gone := !seen || now - stateTime > GONE_AFTER;
      if !live && gone {
        sent := sent + [Silent];
        return;
      }
      var out := PublishOne(!live, now);
      assert out == Frame(cfg, old(View()), !live, now);
      sent := sent + [if live then Live(out) else Limp(out)];
    }

    // One side of startHands_.
    method OnStart(started: bool, now: real)
      requires Valid()
      modifies this, params, last
      ensures Valid() && View() == AfterStart(cfg, started, old(View()), now)
    {
      var ok := CheckState(now);
      if !ok {
        live := false;
        return;
      }
      var fromLast := started && live;
      ghost var h := View();
      for i := 0 to |cfg.joints|
        modifies params, last
        invariant forall k :: i <= k < last.Length ==> last[k] == h.last[k]
        invariant forall k :: 0 <= k < i ==> last[k] == StartLast(started, h, k)
        invariant forall k :: 0 <= k < i ==> params[k] == StartRamp(StartLast(started, h, k), ReadyEntry(cfg, k))
      {
        if !fromLast {
          last[i] := CmdN(state[i].q, ZERO, ZERO, ZERO, ZERO);
        }
        var prev, target := last[i], ReadyEntry(cfg, i);
        params[i] := ParamsN(LineN(prev.q, Sub(target.q, prev.q)), LineN(prev.dq, Neg(prev.dq)), LineN(ZERO, ZERO),
                             LineN(prev.kp, Sub(target.kp, prev.kp)), LineN(prev.kd, Sub(target.kd, prev.kd)));
      }
      assert last[..] == StartLasts(cfg, started, h);
      assert params[..] == StartParams(cfg, last[..]);
      tStart := now;
      tFinal := tStart + cfg.rampTime;
      tValid := Never;
      live := true;
    }

    // One side of stopHandControlServiceCB_.
    method OnStop()
      requires Valid()
      modifies this
      ensures Valid() && View() == old(View()).(live := false)
    {
      live := false;
    }
  }

  // --- Both hands -----------------------------------------------------------------------------------------

  datatype Pair = Pair(started: bool, left: Hand, right: Hand)

  function PairAfterTimer(cl: Config, cr: Config, p: Pair, latched: bool, now: real): Pair
    requires Sized(cl, p.left) && Sized(cr, p.right)
  {
    p.(left := AfterTimer(cl, p.started, p.left, latched, now),
        right := AfterTimer(cr, p.started, p.right, latched, now))
  }

  // startHands_: hand control is on if any hand started.
  function PairAfterStart(cl: Config, cr: Config, p: Pair, now: real): Pair
    requires Sized(cl, p.left) && Sized(cr, p.right) && |cl.readyQ| == |cl.joints| && |cr.readyQ| == |cr.joints|
  {
    var left, right := AfterStart(cl, p.started, p.left, now), AfterStart(cr, p.started, p.right, now);
    Pair(left.live || right.live, left, right)
  }

  function PairAfterStop(p: Pair): Pair {
    Pair(false, p.left.(live := false), p.right.(live := false))
  }

  class HandPair {
    const left: HandChannel
    const right: HandChannel
    var started: bool

    constructor (left: HandChannel, right: HandChannel)
      requires left.Valid() && right.Valid() && left != right
      requires left.params != right.params && left.last != right.last
      ensures Valid() && this.left == left && this.right == right && !started
    {
      this.left, this.right, started := left, right, false;
    }

    ghost predicate Valid()
      reads this, left, right
    {
      && left.Valid() && right.Valid() && left != right
      && left.params != right.params && left.last != right.last
    }

    ghost function View(): Pair
      requires Valid()
      reads this, left, right, left.params, left.last, right.params, right.last
    {
      Pair(started, left.View(), right.View())
    }

    // publishHandCommand_.
    method OnTimer(latched: bool, now: real)
      requires Valid()
      modifies left, right, left.last, right.last
      ensures Valid() && View() == PairAfterTimer(left.cfg, right.cfg, old(View()), latched, now)
    {
      left.OnTimer(started, latched, now);
      right.OnTimer(started, latched, now);
    }

    // startHands_.
    method Start(now: real)
      requires Valid()
      modifies this, left, right, left.params, left.last, right.params, right.last
      ensures Valid() && View() == PairAfterStart(left.cfg, right.cfg, old(View()), now)
    {
      left.OnStart(started, now);
      right.OnStart(started, now);
      started := left.live || right.live;
    }

    // stopHandControlServiceCB_.
    method Stop()
      requires Valid()
      modifies this, left, right
      ensures Valid() && View() == PairAfterStop(old(View()))
    {
      started := false;
      left.OnStop();
      right.OnStop();
    }
  }
}
