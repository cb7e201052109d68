/** The check every command passes before it is stored (checkMotorCmd_, checkCommand_): what is refused and what
is clipped. The bridge checks /robot_cmd with it, and the hands each finger joint.
*/
module Commands {
  import opened Numbers
  import opened Gates
  import opened MotorPipeline

  datatype Gains = Gains(kpMin: real, kpMax: real, kdMin: real, kdMax: real)

  // Parameter loading's check.
  predicate LoadedGains(g: Gains) {
    g.kpMin <= g.kpMax && g.kdMin <= g.kdMax
  }

  predicate Clampable(j: Joint) {
    j.dqLimit >= 0.0 && j.tauLimit >= 0.0
  }

  const MAX_Q := 50.0
  const MAX_DQ := 100.0
  const MAX_TAU := 1000.0
  const MAX_KP := 10000.0
  const MAX_KD := 1000.0

  // std::abs(x) > limit, which no NaN is.
  predicate Exceeds(x: Num, limit: real) {
    Less(Fin(limit), x) || Less(x, Fin(-limit))
  }

  predicate Unreasonable(c: CmdN) {
    Exceeds(c.q, MAX_Q) || Exceeds(c.dq, MAX_DQ) || Exceeds(c.tau, MAX_TAU) || Exceeds(c.kp, MAX_KP) || Exceeds(c.kd,
        MAX_KD)
  }

  predicate Accepted(c: CmdN) {
    FiniteCommand(c) && !Unreasonable(c)
  }

  function Clipped(c: CmdN, j: Joint, g: Gains): CmdN {
    CmdN(c.q, BoundN(c.dq, j.dqLimit), ClampN(c.kp, Fin(g.kpMin), Fin(g.kpMax)),
        ClampN(c.kd, Fin(g.kdMin), Fin(g.kdMax)),
         BoundN(c.tau, j.tauLimit))
  }

  // What a command may be once it is stored: finite, its gains in their range and dq and tau in the
  // joint's.
  predicate Admissible(c: CmdN, j: Joint, g: Gains) {
    && FiniteCommand(c)
    && g.kpMin <= c.kp.r <= g.kpMax
    && g.kdMin <= c.kd.r <= g.kdMax
    && Within(c.dq.r, j.dqLimit)
    && Within(c.tau.r, j.tauLimit)
  }

  // Clipping leaves an admissible command, and changes nothing of one that already is; q is never touched.
  lemma ClippedIsAdmissible(c: CmdN, j: Joint, g: Gains)
    requires FiniteCommand(c) && Clampable(j) && LoadedGains(g)
    ensures Admissible(Clipped(c, j, g), j, g)
    ensures Clipped(c, j, g) == c <==> Admissible(c, j, g)
    ensures Clipped(c, j, g).q == c.q
  {}

  // What a command may be to be taken at all.
  predicate Sane(c: CmdN) {
    && IsFinite(c.q) && IsFinite(c.dq) && IsFinite(c.tau) && IsFinite(c.kp) && IsFinite(c.kd)
    && Within(c.q.r, 50.0) && Within(c.dq.r, 100.0) && Within(c.tau.r, 1000.0)
    && Within(c.kp.r, 10000.0) && Within(c.kd.r, 1000.0)
  }

  lemma AcceptedIff(c: CmdN)
    ensures Accepted(c) <==> Sane(c)
  {}

  // checkMotorCmd_.
  method CheckMotorCmd(cmd: CmdN, j: Joint, g: Gains, clippedIn: bool) returns (ok: bool, r: CmdN, clipped: bool)
    requires Clampable(j) && LoadedGains(g)
    ensures ok <==> Accepted(cmd)
    ensures r == if ok then Clipped(cmd, j, g) else cmd
    ensures clipped <==> clippedIn || (ok && !Admissible(cmd, j, g))
  {
    r, clipped := cmd, clippedIn;
    if !IsFinite(r.q) || !IsFinite(r.dq) || !IsFinite(r.tau) || !IsFinite(r.kp) || !IsFinite(r.kd) {
      return false, r, clipped;
    }
    if Exceeds(r.q, MAX_Q) || Exceeds(r.dq, MAX_DQ) || Exceeds(r.tau, MAX_TAU) || Exceeds(r.kp,
        MAX_KP) || Exceeds(r.kd, MAX_KD) {
      return false, r, clipped;
    }
    if r.kp.r < g.kpMin || r.kp.r > g.kpMax || r.kd.r < g.kdMin || r.kd.r > g.kdMax {
      clipped := true;
    }
    r := r.(kp := ClampN(r.kp, Fin(g.kpMin), Fin(g.kpMax)));
    r := r.(kd := ClampN(r.kd, Fin(g.kdMin), Fin(g.kdMax)));
    if r.dq.r < -j.dqLimit || r.dq.r > j.dqLimit {
      r := r.(dq := BoundN(r.dq, j.dqLimit));
      clipped := true;
    }
    if r.tau.r < -j.tauLimit || r.tau.r > j.tauLimit {
      r := r.(tau := BoundN(r.tau, j.tauLimit));
      clipped := true;
    }
    ok := true;
  }

  datatype Limits = Limits(joint: Joint, gains: Gains)

  predicate LoadedLimits(ls: seq<Limits>) {
    forall i :: 0 <= i < |ls| ==> Clampable(ls[i].joint) && LoadedGains(ls[i].gains)
  }

  // now is what the check leaves of an accepted command.
  predicate Checked(was: CmdN, now: CmdN, l: Limits) {
    Accepted(was) && now == Clipped(was, l.joint, l.gains)
  }

  // checkCommand_: it clips the message in place, and stops at the first joint it refuses, with the joints
  // before it already clipped.
  method CheckCommand(order: Num, duration: Num, cmds: array<CmdN>, ls: seq<Limits>) returns (ok: bool)
    requires LoadedLimits(ls)
    modifies cmds
    ensures ok <==> IsFinite(order) && 0.0 <= order.r <= 1.0 && IsFinite(duration) && duration.r >= 0.0 &&
                    cmds.Length == |ls| && forall i :: 0 <= i < cmds.Length ==> Accepted(old(cmds[i]))
    ensures ok ==> forall i :: 0 <= i < cmds.Length ==> Checked(old(cmds[i]), cmds[i], ls[i])
    ensures !ok ==> forall i :: 0 <= i < cmds.Length ==>
      cmds[i] == old(cmds[i]) || (i < |ls| && Checked(old(cmds[i]), cmds[i], ls[i]))
  {
    if !IsFinite(order) || order.r < 0.0 || order.r > 1.0 || !IsFinite(duration) || duration.r < 0.0 {
      return false;
    }
    if cmds.Length != |ls| {
      return false;
    }
    var clipped := false;
    for i := 0 to cmds.Length
      invariant forall k :: 0 <= k < i ==> Checked(old(cmds[k]), cmds[k], ls[k])
      invariant forall k :: i <= k < cmds.Length ==> cmds[k] == old(cmds[k])
    {
      var accepted, r;
      accepted, r, clipped := CheckMotorCmd(cmds[i], ls[i].joint, ls[i].gains, clipped);
      cmds[i] := r;
      if !accepted {
        assert !Accepted(old(cmds[i]));
        return false;
      }
    }
    ok := true;
  }

  // A checked command passes the check again unchanged, if its gains cannot have been raised past what is
  // reasonable.
  lemma CheckIsIdempotentIff(c: CmdN, j: Joint, g: Gains)
    requires Accepted(c) && Clampable(j) && LoadedGains(g)
    ensures Clipped(Clipped(c, j, g), j, g) == Clipped(c, j, g)
    ensures Accepted(Clipped(c, j, g)) <==>
            Within(Clamp(c.kp.r, g.kpMin, g.kpMax), MAX_KP) && Within(Clamp(c.kd.r, g.kdMin, g.kdMax), MAX_KD)
  {
    ClippedIsAdmissible(c, j, g);
    ClippedIsAdmissible(Clipped(c, j, g), j, g);
  }
}
