/** The T1 parallel ankle (crankCommand in t1_parallel_ankle.hpp, mapAnklesToCranks_ in T1_bridge.cpp, crank_state and
serial_command in the simulator's t1.py): the bridge turns a serial PD law into crank commands, the robot's cranks
turn them back.
*/
module Ankle {
  import opened Numbers
  import opened Gates
  import opened Plane
  import opened Newton

  // --- crankCommand ---------------------------------------------------------------------------------

  // The serial PD law of one ankle: gains, reference and feedforward.
  datatype Law = Law(qRef: V2, dqRef: V2, kp: V2, kd: V2, tauFf: V2)

  datatype Crank = Crank(qS: V2, dqS: V2, tau: V2, tauRaw: V2, kd: V2, tauS: V2, margin: real, ok: bool)

  function Failed(q: V2, margin: real): Crank {
    Crank(q, ORIGIN, ORIGIN, ORIGIN, ORIGIN, ORIGIN, margin, false)
  }

  // tau_s = Kp_s (q_ref - q_s) + Kd_s (dq_ref - dq_s) + tau_ff
  function SerialPd(l: Law, q: V2, dq: V2): V2 {
    V2(Pull(l.kp.x, l.qRef.x, q.x) + Pull(l.kd.x, l.dqRef.x, dq.x) + l.tauFf.x,
       Pull(l.kp.y, l.qRef.y, q.y) + Pull(l.kd.y, l.dqRef.y, dq.y) + l.tauFf.y)
  }

  function BoundV(v: V2, limit: real): V2 {
    V2(Bound(v.x, limit), Bound(v.y, limit))
  }

  // Entry (a, b) of Ji^T diag(kd) Ji, for columns (a0, a1) and (b0, b1) of Ji.
  function Damping(a0: real, a1: real, kd: V2, b0: real, b1: real): real {
    a0 * kd.x * b0 + a1 * kd.y * b1
  }

  // The crank-side damping gains the motor drivers get: the diagonal.
  function DriverKd(ji: M2, kd: V2): V2 {
    V2(Damping(ji.xx, ji.yx, kd, ji.xx, ji.yx), Damping(ji.xy, ji.yy, kd, ji.xy, ji.yy))
  }

  function Scaled2(k: V2, v: V2): V2 {
    V2(Scaled(k.x, v.x), Scaled(k.y, v.y))
  }

  // The command that realises a serial law at crank speeds dqM, for the inverse ji of the map's Jacobian: the
  // equivalent crank torque cut to the limit, plus what the drivers' damping will take away.
  function Realise(ji: M2, l: Law, q: V2, dqM: V2, limit: real, margin: real): Crank {
    var dqS := Apply(ji, dqM);
    var tauS := SerialPd(l, q, dqS);
    var wanted := ApplyT(ji, tauS);
    var kd := DriverKd(ji, l.kd);
    var damping := Scaled2(kd, dqM);
    Crank(q, dqS, Plus(BoundV(wanted, limit), damping), Plus(wanted, damping), kd, tauS, margin, true)
  }

  function CrankOf(p: Problem, dqM: V2, warm: V2, l: Law, limit: real): Crank {
    var found := CppSerialAngles(p, warm, 20, TOL, TOL_OK);
    if !found.ok then Failed(found.q, 0.0)
    else if Singular(Jacobian(p, found.q)) then Failed(found.q, p.kin(found.q).margin)
    else Realise(Inverse(Jacobian(p, found.q)), l, found.q, dqM, limit, p.kin(found.q).margin)
  }

  // Any good command's feedforward is the crank torque of its serial law, cut to the limit, plus what the drivers'
  // damping takes away at the measured speeds.
  lemma GoodCrank(p: Problem, dqM: V2, warm: V2, l: Law, limit: real)
    ensures var c := CrankOf(p, dqM, warm, l, limit);
      c.ok ==>
      && c.qS == CppSerialAngles(p, warm, 20, 0.000000000001, 0.000001).q
      && !Singular(Jacobian(p, c.qS)) && Norm(p, c.qS) < 0.000001
      && c.dqS == Apply(Inverse(Jacobian(p, c.qS)), dqM)
      && c.tauS == SerialPd(l, c.qS, c.dqS)
      && c.tau == Plus(BoundV(ApplyT(Inverse(Jacobian(p, c.qS)), c.tauS), limit), Scaled2(c.kd, dqM))
  {
    FoundIsClose(p, warm, 20, TOL, TOL_OK);
  }

  // From the exact state: the bridge inverts the map at once, and realises the law at that state, unless it cannot
  // invert the Jacobian there.
  lemma ExactCrank(p: Problem, dqM: V2, q: V2, dq: V2, l: Law, limit: real)
    requires p.kin(q).f == p.qM && p.length(ORIGIN) == 0.0 && dqM == Apply(Jacobian(p, q), dq)
    ensures var c := CrankOf(p, dqM, q, l, limit);
      && c.qS == q && (c.ok <==> !Singular(Jacobian(p, q)))
      && (c.ok ==> c.tau == Plus(BoundV(ApplyT(Inverse(Jacobian(p, q)), SerialPd(l, q, dq)), limit),
          Scaled2(c.kd, dqM)))
  {
    ExactStart(p, q, 20);
    if !Singular(Jacobian(p, q)) {
      InverseUndoes(Jacobian(p, q), dq);
    }
  }

  // The off-diagonal damping and the undamped law give the crank torque plus the drivers' damping:
  // tau_m - Kd_m[0][1] dq_m[1] and its twin, one crank at a time.
  lemma RawTorque(a0: real, a1: real, b0: real, b1: real, kd: V2, n: V2, da: real, db: real)
    ensures Dot(a0, a1, n.x, n.y) - Scaled(Damping(a0, a1, kd, b0, b1), db)
         == Dot(a0, a1, n.x - Scaled(kd.x, Dot(a0, b0, da, db)), n.y - Scaled(kd.y, Dot(a1, b1, da, db)))
            + Scaled(Damping(a0, a1, kd, a0, a1), da)
  {
    var s, t := a0 * da + b0 * db, a1 * da + b1 * db;
    assert a0 * (n.x - kd.x * s) == a0 * n.x - a0 * kd.x * s;
    assert a1 * (n.y - kd.y * t) == a1 * n.y - a1 * kd.y * t;
    assert a0 * kd.x * s == a0 * kd.x * a0 * da + a0 * kd.x * b0 * db;
    assert a1 * kd.y * t == a1 * kd.y * a1 * da + a1 * kd.y * b1 * db;
  }

  lemma DotSwapped(a: real, b: real, x: real, y: real)
    ensures Dot(a, b, x, y) == Dot(b, a, y, x)
  {}

  // Clamping around the damping cuts what is left after it.
  lemma ClampAround(wanted: real, damping: real, limit: real)
    ensures Clamp(wanted + damping, damping - limit, damping + limit) == Bound(wanted, limit) + damping
  {}

  // The law of one joint without its own damping.
  function Undamped(kp: real, kd: real, qRef: real, dqRef: real, q: real, ff: real): real {
    kp * (qRef - q) + kd * dqRef + ff
  }

  lemma UndampedIsPd(kp: real, kd: real, qRef: real, dqRef: real, q: real, dq: real, ff: real)
    ensures Undamped(kp, kd, qRef, dqRef, q, ff) - Scaled(kd, dq) == Pull(kp, qRef, q) + Pull(kd, dqRef, dq) + ff
  {}

  function UndampedPd(l: Law, q: V2): V2 {
    V2(Undamped(l.kp.x, l.kd.x, l.qRef.x, l.dqRef.x, q.x, l.tauFf.x),
       Undamped(l.kp.y, l.kd.y, l.qRef.y, l.dqRef.y, q.y, l.tauFf.y))
  }

  lemma SerialIsDamped(l: Law, q: V2, dq: V2)
    ensures SerialPd(l, q, dq) == Minus(UndampedPd(l, q), Scaled2(l.kd, dq))
  {
    UndampedIsPd(l.kp.x, l.kd.x, l.qRef.x, l.dqRef.x, q.x, dq.x, l.tauFf.x);
    UndampedIsPd(l.kp.y, l.kd.y, l.qRef.y, l.dqRef.y, q.y, dq.y, l.tauFf.y);
  }

  // The crank torque without the drivers' damping, as the code puts it together.
  function Raw(ji: M2, kdM: M2, n: V2, dqM: V2): V2 {
    V2(ApplyT(ji, n).x - Scaled(kdM.xy, dqM.y), ApplyT(ji, n).y - Scaled(kdM.yx, dqM.x))
  }

  // Ji^T diag(kd) Ji
  function DampingMatrix(ji: M2, kd: V2): M2 {
    M2(Damping(ji.xx, ji.yx, kd, ji.xx, ji.yx), Damping(ji.xx, ji.yx, kd, ji.xy, ji.yy),
       Damping(ji.xy, ji.yy, kd, ji.xx, ji.yx), Damping(ji.xy, ji.yy, kd, ji.xy, ji.yy))
  }

  lemma RawIsWanted(ji: M2, l: Law, q: V2, dqM: V2)
    ensures Raw(ji, DampingMatrix(ji, l.kd), UndampedPd(l, q), dqM)
         == Plus(ApplyT(ji, SerialPd(l, q, Apply(ji, dqM))), Scaled2(DriverKd(ji, l.kd), dqM))
  {
    var n := UndampedPd(l, q);
    SerialIsDamped(l, q, Apply(ji, dqM));
    RawTorque(ji.xx, ji.yx, ji.xy, ji.yy, l.kd, n, dqM.x, dqM.y);
    RawTorque(ji.xy, ji.yy, ji.xx, ji.yx, l.kd, n, dqM.y, dqM.x);
    DotSwapped(ji.xy, ji.xx, dqM.y, dqM.x);
    DotSwapped(ji.yy, ji.yx, dqM.y, dqM.x);
  }

  // The drivers' gain of a crank is what the serial law's torque at it loses per unit of its own speed.
  lemma DriversDampTheirCrank(ji: M2, l: Law, q: V2, dqM: V2, more: real)
    ensures ApplyT(ji, SerialPd(l, q, Apply(ji, V2(dqM.x + more, dqM.y)))).x
         == ApplyT(ji, SerialPd(l, q, Apply(ji, dqM))).x - Scaled(DriverKd(ji, l.kd).x, more)
    ensures ApplyT(ji, SerialPd(l, q, Apply(ji, V2(dqM.x, dqM.y + more)))).y
         == ApplyT(ji, SerialPd(l, q, Apply(ji, dqM))).y - Scaled(DriverKd(ji, l.kd).y, more)
  {
    RawIsWanted(ji, l, q, dqM);
    RawIsWanted(ji, l, q, V2(dqM.x + more, dqM.y));
    RawIsWanted(ji, l, q, V2(dqM.x, dqM.y + more));
    ScaledSum(DriverKd(ji, l.kd).x, dqM.x, more);
    ScaledSum(DriverKd(ji, l.kd).y, dqM.y, more);
  }

  lemma ScaledSum(k: real, x: real, y: real)
    ensures Scaled(k, x + y) == Scaled(k, x) + Scaled(k, y)
  {}

  method MakeDampingMatrix(ji: M2, kd: V2) returns (kdM: M2)
    ensures kdM == DampingMatrix(ji, kd)
  {
    kdM := M2(0.0, 0.0, 0.0, 0.0);
    for a := 0 to 2
      invariant forall i: nat, k: nat :: i < a && k < 2 ==> kdM.Get(i, k) == DampingMatrix(ji, kd).Get(i, k)
    {
      for b := 0 to 2
        invariant forall i: nat, k: nat :: i < a && k < 2 ==> kdM.Get(i, k) == DampingMatrix(ji, kd).Get(i, k)
        invariant forall k: nat :: k < b ==> kdM.Get(a, k) == DampingMatrix(ji, kd).Get(a, k)
      {
        kdM := kdM.Set(a, b, Damping(ji.Get(0, a), ji.Get(1, a), kd, ji.Get(0, b), ji.Get(1, b)));
      }
    }
    assert kdM.Get(0, 0) == DampingMatrix(ji, kd).Get(0, 0) && kdM.Get(0, 1) == DampingMatrix(ji, kd).Get(0, 1);
    assert kdM.Get(1, 0) == DampingMatrix(ji, kd).Get(1, 0) && kdM.Get(1, 1) == DampingMatrix(ji, kd).Get(1, 1);
  }

  method SerialTorques(l: Law, q: V2, dqS: V2) returns (undamped: V2, tauS: V2)
    ensures undamped == UndampedPd(l, q)
    ensures tauS == SerialPd(l, q, dqS)
  {
    undamped, tauS := ORIGIN, ORIGIN;
    for k := 0 to 2
      invariant k > 0 ==> undamped.x == UndampedPd(l, q).x && tauS.x == SerialPd(l, q, dqS).x
      invariant k > 1 ==> undamped.y == UndampedPd(l, q).y && tauS.y == SerialPd(l, q, dqS).y
    {
      SerialIsDamped(l, q, dqS);
      undamped := undamped.Set(k, Undamped(l.kp.Get(k), l.kd.Get(k), l.qRef.Get(k), l.dqRef.Get(k), q.Get(k),
          l.tauFf.Get(k)));
      tauS := tauS.Set(k, undamped.Get(k) - Scaled(l.kd.Get(k), dqS.Get(k)));
    }
  }

  // The limit holds for what is left once the drivers have added their damping.
  method ClampAroundDamping(raw: V2, kd: V2, dqM: V2, limit: real, ghost wanted: V2) returns (tau: V2)
    requires raw == Plus(wanted, Scaled2(kd, dqM))
    ensures tau == Plus(BoundV(wanted, limit), Scaled2(kd, dqM))
  {
    tau := ORIGIN;
    for k := 0 to 2
      invariant k > 0 ==> tau.x == Bound(wanted.x, limit) + Scaled(kd.x, dqM.x)
      invariant k > 1 ==> tau.y == Bound(wanted.y, limit) + Scaled(kd.y, dqM.y)
    {
      var damping := Scaled(kd.Get(k), dqM.Get(k));
      ClampAround(wanted.Get(k), damping, limit);
      tau := tau.Set(k, Clamp(raw.Get(k), damping - limit, damping + limit));
    }
  }

  // crankCommand.
  method CrankCommand(p: Problem, dqM: V2, warm: V2, l: Law, limit: real) returns (out: Crank)
    requires limit >= 0.0
    ensures out == CrankOf(p, dqM, warm, l, limit)
  {
    out := Failed(ORIGIN, 0.0);
    var found, q, _ := SerialAngles(p, warm, 20, TOL, TOL_OK);
    out := out.(qS := q);
    if !found {
      return;
    }
    var k := p.kin(q);
    out := out.(margin := k.margin);
    if Singular(k.j) {
      return;
    }
    var ji := Inverse(k.j);
    out := out.(dqS := Apply(ji, dqM));
    var kdM := MakeDampingMatrix(ji, l.kd);
    var undamped, tauS := SerialTorques(l, q, out.dqS);
    out := out.(tauS := tauS);
    out := out.(kd := V2(kdM.xx, kdM.yy));
    RawIsWanted(ji, l, q, dqM);
    out := out.(tauRaw := Raw(ji, kdM, undamped, dqM));
    var tau := ClampAroundDamping(out.tauRaw, out.kd, dqM, limit, ApplyT(ji, tauS));
    out := out.(tau := tau, ok := true);
  }
}
