/** The simulated T1's cranks (crank_state and serial_command in t1.py), and what is left of the bridge's serial PD law
once it has gone through both maps.
*/
module CrankRoundTrip {
  import opened Numbers
  import opened Gates
  import opened Plane
  import opened Newton
  import opened Ankle
  import opened Cranks

  const CRANK_TAU_MAX := 43.0

  // Which of an ankle's two slots.
  function Which(slot: nat): (k: nat)
    requires IsAnkle(slot)
    ensures k < 2 && Slot(SideOf(slot), k) == slot
  {
    slot - Slot(SideOf(slot), 0)
  }

  function SimKin(m: Maps, serial: seq<Motor>, side: nat): Kin
    requires side < 2 && |serial| == JOINTS
  {
    KinOf(m, side)(Two(serial, side))
  }

  function SimSpeeds(m: Maps, serial: seq<Motor>, side: nat): V2
    requires side < 2 && |serial| == JOINTS
  {
    Apply(SimKin(m, serial, side).j, TwoSpeeds(serial, side))
  }

  function SimCrank(m: Maps, serial: seq<Motor>, side: nat, k: nat): Motor
    requires side < 2 && k < 2 && |serial| == JOINTS
  {
    Motor(SimKin(m, serial, side).f.Get(k), SimSpeeds(m, serial, side).Get(k))
  }

  // motor_state_parallel of a robot in a serial state.
  function SimState(m: Maps, serial: seq<Motor>): seq<Motor>
    requires |serial| == JOINTS
  {
    seq(JOINTS, i requires 0 <= i < JOINTS =>
        if IsAnkle(i) then SimCrank(m, serial, SideOf(i), Which(i)) else serial[i])
  }

  lemma SimStateAt(m: Maps, serial: seq<Motor>, side: nat, k: nat)
    requires side < 2 && k < 2 && |serial| == JOINTS
    ensures SimState(m, serial)[Slot(side, k)] == SimCrank(m, serial, side, k)
  {
    SlotIs(side, k);
  }

  lemma SlotIs(side: nat, k: nat)
    requires side < 2 && k < 2
    ensures IsAnkle(Slot(side, k)) && SideOf(Slot(side, k)) == side && Which(Slot(side, k)) == k
  {}

  // Writes the two slots of one ankle.
  method WriteAnkle<T>(r: array<T>, side: nat, a: T, b: T, ghost want: seq<T>, ghost was: seq<T>)
    requires r.Length == |want| == |was| == JOINTS && side < 2
    requires a == want[Slot(side, 0)] && b == want[Slot(side, 1)]
    requires forall i :: 0 <= i < JOINTS ==> r[i] == if IsAnkle(i) && SideOf(i) < side then want[i] else was[i]
    modifies r
    ensures forall i :: 0 <= i < JOINTS ==> r[i] == if IsAnkle(i) && SideOf(i) < side + 1 then want[i] else was[i]
  {
    r[Slot(side, 0)] := a;
    r[Slot(side, 1)] := b;
  }

  method CrankState(m: Maps, serial: seq<Motor>) returns (r: array<Motor>)
    requires |serial| == JOINTS
    ensures fresh(r) && r[..] == SimState(m, serial)
  {
    r := new Motor[JOINTS](i requires 0 <= i < JOINTS => serial[i]);
    ghost var want := SimState(m, serial);
    for side := 0 to 2
      invariant forall i :: 0 <= i < JOINTS ==> r[i] == if IsAnkle(i) && SideOf(i) < side then want[i] else serial[i]
    {
      var k, dq := SimKin(m, serial, side), SimSpeeds(m, serial, side);
      SimStateAt(m, serial, side, 0);
      SimStateAt(m, serial, side, 1);
      WriteAnkle(r, side, Motor(k.f.x, dq.x), Motor(k.f.y, dq.y), want, serial);
    }
    assert r[..] == want;
  }

  // The torque of both cranks' motors, cut to what a motor can do.
  function SimTorque(m: Maps, cmd: seq<Cmd>, serial: seq<Motor>, side: nat): V2
    requires side < 2 && |cmd| == JOINTS && |serial| == JOINTS
  {
    BoundV(V2(Torque(cmd[Slot(side, 0)], SimCrank(m, serial, side, 0)),
        Torque(cmd[Slot(side, 1)], SimCrank(m, serial, side, 1))),
           CRANK_TAU_MAX)
  }

  function SimSerialTorque(m: Maps, cmd: seq<Cmd>, serial: seq<Motor>, side: nat): V2
    requires side < 2 && |cmd| == JOINTS && |serial| == JOINTS
  {
    ApplyT(SimKin(m, serial, side).j, SimTorque(m, cmd, serial, side))
  }

  // serial_command: the serial joints' command a crank command comes to.
  function SimSerial(m: Maps, cmd: seq<Cmd>, serial: seq<Motor>): seq<Cmd>
    requires |cmd| == JOINTS && |serial| == JOINTS
  {
    seq(JOINTS, i requires 0 <= i < JOINTS =>
      if IsAnkle(i) then Cmd(0.0, 0.0, 0.0, 0.0, SimSerialTorque(m, cmd, serial, SideOf(i)).Get(Which(i))) else cmd[i])
  }

  lemma SimSerialAt(m: Maps, cmd: seq<Cmd>, serial: seq<Motor>, side: nat, k: nat)
    requires side < 2 && k < 2 && |cmd| == JOINTS && |serial| == JOINTS
    ensures SimSerial(m, cmd, serial)[Slot(side, k)] == Cmd(0.0, 0.0, 0.0, 0.0,
        SimSerialTorque(m, cmd, serial, side).Get(k))
  {
    SlotIs(side, k);
  }

  method SideTorque(m: Maps, cmd: seq<Cmd>, serial: seq<Motor>, side: nat) returns (tau: V2)
    requires side < 2 && |cmd| == JOINTS && |serial| == JOINTS
    ensures tau == SimSerialTorque(m, cmd, serial, side)
  {
    var a, b, k, dq := Slot(side, 0), Slot(side, 1), SimKin(m, serial, side), SimSpeeds(m, serial, side);
    tau := V2(Torque(cmd[a], Motor(k.f.x, dq.x)), Torque(cmd[b], Motor(k.f.y, dq.y)));
    tau := ApplyT(k.j, BoundV(tau, CRANK_TAU_MAX));
  }

  method SerialCommand(m: Maps, cmd: seq<Cmd>, serial: seq<Motor>) returns (out: array<Cmd>)
    requires |cmd| == JOINTS && |serial| == JOINTS
    ensures fresh(out) && out[..] == SimSerial(m, cmd, serial)
  {
    out := new Cmd[JOINTS](i requires 0 <= i < JOINTS => cmd[i]);
    ghost var want := SimSerial(m, cmd, serial);
    for side := 0 to 2
      invariant forall i :: 0 <= i < JOINTS ==> out[i] == if IsAnkle(i) && SideOf(i) < side then want[i] else cmd[i]
    {
      var tau := SideTorque(m, cmd, serial, side);
      SimSerialAt(m, cmd, serial, side, 0);
      SimSerialAt(m, cmd, serial, side, 1);
      WriteAnkle(out, side, Cmd(0.0, 0.0, 0.0, 0.0, tau.x), Cmd(0.0, 0.0, 0.0, 0.0, tau.y), want, cmd);
    }
    assert out[..] == want;
  }

  // --- A robot wired any way ------------------------------------------------------------------------------

  // What the bridge reads from a robot whose cranks sit in other slots and turn the other way.
  function Wire(w: Wiring, xs: seq<Motor>): seq<Motor>
    requires |xs| == JOINTS
  {
    seq(JOINTS, i requires 0 <= i < JOINTS =>
      if IsAnkle(i) then
        var c := CrankIn(w, i);
        Motor(Signed(w.sign.Get(c), xs[Slot(SideOf(i), c)].q), Signed(w.sign.Get(c), xs[Slot(SideOf(i), c)].dq))
      else xs[i])
  }

  // What the cranks of that robot get of the bridge's command.
  function Unwire(w: Wiring, cmd: seq<Cmd>): seq<Cmd>
    requires |cmd| == JOINTS
  {
    seq(JOINTS, i requires 0 <= i < JOINTS =>
      if IsAnkle(i) then
        var x, s := cmd[CrankSlot(w, SideOf(i), Which(i))], w.sign.Get(Which(i));
        Cmd(Signed(s, x.q), Signed(s, x.dq), x.kp, x.kd, Signed(s, x.tau))
      else cmd[i])
  }

  // The simulated robot's own wiring changes nothing.
  lemma SimWiring(w: Wiring, xs: seq<Motor>, cmd: seq<Cmd>)
    requires !w.swap && w.sign == V2(1.0, 1.0) && |xs| == JOINTS && |cmd| == JOINTS
    ensures Wire(w, xs) == xs && Unwire(w, cmd) == cmd
  {
    assert forall i :: 0 <= i < JOINTS ==> Wire(w, xs)[i] == xs[i];
    assert forall i :: 0 <= i < JOINTS ==> Unwire(w, cmd)[i] == cmd[i];
  }

  lemma WireAt(w: Wiring, xs: seq<Motor>, side: nat, c: nat)
    requires |xs| == JOINTS && side < 2 && c < 2
    ensures var x := xs[Slot(side, c)];
      Wire(w, xs)[CrankSlot(w, side, c)] == Motor(Signed(w.sign.Get(c), x.q), Signed(w.sign.Get(c), x.dq))
  {}

  lemma UnwireAt(w: Wiring, cmd: seq<Cmd>, side: nat, c: nat)
    requires |cmd| == JOINTS && side < 2 && c < 2
    ensures var x, s := cmd[CrankSlot(w, side, c)], w.sign.Get(c);
      Unwire(w, cmd)[Slot(side, c)] == Cmd(Signed(s, x.q), Signed(s, x.dq), x.kp, x.kd, Signed(s, x.tau))
  {
    SlotIs(side, c);
  }

  lemma MappedAt(w: Wiring, m: Maps, parallel: seq<Motor>, serial: seq<Motor>, cmd: seq<Cmd>, side: nat, c: nat)
    requires |serial| == JOINTS && |cmd| == JOINTS && |parallel| > Slot(1, 1) && side < 2 && c < 2
    ensures Mapped(w, m, parallel, serial, cmd)[CrankSlot(w, side, c)]
         == CrankEntry(w, SideCrank(w, m, parallel, serial, cmd, side), c, parallel[CrankSlot(w, side, c)].q)
  {}

  lemma SignTwice(s: real, x: real)
    requires s == 1.0 || s == -1.0
    ensures Signed(s, Signed(s, x)) == x
  {}

  // --- The motors' torque ------------------------------------------------------------------------------------

  // What a motor turning s times the crank's way applies at its measured speed dq, for a crank torque t: the drivers'
  // damping was compensated for a sign of 1 or -1.
  function DriveTorque(s: real, t: real, kd: real, dq: real): real {
    Signed(s, t) + Scaled(Scaled(kd, dq), Excess(s))
  }

  function Excess(s: real): real {
    s * s - 1.0
  }

  lemma EntryDrives(s: real, q: real, dq: real, kd: real, t: real)
    ensures Torque(Cmd(q, 0.0, 0.0, kd, Signed(s, t + Scaled(kd, Signed(s, dq)))), Motor(q, dq))
        == DriveTorque(s, t, kd, dq)
  {
    assert Pull(0.0, q, q) == 0.0;
    assert Pull(kd, 0.0, dq) == -(kd * dq);
    assert s * (t + kd * (s * dq)) == s * t + kd * dq * (s * s);
  }

  lemma UnitDrive(s: real, t: real, kd: real, dq: real)
    requires s == 1.0 || s == -1.0
    ensures DriveTorque(s, t, kd, dq) == Signed(s, t)
  {}

  lemma WithinEitherWay(s: real, x: real, limit: real)
    requires (s == 1.0 || s == -1.0) && Within(x, limit)
    ensures Within(Signed(s, x), limit)
  {}

  // At the measured speed the drivers' damping and the feedforward together are the crank torque of the law.
  lemma DriverTorque(s: real, q: real, dq: real, kd: real, wanted: real)
    requires s == 1.0 || s == -1.0
    ensures Torque(Cmd(q, 0.0, 0.0, kd, Signed(s, wanted + Scaled(kd, Signed(s, dq)))), Motor(q, dq))
        == Signed(s, wanted)
  {
    EntryDrives(s, q, dq, kd, wanted);
    UnitDrive(s, wanted, kd, dq);
  }

  // The crank torque of a good command's law, before any cut.
  function LawTorque(kin: V2 -> Kin, c: Crank): V2 {
    var j := kin(c.qS).j;
    if Det(j) != 0.0 then ApplyT(Inverse(j), c.tauS) else ORIGIN
  }

  lemma SideRealises(w: Wiring, m: Maps, parallel: seq<Motor>, serial: seq<Motor>, cmd: seq<Cmd>, side: nat)
    requires |serial| == JOINTS && |cmd| == JOINTS && side < 2 && SideOk(w, m, parallel, serial, cmd, side)
    ensures var c := SideCrank(w, m, parallel, serial, cmd, side);
      c.tau == Plus(BoundV(LawTorque(KinOf(m, side), c), w.tauLimit), Scaled2(c.kd, CrankSpeeds(w, parallel, side)))
  {
    var p := Problem(KinOf(m, side), CrankAngles(w, parallel, side), m.length);
    GoodCrank(p, CrankSpeeds(w, parallel, side), Two(serial, side), LawOf(cmd, side), w.tauLimit);
  }

  lemma CrankDrives(w: Wiring, c: Crank, k: nat, x: Motor, t: real)
    requires k < 2 && c.tau.Get(k) == t + Scaled(c.kd.Get(k), Signed(w.sign.Get(k), x.dq))
    ensures Torque(CrankEntry(w, c, k, x.q), x) == DriveTorque(w.sign.Get(k), t, c.kd.Get(k), x.dq)
  {
    EntryDrives(w.sign.Get(k), x.q, x.dq, c.kd.Get(k), t);
  }

  // Whatever the state and the signs: what every crank motor applies.
  lemma MotorTorque(w: Wiring, m: Maps, parallel: seq<Motor>, serial: seq<Motor>, cmd: seq<Cmd>, side: nat, k: nat)
    requires |serial| == JOINTS && |cmd| == JOINTS && |parallel| > Slot(1, 1) && side < 2 && k < 2
    requires SideOk(w, m, parallel, serial, cmd, side)
    ensures var c, slot := SideCrank(w, m, parallel, serial, cmd, side), CrankSlot(w, side, k);
      Torque(Mapped(w, m, parallel, serial, cmd)[slot], parallel[slot])
      == DriveTorque(w.sign.Get(k), Bound(LawTorque(KinOf(m, side), c).Get(k), w.tauLimit),
          c.kd.Get(k), parallel[slot].dq)
  {
    var c, slot := SideCrank(w, m, parallel, serial, cmd, side), CrankSlot(w, side, k);
    SideRealises(w, m, parallel, serial, cmd, side);
    MappedAt(w, m, parallel, serial, cmd, side, k);
    CrankDrives(w, c, k, parallel[slot], Bound(LawTorque(KinOf(m, side), c).Get(k), w.tauLimit));
  }

  // At signs 1 and -1 no crank motor applies more than the limit, whatever the state.
  lemma MotorWithinLimit(w: Wiring, m: Maps, parallel: seq<Motor>, serial: seq<Motor>, cmd: seq<Cmd>, side: nat, k: nat)
    requires |serial| == JOINTS && |cmd| == JOINTS && |parallel| > Slot(1, 1) && side < 2 && k < 2
    requires UnitSigns(w) && w.tauLimit >= 0.0
    ensures var slot := CrankSlot(w, side, k);
      BothMap(w, m, parallel, serial, cmd) ==>
      Within(Torque(Mapped(w, m, parallel, serial, cmd)[slot], parallel[slot]), w.tauLimit)
  {
    if BothMap(w, m, parallel, serial, cmd) {
      assert SideOk(w, m, parallel, serial, cmd, side);
      MotorTorque(w, m, parallel, serial, cmd, side, k);
      var c := SideCrank(w, m, parallel, serial, cmd, side);
      UnitWithin(w.sign.Get(k), LawTorque(KinOf(m, side), c).Get(k), c.kd.Get(k),
          parallel[CrankSlot(w, side, k)].dq, w.tauLimit);
    }
  }

  lemma UnitWithin(s: real, t: real, kd: real, dq: real, limit: real)
    requires (s == 1.0 || s == -1.0) && limit >= 0.0
    ensures Within(DriveTorque(s, Bound(t, limit), kd, dq), limit)
  {
    UnitDrive(s, Bound(t, limit), kd, dq);
    BoundWithin(t, limit);
    WithinEitherWay(s, Bound(t, limit), limit);
  }

  // --- The round trip -------------------------------------------------------------------------------------------

  // A robot whose firmware reports its serial state.
  ghost predicate Reported(w: Wiring, m: Maps, serial: seq<Motor>) {
    |serial| == JOINTS && w.tauLimit >= 0.0 && w.maxError >= 0.0 && m.length(ORIGIN) == 0.0
  }

  // And whose cranks are wired as the config says, one turn for one.
  ghost predicate Faithful(w: Wiring, m: Maps, serial: seq<Motor>) {
    Reported(w, m, serial) && UnitSigns(w)
  }

  function Seen(w: Wiring, m: Maps, serial: seq<Motor>): seq<Motor>
    requires |serial| == JOINTS
  {
    Wire(w, SimState(m, serial))
  }

  // The bridge turns what it reads back into the map's convention.
  lemma WiredCranks(w: Wiring, xs: seq<Motor>, side: nat)
    requires UnitSigns(w) && |xs| == JOINTS && side < 2
    ensures CrankAngles(w, Wire(w, xs), side) == Two(xs, side)
    ensures CrankSpeeds(w, Wire(w, xs), side) == TwoSpeeds(xs, side)
  {
    WireAt(w, xs, side, 0);
    WireAt(w, xs, side, 1);
    SignTwice(w.sign.x, xs[Slot(side, 0)].q);
    SignTwice(w.sign.y, xs[Slot(side, 1)].q);
    SignTwice(w.sign.x, xs[Slot(side, 0)].dq);
    SignTwice(w.sign.y, xs[Slot(side, 1)].dq);
  }

  // The crank torque the serial law asks for.
  function WantedTorque(m: Maps, serial: seq<Motor>, cmd: seq<Cmd>, side: nat): V2
    requires side < 2 && |serial| == JOINTS && |cmd| == JOINTS && Det(SimKin(m, serial, side).j) != 0.0
  {
    ApplyT(Inverse(SimKin(m, serial, side).j), SerialLaw(serial, cmd, side))
  }

  function SerialLaw(serial: seq<Motor>, cmd: seq<Cmd>, side: nat): V2
    requires side < 2 && |serial| == JOINTS && |cmd| == JOINTS
  {
    SerialPd(LawOf(cmd, side), Two(serial, side), TwoSpeeds(serial, side))
  }

  // The bridge finds the very state, and maps exactly the ankles whose Jacobian it can invert.
  lemma SideRealised(w: Wiring, m: Maps, parallel: seq<Motor>, serial: seq<Motor>, cmd: seq<Cmd>, side: nat)
    requires Reported(w, m, serial) && |cmd| == JOINTS && side < 2 && |parallel| > Slot(1, 1)
    requires CrankAngles(w, parallel, side) == SimKin(m, serial, side).f
    requires CrankSpeeds(w, parallel, side) == SimSpeeds(m, serial, side)
    ensures SideOk(w, m, parallel, serial, cmd, side) <==> !Singular(SimKin(m, serial, side).j)
    ensures SideOk(w, m, parallel, serial, cmd, side) ==>
      var c := SideCrank(w, m, parallel, serial, cmd, side);
      c.tau == Plus(BoundV(WantedTorque(m, serial, cmd, side), w.tauLimit), Scaled2(c.kd, SimSpeeds(m, serial, side)))
  {
    var p := Problem(KinOf(m, side), CrankAngles(w, parallel, side), m.length);
    ExactCrank(p, CrankSpeeds(w, parallel, side), Two(serial, side), TwoSpeeds(serial, side),
        LawOf(cmd, side), w.tauLimit);
  }

  // What a crank gets of a mapped entry is the wanted torque, for either sign.
  lemma EntryTorque(w: Wiring, c: Crank, k: nat, x: Motor, q: real, wanted: real)
    requires UnitSigns(w) && k < 2 && q == Signed(w.sign.Get(k), x.q)
    requires c.tau.Get(k) == wanted + Scaled(c.kd.Get(k), x.dq)
    ensures var e, s := CrankEntry(w, c, k, q), w.sign.Get(k);
      Torque(Cmd(Signed(s, e.q), Signed(s, e.dq), e.kp, e.kd, Signed(s, e.tau)), x) == wanted
  {
    SignTwice(w.sign.Get(k), c.tau.Get(k));
    SignTwice(w.sign.Get(k), x.q);
    SignTwice(1.0, c.tau.Get(k));
    DriverTorque(1.0, x.q, x.dq, c.kd.Get(k), wanted);
    assert Signed(1.0, wanted + Scaled(c.kd.Get(k), Signed(1.0, x.dq))) == c.tau.Get(k);
  }

  lemma UnwiredTorque(w: Wiring, c: Crank, side: nat, k: nat, x: Motor, mapped: seq<Cmd>, q: real, wanted: real)
    requires UnitSigns(w) && |mapped| == JOINTS && side < 2 && k < 2 && q == Signed(w.sign.Get(k), x.q)
    requires mapped[CrankSlot(w, side, k)] == CrankEntry(w, c, k, q)
    requires c.tau.Get(k) == wanted + Scaled(c.kd.Get(k), x.dq)
    ensures Torque(Unwire(w, mapped)[Slot(side, k)], x) == wanted
  {
    UnwireAt(w, mapped, side, k);
    EntryTorque(w, c, k, x, q, wanted);
  }

  lemma SeenAt(w: Wiring, m: Maps, serial: seq<Motor>, side: nat, k: nat)
    requires |serial| == JOINTS && side < 2 && k < 2
    ensures Seen(w, m, serial)[CrankSlot(w, side, k)].q == Signed(w.sign.Get(k), SimCrank(m, serial, side, k).q)
  {
    WireAt(w, SimState(m, serial), side, k);
    SimStateAt(m, serial, side, k);
  }

  // parallel shows the bridge the robot's cranks of one side.
  ghost predicate Shows(w: Wiring, m: Maps, serial: seq<Motor>, parallel: seq<Motor>, side: nat)
    requires side < 2 && |serial| == JOINTS && |parallel| > Slot(1, 1)
  {
    && CrankAngles(w, parallel, side) == SimKin(m, serial, side).f
    && CrankSpeeds(w, parallel, side) == SimSpeeds(m, serial, side)
    && forall k: nat :: k < 2 ==>
         parallel[CrankSlot(w, side, k)].q == Signed(w.sign.Get(k), SimCrank(m, serial, side, k).q)
  }

  lemma SeenShows(w: Wiring, m: Maps, serial: seq<Motor>, side: nat)
    requires Faithful(w, m, serial) && side < 2
    ensures Shows(w, m, serial, Seen(w, m, serial), side)
  {
    WiredCranks(w, SimState(m, serial), side);
    SimStateAt(m, serial, side, 0);
    SimStateAt(m, serial, side, 1);
    forall k: nat | k < 2
      ensures Seen(w, m, serial)[CrankSlot(w, side, k)].q == Signed(w.sign.Get(k), SimCrank(m, serial, side, k).q)
    {
      SeenAt(w, m, serial, side, k);
    }
  }

  lemma CrankGets(w: Wiring, m: Maps, parallel: seq<Motor>, serial: seq<Motor>, cmd: seq<Cmd>, mapped: seq<Cmd>,
      side: nat, k: nat)
    requires Faithful(w, m, serial) && |cmd| == |mapped| == JOINTS && side < 2 && k < 2 && |parallel| > Slot(1, 1)
    requires Shows(w, m, serial, parallel, side) && SideOk(w, m, parallel, serial, cmd, side)
    ensures !Singular(SimKin(m, serial, side).j)
    ensures mapped[CrankSlot(w, side, k)] ==
            CrankEntry(w, SideCrank(w, m, parallel, serial, cmd, side), k, parallel[CrankSlot(w, side, k)].q) ==>
      Torque(Unwire(w, mapped)[Slot(side, k)], SimCrank(m, serial, side, k)) ==
      Bound(WantedTorque(m, serial, cmd, side).Get(k), w.tauLimit)
  {
    SideRealised(w, m, parallel, serial, cmd, side);
    if mapped[CrankSlot(w, side, k)]
        == CrankEntry(w, SideCrank(w, m, parallel, serial, cmd, side), k, parallel[CrankSlot(w, side, k)].q) {
      UnwiredTorque(w, SideCrank(w, m, parallel, serial, cmd, side), side, k, SimCrank(m, serial, side, k), mapped,
                    parallel[CrankSlot(w, side, k)].q, Bound(WantedTorque(m, serial, cmd, side).Get(k), w.tauLimit));
    }
  }

  lemma BoundTwice(x: real, a: real, b: real)
    requires a >= 0.0 && b >= 0.0
    ensures Bound(Bound(x, a), b) == Bound(x, Min(a, b))
  {}

  // The torques of an ankle in a command.
  function Torques(cmd: seq<Cmd>, side: nat): V2
    requires |cmd| == JOINTS && side < 2
  {
    V2(cmd[Slot(side, 0)].tau, cmd[Slot(side, 1)].tau)
  }

  function Back(w: Wiring, m: Maps, serial: seq<Motor>, cmd: seq<Cmd>): seq<Cmd>
    requires |serial| == JOINTS && |cmd| == JOINTS
  {
    SimSerial(m, Unwire(w, Mapped(w, m, Seen(w, m, serial), serial, cmd)), serial)
  }

  lemma CutsMeet(m: Maps, serial: seq<Motor>, cmd: seq<Cmd>, sent: seq<Cmd>, side: nat, tauLimit: real)
    requires |serial| == |cmd| == |sent| == JOINTS && side < 2 && tauLimit >= 0.0
    requires !Singular(SimKin(m, serial, side).j)
    requires forall k: nat :: k < 2 ==>
      Torque(sent[Slot(side, k)], SimCrank(m, serial, side, k)) == Bound(WantedTorque(m, serial, cmd, side).Get(k),
          tauLimit)
    ensures var limit, wanted := Min(tauLimit, CRANK_TAU_MAX), WantedTorque(m, serial, cmd, side);
      && Torques(SimSerial(m, sent, serial), side) == ApplyT(SimKin(m, serial, side).j, BoundV(wanted, limit))
      && (Within(wanted.x, limit) && Within(wanted.y, limit) ==>
          Torques(SimSerial(m, sent, serial), side) == SerialLaw(serial, cmd, side))
  {
    var wanted := WantedTorque(m, serial, cmd, side);
    assert wanted.Get(0) == wanted.x && wanted.Get(1) == wanted.y;
    BoundTwice(wanted.x, tauLimit, CRANK_TAU_MAX);
    BoundTwice(wanted.y, tauLimit, CRANK_TAU_MAX);
    SimSerialAt(m, sent, serial, side, 0);
    SimSerialAt(m, sent, serial, side, 1);
    TransposeUndoes(SimKin(m, serial, side).j, SerialLaw(serial, cmd, side));
  }

  // The mapping succeeds exactly when both Jacobians can be inverted at the robot's state.
  ghost predicate Invertible(m: Maps, serial: seq<Motor>)
    requires |serial| == JOINTS
  {
    forall side: nat :: side < 2 ==> !Singular(SimKin(m, serial, side).j)
  }

  lemma BothRealised(w: Wiring, m: Maps, parallel: seq<Motor>, serial: seq<Motor>, cmd: seq<Cmd>)
    requires Reported(w, m, serial) && |cmd| == JOINTS && |parallel| > Slot(1, 1)
    requires Shows(w, m, serial, parallel, 0) && Shows(w, m, serial, parallel, 1)
    ensures BothMap(w, m, parallel, serial, cmd) <==> Invertible(m, serial)
  {
    SideRealised(w, m, parallel, serial, cmd, 0);
    SideRealised(w, m, parallel, serial, cmd, 1);
    InvertibleSides(m, serial);
  }

  lemma InvertibleSides(m: Maps, serial: seq<Motor>)
    requires |serial| == JOINTS
    ensures Invertible(m, serial) <==> !Singular(SimKin(m, serial, 0).j) && !Singular(SimKin(m, serial, 1).j)
  {}

  lemma RoundTripHappensIff(w: Wiring, m: Maps, serial: seq<Motor>, cmd: seq<Cmd>)
    requires Faithful(w, m, serial) && |cmd| == JOINTS
    ensures BothMap(w, m, Seen(w, m, serial), serial, cmd) <==> Invertible(m, serial)
  {
    SeenShows(w, m, serial, 0);
    SeenShows(w, m, serial, 1);
    BothRealised(w, m, Seen(w, m, serial), serial, cmd);
  }

  // For either crank sign and swap: the robot's serial torque is J^T of the crank torque J^-T tau_s cut to the smaller
  // limit, hence exactly the serial PD torque tau_s where no limit bites.
  lemma RoundTrip(w: Wiring, m: Maps, serial: seq<Motor>, cmd: seq<Cmd>, side: nat)
    requires Faithful(w, m, serial) && |cmd| == JOINTS && side < 2 && Invertible(m, serial)
    ensures BothMap(w, m, Seen(w, m, serial), serial, cmd)
    ensures var limit, wanted := Min(w.tauLimit, 43.0), WantedTorque(m, serial, cmd, side);
      && Torques(Back(w, m, serial, cmd), side) == ApplyT(SimKin(m, serial, side).j, BoundV(wanted, limit))
      && (Within(wanted.x, limit) && Within(wanted.y, limit) ==>
          Torques(Back(w, m, serial, cmd), side) == SerialLaw(serial, cmd, side))
  {
    var parallel := Seen(w, m, serial);
    var mapped := Mapped(w, m, parallel, serial, cmd);
    RoundTripHappensIff(w, m, serial, cmd);
    assert SideOk(w, m, parallel, serial, cmd, side);
    SeenShows(w, m, serial, side);
    forall k: nat | k < 2
      ensures Torque(Unwire(w, mapped)[Slot(side, k)], SimCrank(m, serial, side, k))
           == Bound(WantedTorque(m, serial, cmd, side).Get(k), w.tauLimit)
    {
      MappedAt(w, m, parallel, serial, cmd, side, k);
      CrankGets(w, m, parallel, serial, cmd, mapped, side, k);
    }
    CutsMeet(m, serial, cmd, Unwire(w, mapped), side, w.tauLimit);
  }

  // No other joint's command is touched on the way.
  lemma OthersUntouched(w: Wiring, m: Maps, serial: seq<Motor>, cmd: seq<Cmd>, slot: nat)
    requires |serial| == JOINTS && |cmd| == JOINTS && slot < JOINTS && !IsAnkle(slot)
    ensures Back(w, m, serial, cmd)[slot] == cmd[slot]
  {}

  // In joints: pitch 15 and roll 16 of the left ankle, 21 and 22 of the right get exactly the torque their serial
  // commands ask for, and no gains.
  lemma RoundTripPd(w: Wiring, m: Maps, serial: seq<Motor>, cmd: seq<Cmd>, side: nat, k: nat)
    requires Faithful(w, m, serial) && |cmd| == JOINTS && side < 2 && k < 2 && Invertible(m, serial)
    requires var limit, wanted := Min(w.tauLimit, 43.0), WantedTorque(m, serial, cmd, side);
      Within(wanted.x, limit) && Within(wanted.y, limit)
    ensures var n, back := 15 + 6 * side + k, Back(w, m, serial, cmd);
      back[n] == Cmd(0.0, 0.0, 0.0, 0.0,
                     Pull(cmd[n].kp, cmd[n].q, serial[n].q) + Pull(cmd[n].kd, cmd[n].dq, serial[n].dq) + cmd[n].tau)
  {
    RoundTrip(w, m, serial, cmd, side);
    SimSerialAt(m, Unwire(w, Mapped(w, m, Seen(w, m, serial), serial, cmd)), serial, side, k);
    assert Torques(Back(w, m, serial, cmd), side) == SerialLaw(serial, cmd, side);
  }

  // What a mapped motor is told besides its torque: to hold the angle it is at with no stiffness, in the slot its
  // wiring says.
  lemma MappedHolds(w: Wiring, m: Maps, parallel: seq<Motor>, serial: seq<Motor>, cmd: seq<Cmd>, side: nat, k: nat)
    requires |serial| == JOINTS && |cmd| == JOINTS && |parallel| > 22 && side < 2 && k < 2
    ensures var slot := 15 + 6 * side + (if w.swap then 1 - k else k);
      var e := Mapped(w, m, parallel, serial, cmd)[slot];
      && e.q == parallel[slot].q && e.dq == 0.0 && e.kp == 0.0
      && e.kd == SideCrank(w, m, parallel, serial, cmd, side).kd.Get(k)
  {
    MappedAt(w, m, parallel, serial, cmd, side, k);
  }

  // An ankle is mapped only on an estimate within the configured distance of what the firmware reports.
  lemma MapsCloseEstimatesIff(w: Wiring, m: Maps, parallel: seq<Motor>, serial: seq<Motor>, cmd: seq<Cmd>, side: nat)
    requires |serial| == JOINTS && |cmd| == JOINTS && |parallel| > 22 && side < 2
    ensures var c, p := SideCrank(w, m, parallel, serial, cmd, side), 15 + 6 * side;
      SideOk(w, m, parallel, serial, cmd, side) <==>
      c.ok && Within(c.qS.x - serial[p].q, w.maxError) && Within(c.qS.y - serial[p + 1].q, w.maxError)
  {}
}
