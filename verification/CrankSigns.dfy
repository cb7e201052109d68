/** The crank signs of the T1's config (parallel_ankle_crank_sign, read without a check in T1_bridge.cpp): the torque
limit of the crank motors and the round trip through the simulator both need signs of 1 and -1, and nothing else does.
*/
module CrankSigns {
  import opened Numbers
  import opened Gates
  import opened Plane
  import opened Newton
  import opened Ankle
  import opened Cranks
  import opened CrankRoundTrip

  lemma NonUnit(s: real)
    ensures Excess(s) == 0.0 <==> s == 1.0 || s == -1.0
  {
    assert s * s - 1.0 == (s - 1.0) * (s + 1.0);
  }

  // --- The torque limit ------------------------------------------------------------------------------------

  // The same crank angles, at other speeds.
  ghost predicate SamePose(moved: seq<Motor>, parallel: seq<Motor>) {
    |moved| == |parallel| && forall i :: 0 <= i < |moved| ==> moved[i].q == parallel[i].q
  }

  // What the motor of a crank applies under a mapped command.
  function Applied(w: Wiring, m: Maps, parallel: seq<Motor>, serial: seq<Motor>, cmd: seq<Cmd>, side: nat, k: nat): real
    requires |serial| == JOINTS && |cmd| == JOINTS && |parallel| > Slot(1, 1) && side < 2 && k < 2
  {
    Torque(Mapped(w, m, parallel, serial, cmd)[CrankSlot(w, side, k)], parallel[CrankSlot(w, side, k)])
  }

  lemma AppliedIs(w: Wiring, m: Maps, parallel: seq<Motor>, serial: seq<Motor>, cmd: seq<Cmd>, side: nat, k: nat,
      motor: Motor, entry: Cmd)
    requires |serial| == JOINTS && |cmd| == JOINTS && |parallel| > Slot(1, 1) && side < 2 && k < 2
    requires parallel[CrankSlot(w, side, k)] == motor
    requires CrankEntry(w, SideCrank(w, m, parallel, serial, cmd, side), k, motor.q) == entry
    ensures Applied(w, m, parallel, serial, cmd, side, k) == Torque(entry, motor)
  {
    MappedAt(w, m, parallel, serial, cmd, side, k);
  }

  // The mapping succeeds and no crank motor applies more than the limit.
  ghost predicate KeepsLimit(w: Wiring, m: Maps, parallel: seq<Motor>, serial: seq<Motor>, cmd: seq<Cmd>)
    requires |serial| == JOINTS && |cmd| == JOINTS && |parallel| > Slot(1, 1)
  {
    && BothMap(w, m, parallel, serial, cmd)
    && forall side: nat, k: nat :: side < 2 && k < 2 ==>
         Within(Applied(w, m, parallel, serial, cmd, side, k), w.tauLimit)
  }

  // The command damps all four ankle joints.
  predicate Damps(cmd: seq<Cmd>)
    requires |cmd| == JOINTS
  {
    cmd[Slot(0, 0)].kd > 0.0 && cmd[Slot(0, 1)].kd > 0.0 && cmd[Slot(1, 0)].kd > 0.0 && cmd[Slot(1, 1)].kd > 0.0
  }

  // Whether an ankle maps, and the damping its motors get, depends on no speed.
  lemma PoseDecides(w: Wiring, m: Maps, moved: seq<Motor>, parallel: seq<Motor>, serial: seq<Motor>, cmd: seq<Cmd>,
      side: nat)
    requires |serial| == JOINTS && |cmd| == JOINTS && |parallel| > Slot(1, 1) && side < 2 && SamePose(moved, parallel)
    ensures SideOk(w, m, moved, serial, cmd, side) <==> SideOk(w, m, parallel, serial, cmd, side)
    ensures SideCrank(w, m, moved, serial, cmd, side).kd == SideCrank(w, m, parallel, serial, cmd, side).kd
  {
    assert CrankAngles(w, moved, side) == CrankAngles(w, parallel, side);
  }

  // A damped serial joint damps both cranks.
  lemma DrivesDamp(j: M2, kd: V2)
    requires Det(j) != 0.0 && kd.x > 0.0 && kd.y > 0.0
    ensures DriverKd(Inverse(j), kd).x > 0.0 && DriverKd(Inverse(j), kd).y > 0.0
  {
    var i := Inverse(j);
    QuotientZero(j.yy, Det(j));
    QuotientZero(-j.yx, Det(j));
    QuotientZero(-j.xy, Det(j));
    QuotientZero(j.xx, Det(j));
    DampingPositive(i.xx, i.yx, kd);
    DampingPositive(i.xy, i.yy, kd);
  }

  lemma QuotientZero(x: real, d: real)
    requires d != 0.0
    ensures x / d == 0.0 <==> x == 0.0
  {}

  function Weighed(a: real, k: real): real {
    a * k * a
  }

  lemma WeighedPositive(a: real, k: real)
    requires k > 0.0
    ensures if a == 0.0 then Weighed(a, k) == 0.0 else Weighed(a, k) > 0.0
  {
    var b := a * k;
    assert a > 0.0 ==> b > 0.0;
    assert a < 0.0 ==> b < 0.0;
  }

  lemma DampingPositive(a: real, b: real, kd: V2)
    requires kd.x > 0.0 && kd.y > 0.0
    ensures a != 0.0 || b != 0.0 ==> Damping(a, b, kd, a, b) > 0.0
  {
    WeighedPositive(a, kd.x);
    WeighedPositive(b, kd.y);
    assert Damping(a, b, kd, a, b) == Weighed(a, kd.x) + Weighed(b, kd.y);
  }

  lemma CrankDamps(w: Wiring, m: Maps, parallel: seq<Motor>, serial: seq<Motor>, cmd: seq<Cmd>, side: nat, k: nat)
    requires |serial| == JOINTS && |cmd| == JOINTS && |parallel| > Slot(1, 1) && side < 2 && k < 2
    requires SideOk(w, m, parallel, serial, cmd, side) && Damps(cmd)
    ensures SideCrank(w, m, parallel, serial, cmd, side).kd.Get(k) > 0.0
  {
    var p := Problem(KinOf(m, side), CrankAngles(w, parallel, side), m.length);
    var c := SideCrank(w, m, parallel, serial, cmd, side);
    GoodCrank(p, CrankSpeeds(w, parallel, side), Two(serial, side), LawOf(cmd, side), w.tauLimit);
    DrivesDamp(Jacobian(p, c.qS), LawOf(cmd, side).kd);
  }

  // A speed at which a motor of another sign breaks the limit, whatever crank torque is asked for.
  function TooFast(s: real, kd: real, limit: real): real
    requires kd != 0.0 && Excess(s) != 0.0
  {
    (Scaled(Abs(s), limit) + limit + 1.0) / Excess(s) / kd
  }

  lemma BreaksLimit(s: real, wanted: real, kd: real, limit: real)
    requires limit >= 0.0 && kd > 0.0 && Excess(s) != 0.0
    ensures !Within(DriveTorque(s, Bound(wanted, limit), kd, TooFast(s, kd, limit)), limit)
  {
    var x := Scaled(Abs(s), limit) + limit + 1.0;
    assert Scaled(kd, TooFast(s, kd, limit)) == x / Excess(s);
    assert Scaled(x / Excess(s), Excess(s)) == x;
    BoundWithin(wanted, limit);
    SignedWithin(s, Bound(wanted, limit), limit);
  }

  lemma SignedWithin(s: real, x: real, limit: real)
    requires limit >= 0.0 && Within(x, limit)
    ensures Within(Signed(s, x), Scaled(Abs(s), limit))
  {
    if s >= 0.0 {
      assert s * -limit <= s * x <= s * limit;
    } else {
      assert s * limit <= s * x <= s * -limit;
    }
  }

  // With one motor of another sign at that speed, the limit is broken.
  lemma OneSpins(w: Wiring, m: Maps, parallel: seq<Motor>, serial: seq<Motor>, cmd: seq<Cmd>, k: nat)
    returns (moved: seq<Motor>)
    requires |serial| == JOINTS && |cmd| == JOINTS && |parallel| > Slot(1, 1) && k < 2 && w.tauLimit >= 0.0
    requires BothMap(w, m, parallel, serial, cmd) && Damps(cmd)
    ensures SamePose(moved, parallel) && (Excess(w.sign.Get(k)) != 0.0 ==> !KeepsLimit(w, m, moved, serial, cmd))
  {
    if Excess(w.sign.Get(k)) == 0.0 {
      return parallel;
    }
    var slot, s := CrankSlot(w, 0, k), w.sign.Get(k);
    CrankDamps(w, m, parallel, serial, cmd, 0, k);
    var kd := SideCrank(w, m, parallel, serial, cmd, 0).kd.Get(k);
    moved := parallel[slot := Motor(parallel[slot].q, TooFast(s, kd, w.tauLimit))];
    PoseDecides(w, m, moved, parallel, serial, cmd, 0);
    PoseDecides(w, m, moved, parallel, serial, cmd, 1);
    MotorTorque(w, m, moved, serial, cmd, 0, k);
    var c := SideCrank(w, m, moved, serial, cmd, 0);
    BreaksLimit(s, LawTorque(KinOf(m, 0), c).Get(k), kd, w.tauLimit);
    assert !Within(Applied(w, m, moved, serial, cmd, 0, k), w.tauLimit);
  }

  // In any pose the mapping accepts, under any command with damping: the signs keep every crank motor within the limit
  // at every measured speed if and only if they are 1 or -1.
  lemma OnlyUnitSigns(w: Wiring, m: Maps, parallel: seq<Motor>, serial: seq<Motor>, cmd: seq<Cmd>)
    requires |serial| == JOINTS && |cmd| == JOINTS && |parallel| > Slot(1, 1) && w.tauLimit >= 0.0
    requires BothMap(w, m, parallel, serial, cmd) && Damps(cmd)
    ensures UnitSigns(w) <==> forall moved :: SamePose(moved, parallel) ==> KeepsLimit(w, m, moved, serial, cmd)
  {
    if UnitSigns(w) {
      forall moved | SamePose(moved, parallel)
        ensures KeepsLimit(w, m, moved, serial, cmd)
      {
        PoseDecides(w, m, moved, parallel, serial, cmd, 0);
        PoseDecides(w, m, moved, parallel, serial, cmd, 1);
        forall side: nat, k: nat | side < 2 && k < 2
          ensures Within(Applied(w, m, moved, serial, cmd, side, k), w.tauLimit)
        {
          MotorWithinLimit(w, m, moved, serial, cmd, side, k);
        }
      }
    } else {
      NonUnit(w.sign.x);
      NonUnit(w.sign.y);
      var moved := OneSpins(w, m, parallel, serial, cmd, if Excess(w.sign.x) != 0.0 then 0 else 1);
    }
  }

  // --- The round trip ---------------------------------------------------------------------------------------

  // A robot at rest with its cranks at zero, where any sign reads the same.
  ghost predicate RestsAtZero(w: Wiring, m: Maps, serial: seq<Motor>) {
    && Reported(w, m, serial) && w.tauLimit > 0.0 && Invertible(m, serial)
    && forall side: nat :: side < 2 ==> SideAtZero(m, serial, side)
  }

  predicate SideAtZero(m: Maps, serial: seq<Motor>, side: nat)
    requires side < 2 && |serial| == JOINTS
  {
    SimKin(m, serial, side).f == ORIGIN && TwoSpeeds(serial, side) == ORIGIN
  }

  lemma NothingSigned(s: real)
    ensures Signed(s, 0.0) == 0.0
  {}

  lemma NoSpeed(j: M2)
    ensures Apply(j, ORIGIN) == ORIGIN
  {}

  lemma SideZero(w: Wiring, m: Maps, serial: seq<Motor>, side: nat, k: nat)
    requires RestsAtZero(w, m, serial) && side < 2 && k < 2
    ensures SimKin(m, serial, side).f == ORIGIN && SimSpeeds(m, serial, side) == ORIGIN
    ensures SimCrank(m, serial, side, k) == Motor(0.0, 0.0)
  {
    assert SideAtZero(m, serial, side);
    NoSpeed(SimKin(m, serial, side).j);
  }

  lemma SeenZero(w: Wiring, m: Maps, serial: seq<Motor>, side: nat, k: nat)
    requires RestsAtZero(w, m, serial) && side < 2 && k < 2
    ensures Seen(w, m, serial)[CrankSlot(w, side, k)] == Motor(0.0, 0.0)
  {
    SideZero(w, m, serial, side, k);
    SimStateAt(m, serial, side, k);
    WireAt(w, SimState(m, serial), side, k);
    NothingSigned(w.sign.Get(k));
  }

  lemma ZeroAngles(w: Wiring, parallel: seq<Motor>, side: nat)
    requires side < 2 && |parallel| > Slot(1, 1)
    requires parallel[CrankSlot(w, side, 0)] == parallel[CrankSlot(w, side, 1)] == Motor(0.0, 0.0)
    ensures CrankAngles(w, parallel, side) == CrankSpeeds(w, parallel, side) == ORIGIN
  {
    NothingSigned(w.sign.x);
    NothingSigned(w.sign.y);
  }

  lemma ZeroShows(w: Wiring, m: Maps, serial: seq<Motor>, side: nat)
    requires RestsAtZero(w, m, serial) && side < 2
    ensures Shows(w, m, serial, Seen(w, m, serial), side)
  {
    SideZero(w, m, serial, side, 0);
    SeenZero(w, m, serial, side, 0);
    SeenZero(w, m, serial, side, 1);
    ZeroAngles(w, Seen(w, m, serial), side);
    forall k: nat | k < 2
      ensures Seen(w, m, serial)[CrankSlot(w, side, k)].q == Signed(w.sign.Get(k), SimCrank(m, serial, side, k).q)
    {
      SeenAt(w, m, serial, side, k);
    }
  }

  lemma RestTau(c: Crank, k: nat, wanted: V2)
    requires k < 2 && c.tau == Plus(wanted, Scaled2(c.kd, ORIGIN))
    ensures c.tau.Get(k) == wanted.Get(k)
  {}

  function Twice(s: real, x: real): real {
    Signed(s, Signed(s, x))
  }

  // What a crank gets there: the sign is applied on the way out and on the way in.
  lemma TwiceSigned(w: Wiring, m: Maps, serial: seq<Motor>, cmd: seq<Cmd>, side: nat, k: nat)
    requires RestsAtZero(w, m, serial) && |cmd| == JOINTS && side < 2 && k < 2
    ensures BothMap(w, m, Seen(w, m, serial), serial, cmd) && !Singular(SimKin(m, serial, side).j)
    ensures Torque(Unwire(w, Mapped(w, m, Seen(w, m, serial), serial, cmd))[Slot(side, k)],
                   SimCrank(m, serial, side, k))
         == Twice(w.sign.Get(k), Bound(WantedTorque(m, serial, cmd, side).Get(k), w.tauLimit))
  {
    var parallel := Seen(w, m, serial);
    RestingCrank(w, m, parallel, serial, cmd, side);
    SideZero(w, m, serial, side, k);
    SeenZero(w, m, serial, side, k);
    MappedAt(w, m, parallel, serial, cmd, side, k);
    UnwireAt(w, Mapped(w, m, parallel, serial, cmd), side, k);
    var c := SideCrank(w, m, parallel, serial, cmd, side);
    var wanted := BoundV(WantedTorque(m, serial, cmd, side), w.tauLimit);
    RestTau(c, k, wanted);
    RestTorque(w.sign.Get(k), c.kd.Get(k), wanted.Get(k));
  }

  lemma RestingCrank(w: Wiring, m: Maps, parallel: seq<Motor>, serial: seq<Motor>, cmd: seq<Cmd>, side: nat)
    requires RestsAtZero(w, m, serial) && |cmd| == JOINTS && side < 2 && parallel == Seen(w, m, serial)
    ensures BothMap(w, m, parallel, serial, cmd) && !Singular(SimKin(m, serial, side).j)
    ensures var c := SideCrank(w, m, parallel, serial, cmd, side);
      c.tau == Plus(BoundV(WantedTorque(m, serial, cmd, side), w.tauLimit), Scaled2(c.kd, ORIGIN))
  {
    ZeroShows(w, m, serial, 0);
    ZeroShows(w, m, serial, 1);
    ZeroShows(w, m, serial, side);
    BothRealised(w, m, parallel, serial, cmd);
    SideRealised(w, m, parallel, serial, cmd, side);
    SideZero(w, m, serial, side, 0);
  }

  lemma RestTorque(s: real, kd: real, wanted: real)
    ensures Torque(Cmd(Signed(s, Signed(s, 0.0)), Signed(s, 0.0), 0.0, kd, Signed(s, Signed(s, wanted))),
                   Motor(0.0, 0.0)) == Twice(s, wanted)
  {
    NothingSigned(s);
  }

  // The feedforward that asks both cranks of both ankles for a torque t.
  function Asks(m: Maps, serial: seq<Motor>, t: real): seq<Cmd>
    requires |serial| == JOINTS
  {
    seq(JOINTS, i requires 0 <= i < JOINTS =>
      Cmd(0.0, 0.0, 0.0, 0.0,
          if IsAnkle(i) then ApplyT(SimKin(m, serial, SideOf(i)).j, V2(t, t)).Get(Which(i)) else 0.0))
  }

  lemma AsksFor(m: Maps, serial: seq<Motor>, t: real, side: nat)
    requires |serial| == JOINTS && side < 2 && Det(SimKin(m, serial, side).j) != 0.0
    ensures SerialLaw(serial, Asks(m, serial, t), side) == ApplyT(SimKin(m, serial, side).j, V2(t, t))
    ensures WantedTorque(m, serial, Asks(m, serial, t), side) == V2(t, t)
  {
    AsksLaw(m, serial, t, side);
    OnlyFeedforward(LawOf(Asks(m, serial, t), side), Two(serial, side), TwoSpeeds(serial, side));
    TransposeUndone(SimKin(m, serial, side).j, V2(t, t));
  }

  lemma AsksLaw(m: Maps, serial: seq<Motor>, t: real, side: nat)
    requires |serial| == JOINTS && side < 2
    ensures LawOf(Asks(m, serial, t), side)
         == Law(ORIGIN, ORIGIN, ORIGIN, ORIGIN, ApplyT(SimKin(m, serial, side).j, V2(t, t)))
  {
    SlotIs(side, 0);
    SlotIs(side, 1);
  }

  lemma OnlyFeedforward(l: Law, q: V2, dq: V2)
    requires l.kp == l.kd == ORIGIN
    ensures SerialPd(l, q, dq) == l.tauFf
  {
    NoGain(l.qRef.x, q.x);
    NoGain(l.qRef.y, q.y);
    NoGain(l.dqRef.x, dq.x);
    NoGain(l.dqRef.y, dq.y);
  }

  // The serial law comes back from both ankles wherever no limit bites.
  ghost predicate ComesBack(w: Wiring, m: Maps, serial: seq<Motor>, cmd: seq<Cmd>)
    requires |serial| == JOINTS && |cmd| == JOINTS && Invertible(m, serial)
  {
    && BothMap(w, m, Seen(w, m, serial), serial, cmd)
    && forall side: nat :: side < 2 ==> SideComesBack(w, m, serial, cmd, side)
  }

  predicate SideComesBack(w: Wiring, m: Maps, serial: seq<Motor>, cmd: seq<Cmd>, side: nat)
    requires |serial| == JOINTS && |cmd| == JOINTS && side < 2 && !Singular(SimKin(m, serial, side).j)
  {
    var limit, wanted := Min(w.tauLimit, CRANK_TAU_MAX), WantedTorque(m, serial, cmd, side);
    Within(wanted.x, limit) && Within(wanted.y, limit) ==>
      Torques(Back(w, m, serial, cmd), side) == SerialLaw(serial, cmd, side)
  }

  lemma SmallWithin(t: real, limit: real)
    requires 0.0 < t < limit
    ensures Bound(t, limit) == t && Within(t, limit)
  {}

  // What comes back there of any command.
  lemma BackAtRest(w: Wiring, m: Maps, serial: seq<Motor>, cmd: seq<Cmd>)
    requires RestsAtZero(w, m, serial) && |cmd| == JOINTS
    ensures !Singular(SimKin(m, serial, 0).j)
    ensures Torques(Back(w, m, serial, cmd), 0)
         == ApplyT(SimKin(m, serial, 0).j,
                   BoundV(TwiceV(w.sign, BoundV(WantedTorque(m, serial, cmd, 0), w.tauLimit)), CRANK_TAU_MAX))
  {
    TwiceSigned(w, m, serial, cmd, 0, 0);
    TwiceSigned(w, m, serial, cmd, 0, 1);
    var wanted := WantedTorque(m, serial, cmd, 0);
    GivesTorques(m, Unwire(w, Mapped(w, m, Seen(w, m, serial), serial, cmd)), serial, 0,
                 Twice(w.sign.x, Bound(wanted.x, w.tauLimit)), Twice(w.sign.y, Bound(wanted.y, w.tauLimit)));
  }

  function TwiceV(s: V2, v: V2): V2 {
    V2(Twice(s.x, v.x), Twice(s.y, v.y))
  }

  lemma GivesTorques(m: Maps, sent: seq<Cmd>, serial: seq<Motor>, side: nat, a: real, b: real)
    requires |sent| == |serial| == JOINTS && side < 2
    requires Torque(sent[Slot(side, 0)], SimCrank(m, serial, side, 0)) == a
    requires Torque(sent[Slot(side, 1)], SimCrank(m, serial, side, 1)) == b
    ensures Torques(SimSerial(m, sent, serial), side)
         == ApplyT(SimKin(m, serial, side).j, BoundV(V2(a, b), CRANK_TAU_MAX))
  {
    SimSerialAt(m, sent, serial, side, 0);
    SimSerialAt(m, sent, serial, side, 1);
  }

  lemma SignsTell(s: real, t: real)
    requires 0.0 < t < CRANK_TAU_MAX
    ensures Bound(Twice(s, t), CRANK_TAU_MAX) == t <==> s == 1.0 || s == -1.0
  {
    NonUnit(s);
    TwiceIsScaled(s, t);
    ScaledZero(t, Excess(s));
  }

  lemma TwiceIsScaled(s: real, t: real)
    ensures Twice(s, t) == t + Scaled(t, Excess(s))
  {
    assert s * (s * t) == t * (s * s);
  }

  lemma ScaledZero(t: real, x: real)
    requires t > 0.0
    ensures Scaled(t, x) == 0.0 <==> x == 0.0
  {}

  // Two crank torques an invertible Jacobian takes to one serial torque are one.
  lemma SameCrankTorque(j: M2, a: V2, b: V2)
    requires Det(j) != 0.0 && ApplyT(j, a) == ApplyT(j, b)
    ensures a == b
  {
    TransposeUndone(j, a);
    TransposeUndone(j, b);
  }

  lemma OtherTorque(w: Wiring, m: Maps, serial: seq<Motor>, cmd: seq<Cmd>, wanted: V2)
    requires RestsAtZero(w, m, serial) && |cmd| == JOINTS && !Singular(SimKin(m, serial, 0).j)
    ensures WantedTorque(m, serial, cmd, 0) == wanted && wanted.x == wanted.y &&
            SerialLaw(serial, cmd, 0) == ApplyT(SimKin(m, serial, 0).j, wanted) &&
            Within(wanted.x, Min(w.tauLimit, CRANK_TAU_MAX)) && BoundV(wanted, w.tauLimit) == wanted &&
            BoundV(TwiceV(w.sign, wanted), CRANK_TAU_MAX) != wanted ==>
      !SideComesBack(w, m, serial, cmd, 0)
  {
    BackAtRest(w, m, serial, cmd);
    var j, back := SimKin(m, serial, 0).j, BoundV(TwiceV(w.sign, wanted), CRANK_TAU_MAX);
    if ApplyT(j, back) == ApplyT(j, wanted) {
      SameCrankTorque(j, back, wanted);
    }
  }

  lemma OtherSignsTell(w: Wiring, t: real)
    requires 0.0 < t < Min(w.tauLimit, CRANK_TAU_MAX) && !UnitSigns(w)
    ensures Within(t, Min(w.tauLimit, CRANK_TAU_MAX)) && BoundV(V2(t, t), w.tauLimit) == V2(t, t)
    ensures BoundV(TwiceV(w.sign, V2(t, t)), CRANK_TAU_MAX) != V2(t, t)
  {
    SmallWithin(t, w.tauLimit);
    SignsTell(w.sign.x, t);
    SignsTell(w.sign.y, t);
  }

  lemma OtherSignsDoNot(w: Wiring, m: Maps, serial: seq<Motor>, t: real) returns (cmd: seq<Cmd>)
    requires RestsAtZero(w, m, serial) && !UnitSigns(w) && 0.0 < t < Min(w.tauLimit, CRANK_TAU_MAX)
    ensures |cmd| == JOINTS && !Singular(SimKin(m, serial, 0).j) && !SideComesBack(w, m, serial, cmd, 0)
  {
    cmd := Asks(m, serial, t);
    InvertibleSides(m, serial);
    AsksFor(m, serial, t, 0);
    OtherSignsTell(w, t);
    OtherTorque(w, m, serial, cmd, V2(t, t));
  }

  // At rest with the cranks at zero, the serial law comes back for every command if and only if the signs are 1 or -1.
  lemma RoundTripNeedsUnitSigns(w: Wiring, m: Maps, serial: seq<Motor>)
    requires RestsAtZero(w, m, serial)
    ensures UnitSigns(w) <==> forall cmd :: |cmd| == JOINTS ==> ComesBack(w, m, serial, cmd)
  {
    if UnitSigns(w) {
      forall cmd: seq<Cmd> | |cmd| == JOINTS
        ensures ComesBack(w, m, serial, cmd)
      {
        UnitSignsDo(w, m, serial, cmd);
      }
    } else {
      var cmd := OtherSignsDoNot(w, m, serial, Min(w.tauLimit, CRANK_TAU_MAX) / 2.0);
      assert !ComesBack(w, m, serial, cmd);
    }
  }

  lemma UnitSignsDo(w: Wiring, m: Maps, serial: seq<Motor>, cmd: seq<Cmd>)
    requires Faithful(w, m, serial) && Invertible(m, serial) && |cmd| == JOINTS
    ensures ComesBack(w, m, serial, cmd)
  {
    forall side: nat | side < 2
      ensures SideComesBack(w, m, serial, cmd, side)
    {
      RoundTrip(w, m, serial, cmd, side);
    }
    RoundTripHappensIff(w, m, serial, cmd);
  }
}
