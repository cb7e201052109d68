/** The ankle slots of the T1's command (crankSlot_, mapAnklesToCranks_ in T1_bridge.cpp) and the simulated robot on
the other side (crank_state, serial_command in the simulator's t1.py), and the round trip between them.
*/
module Cranks {
  import opened Numbers
  import opened Gates
  import opened Plane
  import opened Newton
  import opened Ankle

  // --- Slots ------------------------------------------------------------------------------------------

  const JOINTS := 23

  // kAnkleSerialIdx: pitch and roll of the left and of the right ankle.
  function Slot(side: nat, k: nat): (r: nat)
    requires side < 2 && k < 2
    ensures r < JOINTS
  {
    15 + 6 * side + k
  }

  predicate IsAnkle(slot: nat) {
    slot == 15 || slot == 16 || slot == 21 || slot == 22
  }

  function SideOf(slot: nat): (r: nat)
    requires IsAnkle(slot)
    ensures r < 2
  {
    if slot < 20 then 0 else 1
  }

  datatype Wiring = Wiring(swap: bool, sign: V2, tauLimit: real, maxError: real)

  // The signs the wiring can have; parameter loading does not check them.
  predicate UnitSigns(w: Wiring) {
    (w.sign.x == 1.0 || w.sign.x == -1.0) && (w.sign.y == 1.0 || w.sign.y == -1.0)
  }

  function CrankSlot(w: Wiring, side: nat, crank: nat): (r: nat)
    requires side < 2 && crank < 2
    ensures r < JOINTS && IsAnkle(r) && SideOf(r) == side && CrankIn(w, r) == crank
  {
    Slot(side, if w.swap then 1 - crank else crank)
  }

  // The crank whose motor sits in a slot.
  function CrankIn(w: Wiring, slot: nat): (r: nat)
    requires IsAnkle(slot)
    ensures r < 2
  {
    var k := slot - (15 + 6 * SideOf(slot));
    if w.swap then 1 - k else k
  }

  // --- mapAnklesToCranks_ -------------------------------------------------------------------------------

  // kinematics of each side, and hypot.
  datatype Maps = Maps(left: V2 -> Kin, right: V2 -> Kin, length: V2 -> real)

  function KinOf(m: Maps, side: nat): V2 -> Kin {
    if side == 0 then m.left else m.right
  }

  function Two(xs: seq<Motor>, side: nat): V2
    requires side < 2 && |xs| >= JOINTS
  {
    V2(xs[Slot(side, 0)].q, xs[Slot(side, 1)].q)
  }

  function TwoSpeeds(xs: seq<Motor>, side: nat): V2
    requires side < 2 && |xs| >= JOINTS
  {
    V2(xs[Slot(side, 0)].dq, xs[Slot(side, 1)].dq)
  }

  // A motor's value in the map's convention, and back.
  function Signed(sign: real, x: real): real {
    sign * x
  }

  // The crank angles and speeds the bridge measures, in the map's convention.
  function CrankAngles(w: Wiring, parallel: seq<Motor>, side: nat): V2
    requires side < 2 && |parallel| > Slot(side, 1)
  {
    V2(Signed(w.sign.x, parallel[CrankSlot(w, side, 0)].q), Signed(w.sign.y, parallel[CrankSlot(w, side, 1)].q))
  }

  function CrankSpeeds(w: Wiring, parallel: seq<Motor>, side: nat): V2
    requires side < 2 && |parallel| > Slot(side, 1)
  {
    V2(Signed(w.sign.x, parallel[CrankSlot(w, side, 0)].dq), Signed(w.sign.y, parallel[CrankSlot(w, side, 1)].dq))
  }

  function LawOf(cmd: seq<Cmd>, side: nat): Law
    requires side < 2 && |cmd| == JOINTS
  {
    var sp, sr := cmd[Slot(side, 0)], cmd[Slot(side, 1)];
    Law(V2(sp.q, sr.q), V2(sp.dq, sr.dq), V2(sp.kp, sr.kp), V2(sp.kd, sr.kd), V2(sp.tau, sr.tau))
  }

  function SideCrank(w: Wiring, m: Maps, parallel: seq<Motor>, serial: seq<Motor>, cmd: seq<Cmd>, side: nat): Crank
    requires side < 2 && |parallel| > Slot(side, 1) && |serial| == JOINTS && |cmd| == JOINTS
  {
    CrankOf(Problem(KinOf(m, side), CrankAngles(w, parallel, side), m.length), CrankSpeeds(w, parallel, side),
            Two(serial, side), LawOf(cmd, side), w.tauLimit)
  }

  function EstimateError(c: Crank, firmware: V2): real {
    var x, y := Abs(c.qS.x - firmware.x), Abs(c.qS.y - firmware.y);
    if x < y then y else x
  }

  predicate SideOk(w: Wiring, m: Maps, parallel: seq<Motor>, serial: seq<Motor>, cmd: seq<Cmd>, side: nat)
    requires side < 2 && |serial| == JOINTS && |cmd| == JOINTS
  {
    |parallel| > Slot(side, 1) &&
    var c := SideCrank(w, m, parallel, serial, cmd, side);
    c.ok && EstimateError(c, Two(serial, side)) <= w.maxError
  }

  function CrankEntry(w: Wiring, c: Crank, crank: nat, q: real): Cmd
    requires crank < 2
  {
    Cmd(q, 0.0, 0.0, c.kd.Get(crank), Signed(w.sign.Get(crank), c.tau.Get(crank)))
  }

  predicate BothMap(w: Wiring, m: Maps, parallel: seq<Motor>, serial: seq<Motor>, cmd: seq<Cmd>)
    requires |serial| == JOINTS && |cmd| == JOINTS
  {
    SideOk(w, m, parallel, serial, cmd, 0) && SideOk(w, m, parallel, serial, cmd, 1)
  }

  // The command with both ankles mapped.
  function Mapped(w: Wiring, m: Maps, parallel: seq<Motor>, serial: seq<Motor>, cmd: seq<Cmd>): seq<Cmd>
    requires |serial| == JOINTS && |cmd| == JOINTS && |parallel| > Slot(1, 1)
  {
    seq(JOINTS, i requires 0 <= i < JOINTS =>
      if IsAnkle(i)
      then CrankEntry(w, SideCrank(w, m, parallel, serial, cmd, SideOf(i)), CrankIn(w, i), parallel[i].q)
      else cmd[i])
  }

  // One turn of the first loop.
  method MapSide(w: Wiring, m: Maps, parallel: seq<Motor>, serial: seq<Motor>, cmd: seq<Cmd>,
      side: nat) returns (crank: Crank, ok: bool)
    requires side < 2 && |parallel| > Slot(side, 1) && |serial| == JOINTS && |cmd| == JOINTS && w.tauLimit >= 0.0
    ensures crank == SideCrank(w, m, parallel, serial, cmd, side)
    ensures ok == SideOk(w, m, parallel, serial, cmd, side)
  {
    var qM, dqM := ORIGIN, ORIGIN;
    for c := 0 to 2
      invariant c > 0 ==> qM.x == CrankAngles(w, parallel, side).x && dqM.x == CrankSpeeds(w, parallel, side).x
      invariant c > 1 ==> qM.y == CrankAngles(w, parallel, side).y && dqM.y == CrankSpeeds(w, parallel, side).y
    {
      var motor := parallel[CrankSlot(w, side, c)];
      qM := qM.Set(c, Signed(w.sign.Get(c), motor.q));
      dqM := dqM.Set(c, Signed(w.sign.Get(c), motor.dq));
    }
    var firmware := Two(serial, side);
    crank := CrankCommand(Problem(KinOf(m, side), qM, m.length), dqM, firmware, LawOf(cmd, side), w.tauLimit);
    ok := crank.ok && EstimateError(crank, firmware) <= w.maxError;
  }

  // One turn of the second loop.
  method WriteSide(w: Wiring, side: nat, crank: Crank, parallel: seq<Motor>, cmd: array<Cmd>)
    requires side < 2 && |parallel| > Slot(side, 1) && cmd.Length == JOINTS
    modifies cmd
    ensures forall i :: 0 <= i < JOINTS && !(IsAnkle(i) && SideOf(i) == side) ==> cmd[i] == old(cmd[i])
    ensures forall c: nat :: c < 2 ==>
      cmd[CrankSlot(w, side, c)] == CrankEntry(w, crank, c, parallel[CrankSlot(w, side, c)].q)
  {
    for c := 0 to 2
      invariant forall i :: 0 <= i < JOINTS && !(IsAnkle(i) && SideOf(i) == side) ==> cmd[i] == old(cmd[i])
      invariant forall d: nat :: d < c ==>
        cmd[CrankSlot(w, side, d)] == CrankEntry(w, crank, d, parallel[CrankSlot(w, side, d)].q)
    {
      var slot := CrankSlot(w, side, c);
      cmd[slot] := cmd[slot].(q := parallel[slot].q);
      cmd[slot] := cmd[slot].(dq := 0.0);
      cmd[slot] := cmd[slot].(kp := 0.0);
      cmd[slot] := cmd[slot].(kd := crank.kd.Get(c));
      cmd[slot] := cmd[slot].(tau := Signed(w.sign.Get(c), crank.tau.Get(c)));
    }
  }

  lemma SlotOfItsCrank(w: Wiring, slot: nat)
    requires IsAnkle(slot)
    ensures CrankSlot(w, SideOf(slot), CrankIn(w, slot)) == slot
  {}

  // The first loop of mapAnklesToCranks_.
  method MapSides(w: Wiring, m: Maps, parallel: seq<Motor>, serial: seq<Motor>,
      cmd: seq<Cmd>) returns (mapping: array<Crank>, ok: bool)
    requires |serial| == JOINTS && |cmd| == JOINTS && w.tauLimit >= 0.0
    ensures fresh(mapping) && mapping.Length == 2
    ensures ok == BothMap(w, m, parallel, serial, cmd)
    ensures ok ==> forall i: nat :: i < 2 ==> mapping[i] == SideCrank(w, m, parallel, serial, cmd, i)
  {
    mapping := new Crank[2](_ => Failed(ORIGIN, 0.0));
    ok := true;
    for side := 0 to 2
      invariant ok <==> forall i: nat :: i < side ==> SideOk(w, m, parallel, serial, cmd, i)
      invariant ok ==> forall i: nat :: i < side ==> |parallel| > Slot(i, 1) && mapping[i] == SideCrank(w, m,
          parallel, serial, cmd, i)
    {
      if |parallel| <= Slot(side, 1) {
        assert !SideOk(w, m, parallel, serial, cmd, side);
        ok := false;
        continue;
      }
      var crank, good := MapSide(w, m, parallel, serial, cmd, side);
      mapping[side] := crank;
      ok := ok && good;
    }
    assert BothMap(w, m, parallel, serial, cmd) <==>
      SideOk(w, m, parallel, serial, cmd, 0) && SideOk(w, m, parallel, serial, cmd, 1);
  }

  // mapAnklesToCranks_: both ankles or neither.
  method MapAnklesToCranks(w: Wiring, m: Maps, parallel: seq<Motor>, serial: seq<Motor>, cmd: array<Cmd>)
      returns (ok: bool)
    requires |serial| == JOINTS && cmd.Length == JOINTS && w.tauLimit >= 0.0
    modifies cmd
    ensures ok == BothMap(w, m, parallel, serial, old(cmd[..]))
    ensures ok ==> |parallel| > Slot(1, 1)
    ensures cmd[..] == if ok then Mapped(w, m, parallel, serial, old(cmd[..])) else old(cmd[..])
  {
    ghost var was := cmd[..];
    var mapping;
    mapping, ok := MapSides(w, m, parallel, serial, cmd[..]);
    if !ok {
      return;
    }
    ghost var want := Mapped(w, m, parallel, serial, was);
    for side := 0 to 2
      modifies cmd
      invariant forall i :: 0 <= i < JOINTS ==> cmd[i] == (if IsAnkle(i) && SideOf(i) < side then want[i] else was[i])
    {
      ghost var before := cmd[..];
      WriteSide(w, side, mapping[side], parallel, cmd);
      forall i | 0 <= i < JOINTS
        ensures cmd[i] == (if IsAnkle(i) && SideOf(i) < side + 1 then want[i] else was[i])
      {
        if IsAnkle(i) && SideOf(i) == side {
          SlotOfItsCrank(w, i);
          assert cmd[i] == CrankEntry(w, mapping[side], CrankIn(w, i), parallel[i].q);
        } else {
          assert cmd[i] == before[i];
        }
      }
    }
    assert cmd[..] == want;
  }
}
