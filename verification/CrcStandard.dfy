/** CRC-32/MPEG-2, Annex A of ITU-T H.222.0: the register of module Crc is the remainder of a frame's bits, padded
with 32 zeros and with its first 32 bits inverted, by

  x^32 + x^26 + x^23 + x^22 + x^16 + x^12 + x^11 + x^10 + x^8 + x^7 + x^5 + x^4 + x^2 + x + 1

over the field of two elements. A polynomial is the set of its exponents.
*/
module CrcStandard {
  import opened Crc

  const GENERATOR: set<nat> := {32, 26, 23, 22, 16, 12, 11, 10, 8, 7, 5, 4, 2, 1, 0}

  function Add(p: set<nat>, q: set<nat>): set<nat> {
    (p - q) + (q - p)
  }

  // x p(x)
  function Shift(p: set<nat>): set<nat> {
    set e | e in p :: e + 1
  }

  // x^n p(x)
  function Rise(p: set<nat>, n: nat): set<nat> {
    if n == 0 then p else Shift(Rise(p, n - 1))
  }

  function Below(n: nat): set<nat> {
    if n == 0 then {} else Below(n - 1) + {n - 1}
  }

  lemma {:induction false} BelowTells(n: nat, e: nat)
    ensures e in Below(n) <==> e < n
  {
    if n > 0 {
      BelowTells(n - 1, e);
    }
  }

  // x^32 m(x), for a message of these bits, the first one highest.
  function Padded(bits: seq<bool>): set<nat> {
    if bits == [] then {}
    else
      var n := |bits| - 1;
      Add(Shift(Padded(bits[..n])), if bits[n] then {32} else {})
  }

  // q(x) times the generator, for a quotient of these bits.
  function Multiple(qs: seq<bool>): set<nat> {
    if qs == [] then {}
    else
      var n := |qs| - 1;
      Add(Shift(Multiple(qs[..n])), if qs[n] then GENERATOR else {})
  }

  // r is what division by the generator leaves of d, in n steps.
  ghost predicate IsRemainder(r: set<nat>, d: set<nat>, n: nat) {
    r <= Below(32) && exists qs: seq<bool> :: |qs| == n && r == Add(d, Multiple(qs))
  }

  // --- Sums ----------------------------------------------------------------------------------------------

  lemma ShiftAdds(p: set<nat>, q: set<nat>)
    ensures Shift(Add(p, q)) == Add(Shift(p), Shift(q))
  {
    forall e: nat | e > 0
      ensures e in Shift(Add(p, q)) <==> e in Add(Shift(p), Shift(q))
    {
      assert e in Shift(p) <==> e - 1 in p;
      assert e in Shift(q) <==> e - 1 in q;
      assert e in Shift(Add(p, q)) <==> e - 1 in Add(p, q);
    }
  }

  lemma {:induction false} RiseAdds(p: set<nat>, q: set<nat>, n: nat)
    ensures Rise(Add(p, q), n) == Add(Rise(p, n), Rise(q, n))
  {
    if n > 0 {
      RiseAdds(p, q, n - 1);
      ShiftAdds(Rise(p, n - 1), Rise(q, n - 1));
    }
  }

  // --- A remainder is the only one ---------------------------------------------------------------------------

  function XorAll(a: seq<bool>, b: seq<bool>): (r: seq<bool>)
    requires |a| == |b|
    ensures |r| == |a|
  {
    if a == [] then [] else XorAll(a[..|a| - 1], b[..|b| - 1]) + [a[|a| - 1] != b[|b| - 1]]
  }

  lemma {:induction false} MultiplesAdd(a: seq<bool>, b: seq<bool>)
    requires |a| == |b|
    ensures Add(Multiple(a), Multiple(b)) == Multiple(XorAll(a, b))
  {
    if a != [] {
      var n := |a| - 1;
      MultiplesAdd(a[..n], b[..n]);
      ShiftAdds(Multiple(a[..n]), Multiple(b[..n]));
      assert XorAll(a, b)[..n] == XorAll(a[..n], b[..n]);
    }
  }

  // Every multiple but zero has a term the remainder cannot have.
  lemma {:induction false} MultipleIsHigh(qs: seq<bool>) returns (e: nat)
    requires Multiple(qs) != {}
    ensures e in Multiple(qs) && e >= 32
  {
    var n := |qs| - 1;
    var front := Multiple(qs[..n]);
    if front == {} {
      assert Shift(front) == {} && qs[n];
      e := 32;
    } else {
      var below := MultipleIsHigh(qs[..n]);
      assert below + 1 in Shift(front) && below + 1 !in GENERATOR;
      e := below + 1;
    }
  }

  lemma RemainderIsUnique(r: set<nat>, s: set<nat>, d: set<nat>, n: nat)
    requires IsRemainder(r, d, n) && IsRemainder(s, d, n)
    ensures r == s
  {
    var a: seq<bool> :| |a| == n && r == Add(d, Multiple(a));
    var b: seq<bool> :| |b| == n && s == Add(d, Multiple(b));
    MultiplesAdd(a, b);
    assert Add(r, s) == Multiple(XorAll(a, b));
    if r != s {
      var e := MultipleIsHigh(XorAll(a, b));
      BelowTells(32, e);
      assert false;
    }
  }

  // --- The register ------------------------------------------------------------------------------------------

  predicate BitAt(c: bv32, e: nat)
    requires e < 32
  {
    Bit(c, 31 - e)
  }

  // The polynomial of a register.
  function Poly(c: bv32): set<nat> {
    set e: nat | e < 32 && BitAt(c, e)
  }

  lemma {:induction false} BitXor(a: bv32, b: bv32, k: nat)
    ensures Bit(Xor(a, b), k) <==> Bit(a, k) != Bit(b, k)
    decreases k
  {
    if k == 0 {
      TopMeets(Xor(a, b));
      TopMeets(a);
      TopMeets(b);
      TopXor(a, b);
    } else {
      BitUp(Xor(a, b), k - 1);
      BitUp(a, k - 1);
      BitUp(b, k - 1);
      UpXor(a, b);
      BitXor(Up(a), Up(b), k - 1);
    }
  }

  lemma PolyXor(a: bv32, b: bv32)
    ensures Poly(Xor(a, b)) == Add(Poly(a), Poly(b))
  {
    forall e: nat | e < 32
      ensures BitAt(Xor(a, b), e) <==> BitAt(a, e) != BitAt(b, e)
    {
      BitXor(a, b, 31 - e);
    }
  }

  lemma BitUp(c: bv32, k: nat)
    ensures Bit(Up(c), k) <==> Bit(c, k + 1)
  {
    UpMeets(c, Shr(TOP, k));
  }

  lemma NoBit32(c: bv32)
    ensures !Bit(c, 32)
  {
    LastMask();
  }

  lemma TopIsBit31(c: bv32)
    ensures HasTop(c) <==> 31 in Poly(c)
  {
    BitIsTop(c, 0);
  }

  lemma PolyUp(c: bv32)
    ensures Poly(Up(c)) == Shift(Poly(c)) - {32}
  {
    forall e: nat | e < 32
      ensures e in Poly(Up(c)) <==> e in Shift(Poly(c))
    {
      BitUp(c, 31 - e);
      if e == 0 {
        NoBit32(c);
      } else {
        assert e in Shift(Poly(c)) <==> e - 1 in Poly(c);
      }
    }
  }

  // --- The constants -----------------------------------------------------------------------------------------

  lemma Masks()
    ensures Shr(TOP, 0) == 0x8000_0000 && Shr(TOP, 1) == 0x4000_0000 && Shr(TOP, 2) == 0x2000_0000
    ensures Shr(TOP, 3) == 0x1000_0000 && Shr(TOP, 4) == 0x0800_0000 && Shr(TOP, 5) == 0x0400_0000
    ensures Shr(TOP, 6) == 0x0200_0000 && Shr(TOP, 7) == 0x0100_0000 && Shr(TOP, 8) == 0x0080_0000
    ensures Shr(TOP, 9) == 0x0040_0000 && Shr(TOP, 10) == 0x0020_0000 && Shr(TOP, 11) == 0x0010_0000
    ensures Shr(TOP, 12) == 0x0008_0000 && Shr(TOP, 13) == 0x0004_0000 && Shr(TOP, 14) == 0x0002_0000
    ensures Shr(TOP, 15) == 0x0001_0000 && Shr(TOP, 16) == 0x0000_8000 && Shr(TOP, 17) == 0x0000_4000
    ensures Shr(TOP, 18) == 0x0000_2000 && Shr(TOP, 19) == 0x0000_1000 && Shr(TOP, 20) == 0x0000_0800
    ensures Shr(TOP, 21) == 0x0000_0400 && Shr(TOP, 22) == 0x0000_0200 && Shr(TOP, 23) == 0x0000_0100
    ensures Shr(TOP, 24) == 0x0000_0080 && Shr(TOP, 25) == 0x0000_0040 && Shr(TOP, 26) == 0x0000_0020
    ensures Shr(TOP, 27) == 0x0000_0010 && Shr(TOP, 28) == 0x0000_0008 && Shr(TOP, 29) == 0x0000_0004
    ensures Shr(TOP, 30) == 0x0000_0002 && Shr(TOP, 31) == 0x0000_0001
  {
    assert Shr(TOP, 1) == 0x4000_0000;
    assert Shr(TOP, 2) == 0x2000_0000;
    assert Shr(TOP, 3) == 0x1000_0000;
    assert Shr(TOP, 4) == 0x0800_0000;
    assert Shr(TOP, 5) == 0x0400_0000;
    assert Shr(TOP, 6) == 0x0200_0000;
    assert Shr(TOP, 7) == 0x0100_0000;
    assert Shr(TOP, 8) == 0x0080_0000;
    assert Shr(TOP, 9) == 0x0040_0000;
    assert Shr(TOP, 10) == 0x0020_0000;
    assert Shr(TOP, 11) == 0x0010_0000;
    assert Shr(TOP, 12) == 0x0008_0000;
    assert Shr(TOP, 13) == 0x0004_0000;
    assert Shr(TOP, 14) == 0x0002_0000;
    assert Shr(TOP, 15) == 0x0001_0000;
    assert Shr(TOP, 16) == 0x0000_8000;
    assert Shr(TOP, 17) == 0x0000_4000;
    assert Shr(TOP, 18) == 0x0000_2000;
    assert Shr(TOP, 19) == 0x0000_1000;
    assert Shr(TOP, 20) == 0x0000_0800;
    assert Shr(TOP, 21) == 0x0000_0400;
    assert Shr(TOP, 22) == 0x0000_0200;
    assert Shr(TOP, 23) == 0x0000_0100;
    assert Shr(TOP, 24) == 0x0000_0080;
    assert Shr(TOP, 25) == 0x0000_0040;
    assert Shr(TOP, 26) == 0x0000_0020;
    assert Shr(TOP, 27) == 0x0000_0010;
    assert Shr(TOP, 28) == 0x0000_0008;
    assert Shr(TOP, 29) == 0x0000_0004;
    assert Shr(TOP, 30) == 0x0000_0002;
    assert Shr(TOP, 31) == 0x0000_0001;
  }

  // The constant of the source holds the generator's terms below x^32, ...
  lemma GeneratorBits()
    ensures Poly(POLY) == GENERATOR - {32}
  {
    Masks();
    forall e: nat | e < 32
      ensures BitAt(POLY, e) <==> e in GENERATOR
    {}
  }

  // ... and the register starts with every one.
  lemma AllOnes()
    ensures Poly(INIT) == Below(32)
  {
    forall e: nat
      ensures e in Poly(INIT) <==> e in Below(32)
    {
      BelowTells(32, e);
      if e < 32 {
        MaskNonZero(31 - e);
        MeetsAll(Shr(TOP, 31 - e));
      }
    }
  }

  lemma MeetsAll(m: bv32)
    ensures Meets(0xFFFF_FFFF, m) <==> m != 0
  {}

  // --- The division ------------------------------------------------------------------------------------------

  lemma PolyStep(c: bv32, bit: bool)
    ensures Poly(Step(c, bit)) ==
            Add(Add(Shift(Poly(c)), if bit then {32} else {}), if HasTop(c) != bit then GENERATOR else {})
  {
    GeneratorBits();
    PolyUp(c);
    TopIsBit31(c);
    assert 32 in Shift(Poly(c)) <==> 31 in Poly(c);
    PolyXor(Up(c), POLY);
    PolyXor(Z(c), POLY);
  }

  // The bits of the quotient, as the register finds them.
  function Quotient(c: bv32, bits: seq<bool>): (r: seq<bool>)
    ensures |r| == |bits|
  {
    if bits == [] then []
    else
      var n := |bits| - 1;
      Quotient(c, bits[..n]) + [HasTop(Feed(c, bits[..n])) != bits[n]]
  }

  lemma {:induction false} FeedDivides(c: bv32, bits: seq<bool>)
    ensures Poly(Feed(c, bits)) ==
            Add(Add(Rise(Poly(c), |bits|), Padded(bits)), Multiple(Quotient(c, bits)))
  {
    if bits != [] {
      var n := |bits| - 1;
      var front, qs := bits[..n], Quotient(c, bits[..n]);
      FeedDivides(c, front);
      FoldOne(Step, c, front, bits[n]);
      assert front + [bits[n]] == bits;
      assert Quotient(c, bits)[..n] == qs;
      PolyStep(Feed(c, front), bits[n]);
      ShiftAdds(Add(Rise(Poly(c), n), Padded(front)), Multiple(qs));
      ShiftAdds(Rise(Poly(c), n), Padded(front));
      Regroup(Shift(Rise(Poly(c), n)), Shift(Padded(front)), Shift(Multiple(qs)), if bits[n] then {32} else {},
              if HasTop(Feed(c, front)) != bits[n] then GENERATOR else {});
    }
  }

  lemma Regroup(a: set<nat>, b: set<nat>, c: set<nat>, x: set<nat>, y: set<nat>)
    ensures Add(Add(Add(Add(a, b), c), x), y) == Add(Add(a, Add(b, x)), Add(c, y))
  {}

  // The dividend of a frame: its bits padded with 32 zeros, the first 32 of them inverted.
  function Dividend(bits: seq<bool>): set<nat> {
    Add(Rise(Below(32), |bits|), Padded(bits))
  }

  // The CRC of a frame is the remainder, and no other polynomial is.
  lemma CrcIsRemainder(ws: seq<bv32>, r: set<nat>)
    ensures IsRemainder(r, Dividend(AllBits(ws)), 32 * |ws|) <==> r == Poly(Crc.Crc(ws))
  {
    AllOnes();
    FeedDivides(INIT, AllBits(ws));
    PolyIsLow(Crc.Crc(ws));
    assert IsRemainder(Poly(Crc.Crc(ws)), Dividend(AllBits(ws)), 32 * |ws|);
    if IsRemainder(r, Dividend(AllBits(ws)), 32 * |ws|) {
      RemainderIsUnique(r, Poly(Crc.Crc(ws)), Dividend(AllBits(ws)), 32 * |ws|);
    }
  }

  lemma PolyIsLow(c: bv32)
    ensures Poly(c) <= Below(32)
  {
    forall e | e in Poly(c)
      ensures e in Below(32)
    {
      BelowTells(32, e);
    }
  }

  // A register is its polynomial.
  lemma PolyTells(a: bv32, b: bv32)
    ensures Poly(a) == Poly(b) <==> a == b
  {
    if Poly(a) == Poly(b) {
      forall k: nat | k < 32
        ensures Bits(a, 32)[k] == Bits(b, 32)[k]
      {
        SameBit(a, b, k);
      }
      assert Bits(a, 32) == Bits(b, 32);
      SameBits(a, b);
    }
  }

  lemma SameBit(a: bv32, b: bv32, k: nat)
    requires Poly(a) == Poly(b) && k < 32
    ensures Bits(a, 32)[k] == Bits(b, 32)[k]
  {
    assert 31 - k in Poly(a) <==> 31 - k in Poly(b);
    BitsAt(a, 32, k);
    BitsAt(b, 32, k);
  }

  // --- Values --------------------------------------------------------------------------------------------------

  // A bit fed to the empty register leaves the generator; the CRC of nothing, and of a word of zeros.
  lemma KnownValues()
    ensures Feed(0, [true]) == 0x04c1_1db7
    ensures Crc.Crc([]) == 0xFFFF_FFFF
    ensures Crc.Crc([0]) == 0xC704_DD7B
  {
    FoldOne(Step, 0, [], true);
    CrcOfLast([0]);
    FeedWord(INIT, 0);
    XorZero(INIT);
    StepsFromOnes();
  }

  lemma StepsFromOnes()
    ensures Zn(32, INIT) == 0xC704_DD7B
  {
    assert Zn(1, INIT) == 0xfb3e_e249;
    assert Zn(2, INIT) == 0xf2bc_d925;
    assert Zn(3, INIT) == 0xe1b8_affd;
    assert Zn(4, INIT) == 0xc7b0_424d;
    assert Zn(5, INIT) == 0x8ba1_992d;
    assert Zn(6, INIT) == 0x1382_2fed;
    assert Zn(7, INIT) == 0x2704_5fda;
    assert Zn(8, INIT) == 0x4e08_bfb4;
    assert Zn(9, INIT) == 0x9c11_7f68;
    assert Zn(10, INIT) == 0x3ce3_e367;
    assert Zn(11, INIT) == 0x79c7_c6ce;
    assert Zn(12, INIT) == 0xf38f_8d9c;
    assert Zn(13, INIT) == 0xe3de_068f;
    assert Zn(14, INIT) == 0xc37d_10a9;
    assert Zn(15, INIT) == 0x823b_3ce5;
    assert Zn(16, INIT) == 0x00b7_647d;
    assert Zn(17, INIT) == 0x016e_c8fa;
    assert Zn(18, INIT) == 0x02dd_91f4;
    assert Zn(19, INIT) == 0x05bb_23e8;
    assert Zn(20, INIT) == 0x0b76_47d0;
    assert Zn(21, INIT) == 0x16ec_8fa0;
    assert Zn(22, INIT) == 0x2dd9_1f40;
    assert Zn(23, INIT) == 0x5bb2_3e80;
    assert Zn(24, INIT) == 0xb764_7d00;
    assert Zn(25, INIT) == 0x6a09_e7b7;
    assert Zn(26, INIT) == 0xd413_cf6e;
    assert Zn(27, INIT) == 0xace6_836b;
    assert Zn(28, INIT) == 0x5d0c_1b61;
    assert Zn(29, INIT) == 0xba18_36c2;
    assert Zn(30, INIT) == 0x70f1_7033;
    assert Zn(31, INIT) == 0xe1e2_e066;
    assert Zn(32, INIT) == 0xc704_dd7b;
  }
}
