/** The frame CRC: the bitwise form the bridge sends (crc32_core in motor_crc.cpp) and the table-driven one the
simulated Go2 checks with (_crc_table, crc32_words in go2.py). Both are CRC-32/MPEG-2, the long division of a frame's
bits, so they agree on every frame.

Xor, Up and Down only name the machine operations: the proofs go by equations between named terms.
*/
module Crc {

  const POLY: bv32 := 0x04c1_1db7
  const TOP: bv32 := 0x8000_0000
  const INIT: bv32 := 0xFFFF_FFFF

  // --- The division ---------------------------------------------------------------------------------

  function Xor(a: bv32, b: bv32): bv32 {
    a ^ b
  }

  function Up(x: bv32): bv32 {
    x << 1
  }

  function Down(x: bv32): bv32 {
    x >> 1
  }

  predicate Meets(a: bv32, b: bv32) {
    a & b != 0
  }

  predicate HasTop(x: bv32) {
    x & 0x8000_0000 != 0
  }

  // One step of the division on its own.
  function Z(x: bv32): bv32 {
    if HasTop(x) then Xor(Up(x), POLY) else Up(x)
  }

  // The register after one more bit of data.
  function Step(c: bv32, bit: bool): bv32 {
    if bit then Xor(Z(c), POLY) else Z(c)
  }

  // The register after every item of a sequence.
  function Fold<T>(f: (bv32, T) -> bv32, c: bv32, xs: seq<T>): bv32 {
    if xs == [] then c else f(Fold(f, c, xs[..|xs| - 1]), xs[|xs| - 1])
  }

  function Feed(c: bv32, bits: seq<bool>): bv32 {
    Fold(Step, c, bits)
  }

  function Shr(x: bv32, n: nat): bv32 {
    if n == 0 then x else Down(Shr(x, n - 1))
  }

  // Bit k of a word, most significant first.
  predicate Bit(w: bv32, k: nat) {
    Meets(w, Shr(TOP, k))
  }

  function Bits(w: bv32, n: nat): (r: seq<bool>)
    ensures |r| == n
  {
    if n == 0 then [] else Bits(w, n - 1) + [Bit(w, n - 1)]
  }

  function AllBits(ws: seq<bv32>): (r: seq<bool>)
    ensures |r| == 32 * |ws|
  {
    if ws == [] then [] else AllBits(ws[..|ws| - 1]) + Bits(ws[|ws| - 1], 32)
  }

  // The CRC of a frame: what is left of its bits.
  function Crc(ws: seq<bv32>): bv32 {
    Feed(INIT, AllBits(ws))
  }

  lemma {:induction false} FoldConcat<T>(f: (bv32, T) -> bv32, c: bv32, a: seq<T>, b: seq<T>)
    ensures Fold(f, c, a + b) == Fold(f, Fold(f, c, a), b)
    decreases |b|
  {
    if b == [] {
      assert a + b == a;
    } else {
      var n := |b| - 1;
      assert (a + b)[..|a| + n] == a + b[..n];
      FoldConcat(f, c, a, b[..n]);
    }
  }

  lemma FoldOne<T>(f: (bv32, T) -> bv32, c: bv32, xs: seq<T>, x: T)
    ensures Fold(f, c, xs + [x]) == f(Fold(f, c, xs), x)
  {
    assert (xs + [x])[..|xs|] == xs;
  }

  // --- crc32_core -----------------------------------------------------------------------------------

  // One turn of the inner loop on the register.
  method StepCore(crc32: bv32, bit: bool) returns (crc: bv32)
    ensures crc == Step(crc32, bit)
  {
    crc := crc32;
    if crc & 0x8000_0000 != 0 {
      crc := Up(crc);
      crc := Xor(crc, POLY);
    } else {
      crc := Up(crc);
    }
    if bit {
      crc := Xor(crc, POLY);
    }
  }

  method Crc32Core(ptr: array<bv32>, len: nat) returns (crc: bv32)
    requires len <= ptr.Length
    ensures crc == Crc(ptr[..len])
  {
    crc := INIT;
    for i := 0 to len
      invariant crc == Crc(ptr[..i])
    {
      var xbit := TOP;
      var data := ptr[i];
      ghost var before := crc;
      for bits := 0 to 32
        invariant xbit == Shr(TOP, bits)
        invariant crc == Feed(before, Bits(data, bits))
      {
        FoldOne(Step, before, Bits(data, bits), Bit(data, bits));
        crc := StepCore(crc, Meets(data, xbit));
        xbit := Down(xbit);
      }
      FoldConcat(Step, INIT, AllBits(ptr[..i]), Bits(data, 32));
      assert ptr[..i + 1][..i] == ptr[..i];
    }
  }

  // --- The machine operations -------------------------------------------------------------------------

  lemma XorComm(a: bv32, b: bv32)
    ensures Xor(a, b) == Xor(b, a)
  {}

  lemma XorAssoc(a: bv32, b: bv32, c: bv32)
    ensures Xor(Xor(a, b), c) == Xor(a, Xor(b, c))
  {}

  lemma XorTwice(a: bv32, b: bv32)
    ensures Xor(Xor(a, b), b) == a
  {}

  lemma XorZero(a: bv32)
    ensures Xor(a, 0) == a
  {}

  lemma UpXor(a: bv32, b: bv32)
    ensures Up(Xor(a, b)) == Xor(Up(a), Up(b))
  {}

  lemma TopXor(a: bv32, b: bv32)
    ensures HasTop(Xor(a, b)) <==> HasTop(a) != HasTop(b)
  {}

  lemma TopMeets(x: bv32)
    ensures HasTop(x) <==> Meets(x, TOP)
  {}

  lemma UpMeets(x: bv32, m: bv32)
    ensures Meets(Up(x), m) <==> Meets(x, Down(m))
  {}

  lemma XorPast(a: bv32, b: bv32, p: bv32)
    ensures Xor(a, Xor(b, p)) == Xor(Xor(a, p), b)
  {
    XorComm(b, p);
    XorAssoc(a, p, b);
  }

  lemma ZLinearBoth(a: bv32, b: bv32)
    requires HasTop(a) && HasTop(b)
    ensures Z(Xor(a, b)) == Xor(Z(a), Z(b))
  {
    UpXor(a, b);
    TopXor(a, b);
    XorPast(Xor(Up(a), POLY), Up(b), POLY);
    XorTwice(Up(a), POLY);
  }

  lemma ZLinearLeft(a: bv32, b: bv32)
    requires HasTop(a) && !HasTop(b)
    ensures Z(Xor(a, b)) == Xor(Z(a), Z(b))
  {
    UpXor(a, b);
    TopXor(a, b);
    XorAssoc(Up(a), Up(b), POLY);
    XorPast(Up(a), Up(b), POLY);
  }

  lemma ZLinearRest(a: bv32, b: bv32)
    requires !HasTop(a)
    ensures Z(Xor(a, b)) == Xor(Z(a), Z(b))
  {
    UpXor(a, b);
    TopXor(a, b);
    XorAssoc(Up(a), Up(b), POLY);
  }

  lemma ZLinear(a: bv32, b: bv32)
    ensures Z(Xor(a, b)) == Xor(Z(a), Z(b))
  {
    if !HasTop(a) {
      ZLinearRest(a, b);
    } else if HasTop(b) {
      ZLinearBoth(a, b);
    } else {
      ZLinearLeft(a, b);
    }
  }

  // Overlaying the data on the register brings in its top bit, and moves the rest up.
  lemma ZSplits(c: bv32, y: bv32)
    ensures Z(Xor(c, y)) == Xor(Step(c, HasTop(y)), Up(y))
  {
    ZLinear(c, y);
    XorPast(Z(c), Up(y), POLY);
  }

  // --- A word at once -----------------------------------------------------------------------------------

  function Zn(n: nat, x: bv32): bv32 {
    if n == 0 then x else Z(Zn(n - 1, x))
  }

  function Shl(x: bv32, n: nat): bv32 {
    if n == 0 then x else Up(Shl(x, n - 1))
  }

  lemma {:induction false} ShrFront(x: bv32, n: nat)
    ensures Shr(Down(x), n) == Shr(x, n + 1)
  {
    if n > 0 {
      ShrFront(x, n - 1);
    }
  }

  lemma {:induction false} Slide(x: bv32, n: nat, m: bv32)
    ensures Meets(Shl(x, n), m) <==> Meets(x, Shr(m, n))
    decreases n
  {
    if n > 0 {
      UpMeets(Shl(x, n - 1), m);
      Slide(x, n - 1, Down(m));
      ShrFront(m, n - 1);
    }
  }

  lemma BitIsTop(w: bv32, n: nat)
    ensures Bit(w, n) <==> HasTop(Shl(w, n))
  {
    Slide(w, n, TOP);
    TopMeets(Shl(w, n));
  }

  lemma FeedNext(c: bv32, w: bv32, n: nat)
    ensures Feed(c, Bits(w, n + 1)) == Step(Feed(c, Bits(w, n)), HasTop(Shl(w, n)))
  {
    BitIsTop(w, n);
    FoldOne(Step, c, Bits(w, n), Bit(w, n));
  }

  lemma OverlaidStep(f: bv32, y: bv32, x: bv32)
    requires Xor(f, y) == x
    ensures Xor(Step(f, HasTop(y)), Up(y)) == Z(x)
  {
    ZSplits(f, y);
  }

  // Feeding the top n bits of w is n steps on the register with w laid over it, but for the bits still to come.
  lemma {:induction false} FeedTop(c: bv32, w: bv32, n: nat)
    ensures Xor(Feed(c, Bits(w, n)), Shl(w, n)) == Zn(n, Xor(c, w))
  {
    if n > 0 {
      FeedTop(c, w, n - 1);
      FeedNext(c, w, n - 1);
      OverlaidStep(Feed(c, Bits(w, n - 1)), Shl(w, n - 1), Zn(n - 1, Xor(c, w)));
    }
  }

  function Up8(x: bv32): bv32 {
    x << 8
  }

  lemma UpEight(y: bv32)
    ensures Up(Up(Up(Up(Up(Up(Up(Up(y)))))))) == Up8(y)
  {}

  lemma Shl8(x: bv32, n: nat)
    ensures Shl(x, n + 8) == Up8(Shl(x, n))
  {
    var y := Shl(x, n);
    assert Shl(x, n + 2) == Up(Up(y));
    assert Shl(x, n + 4) == Up(Up(Up(Up(y))));
    assert Shl(x, n + 6) == Up(Up(Up(Up(Up(Up(y))))));
    UpEight(y);
  }

  lemma AllUp(x: bv32)
    ensures Up8(Up8(Up8(Up8(x)))) == 0
  {}

  lemma Shl32(x: bv32)
    ensures Shl(x, 32) == 0
  {
    Shl8(x, 0);
    Shl8(x, 8);
    Shl8(x, 16);
    Shl8(x, 24);
    AllUp(x);
  }

  lemma FeedWord(c: bv32, w: bv32)
    ensures Feed(c, Bits(w, 32)) == Zn(32, Xor(c, w))
  {
    FeedTop(c, w, 32);
    Shl32(w);
    XorZero(Feed(c, Bits(w, 32)));
  }

  lemma {:induction false} ZnAdds(m: nat, n: nat, x: bv32)
    ensures Zn(m + n, x) == Zn(m, Zn(n, x))
  {
    if m > 0 {
      ZnAdds(m - 1, n, x);
    }
  }

  lemma {:induction false} ZnLinear(n: nat, a: bv32, b: bv32)
    ensures Zn(n, Xor(a, b)) == Xor(Zn(n, a), Zn(n, b))
  {
    if n > 0 {
      ZnLinear(n - 1, a, b);
      ZLinear(Zn(n - 1, a), Zn(n - 1, b));
    }
  }

  // --- A byte at once: the table ------------------------------------------------------------------------

  function TopByte(x: bv32): bv8 {
    (x >> 24) as bv8
  }

  function AtTop(b: bv8): bv32 {
    (b as bv32) << 24
  }

  function Low(x: bv32): bv32 {
    x & 0x00FF_FFFF
  }

  // The table entry of a byte: what eight steps leave of it.
  function Entry(b: bv8): bv32 {
    Zn(8, AtTop(b))
  }

  function FeedByte(c: bv32, b: bv8): bv32 {
    Xor(Up8(c), Entry(TopByte(c) ^ b))
  }

  lemma SplitByte(x: bv32)
    ensures Xor(AtTop(TopByte(x)), Low(x)) == x
  {}

  lemma TopByteXor(a: bv32, b: bv32)
    ensures TopByte(Xor(a, b)) == TopByte(a) ^ TopByte(b)
  {}

  lemma Up8Xor(a: bv32, b: bv32)
    ensures Up8(Xor(a, b)) == Xor(Up8(a), Up8(b))
  {}

  lemma UpLow(x: bv32)
    ensures Up8(Low(x)) == Up8(x)
  {}

  // No bit of the low three bytes reaches the top within eight steps.
  lemma LowMeets(x: bv32)
    ensures !HasTop(Low(x)) && !HasTop(Up(Low(x))) && !HasTop(Up(Up(Low(x)))) && !HasTop(Up(Up(Up(Low(x)))))
    ensures !HasTop(Up(Up(Up(Up(Low(x)))))) && !HasTop(Up(Up(Up(Up(Up(Low(x)))))))
    ensures !HasTop(Up(Up(Up(Up(Up(Up(Low(x)))))))) && !HasTop(Up(Up(Up(Up(Up(Up(Up(Low(x)))))))))
  {}

  lemma ZnUp(n: nat, x: bv32, u: bv32)
    requires Zn(n, x) == u && !HasTop(u)
    ensures Zn(n + 1, x) == Up(u)
  {}

  lemma LowPasses(x: bv32)
    ensures Zn(8, Low(x)) == Up8(x)
  {
    var y := Low(x);
    LowMeets(x);
    ZnUp(0, y, y);
    ZnUp(1, y, Up(y));
    ZnUp(2, y, Up(Up(y)));
    ZnUp(3, y, Up(Up(Up(y))));
    ZnUp(4, y, Up(Up(Up(Up(y)))));
    ZnUp(5, y, Up(Up(Up(Up(Up(y))))));
    ZnUp(6, y, Up(Up(Up(Up(Up(Up(y)))))));
    ZnUp(7, y, Up(Up(Up(Up(Up(Up(Up(y))))))));
    UpEight(y);
    UpLow(x);
  }

  // Eight steps on the register with data over it are one table look-up, but for the data's other bytes.
  lemma ByteStep(c: bv32, y: bv32)
    ensures Zn(8, Xor(c, y)) == Xor(FeedByte(c, TopByte(y)), Up8(y))
  {
    var x := Xor(c, y);
    SplitByte(x);
    ZnLinear(8, AtTop(TopByte(x)), Low(x));
    LowPasses(x);
    TopByteXor(c, y);
    Up8Xor(c, y);
    XorComm(Entry(TopByte(x)), Xor(Up8(c), Up8(y)));
    XorAssoc(Up8(c), Up8(y), Entry(TopByte(x)));
    XorPast(Up8(c), Up8(y), Entry(TopByte(x)));
  }

  // struct.pack(">I", w): big-endian.
  function Bytes(w: bv32): seq<bv8> {
    [TopByte(w), TopByte(Up8(w)), TopByte(Up8(Up8(w))), TopByte(Up8(Up8(Up8(w))))]
  }

  lemma BytesAreBigEndian(w: bv32)
    ensures ((Bytes(w)[0] as bv32) << 24) | ((Bytes(w)[1] as bv32) << 16) | ((Bytes(w)[2] as bv32) << 8) |
        (Bytes(w)[3] as bv32) == w
  {}

  function FeedBytes(c: bv32, bytes: seq<bv8>): bv32 {
    Fold(FeedByte, c, bytes)
  }

  lemma FoldFour<T>(f: (bv32, T) -> bv32, c: bv32, w: T, x: T, y: T, z: T)
    ensures Fold(f, c, [w, x, y, z]) == f(f(f(f(c, w), x), y), z)
  {
    FoldOne(f, c, [], w);
    FoldOne(f, c, [w], x);
    FoldOne(f, c, [w, x], y);
    FoldOne(f, c, [w, x, y], z);
    assert [] + [w] == [w] && [w] + [x] == [w, x] && [w, x] + [y] == [w, x, y] && [w, x, y] + [z] == [w, x, y, z];
  }

  lemma TwoBytes(c: bv32, w: bv32)
    ensures Zn(16, Xor(c, w)) == Xor(FeedByte(FeedByte(c, TopByte(w)), TopByte(Up8(w))), Up8(Up8(w)))
  {
    ByteStep(c, w);
    ByteStep(FeedByte(c, TopByte(w)), Up8(w));
    ZnAdds(8, 8, Xor(c, w));
  }

  lemma FourBytes(c: bv32, w: bv32)
    ensures FeedBytes(c, Bytes(w)) == Zn(32, Xor(c, w))
  {
    var c2 := FeedByte(FeedByte(c, TopByte(w)), TopByte(Up8(w)));
    TwoBytes(c, w);
    TwoBytes(c2, Up8(Up8(w)));
    ZnAdds(16, 16, Xor(c, w));
    AllUp(w);
    var c4 := FeedByte(FeedByte(c2, TopByte(Up8(Up8(w)))), TopByte(Up8(Up8(Up8(w)))));
    XorZero(c4);
    FoldFour(FeedByte, c, TopByte(w), TopByte(Up8(w)), TopByte(Up8(Up8(w))), TopByte(Up8(Up8(Up8(w)))));
  }

  function AllBytes(ws: seq<bv32>): seq<bv8> {
    if ws == [] then [] else AllBytes(ws[..|ws| - 1]) + Bytes(ws[|ws| - 1])
  }

  // The table form over a frame's big-endian bytes is its CRC, for every frame.
  lemma {:induction false} TableIsBitwise(ws: seq<bv32>)
    ensures FeedBytes(INIT, AllBytes(ws)) == Crc(ws)
  {
    if ws != [] {
      var n := |ws| - 1;
      TableIsBitwise(ws[..n]);
      FoldConcat(FeedByte, INIT, AllBytes(ws[..n]), Bytes(ws[n]));
      FoldConcat(Step, INIT, AllBits(ws[..n]), Bits(ws[n], 32));
      FourBytes(Crc(ws[..n]), ws[n]);
      FeedWord(Crc(ws[..n]), ws[n]);
    }
  }

  // --- _crc_table and crc32_words ---------------------------------------------------------------------------

  // Python's integers grow; here every left shift is masked to 32 bits before anything reads it, and the other
  // operations never leave 32 bits, so a bv32 holds each of them exactly.

  // One turn of the table's inner loop.
  method StepTable(crc: bv32) returns (r: bv32)
    ensures r == Z(crc)
  {
    if HasTop(crc) {
      r := Xor(Up(crc), POLY);
    } else {
      r := Up(crc);
    }
  }

  ghost predicate IsTable(table: seq<bv32>) {
    |table| == 256 && forall b: bv8 :: table[b as nat] == Entry(b)
  }

  method CrcTable() returns (table: seq<bv32>)
    ensures IsTable(table)
  {
    table := [];
    for byte := 0 to 256
      invariant |table| == byte
      invariant forall b: bv8 :: b as nat < byte ==> table[b as nat] == Entry(b)
    {
      var start := AtTop(byte as bv8);
      var crc := start;
      for n := 0 to 8
        invariant crc == Zn(n, start)
      {
        crc := StepTable(crc);
      }
      table := table + [crc];
    }
  }

  // One turn of the loop over the bytes.
  method StepWords(table: seq<bv32>, crc: bv32, byte: bv8) returns (r: bv32)
    requires IsTable(table)
    ensures r == FeedByte(crc, byte)
  {
    var index := TopByte(crc) ^ byte;
    r := Xor(Up8(crc), table[index as nat]);
  }

  method Crc32Words(table: seq<bv32>, words: seq<bv32>) returns (crc: bv32)
    requires IsTable(table)
    ensures crc == Crc(words)
  {
    crc := INIT;
    var bytes := AllBytes(words);
    for i := 0 to |bytes|
      invariant crc == FeedBytes(INIT, bytes[..i])
    {
      crc := StepWords(table, crc, bytes[i]);
      assert bytes[..i + 1] == bytes[..i] + [bytes[i]];
      FoldOne(FeedByte, INIT, bytes[..i], bytes[i]);
    }
    assert bytes[..|bytes|] == bytes;
    TableIsBitwise(words);
  }

  // --- What a CRC tells apart ----------------------------------------------------------------------------------

  lemma UpDown(x: bv32)
    requires !HasTop(x)
    ensures Down(Up(x)) == x
  {}

  lemma UpLosesTop(x: bv32)
    requires HasTop(x)
    ensures Xor(Down(Up(x)), TOP) == x
  {}

  predicate IsOdd(x: bv32) {
    x & 1 != 0
  }

  lemma UpIsEven(x: bv32)
    ensures !IsOdd(Up(x)) && IsOdd(Xor(Up(x), POLY))
  {}

  // POLY is odd, so the step shows which way it went, and can be undone.
  lemma ZInjective(a: bv32, b: bv32)
    requires Z(a) == Z(b)
    ensures a == b
  {
    UpIsEven(a);
    UpIsEven(b);
    if HasTop(a) {
      assert HasTop(b);
      XorTwice(Up(a), POLY);
      XorTwice(Up(b), POLY);
      UpLosesTop(a);
      UpLosesTop(b);
    } else {
      assert !HasTop(b);
      UpDown(a);
      UpDown(b);
    }
  }

  lemma {:induction false} ZnInjective(n: nat, a: bv32, b: bv32)
    requires Zn(n, a) == Zn(n, b)
    ensures a == b
  {
    if n > 0 {
      ZInjective(Zn(n - 1, a), Zn(n - 1, b));
      ZnInjective(n - 1, a, b);
    }
  }

  lemma StepInjective(a: bv32, b: bv32, bit: bool)
    requires Step(a, bit) == Step(b, bit)
    ensures a == b
  {
    if bit {
      XorTwice(Z(a), POLY);
      XorTwice(Z(b), POLY);
    }
    ZInjective(a, b);
  }

  // The same bits never bring two registers together.
  lemma {:induction false} FeedInjective(a: bv32, b: bv32, bits: seq<bool>)
    requires Feed(a, bits) == Feed(b, bits)
    ensures a == b
    decreases |bits|
  {
    if bits != [] {
      var n := |bits| - 1;
      StepInjective(Feed(a, bits[..n]), Feed(b, bits[..n]), bits[n]);
      FeedInjective(a, b, bits[..n]);
    }
  }

  lemma XorCancels(c: bv32, v: bv32, w: bv32)
    requires Xor(c, v) == Xor(c, w)
    ensures v == w
  {
    XorComm(c, v);
    XorComm(c, w);
    XorTwice(v, c);
    XorTwice(w, c);
  }

  // From one register, two words never lead to the same.
  lemma WordsTellApart(c: bv32, v: bv32, w: bv32)
    requires Feed(c, Bits(v, 32)) == Feed(c, Bits(w, 32))
    ensures v == w
  {
    FeedWord(c, v);
    FeedWord(c, w);
    ZnInjective(32, Xor(c, v), Xor(c, w));
    XorCancels(c, v, w);
  }

  lemma CrcOfLast(ws: seq<bv32>)
    requires ws != []
    ensures Crc(ws) == Feed(Crc(ws[..|ws| - 1]), Bits(ws[|ws| - 1], 32))
  {
    FoldConcat(Step, INIT, AllBits(ws[..|ws| - 1]), Bits(ws[|ws| - 1], 32));
  }

  lemma LastWordTold(p: seq<bv32>, w: bv32, v: bv32)
    requires Crc(p + [w]) == Crc(p + [v])
    ensures w == v
  {
    CrcOfLast(p + [w]);
    CrcOfLast(p + [v]);
    assert (p + [w])[..|p|] == p && (p + [v])[..|p|] == p;
    WordsTellApart(Crc(p), w, v);
  }

  lemma LastWordKept(p: seq<bv32>, q: seq<bv32>, w: bv32)
    requires Crc(p + [w]) == Crc(q + [w])
    ensures Crc(p) == Crc(q)
  {
    CrcOfLast(p + [w]);
    CrcOfLast(q + [w]);
    assert (p + [w])[..|p|] == p && (q + [w])[..|q|] == q;
    FeedInjective(Crc(p), Crc(q), Bits(w, 32));
  }

  // Two frames that differ in exactly one word have different CRCs.
  lemma {:induction false} OneWordDetected(ws: seq<bv32>, k: nat, v: bv32)
    requires k < |ws|
    ensures Crc(ws[k := v]) == Crc(ws) <==> v == ws[k]
    decreases |ws|
  {
    var n := |ws| - 1;
    var p, last := ws[..n], ws[n];
    assert ws == p + [last];
    if v == ws[k] {
      assert ws[k := v] == ws;
    } else if Crc(ws[k := v]) == Crc(ws) {
      if k == n {
        assert ws[k := v] == p + [v];
        LastWordTold(p, last, v);
      } else {
        assert ws[k := v] == p[k := v] + [last];
        LastWordKept(p[k := v], p, last);
        OneWordDetected(p, k, v);
      }
    }
  }

  // --- Bursts ------------------------------------------------------------------------------------------------------

  function Down8(y: bv32): bv32 {
    y >> 8
  }

  lemma DownEight(y: bv32)
    ensures Down(Down(Down(Down(Down(Down(Down(Down(y)))))))) == Down8(y)
  {}

  lemma Shr8(x: bv32, n: nat)
    ensures Shr(x, n + 8) == Down8(Shr(x, n))
  {
    var y := Shr(x, n);
    assert Shr(x, n + 2) == Down(Down(y));
    assert Shr(x, n + 4) == Down(Down(Down(Down(y))));
    assert Shr(x, n + 6) == Down(Down(Down(Down(Down(Down(y))))));
    DownEight(y);
  }

  lemma LastMask()
    ensures Shr(TOP, 31) == 1
  {
    Shr8(TOP, 0);
    Shr8(TOP, 8);
    Shr8(TOP, 16);
    assert Shr(TOP, 24) == 0x80;
    assert Shr(TOP, 25) == 0x40;
    assert Shr(TOP, 27) == 0x10;
    assert Shr(TOP, 29) == 4;
  }

  lemma {:induction false} ZeroStays(x: bv32, k: nat, n: nat)
    requires Shr(x, k) == 0 && k <= n
    ensures Shr(x, n) == 0
    decreases n
  {
    if k < n {
      ZeroStays(x, k, n - 1);
    }
  }

  lemma MaskNonZero(k: nat)
    requires k < 32
    ensures Shr(TOP, k) != 0
  {
    LastMask();
    if Shr(TOP, k) == 0 {
      ZeroStays(TOP, k, 31);
    }
  }

  lemma DownMeets(a: bv32, b: bv32)
    requires !Meets(a, b)
    ensures !Meets(Down(a), Down(b))
  {}

  lemma TopMeetsNoDown(y: bv32)
    ensures !Meets(TOP, Down(y))
  {}

  lemma {:induction false} MasksDisjoint(j: nat, k: nat)
    requires j < k
    ensures !Meets(Shr(TOP, j), Shr(TOP, k))
    decreases j
  {
    if j == 0 {
      TopMeetsNoDown(Shr(TOP, k - 1));
    } else {
      MasksDisjoint(j - 1, k - 1);
      DownMeets(Shr(TOP, j - 1), Shr(TOP, k - 1));
    }
  }

  lemma MeetsComm(a: bv32, b: bv32)
    ensures Meets(a, b) <==> Meets(b, a)
  {}

  lemma MeetsPast(p: bv32, q: bv32, m: bv32)
    requires !Meets(q, m)
    ensures Meets(Xor(p, q), m) <==> Meets(p, m)
  {}

  lemma MeetsNew(p: bv32, q: bv32)
    requires !Meets(p, q) && q != 0
    ensures Meets(Xor(p, q), q)
  {}

  // The word with these bits at its top.
  function Pack(bits: seq<bool>): bv32 {
    if bits == [] then 0
    else if bits[|bits| - 1] then Xor(Pack(bits[..|bits| - 1]), Shr(TOP, |bits| - 1))
    else Pack(bits[..|bits| - 1])
  }

  lemma {:induction false} PackedBit(bits: seq<bool>, k: nat)
    requires |bits| <= 32 && k < 32
    ensures Bit(Pack(bits), k) <==> k < |bits| && bits[k]
    decreases |bits|
  {
    if bits == [] {
      assert !Meets(0, Shr(TOP, k));
    } else {
      var n := |bits| - 1;
      var p, q := Pack(bits[..n]), Shr(TOP, n);
      PackedBit(bits[..n], k);
      if k == n {
        MaskNonZero(n);
        if bits[n] {
          MeetsNew(p, q);
        }
      } else {
        if k < n {
          MasksDisjoint(k, n);
        } else {
          MasksDisjoint(n, k);
        }
        MeetsComm(q, Shr(TOP, k));
        MeetsPast(p, q, Shr(TOP, k));
      }
    }
  }

  lemma {:induction false} BitsAt(w: bv32, n: nat, k: nat)
    requires k < n
    ensures Bits(w, n)[k] == Bit(w, k)
    decreases n
  {
    if k < n - 1 {
      BitsAt(w, n - 1, k);
    }
  }

  lemma PackedBits(bits: seq<bool>)
    requires |bits| == 32
    ensures Bits(Pack(bits), 32) == bits
  {
    forall k: nat | k < 32
      ensures Bits(Pack(bits), 32)[k] == bits[k]
    {
      BitsAt(Pack(bits), 32, k);
      PackedBit(bits, k);
    }
  }

  // From one register, two windows of up to 32 bits never lead to the same.
  lemma WindowsTellApart(c: bv32, m: seq<bool>, l: seq<bool>)
    requires |m| == |l| <= 32 && Feed(c, m) == Feed(c, l)
    ensures m == l
  {
    var pad := seq(32 - |m|, _ => false);
    FoldConcat(Step, c, m, pad);
    FoldConcat(Step, c, l, pad);
    PackedBits(m + pad);
    PackedBits(l + pad);
    WordsTellApart(c, Pack(m + pad), Pack(l + pad));
    assert m == (m + pad)[..|m|] && l == (l + pad)[..|m|];
  }

  lemma SplitsAlike<T>(a: seq<T>, x: seq<T>, b: seq<T>, y: seq<T>)
    requires a + x == b + y && |a| == |b|
    ensures a == b && x == y
  {
    assert a == (a + x)[..|a|] && b == (b + y)[..|b|];
    assert x == (a + x)[|a|..] && y == (b + y)[|b|..];
  }

  lemma SameBits(w: bv32, v: bv32)
    requires Bits(w, 32) == Bits(v, 32)
    ensures w == v
  {
    WordsTellApart(INIT, w, v);
  }

  lemma LastWordsAlike(p: seq<bv32>, w: bv32, q: seq<bv32>, v: bv32)
    requires |p| == |q| && AllBits(p) + Bits(w, 32) == AllBits(q) + Bits(v, 32)
    ensures AllBits(p) == AllBits(q) && w == v
  {
    SplitsAlike(AllBits(p), Bits(w, 32), AllBits(q), Bits(v, 32));
    SameBits(w, v);
  }

  lemma {:induction false} FramesHaveTheirBits(ws: seq<bv32>, vs: seq<bv32>)
    requires |ws| == |vs| && AllBits(ws) == AllBits(vs)
    ensures ws == vs
  {
    if ws != [] {
      var n := |ws| - 1;
      LastWordsAlike(ws[..n], ws[n], vs[..n], vs[n]);
      FramesHaveTheirBits(ws[..n], vs[..n]);
      assert ws == ws[..n] + [ws[n]] && vs == vs[..n] + [vs[n]];
    }
  }

  // Frames that differ at most within 32 consecutive bits, wherever these begin, have the same CRC only if they are
  // the same frame.
  lemma BurstDetected(ws: seq<bv32>, vs: seq<bv32>, start: nat, n: nat)
    requires |ws| == |vs| && n <= 32 && start + n <= 32 * |ws|
    requires AllBits(ws)[..start] == AllBits(vs)[..start]
    requires AllBits(ws)[start + n..] == AllBits(vs)[start + n..]
    ensures Crc(ws) == Crc(vs) <==> ws == vs
  {
    var s, t := AllBits(ws), AllBits(vs);
    var m, l, rest := s[start..start + n], t[start..start + n], s[start + n..];
    assert s == s[..start] + m + rest && t == s[..start] + l + rest;
    var c := Feed(INIT, s[..start]);
    FoldConcat(Step, INIT, s[..start] + m, rest);
    FoldConcat(Step, INIT, s[..start] + l, rest);
    FoldConcat(Step, INIT, s[..start], m);
    FoldConcat(Step, INIT, s[..start], l);
    if Crc(ws) == Crc(vs) {
      FeedInjective(Feed(c, m), Feed(c, l), rest);
      WindowsTellApart(c, m, l);
      FramesHaveTheirBits(ws, vs);
    }
  }
}
