/**
 The bitwise CRC of the ADC driver (ads131m08.c): generator x^16 + x^12 + x^5 + 1, most significant bit
 first, as in section 2 of ITU-T Recommendation V.41, with the register's initial value a parameter.
 */
module Crc {

  const POLY: bv16 := 0x1021

  predicate Top(c: bv16) {
    c & 0x8000 != 0
  }

  function Shl(c: bv16): bv16 {
    c << 1
  }

  /** Addition of polynomials over GF(2). */
  function Plus(c: bv16, d: bv16): bv16 {
    c ^ d
  }

  /** One data bit into the register. */
  function Step(c: bv16, bit: bool): bv16 {
    if bit != Top(c) then Plus(Shl(c), POLY) else Shl(c)
  }

  function CrcBits(c: bv16, bits: seq<bool>): bv16
    decreases |bits|
  {
    if bits == [] then c else CrcBits(Step(c, bits[0]), bits[1..])
  }

  /** The bits of an octet, most significant first. */
  function BitsOf(b: bv8): (bits: seq<bool>)
    ensures |bits| == 8
  {
    [b & 0x80 != 0, b & 0x40 != 0, b & 0x20 != 0, b & 0x10 != 0,
     b & 0x08 != 0, b & 0x04 != 0, b & 0x02 != 0, b & 0x01 != 0]
  }

  function Bits(bytes: seq<bv8>): (bits: seq<bool>)
    ensures |bits| == 8 * |bytes|
  {
    if bytes == [] then [] else Bits(bytes[..|bytes| - 1]) + BitsOf(bytes[|bytes| - 1])
  }

  function Crc16(bytes: seq<bv8>, init: bv16): bv16 {
    CrcBits(init, Bits(bytes))
  }

  // ----- continuing a computation -----

  lemma {:induction false} CrcBitsAppend(c: bv16, a: seq<bool>, b: seq<bool>)
    ensures CrcBits(c, a + b) == CrcBits(CrcBits(c, a), b)
    decreases |a|
  {
    if a == [] {
      assert a + b == b;
    } else {
      assert (a + b)[1..] == a[1..] + b;
      CrcBitsAppend(Step(c, a[0]), a[1..], b);
    }
  }

  lemma {:induction false} BitsAppend(x: seq<bv8>, y: seq<bv8>)
    ensures Bits(x + y) == Bits(x) + Bits(y)
    decreases |y|
  {
    if y == [] {
      assert x + y == x;
    } else {
      var n := |y| - 1;
      assert (x + y)[..|x + y| - 1] == x + y[..n];
      BitsAppend(x, y[..n]);
    }
  }

  /** A message split anywhere: the CRC of the first part is the initial value for the second. */
  lemma CrcContinues(x: seq<bv8>, y: seq<bv8>, init: bv16)
    ensures Crc16(x + y, init) == Crc16(y, Crc16(x, init))
  {
    BitsAppend(x, y);
    CrcBitsAppend(init, Bits(x), Bits(y));
  }

  // ----- the code -----

  lemma CrcSnoc(c: bv16, bits: seq<bool>, bit: bool)
    ensures CrcBits(c, bits + [bit]) == Step(CrcBits(c, bits), bit)
  {
    CrcBitsAppend(c, bits, [bit]);
    assert CrcBits(CrcBits(c, bits), [bit]) == CrcBits(Step(CrcBits(c, bits), bit), [bit][1..]);
  }

  function MaskAt(k: nat): bv8
    requires k <= 8
  {
    if k == 0 then 0x80 else MaskAt(k - 1) >> 1
  }

  lemma Masks()
    ensures MaskAt(0) == 0x80 && MaskAt(1) == 0x40 && MaskAt(2) == 0x20 && MaskAt(3) == 0x10
    ensures MaskAt(4) == 0x08 && MaskAt(5) == 0x04 && MaskAt(6) == 0x02 && MaskAt(7) == 0x01 && MaskAt(8) == 0
  {
    assert MaskAt(1) == 0x40;
    assert MaskAt(2) == 0x20;
    assert MaskAt(3) == 0x10;
    assert MaskAt(4) == 0x08;
    assert MaskAt(5) == 0x04;
    assert MaskAt(6) == 0x02;
    assert MaskAt(7) == 0x01;
  }

  lemma MaskPicks(b: bv8, k: nat)
    requires k < 8
    ensures MaskAt(k) != 0 && (b & MaskAt(k) != 0) == BitsOf(b)[k] && MaskAt(8) == 0
  {
    Masks();
  }

  lemma NoBits(c: bv16, bits: seq<bool>)
    ensures CrcBits(c, bits[..0]) == c && Bits([]) == []
  {}

  lemma NextBit(c: bv16, bits: seq<bool>, k: nat)
    requires k < |bits|
    ensures CrcBits(c, bits[..k + 1]) == Step(CrcBits(c, bits[..k]), bits[k])
  {
    CrcSnoc(c, bits[..k], bits[k]);
    assert bits[..k + 1] == bits[..k] + [bits[k]];
  }

  lemma NextOctet(c: bv16, bytes: seq<bv8>, i: nat)
    requires i < |bytes|
    ensures CrcBits(c, Bits(bytes[..i + 1])) == CrcBits(CrcBits(c, Bits(bytes[..i])), BitsOf(bytes[i]))
  {
    hide BitsOf, Step;
    assert bytes[..i + 1][..i] == bytes[..i];
    CrcBitsAppend(c, Bits(bytes[..i]), BitsOf(bytes[i]));
  }

  /** `calculateCRC`: the loop over bytes and the loop over the bits of one, highest first. */
  method CalculateCrc(data: array<bv8>, numberBytes: nat, initialValue: bv16) returns (crc: bv16)
    requires numberBytes <= data.Length
    ensures crc == Crc16(data[..numberBytes], initialValue)
  {
    hide BitsOf, Step, MaskAt, CrcBits, Bits;
    ghost var bytes := data[..numberBytes];
    crc := initialValue;
    var i := 0;
    NoBits(initialValue, []);
    assert bytes[..0] == [] && Bits([])[..0] == [];
    while i < numberBytes
      invariant i <= numberBytes && crc == CrcBits(initialValue, Bits(bytes[..i]))
    {
      ghost var before, bits := crc, BitsOf(data[i]);
      var bitIndex: bv8 := 0x80;
      ghost var k := 0;
      NoBits(before, bits);
      assert bitIndex == MaskAt(0) by { Masks(); }
      while bitIndex > 0
        invariant k <= 8 && bitIndex == MaskAt(k) && crc == CrcBits(before, bits[..k])
        decreases 8 - k
      {
        if k == 8 { Masks(); }
        MaskPicks(data[i], k);
        NextBit(before, bits, k);
        crc := ShiftIn(crc, data[i] & bitIndex != 0);
        bitIndex := bitIndex >> 1;
        k := k + 1;
        assert bitIndex == MaskAt(k) by { MaskNext(k); }
      }
      if k < 8 { MaskPicks(data[i], k); }
      assert bits[..k] == bits;
      NextOctet(initialValue, bytes, i);
      i := i + 1;
    }
    assert bytes[..i] == bytes;
  }

  lemma MaskNext(k: nat)
    requires 1 <= k <= 8
    ensures MaskAt(k) == MaskAt(k - 1) >> 1
  {}

  /** The body of the inner loop. */
  method ShiftIn(crc: bv16, dataMSb: bool) returns (next: bv16)
    ensures next == Step(crc, dataMSb)
  {
    var crcMSb := crc & 0x8000 != 0;
    next := crc << 1;
    if dataMSb != crcMSb {
      next := next ^ POLY;
    }
  }

  // ----- a message with its own CRC -----

  function High(c: bv16): bv8 {
    ((c >> 8) & 0xFF) as bv8
  }

  function Low(c: bv16): bv8 {
    (c & 0xFF) as bv8
  }

  /** The top `n` bits of a register, in the order in which they leave it. */
  function TopBits(c: bv16, n: nat): (bits: seq<bool>)
    ensures |bits| == n
    decreases n
  {
    if n == 0 then [] else [Top(c)] + TopBits(Shl(c), n - 1)
  }

  function Shifted(c: bv16, n: nat): bv16
    decreases n
  {
    if n == 0 then c else Shifted(Shl(c), n - 1)
  }

  /** Fed with its own bits a register only shifts. */
  lemma {:induction false} OwnBitsShift(c: bv16, n: nat)
    ensures CrcBits(c, TopBits(c, n)) == Shifted(c, n)
    decreases n
  {
    if n > 0 {
      var bits := TopBits(c, n);
      assert bits[0] == Top(c) && bits[1..] == TopBits(Shl(c), n - 1);
      OwnBitsShift(Shl(c), n - 1);
    }
  }

  function Shl4(c: bv16): bv16 {
    Shl(Shl(Shl(Shl(c))))
  }

  /** The top four bits. */
  function Nibble(c: bv16): (bits: seq<bool>)
    ensures |bits| == 4
  {
    [c & 0x8000 != 0, c & 0x4000 != 0, c & 0x2000 != 0, c & 0x1000 != 0]
  }

  lemma FourAway(c: bv16)
    ensures Shl4(Shl4(Shl4(Shl4(c)))) == 0
  {}

  lemma ShiftFour(c: bv16, n: nat)
    ensures Shifted(c, n + 4) == Shifted(Shl4(c), n)
  {
    hide Shl;
    assert Shifted(c, n + 4) == Shifted(Shl(c), n + 3);
    assert Shifted(Shl(c), n + 3) == Shifted(Shl(Shl(c)), n + 2);
    assert Shifted(Shl(Shl(c)), n + 2) == Shifted(Shl(Shl(Shl(c))), n + 1);
  }

  lemma ShiftedOut(c: bv16)
    ensures Shifted(c, 16) == 0
  {
    FourAway(c);
    hide Shl4, Shl;
    ShiftFour(c, 12);
    ShiftFour(Shl4(c), 8);
    ShiftFour(Shl4(Shl4(c)), 4);
    ShiftFour(Shl4(Shl4(Shl4(c))), 0);
    assert Shifted(c, 16) == Shifted(Shl4(Shl4(Shl4(Shl4(c)))), 0);
  }

  lemma NibbleTops(c: bv16)
    ensures Nibble(c) == [Top(c), Top(Shl(c)), Top(Shl(Shl(c))), Top(Shl(Shl(Shl(c))))]
  {}

  lemma TopCons(c: bv16, n: nat)
    ensures TopBits(c, n + 1) == [Top(c)] + TopBits(Shl(c), n)
  {
    hide Top, Shl;
  }

  lemma ConsFour(a: bool, b: bool, c: bool, d: bool, rest: seq<bool>)
    ensures [a] + ([b] + ([c] + ([d] + rest))) == [a, b, c, d] + rest
  {}

  lemma TopFour(c: bv16, n: nat)
    ensures TopBits(c, n + 4) == Nibble(c) + TopBits(Shl4(c), n)
  {
    NibbleTops(c);
    hide Shl, Top, Nibble, TopBits;
    var c1, c2, c3 := Shl(c), Shl(Shl(c)), Shl(Shl(Shl(c)));
    TopCons(c, n + 3);
    TopCons(c1, n + 2);
    TopCons(c2, n + 1);
    TopCons(c3, n);
    ConsFour(Top(c), Top(c1), Top(c2), Top(c3), TopBits(Shl4(c), n));
  }

  lemma TopEight(c: bv16, n: nat)
    ensures TopBits(c, n + 8) == (Nibble(c) + Nibble(Shl4(c))) + TopBits(Shl4(Shl4(c)), n)
  {
    hide Shl4, Nibble;
    TopFour(c, n + 4);
    TopFour(Shl4(c), n);
    Joined(Nibble(c), Nibble(Shl4(c)), TopBits(Shl4(Shl4(c)), n));
  }

  lemma Joined(a: seq<bool>, b: seq<bool>, c: seq<bool>)
    ensures a + (b + c) == (a + b) + c
  {}

  lemma OctetsOfWord(c: bv16)
    ensures Bits([High(c), Low(c)]) == TopBits(c, 16)
  {
    HighBits(c);
    LowBits(c);
    TwoOctets(High(c), Low(c));
    hide Shl4, Nibble, BitsOf, High, Low, Bits;
    var c8 := Shl4(Shl4(c));
    TopEight(c, 8);
    TopEight(c8, 0);
    assert TopBits(c8, 8) == BitsOf(Low(c)) by { NothingMore(BitsOf(Low(c)), TopBits(Shl4(Shl4(c8)), 0)); }
  }

  lemma NothingMore(a: seq<bool>, b: seq<bool>)
    requires b == []
    ensures a + b == a
  {}

  lemma TwoOctets(x: bv8, y: bv8)
    ensures Bits([x, y]) == BitsOf(x) + BitsOf(y)
  {
    hide BitsOf;
    assert [x, y][..1] == [x] && [x][..0] == [];
  }

  lemma HighBits(c: bv16)
    ensures BitsOf(High(c)) == Nibble(c) + Nibble(Shl4(c))
  {}

  lemma LowBits(c: bv16)
    ensures BitsOf(Low(c)) == Nibble(Shl4(Shl4(c))) + Nibble(Shl4(Shl4(Shl4(c))))
  {}

  /** A message followed by its own CRC, high byte first, has CRC zero. */
  lemma OwnCrcIsZero(message: seq<bv8>, init: bv16)
    ensures var c := Crc16(message, init);
            Crc16(message + [High(c), Low(c)], init) == 0
  {
    var c := Crc16(message, init);
    CrcContinues(message, [High(c), Low(c)], init);
    OctetsOfWord(c);
    OwnBitsShift(c, 16);
    ShiftedOut(c);
  }

  // ----- the check value -----

  /** One octet into the register. */
  function Octet(c: bv16, x: bv8): bv16 {
    Step(Step(Step(Step(Step(Step(Step(Step(c, x & 0x80 != 0), x & 0x40 != 0), x & 0x20 != 0), x & 0x10 != 0),
      x & 0x08 != 0), x & 0x04 != 0), x & 0x02 != 0), x & 0x01 != 0)
  }

  lemma NextOfBits(c: bv16, bits: seq<bool>, k: nat)
    requires k < |bits|
    ensures CrcBits(c, bits[k..]) == CrcBits(Step(c, bits[k]), bits[k + 1..])
  {
    hide Step;
    assert bits[k..][1..] == bits[k + 1..];
  }

  function Four(c: bv16, p: bool, q: bool, r: bool, s: bool): bv16 {
    Step(Step(Step(Step(c, p), q), r), s)
  }

  lemma FourBits(c: bv16, bits: seq<bool>, k: nat)
    requires k + 4 <= |bits|
    ensures CrcBits(c, bits[k..]) == CrcBits(Four(c, bits[k], bits[k + 1], bits[k + 2], bits[k + 3]), bits[k + 4..])
  {
    hide Step, CrcBits;
    var d := Step(Step(c, bits[k]), bits[k + 1]);
    NextOfBits(c, bits, k);
    NextOfBits(Step(c, bits[k]), bits, k + 1);
    NextOfBits(d, bits, k + 2);
    NextOfBits(Step(d, bits[k + 2]), bits, k + 3);
  }

  lemma EightBits(c: bv16, x: bv8)
    ensures CrcBits(c, BitsOf(x)) == Octet(c, x)
  {
    var b := BitsOf(x);
    OctetBits(x);
    var d := Four(c, b[0], b[1], b[2], b[3]);
    FourBits(c, b, 0);
    FourBits(d, b, 4);
    NoBits(Four(d, b[4], b[5], b[6], b[7]), b);
    assert b[0..] == b && b[8..] == b[..0];
    hide Step, CrcBits, BitsOf;
  }

  lemma OctetBits(x: bv8)
    ensures BitsOf(x) == [x & 0x80 != 0, x & 0x40 != 0, x & 0x20 != 0, x & 0x10 != 0,
                          x & 0x08 != 0, x & 0x04 != 0, x & 0x02 != 0, x & 0x01 != 0]
  {}

  lemma NextOctetOf(message: seq<bv8>, x: bv8, init: bv16)
    ensures Crc16(message + [x], init) == Octet(Crc16(message, init), x)
  {
    CrcContinues(message, [x], init);
    assert [x][..0] == [];
    assert Bits([x]) == [] + BitsOf(x) == BitsOf(x);
    EightBits(Crc16(message, init), x);
    hide Step, CrcBits, Octet;
  }

  /** The digits 1 to 9 in ASCII. */
  const DIGITS: seq<bv8> := [0x31, 0x32, 0x33, 0x34, 0x35, 0x36, 0x37, 0x38, 0x39]

  lemma FirstDigits()
    ensures Crc16(DIGITS[..5], 0xFFFF) == 0x4560
  {
    NothingRead();
    hide Crc16;
    CheckDigit(0, 0xFFFF, 0xC782);
    CheckDigit(1, 0xC782, 0x3DBA);
    CheckDigit(2, 0x3DBA, 0x5BCE);
    CheckDigit(3, 0x5BCE, 0x5349);
    CheckDigit(4, 0x5349, 0x4560);
  }

  /** The check value of this CRC with initial value 0xFFFF. */
  lemma CheckValue()
    ensures Crc16(DIGITS, 0xFFFF) == 0x29B1
  {
    hide Crc16;
    FirstDigits();
    CheckDigit(5, 0x4560, 0x2EF4);
    CheckDigit(6, 0x2EF4, 0x7718);
    CheckDigit(7, 0x7718, 0xA12B);
    CheckDigit(8, 0xA12B, 0x29B1);
    assert DIGITS[..9] == DIGITS;
  }

  lemma NothingRead()
    ensures Crc16(DIGITS[..0], 0xFFFF) == 0xFFFF
  {}

  lemma CheckDigit(k: nat, before: bv16, after: bv16)
    requires k < |DIGITS| && Crc16(DIGITS[..k], 0xFFFF) == before && Octet(before, DIGITS[k]) == after
    ensures Crc16(DIGITS[..k + 1], 0xFFFF) == after
  {
    hide Crc16, Octet;
    NextOctetOf(DIGITS[..k], DIGITS[k], 0xFFFF);
    assert DIGITS[..k + 1] == DIGITS[..k] + [DIGITS[k]];
  }

  // ----- bursts -----

  function Xor(a: seq<bool>, b: seq<bool>): (d: seq<bool>)
    requires |a| == |b|
    ensures |d| == |a|
  {
    seq(|a|, i requires 0 <= i < |a| => a[i] != b[i])
  }

  lemma StepLinear(c: bv16, d: bv16, a: bool, b: bool)
    ensures Step(Plus(c, d), a != b) == Plus(Step(c, a), Step(d, b))
  {
    TopPlus(c, d);
    ShlPlus(c, d);
    PlusMoves(Shl(c), Shl(d), POLY);
    hide Top, Shl, Plus;
  }

  lemma TopPlus(c: bv16, d: bv16)
    ensures Top(Plus(c, d)) == (Top(c) != Top(d))
  {}

  lemma ShlPlus(c: bv16, d: bv16)
    ensures Shl(Plus(c, d)) == Plus(Shl(c), Shl(d))
  {}

  lemma PlusMoves(x: bv16, y: bv16, p: bv16)
    ensures Plus(Plus(x, y), p) == Plus(Plus(x, p), y) == Plus(x, Plus(y, p))
    ensures Plus(x, y) == Plus(Plus(x, p), Plus(y, p))
  {}

  /** The register is linear in its contents and the data. */
  lemma {:induction false} CrcLinear(c: bv16, d: bv16, a: seq<bool>, b: seq<bool>)
    requires |a| == |b|
    ensures CrcBits(Plus(c, d), Xor(a, b)) == Plus(CrcBits(c, a), CrcBits(d, b))
    decreases |a|
  {
    hide Step, Plus;
    if a != [] {
      StepLinear(c, d, a[0], b[0]);
      assert Xor(a, b)[1..] == Xor(a[1..], b[1..]);
      CrcLinear(Step(c, a[0]), Step(d, b[0]), a[1..], b[1..]);
    }
  }

  lemma StepInjective(c: bv16, d: bv16, bit: bool)
    ensures Step(c, bit) == Step(d, bit) ==> c == d
  {
    LowOfShl(c);
    LowOfShl(d);
    SameFeedback(Shl(c), Shl(d));
    Halves(c, d);
    hide Shl, Top, Plus;
  }

  lemma LowOfShl(c: bv16)
    ensures Shl(c) & 1 == 0
  {}

  lemma SameFeedback(x: bv16, y: bv16)
    requires x & 1 == 0 && y & 1 == 0
    ensures Plus(x, POLY) != y && x != Plus(y, POLY) && (Plus(x, POLY) == Plus(y, POLY) ==> x == y)
  {}

  lemma Halves(c: bv16, d: bv16)
    ensures Shl(c) == Shl(d) && Top(c) == Top(d) ==> c == d
  {}

  /** The same data never makes two different registers equal. */
  lemma {:induction false} CrcInjective(c: bv16, d: bv16, bits: seq<bool>)
    requires CrcBits(c, bits) == CrcBits(d, bits)
    ensures c == d
    decreases |bits|
  {
    hide Step;
    if bits != [] {
      CrcInjective(Step(c, bits[0]), Step(d, bits[0]), bits[1..]);
      StepInjective(c, d, bits[0]);
    }
  }

  /** One bit placed above what is in the top of a register. */
  function Above(bit: bool, rest: bv16): bv16 {
    (if bit then 0x8000 else 0) | (rest >> 1)
  }

  /** Bits in the top of a register, the first one highest. */
  function Placed(bits: seq<bool>): bv16
    decreases |bits|
  {
    if bits == [] then 0 else Above(bits[0], Placed(bits[1..]))
  }

  /** The bits below the top `n`. */
  function Below(n: nat): bv16 {
    if n == 0 then 0xFFFF else Below(n - 1) >> 1
  }

  lemma {:induction false} PlacedAbove(bits: seq<bool>)
    ensures Placed(bits) & Below(|bits|) == 0
    decreases |bits|
  {
    if bits != [] { PlacedAbove(bits[1..]); }
  }

  lemma BelowIsOdd(n: nat)
    requires n <= 15
    ensures Below(n) & 1 == 1
  {
    assert Below(1) == 0x7FFF && Below(2) == 0x3FFF;
    assert Below(3) == 0x1FFF && Below(4) == 0x0FFF;
    assert Below(5) == 0x07FF && Below(6) == 0x03FF;
    assert Below(7) == 0x01FF && Below(8) == 0x00FF;
    assert Below(9) == 0x007F && Below(10) == 0x003F;
    assert Below(11) == 0x001F && Below(12) == 0x000F;
    assert Below(13) == 0x0007 && Below(14) == 0x0003 && Below(15) == 1;
  }

  lemma StepBack(c: bv16, bit: bool, next: bv16)
    requires Step(c, bit) == next && next & 1 == 0
    ensures c == Above(bit, next)
  {
    FeedbackIsOdd(c);
    Unshift(c);
    hide Shl, Plus, Top, Above;
  }

  lemma FeedbackIsOdd(c: bv16)
    ensures Plus(Shl(c), POLY) & 1 == 1
  {}

  lemma Unshift(c: bv16)
    ensures c == Above(Top(c), Shl(c))
  {}

  lemma LowBitClear(x: bv16, m: bv16)
    requires x & m == 0 && m & 1 == 1
    ensures x & 1 == 0
  {}

  /** If at most sixteen bits bring the register to zero, it held exactly these bits. */
  lemma {:induction false} ZeroComesFrom(c: bv16, bits: seq<bool>)
    requires |bits| <= 16 && CrcBits(c, bits) == 0
    ensures c == Placed(bits)
    decreases |bits|
  {
    hide Step, Below, Above;
    if bits != [] {
      var next := Step(c, bits[0]);
      ZeroComesFrom(next, bits[1..]);
      PlacedAbove(bits[1..]);
      BelowIsOdd(|bits| - 1);
      LowBitClear(next, Below(|bits| - 1));
      StepBack(c, bits[0], next);
    }
  }

  lemma {:induction false} PlacedNothing(bits: seq<bool>)
    requires |bits| <= 16 && Placed(bits) == 0
    ensures forall i :: 0 <= i < |bits| ==> !bits[i]
    decreases |bits|
  {
    hide Below, Above;
    if bits != [] {
      var rest := Placed(bits[1..]);
      PlacedAbove(bits[1..]);
      BelowIsOdd(|bits| - 1);
      LowBitClear(rest, Below(|bits| - 1));
      NothingAbove(bits[0], rest);
      PlacedNothing(bits[1..]);
      forall i | 0 <= i < |bits| ensures !bits[i] {
        if i > 0 { assert bits[i] == bits[1..][i - 1]; }
      }
    }
  }

  lemma NothingAbove(bit: bool, rest: bv16)
    requires Above(bit, rest) == 0 && rest & 1 == 0
    ensures !bit && rest == 0
  {}

  lemma PlusSelf(c: bv16)
    ensures Plus(c, c) == 0
  {}

  lemma PlusSame(c: bv16, d: bv16)
    ensures c == d ==> Plus(c, d) == 0
  {}

  /** Two messages of the same length that differ, but only within sixteen consecutive bits. */
  ghost predicate BurstApart(x: seq<bool>, y: seq<bool>, p: nat, n: nat) {
    && |x| == |y| && n <= 16 && p + n <= |x| && x != y
    && x[..p] == y[..p] && x[p + n..] == y[p + n..]
  }

  lemma BurstBitsDiffer(x: seq<bool>, y: seq<bool>, p: nat, n: nat, init: bv16)
    requires BurstApart(x, y, p, n)
    ensures CrcBits(init, x) != CrcBits(init, y)
  {
    var u, v := x[p..p + n], y[p..p + n];
    assert x == x[..p] + (u + x[p + n..]) && y == y[..p] + (v + y[p + n..]);
    CrcBitsAppend(init, x[..p], u + x[p + n..]);
    CrcBitsAppend(init, y[..p], v + y[p + n..]);
    var c := CrcBits(init, x[..p]);
    CrcBitsAppend(c, u, x[p + n..]);
    CrcBitsAppend(c, v, y[p + n..]);
    if CrcBits(init, x) == CrcBits(init, y) {
      CrcInjective(CrcBits(c, u), CrcBits(c, v), x[p + n..]);
      CrcLinear(c, c, u, v);
      PlusSelf(c);
      PlusSame(CrcBits(c, u), CrcBits(c, v));
      ZeroComesFrom(0, Xor(u, v));
      PlacedNothing(Xor(u, v));
      SameWithout(u, v);
    }
  }

  lemma SameWithout(u: seq<bool>, v: seq<bool>)
    requires |u| == |v| && forall i :: 0 <= i < |u| ==> !Xor(u, v)[i]
    ensures u == v
  {
    assert forall i :: 0 <= i < |u| ==> Xor(u, v)[i] == (u[i] != v[i]);
  }

  /** Every error burst of at most sixteen bits changes the CRC, whatever the initial value. */
  lemma BurstsAreDetected(x: seq<bv8>, y: seq<bv8>, p: nat, n: nat, init: bv16)
    requires BurstApart(Bits(x), Bits(y), p, n)
    ensures Crc16(x, init) != Crc16(y, init)
  {
    BurstBitsDiffer(Bits(x), Bits(y), p, n, init);
  }

  lemma {:induction false} ZerosChangeNothing(n: nat)
    ensures CrcBits(0, seq(n, _ => false)) == 0
  {
    if n > 0 {
      assert seq(n, _ => false)[1..] == seq(n - 1, _ => false);
      StepZero();
      ZerosChangeNothing(n - 1);
    }
  }

  lemma StepZero()
    ensures Step(0, false) == 0 && Step(0, true) == POLY
  {}

  /** The seventeen bits of the generator, highest power first. */
  function Generator(): (bits: seq<bool>)
    ensures |bits| == 17
  {
    [true] + TopBits(POLY, 16)
  }

  /** Of seventeen bits only none and the generator bring a zero register back to zero. */
  lemma ZeroAfterSeventeen(bits: seq<bool>)
    requires |bits| == 17
    ensures CrcBits(0, bits) == 0 <==> bits == Generator() || bits == seq(17, _ => false)
  {
    StepZero();
    OwnBitsShift(POLY, 16);
    ShiftedOut(POLY);
    ZerosChangeNothing(16);
    hide Step, TopBits, Shifted;
    var later, top := bits[1..], TopBits(POLY, 16);
    assert bits == [bits[0]] + later;
    if bits[0] {
      assert CrcBits(0, bits) == CrcBits(POLY, later);
      if CrcBits(POLY, later) == 0 { OnlyOneToZero(POLY, later, top); }
    } else {
      assert CrcBits(0, bits) == CrcBits(0, later);
      assert seq(17, _ => false)[1..] == seq(16, _ => false) && seq(17, _ => false) == [false] + seq(16, _ => false);
      if CrcBits(0, later) == 0 { OnlyOneToZero(0, later, seq(16, _ => false)); }
    }
  }

  /** Only one sequence of sixteen bits brings a register to zero. */
  lemma OnlyOneToZero(c: bv16, a: seq<bool>, b: seq<bool>)
    requires |a| == |b| == 16 && CrcBits(c, a) == 0 && CrcBits(c, b) == 0
    ensures a == b
  {
    CrcLinear(c, c, a, b);
    PlusSelf(c);
    PlusSelf(0);
    hide Plus, CrcBits;
    ZeroComesFrom(0, Xor(a, b));
    PlacedNothing(Xor(a, b));
    SameWithout(a, b);
  }

  /** Two messages of the same length that agree outside seventeen consecutive bits. */
  ghost predicate ApartBySeventeen(x: seq<bool>, y: seq<bool>, p: nat) {
    |x| == |y| && p + 17 <= |x| && x[..p] == y[..p] && x[p + 17..] == y[p + 17..]
  }

  /** The registers agree after the messages exactly if the difference of the seventeen bits leaves no trace. */
  lemma SameCrcIff(x: seq<bool>, y: seq<bool>, p: nat, init: bv16)
    requires ApartBySeventeen(x, y, p)
    ensures CrcBits(init, x) == CrcBits(init, y) <==> CrcBits(0, Xor(x[p..p + 17], y[p..p + 17])) == 0
  {
    var u, v, tail := x[p..p + 17], y[p..p + 17], x[p + 17..];
    assert x == x[..p] + (u + tail) && y == x[..p] + (v + tail);
    var c := CrcBits(init, x[..p]);
    CrcBitsAppend(init, x[..p], u + tail);
    CrcBitsAppend(init, x[..p], v + tail);
    CrcBitsAppend(c, u, tail);
    CrcBitsAppend(c, v, tail);
    CrcLinear(c, c, u, v);
    PlusSelf(c);
    PlusZeroIff(CrcBits(c, u), CrcBits(c, v));
    hide CrcBits, Plus;
    if CrcBits(init, x) == CrcBits(init, y) { CrcInjective(CrcBits(c, u), CrcBits(c, v), tail); }
  }

  lemma PlusZeroIff(c: bv16, d: bv16)
    ensures Plus(c, d) == 0 <==> c == d
  {}

  lemma NoDifference(u: seq<bool>, v: seq<bool>)
    requires |u| == |v| == 17
    ensures Xor(u, v) == seq(17, _ => false) <==> u == v
  {
    if Xor(u, v) == seq(17, _ => false) { SameWithout(u, v); }
  }

  lemma SameAround(x: seq<bool>, y: seq<bool>, p: nat)
    requires ApartBySeventeen(x, y, p) && x[p..p + 17] == y[p..p + 17]
    ensures x == y
  {
    assert x == x[..p] + x[p..p + 17] + x[p + 17..];
    assert y == y[..p] + y[p..p + 17] + y[p + 17..];
  }

  /**
   Sixteen is the limit, and the generator is the only exception at seventeen: messages that differ, but
   only within seventeen consecutive bits, have the same CRC if and only if their difference there is the
   generator, at any offset and whatever the initial value.
   */
  lemma SeventeenBitsEscape(x: seq<bv8>, y: seq<bv8>, p: nat, init: bv16)
    requires ApartBySeventeen(Bits(x), Bits(y), p) && Bits(x) != Bits(y)
    ensures Crc16(x, init) == Crc16(y, init) <==> Xor(Bits(x)[p..p + 17], Bits(y)[p..p + 17]) == Generator()
  {
    var u, v := Bits(x)[p..p + 17], Bits(y)[p..p + 17];
    SameCrcIff(Bits(x), Bits(y), p, init);
    ZeroAfterSeventeen(Xor(u, v));
    NoDifference(u, v);
    hide CrcBits, Bits, Generator;
    if u == v { SameAround(Bits(x), Bits(y), p); }
  }

  /** Such messages exist. */
  lemma EscapeExists(init: bv16)
    ensures Crc16([0, 0, 0], init) == Crc16([0x88, 0x10, 0x80], init)
  {
    var x, y: seq<bv8> := [0, 0, 0], [0x88, 0x10, 0x80];
    ThreeOctets(0, 0, 0);
    ThreeOctets(0x88, 0x10, 0x80);
    GeneratorBits();
    hide TopBits, Bits, Crc16;
    assert !Bits(x)[0] && Bits(y)[0];
    assert Xor(Bits(x)[0..17], Bits(y)[0..17]) == Generator();
    SeventeenBitsEscape(x, y, 0, init);
  }

  lemma ThreeOctets(x: bv8, y: bv8, z: bv8)
    ensures Bits([x, y, z]) == BitsOf(x) + BitsOf(y) + BitsOf(z)
  {
    hide BitsOf;
    assert [x, y, z][..2] == [x, y];
    TwoOctets(x, y);
  }

  lemma GeneratorBits()
    ensures Generator() == [true] + BitsOf(0x10) + BitsOf(0x21)
  {
    OctetsOfWord(POLY);
    assert High(POLY) == 0x10 && Low(POLY) == 0x21;
    TwoOctets(0x10, 0x21);
    hide BitsOf, TopBits;
  }
}
