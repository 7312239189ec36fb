/** The board's MAC address, derived from the chip's 96-bit unique id (aems_network_config.h). */
module NetworkIdentity {
  import opened Bytes
  import opened Packing

  const SEED: Word := 0xA35A11CE
  const FIRST: nat := 0x7feb352d
  const SECOND: nat := 0x846ca68b
  const FIRST_INVERSE: nat := 0x1d69e2a5
  const SECOND_INVERSE: nat := 0x43021123

  /** An unsigned 32-bit word. */
  type Word = x: int | 0 <= x < 0x1_0000_0000

  // ----- exclusive or and shifts of numbers -----

  function Xor(a: nat, b: nat): nat
    decreases a + b
  {
    if a == 0 && b == 0 then 0 else 2 * Xor(a / 2, b / 2) + (a + b) % 2
  }

  function Shr(v: nat, k: nat): nat
    decreases k
  {
    if k == 0 then v else Shr(v / 2, k - 1)
  }

  lemma {:induction false} XorBelow(a: nat, b: nat, n: nat)
    requires a < Pow2(n) && b < Pow2(n)
    ensures Xor(a, b) < Pow2(n)
    decreases n
  {
    if n > 0 { XorBelow(a / 2, b / 2, n - 1); }
  }

  lemma {:induction false} XorZero(a: nat)
    ensures Xor(a, 0) == a && Xor(0, a) == a
  {
    if a > 0 { XorZero(a / 2); }
  }

  lemma {:induction false} XorSelf(a: nat)
    ensures Xor(a, a) == 0
  {
    if a > 0 { XorSelf(a / 2); }
  }

  lemma XorParts(a: nat, b: nat)
    ensures Xor(a, b) / 2 == Xor(a / 2, b / 2) && Xor(a, b) % 2 == (a + b) % 2
    ensures Xor(a, b) == 2 * Xor(a / 2, b / 2) + (a + b) % 2
  {}

  lemma SameParity(a: nat, b: nat, c: nat, x: nat, y: nat)
    requires x % 2 == (a + b) % 2 && y % 2 == (b + c) % 2
    ensures (x + c) % 2 == (a + y) % 2
  {}

  lemma {:induction false} XorAssociative(a: nat, b: nat, c: nat)
    ensures Xor(Xor(a, b), c) == Xor(a, Xor(b, c))
    decreases a + b + c
  {
    if a + b + c > 0 {
      var x, y := Xor(a, b), Xor(b, c);
      XorAssociative(a / 2, b / 2, c / 2);
      XorParts(a, b);
      XorParts(b, c);
      XorParts(x, c);
      XorParts(a, y);
      SameParity(a, b, c, x, y);
      hide Xor;
    }
  }

  /** What was added twice is gone. */
  lemma XorUndone(a: nat, b: nat)
    ensures Xor(Xor(a, b), b) == a && Xor(b, Xor(b, a)) == a
  {
    XorAssociative(a, b, b);
    XorAssociative(b, b, a);
    XorSelf(b);
    XorZero(a);
  }

  lemma {:induction false} ShrXor(a: nat, b: nat, k: nat)
    ensures Shr(Xor(a, b), k) == Xor(Shr(a, k), Shr(b, k))
    decreases k
  {
    if k > 0 {
      XorParts(a, b);
      ShrXor(a / 2, b / 2, k - 1);
    }
  }

  lemma {:induction false} ShrShr(v: nat, j: nat, k: nat)
    ensures Shr(Shr(v, j), k) == Shr(v, j + k)
    decreases j
  {
    if j > 0 { ShrShr(v / 2, j - 1, k); }
  }

  lemma {:induction false} ShrAway(v: nat, k: nat)
    requires v < Pow2(k)
    ensures Shr(v, k) == 0
    decreases k
  {
    if k > 0 { ShrAway(v / 2, k - 1); }
  }

  lemma {:induction false} ShrSmaller(v: nat, k: nat)
    ensures Shr(v, k) <= v
    decreases k
  {
    if k > 0 { ShrSmaller(v / 2, k - 1); }
  }

  lemma Pow2Of32()
    ensures Pow2(32) == 0x1_0000_0000
  {
    assert Pow2(8) == 0x100;
    assert Pow2(16) == 0x1_0000;
    assert Pow2(24) == 0x100_0000;
  }

  lemma WordXor(a: Word, b: Word)
    ensures Xor(a, b) < 0x1_0000_0000
  {
    Pow2Of32();
    XorBelow(a, b, 32);
  }

  lemma {:induction false} ShrFarAway(v: nat, n: nat, k: nat)
    requires v < Pow2(n) && n <= k
    ensures Shr(v, k) == 0
    decreases k
  {
    if n == k { ShrAway(v, k); } else { ShrFarAway(v / 2, if n == 0 then 0 else n - 1, k - 1); }
  }

  // ----- the rounds of the mixer -----

  function Plus(a: Word, b: Word): Word {
    WordXor(a, b);
    Xor(a, b)
  }

  /** `value ^= value >> k`. */
  function Fold(v: Word, k: nat): Word {
    ShrSmaller(v, k);
    Plus(v, Shr(v, k))
  }

  function Unfold15(v: Word): Word {
    ShrSmaller(v, 30);
    Plus(Fold(v, 15), Shr(v, 30))
  }

  /** `value *= factor`, in 32 bits. */
  function Scale(v: Word, factor: nat): Word {
    v * factor % 0x1_0000_0000
  }

  /** `AEMS_Network_Mix32`. */
  function Mix32(v: Word): Word {
    Fold(Scale(Fold(Scale(Fold(v, 16), FIRST), 15), SECOND), 16)
  }

  /** The mixer run backwards. */
  function Unmix32(v: Word): Word {
    Fold(Scale(Unfold15(Scale(Fold(v, 16), SECOND_INVERSE)), FIRST_INVERSE), 16)
  }

  lemma Fold16Undone(v: Word)
    ensures Fold(Fold(v, 16), 16) == v
  {
    var s := Shr(v, 16);
    Pow2Of32();
    ShrXor(v, s, 16);
    ShrShr(v, 16, 16);
    ShrAway(v, 32);
    XorZero(s);
    XorUndone(v, s);
  }

  /** Both shift pairs cancel: 15 with 15, 30 with 30. */
  lemma Fold15Undone(v: Word)
    ensures Unfold15(Fold(v, 15)) == v
  {
    var s, t := Shr(v, 15), Shr(v, 30);
    Pow2Of32();
    ShrShr(v, 15, 15);
    ShrXor(v, s, 15);
    ShrXor(v, s, 30);
    ShrShr(v, 15, 30);
    ShrFarAway(v, 32, 45);
    XorZero(t);
    XorAssociative(Xor(v, s), s, t);
    XorUndone(v, s);
    XorUndone(v, t);
  }

  lemma Unfold15Undone(v: Word)
    ensures Fold(Unfold15(v), 15) == v
  {
    var s, t := Shr(v, 15), Shr(v, 30);
    var u := Xor(Xor(v, s), t);
    Pow2Of32();
    ShrXor(Xor(v, s), t, 15);
    ShrXor(v, s, 15);
    ShrShr(v, 15, 15);
    ShrShr(v, 30, 15);
    ShrFarAway(v, 32, 45);
    assert Shr(u, 15) == Xor(Xor(s, t), 0);
    XorZero(Xor(s, t));
    XorAssociative(v, s, t);
    XorUndone(v, Xor(s, t));
  }

  lemma ModShift(v: Word, t: int)
    ensures (v + 0x1_0000_0000 * t) % 0x1_0000_0000 == v
  {}

  lemma Wraps(x: nat)
    ensures x == 0x1_0000_0000 * (x / 0x1_0000_0000) + x % 0x1_0000_0000
  {}

  lemma FirstUndone(v: Word)
    ensures Scale(Scale(v, FIRST), FIRST_INVERSE) == v
  {
    var q, r := v * FIRST / 0x1_0000_0000, v * FIRST % 0x1_0000_0000;
    Wraps(v * FIRST);
    ModShift(v, v * 0xeb28dbf - q * FIRST_INVERSE);
    assert r * FIRST_INVERSE == v + 0x1_0000_0000 * (v * 0xeb28dbf - q * FIRST_INVERSE);
  }

  lemma FirstInverseUndone(v: Word)
    ensures Scale(Scale(v, FIRST_INVERSE), FIRST) == v
  {
    var q, r := v * FIRST_INVERSE / 0x1_0000_0000, v * FIRST_INVERSE % 0x1_0000_0000;
    Wraps(v * FIRST_INVERSE);
    ModShift(v, v * 0xeb28dbf - q * FIRST);
    assert r * FIRST == v + 0x1_0000_0000 * (v * 0xeb28dbf - q * FIRST);
  }

  lemma SecondUndone(v: Word)
    ensures Scale(Scale(v, SECOND), SECOND_INVERSE) == v
  {
    var q, r := v * SECOND / 0x1_0000_0000, v * SECOND % 0x1_0000_0000;
    Wraps(v * SECOND);
    ModShift(v, v * 0x22a9814d - q * SECOND_INVERSE);
    assert r * SECOND_INVERSE == v + 0x1_0000_0000 * (v * 0x22a9814d - q * SECOND_INVERSE);
  }

  lemma SecondInverseUndone(v: Word)
    ensures Scale(Scale(v, SECOND_INVERSE), SECOND) == v
  {
    var q, r := v * SECOND_INVERSE / 0x1_0000_0000, v * SECOND_INVERSE % 0x1_0000_0000;
    Wraps(v * SECOND_INVERSE);
    ModShift(v, v * 0x22a9814d - q * SECOND);
    assert r * SECOND == v + 0x1_0000_0000 * (v * 0x22a9814d - q * SECOND);
  }

  /** The mixer is a bijection of 32-bit words. */
  lemma MixerIsBijection(v: Word)
    ensures Unmix32(Mix32(v)) == v && Mix32(Unmix32(v)) == v
  {
    hide Fold, Unfold15, Scale;
    var a := Fold(v, 16);
    var b := Scale(a, FIRST);
    var c := Fold(b, 15);
    Fold16Undone(v);
    FirstUndone(a);
    Fold15Undone(b);
    SecondUndone(c);
    Fold16Undone(Scale(c, SECOND));
    var e := Scale(a, SECOND_INVERSE);
    var f := Unfold15(e);
    SecondInverseUndone(a);
    Unfold15Undone(e);
    FirstInverseUndone(f);
    Fold16Undone(Scale(f, FIRST_INVERSE));
  }

  // ----- the hash of the unique id -----

  function UidHash(w0: Word, w1: Word, w2: Word): Word {
    Mix32(Plus(Mix32(Plus(Mix32(Plus(SEED, w0)), w1)), w2))
  }

  lemma RoundInjective(state: Word, v: Word, w: Word)
    ensures Mix32(Plus(state, v)) == Mix32(Plus(state, w)) ==> v == w
    ensures Mix32(Plus(v, state)) == Mix32(Plus(w, state)) ==> v == w
  {
    hide Mix32, Unmix32, Xor;
    MixerIsBijection(Plus(state, v));
    MixerIsBijection(Plus(state, w));
    MixerIsBijection(Plus(v, state));
    MixerIsBijection(Plus(w, state));
    XorUndone(v, state);
    XorUndone(w, state);
  }

  /** Before truncation the hash separates any two ids that differ in a single word. */
  lemma HashInjectiveInEachWord(w0: Word, w1: Word, w2: Word, v: Word)
    ensures UidHash(w0, w1, w2) == UidHash(v, w1, w2) ==> w0 == v
    ensures UidHash(w0, w1, w2) == UidHash(w0, v, w2) ==> w1 == v
    ensures UidHash(w0, w1, w2) == UidHash(w0, w1, v) ==> w2 == v
  {
    hide Mix32, Plus;
    var s0, t0 := Mix32(Plus(SEED, w0)), Mix32(Plus(SEED, v));
    var s1 := Mix32(Plus(s0, w1));
    RoundInjective(s1, w2, v);
    RoundInjective(w2, s1, Mix32(Plus(s0, v)));
    RoundInjective(s0, w1, v);
    RoundInjective(w2, s1, Mix32(Plus(t0, w1)));
    RoundInjective(w1, s0, t0);
    RoundInjective(SEED, w0, v);
  }

  /** And with the other two words fixed every hash occurs, so the 24 bits kept take every value. */
  lemma EveryHashOccurs(w0: Word, w1: Word, target: Word) returns (w2: Word)
    ensures UidHash(w0, w1, w2) == target
  {
    hide Mix32, Unmix32, Xor;
    var s1 := Mix32(Plus(Mix32(Plus(SEED, w0)), w1));
    w2 := Plus(s1, Unmix32(target));
    XorUndone(Unmix32(target), s1);
    MixerIsBijection(target);
  }

  /** `AEMS_Network_GetMac`: a fixed prefix and the low 24 bits of the hash, high byte first. */
  method GetMac(w0: Word, w1: Word, w2: Word, mac: array<Byte>)
    requires mac.Length == 6
    modifies mac
    ensures mac[0] == 0x02 && mac[1] == 0x80 && mac[2] == 0xE1
    ensures 65536 * mac[3] as int + 256 * mac[4] as int + mac[5] as int == UidHash(w0, w1, w2) % 0x100_0000
  {
    hide Mix32, Plus;
    var hash := SEED;
    hash := Mix32(Plus(hash, w0));
    hash := Mix32(Plus(hash, w1));
    hash := Mix32(Plus(hash, w2));
    mac[0], mac[1], mac[2] := 0x02, 0x80, 0xE1;
    mac[3] := (hash / 65536 % 256) as Byte;
    mac[4] := (hash / 256 % 256) as Byte;
    mac[5] := (hash % 256) as Byte;
    Spelled(hash);
  }

  lemma Spelled(hash: Word)
    ensures 65536 * (hash / 65536 % 256) + 256 * (hash / 256 % 256) + hash % 256 == hash % 0x100_0000
  {
    assert hash / 256 == 256 * (hash / 65536) + hash / 256 % 256;
    assert hash / 65536 == 256 * (hash / 0x100_0000) + hash / 65536 % 256;
  }

  /**
   Two ids that differ in the third word and still get the same address have hashes that differ in the eight bits not
   kept.
   */
  lemma SharedAddress(w0: Word, w1: Word, w2: Word, v: Word)
    requires w2 != v && UidHash(w0, w1, w2) % 0x100_0000 == UidHash(w0, w1, v) % 0x100_0000
    ensures UidHash(w0, w1, w2) / 0x100_0000 != UidHash(w0, w1, v) / 0x100_0000
  {
    HashInjectiveInEachWord(w0, w1, w2, v);
  }

  lemma ZeroStays()
    ensures Mix32(0) == 0
  {
    FoldZero(16);
    FoldZero(15);
    ScaleZero(FIRST);
    ScaleZero(SECOND);
    hide Fold, Scale;
  }

  lemma ScaleZero(factor: nat)
    ensures Scale(0, factor) == 0
  {}

  lemma FoldZero(k: nat)
    ensures Fold(0, k) == 0
  {
    ShrZero(k);
    XorZero(0);
  }

  lemma {:induction false} ShrZero(k: nat)
    ensures Shr(0, k) == 0
  {
    if k > 0 { ShrZero(k - 1); }
  }

  /**
   The three words enter one after the other: a first word equal to the seed leaves the hash of the other two, a
   second word of 0 then that of the third, and no other first word does.
   */
  lemma WordsEnterInOrder(w0: Word, w1: Word, w2: Word)
    ensures UidHash(SEED, w1, w2) == Mix32(Plus(Mix32(w1), w2)) && UidHash(SEED, 0, w2) == Mix32(w2)
    ensures UidHash(w0, 0, w2) == Mix32(w2) <==> w0 == SEED
  {
    XorSelf(SEED);
    ZeroStays();
    XorZero(w1);
    XorZero(w2);
    XorZero(0);
    hide Mix32, Xor;
    assert UidHash(SEED, 0, w2) == Mix32(w2);
    HashInjectiveInEachWord(w0, 0, w2, SEED);
  }

  // ----- a value of the mixer -----

  lemma XorDouble(a: nat, b: nat, x: nat, y: nat)
    requires x < 2 && y < 2
    ensures Xor(2 * a + x, 2 * b + y) == 2 * Xor(a, b) + (x + y) % 2
  {
    var u, v := 2 * a + x, 2 * b + y;
    assert u / 2 == a && v / 2 == b && (u + v) % 2 == (x + y) % 2;
  }

  /** Two more binary digits. */
  lemma XorQuadruple(a: nat, b: nat, x: nat, y: nat)
    requires x < 4 && y < 4
    ensures Xor(4 * a + x, 4 * b + y) == 4 * Xor(a, b) + Xor(x, y)
  {
    hide Xor;
    var p, q, r, s := x / 2, y / 2, x % 2, y % 2;
    XorDouble(a, b, p, q);
    XorDouble(2 * a + p, 2 * b + q, r, s);
    XorDouble(0, 0, p, q);
    XorDouble(p, q, r, s);
    XorSelf(0);
  }

  /** One more hexadecimal digit. */
  lemma XorDigit(a: nat, b: nat, x: nat, y: nat)
    requires x < 16 && y < 16
    ensures Xor(16 * a + x, 16 * b + y) == 16 * Xor(a, b) + Xor(x, y)
  {
    hide Xor;
    var p, q, r, s := x / 4, y / 4, x % 4, y % 4;
    XorQuadruple(a, b, p, q);
    XorQuadruple(4 * a + p, 4 * b + q, r, s);
    XorQuadruple(p, q, r, s);
  }

  lemma {:induction false} ShrDivides(v: nat, k: nat)
    ensures Shr(v, k) == v / Pow2(k)
    decreases k
  {
    if k > 0 {
      ShrDivides(v / 2, k - 1);
      HalvedTwice(v, Pow2(k - 1));
    }
  }

  lemma Shifts(v: nat)
    ensures Shr(v, 16) == v / 0x1_0000 && Shr(v, 15) == v / 0x8000
  {
    hide Shr;
    ShrDivides(v, 15);
    ShrDivides(v, 16);
    assert Pow2(8) == 0x100;
    assert Pow2(15) == 0x8000;
  }

  lemma FirstDigits()
    ensures Xor(1, 10) == 11 && Xor(1, 3) == 2 && Xor(12, 5) == 9 && Xor(14, 10) == 4
  {
    hide Xor;
    SmallDigits();
    XorQuadruple(0, 2, 1, 2);
    XorQuadruple(3, 1, 0, 1);
    XorQuadruple(3, 2, 2, 2);
  }

  lemma MiddleDigits()
    ensures Xor(6, 1) == 7 && Xor(0, 10) == 10 && Xor(8, 15) == 7 && Xor(0, 8) == 8 && Xor(4, 12) == 8
  {
    hide Xor;
    SmallDigits();
    XorZero(10);
    XorZero(8);
    XorQuadruple(1, 0, 2, 1);
    XorQuadruple(2, 3, 0, 3);
    XorQuadruple(1, 3, 0, 0);
  }

  lemma LastDigits()
    ensures Xor(2, 6) == 4 && Xor(6, 13) == 11 && Xor(13, 6) == 11 && Xor(8, 10) == 2
  {
    hide Xor;
    SmallDigits();
    XorQuadruple(0, 1, 2, 2);
    XorQuadruple(1, 3, 2, 1);
    XorQuadruple(3, 1, 1, 2);
    XorQuadruple(2, 2, 0, 2);
  }

  lemma SmallDigits()
    ensures forall x: nat :: x < 4 ==> Xor(x, x) == 0 && Xor(0, x) == x && Xor(x, 0) == x
    ensures Xor(1, 2) == 3 && Xor(2, 1) == 3 && Xor(1, 3) == 2 && Xor(3, 1) == 2 && Xor(3, 2) == 1 && Xor(2, 3) == 1
  {
    hide Xor;
    forall x: nat | x < 4 ensures Xor(x, x) == 0 && Xor(0, x) == x && Xor(x, 0) == x {
      XorSelf(x);
      XorZero(x);
    }
    XorDouble(0, 1, 1, 0);
    XorDouble(1, 0, 0, 1);
    XorDouble(0, 1, 1, 1);
    XorDouble(1, 0, 1, 1);
    XorDouble(1, 1, 1, 0);
    XorDouble(1, 1, 0, 1);
  }

  lemma FoldIs(v: Word, k: nat, shifted: nat, r: nat)
    requires Shr(v, k) == shifted && Xor(v, shifted) == r
    ensures Fold(v, k) == r
  {
    hide Xor, Shr;
  }

  lemma FirstFold()
    ensures Xor(0xA35A11CE, 0xA35A) == 0xA35AB294
  {
    hide Xor;
    FirstDigits();
    XorZero(0xA35A);
    XorDigit(0xA35A, 0, 1, 10);
    XorDigit(0xA35A1, 10, 1, 3);
    XorDigit(0xA35A11, 0xA3, 12, 5);
    XorDigit(0xA35A11C, 0xA35, 14, 10);
  }

  lemma MiddleFold()
    ensures Xor(0xD7C60804, 0x1AF8C) == 0xD7C7A788
  {
    hide Xor;
    MiddleDigits();
    XorZero(0xD7C);
    XorDigit(0xD7C, 0, 6, 1);
    XorDigit(0xD7C6, 1, 0, 10);
    XorDigit(0xD7C60, 0x1A, 8, 15);
    XorDigit(0xD7C608, 0x1AF, 0, 8);
    XorDigit(0xD7C6080, 0x1AF8, 4, 12);
  }

  lemma LastFold()
    ensures Xor(0x6D6A26D8, 0x6D6A) == 0x6D6A4BB2
  {
    hide Xor;
    LastDigits();
    XorZero(0x6D6A);
    XorDigit(0x6D6A, 0, 2, 6);
    XorDigit(0x6D6A2, 6, 6, 13);
    XorDigit(0x6D6A26, 0x6D, 13, 6);
    XorDigit(0x6D6A26D, 0x6D6, 8, 10);
  }

  lemma SeedScaled()
    ensures Scale(0xA35AB294, FIRST) == 0xD7C60804 && Scale(0xD7C7A788, SECOND) == 0x6D6A26D8
  {}

  /** The seed is mixed as the firmware does: shifts 16, 15, 16 and these two factors. */
  lemma SeedMixed()
    ensures Mix32(SEED) == 0x6D6A4BB2
  {
    hide Fold, Scale, Xor, Shr;
    FirstFold();
    MiddleFold();
    LastFold();
    SeedShifted();
    SeedScaled();
    FoldIs(0xA35A11CE, 16, 0xA35A, 0xA35AB294);
    FoldIs(0xD7C60804, 15, 0x1AF8C, 0xD7C7A788);
    FoldIs(0x6D6A26D8, 16, 0x6D6A, 0x6D6A4BB2);
  }

  lemma SeedShifted()
    ensures Shr(0xA35A11CE, 16) == 0xA35A && Shr(0xD7C60804, 15) == 0x1AF8C && Shr(0x6D6A26D8, 16) == 0x6D6A
  {
    hide Shr;
    Shifts(0xA35A11CE);
    Shifts(0xD7C60804);
    Shifts(0x6D6A26D8);
  }
}
