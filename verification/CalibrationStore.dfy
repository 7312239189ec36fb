/**
 The stored offset calibration (daq_engine.c): a record of ten 32-bit words, the last a checksum over the
 others, written after a calibration and read back at start-up. Signed offsets are handled as the words
 they are stored as.
 */
module CalibrationStore {

  const MAGIC: bv32 := 0x314C4143
  const VERSION: bv32 := 1
  const CHANNELS: nat := 6
  const RECORD_WORDS: nat := 10
  const FS_OK: int := 0
  const FS_READ_FILE: int := -9

  type Offsets = o: seq<bv32> | |o| == CHANNELS witness [0, 0, 0, 0, 0, 0]

  function Plus(a: bv32, b: bv32): bv32 {
    a ^ b
  }

  /** `(checksum << 5) | (checksum >> 27)`. */
  function Rotated(c: bv32): bv32 {
    (c << 5) | (c >> 27)
  }

  /** The loop of `DAQ_CalibrationChecksum` over these offsets. */
  function Mix(c: bv32, offsets: seq<bv32>): bv32
    decreases |offsets|
  {
    if offsets == [] then c else Rotated(Plus(Mix(c, offsets[..|offsets| - 1]), offsets[|offsets| - 1]))
  }

  function Seed(): bv32 {
    Plus(Plus(MAGIC, VERSION), 6)
  }

  function Checksum(offsets: Offsets): bv32 {
    Mix(Seed(), offsets)
  }

  /** What a save writes. */
  function RecordOf(offsets: Offsets): (words: seq<bv32>)
    ensures |words| == RECORD_WORDS
  {
    [MAGIC, VERSION, 6] + offsets + [Checksum(offsets)]
  }

  /** The tests of `DAQ_LoadOffsetCalibration` on what it read. */
  predicate Accepted(words: seq<bv32>) {
    && |words| == RECORD_WORDS
    && words[0] == MAGIC && words[1] == VERSION && words[2] == 6
    && words[9] == Mix(Plus(Plus(words[0], words[1]), words[2]), words[3..9])
  }

  /** `DAQ_CalibrationChecksum`. */
  method ComputeChecksum(magic: bv32, version: bv32, channels: bv32, offsets: Offsets) returns (checksum: bv32)
    ensures checksum == Mix(Plus(Plus(magic, version), channels), offsets)
  {
    hide Plus, Rotated;
    checksum := Plus(Plus(magic, version), channels);
    ghost var seed := checksum;
    var channel := 0;
    while channel < CHANNELS
      invariant channel <= CHANNELS && checksum == Mix(seed, offsets[..channel])
    {
      checksum := Plus(checksum, offsets[channel]);
      checksum := Rotated(checksum);
      assert offsets[..channel + 1][..channel] == offsets[..channel];
      channel := channel + 1;
    }
    assert offsets[..channel] == offsets;
  }

  /** The calibration in memory and the file it is kept in. */
  class Store {
    var values: Offsets
    var averaged: nat
    var status: int
    /** The words of "ocal.cfg", when it exists. */
    var present: bool
    var file: seq<bv32>

    constructor ()
      ensures values == [0, 0, 0, 0, 0, 0] && !present
    {
      values, averaged, status, present, file := [0, 0, 0, 0, 0, 0], 0, 0, false, [];
    }

    /**
     `DAQ_LoadOffsetCalibration`; `openStatus` and `readStatus` are the file system's answers. The offsets
     change only when the record passes every test.
     */
    method Load(openStatus: int, readStatus: int) returns (result: int)
      requires !present ==> openStatus != FS_OK
      modifies `values, `averaged, `status
      ensures result == status
      ensures openStatus != FS_OK ==> result == openStatus && values == old(values)
      ensures openStatus == FS_OK ==>
                if readStatus == FS_OK && Accepted(file) then result == FS_OK && values == file[3..9] && averaged == 0
                else result == FS_READ_FILE && values == old(values)
    {
      if openStatus != FS_OK {
        status := openStatus;
        return openStatus;
      }
      if readStatus != FS_OK || |file| != RECORD_WORDS || file[0] != MAGIC || file[1] != VERSION || file[2] != 6 {
        status := FS_READ_FILE;
        return FS_READ_FILE;
      }
      var checksum := ComputeChecksum(file[0], file[1], file[2], file[3..9]);
      if file[9] != checksum {
        status := FS_READ_FILE;
        return FS_READ_FILE;
      }
      values := file[3..9];
      averaged := 0;
      status := FS_OK;
      return FS_OK;
    }

    /** `DAQ_SaveOffsetCalibration`; a failed write leaves the truncated file empty. */
    method Save(openStatus: int, writeStatus: int, closeStatus: int) returns (result: int)
      modifies `present, `file, `status
      ensures result == status
      ensures result == FS_OK <==> openStatus == FS_OK && writeStatus == FS_OK && closeStatus == FS_OK
      ensures openStatus == FS_OK && writeStatus == FS_OK ==> present && file == RecordOf(values)
      ensures openStatus != FS_OK ==> file == old(file) && present == old(present)
    {
      var checksum := ComputeChecksum(MAGIC, VERSION, 6, values);
      result := openStatus;
      if openStatus == FS_OK {
        present, file := true, [];
        result := writeStatus;
        if writeStatus == FS_OK {
          file := [MAGIC, VERSION, 6] + values + [checksum];
        }
        if result == FS_OK {
          result := closeStatus;
        }
      }
      status := result;
    }
  }

  // ----- what loading accepts -----

  /** Loading accepts exactly the records that saving writes, and gives back their offsets. */
  lemma AcceptedIff(words: seq<bv32>)
    ensures Accepted(words) <==> |words| == RECORD_WORDS && words == RecordOf(words[3..9])
  {
    hide Plus, Rotated;
    if |words| == RECORD_WORDS {
      var r := RecordOf(words[3..9]);
      assert r[0] == MAGIC && r[1] == VERSION && r[2] == 6 && r[9] == Checksum(words[3..9]);
      assert forall i :: 3 <= i < 9 ==> r[i] == words[i];
      assert words == r <==> words[0] == r[0] && words[1] == r[1] && words[2] == r[2] && words[9] == r[9];
    }
  }

  /** What a successful save wrote loads back as the same offsets. */
  lemma SavedLoads(offsets: Offsets)
    ensures Accepted(RecordOf(offsets)) && RecordOf(offsets)[3..9] == offsets
  {
    assert RecordOf(offsets)[3..9] == offsets;
    AcceptedIff(RecordOf(offsets));
  }

  lemma RotatedInjective(a: bv32, b: bv32)
    ensures Rotated(a) == Rotated(b) ==> a == b
  {}

  lemma PlusInjective(a: bv32, b: bv32, c: bv32)
    ensures Plus(a, c) == Plus(b, c) ==> a == b
    ensures Plus(c, a) == Plus(c, b) ==> a == b
  {}

  /** The checksum's state is injective in what it started from, over the same offsets. */
  lemma {:induction false} MixInjective(a: bv32, b: bv32, offsets: seq<bv32>)
    requires Mix(a, offsets) == Mix(b, offsets)
    ensures a == b
    decreases |offsets|
  {
    hide Plus, Rotated;
    if offsets != [] {
      var n := |offsets| - 1;
      var x, y := Mix(a, offsets[..n]), Mix(b, offsets[..n]);
      RotatedInjective(Plus(x, offsets[n]), Plus(y, offsets[n]));
      PlusInjective(x, y, offsets[n]);
      MixInjective(a, b, offsets[..n]);
    }
  }

  lemma {:induction false} MixAppend(c: bv32, a: seq<bv32>, b: seq<bv32>)
    ensures Mix(c, a + b) == Mix(Mix(c, a), b)
    decreases |b|
  {
    if b == [] {
      assert a + b == a;
    } else {
      var n := |b| - 1;
      assert (a + b)[..|a + b| - 1] == a + b[..n];
      MixAppend(c, a, b[..n]);
    }
  }

  /** And injective in each single offset. */
  lemma MixInjectiveAt(c: bv32, offsets: seq<bv32>, i: nat, x: bv32)
    requires i < |offsets| && Mix(c, offsets) == Mix(c, offsets[i := x])
    ensures offsets[i] == x
  {
    hide Plus, Rotated;
    var a, b := offsets[..i], offsets[i + 1..];
    assert offsets == a + [offsets[i]] + b && offsets[i := x] == a + [x] + b;
    MixAppend(c, a + [offsets[i]], b);
    MixAppend(c, a + [x], b);
    MixInjective(Mix(c, a + [offsets[i]]), Mix(c, a + [x]), b);
    assert (a + [offsets[i]])[..i] == a && (a + [x])[..i] == a;
    RotatedInjective(Plus(Mix(c, a), offsets[i]), Plus(Mix(c, a), x));
    PlusInjective(offsets[i], x, Mix(c, a));
  }

  /** A record that differs from a saved one in exactly one word is rejected. */
  lemma OneWordChangedIsRejected(offsets: Offsets, i: nat, x: bv32)
    requires i < RECORD_WORDS && x != RecordOf(offsets)[i]
    ensures !Accepted(RecordOf(offsets)[i := x])
  {
    hide Plus, Rotated;
    var words := RecordOf(offsets);
    var changed := words[i := x];
    assert words[3..9] == offsets && words[9] == Mix(Plus(Plus(words[0], words[1]), words[2]), words[3..9]);
    if Accepted(changed) && 3 <= i < 9 {
      assert changed[3..9] == offsets[i - 3 := x];
      MixInjectiveAt(Seed(), offsets, i - 3, x);
    }
    if i < 3 || i == 9 { assert changed[3..9] == words[3..9]; }
  }

  // ----- what the rotation is for -----

  /** The word with bit `j` set alone. */
  function Bit(j: nat): bv32 {
    if j == 0 then 1 else Bit(j - 1) << 1
  }

  lemma Bits0To15()
    ensures Bit(0) == 0x1 && Bit(1) == 0x2 && Bit(2) == 0x4 && Bit(3) == 0x8
    ensures Bit(4) == 0x10 && Bit(5) == 0x20 && Bit(6) == 0x40 && Bit(7) == 0x80
    ensures Bit(8) == 0x100 && Bit(9) == 0x200 && Bit(10) == 0x400 && Bit(11) == 0x800
    ensures Bit(12) == 0x1000 && Bit(13) == 0x2000 && Bit(14) == 0x4000 && Bit(15) == 0x8000
  {
    assert Bit(2) == 0x4;
    assert Bit(4) == 0x10;
    assert Bit(6) == 0x40;
    assert Bit(8) == 0x100;
    assert Bit(10) == 0x400;
    assert Bit(12) == 0x1000;
    assert Bit(14) == 0x4000;
  }

  lemma Bits16To31()
    ensures Bit(16) == 0x1_0000 && Bit(17) == 0x2_0000 && Bit(18) == 0x4_0000 && Bit(19) == 0x8_0000
    ensures Bit(20) == 0x10_0000 && Bit(21) == 0x20_0000 && Bit(22) == 0x40_0000 && Bit(23) == 0x80_0000
    ensures Bit(24) == 0x100_0000 && Bit(25) == 0x200_0000 && Bit(26) == 0x400_0000 && Bit(27) == 0x800_0000
    ensures Bit(28) == 0x1000_0000 && Bit(29) == 0x2000_0000 && Bit(30) == 0x4000_0000 && Bit(31) == 0x8000_0000
  {
    Bits0To15();
    assert Bit(16) == 0x1_0000;
    assert Bit(18) == 0x4_0000;
    assert Bit(20) == 0x10_0000;
    assert Bit(22) == 0x40_0000;
    assert Bit(24) == 0x100_0000;
    assert Bit(26) == 0x400_0000;
    assert Bit(28) == 0x1000_0000;
    assert Bit(30) == 0x4000_0000;
  }

  /** A rotation moves a bit five places up, around the word. */
  lemma RotatedBit(j: nat)
    requires j < 32
    ensures Rotated(Bit(j)) == Bit((j + 5) % 32)
  {
    Bits0To15();
    Bits16To31();
    hide Bit;
    if j < 8 {
    } else if j < 16 {
    } else if j < 24 {
    } else {
    }
  }

  lemma RotatedPlus(a: bv32, b: bv32)
    ensures Rotated(Plus(a, b)) == Plus(Rotated(a), Rotated(b))
  {}

  lemma PlusMoves(a: bv32, b: bv32, c: bv32)
    ensures Plus(Plus(a, b), c) == Plus(Plus(a, c), b) == Plus(a, Plus(b, c))
  {}

  lemma FivePlaces(j: nat, n: nat)
    ensures ((j + 5 * n) % 32 + 5) % 32 == (j + 5 * (n + 1)) % 32
  {}

  /** A bit flipped in the state before the loop is flipped five places higher for each offset. */
  lemma {:induction false} MixFlipped(c: bv32, offsets: seq<bv32>, j: nat)
    requires j < 32
    ensures Mix(Plus(c, Bit(j)), offsets) == Plus(Mix(c, offsets), Bit((j + 5 * |offsets|) % 32))
    decreases |offsets|
  {
    hide Plus, Rotated, Bit;
    if offsets != [] {
      var n := |offsets| - 1;
      MixFlipped(c, offsets[..n], j);
      var x, k := Mix(c, offsets[..n]), (j + 5 * n) % 32;
      PlusMoves(x, Bit(k), offsets[n]);
      RotatedPlus(Plus(x, offsets[n]), Bit(k));
      RotatedBit(k);
      FivePlaces(j, n);
    }
  }

  /** The state behind the channel whose offset has one bit flipped. */
  lemma FlippedState(c: bv32, x: bv32, j: nat)
    requires j < 32
    ensures Rotated(Plus(c, Plus(x, Bit(j)))) == Plus(Rotated(Plus(c, x)), Bit((j + 5) % 32))
  {
    PlusMoves(c, x, Bit(j));
    RotatedPlus(Plus(c, x), Bit(j));
    RotatedBit(j);
    hide Plus, Rotated, Bit;
  }

  lemma PlacesLeft(j: nat, i: nat, n: nat)
    requires i < CHANNELS && n == CHANNELS - i - 1
    ensures ((j + 5) % 32 + 5 * n) % 32 == (j + 5 * (CHANNELS - i)) % 32
  {
    assert (j + 5) % 32 + 5 * n == j + 5 * (CHANNELS - i) - 32 * ((j + 5) / 32);
  }

  /** Flipping one bit of an offset flips exactly one bit of the checksum, at a place that depends on the channel. */
  lemma {:induction false} OneBitFlipped(offsets: Offsets, i: nat, j: nat)
    requires i < CHANNELS && j < 32
    ensures Checksum(offsets[i := Plus(offsets[i], Bit(j))])
         == Plus(Checksum(offsets), Bit((j + 5 * (CHANNELS - i)) % 32))
  {
    hide Plus, Rotated, Bit, Mix, Seed;
    var a, b, x := offsets[..i], offsets[i + 1..], offsets[i];
    var flipped := Plus(x, Bit(j));
    assert offsets == a + [x] + b && offsets[i := flipped] == a + [flipped] + b;
    MixAppend(Seed(), a + [x], b);
    MixAppend(Seed(), a + [flipped], b);
    MixOne(Seed(), a, x);
    MixOne(Seed(), a, flipped);
    FlippedState(Mix(Seed(), a), x, j);
    MixFlipped(Rotated(Plus(Mix(Seed(), a), x)), b, (j + 5) % 32);
    PlacesLeft(j, i, |b|);
  }

  lemma MixOne(c: bv32, offsets: seq<bv32>, x: bv32)
    ensures Mix(c, offsets + [x]) == Rotated(Plus(Mix(c, offsets), x))
  {
    hide Plus, Rotated;
    assert (offsets + [x])[..|offsets|] == offsets;
  }

  /** Only the words without a one and without a zero stay as they are under the rotation. */
  lemma FixedWords(d: bv32)
    ensures Rotated(d) == d <==> d == 0 || d == 0xFFFF_FFFF
  {}

  lemma PlusSelf(a: bv32)
    ensures Plus(a, a) == 0
  {}

  lemma PlusIsZero(a: bv32, b: bv32)
    ensures Plus(a, b) == 0 <==> a == b
  {
    PlusSelf(b);
    PlusInjective(a, b, b);
    hide Plus;
  }

  /** Two words that differ in every bit. */
  predicate Opposite(a: bv32, b: bv32) {
    Plus(a, b) == 0xFFFF_FFFF
  }

  lemma SwappedState(c: bv32, a: bv32, b: bv32)
    ensures Rotated(Plus(Rotated(Plus(c, a)), b)) == Rotated(Plus(Rotated(Plus(c, b)), a)) <==>
            a == b || Opposite(a, b)
  {
    RotatedPlus(c, a);
    RotatedPlus(c, b);
    RotatedPlus(a, b);
    FixedWords(Plus(a, b));
    PlusIsZero(a, b);
    SwapIsRotation(Rotated(c), Rotated(a), Rotated(b), a, b);
    RotatedInjective(Plus(Rotated(Plus(c, a)), b), Plus(Rotated(Plus(c, b)), a));
    hide Rotated, Plus;
  }

  lemma SumOfSwapped(x: bv32, ra: bv32, rb: bv32, a: bv32, b: bv32)
    ensures Plus(Plus(Plus(x, ra), b), Plus(Plus(x, rb), a)) == Plus(Plus(ra, rb), Plus(a, b))
  {
    PlusMoves(x, ra, b);
    PlusMoves(x, rb, a);
    SharedCancels(x, Plus(ra, b), Plus(rb, a));
    Regrouped(ra, b, rb, a);
    hide Plus;
  }

  lemma SharedCancels(x: bv32, u: bv32, v: bv32)
    ensures Plus(Plus(x, u), Plus(x, v)) == Plus(u, v)
  {
    PlusMoves(Plus(x, u), x, v);
    PlusMoves(x, u, x);
    PlusSelf(x);
    PlusZero(u);
    hide Plus;
  }

  lemma PlusZero(u: bv32)
    ensures Plus(0, u) == u
  {}

  lemma PlusCommutes(a: bv32, b: bv32)
    ensures Plus(a, b) == Plus(b, a)
  {}

  lemma Regrouped(p: bv32, q: bv32, r: bv32, s: bv32)
    ensures Plus(Plus(p, q), Plus(r, s)) == Plus(Plus(p, r), Plus(s, q))
  {
    PlusMoves(Plus(p, q), r, s);
    PlusMoves(p, q, r);
    PlusMoves(Plus(p, r), q, s);
    PlusCommutes(q, s);
    hide Plus;
  }

  lemma SwapIsRotation(x: bv32, ra: bv32, rb: bv32, a: bv32, b: bv32)
    ensures Plus(Plus(x, ra), b) == Plus(Plus(x, rb), a) <==> Plus(ra, rb) == Plus(a, b)
  {
    SumOfSwapped(x, ra, rb, a, b);
    PlusIsZero(Plus(Plus(x, ra), b), Plus(Plus(x, rb), a));
    PlusIsZero(Plus(ra, rb), Plus(a, b));
    hide Plus;
  }

  lemma ExchangedChecksumIff(offsets: Offsets, i: nat)
    requires i + 1 < CHANNELS
    ensures Checksum(offsets[i := offsets[i + 1]][i + 1 := offsets[i]]) == Checksum(offsets) <==>
            offsets[i] == offsets[i + 1] || Opposite(offsets[i], offsets[i + 1])
  {
    hide Plus, Rotated, Opposite, Mix, Seed;
    var a, b, x, y := offsets[..i], offsets[i + 2..], offsets[i], offsets[i + 1];
    assert offsets[i := y][i + 1 := x] == a + [y, x] + b && offsets == a + [x, y] + b;
    var c := Mix(Seed(), a);
    MixTwo(Seed(), a, x, y);
    MixTwo(Seed(), a, y, x);
    MixAppend(Seed(), a + [x, y], b);
    MixAppend(Seed(), a + [y, x], b);
    SwappedState(c, x, y);
    if Checksum(a + [x, y] + b) == Checksum(a + [y, x] + b) {
      MixInjective(Mix(Seed(), a + [x, y]), Mix(Seed(), a + [y, x]), b);
    }
  }

  /**
   Exchanging two neighbouring offsets of a saved record goes unnoticed exactly if they are equal or differ in
   every bit.
   */
  lemma {:induction false} ExchangedIff(offsets: Offsets, i: nat)
    requires i + 1 < CHANNELS
    ensures Accepted(RecordOf(offsets)[i + 3 := offsets[i + 1]][i + 4 := offsets[i]]) <==>
            offsets[i] == offsets[i + 1] || Opposite(offsets[i], offsets[i + 1])
  {
    hide Plus, Rotated, Opposite, Mix;
    ExchangedChecksumIff(offsets, i);
    var words := RecordOf(offsets);
    var changed := words[i + 3 := offsets[i + 1]][i + 4 := offsets[i]];
    assert changed[3..9] == offsets[i := offsets[i + 1]][i + 1 := offsets[i]];
    assert changed[0] == MAGIC && changed[1] == VERSION && changed[2] == 6 && changed[9] == Checksum(offsets);
  }

  lemma MixTwo(c: bv32, offsets: seq<bv32>, x: bv32, y: bv32)
    ensures Mix(c, offsets + [x, y]) == Rotated(Plus(Rotated(Plus(Mix(c, offsets), x)), y))
  {
    hide Plus, Rotated;
    MixOne(c, offsets, x);
    MixOne(c, offsets + [x], y);
    assert offsets + [x, y] == offsets + [x] + [y];
  }

  /** The record of a board that was never calibrated. */
  lemma ZeroRecord()
    ensures RecordOf([0, 0, 0, 0, 0, 0]) == [0x314C4143, 1, 6, 0, 0, 0, 0, 0, 0, 0x0C531051]
  {
    var s := Seed();
    assert s == 0x314C4144;
    var zeros: seq<bv32> := [0, 0, 0, 0, 0, 0];
    MixZeros(s, 0, 0x314C4144);
    MixZeros(s, 1, 0x29882886);
    MixZeros(s, 2, 0x310510C5);
    MixZeros(s, 3, 0x20A218A6);
    MixZeros(s, 4, 0x144314C4);
    MixZeros(s, 5, 0x88629882);
    assert Zeros(6) == zeros;
  }

  function Zeros(n: nat): (zeros: seq<bv32>)
    ensures |zeros| == n
  {
    seq(n, _ => 0)
  }

  lemma MixZeros(c: bv32, n: nat, state: bv32)
    requires Mix(c, Zeros(n)) == state
    ensures Mix(c, Zeros(n + 1)) == Rotated(state)
  {
    assert Zeros(n + 1) == Zeros(n) + [0];
    MixOne(c, Zeros(n), 0);
    assert Plus(state, 0) == state;
  }
}
