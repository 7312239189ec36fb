/** Octets, two's-complement words and the sequence vocabulary the other modules share. */
module Bytes {

  newtype Byte = x: int | 0 <= x < 256

  type Int32 = x: int | -0x8000_0000 <= x < 0x8000_0000

  type Word16 = x: int | 0 <= x < 0x1_0000

  const TWO32: int := 0x1_0000_0000

  /** `(uint32_t)value`: the unsigned reading of a signed word. */
  function ToUnsigned(value: Int32): (raw: int)
    ensures 0 <= raw < TWO32
    ensures raw % TWO32 == value % TWO32
  {
    if value < 0 then value + TWO32 else value
  }

  /** `(int32_t)raw`: the signed reading of an unsigned word. */
  function ToSigned(raw: int): (value: Int32)
    requires 0 <= raw < TWO32
    ensures value % TWO32 == raw
  {
    if raw < 0x8000_0000 then raw else raw - TWO32
  }

  /** Four octets, least significant first. */
  function Le32(value: Int32): (bs: seq<Byte>)
    ensures |bs| == 4
  {
    var raw := ToUnsigned(value);
    [ (raw % 256) as Byte,
      (raw / 256 % 256) as Byte,
      (raw / 65536 % 256) as Byte,
      (raw / 16777216) as Byte ]
  }

  /** The reading of four octets as a little-endian signed word (`struct.unpack("<i", ...)`). */
  function FromLe32(bs: seq<Byte>): Int32
    requires |bs| == 4
  {
    ToSigned(bs[0] as int + 256 * bs[1] as int + 65536 * bs[2] as int + 16777216 * bs[3] as int)
  }

  /** The four octets of an unsigned word spell it. */
  lemma OctetsSpell(raw: int)
    requires 0 <= raw < TWO32
    ensures raw == raw % 256 + 256 * (raw / 256 % 256) + 65536 * (raw / 65536 % 256) + 16777216 * (raw / 16777216)
    ensures raw / 16777216 < 256
  {
    var q := raw / 256;
    assert raw == 256 * q + raw % 256;
    assert raw / 65536 == q / 256 && q == 256 * (q / 256) + q % 256;
    assert raw / 16777216 == q / 256 / 256 && q / 256 == 256 * (q / 256 / 256) + q / 256 % 256;
  }

  lemma SignsCancel(value: Int32)
    ensures ToSigned(ToUnsigned(value)) == value
  {}

  lemma Le32RoundTrip(value: Int32)
    ensures FromLe32(Le32(value)) == value
  {
    OctetsSpell(ToUnsigned(value));
    SignsCancel(value);
    hide ToUnsigned, ToSigned;
  }

  /** The octet of place value 256^k stands at place k; a negative word stands for its two's complement. */
  lemma LittleEndian()
    ensures Le32(0x04030201) == [1, 2, 3, 4] && Le32(-2) == [254, 255, 255, 255]
    ensures FromLe32([1, 2, 3, 4]) == 0x04030201 && FromLe32([254, 255, 255, 255]) == -2
  {}

  /** `n * unit`, by repeated addition. */
  function Times(n: nat, unit: nat): nat {
    if n == 0 then 0 else unit + Times(n - 1, unit)
  }

  lemma {:induction false} TimesIsProduct(n: nat, unit: nat)
    ensures Times(n, unit) == n * unit
  {
    if n > 0 {
      TimesIsProduct(n - 1, unit);
      assert n * unit == (n - 1) * unit + unit;
    }
  }

  lemma Associative<T>(a: seq<T>, b: seq<T>, c: seq<T>)
    ensures a + (b + c) == (a + b) + c
  {}

  /** Concatenation of the pieces, in order. */
  function Flatten<T>(pieces: seq<seq<T>>): seq<T> {
    if pieces == [] then [] else Flatten(pieces[..|pieces| - 1]) + pieces[|pieces| - 1]
  }

  lemma FlattenSnoc<T>(pieces: seq<seq<T>>, piece: seq<T>)
    ensures Flatten(pieces + [piece]) == Flatten(pieces) + piece
  {
    assert (pieces + [piece])[..|pieces|] == pieces;
  }

  lemma {:induction false} FlattenAppend<T>(xs: seq<seq<T>>, ys: seq<seq<T>>)
    ensures Flatten(xs + ys) == Flatten(xs) + Flatten(ys)
  {
    if ys == [] {
      assert xs + ys == xs;
    } else {
      var n := |ys| - 1;
      FlattenAppend(xs, ys[..n]);
      assert xs + ys == (xs + ys[..n]) + [ys[n]];
      FlattenSnoc(xs + ys[..n], ys[n]);
    }
  }

  lemma FlattenCons<T>(piece: seq<T>, pieces: seq<seq<T>>)
    ensures Flatten([piece] + pieces) == piece + Flatten(pieces)
  {
    FlattenAppend([piece], pieces);
    assert [piece][..0] == [];
    assert Flatten([piece]) == piece;
  }

  /** The concatenation of `f` over the elements, in order. */
  function FlatMap<T, U>(f: T -> seq<U>, xs: seq<T>): seq<U> {
    if xs == [] then [] else FlatMap(f, xs[..|xs| - 1]) + f(xs[|xs| - 1])
  }

  lemma FlatMapSnoc<T, U>(f: T -> seq<U>, xs: seq<T>, x: T)
    ensures FlatMap(f, xs + [x]) == FlatMap(f, xs) + f(x)
  {
    assert (xs + [x])[..|xs|] == xs;
  }

  lemma {:induction false} FlatMapAppend<T, U>(f: T -> seq<U>, xs: seq<T>, ys: seq<T>)
    ensures FlatMap(f, xs + ys) == FlatMap(f, xs) + FlatMap(f, ys)
  {
    if ys == [] {
      assert xs + ys == xs;
    } else {
      hide FlatMap;
      var n := |ys| - 1;
      FlatMapAppend(f, xs, ys[..n]);
      assert xs + ys == (xs + ys[..n]) + [ys[n]] && ys == ys[..n] + [ys[n]];
      FlatMapSnoc(f, xs + ys[..n], ys[n]);
      FlatMapSnoc(f, ys[..n], ys[n]);
      Associative(FlatMap(f, xs), FlatMap(f, ys[..n]), f(ys[n]));
    }
  }

  lemma {:induction false} FlatMapLength<T(!new), U>(f: T -> seq<U>, xs: seq<T>, n: nat)
    requires forall x :: |f(x)| == n
    ensures |FlatMap(f, xs)| == |xs| * n
  {
    if xs != [] {
      FlatMapLength(f, xs[..|xs| - 1], n);
      assert |xs| * n == (|xs| - 1) * n + n;
    }
  }

  /** `xs` is what is left of `ys` after deleting some elements: order kept, nothing repeated. */
  ghost predicate Subsequence<T(!new)>(xs: seq<T>, ys: seq<T>) {
    xs == [] ||
    (ys != [] &&
     ((xs[|xs| - 1] == ys[|ys| - 1] && Subsequence(xs[..|xs| - 1], ys[..|ys| - 1])) ||
      Subsequence(xs, ys[..|ys| - 1])))
  }

  lemma {:induction false} SubsequenceLength<T(!new)>(xs: seq<T>, ys: seq<T>)
    requires Subsequence(xs, ys)
    ensures |xs| <= |ys|
    decreases |ys|
  {
    if xs != [] {
      if xs[|xs| - 1] == ys[|ys| - 1] && Subsequence(xs[..|xs| - 1], ys[..|ys| - 1]) {
        SubsequenceLength(xs[..|xs| - 1], ys[..|ys| - 1]);
      } else {
        SubsequenceLength(xs, ys[..|ys| - 1]);
      }
    }
  }

  /** A subsequence of the same length is the whole. */
  lemma {:induction false} SubsequenceFull<T(!new)>(xs: seq<T>, ys: seq<T>)
    requires Subsequence(xs, ys) && |xs| == |ys|
    ensures xs == ys
    decreases |ys|
  {
    if xs != [] {
      var n := |xs| - 1;
      if xs[n] == ys[n] && Subsequence(xs[..n], ys[..n]) {
        SubsequenceFull(xs[..n], ys[..n]);
        assert xs == xs[..n] + [xs[n]] && ys == ys[..n] + [ys[n]];
      } else {
        SubsequenceLength(xs, ys[..n]);
      }
    }
  }

  lemma SubsequenceKeep<T(!new)>(xs: seq<T>, ys: seq<T>, y: T)
    requires Subsequence(xs, ys)
    ensures Subsequence(xs + [y], ys + [y])
  {
    assert (xs + [y])[..|xs|] == xs && (ys + [y])[..|ys|] == ys;
  }

  lemma SubsequenceSkip<T(!new)>(xs: seq<T>, ys: seq<T>, y: T)
    requires Subsequence(xs, ys)
    ensures Subsequence(xs, ys + [y])
  {
    assert (ys + [y])[..|ys|] == ys;
  }

  lemma {:induction false} SubsequenceTransitive<T(!new)>(xs: seq<T>, ys: seq<T>, zs: seq<T>)
    requires Subsequence(xs, ys) && Subsequence(ys, zs)
    ensures Subsequence(xs, zs)
    decreases |zs|
  {
    if xs != [] {
      var x', y', z' := xs[..|xs| - 1], ys[..|ys| - 1], zs[..|zs| - 1];
      if ys[|ys| - 1] == zs[|zs| - 1] && Subsequence(y', z') {
        if xs[|xs| - 1] == ys[|ys| - 1] && Subsequence(x', y') {
          SubsequenceTransitive(x', y', z');
        } else {
          SubsequenceTransitive(xs, y', z');
        }
      } else {
        SubsequenceTransitive(xs, ys, z');
      }
    }
  }

  lemma {:induction false} SubsequencePrefix<T(!new)>(xs: seq<T>, ys: seq<T>)
    ensures Subsequence(xs, xs + ys)
    decreases |ys|, |xs|
  {
    if ys == [] {
      assert xs + ys == xs;
      if xs != [] {
        SubsequencePrefix(xs[..|xs| - 1], []);
        assert xs[..|xs| - 1] + [] == xs[..|xs| - 1];
      }
    } else {
      var n := |ys| - 1;
      SubsequencePrefix(xs, ys[..n]);
      assert xs + ys == (xs + ys[..n]) + [ys[n]];
      SubsequenceSkip(xs, xs + ys[..n], ys[n]);
    }
  }

  /** The whole `size`-byte records of a byte string; a shorter rest is not a record. */
  function Records<T>(bs: seq<T>, size: nat): (rs: seq<seq<T>>)
    requires size > 0
    ensures forall r :: r in rs ==> |r| == size
  {
    if |bs| < size then [] else [bs[..size]] + Records(bs[size..], size)
  }

  /** What is left once the whole records are taken. */
  function Rest<T>(bs: seq<T>, size: nat): (rest: seq<T>)
    requires size > 0
    ensures |rest| < size
  {
    if |bs| < size then bs else Rest(bs[size..], size)
  }

  /** Records of a stream can be read as the stream arrives, keeping the rest in between. */
  lemma RecordsStep<T>(a: seq<T>, size: nat)
    requires size > 0
    ensures if |a| < size then Records(a, size) == [] && Rest(a, size) == a
            else Records(a, size) == [a[..size]] + Records(a[size..], size) && Rest(a, size) == Rest(a[size..], size)
  {}

  lemma {:induction false} RecordsSplit<T>(a: seq<T>, b: seq<T>, size: nat)
    requires size > 0
    ensures Records(a + b, size) == Records(a, size) + Records(Rest(a, size) + b, size)
    ensures Rest(a + b, size) == Rest(Rest(a, size) + b, size)
    decreases |a|
  {
    hide Records, Rest;
    RecordsStep(a, size);
    RecordsStep(a + b, size);
    if |a| >= size {
      SplitBehind(a, b, size);
      RecordsSplit(a[size..], b, size);
    }
  }

  lemma SplitBehind<T>(a: seq<T>, b: seq<T>, n: nat)
    requires n <= |a|
    ensures (a + b)[..n] == a[..n] && (a + b)[n..] == a[n..] + b
  {}

  lemma RecordsOfOne<T>(r: seq<T>)
    requires |r| > 0
    ensures Records(r, |r|) == [r] && Rest(r, |r|) == []
  {
    assert r[..|r|] == r && r[|r|..] == [];
  }

  lemma {:induction false} RecordsOfFlatMap<T(!new), U>(f: T -> seq<U>, xs: seq<T>, size: nat)
    requires size > 0 && forall x :: |f(x)| == size
    ensures Records(FlatMap(f, xs), size) == seq(|xs|, i requires 0 <= i < |xs| => f(xs[i]))
    ensures Rest(FlatMap(f, xs), size) == []
  {
    if xs != [] {
      var n := |xs| - 1;
      RecordsOfFlatMap(f, xs[..n], size);
      RecordsSplit(FlatMap(f, xs[..n]), f(xs[n]), size);
      assert [] + f(xs[n]) == f(xs[n]);
      RecordsOfOne(f(xs[n]));
    }
  }
}
