/**
 The board's test stream (freertos.c of CM7): a chunk filled with the test pattern, of which every read copies
 the beginning, and when the bytes sent that way are the pattern the host compares with.
 */
module TestStream {
  import opened Bytes
  import opened Demux

  const CHUNK_LEN: nat := 1400
  const NOTHING_LEFT: int := -1

  /** The first `n` bytes of the pattern. */
  function Pattern(n: nat): (bytes: seq<Byte>)
    ensures |bytes| == n
  {
    seq(n, (i: nat) => PatternByte(i))
  }

  class Source {
    const chunk: array<Byte>
    var remaining: nat

    ghost predicate Valid()
      reads this, chunk
    {
      chunk[..] == Pattern(CHUNK_LEN)
    }

    /** `InitTestStreamChunk`, and the size a stream is announced with. */
    constructor (total: nat)
      ensures Valid() && remaining == total && fresh(chunk)
    {
      hide PatternByte;
      var bytes := new Byte[1400];
      chunk, remaining := bytes, total;
      new;
      var index := 0;
      while index < CHUNK_LEN
        invariant index <= CHUNK_LEN && chunk.Length == CHUNK_LEN && fresh(chunk) && remaining == total
        invariant forall i: nat :: i < index ==> chunk[i] == PatternByte(i)
      {
        chunk[index] := PatternByte(index);
        index := index + 1;
      }
    }

    /** `TestStreamRead`. */
    method Read(buffer: array<Byte>, maxLen: nat) returns (status: int, length: nat)
      requires Valid() && maxLen <= CHUNK_LEN && maxLen <= buffer.Length && buffer != chunk
      modifies this, buffer
      ensures Valid() && remaining == old(remaining) - length
      ensures status == (if old(remaining) == 0 then NOTHING_LEFT else 0)
      ensures length == (if old(remaining) > maxLen then maxLen else old(remaining))
      ensures buffer[..length] == Pattern(length)
    {
      hide PatternByte;
      if remaining == 0 {
        return NOTHING_LEFT, 0;
      }
      length := if remaining > maxLen then maxLen else remaining;
      forall i | 0 <= i < length {
        buffer[i] := chunk[i];
      }
      assert chunk[..][..length] == Pattern(length);
      remaining := remaining - length;
      status := 0;
    }
  }

  /** Since 37 is odd, the pattern repeats with period 256 and no shorter. */
  lemma PatternPeriod(offset: nat)
    ensures (offset * 37) % 256 == 0 <==> offset % 256 == 0
  {
    var q := offset * 37 / 256;
    if (offset * 37) % 256 == 0 {
      assert offset * 37 == 256 * q;
      assert offset == 256 * (173 * q - 25 * offset);
    }
  }

  lemma SumMod(a: nat, d: nat)
    ensures (a + d) % 256 == a % 256 <==> d % 256 == 0
  {}

  lemma SamePhase(offset: nat, i: nat)
    ensures PatternByte(offset + i) == PatternByte(i) <==> offset % 256 == 0
  {
    PatternPeriod(offset);
    SumMod(i * 37 + 11, offset * 37);
    assert (offset + i) * 37 + 11 == (i * 37 + 11) + offset * 37;
    BytesSame((i * 37 + 11) + offset * 37, i * 37 + 11);
  }

  lemma BytesSame(x: nat, y: nat)
    ensures (x % 256) as Byte == (y % 256) as Byte <==> x % 256 == y % 256
  {}

  /** The beginning of the pattern continues it exactly at a multiple of 256. */
  lemma {:induction false} ContinuesIff(offset: nat, n: nat)
    ensures PatternOk(offset, Pattern(n)) <==> n == 0 || offset % 256 == 0
  {
    hide PatternByte;
    forall i: nat | i < n ensures Pattern(n)[i] == PatternByte(offset + i) <==> offset % 256 == 0 {
      SamePhase(offset, i);
    }
    if n > 0 { assert PatternOk(offset, Pattern(n)) ==> Pattern(n)[0] == PatternByte(offset + 0); }
  }

  /** What reads of these lengths have sent. */
  function SentBy(lengths: seq<nat>): seq<Byte> {
    if lengths == [] then [] else SentBy(lengths[..|lengths| - 1]) + Pattern(lengths[|lengths| - 1])
  }

  /** Every read that returned bytes began at a multiple of 256. */
  ghost predicate InPhase(lengths: seq<nat>) {
    forall k :: 0 <= k < |lengths| ==> lengths[k] == 0 || |SentBy(lengths[..k])| % 256 == 0
  }

  /**
   Exactly when the test stream passes verification: every read that returns bytes begins at a multiple of 256
   bytes of the stream.
   */
  lemma {:induction false} TestStreamVerifiesIff(lengths: seq<nat>)
    ensures PatternOk(0, SentBy(lengths)) <==> InPhase(lengths)
  {
    hide PatternOk, Pattern;
    if lengths == [] {
      NothingToVerify();
    } else {
      var n := |lengths| - 1;
      TestStreamVerifiesIff(lengths[..n]);
      PatternAppend(0, SentBy(lengths[..n]), Pattern(lengths[n]));
      ContinuesIff(|SentBy(lengths[..n])|, lengths[n]);
      forall k | 0 <= k < n ensures lengths[..n][..k] == lengths[..k] {}
      InPhaseSnoc(lengths);
    }
  }

  lemma NothingToVerify()
    ensures PatternOk(0, [])
  {}

  lemma InPhaseSnoc(lengths: seq<nat>)
    requires lengths != []
    ensures var n := |lengths| - 1;
            InPhase(lengths) <==> InPhase(lengths[..n]) && (lengths[n] == 0 || |SentBy(lengths[..n])| % 256 == 0)
  {
    hide SentBy;
    var n := |lengths| - 1;
    assert forall k :: 0 <= k < n ==> lengths[..n][..k] == lengths[..k] && lengths[..n][k] == lengths[k];
  }

  /** Read in whole chunks it fails at the second read, because a chunk is no multiple of 256. */
  lemma WholeChunksFail(lengths: seq<nat>)
    requires |lengths| >= 2 && lengths[0] == CHUNK_LEN && lengths[1] > 0
    ensures !PatternOk(0, SentBy(lengths))
  {
    TestStreamVerifiesIff(lengths);
    hide PatternOk, Pattern, PatternByte;
    assert lengths[..1] == [CHUNK_LEN] && [CHUNK_LEN][..0] == [];
    assert |SentBy(lengths[..1])| == CHUNK_LEN;
  }
}
