/**
 Samples, blocks, the raw-log packing of the firmware (daq_engine.c) and the host code that
 reads it back (daq.py).
 */
module Packing {
  import opened Bytes

  const CHANNEL_COUNT: nat := 8
  const BLOCK_CAPACITY: nat := 128
  const FRAME_SIZE: nat := 36
  const PACK_BUFFER_SIZE: nat := 4096

  datatype RawSample = RawSample(response: Word16, crc: Word16, channel: seq<Int32>)

  /** `DaqSampleFrame_t`: status word, CRC word and one reading per channel. */
  type Sample = s: RawSample | |s.channel| == CHANNEL_COUNT
    witness RawSample(0, 0, seq(8, _ => 0))

  /** The used part of a `DaqWriteBlock_t`. */
  type Block = seq<Sample>

  /** `channel_mask`, an unsigned 32-bit word. */
  type Mask = x: int | 0 <= x < 0x1_0000_0000

  /** Bit `channel` of the mask: `(mask & (1UL << channel)) != 0`. */
  predicate Selected(mask: Mask, channel: nat)
    decreases channel, mask
  {
    if channel == 0 then mask % 2 == 1 else Selected(mask / 2, channel - 1)
  }

  /** That bit, by place value. */
  lemma {:induction false} SelectedIsBit(mask: Mask, channel: nat)
    ensures Selected(mask, channel) <==> mask / Pow2(channel) % 2 == 1
    decreases channel
  {
    if channel > 0 {
      SelectedIsBit(mask / 2, channel - 1);
      HalvedTwice(mask, Pow2(channel - 1));
    }
  }

  lemma HalvedTwice(m: nat, p: nat)
    requires p > 0
    ensures m / 2 / p == m / (2 * p)
  {
    var q, h := m / (2 * p), m / 2;
    var r := m % (2 * p);
    assert m == 2 * p * q + r && 0 <= r < 2 * p;
    assert 2 * p * q == 2 * (p * q);
    assert h == p * q + r / 2;
    assert r / 2 < p;
    QuotientUnique(h, p, q, r / 2);
  }

  lemma ProductMonotone(p: nat, x: int, y: int)
    requires x <= y
    ensures p * x <= p * y
  {}

  lemma ProductNext(p: nat, x: int)
    ensures p * (x + 1) == p * x + p
  {}

  lemma QuotientUnique(h: nat, p: nat, q: nat, rest: nat)
    requires p > 0 && h == p * q + rest && rest < p
    ensures h / p == q
  {
    var d := h / p;
    assert 0 <= h - p * d < p;
    ProductNext(p, d);
    ProductNext(p, q);
    if d > q { ProductMonotone(p, q + 1, d); }
    if d < q { ProductMonotone(p, d + 1, q); }
  }

  /** A mask `DAQ_ValidateConfig` accepts: not empty, no bit above the low eight. */
  predicate ValidMask(mask: Mask) {
    0 < mask <= 0xFF
  }

  /** How many of the channels from `from` on are selected. */
  function CountFrom(mask: Mask, from: nat): (n: nat)
    requires from <= CHANNEL_COUNT
    ensures n <= CHANNEL_COUNT - from
    decreases CHANNEL_COUNT - from, mask
  {
    if from == CHANNEL_COUNT then 0
    else (if Selected(mask, from) then 1 else 0) + CountFrom(mask, from + 1)
  }

  function Count(mask: Mask): (n: nat)
    ensures n <= CHANNEL_COUNT
  {
    CountFrom(mask, 0)
  }

  lemma {:induction false} CountFromPositive(mask: Mask, from: nat, channel: nat)
    requires from <= channel < CHANNEL_COUNT && Selected(mask, channel)
    ensures CountFrom(mask, from) >= 1
    decreases channel - from
  {
    if from < channel { CountFromPositive(mask, from + 1, channel); }
  }

  function Pow2(n: nat): (p: nat)
    ensures p > 0
  {
    if n == 0 then 1 else 2 * Pow2(n - 1)
  }

  /** A mask with a bit below `width` set and none above has a selected channel below `width`. */
  lemma {:induction false} LowestSelected(mask: Mask, width: nat) returns (channel: nat)
    requires 0 < mask < Pow2(width)
    ensures channel < width && Selected(mask, channel)
    decreases width
  {
    if mask % 2 == 1 {
      channel := 0;
    } else {
      channel := LowestSelected(mask / 2, width - 1);
      channel := channel + 1;
    }
  }

  lemma ValidMaskSelects(mask: Mask)
    requires ValidMask(mask)
    ensures 1 <= Count(mask) <= CHANNEL_COUNT
  {
    assert Pow2(8) == 256;
    var channel := LowestSelected(mask, 8);
    CountFromPositive(mask, 0, channel);
  }

  /** The selected readings of a sample, channels ascending from `from`. */
  function ChosenFrom(mask: Mask, s: Sample, from: nat): (cs: seq<Int32>)
    requires from <= CHANNEL_COUNT
    ensures |cs| == CountFrom(mask, from)
    decreases CHANNEL_COUNT - from, mask
  {
    if from == CHANNEL_COUNT then []
    else (if Selected(mask, from) then [s.channel[from]] else []) + ChosenFrom(mask, s, from + 1)
  }

  function Chosen(mask: Mask, s: Sample): (cs: seq<Int32>)
    ensures |cs| == Count(mask)
  {
    ChosenFrom(mask, s, 0)
  }

  /** Words laid out one after the other, each little-endian. */
  function Words(ws: seq<Int32>): (bs: seq<Byte>)
    ensures |bs| == 4 * |ws|
  {
    if ws == [] then [] else Le32(ws[0]) + Words(ws[1..])
  }

  function PackSample(mask: Mask, s: Sample): (bs: seq<Byte>)
    ensures |bs| == 4 * Count(mask)
  {
    Words(Chosen(mask, s))
  }

  function Packer(mask: Mask): Sample -> seq<Byte> {
    (s: Sample) => PackSample(mask, s)
  }

  /** What the log must hold for these samples. */
  function Pack(mask: Mask, samples: seq<Sample>): seq<Byte> {
    FlatMap(Packer(mask), samples)
  }

  lemma PackSnoc(mask: Mask, samples: seq<Sample>, s: Sample)
    ensures Pack(mask, samples + [s]) == Pack(mask, samples) + PackSample(mask, s)
  {
    FlatMapSnoc(Packer(mask), samples, s);
  }

  lemma PackAppend(mask: Mask, xs: seq<Sample>, ys: seq<Sample>)
    ensures Pack(mask, xs + ys) == Pack(mask, xs) + Pack(mask, ys)
  {
    FlatMapAppend(Packer(mask), xs, ys);
  }

  /** The accounting formula `sample_count * selected * sizeof(int32_t)` is the packed length. */
  lemma PackLength(mask: Mask, samples: seq<Sample>)
    ensures |Pack(mask, samples)| == |samples| * (4 * Count(mask))
  {
    FlatMapLength(Packer(mask), samples, 4 * Count(mask));
  }

  /** A block always fits the firmware's pack buffer, and is never packed to nothing. */
  lemma PackFits(mask: Mask, blk: Block)
    requires ValidMask(mask) && 1 <= |blk| <= BLOCK_CAPACITY
    ensures 4 <= |Pack(mask, blk)| <= PACK_BUFFER_SIZE
  {
    PackLength(mask, blk);
    ValidMaskSelects(mask);
    ScaleBounds(|blk|, 4 * Count(mask));
  }

  lemma ScaleBounds(n: nat, unit: nat)
    requires 1 <= n <= 128 && 4 <= unit <= 32
    ensures 4 <= n * unit <= 4096
  {
    assert n * unit >= 1 * unit;
    assert n * unit <= n * 32;
  }

  lemma WordsAppend(xs: seq<Int32>, ys: seq<Int32>)
    ensures Words(xs + ys) == Words(xs) + Words(ys)
  {
    if xs == [] {
      assert xs + ys == ys;
    } else {
      assert (xs + ys)[1..] == xs[1..] + ys;
    }
  }

  // ----- the host's reading of the log -----

  /** Reading whole little-endian words; an incomplete last word is ignored. */
  function ReadWords(bs: seq<Byte>): (ws: seq<Int32>)
    ensures |ws| == |bs| / 4
  {
    if |bs| < 4 then [] else [FromLe32(bs[..4])] + ReadWords(bs[4..])
  }

  lemma {:induction false} ReadWordsOfWords(ws: seq<Int32>)
    ensures ReadWords(Words(ws)) == ws
  {
    if ws != [] {
      var bs := Words(ws);
      assert bs[..4] == Le32(ws[0]) && bs[4..] == Words(ws[1..]);
      Le32RoundTrip(ws[0]);
      ReadWordsOfWords(ws[1..]);
    }
  }

  /** The readings the host recovers from a log whose records hold `count` words. */
  function Decode(bs: seq<Byte>, count: nat): (rows: seq<seq<Int32>>)
    requires count > 0
  {
    var rs := Records(bs, 4 * count);
    seq(|rs|, i requires 0 <= i < |rs| => ReadWords(rs[i]))
  }

  function ChosenAll(mask: Mask, samples: seq<Sample>): (rows: seq<seq<Int32>>)
    ensures |rows| == |samples|
  {
    seq(|samples|, i requires 0 <= i < |samples| => Chosen(mask, samples[i]))
  }

  lemma RecordsOfPack(mask: Mask, samples: seq<Sample>)
    requires ValidMask(mask)
    ensures Count(mask) > 0
    ensures Records(Pack(mask, samples), 4 * Count(mask))
         == seq(|samples|, i requires 0 <= i < |samples| => PackSample(mask, samples[i]))
  {
    ValidMaskSelects(mask);
    RecordsOfFlatMap(Packer(mask), samples, 4 * Count(mask));
  }

  /** Packing then decoding gives back every sample's selected channels, in ascending order. */
  lemma PackDecode(mask: Mask, samples: seq<Sample>)
    requires ValidMask(mask)
    ensures Count(mask) > 0
    ensures Decode(Pack(mask, samples), Count(mask)) == ChosenAll(mask, samples)
  {
    RecordsOfPack(mask, samples);
    var rs := Records(Pack(mask, samples), 4 * Count(mask));
    forall i | 0 <= i < |samples| ensures ReadWords(rs[i]) == Chosen(mask, samples[i]) {
      ReadWordsOfWords(Chosen(mask, samples[i]));
    }
  }

  /** The board's mask 0x3F gives the host's 24-byte record of channels 0 to 5. */
  lemma HostRecord(s: Sample)
    ensures ValidMask(0x3F) && 4 * Count(0x3F) == 24
    ensures Chosen(0x3F, s) == s.channel[..6]
  {
    assert Selected(0x3F, 0) && Selected(0x3F, 1) && Selected(0x3F, 2);
    assert Selected(0x3F, 3) && Selected(0x3F, 4) && Selected(0x3F, 5);
    assert !Selected(0x3F, 6) && !Selected(0x3F, 7);
    assert ChosenFrom(0x3F, s, 6) == ChosenFrom(0x3F, s, 7) == ChosenFrom(0x3F, s, 8) == [];
    assert ChosenFrom(0x3F, s, 4) == s.channel[4..6];
    assert ChosenFrom(0x3F, s, 2) == s.channel[2..6];
  }

  // ----- the firmware's packing loops -----

  /** `DAQ_CountSelectedChannels`. */
  method CountSelectedChannels(mask: Mask) returns (count: nat)
    ensures count == Count(mask)
  {
    count := 0;
    var channel := 0;
    while channel < CHANNEL_COUNT
      invariant channel <= CHANNEL_COUNT
      invariant count + CountFrom(mask, channel) == Count(mask)
    {
      if Selected(mask, channel) {
        count := count + 1;
      }
      channel := channel + 1;
    }
  }

  /** `DAQ_WriteS32Le` at an offset of the buffer. */
  method WriteS32Le(data: array<Byte>, offset: nat, value: Int32)
    requires offset + 4 <= data.Length
    modifies data
    ensures data[..offset + 4] == old(data[..offset]) + Le32(value)
    ensures data[offset + 4..] == old(data[offset + 4..])
  {
    var raw := ToUnsigned(value);
    data[offset] := (raw % 256) as Byte;
    data[offset + 1] := (raw / 256 % 256) as Byte;
    data[offset + 2] := (raw / 65536 % 256) as Byte;
    data[offset + 3] := (raw / 16777216) as Byte;
    assert data[offset..offset + 4] == Le32(value);
    assert data[..offset + 4] == data[..offset] + data[offset..offset + 4];
  }

  /** The selected readings of the channels below `channel`. */
  ghost function ChosenBelow(mask: Mask, s: Sample, channel: nat): seq<Int32>
    requires channel <= CHANNEL_COUNT
  {
    if channel == 0 then []
    else ChosenBelow(mask, s, channel - 1) + (if Selected(mask, channel - 1) then [s.channel[channel - 1]] else [])
  }

  lemma {:induction false} ChosenParts(mask: Mask, s: Sample, channel: nat)
    requires channel <= CHANNEL_COUNT
    ensures ChosenBelow(mask, s, channel) + ChosenFrom(mask, s, channel) == Chosen(mask, s)
  {
    if channel == 0 {
      assert [] + ChosenFrom(mask, s, 0) == ChosenFrom(mask, s, 0);
    } else {
      ChosenParts(mask, s, channel - 1);
      var mid := if Selected(mask, channel - 1) then [s.channel[channel - 1]] else [];
      assert ChosenFrom(mask, s, channel - 1) == mid + ChosenFrom(mask, s, channel);
      Associative(ChosenBelow(mask, s, channel - 1), mid, ChosenFrom(mask, s, channel));
    }
  }

  /** What the loops have written when they stand at a sample and a channel of it. */
  ghost function Written(mask: Mask, blk: Block, i: nat, channel: nat): seq<Byte>
    requires i < |blk| && channel <= CHANNEL_COUNT
  {
    Pack(mask, blk[..i]) + Words(ChosenBelow(mask, blk[i], channel))
  }

  lemma WrittenStart(mask: Mask, blk: Block, i: nat)
    requires i < |blk|
    ensures Written(mask, blk, i, 0) == Pack(mask, blk[..i])
  {}

  lemma WrittenStep(mask: Mask, blk: Block, i: nat, channel: nat)
    requires i < |blk| && channel < CHANNEL_COUNT
    ensures Written(mask, blk, i, channel + 1)
         == Written(mask, blk, i, channel)
            + (if Selected(mask, channel) then Le32(blk[i].channel[channel]) else [])
  {
    var below := ChosenBelow(mask, blk[i], channel);
    if Selected(mask, channel) {
      var w := blk[i].channel[channel];
      WordsAppend(below, [w]);
      assert Words([w]) == Le32(w) + Words([]) == Le32(w);
      Associative(Pack(mask, blk[..i]), Words(below), Le32(w));
    } else {
      assert below + [] == below;
    }
  }

  lemma WrittenEnd(mask: Mask, blk: Block, i: nat)
    requires i < |blk|
    ensures Written(mask, blk, i, CHANNEL_COUNT) == Pack(mask, blk[..i + 1])
  {
    ChosenParts(mask, blk[i], CHANNEL_COUNT);
    assert ChosenBelow(mask, blk[i], CHANNEL_COUNT) + [] == ChosenBelow(mask, blk[i], CHANNEL_COUNT);
    assert blk[..i + 1] == blk[..i] + [blk[i]];
    PackSnoc(mask, blk[..i], blk[i]);
  }

  lemma WrittenFits(mask: Mask, blk: Block, i: nat, channel: nat)
    requires i < |blk| && channel <= CHANNEL_COUNT
    ensures |Written(mask, blk, i, channel)| <= |Pack(mask, blk)|
  {
    var below, rest := ChosenBelow(mask, blk[i], channel), ChosenFrom(mask, blk[i], channel);
    ChosenParts(mask, blk[i], channel);
    WordsAppend(below, rest);
    assert |PackSample(mask, blk[i])| == |Words(below)| + |Words(rest)|;
    PackPrefix(mask, blk, i);
  }

  lemma PackPrefix(mask: Mask, blk: Block, i: nat)
    requires i < |blk|
    ensures |Pack(mask, blk[..i])| + |PackSample(mask, blk[i])| <= |Pack(mask, blk)|
  {
    PackSnoc(mask, blk[..i], blk[i]);
    PackAppend(mask, blk[..i] + [blk[i]], blk[i + 1..]);
    assert blk == blk[..i] + [blk[i]] + blk[i + 1..];
  }

  /**
   `DAQ_PackBlockSelectedChannels`: the two loops over samples and channels, stopping with 0 when
   a word does not fit in the buffer.
   */
  method PackBlock(mask: Mask, blk: Block, buffer: array<Byte>) returns (length: nat)
    modifies buffer
    ensures |Pack(mask, blk)| <= buffer.Length ==>
              length == |Pack(mask, blk)| && buffer[..length] == Pack(mask, blk)
    ensures |Pack(mask, blk)| > buffer.Length ==> length == 0
  {
    hide Written, Pack, Le32, Selected;
    var offset := 0;
    var i := 0;
    assert Pack(mask, blk[..0]) == [] by { PackLength(mask, blk[..0]); }
    while i < |blk|
      invariant i <= |blk|
      invariant offset <= buffer.Length
      invariant buffer[..offset] == Pack(mask, blk[..i])
    {
      WrittenStart(mask, blk, i);
      var channel := 0;
      while channel < CHANNEL_COUNT
        invariant channel <= CHANNEL_COUNT
        invariant offset <= buffer.Length
        invariant buffer[..offset] == Written(mask, blk, i, channel)
      {
        WrittenStep(mask, blk, i, channel);
        if Selected(mask, channel) {
          if offset + 4 > buffer.Length {
            WrittenFits(mask, blk, i, channel + 1);
            return 0;
          }
          WriteS32Le(buffer, offset, blk[i].channel[channel]);
          offset := offset + 4;
        }
        channel := channel + 1;
      }
      WrittenEnd(mask, blk, i);
      i := i + 1;
    }
    assert blk[..i] == blk;
    length := offset;
  }

  // ----- whole samples, as they are streamed -----

  function Le16(w: Word16): (bs: seq<Byte>)
    ensures |bs| == 2
  {
    [(w % 256) as Byte, (w / 256) as Byte]
  }

  /** The memory of a `DaqSampleFrame_t`: two 16-bit words and eight readings, little-endian. */
  function FrameOf(s: Sample): (bs: seq<Byte>)
    ensures |bs| == FRAME_SIZE
  {
    Le16(s.response) + Le16(s.crc) + Words(s.channel)
  }

  function Framer(): Sample -> seq<Byte> {
    (s: Sample) => FrameOf(s)
  }

  /** The bytes of samples as they go over the wire. */
  function Wire(samples: seq<Sample>): seq<Byte> {
    FlatMap(Framer(), samples)
  }

  lemma WireAppend(xs: seq<Sample>, ys: seq<Sample>)
    ensures Wire(xs + ys) == Wire(xs) + Wire(ys)
  {
    FlatMapAppend(Framer(), xs, ys);
  }

  lemma WireLength(samples: seq<Sample>)
    ensures |Wire(samples)| == |samples| * FRAME_SIZE
  {
    FlatMapLength(Framer(), samples, FRAME_SIZE);
  }

  // ----- the host's conversion loop -----

  /** The reads before the first empty one, which the loop takes for the end of the file. */
  function BeforeEof(chunks: seq<seq<Byte>>): seq<seq<Byte>> {
    if chunks == [] || chunks[0] == [] then [] else [chunks[0]] + BeforeEof(chunks[1..])
  }

  lemma {:induction false} BeforeEofStep(chunks: seq<seq<Byte>>, i: nat)
    requires i < |chunks| && BeforeEof(chunks[..i]) == chunks[..i]
    ensures chunks[i] == [] ==> BeforeEof(chunks) == chunks[..i]
    ensures chunks[i] != [] ==> BeforeEof(chunks[..i + 1]) == chunks[..i + 1]
  {
    if i == 0 {
      assert chunks[..1] == [chunks[0]];
      assert chunks[..1][1..] == [];
    } else {
      assert chunks[..i][1..] == chunks[1..][..i - 1];
      assert chunks[0] == chunks[..i][0];
      assert BeforeEof(chunks[..i])[1..] == BeforeEof(chunks[..i][1..]);
      BeforeEofStep(chunks[1..], i - 1);
      assert chunks[..i + 1][1..] == chunks[1..][..i];
      assert [chunks[0]] + chunks[1..][..i - 1] == chunks[..i];
      assert [chunks[0]] + chunks[1..][..i] == chunks[..i + 1];
    }
  }

  lemma FlattenNothing<T>(pieces: seq<seq<T>>)
    ensures pieces == [] ==> Flatten(pieces) == []
  {}

  /** The inner loop of the host's readers: whole records cut from the front of a buffer. */
  method CutRecords(bytes: seq<Byte>, size: nat) returns (records: seq<seq<Byte>>, remainder: seq<Byte>)
    requires size > 0
    ensures records == Records(bytes, size) && remainder == Rest(bytes, size)
  {
    records, remainder := [], bytes;
    while |remainder| >= size
      invariant records + Records(remainder, size) == Records(bytes, size)
      invariant Rest(remainder, size) == Rest(bytes, size)
      decreases |remainder|
    {
      var record := remainder[..size];
      Associative(records, [record], Records(remainder[size..], size));
      remainder := remainder[size..];
      records := records + [record];
    }
  }

  /**
   `write_daq_log_rows_from_stream` (size 24) and `write_daq_stream_rows_from_stream` (size 36):
   successive reads are appended to a remainder from which whole records are cut. The records are
   those of the concatenated reads, so how the file was read does not matter.
   */
  method RecordsFromReads(chunks: seq<seq<Byte>>, size: nat) returns (rows: seq<seq<Byte>>)
    requires size > 0
    ensures rows == Records(Flatten(BeforeEof(chunks)), size)
  {
    hide Flatten;
    rows := [];
    var remainder: seq<Byte> := [];
    var i := 0;
    assert Flatten(chunks[..0]) == [] by { FlattenNothing(chunks[..0]); }
    while i < |chunks|
      invariant i <= |chunks|
      invariant BeforeEof(chunks[..i]) == chunks[..i]
      invariant rows == Records(Flatten(chunks[..i]), size)
      invariant remainder == Rest(Flatten(chunks[..i]), size)
    {
      BeforeEofStep(chunks, i);
      if chunks[i] == [] {
        return;
      }
      ghost var all := Flatten(chunks[..i]);
      assert chunks[..i + 1] == chunks[..i] + [chunks[i]];
      FlattenSnoc(chunks[..i], chunks[i]);
      RecordsSplit(all, chunks[i], size);
      remainder := remainder + chunks[i];
      var records, rest := CutRecords(remainder, size);
      rows, remainder := rows + records, rest;
      i := i + 1;
    }
    assert chunks[..i] == chunks;
  }
}
