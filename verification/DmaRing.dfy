/**
 The eight-slot ring of the ADS131M08 driver (ads131m08.c). SPI DMA fills the slot behind the ready
 frames; the main loop takes ready frames from the tail. The value-level ring is the state machine
 the interrupt handlers and the main loop drive; class DmaRing is the driver's own form of it.
 */
module DmaRing {
  import opened Bytes
  import opened Packing

  const SLOTS: nat := 8
  const FRAME_BYTES: nat := 30

  type SlotIndex = x: nat | x < SLOTS

  /** The bytes of one SPI transaction: ten 24-bit words. */
  type Frame = f: seq<Byte> | |f| == FRAME_BYTES witness seq(30, _ => 0)

  /** A cleared slot. */
  function Blank(): (f: Frame)
    ensures forall i :: 0 <= i < FRAME_BYTES ==> f[i] == 0
  {
    seq(30, _ => 0)
  }

  datatype RingState = RingState(
    busy: bool, error: bool, active: nat, tail: nat, count: nat, frameSize: nat, slots: seq<Frame>)

  type Ring = r: RingState | |r.slots| == SLOTS && r.active < SLOTS && r.tail < SLOTS && r.count <= SLOTS
    witness RingState(false, false, 0, 0, 0, 0, seq(8, _ => Blank()))

  function ResetRing(): Ring {
    RingState(false, false, 0, 0, 0, 0, seq(8, _ => Blank()))
  }

  /** The slot the next transfer uses: the one behind the ready frames. */
  function WriteSlot(r: Ring): (slot: nat)
    ensures slot < SLOTS
  {
    (r.tail + r.count) % SLOTS
  }

  /** The slot of ready frame number `i`, oldest first. */
  function SlotOf(r: Ring, i: nat): (slot: nat)
    ensures slot < SLOTS
  {
    (r.tail + i) % SLOTS
  }

  function Slot(r: Ring, i: nat): Frame {
    r.slots[SlotOf(r, i)]
  }

  /** The frames the main loop has yet to take, oldest first. */
  function Ready(r: Ring): (frames: seq<Frame>)
    ensures |frames| == r.count
  {
    seq(r.count, i requires 0 <= i < r.count => Slot(r, i))
  }

  // ----- the operations -----

  /** Whether `ADS131M08_StartReadAllChannelDataDma` gets past its guard. */
  predicate CanStart(r: Ring) {
    !r.busy && r.count < SLOTS
  }

  /** `ADS131M08_StartReadAllChannelDataDma`; `halOk` is the HAL's answer. */
  function Start(r: Ring, halOk: bool): Ring {
    if !CanStart(r) then r
    else
      var slot := WriteSlot(r);
      RingState(halOk, !halOk, slot, r.tail, r.count, FRAME_BYTES, r.slots[slot := Blank()])
  }

  /** Bytes arriving in the slot of the transfer in flight. */
  function Receive(r: Ring, bytes: Frame): Ring {
    if r.busy then r.(slots := r.slots[r.active := bytes]) else r
  }

  /** `ADS131M08_DmaTxRxCpltCallback`. */
  function Complete(r: Ring): Ring {
    if r.count < SLOTS then r.(busy := false, count := r.count + 1)
    else r.(busy := false, error := true)
  }

  /** `ADS131M08_DmaErrorCallback`. */
  function Fail(r: Ring): Ring {
    r.(busy := false, error := true)
  }

  /** `ADS131M08_AbortReadDma`. */
  function Abort(r: Ring): Ring {
    r.(busy := false, tail := 0, count := 0, error := false)
  }

  /** The test `ADS131M08_TakeDmaFrame` makes before its critical section. */
  predicate MayTake(r: Ring) {
    r.count != 0 && !r.error && r.frameSize != 0
  }

  /** The critical section of `ADS131M08_TakeDmaFrame`. */
  function Take(r: Ring): Ring {
    if r.count == 0 then r else r.(tail := (r.tail + 1) % SLOTS, count := r.count - 1)
  }

  // ----- the invariant -----

  /**
   A transfer in flight fills the slot behind the ready frames and there is room for it; the error
   flag is never up together with a full ring or a transfer.
   */
  ghost predicate Sound(r: Ring) {
    && (r.busy ==> r.active == WriteSlot(r) && r.count < SLOTS)
    && (r.error ==> !r.busy && r.count < SLOTS)
    && (r.busy || r.count > 0 ==> r.frameSize == FRAME_BYTES)
  }

  /** Starting, or failing to start, a transfer leaves the ready frames alone. */
  lemma StartKeepsReady(r: Ring, halOk: bool)
    requires Sound(r)
    ensures Sound(Start(r, halOk))
    ensures Ready(Start(r, halOk)) == Ready(r)
    ensures Start(r, halOk).busy <==> r.busy || (CanStart(r) && halOk)
  {
    if CanStart(r) {
      var r' := Start(r, halOk);
      assert forall i: nat :: i < r.count ==> SlotOf(r, i) != WriteSlot(r);
      assert forall i: nat :: i < r.count ==> Slot(r', i) == Slot(r, i);
    }
  }

  lemma ReceiveKeepsReady(r: Ring, bytes: Frame)
    requires Sound(r)
    ensures Sound(Receive(r, bytes)) && Ready(Receive(r, bytes)) == Ready(r)
  {
    if r.busy {
      var r' := Receive(r, bytes);
      assert forall i: nat :: i < r.count ==> SlotOf(r, i) != WriteSlot(r);
      assert forall i: nat :: i < r.count ==> Slot(r', i) == Slot(r, i);
    }
  }

  /** The overflow branch of the completion callback is dead: the frame joins the ready frames. */
  lemma CompleteEnqueues(r: Ring)
    requires Sound(r) && r.busy
    ensures Sound(Complete(r)) && !Complete(r).error
    ensures Ready(Complete(r)) == Ready(r) + [r.slots[r.active]]
  {
    var r' := Complete(r);
    assert forall i: nat :: i < r.count ==> Slot(r', i) == Slot(r, i);
    assert Slot(r', r.count) == r.slots[r.active];
  }

  lemma FailKeepsReady(r: Ring)
    requires Sound(r) && r.busy
    ensures Sound(Fail(r)) && Ready(Fail(r)) == Ready(r)
  {
    assert forall i: nat :: i < r.count ==> Slot(Fail(r), i) == Slot(r, i);
  }

  lemma TakeShifts(r: Ring, i: nat)
    requires r.count > 0
    ensures Slot(Take(r), i) == Slot(r, i + 1)
  {}

  /** Taking removes exactly the oldest ready frame. */
  lemma TakeDequeues(r: Ring)
    requires Sound(r) && r.count > 0
    ensures Sound(Take(r))
    ensures Ready(r) == [r.slots[r.tail]] + Ready(Take(r))
  {
    var r' := Take(r);
    assert Slot(r, 0) == r.slots[r.tail];
    hide Slot;
    forall i: nat | i < r'.count ensures Slot(r', i) == Slot(r, i + 1) {
      TakeShifts(r, i);
    }
    assert Ready(r)[1..] == Ready(r');
  }

  lemma AbortEmpties(r: Ring)
    ensures Sound(Abort(r)) && Ready(Abort(r)) == []
    ensures CanStart(Abort(r)) && !Abort(r).error
  {}

  /** The error flag cannot block both ends: with it up, the next start passes its guard and clears it. */
  lemma ErrorClears(r: Ring)
    requires Sound(r) && r.error
    ensures CanStart(r) && !Start(r, true).error && Start(r, true).busy
    ensures r.count > 0 ==> MayTake(Start(r, true))
  {}

  /** After a transfer that failed, or a start that was refused, no frame is taken until a start succeeds. */
  lemma FailureBlocksTaking(r: Ring)
    ensures !MayTake(Fail(r)) && (CanStart(r) ==> !MayTake(Start(r, false)))
    ensures r.error ==> !MayTake(Take(r)) && !MayTake(Receive(r, Blank()))
    ensures CanStart(r) ==> (MayTake(Start(r, true)) <==> r.count > 0)
  {}

  /** What the main loop's test means: a frame is ready, and no transfer has failed since the last start. */
  lemma MayTakeIff(r: Ring)
    ensures Sound(r) ==> (MayTake(r) <==> Ready(r) != [] && !r.error)
    ensures Sound(r) && !MayTake(r) && Ready(r) != [] ==> CanStart(r) && MayTake(Start(r, true))
  {}

  // ----- the driver -----

  /** The driver's static state, updated in place. */
  class Driver {
    const rx: array<Frame>
    var busy: bool
    var error: bool
    var activeSlot: nat
    var readyTail: nat
    var readyCount: nat
    var frameSize: nat

    ghost predicate Valid()
      reads this, rx
    {
      rx.Length == SLOTS && activeSlot < SLOTS && readyTail < SLOTS && readyCount <= SLOTS
    }

    ghost function View(): Ring
      reads this, rx
      requires Valid()
    {
      RingState(busy, error, activeSlot, readyTail, readyCount, frameSize, rx[..])
    }

    constructor ()
      ensures Valid() && View() == ResetRing() && fresh(rx)
    {
      var slots := new Frame[8](_ => Blank());
      rx := slots;
      busy, error, activeSlot, readyTail, readyCount, frameSize := false, false, 0, 0, 0, 0;
      new;
      assert rx[..] == ResetRing().slots;
    }

    /** `ADS131M08_StartReadAllChannelDataDma`. */
    method StartReadAllChannelDataDma(halOk: bool) returns (started: bool)
      requires Valid()
      modifies this, rx
      ensures Valid() && View() == Start(old(View()), halOk)
      ensures started == (CanStart(old(View())) && halOk)
    {
      if busy || readyCount >= SLOTS {
        return false;
      }
      var slot := (readyTail + readyCount) % SLOTS;
      rx[slot] := Blank();
      frameSize := FRAME_BYTES;
      error := false;
      activeSlot := slot;
      busy := true;
      if !halOk {
        busy := false;
        error := true;
        return false;
      }
      return true;
    }

    /** The DMA controller writing received bytes while a transfer is in flight. */
    method TransferBytes(bytes: Frame)
      requires Valid()
      modifies rx
      ensures Valid() && View() == Receive(old(View()), bytes)
    {
      if busy {
        rx[activeSlot] := bytes;
      }
    }

    /** `ADS131M08_IsReadDmaBusy`. */
    method IsReadDmaBusy() returns (isBusy: bool)
      requires Valid()
      ensures isBusy == View().busy
    {
      isBusy := busy;
    }

    /** `parseAllChannelFrame` reading a slot, as `ADS131M08_TakeDmaFrame` does last. */
    method ParseSlot(slot: SlotIndex) returns (s: Sample)
      requires Valid()
      ensures s == Parse(View().slots[slot])
      ensures s == Meaning(WordsOf(View().slots[slot]))
    {
      hide CombineBytes, SignExtend;
      var f := rx[slot];
      var response, crc := CombineBytes(f[0], f[1]), CombineBytes(f[27], f[28]);
      s := RawSample(response, crc, [
        SignExtend(f[3], f[4], f[5]), SignExtend(f[6], f[7], f[8]), SignExtend(f[9], f[10], f[11]),
        SignExtend(f[12], f[13], f[14]), SignExtend(f[15], f[16], f[17]), SignExtend(f[18], f[19], f[20]),
        SignExtend(f[21], f[22], f[23]), SignExtend(f[24], f[25], f[26])]);
      assert s == Parse(f);
      ParseReadsWords(f);
    }

    /**
     `ADS131M08_TakeDmaFrame` up to its critical section. In a sound ring the answer is no only when no frame
     is ready, or when a transfer has failed since, and then the next start that succeeds makes it yes.
     */
    method MayTakeFrame() returns (may: bool)
      requires Valid()
      ensures Sound(View()) ==> (may <==> Ready(View()) != [] && !View().error)
      ensures Sound(View()) && !may && Ready(View()) != [] ==> CanStart(View()) && MayTake(Start(View(), true))
      ensures may == MayTake(View())
    {
      may := !(readyCount == 0 || error || frameSize == 0);
      MayTakeIff(View());
    }

    /** The critical section of `ADS131M08_TakeDmaFrame`. */
    method TakeSlot() returns (taken: bool, slot: nat)
      requires Valid()
      modifies this
      ensures Valid() && View() == Take(old(View()))
      ensures taken == (old(View()).count > 0) && slot == old(View()).tail
    {
      slot := readyTail;
      if readyCount == 0 {
        return false, slot;
      }
      readyTail := (readyTail + 1) % SLOTS;
      readyCount := readyCount - 1;
      return true, slot;
    }

    /** `ADS131M08_AbortReadDma`. */
    method AbortReadDma()
      requires Valid()
      modifies this
      ensures Valid() && View() == Abort(old(View()))
    {
      busy := false;
      readyTail := 0;
      readyCount := 0;
      error := false;
    }

    /** `ADS131M08_DmaTxRxCpltCallback`. */
    method DmaTxRxCpltCallback()
      requires Valid()
      modifies this
      ensures Valid() && View() == Complete(old(View()))
    {
      busy := false;
      if readyCount < SLOTS {
        readyCount := readyCount + 1;
      } else {
        error := true;
      }
    }

    /** `ADS131M08_DmaErrorCallback`. */
    method DmaErrorCallback()
      requires Valid()
      modifies this
      ensures Valid() && View() == Fail(old(View()))
    {
      busy := false;
      error := true;
    }
  }

  // ----- frame contents -----

  function CombineBytes(upper: Byte, lower: Byte): Word16 {
    256 * upper as int + lower as int
  }

  /** `signExtend` for 24-bit words. */
  function SignExtend(b0: Byte, b1: Byte, b2: Byte): (v: Int32)
    ensures -0x80_0000 <= v <= 0x7F_FFFF
    ensures (v - (65536 * b0 as int + 256 * b1 as int + b2 as int)) % 0x100_0000 == 0
  {
    var raw := 65536 * b0 as int + 256 * b1 as int + b2 as int;
    if raw < 0x80_0000 then raw else raw - 0x100_0000
  }

  /** `parseAllChannelFrame` followed by `DAQ_BuildSampleFrame`. */
  function Parse(f: Frame): Sample {
    RawSample(
      CombineBytes(f[0], f[1]),
      CombineBytes(f[27], f[28]),
      seq(8, i requires 0 <= i < 8 => SignExtend(f[3 * (i + 1)], f[3 * (i + 1) + 1], f[3 * (i + 1) + 2])))
  }

  // ----- what the ADC sends -----

  const FRAME_WORDS: nat := 10

  type Word24 = x: int | 0 <= x < 0x100_0000

  /** The words of one frame: status, eight readings, CRC. */
  type FrameWords = ws: seq<Word24> | |ws| == FRAME_WORDS witness seq(10, _ => 0)

  /** A word on the wire, high octet first. */
  function WordOctets(w: Word24): (bs: seq<Byte>)
    ensures |bs| == 3
  {
    [(w / 65536) as Byte, (w / 256 % 256) as Byte, (w % 256) as Byte]
  }

  function Clocked(ws: seq<Word24>): (bs: seq<Byte>)
    ensures |bs| == 3 * |ws|
  {
    if ws == [] then [] else WordOctets(ws[0]) + Clocked(ws[1..])
  }

  /** The bytes the ADC clocks out for these words. */
  function FrameFrom(ws: FrameWords): Frame {
    Clocked(ws)
  }

  /** Word `k` of a frame. */
  function WordAt(f: Frame, k: nat): Word24
    requires k < FRAME_WORDS
  {
    65536 * f[3 * k] as int + 256 * f[3 * k + 1] as int + f[3 * k + 2] as int
  }

  function WordsOf(f: Frame): FrameWords {
    seq(10, k requires 0 <= k < 10 => WordAt(f, k))
  }

  lemma {:induction false} ClockedAt(ws: seq<Word24>, k: nat)
    requires k < |ws|
    ensures Clocked(ws)[3 * k..3 * k + 3] == WordOctets(ws[k])
  {
    if k > 0 {
      ClockedAt(ws[1..], k - 1);
      assert Clocked(ws)[3 * k..3 * k + 3] == Clocked(ws[1..])[3 * (k - 1)..3 * (k - 1) + 3];
    }
  }

  lemma OctetsOfWord(w: Word24)
    ensures 65536 * (w / 65536) + 256 * (w / 256 % 256) + w % 256 == w
  {
    assert w / 256 == 256 * (w / 65536) + w / 256 % 256;
  }

  lemma WordOfOctets(a: Byte, b: Byte, c: Byte)
    ensures WordOctets(65536 * a as int + 256 * b as int + c as int) == [a, b, c]
  {
    var w := 65536 * a as int + 256 * b as int + c as int;
    assert w / 256 == 256 * a as int + b as int;
  }

  /** Frames and their words determine each other. */
  lemma {:induction false} WordsRoundTrip(ws: FrameWords, f: Frame)
    ensures WordsOf(FrameFrom(ws)) == ws && FrameFrom(WordsOf(f)) == f
  {
    hide Clocked;
    forall k | 0 <= k < FRAME_WORDS ensures WordAt(FrameFrom(ws), k) == ws[k] { WordKept(ws, k); }
    var g := FrameFrom(WordsOf(f));
    forall k | 0 <= k < FRAME_WORDS ensures g[3 * k..3 * k + 3] == f[3 * k..3 * k + 3] { OctetsKept(f, k); }
    forall i | 0 <= i < FRAME_BYTES ensures g[i] == f[i] {
      var k := i / 3;
      assert g[3 * k..3 * k + 3][i - 3 * k] == f[3 * k..3 * k + 3][i - 3 * k];
    }
  }

  lemma WordKept(ws: FrameWords, k: nat)
    requires k < FRAME_WORDS
    ensures WordAt(FrameFrom(ws), k) == ws[k]
  {
    hide Clocked;
    ClockedAt(ws, k);
    var f := FrameFrom(ws);
    assert f[3 * k] == f[3 * k..3 * k + 3][0] && f[3 * k + 1] == f[3 * k..3 * k + 3][1]
        && f[3 * k + 2] == f[3 * k..3 * k + 3][2];
    OctetsOfWord(ws[k]);
  }

  lemma OctetsKept(f: Frame, k: nat)
    requires k < FRAME_WORDS
    ensures FrameFrom(WordsOf(f))[3 * k..3 * k + 3] == f[3 * k..3 * k + 3]
  {
    hide Clocked;
    ClockedAt(WordsOf(f), k);
    WordOfOctets(f[3 * k], f[3 * k + 1], f[3 * k + 2]);
  }

  /** A 24-bit two's complement code. */
  function Signed24(w: Word24): (v: Int32)
    ensures -0x80_0000 <= v <= 0x7F_FFFF
  {
    if w < 0x80_0000 then w else w - 0x100_0000
  }

  /** What a frame of these words reports: 16-bit words stand in the high bits of theirs. */
  function Meaning(ws: FrameWords): Sample {
    RawSample(ws[0] / 256, ws[9] / 256,
              [Signed24(ws[1]), Signed24(ws[2]), Signed24(ws[3]), Signed24(ws[4]),
               Signed24(ws[5]), Signed24(ws[6]), Signed24(ws[7]), Signed24(ws[8])])
  }

  /** Parsing a frame reads its words: the first for the status, word c + 1 for channel c, the last for the CRC. */
  lemma ParseReadsWords(f: Frame)
    ensures Parse(f) == Meaning(WordsOf(f))
  {
    forall c | 0 <= c < 8 ensures Parse(f).channel[c] == Meaning(WordsOf(f)).channel[c] {
      assert Parse(f).channel[c] == Signed24(WordAt(f, c + 1));
    }
    assert WordsOf(f)[0] / 256 == CombineBytes(f[0], f[1]) && WordsOf(f)[9] / 256 == CombineBytes(f[27], f[28]);
  }

  type Reading = v: int | -0x80_0000 <= v <= 0x7F_FFFF

  /** One conversion as the ADC reports it. */
  datatype ConversionResult = ConversionResult(status: Word16, readings: seq<Reading>, crc: Word16)

  type Conversion = c: ConversionResult | |c.readings| == 8 witness ConversionResult(0, seq(8, _ => 0), 0)

  function Code24(v: Reading): Word24 {
    if v < 0 then v + 0x100_0000 else v
  }

  /** The frame the ADC sends for a conversion. */
  function Encoded(c: Conversion): Frame {
    FrameFrom([c.status * 256] + seq(8, i requires 0 <= i < 8 => Code24(c.readings[i])) + [c.crc * 256])
  }

  /** Parsing what the ADC sends gives back its status, its eight readings in order and its CRC. */
  lemma ParseEncoded(c: Conversion)
    ensures var s := Parse(Encoded(c));
            s.response == c.status && s.crc == c.crc && s.channel == c.readings
  {
    hide Clocked, Parse;
    var ws: FrameWords := [c.status * 256] + seq(8, i requires 0 <= i < 8 => Code24(c.readings[i])) + [c.crc * 256];
    WordsRoundTrip(ws, Encoded(c));
    ParseReadsWords(Encoded(c));
    assert ws[0] == c.status * 256 && ws[9] == c.crc * 256;
    assert forall i :: 0 <= i < 8 ==> ws[i + 1] == Code24(c.readings[i]) && Signed24(ws[i + 1]) == c.readings[i];
  }

  /** A word and its three octets determine each other. */
  lemma SameOctets(f: Frame, g: Frame, k: nat)
    requires k < FRAME_WORDS
    ensures WordAt(f, k) == WordAt(g, k) <==> f[3 * k..3 * k + 3] == g[3 * k..3 * k + 3]
  {
    WordOfOctets(f[3 * k], f[3 * k + 1], f[3 * k + 2]);
    WordOfOctets(g[3 * k], g[3 * k + 1], g[3 * k + 2]);
    hide WordOctets;
    assert f[3 * k..3 * k + 3] == [f[3 * k], f[3 * k + 1], f[3 * k + 2]];
    assert g[3 * k..3 * k + 3] == [g[3 * k], g[3 * k + 1], g[3 * k + 2]];
  }

  /** A channel depends on its own word only, and tells any two values of it apart. */
  lemma SameWordSameChannel(f: Frame, g: Frame, c: nat)
    requires c < 8
    ensures Parse(f).channel[c] == Parse(g).channel[c] <==>
            f[3 * (c + 1)..3 * (c + 1) + 3] == g[3 * (c + 1)..3 * (c + 1) + 3]
  {
    ParseReadsWords(f);
    ParseReadsWords(g);
    SameOctets(f, g, c + 1);
    hide Parse, WordAt;
    assert Parse(f).channel[c] == Signed24(WordAt(f, c + 1)) && Parse(g).channel[c] == Signed24(WordAt(g, c + 1));
  }
}
