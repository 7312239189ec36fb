/**
 Offset calibration (daq_engine.c, ads131m08.c): which frames are averaged, what the average is, the
 register words it is written as, and the checksummed record it is stored in.
 */
module Calibration {
  import opened Bytes
  import opened Packing
  import opened DmaRing

  const CAL_CHANNELS: nat := 6
  const IGNORE_MS: nat := 5000
  const AVERAGE_MS: nat := 10000
  const GUARD_MS: nat := 15100

  /** `HAL_GetTick()`: milliseconds in a wrapping 32-bit counter. */
  type Tick = t: int | 0 <= t < 0x1_0000_0000

  function After(t: Tick, ms: nat): Tick {
    (t + ms) % TWO32
  }

  /** `(int32_t)(now - limit) >= 0`. */
  predicate Reached(now: Tick, limit: Tick) {
    ToSigned((now - limit) % TWO32) >= 0
  }

  /** The accumulator; `used` records the frames summed and influences nothing. */
  datatype AccumulatorState = AccumulatorState(
    active: bool, ignoreUntil: Tick, averageUntil: Tick, count: nat, sums: seq<int>, used: seq<Sample>)

  type Accumulator = a: AccumulatorState | |a.sums| == CAL_CHANNELS
    witness AccumulatorState(false, 0, 0, 0, [0, 0, 0, 0, 0, 0], [])

  const IDLE_ACCUMULATOR: Accumulator := AccumulatorState(false, 0, 0, 0, [0, 0, 0, 0, 0, 0], [])

  /** `DAQ_StartOffsetCalibrationAccumulator`. */
  function StartAccumulator(now: Tick): Accumulator {
    var ignore := After(now, IGNORE_MS);
    AccumulatorState(true, ignore, After(ignore, AVERAGE_MS), 0, [0, 0, 0, 0, 0, 0], [])
  }

  predicate Counts(a: Accumulator, now: Tick) {
    !Reached(now, a.averageUntil) && Reached(now, a.ignoreUntil)
  }

  /** `DAQ_AccumulateOffsetCalibrationFrame`. */
  function Accumulate(a: Accumulator, s: Sample, now: Tick): Accumulator {
    if Reached(now, a.averageUntil) then a.(active := false)
    else if !Reached(now, a.ignoreUntil) then a
    else a.(sums := [a.sums[0] + s.channel[0], a.sums[1] + s.channel[1], a.sums[2] + s.channel[2],
                     a.sums[3] + s.channel[3], a.sums[4] + s.channel[4], a.sums[5] + s.channel[5]],
            count := a.count + 1, used := a.used + [s])
  }

  /**
   Exactly the frames processed between 5 s and 15 s after the start are summed, and the accumulator
   closes from 15 s on, whatever the start tick, wrap-around of the counter included.
   */
  lemma ExactWindow(start: Tick, now: Tick)
    ensures var e := (now - start) % TWO32;
            var a := StartAccumulator(start);
            && (Counts(a, now) <==> 5000 <= e < 15000)
            && (Reached(now, a.averageUntil) <==> 15000 <= e < 15000 + 0x8000_0000)
  {
    var e := (now - start) % TWO32;
    var a := StartAccumulator(start);
    ReachedAfter(start, now, IGNORE_MS);
    AfterAfter(start, IGNORE_MS, AVERAGE_MS);
    ReachedAfter(start, now, IGNORE_MS + AVERAGE_MS);
  }

  lemma AfterAfter(t: Tick, m: nat, n: nat)
    ensures After(After(t, m), n) == After(t, m + n)
  {}

  lemma ReachedAfter(start: Tick, now: Tick, ms: nat)
    requires ms < 0x8000_0000
    ensures var e := (now - start) % TWO32;
            Reached(now, After(start, ms)) <==> ms <= e < ms + 0x8000_0000
  {
    var e, q := (now - start) % TWO32, (now - start) / TWO32;
    var p := (start + ms) / TWO32;
    assert now - start == TWO32 * q + e && start + ms == TWO32 * p + After(start, ms);
    var d := if e >= ms then e - ms else e - ms + TWO32;
    var t := if e >= ms then q + p else q + p - 1;
    assert now - After(start, ms) == d + TWO32 * t;
    WholeTurns(d, t);
  }

  /** Whole turns of the counter do not show. */
  lemma WholeTurns(d: Tick, t: int)
    ensures (d + TWO32 * t) % TWO32 == d
  {}

  // ----- the averages -----

  function Sum(samples: seq<Sample>, channel: nat): int
    requires channel < CHANNEL_COUNT
  {
    if samples == [] then 0
    else Sum(samples[..|samples| - 1], channel) + samples[|samples| - 1].channel[channel]
  }

  /** The accumulator holds the sums over the frames it used. */
  ghost predicate Summed(a: Accumulator) {
    && a.count == |a.used|
    && forall c: nat :: c < CAL_CHANNELS ==> a.sums[c] == Sum(a.used, c)
  }

  lemma StartSummed(now: Tick)
    ensures Summed(StartAccumulator(now)) && StartAccumulator(now).used == []
  {}

  lemma AccumulateSummed(a: Accumulator, s: Sample, now: Tick)
    requires Summed(a)
    ensures Summed(Accumulate(a, s, now))
    ensures Accumulate(a, s, now).used == if Counts(a, now) then a.used + [s] else a.used
  {
    assert (a.used + [s])[..|a.used|] == a.used;
  }

  // ----- a whole calibration -----

  /** A frame and the tick at which it is processed. */
  datatype Timed = Timed(sample: Sample, at: Tick)

  function Elapsed(start: Tick, now: Tick): int {
    (now - start) % TWO32
  }

  /** The accumulator after these frames; once closed it takes no more. */
  function AccumulateAll(start: Tick, frames: seq<Timed>): Accumulator {
    if frames == [] then StartAccumulator(start)
    else
      var n := |frames| - 1;
      var a := AccumulateAll(start, frames[..n]);
      if a.active then Accumulate(a, frames[n].sample, frames[n].at) else a
  }

  /** The samples processed within the averaging window. */
  function InWindow(start: Tick, frames: seq<Timed>): seq<Sample> {
    if frames == [] then []
    else
      var n := |frames| - 1;
      InWindow(start, frames[..n])
      + (if 5000 <= Elapsed(start, frames[n].at) < 15000 then [frames[n].sample] else [])
  }

  /** Frames processed one after the other, within 2^31 ms of the start. */
  ghost predicate InOrder(start: Tick, frames: seq<Timed>) {
    && (forall i :: 0 <= i < |frames| ==> Elapsed(start, frames[i].at) < 0x8000_0000)
    && (forall i, j :: 0 <= i <= j < |frames| ==> Elapsed(start, frames[i].at) <= Elapsed(start, frames[j].at))
  }

  /** Whether the window is still open after these frames. */
  predicate StillOpen(start: Tick, frames: seq<Timed>) {
    frames == [] || Elapsed(start, frames[|frames| - 1].at) < IGNORE_MS + AVERAGE_MS
  }

  lemma OpenBefore(start: Tick, frames: seq<Timed>)
    requires InOrder(start, frames) && frames != []
    ensures InOrder(start, frames[..|frames| - 1]) && Elapsed(start, frames[|frames| - 1].at) < 0x8000_0000
    ensures StillOpen(start, frames) ==> StillOpen(start, frames[..|frames| - 1])
  {
    hide Elapsed;
    var n := |frames| - 1;
    assert forall i :: 0 <= i < n ==> frames[..n][i] == frames[i];
  }

  /** One frame of a calibration that is still open. */
  lemma OneAveraged(start: Tick, a: Accumulator, f: Timed)
    requires Elapsed(start, f.at) < 0x8000_0000
    requires a.ignoreUntil == StartAccumulator(start).ignoreUntil
        && a.averageUntil == StartAccumulator(start).averageUntil
    requires a.active && Summed(a)
    ensures var b, e := Accumulate(a, f.sample, f.at), Elapsed(start, f.at);
            && Summed(b) && b.ignoreUntil == a.ignoreUntil && b.averageUntil == a.averageUntil
            && (b.active <==> e < IGNORE_MS + AVERAGE_MS)
            && b.used == if IGNORE_MS <= e < IGNORE_MS + AVERAGE_MS then a.used + [f.sample] else a.used
  {
    ExactWindow(start, f.at);
    AccumulateSummed(a, f.sample, f.at);
    hide Summed, Reached, After;
  }

  /** In a whole calibration exactly the samples of the window are averaged, and the sums are theirs. */
  lemma {:induction false} WindowIsAveraged(start: Tick, frames: seq<Timed>)
    requires InOrder(start, frames)
    ensures var a := AccumulateAll(start, frames);
            && a.used == InWindow(start, frames) && Summed(a)
            && (a.active <==> StillOpen(start, frames))
            && a.ignoreUntil == StartAccumulator(start).ignoreUntil
                && a.averageUntil == StartAccumulator(start).averageUntil
  {
    if frames == [] {
      StartSummed(start);
    } else {
      var n := |frames| - 1;
      OpenBefore(start, frames);
      WindowIsAveraged(start, frames[..n]);
      var a := AccumulateAll(start, frames[..n]);
      hide InOrder, Summed, StartAccumulator, Accumulate, Elapsed;
      if a.active { OneAveraged(start, a, frames[n]); }
    }
  }

  /** C's division, truncating toward zero. */
  function TruncatedDivide(n: int, d: nat): int
    requires d > 0
  {
    if n >= 0 then n / d else -(-n / d)
  }

  /** Its remainder is smaller than the divisor and never of the other sign, which no other quotient achieves. */
  lemma DivisionTruncates(n: int, d: nat, q: int)
    requires d > 0
    ensures q == TruncatedDivide(n, d) <==>
            (if n >= 0 then 0 <= n - d * q < d else -(d as int) < n - d * q <= 0)
  {
    if n >= 0 {
      QuotientIs(n, d, q);
    } else {
      QuotientIs(-n, d, -q);
      assert d * -q == -(d * q);
    }
  }

  lemma QuotientIs(n: nat, d: nat, q: int)
    requires d > 0
    ensures q == n / d <==> 0 <= n - d * q < d
  {
    var p := n / d;
    assert 0 <= n - d * p < d;
    MulNext(d, p);
    MulNext(d, q);
    if p < q { MulMonotone(d, p + 1, q); }
    if q < p { MulMonotone(d, q + 1, p); }
  }

  lemma MulSucc(n: nat, x: int)
    ensures (n + 1) * x == n * x + x
  {}

  lemma MulMonotone(d: nat, x: int, y: int)
    requires x <= y
    ensures d * x <= d * y
  {}

  lemma MulNext(d: nat, x: int)
    ensures d * (x + 1) == d * x + d
  {}

  lemma {:induction false} SumBounds(samples: seq<Sample>, channel: nat, lo: int, hi: int)
    requires channel < CHANNEL_COUNT
    requires forall s :: s in samples ==> lo <= s.channel[channel] <= hi
    ensures |samples| * lo <= Sum(samples, channel) <= |samples| * hi
  {
    if samples != [] {
      var n := |samples| - 1;
      assert samples[n] in samples;
      SumBounds(samples[..n], channel, lo, hi);
      MulSucc(n, lo);
      MulSucc(n, hi);
    }
  }

  lemma QuotientBounds(n: nat, d: nat, lo: int, hi: int)
    requires d > 0 && d * lo <= n <= d * hi
    ensures lo <= n / d <= hi
  {
    var q := n / d;
    assert d * q <= n < d * q + d;
    MulNext(d, hi);
    MulNext(d, q);
    if q > hi { MulMonotone(d, hi + 1, q); }
    if q < lo { MulMonotone(d, q + 1, lo); }
  }

  lemma DivideBounds(n: int, d: nat, lo: int, hi: int)
    requires d > 0 && d * lo <= n <= d * hi
    ensures lo <= TruncatedDivide(n, d) <= hi
  {
    if n >= 0 {
      QuotientBounds(n, d, lo, hi);
    } else {
      assert d * -hi == -(d * hi) && d * -lo == -(d * lo);
      QuotientBounds(-n, d, -hi, -lo);
    }
  }

  /** The offset of a channel: the truncated mean, as `DAQ_RunOffsetCalibration` computes it. */
  function Mean(a: Accumulator, channel: nat): int
    requires channel < CAL_CHANNELS && a.count > 0
  {
    TruncatedDivide(a.sums[channel], a.count)
  }

  /** The mean lies between the smallest and the largest reading averaged. */
  lemma MeanBetween(a: Accumulator, channel: nat, lo: int, hi: int)
    requires Summed(a) && a.count > 0 && channel < CAL_CHANNELS
    requires forall s :: s in a.used ==> lo <= s.channel[channel] <= hi
    ensures lo <= Mean(a, channel) <= hi
  {
    SumBounds(a.used, channel, lo, hi);
    DivideBounds(a.sums[channel], a.count, lo, hi);
  }

  /** The 64-bit sums cannot overflow for any 32-bit count. */
  lemma SumsFit(a: Accumulator, channel: nat)
    requires Summed(a) && a.count < TWO32 && channel < CAL_CHANNELS
    ensures -0x8000_0000_0000_0000 <= a.sums[channel] < 0x8000_0000_0000_0000
  {
    SumBounds(a.used, channel, -0x8000_0000, 0x7FFF_FFFF);
  }

  /** The mean as it is stored: the quotient cast to 32 bits. */
  function MeanOffset(a: Accumulator, channel: nat): Int32
    requires a.count > 0 && channel < CAL_CHANNELS
  {
    ToSigned(Mean(a, channel) % TWO32)
  }

  /** The cast is exact. */
  lemma MeanOffsetIsMean(a: Accumulator, channel: nat)
    requires Summed(a) && a.count > 0 && channel < CAL_CHANNELS
    ensures MeanOffset(a, channel) == Mean(a, channel)
  {
    MeanBetween(a, channel, -0x8000_0000, 0x7FFF_FFFF);
  }

  function Means(a: Accumulator): (offsets: seq<Int32>)
    requires a.count > 0
    ensures |offsets| == CAL_CHANNELS
  {
    [MeanOffset(a, 0), MeanOffset(a, 1), MeanOffset(a, 2), MeanOffset(a, 3), MeanOffset(a, 4), MeanOffset(a, 5)]
  }

  // ----- the register words -----

  function Clamp24(v: Int32): (c: Int32)
    ensures -0x80_0000 <= c <= 0x7F_FFFF
    ensures -0x80_0000 <= v <= 0x7F_FFFF ==> c == v
    ensures v < -0x80_0000 ==> c == -0x80_0000
    ensures v > 0x7F_FFFF ==> c == 0x7F_FFFF
  {
    if v > 0x7F_FFFF then 0x7F_FFFF else if v < -0x80_0000 then -0x80_0000 else v
  }

  lemma LowBytes(x: int)
    ensures x % 0x100_0000 == 65536 * (x / 65536 % 256) + 256 * (x / 256 % 256) + x % 256
  {
    assert x / 256 == 256 * (x / 65536) + x / 256 % 256;
    assert x / 65536 == 256 * (x / 0x100_0000) + x / 65536 % 256;
  }

  /** The offset the ADC reads from a channel's two registers. */
  function RegisterOffset(msb: Word16, lsb: Word16): Int32 {
    SignExtend((msb / 256) as Byte, (msb % 256) as Byte, (lsb / 256) as Byte)
  }

  /** The first register holds the high sixteen bits, the second the low eight in its high octet. */
  lemma RegisterPlaces()
    ensures RegisterOffset(0x1234, 0x5600) == 0x123456 && RegisterOffset(0xFFFF, 0xFE00) == -2
  {}

  /** A 24-bit value is known by its three octets. */
  lemma SignedIs(high: Byte, mid: Byte, low: Byte, adc: Int32)
    requires -0x80_0000 <= adc <= 0x7F_FFFF
    requires adc % 0x100_0000 == 65536 * high as int + 256 * mid as int + low as int
    ensures SignExtend(high, mid, low) == adc
  {
    var raw := 65536 * high as int + 256 * mid as int + low as int;
    assert adc == raw || adc == raw - 0x100_0000;
  }

  lemma RegistersHold(high: int, mid: int, low: int, adc: Int32)
    requires 0 <= high < 256 && 0 <= mid < 256 && 0 <= low < 256
    requires -0x80_0000 <= adc <= 0x7F_FFFF && adc % 0x100_0000 == 65536 * high + 256 * mid + low
    ensures 0 <= high * 256 + mid < 0x1_0000 && 0 <= low * 256 < 0x1_0000
    ensures RegisterOffset(high * 256 + mid, low * 256) == adc
  {
    hide SignExtend;
    var msb, lsb := high * 256 + mid, low * 256;
    assert msb / 256 == high && msb % 256 == mid && lsb / 256 == low;
    SignedIs(high as Byte, mid as Byte, low as Byte, adc);
  }

  /** The words `calibrate` writes to a channel's offset registers: the high sixteen bits, then the low eight. */
  method CalibrationWords(value: Int32) returns (msb: Word16, lsb: Word16)
    ensures RegisterOffset(msb, lsb) == Clamp24(value)
  {
    var adc: Int32 := value;
    if adc > 0x7F_FFFF {
      adc := 0x7F_FFFF;
    } else if adc < -0x80_0000 {
      adc := -0x80_0000;
    }
    var high, mid, low := adc / 65536 % 256, adc / 256 % 256, adc % 256;
    LowBytes(adc);
    RegistersHold(high, mid, low, adc);
    msb := high * 256 + mid;
    lsb := low * 256;
  }
}
