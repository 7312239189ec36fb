/**
 The main-loop side of the acquisition path (daq_engine.c): aggregation of samples into blocks, the
 write queue, the raw log and the hand-over of blocks to the other core, as functions on values. Only
 the main loop touches this state. A run ledger records what became of every sample and block of the
 current run; no behaviour depends on it.
 */
module Storage {
  import opened Bytes
  import opened Packing
  import opened Calibration
  import opened Capture

  const QUEUE_DEPTH: nat := 8
  const SHARED_LEN: nat := 16384
  const ERROR_OPEN: nat := 10
  const ERROR_DATA: nat := 11
  const FS_PARAM: int := -1
  const FS_READ_FILE: int := -9

  datatype Config = Config(
    sampleRate: nat, mask: Mask, blockSamples: nat, flags: nat, filename: seq<Byte>)

  /** `DAQ_ValidateConfig`. */
  predicate ValidConfig(c: Config) {
    && c.sampleRate != 0
    && ValidMask(c.mask)
    && 1 <= c.blockSamples <= BLOCK_CAPACITY
    && |c.filename| == 64 && c.filename[63] == 0
  }

  datatype Mode = NoMode | LogMode | StreamMode

  datatype RunKind = NoRun | LogRun | StreamRun

  /** Whether the current run still is the one its start command configured. */
  datatype Fate =
    | Intact
    | Reconfigured   // a failed start or a calibration changed the configuration meanwhile
    | Discarded      // buffered samples were thrown away

  datatype Run = Run(
    kind: RunKind,
    late: bool,               // the start was handled while the previous run was being wound up
    fate: Fate,
    origin: nat,              // frames parsed before the run began
    stored: seq<Sample>,      // samples stored, in order
    formed: seq<Block>,       // blocks cut from them
    pushed: seq<Block>,       // blocks the queue accepted
    popped: seq<Block>,
    written: seq<Block>,      // blocks that reached the log, or the other core
    lost: nat,                // blocks the full queue refused
    unsaved: nat,             // blocks popped but not written
    bad: nat)                 // frames with the all-ones status word

  function NewRun(kind: RunKind, late: bool, origin: nat): Run {
    Run(kind, late, Intact, origin, [], [], [], [], [], 0, 0, 0)
  }

  datatype Back = Back(
    cfg: Config, mode: Mode, aggr: seq<Sample>, queue: seq<Block>,
    captured: nat, dropped: nat, lastError: nat, opStatus: int,
    bytesQueued: nat, bytesWritten: nat,
    logOpen: bool, log: seq<Byte>, shared: seq<Sample>,
    cal: Accumulator, offsets: seq<Int32>, averaged: nat,
    start: bool, stop: bool, run: Run)

  const DEFAULT_CONFIG: Config := Config(4000, 0xFF, 128, 0, DefaultName())

  /** "daq.bin", padded. */
  function DefaultName(): (name: seq<Byte>)
    ensures |name| == 64 && name[63] == 0
  {
    [100, 97, 113, 46, 98, 105, 110] + seq(57, _ => 0)
  }

  function InitBack(): Back {
    Back(DEFAULT_CONFIG, NoMode, [], [], 0, 0, 0, 0, 0, 0, false, [], [],
         IDLE_ACCUMULATOR, [0, 0, 0, 0, 0, 0], 0, false, false, NewRun(NoRun, false, 0))
  }

  // ----- the write queue and aggregation -----

  /** Bytes accounted per sample: packed words when logging, whole frames otherwise. */
  function Unit(b: Back): nat {
    if b.mode == LogMode then 4 * Count(b.cfg.mask) else FRAME_SIZE
  }

  /** `DAQ_GetQueuedBytes`. */
  function QueuedBytes(b: Back, samples: nat): nat {
    Times(samples, Unit(b))
  }

  /** `DAQ_QueuePush` of a block just cut, counted as dropped by the caller when the queue is full. */
  function PushBlock(b: Back, blk: Block): Back {
    var run := b.run.(formed := b.run.formed + [blk]);
    if |b.queue| >= QUEUE_DEPTH then
      b.(dropped := b.dropped + 1, run := run.(lost := run.lost + 1))
    else
      b.(queue := b.queue + [blk], bytesQueued := b.bytesQueued + QueuedBytes(b, |blk|),
         run := run.(pushed := run.pushed + [blk]))
  }

  /** A sample joining the open block. */
  function Append(b: Back, s: Sample): Back {
    b.(aggr := b.aggr + [s], run := b.run.(stored := b.run.stored + [s]))
  }

  /** The open block pushed whole, leaving an empty one. */
  function Cut(b: Back, captured: nat): Back {
    PushBlock(b.(aggr := [], captured := captured), b.aggr)
  }

  /** `DAQ_StoreSampleFrame`. */
  function StoreSample(b: Back, s: Sample): Back {
    var c := Append(b, s);
    if |c.aggr| < c.cfg.blockSamples then c.(captured := c.captured + 1)
    else Cut(c, if |c.queue| >= QUEUE_DEPTH then c.captured else c.captured + 1)
  }

  predicate BadFrame(s: Sample) {
    s.response == 0xFFFF
  }

  /** `DAQ_StoreAdcFrame`. */
  function StoreFrame(b: Back, s: Sample, now: Tick): Back {
    if BadFrame(s) then b.(dropped := b.dropped + 1, run := b.run.(bad := b.run.bad + 1))
    else if b.cal.active then
      b.(cal := Accumulate(b.cal, s, now),
         captured := if Counts(b.cal, now) then b.captured + 1 else b.captured)
    else StoreSample(b, s)
  }

  /** The flush in `DAQ_Shutdown` and `DAQ_StopAndClose`. */
  function Flush(b: Back): Back {
    if b.aggr == [] then b else Cut(b, b.captured)
  }

  /** What becomes of the run when buffered samples are thrown away. */
  function Discard(b: Back): Run {
    if (b.aggr != [] || b.queue != []) && b.run.fate == Intact then b.run.(fate := Discarded) else b.run
  }

  /** `DAQ_ResetSoftwareBuffers`. */
  function ResetBuffers(b: Back): Back {
    b.(aggr := [], queue := [], bytesQueued := 0, run := Discard(b))
  }

  /** The part of `DAQ_Startup` that clears the aggregation block. */
  function DropAggregate(b: Back): Back {
    b.(aggr := [],
       run := if b.aggr != [] && b.run.fate == Intact then b.run.(fate := Discarded) else b.run)
  }

  // ----- draining -----

  function Minus(total: nat, part: nat): nat {
    if total >= part then total - part else 0
  }

  /** A popped block. */
  function Pop(b: Back): Back
    requires b.queue != []
  {
    b.(queue := b.queue[1..], run := b.run.(popped := b.run.popped + [b.queue[0]]))
  }

  function MarkWritten(b: Back, blk: Block, bytes: nat): Back {
    b.(bytesQueued := Minus(b.bytesQueued, bytes), bytesWritten := b.bytesWritten + bytes,
       run := b.run.(written := b.run.written + [blk]))
  }

  function MarkUnsaved(b: Back): Back {
    b.(dropped := b.dropped + 1, run := b.run.(unsaved := b.run.unsaved + 1))
  }

  /** `DAQ_ServicePendingWrites`; `ok` is the outcome of the file write. */
  function ServiceWrite(b: Back, ok: bool): Back {
    if b.mode != LogMode || b.queue == [] then b
    else
      var blk := b.queue[0];
      var packed := Pack(b.cfg.mask, blk);
      if |packed| == 0 || |packed| > PACK_BUFFER_SIZE then
        MarkUnsaved(Pop(b)).(lastError := ERROR_DATA, opStatus := FS_PARAM)
      else if !b.logOpen || !ok then
        MarkUnsaved(Pop(b)).(lastError := ERROR_DATA, opStatus := FS_READ_FILE)
      else
        MarkWritten(Pop(b), blk, |packed|).(log := b.log + packed)
  }

  /** Whether `DAQ_ReadStreamBlockShared` hands a block over. */
  predicate Delivers(b: Back, maxLen: nat) {
    && maxLen >= FRAME_SIZE && b.mode == StreamMode && b.queue != []
    && |b.queue[0]| * FRAME_SIZE <= maxLen && |b.queue[0]| * FRAME_SIZE <= SHARED_LEN
  }

  /** `DAQ_ReadStreamBlockShared`. */
  function ReadStream(b: Back, maxLen: nat): Back {
    if maxLen < FRAME_SIZE || b.mode != StreamMode || b.queue == [] then b
    else
      var blk := b.queue[0];
      var bytes := |blk| * FRAME_SIZE;
      if bytes > maxLen || bytes > SHARED_LEN then MarkUnsaved(Pop(b))
      else MarkWritten(Pop(b), blk, bytes).(shared := blk)
  }

  /** `EmmcFs_CloseRawLog` where a failure is recorded. */
  function CloseLog(b: Back, ok: bool): Back {
    if !b.logOpen then b
    else if ok then b.(logOpen := false)
    else b.(logOpen := false, lastError := ERROR_DATA, opStatus := FS_READ_FILE)
  }

  /** The value `DAQ_HasPendingWrites` returns. */
  predicate Pending(b: Back, armed: bool) {
    (b.mode != StreamMode || armed) && (b.queue != [] || b.aggr != [])
  }

  /** The effect of `DAQ_HasPendingWrites`. */
  function CheckPending(b: Back, armed: bool, ok: bool): Back {
    if b.mode == StreamMode && !armed then ResetBuffers(b).(mode := NoMode)
    else if b.queue == [] && b.aggr == [] && !armed then CloseLog(b, ok).(mode := NoMode)
    else b
  }

  /** One of the bounded loops of `DAQ_StopAndClose`, standing at iteration `guard`. */
  function Drain(b: Back, guard: nat, oks: nat -> bool): Back
    decreases QUEUE_DEPTH + 2 - guard
  {
    if b.queue == [] || guard >= QUEUE_DEPTH + 2 then b
    else Drain(ServiceWrite(b, oks(guard)), guard + 1, oks)
  }

  /** `DAQ_StopAndClose` before the log is closed and the buffers are reset. */
  function Drained(b: Back, running: bool, first: nat -> bool, second: nat -> bool): Back {
    Drain(Flush(Drain(if running then Flush(b) else b, 0, first)), 0, second)
  }

  /** The end of `DAQ_StopAndClose`, after its drain loops. */
  function Closed(b: Back, closeOk: bool): Back {
    var closed := ResetBuffers(CloseLog(b, closeOk).(start := false, stop := false, mode := NoMode));
    closed.(opStatus := if closed.lastError == 0 then 0 else FS_READ_FILE)
  }

  /** `DAQ_StopAndClose` from the flush on; `first` and `second` are the write outcomes of its two loops. */
  function StopAndClose(b: Back, running: bool, first: nat -> bool, second: nat -> bool, closeOk: bool): Back {
    Closed(Drained(b, running, first, second), closeOk)
  }

  // ----- commands -----

  function Reconfigure(b: Back): Run {
    b.run.(fate := Reconfigured)
  }

  /** A fresh run: `DAQ_ResetSoftwareBuffers` and the counters, then the start event. */
  function BeginRun(b: Back, mode: Mode, run: Run): Back {
    ResetBuffers(b).(mode := mode, captured := 0, dropped := 0, bytesWritten := 0, lastError := 0,
      start := true, stop := false, opStatus := 0, run := run)
  }

  /**
   `DAQ_StartLogging`; `openStatus` is the file system's answer (0 for success). A failed open leaves the
   new configuration in place and the old log closed.
   */
  function StartLogging(b: Back, cfg: Config, openStatus: int, late: bool, origin: nat): Back {
    if !ValidConfig(cfg) then b.(opStatus := FS_PARAM)
    else if cfg.filename[0] == 0 then
      b.(cfg := cfg, logOpen := false, lastError := ERROR_OPEN, opStatus := FS_PARAM, run := Reconfigure(b))
    else if openStatus != 0 then
      b.(cfg := cfg, logOpen := false, lastError := ERROR_OPEN, opStatus := openStatus, run := Reconfigure(b))
    else
      BeginRun(b.(cfg := cfg, logOpen := true, log := []), LogMode, NewRun(LogRun, late, origin))
  }

  /** Whether a start command began a new run. */
  predicate LoggingStarts(cfg: Config, openStatus: int) {
    ValidConfig(cfg) && cfg.filename[0] != 0 && openStatus == 0
  }

  /** `DAQ_StartStreaming`. */
  function StartStreaming(b: Back, cfg: Config, late: bool, origin: nat): Back {
    if !ValidConfig(cfg) then b.(opStatus := FS_PARAM)
    else BeginRun(b.(cfg := cfg, logOpen := false), StreamMode, NewRun(StreamRun, late, origin))
  }

  /** `DAQ_Stop`, in the state machine's rest states and in the others. */
  function Stop(b: Back, resting: bool): Back {
    if resting then ResetBuffers(b).(start := false, stop := false, mode := NoMode)
    else b.(start := false, stop := true)
  }

  /** What `DAQ_RunOffsetCalibration` saves and restores. */
  datatype Saved = Saved(cfg: Config, mode: Mode)

  /** `DAQ_RunOffsetCalibration` up to arming the ADC. */
  function BeginCalibration(b: Back, now: Tick): Back {
    ResetBuffers(b).(captured := 0, dropped := 0, bytesWritten := 0, lastError := 0, mode := NoMode,
      cfg := b.cfg.(sampleRate := 2000, mask := 0x3F, blockSamples := BLOCK_CAPACITY, flags := 0),
      cal := StartAccumulator(now), averaged := 0, run := Reconfigure(b))
  }

  /** `DAQ_RunOffsetCalibration` from the end of its loop on. */
  function EndCalibration(b: Back, saved: Saved): Back {
    var c := b.(cal := b.cal.(active := false), cfg := saved.cfg, mode := saved.mode);
    if b.cal.count == 0 then c
    else c.(offsets := Means(b.cal), averaged := b.cal.count, start := false, stop := false)
  }

  // ----- what is kept -----

  ghost predicate GoodBlock(blk: Block) {
    1 <= |blk| <= BLOCK_CAPACITY
  }

  /** The structural bounds. */
  ghost predicate BackOk(b: Back) {
    && ValidConfig(b.cfg)
    && |b.aggr| < BLOCK_CAPACITY
    && |b.queue| <= QUEUE_DEPTH
    && (forall blk :: blk in b.queue ==> GoodBlock(blk))
    && Summed(b.cal)
    && |b.offsets| == CAL_CHANNELS
  }

  /** Accounted bytes of a list of blocks. */
  function Cost(blks: seq<Block>, unit: nat): nat {
    if blks == [] then 0 else Cost(blks[..|blks| - 1], unit) + Times(|blks[|blks| - 1]|, unit)
  }

  function ModeOf(kind: RunKind): Mode {
    match kind case NoRun => NoMode case LogRun => LogMode case StreamRun => StreamMode
  }

  /**
   The account of an intact run: the stored samples are the cut blocks followed by the open block; the
   queue is first in, first out; blocks only disappear where a counter says so; the log is the packing of
   the written blocks; the byte counters are exact.
   */
  ghost predicate Flow(b: Back) {
    var r := b.run;
    && r.stored == Flatten(r.formed) + b.aggr
    && r.pushed == r.popped + b.queue
    && |r.formed| == |r.pushed| + r.lost
    && |r.popped| == |r.written| + r.unsaved
    && Subsequence(r.pushed, r.formed)
    && Subsequence(r.written, r.popped)
  }

  /** Whether the current run is still in its mode. */
  predicate InMode(b: Back) {
    b.run.kind != NoRun && b.mode == ModeOf(b.run.kind)
  }

  ghost predicate Tally(b: Back) {
    && b.dropped == b.run.lost + b.run.unsaved + b.run.bad
    && (b.run.kind == LogRun ==> b.log == Pack(b.cfg.mask, Flatten(b.run.written)))
  }

  ghost predicate ByteCount(b: Back) {
    InMode(b) ==>
      && b.bytesWritten == Cost(b.run.written, Unit(b))
      && b.bytesQueued + b.bytesWritten == Cost(b.run.pushed, Unit(b))
  }

  ghost predicate RunOk(b: Back) {
    b.run.fate == Intact ==> Flow(b) && Tally(b) && ByteCount(b)
  }

  lemma InitBackOk()
    ensures BackOk(InitBack()) && RunOk(InitBack())
  {
    StartSummed(0);
  }

  // ----- preservation, operation by operation -----

  lemma CostSnoc(blks: seq<Block>, blk: Block, unit: nat)
    ensures Cost(blks + [blk], unit) == Cost(blks, unit) + Times(|blk|, unit)
  {
    assert (blks + [blk])[..|blks|] == blks;
  }

  lemma {:induction false} CostAppend(xs: seq<Block>, ys: seq<Block>, unit: nat)
    ensures Cost(xs + ys, unit) == Cost(xs, unit) + Cost(ys, unit)
  {
    if ys == [] {
      assert xs + ys == xs;
    } else {
      var n := |ys| - 1;
      CostAppend(xs, ys[..n], unit);
      assert xs + ys == (xs + ys[..n]) + [ys[n]];
      CostSnoc(xs + ys[..n], ys[n], unit);
    }
  }

  lemma Distribute(x: nat, y: nat, unit: nat)
    ensures (x + y) * unit == x * unit + y * unit
  {}

  /** Accounted bytes are what the samples take. */
  lemma {:induction false} CostIsSize(blks: seq<Block>, unit: nat)
    ensures Cost(blks, unit) == |Flatten(blks)| * unit
  {
    if blks != [] {
      var n := |blks| - 1;
      CostIsSize(blks[..n], unit);
      TimesIsProduct(|blks[n]|, unit);
      Distribute(|Flatten(blks[..n])|, |blks[n]|, unit);
    }
  }

  lemma PushBackOk(b: Back, blk: Block)
    requires BackOk(b) && GoodBlock(blk)
    ensures BackOk(PushBlock(b, blk))
  {}

  lemma PushFlow(b: Back, blk: Block)
    requires Flow(b.(run := b.run.(stored := Flatten(b.run.formed) + b.aggr)))
    requires b.run.stored == Flatten(b.run.formed) + blk + b.aggr
    ensures Flow(PushBlock(b, blk))
  {
    var r := b.run;
    FlattenSnoc(r.formed, blk);
    if |b.queue| >= QUEUE_DEPTH {
      SubsequenceSkip(r.pushed, r.formed, blk);
    } else {
      SubsequenceKeep(r.pushed, r.formed, blk);
      Associative(r.popped, b.queue, [blk]);
    }
  }

  lemma PushTally(b: Back, blk: Block)
    requires Tally(b)
    ensures Tally(PushBlock(b, blk))
  {}

  lemma UnitSame(b: Back, c: Back)
    requires c.mode == b.mode && c.cfg == b.cfg
    ensures Unit(c) == Unit(b)
  {}

  lemma PushBytes(b: Back, blk: Block)
    requires ByteCount(b)
    ensures ByteCount(PushBlock(b, blk))
  {
    hide Unit, Cost, Times;
    CostSnoc(b.run.pushed, blk, Unit(b));
    UnitSame(b, PushBlock(b, blk));
  }

  /** Cutting `blk` off: the samples it holds leave the open block for the list of cut blocks. */
  lemma PushKeeps(b: Back, blk: Block)
    requires BackOk(b) && GoodBlock(blk)
    requires b.run.fate == Intact ==> Flow(b.(run := b.run.(stored := Flatten(b.run.formed) + b.aggr)))
    requires b.run.fate == Intact ==> Tally(b) && ByteCount(b)
    requires b.run.fate == Intact ==> b.run.stored == Flatten(b.run.formed) + blk + b.aggr
    ensures BackOk(PushBlock(b, blk)) && RunOk(PushBlock(b, blk))
  {
    PushBackOk(b, blk);
    if b.run.fate == Intact {
      PushFlow(b, blk);
      PushTally(b, blk);
      PushBytes(b, blk);
    }
  }

  lemma AppendKeeps(b: Back, s: Sample)
    requires RunOk(b)
    ensures RunOk(Append(b, s))
  {
    if b.run.fate == Intact { Associative(Flatten(b.run.formed), b.aggr, [s]); }
  }

  lemma RecountKeeps(b: Back, captured: nat)
    ensures RunOk(b) ==> RunOk(b.(captured := captured))
    ensures BackOk(b) ==> BackOk(b.(captured := captured))
  {}

  /** Cutting the open block off whole. */
  lemma CutKeeps(b: Back, captured: nat)
    requires RunOk(b) && GoodBlock(b.aggr) && BackOk(b.(aggr := []))
    ensures BackOk(Cut(b, captured)) && RunOk(Cut(b, captured)) && Cut(b, captured).aggr == []
  {
    if b.run.fate == Intact {
      assert Flatten(b.run.formed) + b.aggr + [] == Flatten(b.run.formed) + b.aggr;
    }
    PushKeeps(b.(aggr := [], captured := captured), b.aggr);
  }

  lemma AppendBounds(b: Back, s: Sample)
    requires BackOk(b)
    ensures |Append(b, s).aggr| < b.cfg.blockSamples ==> BackOk(Append(b, s))
    ensures GoodBlock(Append(b, s).aggr) && BackOk(Append(b, s).(aggr := []))
  {}

  lemma StoreSampleKeeps(b: Back, s: Sample)
    requires BackOk(b) && RunOk(b)
    ensures BackOk(StoreSample(b, s)) && RunOk(StoreSample(b, s))
  {
    hide BackOk, RunOk, Cut;
    var c := Append(b, s);
    AppendKeeps(b, s);
    AppendBounds(b, s);
    if |c.aggr| < c.cfg.blockSamples {
      RecountKeeps(c, c.captured + 1);
    } else {
      CutKeeps(c, if |c.queue| >= QUEUE_DEPTH then c.captured else c.captured + 1);
    }
  }

  lemma StoreFrameKeeps(b: Back, s: Sample, now: Tick)
    requires BackOk(b) && RunOk(b)
    ensures BackOk(StoreFrame(b, s, now)) && RunOk(StoreFrame(b, s, now))
  {
    if !BadFrame(s) {
      if b.cal.active { AccumulateSummed(b.cal, s, now); } else { StoreSampleKeeps(b, s); }
    }
  }

  lemma FlushKeeps(b: Back)
    requires BackOk(b) && RunOk(b)
    ensures BackOk(Flush(b)) && RunOk(Flush(b)) && Flush(b).aggr == []
  {
    if b.aggr != [] { CutKeeps(b, b.captured); }
  }

  lemma PopFlow(b: Back)
    requires b.queue != [] && Flow(b)
    ensures var r := b.run; r.pushed == (r.popped + [b.queue[0]]) + b.queue[1..]
    ensures Subsequence(b.run.written, b.run.popped + [b.queue[0]])
    ensures Subsequence(b.run.written + [b.queue[0]], b.run.popped + [b.queue[0]])
  {
    assert b.queue == [b.queue[0]] + b.queue[1..];
    Associative(b.run.popped, [b.queue[0]], b.queue[1..]);
    SubsequenceSkip(b.run.written, b.run.popped, b.queue[0]);
    SubsequenceKeep(b.run.written, b.run.popped, b.queue[0]);
  }

  lemma UnsavedKeeps(b: Back)
    requires BackOk(b) && RunOk(b) && b.queue != []
    ensures BackOk(MarkUnsaved(Pop(b))) && RunOk(MarkUnsaved(Pop(b)))
  {
    if b.run.fate == Intact { PopFlow(b); }
  }

  lemma {:induction false} CostOfSubsequence(xs: seq<Block>, ys: seq<Block>, unit: nat)
    requires Subsequence(xs, ys)
    ensures Cost(xs, unit) <= Cost(ys, unit)
    decreases |ys|
  {
    if xs != [] {
      var n, m := |xs| - 1, |ys| - 1;
      if xs[n] == ys[m] && Subsequence(xs[..n], ys[..m]) {
        CostOfSubsequence(xs[..n], ys[..m], unit);
      } else {
        CostOfSubsequence(xs, ys[..m], unit);
      }
    }
  }

  /** `bytes_queued` covers the blocks in the queue, so the saturating branches are dead. */
  lemma QueuedCovers(b: Back)
    requires RunOk(b) && b.run.fate == Intact && b.run.kind != NoRun && b.mode == ModeOf(b.run.kind)
    ensures b.bytesQueued >= Cost(b.queue, Unit(b))
    ensures b.queue != [] ==> b.bytesQueued >= Times(|b.queue[0]|, Unit(b))
  {
    CostOfSubsequence(b.run.written, b.run.popped, Unit(b));
    CostAppend(b.run.popped, b.queue, Unit(b));
    if b.queue != [] {
      assert b.queue == [b.queue[0]] + b.queue[1..];
      CostAppend([b.queue[0]], b.queue[1..], Unit(b));
      CostSnoc([], b.queue[0], Unit(b));
      assert [] + [b.queue[0]] == [b.queue[0]];
    }
  }

  /** The account of a popped block that is written, whichever way. */
  lemma WrittenFlow(b: Back)
    requires Flow(b) && b.queue != []
    ensures Flow(MarkWritten(Pop(b), b.queue[0], Times(|b.queue[0]|, Unit(b))))
  {
    hide Unit, Times;
    PopFlow(b);
  }

  lemma WrittenBytes(b: Back)
    requires RunOk(b) && b.run.fate == Intact && b.queue != [] && b.run.kind != NoRun && b.mode == ModeOf(b.run.kind)
    ensures ByteCount(MarkWritten(Pop(b), b.queue[0], Times(|b.queue[0]|, Unit(b))))
  {
    QueuedCovers(b);
    CostSnoc(b.run.written, b.queue[0], Unit(b));
    UnitSame(b, MarkWritten(Pop(b), b.queue[0], Times(|b.queue[0]|, Unit(b))));
    hide Unit, Times, Cost, Flow, Tally;
  }

  lemma LoggedKeeps(b: Back)
    requires BackOk(b) && RunOk(b) && b.queue != [] && b.mode == LogMode
    requires b.run.fate == Intact ==> b.run.kind == LogRun
    ensures var blk := b.queue[0];
            var d := MarkWritten(Pop(b), blk, Times(|blk|, Unit(b))).(log := b.log + Pack(b.cfg.mask, blk));
            BackOk(d) && RunOk(d)
  {
    var blk, r := b.queue[0], b.run;
    if r.fate == Intact {
      WrittenFlow(b);
      WrittenBytes(b);
      FlattenSnoc(r.written, blk);
      PackAppend(b.cfg.mask, Flatten(r.written), blk);
      hide Pack, Flatten, Times, Cost;
    }
  }

  lemma HandedOverKeeps(b: Back)
    requires BackOk(b) && RunOk(b) && b.queue != [] && b.mode == StreamMode
    requires b.run.fate == Intact ==> b.run.kind == StreamRun
    ensures var blk := b.queue[0];
            var d := MarkWritten(Pop(b), blk, Times(|blk|, Unit(b))).(shared := blk);
            BackOk(d) && RunOk(d)
  {
    if b.run.fate == Intact {
      WrittenFlow(b);
      WrittenBytes(b);
      hide Pack, Flatten, Times, Cost;
    }
  }

  lemma ServiceWriteKeeps(b: Back, ok: bool)
    requires BackOk(b) && RunOk(b)
    requires b.run.fate == Intact && b.mode == LogMode ==> b.run.kind == LogRun
    ensures BackOk(ServiceWrite(b, ok)) && RunOk(ServiceWrite(b, ok))
    ensures b.mode == LogMode && b.queue != [] ==> ServiceWrite(b, ok).queue == b.queue[1..]
    ensures ServiceWrite(b, ok).opStatus == FS_PARAM ==> b.opStatus == FS_PARAM
  {
    if b.mode == LogMode && b.queue != [] {
      var blk := b.queue[0];
      assert GoodBlock(blk);
      PackFits(b.cfg.mask, blk);
      PackLength(b.cfg.mask, blk);
      TimesIsProduct(|blk|, Unit(b));
      UnsavedKeeps(b);
      LoggedKeeps(b);
    }
  }

  lemma ReadStreamKeeps(b: Back, maxLen: nat)
    requires BackOk(b) && RunOk(b)
    requires b.run.fate == Intact && b.mode == StreamMode ==> b.run.kind == StreamRun
    ensures BackOk(ReadStream(b, maxLen)) && RunOk(ReadStream(b, maxLen))
  {
    if maxLen >= FRAME_SIZE && b.mode == StreamMode && b.queue != [] {
      TimesIsProduct(|b.queue[0]|, FRAME_SIZE);
      UnsavedKeeps(b);
      HandedOverKeeps(b);
    }
  }

  lemma ResetKeeps(b: Back)
    requires BackOk(b) && RunOk(b)
    ensures BackOk(ResetBuffers(b)) && RunOk(ResetBuffers(b).(mode := NoMode))
  {}

  lemma LeaveModeKeeps(b: Back)
    requires RunOk(b)
    ensures RunOk(b.(mode := NoMode))
  {}

  lemma CloseLogKeeps(b: Back, ok: bool)
    requires BackOk(b) && RunOk(b)
    ensures BackOk(CloseLog(b, ok)) && RunOk(CloseLog(b, ok))
  {}

  lemma CheckPendingKeeps(b: Back, armed: bool, ok: bool)
    requires BackOk(b) && RunOk(b)
    ensures BackOk(CheckPending(b, armed, ok)) && RunOk(CheckPending(b, armed, ok))
  {
    ResetKeeps(b);
    CloseLogKeeps(b, ok);
    LeaveModeKeeps(CloseLog(b, ok));
  }

  /** What draining leaves alone. */
  ghost predicate SameRun(b: Back, c: Back) {
    && c.aggr == b.aggr && c.mode == b.mode && c.cfg == b.cfg && c.logOpen == b.logOpen
    && c.start == b.start && c.stop == b.stop
    && c.run == b.run.(popped := c.run.popped, written := c.run.written, unsaved := c.run.unsaved)
  }

  lemma ServiceWriteSameRun(b: Back, ok: bool)
    ensures SameRun(b, ServiceWrite(b, ok))
    ensures ServiceWrite(b, ok).queue == if b.mode == LogMode && b.queue != [] then b.queue[1..] else b.queue
  {
    hide Pack, SameRun, Pop, MarkWritten, MarkUnsaved;
    Unchanged(b);
    if b.mode == LogMode && b.queue != [] {
      var packed := Pack(b.cfg.mask, b.queue[0]);
      PoppedSameRun(b, b.queue[0], |packed|, b.log + packed, ERROR_DATA, FS_PARAM);
      PoppedSameRun(b, b.queue[0], |packed|, b.log + packed, ERROR_DATA, FS_READ_FILE);
    }
  }

  lemma Unchanged(b: Back)
    ensures SameRun(b, b)
  {}

  lemma PoppedSameRun(b: Back, blk: Block, bytes: nat, log: seq<Byte>, error: nat, status: int)
    requires b.queue != []
    ensures var c := MarkUnsaved(Pop(b)).(lastError := error, opStatus := status);
            SameRun(b, c) && c.queue == b.queue[1..]
    ensures var c := MarkWritten(Pop(b), blk, bytes).(log := log);
            SameRun(b, c) && c.queue == b.queue[1..]
  {}

  lemma {:induction false} DrainKeeps(b: Back, guard: nat, oks: nat -> bool)
    requires BackOk(b) && RunOk(b)
    requires b.run.fate == Intact && b.mode == LogMode ==> b.run.kind == LogRun
    ensures BackOk(Drain(b, guard, oks)) && RunOk(Drain(b, guard, oks))
    decreases QUEUE_DEPTH + 2 - guard
  {
    hide BackOk, RunOk, ServiceWrite;
    if b.queue != [] && guard < QUEUE_DEPTH + 2 {
      ServiceWriteKeeps(b, oks(guard));
      ServiceWriteSameRun(b, oks(guard));
      DrainKeeps(ServiceWrite(b, oks(guard)), guard + 1, oks);
    }
  }

  /** The ten iterations of a drain loop empty any queue of a log run, and change nothing else of the run. */
  lemma {:induction false} DrainEmpties(b: Back, guard: nat, oks: nat -> bool)
    ensures SameRun(b, Drain(b, guard, oks))
    ensures b.mode == LogMode && |b.queue| + guard <= QUEUE_DEPTH + 2 ==> Drain(b, guard, oks).queue == []
    ensures b.mode != LogMode ==> Drain(b, guard, oks).queue == b.queue
    decreases QUEUE_DEPTH + 2 - guard
  {
    hide ServiceWrite;
    if b.queue != [] && guard < QUEUE_DEPTH + 2 {
      ServiceWriteSameRun(b, oks(guard));
      DrainEmpties(ServiceWrite(b, oks(guard)), guard + 1, oks);
    }
  }

  lemma BeginRunKeeps(b: Back, mode: Mode, run: Run)
    requires BackOk(b) && run == NewRun(run.kind, run.late, run.origin)
    requires mode == ModeOf(run.kind) && (run.kind == LogRun ==> b.log == [])
    ensures BackOk(BeginRun(b, mode, run)) && RunOk(BeginRun(b, mode, run))
  {}

  // ----- what each operation leaves alone -----

  /** Operations on the open block and the queue that neither command nor discard anything. */
  ghost predicate SameSetup(b: Back, c: Back) {
    && c.cfg == b.cfg && c.mode == b.mode && c.start == b.start && c.stop == b.stop && c.logOpen == b.logOpen
    && c.run.kind == b.run.kind && c.run.late == b.run.late && c.run.fate == b.run.fate && c.run.origin == b.run.origin
  }

  lemma StoreFrameEffect(b: Back, s: Sample, now: Tick)
    ensures var c := StoreFrame(b, s, now);
            && SameSetup(b, c) && c.log == b.log && c.run.written == b.run.written && c.run.unsaved == b.run.unsaved
            && (b.cal.active <== c.cal.active)
            && c.run.stored == if BadFrame(s) || b.cal.active then b.run.stored else b.run.stored + [s]
  {
    hide QueuedBytes, Counts;
  }

  lemma FlushEffect(b: Back)
    ensures var c := Flush(b);
            && SameSetup(b, c) && c.log == b.log && c.run.written == b.run.written && c.run.unsaved == b.run.unsaved
            && c.run.stored == b.run.stored && c.cal == b.cal && (b.aggr == [] ==> c == b)
  {
    hide QueuedBytes;
  }

  lemma ServiceWriteEffect(b: Back, ok: bool)
    ensures var c := ServiceWrite(b, ok);
            && SameSetup(b, c) && c.cal == b.cal && c.aggr == b.aggr && c.run.stored == b.run.stored
            && (b.queue == [] || b.mode != LogMode ==> c == b)
  {
    hide Pack, SameSetup, Pop, MarkWritten, MarkUnsaved;
    SetupItself(b);
    if b.mode == LogMode && b.queue != [] {
      var packed := Pack(b.cfg.mask, b.queue[0]);
      PoppedEffect(b, b.queue[0], |packed|, b.log + packed, ERROR_DATA, FS_PARAM);
      PoppedEffect(b, b.queue[0], |packed|, b.log + packed, ERROR_DATA, FS_READ_FILE);
    }
  }

  lemma SetupItself(b: Back)
    ensures SameSetup(b, b)
  {}

  /** Neither outcome of taking a block from the queue changes the set-up. */
  lemma PoppedEffect(b: Back, blk: Block, bytes: nat, log: seq<Byte>, error: nat, status: int)
    requires b.queue != []
    ensures var c := MarkUnsaved(Pop(b)).(lastError := error, opStatus := status);
            SameSetup(b, c) && c.cal == b.cal && c.aggr == b.aggr && c.run.stored == b.run.stored
    ensures var c := MarkWritten(Pop(b), blk, bytes).(log := log);
            SameSetup(b, c) && c.cal == b.cal && c.aggr == b.aggr && c.run.stored == b.run.stored
    ensures var c := MarkUnsaved(Pop(b));
            SameSetup(b, c) && c.cal == b.cal && c.aggr == b.aggr && c.run.stored == b.run.stored
    ensures var c := MarkWritten(Pop(b), blk, bytes).(shared := blk);
            SameSetup(b, c) && c.cal == b.cal && c.aggr == b.aggr && c.run.stored == b.run.stored
  {}

  /**
   What `samples_captured` counts: a stored sample, unless it completes a block that is refused at once; a frame
   of a calibration, if it is averaged; nothing else, and no invalid frame.
   */
  lemma CapturedCounts(b: Back, s: Sample, now: Tick)
    ensures var c := StoreFrame(b, s, now);
            c.captured - b.captured ==
              if s.response == 0xFFFF then 0
              else if b.cal.active then |c.cal.used| - |b.cal.used|
              else |c.run.stored| - |b.run.stored| - (c.run.lost - b.run.lost)
    ensures var c := StoreFrame(b, s, now);
            |c.run.stored| - |b.run.stored| == if s.response == 0xFFFF || b.cal.active then 0 else 1
    ensures Flush(b).captured == b.captured
  {
    hide QueuedBytes, Reached;
  }

  // ----- stop and close -----

  /** Draining, flushing and draining again: sound, and in log mode nothing is left to discard. */
  lemma DrainedKeeps(b: Back, running: bool, first: nat -> bool, second: nat -> bool)
    requires BackOk(b) && RunOk(b)
    requires b.run.fate == Intact && b.mode == LogMode ==> b.run.kind == LogRun
    ensures var d := Drained(b, running, first, second);
            && BackOk(d) && RunOk(d) && d.aggr == []
            && SameSetup(b, d) && d.run.stored == b.run.stored
            && (b.mode == LogMode ==> d.queue == [])
  {
    hide BackOk, RunOk, Drain, Flush, SameRun, SameSetup;
    var b0 := if running then Flush(b) else b;
    FlushKeeps(b); FlushEffect(b);
    var b1 := Drain(b0, 0, first);
    SameSetupSameRun(b, b0, b1);
    DrainKeeps(b0, 0, first); DrainEmpties(b0, 0, first);
    var b2 := Flush(b1);
    FlushKeeps(b1); FlushEffect(b1);
    SetupTransitive(b, b1, b2);
    DrainKeeps(b2, 0, second); DrainEmpties(b2, 0, second);
    SameSetupSameRun(b, b2, Drain(b2, 0, second));
    QueueBound(b2);
  }

  lemma QueueBound(b: Back)
    requires BackOk(b)
    ensures |b.queue| <= QUEUE_DEPTH
  {}

  lemma SetupTransitive(b: Back, c: Back, d: Back)
    requires SameSetup(b, c) && SameSetup(c, d)
    ensures SameSetup(b, d) && d.mode == b.mode && d.run.fate == b.run.fate && d.run.kind == b.run.kind
  {}

  lemma SameSetupSameRun(b: Back, c: Back, d: Back)
    ensures SameRun(c, d) && (SameSetup(b, c) || b == c) ==> SameSetup(b, d)
    ensures SameRun(c, d) ==> d.run.stored == c.run.stored && d.aggr == c.aggr
    ensures SameSetup(b, c) || b == c ==> c.mode == b.mode && c.run.fate == b.run.fate && c.run.kind == b.run.kind
  {}

  /** Everything `DAQ_StopAndClose` leaves behind, from any state. */
  lemma StopAndCloseKeeps(b: Back, running: bool, first: nat -> bool, second: nat -> bool, closeOk: bool)
    requires BackOk(b) && RunOk(b)
    requires b.run.fate == Intact && b.mode == LogMode ==> b.run.kind == LogRun
    ensures var c := StopAndClose(b, running, first, second, closeOk);
            && BackOk(c) && RunOk(c)
            && c.mode == NoMode && c.aggr == [] && c.queue == [] && !c.start && !c.stop && c.cfg == b.cfg
            && c.run.kind == b.run.kind && c.run.late == b.run.late && c.run.origin == b.run.origin
            && c.run.stored == b.run.stored && c.cal == b.cal && !c.logOpen
            && (c.run.fate == Reconfigured <==> b.run.fate == Reconfigured)
            && (b.mode == LogMode ==> c.run.fate == b.run.fate)
  {
    hide BackOk, RunOk, Drained, Closed, SameSetup;
    var d := Drained(b, running, first, second);
    DrainedKeeps(b, running, first, second);
    DrainedCal(b, running, first, second);
    SetupSays(b, d);
    ClosedKeeps(d, closeOk);
  }

  lemma SetupSays(b: Back, c: Back)
    requires SameSetup(b, c)
    ensures c.cfg == b.cfg && c.mode == b.mode
    ensures c.run.kind == b.run.kind && c.run.late == b.run.late && c.run.fate == b.run.fate
        && c.run.origin == b.run.origin
  {}

  lemma ClosedKeeps(d: Back, closeOk: bool)
    requires BackOk(d) && RunOk(d) && d.aggr == []
    ensures var c := Closed(d, closeOk);
            && BackOk(c) && RunOk(c)
            && c.mode == NoMode && c.aggr == [] && c.queue == [] && !c.start && !c.stop && c.cfg == d.cfg
            && c.run == d.run.(fate := c.run.fate) && c.cal == d.cal && !c.logOpen
            && (c.run.fate == Reconfigured <==> d.run.fate == Reconfigured)
            && (d.queue == [] ==> c.run.fate == d.run.fate)
  {
    hide BackOk, RunOk;
    CloseLogKeeps(d, closeOk);
    var e := CloseLog(d, closeOk).(start := false, stop := false);
    EventsKeep(CloseLog(d, closeOk), false, false, d.opStatus);
    ResetKeeps(e);
    EventsKeep(ResetBuffers(e), false, false, 0);
    var c := ResetBuffers(e).(mode := NoMode);
    EventsKeep(c, false, false, if c.lastError == 0 then 0 else FS_READ_FILE);
  }

  /** With nothing buffered it writes nothing either. */
  lemma StopAndCloseEmpty(b: Back, running: bool, first: nat -> bool, second: nat -> bool, closeOk: bool)
    requires b.aggr == [] && b.queue == []
    ensures var c := StopAndClose(b, running, first, second, closeOk);
            c.log == b.log && c.run == b.run
  {
    assert Flush(b) == b && Drain(b, 0, first) == b && Drain(b, 0, second) == b;
  }

  lemma EventsKeep(b: Back, start: bool, stop: bool, opStatus: int)
    ensures BackOk(b) ==> BackOk(b.(start := start, stop := stop)) && BackOk(b.(opStatus := opStatus))
    ensures BackOk(b) ==> BackOk(b.(mode := NoMode))
    ensures RunOk(b) ==> RunOk(b.(start := start, stop := stop)) && RunOk(b.(opStatus := opStatus))
  {}

  lemma {:induction false} DrainCal(b: Back, guard: nat, oks: nat -> bool)
    ensures Drain(b, guard, oks).cal == b.cal
    decreases QUEUE_DEPTH + 2 - guard
  {
    hide ServiceWrite;
    if b.queue != [] && guard < QUEUE_DEPTH + 2 {
      ServiceWriteEffect(b, oks(guard));
      DrainCal(ServiceWrite(b, oks(guard)), guard + 1, oks);
    }
  }

  lemma DrainedCal(b: Back, running: bool, first: nat -> bool, second: nat -> bool)
    ensures Drained(b, running, first, second).cal == b.cal
  {
    hide Drain, Flush, SameSetup;
    var b0 := if running then Flush(b) else b;
    FlushEffect(b);
    DrainCal(b0, 0, first);
    var b1 := Drain(b0, 0, first);
    FlushEffect(b1);
    DrainCal(Flush(b1), 0, second);
  }

  lemma {:induction false} DrainOutsideLogMode(b: Back, guard: nat, oks: nat -> bool)
    requires b.mode != LogMode
    ensures Drain(b, guard, oks) == b
    decreases QUEUE_DEPTH + 2 - guard
  {
    if b.queue != [] && guard < QUEUE_DEPTH + 2 {
      assert ServiceWrite(b, oks(guard)) == b;
      DrainOutsideLogMode(b, guard + 1, oks);
    }
  }

  /** Outside log mode stopping and closing writes nothing. */
  lemma StopAndCloseOutsideLogMode(b: Back, running: bool, first: nat -> bool, second: nat -> bool, closeOk: bool)
    requires b.mode != LogMode
    ensures var c := StopAndClose(b, running, first, second, closeOk);
            c.log == b.log && c.run.written == b.run.written && c.run.unsaved == b.run.unsaved
  {
    hide PushBlock;
    var b0 := if running then Flush(b) else b;
    FlushEffect(b);
    DrainOutsideLogMode(b0, 0, first);
    FlushEffect(b0);
    DrainOutsideLogMode(Flush(b0), 0, second);
  }

  lemma {:induction false} DrainKeepsLogOpen(b: Back, guard: nat, oks: nat -> bool)
    ensures Drain(b, guard, oks).logOpen == b.logOpen
    decreases QUEUE_DEPTH + 2 - guard
  {
    if b.queue != [] && guard < QUEUE_DEPTH + 2 {
      ServiceWriteEffect(b, oks(guard));
      hide ServiceWrite;
      DrainKeepsLogOpen(ServiceWrite(b, oks(guard)), guard + 1, oks);
    }
  }

  /** A close that fails shows in the answer of stop-and-close. */
  lemma FailedCloseShows(b: Back, running: bool, first: nat -> bool, second: nat -> bool, closeOk: bool)
    ensures StopAndClose(b, running, first, second, closeOk).lastError == 0 && b.logOpen ==> closeOk
  {
    hide PushBlock, Drain;
    var b0 := if running then Flush(b) else b;
    FlushEffect(b);
    DrainKeepsLogOpen(b0, 0, first);
    var b1 := Drain(b0, 0, first);
    FlushEffect(b1);
    DrainKeepsLogOpen(Flush(b1), 0, second);
  }

  lemma DropAggregateKeeps(b: Back)
    requires BackOk(b) && RunOk(b)
    ensures BackOk(DropAggregate(b)) && RunOk(DropAggregate(b))
  {}

  lemma StopKeeps(b: Back, resting: bool)
    requires BackOk(b) && RunOk(b)
    ensures BackOk(Stop(b, resting)) && RunOk(Stop(b, resting))
  {
    hide BackOk, RunOk;
    ResetKeeps(b);
    EventsKeep(b, false, true, 0);
    EventsKeep(ResetBuffers(b), false, false, 0);
    EventsKeep(ResetBuffers(b).(mode := NoMode), false, false, 0);
  }

  lemma ReconfiguredOk(b: Back)
    requires b.run.fate == Reconfigured
    ensures RunOk(b)
  {}

  lemma StartKeeps(b: Back, cfg: Config, openStatus: int, late: bool, origin: nat)
    requires BackOk(b) && RunOk(b)
    ensures var c := StartLogging(b, cfg, openStatus, late, origin); BackOk(c) && RunOk(c)
    ensures var c := StartStreaming(b, cfg, late, origin); BackOk(c) && RunOk(c)
  {
    hide RunOk, BeginRun;
    EventsKeep(b, false, false, FS_PARAM);
    if ValidConfig(cfg) {
      BeginRunKeeps(b.(cfg := cfg, logOpen := true, log := []), LogMode, NewRun(LogRun, late, origin));
      BeginRunKeeps(b.(cfg := cfg, logOpen := false), StreamMode, NewRun(StreamRun, late, origin));
      ReconfiguredOk(b.(cfg := cfg, logOpen := false, lastError := ERROR_OPEN, opStatus := FS_PARAM,
          run := Reconfigure(b)));
      ReconfiguredOk(b.(cfg := cfg, logOpen := false, lastError := ERROR_OPEN, opStatus := openStatus,
          run := Reconfigure(b)));
    }
  }

  lemma CalibrationKeeps(b: Back, now: Tick, saved: Saved)
    requires BackOk(b)
    ensures BackOk(BeginCalibration(b, now)) && RunOk(BeginCalibration(b, now))
    ensures ValidConfig(saved.cfg) ==> BackOk(EndCalibration(b, saved))
  {
    StartSummed(now);
  }

  lemma ReadStreamEffect(b: Back, maxLen: nat)
    ensures var c := ReadStream(b, maxLen);
            && SameSetup(b, c) && c.cal == b.cal && c.aggr == b.aggr && c.run.stored == b.run.stored
            && (b.mode != StreamMode ==> c == b)
  {
    hide SameSetup, Pop, MarkWritten, MarkUnsaved;
    SetupItself(b);
    if b.queue != [] { PoppedEffect(b, b.queue[0], |b.queue[0]| * FRAME_SIZE, b.log, 0, 0); }
  }

  /** What a log start that succeeds leaves behind. */
  ghost predicate JustStarted(c: Back, cfg: Config, run: Run) {
    && c.cfg == cfg && c.mode == LogMode && c.aggr == [] && c.queue == [] && c.start && !c.stop
    && c.logOpen && c.log == [] && c.run == run
    && c.captured == 0 && c.dropped == 0 && c.bytesQueued == 0 && c.bytesWritten == 0 && c.lastError == 0
  }

  /** What a log start whose log cannot be opened leaves behind: configuration applied, old log closed. */
  predicate OpenFailed(c: Back, cfg: Config) {
    c.cfg == cfg && !c.logOpen && c.lastError == ERROR_OPEN && c.run.fate == Reconfigured
  }

  /**
   The three outcomes of a log start. A refused configuration changes nothing but the status. With a valid
   one a new run begins, or, when the log cannot be opened, the configuration is applied and the old log
   closed all the same, and the run no longer is the one that was configured.
   */
  lemma StartLoggingEffect(b: Back, cfg: Config, openStatus: int, late: bool, origin: nat)
    ensures var c := StartLogging(b, cfg, openStatus, late, origin);
            if !ValidConfig(cfg) then c == b.(opStatus := FS_PARAM)
            else if LoggingStarts(cfg, openStatus) then
              JustStarted(c, cfg, NewRun(LogRun, late, origin)) && c.cal == b.cal
            else
              OpenFailed(c, cfg) && c.opStatus != 0 && c.log == b.log && c.run == b.run.(fate := Reconfigured)
              && c == b.(opStatus := c.opStatus, cfg := cfg, logOpen := false, lastError := ERROR_OPEN, run := c.run)
  {}

  /** What a log start demands: a rate, at least one of eight channels, blocks of 1 to 128, a proper file name. */
  lemma LogStartsIff(cfg: Config, openStatus: int)
    ensures LoggingStarts(cfg, openStatus) <==>
            && cfg.sampleRate > 0 && 1 <= cfg.mask <= 255 && 1 <= cfg.blockSamples <= 128
            && |cfg.filename| == 64 && cfg.filename[0] != 0 && cfg.filename[63] == 0
            && openStatus == 0
  {}

  /**
   What a block request costs. The oldest block is handed over if it fits; it is lost if it does not, unless
   the request has no room for a single sample, which leaves the queue alone.
   */
  lemma RequestOutcome(b: Back, maxLen: nat)
    requires b.mode == StreamMode && b.queue != []
    ensures var c, bytes := ReadStream(b, maxLen), |b.queue[0]| * FRAME_SIZE;
            && (c.run.written == b.run.written + [b.queue[0]] <==>
                  (FRAME_SIZE <= maxLen && bytes <= maxLen && bytes <= SHARED_LEN))
            && (c.run.unsaved == b.run.unsaved + 1 <==>
                  (FRAME_SIZE <= maxLen && (bytes > maxLen || bytes > SHARED_LEN)))
            && (c.queue == b.queue <==> maxLen < FRAME_SIZE)
  {
    var c := ReadStream(b, maxLen);
    assert |b.queue[1..]| < |b.queue| && |b.run.written + [b.queue[0]]| > |b.run.written|;
  }

  /** Exactly when a log start leaves everything but the status alone: it is refused, or it repeats the last one. */
  lemma StartLoggingChanges(b: Back, cfg: Config, openStatus: int, late: bool, origin: nat)
    ensures var c := StartLogging(b, cfg, openStatus, late, origin);
            c == b.(opStatus := c.opStatus) <==>
              if !ValidConfig(cfg) then true
              else if LoggingStarts(cfg, openStatus) then JustStarted(b, cfg, NewRun(LogRun, late, origin))
              else OpenFailed(b, cfg)
  {
    StartLoggingEffect(b, cfg, openStatus, late, origin);
  }

  lemma StartStreamingEffect(b: Back, cfg: Config, late: bool, origin: nat)
    ensures var c := StartStreaming(b, cfg, late, origin);
            if ValidConfig(cfg) then
              c.mode == StreamMode && c.aggr == [] && c.queue == [] && c.start && !c.stop && !c.logOpen
              && c.run == NewRun(StreamRun, late, origin) && c.cal == b.cal && c.cfg == cfg
            else c == b.(opStatus := c.opStatus)
  {}
}
