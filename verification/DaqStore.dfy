/**
 The stores of daq_engine.c as the firmware keeps them: the eight-slot block queue with head, tail and
 count, the aggregation block, the pack buffer and the counters, all updated in place by the main loop.
 Each method does to `View()` what the function of the same step in module Storage says.
 */
module DaqStore {
  import opened Bytes
  import opened Packing
  import opened Calibration
  import opened Capture
  import opened Storage

  /** `write_queue` with `write_q_head`, `write_q_tail` and `write_q_count`. */
  class WriteQueue {
    const blocks: array<Block>
    var head: nat
    var tail: nat
    var count: nat
    /** The queued blocks, oldest first. */
    ghost var items: seq<Block>

    ghost predicate Valid()
      reads this, blocks
    {
      && blocks.Length == QUEUE_DEPTH
      && head < QUEUE_DEPTH && tail < QUEUE_DEPTH && count <= QUEUE_DEPTH
      && head == (tail + count) % QUEUE_DEPTH
      && |items| == count
      && forall i :: 0 <= i < count ==> items[i] == blocks[(tail + i) % QUEUE_DEPTH]
    }

    lemma CountIsLength()
      requires Valid()
      ensures count == |items| <= QUEUE_DEPTH
    {}

    constructor ()
      ensures Valid() && items == [] && fresh(blocks)
    {
      var b := new Block[8](_ => []);
      blocks := b;
      head, tail, count, items := 0, 0, 0, [];
    }

    method Clear()
      requires Valid()
      modifies this
      ensures Valid() && items == []
    {
      head, tail, count, items := 0, 0, 0, [];
    }

    /** `DAQ_QueuePush`. */
    method Push(blk: Block) returns (ok: bool)
      requires Valid()
      modifies this, blocks
      ensures Valid() && ok == (|old(items)| < QUEUE_DEPTH)
      ensures items == if ok then old(items) + [blk] else old(items)
    {
      if count >= QUEUE_DEPTH {
        return false;
      }
      blocks[head] := blk;
      head := (head + 1) % QUEUE_DEPTH;
      count := count + 1;
      items := items + [blk];
      return true;
    }

    /** `DAQ_QueuePop`. */
    method Pop() returns (ok: bool, blk: Block)
      requires Valid()
      modifies this
      ensures Valid() && ok == (old(items) != [])
      ensures ok ==> blk == old(items)[0] && items == old(items)[1..]
      ensures !ok ==> items == old(items)
    {
      if count == 0 {
        return false, [];
      }
      blk := blocks[tail];
      tail := (tail + 1) % QUEUE_DEPTH;
      count := count - 1;
      items := items[1..];
      return true, blk;
    }
  }

  lemma DrainOnce(b: Back, guard: nat, oks: nat -> bool)
    ensures b.queue != [] && guard < QUEUE_DEPTH + 2 ==>
              Drain(b, guard, oks) == Drain(ServiceWrite(b, oks(guard)), guard + 1, oks)
    ensures b.queue == [] || guard >= QUEUE_DEPTH + 2 ==> Drain(b, guard, oks) == b
  {}

  /** The first `n` entries of the array are the samples of `s`. */
  ghost predicate Holds(a: array<Sample>, n: nat, s: seq<Sample>)
    reads a
  {
    n <= a.Length && a[..n] == s
  }

  class Store {
    const queue: WriteQueue
    const aggr: array<Sample>
    const packBuffer: array<Byte>
    var aggrCount: nat
    var cfg: Config
    var mode: Mode
    var captured: nat
    var dropped: nat
    var lastError: nat
    var opStatus: int
    var bytesQueued: nat
    var bytesWritten: nat
    var logOpen: bool
    var log: seq<Byte>
    var shared: seq<Sample>
    var cal: Accumulator
    var offsets: seq<Int32>
    var averaged: nat
    var start: bool
    var stop: bool
    /** The samples of the open block. */
    ghost var open: seq<Sample>
    ghost var run: Run

    ghost predicate Valid()
      reads this, queue, queue.blocks, aggr
    {
      && queue.Valid()
      && aggr.Length == BLOCK_CAPACITY && packBuffer.Length == PACK_BUFFER_SIZE
      && |open| == aggrCount && Holds(aggr, aggrCount, open)
    }

    ghost function View(): Back
      reads this, queue
    {
      Back(cfg, mode, open, queue.items, captured, dropped, lastError, opStatus, bytesQueued,
           bytesWritten, logOpen, log, shared, cal, offsets, averaged, start, stop, run)
    }

    constructor ()
      ensures Valid() && View() == InitBack()
      ensures fresh(queue) && fresh(queue.blocks) && fresh(aggr) && fresh(packBuffer)
    {
      var q := new WriteQueue();
      queue := q;
      var a := new Sample[128](_ => RawSample(0, 0, [0, 0, 0, 0, 0, 0, 0, 0]));
      aggr := a;
      var p := new Byte[4096](_ => 0);
      packBuffer := p;
      aggrCount, cfg, mode := 0, DEFAULT_CONFIG, NoMode;
      captured, dropped, lastError, opStatus, bytesQueued, bytesWritten := 0, 0, 0, 0, 0, 0;
      logOpen, log, shared := false, [], [];
      cal, offsets, averaged := IDLE_ACCUMULATOR, [0, 0, 0, 0, 0, 0], 0;
      start, stop, run, open := false, false, NewRun(NoRun, false, 0), [];
    }

    /** `DAQ_GetQueuedBytes`. */
    method AccountedBytes(samples: nat) returns (bytes: nat)
      ensures bytes == Times(samples, Unit(View()))
    {
      if mode == LogMode {
        var count := CountSelectedChannels(cfg.mask);
        bytes := samples * (4 * count);
      } else {
        bytes := samples * FRAME_SIZE;
      }
      TimesIsProduct(samples, Unit(View()));
    }

    /** `DAQ_QueuePush` with its byte accounting, counted by the caller when refused. */
    method QueuePush(blk: Block) returns (ok: bool)
      requires Valid()
      modifies this, queue, queue.blocks
      ensures Valid() && View() == PushBlock(old(View()), blk)
    {
      hide WriteQueue.Valid, Holds, Times;
      ok := queue.Push(blk);
      if ok {
        var bytes := AccountedBytes(|blk|);
        bytesQueued := bytesQueued + bytes;
        run := run.(formed := run.formed + [blk], pushed := run.pushed + [blk]);
      } else {
        dropped := dropped + 1;
        run := run.(formed := run.formed + [blk], lost := run.lost + 1);
      }
    }

    /** A sample written behind the others of the open block. */
    method AddToBlock(s: Sample)
      requires Valid() && aggrCount < BLOCK_CAPACITY
      modifies this, aggr
      ensures Valid() && View() == Append(old(View()), s) && aggrCount == old(aggrCount) + 1
    {
      hide WriteQueue.Valid;
      aggr[aggrCount] := s;
      aggrCount, open := aggrCount + 1, open + [s];
      run := run.(stored := run.stored + [s]);
    }

    /** The open block copied out, leaving an empty one. */
    method TakeBlock() returns (blk: Block)
      requires Valid()
      modifies this
      ensures Valid() && blk == old(View()).aggr && View() == old(View()).(aggr := [])
    {
      hide WriteQueue.Valid;
      blk := aggr[..aggrCount];
      aggrCount, open := 0, [];
    }

    /** `DAQ_StoreSampleFrame`. */
    method StoreSampleFrame(s: Sample)
      requires Valid() && aggrCount < BLOCK_CAPACITY
      modifies this, queue, queue.blocks, aggr
      ensures Valid() && View() == StoreSample(old(View()), s)
    {
      hide WriteQueue.Valid, Holds, PushBlock;
      AddToBlock(s);
      if aggrCount < cfg.blockSamples {
        captured := captured + 1;
        return;
      }
      var blk := TakeBlock();
      queue.CountIsLength();
      if queue.count < QUEUE_DEPTH {
        captured := captured + 1;
      }
      var ok := QueuePush(blk);
    }

    /** `DAQ_StoreAdcFrame`. */
    method StoreAdcFrame(s: Sample, now: Tick)
      requires Valid() && aggrCount < BLOCK_CAPACITY
      modifies this, queue, queue.blocks, aggr
      ensures Valid() && View() == StoreFrame(old(View()), s, now)
    {
      hide WriteQueue.Valid, Holds;
      hide StoreSample, Accumulate;
      if s.response == 0xFFFF {
        dropped := dropped + 1;
        run := run.(bad := run.bad + 1);
      } else if cal.active {
        var before := cal;
        cal := Accumulate(cal, s, now);
        if Counts(before, now) {
          captured := captured + 1;
        }
      } else {
        StoreSampleFrame(s);
      }
    }

    /** The flush of a partial aggregation block. */
    method FlushAggregate()
      requires Valid()
      modifies this, queue, queue.blocks
      ensures Valid() && View() == Flush(old(View()))
    {
      hide WriteQueue.Valid, Holds, PushBlock;
      if aggrCount > 0 {
        var blk := TakeBlock();
        var ok := QueuePush(blk);
      }
    }

    /** `DAQ_ResetSoftwareBuffers`. */
    method ResetSoftwareBuffers()
      requires Valid()
      modifies this, queue
      ensures Valid() && View() == ResetBuffers(old(View()))
    {
      hide WriteQueue.Valid, Holds;
      run := Discard(View());
      var discarded := TakeBlock();
      queue.Clear();
      bytesQueued := 0;
    }

    /** `DAQ_QueuePop`. */
    method PopBlock() returns (ok: bool, blk: Block)
      requires Valid()
      modifies this, queue
      ensures Valid() && ok == (old(View()).queue != [])
      ensures ok ==> View() == Pop(old(View())) && blk == old(View()).queue[0]
      ensures !ok ==> View() == old(View())
    {
      hide WriteQueue.Valid, Holds;
      ghost var b := View();
      ok, blk := queue.Pop();
      if ok {
        run := run.(popped := run.popped + [blk]);
      }
    }

    /** A popped block that is not written is counted in `dropped_buffers`. */
    method CountUnsaved()
      requires Valid()
      modifies this
      ensures Valid() && View() == MarkUnsaved(old(View()))
    {
      hide WriteQueue.Valid, Holds;
      dropped := dropped + 1;
      run := run.(unsaved := run.unsaved + 1);
    }

    /** The byte accounting of a popped block that is written. */
    method CountWritten(ghost blk: Block, bytes: nat)
      requires Valid()
      modifies this
      ensures Valid() && View() == MarkWritten(old(View()), blk, bytes) && log == old(log)
    {
      hide WriteQueue.Valid, Holds;
      if bytesQueued >= bytes {
        bytesQueued := bytesQueued - bytes;
      } else {
        bytesQueued := 0;
      }
      bytesWritten := bytesWritten + bytes;
      run := run.(written := run.written + [blk]);
    }

    /** The part of `DAQ_Startup` that clears the aggregation block. */
    method ClearBlock()
      requires Valid()
      modifies this
      ensures Valid() && View() == DropAggregate(old(View()))
    {
      hide WriteQueue.Valid, Holds;
      run := DropAggregate(View()).run;
      var cleared := TakeBlock();
    }

    /** `DAQ_ServicePendingWrites`; `ok` is the outcome of the file write. */
    method ServicePendingWrites(ok: bool)
      requires Valid()
      modifies this, queue, packBuffer
      ensures Valid() && View() == ServiceWrite(old(View()), ok)
    {
      hide WriteQueue.Valid, Holds, Pack, MarkUnsaved, MarkWritten;
      if mode != LogMode {
        return;
      }
      ghost var b := View();
      var popped, blk := PopBlock();
      if !popped {
        return;
      }
      var bytes := PackBlock(cfg.mask, blk, packBuffer);
      assert bytes == 0 <==> |Pack(b.cfg.mask, blk)| == 0 || |Pack(b.cfg.mask, blk)| > PACK_BUFFER_SIZE;
      assert View() == Pop(b);
      if bytes == 0 {
        CountUnsaved();
        Fail(ERROR_DATA, FS_PARAM);
        return;
      }
      if !logOpen || !ok {
        CountUnsaved();
        Fail(ERROR_DATA, FS_READ_FILE);
        return;
      }
      CountWritten(blk, bytes);
      log := log + packBuffer[..bytes];
    }

    /** `DAQ_ReadStreamBlockShared`: whether a block was handed over, and its bytes and samples. */
    method ReadStreamBlockShared(maxLen: nat) returns (ok: bool, bytesRead: nat, samplesRead: nat)
      requires Valid()
      modifies this, queue
      ensures Valid() && View() == ReadStream(old(View()), maxLen)
      ensures ok == Delivers(old(View()), maxLen)
      ensures ok ==> samplesRead == |old(View()).queue[0]| && shared == old(View()).queue[0]
      ensures bytesRead == FRAME_SIZE * samplesRead && (!ok ==> samplesRead == 0)
    {
      hide WriteQueue.Valid, Holds, MarkUnsaved, MarkWritten;
      if maxLen < FRAME_SIZE || mode != StreamMode {
        return false, 0, 0;
      }
      var popped, blk := PopBlock();
      if !popped {
        return false, 0, 0;
      }
      var bytes := |blk| * FRAME_SIZE;
      if bytes > maxLen || bytes > SHARED_LEN {
        CountUnsaved();
        return false, 0, 0;
      }
      CountWritten(blk, bytes);
      shared := blk;
      return true, bytes, |blk|;
    }

    /** `EmmcFs_CloseRawLog` where a failure is recorded. */
    method CloseRawLog(ok: bool)
      requires Valid()
      modifies this
      ensures Valid() && View() == CloseLog(old(View()), ok)
    {
      hide WriteQueue.Valid, Holds;
      if logOpen {
        logOpen := false;
        if !ok {
          lastError := ERROR_DATA;
          opStatus := FS_READ_FILE;
        }
      }
    }

    /** `DAQ_HasPendingWrites`. */
    method HasPendingWrites(armed: bool, closeOk: bool) returns (pending: bool)
      requires Valid()
      modifies this, queue
      ensures Valid() && View() == CheckPending(old(View()), armed, closeOk)
      ensures pending == Pending(old(View()), armed)
    {
      hide WriteQueue.Valid, Holds;
      queue.CountIsLength();
      pending := queue.count != 0 || aggrCount != 0;
      if mode == StreamMode && !armed {
        ResetSoftwareBuffers();
        mode := NoMode;
        return false;
      }
      if !pending && !armed {
        CloseRawLog(closeOk);
        mode := NoMode;
      }
    }

    /** One of the two bounded loops of `DAQ_StopAndClose`. */
    method DrainLoop(oks: nat -> bool)
      requires Valid()
      modifies this, queue, packBuffer
      ensures Valid() && View() == Drain(old(View()), 0, oks)
    {
      hide WriteQueue.Valid, Holds, ServiceWrite, Drain;
      ghost var b := View();
      var guard := 0;
      queue.CountIsLength();
      while queue.count != 0 && guard < QUEUE_DEPTH + 2
        invariant Valid()
        invariant queue.count == |queue.items|
        invariant Drain(View(), guard, oks) == Drain(b, 0, oks)
        decreases QUEUE_DEPTH + 2 - guard
      {
        DrainOnce(View(), guard, oks);
        ServicePendingWrites(oks(guard));
        queue.CountIsLength();
        guard := guard + 1;
      }
      DrainOnce(View(), guard, oks);
    }

    /** The flushes and drain loops of `DAQ_Shutdown` and `DAQ_StopAndClose`. */
    method DrainAll(running: bool, first: nat -> bool, second: nat -> bool)
      requires Valid()
      modifies this, queue, queue.blocks, packBuffer
      ensures Valid() && View() == Drained(old(View()), running, first, second)
    {
      hide WriteQueue.Valid, Holds, Flush, Drain;
      if running {
        FlushAggregate();
      }
      DrainLoop(first);
      FlushAggregate();
      DrainLoop(second);
    }

    /** `DAQ_StopAndClose` from the flush in `DAQ_Shutdown` on. */
    method CloseRun(running: bool, first: nat -> bool, second: nat -> bool, closeOk: bool) returns (clean: bool)
      requires Valid()
      modifies this, queue, queue.blocks, packBuffer
      ensures Valid() && View() == StopAndClose(old(View()), running, first, second, closeOk)
      ensures clean == (View().lastError == 0)
    {
      hide WriteQueue.Valid, Holds, Drained, CloseLog, ResetBuffers;
      DrainAll(running, first, second);
      CloseRawLog(closeOk);
      SetEvents(false, false);
      Configure(cfg, NoMode);
      ResetSoftwareBuffers();
      opStatus := if lastError == 0 then 0 else FS_READ_FILE;
      clean := lastError == 0;
    }

    method ResetCounters()
      requires Valid()
      modifies this
      ensures Valid() && View() == old(View()).(captured := 0, dropped := 0, bytesWritten := 0, lastError := 0)
    {
      hide WriteQueue.Valid, Holds;
      captured := 0;
      dropped := 0;
      bytesWritten := 0;
      lastError := 0;
    }

    method SetEvents(newStart: bool, newStop: bool)
      requires Valid()
      modifies this
      ensures Valid() && View() == old(View()).(start := newStart, stop := newStop)
    {
      hide WriteQueue.Valid, Holds;
      start, stop := newStart, newStop;
    }

    method Configure(newCfg: Config, newMode: Mode)
      requires Valid()
      modifies this
      ensures Valid() && View() == old(View()).(cfg := newCfg, mode := newMode)
    {
      hide WriteQueue.Valid, Holds;
      cfg, mode := newCfg, newMode;
    }

    method Fail(error: nat, status: int)
      requires Valid()
      modifies this
      ensures Valid() && View() == old(View()).(lastError := error, opStatus := status)
    {
      hide WriteQueue.Valid, Holds;
      lastError, opStatus := error, status;
    }

    /** What both start commands do once the run is possible. */
    method BeginCounters(newMode: Mode, ghost newRun: Run)
      requires Valid()
      modifies this, queue
      ensures Valid() && View() == BeginRun(old(View()), newMode, newRun)
    {
      hide WriteQueue.Valid, Holds, ResetBuffers;
      ResetSoftwareBuffers();
      ResetCounters();
      SetEvents(true, false);
      mode, opStatus, run := newMode, 0, newRun;
    }

    /** `DAQ_StartLogging`. */
    method StartLog(newCfg: Config, openStatus: int, ghost late: bool, ghost origin: nat) returns (ok: bool)
      requires Valid()
      modifies this, queue
      ensures Valid() && View() == StartLogging(old(View()), newCfg, openStatus, late, origin)
      ensures ok == LoggingStarts(newCfg, openStatus)
    {
      hide WriteQueue.Valid, Holds, BeginRun, NewRun;
      if !ValidConfig(newCfg) {
        opStatus := FS_PARAM;
        return false;
      }
      cfg := newCfg;
      logOpen := false;
      var status := if newCfg.filename[0] == 0 then FS_PARAM else openStatus;
      if status != 0 {
        Fail(ERROR_OPEN, status);
        run := run.(fate := Reconfigured);
        return false;
      }
      logOpen := true;
      log := [];
      BeginCounters(LogMode, NewRun(LogRun, late, origin));
      return true;
    }

    /** `DAQ_StartStreaming`. */
    method StartStream(newCfg: Config, ghost late: bool, ghost origin: nat) returns (ok: bool)
      requires Valid()
      modifies this, queue
      ensures Valid() && View() == StartStreaming(old(View()), newCfg, late, origin)
      ensures ok == ValidConfig(newCfg)
    {
      hide WriteQueue.Valid, Holds, BeginRun, NewRun;
      if !ValidConfig(newCfg) {
        opStatus := FS_PARAM;
        return false;
      }
      cfg := newCfg;
      logOpen := false;
      BeginCounters(StreamMode, NewRun(StreamRun, late, origin));
      return true;
    }

    /** `DAQ_Stop`. */
    method StopCommand(resting: bool)
      requires Valid()
      modifies this, queue
      ensures Valid() && View() == Stop(old(View()), resting)
    {
      hide WriteQueue.Valid, Holds;
      if resting {
        ResetSoftwareBuffers();
        start, stop := false, false;
        mode := NoMode;
        return;
      }
      start, stop := false, true;
    }

    /** `DAQ_RunOffsetCalibration` up to arming the ADC. */
    method CalibrationSetup(now: Tick)
      requires Valid()
      modifies this, queue
      ensures Valid() && View() == BeginCalibration(old(View()), now)
    {
      hide WriteQueue.Valid, Holds, StartAccumulator;
      ghost var before := run;
      ResetSoftwareBuffers();
      ResetCounters();
      Configure(cfg.(sampleRate := 2000, mask := 0x3F, blockSamples := BLOCK_CAPACITY, flags := 0), NoMode);
      cal, averaged := StartAccumulator(now), 0;
      run := before.(fate := Reconfigured);
    }

    /** `DAQ_RunOffsetCalibration` from the end of its loop on. */
    method CalibrationFinish(saved: Saved)
      requires Valid()
      modifies this
      ensures Valid() && View() == EndCalibration(old(View()), saved)
    {
      hide WriteQueue.Valid, Holds, Means;
      MeansIgnoreActive(cal);
      cal := cal.(active := false);
      Configure(saved.cfg, saved.mode);
      if cal.count == 0 {
        return;
      }
      offsets := MeanOffsets(cal);
      averaged := cal.count;
      SetEvents(false, false);
    }
  }

  lemma MeansIgnoreActive(a: Accumulator)
    ensures a.count > 0 ==> Means(a.(active := false)) == Means(a)
  {}

  /** The loop over the channels that divides the sums. */
  method MeanOffsets(cal: Accumulator) returns (means: seq<Int32>)
    requires cal.count > 0
    ensures means == Means(cal)
  {
    hide MeanOffset;
    means := [];
    var i := 0;
    while i < CAL_CHANNELS
      invariant i <= CAL_CHANNELS && |means| == i
      invariant means == Means(cal)[..i]
    {
      means := means + [MeanOffset(cal, i)];
      i := i + 1;
    }
  }
}
