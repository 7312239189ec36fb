/** What holds in every run of the acquisition core, from reset, under every interleaving. */
module BoardTheorems {
  import opened Bytes
  import opened Packing
  import opened DmaRing
  import opened Calibration
  import opened Capture
  import opened Storage
  import opened Board

  // ----- the DMA ring -----

  /**
   In every state of every run: frames are taken in the order they were completed, each once, and what is
   completed but not taken is what the ring holds; the completion callback never overflows; and the error
   flag is never up in a state where the next transfer could not start and clear it.
   */
  lemma {:induction false} RingIsFifo(steps: seq<Step>)
    ensures var f := Execute(Init(), steps).front;
            && f.log.doneNow == f.log.takenNow + Ready(f.ring)
            && (f.ring.busy ==> f.ring.active == WriteSlot(f.ring) && !Complete(f.ring).error)
            && (f.ring.error ==> CanStart(f.ring) && !Start(f.ring, true).error)
  {
    EveryRun(steps);
    hide Execute, BackOk, RunOk, Regular, Overtaken, Provenance, Shape, Quiet;
  }

  /** As long as every parse began within its window, what was parsed is what the frames held when taken. */
  lemma ParsesAreIntact(steps: seq<Step>)
    ensures var log := Execute(Init(), steps).front.log;
            && |log.parsed| <= |log.taken| <= |log.parsed| + 1
            && (log.inTime ==> log.parsed == Parses(log.taken[..|log.parsed|]))
  {
    EveryRun(steps);
    hide Execute, BackOk, RunOk, Regular, Overtaken, Provenance, Shape, Quiet;
  }

  /** What is still on its way: events waiting or claimed, a transfer in flight, frames ready. */
  function Owed(s: Sys): nat {
    s.front.pending + Claimed(s.pc) + (if s.front.ring.busy then 1 else 0) + s.front.ring.count
  }

  /** What came to nothing: transfers failed or aborted, frames discarded, events cleared. */
  function Losses(f: Front): nat {
    f.log.errored + f.log.aborted + f.log.discarded + f.log.cleared
  }

  /**
   Nothing is counted twice or lost. Since the pending counter was last cleared, accepted events are pending,
   claimed or served; over the whole run, started transfers complete, fail, are aborted or are in flight,
   completed frames are taken, ready or discarded by an abort, and so every event accepted became a frame
   taken, is on its way, or is accounted for as lost.
   */
  lemma {:induction false} EventsAreConserved(steps: seq<Step>)
    ensures var s := Execute(Init(), steps);
            var f, l := s.front, s.front.log;
            && l.accepted == f.pending + l.served + Claimed(s.pc)
            && l.starts == l.done + l.errored + l.aborted + (if f.ring.busy then 1 else 0)
            && l.done == |l.taken| + f.ring.count + l.discarded
            && l.events == |l.taken| + Owed(s) + Losses(f)
  {
    EveryRun(steps);
    hide Execute, BackOk, RunOk, Regular, Overtaken, Provenance, Shape, Quiet;
  }

  /** Whatever arms the ADC, no block is open then: nothing stored before joins what is captured from now on. */
  lemma ArmedWithNothingOpen(steps: seq<Step>, step: Step)
    ensures var s := Execute(Init(), steps); var t := Next(s, step);
            !s.front.armed && t.front.armed ==> t.back.aggr == [] && t.front.state == Acquiring
  {
    var s := Execute(Init(), steps);
    hide Execute;
    if step.Main? {
      match s.pc
      case AtPoll => PollArms(s, step.env);
      case Ending(job) => EndArms(s, job, step.env);
      case _ => LoopArms(s, step.env);
    } else {
      InterruptsUntouched(s.front, if step.Bytes? then true else step.halOk,
                          if step.Bytes? then step.frame else Blank());
      hide OnDrdy, OnDone, OnFail, OnBytes;
    }
  }

  lemma PollArms(s: Sys, env: Env)
    ensures var t := PollStep(s, env);
            !s.front.armed && t.front.armed ==> t.back.aggr == [] && t.front.state == Acquiring
  {
    hide ServiceWrite, CheckPending, Pending, StopAndClose, StartLogging, StartStreaming, ReadStream, StartAccumulator,
      LoggingStarts, ValidConfig, Discard, After;
  }

  lemma EndArms(s: Sys, job: Job, env: Env)
    ensures !s.front.armed ==> !EndStep(s, job, env).front.armed
  {
    hide ServiceWrite, StopAndClose, Flush, EndCalibration, Reached;
  }

  lemma LoopArms(s: Sys, env: Env)
    requires s.pc != AtPoll && !s.pc.Ending?
    ensures MainStep(s, env).front.armed == s.front.armed
  {
    hide StoreFrame, Parse, Start, Take;
  }

  /** At rest with no start waiting, one pass forgets a stop that is, and no pass changes anything after that. */
  lemma RestIsStill(s: Sys, env: Env, again: Env)
    requires s.front.state == MachineState.Idle && !s.back.start
    ensures var t := MachineStep(s, env);
            t == s.(back := s.back.(stop := false)) && MachineStep(t, again) == t
  {}

  // ----- bounds -----

  /**
   The open block never fills up, queued blocks hold 1 to 128 samples, every one of them packs to between
   4 and 4096 bytes and fits the shared area, and the error state is never entered.
   */
  lemma {:induction false} BoundsHold(steps: seq<Step>)
    ensures var s := Execute(Init(), steps);
            && s.front.state != Faulted
            && |s.back.aggr| < BLOCK_CAPACITY && |s.back.queue| <= QUEUE_DEPTH
            && forall blk :: blk in s.back.queue ==>
                 && 1 <= |blk| <= BLOCK_CAPACITY
                 && 4 <= |Pack(s.back.cfg.mask, blk)| <= PACK_BUFFER_SIZE
                 && |blk| * FRAME_SIZE <= SHARED_LEN
  {
    EveryRun(steps);
    hide Execute, FrontOk, RunOk, Regular, Overtaken, Provenance, Quiet, Pack;
    var s := Execute(Init(), steps);
    forall blk | blk in s.back.queue ensures 4 <= |Pack(s.back.cfg.mask, blk)| <= PACK_BUFFER_SIZE {
      assert GoodBlock(blk);
      PackFits(s.back.cfg.mask, blk);
    }
  }

  /**
   While an undisturbed run is in its mode the byte counters account for every block pushed, written and
   queued, and `bytes_queued` covers what is still queued: neither saturating branch is ever taken.
   */
  lemma {:induction false} BytesAreConserved(steps: seq<Step>)
    requires var b := Execute(Init(), steps).back; b.run.fate == Intact && InMode(b)
    ensures var b := Execute(Init(), steps).back;
            && b.bytesQueued + b.bytesWritten == |Flatten(b.run.pushed)| * Unit(b)
            && b.bytesWritten == |Flatten(b.run.written)| * Unit(b)
            && b.bytesQueued >= |Flatten(b.queue)| * Unit(b)
            && (b.queue != [] ==> b.bytesQueued >= |b.queue[0]| * Unit(b))
  {
    EveryRun(steps);
    var b := Execute(Init(), steps).back;
    hide Execute, FrontOk, BackOk, Regular, Overtaken, Provenance, Quiet, Unit;
    CostIsSize(b.run.pushed, Unit(b));
    CostIsSize(b.run.written, Unit(b));
    CostIsSize(b.queue, Unit(b));
    QueuedCovers(b);
    if b.queue != [] { TimesIsProduct(|b.queue[0]|, Unit(b)); }
  }

  // ----- what the status words tell -----

  /**
   `samples_captured` counts the stored samples, except those whose block the full queue refused at once; and
   a log run that shows no error has written every block it took from the queue.
   */
  ghost predicate Reported(b: Back) {
    && (b.run.fate == Intact ==> b.captured <= |b.run.stored| <= b.captured + b.run.lost)
    && (b.run.kind == LogRun && Configured(b) && b.lastError == 0 ==> b.run.unsaved == 0)
  }

  lemma StoreFrameReports(b: Back, s: Sample, now: Tick)
    requires Reported(b) && (b.cal.active ==> b.run.fate != Intact)
    ensures Reported(StoreFrame(b, s, now))
  {
    hide QueuedBytes, Accumulate, Counts;
  }

  lemma FlushReports(b: Back)
    requires Reported(b)
    ensures Reported(Flush(b))
  {
    hide QueuedBytes;
  }

  lemma ServiceWriteReports(b: Back, ok: bool)
    requires Reported(b)
    ensures Reported(ServiceWrite(b, ok))
  {
    hide Pack, Pop;
    if b.mode == LogMode && b.queue != [] { PopIsPrivate(b); }
  }

  lemma PopIsPrivate(b: Back)
    requires b.queue != []
    ensures var c := Pop(b);
            && c.captured == b.captured && c.lastError == b.lastError && c.cfg == b.cfg && c.mode == b.mode
            && c.run == b.run.(popped := c.run.popped)
  {}

  lemma {:induction false} DrainReports(b: Back, guard: nat, oks: nat -> bool)
    requires Reported(b)
    ensures Reported(Drain(b, guard, oks))
    decreases QUEUE_DEPTH + 2 - guard
  {
    hide ServiceWrite, Reported;
    if b.queue != [] && guard < QUEUE_DEPTH + 2 {
      ServiceWriteReports(b, oks(guard));
      DrainReports(ServiceWrite(b, oks(guard)), guard + 1, oks);
    }
  }

  lemma CloseReports(b: Back, running: bool, first: nat -> bool, second: nat -> bool, closeOk: bool)
    requires Reported(b)
    ensures Reported(StopAndClose(b, running, first, second, closeOk))
  {
    hide Drain, Flush, Reported, Closed;
    var b0 := if running then Flush(b) else b;
    FlushReports(b);
    DrainReports(b0, 0, first);
    var b1 := Drain(b0, 0, first);
    FlushReports(b1);
    DrainReports(Flush(b1), 0, second);
    ClosedReports(Drained(b, running, first, second), closeOk);
  }

  lemma ClosedReports(b: Back, closeOk: bool)
    requires Reported(b)
    ensures Reported(Closed(b, closeOk))
  {}

  lemma CheckReports(b: Back, armed: bool, ok: bool)
    requires Reported(b)
    ensures Reported(CheckPending(b, armed, ok))
  {}

  lemma ReadReports(b: Back, maxLen: nat)
    requires Reported(b) && (Configured(b) && b.mode == StreamMode ==> b.run.kind == StreamRun)
    ensures Reported(ReadStream(b, maxLen))
  {}

  lemma CommandReports(s: Sys, c: Command, env: Env)
    requires Reported(s.back) && Shape(s)
    ensures Reported(CommandStep(s, c, env).back)
  {
    hide StopAndClose, ReadStream, StartLogging, StartStreaming, Stop, BeginCalibration, Reported, LoggingStarts,
      ValidConfig;
    match c
    case NoCommand =>
    case StartLog(cfg, openStatus) =>
      LogStartReports(s.back, cfg, openStatus, WindingUp(s.front.state), |s.front.log.parsed|);
    case StartStream(cfg) => StreamStartReports(s.back, cfg, WindingUp(s.front.state), |s.front.log.parsed|);
    case StopRun => StopReports(s.back, Resting(s.front.state));
    case StopClose => CloseReports(s.back, false, env.first, env.second, env.closeOk);
    case ReadBlock(maxLen) => ReadReports(s.back, maxLen);
    case Calibrate => CalibrationReports(s.back, env.now);
  }

  lemma LogStartReports(b: Back, cfg: Config, openStatus: int, late: bool, origin: nat)
    requires Reported(b)
    ensures Reported(StartLogging(b, cfg, openStatus, late, origin))
  {}

  lemma StreamStartReports(b: Back, cfg: Config, late: bool, origin: nat)
    requires Reported(b)
    ensures Reported(StartStreaming(b, cfg, late, origin))
  {}

  lemma StopReports(b: Back, resting: bool)
    requires Reported(b)
    ensures Reported(Stop(b, resting))
  {}

  lemma CalibrationReports(b: Back, now: Tick)
    requires Reported(b)
    ensures Reported(BeginCalibration(b, now))
  {}

  lemma PassReports(s: Sys, env: Env)
    requires Reported(s.back)
    ensures Reported(MachineStep(s, env).back)
  {
    hide ServiceWrite, CheckPending, Pending, AbortAll, Reported;
    if s.front.state == Finalizing {
      ServiceWriteReports(s.back, env.ok);
      CheckReports(ServiceWrite(s.back, env.ok), s.front.armed, env.closeOk);
    } else {
      SameReport(s.back, MachineStep(s, env).back);
    }
  }

  predicate SameOrDiscarded(b: Back, c: Back) {
    c.run.fate == b.run.fate || (b.run.fate == Intact && c.run.fate == Discarded)
  }

  lemma SameReport(b: Back, c: Back)
    requires Reported(b) && c.captured == b.captured && c.lastError == b.lastError
    requires c.run == b.run.(fate := c.run.fate) && SameOrDiscarded(b, c)
    ensures Reported(c)
  {}

  lemma EndReports(s: Sys, job: Job, env: Env)
    requires Reported(s.back) && (job.Settling? ==> s.back.run.fate != Intact)
    ensures Reported(EndStep(s, job, env).back)
  {
    hide ServiceWrite, Flush, StopAndClose, Means;
    ServiceWriteReports(s.back, env.ok);
    FlushReports(s.back);
    CloseReports(s.back, true, env.first, env.second, env.closeOk);
  }

  lemma StepReports(s: Sys, step: Step)
    requires Inv(s) && Reported(s.back)
    ensures Reported(Next(s, step).back)
  {
    assert Shape(s);
    hide Inv, Reported, StoreFrame, EndStep, MachineStep, CommandStep;
    if step.Main? {
      match s.pc
      case AtPoll =>
        match step.env.poll {
          case RunMachine => PassReports(s, step.env);
          case Serve(c) => CommandReports(s, c, step.env);
        }
      case Reading(slot, _, _) => StoreFrameReports(s.back, Parse(s.front.ring.slots[slot]), step.env.now);
      case Ending(job) => EndReports(s, job, step.env);
      case _ =>
    }
  }

  lemma InitReports()
    ensures Reported(Init().back)
  {}

  /** In every run the captured count and the error word can be trusted. */
  lemma {:induction false} StatusIsTrue(steps: seq<Step>)
    ensures Reported(Execute(Init(), steps).back)
  {
    hide Inv, Next, Reported, Init;
    if steps == [] {
      InitReports();
    } else {
      var n := |steps| - 1;
      StatusIsTrue(steps[..n]);
      EveryRun(steps[..n]);
      StepReports(Execute(Init(), steps[..n]), steps[n]);
    }
  }

  // ----- the log -----

  /**
   In every state of every run begun by a log start that was not overtaken and not reconfigured: the log is
   the packing, in order, of whole blocks of the stored samples, none twice; and every block that is missing
   is counted.
   */
  lemma {:induction false} LogIsPackedBlocks(steps: seq<Step>)
    requires var b := Execute(Init(), steps).back;
             b.run.kind == LogRun && !b.run.late && Configured(b)
    ensures var b := Execute(Init(), steps).back; var r := b.run;
            && b.log == Pack(b.cfg.mask, Flatten(r.written))
            && Subsequence(r.written, r.formed)
            && r.stored == Flatten(r.formed) + b.aggr
            && |r.formed| == |r.written| + |b.queue| + r.lost + r.unsaved
            && b.dropped == r.lost + r.unsaved + r.bad
  {
    EveryRun(steps);
    hide Execute, FrontOk, BackOk, Overtaken, Provenance, Quiet, Pack;
    var r := Execute(Init(), steps).back.run;
    SubsequencePrefix(r.popped, Execute(Init(), steps).back.queue);
    SubsequenceTransitive(r.written, r.popped, r.pushed);
    SubsequenceTransitive(r.written, r.pushed, r.formed);
  }

  lemma NothingPacksToNothing(mask: Mask, samples: seq<Sample>)
    requires ValidMask(mask)
    ensures Pack(mask, samples) == [] <==> samples == []
  {
    PackLength(mask, samples);
    ValidMaskSelects(mask);
    if samples != [] { MulPositive(|samples|, 4 * Count(mask)); }
  }

  lemma MulPositive(n: nat, unit: nat)
    requires n > 0 && unit > 0
    ensures n * unit > 0
  {}

  lemma WholeLog(b: Back)
    requires RunOk(b) && b.run.fate == Intact && b.run.kind == LogRun
    requires b.aggr == [] && b.queue == [] && b.run.lost == 0 && b.run.unsaved == 0
    ensures b.log == Pack(b.cfg.mask, b.run.stored)
  {
    hide Pack;
    SubsequenceFull(b.run.pushed, b.run.formed);
    SubsequenceFull(b.run.written, b.run.popped);
    assert b.run.popped + [] == b.run.popped;
    assert Flatten(b.run.formed) + [] == Flatten(b.run.formed);
  }

  /**
   Exactly when a finished log is complete. Once the machine rests after a log run that no later command
   reconfigured and in which no push and no write failed, the log is the packing of every stored sample if
   and only if the start was not handled while a previous run was being wound up, or nothing was stored.
   */
  lemma {:induction false} FinishedLogIsComplete(steps: seq<Step>)
    requires var s := Execute(Init(), steps);
             && s.front.state == MachineState.Idle && s.back.run.kind == LogRun && Configured(s.back)
             && s.back.run.lost == 0 && s.back.run.unsaved == 0
    ensures var b := Execute(Init(), steps).back;
            b.log == Pack(b.cfg.mask, b.run.stored) <==> !b.run.late || b.run.stored == []
  {
    EveryRun(steps);
    var b := Execute(Init(), steps).back;
    hide Execute, FrontOk, RunOk, Provenance, Quiet, Pack;
    NothingPacksToNothing(b.cfg.mask, b.run.stored);
    if !b.run.late { WholeLog(b); }
  }

  lemma ParsesSlice(taken: seq<Frame>, origin: nat)
    requires origin <= |taken|
    ensures Parses(taken)[origin..] == Parses(taken[origin..])
  {
    hide Parse;
  }

  /** At rest, with every parse in time, a run has stored what was taken since it began. */
  lemma StoredIsTaken(s: Sys)
    requires Inv(s) && s.front.state == MachineState.Idle && s.back.run.kind != NoRun && Configured(s.back)
        && s.front.log.inTime
    ensures var r, taken := s.back.run, s.front.log.taken;
            r.origin <= |taken| && r.stored == Usable(Parses(taken[r.origin..]))
  {
    hide BackPart, Quiet, Regular, Overtaken, Usable, Parses, Sound, HeldSound, Ready;
    var taken, origin := s.front.log.taken, s.back.run.origin;
    assert s.pc == AtPoll && |s.front.log.parsed| == |taken|;
    assert taken[..|taken|] == taken;
    ParsesSlice(taken, origin);
  }

  /** What the words of frames report; a frame whose status word is all ones is left out. */
  function Reports(frames: seq<Frame>): seq<Sample> {
    if frames == [] then []
    else
      var n := |frames| - 1;
      var ws := WordsOf(frames[n]);
      Reports(frames[..n]) + (if ws[0] / 256 == 0xFFFF then [] else [Meaning(ws)])
  }

  lemma {:induction false} UsableIsReported(frames: seq<Frame>)
    ensures Usable(Parses(frames)) == Reports(frames)
  {
    hide Parse;
    if frames != [] {
      var n := |frames| - 1;
      UsableIsReported(frames[..n]);
      ParseReadsWords(frames[n]);
      hide WordsOf, Meaning;
      assert Parses(frames) == Parses(frames[..n]) + [Parse(frames[n])];
      FlatMapSnoc(Keep, Parses(frames[..n]), Parse(frames[n]));
      StatusOfMeaning(WordsOf(frames[n]));
    }
  }

  lemma StatusOfMeaning(ws: FrameWords)
    ensures Meaning(ws).response == ws[0] / 256
  {}

  /**
   From the ADC to the file: after such a run, if moreover every frame was parsed within its window, the log
   is the packing of what the words of the frames taken from the ring during the run report, in order, frames
   with an all-ones status left out.
   */
  lemma LogIsWhatWasCaptured(steps: seq<Step>)
    requires var s := Execute(Init(), steps);
             && s.front.state == MachineState.Idle && s.back.run.kind == LogRun && Configured(s.back)
             && !s.back.run.late && s.back.run.lost == 0 && s.back.run.unsaved == 0 && s.front.log.inTime
    ensures var s := Execute(Init(), steps); var r := s.back.run;
            && r.origin <= |s.front.log.taken|
            && s.back.log == Pack(s.back.cfg.mask, Reports(s.front.log.taken[r.origin..]))
  {
    FinishedLogIsComplete(steps);
    EveryRun(steps);
    hide Execute, Inv, Pack, Usable, Parses, Reports;
    var s := Execute(Init(), steps);
    StoredIsTaken(s);
    UsableIsReported(s.front.log.taken[s.back.run.origin..]);
  }

  /** The frames the ADC sends for these conversions. */
  function EncodedAll(sent: seq<Conversion>): (frames: seq<Frame>)
    ensures |frames| == |sent|
  {
    seq(|sent|, i requires 0 <= i < |sent| => Encoded(sent[i]))
  }

  function SampleOf(c: Conversion): Sample {
    RawSample(c.status, c.crc, c.readings)
  }

  /** The selected readings of the valid conversions, one row each. */
  function SelectedRows(mask: Mask, sent: seq<Conversion>): seq<seq<Int32>> {
    if sent == [] then []
    else
      var n := |sent| - 1;
      SelectedRows(mask, sent[..n]) + (if sent[n].status == 0xFFFF then [] else [Chosen(mask, SampleOf(sent[n]))])
  }

  lemma {:induction false} ReportsOfEncoded(mask: Mask, sent: seq<Conversion>)
    ensures ChosenAll(mask, Reports(EncodedAll(sent))) == SelectedRows(mask, sent)
  {
    hide Encoded, WordsOf, Meaning, Parse, Chosen;
    if sent != [] {
      var n := |sent| - 1;
      ReportsOfEncoded(mask, sent[..n]);
      var f := Encoded(sent[n]);
      ParseEncoded(sent[n]);
      ParseReadsWords(f);
      StatusOfMeaning(WordsOf(f));
      assert Meaning(WordsOf(f)) == SampleOf(sent[n]);
      assert EncodedAll(sent)[..n] == EncodedAll(sent[..n]);
    }
  }

  /**
   End to end: when the frames taken during such a run are those the ADC sent for some conversions, decoding
   the log gives the selected readings of the valid conversions, row by row and in order.
   */
  lemma {:induction false} ReadingsReachTheLog(steps: seq<Step>, sent: seq<Conversion>)
    requires var s := Execute(Init(), steps);
             && s.front.state == MachineState.Idle && s.back.run.kind == LogRun && Configured(s.back)
             && !s.back.run.late && s.back.run.lost == 0 && s.back.run.unsaved == 0 && s.front.log.inTime
             && s.back.run.origin <= |s.front.log.taken|
             && s.front.log.taken[s.back.run.origin..] == EncodedAll(sent)
    ensures var b := Execute(Init(), steps).back;
            Count(b.cfg.mask) > 0 && Decode(b.log, Count(b.cfg.mask)) == SelectedRows(b.cfg.mask, sent)
  {
    LogIsWhatWasCaptured(steps);
    EveryRun(steps);
    hide Execute, FrontPart, RunOk, Shape, Quiet, Regular, Overtaken, Provenance, Pack, Decode, Reports, Count;
    var b := Execute(Init(), steps).back;
    PackDecode(b.cfg.mask, Reports(EncodedAll(sent)));
    ReportsOfEncoded(b.cfg.mask, sent);
  }

  // ----- winding up -----

  /** A step that begins no run and no calibration. */
  predicate Harmless(step: Step) {
    step.Main? && step.env.poll.Serve? ==>
      !step.env.poll.command.StartLog? && !step.env.poll.command.StartStream? && !step.env.poll.command.Calibrate?
  }

  /** Whether a step, taken here, is a pass of the state machine. */
  predicate IsPass(s: Sys, step: Step) {
    s.pc == AtPoll && step.Main? && step.env.poll.RunMachine?
  }

  function Max(a: nat, b: nat): nat { if a >= b then a else b }

  /** A bound on the passes of the state machine still to come before it rests. */
  function Deadline(s: Sys): nat {
    if s.pc != AtPoll && s.pc.job.Closing? then 0
    else if s.front.state == Stopping then (if s.pc == AtPoll then QUEUE_DEPTH + 1 else QUEUE_DEPTH)
    else if s.back.mode == StreamMode then 1
    else Max(1, |s.back.queue|)
  }

  /** The machine at rest after a run: nothing buffered, the log closed, no mode. */
  predicate Rested(s: Sys) {
    && s.front.state == MachineState.Idle && s.pc == AtPoll
    && s.back.mode == NoMode && s.back.queue == [] && s.back.aggr == [] && !s.back.logOpen
  }

  /** Being wound up with the run's mode still in force. */
  ghost predicate Draining(s: Sys) {
    && Inv(s) && WindingUp(s.front.state) && s.back.mode != NoMode
    && (s.back.mode == StreamMode ==> !s.back.logOpen)
    && (s.front.state == Finalizing ==> s.pc == AtPoll || s.pc.job.Closing?)
    && (s.front.state == Finalizing && s.pc == AtPoll ==> s.back.aggr == [] && !s.front.armed)
  }

  lemma DrainingInterrupt(s: Sys, step: Step)
    requires Draining(s) && !step.Main?
    ensures Draining(Next(s, step)) && Deadline(Next(s, step)) == Deadline(s)
  {
    hide Inv, OnDrdy, OnDone, OnFail, OnBytes;
    InterruptKeeps(s, step);
    InterruptsUntouched(s.front, if step.Bytes? then true else step.halOk, if step.Bytes? then step.frame else Blank());
  }

  lemma DrainingPass(s: Sys, env: Env)
    requires Draining(s) && s.pc == AtPoll && env.poll.RunMachine?
    ensures var t := Next(s, Main(env));
            Rested(t) || (Draining(t) && Deadline(t) + 1 <= Deadline(s))
  {
    hide Inv, ServiceWrite, Abort;
    StepKeeps(s, Main(env));
    ServiceWriteEffect(s.back, env.ok);
    ServiceWriteSameRun(s.back, env.ok);
  }

  lemma DrainingCommand(s: Sys, env: Env)
    requires Draining(s) && s.pc == AtPoll && env.poll.Serve? && Harmless(Main(env))
    ensures var t := Next(s, Main(env)); Draining(t) && Deadline(t) <= Deadline(s)
  {
    hide Inv, Abort;
    StepKeeps(s, Main(env));
  }

  lemma DrainParts(s: Sys)
    requires Draining(s)
    ensures BackPart(s) && (s.back.run.fate == Intact && s.back.mode == LogMode ==> s.back.run.kind == LogRun)
  {
    hide FrontPart, BackOk, RunOk, Quiet, Regular, Overtaken, Provenance;
  }

  lemma DrainingClose(s: Sys, env: Env)
    requires Draining(s) && s.pc == Ending(Closing)
    ensures Rested(Next(s, Main(env)))
  {
    DrainParts(s);
    hide Draining, BackOk, RunOk, StopAndClose;
    StopAndCloseKeeps(s.back, true, env.first, env.second, env.closeOk);
  }

  lemma DrainingJob(s: Sys, env: Env)
    requires Draining(s) && s.pc != AtPoll && s.pc != Ending(Closing)
    ensures var t := Next(s, Main(env)); Draining(t) && Deadline(t) <= Deadline(s)
  {
    assert Shape(s) && Quiet(s) && BackOk(s.back);
    hide Inv, Flush;
    StepKeeps(s, Main(env));
    FlushEffect(s.back);
    FlushBounds(s.back);
  }

  lemma FlushBounds(b: Back)
    requires BackOk(b)
    ensures |Flush(b).queue| <= QUEUE_DEPTH && Flush(b).aggr == []
  {}

  lemma DrainingStep(s: Sys, step: Step)
    requires Draining(s) && Harmless(step)
    ensures var t := Next(s, step);
            Rested(t) ||
            (Draining(t) && Deadline(t) + (if IsPass(s, step) then 1 else 0) <= Deadline(s))
  {
    hide Draining, Next, Deadline, Rested;
    if !step.Main? { DrainingInterrupt(s, step); }
    else if s.pc == Ending(Closing) { DrainingClose(s, step.env); }
    else if s.pc != AtPoll { DrainingJob(s, step.env); }
    else if step.env.poll.RunMachine? { DrainingPass(s, step.env); }
    else { DrainingCommand(s, step.env); }
  }

  /** How many of the steps, taken from `s`, are passes of the state machine. */
  function Passes(s: Sys, steps: seq<Step>): nat {
    if steps == [] then 0
    else
      var n := |steps| - 1;
      Passes(s, steps[..n]) + (if IsPass(Execute(s, steps[..n]), steps[n]) then 1 else 0)
  }

  ghost predicate Rests(s: Sys, steps: seq<Step>) {
    exists k: nat :: k <= |steps| && Rested(Execute(s, steps[..k]))
  }

  lemma {:induction false} DeadlineRun(s: Sys, steps: seq<Step>)
    requires Draining(s) && forall step :: step in steps ==> Harmless(step)
    ensures Rests(s, steps) ||
            (Draining(Execute(s, steps)) && Deadline(Execute(s, steps)) + Passes(s, steps) <= Deadline(s))
  {
    hide Draining, Deadline, Harmless, IsPass, Next, Rested;
    if steps != [] {
      var n := |steps| - 1;
      var before := steps[..n];
      DeadlineRun(s, before);
      if Rests(s, before) {
        var k: nat :| k <= |before| && Rested(Execute(s, before[..k]));
        assert steps[..k] == before[..k];
      } else {
        assert steps[n] in steps;
        DrainingStep(Execute(s, before), steps[n]);
        assert steps[..|steps|] == steps;
      }
    }
  }

  lemma DeadlineBounds(s: Sys)
    requires Draining(s)
    ensures Deadline(s) <= QUEUE_DEPTH + 1 && (s.pc == AtPoll ==> Deadline(s) >= 1)
  {
    hide FrontPart, RunOk, Shape, Quiet, Regular, Overtaken, Provenance;
  }

  /**
   Winding up takes at most nine passes of the state machine. From STOPPING or FINALIZING, with the run's
   mode still set and no further start or calibration, under any interleaving of interrupts, stops and
   reads: once nine passes were made and the main loop is between calls again, the machine has rested.
   */
  lemma WindsUpInNinePasses(s: Sys, steps: seq<Step>)
    requires Draining(s) && forall step :: step in steps ==> Harmless(step)
    requires Passes(s, steps) >= QUEUE_DEPTH + 1 && Execute(s, steps).pc == AtPoll
    ensures Rests(s, steps)
  {
    hide Passes, Execute, Harmless, Draining, Deadline;
    DeadlineRun(s, steps);
    DeadlineBounds(s);
    if !Rests(s, steps) { DeadlineBounds(Execute(s, steps)); }
  }

  /** In every run, a run whose start was not overtaken enters the drain with its mode set. */
  lemma StoppingDrains(steps: seq<Step>)
    requires var s := Execute(Init(), steps);
             s.front.state == Stopping && s.back.run.kind != NoRun && !s.back.run.late && Configured(s.back)
    ensures Draining(Execute(Init(), steps))
  {
    EveryRun(steps);
    hide Execute, FrontPart, BackPart, Quiet, Overtaken, Provenance;
    assert Regular(Execute(Init(), steps));
  }

  // ----- and when it does not -----

  /** `n` passes of the state machine in a row. */
  function PassTimes(s: Sys, env: Env, n: nat): Sys {
    if n == 0 then s else MachineStep(PassTimes(s, env, n - 1), env)
  }

  lemma {:induction false} StuckPasses(s: Sys, env: Env, n: nat)
    requires s.front.state == Finalizing && s.back.mode == NoMode && Pending(s.back, s.front.armed)
    ensures PassTimes(s, env, n) == s
  {
    if n > 0 { StuckPasses(s, env, n - 1); }
  }

  lemma {:induction false} QueuePasses(s: Sys, env: Env, n: nat)
    requires s.front.state == Finalizing && s.back.mode == LogMode && s.back.aggr == [] && !s.front.armed
    requires n < |s.back.queue|
    ensures var t := PassTimes(s, env, n);
            t.front == s.front && t.back.mode == LogMode && t.back.aggr == [] && |t.back.queue| == |s.back.queue| - n
  {
    hide ServiceWrite;
    if n > 0 {
      QueuePasses(s, env, n - 1);
      var t := PassTimes(s, env, n - 1);
      ServiceWriteSameRun(t.back, env.ok);
    }
  }

  /** With nothing left to write one pass ends the run. */
  lemma LastPass(s: Sys, env: Env)
    requires s.front.state == Finalizing && s.back.aggr == [] && !s.front.armed && s.back.queue == []
    ensures MachineStep(s, env).front.state == MachineState.Idle
  {
    hide ServiceWrite, CheckPending;
    ServiceWriteEffect(s.back, env.ok);
    assert ServiceWrite(s.back, env.ok) == s.back;
  }

  lemma StreamPass(s: Sys, env: Env)
    requires s.front.state == Finalizing && !s.front.armed && s.back.mode == StreamMode
    ensures MachineStep(s, env).front.state == MachineState.Idle
  {
    hide CheckPending;
    ServiceWriteEffect(s.back, env.ok);
    assert ServiceWrite(s.back, env.ok) == s.back;
  }

  lemma LogPasses(s: Sys, env: Env)
    requires s.front.state == Finalizing && s.back.aggr == [] && !s.front.armed
    requires s.back.mode == LogMode && s.back.queue != []
    ensures PassTimes(s, env, |s.back.queue|).front.state == MachineState.Idle
  {
    hide ServiceWrite, CheckPending;
    var n := |s.back.queue| - 1;
    QueuePasses(s, env, n);
    var t := PassTimes(s, env, n);
    ServiceWriteSameRun(t.back, env.ok);
    ServiceWriteEffect(t.back, env.ok);
    assert !Pending(ServiceWrite(t.back, env.ok), t.front.armed);
    assert MachineStep(t, env).front.state == MachineState.Idle;
    assert PassTimes(s, env, n + 1) == MachineStep(PassTimes(s, env, n), env);
  }

  ghost predicate LeavesFinalizing(s: Sys, env: Env) {
    exists n: nat :: PassTimes(s, env, n).front.state == MachineState.Idle
  }

  lemma OnePass(s: Sys, env: Env)
    ensures PassTimes(s, env, 1) == MachineStep(s, env)
  {
    hide MachineStep;
    assert PassTimes(s, env, 0) == s;
  }

  /**
   Exactly when the machine gets out of FINALIZING by its own passes: the mode is still set, or nothing is
   left to write. A start handled while winding up loses the mode, and then a single queued block is enough
   to keep the machine there for good.
   */
  lemma FinalizingEndsIff(s: Sys, env: Env)
    requires s.front.state == Finalizing && s.back.aggr == [] && !s.front.armed
    ensures LeavesFinalizing(s, env) <==> s.back.mode != NoMode || s.back.queue == []
  {
    hide MachineStep, PassTimes;
    if s.back.queue == [] {
      LastPass(s, env);
      OnePass(s, env);
    } else {
      match s.back.mode
      case LogMode => LogPasses(s, env);
      case StreamMode => StreamPass(s, env); OnePass(s, env);
      case NoMode =>
        forall n: nat ensures PassTimes(s, env, n).front.state != MachineState.Idle {
          StuckPasses(s, env, n);
        }
    }
  }
}
