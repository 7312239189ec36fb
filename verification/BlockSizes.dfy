/**
 The size of the blocks a run is cut into: every block has the configured number of samples, except that a stop
 may cut the last one short. The network core relies on it when it rounds the size of a stream to whole blocks and
 asks for them one at a time.
 */
module BlockSizes {
  import opened Bytes
  import opened Packing
  import opened DmaRing
  import opened Calibration
  import opened Capture
  import opened Storage
  import opened Board
  import opened HostStreams

  /** A run begun at rest that still is the one its start command configured. */
  predicate Undisturbed(b: Back) {
    b.run.kind != NoRun && !b.run.late && Configured(b)
  }

  /** Whether the run can still store samples. */
  predicate GoesOn(s: Sys) {
    s.back.start || s.front.state == Preparing || s.front.state == Acquiring || s.front.state == Stopping
  }

  ghost predicate AllWhole(blks: seq<Block>, size: nat) {
    forall blk :: blk in blks ==> |blk| == size
  }

  /** Every block is whole and the open one is not yet. */
  ghost predicate Cutting(b: Back) {
    |b.aggr| < b.cfg.blockSamples && AllWhole(b.run.formed, b.cfg.blockSamples)
  }

  /** No block is open and every block but the last is whole. */
  ghost predicate CutOff(b: Back) {
    && b.aggr == []
    && (b.run.formed != [] ==>
          && AllWhole(b.run.formed[..|b.run.formed| - 1], b.cfg.blockSamples)
          && 1 <= |b.run.formed[|b.run.formed| - 1]| <= b.cfg.blockSamples)
  }

  ghost predicate Sized(s: Sys) {
    Undisturbed(s.back) ==> if GoesOn(s) then Cutting(s.back) else CutOff(s.back)
  }

  /** What leaves the blocks alone. */
  predicate SameCuts(b: Back, c: Back) {
    && c.run.formed == b.run.formed && c.cfg == b.cfg
    && (Undisturbed(c) ==> Undisturbed(b))
  }

  // ----- operations -----

  lemma StoringCuts(b: Back, s: Sample, now: Tick)
    requires Cutting(b) && !b.cal.active
    ensures var c := StoreFrame(b, s, now); Cutting(c) && (Undisturbed(c) ==> Undisturbed(b)) && c.start == b.start
  {
    hide QueuedBytes;
  }

  lemma FlushCutsOff(b: Back)
    requires Cutting(b) || CutOff(b)
    requires b.cfg.blockSamples >= 1
    ensures CutOff(Flush(b)) && SameStart(b, Flush(b)) && Flush(b).cfg == b.cfg
  {
    hide QueuedBytes;
    var c := Flush(b);
    if b.aggr != [] {
      assert c.run.formed == b.run.formed + [b.aggr];
      assert c.run.formed[..|c.run.formed| - 1] == b.run.formed;
    } else if b.run.formed != [] {
      assert b.run.formed[|b.run.formed| - 1] in b.run.formed;
    }
  }

  predicate SameStart(b: Back, c: Back) {
    (Undisturbed(c) ==> Undisturbed(b)) && c.start == b.start
  }

  lemma WriteSameCuts(b: Back, ok: bool)
    ensures var c := ServiceWrite(b, ok); SameCuts(b, c) && c.aggr == b.aggr && c.start == b.start
  {
    hide Pack;
  }

  lemma {:induction false} DrainSameCuts(b: Back, guard: nat, oks: nat -> bool)
    ensures var c := Drain(b, guard, oks); SameCuts(b, c) && c.aggr == b.aggr && c.start == b.start
    decreases QUEUE_DEPTH + 2 - guard
  {
    hide ServiceWrite, Undisturbed;
    if b.queue != [] && guard < QUEUE_DEPTH + 2 {
      WriteSameCuts(b, oks(guard));
      DrainSameCuts(ServiceWrite(b, oks(guard)), guard + 1, oks);
    }
  }

  lemma CloseCutsOff(b: Back, running: bool, first: nat -> bool, second: nat -> bool, closeOk: bool)
    requires Cutting(b) || CutOff(b)
    requires b.cfg.blockSamples >= 1
    ensures var c := StopAndClose(b, running, first, second, closeOk);
            CutOff(c) && (Undisturbed(c) ==> Undisturbed(b)) && !c.start
  {
    hide Drain, Flush, AllWhole, Undisturbed;
    var b0 := if running then Flush(b) else b;
    FlushCutsOff(b);
    DrainSameCuts(b0, 0, first);
    var b1 := Drain(b0, 0, first);
    FlushCutsOff(b1);
    DrainSameCuts(Flush(b1), 0, second);
    ClosedSameCuts(Drained(b, running, first, second), closeOk);
  }

  lemma ClosedSameCuts(b: Back, closeOk: bool)
    ensures var c := Closed(b, closeOk); SameCuts(b, c) && c.aggr == [] && !c.start
  {}

  lemma ReadSameCuts(b: Back, maxLen: nat)
    ensures var c := ReadStream(b, maxLen); SameCuts(b, c) && c.aggr == b.aggr && c.start == b.start
  {}

  lemma CheckSameCuts(b: Back, armed: bool, ok: bool)
    ensures var c := CheckPending(b, armed, ok);
            SameCuts(b, c) && (c.aggr == b.aggr || c.aggr == []) && c.start == b.start
  {}

  lemma LogStartCuts(b: Back, cfg: Config, openStatus: int, late: bool, origin: nat)
    ensures var c := StartLogging(b, cfg, openStatus, late, origin);
            Undisturbed(c) ==>
              if LoggingStarts(cfg, openStatus) then Cutting(c) && c.start && !late
              else c == b.(opStatus := c.opStatus)
  {}

  lemma StreamStartCuts(b: Back, cfg: Config, late: bool, origin: nat)
    ensures var c := StartStreaming(b, cfg, late, origin);
            Undisturbed(c) ==>
              if ValidConfig(cfg) then Cutting(c) && c.start && !late else c == b.(opStatus := c.opStatus)
  {}

  // ----- steps -----

  lemma Same(s: Sys, t: Sys)
    requires Sized(s) && SameCuts(s.back, t.back) && t.back.aggr == s.back.aggr && GoesOn(t) == GoesOn(s)
    ensures Sized(t)
  {}

  lemma StopSizes(s: Sys, env: Env)
    requires Inv(s) && Sized(s)
    ensures Sized(CommandStep(s, StopRun, env))
  {
    hide FrontPart, BackPart, Quiet, Overtaken, Provenance;
    CutsEnd(s.back);
    hide AllWhole;
  }

  /** A run that is cut into whole blocks can be cut off at any time. */
  lemma CutsEnd(b: Back)
    ensures Cutting(b) && b.cfg.blockSamples >= 1 ==> CutOff(b.(aggr := []))
  {
    if Cutting(b) && b.run.formed != [] {
      assert b.run.formed[|b.run.formed| - 1] in b.run.formed;
    }
  }

  lemma LogStartSizes(s: Sys, cfg: Config, openStatus: int, env: Env)
    requires Sized(s)
    ensures Sized(CommandStep(s, StartLog(cfg, openStatus), env))
  {
    hide StartLogging, Cutting, CutOff, ClearForRun, LoggingStarts;
    LogStartCuts(s.back, cfg, openStatus, WindingUp(s.front.state), |s.front.log.parsed|);
    StatusApart(s, CommandStep(s, StartLog(cfg, openStatus), env));
  }

  lemma StreamStartSizes(s: Sys, cfg: Config, env: Env)
    requires Sized(s)
    ensures Sized(CommandStep(s, StartStream(cfg), env))
  {
    hide StartStreaming, Cutting, CutOff, ClearForRun, ValidConfig;
    StreamStartCuts(s.back, cfg, WindingUp(s.front.state), |s.front.log.parsed|);
    StatusApart(s, CommandStep(s, StartStream(cfg), env));
  }

  /** The status of the last operation has no part in it. */
  lemma StatusApart(s: Sys, t: Sys)
    requires Sized(s)
    ensures t.back == s.back.(opStatus := t.back.opStatus) && t.front.state == s.front.state ==> Sized(t)
  {}

  lemma RestCloseSizes(s: Sys, env: Env)
    requires Sized(s) && ValidConfig(s.back.cfg)
    ensures Sized(CommandStep(s, StopClose, env))
  {
    hide Cutting, CutOff, Undisturbed, StopAndClose, Abort;
    if Resting(s.front.state) && Undisturbed(s.back) {
      CloseCutsOff(s.back, false, env.first, env.second, env.closeOk);
    } else if Resting(s.front.state) {
      CloseStaysDisturbed(s.back, false, env.first, env.second, env.closeOk);
    }
  }

  lemma CloseStaysDisturbed(b: Back, running: bool, first: nat -> bool, second: nat -> bool, closeOk: bool)
    ensures Undisturbed(StopAndClose(b, running, first, second, closeOk)) ==> Undisturbed(b)
  {
    hide Drain, Flush, Undisturbed, Closed;
    var b0 := if running then Flush(b) else b;
    FlushStays(b);
    DrainSameCuts(b0, 0, first);
    var b1 := Drain(b0, 0, first);
    FlushStays(b1);
    DrainSameCuts(Flush(b1), 0, second);
    ClosedSameCuts(Drained(b, running, first, second), closeOk);
  }

  lemma FlushStays(b: Back)
    ensures Undisturbed(Flush(b)) <==> Undisturbed(b)
  {
    hide QueuedBytes;
  }

  lemma CalibrateSizes(s: Sys, env: Env)
    requires Sized(s)
    ensures Sized(CommandStep(s, Calibrate, env))
  {
    hide Cutting, CutOff, AbortAll, ClearForRun, StartAccumulator, After;
  }

  lemma CommandSizes(s: Sys, c: Command, env: Env)
    requires Inv(s) && Sized(s)
    ensures Sized(CommandStep(s, c, env))
  {
    Bounds(s);
    hide Inv, Sized, ReadStream, ValidConfig;
    match c
    case NoCommand => NoCommandPass(s, env);
    case StartLog(cfg, openStatus) => LogStartSizes(s, cfg, openStatus, env);
    case StartStream(cfg) => StreamStartSizes(s, cfg, env);
    case StopRun => StopSizes(s, env);
    case StopClose => RestCloseSizes(s, env);
    case ReadBlock(maxLen) =>
      ReadSameCuts(s.back, maxLen);
      Same(s, CommandStep(s, c, env));
    case Calibrate => CalibrateSizes(s, env);
  }

  lemma Bounds(s: Sys)
    requires Inv(s)
    ensures ValidConfig(s.back.cfg)
  {
    hide FrontPart, RunOk, Shape, Quiet, Regular, Overtaken, Provenance;
  }

  lemma FinalizingSizes(s: Sys, env: Env)
    requires Regular(s) && Sized(s) && s.front.state == Finalizing
    ensures Sized(MachineStep(s, env))
  {
    hide ServiceWrite, CheckPending, Pending, AllWhole;
    WriteSameCuts(s.back, env.ok);
    CheckSameCuts(ServiceWrite(s.back, env.ok), s.front.armed, env.closeOk);
  }

  lemma RunningSizes(s: Sys, env: Env)
    requires Sized(s) && ValidConfig(s.back.cfg) && s.front.state != Finalizing && s.front.state != Faulted
    ensures Sized(MachineStep(s, env))
  {
    hide Abort, AllWhole;
  }

  lemma PassSizes(s: Sys, env: Env)
    requires Inv(s) && Sized(s)
    ensures Sized(MachineStep(s, env))
  {
    Bounds(s);
    hide FrontPart, BackPart, Quiet, Regular, Overtaken, Provenance, Sized, MachineStep, ValidConfig;
    if s.front.state == Finalizing { FinalizingSizes(s, env); } else { RunningSizes(s, env); }
  }

  lemma EndSizes(s: Sys, env: Env)
    requires Inv(s) && Sized(s) && s.pc.Ending?
    ensures Sized(EndStep(s, s.pc.job, env))
  {
    Bounds(s);
    hide FrontPart, BackPart, Quiet, Overtaken, Provenance, ServiceWrite, AbortAll, AllWhole, Flush, StopAndClose,
      Means, Reached;
    var b := s.back;
    match s.pc.job
    case Serving => WriteSameCuts(b, env.ok);
    case Closing =>
      CloseStaysDisturbed(b, true, env.first, env.second, env.closeOk);
      if Undisturbed(b) { CloseCutsOff(b, true, env.first, env.second, env.closeOk); }
    case Halting =>
      FlushStays(b);
      if Undisturbed(b) { FlushCutsOff(b); }
    case Recovering => assert false;
    case _ =>
  }

  lemma ReadingSizes(s: Sys, env: Env)
    requires Inv(s) && Sized(s) && s.pc.Reading?
    ensures Sized(MainStep(s, env))
  {
    hide FrontPart, BackPart, Regular, Overtaken, Provenance, Cutting, CutOff, StoreFrame, Parse, WindowOpen;
    var sample := Parse(s.front.ring.slots[s.pc.slot]);
    StoreStays(s.back, sample, env.now);
    if Undisturbed(s.back) { StoringCuts(s.back, sample, env.now); }
  }

  lemma StoreStays(b: Back, s: Sample, now: Tick)
    ensures var c := StoreFrame(b, s, now); (Undisturbed(c) <==> Undisturbed(b)) && c.start == b.start
  {
    hide QueuedBytes, Accumulate, Counts;
  }

  lemma StepSizes(s: Sys, step: Step)
    requires Inv(s) && Sized(s)
    ensures Sized(Next(s, step))
  {
    if step.Main? {
      hide Inv, Sized, EndStep, MachineStep, CommandStep;
      match s.pc
      case AtPoll =>
        match step.env.poll {
          case RunMachine => PassSizes(s, step.env);
          case Serve(c) => CommandSizes(s, c, step.env);
        }
      case Reading(_, _, _) => ReadingSizes(s, step.env);
      case Ending(_) => EndSizes(s, step.env);
      case _ => LoopSizes(s, step.env);
    } else {
      InterruptsUntouched(s.front, if step.Bytes? then true else step.halOk,
                          if step.Bytes? then step.frame else Blank());
      hide Inv, Cutting, CutOff, OnDrdy, OnDone, OnFail, OnBytes;
    }
  }

  lemma LoopSizes(s: Sys, env: Env)
    requires Sized(s) && s.pc != AtPoll && !s.pc.Ending? && !s.pc.Reading?
    ensures Sized(MainStep(s, env))
  {
    hide Cutting, CutOff, Start, Take, MayTake;
  }

  lemma InitSized()
    ensures Sized(Init())
  {}

  /**
   In every run begun at rest and not reconfigured every block cut has exactly the configured number of samples
   while the run goes on, and the open block has fewer; once it is over no block is open, and only the last one
   may be shorter.
   */
  lemma {:induction false} BlocksAreWhole(steps: seq<Step>)
    ensures Sized(Execute(Init(), steps))
  {
    hide Inv, Next, Sized, Init;
    if steps == [] {
      InitSized();
    } else {
      var n := |steps| - 1;
      BlocksAreWhole(steps[..n]);
      EveryRun(steps[..n]);
      StepSizes(Execute(Init(), steps[..n]), steps[n]);
    }
  }

  // ----- requests for blocks -----

  lemma {:induction false} SubsequenceMember<T(!new)>(x: T, xs: seq<T>, ys: seq<T>)
    requires Subsequence(xs, ys) && x in xs
    ensures x in ys
    decreases |ys|
  {
    var m, n := |xs| - 1, |ys| - 1;
    if Subsequence(xs, ys[..n]) {
      SubsequenceMember(x, xs, ys[..n]);
    } else if x != xs[m] {
      assert x in xs[..m];
      SubsequenceMember(x, xs[..m], ys[..n]);
    }
  }

  /** A stream in progress, with a block queued. */
  predicate StreamWaits(s: Sys) {
    && Undisturbed(s.back) && s.back.run.fate == Intact && GoesOn(s)
    && s.back.mode == StreamMode && s.back.queue != []
  }

  /** While a stream goes on, a request gets a block exactly if it has room for one of the configured size. */
  lemma {:induction false} RequestIffRoom(steps: seq<Step>, maxLen: nat)
    requires StreamWaits(Execute(Init(), steps))
    ensures var b := Execute(Init(), steps).back;
            Delivers(b, maxLen) <==> maxLen >= b.cfg.blockSamples * FRAME_SIZE
  {
    BlocksAreWhole(steps);
    EveryRun(steps);
    hide Execute, FrontPart, Shape, Quiet, Regular, Overtaken, Provenance, Tally, ByteCount, Subsequence;
    var b := Execute(Init(), steps).back;
    assert b.queue[0] in b.queue && b.queue[0] in b.run.pushed;
    SubsequenceMember(b.queue[0], b.run.pushed, b.run.formed);
  }

  /**
   What `OpenAmpDaqStreamReadPtr` asks for, after `sent` blocks of a bounded stream: what is left of the announced
   size, up to its limit.
   */
  function Asked(requested: Word32, block: nat, sent: nat, limit: nat): nat
    requires block > 0 && sent * (block * FRAME_SIZE) <= StreamSize(requested, block)
  {
    var left := StreamSize(requested, block) - sent * (block * FRAME_SIZE);
    if left > limit then limit else left
  }

  lemma LeftIsWhole(requested: Word32, block: nat, sent: nat)
    requires block > 0 && 0 < requested && requested * FRAME_SIZE < 0x1_0000_0000
    requires sent * (block * FRAME_SIZE) < StreamSize(requested, block)
    ensures StreamSize(requested, block) - sent * (block * FRAME_SIZE) >= block * FRAME_SIZE
  {
    var q, unit := requested / block, block * FRAME_SIZE;
    Rounding(requested, block);
    assert StreamSize(requested, block) == q * unit;
    AtLeastOne(q, sent, unit);
  }

  lemma AtLeastOne(q: nat, sent: nat, unit: nat)
    requires sent * unit < q * unit
    ensures q * unit - sent * unit >= unit
  {
    var d := q - sent;
    assert d * unit == q * unit - sent * unit;
    PositiveMultiple(d, unit);
  }

  lemma PositiveMultiple(d: int, unit: nat)
    requires d * unit > 0
    ensures d * unit >= unit
  {
    var e := d - 1;
    assert d * unit == e * unit + unit;
  }

  /**
   So a bounded stream loses no block at its end: as long as anything is left of the announced size, a request gets
   the next block, if its limit has room for one.
   */
  lemma BoundedStreamIsServedIff(steps: seq<Step>, requested: Word32, sent: nat, limit: nat)
    requires StreamWaits(Execute(Init(), steps)) && 0 < requested && requested * FRAME_SIZE < 0x1_0000_0000
    requires var block := Execute(Init(), steps).back.cfg.blockSamples;
             block > 0 && sent * (block * FRAME_SIZE) < StreamSize(requested, block)
    ensures var b := Execute(Init(), steps).back;
            Delivers(b, Asked(requested, b.cfg.blockSamples, sent, limit)) <==>
              limit >= b.cfg.blockSamples * FRAME_SIZE
  {
    var block := Execute(Init(), steps).back.cfg.blockSamples;
    LeftIsWhole(requested, block, sent);
    RequestIffRoom(steps, Asked(requested, block, sent, limit));
    hide Execute, Delivers, StreamSize, StreamWaits;
  }
}
