/**
 A whole offset calibration on the running board (`DAQ_RunOffsetCalibration`): which frames are averaged, how
 long its loop lasts, and what it leaves in the offsets, for every interleaving with interrupts.
 */
module CalibrationRun {
  import opened Bytes
  import opened Packing
  import opened DmaRing
  import opened Calibration
  import opened Capture
  import opened Storage
  import opened Board

  /** What a step polls: a pass of the machine or a command, when the main loop is between calls. */
  function PollOf(s: Sys, step: Step): seq<Poll> {
    if step.Main? && s.pc == AtPoll then [step.env.poll] else []
  }

  /** The passes and commands of a run from `s`, in order. */
  function PollsFrom(s: Sys, steps: seq<Step>): seq<Poll> {
    if steps == [] then []
    else
      var n := |steps| - 1;
      PollsFrom(s, steps[..n]) + PollOf(Execute(s, steps[..n]), steps[n])
  }

  /** The valid frame a step parses, with the tick at which it is processed. */
  function ParsedBy(s: Sys, step: Step): seq<Timed> {
    if step.Main? && s.pc.Reading? then
      var ws := WordsOf(s.front.ring.slots[s.pc.slot]);
      if ws[0] / 256 == 0xFFFF then [] else [Timed(Meaning(ws), step.env.now)]
    else []
  }

  /** The valid frames parsed during a run from `s`. */
  function TimedFrom(s: Sys, steps: seq<Step>): seq<Timed> {
    if steps == [] then []
    else
      var n := |steps| - 1;
      TimedFrom(s, steps[..n]) + ParsedBy(Execute(s, steps[..n]), steps[n])
  }

  /** The tick of a step that processes a valid frame or tests the end of the loop. */
  function TickOf(s: Sys, step: Step): seq<Tick> {
    if ParsedBy(s, step) != [] || (step.Main? && s.pc.Ending? && s.pc.job.Averaging?) then [step.env.now] else []
  }

  function TicksFrom(s: Sys, steps: seq<Step>): seq<Tick> {
    if steps == [] then []
    else
      var n := |steps| - 1;
      TicksFrom(s, steps[..n]) + TickOf(Execute(s, steps[..n]), steps[n])
  }

  /** The ticks of a run from `s`, after a first one. */
  function Clock(first: Tick, s: Sys, steps: seq<Step>): (ticks: seq<Tick>)
    ensures ticks != []
  {
    [first] + TicksFrom(s, steps)
  }

  function LastOf(ticks: seq<Tick>): Tick
    requires ticks != []
  {
    ticks[|ticks| - 1]
  }

  /** The ticks follow `start` in order, within 2^31 ms of it. */
  predicate Orderly(start: Tick, ticks: seq<Tick>) {
    if ticks == [] then true
    else
      var n := |ticks| - 1;
      && Orderly(start, ticks[..n])
      && Elapsed(start, ticks[n]) < 0x8000_0000
      && (n > 0 ==> Elapsed(start, ticks[n - 1]) <= Elapsed(start, ticks[n]))
  }

  /** The offsets after a calibration that averaged these samples: the truncated mean of each channel. */
  predicate Averaged(offsets: seq<Int32>, window: seq<Sample>) {
    && |offsets| == CAL_CHANNELS
    && window != []
    && forall c: nat :: c < CAL_CHANNELS ==> offsets[c] == TruncatedDivide(Sum(window, c), |window|)
  }

  /** What a calibration leaves behind, from the state before it and the samples of its window. */
  predicate Calibrated(before: Back, after: Back, window: seq<Sample>) {
    && after.cfg == before.cfg && after.mode == before.mode && !after.cal.active
    && after.averaged == |window|
    && (if window == [] then after.offsets == before.offsets else Averaged(after.offsets, window))
    && after.start == (before.start && window == []) && after.stop == (before.stop && window == [])
  }

  // ----- the account of a calibration -----

  /** The result of a calibration whose accumulator is `a`. */
  predicate Finished(before: Back, after: Back, a: Accumulator) {
    && after.cfg == before.cfg && after.mode == before.mode && !after.cal.active && after.averaged == a.count
    && after.offsets == (if a.count == 0 then before.offsets else Means(a))
    && after.start == (before.start && a.count == 0) && after.stop == (before.stop && a.count == 0)
  }

  /** Where a calibration begun from `before` at `now` stands after these frames. */
  ghost predicate Account(t: Sys, before: Back, now: Tick, later: Tick, frames: seq<Timed>) {
    if t.pc == AtPoll then
      t.front.state == MachineState.Idle && !t.front.armed && Finished(before, t.back, AccumulateAll(now, frames))
    else
      && (|| t.pc.job == Averaging(Saved(before.cfg, before.mode), After(later, GUARD_MS))
          || t.pc.job == Settling(Saved(before.cfg, before.mode)))
      && t.back.cal == AccumulateAll(now, frames) && t.back.offsets == before.offsets && t.back.averaged == 0
      && t.back.start == before.start && t.back.stop == before.stop
  }

  lemma AccumulateSnoc(start: Tick, frames: seq<Timed>, f: Timed)
    ensures var a := AccumulateAll(start, frames);
            AccumulateAll(start, frames + [f]) == if a.active then Accumulate(a, f.sample, f.at) else a
  {
    assert (frames + [f])[..|frames|] == frames;
  }

  lemma StoringKeepsCalibration(b: Back, s: Sample)
    ensures var c := StoreSample(b, s);
            && c.cal == b.cal && c.offsets == b.offsets && c.averaged == b.averaged && c.cfg == b.cfg
            && c.start == b.start && c.stop == b.stop
  {
    hide QueuedBytes;
  }

  /** Processing one frame. */
  lemma ReadingAccount(t: Sys, env: Env, before: Back, now: Tick, later: Tick, frames: seq<Timed>)
    requires Account(t, before, now, later, frames) && t.pc.Reading?
    ensures Account(Next(t, Main(env)), before, now, later, frames + ParsedBy(t, Main(env)))
  {
    var f := t.front.ring.slots[t.pc.slot];
    ParseReadsWords(f);
    hide AccumulateAll, Accumulate, StoreSample, Parse, WordsOf, Counts, Meaning, ParseSlot;
    StoringKeepsCalibration(t.back, Parse(f));
    StatusIsFirstWord(WordsOf(f));
    if ParsedBy(t, Main(env)) == [] {
      assert frames + [] == frames;
    } else {
      AccumulateSnoc(now, frames, Timed(Parse(f), env.now));
    }
  }

  lemma StatusIsFirstWord(ws: FrameWords)
    ensures Meaning(ws).response == ws[0] / 256
  {}

  lemma FinishAccount(t: Sys, env: Env, before: Back, now: Tick, later: Tick, frames: seq<Timed>)
    requires Account(t, before, now, later, frames) && t.pc.Ending?
    ensures Account(Next(t, Main(env)), before, now, later, frames)
  {
    hide AccumulateAll, Means, AbortAll, Reached;
  }

  lemma LoopAccount(t: Sys, env: Env, before: Back, now: Tick, later: Tick, frames: seq<Timed>)
    requires Account(t, before, now, later, frames) && t.pc != AtPoll && !t.pc.Ending? && !t.pc.Reading?
    ensures Account(Next(t, Main(env)), before, now, later, frames)
  {
    hide AccumulateAll, Means, Begin, Begins, TakeFrame, MayTake, After;
  }

  lemma InterruptAccount(t: Sys, step: Step, before: Back, now: Tick, later: Tick, frames: seq<Timed>)
    requires Account(t, before, now, later, frames) && !step.Main?
    ensures Account(Next(t, step), before, now, later, frames)
  {
    hide AccumulateAll, Means, After, OnDrdy, OnDone, OnFail, OnBytes;
    InterruptsUntouched(t.front, if step.Bytes? then true else step.halOk, if step.Bytes? then step.frame else Blank());
  }

  lemma StepAccount(t: Sys, step: Step, before: Back, now: Tick, later: Tick, frames: seq<Timed>)
    requires Account(t, before, now, later, frames) && PollOf(t, step) == []
    ensures Account(Next(t, step), before, now, later, frames + ParsedBy(t, step))
  {
    hide Account, Next;
    assert frames + [] == frames;
    if !step.Main? {
      InterruptAccount(t, step, before, now, later, frames);
    } else if t.pc.Reading? {
      ReadingAccount(t, step.env, before, now, later, frames);
    } else if t.pc.Ending? {
      FinishAccount(t, step.env, before, now, later, frames);
    } else {
      LoopAccount(t, step.env, before, now, later, frames);
    }
  }

  lemma BeginAccount(s: Sys, env: Env)
    requires s.pc == AtPoll && s.front.state == MachineState.Idle && env.poll == Serve(Calibrate)
    ensures var r := Next(s, Main(env));
            Account(r, s.back, env.now, env.later, []) && r.pc != AtPoll && r.pc.job.Averaging?
  {
    hide AbortAll, After, StartAccumulator;
  }

  /** As long as no other pass or command is carried out, the account holds. */
  lemma {:induction false} AccountHolds(s: Sys, env: Env, steps: seq<Step>)
    requires s.pc == AtPoll && s.front.state == MachineState.Idle && env.poll == Serve(Calibrate)
    requires PollsFrom(Next(s, Main(env)), steps) == []
    ensures var r := Next(s, Main(env));
            Account(Execute(r, steps), s.back, env.now, env.later, TimedFrom(r, steps))
  {
    hide Account, Next, ParsedBy;
    var r := Next(s, Main(env));
    if steps == [] {
      BeginAccount(s, env);
    } else {
      var n := |steps| - 1;
      AccountHolds(s, env, steps[..n]);
      StepAccount(Execute(r, steps[..n]), steps[n], s.back, env.now, env.later, TimedFrom(r, steps[..n]));
    }
  }

  // ----- the clock -----

  lemma ClockSnoc(first: Tick, s: Sys, steps: seq<Step>)
    requires steps != []
    ensures var n := |steps| - 1;
            Clock(first, s, steps) == Clock(first, s, steps[..n]) + TickOf(Execute(s, steps[..n]), steps[n])
  {}

  lemma ParsedIsTimed(t: Sys, step: Step)
    ensures |TickOf(t, step)| <= 1
    ensures ParsedBy(t, step) != [] ==>
              |ParsedBy(t, step)| == 1 && TickOf(t, step) == [ParsedBy(t, step)[0].at]
  {}

  /** At most one tick more: the front stays in order, and the last does not go back. */
  lemma OrderlyFront(start: Tick, ticks: seq<Tick>, more: seq<Tick>)
    requires ticks != [] && |more| <= 1 && Orderly(start, ticks + more)
    ensures Orderly(start, ticks)
    ensures Elapsed(start, LastOf(ticks)) <= Elapsed(start, LastOf(ticks + more)) < 0x8000_0000
  {
    if more == [] {
      assert ticks + more == ticks;
    } else {
      assert (ticks + more)[..|ticks|] == ticks;
    }
  }

  lemma OneMoreInOrder(start: Tick, frames: seq<Timed>, f: Timed, last: Tick)
    requires InOrder(start, frames) && Elapsed(start, last) <= Elapsed(start, f.at) < 0x8000_0000
    requires frames != [] ==> Elapsed(start, frames[|frames| - 1].at) <= Elapsed(start, last)
    ensures InOrder(start, frames + [f])
  {
    hide Elapsed;
  }

  /** Frames processed in order, none after the last tick. */
  ghost predicate Timely(start: Tick, frames: seq<Timed>, last: Tick) {
    InOrder(start, frames) && (frames != [] ==> Elapsed(start, frames[|frames| - 1].at) <= Elapsed(start, last))
  }

  /** One step more: at most one frame, processed at the step's tick. */
  lemma TimelySnoc(start: Tick, frames: seq<Timed>, ticks: seq<Tick>, parsed: seq<Timed>, more: seq<Tick>)
    requires ticks != [] && Timely(start, frames, LastOf(ticks)) && Orderly(start, ticks + more) && |more| <= 1
    requires parsed != [] ==> |parsed| == 1 && more == [parsed[0].at]
    ensures Timely(start, frames + parsed, LastOf(ticks + more))
  {
    OrderlyFront(start, ticks, more);
    hide Orderly, Elapsed;
    if parsed == [] {
      assert frames + parsed == frames;
    } else {
      assert parsed == [parsed[0]];
      OneMoreInOrder(start, frames, parsed[0], LastOf(ticks));
    }
  }

  lemma NoFramesTimely(start: Tick, first: Tick)
    requires Orderly(start, [first])
    ensures Timely(start, [], first) && Elapsed(start, first) < 0x8000_0000
  {}

  /** When the clock is in order, so are the frames. */
  lemma {:induction false} FramesInOrder(start: Tick, first: Tick, s: Sys, steps: seq<Step>)
    requires Orderly(start, Clock(first, s, steps))
    ensures Timely(start, TimedFrom(s, steps), LastOf(Clock(first, s, steps)))
    ensures Elapsed(start, first) <= Elapsed(start, LastOf(Clock(first, s, steps))) < 0x8000_0000
  {
    hide Elapsed, Execute, Orderly, Timely, ParsedBy, TickOf;
    if steps == [] {
      assert Clock(first, s, steps) == [first];
      NoFramesTimely(start, first);
    } else {
      hide Clock, LastOf;
      var n := |steps| - 1;
      var t, ticks := Execute(s, steps[..n]), Clock(first, s, steps[..n]);
      ClockSnoc(first, s, steps);
      ParsedIsTimed(t, steps[n]);
      OrderlyFront(start, ticks, TickOf(t, steps[n]));
      FramesInOrder(start, first, s, steps[..n]);
      TimelySnoc(start, TimedFrom(s, steps[..n]), ticks, ParsedBy(t, steps[n]), TickOf(t, steps[n]));
    }
  }

  /** The guard runs out 15100 ms after its own reading of the clock, and stays so for 2^31 ms. */
  lemma GuardIff(later: Tick, tick: Tick)
    ensures Reached(tick, After(later, GUARD_MS)) <==> 15100 <= Elapsed(later, tick) < 15100 + 0x8000_0000
  {
    ReachedAfter(later, tick, GUARD_MS);
  }

  /** The guard runs out after the end of the window, as long as the clock is in order. */
  lemma GuardAfterWindow(now: Tick, later: Tick, tick: Tick)
    requires Elapsed(now, later) <= Elapsed(now, tick) < 0x8000_0000
    requires Reached(tick, After(later, GUARD_MS))
    ensures Elapsed(now, tick) >= GUARD_MS > IGNORE_MS + AVERAGE_MS
  {
    ReachedAfter(later, tick, GUARD_MS);
    ElapsedSplits(now, later, tick);
  }

  lemma ElapsedSplits(now: Tick, later: Tick, tick: Tick)
    requires Elapsed(now, later) <= Elapsed(now, tick)
    ensures (tick - later) % TWO32 == Elapsed(now, tick) - Elapsed(now, later)
  {
    var d := Elapsed(now, tick) - Elapsed(now, later);
    var p, q := (tick - now) / TWO32, (later - now) / TWO32;
    assert tick - now == TWO32 * p + Elapsed(now, tick) && later - now == TWO32 * q + Elapsed(now, later);
    assert tick - later == d + TWO32 * (p - q);
    WholeTurns(d, p - q);
  }

  // ----- leaving the loop -----

  /** The loop of the calibration has been left. */
  predicate Left(t: Sys) {
    t.pc == AtPoll || t.pc.job.Settling?
  }

  lemma LeavingStep(t: Sys, step: Step)
    requires t.pc != AtPoll && t.pc.job.Averaging? && Left(Next(t, step))
    ensures step.Main? && t.pc.Ending? && TickOf(t, step) == [step.env.now]
    ensures !t.back.cal.active || Reached(step.env.now, t.pc.job.guardTick)
  {
    hide Begin, Begins, TakeFrame, MayTake, ParseSlot, StoreFrame, Parse, AbortAll, OnDrdy, OnDone, OnFail, OnBytes,
      WordsOf, Meaning;
  }

  /** The loop is only left once the window is over. */
  lemma LeavingTick(t: Sys, step: Step, before: Back, now: Tick, later: Tick, frames: seq<Timed>)
    requires Account(t, before, now, later, frames) && !Left(t) && Left(Next(t, step))
    requires step.Main? ==> Timely(now, frames, step.env.now)
    requires step.Main? ==> Elapsed(now, later) <= Elapsed(now, step.env.now) < 0x8000_0000
    ensures step.Main? && Elapsed(now, step.env.now) >= IGNORE_MS + AVERAGE_MS
  {
    LeavingStep(t, step);
    WindowIsAveraged(now, frames);
    hide AccumulateAll, Elapsed, InOrder, Next, After, Reached, Summed;
    if Reached(step.env.now, t.pc.job.guardTick) { GuardAfterWindow(now, later, step.env.now); }
  }

  /** When the clock is in order the loop lasts for the whole window. */
  lemma {:induction false} LoopLasts(s: Sys, env: Env, steps: seq<Step>)
    requires s.pc == AtPoll && s.front.state == MachineState.Idle && env.poll == Serve(Calibrate)
    requires PollsFrom(Next(s, Main(env)), steps) == []
    requires Orderly(env.now, Clock(env.later, Next(s, Main(env)), steps))
    ensures var r := Next(s, Main(env));
            Left(Execute(r, steps)) ==>
              Elapsed(env.now, LastOf(Clock(env.later, r, steps))) >= IGNORE_MS + AVERAGE_MS
  {
    hide Elapsed, Next, Account, Left, Orderly, Clock, Timely;
    var r := Next(s, Main(env));
    if steps == [] {
      BeginAccount(s, env);
      NotLeftYet(r, s.back, env.now, env.later);
    } else {
      var n := |steps| - 1;
      var t, ticks := Execute(r, steps[..n]), Clock(env.later, r, steps[..n]);
      ClockSnoc(env.later, r, steps);
      ParsedIsTimed(t, steps[n]);
      OrderlyFront(env.now, ticks, TickOf(t, steps[n]));
      LoopLasts(s, env, steps[..n]);
      if !Left(t) && Left(Next(t, steps[n])) {
        AccountHolds(s, env, steps[..n]);
        FramesInOrder(env.now, env.later, r, steps[..n]);
        var frames := TimedFrom(r, steps[..n]);
        StillAveraging(t, s.back, env.now, env.later, frames);
        LeavingStep(t, steps[n]);
        assert LastOf(ticks + TickOf(t, steps[n])) == steps[n].env.now;
        TimelyLater(env.now, frames, LastOf(ticks), steps[n].env.now);
        LeavingTick(t, steps[n], s.back, env.now, env.later, frames);
      }
    }
  }

  lemma NotLeftYet(t: Sys, before: Back, now: Tick, later: Tick)
    requires Account(t, before, now, later, []) && t.pc != AtPoll && t.pc.job.Averaging?
    ensures !Left(t)
  {
    hide Account;
  }

  lemma StillAveraging(t: Sys, before: Back, now: Tick, later: Tick, frames: seq<Timed>)
    requires Account(t, before, now, later, frames) && !Left(t)
    ensures t.pc != AtPoll && t.pc.job.Averaging?
  {
    hide AccumulateAll, After;
  }

  lemma TimelyLater(start: Tick, frames: seq<Timed>, last: Tick, tick: Tick)
    requires Timely(start, frames, last) && Elapsed(start, last) <= Elapsed(start, tick)
    ensures Timely(start, frames, tick)
  {
    hide InOrder, Elapsed;
  }

  // ----- the whole calibration -----

  lemma MeansAverage(a: Accumulator, window: seq<Sample>)
    requires Summed(a) && a.used == window && window != []
    ensures Averaged(Means(a), window)
  {
    forall c: nat | c < CAL_CHANNELS ensures Means(a)[c] == TruncatedDivide(Sum(window, c), |window|) {
      MeanOffsetIsMean(a, c);
      assert Means(a)[c] == MeanOffset(a, c);
    }
  }

  /**
   What a calibration averages and leaves behind. A calibration is begun at rest, its accumulator at `env.now`
   and its guard at `env.later`, and no other pass or command is carried out until it returns. When the clock
   readings are in order, its loop lasts for the whole window, and the offsets left are the truncated means,
   channel by channel, of exactly the valid frames processed 5000 to 15000 ms after the start, or the old
   offsets when there are none. Configuration and mode are those before; a start that was still waiting is lost
   if anything was averaged.
   */
  lemma {:induction false} CalibrationAveragesItsWindow(s: Sys, env: Env, steps: seq<Step>)
    requires s.pc == AtPoll && s.front.state == MachineState.Idle && env.poll == Serve(Calibrate)
    requires PollsFrom(Next(s, Main(env)), steps) == [] && Execute(Next(s, Main(env)), steps).pc == AtPoll
    requires Orderly(env.now, Clock(env.later, Next(s, Main(env)), steps))
    ensures var r := Next(s, Main(env)); var t := Execute(r, steps);
            && Elapsed(env.now, LastOf(Clock(env.later, r, steps))) >= IGNORE_MS + AVERAGE_MS
            && Calibrated(s.back, t.back, InWindow(env.now, TimedFrom(r, steps)))
            && t.front.state == MachineState.Idle && !t.front.armed
  {
    hide Elapsed, Next, Orderly, Clock, InWindow;
    var r := Next(s, Main(env));
    LoopLasts(s, env, steps);
    AccountHolds(s, env, steps);
    FramesInOrder(env.now, env.later, r, steps);
    var frames := TimedFrom(r, steps);
    hide Execute, TimedFrom, AccumulateAll;
    WindowIsAveraged(env.now, frames);
    hide Summed, InOrder;
    var a := AccumulateAll(env.now, frames);
    CountIsUsed(a);
    if a.used != [] { MeansAverage(a, a.used); }
  }

  lemma CountIsUsed(a: Accumulator)
    requires Summed(a)
    ensures a.count == |a.used|
  {}
}
