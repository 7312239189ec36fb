/**
 The acquisition core as the firmware runs it: the interrupt handlers and the main loop over the driver's
 ring (class Driver) and the stores (class Store), updated in place. `model` is the state of module Board
 the concrete state stands for, and `trace` the steps that led there from reset: every handler and every
 atomic piece of the main loop is one step, and interrupts may come between any two pieces.
 */
module DaqEngine {
  import opened Bytes
  import opened Packing
  import opened DmaRing
  import opened Calibration
  import opened Capture
  import opened Storage
  import opened Board
  import opened BoardTheorems
  import opened CalibrationRun
  import opened DaqStore

  /** Where the main loop stands after the test of the calibration loop. */
  function AfterTest(ends: bool, saved: Saved, guardTick: Tick): Pc {
    if ends then Check(BLOCK_CAPACITY, Settling(saved)) else Claim(EVENTS_PER_RUN, Averaging(saved, guardTick))
  }

  /** A log run that began at rest, still stands and had no block refused. */
  predicate Trusted(run: Run) {
    run.kind == LogRun && run.fate != Reconfigured && !run.late && run.lost == 0
  }

  ghost function Answer(ok: bool, now: Tick): Env {
    Env(ok, ok, now, now, (i: nat) => ok, (i: nat) => ok, RunMachine)
  }

  /** The call of a calibration: its accumulator starts at `now`, its guard at `later`. */
  ghost function CalibrationCall(now: Tick, later: Tick): Env {
    Order(Calibrate).(now := now, later := later)
  }

  ghost function Order(c: Command): Env {
    Answer(true, 0).(poll := Serve(c))
  }

  /** The passes and commands of a run, in order. */
  function PollsOf(steps: seq<Step>): seq<Poll> {
    if steps == [] then []
    else
      var n := |steps| - 1;
      PollsOf(steps[..n]) + PollOf(Execute(Init(), steps[..n]), steps[n])
  }

  /** The polls of a run that goes on. */
  lemma {:induction false} PollsAppend(steps: seq<Step>, more: seq<Step>)
    ensures Execute(Init(), steps + more) == Execute(Execute(Init(), steps), more)
    ensures PollsOf(steps + more) == PollsOf(steps) + PollsFrom(Execute(Init(), steps), more)
  {
    hide Init, Next, PollOf;
    if more == [] {
      assert steps + more == steps;
    } else {
      var n := |more| - 1;
      PollsAppend(steps, more[..n]);
      assert (steps + more)[..|steps + more| - 1] == steps + more[..n];
    }
  }

  lemma PollsSnoc(steps: seq<Step>, step: Step)
    ensures PollsOf(steps + [step]) == PollsOf(steps) + PollOf(Execute(Init(), steps), step)
  {
    assert (steps + [step])[..|steps|] == steps;
  }

  function PassCount(polls: seq<Poll>): nat {
    if polls == [] then 0
    else PassCount(polls[..|polls| - 1]) + (if polls[|polls| - 1].RunMachine? then 1 else 0)
  }

  lemma PassCountSnoc(polls: seq<Poll>, poll: Poll)
    ensures PassCount(polls + [poll]) == PassCount(polls) + (if poll.RunMachine? then 1 else 0)
  {
    assert (polls + [poll])[..|polls|] == polls;
  }

  lemma ExecuteSnoc(s: Sys, steps: seq<Step>, step: Step)
    ensures Execute(s, steps + [step]) == Next(Execute(s, steps), step)
  {
    assert (steps + [step])[..|steps|] == steps;
  }

  class Engine {
    const adc: Driver
    const store: Store
    var pending: nat
    var armed: bool
    var state: MachineState
    /** The interrupt handlers' share of `dropped_buffers`; `store.dropped` is the main loop's. */
    var missed: nat
    ghost var trace: seq<Step>
    ghost var model: Sys

    /** The shared state is that of `f`, up to its ledger. */
    ghost predicate Shows(f: Front)
      reads this, adc, adc.rx
    {
      && adc.Valid() && adc.View() == f.ring
      && pending == f.pending && armed == f.armed && state == f.state && missed == f.dropped
    }

    ghost predicate Valid()
      reads this, adc, adc.rx, store, store.queue, store.queue.blocks, store.aggr
    {
      && Shows(model.front)
      && store.Valid() && store.View() == model.back
      && model == Execute(Init(), trace)
    }

    twostate predicate Stepped(step: Step)
      reads this
    {
      model == Next(old(model), step) && trace == old(trace) + [step]
      && PollsOf(trace) == old(PollsOf(trace)) + PollOf(old(model), step)
    }

    /** Since then the system has run on, and exactly these polls were carried out. */
    twostate predicate Ran(polls: seq<Poll>)
      reads this
    {
      old(trace) <= trace && PollsOf(trace) == old(PollsOf(trace)) + polls
    }

    constructor ()
      ensures Valid() && trace == [] && model == Init()
      ensures fresh(adc) && fresh(adc.rx) && fresh(store) && fresh(store.queue) && fresh(store.queue.blocks)
      ensures fresh(store.aggr) && fresh(store.packBuffer)
    {
      var a := new Driver();
      var s := new Store();
      adc, store := a, s;
      pending, armed, state, missed := 0, false, MachineState.Idle, 0;
      trace, model := [], Init();
    }

    ghost method Record(step: Step)
      requires model == Execute(Init(), trace)
      modifies this`model, this`trace
      ensures Stepped(step) && model == Execute(Init(), trace)
    {
      ExecuteSnoc(Init(), trace, step);
      PollsSnoc(trace, step);
      hide PollsOf, PollOf, Execute, Next, Init;
      model := Next(model, step);
      trace := trace + [step];
    }

    // ----- interrupt handlers -----

    /** `DAQ_TryStartAdcDmaFromIsr`. */
    method TryStartAdcDmaFromIsr(halOk: bool, ghost f: Front)
      requires Shows(f)
      modifies `pending, `missed, adc, adc.rx
      ensures Shows(TryStart(f, halOk))
    {
      hide Driver.Valid, Driver.View;
      var busy := adc.IsReadDmaBusy();
      if !armed || state != Acquiring || pending == 0 || busy {
        return;
      }
      pending := pending - 1;
      var started := adc.StartReadAllChannelDataDma(halOk);
      if !started {
        pending := pending + 1;
        missed := missed + 1;
      }
    }

    /** `DAQ_OnAdcDrdyFromIsr`. */
    method OnAdcDrdyFromIsr(halOk: bool)
      requires Valid()
      modifies this, adc, adc.rx
      ensures Valid() && Stepped(Drdy(halOk))
    {
      hide Driver.Valid, Driver.View, Store.Valid, Store.View, Execute, Init, PollsOf, TryStart;
      if armed && state == Acquiring {
        pending := pending + 1;
        TryStartAdcDmaFromIsr(halOk, Accepted(model.front));
      }
      Record(Drdy(halOk));
    }

    /** The DMA controller writing received bytes. */
    method OnDmaBytes(frame: Frame)
      requires Valid()
      modifies this, adc, adc.rx
      ensures Valid() && Stepped(Step.Bytes(frame))
    {
      hide Driver.Valid, Driver.View, Store.Valid, Store.View, Execute, Init, PollsOf, Receive;
      adc.TransferBytes(frame);
      Record(Step.Bytes(frame));
    }

    /** The SPI completion interrupt. */
    method OnAdcDmaCompleteFromIsr(halOk: bool)
      requires Valid()
      modifies this, adc, adc.rx
      ensures Valid() && Stepped(Done(halOk))
    {
      hide Driver.Valid, Driver.View, Store.Valid, Store.View, Execute, Init, PollsOf, TryStart, Complete;
      var inFlight := adc.IsReadDmaBusy();
      if inFlight {
        adc.DmaTxRxCpltCallback();
        TryStartAdcDmaFromIsr(halOk, Completed(model.front));
      }
      Record(Done(halOk));
    }

    /** The SPI error interrupt. */
    method OnAdcDmaErrorFromIsr(halOk: bool)
      requires Valid()
      modifies this, adc, adc.rx
      ensures Valid() && Stepped(Step.Fail(halOk))
    {
      hide Driver.Valid, Driver.View, Store.Valid, Store.View, Execute, Init, PollsOf, TryStart, DmaRing.Fail;
      var inFlight := adc.IsReadDmaBusy();
      if inFlight {
        adc.DmaErrorCallback();
        missed := missed + 1;
        TryStartAdcDmaFromIsr(halOk, Errored(model.front));
      }
      Record(Step.Fail(halOk));
    }

    // ----- the atomic pieces of the main loop's two inner loops -----

    /** The critical section at the head of the loop of `DAQ_ServiceAdcPending`. */
    method ClaimEvent() returns (hasEvent: bool)
      requires Valid() && model.pc.Claim? && model.pc.left > 0
      modifies this
      ensures Valid() && Stepped(Main(Answer(true, 0)))
      ensures hasEvent == (old(model).front.pending != 0)
    {
      hide Driver.Valid, Driver.View, Store.Valid, Store.View, Execute, Init, PollsOf;
      hasEvent := false;
      if pending != 0 {
        pending := pending - 1;
        hasEvent := true;
      }
      Record(Main(Answer(true, 0)));
    }

    method StartClaimed(halOk: bool) returns (started: bool)
      requires Valid() && model.pc.StartNext?
      modifies this, adc, adc.rx
      ensures Valid() && Stepped(Main(Answer(halOk, 0))) && started == Begins(old(model).front, halOk)
    {
      hide Driver.Valid, Driver.View, Store.Valid, Store.View, Execute, Init, PollsOf, Start;
      started := adc.StartReadAllChannelDataDma(halOk);
      assert adc.View() == Begin(model.front, halOk).ring by { BeginRing(model.front, halOk); }
      Record(Main(Answer(halOk, 0)));
    }

    /** The critical section that returns the event. */
    method ReturnEvent()
      requires Valid() && model.pc.GiveBack?
      modifies this
      ensures Valid() && Stepped(Main(Answer(true, 0)))
    {
      hide Driver.Valid, Driver.View, Store.Valid, Store.View, Execute, Init, PollsOf;
      pending := pending + 1;
      Record(Main(Answer(true, 0)));
    }

    /** The end of a loop whose budget is used up. */
    ghost method LeaveLoop()
      requires Valid() && (model.pc.Claim? || model.pc.Check?) && model.pc.left == 0
      modifies this`model, this`trace
      ensures Valid() && Stepped(Main(Answer(true, 0)))
    {
      hide Driver.Valid, Driver.View, Store.Valid, Store.View, Execute, Init, PollsOf;
      Record(Main(Answer(true, 0)));
    }

    /** `ADS131M08_TakeDmaFrame` up to its critical section. */
    method CheckFrame() returns (may: bool)
      requires Valid() && model.pc.Check? && model.pc.left > 0
      modifies this
      ensures Valid() && Stepped(Main(Answer(true, 0))) && may == MayTake(old(model).front.ring)
    {
      hide Driver.Valid, Driver.View, Store.Valid, Store.View, Execute, Init, PollsOf, MayTake;
      may := adc.MayTakeFrame();
      Record(Main(Answer(true, 0)));
    }

    /** Its critical section. */
    method GrabFrame() returns (taken: bool, slot: nat)
      requires Valid() && model.pc.Grab?
      modifies this, adc
      ensures Valid() && Stepped(Main(Answer(true, 0)))
      ensures taken == (old(model).front.ring.count > 0) && slot == old(model).front.ring.tail
    {
      hide Driver.Valid, Driver.View, Store.Valid, Store.View, Execute, Init, PollsOf;
      taken, slot := adc.TakeSlot();
      Record(Main(Answer(true, 0)));
    }

    /** `parseAllChannelFrame` on the slot taken. */
    method ParseTaken(slot: SlotIndex) returns (s: Sample)
      requires Valid()
      ensures s == Parse(model.front.ring.slots[slot])
    {
      hide Driver.Valid, Driver.View, Store.Valid, Store.View, Execute, Init, Parse, Meaning, WordsOf;
      s := adc.ParseSlot(slot);
    }

    /** Parsing the slot and `DAQ_StoreAdcFrame`. */
    method StoreFrom(slot: SlotIndex, now: Tick)
      requires Valid() && model.pc.Reading? && model.pc.slot == slot
      modifies this, store, store.queue, store.queue.blocks, store.aggr
      ensures Valid() && Stepped(Main(Answer(true, now)))
    {
      OpenBlockHasRoom();
      ReadingStep(model, now);
      hide Driver.Valid, Driver.View, Store.Valid, Store.View, Execute, Init, PollsOf, StoreFrame, Parse,
        WriteQueue.Valid, Holds, Next;
      var s := ParseTaken(slot);
      store.StoreAdcFrame(s, now);
      Record(Main(Answer(true, now)));
    }

    /** The array index in the aggregation block is in bounds because the invariant holds in every run. */
    lemma OpenBlockHasRoom()
      requires Valid()
      ensures store.aggrCount < BLOCK_CAPACITY
    {
      hide Driver.Valid, Driver.View, Execute, Init, PollsOf, FrontOk, RunOk, Shape, Quiet, Regular, Overtaken,
        Provenance;
      EveryRun(trace);
    }

    // ----- the loops -----

    /** Any number of interrupts, of any kind, in any order. */
    method Interrupts()
      requires Valid()
      modifies this, adc, adc.rx
      ensures Valid() && Ran([])
      ensures model.pc == old(model).pc && model.back == old(model).back && model.front.state == old(model).front.state
    {
      hide Driver.Valid, Driver.View, Store.Valid, Store.View, Execute, Init, PollsOf, OnDrdy, OnBytes, OnDone,
        OnFail, Valid;
      var n: nat := *;
      while n > 0
        invariant Valid() && Ran([])
        invariant model.pc == old(model).pc && model.back == old(model).back
        invariant model.front.state == old(model).front.state
      {
        var kind: int, halOk: bool, frame: Frame := *, *, *;
        InterruptsUntouched(model.front, halOk, frame);
        if kind == 0 {
          OnAdcDrdyFromIsr(halOk);
        } else if kind == 1 {
          OnDmaBytes(frame);
        } else if kind == 2 {
          OnAdcDmaCompleteFromIsr(halOk);
        } else {
          OnAdcDmaErrorFromIsr(halOk);
        }
        n := n - 1;
      }
    }

    /** `DAQ_ServiceAdcPending`. */
    method ServiceAdcPending(maxEvents: nat)
      requires Valid() && model.pc.Claim? && model.pc.left == maxEvents
      modifies this, adc, adc.rx
      ensures Valid() && Ran([])
      ensures model.pc == Check(FrameBudget(old(model).pc.job), old(model).pc.job)
    {
      hide Driver.Valid, Driver.View, Store.Valid, Store.View, Execute, Init, PollsOf, Valid, Begin, Begins,
        ClaimPending, ReturnPending;
      var processed := 0;
      while processed < maxEvents
        invariant processed <= maxEvents
        invariant Valid() && Ran([])
        invariant model.pc == Claim(maxEvents - processed, old(model).pc.job)
      {
        Interrupts();
        var hasEvent := ClaimEvent();
        if !hasEvent {
          return;
        }
        Interrupts();
        var halOk: bool := *;
        var started := StartClaimed(halOk);
        if !started {
          Interrupts();
          ReturnEvent();
          return;
        }
        processed := processed + 1;
      }
      LeaveLoop();
    }

    /** `DAQ_ServiceCapturedSamples`. */
    method ServiceCapturedSamples(maxSamples: nat)
      requires Valid() && model.pc.Check? && model.pc.left == maxSamples
      modifies this, adc, adc.rx, store, store.queue, store.queue.blocks, store.aggr
      ensures Valid() && Ran([])
      ensures model.pc == Ending(old(model).pc.job)
    {
      hide Driver.Valid, Driver.View, Store.Valid, Store.View, Execute, Init, PollsOf, Valid, MayTake, TakeFrame,
        ParseSlot, StoreFrame, Parse;
      var processed := 0;
      while processed < maxSamples
        invariant processed <= maxSamples
        invariant Valid() && Ran([])
        invariant model.pc == Check(maxSamples - processed, old(model).pc.job)
      {
        Interrupts();
        var may := CheckFrame();
        if !may {
          return;
        }
        Interrupts();
        var taken, slot := GrabFrame();
        if !taken {
          return;
        }
        Interrupts();
        var now: Tick := *;
        StoreFrom(slot, now);
        processed := processed + 1;
      }
      LeaveLoop();
    }

    // ----- what follows the loops -----

    /** The end of an acquiring pass. */
    method EndServing(writeOk: bool)
      requires Valid() && model.pc == Ending(Serving)
      modifies this, store, store.queue, store.packBuffer
      ensures Valid() && model.pc == AtPoll && Ran([])
    {
      hide Driver.Valid, Driver.View, Store.Valid, Store.View, Execute, Init, PollsOf, ServiceWrite;
      store.ServicePendingWrites(writeOk);
      Record(Main(Answer(writeOk, 0)));
    }

    /** The end of `DAQ_Shutdown`, in STOPPING. */
    method EndShutdown()
      requires Valid() && model.pc == Ending(Halting)
      modifies this, store, store.queue, store.queue.blocks
      ensures Valid() && model.pc == AtPoll && Ran([])
    {
      hide Driver.Valid, Driver.View, Store.Valid, Store.View, Execute, Init, PollsOf, Flush;
      store.FlushAggregate();
      armed := false;
      state := Finalizing;
      Record(Main(Answer(true, 0)));
    }

    // ----- one pass of the state machine -----

    method PassIdle()
      requires Valid() && model.pc == AtPoll && state == MachineState.Idle
      modifies this, store
      ensures Valid() && model.pc == AtPoll && Ran([RunMachine])
    {
      hide Driver.Valid, Driver.View, Store.Valid, Execute, Init, PollsOf, BeginRun;
      if store.start {
        store.SetEvents(false, store.stop);
        state := Preparing;
      } else {
        store.SetEvents(false, false);
      }
      Record(Main(Answer(true, 0)));
    }

    /** `DAQ_Startup`; on this board arming cannot fail. */
    method PassPreparing()
      requires Valid() && model.pc == AtPoll && state == Preparing
      modifies this, store
      ensures Valid() && model.pc == AtPoll && Ran([RunMachine])
    {
      hide Driver.Valid, Driver.View, Store.Valid, Store.View, Execute, Init, PollsOf;
      store.ClearBlock();
      armed := true;
      state := Acquiring;
      Record(Main(Answer(true, 0)));
    }

    method PassAcquiring() returns (serving: bool)
      requires Valid() && model.pc == AtPoll && state == Acquiring
      modifies this, store
      ensures Valid() && Ran([RunMachine])
      ensures model.pc == if serving then Claim(EVENTS_PER_RUN, Serving) else AtPoll
    {
      hide Driver.Valid, Driver.View, Store.Valid, Execute, Init, PollsOf;
      serving := !store.stop;
      if store.stop {
        store.SetEvents(store.start, false);
        state := Stopping;
      }
      Record(Main(Answer(true, 0)));
    }

    /** The abort that opens `DAQ_Shutdown`, in STOPPING. */
    method PassStopping()
      requires Valid() && model.pc == AtPoll && state == Stopping
      modifies this, adc
      ensures Valid() && model.pc == Check(BLOCK_CAPACITY, Halting) && Ran([RunMachine])
    {
      hide Driver.Valid, Driver.View, Store.Valid, Store.View, Execute, Init, PollsOf, Abort;
      adc.AbortReadDma();
      Record(Main(Answer(true, 0)));
    }

    method PassFinalizing(writeOk: bool, closeOk: bool)
      requires Valid() && model.pc == AtPoll && state == Finalizing
      modifies this, store, store.queue, store.packBuffer
      ensures Valid() && model.pc == AtPoll && Ran([RunMachine])
    {
      hide Driver.Valid, Driver.View, Store.Valid, Store.View, Execute, Init, PollsOf, ServiceWrite, CheckPending,
        Pending;
      store.ServicePendingWrites(writeOk);
      var pendingWrites := store.HasPendingWrites(armed, closeOk);
      if !pendingWrites {
        state := MachineState.Idle;
      }
      Record(Main(Answer(writeOk, 0).(closeOk := closeOk)));
    }

    /** `DAQ_StateMachine_Run`. */
    method StateMachineRun()
      requires Valid() && model.pc == AtPoll
      modifies this, adc, adc.rx, store, store.queue, store.queue.blocks, store.aggr, store.packBuffer
      ensures Valid() && model.pc == AtPoll && Ran([RunMachine])
    {
      hide Valid, Execute, Init, PollsOf;
      NeverFaulted();
      var writeOk: bool, closeOk: bool := *, *;
      match state {
        case Idle => PassIdle();
        case Preparing => PassPreparing();
        case Acquiring =>
          var serving := PassAcquiring();
          if serving {
            ServiceAdcPending(EVENTS_PER_RUN);
            ServiceCapturedSamples(SAMPLES_PER_RUN);
            EndServing(writeOk);
          }
        case Stopping =>
          PassStopping();
          ServiceCapturedSamples(BLOCK_CAPACITY);
          EndShutdown();
        case Finalizing => PassFinalizing(writeOk, closeOk);
        case Faulted => assert false;
      }
    }

    /** The error state is never entered. */
    lemma NeverFaulted()
      requires Valid()
      ensures state != Faulted
    {
      hide Driver.Valid, Driver.View, Store.Valid, Store.View, Execute, Init, PollsOf, FrontPart, BackPart, Quiet,
        Regular, Overtaken, Provenance;
      EveryRun(trace);
    }

    // ----- commands -----

    /** `DAQ_StartLogging`. */
    method StartLogging(cfg: Config, openStatus: int) returns (ok: bool)
      requires Valid() && model.pc == AtPoll
      modifies this, store, store.queue
      ensures Valid() && model.pc == AtPoll && Ran([Serve(StartLog(cfg, openStatus))])
          && ok == LoggingStarts(cfg, openStatus)
    {
      hide Driver.Valid, Driver.View, Store.Valid, Store.View, Execute, Init, PollsOf, Storage.StartLogging,
        LoggingStarts;
      ok := store.StartLog(cfg, openStatus, WindingUp(state), |model.front.log.parsed|);
      if ok {
        pending, missed := 0, 0;
      }
      Record(Main(Order(StartLog(cfg, openStatus))));
    }

    /** `DAQ_StartStreaming`. */
    method StartStreaming(cfg: Config) returns (ok: bool)
      requires Valid() && model.pc == AtPoll
      modifies this, store, store.queue
      ensures Valid() && model.pc == AtPoll && Ran([Serve(StartStream(cfg))]) && ok == ValidConfig(cfg)
    {
      hide Driver.Valid, Driver.View, Store.Valid, Store.View, Execute, Init, PollsOf, Storage.StartStreaming,
        ValidConfig;
      ok := store.StartStream(cfg, WindingUp(state), |model.front.log.parsed|);
      if ok {
        pending, missed := 0, 0;
      }
      Record(Main(Order(StartStream(cfg))));
    }

    /** `DAQ_Stop`. */
    method Stop()
      requires Valid() && model.pc == AtPoll
      modifies this, store, store.queue
      ensures Valid() && model.pc == AtPoll && Ran([Serve(StopRun)])
    {
      hide Driver.Valid, Driver.View, Store.Valid, Store.View, Execute, Init, PollsOf, Storage.Stop;
      store.StopCommand(Resting(state));
      if Resting(state) {
        armed := false;
      }
      Record(Main(Order(StopRun)));
    }

    /** `DAQ_StopAndClose` in a rest state. */
    method CloseAtRest(first: nat -> bool, second: nat -> bool, closeOk: bool) returns (clean: bool)
      requires Valid() && model.pc == AtPoll && Resting(state)
      modifies this, store, store.queue, store.queue.blocks, store.packBuffer
      ensures Valid() && Ran([Serve(StopClose)]) && Rested(model) && clean == (model.back.lastError == 0)
      ensures pending == 0 && !armed
    {
      hide Driver.Valid, Driver.View, Store.Valid, Store.View, Execute, Init, PollsOf, Storage.StopAndClose, RunOk,
        BackOk;
      CloseRests(first, second, closeOk);
      clean := store.CloseRun(false, first, second, closeOk);
      pending := 0;
      armed := false;
      state := MachineState.Idle;
      Record(Main(Env(true, closeOk, 0, 0, first, second, Serve(StopClose))));
    }

    /** From every state a run can reach, stopping and closing leaves nothing buffered and no log open. */
    lemma CloseRests(first: nat -> bool, second: nat -> bool, closeOk: bool)
      requires Valid()
      ensures forall running: bool ::
                var c := Storage.StopAndClose(model.back, running, first, second, closeOk);
                c.mode == NoMode && c.queue == [] && c.aggr == [] && !c.logOpen
    {
      hide Driver.Valid, Driver.View, Store.Valid, Store.View, Execute, Init, PollsOf, Storage.StopAndClose,
        FrontPart, RunOk, BackOk, Quiet, Regular, Overtaken, Provenance;
      EveryRun(trace);
      StopAndCloseKeeps(model.back, false, first, second, closeOk);
      StopAndCloseKeeps(model.back, true, first, second, closeOk);
    }

    /** The abort that opens `DAQ_Shutdown`, in `DAQ_StopAndClose`. */
    method BeginClosing()
      requires Valid() && model.pc == AtPoll && !Resting(state)
      modifies this, adc
      ensures Valid() && model.pc == Check(BLOCK_CAPACITY, Closing) && Ran([Serve(StopClose)])
    {
      hide Driver.Valid, Driver.View, Store.Valid, Store.View, Execute, Init, PollsOf, Abort;
      adc.AbortReadDma();
      Record(Main(Order(StopClose)));
    }

    method EndClosing(first: nat -> bool, second: nat -> bool, closeOk: bool) returns (clean: bool)
      requires Valid() && model.pc == Ending(Closing)
      modifies this, store, store.queue, store.queue.blocks, store.packBuffer
      ensures Valid() && Ran([]) && Rested(model) && clean == (model.back.lastError == 0)
      ensures pending == 0 && !armed
    {
      hide Driver.Valid, Driver.View, Store.Valid, Store.View, Execute, Init, PollsOf, Storage.StopAndClose, RunOk,
        BackOk;
      CloseRests(first, second, closeOk);
      clean := store.CloseRun(true, first, second, closeOk);
      pending := 0;
      armed := false;
      state := MachineState.Idle;
      Record(Main(Env(true, closeOk, 0, 0, first, second, RunMachine)));
    }

    /**
     `DAQ_StopAndClose`: whatever happens meanwhile, the machine is at rest and disarmed, with nothing buffered, no
     event waiting and no log open.
     */
    method StopAndClose(first: nat -> bool, second: nat -> bool, closeOk: bool) returns (clean: bool)
      requires Valid() && model.pc == AtPoll
      modifies this, adc, adc.rx, store, store.queue, store.queue.blocks, store.aggr, store.packBuffer
      ensures Valid() && Ran([Serve(StopClose)]) && Rested(model) && clean == (model.back.lastError == 0)
      ensures pending == 0 && !armed
      ensures clean && Trusted(store.run) ==> store.log == Pack(store.cfg.mask, store.run.stored)
    {
      hide Valid, Execute, Init, PollsOf;
      if Resting(state) {
        clean := CloseAtRest(first, second, closeOk);
      } else {
        BeginClosing();
        ServiceCapturedSamples(BLOCK_CAPACITY);
        clean := EndClosing(first, second, closeOk);
      }
      CleanCloseIsComplete(clean);
    }

    /** `DAQ_ReadStreamBlockShared`. */
    method ReadBlockShared(maxLen: nat) returns (ok: bool, bytesRead: nat, samplesRead: nat)
      requires Valid() && model.pc == AtPoll
      modifies this, store, store.queue
      ensures Valid() && model.pc == AtPoll && Ran([Serve(ReadBlock(maxLen))])
      ensures ok == Delivers(old(model).back, maxLen) && bytesRead == FRAME_SIZE * samplesRead
      ensures if ok then store.shared == old(model).back.queue[0] && samplesRead == |store.shared| else samplesRead == 0
    {
      hide Driver.Valid, Driver.View, Store.Valid, Store.View, Execute, Init, PollsOf, ReadStream;
      ok, bytesRead, samplesRead := store.ReadStreamBlockShared(maxLen);
      Record(Main(Order(ReadBlock(maxLen))));
    }

    // ----- offset calibration -----

    method CurrentSetup() returns (saved: Saved)
      requires Valid()
      ensures saved == Saved(model.back.cfg, model.back.mode)
    {
      hide Driver.Valid, Driver.View, Store.Valid, Execute, Init, PollsOf;
      saved := Saved(store.cfg, store.mode);
    }

    /** `now` starts the accumulator, `later` the guard: two readings of the clock. */
    method CalibrationSetup(now: Tick, later: Tick)
      requires Valid() && model.pc == AtPoll && state == MachineState.Idle
      modifies this, adc, store, store.queue
      ensures Valid() && Ran([Serve(Calibrate)]) && Stepped(Main(CalibrationCall(now, later)))
      ensures model.pc == Ending(Averaging(Saved(old(model).back.cfg, old(model).back.mode), After(later, GUARD_MS)))
    {
      hide Driver.Valid, Driver.View, Store.Valid, Store.View, Execute, Init, PollsOf, Abort, BeginCalibration;
      adc.AbortReadDma();
      store.CalibrationSetup(now);
      pending, missed := 0, 0;
      state := Acquiring;
      armed := true;
      Record(Main(CalibrationCall(now, later)));
    }

    /** The test of the loop: whether it is left, at tick `now`. */
    method AveragingEnds(now: Tick, guardTick: Tick, ghost saved: Saved) returns (ends: bool)
      requires Valid() && model.pc == Ending(Averaging(saved, guardTick))
      modifies this, adc
      ensures Valid() && Ran([]) && ends == (!old(model).back.cal.active || Reached(now, guardTick))
      ensures model.pc == AfterTest(ends, saved, guardTick)
    {
      hide Driver.Valid, Driver.View, Store.Valid, Execute, Init, PollsOf, Abort, Reached;
      ends := !store.cal.active || Reached(now, guardTick);
      if ends {
        armed := false;
        adc.AbortReadDma();
      }
      Record(Main(Answer(true, now)));
    }

    method CalibrationFinish(saved: Saved)
      requires Valid() && model.pc == Ending(Settling(saved))
      modifies this, store
      ensures Valid() && model.pc == AtPoll && Ran([])
    {
      hide Driver.Valid, Driver.View, Store.Valid, Store.View, Execute, Init, PollsOf, EndCalibration;
      store.CalibrationFinish(saved);
      pending := 0;
      armed := false;
      state := MachineState.Idle;
      Record(Main(Answer(true, 0)));
    }

    /** The loop of `DAQ_RunOffsetCalibration` and what follows it. */
    method AverageAndFinish(saved: Saved, guardTick: Tick, ticks: seq<Tick>)
      requires Valid() && model.pc == Ending(Averaging(saved, guardTick))
      requires ticks != [] && Reached(ticks[|ticks| - 1], guardTick)
      modifies this, adc, adc.rx, store, store.queue, store.queue.blocks, store.aggr
      ensures Valid() && model.pc == AtPoll && Ran([])
    {
      hide Valid, Execute, Init, PollsOf, Reached;
      var i := 0;
      var ends := AveragingEnds(ticks[i], guardTick, saved);
      while !ends
        invariant Valid() && Ran([]) && i < |ticks|
        invariant i == |ticks| - 1 ==> ends
        invariant model.pc == AfterTest(ends, saved, guardTick)
        decreases |ticks| - i
      {
        ServiceAdcPending(EVENTS_PER_RUN);
        ServiceCapturedSamples(SAMPLES_PER_RUN);
        i := i + 1;
        ends := AveragingEnds(ticks[i], guardTick, saved);
      }
      ServiceCapturedSamples(BLOCK_CAPACITY);
      CalibrationFinish(saved);
    }

    /**
     `DAQ_RunOffsetCalibration`; `ticks` are the readings of the loop test, which in the end pass the guard. What it
     did since is a run of the system that begins with its call and carries out nothing else. When the clock
     readings of that run are in order, the offsets left are the truncated means, channel by channel, of exactly
     the valid frames processed 5000 to 15000 ms after `now`, or the old ones when there are none, and the run
     lasted as long as that.
     */
    method RunOffsetCalibration(now: Tick, later: Tick, ticks: seq<Tick>) returns (ran: bool)
      requires Valid() && model.pc == AtPoll
      requires ticks != [] && Reached(ticks[|ticks| - 1], After(later, GUARD_MS))
      modifies this, adc, adc.rx, store, store.queue, store.queue.blocks, store.aggr
      ensures Valid() && model.pc == AtPoll && ran == (old(state) == MachineState.Idle)
      ensures Ran(if ran then [Serve(Calibrate)] else [])
      ensures !ran ==> model == old(model) && trace == old(trace)
      ensures ran ==>
                && old(trace) + [Main(CalibrationCall(now, later))] <= trace
                && var called := Next(old(model), Main(CalibrationCall(now, later)));
                   var during := trace[|old(trace)| + 1..];
                   && model == Execute(called, during) && PollsFrom(called, during) == []
                   && (Orderly(now, Clock(later, called, during)) ==>
                         && Elapsed(now, LastOf(Clock(later, called, during))) >= IGNORE_MS + AVERAGE_MS
                         && Calibrated(old(model).back, model.back, InWindow(now, TimedFrom(called, during)))
                         && store.offsets == model.back.offsets && store.averaged == model.back.averaged)
    {
      hide Valid, Execute, Init, PollsOf, After, Reached, PollsFrom, Calibrated, Orderly, Clock, TimedFrom, InWindow,
        Next, CalibrationCall;
      if state != MachineState.Idle {
        return false;
      }
      var saved := CurrentSetup();
      IdleModel();
      CalibrationSetup(now, later);
      ghost var before, called := trace, model;
      ModelOfTrace();
      AverageAndFinish(saved, After(later, GUARD_MS), ticks);
      ran := true;
      NothingElse(before);
      OffsetsShown();
      CalibrationResult(old(model), now, later, trace[|before|..]);
      assert trace[|before|..] == trace[|old(trace)| + 1..];
    }

    lemma ModelOfTrace()
      requires Valid()
      ensures model == Execute(Init(), trace)
    {
      hide Driver.Valid, Driver.View, Store.Valid, Store.View, Execute, Init;
    }

    lemma IdleModel()
      requires Valid()
      ensures model.front.state == state
    {
      hide Driver.Valid, Driver.View, Store.Valid, Store.View, Execute, Init;
    }

    lemma OffsetsShown()
      requires Valid()
      ensures store.offsets == model.back.offsets && store.averaged == model.back.averaged
    {
      hide Driver.Valid, Driver.View, Execute, Init;
    }

    /** A run since `before` whose polls are still those of then has carried out nothing. */
    lemma NothingElse(before: seq<Step>)
      requires Valid() && before <= trace && PollsOf(trace) == PollsOf(before)
      ensures model == Execute(Execute(Init(), before), trace[|before|..])
      ensures PollsFrom(Execute(Init(), before), trace[|before|..]) == []
    {
      hide Driver.Valid, Driver.View, Store.Valid, Store.View, Execute, Init, PollsOf, PollsFrom;
      var more := trace[|before|..];
      assert before + more == trace;
      PollsAppend(before, more);
      NoMore(PollsOf(before), PollsFrom(Execute(Init(), before), more));
    }

    // ----- the superloop -----

    /** One command, if there is one, as the message handler of the superloop passes it on. */
    method ServeCommand() returns (ghost polls: seq<Poll>)
      requires Valid() && model.pc == AtPoll
      modifies this, adc, adc.rx, store, store.queue, store.queue.blocks, store.aggr, store.packBuffer
      ensures Valid() && model.pc == AtPoll && Ran(polls)
      ensures forall poll :: poll in polls ==> poll.Serve?
    {
      hide Valid, Execute, Init, PollsOf;
      polls := [];
      var kind: int, cfg: Config, answer: int, maxLen: nat := *, *, *, *;
      if kind == 0 {
        var ok := StartLogging(cfg, answer);
        polls := [Serve(StartLog(cfg, answer))];
      } else if kind == 1 {
        var ok := StartStreaming(cfg);
        polls := [Serve(StartStream(cfg))];
      } else if kind == 2 {
        Stop();
        polls := [Serve(StopRun)];
      } else if kind == 3 {
        var first: seq<bool>, second: seq<bool>, closeOk: bool := *, *, *;
        var clean := StopAndClose((i: nat) => i < |first| && first[i], (i: nat) => i < |second| && second[i], closeOk);
        polls := [Serve(StopClose)];
      } else if kind == 4 {
        var ok, bytesRead, samplesRead := ReadBlockShared(maxLen);
        polls := [Serve(ReadBlock(maxLen))];
      } else if kind == 5 {
        var now: Tick, later: Tick, ticks: seq<Tick> := *, *, *;
        if ticks != [] && Reached(ticks[|ticks| - 1], After(later, GUARD_MS)) {
          var ran := RunOffsetCalibration(now, later, ticks);
          polls := if ran then [Serve(Calibrate)] else [];
        }
      }
    }

    /** Any number of commands, with interrupts between them. */
    method ServeCommands() returns (ghost polls: seq<Poll>)
      requires Valid() && model.pc == AtPoll
      modifies this, adc, adc.rx, store, store.queue, store.queue.blocks, store.aggr, store.packBuffer
      ensures Valid() && model.pc == AtPoll && Ran(polls)
      ensures forall poll :: poll in polls ==> poll.Serve?
    {
      hide Valid, Execute, Init, PollsOf;
      polls := [];
      var n: nat := *;
      assert PollsOf(trace) == old(PollsOf(trace)) + [];
      while n > 0
        invariant Valid() && model.pc == AtPoll && Ran(polls)
        invariant forall poll :: poll in polls ==> poll.Serve?
      {
        ghost var before := PollsOf(trace);
        Interrupts();
        assert PollsOf(trace) == before;
        ghost var more := ServeCommand();
        assert old(PollsOf(trace)) + polls + more == old(PollsOf(trace)) + (polls + more);
        polls := polls + more;
        n := n - 1;
      }
    }

    /** One round: any commands, then one pass of the machine, interrupts at any point. */
    method Round()
      requires Valid() && model.pc == AtPoll
      modifies this, adc, adc.rx, store, store.queue, store.queue.blocks, store.aggr, store.packBuffer
      ensures Valid() && model.pc == AtPoll && old(trace) <= trace
      ensures PassCount(PollsOf(trace)) == old(PassCount(PollsOf(trace))) + 1
    {
      hide Valid, Execute, Init, PollsOf, PassCount;
      ghost var before := PollsOf(trace);
      ghost var polls := ServeCommands();
      ghost var between := PollsOf(trace);
      Interrupts();
      assert PollsOf(trace) == between;
      StateMachineRun();
      OneRound(before, polls);
    }

    /**
     The main loop of the application core, for any number of rounds, with any commands and any interrupts:
     every state it reaches is one a run of module Board reaches, so the invariant holds of it.
     */
    method Superloop(rounds: nat)
      requires Valid() && model.pc == AtPoll
      modifies this, adc, adc.rx, store, store.queue, store.queue.blocks, store.aggr, store.packBuffer
      ensures Valid() && model.pc == AtPoll && old(trace) <= trace && Inv(model)
      ensures PassCount(PollsOf(trace)) == old(PassCount(PollsOf(trace))) + rounds
    {
      hide Valid, Execute, Init, PollsOf, PassCount, Inv;
      var round := 0;
      while round < rounds
        invariant Valid() && model.pc == AtPoll && old(trace) <= trace && round <= rounds
        invariant PassCount(PollsOf(trace)) == old(PassCount(PollsOf(trace))) + round
      {
        Round();
        round := round + 1;
      }
      InvariantHolds();
    }

    lemma InvariantHolds()
      requires Valid()
      ensures Inv(model)
    {
      hide Driver.Valid, Driver.View, Store.Valid, Store.View, Execute, Init, PollsOf, Inv;
      EveryRun(trace);
    }

    /**
     The file of a finished log run: with no block refused and none unwritten, and no later command
     reconfiguring the run, it is the packing of every sample stored, exactly when the start was not handled
     while an earlier run was being wound up, or nothing was stored.
     */
    lemma FileIsComplete()
      requires Valid() && state == MachineState.Idle
      requires store.run.kind == LogRun && store.run.fate != Reconfigured && store.run.lost == 0
          && store.run.unsaved == 0
      ensures store.log == Pack(store.cfg.mask, store.run.stored) <==> !store.run.late || store.run.stored == []
    {
      hide Driver.Valid, Driver.View, Store.Valid, Execute, Init, PollsOf, Pack;
      FinishedLogIsComplete(trace);
    }

    /** A clean answer can be trusted: with no block refused, the file holds every sample stored. */
    lemma CleanCloseIsComplete(clean: bool)
      requires Valid() && Rested(model) && clean == (model.back.lastError == 0)
      ensures clean && Trusted(store.run) ==> store.log == Pack(store.cfg.mask, store.run.stored)
    {
      StatusIsTrue(trace);
      assert store.View() == model.back && state == model.front.state;
      hide Driver.Valid, Driver.View, Store.Valid, Execute, Init, PollsOf, Pack;
      if clean && Trusted(store.run) {
        FinishedLogIsComplete(trace);
      }
    }

    /** As long as the run is undisturbed and in its mode, the byte counters account for every pushed block. */
    lemma CountersAreExact()
      requires Valid() && store.run.fate == Intact && InMode(store.View())
      ensures store.bytesQueued + store.bytesWritten == |Flatten(store.run.pushed)| * Unit(store.View())
      ensures store.bytesWritten == |Flatten(store.run.written)| * Unit(store.View())
    {
      hide Driver.Valid, Driver.View, Store.Valid, Execute, Init, PollsOf, Unit, InMode;
      BytesAreConserved(trace);
    }
  }

  lemma {:induction false} OnlyCommands(before: seq<Poll>, polls: seq<Poll>)
    requires forall poll :: poll in polls ==> poll.Serve?
    ensures PassCount(before + polls) == PassCount(before)
    decreases |polls|
  {
    if polls == [] {
      assert before + polls == before;
    } else {
      var n := |polls| - 1;
      assert polls[n] in polls && before + polls == (before + polls[..n]) + [polls[n]];
      OnlyCommands(before, polls[..n]);
      PassCountSnoc(before + polls[..n], polls[n]);
    }
  }

  lemma OneRound(before: seq<Poll>, polls: seq<Poll>)
    requires forall poll :: poll in polls ==> poll.Serve?
    ensures PassCount(before + polls + [RunMachine]) == PassCount(before) + 1
  {
    OnlyCommands(before, polls);
    PassCountSnoc(before + polls, RunMachine);
  }

  lemma NoMore<T>(a: seq<T>, b: seq<T>)
    requires a + b == a
    ensures b == []
  {
    assert |a + b| == |a| + |b|;
  }

  lemma CalibrationResult(s: Sys, now: Tick, later: Tick, during: seq<Step>)
    requires s.pc == AtPoll && s.front.state == MachineState.Idle
    requires var called := Next(s, Main(CalibrationCall(now, later)));
             PollsFrom(called, during) == [] && Execute(called, during).pc == AtPoll
    ensures var called := Next(s, Main(CalibrationCall(now, later)));
            Orderly(now, Clock(later, called, during)) ==>
              && Elapsed(now, LastOf(Clock(later, called, during))) >= IGNORE_MS + AVERAGE_MS
              && Calibrated(s.back, Execute(called, during).back, InWindow(now, TimedFrom(called, during)))
  {
    var env := CalibrationCall(now, later);
    hide Next, PollsFrom, Execute, Orderly, Clock, Calibrated, TimedFrom, InWindow, Elapsed;
    if Orderly(now, Clock(later, Next(s, Main(env)), during)) { CalibrationAveragesItsWindow(s, env, during); }
  }

  lemma ReadingStep(m: Sys, now: Tick)
    requires m.pc.Reading?
    ensures var n := Next(m, Main(Answer(true, now)));
            && n.front == m.front.(log := n.front.log)
            && n.back == StoreFrame(m.back, Parse(m.front.ring.slots[m.pc.slot]), now)
  {
    hide StoreFrame, Parse;
  }

  lemma BeginRing(f: Front, halOk: bool)
    ensures Begin(f, halOk).ring == Start(f.ring, halOk)
    ensures var g := Begin(f, halOk);
            g.pending == f.pending && g.armed == f.armed && g.state == f.state && g.dropped == f.dropped
  {}
}
