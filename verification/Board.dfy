/**
 The acquisition core as one concurrent system: interrupts (Capture) and the cooperative main loop with
 its commands (statemachine.c, daq_engine.c, the command side of openamp_fs.c) over the stores of module
 Storage. A step is one interrupt, or one access of the main loop to what interrupts share together with
 the private work around it; `pc` says where the main loop stands. A run is any sequence of steps.
 */
module Board {
  import opened Bytes
  import opened Packing
  import opened DmaRing
  import opened Calibration
  import opened Capture
  import opened Storage

  const EVENTS_PER_RUN: nat := 16
  const SAMPLES_PER_RUN: nat := 64

  /** What the frame-taking loop in progress is part of. */
  datatype Job =
    | Serving                                      // an ACQUIRING pass of the state machine
    | Halting                                      // DAQ_Shutdown in STOPPING
    | Recovering                                   // DAQ_Shutdown in ERROR
    | Closing                                      // DAQ_StopAndClose
    | Averaging(saved: Saved, guardTick: Tick)     // the loop of DAQ_RunOffsetCalibration
    | Settling(saved: Saved)                       // what follows it

  datatype Pc =
    | AtPoll                                       // between calls
    | Claim(left: nat, job: Job)                   // head of the loop of DAQ_ServiceAdcPending
    | StartNext(left: nat, job: Job)               // one event claimed, transfer to be started
    | GiveBack(job: Job)                           // the transfer did not start
    | Check(left: nat, job: Job)                   // head of the loop of DAQ_ServiceCapturedSamples
    | Grab(left: nat, job: Job)                    // before the critical section of TakeDmaFrame
    | Reading(slot: SlotIndex, left: nat, job: Job)  // frame taken, slot still to be parsed
    | Ending(job: Job)                             // what follows the loops

  datatype Command =
    | NoCommand
    | StartLog(cfg: Config, openStatus: int)
    | StartStream(cfg: Config)
    | StopRun
    | StopClose
    | ReadBlock(maxLen: nat)
    | Calibrate

  datatype Poll = RunMachine | Serve(command: Command)

  /** What the environment decides at a main-loop step: HAL and file-system answers, the clock, the next command. */
  datatype Env = Env(
    ok: bool, closeOk: bool, now: Tick, later: Tick, first: nat -> bool, second: nat -> bool, poll: Poll)

  datatype Step = Drdy(halOk: bool) | Bytes(frame: Frame) | Done(halOk: bool) | Fail(halOk: bool) | Main(env: Env)

  datatype Sys = Sys(front: Front, back: Back, pc: Pc)

  function Init(): Sys {
    Sys(InitFront(), InitBack(), AtPoll)
  }

  function FrameBudget(job: Job): nat {
    if job.Serving? || job.Averaging? then SAMPLES_PER_RUN else BLOCK_CAPACITY
  }

  predicate Resting(state: MachineState) {
    state == MachineState.Idle || state == Faulted
  }

  /** A start handled in these states is overtaken by the end of the previous run. */
  predicate WindingUp(state: MachineState) {
    state == Stopping || state == Finalizing
  }

  // ----- the main loop between calls -----

  /** One pass of `DAQ_StateMachine_Run`, up to its first frame-taking loop. */
  function MachineStep(s: Sys, env: Env): Sys {
    var f, b := s.front, s.back;
    match f.state
    case Idle =>
      if b.start then s.(front := SetState(f, Preparing, f.armed), back := b.(start := false))
      else s.(back := b.(start := false, stop := false))
    case Preparing =>
      s.(front := SetState(f, Acquiring, true), back := DropAggregate(b))
    case Acquiring =>
      if b.stop then s.(front := SetState(f, Stopping, f.armed), back := b.(stop := false))
      else s.(pc := Claim(EVENTS_PER_RUN, Serving))
    case Stopping =>
      s.(front := AbortAll(f), pc := Check(BLOCK_CAPACITY, Halting))
    case Finalizing =>
      var c := ServiceWrite(b, env.ok);
      s.(front := if Pending(c, f.armed) then f else SetState(f, MachineState.Idle, f.armed),
         back := CheckPending(c, f.armed, env.closeOk))
    case Faulted =>
      if b.stop then
        s.(front := AbortAll(f), back := b.(stop := false), pc := Check(BLOCK_CAPACITY, Recovering))
      else s
  }

  function ClearForRun(f: Front): Front {
    ClearPending(f).(dropped := 0)
  }

  /** One command, up to its first frame-taking loop. */
  function CommandStep(s: Sys, c: Command, env: Env): Sys {
    var f, b := s.front, s.back;
    match c
    case NoCommand => s
    case StartLog(cfg, openStatus) =>
      s.(front := if LoggingStarts(cfg, openStatus) then ClearForRun(f) else f,
         back := StartLogging(b, cfg, openStatus, WindingUp(f.state), |f.log.parsed|))
    case StartStream(cfg) =>
      s.(front := if ValidConfig(cfg) then ClearForRun(f) else f,
         back := StartStreaming(b, cfg, WindingUp(f.state), |f.log.parsed|))
    case StopRun =>
      s.(front := if Resting(f.state) then SetState(f, f.state, false) else f,
         back := Stop(b, Resting(f.state)))
    case StopClose =>
      if Resting(f.state) then
        s.(front := ClearPending(SetState(f, MachineState.Idle, false)),
           back := StopAndClose(b, false, env.first, env.second, env.closeOk))
      else s.(front := AbortAll(f), pc := Check(BLOCK_CAPACITY, Closing))
    case ReadBlock(maxLen) => s.(back := ReadStream(b, maxLen))
    case Calibrate =>
      if f.state != MachineState.Idle then s
      else
        s.(front := SetState(ClearForRun(AbortAll(f)), Acquiring, true),
           back := BeginCalibration(b, env.now),
           pc := Ending(Averaging(Saved(b.cfg, b.mode), After(env.later, GUARD_MS))))
  }

  function PollStep(s: Sys, env: Env): Sys {
    match env.poll
    case RunMachine => MachineStep(s, env)
    case Serve(c) => CommandStep(s, c, env)
  }

  /** What follows the frame-taking loop of a job. */
  function EndStep(s: Sys, job: Job, env: Env): Sys {
    var f, b := s.front, s.back;
    match job
    case Serving => s.(back := ServiceWrite(b, env.ok), pc := AtPoll)
    case Halting => s.(front := SetState(f, Finalizing, false), back := Flush(b), pc := AtPoll)
    case Recovering => s.(front := SetState(f, MachineState.Idle, false), back := Flush(b), pc := AtPoll)
    case Closing =>
      s.(front := ClearPending(SetState(f, MachineState.Idle, false)),
         back := StopAndClose(b, true, env.first, env.second, env.closeOk), pc := AtPoll)
    case Averaging(saved, guardTick) =>
      if !b.cal.active || Reached(env.now, guardTick) then
        s.(front := AbortAll(SetState(f, f.state, false)), pc := Check(BLOCK_CAPACITY, Settling(saved)))
      else s.(pc := Claim(EVENTS_PER_RUN, job))
    case Settling(saved) =>
      s.(front := ClearPending(SetState(f, MachineState.Idle, false)), back := EndCalibration(b, saved), pc := AtPoll)
  }

  function MainStep(s: Sys, env: Env): Sys {
    var f := s.front;
    match s.pc
    case AtPoll => PollStep(s, env)
    case Claim(left, job) =>
      if left == 0 || f.pending == 0 then s.(pc := Check(FrameBudget(job), job))
      else s.(front := ClaimPending(f), pc := StartNext(left - 1, job))
    case StartNext(left, job) =>
      s.(front := Begin(f, env.ok), pc := if Begins(f, env.ok) then Claim(left, job) else GiveBack(job))
    case GiveBack(job) =>
      s.(front := ReturnPending(f), pc := Check(FrameBudget(job), job))
    case Check(left, job) =>
      s.(pc := if left == 0 || !MayTake(f.ring) then Ending(job) else Grab(left - 1, job))
    case Grab(left, job) =>
      if f.ring.count == 0 then s.(pc := Ending(job))
      else s.(front := TakeFrame(f), pc := Reading(f.ring.tail, left, job))
    case Reading(slot, left, job) =>
      s.(front := ParseSlot(f, slot), back := StoreFrame(s.back, Parse(f.ring.slots[slot]), env.now),
         pc := Check(left, job))
    case Ending(job) => EndStep(s, job, env)
  }

  function Next(s: Sys, step: Step): Sys {
    match step
    case Drdy(halOk) => s.(front := OnDrdy(s.front, halOk))
    case Bytes(frame) => s.(front := OnBytes(s.front, frame))
    case Done(halOk) => s.(front := OnDone(s.front, halOk))
    case Fail(halOk) => s.(front := OnFail(s.front, halOk))
    case Main(env) => MainStep(s, env)
  }

  function Execute(s: Sys, steps: seq<Step>): Sys {
    if steps == [] then s else Next(Execute(s, steps[..|steps| - 1]), steps[|steps| - 1])
  }

  // ----- the invariant, part by part -----

  function Claimed(pc: Pc): nat {
    if pc.StartNext? || pc.GiveBack? then 1 else 0
  }

  ghost predicate FrontPart(s: Sys) {
    && FrontOk(s.front, Claimed(s.pc))
    && (s.pc.Reading? <==> s.front.log.held.Held?)
    && (s.pc.Reading? ==> s.pc.slot == s.front.log.held.slot)
  }

  ghost predicate BackPart(s: Sys) {
    BackOk(s.back) && RunOk(s.back)
  }

  predicate Configured(b: Back) {
    b.run.fate != Reconfigured
  }

  /** Where each job runs, when the ADC is armed, and which runs can be in which mode. */
  ghost predicate Shape(s: Sys) {
    var state, b := s.front.state, s.back;
    && state != Faulted
    && (s.pc != AtPoll ==>
          match s.pc.job
          case Serving => state == Acquiring
          case Halting => state == Stopping
          case Recovering => false
          case Closing => !Resting(state)
          case Averaging(saved, _) => state == Acquiring && !Configured(b) && ValidConfig(saved.cfg)
          case Settling(saved) => state == Acquiring && !Configured(b) && ValidConfig(saved.cfg))
    && (s.front.armed ==> state == Acquiring || state == Stopping)
    && (state == Acquiring && !(s.pc != AtPoll && s.pc.job.Settling?) ==> s.front.armed)
    && (b.cal.active ==> s.pc != AtPoll && (s.pc.job.Averaging? || s.pc.job.Settling?))
    && (Configured(b) && b.mode == LogMode ==> b.run.kind == LogRun)
    && (Configured(b) && b.mode == StreamMode ==> b.run.kind == StreamRun && !b.logOpen)
    && !(b.start && b.stop)
    && ((s.pc.Claim? || s.pc.StartNext? || s.pc.GiveBack?) ==> s.pc.job.Serving? || s.pc.job.Averaging?)
  }

  /** Once acquisition is off, the frame-taking loops find nothing, and FINALIZING starts with an idle, empty ring. */
  ghost predicate Quiet(s: Sys) {
    && (s.pc != AtPoll && !Accepting(s.front) ==>
          s.front.ring.count == 0 && !s.front.ring.busy && !s.pc.Grab? && !s.pc.Reading?)
    && (s.front.state == Finalizing ==> s.front.ring.count == 0 && !s.front.ring.busy)
  }

  /**
   A run whose start was not overtaken keeps its mode until the machine rests; a log run then has
   nothing left buffered, and nothing of it is ever discarded.
   */
  ghost predicate Regular(s: Sys) {
    var state, b := s.front.state, s.back;
    b.run.kind != NoRun && !b.run.late && Configured(b) ==>
      && (state != MachineState.Idle || b.start ==> b.mode == ModeOf(b.run.kind))
      && (WindingUp(state) ==> !b.start)
      && (b.run.kind == LogRun ==>
            && b.run.fate == Intact
            && (state == MachineState.Idle || state == Preparing ==> b.aggr == [] && b.queue == []))
  }

  /** A log run whose start was overtaken never writes anything. */
  ghost predicate Overtaken(s: Sys) {
    var b := s.back;
    b.run.kind == LogRun && b.run.late && Configured(b) ==>
      && b.log == [] && b.run.written == []
      && (b.mode == LogMode ==>
            WindingUp(s.front.state) && b.queue == [] && b.aggr == [] && b.run.stored == [])
  }

  function Keep(s: Sample): seq<Sample> {
    if BadFrame(s) then [] else [s]
  }

  /** The usable samples among parsed frames. */
  function Usable(parsed: seq<Sample>): seq<Sample> {
    FlatMap(Keep, parsed)
  }

  /** What a run stores is what was parsed since it began, invalid frames left out. */
  ghost predicate Provenance(s: Sys) {
    var r, parsed := s.back.run, s.front.log.parsed;
    r.kind != NoRun && Configured(s.back) ==>
      r.origin <= |parsed| && r.stored == Usable(parsed[r.origin..])
  }

  ghost predicate Inv(s: Sys) {
    FrontPart(s) && BackPart(s) && Shape(s) && Quiet(s) && Regular(s) && Overtaken(s) && Provenance(s)
  }

  lemma InitInv()
    ensures Inv(Init())
  {
    hide FrontOk, BackOk, RunOk, InitFront, InitBack;
    InitFrontOk();
    InitBackOk();
    InitialState();
  }

  lemma InitialState()
    ensures var f, b := InitFront(), InitBack();
            && f.state == MachineState.Idle && !f.armed && f.log.held.Nothing?
            && b.mode == NoMode && !b.cal.active && b.run == NewRun(NoRun, false, 0) && !b.start
  {}

  // ----- interrupts -----

  /** A step that only changes what interrupts may change. */
  lemma FrontOnlyKeeps(s: Sys, f: Front)
    requires Inv(s) && Untouched(s.front, f) && FrontOk(f, Claimed(s.pc))
    ensures Inv(s.(front := f))
  {
    hide FrontOk, BackOk, RunOk, Usable;
  }

  lemma InterruptKeeps(s: Sys, step: Step)
    requires Inv(s) && !step.Main?
    ensures Inv(Next(s, step))
  {
    hide FrontOk, Inv, BackPart, Shape, Quiet, Regular, Overtaken, Provenance, OnDrdy, OnBytes, OnDone, OnFail,
      Untouched;
    var n := Claimed(s.pc);
    assert FrontOk(s.front, n) by { InvFront(s); }
    match step
    case Drdy(halOk) =>
      DrdyKeeps(s.front, halOk, n);
      InterruptsUntouched(s.front, halOk, Blank());
      FrontOnlyKeeps(s, OnDrdy(s.front, halOk));
    case Bytes(frame) =>
      BytesKeep(s.front, frame, n);
      InterruptsUntouched(s.front, true, frame);
      FrontOnlyKeeps(s, OnBytes(s.front, frame));
    case Done(halOk) =>
      DoneKeeps(s.front, halOk, n);
      InterruptsUntouched(s.front, halOk, Blank());
      FrontOnlyKeeps(s, OnDone(s.front, halOk));
    case Fail(halOk) =>
      FailKeeps(s.front, halOk, n);
      InterruptsUntouched(s.front, halOk, Blank());
      FrontOnlyKeeps(s, OnFail(s.front, halOk));
  }

  lemma InvFront(s: Sys)
    requires Inv(s)
    ensures FrontOk(s.front, Claimed(s.pc))
  {
    hide FrontOk, BackOk, RunOk, Usable;
  }

  // ----- the frame-taking loops -----

  /** A step of the loops that leaves the stores alone. */
  lemma LoopKeeps(s: Sys, t: Sys)
    requires Inv(s) && s.pc != AtPoll && t.back == s.back && t.pc != AtPoll
    requires t.pc.job == s.pc.job
        && (t.pc.Claim? || t.pc.StartNext? || t.pc.GiveBack? ==> s.pc.Claim? || s.pc.StartNext? || s.pc.GiveBack?)
    requires FrontPart(t) && t.front.log.parsed == s.front.log.parsed
    requires t.front.state == s.front.state && t.front.armed == s.front.armed
    requires !Accepting(s.front) ==> t.front == s.front && !t.pc.Grab? && !t.pc.Reading?
    ensures Inv(t)
  {
    hide FrontPart, BackOk, RunOk, Usable;
  }

  lemma LoopFront(s: Sys, env: Env)
    requires Inv(s) && s.pc != AtPoll && !s.pc.Ending? && !s.pc.Reading?
    ensures FrontPart(MainStep(s, env))
  {
    var f := s.front;
    match s.pc
    case Claim(left, job) => ClaimKeeps(f);
    case StartNext(left, job) => BeginKeeps(f, env.ok, 1);
    case GiveBack(job) => ReturnKeeps(f);
    case Check(left, job) =>
    case Grab(left, job) => TakeKeeps(f, 0);
  }

  lemma LoopStepKeeps(s: Sys, env: Env)
    requires Inv(s) && s.pc != AtPoll && !s.pc.Ending? && !s.pc.Reading?
    ensures Inv(MainStep(s, env))
  {
    hide FrontPart, BackPart, Regular, Overtaken, Provenance;
    LoopFront(s, env);
    LoopKeeps(s, MainStep(s, env));
  }

  lemma UsableSnoc(parsed: seq<Sample>, s: Sample, origin: nat)
    requires origin <= |parsed|
    ensures Usable((parsed + [s])[origin..])
         == if BadFrame(s) then Usable(parsed[origin..]) else Usable(parsed[origin..]) + [s]
  {
    assert (parsed + [s])[origin..] == parsed[origin..] + [s];
    FlatMapSnoc(Keep, parsed[origin..], s);
  }

  lemma ReadingStepKeeps(s: Sys, env: Env)
    requires Inv(s) && s.pc.Reading?
    ensures Inv(MainStep(s, env))
  {
    hide FrontOk, BackOk, RunOk, StoreFrame, Usable;
    var sample := Parse(s.front.ring.slots[s.pc.slot]);
    ParseKeeps(s.front, 0);
    StoreFrameKeeps(s.back, sample, env.now);
    StoreFrameEffect(s.back, sample, env.now);
    if s.back.run.kind != NoRun && Configured(s.back) {
      UsableSnoc(s.front.log.parsed, sample, s.back.run.origin);
    }
  }

  // ----- the ends of the jobs -----

  lemma ServingEnds(s: Sys, env: Env)
    requires Inv(s) && s.pc == Ending(Serving)
    ensures Inv(MainStep(s, env))
  {
    hide FrontOk, BackOk, RunOk, ServiceWrite, Usable;
    ServiceWriteKeeps(s.back, env.ok);
    ServiceWriteEffect(s.back, env.ok);
  }

  lemma HaltingEnds(s: Sys, env: Env)
    requires Inv(s) && s.pc == Ending(Halting)
    ensures Inv(MainStep(s, env))
  {
    hide FrontOk, BackOk, RunOk, Flush, Usable;
    SetStateKeeps(s.front, Finalizing, false, 0);
    FlushKeeps(s.back);
    FlushEffect(s.back);
  }

  lemma ClosingEnds(s: Sys, env: Env)
    requires Inv(s) && s.pc == Ending(Closing)
    ensures Inv(MainStep(s, env))
  {
    hide FrontOk, BackOk, RunOk, StopAndClose, Usable;
    SetStateKeeps(s.front, MachineState.Idle, false, 0);
    ClearKeeps(SetState(s.front, MachineState.Idle, false));
    StopAndCloseKeeps(s.back, true, env.first, env.second, env.closeOk);
    if s.back.mode != LogMode {
      StopAndCloseOutsideLogMode(s.back, true, env.first, env.second, env.closeOk);
    } else if s.back.aggr == [] && s.back.queue == [] {
      StopAndCloseEmpty(s.back, true, env.first, env.second, env.closeOk);
    }
  }

  lemma AveragingEnds(s: Sys, env: Env)
    requires Inv(s) && s.pc.Ending? && s.pc.job.Averaging?
    ensures Inv(MainStep(s, env))
  {
    hide FrontOk, BackOk, RunOk, Usable, Reached;
    SetStateKeeps(s.front, s.front.state, false, 0);
    AbortKeeps(SetState(s.front, s.front.state, false), 0);
  }

  lemma SettlingEnds(s: Sys, env: Env)
    requires Inv(s) && s.pc.Ending? && s.pc.job.Settling?
    ensures Inv(MainStep(s, env))
  {
    hide FrontOk, BackOk, Usable, Means;
    SetStateKeeps(s.front, MachineState.Idle, false, 0);
    ClearKeeps(SetState(s.front, MachineState.Idle, false));
    CalibrationKeeps(s.back, env.now, s.pc.job.saved);
  }

  lemma EndStepKeeps(s: Sys, env: Env)
    requires Inv(s) && s.pc.Ending?
    ensures Inv(MainStep(s, env))
  {
    assert Shape(s);
    hide Inv, MainStep;
    match s.pc.job
    case Serving => ServingEnds(s, env);
    case Halting => HaltingEnds(s, env);
    case Closing => ClosingEnds(s, env);
    case Averaging(_, _) => AveragingEnds(s, env);
    case Settling(_) => SettlingEnds(s, env);
    case Recovering => assert false;
  }

  // ----- between calls -----

  lemma IdlePass(s: Sys, env: Env)
    requires Inv(s) && s.pc == AtPoll && s.front.state == MachineState.Idle
    ensures Inv(MachineStep(s, env))
  {
    hide FrontOk, BackOk, RunOk, Usable;
    SetStateKeeps(s.front, Preparing, s.front.armed, 0);
    EventsKeep(s.back, false, s.back.stop, 0);
    EventsKeep(s.back, false, false, 0);
  }

  lemma PreparingPass(s: Sys, env: Env)
    requires Inv(s) && s.pc == AtPoll && s.front.state == Preparing
    ensures Inv(MachineStep(s, env))
  {
    hide FrontOk, BackOk, RunOk, Usable;
    SetStateKeeps(s.front, Acquiring, true, 0);
    DropAggregateKeeps(s.back);
  }

  lemma AcquiringPass(s: Sys, env: Env)
    requires Inv(s) && s.pc == AtPoll && s.front.state == Acquiring
    ensures Inv(MachineStep(s, env))
  {
    hide FrontOk, BackOk, RunOk, Usable;
    SetStateKeeps(s.front, Stopping, s.front.armed, 0);
    EventsKeep(s.back, s.back.start, false, 0);
  }

  lemma StoppingPass(s: Sys, env: Env)
    requires Inv(s) && s.pc == AtPoll && s.front.state == Stopping
    ensures Inv(MachineStep(s, env))
  {
    hide FrontOk, BackOk, RunOk, Usable;
    AbortKeeps(s.front, 0);
  }

  lemma CheckPendingEffect(b: Back, ok: bool)
    ensures var c := CheckPending(b, false, ok);
            && c.run.kind == b.run.kind && c.run.late == b.run.late && c.run.origin == b.run.origin
            && c.run.stored == b.run.stored && c.run.written == b.run.written && c.run.unsaved == b.run.unsaved
                && c.log == b.log
            && c.cal == b.cal && c.start == b.start && c.stop == b.stop && c.cfg == b.cfg
            && (Configured(c) <==> Configured(b))
            && (if Pending(b, false) then c == b else c.mode == NoMode && c.aggr == [] && c.queue == [])
            && (b.mode != StreamMode ==> c.run == b.run)
  {
    hide ResetBuffers, CloseLog;
    ResetEffect(b);
    CloseEffect(b, ok);
  }

  lemma ResetEffect(b: Back)
    ensures var c := ResetBuffers(b);
            && c.run.kind == b.run.kind && c.run.late == b.run.late && c.run.origin == b.run.origin
            && c.run.stored == b.run.stored && c.run.written == b.run.written && c.run.unsaved == b.run.unsaved
                && c.log == b.log
            && c.cal == b.cal && c.start == b.start && c.stop == b.stop && c.cfg == b.cfg
            && (Configured(c) <==> Configured(b)) && c.aggr == [] && c.queue == []
  {}

  lemma CloseEffect(b: Back, ok: bool)
    ensures var c := CloseLog(b, ok);
            && c.run == b.run && c.log == b.log && c.cal == b.cal && c.start == b.start && c.stop == b.stop
            && c.cfg == b.cfg && c.aggr == b.aggr && c.queue == b.queue
  {}

  lemma FinalizingPass(s: Sys, env: Env)
    requires Inv(s) && s.pc == AtPoll && s.front.state == Finalizing
    ensures Inv(MachineStep(s, env))
  {
    hide FrontOk, BackOk, RunOk, ServiceWrite, CheckPending, Pending, Usable;
    SetStateKeeps(s.front, MachineState.Idle, s.front.armed, 0);
    ServiceWriteKeeps(s.back, env.ok);
    ServiceWriteEffect(s.back, env.ok);
    var c := ServiceWrite(s.back, env.ok);
    CheckPendingKeeps(c, s.front.armed, env.closeOk);
    CheckPendingEffect(c, env.closeOk);
    OnlyLogRun(c);
  }

  /** In the runs the log theorems speak of, the mode is never the streaming one. */
  lemma OnlyLogRun(b: Back)
    ensures b.mode == LogMode && (b.queue != [] || b.aggr != []) ==> Pending(b, false)
    ensures b.queue == [] && b.aggr == [] ==> !Pending(b, false)
  {}

  lemma MachineStepKeeps(s: Sys, env: Env)
    requires Inv(s) && s.pc == AtPoll
    ensures Inv(MachineStep(s, env))
  {
    assert Shape(s);
    hide Inv, MachineStep;
    match s.front.state
    case Idle => IdlePass(s, env);
    case Preparing => PreparingPass(s, env);
    case Acquiring => AcquiringPass(s, env);
    case Stopping => StoppingPass(s, env);
    case Finalizing => FinalizingPass(s, env);
    case Faulted => assert false;
  }

  lemma StartLogPass(s: Sys, cfg: Config, openStatus: int, env: Env)
    requires Inv(s) && s.pc == AtPoll
    ensures Inv(CommandStep(s, StartLog(cfg, openStatus), env))
  {
    hide FrontOk, BackOk, RunOk, StartLogging;
    ClearKeeps(s.front);
    SetStateKeeps(ClearPending(s.front), s.front.state, s.front.armed, 0);
    StartKeeps(s.back, cfg, openStatus, WindingUp(s.front.state), |s.front.log.parsed|);
    StartLoggingEffect(s.back, cfg, openStatus, WindingUp(s.front.state), |s.front.log.parsed|);
    assert Usable([]) == [];
  }

  lemma StartStreamPass(s: Sys, cfg: Config, env: Env)
    requires Inv(s) && s.pc == AtPoll
    ensures Inv(CommandStep(s, StartStream(cfg), env))
  {
    hide FrontOk, BackOk, RunOk, StartStreaming;
    StartStreamingEffect(s.back, cfg, WindingUp(s.front.state), |s.front.log.parsed|);
    ClearKeeps(s.front);
    SetStateKeeps(ClearPending(s.front), s.front.state, s.front.armed, 0);
    StartKeeps(s.back, cfg, 0, WindingUp(s.front.state), |s.front.log.parsed|);
    assert Usable([]) == [];
  }

  lemma StopRunPass(s: Sys, env: Env)
    requires Inv(s) && s.pc == AtPoll
    ensures Inv(CommandStep(s, StopRun, env))
  {
    hide FrontOk, BackOk, RunOk, Usable;
    SetStateKeeps(s.front, s.front.state, false, 0);
    StopKeeps(s.back, Resting(s.front.state));
  }

  lemma StopClosePass(s: Sys, env: Env)
    requires Inv(s) && s.pc == AtPoll
    ensures Inv(CommandStep(s, StopClose, env))
  {
    hide FrontOk, BackOk, RunOk, StopAndClose, Usable;
    if Resting(s.front.state) {
      SetStateKeeps(s.front, MachineState.Idle, false, 0);
      ClearKeeps(SetState(s.front, MachineState.Idle, false));
      StopAndCloseKeeps(s.back, false, env.first, env.second, env.closeOk);
      if s.back.mode != LogMode {
        StopAndCloseOutsideLogMode(s.back, false, env.first, env.second, env.closeOk);
      }
      if s.back.aggr == [] && s.back.queue == [] {
        StopAndCloseEmpty(s.back, false, env.first, env.second, env.closeOk);
      }
    } else {
      AbortKeeps(s.front, 0);
    }
  }

  lemma ReadBlockPass(s: Sys, maxLen: nat, env: Env)
    requires Inv(s) && s.pc == AtPoll
    ensures Inv(CommandStep(s, ReadBlock(maxLen), env))
  {
    hide FrontOk, BackOk, RunOk, ReadStream, Usable;
    ReadStreamKeeps(s.back, maxLen);
    ReadStreamEffect(s.back, maxLen);
  }

  lemma CalibratePass(s: Sys, env: Env)
    requires Inv(s) && s.pc == AtPoll
    ensures Inv(CommandStep(s, Calibrate, env))
  {
    hide FrontOk, BackOk, RunOk, Usable;
    if s.front.state == MachineState.Idle {
      AbortKeeps(s.front, 0);
      ClearKeeps(AbortAll(s.front));
      SetStateKeeps(ClearPending(AbortAll(s.front)), s.front.state, false, 0);
      SetStateKeeps(ClearForRun(AbortAll(s.front)), Acquiring, true, 0);
      CalibrationKeeps(s.back, env.now, Saved(s.back.cfg, s.back.mode));
      CfgValid(s.back);
    }
  }

  lemma CfgValid(b: Back)
    requires BackOk(b)
    ensures ValidConfig(b.cfg)
  {}

  lemma MainStepKeeps(s: Sys, env: Env)
    requires Inv(s)
    ensures Inv(MainStep(s, env))
  {
    hide Inv, EndStep, MachineStep, CommandStep;
    match s.pc
    case Reading(_, _, _) => ReadingStepKeeps(s, env);
    case Ending(_) => EndStepKeeps(s, env);
    case AtPoll =>
      match env.poll {
        case RunMachine => MachineStepKeeps(s, env);
        case Serve(c) =>
          match c {
            case NoCommand => assert CommandStep(s, NoCommand, env) == s by { NoCommandPass(s, env); }
            case StartLog(cfg, openStatus) => StartLogPass(s, cfg, openStatus, env);
            case StartStream(cfg) => StartStreamPass(s, cfg, env);
            case StopRun => StopRunPass(s, env);
            case StopClose => StopClosePass(s, env);
            case ReadBlock(maxLen) => ReadBlockPass(s, maxLen, env);
            case Calibrate => CalibratePass(s, env);
          }
      }
    case _ => LoopStepKeeps(s, env);
  }

  lemma NoCommandPass(s: Sys, env: Env)
    ensures CommandStep(s, NoCommand, env) == s
  {}

  /** Every step, of an interrupt or of the main loop, keeps the invariant. */
  lemma StepKeeps(s: Sys, step: Step)
    requires Inv(s)
    ensures Inv(Next(s, step))
  {
    hide Inv, MainStep;
    if step.Main? { MainStepKeeps(s, step.env); } else { InterruptKeeps(s, step); }
  }

  /** Every state of every run from reset satisfies the invariant. */
  lemma {:induction false} EveryRun(steps: seq<Step>)
    ensures Inv(Execute(Init(), steps))
  {
    hide Inv, Next, Init;
    if steps == [] {
      InitInv();
    } else {
      EveryRun(steps[..|steps| - 1]);
      StepKeeps(Execute(Init(), steps[..|steps| - 1]), steps[|steps| - 1]);
    }
  }
}
