/**
 Frames that a run inherits. A start command clears the pending counter but not the DMA ring, so what the
 ring holds then, ready or in flight, can be stored in the new run. This module bounds by how much a run can
 store more frames than it accepts data-ready events, and says exactly when it cannot.
 */
module StaleFrames {
  import opened Bytes
  import opened Packing
  import opened DmaRing
  import opened Calibration
  import opened Capture
  import opened Storage
  import opened Board
  import opened BoardTheorems
  import opened Scenarios

  // ----- the bound -----

  /** Every event ever accepted is a frame taken, on its way, or lost. */
  lemma Balance(s: Sys)
    requires Inv(s)
    ensures s.front.log.events == |s.front.log.taken| + Owed(s) + Losses(s.front)
  {
    hide BackPart, Shape, Quiet, Regular, Overtaken, Provenance, Sound, HeldSound;
  }

  lemma InterruptLosses(f: Front, halOk: bool, frame: Frame)
    ensures Losses(OnDrdy(f, halOk)) >= Losses(f) && Losses(OnBytes(f, frame)) >= Losses(f)
    ensures Losses(OnDone(f, halOk)) >= Losses(f) && Losses(OnFail(f, halOk)) >= Losses(f)
  {
    hide Start, Complete, DmaRing.Fail, Receive, TouchHeld;
  }

  lemma PassLosses(s: Sys, env: Env)
    ensures Losses(MachineStep(s, env).front) >= Losses(s.front)
  {
    hide ServiceWrite, CheckPending, Pending, Abort;
  }

  lemma CommandLosses(s: Sys, c: Command, env: Env)
    ensures Losses(CommandStep(s, c, env).front) >= Losses(s.front)
  {
    hide StopAndClose, StartLogging, StartStreaming, Stop, BeginCalibration, ReadStream, LoggingStarts, ValidConfig,
      Abort;
  }

  lemma EndLosses(s: Sys, job: Job, env: Env)
    ensures Losses(EndStep(s, job, env).front) >= Losses(s.front)
  {
    hide ServiceWrite, StopAndClose, Flush, EndCalibration, Abort, Reached;
  }

  lemma MainLosses(s: Sys, env: Env)
    ensures Losses(MainStep(s, env).front) >= Losses(s.front)
  {
    hide MachineStep, CommandStep, EndStep, Losses;
    match s.pc
    case AtPoll =>
      match env.poll {
        case RunMachine => PassLosses(s, env);
        case Serve(c) => CommandLosses(s, c, env);
      }
    case Ending(job) => EndLosses(s, job, env);
    case _ => LoopLosses(s, env);
  }

  lemma LoopLosses(s: Sys, env: Env)
    requires s.pc != AtPoll && !s.pc.Ending?
    ensures Losses(MainStep(s, env).front) >= Losses(s.front)
  {
    hide StoreFrame, Parse, Start, Take, EndStep, PollStep, TouchHeld;
  }

  /** Losses are never taken back. */
  lemma LossesGrow(s: Sys, step: Step)
    ensures Losses(Next(s, step).front) >= Losses(s.front)
  {
    hide MainStep, OnDrdy, OnBytes, OnDone, OnFail, Losses;
    match step
    case Main(env) => MainLosses(s, env);
    case Bytes(frame) => InterruptLosses(s.front, true, frame);
    case _ => InterruptLosses(s.front, step.halOk, Blank());
  }

  lemma {:induction false} LossesOnlyGrow(s: Sys, steps: seq<Step>)
    ensures Losses(Execute(s, steps).front) >= Losses(s.front)
  {
    hide Next;
    if steps != [] {
      var n := |steps| - 1;
      LossesOnlyGrow(s, steps[..n]);
      LossesGrow(Execute(s, steps[..n]), steps[n]);
    }
  }

  lemma {:induction false} InvStays(s: Sys, steps: seq<Step>)
    requires Inv(s)
    ensures Inv(Execute(s, steps))
  {
    hide Inv, Next;
    if steps != [] {
      var n := |steps| - 1;
      InvStays(s, steps[..n]);
      StepKeeps(Execute(s, steps[..n]), steps[n]);
    }
  }

  /** Whatever happens, the frames taken exceed the events accepted by no more than what was on its way. */
  lemma {:induction false} TakenIsBounded(s: Sys, steps: seq<Step>)
    requires Inv(s)
    ensures var t := Execute(s, steps);
            |t.front.log.taken| - |s.front.log.taken| <= t.front.log.events - s.front.log.events + Owed(s)
  {
    hide Execute, Inv;
    InvStays(s, steps);
    LossesOnlyGrow(s, steps);
    Balance(s);
    Balance(Execute(s, steps));
  }

  lemma {:induction false} UsableIsFewer(parsed: seq<Sample>)
    ensures |Usable(parsed)| <= |parsed|
  {
    if parsed != [] { UsableIsFewer(parsed[..|parsed| - 1]); }
  }

  /** A run whose configuration stands stores no more than what was parsed since it began. */
  lemma StoredIsParsed(t: Sys)
    requires Inv(t) && t.back.run.kind != NoRun && Configured(t.back)
    ensures t.back.run.origin <= |t.front.log.parsed| <= |t.front.log.taken|
    ensures |t.back.run.stored| <= |t.front.log.parsed| - t.back.run.origin
  {
    UsableIsFewer(t.front.log.parsed[t.back.run.origin..]);
    hide BackPart, Shape, Quiet, Regular, Overtaken, Sound, HeldSound, Usable;
  }

  lemma NothingHeld(s: Sys)
    requires Inv(s) && s.pc == AtPoll
    ensures |s.front.log.parsed| == |s.front.log.taken|
  {
    hide BackPart, Shape, Quiet, Regular, Overtaken, Provenance, Sound, HeldSound;
  }

  /** A command that begins a run. */
  predicate BeginsRun(c: Command) {
    (c.StartLog? && LoggingStarts(c.cfg, c.openStatus)) || (c.StartStream? && ValidConfig(c.cfg))
  }

  function Started(s: Sys, c: Command, env: Env): Sys {
    Next(s, Main(env.(poll := Serve(c))))
  }

  /** The state a start leaves behind, as far as it matters here. */
  ghost predicate Fresh(s: Sys) {
    && Inv(s) && s.pc == AtPoll && s.front.pending == 0
    && s.back.run.kind != NoRun && Configured(s.back) && s.back.run.stored == []
    && s.back.run.origin == |s.front.log.parsed| && s.back.start && !s.back.stop
  }

  lemma StartIsFresh(s: Sys, c: Command, env: Env)
    requires Inv(s) && s.pc == AtPoll && BeginsRun(c)
    ensures var t := Started(s, c, env); Fresh(t) && t.front.ring == s.front.ring && t.front.state == s.front.state
  {
    StepKeeps(s, Main(env.(poll := Serve(c))));
    hide Inv, StartLogging, StartStreaming, LoggingStarts, ValidConfig;
    match c
    case StartLog(cfg, openStatus) =>
      StartLoggingEffect(s.back, cfg, openStatus, WindingUp(s.front.state), |s.front.log.parsed|);
      StartsValid(cfg, openStatus);
    case StartStream(cfg) => StartStreamingEffect(s.back, cfg, WindingUp(s.front.state), |s.front.log.parsed|);
  }

  lemma StartsValid(cfg: Config, openStatus: int)
    ensures LoggingStarts(cfg, openStatus) ==> ValidConfig(cfg)
  {}

  /** The run of `s` is still the current one, as configured, in `t`. */
  predicate SameRun(s: Sys, t: Sys) {
    t.back.run.kind != NoRun && Configured(t.back) && t.back.run.origin == s.back.run.origin
  }

  /**
   In every continuation of a start, under any interleaving: the samples stored in the run exceed the events
   accepted since by at most the frames the ring held ready at the start and the transfer then in flight.
   */
  lemma {:induction false} StoredIsBounded(s: Sys, steps: seq<Step>)
    requires Fresh(s) && SameRun(s, Execute(s, steps))
    ensures var t := Execute(s, steps);
            |t.back.run.stored|
              <= t.front.log.events - s.front.log.events + s.front.ring.count + (if s.front.ring.busy then 1 else 0)
  {
    hide Execute, Inv;
    InvStays(s, steps);
    TakenIsBounded(s, steps);
    StoredIsParsed(Execute(s, steps));
    NothingHeld(s);
  }

  // ----- a start in STOPPING -----

  /** In STOPPING before the abort of DAQ_Shutdown, or after an abort that cost at least `k` altogether. */
  ghost predicate WillAbort(t: Sys, k: int) {
    || (t.front.state == Stopping && t.pc == AtPoll && t.front.pending == 0 && Owed(t) + Losses(t.front) >= k)
    || Losses(t.front) >= k
  }

  lemma InvSound(s: Sys)
    requires Inv(s)
    ensures Sound(s.front.ring) && (s.pc == AtPoll ==> s.front.log.held.Nothing?)
  {
    hide BackPart, Shape, Quiet, Regular, Overtaken, Provenance, Sound, HeldSound;
  }

  lemma WillAbortStays(t: Sys, step: Step, k: int)
    requires Inv(t) && WillAbort(t, k)
    ensures WillAbort(Next(t, step), k)
  {
    if Losses(t.front) >= k {
      hide Next, Losses, Inv;
      LossesGrow(t, step);
    } else {
      InvSound(t);
      hide Inv, WillAbort, MainStep;
      if step.Main? { PollWillAbort(t, step.env, k); } else { InterruptWillAbort(t, step, k); }
    }
  }

  lemma PollWillAbort(t: Sys, env: Env, k: int)
    requires WillAbort(t, k) && Losses(t.front) < k && t.front.log.held.Nothing? && Sound(t.front.ring)
    ensures WillAbort(MainStep(t, env), k)
  {
    hide StartLogging, StartStreaming, Stop, BeginCalibration, ReadStream, LoggingStarts, ValidConfig, StopAndClose;
  }

  lemma InterruptWillAbort(t: Sys, step: Step, k: int)
    requires WillAbort(t, k) && Losses(t.front) < k && !step.Main? && t.front.log.held.Nothing? && Sound(t.front.ring)
    ensures WillAbort(Next(t, step), k)
  {
    hide MainStep;
  }

  lemma {:induction false} WillAbortHolds(s: Sys, steps: seq<Step>)
    requires Inv(s) && s.front.state == Stopping && s.pc == AtPoll && s.front.pending == 0
    ensures WillAbort(Execute(s, steps), Owed(s) + Losses(s.front))
  {
    hide Inv, Next;
    if steps != [] {
      var n := |steps| - 1;
      InvStays(s, steps[..n]);
      WillAbortHolds(s, steps[..n]);
      WillAbortStays(Execute(s, steps[..n]), steps[n], Owed(s) + Losses(s.front));
    }
  }

  // ----- the witness: taking what the ring holds -----

  /** Acquiring, with the loops free to run. */
  ghost predicate Going(s: Sys) {
    && Accepting(s.front) && s.front.pending == 0 && !s.back.cal.active
    && s.back.run.kind != NoRun && Configured(s.back) && Sound(s.front.ring)
  }

  /** What moves on while the main loop stands still: a data-ready event, and its transfer running to its end. */
  lemma EventStarts(s: Sys) returns (t: Sys)
    requires Going(s) && CanStart(s.front.ring)
    ensures t == Next(s, Drdy(true)) && Going(t) && t.pc == s.pc && t.back == s.back
    ensures t.front.ring == Start(s.front.ring, true) && t.front.ring.busy && !t.front.ring.error
    ensures t.front.log.events == s.front.log.events + 1
  {
    hide Configured;
    StartKeepsReady(s.front.ring, true);
    t := Next(s, Drdy(true));
    assert t.front.ring.busy;
  }

  lemma TransferEnds(s: Sys) returns (t: Sys)
    requires Going(s) && s.front.ring.busy
    ensures t == Next(s, Done(true)) && Going(t) && t.pc == s.pc && t.back == s.back
    ensures t.front.ring == Complete(s.front.ring) && !t.front.ring.busy && !t.front.ring.error
    ensures t.front.log.events == s.front.log.events
  {
    hide Configured;
    CompleteEnqueues(s.front.ring);
    t := Next(s, Done(true));
  }

  /** `n` blank frames. */
  function Blanks(n: nat): (frames: seq<Frame>)
    ensures |frames| == n
  {
    if n == 0 then [] else Blanks(n - 1) + [Blank()]
  }

  /** `n` further frames are captured, each for an event of its own; nothing but the ring changes. */
  lemma {:induction false} CaptureBlanks(r: Sys, s: Sys, n: nat) returns (t: Sys)
    requires Leads(r, s) && Going(s) && !s.front.ring.busy && !s.front.ring.error && s.front.ring.count + n <= SLOTS
    ensures Leads(r, t) && Going(t) && t.pc == s.pc && t.back == s.back && !t.front.ring.busy && !t.front.ring.error
    ensures t.front.ring.tail == s.front.ring.tail && t.front.ring.count == s.front.ring.count + n
    ensures Ready(t.front.ring) == Ready(s.front.ring) + Blanks(n)
    ensures t.front.log.events == s.front.log.events + n
    decreases n
  {
    hide Leads, Going, Next;
    if n == 0 {
      t := s;
      assert Ready(s.front.ring) + [] == Ready(s.front.ring);
    } else {
      var u := CaptureBlanks(r, s, n - 1);
      var v := EventStarts(u);
      LeadsOn(r, u, Drdy(true));
      t := TransferEnds(v);
      LeadsOn(r, v, Done(true));
      GoingSound(u);
      BlankArrives(u.front.ring);
      Associative(Ready(s.front.ring), Blanks(n - 1), [Blank()]);
    }
  }

  lemma GoingSound(s: Sys)
    requires Going(s)
    ensures Sound(s.front.ring)
  {}

  lemma BlankArrives(r: Ring)
    requires Sound(r) && CanStart(r)
    ensures var t := Complete(Start(r, true));
            && Ready(t) == Ready(r) + [Blank()] && t.tail == r.tail && t.count == r.count + 1
  {
    StartKeepsReady(r, true);
    CompleteEnqueues(Start(r, true));
  }

  /** The oldest ready frame is taken; its slot is still to be parsed. */
  lemma GrabHead(r: Sys, s: Sys) returns (t: Sys)
    requires Leads(r, s) && Going(s) && s.pc.Check? && s.pc.left > 0
    requires s.front.ring.count > 0 && !s.front.ring.error
    ensures Leads(r, t) && Going(t) && t.back == s.back && t.front.log.events == s.front.log.events
    ensures t.pc == Reading(s.front.ring.tail, s.pc.left - 1, s.pc.job) && t.front.ring == Take(s.front.ring)
    ensures Ready(s.front.ring) == [s.front.ring.slots[s.front.ring.tail]] + Ready(t.front.ring)
  {
    hide Leads, Configured;
    TakeDequeues(s.front.ring);
    var u := Next(s, Pass());
    LeadsOn(r, s, Pass());
    assert u == s.(pc := Grab(s.pc.left - 1, s.pc.job));
    t := Next(u, Pass());
    LeadsOn(r, u, Pass());
  }

  /** The held slot is parsed as it is now, and its sample stored if it is usable. */
  lemma ParseHeldSlot(r: Sys, s: Sys) returns (t: Sys)
    requires Leads(r, s) && Going(s) && s.pc.Reading?
    ensures Leads(r, t) && Going(t) && t.front.log.events == s.front.log.events && t.front.ring == s.front.ring
    ensures t.pc == Check(s.pc.left, s.pc.job) && t.back.run.origin == s.back.run.origin
    ensures t.back.run.stored == s.back.run.stored + Keep(Parse(s.front.ring.slots[s.pc.slot]))
  {
    hide Leads, StoreFrame, Parse;
    var sample := Parse(s.front.ring.slots[s.pc.slot]);
    StoreFrameEffect(s.back, sample, 0);
    t := Next(s, Pass());
    LeadsOn(r, s, Pass());
    assert t.back == StoreFrame(s.back, sample, 0);
  }

  /** How many of these frames are stored when parsed as they are. */
  function Good(frames: seq<Frame>): nat {
    |Usable(Parses(frames))|
  }

  lemma GoodAppend(xs: seq<Frame>, ys: seq<Frame>)
    ensures Good(xs + ys) == Good(xs) + Good(ys)
  {
    hide Parse;
    assert Parses(xs + ys) == Parses(xs) + Parses(ys);
    FlatMapAppend(Keep, Parses(xs), Parses(ys));
  }

  lemma GoodOne(frame: Frame)
    ensures Good([frame]) == |Keep(Parse(frame))|
  {
    hide Parse;
    var one := Parses([frame]);
    assert one == [] + [Parse(frame)] && Usable([]) == [];
    FlatMapSnoc(Keep, [], Parse(frame));
  }

  lemma BlankIsGood()
    ensures Keep(Parse(Blank())) == [Zero()] && Good([Blank()]) == 1
  {
    ZeroGood();
    GoodOne(Blank());
    hide Parse;
  }

  lemma {:induction false} BlanksAreGood(n: nat)
    ensures Good(Blanks(n)) == n
  {
    hide Good, Parse;
    if n == 0 {
      NoneGood();
    } else {
      BlanksAreGood(n - 1);
      GoodAppend(Blanks(n - 1), [Blank()]);
      BlankIsGood();
    }
  }

  lemma NoneGood()
    ensures Good([]) == 0
  {}

  /** All ready frames are taken and parsed. */
  lemma {:induction false} TakeAll(r: Sys, s: Sys, n: nat) returns (t: Sys)
    requires Leads(r, s) && Going(s) && s.pc.Check? && s.pc.left >= n
    requires s.front.ring.count == n && !s.front.ring.error
    ensures Leads(r, t) && Going(t) && t.back.run.origin == s.back.run.origin
    ensures t.front.log.events == s.front.log.events
    ensures |t.back.run.stored| == |s.back.run.stored| + Good(Ready(s.front.ring))
    decreases n
  {
    hide Leads, Going, Good, Parse, Take;
    if n == 0 {
      t := s;
      NoneGood();
      assert Ready(s.front.ring) == [];
    } else {
      var u := GrabHead(r, s);
      var head := s.front.ring.slots[s.front.ring.tail];
      TakeCounts(s.front.ring);
      var v := ParseHeldSlot(r, u);
      t := TakeAll(r, v, n - 1);
      GoodOne(head);
      GoodAppend([head], Ready(u.front.ring));
    }
  }

  lemma TakeCounts(r: Ring)
    requires r.count > 0
    ensures Take(r).count == r.count - 1 && Take(r).slots == r.slots
    ensures Take(r).error == r.error && Take(r).busy == r.busy
  {}

  /**
   Overdraw: the oldest frame is taken, transfers are started until the last of them clears its slot, and only
   then is it parsed. Its slot gives one sample and each of the transfers another, one more than the events
   spent, on top of whatever else was ready and usable.
   */
  lemma Overdraw(r: Sys, s: Sys) returns (t: Sys)
    requires Leads(r, s) && Going(s) && s.pc.Check? && s.pc.left >= SLOTS + 1
    requires s.front.ring.count > 0 && !s.front.ring.busy && !s.front.ring.error
    ensures Leads(r, t) && Going(t) && t.back.run.origin == s.back.run.origin
    ensures t.front.log.events == s.front.log.events + SLOTS + 1 - s.front.ring.count
    ensures |t.back.run.stored|
         == |s.back.run.stored| + SLOTS + 2 - s.front.ring.count + Good(Ready(s.front.ring)[1..])
  {
    hide Leads, Going, Good, Parse, Next, StoreFrame;
    var c := s.front.ring.count;
    var u := GrabHead(r, s);
    var rest := Ready(u.front.ring);
    var v := CaptureBlanks(r, u, SLOTS - c);
    GoingSound(v);
    LastSlot(s.front.ring, v.front.ring, true);
    var w := EventStarts(v);
    LeadsOn(r, v, Drdy(true));
    var x := ParseHeldSlot(r, w);
    BlankIsGood();
    var y := TransferEnds(x);
    LeadsOn(r, x, Done(true));
    BlankArrives(v.front.ring);
    t := TakeAll(r, y, SLOTS);
    GoodAppend(rest + Blanks(SLOTS - c), [Blank()]);
    GoodAppend(rest, Blanks(SLOTS - c));
    BlanksAreGood(SLOTS - c);
    assert Ready(s.front.ring)[1..] == rest;
  }

  // ----- from the start command to the loop -----

  /** A fresh run is brought to acquisition with the ring as it was. */
  lemma BringUp(s: Sys) returns (t: Sys)
    requires Fresh(s)
    requires s.front.state == MachineState.Idle || s.front.state == Preparing || s.front.state == Acquiring
    ensures Leads(s, t) && Going(t) && t.pc == AtPoll && !t.back.stop
    ensures t.front.ring == s.front.ring && t.front.log.events == s.front.log.events
    ensures t.back.run.origin == s.back.run.origin && t.back.run.stored == []
  {
    FreshShape(s);
    LeadsSelf(s);
    hide Leads, Inv, Sound;
    t := s;
    if t.front.state == MachineState.Idle {
      LeadsOn(s, t, Pass());
      t := Next(t, Pass());
    }
    if t.front.state == Preparing {
      LeadsOn(s, t, Pass());
      t := Next(t, Pass());
    }
  }

  lemma FreshShape(s: Sys)
    requires Fresh(s)
    ensures !s.back.cal.active && Sound(s.front.ring) && (s.front.state == Acquiring ==> s.front.armed)
    ensures s.front.state == Finalizing ==> s.front.ring.count == 0 && !s.front.ring.busy
    ensures s.front.state != Faulted
  {
    InvSound(s);
    hide FrontPart, BackPart, Regular, Overtaken, Provenance;
  }

  /** A transfer in flight runs to its end. */
  lemma Land(r: Sys, s: Sys) returns (t: Sys)
    requires Leads(r, s) && Going(s)
    ensures Leads(r, t) && Going(t) && t.pc == s.pc && t.back == s.back && !t.front.ring.busy
    ensures t.front.log.events == s.front.log.events
    ensures t.front.ring.count == s.front.ring.count + (if s.front.ring.busy then 1 else 0)
  {
    hide Leads;
    t := s;
    if s.front.ring.busy {
      GoingSound(s);
      t := TransferEnds(s);
      LeadsOn(r, s, Done(true));
    }
  }

  /** With the error flag up, one event clears it; its frame joins the ready ones. */
  lemma Recover(r: Sys, s: Sys) returns (t: Sys)
    requires Leads(r, s) && Going(s) && !s.front.ring.busy && s.front.ring.count > 0
    ensures Leads(r, t) && Going(t) && t.pc == s.pc && t.back == s.back && !t.front.ring.busy && !t.front.ring.error
    ensures t.front.ring.count > 0
    ensures t.front.log.events <= s.front.log.events + Good(Ready(t.front.ring)[1..])
  {
    hide Leads, Good;
    t := s;
    if s.front.ring.error {
      ErrorClears(s.front.ring);
      GoingSound(s);
      BlankArrives(s.front.ring);
      hide Going, Next;
      var u := EventStarts(s);
      LeadsOn(r, s, Drdy(true));
      t := TransferEnds(u);
      LeadsOn(r, u, Done(true));
      assert Ready(t.front.ring)[1..] == Ready(s.front.ring)[1..] + [Blank()];
      GoodAppend(Ready(s.front.ring)[1..], [Blank()]);
      BlankIsGood();
    }
  }

  lemma EnterLoop(r: Sys, s: Sys) returns (t: Sys)
    requires Leads(r, s) && Going(s) && s.pc == AtPoll && !s.back.stop
    ensures Leads(r, t) && Going(t) && t.pc == Check(SAMPLES_PER_RUN, Serving) && t.back == s.back
    ensures t.front.ring == s.front.ring && t.front.log.events == s.front.log.events
  {
    hide Leads, Sound, Configured;
    var u := Next(s, Pass());
    LeadsOn(r, s, Pass());
    t := Next(u, Pass());
    LeadsOn(r, u, Pass());
  }

  /** A run begun in these states over a ring not idle and empty can store more frames than it accepts events. */
  lemma Overdrawn(s: Sys) returns (t: Sys)
    requires Fresh(s)
    requires s.front.state == MachineState.Idle || s.front.state == Preparing || s.front.state == Acquiring
    requires s.front.ring.count > 0 || s.front.ring.busy
    ensures Leads(s, t) && SameRun(s, t) && |t.back.run.stored| > t.front.log.events - s.front.log.events
  {
    hide Leads, Fresh, Good, Ready;
    var s1 := BringUp(s);
    var s2 := Land(s, s1);
    var s3 := Recover(s, s2);
    var s4 := EnterLoop(s, s3);
    t := Overdraw(s, s4);
  }

  // ----- exactly when -----

  /** However the run goes on, it never has stored more frames than it accepted events. */
  ghost predicate NeverOverdrawn(s: Sys) {
    forall steps :: WithinEvents(s, Execute(s, steps))
  }

  predicate WithinEvents(s: Sys, t: Sys) {
    SameRun(s, t) ==> |t.back.run.stored| <= t.front.log.events - s.front.log.events
  }

  lemma StoppingIsClean(s: Sys, steps: seq<Step>)
    requires Fresh(s) && s.front.state == Stopping
    ensures WithinEvents(s, Execute(s, steps))
  {
    var t := Execute(s, steps);
    if SameRun(s, t) {
      hide Execute, Inv;
      InvStays(s, steps);
      WillAbortHolds(s, steps);
      Balance(s);
      Balance(t);
      NothingHeld(s);
      StoredIsParsed(t);
    }
  }

  /**
   Exactly when a run is free of inherited frames. After a start command, the run never stores more frames than
   it accepts data-ready events, under any continuation, if and only if at the start the ring was empty with no
   transfer in flight, or the machine was in STOPPING, whose abort was still to come.
   */
  lemma FreeOfStaleFramesIff(s: Sys, c: Command, env: Env)
    requires Inv(s) && s.pc == AtPoll && BeginsRun(c)
    ensures NeverOverdrawn(Started(s, c, env))
       <==> s.front.state == Stopping || (s.front.ring.count == 0 && !s.front.ring.busy)
  {
    var t := Started(s, c, env);
    StartIsFresh(s, c, env);
    FreshShape(t);
    hide Fresh, Started, WithinEvents, Execute;
    if s.front.state == Stopping {
      forall steps ensures WithinEvents(t, Execute(t, steps)) { StoppingIsClean(t, steps); }
    } else if s.front.ring.count == 0 && !s.front.ring.busy {
      forall steps ensures WithinEvents(t, Execute(t, steps)) { EmptyIsClean(t, steps); }
    } else {
      var u := Overdrawn(t);
      NotWithin(t, u);
    }
  }

  lemma EmptyIsClean(s: Sys, steps: seq<Step>)
    requires Fresh(s) && s.front.ring.count == 0 && !s.front.ring.busy
    ensures WithinEvents(s, Execute(s, steps))
  {
    hide Execute, Fresh;
    if SameRun(s, Execute(s, steps)) { StoredIsBounded(s, steps); }
  }

  lemma NotWithin(s: Sys, t: Sys)
    requires Leads(s, t) && SameRun(s, t) && |t.back.run.stored| > t.front.log.events - s.front.log.events
    ensures !NeverOverdrawn(s)
  {
    var steps :| Execute(s, steps) == t;
    assert !WithinEvents(s, Execute(s, steps));
  }
}
