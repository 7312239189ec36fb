/**
 Concrete runs of the acquisition core: one that ends with a complete log, and one in which a log start
 handled while the previous run is being wound up leads to an empty log and a machine that never rests.
 Between them they show that the hypotheses of the theorems can be met and that they cannot be dropped.
 */
module Scenarios {
  import opened Bytes
  import opened Packing
  import opened DmaRing
  import opened Calibration
  import opened Capture
  import opened Storage
  import opened Board
  import opened BoardTheorems

  function Cfg(): Config {
    DEFAULT_CONFIG.(blockSamples := 1)
  }

  function Answer(poll: Poll): Env {
    Env(true, true, 0, 0, (i: nat) => true, (i: nat) => true, poll)
  }

  function Pass(): Step {
    Main(Answer(RunMachine))
  }

  function Order(c: Command): Step {
    Main(Answer(Serve(c)))
  }

  /** `t` is reached from `s`. */
  ghost predicate Leads(s: Sys, t: Sys) {
    exists steps :: Execute(s, steps) == t
  }

  lemma {:induction false} ExecuteAppend(s: Sys, xs: seq<Step>, ys: seq<Step>)
    ensures Execute(s, xs + ys) == Execute(Execute(s, xs), ys)
  {
    if ys == [] {
      assert xs + ys == xs;
    } else {
      var n := |ys| - 1;
      ExecuteAppend(s, xs, ys[..n]);
      assert (xs + ys)[..|xs + ys| - 1] == xs + ys[..n];
    }
  }

  /** No command arrives: the superloop only runs the state machine. */
  ghost predicate Alone(steps: seq<Step>) {
    forall step :: step in steps && step.Main? ==> step.env.poll.RunMachine?
  }

  /** `t` is reached from `s` without a command. */
  ghost predicate Works(s: Sys, t: Sys) {
    exists steps :: Alone(steps) && Execute(s, steps) == t
  }

  lemma WorksOn(s: Sys, t: Sys, step: Step)
    requires Works(s, t) && (step.Main? ==> step.env.poll.RunMachine?)
    ensures Works(s, Next(t, step))
  {
    var steps :| Alone(steps) && Execute(s, steps) == t;
    assert (steps + [step])[..|steps|] == steps;
    assert Execute(s, steps + [step]) == Next(t, step) && Alone(steps + [step]);
  }

  lemma WorksSelf(s: Sys)
    ensures Works(s, s)
  {
    assert Execute(s, []) == s && Alone([]);
  }

  lemma WorksTrans(r: Sys, s: Sys, t: Sys)
    requires Works(r, s) && Works(s, t)
    ensures Works(r, t)
  {
    var xs :| Alone(xs) && Execute(r, xs) == s;
    var ys :| Alone(ys) && Execute(s, ys) == t;
    ExecuteAppend(r, xs, ys);
    assert Alone(xs + ys);
  }

  lemma WorkLeads(r: Sys, s: Sys, t: Sys)
    requires Leads(r, s) && Works(s, t)
    ensures Leads(r, t)
  {
    var xs :| Execute(r, xs) == s;
    var ys :| Alone(ys) && Execute(s, ys) == t;
    ExecuteAppend(r, xs, ys);
  }

  lemma LeadsOn(s: Sys, t: Sys, step: Step)
    requires Leads(s, t)
    ensures Leads(s, Next(t, step))
  {
    var steps :| Execute(s, steps) == t;
    assert (steps + [step])[..|steps|] == steps;
    assert Execute(s, steps + [step]) == Next(t, step);
  }

  lemma LeadsSelf(s: Sys)
    ensures Leads(s, s)
  {
    assert Execute(s, []) == s;
  }

  /** Between calls, acquiring, with nothing in the ring and no open block, and one sample to a block. */
  ghost predicate Ready1(s: Sys) {
    && s.pc == AtPoll && s.front.state == Acquiring && s.front.armed
    && s.front.pending == 0 && s.front.ring.count == 0 && !s.front.ring.busy
    && s.back.cfg == Cfg() && s.back.aggr == [] && !s.back.cal.active && !s.back.stop
  }

  function Zero(): Sample {
    Parse(Blank())
  }

  /** One frame is captured, taken and stored. */
  lemma OneFrame(s: Sys) returns (t: Sys)
    requires Ready1(s)
    ensures Works(s, t) && t.pc == AtPoll && t.front.state == Acquiring && t.front.armed
    ensures t.front.ring.count == 0 && !t.front.ring.busy && t.front.pending == 0
    ensures t.back == ServiceWrite(StoreSample(s.back, Zero()), true)
  {
    hide Works, StoreSample, ServiceWrite;
    WorksSelf(s);
    var s1 := Next(s, Drdy(true));
    WorksOn(s, s, Drdy(true));
    assert s1.front.ring.busy && s1.front.ring.slots[s1.front.ring.active] == Blank() && s1.front.pending == 0;
    assert s1.front.ring.count == 0 && s1.front.ring.active == s1.front.ring.tail;
    var s2 := Next(s1, Done(true));
    WorksOn(s, s1, Done(true));
    assert s2.front.ring.count == 1 && !s2.front.ring.busy && !s2.front.ring.error && s2.front.pending == 0;
    assert s2.front.ring.slots[s2.front.ring.tail] == Blank();
    t := TakeOne(s2);
    WorksTrans(s, s2, t);
  }

  lemma TakeOne(s: Sys) returns (t: Sys)
    requires s.pc == AtPoll && s.front.state == Acquiring && s.front.armed && !s.back.stop
    requires !s.back.cal.active
    requires s.front.pending == 0 && s.front.ring.count == 1 && !s.front.ring.busy && !s.front.ring.error
    requires s.front.ring.frameSize == FRAME_BYTES && s.front.ring.slots[s.front.ring.tail] == Blank()
    ensures Works(s, t) && t.pc == AtPoll && t.front.state == Acquiring && t.front.armed
    ensures t.front.ring.count == 0 && !t.front.ring.busy && t.front.pending == 0
    ensures t.back == ServiceWrite(StoreSample(s.back, Zero()), true)
    ensures t.front.log.accepted == s.front.log.accepted
  {
    hide Works, StoreSample, ServiceWrite, Parse;
    WorksSelf(s);
    WorksOn(s, s, Pass());
    var s1 := Next(s, Pass());
    WorksOn(s, s1, Pass());
    var s2 := Next(s1, Pass());
    assert s2 == s.(pc := Check(64, Serving));
    WorksOn(s, s2, Pass());
    var s3 := Next(s2, Pass());
    WorksOn(s, s3, Pass());
    var s4 := Next(s3, Pass());
    assert s4.pc == Reading(s.front.ring.tail, 63, Serving) && s4.back == s.back;
    WorksOn(s, s4, Pass());
    var s5 := Next(s4, Pass());
    assert Zero().response == 0 by { ZeroGood(); }
    assert s5.back == StoreSample(s.back, Zero()) && s5.front.ring.count == 0;
    WorksOn(s, s5, Pass());
    var s6 := Next(s5, Pass());
    WorksOn(s, s6, Pass());
    t := Next(s6, Pass());
  }

  lemma ZeroGood()
    ensures Zero().response == 0
  {}

  /** A start handled at rest: the two passes that arm the ADC. */
  lemma Arm(s: Sys) returns (t: Sys)
    requires s.pc == AtPoll && s.front.state == MachineState.Idle && s.back.start
    requires s.back.aggr == [] && s.back.queue == [] && !s.back.stop
    ensures Works(s, t) && t.pc == AtPoll && t.front == SetState(s.front, Acquiring, true)
    ensures t.back == s.back.(start := false)
  {
    hide Works;
    WorksSelf(s);
    WorksOn(s, s, Pass());
    var s1 := Next(s, Pass());
    WorksOn(s, s1, Pass());
    t := Next(s1, Pass());
  }

  /** A stop command while acquiring and the two passes of DAQ_Shutdown; nothing is in the ring. */
  lemma Halt(r: Sys, s: Sys) returns (t: Sys)
    requires Leads(r, s) && s.pc == AtPoll && s.front.state == Stopping
    requires s.front.ring.count == 0 && !s.front.ring.busy && s.back.aggr == []
    ensures Leads(r, t) && t.pc == AtPoll && t.front.state == Finalizing && !t.front.armed && t.back == s.back
    ensures t.front.pending == s.front.pending && t.front.ring == Abort(s.front.ring)
  {
    hide Leads;
    LeadsOn(r, s, Pass());
    var s1 := Next(s, Pass());
    LeadsOn(r, s1, Pass());
    var s2 := Next(s1, Pass());
    LeadsOn(r, s2, Pass());
    t := Next(s2, Pass());
  }

  lemma StopAcquiring(r: Sys, s: Sys) returns (t: Sys)
    requires Leads(r, s) && s.pc == AtPoll && s.front.state == Acquiring
    ensures Leads(r, t) && t.pc == AtPoll && t.front == SetState(s.front, Stopping, s.front.armed)
    ensures t.back == s.back.(start := false, stop := false)
  {
    hide Leads;
    LeadsOn(r, s, Order(StopRun));
    var s1 := Next(s, Order(StopRun));
    LeadsOn(r, s1, Pass());
    t := Next(s1, Pass());
  }

  lemma EmptyClose(b: Back, first: nat -> bool, second: nat -> bool)
    requires b.aggr == [] && b.queue == []
    ensures var c := StopAndClose(b, true, first, second, true);
            && c.aggr == [] && c.queue == [] && c.mode == NoMode && !c.stop && c.cal == b.cal && c.cfg == b.cfg
  {
    assert Flush(b) == b && Drain(b, 0, first) == b && Drain(b, 0, second) == b;
  }

  lemma StoreOne(b: Back)
    requires b.cfg == Cfg() && b.aggr == [] && |b.queue| < QUEUE_DEPTH
    ensures var c := StoreSample(b, Zero());
            && SameSetup(b, c) && c.aggr == [] && c.queue == b.queue + [[Zero()]] && c.log == b.log && c.cal == b.cal
            && c.run.stored == b.run.stored + [Zero()] && c.run.lost == b.run.lost && c.run.unsaved == b.run.unsaved
            && c.run.written == b.run.written
  {
    hide QueuedBytes, Zero;
    assert b.aggr + [Zero()] == [Zero()];
    if b.queue == [] { assert b.queue + [[Zero()]] == [[Zero()]]; }
  }

  /** The first run: start, acquire. */
  lemma FirstRun() returns (t: Sys)
    ensures Leads(Init(), t) && Ready1(t) && t.back.run == NewRun(LogRun, false, 0) && t.back.mode == LogMode
    ensures t.back.log == [] && t.back.logOpen && !t.back.start && t.back.queue == []
  {
    hide Leads;
    LeadsSelf(Init());
    LeadsOn(Init(), Init(), Order(StartLog(Cfg(), 0)));
    var s1 := Next(Init(), Order(StartLog(Cfg(), 0)));
    assert ValidConfig(Cfg());
    t := Arm(s1);
    WorkLeads(Init(), s1, t);
  }

  /** A log run can be complete: one frame captured, its packing in the log, the machine at rest. */
  lemma CompleteRunExists()
    ensures exists steps :: var s := Execute(Init(), steps); var r := s.back.run;
              && s.front.state == MachineState.Idle && r.kind == LogRun && !r.late && Configured(s.back)
              && r.lost == 0 && r.unsaved == 0 && r.stored == [Zero()] && s.back.log == Pack(0xFF, r.stored)
  {
    var s0 := FirstRun();
    var s1 := OneFrame(s0);
    WorkLeads(Init(), s0, s1);
    StoreOne(s0.back);
    WriteOne(StoreSample(s0.back, Zero()));
    var s2 := StopAcquiring(Init(), s1);
    var s3 := Halt(Init(), s2);
    LeadsOn(Init(), s3, Pass());
    hide Leads, StoreSample, ServiceWrite, Pack, Execute;
    var s4 := Next(s3, Pass());
    RestOne(s3);
    assert Leads(Init(), s4);
    LeadsSteps(Init(), s4);
  }

  lemma LeadsSteps(s: Sys, t: Sys)
    requires Leads(s, t)
    ensures exists steps :: Execute(s, steps) == t
  {}

  lemma WriteOne(b: Back)
    requires b.mode == LogMode && b.logOpen && b.cfg == Cfg() && b.queue == [[Zero()]] && b.log == []
    ensures var c := ServiceWrite(b, true);
            && c.queue == [] && c.log == Pack(0xFF, [Zero()]) && SameSetup(b, c) && c.aggr == b.aggr
            && c.run.stored == b.run.stored && c.run.lost == b.run.lost && c.run.unsaved == b.run.unsaved
  {
    hide Pack, Zero;
    PackFits(0xFF, [Zero()]);
    assert b.queue[0] == [Zero()];
  }

  lemma RestOne(s: Sys)
    requires s.pc == AtPoll && s.front.state == Finalizing && s.back.queue == [] && s.back.aggr == [] && !s.front.armed
    requires s.back.mode == LogMode
    ensures var t := Next(s, Pass());
            && t.front.state == MachineState.Idle && t.back.run == s.back.run && t.back.log == s.back.log
                && t.back.mode == NoMode
            && t.back.queue == [] && t.back.aggr == [] && t.back.cfg == s.back.cfg && t.back.cal == s.back.cal
            && t.back.start == s.back.start && t.back.stop == s.back.stop && t.pc == AtPoll
            && t.front == SetState(s.front, MachineState.Idle, false)
  {}

  /**
   A start handled in STOPPING is overtaken: the machine rests once, runs without a mode, and after the
   next stop keeps a stored sample queued for ever, the log staying empty.
   */
  lemma OvertakenRunExists()
    ensures exists steps :: var s := Execute(Init(), steps); var r := s.back.run;
              && r.kind == LogRun && r.late && Configured(s.back) && r.lost == 0 && r.unsaved == 0
              && r.stored == [Zero()] && s.back.log == []
              && forall env: Env, n: nat :: PassTimes(s, env, n).front.state == Finalizing
  {
    var s0 := FirstRun();
    var s1 := StopAcquiring(Init(), s0);
    LeadsOn(Init(), s1, Order(StartLog(Cfg(), 0)));
    var s2 := Next(s1, Order(StartLog(Cfg(), 0)));
    assert ValidConfig(Cfg());
    var s3 := Halt(Init(), s2);
    LeadsOn(Init(), s3, Pass());
    RestOne(s3);
    var s4 := Next(s3, Pass());
    var s5 := Arm(s4);
    WorkLeads(Init(), s4, s5);
    assert Ready1(s5);
    var s6 := OneFrame(s5);
    WorkLeads(Init(), s5, s6);
    StoreOne(s5.back);
    hide Leads, StoreSample, ServiceWrite, Pack, Execute;
    NoModeNoWrite(StoreSample(s5.back, Zero()));
    var s7 := StopAcquiring(Init(), s6);
    var s8 := Halt(Init(), s7);
    LeadsSteps(Init(), s8);
    forall env: Env, n: nat ensures PassTimes(s8, env, n).front.state == Finalizing {
      StuckPasses(s8, env, n);
    }
  }

  lemma NoModeNoWrite(b: Back)
    requires b.mode == NoMode
    ensures ServiceWrite(b, true) == b
  {}

  /** At rest with one frame in the ring: the next log run stores it. */
  lemma StaleFrameIsStored(s: Sys) returns (t: Sys)
    requires s.pc == AtPoll && s.front.state == MachineState.Idle && s.back.mode == NoMode
    requires s.front.ring.count == 1 && !s.front.ring.busy && !s.front.ring.error
    requires s.front.ring.frameSize == FRAME_BYTES && s.front.ring.slots[s.front.ring.tail] == Blank()
    requires s.back.aggr == [] && s.back.queue == [] && !s.back.cal.active && !s.back.stop
    ensures Leads(Next(s, Order(StartLog(Cfg(), 0))), t)
    ensures t.back.run.kind == LogRun && t.back.run.stored == [Zero()] && t.front.log.accepted == 0
  {
    hide Leads, Works, StoreSample, ServiceWrite;
    var s6 := Next(s, Order(StartLog(Cfg(), 0)));
    assert ValidConfig(Cfg());
    LeadsSelf(s6);
    var s7 := Arm(s6);
    t := TakeOne(s7);
    WorksTrans(s6, s7, t);
    WorkLeads(s6, s6, t);
    StoreOne(s7.back);
    WriteOne(StoreSample(s7.back, Zero()));
  }

  /**
   A transfer started while DAQ_StopAndClose was taking frames can complete afterwards, and its frame then
   waits in the ring: here a new log run stores a sample although no data-ready event follows its start.
   */
  lemma StaleFrameEntersNextRun()
    ensures exists s, t ::
              && Leads(Init(), s) && s.pc == AtPoll && s.front.state == MachineState.Idle && s.back.mode == NoMode
              && Leads(Next(s, Order(StartLog(Cfg(), 0))), t)
              && t.back.run.kind == LogRun && t.back.run.stored == [Zero()] && t.front.log.accepted == 0
  {
    var s0 := FirstRun();
    hide Leads;
    LeadsOn(Init(), s0, Order(StopClose));
    var s1 := Next(s0, Order(StopClose));
    LeadsOn(Init(), s1, Drdy(true));
    var s2 := Next(s1, Drdy(true));
    assert s2.front.ring.busy && s2.front.ring.slots[s2.front.ring.active] == Blank() && s2.front.ring.count == 0;
    LeadsOn(Init(), s2, Pass());
    var s3 := Next(s2, Pass());
    LeadsOn(Init(), s3, Pass());
    var s4 := Next(s3, Pass());
    assert s3.back == s0.back && s3.pc == Ending(Closing) && s3.front == s2.front;
    assert s4.back == StopAndClose(s0.back, true, Answer(RunMachine).first, Answer(RunMachine).second, true);
    EmptyClose(s0.back, Answer(RunMachine).first, Answer(RunMachine).second);
    LeadsOn(Init(), s4, Done(true));
    var s5 := Next(s4, Done(true));
    assert s5.front.ring.count == 1 && s5.front.state == MachineState.Idle && s5.pc == AtPoll;
    var t := StaleFrameIsStored(s5);
  }
}
