/**
 What holds in every run of the two cores in which no wait is given up before its reply is in the slot; that
 lockstep holds throughout in no other run; and what a timeout that comes too early is enough to break.
 */
module TwoCoreTheorems {
  import opened Bytes
  import opened Packing
  import DmaRing
  import opened Calibration
  import opened Capture
  import opened Storage
  import opened Board
  import opened TwoCore
  import Scenarios

  /** At most one message is in flight, and no wait ever ends with a reply to another operation. */
  lemma OneMessageInFlight(steps: seq<DuoStep>)
    requires Timely(steps)
    ensures var d := RunDuo(InitDuo(), steps);
            |d.requests| + |d.replies| <= 1 && d.mismatches == 0
  {
    EveryDuoRun(steps);
    hide RunDuo, Inv, Account, InBuffer, Timely;
  }

  /**
   The cores are never both at the shared buffer, whatever operation announced its contents, and these stay
   put from the announcement until they are fetched: no step of either core writes the buffer in between.
   */
  lemma BufferIsExclusive(steps: seq<DuoStep>, step: DuoStep)
    requires Timely(steps)
    ensures var d := RunDuo(InitDuo(), steps);
            && (d.master.Using? ==>
                  d.remote.Polling? && d.requests == [] && (!step.Fetch? ==> NextDuo(d, step).master == d.master))
            && (AnswerWaits(d) ==> NextDuo(d, step).buffer == d.buffer)
  {
    EveryDuoRun(steps);
    var d := RunDuo(InitDuo(), steps);
    hide RunDuo, DuoInv, Timely, NextDuo, AnswerWaits, Lockstep;
    LockstepPart(d);
    if AnswerWaits(d) {
      NothingToAccept(d);
      BufferStays(d, step);
    }
    if d.master.Using? { UsesAlone(d, step); }
  }

  lemma UsesAlone(d: Duo, step: DuoStep)
    requires Lockstep(d) && d.master.Using?
    ensures d.remote.Polling? && d.requests == [] && (!step.Fetch? ==> NextDuo(d, step).master == d.master)
  {
    hide Next, Answers;
  }

  lemma BufferStays(d: Duo, step: DuoStep)
    requires d.requests == []
    ensures NextDuo(d, step).buffer == d.buffer
  {
    hide Next, Announces;
  }

  lemma NothingToAccept(d: Duo)
    requires Lockstep(d) && AnswerWaits(d)
    ensures d.requests == []
  {
    hide Answers;
  }

  /**
   What the network core fetches is what the acquisition core announced for this very request: all of it,
   except that a file stream asked for with length 0 reads nothing. So a probe always finds its pattern.
   */
  lemma FetchReadsWhatWasAnnounced(steps: seq<DuoStep>)
    requires Timely(steps) && RunDuo(InitDuo(), steps).master.Using?
    ensures var d := RunDuo(InitDuo(), steps); var r := d.master.request; var e := NextDuo(d, Fetch);
            && e.master.Free?
            && e.seen == (if r.AskShared? && r.shared.ReadFileStream? && r.length == 0 then [] else d.wrote)
            && (r.AskShared? && r.shared.ProbeBuffer? ==> e.seen == ProbeBytes())
            && e.got == (if r.AskBlock? then d.got + d.wrote else d.got)
  {
    EveryDuoRun(steps);
    hide RunDuo, Inv, Account, Timely, Lockstep, InBuffer, NextDuo;
    FetchReads(RunDuo(InitDuo(), steps));
  }

  lemma FetchReads(d: Duo)
    requires Lockstep(d) && InBuffer(d) && d.master.Using?
    ensures var r := d.master.request; var e := NextDuo(d, Fetch);
            && e.master.Free?
            && e.seen == (if r.AskShared? && r.shared.ReadFileStream? && r.length == 0 then [] else d.wrote)
            && (r.AskShared? && r.shared.ProbeBuffer? ==> e.seen == ProbeBytes())
            && e.got == (if r.AskBlock? then d.got + d.wrote else d.got)
  {
    hide ProbeBytes, Answers, Announces, ToRead;
    assert d.buffer[..|d.wrote|] == d.wrote;
    ReadsAll(d.master.request, d.master.reply);
  }

  lemma ReadsAll(r: Request, reply: Reply)
    requires Answers(reply, r) && Announces(r, reply)
    ensures ToRead(r, reply) ==
            (if r.AskShared? && r.shared.ReadFileStream? && r.length == 0 then 0 else reply.length)
  {}

  lemma AllWritten(b: Back)
    requires RunOk(b) && b.run.fate == Intact && b.run.unsaved == 0
    ensures b.run.pushed == b.run.written + b.queue
  {
    hide Tally, ByteCount;
    SubsequenceFull(b.run.written, b.run.popped);
  }

  /**
   The network core reads the queued blocks in order, each exactly once: as long as the run's buffers are
   not discarded, every block request was long enough and no announced block was given up, what it has read,
   the block still in the shared buffer and the blocks still queued are together the blocks pushed since
   the run began.
   */
  lemma {:induction false} BlocksArriveInOrder(steps: seq<DuoStep>)
    requires Timely(steps)
    requires var d := RunDuo(InitDuo(), steps);
             d.sys.back.run.kind == StreamRun && d.sys.back.run.fate == Intact && d.ample && d.kept
    ensures var d := RunDuo(InitDuo(), steps); var b := d.sys.back;
            d.got + Unread(d) + Wire(Flatten(b.queue)) == Wire(Flatten(b.run.pushed))
  {
    EveryDuoRun(steps);
    var d := RunDuo(InitDuo(), steps);
    var b := d.sys.back;
    DuoParts(d);
    hide RunDuo, DuoInv, RunOk, Wire, Flatten, Account, Unread;
    AllWritten(b);
    FlattenAppend(b.run.written, b.queue);
    WireAppend(Flatten(b.run.written), Flatten(b.queue));
  }

  lemma DuoParts(d: Duo)
    requires DuoInv(d)
    ensures RunOk(d.sys.back)
    ensures OnStream(d.sys.back) ==>
              var handed := Wire(Flatten(d.sys.back.run.written));
              && (if d.kept then d.got + Unread(d) == handed else |d.got + Unread(d)| < |handed|)
              && (d.ample ==> d.sys.back.run.unsaved == 0)
  {
    hide FrontPart, BackOk, RunOk, Shape, Quiet, Regular, Overtaken, Provenance, Lockstep, Unread, InBuffer, Flatten,
      Wire;
  }

  /** With no block refused by the queue, nothing stored is missing either. */
  lemma {:induction false} NothingStoredIsMissing(steps: seq<DuoStep>)
    requires Timely(steps)
    requires var d := RunDuo(InitDuo(), steps);
             && d.sys.back.run.kind == StreamRun && d.sys.back.run.fate == Intact && d.ample && d.kept
             && d.sys.back.run.lost == 0
    ensures var d := RunDuo(InitDuo(), steps); var b := d.sys.back;
            d.got + Unread(d) + Wire(Flatten(b.queue)) + Wire(b.aggr) == Wire(b.run.stored)
  {
    BlocksArriveInOrder(steps);
    EveryDuoRun(steps);
    var d := RunDuo(InitDuo(), steps);
    DuoParts(d);
    hide RunDuo, DuoInv, Wire, Tally, ByteCount, Unread;
    var b := d.sys.back;
    SubsequenceFull(b.run.pushed, b.run.formed);
    hide RunOk, Flatten;
    WireAppend(Flatten(b.run.formed), b.aggr);
  }

  /** Byte and sample counts of every reply that announces a block agree. */
  lemma CountsAgree(steps: seq<DuoStep>)
    requires Timely(steps)
    ensures var d := RunDuo(InitDuo(), steps);
            BlockWaits(d) ==>
              |Outstanding(d)| == 1 && Outstanding(d)[0].length == FRAME_SIZE * Outstanding(d)[0].value > 0
  {
    EveryDuoRun(steps);
    hide RunDuo, Inv, Account, InBuffer, Timely;
    var d := RunDuo(InitDuo(), steps);
    if BlockWaits(d) { OneOutstanding(d); }
  }

  lemma OneOutstanding(d: Duo)
    requires Lockstep(d) && AnswerWaits(d)
    ensures |Outstanding(d)| == 1 && Answers(Outstanding(d)[0], d.master.request)
    ensures Announces(d.master.request, Outstanding(d)[0])
  {
    hide Answers, Announces;
    assert Outstanding(d)[0] in Outstanding(d);
  }

  // ----- exactly when a timeout is harmless -----

  /** Giving a wait up leaves the cores in lockstep if and only if the reply is already in the slot. */
  lemma GiveUpKeepsLockstepIff(d: Duo)
    requires DuoInv(d) && d.master.Waiting?
    ensures Lockstep(NextDuo(d, GiveUp)) <==> d.master.answer != []
  {
    if d.master.answer != [] { SlotIsOutstanding(d); }
    hide Inv, Account, InBuffer, Answers;
  }

  /** Of a stream nothing is lost by it if and only if that reply does not announce a block. */
  lemma GiveUpLosesNothingIff(d: Duo)
    requires DuoInv(d) && d.master.Waiting? && d.master.answer != [] && OnStream(d.sys.back) && d.kept
    ensures var e := NextDuo(d, GiveUp);
            e.got + Unread(e) == Wire(Flatten(e.sys.back.run.written)) <==> !BlockInSlot(d)
  {
    hide DuoInv, Wire, Flatten, Unread, BlockInSlot, NextDuo, OnStream;
    GiveUpEffect(d);
    GiveUpKeeps(d);
    DuoParts(NextDuo(d, GiveUp));
  }

  lemma GiveUpEffect(d: Duo)
    requires d.master.Waiting?
    ensures var e := NextDuo(d, GiveUp); e.sys == d.sys && e.kept == (d.kept && !BlockInSlot(d))
  {}

  /** A run keeps the cores in lockstep throughout if and only if no wait is given up too early. */
  lemma {:induction false} LockstepThroughoutIff(steps: seq<DuoStep>)
    ensures (forall k :: 0 <= k <= |steps| ==> Lockstep(RunDuo(InitDuo(), steps[..k]))) <==> Timely(steps)
  {
    hide Lockstep, RunDuo, InTime;
    if Timely(steps) {
      forall k | 0 <= k <= |steps| ensures Lockstep(RunDuo(InitDuo(), steps[..k])) {
        TimelySoFar(steps, k);
        EveryDuoRun(steps[..k]);
        LockstepPart(RunDuo(InitDuo(), steps[..k]));
      }
    } else {
      var n :| 0 <= n < |steps| && !InTimeAt(steps, n);
      var k := FirstEarly(steps, n);
      EveryDuoRun(steps[..k]);
      var d := RunDuo(InitDuo(), steps[..k]);
      EarlyBreaks(d, steps[k]);
      RunSnoc(InitDuo(), steps[..k], steps[k]);
      assert steps[..k] + [steps[k]] == steps[..k + 1];
    }
  }

  lemma EarlyBreaks(d: Duo, step: DuoStep)
    requires DuoInv(d) && !InTime(d, step)
    ensures !Lockstep(NextDuo(d, step))
  {
    hide DuoInv, Lockstep, NextDuo;
    GiveUpKeepsLockstepIff(d);
  }

  lemma LockstepPart(d: Duo)
    requires DuoInv(d)
    ensures Lockstep(d)
  {
    hide Inv, Lockstep, Account, InBuffer;
  }

  /** The first wait of a run that is given up too early. */
  lemma FirstEarly(steps: seq<DuoStep>, n: nat) returns (k: nat)
    requires n < |steps| && !InTimeAt(steps, n)
    ensures k < |steps| && !InTimeAt(steps, k) && Timely(steps[..k])
  {
    hide InTimeAt;
    if m: nat :| m < n && !InTimeAt(steps, m) {
      k := FirstEarly(steps, m);
    } else {
      k := n;
      forall j | 0 <= j < n ensures InTimeAt(steps[..n], j) { SameEarlier(steps, n, j); }
    }
  }

  lemma SameEarlier(steps: seq<DuoStep>, n: nat, k: nat)
    requires k < n <= |steps|
    ensures InTimeAt(steps[..n], k) <==> InTimeAt(steps, k)
  {
    hide InTime, RunDuo;
    assert steps[..n][..k] == steps[..k];
  }

  // ----- runs -----

  lemma RunSnoc(d: Duo, steps: seq<DuoStep>, step: DuoStep)
    ensures RunDuo(d, steps + [step]) == NextDuo(RunDuo(d, steps), step)
  {
    assert (steps + [step])[..|steps|] == steps;
  }

  ghost predicate Patient(steps: seq<DuoStep>) {
    forall step :: step in steps ==> !step.GiveUp?
  }

  /** `e` is reached from `d`. */
  ghost predicate Reaches(d: Duo, e: Duo) {
    exists steps :: RunDuo(d, steps) == e
  }

  /** `e` is reached from `d` with no wait given up. */
  ghost predicate ReachesPatiently(d: Duo, e: Duo) {
    exists steps :: Patient(steps) && RunDuo(d, steps) == e
  }

  lemma PatientOn(d: Duo, e: Duo, step: DuoStep)
    requires ReachesPatiently(d, e) && !step.GiveUp?
    ensures ReachesPatiently(d, NextDuo(e, step))
  {
    hide NextDuo;
    var steps :| Patient(steps) && RunDuo(d, steps) == e;
    RunSnoc(d, steps, step);
    assert Patient(steps + [step]);
  }

  lemma PatientSelf(d: Duo)
    ensures ReachesPatiently(d, d)
  {
    assert RunDuo(d, []) == d && Patient([]);
  }

  lemma {:induction false} RunAppend(d: Duo, xs: seq<DuoStep>, ys: seq<DuoStep>)
    ensures RunDuo(d, xs + ys) == RunDuo(RunDuo(d, xs), ys)
  {
    if ys == [] {
      assert xs + ys == xs;
    } else {
      var n := |ys| - 1;
      RunAppend(d, xs, ys[..n]);
      assert (xs + ys)[..|xs + ys| - 1] == xs + ys[..n];
    }
  }

  lemma ReachesOn(d: Duo, e: Duo, step: DuoStep)
    requires Reaches(d, e)
    ensures Reaches(d, NextDuo(e, step))
  {
    hide NextDuo;
    var steps :| RunDuo(d, steps) == e;
    RunSnoc(d, steps, step);
  }

  lemma ReachesThen(d: Duo, e: Duo, f: Duo)
    requires Reaches(d, e) && ReachesPatiently(e, f)
    ensures Reaches(d, f)
  {
    var xs :| RunDuo(d, xs) == e;
    var ys :| Patient(ys) && RunDuo(e, ys) == f;
    RunAppend(d, xs, ys);
  }

  lemma PatientThen(d: Duo, e: Duo, f: Duo)
    requires ReachesPatiently(d, e) && ReachesPatiently(e, f)
    ensures ReachesPatiently(d, f)
  {
    var xs :| Patient(xs) && RunDuo(d, xs) == e;
    var ys :| Patient(ys) && RunDuo(e, ys) == f;
    RunAppend(d, xs, ys);
    assert Patient(xs + ys);
  }

  lemma Reflexive(d: Duo)
    ensures Reaches(d, d)
  {
    assert RunDuo(d, []) == d;
  }

  // ----- what a timeout that comes too early can do -----

  /** How far the main loop is from its next poll when no event is claimed twice and every guard has run out. */
  function Distance(pc: Pc): nat {
    match pc
    case AtPoll => 0
    case Ending(job) => 1 + JobWeight(job)
    case Check(left, job) => 3 * left + 2 + JobWeight(job)
    case Grab(left, job) => 3 * left + 4 + JobWeight(job)
    case Reading(_, left, job) => 3 * left + 3 + JobWeight(job)
    case GiveBack(job) => 3 * FrameBudget(job) + 3 + JobWeight(job)
    case StartNext(left, job) => 3 * FrameBudget(job) + 5 + 2 * left + JobWeight(job)
    case Claim(left, job) => 3 * FrameBudget(job) + 4 + 2 * left + JobWeight(job)
  }

  function JobWeight(job: Job): nat {
    if job.Averaging? then 3 * BLOCK_CAPACITY + 10 else 0
  }

  /** The answers with which the main loop moves on towards its poll. */
  function Onward(pc: Pc): Env {
    var now := if pc.Ending? && pc.job.Averaging? then pc.job.guardTick else 0;
    Yes().env.(now := now)
  }

  lemma OnwardIsCloser(s: Sys)
    requires s.pc != AtPoll
    ensures Distance(Next(s, Main(Onward(s.pc))).pc) < Distance(s.pc)
  {
    hide ServiceWrite, Flush, StopAndClose, AbortAll, EndCalibration, Begin, Begins, ClaimPending, ReturnPending,
      DmaRing.MayTake, TakeFrame, ParseSlot, StoreFrame, ClearPending, SetState;
  }

  /** Left alone, the acquisition core can get back to its poll. */
  lemma {:induction false} BackToPoll(d: Duo) returns (e: Duo)
    ensures ReachesPatiently(d, e) && e.sys.pc == AtPoll && e == d.(sys := e.sys)
    decreases Distance(d.sys.pc)
  {
    hide Next, ReachesPatiently, Distance, Onward;
    PatientSelf(d);
    if d.sys.pc == AtPoll {
      e := d;
    } else {
      var step := Work(Main(Onward(d.sys.pc)));
      OnwardIsCloser(d.sys);
      PatientOn(d, d, step);
      var d1 := NextDuo(d, step);
      e := BackToPoll(d1);
      PatientThen(d, d1, e);
    }
  }

  /** A request for another operation than `r`'s. */
  function Another(r: Request): (other: Request)
    ensures OpOf(other) != OpOf(r)
  {
    if OpOf(r) == OP_STOP then AskOther(99) else AskStop
  }

  /** A reply to an abandoned request is taken for the answer to the next one. */
  lemma StaleReplyMismatches(d: Duo, r: Request) returns (e: Duo)
    requires d.master == Waiting(Another(r), []) && d.mismatches == 0
    requires d.replies != [] && d.replies[0].op == OpOf(r)
    ensures ReachesPatiently(d, e) && e.mismatches == 1
  {
    hide ReachesPatiently;
    PatientSelf(d);
    PatientOn(d, d, Deliver);
    var d1 := NextDuo(d, Deliver);
    PatientOn(d, d1, Finish);
    e := NextDuo(d1, Finish);
  }

  lemma StaleHandlingMismatches(d: Duo, r: Request) returns (e: Duo)
    requires d.master == Waiting(Another(r), []) && d.mismatches == 0
    requires d.remote.Handling? && d.remote.reply.op == OpOf(r) && d.replies == []
    ensures ReachesPatiently(d, e) && e.mismatches == 1
  {
    hide ReachesPatiently;
    var d1 := BackToPoll(d);
    PatientOn(d, d1, Respond);
    var d2 := NextDuo(d1, Respond);
    e := StaleReplyMismatches(d2, r);
    PatientThen(d, d2, e);
  }

  lemma StaleRequestMismatches(d: Duo, r: Request) returns (e: Duo)
    requires d.master == Waiting(Another(r), []) && d.mismatches == 0
    requires d.remote.Polling? && d.replies == [] && d.requests != [] && d.requests[0] == r
    ensures ReachesPatiently(d, e) && e.mismatches == 1
  {
    hide ReachesPatiently, Next, Copied, PutInBuffer, Announces;
    var d1 := BackToPoll(d);
    PatientOn(d, d1, Accept(Yes()));
    var d2 := NextDuo(d1, Accept(Yes()));
    e := StaleHandlingMismatches(d2, r);
    PatientThen(d, d2, e);
  }

  /**
   A timeout is harmless exactly if the reply is already in the slot: after any other timeout the next
   request can be answered with -5 although no further wait is given up.
   */
  lemma {:induction false} HarmlessIff(d: Duo)
    requires DuoInv(d) && d.master.Waiting?
    ensures (forall e :: ReachesPatiently(NextDuo(d, GiveUp), e) ==> e.mismatches == 0) <==> d.master.answer != []
  {
    var r, d1 := d.master.request, NextDuo(d, GiveUp);
    if d.master.answer != [] {
      assert DuoInv(d1) by { GiveUpKeeps(d); }
      hide DuoInv, ReachesPatiently, NextDuo;
      forall e | ReachesPatiently(d1, e) ensures e.mismatches == 0 { PatientKeeps(d1, e); }
    } else {
      var e := EarlyMismatches(d);
    }
  }

  lemma PatientKeeps(d: Duo, e: Duo)
    requires DuoInv(d) && ReachesPatiently(d, e)
    ensures e.mismatches == 0
  {
    hide DuoInv, NextDuo, RunDuo;
    var steps :| Patient(steps) && RunDuo(d, steps) == e;
    PatientRunKeeps(d, steps);
    assert Lockstep(e) by { LockstepPart(e); }
  }

  lemma {:induction false} PatientRunKeeps(d: Duo, steps: seq<DuoStep>)
    requires DuoInv(d) && Patient(steps)
    ensures DuoInv(RunDuo(d, steps))
  {
    hide DuoInv, NextDuo;
    if steps != [] {
      var n := |steps| - 1;
      assert steps[n] in steps && Patient(steps[..n]);
      PatientRunKeeps(d, steps[..n]);
      NextDuoKeeps(RunDuo(d, steps[..n]), steps[n]);
    }
  }

  lemma EarlyMismatches(d: Duo) returns (e: Duo)
    requires DuoInv(d) && d.master.Waiting? && d.master.answer == []
    ensures ReachesPatiently(NextDuo(d, GiveUp), e) && e.mismatches == 1
  {
    LockstepPart(d);
    hide DuoInv, ReachesPatiently, Inv, Account, InBuffer;
    var r, d1 := d.master.request, NextDuo(d, GiveUp);
    PatientSelf(d1);
    PatientOn(d1, d1, Send(Another(r)));
    var d2 := NextDuo(d1, Send(Another(r)));
    assert d2.master == Waiting(Another(r), []) && d2.requests == d.requests + [Another(r)];
    if d.requests != [] {
      e := StaleRequestMismatches(d2, r);
    } else if d.remote.Handling? {
      assert d.remote.reply in Outstanding(d);
      e := StaleHandlingMismatches(d2, r);
    } else {
      assert d.replies[0] in Outstanding(d);
      e := StaleReplyMismatches(d2, r);
    }
    PatientThen(d1, d2, e);
  }

  /** The environment answering yes to everything. */
  function Yes(): Service {
    Service(Scenarios.Answer(RunMachine), 0, 0, [], 0)
  }

  /**
   One timeout is enough. In every state in which two blocks are queued, a block request that times out and
   is repeated leads to a state in which the network core is reading the shared buffer while the acquisition
   core has overwritten it.
   */
  lemma TimeoutBreaksExclusion(d: Duo) returns (e: Duo)
    requires DuoInv(d) && d.master.Free? && d.sys.pc == AtPoll
    requires d.sys.back.mode == StreamMode && |d.sys.back.queue| >= 2
    ensures Reaches(d, e) && e.master.Using? && e.remote.Handling? && |e.requests| == 0
    ensures e.master.request == AskBlock(0) && e.master.reply == ReplyTo(AskBlock(0), d.sys.back, Yes())
    ensures Wire(d.sys.back.queue[1]) <= e.buffer
  {
    var b := d.sys.back;
    Reflexive(d);
    QueuedFit(d.sys);
    hide Inv, Reaches, Wire, RunDuo;
    var ask := AskBlock(0);
    var d1 := NextDuo(d, Send(ask));
    ReachesOn(d, d, Send(ask));
    var d2 := NextDuo(d1, GiveUp);
    ReachesOn(d, d1, GiveUp);
    var d3 := NextDuo(d2, Send(ask));
    ReachesOn(d, d2, Send(ask));
    assert d3 == d.(master := Waiting(ask, []), requests := [ask, ask]);
    e := AnswerTwice(d, d3);
  }

  lemma QueuedFit(s: Sys)
    requires Inv(s) && |s.back.queue| >= 2
    ensures forall i :: 0 <= i < 2 ==> |s.back.queue[i]| * FRAME_SIZE <= SHARED_LEN
  {
    hide FrontPart, RunOk, Shape, Quiet, Regular, Overtaken, Provenance;
    assert GoodBlock(s.back.queue[0]) && GoodBlock(s.back.queue[1]);
  }

  lemma AnswerTwice(d: Duo, d3: Duo) returns (e: Duo)
    requires Reaches(d, d3) && d.sys.pc == AtPoll && d.remote.Polling? && d.replies == [] && |d.buffer| == SHARED_LEN
    requires d.sys.back.mode == StreamMode && |d.sys.back.queue| >= 2
    requires forall i :: 0 <= i < 2 ==> |d.sys.back.queue[i]| * FRAME_SIZE <= SHARED_LEN
    requires d3 == d.(master := Waiting(AskBlock(0), []), requests := [AskBlock(0), AskBlock(0)])
    ensures Reaches(d, e) && e.master.Using? && e.remote.Handling? && |e.requests| == 0
    ensures e.master.request == AskBlock(0) && e.master.reply == ReplyTo(AskBlock(0), d.sys.back, Yes())
    ensures Wire(d.sys.back.queue[1]) <= e.buffer
  {
    hide Reaches, Wire, ReplyTo;
    var b := d.sys.back;
    var d4 := NextDuo(d3, Accept(Yes()));
    ReachesOn(d, d3, Accept(Yes()));
    assert d4.sys.pc == AtPoll && d4.requests == [AskBlock(0)] && d4.replies == [];
    assert d4.sys.back.queue == b.queue[1..] && d4.sys.back.mode == StreamMode;
    assert d4.remote == Handling(AskBlock(0), ReplyTo(AskBlock(0), b, Yes()));
    FirstAnnounced(b);
    var d7 := AnswerArrives(d, d4);
    e := NextDuo(d7, Accept(Yes()));
    ReachesOn(d, d7, Accept(Yes()));
    WireLength(b.queue[1]);
    CopiedStarts(d7.buffer, Wire(b.queue[1]), |Wire(b.queue[1])|);
  }

  lemma FirstAnnounced(b: Back)
    requires b.mode == StreamMode && b.queue != [] && |b.queue[0]| * FRAME_SIZE <= SHARED_LEN
    ensures var reply := ReplyTo(AskBlock(0), b, Yes());
            reply.op == OP_READ_SHARED && Announces(AskBlock(0), reply)
  {}

  /** The reply of the request carried out is sent, arrives and ends the wait. */
  lemma AnswerArrives(d: Duo, s: Duo) returns (e: Duo)
    requires Reaches(d, s) && s.sys.pc == AtPoll && s.replies == [] && s.master == Waiting(AskBlock(0), [])
    requires s.remote.Handling? && s.remote.reply.op == OP_READ_SHARED
    requires Announces(AskBlock(0), s.remote.reply)
    ensures Reaches(d, e) && e == s.(master := Using(AskBlock(0), s.remote.reply), remote := Polling)
  {
    hide Reaches, Announces;
    var s1 := NextDuo(s, Respond);
    ReachesOn(d, s, Respond);
    var s2 := NextDuo(s1, Deliver);
    ReachesOn(d, s1, Deliver);
    e := NextDuo(s2, Finish);
    ReachesOn(d, s2, Finish);
  }

  /** What the acquisition core reaches alone it reaches while no request is carried out. */
  lemma WorksReaches(d: Duo, t: Sys)
    requires Scenarios.Works(d.sys, t) && d.remote.Polling?
    ensures ReachesPatiently(d, d.(sys := t))
  {
    hide Next, ReachesPatiently;
    var steps :| Scenarios.Alone(steps) && Execute(d.sys, steps) == t;
    AloneReaches(d, steps);
  }

  lemma {:induction false} AloneReaches(d: Duo, steps: seq<Step>)
    requires Scenarios.Alone(steps) && d.remote.Polling?
    ensures ReachesPatiently(d, d.(sys := Execute(d.sys, steps)))
  {
    hide Next, ReachesPatiently;
    if steps == [] {
      PatientSelf(d);
    } else {
      var n := |steps| - 1;
      assert steps[n] in steps && Scenarios.Alone(steps[..n]);
      AloneReaches(d, steps[..n]);
      var e := d.(sys := Execute(d.sys, steps[..n]));
      PatientOn(d, e, Work(steps[n]));
      assert NextDuo(e, Work(steps[n])) == d.(sys := Execute(d.sys, steps));
    }
  }

  /** A stream is started, and two frames are captured, one to a block. */
  lemma TwoBlocksQueued() returns (d: Duo)
    ensures ReachesPatiently(InitDuo(), d) && d.master.Free? && d.remote.Polling? && d.sys.pc == AtPoll
    ensures d.sys.back.mode == StreamMode && d.sys.back.queue == [[Scenarios.Zero()], [Scenarios.Zero()]]
  {
    var d1 := StreamStarted();
    hide ReachesPatiently, Scenarios.Works, StoreSample, ServiceWrite, RunDuo;
    var s2 := Scenarios.Arm(d1.sys);
    WorksReaches(d1, s2);
    var s3 := Scenarios.OneFrame(s2);
    Scenarios.StoreOne(s2.back);
    StreamWritesNothing(StoreSample(s2.back, Scenarios.Zero()));
    Scenarios.WorksTrans(d1.sys, s2, s3);
    assert s3.back.queue == [[Scenarios.Zero()]];
    var s4 := Scenarios.OneFrame(s3);
    Scenarios.StoreOne(s3.back);
    StreamWritesNothing(StoreSample(s3.back, Scenarios.Zero()));
    Scenarios.WorksTrans(d1.sys, s3, s4);
    WorksReaches(d1, s4);
    d := d1.(sys := s4);
    PatientThen(InitDuo(), d1, d);
  }

  lemma StreamWritesNothing(b: Back)
    requires b.mode == StreamMode
    ensures ServiceWrite(b, true) == b
  {}

  lemma StreamStarted() returns (d: Duo)
    ensures ReachesPatiently(InitDuo(), d) && d.master.Free? && d.remote.Polling? && d.sys.pc == AtPoll
    ensures d.sys.front.state == MachineState.Idle && d.sys.front.pending == 0
    ensures d.sys.front.ring.count == 0 && !d.sys.front.ring.busy
    ensures var b := d.sys.back;
            && b.mode == StreamMode && b.start && !b.stop && b.aggr == [] && b.queue == [] && !b.cal.active
            && b.cfg == Scenarios.Cfg()
  {
    hide ReachesPatiently;
    var ask, d0 := AskStream(Scenarios.Cfg()), InitDuo();
    PatientSelf(d0);
    PatientOn(d0, d0, Send(ask));
    var d1 := NextDuo(d0, Send(ask));
    PatientOn(d0, d1, Accept(Yes()));
    var d2 := NextDuo(d1, Accept(Yes()));
    assert ValidConfig(Scenarios.Cfg());
    PatientOn(d0, d2, Respond);
    var d3 := NextDuo(d2, Respond);
    PatientOn(d0, d3, Deliver);
    var d4 := NextDuo(d3, Deliver);
    PatientOn(d0, d4, Finish);
    d := NextDuo(d4, Finish);
  }

  /** So from reset: one core reads the shared buffer while the other has overwritten it. */
  lemma ExclusionCanBreak() returns (e: Duo)
    ensures Reaches(InitDuo(), e) && e.master.Using? && e.remote.Handling?
    ensures Announces(e.master.request, e.master.reply) && Wire([Scenarios.Zero()]) <= e.buffer
  {
    var d := TwoBlocksQueued();
    hide ReachesPatiently, Reaches, RunDuo, DuoInv, NextDuo, InitDuo, Announces, ReplyTo, Wire;
    InitDuoInv();
    PatientlyInv(InitDuo(), d);
    e := TimeoutBreaksExclusion(d);
    ReachesOther(InitDuo(), d, e);
    AnnouncedOnce(d);
  }

  lemma AnnouncedOnce(d: Duo)
    requires d.sys.back.mode == StreamMode && d.sys.back.queue == [[Scenarios.Zero()], [Scenarios.Zero()]]
    ensures Announces(AskBlock(0), ReplyTo(AskBlock(0), d.sys.back, Yes()))
  {
    hide Scenarios.Zero;
    assert |d.sys.back.queue[0]| == 1;
  }

  lemma PatientlyInv(d: Duo, e: Duo)
    requires DuoInv(d) && ReachesPatiently(d, e)
    ensures DuoInv(e)
  {
    hide DuoInv, NextDuo, RunDuo;
    var steps :| Patient(steps) && RunDuo(d, steps) == e;
    PatientRunKeeps(d, steps);
  }

  lemma ReachesOther(d: Duo, e: Duo, f: Duo)
    requires ReachesPatiently(d, e) && Reaches(e, f)
    ensures Reaches(d, f)
  {
    var xs :| Patient(xs) && RunDuo(d, xs) == e;
    var ys :| RunDuo(e, ys) == f;
    RunAppend(d, xs, ys);
  }

  lemma FirstSend(r: Request)
    ensures NextDuo(InitDuo(), Send(r)).master == Waiting(r, [])
  {
    hide Init, Cleared;
  }

  /** And one timeout is enough for a wait to end with the reply to another operation (-5). */
  lemma TimeoutBreaksMatching() returns (e: Duo)
    ensures Reaches(InitDuo(), e) && e.mismatches == 1
  {
    hide Reaches, ReachesPatiently, NextDuo, InitDuo, DuoInv;
    var d, ping := InitDuo(), AskOther(99);
    InitDuoInv();
    Reflexive(d);
    var d1 := NextDuo(d, Send(ping));
    FirstSend(ping);
    ReachesOn(d, d, Send(ping));
    SendKeeps(d, ping);
    e := EarlyMismatches(d1);
    ReachesOn(d, d1, GiveUp);
    ReachesThen(d, NextDuo(d1, GiveUp), e);
  }
}
