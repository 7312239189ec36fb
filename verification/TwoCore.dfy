/**
 The request-reply protocol between the network core (CM7) and the acquisition core (CM4): one global
 reply slot, one shared 16 KiB buffer, two message queues, and a polling wait. The acquisition core is the
 system of module Board, whose commands now arrive only as requests. A step is one action of either core;
 a run is any sequence of steps.
 */
module TwoCore {
  import opened Bytes
  import opened Packing
  import opened DmaRing
  import opened Calibration
  import opened Capture
  import opened Storage
  import opened Board

  const OP_LIST_FILES: nat := 4
  const OP_STREAM_READ_SHARED: nat := 83
  const OP_PROBE: nat := 84
  const OP_RUN_CALIBRATION: nat := 86
  const OP_START_LOG: nat := 91
  const OP_START_STREAM: nat := 92
  const OP_READ_SHARED: nat := 93
  const OP_STOP: nat := 94
  const OP_STOP_CLOSE: nat := 95
  const NOTHING_READ: int := -11
  const PROBE_LEN: nat := 256
  const PROBE_MAGIC: nat := 0x53484D31

  /** The operations besides the block request whose answer lies in the shared buffer. */
  datatype SharedOp = ListFiles | ReadFileStream | ProbeBuffer

  /** The number of an operation that neither touches the acquisition nor the shared buffer. */
  type OtherOp = n: nat | n != 4 && n != 83 && n != 84 && n != 86 && !(91 <= n <= 95) witness 99

  datatype Request =
    | AskLog(cfg: Config)
    | AskStream(cfg: Config)
    | AskBlock(length: nat)
    | AskStop
    | AskStopClose
    | AskCalibration
    | AskShared(shared: SharedOp, length: nat)
    | AskOther(other: OtherOp)

  function OpOf(r: Request): nat {
    match r
    case AskLog(_) => OP_START_LOG
    case AskStream(_) => OP_START_STREAM
    case AskBlock(_) => OP_READ_SHARED
    case AskStop => OP_STOP
    case AskStopClose => OP_STOP_CLOSE
    case AskCalibration => OP_RUN_CALIBRATION
    case AskShared(ListFiles, _) => OP_LIST_FILES
    case AskShared(ReadFileStream, _) => OP_STREAM_READ_SHARED
    case AskShared(ProbeBuffer, _) => OP_PROBE
    case AskOther(other) => other
  }

  datatype Reply = Reply(op: nat, status: int, value: nat, length: nat)

  /** The length `OPENAMP_OP_DAQ_READ_SHMEM` and `OPENAMP_OP_STREAM_READ_SHMEM` work with. */
  function Effective(length: nat): (n: nat)
    ensures 1 <= n <= SHARED_LEN
  {
    if length > SHARED_LEN || length == 0 then SHARED_LEN else length
  }

  /** A request covers `n` bytes of the shared area if it asks for that many, or for 0. */
  lemma EffectiveCovers(length: nat, n: nat)
    requires 1 <= n <= SHARED_LEN
    ensures Effective(length) >= n <==> length == 0 || length >= n
  {}

  type Area = bytes: seq<Byte> | |bytes| <= SHARED_LEN

  /**
   What the environment adds to a request: the file system's answers, the bytes a file operation writes to
   the shared buffer, and how many of them it announces (or, for a file stream, the file's size).
   */
  datatype Service = Service(env: Env, openStatus: int, status: int, scribble: Area, announced: nat)

  function CommandOf(r: Request, openStatus: int): Command {
    match r
    case AskLog(cfg) => StartLog(cfg, openStatus)
    case AskStream(cfg) => StartStream(cfg)
    case AskBlock(length) => ReadBlock(Effective(length))
    case AskStop => StopRun
    case AskStopClose => StopClose
    case AskCalibration => Calibrate
    case AskShared(_, _) => NoCommand
    case AskOther(_) => NoCommand
  }

  datatype Master =
    | Free
    | Waiting(request: Request, answer: seq<Reply>)   // `answer` is the reply slot: empty until a reply came
    | Using(request: Request, reply: Reply)           // an announced answer is still to be read from the buffer

  datatype Remote = Polling | Handling(request: Request, reply: Reply)

  datatype Duo = Duo(
    sys: Sys, master: Master, remote: Remote,
    requests: seq<Request>, replies: seq<Reply>,
    buffer: seq<Byte>,
    wrote: seq<Byte>,       // what the request last carried out announced
    seen: seq<Byte>,        // what the network core last read out of the buffer
    got: seq<Byte>,         // the blocks it has read since the current run began
    kept: bool,             // no block announced since then was given up
    ample: bool,            // every block request since then was long enough for any block
    mismatches: nat)        // waits that ended with -5

  datatype DuoStep =
    | Send(request: Request)
    | Accept(service: Service)    // the acquisition core takes a request and carries it out
    | Work(step: Step)            // the acquisition core goes on by itself
    | Respond
    | Deliver                     // the network core's poll moves a reply to its slot
    | Finish                      // the wait ends with a reply
    | Fetch                       // the announced answer is read out of the shared buffer
    | GiveUp                      // the wait times out

  function InitDuo(): Duo {
    Duo(Init(), Free, Polling, [], [], Cleared(), [], [], [], true, true, 0)
  }

  function Cleared(): (area: seq<Byte>)
    ensures |area| == SHARED_LEN
  {
    seq(16384, _ => 0)
  }

  /** `memcpy` to the start of the shared buffer. */
  function Copied(buffer: seq<Byte>, bytes: seq<Byte>): (r: seq<Byte>)
    ensures |r| == |buffer|
  {
    if |bytes| <= |buffer| then bytes + buffer[|bytes|..] else buffer
  }

  function ProbeByte(i: nat): Byte {
    ((i * 17 + 0x5A) % 256) as Byte
  }

  function ProbeBytes(): (bytes: seq<Byte>)
    ensures |bytes| == PROBE_LEN
  {
    seq(256, (i: nat) => ProbeByte(i))
  }

  function Least(a: nat, b: nat): nat {
    if a <= b then a else b
  }

  /** What carrying out a request writes to the start of the shared buffer. */
  function PutInBuffer(r: Request, b: Back, service: Service): seq<Byte> {
    match r
    case AskBlock(length) => if Delivers(b, Effective(length)) then Wire(b.queue[0]) else []
    case AskShared(ListFiles, _) => service.scribble
    case AskShared(ReadFileStream, length) => service.scribble[..Least(|service.scribble|, Effective(length))]
    case AskShared(ProbeBuffer, _) => ProbeBytes()
    case _ => []
  }

  function ReplyTo(r: Request, b: Back, service: Service): Reply {
    match r
    case AskBlock(length) =>
      if Delivers(b, Effective(length)) then Reply(OP_READ_SHARED, 0, |b.queue[0]|, |b.queue[0]| * FRAME_SIZE)
      else Reply(OP_READ_SHARED, NOTHING_READ, 0, 0)
    case AskShared(ListFiles, _) =>
      var n := Least(service.announced, |service.scribble|);
      Reply(OP_LIST_FILES, service.status, n, if service.status == 0 then n else 0)
    case AskShared(ReadFileStream, length) =>
      Reply(OP_STREAM_READ_SHARED, service.status, service.announced, Least(|service.scribble|, Effective(length)))
    case AskShared(ProbeBuffer, _) => Reply(OP_PROBE, 0, PROBE_MAGIC, PROBE_LEN)
    case _ => Reply(OpOf(r), service.status, 0, 0)
  }

  /** Whether a reply lets the network core go on to read the shared buffer. */
  predicate Announces(r: Request, reply: Reply) {
    && reply.status == 0
    && (r.AskBlock? || r.AskShared?)
    && (r.AskShared? && r.shared.ProbeBuffer? ==> reply.value == PROBE_MAGIC)
  }

  /** How many bytes it then reads. */
  function ToRead(r: Request, reply: Reply): nat {
    match r
    case AskShared(ListFiles, _) => reply.value
    case AskShared(ReadFileStream, length) => Least(reply.length, Least(length, SHARED_LEN))
    case AskShared(ProbeBuffer, _) => Least(reply.length, SHARED_LEN)
    case _ => reply.length
  }

  /** Whether carrying out a request begins a new run. */
  predicate BeginsRun(r: Request, openStatus: int) {
    (r.AskLog? && LoggingStarts(r.cfg, openStatus)) || (r.AskStream? && ValidConfig(r.cfg))
  }

  function Order(r: Request, service: Service): Step {
    Main(service.env.(poll := Serve(CommandOf(r, service.openStatus))))
  }

  function AcceptRequest(d: Duo, service: Service): Duo
    requires d.requests != []
  {
    var r, b := d.requests[0], d.sys.back;
    var begins := BeginsRun(r, service.openStatus);
    var reply, written := ReplyTo(r, b, service), PutInBuffer(r, b, service);
    d.(sys := Next(d.sys, Order(r, service)),
       remote := Handling(r, reply),
       requests := d.requests[1..],
       buffer := Copied(d.buffer, written),
       wrote := if Announces(r, reply) then written[..Least(|written|, reply.length)] else [],
       got := if begins then [] else d.got,
       kept := begins || d.kept,
       ample := begins || (d.ample && (r.AskBlock? ==> Effective(r.length) >= BLOCK_CAPACITY * FRAME_SIZE)))
  }

  /** What the acquisition core may do by itself: while it carries out a request its superloop does not turn. */
  predicate MayWork(d: Duo, step: Step) {
    step.Main? && d.sys.pc == AtPoll ==> step.env.poll.RunMachine? && d.remote.Polling?
  }

  function FinishWait(d: Duo): Duo
    requires d.master.Waiting? && d.master.answer != []
  {
    var r, reply := d.master.request, d.master.answer[0];
    if reply.op != OpOf(r) then d.(master := Free, mismatches := d.mismatches + 1)
    else if Announces(r, reply) then d.(master := Using(r, reply))
    else d.(master := Free)
  }

  function FetchAnswer(d: Duo): Duo
    requires d.master.Using? && ToRead(d.master.request, d.master.reply) <= |d.buffer|
  {
    var bytes := d.buffer[..ToRead(d.master.request, d.master.reply)];
    d.(master := Free, seen := bytes, got := if d.master.request.AskBlock? then d.got + bytes else d.got)
  }

  /** The reply slot holds the announcement of a block. */
  predicate BlockInSlot(d: Duo) {
    && d.master.Waiting? && d.master.request.AskBlock? && d.master.answer != []
    && Announces(d.master.request, d.master.answer[0])
  }

  function NextDuo(d: Duo, step: DuoStep): Duo {
    match step
    case Send(request) =>
      if d.master.Free? then d.(master := Waiting(request, []), requests := d.requests + [request]) else d
    case Accept(service) =>
      if d.remote.Polling? && d.requests != [] && d.sys.pc == AtPoll then AcceptRequest(d, service) else d
    case Work(s) =>
      if MayWork(d, s) then d.(sys := Next(d.sys, s)) else d
    case Respond =>
      if d.remote.Handling? && d.sys.pc == AtPoll then
        d.(remote := Polling, replies := d.replies + [d.remote.reply])
      else d
    case Deliver =>
      if d.master.Waiting? && d.replies != [] then
        d.(master := Waiting(d.master.request, [d.replies[0]]), replies := d.replies[1..])
      else d
    case Finish =>
      if d.master.Waiting? && d.master.answer != [] then FinishWait(d) else d
    case Fetch =>
      if d.master.Using? && ToRead(d.master.request, d.master.reply) <= |d.buffer| then FetchAnswer(d) else d
    case GiveUp =>
      if d.master.Waiting? then d.(master := Free, kept := d.kept && !BlockInSlot(d)) else d
  }

  function RunDuo(d: Duo, steps: seq<DuoStep>): Duo {
    if steps == [] then d else NextDuo(RunDuo(d, steps[..|steps| - 1]), steps[|steps| - 1])
  }

  /** A wait may be given up here without harm: its reply is already in the slot. */
  predicate InTime(d: Duo, step: DuoStep) {
    step.GiveUp? && d.master.Waiting? ==> d.master.answer != []
  }

  ghost predicate InTimeAt(steps: seq<DuoStep>, k: nat)
    requires k < |steps|
  {
    InTime(RunDuo(InitDuo(), steps[..k]), steps[k])
  }

  /** No wait is given up before its reply is in the slot. */
  ghost predicate Timely(steps: seq<DuoStep>) {
    forall k :: 0 <= k < |steps| ==> InTimeAt(steps, k)
  }

  // ----- the invariant -----

  /** The reply that answers the request being waited for or used, wherever it is. */
  function Outstanding(d: Duo): seq<Reply> {
    if d.master.Using? then [d.master.reply]
    else if d.master.Free? then []
    else d.master.answer + (if d.remote.Handling? then [d.remote.reply] else []) + d.replies
  }

  /** A reply fits its request. */
  predicate Answers(reply: Reply, r: Request) {
    && reply.op == OpOf(r)
    && (r.AskBlock? ==> reply.length == FRAME_SIZE * reply.value && (reply.status == 0 ==> reply.value > 0))
    && (r.AskBlock? ==> reply.length <= Effective(r.length))
    && (r.AskShared? && r.shared.ListFiles? && reply.status == 0 ==> reply.length == reply.value)
    && (r.AskShared? && r.shared.ReadFileStream? ==> reply.length <= Effective(r.length))
    && (r.AskShared? && r.shared.ProbeBuffer? ==> reply == Reply(OP_PROBE, 0, PROBE_MAGIC, PROBE_LEN))
  }

  /**
   Lockstep: with no request waited for there is nothing in flight; otherwise exactly one of these holds:
   the request is on its way, is carried out, its reply is on its way, or its reply is in the slot. A reply
   answers the request waited for.
   */
  ghost predicate Lockstep(d: Duo) {
    && d.mismatches == 0
    && (!d.master.Waiting? ==> d.requests == [] && d.replies == [] && d.remote.Polling?)
    && (d.master.Waiting? ==>
          && |d.requests| + |Outstanding(d)| == 1
          && (d.requests != [] ==> d.requests[0] == d.master.request)
          && (d.remote.Handling? ==> d.remote.request == d.master.request)
          && (forall reply :: reply in Outstanding(d) ==> Answers(reply, d.master.request)))
    && (d.master.Using? ==>
          Answers(d.master.reply, d.master.request) && Announces(d.master.request, d.master.reply))
  }

  /** Whether an answer sits in the shared buffer, announced and not yet read. */
  predicate AnswerWaits(d: Duo) {
    d.master.Using? || (d.master.Waiting? && Outstanding(d) != [] && Announces(d.master.request, Outstanding(d)[0]))
  }

  /** The same for a block of samples. */
  predicate BlockWaits(d: Duo) {
    AnswerWaits(d) && d.master.request.AskBlock?
  }

  function Unread(d: Duo): seq<Byte> {
    if BlockWaits(d) && Outstanding(d) != [] && Outstanding(d)[0].length <= |d.buffer| then
      d.buffer[..Outstanding(d)[0].length]
    else []
  }

  /** The current run is a stream whose configuration is the one it was started with. */
  predicate OnStream(b: Back) {
    b.run.kind == StreamRun && Configured(b)
  }

  /** An announced answer is in the shared buffer as it was written. */
  ghost predicate InBuffer(d: Duo) {
    && |d.buffer| == SHARED_LEN
    && (AnswerWaits(d) ==> Outstanding(d)[0].length == |d.wrote| && d.wrote <= d.buffer)
    && (AnswerWaits(d) && d.master.request.AskShared? && d.master.request.shared.ProbeBuffer? ==>
          d.wrote == ProbeBytes())
  }

  /**
   What the network core has read, with the block still in the buffer, is what was handed over; once an
   announced block was given up it is less.
   */
  ghost predicate Account(d: Duo) {
    OnStream(d.sys.back) ==>
      var handed := Wire(Flatten(d.sys.back.run.written));
      && (if d.kept then d.got + Unread(d) == handed else |d.got + Unread(d)| < |handed|)
      && (d.ample ==> d.sys.back.run.unsaved == 0)
  }

  ghost predicate DuoInv(d: Duo) {
    Inv(d.sys) && Lockstep(d) && InBuffer(d) && Account(d)
  }

  lemma InitDuoInv()
    ensures DuoInv(InitDuo())
  {
    InitInv();
    hide Inv, Cleared;
  }

  // ----- the acquisition core's part -----

  /** Neither hands anything over: both are the same stream run, or the second is none. */
  ghost predicate SameHandover(b: Back, c: Back) {
    OnStream(c) ==> OnStream(b) && c.run.written == b.run.written && c.run.unsaved == b.run.unsaved
  }

  lemma EndHandsNothingOver(s: Sys, env: Env)
    requires Inv(s) && s.pc.Ending?
    ensures SameHandover(s.back, EndStep(s, s.pc.job, env).back)
  {
    hide Inv, SameHandover, StopAndClose, ServiceWrite, Flush, EndCalibration, SetState, ClearPending, AbortAll;
    match s.pc.job
    case Serving => WriteHandsNothingOver(s, env.ok);
    case Halting => FlushHandsNothingOver(s.back);
    case Recovering => FlushHandsNothingOver(s.back);
    case Closing => CloseHandsNothingOver(s, true, env);
    case Averaging(_, _) => SameIsSame(s.back);
    case Settling(saved) => SettlingHandsNothingOver(s, saved);
  }

  lemma WriteHandsNothingOver(s: Sys, ok: bool)
    requires Inv(s)
    ensures SameHandover(s.back, ServiceWrite(s.back, ok))
  {
    assert Shape(s);
    hide Inv, ServiceWrite;
    ServiceWriteEffect(s.back, ok);
  }

  lemma FlushHandsNothingOver(b: Back)
    ensures SameHandover(b, Flush(b))
  {
    hide Flush;
    FlushEffect(b);
  }

  lemma CloseHandsNothingOver(s: Sys, running: bool, env: Env)
    requires Inv(s)
    ensures SameHandover(s.back, StopAndClose(s.back, running, env.first, env.second, env.closeOk))
  {
    assert Shape(s) && BackPart(s);
    hide Inv, FrontOk, BackOk, RunOk, StopAndClose;
    StopAndCloseKeeps(s.back, running, env.first, env.second, env.closeOk);
    if s.back.mode != LogMode { StopAndCloseOutsideLogMode(s.back, running, env.first, env.second, env.closeOk); }
  }

  lemma SettlingHandsNothingOver(s: Sys, saved: Saved)
    requires Inv(s) && s.pc == Ending(Settling(saved))
    ensures SameHandover(s.back, EndCalibration(s.back, saved))
  {
    assert Shape(s);
    hide Inv;
  }

  lemma ReadingHandsNothingOver(s: Sys, env: Env)
    requires s.pc.Reading?
    ensures SameHandover(s.back, MainStep(s, env).back)
  {
    hide StoreFrame, ParseSlot;
    StoreFrameEffect(s.back, Parse(s.front.ring.slots[s.pc.slot]), env.now);
  }

  lemma FinalPassHandsNothingOver(s: Sys, env: Env)
    requires Inv(s)
    ensures SameHandover(s.back, CheckPending(ServiceWrite(s.back, env.ok), s.front.armed, env.closeOk))
  {
    WriteHandsNothingOver(s, env.ok);
    hide Inv, ServiceWrite, CheckPending;
    CheckPendingEffect(ServiceWrite(s.back, env.ok), env.closeOk);
  }

  lemma PassHandsNothingOver(s: Sys, env: Env)
    requires Inv(s)
    ensures SameHandover(s.back, MachineStep(s, env).back)
  {
    hide Inv, ServiceWrite, CheckPending, Pending, AbortAll, SetState;
    if s.front.state == Finalizing { FinalPassHandsNothingOver(s, env); }
  }

  /** Going on by itself the acquisition core hands nothing over. */
  lemma WorkHandsNothingOver(s: Sys, step: Step)
    requires Inv(s) && (step.Main? && s.pc == AtPoll ==> step.env.poll.RunMachine?)
    ensures SameHandover(s.back, Next(s, step).back)
  {
    hide Inv, SameHandover, MachineStep, EndStep, OnDrdy, OnDone, OnFail, OnBytes, AbortAll, TakeFrame, ParseSlot,
      Begin, StoreFrame;
    SameIsSame(s.back);
    if step.Main? {
      match s.pc
      case Reading(_, _, _) => ReadingHandsNothingOver(s, step.env);
      case Ending(_) => EndHandsNothingOver(s, step.env);
      case AtPoll => PassHandsNothingOver(s, step.env);
      case _ =>
    }
  }

  lemma SameIsSame(b: Back)
    ensures SameHandover(b, b)
  {}

  lemma StopCloseHandsNothingOver(s: Sys, env: Env)
    requires Inv(s)
    ensures SameHandover(s.back, CommandStep(s, StopClose, env).back)
  {
    hide Inv, SameHandover, StopAndClose;
    if Resting(s.front.state) { CloseHandsNothingOver(s, false, env); } else { SameIsSame(s.back); }
  }

  lemma LogStartHandsNothingOver(s: Sys, cfg: Config, openStatus: int, env: Env)
    ensures SameHandover(s.back, CommandStep(s, StartLog(cfg, openStatus), env).back)
  {
    hide StartLogging, LoggingStarts;
    StartLoggingEffect(s.back, cfg, openStatus, WindingUp(s.front.state), |s.front.log.parsed|);
  }

  lemma StreamStartHandsNothingOver(s: Sys, cfg: Config, env: Env)
    ensures var c := CommandStep(s, StartStream(cfg), env).back;
            if ValidConfig(cfg) then c.run.written == [] && c.run.unsaved == 0 else SameHandover(s.back, c)
  {
    hide ValidConfig;
  }

  lemma PlainCommandHandsNothingOver(s: Sys, c: Command, env: Env)
    requires c == StopRun || c == Calibrate || c == NoCommand
    ensures SameHandover(s.back, CommandStep(s, c, env).back)
  {}

  /** A request other than for a block hands nothing over; a new stream starts with nothing handed over. */
  lemma OtherRequestsHandNothingOver(s: Sys, r: Request, service: Service)
    requires Inv(s) && s.pc == AtPoll && !r.AskBlock?
    ensures var b, c := s.back, Next(s, Order(r, service)).back;
            OnStream(c) ==>
              if BeginsRun(r, service.openStatus) then c.run.written == [] && c.run.unsaved == 0
              else OnStream(b) && c.run.written == b.run.written && c.run.unsaved == b.run.unsaved
  {
    hide Inv, CommandStep, LoggingStarts, ValidConfig;
    var env := Order(r, service).env;
    match r
    case AskLog(cfg) =>
      LogStartHandsNothingOver(s, cfg, service.openStatus, env);
      LogIsNoStream(s, cfg, service.openStatus, env);
    case AskStream(cfg) => StreamStartHandsNothingOver(s, cfg, env);
    case AskStopClose => StopCloseHandsNothingOver(s, env);
    case AskStop => PlainCommandHandsNothingOver(s, StopRun, env);
    case AskCalibration => PlainCommandHandsNothingOver(s, Calibrate, env);
    case AskShared(_, _) => PlainCommandHandsNothingOver(s, NoCommand, env);
    case AskOther(_) => PlainCommandHandsNothingOver(s, NoCommand, env);
  }

  lemma LogIsNoStream(s: Sys, cfg: Config, openStatus: int, env: Env)
    ensures LoggingStarts(cfg, openStatus) ==> !OnStream(CommandStep(s, StartLog(cfg, openStatus), env).back)
  {
    hide StartLogging;
    StartLoggingEffect(s.back, cfg, openStatus, WindingUp(s.front.state), |s.front.log.parsed|);
  }

  /** A block request hands over the head of the queue, or nothing; a long enough one loses nothing. */
  lemma BlockRequestHandsOver(s: Sys, length: nat, service: Service)
    requires Inv(s) && s.pc == AtPoll
    ensures var b, c := s.back, Next(s, Order(AskBlock(length), service)).back;
            && (OnStream(c) <==> OnStream(b))
            && c.run.written == (if Delivers(b, Effective(length)) then b.run.written + [b.queue[0]] else b.run.written)
            && (Effective(length) >= BLOCK_CAPACITY * FRAME_SIZE ==> c.run.unsaved == b.run.unsaved)
            && (Delivers(b, Effective(length)) ==> 0 < |b.queue[0]| * FRAME_SIZE <= SHARED_LEN)
  {
    assert BackPart(s);
    hide Inv, FrontOk, RunOk, Effective;
    var b := s.back;
    if b.queue != [] { assert GoodBlock(b.queue[0]); }
  }

  // ----- every step keeps the invariant -----

  lemma WorkKeeps(d: Duo, step: Step)
    requires DuoInv(d) && MayWork(d, step)
    ensures DuoInv(d.(sys := Next(d.sys, step)))
  {
    hide Inv, Next, OnStream, ProbeBytes;
    StepKeeps(d.sys, step);
    WorkHandsNothingOver(d.sys, step);
  }

  lemma CopiedStarts(buffer: seq<Byte>, bytes: seq<Byte>, n: nat)
    requires n <= |bytes| <= |buffer|
    ensures bytes[..n] <= Copied(buffer, bytes) && Copied(buffer, bytes)[..n] == bytes[..n]
  {}

  lemma WireSnoc(blks: seq<Block>, blk: Block)
    ensures Wire(Flatten(blks + [blk])) == Wire(Flatten(blks)) + Wire(blk)
  {
    FlattenSnoc(blks, blk);
    WireAppend(Flatten(blks), blk);
  }

  /** Every reply answers its request. */
  lemma RepliesAnswer(r: Request, b: Back, service: Service)
    requires r.AskBlock? && Delivers(b, Effective(r.length)) ==> b.queue[0] != []
    ensures Answers(ReplyTo(r, b, service), r)
  {
    hide Effective;
  }

  lemma AcceptLockstep(d: Duo, service: Service)
    requires Lockstep(d) && d.remote.Polling? && d.requests != []
    requires Answers(ReplyTo(d.requests[0], d.sys.back, service), d.requests[0])
    ensures Lockstep(AcceptRequest(d, service))
    ensures var e := AcceptRequest(d, service);
            && !AnswerWaits(d) && Outstanding(e) == [ReplyTo(d.requests[0], d.sys.back, service)]
            && e.master == d.master && e.master.Waiting? && e.master.request == d.requests[0]
  {
    hide Inv, Next, ReplyTo, PutInBuffer, Answers, Announces;
    var r, e := d.requests[0], AcceptRequest(d, service);
    assert d.requests == [r] && Outstanding(d) == [] && Outstanding(e) == [e.remote.reply];
  }

  /** What a request announces is at the start of what it writes. */
  lemma AnnouncedIsWritten(r: Request, b: Back, service: Service)
    requires Announces(r, ReplyTo(r, b, service))
    ensures ReplyTo(r, b, service).length <= |PutInBuffer(r, b, service)| <= SHARED_LEN
    ensures r.AskBlock? ==> Delivers(b, Effective(r.length))
    ensures r.AskBlock? ==> ReplyTo(r, b, service).length == |PutInBuffer(r, b, service)|
  {
    hide Wire;
    if r.AskBlock? && Delivers(b, Effective(r.length)) { WireLength(b.queue[0]); }
  }

  lemma AcceptInBuffer(d: Duo, service: Service)
    requires InBuffer(d) && d.requests != []
    requires var e := AcceptRequest(d, service);
             e.master.Waiting? && e.master.request == d.requests[0]
                 && Outstanding(e) == [ReplyTo(d.requests[0], d.sys.back, service)]
    ensures InBuffer(AcceptRequest(d, service))
  {
    var r, b, e := d.requests[0], d.sys.back, AcceptRequest(d, service);
    var reply := ReplyTo(r, b, service);
    if Announces(r, reply) {
      AnnouncedIsWritten(r, b, service);
      CopiedStarts(d.buffer, PutInBuffer(r, b, service), reply.length);
      if r.AskShared? && r.shared.ProbeBuffer? { assert ProbeBytes()[..PROBE_LEN] == ProbeBytes(); }
    }
    hide Inv, Next, Copied, ReplyTo, PutInBuffer, ProbeBytes, Outstanding;
  }

  /** A block request accepted: what is handed over is what is in the buffer then. */
  lemma AcceptBlockAccount(d: Duo, service: Service)
    requires Inv(d.sys) && Account(d) && d.requests != [] && d.requests[0].AskBlock? && d.sys.pc == AtPoll
    requires !AnswerWaits(d) && |d.buffer| == SHARED_LEN
    requires var e := AcceptRequest(d, service);
             e.master.Waiting? && e.master.request == d.requests[0]
                 && Outstanding(e) == [ReplyTo(d.requests[0], d.sys.back, service)]
    ensures Account(AcceptRequest(d, service))
  {
    hide Inv, Next, OnStream, Wire, Copied, Flatten, Outstanding, Effective;
    var r, b, e := d.requests[0], d.sys.back, AcceptRequest(d, service);
    BlockRequestHandsOver(d.sys, r.length, service);
    if Delivers(b, Effective(r.length)) {
      WireLength(b.queue[0]);
      CopiedStarts(d.buffer, Wire(b.queue[0]), |Wire(b.queue[0])|);
      WireSnoc(b.run.written, b.queue[0]);
      assert Unread(e) == Wire(b.queue[0]);
    } else {
      assert Unread(e) == [];
    }
  }

  lemma AcceptOtherAccount(d: Duo, service: Service)
    requires Inv(d.sys) && Account(d) && d.requests != [] && !d.requests[0].AskBlock? && d.sys.pc == AtPoll
    requires !AnswerWaits(d)
    requires var e := AcceptRequest(d, service); e.master.Waiting? && e.master.request == d.requests[0]
    ensures Account(AcceptRequest(d, service))
  {
    hide Inv, Next, OnStream, Wire, Copied, Flatten, LoggingStarts, ValidConfig, ReplyTo, PutInBuffer, Outstanding,
      Announces;
    var r, e := d.requests[0], AcceptRequest(d, service);
    assert Unread(d) == [] && Unread(e) == [];
    OtherRequestsHandNothingOver(d.sys, r, service);
    WireOfNothing();
  }

  lemma AcceptKeeps(d: Duo, service: Service)
    requires DuoInv(d) && d.remote.Polling? && d.requests != [] && d.sys.pc == AtPoll
    ensures DuoInv(AcceptRequest(d, service))
  {
    hide Inv, Next, Lockstep, Account, InBuffer, AnswerWaits, Outstanding, Answers, ReplyTo, PutInBuffer, Announces,
      Copied;
    var r := d.requests[0];
    StepKeeps(d.sys, Order(r, service));
    if r.AskBlock? { BlockRequestHandsOver(d.sys, r.length, service); }
    RepliesAnswer(r, d.sys.back, service);
    AcceptLockstep(d, service);
    AcceptInBuffer(d, service);
    assert |d.buffer| == SHARED_LEN by { BufferLength(d); }
    if r.AskBlock? { AcceptBlockAccount(d, service); } else { AcceptOtherAccount(d, service); }
  }

  lemma BufferLength(d: Duo)
    requires InBuffer(d)
    ensures |d.buffer| == SHARED_LEN
  {}

  lemma WireOfNothing()
    ensures Wire(Flatten([])) == []
  {}

  // Sending, replying, polling, finishing, fetching and giving up leave the acquisition core alone.

  lemma SendKeeps(d: Duo, request: Request)
    requires DuoInv(d)
    ensures DuoInv(NextDuo(d, Send(request)))
  {
    hide Inv, OnStream, Wire, Flatten, Answers, ProbeBytes;
  }

  lemma RespondKeeps(d: Duo)
    requires DuoInv(d)
    ensures DuoInv(NextDuo(d, Respond))
  {
    hide Inv, OnStream, Wire, Flatten, Answers, ProbeBytes;
    if d.remote.Handling? && d.sys.pc == AtPoll {
      assert Outstanding(NextDuo(d, Respond)) == Outstanding(d);
    }
  }

  lemma DeliverKeeps(d: Duo)
    requires DuoInv(d)
    ensures DuoInv(NextDuo(d, Deliver))
  {
    hide Inv, OnStream, Wire, Flatten, Answers, ProbeBytes;
    if d.master.Waiting? && d.replies != [] {
      assert Outstanding(NextDuo(d, Deliver)) == Outstanding(d);
    }
  }

  lemma SlotIsOutstanding(d: Duo)
    requires Lockstep(d) && d.master.Waiting? && d.master.answer != []
    ensures Outstanding(d) == [d.master.answer[0]] && Answers(d.master.answer[0], d.master.request)
    ensures d.requests == [] && d.replies == [] && d.remote.Polling?
  {
    hide Answers;
    assert Outstanding(d)[0] == d.master.answer[0] && Outstanding(d)[0] in Outstanding(d);
  }

  lemma FinishKeeps(d: Duo)
    requires DuoInv(d)
    ensures DuoInv(NextDuo(d, Finish))
  {
    hide Inv, OnStream, Wire, Flatten, ProbeBytes;
    if d.master.Waiting? && d.master.answer != [] { SlotIsOutstanding(d); }
  }

  lemma FetchKeeps(d: Duo)
    requires DuoInv(d)
    ensures DuoInv(NextDuo(d, Fetch))
  {
    hide Inv, OnStream, Wire, Flatten, ProbeBytes, Answers;
    var e := NextDuo(d, Fetch);
    if d.master.Using? {
      assert Unread(e) == [] && (d.master.request.AskBlock? && e != d ==> e.got == d.got + Unread(d));
      assert e.got + [] == e.got;
    }
  }

  /** With a reply in the slot, a block is unread exactly if the slot announces one. */
  lemma SlotUnread(d: Duo)
    requires Lockstep(d) && InBuffer(d) && d.master.Waiting? && d.master.answer != []
    ensures if BlockInSlot(d) then |Unread(d)| == d.master.answer[0].length > 0 else Unread(d) == []
  {
    hide Inv, ProbeBytes;
    SlotIsOutstanding(d);
  }

  lemma GiveUpKeeps(d: Duo)
    requires DuoInv(d) && InTime(d, GiveUp)
    ensures DuoInv(NextDuo(d, GiveUp))
  {
    hide Inv, OnStream, Wire, Flatten, ProbeBytes, Answers;
    if d.master.Waiting? {
      SlotIsOutstanding(d);
      SlotUnread(d);
      hide Announces, BlockInSlot;
      var e := NextDuo(d, GiveUp);
      assert Unread(e) == [] && e.got == d.got && e.got + [] == e.got;
    }
  }

  lemma NextDuoKeeps(d: Duo, step: DuoStep)
    requires DuoInv(d) && InTime(d, step)
    ensures DuoInv(NextDuo(d, step))
  {
    hide DuoInv, Next, AcceptRequest;
    match step
    case Accept(service) =>
      if d.remote.Polling? && d.requests != [] && d.sys.pc == AtPoll { AcceptKeeps(d, service); }
    case Work(s) => if MayWork(d, s) { WorkKeeps(d, s); }
    case Send(request) => SendKeeps(d, request);
    case Respond => RespondKeeps(d);
    case Deliver => DeliverKeeps(d);
    case Finish => FinishKeeps(d);
    case Fetch => FetchKeeps(d);
    case GiveUp => GiveUpKeeps(d);
  }

  lemma TimelySoFar(steps: seq<DuoStep>, n: nat)
    requires Timely(steps) && n <= |steps|
    ensures Timely(steps[..n])
  {
    hide RunDuo, InTime;
    forall k | 0 <= k < n ensures InTimeAt(steps[..n], k) {
      assert steps[..n][..k] == steps[..k] && InTimeAt(steps, k);
    }
  }

  lemma {:induction false} EveryDuoRun(steps: seq<DuoStep>)
    requires Timely(steps)
    ensures DuoInv(RunDuo(InitDuo(), steps))
  {
    hide DuoInv, NextDuo, InitDuo, InTime;
    if steps == [] {
      InitDuoInv();
    } else {
      var n := |steps| - 1;
      TimelySoFar(steps, n);
      EveryDuoRun(steps[..n]);
      assert InTimeAt(steps, n);
      NextDuoKeeps(RunDuo(InitDuo(), steps[..n]), steps[n]);
    }
  }
}
