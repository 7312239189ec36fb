/**
 The network core's end of the link (openamp_fs.c of CM7): the receive callback that fills the one global
 reply slot, and the polling wait of a request. The wait is then shown to be a run of the two cores of
 module TwoCore.
 */
module MasterLink {
  import opened Bytes
  import opened Calibration
  import opened TwoCore
  import Board
  import opened TwoCoreTheorems

  /** A message by its size: too short for a reply, a small reply, or one with a data chunk. */
  datatype Message = Short | Small(reply: Reply) | Chunk(reply: Reply)

  /** One turn of the wait: the messages the poll handles, and the tick read after it. */
  datatype Round = Round(messages: seq<Message>, tick: Tick)

  datatype Slot = Slot(ready: bool, last: Reply)

  const NO_REPLY: Reply := Reply(0, 0, 0, 0)
  const BAD_CALL: int := -1
  const NO_SERVICE: int := -3
  const TIMED_OUT: int := -4
  const WRONG_REPLY: int := -5

  /** `OpenAmpPing_RxCallback` on the slot: a short message clears it without marking it ready. */
  function Received(s: Slot, m: Message): Slot {
    if m.Short? then s.(last := NO_REPLY) else Slot(true, m.reply)
  }

  function ReceivedAll(s: Slot, ms: seq<Message>): Slot {
    if ms == [] then s else Received(ReceivedAll(s, ms[..|ms| - 1]), ms[|ms| - 1])
  }

  predicate Late(start: Tick, tick: Tick, timeout: nat) {
    (tick - start) % TWO32 > timeout
  }

  predicate Speaks(r: Round) {
    exists i :: 0 <= i < |r.messages| && !r.messages[i].Short?
  }

  /** The rounds recorded go on until the wait is over. */
  predicate Ends(rounds: seq<Round>, start: Tick, timeout: nat) {
    exists k :: 0 <= k < |rounds| && (Late(start, rounds[k].tick, timeout) || Speaks(rounds[k]))
  }

  datatype Outcome = GaveUp | Got(reply: Reply)

  /** What the wait comes to: round by round, the tick is looked at before the slot. */
  function Wait(s: Slot, rounds: seq<Round>, start: Tick, timeout: nat): Outcome
    decreases |rounds|
  {
    if s.ready || rounds == [] then Got(s.last)
    else if Late(start, rounds[0].tick, timeout) then GaveUp
    else Wait(ReceivedAll(s, rounds[0].messages), rounds[1..], start, timeout)
  }

  class Master {
    var initialized: bool
    var initStatus: int
    var serviceCreated: bool
    var responseReady: bool
    var lastResponse: Reply
    var rxCount: nat

    function View(): Slot
      reads this
    {
      Slot(responseReady, lastResponse)
    }

    constructor ()
      ensures !initialized && !serviceCreated && View() == Slot(false, NO_REPLY)
    {
      initialized, initStatus := false, 0;
      serviceCreated, responseReady, lastResponse, rxCount := false, false, NO_REPLY, 0;
    }

    /** `OpenAmpPing_RxCallback`. */
    method RxCallback(m: Message)
      modifies this`responseReady, this`lastResponse, this`rxCount
      ensures View() == Received(old(View()), m)
      ensures rxCount == old(rxCount) + (if m.Short? then 0 else 1)
    {
      lastResponse := NO_REPLY;
      if !m.Short? {
        lastResponse := m.reply;
        rxCount := rxCount + 1;
        responseReady := true;
      }
    }

    /** `OPENAMP_check_for_message` with these messages waiting. */
    method CheckForMessage(messages: seq<Message>)
      modifies this`responseReady, this`lastResponse, this`rxCount
      ensures View() == ReceivedAll(old(View()), messages)
    {
      var i := 0;
      while i < |messages|
        invariant i <= |messages| && View() == ReceivedAll(old(View()), messages[..i])
      {
        assert messages[..i + 1][..i] == messages[..i];
        RxCallback(messages[i]);
        i := i + 1;
      }
      assert messages[..i] == messages;
    }

    /** `OpenAmpPing_NewServiceCb` and `OpenAmpPing_ServiceDestroyCb`. */
    method ServiceChanged(created: bool)
      modifies this`serviceCreated
      ensures serviceCreated == created
    {
      serviceCreated := created;
    }

    /**
     `OpenAmpFs_MasterInit`; `answer` is what bringing the link up returns. It then waits until the other
     core has announced its service.
     */
    method MasterInit(answer: int) returns (status: int)
      modifies this
      ensures status == answer == initStatus && rxCount == 0 && View() == Slot(false, NO_REPLY)
      ensures serviceCreated <==> answer == 0
      ensures initialized == (old(initialized) || answer == 0)
    {
      serviceCreated, responseReady, rxCount, initStatus, lastResponse := false, false, 0, 0, NO_REPLY;
      if answer != 0 {
        initStatus := answer;
        return answer;
      }
      initialized, initStatus := true, 0;
      ServiceChanged(true);
      return 0;
    }

    /**
     `OpenAmpFs_SendRequestEx3`; `wanted` says whether there is room for the reply's value, `initAnswer` and
     `sendStatus` are the transport's answers, `rounds` what the polls meet.
     */
    method SendRequest(wanted: bool, op: nat, initAnswer: int, sendStatus: int, rounds: seq<Round>, start: Tick,
                       timeout: nat)
      returns (status: int, value: nat)
      requires Ends(rounds, start, timeout)
      modifies this
      ensures !wanted ==> status == BAD_CALL && View() == old(View()) && initialized == old(initialized)
      ensures wanted && !old(initialized) && initAnswer != 0 ==>
                status == initAnswer && !initialized && !serviceCreated && View() == Slot(false, NO_REPLY)
      ensures wanted && old(initialized) && !old(serviceCreated) ==> status == NO_SERVICE && View() == old(View())
      ensures wanted && (if old(initialized) then old(serviceCreated) else initAnswer == 0) ==>
                && initialized && serviceCreated
                && if sendStatus < 0 then status == sendStatus && !responseReady
                   else
                     match Wait(Slot(false, if old(initialized) then old(lastResponse) else NO_REPLY),
                                rounds, start, timeout)
                     case GaveUp => status == TIMED_OUT
                     case Got(reply) =>
                       && (reply.op != op ==> status == WRONG_REPLY)
                       && (reply.op == op ==>
                             status == reply.status && value == reply.value && lastResponse == reply)
    {
      value := 0;
      if !wanted {
        return BAD_CALL, 0;
      }
      if !initialized {
        status := MasterInit(initAnswer);
        if status != 0 {
          return status, 0;
        }
      }
      if !serviceCreated {
        return NO_SERVICE, 0;
      }
      responseReady := false;
      if sendStatus < 0 {
        return sendStatus, 0;
      }
      ghost var slot := Slot(false, lastResponse);
      var i := 0;
      while !responseReady
        invariant i <= |rounds| && (responseReady || Ends(rounds[i..], start, timeout))
        invariant Wait(View(), rounds[i..], start, timeout) == Wait(slot, rounds, start, timeout)
        invariant initialized && serviceCreated
        decreases |rounds| - i
      {
        EndsSoon(View(), rounds[i..], start, timeout);
        assert rounds[i..][1..] == rounds[i + 1..];
        CheckForMessage(rounds[i].messages);
        if Late(start, rounds[i].tick, timeout) {
          return TIMED_OUT, 0;
        }
        i := i + 1;
      }
      if lastResponse.op != op {
        return WRONG_REPLY, 0;
      }
      return lastResponse.status, lastResponse.value;
    }
  }

  lemma {:induction false} SlotReady(s: Slot, ms: seq<Message>)
    ensures ReceivedAll(s, ms).ready <==> s.ready || exists i :: 0 <= i < |ms| && !ms[i].Short?
  {
    if ms != [] {
      var n := |ms| - 1;
      SlotReady(s, ms[..n]);
      if exists i :: 0 <= i < |ms| && !ms[i].Short? {
        var i :| 0 <= i < |ms| && !ms[i].Short?;
        if i < n { assert !ms[..n][i].Short?; }
      }
    }
  }

  /** A wait that ends is over now or goes on to end. */
  lemma EndsSoon(s: Slot, rounds: seq<Round>, start: Tick, timeout: nat)
    requires Ends(rounds, start, timeout)
    ensures rounds != []
    ensures Late(start, rounds[0].tick, timeout) || ReceivedAll(s, rounds[0].messages).ready
         || Ends(rounds[1..], start, timeout)
  {
    SlotReady(s, rounds[0].messages);
    var k :| 0 <= k < |rounds| && (Late(start, rounds[k].tick, timeout) || Speaks(rounds[k]));
    if k > 0 { assert rounds[1..][k - 1] == rounds[k]; }
  }

  /** Round `k` reads a late tick and no round before it brought a reply. */
  predicate LateFirst(rounds: seq<Round>, start: Tick, timeout: nat, k: int)
    requires 0 <= k < |rounds|
  {
    Late(start, rounds[k].tick, timeout) && forall j :: 0 <= j < k ==> !Speaks(rounds[j])
  }

  /** A wait is given up exactly if some round reads a late tick and no round before it brought a reply. */
  lemma {:induction false} LateRoundEnds(s: Slot, rounds: seq<Round>, start: Tick, timeout: nat)
    requires !s.ready
    ensures Wait(s, rounds, start, timeout).GaveUp? <==>
              exists k :: 0 <= k < |rounds| && LateFirst(rounds, start, timeout, k)
    decreases |rounds|
  {
    if rounds == [] {
    } else if Late(start, rounds[0].tick, timeout) {
      assert LateFirst(rounds, start, timeout, 0);
    } else {
      var t, rest := ReceivedAll(s, rounds[0].messages), rounds[1..];
      SlotReady(s, rounds[0].messages);
      assert t.ready <==> Speaks(rounds[0]);
      if !t.ready {
        LateRoundEnds(t, rest, start, timeout);
        forall k | 0 <= k < |rest|
          ensures LateFirst(rest, start, timeout, k) <==> LateFirst(rounds, start, timeout, k + 1)
        {
          LateLater(rounds, start, timeout, k);
        }
        if k :| 0 <= k < |rounds| && LateFirst(rounds, start, timeout, k) {
          assert LateFirst(rest, start, timeout, k - 1);
        }
      }
    }
  }

  lemma LateLater(rounds: seq<Round>, start: Tick, timeout: nat, k: nat)
    requires k + 1 < |rounds| && !Speaks(rounds[0])
    ensures LateFirst(rounds[1..], start, timeout, k) <==> LateFirst(rounds, start, timeout, k + 1)
  {
    var rest := rounds[1..];
    hide Speaks;
    assert forall j :: 0 <= j < k ==> rest[j] == rounds[j + 1];
    assert forall j :: 1 <= j < k + 1 ==> rounds[j] == rest[j - 1];
  }

  /** When a tick is late: a tick `e` milliseconds after the start is, through any wrap, if `e` exceeds the timeout. */
  lemma LateIff(start: Tick, e: nat, timeout: nat)
    requires e < TWO32
    ensures Late(start, After(start, e), timeout) <==> e > timeout
  {
    var p := (start + e) / TWO32;
    assert start + e == TWO32 * p + After(start, e);
    assert After(start, e) - start == e + TWO32 * -p;
    WholeTurns(e, -p);
  }

  /** The rounds read their ticks this many milliseconds after the start. */
  predicate ReadAt(rounds: seq<Round>, start: Tick, elapsed: seq<nat>) {
    |elapsed| == |rounds|
    && forall k :: 0 <= k < |rounds| ==> elapsed[k] < TWO32 && rounds[k].tick == After(start, elapsed[k])
  }

  /** Round `k` comes after the timeout and no round before it brought a reply. */
  predicate OverdueFirst(rounds: seq<Round>, elapsed: seq<nat>, timeout: nat, k: int)
    requires 0 <= k < |rounds| == |elapsed|
  {
    elapsed[k] > timeout && forall j :: 0 <= j < k ==> !Speaks(rounds[j])
  }

  /**
   Exactly when a wait is given up: some round reads the clock more than `timeout` milliseconds after the start,
   and no round before it brought a reply. A reply that arrives in that very round does not count.
   */
  lemma {:induction false} GivesUpIff(s: Slot, rounds: seq<Round>, start: Tick, timeout: nat, elapsed: seq<nat>)
    requires !s.ready && ReadAt(rounds, start, elapsed)
    ensures Wait(s, rounds, start, timeout).GaveUp? <==>
              exists k :: 0 <= k < |rounds| && OverdueFirst(rounds, elapsed, timeout, k)
  {
    LateRoundEnds(s, rounds, start, timeout);
    hide Wait, Speaks, Late, After;
    forall k | 0 <= k < |rounds|
      ensures LateFirst(rounds, start, timeout, k) <==> OverdueFirst(rounds, elapsed, timeout, k)
    {
      LateIff(start, elapsed[k], timeout);
    }
    if k :| 0 <= k < |rounds| && LateFirst(rounds, start, timeout, k) {
      assert OverdueFirst(rounds, elapsed, timeout, k);
    }
  }

  /** So a wait whose reply comes in a round within the timeout, all rounds before it being so too, gets it. */
  lemma InTimeIsAnswered(s: Slot, rounds: seq<Round>, start: Tick, timeout: nat, elapsed: seq<nat>, k: nat)
    requires !s.ready && ReadAt(rounds, start, elapsed)
    requires k < |rounds| && Speaks(rounds[k]) && forall j :: 0 <= j <= k ==> elapsed[j] <= timeout
    ensures Wait(s, rounds, start, timeout).Got?
  {
    hide Wait, Speaks;
    GivesUpIff(s, rounds, start, timeout, elapsed);
    forall m | 0 <= m < |rounds| ensures !OverdueFirst(rounds, elapsed, timeout, m) {
      if m > k { assert Speaks(rounds[k]); }
    }
  }

  ghost predicate OnlyAnswers(ms: seq<Message>, op: nat) {
    forall m :: m in ms ==> !m.Short? && m.reply.op == op
  }

  /** When every message that arrives answers the request, the wait never ends with -5. */
  lemma {:induction false} AnswersMatch(s: Slot, rounds: seq<Round>, start: Tick, timeout: nat, op: nat)
    requires Ends(rounds, start, timeout) && !s.ready && forall r :: r in rounds ==> OnlyAnswers(r.messages, op)
    ensures var o := Wait(s, rounds, start, timeout); o.Got? ==> o.reply.op == op
    decreases |rounds|
  {
    EndsSoon(s, rounds, start, timeout);
    assert rounds[0] in rounds;
    var t := ReceivedAll(s, rounds[0].messages);
    LastMatches(s, rounds[0].messages, op);
    if !Late(start, rounds[0].tick, timeout) && !t.ready {
      AnswersMatch(t, rounds[1..], start, timeout, op);
    }
  }

  lemma LastMatches(s: Slot, ms: seq<Message>, op: nat)
    requires OnlyAnswers(ms, op)
    ensures ms != [] ==> ReceivedAll(s, ms).ready && ReceivedAll(s, ms).last.op == op
  {
    if ms != [] { assert ms[|ms| - 1] in ms; }
  }

  // ----- the wait as a run of both cores -----

  /** One turn of a wait: what the acquisition core does before the poll, and the tick read after it. */
  datatype Turn = Turn(others: seq<DuoStep>, tick: Tick)

  ghost predicate ByOthers(steps: seq<DuoStep>) {
    forall step :: step in steps ==> step.Accept? || step.Work? || step.Respond?
  }

  ghost predicate TurnsOk(turns: seq<Turn>) {
    forall t :: t in turns ==> ByOthers(t.others)
  }

  /** The acquisition core sends whole replies; two operations answer with a data chunk. */
  function Packet(reply: Reply): Message {
    if reply.op == 7 || reply.op == 81 then Chunk(reply) else Small(reply)
  }

  function Packets(replies: seq<Reply>): (ms: seq<Message>)
    ensures |ms| == |replies|
  {
    if replies == [] then [] else [Packet(replies[0])] + Packets(replies[1..])
  }

  /** One poll delivers every reply that is waiting. */
  function Polled(d: Duo): Duo
    decreases |d.replies|
  {
    if d.master.Waiting? && d.replies != [] then Polled(NextDuo(d, Deliver)) else d
  }

  function AfterTurn(d: Duo, t: Turn): Duo {
    Polled(RunDuo(d, t.others))
  }

  /** What the polls of the wait meet. */
  function RoundsOf(d: Duo, turns: seq<Turn>): (rounds: seq<Round>)
    ensures |rounds| == |turns|
    decreases |turns|
  {
    if turns == [] then []
    else
      [Round(Packets(RunDuo(d, turns[0].others).replies), turns[0].tick)] + RoundsOf(AfterTurn(d, turns[0]), turns[1..])
  }

  /** The state of both cores when the wait ends: before its last step, Finish or GiveUp. */
  function AtEnd(d: Duo, turns: seq<Turn>, start: Tick, timeout: nat): Duo
    decreases |turns|
  {
    if turns == [] || (d.master.Waiting? && d.master.answer != []) then d
    else if Late(start, turns[0].tick, timeout) then AfterTurn(d, turns[0])
    else AtEnd(AfterTurn(d, turns[0]), turns[1..], start, timeout)
  }

  function SlotOf(d: Duo, last: Reply): Slot {
    if d.master.Waiting? && d.master.answer != [] then Slot(true, d.master.answer[0]) else Slot(false, last)
  }

  /** The wait for a request goes on. */
  predicate SameWait(d: Duo, e: Duo) {
    d.master.Waiting? && e.master.Waiting? && e.master.request == d.master.request
  }

  lemma {:induction false} OthersLeaveTheWait(d: Duo, steps: seq<DuoStep>)
    requires d.master.Waiting? && ByOthers(steps)
    ensures RunDuo(d, steps).master == d.master
  {
    hide Board.Next, ReplyTo, Announces;
    if steps != [] {
      var n := |steps| - 1;
      assert steps[n] in steps && ByOthers(steps[..n]);
      OthersLeaveTheWait(d, steps[..n]);
    }
  }

  lemma OthersReach(d: Duo, steps: seq<DuoStep>)
    requires ByOthers(steps)
    ensures ReachesPatiently(d, RunDuo(d, steps))
  {
    hide RunDuo;
    assert Patient(steps);
  }

  lemma {:induction false} ReceivedFirst(s: Slot, m: Message, ms: seq<Message>)
    ensures ReceivedAll(s, [m] + ms) == ReceivedAll(Received(s, m), ms)
  {
    if ms == [] {
      assert [m] + ms == [m] && ReceivedAll(s, [m][..0]) == s;
    } else {
      var n := |ms| - 1;
      ReceivedFirst(s, m, ms[..n]);
      assert ([m] + ms)[..|[m] + ms| - 1] == [m] + ms[..n];
    }
  }

  /** A poll leaves in the slot what the receive callback leaves there, and the wait goes on. */
  lemma {:induction false} PollIsDelivery(d: Duo, last: Reply)
    requires d.master.Waiting?
    ensures SameWait(d, Polled(d)) && ReachesPatiently(d, Polled(d))
    ensures SlotOf(Polled(d), last) == ReceivedAll(SlotOf(d, last), Packets(d.replies))
    decreases |d.replies|
  {
    hide ReachesPatiently;
    PatientSelf(d);
    if d.replies != [] {
      var e := NextDuo(d, Deliver);
      PatientOn(d, d, Deliver);
      PollIsDelivery(e, last);
      PatientThen(d, e, Polled(e));
      ReceivedFirst(SlotOf(d, last), Packet(d.replies[0]), Packets(d.replies[1..]));
    }
  }

  /** One turn: the wait goes on, and the slot is what the round's messages make of it. */
  lemma TurnIsRound(d: Duo, t: Turn, last: Reply)
    requires d.master.Waiting? && ByOthers(t.others)
    ensures SameWait(d, AfterTurn(d, t)) && ReachesPatiently(d, AfterTurn(d, t))
    ensures SlotOf(AfterTurn(d, t), last) == ReceivedAll(SlotOf(d, last), Packets(RunDuo(d, t.others).replies))
  {
    hide ReachesPatiently, RunDuo, Polled;
    OthersLeaveTheWait(d, t.others);
    OthersReach(d, t.others);
    var e := RunDuo(d, t.others);
    PollIsDelivery(e, last);
    PatientThen(d, e, Polled(e));
  }

  /** The late round that ends a wait brought a reply exactly if the slot is filled when the wait is given up. */
  ghost predicate GivenUpAt(rounds: seq<Round>, start: Tick, timeout: nat, p: Duo) {
    exists k :: 0 <= k < |rounds| && LateFirst(rounds, start, timeout, k)
             && (Speaks(rounds[k]) <==> p.master.Waiting? && p.master.answer != [])
  }

  lemma GivenUpLater(rounds: seq<Round>, start: Tick, timeout: nat, p: Duo)
    requires rounds != [] && !Speaks(rounds[0]) && GivenUpAt(rounds[1..], start, timeout, p)
    ensures GivenUpAt(rounds, start, timeout, p)
  {
    hide Speaks, LateFirst;
    var rest := rounds[1..];
    var k :| 0 <= k < |rest| && LateFirst(rest, start, timeout, k)
          && (Speaks(rest[k]) <==> p.master.Waiting? && p.master.answer != []);
    LateLater(rounds, start, timeout, k);
    assert rest[k] == rounds[k + 1];
  }

  lemma GivenUpNow(d: Duo, t: Turn, rounds: seq<Round>, last: Reply, start: Tick, timeout: nat)
    requires d.master.Waiting? && d.master.answer == [] && ByOthers(t.others) && Late(start, t.tick, timeout)
    requires rounds != [] && rounds[0] == Round(Packets(RunDuo(d, t.others).replies), t.tick)
    ensures GivenUpAt(rounds, start, timeout, AfterTurn(d, t))
  {
    hide RunDuo, AfterTurn, ReachesPatiently;
    TurnIsRound(d, t, last);
    SlotReady(SlotOf(d, last), rounds[0].messages);
    assert LateFirst(rounds, start, timeout, 0);
  }

  /** A round without a reply leaves the slot empty. */
  lemma EmptyAfterSilence(d: Duo, t: Turn, last: Reply)
    requires d.master.Waiting? && d.master.answer == [] && ByOthers(t.others)
    ensures AfterTurn(d, t).master.Waiting?
    ensures AfterTurn(d, t).master.answer != [] <==>
            Speaks(Round(Packets(RunDuo(d, t.others).replies), t.tick))
  {
    hide RunDuo, AfterTurn, ReachesPatiently;
    TurnIsRound(d, t, last);
    SlotReady(SlotOf(d, last), Packets(RunDuo(d, t.others).replies));
  }

  /**
   The polling loop is a run of both cores: up to its last step the wait goes on, a wait that ends with a
   reply ends in a state whose slot holds that reply, and a wait that is given up is given up in a state
   whose slot is filled exactly if the late round brought a reply.
   */
  lemma {:induction false} WaitIsRun(d: Duo, turns: seq<Turn>, last: Reply, start: Tick, timeout: nat)
    requires d.master.Waiting? && TurnsOk(turns)
    requires d.master.answer != [] || Ends(RoundsOf(d, turns), start, timeout)
    ensures var p := AtEnd(d, turns, start, timeout);
            && SameWait(d, p) && ReachesPatiently(d, p)
            && match Wait(SlotOf(d, last), RoundsOf(d, turns), start, timeout)
               case Got(reply) => p.master.answer != [] && p.master.answer[0] == reply
               case GaveUp => GivenUpAt(RoundsOf(d, turns), start, timeout, p)
    decreases |turns|
  {
    hide ReachesPatiently, RunDuo, AfterTurn, GivenUpAt, Speaks;
    PatientSelf(d);
    if d.master.answer == [] {
      var rounds := RoundsOf(d, turns);
      EndsSoon(SlotOf(d, last), rounds, start, timeout);
      var t, e := turns[0], AfterTurn(d, turns[0]);
      assert TurnsOk(turns[1..]) && t in turns;
      TurnIsRound(d, t, last);
      assert rounds[1..] == RoundsOf(e, turns[1..]);
      if Late(start, t.tick, timeout) {
        GivenUpNow(d, t, rounds, last, start, timeout);
      } else {
        EmptyAfterSilence(d, t, last);
        WaitIsRun(e, turns[1..], last, start, timeout);
        PatientThen(d, e, AtEnd(e, turns[1..], start, timeout));
        if e.master.answer == [] {
          if Wait(SlotOf(e, last), RoundsOf(e, turns[1..]), start, timeout).GaveUp? {
            GivenUpLater(rounds, start, timeout, AtEnd(e, turns[1..], start, timeout));
          }
        }
      }
    }
  }

  /** In lockstep every message that arrives answers the request waited for. */
  lemma {:induction false} LockstepOnlyAnswers(d: Duo, turns: seq<Turn>)
    requires DuoInv(d) && d.master.Waiting? && TurnsOk(turns)
    ensures forall r :: r in RoundsOf(d, turns) ==> OnlyAnswers(r.messages, OpOf(d.master.request))
    decreases |turns|
  {
    hide DuoInv, RunDuo, AfterTurn, OnlyAnswers, ReachesPatiently;
    if turns != [] {
      var t, e := turns[0], RunDuo(d, turns[0].others);
      assert TurnsOk(turns[1..]) && t in turns;
      TurnIsRound(d, t, NO_REPLY);
      OthersLeaveTheWait(d, t.others);
      OthersReach(d, t.others);
      PatientlyInv(d, e);
      RepliesAnswerTheWait(e);
      PatientlyInv(d, AfterTurn(d, t));
      LockstepOnlyAnswers(AfterTurn(d, t), turns[1..]);
    }
  }

  lemma RepliesAnswerTheWait(d: Duo)
    requires DuoInv(d) && d.master.Waiting?
    ensures OnlyAnswers(Packets(d.replies), OpOf(d.master.request))
  {
    LockstepPart(d);
    hide DuoInv;
    forall m | m in Packets(d.replies) ensures !m.Short? && m.reply.op == OpOf(d.master.request) {
      PacketOf(d.replies, m);
      assert m.reply in Outstanding(d);
    }
  }

  lemma {:induction false} PacketOf(replies: seq<Reply>, m: Message)
    requires m in Packets(replies)
    ensures !m.Short? && m.reply in replies
  {
    if m != Packet(replies[0]) { PacketOf(replies[1..], m); }
  }

  /**
   A request sent in lockstep never returns -5: its wait ends with a reply that answers it, or is given up;
   and giving it up leaves the cores in lockstep exactly if the late round itself brought the reply.
   */
  lemma {:induction false} RequestInLockstep(d: Duo, r: Request, turns: seq<Turn>, last: Reply, start: Tick,
                                            timeout: nat)
    requires DuoInv(d) && d.master.Free? && TurnsOk(turns)
    requires Ends(RoundsOf(NextDuo(d, Send(r)), turns), start, timeout)
    ensures var e := NextDuo(d, Send(r)); var rounds := RoundsOf(e, turns); var p := AtEnd(e, turns, start, timeout);
            && ReachesPatiently(e, p)
            && match Wait(Slot(false, last), rounds, start, timeout)
               case Got(reply) => Answers(reply, r) && DuoInv(NextDuo(p, Finish))
               case GaveUp =>
                 exists k :: 0 <= k < |rounds| && LateFirst(rounds, start, timeout, k)
                          && (Lockstep(NextDuo(p, GiveUp)) <==> Speaks(rounds[k]))
  {
    hide DuoInv, ReachesPatiently, RoundsOf, AtEnd, Speaks, Answers, Ends, Wait, LateFirst;
    var e := NextDuo(d, Send(r));
    SendKeeps(d, r);
    Sent(d, r);
    WaitIsRun(e, turns, last, start, timeout);
    var p := AtEnd(e, turns, start, timeout);
    PatientlyInv(e, p);
    LockstepPart(p);
    if Wait(Slot(false, last), RoundsOf(e, turns), start, timeout).Got? {
      SlotIsOutstanding(p);
      FinishKeeps(p);
    } else {
      GiveUpKeepsLockstepIff(p);
    }
  }

  lemma Sent(d: Duo, r: Request)
    requires d.master.Free?
    ensures NextDuo(d, Send(r)).master == Waiting(r, [])
  {}
}
