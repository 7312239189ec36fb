/**
 The interrupt side of the acquisition path (daq_engine.c over the DMA ring): the data-ready and SPI
 interrupts, the pending counter they share with the main loop, and the main loop's own accesses.
 Every function is one atomic access. A ledger records what happened; no behaviour depends on it.
 */
module Capture {
  import opened Bytes
  import opened Packing
  import opened DmaRing

  datatype MachineState = Idle | Preparing | Acquiring | Stopping | Finalizing | Faulted

  /**
   A frame taken from the ring and still to be parsed: its slot, its bytes when taken, how many frames
   were ready then, how many transfers have been in progress or started since, and whether a start refused
   after the last of them has cleared the slot of the next.
   */
  datatype Held = Nothing | Held(slot: nat, frame: Frame, ready: nat, transfers: nat, refused: bool)

  datatype Ledger = Ledger(
    accepted: nat,          // data-ready events accepted since the pending counter was last cleared
    served: nat,            // of those, transfers started
    events: nat,            // data-ready events accepted, ever
    cleared: nat,           // pending events thrown away when the counter was cleared, ever
    starts: nat,            // transfers started, ever
    done: nat,              // transfers completed
    errored: nat,
    aborted: nat,
    discarded: nat,         // ready frames thrown away by aborts
    taken: seq<Frame>,      // frames taken, ever
    parsed: seq<Sample>,    // what parsing them gave
    doneNow: seq<Frame>,    // frames completed since the last abort
    takenNow: seq<Frame>,   // frames taken since the last abort
    held: Held,
    inTime: bool)           // every parse so far began within its window

  const NEW_LEDGER: Ledger := Ledger(0, 0, 0, 0, 0, 0, 0, 0, 0, [], [], [], [], Nothing, true)

  datatype Front = Front(ring: Ring, pending: nat, armed: bool, state: MachineState, dropped: nat, log: Ledger)

  function InitFront(): Front {
    Front(ResetRing(), 0, false, Idle, 0, NEW_LEDGER)
  }

  predicate Accepting(f: Front) {
    f.armed && f.state == Acquiring
  }

  // ----- one start attempt, with its bookkeeping -----

  /** A start clears its slot whether or not the HAL then accepts it. */
  function TouchHeld(h: Held, halOk: bool): Held {
    if h.Nothing? then h
    else if halOk then h.(transfers := h.transfers + 1, refused := false)
    else h.(refused := true)
  }

  /** `ADS131M08_StartReadAllChannelDataDma` called from either side. */
  function Begin(f: Front, halOk: bool): Front {
    if !CanStart(f.ring) then f
    else
      var log := f.log.(held := TouchHeld(f.log.held, halOk));
      f.(ring := Start(f.ring, halOk),
         log := if halOk then log.(starts := log.starts + 1, served := log.served + 1) else log)
  }

  predicate Begins(f: Front, halOk: bool) {
    CanStart(f.ring) && halOk
  }

  /** `DAQ_TryStartAdcDmaFromIsr`. */
  function TryStart(f: Front, halOk: bool): Front {
    if !Accepting(f) || f.pending == 0 || f.ring.busy then f
    else if Begins(f, halOk) then Begin(f, halOk).(pending := f.pending - 1)
    else Begin(f, halOk).(dropped := f.dropped + 1)
  }

  // ----- interrupts -----

  /** `DAQ_OnAdcDrdyFromIsr`. */
  function OnDrdy(f: Front, halOk: bool): Front {
    if !Accepting(f) then f
    else TryStart(Accepted(f), halOk)
  }

  function Accepted(f: Front): Front {
    f.(pending := f.pending + 1, log := f.log.(accepted := f.log.accepted + 1, events := f.log.events + 1))
  }

  /** Received bytes landing in the slot of the transfer in flight. */
  function OnBytes(f: Front, bytes: Frame): Front {
    f.(ring := Receive(f.ring, bytes))
  }

  /** The SPI completion interrupt; it fires only for a transfer in flight. */
  function OnDone(f: Front, halOk: bool): Front {
    if !f.ring.busy then f else TryStart(Completed(f), halOk)
  }

  function Completed(f: Front): Front {
    f.(ring := Complete(f.ring),
       log := f.log.(done := f.log.done + 1, doneNow := f.log.doneNow + [f.ring.slots[f.ring.active]]))
  }

  /** The SPI error interrupt; it fires only for a transfer in flight. */
  function OnFail(f: Front, halOk: bool): Front {
    if !f.ring.busy then f else TryStart(Errored(f), halOk)
  }

  function Errored(f: Front): Front {
    f.(ring := Fail(f.ring), dropped := f.dropped + 1, log := f.log.(errored := f.log.errored + 1))
  }

  // ----- the main loop's accesses -----

  /** The critical section at the head of the loop of `DAQ_ServiceAdcPending`. */
  function ClaimPending(f: Front): Front {
    if f.pending == 0 then f else f.(pending := f.pending - 1)
  }

  /** The critical section that returns the event when the transfer did not start. */
  function ReturnPending(f: Front): Front {
    f.(pending := f.pending + 1)
  }

  function ClearPending(f: Front): Front {
    f.(pending := 0, log := f.log.(accepted := 0, served := 0, cleared := f.log.cleared + f.pending))
  }

  /** The critical section of `ADS131M08_TakeDmaFrame`. */
  function TakeFrame(f: Front): Front {
    if f.ring.count == 0 then f
    else
      var frame := f.ring.slots[f.ring.tail];
      f.(ring := Take(f.ring),
         log := f.log.(taken := f.log.taken + [frame], takenNow := f.log.takenNow + [frame],
                       held := Held(f.ring.tail, frame, f.ring.count, if f.ring.busy then 1 else 0, false)))
  }

  /** How many slots behind the one held have been cleared since it was taken. */
  function Touched(h: Held): nat
    requires h.Held?
  {
    h.transfers + (if h.refused then 1 else 0)
  }

  /** Whether the bytes of the held slot are guaranteed to be the ones taken. */
  predicate WindowOpen(h: Held) {
    h.Held? && Touched(h) + h.ready < SLOTS + 1
  }

  /** `parseAllChannelFrame` reading the slot after the critical section. */
  function ParseSlot(f: Front, slot: SlotIndex): Front {
    f.(log := f.log.(parsed := f.log.parsed + [Parse(f.ring.slots[slot])],
                     inTime := f.log.inTime && WindowOpen(f.log.held), held := Nothing))
  }

  /** `ADS131M08_AbortReadDma`. */
  function AbortAll(f: Front): Front {
    f.(ring := Abort(f.ring),
       log := f.log.(aborted := f.log.aborted + (if f.ring.busy then 1 else 0),
                     discarded := f.log.discarded + f.ring.count, doneNow := [], takenNow := []))
  }

  function SetState(f: Front, state: MachineState, armed: bool): Front {
    f.(state := state, armed := armed)
  }

  // ----- the invariant -----

  function Parses(frames: seq<Frame>): (samples: seq<Sample>)
    ensures |samples| == |frames|
  {
    seq(|frames|, i requires 0 <= i < |frames| => Parse(frames[i]))
  }

  /**
   While a taken frame is held: its slot is just before the tail, the transfers counted cover those
   completed since it was taken, and within the window its bytes are untouched.
   */
  ghost predicate HeldSound(r: Ring, h: Held) {
    h.Held? ==>
      && h.slot < SLOTS && 1 <= h.ready <= SLOTS
      && r.tail == (h.slot + 1) % SLOTS
      && r.count + (if r.busy then 1 else 0) + 1 <= h.ready + h.transfers
      && (h.ready + Touched(h) <= SLOTS ==> r.slots[h.slot] == h.frame)
  }

  /** Everything the interrupts and the main loop keep; `claimed` counts the event the main loop holds. */
  ghost predicate FrontOk(f: Front, claimed: nat) {
    && Sound(f.ring)
    && HeldSound(f.ring, f.log.held)
    && f.log.accepted == f.pending + f.log.served + claimed
    && f.log.events == f.pending + f.log.starts + claimed + f.log.cleared
    && f.log.starts == f.log.done + f.log.errored + f.log.aborted + (if f.ring.busy then 1 else 0)
    && f.log.done == |f.log.taken| + f.ring.count + f.log.discarded
    && f.log.doneNow == f.log.takenNow + Ready(f.ring)
    && |f.log.taken| == |f.log.parsed| + (if f.log.held.Held? then 1 else 0)
    && (f.log.held.Held? ==> f.log.taken[|f.log.taken| - 1] == f.log.held.frame)
    && (f.log.inTime ==> f.log.parsed == Parses(f.log.taken[..|f.log.parsed|]))
  }

  lemma InitFrontOk()
    ensures FrontOk(InitFront(), 0)
  {
    var f := InitFront();
    assert f.ring.count == 0 && !f.ring.busy && !f.ring.error;
    assert f.log.taken == [] && f.log.parsed == [] && f.log.doneNow == [] && f.log.takenNow == [];
    hide InitFront, ResetRing, Blank, Parse;
    assert Ready(f.ring) == [] && Parses([]) == [];
  }

  /** Any start attempt, from either side, keeps the invariant; `served` absorbs one claimed event. */
  lemma BeginKeeps(f: Front, halOk: bool, claimed: nat)
    requires FrontOk(f, claimed) && claimed > 0
    ensures FrontOk(Begin(f, halOk), if Begins(f, halOk) then claimed - 1 else claimed)
    ensures Begin(f, halOk).log.held.Held? == f.log.held.Held?
  {
    StartKeepsReady(f.ring, halOk);
    if CanStart(f.ring) && f.log.held.Held? {
      var h := f.log.held;
      assert WriteSlot(f.ring) == h.slot ==> f.ring.count == SLOTS - 1;
    }
  }

  lemma TryStartKeeps(f: Front, halOk: bool, claimed: nat)
    requires FrontOk(f, claimed)
    ensures FrontOk(TryStart(f, halOk), claimed)
    ensures TryStart(f, halOk).log.held.Held? == f.log.held.Held?
  {
    if Accepting(f) && f.pending > 0 && !f.ring.busy {
      var g := f.(pending := f.pending - 1);
      assert FrontOk(g, claimed + 1);
      BeginKeeps(g, halOk, claimed + 1);
      assert Begin(g, halOk) == Begin(f, halOk).(pending := f.pending - 1);
    }
  }

  lemma AcceptKeeps(f: Front, claimed: nat)
    requires FrontOk(f, claimed)
    ensures FrontOk(Accepted(f), claimed)
  {}

  lemma DrdyKeeps(f: Front, halOk: bool, claimed: nat)
    requires FrontOk(f, claimed)
    ensures FrontOk(OnDrdy(f, halOk), claimed)
    ensures OnDrdy(f, halOk).log.held.Held? == f.log.held.Held?
  {
    hide FrontOk, TryStart;
    if Accepting(f) {
      AcceptKeeps(f, claimed);
      TryStartKeeps(Accepted(f), halOk, claimed);
    }
  }

  lemma BytesKeep(f: Front, bytes: Frame, claimed: nat)
    requires FrontOk(f, claimed)
    ensures FrontOk(OnBytes(f, bytes), claimed)
  {
    ReceiveKeepsReady(f.ring, bytes);
    if f.ring.busy && f.log.held.Held? {
      assert f.ring.active == f.log.held.slot ==> f.ring.count == SLOTS - 1;
    }
  }

  lemma CompletedKeeps(f: Front, claimed: nat)
    requires FrontOk(f, claimed) && f.ring.busy
    ensures FrontOk(Completed(f), claimed)
  {
    CompleteEnqueues(f.ring);
    Associative(f.log.takenNow, Ready(f.ring), [f.ring.slots[f.ring.active]]);
  }

  lemma DoneKeeps(f: Front, halOk: bool, claimed: nat)
    requires FrontOk(f, claimed)
    ensures FrontOk(OnDone(f, halOk), claimed)
    ensures OnDone(f, halOk).log.held.Held? == f.log.held.Held?
  {
    hide FrontOk, TryStart;
    if f.ring.busy {
      CompletedKeeps(f, claimed);
      TryStartKeeps(Completed(f), halOk, claimed);
    }
  }

  lemma ErroredKeeps(f: Front, claimed: nat)
    requires FrontOk(f, claimed) && f.ring.busy
    ensures FrontOk(Errored(f), claimed)
  {
    FailKeepsReady(f.ring);
  }

  lemma FailKeeps(f: Front, halOk: bool, claimed: nat)
    requires FrontOk(f, claimed)
    ensures FrontOk(OnFail(f, halOk), claimed)
    ensures OnFail(f, halOk).log.held.Held? == f.log.held.Held?
  {
    hide FrontOk, TryStart;
    if f.ring.busy {
      ErroredKeeps(f, claimed);
      TryStartKeeps(Errored(f), halOk, claimed);
    }
  }

  lemma ClaimKeeps(f: Front)
    requires FrontOk(f, 0)
    ensures f.pending > 0 ==> FrontOk(ClaimPending(f), 1)
  {}

  lemma ReturnKeeps(f: Front)
    requires FrontOk(f, 1)
    ensures FrontOk(ReturnPending(f), 0)
  {}

  lemma ClearKeeps(f: Front)
    requires FrontOk(f, 0)
    ensures FrontOk(ClearPending(f), 0)
  {}

  lemma SetStateKeeps(f: Front, state: MachineState, armed: bool, dropped: nat)
    requires FrontOk(f, 0)
    ensures FrontOk(SetState(f, state, armed), 0)
    ensures FrontOk(f.(dropped := dropped), 0)
  {}

  lemma TakeKeeps(f: Front, claimed: nat)
    requires FrontOk(f, claimed) && f.log.held.Nothing?
    ensures FrontOk(TakeFrame(f), claimed)
    ensures TakeFrame(f).log.held.Held? <==> f.ring.count > 0
    ensures f.ring.count > 0 ==> TakeFrame(f).log.held.slot == f.ring.tail
  {
    if f.ring.count > 0 {
      TakeDequeues(f.ring);
      var frame := f.ring.slots[f.ring.tail];
      Associative(f.log.takenNow, [frame], Ready(Take(f.ring)));
      assert (f.log.taken + [frame])[..|f.log.parsed|] == f.log.taken[..|f.log.parsed|];
    }
  }

  lemma ParseKeeps(f: Front, claimed: nat)
    requires FrontOk(f, claimed) && f.log.held.Held?
    ensures FrontOk(ParseSlot(f, f.log.held.slot), claimed)
    ensures ParseSlot(f, f.log.held.slot).log.held.Nothing?
  {
    var n := |f.log.parsed|;
    assert f.log.taken == f.log.taken[..n] + [f.log.taken[n]];
    if f.log.inTime && WindowOpen(f.log.held) {
      assert Parses(f.log.taken) == Parses(f.log.taken[..n]) + [Parse(f.log.taken[n])];
      assert f.log.taken[..n + 1] == f.log.taken;
    }
  }

  lemma AbortKeeps(f: Front, claimed: nat)
    requires FrontOk(f, claimed) && f.log.held.Nothing?
    ensures FrontOk(AbortAll(f), claimed)
  {
    AbortEmpties(f.ring);
  }

  // ----- what an interrupt cannot do -----

  /** What no interrupt changes; and with acquisition off and an empty ring it changes nothing at all. */
  ghost predicate Untouched(f: Front, g: Front) {
    && g.state == f.state && g.armed == f.armed
    && g.log.parsed == f.log.parsed && g.log.taken == f.log.taken
    && (f.log.held.Held? ==> g.log.held.Held? && g.log.held.slot == f.log.held.slot)
    && (f.log.held.Nothing? ==> g.log.held.Nothing?)
    && (!Accepting(f) && f.ring.count == 0 && !f.ring.busy ==> g == f)
  }

  lemma InterruptsUntouched(f: Front, halOk: bool, bytes: Frame)
    ensures Untouched(f, OnDrdy(f, halOk)) && Untouched(f, OnDone(f, halOk))
    ensures Untouched(f, OnFail(f, halOk)) && Untouched(f, OnBytes(f, bytes))
  {}

  /** Acquisition is on, an event waits, and no transfer is in flight. */
  predicate Stalled(f: Front) {
    Accepting(f) && f.pending > 0 && !f.ring.busy
  }

  /**
   What an interrupt adds to the count of missed frames: one for a transfer that failed, and one when it leaves
   an event waiting with no transfer in flight, that is, when the start it attempted was refused.
   */
  lemma MissesCounted(f: Front, halOk: bool, bytes: Frame)
    ensures OnBytes(f, bytes).dropped == f.dropped
    ensures var g := OnDrdy(f, halOk); g.dropped == f.dropped + (if Stalled(g) then 1 else 0)
    ensures var g := OnDone(f, halOk); g.dropped == f.dropped + (if f.ring.busy && Stalled(g) then 1 else 0)
    ensures var g := OnFail(f, halOk);
            g.dropped == f.dropped + (if f.ring.busy then 1 else 0) + (if f.ring.busy && Stalled(g) then 1 else 0)
  {
    AttemptCounted(f, halOk);
    AttemptCounted(Accepted(f), halOk);
    AttemptCounted(Completed(f), halOk);
    AttemptCounted(Errored(f), halOk);
    hide TryStart;
  }

  lemma AttemptCounted(f: Front, halOk: bool)
    ensures var g := TryStart(f, halOk);
            && g.dropped == f.dropped + (if Stalled(g) then 1 else 0)
            && (!Accepting(f) ==> g == f)
  {
    hide Blank;
  }

  // ----- the parse window is exact -----

  /**
   `n` transfers started one after the other, each but the last run to completion; `halOk` says whether the
   HAL accepts the last.
   */
  function Transfers(r: Ring, bytes: Frame, n: nat, halOk: bool): Ring {
    if n == 0 then r
    else if n == 1 then Start(r, halOk)
    else Start(Complete(Receive(Transfers(r, bytes, n - 1, true), bytes)), halOk)
  }

  /** The same, counting a transfer in flight at the outset as the first. */
  function TransfersCounted(r: Ring, bytes: Frame, n: nat, halOk: bool): Ring {
    if !r.busy then Transfers(r, bytes, n, halOk)
    else if n <= 1 then r
    else Transfers(Complete(Receive(r, bytes)), bytes, n - 1, halOk)
  }

  lemma {:induction false} TransfersFill(r: Ring, bytes: Frame, n: nat)
    requires !r.busy && r.count + n <= SLOTS
    ensures var t := Transfers(r, bytes, n, true);
            t.tail == r.tail && (n > 0 ==> t.busy && t.count == r.count + n - 1 && t.active == WriteSlot(t))
  {
    if n > 1 { TransfersFill(r, bytes, n - 1); }
  }

  /** With seven frames ready behind a slot just taken, the next start clears that slot, accepted or not. */
  lemma LastSlot(r: Ring, full: Ring, halOk: bool)
    requires r.count > 0 && full.count == SLOTS - 1 && !full.busy && full.tail == Take(r).tail
    ensures Start(full, halOk).slots[r.tail] == Blank()
  {}

  /**
   The window of `HeldSound` cannot be wider: with c frames ready when a frame is taken, transfer number
   9 - c, counting one in flight at the take, clears the slot that is still being parsed, and it does so even
   when the HAL then refuses it.
   */
  lemma WindowIsTight(r: Ring, bytes: Frame, halOk: bool)
    requires Sound(r) && r.count > 0
    ensures TransfersCounted(Take(r), bytes, SLOTS + 1 - r.count, halOk).slots[r.tail] == Blank()
  {
    var after := Take(r);
    var idle := if r.busy then Complete(Receive(after, bytes)) else after;
    var n := if r.busy then SLOTS - r.count else SLOTS + 1 - r.count;
    var full := if n > 1 then Complete(Receive(Transfers(idle, bytes, n - 1, true), bytes)) else idle;
    if n > 1 { TransfersFill(idle, bytes, n - 1); }
    assert full.count == SLOTS - 1 && !full.busy && full.tail == after.tail;
    LastSlot(r, full, halOk);
    assert Transfers(idle, bytes, n, halOk) == Start(full, halOk);
  }
}
