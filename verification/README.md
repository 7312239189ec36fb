# Formal model of the AEMS acquisition and transfer path

This project models, in Dafny, the part of the AEMS energy-metering system that moves samples from the ADC
to the host, and proves what that part keeps in every run:

- **The CM4 acquisition core** (`daq_engine.c`, the DMA ring of `ads131m08.c`, `statemachine.c`): data-ready and
  SPI interrupts feed an eight-slot DMA ring; the superloop takes frames, aggregates them into blocks, queues
  them, and packs them into the raw log or hands them to the other core. Commands arrive between passes.
- **The CM7/CM4 request-reply protocol** (both `openamp_fs.c`): one reply slot, one shared 16 KiB buffer, a
  polling wait, and no exclusion but lockstep.
- **The host's stream demultiplexer** (`session.py`): packets, stream headers, directory frames, raw payload and
  an in-band stop marker out of one TCP byte stream that arrives in any pieces.
- **The codecs and arithmetic around them**: channel packing and its decoding, the directory printer and its
  parser, the bitwise CRC, the offset calibration and its stored record, the MAC address hash.

`dafny verify dfyconfig.toml` checks everything.

## How it is laid out

Concurrency is modelled as a state machine on values: `Capture` holds what interrupts and the main loop share,
`Storage` what only the main loop touches, `Board` composes them with the machine's passes and the commands into one
step relation and proves one invariant of every step, `BoardTheorems` draws the conclusions for all runs and
`Scenarios` gives concrete runs; `StaleFrames` follows what a run inherits in the DMA ring and `BlockSizes` what size
its blocks have. The firmware's own form of the same code, objects and arrays updated in place, is `DmaRing.Driver`, `DaqStore` and `DaqEngine`: every method
there is proved to do to the objects what the step relation says, with interrupts possible between any two accesses of
the main loop to shared state, so the theorems about runs hold of the objects (`DaqEngine.Engine.Superloop`,
`FileIsComplete`, `CleanCloseIsComplete`). `TwoCore` adds the second core on top of `Board`; `MasterLink` is its
polling wait, shown to be a run of `TwoCore`. `Demux` says what a buffer means, one byte, one frame or one verified
piece of payload at a time; `HostSession` is the receive loop, which works on slices, and computes exactly that;
`HostTheorems` follows samples and directory listings to the host, `HostStreams` whole streams from their header on,
and `TestStream` is the board's side of the test stream. `CalibrationRun` follows one offset calibration through the
running system.

Ledgers (`Capture.Ledger`, `Storage.Run`, the accumulator's `used`) record history for the statements; no behaviour
depends on them.

## What it assumes

- Each interrupt handler, each call of the DMA start function, each abort and the critical section of the take
  function is one atomic step. `DAQ_ServiceAdcPending` calls the start function outside its critical section
  (`daq_engine.c:976-997`), so this is an assumption about the code as it stands. The parse after the take is a step
  of its own.
- A DMA callback fires only for a transfer in flight and never after an abort. Bytes of a transfer land in the slot
  it was started for, at any time while it is in flight. The parse reads its slot at one moment, its end.
- A successful log write appends the whole buffer and a failed one appends nothing. The message transport is first
  in, first out. Arming the ADC succeeds.
- Work of the main loop on its own data is merged with the neighbouring access to shared data.
- Counters do not wrap. `dropped_buffers` is kept as two addends, the interrupt handlers' share (`missed` in
  `Engine`) and the main loop's.
- The network core makes one request at a time, and it reads an announced answer before its next request. Of a
  reply only operation, status, value and length are modelled.
- Verification of the test pattern is never asked for on a sample stream; no caller does.
- The marker test compares with a fixed server id and a fixed latest time.
- What a calibration averages is stated for clock readings that are in order and span less than 2^31 ms, the last of
  them past the guard tick.

## Where the code falls short of what one would expect of it

- A start handled in STOPPING or FINALIZING is accepted, but the end of the previous run then clears the mode. The
  new log stays empty, and one queued block keeps the machine in FINALIZING for good. `FinishedLogIsComplete` and
  `FinalizingEndsIff` give the exact conditions, `OvertakenRunExists` the run.
- A transfer started while stop-and-close is taking frames can complete after it. Its frame waits in the ring and is
  stored in the next run (`StaleFrameEntersNextRun`). A run is free of inherited frames exactly if it is started in
  STOPPING or with the ring empty and idle, and inherits at most what the ring holds then (`FreeOfStaleFramesIff`,
  `StoredIsBounded`).
- A wait given up while its reply is not yet in the slot leaves a second request under way: a late reply is taken for
  the answer to the next request, and the shared buffer can be overwritten while it is read (`ExclusionCanBreak`).
  With the reply in the slot a timeout is harmless (`HarmlessIff`, `LockstepThroughoutIff`), except that a block
  announced by that reply is lost (`GiveUpLosesNothingIff`). That is a reply which arrives in the very poll whose
  tick is late: the wait throws it away (`GivesUpIff`, `RequestInLockstep`).
- An earlier look-alike of the stop acknowledgement in the payload always cuts the stream short
  (`StopDeliversIff`), and with pattern verification on the receive loop is chunk-independent only as long as the
  payload matches (`VerificationIsChunkedIff`, `ChunkedIffMatching`).
- A sample stream the board has started is refused by the host when fewer samples were asked for than a block holds,
  or so many that their bytes are a multiple of 2^32: the header then announces size 0 (`StartedStreamIsRefusedIff`).
- The test stream restarts its pattern with every read, so it passes the host's verification exactly if every read
  begins at a multiple of 256; reads of whole 1400-byte chunks do not (`TestStreamVerifiesIff`, `WholeChunksFail`).
- A directory listing is passed on as soon as a chunk reaches its end, though earlier parts never came
  (`FrameOutcome`).
- A calibration that averages anything cancels a start that is still waiting (`CalibrationAveragesItsWindow`).
- The checksum of the calibration record does not see two neighbouring offsets exchanged when they differ in every bit
  (`ExchangedIff`).
- A log start whose open fails leaves the new configuration applied and the old log closed (`StartLoggingEffect`).
- The host reads the server id of a directory frame one byte too early (`ListServerIff`) and never its status, so a
  listing that failed looks like an empty directory (`FailureLooksEmpty`).

## Model

| member | source | states |
|---|---|---|
| Board.StepKeeps | firmware/CM4/Library/ads131m08/daq_engine.c:771-1114 | every interrupt and every atomic piece of the main loop and of a command keeps the whole invariant: ring, conservation, block bounds, run account, provenance of stored samples |
| Board.EveryRun | firmware/CM4/Library/ads131m08/statemachine.c:27-98 | that invariant holds in every state of every run from reset, under every interleaving of interrupts, passes and commands |
| BoardTheorems.RingIsFifo | firmware/CM4/Library/ads131m08/ads131m08.c:228-345 | in every run frames are taken in the order they completed, each once; a transfer in flight fills the slot behind the ready frames; the overflow branch of the completion callback is dead; with the error flag up the next start still passes its guard and clears it |
| BoardTheorems.ParsesAreIntact | firmware/CM4/Library/ads131m08/ads131m08.c:277-300 | as long as every parse began within its window, the parsed samples are those of the frames taken, in order |
| Capture.WindowIsTight | firmware/CM4/Library/ads131m08/ads131m08.c:228-300 | the window is exact: with c frames ready when a slot is taken, transfer number 9 - c, counting one in flight at the take, clears that slot, even when the HAL then refuses it |
| BoardTheorems.EventsAreConserved | firmware/CM4/Library/ads131m08/daq_engine.c:771-808 | accepted data-ready events are pending, claimed or served; started transfers complete, fail, are aborted or in flight; completed frames are taken, ready or discarded by an abort; so the events ever accepted are the frames taken, those still owed and the losses |
| BoardTheorems.BoundsHold | firmware/CM4/Library/ads131m08/daq_engine.c:743-769 | in every run the open block stays below 128 samples, queued blocks hold 1 to 128, each packs to 4..4096 bytes and fits the shared area, and the error state is never entered |
| BoardTheorems.BytesAreConserved | firmware/CM4/Library/ads131m08/daq_engine.c:637-653 | while a run is intact and in its mode, bytes queued plus written equal the accounted bytes of all pushed blocks and the queued counter covers the queue, so no counter saturates |
| BoardTheorems.StatusIsTrue | firmware/CM4/Library/ads131m08/daq_engine.c:591-607 | in every run the captured counter misses at most one stored sample for each block refused, and a log run whose error word is clear has written every block taken from the queue |
| BoardTheorems.LogIsPackedBlocks | firmware/CM4/Library/ads131m08/daq_engine.c:1029-1085 | in every state of a log run the log is the packing, in capture order, of whole blocks of the stored samples, none twice, and each missing block is counted as dropped |
| BoardTheorems.FinishedLogIsComplete | firmware/CM4/Library/ads131m08/daq_engine.c:265-294 | at rest, with no push and no write failed, the log is the packing of every stored sample if and only if the start was not handled while an earlier run was being wound up, or nothing was stored |
| BoardTheorems.LogIsWhatWasCaptured | firmware/CM4/Library/ads131m08/daq_engine.c:704-769 | then, with every parse in its window, the log is the packing of what the 24-bit words of the frames taken from the ring during the run report, frames with an all-ones status left out |
| BoardTheorems.ReadingsReachTheLog | firmware/CM4/Library/ads131m08/ads131m08.c:347-363 | end to end: when those frames are what the ADC sends for some conversions, decoding the log gives exactly the selected readings of the valid conversions, in order |
| BoardTheorems.ArmedWithNothingOpen | firmware/CM4/Library/ads131m08/daq_engine.c:208-231 | in every run, whatever arms the ADC finds no open block, so nothing stored before joins what is captured from then on |
| BoardTheorems.WindsUpInNinePasses | firmware/CM4/Library/ads131m08/statemachine.c:71-83 | from STOPPING or FINALIZING with the mode set, nine passes of the machine bring it to rest: queue empty, nothing open, mode idle, whatever interrupts, stops and reads come between |
| BoardTheorems.StoppingDrains | firmware/CM4/Library/ads131m08/statemachine.c:57-75 | in every run, a run whose start was not overtaken and whose configuration stands enters that drain with its mode set |
| BoardTheorems.FinalizingEndsIff | firmware/CM4/Library/ads131m08/daq_engine.c:1087-1114 | with no block open, the machine leaves FINALIZING by its own passes if and only if the mode is still set or no block is queued |
| Scenarios.CompleteRunExists | firmware/CM4/Library/ads131m08/daq_engine.c:265-294 | a run that meets the hypotheses: one frame captured, its packing in the log, the machine at rest |
| Scenarios.OvertakenRunExists | firmware/CM4/Library/ads131m08/daq_engine.c:279-292 | a log start handled in STOPPING leads to a stored sample, an empty log and a machine that never leaves FINALIZING |
| BlockSizes.BlocksAreWhole | firmware/CM4/Library/ads131m08/daq_engine.c:743-769 | in every run begun at rest and not reconfigured every block cut has exactly the configured number of samples while the run goes on; only the last, cut off by the stop, may be shorter |
| BlockSizes.RequestIffRoom | firmware/CM4/Library/ads131m08/daq_engine.c:609-642 | so while an intact stream goes on, a request gets the next block if and only if it has room for the configured number of samples |
| BlockSizes.BoundedStreamIsServedIff | firmware/CM7/Core/Src/freertos.c:1349-1353 | and the network core, which asks for what is left of the announced size up to a limit, gets every block to the end of a bounded stream if and only if the limit has room for one |
| StaleFrames.StoredIsBounded | firmware/CM4/Library/ads131m08/daq_engine.c:249-294 | in every continuation of a start, the samples stored exceed the events accepted since by at most the frames ready in the ring at the start and the transfer then in flight |
| StaleFrames.FreeOfStaleFramesIff | firmware/CM4/Library/ads131m08/daq_engine.c:249-294 | a run never stores more frames than it accepts events, however it goes on, if and only if it was started in STOPPING or with the ring empty and no transfer in flight |
| Scenarios.StaleFrameEntersNextRun | firmware/CM4/Library/ads131m08/daq_engine.c:537-589 | the bound is met: a transfer started during stop-and-close can complete after it, and its frame is stored in the next run without any data-ready event of that run |
| DmaRing.StartKeepsReady | firmware/CM4/Library/ads131m08/ads131m08.c:228-270 | starting, or failing to start, a transfer leaves the ready frames alone and keeps the ring sound |
| DmaRing.CompleteEnqueues | firmware/CM4/Library/ads131m08/ads131m08.c:316-333 | completing a transfer appends exactly its frame to the ready frames and never overflows |
| DmaRing.FailKeepsReady | firmware/CM4/Library/ads131m08/ads131m08.c:335-345 | a failed transfer leaves the ready frames alone |
| DmaRing.TakeDequeues | firmware/CM4/Library/ads131m08/ads131m08.c:287-294 | taking removes exactly the oldest ready frame |
| DmaRing.AbortEmpties | firmware/CM4/Library/ads131m08/ads131m08.c:302-314 | an abort leaves no frame ready and no error, and the next start passes its guard |
| DmaRing.ErrorClears | firmware/CM4/Library/ads131m08/ads131m08.c:228-285 | the error flag can never block both the start and the taking side |
| DmaRing.FailureBlocksTaking | firmware/CM4/Library/ads131m08/ads131m08.c:228-285 | after a failed transfer or a refused start no frame is taken until a start succeeds, and then any ready frame is |
| DmaRing.SignExtend | firmware/CM4/Library/ads131m08/ads131m08.c:872-882 | a 24-bit two's complement word, in range and congruent to its octets |
| DmaRing.Driver.StartReadAllChannelDataDma | firmware/CM4/Library/ads131m08/ads131m08.c:228-270 | the array form of the start: one slot cleared, flags and slot as the ring function says, answer whether it started |
| DmaRing.Driver.TransferBytes | firmware/CM4/Library/ads131m08/ads131m08.c:228-270 | received bytes land in the slot of the transfer in flight |
| DmaRing.Driver.MayTakeFrame | firmware/CM4/Library/ads131m08/ads131m08.c:277-285 | in a sound ring the test passes if and only if a frame is ready and no transfer failed since; when it fails with a frame ready, the next start that succeeds makes it pass |
| DmaRing.Driver.TakeSlot | firmware/CM4/Library/ads131m08/ads131m08.c:287-294 | the critical section: tail and count move, the slot taken is the old tail |
| DmaRing.Driver.ParseSlot | firmware/CM4/Library/ads131m08/ads131m08.c:347-363 | reading a slot gives what its ten 24-bit words mean, high octet first: the status is the upper half of word 0, reading c the signed value of word c + 1, the CRC the upper half of word 9 |
| DmaRing.ParseEncoded | firmware/CM4/Library/ads131m08/ads131m08.c:347-363 | parsing the frame the ADC sends for a conversion gives back its status, its eight readings in order and its CRC |
| DmaRing.ParseReadsWords | firmware/CM4/Library/ads131m08/ads131m08.c:347-363 | for any frame at all, the parse is the meaning of its words |
| DmaRing.SameWordSameChannel | firmware/CM4/Library/ads131m08/ads131m08.c:347-363 | two frames give the same reading on a channel if and only if they have the same word there |
| DmaRing.WordsRoundTrip | firmware/CM4/Library/ads131m08/ads131m08.c:347-363 | the words clocked out are the words read back |
| DmaRing.Driver.AbortReadDma | firmware/CM4/Library/ads131m08/ads131m08.c:302-314 | the ring state after an abort |
| DmaRing.Driver.DmaTxRxCpltCallback | firmware/CM4/Library/ads131m08/ads131m08.c:316-333 | the ring state after completion |
| DmaRing.Driver.DmaErrorCallback | firmware/CM4/Library/ads131m08/ads131m08.c:335-345 | the ring state after an error |
| Capture.DrdyKeeps | firmware/CM4/Library/ads131m08/daq_engine.c:771-780 | a data-ready interrupt keeps the event account and the frame taken, at any point of the main loop |
| Capture.DoneKeeps | firmware/CM4/Library/ads131m08/daq_engine.c:782-786 | so does a completion interrupt with the start it triggers |
| Capture.FailKeeps | firmware/CM4/Library/ads131m08/daq_engine.c:788-792 | and an error interrupt |
| Capture.TryStartKeeps | firmware/CM4/Library/ads131m08/daq_engine.c:794-808 | a start from an interrupt serves one pending event or gives it back |
| Capture.MissesCounted | firmware/CM4/Library/ads131m08/daq_engine.c:782-808 | the interrupts count a missed frame for each failed transfer and for each start attempt that leaves an event waiting with no transfer in flight, and for nothing else |
| Capture.TakeKeeps | firmware/CM4/Library/ads131m08/ads131m08.c:287-294 | a taken frame is the next completed one, and its window opens |
| Capture.ParseKeeps | firmware/CM4/Library/ads131m08/ads131m08.c:296-299 | a parse within the window gives the sample of the frame that was taken |
| Storage.StoreFrameKeeps | firmware/CM4/Library/ads131m08/daq_engine.c:704-769 | storing a frame keeps the account of the run: cut blocks and open block are the stored samples |
| Storage.CapturedCounts | firmware/CM4/Library/ads131m08/daq_engine.c:704-769 | the captured counter counts a stored sample unless it completes a block refused at once, and a calibration frame exactly when it is averaged |
| Storage.FlushKeeps | firmware/CM4/Library/ads131m08/daq_engine.c:189-197 | the flush cuts the open block off whole, keeping the account |
| Storage.ServiceWriteKeeps | firmware/CM4/Library/ads131m08/daq_engine.c:1029-1085 | writing the oldest block keeps log, byte counters and drop counters exact; packing never fails |
| Storage.ReadStreamKeeps | firmware/CM4/Library/ads131m08/daq_engine.c:609-658 | handing the oldest block over keeps them exact too |
| Storage.RequestOutcome | firmware/CM4/Library/ads131m08/daq_engine.c:609-658 | a request takes the oldest block exactly if it has room for it, loses it exactly if it has room for a sample but not for the block, and leaves the queue alone otherwise |
| Storage.QueuedCovers | firmware/CM4/Library/ads131m08/daq_engine.c:644-653 | the queued-bytes counter is at least the bytes still in the queue |
| Storage.DrainEmpties | firmware/CM4/Library/ads131m08/daq_engine.c:546-550 | the ten iterations of a drain loop empty any queue in log mode and change nothing else of the run |
| Storage.StopAndCloseKeeps | firmware/CM4/Library/ads131m08/daq_engine.c:537-589 | stop-and-close drains a log run without discarding anything, closes the log and leaves nothing buffered, from any state |
| Storage.FailedCloseShows | firmware/CM4/Library/ads131m08/daq_engine.c:585-588 | with a log open, a close that fails is always visible in the answer |
| Storage.CheckPendingKeeps | firmware/CM4/Library/ads131m08/daq_engine.c:1087-1114 | closing the run in FINALIZING keeps the account |
| Storage.StartLoggingEffect | firmware/CM4/Library/ads131m08/daq_engine.c:265-294 | a refused configuration changes nothing but the status; a valid one begins a fresh run with an empty log, or, when the open fails, leaves the new configuration applied, the old log closed and the run cut off from its configuration |
| Storage.StartLoggingChanges | firmware/CM4/Library/ads131m08/daq_engine.c:265-294 | nothing but the status changes if and only if the configuration is refused or the start repeats the last one |
| Storage.LogStartsIff | firmware/CM4/Library/ads131m08/daq_engine.c:265-294 | a log start begins a run if and only if rate, mask, block size and a terminated non-empty name are valid and the file opens |
| Storage.StartKeeps | firmware/CM4/Library/ads131m08/daq_engine.c:249-294 | a start keeps the account even when opening the log fails after the configuration was applied |
| DaqStore.WriteQueue.Push | firmware/CM4/Library/ads131m08/daq_engine.c:152-168 | the eight-slot ring appends the block exactly when it is not full |
| DaqStore.WriteQueue.Pop | firmware/CM4/Library/ads131m08/daq_engine.c:171-182 | it gives back the oldest block |
| DaqStore.WriteQueue.Clear | firmware/CM4/Library/ads131m08/daq_engine.c:112-119 | it is emptied |
| DaqStore.Store.AccountedBytes | firmware/CM4/Library/ads131m08/daq_engine.c:843-851 | the accounted bytes: packed words when logging, whole frames otherwise |
| DaqStore.Store.QueuePush | firmware/CM4/Library/ads131m08/daq_engine.c:152-168 | push with byte accounting, the refused block counted |
| DaqStore.Store.StoreSampleFrame | firmware/CM4/Library/ads131m08/daq_engine.c:743-769 | the sample joins the open block, which is pushed when full; which samples count as captured |
| DaqStore.Store.StoreAdcFrame | firmware/CM4/Library/ads131m08/daq_engine.c:704-727 | invalid frames are dropped and counted, calibration frames accumulated, others stored |
| DaqStore.Store.FlushAggregate | firmware/CM4/Library/ads131m08/daq_engine.c:189-197 | a partial block is pushed whole |
| DaqStore.Store.ResetSoftwareBuffers | firmware/CM4/Library/ads131m08/daq_engine.c:112-119 | open block, queue and queued bytes are cleared, nothing else |
| DaqStore.Store.PopBlock | firmware/CM4/Library/ads131m08/daq_engine.c:171-182 | the head of the queue is removed |
| DaqStore.Store.ServicePendingWrites | firmware/CM4/Library/ads131m08/daq_engine.c:1029-1085 | the oldest block is packed into the buffer and appended to the log, or counted as dropped with the error recorded |
| DaqStore.Store.ReadStreamBlockShared | firmware/CM4/Library/ads131m08/daq_engine.c:609-658 | a block is handed over exactly when streaming with a block queued that fits both limits, with 36 bytes a sample; a block that does not fit is lost and counted |
| DaqStore.Store.HasPendingWrites | firmware/CM4/Library/ads131m08/daq_engine.c:1087-1114 | the answer, and the closing of the run |
| DaqStore.Store.DrainLoop | firmware/CM4/Library/ads131m08/daq_engine.c:546-550 | one guarded drain loop |
| DaqStore.Store.CloseRun | firmware/CM4/Library/ads131m08/daq_engine.c:546-589 | stop-and-close from its drain loops on; its answer is whether no error is recorded |
| DaqStore.Store.StartLog | firmware/CM4/Library/ads131m08/daq_engine.c:265-294 | the state after a log start, in each of its outcomes |
| DaqStore.Store.StartStream | firmware/CM4/Library/ads131m08/daq_engine.c:501-521 | the state after a stream start |
| DaqStore.Store.StopCommand | firmware/CM4/Library/ads131m08/daq_engine.c:523-535 | the state after a stop, at rest and otherwise |
| DaqStore.Store.CalibrationSetup | firmware/CM4/Library/ads131m08/daq_engine.c:412-447 | counters, configuration and accumulator for a calibration |
| DaqStore.Store.CalibrationFinish | firmware/CM4/Library/ads131m08/daq_engine.c:461-493 | configuration restored, and the offsets replaced by the means when any frame was averaged |
| DaqEngine.Engine.TryStartAdcDmaFromIsr | firmware/CM4/Library/ads131m08/daq_engine.c:794-808 | the shared state after a start attempt from an interrupt |
| DaqEngine.Engine.OnAdcDrdyFromIsr | firmware/CM4/Core/Src/main.c:217-221 | the data-ready handler is one step of the system |
| DaqEngine.Engine.OnAdcDmaCompleteFromIsr | firmware/CM4/Core/Src/main.c:223-230 | the completion handler is one step |
| DaqEngine.Engine.OnAdcDmaErrorFromIsr | firmware/CM4/Core/Src/main.c:232-239 | the error handler is one step |
| DaqEngine.Engine.ServiceAdcPending | firmware/CM4/Library/ads131m08/daq_engine.c:963-1001 | the claiming loop, with interrupts between its accesses, is a sequence of steps of the system |
| DaqEngine.Engine.ServiceCapturedSamples | firmware/CM4/Library/ads131m08/daq_engine.c:1003-1020 | so is the taking loop, the parse being a step of its own |
| DaqEngine.Engine.StateMachineRun | firmware/CM4/Library/ads131m08/statemachine.c:27-98 | so is one pass of the machine, in every state, and nothing else is polled meanwhile; the error state is unreachable |
| DaqEngine.Engine.StopAndClose | firmware/CM4/Library/ads131m08/daq_engine.c:537-589 | so is stop-and-close; it always leaves the machine at rest with nothing buffered and the log closed, and a clean answer means the file holds every stored sample, unless a block was refused or the start overtaken |
| DaqEngine.Engine.RunOffsetCalibration | firmware/CM4/Library/ads131m08/daq_engine.c:395-494 | a calibration runs exactly when the machine is idle, and is a run of the system that begins with its call and carries out nothing else; with its clock readings in order it lasts at least 15000 ms, and the offsets left are, channel by channel, the truncated means of exactly the valid frames processed 5000 to 15000 ms after its start, or the old ones when there are none |
| CalibrationRun.CalibrationAveragesItsWindow | firmware/CM4/Library/ads131m08/daq_engine.c:395-494 | the same for the system itself, under every interleaving with interrupts, configuration and mode being those before |
| CalibrationRun.LoopLasts | firmware/CM4/Library/ads131m08/daq_engine.c:451-459 | the loop is left only once the guard or the end of the window is reached, never before the window is over |
| CalibrationRun.GuardIff | firmware/CM4/Library/ads131m08/daq_engine.c:447-451 | the guard is reached exactly from 15100 ms after its own reading of the clock on, through any wrap |
| CalibrationRun.GuardAfterWindow | firmware/CM4/Library/ads131m08/daq_engine.c:447-451 | the guard, which has its own reading of the clock, cannot run out within the window |
| DaqEngine.Engine.StartLogging | firmware/CM4/Core/Src/openamp_fs.c:423-444 | a log start is exactly that one command of the system, and its answer is whether it began a run |
| DaqEngine.Engine.ReadBlockShared | firmware/CM4/Core/Src/openamp_fs.c:446-469 | a block request is exactly that one command; when it hands a block over, the shared buffer holds the head of the queue and the counts are its size |
| DaqEngine.Engine.Superloop | firmware/CM4/Core/Src/main.c:164-171 | any number of rounds of the superloop, each with any number of commands, any interrupts and any outcome of every single write, makes exactly that many passes and ends in a state where the invariant holds |
| DaqEngine.Engine.FileIsComplete | firmware/CM4/Library/ads131m08/daq_engine.c:1029-1114 | for the objects themselves: the finished file is complete under exactly the condition of FinishedLogIsComplete |
| DaqEngine.Engine.CleanCloseIsComplete | firmware/CM4/Library/ads131m08/daq_engine.c:585-588 | for the objects themselves: a clean close of a log run in which no block was refused means a complete file |
| DaqEngine.Engine.CountersAreExact | firmware/CM4/Library/ads131m08/daq_engine.c:637-653 | for the objects themselves: the byte counters account for every pushed block |
| Packing.PackBlock | firmware/CM4/Library/ads131m08/daq_engine.c:932-961 | the two packing loops write exactly the packing, or return 0 when it does not fit |
| Packing.SelectedIsBit | firmware/CM4/Library/ads131m08/daq_engine.c:828-841 | a channel is selected if and only if its bit of the mask, by place value, is 1 |
| Packing.CountSelectedChannels | firmware/CM4/Library/ads131m08/daq_engine.c:828-841 | the loop counts the selected channels |
| Packing.WriteS32Le | firmware/CM4/Library/ads131m08/daq_engine.c:853-861 | four octets, least significant first, and nothing else changed |
| Packing.PackLength | firmware/CM4/Library/ads131m08/daq_engine.c:843-851 | the accounting formula is the packed length |
| Packing.PackFits | firmware/CM4/Library/ads131m08/daq_engine.c:932-961 | a valid block never overruns the pack buffer and never packs to nothing |
| Packing.PackDecode | firmware/CM4/Library/ads131m08/daq_engine.c:932-961 | decoding a packed log gives back, for every non-empty 8-bit mask, each sample's selected channels in ascending order |
| Packing.HostRecord | firmware/BoardInterfaceLibrary/board_interface/daq.py:68-70 | for mask 0x3F the record is the host's 24 bytes: channels 0 to 5 |
| Packing.CutRecords | firmware/BoardInterfaceLibrary/board_interface/daq.py:95-99 | whole records are cut from the front, the rest is kept |
| Packing.RecordsFromReads | firmware/BoardInterfaceLibrary/board_interface/daq.py:103-121 | the conversion loop gives the records of the file however the reads cut it |
| Demux.OnceMonotone | firmware/BoardInterfaceLibrary/board_interface/session.py:357-430 | a step the receive loop can take stays possible, and means the same, when more bytes arrive; with verification on, as long as the piece at hand does not grow |
| Demux.SettleEarly | firmware/BoardInterfaceLibrary/board_interface/session.py:357-430 | taking out what can be taken before more bytes arrive changes nothing, as long as no verification fails on the way |
| Demux.ChunkingIsIrrelevant | firmware/BoardInterfaceLibrary/board_interface/session.py:357-430 | receiving any pieces is receiving their concatenation, as long as no verification fails: same packets, payload, frames and residual state |
| Demux.UnverifiedIsClean | firmware/BoardInterfaceLibrary/board_interface/session.py:518-524 | nothing can fail where nothing is verified, so there the pieces never matter |
| Demux.SameBytesSameMeaning | firmware/BoardInterfaceLibrary/board_interface/session.py:357-430 | two ways of cutting the same bytes give the same result |
| Demux.TakeTwice | firmware/BoardInterfaceLibrary/board_interface/session.py:513-560 | payload consumed in two parts is payload consumed at once |
| Demux.StopAtFirstMarker | firmware/BoardInterfaceLibrary/board_interface/session.py:366-385 | the payload ends at the first index that passes the marker test |
| Demux.StopRoundTrip | firmware/BoardInterfaceLibrary/board_interface/session.py:232-236 | payload, stop acknowledgement and any suffix, in any pieces: exactly the payload is delivered, the handle is resolved once, the acknowledgement is passed on, the suffix framed as usual |
| Demux.StopDeliversIff | firmware/BoardInterfaceLibrary/board_interface/session.py:334-355 | this happens if and only if no earlier index passes the marker test |
| HostSession.BoardSession.PrepareStream | firmware/BoardInterfaceLibrary/board_interface/session.py:289-326 | a stream is prepared exactly when none is active; no caller asks for a sample stream to be verified |
| HostSession.BoardSession.ExpectStop | firmware/BoardInterfaceLibrary/board_interface/session.py:232-236 | the stop acknowledgement is expected only on a sample stream |
| HostSession.BoardSession.FindStreamControlMarker | firmware/BoardInterfaceLibrary/board_interface/session.py:334-355 | the search loop returns the first index that passes the test, or -1 when none does |
| HostSession.BoardSession.ConsumeStreamPayload | firmware/BoardInterfaceLibrary/board_interface/session.py:513-560 | a payload that fails its verification is dropped and gives the stream up; otherwise data, file, decoded frames, remainder and byte count after it |
| HostSession.BoardSession.FinishStream | firmware/BoardInterfaceLibrary/board_interface/session.py:562-589 | the handle is resolved and the stream gone |
| HostSession.BoardSession.HandleStreamHeader | firmware/BoardInterfaceLibrary/board_interface/session.py:481-511 | each outcome of a stream header |
| HostStreams.StreamStartsIff | firmware/BoardInterfaceLibrary/board_interface/session.py:481-511 | a prepared stream that receives a header with these fields starts, with exactly that server, time and size, if and only if the command is the one awaited, the status 0 and the size not 0; otherwise its handle is resolved with the error that tells the two failures apart |
| HostStreams.PreparedStreamArrives | firmware/BoardInterfaceLibrary/board_interface/session.py:289-326 | for a caller: a prepared file or test stream ends with its payload captured, and saved, exactly as asked |
| HostStreams.StartedStreamIsRefusedIff | firmware/CM7/Core/Src/freertos.c:725-774 | a sample stream the board has started is refused by the host, with a start failure, if and only if fewer samples were asked for than a block holds or the bytes of the whole blocks are a multiple of 2^32 |
| HostStreams.FileStreamArrives | firmware/BoardInterfaceLibrary/board_interface/protocol.py:173-180 | a file or test stream from its first byte on, in any pieces: header, payload of the announced size and any rest; the handle is resolved once with exactly that payload, the bytes saved, server, time and size, and the rest is framed as usual |
| HostStreams.SampleStreamArrives | firmware/CM7/Core/Src/freertos.c:739-757 | a sample stream from header to end, the stop command sent anywhere in between, in any pieces: the handle is resolved once with exactly the rows of the samples and, if saved, exactly their bytes |
| HostStreams.AcknowledgementIff | firmware/BoardInterfaceLibrary/board_interface/session.py:334-355 | an acknowledgement passes the marker test if and only if it names this board and its time is not too far ahead |
| HostStreams.OrphanArrives | firmware/BoardInterfaceLibrary/board_interface/session.py:481-487 | a header no stream waits for is reported and costs nothing else |
| HostStreams.PacketsArrive | firmware/BoardInterfaceLibrary/board_interface/session.py:405-430 | between streams fixed packets are passed on, each once and in order, in any pieces |
| HostSession.BoardSession.HandleFileListPacket | firmware/BoardInterfaceLibrary/board_interface/session.py:451-479 | a listing chunk overwrites its range; the result is passed on at the end |
| HostSession.BoardSession.StreamingPass | firmware/BoardInterfaceLibrary/board_interface/session.py:366-404 | one turn of the loop inside a stream, on slices of the buffer, keeps the meaning of the buffer |
| HostSession.BoardSession.FramingPass | firmware/BoardInterfaceLibrary/board_interface/session.py:405-430 | one turn of the loop between streams does too |
| HostSession.BoardSession.OnData | firmware/BoardInterfaceLibrary/board_interface/session.py:357-430 | after one recv the session is what the buffered bytes mean; the loop ends by the measure (buffer length, active stream) |
| HostSession.BoardSession.RecvLoop | firmware/BoardInterfaceLibrary/board_interface/session.py:357-430 | the loop over all pieces; as long as no verification fails only their concatenation matters |
| HostTheorems.FrameRoundTrip | firmware/BoardInterfaceLibrary/board_interface/daq.py:63-65 | the six readings of a streamed sample frame are read back |
| HostTheorems.UnpackedIsSample | firmware/BoardInterfaceLibrary/board_interface/daq.py:63-65 | unpacking the memory of a sample gives back its status, its CRC and all eight readings |
| HostTheorems.SamplesArrive | firmware/BoardInterfaceLibrary/board_interface/session.py:545-552 | the bytes of samples decode to exactly their readings, in order |
| HostTheorems.StreamEndToEnd | firmware/BoardInterfaceLibrary/board_interface/session.py:357-430 | samples followed by a stop, in any pieces: the handle is resolved once with exactly their rows |
| HostTheorems.ListingInAnyPieces | firmware/BoardInterfaceLibrary/board_interface/session.py:451-479 | contiguous in-order chunks of a listing are put together once and completely, whatever the buffer held and however the stream was cut |
| HostTheorems.FrameOutcome | firmware/BoardInterfaceLibrary/board_interface/session.py:451-479 | a directory frame passes the listing on if and only if it is empty or its chunk reaches or passes the end, with the chunk in its range exactly if it fits: parts may be missing |
| HostTheorems.FailureLooksEmpty | firmware/CM7/Core/Src/freertos.c:427-440 | a listing that could not be had arrives as the empty directory, in any pieces: the status byte is never read |
| HostTheorems.ListServerIff | firmware/BoardInterfaceLibrary/board_interface/session.py:453-453 | the server id the host reads in a listing frame is the sender's if and only if that is 0 |
| HostTheorems.DirectoryEndToEnd | firmware/BoardInterfaceLibrary/board_interface/models.py:132-150 | when the printer reported success the entries the host reads are the files of the directory, with their sizes; of an empty directory none |
| HostSession.VerifyPatternChunk | firmware/BoardInterfaceLibrary/board_interface/protocol.py:183-188 | the loop finds the first byte that differs from the pattern |
| HostTheorems.CleanIff | firmware/BoardInterfaceLibrary/board_interface/session.py:518-524 | the rest of a verified payload and what follows is free of failures if and only if the payload matches and what follows is |
| HostTheorems.PatternFileArrives | firmware/BoardInterfaceLibrary/board_interface/session.py:513-560 | a file of the test pattern passes verification in any pieces and resolves its handle once, with its bytes captured and, if asked for, saved |
| TestStream.Source.Read | firmware/CM7/Core/Src/freertos.c:1155-1170 | every read of the test stream is the beginning of the pattern, of the length asked for or left |
| TestStream.TestStreamVerifiesIff | firmware/CM7/Core/Src/freertos.c:1155-1170 | what reads of any lengths send is the pattern the host compares with if and only if every read that returns bytes begins at a multiple of 256 |
| TestStream.WholeChunksFail | firmware/CM7/Core/Src/freertos.c:1145-1170 | so reads of whole chunks fail verification from the second on |
| HostTheorems.VerificationIsChunkedIff | firmware/BoardInterfaceLibrary/board_interface/session.py:518-524 | for the session itself: with verification on, cutting a piece of payload in two makes no difference if and only if all of it matches, or its first part does not and the second changes nothing when read as ordinary frames |
| HostTheorems.ChunkedIffMatching | firmware/BoardInterfaceLibrary/board_interface/session.py:518-524 | unless the second part begins like a directory frame, if and only if all of it matches |
| TwoCore.EveryDuoRun | firmware/CM7/Core/Src/openamp_fs.c:685-772 | in every run of both cores in which no wait is given up before its reply is in the slot, lockstep, the contents of the shared buffer and the stream account hold |
| TwoCore.BlockRequestHandsOver | firmware/CM4/Core/Src/openamp_fs.c:446-469 | a block request hands over the head of the queue or nothing, and a long enough one loses nothing |
| TwoCore.EffectiveCovers | firmware/CM4/Core/Src/openamp_fs.c:446-469 | a request covers n bytes of the shared area if and only if it asks for at least n, or for 0 |
| TwoCoreTheorems.OneMessageInFlight | firmware/CM7/Core/Src/openamp_fs.c:734-771 | at most one message is in flight and no wait ends with -5 |
| TwoCoreTheorems.BufferIsExclusive | firmware/CM7/Core/Src/openamp_fs.c:177-546 | then the cores are never both at the shared buffer, and the answer of a listing, a file stream, a probe or a block request stays put from its announcement until it is read |
| TwoCoreTheorems.FetchReadsWhatWasAnnounced | firmware/CM7/Core/Src/openamp_fs.c:177-546 | and what the network core reads is what was announced for this request; a probe always finds its pattern |
| TwoCoreTheorems.BlocksArriveInOrder | firmware/CM4/Core/Src/openamp_fs.c:446-469 | what the network core has read, the block still in the buffer and the queued blocks are the pushed blocks, in order, each once, unless an announced block was given up |
| TwoCoreTheorems.NothingStoredIsMissing | firmware/CM4/Library/ads131m08/daq_engine.c:609-658 | with no block refused, together with the open block they are every stored sample |
| TwoCoreTheorems.CountsAgree | firmware/CM7/Core/Src/openamp_fs.c:542-545 | bytes announced are 36 times the samples announced |
| TwoCoreTheorems.GiveUpKeepsLockstepIff | firmware/CM7/Core/Src/openamp_fs.c:743-751 | giving a wait up keeps the cores in lockstep if and only if its reply is already in the slot |
| TwoCoreTheorems.LockstepThroughoutIff | firmware/CM7/Core/Src/openamp_fs.c:743-751 | a run keeps them in lockstep throughout if and only if every wait given up in it finds its reply in the slot |
| TwoCoreTheorems.HarmlessIff | firmware/CM7/Core/Src/openamp_fs.c:743-771 | after a wait given up the next waits can end with -5, with no further timeout, if and only if the reply was not yet in the slot |
| TwoCoreTheorems.GiveUpLosesNothingIff | firmware/CM7/Core/Src/openamp_fs.c:743-751 | a stream loses nothing by it if and only if the reply does not announce a block |
| TwoCoreTheorems.ExclusionCanBreak | firmware/CM7/Core/Src/openamp_fs.c:734-751 | from reset, one timeout too early leads to the network core reading a buffer the other core has overwritten |
| TwoCoreTheorems.TimeoutBreaksExclusion | firmware/CM7/Core/Src/openamp_fs.c:734-751 | from every state with two blocks queued, one timed-out and repeated request leads to the network core reading a buffer the other core has overwritten |
| TwoCoreTheorems.TimeoutBreaksMatching | firmware/CM7/Core/Src/openamp_fs.c:765-771 | one timeout is enough for a wait to end with the reply to another operation |
| MasterLink.Master.RxCallback | firmware/CM7/Core/Src/openamp_fs.c:824-854 | the reply slot after a message of each size |
| MasterLink.Master.MasterInit | firmware/CM7/Core/Src/openamp_fs.c:135-160 | the link's state after it was brought up, or not |
| MasterLink.Master.SendRequest | firmware/CM7/Core/Src/openamp_fs.c:685-772 | the polling wait: no room for the reply, no link, no service, send error, timeout, wrong reply or the reply's own status |
| MasterLink.LateIff | firmware/CM7/Core/Src/openamp_fs.c:743-751 | a tick read e ms after the start, for any start and any e below 2^32, is late if and only if e exceeds the timeout |
| MasterLink.GivesUpIff | firmware/CM7/Core/Src/openamp_fs.c:743-762 | the wait is given up if and only if some round reads the clock more than the timeout after the start, through any wrap, and no round before it brought a reply |
| MasterLink.InTimeIsAnswered | firmware/CM7/Core/Src/openamp_fs.c:743-762 | so a wait is never given up in a round at most the timeout after the start: a reply that comes in such a round, after rounds that all were, is taken |
| MasterLink.AnswersMatch | firmware/CM7/Core/Src/openamp_fs.c:765-771 | when every message answers the request the wait never ends with -5 |
| MasterLink.WaitIsRun | firmware/CM7/Core/Src/openamp_fs.c:734-763 | the polling loop is a run of both cores: its outcomes are a reply taken from the slot or a wait given up, with the slot filled exactly if the late round brought the reply |
| MasterLink.LockstepOnlyAnswers | firmware/CM7/Core/Src/openamp_fs.c:743-771 | in lockstep every message the polls meet answers the request |
| MasterLink.RequestInLockstep | firmware/CM7/Core/Src/openamp_fs.c:685-772 | so a request made in lockstep never returns -5: it ends with a reply that answers it, or is given up, harmlessly if and only if the late round itself brought the reply |
| Crc.CalculateCrc | firmware/CM4/Library/ads131m08/ads131m08.c:710-766 | the two loops compute the bitwise CRC from the initial value |
| Crc.CheckValue | firmware/CM4/Library/ads131m08/ads131m08.c:710-766 | of the nine octets "123456789", from 0xFFFF, it is 0x29B1 |
| Crc.CrcContinues | firmware/CM4/Library/ads131m08/ads131m08.c:710-766 | a message can be split anywhere, the first CRC being the initial value for the rest |
| Crc.OwnCrcIsZero | firmware/CM4/Library/ads131m08/ads131m08.c:710-766 | a message with its own CRC appended, high byte first, has CRC zero |
| Crc.BurstsAreDetected | firmware/CM4/Library/ads131m08/ads131m08.c:710-766 | two equal-length messages that differ only within 16 consecutive bits have different CRCs |
| Crc.SeventeenBitsEscape | firmware/CM4/Library/ads131m08/ads131m08.c:725-729 | sixteen is the limit: two different messages of equal length that agree outside 17 consecutive bits, at any offset, have the same CRC if and only if their difference there is the generator |
| Crc.EscapeExists | firmware/CM4/Library/ads131m08/ads131m08.c:725-729 | such messages exist |
| Calibration.ExactWindow | firmware/CM4/Library/ads131m08/daq_engine.c:890-920 | a frame counts exactly when processed 5000 to 15000 ms after the start, through any wrap of the tick counter |
| Calibration.WindowIsAveraged | firmware/CM4/Library/ads131m08/daq_engine.c:900-930 | over a whole calibration exactly the samples of that window are summed |
| Calibration.SumsFit | firmware/CM4/Library/ads131m08/daq_engine.c:915-929 | the 64-bit sums cannot overflow for any 32-bit count |
| Calibration.MeanBetween | firmware/CM4/Library/ads131m08/daq_engine.c:477-481 | the truncated mean lies between the smallest and the largest reading |
| Calibration.MeanOffsetIsMean | firmware/CM4/Library/ads131m08/daq_engine.c:477-481 | its cast to 32 bits loses nothing |
| Calibration.DivisionTruncates | firmware/CM4/Library/ads131m08/daq_engine.c:477-481 | the quotient is the one whose remainder is smaller than the divisor and never of the other sign than the sum |
| Calibration.CalibrationWords | firmware/CM4/Library/ads131m08/ads131m08.c:365-431 | the two register words read back as the 24-bit clamp of the value |
| CalibrationStore.ComputeChecksum | firmware/CM4/Library/ads131m08/daq_engine.c:863-880 | the checksum loop |
| CalibrationStore.OneBitFlipped | firmware/CM4/Library/ads131m08/daq_engine.c:863-880 | flipping bit j of offset i flips exactly bit (j + 5 * (6 - i)) mod 32 of the checksum |
| CalibrationStore.ExchangedIff | firmware/CM4/Library/ads131m08/daq_engine.c:863-880 | exchanging two neighbouring offsets of a saved record goes unnoticed if and only if they are equal or differ in every bit |
| CalibrationStore.ZeroRecord | firmware/CM4/Library/ads131m08/daq_engine.c:339-380 | the record of six zero offsets, word for word, checksum 0x0C531051 |
| CalibrationStore.Store.Load | firmware/CM4/Library/ads131m08/daq_engine.c:296-337 | offsets change only when the record passes every test |
| CalibrationStore.Store.Save | firmware/CM4/Library/ads131m08/daq_engine.c:339-380 | a successful save leaves the record of the offsets in the file |
| CalibrationStore.AcceptedIff | firmware/CM4/Library/ads131m08/daq_engine.c:320-331 | loading accepts exactly the records that saving writes |
| CalibrationStore.SavedLoads | firmware/CM4/Library/ads131m08/daq_engine.c:296-380 | what a save wrote loads back as the same offsets |
| CalibrationStore.OneWordChangedIsRejected | firmware/CM4/Library/ads131m08/daq_engine.c:863-880 | a record that differs from a saved one in exactly one word is rejected |
| Listing.LineFits | firmware/CM4/Library/emmc_fs/emmc_fs.c:1001-1016 | the 16-byte margin is enough for any line |
| Listing.PrintLine | firmware/CM4/Library/emmc_fs/emmc_fs.c:1010-1016 | one line is written behind the others, complete and in bounds |
| Listing.ListFiles | firmware/CM4/Library/emmc_fs/emmc_fs.c:943-1033 | every outcome of the printer; on success all lines, none cut |
| Listing.Entries | firmware/BoardInterfaceLibrary/board_interface/models.py:132-150 | the parsing loop |
| Listing.ListingRoundTrip | firmware/BoardInterfaceLibrary/board_interface/models.py:132-150 | for printable ASCII names reading a printed listing gives back every file and size, in order |
| NetworkIdentity.MixerIsBijection | firmware/CM7/Core/Inc/aems_network_config.h:43-51 | the 32-bit mixer has an inverse |
| NetworkIdentity.SeedMixed | firmware/CM7/Core/Inc/aems_network_config.h:43-97 | the mixer applied to the seed is 0x6D6A4BB2 |
| NetworkIdentity.HashInjectiveInEachWord | firmware/CM7/Core/Inc/aems_network_config.h:93-100 | before truncation the hash separates ids that differ in one word |
| NetworkIdentity.EveryHashOccurs | firmware/CM7/Core/Inc/aems_network_config.h:93-100 | with two words fixed every hash value occurs |
| NetworkIdentity.WordsEnterInOrder | firmware/CM7/Core/Inc/aems_network_config.h:93-100 | the words enter first to last: with a second word of 0 the hash is that of the third word alone if and only if the first word is the seed |
| NetworkIdentity.GetMac | firmware/CM7/Core/Inc/aems_network_config.h:93-108 | the address is the prefix and the low 24 bits of the hash |
| NetworkIdentity.SharedAddress | firmware/CM7/Core/Inc/aems_network_config.h:102-107 | ids that differ in the third word and share an address have hashes that differ in the bits not kept |

## Left out

- HAL, GPIO, clock, SPI, SDMMC and interrupt-controller set-up, FatFs, OpenAMP and RPMsg internals: they enter only through the assumptions above.
- Masking the data-ready interrupt during file writes: the model lets it fire at any time, which covers the masked runs.
- Word lengths other than 24 bits and frames other than 30 bytes; a missing SPI handle.
- `last_sample`, the mount and device diagnostics in replies, and the status operation: copies of state with nothing to prove.
- The register map and the device set-up of the ADC driver, apart from the two offset words of a channel.
- Board.EveryRun: counters are unbounded numbers; the 32-bit wrap of the sample, drop and pending counters is not modelled.
- Capture.ParseKeeps: the parse is one read of the whole slot; a parse torn between two contents is covered only by the window, within which the contents do not change.
- Storage.ServiceWriteKeeps: a real failed write may leave a prefix of the block in the file.
- BoardTheorems.WindsUpInNinePasses: covers runs in which no start and no calibration is handled meanwhile; the other runs are FinalizingEndsIff and OvertakenRunExists.
- DaqEngine.Engine.RunOffsetCalibration: the clock readings of its loop are a parameter that passes the guard in the end; storing the record is CalibrationStore, not part of this run.
- TwoCoreTheorems.BlocksArriveInOrder: runs in which no wait is given up before its reply is in the slot; file operations of the other core are one step that writes any bytes to the shared buffer.
- MasterLink.Master.SendRequest: the contents of the request message beyond its operation are not modelled; bringing the link up waits for the other core's service without a limit, and is taken to end.
- Demux.ChunkingIsIrrelevant: the set of awaited control packets changes only between pieces, and only the stop command is ever added to it.
- HostSession.BoardSession.OnData: progress callbacks, clocks, locks and the field layout of fixed packets are not modelled; packets are passed on as bytes.
- BlockSizes.BoundedStreamIsServedIff: the retries and the giving up of the network core's reader, and the time between its requests, are not modelled.
- TestStream.WholeChunksFail: that reads are whole chunks is a hypothesis, since the lengths come from the TCP client.
- HostTheorems.DirectoryEndToEnd: of the network core's sending loop only the frames are modelled; in-order contiguous chunks of any sizes are covered, its 1024 bytes among them.
- Listing.Entries: the text is ASCII; UTF-8 decoding of other bytes is not modelled. A carriage return followed by a line feed counts as two breaks, which gives the same entries.
- CalibrationStore.Store.Load: the file is a sequence of 32-bit words; a length that is no multiple of four is not modelled.
- Conversion to volts and amperes, rounding and CSV writing; sockets, threads, the daemon, database, schedules and user interfaces.
- The CM7 TCP client: its source is not part of this model.
