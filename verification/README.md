# Embroidery controller: a verified model

This project models the stateful core of an ESP32 port of grblHAL with embroidery additions, and proves what that
core keeps over whole runs. The source is C and one Go program. Each group of modules stands for one of its parts.

* **Line transfer over SPI** (`SpiTypes`, `SpiMaster`, `SpiSlave`, `SpiLink`, `SpiTheorems`, `SpiFailures`). A
  full-duplex stop-and-wait protocol between two processors whose acknowledgements lag by one transfer. The transition
  system interleaves single queue operations of the slave task and its consumer with transfers that may fail on either
  side.
* **I2S step streaming** (`I2sStream`, `I2sFill`, `PassRing`, `Pulser`). The chunked generator is proved against an
  unbuffered stream; the descriptor ring of single pulses against a DMA that follows `next`; the mode changes under
  every interleaving of interrupt, task and callers.
* **Input shaper** (`ShaperSteps`, `ShaperMerge`, `Shaper`). A move becomes time-stamped steps, per-axis shaped
  streams, a sorted stream and packed wait commands.
* **CRC-32** (`Folding`, `Crc`). The nibble table against the bit-serial register of the polynomial of section 8 of
  RFC 1952, without that section's complement before and after.
* **Bluetooth transmission** (`BtTx`). Writer, polling task and stack events as interleaved steps.
* **Trinamic daisy chain** (`TmcChain`). The chain as a shift register of five bytes per device.
* **Serial receive ring** (`UartRing`). Interrupt handler and reader as interleaved single accesses.
* **Spindle controller** (`Adrc`). The observer and control law over real numbers.

Entities that the source updates in place are classes; each method is tied to a function on values, and the theorems
are about runs of those functions.

## Results that differ from what the source promises

* A keep-alive turn comes after `nextLine` has already been called, so it always loses a line of the source
  (`SpiTheorems.KeepAliveWastesALine`). Accepted lines are a contiguous piece of the source exactly if no such turn
  occurred (`SpiTheorems.SourcePrefixIffNoKeepAliveFetch`).
* The SPI protocol relies on the master side of keep-alives succeeding, and on flushes reaching both sides or being
  asked for again. `SpiLink.LinkOk` says so precisely. What happens otherwise is in `StrandedForever`, `MissedFlush`,
  `MissedFlushLosesALine` and `ForgottenFlushIff`: in particular a flush that fails while the master retransmits makes
  it flush the slave again and again, unasked (`StaleFlushTurn`). `SpiFailures` has a run from the start into each of
  these. The buffer pool needs none of the assumptions, and a flush that both sides complete repairs everything
  (`FlushRecovers`).
* As long as there is no flush the slave's `last_completed_id` is that of a packet the consumer was given
  (`SpiTheorems.CompletedWasTaken`). A flush leaves the consumer what it holds, and returning that afterwards reports
  an id of the old epoch
  (`SpiFailures.StaleCompletion`).
* The passthrough ring plays every pulse whole as long as each commit finds room (`PassRing.RingIsAQueue`), which it
  always does if no tick comes before the last pulse has ended (`PassRing.SpacedPulsesAreWhole`). Ticks that come
  earlier build up a backlog, and sooner or later pulses are lost (`PassRing.StreamFitsIff`). The shortest period allows
  that: step pulses of 14 microseconds take four samples, and the shortest period of 16 is four samples, too
  (main/driver.c:2817 and 2831-2837; `PassRing.BurstLosesPulses`).
* A drain of the DMA ring that begins with all five descriptors linked and every completion handled takes a sixth
  completion; any other one ends within five (`Pulser.FiveTurnsIff`, `Pulser.SixthCompletionNeeded`).
* A move keeps all its steps unless two neighbouring ones share a tick (`Shaper.CompileMove`), for which some vector
  step must be faster than 160 m/s (`ShaperSteps.EveryStepTakesATickIff`): no move up to 31 kilometres has one
  (`ShaperSteps.SlowMoves`), but longer ones can (`Shaper.FastMoveLosesSteps`).
* The wait of a block is exact up to 3 * MaxUint32 + 1 ticks and too short beyond (`ShaperMerge.BlockDuration`): never
  in a move of up to a metre and a half (`Shaper.ShortMoveFits`), but in a slow one of 40 metres
  (`Shaper.LongMoveFallsShort`).
* A Bluetooth chunk that did not fit stays with the polling task until something else is queued
  (`BtTx.HeldChunkWaits`, `BtTx.ChunkIsLeftBehind`), and is sent at the start of the next session if the present one
  ends (`BtTx.LeftoverIsWrittenFirst`).
* Of what is queued when a session ends nothing is sent later (`BtTx.SessionsAreSeparate`). What the polling task and
  the writer have in hand is, if the next session comes.
* A session that is opened between the store of a line feed and the allocation of its chunk makes the writer queue an
  empty chunk (`BtTx.OpenEmptiesALine`).
* `serialCancel` is not protected against the other side. If the interrupt handler cancels during a read, the
  cancelled bytes come back (`UartRing.CancelTakesEffectIff`). If a task cancels while the handler has a byte under
  way, `UartRing.TaskCancelReads` says what is read first for every interleaving; `UartRing.InterleavedCancelIff` says
  when it is CAN, for any number of bytes.
* The spindle estimate leaves the range of start, targets and measured speeds only on a tick whose command was clamped,
  as long as the target stays in one zone (`Adrc.CommandInForceDecides`). A change of zone can take it out of the range
  without any clamping, between any two zones (`Adrc.ZoneChangeLeavesTheHull`); `Adrc.RunWithin` holds always and says
  by how much.

## Model

| member | source | states |
|---|---|---|
| SpiMaster.SpiMasterTask.PrepareTransfer | main/rahman/spi/spi_m.c:50-73 | what goes on the wire: a flush, the packet of the counter with the next or the same line, or a keep-alive, and how the fetch cursor moves |
| SpiMaster.SpiMasterTask.FinishTransfer | main/rahman/spi/spi_m.c:55-92 | how the outcome and the sampled reply change counter, free slots and fetch flag; a failed transfer changes only the fetch flag |
| SpiMaster.SpiMasterTask.constructor | main/rahman/spi/spi_m.c:36-47 | the initial locals |
| SpiSlave.SpiSlaveTask.constructor | main/rahman/spi/spi_s.c:78-84 | all twelve buffers start in the free queue |
| SpiSlave.SpiSlaveTask.SampleReply | main/rahman/spi/spi_s.c:89-92 | the reply is sampled before the packet that it answers |
| SpiSlave.SpiSlaveTask.AcquireBuffer | main/rahman/spi/spi_s.c:94-97 | the receive buffer is the head of the free queue |
| SpiSlave.SpiSlaveTask.CompleteTransfer | main/rahman/spi/spi_s.c:106-121 | a packet is queued exactly if its id is the next one and there is room; a flush starts a drain; every other buffer goes back |
| SpiSlave.SpiSlaveTask.FlushWorkQueue | main/rahman/spi/spi_s.c:26-33 | the drain loop returns the queued buffers in order, then the flush packet's own, loses none and resets both ids |
| SpiSlave.SpiSlaveTask.ReceiveCommand | main/rahman/spi/spi_s.c:38-43 | the consumer gets the oldest queued packet, or nothing when the queue is empty |
| SpiSlave.SpiSlaveTask.AcknowledgeDone | main/rahman/spi/spi_s.c:49-54 | the id is recorded and the buffer is free again |
| SpiSlave.PartitionCounts | main/rahman/spi/spi_s.c:10-17 | a pool in which each buffer is in exactly one place adds up to its size |
| SpiSlave.InFlightIsPrivate | main/rahman/spi/spi_s.c:94-104 | the buffer of the transfer in progress is in no queue and not with the consumer |
| SpiLink.Exchange | main/rahman/spi/spi_m.c:50-92 | the two tasks, run together, take the transfer step of the transition system |
| SpiLink.ReturnsFindRoom | main/rahman/spi/spi_s.c:29-29 | no return to the free queue finds it full |
| SpiLink.CompleteKeepsPool | main/rahman/spi/spi_s.c:106-121 | completing a transfer keeps every buffer in exactly one place |
| SpiLink.DoneKeepsPool | main/rahman/spi/spi_s.c:49-54 | so does the consumer's return, also in the middle of a flush |
| SpiLink.TransferKeepsFlow | main/rahman/spi/spi_s.c:106-121 | writing the received packet leaves every queued packet and its place in the order alone |
| SpiLink.Composed | main/rahman/spi/spi_m.c:62-73 | a turn sends packet `expected_ack` with the line of its own fetch, or a keep-alive, the latter only on a turn that fetched |
| SpiLink.PacketKeepsSync | main/rahman/spi/spi_m.c:75-92 | a packet transfer that fails on either side, both or neither keeps the two counters within one of each other and the reported room a lower bound |
| SpiLink.KeepAliveKeepsSync | main/rahman/spi/spi_m.c:70-82 | so does a keep-alive turn, whatever happens at the slave |
| SpiLink.StepInv | main/rahman/spi/spi_m.c:49-93 | every step of either processor and of the consumer keeps the whole invariant |
| SpiTheorems.ExactlyOnceInOrder | main/rahman/spi/spi_s.c:89-121 | in every run: accepted ids are 1..`last_received_id`, which is `expected_ack` or one less; packet i carries the line of its own fetch; the consumer has a prefix and the work queue holds the rest |
| SpiTheorems.SourcePrefixIffNoKeepAliveFetch | main/rahman/spi/spi_m.c:62-73 | the accepted lines are a contiguous piece of the source if and only if no fetch among them fell on a keep-alive turn |
| SpiTheorems.KeepAliveWastesALine | main/rahman/spi/spi_m.c:70-73 | a turn reads a line without ever sending it exactly when it is a keep-alive turn |
| SpiTheorems.NeverStrandsAPacket | main/rahman/spi/spi_m.c:66-73 | in every run a retransmitting master still holds type 1 and its own id and cannot fall into the keep-alive branch, and the slave has room for the packet it waits for |
| SpiTheorems.FirstTransmissionIsNeverAcknowledged | main/rahman/spi/spi_m.c:84-89 | the reply to a first transmission never acknowledges it, so every packet is sent at least twice |
| SpiTheorems.PacketAdvancesOneSide | main/rahman/spi/spi_m.c:84-89 | an error-free packet is either acknowledged or accepted |
| SpiTheorems.TwoTransfersAdvance | main/rahman/spi/spi_m.c:75-92 | with room reported, two error-free transfers advance `expected_ack`, whatever slave and consumer do in between |
| SpiTheorems.KeepAliveNoticesRoom | main/rahman/spi/spi_m.c:77-82 | a keep-alive turn takes over the reported room and nothing else |
| SpiTheorems.PoolStaysPartitioned | main/rahman/spi/spi_s.c:94-121 | in every run with any link failures the twelve buffers are split without repetition between free queue, work queue, transfer and consumer, and the slave finds a buffer if the consumer holds at most one |
| SpiTheorems.TransferWritesAPrivateBuffer | main/rahman/spi/spi_s.c:99-104 | in every run with any link failures no transfer overwrites a packet that is queued or with the consumer |
| SpiTheorems.DrainRunsToCompletion | main/rahman/spi/spi_s.c:26-33 | the single queue operations of a flush, uninterrupted, amount to one step that returns all buffers in order |
| SpiTheorems.StrandedIffKeepAliveFailed | main/rahman/spi/spi_m.c:70-92 | the master waits for an acknowledgement with a keep-alive in hand exactly when the master side of a keep-alive failed |
| SpiTheorems.StrandedForever | main/rahman/spi/spi_m.c:64-73 | from there nothing is accepted any more until a flush |
| SpiTheorems.OutOfStepForever | main/rahman/spi/spi_m.c:84-89 | once the counters differ by more than the window, nothing is accepted or acknowledged until a flush |
| SpiTheorems.MissedFlush | main/rahman/spi/spi_m.c:55-58 | a flush that only the master saw keeps the invariant if and only if the slave had accepted nothing; after two packets the protocol stands still |
| SpiTheorems.MissedFlushLosesALine | main/rahman/spi/spi_m.c:84-86 | after one packet the first line of the new epoch is acknowledged unseen |
| SpiTheorems.ForgottenFlushIff | main/rahman/spi/spi_m.c:50-60 | a flush that failed at the master may be forgotten if and only if the master was not retransmitting and, should it have reached the slave, nothing had been acknowledged |
| SpiTheorems.FailedFlushLeavesItsType | main/rahman/spi/spi_m.c:51-66 | a retransmitting master goes on with the type of the flush that failed |
| SpiTheorems.StaleFlushTurn | main/rahman/spi/spi_m.c:66-92 | every turn of such a master that reaches the slave flushes it, until a reply sampled earlier acknowledges the packet |
| SpiTheorems.ForgottenFlush | main/rahman/spi/spi_m.c:50-60 | when such a flush reached the slave and a packet had been acknowledged, the two sides are out of step after the drain |
| SpiTheorems.FlushRecovers | main/rahman/spi/spi_m.c:50-60 | after any run with any failures, a flush that both sides complete restores the whole invariant |
| SpiTheorems.SampledReply | main/rahman/spi/spi_s.c:89-92 | a reply tells the free places of the work queue exactly as they are at that moment, and the two ids |
| SpiTheorems.DrainIsHonest | main/rahman/spi/spi_s.c:26-33 | the end of a drain begins an epoch with nothing given and nothing reported, if and only if the consumer holds no packet of the last one |
| SpiTheorems.CompletedWasTaken | main/rahman/spi/spi_s.c:38-54 | over runs without a flush the id reported as completed never exceeds the packets the consumer was given, and is exactly the number it has returned if it returns them in turn |
| SpiFailures.Fill | main/rahman/spi/spi_m.c:62-92 | error-free transfers to an idle consumer reach every filling of the work queue up to ten |
| SpiFailures.LineElevenIsLost | main/rahman/spi/spi_m.c:62-73 | a run from the start, without any failure, after which packet 11 carries line 12 and line 11 was never sent |
| SpiFailures.MasterGetsStranded | main/rahman/spi/spi_m.c:70-92 | a run from the start after which a failing keep-alive strands the master |
| SpiFailures.MissedFlushLosesLineTwo | main/rahman/spi/spi_m.c:55-58 | a run from the start after which a flush missed by the slave makes line 2 acknowledged and never accepted |
| SpiFailures.MissedFlushStopsTheLink | main/rahman/spi/spi_m.c:55-58 | a run from the start after which such a flush stops the link |
| SpiFailures.ForgottenFlushStopsTheLink | main/rahman/spi/spi_m.c:50-60 | a run from the start after which a flush missed by the master and not repeated stops the link |
| SpiFailures.StaleFlushDiscardsAPacket | main/rahman/spi/spi_m.c:66-92 | a run from the start after which an ordinary turn flushes the slave: an accepted packet is acknowledged and discarded |
| SpiFailures.StaleCompletion | main/rahman/spi/spi_s.c:26-54 | a run from the start with a complete flush, after which an id of the old epoch is reported as completed in the new one |
| I2sStream.NoStepBetween | main/driver.c:921-925 | step bits are on only inside a pulse |
| I2sStream.DirIsTheLastChange | main/driver.c:914-916 | the direction in force is that of the last change at or before a call |
| I2sStream.PulseShows | main/driver.c:912-926 | a callback with a step pushes the delay samples if the direction changed, with the new direction and no step bit, then the pulse samples with exactly its step bits; one without pushes nothing |
| I2sStream.NextCall | main/i2s_out_s3.c:536-540 | the next call comes the period later, or a sample behind the pulse if the period is shorter, and the pulse always fits in between |
| I2sStream.EverySample | main/driver.c:912-926 | what the stream shows at every sample between two calls |
| I2sStream.StepIsShown | main/driver.c:921-925 | the step of a call is on from the delay after sample floor(T_n / 4), for all its samples, with exactly its step bits and the direction of the last change |
| I2sStream.StepBitsIff | main/driver.c:921-925 | a sample of the stream has a step bit if and only if it lies in the step of some call |
| I2sStream.CallAdvancesTime | main/i2s_out_s3.c:519-540 | a callback advances exact time by its effective period and leaves the remainder below a sample |
| I2sStream.TurnIsGood | main/i2s_out_s3.c:516-567 | every turn of the fill loop keeps the output a piece of the unbuffered stream and every callback at sample floor(T_n / 4), T_n the sum of the earlier effective periods: rounding never accumulates |
| I2sStream.DeadTickStandsStill | main/i2s_out_s3.c:534-540 | a callback leaves the generator where it was exactly if it pushes nothing and asks for less than a sample's time |
| I2sFill.SampleCount | main/driver.c:2823-2837 | delay and pulse lengths become whole samples, rounded up, and exactly one or the limit at the two clamps |
| I2sFill.PeriodOfCycles | main/driver.c:905-908 | the period is the requested cycles in whole microseconds, with the shortest period and the 18-bit limit in their place outside |
| I2sFill.EverySpeedTakesTime | main/driver.c:905-908 | every requested speed asks for some time exactly if the shortest period is at least a microsecond |
| I2sFill.TMinIs | main/driver.c:2817-2817 | the shortest period is pulse and pause in whole cycles, rounded up |
| I2sFill.PeriodExceedsThePulse | main/driver.c:905-908 | every requested period is more than a microsecond longer than the pulse |
| I2sFill.SettingsAreLive | main/driver.c:2817-2821 | which it is for every timer and every pulse length, so that no callback can make the fill loop stand still |
| I2sFill.Generator.PushSample | main/i2s_out_s3.c:752-765 | at least one sample is pushed, none if more than the margin is asked for |
| I2sFill.Generator.PulseStart | main/driver.c:912-926 | pushes the samples of one callback, whose bits `I2sStream.PulseShows` gives, and never writes behind the buffer |
| I2sFill.Generator.CallbackTurn | main/i2s_out_s3.c:519-557 | the callback branch of the fill loop, with the remainder it leaves |
| I2sFill.Generator.HoldSample | main/i2s_out_s3.c:560-566 | the holding branch of the fill loop |
| I2sFill.Generator.FillTurn | main/i2s_out_s3.c:516-567 | one turn of the fill loop is the turn of the unbuffered generator |
| I2sFill.Generator.FillBuffer | main/i2s_out_s3.c:497-570 | the fill terminates within the buffer for every live callback and settings value, and what it wrote continues the unbuffered stream |
| I2sFill.Generator.StepGen | main/i2s_out_s3.c:576-621 | buffers are generated and callbacks made only while stepping |
| I2sFill.BuffersContinueTheStream | main/i2s_out_s3.c:497-570 | the buffers put end to end are a piece of the unbuffered stream and callback i was made at its sample |
| PassRing.ReachesIdle | main/i2s_out_s3.c:338-349 | a DMA that follows `next` reaches the idle descriptor after the distance to it and stays |
| PassRing.CommitKeepsRing | main/i2s_out_s3.c:710-743 | after a commit of any length the ring is a 12-cycle but for the idle self-loop, and says where the idle descriptor is |
| PassRing.CommittedData | main/i2s_out_s3.c:718-733 | the sample that each descriptor behind the old idle one holds after a commit |
| PassRing.CommitPlays | main/i2s_out_s3.c:710-743 | a DMA plays out what it had, then exactly `delay` masked samples, `pulse` samples with step bits and the masked port forever, as long as pending and new samples together are at most ten |
| PassRing.CommitPlaysBits | main/i2s_out_s3.c:718-733 | in bits: behind what was pending the step bits are off for `delay` samples and from the end of the pulse on, with the other outputs those of the port, and the port itself is played in between |
| PassRing.TickPlaysItsSteps | main/driver.c:1683-1707 | a tick that sets the step outputs shows exactly its steps under the mask for the length of the pulse, none before and after, and the port on all other outputs throughout |
| PassRing.CommitOverruns | main/i2s_out_s3.c:710-743 | beyond that, what exactly the DMA plays: the pending samples and the beginning of the new ones are lost |
| PassRing.RingIsAQueue | main/i2s_out_s3.c:710-743 | for any number of commits that find room, which lengths and gaps alone decide, the DMA plays what a queue that holds its last sample would play: every sample, in order |
| PassRing.SpacedPulsesAreWhole | main/i2s_out_s3.c:710-743 | ticks that leave every pulse the time to end are played at once and whole, with nothing ever pending |
| PassRing.StreamFitsIff | main/i2s_out_s3.c:710-743 | an endless stream of equal pulses at equal distances finds room if and only if the next pulse never comes before the last one has ended |
| PassRing.BurstLosesPulses | main/driver.c:1683-1707 | four-sample pulses every four samples: from any ring that idles, the eighth is lost whole with the seven samples pending |
| PassRing.LongCommitIsLost | main/i2s_out_s3.c:718-738 | from eleven samples on an idling DMA plays none of the pulse |
| PassRing.PassThrough.constructor | main/i2s_out_s3.c:336-350 | the initial ring |
| PassRing.PassThrough.Commit | main/i2s_out_s3.c:710-743 | the code performs the commit of the model on its descriptors and leaves the port with all step bits off and the others as they were |
| PassRing.PassThrough.PulseStart | main/driver.c:1683-1707 | one tick makes the commits that the changed bits ask for, the direction delay once, and leaves the new direction in the port with all step bits off |
| Pulser.StepWellFormed | main/i2s_out_s3.c:417-495 | no event leaves a link or a queue entry outside the five descriptors |
| Pulser.CompletionReports | main/i2s_out_s3.c:417-495 | a completion queues the descriptor that was played, dropping the oldest report if the queue is full, and the DMA follows the link; at the end of the chain the drain is over |
| Pulser.CallbackCutsItsDescriptor | main/i2s_out_s3.c:519-557 | a callback that ends stepping cuts exactly the descriptor that is being filled, any other cuts nothing |
| Pulser.SteppingBeginsAfresh | main/i2s_out_s3.c:790-814 | stepping begins at the first descriptor of a whole ring, with the reports that are still queued |
| Pulser.ResetEndsTheDrain | main/i2s_out_s3.c:826-840 | a reset ends a drain in passthrough mode, relinks all five descriptors while stepping and changes nothing in passthrough mode |
| Pulser.DrainIsSafe | main/i2s_out_s3.c:778-840 | after stepping has ended no pulse callback is made before the next switch to stepping |
| Pulser.WaitingEndsInPassthrough | main/i2s_out_s3.c:597-618 | a drain can end in passthrough mode only |
| Pulser.DrainIsBounded | main/i2s_out_s3.c:597-612 | under every interleaving of completions and task, one more handled completion than there are uncut descriptors ends a drain |
| Pulser.CutAhead | main/i2s_out_s3.c:428-432 | a drain ends when the DMA comes to a cut descriptor: `j` links ahead, within `j + 1` completions handled in time |
| Pulser.LinkedTurnsEndTheDrain | main/i2s_out_s3.c:597-612 | one more completion than there are linked descriptors, each handled before the next, ends a drain |
| Pulser.FiveTurnsIff | main/i2s_out_s3.c:597-612 | in every reachable state five completions handled in time end a drain if and only if a descriptor was already cut or a completion was unhandled when it began |
| Pulser.SixthCompletionNeeded | main/i2s_out_s3.c:778-788 | a reachable drain that takes the sixth completion |
| Pulser.PulserTask.StartMode | main/i2s_out_s3.c:352-386 | a change of mode, with the ring relinked when stepping begins |
| Pulser.PulserTask.Interrupt | main/i2s_out_s3.c:417-495 | the completion interrupt: the oldest event makes room for the newest, the end of the chain ends the drain |
| Pulser.PulserTask.HandleEvent | main/i2s_out_s3.c:576-621 | one turn of the generator task in each of the three modes |
| Pulser.PulserTask.RequestPassthrough | main/i2s_out_s3.c:778-788 | stepping becomes waiting, other modes stay |
| Pulser.PulserTask.RequestStepping | main/i2s_out_s3.c:790-814 | the switch to stepping once no drain is in progress |
| Pulser.PulserTask.ResetOutput | main/i2s_out_s3.c:826-840 | a reset relinks the ring while stepping and ends a drain |
| ShaperSteps.EmittedIsFloor | main.go:115-126 | after s vector steps an axis has emitted exactly floor(s * ratio) steps |
| ShaperSteps.EndsWithinTwoSteps | main.go:70-73 | a move ends less than two steps short of, and never beyond, the commanded distance of an axis |
| ShaperSteps.PlanBound | main.go:70-86 | how target speed and distance bound the velocity plan, for any target speed |
| ShaperSteps.PlanIs | main.go:70-87 | the plan in terms of distance and speed: the ramps end at the target speed if twice their length fits, and otherwise meet in the middle at the speed reached there |
| ShaperSteps.RampStepsAre | main.go:79-80 | the length of a ramp from the square of the target speed |
| ShaperSteps.MotionLaw | main.go:94-109 | the velocity of every vector step: v * v is 16 + 16 s up the one ramp and 16 + 16 (100 total - s) down the other, and the speed of the plan, at least 4 mm/s, in between |
| ShaperSteps.TargetIsTheLimit | main.go:94-109 | no step is faster than the target speed but for one step's acceleration, and none slower than 4 mm/s |
| ShaperSteps.StepTicksAre | main.go:111-113 | a step at velocity v takes the integer n with n <= 160000 / v < n + 1 |
| ShaperSteps.EmitsIff | main.go:115-126 | an axis steps exactly in the vector steps in which floor(s * ratio) grows |
| ShaperSteps.ClockAdvances | main.go:128-130 | the tick counter advances by the time of a step at its velocity when some axis steps, and stands still otherwise |
| ShaperSteps.TickOfStep | main.go:128-139 | the tick of every step an axis emits is that of the counter after its vector step |
| ShaperSteps.EveryStepTakesATickIff | main.go:94-113 | every vector step takes a tick if and only if neither the peak of the ramps nor the velocity between them is above 160 m/s |
| ShaperSteps.SlowMoves | main.go:79-85 | so it is for target speeds up to 159.999 m/s, and at any target speed for moves up to 31 kilometres |
| ShaperSteps.RawTicksOrdered | main.go:128-139 | the ticks of an axis never fall, and there is one for each step it emits |
| ShaperSteps.RawTicksRise | main.go:128-139 | they rise if every vector step takes a tick |
| ShaperSteps.TicksAtLeastOne | main.go:111-113 | a step takes at least a tick exactly for velocities up to 160000 mm/s |
| ShaperSteps.DiagonalDominates | main.go:70-72 | no axis travels further than the diagonal |
| ShaperMerge.ShapingKeepsRising | main.go:162-192 | both scaling branches and the switch between them keep the ticks of an axis strictly increasing |
| ShaperMerge.DelaysAre | main.go:155-158 | the delays of the two axes in ticks |
| ShaperMerge.Wavefronts | main.go:164-176 | the shaped tick of each wavefront and where the second one begins, by inequalities over integers |
| ShaperMerge.PulsesAreDistinctTicks | main.go:207-230 | each axis is pulsed exactly once for every distinct tick on which it steps |
| ShaperMerge.DirectionsThroughout | main.go:217-229 | every command carries the direction bits of the move |
| ShaperMerge.BlockOfTick | main.go:207-230 | the commands of a tick, in order: the guard if the gap is too wide, the step bits of exactly the axes that step on that tick, then none for as long again |
| ShaperMerge.StepsConservedIff | main.go:144-233 | whatever order the sort leaves equal ticks in, an axis gets one pulse per raw step exactly if its shaped ticks are distinct, and never more |
| ShaperMerge.ShapedDistinctIff | main.go:162-192 | of ticks that never fall, shaping merges exactly neighbours on one tick and in one wavefront |
| ShaperMerge.SeparatedStepsConserved | main.go:144-233 | so an axis keeps all its pulses exactly if it has no such neighbours |
| ShaperMerge.HalfWaitExact | main.go:227-229 | when the 32-bit conversion of half a delta is exact |
| ShaperMerge.BlockDuration | main.go:217-229 | a block never lasts longer than its delta less one tick for an odd remainder, and lasts that long if and only if the delta is at most 3 * MaxUint32 + 1 |
| ShaperMerge.PackedTiming | main.go:205-230 | replaying a stream takes its last tick less one per odd block if and only if every block is that short, and never longer |
| ShaperMerge.TimingOfEveryTick | main.go:205-230 | the same if-and-only-if up to and including the block of any tick |
| Shaper.GenerateSteps | main.go:92-141 | the generating loop gives each axis the ticks of the velocity plan, whose law `ShaperSteps.MotionLaw` and `ShaperSteps.ClockAdvances` state |
| Shaper.CalculateSteps | main.go:58-142 | the whole function: direction bits and ticks of each axis, and no step for a move without length |
| Shaper.MoveTicksFit | main.go:58-142 | an axis steps less than two steps short of its distance and never beyond; its ticks never fall, and rise if the plan is slow |
| Shaper.OneAxisTiming | main.go:94-139 | the ticks of a move along one axis: one for each vector step, each the time of a step at its velocity behind the one before |
| Shaper.ShapeLoop | main.go:165-192 | the loop over one channel shapes each tick |
| Shaper.SortByTick | main.go:195-197 | a sorted permutation |
| Shaper.MergeGroup | main.go:210-215 | the look-ahead finds exactly the steps of one tick and the union of their pins |
| Shaper.EmitBlock | main.go:220-229 | the two or three commands of one tick |
| Shaper.PackLoop | main.go:207-230 | the merge loop makes one block per distinct tick, timed by the difference to the tick before |
| Shaper.ApplyShaper | main.go:144-233 | no axis gets more pulses than raw steps, and exactly as many if and only if no neighbours of one wavefront share a tick |
| Shaper.CompileMove | main.go:40-43 | for every target and target speed: the commands are the packing of the shaped steps in order; no axis is pulsed beyond its distance; it keeps all its steps if and only if no neighbours of one wavefront share a tick; slow plans end less than two steps short; and up to a metre and a half the waits add up exactly |
| Shaper.ShortMoveFits | main.go:94-192 | every block of a move of up to a metre and a half fits its waits, at any target speed |
| Shaper.OneAxisIff | main.go:94-139 | a move along one axis keeps all its steps if and only if each of them takes a tick, but for the first and the one where the second wavefront begins |
| Shaper.FastMoveLosesSteps | main.go:79-86 | 60 kilometres at 200 m/s lose steps |
| Shaper.LongMoveFallsShort | main.go:166-176 | the waits of 40 metres at the start speed fall short, at the switch between the wavefronts |
| Crc.ClockLinear | main/littlefs/lfs_util.c:15-31 | one clock of the shift register is linear |
| Crc.FeedbackIsThePolynomial | main/littlefs/lfs_util.c:15-31 | the feedback is the polynomial given by its exponents |
| Crc.TableIsFourClocks | main/littlefs/lfs_util.c:16-21 | each table entry is what four clocks make of its index |
| Crc.LookupIsFourClocks | main/littlefs/lfs_util.c:26-27 | a table step clocks one nibble through the register |
| Crc.TableByteIsSerial | main/littlefs/lfs_util.c:26-27 | the two statements of the loop body are eight clocks |
| Crc.TableLoop | main/littlefs/lfs_util.c:25-30 | the loop folds its body over the buffer |
| Crc.LfsCrc | main/littlefs/lfs_util.c:15-31 | the table-driven function equals the bit-at-a-time register for every buffer |
| Crc.Composes | main/littlefs/lfs_util.h:216-217 | feeding two pieces in turn is feeding their concatenation |
| Crc.InjectiveInStart | main/littlefs/lfs_util.c:15-31 | two starting values never give one checksum for the same data |
| Crc.DifferenceBefore | main/littlefs/lfs_util.c:25-28 | looking backwards over one byte a difference grows by at most a byte |
| Crc.ShortBurst | main/littlefs/lfs_util.c:15-31 | contents of up to four bytes are told apart |
| Crc.BurstDetected | main/littlefs/lfs_util.c:15-31 | damage within four consecutive bytes always changes the checksum |
| BtTx.StepInv | main/bluetooth.c:485-534 | every step of writer, polling task and stack keeps order, sizes and the semaphore |
| BtTx.WriterConserves | main/bluetooth.c:171-204 | the writer's steps lose bytes only when an allocation fails, and then exactly those of the chunk |
| BtTx.PollConserves | main/bluetooth.c:485-534 | the polling task's steps lose bytes only when a write is refused |
| BtTx.StackConserves | main/bluetooth.c:331-346 | flush and reopening lose exactly what they discard |
| BtTx.SentInOrder | main/bluetooth.c:171-204 | in every run with any failures: what was sent followed by what is under way is what was written without the lost bytes, in order, none twice |
| BtTx.BytesConserved | main/bluetooth.c:485-534 | without failures and session changes, sent, merged, held, queued and buffered bytes are exactly the bytes written |
| BtTx.LinesAreHandedOn | main/bluetooth.c:189-204 | in every run with any failures: no line feed stays in the buffer of a writer that has returned, and every chunk is the end of one line or a full buffer without a line feed |
| BtTx.OpenEmptiesALine | main/bluetooth.c:360-364 | a run from the start in which a session is opened between a line feed and its allocation: an empty chunk is queued |
| BtTx.SentLater | main/bluetooth.c:331-534 | from any state on, what is sent later is a subsequence of what was under way then and what is written later |
| BtTx.QueuedIsNeverSent | main/bluetooth.c:331-346 | after a flush that is what the polling task held or had merged, what the writer had in hand, and what is written later: nothing of what was queued |
| BtTx.SessionsAreSeparate | main/bluetooth.c:387-394 | the same for every run from the start in which a session ends, whatever comes before and after |
| BtTx.UnfinishedIsNeverSent | main/bluetooth.c:360-364 | after a session has been opened nothing of an unfinished line is sent |
| BtTx.CongestedIsSentNothing | main/bluetooth.c:494-497 | while the stack is congested or no client is connected nothing is sent, whatever else happens |
| BtTx.RelievedIsServed | main/bluetooth.c:424-437 | a stack that is relieved is served again: the next turn begins at once if no write is under way, and otherwise when it completes |
| BtTx.WritesAreBoundedAndSerial | main/bluetooth.c:497-526 | a write has 1 to 255 bytes, at most one is outstanding, and the branch for chunks that exceed the buffer is never taken |
| BtTx.PutReaches | main/bluetooth.c:189-204 | a call of the writer, with any outcome of its allocations, is a run of its steps |
| BtTx.PutOutcomeReaches | main/bluetooth.c:171-204 | so is a call that has to wait, whatever the other tasks do meanwhile: it ends with the byte written or waits for a full queue |
| BtTx.PutNeedNotWait | main/bluetooth.c:189-204 | with room for all it has to send a call does not wait |
| BtTx.PassReaches | main/bluetooth.c:494-527 | so is a turn of the polling task |
| BtTx.LongestBatch | main/bluetooth.c:510-519 | the merging loop takes the longest batch of chunks that leaves the buffer short of full |
| BtTx.PassSendsLongestBatch | main/bluetooth.c:501-523 | a turn sends that batch, at least one chunk, and keeps the rest in order |
| BtTx.HeldChunkWaits | main/bluetooth.c:494-497 | with an empty queue nothing any task does, short of a new chunk, sends the chunk in hand |
| BtTx.ChunkIsLeftBehind | main/bluetooth.c:510-519 | a run from the start that leaves the second of two lines in hand with an empty queue |
| BtTx.LeftoverIsWrittenFirst | main/bluetooth.c:487-519 | a chunk in hand survives the end of a session and leads the next write |
| BtTx.BtTask.PutC | main/bluetooth.c:189-204 | the writer's new state, for every state of the queue: either the byte is written, with the buffer emptied by a line feed and when it was full, or the call still waits |
| BtTx.BtTask.Enqueue | main/bluetooth.c:171-185 | a chunk is queued when there is room, with the wait, or dropped when there is no memory |
| BtTx.BtTask.AwaitRoom | main/bluetooth.c:178-178 | the wait goes on exactly until there is room |
| BtTx.BtTask.MergeChunks | main/bluetooth.c:510-519 | the merging loop against its recursive definition |
| BtTx.BtTask.PollTx | main/bluetooth.c:494-527 | a turn of the polling task, including the refused write that gives the semaphore back |
| BtTx.BtTask.WriteDone | main/bluetooth.c:433-437 | a completed write frees the semaphore |
| BtTx.BtTask.Closed | main/bluetooth.c:387-403 | a closed session empties the queue, accounts for its bytes as lost, and leaves the chunk in hand and the buffer of the writer as they are |
| BtTx.BtTask.Opened | main/bluetooth.c:360-364 | a new session empties the writer's buffer and leaves queue and chunk in hand as they are |
| TmcChain.ChainPart | main/tmc_spi.c:64-70 | with the frames sent last device first, the part of the chain of device i holds the frame meant for it |
| TmcChain.NextFrame | main/tmc_spi.c:78-93 | one turn of a countdown loop puts in the frame of a device and takes out the reply of the same device |
| TmcChain.FiveBytes | main/tmc_spi.c:65-69 | the same byte by byte, in the order in which they come out |
| TmcChain.OneWrite | main/tmc_spi.c:109-110 | when every other stored datagram is a read, only the addressed device changes a register, to the payload in wire order |
| TmcChain.TmcBus.Deselect | main/tmc_spi.c:73-73 | releasing chip select latches the frame of every device |
| TmcChain.TmcBus.PutFrame | main/tmc_spi.c:115-119 | five bytes in, the reply of the device out |
| TmcChain.TmcBus.SendDatagrams | main/tmc_spi.c:114-126 | the countdown loop sends every stored datagram to its device and clears the one just sent |
| TmcChain.TmcBus.Write | main/tmc_spi.c:102-133 | a write reaches device `seq` alone, for any number of motors, and leaves no stored datagram with its write bit set |
| TmcChain.TmcBus.ReadPass | main/tmc_spi.c:77-95 | one pass returns what the device had put into its part of the chain |
| TmcChain.TmcBus.Read | main/tmc_spi.c:52-100 | a read returns the requested register of device `seq` in the right byte order and changes no register |
| TmcChain.TmcBus.WriteThenRead | main/tmc_spi.c:52-133 | a value written is read back from its device, and another device still has its own |
| UartRing.PublishGrows | main/uart_serial.c:512-513 | publishing the head appends the byte |
| UartRing.ReleaseShrinks | main/uart_serial.c:545-546 | releasing the tail removes the oldest byte, which is the one handed out |
| UartRing.FlushDrops | main/uart_serial.c:589-590 | a flush leaves exactly the bytes accepted after it read the head |
| UartRing.StepInv | main/uart_serial.c:491-549 | every access of interrupt handler and reader keeps the ring a queue of the bytes accepted and not yet gone |
| UartRing.RunsOn | main/uart_serial.c:491-549 | any interleaving of calls that do not overlap a cancel is such a run |
| UartRing.QueueOrder | main/uart_serial.c:491-549 | over any interleaving without discards: bytes handed out and left are those present before and those accepted since, in order |
| UartRing.ReadsAreAPrefix | main/uart_serial.c:538-549 | from an empty ring the bytes read are a prefix of the bytes accepted |
| UartRing.DropsOnlyWhenFull | main/uart_serial.c:507-514 | a byte is refused exactly at one below the size, and then the flag is set |
| UartRing.FlushKeepsLaterBytes | main/uart_serial.c:583-593 | bytes that arrive during a flush survive it |
| UartRing.CanThenLaterBytes | main/uart_serial.c:604-613 | after a cancel that nothing overlaps the next byte is CAN, then later ones |
| UartRing.UndisturbedTaskCancel | main/uart_serial.c:604-613 | the three assignments of a task's cancel, undisturbed, are that cancel |
| UartRing.CancelTakesEffectIff | main/uart_serial.c:538-549 | a cancel by the interrupt handler takes effect if and only if no read is under way or its byte is the only one |
| UartRing.CancelDuringRead | main/uart_serial.c:545-546 | otherwise the reader makes all but one of the cancelled bytes readable again |
| UartRing.TaskCancelReads | main/uart_serial.c:608-610 | a task cancels while the handler has a byte under way, at any point and with any interleaving: what exactly is read first |
| UartRing.TaskCancelIff | main/uart_serial.c:608-610 | it is CAN if and only if the byte is neither stored between the first and the last assignment nor published between the first and the second |
| UartRing.InterleavedCancelIff | main/uart_serial.c:604-613 | the same for any number of bytes on their way, before, between and after: the cancel takes effect if and only if the handler writes nothing between the first two assignments and does not begin with a store between the last two |
| UartRing.OverlapHappens | main/uart_serial.c:507-514 | a run from the empty ring into the middle of a byte |
| UartRing.CancelDuringFill | main/uart_serial.c:604-613 | then a byte that is stored after the cancel is lost without the flag |
| UartRing.CancelLosesCan | main/uart_serial.c:608-610 | an instance in which the byte is read in place of CAN |
| UartRing.CancelExposesOldByte | main/uart_serial.c:608-610 | an instance in which a leftover byte is read |
| UartRing.RxBuffer.Store | main/uart_serial.c:507-514 | the byte is appended if there is room, else only the flag changes |
| UartRing.RxBuffer.Receive | main/uart_serial.c:491-517 | of what the hardware received, realtime commands apart, as much is stored as fits, and the flag says whether any was lost |
| UartRing.RxBuffer.Read | main/uart_serial.c:538-549 | the oldest byte, or -1 |
| UartRing.RxBuffer.Flush | main/uart_serial.c:583-593 | empties the ring and clears the flag |
| UartRing.RxBuffer.Cancel | main/uart_serial.c:604-613 | leaves CAN alone |
| Adrc.StepIsAMean | main/motor_control.c:259-265 | disturbance and gain cancel: the new estimate is a mean with positive weights, in all three zones, of old estimate, target and measured speed, displaced by as much as the command differs from the law |
| Adrc.CommandInForceDecides | main/motor_control.c:183-304 | in every run with any measurements, stops and changes of speed within a zone: a tick takes the estimate above the maximum of start, targets and measured speeds only if the command in force was clamped at 0, and below the minimum only if it was clamped at 1 |
| Adrc.ZoneChangeLeavesTheHull | main/motor_control.c:76-93 | and staying within a zone is necessary: for any two different zones some loop at rest in the first and some target in the second take the next estimate out of the range, without any clamping |
| Adrc.ZoneChangeMoves | main/motor_control.c:76-93 | the first tick after a change of target moves a loop at rest by exactly what the two zones disagree on the command |
| Adrc.SteadyStays | main/motor_control.c:258-271 | a loop at rest is a fixed point of the ticker |
| Adrc.PreviousCommandDecides | main/motor_control.c:258-271 | the same at constant target |
| Adrc.StaysDrivenUp | main/motor_control.c:96-97 | the relation between both estimates that the observer keeps while the command is clamped |
| Adrc.OutsideIsClamped | main/motor_control.c:264-271 | under that relation an estimate out of bounds has its command clamped |
| Adrc.UnclampedStaysInside | main/motor_control.c:258-271 | a tick with an unclamped command stays within the bound |
| Adrc.RunWithin | main/motor_control.c:183-277 | over every run with any speed changes: the estimate stays in the hull of start, targets and measured speeds but for the accumulated clamping |
| Adrc.EstimateInHull | main/motor_control.c:258-271 | across changes of the target: never above the hull if no command exceeded the law, never below if none fell short of it |
| Adrc.UnpushedIffUnclamped | main/motor_control.c:263-271 | at constant target that is exactly: no command of the run was clamped at 0, or at 1 |
| Adrc.SlowingDownLeavesTheHull | main/motor_control.c:279-304 | a loop at rest at 1000 rpm that is slowed down to 500 rises to 1001.25 on the next tick |
| Adrc.ObserverErrors | main/motor_control.c:203-261 | ticks at constant target, filter included: under a constant disturbance both observer errors decay with the double eigenvalue 1 - h * omega_o, in closed form, whatever the commands were |
| Adrc.ErrorStep | main/motor_control.c:96-97 | one tick shrinks both errors by that factor, less the change of the disturbance |
| Adrc.SlowErrorFades | main/motor_control.c:258-261 | under any disturbance the slow error stays within what is left of its start and a multiple of the greatest change per tick |
| Adrc.SpeedErrorFades | main/motor_control.c:258-261 | and so does the error of the speed estimate |
| Adrc.FilterLag | main/motor_control.c:203-213 | the filter in front of the observer lags by at most five times the greatest change per tick |
| Adrc.RestMeansTarget | main/motor_control.c:258-271 | a loop whose command is not at its limits is at rest exactly when speed, estimate and target agree and the disturbance estimate balances the command |
| Adrc.RunKeepsStill | main/motor_control.c:183-226 | over every run from the start: a loop that is off has command, estimates and measured speed zero |
| Adrc.StopsAtOnce | main/motor_control.c:204-217 | after any run, from the first tick after a speed of zero or less on the command and the estimates are zero until another speed is set, whatever is measured |
| Adrc.SwitchesOffIff | main/motor_control.c:212-216 | a tick switches a stopped loop off if and only if the filtered speed is below 0.001 |
| Adrc.StandstillSwitchesOff | main/motor_control.c:203-216 | at standstill that takes at most 4000 times the filtered speed in ticks |
| Adrc.SwitchesOffInTheEnd | main/motor_control.c:203-216 | so after a stop every loop at standstill is off after finitely many ticks, and stays off |
| Adrc.Spindle.SetModifiers | main/motor_control.c:73-99 | the gains of the zone of the target |
| Adrc.Spindle.SetSpindleSpeed | main/motor_control.c:279-304 | negative speeds become 0, gains follow the target |
| Adrc.Spindle.SetSpindleSpeedRamp | main/motor_control.c:306-313 | only increases are limited |
| Adrc.Spindle.Ticker | main/motor_control.c:183-277 | the whole ticker, including start and stop; the duty is the command in 11 bits, and zero whenever the target is |

## Left out

* SpiTypes: ids are unbounded, so an epoch of 2^32 packets, after which the 32-bit counters wrap, is not modelled.
* SPI: transfers that the slave has not armed, and garbage in a transfer that both sides report as successful.
* SPI: what `check_flush_condition`, `nextLine` and `line` do inside. `line` is taken to copy the line of the last
  `nextLine` again, and a flush that failed at the master to be asked for again.
- SpiTheorems.ExactlyOnceInOrder: says nothing between a flush that failed at the master and its repetition, and nothing while the slave drains, because the epochs of the two sides differ there.
- BtTx.BytesConserved: malloc and the stack are parameters of the steps; a write that the stack accepted and never completes leaves the semaphore taken.
- UartRing.CanThenLaterBytes: is about a cancel that nothing overlaps; `UartRing.InterleavedCancelIff` and `UartRing.CancelTakesEffectIff` are about the others.
- I2sFill.BuffersContinueTheStream: other tasks that write output bits while stepping are not modelled.
* IEEE rounding in `main.go` and `main/motor_control.c`: real numbers are used, `math.Sqrt` is a function that is only known
  to invert squaring, and conversions to integers truncate exactly.
* `main.go`: wrap-around of the 64-bit tick counter and the 0 / 0 ratios of a move without length, which are never used.
  `sort.Slice` is replaced by an insertion sort of which only sortedness and permutation are used.
* `main.go`: `PinMask`, `StepPins` and the direction mask are fields instead of bits of a byte.
* I2S: the 16-bit mode, the local queue variant, step pin inversion, the microsecond clocks behind the delays, and
  the hardware itself beyond following `next` and reporting the end of a descriptor.
* I2S: `i2s_out_write` and the port value that an idle descriptor gets when passthrough mode begins.
* Trinamic: the chips beyond latching five bytes and answering with the register asked for last; the status byte, chip select timing and the variant with one chip select per driver.
* Bluetooth: reception, pairing and the second connection attempt. Bluetooth LE.
* UART: transmission, the two other ports, which are copies, and the hardware queue in front of the interrupt.
* Spindle: the pulse counter hardware, the telemetry timer and the override logic.
* Everything else in the repository: networking, storage, boards, pin tables, homing and the web interface.
