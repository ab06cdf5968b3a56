# A verified model of the BLE-MIDI daemon's data path

The daemon bridges Bluetooth LE MIDI instruments and ALSA. A MIDI byte crosses a
lock-free queue, a fence that keeps one connection's data out of the next, and
an incremental decoder or a packet builder; a session machine decides when any of
this is allowed. This project models those parts in Dafny and proves what holds
of them for every input, every run and every interleaving.

`dafny verify dfyconfig.toml` checks everything.

## How it is laid out

| part | modules |
|---|---|
| decoder and packets | `MidiAutomaton` (one byte at a time, the specification), `BleMidiDecoder` (the nested loops), `MidiStream` (what any packets make it emit), `BleMidiPacket`, `MidiTransport`, `Transmit`, `TransmitPeriod` (the loop against the fence), `MidiLimits`, `MidiResync` (what a rejected packet leaves behind), `MidiLanguage` (which packets are accepted) |
| runtime queue, in sequence | `FrameModel`, `RingModel`, `SharedPool`, `RuntimeFlow` |
| runtime queue, interleaved | `QueueSteps` (the machine), `QueueControl` and `QueueData` (invariants), `QueueProof`, `QueueTheorems`, `QueueProgress` (what one push, one stop and one delivery come to), `SecondConsumer` (drops beside the worker), `DropDamage` and `DropRuns` (when they do damage) |
| session and registry | `Session`, `SessionTraces`, `SessionLaws` (what each event means), `Registry` |
| daemon protocol | `Fence`, `Dataplane`, `ReceivePath`, `Panic`, `ReceivePeriods` (the receive worker beside the session thread), `Lifecycle` |
| latency histogram | `Latency` |
| shared | `Bytes`, `Words`, `Sets`, `Wrappers` |

Objects that the C code changes in place are classes whose methods are proved
equal to functions on values; the results are then proved about those functions,
over whole runs. The interleaved queue is a state machine: one step is one atomic
load, store or compare-and-swap, one lock operation, or one plain access to one
field, under sequentially consistent atomics.

## Where the code differs from what is said about it

* `docs/BLE_MIDI_FRAGMENTATION.md:54-72` gives 90 3C 7F 40 | 7F as an example of
  running status across packets. The decoder wants a timestamp after every complete
  message, so it resets on the 40 and again on the second packet
  (`MidiLimits.DocumentedRunningStatusExampleFails`). A second message under running
  status that begins in the packet of the first and goes on in any others is
  understood if and only if a timestamp stands in front of it
  (`MidiLimits.RunningStatusNeedsTimestamp`); one that begins a packet always is
  (`MidiTransport.RunningStatusStream`), and so is every message of a packet in which
  each has a timestamp of its own (`MidiLimits.StampedPacket`). Two more packed forms
  have their exact condition in `MidiLimits.PackedPairExactlyWhenSameStatus` and
  `MidiLimits.TimestampBeforeEndOfSysEx`.
* `src/mb-slice-ring.h:35` allows one consumer per ring. When a period closes, the
  session thread drops the pending items (`src/mb-daemon.c:305`) while the worker
  runs. Let the whole loop of drops pass without another thread's step, and then let
  the worker alone finish the take it is in, if any: every frame has one owner
  afterwards if and only if the worker was not between the load and the store of
  read_seq, or nothing was queued, or one item was queued whose slot, already being
  zeroed, named no busy frame with one reference
  (`DropDamage.DropPendingIsSafeExactly`, `DropRuns.ReachableDropIsSafeExactly`). In these cases every later interleaving
  keeps ownership and order, with more uninterrupted drops outside a take
  (`DropDamage.AnyRunAfterSafeDrop`). In the others:
  with two or more items the worker stores an old read_seq, and an item is queued
  whose frame is free (`DropDamage.LiveSlotIsFreed`), which a run from the start
  with two pushes reaches (`DropRuns.LiveSlotFreedFromStart`). With one item the
  worker is left with a frame that is free or the producer's, or the producer with
  one that is free; if the item's own frame was freed and the worker goes on alone,
  the callback gets nothing or an empty message that nobody pushed, with the exact
  condition in `DropDamage.DroppedItemIsDeliveredEmpty`. A run from the start with
  thirty-three pushes reaches the empty message (`DropRuns.EmptyDeliveryFromStart`);
  it carries epoch 0, which the fence of the daemon refuses.
* `docs/session-state.md:94-102` says STREAMING implies a bound characteristic. The
  machine itself does not ask for it (`SessionTraces.StreamingWithoutBinding`);
  the daemon's order of calls does (`SessionTraces.StreamingMeansReady`).
* `docs/BLE_MIDI_FRAGMENTATION.md:170-172` says that old data is never processed
  after a reconnect. The receive worker checks the fence under one lock and
  decodes under another. An item of the old period that has passed the check and
  is still to be decoded when the period closes can be decoded in the next one:
  its bytes then reach ALSA there, a whole SysEx for instance
  (`ReceivePeriods.OldSysExReachesAlsa`, from a fresh device), or it leaves a
  half-finished message in the decoder. This can happen if and only if such an
  item has at least the three bytes that the decoder looks at
  (`ReceivePeriods.NextPeriodSpoiledExactlyWhenCaught`); in all runs in which no
  reset finds such an item every period starts clean
  (`ReceivePeriods.PeriodsStartClean`).
* The percentile computes count * percentile + 99 in 64 bits. The rank is right
  exactly when that sum fits (`Latency.MachineRankExact`), and for every count at
  which it does not some observations yield a wrong bucket
  (`Latency.WrongBucketExactlyWhenOverflow`); that count * 100 fits is not enough
  (`Latency.RoundingOverflows`).
* Asking for a known address at a path held by a session of another address frees
  that session while its address key stays (`Registry.ClashDangles`; three calls on
  an empty registry suffice, `Registry.ClashFromEmpty`); every other
  call keeps the two indices in agreement (`Registry.EnsureKeepsAgreement`).
* The timestamp comparison in the fence never decides
  (`Fence.ClosedTestNeverDecides`): the epochs alone do the work.

## Model

| member | source | states |
|---|---|---|
| `BleMidiDecoder.Decoder.DecodePacket` | src/mb-ble-midi.c:140-257 | for every state and packet the nested loops leave the same state, emit the same bytes and return the same result as the flat automaton, and terminate |
| `BleMidiDecoder.Decoder.ConsumePendingData` | src/mb-ble-midi.c:73-105 | the loop for short messages is a run of the automaton from the pending mode, up to where it hands back the shared index |
| `BleMidiDecoder.Decoder.ConsumeSysEx` | src/mb-ble-midi.c:107-138 | the loop for System Exclusive is a run of the automaton from the SysEx mode |
| `BleMidiDecoder.Decoder.EmitPending` | src/mb-ble-midi.c:48-58 | emits the status and then the stored data bytes, and leaves nothing pending |
| `BleMidiDecoder.Decoder.Reset` | src/mb-ble-midi.c:39-42 | back to the initial state, nothing emitted |
| `MidiStream.StatusDataLenIsFamilyLength` | src/mb-ble-midi.c:5-33 | the length table agrees with the MIDI message families, and is 0 exactly for real time, tune request and end of SysEx |
| `MidiStream.EveryRunIsWellFormed` | src/mb-ble-midi.c:140-257 | any packets: what is emitted since the last reset is complete messages and then one unfinished SysEx exactly when one is open; so is every stretch that a reset closed |
| `MidiStream.FreshDecoderRunsAreWellFormed` | src/mb-ble-midi.c:39-42 | the same from a fresh decoder, for all packet sequences |
| `MidiStream.StretchesAreTheOutput` | src/mb-ble-midi.c:140-257 | the stretches joined again are the whole output: nothing is left out of the statement above |
| `MidiStream.ResetForgets` | src/mb-ble-midi.c:68-71 | after a resync or a bad header, state, output and results depend only on later packets |
| `MidiStream.PacketConservesData` | src/mb-ble-midi.c:140-257 | an accepted packet's data bytes are emitted or still pending, none lost, repeated or reordered |
| `MidiStream.RunConservesAllData` | src/mb-ble-midi.c:140-257 | the same over any run without a reset |
| `MidiResync.ResyncKeepsAcceptedPart` | src/mb-ble-midi.c:68-71 | for every state, a packet that ends in a resync has emitted exactly what its longest part that is not rejected emits, and the decoder is idle |
| `MidiResync.UnreadableIsSilent` | src/mb-ble-midi.c:145-162 | a packet too short or without a header emits nothing, and only the latter forgets what was pending |
| `MidiResync.OpenSysExIsCutOff` | src/mb-ble-midi.c:123-128 | with a SysEx open, a status byte other than its end or real time resyncs: the bytes before it were emitted and nothing closes the SysEx |
| `MidiResync.ShortMessageIsCutOff` | src/mb-ble-midi.c:83-89 | a short message interrupted by a status byte other than real time is forgotten; only real time bytes were emitted |
| `MidiResync.NoEndIsInvented` | src/mb-ble-midi.c:107-138 | over any packets, rejected ones included, no more F7 are emitted than were received |
| `MidiLanguage.AcceptedExactly` | src/mb-ble-midi.c:164-256 | between messages a packet is accepted if and only if it reads as messages, each behind a timestamp and with statuses dropped where MIDI allows, and possibly the beginning of one more |
| `MidiLanguage.ReadingIsTheOutput` | src/mb-ble-midi.c:164-256 | however it is read, the output is the expanded messages and, of the unfinished one, the SysEx bytes or the real time bytes so far |
| `MidiLanguage.GoingOnInAnotherPacket` | src/mb-ble-midi.c:176-190 | a packet that ends inside a message may be cut there: the two packets leave the state, the output and the verdict of the uncut one, whatever follows |
| `BleMidiPacket.MakePacket` | src/mb-ble-midi.c:259-283 | fails exactly on no bytes or too little room, touching nothing; otherwise writes the packet and nothing behind it |
| `BleMidiPacket.PacketRoundTrip` | src/mb-ble-midi.c:274-277 | the MIDI bytes and all 13 timestamp bits can be read back from any packet |
| `MidiTransport.CutAnywhere` | src/mb-ble-midi.c:176-190 | a message in progress does not see packet boundaries: any cut into non-empty packets gives the state and output of the uncut bytes |
| `MidiTransport.SegmentationIndependence` | src/mb-ble-midi.c:73-138 | one message with real time bytes inside, cut anywhere, decodes to the message and those bytes and back to idle: in place in SysEx, ahead of a short message |
| `MidiTransport.RunningStatusStream` | src/mb-ble-midi.c:192-244 | any list of messages with running status dropped where MIDI allows it, real time in between and any cuts decodes to the fully expanded list |
| `MidiLimits.RunningStatusNeedsTimestamp` | src/mb-ble-midi.c:165-169 | a second message under running status that begins in the packet of the first and goes on in any packets, real time bytes inside allowed, is understood together with the first if and only if a timestamp byte stands in front of it; without one the decoder resets there |
| `MidiLimits.ByteBeforeSecondMessage` | src/mb-ble-midi.c:165-169 | one more byte in front of the data of a complete second message is understood if and only if it is no data byte |
| `MidiLimits.StampedPacket` | src/mb-ble-midi.c:164-256 | a packet of any messages, each behind its own timestamp and with statuses dropped where MIDI allows, decodes to the fully expanded list |
| `MidiLimits.LostStatusChange` | src/mb-ble-midi.c:192-207 | an item under running status is understood if and only if the receiver remembers the status the sender dropped: after a lost item it may not |
| `MidiLimits.DocumentedRunningStatusExampleFails` | docs/BLE_MIDI_FRAGMENTATION.md:54-72 | the documented example yields one message and two resyncs |
| `MidiLimits.PackedPairExactlyWhenSameStatus` | src/mb-ble-midi.c:165-169 | two channel messages behind one timestamp are understood if and only if their status bytes are equal |
| `MidiLimits.TimestampBeforeEndOfSysEx` | src/mb-ble-midi.c:116-128 | a timestamp byte before the F7 of a SysEx is understood if and only if it is itself F7 |
| `Transmit.WritePacket` | src/mb-daemon.c:1080-1161 | the packets written are the first 18-byte cuts in order, each at most 20 bytes, and each had passed its fence check; true exactly when all were written, which is exactly when the fence stayed open and every write succeeded; a failure is reported exactly when a write failed |
| `Transmit.WrittenIsPrefix` | src/mb-daemon.c:1104-1157 | the MIDI bytes written are a prefix of the item cut at a multiple of 18, and whole exactly when all packets went out |
| `Transmit.TransmitRoundTrip` | src/mb-daemon.c:1080-1161 | end to end: any list of single messages, repeated channel statuses dropped as MIDI allows, written without failure, is decoded from idle to exactly the fully expanded list with no packet rejected, ending between messages |
| `Transmit.WholeMessagesRoundTrip` | src/mb-daemon.c:1080-1161 | with every message queued with its status: exactly their concatenation |
| `TransmitPeriod.OneChunkAfterClose` | src/mb-daemon.c:1104-1157 | every packet sent passed its check in the streaming period of the item's stamp, and all but the last were written in it |
| `TransmitPeriod.CheckMeans` | src/mb-daemon.c:1089-1110 | a check of the loop passes if and only if that period is still open |
| `FrameModel.FramePool.Make` | src/mb-frame-model.c:29-70 | the scanning loop claims the first free frame from the cursor and fills it, or reports that there is none; all fields and counters |
| `FrameModel.FramePool.Hold` | src/mb-frame-model.c:72-84 | one reference more exactly when the slice lies in a busy frame |
| `FrameModel.FramePool.Done` | src/mb-frame-model.c:86-104 | one reference fewer, the last one frees the frame and clears its header |
| `FrameModel.FramePool.Get` | src/mb-frame-model.c:106-124 | the bytes of the slice, or nothing when it is not readable |
| `FrameModel.MakeFindsAnyFree` | src/mb-frame-model.c:42-69 | the cyclic scan succeeds if and only if the data fits and some frame is free |
| `FrameModel.MakeStores` | src/mb-frame-model.c:42-66 | the slice returned reads back as the data, from a frame that was free; no other frame changes |
| `FrameModel.SlicesOfMade` | src/mb-frame-model.c:42-124 | of a claimed frame exactly the slices inside the data can be read, each as its part; number, timestamp, counters and cursor are set |
| `FrameModel.ReleaseUndoesHold` | src/mb-frame-model.c:72-104 | giving a reference back restores the whole pool |
| `RingModel.SliceRing.PushItem` | src/mb-slice-ring.c:52-78 | appends exactly when the slice is valid and fewer than 16 items are queued; otherwise at most the overflow count changes |
| `RingModel.SliceRing.PushShared` | src/mb-slice-ring.c:99-115 | takes a reference of its own, and gives it back when the ring is full |
| `RingModel.SliceRing.Take` | src/mb-slice-ring.c:135-153 | returns the oldest item and zeroes its slot |
| `RingModel.SliceRing.Drop` | src/mb-slice-ring.c:155-163 | a take whose reference is given back, counted |
| `RingModel.SliceRing.ItemDone` | src/mb-slice-ring.c:165-171 | releases the item's frame reference |
| `RingModel.SliceRing.IsEmpty` | src/mb-slice-ring.c:173-179 | true exactly when nothing is queued |
| `RingModel.SliceRing.Count` | src/mb-slice-ring.c:190-197 | the number of queued items |
| `RingModel.SliceRing.CountFromSeq` | src/mb-slice-ring.c:18-25 | the difference of the sequence numbers, never outside 0 to 16 |
| `RingModel.PushAppends` | src/mb-slice-ring.c:52-78 | a successful push adds its item at the end of the queue and overwrites nothing queued |
| `RingModel.TakeRemovesOldest` | src/mb-slice-ring.c:135-153 | a take removes the oldest item and disturbs no other |
| `SharedPool.CountsAreExact` | src/mb-frame-model.c:72-104 | any rings over one pool, any calls: holders are queued references plus callers' references, busy exactly when positive, `occupied` counts the busy frames, every queued item is readable |
| `SharedPool.FreshWorldCounts` | src/mb-slice-ring.c:27-38 | fresh rings over a fresh pool satisfy that invariant |
| `SharedPool.FailedSharedPushIsNeutral` | src/mb-slice-ring.c:99-115 | a failed shared push leaves pool, callers' references and queues as they were |
| `RuntimeFlow.RuntimeFlow.PushBytesWithEpoch` | src/mb-runtime.c:178-212 | the whole new state of pool, ring and counters in the oversize, no-frame, full and accepted cases |
| `RuntimeFlow.PushMeans` | src/mb-runtime.c:178-212 | a push is accepted exactly when the data fits and fewer than 16 items wait; then it waits behind all others, with its bytes, epoch and timestamp |
| `RuntimeFlow.PoolNeverRunsOut` | src/mb-frame-model.c:42-69 | within one flow a free frame always exists: the scan fails only for data that does not fit |
| `RuntimeFlow.RuntimeFlow.ConsumeOne` | src/mb-runtime.c:54-86 | a turn hands the oldest waiting item to the callback and nothing else |
| `RuntimeFlow.RuntimeFlow.Drain` | src/mb-runtime.c:54-87 | the drain loop delivers everything that waits, in order, and leaves nothing |
| `RuntimeFlow.RuntimeFlow.DropPending` | src/mb-runtime.c:214-222 | everything that waits is dropped and counted, nothing is delivered |
| `RuntimeFlow.EveryRunBalances` | src/mb-runtime.c:178-222 | over any calls: attempts are pushes plus failures, pushes are consumed plus dropped plus waiting, failures are overflow plus oversize |
| `RuntimeFlow.EveryRunKeepsOrder` | src/mb-runtime.c:54-222 | over any pushes, turns and drops: the items that left the queue, handed over or dropped, in order, and then those that wait, are exactly the accepted ones in order; the callback got exactly those handed over |
| `RuntimeFlow.EveryRunDeliversInOrder` | src/mb-runtime.c:54-87 | without drops, what was and will be delivered is exactly what was accepted, in order |
| `QueueProof.StepKeeps` | src/mb-runtime.c:38-212 | every step of producer, worker and stopping thread, in any interleaving and with spurious wake-ups, keeps the invariant |
| `QueueTheorems.DeliveredInOrder` | src/mb-runtime.c:54-87 | for every interleaving the callback is given, in order, a prefix of the accepted pushes with identical bytes, timestamp and epoch |
| `QueueTheorems.OneOwner` | src/mb-frame-model.c:42-104 | in every reachable state each frame is exactly one of free, the producer's, in one live slot, or the worker's; a live slot names its frame |
| `QueueTheorems.FramesConserved` | src/mb-frame-model.c:86-104 | no frame leaks: the busy frames are the queued items plus one per thread that is working on one |
| `QueueTheorems.NoRace` | src/mb-slice-ring.c:66-75 | the two threads are never about to touch the same plain location with one of them writing |
| `QueueTheorems.ProducerLeavesOthersAlone` | src/mb-slice-ring.c:66-75 | a producer step changes no busy frame but its own and no live slot |
| `QueueTheorems.WorkerLeavesOthersAlone` | src/mb-slice-ring.c:144-151 | a worker step changes no frame but the one it took and no slot but the one it is emptying |
| `QueueTheorems.NoAccessOutOfRange` | src/mb-frame-model.c:42-124 | every index used is in range in every reachable state |
| `QueueTheorems.NoLostWakeup` | src/mb-runtime.c:44-52 | a worker blocked with a non-empty ring, or after a stop request, is always about to be signalled |
| `QueueTheorems.AtRestNothingIsPending` | src/mb-runtime.c:44-88 | blocked worker and idle producer: everything accepted was delivered and every frame is free |
| `QueueTheorems.NoDeadlock` | src/mb-runtime.c:149-169 | while something is queued or a stop is pending, the push, the worker or a stop already under way can move, without a spurious wake-up or a new call |
| `QueueTheorems.StopDrains` | src/mb-runtime.c:44-88 | when the worker has returned, everything accepted before the stop request was stored has been delivered and its frame is out of ring and worker |
| `QueueTheorems.WorkerApproaches` | src/mb-runtime.c:44-88 | after a stop request every worker step lowers a bound on its remaining steps |
| `QueueTheorems.StopReturns` | src/mb-runtime.c:149-160 | with no push in progress the worker left alone returns, and stop with it; if nothing was accepted since the request, all was delivered and every frame is free |
| `QueueTheorems.StopIsBounded` | src/mb-runtime.c:44-88 | in every interleaving after a stop request that has reached the worker: it never waits again and takes at most 16799 further steps, and 1000 more per push still published |
| `QueueTheorems.PushFailsOnlyWhenFull` | src/mb-slice-ring.c:59-65 | the scan never fails, and a push is undone only after sixteen unread items were seen |
| `QueueTheorems.PushIsBounded` | src/mb-runtime.c:162-212 | every push is over after at most 332 steps of its own, whatever worker and stopping thread do in between; only the lock can make it wait |
| `QueueProgress.PushPublishesUnlessFull` | src/mb-runtime.c:178-212 | every interleaving: a push of data that fits, run to its end, publishes exactly its bytes with epoch and timestamp, or nothing if and only if it loaded read_seq while sixteen items were unread |
| `QueueProgress.OversizedIsRefused` | src/mb-runtime.c:186-194 | more than 256 bytes are refused before the queue is touched |
| `QueueProgress.DeliveredSoon` | src/mb-runtime.c:44-88 | every interleaving, spurious wake-ups included: while something accepted is undelivered, 340 steps of the worker deliver something |
| `QueueProgress.StopIsSixSteps` | src/mb-runtime.c:149-160 | a stop is six steps of its own, held up only by the lock and by the worker's return; when it is over the request stands and the worker has returned |
| `SecondConsumer.DropsOutsideTakeAreHarmless` | src/mb-slice-ring.c:155-163 | over all interleavings with uninterrupted drops, none of them while the worker is inside a take, every frame has one owner and the callback is given, in order and byte for byte, the accepted pushes without the dropped ones |
| `DropDamage.DropPendingIsSafeExactly` | src/mb-runtime.c:214-222 | after an uninterrupted drop_pending and the rest of the worker's take every frame has one owner if and only if the worker was outside its take, or nothing was queued, or one item was queued and its slot named no busy frame with one reference; the whole invariant then holds again |
| `DropDamage.AnyRunAfterSafeDrop` | src/mb-runtime.c:214-222 | whatever the threads do after such a drop, every frame keeps one owner and the callback gets the accepted pushes without the dropped ones, in order |
| `DropDamage.LiveSlotIsFreed` | src/mb-slice-ring.c:135-153 | a drop_pending of two or more items inside a take makes the worker put read_seq back to an item whose frame is free |
| `DropDamage.DroppedItemIsDeliveredEmpty` | src/mb-runtime.c:58-86 | the only item dropped inside a take and its frame freed: the worker alone then gives the callback an empty message beyond the accepted ones exactly when it had not read the slot, the item was not in frame 0 and frame 0 is busy, and nothing otherwise |
| `DropRuns.ReachableDropIsSafeExactly` | src/mb-daemon.c:298-307 | in every reachable state of the queue the drop is safe on the same condition |
| `DropRuns.LiveSlotFreedFromStart` | src/mb-daemon.c:298-307 | a run from the start reaches a worker inside its take with two items queued; the drop leaves an item queued whose frame is free |
| `DropRuns.EmptyDeliveryFromStart` | src/mb-daemon.c:298-307 | a run from the start reaches a worker inside its take with one item queued and frame 0 claimed; after the drop the callback gets an empty message that nobody pushed |
| `Session.Session.HandleEvent` | src/mb-session.c:196-417 | every event in every state does what the transition table says, in all fields and in the result; `SessionLaws` says what the table means |
| `Session.Session.ResetRuntime` | src/mb-session.c:14-30 | forgets link flags and binding, and the ALSA port only when asked |
| `Session.Session.EnterReconnectingOrError` | src/mb-session.c:180-190 | reconnecting, or the error state when reconnecting is off |
| `Session.Session.SetMidiBinding` | src/mb-session.c:157-166 | the binding is replaced, an empty string counting as none |
| `Session.Session.SetAlsaPort` | src/mb-session.c:168-173 | ready exactly for a port that is not negative |
| `Session.Session.IsStreamingReady` | src/mb-session.c:419-428 | the documented meaning of STREAMING |
| `SessionTraces.FlagsInEveryRun` | src/mb-session.c:196-417 | after any run, outside ERROR, connected, resolved and notify hold in exactly the states from WAIT_SERVICES, BINDING_MIDI and STREAMING on; with reconnecting off RECONNECTING is unreachable |
| `SessionTraces.StreamingOnlyByTheFullClimb` | src/mb-session.c:290-412 | a run that ends in STREAMING ends, rejected and merely noted events apart, with the six events of the climb and nothing in between |
| `SessionTraces.EveryRunClimbs` | src/mb-session.c:290-412 | the same for every rung: the last effective events are the beginning and the first rungs of the climb |
| `SessionTraces.ReadyExactlyWhenBound` | docs/session-state.md:94-102 | STREAMING is ready as documented if and only if a characteristic path is bound |
| `SessionTraces.StreamingWithoutBinding` | src/mb-session.c:290-412 | six events lead every resting session without a binding to a STREAMING that is not ready |
| `SessionTraces.StreamingMeansReady` | src/mb-daemon.c:1467-1497 | called in the daemon's order, STREAMING always means ready |
| `SessionLaws.LossIsRetried` | src/mb-session.c:180-190 | after any run, a disconnect, a failed notify, a failed write, a failed connect or the timeout of a waiting state leads to RECONNECTING, or to ERROR with reconnecting off, with its own error; the link is forgotten and the ALSA port kept unless no connection was made |
| `SessionLaws.FailureEndsInError` | src/mb-session.c:213-291 | every other failure leads to ERROR with its own error and changes nothing else, but that without an adapter all is forgotten |
| `SessionLaws.StreamingToleratesAlsa` | src/mb-session.c:275-291 | an ALSA failure while STREAMING is noted and nothing else |
| `SessionLaws.CommandsEndSession` | src/mb-session.c:199-211 | forget and disconnect leave a session like a new one, but for the count of reconnects |
| `SessionLaws.RestartForgets` | src/mb-session.c:399-412 | scan or connect in ERROR start from a session like a new one |
| `SessionLaws.BeginsKeepRest` | src/mb-session.c:294-397 | from rest they change state and error only; a connect while waiting to reconnect is counted |
| `SessionLaws.WrongTimeChangesErrorOnly` | src/mb-session.c:415-416 | an event at the wrong time changes the error field and nothing else, and no other event leaves that error |
| `SessionLaws.EnteredExactly` | src/mb-session.c:196-417 | after any run: each state is entered by exactly these events, RECONNECTING by losses of the link alone, and these leave the state as it is |
| `SessionLaws.RungEffects` | src/mb-session.c:317-381 | each rung changes its own flag, state and error and nothing else |
| `SessionLaws.LossAndRecovery` | src/mb-session.c:383-397 | a link lost while STREAMING, the timer and the five rungs: STREAMING again on the same ALSA port |
| `SessionLaws.ConnectStreams` | src/mb-session.c:294-412 | from rest, ERROR or RECONNECTING a connect and the five rungs lead to STREAMING |
| `SessionLaws.RetriesAreCounted` | src/mb-session.c:390-396 | after any run the count is the number of waits that ended in another attempt, modulo 2^32 |
| `Registry.SessionTable.EnsureSession` | src/mb-session.c:503-540 | which session is returned, with which identity and under which keys, and both indices afterwards; agreement is kept if and only if the call is no clash |
| `Registry.SessionTable.RemoveSessionByDevicePath` | src/mb-session.c:556-569 | the session leaves both indices, and they still agree |
| `Registry.SessionTable.ReindexDevicePath` | src/mb-session.c:472-491 | the old path key goes if it led here, the new one is taken and frees who was there |
| `Registry.SessionTable.ReindexAddress` | src/mb-session.c:493-501 | the old address key goes, the new one leads here |
| `Registry.SessionTable.StealPathIndex` | src/mb-session.c:453-470 | removes a path key without freeing, only when it leads to the expected session |
| `Registry.EnsureKeepsAgreement` | src/mb-session.c:503-540 | from agreeing indices, a call ends in agreeing indices if and only if its path is not held by a session of another address |
| `Registry.ClashDangles` | src/mb-session.c:472-491 | otherwise the address index leads to a freed session |
| `Registry.ClashFromEmpty` | src/mb-session.c:503-540 | three calls on an empty registry lead there |
| `Registry.EveryRunAgrees` | src/mb-session.c:503-569 | over any harmless calls both indices hold the same live sessions, each under its current keys only |
| `Registry.SameAddressSameSession` | src/mb-session.c:510-522 | asking again for an address returns the same session, under whatever path, after any harmless calls that do not detach it |
| `Registry.EnsureMakesKnown` | src/mb-session.c:533-539 | after a call for an address the address index leads to the session returned |
| `Registry.EnsureTwiceSameSession` | src/mb-session.c:503-540 | asking twice for an address, under any paths and with any calls in between that leave its session alone, returns the same session |
| `Registry.EnsureMeans` | src/mb-session.c:503-540 | every call that is no clash: the session returned has exactly the identity asked for and is found under path and address, its old keys are gone, a displaced session is gone, all others are as they were |
| `Registry.OtherKeysStay` | src/mb-session.c:453-501 | every key but the new and the old ones leads where it led |
| `Registry.EnsureReturns` | src/mb-session.c:509-532 | the session known by the address, else the one at the path, else a new one |
| `Registry.RemoveMeans` | src/mb-session.c:556-569 | the session of that path is gone and no other has changed |
| `Registry.FoundUnderLastPath` | src/mb-session.c:503-569 | over any harmless calls a session is found under the path, address and name last asked for, until path or address are named again |
| `Registry.MovesToNewPath` | docs/session-state.md:121-123 | a known address at a new path moves the existing session there, and the old path finds nothing |
| `Fence.FenceExact` | src/mb-daemon.c:221-259 | a stamp made while open is accepted later exactly when the dataplane is open and the openings since are a multiple of 2^64 - 1 |
| `Fence.FenceExactBelowWrap` | src/mb-daemon.c:221-259 | with fewer than 2^64 openings: accepted if and only if its streaming period has not been closed since |
| `Fence.EpochsCountOpenings` | src/mb-daemon.c:280-308 | after any history the fence is open exactly when streaming and the epoch is the number of openings, wrapped past zero |
| `Fence.ClosedAtLastEnd` | src/mb-daemon.c:298-303 | the recorded closing time is that of the last end of streaming |
| `Fence.ClosedTestNeverDecides` | src/mb-daemon.c:233-236 | the comparison with the closing time never changes the outcome |
| `Dataplane.DeviceRuntime.FenceAccept` | src/mb-daemon.c:221-239 | decides acceptance as specified |
| `Dataplane.DeviceRuntime.Stamp` | src/mb-daemon.c:241-259 | a stamp is given exactly while streaming and carries the current epoch |
| `Dataplane.DeviceRuntime.OnSessionChange` | src/mb-daemon.c:280-308 | opens and closes exactly on entering and leaving STREAMING |
| `Dataplane.DeviceRuntime.SessionEvent` | src/mb-daemon.c:396-422 | session and fence move together |
| `Dataplane.FenceFollowsSession` | src/mb-daemon.c:396-422 | over all runs the fence of a device is the fence of its streaming history |
| `Dataplane.EpochCountsEntries` | src/mb-daemon.c:280-308 | from IDLE, after every run: open exactly when STREAMING, the epoch equals the entries into STREAMING, an open epoch exceeds the last closed one |
| `Dataplane.ItemsStayInTheirPeriod` | src/mb-daemon.c:221-308 | in every run of the product, an item is accepted if and only if the session has been STREAMING all the way since its stamp |
| `ReceivePath.Receiver.Consume` | src/mb-daemon.c:1163-1185 | decoded exactly when the fence accepts it, otherwise without effect |
| `ReceivePath.Receiver.DecodePacket` | src/mb-daemon.c:1046-1078 | the decoder's bytes, then a panic exactly after a bad header or a resync |
| `ReceivePath.Receiver.EmitPanic` | src/mb-daemon.c:981-1019 | on each of 16 channels sustain off, sound off, notes off and a centred bend, as complete messages |
| `ReceivePath.AlsaSeesStretchesAndPanics` | src/mb-daemon.c:1046-1078 | for any packets ALSA is given well-formed stretches, each one that a lost frame cut off followed by a panic |
| `ReceivePath.PanicIsWellFormed` | src/mb-daemon.c:999-1018 | the panic is complete messages |
| `Panic.PanicSilences` | src/mb-daemon.c:999-1018 | whatever an instrument has been playing, after the panic no note sounds on any of its sixteen channels, no pedal is held and every bend is centred |
| `ReceivePath.OnlyShortPacketsDoNothing` | src/mb-daemon.c:1046-1078 | an idle decoder passes over a packet without a trace in its state or towards ALSA if and only if the packet has fewer than three bytes |
| `ReceivePeriods.NextPeriodSpoiledExactlyWhenCaught` | src/mb-daemon.c:1163-1185 | when a period has closed, the next one can hold something in the decoder or towards ALSA that does not stem from its own packets if and only if an item of three bytes or more is between fence check and decoder |
| `ReceivePeriods.PeriodsStartClean` | src/mb-daemon.c:1163-1185 | over all runs in which no reset finds such an item, decoder and output since the last opening are what a fresh decoder makes of the items let through and decoded since then |
| `ReceivePeriods.OldBytesReachNextPeriod` | src/mb-daemon.c:300-306 | from every closed period with an item in between: decoded after reopening, its whole output is given to ALSA in a period that has let nothing through |
| `ReceivePeriods.StaleItemReachesNextPeriod` | src/mb-daemon.c:300-306 | decoded before reopening, the item's leftover is the decoder's state in a period that has let nothing through |
| `ReceivePeriods.EveryItemCanBeCaught` | src/mb-daemon.c:221-308 | from a fresh device there is such a run for every packet |
| `ReceivePeriods.OldSysExReachesAlsa` | docs/BLE_MIDI_FRAGMENTATION.md:170-172 | from a fresh device: a whole SysEx of the old period is given to ALSA in the new one, though it leaves the decoder idle |
| `ReceivePeriods.HalfNoteStaysPending` | src/mb-ble-midi.c:246-253 | a concrete packet that leaves a message pending |
| `ReceivePeriods.EveryRunIsCoupled` | src/mb-daemon.c:396-422 | in every run, such items included, the fence is open exactly in STREAMING and a reset is due only behind a closed fence |
| `Lifecycle.LifecycleQueue.Enqueue` | src/mb-daemon.c:1556-1593 | one more command of the kind unless the device has one queued, and a callback is scheduled |
| `Lifecycle.LifecycleQueue.EnqueueEvent` | src/mb-daemon.c:1595-1626 | session events are always queued |
| `Lifecycle.LifecycleQueue.HasPending` | src/mb-daemon.c:1524-1537 | true exactly when such a command is queued |
| `Lifecycle.LifecycleQueue.ProcessBegin` | src/mb-daemon.c:1700-1725 | takes the first command unless one is in progress |
| `Lifecycle.LifecycleQueue.ProcessEnd` | src/mb-daemon.c:1770-1778 | no longer busy, and rescheduled when more is queued |
| `Lifecycle.LifecycleQueue.DropDevice` | src/mb-daemon.c:3254-3278 | a stable filter: all commands of other devices in their order |
| `Lifecycle.NothingIsForgotten` | src/mb-daemon.c:1539-1779 | any threads, any interleaving: with no thread inside, a non-empty queue has a callback scheduled; no device has two queued commands of one kind, events apart |
| `Lifecycle.FirstInFirstOut` | src/mb-daemon.c:1556-1779 | every command pushed was processed, dropped or is queued, once; processing is in order of pushing |
| `Lifecycle.PushRequests` | src/mb-daemon.c:1556-1593 | right after a request a command of that device and kind is queued; the queue grows by one such command at its end if and only if the device had none of that kind, whatever other devices have |
| `Lifecycle.EventIsAppended` | src/mb-daemon.c:1595-1626 | an event is appended with its device and what it carries |
| `Lifecycle.FireTakesFirst` | src/mb-daemon.c:1700-1725 | a callback takes up the first command unless one is in progress |
| `Lifecycle.DropTakesOwn` | src/mb-daemon.c:3254-3278 | dropping a device takes out its commands and no other, and keeps their order |
| `Lifecycle.RequestIsServed` | src/mb-daemon.c:1556-1779 | any threads, any interleaving: after a request, a command of that device and kind is queued or has been taken up since, unless the device was dropped |
| `Lifecycle.EventIsServed` | src/mb-daemon.c:1595-1779 | the same for an event, with what it carries |
| `Latency.Accumulator.Observe` | src/mb-latency-diagnostics.c:62-81 | one bucket, the saturating totals and the maximum; the buckets stay the histogram of the observations modulo 2^64 |
| `Latency.Accumulator.PercentileMs` | src/mb-latency-diagnostics.c:89-108 | after any observations the search over the wrapping buckets and totals; with fewer than 2^64, the first bucket at which the exact running total reaches the 64-bit rank |
| `Latency.PercentileIsNearestRank` | src/mb-latency-diagnostics.c:89-108 | that bucket is the nearest-rank percentile of the sorted list of clipped whole milliseconds |
| `Latency.BucketIsSortedElement` | src/mb-latency-diagnostics.c:100-105 | for any rank in range the loop finds the element of that rank in the sorted list |
| `Latency.MachineRankExact` | src/mb-latency-diagnostics.c:96-98 | the 64-bit rank is the nearest rank if and only if count * percentile + 99 fits |
| `Latency.RoundingOverflows` | src/mb-latency-diagnostics.c:96 | a count whose hundredfold fits and whose rank is nevertheless wrong |
| `Latency.WrongBucketExactlyWhenOverflow` | src/mb-latency-diagnostics.c:89-108 | for every count below 2^64, some observations yield a wrong bucket if and only if count * percentile + 99 does not fit 64 bits |
| `Latency.FallbackUnreachable` | src/mb-latency-diagnostics.c:107 | with fewer than 2^64 observations the return behind the loop is never reached |
| `Latency.FallbackAfterWrap` | src/mb-latency-diagnostics.c:99-107 | the bound cannot be dropped: 2^64 latencies below one millisecond wrap their bucket to 0 and the return is reached at every percentile |
| `Latency.PercentileMonotone` | src/mb-latency-diagnostics.c:89-108 | a higher percentile never yields a lower bucket |
| `Latency.SumUpToAll` | src/mb-latency-diagnostics.c:77-80 | the buckets sum to the number of observations |
| `Latency.BucketMeans` | src/mb-latency-diagnostics.c:74-80 | a bucket stands for one whole millisecond, the last one for all from 255 ms on |
| `Latency.PercentileShares` | src/mb-latency-diagnostics.c:89-108 | where the arithmetic fits: at least the asked share of the latencies is below the millisecond after the result, and a smaller share below the result |

## Left out

- BlueZ, D-Bus, GATT discovery, RtKit, ALSA calls and sockets. A GATT write is a parameter that succeeds or fails, the fence seen by the transmit loop a parameter per check, the clock a parameter, the ALSA byte encoder a sink of bytes; resetting that encoder is not modelled.
- The user interface, the control tool, configuration, statistics, logging, name tables, scoring of devices and characteristics: nothing of them carries a hard property.
- The two flows side by side of src/mb-duplex-runtime.c: nothing beyond one flow. device_tx_consume adds one more fence check before `Transmit.WritePacket`.
- Null-pointer guards, a queue used before it is initialised, and allocation failure.
- Counters are unbounded except where wrap-around matters: histogram buckets, totals and ranks, epochs, and the reconnect count are 64 or 32 bits.
- RingModel.SliceRing.PushItem: asks for fewer than 2^31 pushes on a ring, because beyond that the signed sequence numbers of the source overflow.
- RingModel.SliceRing.PushShared: the same bound.
- RuntimeFlow.RuntimeFlow.PushBytesWithEpoch: the same bound; so does a push in the step machine.
- RuntimeFlow.RuntimeFlow.DropPending: in sequence only. The session thread does call it while the worker runs, as a second consumer of a ring made for one; that is `SecondConsumer` and `DropDamage`.
- SecondConsumer.DropsOutsideTakeAreHarmless: a drop is one step, the best case for the code; drops whose own steps mix with those of the worker or the producer are not modelled, and neither is the counting of drops there.
- DropDamage.DropPendingIsSafeExactly: the whole loop of drops is uninterrupted and the worker is alone until it has left its take; what the other threads can do to the frames before that is outside.
- DropDamage.DroppedItemIsDeliveredEmpty: the worker stays alone until the callback has returned; a producer that claims the freed frame first is outside.
- QueueTheorems.DeliveredInOrder: assumes sequentially consistent atomics and counts a payload byte, a header field or a field of a ring item as one access; `occupied` and the statistics counters, which the source updates without atomics from both sides, are not in the step machine, and neither is the depth notification.
- QueueTheorems.StopReturns: the worker is left to run alone; for all other interleavings `QueueTheorems.StopIsBounded` limits the worker's steps, and a producer that never stops pushing is free to keep it busy.
- BleMidiDecoder.Decoder.DecodePacket: the body of the outer loop after the timestamp is split into methods of its own, DispatchFirst, DispatchData and DispatchStatus; the emit callback is a sequence that grows.
- Session.Session.HandleEvent: the handlers before the per-state table are split over several methods, tried in order, and the table has one method per state.
- SessionTraces.FlagsInEveryRun: the path that forgets a device and sets its port to -1 while streaming is not among the calls.
- Registry.SessionTable.EnsureSession: sessions are handles into a map of live sessions rather than heap objects, so that freeing and dangling can be stated; what a session holds besides its identity is in `Session`. The place that changes a session's identity behind the registry's back is not among the calls.
- ReceivePeriods.PeriodsStartClean: session events of one device are handled by one thread; the item queue in front of the worker is `RuntimeFlow` and not repeated here, so any item may arrive at the check at any time.
- Lifecycle.NothingIsForgotten: what processing a command does is outside; a command's reason text is not kept.
- Transmit.WritePacket: the loop is in SendChunks and the making of one packet in BuildPacket.
- Transmit.TransmitRoundTrip: that the ALSA decoder (src/mb-daemon.c:4099) returns one message per call, its status dropped only when it is the last channel status returned, is taken from it as foreign behaviour; src/mb-alsa-port.c:69-70 leaves its running status on. Items lost before they are written are outside; what a lost status change does is `MidiLimits.LostStatusChange`.
