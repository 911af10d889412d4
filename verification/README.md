# ringfire: a verified model

ringfire moves messages between processes through rings in shared memory: one writer and many
readers, many writers and competing workers, optional lossless flow control, variable-sized blobs in
a byte arena, and replication of a ring to other hosts over UDP and TCP. This project models the
protocols behind that and proves them with Dafny 4.11:

    dafny verify dfyconfig.toml

The concurrent protocols are step systems. One step is one atomic load, store or compare-and-swap,
one copied word or byte, one frame sent or received; any process may stop at any step. A run is any
interleaving, the invariants are proved step by step, and the theorems speak of every state of every
run. Memory is sequentially consistent at that grain, the fences of the code being the reason, except
for sleeping and waking, where each producer's store buffer is part of the state. Timers fire whenever
they like. What the code keeps in fields and changes in place is also written as classes whose methods
are proved against functions over their state, with the other side standing still.

## Layout

| file | what it models |
|---|---|
| `Basics`, `Modular` | shared notions; sequences landing on a cycle of slots or bytes |
| `Wire` | frame headers, blob descriptors, records, DATA frames and the collector's loop |
| `Mirror` | the replication receiver: what its operations do, hole coverage, and the class |
| `SourceRing`, `Stream` | what replication needs of the source ring; the serving cursors |
| `Faithful`, `Account` | frames made of the source's records; every sequence written or given up |
| `ReplicaUdp`, `ReplicaTcp`, `Replica` | source, network and mirror together, in each mode and in either |
| `Reception` | what becomes of each datagram and frame a mirror takes, early ones above all |
| `CatchUp`, `TcpCatchUp` | how a mirror can always be brought up to its source |
| `Origin` | replication of the concrete ring: pushing, reading load by load, network and mirror |
| `MirrorRing`, `MirrorProgress` | from a producer's push to a consumer of the mirror's own ring and arena |
| `SlotProtocol`, `Consumer` | the slot protocol word by word; broadcast consumers, dense and sparse |
| `Receiving`, `BlobReceiving`, `BlobPushing` | what is there is received, holes are skipped, pushes are completed |
| `Arena`, `BlobRing`, `BlobConsumer` | the arena, pushing blobs and receiving them, dense and sparse |
| `EmptyBlobs` | runs in which a message with an empty payload is dropped |
| `SourceReads` | the concrete ring read by replication refines `SourceRing` |
| `Lossless`, `Exposure` | registry, cached gate, registry scans; what a reader can lose before a scan |
| `Backpressure`, `Progress` | waiting for headroom, and how every wait can end |
| `Mpmc`, `MpmcQueue` | the multi-producer queue: slots, and where every ticket ends up |
| `QueueProgress`, `PushProgress` | how the calls of workers and producers come to their ends |
| `UnseenDrop` | a ticket dropped although its message is there |
| `MpmcBroadcast`, `BroadcastProgress` | broadcast readers on a multi-producer ring |
| `Futex` | sleep and wake over store buffers with an asymmetric barrier |
| `Backing` | exclusive creation of the backing file |
| `Registry`, `Spmc`, `BlobChannel` | the registry, ring and blob channel as classes |

## Findings

- An empty blob counts as lapped once more than one arena has been reserved, at either of the
  consumer's two checks (`src/blob.rs:451` and `src/blob.rs:459`), although it has no bytes to lose.
  `BlobConsumer.EmptyPayloadsCountAsLapped` gives the exact condition, `EmptyBlobs.DroppedAtFirstCheck`
  and `EmptyBlobs.DroppedAtSecondCheck` give runs. Replication guards against it
  (`src/replication.rs:847`).
- A wake-up can be lost despite the barrier when a multiple of 2^32 wake-ups fall between a consumer's
  load of the futex word and its sleep. `Futex.SleepsThroughIffWrapped` and `Futex.WrapLosesWakeup`
  say exactly when; the bounded sleep ends it.
- A lossless reader is protected from the scan that reads its cursor on, as the documentation says,
  not from its registration on. `Exposure.CachedGateIsBlind` says exactly when pushing on without a
  scan can destroy the message a registered reader is waiting for,
  `Exposure.RegisteredReaderLosesItsMessage` gives a run, and `Lossless.NewReadersArePickedUpSoon` says
  for how long.
- On a multi-producer ring a broadcast reader that was lapped can skip messages that are still in
  their slots, because it skips by the newest sequence published (`src/spmc.rs:780-794`). It loses
  exactly the published messages of the stretch all of whose slot's later tickets have not won the
  slot, be it that their producers still wait for it or that they have given up
  (`MpmcBroadcast.SkipLosesIffLaterUnwon`). `MpmcBroadcast.SkipsAMessageStillThere` gives a run with a
  producer held up and `MpmcBroadcast.SkipsWithNobodyHeldUp` one in which every producer is done.
  Nothing readable is lost while all tickets a ring ahead of the cursor, up to the newest sequence in
  view, have won their slots (`MpmcBroadcast.SkipIsCleanWhenAllWon`); on a single-producer ring it
  cannot happen (`Consumer.OnlyOverwrittenMessagesAreSkipped`).
- A worker of the multi-producer queue that looks at its ticket's slot before the message is published,
  and then finds the producers' ticket counter more than a ring ahead, drops the ticket as overwritten
  (`src/mpmc.rs:296-300`) although the message may have been published between the two loads and lie in
  its slot. `UnseenDrop.UnseenDropLosesIffLaterUnwon` says exactly when that loses a message, and
  `UnseenDrop.DropsAMessageStillThere` gives a run. In every other case a published message that is in
  its slot is returned (`QueueProgress.PendingMessageIsReturned`).
- A DATA frame whose body reaches 4 GiB announces a wrapped length, because the length is cast to 32
  bits (`src/replication.rs:954-964`): exactly the frames below that announce the length they have
  (`Wire.LengthIsAnnouncedIffBelow4GiB`), and a single well-formed arena record can get there
  (`Wire.OversizedFrameIsMisannounced`), since the arena takes blobs of up to 2^32 - 1 bytes and a record
  is never split. The theorems on replication ask for smaller records.

## Model

| member | source | states |
|---|---|---|
| `ReplicaUdp.MirrorWritesTheSource` | src/replication.rs:2253-2290 | In every run with lost, repeated and reordered datagrams the mirror writes in strictly increasing sequence order, each sequence at most once, and each record equals the one the source pushed under it |
| `ReplicaUdp.EverySequenceAccountedFor` | src/replication.rs:2400-2418 | From where the mirror joined to its write position every sequence was either written or given up, never both; one given up was already unrecoverable at the source when the GAP covering it was sent |
| `ReplicaUdp.GapsPassOnlyTheGone` | src/replication.rs:1721-1762 | A GAP carries the state of the source at the very step that sent it, and everything it passes over was overwritten or lapped in that state |
| `ReplicaUdp.AnswersLeaveNothingOut` | src/replication.rs:1735-1760 | While a request is answered, the frames sent for it tile the range from its start to the cursor exactly, so nothing is passed without DATA or GAP |
| `ReplicaUdp.AnswersStayWithinRequests` | src/replication.rs:1735-1760 | In every run the frame gathered in answer to a request never goes past the request's end |
| `ReplicaUdp.RetransmissionContinues` | src/replication.rs:2511-2545 | Every NAK in flight starts at or below the mirror's write position and every DATA or GAP in flight at or below the position reached after the frames before it |
| `ReplicaUdp.RetransmittedDataIsNeverParked` | src/replication.rs:2400-2408 | Taking a retransmitted DATA frame adds nothing to the parked datagrams and carries the write position past its last record |
| `ReplicaUdp.HolesAreAlwaysAskedFor` | src/replication.rs:2456-2521 | At every step boundary parked sequences exceed the write position, an outstanding NAK covers it, and parked datagrams imply a NAK that starts exactly there; no run meets a protocol error |
| `ReplicaUdp.StepKeeps` | src/replication.rs:2294-2378 | Every step of producer, sender, answering thread, network and mirror keeps the whole invariant, and frames it adds to the connection describe the source as it is at that step |
| `ReplicaUdp.DatagramArrives` | src/replication.rs:2425-2452 | The bytes of an honest datagram make the mirror apply exactly the records, or note exactly the sequence, that the source put in |
| `ReplicaUdp.GapTaken` | src/replication.rs:2410-2418 | Taking a GAP keeps the invariant, including the balance of written and given-up sequences, even when it jumps over parked datagrams |
| `CatchUp.MirrorCanCatchUp` | src/replication.rs:2294-2378 | Every run that has come to a source with no push under way can be continued, by finitely many reads, frames, answers and receipts, with one heartbeat datagram a round getting through and requests timing out, to where the mirror's position is just past the newest message; nothing is pushed meanwhile |
| `CatchUp.Answers` | src/replication.rs:1721-1762 | An answer under way can always be finished, and the frames then in flight carry the mirror past all that was asked for and exists |
| `CatchUp.OneRead` | src/replication.rs:866-914 | One read of a source at rest moves a serving cursor on: by a record, past a lapped blob, or by the resynchronisation it leads to |
| `CatchUp.BatchCarriesOn` | src/replication.rs:2425-2472 | In every state of every run a batch in line with the mirror's position can be sent and received as one datagram, which carries the mirror past its last record, and with nothing parked makes it ask for nothing |
| `Origin.EverySequenceAccountedFor` | src/replication.rs:809-861 | With the producer of the concrete ring, every load of the source's reads, the network and the mirror interleaved, in either mode each sequence from the mirror's first one to its position was written once, in increasing order, or given up after the source had lost it |
| `Origin.MirrorWritesWhatWasPushed` | src/replication.rs:809-861 | What the mirror wrote under a sequence is what the producer pushed under it into the concrete ring, slot payload and blob bytes |
| `Origin.ReadsGoOn` | src/replication.rs:809-861 | A read under way during replication always has a defined next load |
| `Origin.LoadStepKeeps` | src/replication.rs:835-909 | The outcome of a read, with its loads spread over producer steps, is one the abstract ring allows, so taking it in is a step of the replication protocol |
| `MirrorRing.MirrorDeliversBlobs` | src/blob.rs:440-492 | End to end, over UDP or TCP: whatever the network loses, repeats or reorders, however often the producer laps the reads of the source and the mirror its own consumers, a consumer of the mirror's blobs returns, in strictly increasing order, under each sequence the metadata and the payload bytes that the producer pushed under it |
| `MirrorRing.MirrorDeliversTheSource` | src/spmc.rs:833-875 | A consumer of the mirror's slots returns, in strictly increasing order, under each sequence what the producer stored in its slot, apart from where in the arena the blob is; without an arena that is the whole message |
| `MirrorRing.OnlyTheLostAreMissed` | src/spmc.rs:798-827 | A sequence from the mirror's first one on that a consumer of its slots passes without returning it was given up by the mirror after the source had lost it, or the mirror's ring has lapped it |
| `MirrorRing.OnlyTheLostBlobsAreMissed` | src/blob.rs:386-434 | A consumer of its blobs misses besides only messages whose bytes the mirror's arena has lapped |
| `MirrorRing.WritesInOrder` | src/replication.rs:1095-1131 | The record to be written next always lies above everything in the mirror's ring, and its blob fits the mirror's arena |
| `MirrorRing.NextRecordCanBeWritten` | src/replication.rs:1095-1131 | In every reachable state in which the mirror is between two records it can begin writing the next one it logged, with that record's sequence and blob, until the arena's counter runs out |
| `MirrorRing.PushRelocates` | src/replication.rs:1110-1131 | What the mirror stores in the slot is the source's descriptor with the blob reference moved to where the blob was placed |
| `MirrorRing.StepKeeps` | src/replication.rs:2253-2290 | Every step of producer, reads, network, mirror, ring and arena writer and consumers keeps: the mirror's ring holds nothing but the source's records and all that was taken from the log |
| `MirrorProgress.ReadersCanGetEverything` | src/replication.rs:1095-1131 | From every reachable state, over UDP or TCP, the mirror's writer and a consumer of its slots can go on, with nothing more arriving, to where all the mirror has logged is behind the consumer: each message from the mirror's first one on returned to it, given up by the mirror after the source had lost it, or a full ring back |
| `MirrorProgress.ReceiversCanGetEverything` | src/blob.rs:386-434 | So can a consumer of its blobs, which may besides miss messages whose bytes the mirror's arena has lapped |
| `MirrorProgress.RingCanBeLevelled` | src/replication.rs:1095-1131 | From every reachable state the mirror's writer can take everything logged to its ring and announce it, while the arena's 64-bit counter lasts |
| `MirrorProgress.ReadersCanCome` | src/spmc.rs:695-706 | A consumer can attach to the mirror's ring at any time and begins where its mode says |
| `MirrorProgress.ReceiversCanCome` | src/blob.rs:313-352 | A consumer of the mirror's blobs can attach at any time and begins at the oldest message retained |
| `ReplicaTcp.TcpLockstep` | src/replication.rs:2165-2214 | While the source keeps one numbering the frames in flight tile the range from the mirror's position (from the announced start before the first arrives) to the server's cursor; no frame lies behind the mirror, so its ring is never started over |
| `ReplicaTcp.TcpMirrorIsFaithful` | src/replication.rs:1670-1697 | A TCP-only mirror too writes each sequence once, as pushed and in order, or gives it up after the source lost it |
| `ReplicaTcp.NextInLine` | src/replication.rs:1586-1594 | The next frame starts at the mirror's position; only the first may start above it, and then over sequences already gone when the mirror joined |
| `ReplicaTcp.HelloStarts` | src/replication.rs:1586-1594 | A connection for the latest starts just past what is announced, for the oldest at the oldest message retained, and for a sequence there or, if it is lost, at the oldest retained, over nothing that is still there; only a sequence not reached yet is refused |
| `ReplicaTcp.HeartbeatIsNoted` | src/replication.rs:2165-2214 | A heartbeat on a TCP-only connection raises the sequence the source is known to have reached, and changes nothing else |
| `TcpCatchUp.TcpMirrorCanCatchUp` | src/replication.rs:2165-2214 | Every run that has come to a source with no push under way can be continued, by finitely many reads, frames and receipts, to where the TCP-only mirror's position is just past the newest message |
| `Account.AccountAdvances` | src/replication.rs:2477-2499 | Giving up a stretch the source has lost and then writing the next one leaves every sequence accounted for exactly once |
| `Faithful.RecordsWrittenHonest` | src/replication.rs:2253-2290 | Writing the frame of consecutive source records appends exactly those at or above the write position |
| `Faithful.AdvancedHonest` | src/replication.rs:2477-2499 | After the write position moved, what is written out of the parked datagrams continues the source's records without a hole |
| `Faithful.AppliedHonest` | src/replication.rs:2456-2472 | Applying a frame of source records, early, late or overlapping, only ever extends the ring by the source's next records |
| `Stream.GatheredOk` | src/replication.rs:866-909 | Reading on keeps a serving cursor's batch a slice of what was pushed, and the frames it puts out are true and tile exactly the stretch the cursor moved over |
| `Stream.GatheredGoesOn` | src/replication.rs:866-909 | A record read joins the batch; a slot not ready, overwritten or with its blob lapped sends what was gathered first, and leaves the cursor there, marked for resynchronising, or just past the lost record |
| `Stream.ResyncedOk` | src/replication.rs:1744-1751 | A lapped cursor goes to the oldest message retained behind the newest it knows of; its GAP is true, passes only over what is gone, and continues the tiling |
| `Stream.StartedOk` | src/replication.rs:1729-1734 | The GAP that opens an answer reaches from the requested start to the oldest message retained and passes only over what is gone |
| `Stream.FlushOk` | src/replication.rs:1740-1743 | Sending the collected batch moves the cursor by exactly its records |
| `Stream.AnswerDecodes` | src/replication.rs:954-964 | The bytes of every honest DATA or GAP frame decode to its kind, count, length, sequence and records |
| `Stream.AnswerFits` | src/replication.rs:2235-2249 | Every honest DATA frame passes the receiver's size check |
| `SourceRing.ProducesKeepsOk` | src/spmc.rs:285-297 | Claiming, finishing and announcing a message and lapping blobs keep the abstract source well formed and never take back what was pushed |
| `SourceRing.ResyncSkipsOnlyGone` | src/replication.rs:912-914 | Everything between a cursor and where resynchronising puts it is gone from the ring |
| `Mirror.AdvancedCovers` | src/replication.rs:2477-2499 | Whatever bytes were parked, an advance that does not fail ends with every hole covered and asks only from the new write position |
| `Mirror.AppliedCovers` | src/replication.rs:2456-2472 | Whatever bytes a frame holds, applying it without error keeps hole coverage; a frame at or below the write position is never parked |
| `Mirror.DatagramKeepsHolesCovered` | src/replication.rs:2425-2452 | Hole coverage survives every datagram, whatever its bytes |
| `Mirror.ControlKeepsHolesCovered` | src/replication.rs:2400-2423 | Hole coverage survives every control frame, whatever its header and body |
| `Mirror.TimeoutKeepsHolesCovered` | src/replication.rs:2337-2346 | Repeating a request that timed out keeps hole coverage |
| `Mirror.RelocationKeeps` | src/replication.rs:1110-1131 | A mirrored blob's descriptor keeps metadata and length, and keeps its flags if and only if the blob is not empty or the flags are zero |
| `Mirror.Mirror.constructor` | src/replication.rs:1955-1963 | A new mirror starts at the announced sequence, at least 1, a resumed one where its ring stands; with nothing parked and nothing asked for |
| `Mirror.Mirror.SendNak` | src/replication.rs:2523-2545 | Sends one request and makes it the outstanding one |
| `Mirror.Mirror.Request` | src/replication.rs:2511-2521 | Afterwards the outstanding request starts at the sequence given and reaches the end of the hole, or as far as one request may name; a new one is sent unless the one outstanding did so already and has not expired |
| `Mirror.Mirror.CutRecord` | src/replication.rs:2260-2281 | Succeeds exactly when a whole record is there, and cuts its descriptor and its blob off the front |
| `Mirror.Mirror.WriteRecords` | src/replication.rs:2253-2290 | The in-place loop over a frame refines the recursive specification, error by error, including records written before a fault |
| `Mirror.Mirror.FirstParked` | src/replication.rs:2485-2487 | Finds the lowest parked sequence, if any |
| `Mirror.Mirror.TakeParked` | src/replication.rs:2479-2497 | One round of the advance loop refines the specification's round, including its decision to stop |
| `Mirror.Mirror.AfterAdvance` | src/replication.rs:2477-2499 | The loop refines the recursive specification and terminates |
| `Mirror.Mirror.Apply` | src/replication.rs:2456-2472 | Records already written change nothing; early ones are parked with their count and bytes while there is room, the hole in front of them is asked for and nothing is written; any others carry the write position past the last of them; hole coverage is kept unless it fails |
| `Mirror.Mirror.OnSourceSeq` | src/replication.rs:2501-2508 | Refines the specification and keeps hole coverage |
| `Mirror.Mirror.HandleControl` | src/replication.rs:2400-2423 | Refines the specification for every frame kind, of which the `Reception` rows say what becomes, and keeps hole coverage unless it fails |
| `Mirror.Mirror.HandleDatagram` | src/replication.rs:2425-2452 | Refines the specification for any bytes, of which the `Reception` rows say what becomes of each kind of datagram, and keeps hole coverage unless it fails |
| `Mirror.Mirror.StepTcp` | src/replication.rs:2165-2214 | Refines the specification of a TCP-only mirror, which `Reception.TcpDataIsWritten` and `Reception.TcpControlFramesTaken` describe frame by frame |
| `Reception.EarlyIsKept` | src/replication.rs:2456-2468 | Records that arrive ahead of the write position are kept with their count and bytes, unless their sequence is parked already or 8192 datagrams are; nothing parked is dropped, nothing is written, and the hole in front is asked for |
| `Reception.EarlyDatagramIsKept` | src/replication.rs:2425-2452 | An early datagram of the session adds exactly the count and the payload bytes it came with to the parked ones |
| `Reception.EarlyIsWrittenInTime` | src/replication.rs:2469-2499 | When source records that reach a parked datagram arrive, the write position passes the parked records too, and every record from the old position on is in the mirror's ring as the source pushed it |
| `Reception.GapReleasesParked` | src/replication.rs:2410-2418 | So does a GAP that reaches the parked datagram |
| `Reception.AdvancedUsesParked` | src/replication.rs:2477-2499 | However far an advance goes, each parked datagram is still parked afterwards or its records lie behind the write position |
| `Reception.HoleIsAskedFor` | src/replication.rs:2477-2499 | Where an advance ends with datagrams parked, all lie ahead and the hole up to the first of them, or as much of it as one request may name, is asked for, by a new request no further |
| `Reception.WritesWhatParses` | src/replication.rs:2253-2290 | Whatever bytes a DATA payload holds, writing it fails if and only if it is not the announced number of whole records and nothing else, or one to be written has a blob larger than the arena; otherwise exactly its records at or above the write position are written |
| `Reception.StrangersChangeNothing` | src/replication.rs:2425-2452 | A datagram that is too short, of another session, of a size no record list has, truncated or of another kind leaves the mirror as it was |
| `Reception.HeartbeatsAreNoted` | src/replication.rs:2501-2508 | A heartbeat, by datagram or connection, raises the announced sequence and has what is missing asked for, and changes nothing else |
| `Reception.ControlFramesTaken` | src/replication.rs:2400-2423 | Retransmitted records are counted, a GAP ahead of the write position moves it and is counted, a stale one changes nothing, and frames of a wrong size or kind end the connection |
| `Reception.AppliedCounts` | src/replication.rs:2253-2290 | What is written is announced at once, parked records that follow included, and applying a frame changes no other counter |
| `Reception.RepeatedAsItWas` | src/replication.rs:2337-2346 | A request that timed out is sent again as it was |
| `Reception.TcpDataIsWritten` | src/replication.rs:2165-2214 | A TCP-only mirror writes the records of a frame in line with its ring, ahead of a counted hole, or, when the source has begun again below, into a fresh ring that holds nothing else |
| `Reception.TcpControlFramesTaken` | src/replication.rs:2165-2214 | On a TCP-only mirror a GAP ahead moves the position and is counted, a heartbeat raises the announced sequence, and anything else that is not records ends the connection |
| `Wire.DataFrameRoundTrip` | src/replication.rs:866-964 | Every list of fixed or blob records that fits the count and length fields survives the wire: the header decodes, the size check passes, and the parser returns the same records and uses up every byte |
| `Wire.ParseInvertsEncode` | src/replication.rs:2253-2290 | The receiver's walk inverts the collector's layout on every well-formed record list |
| `Wire.ParseSound` | src/replication.rs:2253-2290 | Whatever the walk accepts is the layout of the records it returns, so no two record lists share a frame |
| `Wire.HeaderRoundTrip` | src/replication.rs:472-490 | Frame headers survive little-endian encoding |
| `Wire.HeaderLayout` | src/replication.rs:472-490 | Kind and flags come first, then count, length and sequence in two, four and eight bytes, each with the byte of weight 256 to the i at place i |
| `Wire.LeRoundTrip` | src/replication.rs:476-478 | Every word that fits its width reads back as written |
| `Wire.RefReadsBack` | src/replication.rs:690-705 | Blob descriptors survive being written at the end of any slot payload and read back |
| `Wire.EncodedSizeOk` | src/replication.rs:2235-2249 | The collected bytes of well-formed records pass the size check |
| `Wire.SizesOkIffSomeRecords` | src/replication.rs:2235-2249 | With an arena below 4 GiB a count and a length pass the receiver's size check if and only if some list of so many well-formed records is so many bytes long |
| `Wire.LengthIsAnnouncedIffBelow4GiB` | src/replication.rs:954-964 | The header announces the body's length if and only if that is below 4 GiB |
| `Wire.OversizedFrameIsMisannounced` | src/replication.rs:954-964 | There is a well-formed arena record, a single one, whose frame body is 4 GiB and is announced as empty |
| `Wire.Collect` | src/replication.rs:866-909 | Appends exactly the records read, never splits one, exceeds the byte budget only for a first record, reports why it met a lapped or lost one, and stops early only for a reason |
| `SlotProtocol.WriterKeeps` | src/spmc.rs:132-139 | Marking, copying word by word, finishing and announcing keep every slot whole or marked, and never change what was published |
| `SlotProtocol.SlotMovedOn` | src/spmc.rs:173-191 | A slot found past a message means the writer is a full ring ahead of it |
| `SlotProtocol.GoneForever` | src/spmc.rs:132-139 | A message that has left its slot never comes back |
| `SlotProtocol.DenseGone` | src/spmc.rs:1088-1090 | In a dense ring exactly the messages a full ring behind the last claimed one are gone |
| `SlotProtocol.ReadStepKeeps` | src/spmc.rs:173-191 | Each load of a slot read keeps this: words copied so far are the message's while its slot is untouched; a finished read holds the whole message or one that was overwritten |
| `SlotProtocol.ReadUndisturbed` | src/spmc.rs:173-191 | Whatever the writer does between two loads, what a read under way knows stays true |
| `Consumer.DeliveriesAreWholeAndCounted` | src/spmc.rs:833-875 | However often it is lapped, a consumer returns only whole messages in strictly increasing order, and deliveries plus the lapped count equal the cursor's advance |
| `Consumer.OnlyOverwrittenMessagesAreSkipped` | src/spmc.rs:780-794 | On a dense ring a message passed without being returned had been written and its slot taken again a full ring later |
| `Consumer.SkipHoleSkipsOnlyHoles` | src/spmc.rs:803-828 | Skipping a hole starts at a sequence never written, strictly advances, counts what it passes, passes no message of the retained window that is not gone for good, and stops at a present one or past the announced sequence |
| `Consumer.SkipHoleTerminates` | src/spmc.rs:815-821 | Every load that does not end the scan brings it closer to the announced sequence it started from |
| `Consumer.HoleIsReal` | src/spmc.rs:803-814 | An older lap in the cursor's slot behind the announced sequence proves the message was never written there |
| `Consumer.HolesStayHoles` | src/replication.rs:1140-1144 | A hole that was skipped can never be filled later |
| `Consumer.AttachHolds` | src/spmc.rs:695-706 | Attaching in any mode to a ring in any state starts the accounts balanced |
| `Consumer.AttachPlaces` | src/spmc.rs:695-706 | Oldest: every message announced and retained is at or after the cursor, which is the first of them. Latest: the newest one, or 1. Head: just past the announced ones. A sequence: there, unless it is no longer retained, and then at the oldest retained, with the distance counted |
| `BlobConsumer.AttachPlaces` | src/blob.rs:313-352 | A blob consumer begins at the oldest message announced and retained, with nothing counted |
| `Consumer.ActKeeps` | src/spmc.rs:833-875 | Every load and local step of the consumer keeps deliveries, skips and counters right; that it gets anywhere is in the `Receiving` rows |
| `Receiving.NextIsReturned` | src/spmc.rs:833-875 | With the writer at rest, on dense and sparse rings, wherever in its loops a consumer stands, finitely many of its loads return the next message whole, counting what lies before it as lapped, or bring it past the announced sequence; no message that is in its slot and retained is passed |
| `Receiving.RunsReturnFirstPresent` | src/spmc.rs:833-875 | Whenever the writer has come to rest in a run, finitely many loads of the consumer bring it to the first message present at or above its cursor, whatever holes lie in front of it, and return exactly that message |
| `Receiving.RunsSkipHoles` | src/spmc.rs:803-828 | And with no message present, past the announced sequence with nothing returned |
| `Receiving.MessageAtCursorIsReturned` | src/spmc.rs:173-191 | A call that begins at a message in its slot returns it, even if the writer is more than a ring ahead |
| `Receiving.FromHole` | src/spmc.rs:852-862 | A consumer that polls at a hole of a sparse ring skips it after at most 64 empty polls, passing nothing that is there |
| `Receiving.ReadsEverything` | src/spmc.rs:833-875 | Message after message, finitely many loads bring a consumer past everything announced |
| `Receiving.CallsReturn` | src/spmc.rs:833-875 | Whatever the writer was doing when it stopped, the call a consumer is in comes to its end by finitely many of its own actions |
| `Consumer.WriterKeepsConsumer` | src/spmc.rs:132-139 | Every step of the writer leaves what a consumer holds true |
| `Modular.SameRemainder` | src/spmc.rs:286-287 | Two sequences that share a slot are equal or at least a full ring apart |
| `Modular.IxIsRemainder` | src/spmc.rs:286-287 | The slot of a sequence is its remainder by the capacity, which the mask computes for powers of two |
| `Arena.BlobsAreDisjoint` | src/arena.rs:135-179 | With any number of threads reserving at once every blob is cache-line aligned, contiguous inside the arena and disjoint from all others in the logical stream |
| `Arena.EveryOverwriteIsDetected` | src/arena.rs:249-253 | Once a later reservation covers a byte of a blob, the blob counts as lapped from then on |
| `Arena.ReservationGoesThrough` | src/arena.rs:149-177 | In every state of every run a thread left alone gets its blob by one load and one swap, at the first place behind everything reserved where it fits, and what others have reserved stays |
| `Arena.StaleSwapFails` | src/arena.rs:166-177 | A thread whose counter is out of date reserves nothing |
| `Arena.OverlapMeansLapped` | src/arena.rs:249-253 | Two blobs that share a physical byte are a whole arena apart in the logical stream |
| `Arena.PlaceOk` | src/arena.rs:154-164 | A placement never goes backwards, is aligned, and fits before the arena's end |
| `Arena.PlaceIsFirstFit` | src/arena.rs:152-164 | A blob starts at the least position at or above the counter found from which it lies inside one lap of the arena, which is the counter itself or the beginning of the next lap, and the new counter is its end rounded up to whole cache lines |
| `Arena.StepKeeps` | src/arena.rs:149-177 | Loads, failed and successful swaps keep all blobs ordered, aligned and in bounds |
| `Arena.SlotFits` | src/arena.rs:147-148 | A payload that fits the arena still fits once rounded up to cache lines, so a fresh blob is not lapped |
| `Arena.Joins` | src/arena.rs:183-190 | Writing a new blob stores it and leaves every blob that is not lapped byte for byte as it was |
| `Arena.PayloadArena.Reserve` | src/arena.rs:135-179 | The empty, fitting and too large cases; a fitting blob takes the first place where it lies inside one lap, and the counter then stands at its end rounded up to cache lines |
| `Arena.PayloadArena.CopyIn` | src/arena.rs:183-190 | The byte loop lays the payload over the arena and changes nothing else |
| `Arena.PayloadArena.WriteBlob` | src/arena.rs:183-190 | Stores the payload at the first place where it fits, keeps all earlier blobs that are not lapped, and the new one is not lapped; too large a payload changes nothing |
| `Arena.PayloadArena.ReadBlob` | src/arena.rs:210-228 | An empty blob reads as empty; one outside the arena and one too large for the caller's room are refused as such; a blob that is not lapped is returned exactly as it was written |
| `BlobConsumer.BlobDeliveriesAreFaithful` | src/blob.rs:440-492 | For every interleaving of byte writes, slot writes and byte copies, on dense and sparse rings, each returned pair of metadata and payload is one that was pushed, in increasing order, and deliveries plus the lapped count equal the cursor's advance |
| `BlobConsumer.OnlyLostBlobsAreSkipped` | src/blob.rs:386-434 | A message passed without being returned can never be read again from its slot, lies a full ring back, or counts as lapped in the arena; on a dense ring it was pushed and only the last two occur |
| `BlobConsumer.ReceivesGoOn` | src/blob.rs:440-492 | In every state of every run, on dense and sparse rings, the consumer's next load or copied byte is defined and in bounds |
| `BlobConsumer.HoleIsReal` | src/blob.rs:386-413 | A slot at an older lap once more has been announced means the message was never written and never will be |
| `BlobConsumer.EmptyPayloadsCountAsLapped` | src/blob.rs:449-463 | At either check, with the descriptor in hand or with the payload copied, an empty payload is dropped as lapped if and only if more than one arena has been reserved by then |
| `EmptyBlobs.DroppedAtFirstCheck` | src/blob.rs:449-455 | That happens: a reachable state holds an empty message that is present in its slot and is dropped at the first check |
| `EmptyBlobs.DroppedAtSecondCheck` | src/blob.rs:456-463 | And so does one that passed the first check and is dropped at the second |
| `BlobConsumer.ActKeeps` | src/blob.rs:440-492 | Every load and copied byte of the receive loop keeps deliveries, losses and counters right |
| `BlobReceiving.NextBlobIsReturned` | src/blob.rs:440-492 | With the writer at rest, on dense and sparse rings, wherever in its loops a blob consumer stands, finitely many of its loads and copied bytes return the next message with metadata and payload as pushed, or bring it past the announced sequence; no message that is in its slot with its payload not lapped is passed |
| `BlobReceiving.RunsReturnFirstWhole` | src/blob.rs:386-434 | Whenever the writer has come to rest in a run, a consumer between two messages returns, by finitely many loads, the first message at or above its cursor that is whole in slot and arena, whatever holes and lost messages lie in front of it |
| `BlobReceiving.TooLongIsLeft` | src/blob.rs:456-459 | A message too long for the caller's buffer stays where it is |
| `BlobReceiving.CallsReturn` | src/blob.rs:440-492 | Whatever the writer was doing when it stopped, the call a blob consumer is in comes to its end by finitely many of its own actions |
| `BlobConsumer.SkipHoleSkipsOnlyHoles` | src/blob.rs:386-413 | A skip of a hole passes no message of the window that is in its slot, counts what it passes, and stops at one that is there or just past the announced sequence |
| `BlobConsumer.DenseNeverLooksForHoles` | src/blob.rs:474-490 | On a dense ring holes are never looked for |
| `BlobConsumer.PushKeepsConsumer` | src/blob.rs:212-229 | Every step of a push leaves what a receiving consumer holds true |
| `BlobRing.PushKeeps` | src/blob.rs:212-229 | Reserving, filling byte by byte, slot writing and announcing keep: messages are the packets in order, and every blob that is not lapped holds what was copied into it |
| `BlobRing.PushKeepsGapless` | src/blob.rs:212-229 | A producer's steps leave no hole in the sequences |
| `BlobRing.FillMisses` | src/arena.rs:183-190 | The byte written next belongs to no earlier blob that is not lapped |
| `BlobRing.ReservationOk` | src/arena.rs:135-179 | A reservation makes a packet with the payload given, at the first place behind everything reserved before where it fits, and not lapped |
| `BlobRing.ReservationNames` | src/blob.rs:212-229 | The slot payload of a push is the metadata given, followed by the name of its blob with the flags given |
| `BlobPushing.PushCompletes` | src/blob.rs:212-229 | Wherever a writer stands in a push, finitely many steps of its own complete it: the newest message is announced and in its slot, and its bytes, unless another reservation has lapped them, are in the arena |
| `BlobRing.RefRoundTrip` | src/replication.rs:690-705 | A descriptor read back from a slot names the blob it was written for |
| `BlobRing.InitHolds` | src/blob.rs:120-175 | A ring just created satisfies the invariant, with no hole |
| `BlobRing.CopyByte` | src/arena.rs:210-228 | One more byte copied from a published blob keeps the copy right unless the blob is lapped |
| `BlobRing.CopyUndisturbed` | src/arena.rs:249-253 | The producer cannot make a copy wrong without making the blob lapped |
| `BlobChannel.DescribeRoundTrip` | src/blob.rs:226-229 | A slot payload gives back the metadata and the blob it was made from |
| `BlobChannel.FirstWhole` | src/blob.rs:448-455 | The message found is not lapped, and every one before it is |
| `BlobChannel.Channel.Push` | src/blob.rs:226-229 | A push extends the packets by exactly one and announces it, or, when too large, changes nothing |
| `BlobChannel.BlobConsumer.SkipOverwritten` | src/blob.rs:415-426 | Moves to the oldest message retained and counts the distance |
| `BlobChannel.BlobConsumer.Offer` | src/blob.rs:448-473 | One message is skipped if lapped, left if it does not fit, and otherwise returned as pushed |
| `BlobChannel.BlobConsumer.Round` | src/blob.rs:446-490 | A round that goes on skips only messages before the next whole one; a round that ends has reached it |
| `BlobChannel.BlobConsumer.NextBlob` | src/blob.rs:440-492 | Returns the first message still in the ring whose blob is not lapped, with its payload as pushed, and counts everything before it; too small a buffer consumes nothing |
| `SourceReads.ProducerRefines` | src/blob.rs:212-229 | Every action of the concrete producer is an action of the abstract source ring or invisible to it |
| `SourceReads.ReadsAreHonest` | src/replication.rs:835-861 | Whatever reading a record returns, with its loads spread over producer steps, holds of the abstract source at its last load |
| `SourceReads.ReadsGoOn` | src/replication.rs:809-861 | Until it has a result a read's next load is defined and in bounds |
| `SourceReads.PresentIsFetched` | src/replication.rs:835-861 | With the producer at rest a record in its slot with its payload not lapped is read, whole, by finitely many loads from wherever the read stands |
| `SourceReads.PendingIsHonest` | src/replication.rs:809-831 | A slot found unready means the message was not pushed, or its slot has been claimed a full ring later |
| `SourceReads.EmptyBlobsHaveNoFlags` | src/blob.rs:226-229 | No message a producer pushes has an empty blob with flags set |
| `SourceReads.MirrorKeepsFlags` | src/replication.rs:1110-1131 | Of every blob that a source run by ringfire's producer can hold, a mirror keeps length and flags wherever it places it |
| `Lossless.LosslessDelivery` | src/spmc.rs:342-351 | For as long as its registration lasts, a reader whose cursor a scan has read and that had missed nothing gets every message, in order, exactly once, with nothing counted lapped |
| `Lossless.CoveredReadersAreProtected` | src/spmc.rs:303-311 | Once a scan, interleaved with everything else, has read a live reader's own cursor, no slot claimed afterwards holds a message at or above that reader's current cursor, however old the cached gate |
| `Lossless.NothingIsLostOnceCovered` | src/spmc.rs:780-794 | Every message a covered reader passes, unless overwritten before it was covered, was returned to it |
| `Lossless.NewReadersArePickedUpSoon` | src/spmc.rs:338-351 | Until a scan reads a newly registered reader's cursor the slots claimed are at most half as many as the ring has, or one |
| `Exposure.CachedGateIsBlind` | src/spmc.rs:303-311 | For every live registered reader that no scan has noticed and that has lost nothing, the producer, pushing on without a scan, can destroy the message at its cursor if and only if the cached gate lies more than a ring above that cursor |
| `Exposure.RegisteredReaderLosesItsMessage` | src/spmc.rs:303-311 | That happens: a run reaches a registered reader with its first message there to read, which the next push, let through by a gate cached before the reader came, destroys |
| `Lossless.TouchesOwn` | src/registry.rs:86-96 | No step of a reader writes to a slot that another live reader owns: slots are taken only when free or their owner is dead |
| `Lossless.ReclaimKeeps` | src/registry.rs:125-130 | Releasing a dead process's slot takes nothing from a live reader |
| `Lossless.ScanLoadKeepsReader` | src/registry.rs:137-147 | Each single load of a registry scan keeps every reader's protection |
| `Lossless.StepKeeps` | src/spmc.rs:342-380 | Every step of producer, readers, crashes and reclaiming keeps the whole invariant |
| `Lossless.Limit` | src/spmc.rs:342-351 | The gate is never further ahead of the next sequence than the greater of half a ring and one, nor of the smallest cursor than a ring, and equals one of the two bounds |
| `Backpressure.BlockedProducerIsNotDeadlocked` | src/spmc.rs:356-380 | In the wait loop everything written is announced, and either no active reader is a full ring behind, or some slot a full ring behind belongs to a dead process or to a reader that can move, in particular one with a message there to read |
| `Progress.WaitingCanEnd` | src/spmc.rs:356-380 | Every run that has come to a producer waiting for room can be continued, by finitely many receive steps and cursor stores of the readers there are, hidings of stale entries, releases of dead processes' slots and loads of the producer's own scans, to where it waits no longer; no reader leaves or dies and the ring is unchanged |
| `Progress.ClearsSlot` | src/registry.rs:137-147 | Whatever registry slot keeps the gate shut, such moves make it stop doing so and leave every other slot as it was |
| `Progress.CatchesUp` | src/spmc.rs:833-875 | While the writer stands still a reader, wherever in its receive loop, gets within less than a full ring of the newest message in finitely many steps |
| `Progress.ReaderCanRegister` | src/registry.rs:81-121 | A reader that has attached can register, by steps of its own, in any slot that is free or whose process is dead: the slot then names its process, holds its cursor and counts as active, and nothing else has changed |
| `Progress.ReaderCanLeave` | src/registry.rs:242-250 | A registered reader can leave by steps of its own: its slot is then inactive and free, and nothing else has changed |
| `Progress.GateDecides` | src/spmc.rs:303-333 | Between messages the cached gate alone decides: the producer can begin the next message if and only if it lies below the gate, and begins to wait, with everything announced, if and only if not |
| `Backpressure.ScanComputesMin` | src/registry.rs:137-147 | Left alone, a scan ends with the smallest cursor of the active slots |
| `Backpressure.MinFrom` | src/registry.rs:137-147 | The result bounds every active cursor and is one of them |
| `Backpressure.UndisturbedScanOpensGate` | src/spmc.rs:342-351 | An undisturbed scan sets the gate the greater of half a ring and one message ahead, or as far as the slowest active reader allows if that is less, and ends the wait exactly when that leaves room |
| `Backpressure.ReadableIsRead` | src/spmc.rs:173-191 | A read of a message that is there, with the writer standing still, returns it |
| `Backpressure.StepKeepsOwners` | src/registry.rs:81-121 | A slot that names a live process always belongs to one of its readers |
| `Registry.ReaderRegistry.Register` | src/registry.rs:81-121 | Takes the first slot that is free or whose process is dead, with the cursor in place and active; with none it changes nothing |
| `Registry.ReaderRegistry.Drop` | src/registry.rs:242-250 | Deactivates the slot and frees it only if it is still the owner's |
| `Registry.ReaderRegistry.UpdateCursor` | src/registry.rs:230-233 | Stores the cursor and changes nothing else |
| `Registry.ReaderRegistry.PruneDeadReaders` | src/registry.rs:202-211 | Frees exactly the slots of dead processes and returns how many there were |
| `Registry.ReaderRegistry.MinCursor` | src/registry.rs:137-147 | The loop computes the smallest cursor of the active slots |
| `Registry.ReaderRegistry.Headroom` | src/registry.rs:165-173 | So many messages can be written without any active reader losing one, and one more would cost some reader one unless nobody is behind |
| `Spmc.WriteRetains` | src/spmc.rs:132-139 | Writing the next message keeps the newest one for every slot and drops only the one a full ring older |
| `Spmc.SlotTells` | src/spmc.rs:173-191 | A slot's word decides whether a message is there, not yet there, or a full ring gone |
| `Spmc.Ring.WriteSlot` | src/spmc.rs:132-139 | Extends what was sent by the item, in place |
| `Spmc.Ring.ReadSlot` | src/spmc.rs:173-191 | Finds a message exactly when it is among the last full ring, reports pending exactly when it was not sent, and otherwise a sequence a full ring newer |
| `Spmc.RingProducer.RefreshGate` | src/spmc.rs:342-351 | Sets the gate the greater of half a ring and one message ahead, or as far as the slowest active reader allows if that is less, and is open exactly when no active reader would lose a message to the next push |
| `Spmc.RingProducer.TryPush` | src/spmc.rs:315-333 | Either sends and announces one message, having set the gate as a scan does and left every active reader's messages in place whenever the registry was consulted, or fails with nothing sent because some active reader sat a full ring behind; at every 1024th failure the dead processes' slots have been released first and some reader is still behind |
| `Spmc.RingProducer.PushBatch` | src/spmc.rs:418-430 | A batch that need not wait is written whole and in order and announced at the end |
| `Spmc.RingConsumer.constructor` | src/spmc.rs:695-706 | Oldest: at the first message announced and retained. Latest: at the newest, or at 1. Head: just past the announced ones. A sequence: there, or at the oldest retained if it is lost, counting the distance |
| `Spmc.RingConsumer.SkipOverwritten` | src/spmc.rs:780-794 | Moves to the oldest message retained and counts the distance |
| `Spmc.RingConsumer.NextItem` | src/spmc.rs:833-875 | Returns the oldest message still in the ring at or after the cursor, however far announcements lag behind, and counts all it skipped |
| `Spmc.RingConsumer.RecvBatch` | src/spmc.rs:909-926 | Fills the buffer with consecutive messages from the oldest retained, as many as there are and fit, and leaves the rest of it alone |
| `MpmcQueue.OneWriterPerSlot` | src/mpmc.rs:170-191 | With any number of producers stalling, taking over and dying, no two are ever writing the same slot |
| `MpmcQueue.PublishedSequencesIncrease` | src/mpmc.rs:153-204 | The sequences published in one slot strictly increase |
| `MpmcQueue.DeliveredItemsAreWhole` | src/mpmc.rs:283-294 | Every item delivered is, whole, the one its producer pushed under that ticket, and each worker delivers in ticket order |
| `MpmcQueue.EveryTicketHasOneFate` | src/mpmc.rs:309-353 | Every ticket drawn is dealt with by exactly one worker, and by it delivered once, dropped or pending |
| `MpmcQueue.TicketsAddUp` | src/mpmc.rs:309-353 | Delivered plus dropped plus pending over all workers is the read counter less one, which never passes the claim counter |
| `MpmcQueue.OnlyLappedTicketsAreDropped` | src/mpmc.rs:294-304 | A ticket is dropped only after the producers have drawn more than a full ring past it |
| `MpmcQueue.PassedMeansLapped` | src/mpmc.rs:283-298 | A slot seen past a ticket means a ticket at least a full ring later was drawn |
| `MpmcQueue.SlotLeft` | src/mpmc.rs:287-294 | A published message that has left its slot never comes back, so a recheck of the same ticket proves the copy whole |
| `MpmcQueue.MovedKeeps` | src/mpmc.rs:309-353 | Whatever a worker does, its tickets grow by exactly the stretch the shared counter moves over |
| `MpmcQueue.StepKeeps` | src/mpmc.rs:153-204 | Every step of producers and workers keeps the whole invariant |
| `MpmcQueue.WorkersGoOn` | src/mpmc.rs:283-353 | In every state of every run each worker's next load or copied word is defined and in bounds, and taking it is a step; what the steps come to is in the `QueueProgress` rows |
| `QueueProgress.PendingMessageIsReturned` | src/mpmc.rs:283-316 | In every state of every run, with everyone else standing still, a worker whose ticket's message is in its slot returns exactly what was pushed under that ticket, by finitely many steps of its own, unless it looked at the slot before the message was there and has been lapped since |
| `QueueProgress.DueMessageIsReturned` | src/mpmc.rs:327-353 | A worker without a ticket draws the one it is due, the next or the first not a full ring behind the producers, counts those before it as dropped, and returns its message if that is in its slot |
| `QueueProgress.LostTicketIsDropped` | src/mpmc.rs:283-322 | A ticket more than a ring behind the producers whose message is not in its slot is dropped and counted, by finitely many steps of the worker |
| `QueueProgress.OpenTicketIsKept` | src/mpmc.rs:283-317 | Any other ticket is one whose message has not been published, and no step of its worker gives it up |
| `QueueProgress.TryRecvNeverBlocks` | src/mpmc.rs:309-353 | In every state of every run the call a worker is in can be finished by finitely many steps of its own |
| `UnseenDrop.UnseenDropLosesIffLaterUnwon` | src/mpmc.rs:283-304 | A worker that looked too early and then finds the producers a ring ahead drops its ticket, and loses a message that is whole in its slot if and only if it has been published by then and no later ticket of the slot has won it |
| `UnseenDrop.DropsAMessageStillThere` | src/mpmc.rs:296-304 | That happens: a run drops message 1, published and in its slot, with the ticket after it drawn but not yet in possession of the slot |
| `Mpmc.WinnerIsNewer` | src/mpmc.rs:177-185 | A producer wins a slot only from an older message and never while it is being written |
| `Mpmc.WritersApart` | src/mpmc.rs:177-185 | Two producers that are writing hold different slots |
| `Mpmc.PushKeeps` | src/mpmc.rs:153-204 | Every step of a push keeps each slot whole or owned by the newest ticket that won it |
| `PushProgress.FreeSlotIsFilled` | src/mpmc.rs:170-204 | A push whose slot nobody is writing and no newer lap has taken goes through by finitely many steps of its producer, after the deadline if the previous lap never came: its item is whole in the slot, announced, and nothing else has changed |
| `PushProgress.TakenSlotIsGivenUp` | src/mpmc.rs:172-197 | A push whose slot went to a newer lap, or is still being written when the deadline passes, gives up and leaves the ring as it was |
| `PushProgress.WriterIsWaitedFor` | src/mpmc.rs:177-200 | Until the deadline a push whose slot is being written goes on trying |
| `PushProgress.PushesReturn` | src/mpmc.rs:153-204 | Wherever a producer stands in a push, finitely many steps of its own, the deadline passing among them, bring it to the end |
| `MpmcBroadcast.BroadcastsAreWholeAndCounted` | src/spmc.rs:833-875 | A broadcast reader on a multi-producer ring returns only whole messages in increasing order, whatever order slots are published in, and deliveries plus the lapped count equal the cursor's advance |
| `MpmcBroadcast.OnlyOutrunMessagesAreSkipped` | src/spmc.rs:856-873 | A message it passes without returning lies a full ring behind one that was published |
| `MpmcBroadcast.SkipsAMessageStillThere` | src/spmc.rs:780-794 | Being outrun is not being overwritten: a run makes the reader skip message 2 while it is in its slot, with the producer of message 4 yet to win that slot |
| `MpmcBroadcast.SkipsWithNobodyHeldUp` | src/mpmc.rs:181-194 | The same with no producer at work: message 4's producer had given up on the slot while message 2 was being written |
| `MpmcBroadcast.PresentIffLaterUnwon` | src/mpmc.rs:177-185 | A published message is still in its slot if and only if no later ticket of that slot is being written or has been published |
| `MpmcBroadcast.SkipLosesIffLaterUnwon` | src/spmc.rs:780-794 | A lapped reader's skip passes a message that is still in its slot if and only if the message was published, lies in the stretch, and every later ticket of its slot is still waited for by its producer or was given up |
| `MpmcBroadcast.SkipIsCleanWhenAllWon` | src/spmc.rs:780-794 | A skip loses nothing readable when every ticket from a ring ahead of the cursor up to the newest sequence in view has won its slot |
| `MpmcBroadcast.ActKeeps` | src/spmc.rs:833-875 | Every load of the receive loop, its multi-producer branch included, keeps deliveries, skips and counters right |
| `BroadcastProgress.MessageAtCursorIsReturned` | src/spmc.rs:833-875 | With the ring at rest a published message at a broadcast reader's cursor is returned, whole, by finitely many loads |
| `BroadcastProgress.OutrunIsMovedUp` | src/spmc.rs:856-873 | A reader that finds a newer message in its slot, or the slot unready and a ring more announced, moves up to a ring behind the newest it knows of and counts what it passes |
| `BroadcastProgress.UnreadyIsWaitedFor` | src/spmc.rs:856-873 | Otherwise the call returns nothing and the reader stays where it is |
| `BroadcastProgress.CallsReturn` | src/spmc.rs:833-875 | From any load in a call finitely many more bring it to its end |
| `Futex.NoLostWakeup` | src/wait.rs:110-141 | With any number of registered producers, each with its own store buffer, a consumer asleep past an announced target with all producers past their wakes must have let 2^32 wake-ups go by between loading the futex word and sleeping |
| `Futex.SleepsThroughIffWrapped` | src/wait.rs:134-139 | With its target announced and all producers past their wakes, a consumer about to sleep does sleep if and only if the wake-ups since it loaded the word, at least one, are a multiple of 2^32 |
| `Futex.WakeupComes` | src/wait.rs:152-160 | A consumer asleep although its message has been announced is woken by finitely many steps of one producer, unless 2^32 wake-ups went by between its load of the word and its sleep |
| `Futex.NobodyIsWokenInVain` | src/wait.rs:152-160 | While nobody has been waiting no push has changed the futex word or is about to wake anyone |
| `Futex.WrapLosesWakeup` | src/wait.rs:118-139 | That does happen: a reachable state loses a wake-up after exactly 2^32 of them |
| `Futex.AfterPushes` | src/wait.rs:152-160 | For every n, n pushes with a wake-up each can fall between a consumer's recheck and its sleep |
| `Futex.UnregisteredProducerLosesWakeup` | src/wait.rs:203-217 | The barrier is needed: with a producer that did not register for it, one message and no wake-up suffice to lose it |
| `Futex.StepKeeps` | src/wait.rs:110-160 | Every store, drain, load, bump, wake and waiter step of any producer or waiter keeps: an announcement a waiter missed is still to be, or has been, followed by a change of the futex word |
| `Backing.OneLiveProducer` | src/shm.rs:33-66 | Over all interleavings and crashes at most one exclusive producer is live, and the path names the inode it has locked |
| `Backing.LiveRingIsUndisturbed` | src/shm.rs:33-66 | While a producer is live no one unlinks its path, resizes its file or takes its lock |
| `Backing.OldRingsAreNeverTruncated` | src/shm.rs:57-61 | A file that once had a size keeps it for ever, also after its path has been taken over |
| `Backing.CreationGoesThrough` | src/shm.rs:33-66 | In every state of every run a creator that begins and is not disturbed becomes live, by finitely many file operations of its own, if the path names no file or one nobody has locked: the file is new or was empty, and every other one keeps its size and lock |
| `Backing.HeldFileIsLeft` | src/shm.rs:44-46 | And if someone has locked it the creation ends with nothing changed |
| `Backing.OtherKeeps` | src/shm.rs:48-63 | What one creator does takes nothing from another, because it unlinks and resizes only the inode it has locked and found at the path |
| `Backing.StepKeeps` | src/spmc.rs:474-486 | Creation, dropping with and without unlinking, and crashes keep the invariant |
| `Backing.Files.Try` | src/shm.rs:33-64 | One try makes the ring, finds the lock held, or lets go of everything, with the exact condition of each when undisturbed |
| `Backing.Files.CreateBackingFile` | src/shm.rs:33-66 | On success the path names the locked and sized inode, which was new or empty, and every other file keeps its size; a failure leaves no lock; undisturbed, it fails exactly when another producer holds the lock, and a stale file is replaced by a new inode |

## Left out

- Slot indices and arena offsets are taken modulo any positive capacity; the code masks, which is the same for the powers of two it insists on.
- 64-bit counters are assumed not to run out: sequences of a source ring and arena offsets stay below 2^64, and frames claiming sequences within 65535 of 2^64, where the mirror's sums would wrap, are read as plain numbers.
- Replication is proved for one mirror, one numbering of the source per run, a dense single-producer source, and pushed records that each fit a 32-bit frame length behind a full megabyte of budget, whatever the size of the arena. `MirrorRing::adopt`, source restarts and serving a sparse ring again are not modelled; starting over is modelled only to show that it is not reached.
- The serving cursors (`udp_loop`, `serve_client`, `serve_range`) are step systems over values, not loops over a buffer, because the ring changes between their reads. Where they cut a batch is freer than in the code: a frame may be sent whenever it holds a record.
- ReplicaUdp.StepKeeps: a datagram too large to send is dropped at will; sockets, punching, time to live, path MTU discovery, lingering and the pacing of heartbeats are left out.
- Wire.Collect: takes the outcomes of its reads as a parameter. No byte budget is claimed for `collect_lingering`, whose inner calls restart their count.
- Mirror.Mirror.WriteRecords: appends to a log of records; how the log gets into slots and arena of the mirror's ring, word by word and byte by byte, is in `MirrorRing`.
- MirrorRing.StepKeeps: a mirror that died in the middle of writing a slot is not resumed; consumers of a mirror's blobs join at the oldest message.
- CatchUp.MirrorCanCatchUp: reads of a source at rest are single steps that return what its ring holds; while a push is under way the message it displaces cannot be told from one not yet there.
- Mirror.RelocationKeeps: flags on an empty blob are dropped, against the comment at `src/replication.rs:1108-1109`, since the arena answers empty payloads with the all-zero reference; only a peer that is not a ringfire producer could send any, and for everything a producer can hold `SourceReads.MirrorKeepsFlags` shows them kept.
- Mirror.Mirror.StepTcp: reads a whole frame at once; a connection that ends in the middle of one is an end of the run.
- Consumer.ActKeeps: `seek`, `jump_to_latest`, `jump_to_oldest` and checkpoints are not modelled.
- Lossless.LosslessDelivery: excludes a backward `seek`, which the cached gate cannot see, and assumes that live readers are judged alive and process identifiers are not reused. A lossless producer without a registry, which never waits, is left out.
- Spmc.RingProducer.PushBatch: covers the batches that need not wait, which stay below the cached gate when lossless; waiting inside a batch is in `Lossless`, `Backpressure` and `Progress`, since it needs readers that move meanwhile.
- Spmc.RingConsumer.NextItem: the class reads dense single-producer rings; the sparse branch of the loop is in `Consumer`, the multi-producer branch in `MpmcBroadcast`.
- The classes `Spmc.Ring`, `BlobChannel.Channel` and `Registry.ReaderRegistry` run with nobody else at work. `MpmcProducer`, `MpmcQueueConsumer` and `FutexWait` have no class: all they do is compete for shared words, which only the step systems show.
- BlobConsumer.OnlyLostBlobsAreSkipped: for empty payloads being lapped is no loss of bytes.
- Arena.PayloadArena.ReadBlob: zero-copy writing and viewing are the same accesses through a closure.
- Futex.NoLostWakeup: the bounded sleep that ends a lost wake-up is a time-out that may fire at any step. Spinning strategies are left out.
- Backing.Files.Try: as one uninterrupted call, the only interference shown inside it is another creator replacing the path between its open and its lock; all interleavings are in the step system of `Backing`.
- Backing.Files.CreateBackingFile: repeats `Try` with that interference before each lock; all interleavings are in the step system of `Backing`.
- Backing.OneLiveProducer: all creators use the exclusive mode; the legacy mode that truncates in place, other programs removing the file, and errors of the file system other than a missing file are left out.
- Blackboards, the multiplexer, asynchronous rings, checkpoints, clock calibration, layout signatures, header validation, the bindings for other languages, the command line tool and the benchmarks are left out: thin, timer-driven, or the same protocols again.
