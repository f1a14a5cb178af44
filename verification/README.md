# Verified model of the block-pipelined reliable-UDP transport

The program sends a file as encrypted chunks over UDP and repairs losses with block acks over TCP.
The sender groups chunks into blocks and keeps at most `PIPELINE_DEPTH` blocks open; the receiver
tracks open blocks in a shared bitmap, asks for what is missing, confirms or gives up on blocks, and
a writer puts the chunks back in order. This project models the sender's block manager, the
receiver's tracker, ack manager, workers and writer, the wire formats, and the composition of all of
them over a network that may lose, repeat, reorder and damage datagrams, and proves what every
interleaving of all the threads guarantees.

`dafny verify dfyconfig.toml` checks the whole project.

## How it is laid out

| file | what it holds |
|---|---|
| `Sums.dfy`, `Transfer.dfy` | finite sums and set counting; the file, the constants, the block arithmetic |
| `Protocol.dfy` | datagrams and block acks as bytes, and the ack stream as an object that is written and read |
| `Sender.dfy` | the block manager as functions on one state: map of slots, counters, log of sent datagrams |
| `SenderInvariant.dfy`, `SenderRuns.dfy` | its invariant, event by event and over whole event sequences |
| `BlockManager.dfy` | the block manager as the object the code has, each method proved to do what `Sender.dfy` says |
| `Tracker.dfy` | the locked receiver state, as functions and as the shared object |
| `AckManager.dfy` | the ack manager's loop on that object, with arbitrary operations of other threads between any two of its own |
| `Writer.dfy` | the reorder writer, as functions and as the thread's object |
| `System.dfy` | everything composed: one state, one action per atomic step of a thread |
| `SystemControl.dfy`, `SystemData.dfy`, `SystemRounds.dfy`, `SystemTime.dfy`, `SystemInvariant.dfy` | the composed invariant in four parts, and that every action keeps it |
| `Theorems.dfy`, `Progress.dfy`, `PacketCopies.dfy` | what every run guarantees; when a run hangs; how often one packet is sent |
| `SystemBits.dfy`, `Polling.dfy`, `Repairs.dfy`, `Fallback.dfy` | exactly what a Missing ack names, when a block is polled, what a Missing ack makes the sender resend, when the fallback fires |
| `Witnesses.dfy`, `GiveUpRuns.dfy`, `GiveUpEarliest.dfy` | runs: where a documented claim fails, that delivery happens, that a hang happens, that a block is given up and how soon |

In `System.dfy` a run is any list of actions. `snapshot_and_tick`, the writing of the ack, and
`remove` are three actions with every other thread free in between; `mark_verified` and the send to
the writer are two. A datagram may be delivered whenever it was ever sent, any number of times or
never, with its payload and checksum replaced by anything the checksum catches. The clock moves
forward by any amount at any time.

## What was found

- **"At most `PIPELINE_DEPTH` blocks tracked" is off by one.** The ack manager writes `Complete`
  before it removes the entry (`src/receiver.rs:259-260`, `src/receiver.rs:267-268`). A fast sender
  can open the next block in between. The receiver tracks more than `PIPELINE_DEPTH` blocks exactly
  when that window is open, the sender's pipeline is full again, and the receiver has heard of every
  Open block (`Theorems.TrackingBounded`); then it is one more. Tracked blocks are all Open at the
  sender exactly when the window is closed (`Theorems.TrackedOpenIff`).
  `Witnesses.TrackerCanExceedPipelineDepth` is a run that gets there.
- **The block manager counts Completes without checking their range** (`src/sender.rs:851-861`). Its
  normal exit means "every block resolved" exactly when no Complete it took names a foreign id
  (`SenderRuns.ExitIffNoForeignId`); one foreign id can end a transfer early
  (`SenderRuns.ForeignCompleteEndsEarly`). In composed runs such an ack is never written
  (`Theorems.AcksPerBlock`).
- **Delivery is not unconditional, and the exact failure is known.** Once both ends have gone quiet
  (every chunk seen, every ack read, nothing tracked), the sender still waits if and only if of some
  block of the file not one datagram, first transmission or fallback, was ever delivered
  (`Progress.HangIffTotalLoss`). As long as that is so neither end finishes
  (`Progress.UndeliveredBlockHoldsUpBoth`), and it does happen (`Witnesses.HangHappens`).
- **Short reads.** The chunk count sent ahead is computed from the file size, but the reader makes one
  chunk of each `read` (`src/sender.rs:505-519`). The chunks are the expected ones if and only if every
  read but the last fills its buffer (`Transfers.CutIsSplitIff`).
- **Give-up time.** A comment speaks of 150 ms grace and 7.5 s of repair (`src/config.rs:78-82`); the
  constant is `1-0`, that is 1 ms (`src/config.rs:69`). The bound that follows from the code is
  1326 ms (`SystemTime.ShippedBackoff`), and it is attained (`GiveUpEarliest.GiveUpBoundAttained`).
- **Resolved slots stay.** The state diagrams say a finished block is removed from the map
  (`src/sender.rs:129`, `src/sender.rs:592`); the code keeps it as `Resolved`, and the model follows
  the code.

## Assumptions

- The manager gets each chunk id of the file at most once, each with the bytes of its place in the
  file: the reader's counter (`src/sender.rs:500-519`) with every read but the last full
  (`Transfers.CutIsSplitIff` says why), workers only permuting.
- The file has fewer than 2^32 chunks; a block has at most 65536 packets; the other constants are any
  positive numbers.
- The cipher is an involution per chunk id that keeps lengths. A payload that passes the checksum is
  the plaintext. Damage changes payload and checksum only; headers arrive as sent.
- `udp.send` failing is a lost datagram. `retransmitted` counts every attempt, so its bound covers the
  code's count of successful ones.
- A turn of the sender's loop (one event and the drain that follows) is one action: it only adds to the
  set of deliverable datagrams, so receiver actions that overlap it can be put after it. `touch_activity`
  and the hand-over to the workers are one action for the same reason. An operation reads the clock once;
  the sender's clock readings are arbitrary.
- The order a hash map is walked in is a parameter, any order.

Some fields are history that no operation reads: `arrived`, `placed`, `named` and `log` at the sender,
`since` in a tracker entry, `received` in the writer, `verifiedIds`, `genuine` and `gaveUp` in the
composed state. `panicked` is set wherever the code would panic: an index out of range, `unreachable!`,
`assert!`, the debug assertion on a bucket's block id, `open_slots` going below zero.

## Model

| member | source | states |
|---|---|---|
| Transfers.SplitConcat | src/sender.rs:500-519 | Cutting a file into chunks loses nothing: joined in order they are the file, there are ceil(size / chunk size) of them, none is empty and all but the last are full. |
| Transfers.ReadChunks | src/sender.rs:500-519 | The reader's loop cuts the file where its reads ended, whatever sizes they return, ids counted from 0. |
| Transfers.CutConcat | src/sender.rs:505-519 | No byte is lost or repeated, however short the reads; there is one chunk per read. |
| Transfers.CutIsSplitIff | src/sender.rs:505-519 | The chunks are those of the announced cut if and only if every read but the last filled its buffer. |
| Transfers.ChunkPlace | src/transport.rs:115-118 | Every chunk id goes to a block of the file and an index inside it, and comes back from there. |
| Transfers.PlaceChunkId | src/transport.rs:124-126 | Every place inside a block goes to a chunk id of the file, and comes back from there. |
| Transfers.NoOverflow | src/transport.rs:115-126 | For ids of the file the u32 product, the u32 sum and the u16 cast compute the exact values. |
| Transfers.BlockBelow | src/transport.rs:128-139 | A block id is below the block count exactly when its block holds packets. |
| Transfers.BlocksPartitionFile | src/transport.rs:128-139 | The packet counts of all blocks add up to the chunk count. |
| Protocol.DecodeIffEncoding | src/protocol.rs:48-122 | The datagram decoder yields a packet exactly from buffers that begin with that packet's encoding; trailing bytes are ignored, nothing else is accepted. |
| Protocol.TruncatedDatagramRejected | src/protocol.rs:59-84 | Every strict truncation of a datagram is dropped, never misread. |
| Protocol.DatagramBytes | src/protocol.rs:48-113 | Every byte on the wire: tag 1 or 2, then the fields in their order, each of its width, most significant byte first. |
| Protocol.ReadIffWritten | src/protocol.rs:141-188 | Reading an ack succeeds with a given ack and rest exactly when the stream is that ack's bytes followed by that rest. |
| Protocol.AckStreamRoundTrip | src/protocol.rs:141-188 | Any list of acks written one after another reads back as that list, whatever unreadable tail follows. |
| Protocol.TornAckUnreadable | src/protocol.rs:159-188 | No strict prefix of one ack reads as an ack. |
| Protocol.AckBytes | src/protocol.rs:141-157 | Every byte of an ack: tag B1 or B2, block id, then count and ids of two bytes each, most significant byte first. |
| Protocol.ControlStream.WriteAck | src/protocol.rs:141-157 | Writing appends exactly the ack's encoding to the stream. |
| Protocol.ControlStream.ReadIds | src/protocol.rs:174-180 | Reads the announced number of ids, or fails exactly when the stream is too short. |
| Protocol.ControlStream.ReadAck | src/protocol.rs:159-188 | Field by field reading agrees with the one-shot decoder, and consumes exactly the bytes of the ack it returns. |
| SenderInvariant.PlaceKeeps | src/sender.rs:202-254 | Placing a chunk that was not placed before is in range, passes the all-cached assertion, emits BlockEnd exactly when the block fills up, and keeps the manager's invariant. |
| SenderInvariant.AdmitKeeps | src/sender.rs:267-329 | Every branch of admission keeps the invariant and resolves nothing; for a Resolved block it changes nothing. |
| SenderInvariant.AdmitDecides | src/sender.rs:288-328 | An arriving chunk is sent at once exactly if its block is Open, or unseen with room in the pipeline; otherwise nothing is sent and, unless the block is Resolved, the chunk goes last into its block's bucket. |
| SenderInvariant.OpenPendingKeeps | src/sender.rs:365-378 | Opening a Pending block places everything buffered for it: no placement is out of range, none hits another block. |
| SenderInvariant.DrainKeeps | src/sender.rs:345-380 | The drain keeps the invariant and ends with a full pipeline or no Pending block. |
| SenderInvariant.DrainAscending | src/sender.rs:345-380 | Every block the drain opened has a smaller id than every block it left Pending. |
| SenderRuns.CompleteKeeps | src/sender.rs:802-863 | Any Complete (first, repeated, early, out of range) keeps the counters equal to the slot counts, resolves that id and no other, and counts it once. |
| SenderRuns.MissingKeeps | src/sender.rs:765-801 | Any Missing ack, whatever it names, keeps the invariant; what it resends was sent before. |
| SenderRuns.WholeBlockCached | src/sender.rs:402-429 | Once BlockEnd is out the cache holds the whole block in order, so the fallback resends exactly the complete block. |
| SenderRuns.ResendStaleKeeps | src/sender.rs:394-436 | The fallback scan keeps the invariant in whatever order the map is walked. |
| SenderRuns.StepKeeps | src/sender.rs:668-865 | One turn of the loop on any event: no panic, all invariants kept, only a Complete resolves and only the block it names, nothing admittable left Pending. |
| SenderRuns.LoopKeeps | src/sender.rs:647-876 | Over any event sequence the Resolved blocks are exactly those whose Complete was taken, Resolved is permanent, and all invariants hold at the end. |
| SenderRuns.SlotFollowsArrivals | src/sender.rs:183-198 | What a slot holds is told from the set of arrived chunks alone: an Open cache is exactly the arrived chunks at their own indices, BlockEnd is out exactly when all arrived, a bucket is exactly the arrived chunks once each, no slot means none arrived. |
| SenderRuns.ChunkFate | src/sender.rs:256-329 | An arrived chunk is cached at its own index, or held exactly once in its own block's bucket, or its block is Resolved. |
| SenderRuns.ExitIffNoForeignId | src/sender.rs:687-689 | The normal exit means every block of the file is Resolved if and only if no Complete the loop took names an id outside the file. |
| SenderRuns.ExitMeansResolved | src/sender.rs:687-689 | With in-range acks, repeated or premature ones included, the normal exit means every block is Resolved. |
| SenderRuns.ForeignCompleteEndsEarly | src/sender.rs:851-861 | One out-of-range Complete ends a one-block transfer with its block unresolved. |
| BlockManager.BlockManager.PlaceChunk | src/sender.rs:202-254 | The in-place version does what the state machine's placement does, log and counters included. |
| BlockManager.BlockManager.AdmitOrBuffer | src/sender.rs:267-329 | The same for admission. |
| BlockManager.BlockManager.NextPending | src/sender.rs:356-359 | The scan finds the least Pending id, or none exactly when there is none. |
| BlockManager.BlockManager.DrainPending | src/sender.rs:345-380 | The drain loop terminates in the state the drain function gives, pipeline full or nothing Pending. |
| BlockManager.BlockManager.OpenOne | src/sender.rs:365-378 | Removing a Pending bucket and placing its chunks one by one is the state machine's opening of that block; it leaves one Pending block less. |
| BlockManager.BlockManager.HandleMissing | src/sender.rs:765-801 | Does what the state machine does, which `Repairs.MissingResends` gives in full: the timer restarts and exactly the named packets sent before go out, in the ack's order. |
| BlockManager.BlockManager.HandleComplete | src/sender.rs:802-863 | Resolves and counts as the state machine does; `open_slots` does not underflow. |
| BlockManager.BlockManager.RetransmitStaleBlocks | src/sender.rs:394-436 | The walk does what the state machine does, whose effect on each block is `Fallback.FallbackIffSilent`. |
| BlockManager.BlockManager.HandleEvent | src/sender.rs:751-864 | Dispatching an event does what the state machine does on it and keeps the invariant. |
| BlockManager.BlockManager.CountStuck | src/sender.rs:727-737 | The disconnect report counts exactly the buffered chunks and the Pending blocks. |
| BlockManager.BufferedIsArrived | src/sender.rs:727-733 | The number reported as buffered is the number of arrived chunks of the Pending blocks, each counted once. |
| BlockManager.BlockManager.Run | src/sender.rs:647-876 | The loop ends in the state the machine reaches on the same events; it finishes normally exactly when it counts all blocks resolved, and otherwise reports the true numbers of unresolved blocks, open blocks, buffered chunks and Pending blocks. |
| Tracker.OpKeeps | src/transport.rs:254-303 | Any locked operation keeps tracked and completed ids disjoint and the count equal to the set bits; no verified bit, round or completed id is ever undone. |
| Tracker.RunKeeps | src/transport.rs:244-379 | The same for every sequence of locked operations with any arguments, hence for every interleaving of the threads. |
| Tracker.NoResurrection | src/transport.rs:197-233 | After a block is removed no sequence of operations ever tracks it again. |
| Tracker.MissingIffIncomplete | src/transport.rs:178-190 | The missing list is exactly the unverified indices in ascending order, as many as the count says, and empty if and only if the block is complete. |
| Tracker.VerifyExact | src/transport.rs:272-289 | Marking a packet of a block not completed sets its bit, leaves every other bit, and counts it exactly if its bit was clear; a stray index changes nothing. |
| Tracker.SnapshotExact | src/transport.rs:352-359 | A snapshot names exactly the packets not yet verified, in order, and reports completeness exactly when there are none. |
| Tracker.DueExact | src/transport.rs:316-347 | The poll returns each block once, and exactly those quiet for as long as their state asks: the idle timeout without BlockEnd; with it, one grace period if complete, otherwise one more grace period than rounds so far, up to the idle timeout. |
| Tracker.SharedReceiverState.TouchActivity | src/transport.rs:257-267 | Changes the object as the specification says: only the block's timer, creating its entry if it is neither tracked nor completed. |
| Tracker.SharedReceiverState.MarkVerified | src/transport.rs:272-289 | The object changes as the specification says, whose effect on the bits and the count is `Tracker.VerifyExact`. |
| Tracker.SharedReceiverState.MarkEndSeen | src/transport.rs:292-303 | The same for a BlockEnd. |
| Tracker.SharedReceiverState.ReadyForCheck | src/transport.rs:316-347 | Returns each tracked block once, exactly those quiet for as long as their state asks, and changes nothing. |
| Tracker.SharedReceiverState.SnapshotAndTick | src/transport.rs:352-359 | Ticks the round and the timer of that block only and returns the snapshot `Tracker.SnapshotExact` describes. |
| Tracker.SharedReceiverState.RemoveBlock | src/transport.rs:374-378 | Untracks and completes the block in one step. |
| AckManager.OthersOnlyAdd | src/transport.rs:254-303 | Whatever the UDP thread and the workers do between two steps of the ack manager, they untrack nothing, complete nothing and tick no round. |
| AckManager.CheckedBooks | src/receiver.rs:254-282 | One check, with other threads running before its snapshot, before its reply and before its removal, finds its block and keeps the books: the acks written so far account for every round and every completed block. |
| AckManager.AckThread.CheckBlock | src/receiver.rs:254-282 | The loop body, its tick reading the clock anew, writes exactly the ack the snapshot calls for and, for a Complete, removes the entry after writing. |
| AckManager.AckThread.PollOnce | src/receiver.rs:247-282 | One poll, other threads running before it and in every gap of every check, the one before the snapshot included, checks once every block that was due when polled, in some order of the map, and leaves the tracker and the acks that those checks lead to. |
| AckManager.AckThread.Run | src/receiver.rs:233-286 | For any interference the loop makes one poll after another while some block is not completed, the bytes on the wire are the acks written, and it exits only when every block of the file is completed and its Complete written. |
| ReorderWriter.AcceptKeeps | src/receiver.rs:190-212 | After one arrival, new or repeated, in any order, `next_chunk` is the least id not received, the output is the file's first `next_chunk` chunks and `bytes` its length. |
| ReorderWriter.RunKeeps | src/receiver.rs:190-212 | The same after any arrival sequence. |
| ReorderWriter.WholeFileIffAllArrived | src/receiver.rs:168-217 | The output is the whole file if and only if every chunk arrived. |
| ReorderWriter.ChunkAtOffset | src/fileio.rs:34-46 | Writing sequentially puts chunk c at byte offset c times the chunk size. |
| ReorderWriter.WriterThread.WriteInOrder | src/receiver.rs:193-207 | The inner loop flushes exactly what is in order. |
| ReorderWriter.WriterThread.Run | src/receiver.rs:190-212 | The thread's loop does to its fields what the specification does to the state. |
| SystemControl.CompleteFindsOpen | src/sender.rs:802-863 | A Complete the sender is about to read names a block that is Open there. |
| SystemData.CompleteAllVerified | src/receiver.rs:258-261 | A block reported complete has had every one of its chunks verified. |
| SystemData.FreshChunkNotConfirmed | src/sender.rs:288-302 | A chunk arriving for a Resolved block belongs to a block that was given up. |
| SystemInvariant.SenderTurn | src/sender.rs:668-865 | Any turn keeps the manager's invariant, forgets no sent datagram, placed chunk or Resolved block, and resolves nothing but the block a Complete names. |
| SystemInvariant.ActionKeeps | src/receiver.rs:55-286 | Every action of every thread keeps the composed invariant. |
| SystemInvariant.RunInv | src/receiver.rs:55-286 | Every reachable state of the composed system satisfies it. |
| SystemRounds.NamedTotal | src/receiver.rs:258-281 | All Missing acks of a run together name at most `MAX_BLOCK_RETRY_ROUNDS` times the chunk count. |
| SystemRounds.CheckDecreases | src/receiver.rs:254-257 | Every check uses up one remaining round of an unresolved block. |
| SystemTime.BackoffBelowCap | src/transport.rs:336-339 | Below the idle cap the waits of n rounds add up to a triangular number of grace periods. |
| SystemTime.ShippedBackoff | src/config.rs:69-83 | With the shipped constants the waits before a give-up add up to 1326 ms. |
| Theorems.OutputIsPrefix | src/receiver.rs:126-217 | At every moment of every run the output is a prefix of the original file. |
| Theorems.OutputIsVerifiedPrefix | src/receiver.rs:126-217 | With the queues drained the output is the longest prefix whose chunks were verified, and the whole file exactly when all were. |
| Theorems.DeliveredExactly | src/receiver.rs:126-286 | If the ack manager has exited, nothing was given up and the queues have drained, the output is exactly the original file, and the writer's counters are its size and chunk count. |
| Theorems.DeliveredIffNothingGivenUpWasMissing | src/receiver.rs:262-269 | With force-completed blocks the output is still the original file exactly when each of their packets was verified after all. |
| Theorems.TrackedOpenIff | src/transport.rs:192-195 | Every tracked block is Open at the sender if and only if no Complete already acted on awaits its entry's removal. |
| Theorems.TrackingBounded | src/transport.rs:8-12 | However late duplicates come, the receiver tracks more than `PIPELINE_DEPTH` blocks if and only if an acted-on Complete's entry awaits removal, the sender's pipeline is full and every Open block is tracked; and never more than one above. |
| Theorems.CompletionExactlyOnce | src/transport.rs:374-378 | The receiver's completed blocks (with the one being closed) are the disjoint union of the sender's Resolved blocks and the Completes in flight, each of which names an Open block; both `completed` counters are exact. |
| Theorems.NoAbandonedSender | src/transport.rs:215-228 | When the ack manager has exited every block's Complete is written, and the sender still runs only while one of them is unread. |
| Theorems.SenderExitsResolved | src/sender.rs:687-689 | In composed runs the sender's exit means its Resolved ids are exactly the blocks of the file. |
| Theorems.ForceFreeSendsEverything | src/sender.rs:226-227 | If nothing was given up, at the sender's exit every chunk was sent, `packets_sent` is the chunk count and `bytes_sent` the file size. |
| Theorems.DropOnlyAfterGiveUp | src/sender.rs:288-302 | A run reaches the Drop branch only for a block that was given up. |
| Theorems.RepairsBounded | src/sender.rs:402-429 | Over a whole run `retransmitted` is at most (`MAX_BLOCK_RETRY_ROUNDS` + 1) times the chunk count. |
| Theorems.BlockEndsBounded | src/sender.rs:238-252 | A block's BlockEnd is sent at most once plus once in its fallback, and only when all its packets have been sent. |
| Theorems.SenderSound | src/sender.rs:668-690 | The manager never panics, `open_slots` counts the Open slots and stays within the depth, and it waits with a Pending block only when the pipeline is full. |
| Theorems.AcksPerBlock | src/receiver.rs:258-281 | Only blocks of the file are answered; a block gets at most `MAX_BLOCK_RETRY_ROUNDS` Missing acks, each naming ascending ids of that block, and nothing after its Complete. |
| Theorems.GiveUpTakesAllBackoffs | src/receiver.rs:262-269 | A force-completed block was tracked for at least the sum of all its backoffs, whatever touches and clock steps interleave. |
| Theorems.ChecksNeverRise | src/receiver.rs:247-283 | No action of any thread gives a round back, and every check uses one up. |
| Theorems.ChecksBounded | src/receiver.rs:247-283 | Over any run the ack manager makes at most (`MAX_BLOCK_RETRY_ROUNDS` + 1) checks per block. |
| Theorems.WireCarriesTheRun | src/protocol.rs:43-188 | Every datagram a run sends decodes from its bytes to itself, and the ack stream reads back as the acks written. |
| Theorems.UndamagedAccepted | src/receiver.rs:134-154 | An undamaged datagram of a run is always accepted: it is queued, id, keystream and checksum at the receiver undo the sender's, and its plaintext goes on towards the writer. |
| Progress.TrackedIsPolled | src/transport.rs:305-347 | While any block is tracked the ack manager has not left its loop, and its poll after one grace period and one idle timeout of quiet returns that block. |
| Progress.OneOpAtMost | src/transport.rs:230-248 | Every action of the composed system is at most one locked tracker operation. |
| Progress.TracedIffDelivered | src/receiver.rs:67-105 | The receiver has a trace of a block, tracked or completed, if and only if some datagram of it was delivered in the run. |
| Progress.UndeliveredBlockHoldsUpBoth | src/transport.rs:374-378 | While no datagram of some block of the file has been delivered, neither the sender nor the ack manager leaves its loop. |
| Progress.HangIffTotalLoss | src/sender.rs:382-393 | When both ends have gone quiet the sender still waits if and only if of some block of the file no datagram was ever delivered. |
| Progress.HangNeedsTotalLoss | src/sender.rs:382-393 | In such a hang some Open block had every packet and its BlockEnd sent and not one datagram of it delivered. |
| PacketCopies.StepPaid | src/sender.rs:668-865 | One turn of the loop sends a chunk's packet once when it places it, once in its block's fallback, and otherwise only as often as the ack it handles names it. |
| PacketCopies.CopiesBounded | src/sender.rs:402-429 | Over a whole run no packet is sent more than `MAX_BLOCK_RETRY_ROUNDS` + 2 times. |
| SystemBits.BitIffVerified | src/transport.rs:147-156 | While a block is tracked, a packet's bit is set if and only if its chunk has been verified. |
| SystemBits.CheckTellsTruth | src/receiver.rs:254-281 | A check names exactly the packets unverified at that moment and reports the block complete exactly if there are none; a block that is all there is confirmed, never given up. |
| SystemBits.MissingAckTrue | src/receiver.rs:270-281 | Every Missing ack of a run names exactly the packets of its block that were unverified at one of the run's checks of it. |
| SystemBits.UnnamedIsVerified | src/receiver.rs:270-281 | Whatever a Missing ack does not name has been verified. |
| Polling.PolledExactlyWhenQuiet | src/transport.rs:305-347 | Told from the run alone: a poll returns a tracked block if and only if, since its last datagram or check, the idle timeout has passed if no BlockEnd of it was delivered; otherwise one grace period if it is all verified, and if not one more grace period than Missing acks written for it, up to the idle timeout. |
| Repairs.MissingResends | src/sender.rs:765-801 | The whole effect of a Missing ack for an Open block: exactly the named packets sent before go out again, in the ack's order, `retransmitted` counts them, the silence timer restarts, nothing else changes. |
| Repairs.MissingCopiesExact | src/sender.rs:776-799 | A packet goes out once for each time the ack names it if it was sent before and its block is Open, and not at all otherwise. |
| Repairs.MissingStep | src/sender.rs:668-685 | After a Missing ack the drain has nothing to do, so that is the effect of the whole turn. |
| Repairs.RepairExact | src/sender.rs:765-801 | Every Missing ack read in a run names an Open block, and makes the sender resend, once each, exactly the packets it names that were sent before. |
| Fallback.LoopIsAfter | src/sender.rs:647-690 | The loop over an event sequence ends in the state its history of turns ends in. |
| Fallback.FallbackIffSilent | src/sender.rs:394-436 | Told from the events: a timeout resends an Open block, every packet once and its BlockEnd, if and only if the walk comes by it, its BlockEnd has gone out just once, and the timeout has passed since that BlockEnd or the last Missing ack for it. |
| Witnesses.TrackerCanExceedPipelineDepth | src/receiver.rs:259-260 | There is a run in which the receiver tracks one block more than `PIPELINE_DEPTH`. |
| Witnesses.DeliveryHappens | src/receiver.rs:288-464 | There is a run that meets all premises of the delivery theorems at once. |
| Witnesses.HangHappens | src/sender.rs:407-409 | There is a run after which both ends wait and the fallback is used up. |
| GiveUpEarliest.GiveUpBoundAttained | src/receiver.rs:262-269 | For every nonempty file and all constants some run, its BlockEnd delivered, gives a block up after exactly the sum of its backoffs: the bound is tight. |
| GiveUpRuns.GiveUpLosesData | src/receiver.rs:262-269 | There is a run with a given-up block in which the ack manager and the queues are done and the output is not the original. |
| GiveUpRuns.DropHappens | src/sender.rs:288-302 | There is a run in which a running sender still has a chunk of a given-up block to come. |

## Left out

- Sockets, TCP errors, bounded channels and back-pressure, thread start and join, printing and statistics: an action is taken or not, and a run may stop anywhere.
- RSA handshake, AES, xxHash and random numbers: an involution and an ideal checksum stand for them; nothing is claimed about secrecy.
- Forged datagrams, damaged headers and datagrams of another transfer.
- Opening, sizing and flushing the output file; the output is the bytes written in order.
- `SharedBlockCache`, `src/buffer_pool.rs` and the rest of `src/fileio.rs`: no longer used by the transport.
- The writer's reorder map having constant size, and the sender's memory being constant: both fail in the code (blocks after a stuck one keep completing; the event channel and the buckets are unbounded).
- `run` always returning Ok at the receiver: a worker that handles a late duplicate after the writer has left gets a send error; in the model that chunk is dropped.
- Fairness: nothing says a thread is ever scheduled. `Progress` says what is enabled, `Theorems.ChecksBounded` that it cannot go on for ever.
- BlockManager.BlockManager.Run: an event list stands for everything the channel delivers before it closes; the waiting itself is not modelled.
- AckManager.AckThread.Run: proved for any finite number of polls, because the loop itself need not end; a poll that finds nothing stands for a sleep.
- SystemInvariant.ActionKeeps: the sender's turn is one action, so a receiver step between two sends of one turn appears after the turn.
