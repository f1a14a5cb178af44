/** What every run of the composed transport guarantees. Each lemma quantifies over all
    actions of all threads: any loss, duplication, reordering and payload damage on UDP, any
    interleaving, any clock. */
module Theorems {
  import opened Transfers
  import opened Sums
  import opened Protocol
  import opened Sender
  import SI = SenderInvariant
  import SR = SenderRuns
  import K = Tracker
  import W = ReorderWriter
  import opened System
  import opened SystemControl
  import opened SystemData
  import opened SystemRounds
  import opened SystemTime
  import opened SystemInvariant

  // ---- delivery ----

  /** Everything a worker verified has reached the writer. */
  predicate QueuesDrained(s: State) { s.verified == multiset{} && (s.toWriter == [] || s.writer.done) }

  lemma WriterHolds(t: Transfer, s: State)
    requires Inv(t, s)
    ensures W.Ok(t.file, s.writer) && s.writer.received <= s.verifiedIds
    ensures QueuesDrained(s) ==> forall c :: c in s.verifiedIds ==> c in s.writer.received || s.writer.done
    ensures forall c :: c in s.verifiedIds ==> c < TotalChunks(t)
  {
    hide SenderSide, Control, Rounds, Time, W.Ok, PacketsOk, ChunksOk, BitsOk, GenuineOk, LossOk, Plain;
    if QueuesDrained(s) {
      forall c | c in s.verifiedIds ensures c in s.writer.received || s.writer.done {
        assert Held(t, c, s.verified, s.toWriter, s.writer);
      }
    }
  }

  lemma FileJoins(t: Transfer)
    requires Valid(t)
    ensures Concat(t.file) == t.original
    ensures forall c :: 0 <= c < |t.file| ==> |t.file[c]| > 0
  {
    SplitConcat(t.original, t.chunkSize);
  }

  lemma {:induction false} ConcatPrefix(chunks: seq<Bytes>, n: nat)
    requires n <= |chunks|
    ensures Concat(chunks[..n]) <= Concat(chunks)
  {
    if n == |chunks| {
      assert chunks[..n] == chunks;
    } else {
      var m := |chunks| - 1;
      assert chunks[..m][..n] == chunks[..n];
      ConcatPrefix(chunks[..m], n);
    }
  }

  /** At every moment of every run what has been written is a prefix of the original file. */
  lemma OutputIsPrefix(t: Transfer, actions: seq<Action>)
    requires Valid(t)
    ensures EndOf(t, actions).writer.output <= t.original
  {
    hide Inv, EndOf;
    var s := EndOf(t, actions);
    RunInv(t, actions);
    WriterHolds(t, s);
    FileJoins(t);
    ConcatPrefix(t.file, s.writer.nextChunk);
  }

  /** Once the queues are empty the output is the longest prefix of the file all of whose
      chunks were verified; it is the whole file exactly when every chunk was. */
  lemma OutputIsVerifiedPrefix(t: Transfer, actions: seq<Action>)
    requires Valid(t) && QueuesDrained(EndOf(t, actions))
    ensures var s := EndOf(t, actions);
            var n := s.writer.nextChunk;
            && n <= |t.file| && s.writer.output == Concat(t.file[..n])
            && (forall c: nat :: c < n ==> c in s.verifiedIds)
            && n !in s.verifiedIds
            && (s.writer.output == t.original <==> forall c: nat :: c < TotalChunks(t) ==> c in s.verifiedIds)
  {
    hide Inv, EndOf;
    var s := EndOf(t, actions);
    RunInv(t, actions);
    WriterHolds(t, s);
    FileJoins(t);
    W.PrefixIsWhole(t.file, s.writer.nextChunk);
  }

  /** When the ack manager has left its loop every block of the file is completed. */
  lemma DoneMeansAllCompleted(t: Transfer, s: State)
    requires Inv(t, s) && AckManagerDone(t, s)
    ensures s.tracker.completed == Below(TotalBlocks(t)) && s.resolved == TotalBlocks(t)
  {
    hide SenderSide, DataPlane, Rounds, Time, TotalBlocks, K.Ok, PacketsInBlock;
    Pigeonhole(s.tracker.completed, TotalBlocks(t));
  }

  lemma ChunksOfConfirmed(t: Transfer, s: State, c: nat)
    requires Inv(t, s) && c < TotalChunks(t) && BlockOf(t, c) in s.genuine
    ensures c in s.verifiedIds
  {
    hide SenderSide, Control, Rounds, Time, BlockOf, IndexOf, ChunkIdOf, PacketsInBlock, TotalBlocks;
    hide PacketsOk, ChunksOk, WriterOk, HeldOk, VerifiedOk, BitsOk, LossOk;
    ChunkPlace(t, c);
  }

  lemma ClosedForACause(t: Transfer, s: State, b: nat)
    requires Inv(t, s) && b in s.tracker.completed
    ensures b in s.genuine || b in s.gaveUp
  {
  }

  /** End to end: if the ack manager has exited, no block was force-completed and the queues
      have drained, the output is exactly the original file. */
  lemma DeliveredExactly(t: Transfer, actions: seq<Action>)
    requires Valid(t)
    requires AckManagerDone(t, EndOf(t, actions)) && QueuesDrained(EndOf(t, actions))
    requires EndOf(t, actions).gaveUp == map[]
    ensures EndOf(t, actions).writer.output == t.original
    ensures EndOf(t, actions).writer.bytes == |t.original|
    ensures EndOf(t, actions).writer.chunksWritten == TotalChunks(t)
  {
    DeliveredIffNothingGivenUpWasMissing(t, actions);
    hide Inv, EndOf;
    RunInv(t, actions);
    WriterHolds(t, EndOf(t, actions));
    FileJoins(t);
    W.PrefixIsWhole(t.file, EndOf(t, actions).writer.nextChunk);
  }

  /** With force-completed blocks the file is still whole exactly when each of their packets
      was verified after all. */
  lemma DeliveredIffNothingGivenUpWasMissing(t: Transfer, actions: seq<Action>)
    requires Valid(t)
    requires AckManagerDone(t, EndOf(t, actions)) && QueuesDrained(EndOf(t, actions))
    ensures var s := EndOf(t, actions);
            s.writer.output == t.original <==>
            forall b, i: nat :: b in s.gaveUp && i < PacketsInBlock(t, b) ==> ChunkIdOf(t, b, i) in s.verifiedIds
  {
    OutputIsVerifiedPrefix(t, actions);
    hide Inv, EndOf, PacketsInBlock, ChunkIdOf, TotalBlocks, BlockOf, IndexOf, AckManagerDone;
    var s := EndOf(t, actions);
    RunInv(t, actions);
    DoneMeansAllCompleted(t, s);
    if forall b, i: nat :: b in s.gaveUp && i < PacketsInBlock(t, b) ==> ChunkIdOf(t, b, i) in s.verifiedIds {
      forall c: nat | c < TotalChunks(t) ensures c in s.verifiedIds {
        ChunkPlace(t, c);
        ClosedForACause(t, s, BlockOf(t, c));
        if BlockOf(t, c) in s.genuine {
          ChunksOfConfirmed(t, s, c);
        }
      }
    }
    if forall c: nat :: c < TotalChunks(t) ==> c in s.verifiedIds {
      forall b, i: nat | b in s.gaveUp && i < PacketsInBlock(t, b) ensures ChunkIdOf(t, b, i) in s.verifiedIds {
        PlaceChunkId(t, b, i);
      }
    }
  }

  // ---- the receiver's memory ----

  /** The ack manager has written a block's Complete, the sender has acted on it, and the
      block's entry is not removed yet. */
  ghost predicate InRemovalWindow(s: State) {
    s.manager.Removing? && s.consumed <= |s.acks| && Complete(s.manager.block) in s.acks[..s.consumed]
  }

  lemma TrackedSlot(t: Transfer, s: State, b: nat)
    requires Inv(t, s) && b in s.tracker.blocks
    ensures IsOpen(s.sender.slots, b) || (InRemovalWindow(s) && s.manager.block == b)
  {
    hide SenderSide, DataPlane, Rounds, Time, TotalBlocks, PacketsInBlock, ManagerOk, CausesOk, Final, K.EntryOk;
    if IsResolved(s.sender.slots, b) {
      assert Complete(b) in s.acks[..s.consumed];
      assert Complete(b) in s.acks;
    }
  }

  lemma WindowBlock(t: Transfer, s: State)
    requires Inv(t, s) && InRemovalWindow(s)
    ensures s.manager.block in s.tracker.blocks && IsResolved(s.sender.slots, s.manager.block)
  {
    hide SenderSide, DataPlane, Rounds, Time, KnownOk, CausesOk;
    assert Busy(s.manager)[0] in Busy(s.manager);
  }

  /** Every tracked block is Open at the sender, exactly outside the removal window. */
  lemma TrackedOpenIff(t: Transfer, actions: seq<Action>)
    ensures var s := EndOf(t, actions);
            (forall b :: b in s.tracker.blocks ==> IsOpen(s.sender.slots, b)) <==> !InRemovalWindow(s)
  {
    hide Inv, EndOf, InRemovalWindow;
    var s := EndOf(t, actions);
    RunInv(t, actions);
    if InRemovalWindow(s) {
      WindowBlock(t, s);
    } else {
      forall b | b in s.tracker.blocks ensures IsOpen(s.sender.slots, b) {
        TrackedSlot(t, s, b);
      }
    }
  }

  /** What is tracked: Open blocks, and in the removal window the block being closed. */
  lemma TrackedWithin(t: Transfer, s: State)
    requires Inv(t, s)
    ensures var open := OpenIds(s.sender.slots);
            && |open| <= t.pipelineDepth
            && if InRemovalWindow(s)
               then s.tracker.blocks.Keys <= open + {s.manager.block}
                    && s.manager.block in s.tracker.blocks && s.manager.block !in open
               else s.tracker.blocks.Keys <= open
  {
    hide Inv, OpenIds;
    OpenBounded(t, s);
    forall b | b in s.tracker.blocks.Keys
      ensures b in OpenIds(s.sender.slots) || (InRemovalWindow(s) && b == s.manager.block)
    {
      TrackedSlot(t, s, b);
      OpenIdsHas(s.sender.slots, b);
    }
    if InRemovalWindow(s) {
      WindowBlock(t, s);
      OpenIdsHas(s.sender.slots, s.manager.block);
    }
  }

  /** A set below `open`, or below `open` and one more, has more than `n >= |open|` elements
      exactly when it is all of that and `open` is full. */
  lemma ExceedsIff(tracked: set<nat>, open: set<nat>, extra: Option<nat>, n: nat)
    requires |open| <= n
    requires extra.Some? ==> extra.value in tracked && extra.value !in open
    requires tracked <= open + if extra.Some? then {extra.value} else {}
    ensures |tracked| <= n + if extra.Some? then 1 else 0
    ensures |tracked| > n <==> extra.Some? && |open| == n && open <= tracked
  {
    if extra.Some? {
      var rest := tracked - {extra.value};
      assert tracked == rest + {extra.value};
      SubsetSize(rest, open);
      if open <= tracked {
        SubsetSize(open, rest);
      }
    } else {
      assert open + {} == open;
      SubsetSize(tracked, open);
    }
  }

  /** However late and however often datagrams come, the receiver tracks at most
      `pipelineDepth` blocks, and one more exactly when, while an acted-on Complete's entry awaits
      removal, the sender has filled its pipeline again and the receiver has heard of every Open
      block. */
  lemma TrackingBounded(t: Transfer, actions: seq<Action>)
    ensures var s := EndOf(t, actions);
            && |s.tracker.blocks| <= t.pipelineDepth + (if InRemovalWindow(s) then 1 else 0)
            && (|s.tracker.blocks| > t.pipelineDepth <==>
                  && InRemovalWindow(s)
                  && |OpenIds(s.sender.slots)| == t.pipelineDepth
                  && forall b :: IsOpen(s.sender.slots, b) ==> b in s.tracker.blocks)
  {
    hide Inv, EndOf, OpenIds;
    var s := EndOf(t, actions);
    RunInv(t, actions);
    TrackedWithin(t, s);
    var open := OpenIds(s.sender.slots);
    var extra := if InRemovalWindow(s) then Some(s.manager.block) else None;
    ExceedsIff(s.tracker.blocks.Keys, open, extra, t.pipelineDepth);
    assert |s.tracker.blocks.Keys| == |s.tracker.blocks|;
    forall b ensures b in open <==> IsOpen(s.sender.slots, b) {
      OpenIdsHas(s.sender.slots, b);
    }
  }

  lemma OpenIdsHas(slots: map<nat, Slot>, b: nat)
    ensures b in OpenIds(slots) <==> IsOpen(slots, b)
  {
  }

  lemma OpenBounded(t: Transfer, s: State)
    requires Inv(t, s)
    ensures |OpenIds(s.sender.slots)| <= t.pipelineDepth
  {
    SI.DepthHeld(t, s.sender);
  }

  // ---- completion ----

  /** The ids of Completes written and not yet handled. */
  ghost function InFlight(s: State): set<nat>
    requires s.consumed <= |s.acks|
  {
    set k | s.consumed <= k < |s.acks| && s.acks[k].Complete? :: s.acks[k].blockId
  }

  /** The receiver's completed blocks (with the one it is just closing) are the disjoint union
      of the sender's Resolved blocks and the Completes in flight; every Complete in flight
      names an Open block, so the sender's other three branches are never taken; both
      `completed` counters are exact. */
  lemma CompletionExactlyOnce(t: Transfer, actions: seq<Action>)
    ensures var s := EndOf(t, actions);
            && s.consumed <= |s.acks|
            && ResolvedIds(s.sender.slots) !! InFlight(s)
            && (forall b :: b in ResolvedIds(s.sender.slots) + InFlight(s) <==>
                  b in s.tracker.completed || Closing(s.manager, b))
            && (forall b :: b in InFlight(s) ==> IsOpen(s.sender.slots, b))
            && s.sender.completed == |ResolvedIds(s.sender.slots)|
            && s.resolved == |s.tracker.completed|
  {
    var s := EndOf(t, actions);
    RunInv(t, actions);
    hide EndOf, SI.Inv, DataPlane, Rounds, Time, KnownOk, CausesOk, ResolvedIds;
    SR.ResolvedCounted(t, s.sender);
    FlightFacts(t, s);
  }

  lemma FlightFacts(t: Transfer, s: State)
    requires Inv(t, s)
    ensures s.consumed <= |s.acks|
    ensures ResolvedIds(s.sender.slots) !! InFlight(s)
    ensures forall b :: b in ResolvedIds(s.sender.slots) + InFlight(s) <==>
        b in s.tracker.completed || Closing(s.manager, b)
    ensures forall b :: b in InFlight(s) ==> IsOpen(s.sender.slots, b)
  {
    hide SenderSide, DataPlane, Rounds, Time, CausesOk, TotalBlocks, PacketsInBlock, K.Ok;
    forall b | b in InFlight(s)
      ensures Complete(b) in s.acks && !IsResolved(s.sender.slots, b) && IsOpen(s.sender.slots, b)
    {
      var k :| s.consumed <= k < |s.acks| && s.acks[k].Complete? && s.acks[k].blockId == b;
      assert s.acks[k] == Complete(b);
      assert Busy(s.manager) != [] ==> Busy(s.manager)[0] in Busy(s.manager);
    }
    forall b | Complete(b) in s.acks ensures b in ResolvedIds(s.sender.slots) + InFlight(s) {
      var k :| 0 <= k < |s.acks| && s.acks[k] == Complete(b);
      if k < s.consumed {
        assert s.acks[..s.consumed][k] == Complete(b);
      }
    }
    forall b | IsResolved(s.sender.slots, b) ensures Complete(b) in s.acks {
      var k :| 0 <= k < s.consumed && s.acks[k] == Complete(b);
      assert s.acks[k] in s.acks;
    }
  }

  /** The ack manager never leaves a sender waiting: once it has exited, every block's Complete
      has been written, and the sender still runs only while one of them is unread. */
  lemma NoAbandonedSender(t: Transfer, actions: seq<Action>)
    requires AckManagerDone(t, EndOf(t, actions))
    ensures var s := EndOf(t, actions);
            && (forall b: nat :: b < TotalBlocks(t) ==> Complete(b) in s.acks)
            && s.consumed <= |s.acks|
            && (Running(t, s.sender) ==> exists k :: s.consumed <= k < |s.acks| && s.acks[k].Complete?)
            && (s.consumed == |s.acks| ==> forall b: nat :: b < TotalBlocks(t) ==> IsResolved(s.sender.slots, b))
  {
    hide EndOf, Inv, TotalBlocks, Running;
    var s := EndOf(t, actions);
    RunInv(t, actions);
    DoneMeansAllCompleted(t, s);
    AllWritten(t, s);
    DoneCovered(t, s);
    hide AckManagerDone, InFlight, ResolvedIds;
    if forall k :: s.consumed <= k < |s.acks| ==> !s.acks[k].Complete? {
      NoneInFlight(t, s);
    }
  }

  lemma DoneCovered(t: Transfer, s: State)
    requires Inv(t, s) && AckManagerDone(t, s)
    ensures s.consumed <= |s.acks|
    ensures ResolvedIds(s.sender.slots) + InFlight(s) == Below(TotalBlocks(t))
  {
    hide Inv, TotalBlocks, Closing, ResolvedIds;
    DoneMeansAllCompleted(t, s);
    FlightFacts(t, s);
    assert forall b :: !Closing(s.manager, b) by { NothingClosing(s.manager); }
    hide InFlight;
  }

  lemma NothingClosing(m: AckManager)
    requires m.Polling?
    ensures forall b :: !Closing(m, b)
  {
  }

  /** With no Complete left to read, the sender has resolved everything and stopped. */
  lemma NoneInFlight(t: Transfer, s: State)
    requires Inv(t, s) && s.consumed <= |s.acks|
    requires ResolvedIds(s.sender.slots) + InFlight(s) == Below(TotalBlocks(t))
    requires forall k :: s.consumed <= k < |s.acks| ==> !s.acks[k].Complete?
    ensures !Running(t, s.sender) && forall b: nat :: b < TotalBlocks(t) ==> IsResolved(s.sender.slots, b)
  {
    hide SI.Inv, Control, DataPlane, Rounds, Time, TotalBlocks, ResolvedIds;
    SR.ResolvedCounted(t, s.sender);
    hide Inv;
    EmptyFlight(s);
    hide InFlight;
    assert ResolvedIds(s.sender.slots) + {} == ResolvedIds(s.sender.slots);
    forall b: nat | b < TotalBlocks(t) ensures IsResolved(s.sender.slots, b) {
      ResolvedIdsHas(s.sender.slots, b);
    }
  }

  lemma EmptyFlight(s: State)
    requires s.consumed <= |s.acks| && forall k :: s.consumed <= k < |s.acks| ==> !s.acks[k].Complete?
    ensures InFlight(s) == {}
  {
  }

  lemma ResolvedIdsHas(slots: map<nat, Slot>, b: nat)
    ensures b in ResolvedIds(slots) <==> IsResolved(slots, b)
  {
  }

  lemma AllWritten(t: Transfer, s: State)
    requires Inv(t, s)
    ensures forall b :: b in s.tracker.completed ==> Complete(b) in s.acks
  {
  }

  // ---- the sender's books ----

  lemma ResolvedBelow(t: Transfer, s: State)
    requires Inv(t, s)
    ensures forall b :: b in ResolvedIds(s.sender.slots) ==> b < TotalBlocks(t)
  {
    hide SenderSide, DataPlane, Time, RoundsOk, KnownOk, ManagerOk, CausesOk, TotalBlocks, PacketsInBlock;
    forall b | b in ResolvedIds(s.sender.slots) ensures b < TotalBlocks(t) {
      assert IsResolved(s.sender.slots, b);
      assert Complete(b) in s.acks[..s.consumed];
      assert AckShape(t, Complete(b));
    }
  }

  /** When the sender exits, every block is Resolved, and no block outside the file is. */
  lemma SenderExitsResolved(t: Transfer, s: State)
    requires Inv(t, s) && !Running(t, s.sender)
    ensures ResolvedIds(s.sender.slots) == Below(TotalBlocks(t))
  {
    ResolvedBelow(t, s);
    hide SI.Inv, Control, DataPlane, Rounds, Time, TotalBlocks, ResolvedIds;
    SR.ResolvedCounted(t, s.sender);
    Pigeonhole(ResolvedIds(s.sender.slots), TotalBlocks(t));
  }

  lemma {:induction false} SizesAddUp(t: Transfer, placed: set<nat>, n: nat)
    requires n <= TotalChunks(t) && forall c: nat :: c < n ==> c in placed
    ensures Sum(SI.SizeOf(t, placed), n) == |Concat(t.file[..n])|
  {
    if n > 0 {
      SizesAddUp(t, placed, n - 1);
      assert t.file[..n][..n - 1] == t.file[..n - 1];
    }
  }

  lemma AllPlacedBooks(t: Transfer, s: Sender)
    requires Valid(t) && SI.Inv(t, s) && forall c: nat :: c < TotalChunks(t) ==> c in s.placed
    ensures s.packetsSent == TotalChunks(t) && s.bytesSent == |t.original|
  {
    hide SI.Inv, Valid, Sum, Concat, SI.SizeOf;
    BooksOf(t, s);
    AllBelow(s.placed, TotalChunks(t));
    SizesAddUp(t, s.placed, TotalChunks(t));
    assert t.file[..TotalChunks(t)] == t.file;
    FileJoins(t);
  }

  lemma AllBelow(ids: set<nat>, n: nat)
    requires forall c: nat :: c in ids <==> c < n
    ensures |ids| == n
  {
    assert ids == Below(n);
  }

  lemma BooksOf(t: Transfer, s: Sender)
    requires SI.Inv(t, s)
    ensures s.packetsSent == |s.placed| && s.bytesSent == Sum(SI.SizeOf(t, s.placed), TotalChunks(t))
    ensures forall c :: c in s.placed ==> c < TotalChunks(t)
  {
  }

  /** If no block was given up, nothing is lost at the sender: at its exit every chunk was
      sent, and the counters are the chunk count and the file size. */
  lemma ForceFreeSendsEverything(t: Transfer, actions: seq<Action>)
    requires Valid(t)
    requires !Running(t, EndOf(t, actions).sender) && EndOf(t, actions).gaveUp == map[]
    ensures var s := EndOf(t, actions);
            && (forall c: nat :: c < TotalChunks(t) ==> c in s.sender.placed)
            && s.sender.packetsSent == TotalChunks(t)
            && s.sender.bytesSent == |t.original|
  {
    var s := EndOf(t, actions);
    RunInv(t, actions);
    SenderExitsResolved(t, s);
    hide EndOf, TotalBlocks, Inv, BlockOf, IndexOf, ChunkIdOf, PacketsInBlock, Running;
    forall c: nat | c < TotalChunks(t) ensures c in s.sender.placed {
      ChunkPlace(t, c);
      assert BlockOf(t, c) in ResolvedIds(s.sender.slots);
      ResolvedChunkPlaced(t, s, c);
    }
    InvParts(t, s);
    AllPlacedBooks(t, s.sender);
  }

  lemma ResolvedChunkPlaced(t: Transfer, s: State, c: nat)
    requires Inv(t, s) && c < TotalChunks(t) && IsResolved(s.sender.slots, BlockOf(t, c))
    ensures c in s.sender.placed || BlockOf(t, c) in s.gaveUp
  {
    hide SenderSide, Control, Rounds, Time, TotalBlocks, BlockOf, IndexOf, ChunkIdOf, PacketsInBlock;
    hide PacketsOk, ChunksOk, WriterOk, HeldOk, BitsOk, GenuineOk, LossOk;
    ResolvedCause(t, s, BlockOf(t, c));
    if BlockOf(t, c) in s.genuine {
      ChunksOfConfirmed(t, s, c);
    }
  }

  /** The Drop branch is taken on an arriving chunk only for a block that was given up. */
  lemma DropOnlyAfterGiveUp(t: Transfer, actions: seq<Action>, c: nat)
    requires c < TotalChunks(t) && c !in EndOf(t, actions).sender.arrived
    requires IsResolved(EndOf(t, actions).sender.slots, BlockOf(t, c))
    ensures BlockOf(t, c) in EndOf(t, actions).gaveUp
  {
    RunInv(t, actions);
    FreshChunkNotConfirmed(t, EndOf(t, actions), c);
  }

  /** Over a whole run, repairs and fallbacks together resend at most
      `(maxRounds + 1) * total_chunks` packets. */
  lemma RepairsBounded(t: Transfer, actions: seq<Action>)
    ensures EndOf(t, actions).sender.retransmitted <= (t.maxRounds + 1) * TotalChunks(t)
  {
    var s := EndOf(t, actions);
    RunInv(t, actions);
    hide EndOf, SI.Inv, Control, DataPlane, Time, AckShape, MissingCount, TotalBlocks, PacketsInBlock;
    NamedPrefix(s.acks, s.consumed);
    NamedTotal(t, s.acks);
    FallbackTotal(t, s.sender);
    Distribute(t.maxRounds, 1, TotalChunks(t));
  }

  lemma FallbackTotal(t: Transfer, s: Sender)
    requires SI.Inv(t, s)
    ensures s.retransmitted <= s.named + TotalChunks(t)
  {
    hide TotalBlocks;
    SumMonotone(SI.FallbackCost(t, s.slots), PacketsIn(t), TotalBlocks(t));
    BlocksPartitionFile(t);
  }

  /** BlockEnd goes out at most twice per block: once when its last packet does, once in the
      fallback; and only when every packet of the block has been sent. */
  lemma BlockEndsBounded(t: Transfer, actions: seq<Action>, b: nat)
    requires b < TotalBlocks(t)
    ensures var s := EndOf(t, actions).sender;
            var end := BlockEnd(b, PacketsInBlock(t, b));
            && multiset(s.log)[end] <= 2
            && (end in s.log ==> forall i: nat :: i < PacketsInBlock(t, b) ==> ChunkIdOf(t, b, i) in s.placed)
            && (IsOpen(s.slots, b) && !s.slots[b].block.fallbackSent ==> multiset(s.log)[end] <= 1)
  {
    var s := EndOf(t, actions).sender;
    RunInv(t, actions);
    hide EndOf, Control, DataPlane, Rounds, Time, TotalBlocks, PacketsInBlock, ChunkIdOf, BlockOf;
    assert SI.EndsMatch(s.slots, b, multiset(s.log)[BlockEnd(b, PacketsInBlock(t, b))]);
    if BlockEnd(b, PacketsInBlock(t, b)) in s.log {
      assert SI.LoggedOk(t, s, BlockEnd(b, PacketsInBlock(t, b)));
    }
  }

  /** The manager never panics and never waits with an admittable block left unopened. */
  lemma SenderSound(t: Transfer, actions: seq<Action>)
    ensures var s := EndOf(t, actions).sender;
            && !s.panicked
            && 0 <= s.openSlots == |OpenIds(s.slots)| <= t.pipelineDepth
            && (PendingIds(s.slots) != {} ==> s.openSlots == t.pipelineDepth)
  {
    RunInv(t, actions);
    hide EndOf, Control, DataPlane, Rounds, Time;
  }

  // ---- rounds and time ----

  /** A block is answered with at most `maxRounds` Missing acks, each naming ascending packet ids
      of that block, and one Complete after which nothing more is said about it. */
  lemma AcksPerBlock(t: Transfer, actions: seq<Action>)
    ensures var s := EndOf(t, actions);
            && (forall a :: a in s.acks ==> a.blockId < TotalBlocks(t))
            && (forall b: nat :: MissingCount(s.acks, b) <= t.maxRounds)
            && (forall a :: a in s.acks && a.Missing? ==>
                  K.Ascending(a.missing) && forall i: nat :: i in a.missing ==> i < PacketsInBlock(t, a.blockId))
            && (forall i, j :: 0 <= i < j < |s.acks| && s.acks[i].Complete? ==> s.acks[j].blockId != s.acks[i].blockId)
  {
    RunInv(t, actions);
    hide EndOf, SenderSide, DataPlane, Time, TotalBlocks, PacketsInBlock, MissingCount, K.Ascending;
    assert forall a :: a in EndOf(t, actions).acks ==> AckShape(t, a);
  }

  /** A block is given up only after it has been tracked for all its backoffs. */
  lemma GiveUpTakesAllBackoffs(t: Transfer, actions: seq<Action>, b: nat)
    requires b in EndOf(t, actions).gaveUp
    ensures EndOf(t, actions).gaveUp[b] >= Backoff(t, t.maxRounds + 1)
  {
    RunInv(t, actions);
    hide EndOf, SenderSide, Control, DataPlane, Rounds, TimeOk, Backoff;
  }

  /** No action gives rounds back, and every check uses one up. */
  lemma ChecksNeverRise(t: Transfer, s: State, a: Action)
    requires Inv(t, s) && Enabled(t, s, a)
    ensures ChecksLeft(t, Next(t, s, a)) <= ChecksLeft(t, s)
    ensures a.Check? ==> ChecksLeft(t, Next(t, s, a)) < ChecksLeft(t, s)
  {
    hide SenderSide, DataPlane, Rounds, Time, KnownOk, AcksOk, ManagerOk, CausesOk, TotalBlocks, Absorbs, Deliverable,
        RoundsLeft;
    hide K.Touch, K.EndSeen, K.Verify, Running;
    TrackedBusy(t, s);
    match a
    case Deliver(Data(b, i, _, _), payload, hash) =>
      TouchAbsorbs(s.tracker, b, PacketsInBlock(t, b), s.now);
      AbsorbChecksLeft(t, s.tracker, Next(t, s, a).tracker, b, PacketsInBlock(t, b), s.now, {});
    case Deliver(BlockEnd(b, n), payload, hash) =>
      EndSeenAbsorbs(s.tracker, b, n, s.now);
      AbsorbChecksLeft(t, s.tracker, Next(t, s, a).tracker, b, n, s.now, {});
    case WorkerVerify(p) =>
      VerifyAbsorbs(s.tracker, p.blockId, p.index, PacketsInBlock(t, p.blockId), s.now);
      if t.hash(t.crypt(p.chunkId, p.encrypted)) == p.hash {
        AbsorbChecksLeft(t, s.tracker, Next(t, s, a).tracker, p.blockId, PacketsInBlock(t, p.blockId), s.now,
            {p.index});
      }
    case Check => CheckDecreases(t, s);
    case RemoveDone => RemoveChecksLeft(t, s);
    case _ =>
  }

  /** How many checks the ack manager made in a run. */
  ghost function ChecksMade(t: Transfer, actions: seq<Action>): nat {
    if |actions| == 0 then 0 else
    var n := |actions| - 1;
    ChecksMade(t, actions[..n]) + if actions[n].Check? && Enabled(t, EndOf(t, actions[..n]), actions[n]) then 1 else 0
  }

  /** Whatever the network does, the ack manager makes at most `maxRounds + 1` checks per block. */
  lemma {:induction false} ChecksBounded(t: Transfer, actions: seq<Action>)
    ensures ChecksMade(t, actions) + ChecksLeft(t, EndOf(t, actions)) <= (t.maxRounds + 1) * TotalBlocks(t)
  {
    hide Inv, Enabled, Next, ChecksLeft, TotalBlocks;
    if |actions| == 0 {
      InitialChecks(t, TotalBlocks(t));
      assert ChecksLeft(t, INIT) == Sum(RoundsLeft(t, K.EMPTY), TotalBlocks(t)) by { LeftAtStart(t); }
    } else {
      var n := |actions| - 1;
      var s := EndOf(t, actions[..n]);
      ChecksBounded(t, actions[..n]);
      RunInv(t, actions[..n]);
      if Enabled(t, s, actions[n]) {
        ChecksNeverRise(t, s, actions[n]);
      }
    }
  }

  lemma LeftAtStart(t: Transfer)
    ensures ChecksLeft(t, INIT) == Sum(RoundsLeft(t, K.EMPTY), TotalBlocks(t))
  {
  }

  lemma {:induction false} InitialChecks(t: Transfer, n: nat)
    ensures Sum(RoundsLeft(t, K.EMPTY), n) == (t.maxRounds + 1) * n
  {
    if n > 0 {
      InitialChecks(t, n - 1);
      AddOneBlock(n - 1, t.maxRounds + 1);
      var m := t.maxRounds + 1;
      assert m * n == n * m && m * (n - 1) == (n - 1) * m;
    }
  }

  // ---- the wire ----

  /** Every datagram of a run decodes from its encoding to itself, and the ack stream reads
      back as exactly the acks written. */
  lemma WireCarriesTheRun(t: Transfer, actions: seq<Action>)
    requires Valid(t)
    ensures var s := EndOf(t, actions);
            && (forall d :: d in s.sender.log ==> DecodeDatagram(EncodeDatagram(d)) == Some(d))
            && DecodeAll(EncodeAll(s.acks)) == s.acks
  {
    var s := EndOf(t, actions);
    RunInv(t, actions);
    hide EndOf, Inv, DecodeDatagram, EncodeDatagram, FitsDatagram, FitsAck, EncodeAll, DecodeAll;
    forall d | d in s.sender.log ensures DecodeDatagram(EncodeDatagram(d)) == Some(d) {
      LoggedFits(t, s, d);
      DecodeIffEncoding(EncodeDatagram(d), d);
    }
    forall k | 0 <= k < |s.acks| ensures FitsAck(s.acks[k]) {
      AckFits(t, s, s.acks[k]);
    }
    assert EncodeAll(s.acks) + [] == EncodeAll(s.acks);
    AckStreamRoundTrip(s.acks, []);
  }

  lemma PacketFits(t: Transfer, c: nat)
    requires Valid(t) && c < TotalChunks(t)
    ensures FitsDatagram(PacketOf(t, c))
  {
    NoOverflow(t, c);
    SplitConcat(t.original, t.chunkSize);
    hide BlockOf, IndexOf, Split, Concat;
    assert |t.crypt(c, Plain(t, c))| == |Plain(t, c)|;
  }

  lemma EndFits(t: Transfer, b: nat)
    requires Valid(t) && b < TotalBlocks(t)
    ensures FitsDatagram(BlockEnd(b, PacketsInBlock(t, b)))
  {
    BlockBelow(t, b);
    hide TotalBlocks, Split;
    PlaceChunkId(t, b, 0);
    NoOverflow(t, ChunkIdOf(t, b, 0));
  }

  lemma LoggedFits(t: Transfer, s: State, d: Datagram)
    requires Valid(t) && Inv(t, s) && d in s.sender.log
    ensures FitsDatagram(d)
  {
    hide Inv, SI.Inv, Valid, TotalBlocks, PacketsInBlock, PacketOf, ChunkIdOf, FitsDatagram;
    InvParts(t, s);
    hide Control, DataPlane, Rounds, Time;
    LoggedBlock(t, s.sender, d);
    if d.Data? {
      LoggedChunk(t, s.sender, d);
      PacketFits(t, ChunkIdOf(t, d.blockId, d.index));
    } else {
      EndFits(t, d.blockId);
    }
  }

  lemma LoggedChunk(t: Transfer, s: Sender, d: Datagram)
    requires SI.Inv(t, s) && d in s.log && d.Data?
    ensures d == PacketOf(t, ChunkIdOf(t, d.blockId, d.index)) && ChunkIdOf(t, d.blockId, d.index) < TotalChunks(t)
  {
    hide TotalBlocks, BlockOf, IndexOf, ChunkIdOf, PacketOf, PacketsInBlock;
    assert SI.LoggedOk(t, s, d);
  }

  lemma AckFits(t: Transfer, s: State, a: BlockAck)
    requires Valid(t) && Inv(t, s) && a in s.acks
    ensures FitsAck(a)
  {
    hide SenderSide, Control, DataPlane, Time, RoundsOk, TotalBlocks, PacketsInBlock, ChunkIdOf, BlockOf, IndexOf,
        Split;
    assert AckShape(t, a);
    BlockBelow(t, a.blockId);
    PlaceChunkId(t, a.blockId, 0);
    NoOverflow(t, ChunkIdOf(t, a.blockId, 0));
    if a.Missing? {
      assert forall k :: 0 <= k < |a.missing| ==> a.missing[k] in a.missing;
    }
  }

  /** An undamaged datagram is always accepted: it is queued, the receiver's chunk id and keystream
      undo the sender's, the checksum agrees, and the plaintext goes on. */
  lemma UndamagedAccepted(t: Transfer, actions: seq<Action>, d: Datagram)
    requires Valid(t) && d in EndOf(t, actions).sender.log && d.Data?
    ensures var s := EndOf(t, actions);
            var c := ChunkIdOf(t, d.blockId, d.index);
            && Deliverable(t, s, d, d.payload, d.hash)
            && t.crypt(c, d.payload) == Plain(t, c) && t.hash(t.crypt(c, d.payload)) == d.hash
    ensures var s := EndOf(t, actions);
            var c := ChunkIdOf(t, d.blockId, d.index);
            var p, s1 := Received(c, d.blockId, d.index, d.payload, d.hash), DeliverNext(t, s, d, d.payload, d.hash);
            && p in s1.packets
            && c in VerifyNext(t, s1, p).verifiedIds
            && W.DecryptedChunk(c, Plain(t, c)) in VerifyNext(t, s1, p).verified
  {
    RunInv(t, actions);
    var s := EndOf(t, actions);
    hide EndOf, Control, DataPlane, Rounds, Time;
    LoggedChunk(t, s.sender, d);
    hide Inv, ChunkIdOf, Split;
    var c := ChunkIdOf(t, d.blockId, d.index);
    assert t.crypt(c, t.crypt(c, Plain(t, c))) == Plain(t, c);
  }
}
