/** What the received bits and the acks say, exactly: a bit is set when and only when its chunk
    was verified, and a Missing ack names what was unverified at its check, no more and no less. */
module SystemBits {
  import opened Transfers
  import opened Protocol
  import opened Sender
  import K = Tracker
  import W = ReorderWriter
  import opened System
  import opened SystemControl
  import opened SystemData
  import opened SystemRounds
  import opened SystemTime
  import opened SystemInvariant
  import opened Progress

  // ---- set bits and verified chunks ----

  ghost predicate BitSet(t: Transfer, s: State, c: nat) {
    var b, i := BlockOf(t, c), IndexOf(t, c);
    || b in s.tracker.completed
    || (b in s.tracker.blocks && i < |s.tracker.blocks[b].received| && s.tracker.blocks[b].received[i])
  }

  /** Every verified chunk has its bit set, or its block is completed. */
  ghost predicate VerifiedBits(t: Transfer, s: State) {
    forall c :: c in s.verifiedIds ==> BitSet(t, s, c)
  }

  /** Every queued packet's block is known to the tracker. */
  ghost predicate QueuedTraced(s: State) {
    forall p :: p in s.packets ==> Traced(s, p.blockId)
  }

  lemma BitKept(t: Transfer, s: State, s': State, c: nat)
    requires K.Evolves(s.tracker, s'.tracker) && BitSet(t, s, c)
    ensures BitSet(t, s', c)
  {
    hide BlockOf, IndexOf;
  }

  lemma TrackerEvolves(t: Transfer, s: State, a: Action)
    requires Inv(t, s) && Enabled(t, s, a)
    ensures K.Evolves(s.tracker, Next(t, s, a).tracker)
  {
    TrackedBusy(t, s);
    hide Inv, Next, Enabled, K.Apply, K.Evolves, K.Ok;
    var op := OneOpAtMost(t, s, a);
    if op.Some? {
      K.OpKeeps(s.tracker, op.value);
    } else {
      SelfEvolves(s.tracker);
    }
  }

  lemma SelfEvolves(k: K.Tracker)
    ensures K.Evolves(k, k)
  {
  }

  /** The one action that verifies a chunk sets its bit. */
  lemma VerifySetsBit(t: Transfer, s: State, p: Received)
    requires Inv(t, s) && p in s.packets && t.hash(t.crypt(p.chunkId, p.encrypted)) == p.hash
    ensures BitSet(t, VerifyNext(t, s, p), p.chunkId)
  {
    PacketPlace(t, s, p);
    hide Inv, PacketsInBlock, ChunkIdOf, BlockOf, IndexOf, K.EntryOk;
    if p.blockId !in s.tracker.completed {
      K.VerifyExact(s.tracker, p.blockId, p.index, PacketsInBlock(t, p.blockId), s.now);
      hide K.Verify;
    }
  }

  lemma PacketPlace(t: Transfer, s: State, p: Received)
    requires Inv(t, s) && p in s.packets
    ensures p.blockId == BlockOf(t, p.chunkId) && p.index == IndexOf(t, p.chunkId)
    ensures p.blockId !in s.tracker.completed ==>
              p.index < |K.EntryOrNew(s.tracker, p.blockId, PacketsInBlock(t, p.blockId), s.now).received|
  {
    hide SenderSide, Rounds, Time, TotalBlocks, BlockOf, IndexOf, ChunkIdOf, PacketsInBlock, IdealCheck;
    hide AcksOk, ManagerOk, CausesOk, ChunksOk, WriterOk, HeldOk, VerifiedOk, BitsOk, GenuineOk, LossOk, K.Count;
    assert PacketOk(t, s.sender.placed, p);
    PlaceChunkId(t, p.blockId, p.index);
  }

  lemma VerifiedGrow(t: Transfer, s: State, a: Action)
    requires Enabled(t, s, a)
    ensures s.verifiedIds <= Next(t, s, a).verifiedIds
    ensures forall c :: c in Next(t, s, a).verifiedIds && c !in s.verifiedIds ==>
              && a.WorkerVerify? && c == a.packet.chunkId
              && t.hash(t.crypt(a.packet.chunkId, a.packet.encrypted)) == a.packet.hash
  {
    hide SenderNext, PacketsInBlock, K.Touch, K.EndSeen, K.Verify, K.Remove, K.Tick, K.DueIn, Running, Deliverable;
    hide ChunkIdOf, ReplyOf, TrackedFor, ChunkOf, TotalBlocks;
    match a
    case ChunkArrives(c, at) => SenderVerifiesNothing(t, s, ChunkEvent(ChunkOf(t, c)), at);
    case AckArrives(at) => SenderVerifiesNothing(t, s, AckEvent(s.acks[s.consumed]), at);
    case SenderTimeout(order, at) => SenderVerifiesNothing(t, s, Timeout(order), at);
    case _ =>
  }

  lemma SenderVerifiesNothing(t: Transfer, s: State, e: Event, at: nat)
    ensures SenderNext(t, s, e, at).verifiedIds == s.verifiedIds
  {
    hide Step;
  }

  lemma VerifiedBitsKept(t: Transfer, s: State, a: Action)
    requires Inv(t, s) && Enabled(t, s, a) && VerifiedBits(t, s)
    ensures VerifiedBits(t, Next(t, s, a))
  {
    var s' := Next(t, s, a);
    VerifiedGrow(t, s, a);
    TrackerEvolves(t, s, a);
    if a.WorkerVerify? {
      VerifyIsNext(t, s, a);
    }
    hide Inv, Next, BitSet, K.Evolves;
    forall c | c in s'.verifiedIds ensures BitSet(t, s', c) {
      if c in s.verifiedIds {
        BitKept(t, s, s', c);
      } else {
        VerifySetsBit(t, s, a.packet);
      }
    }
  }

  lemma VerifyIsNext(t: Transfer, s: State, a: Action)
    requires a.WorkerVerify? && Enabled(t, s, a)
    ensures Next(t, s, a) == VerifyNext(t, s, a.packet) && a.packet in s.packets
  {
  }

  lemma DeliverQueues(t: Transfer, s: State, d: Datagram, payload: Bytes, hash: nat)
    ensures forall p :: p in DeliverNext(t, s, d, payload, hash).packets && p !in s.packets ==> p.blockId == d.blockId
  {
    hide PacketsInBlock, ChunkIdOf, K.Touch, K.EndSeen;
  }

  lemma VerifyQueuesNothing(t: Transfer, s: State, p: Received)
    ensures forall x :: x in VerifyNext(t, s, p).packets ==> x in s.packets
  {
    hide PacketsInBlock, K.Verify;
  }

  lemma QueuedMore(t: Transfer, s: State, a: Action)
    requires Enabled(t, s, a)
    ensures forall p :: p in Next(t, s, a).packets && p !in s.packets ==> a.Deliver? && p.blockId == a.datagram.blockId
  {
    hide SenderNext, VerifyNext, DeliverNext, K.Remove, K.Tick, K.DueIn, Running, Deliverable;
    hide ReplyOf, TrackedFor, ChunkOf, TotalBlocks;
    match a
    case Deliver(d, payload, hash) => DeliverQueues(t, s, d, payload, hash);
    case WorkerVerify(p) => VerifyQueuesNothing(t, s, p);
    case ChunkArrives(c, at) => SenderTracksNothing(t, s, ChunkEvent(ChunkOf(t, c)), at);
    case AckArrives(at) => SenderTracksNothing(t, s, AckEvent(s.acks[s.consumed]), at);
    case SenderTimeout(order, at) => SenderTracksNothing(t, s, Timeout(order), at);
    case _ =>
  }

  lemma QueuedTracedKept(t: Transfer, s: State, a: Action)
    requires Enabled(t, s, a) && QueuedTraced(s)
    ensures QueuedTraced(Next(t, s, a))
  {
    var s' := Next(t, s, a);
    QueuedMore(t, s, a);
    if a.Deliver? {
      DeliverIs(t, s, a);
      DeliveryTraces(t, s, a.datagram, a.payload, a.hash);
    }
    hide Next, Enabled, Traced;
    forall p | p in s'.packets ensures Traced(s', p.blockId) {
      if p in s.packets {
        TraceKept(t, s, a, p.blockId);
      }
    }
  }

  lemma {:induction false} RunBits(t: Transfer, actions: seq<Action>)
    ensures VerifiedBits(t, EndOf(t, actions)) && QueuedTraced(EndOf(t, actions))
  {
    hide Inv, Enabled, Next;
    if |actions| > 0 {
      var n := |actions| - 1;
      var s := EndOf(t, actions[..n]);
      RunBits(t, actions[..n]);
      RunInv(t, actions[..n]);
      hide VerifiedBits, QueuedTraced;
      if Enabled(t, s, actions[n]) {
        VerifiedBitsKept(t, s, actions[n]);
        QueuedTracedKept(t, s, actions[n]);
      }
    }
  }

  /** While a block is tracked, packet `i`'s bit is set exactly when its chunk was verified. */
  lemma BitIffVerified(t: Transfer, actions: seq<Action>, b: nat, i: nat)
    requires b in EndOf(t, actions).tracker.blocks && i < PacketsInBlock(t, b)
    ensures var s := EndOf(t, actions);
            && i < |s.tracker.blocks[b].received|
            && (s.tracker.blocks[b].received[i] <==> ChunkIdOf(t, b, i) in s.verifiedIds)
  {
    RunInv(t, actions);
    RunBits(t, actions);
    hide EndOf;
    BitsBothWays(t, EndOf(t, actions), b, i);
  }

  lemma BitsBothWays(t: Transfer, s: State, b: nat, i: nat)
    requires Inv(t, s) && VerifiedBits(t, s) && b in s.tracker.blocks && i < PacketsInBlock(t, b)
    ensures i < |s.tracker.blocks[b].received|
    ensures s.tracker.blocks[b].received[i] <==> ChunkIdOf(t, b, i) in s.verifiedIds
  {
    hide SenderSide, Rounds, Time, TotalBlocks, BlockOf, IndexOf, ChunkIdOf, PacketsInBlock, PacketsOk;
    hide AcksOk, ManagerOk, CausesOk, ChunksOk, WriterOk, HeldOk, VerifiedOk, GenuineOk, LossOk, K.Count;
    PlaceChunkId(t, b, i);
    assert EntryBits(t, s.verifiedIds, b, s.tracker.blocks[b]);
    assert ChunkIdOf(t, b, i) in s.verifiedIds ==> BitSet(t, s, ChunkIdOf(t, b, i));
  }

  // ---- what a check finds ----

  ghost predicate AllVerified(t: Transfer, s: State, b: nat) {
    forall i: nat :: i < PacketsInBlock(t, b) ==> ChunkIdOf(t, b, i) in s.verifiedIds
  }

  /** The list names exactly the block's unverified packets. */
  ghost predicate NamesUnverified(t: Transfer, s: State, b: nat, missing: seq<nat>) {
    forall i: nat :: i in missing <==> i < PacketsInBlock(t, b) && ChunkIdOf(t, b, i) !in s.verifiedIds
  }

  lemma TrackedShape(t: Transfer, s: State, b: nat)
    requires Inv(t, s) && b in s.tracker.blocks
    ensures var e := s.tracker.blocks[b];
            K.EntryOk(e) && |e.received| == e.total == PacketsInBlock(t, b) && e.total <= U16 && b < TotalBlocks(t)
  {
    hide SenderSide, DataPlane, Rounds, Time, TotalBlocks, AcksOk, ManagerOk, CausesOk;
    BlockBelow(t, b);
  }

  lemma SnapshotTrue(t: Transfer, s: State, b: nat)
    requires Inv(t, s) && VerifiedBits(t, s) && b in s.tracker.blocks
    ensures var x := K.Tick(s.tracker, b, s.now).1;
            && x.Some? && K.Ascending(x.value.missing) && NamesUnverified(t, s, b, x.value.missing)
            && (x.value.complete <==> AllVerified(t, s, b))
  {
    hide Inv, K.Tick, K.EntryOk, K.Ascending, PacketsInBlock, TotalBlocks, ChunkIdOf, VerifiedBits;
    TrackedShape(t, s, b);
    K.SnapshotExact(s.tracker, b, s.now);
    forall i: nat | i < PacketsInBlock(t, b)
      ensures s.tracker.blocks[b].received[i] <==> ChunkIdOf(t, b, i) in s.verifiedIds
    {
      BitsBothWays(t, s, b, i);
    }
  }

  /** A check names exactly the packets unverified at that moment, and confirms the block exactly
      when all its packets are verified: it never gives up a block that is all there. */
  lemma CheckTellsTruth(t: Transfer, actions: seq<Action>)
    requires Enabled(t, EndOf(t, actions), Check)
    ensures var s := EndOf(t, actions);
            var b, m := s.manager.ready[0], CheckNext(s).manager;
            && m.Replying? && m.block == b
            && K.Ascending(m.snapshot.missing) && NamesUnverified(t, s, b, m.snapshot.missing)
            && (m.snapshot.complete <==> AllVerified(t, s, b))
            && (AllVerified(t, s, b) ==> ReplyOf(t, b, m.snapshot) == Complete(b))
  {
    RunInv(t, actions);
    RunBits(t, actions);
    var s := EndOf(t, actions);
    CheckFinds(t, s);
    hide EndOf, Inv, VerifiedBits, NamesUnverified, AllVerified;
    SnapshotTrue(t, s, s.manager.ready[0]);
  }

  lemma CheckFinds(t: Transfer, s: State)
    requires Inv(t, s) && Enabled(t, s, Check)
    ensures s.manager.Scanning? && 0 < |s.manager.ready| && s.manager.ready[0] in s.tracker.blocks
  {
    CheckFindsEntry(t, s);
  }

  // ---- what the acks of a run say ----

  /** Some check of the run found exactly `missing` unverified of block `b`. */
  ghost predicate FoundMissing(t: Transfer, actions: seq<Action>, b: nat, missing: seq<nat>) {
    exists k :: 0 <= k < |actions| && FoundAt(t, actions, k, b, missing)
  }

  ghost predicate FoundAt(t: Transfer, actions: seq<Action>, k: nat, b: nat, missing: seq<nat>)
    requires k < |actions|
  {
    var s := EndOf(t, actions[..k]);
    && actions[k].Check? && Enabled(t, s, actions[k]) && s.manager.ready[0] == b
    && NamesUnverified(t, s, b, missing)
  }

  ghost predicate AnswersFound(t: Transfer, actions: seq<Action>) {
    var s := EndOf(t, actions);
    && (s.manager.Replying? ==> FoundMissing(t, actions, s.manager.block, s.manager.snapshot.missing))
    && (forall a :: a in s.acks && a.Missing? ==> FoundMissing(t, actions, a.blockId, a.missing))
  }

  lemma FoundStill(t: Transfer, actions: seq<Action>, n: nat, b: nat, missing: seq<nat>)
    requires n <= |actions| && FoundMissing(t, actions[..n], b, missing)
    ensures FoundMissing(t, actions, b, missing)
  {
    hide FoundAt;
    var k :| 0 <= k < n && FoundAt(t, actions[..n], k, b, missing);
    FoundSame(t, actions, n, k, b, missing);
  }

  lemma FoundSame(t: Transfer, actions: seq<Action>, n: nat, k: nat, b: nat, missing: seq<nat>)
    requires k < n <= |actions|
    ensures FoundAt(t, actions[..n], k, b, missing) <==> FoundAt(t, actions, k, b, missing)
  {
    hide EndOf, Enabled, NamesUnverified;
    assert actions[..n][..k] == actions[..k];
  }

  /** Only a check makes a snapshot, and only a reply writes an ack, from the snapshot. */
  lemma AnswerSources(t: Transfer, s: State, a: Action)
    requires Enabled(t, s, a)
    ensures var s' := Next(t, s, a);
            && (s'.manager.Replying? && !a.Check? ==> s'.manager == s.manager)
            && (forall x :: x in s'.acks && x !in s.acks ==>
                  a.Reply? && s.manager.Replying? && x == ReplyOf(t, s.manager.block, s.manager.snapshot))
  {
    hide SenderNext, PacketsInBlock, K.Touch, K.EndSeen, K.Verify, K.Remove, K.Tick, K.DueIn, Running, Deliverable;
    hide ChunkIdOf, ReplyOf, TrackedFor, ChunkOf, TotalBlocks, VerifyNext, DeliverNext;
    match a
    case ChunkArrives(c, at) => SenderAnswersNothing(t, s, ChunkEvent(ChunkOf(t, c)), at);
    case AckArrives(at) => SenderAnswersNothing(t, s, AckEvent(s.acks[s.consumed]), at);
    case SenderTimeout(order, at) => SenderAnswersNothing(t, s, Timeout(order), at);
    case Deliver(d, payload, hash) => DeliverAnswersNothing(t, s, d, payload, hash);
    case WorkerVerify(p) => VerifyAnswersNothing(t, s, p);
    case _ =>
  }

  lemma SenderAnswersNothing(t: Transfer, s: State, e: Event, at: nat)
    ensures SenderNext(t, s, e, at).manager == s.manager && SenderNext(t, s, e, at).acks == s.acks
  {
    hide Step;
  }

  lemma DeliverAnswersNothing(t: Transfer, s: State, d: Datagram, payload: Bytes, hash: nat)
    ensures var s' := DeliverNext(t, s, d, payload, hash); s'.manager == s.manager && s'.acks == s.acks
  {
  }

  lemma VerifyAnswersNothing(t: Transfer, s: State, p: Received)
    ensures VerifyNext(t, s, p).manager == s.manager && VerifyNext(t, s, p).acks == s.acks
  {
  }

  lemma CheckFound(t: Transfer, actions: seq<Action>, n: nat)
    requires n == |actions| - 1 && actions[n].Check? && Enabled(t, EndOf(t, actions[..n]), actions[n])
    ensures var m := Next(t, EndOf(t, actions[..n]), actions[n]).manager;
            m.Replying? && FoundMissing(t, actions, m.block, m.snapshot.missing)
  {
    hide EndOf, NamesUnverified, AllVerified, K.Tick;
    CheckTellsTruth(t, actions[..n]);
    var m := CheckNext(EndOf(t, actions[..n])).manager;
    assert FoundAt(t, actions, n, m.block, m.snapshot.missing);
  }

  lemma {:induction false} RunAnswers(t: Transfer, actions: seq<Action>)
    ensures AnswersFound(t, actions)
  {
    hide Next, Enabled, FoundMissing;
    if |actions| > 0 {
      var n := |actions| - 1;
      var s := EndOf(t, actions[..n]);
      RunAnswers(t, actions[..n]);
      if Enabled(t, s, actions[n]) {
        AnswerSources(t, s, actions[n]);
        if actions[n].Check? {
          CheckFound(t, actions, n);
        } else if s.manager.Replying? {
          FoundStill(t, actions, n, s.manager.block, s.manager.snapshot.missing);
        }
      } else if s.manager.Replying? {
        FoundStill(t, actions, n, s.manager.block, s.manager.snapshot.missing);
      }
      forall a | a in s.acks && a.Missing? ensures FoundMissing(t, actions, a.blockId, a.missing) {
        FoundStill(t, actions, n, a.blockId, a.missing);
      }
    }
  }

  /** Every Missing ack a run writes names exactly the packets of its block that were unverified
      at one of the run's checks of that block. */
  lemma MissingAckTrue(t: Transfer, actions: seq<Action>, a: BlockAck)
    requires a in EndOf(t, actions).acks && a.Missing?
    ensures FoundMissing(t, actions, a.blockId, a.missing)
  {
    hide FoundMissing, EndOf;
    RunAnswers(t, actions);
  }

  lemma {:induction false} VerifiedStay(t: Transfer, actions: seq<Action>, k: nat)
    requires k <= |actions|
    ensures EndOf(t, actions[..k]).verifiedIds <= EndOf(t, actions).verifiedIds
  {
    hide Next, Enabled;
    var n := |actions| - 1;
    if k == |actions| {
      assert actions[..k] == actions;
    } else {
      assert actions[..n][..k] == actions[..k];
      VerifiedStay(t, actions[..n], k);
      if Enabled(t, EndOf(t, actions[..n]), actions[n]) {
        VerifiedGrow(t, EndOf(t, actions[..n]), actions[n]);
      }
    }
  }

  /** What a Missing ack does not name has been verified. */
  lemma UnnamedIsVerified(t: Transfer, actions: seq<Action>, a: BlockAck, i: nat)
    requires a in EndOf(t, actions).acks && a.Missing? && i < PacketsInBlock(t, a.blockId) && i !in a.missing
    ensures ChunkIdOf(t, a.blockId, i) in EndOf(t, actions).verifiedIds
  {
    hide EndOf, Enabled, PacketsInBlock, ChunkIdOf;
    MissingAckTrue(t, actions, a);
    var k :| 0 <= k < |actions| && FoundAt(t, actions, k, a.blockId, a.missing);
    VerifiedStay(t, actions, k);
  }
}
