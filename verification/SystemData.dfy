/** The data plane of the composed system: a verified chunk is never lost on its way to the
    file, and only given-up blocks lose anything at the sender. */
module SystemData {
  import opened Transfers
  import opened Sums
  import opened Protocol
  import opened Sender
  import SI = SenderInvariant
  import SenderRuns
  import K = Tracker
  import W = ReorderWriter
  import opened System
  import opened SystemControl

  ghost predicate PacketOk(t: Transfer, placed: set<nat>, p: Received) {
    && p.index < PacketsInBlock(t, p.blockId)
    && p.chunkId == ChunkIdOf(t, p.blockId, p.index)
    && p.chunkId in placed
    && IdealCheck(t, p.chunkId, p.encrypted, p.hash)
  }

  ghost predicate PacketsOk(t: Transfer, placed: set<nat>, packets: multiset<Received>) {
    forall p :: p in packets ==> PacketOk(t, placed, p)
  }

  ghost predicate ChunkOk(t: Transfer, verifiedIds: set<nat>, chunk: W.DecryptedChunk) {
    chunk.chunkId in verifiedIds && chunk.data == Plain(t, chunk.chunkId)
  }

  ghost predicate ChunksOk(t: Transfer, verifiedIds: set<nat>, verified: multiset<W.DecryptedChunk>,
      toWriter: seq<W.DecryptedChunk>) {
    && (forall chunk :: chunk in verified ==> ChunkOk(t, verifiedIds, chunk))
    && (forall chunk :: chunk in toWriter ==> ChunkOk(t, verifiedIds, chunk))
  }

  ghost predicate WriterOk(t: Transfer, verifiedIds: set<nat>, w: W.Writer) {
    W.Ok(t.file, w) && w.received <= verifiedIds
  }

  /** A verified chunk is in a worker's hand, in the writer's channel, or has reached the
      writer, unless the writer needs nothing more. */
  ghost predicate Held(t: Transfer, c: nat, verified: multiset<W.DecryptedChunk>, toWriter: seq<W.DecryptedChunk>,
      w: W.Writer) {
    var chunk := W.DecryptedChunk(c, Plain(t, c));
    chunk in verified || chunk in toWriter || c in w.received || w.done
  }

  ghost predicate HeldOk(t: Transfer, verifiedIds: set<nat>, verified: multiset<W.DecryptedChunk>,
      toWriter: seq<W.DecryptedChunk>, w: W.Writer) {
    forall c :: c in verifiedIds ==> Held(t, c, verified, toWriter, w)
  }

  ghost predicate VerifiedOk(t: Transfer, verifiedIds: set<nat>, placed: set<nat>) {
    verifiedIds <= placed && forall c :: c in verifiedIds ==> c < TotalChunks(t)
  }

  ghost predicate EntryBits(t: Transfer, verifiedIds: set<nat>, b: nat, e: K.RxEntry) {
    forall i: nat :: i < |e.received| && e.received[i] ==> ChunkIdOf(t, b, i) in verifiedIds
  }

  /** A received bit means the chunk was verified, not merely that a datagram arrived. */
  ghost predicate BitsOk(t: Transfer, verifiedIds: set<nat>, k: K.Tracker) {
    forall b :: b in k.blocks ==> EntryBits(t, verifiedIds, b, k.blocks[b])
  }

  ghost predicate GenuineOk(t: Transfer, verifiedIds: set<nat>, genuine: set<nat>) {
    forall b, i: nat :: b in genuine && i < PacketsInBlock(t, b) ==> ChunkIdOf(t, b, i) in verifiedIds
  }

  /** An arrived chunk of a Resolved block was sent, unless the receiver gave the block up. */
  ghost predicate LossOk(t: Transfer, s: Sender, gaveUp: map<nat, nat>) {
    forall c :: c in s.arrived && IsResolved(s.slots, BlockOf(t, c)) ==> c in s.placed || BlockOf(t, c) in gaveUp
  }

  ghost predicate DataPlane(t: Transfer, s: State) {
    && PacketsOk(t, s.sender.placed, s.packets)
    && ChunksOk(t, s.verifiedIds, s.verified, s.toWriter)
    && WriterOk(t, s.verifiedIds, s.writer)
    && HeldOk(t, s.verifiedIds, s.verified, s.toWriter, s.writer)
    && VerifiedOk(t, s.verifiedIds, s.sender.placed)
    && BitsOk(t, s.verifiedIds, s.tracker)
    && GenuineOk(t, s.verifiedIds, s.genuine)
    && LossOk(t, s.sender, s.gaveUp)
  }

  // ---- receiver side ----

  lemma AbsorbBits(t: Transfer, verifiedIds: set<nat>, k: K.Tracker, k': K.Tracker, b: nat, total: nat, now: nat,
      bits: set<nat>)
    requires BitsOk(t, verifiedIds, k) && Absorbs(k, k', b, total, now, bits)
    requires forall i :: i in bits ==> ChunkIdOf(t, b, i) in verifiedIds
    ensures BitsOk(t, verifiedIds, k')
  {
    hide ChunkIdOf;
    forall b' | b' in k'.blocks ensures EntryBits(t, verifiedIds, b', k'.blocks[b']) {
      if b' in k.blocks {
        assert EntryBits(t, verifiedIds, b', k.blocks[b']);
      }
    }
  }

  lemma BitsMore(t: Transfer, verifiedIds: set<nat>, more: set<nat>, k: K.Tracker)
    requires BitsOk(t, verifiedIds, k) && verifiedIds <= more
    ensures BitsOk(t, more, k)
  {
    hide ChunkIdOf;
    forall b | b in k.blocks ensures EntryBits(t, more, b, k.blocks[b]) {
      assert EntryBits(t, verifiedIds, b, k.blocks[b]);
    }
  }

  /** Delivering a datagram that was sent, damaged or not. */
  lemma DeliverData(t: Transfer, s: State, d: Datagram, payload: Bytes, hash: nat)
    requires SI.LogOk(t, s.sender) && K.Ok(s.tracker) && DataPlane(t, s) && Deliverable(t, s, d, payload, hash)
    ensures DataPlane(t, DeliverNext(t, s, d, payload, hash))
  {
    hide ChunkIdOf, BlockOf, IndexOf, PacketsInBlock, TotalBlocks, ChunksOk, WriterOk, HeldOk, VerifiedOk, GenuineOk,
        LossOk;
    hide K.Touch, K.EndSeen, K.Ok;
    assert SI.LoggedOk(t, s.sender, d);
    var s' := DeliverNext(t, s, d, payload, hash);
    match d
    case Data(b, i, _, _) =>
      var p := Received(ChunkIdOf(t, b, i), b, i, payload, hash);
      assert PacketOk(t, s.sender.placed, p);
      TouchAbsorbs(s.tracker, b, PacketsInBlock(t, b), s.now);
      hide BitsOk, Absorbs, PacketOk;
      AbsorbBits(t, s.verifiedIds, s.tracker, s'.tracker, b, PacketsInBlock(t, b), s.now, {});
    case BlockEnd(b, n) =>
      EndSeenAbsorbs(s.tracker, b, n, s.now);
      hide BitsOk, Absorbs, PacketOk;
      AbsorbBits(t, s.verifiedIds, s.tracker, s'.tracker, b, n, s.now, {});
  }

  lemma VerifyHolds(t: Transfer, s: State, p: Received)
    requires DataPlane(t, s) && p in s.packets && t.hash(t.crypt(p.chunkId, p.encrypted)) == p.hash
    requires forall c :: c in s.sender.placed ==> c < TotalChunks(t)
    ensures var s' := VerifyNext(t, s, p);
            && ChunksOk(t, s'.verifiedIds, s'.verified, s'.toWriter)
            && WriterOk(t, s'.verifiedIds, s'.writer)
            && HeldOk(t, s'.verifiedIds, s'.verified, s'.toWriter, s'.writer)
            && VerifiedOk(t, s'.verifiedIds, s.sender.placed)
            && GenuineOk(t, s'.verifiedIds, s'.genuine)
  {
    hide ChunkIdOf, BlockOf, IndexOf, PacketsInBlock, BitsOk, LossOk, W.Ok, K.Verify, Plain;
    assert PacketOk(t, s.sender.placed, p);
    var s' := VerifyNext(t, s, p);
    var chunk := W.DecryptedChunk(p.chunkId, Plain(t, p.chunkId));
    assert chunk in s'.verified;
    forall c | c in s'.verifiedIds ensures Held(t, c, s'.verified, s'.toWriter, s'.writer) {
      if c != p.chunkId {
        assert Held(t, c, s.verified, s.toWriter, s.writer);
      }
    }
    forall x | x in s'.verified ensures ChunkOk(t, s'.verifiedIds, x) {
      if x != chunk {
        assert ChunkOk(t, s.verifiedIds, x);
      }
    }
    forall x | x in s'.toWriter ensures ChunkOk(t, s'.verifiedIds, x) {
      assert ChunkOk(t, s.verifiedIds, x);
    }
  }

  /** A worker decrypts one packet and checks it: a damaged one is dropped and stays missing. */
  lemma VerifyData(t: Transfer, s: State, p: Received)
    requires K.Ok(s.tracker) && DataPlane(t, s) && p in s.packets
    requires forall c :: c in s.sender.placed ==> c < TotalChunks(t)
    ensures DataPlane(t, VerifyNext(t, s, p))
  {
    var s' := VerifyNext(t, s, p);
    assert PacketOk(t, s.sender.placed, p);
    assert PacketsOk(t, s.sender.placed, s'.packets);
    if t.hash(t.crypt(p.chunkId, p.encrypted)) == p.hash {
      VerifyHolds(t, s, p);
      hide PacketsInBlock, BlockOf, PacketsOk, ChunksOk, WriterOk, HeldOk, VerifiedOk, GenuineOk, LossOk, BitsOk,
          K.Verify, K.Ok, Absorbs;
      var total := PacketsInBlock(t, p.blockId);
      BitsMore(t, s.verifiedIds, s'.verifiedIds, s.tracker);
      VerifyAbsorbs(s.tracker, p.blockId, p.index, total, s.now);
      AbsorbBits(t, s'.verifiedIds, s.tracker, s'.tracker, p.blockId, total, s.now, {p.index});
    }
  }

  lemma WorkerSendData(t: Transfer, s: State, chunk: W.DecryptedChunk)
    requires DataPlane(t, s) && chunk in s.verified
    ensures DataPlane(t, WorkerSendNext(s, chunk))
  {
    hide PacketsInBlock, BlockOf, ChunkIdOf, PacketsOk, WriterOk, VerifiedOk, GenuineOk, LossOk, BitsOk, Plain;
    var s' := WorkerSendNext(s, chunk);
    assert ChunkOk(t, s.verifiedIds, chunk);
    forall c | c in s'.verifiedIds ensures Held(t, c, s'.verified, s'.toWriter, s'.writer) {
      assert Held(t, c, s.verified, s.toWriter, s.writer);
    }
    forall x | x in s'.toWriter ensures ChunkOk(t, s'.verifiedIds, x) {
      if x in s.toWriter {
        assert ChunkOk(t, s.verifiedIds, x);
      }
    }
  }

  lemma WriterReceives(t: Transfer, s: State)
    requires DataPlane(t, s) && !s.writer.done && 0 < |s.toWriter|
    ensures var s' := WriterNext(t, s);
            WriterOk(t, s'.verifiedIds, s'.writer) && s'.writer.received == s.writer.received + {s.toWriter[0].chunkId}
  {
    hide PacketsInBlock, BlockOf, ChunkIdOf, PacketsOk, HeldOk, GenuineOk, LossOk, BitsOk, W.Accept, W.Ok;
    assert ChunkOk(t, s.verifiedIds, s.toWriter[0]);
    W.AcceptKeeps(t.file, s.writer, s.toWriter[0]);
  }

  lemma WriterData(t: Transfer, s: State)
    requires DataPlane(t, s) && !s.writer.done && 0 < |s.toWriter|
    ensures DataPlane(t, WriterNext(t, s))
  {
    WriterReceives(t, s);
    hide PacketsInBlock, BlockOf, ChunkIdOf, PacketsOk, WriterOk, VerifiedOk, GenuineOk, LossOk, BitsOk, W.Accept,
        Plain;
    var s' := WriterNext(t, s);
    assert s.toWriter == [s.toWriter[0]] + s'.toWriter;
    forall c | c in s'.verifiedIds ensures Held(t, c, s'.verified, s'.toWriter, s'.writer) {
      assert Held(t, c, s.verified, s.toWriter, s.writer);
    }
  }

  lemma CheckData(t: Transfer, s: State)
    requires DataPlane(t, s) && s.manager.Scanning? && 0 < |s.manager.ready|
    ensures DataPlane(t, CheckNext(s))
  {
    hide PacketsInBlock, BlockOf, ChunkIdOf, PacketsOk, ChunksOk, HeldOk, WriterOk, VerifiedOk, GenuineOk, LossOk,
        K.MissingIds;
    var s' := CheckNext(s);
    forall b | b in s'.tracker.blocks ensures EntryBits(t, s'.verifiedIds, b, s'.tracker.blocks[b]) {
      assert EntryBits(t, s.verifiedIds, b, s.tracker.blocks[b]);
    }
  }

  lemma ReplyData(t: Transfer, s: State)
    requires Control(t, s) && DataPlane(t, s) && s.manager.Replying?
    ensures DataPlane(t, ReplyNext(t, s))
  {
    hide TotalBlocks, BlockOf, ChunkIdOf, PacketsOk, ChunksOk, HeldOk, WriterOk, VerifiedOk, AcksOk, CausesOk,
        TrackedFor, K.Count;
    var b := s.manager.block;
    if s.manager.snapshot.complete {
      CompleteAllVerified(t, s);
    }
    hide PacketsInBlock, BitsOk, KnownOk, ManagerOk;
  }

  /** A block reported complete has every chunk verified. */
  lemma CompleteAllVerified(t: Transfer, s: State)
    requires Control(t, s) && BitsOk(t, s.verifiedIds, s.tracker) && s.manager.Replying? && s.manager.snapshot.complete
    ensures forall i: nat :: i < PacketsInBlock(t, s.manager.block) ==>
        ChunkIdOf(t, s.manager.block, i) in s.verifiedIds
  {
    hide TotalBlocks, BlockOf, ChunkIdOf, AcksOk, CausesOk, K.Count, PacketsInBlock;
    var b := s.manager.block;
    assert Busy(s.manager)[0] == b && b in Busy(s.manager);
    var e := s.tracker.blocks[b];
    assert K.EntryOk(e) && K.IsComplete(e);
    K.CountAll(e.received);
    assert EntryBits(t, s.verifiedIds, b, e);
  }

  lemma RemoveData(t: Transfer, s: State)
    requires DataPlane(t, s) && s.manager.Removing?
    ensures DataPlane(t, RemoveNext(s))
  {
    hide PacketsInBlock, BlockOf, ChunkIdOf, PacketsOk, ChunksOk, HeldOk, WriterOk, VerifiedOk, GenuineOk, LossOk;
    var s' := RemoveNext(s);
    forall b | b in s'.tracker.blocks ensures EntryBits(t, s'.verifiedIds, b, s'.tracker.blocks[b]) {
      assert EntryBits(t, s.verifiedIds, b, s.tracker.blocks[b]);
    }
  }

  // ---- sender side ----

  lemma SenderData(t: Transfer, s: State, s': State)
    requires DataPlane(t, s) && s' == s.(sender := s'.sender, consumed := s'.consumed)
    requires s.sender.placed <= s'.sender.placed
    requires LossOk(t, s'.sender, s.gaveUp)
    ensures DataPlane(t, s')
  {
    hide PacketsInBlock, BlockOf, ChunkIdOf, ChunksOk, HeldOk, WriterOk, GenuineOk, LossOk, BitsOk, IdealCheck;
  }

  /** Why a block is Resolved at the sender. */
  lemma ResolvedCause(t: Transfer, s: State, b: nat)
    requires Control(t, s) && IsResolved(s.sender.slots, b)
    ensures b in s.genuine || b in s.gaveUp
  {
    hide PacketsInBlock, TotalBlocks, KnownOk, ManagerOk;
    var k :| 0 <= k < s.consumed && s.acks[k] == Complete(b);
    assert s.acks[k] in s.acks;
  }

  /** A chunk that arrives now belongs to a Resolved block only if that block was given up: a
      confirmed block has had all its chunks already. */
  lemma FreshChunkNotConfirmed(t: Transfer, s: State, c: nat)
    requires Control(t, s) && DataPlane(t, s) && SI.Inv(t, s.sender)
    requires c < TotalChunks(t) && c !in s.sender.arrived
    ensures IsResolved(s.sender.slots, BlockOf(t, c)) ==> BlockOf(t, c) in s.gaveUp
  {
    hide ChunkIdOf, IndexOf, PacketsInBlock, TotalBlocks;
    hide KnownOk, ManagerOk, AcksOk, CausesOk, PacketsOk, ChunksOk, HeldOk, WriterOk, LossOk, BitsOk;
    var b := BlockOf(t, c);
    ChunkPlace(t, c);
    SI.PlacedArrived(t, s.sender, c);
    if IsResolved(s.sender.slots, b) {
      ResolvedCause(t, s, b);
    }
  }

  /** A sender step that handled no Complete. */
  lemma LossKept(t: Transfer, s: State, sender': Sender, newIds: set<nat>)
    requires Control(t, s) && DataPlane(t, s) && SI.Inv(t, s.sender)
    requires SI.Grows(s.sender, sender') && SI.SameResolved(s.sender, sender')
    requires sender'.arrived == s.sender.arrived + newIds
    requires forall c :: c in newIds ==> c < TotalChunks(t) && c !in s.sender.arrived
    ensures LossOk(t, sender', s.gaveUp)
  {
    forall c | c in sender'.arrived && IsResolved(sender'.slots, BlockOf(t, c))
      ensures c in sender'.placed || BlockOf(t, c) in s.gaveUp
    {
      hide BlockOf, SI.Inv, Control;
      if c in newIds {
        FreshChunkNotConfirmed(t, s, c);
      }
    }
  }

  /** A sender step that handled a Complete for an Open block. */
  lemma LossKeptByComplete(t: Transfer, s: State, sender': Sender, b: nat)
    requires SI.Inv(t, s.sender) && DataPlane(t, s) && IsOpen(s.sender.slots, b)
    requires SI.Grows(s.sender, sender') && SenderRuns.ResolvedBy(s.sender, AckEvent(Complete(b)), sender')
    requires sender'.arrived == s.sender.arrived
    ensures LossOk(t, sender', s.gaveUp)
  {
    hide BlockOf, SI.Core, PacketsOk, ChunksOk, HeldOk, WriterOk, BitsOk, GenuineOk, VerifiedOk;
  }
}
