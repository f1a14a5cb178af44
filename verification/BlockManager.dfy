/** The block manager as the code has it: one object whose fields its methods update, each
    method proved against the operation of the same name in module Sender. */
module BlockManager {
  import opened Transfers
  import opened Protocol
  import S = Sender
  import opened Sender
  import SI = SenderInvariant
  import SR = SenderRuns

  /** How the loop ends: all blocks resolved, or the event channel closed first, with what was
      left unresolved, still open, and still buffered. */
  datatype Outcome =
    | Finished(bytesSent: nat)
    | Disconnected(unresolved: int, openBlocks: nat, stuckChunks: nat, stuckBlocks: nat)

  /** Chunks held in Pending buckets. */
  ghost function Buffered(slots: map<nat, Slot>, ids: set<nat>): nat
    requires forall b :: b in ids ==> IsPending(slots, b)
    decreases |ids|
  {
    if ids == {} then 0 else
    var b := Least(ids);
    assert IsPending(slots, b);
    |slots[b].bucket| + Buffered(slots, ids - {b})
  }

  lemma {:induction false} DistinctIds(bucket: seq<EncryptedChunk>)
    requires forall j, k :: 0 <= j < k < |bucket| ==> bucket[j].chunkId != bucket[k].chunkId
    ensures |SI.Ids(bucket)| == |bucket|
  {
    if |bucket| == 0 {
      assert SI.Ids(bucket) == {};
    } else {
      var n := |bucket| - 1;
      DistinctIds(bucket[..n]);
      assert bucket == bucket[..n] + [bucket[n]];
      SI.IdsSnoc(bucket[..n], bucket[n]);
      assert bucket[n].chunkId !in SI.Ids(bucket[..n]);
    }
  }

  function ArrivedOf(t: Transfer, s: Sender, ids: set<nat>): set<nat> {
    set c | c in s.arrived && BlockOf(t, c) in ids
  }

  lemma BucketSize(t: Transfer, s: Sender, b: nat)
    requires SI.Inv(t, s) && IsPending(s.slots, b)
    ensures |s.slots[b].bucket| == |SI.ArrivedIn(t, s, b)|
  {
    SR.SlotFollowsArrivals(t, s, b);
    SI.PendingFacts(t, s, b);
    hide SI.Inv, BlockOf;
    DistinctIds(s.slots[b].bucket);
  }

  /** What the buckets hold is what has arrived for their blocks, each chunk once. */
  lemma {:induction false} BufferedIsArrived(t: Transfer, s: Sender, ids: set<nat>)
    requires SI.Inv(t, s) && forall b :: b in ids ==> IsPending(s.slots, b)
    ensures Buffered(s.slots, ids) == |ArrivedOf(t, s, ids)|
    decreases |ids|
  {
    hide SI.Inv, BlockOf;
    if ids == {} {
      assert ArrivedOf(t, s, ids) == {};
    } else {
      var b := Least(ids);
      assert IsPending(s.slots, b);
      BucketSize(t, s, b);
      BufferedIsArrived(t, s, ids - {b});
      assert ArrivedOf(t, s, ids) == ArrivedOf(t, s, ids - {b}) + SI.ArrivedIn(t, s, b);
      assert ArrivedOf(t, s, ids - {b}) !! SI.ArrivedIn(t, s, b);
    }
  }

  class BlockManager {
    const t: Transfer
    var slots: map<nat, Slot>
    var openSlots: nat
    var completed: nat
    var packetsSent: nat
    var bytesSent: nat
    var retransmitted: nat
    ghost var log: seq<Datagram>
    ghost var arrived: set<nat>
    ghost var placed: set<nat>
    ghost var named: nat

    ghost function View(): Sender
      reads this
    {
      Sender(slots, openSlots, completed, packetsSent, bytesSent, retransmitted, log, arrived, placed, named, false)
    }

    constructor (t: Transfer)
      ensures this.t == t && View() == START && SI.Inv(t, View()) && SR.Drained(t, View())
    {
      this.t := t;
      slots, openSlots, completed := map[], 0, 0;
      packetsSent, bytesSent, retransmitted := 0, 0, 0;
      log, arrived, placed, named := [], {}, {}, 0;
      new;
      SR.StartOk(t);
    }

    /** `udp.send`; a send that fails is a datagram lost. */
    method Send(d: Datagram)
      modifies this`log
      ensures log == old(log) + [d]
    {
      log := log + [d];
    }

    method PlaceChunk(b: nat, i: nat, chunk: EncryptedChunk, now: nat)
      requires SI.SlotsOk(t, View()) && IsOpen(slots, b)
      requires chunk == ChunkOf(t, chunk.chunkId) && chunk.chunkId < TotalChunks(t) && chunk.chunkId !in placed
      requires b == BlockOf(t, chunk.chunkId) && i == IndexOf(t, chunk.chunkId)
      modifies this
      ensures View() == Place(old(View()), b, i, chunk, now)
    {
      ghost var before := View();
      SI.PlaceNext(t, before, chunk.chunkId, now);
      ghost var after := Place(before, b, i, chunk, now);
      var entry := slots[b].block;
      PlaceInRange(t, before, chunk.chunkId);
      hide SI.SlotsOk, BlockOf, IndexOf, ChunkOf, SI.BlockOk;

      entry := entry.(packets := entry.packets[i := Some(chunk.packet)]);
      Send(chunk.packet);
      packetsSent := packetsSent + 1;
      bytesSent := bytesSent + chunk.bytes;
      entry := entry.(sent := entry.sent + 1);
      slots := slots[b := Open(entry)];
      placed := placed + {chunk.chunkId};
      assert View() == CacheAndSend(before, b, i, chunk);
      if entry.sent == entry.total && !entry.endEmitted {
        assert AllCached(entry);
        Send(BlockEnd(b, entry.total));
        entry := entry.(endEmitted := true, lastAckActivity := now);
        slots := slots[b := Open(entry)];
      }
    }

    method OpenAndPlace(b: nat, i: nat, chunk: EncryptedChunk, now: nat)
      requires SI.SlotsOk(t, OpenBlock(t, View(), b, now))
      requires chunk == ChunkOf(t, chunk.chunkId) && chunk.chunkId < TotalChunks(t) && chunk.chunkId !in placed
      requires b == BlockOf(t, chunk.chunkId) && i == IndexOf(t, chunk.chunkId)
      modifies this
      ensures View() == Place(OpenBlock(t, old(View()), b, now), b, i, chunk, now)
    {
      hide Place, SI.SlotsOk, ChunkOf, BlockOf, IndexOf, NewBlock, PacketsInBlock;
      slots := slots[b := Open(NewBlock(PacketsInBlock(t, b), now))];
      openSlots := openSlots + 1;
      assert View() == OpenBlock(t, old(View()), b, now);
      PlaceChunk(b, i, chunk, now);
    }

    method AdmitOrBuffer(chunk: EncryptedChunk, now: nat)
      requires SI.Inv(t, View())
      requires chunk == ChunkOf(t, chunk.chunkId) && chunk.chunkId < TotalChunks(t) && chunk.chunkId !in arrived
      modifies this
      ensures View() == Admit(t, old(View()), chunk, now)
    {
      SI.AdmitReady(t, View(), chunk.chunkId, now);
      hide SI.Inv, BlockOf, IndexOf, ChunkOf, SI.SlotsOk, Place, OpenBlock;
      ghost var before := View().(arrived := arrived + {chunk.chunkId});
      var b, i := BlockOf(t, chunk.chunkId), IndexOf(t, chunk.chunkId);
      arrived := arrived + {chunk.chunkId};
      assert View() == before;
      if b in slots {
        match slots[b]
        case Resolved =>
        case Open(_) =>
          PlaceChunk(b, i, chunk, now);
        case Pending(bucket) =>
          slots := slots[b := Pending(bucket + [chunk])];
      } else if openSlots < t.pipelineDepth {
        OpenAndPlace(b, i, chunk, now);
      } else {
        slots := slots[b := Pending([chunk])];
      }
    }

    /** The least Pending id, if any. */
    static method NextPending(slots: map<nat, Slot>) returns (next: Option<nat>)
      ensures next == if PendingIds(slots) == {} then None else Some(Least(PendingIds(slots)))
    {
      next := None;
      var rest := slots.Keys;
      while rest != {}
        invariant rest <= slots.Keys
        invariant next.None? ==> forall b :: b in PendingIds(slots) ==> b in rest
        invariant next.Some? ==> next.value in PendingIds(slots)
                                 && forall b :: b in PendingIds(slots) && b !in rest ==> next.value <= b
        decreases rest
      {
        var b :| b in rest;
        if slots[b].Pending? && (next.None? || b < next.value) {
          next := Some(b);
        }
        rest := rest - {b};
      }
    }

    method DrainPending(now: nat)
      requires SI.Inv(t, View())
      modifies this
      ensures View() == Drain(t, old(View()), now) && SI.Inv(t, View()) && SR.Drained(t, View())
    {
      SI.DrainKeeps(t, View(), now);
      hide SI.Inv, OpenPending, PendingIds;
      while openSlots < t.pipelineDepth
        invariant SI.Inv(t, View()) && Drain(t, View(), now) == Drain(t, old(View()), now)
        decreases |PendingIds(slots)|
      {
        var next := NextPending(slots);
        if next.None? {
          break;
        }
        OpenOne(next.value, now);
      }
    }

    /** One turn of the drain: open the least Pending block and place everything buffered for it. */
    method OpenOne(b: nat, now: nat)
      requires SI.Inv(t, View()) && b in PendingIds(slots) && openSlots < t.pipelineDepth
      modifies this
      ensures IsPending(old(slots), b) && View() == OpenPending(t, old(View()), b, now)
      ensures SI.Inv(t, View()) && |PendingIds(slots)| < |PendingIds(old(slots))|
    {
      assert IsPending(slots, b);
      OpenOneFacts(t, View(), b, now);
      hide SI.Inv, SI.Core, SI.Settled, SI.BufferOk, SI.Ids, PlaceAll, OpenBlock, PendingIds;
      var bucket := slots[b].bucket;
      OpenSlot(b, now);
      PlaceBucket(b, bucket, now);
    }

    method OpenSlot(b: nat, now: nat)
      requires b in slots
      modifies this
      ensures View() == OpenBlock(t, old(View()), b, now)
      ensures IsOpen(slots, b)
    {
      hide PacketsInBlock, NewBlock;
      ghost var before := slots;
      slots := slots - {b};
      slots := slots[b := Open(NewBlock(PacketsInBlock(t, b), now))];
      assert slots == before[b := Open(NewBlock(PacketsInBlock(t, b), now))];
      openSlots := openSlots + 1;
    }

    method PlaceBucket(b: nat, bucket: seq<EncryptedChunk>, now: nat)
      requires SI.Core(t, View()) && IsOpen(slots, b) && SI.BufferOk(t, View(), b, bucket)
      requires SI.Settled(t, View(), SI.Ids(bucket))
      modifies this
      ensures View() == PlaceAll(t, old(View()), b, bucket, now)
    {
      hide SI.Core, SI.Settled, SI.BufferOk, SI.Ids, PlaceBuffered;
      var k := 0;
      assert bucket[0..] == bucket;
      while k < |bucket|
        invariant 0 <= k <= |bucket|
        invariant SI.Core(t, View()) && IsOpen(slots, b) && SI.BufferOk(t, View(), b, bucket[k..])
        invariant SI.Settled(t, View(), SI.Ids(bucket[k..]))
        invariant PlaceAll(t, View(), b, bucket[k..], now) == PlaceAll(t, old(View()), b, bucket, now)
      {
        assert bucket[k..][0] == bucket[k] && bucket[k..][1..] == bucket[k + 1..];
        PlaceFromBucket(b, bucket[k], bucket[k..], now);
        k := k + 1;
      }
    }

    /** The next chunk of a bucket, with the debug assertion on its block id. */
    method PlaceFromBucket(b: nat, chunk: EncryptedChunk, ghost bucket: seq<EncryptedChunk>, now: nat)
      requires 0 < |bucket| && chunk == bucket[0]
      requires SI.Core(t, View()) && IsOpen(slots, b) && SI.BufferOk(t, View(), b, bucket)
      requires SI.Settled(t, View(), SI.Ids(bucket))
      modifies this
      ensures View() == PlaceBuffered(t, old(View()), b, chunk, now)
      ensures SI.Core(t, View()) && IsOpen(slots, b) && SI.BufferOk(t, View(), b, bucket[1..])
      ensures SI.Settled(t, View(), SI.Ids(bucket[1..]))
    {
      SI.PlaceBufferedKeeps(t, View(), b, bucket, now);
      FirstBuffered(t, View(), b, bucket);
      hide SI.Core, SI.Settled, SI.BufferOk, SI.Ids, Place, BlockOf, IndexOf, ChunkOf, SI.SlotsOk;
      var bid, pib := BlockOf(t, chunk.chunkId), IndexOf(t, chunk.chunkId);
      assert bid == b;
      PlaceChunk(bid, pib, chunk, now);
    }

    static method CachedPackets(packets: seq<Option<Datagram>>, ids: seq<nat>) returns (cached: seq<Datagram>)
      ensures cached == Cached(packets, ids)
    {
      cached := [];
      for k := 0 to |ids|
        invariant cached == Cached(packets, ids[..k])
      {
        assert ids[..k + 1][..k] == ids[..k];
        if ids[k] < |packets| && packets[ids[k]].Some? {
          cached := cached + [packets[ids[k]].value];
        }
      }
      assert ids[..|ids|] == ids;
    }

    method Resend(packets: seq<Datagram>)
      modifies this`log, this`retransmitted
      ensures log == old(log) + packets && retransmitted == old(retransmitted) + |packets|
    {
      for k := 0 to |packets|
        invariant log == old(log) + packets[..k] && retransmitted == old(retransmitted) + k
      {
        Send(packets[k]);
        retransmitted := retransmitted + 1;
      }
    }

    method HandleMissing(b: nat, missing: seq<nat>, now: nat)
      modifies this
      ensures View() == OnMissing(old(View()), b, missing, now)
    {
      named := named + |missing|;
      if b in slots && slots[b].Open? {
        slots := slots[b := Open(slots[b].block.(lastAckActivity := now))];
        var cached := CachedPackets(slots[b].block.packets, missing);
        Resend(cached);
      }
    }

    method HandleComplete(b: nat)
      requires SI.Inv(t, View())
      modifies this
      ensures View() == OnComplete(old(View()), b)
    {
      CompleteReady(t, View(), b);
      hide SI.Inv;
      if b in slots && slots[b].Resolved? {
        return;
      }
      var wasOpen := b in slots && slots[b].Open?;
      slots := slots[b := Resolved];
      if wasOpen {
        openSlots := openSlots - 1;
      }
      completed := completed + 1;
    }

    static method CachedOf(packets: seq<Option<Datagram>>) returns (cached: seq<Datagram>)
      ensures cached == Flatten(packets)
    {
      cached := [];
      for k := 0 to |packets|
        invariant cached == Flatten(packets[..k])
      {
        assert packets[..k + 1][..k] == packets[..k];
        if packets[k].Some? {
          cached := cached + [packets[k].value];
        }
      }
      assert packets[..|packets|] == packets;
    }

    /** Resend one block's cache and its BlockEnd if the receiver has been silent about it. */
    method ResendIfStale(b: nat, now: nat)
      modifies this
      ensures View() == ResendBlock(t, old(View()), b, now)
    {
      if b !in slots || !slots[b].Open? {
        return;
      }
      var entry := slots[b].block;
      if !entry.endEmitted || entry.fallbackSent || now < entry.lastAckActivity + t.staleAfter {
        return;
      }
      var packets := CachedOf(entry.packets);
      Resend(packets);
      Send(BlockEnd(b, entry.total));
      slots := slots[b := Open(entry.(fallbackSent := true, lastAckActivity := now))];
    }

    /** `order` is the order the map is walked in. */
    method RetransmitStaleBlocks(order: seq<nat>, now: nat)
      modifies this
      ensures View() == ResendStale(t, old(View()), order, now)
    {
      hide ResendBlock;
      for k := 0 to |order|
        invariant View() == ResendStale(t, old(View()), order[..k], now)
      {
        assert order[..k + 1][..k] == order[..k];
        ResendIfStale(order[k], now);
      }
      assert order[..|order|] == order;
    }

    method HandleEvent(e: Event, now: nat)
      requires SI.Inv(t, View()) && SR.Acceptable(t, View(), e)
      modifies this
      ensures View() == Handle(t, old(View()), e, now) && SI.Inv(t, View())
    {
      SR.HandleKeeps(t, View(), e, now);
      hide SI.Inv, SI.Grows, ChunkOf;
      match e
      case ChunkEvent(chunk) => AdmitOrBuffer(chunk, now);
      case AckEvent(Missing(b, missing)) => HandleMissing(b, missing, now);
      case AckEvent(Complete(b)) => HandleComplete(b);
      case Timeout(order) => RetransmitStaleBlocks(order, now);
    }

    /** What is still buffered when the channel closes. */
    method CountStuck() returns (chunks: nat, blocks: nat)
      ensures chunks == Buffered(slots, PendingIds(slots)) && blocks == |PendingIds(slots)|
    {
      chunks, blocks := 0, 0;
      ghost var left := PendingIds(slots);
      var rest := slots;
      assert PendingIds(rest) == left;
      var next := NextPending(rest);
      while next.Some?
        invariant forall b :: b in rest ==> b in slots && rest[b] == slots[b]
        invariant next == if PendingIds(rest) == {} then None else Some(Least(PendingIds(rest)))
        invariant forall b :: b in PendingIds(rest) ==> IsPending(slots, b)
        invariant chunks + Buffered(slots, PendingIds(rest)) == Buffered(slots, PendingIds(slots))
        invariant blocks + |PendingIds(rest)| == |PendingIds(slots)|
        decreases |PendingIds(rest)|
      {
        var b := next.value;
        chunks := chunks + |slots[b].bucket|;
        blocks := blocks + 1;
        ghost var before := PendingIds(rest);
        rest := rest - {b};
        assert PendingIds(rest) == before - {b};
        next := NextPending(rest);
      }
    }

    /** `block_manager_loop`: `events` is everything the channel delivers before it closes. */
    method Run(events: seq<Timed>) returns (outcome: Outcome)
      requires SI.Inv(t, View()) && SR.Drained(t, View())
      requires SR.AllAcceptable(t, View(), events)
      modifies this
      ensures View() == Loop(t, old(View()), events)
      ensures SI.Inv(t, View()) && SR.Drained(t, View())
      ensures outcome.Finished? <==> !Running(t, View())
      ensures outcome.Finished? ==> outcome.bytesSent == bytesSent
      ensures outcome.Disconnected? ==>
                && outcome.unresolved == TotalBlocks(t) - |ResolvedIds(slots)|
                && outcome.openBlocks == |OpenIds(slots)|
                && outcome.stuckChunks == Buffered(slots, PendingIds(slots))
                && outcome.stuckBlocks == |PendingIds(slots)|
    {
      hide SI.Inv, SR.Drained, Handle, Drain, TotalBlocks, SR.Acceptable;
      var k := 0;
      while completed < TotalBlocks(t) && k < |events|
        invariant 0 <= k <= |events|
        invariant SI.Inv(t, View()) && SR.Drained(t, View()) && SR.AllAcceptable(t, View(), events[k..])
        invariant Loop(t, View(), events[k..]) == Loop(t, old(View()), events)
        decreases |events| - k
      {
        assert events[k..][0] == events[k] && events[k..][1..] == events[k + 1..];
        HandleEvent(events[k].event, events[k].now);
        DrainPending(events[k].now);
        k := k + 1;
      }
      assert Loop(t, View(), events[k..]) == View();
      SI.DepthHeld(t, View());
      SR.ResolvedCounted(t, View());
      if completed >= TotalBlocks(t) {
        return Finished(bytesSent);
      }
      var chunks, blocks := CountStuck();
      outcome := Disconnected(TotalBlocks(t) - completed, openSlots, chunks, blocks);
    }
  }

  lemma PlaceInRange(t: Transfer, s: Sender, c: nat)
    requires SI.SlotsOk(t, s) && IsOpen(s.slots, BlockOf(t, c)) && c < TotalChunks(t) && c !in s.placed
    ensures var b, i := BlockOf(t, c), IndexOf(t, c);
            var e := s.slots[b].block;
            && i < |e.packets|
            && (forall packets, n ::
                  packets == e.packets[i := Some(PacketOf(t, c))] && n == e.sent + 1 && n == e.total ==>
                  AllCached(e.(packets := packets, sent := n)))
  {
    ChunkPlace(t, c);
    var b, i := BlockOf(t, c), IndexOf(t, c);
    assert SI.SlotOk(t, s, b);
    SI.BlockShape(t, s.placed, b, s.slots[b].block);
    hide BlockOf, IndexOf, ChunkIdOf, PacketsInBlock, TotalBlocks, PacketOf;
    SI.CachedBlock(t, s.placed, b, s.slots[b].block, i, 0);
  }

  lemma CompleteReady(t: Transfer, s: Sender, b: nat)
    requires SI.Inv(t, s)
    ensures IsOpen(s.slots, b) ==> 0 < s.openSlots
  {
    hide SI.Inv, OpenIds;
    SI.DepthHeld(t, s);
    SR.OpenCounted(s.slots, b);
  }

  lemma OpenOneFacts(t: Transfer, s: Sender, b: nat, now: nat)
    requires SI.Inv(t, s) && IsPending(s.slots, b) && s.openSlots < t.pipelineDepth
    ensures var s1, bucket, s' := OpenBlock(t, s, b, now), s.slots[b].bucket, OpenPending(t, s, b, now);
            && SI.Core(t, s1) && SI.Settled(t, s1, SI.Ids(bucket)) && SI.BufferOk(t, s1, b, bucket)
            && SI.Inv(t, s') && |PendingIds(s'.slots)| < |PendingIds(s.slots)|
  {
    hide SI.Inv, SI.Core, SI.Settled, SI.BufferOk, OpenPending, PendingIds, SI.Grows;
    SI.OpenForDrain(t, s, b, now);
    SI.OpenPendingKeeps(t, s, b, now);
    OpenPendingShrinks(t, s, b, now);
  }

  lemma FirstBuffered(t: Transfer, s: Sender, b: nat, bucket: seq<EncryptedChunk>)
    requires SI.Core(t, s) && SI.BufferOk(t, s, b, bucket) && 0 < |bucket|
    ensures SI.BufferedOk(t, s, b, bucket[0]) && SI.SlotsOk(t, s)
  {
  }
}
