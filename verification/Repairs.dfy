/** What a Missing ack makes the sender do, exactly: resend, once each time it is named and in the
    order of the ack, every packet of the block it has sent before, and nothing else. */
module Repairs {
  import opened Transfers
  import opened Sums
  import opened Protocol
  import opened Sender
  import opened SenderInvariant
  import SR = SenderRuns
  import K = Tracker
  import opened System
  import SC = SystemControl
  import SD = SystemData
  import opened SystemRounds
  import ST = SystemTime
  import C = SystemInvariant
  import opened PacketCopies

  /** Exactly the placed packets of the block are cached, each at its own index. */
  ghost predicate CachesPlaced(t: Transfer, placed: set<nat>, b: nat, packets: seq<Option<Datagram>>) {
    && |packets| == PacketsInBlock(t, b)
    && forall i :: 0 <= i < |packets| ==>
         packets[i] == if ChunkIdOf(t, b, i) in placed then Some(PacketOf(t, ChunkIdOf(t, b, i))) else None
  }

  ghost predicate CanResend(t: Transfer, placed: set<nat>, b: nat, i: nat) {
    i < PacketsInBlock(t, b) && ChunkIdOf(t, b, i) in placed
  }

  lemma OpenCaches(t: Transfer, s: Sender, b: nat)
    requires Inv(t, s) && IsOpen(s.slots, b)
    ensures CachesPlaced(t, s.placed, b, s.slots[b].block.packets)
  {
    hide Inv, PacketOf, ChunkIdOf, PacketsInBlock;
    SR.OpenCache(t, s, b);
  }

  /** `picks` are the positions in `ids` of the packets that go out. */
  ghost predicate Picks(t: Transfer, placed: set<nat>, b: nat, ids: seq<nat>, picks: seq<nat>, resent: seq<Datagram>) {
    && |picks| == |resent| && K.Ascending(picks)
    && (forall k: nat :: k in picks <==> k < |ids| && CanResend(t, placed, b, ids[k]))
    && (forall j :: 0 <= j < |picks| ==>
          picks[j] < |ids| && resent[j] == PacketOf(t, ChunkIdOf(t, b, ids[picks[j]])))
  }

  lemma PicksMore(t: Transfer, placed: set<nat>, b: nat, ids: seq<nat>, picks: seq<nat>, resent: seq<Datagram>)
    requires 0 < |ids| && Picks(t, placed, b, ids[..|ids| - 1], picks, resent)
    ensures var n := |ids| - 1;
            var packet := PacketOf(t, ChunkIdOf(t, b, ids[n]));
            if CanResend(t, placed, b, ids[n]) then Picks(t, placed, b, ids, picks + [n], resent + [packet])
            else Picks(t, placed, b, ids, picks, resent)
  {
    hide PacketOf, ChunkIdOf, CanResend;
    var n := |ids| - 1;
    assert forall j :: 0 <= j < |picks| ==> picks[j] in picks;
    assert forall k: nat :: k in picks + [n] <==> k in picks || k == n;
  }

  lemma {:induction false} CachedPicks(t: Transfer, placed: set<nat>, b: nat, packets: seq<Option<Datagram>>,
      ids: seq<nat>)
      returns (picks: seq<nat>)
    requires CachesPlaced(t, placed, b, packets)
    ensures Picks(t, placed, b, ids, picks, Cached(packets, ids))
  {
    hide PacketOf, ChunkIdOf, PacketsInBlock;
    if |ids| == 0 {
      picks := [];
    } else {
      var n := |ids| - 1;
      picks := CachedPicks(t, placed, b, packets, ids[..n]);
      PicksMore(t, placed, b, ids, picks, Cached(packets, ids[..n]));
      if CanResend(t, placed, b, ids[n]) {
        picks := picks + [n];
      }
      hide Picks;
    }
  }

  /** The whole effect of a Missing ack for an Open block: the named packets that were sent before
      go out again, in the ack's order, each as often as it is named; `retransmitted` counts them
      all; the block's silence timer restarts; nothing else changes. */
  lemma MissingResends(t: Transfer, s: Sender, b: nat, ids: seq<nat>, now: nat)
      returns (picks: seq<nat>, resent: seq<Datagram>)
    requires Inv(t, s) && IsOpen(s.slots, b)
    ensures Picks(t, s.placed, b, ids, picks, resent)
    ensures OnMissing(s, b, ids, now) ==
            s.(log := s.log + resent, retransmitted := s.retransmitted + |picks|, named := s.named + |ids|,
               slots := s.slots[b := Open(s.slots[b].block.(lastAckActivity := now))])
  {
    OpenCaches(t, s, b);
    hide Inv, CachesPlaced, Cached;
    resent := Cached(s.slots[b].block.packets, ids);
    picks := CachedPicks(t, s.placed, b, s.slots[b].block.packets, ids);
  }

  /** For a block that is not Open a Missing ack sends nothing. */
  lemma MissingIgnored(s: Sender, b: nat, ids: seq<nat>, now: nat)
    requires !IsOpen(s.slots, b)
    ensures OnMissing(s, b, ids, now) == s.(named := s.named + |ids|)
  {
  }

  // ---- per packet ----

  /** How many of `ids` name chunk `c`'s packet, if it can be resent at all. */
  function Times(t: Transfer, placed: set<nat>, b: nat, ids: seq<nat>, c: nat): nat {
    if b == BlockOf(t, c) && c in placed && IndexOf(t, c) < PacketsInBlock(t, b)
    then multiset(ids)[IndexOf(t, c)] else 0
  }

  lemma TimesMore(t: Transfer, placed: set<nat>, b: nat, ids: seq<nat>, i: nat, c: nat)
    ensures Times(t, placed, b, ids + [i], c) == Times(t, placed, b, ids, c) +
            One(b == BlockOf(t, c) && c in placed && i == IndexOf(t, c) && i < PacketsInBlock(t, b))
  {
    hide BlockOf, IndexOf, PacketsInBlock;
    assert multiset(ids + [i]) == multiset(ids) + multiset{i};
  }

  lemma {:induction false} CachedExactly(t: Transfer, placed: set<nat>, b: nat, packets: seq<Option<Datagram>>,
      ids: seq<nat>, c: nat)
    requires CachesPlaced(t, placed, b, packets)
    ensures multiset(Cached(packets, ids))[PacketOf(t, c)] == Times(t, placed, b, ids, c)
  {
    hide CachesPlaced, PacketOf, BlockOf, IndexOf, PacketsInBlock;
    if |ids| > 0 {
      var n := |ids| - 1;
      CachedExactly(t, placed, b, packets, ids[..n], c);
      assert ids == ids[..n] + [ids[n]];
      TimesMore(t, placed, b, ids[..n], ids[n], c);
      OneCached(t, placed, b, packets, ids[n], c);
      hide Times;
    }
  }

  lemma OneCached(t: Transfer, placed: set<nat>, b: nat, packets: seq<Option<Datagram>>, i: nat, c: nat)
    requires CachesPlaced(t, placed, b, packets)
    ensures i < |packets| && packets[i] == Some(PacketOf(t, c)) <==>
            b == BlockOf(t, c) && c in placed && i == IndexOf(t, c) && i < PacketsInBlock(t, b)
  {
    hide PacketOf, BlockOf, IndexOf, ChunkIdOf, PacketsInBlock;
    ChunkPlace(t, c);
    if i < |packets| {
      PlaceChunkId(t, b, i);
      SamePacket(t, ChunkIdOf(t, b, i), c);
    }
  }

  /** Copies of a chunk's packet after a Missing ack: one more for each time the ack names it, if it
      was sent before and its block is Open; none more otherwise. */
  lemma MissingCopiesExact(t: Transfer, s: Sender, b: nat, ids: seq<nat>, now: nat, c: nat)
    requires Inv(t, s) && c < TotalChunks(t)
    ensures Copies(t, OnMissing(s, b, ids, now), c) == Copies(t, s, c) +
            if IsOpen(s.slots, b) && b == BlockOf(t, c) && c in s.placed then multiset(ids)[IndexOf(t, c)] else 0
  {
    hide Inv, PacketOf, BlockOf, IndexOf, Cached, CachesPlaced, Copies, PacketsInBlock, TotalBlocks;
    ChunkPlace(t, c);
    if IsOpen(s.slots, b) {
      OpenCaches(t, s, b);
      CachedExactly(t, s.placed, b, s.slots[b].block.packets, ids, c);
      LogMore(t, s, OnMissing(s, b, ids, now), c, Cached(s.slots[b].block.packets, ids));
    } else {
      SameCopies(t, s, OnMissing(s, b, ids, now), c);
    }
  }

  lemma SameCopies(t: Transfer, s: Sender, s': Sender, c: nat)
    requires s'.log == s.log
    ensures Copies(t, s', c) == Copies(t, s, c)
  {
  }

  // ---- in a run ----

  /** A Missing ack about to be read names an Open block. */
  lemma MissingFindsOpen(t: Transfer, s: State)
    requires C.Inv(t, s) && s.consumed < |s.acks| && s.acks[s.consumed].Missing?
    ensures IsOpen(s.sender.slots, s.acks[s.consumed].blockId)
  {
    var b := s.acks[s.consumed].blockId;
    AskedBefore(s.acks, s.consumed);
    hide C.SenderSide, SD.DataPlane, ST.Time, ShapesOk, NamedOk, MissingCount, SC.ManagerOk, SC.CausesOk;
    assert b in s.tracker.blocks || b in s.tracker.completed;
    assert WasOpened(s.sender.slots, b);
  }

  lemma {:induction false} AskedBefore(acks: seq<BlockAck>, k: nat)
    requires k < |acks| && acks[k].Missing?
    ensures 0 < MissingCount(acks, acks[k].blockId)
  {
    var n := |acks| - 1;
    if k < n {
      assert acks[..n][k] == acks[k];
      AskedBefore(acks[..n], k);
    }
  }

  /** After a Missing ack the drain has nothing to do. */
  lemma MissingStep(t: Transfer, s: Sender, b: nat, ids: seq<nat>, now: nat)
    requires Inv(t, s) && SR.Drained(t, s)
    ensures Step(t, s, AckEvent(Missing(b, ids)), now) == OnMissing(s, b, ids, now)
  {
    var s' := OnMissing(s, b, ids, now);
    assert PendingIds(s'.slots) == PendingIds(s.slots) by {
      hide Inv, Cached;
    }
    assert s'.openSlots == s.openSlots;
    hide Inv, OnMissing, OpenPending, PendingIds;
  }

  /** Every Missing ack read in a run makes the sender resend, once, exactly the packets it names
      that have been sent before. */
  lemma RepairExact(t: Transfer, actions: seq<Action>, at: nat, c: nat)
    requires Enabled(t, EndOf(t, actions), AckArrives(at)) && c < TotalChunks(t)
    requires var s := EndOf(t, actions); s.acks[s.consumed].Missing?
    ensures var s := EndOf(t, actions);
            var a := s.acks[s.consumed];
            && IsOpen(s.sender.slots, a.blockId)
            && Copies(t, Next(t, s, AckArrives(at)).sender, c) == Copies(t, s.sender, c) +
               One(BlockOf(t, c) == a.blockId && c in s.sender.placed && IndexOf(t, c) in a.missing)
  {
    C.RunInv(t, actions);
    hide EndOf;
    RepairStep(t, EndOf(t, actions), at, c);
  }

  lemma RepairStep(t: Transfer, s: State, at: nat, c: nat)
    requires C.Inv(t, s) && s.consumed < |s.acks| && s.acks[s.consumed].Missing? && c < TotalChunks(t)
    ensures var a := s.acks[s.consumed];
            && IsOpen(s.sender.slots, a.blockId)
            && Copies(t, SenderNext(t, s, AckEvent(a), at).sender, c) == Copies(t, s.sender, c) +
               One(BlockOf(t, c) == a.blockId && c in s.sender.placed && IndexOf(t, c) in a.missing)
  {
    hide C.Inv, Inv, SR.Drained, SC.Control, SD.DataPlane, Rounds, ST.Time, Step, OnMissing, Copies, BlockOf, IndexOf;
    var a := s.acks[s.consumed];
    C.InvParts(t, s);
    MissingFindsOpen(t, s);
    MissingStep(t, s.sender, a.blockId, a.missing, at);
    MissingCopiesExact(t, s.sender, a.blockId, a.missing, at, c);
    NamedOnce(t, s, a, IndexOf(t, c));
  }

  lemma NamedOnce(t: Transfer, s: State, a: BlockAck, i: nat)
    requires Rounds(t, s) && a in s.acks && a.Missing?
    ensures multiset(a.missing)[i] == One(i in a.missing)
  {
    hide RoundsOk, NamedOk, PacketsInBlock, TotalBlocks;
    assert AckShape(t, a);
    AscendingOnce(a.missing, i);
  }
}
