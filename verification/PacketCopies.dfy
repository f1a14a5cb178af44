/** How often one packet can be sent in a whole run. */
module PacketCopies {
  import opened Transfers
  import opened Sums
  import opened Protocol
  import opened Sender
  import opened SenderInvariant
  import SR = SenderRuns
  import K = Tracker
  import opened System
  import SC = SystemControl
  import SD = SystemData
  import opened SystemRounds
  import ST = SystemTime
  import C = SystemInvariant

  /** How often chunk `c`'s packet is in the log. */
  function Copies(t: Transfer, s: Sender, c: nat): nat { multiset(s.log)[PacketOf(t, c)] }

  function FallbackUsed(slots: map<nat, Slot>, b: nat): nat {
    One(b in slots && (slots[b].Resolved? || (slots[b].Open? && slots[b].block.fallbackSent)))
  }

  /** What may have been sent without being asked for: once when placed, once in the fallback. */
  function Unasked(t: Transfer, s: Sender, c: nat): nat {
    One(c in s.placed) + FallbackUsed(s.slots, BlockOf(t, c))
  }

  /** Going from `s` to `s'` sent chunk `c`'s packet at most as often as allowed, and `asked`
      times more. */
  ghost predicate Paid(t: Transfer, s: Sender, s': Sender, c: nat, asked: nat) {
    Copies(t, s', c) + Unasked(t, s, c) <= Copies(t, s, c) + Unasked(t, s', c) + asked
  }

  lemma PaidThen(t: Transfer, s: Sender, s1: Sender, s2: Sender, c: nat, asked: nat)
    requires Paid(t, s, s1, c, asked) && Paid(t, s1, s2, c, 0)
    ensures Paid(t, s, s2, c, asked)
  {
  }

  lemma SamePacket(t: Transfer, c: nat, d: nat)
    ensures PacketOf(t, c) == PacketOf(t, d) <==> c == d
  {
    if PacketOf(t, c) == PacketOf(t, d) {
      ChunkPlace(t, c);
      ChunkPlace(t, d);
    }
  }

  lemma LogMore(t: Transfer, s: Sender, s': Sender, c: nat, extra: seq<Datagram>)
    requires s'.log == s.log + extra
    ensures Copies(t, s', c) == Copies(t, s, c) + multiset(extra)[PacketOf(t, c)]
  {
    assert multiset(s.log + extra) == multiset(s.log) + multiset(extra);
  }

  // ---- placing ----

  lemma PlacePaid(t: Transfer, s: Sender, d: nat, now: nat, c: nat)
    requires SlotsOk(t, s) && IsOpen(s.slots, BlockOf(t, d)) && d < TotalChunks(t) && d !in s.placed
    ensures Paid(t, s, Place(s, BlockOf(t, d), IndexOf(t, d), ChunkOf(t, d), now), c, 0)
  {
    hide SlotsOk, Place, BlockOf, IndexOf, ChunkOf, PacketOf, BlockOk, ChunkIdOf;
    var s' := Place(s, BlockOf(t, d), IndexOf(t, d), ChunkOf(t, d), now);
    PlaceNext(t, s, d, now);
    PlacedPaid(t, s, d, now, s', c);
  }

  lemma PlacedPaid(t: Transfer, s: Sender, d: nat, now: nat, s': Sender, c: nat)
    requires PlacedNext(t, s, d, now, s') && d !in s.placed
    ensures Paid(t, s, s', c, 0)
  {
    hide BlockOf, BlockOk, ChunkIdOf, Copies;
    var b := BlockOf(t, d);
    var end := if s'.slots[b].block.endEmitted then [BlockEnd(b, s'.slots[b].block.total)] else [];
    assert s'.log == s.log + ([PacketOf(t, d)] + end);
    LogMore(t, s, s', c, [PacketOf(t, d)] + end);
    OncePlus(t, c, d, end);
  }

  lemma OncePlus(t: Transfer, c: nat, d: nat, end: seq<Datagram>)
    requires forall x :: x in end ==> x.BlockEnd?
    ensures multiset([PacketOf(t, d)] + end)[PacketOf(t, c)] == One(c == d)
  {
    SamePacket(t, c, d);
    assert multiset([PacketOf(t, d)] + end) == multiset{PacketOf(t, d)} + multiset(end);
    assert PacketOf(t, c) !in end;
  }

  lemma OpenPaid(t: Transfer, s: Sender, b: nat, now: nat, c: nat)
    requires !WasOpened(s.slots, b)
    ensures Paid(t, s, OpenBlock(t, s, b, now), c, 0)
  {
    hide BlockOf, PacketOf;
  }

  /** Nothing sent, no fallback undone. */
  lemma QuietPaid(t: Transfer, s: Sender, s': Sender, c: nat)
    requires s'.log == s.log && s'.placed == s.placed
    requires forall b :: FallbackUsed(s.slots, b) <= FallbackUsed(s'.slots, b)
    ensures Paid(t, s, s', c, 0)
  {
    hide BlockOf, PacketOf, FallbackUsed;
  }

  lemma AdmitOpensPaid(t: Transfer, s1: Sender, d: nat, now: nat, c: nat)
    requires BlockOf(t, d) !in s1.slots && d < TotalChunks(t) && d !in s1.placed
    requires SlotsOk(t, OpenBlock(t, s1, BlockOf(t, d), now))
    ensures var b := BlockOf(t, d);
            Paid(t, s1, Place(OpenBlock(t, s1, b, now), b, IndexOf(t, d), ChunkOf(t, d), now), c, 0)
  {
    hide SlotsOk, BlockOf, IndexOf, ChunkOf, Place, Paid, NewBlock;
    var b := BlockOf(t, d);
    var s2 := OpenBlock(t, s1, b, now);
    OpenPaid(t, s1, b, now, c);
    PlacePaid(t, s2, d, now, c);
    PaidThen(t, s1, s2, Place(s2, b, IndexOf(t, d), ChunkOf(t, d), now), c, 0);
  }

  lemma AdmitPaid(t: Transfer, s: Sender, d: nat, now: nat, c: nat)
    requires Inv(t, s) && d < TotalChunks(t) && d !in s.arrived
    ensures Paid(t, s, Admit(t, s, ChunkOf(t, d), now), c, 0)
  {
    AdmitReady(t, s, d, now);
    hide Inv, SlotsOk, BlockOf, IndexOf, Place, Paid, OpenBlock;
    var b, s1, s' := BlockOf(t, d), s.(arrived := s.arrived + {d}), Admit(t, s, ChunkOf(t, d), now);
    QuietPaid(t, s, s1, c);
    if IsOpen(s.slots, b) {
      PlacePaid(t, s1, d, now, c);
      PaidThen(t, s, s1, s', c, 0);
    } else if b !in s.slots && s.openSlots < t.pipelineDepth {
      AdmitOpensPaid(t, s1, d, now, c);
      PaidThen(t, s, s1, s', c, 0);
    } else {
      QuietPaid(t, s, s', c);
    }
  }

  // ---- draining ----

  lemma PlaceBufferedPaid(t: Transfer, s: Sender, b: nat, bucket: seq<EncryptedChunk>, now: nat, c: nat)
    requires Core(t, s) && IsOpen(s.slots, b) && 0 < |bucket| && BufferOk(t, s, b, bucket)
    ensures Paid(t, s, PlaceBuffered(t, s, b, bucket[0], now), c, 0)
  {
    assert BufferedOk(t, s, b, bucket[0]) && SlotsOk(t, s);
    hide Core, SlotsOk, BlockOf, IndexOf, PacketOf, Place, Paid, ChunkOf;
    PlacePaid(t, s, bucket[0].chunkId, now, c);
  }

  lemma {:induction false} PlaceAllPaid(t: Transfer, s: Sender, b: nat, bucket: seq<EncryptedChunk>, now: nat, c: nat)
    requires Core(t, s) && IsOpen(s.slots, b) && BufferOk(t, s, b, bucket)
    requires Settled(t, s, Ids(bucket))
    ensures Paid(t, s, PlaceAll(t, s, b, bucket, now), c, 0)
    decreases |bucket|
  {
    hide PlaceBuffered, Core, BufferOk, Settled, Ids, Copies, Unasked;
    if |bucket| > 0 {
      var s1 := PlaceBuffered(t, s, b, bucket[0], now);
      PlaceBufferedKeeps(t, s, b, bucket, now);
      PlaceBufferedPaid(t, s, b, bucket, now, c);
      PlaceAllPaid(t, s1, b, bucket[1..], now, c);
    }
  }

  lemma OpenPendingPaid(t: Transfer, s: Sender, b: nat, now: nat, c: nat)
    requires Inv(t, s) && IsPending(s.slots, b) && s.openSlots < t.pipelineDepth
    ensures Paid(t, s, OpenPending(t, s, b, now), c, 0)
  {
    hide Inv, Core, Settled, BufferOk, Ids, PlaceAll, Copies, Unasked, Grows, PacketsInBlock, NewBlock;
    OpenForDrain(t, s, b, now);
    OpenPaid(t, s, b, now, c);
    PlaceAllPaid(t, OpenBlock(t, s, b, now), b, s.slots[b].bucket, now, c);
  }

  lemma {:induction false} DrainPaid(t: Transfer, s: Sender, now: nat, c: nat)
    requires Inv(t, s)
    ensures Paid(t, s, Drain(t, s, now), c, 0)
    decreases |PendingIds(s.slots)|
  {
    hide Inv, OpenPending, Copies, Unasked, Grows;
    if s.openSlots < t.pipelineDepth && PendingIds(s.slots) != {} {
      var b := Least(PendingIds(s.slots));
      OpenPendingKeeps(t, s, b, now);
      OpenPendingShrinks(t, s, b, now);
      OpenPendingPaid(t, s, b, now, c);
      DrainPaid(t, OpenPending(t, s, b, now), now, c);
    }
  }

  // ---- repairs ----

  function AskedBy(t: Transfer, b: nat, missing: seq<nat>, c: nat): nat {
    if b == BlockOf(t, c) then multiset(missing)[IndexOf(t, c)] else 0
  }

  /** Each cached packet is the one of its own index. */
  ghost predicate OwnPackets(t: Transfer, b: nat, packets: seq<Option<Datagram>>) {
    |packets| <= PacketsInBlock(t, b) &&
    forall i :: 0 <= i < |packets| && packets[i].Some? ==> packets[i].value == PacketOf(t, ChunkIdOf(t, b, i))
  }

  lemma OwnAt(t: Transfer, b: nat, packets: seq<Option<Datagram>>, i: nat, c: nat)
    requires OwnPackets(t, b, packets) && i < |packets| && packets[i].Some?
    ensures packets[i].value == PacketOf(t, c) <==> b == BlockOf(t, c) && i == IndexOf(t, c)
  {
    hide PacketOf, ChunkIdOf, BlockOf, IndexOf, PacketsInBlock;
    SamePacket(t, ChunkIdOf(t, b, i), c);
    PlaceChunkId(t, b, i);
    ChunkPlace(t, c);
  }

  lemma {:induction false} CachedCopies(t: Transfer, b: nat, packets: seq<Option<Datagram>>, ids: seq<nat>, c: nat)
    requires OwnPackets(t, b, packets)
    ensures multiset(Cached(packets, ids))[PacketOf(t, c)] <= AskedBy(t, b, ids, c)
  {
    hide PacketOf, BlockOf, IndexOf, OwnPackets;
    if |ids| > 0 {
      var n := |ids| - 1;
      CachedCopies(t, b, packets, ids[..n], c);
      assert ids == ids[..n] + [ids[n]];
      if ids[n] < |packets| && packets[ids[n]].Some? {
        OwnAt(t, b, packets, ids[n], c);
      }
    }
  }

  lemma OpenOwns(t: Transfer, s: Sender, b: nat)
    requires Inv(t, s) && IsOpen(s.slots, b)
    ensures OwnPackets(t, b, s.slots[b].block.packets)
  {
    hide PacketOf, ChunkIdOf, PacketsInBlock, TotalBlocks;
    assert SlotOk(t, s, b);
    assert BlockOk(t, s.placed, b, s.slots[b].block);
    hide Inv;
  }

  lemma MissingPaid(t: Transfer, s: Sender, b: nat, missing: seq<nat>, now: nat, c: nat)
    requires Inv(t, s)
    ensures Paid(t, s, OnMissing(s, b, missing, now), c, AskedBy(t, b, missing, c))
  {
    hide Inv, PacketOf, BlockOf, Cached, OwnPackets, AskedBy;
    if IsOpen(s.slots, b) {
      var resend := Cached(s.slots[b].block.packets, missing);
      OpenOwns(t, s, b);
      CachedCopies(t, b, s.slots[b].block.packets, missing, c);
      LogMore(t, s, OnMissing(s, b, missing, now), c, resend);
    }
  }

  lemma CompletePaid(t: Transfer, s: Sender, b: nat, c: nat)
    ensures Paid(t, s, OnComplete(s, b), c, 0)
  {
    hide PacketOf, BlockOf;
  }

  lemma {:induction false} FlattenCopies(t: Transfer, b: nat, packets: seq<Option<Datagram>>, c: nat)
    requires OwnPackets(t, b, packets)
    ensures multiset(Flatten(packets))[PacketOf(t, c)] <= One(b == BlockOf(t, c) && IndexOf(t, c) < |packets|)
  {
    hide PacketOf, BlockOf, IndexOf, ChunkIdOf, PacketsInBlock;
    if |packets| > 0 {
      var n := |packets| - 1;
      assert forall i :: 0 <= i < n ==> packets[..n][i] == packets[i];
      FlattenCopies(t, b, packets[..n], c);
      if packets[n].Some? {
        OwnAt(t, b, packets, n, c);
      }
    }
  }

  lemma ResendBlockPaid(t: Transfer, s: Sender, b: nat, now: nat, c: nat)
    requires Inv(t, s)
    ensures Paid(t, s, ResendBlock(t, s, b, now), c, 0)
  {
    hide Inv, PacketOf, BlockOf, IndexOf, Flatten, OwnPackets, Copies;
    if IsStale(t, s.slots, b, now) {
      var e := s.slots[b].block;
      var extra := Flatten(e.packets) + [BlockEnd(b, e.total)];
      OpenOwns(t, s, b);
      FlattenCopies(t, b, e.packets, c);
      assert s.log + Flatten(e.packets) + [BlockEnd(b, e.total)] == s.log + extra;
      LogMore(t, s, ResendBlock(t, s, b, now), c, extra);
      EndIsNoPacket(t, Flatten(e.packets), BlockEnd(b, e.total), c);
    }
  }

  lemma EndIsNoPacket(t: Transfer, packets: seq<Datagram>, end: Datagram, c: nat)
    requires end.BlockEnd?
    ensures multiset(packets + [end])[PacketOf(t, c)] == multiset(packets)[PacketOf(t, c)]
  {
    assert multiset(packets + [end]) == multiset(packets) + multiset{end};
  }

  lemma {:induction false} ResendStalePaid(t: Transfer, s: Sender, order: seq<nat>, now: nat, c: nat)
    requires Inv(t, s)
    ensures Paid(t, s, ResendStale(t, s, order, now), c, 0)
  {
    hide Inv, ResendBlock, Copies, Unasked, Grows;
    if |order| > 0 {
      var n := |order| - 1;
      ResendStalePaid(t, s, order[..n], now, c);
      SR.ResendStaleKeeps(t, s, order[..n], now);
      ResendBlockPaid(t, ResendStale(t, s, order[..n], now), order[n], now, c);
    }
  }

  // ---- one turn of the loop, and a whole run ----

  function Asked(t: Transfer, e: Event, c: nat): nat {
    if e.AckEvent? && e.ack.Missing? then AskedBy(t, e.ack.blockId, e.ack.missing, c) else 0
  }

  lemma StepPaid(t: Transfer, s: Sender, e: Event, now: nat, c: nat)
    requires Inv(t, s) && SR.Acceptable(t, s, e)
    ensures Paid(t, s, Step(t, s, e, now), c, Asked(t, e, c))
  {
    hide Inv, Paid, Admit, OnMissing, OnComplete, ResendStale, Drain, ChunkOf, AskedBy, Grows, SR.ResolvedBy;
    match e {
      case ChunkEvent(chunk) => AdmitPaid(t, s, chunk.chunkId, now, c);
      case AckEvent(Missing(b, missing)) => MissingPaid(t, s, b, missing, now, c);
      case AckEvent(Complete(b)) => CompletePaid(t, s, b, c);
      case Timeout(order) => ResendStalePaid(t, s, order, now, c);
    }
    SR.HandleKeeps(t, s, e, now);
    var s1 := Handle(t, s, e, now);
    DrainPaid(t, s1, now, c);
    PaidThen(t, s, s1, Drain(t, s1, now), c, Asked(t, e, c));
  }

  /** How often the acks name chunk `c`. */
  function AskedIn(t: Transfer, acks: seq<BlockAck>, c: nat): nat {
    if |acks| == 0 then 0 else
    var n := |acks| - 1;
    AskedIn(t, acks[..n], c) + Asked(t, AckEvent(acks[n]), c)
  }

  ghost predicate CopiesOk(t: Transfer, s: State, c: nat) {
    s.consumed <= |s.acks| && Copies(t, s.sender, c) <= Unasked(t, s.sender, c) + AskedIn(t, s.acks[..s.consumed], c)
  }

  lemma SenderCopies(t: Transfer, s: State, e: Event, at: nat, c: nat)
    requires Inv(t, s.sender) && SR.Acceptable(t, s.sender, e) && CopiesOk(t, s, c)
    requires e.AckEvent? ==> s.consumed < |s.acks| && e.ack == s.acks[s.consumed]
    ensures CopiesOk(t, SenderNext(t, s, e, at), c)
  {
    hide Inv, Step, SR.Acceptable, Copies, Unasked, AskedBy;
    StepPaid(t, s.sender, e, at, c);
    if e.AckEvent? {
      assert s.acks[..s.consumed + 1][..s.consumed] == s.acks[..s.consumed];
    }
  }

  lemma OtherCopies(t: Transfer, s: State, a: Action, c: nat)
    requires Enabled(t, s, a) && CopiesOk(t, s, c) && !a.ChunkArrives? && !a.AckArrives? && !a.SenderTimeout?
    ensures CopiesOk(t, Next(t, s, a), c)
  {
    var s' := Next(t, s, a);
    assert s'.sender == s.sender && s'.consumed == s.consumed && s.acks <= s'.acks by {
      hide CopiesOk, K.Touch, K.EndSeen, K.Verify, K.Remove, K.Tick, K.DueIn, Running, Deliverable, TotalBlocks;
    }
    hide Next, Copies, Unasked, AskedIn, Enabled;
    assert s'.acks[..s.consumed] == s.acks[..s.consumed];
  }

  lemma ActionCopies(t: Transfer, s: State, a: Action, c: nat)
    requires C.Inv(t, s) && Enabled(t, s, a) && CopiesOk(t, s, c)
    ensures CopiesOk(t, Next(t, s, a), c)
  {
    C.InvParts(t, s);
    hide C.Inv, Inv, CopiesOk, SC.Control, SD.DataPlane, Rounds, ST.Time, SenderNext, ChunkOf;
    match a
    case ChunkArrives(d, at) =>
      C.ChunkAcceptable(t, s.sender, d);
      SenderCopies(t, s, ChunkEvent(ChunkOf(t, d)), at, c);
    case AckArrives(at) => SenderCopies(t, s, AckEvent(s.acks[s.consumed]), at, c);
    case SenderTimeout(order, at) => SenderCopies(t, s, Timeout(order), at, c);
    case _ => OtherCopies(t, s, a, c);
  }

  lemma {:induction false} RunCopies(t: Transfer, actions: seq<Action>, c: nat)
    ensures CopiesOk(t, EndOf(t, actions), c)
  {
    hide C.Inv, Enabled, Next;
    if |actions| > 0 {
      var n := |actions| - 1;
      var s := EndOf(t, actions[..n]);
      RunCopies(t, actions[..n], c);
      hide CopiesOk;
      C.RunInv(t, actions[..n]);
      if Enabled(t, s, actions[n]) {
        ActionCopies(t, s, actions[n], c);
      }
    }
  }

  lemma {:induction false} AscendingOnce(ids: seq<nat>, i: nat)
    requires K.Ascending(ids)
    ensures multiset(ids)[i] <= 1
  {
    if |ids| > 0 {
      var n := |ids| - 1;
      assert ids == ids[..n] + [ids[n]];
      AscendingOnce(ids[..n], i);
      if ids[n] == i {
        assert i !in ids[..n];
      }
    }
  }

  lemma {:induction false} AskedWithin(t: Transfer, acks: seq<BlockAck>, c: nat)
    requires ShapesOk(t, acks)
    ensures AskedIn(t, acks, c) <= MissingCount(acks, BlockOf(t, c))
  {
    hide BlockOf, IndexOf, TotalBlocks, PacketsInBlock;
    if |acks| > 0 {
      var n := |acks| - 1;
      assert acks[n] in acks;
      assert AckShape(t, acks[n]);
      AskedWithin(t, acks[..n], c);
      if acks[n].Missing? {
        AscendingOnce(acks[n].missing, IndexOf(t, c));
      }
    }
  }

  lemma {:induction false} CountPrefix(acks: seq<BlockAck>, n: nat, b: nat)
    requires n <= |acks|
    ensures MissingCount(acks[..n], b) <= MissingCount(acks, b)
  {
    if n == |acks| {
      assert acks[..n] == acks;
    } else {
      var m := |acks| - 1;
      assert acks[..m][..n] == acks[..n];
      CountPrefix(acks[..m], n, b);
    }
  }

  lemma AskedAtMost(t: Transfer, s: State, c: nat)
    requires C.Inv(t, s) && s.consumed <= |s.acks|
    ensures AskedIn(t, s.acks[..s.consumed], c) <= t.maxRounds
  {
    C.InvParts(t, s);
    hide C.Inv, C.SenderSide, SC.Control, SD.DataPlane, ST.Time, AskedIn, MissingCount, AckShape, BlockOf, NamedOk;
    assert ShapesOk(t, s.acks[..s.consumed]);
    AskedWithin(t, s.acks[..s.consumed], c);
    CountPrefix(s.acks, s.consumed, BlockOf(t, c));
  }

  /** No packet is sent more than `maxRounds + 2` times in a whole run: once when its chunk is
      placed, once in the fallback, and once for each Missing ack of its block. */
  lemma CopiesBounded(t: Transfer, actions: seq<Action>, c: nat)
    ensures multiset(EndOf(t, actions).sender.log)[PacketOf(t, c)] <= t.maxRounds + 2
  {
    hide C.Inv, EndOf, PacketOf, BlockOf, AskedIn;
    C.RunInv(t, actions);
    RunCopies(t, actions, c);
    AskedAtMost(t, EndOf(t, actions), c);
  }
}
