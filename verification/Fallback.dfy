/** When the whole-block fallback fires, told from the events the manager took: once, and only
    after a block has been silent for the timeout since its BlockEnd or its last Missing ack. */
module Fallback {
  import opened Transfers
  import opened Sums
  import opened Protocol
  import opened Sender
  import opened SenderInvariant
  import SR = SenderRuns
  import opened PacketCopies
  import opened Repairs

  // ---- the manager's state after its events, and the history of one block ----

  /** The manager's state after it was offered `events`, from `s` on. */
  ghost function After(t: Transfer, s: Sender, events: seq<Timed>): Sender {
    if |events| == 0 then s else
    var n := |events| - 1;
    var s' := After(t, s, events[..n]);
    if Running(t, s') then Step(t, s', events[n].event, events[n].now) else s'
  }

  ghost predicate TakesAll(t: Transfer, s: Sender, events: seq<Timed>) {
    forall k :: 0 <= k < |events| && Running(t, After(t, s, events[..k])) ==>
      SR.Acceptable(t, After(t, s, events[..k]), events[k].event)
  }

  lemma {:induction false} AfterFirst(t: Transfer, s: Sender, events: seq<Timed>)
    requires 0 < |events|
    ensures var s1 := if Running(t, s) then Step(t, s, events[0].event, events[0].now) else s;
            After(t, s, events) == After(t, s1, events[1..])
  {
    hide Step, Running;
    var n := |events| - 1;
    if n == 0 {
      assert events[..0] == [] && events[1..] == [];
    } else {
      AfterFirst(t, s, events[..n]);
      assert events[..n][1..] == events[1..][..n - 1] && events[1..][n - 1] == events[n];
    }
  }

  lemma {:induction false} AfterStopped(t: Transfer, s: Sender, events: seq<Timed>)
    requires !Running(t, s)
    ensures After(t, s, events) == s
  {
    hide Step, Running;
    if |events| > 0 {
      AfterStopped(t, s, events[..|events| - 1]);
    }
  }

  /** The loop ends where this history ends, and takes what this history takes. */
  lemma {:induction false} LoopIsAfter(t: Transfer, s: Sender, events: seq<Timed>)
    requires SR.AllAcceptable(t, s, events)
    ensures Loop(t, s, events) == After(t, s, events) && TakesAll(t, s, events)
    decreases |events|
  {
    hide Step, SR.Acceptable;
    if |events| > 0 && Running(t, s) {
      var s1 := Step(t, s, events[0].event, events[0].now);
      LoopIsAfter(t, s1, events[1..]);
      hide Running;
      AfterFirst(t, s, events);
      forall k | 0 <= k < |events| && Running(t, After(t, s, events[..k]))
        ensures SR.Acceptable(t, After(t, s, events[..k]), events[k].event)
      {
        if k == 0 {
          assert events[..0] == [];
        } else {
          AfterFirst(t, s, events[..k]);
          assert events[..k][1..] == events[1..][..k - 1] && events[1..][k - 1] == events[k];
        }
      }
    } else if |events| > 0 {
      AfterStopped(t, s, events);
      forall k | 0 <= k < |events| ensures !Running(t, After(t, s, events[..k])) {
        AfterStopped(t, s, events[..k]);
      }
    }
  }

  function EndOfBlock(t: Transfer, b: nat): Datagram { BlockEnd(b, PacketsInBlock(t, b)) }

  /** The event is a Missing ack for the Open block, or makes the block's first BlockEnd go out. */
  ghost predicate Speaks(t: Transfer, s: Sender, e: Timed, b: nat) {
    || (e.event.AckEvent? && e.event.ack.Missing? && e.event.ack.blockId == b && IsOpen(s.slots, b))
    || (EndOfBlock(t, b) !in s.log && EndOfBlock(t, b) in Step(t, s, e.event, e.now).log)
  }

  /** When that happened last. */
  ghost function LastWord(t: Transfer, events: seq<Timed>, b: nat): nat {
    if |events| == 0 then 0 else
    var n := |events| - 1;
    var s := After(t, START, events[..n]);
    if Running(t, s) && Speaks(t, s, events[n], b) then events[n].now else LastWord(t, events[..n], b)
  }

  // ---- the block's timer follows that history ----

  ghost predicate EndIsOut(slots: map<nat, Slot>, b: nat) { IsOpen(slots, b) && slots[b].block.endEmitted }

  /** Placing and opening leave a finished block alone and stamp one they finish. */
  ghost predicate Stamps(s: Sender, s': Sender, b: nat, now: nat) {
    && (EndIsOut(s.slots, b) ==> b in s'.slots && s'.slots[b] == s.slots[b])
    && (EndIsOut(s'.slots, b) && !EndIsOut(s.slots, b) ==> s'.slots[b].block.lastAckActivity == now)
  }

  lemma StampsThen(s: Sender, s1: Sender, s2: Sender, b: nat, now: nat)
    requires Stamps(s, s1, b, now) && Stamps(s1, s2, b, now)
    ensures Stamps(s, s2, b, now)
  {
  }

  lemma PlaceStamps(t: Transfer, s: Sender, d: nat, now: nat, b: nat)
    requires SlotsOk(t, s) && IsOpen(s.slots, BlockOf(t, d)) && d < TotalChunks(t) && d !in s.placed
    ensures Stamps(s, Place(s, BlockOf(t, d), IndexOf(t, d), ChunkOf(t, d), now), b, now)
  {
    PlaceNext(t, s, d, now);
    hide SlotsOk, BlockOf, IndexOf, ChunkOf, PacketOf, BlockOk, ChunkIdOf;
    PlaceStampsOwn(s, BlockOf(t, d), IndexOf(t, d), ChunkOf(t, d), now);
  }

  lemma PlaceStampsOwn(s: Sender, x: nat, i: nat, chunk: EncryptedChunk, now: nat)
    requires IsOpen(s.slots, x) && !s.slots[x].block.endEmitted
    ensures Stamps(s, Place(s, x, i, chunk, now), x, now)
  {
    hide AllCached;
  }

  lemma OpenStamps(t: Transfer, s: Sender, x: nat, now: nat, b: nat)
    requires !WasOpened(s.slots, x)
    ensures Stamps(s, OpenBlock(t, s, x, now), b, now)
  {
  }

  lemma AdmitStamps(t: Transfer, s: Sender, d: nat, now: nat, b: nat)
    requires Inv(t, s) && d < TotalChunks(t) && d !in s.arrived
    ensures Stamps(s, Admit(t, s, ChunkOf(t, d), now), b, now)
  {
    AdmitReady(t, s, d, now);
    hide Inv, SlotsOk, BlockOf, IndexOf, Place, OpenBlock;
    var x, s1, s' := BlockOf(t, d), s.(arrived := s.arrived + {d}), Admit(t, s, ChunkOf(t, d), now);
    if IsOpen(s.slots, x) {
      PlaceStamps(t, s1, d, now, b);
    } else if x !in s.slots && s.openSlots < t.pipelineDepth {
      OpenStamps(t, s1, x, now, b);
      OpenIsOpen(t, s1, x, now);
      PlaceStamps(t, OpenBlock(t, s1, x, now), d, now, b);
      StampsThen(s1, OpenBlock(t, s1, x, now), s', b, now);
    }
  }

  lemma OpenIsOpen(t: Transfer, s: Sender, x: nat, now: nat)
    ensures IsOpen(OpenBlock(t, s, x, now).slots, x) && OpenBlock(t, s, x, now).placed == s.placed
  {
  }

  lemma PlaceBufferedStamps(t: Transfer, s: Sender, x: nat, bucket: seq<EncryptedChunk>, now: nat, b: nat)
    requires Core(t, s) && IsOpen(s.slots, x) && 0 < |bucket| && BufferOk(t, s, x, bucket)
    ensures Stamps(s, PlaceBuffered(t, s, x, bucket[0], now), b, now)
  {
    assert BufferedOk(t, s, x, bucket[0]) && SlotsOk(t, s);
    hide Core, SlotsOk, BlockOf, IndexOf, PacketOf, Place, Stamps, ChunkOf;
    PlaceStamps(t, s, bucket[0].chunkId, now, b);
  }

  lemma {:induction false} PlaceAllStamps(t: Transfer, s: Sender, x: nat, bucket: seq<EncryptedChunk>, now: nat, b: nat)
    requires Core(t, s) && IsOpen(s.slots, x) && BufferOk(t, s, x, bucket)
    requires Settled(t, s, Ids(bucket))
    ensures Stamps(s, PlaceAll(t, s, x, bucket, now), b, now)
    decreases |bucket|
  {
    hide PlaceBuffered, Core, BufferOk, Settled, Ids;
    if |bucket| > 0 {
      var s1 := PlaceBuffered(t, s, x, bucket[0], now);
      PlaceBufferedKeeps(t, s, x, bucket, now);
      PlaceBufferedStamps(t, s, x, bucket, now, b);
      PlaceAllStamps(t, s1, x, bucket[1..], now, b);
      StampsThen(s, s1, PlaceAll(t, s, x, bucket, now), b, now);
    }
  }

  lemma OpenPendingStamps(t: Transfer, s: Sender, x: nat, now: nat, b: nat)
    requires Inv(t, s) && IsPending(s.slots, x) && s.openSlots < t.pipelineDepth
    ensures Stamps(s, OpenPending(t, s, x, now), b, now)
  {
    hide Inv, Core, Settled, BufferOk, Ids, PlaceAll, Grows, OpenBlock, Stamps;
    var s1 := OpenBlock(t, s, x, now);
    OpenForDrain(t, s, x, now);
    OpenStamps(t, s, x, now, b);
    OpenIsOpen(t, s, x, now);
    PlaceAllStamps(t, s1, x, s.slots[x].bucket, now, b);
    StampsThen(s, s1, PlaceAll(t, s1, x, s.slots[x].bucket, now), b, now);
  }

  lemma {:induction false} DrainStamps(t: Transfer, s: Sender, now: nat, b: nat)
    requires Inv(t, s)
    ensures Stamps(s, Drain(t, s, now), b, now)
    decreases |PendingIds(s.slots)|
  {
    hide Inv, OpenPending, Grows;
    if s.openSlots < t.pipelineDepth && PendingIds(s.slots) != {} {
      var x := Least(PendingIds(s.slots));
      var s1 := OpenPending(t, s, x, now);
      OpenPendingKeeps(t, s, x, now);
      OpenPendingShrinks(t, s, x, now);
      OpenPendingStamps(t, s, x, now, b);
      DrainStamps(t, s1, now, b);
      StampsThen(s, s1, Drain(t, s1, now), b, now);
    }
  }

  /** A fallback leaves another block alone and marks its own. */
  lemma {:induction false} StaleMarks(t: Transfer, s: Sender, order: seq<nat>, at: nat, b: nat)
    requires b in s.slots
    ensures var s' := ResendStale(t, s, order, at);
            && b in s'.slots
            && (s'.slots[b] == s.slots[b] ||
                (IsOpen(s'.slots, b) && s'.slots[b].block.fallbackSent && EndIsOut(s.slots, b)))
  {
    hide Flatten;
    if |order| > 0 {
      StaleMarks(t, s, order[..|order| - 1], at, b);
    }
  }

  lemma {:induction false} StaleAdds(t: Transfer, s: Sender, order: seq<nat>, at: nat, b: nat)
    requires b !in s.slots
    ensures b !in ResendStale(t, s, order, at).slots
  {
    hide Flatten;
    if |order| > 0 {
      StaleAdds(t, s, order[..|order| - 1], at, b);
    }
  }

  /** An Open block's timer, from its BlockEnd to its fallback, shows its last word. */
  ghost predicate TimerOk(s: Sender, b: nat, last: nat) {
    EndIsOut(s.slots, b) && !s.slots[b].block.fallbackSent ==> s.slots[b].block.lastAckActivity == last
  }

  /** How handling the event itself, before the drain, treats block `b`. */
  ghost predicate Treats(s: Sender, e: Event, s': Sender, b: nat, now: nat) {
    if e.AckEvent? && e.ack.Missing? && e.ack.blockId == b && IsOpen(s.slots, b) then
      IsOpen(s'.slots, b) && s'.slots[b].block == s.slots[b].block.(lastAckActivity := now)
    else
      || Stamps(s, s', b, now)
      || IsResolved(s'.slots, b)
      || (IsOpen(s'.slots, b) && s'.slots[b].block.endEmitted && s'.slots[b].block.fallbackSent)
  }

  lemma SameSlotStamps(s: Sender, s': Sender, b: nat, now: nat)
    requires b in s.slots <==> b in s'.slots
    requires b in s.slots ==> s.slots[b] == s'.slots[b]
    ensures Stamps(s, s', b, now)
  {
  }

  lemma HandleTreats(t: Transfer, s: Sender, e: Event, now: nat, b: nat)
    requires Inv(t, s) && SR.Acceptable(t, s, e)
    ensures Treats(s, e, Handle(t, s, e, now), b, now)
  {
    hide Inv, Admit, ResendStale, Cached, Flatten, ChunkOf, Stamps;
    match e
    case ChunkEvent(chunk) => AdmitStamps(t, s, chunk.chunkId, now, b);
    case AckEvent(Missing(x, missing)) =>
      if x != b || !IsOpen(s.slots, b) {
        SameSlotStamps(s, OnMissing(s, x, missing, now), b, now);
      }
    case AckEvent(Complete(x)) =>
      if x != b {
        SameSlotStamps(s, OnComplete(s, x), b, now);
      }
    case Timeout(order) =>
      if b in s.slots {
        StaleMarks(t, s, order, now, b);
        SR.ResendStaleKeeps(t, s, order, now);
        StaleStamps(t, s, ResendStale(t, s, order, now), b, now);
      } else {
        StaleAdds(t, s, order, now, b);
        SameSlotStamps(s, ResendStale(t, s, order, now), b, now);
      }
  }

  lemma StaleStamps(t: Transfer, s: Sender, s': Sender, b: nat, now: nat)
    requires Inv(t, s') && b in s.slots && b in s'.slots
    requires s'.slots[b] == s.slots[b] ||
             (IsOpen(s'.slots, b) && s'.slots[b].block.fallbackSent && EndIsOut(s.slots, b))
    ensures Treats(s, Timeout([]), s', b, now)
  {
    assert SlotOk(t, s', b);
    hide Inv, PacketOf, ChunkIdOf;
  }

  /** An Open block's BlockEnd is in the log exactly when its flag says so; a block not opened has
      none there. */
  lemma EndLogged(t: Transfer, s: Sender, b: nat)
    requires Inv(t, s) && b < TotalBlocks(t) && !IsResolved(s.slots, b)
    ensures EndOfBlock(t, b) in s.log <==> EndIsOut(s.slots, b)
  {
    assert EndsMatch(s.slots, b, multiset(s.log)[EndOfBlock(t, b)]);
    if IsOpen(s.slots, b) {
      assert SlotOk(t, s, b);
    }
    hide Inv, PacketsInBlock, TotalBlocks, PacketOf, ChunkIdOf;
    assert EndOfBlock(t, b) in s.log <==> multiset(s.log)[EndOfBlock(t, b)] > 0;
  }

  lemma OpenInFile(t: Transfer, s: Sender, b: nat)
    requires Inv(t, s) && IsOpen(s.slots, b)
    ensures b < TotalBlocks(t) && (s.slots[b].block.fallbackSent ==> s.slots[b].block.endEmitted)
  {
    assert SlotOk(t, s, b);
  }

  lemma TimerStep(t: Transfer, s: Sender, e: Timed, b: nat, last: nat)
    requires Inv(t, s) && SR.Acceptable(t, s, e.event) && TimerOk(s, b, last)
    ensures TimerOk(Step(t, s, e.event, e.now), b, if Speaks(t, s, e, b) then e.now else last)
  {
    hide Inv, Handle, Drain, SR.Acceptable, TotalBlocks, PacketsInBlock, EndOfBlock, Grows, SR.ResolvedBy;
    var s1, s2 := Handle(t, s, e.event, e.now), Step(t, s, e.event, e.now);
    HandleTreats(t, s, e.event, e.now, b);
    SR.HandleKeeps(t, s, e.event, e.now);
    SR.StepKeeps(t, s, e.event, e.now);
    DrainStamps(t, s1, e.now, b);
    assert IsResolved(s1.slots, b) ==> IsResolved(s2.slots, b) by { DrainResolves(t, s1, e.now, b); }
    assert IsResolved(s.slots, b) ==> IsResolved(s2.slots, b) by { StepResolves(t, s, e, b); }
    if EndIsOut(s2.slots, b) && !s2.slots[b].block.fallbackSent {
      OpenInFile(t, s2, b);
      EndLogged(t, s, b);
      EndLogged(t, s2, b);
      TimerCases(t, s, e, s1, s2, b, last);
    }
  }

  lemma DrainResolves(t: Transfer, s: Sender, now: nat, b: nat)
    requires Inv(t, s)
    ensures IsResolved(s.slots, b) ==> IsResolved(Drain(t, s, now).slots, b)
  {
    hide Inv, Drain;
    DrainKeeps(t, s, now);
  }

  lemma StepResolves(t: Transfer, s: Sender, e: Timed, b: nat)
    requires Inv(t, s) && SR.Acceptable(t, s, e.event)
    ensures IsResolved(s.slots, b) ==> IsResolved(Step(t, s, e.event, e.now).slots, b)
  {
    hide Inv, Step, SR.Acceptable;
    SR.StepKeeps(t, s, e.event, e.now);
  }

  lemma TimerCases(t: Transfer, s: Sender, e: Timed, s1: Sender, s2: Sender, b: nat, last: nat)
    requires TimerOk(s, b, last) && Treats(s, e.event, s1, b, e.now) && Stamps(s1, s2, b, e.now)
    requires s2 == Step(t, s, e.event, e.now)
    requires EndIsOut(s2.slots, b) && !s2.slots[b].block.fallbackSent && !IsResolved(s1.slots, b)
    requires EndOfBlock(t, b) in s.log <==> EndIsOut(s.slots, b)
    requires EndOfBlock(t, b) in s2.log
    ensures s2.slots[b].block.lastAckActivity == if Speaks(t, s, e, b) then e.now else last
  {
    hide Step, EndOfBlock;
  }

  lemma {:induction false} RunTimer(t: Transfer, events: seq<Timed>, b: nat)
    requires TakesAll(t, START, events)
    ensures Inv(t, After(t, START, events))
    ensures TimerOk(After(t, START, events), b, LastWord(t, events, b))
  {
    hide Inv, Step, Running, SR.Acceptable, Speaks;
    if |events| == 0 {
      SR.StartOk(t);
    } else {
      var n := |events| - 1;
      var s := After(t, START, events[..n]);
      forall k | 0 <= k < n ensures events[..n][..k] == events[..k] && events[..n][k] == events[k] {
      }
      RunTimer(t, events[..n], b);
      if Running(t, s) {
        SR.StepKeeps(t, s, events[n].event, events[n].now);
        hide TimerOk;
        TimerStep(t, s, events[n], b, LastWord(t, events[..n], b));
      }
    }
  }

  // ---- what one walk of the map resends ----

  /** The first packets of the block, cached exactly where placed. */
  ghost predicate CachesFirst(t: Transfer, placed: set<nat>, b: nat, packets: seq<Option<Datagram>>) {
    && |packets| <= PacketsInBlock(t, b)
    && forall i :: 0 <= i < |packets| ==>
         packets[i] == if ChunkIdOf(t, b, i) in placed then Some(PacketOf(t, ChunkIdOf(t, b, i))) else None
  }

  lemma {:induction false} FlattenExactly(t: Transfer, placed: set<nat>, b: nat, packets: seq<Option<Datagram>>, c: nat)
    requires CachesFirst(t, placed, b, packets)
    ensures multiset(Flatten(packets))[PacketOf(t, c)] ==
            One(b == BlockOf(t, c) && c in placed && IndexOf(t, c) < |packets|)
  {
    hide PacketOf, BlockOf, IndexOf, ChunkIdOf, PacketsInBlock;
    if |packets| > 0 {
      var n := |packets| - 1;
      assert forall i :: 0 <= i < n ==> packets[..n][i] == packets[i];
      FlattenExactly(t, placed, b, packets[..n], c);
      OneFirst(t, placed, b, packets, n, c);
      hide CachesFirst;
    }
  }

  lemma OneFirst(t: Transfer, placed: set<nat>, b: nat, packets: seq<Option<Datagram>>, i: nat, c: nat)
    requires CachesFirst(t, placed, b, packets) && i < |packets|
    ensures packets[i] == Some(PacketOf(t, c)) <==> b == BlockOf(t, c) && c in placed && i == IndexOf(t, c)
  {
    hide PacketOf, BlockOf, IndexOf, ChunkIdOf, PacketsInBlock;
    ChunkPlace(t, c);
    PlaceChunkId(t, b, i);
    SamePacket(t, ChunkIdOf(t, b, i), c);
  }

  /** One block's turn in the walk: every chunk of a stale block goes out once more, and its
      BlockEnd; of other blocks nothing. */
  lemma ResendExactly(t: Transfer, s: Sender, x: nat, at: nat, b: nat, c: nat)
    requires Inv(t, s) && IsOpen(s.slots, b) && c < TotalChunks(t) && BlockOf(t, c) == b
    ensures var s' := ResendBlock(t, s, x, at);
            var fires := x == b && IsStale(t, s.slots, b, at);
            && b in s'.slots
            && Copies(t, s', c) == Copies(t, s, c) + One(fires)
            && multiset(s'.log)[EndOfBlock(t, b)] == multiset(s.log)[EndOfBlock(t, b)] + One(fires)
            && s'.slots[b] ==
               if fires then Open(s.slots[b].block.(fallbackSent := true, lastAckActivity := at)) else s.slots[b]
  {
    hide Inv, BlockOf, IndexOf, ChunkIdOf, PacketOf, PacketsInBlock, TotalBlocks, Copies, Flatten;
    if IsStale(t, s.slots, x, at) {
      SR.OpenFacts(t, s, x);
      WholeOnce(t, s, x, c);
      ResentLog(t, s, ResendBlock(t, s, x, at), Flatten(s.slots[x].block.packets), x, b, c);
    }
  }

  /** The flattened cache of a finished block has each of its packets once, and no other's. */
  lemma WholeOnce(t: Transfer, s: Sender, x: nat, c: nat)
    requires Inv(t, s) && IsOpen(s.slots, x) && s.slots[x].block.endEmitted && c < TotalChunks(t)
    ensures var resent := Flatten(s.slots[x].block.packets);
            && multiset(resent)[PacketOf(t, c)] == One(x == BlockOf(t, c))
            && forall d :: d in resent ==> d.Data?
  {
    hide Inv, BlockOf, IndexOf, ChunkIdOf, PacketsInBlock, TotalBlocks, Flatten;
    OpenCaches(t, s, x);
    SR.WholeBlockCached(t, s, x);
    FlattenExactly(t, s.placed, x, s.slots[x].block.packets, c);
    PlacedWhole(t, s, x, c);
  }

  lemma PlacedWhole(t: Transfer, s: Sender, x: nat, c: nat)
    requires forall i :: 0 <= i < PacketsInBlock(t, x) ==> ChunkIdOf(t, x, i) in s.placed
    requires c < TotalChunks(t)
    ensures x == BlockOf(t, c) ==> c in s.placed && IndexOf(t, c) < PacketsInBlock(t, x)
  {
    hide BlockOf, IndexOf, ChunkIdOf, PacketsInBlock, TotalBlocks;
    ChunkPlace(t, c);
  }

  lemma ResentLog(t: Transfer, s: Sender, s': Sender, resent: seq<Datagram>, x: nat, b: nat, c: nat)
    requires s'.log == s.log + resent + [EndOfBlock(t, x)]
    requires forall d :: d in resent ==> d.Data?
    ensures Copies(t, s', c) == Copies(t, s, c) + multiset(resent)[PacketOf(t, c)]
    ensures multiset(s'.log)[EndOfBlock(t, b)] == multiset(s.log)[EndOfBlock(t, b)] + One(x == b)
  {
    hide BlockOf, IndexOf, PacketsInBlock;
    assert multiset(s'.log) == multiset(s.log) + multiset(resent) + multiset{EndOfBlock(t, x)};
    assert EndOfBlock(t, b) !in resent;
    assert PacketOf(t, c).Data?;
  }

  lemma {:induction false} WalkExactly(t: Transfer, s: Sender, order: seq<nat>, at: nat, b: nat, c: nat)
    requires Inv(t, s) && IsOpen(s.slots, b) && c < TotalChunks(t) && BlockOf(t, c) == b
    ensures var s' := ResendStale(t, s, order, at);
            var fires := b in order && IsStale(t, s.slots, b, at);
            && b in s'.slots
            && Copies(t, s', c) == Copies(t, s, c) + One(fires)
            && multiset(s'.log)[EndOfBlock(t, b)] == multiset(s.log)[EndOfBlock(t, b)] + One(fires)
            && s'.slots[b] ==
               if fires then Open(s.slots[b].block.(fallbackSent := true, lastAckActivity := at)) else s.slots[b]
  {
    hide Inv, BlockOf, Copies, EndOfBlock, ResendBlock, Grows;
    if |order| > 0 {
      var n := |order| - 1;
      var s1 := ResendStale(t, s, order[..n], at);
      WalkExactly(t, s, order[..n], at, b, c);
      SR.ResendStaleKeeps(t, s, order[..n], at);
      ResendExactly(t, s1, order[n], at, b, c);
      assert order == order[..n] + [order[n]];
    }
  }

  lemma OneEnd(t: Transfer, s: Sender, b: nat)
    requires Inv(t, s) && IsOpen(s.slots, b)
    ensures multiset(s.log)[EndOfBlock(t, b)] == 1 <==> EndIsOut(s.slots, b) && !s.slots[b].block.fallbackSent
  {
    OpenInFile(t, s, b);
    assert EndsMatch(s.slots, b, multiset(s.log)[EndOfBlock(t, b)]);
    hide Inv, PacketsInBlock, TotalBlocks;
  }

  /** A timeout resends an Open block, each packet once and its BlockEnd, exactly when the walk
      comes by it, its BlockEnd has gone out once, and nothing has been said of it for the timeout:
      neither that BlockEnd nor a Missing ack. Otherwise it sends nothing of the block. */
  lemma FallbackIffSilent(t: Transfer, events: seq<Timed>, order: seq<nat>, at: nat, b: nat, c: nat)
    requires TakesAll(t, START, events) && IsOpen(After(t, START, events).slots, b)
    requires c < TotalChunks(t) && BlockOf(t, c) == b
    ensures var s := After(t, START, events);
            var s', ends := Handle(t, s, Timeout(order), at), multiset(s.log)[EndOfBlock(t, b)];
            var fires := b in order && ends == 1 && LastWord(t, events, b) + t.staleAfter <= at;
            && Copies(t, s', c) == Copies(t, s, c) + One(fires)
            && multiset(s'.log)[EndOfBlock(t, b)] == ends + One(fires)
  {
    hide Inv, BlockOf, Copies, EndOfBlock, ResendStale, After, LastWord, TakesAll;
    RunTimer(t, events, b);
    var s := After(t, START, events);
    OneEnd(t, s, b);
    WalkExactly(t, s, order, at, b, c);
  }
}
