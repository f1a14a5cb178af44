/** What can and what cannot leave the two ends waiting for each other. */
module Progress {
  import opened Transfers
  import opened Sums
  import opened Protocol
  import opened Sender
  import SI = SenderInvariant
  import SR = SenderRuns
  import K = Tracker
  import opened System
  import opened SystemControl
  import opened SystemData
  import opened SystemRounds
  import opened SystemTime
  import opened SystemInvariant
  import opened Theorems

  // ---- a block the receiver has heard of is dealt with ----

  lemma DueAfterSilence(t: Transfer, e: K.RxEntry, now: nat)
    requires e.lastActivity + t.grace + t.idleTimeout <= now
    ensures K.Due(t, e, now)
  {
    assert K.Wait(t, e.rounds + 1) <= t.idleTimeout;
  }

  lemma TrackedNotDone(t: Transfer, s: State, b: nat)
    requires Inv(t, s) && b in s.tracker.blocks
    ensures s.resolved < TotalBlocks(t)
    ensures s.tracker.blocks[b].lastActivity <= s.now
  {
    hide SenderSide, DataPlane, Rounds, TotalBlocks, PacketsInBlock;
    Pigeonhole(s.tracker.completed, TotalBlocks(t));
  }

  /** While any block is tracked the ack manager has not left its loop, and its next poll after
      `grace + idleTimeout` of quiet finds that block, whatever was lost. */
  lemma TrackedIsPolled(t: Transfer, s: State, b: nat, ms: nat, order: seq<nat>)
    requires Inv(t, s) && s.manager.Polling? && b in s.tracker.blocks
    requires ms >= t.grace + t.idleTimeout && K.Enumerates(order, s.tracker.blocks.Keys)
    ensures Enabled(t, s.(now := s.now + ms), Poll(order))
    ensures b in Busy(PollNext(t, s.(now := s.now + ms), order).manager)
  {
    hide Inv, TotalBlocks, K.Due, K.DueIn;
    TrackedNotDone(t, s, b);
    DueAfterSilence(t, s.tracker.blocks[b], s.now + ms);
    assert b in order;
    K.DueExact(t, s.tracker, order, s.now + ms);
    hide K.Enumerates;
  }

  // ---- a block the receiver has never heard of ----

  ghost predicate Traced(s: State, b: nat) { b in s.tracker.blocks || b in s.tracker.completed }

  lemma DeliveryTraces(t: Transfer, s: State, d: Datagram, payload: Bytes, hash: nat)
    ensures Traced(DeliverNext(t, s, d, payload, hash), d.blockId)
  {
  }

  lemma VerifyIsOp(t: Transfer, s: State, p: Received) returns (op: Option<K.Op>)
    ensures VerifyNext(t, s, p).tracker == if op.Some? then K.Apply(s.tracker, op.value) else s.tracker
    ensures op.Some? ==> op.value.VerifyOp? && op.value.block == p.blockId
  {
    hide K.Verify, PacketsInBlock;
    op := if t.hash(t.crypt(p.chunkId, p.encrypted)) != p.hash then None
          else Some(K.VerifyOp(p.blockId, p.index, PacketsInBlock(t, p.blockId), s.now));
  }

  function DeliveryOp(t: Transfer, d: Datagram, now: nat): K.Op {
    match d
    case Data(b, _, _, _) => K.TouchOp(b, PacketsInBlock(t, b), now)
    case BlockEnd(b, n) => K.EndSeenOp(b, n, now)
  }

  lemma DeliverIsOp(t: Transfer, s: State, d: Datagram, payload: Bytes, hash: nat) returns (op: K.Op)
    ensures DeliverNext(t, s, d, payload, hash).tracker == K.Apply(s.tracker, op) && op == DeliveryOp(t, d, s.now)
  {
    hide K.Touch, K.EndSeen, PacketsInBlock, ChunkIdOf;
    match d
    case Data(b, i, _, _) => op := K.TouchOp(b, PacketsInBlock(t, b), s.now);
    case BlockEnd(b, n) => op := K.EndSeenOp(b, n, s.now);
  }

  lemma SenderTracksNothing(t: Transfer, s: State, e: Event, at: nat)
    ensures SenderNext(t, s, e, at).tracker == s.tracker && SenderNext(t, s, e, at).packets == s.packets
  {
    hide Step;
  }

  /** Every action of the system is at most one locked operation on the tracker, on the block
      the action is about. */
  lemma OneOpAtMost(t: Transfer, s: State, a: Action) returns (op: Option<K.Op>)
    requires Enabled(t, s, a)
    ensures Next(t, s, a).tracker == if op.Some? then K.Apply(s.tracker, op.value) else s.tracker
    ensures op.Some? ==>
              || (a.Deliver? && op.value == DeliveryOp(t, a.datagram, s.now))
              || (a.WorkerVerify? && op.value.VerifyOp? && op.value.block == a.packet.blockId)
              || (a.Check? && op.value == K.TickOp(s.manager.ready[0], s.now))
              || (a.RemoveDone? && op.value == K.RemoveOp(s.manager.block))
    ensures a.Deliver? || a.Check? || a.RemoveDone? ==> op.Some?
  {
    hide VerifyNext, DeliverNext, SenderNext, K.Remove, K.Tick, K.DueIn, Running, Deliverable, TotalBlocks;
    hide ReplyOf, TrackedFor, ChunkOf;
    op := None;
    match a
    case Deliver(d, payload, hash) =>
      var o := DeliverIsOp(t, s, d, payload, hash);
      op := Some(o);
    case WorkerVerify(p) => op := VerifyIsOp(t, s, p);
    case Check => op := Some(K.TickOp(s.manager.ready[0], s.now));
    case RemoveDone => op := Some(K.RemoveOp(s.manager.block));
    case ChunkArrives(c, at) => SenderTracksNothing(t, s, ChunkEvent(ChunkOf(t, c)), at);
    case AckArrives(at) => SenderTracksNothing(t, s, AckEvent(s.acks[s.consumed]), at);
    case SenderTimeout(order, at) => SenderTracksNothing(t, s, Timeout(order), at);
    case _ =>
  }

  lemma OpTraces(k: K.Tracker, op: K.Op, b: nat)
    requires b in k.blocks || b in k.completed
    ensures b in K.Apply(k, op).blocks || b in K.Apply(k, op).completed
  {
  }

  /** No thread ever forgets a block. */
  lemma TraceKept(t: Transfer, s: State, a: Action, b: nat)
    requires Enabled(t, s, a) && Traced(s, b)
    ensures Traced(Next(t, s, a), b)
  {
    hide Enabled, Next, K.Apply;
    var op := OneOpAtMost(t, s, a);
    if op.Some? {
      OpTraces(s.tracker, op.value, b);
    }
  }

  /** In no state of the run was a datagram of the block taken off the network. */
  ghost predicate NeverDelivered(t: Transfer, actions: seq<Action>, b: nat) {
    forall k :: 0 <= k < |actions| && actions[k].Deliver? && Enabled(t, EndOf(t, actions[..k]), actions[k]) ==>
      actions[k].datagram.blockId != b
  }

  lemma {:induction false} UntracedAt(t: Transfer, actions: seq<Action>, b: nat, k: nat)
    requires !Traced(EndOf(t, actions), b)
    requires k < |actions| && actions[k].Deliver? && Enabled(t, EndOf(t, actions[..k]), actions[k])
    ensures actions[k].datagram.blockId != b
  {
    hide Enabled, Next, Traced;
    var n := |actions| - 1;
    var s := EndOf(t, actions[..n]);
    if k == n {
      assert Next(t, s, actions[n]) == DeliverNext(t, s, actions[n].datagram, actions[n].payload, actions[n].hash) by {
        DeliverIs(t, s, actions[n]);
      }
      DeliveryTraces(t, s, actions[n].datagram, actions[n].payload, actions[n].hash);
    } else {
      if Enabled(t, s, actions[n]) && Traced(s, b) {
        TraceKept(t, s, actions[n], b);
      }
      assert actions[..n][..k] == actions[..k];
      UntracedAt(t, actions[..n], b, k);
    }
  }

  /** If the receiver has no trace of a block, every datagram of it was lost. */
  lemma UntracedMeansAllLost(t: Transfer, actions: seq<Action>, b: nat)
    requires !Traced(EndOf(t, actions), b)
    ensures NeverDelivered(t, actions, b)
  {
    hide Enabled, EndOf, Traced;
    forall k | 0 <= k < |actions| && actions[k].Deliver? && Enabled(t, EndOf(t, actions[..k]), actions[k])
      ensures actions[k].datagram.blockId != b
    {
      UntracedAt(t, actions, b, k);
    }
  }

  /** Nothing at the receiver stems from the block, in no thread's hands either. */
  ghost predicate Untouched(s: State, b: nat) {
    !Traced(s, b) && forall p :: p in s.packets ==> p.blockId != b
  }

  lemma OpOnOther(k: K.Tracker, op: K.Op, b: nat)
    requires b !in k.blocks && b !in k.completed && (op.block != b || op.TickOp?)
    ensures b !in K.Apply(k, op).blocks && b !in K.Apply(k, op).completed
  {
  }

  lemma RemovesTracked(t: Transfer, s: State)
    requires Inv(t, s) && s.manager.Removing?
    ensures s.manager.block in s.tracker.blocks
  {
    hide SenderSide, DataPlane, Rounds, Time, KnownOk, AcksOk, CausesOk;
    assert Busy(s.manager)[0] in Busy(s.manager);
  }

  lemma RemovingNow(t: Transfer, s: State, a: Action)
    requires a.RemoveDone? && Enabled(t, s, a)
    ensures s.manager.Removing?
  {
  }

  /** Only a datagram of the block itself can touch it. */
  lemma UntouchedKept(t: Transfer, s: State, a: Action, b: nat)
    requires Inv(t, s) && Enabled(t, s, a) && Untouched(s, b)
    requires a.Deliver? ==> a.datagram.blockId != b
    ensures Untouched(Next(t, s, a), b)
  {
    hide Inv, Enabled, Next, Traced;
    if a.RemoveDone? {
      RemovingNow(t, s, a);
      RemovesTracked(t, s);
    }
    UntouchedTracker(t, s, a, b);
    QueuedElsewhere(t, s, a, b);
  }

  lemma UntouchedTracker(t: Transfer, s: State, a: Action, b: nat)
    requires Enabled(t, s, a) && Untouched(s, b)
    requires a.Deliver? ==> a.datagram.blockId != b
    requires a.RemoveDone? ==> s.manager.Removing? && s.manager.block in s.tracker.blocks
    ensures !Traced(Next(t, s, a), b)
  {
    hide Next, K.Apply, Running, Deliverable, TotalBlocks;
    var op := OneOpAtMost(t, s, a);
    if op.Some? {
      OpOnOther(s.tracker, op.value, b);
    }
  }

  lemma QueuedElsewhere(t: Transfer, s: State, a: Action, b: nat)
    requires Enabled(t, s, a) && forall p :: p in s.packets ==> p.blockId != b
    requires a.Deliver? ==> a.datagram.blockId != b
    ensures forall p :: p in Next(t, s, a).packets ==> p.blockId != b
  {
    hide SenderNext, PacketsInBlock, K.Touch, K.EndSeen, K.Verify, K.Remove, K.Tick, K.DueIn, Running, Deliverable;
    hide ChunkIdOf, ReplyOf, TrackedFor, ChunkOf, TotalBlocks;
    match a
    case ChunkArrives(c, at) => SenderTracksNothing(t, s, ChunkEvent(ChunkOf(t, c)), at);
    case AckArrives(at) => SenderTracksNothing(t, s, AckEvent(s.acks[s.consumed]), at);
    case SenderTimeout(order, at) => SenderTracksNothing(t, s, Timeout(order), at);
    case _ =>
  }

  lemma {:induction false} StaysUntouched(t: Transfer, actions: seq<Action>, b: nat)
    requires NeverDelivered(t, actions, b)
    ensures Untouched(EndOf(t, actions), b)
  {
    hide Inv, Enabled, Next;
    if |actions| > 0 {
      var n := |actions| - 1;
      var s := EndOf(t, actions[..n]);
      forall k | 0 <= k < n ensures actions[..n][..k] == actions[..k] && actions[..n][k] == actions[k] {
      }
      hide Untouched;
      StaysUntouched(t, actions[..n], b);
      RunInv(t, actions[..n]);
      if Enabled(t, s, actions[n]) {
        UntouchedKept(t, s, actions[n], b);
      }
    }
  }

  /** The receiver has a trace of a block exactly when some datagram of it was delivered. */
  lemma TracedIffDelivered(t: Transfer, actions: seq<Action>, b: nat)
    ensures Traced(EndOf(t, actions), b) <==> !NeverDelivered(t, actions, b)
  {
    hide EndOf, Traced, NeverDelivered;
    if NeverDelivered(t, actions, b) {
      StaysUntouched(t, actions, b);
    }
    if !Traced(EndOf(t, actions), b) {
      UntracedMeansAllLost(t, actions, b);
    }
  }

  lemma DeliverIs(t: Transfer, s: State, a: Action)
    requires a.Deliver? && Enabled(t, s, a)
    ensures Next(t, s, a) == DeliverNext(t, s, a.datagram, a.payload, a.hash)
  {
  }

  // ---- a block wholly lost holds up both ends ----

  lemma UntracedUnresolved(t: Transfer, s: State, b: nat)
    requires Inv(t, s) && !Traced(s, b)
    ensures !IsResolved(s.sender.slots, b)
  {
    hide SenderSide, DataPlane, Rounds, Time, KnownOk, CausesOk;
    assert Busy(s.manager) != [] ==> Busy(s.manager)[0] in Busy(s.manager);
    assert forall k :: 0 <= k < s.consumed ==> s.acks[k] in s.acks;
  }

  lemma UntracedUncounted(t: Transfer, s: State, b: nat)
    requires Inv(t, s) && !Traced(s, b) && b < TotalBlocks(t)
    ensures s.resolved < TotalBlocks(t)
  {
    hide SenderSide, DataPlane, Rounds, Time, AcksOk, CausesOk, TotalBlocks, PacketsInBlock, K.Ok;
    Pigeonhole(s.tracker.completed, TotalBlocks(t));
  }

  /** While no datagram of some block is ever delivered, neither end finishes. */
  lemma UndeliveredBlockHoldsUpBoth(t: Transfer, actions: seq<Action>, b: nat)
    requires b < TotalBlocks(t) && NeverDelivered(t, actions, b)
    ensures Running(t, EndOf(t, actions).sender)
    ensures EndOf(t, actions).resolved < TotalBlocks(t)
  {
    hide Inv, EndOf, NeverDelivered, TotalBlocks, Running, Traced, IsResolved;
    var s := EndOf(t, actions);
    RunInv(t, actions);
    TracedIffDelivered(t, actions, b);
    UntracedUnresolved(t, s, b);
    UntracedUncounted(t, s, b);
    if !Running(t, s.sender) {
      SenderExitsResolved(t, s);
      ResolvedIdsHas(s.sender.slots, b);
    }
  }

  // ---- when both ends wait ----

  /** The sender has seen every chunk and every ack; the receiver tracks nothing: neither side
      will speak again unless the sender's fallback does. */
  ghost predicate Quiet(t: Transfer, s: State) {
    && (forall c: nat :: c < TotalChunks(t) ==> c in s.sender.arrived)
    && s.consumed == |s.acks|
    && s.manager.Polling? && s.tracker.blocks == map[]
  }

  /** And the sender is still waiting. */
  ghost predicate BothWaiting(t: Transfer, s: State) { Quiet(t, s) && Running(t, s.sender) }

  lemma SomeUnresolved(t: Transfer, s: Sender) returns (b: nat)
    requires SI.Inv(t, s) && Running(t, s)
    ensures b < TotalBlocks(t) && !IsResolved(s.slots, b)
  {
    hide SI.Inv, TotalBlocks, ResolvedIds, IsResolved;
    SR.ResolvedCounted(t, s);
    if forall x: nat :: x < TotalBlocks(t) ==> IsResolved(s.slots, x) {
      forall x | x in Below(TotalBlocks(t)) ensures x in ResolvedIds(s.slots) {
        ResolvedIdsHas(s.slots, x);
      }
      SubsetSize(Below(TotalBlocks(t)), ResolvedIds(s.slots));
      assert false;
    }
    b :| b < TotalBlocks(t) && !IsResolved(s.slots, b);
  }

  /** A running manager that has seen every chunk has an Open block. */
  lemma SomeOpen(t: Transfer, s: Sender) returns (b: nat)
    requires SI.Inv(t, s) && SR.Drained(t, s) && Running(t, s)
    requires forall c: nat :: c < TotalChunks(t) ==> c in s.arrived
    ensures IsOpen(s.slots, b)
  {
    hide SI.Core, TotalBlocks, PacketsInBlock, BlockOf, ChunkIdOf;
    b := SomeUnresolved(t, s);
    BlockBelow(t, b);
    PlaceChunkId(t, b, 0);
    assert b in s.slots;
    SI.DepthHeld(t, s);
    hide SI.Inv;
    if IsPending(s.slots, b) {
      assert b in PendingIds(s.slots);
      assert OpenIds(s.slots) != {};
      b :| b in OpenIds(s.slots);
    }
  }

  /** Every packet of it went out, and its BlockEnd too. */
  lemma OpenAllSent(t: Transfer, s: Sender, b: nat)
    requires SI.Inv(t, s) && IsOpen(s.slots, b)
    requires forall c: nat :: c < TotalChunks(t) ==> c in s.arrived
    ensures s.slots[b].block.endEmitted && BlockEnd(b, PacketsInBlock(t, b)) in s.log
    ensures forall i: nat :: i < PacketsInBlock(t, b) ==> PacketOf(t, ChunkIdOf(t, b, i)) in s.log
  {
    AllPlaced(t, s, b);
    hide ChunkIdOf, TotalBlocks, PacketsInBlock, BlockOf, IndexOf, PacketOf;
    assert SI.SlotOk(t, s, b);
    var e := s.slots[b].block;
    SI.CountSomeAll(e.packets);
    assert SI.EndsMatch(s.slots, b, multiset(s.log)[BlockEnd(b, PacketsInBlock(t, b))]);
  }

  lemma AllPlaced(t: Transfer, s: Sender, b: nat)
    requires SI.Inv(t, s) && IsOpen(s.slots, b)
    requires forall c: nat :: c < TotalChunks(t) ==> c in s.arrived
    ensures forall i: nat :: i < PacketsInBlock(t, b) ==> ChunkIdOf(t, b, i) in s.placed
  {
    hide SI.Core, ChunkIdOf, TotalBlocks, PacketsInBlock, BlockOf;
    forall i: nat | i < PacketsInBlock(t, b) ensures ChunkIdOf(t, b, i) in s.placed {
      PlaceChunkId(t, b, i);
    }
  }

  lemma UnresolvedUntraced(t: Transfer, s: State, b: nat)
    requires Inv(t, s) && Quiet(t, s) && !IsResolved(s.sender.slots, b)
    ensures !Traced(s, b)
  {
    hide SenderSide, DataPlane, Rounds, Time, KnownOk, ManagerOk, CausesOk;
    assert s.acks[..s.consumed] == s.acks;
  }

  /** Exactly when the transfer hangs: once everything has gone quiet, the sender still waits
      if and only if of some block of the file no datagram, first try or fallback, was ever
      delivered. */
  lemma HangIffTotalLoss(t: Transfer, actions: seq<Action>)
    requires Quiet(t, EndOf(t, actions))
    ensures Running(t, EndOf(t, actions).sender) <==>
            exists b: nat :: b < TotalBlocks(t) && NeverDelivered(t, actions, b)
  {
    hide Inv, SI.Inv, SR.Drained, EndOf, NeverDelivered, TotalBlocks, Running, Traced, Quiet, IsResolved;
    var s := EndOf(t, actions);
    RunInv(t, actions);
    InvParts(t, s);
    if Running(t, s.sender) {
      var b := SomeUnresolved(t, s.sender);
      UnresolvedUntraced(t, s, b);
      TracedIffDelivered(t, actions, b);
    }
    if b: nat :| b < TotalBlocks(t) && NeverDelivered(t, actions, b) {
      UndeliveredBlockHoldsUpBoth(t, actions, b);
    }
  }

  ghost predicate LostEntirely(t: Transfer, actions: seq<Action>, b: nat) {
    var s := EndOf(t, actions).sender;
    && IsOpen(s.slots, b)
    && BlockEnd(b, PacketsInBlock(t, b)) in s.log
    && (forall i: nat :: i < PacketsInBlock(t, b) ==> PacketOf(t, ChunkIdOf(t, b, i)) in s.log)
    && NeverDelivered(t, actions, b)
  }

  /** Such a hang is the network's doing: of some Open block every packet and the BlockEnd were
      sent and not one datagram of it was ever delivered. */
  lemma HangNeedsTotalLoss(t: Transfer, actions: seq<Action>)
    requires BothWaiting(t, EndOf(t, actions))
    ensures exists b :: LostEntirely(t, actions, b)
  {
    hide Inv, EndOf, SI.Inv, SR.Drained, Traced, NeverDelivered, PacketsInBlock, ChunkIdOf, PacketOf;
    var s := EndOf(t, actions);
    RunInv(t, actions);
    InvParts(t, s);
    WaitingSender(t, s);
    var b := SomeOpen(t, s.sender);
    UnresolvedUntraced(t, s, b);
    TracedIffDelivered(t, actions, b);
    OpenAllSent(t, s.sender, b);
    assert LostEntirely(t, actions, b);
  }

  lemma WaitingSender(t: Transfer, s: State)
    requires SenderSide(t, s.sender) && BothWaiting(t, s)
    ensures SI.Inv(t, s.sender) && SR.Drained(t, s.sender) && Running(t, s.sender)
    ensures forall c: nat :: c < TotalChunks(t) ==> c in s.sender.arrived
  {
  }
}
