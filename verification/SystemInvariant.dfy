/** The invariant of the composed system, kept by every action of every thread. */
module SystemInvariant {
  import opened Transfers
  import opened Sums
  import opened Protocol
  import opened Sender
  import SI = SenderInvariant
  import SR = SenderRuns
  import K = Tracker
  import W = ReorderWriter
  import opened System
  import opened SystemControl
  import opened SystemData
  import opened SystemRounds
  import opened SystemTime

  ghost predicate SenderSide(t: Transfer, s: Sender) {
    SI.Inv(t, s) && SR.Drained(t, s) && s.completed <= TotalBlocks(t)
  }

  ghost predicate Inv(t: Transfer, s: State) {
    SenderSide(t, s.sender) && Control(t, s) && DataPlane(t, s) && Rounds(t, s) && Time(t, s)
  }

  lemma InitInv(t: Transfer)
    ensures Inv(t, INIT)
  {
    hide SI.Inv, W.Ok, Backoff, MissingCount, TotalBlocks;
    SR.StartOk(t);
    W.StartOk(t.file);
    assert K.EMPTY.blocks.Keys == {};
    assert DataPlane(t, INIT);
    hide DataPlane;
    assert forall b: nat :: MissingCount([], b) == 0 by { NoAcks(); }
  }

  lemma NoAcks()
    ensures forall b: nat :: MissingCount([], b) == 0
    ensures Named([]) == 0
  {
  }

  // ---- the sender's thread ----

  /** What one turn of the sender's loop guarantees the rest of the system. */
  ghost predicate Turn(t: Transfer, s: Sender, e: Event, s': Sender) {
    && SenderSide(t, s') && SI.Grows(s, s') && SR.ResolvedBy(s, e, s')
    && s.placed <= s'.placed
    && (!(e.AckEvent? && e.ack.Complete?) ==> SI.SameResolved(s, s'))
    && s'.arrived == s.arrived + (if e.ChunkEvent? then {e.chunk.chunkId} else {})
    && s'.named == s.named + (if e.AckEvent? && e.ack.Missing? then |e.ack.missing| else 0)
  }

  lemma SenderTurn(t: Transfer, s: State, e: Event, at: nat)
    requires SenderSide(t, s.sender) && Running(t, s.sender) && SR.Acceptable(t, s.sender, e)
    ensures Turn(t, s.sender, e, SenderNext(t, s, e, at).sender)
  {
    hide Step, SI.Inv, SR.Drained, SR.Acceptable, TotalBlocks;
    SR.StepKeeps(t, s.sender, e, at);
  }

  /** A chunk or a timeout. */
  lemma QuietTurn(t: Transfer, s: State, e: Event, at: nat)
    requires Inv(t, s) && Running(t, s.sender) && !e.AckEvent? && SR.Acceptable(t, s.sender, e)
    ensures Inv(t, SenderNext(t, s, e, at))
  {
    hide Step, SI.Inv, SR.Drained, SI.Grows, SR.ResolvedBy, SI.SameResolved, TotalBlocks, Running, ChunkOf;
    hide Control, DataPlane, Rounds, Time, LossOk;
    var s' := SenderNext(t, s, e, at);
    SenderTurn(t, s, e, at);
    ConsumedWithin(t, s);
    SenderControl(t, s, s');
    LossKept(t, s, s'.sender, if e.ChunkEvent? then {e.chunk.chunkId} else {});
    SenderData(t, s, s');
    NothingNamed(t, s, s');
  }

  lemma ConsumedWithin(t: Transfer, s: State)
    requires Control(t, s)
    ensures s.consumed <= |s.acks|
  {
  }

  lemma NothingNamed(t: Transfer, s: State, s': State)
    requires Rounds(t, s) && Time(t, s)
    requires s' == s.(sender := s'.sender) && s'.sender.named == s.sender.named
    ensures Rounds(t, s') && Time(t, s')
  {
    hide ShapesOk, RoundsOk, TimeOk, GaveUpOk;
  }

  /** What a turn that handled an ack still has to show about the rest of the system. */
  lemma AckRest(t: Transfer, s: State, s': State, a: BlockAck)
    requires Inv(t, s) && SenderSide(t, s'.sender) && Control(t, s')
    requires s.consumed < |s.acks| && s.acks[s.consumed] == a
    requires s' == s.(sender := s'.sender, consumed := s.consumed + 1)
    requires s.sender.placed <= s'.sender.placed && LossOk(t, s'.sender, s.gaveUp)
    requires s'.sender.named == s.sender.named + if a.Missing? then |a.missing| else 0
    ensures Inv(t, s')
  {
    hide Control, LossOk, SenderSide;
    SenderData(t, s, s');
    hide DataPlane, TimeOk, GaveUpOk;
    AckHandledRounds(t, s, s');
  }

  lemma MissingTurn(t: Transfer, s: State, at: nat)
    requires Inv(t, s) && Running(t, s.sender) && s.consumed < |s.acks| && s.acks[s.consumed].Missing?
    ensures Inv(t, SenderNext(t, s, AckEvent(s.acks[s.consumed]), at))
  {
    hide Step, SI.Inv, SR.Drained, SI.Grows, SI.SameResolved, SR.ResolvedBy, TotalBlocks, Running;
    hide Control, DataPlane, Rounds, Time, LossOk;
    var a := s.acks[s.consumed];
    var s' := SenderNext(t, s, AckEvent(a), at);
    SenderTurn(t, s, AckEvent(a), at);
    SenderControl(t, s, s');
    LossKept(t, s, s'.sender, {});
    AckRest(t, s, s', a);
  }

  lemma CompleteTurn(t: Transfer, s: State, at: nat)
    requires Inv(t, s) && Running(t, s.sender) && s.consumed < |s.acks| && s.acks[s.consumed].Complete?
    ensures Inv(t, SenderNext(t, s, AckEvent(s.acks[s.consumed]), at))
  {
    hide Step, SI.Inv, SR.Drained, SI.Grows, SI.SameResolved, SR.ResolvedBy, TotalBlocks, Running;
    hide Control, DataPlane, Rounds, Time, LossOk, IsOpen;
    var a := s.acks[s.consumed];
    var s' := SenderNext(t, s, AckEvent(a), at);
    SenderTurn(t, s, AckEvent(a), at);
    CompleteControl(t, s, s', a.blockId);
    CompleteFindsOpen(t, s, a.blockId);
    LossKeptByComplete(t, s, s'.sender, a.blockId);
    AckRest(t, s, s', a);
  }

  // ---- the receiver's threads ----

  lemma TrackedBusy(t: Transfer, s: State)
    requires Control(t, s)
    ensures forall b :: b in Busy(s.manager) ==> b in s.tracker.blocks
    ensures K.Ok(s.tracker)
  {
  }

  lemma PlacedBelow(t: Transfer, s: Sender)
    requires SI.Inv(t, s)
    ensures SI.LogOk(t, s) && forall c :: c in s.placed ==> c < TotalChunks(t)
  {
  }

  /** The tracker took in something about block `b`; data-plane facts are dealt with apart. */
  lemma AbsorbKeeps(t: Transfer, s: State, s': State, b: nat, bits: set<nat>)
    requires Inv(t, s) && DataPlane(t, s')
    requires b < TotalBlocks(t) && WasOpened(s.sender.slots, b)
    requires Absorbs(s.tracker, s'.tracker, b, PacketsInBlock(t, b), s.now, bits)
    requires s' == s.(tracker := s'.tracker, packets := s'.packets, verified := s'.verified,
        verifiedIds := s'.verifiedIds)
    ensures Inv(t, s')
  {
    hide DataPlane, SenderSide, TotalBlocks, Absorbs, WasOpened;
    TrackedBusy(t, s);
    AbsorbControl(t, s.sender.slots, s.tracker, s'.tracker, s.manager, s.resolved, b, s.now, bits);
    AbsorbRounds(t, s.acks, s.tracker, s'.tracker, s.manager, b, PacketsInBlock(t, b), s.now, bits);
    AbsorbTime(t, s.tracker, s'.tracker, s.manager, b, PacketsInBlock(t, b), s.now, bits);
    hide KnownOk, ManagerOk, RoundsOk, TimeOk, ShapesOk, GaveUpOk, AcksOk, CausesOk, PacketsInBlock;
  }

  lemma LoggedBlock(t: Transfer, s: Sender, d: Datagram)
    requires SI.Inv(t, s) && d in s.log
    ensures d.blockId < TotalBlocks(t) && WasOpened(s.slots, d.blockId)
    ensures d.BlockEnd? ==> d.total == PacketsInBlock(t, d.blockId)
  {
    hide ChunkIdOf, IndexOf, PacketsInBlock, TotalBlocks, BlockOf, PacketOf;
    assert SI.LoggedOk(t, s, d);
    if d.Data? {
      PlaceChunkId(t, d.blockId, d.index);
    }
  }

  lemma DeliverKeeps(t: Transfer, s: State, d: Datagram, payload: Bytes, hash: nat)
    requires Inv(t, s) && Deliverable(t, s, d, payload, hash)
    ensures Inv(t, DeliverNext(t, s, d, payload, hash))
  {
    var s' := DeliverNext(t, s, d, payload, hash);
    hide SI.Inv, SR.Drained, TotalBlocks, DataPlane, Rounds, Time, K.Touch, K.EndSeen, PacketsInBlock, ChunkIdOf,
        Absorbs, IdealCheck;
    LoggedBlock(t, s.sender, d);
    PlacedBelow(t, s.sender);
    TrackedBusy(t, s);
    hide Control;
    DeliverData(t, s, d, payload, hash);
    if d.Data? {
      TouchAbsorbs(s.tracker, d.blockId, PacketsInBlock(t, d.blockId), s.now);
    } else {
      EndSeenAbsorbs(s.tracker, d.blockId, PacketsInBlock(t, d.blockId), s.now);
    }
    AbsorbKeeps(t, s, s', d.blockId, {});
  }

  lemma PacketBlock(t: Transfer, s: State, p: Received)
    requires SI.Inv(t, s.sender) && PacketsOk(t, s.sender.placed, s.packets) && p in s.packets
    ensures p.blockId < TotalBlocks(t) && WasOpened(s.sender.slots, p.blockId)
  {
    hide ChunkIdOf, IndexOf, PacketsInBlock, TotalBlocks, BlockOf, PacketOf, IdealCheck;
    assert PacketOk(t, s.sender.placed, p);
    PlaceChunkId(t, p.blockId, p.index);
  }

  lemma VerifyKeeps(t: Transfer, s: State, p: Received)
    requires Inv(t, s) && p in s.packets
    ensures Inv(t, VerifyNext(t, s, p))
  {
    var s' := VerifyNext(t, s, p);
    PacketBlock(t, s, p);
    hide SI.Inv, SR.Drained, TotalBlocks, DataPlane, Rounds, Time, K.Verify, PacketsInBlock, Absorbs;
    PlacedBelow(t, s.sender);
    TrackedBusy(t, s);
    VerifyData(t, s, p);
    if t.hash(t.crypt(p.chunkId, p.encrypted)) == p.hash {
      hide Control;
      VerifyAbsorbs(s.tracker, p.blockId, p.index, PacketsInBlock(t, p.blockId), s.now);
      AbsorbKeeps(t, s, s', p.blockId, {p.index});
    } else {
      hide KnownOk, AcksOk, ManagerOk, CausesOk;
      assert Rounds(t, s') && Time(t, s') by { SameRounds(t, s, s'); }
    }
  }

  lemma SameRounds(t: Transfer, s: State, s': State)
    requires Rounds(t, s) && Time(t, s)
    requires s'.sender == s.sender && s'.acks == s.acks && s'.consumed == s.consumed && s'.tracker == s.tracker
    requires s'.manager == s.manager && s'.now == s.now && s'.gaveUp == s.gaveUp
    ensures Rounds(t, s') && Time(t, s')
  {
    hide ShapesOk, RoundsOk, TimeOk, GaveUpOk;
  }

  /** Steps of the workers and the writer that leave the tracker alone. */
  lemma PassOnKeeps(t: Transfer, s: State, s': State)
    requires Inv(t, s) && DataPlane(t, s')
    requires s' == s.(verified := s'.verified, toWriter := s'.toWriter, writer := s'.writer)
    ensures Inv(t, s')
  {
    hide SenderSide, DataPlane, Rounds, Time, KnownOk, AcksOk, ManagerOk, CausesOk;
    SameRounds(t, s, s');
  }

  lemma ManagerKeeps(t: Transfer, s: State, a: Action)
    requires Inv(t, s) && Enabled(t, s, a) && (a.Poll? || a.Check? || a.Reply? || a.RemoveDone?)
    ensures Inv(t, Next(t, s, a))
  {
    hide SenderSide, DataPlane, Rounds, Time, Control, Running, TotalBlocks, Deliverable;
    match a
    case Poll(order) =>
      PollControl(t, s, order);
      PollTime(t, s, order);
      PollRest(t, s, order);
    case Check =>
      CheckControl(t, s);
      CheckData(t, s);
      CheckRounds(t, s);
      CheckTime(t, s);
    case Reply =>
      ReplyControl(t, s);
      ReplyData(t, s);
      ReplyRounds(t, s);
      ReplyTime(t, s);
    case RemoveDone =>
      RemoveControl(t, s);
      RemoveData(t, s);
      RemoveRounds(t, s);
      RemoveTime(t, s);
  }

  lemma PollRest(t: Transfer, s: State, order: seq<nat>)
    requires DataPlane(t, s) && Rounds(t, s) && s.manager.Polling?
    ensures DataPlane(t, PollNext(t, s, order)) && Rounds(t, PollNext(t, s, order))
  {
    hide PacketsOk, ChunksOk, WriterOk, HeldOk, VerifiedOk, BitsOk, GenuineOk, LossOk, ShapesOk, MissingCount, K.DueIn;
  }

  // ---- any thread ----

  /** Every action of every thread keeps the invariant. */
  lemma ActionKeeps(t: Transfer, s: State, a: Action)
    requires Inv(t, s) && Enabled(t, s, a)
    ensures Inv(t, Next(t, s, a))
  {
    hide Inv, SenderSide, DataPlane, Rounds, Time, Control, Running, TotalBlocks, Deliverable, ChunkOf, VerifyNext,
        DeliverNext, SenderNext;
    match a
    case ChunkArrives(c, at) =>
      ChunkAcceptable(t, s.sender, c);
      QuietTurn(t, s, ChunkEvent(ChunkOf(t, c)), at);
    case SenderTimeout(order, at) => QuietTurn(t, s, Timeout(order), at);
    case AckArrives(at) =>
      if s.acks[s.consumed].Missing? {
        MissingTurn(t, s, at);
      } else {
        CompleteTurn(t, s, at);
      }
    case Deliver(d, payload, hash) => DeliverKeeps(t, s, d, payload, hash);
    case WorkerVerify(p) => VerifyKeeps(t, s, p);
    case WorkerSend(chunk) =>
      InvParts(t, s);
      WorkerSendData(t, s, chunk);
      PassOnKeeps(t, s, WorkerSendNext(s, chunk));
    case WriterReceive =>
      InvParts(t, s);
      WriterData(t, s);
      PassOnKeeps(t, s, WriterNext(t, s));
    case ClockAdvances(ms) => ClockKeeps(t, s, ms);
    case _ => ManagerKeeps(t, s, a);
  }

  lemma ChunkAcceptable(t: Transfer, s: Sender, c: nat)
    requires c < TotalChunks(t) && c !in s.arrived
    ensures SR.Acceptable(t, s, ChunkEvent(ChunkOf(t, c)))
  {
  }

  lemma InvParts(t: Transfer, s: State)
    requires Inv(t, s)
    ensures SenderSide(t, s.sender) && Control(t, s) && DataPlane(t, s) && Rounds(t, s) && Time(t, s)
  {
  }

  lemma ClockKeeps(t: Transfer, s: State, ms: nat)
    requires Inv(t, s)
    ensures Inv(t, s.(now := s.now + ms))
  {
    hide SenderSide, PacketsOk, ChunksOk, WriterOk, HeldOk, VerifiedOk, BitsOk, GenuineOk, LossOk, ShapesOk, RoundsOk,
        GaveUpOk;
    hide KnownOk, AcksOk, ManagerOk, CausesOk;
    ClockTime(t, s.tracker, s.manager, s.now, s.now + ms);
    hide TimeOk;
  }

  /** Every reachable state of the system satisfies the invariant. */
  lemma {:induction false} RunInv(t: Transfer, actions: seq<Action>)
    ensures Inv(t, EndOf(t, actions))
  {
    hide Inv, Enabled, Next;
    if |actions| == 0 {
      InitInv(t);
    } else {
      var n := |actions| - 1;
      RunInv(t, actions[..n]);
      var s := EndOf(t, actions[..n]);
      if Enabled(t, s, actions[n]) {
        ActionKeeps(t, s, actions[n]);
      }
    }
  }
}
