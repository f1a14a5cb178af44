/** Concrete runs: one that shows where the tracking bound fails by one, and its continuation
    to a complete, force-free delivery. */
module Witnesses {
  import opened Transfers
  import opened Protocol
  import opened Sender
  import K = Tracker
  import W = ReorderWriter
  import opened System
  import opened SystemControl
  import opened Theorems
  import opened Progress

  ghost predicate Reachable(t: Transfer, s: State) { exists actions :: EndOf(t, actions) == s }

  lemma ReachStep(t: Transfer, s: State, a: Action)
    requires Reachable(t, s) && Enabled(t, s, a)
    ensures Reachable(t, Next(t, s, a))
  {
    hide Enabled, Next;
    var actions :| EndOf(t, actions) == s;
    var more := actions + [a];
    assert more[..|actions|] == actions;
    assert EndOf(t, more) == Next(t, s, a);
  }

  /** Two one-packet blocks, a pipeline of one. */
  function Tiny(): Transfer {
    Transfer([0, 0], 1, [[0], [0]], 1, 1, 1, 1, 1, 1, (c, d) => d, d => 0)
  }

  lemma TinyShape()
    ensures Valid(Tiny())
    ensures TotalChunks(Tiny()) == 2 && TotalBlocks(Tiny()) == 2
    ensures forall b: nat :: PacketsInBlock(Tiny(), b) == if b < 2 then 1 else 0
    ensures forall c: nat :: BlockOf(Tiny(), c) == c && IndexOf(Tiny(), c) == 0 && ChunkIdOf(Tiny(), c, 0) == c
  {
    var t := Tiny();
    var two: Bytes := [0, 0];
    assert two[..1] == [0] && two[1..] == [0];
    assert Split([0], 1) == [[0]];
    assert Split([0, 0], 1) == [[0]] + [[0]];
  }

  /** With one-packet blocks a chunk of a new block opens it and completes its transmission. */
  lemma FirstChunk(s: Sender, c: nat, at: nat)
    requires c < 2 && c !in s.slots && PendingIds(s.slots) == {} && s.openSlots == 0
    ensures var s' := Step(Tiny(), s, ChunkEvent(ChunkOf(Tiny(), c)), at);
            && c in s'.slots && s'.slots[c].Open? && s'.slots == s.slots[c := s'.slots[c]]
            && PendingIds(s'.slots) == {} && s'.openSlots == 1
            && PacketOf(Tiny(), c) in s'.log && s'.completed == s.completed
            && s'.arrived == s.arrived + {c}
            && s'.slots[c].block.endEmitted && !s'.slots[c].block.fallbackSent
            && s'.slots[c].block.lastAckActivity == at
  {
    TinyShape();
    var t := Tiny();
    hide BlockOf, IndexOf, PacketsInBlock, TotalBlocks, ChunkIdOf;
    var s1 := OpenBlock(t, s.(arrived := s.arrived + {c}), c, at);
    var s2 := CacheAndSend(s1, c, 0, ChunkOf(t, c));
    assert AllCached(s2.slots[c].block);
    var s3 := EmitBlockEnd(s2, c, at);
    assert Handle(t, s, ChunkEvent(ChunkOf(t, c)), at) == s3;
    assert PendingIds(s3.slots) == {};
    assert PacketOf(t, c) in s2.log;
  }

  /** Its Complete resolves it. */
  lemma CompleteIt(s: Sender, b: nat, at: nat)
    requires b in s.slots && s.slots[b].Open? && PendingIds(s.slots) == {} && s.openSlots == 1
    ensures var s' := Step(Tiny(), s, AckEvent(Complete(b)), at);
            && s'.slots == s.slots[b := Resolved] && s'.openSlots == 0 && PendingIds(s'.slots) == {}
            && s'.completed == s.completed + 1 && s'.arrived == s.arrived && s'.log == s.log
  {
    assert PendingIds(OnComplete(s, b).slots) == {};
  }

  /** Chunk 0 arrives and its datagram is delivered. */
  lemma ToDelivered() returns (s: State)
    ensures Reachable(Tiny(), s)
    ensures s.sender.slots.Keys == {0} && IsOpen(s.sender.slots, 0) && PendingIds(s.sender.slots) == {}
    ensures s.sender.openSlots == 1 && s.sender.completed == 0 && s.sender.arrived == {0}
    ensures s.tracker == K.Tracker(map[0 := K.RxEntry(1, [false], 0, 0, false, 0, 0)], {})
    ensures s == INIT.(sender := s.sender, tracker := s.tracker, packets := multiset{Received(0, 0, 0, [0], 0)})
  {
    var t := Tiny();
    TinyShape();
    hide BlockOf, IndexOf, PacketsInBlock, TotalBlocks, ChunkIdOf, Step, Reachable;
    StartReachable(t);
    FirstChunk(INIT.sender, 0, 0);
    ReachStep(t, INIT, ChunkArrives(0, 0));
    var s1 := Next(t, INIT, ChunkArrives(0, 0));
    var d := PacketOf(t, 0);
    assert d == Data(0, 0, 0, [0]);
    ReachStep(t, s1, Deliver(d, [0], 0));
    s := Next(t, s1, Deliver(d, [0], 0));
    assert seq(1, _ => false) == [false];
  }

  /** A worker verifies it, and time passes. */
  lemma ToVerified() returns (s: State)
    ensures Reachable(Tiny(), s)
    ensures s.sender.slots.Keys == {0} && IsOpen(s.sender.slots, 0) && PendingIds(s.sender.slots) == {}
    ensures s.sender.openSlots == 1 && s.sender.completed == 0 && s.sender.arrived == {0}
    ensures s.tracker == K.Tracker(map[0 := K.RxEntry(1, [true], 1, 0, false, 0, 0)], {})
    ensures s == INIT.(sender := s.sender, tracker := s.tracker, now := 1,
                       verified := multiset{W.DecryptedChunk(0, [0])}, verifiedIds := {0})
  {
    var t := Tiny();
    TinyShape();
    hide BlockOf, IndexOf, PacketsInBlock, TotalBlocks, ChunkIdOf, Step, Reachable, IsOpen, PendingIds;
    var s0 := ToDelivered();
    var p := Received(0, 0, 0, [0], 0);
    ReachStep(t, s0, WorkerVerify(p));
    var s1 := Next(t, s0, WorkerVerify(p));
    assert [false][0 := true] == [true];
    ReachStep(t, s1, ClockAdvances(1));
    s := Next(t, s1, ClockAdvances(1));
  }

  lemma StartReachable(t: Transfer)
    ensures Reachable(t, INIT)
  {
    assert EndOf(t, []) == INIT;
  }

  /** The ack manager's next poll finds block 0 due. */
  lemma ToDue() returns (s: State)
    ensures Reachable(Tiny(), s)
    ensures s.sender.slots.Keys == {0} && IsOpen(s.sender.slots, 0) && PendingIds(s.sender.slots) == {}
    ensures s.sender.openSlots == 1 && s.sender.completed == 0 && s.sender.arrived == {0}
    ensures s.tracker == K.Tracker(map[0 := K.RxEntry(1, [true], 1, 0, false, 0, 0)], {})
    ensures s == INIT.(sender := s.sender, tracker := s.tracker, now := 1, manager := Scanning([0]),
                       verified := multiset{W.DecryptedChunk(0, [0])}, verifiedIds := {0})
  {
    TinyShape();
    hide BlockOf, IndexOf, PacketsInBlock, TotalBlocks, ChunkIdOf, Step, Reachable;
    s := ToVerified();
    s := PollOne(Tiny(), s, 0);
  }

  /** A poll when exactly one block is tracked, and due. */
  lemma PollOne(t: Transfer, s: State, b: nat) returns (s': State)
    requires Reachable(t, s) && s.manager.Polling? && s.resolved < TotalBlocks(t)
    requires s.tracker.blocks.Keys == {b} && K.Due(t, s.tracker.blocks[b], s.now)
    ensures Reachable(t, s') && s' == s.(manager := Scanning([b]))
  {
    hide TotalBlocks, Reachable, K.Due, K.DueIn;
    OneDue(t, s.tracker, b, s.now);
    assert b in [b];
    ReachStep(t, s, Poll([b]));
    s' := Next(t, s, Poll([b]));
  }

  /** It is complete. */
  lemma ToChecked() returns (s: State)
    ensures Reachable(Tiny(), s)
    ensures s.sender.slots.Keys == {0} && IsOpen(s.sender.slots, 0) && PendingIds(s.sender.slots) == {}
    ensures s.sender.openSlots == 1 && s.sender.completed == 0 && s.sender.arrived == {0}
    ensures s.tracker == K.Tracker(map[0 := K.RxEntry(1, [true], 1, 1, false, 1, 0)], {})
    ensures s == INIT.(sender := s.sender, tracker := s.tracker, now := 1,
        manager := Replying(0, K.Snapshot(true, [], 1), []),
                       verified := multiset{W.DecryptedChunk(0, [0])}, verifiedIds := {0})
  {
    hide Step, Reachable, Tiny, IsOpen;
    var s0 := ToDue();
    NoneMissing();
    assert s0.manager.ready[1..] == [];
    ReachStep(Tiny(), s0, Check);
    s := Next(Tiny(), s0, Check);
  }

  lemma NoneMissing()
    ensures K.MissingIds([true]) == []
  {
    assert K.MissingIds([]) == [];
    assert [true][..0] == [];
  }

  /** It says so, and has not removed the block's entry yet. */
  lemma ToReplied() returns (s: State)
    ensures Reachable(Tiny(), s)
    ensures s.sender.slots.Keys == {0} && IsOpen(s.sender.slots, 0) && PendingIds(s.sender.slots) == {}
    ensures s.sender.openSlots == 1 && s.sender.completed == 0 && s.sender.arrived == {0}
    ensures s.tracker == K.Tracker(map[0 := K.RxEntry(1, [true], 1, 1, false, 1, 0)], {})
    ensures s == INIT.(sender := s.sender, tracker := s.tracker, now := 1, acks := [Complete(0)],
        manager := Removing(0, []),
                       verified := multiset{W.DecryptedChunk(0, [0])}, verifiedIds := {0}, genuine := {0})
  {
    hide Step, Reachable, TrackedFor, Tiny;
    var s0 := ToChecked();
    ReachStep(Tiny(), s0, Reply);
    s := Next(Tiny(), s0, Reply);
  }

  lemma OneDue(t: Transfer, k: K.Tracker, b: nat, now: nat)
    requires b in k.blocks && K.Due(t, k.blocks[b], now)
    ensures K.DueIn(t, k, [b], now) == [b]
  {
    assert K.DueIn(t, k, [], now) == [];
    assert [b][..0] == [];
  }

  /** The sender acts on the Complete, opens block 1, and its datagram overtakes the removal. */
  lemma ToOverflow() returns (s: State)
    ensures Reachable(Tiny(), s)
    ensures s.sender.slots.Keys == {0, 1} && IsOpen(s.sender.slots, 1) && PendingIds(s.sender.slots) == {}
    ensures s.sender.openSlots == 1 && s.sender.completed == 1
    ensures s.tracker == K.Tracker(map[0 := K.RxEntry(1, [true], 1, 1, false, 1, 0),
        1 := K.RxEntry(1, [false], 0, 1, false, 0, 1)], {})
    ensures s == INIT.(sender := s.sender, tracker := s.tracker, now := 1, acks := [Complete(0)], consumed := 1,
                       manager := Removing(0, []), packets := multiset{Received(1, 1, 0, [0], 0)},
                       verified := multiset{W.DecryptedChunk(0, [0])}, verifiedIds := {0}, genuine := {0})
    ensures InRemovalWindow(s)
  {
    var t := Tiny();
    TinyShape();
    hide BlockOf, IndexOf, PacketsInBlock, TotalBlocks, ChunkIdOf, Step, Reachable;
    var s0 := ToReplied();
    CompleteIt(s0.sender, 0, 0);
    ReachStep(t, s0, AckArrives(0));
    var s1 := Next(t, s0, AckArrives(0));
    FirstChunk(s1.sender, 1, 0);
    ReachStep(t, s1, ChunkArrives(1, 0));
    var s2 := Next(t, s1, ChunkArrives(1, 0));
    var d := PacketOf(t, 1);
    assert d == Data(1, 0, 0, [0]);
    ReachStep(t, s2, Deliver(d, [0], 0));
    s := Next(t, s2, Deliver(d, [0], 0));
    assert seq(1, _ => false) == [false];
  }

  /** The claim that the receiver never tracks more than `pipelineDepth` blocks is false: the
      Complete is written before the entry is removed, and the sender can be faster. */
  lemma TrackerCanExceedPipelineDepth()
    ensures exists t, actions :: Valid(t) && |EndOf(t, actions).tracker.blocks| == t.pipelineDepth + 1
  {
    var s := ToOverflow();
    TinyShape();
    var actions :| EndOf(Tiny(), actions) == s;
    assert s.tracker.blocks.Keys == {0, 1};
    assert Valid(Tiny()) && |EndOf(Tiny(), actions).tracker.blocks| == Tiny().pipelineDepth + 1;
  }

  // ---- on to the end ----

  /** Block 0's entry goes, block 1's packet is verified, and time passes. */
  lemma ToSecondVerified() returns (s: State)
    ensures Reachable(Tiny(), s)
    ensures IsOpen(s.sender.slots, 1) && PendingIds(s.sender.slots) == {} && s.sender.openSlots == 1
        && s.sender.completed == 1
    ensures s.tracker == K.Tracker(map[1 := K.RxEntry(1, [true], 1, 1, false, 0, 1)], {0})
    ensures s == INIT.(sender := s.sender, tracker := s.tracker, now := 2, acks := [Complete(0)], consumed := 1,
        resolved := 1,
                       verified := multiset{W.DecryptedChunk(0, [0]), W.DecryptedChunk(1, [0])},
                       verifiedIds := {0, 1}, genuine := {0})
  {
    var t := Tiny();
    TinyShape();
    hide BlockOf, IndexOf, PacketsInBlock, TotalBlocks, ChunkIdOf, Step, Reachable, IsOpen, PendingIds;
    var s0 := ToOverflow();
    ReachStep(t, s0, RemoveDone);
    var s1 := Next(t, s0, RemoveDone);
    assert s1.tracker.blocks == map[1 := K.RxEntry(1, [false], 0, 1, false, 0, 1)];
    var p := Received(1, 1, 0, [0], 0);
    ReachStep(t, s1, WorkerVerify(p));
    var s2 := Next(t, s1, WorkerVerify(p));
    assert [false][0 := true] == [true];
    ReachStep(t, s2, ClockAdvances(1));
    s := Next(t, s2, ClockAdvances(1));
  }

  /** Block 1 is checked and complete. */
  lemma ToSecondChecked() returns (s: State)
    ensures Reachable(Tiny(), s)
    ensures IsOpen(s.sender.slots, 1) && PendingIds(s.sender.slots) == {} && s.sender.openSlots == 1
        && s.sender.completed == 1
    ensures s.tracker == K.Tracker(map[1 := K.RxEntry(1, [true], 1, 2, false, 1, 1)], {0})
    ensures s == INIT.(sender := s.sender, tracker := s.tracker, now := 2, acks := [Complete(0)], consumed := 1,
        resolved := 1,
                       manager := Replying(1, K.Snapshot(true, [], 1), []),
                       verified := multiset{W.DecryptedChunk(0, [0]), W.DecryptedChunk(1, [0])},
                       verifiedIds := {0, 1}, genuine := {0})
  {
    TinyShape();
    hide TotalBlocks, Step, Reachable, IsOpen, PendingIds;
    var s0 := ToSecondVerified();
    var s1 := PollOne(Tiny(), s0, 1);
    NoneMissing();
    assert s1.manager.ready[1..] == [];
    ReachStep(Tiny(), s1, Check);
    s := Next(Tiny(), s1, Check);
  }

  /** It is confirmed and its entry removed: the ack manager leaves its loop. */
  lemma ToAckManagerDone() returns (s: State)
    ensures Reachable(Tiny(), s)
    ensures IsOpen(s.sender.slots, 1) && PendingIds(s.sender.slots) == {} && s.sender.openSlots == 1
        && s.sender.completed == 1
    ensures s == INIT.(sender := s.sender, tracker := K.Tracker(map[], {0, 1}), now := 2,
                       acks := [Complete(0), Complete(1)], consumed := 1, resolved := 2,
                       verified := multiset{W.DecryptedChunk(0, [0]), W.DecryptedChunk(1, [0])},
                       verifiedIds := {0, 1}, genuine := {0, 1})
  {
    hide Tiny, Step, Reachable, IsOpen, TrackedFor, PendingIds;
    s := ToSecondChecked();
    ReachStep(Tiny(), s, Reply);
    s := Next(Tiny(), s, Reply);
    assert s.tracker.blocks - {1} == map[];
    ReachStep(Tiny(), s, RemoveDone);
    s := Next(Tiny(), s, RemoveDone);
  }

  /** The sender reads the last Complete and leaves its loop. */
  lemma ToSenderDone() returns (s: State)
    ensures Reachable(Tiny(), s)
    ensures s.sender.completed == 2
    ensures s.manager == Polling && s.resolved == 2 && s.gaveUp == map[] && s.writer == W.START && s.toWriter == []
    ensures s.verified == multiset{W.DecryptedChunk(0, [0]), W.DecryptedChunk(1, [0])}
  {
    hide Step, Reachable, IsOpen, TotalBlocks;
    TinyShape();
    var s0 := ToAckManagerDone();
    OpenSlotOf(s0.sender.slots, 1);
    CompleteIt(s0.sender, 1, 0);
    ReachStep(Tiny(), s0, AckArrives(0));
    s := Next(Tiny(), s0, AckArrives(0));
  }

  /** The workers pass on what they hold. */
  lemma ToPassedOn() returns (s: State)
    ensures Reachable(Tiny(), s)
    ensures s.sender.completed == 2
    ensures s.manager == Polling && s.resolved == 2 && s.gaveUp == map[] && s.writer == W.START
    ensures s.verified == multiset{} && s.toWriter == [W.DecryptedChunk(0, [0]), W.DecryptedChunk(1, [0])]
  {
    hide Reachable, Tiny;
    var first, second := W.DecryptedChunk(0, [0]), W.DecryptedChunk(1, [0]);
    s := ToSenderDone();
    ReachStep(Tiny(), s, WorkerSend(first));
    s := Next(Tiny(), s, WorkerSend(first));
    assert s.verified == multiset{second};
    ReachStep(Tiny(), s, WorkerSend(second));
    s := Next(Tiny(), s, WorkerSend(second));
  }

  lemma OpenSlotOf(slots: map<nat, Slot>, b: nat)
    requires IsOpen(slots, b)
    ensures b in slots && slots[b].Open?
  {
  }

  /** The premises of the delivery theorems can all be met at once: a run with the removal
      window in it ends with both ends done, nothing given up and every queue drained. */
  lemma DeliveryHappens()
    ensures exists t, actions :: Valid(t) && 0 < |t.original| && AckManagerDone(t, EndOf(t, actions))
              && QueuesDrained(EndOf(t, actions)) && EndOf(t, actions).gaveUp == map[]
              && !Running(t, EndOf(t, actions).sender)
  {
    hide Reachable, TotalBlocks, W.Accept;
    TinyShape();
    var t := Tiny();
    var s := ToPassedOn();
    ReachStep(t, s, WriterReceive);
    s := Next(t, s, WriterReceive);
    if !s.writer.done {
      ReachStep(t, s, WriterReceive);
      s := Next(t, s, WriterReceive);
    }
    var actions := RunTo(t, s);
    hide EndOf, Tiny;
    assert Valid(Tiny()) && QueuesDrained(EndOf(Tiny(), actions));
  }

  lemma RunTo(t: Transfer, s: State) returns (actions: seq<Action>)
    requires Reachable(t, s)
    ensures EndOf(t, actions) == s
  {
    actions :| EndOf(t, actions) == s;
  }

  // ---- nothing delivered ----

  /** A chunk of a second block waits for the one pipeline slot. */
  lemma SecondChunkWaits(s: Sender, at: nat)
    requires s.slots.Keys == {0} && s.openSlots == 1
    ensures var s' := Step(Tiny(), s, ChunkEvent(ChunkOf(Tiny(), 1)), at);
            s' == s.(arrived := s.arrived + {1}, slots := s.slots[1 := Pending([ChunkOf(Tiny(), 1)])])
  {
    TinyShape();
    hide BlockOf, IndexOf, PacketsInBlock, TotalBlocks, ChunkIdOf;
  }

  /** The fallback fires for block 0. */
  lemma FallbackFires(s: Sender, at: nat)
    requires 0 in s.slots && IsStale(Tiny(), s.slots, 0, at) && s.openSlots == 1
    ensures var s' := Step(Tiny(), s, Timeout([0]), at);
            && IsOpen(s'.slots, 0) && s'.slots[0].block.fallbackSent
            && s'.arrived == s.arrived && s'.completed == s.completed
  {
    assert [0][..0] == [];
    assert ResendStale(Tiny(), s, [], at) == s;
    assert ResendStale(Tiny(), s, [0], at) == ResendBlock(Tiny(), s, 0, at);
  }

  /** Both chunks arrive, and no datagram does. */
  lemma ToAllLost() returns (s: State)
    ensures Reachable(Tiny(), s)
    ensures s == INIT.(sender := s.sender)
    ensures s.sender.slots.Keys == {0, 1} && IsStale(Tiny(), s.sender.slots, 0, 5) && s.sender.openSlots == 1
    ensures s.sender.arrived == {0, 1} && s.sender.completed == 0
  {
    TinyShape();
    hide BlockOf, IndexOf, PacketsInBlock, TotalBlocks, ChunkIdOf, Step, Reachable, ChunkOf;
    StartReachable(Tiny());
    FirstChunk(INIT.sender, 0, 0);
    ReachStep(Tiny(), INIT, ChunkArrives(0, 0));
    var s1 := Next(Tiny(), INIT, ChunkArrives(0, 0));
    SecondChunkWaits(s1.sender, 0);
    ReachStep(Tiny(), s1, ChunkArrives(1, 0));
    s := Next(Tiny(), s1, ChunkArrives(1, 0));
  }

  lemma ToFallenBack() returns (s: State)
    ensures Reachable(Tiny(), s) && BothWaiting(Tiny(), s)
    ensures IsOpen(s.sender.slots, 0) && s.sender.slots[0].block.fallbackSent
  {
    TinyShape();
    hide TotalBlocks, Step, Reachable, IsStale, IsOpen;
    var s0 := ToAllLost();
    FallbackFires(s0.sender, 5) by { StaleIn(s0.sender.slots, 0, 5); }
    ReachStep(Tiny(), s0, SenderTimeout([0], 5));
    s := Next(Tiny(), s0, SenderTimeout([0], 5));
  }

  lemma StaleIn(slots: map<nat, Slot>, b: nat, at: nat)
    requires IsStale(Tiny(), slots, b, at)
    ensures b in slots
  {
  }

  /** Delivery cannot be promised unconditionally: with every datagram lost, the fallback's
      too, both ends wait and the sender has nothing left to try. */
  lemma HangHappens()
    ensures exists t, actions :: Valid(t) && BothWaiting(t, EndOf(t, actions))
              && IsOpen(EndOf(t, actions).sender.slots, 0) && EndOf(t, actions).sender.slots[0].block.fallbackSent
  {
    TinyShape();
    hide BothWaiting, Valid;
    var s := ToFallenBack();
    var actions := RunTo(Tiny(), s);
    hide EndOf, Tiny;
    assert Valid(Tiny()) && BothWaiting(Tiny(), EndOf(Tiny(), actions));
  }
}
