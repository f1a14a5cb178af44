/** For every file and every choice of constants the give-up bound is attained: a run that
    delivers a BlockEnd and nothing else gives its block up after exactly the backoffs. */
module GiveUpEarliest {
  import opened Transfers
  import opened Sums
  import opened Protocol
  import opened Sender
  import SI = SenderInvariant
  import SR = SenderRuns
  import K = Tracker
  import opened System
  import opened SystemTime
  import SystemInvariant
  import opened Witnesses

  // ---- the sender sends the first block ----

  lemma PlaceKeys(s: Sender, b: nat, i: nat, chunk: EncryptedChunk, now: nat)
    ensures Place(s, b, i, chunk, now).slots.Keys == s.slots.Keys
  {
    if IsOpen(s.slots, b) && i < |s.slots[b].block.packets| {
      var s1 := CacheAndSend(s, b, i, chunk);
      assert s1.slots.Keys == s.slots.Keys;
      assert EmitBlockEnd(s1, b, now).slots.Keys == s1.slots.Keys by { EmitKeys(s1, b, now); }
    }
  }

  lemma EmitKeys(s: Sender, b: nat, now: nat)
    requires IsOpen(s.slots, b)
    ensures EmitBlockEnd(s, b, now).slots.Keys == s.slots.Keys
  {
    hide AllCached;
  }

  lemma AdmitKeys(t: Transfer, s: Sender, chunk: EncryptedChunk, now: nat)
    ensures Admit(t, s, chunk, now).slots.Keys <= s.slots.Keys + {BlockOf(t, chunk.chunkId)}
  {
    hide BlockOf, IndexOf, Place, NewBlock, PacketsInBlock;
    var b, i, s1 := BlockOf(t, chunk.chunkId), IndexOf(t, chunk.chunkId), s.(arrived := s.arrived + {chunk.chunkId});
    PlaceKeys(s1, b, i, chunk, now);
    PlaceKeys(OpenBlock(t, s1, b, now), b, i, chunk, now);
  }

  lemma {:induction false} DrainKeys(t: Transfer, s: Sender, now: nat)
    requires SI.Inv(t, s)
    ensures Drain(t, s, now).slots.Keys == s.slots.Keys
    decreases |PendingIds(s.slots)|
  {
    hide SI.Inv, OpenPending;
    if s.openSlots < t.pipelineDepth && PendingIds(s.slots) != {} {
      var b := Least(PendingIds(s.slots));
      SI.OpenPendingKeeps(t, s, b, now);
      OpenPendingShrinks(t, s, b, now);
      DrainKeys(t, OpenPending(t, s, b, now), now);
      assert OpenPending(t, s, b, now).slots.Keys == s.slots.Keys;
    }
  }

  /** Chunks below `k`, all of block 0, have arrived, and nothing else has happened. */
  ghost predicate FirstArrived(t: Transfer, s: State, k: nat) {
    && Reachable(t, s) && s == INIT.(sender := s.sender)
    && s.sender.arrived == Below(k)
    && s.sender.slots.Keys <= {0} && ResolvedIds(s.sender.slots) == {}
  }

  lemma ReachableInv(t: Transfer, s: State)
    requires Reachable(t, s)
    ensures SystemInvariant.SenderSide(t, s.sender)
  {
    hide SystemInvariant.Inv, EndOf;
    var actions :| EndOf(t, actions) == s;
    SystemInvariant.RunInv(t, actions);
    SystemInvariant.InvParts(t, s);
  }

  lemma OneMoreStep(t: Transfer, s: Sender, k: nat)
    requires SI.Inv(t, s) && s.arrived == Below(k) && k < PacketsInBlock(t, 0)
    requires s.slots.Keys <= {0} && ResolvedIds(s.slots) == {}
    ensures var s' := Step(t, s, ChunkEvent(ChunkOf(t, k)), 0);
            s'.arrived == Below(k + 1) && s'.slots.Keys <= {0} && ResolvedIds(s'.slots) == {}
  {
    hide SI.Inv, BlockOf, IndexOf, ChunkIdOf, PacketsInBlock, TotalBlocks, Admit, SI.Grows, PacketOf;
    PlaceChunkId(t, 0, k);
    assert ChunkIdOf(t, 0, k) == k by { FirstIds(t, k); }
    var e := ChunkEvent(ChunkOf(t, k));
    SR.StepKeeps(t, s, e, 0);
    SR.HandleKeeps(t, s, e, 0);
    AdmitKeys(t, s, ChunkOf(t, k), 0);
    DrainKeys(t, Handle(t, s, e, 0), 0);
    hide Drain;
    NoneResolved(s.slots);
    var s' := Step(t, s, e, 0);
    assert forall x :: x in ResolvedIds(s'.slots) ==> IsResolved(s'.slots, x);
  }

  lemma NoneResolved(slots: map<nat, Slot>)
    requires ResolvedIds(slots) == {}
    ensures forall x :: !IsResolved(slots, x)
  {
    forall x ensures !IsResolved(slots, x) {
      assert x !in ResolvedIds(slots);
    }
  }

  lemma FirstIds(t: Transfer, i: nat)
    ensures ChunkIdOf(t, 0, i) == i
  {
  }

  lemma {:induction false} ToFirstArrived(t: Transfer, k: nat) returns (s: State)
    requires k <= PacketsInBlock(t, 0)
    ensures FirstArrived(t, s, k)
  {
    hide Reachable, SI.Inv, SR.Drained, Step, TotalBlocks, PacketsInBlock, ChunkOf;
    if k == 0 {
      StartReachable(t);
      s := INIT;
    } else {
      var s0 := ToFirstArrived(t, k - 1);
      ReachableInv(t, s0);
      SR.ResolvedCounted(t, s0.sender);
      OneMoreStep(t, s0.sender, k - 1);
      BlockBelow(t, 0);
      assert k - 1 < TotalChunks(t) by { ChunkBelow(t, k - 1); }
      ReachStep(t, s0, ChunkArrives(k - 1, 0));
      s := Next(t, s0, ChunkArrives(k - 1, 0));
    }
  }

  lemma ChunkBelow(t: Transfer, i: nat)
    requires i < PacketsInBlock(t, 0)
    ensures i < TotalChunks(t)
  {
  }

  /** With all of block 0 in, its BlockEnd has been sent. */
  lemma FirstEndSent(t: Transfer, s: State)
    requires FirstArrived(t, s, PacketsInBlock(t, 0)) && 0 < PacketsInBlock(t, 0)
    ensures BlockEnd(0, PacketsInBlock(t, 0)) in s.sender.log
  {
    hide Reachable, SI.Inv, BlockOf, IndexOf, ChunkIdOf, PacketsInBlock, TotalBlocks;
    ReachableInv(t, s);
    FirstIsOpen(t, s.sender);
    OpenEnd(t, s.sender);
  }

  lemma FirstIsOpen(t: Transfer, s: Sender)
    requires SI.Inv(t, s) && SR.Drained(t, s) && 0 in s.arrived && s.slots.Keys <= {0} && ResolvedIds(s.slots) == {}
    ensures IsOpen(s.slots, 0)
  {
    hide SI.Inv, ChunkIdOf, PacketsInBlock, TotalBlocks, PacketOf, BlockOf, IndexOf;
    assert BlockOf(t, 0) == 0 by { FirstPlace(t); }
    SR.ChunkFate(t, s, 0);
    SI.DepthHeld(t, s);
    NoneResolved(s.slots);
    OnlySlot(s.slots);
    hide OpenIds, PendingIds, ResolvedIds;
    assert 0 in s.slots && !IsResolved(s.slots, 0);
    assert |OpenIds(s.slots)| > 0 ==> OpenIds(s.slots) != {};
    assert IsPending(s.slots, 0) ==> s.openSlots == t.pipelineDepth;
  }

  lemma OnlySlot(slots: map<nat, Slot>)
    requires slots.Keys <= {0}
    ensures OpenIds(slots) != {} ==> IsOpen(slots, 0)
    ensures IsPending(slots, 0) ==> PendingIds(slots) != {}
  {
    assert IsPending(slots, 0) ==> 0 in PendingIds(slots);
  }

  lemma FirstPlace(t: Transfer)
    ensures BlockOf(t, 0) == 0
  {
  }

  lemma OpenEnd(t: Transfer, s: Sender)
    requires SI.Inv(t, s) && IsOpen(s.slots, 0) && s.arrived == Below(PacketsInBlock(t, 0))
    requires 0 < PacketsInBlock(t, 0)
    ensures BlockEnd(0, PacketsInBlock(t, 0)) in s.log
  {
    BlockBelow(t, 0);
    assert SI.EndsMatch(s.slots, 0, multiset(s.log)[BlockEnd(0, PacketsInBlock(t, 0))]);
    hide SI.Inv, ChunkIdOf, PacketsInBlock, TotalBlocks, PacketOf, BlockOf, IndexOf;
    SR.SlotFollowsArrivals(t, s, 0);
    forall i: nat | i < PacketsInBlock(t, 0) ensures ChunkIdOf(t, 0, i) in s.arrived {
      FirstIds(t, i);
    }
  }

  // ---- the receiver hears the BlockEnd and nothing else ----

  function EmptyEntry(t: Transfer, rounds: nat): K.RxEntry {
    var total := PacketsInBlock(t, 0);
    K.RxEntry(total, seq(total, _ => false), 0, Backoff(t, rounds), true, rounds, 0)
  }

  /** After `rounds` checks, each the moment it was due. */
  ghost predicate AfterRounds(t: Transfer, s: State, rounds: nat) {
    && Reachable(t, s)
    && s == INIT.(sender := s.sender, acks := s.acks, now := Backoff(t, rounds),
                  tracker := K.Tracker(map[0 := EmptyEntry(t, rounds)], {}))
  }

  lemma ToHeard(t: Transfer) returns (s: State)
    requires 0 < PacketsInBlock(t, 0)
    ensures AfterRounds(t, s, 0)
  {
    hide Reachable, PacketsInBlock;
    var s0 := ToFirstArrived(t, PacketsInBlock(t, 0));
    FirstEndSent(t, s0);
    var d := BlockEnd(0, PacketsInBlock(t, 0));
    ReachStep(t, s0, Deliver(d, [], 0));
    s := Next(t, s0, Deliver(d, [], 0));
  }

  lemma DueNow(t: Transfer, rounds: nat)
    requires 0 < PacketsInBlock(t, 0)
    ensures K.Due(t, EmptyEntry(t, rounds), Backoff(t, rounds + 1))
  {
    hide PacketsInBlock;
  }

  /** The next poll, the moment the block is due. */
  lemma ToPolled(t: Transfer, s0: State, rounds: nat) returns (s: State)
    requires AfterRounds(t, s0, rounds) && 0 < PacketsInBlock(t, 0)
    ensures Reachable(t, s)
    ensures s == s0.(now := Backoff(t, rounds + 1), manager := Scanning([0]))
  {
    BlockBelow(t, 0);
    DueNow(t, rounds);
    hide Reachable, PacketsInBlock, TotalBlocks, K.Due, EmptyEntry;
    ReachStep(t, s0, ClockAdvances(K.Wait(t, rounds + 1)));
    var s1 := Next(t, s0, ClockAdvances(K.Wait(t, rounds + 1)));
    assert s1.now == Backoff(t, rounds + 1);
    hide Backoff, K.Wait;
    s := PollOne(t, s1, 0);
  }

  /** And its check. */
  lemma ToChecked(t: Transfer, s0: State, rounds: nat) returns (s: State)
    requires AfterRounds(t, s0, rounds) && 0 < PacketsInBlock(t, 0)
    ensures Reachable(t, s)
    ensures s.manager.Replying? && !s.manager.snapshot.complete
    ensures s == s0.(now := Backoff(t, rounds + 1),
                     tracker := K.Tracker(map[0 := EmptyEntry(t, rounds + 1)], {}),
                     manager := Replying(0, K.Snapshot(false, s.manager.snapshot.missing, rounds + 1), []))
  {
    hide Reachable, PacketsInBlock, Backoff;
    var s1 := ToPolled(t, s0, rounds);
    TickEmpty(t, rounds);
    hide K.Tick, EmptyEntry;
    assert s1.manager.ready[1..] == [];
    ReachStep(t, s1, Check);
    s := Next(t, s1, Check);
  }

  lemma TickEmpty(t: Transfer, rounds: nat)
    requires 0 < PacketsInBlock(t, 0)
    ensures var (k, x) := K.Tick(K.Tracker(map[0 := EmptyEntry(t, rounds)], {}), 0, Backoff(t, rounds + 1));
            && k == K.Tracker(map[0 := EmptyEntry(t, rounds + 1)], {})
            && x.Some? && x == Some(K.Snapshot(false, x.value.missing, rounds + 1))
  {
    hide PacketsInBlock, Backoff, K.MissingIds;
  }

  lemma {:induction false} ToRound(t: Transfer, rounds: nat) returns (s: State)
    requires 0 < PacketsInBlock(t, 0) && rounds <= t.maxRounds
    ensures AfterRounds(t, s, rounds)
  {
    hide PacketsInBlock, Reachable, Backoff, EmptyEntry;
    if rounds == 0 {
      s := ToHeard(t);
    } else {
      var s0 := ToRound(t, rounds - 1);
      var s1 := ToChecked(t, s0, rounds - 1);
      ReachStep(t, s1, Reply);
      s := Next(t, s1, Reply);
    }
  }

  lemma ToGivenUp(t: Transfer) returns (s: State)
    requires 0 < PacketsInBlock(t, 0)
    ensures Reachable(t, s) && s.gaveUp == map[0 := Backoff(t, t.maxRounds + 1)]
  {
    hide PacketsInBlock, Reachable, Backoff;
    var s0 := ToRound(t, t.maxRounds);
    var s1 := ToChecked(t, s0, t.maxRounds);
    ReachStep(t, s1, Reply);
    s := Next(t, s1, Reply);
  }

  /** Whatever the file and the constants, some run gives a block up after exactly the sum of its
      backoffs, its BlockEnd delivered. */
  lemma GiveUpBoundAttained(t: Transfer)
    requires Valid(t) && 0 < |t.original|
    ensures exists actions :: EndOf(t, actions).gaveUp == map[0 := Backoff(t, t.maxRounds + 1)]
  {
    SplitConcat(t.original, t.chunkSize);
    assert 0 < PacketsInBlock(t, 0);
    hide Valid, PacketsInBlock, Backoff, EndOf, Reachable, Split, Concat;
    var s := ToGivenUp(t);
    var actions := RunTo(t, s);
  }
}
