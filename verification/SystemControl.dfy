/** The control plane of the composed system: which blocks are tracked, what the ack manager
    is doing, and how the acks tie the two ends together. */
module SystemControl {
  import opened Transfers
  import opened Sums
  import opened Protocol
  import opened Sender
  import SI = SenderInvariant
  import SenderRuns
  import K = Tracker
  import opened System

  type Slots = map<nat, Slot>

  ghost predicate Closing(m: AckManager, b: nat) { m.Removing? && m.block == b }

  /** The ids the ack manager still holds from its last poll. */
  function Busy(m: AckManager): seq<nat> {
    match m
    case Polling => []
    case Scanning(ready) => ready
    case Replying(b, _, rest) => [b] + rest
    case Removing(b, rest) => [b] + rest
  }

  ghost predicate Distinct(ids: seq<nat>) {
    forall j, k :: 0 <= j < k < |ids| ==> ids[j] != ids[k]
  }

  /** Only blocks of the file that the sender opened are ever known to the receiver. */
  ghost predicate KnownOk(t: Transfer, slots: Slots, k: K.Tracker) {
    && K.Ok(k)
    && (forall b :: b in k.blocks ==>
          b < TotalBlocks(t) && WasOpened(slots, b) && k.blocks[b].total == PacketsInBlock(t, b))
    && (forall b :: b in k.completed ==> b < TotalBlocks(t) && WasOpened(slots, b))
  }

  /** After a block's Complete nothing more is ever said about it. */
  ghost predicate Final(acks: seq<BlockAck>) {
    forall i, j :: 0 <= i < j < |acks| && acks[i].Complete? ==> acks[j].blockId != acks[i].blockId
  }

  /** Completes written are the completed blocks and the one being closed; Completes handled
      are the sender's Resolved blocks. */
  ghost predicate AcksOk(slots: Slots, acks: seq<BlockAck>, consumed: nat, completed: set<nat>, m: AckManager) {
    && consumed <= |acks|
    && Final(acks)
    && (forall b :: Complete(b) in acks <==> b in completed || Closing(m, b))
    && (forall b :: IsResolved(slots, b) <==> Complete(b) in acks[..consumed])
  }

  ghost predicate SnapshotOk(t: Transfer, e: K.RxEntry, b: nat, x: K.Snapshot) {
    && x.rounds == e.rounds
    && (x.complete ==> K.IsComplete(e))
    && K.Ascending(x.missing) && |x.missing| <= PacketsInBlock(t, b)
    && (forall i: nat :: i in x.missing ==> i < PacketsInBlock(t, b))
  }

  ghost predicate ManagerOk(t: Transfer, k: K.Tracker, m: AckManager, resolved: nat) {
    && Distinct(Busy(m))
    && (forall b :: b in Busy(m) ==> b in k.blocks)
    && (m.Replying? ==> SnapshotOk(t, k.blocks[Busy(m)[0]], m.block, m.snapshot))
    && resolved == |k.completed|
  }

  /** Every block is closed for exactly one reason. */
  ghost predicate CausesOk(completed: set<nat>, m: AckManager, genuine: set<nat>, gaveUp: map<nat, nat>) {
    && genuine !! gaveUp.Keys
    && (forall b :: b in completed || Closing(m, b) <==> b in genuine || b in gaveUp)
  }

  ghost predicate Control(t: Transfer, s: State) {
    && KnownOk(t, s.sender.slots, s.tracker)
    && AcksOk(s.sender.slots, s.acks, s.consumed, s.tracker.completed, s.manager)
    && ManagerOk(t, s.tracker, s.manager, s.resolved)
    && CausesOk(s.tracker.completed, s.manager, s.genuine, s.gaveUp)
  }

  // ---- one datagram or one verified packet reaches the tracker ----

  /** What a UDP-thread or worker-thread operation on block `b` may do to the tracker: at most
      the bits `bits` are newly set, and the round counter is left alone. */
  ghost predicate Absorbs(k: K.Tracker, k': K.Tracker, b: nat, total: nat, now: nat, bits: set<nat>) {
    if b in k.completed then k' == k else
    && k'.completed == k.completed
    && b in k'.blocks && k'.blocks == k.blocks[b := k'.blocks[b]]
    && var e, e' := K.EntryOrNew(k, b, total, now), k'.blocks[b];
       && K.EntryEvolves(e, e') && K.EntryOk(e')
       && e'.rounds == e.rounds
       && (e'.lastActivity == e.lastActivity || e'.lastActivity == now)
       && (forall i: nat :: i < |e'.received| && e'.received[i] ==> e.received[i] || i in bits)
  }

  lemma TouchAbsorbs(k: K.Tracker, b: nat, total: nat, now: nat)
    requires K.Ok(k)
    ensures Absorbs(k, K.Touch(k, b, total, now), b, total, now, {})
  {
    hide K.Count;
    K.EntryOrNewOk(k, b, total, now);
  }

  lemma EndSeenAbsorbs(k: K.Tracker, b: nat, total: nat, now: nat)
    requires K.Ok(k)
    ensures Absorbs(k, K.EndSeen(k, b, total, now), b, total, now, {})
  {
    hide K.Count;
    K.EntryOrNewOk(k, b, total, now);
  }

  lemma VerifyAbsorbs(k: K.Tracker, b: nat, i: nat, total: nat, now: nat)
    requires K.Ok(k)
    ensures Absorbs(k, K.Verify(k, b, i, total, now), b, total, now, {i})
  {
    hide K.Count;
    K.EntryOrNewOk(k, b, total, now);
    var e := K.EntryOrNew(k, b, total, now);
    if i < |e.received| && !e.received[i] {
      K.CountSet(e.received, i);
    }
  }

  lemma AbsorbControl(t: Transfer, slots: Slots, k: K.Tracker, k': K.Tracker, m: AckManager, resolved: nat, b: nat,
      now: nat, bits: set<nat>)
    requires KnownOk(t, slots, k) && ManagerOk(t, k, m, resolved)
    requires b < TotalBlocks(t) && WasOpened(slots, b)
    requires Absorbs(k, k', b, PacketsInBlock(t, b), now, bits)
    ensures KnownOk(t, slots, k') && ManagerOk(t, k', m, resolved) && k'.completed == k.completed
  {
    hide PacketsInBlock, TotalBlocks, K.Count, K.MissingIds;
    if b !in k.completed && m.Replying? {
      assert Busy(m)[0] == m.block && m.block in Busy(m);
      AbsorbSnapshot(t, k, k', m, b, now, bits);
    }
  }

  lemma AbsorbSnapshot(t: Transfer, k: K.Tracker, k': K.Tracker, m: AckManager, b: nat, now: nat, bits: set<nat>)
    requires b !in k.completed && Absorbs(k, k', b, PacketsInBlock(t, b), now, bits) && K.Ok(k)
    requires m.Replying? && m.block in k.blocks && SnapshotOk(t, k.blocks[m.block], m.block, m.snapshot)
    ensures SnapshotOk(t, k'.blocks[m.block], m.block, m.snapshot)
  {
    hide PacketsInBlock, K.Count, K.MissingIds;
    if m.block == b {
      CompleteStays(k.blocks[b], k'.blocks[b]);
    }
  }

  lemma CompleteStays(e: K.RxEntry, e': K.RxEntry)
    requires K.EntryOk(e) && K.EntryOk(e') && K.EntryEvolves(e, e')
    ensures K.IsComplete(e) ==> K.IsComplete(e')
  {
    K.CountAll(e.received);
    K.CountAll(e'.received);
  }

  // ---- the sender moves ----

  /** A sender step that handled no Complete. */
  lemma SenderControl(t: Transfer, s: State, s': State)
    requires Control(t, s)
    requires s' == s.(sender := s'.sender, consumed := s'.consumed)
    requires SI.Grows(s.sender, s'.sender)
    requires SI.SameResolved(s.sender, s'.sender)
    requires s.consumed <= s'.consumed <= |s.acks|
    requires forall k :: s.consumed <= k < s'.consumed ==> s.acks[k].Missing?
    ensures Control(t, s')
  {
    hide PacketsInBlock, TotalBlocks, K.Ok, ManagerOk, CausesOk;
    forall b ensures IsResolved(s'.sender.slots, b) <==> Complete(b) in s.acks[..s'.consumed] {
      if Complete(b) in s.acks[..s'.consumed] {
        var k :| 0 <= k < s'.consumed && s.acks[k] == Complete(b);
        assert k < s.consumed && s.acks[..s.consumed][k] == Complete(b);
      }
    }
  }

  /** A Complete in flight names a block that is Open at the sender: not Resolved, not
      Pending, not unseen. */
  lemma CompleteFindsOpen(t: Transfer, s: State, b: nat)
    requires Control(t, s) && s.consumed < |s.acks| && s.acks[s.consumed] == Complete(b)
    ensures IsOpen(s.sender.slots, b) && b < TotalBlocks(t)
  {
    hide PacketsInBlock, TotalBlocks;
    assert s.acks[s.consumed] in s.acks;
    if Closing(s.manager, b) {
      assert Busy(s.manager)[0] in Busy(s.manager);
    }
  }

  /** A sender step that handled `Complete(b)`. */
  lemma CompleteControl(t: Transfer, s: State, s': State, b: nat)
    requires Control(t, s) && s.consumed < |s.acks| && s.acks[s.consumed] == Complete(b)
    requires s' == s.(sender := s'.sender, consumed := s.consumed + 1)
    requires SI.Grows(s.sender, s'.sender)
    requires SenderRuns.ResolvedBy(s.sender, AckEvent(Complete(b)), s'.sender)
    ensures Control(t, s')
  {
    hide PacketsInBlock, TotalBlocks, K.Ok, ManagerOk, CausesOk;
    assert s.acks[..s'.consumed] == s.acks[..s.consumed] + [Complete(b)];
  }

  // ---- the ack manager moves ----

  lemma PollControl(t: Transfer, s: State, order: seq<nat>)
    requires Control(t, s) && s.manager.Polling? && K.Enumerates(order, s.tracker.blocks.Keys)
    ensures Control(t, PollNext(t, s, order))
  {
    hide PacketsInBlock, TotalBlocks, K.Ok, KnownOk, K.Due;
    K.DueExact(t, s.tracker, order, s.now);
  }

  /** The block of the next check is always still tracked: the `None` branch is never taken. */
  lemma CheckFindsEntry(t: Transfer, s: State)
    requires Control(t, s) && s.manager.Scanning? && 0 < |s.manager.ready|
    ensures s.manager.ready[0] in s.tracker.blocks
  {
  }

  lemma CheckControl(t: Transfer, s: State)
    requires Control(t, s) && s.manager.Scanning? && 0 < |s.manager.ready|
    ensures Control(t, CheckNext(s))
  {
    hide TotalBlocks, K.Count, K.MissingIds;
    CheckFindsEntry(t, s);
    var s' := CheckNext(s);
    var b := s.manager.ready[0];
    var e := s.tracker.blocks[b];
    assert [b] + s.manager.ready[1..] == s.manager.ready;
    assert Busy(s'.manager) == s.manager.ready;
    assert s'.tracker.blocks.Keys == s.tracker.blocks.Keys;
    BlockBelow(t, b);
    hide PacketsInBlock;
    K.MissingIffIncomplete(s'.tracker.blocks[b]);
  }

  lemma ReplyAcks(slots: Slots, s: State, s': State, a: BlockAck)
    requires AcksOk(slots, s.acks, s.consumed, s.tracker.completed, s.manager)
    requires s.manager.Replying? && a.blockId == s.manager.block && s.manager.block !in s.tracker.completed
    requires s'.acks == s.acks + [a] && s'.consumed == s.consumed && s'.tracker == s.tracker
    requires if a.Complete? then Closing(s'.manager, a.blockId) else !s'.manager.Removing?
    ensures AcksOk(slots, s'.acks, s'.consumed, s'.tracker.completed, s'.manager)
  {
    var b := s.manager.block;
    assert s'.acks[..s.consumed] == s.acks[..s.consumed];
    assert Complete(b) !in s.acks;
    assert forall i :: 0 <= i < |s.acks| ==> s.acks[i] in s.acks;
    forall c ensures Complete(c) in s'.acks <==> Complete(c) in s.acks || a == Complete(c) {
    }
  }

  lemma ReplyManager(t: Transfer, s: State)
    requires Control(t, s) && s.manager.Replying?
    ensures var s' := ReplyNext(t, s);
            && ManagerOk(t, s'.tracker, s'.manager, s'.resolved)
            && CausesOk(s'.tracker.completed, s'.manager, s'.genuine, s'.gaveUp)
            && s.manager.block in s.tracker.blocks && s.manager.block !in s.tracker.completed
  {
    hide PacketsInBlock, TotalBlocks, AcksOk, K.EntryOk;
    var s' := ReplyNext(t, s);
    var busy := Busy(s.manager);
    var b, rest := s.manager.block, s.manager.rest;
    assert busy[0] == b && busy[1..] == rest && b in busy;
    assert Busy(s'.manager) == if s'.manager.Removing? then busy else rest;
    assert forall c :: c in rest ==> c in busy;
  }

  lemma ReplyControl(t: Transfer, s: State)
    requires Control(t, s) && s.manager.Replying?
    ensures Control(t, ReplyNext(t, s))
  {
    ReplyManager(t, s);
    hide PacketsInBlock, TotalBlocks, KnownOk, AcksOk, ManagerOk, CausesOk;
    var s' := ReplyNext(t, s);
    ReplyAcks(s.sender.slots, s, s', s'.acks[|s.acks|]);
  }

  lemma RemoveControl(t: Transfer, s: State)
    requires Control(t, s) && s.manager.Removing?
    ensures Control(t, RemoveNext(s))
  {
    RemoveManager(t, s);
    RemoveKnown(t, s.sender.slots, s.tracker, s.manager.block);
    var s' := RemoveNext(s);
    hide PacketsInBlock, TotalBlocks, KnownOk, AcksOk, ManagerOk, CausesOk;
    SameClosed(s.sender.slots, s, s');
  }

  lemma RemoveKnown(t: Transfer, slots: Slots, k: K.Tracker, b: nat)
    requires KnownOk(t, slots, k) && b in k.blocks
    ensures KnownOk(t, slots, K.Remove(k, b))
  {
    hide PacketsInBlock, TotalBlocks, K.EntryOk;
  }

  /** Removing a block's entry moves it from being closed to completed, no more. */
  lemma SameClosed(slots: Slots, s: State, s': State)
    requires AcksOk(slots, s.acks, s.consumed, s.tracker.completed, s.manager)
    requires CausesOk(s.tracker.completed, s.manager, s.genuine, s.gaveUp)
    requires s'.acks == s.acks && s'.consumed == s.consumed && s'.genuine == s.genuine && s'.gaveUp == s.gaveUp
    requires forall c :: c in s'.tracker.completed || Closing(s'.manager, c) <==>
        c in s.tracker.completed || Closing(s.manager, c)
    ensures AcksOk(slots, s'.acks, s'.consumed, s'.tracker.completed, s'.manager)
    ensures CausesOk(s'.tracker.completed, s'.manager, s'.genuine, s'.gaveUp)
  {
    hide Final;
  }

  lemma RemoveManager(t: Transfer, s: State)
    requires Control(t, s) && s.manager.Removing?
    ensures var s' := RemoveNext(s);
            && ManagerOk(t, s'.tracker, s'.manager, s'.resolved)
            && s.manager.block in s.tracker.blocks && s.manager.block !in s.tracker.completed
  {
    hide PacketsInBlock, TotalBlocks, AcksOk, CausesOk, K.EntryOk;
    var s' := RemoveNext(s);
    var busy := Busy(s.manager);
    var b, rest := s.manager.block, s.manager.rest;
    assert busy[0] == b && busy[1..] == rest && b in busy;
    assert Busy(s'.manager) == rest;
    assert forall c :: c in rest ==> c in busy && c != b;
  }
}
