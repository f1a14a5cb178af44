/** Repair rounds in the composed system: how many acks a block can cause, and what repairs
    can cost in all. */
module SystemRounds {
  import opened Transfers
  import opened Sums
  import opened Protocol
  import opened Sender
  import K = Tracker
  import opened System
  import opened SystemControl

  function MissingCount(acks: seq<BlockAck>, b: nat): nat {
    if |acks| == 0 then 0 else
    var n := |acks| - 1;
    MissingCount(acks[..n], b) + if acks[n].Missing? && acks[n].blockId == b then 1 else 0
  }

  /** The packet ids named by all Missing acks in the list. */
  function Named(acks: seq<BlockAck>): nat {
    if |acks| == 0 then 0 else
    var n := |acks| - 1;
    Named(acks[..n]) + if acks[n].Missing? then |acks[n].missing| else 0
  }

  ghost predicate AckShape(t: Transfer, a: BlockAck) {
    && a.blockId < TotalBlocks(t)
    && (a.Missing? ==>
          && K.Ascending(a.missing) && |a.missing| <= PacketsInBlock(t, a.blockId)
          && forall i: nat :: i in a.missing ==> i < PacketsInBlock(t, a.blockId))
  }

  ghost predicate ShapesOk(t: Transfer, acks: seq<BlockAck>) {
    forall a :: a in acks ==> AckShape(t, a)
  }

  /** The ack manager has ticked the block's round and not yet said so, or has closed it. */
  ghost predicate Answering(m: AckManager, b: nat) { (m.Replying? || m.Removing?) && m.block == b }

  /** A tracked block's round counter is the number of Missing acks written for it, plus the
      one being answered; no block ever gets more than `maxRounds`. */
  ghost predicate RoundsOk(t: Transfer, acks: seq<BlockAck>, k: K.Tracker, m: AckManager) {
    && (forall b: nat :: MissingCount(acks, b) <= t.maxRounds)
    && (forall b: nat :: b in k.blocks ==>
          k.blocks[b].rounds == MissingCount(acks, b) + if Answering(m, b) then 1 else 0)
    && (forall b: nat :: b !in k.blocks && b !in k.completed ==> MissingCount(acks, b) == 0)
  }

  ghost predicate NamedOk(s: State) {
    s.consumed <= |s.acks| && s.sender.named == Named(s.acks[..s.consumed])
  }

  ghost predicate Rounds(t: Transfer, s: State) {
    ShapesOk(t, s.acks) && RoundsOk(t, s.acks, s.tracker, s.manager) && NamedOk(s)
  }

  lemma CountSnoc(acks: seq<BlockAck>, a: BlockAck, b: nat)
    ensures MissingCount(acks + [a], b) == MissingCount(acks, b) + if a.Missing? && a.blockId == b then 1 else 0
    ensures Named(acks + [a]) == Named(acks) + if a.Missing? then |a.missing| else 0
  {
    assert (acks + [a])[..|acks|] == acks;
  }

  // ---- steps ----

  lemma AbsorbRounds(t: Transfer, acks: seq<BlockAck>, k: K.Tracker, k': K.Tracker, m: AckManager, b: nat, total: nat,
      now: nat, bits: set<nat>)
    requires RoundsOk(t, acks, k, m) && Absorbs(k, k', b, total, now, bits)
    requires forall c :: c in Busy(m) ==> c in k.blocks
    ensures RoundsOk(t, acks, k', m)
  {
    hide K.EntryOk, K.EntryEvolves, MissingCount;
    if Answering(m, b) {
      assert Busy(m)[0] == b;
    }
  }

  lemma AckHandledRounds(t: Transfer, s: State, s': State)
    requires Rounds(t, s) && s.consumed < |s.acks|
    requires s' == s.(sender := s'.sender, consumed := s.consumed + 1)
    requires s'.sender.named == s.sender.named + if s.acks[s.consumed].Missing? then |s.acks[s.consumed].missing| else 0
    ensures Rounds(t, s')
  {
    hide TotalBlocks, PacketsInBlock, RoundsOk, ShapesOk;
    assert s.acks[..s'.consumed] == s.acks[..s.consumed] + [s.acks[s.consumed]];
    CountSnoc(s.acks[..s.consumed], s.acks[s.consumed], 0);
  }

  lemma CheckRounds(t: Transfer, s: State)
    requires Control(t, s) && Rounds(t, s) && s.manager.Scanning? && 0 < |s.manager.ready|
    ensures Rounds(t, CheckNext(s))
  {
    hide TotalBlocks, PacketsInBlock, ShapesOk, K.MissingIds, MissingCount, KnownOk, AcksOk, CausesOk;
    CheckFindsEntry(t, s);
  }

  lemma ReplyShape(t: Transfer, s: State)
    requires Control(t, s) && ShapesOk(t, s.acks) && s.manager.Replying?
    ensures ShapesOk(t, ReplyNext(t, s).acks)
  {
    hide PacketsInBlock, TotalBlocks, K.MissingIds, AcksOk, CausesOk, K.Ok, TrackedFor, K.Ascending;
    var b := s.manager.block;
    assert Busy(s.manager)[0] == b && b in Busy(s.manager);
    assert AckShape(t, ReplyNext(t, s).acks[|s.acks|]);
  }

  /** Answering block `b` with `a`: the round that was ticked is now written down. */
  lemma AnswerCounts(t: Transfer, acks: seq<BlockAck>, k: K.Tracker, m: AckManager, m': AckManager, a: BlockAck)
    requires RoundsOk(t, acks, k, m) && m.Replying? && m.block in k.blocks && a.blockId == m.block
    requires if a.Complete? then m'.Removing? && m'.block == m.block else !m'.Replying? && !m'.Removing?
    requires a.Missing? ==> k.blocks[m.block].rounds <= t.maxRounds
    ensures RoundsOk(t, acks + [a], k, m')
  {
    forall c: nat
      ensures MissingCount(acks + [a], c) == MissingCount(acks, c) + if a.Missing? && a.blockId == c then 1 else 0
    {
      CountSnoc(acks, a, c);
    }
    hide MissingCount;
  }

  lemma ReplyCounts(t: Transfer, s: State)
    requires Control(t, s) && RoundsOk(t, s.acks, s.tracker, s.manager) && s.manager.Replying?
    ensures var s' := ReplyNext(t, s);
            RoundsOk(t, s'.acks, s'.tracker, s'.manager)
  {
    hide RoundsOk, K.MissingIds, AcksOk, CausesOk, KnownOk, TrackedFor, K.Ascending, PacketsInBlock;
    var s' := ReplyNext(t, s);
    var b := s.manager.block;
    assert Busy(s.manager)[0] == b && b in Busy(s.manager);
    AnswerCounts(t, s.acks, s.tracker, s.manager, s'.manager, s'.acks[|s.acks|]);
  }

  lemma ReplyRounds(t: Transfer, s: State)
    requires Control(t, s) && Rounds(t, s) && s.manager.Replying?
    ensures Rounds(t, ReplyNext(t, s))
  {
    ReplyShape(t, s);
    ReplyCounts(t, s);
    hide Control, ShapesOk, RoundsOk, TrackedFor;
    assert ReplyNext(t, s).acks[..s.consumed] == s.acks[..s.consumed];
  }

  lemma RemoveRounds(t: Transfer, s: State)
    requires Control(t, s) && Rounds(t, s) && s.manager.Removing?
    ensures Rounds(t, RemoveNext(s))
  {
    hide TotalBlocks, PacketsInBlock, ShapesOk, MissingCount, KnownOk, AcksOk, CausesOk;
  }

  // ---- what repairs can cost ----

  function MissingCost(t: Transfer, acks: seq<BlockAck>): nat -> nat {
    b => MissingCount(acks, b) * PacketsInBlock(t, b)
  }

  lemma {:induction false} NamedBounded(t: Transfer, acks: seq<BlockAck>)
    requires ShapesOk(t, acks)
    ensures Named(acks) <= Sum(MissingCost(t, acks), TotalBlocks(t))
  {
    if |acks| > 0 {
      var n := |acks| - 1;
      var a := acks[n];
      assert AckShape(t, a) by { assert a in acks; }
      hide TotalBlocks, PacketsInBlock, AckShape;
      assert acks == acks[..n] + [a];
      NamedBounded(t, acks[..n]);
      NamedOneMore(t, acks[..n], a);
    }
  }

  lemma CostOneMore(t: Transfer, acks: seq<BlockAck>, a: BlockAck, b: nat)
    ensures var f, g := MissingCost(t, acks), MissingCost(t, acks + [a]);
            g(b) == f(b) + if a.Missing? && a.blockId == b then PacketsInBlock(t, b) else 0
  {
    CountSnoc(acks, a, b);
    hide MissingCount, PacketsInBlock;
    AddOneBlock(MissingCount(acks, b), PacketsInBlock(t, b));
  }

  lemma NamedOneMore(t: Transfer, acks: seq<BlockAck>, a: BlockAck)
    requires AckShape(t, a)
    ensures var more := if a.Missing? then |a.missing| else 0;
            Sum(MissingCost(t, acks), TotalBlocks(t)) + more <= Sum(MissingCost(t, acks + [a]), TotalBlocks(t))
  {
    hide TotalBlocks, PacketsInBlock, MissingCost, K.Ascending;
    var f, g := MissingCost(t, acks), MissingCost(t, acks + [a]);
    forall b: nat ensures g(b) == f(b) + if a.Missing? && a.blockId == b then PacketsInBlock(t, b) else 0 {
      CostOneMore(t, acks, a, b);
    }
    if a.Missing? {
      SumBump(f, g, TotalBlocks(t), a.blockId, |a.missing|);
    } else {
      SumMonotone(f, g, TotalBlocks(t));
    }
  }

  function RepairCeiling(t: Transfer): nat -> nat { b => t.maxRounds * PacketsInBlock(t, b) }

  /** All Missing acks of a run together name at most `maxRounds` times the file. */
  lemma NamedTotal(t: Transfer, acks: seq<BlockAck>)
    requires ShapesOk(t, acks) && forall b: nat :: MissingCount(acks, b) <= t.maxRounds
    ensures Named(acks) <= t.maxRounds * TotalChunks(t)
  {
    NamedBounded(t, acks);
    hide TotalBlocks, PacketsInBlock, MissingCount;
    forall b: nat ensures MissingCost(t, acks)(b) <= RepairCeiling(t)(b) {
      MulMonotone(MissingCount(acks, b), t.maxRounds, PacketsInBlock(t, b));
    }
    SumMonotone(MissingCost(t, acks), RepairCeiling(t), TotalBlocks(t));
    SumScale(PacketsIn(t), RepairCeiling(t), TotalBlocks(t), t.maxRounds);
    BlocksPartitionFile(t);
  }

  lemma {:induction false} NamedPrefix(acks: seq<BlockAck>, n: nat)
    requires n <= |acks|
    ensures Named(acks[..n]) <= Named(acks)
  {
    if n == |acks| {
      assert acks[..n] == acks;
    } else {
      var m := |acks| - 1;
      assert acks[..m][..n] == acks[..n];
      NamedPrefix(acks[..m], n);
    }
  }

  // ---- termination of the ack manager ----

  /** Checks a block may still need before it is closed. */
  function RoundsLeftOf(t: Transfer, k: K.Tracker, b: nat): nat {
    if b in k.completed then 0
    else if b in k.blocks then (if k.blocks[b].rounds <= t.maxRounds then t.maxRounds + 1 - k.blocks[b].rounds else 0)
    else t.maxRounds + 1
  }

  function RoundsLeft(t: Transfer, k: K.Tracker): nat -> nat { b => RoundsLeftOf(t, k, b) }

  function ChecksLeft(t: Transfer, s: State): nat { Sum(RoundsLeft(t, s.tracker), TotalBlocks(t)) }

  lemma CheckUsesRound(t: Transfer, s: State)
    requires Control(t, s) && Rounds(t, s) && s.manager.Scanning? && 0 < |s.manager.ready|
    ensures var b, k' := s.manager.ready[0], CheckNext(s).tracker;
            && b < TotalBlocks(t)
            && RoundsLeftOf(t, k', b) + 1 == RoundsLeftOf(t, s.tracker, b)
            && (forall c: nat :: c != b ==> RoundsLeftOf(t, k', c) == RoundsLeftOf(t, s.tracker, c))
  {
    CheckFindsEntry(t, s);
    var b := s.manager.ready[0];
    assert b < TotalBlocks(t) && b !in s.tracker.completed;
    hide TotalBlocks, PacketsInBlock, ShapesOk, K.MissingIds, MissingCount, KnownOk, AcksOk, CausesOk;
  }

  /** Every check uses up one of the remaining rounds. */
  lemma CheckDecreases(t: Transfer, s: State)
    requires Control(t, s) && Rounds(t, s) && s.manager.Scanning? && 0 < |s.manager.ready|
    ensures ChecksLeft(t, CheckNext(s)) < ChecksLeft(t, s)
  {
    CheckUsesRound(t, s);
    hide Control, Rounds, RoundsLeftOf, TotalBlocks;
    SumBump(RoundsLeft(t, CheckNext(s).tracker), RoundsLeft(t, s.tracker), TotalBlocks(t), s.manager.ready[0], 1);
  }

  /** Nothing another thread does to the tracker gives a round back. */
  lemma AbsorbChecksLeft(t: Transfer, k: K.Tracker, k': K.Tracker, b: nat, total: nat, now: nat, bits: set<nat>)
    requires Absorbs(k, k', b, total, now, bits)
    ensures Sum(RoundsLeft(t, k'), TotalBlocks(t)) <= Sum(RoundsLeft(t, k), TotalBlocks(t))
  {
    hide TotalBlocks;
    SumMonotone(RoundsLeft(t, k'), RoundsLeft(t, k), TotalBlocks(t));
  }

  lemma RemoveChecksLeft(t: Transfer, s: State)
    requires s.manager.Removing?
    ensures ChecksLeft(t, RemoveNext(s)) <= ChecksLeft(t, s)
  {
    hide TotalBlocks;
    SumMonotone(RoundsLeft(t, RemoveNext(s).tracker), RoundsLeft(t, s.tracker), TotalBlocks(t));
  }
}
