/** The ack manager's loop as the code has it, with other threads' locked operations between
    any two of its own. */
module AckManager {
  import opened Transfers
  import opened Sums
  import opened Protocol
  import K = Tracker
  import opened System
  import SC = SystemControl
  import opened SystemRounds

  /** What the UDP thread and the workers do while the ack manager does not hold the lock. */
  ghost predicate ByOthers(t: Transfer, ops: seq<K.Op>) {
    forall op :: op in ops ==> (op.TouchOp? || op.VerifyOp? || op.EndSeenOp?) && op.block < TotalBlocks(t)
  }

  /** What the others do during one check: before its `snapshot_and_tick`, between that and the
      reply, and between the reply and the removal; and the clock reading of the tick. */
  datatype Gaps = Gaps(beforeTick: seq<K.Op>, now: nat, beforeReply: seq<K.Op>, beforeRemoval: seq<K.Op>)

  ghost predicate GapsOk(t: Transfer, g: Gaps) {
    ByOthers(t, g.beforeTick) && ByOthers(t, g.beforeReply) && ByOthers(t, g.beforeRemoval)
  }

  /** One poll: what the others did before it, its clock reading, and what they do during the
      check of its j-th block. */
  datatype Turn = Turn(before: seq<K.Op>, now: nat, during: nat -> Gaps)

  ghost predicate TurnOk(t: Transfer, turn: Turn) {
    ByOthers(t, turn.before) && forall j: nat :: GapsOk(t, turn.during(j))
  }

  /** The ack manager's books between two checks. */
  ghost predicate Books(t: Transfer, k: K.Tracker, sent: seq<BlockAck>, completed: nat) {
    && K.Ok(k) && (forall b :: b in k.blocks || b in k.completed ==> b < TotalBlocks(t))
    && completed == |k.completed|
    && SC.Final(sent)
    && ClosedAre(sent, k.completed)
    && RoundsOk(t, sent, k, Polling)
  }

  /** The blocks whose Complete has been written. */
  ghost predicate ClosedAre(sent: seq<BlockAck>, completed: set<nat>) {
    forall b :: Complete(b) in sent <==> b in completed
  }

  /** The tracker after one check: the others, tick, the others, the reply, the others again,
      removal. */
  function Checked(t: Transfer, k: K.Tracker, b: nat, g: Gaps): (K.Tracker, Option<BlockAck>) {
    var (k1, x) := K.Tick(K.Run(k, g.beforeTick), b, g.now);
    if x.None? then (k1, None) else
    var reply := ReplyOf(t, b, x.value);
    var k2 := K.Run(k1, g.beforeReply);
    (if reply.Complete? then K.Remove(K.Run(k2, g.beforeRemoval), b) else k2, Some(reply))
  }

  /** The tracker and the acks written so far. */
  datatype Ledger = Ledger(tracker: K.Tracker, sent: seq<BlockAck>)

  function AfterCheck(t: Transfer, l: Ledger, b: nat, g: Gaps): Ledger {
    var (k, reply) := Checked(t, l.tracker, b, g);
    Ledger(k, l.sent + if reply.Some? then [reply.value] else [])
  }

  function AfterChecks(t: Transfer, l: Ledger, ready: seq<nat>, turn: Turn): Ledger {
    if |ready| == 0 then l else
    var n := |ready| - 1;
    AfterCheck(t, AfterChecks(t, l, ready[..n], turn), ready[n], turn.during(n))
  }

  /** One poll leads from `l` to `l'`, the map being walked in some order. */
  ghost predicate PollGives(t: Transfer, l: Ledger, turn: Turn, l': Ledger) {
    var k := K.Run(l.tracker, turn.before);
    exists order :: K.Enumerates(order, k.blocks.Keys)
                    && l' == AfterChecks(t, Ledger(k, l.sent), K.DueIn(t, k, order, turn.now), turn)
  }

  /** The same for several polls, each made while some block is not completed. */
  ghost predicate PollsGive(t: Transfer, l: Ledger, turns: seq<Turn>, l': Ledger) {
    if |turns| == 0 then l' == l else
    var n := |turns| - 1;
    exists mid :: PollsGive(t, l, turns[..n], mid) && |mid.tracker.completed| < TotalBlocks(t)
        && PollGives(t, mid, turns[n], l')
  }

  // ---- the others ----

  /** The others add entries and set bits; they tick no round and close nothing. */
  ghost predicate OnlyAdds(t: Transfer, k: K.Tracker, k': K.Tracker) {
    && K.Ok(k')
    && k'.completed == k.completed
    && (forall b :: b in k.blocks ==> b in k'.blocks && k'.blocks[b].rounds == k.blocks[b].rounds)
    && (forall b :: b in k'.blocks && b !in k.blocks ==> k'.blocks[b].rounds == 0 && b < TotalBlocks(t))
  }

  lemma OneOnlyAdds(t: Transfer, k: K.Tracker, op: K.Op)
    requires K.Ok(k) && (op.TouchOp? || op.VerifyOp? || op.EndSeenOp?) && op.block < TotalBlocks(t)
    ensures OnlyAdds(t, k, K.Apply(k, op))
  {
    K.OpKeeps(k, op);
    hide K.Ok, K.Evolves, TotalBlocks;
  }

  lemma {:induction false} OthersOnlyAdd(t: Transfer, k: K.Tracker, ops: seq<K.Op>)
    requires K.Ok(k) && ByOthers(t, ops)
    ensures OnlyAdds(t, k, K.Run(k, ops))
  {
    if |ops| > 0 {
      var n := |ops| - 1;
      assert ops[n] in ops;
      assert forall op :: op in ops[..n] ==> op in ops;
      OthersOnlyAdd(t, k, ops[..n]);
      OneOnlyAdds(t, K.Run(k, ops[..n]), ops[n]);
      hide K.Ok, K.Apply, TotalBlocks;
    }
  }

  lemma OthersBooks(t: Transfer, k: K.Tracker, k': K.Tracker, sent: seq<BlockAck>, completed: nat)
    requires Books(t, k, sent, completed) && OnlyAdds(t, k, k')
    ensures Books(t, k', sent, completed)
  {
    hide TotalBlocks, MissingCount, SC.Final, ClosedAre;
  }

  // ---- one check ----

  /** One round ticked for block `b`, then whatever the others added. */
  ghost predicate Ticked(t: Transfer, k: K.Tracker, b: nat, k': K.Tracker) {
    && K.Ok(k')
    && b in k.blocks && b in k'.blocks
    && k'.completed == k.completed
    && (forall c :: c in k.blocks ==>
          c in k'.blocks && k'.blocks[c].rounds == k.blocks[c].rounds + if c == b then 1 else 0)
    && (forall c :: c in k'.blocks && c !in k.blocks ==> k'.blocks[c].rounds == 0 && c < TotalBlocks(t))
  }

  lemma TickedThenOthers(t: Transfer, k: K.Tracker, b: nat, now: nat, ops: seq<K.Op>)
    requires K.Ok(k) && b in k.blocks && ByOthers(t, ops)
    ensures Ticked(t, k, b, K.Run(K.Tick(k, b, now).0, ops))
  {
    var k1 := K.Tick(k, b, now).0;
    K.OpKeeps(k, K.TickOp(b, now));
    OthersOnlyAdd(t, k1, ops);
    hide K.Ok, K.Run, K.Evolves, K.MissingIds, TotalBlocks, ByOthers;
  }

  lemma TickedMore(t: Transfer, k: K.Tracker, b: nat, k1: K.Tracker, k2: K.Tracker)
    requires Ticked(t, k, b, k1) && OnlyAdds(t, k1, k2)
    ensures Ticked(t, k, b, k2)
  {
    hide K.Ok, TotalBlocks;
  }

  lemma MissingRounds(t: Transfer, k: K.Tracker, k': K.Tracker, sent: seq<BlockAck>, reply: BlockAck)
    requires RoundsOk(t, sent, k, Polling) && reply.Missing? && Ticked(t, k, reply.blockId, k')
    requires k.blocks[reply.blockId].rounds < t.maxRounds
    ensures RoundsOk(t, sent + [reply], k', Polling)
  {
    forall c: nat
      ensures MissingCount(sent + [reply], c) == MissingCount(sent, c) + if reply.blockId == c then 1 else 0
    {
      CountSnoc(sent, reply, c);
    }
    hide MissingCount, K.Ok, TotalBlocks;
  }

  lemma MissingBooks(t: Transfer, k: K.Tracker, k': K.Tracker, sent: seq<BlockAck>, completed: nat, reply: BlockAck)
    requires Books(t, k, sent, completed) && reply.Missing? && Ticked(t, k, reply.blockId, k')
    requires k.blocks[reply.blockId].rounds < t.maxRounds
    ensures Books(t, k', sent + [reply], completed)
  {
    hide SC.Final, TotalBlocks, RoundsOk, ClosedAre, K.EntryOk;
    CheckedSent(sent, k.completed, reply);
    assert k.completed + {} == k.completed;
    MissingRounds(t, k, k', sent, reply);
  }

  lemma CompleteRounds(t: Transfer, k: K.Tracker, k': K.Tracker, sent: seq<BlockAck>, b: nat)
    requires RoundsOk(t, sent, k, Polling) && Ticked(t, k, b, k')
    ensures RoundsOk(t, sent + [Complete(b)], K.Remove(k', b), Polling)
  {
    forall c: nat ensures MissingCount(sent + [Complete(b)], c) == MissingCount(sent, c) {
      CountSnoc(sent, Complete(b), c);
    }
    hide MissingCount, K.Ok, TotalBlocks;
  }

  lemma CompleteBooks(t: Transfer, k: K.Tracker, k': K.Tracker, sent: seq<BlockAck>, completed: nat, b: nat)
    requires Books(t, k, sent, completed) && Ticked(t, k, b, k')
    ensures Books(t, K.Remove(k', b), sent + [Complete(b)], completed + 1)
  {
    hide SC.Final, TotalBlocks, RoundsOk, ClosedAre, K.EntryOk;
    CheckedSent(sent, k.completed, Complete(b));
    CompleteRounds(t, k, k', sent, b);
  }

  /** The check from its tick on. */
  lemma TickedBooks(t: Transfer, k: K.Tracker, sent: seq<BlockAck>, completed: nat, b: nat, g: Gaps)
    requires Books(t, k, sent, completed) && b in k.blocks && GapsOk(t, g) && g.beforeTick == []
    ensures var (k', reply) := Checked(t, k, b, g);
            && reply.Some? && reply.value.blockId == b
            && Books(t, k', sent + [reply.value], completed + if reply.value.Complete? then 1 else 0)
            && (forall c :: c in k.blocks && c != b ==> c in k'.blocks)
  {
    BooksTracker(t, k, sent, completed);
    var (k1, x) := K.Tick(k, b, g.now);
    assert x == Some(K.Snapshot(x.value.complete, x.value.missing, k.blocks[b].rounds + 1));
    assert K.Run(k, g.beforeTick) == k;
    hide Books, OnlyAdds, K.Run, K.Ok, ByOthers, K.Tick, TotalBlocks;
    TickedThenOthers(t, k, b, g.now, g.beforeReply);
    var k2 := K.Run(k1, g.beforeReply);
    if ReplyOf(t, b, x.value).Complete? {
      OthersAfterTick(t, k, b, k2, g.beforeRemoval);
      CompleteBooks(t, k, K.Run(k2, g.beforeRemoval), sent, completed, b);
    } else {
      MissingBooks(t, k, k2, sent, completed, ReplyOf(t, b, x.value));
    }
  }

  lemma CheckedAfterOthers(t: Transfer, k: K.Tracker, b: nat, g: Gaps)
    ensures Checked(t, k, b, g) == Checked(t, K.Run(k, g.beforeTick), b, g.(beforeTick := []))
  {
    var k0 := K.Run(k, g.beforeTick);
    assert K.Run(k0, []) == k0;
    hide K.Run, K.Tick;
  }

  /** One check of a block the poll returned, the others running in every gap of it. */
  lemma CheckedBooks(t: Transfer, k: K.Tracker, sent: seq<BlockAck>, completed: nat, b: nat, g: Gaps)
    requires Books(t, k, sent, completed) && b in k.blocks && GapsOk(t, g)
    ensures var (k', reply) := Checked(t, k, b, g);
            && reply.Some? && reply.value.blockId == b
            && Books(t, k', sent + [reply.value], completed + if reply.value.Complete? then 1 else 0)
            && (forall c :: c in k.blocks && c != b ==> c in k'.blocks)
  {
    hide Books, Checked, K.Ok, K.Run, TotalBlocks, ByOthers;
    BooksTracker(t, k, sent, completed);
    var k0 := K.Run(k, g.beforeTick);
    OthersOnlyAdd(t, k, g.beforeTick);
    OthersBooks(t, k, k0, sent, completed);
    CheckedAfterOthers(t, k, b, g);
    NobodyRuns(t);
    TickedBooks(t, k0, sent, completed, b, g.(beforeTick := []));
  }

  lemma NobodyRuns(t: Transfer)
    ensures ByOthers(t, [])
  {
  }

  lemma OthersAfterTick(t: Transfer, k: K.Tracker, b: nat, k': K.Tracker, ops: seq<K.Op>)
    requires Ticked(t, k, b, k') && ByOthers(t, ops)
    ensures Ticked(t, k, b, K.Run(k', ops))
  {
    OthersOnlyAdd(t, k', ops);
    TickedMore(t, k, b, k', K.Run(k', ops));
  }

  lemma CheckedSent(sent: seq<BlockAck>, completed: set<nat>, reply: BlockAck)
    requires SC.Final(sent) && ClosedAre(sent, completed) && reply.blockId !in completed
    ensures SC.Final(sent + [reply])
    ensures ClosedAre(sent + [reply], completed + if reply.Complete? then {reply.blockId} else {})
  {
    assert Complete(reply.blockId) !in sent;
    assert forall i :: 0 <= i < |sent| ==> sent[i] in sent;
    forall c ensures Complete(c) in sent + [reply] <==> Complete(c) in sent || reply == Complete(c) {
    }
  }

  class AckThread {
    const t: Transfer
    const state: K.SharedReceiverState
    const control: ControlStream
    var completed: nat
    ghost var sent: seq<BlockAck>

    constructor (t: Transfer, state: K.SharedReceiverState, control: ControlStream)
      requires state.View() == K.EMPTY && control.unread == []
      ensures this.t == t && this.state == state && this.control == control && Valid()
    {
      this.t, this.state, this.control := t, state, control;
      completed, sent := 0, [];
    }

    ghost function View(): Ledger
      reads this, state
    {
      Ledger(state.View(), sent)
    }

    /** Everything written so far is `sent`, and the books are in order. */
    ghost predicate Valid()
      reads this, state, control
    {
      control.unread == EncodeAll(sent) && Books(t, state.View(), sent, completed)
    }

    /** The lock is free: the other threads run. */
    method Others(ops: seq<K.Op>)
      requires ByOthers(t, ops)
      modifies state
      ensures state.View() == K.Run(old(state.View()), ops)
    {
      for k := 0 to |ops|
        invariant state.View() == K.Run(old(state.View()), ops[..k])
      {
        assert ops[..k + 1][..k] == ops[..k];
        assert ops[k] in ops;
        match ops[k] {
          case TouchOp(b, total, now) => state.TouchActivity(b, total, now);
          case VerifyOp(b, i, total, now) => state.MarkVerified(b, i, total, now);
          case EndSeenOp(b, total, now) => state.MarkEndSeen(b, total, now);
        }
      }
      assert ops[..|ops|] == ops;
    }

    /** The body of the `for block_id in ready` loop. */
    method CheckBlock(b: nat, g: Gaps)
      requires GapsOk(t, g)
      modifies this, state, control
      ensures var (k, reply) := Checked(t, old(state.View()), b, g);
              && state.View() == k
              && sent == old(sent) + (if reply.Some? then [reply.value] else [])
              && control.unread == old(control.unread) + (if reply.Some? then EncodeAck(reply.value) else [])
              && completed == old(completed) + if reply.Some? && reply.value.Complete? then 1 else 0
    {
      hide EncodeAck, K.Run, TotalBlocks;
      Others(g.beforeTick);
      var snapshot := state.SnapshotAndTick(b, g.now);
      if snapshot.None? {
        return;
      }
      Others(g.beforeReply);
      var Snapshot(complete, missing, rounds) := snapshot.value;
      if complete || rounds > t.maxRounds {
        control.WriteAck(Complete(b));
        sent := sent + [Complete(b)];
        Others(g.beforeRemoval);
        state.RemoveBlock(b);
        completed := completed + 1;
      } else {
        control.WriteAck(Missing(b, missing));
        sent := sent + [Missing(b, missing)];
      }
    }

    /** The ids of the map in some order. */
    method KeyOrder() returns (order: seq<nat>)
      ensures K.Enumerates(order, state.blocks.Keys)
    {
      order := [];
      var rest := state.blocks.Keys;
      while rest != {}
        invariant rest <= state.blocks.Keys
        invariant forall b: nat :: b in order <==> b in state.blocks.Keys - rest
        invariant forall i, j :: 0 <= i < j < |order| ==> order[i] != order[j]
        decreases rest
      {
        var b :| b in rest;
        assert b !in order;
        order := order + [b];
        rest := rest - {b};
      }
    }

    method CheckAll(ready: seq<nat>, turn: Turn)
      requires Valid() && TurnOk(t, turn)
      requires forall b :: b in ready ==> b in state.blocks
      requires forall i, j :: 0 <= i < j < |ready| ==> ready[i] != ready[j]
      modifies this, state, control
      ensures Valid() && View() == AfterChecks(t, old(View()), ready, turn)
    {
      hide Books, EncodeAll, AfterCheck, ByOthers;
      for j := 0 to |ready|
        invariant Valid()
        invariant forall i :: j <= i < |ready| ==> ready[i] in state.blocks
        invariant View() == AfterChecks(t, old(View()), ready[..j], turn)
      {
        assert ready[..j + 1][..j] == ready[..j];
        CheckOne(ready[j], turn.during(j));
      }
      assert ready[..|ready|] == ready;
    }

    method CheckOne(b: nat, g: Gaps)
      requires Valid() && b in state.blocks && GapsOk(t, g)
      modifies this, state, control
      ensures Valid() && View() == AfterCheck(t, old(View()), b, g)
      ensures forall c :: c in old(state.blocks) && c != b ==> c in state.blocks
    {
      ghost var k := state.View();
      CheckedBooks(t, k, sent, completed, b, g);
      EncodeSnoc(sent, Checked(t, k, b, g).1.value);
      hide EncodeAck, EncodeAll, Checked, Books, ByOthers;
      CheckBlock(b, g);
    }

    /** One poll of the loop, the other threads running first and in every gap. */
    method PollOnce(turn: Turn)
      requires Valid() && TurnOk(t, turn)
      modifies this, state, control
      ensures Valid() && PollGives(t, old(View()), turn, View())
    {
      BooksTracker(t, state.View(), sent, completed);
      OthersOnlyAdd(t, state.View(), turn.before);
      OthersBooks(t, state.View(), K.Run(state.View(), turn.before), sent, completed);
      hide Books, EncodeAll, OnlyAdds, K.Run, K.Due, ByOthers, AfterChecks;
      Others(turn.before);
      var order := KeyOrder();
      var ready := state.ReadyForCheck(t, order, turn.now);
      CheckAll(ready, turn);
    }

    /** `ack_manager_loop`, for as many polls as `turns` holds. Whatever the other threads do,
        it exits only when every block of the file is completed. */
    method Run(turns: seq<Turn>) returns (done: bool, polls: nat)
      requires Valid() && forall turn :: turn in turns ==> TurnOk(t, turn)
      modifies this, state, control
      ensures Valid()
      ensures polls <= |turns| && PollsGive(t, old(View()), turns[..polls], View())
      ensures done ==> state.completed == Below(TotalBlocks(t))
      ensures done ==> forall b: nat :: b < TotalBlocks(t) ==> Complete(b) in sent
      ensures !done ==> completed < TotalBlocks(t) && polls == |turns|
    {
      hide Books, EncodeAll, TotalBlocks, TurnOk, PollGives;
      polls := 0;
      while completed < TotalBlocks(t) && polls < |turns|
        invariant Valid() && polls <= |turns| && PollsGive(t, old(View()), turns[..polls], View())
        decreases |turns| - polls
      {
        assert TurnOk(t, turns[polls]);
        CompletedCounted(t, state.View(), sent, completed);
        assert turns[..polls + 1][..polls] == turns[..polls];
        PollOnce(turns[polls]);
        polls := polls + 1;
      }
      done := completed >= TotalBlocks(t);
      if done {
        AllCompleted(t, state.View(), sent, completed);
      }
    }
  }

  lemma CompletedCounted(t: Transfer, k: K.Tracker, sent: seq<BlockAck>, completed: nat)
    requires Books(t, k, sent, completed)
    ensures completed == |k.completed|
  {
  }

  lemma BooksTracker(t: Transfer, k: K.Tracker, sent: seq<BlockAck>, completed: nat)
    requires Books(t, k, sent, completed)
    ensures K.Ok(k)
  {
  }

  lemma AllCompleted(t: Transfer, k: K.Tracker, sent: seq<BlockAck>, completed: nat)
    requires Books(t, k, sent, completed) && completed >= TotalBlocks(t)
    ensures k.completed == Below(TotalBlocks(t))
    ensures forall b: nat :: b < TotalBlocks(t) ==> Complete(b) in sent
  {
    hide TotalBlocks, MissingCount, K.Ok;
    Pigeonhole(k.completed, TotalBlocks(t));
  }

  lemma {:induction false} EncodeSnoc(acks: seq<BlockAck>, a: BlockAck)
    ensures EncodeAll(acks + [a]) == EncodeAll(acks) + EncodeAck(a)
  {
    hide EncodeAck;
    if |acks| == 0 {
      assert acks + [a] == [a];
      assert [a][1..] == [];
      assert EncodeAll([]) == [];
    } else {
      assert (acks + [a])[1..] == acks[1..] + [a];
      EncodeSnoc(acks[1..], a);
    }
  }
}
