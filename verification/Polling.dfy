/** When a block is polled, told from what happened to it in the run: how long ago it was last
    heard of, whether its BlockEnd came, what of it is verified, and how often it was asked for. */
module Polling {
  import opened Transfers
  import opened Protocol
  import opened Sender
  import K = Tracker
  import opened System
  import opened SystemControl
  import opened SystemData
  import opened SystemRounds
  import opened SystemTime
  import opened SystemInvariant
  import opened Progress
  import opened SystemBits

  /** A datagram of block `b` is delivered, or `b` is checked. */
  ghost predicate Hears(t: Transfer, s: State, a: Action, b: nat) {
    && Enabled(t, s, a)
    && ((a.Deliver? && a.datagram.blockId == b) || (a.Check? && s.manager.ready[0] == b))
  }

  /** The receiver's clock when that happened last. */
  ghost function LastHeard(t: Transfer, actions: seq<Action>, b: nat): nat {
    if |actions| == 0 then 0 else
    var n := |actions| - 1;
    var s := EndOf(t, actions[..n]);
    if Hears(t, s, actions[n], b) then s.now else LastHeard(t, actions[..n], b)
  }

  ghost predicate DeliversEnd(t: Transfer, s: State, a: Action, b: nat) {
    Enabled(t, s, a) && a.Deliver? && a.datagram.BlockEnd? && a.datagram.blockId == b
  }

  /** A BlockEnd of block `b` was delivered. */
  ghost predicate EndDelivered(t: Transfer, actions: seq<Action>, b: nat) {
    if |actions| == 0 then false else
    var n := |actions| - 1;
    DeliversEnd(t, EndOf(t, actions[..n]), actions[n], b) || EndDelivered(t, actions[..n], b)
  }

  // ---- the entry's timer and flag follow that history ----

  ghost predicate Follows(k: K.Tracker, b: nat, last: nat, end: bool) {
    && (b in k.blocks ==> k.blocks[b].lastActivity == last && k.blocks[b].endSeen == end)
    && (end ==> b in k.blocks || b in k.completed)
  }

  lemma OpFollows(k: K.Tracker, op: K.Op, b: nat, last: nat, end: bool)
    requires Follows(k, b, last, end) && !(b in k.blocks && b in k.completed)
    requires op.VerifyOp? && op.block == b ==> b in k.blocks || b in k.completed
    ensures var heard := op.block == b && (op.TouchOp? || op.EndSeenOp? || op.TickOp?);
            Follows(K.Apply(k, op), b, if heard then op.now else last, end || (op.block == b && op.EndSeenOp?))
  {
    hide K.MissingIds;
  }

  lemma FollowsStep(t: Transfer, s: State, a: Action, b: nat, last: nat, end: bool)
    requires Enabled(t, s, a) && QueuedTraced(s) && Follows(s.tracker, b, last, end)
    requires !(b in s.tracker.blocks && b in s.tracker.completed)
    ensures Follows(Next(t, s, a).tracker, b, if Hears(t, s, a, b) then s.now else last, end || DeliversEnd(t, s, a, b))
  {
    if a.WorkerVerify? {
      VerifyIsNext(t, s, a);
    }
    hide Next, K.Apply, Follows, Running, Deliverable, TotalBlocks, PacketsInBlock;
    var op := OneOpAtMost(t, s, a);
    if op.Some? {
      OpFollows(s.tracker, op.value, b, last, end);
    }
  }

  lemma NotBoth(t: Transfer, s: State, b: nat)
    requires Inv(t, s)
    ensures !(b in s.tracker.blocks && b in s.tracker.completed)
  {
    TrackedBusy(t, s);
    hide Inv;
  }

  lemma {:induction false} RunFollows(t: Transfer, actions: seq<Action>, b: nat)
    ensures Follows(EndOf(t, actions).tracker, b, LastHeard(t, actions, b), EndDelivered(t, actions, b))
  {
    hide Inv, Enabled, Next;
    if |actions| > 0 {
      var n := |actions| - 1;
      var s := EndOf(t, actions[..n]);
      RunFollows(t, actions[..n], b);
      RunBits(t, actions[..n]);
      RunInv(t, actions[..n]);
      hide Follows, QueuedTraced;
      if Enabled(t, s, actions[n]) {
        NotBoth(t, s, b);
        FollowsStep(t, s, actions[n], b, LastHeard(t, actions[..n], b), EndDelivered(t, actions[..n], b));
      }
    }
  }

  // ---- exactly when a block is polled ----

  lemma CompleteIff(t: Transfer, s: State, b: nat)
    requires Inv(t, s) && VerifiedBits(t, s) && b in s.tracker.blocks
    ensures K.IsComplete(s.tracker.blocks[b]) <==> AllVerified(t, s, b)
  {
    hide Inv, PacketsInBlock, TotalBlocks, ChunkIdOf, VerifiedBits, K.Count;
    TrackedShape(t, s, b);
    K.CountAll(s.tracker.blocks[b].received);
    forall i: nat | i < PacketsInBlock(t, b)
      ensures s.tracker.blocks[b].received[i] <==> ChunkIdOf(t, b, i) in s.verifiedIds
    {
      BitsBothWays(t, s, b, i);
    }
  }

  lemma RoundsAsked(t: Transfer, s: State, b: nat)
    requires Inv(t, s) && s.manager.Polling? && b in s.tracker.blocks
    ensures s.tracker.blocks[b].rounds == MissingCount(s.acks, b)
  {
    hide SenderSide, Control, DataPlane, Time, ShapesOk, NamedOk, MissingCount;
  }

  /** A poll returns a tracked block exactly when it has been quiet long enough: since the last
      datagram or check of it, the idle timeout if its BlockEnd never came; otherwise one grace
      period if it is all verified, and if not one more grace period than Missing acks were
      written for it, up to the idle timeout. */
  lemma PolledExactlyWhenQuiet(t: Transfer, actions: seq<Action>, order: seq<nat>, b: nat)
    requires var s := EndOf(t, actions);
             s.manager.Polling? && b in s.tracker.blocks && K.Enumerates(order, s.tracker.blocks.Keys)
    ensures var s := EndOf(t, actions);
            var repairs := (MissingCount(s.acks, b) + 1) * t.grace;
            var quiet := if !EndDelivered(t, actions, b) then t.idleTimeout
                         else if AllVerified(t, s, b) then t.grace
                         else if repairs < t.idleTimeout then repairs
                         else t.idleTimeout;
            b in Busy(PollNext(t, s, order).manager) <==> LastHeard(t, actions, b) + quiet <= s.now
  {
    hide Inv, EndOf, K.Due, K.DueIn, K.IsComplete, VerifiedBits, AllVerified, MissingCount, LastHeard, EndDelivered;
    var s := EndOf(t, actions);
    RunInv(t, actions);
    RunBits(t, actions);
    RunFollows(t, actions, b);
    CompleteIff(t, s, b);
    RoundsAsked(t, s, b);
    K.DueExact(t, s.tracker, order, s.now);
    assert b in order;
  }
}
