/** Time in the composed system: a block is given up only after every backoff has run out. */
module SystemTime {
  import opened Transfers
  import opened Protocol
  import K = Tracker
  import opened System
  import opened SystemControl

  /** The waits before the first `rounds` checks of a block, added up. */
  function Backoff(t: Transfer, rounds: nat): nat {
    if rounds == 0 then 0 else Backoff(t, rounds - 1) + K.Wait(t, rounds)
  }

  /** An entry's clock: each round so far has waited its backoff. */
  ghost predicate EntryTime(t: Transfer, e: K.RxEntry, now: nat) {
    && e.since <= e.lastActivity <= now
    && (!K.IsComplete(e) ==> e.since + Backoff(t, e.rounds) <= e.lastActivity)
  }

  /** Ready for one more check. */
  ghost predicate Waited(t: Transfer, e: K.RxEntry, now: nat) {
    !K.IsComplete(e) ==> e.since + Backoff(t, e.rounds + 1) <= now
  }

  /** The ids of the last poll that are still to be checked. */
  function ToCheck(m: AckManager): seq<nat> {
    match m
    case Polling => []
    case Scanning(ready) => ready
    case Replying(_, _, rest) => rest
    case Removing(_, rest) => rest
  }

  ghost predicate SnapshotTime(t: Transfer, k: K.Tracker, m: AckManager) {
    m.Replying? && !m.snapshot.complete && m.block in k.blocks ==>
      k.blocks[m.block].since + Backoff(t, m.snapshot.rounds) <= k.blocks[m.block].lastActivity
  }

  ghost predicate TimeOk(t: Transfer, k: K.Tracker, m: AckManager, now: nat) {
    && (forall b :: b in k.blocks ==> EntryTime(t, k.blocks[b], now))
    && (forall b :: b in ToCheck(m) && b in k.blocks ==> Waited(t, k.blocks[b], now))
    && SnapshotTime(t, k, m)
  }

  ghost predicate GaveUpOk(t: Transfer, gaveUp: map<nat, nat>) {
    forall b :: b in gaveUp ==> gaveUp[b] >= Backoff(t, t.maxRounds + 1)
  }

  ghost predicate Time(t: Transfer, s: State) {
    TimeOk(t, s.tracker, s.manager, s.now) && GaveUpOk(t, s.gaveUp)
  }

  lemma {:induction false} BackoffMonotone(t: Transfer, m: nat, n: nat)
    requires m <= n
    ensures Backoff(t, m) <= Backoff(t, n)
  {
    if m < n {
      BackoffMonotone(t, m, n - 1);
    }
  }

  lemma AbsorbEntryTime(t: Transfer, k: K.Tracker, k': K.Tracker, b: nat, total: nat, now: nat, bits: set<nat>)
    requires K.Ok(k) && b !in k.completed && Absorbs(k, k', b, total, now, bits)
    requires b in k.blocks ==> EntryTime(t, k.blocks[b], now)
    ensures EntryTime(t, k'.blocks[b], now)
    ensures b in k.blocks && Waited(t, k.blocks[b], now) ==> Waited(t, k'.blocks[b], now)
    ensures b in k.blocks ==>
      k'.blocks[b].since == k.blocks[b].since && k'.blocks[b].lastActivity >= k.blocks[b].lastActivity
  {
    hide K.Count, K.Wait;
    K.EntryOrNewOk(k, b, total, now);
    CompleteStays(K.EntryOrNew(k, b, total, now), k'.blocks[b]);
    hide K.EntryOk, K.Ok, K.IsComplete;
    assert Backoff(t, 0) == 0;
    hide Backoff;
  }

  lemma AbsorbTime(t: Transfer, k: K.Tracker, k': K.Tracker, m: AckManager, b: nat, total: nat, now: nat,
      bits: set<nat>)
    requires K.Ok(k) && TimeOk(t, k, m, now) && Absorbs(k, k', b, total, now, bits)
    requires forall c :: c in Busy(m) ==> c in k.blocks
    ensures TimeOk(t, k', m, now)
  {
    if b !in k.completed {
      AbsorbEntryTime(t, k, k', b, total, now, bits);
      assert k'.blocks == k.blocks[b := k'.blocks[b]];
      hide Absorbs, K.Ok, EntryTime, Waited, Backoff;
      ReplaceTime(t, k, k', m, b, now);
    }
  }

  /** Replacing block `b`'s entry by one at least as far on. */
  lemma ReplaceTime(t: Transfer, k: K.Tracker, k': K.Tracker, m: AckManager, b: nat, now: nat)
    requires TimeOk(t, k, m, now)
    requires b in k'.blocks && k'.blocks == k.blocks[b := k'.blocks[b]] && EntryTime(t, k'.blocks[b], now)
    requires b in k.blocks && Waited(t, k.blocks[b], now) ==> Waited(t, k'.blocks[b], now)
    requires b in k.blocks ==>
      k'.blocks[b].since == k.blocks[b].since && k'.blocks[b].lastActivity >= k.blocks[b].lastActivity
    requires forall c :: c in Busy(m) ==> c in k.blocks
    ensures TimeOk(t, k', m, now)
  {
    hide EntryTime, Waited, Backoff;
    forall c | c in ToCheck(m) && c in k'.blocks ensures Waited(t, k'.blocks[c], now) {
      assert c in Busy(m);
    }
    if m.Replying? {
      assert Busy(m)[0] == m.block && m.block in Busy(m);
    }
  }

  lemma ClockTime(t: Transfer, k: K.Tracker, m: AckManager, now: nat, later: nat)
    requires TimeOk(t, k, m, now) && now <= later
    ensures TimeOk(t, k, m, later)
  {
    hide K.IsComplete, Backoff;
    forall b | b in k.blocks ensures EntryTime(t, k.blocks[b], later) {
      assert EntryTime(t, k.blocks[b], now);
    }
    forall b | b in ToCheck(m) && b in k.blocks ensures Waited(t, k.blocks[b], later) {
      assert Waited(t, k.blocks[b], now);
    }
  }

  /** A block the poll found due has waited out its current backoff. */
  lemma DueWaited(t: Transfer, e: K.RxEntry, now: nat)
    requires EntryTime(t, e, now) && K.Due(t, e, now)
    ensures Waited(t, e, now)
  {
    assert K.Wait(t, e.rounds + 1) <= t.idleTimeout;
  }

  lemma PollTime(t: Transfer, s: State, order: seq<nat>)
    requires Time(t, s) && s.manager.Polling? && K.Enumerates(order, s.tracker.blocks.Keys)
    ensures Time(t, PollNext(t, s, order))
  {
    hide K.IsComplete, Backoff, K.Due, K.Wait, GaveUpOk;
    K.DueExact(t, s.tracker, order, s.now);
    var s' := PollNext(t, s, order);
    forall b | b in ToCheck(s'.manager) && b in s'.tracker.blocks ensures Waited(t, s'.tracker.blocks[b], s.now) {
      assert EntryTime(t, s.tracker.blocks[b], s.now);
      DueWaited(t, s.tracker.blocks[b], s.now);
    }
  }

  lemma CheckEntryTime(t: Transfer, k: K.Tracker, b: nat, now: nat)
    requires b in k.blocks && EntryTime(t, k.blocks[b], now) && Waited(t, k.blocks[b], now)
    ensures var (k', x) := K.Tick(k, b, now);
            && EntryTime(t, k'.blocks[b], now)
            && (!x.value.complete ==> k'.blocks[b].since + Backoff(t, x.value.rounds) <= k'.blocks[b].lastActivity)
  {
    hide K.MissingIds, Backoff;
  }

  lemma CheckRest(t: Transfer, s: State)
    requires Control(t, s) && s.manager.Scanning? && 0 < |s.manager.ready|
    ensures s.manager.ready[0] in s.tracker.blocks && s.manager.ready[0] !in s.manager.ready[1..]
  {
    CheckFindsEntry(t, s);
    hide KnownOk, AcksOk, CausesOk;
    assert s.manager.ready == Busy(s.manager);
  }

  lemma CheckTime(t: Transfer, s: State)
    requires Control(t, s) && Time(t, s) && s.manager.Scanning? && 0 < |s.manager.ready|
    ensures Time(t, CheckNext(s))
  {
    CheckRest(t, s);
    hide Control, GaveUpOk, K.MissingIds, Backoff, EntryTime, Waited;
    var b, rest := s.manager.ready[0], s.manager.ready[1..];
    CheckEntryTime(t, s.tracker, b, s.now);
    assert forall c :: c in rest ==> c in s.manager.ready;
  }

  lemma ReplyTime(t: Transfer, s: State)
    requires Control(t, s) && Time(t, s) && s.manager.Replying?
    ensures Time(t, ReplyNext(t, s))
  {
    assert Busy(s.manager)[0] == s.manager.block && s.manager.block in Busy(s.manager);
    hide Backoff, K.MissingIds, KnownOk, AcksOk, CausesOk, K.Wait;
    var s' := ReplyNext(t, s);
    var b := s.manager.block;
    assert EntryTime(t, s.tracker.blocks[b], s.now);
    if !s.manager.snapshot.complete && s.manager.snapshot.rounds > t.maxRounds {
      BackoffMonotone(t, t.maxRounds + 1, s.manager.snapshot.rounds);
    }
  }

  lemma RemoveTime(t: Transfer, s: State)
    requires Time(t, s) && s.manager.Removing?
    ensures Time(t, RemoveNext(s))
  {
    hide Backoff, GaveUpOk, EntryTime, Waited;
  }

  function Triangle(n: nat): nat { if n == 0 then 0 else Triangle(n - 1) + n }

  lemma {:induction false} TriangleClosed(n: nat)
    ensures 2 * Triangle(n) == n * (n + 1)
  {
    if n > 0 {
      TriangleClosed(n - 1);
    }
  }

  lemma Distribute(a: nat, b: nat, c: nat)
    ensures (a + b) * c == a * c + b * c
  {
  }

  /** Below the idle cap the backoff is a triangular number of grace periods. */
  lemma {:induction false} BackoffBelowCap(t: Transfer, rounds: nat)
    requires rounds * t.grace < t.idleTimeout
    ensures Backoff(t, rounds) == Triangle(rounds) * t.grace
  {
    if rounds > 0 {
      MulMonotone(rounds - 1, rounds, t.grace);
      BackoffBelowCap(t, rounds - 1);
      Distribute(Triangle(rounds - 1), rounds, t.grace);
    }
  }

  /** With the shipped constants (1 ms grace, 100 ms idle timeout, 50 rounds) a block is
      tracked for at least 1326 ms before it is given up. */
  lemma ShippedBackoff(t: Transfer)
    requires t.grace == 1 && t.idleTimeout == 100 && t.maxRounds == 50
    ensures Backoff(t, t.maxRounds + 1) == 1326
  {
    BackoffBelowCap(t, 51);
    TriangleClosed(51);
  }
}
