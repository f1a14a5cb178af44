/** The receiver's per-block tracker: what every locked operation does to it, and
    what no interleaving of them can break. */
module Tracker {
  import opened Transfers
  import opened Sums

  /** `since` is the instant the entry was created; no operation reads it. */
  datatype RxEntry = RxEntry(
    total: nat,
    received: seq<bool>,
    receivedCount: nat,
    lastActivity: nat,
    endSeen: bool,
    rounds: nat,
    since: nat)

  datatype Tracker = Tracker(blocks: map<nat, RxEntry>, completed: set<nat>)

  datatype Snapshot = Snapshot(complete: bool, missing: seq<nat>, rounds: nat)

  const EMPTY: Tracker := Tracker(map[], {})

  function NewEntry(total: nat, now: nat): RxEntry {
    RxEntry(total, seq(total, _ => false), 0, now, false, 0, now)
  }

  predicate IsComplete(e: RxEntry) { e.receivedCount == e.total }

  /** The unverified indices, in order, each cast to a u16. */
  function MissingIds(received: seq<bool>): seq<nat> {
    if |received| == 0 then [] else
    var n := |received| - 1;
    MissingIds(received[..n]) + if received[n] then [] else [n % U16]
  }

  function Count(received: seq<bool>): nat {
    if |received| == 0 then 0 else
    Count(received[..|received| - 1]) + if received[|received| - 1] then 1 else 0
  }

  // ---- the locked operations ----

  function EntryOrNew(k: Tracker, b: nat, total: nat, now: nat): RxEntry {
    if b in k.blocks then k.blocks[b] else NewEntry(total, now)
  }

  function Touch(k: Tracker, b: nat, total: nat, now: nat): Tracker {
    if b in k.completed then k else
    k.(blocks := k.blocks[b := EntryOrNew(k, b, total, now).(lastActivity := now)])
  }

  function SetBit(e: RxEntry, i: nat): RxEntry {
    if i < |e.received| && !e.received[i]
    then e.(received := e.received[i := true], receivedCount := e.receivedCount + 1)
    else e
  }

  function Verify(k: Tracker, b: nat, i: nat, total: nat, now: nat): Tracker {
    if b in k.completed then k else
    k.(blocks := k.blocks[b := SetBit(EntryOrNew(k, b, total, now), i)])
  }

  function EndSeen(k: Tracker, b: nat, total: nat, now: nat): Tracker {
    if b in k.completed then k else
    k.(blocks := k.blocks[b := EntryOrNew(k, b, total, now).(endSeen := true, lastActivity := now)])
  }

  function Tick(k: Tracker, b: nat, now: nat): (Tracker, Option<Snapshot>) {
    if b !in k.blocks then (k, None) else
    var e := k.blocks[b].(rounds := k.blocks[b].rounds + 1, lastActivity := now);
    (k.(blocks := k.blocks[b := e]), Some(Snapshot(IsComplete(e), MissingIds(e.received), e.rounds)))
  }

  function Remove(k: Tracker, b: nat): Tracker {
    Tracker(k.blocks - {b}, k.completed + {b})
  }

  function Elapsed(e: RxEntry, now: nat): nat {
    if e.lastActivity <= now then now - e.lastActivity else 0
  }

  /** How long an incomplete block that saw its BlockEnd waits before its next check. */
  function Wait(t: Transfer, round: nat): nat {
    if round * t.grace < t.idleTimeout then round * t.grace else t.idleTimeout
  }

  predicate Due(t: Transfer, e: RxEntry, now: nat) {
    if IsComplete(e) then
      if e.endSeen then Elapsed(e, now) >= t.grace else Elapsed(e, now) >= t.idleTimeout
    else
      if e.endSeen then Elapsed(e, now) >= Wait(t, e.rounds + 1) else Elapsed(e, now) >= t.idleTimeout
  }

  /** The quiet an entry needs before its next check, by what is known of it. */
  function QuietNeeded(t: Transfer, complete: bool, endSeen: bool, round: nat): nat {
    if !endSeen then t.idleTimeout
    else if complete then t.grace
    else Min(round * t.grace, t.idleTimeout)
  }

  function Min(a: nat, b: nat): nat { if a <= b then a else b }

  ghost predicate QuietEnough(t: Transfer, e: RxEntry, now: nat) {
    e.lastActivity + QuietNeeded(t, IsComplete(e), e.endSeen, e.rounds + 1) <= now
  }

  /** Due means exactly that much quiet since the entry's last activity, no less and no more. */
  lemma DueIff(t: Transfer, e: RxEntry, now: nat)
    ensures Due(t, e, now) <==> QuietEnough(t, e, now)
  {
    MulMonotone(1, e.rounds + 1, t.grace);
  }

  function DueIn(t: Transfer, k: Tracker, order: seq<nat>, now: nat): seq<nat> {
    if |order| == 0 then [] else
    var n := |order| - 1;
    DueIn(t, k, order[..n], now) +
    if order[n] in k.blocks && Due(t, k.blocks[order[n]], now) then [order[n]] else []
  }

  // ---- consistency under every interleaving ----

  datatype Op =
    | TouchOp(block: nat, total: nat, now: nat)
    | VerifyOp(block: nat, index: nat, total: nat, now: nat)
    | EndSeenOp(block: nat, total: nat, now: nat)
    | TickOp(block: nat, now: nat)
    | RemoveOp(block: nat)

  function Apply(k: Tracker, op: Op): Tracker {
    match op
    case TouchOp(b, total, now) => Touch(k, b, total, now)
    case VerifyOp(b, i, total, now) => Verify(k, b, i, total, now)
    case EndSeenOp(b, total, now) => EndSeen(k, b, total, now)
    case TickOp(b, now) => Tick(k, b, now).0
    case RemoveOp(b) => Remove(k, b)
  }

  function Run(k: Tracker, ops: seq<Op>): Tracker {
    if |ops| == 0 then k else Apply(Run(k, ops[..|ops| - 1]), ops[|ops| - 1])
  }

  predicate EntryOk(e: RxEntry) {
    |e.received| == e.total && e.receivedCount == Count(e.received)
  }

  predicate Ok(k: Tracker) {
    && k.blocks.Keys !! k.completed
    && forall b :: b in k.blocks ==> EntryOk(k.blocks[b])
  }

  /** `e'` is a later version of the same entry: nothing verified is forgotten. */
  predicate EntryEvolves(e: RxEntry, e': RxEntry) {
    && e'.total == e.total
    && e'.since == e.since
    && |e'.received| == |e.received|
    && (forall i :: 0 <= i < |e.received| && e.received[i] ==> e'.received[i])
    && e.rounds <= e'.rounds
    && (e.endSeen ==> e'.endSeen)
  }

  /** A completed id stays completed; a tracked id stays tracked, or becomes completed. */
  predicate Evolves(k: Tracker, k': Tracker) {
    && k.completed <= k'.completed
    && (forall b :: b in k.blocks ==> b in k'.completed || (b in k'.blocks && EntryEvolves(k.blocks[b], k'.blocks[b])))
  }

  lemma {:induction false} CountSet(received: seq<bool>, i: nat)
    requires i < |received| && !received[i]
    ensures Count(received[i := true]) == Count(received) + 1
  {
    var n := |received| - 1;
    if i < n {
      assert received[i := true][..n] == received[..n][i := true];
      CountSet(received[..n], i);
    } else {
      assert received[i := true][..n] == received[..n];
    }
  }

  lemma {:induction false} CountNone(n: nat)
    ensures Count(seq(n, _ => false)) == 0
  {
    if n > 0 {
      assert seq(n, _ => false)[..n - 1] == seq(n - 1, _ => false);
      CountNone(n - 1);
    }
  }

  lemma {:induction false} CountAll(received: seq<bool>)
    ensures Count(received) <= |received|
    ensures Count(received) == |received| <==> forall i :: 0 <= i < |received| ==> received[i]
  {
    if |received| > 0 {
      CountAll(received[..|received| - 1]);
    }
  }

  lemma EntryOrNewOk(k: Tracker, b: nat, total: nat, now: nat)
    requires Ok(k)
    ensures EntryOk(EntryOrNew(k, b, total, now))
  {
    CountNone(total);
  }

  /** One locked operation, by whatever thread: the tracker stays consistent and only
      moves forward. */
  lemma OpKeeps(k: Tracker, op: Op)
    requires Ok(k)
    ensures Ok(Apply(k, op)) && Evolves(k, Apply(k, op))
  {
    hide Count;
    match op
    case VerifyOp(b, i, total, now) =>
      EntryOrNewOk(k, b, total, now);
      var e := EntryOrNew(k, b, total, now);
      if i < |e.received| && !e.received[i] {
        CountSet(e.received, i);
      }
    case TouchOp(b, total, now) => EntryOrNewOk(k, b, total, now);
    case EndSeenOp(b, total, now) => EntryOrNewOk(k, b, total, now);
    case TickOp(b, now) =>
    case RemoveOp(b) =>
  }

  /** Any sequence of locked operations, with any arguments, in any order. */
  lemma {:induction false} RunKeeps(k: Tracker, ops: seq<Op>)
    requires Ok(k)
    ensures Ok(Run(k, ops)) && Evolves(k, Run(k, ops))
  {
    if |ops| > 0 {
      var n := |ops| - 1;
      RunKeeps(k, ops[..n]);
      OpKeeps(Run(k, ops[..n]), ops[n]);
    }
  }

  /** A completed block is never tracked again, whatever arrives late. */
  lemma NoResurrection(k: Tracker, b: nat, ops: seq<Op>)
    requires Ok(k)
    ensures b !in Run(Remove(k, b), ops).blocks
  {
    OpKeeps(k, RemoveOp(b));
    RunKeeps(Remove(k, b), ops);
  }

  // ---- what an ack says ----

  lemma {:induction false} MissingMembers(received: seq<bool>)
    requires |received| <= U16
    ensures forall i: nat :: i in MissingIds(received) <==> i < |received| && !received[i]
    ensures |MissingIds(received)| == |received| - Count(received)
  {
    if |received| > 0 {
      var n := |received| - 1;
      MissingMembers(received[..n]);
      assert n % U16 == n;
    }
  }

  predicate Ascending(ids: seq<nat>) {
    forall j, k :: 0 <= j < k < |ids| ==> ids[j] < ids[k]
  }

  lemma {:induction false} MissingAscending(received: seq<bool>)
    requires |received| <= U16
    ensures Ascending(MissingIds(received))
  {
    if |received| > 0 {
      var n := |received| - 1;
      var m, all := MissingIds(received[..n]), MissingIds(received);
      MissingAscending(received[..n]);
      MissingMembers(received[..n]);
      hide MissingIds;
      forall j, k | 0 <= j < k < |all| ensures all[j] < all[k] {
        if k == |m| {
          assert m[j] in m;
        }
      }
    }
  }

  /** A Missing ack names exactly the unverified packets, in order, each once;
      it would be empty exactly when the block is complete. */
  lemma MissingIffIncomplete(e: RxEntry)
    requires EntryOk(e) && e.total <= U16
    ensures Ascending(MissingIds(e.received))
    ensures forall i: nat :: i in MissingIds(e.received) <==> i < e.total && !e.received[i]
    ensures |MissingIds(e.received)| == e.total - e.receivedCount
    ensures IsComplete(e) <==> MissingIds(e.received) == []
    ensures IsComplete(e) <==> forall i :: 0 <= i < e.total ==> e.received[i]
  {
    MissingMembers(e.received);
    MissingAscending(e.received);
    CountAll(e.received);
  }

  lemma {:induction false} DueExact(t: Transfer, k: Tracker, order: seq<nat>, now: nat)
    requires forall i, j :: 0 <= i < j < |order| ==> order[i] != order[j]
    ensures var due := DueIn(t, k, order, now);
            && (forall b: nat :: b in due <==> b in order && b in k.blocks && Due(t, k.blocks[b], now))
            && (forall b: nat :: b in due <==> b in order && b in k.blocks && QuietEnough(t, k.blocks[b], now))
            && (forall i, j :: 0 <= i < j < |due| ==> due[i] != due[j])
  {
    if |order| > 0 {
      var n := |order| - 1;
      hide Due, QuietEnough;
      DueExact(t, k, order[..n], now);
      if order[n] in k.blocks {
        DueIff(t, k.blocks[order[n]], now);
      }
      var due := DueIn(t, k, order[..n], now);
      assert order == order[..n] + [order[n]];
      assert forall i :: 0 <= i < |due| ==> due[i] in due;
      assert order[n] !in order[..n];
    }
  }

  // ---- what one operation does ----

  /** Marking packet `i` of a block that is not completed: its bit is set, every other bit is as
      before, and it is counted exactly if its bit was clear; a stray index changes nothing. */
  lemma VerifyExact(k: Tracker, b: nat, i: nat, total: nat, now: nat)
    requires b !in k.completed
    ensures b in Verify(k, b, i, total, now).blocks
    ensures var e, e' := EntryOrNew(k, b, total, now), Verify(k, b, i, total, now).blocks[b];
            && |e'.received| == |e.received|
            && (i < |e.received| ==> e'.received[i])
            && (forall j :: 0 <= j < |e.received| && j != i ==> e'.received[j] == e.received[j])
            && e'.receivedCount == e.receivedCount + (if i < |e.received| && !e.received[i] then 1 else 0)
            && e' == e.(received := e'.received, receivedCount := e'.receivedCount)
  {
  }

  /** A snapshot names exactly the packets not verified yet, in order, and reports completeness
      exactly when there are none. */
  lemma SnapshotExact(k: Tracker, b: nat, now: nat)
    requires b in k.blocks && EntryOk(k.blocks[b]) && k.blocks[b].total <= U16
    ensures var e, x := k.blocks[b], Tick(k, b, now).1;
            && x.Some? && x.value.rounds == e.rounds + 1
            && Ascending(x.value.missing)
            && (forall i: nat :: i in x.value.missing <==> i < e.total && !e.received[i])
            && (x.value.complete <==> forall i :: 0 <= i < e.total ==> e.received[i])
  {
    MissingIffIncomplete(k.blocks[b]);
    hide MissingIds;
  }

  /** `order` is an order a hash map may yield its keys in. */
  ghost predicate Enumerates(order: seq<nat>, keys: set<nat>) {
    && (forall b: nat :: b in order <==> b in keys)
    && (forall i, j :: 0 <= i < j < |order| ==> order[i] != order[j])
  }

  // ---- the shared object ----

  class SharedReceiverState {
    var blocks: map<nat, RxEntry>
    var completed: set<nat>

    function View(): Tracker reads this { Tracker(blocks, completed) }

    constructor ()
      ensures View() == EMPTY
    {
      blocks, completed := map[], {};
    }

    method TouchActivity(b: nat, total: nat, now: nat)
      modifies this
      ensures View() == Touch(old(View()), b, total, now)
    {
      if b in completed { return; }
      if b !in blocks { blocks := blocks[b := NewEntry(total, now)]; }
      blocks := blocks[b := blocks[b].(lastActivity := now)];
    }

    method MarkVerified(b: nat, i: nat, total: nat, now: nat)
      modifies this
      ensures View() == Verify(old(View()), b, i, total, now)
    {
      if b in completed { return; }
      if b !in blocks { blocks := blocks[b := NewEntry(total, now)]; }
      var entry := blocks[b];
      if i < |entry.received| && !entry.received[i] {
        entry := entry.(received := entry.received[i := true]);
        entry := entry.(receivedCount := entry.receivedCount + 1);
      }
      blocks := blocks[b := entry];
    }

    method MarkEndSeen(b: nat, total: nat, now: nat)
      modifies this
      ensures View() == EndSeen(old(View()), b, total, now)
    {
      if b in completed { return; }
      if b !in blocks { blocks := blocks[b := NewEntry(total, now)]; }
      blocks := blocks[b := blocks[b].(endSeen := true)];
      blocks := blocks[b := blocks[b].(lastActivity := now)];
    }

    /** `order` is the order the map is walked in. */
    method ReadyForCheck(t: Transfer, order: seq<nat>, now: nat) returns (ready: seq<nat>)
      requires Enumerates(order, blocks.Keys)
      ensures ready == DueIn(t, View(), order, now)
      ensures forall b: nat :: b in ready <==> b in blocks && QuietEnough(t, blocks[b], now)
      ensures forall i, j :: 0 <= i < j < |ready| ==> ready[i] != ready[j]
    {
      ready := [];
      for k := 0 to |order|
        invariant ready == DueIn(t, View(), order[..k], now)
      {
        assert order[..k + 1][..k] == order[..k];
        assert order[k] in order;
        if Due(t, blocks[order[k]], now) {
          ready := ready + [order[k]];
        }
      }
      assert order[..|order|] == order;
      DueExact(t, View(), order, now);
    }

    method SnapshotAndTick(b: nat, now: nat) returns (s: Option<Snapshot>)
      modifies this
      ensures (View(), s) == Tick(old(View()), b, now)
    {
      if b !in blocks { return None; }
      var entry := blocks[b];
      entry := entry.(rounds := entry.rounds + 1);
      entry := entry.(lastActivity := now);
      blocks := blocks[b := entry];
      s := Some(Snapshot(IsComplete(entry), MissingIds(entry.received), entry.rounds));
    }

    method RemoveBlock(b: nat)
      modifies this
      ensures View() == Remove(old(View()), b)
    {
      blocks := blocks - {b};
      completed := completed + {b};
    }
  }
}
