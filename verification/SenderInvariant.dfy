/** What every event sequence keeps true of the block manager. */
module SenderInvariant {
  import opened Transfers
  import opened Sums
  import opened Protocol
  import opened Sender

  function CountSome(packets: seq<Option<Datagram>>): nat {
    if |packets| == 0 then 0 else
    CountSome(packets[..|packets| - 1]) + if packets[|packets| - 1].Some? then 1 else 0
  }

  function Ids(bucket: seq<EncryptedChunk>): set<nat> {
    set k | 0 <= k < |bucket| :: bucket[k].chunkId
  }

  // ---- one slot ----

  /** Exactly the placed packets are cached, each at its own index; `sent` counts them;
      BlockEnd is out exactly when all are. */
  ghost predicate BlockOk(t: Transfer, placed: set<nat>, b: nat, e: BlockState) {
    && b < TotalBlocks(t)
    && e.total == PacketsInBlock(t, b) == |e.packets|
    && (forall i :: 0 <= i < e.total ==>
          e.packets[i] == if ChunkIdOf(t, b, i) in placed then Some(PacketOf(t, ChunkIdOf(t, b, i))) else None)
    && e.sent == CountSome(e.packets)
    && (e.endEmitted <==> e.sent == e.total)
    && (e.fallbackSent ==> e.endEmitted)
  }

  ghost predicate BufferedOk(t: Transfer, s: Sender, b: nat, chunk: EncryptedChunk) {
    && chunk == ChunkOf(t, chunk.chunkId)
    && chunk.chunkId < TotalChunks(t)
    && BlockOf(t, chunk.chunkId) == b
    && chunk.chunkId in s.arrived
    && chunk.chunkId !in s.placed
  }

  /** A list of chunks of block `b`, each arrived, none yet placed, none twice. */
  ghost predicate BufferOk(t: Transfer, s: Sender, b: nat, bucket: seq<EncryptedChunk>) {
    && (forall k :: 0 <= k < |bucket| ==> BufferedOk(t, s, b, bucket[k]))
    && (forall j, k :: 0 <= j < k < |bucket| ==> bucket[j].chunkId != bucket[k].chunkId)
  }

  ghost predicate SlotOk(t: Transfer, s: Sender, b: nat)
    requires b in s.slots
  {
    match s.slots[b]
    case Open(e) => BlockOk(t, s.placed, b, e)
    case Pending(bucket) =>
      && b < TotalBlocks(t) && 0 < |bucket| && BufferOk(t, s, b, bucket)
      && (forall c :: c in s.arrived && BlockOf(t, c) == b ==> c in Ids(bucket))
    case Resolved => true
  }

  ghost predicate SlotsOk(t: Transfer, s: Sender) {
    forall b :: b in s.slots ==> SlotOk(t, s, b)
  }

  // ---- history and log ----

  ghost predicate PlacedOk(t: Transfer, s: Sender) {
    forall c :: c in s.placed ==>
      c < TotalChunks(t) && c in s.arrived && WasOpened(s.slots, BlockOf(t, c)) && PacketOf(t, c) in s.log
  }

  ghost predicate LoggedOk(t: Transfer, s: Sender, d: Datagram) {
    match d
    case Data(b, i, _, _) =>
      i < PacketsInBlock(t, b) && ChunkIdOf(t, b, i) in s.placed && d == PacketOf(t, ChunkIdOf(t, b, i))
    case BlockEnd(b, n) =>
      && b < TotalBlocks(t) && n == PacketsInBlock(t, b) && WasOpened(s.slots, b)
      && forall i :: 0 <= i < n ==> ChunkIdOf(t, b, i) in s.placed
  }

  ghost predicate LogOk(t: Transfer, s: Sender) {
    forall d :: d in s.log ==> LoggedOk(t, s, d)
  }

  /** How many BlockEnds a block's slot accounts for. */
  ghost predicate EndsMatch(slots: map<nat, Slot>, b: nat, ends: nat) {
    if IsOpen(slots, b) then
      ends == (if slots[b].block.endEmitted then 1 else 0) + (if slots[b].block.fallbackSent then 1 else 0)
    else if IsResolved(slots, b) then ends <= 2
    else ends == 0
  }

  ghost predicate EndsOk(t: Transfer, s: Sender) {
    forall b :: 0 <= b < TotalBlocks(t) ==>
      EndsMatch(s.slots, b, multiset(s.log)[BlockEnd(b, PacketsInBlock(t, b))])
  }

  // ---- counters ----

  function SizeOf(t: Transfer, ids: set<nat>): nat -> nat {
    c => if c in ids then |Plain(t, c)| else 0
  }

  ghost predicate CountersOk(t: Transfer, s: Sender) {
    && s.openSlots == |OpenIds(s.slots)| <= t.pipelineDepth
    && s.completed == |ResolvedIds(s.slots)|
    && s.packetsSent == |s.placed|
    && s.bytesSent == Sum(SizeOf(t, s.placed), TotalChunks(t))
    && !s.panicked
  }

  /** The packets a block's one fallback may already have cost. */
  function FallbackAt(t: Transfer, slots: map<nat, Slot>, b: nat): nat {
    if b !in slots || slots[b].Pending? || (slots[b].Open? && !slots[b].block.fallbackSent) then 0
    else PacketsInBlock(t, b)
  }

  function FallbackCost(t: Transfer, slots: map<nat, Slot>): nat -> nat {
    b => FallbackAt(t, slots, b)
  }

  ghost predicate BudgetOk(t: Transfer, s: Sender) {
    s.retransmitted <= s.named + Sum(FallbackCost(t, s.slots), TotalBlocks(t))
  }

  ghost predicate Core(t: Transfer, s: Sender) {
    SlotsOk(t, s) && PlacedOk(t, s) && LogOk(t, s) && EndsOk(t, s) && CountersOk(t, s) && BudgetOk(t, s)
  }

  /** Every arrived chunk of an Open block has been placed, but those in `except`. */
  ghost predicate Settled(t: Transfer, s: Sender, except: set<nat>) {
    forall c :: c in s.arrived ==>
      && c < TotalChunks(t) && BlockOf(t, c) in s.slots
      && (IsOpen(s.slots, BlockOf(t, c)) ==> c in s.placed || c in except)
  }

  /** The invariant between any two steps of the manager. */
  ghost predicate Inv(t: Transfer, s: Sender) {
    Core(t, s) && Settled(t, s, {})
  }

  /** What no step undoes. */
  ghost predicate Grows(s: Sender, s': Sender) {
    && s.arrived <= s'.arrived
    && s.placed <= s'.placed
    && (forall d :: d in s.log ==> d in s'.log)
    && (forall b :: WasOpened(s.slots, b) ==> WasOpened(s'.slots, b))
    && (forall b :: IsResolved(s.slots, b) ==> IsResolved(s'.slots, b))
  }

  // ---- arithmetic, packaged ----

  lemma Places(t: Transfer, b: nat)
    ensures forall i :: 0 <= i < PacketsInBlock(t, b) ==>
              && ChunkIdOf(t, b, i) < TotalChunks(t)
              && BlockOf(t, ChunkIdOf(t, b, i)) == b
              && IndexOf(t, ChunkIdOf(t, b, i)) == i
    ensures b < TotalBlocks(t) <==> 0 < PacketsInBlock(t, b)
  {
    hide ChunkIdOf, BlockOf, IndexOf, PacketsInBlock, TotalBlocks;
    BlockBelow(t, b);
    forall i | 0 <= i < PacketsInBlock(t, b)
      ensures ChunkIdOf(t, b, i) < TotalChunks(t) && BlockOf(t, ChunkIdOf(t, b, i)) == b
          && IndexOf(t, ChunkIdOf(t, b, i)) == i
    {
      PlaceChunkId(t, b, i);
    }
  }

  lemma {:induction false} CountSomeSet(packets: seq<Option<Datagram>>, i: nat, d: Datagram)
    requires i < |packets| && packets[i].None?
    ensures CountSome(packets[i := Some(d)]) == CountSome(packets) + 1
  {
    var n := |packets| - 1;
    if i < n {
      assert packets[i := Some(d)][..n] == packets[..n][i := Some(d)];
      CountSomeSet(packets[..n], i, d);
    } else {
      assert packets[i := Some(d)][..n] == packets[..n];
    }
  }

  lemma {:induction false} CountSomeAll(packets: seq<Option<Datagram>>)
    ensures CountSome(packets) <= |packets|
    ensures CountSome(packets) == |packets| <==> forall i :: 0 <= i < |packets| ==> packets[i].Some?
    ensures CountSome(packets) == 0 <==> forall i :: 0 <= i < |packets| ==> packets[i].None?
  {
    if |packets| > 0 {
      CountSomeAll(packets[..|packets| - 1]);
    }
  }

  lemma {:induction false} SumUpdate(f: nat -> nat, g: nat -> nat, n: nat, k: nat, d: nat)
    requires k < n
    requires forall i: nat :: i < n && i != k ==> f(i) == g(i)
    requires f(k) + d == g(k)
    ensures Sum(f, n) + d == Sum(g, n)
  {
    if k == n - 1 {
      SumMonotone(f, g, n - 1);
      SumMonotone(g, f, n - 1);
    } else {
      SumUpdate(f, g, n - 1, k, d);
    }
  }

  // ---- placing one chunk ----

  /** The block after caching one more packet; BlockEnd is not out yet. */
  lemma CachedBlock(t: Transfer, placed: set<nat>, b: nat, e: BlockState, i: nat, now: nat)
    requires BlockOk(t, placed, b, e) && i < e.total && ChunkIdOf(t, b, i) !in placed
    ensures var c := ChunkIdOf(t, b, i);
            var e' := e.(packets := e.packets[i := Some(PacketOf(t, c))], sent := e.sent + 1);
            && !e.endEmitted && !e.fallbackSent
            && BlockOk(t, placed + {c}, b, e'.(endEmitted := e'.sent == e'.total, lastAckActivity := now))
            && BlockOk(t, placed + {c}, b, e'.(endEmitted := e'.sent == e'.total))
            && (e'.sent == e'.total <==> AllCached(e'))
            && (e'.sent == e'.total ==> forall j :: 0 <= j < e.total ==> ChunkIdOf(t, b, j) in placed + {c})
  {
    hide ChunkIdOf, BlockOf, IndexOf, PacketsInBlock, TotalBlocks, PacketOf;
    Places(t, b);
    var c := ChunkIdOf(t, b, i);
    CountSomeSet(e.packets, i, PacketOf(t, c));
    CountSomeAll(e.packets);
    CountSomeAll(e.packets[i := Some(PacketOf(t, c))]);
    assert forall j :: 0 <= j < e.total && ChunkIdOf(t, b, j) == c ==> j == i;
  }

  /** The state `Place` leads to, spelled out. */
  ghost predicate PlacedNext(t: Transfer, s: Sender, c: nat, now: nat, s': Sender) {
    var b := BlockOf(t, c);
    && IsOpen(s.slots, b) && IsOpen(s'.slots, b)
    && var e, e' := s.slots[b].block, s'.slots[b].block;
       && s'.slots == s.slots[b := Open(e')]
       && BlockOk(t, s'.placed, b, e')
       && !e.endEmitted && !e.fallbackSent && !e'.fallbackSent
       && s'.placed == s.placed + {c}
       && s'.log == s.log + [PacketOf(t, c)] + (if e'.endEmitted then [BlockEnd(b, e'.total)] else [])
       && (e'.endEmitted ==> forall j :: 0 <= j < e'.total ==> ChunkIdOf(t, b, j) in s'.placed)
       && s'.packetsSent == s.packetsSent + 1
       && s'.bytesSent == s.bytesSent + |Plain(t, c)|
       && s'.openSlots == s.openSlots && s'.completed == s.completed
       && s'.retransmitted == s.retransmitted && s'.named == s.named
       && s'.arrived == s.arrived && s'.panicked == s.panicked
  }

  lemma PlaceNext(t: Transfer, s: Sender, c: nat, now: nat)
    requires SlotsOk(t, s) && IsOpen(s.slots, BlockOf(t, c)) && c < TotalChunks(t) && c !in s.placed
    ensures PlacedNext(t, s, c, now, Place(s, BlockOf(t, c), IndexOf(t, c), ChunkOf(t, c), now))
  {
    hide ChunkIdOf, BlockOf, IndexOf, PacketsInBlock, TotalBlocks, PacketOf, BlockOk;
    var b, i := BlockOf(t, c), IndexOf(t, c);
    ChunkPlace(t, c);
    var e := s.slots[b].block;
    assert SlotOk(t, s, b);
    assert BlockOk(t, s.placed, b, e);
    assert e.total == PacketsInBlock(t, b) == |e.packets| by { BlockShape(t, s.placed, b, e); }
    CachedBlock(t, s.placed, b, e, i, now);
  }

  lemma BlockShape(t: Transfer, placed: set<nat>, b: nat, e: BlockState)
    requires BlockOk(t, placed, b, e)
    ensures b < TotalBlocks(t) && e.total == PacketsInBlock(t, b) == |e.packets|
  {
  }

  lemma OtherBlock(t: Transfer, placed: set<nat>, c: nat, b: nat, e: BlockState)
    requires BlockOk(t, placed, b, e) && BlockOf(t, c) != b
    ensures BlockOk(t, placed + {c}, b, e)
  {
    hide ChunkIdOf, BlockOf, IndexOf, PacketsInBlock, TotalBlocks, PacketOf;
    Places(t, b);
  }

  lemma PlaceSlots(t: Transfer, s: Sender, c: nat, now: nat, s': Sender)
    requires SlotsOk(t, s) && PlacedNext(t, s, c, now, s')
    ensures SlotsOk(t, s')
  {
    hide ChunkIdOf, BlockOf, IndexOf, PacketsInBlock, TotalBlocks, PacketOf, BlockOk, ChunkOf;
    forall b' | b' in s'.slots ensures SlotOk(t, s', b') {
      if b' != BlockOf(t, c) {
        assert SlotOk(t, s, b');
        if s.slots[b'].Open? {
          OtherBlock(t, s.placed, c, b', s.slots[b'].block);
        } else if s.slots[b'].Pending? {
          var bucket := s.slots[b'].bucket;
          assert forall k :: 0 <= k < |bucket| ==> BufferedOk(t, s, b', bucket[k]);
        }
      }
    }
  }

  lemma PlaceLog(t: Transfer, s: Sender, c: nat, now: nat, s': Sender)
    requires c < TotalChunks(t) && c in s.arrived
    requires PlacedOk(t, s) && LogOk(t, s) && PlacedNext(t, s, c, now, s')
    ensures PlacedOk(t, s') && LogOk(t, s')
  {
    hide ChunkIdOf, BlockOf, IndexOf, PacketsInBlock, TotalBlocks;
    ChunkPlace(t, c);
    var b := BlockOf(t, c);
    BlockShape(t, s'.placed, b, s'.slots[b].block);
    forall d | d in s'.log ensures LoggedOk(t, s', d) {
      if d in s.log {
        assert LoggedOk(t, s, d);
      }
    }
  }

  lemma PlaceEnds(t: Transfer, s: Sender, c: nat, now: nat, s': Sender)
    requires EndsOk(t, s) && PlacedNext(t, s, c, now, s')
    ensures EndsOk(t, s')
  {
    hide ChunkIdOf, BlockOf, IndexOf, PacketsInBlock, TotalBlocks, BlockOk;
    var b := BlockOf(t, c);
    assert s'.slots[b].block.total == PacketsInBlock(t, b) by {
      BlockShape(t, s'.placed, b, s'.slots[b].block);
    }
    var ends := if s'.slots[b].block.endEmitted then [BlockEnd(b, PacketsInBlock(t, b))] else [];
    assert multiset(s'.log) == multiset(s.log) + multiset([PacketOf(t, c)]) + multiset(ends);
    forall b' | 0 <= b' < TotalBlocks(t)
      ensures EndsMatch(s'.slots, b', multiset(s'.log)[BlockEnd(b', PacketsInBlock(t, b'))])
    {
      assert EndsMatch(s.slots, b', multiset(s.log)[BlockEnd(b', PacketsInBlock(t, b'))]);
    }
  }

  lemma SizePlaced(t: Transfer, placed: set<nat>, c: nat)
    requires c < TotalChunks(t) && c !in placed
    ensures Sum(SizeOf(t, placed + {c}), TotalChunks(t)) == Sum(SizeOf(t, placed), TotalChunks(t)) + |Plain(t, c)|
  {
    SumUpdate(SizeOf(t, placed), SizeOf(t, placed + {c}), TotalChunks(t), c, |Plain(t, c)|);
  }

  lemma BudgetFrame(t: Transfer, s: Sender, s': Sender)
    requires BudgetOk(t, s) && s'.retransmitted - s.retransmitted <= s'.named - s.named
    requires forall b: nat :: FallbackAt(t, s.slots, b) <= FallbackAt(t, s'.slots, b)
    ensures BudgetOk(t, s')
  {
    SumMonotone(FallbackCost(t, s.slots), FallbackCost(t, s'.slots), TotalBlocks(t));
  }

  function One(p: bool): nat { if p then 1 else 0 }

  /** How the counts of Open and Resolved slots follow one slot's change. */
  lemma CountsAfter(slots: map<nat, Slot>, b: nat, slot: Slot)
    ensures |OpenIds(slots[b := slot])| == |OpenIds(slots)| + One(slot.Open?) - One(IsOpen(slots, b))
    ensures |ResolvedIds(slots[b := slot])| == |ResolvedIds(slots)| + One(slot.Resolved?) - One(IsResolved(slots, b))
  {
    var after := slots[b := slot];
    SizeAfter(OpenIds(slots), OpenIds(after), b);
    SizeAfter(ResolvedIds(slots), ResolvedIds(after), b);
  }

  lemma SizeAfter(a: set<nat>, a': set<nat>, b: nat)
    requires forall x :: x in a && x != b ==> x in a'
    requires forall x :: x in a' && x != b ==> x in a
    ensures |a'| == |a| + One(b in a') - One(b in a)
  {
    var rest := a - {b};
    assert a' - {b} == rest;
    if b in a {
      assert a == rest + {b};
    } else {
      assert a == rest;
    }
    if b in a' {
      assert a' == rest + {b};
    } else {
      assert a' == rest;
    }
  }

  lemma PlaceCounters(t: Transfer, s: Sender, c: nat, now: nat, s': Sender)
    requires c < TotalChunks(t) && c !in s.placed
    requires CountersOk(t, s) && BudgetOk(t, s) && PlacedNext(t, s, c, now, s')
    ensures CountersOk(t, s') && BudgetOk(t, s')
  {
    hide ChunkIdOf, BlockOf, IndexOf, PacketsInBlock, TotalBlocks, BlockOk, PacketOf, Sum, SizeOf, Plain;
    hide OpenIds, ResolvedIds;
    var b := BlockOf(t, c);
    CountsAfter(s.slots, b, s'.slots[b]);
    SizePlaced(t, s.placed, c);
    BudgetFrame(t, s, s');
  }

  lemma PlaceSettles(t: Transfer, s: Sender, c: nat, now: nat, s': Sender, except: set<nat>)
    requires Settled(t, s, except) && PlacedNext(t, s, c, now, s')
    ensures Settled(t, s', except - {c}) && Grows(s, s')
  {
    hide ChunkIdOf, BlockOf, IndexOf, PacketsInBlock, TotalBlocks, BlockOk, PacketOf;
  }

  /** `place_chunk` on a chunk of an Open block that was not placed before: no index is out
      of range, no assertion fires, and every invariant is kept. */
  lemma PlaceKeeps(t: Transfer, s: Sender, c: nat, now: nat, except: set<nat>)
    requires Core(t, s) && Settled(t, s, except)
    requires IsOpen(s.slots, BlockOf(t, c)) && c < TotalChunks(t) && c in s.arrived && c !in s.placed
    ensures var s' := Place(s, BlockOf(t, c), IndexOf(t, c), ChunkOf(t, c), now);
            && Core(t, s') && Settled(t, s', except - {c}) && Grows(s, s')
            && PlacedNext(t, s, c, now, s')
  {
    hide ChunkIdOf, BlockOf, IndexOf, PacketsInBlock, TotalBlocks, BlockOk, PacketOf, ChunkOf;
    hide Place, PlacedNext, SlotsOk, PlacedOk, LogOk, EndsOk, CountersOk, BudgetOk, Settled, Grows;
    var s' := Place(s, BlockOf(t, c), IndexOf(t, c), ChunkOf(t, c), now);
    PlaceNext(t, s, c, now);
    PlaceSlots(t, s, c, now, s');
    PlaceLog(t, s, c, now, s');
    PlaceEnds(t, s, c, now, s');
    PlaceCounters(t, s, c, now, s');
    PlaceSettles(t, s, c, now, s', except);
  }

  // ---- opening a block ----

  /** Chunks of block `b` that have arrived. */
  function ArrivedIn(t: Transfer, s: Sender, b: nat): set<nat> {
    set c | c in s.arrived && BlockOf(t, c) == b
  }

  lemma NewBlockOk(t: Transfer, placed: set<nat>, b: nat, now: nat)
    requires b < TotalBlocks(t)
    requires forall c :: c in placed ==> BlockOf(t, c) != b
    ensures BlockOk(t, placed, b, NewBlock(PacketsInBlock(t, b), now))
  {
    hide ChunkIdOf, BlockOf, IndexOf, PacketsInBlock, TotalBlocks, PacketOf;
    Places(t, b);
    CountSomeAll(NewBlock(PacketsInBlock(t, b), now).packets);
  }

  /** Turning an unopened block into an Open one (with nothing placed yet) or into a
      Resolved one, or renewing an Open one, disturbs no other slot and no log entry. */
  lemma SlotFrame(t: Transfer, s: Sender, s': Sender, b: nat)
    requires SlotsOk(t, s) && LogOk(t, s) && PlacedOk(t, s)
    requires b in s'.slots && !s'.slots[b].Pending? && s'.slots == s.slots[b := s'.slots[b]]
    requires s'.placed == s.placed && s'.arrived == s.arrived && s'.log == s.log
    requires SlotOk(t, s', b)
    ensures SlotsOk(t, s') && LogOk(t, s') && PlacedOk(t, s')
  {
    hide ChunkIdOf, BlockOf, IndexOf, PacketsInBlock, TotalBlocks, PacketOf, BlockOk, ChunkOf;
    forall b' | b' in s'.slots ensures SlotOk(t, s', b') {
      if b' != b {
        assert SlotOk(t, s, b');
        if s.slots[b'].Pending? {
          var bucket := s.slots[b'].bucket;
          assert forall k :: 0 <= k < |bucket| ==> BufferedOk(t, s, b', bucket[k]);
        }
      }
    }
    forall d | d in s'.log ensures LoggedOk(t, s', d) {
      assert LoggedOk(t, s, d);
    }
  }

  lemma EndsFrame(t: Transfer, s: Sender, s': Sender, b: nat)
    requires EndsOk(t, s) && s'.log == s.log
    requires b in s'.slots && s'.slots == s.slots[b := s'.slots[b]]
    requires forall ends: nat :: EndsMatch(s.slots, b, ends) ==> EndsMatch(s'.slots, b, ends)
    ensures EndsOk(t, s')
  {
    hide PacketsInBlock, TotalBlocks;
    forall b' | 0 <= b' < TotalBlocks(t)
      ensures EndsMatch(s'.slots, b', multiset(s'.log)[BlockEnd(b', PacketsInBlock(t, b'))])
    {
      assert EndsMatch(s.slots, b', multiset(s.log)[BlockEnd(b', PacketsInBlock(t, b'))]);
    }
  }

  lemma OpenKeeps(t: Transfer, s: Sender, b: nat, now: nat, except: set<nat>)
    requires Core(t, s) && Settled(t, s, except)
    requires b < TotalBlocks(t) && !WasOpened(s.slots, b) && s.openSlots < t.pipelineDepth
    ensures var s' := OpenBlock(t, s, b, now);
            Core(t, s') && Settled(t, s', except + ArrivedIn(t, s, b)) && Grows(s, s')
  {
    var s' := OpenBlock(t, s, b, now);
    hide ChunkIdOf, BlockOf, IndexOf, PacketsInBlock, TotalBlocks, PacketOf, BlockOk, Sum, NewBlock, SizeOf;
    hide LogOk, EndsOk;
    NewBlockOk(t, s.placed, b, now);
    SlotFrame(t, s, s', b);
    hide SlotsOk, PlacedOk;
    NewBlockFresh(PacketsInBlock(t, b), now);
    EndsFrame(t, s, s', b);
    hide OpenIds, ResolvedIds;
    CountsAfter(s.slots, b, s'.slots[b]);
    BudgetFrame(t, s, s');
  }

  lemma NewBlockFresh(total: nat, now: nat)
    ensures !NewBlock(total, now).endEmitted && !NewBlock(total, now).fallbackSent
  {
  }

  // ---- admitting a chunk ----

  ghost predicate SameResolved(s: Sender, s': Sender) {
    forall b :: IsResolved(s.slots, b) <==> IsResolved(s'.slots, b)
  }

  /** A slot that is not the Pending bucket of the new arrival's block. */
  lemma ArriveElsewhere(t: Transfer, s: Sender, s': Sender, c: nat, b: nat)
    requires b in s.slots && SlotOk(t, s, b) && b in s'.slots && s'.slots[b] == s.slots[b]
    requires s'.placed == s.placed && s'.arrived == s.arrived + {c}
    requires s.slots[b].Pending? ==> BlockOf(t, c) != b
    ensures SlotOk(t, s', b)
  {
    hide ChunkIdOf, BlockOf, IndexOf, PacketsInBlock, TotalBlocks, BlockOk, PacketOf, ChunkOf, Ids;
    if s.slots[b].Pending? {
      assert forall k :: 0 <= k < |s.slots[b].bucket| ==> BufferedOk(t, s, b, s.slots[b].bucket[k]);
    }
  }

  lemma LogFrame(t: Transfer, s: Sender, s': Sender)
    requires LogOk(t, s) && s'.log == s.log && s.placed <= s'.placed
    requires forall b :: WasOpened(s.slots, b) ==> WasOpened(s'.slots, b)
    ensures LogOk(t, s')
  {
    hide ChunkIdOf, BlockOf, IndexOf, PacketsInBlock, TotalBlocks, PacketOf;
    forall d | d in s'.log ensures LoggedOk(t, s', d) {
      assert LoggedOk(t, s, d);
    }
  }

  /** A chunk arrives for a block that is Open or Resolved. */
  lemma ArriveKeeps(t: Transfer, s: Sender, c: nat)
    requires Inv(t, s) && c < TotalChunks(t) && WasOpened(s.slots, BlockOf(t, c))
    ensures var s' := s.(arrived := s.arrived + {c});
            Core(t, s') && Settled(t, s', {c}) && Grows(s, s')
  {
    hide ChunkIdOf, BlockOf, IndexOf, PacketsInBlock, TotalBlocks, BlockOk, PacketOf, ChunkOf, SlotOk, LoggedOk,
        EndsMatch;
    var s' := s.(arrived := s.arrived + {c});
    LogFrame(t, s, s');
    hide LogOk;
    forall b | b in s'.slots ensures SlotOk(t, s', b) {
      ArriveElsewhere(t, s, s', c, b);
    }
  }

  function BucketOf(slots: map<nat, Slot>, b: nat): seq<EncryptedChunk> {
    if IsPending(slots, b) then slots[b].bucket else []
  }

  /** A chunk arrives for a block that has no pipeline slot. */
  ghost predicate BufferNext(t: Transfer, s: Sender, c: nat, s': Sender) {
    var b := BlockOf(t, c);
    && !WasOpened(s.slots, b)
    && s' == s.(arrived := s.arrived + {c}, slots := s.slots[b := Pending(BucketOf(s.slots, b) + [ChunkOf(t, c)])])
  }

  lemma BucketOk(t: Transfer, s: Sender, b: nat)
    requires Inv(t, s) && !WasOpened(s.slots, b)
    ensures BufferOk(t, s, b, BucketOf(s.slots, b)) && ArrivedIn(t, s, b) <= Ids(BucketOf(s.slots, b))
  {
    hide BlockOf, Ids, BufferedOk, LogOk, EndsOk, CountersOk, BudgetOk, PlacedOk;
    if b in s.slots {
      assert SlotOk(t, s, b);
    }
  }

  lemma AppendOk(t: Transfer, s: Sender, b: nat, bucket: seq<EncryptedChunk>, c: nat, s': Sender)
    requires BufferOk(t, s, b, bucket) && c < TotalChunks(t) && c !in s.arrived && c !in s.placed && BlockOf(t, c) == b
    requires s'.arrived == s.arrived + {c} && s'.placed == s.placed
    ensures BufferOk(t, s', b, bucket + [ChunkOf(t, c)])
  {
    hide BlockOf, PacketOf;
    var more := bucket + [ChunkOf(t, c)];
    forall k | 0 <= k < |more| ensures BufferedOk(t, s', b, more[k]) {
      assert k < |bucket| ==> BufferedOk(t, s, b, more[k]);
    }
    assert forall k :: 0 <= k < |bucket| ==> bucket[k].chunkId in s.arrived && more[k] == bucket[k];
  }

  lemma BufferSlot(t: Transfer, s: Sender, c: nat, s': Sender)
    requires Inv(t, s) && c < TotalChunks(t) && c !in s.arrived && BufferNext(t, s, c, s')
    ensures SlotOk(t, s', BlockOf(t, c))
  {
    hide Inv, IndexOf, ChunkIdOf, PacketsInBlock, TotalBlocks, BlockOf, Ids, PacketOf, BufferOk, BucketOf;
    ChunkPlace(t, c);
    var b := BlockOf(t, c);
    var was := BucketOf(s.slots, b);
    BucketOk(t, s, b);
    InvCore(t, s);
    PlacedArrived(t, s, c);
    AppendOk(t, s, b, was, c, s');
    IdsSnoc(was, ChunkOf(t, c));
    assert ChunkOf(t, c).chunkId == c;
    hide ChunkOf;
  }

  lemma InvCore(t: Transfer, s: Sender)
    requires Inv(t, s)
    ensures Core(t, s)
  {
  }

  lemma IdsSnoc(bucket: seq<EncryptedChunk>, chunk: EncryptedChunk)
    ensures Ids(bucket + [chunk]) == Ids(bucket) + {chunk.chunkId}
  {
    var more := bucket + [chunk];
    assert more[|bucket|] == chunk;
    forall c | c in Ids(bucket) ensures c in Ids(more) {
      var k :| 0 <= k < |bucket| && bucket[k].chunkId == c;
      assert more[k].chunkId == c;
    }
  }

  lemma BufferKeeps(t: Transfer, s: Sender, c: nat, s': Sender)
    requires Inv(t, s) && c < TotalChunks(t) && c !in s.arrived && BufferNext(t, s, c, s')
    ensures Inv(t, s') && Grows(s, s') && SameResolved(s, s')
  {
    hide ChunkIdOf, BlockOf, IndexOf, PacketsInBlock, TotalBlocks, PacketOf, ChunkOf, SlotOk, Sum, SizeOf;
    hide OpenIds, ResolvedIds, LoggedOk, BucketOf, EndsOk, LogOk, SlotsOk;
    var b := BlockOf(t, c);
    BufferSlots(t, s, c, s');
    LogFrame(t, s, s');
    EndsFrame(t, s, s', b);
    CountsAfter(s.slots, b, s'.slots[b]);
    BudgetFrame(t, s, s');
  }

  lemma BufferSlots(t: Transfer, s: Sender, c: nat, s': Sender)
    requires Inv(t, s) && c < TotalChunks(t) && c !in s.arrived && BufferNext(t, s, c, s')
    ensures SlotsOk(t, s')
  {
    BufferSlot(t, s, c, s');
    hide BlockOf, TotalBlocks, BlockOk, ChunkOf, SlotOk, LogOk, EndsOk, CountersOk, BudgetOk, PlacedOk, BucketOf;
    forall b' | b' in s'.slots ensures SlotOk(t, s', b') {
      if b' != BlockOf(t, c) {
        ArriveElsewhere(t, s, s', c, b');
      }
    }
  }

  /** `admit_or_buffer` on a chunk that arrives for the first time. */
  lemma AdmitKeeps(t: Transfer, s: Sender, c: nat, now: nat)
    requires Inv(t, s) && c < TotalChunks(t) && c !in s.arrived
    ensures var s' := Admit(t, s, ChunkOf(t, c), now);
            && Inv(t, s') && Grows(s, s') && SameResolved(s, s')
            && s'.arrived == s.arrived + {c}
            && s'.named == s.named && s'.completed == s.completed
            && (IsResolved(s.slots, BlockOf(t, c)) ==> s' == s.(arrived := s.arrived + {c}))
  {
    hide ChunkIdOf, BlockOf, IndexOf, PacketsInBlock, TotalBlocks, PacketOf, Place, Core, BlockOk;
    var s' := Admit(t, s, ChunkOf(t, c), now);
    var b := BlockOf(t, c);
    var s1 := s.(arrived := s.arrived + {c});
    PlacedArrived(t, s, c);
    if WasOpened(s.slots, b) {
      ArriveKeeps(t, s, c);
      if IsOpen(s.slots, b) {
        PlaceKeeps(t, s1, c, now, {c});
        assert {c} - {c} == {};
      } else {
        assert Settled(t, s1, {});
      }
    } else if IsPending(s.slots, b) || s.openSlots >= t.pipelineDepth {
      assert [] + [ChunkOf(t, c)] == [ChunkOf(t, c)];
      BufferKeeps(t, s, c, s');
    } else {
      ChunkPlace(t, c);
      OpenKeeps(t, s, b, now, {});
      var s2 := OpenBlock(t, s, b, now);
      assert ArrivedIn(t, s, b) == {};
      assert {} + ArrivedIn(t, s, b) == {};
      ArriveKeeps(t, s2, c);
      var s3 := s2.(arrived := s2.arrived + {c});
      assert s3 == OpenBlock(t, s1, b, now);
      PlaceKeeps(t, s3, c, now, {c});
      assert {c} - {c} == {};
    }
  }

  lemma PlacedArrived(t: Transfer, s: Sender, c: nat)
    requires Core(t, s)
    ensures c in s.placed ==> c in s.arrived
  {
  }

  /** What admitting a chunk needs before it places it. */
  lemma AdmitReady(t: Transfer, s: Sender, c: nat, now: nat)
    requires Inv(t, s) && c < TotalChunks(t) && c !in s.arrived
    ensures c !in s.placed
    ensures var b, s' := BlockOf(t, c), s.(arrived := s.arrived + {c});
            && (IsOpen(s.slots, b) ==> SlotsOk(t, s'))
            && (b !in s.slots && s.openSlots < t.pipelineDepth ==> SlotsOk(t, OpenBlock(t, s', b, now)))
  {
    hide BlockOf, IndexOf, ChunkIdOf, PacketsInBlock, TotalBlocks, PacketOf, BlockOk, NewBlock;
    PlacedArrived(t, s, c);
    var b := BlockOf(t, c);
    if IsOpen(s.slots, b) {
      ArriveKeeps(t, s, c);
    } else if b !in s.slots && s.openSlots < t.pipelineDepth {
      ChunkPlace(t, c);
      OpenKeeps(t, s, b, now, {});
      assert ArrivedIn(t, s, b) == {};
      assert {} + ArrivedIn(t, s, b) == {};
      ArriveKeeps(t, OpenBlock(t, s, b, now), c);
    }
  }

  /** Which chunks go out at once: those of an Open block, and those of an unseen block while the
      pipeline has room. Any other, unless its block is Resolved, goes last into its bucket. */
  lemma AdmitDecides(t: Transfer, s: Sender, c: nat, now: nat)
    requires Inv(t, s) && c < TotalChunks(t) && c !in s.arrived
    ensures var b, s' := BlockOf(t, c), Admit(t, s, ChunkOf(t, c), now);
            var room := b !in s.slots && s.openSlots < t.pipelineDepth;
            && (c in s'.placed <==> IsOpen(s.slots, b) || room)
            && s'.openSlots == s.openSlots + One(room)
            && (c !in s'.placed ==>
                  && s'.log == s.log
                  && (IsResolved(s.slots, b) || (IsPending(s'.slots, b)
                        && s'.slots[b].bucket == BucketOf(s.slots, b) + [ChunkOf(t, c)])))
  {
    AdmitReady(t, s, c, now);
    var b, s1 := BlockOf(t, c), s.(arrived := s.arrived + {c});
    hide Inv, SlotsOk, BlockOf, IndexOf, Place, NewBlock, PacketOf, BlockOk;
    if IsOpen(s.slots, b) {
      PlaceNext(t, s1, c, now);
    } else if b !in s.slots && s.openSlots < t.pipelineDepth {
      PlaceNext(t, OpenBlock(t, s1, b, now), c, now);
    }
  }

  // ---- draining ----

  lemma PlaceBufferedKeeps(t: Transfer, s: Sender, b: nat, bucket: seq<EncryptedChunk>, now: nat)
    requires Core(t, s) && IsOpen(s.slots, b) && 0 < |bucket| && BufferOk(t, s, b, bucket)
    requires Settled(t, s, Ids(bucket))
    ensures var s' := PlaceBuffered(t, s, b, bucket[0], now);
            && Core(t, s') && IsOpen(s'.slots, b) && BufferOk(t, s', b, bucket[1..])
            && Settled(t, s', Ids(bucket[1..])) && Grows(s, s')
            && s'.slots == s.slots[b := s'.slots[b]]
            && s'.arrived == s.arrived && s'.named == s.named && s'.openSlots == s.openSlots
            && s'.completed == s.completed
  {
    hide ChunkIdOf, BlockOf, IndexOf, PacketsInBlock, TotalBlocks, PacketOf, Place, Core, BlockOk, ChunkOf, Grows, Ids;
    var c := bucket[0].chunkId;
    assert BufferedOk(t, s, b, bucket[0]);
    PlaceKeeps(t, s, c, now, Ids(bucket));
    var s' := PlaceBuffered(t, s, b, bucket[0], now);
    var rest := bucket[1..];
    forall k | 0 <= k < |rest| ensures BufferedOk(t, s', b, rest[k]) {
      assert BufferedOk(t, s, b, bucket[k + 1]);
    }
    IdsRest(bucket);
  }

  lemma IdsRest(bucket: seq<EncryptedChunk>)
    requires 0 < |bucket|
    ensures Ids(bucket) - {bucket[0].chunkId} <= Ids(bucket[1..])
  {
    forall c | c in Ids(bucket) && c != bucket[0].chunkId ensures c in Ids(bucket[1..]) {
      var k :| 0 <= k < |bucket| && bucket[k].chunkId == c;
      assert bucket[1..][k - 1].chunkId == c;
    }
  }

  lemma {:induction false} PlaceAllKeeps(t: Transfer, s: Sender, b: nat, bucket: seq<EncryptedChunk>, now: nat)
    requires Core(t, s) && IsOpen(s.slots, b) && BufferOk(t, s, b, bucket)
    requires Settled(t, s, Ids(bucket))
    ensures var s' := PlaceAll(t, s, b, bucket, now);
            && Inv(t, s') && IsOpen(s'.slots, b) && Grows(s, s')
            && s'.slots == s.slots[b := s'.slots[b]]
            && s'.arrived == s.arrived && s'.named == s.named && s'.openSlots == s.openSlots
            && s'.completed == s.completed
    decreases |bucket|
  {
    hide BlockOf, PlaceBuffered, Core, BufferOk, Settled;
    if |bucket| == 0 {
      assert Ids(bucket) == {};
    } else {
      PlaceBufferedKeeps(t, s, b, bucket, now);
      PlaceAllKeeps(t, PlaceBuffered(t, s, b, bucket[0], now), b, bucket[1..], now);
    }
  }

  lemma OpenForDrain(t: Transfer, s: Sender, b: nat, now: nat)
    requires Inv(t, s) && IsPending(s.slots, b) && s.openSlots < t.pipelineDepth
    ensures var s1, bucket := OpenBlock(t, s, b, now), s.slots[b].bucket;
            Core(t, s1) && Settled(t, s1, Ids(bucket)) && BufferOk(t, s1, b, bucket) && Grows(s, s1)
  {
    PendingFacts(t, s, b);
    hide BlockOf, TotalBlocks, NewBlock, Core, Settled, BufferOk, Ids, PacketsInBlock, Grows, PendingIds;
    var bucket := s.slots[b].bucket;
    OpenKeeps(t, s, b, now, {});
    var s1 := OpenBlock(t, s, b, now);
    BufferFrame(t, s, s1, b, bucket);
    assert {} + ArrivedIn(t, s, b) == ArrivedIn(t, s, b);
    SettledMore(t, s1, ArrivedIn(t, s, b), Ids(bucket));
  }

  /** Opening one Pending block and admitting everything buffered for it. */
  lemma OpenPendingKeeps(t: Transfer, s: Sender, b: nat, now: nat)
    requires Inv(t, s) && IsPending(s.slots, b) && s.openSlots < t.pipelineDepth
    ensures var s' := OpenPending(t, s, b, now);
            && Inv(t, s') && IsOpen(s'.slots, b) && Grows(s, s')
            && s'.slots == s.slots[b := s'.slots[b]]
            && s'.arrived == s.arrived && s'.named == s.named && s'.openSlots == s.openSlots + 1
            && s'.completed == s.completed
  {
    hide NewBlock, PlaceAll, Core, Settled, BufferOk, Ids, PacketsInBlock, Grows;
    OpenForDrain(t, s, b, now);
    var s1, bucket := OpenBlock(t, s, b, now), s.slots[b].bucket;
    PlaceAllKeeps(t, s1, b, bucket, now);
    GrowsOn(s, s1, PlaceAll(t, s1, b, bucket, now));
  }

  lemma GrowsOn(s: Sender, s1: Sender, s2: Sender)
    requires Grows(s, s1) && Grows(s1, s2)
    ensures Grows(s, s2)
  {
  }

  lemma PendingFacts(t: Transfer, s: Sender, b: nat)
    requires Inv(t, s) && IsPending(s.slots, b)
    ensures b < TotalBlocks(t) && BufferOk(t, s, b, s.slots[b].bucket) && ArrivedIn(t, s, b) <= Ids(s.slots[b].bucket)
  {
    assert SlotOk(t, s, b);
  }

  lemma BufferFrame(t: Transfer, s: Sender, s': Sender, b: nat, bucket: seq<EncryptedChunk>)
    requires BufferOk(t, s, b, bucket) && s'.arrived == s.arrived && s'.placed == s.placed
    ensures BufferOk(t, s', b, bucket)
  {
    assert forall k :: 0 <= k < |bucket| ==> BufferedOk(t, s, b, bucket[k]);
  }

  lemma SettledMore(t: Transfer, s: Sender, except: set<nat>, more: set<nat>)
    requires Settled(t, s, except) && except <= more
    ensures Settled(t, s, more)
  {
    hide BlockOf;
  }

  /** `drain_pending`: it keeps the invariant, resolves nothing, and leaves either a full
      pipeline or no Pending block. */
  lemma {:induction false} DrainKeeps(t: Transfer, s: Sender, now: nat)
    requires Inv(t, s)
    ensures var s' := Drain(t, s, now);
            && Inv(t, s') && Grows(s, s') && SameResolved(s, s')
            && s'.arrived == s.arrived && s'.named == s.named && s'.completed == s.completed
            && (s'.openSlots == t.pipelineDepth || PendingIds(s'.slots) == {})
    decreases |PendingIds(s.slots)|
  {
    hide OpenPending, Core, Settled;
    if s.openSlots < t.pipelineDepth && PendingIds(s.slots) != {} {
      var b := Least(PendingIds(s.slots));
      OpenPendingKeeps(t, s, b, now);
      OpenPendingShrinks(t, s, b, now);
      DrainKeeps(t, OpenPending(t, s, b, now), now);
    } else {
      assert s.openSlots <= t.pipelineDepth by { DepthHeld(t, s); }
    }
  }

  lemma DepthHeld(t: Transfer, s: Sender)
    requires Inv(t, s)
    ensures 0 <= s.openSlots == |OpenIds(s.slots)| <= t.pipelineDepth
  {
  }

  /** Whatever the drain opened has a smaller id than whatever it left Pending. */
  lemma {:induction false} DrainAscending(t: Transfer, s: Sender, now: nat, first: nat, left: nat)
    requires Inv(t, s)
    requires IsPending(s.slots, first) && !IsPending(Drain(t, s, now).slots, first)
    requires IsPending(Drain(t, s, now).slots, left)
    ensures first < left
    decreases |PendingIds(s.slots)|
  {
    hide OpenPending, Core, Settled;
    var b := Least(PendingIds(s.slots));
    assert first in PendingIds(s.slots);
    OpenPendingKeeps(t, s, b, now);
    OpenPendingShrinks(t, s, b, now);
    var s1 := OpenPending(t, s, b, now);
    DrainOnlyOpens(t, s1, now, left);
    assert left in PendingIds(s1.slots);
    if first != b {
      DrainAscending(t, s1, now, first, left);
    }
  }

  lemma {:induction false} DrainOnlyOpens(t: Transfer, s: Sender, now: nat, b: nat)
    requires Inv(t, s) && IsPending(Drain(t, s, now).slots, b)
    ensures IsPending(s.slots, b)
    decreases |PendingIds(s.slots)|
  {
    hide OpenPending, Core, Settled;
    if s.openSlots < t.pipelineDepth && PendingIds(s.slots) != {} {
      var next := Least(PendingIds(s.slots));
      OpenPendingKeeps(t, s, next, now);
      OpenPendingShrinks(t, s, next, now);
      DrainOnlyOpens(t, OpenPending(t, s, next, now), now, b);
    }
  }
}
