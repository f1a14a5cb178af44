/** The block manager over whole event sequences: acks, the silence fallback, the loop
    and its exit. */
module SenderRuns {
  import opened Transfers
  import opened Sums
  import opened Protocol
  import opened Sender
  import opened SenderInvariant

  // ---- a Complete ack ----

  /** Any Complete, for an Open, Pending, unseen or already Resolved block, in range or not. */
  lemma CompleteKeeps(t: Transfer, s: Sender, b: nat)
    requires Inv(t, s)
    ensures var s' := OnComplete(s, b);
            && Inv(t, s') && Grows(s, s')
            && (forall x :: IsResolved(s'.slots, x) <==> IsResolved(s.slots, x) || x == b)
            && s'.completed == s.completed + One(!IsResolved(s.slots, b))
            && s'.arrived == s.arrived && s'.named == s.named
  {
    if !IsResolved(s.slots, b) {
      hide OpenIds, ResolvedIds, BlockOf, PacketsInBlock, TotalBlocks, SlotsOk, PlacedOk, LogOk, EndsOk, BudgetOk, Sum,
          SizeOf;
      CountsAfter(s.slots, b, Resolved);
      OpenCounted(s.slots, b);
      var s' := OnComplete(s, b);
      assert CountersOk(t, s');
      hide CountersOk;
      ResolveFrame(t, s, s', b);
    }
  }

  lemma ResolveFrame(t: Transfer, s: Sender, s': Sender, b: nat)
    requires Inv(t, s) && s'.slots == s.slots[b := Resolved]
    requires s' == s.(slots := s'.slots, openSlots := s'.openSlots, completed := s'.completed)
    ensures SlotsOk(t, s') && PlacedOk(t, s') && LogOk(t, s') && EndsOk(t, s') && BudgetOk(t, s')
    ensures Settled(t, s', {}) && Grows(s, s')
  {
    hide ChunkIdOf, BlockOf, IndexOf, PacketsInBlock, TotalBlocks, PacketOf, LogOk, EndsOk, SlotsOk, PlacedOk,
        CountersOk, BudgetOk;
    SlotFrame(t, s, s', b);
    EndsFrame(t, s, s', b);
    BudgetFrame(t, s, s');
  }

  lemma OpenCounted(slots: map<nat, Slot>, b: nat)
    ensures IsOpen(slots, b) ==> 0 < |OpenIds(slots)|
  {
    if IsOpen(slots, b) {
      assert b in OpenIds(slots);
    }
  }

  // ---- resending ----

  lemma {:induction false} CachedLogged(t: Transfer, s: Sender, b: nat, e: BlockState, ids: seq<nat>)
    requires BlockOk(t, s.placed, b, e)
    ensures |Cached(e.packets, ids)| <= |ids|
    ensures forall d :: d in Cached(e.packets, ids) ==> d.Data? && LoggedOk(t, s, d)
  {
    if |ids| > 0 {
      var n := |ids| - 1;
      CachedLogged(t, s, b, e, ids[..n]);
      if ids[n] < |e.packets| && e.packets[ids[n]].Some? {
        CacheEntryLogged(t, s, b, e, ids[n]);
      }
    }
  }

  lemma CacheEntryLogged(t: Transfer, s: Sender, b: nat, e: BlockState, i: nat)
    requires BlockOk(t, s.placed, b, e) && i < |e.packets| && e.packets[i].Some?
    ensures e.packets[i].value.Data? && LoggedOk(t, s, e.packets[i].value)
  {
    hide ChunkIdOf, BlockOf, IndexOf, PacketsInBlock, TotalBlocks;
    Places(t, b);
  }

  lemma {:induction false} FlattenPrefix(packets: seq<Option<Datagram>>)
    requires forall i :: 0 <= i < |packets| ==> packets[i].Some?
    ensures |Flatten(packets)| == |packets|
    ensures forall i :: 0 <= i < |packets| ==> Flatten(packets)[i] == packets[i].value
  {
    if |packets| > 0 {
      FlattenPrefix(packets[..|packets| - 1]);
    }
  }

  /** Once BlockEnd is out the cache holds the whole block, and that is what the fallback resends. */
  lemma WholeBlockCached(t: Transfer, s: Sender, b: nat)
    requires Inv(t, s) && IsOpen(s.slots, b) && s.slots[b].block.endEmitted
    ensures var resent := Flatten(s.slots[b].block.packets);
            && |resent| == PacketsInBlock(t, b)
            && (forall i :: 0 <= i < |resent| ==>
                  ChunkIdOf(t, b, i) in s.placed && resent[i] == PacketOf(t, ChunkIdOf(t, b, i)))
  {
    hide ChunkIdOf, BlockOf, IndexOf, PacketsInBlock, TotalBlocks, PacketOf;
    assert SlotOk(t, s, b);
    var e := s.slots[b].block;
    CountSomeAll(e.packets);
    FlattenPrefix(e.packets);
    assert forall i :: 0 <= i < e.total ==> e.packets[i].Some?;
  }

  lemma ExtendLog(t: Transfer, s: Sender, s': Sender, extra: seq<Datagram>)
    requires SlotsOk(t, s) && PlacedOk(t, s) && LogOk(t, s)
    requires s'.slots == s.slots && s'.placed == s.placed && s'.arrived == s.arrived && s'.log == s.log + extra
    requires forall d :: d in extra ==> LoggedOk(t, s, d)
    ensures SlotsOk(t, s') && PlacedOk(t, s') && LogOk(t, s')
  {
    hide ChunkIdOf, BlockOf, IndexOf, PacketsInBlock, TotalBlocks, PacketOf, BlockOk, ChunkOf, Ids;
    forall b | b in s'.slots ensures SlotOk(t, s', b) {
      assert SlotOk(t, s, b);
      if s.slots[b].Pending? {
        assert forall k :: 0 <= k < |s.slots[b].bucket| ==> BufferedOk(t, s, b, s.slots[b].bucket[k]);
      }
    }
    forall d | d in s'.log ensures LoggedOk(t, s', d) {
      assert LoggedOk(t, s, d);
    }
  }

  /** An Open block's timer or fallback flag changes and cached packets go out again. */
  ghost predicate ResendNext(t: Transfer, s: Sender, b: nat, resend: seq<Datagram>, end: bool, s': Sender) {
    && IsOpen(s.slots, b) && IsOpen(s'.slots, b)
    && var e, e' := s.slots[b].block, s'.slots[b].block;
       && s'.slots == s.slots[b := Open(e')]
       && e' == e.(lastAckActivity := e'.lastAckActivity, fallbackSent := e'.fallbackSent)
       && e'.fallbackSent == (e.fallbackSent || end)
       && (end ==> e.endEmitted && !e.fallbackSent)
       && (forall d :: d in resend ==> d.Data? && LoggedOk(t, s, d))
       && s'.log == s.log + resend + (if end then [BlockEnd(b, e.total)] else [])
       && s' == s.(slots := s'.slots, log := s'.log, retransmitted := s.retransmitted + |resend|, named := s'.named)
  }

  lemma ResendEnds(t: Transfer, s: Sender, b: nat, resend: seq<Datagram>, end: bool, s': Sender)
    requires Inv(t, s) && ResendNext(t, s, b, resend, end, s')
    ensures EndsOk(t, s')
  {
    OpenFacts(t, s, b);
    assert EndsOk(t, s);
    hide Inv, PacketsInBlock, TotalBlocks, LoggedOk;
    var tail := if end then [BlockEnd(b, PacketsInBlock(t, b))] else [];
    assert multiset(s'.log) == multiset(s.log) + multiset(resend) + multiset(tail);
    forall b' | 0 <= b' < TotalBlocks(t)
      ensures EndsMatch(s'.slots, b', multiset(s'.log)[BlockEnd(b', PacketsInBlock(t, b'))])
    {
      assert EndsMatch(s.slots, b', multiset(s.log)[BlockEnd(b', PacketsInBlock(t, b'))]);
      assert BlockEnd(b', PacketsInBlock(t, b')) !in resend;
    }
  }

  lemma ResendLog(t: Transfer, s: Sender, b: nat, resend: seq<Datagram>, end: bool, s': Sender)
    requires Inv(t, s) && ResendNext(t, s, b, resend, end, s')
    ensures SlotsOk(t, s') && PlacedOk(t, s') && LogOk(t, s')
  {
    assert SlotOk(t, s, b);
    var e := s.slots[b].block;
    if end {
      WholeBlockCached(t, s, b);
    }
    var s1 := s.(slots := s'.slots);
    assert SlotOk(t, s1, b);
    hide ChunkIdOf, PacketsInBlock, TotalBlocks, SlotsOk, LogOk, PlacedOk, EndsOk, CountersOk, BudgetOk;
    SlotFrame(t, s, s1, b);
    var extra := resend + if end then [BlockEnd(b, e.total)] else [];
    forall d | d in extra ensures LoggedOk(t, s1, d) {
      if d in resend {
        assert LoggedOk(t, s, d);
      }
    }
    assert s'.log == s1.log + extra;
    ExtendLog(t, s1, s', extra);
  }

  lemma ResendKeeps(t: Transfer, s: Sender, b: nat, resend: seq<Datagram>, end: bool, s': Sender)
    requires Inv(t, s) && ResendNext(t, s, b, resend, end, s') && BudgetOk(t, s')
    ensures Inv(t, s') && Grows(s, s') && SameResolved(s, s')
  {
    hide ChunkIdOf, BlockOf, PacketsInBlock, TotalBlocks, LoggedOk, SlotsOk, LogOk, EndsOk, PlacedOk, CountersOk,
        BudgetOk;
    ResendLog(t, s, b, resend, end, s');
    ResendEnds(t, s, b, resend, end, s');
    ResendCounters(t, s, b, resend, end, s');
  }

  lemma ResendCounters(t: Transfer, s: Sender, b: nat, resend: seq<Datagram>, end: bool, s': Sender)
    requires Inv(t, s) && ResendNext(t, s, b, resend, end, s')
    ensures CountersOk(t, s')
  {
    CountsAfter(s.slots, b, s'.slots[b]);
    hide BlockOf, PacketsInBlock, TotalBlocks, LoggedOk, SlotsOk, LogOk, EndsOk, PlacedOk, BudgetOk, Settled, OpenIds,
        ResolvedIds, Sum, SizeOf;
  }

  /** A Missing ack, whatever it names. */
  lemma MissingKeeps(t: Transfer, s: Sender, b: nat, missing: seq<nat>, now: nat)
    requires Inv(t, s)
    ensures var s' := OnMissing(s, b, missing, now);
            && Inv(t, s') && Grows(s, s') && SameResolved(s, s')
            && s'.arrived == s.arrived && s'.named == s.named + |missing| && s'.completed == s.completed
  {
    hide ChunkIdOf, BlockOf, PacketsInBlock, TotalBlocks, LoggedOk, PlacedOk, LogOk, EndsOk, CountersOk, Cached, Sum;
    var s' := OnMissing(s, b, missing, now);
    if IsOpen(s.slots, b) {
      assert SlotOk(t, s, b);
      hide SlotsOk;
      var e := s.slots[b].block;
      var resend := Cached(e.packets, missing);
      CachedLogged(t, s, b, e, missing);
      hide BlockOk;
      assert s.log + resend == s.log + resend + [];
      BudgetFrame(t, s, s');
      hide BudgetOk;
      ResendKeeps(t, s, b, resend, false, s');
    } else {
      NamedKeeps(t, s, |missing|);
    }
  }

  lemma NamedKeeps(t: Transfer, s: Sender, more: nat)
    requires Inv(t, s)
    ensures Inv(t, s.(named := s.named + more))
  {
    var s' := s.(named := s.named + more);
    hide BlockOf, PacketsInBlock, TotalBlocks, ChunkIdOf, BlockOk;
    assert s'.log == s.log + [];
    ExtendLog(t, s, s', []);
    assert EndsOk(t, s') by { EndsOf(t, s, s'); }
    hide SlotsOk, LogOk, PlacedOk, EndsOk;
    BudgetFrame(t, s, s');
  }

  lemma EndsOf(t: Transfer, s: Sender, s': Sender)
    requires EndsOk(t, s) && s'.log == s.log && s'.slots == s.slots
    ensures EndsOk(t, s')
  {
    hide PacketsInBlock, TotalBlocks;
    forall b | 0 <= b < TotalBlocks(t)
      ensures EndsMatch(s'.slots, b, multiset(s'.log)[BlockEnd(b, PacketsInBlock(t, b))])
    {
      assert EndsMatch(s.slots, b, multiset(s.log)[BlockEnd(b, PacketsInBlock(t, b))]);
    }
  }

  lemma OpenFacts(t: Transfer, s: Sender, b: nat)
    requires Inv(t, s) && IsOpen(s.slots, b)
    ensures b < TotalBlocks(t) && s.slots[b].block.total == PacketsInBlock(t, b) == |s.slots[b].block.packets|
  {
    assert SlotOk(t, s, b);
    BlockShape(t, s.placed, b, s.slots[b].block);
  }

  lemma FallbackNext(t: Transfer, s: Sender, b: nat, now: nat)
    requires Inv(t, s) && IsStale(t, s.slots, b, now)
    ensures var resend := Flatten(s.slots[b].block.packets);
            && |resend| == PacketsInBlock(t, b) && b < TotalBlocks(t)
            && ResendNext(t, s, b, resend, true, ResendBlock(t, s, b, now))
  {
    hide Inv, ChunkIdOf, PacketsInBlock, TotalBlocks, PacketOf, Flatten, LoggedOk;
    WholeBlockCached(t, s, b);
    OpenFacts(t, s, b);
    FallbackLogged(t, s, b, Flatten(s.slots[b].block.packets));
  }

  lemma FallbackBudget(t: Transfer, s: Sender, s': Sender, b: nat)
    requires BudgetOk(t, s) && b < TotalBlocks(t)
    requires FallbackAt(t, s.slots, b) == 0 && FallbackAt(t, s'.slots, b) == PacketsInBlock(t, b)
    requires s'.slots == s.slots[b := s'.slots[b]] && s'.named == s.named
    requires s'.retransmitted == s.retransmitted + PacketsInBlock(t, b)
    ensures BudgetOk(t, s')
  {
    hide PacketsInBlock, TotalBlocks;
    SumBump(FallbackCost(t, s.slots), FallbackCost(t, s'.slots), TotalBlocks(t), b, PacketsInBlock(t, b));
  }

  lemma ResendBlockKeeps(t: Transfer, s: Sender, b: nat, now: nat)
    requires Inv(t, s)
    ensures var s' := ResendBlock(t, s, b, now);
            && Inv(t, s') && Grows(s, s') && SameResolved(s, s')
            && s'.arrived == s.arrived && s'.named == s.named && s'.completed == s.completed
  {
    if IsStale(t, s.slots, b, now) {
      var s' := ResendBlock(t, s, b, now);
      FallbackNext(t, s, b, now);
      hide PacketsInBlock, TotalBlocks, SlotsOk, PlacedOk, LogOk, EndsOk, CountersOk, Flatten, Settled, Grows,
          SameResolved;
      FallbackBudget(t, s, s', b);
      hide BudgetOk, ResendNext;
      ResendKeeps(t, s, b, Flatten(s.slots[b].block.packets), true, s');
    }
  }

  lemma FallbackLogged(t: Transfer, s: Sender, b: nat, resend: seq<Datagram>)
    requires |resend| == PacketsInBlock(t, b)
    requires forall i :: 0 <= i < |resend| ==>
               ChunkIdOf(t, b, i) in s.placed && resend[i] == PacketOf(t, ChunkIdOf(t, b, i))
    ensures forall d :: d in resend ==> d.Data? && LoggedOk(t, s, d)
  {
    hide ChunkIdOf, BlockOf, IndexOf, PacketsInBlock, TotalBlocks;
    Places(t, b);
  }

  /** `retransmit_stale_blocks`, in whatever order the map is walked. */
  lemma {:induction false} ResendStaleKeeps(t: Transfer, s: Sender, order: seq<nat>, now: nat)
    requires Inv(t, s)
    ensures var s' := ResendStale(t, s, order, now);
            && Inv(t, s') && Grows(s, s') && SameResolved(s, s')
            && s'.arrived == s.arrived && s'.named == s.named && s'.completed == s.completed
  {
    hide Inv, ResendBlock;
    if |order| > 0 {
      var n := |order| - 1;
      ResendStaleKeeps(t, s, order[..n], now);
      ResendBlockKeeps(t, ResendStale(t, s, order[..n], now), order[n], now);
    }
  }

  // ---- the loop ----

  /** The manager may be given any acks and timeouts, and each chunk of the file at most once. */
  ghost predicate Acceptable(t: Transfer, s: Sender, e: Event) {
    match e
    case ChunkEvent(chunk) =>
      chunk == ChunkOf(t, chunk.chunkId) && chunk.chunkId < TotalChunks(t) && chunk.chunkId !in s.arrived
    case _ => true
  }

  ghost predicate AllAcceptable(t: Transfer, s: Sender, events: seq<Timed>)
    decreases |events|
  {
    |events| == 0 || !Running(t, s) ||
    (Acceptable(t, s, events[0].event) && AllAcceptable(t, Step(t, s, events[0].event, events[0].now), events[1..]))
  }

  /** Nothing admittable is left untried. */
  ghost predicate Drained(t: Transfer, s: Sender) {
    s.openSlots == t.pipelineDepth || PendingIds(s.slots) == {}
  }

  ghost predicate ResolvedBy(s: Sender, e: Event, s': Sender) {
    forall x :: IsResolved(s'.slots, x) <==> IsResolved(s.slots, x) || e == AckEvent(Complete(x))
  }

  lemma HandleKeeps(t: Transfer, s: Sender, e: Event, now: nat)
    requires Inv(t, s) && Acceptable(t, s, e)
    ensures var s' := Handle(t, s, e, now);
            && Inv(t, s') && Grows(s, s') && ResolvedBy(s, e, s')
            && s'.arrived == s.arrived + (if e.ChunkEvent? then {e.chunk.chunkId} else {})
            && s'.named == s.named + (if e.AckEvent? && e.ack.Missing? then |e.ack.missing| else 0)
            && s.completed <= s'.completed <= s.completed + 1
  {
    hide Inv, Grows, Admit, OnMissing, OnComplete, ResendStale, ChunkOf;
    match e
    case ChunkEvent(chunk) => AdmitKeeps(t, s, chunk.chunkId, now);
    case AckEvent(Missing(b, missing)) => MissingKeeps(t, s, b, missing, now);
    case AckEvent(Complete(b)) => CompleteKeeps(t, s, b);
    case Timeout(order) => ResendStaleKeeps(t, s, order, now);
  }

  /** One turn of the loop: whatever the event, the manager does not panic and every
      invariant is kept; only a Complete resolves, and only the block it names. */
  lemma StepKeeps(t: Transfer, s: Sender, e: Event, now: nat)
    requires Inv(t, s) && Acceptable(t, s, e)
    ensures var s' := Step(t, s, e, now);
            && Inv(t, s') && Drained(t, s') && Grows(s, s') && ResolvedBy(s, e, s')
            && s'.arrived == s.arrived + (if e.ChunkEvent? then {e.chunk.chunkId} else {})
            && s'.named == s.named + (if e.AckEvent? && e.ack.Missing? then |e.ack.missing| else 0)
            && s.completed <= s'.completed <= s.completed + 1
  {
    hide Inv, Grows, Handle, Drain;
    HandleKeeps(t, s, e, now);
    DrainKeeps(t, Handle(t, s, e, now), now);
    GrowsOn(s, Handle(t, s, e, now), Step(t, s, e, now));
  }

  lemma StartOk(t: Transfer)
    ensures Inv(t, START) && Drained(t, START)
  {
    assert OpenIds(START.slots) == {} && ResolvedIds(START.slots) == {} && PendingIds(START.slots) == {};
    SumNone(SizeOf(t, {}), TotalChunks(t));
  }

  lemma {:induction false} SumNone(f: nat -> nat, n: nat)
    requires forall i: nat :: i < n ==> f(i) == 0
    ensures Sum(f, n) == 0
  {
    if n > 0 {
      SumNone(f, n - 1);
    }
  }

  /** How many of the events the loop takes before it stops. */
  ghost function Taken(t: Transfer, s: Sender, events: seq<Timed>): (n: nat)
    ensures n <= |events|
    decreases |events|
  {
    if |events| == 0 || !Running(t, s) then 0
    else 1 + Taken(t, Step(t, s, events[0].event, events[0].now), events[1..])
  }

  /** One of the first `n` events is a Complete for block `x`. */
  ghost predicate Confirmed(events: seq<Timed>, n: nat, x: nat)
    requires n <= |events|
  {
    exists k :: 0 <= k < n && events[k].event == AckEvent(Complete(x))
  }

  lemma ConfirmedCons(events: seq<Timed>, n: nat, x: nat)
    requires n < |events|
    ensures Confirmed(events, n + 1, x) <==> events[0].event == AckEvent(Complete(x)) || Confirmed(events[1..], n, x)
  {
    if Confirmed(events, n + 1, x) {
      var k :| 0 <= k < n + 1 && events[k].event == AckEvent(Complete(x));
      assert k > 0 ==> events[1..][k - 1].event == AckEvent(Complete(x));
    }
    if Confirmed(events[1..], n, x) {
      var k :| 0 <= k < n && events[1..][k].event == AckEvent(Complete(x));
      assert events[k + 1].event == AckEvent(Complete(x));
    }
  }

  /** Every run of the manager, over any sequence of acks, timeouts and distinct chunks: the
      Resolved blocks are exactly those whose Complete it took. */
  lemma {:induction false} LoopKeeps(t: Transfer, s: Sender, events: seq<Timed>)
    requires Inv(t, s) && Drained(t, s) && s.completed <= TotalBlocks(t) && AllAcceptable(t, s, events)
    ensures var s' := Loop(t, s, events);
            && Inv(t, s') && Drained(t, s') && Grows(s, s') && s'.completed <= TotalBlocks(t)
            && (forall x :: IsResolved(s'.slots, x) <==>
                  IsResolved(s.slots, x) || Confirmed(events, Taken(t, s, events), x))
    decreases |events|
  {
    hide Inv, Drained, Step, TotalBlocks, Acceptable, Confirmed;
    if |events| > 0 && Running(t, s) {
      StepKeeps(t, s, events[0].event, events[0].now);
      var s1 := Step(t, s, events[0].event, events[0].now);
      LoopKeeps(t, s1, events[1..]);
      GrowsOn(s, s1, Loop(t, s1, events[1..]));
      forall x ensures Confirmed(events, Taken(t, s, events), x) <==>
                       events[0].event == AckEvent(Complete(x)) || Confirmed(events[1..], Taken(t, s1, events[1..]), x)
      {
        ConfirmedCons(events, Taken(t, s1, events[1..]), x);
      }
    } else {
      NoneConfirmed(events);
    }
  }

  lemma NoneConfirmed(events: seq<Timed>)
    ensures forall x :: !Confirmed(events, 0, x)
  {
  }

  // ---- what the invariant says ----

  /** Where an arrived chunk is: cached at its own index in its Open block, held exactly once
      in its own block's bucket, or part of a Resolved block. */
  lemma ChunkFate(t: Transfer, s: Sender, c: nat)
    requires Inv(t, s) && c in s.arrived
    ensures var b, i := BlockOf(t, c), IndexOf(t, c);
            b in s.slots && match s.slots[b]
                            case Open(e) => i < |e.packets| && e.packets[i] == Some(PacketOf(t, c))
                            case Pending(bucket) =>
                              exists k :: 0 <= k < |bucket| && bucket[k] == ChunkOf(t, c)
                                          && forall j :: 0 <= j < |bucket| && j != k ==> bucket[j].chunkId != c
                            case Resolved => true
  {
    hide ChunkIdOf, BlockOf, IndexOf, PacketsInBlock, TotalBlocks, PacketOf, ChunkOf;
    ChunkPlace(t, c);
    var b := BlockOf(t, c);
    assert SlotOk(t, s, b);
    if s.slots[b].Pending? {
      var bucket := s.slots[b].bucket;
      assert c in Ids(bucket);
      var k :| 0 <= k < |bucket| && bucket[k].chunkId == c;
      assert BufferedOk(t, s, b, bucket[k]);
      assert forall j :: 0 <= j < |bucket| && j != k ==> bucket[j].chunkId != c;
    }
  }

  /** What a block's slot holds, told from the set of arrived chunks alone. */
  ghost predicate AgreesWithArrivals(t: Transfer, s: Sender, b: nat) {
    if b !in s.slots then ArrivedIn(t, s, b) == {}
    else match s.slots[b]
    case Resolved => true
    case Pending(bucket) =>
      && Ids(bucket) == ArrivedIn(t, s, b) != {}
      && (forall k :: 0 <= k < |bucket| ==> bucket[k] == ChunkOf(t, bucket[k].chunkId))
      && (forall j, k :: 0 <= j < k < |bucket| ==> bucket[j] != bucket[k])
    case Open(e) =>
      && |e.packets| == PacketsInBlock(t, b)
      && (forall i :: 0 <= i < |e.packets| ==>
            e.packets[i] == if ChunkIdOf(t, b, i) in s.arrived then Some(PacketOf(t, ChunkIdOf(t, b, i))) else None)
      && (e.endEmitted <==> forall i :: 0 <= i < |e.packets| ==> ChunkIdOf(t, b, i) in s.arrived)
  }

  lemma OpenAgrees(t: Transfer, s: Sender, b: nat)
    requires Inv(t, s) && IsOpen(s.slots, b)
    ensures AgreesWithArrivals(t, s, b)
  {
    OpenCache(t, s, b);
    ArrivedIsPlaced(t, s, b);
    hide Inv, ChunkIdOf, PacketsInBlock, TotalBlocks, PacketOf;
  }

  lemma OpenCache(t: Transfer, s: Sender, b: nat)
    requires Inv(t, s) && IsOpen(s.slots, b)
    ensures var e := s.slots[b].block;
            && |e.packets| == PacketsInBlock(t, b)
            && (forall i :: 0 <= i < |e.packets| ==>
                  e.packets[i] ==
                  if ChunkIdOf(t, b, i) in s.placed then Some(PacketOf(t, ChunkIdOf(t, b, i))) else None)
            && (e.endEmitted <==> forall i :: 0 <= i < |e.packets| ==> ChunkIdOf(t, b, i) in s.placed)
  {
    hide ChunkIdOf, PacketsInBlock, TotalBlocks, PacketOf;
    assert SlotOk(t, s, b);
    var e := s.slots[b].block;
    assert BlockOk(t, s.placed, b, e);
    hide Inv;
    CountSomeAll(e.packets);
  }

  lemma ArrivedIsPlaced(t: Transfer, s: Sender, b: nat)
    requires Inv(t, s) && IsOpen(s.slots, b)
    ensures forall i: nat :: i < PacketsInBlock(t, b) ==>
              (ChunkIdOf(t, b, i) in s.arrived <==> ChunkIdOf(t, b, i) in s.placed)
  {
    hide Core, ChunkIdOf, BlockOf, PacketsInBlock, TotalBlocks;
    forall i: nat | i < PacketsInBlock(t, b)
      ensures ChunkIdOf(t, b, i) in s.arrived <==> ChunkIdOf(t, b, i) in s.placed
    {
      PlaceChunkId(t, b, i);
      PlacedArrived(t, s, ChunkIdOf(t, b, i));
    }
  }

  lemma PendingAgrees(t: Transfer, s: Sender, b: nat)
    requires Inv(t, s) && IsPending(s.slots, b)
    ensures AgreesWithArrivals(t, s, b)
  {
    hide ChunkIdOf, BlockOf, IndexOf, PacketsInBlock, TotalBlocks, PacketOf, ChunkOf, LogOk, EndsOk, CountersOk,
        BudgetOk;
    assert SlotOk(t, s, b);
    var bucket := s.slots[b].bucket;
    forall c | c in Ids(bucket) ensures c in ArrivedIn(t, s, b) {
      var k :| 0 <= k < |bucket| && bucket[k].chunkId == c;
      assert BufferedOk(t, s, b, bucket[k]);
    }
    assert bucket[0].chunkId in Ids(bucket);
    assert forall k :: 0 <= k < |bucket| ==> BufferedOk(t, s, b, bucket[k]);
  }

  /** The one map holds exactly what arrived: nothing is lost, nothing cached or buffered that
      did not arrive, nothing in the wrong place, nothing twice. */
  lemma SlotFollowsArrivals(t: Transfer, s: Sender, b: nat)
    requires Inv(t, s)
    ensures AgreesWithArrivals(t, s, b)
  {
    if IsOpen(s.slots, b) {
      OpenAgrees(t, s, b);
    } else if IsPending(s.slots, b) {
      PendingAgrees(t, s, b);
    } else {
      hide BlockOf, Core;
    }
  }

  ghost predicate AllResolved(t: Transfer, s: Sender) {
    forall b: nat :: b < TotalBlocks(t) ==> IsResolved(s.slots, b)
  }

  ghost predicate NoForeignId(t: Transfer, events: seq<Timed>, taken: nat)
    requires taken <= |events|
  {
    forall b: nat :: Confirmed(events, taken, b) ==> b < TotalBlocks(t)
  }

  lemma ResolvedAll(t: Transfer, s: Sender, events: seq<Timed>, taken: nat)
    requires Inv(t, s) && s.completed == TotalBlocks(t) && taken <= |events|
    requires forall x :: IsResolved(s.slots, x) <==> Confirmed(events, taken, x)
    ensures AllResolved(t, s) <==> NoForeignId(t, events, taken)
  {
    hide Confirmed, Inv, TotalBlocks;
    ResolvedCounted(t, s);
    FullCount(ResolvedIds(s.slots), TotalBlocks(t));
    assert forall b: nat :: b in ResolvedIds(s.slots) <==> IsResolved(s.slots, b);
  }

  /** The normal exit resolves the whole file exactly when no Complete the loop took names an
      id foreign to the file; repeated and early Completes do not matter. */
  lemma ExitIffNoForeignId(t: Transfer, events: seq<Timed>)
    requires AllAcceptable(t, START, events) && !Running(t, Loop(t, START, events))
    ensures AllResolved(t, Loop(t, START, events)) <==> NoForeignId(t, events, Taken(t, START, events))
  {
    hide Inv, Confirmed, TotalBlocks, AllResolved, NoForeignId;
    StartOk(t);
    assert forall x :: !IsResolved(START.slots, x);
    LoopKeeps(t, START, events);
    ResolvedAll(t, Loop(t, START, events), events, Taken(t, START, events));
  }

  lemma ResolvedCounted(t: Transfer, s: Sender)
    requires Inv(t, s)
    ensures s.completed == |ResolvedIds(s.slots)|
  {
  }

  /** `n` ids contain all of `0..n` exactly when they contain nothing else. */
  lemma FullCount(ids: set<nat>, n: nat)
    requires |ids| == n
    ensures (forall b: nat :: b < n ==> b in ids) <==> (forall b: nat :: b in ids ==> b < n)
  {
    if forall b: nat :: b in ids ==> b < n {
      Pigeonhole(ids, n);
    }
    if forall b: nat :: b < n ==> b in ids {
      assert Below(n) <= ids;
      SubsetSize(Below(n), ids);
    }
  }

  /** With every Complete naming a block of the file, the normal exit means every block is
      Resolved. */
  lemma ExitMeansResolved(t: Transfer, events: seq<Timed>)
    requires AllAcceptable(t, START, events) && !Running(t, Loop(t, START, events))
    requires forall k :: 0 <= k < |events| && events[k].event.AckEvent? && events[k].event.ack.Complete? ==>
               events[k].event.ack.blockId < TotalBlocks(t)
    ensures AllResolved(t, Loop(t, START, events))
  {
    hide TotalBlocks, Inv, AllResolved;
    ExitIffNoForeignId(t, events);
    AllOwn(t, events, Taken(t, START, events));
  }

  lemma AllOwn(t: Transfer, events: seq<Timed>, taken: nat)
    requires taken <= |events|
    requires forall k :: 0 <= k < |events| && events[k].event.AckEvent? && events[k].event.ack.Complete? ==>
               events[k].event.ack.blockId < TotalBlocks(t)
    ensures NoForeignId(t, events, taken)
  {
    hide TotalBlocks;
  }

  /** One Complete for an id the file does not have ends a one-block transfer with its only
      block unresolved. */
  lemma ForeignCompleteEndsEarly(t: Transfer, now: nat)
    requires TotalBlocks(t) == 1
    ensures var s := Loop(t, START, [Timed(AckEvent(Complete(7)), now)]);
            !Running(t, s) && !IsResolved(s.slots, 0)
  {
    hide TotalBlocks, Inv, Drain;
    var e := AckEvent(Complete(7));
    var s := Step(t, START, e, now);
    StartOk(t);
    HandleKeeps(t, START, e, now);
    DrainKeeps(t, OnComplete(START, 7), now);
    assert !IsResolved(OnComplete(START, 7).slots, 0);
    assert [Timed(e, now)][1..] == [];
  }
}
