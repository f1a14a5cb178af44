/** The sender's block manager as a state machine: one map from block id to slot, the
    counters kept beside it, and every datagram handed to the socket. */
module Sender {
  import opened Transfers
  import opened Sums
  import opened Protocol

  datatype EncryptedChunk = EncryptedChunk(chunkId: nat, packet: Datagram, bytes: nat)

  datatype BlockState = BlockState(
    total: nat,
    packets: seq<Option<Datagram>>,
    sent: nat,
    endEmitted: bool,
    lastAckActivity: nat,
    fallbackSent: bool)

  datatype Slot = Pending(bucket: seq<EncryptedChunk>) | Open(block: BlockState) | Resolved

  /** `log` is every datagram ever sent, in order. `arrived` (ids of chunks that reached the
      manager), `placed` (ids that were cached and sent once) and `named` (packet ids named by
      the Missing acks handled so far) are history: no operation reads them. `panicked` is set
      where the code would panic. */
  datatype Sender = Sender(
    slots: map<nat, Slot>,
    openSlots: int,
    completed: nat,
    packetsSent: nat,
    bytesSent: nat,
    retransmitted: nat,
    log: seq<Datagram>,
    arrived: set<nat>,
    placed: set<nat>,
    named: nat,
    panicked: bool)

  const START: Sender := Sender(map[], 0, 0, 0, 0, 0, [], {}, {}, 0, false)

  // ---- what the encryption workers produce ----

  function Plain(t: Transfer, c: nat): Bytes {
    if c < TotalChunks(t) then t.file[c] else []
  }

  function PacketOf(t: Transfer, c: nat): Datagram {
    Data(BlockOf(t, c), IndexOf(t, c), t.hash(Plain(t, c)), t.crypt(c, Plain(t, c)))
  }

  function ChunkOf(t: Transfer, c: nat): EncryptedChunk {
    EncryptedChunk(c, PacketOf(t, c), |Plain(t, c)|)
  }

  // ---- views of the map ----

  predicate IsPending(slots: map<nat, Slot>, b: nat) { b in slots && slots[b].Pending? }

  predicate IsOpen(slots: map<nat, Slot>, b: nat) { b in slots && slots[b].Open? }

  predicate IsResolved(slots: map<nat, Slot>, b: nat) { b in slots && slots[b].Resolved? }

  predicate WasOpened(slots: map<nat, Slot>, b: nat) { b in slots && !slots[b].Pending? }

  function PendingIds(slots: map<nat, Slot>): set<nat> { set b | b in slots && slots[b].Pending? }

  function OpenIds(slots: map<nat, Slot>): set<nat> { set b | b in slots && slots[b].Open? }

  function ResolvedIds(slots: map<nat, Slot>): set<nat> { set b | b in slots && slots[b].Resolved? }

  // ---- the operations ----

  function NewBlock(total: nat, now: nat): BlockState {
    BlockState(total, seq(total, _ => None), 0, false, now, false)
  }

  predicate AllCached(e: BlockState) {
    forall i :: 0 <= i < |e.packets| && i < e.total ==> e.packets[i].Some?
  }

  /** Cache, then send, then count. */
  function CacheAndSend(s: Sender, b: nat, i: nat, chunk: EncryptedChunk): Sender
    requires IsOpen(s.slots, b) && i < |s.slots[b].block.packets|
  {
    var e := s.slots[b].block;
    s.(slots := s.slots[b := Open(e.(packets := e.packets[i := Some(chunk.packet)], sent := e.sent + 1))],
       log := s.log + [chunk.packet],
       packetsSent := s.packetsSent + 1,
       bytesSent := s.bytesSent + chunk.bytes,
       placed := s.placed + {chunk.chunkId})
  }

  function EmitBlockEnd(s: Sender, b: nat, now: nat): Sender
    requires IsOpen(s.slots, b)
  {
    var e := s.slots[b].block;
    if e.sent != e.total || e.endEmitted then s
    else if !AllCached(e) then s.(panicked := true)
    else s.(slots := s.slots[b := Open(e.(endEmitted := true, lastAckActivity := now))],
            log := s.log + [BlockEnd(b, e.total)])
  }

  /** `place_chunk`. */
  function Place(s: Sender, b: nat, i: nat, chunk: EncryptedChunk, now: nat): Sender {
    if IsOpen(s.slots, b) && i < |s.slots[b].block.packets|
    then EmitBlockEnd(CacheAndSend(s, b, i, chunk), b, now)
    else s.(panicked := true)
  }

  function OpenBlock(t: Transfer, s: Sender, b: nat, now: nat): Sender {
    s.(slots := s.slots[b := Open(NewBlock(PacketsInBlock(t, b), now))], openSlots := s.openSlots + 1)
  }

  /** `admit_or_buffer`. */
  function Admit(t: Transfer, s0: Sender, chunk: EncryptedChunk, now: nat): Sender {
    var s := s0.(arrived := s0.arrived + {chunk.chunkId});
    var b, i := BlockOf(t, chunk.chunkId), IndexOf(t, chunk.chunkId);
    if IsResolved(s.slots, b) then s
    else if IsOpen(s.slots, b) then Place(s, b, i, chunk, now)
    else if IsPending(s.slots, b) then s.(slots := s.slots[b := Pending(s.slots[b].bucket + [chunk])])
    else if s.openSlots < t.pipelineDepth then Place(OpenBlock(t, s, b, now), b, i, chunk, now)
    else s.(slots := s.slots[b := Pending([chunk])])
  }

  /** One buffered chunk of block `b`, with the debug assertion on its block id. */
  function PlaceBuffered(t: Transfer, s: Sender, b: nat, chunk: EncryptedChunk, now: nat): Sender {
    if BlockOf(t, chunk.chunkId) != b then s.(panicked := true)
    else Place(s, b, IndexOf(t, chunk.chunkId), chunk, now)
  }

  function PlaceAll(t: Transfer, s: Sender, b: nat, bucket: seq<EncryptedChunk>, now: nat): Sender
    decreases |bucket|
  {
    if |bucket| == 0 then s
    else PlaceAll(t, PlaceBuffered(t, s, b, bucket[0], now), b, bucket[1..], now)
  }

  ghost function Least(ids: set<nat>): (m: nat)
    requires ids != {}
    ensures m in ids && forall x :: x in ids ==> m <= x
    decreases |ids|
  {
    var x :| x in ids;
    var rest := ids - {x};
    if rest == {} then assert ids == {x}; x else
    var m := Least(rest);
    assert ids == rest + {x};
    if x < m then x else m
  }

  function OpenPending(t: Transfer, s: Sender, b: nat, now: nat): Sender
    requires IsPending(s.slots, b)
  {
    PlaceAll(t, OpenBlock(t, s, b, now), b, s.slots[b].bucket, now)
  }

  lemma {:induction false} PlaceAllPending(t: Transfer, s: Sender, b: nat, bucket: seq<EncryptedChunk>, now: nat)
    ensures PendingIds(PlaceAll(t, s, b, bucket, now).slots) == PendingIds(s.slots)
    decreases |bucket|
  {
    if |bucket| > 0 {
      var s' := PlaceBuffered(t, s, b, bucket[0], now);
      assert PendingIds(s'.slots) == PendingIds(s.slots);
      PlaceAllPending(t, s', b, bucket[1..], now);
    }
  }

  lemma OpenPendingShrinks(t: Transfer, s: Sender, b: nat, now: nat)
    requires IsPending(s.slots, b)
    ensures PendingIds(OpenPending(t, s, b, now).slots) == PendingIds(s.slots) - {b}
    ensures b in PendingIds(s.slots)
  {
    PlaceAllPending(t, OpenBlock(t, s, b, now), b, s.slots[b].bucket, now);
  }

  /** `drain_pending`. */
  ghost function Drain(t: Transfer, s: Sender, now: nat): Sender
    decreases |PendingIds(s.slots)|
  {
    if s.openSlots < t.pipelineDepth && PendingIds(s.slots) != {}
    then
      var b := Least(PendingIds(s.slots));
      OpenPendingShrinks(t, s, b, now);
      Drain(t, OpenPending(t, s, b, now), now)
    else s
  }

  /** The cached packets among `ids`; an index out of range names nothing. */
  function Cached(packets: seq<Option<Datagram>>, ids: seq<nat>): seq<Datagram> {
    if |ids| == 0 then [] else
    var n := |ids| - 1;
    Cached(packets, ids[..n]) +
    if ids[n] < |packets| && packets[ids[n]].Some? then [packets[ids[n]].value] else []
  }

  /** A Missing ack: reset the block's silence timer, resend what it names. */
  function OnMissing(s: Sender, b: nat, missing: seq<nat>, now: nat): Sender {
    var s' := s.(named := s.named + |missing|);
    if IsOpen(s.slots, b) then
      var resend := Cached(s.slots[b].block.packets, missing);
      s'.(slots := s.slots[b := Open(s.slots[b].block.(lastAckActivity := now))],
          log := s.log + resend,
          retransmitted := s.retransmitted + |resend|)
    else s'
  }

  function OnComplete(s: Sender, b: nat): Sender {
    if IsResolved(s.slots, b) then s
    else
      var s' := s.(slots := s.slots[b := Resolved], completed := s.completed + 1);
      if !IsOpen(s.slots, b) then s'
      else if s.openSlots <= 0 then s'.(panicked := true)
      else s'.(openSlots := s.openSlots - 1)
  }

  function Flatten(packets: seq<Option<Datagram>>): seq<Datagram> {
    if |packets| == 0 then [] else
    var n := |packets| - 1;
    Flatten(packets[..n]) + if packets[n].Some? then [packets[n].value] else []
  }

  predicate IsStale(t: Transfer, slots: map<nat, Slot>, b: nat, now: nat) {
    && IsOpen(slots, b)
    && var e := slots[b].block;
       e.endEmitted && !e.fallbackSent && e.lastAckActivity + t.staleAfter <= now
  }

  function ResendBlock(t: Transfer, s: Sender, b: nat, now: nat): Sender {
    if !IsStale(t, s.slots, b, now) then s else
    var e := s.slots[b].block;
    s.(slots := s.slots[b := Open(e.(fallbackSent := true, lastAckActivity := now))],
       log := s.log + Flatten(e.packets) + [BlockEnd(b, e.total)],
       retransmitted := s.retransmitted + |Flatten(e.packets)|)
  }

  /** `retransmit_stale_blocks`, walking the map in the order `order`. */
  function ResendStale(t: Transfer, s: Sender, order: seq<nat>, now: nat): Sender {
    if |order| == 0 then s
    else ResendBlock(t, ResendStale(t, s, order[..|order| - 1], now), order[|order| - 1], now)
  }

  // ---- the loop ----

  datatype Event = ChunkEvent(chunk: EncryptedChunk) | AckEvent(ack: BlockAck) | Timeout(order: seq<nat>)

  function Handle(t: Transfer, s: Sender, e: Event, now: nat): Sender {
    match e
    case ChunkEvent(chunk) => Admit(t, s, chunk, now)
    case AckEvent(Missing(b, missing)) => OnMissing(s, b, missing, now)
    case AckEvent(Complete(b)) => OnComplete(s, b)
    case Timeout(order) => ResendStale(t, s, order, now)
  }

  /** The loop goes on waiting for events. */
  predicate Running(t: Transfer, s: Sender) { s.completed < TotalBlocks(t) }

  /** One event, then the drain at the top of the next iteration. */
  ghost function Step(t: Transfer, s: Sender, e: Event, now: nat): Sender {
    Drain(t, Handle(t, s, e, now), now)
  }

  datatype Timed = Timed(event: Event, now: nat)

  /** The loop over everything the event channel ever delivers: it stops once every block
      is counted as resolved. */
  ghost function Loop(t: Transfer, s: Sender, events: seq<Timed>): Sender
    decreases |events|
  {
    if |events| == 0 || !Running(t, s) then s
    else Loop(t, Step(t, s, events[0].event, events[0].now), events[1..])
  }
}
