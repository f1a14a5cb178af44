/** The whole transport as one state machine: block manager, UDP network, ack channel,
    receiver tracker, workers, writer and ack manager, each step one atomic action of one
    thread, in any interleaving. */
module System {
  import opened Transfers
  import opened Protocol
  import opened Sender
  import SenderRuns
  import K = Tracker
  import W = ReorderWriter

  /** A packet off the wire, not yet decrypted. */
  datatype Received = Received(chunkId: nat, blockId: nat, index: nat, encrypted: Bytes, hash: nat)

  /** Where the ack manager's thread is. Between two of these the lock is free and nothing
      stops the other threads. */
  datatype AckManager =
    | Polling
    | Scanning(ready: seq<nat>)
    | Replying(block: nat, snapshot: K.Snapshot, rest: seq<nat>)
    | Removing(block: nat, rest: seq<nat>)

  /** `acks` is every ack ever written, of which the sender has handled the first `consumed`;
      `packets` are queued for the workers, `verified` are marked but not yet passed on,
      `toWriter` is the writer's channel. History only: `verifiedIds` (chunks some worker
      verified), `genuine` (blocks confirmed complete) and `gaveUp` (blocks force-completed,
      with how long they had been tracked). */
  datatype State = State(
    sender: Sender,
    acks: seq<BlockAck>,
    consumed: nat,
    tracker: K.Tracker,
    manager: AckManager,
    resolved: nat,
    packets: multiset<Received>,
    verified: multiset<W.DecryptedChunk>,
    toWriter: seq<W.DecryptedChunk>,
    writer: W.Writer,
    now: nat,
    verifiedIds: set<nat>,
    genuine: set<nat>,
    gaveUp: map<nat, nat>)

  const INIT: State :=
    State(START, [], 0, K.EMPTY, Polling, 0, multiset{}, multiset{}, [], W.START, 0, {}, {}, map[])

  datatype Action =
    | ChunkArrives(id: nat, at: nat)
    | AckArrives(at: nat)
    | SenderTimeout(order: seq<nat>, at: nat)
    | Deliver(datagram: Datagram, payload: Bytes, hash: nat)
    | WorkerVerify(packet: Received)
    | WorkerSend(chunk: W.DecryptedChunk)
    | WriterReceive
    | Poll(order: seq<nat>)
    | Check
    | Reply
    | RemoveDone
    | ClockAdvances(ms: nat)

  // ---- the network and the workers ----

  /** A payload that passes the checksum is the plaintext of its chunk. */
  predicate IdealCheck(t: Transfer, c: nat, payload: Bytes, hash: nat) {
    t.hash(t.crypt(c, payload)) == hash ==> t.crypt(c, payload) == Plain(t, c)
  }

  /** Anything ever sent may be delivered, any number of times, in any order, its payload and
      checksum possibly damaged; nothing else is. */
  predicate Deliverable(t: Transfer, s: State, d: Datagram, payload: Bytes, hash: nat) {
    && d in s.sender.log
    && (d.Data? ==> IdealCheck(t, ChunkIdOf(t, d.blockId, d.index), payload, hash))
  }

  function DeliverNext(t: Transfer, s: State, d: Datagram, payload: Bytes, hash: nat): State {
    match d
    case Data(b, i, _, _) =>
      s.(tracker := K.Touch(s.tracker, b, PacketsInBlock(t, b), s.now),
         packets := s.packets + multiset{Received(ChunkIdOf(t, b, i), b, i, payload, hash)})
    case BlockEnd(b, n) =>
      s.(tracker := K.EndSeen(s.tracker, b, n, s.now))
  }

  function VerifyNext(t: Transfer, s: State, p: Received): State {
    var plain := t.crypt(p.chunkId, p.encrypted);
    var s' := s.(packets := s.packets - multiset{p});
    if t.hash(plain) != p.hash then s'
    else s'.(tracker := K.Verify(s.tracker, p.blockId, p.index, PacketsInBlock(t, p.blockId), s.now),
             verified := s.verified + multiset{W.DecryptedChunk(p.chunkId, plain)},
             verifiedIds := s.verifiedIds + {p.chunkId})
  }

  /** Once the writer has left its loop the send fails and the chunk is dropped. */
  function WorkerSendNext(s: State, chunk: W.DecryptedChunk): State {
    s.(verified := s.verified - multiset{chunk},
       toWriter := if s.writer.done then s.toWriter else s.toWriter + [chunk])
  }

  function WriterNext(t: Transfer, s: State): State
    requires 0 < |s.toWriter|
  {
    s.(writer := W.Accept(s.writer, TotalChunks(t), s.toWriter[0]), toWriter := s.toWriter[1..])
  }

  // ---- the ack manager ----

  function After(rest: seq<nat>): AckManager { if rest == [] then Polling else Scanning(rest) }

  function PollNext(t: Transfer, s: State, order: seq<nat>): State {
    s.(manager := After(K.DueIn(t, s.tracker, order, s.now)))
  }

  function CheckNext(s: State): State
    requires s.manager.Scanning? && 0 < |s.manager.ready|
  {
    var b, rest := s.manager.ready[0], s.manager.ready[1..];
    var (tracker, snapshot) := K.Tick(s.tracker, b, s.now);
    s.(tracker := tracker,
       manager := match snapshot case Some(x) => Replying(b, x, rest) case None => After(rest))
  }

  function TrackedFor(s: State, b: nat): nat {
    if b in s.tracker.blocks && s.tracker.blocks[b].since <= s.now then s.now - s.tracker.blocks[b].since else 0
  }

  /** The ack a snapshot leads to; a Complete closes the block. */
  function ReplyOf(t: Transfer, b: nat, x: K.Snapshot): BlockAck {
    if x.complete || x.rounds > t.maxRounds then Complete(b) else Missing(b, x.missing)
  }

  function ReplyNext(t: Transfer, s: State): State
    requires s.manager.Replying?
  {
    var b, x, rest := s.manager.block, s.manager.snapshot, s.manager.rest;
    var s' := s.(acks := s.acks + [ReplyOf(t, b, x)]);
    if x.complete then s'.(manager := Removing(b, rest), genuine := s.genuine + {b})
    else if x.rounds > t.maxRounds then s'.(manager := Removing(b, rest), gaveUp := s.gaveUp[b := TrackedFor(s, b)])
    else s'.(manager := After(rest))
  }

  function RemoveNext(s: State): State
    requires s.manager.Removing?
  {
    s.(tracker := K.Remove(s.tracker, s.manager.block), resolved := s.resolved + 1, manager := After(s.manager.rest))
  }

  // ---- the sender ----

  ghost function SenderNext(t: Transfer, s: State, e: Event, at: nat): State {
    s.(sender := Step(t, s.sender, e, at), consumed := s.consumed + if e.AckEvent? then 1 else 0)
  }

  // ---- the machine ----

  ghost predicate Enabled(t: Transfer, s: State, a: Action) {
    match a
    case ChunkArrives(c, _) => Running(t, s.sender) && c < TotalChunks(t) && c !in s.sender.arrived
    case AckArrives(_) => Running(t, s.sender) && s.consumed < |s.acks|
    case SenderTimeout(_, _) => Running(t, s.sender)
    case Deliver(d, payload, hash) => Deliverable(t, s, d, payload, hash)
    case WorkerVerify(p) => p in s.packets
    case WorkerSend(chunk) => chunk in s.verified
    case WriterReceive => !s.writer.done && 0 < |s.toWriter|
    case Poll(order) => s.manager.Polling? && s.resolved < TotalBlocks(t) && K.Enumerates(order, s.tracker.blocks.Keys)
    case Check => s.manager.Scanning? && 0 < |s.manager.ready|
    case Reply => s.manager.Replying?
    case RemoveDone => s.manager.Removing?
    case ClockAdvances(_) => true
  }

  ghost function Next(t: Transfer, s: State, a: Action): State
    requires Enabled(t, s, a)
  {
    match a
    case ChunkArrives(c, at) => SenderNext(t, s, ChunkEvent(ChunkOf(t, c)), at)
    case AckArrives(at) => SenderNext(t, s, AckEvent(s.acks[s.consumed]), at)
    case SenderTimeout(order, at) => SenderNext(t, s, Timeout(order), at)
    case Deliver(d, payload, hash) => DeliverNext(t, s, d, payload, hash)
    case WorkerVerify(p) => VerifyNext(t, s, p)
    case WorkerSend(chunk) => WorkerSendNext(s, chunk)
    case WriterReceive => WriterNext(t, s)
    case Poll(order) => PollNext(t, s, order)
    case Check => CheckNext(s)
    case Reply => ReplyNext(t, s)
    case RemoveDone => RemoveNext(s)
    case ClockAdvances(ms) => s.(now := s.now + ms)
  }

  /** The ack manager has left its loop. */
  predicate AckManagerDone(t: Transfer, s: State) { s.manager.Polling? && s.resolved >= TotalBlocks(t) }

  /** The state a run ends in: any actions, in any order; one that is not enabled where it
      is tried does nothing. */
  ghost function EndOf(t: Transfer, actions: seq<Action>): State {
    if |actions| == 0 then INIT else
    var n := |actions| - 1;
    var s := EndOf(t, actions[..n]);
    if Enabled(t, s, actions[n]) then Next(t, s, actions[n]) else s
  }
}
