/** The wire formats: UDP datagrams (data and BlockEnd) and the block acks on the
    TCP control stream. */
module Protocol {
  import opened Transfers

  const TAG_DATA: Byte := 0x01
  const TAG_BLOCK_END: Byte := 0x02
  const CTRL_BLOCK_ACK: Byte := 0xB1
  const CTRL_BLOCK_COMPLETE: Byte := 0xB2

  datatype Datagram =
    | Data(blockId: nat, index: nat, hash: nat, payload: Bytes)
    | BlockEnd(blockId: nat, total: nat)

  datatype BlockAck =
    | Missing(blockId: nat, missing: seq<nat>)
    | Complete(blockId: nat)

  // ---- big-endian integers ----

  function Pow256(k: nat): nat { if k == 0 then 1 else 256 * Pow256(k - 1) }

  /** The low `k` bytes of `n`, most significant first (an `as` cast, then `to_be_bytes`). */
  function BigEndian(n: nat, k: nat): (bs: Bytes)
    ensures |bs| == k
  {
    if k == 0 then [] else BigEndian(n / 256, k - 1) + [n % 256]
  }

  function FromBigEndian(bs: Bytes): nat {
    if |bs| == 0 then 0 else 256 * FromBigEndian(bs[..|bs| - 1]) + bs[|bs| - 1]
  }

  lemma {:induction false} FromTo(n: nat, k: nat)
    ensures FromBigEndian(BigEndian(n, k)) < Pow256(k)
    ensures n < Pow256(k) ==> FromBigEndian(BigEndian(n, k)) == n
  {
    if k > 0 {
      FromTo(n / 256, k - 1);
      assert BigEndian(n, k)[..k - 1] == BigEndian(n / 256, k - 1);
    }
  }

  lemma {:induction false} ToFrom(bs: Bytes)
    ensures FromBigEndian(bs) < Pow256(|bs|)
    ensures BigEndian(FromBigEndian(bs), |bs|) == bs
  {
    if |bs| > 0 {
      ToFrom(bs[..|bs| - 1]);
    }
  }

  lemma Widths()
    ensures Pow256(2) == U16 && Pow256(4) == U32 && Pow256(8) == U32 * U32
  {
    assert Pow256(1) == 256;
    assert Pow256(3) == 256 * Pow256(2);
    assert Pow256(5) == 256 * Pow256(4) && Pow256(6) == 256 * Pow256(5) && Pow256(7) == 256 * Pow256(6);
  }

  lemma ReadWidth(bs: Bytes)
    ensures BigEndian(FromBigEndian(bs), |bs|) == bs
    ensures |bs| == 2 ==> FromBigEndian(bs) < U16
    ensures |bs| == 4 ==> FromBigEndian(bs) < U32
    ensures |bs| == 8 ==> FromBigEndian(bs) < U32 * U32
  {
    ToFrom(bs);
    Widths();
  }

  lemma WrittenWidth(n: nat, k: nat)
    requires (k == 2 && n < U16) || (k == 4 && n < U32) || (k == 8 && n < U32 * U32)
    ensures FromBigEndian(BigEndian(n, k)) == n
  {
    FromTo(n, k);
    Widths();
  }

  // The same bytes written out, most significant first.

  function Two(n: nat): Bytes { [n / 0x100 % 256, n % 256] }

  function Four(n: nat): Bytes { [n / 0x100_0000 % 256, n / 0x1_0000 % 256, n / 0x100 % 256, n % 256] }

  function Eight(n: nat): Bytes { Four(n / 0x1_0000_0000) + Four(n) }

  lemma Divide(n: nat)
    ensures n / 0x100 / 0x100 == n / 0x1_0000
    ensures n / 0x1_0000 / 0x100 == n / 0x100_0000
    ensures n / 0x100_0000 / 0x100 == n / 0x1_0000_0000
  {
  }

  lemma TwoBytes(n: nat)
    ensures BigEndian(n, 2) == Two(n)
  {
    assert BigEndian(n / 256, 1) == [n / 256 % 256];
  }

  lemma FourBytes(n: nat)
    ensures BigEndian(n, 4) == Four(n)
  {
    var m := n / 256 / 256;
    assert BigEndian(n, 4) == BigEndian(n / 256, 3) + [n % 256];
    assert BigEndian(n / 256, 3) == BigEndian(m, 2) + [n / 256 % 256];
    hide BigEndian;
    TwoBytes(m);
    Divide(n);
    assert m == n / 0x1_0000;
    assert m / 256 == n / 0x100_0000;
  }

  lemma EightBytes(n: nat)
    ensures BigEndian(n, 8) == Eight(n)
  {
    var m1 := n / 256;
    var m2 := m1 / 256;
    var m3 := m2 / 256;
    var m4 := m3 / 256;
    assert BigEndian(n, 8) == BigEndian(m4, 4) + [m3 % 256, m2 % 256, m1 % 256, n % 256] by {
      assert BigEndian(n, 8) == BigEndian(m1, 7) + [n % 256];
      assert BigEndian(m1, 7) == BigEndian(m2, 6) + [m1 % 256];
      assert BigEndian(m2, 6) == BigEndian(m3, 5) + [m2 % 256];
      assert BigEndian(m3, 5) == BigEndian(m4, 4) + [m3 % 256];
    }
    hide BigEndian;
    FourBytes(m4);
    Divide(n);
    assert m2 == n / 0x1_0000;
    assert m3 == n / 0x100_0000;
    assert m4 == n / 0x1_0000_0000;
  }

  // ---- datagrams ----

  predicate FitsDatagram(d: Datagram) {
    match d
    case Data(b, i, h, p) => b < U32 && i < U16 && h < U32 * U32 && |p| < U32
    case BlockEnd(b, n) => b < U32 && n < U32
  }

  function DataHeader(d: Datagram): (h: Bytes)
    requires d.Data?
    ensures |h| == 19
  {
    [TAG_DATA] + BigEndian(d.blockId, 4) + BigEndian(d.index, 2) + BigEndian(|d.payload|, 4) + BigEndian(d.hash, 8)
  }

  function EncodeDatagram(d: Datagram): Bytes {
    match d
    case Data(_, _, _, p) => DataHeader(d) + p
    case BlockEnd(b, n) => [TAG_BLOCK_END] + BigEndian(b, 4) + BigEndian(n, 4)
  }

  function DecodeData(body: Bytes): Option<Datagram> {
    if |body| < 18 then None else
    var size := FromBigEndian(body[6..10]);
    if |body| < 18 + size then None else
    Some(Data(FromBigEndian(body[0..4]), FromBigEndian(body[4..6]), FromBigEndian(body[10..18]), body[18..18 + size]))
  }

  function DecodeBlockEnd(body: Bytes): Option<Datagram> {
    if |body| < 8 then None else
    Some(BlockEnd(FromBigEndian(body[0..4]), FromBigEndian(body[4..8])))
  }

  /** What the receiver thread makes of one datagram: demultiplexing by the tag byte. */
  function DecodeDatagram(buffer: Bytes): Option<Datagram> {
    if |buffer| < 1 then None
    else if buffer[0] == TAG_DATA then DecodeData(buffer[1..])
    else if buffer[0] == TAG_BLOCK_END then DecodeBlockEnd(buffer[1..])
    else None
  }

  /** The decoder accepts exactly the encodings, with anything behind them ignored. */
  lemma DecodeIffEncoding(buffer: Bytes, d: Datagram)
    ensures DecodeDatagram(buffer) == Some(d) <==> FitsDatagram(d) && EncodeDatagram(d) <= buffer
  {
    if DecodeDatagram(buffer) == Some(d) {
      DecodedReencodes(buffer, d);
    }
    if FitsDatagram(d) && EncodeDatagram(d) <= buffer {
      EncodedDecodes(buffer, d);
    }
  }

  lemma DecodedReencodes(buffer: Bytes, d: Datagram)
    requires DecodeDatagram(buffer) == Some(d)
    ensures FitsDatagram(d) && EncodeDatagram(d) <= buffer
  {
    hide FromBigEndian, BigEndian;
    var body := buffer[1..];
    ReadWidth(body[0..4]);
    if d.Data? {
      ReadWidth(body[4..6]);
      ReadWidth(body[6..10]);
      ReadWidth(body[10..18]);
      assert buffer[..19] == DataHeader(d);
      assert buffer[19..19 + |d.payload|] == d.payload;
      assert EncodeDatagram(d) == buffer[..19 + |d.payload|];
    } else {
      ReadWidth(body[4..8]);
      assert EncodeDatagram(d) == buffer[..9];
    }
  }

  lemma EncodedDecodes(buffer: Bytes, d: Datagram)
    requires FitsDatagram(d) && EncodeDatagram(d) <= buffer
    ensures DecodeDatagram(buffer) == Some(d)
  {
    hide FromBigEndian, BigEndian;
    var e := EncodeDatagram(d);
    assert buffer[0] == e[0];
    var body := buffer[1..];
    if d.Data? {
      var n := |d.payload|;
      assert e == buffer[..19 + n];
      assert body[0..4] == e[1..5] == BigEndian(d.blockId, 4);
      assert body[4..6] == e[5..7] == BigEndian(d.index, 2);
      assert body[6..10] == e[7..11] == BigEndian(n, 4);
      assert body[10..18] == e[11..19] == BigEndian(d.hash, 8);
      assert e[19..19 + n] == d.payload;
      assert body[18..18 + n] == e[19..19 + n];
      WrittenWidth(d.blockId, 4);
      WrittenWidth(d.index, 2);
      WrittenWidth(n, 4);
      WrittenWidth(d.hash, 8);
    } else {
      assert e == buffer[..9];
      assert body[0..4] == e[1..5] == BigEndian(d.blockId, 4);
      assert body[4..8] == e[5..9] == BigEndian(d.total, 4);
      WrittenWidth(d.blockId, 4);
      WrittenWidth(d.total, 4);
    }
  }

  /** A torn datagram is dropped, never misread. */
  lemma TruncatedDatagramRejected(d: Datagram, k: nat)
    requires FitsDatagram(d) && k < |EncodeDatagram(d)|
    ensures DecodeDatagram(EncodeDatagram(d)[..k]) == None
  {
    var e := EncodeDatagram(d);
    match DecodeDatagram(e[..k])
    case None =>
    case Some(d') =>
      DecodeIffEncoding(e[..k], d');
      DecodeIffEncoding(e, d');
      DecodeIffEncoding(e, d);
      assert false;
  }

  /** The bytes on the wire, tag first, every field in its place. */
  lemma DatagramBytes(b: nat, i: nat, h: nat, p: Bytes, n: nat)
    ensures EncodeDatagram(Data(b, i, h, p)) == [0x01] + Four(b) + Two(i) + Four(|p|) + Eight(h) + p
    ensures EncodeDatagram(BlockEnd(b, n)) == [0x02] + Four(b) + Four(n)
  {
    hide BigEndian, Two, Four, Eight;
    FourBytes(b);
    TwoBytes(i);
    FourBytes(|p|);
    EightBytes(h);
    FourBytes(n);
  }

  // ---- block acks on the control stream ----

  predicate FitsAck(a: BlockAck) {
    && a.blockId < U32
    && (a.Missing? ==> |a.missing| < U32 && forall k :: 0 <= k < |a.missing| ==> a.missing[k] < U16)
  }

  function EncodeIds(ids: seq<nat>): (bs: Bytes)
    ensures |bs| == 2 * |ids|
  {
    if |ids| == 0 then [] else EncodeIds(ids[..|ids| - 1]) + BigEndian(ids[|ids| - 1], 2)
  }

  function DecodeIds(bs: Bytes): (ids: seq<nat>)
    requires |bs| % 2 == 0
    ensures 2 * |ids| == |bs|
  {
    if |bs| == 0 then [] else DecodeIds(bs[..|bs| - 2]) + [FromBigEndian(bs[|bs| - 2..])]
  }

  function AckHeader(a: BlockAck): (h: Bytes)
    ensures |h| == if a.Missing? then 9 else 5
  {
    match a
    case Complete(b) => [CTRL_BLOCK_COMPLETE] + BigEndian(b, 4)
    case Missing(b, ids) => [CTRL_BLOCK_ACK] + BigEndian(b, 4) + BigEndian(|ids|, 4)
  }

  function EncodeAck(a: BlockAck): Bytes {
    AckHeader(a) + if a.Missing? then EncodeIds(a.missing) else []
  }

  /** An ack's bytes, tag first; the ids follow their count, two bytes each, in order. */
  lemma AckBytes(b: nat, ids: seq<nat>)
    ensures EncodeAck(Complete(b)) == [0xB2] + Four(b)
    ensures EncodeAck(Missing(b, ids)) == [0xB1] + Four(b) + Four(|ids|) + EncodeIds(ids)
    ensures forall k :: 0 <= k < |ids| ==> EncodeIds(ids)[2 * k..2 * k + 2] == Two(ids[k])
  {
    hide BigEndian, Two, Four;
    FourBytes(b);
    FourBytes(|ids|);
    forall k | 0 <= k < |ids| ensures EncodeIds(ids)[2 * k..2 * k + 2] == Two(ids[k]) {
      IdBytes(ids, k);
    }
  }

  lemma {:induction false} IdBytes(ids: seq<nat>, k: nat)
    requires k < |ids|
    ensures EncodeIds(ids)[2 * k..2 * k + 2] == Two(ids[k])
  {
    hide BigEndian, Two;
    var n := |ids| - 1;
    if k == n {
      TwoBytes(ids[n]);
    } else {
      IdBytes(ids[..n], k);
      assert EncodeIds(ids)[2 * k..2 * k + 2] == EncodeIds(ids[..n])[2 * k..2 * k + 2];
    }
  }

  datatype ReadResult = Read(ack: BlockAck, rest: Bytes) | UnexpectedEof | UnknownTag(tag: Byte)

  /** What reading one ack off the unread bytes `s` yields. */
  function DecodeAck(s: Bytes): ReadResult {
    if |s| < 5 then UnexpectedEof else
    var b := FromBigEndian(s[1..5]);
    if s[0] == CTRL_BLOCK_COMPLETE then Read(Complete(b), s[5..])
    else if s[0] == CTRL_BLOCK_ACK then
      if |s| < 9 then UnexpectedEof else
      var count := FromBigEndian(s[5..9]);
      if |s| < 9 + 2 * count then UnexpectedEof
      else Read(Missing(b, DecodeIds(s[9..9 + 2 * count])), s[9 + 2 * count..])
    else UnknownTag(s[0])
  }

  lemma {:induction false} IdsFromTo(ids: seq<nat>)
    requires forall k :: 0 <= k < |ids| ==> ids[k] < U16
    ensures DecodeIds(EncodeIds(ids)) == ids
  {
    hide FromBigEndian, BigEndian;
    if |ids| > 0 {
      var bs, n := EncodeIds(ids), |ids| - 1;
      assert bs[..|bs| - 2] == EncodeIds(ids[..n]) && bs[|bs| - 2..] == BigEndian(ids[n], 2);
      IdsFromTo(ids[..n]);
      WrittenWidth(ids[n], 2);
    }
  }

  lemma {:induction false} IdsToFrom(bs: Bytes)
    requires |bs| % 2 == 0
    ensures EncodeIds(DecodeIds(bs)) == bs
    ensures forall k :: 0 <= k < |DecodeIds(bs)| ==> DecodeIds(bs)[k] < U16
  {
    hide FromBigEndian, BigEndian;
    if |bs| > 0 {
      var front, last := bs[..|bs| - 2], bs[|bs| - 2..];
      assert bs == front + last;
      hide EncodeIds, DecodeIds;
      IdsToFrom(front);
      ReadWidth(last);
      DecodeIdsSnoc(front, last);
      EncodeIdsSnoc(DecodeIds(front), FromBigEndian(last));
    }
  }

  /** Reading succeeds exactly on a written ack followed by the rest of the stream. */
  lemma ReadIffWritten(s: Bytes, a: BlockAck, rest: Bytes)
    ensures DecodeAck(s) == Read(a, rest) <==> FitsAck(a) && s == EncodeAck(a) + rest
  {
    if DecodeAck(s) == Read(a, rest) {
      ReadRewrites(s, a, rest);
    }
    if FitsAck(a) && s == EncodeAck(a) + rest {
      WrittenReads(a, rest);
    }
  }

  lemma ReadRewrites(s: Bytes, a: BlockAck, rest: Bytes)
    requires DecodeAck(s) == Read(a, rest)
    ensures FitsAck(a) && s == EncodeAck(a) + rest
  {
    hide FromBigEndian, BigEndian, EncodeIds, DecodeIds;
    ReadWidth(s[1..5]);
    var h := AckHeader(a);
    if a.Missing? {
      var count := FromBigEndian(s[5..9]);
      ReadWidth(s[5..9]);
      var ids := s[9..9 + 2 * count];
      IdsToFrom(ids);
      assert h == s[..9];
      assert s == s[..9] + ids + rest;
    } else {
      assert h == s[..5];
      assert EncodeAck(a) == s[..5];
    }
  }

  lemma WrittenReads(a: BlockAck, rest: Bytes)
    requires FitsAck(a)
    ensures DecodeAck(EncodeAck(a) + rest) == Read(a, rest)
  {
    WrittenWidth(a.blockId, 4);
    if a.Missing? {
      WrittenMissingReads(a.blockId, a.missing, rest);
    } else {
      var s := EncodeAck(a) + rest;
      assert s[1..5] == BigEndian(a.blockId, 4);
      assert s[5..] == rest;
    }
  }

  lemma WrittenMissingReads(b: nat, ids: seq<nat>, rest: Bytes)
    requires FitsAck(Missing(b, ids))
    ensures DecodeAck(EncodeAck(Missing(b, ids)) + rest) == Read(Missing(b, ids), rest)
  {
    hide FromBigEndian, BigEndian, EncodeIds, DecodeIds;
    var h, e, n := AckHeader(Missing(b, ids)), EncodeIds(ids), |ids|;
    var s := h + e + rest;
    WrittenWidth(b, 4);
    WrittenWidth(n, 4);
    IdsFromTo(ids);
    assert s[1..5] == h[1..5] == BigEndian(b, 4);
    assert s[5..9] == h[5..9] == BigEndian(n, 4);
    assert s[9..9 + 2 * n] == e;
    assert s[9 + 2 * n..] == rest;
  }

  function EncodeAll(acks: seq<BlockAck>): Bytes {
    if |acks| == 0 then [] else EncodeAck(acks[0]) + EncodeAll(acks[1..])
  }

  /** The ack relay: read until the first error. */
  function DecodeAll(s: Bytes): seq<BlockAck>
    decreases |s|
  {
    match DecodeAck(s)
    case Read(a, rest) => [a] + DecodeAll(rest)
    case _ => []
  }

  /** Any list of written acks is read back exactly, however the stream ends:
      the reader stops at the torn or unreadable `tail`. */
  lemma {:induction false} AckStreamRoundTrip(acks: seq<BlockAck>, tail: Bytes)
    requires forall k :: 0 <= k < |acks| ==> FitsAck(acks[k])
    requires !DecodeAck(tail).Read?
    ensures DecodeAll(EncodeAll(acks) + tail) == acks
  {
    hide DecodeAck, EncodeAck;
    if |acks| == 0 {
      assert EncodeAll(acks) + tail == tail;
    } else {
      var rest := EncodeAll(acks[1..]) + tail;
      assert EncodeAll(acks) + tail == EncodeAck(acks[0]) + rest;
      WrittenReads(acks[0], rest);
      AckStreamRoundTrip(acks[1..], tail);
    }
  }

  /** A message cut short is never read as anything. */
  lemma TornAckUnreadable(a: BlockAck, k: nat)
    requires FitsAck(a) && k < |EncodeAck(a)|
    ensures !DecodeAck(EncodeAck(a)[..k]).Read?
  {
    hide DecodeAck, EncodeAck, FitsAck;
    var e := EncodeAck(a);
    match DecodeAck(e[..k])
    case Read(a', rest) =>
      ReadRewrites(e[..k], a', rest);
      assert e == e[..k] + e[k..];
      assert e == EncodeAck(a') + (rest + e[k..]);
      WrittenReads(a', rest + e[k..]);
      assert e == e + [];
      WrittenReads(a, []);
      assert false;
    case _ =>
  }

  lemma DecodeNoIds()
    ensures DecodeIds([]) == []
  {
  }

  lemma DecodeIdsSnoc(bs: Bytes, id: Bytes)
    requires |bs| % 2 == 0 && |id| == 2
    ensures DecodeIds(bs + id) == DecodeIds(bs) + [FromBigEndian(id)]
  {
    assert (bs + id)[..|bs + id| - 2] == bs && (bs + id)[|bs + id| - 2..] == id;
  }

  lemma EncodeIdsSnoc(ids: seq<nat>, id: nat)
    ensures EncodeIds(ids + [id]) == EncodeIds(ids) + BigEndian(id, 2)
  {
    assert (ids + [id])[..|ids|] == ids;
  }

  // ---- the stream operations ----

  /** One direction of the control connection: the bytes written and not yet read. */
  class ControlStream {
    var unread: Bytes

    constructor ()
      ensures unread == []
    {
      unread := [];
    }

    method WriteAll(bytes: Bytes)
      modifies this
      ensures unread == old(unread) + bytes
    {
      unread := unread + bytes;
    }

    method ReadExact(n: nat) returns (ok: bool, bytes: Bytes)
      modifies this
      ensures ok <==> n <= |old(unread)|
      ensures ok ==> bytes == old(unread)[..n] && unread == old(unread)[n..]
    {
      if |unread| < n {
        return false, [];
      }
      ok, bytes := true, unread[..n];
      unread := unread[n..];
    }

    method WriteAck(ack: BlockAck)
      modifies this
      ensures unread == old(unread) + EncodeAck(ack)
    {
      hide FromBigEndian, BigEndian, EncodeIds;
      match ack
      case Complete(b) =>
        WriteAll([CTRL_BLOCK_COMPLETE]);
        WriteAll(BigEndian(b, 4));
      case Missing(b, missing) =>
        WriteAll([CTRL_BLOCK_ACK]);
        WriteAll(BigEndian(b, 4));
        WriteAll(BigEndian(|missing|, 4));
        assert unread == old(unread) + AckHeader(ack);
        for k := 0 to |missing|
          invariant unread == old(unread) + AckHeader(ack) + EncodeIds(missing[..k])
        {
          assert missing[..k + 1] == missing[..k] + [missing[k]];
          EncodeIdsSnoc(missing[..k], missing[k]);
          WriteAll(BigEndian(missing[k], 2));
        }
        assert missing[..|missing|] == missing;
    }

    method ReadIds(count: nat) returns (ok: bool, ids: seq<nat>)
      modifies this
      ensures ok <==> 2 * count <= |old(unread)|
      ensures ok ==> ids == DecodeIds(old(unread)[..2 * count]) && unread == old(unread)[2 * count..]
    {
      hide FromBigEndian, DecodeIds;
      ghost var s := unread;
      ids := [];
      assert DecodeIds(s[..0]) == [] by { DecodeNoIds(); }
      for k := 0 to count
        invariant 2 * k <= |s| && unread == s[2 * k..] && ids == DecodeIds(s[..2 * k])
      {
        var buf;
        ok, buf := ReadExact(2);
        if !ok { return false, []; }
        DecodeIdsSnoc(s[..2 * k], buf);
        assert s[..2 * k] + buf == s[..2 * (k + 1)];
        ids := ids + [FromBigEndian(buf)];
      }
      ok := true;
    }

    /** Reads one ack; on success exactly its bytes are consumed. */
    method ReadAck() returns (r: ReadResult)
      modifies this
      ensures r == DecodeAck(old(unread))
      ensures r.Read? ==> unread == r.rest
    {
      hide FromBigEndian, BigEndian, DecodeIds;
      var s := unread;
      var ok, tag := ReadExact(1);
      if !ok { return UnexpectedEof; }
      var buf;
      ok, buf := ReadExact(4);
      if !ok { return UnexpectedEof; }
      assert buf == s[1..5] && unread == s[5..];
      var blockId := FromBigEndian(buf);
      if tag[0] == CTRL_BLOCK_COMPLETE {
        return Read(Complete(blockId), unread);
      } else if tag[0] != CTRL_BLOCK_ACK {
        return UnknownTag(tag[0]);
      }
      ok, buf := ReadExact(4);
      if !ok { return UnexpectedEof; }
      assert buf == s[5..9] && unread == s[9..];
      var count := FromBigEndian(buf);
      var missing;
      ok, missing := ReadIds(count);
      if !ok { return UnexpectedEof; }
      assert s[9..][..2 * count] == s[9..9 + 2 * count] && s[9..][2 * count..] == s[9 + 2 * count..];
      return Read(Missing(blockId, missing), unread);
    }
  }
}
