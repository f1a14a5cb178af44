/** One file transfer: its bytes, the constants of the transport, and the
    block <-> chunk id arithmetic both ends share. */
module Transfers {
  import opened Sums

  type Byte = n: int | 0 <= n < 256
  type Bytes = seq<Byte>
  type Hash = n: int | 0 <= n < 0x1_0000_0000_0000_0000
  type Positive = n: int | 0 < n witness 1
  type BlockSize = n: int | 0 < n <= 0x1_0000 witness 1
  type ChunkSize = n: int | 0 < n < 0x1_0000_0000 witness 1

  const U16: nat := 0x1_0000
  const U32: nat := 0x1_0000_0000

  datatype Option<+T> = None | Some(value: T)

  /** Everything both ends agree on before the first datagram. `file` is the
      original cut into chunks, `crypt` the session's stream cipher, `hash` the
      chunk checksum; times are in milliseconds. */
  datatype Transfer = Transfer(
    original: Bytes,
    chunkSize: ChunkSize,
    file: seq<Bytes>,
    packetsPerBlock: BlockSize,
    pipelineDepth: Positive,
    maxRounds: Positive,
    grace: Positive,
    idleTimeout: Positive,
    staleAfter: Positive,
    crypt: (nat, Bytes) -> Bytes,
    hash: Bytes -> Hash)

  /** The cipher is an involution per chunk id that keeps lengths, and the
      number of chunks fits the wire's 32 bits. */
  ghost predicate Valid(t: Transfer) {
    && t.file == Split(t.original, t.chunkSize)
    && |t.file| < U32
    && (forall c: nat, d: Bytes :: t.crypt(c, t.crypt(c, d)) == d)
    && (forall c: nat, d: Bytes :: |t.crypt(c, d)| == |d|)
  }

  // ---- cutting the file into chunks, and joining chunks back ----

  function Split(data: Bytes, size: ChunkSize): seq<Bytes> {
    if |data| == 0 then []
    else if |data| <= size then [data]
    else [data[..size]] + Split(data[size..], size)
  }

  function Concat(chunks: seq<Bytes>): Bytes {
    if |chunks| == 0 then [] else Concat(chunks[..|chunks| - 1]) + chunks[|chunks| - 1]
  }

  lemma {:induction false} ConcatCons(chunk: Bytes, rest: seq<Bytes>)
    ensures Concat([chunk] + rest) == chunk + Concat(rest)
  {
    var all := [chunk] + rest;
    if |rest| == 0 {
      assert all[..0] == [] && all == [chunk];
      assert Concat([]) == [];
    } else {
      assert all[..|all| - 1] == [chunk] + rest[..|rest| - 1];
      ConcatCons(chunk, rest[..|rest| - 1]);
    }
  }

  /** Chunks joined in order give the file back; there are ceil(size / chunk size)
      of them, all full but possibly the last, none empty. */
  lemma {:induction false} SplitConcat(data: Bytes, size: ChunkSize)
    ensures Concat(Split(data, size)) == data
    ensures |Split(data, size)| == (|data| + size - 1) / size
    ensures forall c :: 0 <= c < |Split(data, size)| ==> 0 < |Split(data, size)[c]| <= size
    ensures forall c :: 0 <= c < |Split(data, size)| - 1 ==> |Split(data, size)[c]| == size
    decreases |data|
  {
    if |data| == 0 {
      Ceil(0, size);
    } else if |data| <= size {
      ConcatCons(data, []);
      assert [data] + [] == [data];
      Ceil(|data|, size);
    } else {
      SplitConcat(data[size..], size);
      ConcatCons(data[..size], Split(data[size..], size));
      assert data[..size] + data[size..] == data;
      Ceil(|data|, size);
    }
  }

  lemma MulMonotone(a: nat, b: nat, c: nat)
    requires a <= b
    ensures a * c <= b * c
  {
  }

  lemma AddOneBlock(a: nat, c: nat)
    ensures (a + 1) * c == a * c + c
  {
  }

  /** Euclidean division is unique. */
  lemma QuotientUnique(n: nat, per: Positive, q: nat, r: nat)
    requires n == q * per + r && r < per
    ensures n / per == q && n % per == r
  {
    var q', r' := n / per, n % per;
    assert n == q' * per + r';
    if q' < q {
      MulMonotone(q' + 1, q, per);
      AddOneBlock(q', per);
    } else if q < q' {
      MulMonotone(q + 1, q', per);
      AddOneBlock(q, per);
    }
  }

  lemma Ceil(n: nat, size: Positive)
    ensures n == 0 ==> (n + size - 1) / size == 0
    ensures 0 < n <= size ==> (n + size - 1) / size == 1
    ensures n > size ==> (n + size - 1) / size == 1 + (n - size + size - 1) / size
  {
    if n == 0 {
      QuotientUnique(size - 1, size, 0, size - 1);
    } else if n <= size {
      QuotientUnique(n + size - 1, size, 1, n - 1);
    } else {
      var m := n - 1;
      assert m == (m / size) * size + m % size;
      AddOneBlock(m / size, size);
      QuotientUnique(n + size - 1, size, m / size + 1, m % size);
    }
  }

  // ---- the reader thread ----

  /** `got` are the sizes a series of reads up to the end of `left` bytes may return: each at
      least one byte, and at most a buffer. */
  predicate Reads(left: nat, size: ChunkSize, got: seq<nat>) {
    if |got| == 0 then left == 0
    else 0 < got[0] <= size && got[0] <= left && Reads(left - got[0], size, got[1..])
  }

  /** The file cut where the reads ended. */
  function Cut(data: Bytes, size: ChunkSize, got: seq<nat>): seq<Bytes>
    requires Reads(|data|, size, got)
    decreases |got|
  {
    if |got| == 0 then [] else [data[..got[0]]] + Cut(data[got[0]..], size, got[1..])
  }

  /** The reader thread: one chunk per read, ids counted from 0. */
  method ReadChunks(data: Bytes, size: ChunkSize, got: seq<nat>) returns (chunks: seq<Bytes>)
    requires Reads(|data|, size, got)
    ensures chunks == Cut(data, size, got)
  {
    chunks := [];
    var at := 0;
    assert data[0..] == data && got[0..] == got;
    for k := 0 to |got|
      invariant at <= |data| && Reads(|data| - at, size, got[k..])
      invariant chunks + Cut(data[at..], size, got[k..]) == Cut(data, size, got)
    {
      var bytes := got[k];
      assert got[k..][0] == bytes && got[k..][1..] == got[k + 1..];
      assert data[at..][..bytes] == data[at..at + bytes] && data[at..][bytes..] == data[at + bytes..];
      chunks := chunks + [data[at..at + bytes]];
      at := at + bytes;
    }
  }

  /** No byte is lost or repeated, whatever the reads return. */
  lemma {:induction false} CutConcat(data: Bytes, size: ChunkSize, got: seq<nat>)
    requires Reads(|data|, size, got)
    ensures Concat(Cut(data, size, got)) == data && |Cut(data, size, got)| == |got|
    decreases |got|
  {
    if |got| > 0 {
      CutConcat(data[got[0]..], size, got[1..]);
      ConcatCons(data[..got[0]], Cut(data[got[0]..], size, got[1..]));
      assert data[..got[0]] + data[got[0]..] == data;
    }
  }

  ghost predicate FullReads(size: ChunkSize, got: seq<nat>) {
    forall k :: 0 <= k < |got| - 1 ==> got[k] == size
  }

  /** The chunks are those the receiver was told to expect exactly when every read but the last
      filled its buffer. */
  lemma {:induction false} CutIsSplitIff(data: Bytes, size: ChunkSize, got: seq<nat>)
    requires Reads(|data|, size, got)
    ensures Cut(data, size, got) == Split(data, size) <==> FullReads(size, got)
    decreases |got|
  {
    if |got| > 0 {
      var n := got[0];
      var rest, tail := data[n..], got[1..];
      var cut, split := Cut(data, size, got), Split(data, size);
      CutIsSplitIff(rest, size, tail);
      CutConcat(rest, size, tail);
      FullReadsCons(size, got);
      assert cut[0] == data[..n] && cut[1..] == Cut(rest, size, tail);
      if |tail| == 0 {
        assert data[..n] == data && cut == [data];
      } else if n < size {
        assert |split| > 1 ==> |split[0]| == size;
      } else {
        assert split[0] == data[..size] && split[1..] == Split(rest, size);
        assert cut == [cut[0]] + cut[1..] && split == [split[0]] + split[1..];
      }
    }
  }

  lemma FullReadsCons(size: ChunkSize, got: seq<nat>)
    requires |got| > 0
    ensures FullReads(size, got) <==> (|got| == 1 || got[0] == size) && FullReads(size, got[1..])
  {
    var tail := got[1..];
    assert forall k :: 0 <= k < |tail| ==> tail[k] == got[k + 1];
    if FullReads(size, tail) && got[0] == size {
      forall k | 0 <= k < |got| - 1 ensures got[k] == size {
        assert k > 0 ==> tail[k - 1] == size;
      }
    }
  }

  // ---- block arithmetic ----

  function TotalChunks(t: Transfer): nat { |t.file| }

  function BlockOf(t: Transfer, chunk: nat): nat { chunk / t.packetsPerBlock }

  function IndexOf(t: Transfer, chunk: nat): nat { chunk % t.packetsPerBlock }

  function ChunkIdOf(t: Transfer, block: nat, index: nat): nat { block * t.packetsPerBlock + index }

  function PacketsInBlock(t: Transfer, block: nat): nat {
    var start := block * t.packetsPerBlock;
    var remaining := if start <= TotalChunks(t) then TotalChunks(t) - start else 0;
    if remaining < t.packetsPerBlock then remaining else t.packetsPerBlock
  }

  function TotalBlocks(t: Transfer): nat {
    (TotalChunks(t) + t.packetsPerBlock - 1) / t.packetsPerBlock
  }

  /** The same arithmetic in the machine types of the code: a chunk id is a u32,
      an index is cut to a u16, and the product wraps. */
  function BlockOfU32(t: Transfer, chunk: nat): (nat, nat) {
    (chunk / t.packetsPerBlock, (chunk % t.packetsPerBlock) % U16)
  }

  function ChunkIdOfU32(t: Transfer, block: nat, index: nat): nat {
    ((block * t.packetsPerBlock) % U32 + index) % U32
  }

  /** From a chunk id to its place in a block and back. */
  lemma ChunkPlace(t: Transfer, chunk: nat)
    ensures IndexOf(t, chunk) < t.packetsPerBlock
    ensures ChunkIdOf(t, BlockOf(t, chunk), IndexOf(t, chunk)) == chunk
    ensures chunk < TotalChunks(t) ==>
              BlockOf(t, chunk) < TotalBlocks(t) && IndexOf(t, chunk) < PacketsInBlock(t, BlockOf(t, chunk))
  {
    var per, b := t.packetsPerBlock, BlockOf(t, chunk);
    assert chunk == b * per + chunk % per;
    if chunk < TotalChunks(t) {
      BlockBelow(t, b);
    }
  }

  /** From a place in a block to its chunk id and back. */
  lemma PlaceChunkId(t: Transfer, block: nat, index: nat)
    requires index < PacketsInBlock(t, block)
    ensures block < TotalBlocks(t)
    ensures ChunkIdOf(t, block, index) < TotalChunks(t)
    ensures BlockOf(t, ChunkIdOf(t, block, index)) == block
    ensures IndexOf(t, ChunkIdOf(t, block, index)) == index
  {
    QuotientUnique(ChunkIdOf(t, block, index), t.packetsPerBlock, block, index);
    BlockBelow(t, block);
  }

  /** A block holds packets exactly when it is one of the file's blocks. */
  lemma BlockBelow(t: Transfer, block: nat)
    ensures block < TotalBlocks(t) <==> block * t.packetsPerBlock < TotalChunks(t)
    ensures block < TotalBlocks(t) <==> 0 < PacketsInBlock(t, block)
    ensures PacketsInBlock(t, block) <= t.packetsPerBlock
  {
    var per, n, m := t.packetsPerBlock, TotalChunks(t), TotalBlocks(t);
    var up := n + per - 1;
    assert up == m * per + up % per;
    AddOneBlock(block, per);
    if block < m {
      MulMonotone(block + 1, m, per);
    } else {
      MulMonotone(m, block, per);
    }
  }

  /** No id of the file overflows or is cut: the u32/u16 code computes the exact values,
      both ways. */
  lemma NoOverflow(t: Transfer, chunk: nat)
    requires |t.file| < U32 && chunk < TotalChunks(t)
    ensures BlockOfU32(t, chunk) == (BlockOf(t, chunk), IndexOf(t, chunk))
    ensures ChunkIdOfU32(t, BlockOf(t, chunk), IndexOf(t, chunk)) == chunk
    ensures BlockOf(t, chunk) < U32 && IndexOf(t, chunk) < U16
  {
    var per, b, i := t.packetsPerBlock, BlockOf(t, chunk), IndexOf(t, chunk);
    assert i < per && b * per + i == chunk by { ChunkPlace(t, chunk); }
    assert b <= b * per by { MulGrows(b, per); }
    Fits(b * per, U32);
    Fits(chunk, U32);
    Fits(i, U16);
  }

  lemma MulGrows(b: nat, per: Positive)
    ensures b <= b * per
  {
    MulMonotone(1, per, b);
    assert b * per == per * b;
  }

  lemma Fits(n: nat, limit: Positive)
    requires n < limit
    ensures n % limit == n
  {
  }

  function PacketsIn(t: Transfer): nat -> nat { b => PacketsInBlock(t, b) }

  lemma {:induction false} PartialBlocks(t: Transfer, n: nat)
    ensures var sent := n * t.packetsPerBlock;
            Sum(PacketsIn(t), n) == if sent <= TotalChunks(t) then sent else TotalChunks(t)
  {
    if n > 0 {
      PartialBlocks(t, n - 1);
      AddOneBlock(n - 1, t.packetsPerBlock);
    }
  }

  /** The blocks partition the file: their packet counts add up to the chunk count. */
  lemma BlocksPartitionFile(t: Transfer)
    ensures Sum(PacketsIn(t), TotalBlocks(t)) == TotalChunks(t)
  {
    PartialBlocks(t, TotalBlocks(t));
    BlockBelow(t, TotalBlocks(t));
  }
}
