/** The reorder writer: chunks arrive in any order, with repeats, and leave in order. */
module ReorderWriter {
  import opened Transfers

  datatype DecryptedChunk = DecryptedChunk(chunkId: nat, data: Bytes)

  /** `received` remembers every chunk id that arrived; the code does not keep it. */
  datatype Writer = Writer(
    pending: map<nat, Bytes>,
    nextChunk: nat,
    output: Bytes,
    bytes: nat,
    chunksWritten: nat,
    done: bool,
    received: set<nat>)

  const START: Writer := Writer(map[], 0, [], 0, 0, false, {})

  function WriteNext(w: Writer): Writer
    requires w.nextChunk in w.pending
  {
    var data := w.pending[w.nextChunk];
    w.(pending := w.pending - {w.nextChunk},
       output := w.output + data,
       bytes := w.bytes + |data|,
       chunksWritten := w.chunksWritten + 1,
       nextChunk := w.nextChunk + 1)
  }

  function Flush(w: Writer): Writer
    decreases |w.pending|
  {
    if w.nextChunk in w.pending then
      assert (w.pending - {w.nextChunk}).Keys == w.pending.Keys - {w.nextChunk};
      Flush(WriteNext(w))
    else w
  }

  function Insert(w: Writer, chunk: DecryptedChunk): Writer {
    w.(pending := w.pending[chunk.chunkId := chunk.data], received := w.received + {chunk.chunkId})
  }

  /** One iteration of the outer loop. */
  function Accept(w: Writer, expected: nat, chunk: DecryptedChunk): Writer {
    var w' := Flush(Insert(w, chunk));
    w'.(done := w'.nextChunk >= expected)
  }

  /** The thread's loop over the channel's contents; it stops at `done`. */
  function RunWriter(w: Writer, expected: nat, arrivals: seq<DecryptedChunk>): Writer
    decreases |arrivals|
  {
    if |arrivals| == 0 || w.done then w else RunWriter(Accept(w, expected, arrivals[0]), expected, arrivals[1..])
  }

  /** The part of the invariant that also holds between writes. */
  predicate Prefix(file: seq<Bytes>, w: Writer) {
    && w.nextChunk == w.chunksWritten <= |file|
    && w.output == Concat(file[..w.nextChunk])
    && w.bytes == |w.output|
    && (forall c :: c in w.pending ==> c < |file| && w.pending[c] == file[c] && c in w.received)
    && (forall c: nat :: c < w.nextChunk ==> c in w.received)
    && (forall c: nat :: c in w.received ==> c < w.nextChunk || c in w.pending)
  }

  /** Everything received in order is out, and only that: `nextChunk` is the least id
      not yet received and the output is the file's first `nextChunk` chunks. */
  predicate Ok(file: seq<Bytes>, w: Writer) {
    && Prefix(file, w)
    && w.nextChunk !in w.pending
    && w.nextChunk !in w.received
    && (w.done ==> w.nextChunk == |file|)
  }

  lemma WriteKeeps(file: seq<Bytes>, w: Writer)
    requires Prefix(file, w) && w.nextChunk in w.pending
    ensures Prefix(file, WriteNext(w))
    ensures |WriteNext(w).pending| < |w.pending|
  {
    var n := w.nextChunk;
    assert (w.pending - {n}).Keys == w.pending.Keys - {n};
    assert file[..n + 1][..n] == file[..n];
    hide Concat;
    assert Concat(file[..n + 1]) == Concat(file[..n]) + file[n] by { ConcatSnoc(file, n); }
  }

  lemma ConcatSnoc(file: seq<Bytes>, n: nat)
    requires n < |file|
    ensures Concat(file[..n + 1]) == Concat(file[..n]) + file[n]
  {
    assert file[..n + 1][..n] == file[..n];
  }

  lemma {:induction false} FlushKeeps(file: seq<Bytes>, w: Writer)
    requires Prefix(file, w)
    ensures Prefix(file, Flush(w))
    ensures Flush(w).nextChunk !in Flush(w).pending
    ensures Flush(w).nextChunk >= w.nextChunk
    ensures Flush(w).received == w.received && Flush(w).done == w.done
    decreases |w.pending|
  {
    hide Prefix;
    if w.nextChunk in w.pending {
      WriteKeeps(file, w);
      FlushKeeps(file, WriteNext(w));
    }
  }

  /** One arrival, new or repeated, in any order. */
  lemma AcceptKeeps(file: seq<Bytes>, w: Writer, chunk: DecryptedChunk)
    requires Ok(file, w)
    requires chunk.chunkId < |file| && chunk.data == file[chunk.chunkId]
    ensures Ok(file, Accept(w, |file|, chunk))
    ensures Accept(w, |file|, chunk).received == w.received + {chunk.chunkId}
    ensures Accept(w, |file|, chunk).nextChunk >= w.nextChunk
    ensures Accept(w, |file|, chunk).done <==> Accept(w, |file|, chunk).nextChunk == |file|
  {
    FlushKeeps(file, Insert(w, chunk));
    var w' := Flush(Insert(w, chunk));
    assert w'.nextChunk in w'.received ==> w'.nextChunk in w'.pending;
  }

  predicate FromFile(file: seq<Bytes>, arrivals: seq<DecryptedChunk>) {
    forall k :: 0 <= k < |arrivals| ==> arrivals[k].chunkId < |file| && arrivals[k].data == file[arrivals[k].chunkId]
  }

  /** Whatever the arrival order and however many repeats, after the run the output is the
      longest prefix of the file whose chunks all arrived. */
  lemma {:induction false} RunKeeps(file: seq<Bytes>, w: Writer, arrivals: seq<DecryptedChunk>)
    requires Ok(file, w) && FromFile(file, arrivals)
    ensures Ok(file, RunWriter(w, |file|, arrivals))
    ensures forall k :: 0 <= k < |arrivals| ==>
              RunWriter(w, |file|, arrivals).done || arrivals[k].chunkId in RunWriter(w, |file|, arrivals).received
    ensures w.received <= RunWriter(w, |file|, arrivals).received
    decreases |arrivals|
  {
    if |arrivals| > 0 && !w.done {
      AcceptKeeps(file, w, arrivals[0]);
      RunKeeps(file, Accept(w, |file|, arrivals[0]), arrivals[1..]);
      var end := RunWriter(w, |file|, arrivals);
      forall k | 0 <= k < |arrivals| ensures end.done || arrivals[k].chunkId in end.received {
        if k > 0 {
          assert arrivals[k] == arrivals[1..][k - 1];
        }
      }
    }
  }

  lemma StartOk(file: seq<Bytes>)
    ensures Ok(file, START)
  {
    assert file[..0] == [];
  }

  predicate Arrives(arrivals: seq<DecryptedChunk>, c: nat) {
    exists k :: 0 <= k < |arrivals| && arrivals[k].chunkId == c
  }

  /** The writer needs every chunk, and every chunk is enough. */
  lemma WholeFileIffAllArrived(file: seq<Bytes>, arrivals: seq<DecryptedChunk>)
    requires FromFile(file, arrivals)
    requires forall c :: 0 <= c < |file| ==> |file[c]| > 0
    ensures RunWriter(START, |file|, arrivals).output == Concat(file) <==>
            forall c: nat :: c < |file| ==> Arrives(arrivals, c)
  {
    StartOk(file);
    RunKeeps(file, START, arrivals);
    var w := RunWriter(START, |file|, arrivals);
    PrefixIsWhole(file, w.nextChunk);
    ReceivedFromArrivals(START, |file|, arrivals);
    if forall c: nat :: c < |file| ==> Arrives(arrivals, c) {
      assert w.nextChunk < |file| ==> Arrives(arrivals, w.nextChunk);
    }
  }

  lemma {:induction false} ReceivedFromArrivals(w: Writer, expected: nat, arrivals: seq<DecryptedChunk>)
    ensures forall c: nat :: c in RunWriter(w, expected, arrivals).received ==>
              c in w.received || Arrives(arrivals, c)
    decreases |arrivals|
  {
    if |arrivals| > 0 && !w.done {
      FlushReceived(Insert(w, arrivals[0]));
      ReceivedFromArrivals(Accept(w, expected, arrivals[0]), expected, arrivals[1..]);
      var end := RunWriter(w, expected, arrivals);
      forall c: nat | c in end.received && c !in w.received
        ensures Arrives(arrivals, c)
      {
        if c == arrivals[0].chunkId {
        } else {
          var k :| 0 <= k < |arrivals[1..]| && arrivals[1..][k].chunkId == c;
          assert arrivals[k + 1].chunkId == c;
        }
      }
    }
  }

  lemma {:induction false} FlushReceived(w: Writer)
    ensures Flush(w).received == w.received
    decreases |w.pending|
  {
    if w.nextChunk in w.pending {
      assert (w.pending - {w.nextChunk}).Keys == w.pending.Keys - {w.nextChunk};
      FlushReceived(WriteNext(w));
    }
  }

  /** With no empty chunk, a shorter prefix is a different file. */
  lemma {:induction false} PrefixIsWhole(file: seq<Bytes>, n: nat)
    requires n <= |file|
    requires forall c :: 0 <= c < |file| ==> |file[c]| > 0
    ensures |Concat(file[..n])| <= |Concat(file)|
    ensures Concat(file[..n]) == Concat(file) <==> n == |file|
  {
    if n == |file| {
      assert file[..n] == file;
    } else {
      var m := |file| - 1;
      PrefixIsWhole(file[..m], n);
      assert file[..m][..n] == file[..n];
    }
  }

  /** Sequential writing puts every chunk at `chunk_id * CHUNK_SIZE`. */
  lemma {:induction false} ChunkAtOffset(file: seq<Bytes>, size: ChunkSize, w: Writer, c: nat)
    requires Prefix(file, w) && c < w.nextChunk
    requires forall k :: 0 <= k < |file| - 1 ==> |file[k]| == size
    ensures c * size + |file[c]| <= |w.output|
    ensures w.output[c * size..c * size + |file[c]|] == file[c]
  {
    ConcatOffset(file, size, c, w.nextChunk);
  }

  lemma {:induction false} ConcatOffset(file: seq<Bytes>, size: ChunkSize, c: nat, n: nat)
    requires c < n <= |file|
    requires forall k :: 0 <= k < |file| - 1 ==> |file[k]| == size
    ensures c * size + |file[c]| <= |Concat(file[..n])|
    ensures Concat(file[..n])[c * size..c * size + |file[c]|] == file[c]
  {
    assert file[..n][..n - 1] == file[..n - 1];
    if c == n - 1 {
      ConcatLength(file, size, c);
    } else {
      ConcatOffset(file, size, c, n - 1);
    }
  }

  lemma {:induction false} ConcatLength(file: seq<Bytes>, size: ChunkSize, n: nat)
    requires n < |file|
    requires forall k :: 0 <= k < |file| - 1 ==> |file[k]| == size
    ensures |Concat(file[..n])| == n * size
  {
    if n > 0 {
      assert file[..n][..n - 1] == file[..n - 1];
      ConcatLength(file, size, n - 1);
      AddOneBlock(n - 1, size);
    }
  }

  lemma FlushStep(w: Writer)
    ensures w.nextChunk in w.pending ==>
              |WriteNext(w).pending| < |w.pending| && Flush(w) == Flush(WriteNext(w))
    ensures w.nextChunk !in w.pending ==> Flush(w) == w
  {
    if w.nextChunk in w.pending {
      assert (w.pending - {w.nextChunk}).Keys == w.pending.Keys - {w.nextChunk};
    }
  }

  class WriterThread {
    var pending: map<nat, Bytes>
    var nextChunk: nat
    var output: Bytes
    var bytes: nat
    var chunksWritten: nat
    var done: bool
    ghost var received: set<nat>

    ghost function View(): Writer reads this {
      Writer(pending, nextChunk, output, bytes, chunksWritten, done, received)
    }

    constructor ()
      ensures View() == START
    {
      pending, nextChunk, output, bytes, chunksWritten, done, received := map[], 0, [], 0, 0, false, {};
    }

    /** The inner loop: out with everything now in order. */
    method WriteInOrder()
      modifies this
      ensures View() == Flush(old(View()))
    {
      hide Flush;
      ghost var w := View();
      while nextChunk in pending
        invariant View() == w && Flush(w) == Flush(old(View()))
        decreases |pending|
      {
        FlushStep(w);
        var data := pending[nextChunk];
        pending := pending - {nextChunk};
        output := output + data;
        bytes := bytes + |data|;
        chunksWritten := chunksWritten + 1;
        nextChunk := nextChunk + 1;
        w := WriteNext(w);
      }
      FlushStep(w);
    }

    /** One received chunk. */
    method Receive(chunk: DecryptedChunk, expected: nat)
      modifies this
      ensures View() == Accept(old(View()), expected, chunk)
    {
      pending := pending[chunk.chunkId := chunk.data];
      received := received + {chunk.chunkId};
      WriteInOrder();
      done := nextChunk >= expected;
    }

    /** `arrivals` is what the channel delivers until every worker has hung up. */
    method Run(arrivals: seq<DecryptedChunk>, expected: nat)
      modifies this
      ensures View() == RunWriter(old(View()), expected, arrivals)
    {
      var k := 0;
      while k < |arrivals| && !done
        invariant 0 <= k <= |arrivals|
        invariant RunWriter(View(), expected, arrivals[k..]) == RunWriter(old(View()), expected, arrivals)
      {
        assert arrivals[k..][0] == arrivals[k] && arrivals[k..][1..] == arrivals[k + 1..];
        Receive(arrivals[k], expected);
        k := k + 1;
      }
    }
  }
}
