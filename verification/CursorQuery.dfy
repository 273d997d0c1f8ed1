/**
 * Detection of ConPTY's cursor-position query in output that arrives in chunks, and the bounded replies to it
 * (crates/senpi-pty/src/session.rs:360-399).
 */
module CursorQuery {
  import opened Sequences

  type Bytes = seq<bv8>

  const DSR_CURSOR_QUERY: Bytes := [0x1b, 0x5b, 0x36, 0x6e]

  /** How many trailing bytes could begin a query that the next chunk completes. */
  const KEEP := 3

  predicate QueryAt(stream: Bytes, p: int) {
    0 <= p <= |stream| - 4 && stream[p..p + 4] == DSR_CURSOR_QUERY
  }

  /** A query ends among the bytes `from..to` of the stream. */
  ghost predicate QueryEndsIn(stream: Bytes, from: int, to: int) {
    exists p :: QueryAt(stream, p) && from < p + 4 <= to
  }

  /** The last bytes of a stream, as many as are kept. */
  function Tail(stream: Bytes): Bytes {
    if |stream| > KEEP then stream[|stream| - KEEP..] else stream
  }

  lemma QueryInSuffix(all: Bytes, offset: nat, w: int)
    requires offset <= |all|
    ensures QueryAt(all[offset..], w) <==> 0 <= w && QueryAt(all, offset + w)
  {
    if 0 <= w <= |all| - offset - 4 {
      assert all[offset..][w..w + 4] == all[offset + w..offset + w + 4];
    }
  }

  lemma TailOfWindow(stream: Bytes, chunk: Bytes)
    ensures Tail(stream) + chunk == (stream + chunk)[|stream| - |Tail(stream)|..]
    ensures Tail(Tail(stream) + chunk) == Tail(stream + chunk)
  {
    var window, all, offset := Tail(stream) + chunk, stream + chunk, |stream| - |Tail(stream)|;
    assert window == all[offset..];
  }

  /** Searching the kept bytes and the chunk finds exactly the queries that end inside the chunk. */
  lemma {:induction false} WindowSeesChunk(stream: Bytes, chunk: Bytes)
    ensures (exists w :: QueryAt(Tail(stream) + chunk, w)) <==>
      QueryEndsIn(stream + chunk, |stream|, |stream| + |chunk|)
    ensures Tail(Tail(stream) + chunk) == Tail(stream + chunk)
  {
    var window, all, offset := Tail(stream) + chunk, stream + chunk, |stream| - |Tail(stream)|;
    TailOfWindow(stream, chunk);
    assert |Tail(stream)| <= 3 && (offset == 0 || |Tail(stream)| == 3);
    forall w
      ensures QueryAt(window, w) <==> 0 <= w && QueryAt(all, offset + w)
    {
      QueryInSuffix(all, offset, w);
    }
    BothEnds(window, all, offset, |stream|);
  }

  lemma BothEnds(window: Bytes, all: Bytes, offset: nat, from: int)
    requires forall w :: QueryAt(window, w) <==> 0 <= w && QueryAt(all, offset + w)
    requires from - 3 <= offset <= from && (offset == 0 || offset == from - 3)
    ensures (exists w :: QueryAt(window, w)) <==> QueryEndsIn(all, from, |all|)
  {
    if w :| QueryAt(window, w) {
      assert QueryAt(all, offset + w);
    }
    if QueryEndsIn(all, from, |all|) {
      var p :| QueryAt(all, p) && from < p + 4 <= |all|;
      assert QueryAt(all, offset + (p - offset));
      assert QueryAt(window, p - offset);
    }
  }

  class CursorQueryResponder {
    var tail: Bytes
    var answeredInitial: bool
    var replies: nat
    /** Everything read so far. */
    ghost var stream: Bytes

    ghost predicate Valid()
      reads this
    {
      tail == Tail(stream) && (answeredInitial <==> replies > 0)
    }

    constructor ()
      ensures Valid() && stream == [] && !answeredInitial && replies == 0
    {
      tail, answeredInitial, replies, stream := [], false, 0, [];
    }

    static method Search(window: Bytes) returns (seen: bool)
      ensures seen <==> exists w :: QueryAt(window, w)
    {
      var i := 0;
      while i + 4 <= |window|
        invariant 0 <= i && forall w :: w < i ==> !QueryAt(window, w)
      {
        if window[i..i + 4] == DSR_CURSOR_QUERY {
          assert QueryAt(window, i);
          return true;
        }
        i := i + 1;
      }
      seen := false;
    }

    /**
     * Takes one chunk: `seen` exactly when a query of the whole stream ends inside it. The first such chunk is always
     * answered, a later one only while the consumer has not written.
     */
    method Answer(chunk: Bytes, userWrote: bool) returns (seen: bool)
      requires Valid()
      modifies this
      ensures Valid() && stream == old(stream) + chunk
      ensures seen <==> QueryEndsIn(stream, |old(stream)|, |stream|)
      ensures replies == old(replies) + (if seen && (old(replies) == 0 || !userWrote) then 1 else 0)
    {
      WindowSeesChunk(stream, chunk);
      var window := tail + chunk;
      seen := Search(window);
      tail := if |window| > KEEP then window[|window| - KEEP..] else window;
      stream := stream + chunk;
      if !seen || (answeredInitial && userWrote) {
        return;
      }
      answeredInitial := true;
      replies := replies + 1;
    }
  }

  // ---------------------------------------------------------------- whole runs

  lemma {:induction false} ConcatPrefix(chunks: seq<Bytes>, k: nat)
    requires k <= |chunks|
    ensures Concat(chunks[..k]) <= Concat(chunks)
    decreases |chunks|
  {
    if k < |chunks| {
      ConcatPrefix(chunks[..|chunks| - 1], k);
      assert chunks[..|chunks| - 1][..k] == chunks[..k];
    } else {
      assert chunks[..k] == chunks;
    }
  }

  /** Chunk `k` of the stream `Concat(chunks)` contains the end of a query. */
  ghost predicate Queried(chunks: seq<Bytes>, k: nat)
    requires k < |chunks|
  {
    QueryEndsIn(Concat(chunks), |Concat(chunks[..k])|, |Concat(chunks[..k + 1])|)
  }

  /** What ends inside a chunk does not depend on what comes later. */
  lemma {:induction false} LaterChunksDoNotMatter(chunks: seq<Bytes>, k: nat)
    requires k < |chunks|
    ensures Queried(chunks, k) <==>
      QueryEndsIn(Concat(chunks[..k + 1]), |Concat(chunks[..k])|, |Concat(chunks[..k + 1])|)
  {
    ConcatPrefix(chunks, k + 1);
    var part, all := Concat(chunks[..k + 1]), Concat(chunks);
    forall p | p + 4 <= |part|
      ensures QueryAt(part, p) <==> QueryAt(all, p)
    {
      if p >= 0 { assert part[p..p + 4] == all[p..p + 4]; }
    }
  }

  /** Reads a whole stream chunk by chunk: chunk `k` is flagged exactly when a query of the whole stream ends inside it. */
  method Feed(chunks: seq<Bytes>, userWrote: seq<bool>) returns (flags: seq<bool>, replies: nat)
    requires |userWrote| == |chunks|
    ensures |flags| == |chunks| && forall k :: 0 <= k < |chunks| ==> (flags[k] <==> Queried(chunks, k))
    ensures replies == Replies(flags, userWrote)
  {
    var responder := new CursorQueryResponder();
    flags := [];
    for i := 0 to |chunks|
      invariant responder.Valid() && fresh(responder) && responder.stream == Concat(chunks[..i])
      invariant |flags| == i && forall k :: 0 <= k < i ==> (flags[k] <==> Queried(chunks, k))
      invariant responder.replies == Replies(flags, userWrote[..i])
    {
      LaterChunksDoNotMatter(chunks, i);
      assert chunks[..i + 1][..i] == chunks[..i];
      var seen := responder.Answer(chunks[i], userWrote[i]);
      flags := flags + [seen];
      assert userWrote[..i + 1][..i] == userWrote[..i];
    }
    assert userWrote[..|chunks|] == userWrote;
    replies := responder.replies;
  }

  /** The replies due for flagged chunks. */
  function Replies(flags: seq<bool>, userWrote: seq<bool>): nat
    requires |flags| == |userWrote|
  {
    if flags == [] then 0
    else
      var n := |flags| - 1;
      var before := Replies(flags[..n], userWrote[..n]);
      before + (if flags[n] && (before == 0 || !userWrote[n]) then 1 else 0)
  }

  /** The first query is always answered: there is a reply exactly when the stream contains a query, however it is cut. */
  lemma {:induction false} FirstQueryIsAnswered(chunks: seq<Bytes>, flags: seq<bool>, userWrote: seq<bool>)
    requires |flags| == |userWrote| == |chunks|
    requires forall k :: 0 <= k < |chunks| ==> (flags[k] <==> Queried(chunks, k))
    ensures Replies(flags, userWrote) > 0 <==> exists p :: QueryAt(Concat(chunks), p)
  {
    RepliesIffFlagged(flags, userWrote);
    if exists p :: QueryAt(Concat(chunks), p) {
      var p :| QueryAt(Concat(chunks), p);
      var k := EndsInSomeChunk(chunks, p + 4);
      assert Queried(chunks, k);
    }
  }

  lemma {:induction false} RepliesIffFlagged(flags: seq<bool>, userWrote: seq<bool>)
    requires |flags| == |userWrote|
    ensures Replies(flags, userWrote) > 0 <==> exists k :: 0 <= k < |flags| && flags[k]
    decreases |flags|
  {
    if flags != [] {
      var n := |flags| - 1;
      RepliesIffFlagged(flags[..n], userWrote[..n]);
    }
  }

  /** The byte before position `at` of the stream came in chunk `k`. */
  predicate CameIn(chunks: seq<Bytes>, k: int, at: int) {
    0 <= k < |chunks| && |Concat(chunks[..k])| < at <= |Concat(chunks[..k + 1])|
  }

  lemma {:induction false} EndsInSomeChunk(chunks: seq<Bytes>, at: int) returns (k: nat)
    requires 0 < at <= |Concat(chunks)|
    ensures CameIn(chunks, k, at)
  {
    k := 0;
    assert chunks[..|chunks|] == chunks;
    while |Concat(chunks[..k + 1])| < at
      invariant 0 <= k < |chunks| && |Concat(chunks[..k])| < at
      decreases |chunks| - k
    {
      k := k + 1;
    }
  }

  lemma ConcatGrows(chunks: seq<Bytes>, i: nat, j: nat)
    requires i <= j <= |chunks|
    ensures |Concat(chunks[..i])| <= |Concat(chunks[..j])|
  {
    ConcatPrefix(chunks[..j], i);
    assert chunks[..j][..i] == chunks[..i];
  }

  /** A query split between chunks is flagged in one of them only: the one its last byte came in. */
  lemma {:induction false} EndsInOneChunk(chunks: seq<Bytes>, at: int, j: int, k: int)
    requires CameIn(chunks, j, at) && CameIn(chunks, k, at)
    ensures j == k
  {
    if j < k { ConcatGrows(chunks, j + 1, k); }
    if k < j { ConcatGrows(chunks, k + 1, j); }
  }
}
