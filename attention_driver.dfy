/**
 * The memory-bounded attention driver `attention` (modules.py lines 95-138)
 * and the per-block kernel `_attention` (lines 69-92) it calls.
 *
 * The numeric kernel is not modelled: its two contractions run over the
 * feature axis `d` and the key axis `j`, and its softmax over the key axis,
 * so every query row is attended on its own. `rowAttn(qRow, key, scale,
 * value, biasRow)` stands for that per-row computation and returns the row of
 * the aggregated output together with the row of attention weights. A query
 * row (type `Q`) is the slab `query[..., r, :]` across all batch dimensions;
 * a bias row (type `B`) is `bias[..., r, :]`.
 */
module ChunkedAttention {
  import opened Wrappers
  import opened Chunks

  /** `logits + bias` broadcasts along the query-row axis: the bias has as
      many rows as the block, or a single row. */
  predicate Broadcasts(biasRows: nat, rows: nat)
  {
    biasRows == rows || biasRows == 1
  }

  /** The bias row that row `j` of a block of `rows` query rows is added to. */
  function BlockBiasRow<B>(bias: seq<B>, rows: nat, j: nat): B
    requires Broadcasts(|bias|, rows) && j < rows
  {
    if |bias| == rows then bias[j] else bias[0]
  }

  /**
   * `_attention` on a block of query rows against all keys and values,
   * followed by the write of its rows into the block's rows of the two
   * buffers. `None` when the bias does not broadcast against the block: a
   * bias of other than one row or the block's row count fails inside
   * `_attention`, except on a one-row block, where `_attention` broadcasts the
   * block to the bias's rows and the write into the single row fails.
   */
  function BlockAttention<Q, K, S, V, B, O, W>(
    qs: seq<Q>, key: K, scale: S, value: V, bias: seq<B>,
    rowAttn: (Q, K, S, V, B) -> (O, W)): (r: Option<(seq<O>, seq<W>)>)
    ensures r.Some? <==> Broadcasts(|bias|, |qs|)
    ensures r.Some? ==> |r.value.0| == |qs| && |r.value.1| == |qs|
  {
    if Broadcasts(|bias|, |qs|) then
      var rows := seq(|qs|, j requires 0 <= j < |qs| =>
        rowAttn(qs[j], key, scale, value, BlockBiasRow(bias, |qs|, j)));
      Some((seq(|qs|, j requires 0 <= j < |qs| => rows[j].0),
            seq(|qs|, j requires 0 <= j < |qs| => rows[j].1)))
    else
      None
  }

  /** The bias handed to piece `i` (lines 129-132): the whole bias unless its
      query-row axis has the query length, in which case rows `[start, end)`. */
  function PieceBias<B>(bias: seq<B>, n: nat, s: nat, i: nat): (b: seq<B>)
    requires CanSplit(n, s) && i < NumChunks(n, s)
    ensures |bias| != n ==> b == bias
    ensures |bias| == n ==> ChunkStart(i, s) <= ChunkEnd(i, s, n) <= n && |b| == ChunkEnd(i, s, n) - ChunkStart(i, s)
    ensures |bias| == n ==> forall j :: 0 <= j < |b| ==> b[j] == bias[ChunkStart(i, s) + j]
  {
    ChunkBounds(n, s, i);
    if |bias| != n then bias else bias[ChunkStart(i, s)..ChunkEnd(i, s, n)]
  }

  /** `_attention` on piece `i` of the query, against all keys and values. */
  function PieceAttention<Q, K, S, V, B, O, W>(
    query: seq<Q>, key: K, scale: S, value: V, bias: seq<B>, s: nat,
    rowAttn: (Q, K, S, V, B) -> (O, W), i: nat): Option<(seq<O>, seq<W>)>
    requires CanSplit(|query|, s) && i < NumChunks(|query|, s)
  {
    ChunkBounds(|query|, s, i);
    BlockAttention(query[ChunkStart(i, s)..ChunkEnd(i, s, |query|)], key, scale, value,
                   PieceBias(bias, |query|, s, i), rowAttn)
  }

  /** Piece `i` of a query of `n` rows, split by `s`, is handed a bias of `m`
      rows that broadcasts against it. */
  predicate ChunkBroadcasts(m: nat, n: nat, s: nat, i: nat)
    requires CanSplit(n, s) && i < NumChunks(n, s)
  {
    ChunkBounds(n, s, i);
    var rows := ChunkEnd(i, s, n) - ChunkStart(i, s);
    Broadcasts(if m != n then m else rows, rows)
  }

  /** The chunked driver raises no broadcasting error. */
  predicate EveryChunkBroadcasts(m: nat, n: nat, s: nat)
    requires CanSplit(n, s)
  {
    forall i :: 0 <= i < NumChunks(n, s) ==> ChunkBroadcasts(m, n, s, i)
  }

  lemma PieceAttentionBroadcasts<Q, K, S, V, B, O, W>(
    query: seq<Q>, key: K, scale: S, value: V, bias: seq<B>, s: nat,
    rowAttn: (Q, K, S, V, B) -> (O, W), i: nat)
    requires CanSplit(|query|, s) && i < NumChunks(|query|, s)
    ensures PieceAttention(query, key, scale, value, bias, s, rowAttn, i).Some?
      <==> ChunkBroadcasts(|bias|, |query|, s, i)
  {
    ChunkBounds(|query|, s, i);
  }

  /** What the chunked driver computes for query row `r`: the row of the
      result of its piece `r / s`; `None` when that piece's bias does not
      broadcast. */
  function ChunkedRow<Q, K, S, V, B, O, W>(
    query: seq<Q>, key: K, scale: S, value: V, bias: seq<B>, s: nat,
    rowAttn: (Q, K, S, V, B) -> (O, W), r: nat): Option<(O, W)>
    requires CanSplit(|query|, s) && r < |query|
  {
    ChunkOfRow(|query|, s, r);
    var i := r / s;
    ChunkBounds(|query|, s, i);
    var piece :- PieceAttention(query, key, scale, value, bias, s, rowAttn, i);
    Some((piece.0[r - ChunkStart(i, s)], piece.1[r - ChunkStart(i, s)]))
  }

  /**
   * Chunking is transparent: whenever the bias broadcasts against the whole
   * query (the driver with a single piece succeeds), every piece's bias
   * broadcasts too, and every row gets exactly what the single piece gives it.
   */
  lemma {:induction false} ChunkingIsTransparent<Q, K, S, V, B, O, W>(
    query: seq<Q>, key: K, scale: S, value: V, bias: seq<B>, s: nat,
    rowAttn: (Q, K, S, V, B) -> (O, W))
    requires CanSplit(|query|, s)
    requires BlockAttention(query, key, scale, value, bias, rowAttn).Some?
    ensures EveryChunkBroadcasts(|bias|, |query|, s)
    ensures var whole := BlockAttention(query, key, scale, value, bias, rowAttn).value;
      forall r :: 0 <= r < |query| ==>
        ChunkedRow(query, key, scale, value, bias, s, rowAttn, r) == Some((whole.0[r], whole.1[r]))
  {
    var n := |query|;
    var whole := BlockAttention(query, key, scale, value, bias, rowAttn).value;
    forall i | 0 <= i < NumChunks(n, s)
      ensures ChunkBroadcasts(|bias|, n, s, i)
    {
      ChunkBounds(n, s, i);
    }
    forall r | 0 <= r < n
      ensures ChunkedRow(query, key, scale, value, bias, s, rowAttn, r) == Some((whole.0[r], whole.1[r]))
    {
      PieceRowIsWholeRow(query, key, scale, value, bias, s, rowAttn, r);
    }
  }

  lemma {:induction false} PieceRowIsWholeRow<Q, K, S, V, B, O, W>(
    query: seq<Q>, key: K, scale: S, value: V, bias: seq<B>, s: nat,
    rowAttn: (Q, K, S, V, B) -> (O, W), r: nat)
    requires CanSplit(|query|, s) && r < |query|
    requires BlockAttention(query, key, scale, value, bias, rowAttn).Some?
    ensures var whole := BlockAttention(query, key, scale, value, bias, rowAttn).value;
      ChunkedRow(query, key, scale, value, bias, s, rowAttn, r) == Some((whole.0[r], whole.1[r]))
  {
    var n := |query|;
    ChunkOfRow(n, s, r);
    var i := r / s;
    ChunkBounds(n, s, i);
    var start, hi := ChunkStart(i, s), ChunkEnd(i, s, n);
    var b := PieceBias(bias, n, s, i);
    var qs := query[start..hi];
    assert qs[r - start] == query[r];
    assert BlockBiasRow(b, hi - start, r - start) == BlockBiasRow(bias, n, r);
  }

  /** Row `r` of piece `i` is the row `r - start` of that piece's result. */
  lemma PieceRow<Q, K, S, V, B, O, W>(
    query: seq<Q>, key: K, scale: S, value: V, bias: seq<B>, s: nat,
    rowAttn: (Q, K, S, V, B) -> (O, W), i: nat, r: nat)
    requires CanSplit(|query|, s) && i < NumChunks(|query|, s)
    requires ChunkStart(i, s) <= r < ChunkEnd(i, s, |query|)
    requires PieceAttention(query, key, scale, value, bias, s, rowAttn, i).Some?
    ensures ChunkEnd(i, s, |query|) <= |query|
    ensures var piece := PieceAttention(query, key, scale, value, bias, s, rowAttn, i).value;
      ChunkedRow(query, key, scale, value, bias, s, rowAttn, r)
        == Some((piece.0[r - ChunkStart(i, s)], piece.1[r - ChunkStart(i, s)]))
  {
    ChunkBounds(|query|, s, i);
    ChunkIndexUnique(|query|, s, i, r);
  }

  /** Chunking is not transparent on the error path: a bias whose query-row
      axis is neither 1 nor the query length, but equals every piece's length,
      is rejected by the driver with a single piece and accepted by the chunked one. */
  lemma ChunkSizedBiasOnlyPassesChunked()
    ensures !Broadcasts(2, 4)
    ensures EveryChunkBroadcasts(2, 4, 2)
  {
    assert NumChunks(4, 2) == 2;
    forall i | 0 <= i < 2
      ensures ChunkBroadcasts(2, 4, 2, i)
    {
      assert i == 0 || i == 1;
      assert Covered(i + 1, 2, 4) == 2 * i + 2;
    }
  }

  /** The driver's result on pieces `[0, i)`: their results, concatenated in
      order; `None` when one of them raises. */
  function PiecesUpTo<Q, K, S, V, B, O, W>(
    query: seq<Q>, key: K, scale: S, value: V, bias: seq<B>, s: nat,
    rowAttn: (Q, K, S, V, B) -> (O, W), i: nat): Option<(seq<O>, seq<W>)>
    requires CanSplit(|query|, s) && i <= NumChunks(|query|, s)
    decreases i
  {
    if i == 0 then Some(([], []))
    else
      var done :- PiecesUpTo(query, key, scale, value, bias, s, rowAttn, i - 1);
      var piece :- PieceAttention(query, key, scale, value, bias, s, rowAttn, i - 1);
      Some((done.0 + piece.0, done.1 + piece.1))
  }

  /** One more piece extends the concatenation by that piece's rows. */
  lemma PiecesUpToStep<Q, K, S, V, B, O, W>(
    query: seq<Q>, key: K, scale: S, value: V, bias: seq<B>, s: nat,
    rowAttn: (Q, K, S, V, B) -> (O, W), i: nat, done: (seq<O>, seq<W>), piece: (seq<O>, seq<W>))
    requires CanSplit(|query|, s) && i < NumChunks(|query|, s)
    requires PiecesUpTo(query, key, scale, value, bias, s, rowAttn, i) == Some(done)
    requires PieceAttention(query, key, scale, value, bias, s, rowAttn, i) == Some(piece)
    ensures PiecesUpTo(query, key, scale, value, bias, s, rowAttn, i + 1) == Some((done.0 + piece.0, done.1 + piece.1))
  {
  }

  /** What the chunked driver returns: all pieces' results, concatenated. */
  function Chunked<Q, K, S, V, B, O, W>(
    query: seq<Q>, key: K, scale: S, value: V, bias: seq<B>, s: nat,
    rowAttn: (Q, K, S, V, B) -> (O, W)): (r: Option<(seq<O>, seq<W>)>)
    requires CanSplit(|query|, s)
    ensures r.Some? ==> |r.value.0| == |query| && |r.value.1| == |query|
  {
    var k := NumChunks(|query|, s);
    var r := PiecesUpTo(query, key, scale, value, bias, s, rowAttn, k);
    if r.Some? then
      PiecesUpToRows(query, key, scale, value, bias, s, rowAttn, k);
      LastChunkEnds(|query|, s);
      r
    else r
  }

  /** The first `i` pieces succeed exactly when each of their biases broadcasts. */
  lemma {:induction false} PiecesUpToSucceeds<Q, K, S, V, B, O, W>(
    query: seq<Q>, key: K, scale: S, value: V, bias: seq<B>, s: nat,
    rowAttn: (Q, K, S, V, B) -> (O, W), i: nat)
    requires CanSplit(|query|, s) && i <= NumChunks(|query|, s)
    ensures PiecesUpTo(query, key, scale, value, bias, s, rowAttn, i).Some?
      <==> forall j :: 0 <= j < i ==> ChunkBroadcasts(|bias|, |query|, s, j)
    decreases i
  {
    if i > 0 {
      PiecesUpToSucceeds(query, key, scale, value, bias, s, rowAttn, i - 1);
      PieceAttentionBroadcasts(query, key, scale, value, bias, s, rowAttn, i - 1);
    }
  }

  /** Once a piece fails, the whole call fails: no later piece can repair it. */
  lemma PieceFailureIsFinal<Q, K, S, V, B, O, W>(
    query: seq<Q>, key: K, scale: S, value: V, bias: seq<B>, s: nat,
    rowAttn: (Q, K, S, V, B) -> (O, W), i: nat)
    requires CanSplit(|query|, s) && i <= NumChunks(|query|, s)
    requires PiecesUpTo(query, key, scale, value, bias, s, rowAttn, i).None?
    ensures Chunked(query, key, scale, value, bias, s, rowAttn).None?
  {
    PiecesUpToSucceeds(query, key, scale, value, bias, s, rowAttn, i);
    PiecesUpToSucceeds(query, key, scale, value, bias, s, rowAttn, NumChunks(|query|, s));
  }

  /**
   * When the first `i` pieces succeed, their concatenation covers rows
   * `[0, min(i * s, n))`, row `r` holding what its own piece computes for it.
   */
  lemma {:induction false} PiecesUpToRows<Q, K, S, V, B, O, W>(
    query: seq<Q>, key: K, scale: S, value: V, bias: seq<B>, s: nat,
    rowAttn: (Q, K, S, V, B) -> (O, W), i: nat)
    requires CanSplit(|query|, s) && i <= NumChunks(|query|, s)
    requires PiecesUpTo(query, key, scale, value, bias, s, rowAttn, i).Some?
    ensures var p := PiecesUpTo(query, key, scale, value, bias, s, rowAttn, i).value;
      && |p.0| == Covered(i, s, |query|) && |p.1| == Covered(i, s, |query|)
      && forall r :: 0 <= r < Covered(i, s, |query|) ==>
           ChunkedRow(query, key, scale, value, bias, s, rowAttn, r) == Some((p.0[r], p.1[r]))
    decreases i
  {
    if i > 0 {
      var n := |query|;
      PiecesUpToRows(query, key, scale, value, bias, s, rowAttn, i - 1);
      ChunkBounds(n, s, i - 1);
      var p := PiecesUpTo(query, key, scale, value, bias, s, rowAttn, i).value;
      var start := ChunkStart(i - 1, s);
      forall r | start <= r < Covered(i, s, n)
        ensures ChunkedRow(query, key, scale, value, bias, s, rowAttn, r) == Some((p.0[r], p.1[r]))
      {
        PieceRow(query, key, scale, value, bias, s, rowAttn, i - 1, r);
      }
    }
  }

  /** Every row of the chunked result is what its own piece computes for it;
      with the tiling of `Chunks`, each row comes from exactly one piece. */
  lemma ChunkedRows<Q, K, S, V, B, O, W>(
    query: seq<Q>, key: K, scale: S, value: V, bias: seq<B>, s: nat,
    rowAttn: (Q, K, S, V, B) -> (O, W))
    requires CanSplit(|query|, s)
    ensures Chunked(query, key, scale, value, bias, s, rowAttn).Some? <==> EveryChunkBroadcasts(|bias|, |query|, s)
    ensures var p := Chunked(query, key, scale, value, bias, s, rowAttn);
      p.Some? ==>
        && |p.value.0| == |query| && |p.value.1| == |query|
        && forall r :: 0 <= r < |query| ==>
             ChunkedRow(query, key, scale, value, bias, s, rowAttn, r) == Some((p.value.0[r], p.value.1[r]))
  {
    var k := NumChunks(|query|, s);
    PiecesUpToSucceeds(query, key, scale, value, bias, s, rowAttn, k);
    if PiecesUpTo(query, key, scale, value, bias, s, rowAttn, k).Some? {
      PiecesUpToRows(query, key, scale, value, bias, s, rowAttn, k);
    }
    LastChunkEnds(|query|, s);
  }

  /**
   * Chunking is transparent: whenever the driver with a single piece succeeds, so
   * does the chunked driver, with the same output rows and weight rows.
   */
  lemma {:induction false} ChunkedIsWhole<Q, K, S, V, B, O, W>(
    query: seq<Q>, key: K, scale: S, value: V, bias: seq<B>, s: nat,
    rowAttn: (Q, K, S, V, B) -> (O, W))
    requires CanSplit(|query|, s)
    requires BlockAttention(query, key, scale, value, bias, rowAttn).Some?
    ensures Chunked(query, key, scale, value, bias, s, rowAttn) == BlockAttention(query, key, scale, value, bias, rowAttn)
  {
    ChunkingIsTransparent(query, key, scale, value, bias, s, rowAttn);
    ChunkedRows(query, key, scale, value, bias, s, rowAttn);
    var whole := BlockAttention(query, key, scale, value, bias, rowAttn).value;
    var p := Chunked(query, key, scale, value, bias, s, rowAttn).value;
    assert p.0 == whole.0 && p.1 == whole.1 by {
      forall r | 0 <= r < |query|
        ensures p.0[r] == whole.0[r] && p.1[r] == whole.1[r]
      {
        PieceRowIsWholeRow(query, key, scale, value, bias, s, rowAttn, r);
      }
    }
  }

  /** Slice assignment `buffer[..., start:start + |rows|, :] = rows`: the rows
      before `start` and from `start + |rows|` on are kept, and the `|rows|`
      between are replaced. */
  method AssignRows<T>(buffer: array<T>, start: nat, rows: seq<T>)
    requires start + |rows| <= buffer.Length
    modifies buffer
    ensures buffer[..start + |rows|] == old(buffer[..start]) + rows
    ensures buffer[start + |rows|..] == old(buffer[start + |rows|..])
  {
    forall r | start <= r < start + |rows| {
      buffer[r] := rows[r - start];
    }
  }

  /**
   * One iteration of the loop of `attention`: attends piece `i` against all
   * keys and writes its rows into the two buffers at the piece's offset;
   * `ok` is false when the piece's bias does not broadcast.
   */
  method FillPiece<Q, K, S, V, B, O, W>(
    query: seq<Q>, key: K, scale: S, value: V, bias: seq<B>, s: nat,
    rowAttn: (Q, K, S, V, B) -> (O, W), output: array<O>, logits: array<W>, i: nat)
    returns (ok: bool)
    requires CanSplit(|query|, s) && i < NumChunks(|query|, s)
    requires output.Length == |query| && logits.Length == |query|
    requires output as object != logits
    requires PiecesUpTo(query, key, scale, value, bias, s, rowAttn, i)
               == Some((output[..Covered(i, s, |query|)], logits[..Covered(i, s, |query|)]))
    modifies output, logits
    ensures ok ==> PiecesUpTo(query, key, scale, value, bias, s, rowAttn, i + 1)
                     == Some((output[..Covered(i + 1, s, |query|)], logits[..Covered(i + 1, s, |query|)]))
    ensures !ok ==> PiecesUpTo(query, key, scale, value, bias, s, rowAttn, i + 1).None?
    ensures output[Covered(i + 1, s, |query|)..] == old(output[Covered(i + 1, s, |query|)..])
    ensures logits[Covered(i + 1, s, |query|)..] == old(logits[Covered(i + 1, s, |query|)..])
  {
    var n := |query|;
    ChunkBounds(n, s, i);
    var start, end := i * s, (i + 1) * s;
    var hi := if end < n then end else n;
    var b := if |bias| != n then bias else bias[start..hi];
    assert start == ChunkStart(i, s) && hi == ChunkEnd(i, s, n);
    assert b == PieceBias(bias, n, s, i);
    var res := BlockAttention(query[start..hi], key, scale, value, b, rowAttn);
    assert res == PieceAttention(query, key, scale, value, bias, s, rowAttn, i);
    if res.None? {
      return false;
    }
    ghost var done := (output[..start], logits[..start]);
    AssignRows(output, start, res.value.0);
    AssignRows(logits, start, res.value.1);
    assert output[..hi] == done.0 + res.value.0;
    PiecesUpToStep(query, key, scale, value, bias, s, rowAttn, i, done, res.value);
    return true;
  }

  /**
   * The loop of `attention`, piece by piece, stopping at the first piece whose
   * bias does not broadcast, where the source raises.
   */
  method FillPieces<Q, K, S, V, B, O, W>(
    query: seq<Q>, key: K, scale: S, value: V, bias: seq<B>, s: nat,
    rowAttn: (Q, K, S, V, B) -> (O, W), output: array<O>, logits: array<W>)
    returns (ok: bool)
    requires CanSplit(|query|, s)
    requires output.Length == |query| && logits.Length == |query|
    requires output as object != logits
    modifies output, logits
    ensures ok <==> Chunked(query, key, scale, value, bias, s, rowAttn).Some?
    ensures ok ==> Chunked(query, key, scale, value, bias, s, rowAttn) == Some((output[..], logits[..]))
  {
    var n := |query|;
    var k := NumChunks(n, s);
    for i := 0 to k
      invariant PiecesUpTo(query, key, scale, value, bias, s, rowAttn, i)
                  == Some((output[..Covered(i, s, n)], logits[..Covered(i, s, n)]))
    {
      ok := FillPiece(query, key, scale, value, bias, s, rowAttn, output, logits, i);
      if !ok {
        PieceFailureIsFinal(query, key, scale, value, bias, s, rowAttn, i + 1);
        return;
      }
    }
    LastChunkEnds(n, s);
    assert output[..] == output[..n] && logits[..] == logits[..n];
    return true;
  }

  /**
   * `attention`: splits the query rows into pieces of `subbatchSize` (or the
   * whole query when that is `None` or 0), attends each piece against all keys,
   * and writes its rows into two freshly allocated buffers. `ok` is false when
   * a piece's bias does not broadcast, where the source raises.
   */
  method Attention<Q, K, S, V, B, O(0), W(0)>(
    query: seq<Q>, key: K, scale: S, value: V, bias: seq<B>, subbatchSize: Option<nat>,
    rowAttn: (Q, K, S, V, B) -> (O, W))
    returns (output: array<O>, logits: array<W>, ok: bool)
    ensures output.Length == |query| && logits.Length == |query|
    ensures CanSplit(|query|, SizeOr(subbatchSize, |query|))
    ensures ok <==> EveryChunkBroadcasts(|bias|, |query|, SizeOr(subbatchSize, |query|))
    ensures ok ==> Chunked(query, key, scale, value, bias, SizeOr(subbatchSize, |query|), rowAttn)
                     == Some((output[..], logits[..]))
    ensures var whole := BlockAttention(query, key, scale, value, bias, rowAttn);
      whole.Some? ==> ok && output[..] == whole.value.0 && logits[..] == whole.value.1
  {
    var n := |query|;
    var s := SizeOr(subbatchSize, n);
    output := new O[n];
    logits := new W[n];
    ok := FillPieces(query, key, scale, value, bias, s, rowAttn, output, logits);
    ChunkedRows(query, key, scale, value, bias, s, rowAttn);
    if BlockAttention(query, key, scale, value, bias, rowAttn).Some? {
      ChunkedIsWhole(query, key, scale, value, bias, s, rowAttn);
    }
  }
}
