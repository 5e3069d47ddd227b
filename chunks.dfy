/**
 * How PyTorch's `Tensor.split(size, dim)` cuts one axis into chunks, and the
 * `size or fallback` default that both chunked loops of modules.py use.
 *
 * `split(s)` on an axis of length `n` returns `max(ceil(n / s), 1)` pieces:
 * piece `i` covers `[i * s, min((i + 1) * s, n))`, so the last one may be
 * short, and an empty axis still yields one empty piece. A size of 0 is
 * accepted only on an empty axis.
 */
module Chunks {
  import opened Wrappers

  /** Python's `size or fallback`: `None` and `0` are both falsy. */
  function SizeOr(size: Option<nat>, fallback: nat): nat
  {
    if size.None? || size.value == 0 then fallback else size.value
  }

  /** `split(s)` on an axis of length `n` does not raise. */
  predicate CanSplit(n: nat, s: nat)
  {
    s > 0 || n == 0
  }

  /** Number of pieces `split(s)` returns on an axis of length `n`. */
  function NumChunks(n: nat, s: nat): (k: nat)
    requires CanSplit(n, s)
    ensures k >= 1
  {
    if s == 0 || n == 0 then 1 else (n + s - 1) / s
  }

  /** The pieces are just enough to reach the end of the axis: `k` of them
      cover it, `k - 1` do not. */
  lemma NumChunksBounds(n: nat, s: nat)
    requires CanSplit(n, s)
    ensures n <= NumChunks(n, s) * s
    ensures n == 0 || (NumChunks(n, s) - 1) * s < n
  {
    if s > 0 && n > 0 {
      var k := (n + s - 1) / s;
      assert k * s + (n + s - 1) % s == n + s - 1;
      assert (k - 1) * s == k * s - s;
    }
  }

  /** `min(i * s, n)`: where the rows covered by the first `i` pieces end. */
  function Covered(i: nat, s: nat, n: nat): (c: nat)
    ensures c <= n
  {
    if i * s < n then i * s else n
  }

  /** First row of piece `i` (the `start` of the source's loops). */
  function ChunkStart(i: nat, s: nat): nat
  {
    i * s
  }

  /** One past the last row of piece `i`: `end` clamped to the axis, as Python slicing does. */
  function ChunkEnd(i: nat, s: nat, n: nat): nat
  {
    Covered(i + 1, s, n)
  }

  lemma MulMono(a: nat, b: nat, s: nat)
    requires a <= b
    ensures a * s <= b * s
  {
  }

  /** The piece count is the only `k` whose `k` pieces reach `n` while
      `k - 1` pieces fall short of it. */
  lemma {:induction false} NumChunksUnique(n: nat, s: nat, k: nat)
    requires s > 0 && n > 0 && k >= 1
    requires n <= k * s && (k - 1) * s < n
    ensures NumChunks(n, s) == k
  {
    NumChunksBounds(n, s);
    var m := NumChunks(n, s);
    if k < m {
      MulMono(k, m - 1, s);
    } else if m < k {
      MulMono(m, k - 1, s);
    }
  }

  /** Every piece lies inside the axis, starts where the earlier pieces end,
      and is at most `s` long; all but the last are exactly `s` long. */
  lemma {:induction false} ChunkBounds(n: nat, s: nat, i: nat)
    requires CanSplit(n, s) && i < NumChunks(n, s)
    ensures ChunkStart(i, s) == Covered(i, s, n)
    ensures ChunkStart(i, s) <= ChunkEnd(i, s, n) <= n
    ensures ChunkEnd(i, s, n) - ChunkStart(i, s) <= s
    ensures i + 1 < NumChunks(n, s) ==> ChunkEnd(i, s, n) - ChunkStart(i, s) == s
  {
    var k := NumChunks(n, s);
    NumChunksBounds(n, s);
    if n > 0 {
      MulMono(i, k - 1, s);
      if i + 1 < k {
        MulMono(i + 1, k - 1, s);
      }
    }
  }

  /** The pieces together reach the end of the axis. */
  lemma LastChunkEnds(n: nat, s: nat)
    requires CanSplit(n, s)
    ensures Covered(NumChunks(n, s), s, n) == n
  {
    NumChunksBounds(n, s);
  }

  /** Every row lies in piece `r / s`. */
  lemma {:induction false} ChunkOfRow(n: nat, s: nat, r: nat)
    requires CanSplit(n, s) && r < n
    ensures s > 0 && r / s < NumChunks(n, s)
    ensures ChunkStart(r / s, s) <= r < ChunkEnd(r / s, s, n)
  {
    var i := r / s;
    assert i * s + r % s == r;
    assert (i + 1) * s == i * s + s;
    var k := NumChunks(n, s);
    NumChunksBounds(n, s);
    if k <= i {
      MulMono(k, i, s);
      assert false;
    }
  }

  /** No row lies in two pieces: the pieces are disjoint. */
  lemma {:induction false} ChunkIndexUnique(n: nat, s: nat, i: nat, r: nat)
    requires CanSplit(n, s) && i < NumChunks(n, s)
    requires ChunkStart(i, s) <= r < ChunkEnd(i, s, n)
    ensures r / s == i
  {
    ChunkOfRow(n, s, r);
    var j := r / s;
    if j < i {
      MulMono(j + 1, i, s);
    } else if i < j {
      MulMono(i + 1, j, s);
    }
  }

  /** The pieces tile the axis in order: the first starts at 0, each starts
      where the previous ends, and the last ends at `n`. */
  lemma {:induction false} ChunksTile(n: nat, s: nat)
    requires CanSplit(n, s)
    ensures ChunkStart(0, s) == 0
    ensures forall i :: 0 <= i < NumChunks(n, s) - 1 ==> ChunkEnd(i, s, n) == ChunkStart(i + 1, s)
    ensures ChunkEnd(NumChunks(n, s) - 1, s, n) == n
  {
    forall i | 0 <= i < NumChunks(n, s) - 1
      ensures ChunkEnd(i, s, n) == ChunkStart(i + 1, s)
    {
      ChunkBounds(n, s, i + 1);
    }
  }

  /** With a falsy size the fallback is used; when the fallback is the axis
      length, the whole axis is a single piece. */
  lemma FalsySizeIsOneChunk(n: nat, size: Option<nat>)
    requires size == None || size == Some(0)
    ensures CanSplit(n, SizeOr(size, n)) && NumChunks(n, SizeOr(size, n)) == 1
    ensures ChunkStart(0, SizeOr(size, n)) == 0 && ChunkEnd(0, SizeOr(size, n), n) == n
  {
    var s := SizeOr(size, n);
    assert s == n;
    if n > 0 {
      assert (n + n - 1) / n == 1 by {
        assert 1 * n + (n - 1) == n + n - 1;
      }
    }
  }
}
