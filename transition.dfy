/**
 * `Transition.forward` (modules.py lines 178-190): normalise and run the
 * two-layer network over the input, sub-batched along dimension 0 into a
 * buffer shaped like the input.
 *
 * The input is given as its slabs along dimension 0 (`x[r]` is `x[r, ...]`)
 * together with its full shape. Both `utils.normalize` and the network's
 * linear layers act on the last axis only, so on an input of rank 2 or more
 * each slab is mapped on its own: `network` stands for "normalize, then
 * `self.network`" on one slab. A rank-0 input has no dimension 0 to split,
 * and on a rank-1 input dimension 0 is also the feature axis the network
 * reads, so its slabs are not independent: the pass is taken to fail on both.
 */
module Transition {
  import opened Wrappers
  import opened Chunks

  /** `subbatch_size or x.shape[-2]`: `None` when the fallback is needed and
      `x` has fewer than two dimensions, where indexing `shape[-2]` raises. */
  function ChunkSize(shape: seq<nat>, subbatchSize: Option<nat>): (r: Option<nat>)
    ensures |shape| >= 2 ==> r == Some(SizeOr(subbatchSize, shape[|shape| - 2]))
    ensures |shape| < 2 ==> (r.Some? <==> SizeOr(subbatchSize, 0) != 0)
    ensures r.Some? && SizeOr(subbatchSize, 0) != 0 ==> r.value == SizeOr(subbatchSize, 0)
  {
    if subbatchSize.Some? && subbatchSize.value != 0 then Some(subbatchSize.value)
    else if |shape| >= 2 then Some(shape[|shape| - 2])
    else None
  }

  /** The forward pass raises no error: the input has a dimension 0 and a
      feature axis behind it, the chunk size exists and `split` accepts it. */
  predicate Runs(shape: seq<nat>, subbatchSize: Option<nat>)
  {
    |shape| >= 2 && ChunkSize(shape, subbatchSize).Some? && CanSplit(shape[0], ChunkSize(shape, subbatchSize).value)
  }

  /**
   * The forward pass. On success, `out` has one slab per input slab, slab `r`
   * written exactly once, with the network applied to slab `r` of the input;
   * `chunks` is the number of pieces dimension 0 was cut into.
   */
  method Forward<X(0)>(x: seq<X>, shape: seq<nat>, subbatchSize: Option<nat>, network: X -> X)
    returns (out: array<X>, ok: bool, chunks: nat, ghost writes: seq<nat>)
    requires |shape| >= 1 ==> shape[0] == |x|
    ensures out.Length == |x|
    ensures ok <==> Runs(shape, subbatchSize)
    ensures ok ==> chunks == NumChunks(|x|, ChunkSize(shape, subbatchSize).value)
    ensures ok ==> |writes| == |x| && forall r :: 0 <= r < |x| ==> writes[r] == 1
    ensures ok ==> forall r :: 0 <= r < |x| ==> out[r] == network(x[r])
  {
    var n := |x|;
    out := new X[n];
    writes := seq(n, r => 0);
    chunks := 0;
    var size := ChunkSize(shape, subbatchSize);
    if |shape| < 2 || size.None? || !CanSplit(n, size.value) {
      ok := false;
      return;
    }
    ok := true;
    var s := size.value;
    var k := NumChunks(n, s);
    for i := 0 to k
      invariant |writes| == n && chunks == i
      invariant forall r :: 0 <= r < Covered(i, s, n) ==> writes[r] == 1 && out[r] == network(x[r])
      invariant forall r :: Covered(i, s, n) <= r < n ==> writes[r] == 0
    {
      ChunkBounds(n, s, i);
      var start, end := i * s, (i + 1) * s;
      var hi := if end < n then end else n;
      var xi := x[start..hi];
      forall r | start <= r < hi {
        out[r] := network(xi[r - start]);
      }
      writes := seq(n, r requires 0 <= r < n => if start <= r < hi then writes[r] + 1 else writes[r]);
      chunks := chunks + 1;
    }
    LastChunkEnds(n, s);
  }

  /** With a falsy sub-batch size on a two-dimensional input `(L, d)`, the
      whole input is one piece. */
  lemma PlainInputIsOneChunk(shape: seq<nat>, subbatchSize: Option<nat>)
    requires |shape| == 2
    requires subbatchSize == None || subbatchSize == Some(0)
    ensures ChunkSize(shape, subbatchSize) == Some(shape[0])
    ensures CanSplit(shape[0], shape[0]) && NumChunks(shape[0], shape[0]) == 1
  {
    FalsySizeIsOneChunk(shape[0], subbatchSize);
  }

  /** The fallback is the size of the second-to-last axis, not of the split
      axis: on a `(6, 2, d)` input with no sub-batch size, dimension 0 is
      cut into three pieces of two. */
  lemma FallbackFollowsPenultimateAxis(d: nat)
    ensures ChunkSize([6, 2, d], None) == Some(2)
    ensures NumChunks(6, 2) == 3
  {
  }
}
