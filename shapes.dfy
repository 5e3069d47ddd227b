/**
 * Tensor shapes and the shape rules of the few torch operations the
 * multi-head modules use: `unsqueeze`, `squeeze(dim)`, `transpose`,
 * broadcasting (for `+`, `*` and their in-place forms) and `split`.
 *
 * A shape is the list of axis sizes; axis indices follow Python, where a
 * negative index counts from the end.
 */
module TensorShapes {
  import opened Wrappers
  import opened Chunks

  type Shape = seq<nat>

  /** The position an axis index `d` names among `rank` axes; `None` where
      torch raises "dimension out of range". */
  function Axis(d: int, rank: nat): (p: Option<nat>)
    ensures p.Some? <==> -(rank as int) <= d < rank
    ensures p.Some? ==> p.value < rank && p.value as int % rank == d % rank
  {
    if 0 <= d < rank then Some(d)
    else if -(rank as int) <= d < 0 then Some(d + rank)
    else None
  }

  /** `x.unsqueeze(d)`: a new axis of size 1 at position `d` of the result. */
  function Unsqueeze(s: Shape, d: int): (r: Option<Shape>)
    ensures r.Some? <==> -(|s| + 1) <= d <= |s|
    ensures r.Some? ==>
      var p := Axis(d, |s| + 1).value;
      |r.value| == |s| + 1 && r.value[p] == 1 && r.value[..p] + r.value[p + 1..] == s
  {
    var p :- Axis(d, |s| + 1);
    Some(s[..p] + [1] + s[p..])
  }

  /** `x.squeeze(d)`: drops axis `d` when its size is 1, so that
      `unsqueeze(d)` puts it back, and leaves the shape as it is otherwise. */
  function Squeeze(s: Shape, d: int): (r: Option<Shape>)
    ensures r.Some? <==> -|s| <= d < |s|
    ensures r.Some? ==>
      var p := Axis(d, |s|).value;
      if s[p] == 1 then |r.value| + 1 == |s| && Unsqueeze(r.value, d) == Some(s) else r.value == s
  {
    var p :- Axis(d, |s|);
    if s[p] == 1 then
      var t := s[..p] + s[p + 1..];
      assert t[..p] + [1] + t[p..] == s;
      Some(t)
    else Some(s)
  }

  /** `x.transpose(d0, d1)`: axes `d0` and `d1` trade places. */
  function Transpose(s: Shape, d0: int, d1: int): (r: Option<Shape>)
    ensures r.Some? <==> -|s| <= d0 < |s| && -|s| <= d1 < |s|
    ensures r.Some? ==>
      var p0, p1 := Axis(d0, |s|).value, Axis(d1, |s|).value;
      |r.value| == |s| && r.value[p0] == s[p1] && r.value[p1] == s[p0]
      && forall i :: 0 <= i < |s| && i != p0 && i != p1 ==> r.value[i] == s[i]
  {
    var p0 :- Axis(d0, |s|);
    var p1 :- Axis(d1, |s|);
    Some(s[p0 := s[p1]][p1 := s[p0]])
  }

  /** `x[..., None]`, that is `x.unsqueeze(-1)`, appends an axis of size 1. */
  lemma UnsqueezeLast(s: Shape)
    ensures Unsqueeze(s, -1) == Some(s + [1])
  {
    assert Axis(-1, |s| + 1) == Some(|s|);
    assert s[..|s|] + [1] + s[|s|..] == s + [1];
  }

  /** Removing the axis `unsqueeze` inserted gives the shape back. */
  lemma SqueezeUndoesUnsqueeze(s: Shape, d: int)
    requires Unsqueeze(s, d).Some?
    ensures Squeeze(Unsqueeze(s, d).value, d) == Some(s)
  {
  }

  /** Transposing the same two axes twice gives the shape back. */
  lemma TransposeTwice(s: Shape, d0: int, d1: int)
    requires Transpose(s, d0, d1).Some?
    ensures Transpose(Transpose(s, d0, d1).value, d0, d1) == Some(s)
  {
    var t := Transpose(s, d0, d1).value;
    var p0, p1 := Axis(d0, |s|).value, Axis(d1, |s|).value;
    assert t[p0 := t[p1]][p1 := t[p0]] == s;
  }

  /*
   * Broadcasting: the shapes are aligned at their last axes; at each
   * position the sizes must agree or one of them must be 1, and a missing
   * axis counts as 1.
   */

  /** The size of the `j`-th axis from the end, 1 past the front. */
  function FromEnd(s: Shape, j: nat): nat
  {
    if j < |s| then s[|s| - 1 - j] else 1
  }

  function Max(a: nat, b: nat): nat
  {
    if a < b then b else a
  }

  /** The broadcast shape of `a` and `b`, axis by axis from the end. */
  function Broadcast(a: Shape, b: Shape): (r: Option<Shape>)
    ensures r.Some? ==> |r.value| == (if |a| >= |b| then |a| else |b|)
    decreases |a| + |b|
  {
    if |a| == 0 then Some(b)
    else if |b| == 0 then Some(a)
    else
      var x, y := a[|a| - 1], b[|b| - 1];
      if x == y || x == 1 || y == 1 then
        var front :- Broadcast(a[..|a| - 1], b[..|b| - 1]);
        Some(front + [if x == 1 then y else x])
      else None
  }

  /** The rule axis by axis: the sizes at each position from the end agree or
      one of them is 1. */
  predicate Compatible(a: Shape, b: Shape)
  {
    forall j :: 0 <= j < Max(|a|, |b|) ==>
      FromEnd(a, j) == FromEnd(b, j) || FromEnd(a, j) == 1 || FromEnd(b, j) == 1
  }

  /**
   * The recursive `Broadcast` agrees with the rule stated axis by axis: it
   * succeeds exactly for compatible shapes, has the larger rank, and holds at
   * each position the size that is not 1 (or 1 when both are).
   */
  lemma {:induction false} BroadcastAxisByAxis(a: Shape, b: Shape)
    ensures Broadcast(a, b).Some? <==> Compatible(a, b)
    ensures Broadcast(a, b).Some? ==>
      var r := Broadcast(a, b).value;
      && |r| == Max(|a|, |b|)
      && forall j :: 0 <= j < |r| ==>
           FromEnd(r, j) == if FromEnd(a, j) == 1 then FromEnd(b, j) else FromEnd(a, j)
    decreases |a| + |b|
  {
    if |a| == 0 {
      assert forall j :: 0 <= j < |b| ==> FromEnd(a, j) == 1;
    } else if |b| == 0 {
      assert forall j :: 0 <= j < |a| ==> FromEnd(b, j) == 1;
    } else {
      var a', b' := a[..|a| - 1], b[..|b| - 1];
      BroadcastAxisByAxis(a', b');
      assert forall j :: 0 <= j < Max(|a'|, |b'|) ==>
        FromEnd(a', j) == FromEnd(a, j + 1) && FromEnd(b', j) == FromEnd(b, j + 1);
      assert forall j :: 0 < j < Max(|a|, |b|) ==>
        FromEnd(a, j) == FromEnd(a', j - 1) && FromEnd(b, j) == FromEnd(b', j - 1);
      if Compatible(a, b) {
        assert Compatible(a', b') by {
          forall j | 0 <= j < Max(|a'|, |b'|)
            ensures FromEnd(a', j) == FromEnd(b', j) || FromEnd(a', j) == 1 || FromEnd(b', j) == 1
          {
            assert FromEnd(a', j) == FromEnd(a, j + 1) && FromEnd(b', j) == FromEnd(b, j + 1);
          }
        }
        assert FromEnd(a, 0) == a[|a| - 1] && FromEnd(b, 0) == b[|b| - 1];
      } else if Compatible(a', b') {
        var j :| 0 <= j < Max(|a|, |b|) &&
          !(FromEnd(a, j) == FromEnd(b, j) || FromEnd(a, j) == 1 || FromEnd(b, j) == 1);
        assert j == 0;
      }
      if Broadcast(a, b).Some? {
        var r := Broadcast(a, b).value;
        var front := Broadcast(a', b').value;
        assert r == front + [if a[|a| - 1] == 1 then b[|b| - 1] else a[|a| - 1]];
        forall j | 0 <= j < |r|
          ensures FromEnd(r, j) == if FromEnd(a, j) == 1 then FromEnd(b, j) else FromEnd(a, j)
        {
          if j > 0 {
            assert FromEnd(r, j) == FromEnd(front, j - 1);
          }
        }
      }
    }
  }

  /** `a += b` and `a *= b` keep the shape of `a`: the broadcast shape must
      be `a` itself. */
  predicate InPlace(a: Shape, b: Shape)
  {
    Broadcast(a, b) == Some(a)
  }

  /** A shape no longer than `a` whose every axis matches `a`'s axis at the
      same position from the end, or is 1, adds into `a` in place. */
  lemma {:induction false} FitsInPlace(a: Shape, b: Shape)
    requires |b| <= |a|
    requires forall i :: 0 <= i < |b| ==> b[i] == a[|a| - |b| + i] || b[i] == 1
    ensures InPlace(a, b)
    decreases |b|
  {
    if |b| > 0 {
      var a', b' := a[..|a| - 1], b[..|b| - 1];
      assert forall i :: 0 <= i < |b'| ==> b'[i] == b[i] && a'[|a'| - |b'| + i] == a[|a| - |b| + i];
      FitsInPlace(a', b');
      assert a == a' + [a[|a| - 1]];
    }
  }

  /** Axes the two shapes share at the end carry through broadcasting. */
  lemma {:induction false} BroadcastCommonSuffix(a: Shape, b: Shape, tail: Shape)
    ensures Broadcast(a + tail, b + tail)
      == if Broadcast(a, b).Some? then Some(Broadcast(a, b).value + tail) else None
    decreases |tail|
  {
    if |tail| > 0 {
      var t' := tail[..|tail| - 1];
      var last := tail[|tail| - 1];
      assert (a + tail)[..|a + tail| - 1] == a + t' && (a + tail)[|a + tail| - 1] == last;
      assert (b + tail)[..|b + tail| - 1] == b + t' && (b + tail)[|b + tail| - 1] == last;
      BroadcastCommonSuffix(a, b, t');
      if Broadcast(a, b).Some? {
        assert Broadcast(a, b).value + t' + [last] == Broadcast(a, b).value + tail;
      }
    } else {
      assert a + tail == a && b + tail == b;
      if Broadcast(a, b).Some? {
        assert Broadcast(a, b).value + tail == Broadcast(a, b).value;
      }
    }
  }

  /*
   * `x.split(size, dim)` and `x.split(sizes, dim)`.
   */

  function Sum(xs: seq<nat>): nat
  {
    if |xs| == 0 then 0 else Sum(xs[..|xs| - 1]) + xs[|xs| - 1]
  }

  /** The widths of the pieces of an axis of `n` cut every `s`: full pieces
      and then the remainder; an empty axis gives one empty piece. */
  function Widths(n: nat, s: nat): (w: seq<nat>)
    requires CanSplit(n, s)
    ensures |w| >= 1
    decreases n
  {
    if n <= s then [n] else [s] + Widths(n - s, s)
  }

  lemma SumPrepend(x: nat, xs: seq<nat>)
    ensures Sum([x] + xs) == x + Sum(xs)
  {
    if |xs| > 0 {
      assert ([x] + xs)[..|[x] + xs| - 1] == [x] + xs[..|xs| - 1];
      SumPrepend(x, xs[..|xs| - 1]);
    }
  }

  /** The pieces add up to the whole axis. */
  lemma {:induction false} WidthsSum(n: nat, s: nat)
    requires CanSplit(n, s)
    ensures Sum(Widths(n, s)) == n
    decreases n
  {
    if n > s {
      WidthsSum(n - s, s);
      SumPrepend(s, Widths(n - s, s));
    }
  }

  /** There are as many pieces as `Chunks` counts. */
  lemma {:induction false} WidthsCount(n: nat, s: nat)
    requires CanSplit(n, s)
    ensures |Widths(n, s)| == NumChunks(n, s)
    decreases n
  {
    if s < n {
      var k := NumChunks(n - s, s);
      WidthsCount(n - s, s);
      NumChunksBounds(n - s, s);
      assert (k + 1) * s == k * s + s && (k + 1 - 1) * s == k * s;
      NumChunksUnique(n, s, k + 1);
    } else if n > 0 {
      NumChunksUnique(n, s, 1);
    }
  }

  /** Piece `i` is as wide as `[i * s, min((i + 1) * s, n))`, the piece
      `Chunks` gives it; so only the last piece can be short. */
  lemma {:induction false} WidthIsPiece(n: nat, s: nat, i: nat)
    requires CanSplit(n, s) && i < |Widths(n, s)|
    ensures ChunkStart(i, s) <= ChunkEnd(i, s, n)
    ensures Widths(n, s)[i] == ChunkEnd(i, s, n) - ChunkStart(i, s)
    decreases n
  {
    if n <= s {
      assert i == 0;
    } else if i > 0 {
      WidthIsPiece(n - s, s, i - 1);
      assert ChunkStart(i, s) == ChunkStart(i - 1, s) + s by {
        assert i * s == (i - 1) * s + s;
      }
      assert ChunkEnd(i, s, n) == ChunkEnd(i - 1, s, n - s) + s by {
        assert (i + 1) * s == i * s + s;
      }
    }
  }

  /** Every piece of `split(s)` is as wide as the rows `Chunks` gives it. */
  lemma WidthsArePieces(n: nat, s: nat)
    requires CanSplit(n, s)
    ensures forall i :: 0 <= i < |Widths(n, s)| ==>
      ChunkStart(i, s) <= ChunkEnd(i, s, n) && Widths(n, s)[i] == ChunkEnd(i, s, n) - ChunkStart(i, s)
  {
    forall i | 0 <= i < |Widths(n, s)|
      ensures ChunkStart(i, s) <= ChunkEnd(i, s, n) && Widths(n, s)[i] == ChunkEnd(i, s, n) - ChunkStart(i, s)
    {
      WidthIsPiece(n, s, i);
    }
  }

  /** The sizes of axis `p` across a list of shapes. */
  function AxisSizes(pieces: seq<Shape>, p: nat): seq<nat>
    requires forall i :: 0 <= i < |pieces| ==> p < |pieces[i]|
  {
    seq(|pieces|, i requires 0 <= i < |pieces| => pieces[i][p])
  }

  /**
   * `x.split(s, dim)`: the shapes of the pieces; `None` where torch raises
   * (a bad axis, or a size of 0 on a non-empty axis). There are as many
   * pieces as `Chunks` counts; each agrees with `x` on every other axis, is
   * as wide as its rows `[i * s, min((i + 1) * s, n))`, and the widths add up
   * to the axis.
   */
  function SplitEvery(x: Shape, s: nat, dim: int): (r: Option<seq<Shape>>)
    ensures r.Some? <==> -|x| <= dim < |x| && CanSplit(x[Axis(dim, |x|).value], s)
    ensures r.Some? ==>
      var p, n := Axis(dim, |x|).value, x[Axis(dim, |x|).value];
      && |r.value| == NumChunks(n, s)
      && (forall i :: 0 <= i < |r.value| ==> |r.value[i]| == |x|)
      && (forall i, j :: 0 <= i < |r.value| && 0 <= j < |x| && j != p ==> r.value[i][j] == x[j])
      && (forall i :: 0 <= i < |r.value| ==>
            ChunkStart(i, s) <= ChunkEnd(i, s, n) && r.value[i][p] == ChunkEnd(i, s, n) - ChunkStart(i, s))
      && Sum(AxisSizes(r.value, p)) == n
  {
    var p :- Axis(dim, |x|);
    if !CanSplit(x[p], s) then None
    else
      var w := Widths(x[p], s);
      WidthsCount(x[p], s);
      WidthsSum(x[p], s);
      WidthsArePieces(x[p], s);
      var pieces := seq(|w|, i requires 0 <= i < |w| => x[p := w[i]]);
      assert AxisSizes(pieces, p) == w;
      Some(pieces)
  }

  /** `x.split(sizes, dim)`: the sizes must add up to the axis; piece `i`
      agrees with `x` on every other axis and has size `sizes[i]` on it. */
  function SplitSizes(x: Shape, sizes: seq<nat>, dim: int): (r: Option<seq<Shape>>)
    ensures r.Some? <==> -|x| <= dim < |x| && Sum(sizes) == x[Axis(dim, |x|).value]
    ensures r.Some? ==>
      var p := Axis(dim, |x|).value;
      && |r.value| == |sizes|
      && (forall i :: 0 <= i < |r.value| ==> |r.value[i]| == |x|)
      && (forall i, j :: 0 <= i < |r.value| && 0 <= j < |x| && j != p ==> r.value[i][j] == x[j])
      && AxisSizes(r.value, p) == sizes
      && Sum(AxisSizes(r.value, p)) == x[p]
  {
    var p :- Axis(dim, |x|);
    if Sum(sizes) != x[p] then None
    else
      var pieces := seq(|sizes|, i requires 0 <= i < |sizes| => x[p := sizes[i]]);
      assert AxisSizes(pieces, p) == sizes;
      Some(pieces)
  }

  /** `n` ones add up to `n`: `split([1] * n)` fits an axis of size `n`. */
  lemma {:induction false} SumOfOnes(n: nat)
    ensures Sum(seq(n, _ => 1)) == n
  {
    if n > 0 {
      assert seq(n, _ => 1)[..n - 1] == seq(n - 1, _ => 1);
      SumOfOnes(n - 1);
    }
  }
}
