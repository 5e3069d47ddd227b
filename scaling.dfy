/**
 * `MultiHeadedScaling` (modules.py lines 197-254): `num_heads` elementwise
 * scale-and-shift maps of one input, computed as one broadcast product
 * against a parameter with a leading head axis and then split into one
 * tensor per head.
 *
 * The model has two levels. On shapes, `ForwardShapes` follows the
 * unsqueeze, the two broadcasts, the split and the squeezes. On values,
 * the input is taken as its rows `x[b]` (all leading axes flattened into
 * `b`, the trailing axes that follow the parameter shape into one row) and
 * head `h` of a parameter is the row `weight[h]`.
 */
module Scaling {
  import opened Wrappers
  import opened TensorShapes

  /** The `shape` argument: a single size or a list of sizes. */
  datatype ShapeArg = Size(n: nat) | Sizes(dims: seq<nat>)

  /** What `__init__` keeps: the parameter shape, the axis the input is
      unsqueezed at, and the widths `forward` splits into. */
  datatype Config = Config(shape: Shape, unsqueezeDim: int, splitDims: seq<nat>)

  function Trailing(arg: ShapeArg): Shape
  {
    match arg
    case Size(n) => [n]
    case Sizes(dims) => dims
  }

  /**
   * `__init__`: the parameters get a head axis in front of the given shape,
   * the input is unsqueezed just before its trailing axes, and the split
   * widths, one per head, add up to the number of heads.
   */
  function Init(arg: ShapeArg, numHeads: nat): (m: Config)
    ensures m.shape == [numHeads] + Trailing(arg)
    ensures m.unsqueezeDim == -|m.shape| && m.unsqueezeDim < 0
    ensures |m.splitDims| == numHeads && Sum(m.splitDims) == numHeads
  {
    SumOfOnes(numHeads);
    var dims := Trailing(arg);
    Config([numHeads] + dims, -(|dims| + 1), seq(numHeads, _ => 1))
  }

  /** Every shape in `pieces` with axis `pos` squeezed out. */
  function SqueezeEach(pieces: seq<Shape>, pos: nat): (r: Option<seq<Shape>>)
    ensures r.Some? ==> |r.value| == |pieces|
  {
    if forall i :: 0 <= i < |pieces| ==> pos < |pieces[i]| then
      Some(seq(|pieces|, i requires 0 <= i < |pieces| => Squeeze(pieces[i], pos).value))
    else None
  }

  /**
   * `forward` on shapes: `x.unsqueeze(unsqueeze_dim) * weight + bias`, the
   * optional callback (given by what it does to the shape), the split into
   * widths `split_dims` at the head axis and the squeeze of that axis;
   * `None` where torch raises. The head axis is found from the rank before
   * the callback runs.
   */
  function ForwardShapes(m: Config, x: Shape, onOutReady: Option<Shape -> Shape>): (r: Option<seq<Shape>>)
    ensures r.Some? ==> |r.value| == |m.splitDims|
  {
    var u :- Unsqueeze(x, m.unsqueezeDim);
    var scaled :- Broadcast(u, m.shape);
    var shifted :- Broadcast(scaled, m.shape);
    var pos := |shifted| + m.unsqueezeDim;
    if pos < 0 then None
    else
      var y := if onOutReady.Some? then onOutReady.value(shifted) else shifted;
      var pieces :- SplitSizes(y, m.splitDims, pos);
      SqueezeEach(pieces, pos)
  }

  /** Unsqueezing just before the trailing axes gives the size-1 axis the
      head axis broadcasts into; the shifted product keeps that shape. */
  lemma HeadAxisBroadcasts(lead: Shape, numHeads: nat, dims: Shape)
    ensures Broadcast(lead + [1] + dims, [numHeads] + dims) == Some(lead + [numHeads] + dims)
    ensures InPlace(lead + [numHeads] + dims, [numHeads] + dims)
  {
    assert Broadcast(lead + [1], [numHeads]) == Some(lead + [numHeads]) by {
      assert (lead + [1])[..|lead|] == lead && [numHeads][..0] == [];
    }
    BroadcastCommonSuffix(lead + [1], [numHeads], dims);
    assert Broadcast(lead + [numHeads], [numHeads]) == Some(lead + [numHeads]) by {
      assert (lead + [numHeads])[..|lead|] == lead && [numHeads][..0] == [];
    }
    BroadcastCommonSuffix(lead + [numHeads], [numHeads], dims);
  }

  lemma SqueezeEachAlike(unit: Shape, pos: nat, n: nat, x: Shape)
    requires pos < |unit| && Squeeze(unit, pos) == Some(x)
    ensures SqueezeEach(seq(n, _ => unit), pos) == Some(seq(n, _ => x))
  {
    var pieces := seq(n, _ => unit);
    assert forall i :: 0 <= i < n ==> pieces[i] == unit;
    assert SqueezeEach(pieces, pos).value == seq(n, _ => x);
  }

  /** The steps of `ForwardShapes` without a callback, one at a time. */
  lemma ForwardShapesSteps(m: Config, x: Shape, u: Shape, shifted: Shape, pos: nat, pieces: seq<Shape>)
    requires Unsqueeze(x, m.unsqueezeDim) == Some(u)
    requires Broadcast(u, m.shape) == Some(shifted) && InPlace(shifted, m.shape)
    requires pos == |shifted| + m.unsqueezeDim
    requires SplitSizes(shifted, m.splitDims, pos) == Some(pieces)
    ensures ForwardShapes(m, x, None) == SqueezeEach(pieces, pos)
  {
  }

  lemma UnsqueezeBeforeTrailing(lead: Shape, dims: Shape)
    ensures Unsqueeze(lead + dims, -(|dims| + 1)) == Some(lead + [1] + dims)
  {
    var x := lead + dims;
    assert Axis(-(|dims| + 1), |x| + 1) == Some(|lead|);
    assert x[..|lead|] == lead && x[|lead|..] == dims;
  }

  lemma SqueezeAfterLead(lead: Shape, dims: Shape)
    ensures Squeeze(lead + [1] + dims, |lead|) == Some(lead + dims)
  {
    var unit := lead + [1] + dims;
    assert unit[..|lead|] == lead && unit[|lead| + 1..] == dims;
  }

  lemma SplitHeadAxis(lead: Shape, numHeads: nat, dims: Shape)
    ensures SplitSizes(lead + [numHeads] + dims, seq(numHeads, _ => 1), |lead|)
      == Some(seq(numHeads, _ => lead + [1] + dims))
  {
    SumOfOnes(numHeads);
    var headed := lead + [numHeads] + dims;
    assert headed[|lead|] == numHeads;
    assert headed[|lead| := 1] == lead + [1] + dims;
    var ones: seq<nat> := seq(numHeads, _ => 1);
    assert Sum(ones) == numHeads;
    assert Axis(|lead|, |headed|) == Some(|lead|);
    assert SplitSizes(headed, ones, |lead|).Some?;
    var pieces := SplitSizes(headed, ones, |lead|).value;
    assert forall i :: 0 <= i < numHeads ==> pieces[i] == lead + [1] + dims;
    assert pieces == seq(numHeads, _ => lead + [1] + dims);
  }

  /**
   * An input whose trailing axes are the given shape comes back as
   * `num_heads` tensors, each shaped like the input.
   */
  lemma {:induction false} OneOutputPerHeadShapedLikeInput(arg: ShapeArg, numHeads: nat, lead: Shape)
    ensures ForwardShapes(Init(arg, numHeads), lead + Trailing(arg), None)
      == Some(seq(numHeads, _ => lead + Trailing(arg)))
  {
    var m := Init(arg, numHeads);
    var dims := Trailing(arg);
    UnsqueezeBeforeTrailing(lead, dims);
    HeadAxisBroadcasts(lead, numHeads, dims);
    SplitHeadAxis(lead, numHeads, dims);
    var headed := lead + [numHeads] + dims;
    assert |headed| + m.unsqueezeDim == |lead|;
    ForwardShapesSteps(m, lead + dims, lead + [1] + dims, headed, |lead|, seq(numHeads, _ => lead + [1] + dims));
    SqueezeAfterLead(lead, dims);
    SqueezeEachAlike(lead + [1] + dims, |lead|, numHeads, lead + dims);
  }

  /*
   * Values.
   */

  type Row = seq<real>

  /** The input rows and each head's weight and bias rows all have the same
      length. */
  predicate Conforms(x: seq<Row>, weight: seq<Row>, bias: seq<Row>)
  {
    |weight| == |bias| &&
    forall h :: 0 <= h < |weight| ==>
      |bias[h]| == |weight[h]| && forall b :: 0 <= b < |x| ==> |x[b]| == |weight[h]|
  }

  /** `x.unsqueeze(unsqueeze_dim) * weight + bias`: for each input row, one
      row per head. */
  function ScaleShift(x: seq<Row>, weight: seq<Row>, bias: seq<Row>): (y: seq<seq<Row>>)
    requires Conforms(x, weight, bias)
    ensures |y| == |x|
    ensures forall b :: 0 <= b < |x| ==> |y[b]| == |weight|
    ensures forall b, h :: 0 <= b < |x| && 0 <= h < |weight| ==> |y[b][h]| == |x[b]|
  {
    seq(|x|, b requires 0 <= b < |x| =>
      seq(|weight|, h requires 0 <= h < |weight| =>
        seq(|x[b]|, e requires 0 <= e < |x[b]| => x[b][e] * weight[h][e] + bias[h][e])))
  }

  /** `x.split([1] * num_heads, dim=head axis)` followed by the squeezes:
      one tensor per head; `None` when the head axis is not `num_heads` long. */
  function SplitHeads(y: seq<seq<Row>>, numHeads: nat): (heads: Option<seq<seq<Row>>>)
    ensures heads.Some? <==> forall b :: 0 <= b < |y| ==> |y[b]| == numHeads
    ensures heads.Some? ==> |heads.value| == numHeads
  {
    if forall b :: 0 <= b < |y| ==> |y[b]| == numHeads then
      Some(seq(numHeads, h requires 0 <= h < numHeads =>
        seq(|y|, b requires 0 <= b < |y| => y[b][h])))
    else None
  }

  /** `torch.stack(heads, dim=head axis)`: the inverse of `SplitHeads`. */
  function Stack(heads: seq<seq<Row>>, batch: nat): seq<seq<Row>>
    requires forall h :: 0 <= h < |heads| ==> |heads[h]| == batch
  {
    seq(batch, b requires 0 <= b < batch =>
      seq(|heads|, h requires 0 <= h < |heads| => heads[h][b]))
  }

  /** Splitting then stacking gives the tensor back, so no element is lost
      or moved. */
  lemma StackUndoesSplit(y: seq<seq<Row>>, numHeads: nat)
    requires SplitHeads(y, numHeads).Some?
    ensures Stack(SplitHeads(y, numHeads).value, |y|) == y
  {
    var s := Stack(SplitHeads(y, numHeads).value, |y|);
    assert forall b :: 0 <= b < |y| ==> s[b] == y[b];
  }

  /** Stacking then splitting gives the heads back. */
  lemma SplitUndoesStack(heads: seq<seq<Row>>, batch: nat)
    requires forall h :: 0 <= h < |heads| ==> |heads[h]| == batch
    ensures SplitHeads(Stack(heads, batch), |heads|) == Some(heads)
  {
    var y := Stack(heads, batch);
    assert forall b :: 0 <= b < |y| ==> |y[b]| == |heads|;
    var s := SplitHeads(y, |heads|).value;
    forall h | 0 <= h < |heads|
      ensures s[h] == heads[h]
    {
      assert forall b :: 0 <= b < batch ==> s[h][b] == heads[h][b];
    }
    assert s == heads;
  }

  /** `forward` on values. */
  function Forward(x: seq<Row>, weight: seq<Row>, bias: seq<Row>,
                   onOutReady: Option<seq<seq<Row>> -> seq<seq<Row>>>): (r: Option<seq<seq<Row>>>)
    requires Conforms(x, weight, bias)
    ensures r.Some? ==> |r.value| == |weight|
  {
    var y := ScaleShift(x, weight, bias);
    var z := if onOutReady.Some? then onOutReady.value(y) else y;
    SplitHeads(z, |weight|)
  }

  /**
   * Without a callback, output `h` is `x * weight[h] + bias[h]`, shaped like
   * `x`, and there is one output per head.
   */
  lemma HeadIsScaledInput(x: seq<Row>, weight: seq<Row>, bias: seq<Row>)
    requires Conforms(x, weight, bias)
    ensures var r := Forward(x, weight, bias, None);
      && r.Some? && |r.value| == |weight|
      && forall h :: 0 <= h < |weight| ==>
           && |r.value[h]| == |x|
           && forall b :: 0 <= b < |x| ==>
                && |r.value[h][b]| == |x[b]|
                && forall e :: 0 <= e < |x[b]| ==> r.value[h][b][e] == x[b][e] * weight[h][e] + bias[h][e]
  {
  }

  /** With a callback, the outputs are the heads of what it returns: stacked
      back together they give exactly its result. */
  lemma HeadsOfCallbackResult(x: seq<Row>, weight: seq<Row>, bias: seq<Row>,
                              f: seq<seq<Row>> -> seq<seq<Row>>)
    requires Conforms(x, weight, bias)
    requires Forward(x, weight, bias, Some(f)).Some?
    ensures Stack(Forward(x, weight, bias, Some(f)).value, |f(ScaleShift(x, weight, bias))|)
      == f(ScaleShift(x, weight, bias))
  {
    StackUndoesSplit(f(ScaleShift(x, weight, bias)), |weight|);
  }
}
