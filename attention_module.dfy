/**
 * The `Attention` module (modules.py lines 323-437) on shapes: the shapes
 * of its parameters, and how `forward` carries the shapes of its inputs
 * through the optional track axis, the query/gate and key/value
 * projections, the chunked attention, the gating, the output projection
 * and the final rearrangement of the attention weights.
 *
 * A function returns `None` where torch raises. The contractions are the
 * fixed index patterns of the source; an index shared by two operands
 * must have the same size in both, or size 1 in one of them, which einsum
 * broadcasts to the other (`LabelSize`).
 */
module MultiAxisAttention {
  import opened Wrappers
  import opened Chunks
  import opened TensorShapes
  import ChunkedAttention

  datatype Config = Config(qDim: nat, kvDim: nat, nHead: nat, gating: bool, c: nat, outDim: nat, nAxis: nat)

  datatype Parameters = Parameters(
    qgWeights: Shape, kvWeights: Shape, qgBias: Shape, kvBias: Shape, oWeights: Shape, oBias: Shape)

  /** `(gating + 1) * c`: the query projection also yields the gate when
      gating is on. */
  function QueryWidth(cfg: Config): nat
  {
    if cfg.gating then 2 * cfg.c else cfg.c
  }

  /**
   * The parameter shapes `__init__` allocates: every weight and bias is laid
   * out per track and per head, and each bias matches the last axis of the
   * projection it is added to.
   */
  function ParameterShapes(cfg: Config): (p: Parameters)
    ensures |p.qgWeights| == |p.kvWeights| == |p.qgBias| == |p.kvBias| == |p.oWeights| == 4
    ensures p.qgWeights[1..3] == p.kvWeights[1..3] == p.qgBias[..2] == p.kvBias[..2] == p.oWeights[..2]
              == [cfg.nAxis, cfg.nHead]
    ensures p.qgWeights[0] == cfg.qDim && p.kvWeights[0] == cfg.kvDim
    ensures p.qgBias[2] == p.kvBias[2] == 1
    ensures p.qgWeights[3] == p.qgBias[3] == QueryWidth(cfg) && p.kvWeights[3] == p.kvBias[3] == 2 * cfg.c
    ensures p.oWeights[2] == cfg.c && p.oBias == [p.oWeights[3], cfg.nAxis] && p.oBias[0] == cfg.outDim
  {
    var w := QueryWidth(cfg);
    Parameters(
      [cfg.qDim, cfg.nAxis, cfg.nHead, w],
      [cfg.kvDim, cfg.nAxis, cfg.nHead, 2 * cfg.c],
      [cfg.nAxis, cfg.nHead, 1, w],
      [cfg.nAxis, cfg.nHead, 1, 2 * cfg.c],
      [cfg.nAxis, cfg.nHead, cfg.c, cfg.outDim],
      [cfg.outDim, cfg.nAxis])
  }

  /** The size einsum gives a label two operands share: the sizes must be
      equal, or one of them 1, which is broadcast to the other, as
      broadcasting does on one axis. */
  function LabelSize(a: nat, b: nat): (r: Option<nat>)
    ensures r.Some? <==> a == b || a == 1 || b == 1
    ensures r.Some? ==> Broadcast([a], [b]) == Some([r.value])
  {
    assert [a][..0] == [] && [b][..0] == [] && Broadcast([], []) == Some([]);
    assert forall n: nat :: [] + [n] == [n];
    if a == b || b == 1 then Some(a) else if a == 1 then Some(b) else None
  }

  /** `einsum('...qar,arhc->...rhqc', x, w)`: project the features `a` of
      every track `r`, moving track and head in front of the length `q`. */
  function Project(x: Shape, w: Shape): (r: Option<Shape>)
    ensures r.Some? ==> |x| >= 3 && |w| == 4 && |r.value| == |x| + 1
    ensures r.Some? ==> r.value[..|x| - 3] == x[..|x| - 3] && r.value[|x|] == w[3]
    ensures r.Some? ==> r.value[|x| - 3] == (if x[|x| - 1] == 1 then w[1] else x[|x| - 1])
  {
    if |x| < 3 || |w| != 4 then None
    else
      var a :- LabelSize(x[|x| - 2], w[0]);
      var tracks :- LabelSize(x[|x| - 1], w[1]);
      Some(x[..|x| - 3] + [tracks, w[2], x[|x| - 3], w[3]])
  }

  /** `einsum('...rhqc,rhco->...qor', x, w)`: sum over heads and channels,
      moving the track axis back to the end. */
  function ProjectOut(x: Shape, w: Shape): (r: Option<Shape>)
    ensures r.Some? ==> |x| >= 4 && |w| == 4 && |r.value| + 1 == |x|
    ensures r.Some? ==> r.value[..|x| - 4] == x[..|x| - 4] && r.value[|x| - 4] == x[|x| - 2] && r.value[|x| - 3] == w[3]
    ensures r.Some? ==> r.value[|x| - 2] == (if x[|x| - 4] == 1 then w[0] else x[|x| - 4])
  {
    if |x| < 4 || |w| != 4 then None
    else
      var tracks :- LabelSize(x[|x| - 4], w[0]);
      var h :- LabelSize(x[|x| - 3], w[1]);
      var c :- LabelSize(x[|x| - 1], w[2]);
      Some(x[..|x| - 4] + [x[|x| - 2], w[3], tracks])
  }

  /*
   * The module-level `attention` driver on shapes.
   */

  /** The bias a piece of `width` query rows sees: sliced along the query
      axis when that axis is the query length, whole otherwise. */
  function BiasPiece(bias: Shape, qLen: nat, width: nat): Shape
    requires |bias| >= 2
  {
    if bias[|bias| - 2] != qLen then bias else bias[|bias| - 2 := width]
  }

  /** Each piece's logits `batch + [width, kLen]` take their bias in place. */
  predicate PiecesFit(batch: Shape, qLen: nat, kLen: nat, s: nat, bias: Shape)
    requires CanSplit(qLen, s) && |bias| >= 2
  {
    var w := Widths(qLen, s);
    forall i :: 0 <= i < |w| ==> InPlace(batch + [w[i], kLen], BiasPiece(bias, qLen, w[i]))
  }

  /**
   * `attention(query, key, value, subbatch_size, bias)` on shapes: the
   * output `(*batch, q_len, v_dim)` and the weights `(*batch, q_len, k_len)`.
   * The channels `d` of queries and keys, and the key length `j` of the
   * weights and the values, are einsum labels (lines 89 and 91); the key and
   * value batch axes must fit the query's, and each piece's bias must fit
   * its logits. Without a bias, `bias.shape[-2]` (line 129) raises.
   */
  function AttentionShapes(q: Shape, k: Shape, v: Shape, bias: Option<Shape>, subbatchSize: Option<nat>)
    : (r: Option<(Shape, Shape)>)
    ensures r.Some? ==> |q| >= 2 && |k| >= 2 && |v| >= 2 && |r.value.0| == |r.value.1| == |q| && bias.Some?
    ensures r.Some? ==> r.value.0[..|q| - 1] == q[..|q| - 1] && r.value.1[..|q| - 1] == q[..|q| - 1]
    ensures r.Some? ==> r.value.0[|q| - 1] == v[|v| - 1] && r.value.1[|q| - 1] == k[|k| - 2]
    ensures r.Some? ==> q[|q| - 1] == k[|k| - 1] || q[|q| - 1] == 1 || k[|k| - 1] == 1
    ensures r.Some? ==> k[|k| - 2] == v[|v| - 2] || k[|k| - 2] == 1 || v[|v| - 2] == 1
  {
    if |q| < 2 || |k| < 2 || |v| < 2 || bias.None? || |bias.value| < 2 then None
    else
      var qLen, kLen := q[|q| - 2], k[|k| - 2];
      var batch := q[..|q| - 2];
      var s := SizeOr(subbatchSize, qLen);
      if CanSplit(qLen, s) && LabelSize(q[|q| - 1], k[|k| - 1]).Some? && LabelSize(kLen, v[|v| - 2]).Some?
         && InPlace(batch, k[..|k| - 2]) && InPlace(batch, v[..|v| - 2])
         && PiecesFit(batch, qLen, kLen, s, bias.value)
      then
        assert batch + [qLen] == q[..|q| - 1];
        Some((batch + [qLen, v[|v| - 1]], batch + [qLen, kLen]))
      else None
  }

  /*
   * `Attention.forward`.
   */

  /** `fwd_cfg`, of which `forward` reads only `subbatch_size`. */
  datatype ForwardConfig = ForwardConfig(subbatchSize: Option<nat>)

  /** The arguments `forward` hands to `attention`, and the gate. */
  datatype Prepared = Prepared(q: Shape, k: Shape, v: Shape, subbatchSize: Option<nat>, gate: Option<Shape>)

  datatype Outputs = Outputs(output: Shape, weights: Shape)

  /** The track axis is missing: the last input axis is not the track
      count but is the query feature size. */
  predicate ToUnsqueeze(cfg: Config, qIn: Shape)
    requires |qIn| >= 1
  {
    qIn[|qIn| - 1] != cfg.nAxis && qIn[|qIn| - 1] == cfg.qDim
  }

  /**
   * The projections: query and gate from `q_inputs`, key and value from
   * `kv_inputs`, each plus its bias in place, then split into `c`-wide
   * parts; the sub-batch size is `q.shape[-4]` unless `fwd_cfg` gives one.
   */
  function Prepare(cfg: Config, qIn: Shape, kvIn: Shape, fwdCfg: Option<ForwardConfig>): (r: Option<Prepared>)
    ensures r.Some? ==> |r.value.q| >= 4
    ensures r.Some? ==> |r.value.q| == |qIn| + 1 && r.value.q[..|qIn| - 3] == qIn[..|qIn| - 3]
                        && r.value.q[|qIn|] == cfg.c
    ensures r.Some? ==> |r.value.k| == |r.value.v| == |kvIn| + 1 && r.value.k[|kvIn|] == r.value.v[|kvIn|] == cfg.c
  {
    var p := ParameterShapes(cfg);
    var qg :- Project(qIn, p.qgWeights);
    if !InPlace(qg, p.qgBias) then None
    else
      var qOut :- SplitEvery(qg, cfg.c, -1);
      var kv :- Project(kvIn, p.kvWeights);
      if !InPlace(kv, p.kvBias) then None
      else
        var kvParts :- SplitSizes(kv, [cfg.c, cfg.c], -1);
        var q := qOut[0];
        ChunkBounds(qg[|qg| - 1], cfg.c, 0);
        assert AxisSizes(kvParts, |kv| - 1) == [cfg.c, cfg.c];
        Some(Prepared(
          q, kvParts[0], kvParts[1],
          if fwdCfg.None? then Some(q[|q| - 4]) else fwdCfg.value.subbatchSize,
          if |qOut| >= 2 then Some(qOut[1]) else None))
  }

  /**
   * From the (possibly unsqueezed) inputs to the output before its final
   * squeeze and the weights before their rearrangement: attention, gating
   * (`sigmoid` keeps the shape; `attn_out *= g` must keep `attn_out`'s),
   * the output projection and its bias. The scale `c ** (-0.5)` handed to
   * `attention` raises when `c` is 0.
   */
  function Pipeline(cfg: Config, qIn: Shape, kvIn: Shape, bias: Option<Shape>, fwdCfg: Option<ForwardConfig>)
    : (r: Option<(Shape, Shape)>)
    ensures r.Some? ==> cfg.c > 0 && bias.Some?
    ensures r.Some? ==> |r.value.1| == |qIn| + 1
  {
    var pre :- Prepare(cfg, qIn, kvIn, fwdCfg);
    if cfg.c == 0 then None
    else
    var attn :- AttentionShapes(pre.q, pre.k, pre.v, bias, pre.subbatchSize);
    if cfg.gating && (pre.gate.None? || !InPlace(attn.0, pre.gate.value)) then None
    else
      var p := ParameterShapes(cfg);
      var output :- ProjectOut(attn.0, p.oWeights);
      if !InPlace(output, p.oBias) then None
      else Some((output, attn.1))
  }

  /** `logits[..., None].transpose(-1, -4).squeeze(-4)`. */
  function Rearrange(logits: Shape): (r: Option<Shape>)
    ensures r.Some? <==> |logits| >= 3
    ensures r.Some? ==> |r.value| == |logits| && r.value[|logits| - 1] == logits[|logits| - 3]
  {
    var expanded := Unsqueeze(logits, -1).value;
    var moved :- Transpose(expanded, -1, -4);
    var n := |logits|;
    assert moved[n - 3] == 1 && moved[n] == logits[n - 3];
    var r := Squeeze(moved, -4);
    assert r.value[n - 1] == moved[n] by {
      assert Unsqueeze(r.value, -4) == Some(moved);
    }
    r
  }

  /** The bias of an unsqueezed call gains a track axis before the heads. */
  function UnsqueezeBias(bias: Option<Shape>): (r: Option<Option<Shape>>)
    ensures r.Some? <==> bias.None? || |bias.value| >= 3
    ensures r.Some? ==> (r.value.Some? <==> bias.Some?)
    ensures r.Some? && bias.Some? ==> |r.value.value| == |bias.value| + 1 && r.value.value[|bias.value| - 3] == 1
  {
    if bias.None? then Some(None)
    else
      var b :- Unsqueeze(bias.value, -4);
      Some(Some(b))
  }

  /** `forward`: the shapes of the output and of the returned weights. */
  function Forward(cfg: Config, qIn: Shape, kvIn: Shape, bias: Option<Shape>, fwdCfg: Option<ForwardConfig>)
    : (r: Option<Outputs>)
    ensures r.Some? ==> cfg.c > 0 && bias.Some?
  {
    if |qIn| == 0 then None
    else
      var unsqueezed := ToUnsqueeze(cfg, qIn);
      var q0 := if unsqueezed then Unsqueeze(qIn, -1).value else qIn;
      var kv0 := if unsqueezed then Unsqueeze(kvIn, -1).value else kvIn;
      var bias0 :- if unsqueezed then UnsqueezeBias(bias) else Some(bias);
      var res :- Pipeline(cfg, q0, kv0, bias0, fwdCfg);
      var output :- if unsqueezed then Squeeze(res.0, -1) else Some(res.0);
      var logits :- if unsqueezed then Squeeze(res.1, -4) else Some(res.1);
      var weights :- Rearrange(logits);
      Some(Outputs(output, weights))
  }

  /*
   * Properties.
   */

  /** The steps of `Pipeline`, one at a time. */
  lemma PipelineSteps(cfg: Config, qIn: Shape, kvIn: Shape, bias: Option<Shape>, fwdCfg: Option<ForwardConfig>,
                      pre: Prepared, attn: (Shape, Shape), output: Shape)
    requires Prepare(cfg, qIn, kvIn, fwdCfg) == Some(pre)
    requires AttentionShapes(pre.q, pre.k, pre.v, bias, pre.subbatchSize) == Some(attn)
    requires !cfg.gating || (pre.gate.Some? && InPlace(attn.0, pre.gate.value))
    requires ProjectOut(attn.0, ParameterShapes(cfg).oWeights) == Some(output)
    requires InPlace(output, ParameterShapes(cfg).oBias)
    requires cfg.c > 0
    ensures Pipeline(cfg, qIn, kvIn, bias, fwdCfg) == Some((output, attn.1))
  {
  }

  /** The steps of `Forward` when the track axis is present. */
  lemma ForwardSteps(cfg: Config, qIn: Shape, kvIn: Shape, bias: Option<Shape>, fwdCfg: Option<ForwardConfig>,
                     res: (Shape, Shape), weights: Shape)
    requires |qIn| >= 1 && !ToUnsqueeze(cfg, qIn)
    requires Pipeline(cfg, qIn, kvIn, bias, fwdCfg) == Some(res)
    requires Rearrange(res.1) == Some(weights)
    ensures Forward(cfg, qIn, kvIn, bias, fwdCfg) == Some(Outputs(res.0, weights))
  {
  }

  /** The steps of `Forward` when the track axis is inserted. */
  lemma UnsqueezedForwardSteps(cfg: Config, qIn: Shape, kvIn: Shape, bias: Shape, fwdCfg: Option<ForwardConfig>,
                               bias0: Shape, res: (Shape, Shape), output: Shape, logits: Shape, weights: Shape)
    requires |qIn| >= 1 && ToUnsqueeze(cfg, qIn)
    requires Unsqueeze(bias, -4) == Some(bias0)
    requires Pipeline(cfg, qIn + [1], kvIn + [1], Some(bias0), fwdCfg) == Some(res)
    requires Squeeze(res.0, -1) == Some(output) && Squeeze(res.1, -4) == Some(logits)
    requires Rearrange(logits) == Some(weights)
    ensures Forward(cfg, qIn, kvIn, Some(bias), fwdCfg) == Some(Outputs(output, weights))
  {
    UnsqueezeLast(qIn);
    UnsqueezeLast(kvIn);
  }

  /** The returned weights move the head axis from before the query axis to
      the very end. */
  lemma HeadAxisMovesLast(pre: Shape, h: nat, qLen: nat, kLen: nat)
    ensures Rearrange(pre + [h, qLen, kLen]) == Some(pre + [qLen, kLen, h])
  {
    var n := |pre|;
    var expanded := pre + [h, qLen, kLen, 1];
    assert Unsqueeze(pre + [h, qLen, kLen], -1) == Some(expanded) by {
      assert (pre + [h, qLen, kLen])[..n + 3] + [1] + (pre + [h, qLen, kLen])[n + 3..] == expanded;
    }
    var moved := pre + [1, qLen, kLen, h];
    assert Transpose(expanded, -1, -4) == Some(moved) by {
      assert expanded[n + 3 := expanded[n]][n := expanded[n + 3]] == moved;
    }
    assert moved[..n] + moved[n + 1..] == pre + [qLen, kLen, h];
  }

  /** A projection of inputs `(*batch, len, dim, t)`, with the track axis
      (`t` is the track count) or with an inserted size-1 axis (`t` is 1),
      lays the result out per track and per head. */
  lemma ProjectTracks(batch: Shape, len: nat, d: nat, t: nat, w: Shape)
    requires |w| == 4 && w[0] == d && (t == w[1] || t == 1)
    ensures Project(batch + [len, d, t], w) == Some(batch + [w[1]] + [w[2], len, w[3]])
  {
    var x := batch + [len, d, t];
    assert x[..|x| - 3] == batch;
    assert batch + [w[1]] + [w[2], len, w[3]] == batch + [w[1], w[2], len, w[3]];
  }

  lemma InPlaceSelf(a: Shape)
    ensures InPlace(a, a)
  {
    FitsInPlace(a, a);
  }

  /** A projection bias `(n_axis, n_head, 1, width)` is added in place to the
      projection `(*batch, n_axis, n_head, len, width)`. */
  lemma ProjectionBiasFits(batch: Shape, a: nat, h: nat, len: nat, w: nat)
    ensures InPlace(batch + [a] + [h, len, w], [a, h, 1, w])
  {
    var x := batch + [a] + [h, len, w];
    var b := [a, h, 1, w];
    assert x[|x| - 4..] == [a, h, len, w];
    assert forall i :: 0 <= i < 4 ==> b[i] == x[|x| - 4 + i] || b[i] == 1;
    FitsInPlace(x, b);
  }

  /** The parts `split(c, -1)` cuts from the query projection: the query,
      then the gate when gating is on. */
  lemma QueryParts(cfg: Config, lead: Shape, h: nat, len: nat)
    requires cfg.c > 0 || !cfg.gating
    ensures var parts := SplitEvery(lead + [h, len, QueryWidth(cfg)], cfg.c, -1);
      && parts.Some? && |parts.value| >= 1 && parts.value[0] == lead + [h, len, cfg.c]
      && (cfg.gating ==> |parts.value| >= 2 && parts.value[1] == lead + [h, len, cfg.c])
  {
    var x := lead + [h, len, QueryWidth(cfg)];
    var c := cfg.c;
    assert x[|x| - 1] == QueryWidth(cfg);
    if c == 0 {
      assert Widths(0, 0) == [0];
    } else if cfg.gating {
      assert Widths(2 * c, c) == [c] + Widths(c, c) == [c, c];
    } else {
      assert Widths(c, c) == [c];
    }
    assert Axis(-1, |x|) == Some(|x| - 1);
    assert x[|x| - 1 := c] == lead + [h, len, c];
  }

  /** `split([c, c], -1)` cuts the key/value projection into key and value. */
  lemma KeyValueParts(lead: Shape, h: nat, len: nat, c: nat)
    ensures SplitSizes(lead + [h, len, 2 * c], [c, c], -1) == Some([lead + [h, len, c], lead + [h, len, c]])
  {
    var x := lead + [h, len, 2 * c];
    assert Sum([c]) == c by {
      assert [c][..0] == [];
    }
    assert Sum([c, c]) == 2 * c by {
      assert [c, c][..1] == [c];
    }
    assert x[|x| - 1] == 2 * c;
    assert Axis(-1, |x|) == Some(|x| - 1);
    assert x[|x| - 1 := c] == lead + [h, len, c];
    assert SplitSizes(x, [c, c], -1).Some?;
    var parts := SplitSizes(x, [c, c], -1).value;
    assert parts[0] == lead + [h, len, c] && parts[1] == lead + [h, len, c];
    assert parts == [lead + [h, len, c], lead + [h, len, c]];
  }

  /** The steps of `Prepare`, one at a time. */
  lemma PrepareSteps(cfg: Config, qIn: Shape, kvIn: Shape, fwdCfg: Option<ForwardConfig>,
                     qg: Shape, qOut: seq<Shape>, kv: Shape, kvParts: seq<Shape>)
    requires Project(qIn, ParameterShapes(cfg).qgWeights) == Some(qg) && InPlace(qg, ParameterShapes(cfg).qgBias)
    requires SplitEvery(qg, cfg.c, -1) == Some(qOut)
    requires Project(kvIn, ParameterShapes(cfg).kvWeights) == Some(kv) && InPlace(kv, ParameterShapes(cfg).kvBias)
    requires SplitSizes(kv, [cfg.c, cfg.c], -1) == Some(kvParts)
    requires |qOut| >= 1 && |qOut[0]| >= 4 && |kvParts| == 2
    ensures Prepare(cfg, qIn, kvIn, fwdCfg) == Some(Prepared(
      qOut[0], kvParts[0], kvParts[1],
      if fwdCfg.None? then Some(qOut[0][|qOut[0]| - 4]) else fwdCfg.value.subbatchSize,
      if |qOut| >= 2 then Some(qOut[1]) else None))
  {
  }

  /**
   * The projections on inputs with the track axis: query, key and value
   * are `(*batch, n_axis, n_head, len, c)`, and when no `fwd_cfg` is given the
   * sub-batch size is the track count `n_axis`, not the query length.
   */
  lemma PrepareShapes(cfg: Config, batch: Shape, qLen: nat, kvLen: nat, t: nat, fwdCfg: Option<ForwardConfig>)
    requires cfg.c > 0 || !cfg.gating
    requires t == cfg.nAxis || t == 1
    ensures var pre := Prepare(cfg, batch + [qLen, cfg.qDim, t], batch + [kvLen, cfg.kvDim, t], fwdCfg);
      && pre.Some?
      && pre.value.q == batch + [cfg.nAxis] + [cfg.nHead, qLen, cfg.c]
      && pre.value.k == pre.value.v == batch + [cfg.nAxis] + [cfg.nHead, kvLen, cfg.c]
      && pre.value.subbatchSize == (if fwdCfg.None? then Some(cfg.nAxis) else fwdCfg.value.subbatchSize)
      && (cfg.gating ==> pre.value.gate == Some(pre.value.q))
  {
    var p := ParameterShapes(cfg);
    var lead := batch + [cfg.nAxis];
    ProjectTracks(batch, qLen, cfg.qDim, t, p.qgWeights);
    ProjectionBiasFits(batch, cfg.nAxis, cfg.nHead, qLen, QueryWidth(cfg));
    QueryParts(cfg, lead, cfg.nHead, qLen);
    ProjectTracks(batch, kvLen, cfg.kvDim, t, p.kvWeights);
    ProjectionBiasFits(batch, cfg.nAxis, cfg.nHead, kvLen, 2 * cfg.c);
    KeyValueParts(lead, cfg.nHead, kvLen, cfg.c);
    var qOut := SplitEvery(lead + [cfg.nHead, qLen, QueryWidth(cfg)], cfg.c, -1).value;
    var kvPart := lead + [cfg.nHead, kvLen, cfg.c];
    PrepareSteps(cfg, batch + [qLen, cfg.qDim, t], batch + [kvLen, cfg.kvDim, t], fwdCfg,
                 lead + [cfg.nHead, qLen, QueryWidth(cfg)], qOut,
                 lead + [cfg.nHead, kvLen, 2 * cfg.c], [kvPart, kvPart]);
  }

  /** Logits `(*batch, rows, k_len)` take a bias `(*lead, m, k_len)` whose
      leading axes fit in place exactly when its `m` rows broadcast against
      the `rows` rows. */
  lemma RowsFitIffBroadcast(batch: Shape, biasLead: Shape, rows: nat, m: nat, kLen: nat)
    requires InPlace(batch, biasLead)
    ensures InPlace(batch + [rows, kLen], biasLead + [m, kLen]) <==> ChunkedAttention.Broadcasts(m, rows)
  {
    var a, b := batch + [rows, kLen], biasLead + [m, kLen];
    assert a == batch + [rows] + [kLen] && b == biasLead + [m] + [kLen];
    BroadcastLastAxis(batch, biasLead, rows, m);
    if Broadcast(batch + [rows], biasLead + [m]).Some? {
      var front := Broadcast(batch + [rows], biasLead + [m]).value;
      BroadcastLastAxis(batch + [rows], biasLead + [m], kLen, kLen);
      assert front + [kLen] == a <==> front == batch + [rows];
    } else {
      assert a[..|a| - 1] == batch + [rows] && b[..|b| - 1] == biasLead + [m];
    }
  }

  /** Broadcasting one more trailing axis onto shapes that broadcast. */
  lemma BroadcastLastAxis(a: Shape, b: Shape, x: nat, y: nat)
    requires Broadcast(a, b).Some?
    ensures Broadcast(a + [x], b + [y])
      == if x == y || x == 1 || y == 1 then Some(Broadcast(a, b).value + [if x == 1 then y else x]) else None
  {
    assert (a + [x])[..|a|] == a && (b + [y])[..|b|] == b;
  }

  /**
   * The per-piece bias rule on shapes is the rule on rows: with leading axes
   * that fit the batch, a bias `(*lead, m, k_len)` fits every piece's logits
   * exactly when the bias each piece is handed broadcasts against its rows.
   */
  lemma PiecesFitIffChunksBroadcast(batch: Shape, biasLead: Shape, qLen: nat, kLen: nat, s: nat, m: nat)
    requires CanSplit(qLen, s) && InPlace(batch, biasLead)
    ensures PiecesFit(batch, qLen, kLen, s, biasLead + [m, kLen])
      <==> ChunkedAttention.EveryChunkBroadcasts(m, qLen, s)
  {
    var bias := biasLead + [m, kLen];
    var w := Widths(qLen, s);
    WidthsCount(qLen, s);
    WidthsArePieces(qLen, s);
    assert bias[|bias| - 2] == m;
    forall i | 0 <= i < |w|
      ensures InPlace(batch + [w[i], kLen], BiasPiece(bias, qLen, w[i]))
        <==> ChunkedAttention.ChunkBroadcasts(m, qLen, s, i)
    {
      var m' := if m != qLen then m else w[i];
      assert BiasPiece(bias, qLen, w[i]) == biasLead + [m', kLen];
      RowsFitIffBroadcast(batch, biasLead, w[i], m', kLen);
      ChunkBounds(qLen, s, i);
    }
  }

  /** Every piece's bias fits its logits when the bias's leading axes fit the
      logits' batch axes. */
  lemma BiasPiecesFit(batch: Shape, biasLead: Shape, h: nat, qLen: nat, kLen: nat, s: nat)
    requires InPlace(batch, biasLead) && CanSplit(qLen, s)
    ensures PiecesFit(batch + [h], qLen, kLen, s, biasLead + [h, qLen, kLen])
  {
    var bias := biasLead + [h, qLen, kLen];
    var w := Widths(qLen, s);
    forall i | 0 <= i < |w|
      ensures InPlace(batch + [h] + [w[i], kLen], BiasPiece(bias, qLen, w[i]))
    {
      assert bias[|bias| - 2] == qLen;
      assert BiasPiece(bias, qLen, w[i]) == biasLead + [h, w[i], kLen];
      BroadcastCommonSuffix(batch, biasLead, [h, w[i], kLen]);
      assert batch + [h] + [w[i], kLen] == batch + [h, w[i], kLen];
    }
  }

  /** The chunked attention on the projected shapes. */
  lemma AttentionOnTracks(lead: Shape, biasLead: Shape, h: nat, qLen: nat, kvLen: nat, c: nat, subbatchSize: Option<nat>)
    requires InPlace(lead, biasLead)
    ensures AttentionShapes(lead + [h, qLen, c], lead + [h, kvLen, c], lead + [h, kvLen, c],
                            Some(biasLead + [h, qLen, kvLen]), subbatchSize)
      == Some((lead + [h, qLen, c], lead + [h, qLen, kvLen]))
  {
    var q, k := lead + [h, qLen, c], lead + [h, kvLen, c];
    assert q[..|q| - 2] == lead + [h] && k[..|k| - 2] == lead + [h];
    InPlaceSelf(lead + [h]);
    var s := SizeOr(subbatchSize, qLen);
    BiasPiecesFit(lead, biasLead, h, qLen, kvLen, s);
    assert lead + [h] + [qLen, c] == q && lead + [h] + [qLen, kvLen] == lead + [h, qLen, kvLen];
  }

  /** The output projection and its bias on the attended values
      `(*batch, n_axis, n_head, q_len, c)`. */
  lemma OutputProjection(cfg: Config, batch: Shape, qLen: nat)
    ensures var p := ParameterShapes(cfg);
      && ProjectOut(batch + [cfg.nAxis] + [cfg.nHead, qLen, cfg.c], p.oWeights)
           == Some(batch + [qLen, cfg.outDim, cfg.nAxis])
      && InPlace(batch + [qLen, cfg.outDim, cfg.nAxis], p.oBias)
  {
    var p := ParameterShapes(cfg);
    var attnOut := batch + [cfg.nAxis] + [cfg.nHead, qLen, cfg.c];
    assert attnOut[..|attnOut| - 4] == batch;
    assert attnOut[|attnOut| - 4..] == [cfg.nAxis, cfg.nHead, qLen, cfg.c];
    var output := batch + [qLen, cfg.outDim, cfg.nAxis];
    assert forall i :: 0 <= i < 2 ==> p.oBias[i] == output[|output| - 2 + i];
    FitsInPlace(output, p.oBias);
  }

  /**
   * The path through `forward` after the optional unsqueeze: inputs
   * `(*batch, len, dim, t)`, where `t` is the track count or an inserted
   * size-1 axis that the projections broadcast to it, give the output
   * `(*batch, q_len, out_dim, n_axis)` and the weights
   * `(*batch, n_axis, n_head, q_len, kv_len)`.
   */
  lemma PipelineShapes(cfg: Config, batch: Shape, biasLead: Shape, qLen: nat, kvLen: nat, t: nat,
                       fwdCfg: Option<ForwardConfig>)
    requires cfg.c > 0
    requires t == cfg.nAxis || t == 1
    requires InPlace(batch + [cfg.nAxis], biasLead)
    ensures Pipeline(cfg, batch + [qLen, cfg.qDim, t], batch + [kvLen, cfg.kvDim, t],
                     Some(biasLead + [cfg.nHead, qLen, kvLen]), fwdCfg)
      == Some((batch + [qLen, cfg.outDim, cfg.nAxis], batch + [cfg.nAxis] + [cfg.nHead, qLen, kvLen]))
  {
    var qIn, kvIn := batch + [qLen, cfg.qDim, t], batch + [kvLen, cfg.kvDim, t];
    PrepareShapes(cfg, batch, qLen, kvLen, t, fwdCfg);
    var pre := Prepare(cfg, qIn, kvIn, fwdCfg).value;
    var lead := batch + [cfg.nAxis];
    AttentionOnTracks(lead, biasLead, cfg.nHead, qLen, kvLen, cfg.c, pre.subbatchSize);
    var attnOut := lead + [cfg.nHead, qLen, cfg.c];
    var logits := lead + [cfg.nHead, qLen, kvLen];
    InPlaceSelf(attnOut);
    OutputProjection(cfg, batch, qLen);
    PipelineSteps(cfg, qIn, kvIn, Some(biasLead + [cfg.nHead, qLen, kvLen]), fwdCfg,
                  pre, (attnOut, logits), batch + [qLen, cfg.outDim, cfg.nAxis]);
  }

  /**
   * Inputs carrying the track axis `(*batch, len, dim, n_axis)`: the
   * output is `(*batch, q_len, out_dim, n_axis)` and the returned weights are
   * `(*batch, n_axis, q_len, kv_len, n_head)`.
   */
  lemma TrackInputShapes(cfg: Config, batch: Shape, biasLead: Shape, qLen: nat, kvLen: nat,
                         fwdCfg: Option<ForwardConfig>)
    requires cfg.c > 0
    requires InPlace(batch + [cfg.nAxis], biasLead)
    ensures Forward(cfg, batch + [qLen, cfg.qDim, cfg.nAxis], batch + [kvLen, cfg.kvDim, cfg.nAxis],
                    Some(biasLead + [cfg.nHead, qLen, kvLen]), fwdCfg)
      == Some(Outputs(batch + [qLen, cfg.outDim, cfg.nAxis], batch + [cfg.nAxis] + [qLen, kvLen, cfg.nHead]))
  {
    var qIn, kvIn := batch + [qLen, cfg.qDim, cfg.nAxis], batch + [kvLen, cfg.kvDim, cfg.nAxis];
    assert !ToUnsqueeze(cfg, qIn);
    PipelineShapes(cfg, batch, biasLead, qLen, kvLen, cfg.nAxis, fwdCfg);
    var lead := batch + [cfg.nAxis];
    HeadAxisMovesLast(lead, cfg.nHead, qLen, kvLen);
    ForwardSteps(cfg, qIn, kvIn, Some(biasLead + [cfg.nHead, qLen, kvLen]), fwdCfg,
                 (batch + [qLen, cfg.outDim, cfg.nAxis], lead + [cfg.nHead, qLen, kvLen]),
                 lead + [qLen, kvLen, cfg.nHead]);
  }

  /** The bias of an unsqueezed call gains its track axis before the heads. */
  lemma BiasGainsTrack(biasLead: Shape, rest: Shape)
    requires |rest| == 3
    ensures Unsqueeze(biasLead + rest, -4) == Some(biasLead + [1] + rest)
  {
    var b := biasLead + rest;
    assert Axis(-4, |b| + 1) == Some(|biasLead|);
    assert b[..|biasLead|] == biasLead && b[|biasLead|..] == rest;
  }

  /** The output of an unsqueezed call loses its size-1 track axis. */
  lemma OutputLosesTrack(pre: Shape)
    ensures Squeeze(pre + [1], -1) == Some(pre)
  {
    var o := pre + [1];
    assert Axis(-1, |o|) == Some(|pre|);
    assert o[|pre|] == 1;
    assert o[..|pre|] + o[|pre| + 1..] == pre;
  }

  /** The weights of an unsqueezed call lose their size-1 track axis. */
  lemma WeightsLoseTrack(batch: Shape, rest: Shape)
    requires |rest| == 3
    ensures Squeeze(batch + [1] + rest, -4) == Some(batch + rest)
  {
    var l := batch + [1] + rest;
    assert Axis(-4, |l|) == Some(|batch|);
    assert l[..|batch|] == batch && l[|batch| + 1..] == rest;
  }

  lemma AppendAxis(pre: Shape, a: nat, b: nat, t: nat)
    ensures pre + [a, b] + [t] == pre + [a, b, t]
  {
  }

  /** The unsqueezed bias's size-1 track axis broadcasts to the track count. */
  lemma TrackBroadcastsInBias(batch: Shape, biasLead: Shape, n: nat)
    requires InPlace(batch, biasLead)
    ensures InPlace(batch + [n], biasLead + [1])
  {
    assert (batch + [n])[..|batch|] == batch && (biasLead + [1])[..|biasLead|] == biasLead;
  }

  /** The pipeline on plain inputs after the size-1 track axis is inserted:
      the projections broadcast it to the track count. */
  lemma UnsqueezedPipeline(cfg: Config, batch: Shape, biasLead: Shape, qLen: nat, kvLen: nat,
                           fwdCfg: Option<ForwardConfig>)
    requires cfg.c > 0
    requires InPlace(batch, biasLead)
    ensures Pipeline(cfg, batch + [qLen, cfg.qDim] + [1], batch + [kvLen, cfg.kvDim] + [1],
                     Some(biasLead + [1] + [cfg.nHead, qLen, kvLen]), fwdCfg)
      == Some((batch + [qLen, cfg.outDim] + [cfg.nAxis], batch + [cfg.nAxis] + [cfg.nHead, qLen, kvLen]))
  {
    TrackBroadcastsInBias(batch, biasLead, cfg.nAxis);
    PipelineShapes(cfg, batch, biasLead + [1], qLen, kvLen, 1, fwdCfg);
    AppendAxis(batch, qLen, cfg.qDim, 1);
    AppendAxis(batch, kvLen, cfg.kvDim, 1);
    AppendAxis(batch, qLen, cfg.outDim, cfg.nAxis);
  }

  /**
   * Inputs without the track axis `(*batch, len, dim)` on a single-track
   * module: the axis is inserted and removed again, so the output is
   * `(*batch, q_len, out_dim)` and the returned weights are
   * `(*batch, q_len, kv_len, n_head)`.
   */
  lemma PlainInputShapes(cfg: Config, batch: Shape, biasLead: Shape, qLen: nat, kvLen: nat,
                         fwdCfg: Option<ForwardConfig>)
    requires cfg.nAxis == 1 && cfg.qDim != 1
    requires cfg.c > 0
    requires InPlace(batch, biasLead)
    ensures Forward(cfg, batch + [qLen, cfg.qDim], batch + [kvLen, cfg.kvDim],
                    Some(biasLead + [cfg.nHead, qLen, kvLen]), fwdCfg)
      == Some(Outputs(batch + [qLen, cfg.outDim], batch + [qLen, kvLen, cfg.nHead]))
  {
    var qIn, kvIn := batch + [qLen, cfg.qDim], batch + [kvLen, cfg.kvDim];
    var rest := [cfg.nHead, qLen, kvLen];
    var outPre := batch + [qLen, cfg.outDim];
    assert ToUnsqueeze(cfg, qIn);
    BiasGainsTrack(biasLead, rest);
    UnsqueezedPipeline(cfg, batch, biasLead, qLen, kvLen, fwdCfg);
    OutputLosesTrack(outPre);
    WeightsLoseTrack(batch, rest);
    HeadAxisMovesLast(batch, cfg.nHead, qLen, kvLen);
    UnsqueezedForwardSteps(cfg, qIn, kvIn, biasLead + rest, fwdCfg, biasLead + [1] + rest,
                           (outPre + [1], batch + [1] + rest), outPre, batch + rest,
                           batch + [qLen, kvLen, cfg.nHead]);
  }

  /** `output.squeeze(-1)` keeps a track axis that is not 1. */
  lemma OutputKeepsTracks(pre: Shape, n: nat)
    requires n != 1
    ensures Squeeze(pre + [n], -1) == Some(pre + [n])
  {
    assert (pre + [n])[|pre|] == n;
  }

  /** `logits.squeeze(-4)` keeps a track axis that is not 1. */
  lemma WeightsKeepTracks(batch: Shape, n: nat, rest: Shape)
    requires n != 1 && |rest| == 3
    ensures Squeeze(batch + [n] + rest, -4) == Some(batch + [n] + rest)
  {
    var l := batch + [n] + rest;
    assert Axis(-4, |l|) == Some(|batch|) && l[|batch|] == n;
  }

  /**
   * Inputs without the track axis `(*batch, len, dim)` on a module with
   * several tracks: the inserted size-1 axis is broadcast to the track count
   * by the projections and is no longer 1 when `forward` squeezes it, so
   * the output keeps it, `(*batch, q_len, out_dim, n_axis)`, and the returned
   * weights are `(*batch, n_axis, q_len, kv_len, n_head)`, as for inputs that
   * carry the track axis.
   */
  lemma PlainInputOnSeveralTracks(cfg: Config, batch: Shape, biasLead: Shape, qLen: nat, kvLen: nat,
                                  fwdCfg: Option<ForwardConfig>)
    requires cfg.nAxis != 1 && cfg.qDim != cfg.nAxis
    requires cfg.c > 0
    requires InPlace(batch, biasLead)
    ensures Forward(cfg, batch + [qLen, cfg.qDim], batch + [kvLen, cfg.kvDim],
                    Some(biasLead + [cfg.nHead, qLen, kvLen]), fwdCfg)
      == Some(Outputs(batch + [qLen, cfg.outDim, cfg.nAxis], batch + [cfg.nAxis] + [qLen, kvLen, cfg.nHead]))
  {
    var qIn, kvIn := batch + [qLen, cfg.qDim], batch + [kvLen, cfg.kvDim];
    var rest := [cfg.nHead, qLen, kvLen];
    var output := batch + [qLen, cfg.outDim] + [cfg.nAxis];
    var logits := batch + [cfg.nAxis] + rest;
    assert ToUnsqueeze(cfg, qIn);
    BiasGainsTrack(biasLead, rest);
    UnsqueezedPipeline(cfg, batch, biasLead, qLen, kvLen, fwdCfg);
    OutputKeepsTracks(batch + [qLen, cfg.outDim], cfg.nAxis);
    WeightsKeepTracks(batch, cfg.nAxis, rest);
    AppendAxis(batch, qLen, cfg.outDim, cfg.nAxis);
    HeadAxisMovesLast(batch + [cfg.nAxis], cfg.nHead, qLen, kvLen);
    UnsqueezedForwardSteps(cfg, qIn, kvIn, biasLead + rest, fwdCfg, biasLead + [1] + rest,
                           (output, logits), output, logits,
                           batch + [cfg.nAxis] + [qLen, kvLen, cfg.nHead]);
  }
}
