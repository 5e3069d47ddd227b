# OmegaFold attention building blocks, modelled in Dafny

This project models the shared building blocks of OmegaFold's
`omegafold/modules.py`:

- the memory-bounded attention driver `attention`, which splits the query rows
  into sub-batches, attends each one against all keys with `_attention`, and
  writes the results into two preallocated buffers;
- `Transition.forward`, which runs a two-layer network over sub-batches of the
  input along dimension 0;
- `Val2Bins.forward`, which turns distances into histogram bins;
- `MultiHeadedScaling`, which computes one elementwise scale-and-shift per head;
- the multi-track `Attention` module, on shapes: its parameter layout and
  how `forward` carries the shapes of its inputs to its two results.

The model is split into these modules:

- **`Chunks`** (`chunks.dfy`) holds the arithmetic of `Tensor.split(size)` and
  Python's `size or fallback`. An axis of `n` rows cut every `s` gives
  `max(ceil(n / s), 1)` pieces. A size of 0 is accepted only on an empty axis.
  The lemmas show the pieces tile the axis in order, without overlap.
- **`ChunkedAttention`** (`attention_driver.dfy`) models `attention`
  imperatively: two arrays are filled piece by piece.
  - The numeric kernel is a function parameter `rowAttn` acting on one query
    row. Both contractions and the softmax of `_attention` run along the key
    and feature axes only, so each query row is computed on its own.
  - The method is proved against the function `Chunked`, which concatenates
    the pieces' results.
  - `Chunked` is proved equal to the driver with a single piece whenever the
    latter succeeds. Chunking is transparent.
- **`Transition`** (`transition.dfy`) models the sub-batched loop as a method
  writing into an array. Every row is written exactly once, with the network
  applied to it.
- **`Bins`** (`bins.dfy`) counts the breaks below each distance. The count is
  related to a set-based definition and, for ascending breaks, to the first
  break that is not below the distance.
- **`TensorShapes`** (`shapes.dfy`) gives the shape rules of `unsqueeze`,
  `squeeze(dim)`, `transpose`, broadcasting and both forms of `split`. It
  proves the recursive broadcast equals the axis-by-axis rule.
- **`Scaling`** (`scaling.dfy`) models `MultiHeadedScaling` on shapes
  (`Init`, `ForwardShapes`) and on values (`Forward`).
- **`MultiAxisAttention`** (`attention_module.dfy`) models `Attention` on
  shapes. A function returns `None` where torch raises. Einsum labels of
  size 1 broadcast, as in torch, so plain inputs on a module with several
  tracks run through with the track axis kept.
- **`Wrappers`** (`wrappers.dfy`) holds `Option` and `Result`.

Two behaviours of the code are worth knowing:

- **Chunking is transparent on success but not on failure.** A piece gets the
  whole bias whenever the bias's query axis is not the query length. Such a
  bias can have exactly as many rows as every piece, for example 2 rows for
  4 queries cut in pieces of 2. The chunked call then accepts it, while the
  driver with a single piece rejects it. `ChunkedAttention.ChunkSizedBiasOnlyPassesChunked`
  exhibits this input.
- **`Attention.forward`'s default sub-batch size is not the query length.**
  Without `fwd_cfg` it is `q.shape[-4]`, the track count `n_axis`
  (`MultiAxisAttention.PrepareShapes`, `omegafold/modules.py:415-417`).
  That size is falsy only when `n_axis` is 0. With a `fwd_cfg`, its
  `subbatch_size` is passed on as it is; when that is `None` or 0,
  `attention`'s own fallback `subbatch_size or q_length`
  (`omegafold/modules.py:118`) runs the whole query as one piece
  (`Chunks.FalsySizeIsOneChunk`).

`Transition.forward` falls back to `x.shape[-2]` but splits dimension 0. The
two agree on the `(L, d)` inputs it is given (`Transition.PlainInputIsOneChunk`).
On a higher-rank input the fallback cuts dimension 0 into pieces of the
second-to-last axis's size (`Transition.FallbackFollowsPenultimateAxis`). The
result is the same either way. The model reports rank-0 and rank-1 inputs as
failing.

The per-piece bias rule appears twice: on rows in `ChunkedAttention` and on
shapes in `MultiAxisAttention`. `MultiAxisAttention.PiecesFitIffChunksBroadcast`
proves the two views agree.

## Model

| member | source | states |
|---|---|---|
| Chunks.NumChunks | omegafold/modules.py:127 | `split` yields at least one piece, even on an empty axis |
| Chunks.NumChunksBounds | omegafold/modules.py:127-128 | the pieces reach the end of the axis, and one fewer would not |
| Chunks.NumChunksUnique | omegafold/modules.py:127-128 | the piece count is the only count that reaches the end with the last piece and not before |
| Chunks.ChunkBounds | omegafold/modules.py:127-128 | piece `i` starts where the earlier pieces end, lies inside the axis and is at most `s` long; every piece but the last is exactly `s` long |
| Chunks.LastChunkEnds | omegafold/modules.py:127-128 | together the pieces cover the whole axis |
| Chunks.ChunkOfRow | omegafold/modules.py:127-128 | every row lies in piece `r / s` |
| Chunks.ChunkIndexUnique | omegafold/modules.py:127-128 | no row lies in two pieces |
| Chunks.ChunksTile | omegafold/modules.py:127-128 | the pieces tile the axis in order, from 0 to `n` |
| Chunks.FalsySizeIsOneChunk | omegafold/modules.py:118 | a sub-batch size of `None` or 0 falls back to the query length, giving one piece that covers every row |
| ChunkedAttention.BlockAttention | omegafold/modules.py:89-92 | `_attention` on one block followed by the row write of lines 135-136: succeeds iff the bias has as many rows as the block or one row (a 1-row block against a longer bias broadcasts in `_attention` but fails at the write), and gives one output row and one weight row per query row |
| ChunkedAttention.PieceBias | omegafold/modules.py:129-132 | piece `i` is handed the whole bias when its row count is not the query length, and otherwise exactly the bias rows `[start, end)` of the piece |
| ChunkedAttention.PieceAttentionBroadcasts | omegafold/modules.py:127-134 | a piece's `_attention` succeeds iff the bias it is handed (sliced or whole) broadcasts against it |
| ChunkedAttention.ChunkingIsTransparent | omegafold/modules.py:127-136 | when the driver with a single piece succeeds, every piece's bias broadcasts, and every row of the chunked result equals that row of the single-piece result |
| ChunkedAttention.PieceRowIsWholeRow | omegafold/modules.py:127-136 | row `r` computed inside its piece equals row `r` of the single-piece result |
| ChunkedAttention.PieceRow | omegafold/modules.py:128-136 | row `r` of the driver's result is row `r - start` of its piece's result |
| ChunkedAttention.ChunkSizedBiasOnlyPassesChunked | omegafold/modules.py:129-134 | a 2-row bias on 4 queries cut in pieces of 2 is rejected by a single piece but accepted chunked |
| ChunkedAttention.PiecesUpToSucceeds | omegafold/modules.py:127-136 | the first `i` pieces succeed iff each of their biases broadcasts |
| ChunkedAttention.PieceFailureIsFinal | omegafold/modules.py:127-136 | once a piece fails, the whole call fails |
| ChunkedAttention.PiecesUpToRows | omegafold/modules.py:127-136 | the first `i` pieces fill rows `[0, min(i*s, n))`, each with what its own piece computes for it |
| ChunkedAttention.Chunked | omegafold/modules.py:124-138 | the concatenated pieces, on success one output row and one weight row per query row |
| ChunkedAttention.ChunkedRows | omegafold/modules.py:124-138 | the driver succeeds iff every piece's bias broadcasts; then it fills all `n` rows, each from its own piece |
| ChunkedAttention.ChunkedIsWhole | omegafold/modules.py:117-138 | whenever the driver with a single piece succeeds, the chunked driver returns the same output and weights |
| ChunkedAttention.AssignRows | omegafold/modules.py:135-136 | slice assignment keeps the rows before `start`, replaces the next ones with the piece's rows, and keeps the rows after them |
| ChunkedAttention.FillPiece | omegafold/modules.py:127-136 | one loop iteration extends the filled prefix of both buffers by piece `i`'s result, or reports the piece's broadcasting error; rows past the piece keep their values |
| ChunkedAttention.FillPieces | omegafold/modules.py:127-138 | the loop succeeds iff the chunked result exists, and then the buffers hold it |
| ChunkedAttention.Attention | omegafold/modules.py:117-138 | buffers of the query's length; success iff every piece's bias broadcasts; the buffers hold the concatenated pieces, and equal the single-piece result whenever that one exists |
| Transition.Forward | omegafold/modules.py:183-190 | the output is shaped like the input; the model reports success iff the input has rank at least 2, the size exists and `split` accepts it; every row is written exactly once, with the network applied to that row |
| Transition.ChunkSize | omegafold/modules.py:183 | on an input of rank 2 or more the size is `subbatch_size or x.shape[-2]`; on a lower rank it exists only when `subbatch_size` is truthy, and then is that size |
| Transition.PlainInputIsOneChunk | omegafold/modules.py:183-186 | on an `(L, d)` input with a falsy sub-batch size, the whole input is one piece |
| Transition.FallbackFollowsPenultimateAxis | omegafold/modules.py:183-186 | the fallback size is taken from `x.shape[-2]`, not from the split axis |
| Bins.CountBelow | omegafold/modules.py:283-285 | a distance's bin is at most the number of breaks |
| Bins.Bin | omegafold/modules.py:282-286 | one bin per distance, each in `[0, num_bins - 1]` |
| Bins.BelowStep | omegafold/modules.py:283-285 | one more break adds its index to the set of breaks below the distance exactly when the distance lies above it |
| Bins.CountBelowIsSize | omegafold/modules.py:283-285 | the bin is the number of breaks strictly below the distance |
| Bins.CountBelowMonotone | omegafold/modules.py:283-285 | a larger distance never falls in a lower bin |
| Bins.BinIsFirstBreakNotBelow | omegafold/modules.py:267-285 | for ascending breaks, every break before the bin index is below the distance and none from it on is |
| TensorShapes.Axis | omegafold/modules.py:244 | a Python axis index is valid iff it lies in `[-rank, rank)`, and names a position congruent to it modulo the rank |
| TensorShapes.Unsqueeze | omegafold/modules.py:400-403 | `unsqueeze(d)` is valid iff `d` lies in `[-(rank+1), rank]`; it inserts a size-1 axis and keeps the others in order |
| TensorShapes.Squeeze | omegafold/modules.py:436 | `squeeze(d)` is valid iff `d` names an axis; a size-1 axis is removed so that unsqueezing at `d` gives the shape back, and any other axis leaves the shape unchanged |
| TensorShapes.UnsqueezeLast | omegafold/modules.py:400-401 | `unsqueeze(-1)` appends a size-1 axis |
| TensorShapes.SqueezeUndoesUnsqueeze | omegafold/modules.py:400-403 | squeezing the inserted axis gives the shape back |
| TensorShapes.Transpose | omegafold/modules.py:437 | `transpose(d0, d1)` is valid iff both axes exist; it swaps their sizes and keeps every other axis |
| TensorShapes.TransposeTwice | omegafold/modules.py:437 | transposing the same two axes twice gives the shape back |
| TensorShapes.Broadcast | omegafold/modules.py:243 | a successful broadcast has the larger of the two ranks |
| TensorShapes.BroadcastAxisByAxis | omegafold/modules.py:243 | the broadcast succeeds iff at each position from the end the sizes agree or one is 1; the result has the larger rank and the non-1 size at each position |
| TensorShapes.FitsInPlace | omegafold/modules.py:406 | a shape matching `a` from the end, up to size-1 axes, adds into `a` in place |
| TensorShapes.BroadcastCommonSuffix | omegafold/modules.py:243 | trailing axes shared by both shapes carry through broadcasting unchanged |
| TensorShapes.WidthsSum | omegafold/modules.py:407 | the pieces of `split(s)` add up to the axis |
| TensorShapes.WidthsCount | omegafold/modules.py:407 | `split(s)` gives as many pieces as the driver's loop runs |
| TensorShapes.WidthIsPiece | omegafold/modules.py:407 | piece `i` of `split(s)` is as wide as the driver's rows `[i*s, min((i+1)*s, n))` |
| TensorShapes.SplitEvery | omegafold/modules.py:407 | `split(s, d)` succeeds iff the axis is valid and `split` accepts the size; there are as many pieces as the driver's loop runs, each agrees with the input off the axis, piece `i` spans the driver's rows `[i*s, min((i+1)*s, n))` along it, and the widths add up to the axis |
| TensorShapes.WidthsArePieces | omegafold/modules.py:407 | every piece of `split(s)` is as wide as the driver's matching rows |
| TensorShapes.SplitSizes | omegafold/modules.py:412 | `split(sizes, d)` succeeds iff the axis is valid and the sizes add up to it; there is one piece per size, each agrees with the input off the axis, and the piece sizes along it are `sizes`, adding up to the axis |
| TensorShapes.SumOfOnes | omegafold/modules.py:224 | `[1] * num_heads` adds up to `num_heads` |
| Scaling.Init | omegafold/modules.py:218-224 | the parameter shape is the head count followed by the given shape; the input is unsqueezed just before its trailing axes; there is one split width per head, adding up to the head count |
| Scaling.ForwardShapes | omegafold/modules.py:243-250 | one output per split width |
| Scaling.HeadAxisBroadcasts | omegafold/modules.py:243 | the inserted size-1 axis broadcasts to the head count, and the bias adds in place |
| Scaling.OneOutputPerHeadShapedLikeInput | omegafold/modules.py:218-250 | an input whose trailing axes are the given shape comes back as `num_heads` tensors, each shaped like the input |
| Scaling.ScaleShift | omegafold/modules.py:243 | one row per head for every input row, each as long as the input row |
| Scaling.SplitHeads | omegafold/modules.py:248-250 | splitting per head succeeds iff the head axis has `num_heads` entries, and then yields `num_heads` tensors |
| Scaling.StackUndoesSplit | omegafold/modules.py:248-250 | stacking the per-head outputs gives the tensor back: no element is lost or moved |
| Scaling.SplitUndoesStack | omegafold/modules.py:248-250 | splitting stacked heads gives the heads back |
| Scaling.Forward | omegafold/modules.py:243-250 | on success there is one output per head |
| Scaling.HeadIsScaledInput | omegafold/modules.py:243-250 | without a callback, element `e` of row `b` of output `h` is `x[b][e] * weight[h][e] + bias[h][e]`; every output is shaped like the input |
| Scaling.HeadsOfCallbackResult | omegafold/modules.py:245-250 | with a callback, the outputs stacked back together are exactly what the callback returned |
| MultiAxisAttention.ParameterShapes | omegafold/modules.py:354-366 | every weight and bias is laid out per track and per head; each bias matches the last axis of its projection; the output bias is `(out_dim, n_axis)` |
| MultiAxisAttention.LabelSize | omegafold/modules.py:405 | an einsum label shared by two operands is valid iff its sizes agree or one is 1, and then takes the broadcast size |
| MultiAxisAttention.Project | omegafold/modules.py:405 | the projection adds one axis to its input, keeps the batch axes, ends with the projection width and takes the track axis from the input unless that one is 1 |
| MultiAxisAttention.ProjectOut | omegafold/modules.py:432 | `einsum('...rhqc,rhco->...qor')` drops one axis, keeps the batch axes, gives `(q, out, r)` with the track size taken by broadcasting |
| MultiAxisAttention.ProjectTracks | omegafold/modules.py:405 | a `(*batch, len, dim, t)` input with `t` the track count or 1 projects to `(*batch, n_axis, n_head, len, width)` |
| MultiAxisAttention.ProjectionBiasFits | omegafold/modules.py:406 | the projection bias adds in place to the projection |
| MultiAxisAttention.QueryParts | omegafold/modules.py:407-408 | `split(c, -1)` of the query projection yields the query and, with gating, the gate, each `c` wide |
| MultiAxisAttention.KeyValueParts | omegafold/modules.py:412 | `split([c, c], -1)` of the key/value projection yields key and value, each `c` wide |
| MultiAxisAttention.Prepare | omegafold/modules.py:405-417 | query, key and value gain one axis over their inputs and end in `c` channels; the query keeps the batch axes |
| MultiAxisAttention.PrepareShapes | omegafold/modules.py:405-417 | with a track axis of `n_axis` or 1 on the inputs, query, key and value are `(*batch, n_axis, n_head, len, c)`; without `fwd_cfg` the sub-batch size is `n_axis`; with gating the gate is shaped like the query |
| MultiAxisAttention.AttentionShapes | omegafold/modules.py:117-138 | on success a bias was given, and the results are `(*batch, q_len, v_dim)` and `(*batch, q_len, k_len)` over the query's batch axes; the einsum labels `d` (query and key channels, line 89) and `j` (key and value lengths, line 91) agree or one of them is 1 |
| MultiAxisAttention.BiasPiecesFit | omegafold/modules.py:129-134 | a bias whose leading axes fit the batch fits every piece's logits |
| MultiAxisAttention.AttentionOnTracks | omegafold/modules.py:418-425 | on the projected shapes the driver gives output `(*lead, n_head, q_len, c)` and weights `(*lead, n_head, q_len, kv_len)`, for any sub-batch size |
| MultiAxisAttention.OutputProjection | omegafold/modules.py:432-433 | the output projection gives `(*batch, q_len, out_dim, n_axis)`, and the output bias adds in place |
| MultiAxisAttention.Pipeline | omegafold/modules.py:405-433 | on success `c` is positive, since `c ** (-0.5)` at line 424 raises for 0, and a bias was given; the weights have one axis more than the input |
| MultiAxisAttention.PipelineShapes | omegafold/modules.py:405-433 | with `c > 0`, inputs with a track axis of `n_axis` or 1 give output `(*batch, q_len, out_dim, n_axis)` and weights `(*batch, n_axis, n_head, q_len, kv_len)` before rearrangement |
| MultiAxisAttention.Rearrange | omegafold/modules.py:437 | valid iff the weights have rank at least 3; the rank is kept and the head axis ends up last |
| MultiAxisAttention.HeadAxisMovesLast | omegafold/modules.py:437 | the returned weights move the head axis from before the query axis to the end |
| MultiAxisAttention.TrackInputShapes | omegafold/modules.py:395-437 | with `c > 0`, inputs with the track axis give output `(*batch, q_len, out_dim, n_axis)` and weights `(*batch, n_axis, q_len, kv_len, n_head)` |
| MultiAxisAttention.ToUnsqueeze | omegafold/modules.py:395-398 | the track axis is inserted when the last input axis is the query feature size and not the track count |
| MultiAxisAttention.UnsqueezeBias | omegafold/modules.py:402-403 | a missing bias stays missing; a bias of rank at least 3 gains a size-1 axis before its last three |
| MultiAxisAttention.Forward | omegafold/modules.py:395-437 | `forward` on shapes fails whenever `c` is 0 or no bias is given; its outcome on valid inputs is given by `TrackInputShapes`, `PlainInputShapes` and `PlainInputOnSeveralTracks` |
| MultiAxisAttention.BiasGainsTrack | omegafold/modules.py:402-403 | `bias.unsqueeze(-4)` inserts the track axis before the head axis |
| MultiAxisAttention.OutputLosesTrack | omegafold/modules.py:436 | `output.squeeze(-1)` removes the inserted track axis |
| MultiAxisAttention.WeightsLoseTrack | omegafold/modules.py:436 | `logits.squeeze(-4)` removes the inserted track axis |
| MultiAxisAttention.PiecesFitIffChunksBroadcast | omegafold/modules.py:129-134 | on shapes, a bias fits every piece's logits iff, on rows, every piece's bias broadcasts: the two views of the per-piece rule agree |
| MultiAxisAttention.BroadcastLastAxis | omegafold/modules.py:406 | one more trailing axis on two broadcastable shapes broadcasts by the one-axis rule |
| MultiAxisAttention.RowsFitIffBroadcast | omegafold/modules.py:129-135 | logits `(*batch, rows, k_len)` take a bias `(*lead, m, k_len)` in place iff its `m` rows broadcast against `rows` |
| MultiAxisAttention.TrackBroadcastsInBias | omegafold/modules.py:403 | the size-1 track axis inserted into the bias broadcasts against any track count |
| MultiAxisAttention.UnsqueezedPipeline | omegafold/modules.py:399-433 | with `c > 0`, plain inputs with the inserted size-1 track axis run through the projections, the attention and the output projection on any track count, giving output `(*batch, q_len, out_dim, n_axis)` |
| MultiAxisAttention.PlainInputShapes | omegafold/modules.py:395-437 | with `c > 0`, on a single-track module, plain `(*batch, len, dim)` inputs give output `(*batch, q_len, out_dim)` and weights `(*batch, q_len, kv_len, n_head)` |
| MultiAxisAttention.OutputKeepsTracks | omegafold/modules.py:436 | `squeeze(-1)` leaves an output whose last axis has several tracks unchanged |
| MultiAxisAttention.WeightsKeepTracks | omegafold/modules.py:436 | `squeeze(-4)` leaves weights whose track axis has several tracks unchanged |
| MultiAxisAttention.PlainInputOnSeveralTracks | omegafold/modules.py:395-437 | with `c > 0`, on a module with several tracks, plain inputs broadcast against the track axis and `forward` returns output `(*batch, q_len, out_dim, n_axis)` and weights `(*batch, n_axis, q_len, kv_len, n_head)` |

## Left out

- The numerics of `_attention`: the scaled contractions and the softmax, including its in-place, numerically stable form. The per-row kernel is a parameter, so the driver is proved for any kernel that treats query rows independently. The value of `scale` is carried but never inspected.
- `utils.normalize` and the layers of `Transition.network` are a parameter acting on one slab along dimension 0. On inputs of rank 2 or more nothing in them depends on other slabs.
- Transition.Forward: a rank-1 input is reported as failing. There dimension 0 is also the feature axis, so torch raises unless every piece has exactly `d` elements, and then normalises each piece as a whole, which a network acting on one slab cannot express. The network is also taken to accept every slab: the check of `nn.Linear(d, n * d)` (line 170) that `x.shape[-1] == d`, which raises at line 189 otherwise, is not modelled.
- `Transition.__init__`, `Val2Bins.__init__` and `linspace`: the breaks are taken as given.
- `Node2Edge`, `Val2ContBins`, `GeometricAttention` and `AttentionWEdgeBias` are not part of this model.
- Parameter initialisation (`reset_parameters`), dtype and device handling, and tensor allocation beyond the shapes of the results are not modelled.
- Negative sub-batch sizes are not modelled: sizes are natural numbers.
- Floating point: distances and breaks are reals, so NaN comparisons and rounding are not modelled.
- MultiAxisAttention.AttentionShapes: slice assignment into the preallocated buffers is modelled by requiring the batch axes of key, value and bias to broadcast into the query's batch axes. The writes at lines 135-136 also accept a key, value or bias with extra leading size-1 axes; that case is reported as failing.
- Scaling.Forward: on values, only inputs whose trailing axes equal the parameter shape are modelled. Torch also broadcasts size-1 axes of the input against the parameters; the shape level (`Scaling.ForwardShapes`) covers that case and the error cases.
- Scaling.ForwardShapes: the `on_out_ready` callback is given by what it does to the shape.
- `squeeze` of a rank-0 tensor (which torch accepts for axis 0 and -1) is not modelled: `Squeeze` needs an existing axis.
- The `forward` methods return Python tuples and lists of tensors; the model returns `Option` values and sequences instead, with `None` where the source raises.
