# Transformer decoder masking and attention routing

A Dafny model of the exact, non-numeric logic of OpenNMT-py's Transformer
decoders (`onmt/decoders/transformer.py`): how the self-attention and source
masks are built from the padding of the token ids, when they are built and
how they are broadcast to one row per query, how each layer routes the
attention of its one or two `_forward` passes into the top attention and the
alignment, how the decoders assemble the returned `{"std", "copy", "align"}`
dictionary, and which configurations raise which exception.

Masks are boolean tensors written as nested sequences (`true` = the key is
hidden from the query). Attention values are of an abstract type `M`, the
attention of one head over one batch element, so no floating point appears;
the head average `attns.mean(dim=1)` is an opaque parameter `avg`. The
numeric work of a layer is opaque too: for every layer the caller supplies
what its default (future-masked) pass and its future-aware pass yield.

Files:

- `Outcomes.dfy`: `Option`, the Python exceptions raised, and a `Result`.
- `Tensors.dfy`: shapes, `unsqueeze(1)`, `expand`, broadcast addition,
  `triu_`, `gt(…, 0)` and Python list indexing with negative indices.
- `DecoderMasks.dfy`: `_compute_dec_mask`, the mask branch of both
  `_forward` methods, the target and source padding masks.
- `DecoderLayer.dfy`: the self-attention module choice and dispatch, head
  selection and `TransformerDecoderLayerBase.forward`.
- `Decoder.dfy`: `from_opt`, the layer loop, the attention dictionary and
  the two decoders' `forward`.

## Model

| member | source | states |
|---|---|---|
| DecoderMasks.FutureMask | onmt/decoders/transformer.py:131-136 | the "no peeking" mask is 1 exactly strictly above the diagonal and 0 on and below it, shape 1 x T x T |
| DecoderMasks.ComputeDecMask | onmt/decoders/transformer.py:128-145 | without `future`, entry (b, i, j) is true exactly when target position j is padding or j > i (shape B x T x T); with `future`, the padding mask comes back unchanged (B x 1 x T) |
| DecoderMasks.PastTokensVisible | onmt/decoders/transformer.py:131-142 | a non-padding position is never hidden from itself or from any later query |
| DecoderMasks.RowFullyHiddenIff | onmt/decoders/transformer.py:128-142 | a query's causal row hides every key if and only if every position up to and including the query is padding |
| DecoderMasks.CausalRowsShrink | onmt/decoders/transformer.py:131-142 | every key hidden from query i + 1 is also hidden from query i |
| DecoderMasks.SelfAttnMask | onmt/decoders/transformer.py:253-255 | after unsqueeze and expand the self mask is B x 1 x T x T; with `future` every query row equals the padding row, otherwise each row is the causal row |
| DecoderMasks.ContextLayerMasksOf | onmt/decoders/transformer.py:248-256 | for query length 1 there is no self mask and the source mask is only unsqueezed (B x 1 x 1 x S); above 1 the self mask is built and the source mask has T rows per batch element, each equal to that element's source padding row |
| DecoderMasks.LmLayerMask | onmt/decoders/transformer.py:535-541 | the language-model layer builds a self mask if and only if the query length exceeds 1, hiding padding and, unless `future`, later keys |
| DecoderMasks.FirstFeature | onmt/decoders/transformer.py:443 | `tgt[:, :, 0]` reads the word id of every target token, and raises IndexError exactly when the target has no feature |
| DecoderMasks.TgtPadMask | onmt/decoders/transformer.py:443-454 | the target padding mask (B x 1 x T) is true exactly where the first feature of the token equals the padding index; IndexError exactly when there is no feature |
| DecoderMasks.SrcPadMask | onmt/decoders/transformer.py:450-453 | the source padding mask (B x 1 x S) is the negation of `sequence_mask`: true exactly at positions at or past the source length |
| DecoderMasks.CausalMaskFromTokens | onmt/decoders/transformer.py:443-454 | from the token ids to the mask a layer uses: query i may see key j exactly when token j is not padding and j <= i |
| DecoderMasks.FullContextMaskFromTokens | onmt/decoders/transformer.py:143-145 | in the future-aware pass every query may see exactly the non-padding keys, later ones included |
| DecoderLayer.SelfAttnModuleOf | onmt/decoders/transformer.py:62-75 | the layer owns multi-headed attention exactly for "scaled-dot", average attention exactly for "average", and nothing otherwise |
| DecoderLayer.DispatchSelfAttnAsWritten | onmt/decoders/transformer.py:147-162 | as written, the known types dispatch to their module and every other type raises AttributeError |
| DecoderLayer.DispatchSelfAttn | onmt/decoders/transformer.py:147-162 | corrected dispatch: the known types dispatch to their module and every other type raises ValueError |
| DecoderLayer.DispatchRaisesWrongError | onmt/decoders/transformer.py:159-162 | for the type "relative" the code as written raises AttributeError where the corrected dispatch raises ValueError |
| DecoderLayer.DispatchVersionsAgree | onmt/decoders/transformer.py:147-158 | both dispatch versions accept the same types and agree on every accepted type |
| DecoderLayer.AlignHeadCount | onmt/decoders/transformer.py:111-112 | the alignment averages min(k, heads) heads for a positive `alignment_heads` k and all heads otherwise |
| DecoderLayer.AlignHeads | onmt/decoders/transformer.py:111-112 | the selected heads of every batch element are its leading `AlignHeadCount` heads, in order |
| DecoderLayer.HeadZero | onmt/decoders/transformer.py:104 | the top attention of each batch element is its head 0 |
| DecoderLayer.LayerAlignment | onmt/decoders/transformer.py:106-117 | the alignment of a layer averages, per batch element, the leading `alignment_heads` heads of the future-aware pass under full-context alignment and of the default pass otherwise |
| DecoderLayer.LayerError | onmt/decoders/transformer.py:102-112 | one layer call raises, in this order: for an unsupported self-attention type (the corrected ValueError), IndexError when there is no head 0, TypeError for an alignment on a layer without alignment heads; nothing otherwise |
| DecoderLayer.LayerForward | onmt/decoders/transformer.py:102-118 | a layer raises exactly in the cases `LayerError` lists (an unsupported self-attention type with the corrected ValueError); otherwise it runs one future-masked pass, plus a future-aware pass exactly when alignment and full-context alignment are both on; top attention is head 0 of the first pass; the alignment is present exactly when asked for and averages the leading heads of the future-aware pass under full-context alignment and of the first pass otherwise |
| Decoder.FirstDropout | onmt/decoders/transformer.py:308-311 | a scheduled dropout option yields its first value, a single value yields itself, an empty schedule raises IndexError |
| Decoder.FromOpt | onmt/decoders/transformer.py:298-320 | construction copies layers, heads, copy attention and self-attention type, unwraps both dropouts, keeps the alignment options for the encoder-decoder and drops them for the language model |
| Decoder.FromOptAlignsWithoutTypeError | onmt/decoders/transformer.py:298-320 | an encoder-decoder built from options has both alignment options set, so its forward never raises TypeError, whatever the inputs |
| Decoder.RunLayers | onmt/decoders/transformer.py:459-469 | the layer loop fails exactly when one layer fails, leaves `attn` unbound only with no layers, ends with the last layer's head-0 attention and collects one alignment per layer, in layer order, exactly when alignment is asked for |
| Decoder.RunLayersStep | onmt/decoders/transformer.py:459-469 | with alignment on and no layer raising, running one more layer appends exactly that layer's alignment to those collected by the layers below |
| Decoder.RunLayersAlignments | onmt/decoders/transformer.py:459-469 | with alignment on and no layer raising, the loop succeeds and the l-th collected alignment is the alignment of layer l, for every layer l |
| Decoder.AttnDict | onmt/decoders/transformer.py:473-477 | the dictionary always has "std"; "copy" is present exactly with copy attention and equals "std"; "align" is present exactly when an alignment is given; no other key |
| Decoder.AlignmentOfIndexedLayer | onmt/decoders/transformer.py:477 | `attn_aligns[alignment_layer]` (negative indices included) exists exactly when the layer it names exists, and is that layer's alignment |
| Decoder.AssembleAttns | onmt/decoders/transformer.py:473-477 | after the loop: no layer raises UnboundLocalError, a None alignment layer TypeError, an out-of-range one IndexError; otherwise the dictionary has "std", "copy" and "align" as the options say |
| Decoder.InitCacheError | onmt/decoders/transformer.py:483-505 | the encoder-decoder's `_init_cache` raises AttributeError exactly when there is a layer and its self-attention type is neither "scaled-dot" nor "average" |
| Decoder.LmInitCacheError | onmt/decoders/transformer.py:658-668 | the language model's `_init_cache` raises NotImplementedError exactly when there is a layer with "average" attention, AttributeError exactly when there is a layer of an unsupported type, and nothing exactly with no layer or "scaled-dot" |
| Decoder.DecoderForward | onmt/decoders/transformer.py:431-481 | the encoder-decoder forward raises, in order: the `_init_cache` error at step 0, IndexError for a target with no feature, UnboundLocalError for zero layers, and for an unsupported self-attention type the corrected ValueError off step 0; it succeeds exactly when the target has a feature, heads exist and any alignment layer index is in range; it returns the padding masks it derives from the source lengths and the token ids, and returns "std" as head 0 of the last layer's first pass, "copy" iff copy attention, "align" iff alignment, taken from the named layer |
| Decoder.LmDecoderForward | onmt/decoders/transformer.py:625-656 | the language-model forward raises the `_init_cache` error at step 0 (NotImplementedError with average attention), then IndexError for a target with no feature, then AssertionError for any alignment request, never TypeError, succeeds exactly in the remaining supported cases, and returns "std"/"copy" like the encoder-decoder with no "align" |
| Tensors.ExpandDim2 | onmt/decoders/transformer.py:255 | `expand` repeats an axis of size one to n rows, keeps an axis already of size n, and fails for any other size |
| Tensors.BroadcastAdd3 | onmt/decoders/transformer.py:142 | broadcast addition is defined exactly when each axis pair is equal or has a one, and each output entry sums the operands read at index 0 along their size-one axes |
| Tensors.PyIndex | onmt/decoders/transformer.py:477 | a Python list index succeeds exactly for -len <= i < len and reads from the end for negative i |

## Left out

- DecoderLayer.LayerForward: uses the corrected self-attention dispatch, so for an unsupported self-attention type it raises ValueError where the code as written raises AttributeError (see "## Findings").
- DecoderLayer.LayerError: states the corrected dispatch's ValueError for an unsupported self-attention type where the code as written raises AttributeError (see "## Findings").
- Decoder.RunLayers: fails with the corrected ValueError for an unsupported self-attention type where the code as written raises AttributeError in the first layer (see "## Findings").
- Decoder.DecoderForward: off step 0, raises the corrected ValueError for an unsupported self-attention type where the code as written raises AttributeError; at step 0 it raises the `_init_cache` AttributeError before any layer runs, as written.
- Decoder.LmDecoderForward: off step 0, raises the corrected ValueError for an unsupported self-attention type where the code as written raises AttributeError; at step 0 it raises the `_init_cache` AttributeError before any layer runs, as written.

- Layer normalisation, the feed-forward block, dropout, residual additions and the numeric layer output (`layer_out`, `dec_out`): floating-point tensor arithmetic done by PyTorch.
- The head average `attns.mean(dim=1)`: modelled as the opaque parameter `avg`; only which heads it averages is stated.
- `MultiHeadedAttention`, `AverageAttention`, `PositionwiseFeedForward` and `Embeddings`: their source is not part of this model, so the attention a layer's passes yield is an input.
- `sequence_mask` is not part of this model; `DecoderMasks.SequenceMask` states the meaning the decoder relies on (true exactly below the length) as an assumption.
- Cache handling (`map_state`, the tensors `_init_cache` allocates, `detach_state`, `init_state`, `update_dropout`): state management over opaque tensors. Only the exceptions the two `_init_cache` methods raise are modelled.
- `enc_out = self.embeddings(tgt)` when no encoder output is given and the `assert emb.dim() == 3`: they concern the opaque embeddings only.
- A missing `src_len` keyword (KeyError): the source lengths are a required parameter.
- The `try`/`except AttributeError` around `future_mask.bool()` for PyTorch before 1.2: the model adds the masks as 0/1 integers and compares with zero, which is the older path; the newer bool addition is a logical OR and gives the same entries.
- The query length of `_forward` is a separate parameter; the expansion uses the target length `dec_mask.size(3)`, as the code does. The two are equal whenever the decoders call the layers.
- `onmt/tests/test_models.py`: shape checks of PyTorch-built models.

## Findings

| source | as written | input that shows it | evidently intended | confidence | as-written member | corrected member |
|---|---|---|---|---|---|---|
| onmt/decoders/transformer.py:159-162 | the else-branch formats `type(self.self_attn)` in its message, but for an unsupported `self_attn_type` the constructor (lines 63-75) never assigned `self_attn`, so the attribute lookup raises AttributeError before the ValueError is built | `self_attn_type="relative"` | raise `ValueError("self attention … not supported")` | medium, not executed | DecoderLayer.DispatchSelfAttnAsWritten | DecoderLayer.DispatchSelfAttn |

`DecoderLayer.DispatchRaisesWrongError` exhibits the discrepancy on that input.
The layers and decoders use the corrected dispatch.
