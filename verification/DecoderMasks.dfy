/** The boolean masks of the Transformer decoder. A mask entry `true` means
    "this key position is hidden from this query position". Every mask here is
    built from two padding masks: the target padding mask (batch x 1 x T, true
    where a target token is the padding token) and the source padding mask
    (batch x 1 x S, true past each source sentence's length). */
module DecoderMasks {
  import opened Outcomes
  import opened Tensors

  /** Reference meaning of a causal self-attention mask entry: query i may not
      see key j when j is padding or lies in i's future. */
  predicate CausallyHidden(padRow: seq<bool>, i: nat, j: nat)
    requires j < |padRow|
  {
    padRow[j] || j > i
  }

  /** The "no peeking" mask `ones(T, T).triu_(1).view(1, T, T)`: one for every
      key strictly after the query, zero on and below the diagonal. */
  function FutureMask(tgtLen: nat): (r: Tensor3<nat>)
    ensures Shape3(r, 1, tgtLen, tgtLen)
    ensures forall i, j :: 0 <= i < tgtLen && 0 <= j < tgtLen ==>
      r[0][i][j] == if j > i then 1 else 0
  {
    [Triu(Ones(tgtLen), tgtLen, 1)]
  }

  /** `_compute_dec_mask`: without `future` the padding row of each batch
      element is added (broadcast) to the future mask and compared with zero,
      giving one row per query; with `future` the padding mask is returned as
      it is, a single row shared by all queries. */
  function ComputeDecMask(tgtPad: Tensor3<bool>, batch: nat, tgtLen: nat, future: bool): (r: Tensor3<bool>)
    requires Shape3(tgtPad, batch, 1, tgtLen)
    ensures future ==> r == tgtPad
    ensures !future ==> Shape3(r, batch, tgtLen, tgtLen)
    ensures !future ==> forall b, i, j :: 0 <= b < batch && 0 <= i < tgtLen && 0 <= j < tgtLen ==>
      (r[b][i][j] <==> CausallyHidden(tgtPad[b][0], i, j))
  {
    if !future then
      var sum := BroadcastAdd3(AsUint8(tgtPad, batch, 1, tgtLen), batch, 1, tgtLen,
                               FutureMask(tgtLen), 1, tgtLen, tgtLen);
      GtZero3(sum.value, batch, tgtLen, tgtLen)
    else
      tgtPad
  }

  /** A non-padding target position is never hidden from itself or from a
      later query, so no query row that is itself a real token is empty. */
  lemma PastTokensVisible(tgtPad: Tensor3<bool>, batch: nat, tgtLen: nat, b: nat, i: nat, j: nat)
    requires Shape3(tgtPad, batch, 1, tgtLen)
    requires b < batch && j <= i < tgtLen && !tgtPad[b][0][j]
    ensures !ComputeDecMask(tgtPad, batch, tgtLen, false)[b][i][j]
  {
  }

  /** Query i's causal row hides every key exactly when every position up to
      and including i is padding. */
  lemma RowFullyHiddenIff(tgtPad: Tensor3<bool>, batch: nat, tgtLen: nat, b: nat, i: nat)
    requires Shape3(tgtPad, batch, 1, tgtLen)
    requires b < batch && i < tgtLen
    ensures (forall j :: 0 <= j < tgtLen ==> ComputeDecMask(tgtPad, batch, tgtLen, false)[b][i][j])
        <==> (forall j :: 0 <= j <= i ==> tgtPad[b][0][j])
  {
    var m := ComputeDecMask(tgtPad, batch, tgtLen, false);
    if forall j :: 0 <= j < tgtLen ==> m[b][i][j] {
      forall j | 0 <= j <= i
        ensures tgtPad[b][0][j]
      {
        assert m[b][i][j];
      }
    }
  }

  /** A later query sees at least what an earlier query sees: the keys hidden
      from query i + 1 are among those hidden from query i. */
  lemma CausalRowsShrink(tgtPad: Tensor3<bool>, batch: nat, tgtLen: nat, b: nat, i: nat, j: nat)
    requires Shape3(tgtPad, batch, 1, tgtLen)
    requires b < batch && i + 1 < tgtLen && j < tgtLen
    ensures ComputeDecMask(tgtPad, batch, tgtLen, false)[b][i + 1][j]
        ==> ComputeDecMask(tgtPad, batch, tgtLen, false)[b][i][j]
  {
  }

  /** The self-attention mask handed to the attention module by one `_forward`
      pass: `_compute_dec_mask`, then `unsqueeze(1)` and `expand` to one row
      per query, shape batch x 1 x T x T. Without `future` each row is the
      causal row; with `future` every row is the padding row. */
  function SelfAttnMask(tgtPad: Tensor3<bool>, batch: nat, tgtLen: nat, future: bool): (r: Tensor4<bool>)
    requires Shape3(tgtPad, batch, 1, tgtLen)
    ensures Shape4(r, batch, 1, tgtLen, tgtLen)
    ensures forall b, i, j :: 0 <= b < batch && 0 <= i < tgtLen && 0 <= j < tgtLen ==>
      (r[b][0][i][j] <==> if future then tgtPad[b][0][j] else CausallyHidden(tgtPad[b][0], i, j))
    ensures future ==> forall b, i :: 0 <= b < batch && 0 <= i < tgtLen ==> r[b][0][i] == tgtPad[b][0]
  {
    var m := ComputeDecMask(tgtPad, batch, tgtLen, future);
    var rows := if future then 1 else tgtLen;
    ExpandDim2(Unsqueeze1(m), batch, 1, rows, tgtLen, tgtLen).value
  }

  /** The two masks of one `TransformerDecoderLayer._forward` pass: the
      self-attention mask (None when it is not built) and the source padding
      mask handed to the context attention. */
  datatype ContextLayerMasks = ContextLayerMasks(selfMask: Option<Tensor4<bool>>, srcMask: Tensor4<bool>)

  /** Mask preparation at the top of `TransformerDecoderLayer._forward`. The
      source mask always gains an axis; only when the query length exceeds one
      is the self-attention mask built and the source mask expanded to one row
      per target position. */
  function ContextLayerMasksOf(queryLen: nat, srcPad: Tensor3<bool>, srcLen: nat,
                               tgtPad: Tensor3<bool>, batch: nat, tgtLen: nat, future: bool): (r: ContextLayerMasks)
    requires Shape3(srcPad, batch, 1, srcLen) && Shape3(tgtPad, batch, 1, tgtLen)
    ensures queryLen <= 1 ==> r.selfMask == None
    ensures queryLen <= 1 ==> Shape4(r.srcMask, batch, 1, 1, srcLen)
    ensures queryLen <= 1 ==> forall b :: 0 <= b < batch ==> r.srcMask[b][0][0] == srcPad[b][0]
    ensures queryLen > 1 ==> r.selfMask == Some(SelfAttnMask(tgtPad, batch, tgtLen, future))
    ensures queryLen > 1 ==> Shape4(r.srcMask, batch, 1, tgtLen, srcLen)
    ensures queryLen > 1 ==> forall b, i :: 0 <= b < batch && 0 <= i < tgtLen ==>
      r.srcMask[b][0][i] == srcPad[b][0]
  {
    var src4 := Unsqueeze1(srcPad);
    if queryLen > 1 then
      var expanded := ExpandDim2(src4, batch, 1, 1, srcLen, tgtLen);
      ContextLayerMasks(Some(SelfAttnMask(tgtPad, batch, tgtLen, future)), expanded.value)
    else
      ContextLayerMasks(None, src4)
  }

  /** Mask preparation at the top of `TransformerLMDecoderLayer._forward`: the
      self-attention mask, built only when the query length exceeds one. */
  function LmLayerMask(queryLen: nat, tgtPad: Tensor3<bool>, batch: nat, tgtLen: nat, future: bool): (r: Option<Tensor4<bool>>)
    requires Shape3(tgtPad, batch, 1, tgtLen)
    ensures r.Some? <==> queryLen > 1
    ensures r.Some? ==> Shape4(r.value, batch, 1, tgtLen, tgtLen)
    ensures r.Some? ==> forall b, i, j :: 0 <= b < batch && 0 <= i < tgtLen && 0 <= j < tgtLen ==>
      (r.value[b][0][i][j] <==> tgtPad[b][0][j] || (!future && j > i))
  {
    if queryLen > 1 then Some(SelfAttnMask(tgtPad, batch, tgtLen, future)) else None
  }

  /** `tgt[:, :, 0]`: the word ids, the first feature of every target token.
      A target with no feature axis entry raises IndexError, whatever the
      other sizes. */
  function FirstFeature(tgt: Tensor3<int>, batch: nat, tgtLen: nat, feats: nat): (r: Result<Tensor2<int>>)
    requires Shape3(tgt, batch, tgtLen, feats)
    ensures r.Ok? <==> feats >= 1
    ensures r.Err? ==> r.error == IndexError
    ensures r.Ok? ==> Shape2(r.value, batch, tgtLen)
    ensures r.Ok? ==> forall b, t :: 0 <= b < batch && 0 <= t < tgtLen ==> r.value[b][t] == tgt[b][t][0]
  {
    if feats == 0 then Err(IndexError)
    else Ok(seq(batch, b requires 0 <= b < batch => seq(tgtLen, t requires 0 <= t < tgtLen => tgt[b][t][0])))
  }

  /** The target padding mask `tgt[:, :, 0].eq(pad_idx).unsqueeze(1)`, shape
      batch x 1 x T: true exactly where the word id is the embeddings' padding
      index; IndexError when the target has no feature to read the word from. */
  function TgtPadMask(tgt: Tensor3<int>, batch: nat, tgtLen: nat, feats: nat, padIdx: int): (r: Result<Tensor3<bool>>)
    requires Shape3(tgt, batch, tgtLen, feats)
    ensures r.Ok? <==> feats >= 1
    ensures r.Err? ==> r.error == IndexError
    ensures r.Ok? ==> Shape3(r.value, batch, 1, tgtLen)
    ensures r.Ok? ==> forall b, t :: 0 <= b < batch && 0 <= t < tgtLen ==> (r.value[b][0][t] <==> tgt[b][t][0] == padIdx)
  {
    var words :- FirstFeature(tgt, batch, tgtLen, feats);
    Ok(Unsqueeze1(seq(batch, b requires 0 <= b < batch =>
      seq(tgtLen, t requires 0 <= t < tgtLen => words[b][t] == padIdx))))
  }

  /** `sequence_mask(lengths, max_len)`: true at position j of row b exactly
      when j < lengths[b]. The function itself is not part of this model; this
      is the meaning the decoder relies on. */
  function SequenceMask(lengths: seq<int>, maxLen: nat): (r: Tensor2<bool>)
    ensures Shape2(r, |lengths|, maxLen)
    ensures forall b, j :: 0 <= b < |lengths| && 0 <= j < maxLen ==> (r[b][j] <==> j < lengths[b])
  {
    seq(|lengths|, b requires 0 <= b < |lengths| =>
      seq(maxLen, j requires 0 <= j < maxLen => j < lengths[b]))
  }

  /** The source padding mask `(~sequence_mask(src_len, src_max_len)).unsqueeze(1)`,
      shape batch x 1 x S: true exactly at positions at or past each source
      sentence's length. */
  function SrcPadMask(srcLens: seq<int>, srcMaxLen: nat): (r: Tensor3<bool>)
    ensures Shape3(r, |srcLens|, 1, srcMaxLen)
    ensures forall b, j :: 0 <= b < |srcLens| && 0 <= j < srcMaxLen ==> (r[b][0][j] <==> j >= srcLens[b])
  {
    var valid := SequenceMask(srcLens, srcMaxLen);
    Unsqueeze1(seq(|srcLens|, b requires 0 <= b < |srcLens| =>
      seq(srcMaxLen, j requires 0 <= j < srcMaxLen => !valid[b][j])))
  }

  /** End to end from token ids: in the causal self-attention mask a layer
      builds from the target tokens, query i may see key j exactly when token
      j is not padding and j <= i. */
  lemma CausalMaskFromTokens(tgt: Tensor3<int>, batch: nat, tgtLen: nat, feats: nat, padIdx: int,
                             b: nat, i: nat, j: nat)
    requires Shape3(tgt, batch, tgtLen, feats) && feats >= 1
    requires b < batch && i < tgtLen && j < tgtLen
    ensures !SelfAttnMask(TgtPadMask(tgt, batch, tgtLen, feats, padIdx).value, batch, tgtLen, false)[b][0][i][j]
        <==> tgt[b][j][0] != padIdx && j <= i
  {
  }

  /** End to end from token ids: in the future-aware mask of the alignment
      pass, every query may see every non-padding key, including later ones. */
  lemma FullContextMaskFromTokens(tgt: Tensor3<int>, batch: nat, tgtLen: nat, feats: nat, padIdx: int,
                                  b: nat, i: nat, j: nat)
    requires Shape3(tgt, batch, tgtLen, feats) && feats >= 1
    requires b < batch && i < tgtLen && j < tgtLen
    ensures !SelfAttnMask(TgtPadMask(tgt, batch, tgtLen, feats, padIdx).value, batch, tgtLen, true)[b][0][i][j]
        <==> tgt[b][j][0] != padIdx
  {
  }
}
