/** One decoder layer seen from outside its numerics: which self-attention
    module it owns, which `_forward` passes it runs, and how it routes the
    attention of those passes into the top attention and the alignment.

    Attention values are opaque: `M` stands for the attention of one head over
    one batch element (a query x key matrix of floats), so a pass's attention,
    `attns` of shape (batch, heads, query, key), is a `seq<seq<M>>` indexed by
    batch then head. The head average `attns.mean(dim=1)` is the parameter
    `avg`. */
module DecoderLayer {
  import opened Outcomes
  import opened Tensors

  /** Per-layer options fixed at construction. `alignmentHeads` is None for the
      language-model layers, which are built with `alignment_heads=None`. */
  datatype LayerConfig = LayerConfig(selfAttnType: string, fullContextAlignment: bool, alignmentHeads: Option<int>)

  /** The self-attention module a layer owns; `Unset` when the constructor
      matched neither known type and never assigned `self_attn`. */
  datatype SelfAttnModule = MultiHeaded | Averaged | Unset

  /** Constructor choice of the self-attention module. */
  function SelfAttnModuleOf(selfAttnType: string): (m: SelfAttnModule)
    ensures m == MultiHeaded <==> selfAttnType == "scaled-dot"
    ensures m == Averaged <==> selfAttnType == "average"
  {
    if selfAttnType == "scaled-dot" then MultiHeaded
    else if selfAttnType == "average" then Averaged
    else Unset
  }

  /** `_forward_self_attn` as written: the two known types call their module.
      For any other type the else-branch builds its ValueError message from
      `type(self.self_attn)`; the constructor matched neither known type and
      never assigned `self_attn`, so the attribute lookup raises AttributeError
      first and the ValueError is never raised. */
  function DispatchSelfAttnAsWritten(selfAttnType: string): (r: Result<SelfAttnModule>)
    ensures r.Ok? <==> SelfAttnModuleOf(selfAttnType) != Unset
    ensures r.Ok? ==> r.value == SelfAttnModuleOf(selfAttnType)
    ensures r.Err? ==> r.error == AttributeError
  {
    if selfAttnType == "scaled-dot" then Ok(MultiHeaded)
    else if selfAttnType == "average" then Ok(Averaged)
    else Err(AttributeError)
  }

  /** `_forward_self_attn` with its evident intent: an unsupported type is
      rejected with ValueError. */
  function DispatchSelfAttn(selfAttnType: string): (r: Result<SelfAttnModule>)
    ensures r.Ok? <==> SelfAttnModuleOf(selfAttnType) != Unset
    ensures r.Ok? ==> r.value == SelfAttnModuleOf(selfAttnType)
    ensures r.Err? ==> r.error == ValueError
  {
    if selfAttnType == "scaled-dot" then Ok(MultiHeaded)
    else if selfAttnType == "average" then Ok(Averaged)
    else Err(ValueError)
  }

  /** The code as written never raises the ValueError its own else-branch
      announces: an unsupported type such as "relative" gets AttributeError. */
  lemma DispatchRaisesWrongError()
    ensures DispatchSelfAttnAsWritten("relative") == Err(AttributeError)
    ensures DispatchSelfAttn("relative") == Err(ValueError)
  {
  }

  /** Both versions agree on every supported type and both reject exactly the
      same types; they differ only in the exception class. */
  lemma DispatchVersionsAgree(selfAttnType: string)
    ensures DispatchSelfAttnAsWritten(selfAttnType).Ok? <==> DispatchSelfAttn(selfAttnType).Ok?
    ensures DispatchSelfAttn(selfAttnType).Ok? ==>
      DispatchSelfAttnAsWritten(selfAttnType) == DispatchSelfAttn(selfAttnType)
  {
  }

  /** Number of heads the alignment averages: the first `k` when `k` is
      positive (a slice `[:k]` stops at the head count), otherwise all. */
  function AlignHeadCount(k: int, heads: nat): (n: nat)
    ensures n <= heads
    ensures k > 0 ==> n == if k < heads then k else heads
    ensures k <= 0 ==> n == heads
  {
    if k > 0 then (if k < heads then k else heads) else heads
  }

  /** `attns[:, :k]` when `k > 0`, `attns` otherwise: for each batch element
      the leading heads, in order. */
  function AlignHeads<M>(attns: seq<seq<M>>, heads: nat, k: int): (r: seq<seq<M>>)
    requires Shape2(attns, |attns|, heads)
    ensures |r| == |attns|
    ensures forall b :: 0 <= b < |attns| ==> r[b] == attns[b][..AlignHeadCount(k, heads)]
  {
    if k > 0 then seq(|attns|, b requires 0 <= b < |attns| => attns[b][..AlignHeadCount(k, heads)])
    else attns
  }

  /** `attns[:, 0, :, :]`: head 0 of every batch element. */
  function HeadZero<M>(attns: seq<seq<M>>, heads: nat): (r: seq<M>)
    requires Shape2(attns, |attns|, heads) && heads >= 1
    ensures |r| == |attns|
    ensures forall b :: 0 <= b < |attns| ==> r[b] == attns[b][0]
  {
    seq(|attns|, b requires 0 <= b < |attns| => attns[b][0])
  }

  /** What one layer hands back, apart from its numeric output: the `future`
      flag of every `_forward` pass it ran, in order, the top attention and the
      alignment attention (None when not asked for). */
  datatype LayerOutput<M> = LayerOutput(passes: seq<bool>, topAttn: seq<M>, attnAlign: Option<seq<M>>)

  /** The exception one layer call raises, if any: an unsupported
      self-attention type in the first pass, an attention with no head to take
      head 0 from, and, for an alignment, `None > 0` on a layer built without
      alignment heads. An unsupported type is reported with the corrected
      dispatch's ValueError; the code as written raises AttributeError there
      (`DispatchSelfAttnAsWritten`). */
  function LayerError(cfg: LayerConfig, withAlign: bool, heads: nat): (r: Option<PyError>)
    ensures r.Some? <==> (SelfAttnModuleOf(cfg.selfAttnType) == Unset || heads == 0
                          || (withAlign && cfg.alignmentHeads.None?))
    ensures SelfAttnModuleOf(cfg.selfAttnType) == Unset ==> r == Some(ValueError)
    ensures SelfAttnModuleOf(cfg.selfAttnType) != Unset && heads == 0 ==> r == Some(IndexError)
    ensures SelfAttnModuleOf(cfg.selfAttnType) != Unset && heads > 0 && withAlign && cfg.alignmentHeads.None? ==>
      r == Some(TypeError)
  {
    if DispatchSelfAttn(cfg.selfAttnType).Err? then Some(DispatchSelfAttn(cfg.selfAttnType).error)
    else if heads == 0 then Some(IndexError)
    else if withAlign && cfg.alignmentHeads.None? then Some(TypeError)
    else None
  }

  /** The alignment of a layer whose default pass yields `masked` and whose
      future-aware pass yields `full`: for every batch element, the average of
      the leading heads (`alignment_heads` = k) of the future-aware pass under
      full-context alignment, and of the default pass otherwise. */
  function LayerAlignment<M>(cfg: LayerConfig, k: int, heads: nat,
                             masked: seq<seq<M>>, full: seq<seq<M>>, avg: seq<M> -> M): (r: seq<M>)
    requires Shape2(masked, |masked|, heads) && Shape2(full, |masked|, heads)
    ensures |r| == |masked|
    ensures cfg.fullContextAlignment ==> forall b :: 0 <= b < |masked| ==>
      r[b] == avg(full[b][..AlignHeadCount(k, heads)])
    ensures !cfg.fullContextAlignment ==> forall b :: 0 <= b < |masked| ==>
      r[b] == avg(masked[b][..AlignHeadCount(k, heads)])
  {
    var chosen := AlignHeads(if cfg.fullContextAlignment then full else masked, heads, k);
    seq(|chosen|, b requires 0 <= b < |chosen| => avg(chosen[b]))
  }

  /** `TransformerDecoderLayerBase.forward`. `masked` is the attention of the
      default, future-masked pass; `full` is what the future-aware pass
      (`future=True`) yields. The top attention is head 0 of the default pass;
      the alignment, when asked for, averages the leading heads of the
      future-aware pass if full-context alignment is on and of the default pass
      otherwise. */
  function LayerForward<M>(cfg: LayerConfig, withAlign: bool, heads: nat,
                           masked: seq<seq<M>>, full: seq<seq<M>>, avg: seq<M> -> M): (r: Result<LayerOutput<M>>)
    requires Shape2(masked, |masked|, heads) && Shape2(full, |masked|, heads)
    ensures r.Err? <==> LayerError(cfg, withAlign, heads).Some?
    ensures r.Err? ==> r.error == LayerError(cfg, withAlign, heads).value
    ensures r.Ok? ==> r.value.passes == if withAlign && cfg.fullContextAlignment then [false, true] else [false]
    ensures r.Ok? ==> |r.value.topAttn| == |masked|
    ensures r.Ok? ==> forall b :: 0 <= b < |masked| ==> r.value.topAttn[b] == masked[b][0]
    ensures r.Ok? ==> (r.value.attnAlign.Some? <==> withAlign)
    ensures r.Ok? && withAlign ==> cfg.alignmentHeads.Some?
    ensures r.Ok? && withAlign ==>
      r.value.attnAlign == Some(LayerAlignment(cfg, cfg.alignmentHeads.value, heads, masked, full, avg))
  {
    var _ :- DispatchSelfAttn(cfg.selfAttnType);
    if heads == 0 then Err(IndexError)
    else
      var top := HeadZero(masked, heads);
      if !withAlign then Ok(LayerOutput([false], top, None))
      else
        var passes := if cfg.fullContextAlignment then [false, true] else [false];
        match cfg.alignmentHeads
        case None => Err(TypeError)
        case Some(k) => Ok(LayerOutput(passes, top, Some(LayerAlignment(cfg, k, heads, masked, full, avg))))
  }
}
