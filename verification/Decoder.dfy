/** The two Transformer decoders, `TransformerDecoder` (encoder-decoder) and
    `TransformerLMDecoder` (decoder only), seen from outside their numerics:
    construction from options, the padding masks they derive from the token
    ids, the order in which they raise, and the attention dictionary they
    return. The layers' numeric work is opaque: for every layer the caller
    supplies the attention its default pass and its future-aware pass yield
    (`PassAttns`). */
module Decoder {
  import opened Outcomes
  import opened Tensors
  import opened DecoderMasks
  import opened DecoderLayer

  /** A dropout option: a single value, or a list of values scheduled over
      training steps. */
  datatype DropoutOpt = Scalar(p: real) | Scheduled(ps: seq<real>)

  /** `opt.dropout[0] if type(opt.dropout) is list else opt.dropout`: the first
      scheduled value, or the single value; an empty list raises IndexError. */
  function FirstDropout(d: DropoutOpt): (r: Result<real>)
    ensures d.Scalar? ==> r == Ok(d.p)
    ensures d.Scheduled? ==> (r.Ok? <==> |d.ps| > 0)
    ensures d.Scheduled? && r.Ok? ==> r.value == d.ps[0]
    ensures r.Err? ==> r.error == IndexError
  {
    match d
    case Scalar(p) => Ok(p)
    case Scheduled(ps) => if |ps| > 0 then Ok(ps[0]) else Err(IndexError)
  }

  /** The options `from_opt` reads. */
  datatype Opts = Opts(
    decLayers: nat,
    heads: nat,
    copyAttn: bool,
    selfAttnType: string,
    dropout: DropoutOpt,
    attentionDropout: DropoutOpt,
    fullContextAlignment: bool,
    alignmentLayer: int,
    alignmentHeads: int)

  datatype DecoderKind = EncoderDecoder | LanguageModel

  /** A constructed decoder, every layer sharing one `LayerConfig`.
      `alignmentLayer` is None for the language model. */
  datatype DecoderConfig = DecoderConfig(
    numLayers: nat,
    heads: nat,
    copyAttn: bool,
    layer: LayerConfig,
    dropout: real,
    attentionDropout: real,
    alignmentLayer: Option<int>)

  /** `from_opt` followed by the class's constructor. The language model's
      constructor accepts the alignment options and discards them: its layers
      get no full-context alignment and no alignment heads. */
  function FromOpt(kind: DecoderKind, opt: Opts): (r: Result<DecoderConfig>)
    ensures r.Ok? <==> FirstDropout(opt.dropout).Ok? && FirstDropout(opt.attentionDropout).Ok?
    ensures r.Err? ==> r.error == IndexError
    ensures r.Ok? ==> r.value.dropout == FirstDropout(opt.dropout).value
    ensures r.Ok? ==> r.value.attentionDropout == FirstDropout(opt.attentionDropout).value
    ensures r.Ok? ==> r.value.numLayers == opt.decLayers && r.value.heads == opt.heads
    ensures r.Ok? ==> r.value.copyAttn == opt.copyAttn && r.value.layer.selfAttnType == opt.selfAttnType
    ensures r.Ok? && kind == EncoderDecoder ==>
      r.value.layer.fullContextAlignment == opt.fullContextAlignment
      && r.value.layer.alignmentHeads == Some(opt.alignmentHeads)
      && r.value.alignmentLayer == Some(opt.alignmentLayer)
    ensures r.Ok? && kind == LanguageModel ==>
      !r.value.layer.fullContextAlignment && r.value.layer.alignmentHeads == None
      && r.value.alignmentLayer == None
  {
    var dropout :- FirstDropout(opt.dropout);
    var attentionDropout :- FirstDropout(opt.attentionDropout);
    var layer := match kind
      case EncoderDecoder => LayerConfig(opt.selfAttnType, opt.fullContextAlignment, Some(opt.alignmentHeads))
      case LanguageModel => LayerConfig(opt.selfAttnType, false, None);
    var alignmentLayer := match kind
      case EncoderDecoder => Some(opt.alignmentLayer)
      case LanguageModel => None;
    Ok(DecoderConfig(opt.decLayers, opt.heads, opt.copyAttn, layer, dropout, attentionDropout, alignmentLayer))
  }

  /** The attention one layer's two possible passes yield, batch x heads. */
  datatype PassAttns<M> = PassAttns(masked: seq<seq<M>>, full: seq<seq<M>>)

  predicate PassesShaped<M>(passes: seq<PassAttns<M>>, batch: nat, heads: nat) {
    forall l :: 0 <= l < |passes| ==> Shape2(passes[l].masked, batch, heads) && Shape2(passes[l].full, batch, heads)
  }

  /** The alignment of the layer whose passes yield `p`. */
  function AlignmentOf<M>(layer: LayerConfig, heads: nat, p: PassAttns<M>, avg: seq<M> -> M): seq<M>
    requires Shape2(p.masked, |p.masked|, heads) && Shape2(p.full, |p.masked|, heads)
    requires layer.alignmentHeads.Some?
  {
    LayerAlignment(layer, layer.alignmentHeads.value, heads, p.masked, p.full, avg)
  }

  /** The state of the decoder's layer loop: the last layer's top attention
      (`attn`, unbound before the first layer) and the alignments collected. */
  datatype LayerStack<M> = LayerStack(lastTop: Option<seq<M>>, aligns: seq<seq<M>>)

  /** The `for layer in self.transformer_layers` loop, over the layers whose
      pass attentions are `passes`: the first failing layer ends it; otherwise
      `attn` is the last layer's top attention and every non-None alignment is
      appended in layer order. */
  function RunLayers<M>(layer: LayerConfig, withAlign: bool, heads: nat, batch: nat,
                        passes: seq<PassAttns<M>>, avg: seq<M> -> M): (r: Result<LayerStack<M>>)
    requires PassesShaped(passes, batch, heads)
    decreases |passes|
    ensures |passes| == 0 ==> r == Ok(LayerStack(None, []))
    ensures |passes| > 0 ==> (r.Err? <==> LayerError(layer, withAlign, heads).Some?)
    ensures r.Err? ==> r.error == LayerError(layer, withAlign, heads).value
    ensures r.Ok? && |passes| > 0 ==> r.value.lastTop.Some? && |r.value.lastTop.value| == batch
    ensures r.Ok? && |passes| > 0 ==> forall b :: 0 <= b < batch ==>
      r.value.lastTop.value[b] == passes[|passes| - 1].masked[b][0]
    ensures r.Ok? ==> |r.value.aligns| == if withAlign then |passes| else 0
    ensures r.Ok? && withAlign && |passes| > 0 ==> layer.alignmentHeads.Some?
  {
    if |passes| == 0 then Ok(LayerStack(None, []))
    else
      var earlier, last := passes[..|passes| - 1], passes[|passes| - 1];
      var below :- RunLayers(layer, withAlign, heads, batch, earlier, avg);
      var out :- LayerForward(layer, withAlign, heads, last.masked, last.full, avg);
      var aligns := if out.attnAlign.Some? then below.aligns + [out.attnAlign.value] else below.aligns;
      Ok(LayerStack(Some(out.topAttn), aligns))
  }

  /** One more layer with alignment on appends that layer's alignment. */
  lemma RunLayersStep<M>(layer: LayerConfig, heads: nat, batch: nat, passes: seq<PassAttns<M>>, avg: seq<M> -> M)
    requires PassesShaped(passes, batch, heads) && |passes| > 0
    requires LayerError(layer, true, heads).None?
    ensures RunLayers(layer, true, heads, batch, passes, avg).Ok?
    ensures PassesShaped(passes[..|passes| - 1], batch, heads)
    ensures RunLayers(layer, true, heads, batch, passes[..|passes| - 1], avg).Ok?
    ensures RunLayers(layer, true, heads, batch, passes, avg).value.aligns
         == RunLayers(layer, true, heads, batch, passes[..|passes| - 1], avg).value.aligns
            + [AlignmentOf(layer, heads, passes[|passes| - 1], avg)]
  {
  }

  /** With alignment on, the l-th collected alignment is the alignment of
      layer l. */
  lemma {:induction false} RunLayersAlignments<M>(layer: LayerConfig, heads: nat, batch: nat,
                                                 passes: seq<PassAttns<M>>, avg: seq<M> -> M, l: nat)
    requires PassesShaped(passes, batch, heads) && l < |passes|
    requires LayerError(layer, true, heads).None?
    ensures RunLayers(layer, true, heads, batch, passes, avg).Ok?
    ensures RunLayers(layer, true, heads, batch, passes, avg).value.aligns[l] == AlignmentOf(layer, heads, passes[l], avg)
    decreases |passes|
  {
    RunLayersStep(layer, heads, batch, passes, avg);
    var earlier := passes[..|passes| - 1];
    var below := RunLayers(layer, true, heads, batch, earlier, avg).value.aligns;
    var aligns := RunLayers(layer, true, heads, batch, passes, avg).value.aligns;
    if l < |earlier| {
      RunLayersAlignments(layer, heads, batch, earlier, avg, l);
      assert earlier[l] == passes[l];
      assert aligns[l] == below[l];
    } else {
      assert aligns[l] == AlignmentOf(layer, heads, passes[|passes| - 1], avg);
    }
  }

  /** The attention dictionary both decoders return: "std" always, "copy" (the
      same attention) with copy attention, "align" when an alignment is given. */
  function AttnDict<M>(std: seq<M>, copyAttn: bool, align: Option<seq<M>>): (d: map<string, seq<M>>)
    ensures "std" in d && d["std"] == std
    ensures "copy" in d <==> copyAttn
    ensures "copy" in d ==> d["copy"] == std
    ensures "align" in d <==> align.Some?
    ensures "align" in d ==> d["align"] == align.value
    ensures d.Keys <= {"std", "copy", "align"}
  {
    var withStd := map["std" := std];
    var withCopy := if copyAttn then withStd["copy" := std] else withStd;
    if align.Some? then withCopy["align" := align.value] else withCopy
  }

  /** What a decoder forward hands back apart from its numeric output: the
      padding masks it derives from the source lengths and the target token
      ids (no source mask for the language model),
      and the attention dictionary. */
  datatype DecoderOutput<M> = DecoderOutput(srcPadMask: Option<Tensor3<bool>>, tgtPadMask: Tensor3<bool>,
                                            attns: map<string, seq<M>>)

  /** The exception `TransformerDecoder._init_cache` raises: checking the type
      of a `self_attn` that was never assigned. */
  function InitCacheError(cfg: DecoderConfig): (r: Option<PyError>)
    ensures r.Some? <==> cfg.numLayers > 0 && cfg.layer.selfAttnType != "scaled-dot" && cfg.layer.selfAttnType != "average"
    ensures r.Some? ==> r.value == AttributeError
  {
    if cfg.numLayers > 0 && SelfAttnModuleOf(cfg.layer.selfAttnType) == Unset then Some(AttributeError) else None
  }

  /** The exception `TransformerLMDecoder._init_cache` raises: the average
      attention has no language-model cache, and an unassigned `self_attn`
      cannot be inspected. */
  function LmInitCacheError(cfg: DecoderConfig): (r: Option<PyError>)
    ensures r == Some(NotImplementedError) <==> cfg.numLayers > 0 && cfg.layer.selfAttnType == "average"
    ensures r == Some(AttributeError)
        <==> cfg.numLayers > 0 && cfg.layer.selfAttnType != "scaled-dot" && cfg.layer.selfAttnType != "average"
    ensures r.None? <==> cfg.numLayers == 0 || cfg.layer.selfAttnType == "scaled-dot"
  {
    if cfg.numLayers == 0 then None
    else match SelfAttnModuleOf(cfg.layer.selfAttnType)
      case Averaged => Some(NotImplementedError)
      case Unset => Some(AttributeError)
      case MultiHeaded => None
  }

  /** Conditions on the inputs a forward call is given: the target is batch x
      T x feats (the word id is feature 0), and there is one pass attention per
      layer, batch x heads. */
  predicate ForwardInputs<M>(cfg: DecoderConfig, tgt: Tensor3<int>, batch: nat, tgtLen: nat, feats: nat,
                             passes: seq<PassAttns<M>>)
  {
    Shape3(tgt, batch, tgtLen, feats)
    && |passes| == cfg.numLayers && PassesShaped(passes, batch, cfg.heads)
  }

  /** Python indexing resolves `alignment_layer` identically in the list of
      collected alignments and in the list of layers, so the alignment it picks
      is the one of the layer it names. */
  lemma {:induction false} AlignmentOfIndexedLayer<M>(layer: LayerConfig, heads: nat, batch: nat,
                                                      passes: seq<PassAttns<M>>, avg: seq<M> -> M, index: int)
    requires PassesShaped(passes, batch, heads)
    requires LayerError(layer, true, heads).None?
    ensures RunLayers(layer, true, heads, batch, passes, avg).Ok?
    ensures var aligns := RunLayers(layer, true, heads, batch, passes, avg).value.aligns;
      && (PyIndex(aligns, index).Some? <==> PyIndex(passes, index).Some?)
      && (PyIndex(aligns, index).Some? ==>
            PyIndex(aligns, index).value == AlignmentOf(layer, heads, PyIndex(passes, index).value, avg))
  {
    var aligns := RunLayers(layer, true, heads, batch, passes, avg).value.aligns;
    if PyIndex(aligns, index).Some? {
      var k := if index < 0 then |passes| + index else index;
      RunLayersAlignments(layer, heads, batch, passes, avg, k);
    }
  }

  /** The tail both forwards share once the layer loop is done: `{"std": attn}`
      (with `attn` unbound when no layer ran), "copy" when copy attention is
      on, and for an alignment the collected alignment at `alignment_layer`,
      a Python list index (None is not a valid index). */
  function AssembleAttns<M>(stack: LayerStack<M>, copyAttn: bool, withAlign: bool,
                            alignmentLayer: Option<int>): (r: Result<map<string, seq<M>>>)
    ensures stack.lastTop.None? ==> r == Err(UnboundLocalError)
    ensures stack.lastTop.Some? && withAlign && alignmentLayer.None? ==> r == Err(TypeError)
    ensures (stack.lastTop.Some? && withAlign && alignmentLayer.Some?
             && PyIndex(stack.aligns, alignmentLayer.value).None?) ==> r == Err(IndexError)
    ensures r.Ok? <==> (stack.lastTop.Some?
      && (withAlign ==> alignmentLayer.Some? && PyIndex(stack.aligns, alignmentLayer.value).Some?))
    ensures r.Ok? ==> "std" in r.value && r.value["std"] == stack.lastTop.value
    ensures r.Ok? ==> ("copy" in r.value <==> copyAttn)
    ensures r.Ok? && copyAttn ==> r.value["copy"] == r.value["std"]
    ensures r.Ok? ==> ("align" in r.value <==> withAlign)
    ensures r.Ok? && withAlign ==> r.value["align"] == PyIndex(stack.aligns, alignmentLayer.value).value
  {
    if stack.lastTop.None? then Err(UnboundLocalError)
    else if !withAlign then Ok(AttnDict(stack.lastTop.value, copyAttn, None))
    else
      match alignmentLayer
      case None => Err(TypeError)
      case Some(l) =>
        match PyIndex(stack.aligns, l)
        case None => Err(IndexError)
        case Some(align) => Ok(AttnDict(stack.lastTop.value, copyAttn, Some(align)))
  }

  /** `TransformerDecoder.forward`. `step` is None while training and the
      decoding step otherwise; step 0 initialises the layer caches. */
  function DecoderForward<M>(cfg: DecoderConfig, tgt: Tensor3<int>, batch: nat, tgtLen: nat, feats: nat,
                             padIdx: int, srcLens: seq<int>, srcMaxLen: nat, step: Option<int>,
                             withAlign: bool, passes: seq<PassAttns<M>>, avg: seq<M> -> M): (r: Result<DecoderOutput<M>>)
    requires ForwardInputs(cfg, tgt, batch, tgtLen, feats, passes)
    ensures step == Some(0) && InitCacheError(cfg).Some? ==> r == Err(AttributeError)
    ensures feats == 0 && (step != Some(0) || InitCacheError(cfg).None?) ==> r == Err(IndexError)
    ensures feats >= 1 && cfg.numLayers == 0 ==> r == Err(UnboundLocalError)
    ensures feats >= 1 && cfg.numLayers > 0 && SelfAttnModuleOf(cfg.layer.selfAttnType) == Unset ==>
      r == Err(if step == Some(0) then AttributeError else ValueError)
    ensures cfg.numLayers > 0 && SelfAttnModuleOf(cfg.layer.selfAttnType) != Unset ==>
      (r.Ok? <==> feats >= 1 && cfg.heads > 0 && (withAlign ==>
         cfg.layer.alignmentHeads.Some? && cfg.alignmentLayer.Some?
         && -(cfg.numLayers as int) <= cfg.alignmentLayer.value < cfg.numLayers))
    ensures feats >= 1 && cfg.numLayers > 0 && SelfAttnModuleOf(cfg.layer.selfAttnType) != Unset && cfg.heads == 0 ==>
      r == Err(IndexError)
    ensures (feats >= 1 && cfg.numLayers > 0 && SelfAttnModuleOf(cfg.layer.selfAttnType) != Unset && cfg.heads > 0
             && withAlign && (cfg.layer.alignmentHeads.None? || cfg.alignmentLayer.None?)) ==>
      r == Err(TypeError)
    ensures (feats >= 1 && cfg.numLayers > 0 && SelfAttnModuleOf(cfg.layer.selfAttnType) != Unset && cfg.heads > 0
             && withAlign && cfg.layer.alignmentHeads.Some? && cfg.alignmentLayer.Some?
             && PyIndex(passes, cfg.alignmentLayer.value).None?) ==>
      r == Err(IndexError)
    ensures r.Ok? ==> r.value.srcPadMask.Some? && Shape3(r.value.srcPadMask.value, |srcLens|, 1, srcMaxLen)
    ensures r.Ok? ==> forall b, j :: 0 <= b < |srcLens| && 0 <= j < srcMaxLen ==>
      (r.value.srcPadMask.value[b][0][j] <==> j >= srcLens[b])
    ensures r.Ok? ==> Shape3(r.value.tgtPadMask, batch, 1, tgtLen)
    ensures r.Ok? ==> forall b, t :: 0 <= b < batch && 0 <= t < tgtLen ==>
      (r.value.tgtPadMask[b][0][t] <==> tgt[b][t][0] == padIdx)
    ensures r.Ok? ==> "std" in r.value.attns && |r.value.attns["std"]| == batch
    ensures r.Ok? ==> forall b :: 0 <= b < batch ==> r.value.attns["std"][b] == passes[|passes| - 1].masked[b][0]
    ensures r.Ok? ==> ("copy" in r.value.attns <==> cfg.copyAttn)
    ensures r.Ok? && cfg.copyAttn ==> r.value.attns["copy"] == r.value.attns["std"]
    ensures r.Ok? ==> ("align" in r.value.attns <==> withAlign)
    ensures r.Ok? && withAlign ==> cfg.layer.alignmentHeads.Some? && cfg.alignmentLayer.Some?
    ensures r.Ok? && withAlign && cfg.layer.alignmentHeads.Some? && cfg.alignmentLayer.Some? ==>
      PyIndex(passes, cfg.alignmentLayer.value).Some?
    ensures (r.Ok? && withAlign && cfg.layer.alignmentHeads.Some? && cfg.alignmentLayer.Some?
             && PyIndex(passes, cfg.alignmentLayer.value).Some?) ==>
      r.value.attns["align"] == AlignmentOf(cfg.layer, cfg.heads, PyIndex(passes, cfg.alignmentLayer.value).value, avg)
  {
    var cacheError := if step == Some(0) then InitCacheError(cfg) else None;
    if cacheError.Some? then Err(cacheError.value)
    else
      var tgtPad :- TgtPadMask(tgt, batch, tgtLen, feats, padIdx);
      var srcPad := SrcPadMask(srcLens, srcMaxLen);
      var stack :- RunLayers(cfg.layer, withAlign, cfg.heads, batch, passes, avg);
      var attns :- AssembleAttns(stack, cfg.copyAttn, withAlign, cfg.alignmentLayer);
      if withAlign && cfg.layer.alignmentHeads.Some? && cfg.alignmentLayer.Some? then
        AlignmentOfIndexedLayer(cfg.layer, cfg.heads, batch, passes, avg, cfg.alignmentLayer.value);
        Ok(DecoderOutput(Some(srcPad), tgtPad, attns))
      else
        Ok(DecoderOutput(Some(srcPad), tgtPad, attns))
  }

  /** `TransformerLMDecoder.forward`: like the encoder-decoder forward without a
      source, except that step 0 raises for the average attention and an
      alignment request fails its assertion before any layer runs. */
  function LmDecoderForward<M>(cfg: DecoderConfig, tgt: Tensor3<int>, batch: nat, tgtLen: nat, feats: nat,
                               padIdx: int, step: Option<int>, withAlign: bool,
                               passes: seq<PassAttns<M>>, avg: seq<M> -> M): (r: Result<DecoderOutput<M>>)
    requires ForwardInputs(cfg, tgt, batch, tgtLen, feats, passes)
    ensures step == Some(0) && LmInitCacheError(cfg).Some? ==> r == Err(LmInitCacheError(cfg).value)
    ensures feats == 0 && (step != Some(0) || LmInitCacheError(cfg).None?) ==> r == Err(IndexError)
    ensures feats >= 1 && (step != Some(0) || LmInitCacheError(cfg).None?) && withAlign ==> r == Err(AssertionError)
    ensures (feats >= 1 && (step != Some(0) || LmInitCacheError(cfg).None?) && !withAlign
             && cfg.numLayers == 0) ==> r == Err(UnboundLocalError)
    ensures (feats >= 1 && step != Some(0) && !withAlign
             && cfg.numLayers > 0 && SelfAttnModuleOf(cfg.layer.selfAttnType) == Unset) ==> r == Err(ValueError)
    ensures (feats >= 1 && (step != Some(0) || LmInitCacheError(cfg).None?) && !withAlign
             && cfg.numLayers > 0 && SelfAttnModuleOf(cfg.layer.selfAttnType) != Unset && cfg.heads == 0) ==>
      r == Err(IndexError)
    ensures r.Err? ==> r.error != TypeError
    ensures r.Ok? <==> ((step != Some(0) || LmInitCacheError(cfg).None?) && feats >= 1 && !withAlign
      && cfg.numLayers > 0 && SelfAttnModuleOf(cfg.layer.selfAttnType) != Unset && cfg.heads > 0)
    ensures r.Ok? ==> r.value.srcPadMask == None
    ensures r.Ok? ==> Shape3(r.value.tgtPadMask, batch, 1, tgtLen)
    ensures r.Ok? ==> forall b, t :: 0 <= b < batch && 0 <= t < tgtLen ==>
      (r.value.tgtPadMask[b][0][t] <==> tgt[b][t][0] == padIdx)
    ensures r.Ok? ==> "std" in r.value.attns && |r.value.attns["std"]| == batch
    ensures r.Ok? ==> forall b :: 0 <= b < batch ==> r.value.attns["std"][b] == passes[|passes| - 1].masked[b][0]
    ensures r.Ok? ==> ("copy" in r.value.attns <==> cfg.copyAttn)
    ensures r.Ok? && cfg.copyAttn ==> r.value.attns["copy"] == r.value.attns["std"]
    ensures r.Ok? ==> "align" !in r.value.attns
  {
    var cacheError := if step == Some(0) then LmInitCacheError(cfg) else None;
    if cacheError.Some? then Err(cacheError.value)
    else
      var tgtPad :- TgtPadMask(tgt, batch, tgtLen, feats, padIdx);
      if withAlign then Err(AssertionError)
      else
        var stack :- RunLayers(cfg.layer, false, cfg.heads, batch, passes, avg);
        var attns :- AssembleAttns(stack, cfg.copyAttn, false, None);
        Ok(DecoderOutput(None, tgtPad, attns))
  }

  /** A decoder built by `from_opt` for the encoder-decoder has both alignment
      options set, so its forward never fails on a None alignment option: it
      never raises TypeError. */
  lemma FromOptAlignsWithoutTypeError<M>(opt: Opts, tgt: Tensor3<int>, batch: nat, tgtLen: nat, feats: nat,
                                         padIdx: int, srcLens: seq<int>, srcMaxLen: nat, step: Option<int>,
                                         withAlign: bool, passes: seq<PassAttns<M>>, avg: seq<M> -> M)
    requires FromOpt(EncoderDecoder, opt).Ok?
    requires ForwardInputs(FromOpt(EncoderDecoder, opt).value, tgt, batch, tgtLen, feats, passes)
    ensures var r := DecoderForward(FromOpt(EncoderDecoder, opt).value, tgt, batch, tgtLen, feats, padIdx,
                                    srcLens, srcMaxLen, step, withAlign, passes, avg);
      r.Err? ==> r.error != TypeError
  {
  }
}
