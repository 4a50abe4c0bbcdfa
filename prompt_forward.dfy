/** The length bookkeeping of the prompt-conditioned forward pass of `OPTPromptSeqRec`:
    the constructor's guard, the attention masks it concatenates, the per-layer
    key/value caches it hands to the backbone and splices with the postfix prompt,
    and which hidden states the pooling reads.

    Tensors are reduced to what the bookkeeping needs. A key or value tensor of one
    layer is the sequence of positions it covers, each position labelled by where it
    came from (prefix prompt, input token, postfix prompt, last query); a mask is a
    sequence of 0/1 entries of one batch row. The backbone itself is abstract: a pass
    over `inputs` extends every layer of the cache it is given by `inputs` and
    refuses a mask whose length is not the cache length plus the input length. */
module PromptSeqRec {
  import opened Common

  /** Where a cached or emitted position comes from. */
  datatype Slot = Prefix(i: nat) | Token(i: nat) | Postfix(i: nat) | Query(i: nat)

  /** One decoder layer's cached keys and values (`past_key_value[0]`, `[1]`). */
  datatype LayerKV = LayerKV(keys: seq<Slot>, values: seq<Slot>)

  type Cache = seq<LayerKV>

  /** The result of one backbone pass: the positions whose hidden states it emits
      (`last_hidden_state`) and its `past_key_values`. */
  datatype PassOutput = PassOutput(hidden: seq<Slot>, cache: Cache)

  function PrefixSlots(n: nat): seq<Slot> { seq(n, i requires 0 <= i < n => Prefix(i)) }
  function TokenSlots(n: nat): seq<Slot> { seq(n, i requires 0 <= i < n => Token(i)) }
  function PostfixSlots(n: nat): seq<Slot> { seq(n, i requires 0 <= i < n => Postfix(i)) }
  function QuerySlots(n: nat): seq<Slot> { seq(n, i requires 0 <= i < n => Query(i)) }

  /** Every one of `layers` layers holds exactly `slots` as keys and as values. */
  predicate CacheHolds(c: Cache, layers: nat, slots: seq<Slot>) {
    |c| == layers && forall l :: 0 <= l < |c| ==> c[l] == LayerKV(slots, slots)
  }

  /** A deep prompt encoder's output: `len` prompt positions in every layer. */
  function PromptCache(slots: seq<Slot>, layers: nat): (c: Cache)
    ensures CacheHolds(c, layers, slots)
  {
    seq(layers, _ => LayerKV(slots, slots))
  }

  /** Every layer of `c` covers exactly `len` positions, keys and values alike. */
  predicate UniformLength(c: Cache, len: int) {
    forall l :: 0 <= l < |c| ==> |c[l].keys| == len && |c[l].values| == len
  }

  /** The backbone `self.opt`, reduced to its shape rules: the cache it returns is the
      given cache (or nothing) extended by the inputs, layer by layer, and the mask
      must cover exactly the cached and the new positions. */
  function Forward(inputs: seq<Slot>, mask: seq<int>, past: Option<Cache>, layers: nat): (r: Result<PassOutput>)
    ensures r.Success? <==>
      (past.None? && |mask| == |inputs|) ||
      (past.Some? && |past.value| == layers && UniformLength(past.value, |mask| - |inputs|))
    ensures r.Success? ==> r.value.hidden == inputs && |r.value.cache| == layers
    ensures r.Success? ==> UniformLength(r.value.cache, |mask|)
  {
    match past
    case None =>
      if |mask| != |inputs| then Failure(MaskCacheMismatch(|mask|, |inputs|))
      else Success(PassOutput(inputs, seq(layers, _ => LayerKV(inputs, inputs))))
    case Some(c) =>
      if |c| != layers then Failure(CacheLayerMismatch(|c|, layers))
      else if !UniformLength(c, |mask| - |inputs|) then
        Failure(MaskCacheMismatch(|mask|, if |c| > 0 then |c[0].keys| + |inputs| else |inputs|))
      else
        Success(PassOutput(inputs, seq(layers, l requires 0 <= l < layers =>
          LayerKV(c[l].keys + inputs, c[l].values + inputs))))
  }

  /** A pass over a cache extends each layer by the inputs, keeping the old
      positions as a prefix. */
  lemma ForwardExtendsCache(inputs: seq<Slot>, mask: seq<int>, past: Cache, layers: nat, slots: seq<Slot>)
    requires CacheHolds(past, layers, slots) && |mask| == |slots| + |inputs|
    ensures Forward(inputs, mask, Some(past), layers).Success?
    ensures CacheHolds(Forward(inputs, mask, Some(past), layers).value.cache, layers, slots + inputs)
  {
  }

  /** A pass without a cache starts one from the inputs alone. */
  lemma ForwardStartsCache(inputs: seq<Slot>, mask: seq<int>, layers: nat)
    requires |mask| == |inputs|
    ensures Forward(inputs, mask, None, layers).Success?
    ensures CacheHolds(Forward(inputs, mask, None, layers).value.cache, layers, inputs)
  {
  }

  // ---------------------------------------------------------------- the model

  datatype PromptConfig = PromptConfig(preSeqLen: int, postSeqLen: int, lastQueryLen: int, pooling: string)

  /** A constructed `OPTPromptSeqRec`: its configuration and the backbone's layer
      count. Which prompt encoders exist follows from the configuration. */
  datatype PromptModel = PromptModel(cfg: PromptConfig, layers: nat)

  predicate HasPrefixEncoder(m: PromptModel) { m.cfg.preSeqLen > 0 }
  predicate HasPostfixEncoder(m: PromptModel) { m.cfg.postSeqLen > 0 }
  predicate HasLastQueryEncoder(m: PromptModel) { m.cfg.lastQueryLen > 0 }

  /** `OPTPromptSeqRec.__init__`: a postfix prompt needs a last query of at least one
      position; the assertion fires after the postfix encoder is built. */
  function NewPromptSeqRec(cfg: PromptConfig, layers: nat): (r: Result<PromptModel>)
    ensures r.Failure? <==> cfg.postSeqLen > 0 && cfg.lastQueryLen < 1
    ensures r.Failure? ==> r.error.AssertionFailed?
    ensures r.Success? ==> r.value.cfg == cfg && r.value.layers == layers
  {
    if cfg.postSeqLen > 0 && cfg.lastQueryLen < 1 then Failure(AssertionFailed("last_query_len must be at least 1"))
    else Success(PromptModel(cfg, layers))
  }

  /** Every constructed model that has a postfix encoder also has a last-query
      encoder, so the postfix is always followed by a second pass. */
  lemma PostfixImpliesLastQuery(cfg: PromptConfig, layers: nat)
    requires NewPromptSeqRec(cfg, layers).Success?
    ensures HasPostfixEncoder(NewPromptSeqRec(cfg, layers).value) ==>
      HasLastQueryEncoder(NewPromptSeqRec(cfg, layers).value)
  {
  }

  // ---------------------------------------------------------------- splicing

  /** The `zip` loop of `_get_opt_output`: each layer of the past cache is followed by
      the matching layer of the postfix prompt along the length axis; `zip` stops at
      the shorter list. */
  method SplicePostfix(past: Cache, prompt: Cache) returns (spliced: Cache)
    ensures |spliced| == if |past| <= |prompt| then |past| else |prompt|
    ensures forall l :: 0 <= l < |spliced| ==>
      spliced[l] == LayerKV(past[l].keys + prompt[l].keys, past[l].values + prompt[l].values)
  {
    spliced := [];
    var l := 0;
    while l < |past| && l < |prompt|
      invariant 0 <= l <= |past| && l <= |prompt| && |spliced| == l
      invariant forall j :: 0 <= j < l ==>
        spliced[j] == LayerKV(past[j].keys + prompt[j].keys, past[j].values + prompt[j].values)
    {
      var keyStates := past[l].keys + prompt[l].keys;
      var valueStates := past[l].values + prompt[l].values;
      spliced := spliced + [LayerKV(keyStates, valueStates)];
      l := l + 1;
    }
  }

  /** Splicing a prompt of `layers` layers onto a cache of `layers` layers keeps every
      old position as a prefix and appends the prompt's. */
  lemma SpliceExtendsEveryLayer(past: Cache, prompt: Cache, spliced: Cache, layers: nat, before: seq<Slot>, added: seq<Slot>)
    requires CacheHolds(past, layers, before) && CacheHolds(prompt, layers, added)
    requires |spliced| == layers
    requires forall l :: 0 <= l < |spliced| ==>
      spliced[l] == LayerKV(past[l].keys + prompt[l].keys, past[l].values + prompt[l].values)
    ensures CacheHolds(spliced, layers, before + added)
  {
  }

  // ---------------------------------------------------------------- the forward pass

  /** What `_get_opt_output` pools: the mean over the first pass's token states under
      the caller's mask, the last query's state, or both fused. */
  datatype ItemEmbedding =
    | MeanPooled(hidden: seq<Slot>, mask: seq<int>)
    | LastHidden(state: Slot)
    | FusedMeanLast(hidden: seq<Slot>, mask: seq<int>, state: Slot)

  /** The state of `_get_opt_output` when it returns: the mask of the first pass, the
      cache it produced, the final `prompt_attention_mask` and `past_key_values`, the
      cache of the second pass if it ran, and the pooled embedding. */
  datatype PromptPass = PromptPass(
    firstMask: seq<int>, firstCache: Cache,
    promptMask: seq<int>, pastKeyValues: Cache,
    queryCache: Option<Cache>, embedding: ItemEmbedding)

  /** The prompt positions in front of the tokens: the prefix, when there is one. */
  function Lead(pre: int): seq<Slot> {
    if pre > 0 then PrefixSlots(pre) else []
  }

  /** The pooling method is usable: "mean" always, "last" and "mean_last" only when a
      second pass has produced `last_token_embs`; any other name leaves `item_embs`
      unbound. */
  predicate PoolingBound(pooling: string, lastQueryLen: int) {
    pooling == "mean" || ((pooling == "last" || pooling == "mean_last") && lastQueryLen > 0)
  }

  /** `_get_opt_output` for one batch row of `|attentionMask|` tokens, on a backbone
      with at least one decoder layer. */
  method GetOptOutput(model: PromptModel, attentionMask: seq<int>) returns (r: Result<PromptPass>)
    requires model.layers > 0
    ensures var c := model.cfg;
      r.Success? <==> (c.lastQueryLen <= 0 || c.postSeqLen >= 0) && PoolingBound(c.pooling, c.lastQueryLen)
    ensures var c := model.cfg;
      r.Failure? && c.lastQueryLen > 0 && c.postSeqLen + c.lastQueryLen < 0 ==> r.error == NegativeDimension
    ensures var c := model.cfg;
      r.Failure? && c.lastQueryLen > 0 && c.postSeqLen < 0 <= c.postSeqLen + c.lastQueryLen ==>
        r.error.MaskCacheMismatch?
    ensures var c := model.cfg;
      r.Failure? && (c.lastQueryLen <= 0 || c.postSeqLen >= 0) ==> r.error == UnboundName
    ensures var c := model.cfg;
      r.Success? ==> r.value.firstMask == (if c.preSeqLen > 0 then Ones(c.preSeqLen) + attentionMask else attentionMask)
    ensures r.Success? ==>
      CacheHolds(r.value.firstCache, model.layers, Lead(model.cfg.preSeqLen) + TokenSlots(|attentionMask|))
    ensures var c := model.cfg;
      r.Success? ==> (|r.value.firstMask| == (if c.preSeqLen > 0 then c.preSeqLen else 0) + |attentionMask| &&
        UniformLength(r.value.firstCache, |r.value.firstMask|))
    ensures var c := model.cfg;
      r.Success? && c.lastQueryLen <= 0 ==> r.value.promptMask == r.value.firstMask
    ensures var c := model.cfg;
      r.Success? && c.lastQueryLen > 0 ==>
        |r.value.promptMask| == |r.value.firstMask| + c.postSeqLen + c.lastQueryLen
    ensures var c := model.cfg;
      r.Success? && c.lastQueryLen > 0 && c.postSeqLen >= 0 ==>
        r.value.promptMask == r.value.firstMask + Ones(c.postSeqLen + c.lastQueryLen)
    ensures var c := model.cfg;
      r.Success? ==> CacheHolds(r.value.pastKeyValues, model.layers,
        Lead(c.preSeqLen) + TokenSlots(|attentionMask|) +
        (if c.lastQueryLen > 0 && c.postSeqLen > 0 then PostfixSlots(c.postSeqLen) else []))
    ensures var c := model.cfg;
      r.Success? ==> (r.value.queryCache.Some? <==> c.lastQueryLen > 0)
    ensures var c := model.cfg;
      r.Success? && r.value.queryCache.Some? && c.lastQueryLen > 0 && c.postSeqLen >= 0 ==>
        CacheHolds(r.value.queryCache.value, model.layers,
          Lead(c.preSeqLen) + TokenSlots(|attentionMask|) + PostfixSlots(c.postSeqLen) + QuerySlots(c.lastQueryLen)) &&
        UniformLength(r.value.queryCache.value, |r.value.promptMask|)
    ensures var c := model.cfg;
      r.Success? && c.pooling == "mean" ==> r.value.embedding == MeanPooled(TokenSlots(|attentionMask|), attentionMask)
    ensures var c := model.cfg;
      r.Success? && c.pooling == "last" && c.lastQueryLen > 0 ==>
        r.value.embedding == LastHidden(Query(c.lastQueryLen - 1))
    ensures var c := model.cfg;
      r.Success? && c.pooling == "mean_last" && c.lastQueryLen > 0 ==>
        r.value.embedding == FusedMeanLast(TokenSlots(|attentionMask|), attentionMask, Query(c.lastQueryLen - 1))
  {
    var c := model.cfg;
    var layers := model.layers;
    var inputIds := TokenSlots(|attentionMask|);
    var promptMask: seq<int>;
    var output: PassOutput;
    if c.preSeqLen > 0 {
      var prefix := PromptCache(PrefixSlots(c.preSeqLen), layers);
      promptMask := Ones(c.preSeqLen) + attentionMask;
      ForwardExtendsCache(inputIds, promptMask, prefix, layers, PrefixSlots(c.preSeqLen));
      output := Forward(inputIds, promptMask, Some(prefix), layers).value;
    } else {
      promptMask := attentionMask;
      ForwardStartsCache(inputIds, promptMask, layers);
      output := Forward(inputIds, promptMask, None, layers).value;
    }
    var firstMask := promptMask;
    var firstCache := output.cache;
    var pastKeyValues := output.cache;
    var queryCache: Option<Cache> := None;
    var lastState: Option<Slot> := None;
    if c.lastQueryLen > 0 {
      if c.postSeqLen > 0 {
        var promptKeyValues := PromptCache(PostfixSlots(c.postSeqLen), layers);
        pastKeyValues := SplicePostfix(pastKeyValues, promptKeyValues);
        SpliceExtendsEveryLayer(output.cache, promptKeyValues, pastKeyValues, layers,
          Lead(c.preSeqLen) + inputIds, PostfixSlots(c.postSeqLen));
      }
      if c.postSeqLen + c.lastQueryLen < 0 {
        return Failure(NegativeDimension);
      }
      promptMask := promptMask + Ones(c.postSeqLen + c.lastQueryLen);
      var lastQueryEmbs := QuerySlots(c.lastQueryLen);
      assert |pastKeyValues[0].keys| == |firstMask| + (if c.postSeqLen > 0 then c.postSeqLen else 0);
      var lastTokenEmbs :- Forward(lastQueryEmbs, promptMask, Some(pastKeyValues), layers);
      queryCache := Some(lastTokenEmbs.cache);
      lastState := Some(lastTokenEmbs.hidden[|lastTokenEmbs.hidden| - 1]);
    }
    var itemEmbs: ItemEmbedding;
    if c.pooling == "mean" {
      itemEmbs := MeanPooled(output.hidden, attentionMask);
    } else if c.pooling == "last" {
      if lastState.None? {
        return Failure(UnboundName);
      }
      itemEmbs := LastHidden(lastState.value);
    } else if c.pooling == "mean_last" {
      if lastState.None? {
        return Failure(UnboundName);
      }
      itemEmbs := FusedMeanLast(output.hidden, attentionMask, lastState.value);
    } else {
      return Failure(UnboundName);
    }
    return Success(PromptPass(firstMask, firstCache, promptMask, pastKeyValues, queryCache, itemEmbs));
  }
}
