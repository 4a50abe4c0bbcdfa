/** The trainability and optimizer-group rules of the OPT-based sequential
    recommender: which backbone parameters `_freeze_plm_layers` leaves trainable,
    the per-layer learning rates and weight decays `_set_opt_lr` assigns, the
    groups `configure_optimizers` hands to AdamW, and the last-position rule of
    `_val_test_step`.

    A parameter is its dotted name plus its `requires_grad` flag. The backbone's
    decoder layer `k` owns exactly the parameters whose names start with
    `decoder.layers.<k>.`, which is how torch names the parameters of
    `decoder.layers[k]`. */
module SeqRecOpt {
  import opened Common

  /** A named parameter and its `requires_grad` flag. */
  datatype Param = Param(name: string, trainable: bool)

  /** The name prefix torch gives every parameter of decoder layer `k`. */
  function LayerPrefix(k: nat): string {
    "decoder.layers." + NatToString(k) + "."
  }

  predicate InLayer(name: string, k: nat) {
    StartsWith(name, LayerPrefix(k))
  }

  /** The parameter lies in `decoder.layers[-n:]` of a stack of `layers` layers. */
  predicate InLastLayers(name: string, n: int, layers: nat) {
    exists k: nat :: layers - n <= k < layers && InLayer(name, k)
  }

  /** The trainable flag `_freeze_plm_layers(n)` leaves on a parameter. */
  predicate UnfrozenBy(n: int, layers: nat, name: string) {
    n == -1 || (n > 0 && InLastLayers(name, n, layers))
  }

  /** The backbone (`self.opt`): its parameters in `named_parameters` order and its
      layer count. Freezing flips flags in place. */
  class Backbone {
    var params: seq<Param>
    const numHiddenLayers: nat

    constructor (params: seq<Param>, numHiddenLayers: nat)
      ensures this.params == params && this.numHiddenLayers == numHiddenLayers
    {
      this.params := params;
      this.numHiddenLayers := numHiddenLayers;
    }

    /** `_freeze_plm_layers`: refuse an unfreeze count outside [-1, layers]; otherwise
        set every flag (all on for -1, all off else) and, for a positive count,
        turn the last layers' parameters back on. Names are never touched. */
    method FreezeLayers(lastNUnfreeze: int) returns (res: Outcome)
      modifies this
      ensures res.Fail? <==> lastNUnfreeze < -1 || lastNUnfreeze > numHiddenLayers
      ensures res.Fail? ==> res == Fail(UnsupportedUnfreeze(lastNUnfreeze)) && params == old(params)
      ensures |params| == |old(params)|
      ensures forall i :: 0 <= i < |params| ==> params[i].name == old(params)[i].name
      ensures res.Pass? ==> forall i :: 0 <= i < |params| ==>
        params[i].trainable == UnfrozenBy(lastNUnfreeze, numHiddenLayers, params[i].name)
      ensures res.Pass? && lastNUnfreeze == -1 ==> forall i :: 0 <= i < |params| ==> params[i].trainable
      ensures res.Pass? && lastNUnfreeze == 0 ==> forall i :: 0 <= i < |params| ==> !params[i].trainable
    {
      if lastNUnfreeze < -1 || lastNUnfreeze > numHiddenLayers {
        return Fail(UnsupportedUnfreeze(lastNUnfreeze));
      }
      var all := lastNUnfreeze == -1;
      var i := 0;
      while i < |params|
        invariant 0 <= i <= |params| == |old(params)|
        invariant forall j :: 0 <= j < |params| ==> params[j].name == old(params)[j].name
        invariant forall j :: 0 <= j < i ==> params[j].trainable == all
      {
        params := params[i := params[i].(trainable := all)];
        i := i + 1;
      }
      if lastNUnfreeze > 0 {
        i := 0;
        while i < |params|
          invariant 0 <= i <= |params| == |old(params)|
          invariant forall j :: 0 <= j < |params| ==> params[j].name == old(params)[j].name
          invariant forall j :: 0 <= j < i ==>
            params[j].trainable == InLastLayers(params[j].name, lastNUnfreeze, numHiddenLayers)
          invariant forall j :: i <= j < |params| ==> !params[j].trainable
        {
          if InLastLayers(params[i].name, lastNUnfreeze, numHiddenLayers) {
            params := params[i := params[i].(trainable := true)];
          }
          i := i + 1;
        }
      }
      return Pass;
    }

    /** `_set_opt_lr`: one group per parameter in `named_parameters` order, with the
        learning rate its name selects and the weight decay its name allows, then
        only the trainable ones are kept. The first name that selects no learning
        rate raises. */
    method SetOptLr(lr: real, layerDecay: real, weightDecay: real) returns (r: Result<seq<ParamGroup>>)
      ensures r == TuningGroups(params, LayerLrs(lr, layerDecay, numHiddenLayers), weightDecay)
    {
      var lrs := LayerLrs(lr, layerDecay, numHiddenLayers);
      var tuning: seq<ParamGroup> := [];
      var i := 0;
      while i < |params|
        invariant 0 <= i <= |params|
        invariant BuildGroups(params[..i], lrs, weightDecay) == Success(tuning)
      {
        assert params[..i + 1][..i] == params[..i];
        var p := params[i];
        var chosen := LearningRateFor(p.name, lrs);
        if chosen.Failure? {
          BuildGroupsStopsAtFailure(params, i + 1, lrs, weightDecay);
          r := Failure(chosen.error);
          return;
        }
        var group := ParamGroup([p], chosen.value, 0.0, p.name);
        if ExemptFromWeightDecay(p.name) {
          group := group.(weightDecay := 0.0);
        } else {
          group := group.(weightDecay := weightDecay);
        }
        tuning := tuning + [group];
        i := i + 1;
      }
      assert params[..|params|] == params;
      BuildGroupsSuccess(params, lrs, weightDecay);
      var kept: seq<ParamGroup> := [];
      i := 0;
      while i < |tuning|
        invariant 0 <= i <= |tuning|
        invariant kept == KeepTrainable(tuning[..i])
      {
        assert tuning[..i + 1][..i] == tuning[..i];
        if tuning[i].params[0].trainable {
          kept := kept + [tuning[i]];
        }
        i := i + 1;
      }
      assert tuning[..|tuning|] == tuning;
      return Success(kept);
    }
  }

  // ---------------------------------------------------------------- decoder layers

  /** The layer a parameter belongs to is unique: no name starts with the prefixes
      of two different layers. */
  lemma LayerMembershipIsUnique(name: string, j: nat, k: nat)
    requires InLayer(name, j) && InLayer(name, k)
    ensures j == k
  {
    var p := "decoder.layers.";
    var a, b := NatToString(j), NatToString(k);
    var rest := name[|p|..];
    assert LayerPrefix(j) == p + (a + ".");
    assert LayerPrefix(k) == p + (b + ".");
    assert rest == a + rest[|a|..] by {
      assert name[..|LayerPrefix(j)|] == LayerPrefix(j);
      assert rest[..|a|] == name[|p|..|p| + |a|];
    }
    assert rest == b + rest[|b|..] by {
      assert name[..|LayerPrefix(k)|] == LayerPrefix(k);
      assert rest[..|b|] == name[|p|..|p| + |b|];
    }
    assert rest[|a|] == name[|p| + |a|] == '.';
    assert rest[|b|] == name[|p| + |b|] == '.';
    LeadingDigitsOfRun(a, rest[|a|..]);
    LeadingDigitsOfRun(b, rest[|b|..]);
    assert a == rest[..|a|] == b;
    NatToStringValue(j);
    NatToStringValue(k);
  }

  /** Embedding parameters (`decoder.embed_…`) belong to no decoder layer. */
  lemma EmbeddingsInNoLayer(name: string, k: nat)
    requires StartsWith(name, "decoder.embed_")
    ensures !InLayer(name, k)
  {
    assert name[8] == "decoder.embed_"[8] == 'e';
    assert LayerPrefix(k)[8] == 'l';
  }

  /** With a positive count, a parameter of layer `k` is left trainable exactly when
      `k` is one of the last `n` layers. */
  lemma UnfrozenLayerIff(n: int, layers: nat, name: string, k: nat)
    requires 0 < n && InLayer(name, k)
    ensures UnfrozenBy(n, layers, name) <==> layers - n <= k < layers
  {
    if UnfrozenBy(n, layers, name) {
      var k': nat :| layers - n <= k' < layers && InLayer(name, k');
      LayerMembershipIsUnique(name, k, k');
    }
  }

  /** Unless everything is unfrozen, the embedding parameters stay frozen. */
  lemma EmbeddingsStayFrozen(n: int, layers: nat, name: string)
    requires n != -1 && StartsWith(name, "decoder.embed_")
    ensures !UnfrozenBy(n, layers, name)
  {
    if UnfrozenBy(n, layers, name) {
      var k: nat :| layers - n <= k < layers && InLayer(name, k);
      EmbeddingsInNoLayer(name, k);
    }
  }

  // ---------------------------------------------------------------- learning rates

  function Pow(x: real, e: nat): real
    decreases e
  {
    if e == 0 then 1.0 else x * Pow(x, e - 1)
  }

  /** `[lr * layer_decay ** (n - i) for i in range(n)]` */
  function LayerLrs(lr: real, decay: real, n: nat): (lrs: seq<real>)
    ensures |lrs| == n
  {
    seq(n, i requires 0 <= i < n => lr * Pow(decay, n - i))
  }

  /** The deepest layer gets `lr * decay`, not `lr`: the exponent never reaches zero. */
  lemma DeepestLayerLr(lr: real, decay: real, n: nat)
    requires n > 0
    ensures LayerLrs(lr, decay, n)[n - 1] == lr * decay
  {
    assert Pow(decay, 1) == decay * Pow(decay, 0);
  }

  lemma {:induction false} PowAntitone(d: real, a: nat, b: nat)
    requires 0.0 <= d <= 1.0 && a <= b
    ensures 0.0 <= Pow(d, b) <= Pow(d, a)
    decreases b
  {
    if b == 0 {
    } else if a == b {
      PowAntitone(d, a - 1, b - 1);
    } else {
      PowAntitone(d, a, b - 1);
      PowAntitone(d, 0, b - 1);
      assert Pow(d, b) == d * Pow(d, b - 1);
      assert d * Pow(d, b - 1) <= Pow(d, b - 1);
    }
  }

  /** For a decay in (0, 1] and a non-negative rate, layers closer to the output
      never get a smaller learning rate. */
  lemma LayerLrsNonDecreasing(lr: real, decay: real, n: nat, i: nat, j: nat)
    requires 0.0 < decay <= 1.0 && 0.0 <= lr && i <= j < n
    ensures 0.0 <= LayerLrs(lr, decay, n)[i] <= LayerLrs(lr, decay, n)[j]
  {
    PowAntitone(decay, n - j, n - i);
    var lo, hi := Pow(decay, n - i), Pow(decay, n - j);
    assert lr * lo <= lr * hi by {
      assert lr * (hi - lo) >= 0.0;
    }
  }

  /** The learning rate `_set_opt_lr` picks for a parameter name: the entry of layer
      `int(name.split(".")[2])` for `decoder.layers…` names, the first entry for
      `decoder.embed_…` names, the last entry otherwise; Python's IndexError and
      ValueError where the index or the integer does not exist. */
  function LearningRateFor(name: string, lrs: seq<real>): (r: Result<real>)
    ensures r.Success? ==> r.value in lrs
    ensures |lrs| == 0 ==> r.Failure?
    ensures r.Failure? ==> (r.error == IndexOutOfRange ||
                            (r.error.NotAnInteger? && StartsWith(name, "decoder.layers")))
    ensures !StartsWith(name, "decoder.layers") ==> (r.Failure? <==> |lrs| == 0)
    ensures (StartsWith(name, "decoder.layers") && |Split(name, '.')| >= 3 &&
             ParseInt(Split(name, '.')[2]).None?) ==> r == Failure(NotAnInteger(Split(name, '.')[2]))
  {
    if StartsWith(name, "decoder.layers") then
      var segments := Split(name, '.');
      if |segments| < 3 then Failure(IndexOutOfRange)
      else match ParseInt(segments[2])
        case None => Failure(NotAnInteger(segments[2]))
        case Some(k) =>
          (match PyIndex(lrs, k)
           case None => Failure(IndexOutOfRange)
           case Some(x) => Success(x))
    else if StartsWith(name, "decoder.embed_") then
      (if |lrs| > 0 then Success(lrs[0]) else Failure(IndexOutOfRange))
    else if |lrs| > 0 then Success(lrs[|lrs| - 1])
    else Failure(IndexOutOfRange)
  }

  /** A parameter of decoder layer `k` gets that layer's rate. */
  lemma LayerParamLr(k: nat, rest: string, lrs: seq<real>)
    requires k < |lrs|
    ensures LearningRateFor(LayerPrefix(k) + rest, lrs) == Success(lrs[k])
  {
    var digits := NatToString(k);
    var name := LayerPrefix(k) + rest;
    assert name == "decoder" + ['.'] + ("layers" + ['.'] + (digits + ['.'] + rest));
    assert StartsWith(name, "decoder.layers") by {
      assert name[..14] == "decoder.layers";
    }
    NoSeparatorInDigits(digits, '.');
    SplitAtSeparator(digits, '.', rest);
    SplitAtSeparator("layers", '.', digits + ['.'] + rest);
    SplitAtSeparator("decoder", '.', "layers" + ['.'] + (digits + ['.'] + rest));
    assert Split(name, '.')[2] == digits;
    ParseNatToString(k);
  }

  /** Embedding parameters get the first layer's rate. */
  lemma EmbeddingParamLr(name: string, lrs: seq<real>)
    requires StartsWith(name, "decoder.embed_") && |lrs| > 0
    ensures LearningRateFor(name, lrs) == Success(lrs[0])
  {
    assert name[8] == "decoder.embed_"[8] == 'e';
    assert !StartsWith(name, "decoder.layers") by {
      assert "decoder.layers"[8] == 'l';
    }
  }

  /** Any other parameter gets the last layer's rate. */
  lemma OtherParamLr(name: string, lrs: seq<real>)
    requires !StartsWith(name, "decoder.layers") && !StartsWith(name, "decoder.embed_") && |lrs| > 0
    ensures LearningRateFor(name, lrs) == Success(lrs[|lrs| - 1])
  {
  }

  // ---------------------------------------------------------------- weight decay and groups

  /** `any(nd in name for nd in ["bias", "LayerNorm.weight"])` */
  predicate ExemptFromWeightDecay(name: string) {
    Contains(name, "bias") || Contains(name, "LayerNorm.weight")
  }

  function WeightDecayFor(name: string, weightDecay: real): (wd: real)
    ensures wd == 0.0 || wd == weightDecay
    ensures ExemptFromWeightDecay(name) ==> wd == 0.0
    ensures weightDecay != 0.0 ==> (wd == 0.0 <==> ExemptFromWeightDecay(name))
  {
    if ExemptFromWeightDecay(name) then 0.0 else weightDecay
  }

  /** Every `….bias` parameter is excluded from weight decay. */
  lemma BiasNotDecayed(prefix: string, weightDecay: real)
    ensures WeightDecayFor(prefix + "bias", weightDecay) == 0.0
  {
    ContainsSuffix(prefix, "bias");
  }

  lemma {:induction false} NotContainedWithoutFirstChar(s: string, sub: string)
    requires |sub| > 0 && sub[0] !in s
    ensures !Contains(s, sub)
    decreases |s|
  {
    if |s| > 0 {
      assert s[0] in s;
      assert forall c :: c in s[1..] ==> c in s;
      NotContainedWithoutFirstChar(s[1..], sub);
    }
  }

  /** A decoder-layer parameter whose own name has neither `b` nor `L` is not exempt. */
  lemma LayerParamDecayed(k: nat, suffix: string, weightDecay: real)
    requires 'b' !in suffix && 'L' !in suffix
    ensures WeightDecayFor(LayerPrefix(k) + suffix, weightDecay) == weightDecay
  {
    var digits := NatToString(k);
    var name := LayerPrefix(k) + suffix;
    assert name == "decoder.layers." + digits + "." + suffix;
    assert 'b' !in "decoder.layers." && 'L' !in "decoder.layers.";
    assert 'b' !in digits && 'L' !in digits;
    NotContainedWithoutFirstChar(name, "bias");
    NotContainedWithoutFirstChar(name, "LayerNorm.weight");
  }

  /** OPT names its normalisation weights `self_attn_layer_norm.weight` and
      `final_layer_norm.weight`, which contain neither marker, so they keep the
      configured weight decay. */
  lemma OptLayerNormWeightsDecayed(k: nat, weightDecay: real)
    ensures WeightDecayFor(LayerPrefix(k) + "self_attn_layer_norm.weight", weightDecay) == weightDecay
    ensures WeightDecayFor(LayerPrefix(k) + "final_layer_norm.weight", weightDecay) == weightDecay
  {
    assert 'b' !in "self_attn_layer_norm.weight" && 'L' !in "self_attn_layer_norm.weight";
    assert 'b' !in "final_layer_norm.weight" && 'L' !in "final_layer_norm.weight";
    LayerParamDecayed(k, "self_attn_layer_norm.weight", weightDecay);
    LayerParamDecayed(k, "final_layer_norm.weight", weightDecay);
  }

  /** An optimizer parameter group: its parameters, learning rate, weight decay and name. */
  datatype ParamGroup = ParamGroup(params: seq<Param>, lr: real, weightDecay: real, name: string)

  /** The group `_set_opt_lr` builds for one backbone parameter. */
  function GroupFor(p: Param, lrs: seq<real>, weightDecay: real): (r: Result<ParamGroup>)
    ensures r.Success? <==> LearningRateFor(p.name, lrs).Success?
    ensures r.Failure? ==> r == Failure(LearningRateFor(p.name, lrs).error)
    ensures r.Success? ==> r.value.params == [p] && r.value.name == p.name
    ensures r.Success? ==> r.value.lr in lrs && r.value.weightDecay == WeightDecayFor(p.name, weightDecay)
  {
    var lr :- LearningRateFor(p.name, lrs);
    Success(ParamGroup([p], lr, WeightDecayFor(p.name, weightDecay), p.name))
  }

  // ---------------------------------------------------------------- the groups of _set_opt_lr

  /** The loop of `_set_opt_lr`: the group of each parameter in turn, stopping at
      the first name without a learning rate. */
  function BuildGroups(ps: seq<Param>, lrs: seq<real>, weightDecay: real): (r: Result<seq<ParamGroup>>)
    decreases |ps|
  {
    if |ps| == 0 then Success([])
    else
      var init :- BuildGroups(ps[..|ps| - 1], lrs, weightDecay);
      var g :- GroupFor(ps[|ps| - 1], lrs, weightDecay);
      Success(init + [g])
  }

  /** The comprehension of `_set_opt_lr`: the groups whose parameter is trainable. */
  function KeepTrainable(gs: seq<ParamGroup>): (r: seq<ParamGroup>)
    ensures forall g :: g in r ==> g in gs
    decreases |gs|
  {
    if |gs| == 0 then []
    else
      var g := gs[|gs| - 1];
      KeepTrainable(gs[..|gs| - 1]) + (if |g.params| > 0 && g.params[0].trainable then [g] else [])
  }

  /** What `_set_opt_lr` returns for these parameters and rates. */
  function TuningGroups(ps: seq<Param>, lrs: seq<real>, weightDecay: real): Result<seq<ParamGroup>> {
    var all :- BuildGroups(ps, lrs, weightDecay);
    Success(KeepTrainable(all))
  }

  /** The loop succeeds exactly when every name selects a rate, and then holds one
      group per parameter, in order. */
  lemma {:induction false} BuildGroupsSuccess(ps: seq<Param>, lrs: seq<real>, weightDecay: real)
    ensures BuildGroups(ps, lrs, weightDecay).Success? <==>
      forall i :: 0 <= i < |ps| ==> LearningRateFor(ps[i].name, lrs).Success?
    ensures BuildGroups(ps, lrs, weightDecay).Success? ==>
      |BuildGroups(ps, lrs, weightDecay).value| == |ps| &&
      forall j :: 0 <= j < |ps| ==> GroupFor(ps[j], lrs, weightDecay) == Success(BuildGroups(ps, lrs, weightDecay).value[j])
    decreases |ps|
  {
    if |ps| > 0 {
      var init := ps[..|ps| - 1];
      BuildGroupsSuccess(init, lrs, weightDecay);
      assert forall i :: 0 <= i < |init| ==> init[i] == ps[i];
    }
  }

  /** The loop fails with the error of the first name that selects no rate. */
  lemma {:induction false} BuildGroupsFirstFailure(ps: seq<Param>, lrs: seq<real>, weightDecay: real)
    requires BuildGroups(ps, lrs, weightDecay).Failure?
    ensures exists i :: (0 <= i < |ps| &&
      LearningRateFor(ps[i].name, lrs) == Failure(BuildGroups(ps, lrs, weightDecay).error) &&
      forall k :: 0 <= k < i ==> LearningRateFor(ps[k].name, lrs).Success?)
    decreases |ps|
  {
    var init := ps[..|ps| - 1];
    assert forall i :: 0 <= i < |init| ==> init[i] == ps[i];
    if BuildGroups(init, lrs, weightDecay).Failure? {
      BuildGroupsFirstFailure(init, lrs, weightDecay);
      var i :| 0 <= i < |init| &&
        LearningRateFor(init[i].name, lrs) == Failure(BuildGroups(init, lrs, weightDecay).error) &&
        forall k :: 0 <= k < i ==> LearningRateFor(init[k].name, lrs).Success?;
      assert LearningRateFor(ps[i].name, lrs) == Failure(BuildGroups(ps, lrs, weightDecay).error);
    } else {
      BuildGroupsSuccess(init, lrs, weightDecay);
      assert LearningRateFor(ps[|ps| - 1].name, lrs) == Failure(BuildGroups(ps, lrs, weightDecay).error);
    }
  }

  /** Once a prefix fails, the whole loop fails with the same error. */
  lemma {:induction false} BuildGroupsStopsAtFailure(ps: seq<Param>, n: nat, lrs: seq<real>, weightDecay: real)
    requires n <= |ps| && BuildGroups(ps[..n], lrs, weightDecay).Failure?
    ensures BuildGroups(ps, lrs, weightDecay) == BuildGroups(ps[..n], lrs, weightDecay)
    decreases |ps| - n
  {
    if n == |ps| {
      assert ps[..n] == ps;
    } else {
      var init := ps[..|ps| - 1];
      assert init[..n] == ps[..n];
      BuildGroupsStopsAtFailure(init, n, lrs, weightDecay);
    }
  }

  /** Keeping the trainable groups of a per-parameter group list gives the groups of
      the trainable parameters, in order. */
  lemma {:induction false} KeepTrainableGroups(ps: seq<Param>, gs: seq<ParamGroup>, lrs: seq<real>, weightDecay: real)
    requires |gs| == |ps| && forall j :: 0 <= j < |ps| ==> GroupFor(ps[j], lrs, weightDecay) == Success(gs[j])
    ensures |KeepTrainable(gs)| == |TrainableParams(ps)|
    ensures forall j :: 0 <= j < |TrainableParams(ps)| ==>
      GroupFor(TrainableParams(ps)[j], lrs, weightDecay) == Success(KeepTrainable(gs)[j])
    decreases |ps|
  {
    if |ps| > 0 {
      var init, ginit := ps[..|ps| - 1], gs[..|gs| - 1];
      assert forall j :: 0 <= j < |init| ==> init[j] == ps[j] && ginit[j] == gs[j];
      KeepTrainableGroups(init, ginit, lrs, weightDecay);
      assert gs[|gs| - 1].params == [ps[|ps| - 1]];
    }
  }

  /** `_set_opt_lr` fails exactly when some name selects no rate, and then with the
      first such error; otherwise it returns one group per trainable parameter, in
      `named_parameters` order, each with the rate and decay its name selects. */
  lemma TuningGroupsSpec(ps: seq<Param>, lrs: seq<real>, weightDecay: real)
    ensures var r := TuningGroups(ps, lrs, weightDecay);
      r.Failure? <==> exists i :: 0 <= i < |ps| && LearningRateFor(ps[i].name, lrs).Failure?
    ensures var r := TuningGroups(ps, lrs, weightDecay);
      r.Failure? ==> exists i :: (0 <= i < |ps| &&
        LearningRateFor(ps[i].name, lrs) == Failure(r.error) &&
        forall k :: 0 <= k < i ==> LearningRateFor(ps[k].name, lrs).Success?)
    ensures var r := TuningGroups(ps, lrs, weightDecay);
      r.Success? ==> (|r.value| == |TrainableParams(ps)| &&
        forall j :: 0 <= j < |r.value| ==> GroupFor(TrainableParams(ps)[j], lrs, weightDecay) == Success(r.value[j]))
  {
    BuildGroupsSuccess(ps, lrs, weightDecay);
    var all := BuildGroups(ps, lrs, weightDecay);
    if all.Failure? {
      BuildGroupsFirstFailure(ps, lrs, weightDecay);
    } else {
      KeepTrainableGroups(ps, all.value, lrs, weightDecay);
    }
  }

  // ---------------------------------------------------------------- filters

  /** The trainable parameters, in order. */
  function TrainableParams(ps: seq<Param>): (r: seq<Param>)
    ensures forall q :: q in r ==> q in ps && q.trainable
    decreases |ps|
  {
    if |ps| == 0 then []
    else TrainableParams(ps[..|ps| - 1]) + (if ps[|ps| - 1].trainable then [ps[|ps| - 1]] else [])
  }

  lemma {:induction false} TrainableParamsComplete(ps: seq<Param>, p: Param)
    requires p in ps && p.trainable
    ensures p in TrainableParams(ps)
    decreases |ps|
  {
    if ps[|ps| - 1] != p {
      assert p in ps[..|ps| - 1] by {
        var i :| 0 <= i < |ps| && ps[i] == p;
        assert ps[..|ps| - 1][i] == p;
      }
      TrainableParamsComplete(ps[..|ps| - 1], p);
    }
  }

  /** The model parameters whose names are not among `names`, in order: the
      "the_rest" group of `configure_optimizers`. */
  function RestParams(qs: seq<Param>, names: seq<string>): (r: seq<Param>)
    ensures forall q :: q in r ==> q in qs && q.name !in names
    decreases |qs|
  {
    if |qs| == 0 then []
    else RestParams(qs[..|qs| - 1], names) + (if qs[|qs| - 1].name !in names then [qs[|qs| - 1]] else [])
  }

  lemma {:induction false} RestParamsComplete(qs: seq<Param>, names: seq<string>, q: Param)
    requires q in qs && q.name !in names
    ensures q in RestParams(qs, names)
    decreases |qs|
  {
    if qs[|qs| - 1] != q {
      assert q in qs[..|qs| - 1] by {
        var i :| 0 <= i < |qs| && qs[i] == q;
        assert qs[..|qs| - 1][i] == q;
      }
      RestParamsComplete(qs[..|qs| - 1], names, q);
    }
  }

  // ---------------------------------------------------------------- configure_optimizers

  /** The backbone's parameters as the whole model names them (`opt.` + name). */
  function Qualified(ps: seq<Param>): (r: seq<Param>)
    ensures |r| == |ps|
    ensures forall i :: 0 <= i < |ps| ==> r[i] == Param("opt." + ps[i].name, ps[i].trainable)
  {
    seq(|ps|, i requires 0 <= i < |ps| => Param("opt." + ps[i].name, ps[i].trainable))
  }

  /** `self.named_parameters()`: the backbone's parameters under `opt.`, then the
      recommender's own (sequence encoder, projection, head, prompt encoders). */
  function ModelParameters(backbone: seq<Param>, head: seq<Param>): seq<Param> {
    Qualified(backbone) + head
  }

  /** `["opt." + g["name"] for g in opt_tuning_params]` */
  function TuningNames(groups: seq<ParamGroup>): (names: seq<string>)
    ensures |names| == |groups|
    ensures forall j :: 0 <= j < |groups| ==> names[j] == "opt." + groups[j].name
  {
    seq(|groups|, j requires 0 <= j < |groups| => "opt." + groups[j].name)
  }

  datatype OptimConfig = OptimConfig(
    lr: real, weightDecay: real, plmLastNUnfreeze: int,
    plmLr: real, plmLrLayerDecay: real, plmWeightDecay: real)

  /** AdamW over all parameters with one rate, or over explicit groups. */
  datatype Optimizer =
    | AdamWDefaults(params: seq<Param>, lr: real, weightDecay: real)
    | AdamWGroups(groups: seq<ParamGroup>)

  /** What `configure_optimizers` builds: with a frozen backbone (count 0) one AdamW
      over every parameter; otherwise the groups of `_set_opt_lr` followed by one
      "the_rest" group holding every model parameter whose name is not a tuning name. */
  function OptimizerFor(backbone: seq<Param>, layers: nat, head: seq<Param>, cfg: OptimConfig): Result<Optimizer> {
    if cfg.plmLastNUnfreeze == 0 then
      Success(AdamWDefaults(ModelParameters(backbone, head), cfg.lr, cfg.weightDecay))
    else
      var tuning :- TuningGroups(backbone, LayerLrs(cfg.plmLr, cfg.plmLrLayerDecay, layers), cfg.plmWeightDecay);
      var rest := RestParams(ModelParameters(backbone, head), TuningNames(tuning));
      Success(AdamWGroups(tuning + [ParamGroup(rest, cfg.lr, cfg.weightDecay, "the_rest")]))
  }

  /** The loop of `configure_optimizers` that gathers the parameters of "the_rest". */
  method CollectRest(all: seq<Param>, names: seq<string>) returns (rest: seq<Param>)
    ensures rest == RestParams(all, names)
  {
    rest := [];
    var i := 0;
    while i < |all|
      invariant 0 <= i <= |all|
      invariant rest == RestParams(all[..i], names)
    {
      assert all[..i + 1][..i] == all[..i];
      if all[i].name !in names {
        rest := rest + [all[i]];
      }
      i := i + 1;
    }
    assert all[..|all|] == all;
  }

  /** `configure_optimizers` */
  method ConfigureOptimizers(opt: Backbone, head: seq<Param>, cfg: OptimConfig) returns (r: Result<Optimizer>)
    ensures r == OptimizerFor(opt.params, opt.numHiddenLayers, head, cfg)
  {
    var all := ModelParameters(opt.params, head);
    if cfg.plmLastNUnfreeze == 0 {
      return Success(AdamWDefaults(all, cfg.lr, cfg.weightDecay));
    }
    var tuned := opt.SetOptLr(cfg.plmLr, cfg.plmLrLayerDecay, cfg.plmWeightDecay);
    if tuned.Failure? {
      return Failure(tuned.error);
    }
    var tuning := tuned.value;
    ghost var lrs := LayerLrs(cfg.plmLr, cfg.plmLrLayerDecay, opt.numHiddenLayers);
    assert TuningGroups(opt.params, lrs, cfg.plmWeightDecay) == Success(tuning);
    var rest := CollectRest(all, TuningNames(tuning));
    return Success(AdamWGroups(tuning + [ParamGroup(rest, cfg.lr, cfg.weightDecay, "the_rest")]));
  }

  // ---------------------------------------------------------------- group coverage

  predicate UniqueNames(ps: seq<Param>) {
    forall i, j :: 0 <= i < |ps| && 0 <= j < |ps| && ps[i].name == ps[j].name ==> i == j
  }

  /** The tuning names of the groups built for the trainable backbone parameters. */
  function TrainableTuningNames(backbone: seq<Param>): (names: seq<string>)
    ensures |names| == |TrainableParams(backbone)|
  {
    var t := TrainableParams(backbone);
    seq(|t|, j requires 0 <= j < |t| => "opt." + t[j].name)
  }

  lemma TuningNamesOfGroups(backbone: seq<Param>, groups: seq<ParamGroup>, lrs: seq<real>, wd: real)
    requires |groups| == |TrainableParams(backbone)|
    requires forall j :: 0 <= j < |groups| ==> GroupFor(TrainableParams(backbone)[j], lrs, wd) == Success(groups[j])
    ensures TuningNames(groups) == TrainableTuningNames(backbone)
  {
  }

  /** `configure_optimizers` keeps one AdamW over everything for a frozen backbone.
      Otherwise it fails exactly when `_set_opt_lr` does, and on success holds one
      group per trainable backbone parameter, in order, then "the_rest": the model
      parameters not named `opt.` + a trainable backbone parameter's name. */
  lemma OptimizerForSpec(backbone: seq<Param>, layers: nat, head: seq<Param>, cfg: OptimConfig)
    ensures var r := OptimizerFor(backbone, layers, head, cfg);
      cfg.plmLastNUnfreeze == 0 ==>
        r == Success(AdamWDefaults(ModelParameters(backbone, head), cfg.lr, cfg.weightDecay))
    ensures var r := OptimizerFor(backbone, layers, head, cfg);
      var lrs := LayerLrs(cfg.plmLr, cfg.plmLrLayerDecay, layers);
      cfg.plmLastNUnfreeze != 0 ==>
        (r.Failure? <==> exists i :: 0 <= i < |backbone| && LearningRateFor(backbone[i].name, lrs).Failure?)
    ensures var r := OptimizerFor(backbone, layers, head, cfg);
      var lrs := LayerLrs(cfg.plmLr, cfg.plmLrLayerDecay, layers);
      var t := TrainableParams(backbone);
      cfg.plmLastNUnfreeze != 0 && r.Success? ==>
        (r.value.AdamWGroups? && |r.value.groups| == |t| + 1 &&
         (forall j :: 0 <= j < |t| ==> GroupFor(t[j], lrs, cfg.plmWeightDecay) == Success(r.value.groups[j])) &&
         r.value.groups[|t|] == ParamGroup(
           RestParams(ModelParameters(backbone, head), TrainableTuningNames(backbone)),
           cfg.lr, cfg.weightDecay, "the_rest"))
  {
    var lrs := LayerLrs(cfg.plmLr, cfg.plmLrLayerDecay, layers);
    TuningGroupsSpec(backbone, lrs, cfg.plmWeightDecay);
    var tuning := TuningGroups(backbone, lrs, cfg.plmWeightDecay);
    if cfg.plmLastNUnfreeze != 0 && tuning.Success? {
      TuningNamesOfGroups(backbone, tuning.value, lrs, cfg.plmWeightDecay);
    }
  }

  /** A frozen backbone parameter is not in a backbone group but lands in "the_rest":
      that group takes every name missing from the tuning names. */
  lemma FrozenBackboneParamInRest(backbone: seq<Param>, head: seq<Param>, i: nat)
    requires UniqueNames(backbone) && i < |backbone| && !backbone[i].trainable
    ensures "opt." + backbone[i].name !in TrainableTuningNames(backbone)
    ensures Param("opt." + backbone[i].name, false) in
      RestParams(ModelParameters(backbone, head), TrainableTuningNames(backbone))
  {
    var names := TrainableTuningNames(backbone);
    var t := TrainableParams(backbone);
    forall j | 0 <= j < |names|
      ensures names[j] != "opt." + backbone[i].name
    {
      assert t[j] in t;
      var m :| 0 <= m < |backbone| && backbone[m] == t[j];
      assert m != i;
      assert t[j].name != backbone[i].name;
      assert ("opt." + t[j].name)[4..] != ("opt." + backbone[i].name)[4..];
    }
    var q := Param("opt." + backbone[i].name, false);
    assert Qualified(backbone)[i] == q;
    assert q in ModelParameters(backbone, head);
    RestParamsComplete(ModelParameters(backbone, head), names, q);
  }

  /** A trainable backbone parameter has exactly one backbone group and is kept out
      of "the_rest". */
  lemma TrainableBackboneParamGroupedOnce(backbone: seq<Param>, head: seq<Param>, i: nat)
    requires UniqueNames(backbone) && i < |backbone| && backbone[i].trainable
    ensures var names := TrainableTuningNames(backbone);
      exists j :: 0 <= j < |names| && names[j] == "opt." + backbone[i].name &&
        forall j' :: 0 <= j' < |names| && names[j'] == "opt." + backbone[i].name ==> j' == j
    ensures Param("opt." + backbone[i].name, true) !in
      RestParams(ModelParameters(backbone, head), TrainableTuningNames(backbone))
  {
    var names := TrainableTuningNames(backbone);
    var t := TrainableParams(backbone);
    TrainableParamsComplete(backbone, backbone[i]);
    var j :| 0 <= j < |t| && t[j] == backbone[i];
    assert names[j] == "opt." + backbone[i].name;
    forall j' | 0 <= j' < |names| && names[j'] == "opt." + backbone[i].name
      ensures j' == j
    {
      TrainableParamsUnique(backbone);
      assert ("opt." + t[j'].name)[4..] == t[j'].name;
      assert ("opt." + t[j].name)[4..] == t[j].name;
    }
  }

  /** The recommender's own parameters, whose names never start with `opt.`, all land
      in "the_rest". */
  lemma HeadParamInRest(backbone: seq<Param>, head: seq<Param>, h: Param)
    requires h in head && !StartsWith(h.name, "opt.")
    ensures h in RestParams(ModelParameters(backbone, head), TrainableTuningNames(backbone))
  {
    var names := TrainableTuningNames(backbone);
    RestParamsComplete(ModelParameters(backbone, head), names, h);
  }

  lemma {:induction false} TrainableParamsUnique(ps: seq<Param>)
    requires UniqueNames(ps)
    ensures UniqueNames(TrainableParams(ps))
    decreases |ps|
  {
    if |ps| > 0 {
      var init := ps[..|ps| - 1];
      assert UniqueNames(init) by {
        forall i, j | 0 <= i < |init| && 0 <= j < |init| && init[i].name == init[j].name
          ensures i == j
        {
          assert ps[i] == init[i] && ps[j] == init[j];
        }
      }
      TrainableParamsUnique(init);
      var last := ps[|ps| - 1];
      forall q | q in TrainableParams(init)
        ensures q.name != last.name
      {
        var m :| 0 <= m < |init| && init[m] == q;
        assert ps[m] == q;
      }
    }
  }

  // ---------------------------------------------------------------- evaluation

  function Sum(m: seq<int>): int
    decreases |m|
  {
    if |m| == 0 then 0 else Sum(m[..|m| - 1]) + m[|m| - 1]
  }

  /** `torch.sum(item_seq_mask, dim=-1) - 1` for one sequence. */
  function LastItemIndex(itemSeqMask: seq<int>): int {
    Sum(itemSeqMask) - 1
  }

  predicate IsBinaryMask(m: seq<int>) {
    forall i :: 0 <= i < |m| ==> m[i] == 0 || m[i] == 1
  }

  lemma {:induction false} SumOfBinaryMask(m: seq<int>)
    requires IsBinaryMask(m)
    ensures 0 <= Sum(m) <= |m|
    ensures Sum(m) == 0 <==> forall i :: 0 <= i < |m| ==> m[i] == 0
    decreases |m|
  {
    if |m| > 0 {
      var init := m[..|m| - 1];
      assert IsBinaryMask(init) by {
        forall i | 0 <= i < |init| ensures init[i] == 0 || init[i] == 1 {
          assert init[i] == m[i];
        }
      }
      SumOfBinaryMask(init);
      if Sum(m) == 0 {
        forall i | 0 <= i < |m| ensures m[i] == 0 {
          if i < |init| { assert init[i] == m[i]; }
        }
      }
    }
  }

  /** The last index of a 0/1 mask is -1 (no item) up to its last position. */
  lemma LastItemIndexInRange(m: seq<int>)
    requires IsBinaryMask(m)
    ensures -1 <= LastItemIndex(m) < |m|
    ensures LastItemIndex(m) == -1 <==> forall i :: 0 <= i < |m| ==> m[i] == 0
  {
    SumOfBinaryMask(m);
  }

  lemma {:induction false} SumOfOnesThenZeros(k: nat, pad: nat)
    ensures Sum(Ones(k) + seq(pad, _ => 0)) == k
    decreases pad
  {
    var m := Ones(k) + seq(pad, _ => 0);
    if pad == 0 {
      assert m == Ones(k);
      SumOfOnes(k);
    } else {
      assert m[..|m| - 1] == Ones(k) + seq(pad - 1, _ => 0);
      SumOfOnesThenZeros(k, pad - 1);
    }
  }

  lemma {:induction false} SumOfOnes(k: nat)
    ensures Sum(Ones(k)) == k
    decreases k
  {
    if k > 0 {
      assert Ones(k)[..k - 1] == Ones(k - 1);
      SumOfOnes(k - 1);
    }
  }

  /** For a mask of `k` ones followed by padding zeros, the rule picks the last real
      item: position `k - 1`. */
  lemma LastItemIndexOfRightPaddedMask(k: nat, pad: nat)
    requires k > 0
    ensures var m := Ones(k) + seq(pad, _ => 0);
      LastItemIndex(m) == k - 1 && m[k - 1] == 1 &&
      forall j :: k <= j < |m| ==> m[j] == 0
  {
    SumOfOnesThenZeros(k, pad);
  }

  /** The per-position output gathered at the last index, refusing an index outside
      the sequence. For a 0/1 mask as long as the sequence, the gather succeeds
      exactly when the sequence holds at least one real item. */
  function GatherLast<T>(perPosition: seq<T>, itemSeqMask: seq<int>): (r: Result<T>)
    ensures r.Success? <==> 0 <= LastItemIndex(itemSeqMask) < |perPosition|
    ensures r.Success? ==> r.value == perPosition[LastItemIndex(itemSeqMask)]
    ensures IsBinaryMask(itemSeqMask) && |itemSeqMask| == |perPosition| ==>
      (r.Success? <==> exists i :: 0 <= i < |itemSeqMask| && itemSeqMask[i] == 1)
  {
    var idx := LastItemIndex(itemSeqMask);
    if IsBinaryMask(itemSeqMask) then
      LastItemIndexInRange(itemSeqMask);
      if 0 <= idx < |perPosition| then Success(perPosition[idx]) else Failure(IndexOutOfRange)
    else if 0 <= idx < |perPosition| then Success(perPosition[idx]) else Failure(IndexOutOfRange)
  }
}
