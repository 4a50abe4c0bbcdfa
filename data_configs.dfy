/** Dataset descriptions and data-module configurations: the fixed table layout of each
    supported dataset (`get_data_configs`) and the `*Config` constructors, which pop
    their keyword arguments with defaults, validate them in a fixed order and refuse
    any keyword left over.

    A keyword argument's value is an untyped Python object (`Value`). Python compares
    `bool` as the integers 0 and 1 and refuses to order a string, `None` or a list
    against an integer (TypeError). */
module DataConfigs {
  import opened Common

  // ---------------------------------------------------------------- get_data_configs

  /** The only column type the tables declare: Python's `str`. */
  datatype FieldType = StrType

  /** One table's entry in `table_configs`. */
  datatype TableConfig = TableConfig(
    filepath: string,
    usecols: seq<string>,
    renameCols: map<string, string>,
    filedType: map<string, FieldType>,
    tokenSeqFields: Option<seq<string>>)

  /** The dictionary `get_data_configs` returns. */
  datatype DataConfig = DataConfig(
    dataDir: string,
    uidField: string, iidField: string, itemTextField: string, itemSeqField: string,
    interTable: string, itemTable: string,
    tableConfigs: map<string, TableConfig>)

  /** The per-dataset choices of `get_data_configs`: table names and the raw column
      names that get renamed. */
  datatype DatasetLayout = DatasetLayout(
    interTable: string, itemTable: string,
    oldUidField: string, oldIidField: string, oldItemTextField: string, oldItemSeqField: string)

  predicate KnownDataset(dataset: string) {
    dataset == "MIND_small" || dataset == "MIND_large" || dataset == "hm" || dataset == "bilibili"
  }

  function LayoutFor(dataset: string): (r: Result<DatasetLayout>)
    ensures r.Success? <==> KnownDataset(dataset)
  {
    if dataset == "MIND_small" || dataset == "MIND_large" then
      Success(DatasetLayout("behaviors", "news", "userid", "newsid", "title", "behaviors"))
    else if dataset == "hm" then
      Success(DatasetLayout("behaviors", "items", "userid", "itemid", "description", "behaviors"))
    else if dataset == "bilibili" then
      Success(DatasetLayout("behaviors", "videos", "userid", "videoid", "description", "behaviors"))
    else Failure(UnknownDataset(dataset))
  }

  /** `get_data_configs(dataset)` */
  function GetDataConfigs(dataset: string): (r: Result<DataConfig>)
    ensures r.Failure? <==> !KnownDataset(dataset)
    ensures r.Failure? ==> r.error == UnknownDataset(dataset)
    ensures r.Success? ==> r.value.dataDir == "data/" + dataset + "/"
    ensures r.Success? ==> r.value.tableConfigs.Keys == {r.value.interTable, r.value.itemTable}
    ensures r.Success? ==>
      r.value.tableConfigs[r.value.interTable].filepath == r.value.dataDir + r.value.interTable + ".tsv" &&
      r.value.tableConfigs[r.value.itemTable].filepath == r.value.dataDir + r.value.itemTable + ".tsv"
  {
    var layout :- LayoutFor(dataset);
    var dataDir := "data/" + dataset + "/";
    var inter := TableConfig(
      dataDir + layout.interTable + ".tsv",
      [layout.oldUidField, layout.oldItemSeqField],
      map[layout.oldUidField := "user_id", layout.oldItemSeqField := "interactions"],
      map[layout.oldUidField := StrType, layout.oldItemSeqField := StrType],
      Some(["interactions"]));
    var item := TableConfig(
      dataDir + layout.itemTable + ".tsv",
      [layout.oldIidField, layout.oldItemTextField],
      map[layout.oldIidField := "item_id", layout.oldItemTextField := "item_text"],
      map["newsid" := StrType, "title" := StrType],
      None);
    Success(DataConfig(dataDir, "user_id", "item_id", "item_text", "interactions",
      layout.interTable, layout.itemTable,
      map[layout.interTable := inter, layout.itemTable := item]))
  }

  /** The table names of each dataset: the interaction table is always "behaviors";
      the item table is "news", "items" or "videos". */
  lemma TableNames(dataset: string)
    requires KnownDataset(dataset)
    ensures var c := GetDataConfigs(dataset).value;
      c.interTable == "behaviors" &&
      c.itemTable == (if dataset == "hm" then "items" else if dataset == "bilibili" then "videos" else "news") &&
      c.interTable != c.itemTable
  {
  }

  /** Every table reads exactly the columns it renames, and renames them to the fixed
      canonical fields; only the interaction table has a token-sequence field. */
  lemma ColumnsRenamedToCanonicalFields(dataset: string)
    requires KnownDataset(dataset)
    ensures var c := GetDataConfigs(dataset).value;
      var inter, item := c.tableConfigs[c.interTable], c.tableConfigs[c.itemTable];
      (set k | k in inter.usecols) == inter.renameCols.Keys &&
      (set k | k in item.usecols) == item.renameCols.Keys &&
      inter.renameCols.Values == {c.uidField, c.itemSeqField} &&
      item.renameCols.Values == {c.iidField, c.itemTextField} &&
      c.uidField == "user_id" && c.itemSeqField == "interactions" &&
      c.iidField == "item_id" && c.itemTextField == "item_text" &&
      inter.tokenSeqFields == Some([c.itemSeqField]) && item.tokenSeqFields.None?
  {
    var c := GetDataConfigs(dataset).value;
    var layout := LayoutFor(dataset).value;
    var inter, item := c.tableConfigs[c.interTable], c.tableConfigs[c.itemTable];
    assert inter.renameCols.Values == {c.uidField, c.itemSeqField} by {
      assert inter.renameCols == map[layout.oldUidField := "user_id", layout.oldItemSeqField := "interactions"];
      assert inter.renameCols[layout.oldUidField] == "user_id";
      assert inter.renameCols[layout.oldItemSeqField] == "interactions";
    }
    assert item.renameCols.Values == {c.iidField, c.itemTextField} by {
      assert item.renameCols[layout.oldIidField] == "item_id";
      assert item.renameCols[layout.oldItemTextField] == "item_text";
    }
  }

  /** The item table always declares `newsid` and `title` as string columns, whatever
      the dataset; for hm and bilibili neither is a column the table reads. */
  lemma ItemFieldTypesIgnoreDataset(dataset: string)
    requires KnownDataset(dataset)
    ensures var c := GetDataConfigs(dataset).value;
      c.tableConfigs[c.itemTable].filedType.Keys == {"newsid", "title"}
    ensures var c := GetDataConfigs(dataset).value;
      (dataset == "hm" || dataset == "bilibili") ==>
        "newsid" !in c.tableConfigs[c.itemTable].usecols && "title" !in c.tableConfigs[c.itemTable].usecols
  {
  }

  // ---------------------------------------------------------------- keyword arguments

  /** A Python object passed as a keyword argument. */
  datatype Value = IntV(i: int) | StrV(s: string) | BoolV(b: bool) | NoneV | IntListV(xs: seq<int>)

  /** The integer a value orders as: an int itself, a bool as 0 or 1; None otherwise. */
  function AsNumber(v: Value): (n: Option<int>)
    ensures n.Some? <==> v.IntV? || v.BoolV?
  {
    match v
    case IntV(i) => Some(i)
    case BoolV(b) => Some(if b then 1 else 0)
    case _ => None
  }

  /** `kwargs.pop(key, default)` read as a value. */
  function Get(kw: map<string, Value>, key: string, default: Value): Value {
    if key in kw then kw[key] else default
  }

  /** `assert v >= bound` (and `v > bound - 1`): TypeError for a value that does not
      order against an int, AssertionError when it is too small. */
  function CheckAtLeast(v: Value, bound: int, what: string): (o: Outcome)
    ensures o.Pass? <==> AsNumber(v).Some? && AsNumber(v).value >= bound
  {
    match AsNumber(v)
    case None => Fail(TypeMismatch)
    case Some(n) => if n >= bound then Pass else Fail(AssertionFailed(what))
  }

  /** `assert v <= bound` */
  function CheckAtMost(v: Value, bound: int, what: string): (o: Outcome)
    ensures o.Pass? <==> AsNumber(v).Some? && AsNumber(v).value <= bound
  {
    match AsNumber(v)
    case None => Fail(TypeMismatch)
    case Some(n) => if n <= bound then Pass else Fail(AssertionFailed(what))
  }

  /** The first failure of two checks made in order. */
  function AndThen(first: Outcome, next: Outcome): Outcome {
    if first.Fail? then first else next
  }

  // ---------------------------------------------------------------- DataModuleConfig

  /** The attributes `DataModuleConfig.__init__` pops, in the order it pops them. */
  datatype BaseOptions = BaseOptions(
    plmName: Value, plmLastNUnfreeze: Value, samplingN: Value, splitType: Value,
    minItemSeqLen: Value, maxItemSeqLen: Value, tokenizedLen: Value,
    batchSize: Value, numWorkers: Value, pinMemory: Value)

  const BaseKeys: set<string> := {
    "plm_name", "plm_last_n_unfreeze", "sampling_n", "split_type", "min_item_seq_len",
    "max_item_seq_len", "tokenized_len", "batch_size", "num_workers", "pin_memory"}

  /** The attributes after popping, absent keywords taking their defaults. */
  function BaseOptionsFrom(kw: map<string, Value>): BaseOptions {
    BaseOptions(
      Get(kw, "plm_name", StrV("facebook/opt-125m")),
      Get(kw, "plm_last_n_unfreeze", IntV(0)),
      Get(kw, "sampling_n", NoneV),
      Get(kw, "split_type", StrV("ratio")),
      Get(kw, "min_item_seq_len", IntV(5)),
      Get(kw, "max_item_seq_len", NoneV),
      Get(kw, "tokenized_len", IntV(30)),
      Get(kw, "batch_size", IntV(64)),
      Get(kw, "num_workers", IntV(4)),
      Get(kw, "pin_memory", BoolV(true)))
  }

  /** The validation of `DataModuleConfig.__init__`, check by check in source order;
      the first failing check decides the exception. */
  function CheckBaseOptions(o: BaseOptions, numHiddenLayers: nat): Outcome {
    if o.splitType != StrV("ratio") && o.splitType != StrV("leave_one_out") then Fail(InvalidSplitType)
    else AndThen(CheckAtLeast(o.minItemSeqLen, 1, "min_item_seq_len > 0"),
      AndThen(CheckAtLeast(o.tokenizedLen, 1, "tokenized_len > 0"),
      AndThen(if o.samplingN == NoneV then Pass else CheckAtLeast(o.samplingN, 1000, "sampling_n must be >= 1000"),
      AndThen(if o.maxItemSeqLen == NoneV then Pass
              else AndThen(CheckAtLeast(o.maxItemSeqLen, 1, "max_item_seq_len > 0"),
                           match AsNumber(o.minItemSeqLen)
                           case Some(m) => CheckAtLeast(o.maxItemSeqLen, m, "max_item_seq_len >= min_item_seq_len")
                           case None => Pass),
      if o.plmLastNUnfreeze == NoneV then Pass
      else AndThen(CheckAtLeast(o.plmLastNUnfreeze, -1, "plm_last_n_unfreeze >= -1"),
                   CheckAtMost(o.plmLastNUnfreeze, numHiddenLayers, "plm_last_n_unfreeze <= num_hidden_layers"))))))
  }

  /** `if kwargs: raise ValueError(...)` on what is left after popping. */
  function CheckLeftover(rest: set<string>): (o: Outcome)
    ensures o.Pass? <==> rest == {}
  {
    if rest == {} then Pass else Fail(UnrecognizedArguments(rest))
  }

  /** The outcome of `DataModuleConfig(dataset, **kw)`. */
  function BaseOutcome(kw: map<string, Value>, numHiddenLayers: nat): Outcome {
    AndThen(CheckBaseOptions(BaseOptionsFrom(kw), numHiddenLayers), CheckLeftover(kw.Keys - BaseKeys))
  }

  predicate IsNumberAtLeast(v: Value, bound: int) {
    AsNumber(v).Some? && AsNumber(v).value >= bound
  }

  /** When a `DataModuleConfig` may be built, stated option by option. */
  predicate BaseValid(kw: map<string, Value>, numHiddenLayers: nat) {
    var o := BaseOptionsFrom(kw);
    (o.splitType == StrV("ratio") || o.splitType == StrV("leave_one_out")) &&
    IsNumberAtLeast(o.minItemSeqLen, 1) &&
    IsNumberAtLeast(o.tokenizedLen, 1) &&
    (o.samplingN == NoneV || IsNumberAtLeast(o.samplingN, 1000)) &&
    (o.maxItemSeqLen == NoneV ||
      (IsNumberAtLeast(o.maxItemSeqLen, 1) && AsNumber(o.maxItemSeqLen).value >= AsNumber(o.minItemSeqLen).value)) &&
    (o.plmLastNUnfreeze == NoneV ||
      (IsNumberAtLeast(o.plmLastNUnfreeze, -1) && AsNumber(o.plmLastNUnfreeze).value <= numHiddenLayers)) &&
    kw.Keys <= BaseKeys
  }

  /** The constructor succeeds exactly when every option is valid and no unknown
      keyword was passed. */
  lemma BaseOutcomeIff(kw: map<string, Value>, numHiddenLayers: nat)
    ensures BaseOutcome(kw, numHiddenLayers).Pass? <==> BaseValid(kw, numHiddenLayers)
  {
    var o := BaseOptionsFrom(kw);
    if BaseValid(kw, numHiddenLayers) {
      assert CheckBaseOptions(o, numHiddenLayers).Pass?;
    }
  }

  /** With no keywords at all, the defaults pass validation for any layer count. */
  lemma DefaultsValid(numHiddenLayers: nat)
    ensures BaseOutcome(map[], numHiddenLayers) == Pass
    ensures BaseOptionsFrom(map[]) == BaseOptions(
      StrV("facebook/opt-125m"), IntV(0), NoneV, StrV("ratio"), IntV(5), NoneV, IntV(30),
      IntV(64), IntV(4), BoolV(true))
  {
  }

  /** The ten `kwargs.pop(key, default)` statements of `DataModuleConfig.__init__`, in
      order, on the constructor's own keyword dictionary. */
  method PopBaseOptions(kw: map<string, Value>) returns (options: BaseOptions, kwargs: map<string, Value>)
    ensures options == BaseOptionsFrom(kw)
    ensures kwargs == kw - BaseKeys
  {
    kwargs := kw;
    var plmName := Get(kwargs, "plm_name", StrV("facebook/opt-125m"));
    kwargs := kwargs - {"plm_name"};
    var plmLastNUnfreeze := Get(kwargs, "plm_last_n_unfreeze", IntV(0));
    kwargs := kwargs - {"plm_last_n_unfreeze"};
    var samplingN := Get(kwargs, "sampling_n", NoneV);
    kwargs := kwargs - {"sampling_n"};
    var splitType := Get(kwargs, "split_type", StrV("ratio"));
    kwargs := kwargs - {"split_type"};
    var minItemSeqLen := Get(kwargs, "min_item_seq_len", IntV(5));
    kwargs := kwargs - {"min_item_seq_len"};
    var maxItemSeqLen := Get(kwargs, "max_item_seq_len", NoneV);
    kwargs := kwargs - {"max_item_seq_len"};
    var tokenizedLen := Get(kwargs, "tokenized_len", IntV(30));
    kwargs := kwargs - {"tokenized_len"};
    var batchSize := Get(kwargs, "batch_size", IntV(64));
    kwargs := kwargs - {"batch_size"};
    var numWorkers := Get(kwargs, "num_workers", IntV(4));
    kwargs := kwargs - {"num_workers"};
    var pinMemory := Get(kwargs, "pin_memory", BoolV(true));
    kwargs := kwargs - {"pin_memory"};
    options := BaseOptions(plmName, plmLastNUnfreeze, samplingN, splitType, minItemSeqLen,
      maxItemSeqLen, tokenizedLen, batchSize, numWorkers, pinMemory);
  }

  /** The options of the pre-inference data module. */
  datatype PreInferOptions = PreInferOptions(
    batchSize: Value, precision: Value, numWorkers: Value, layerWise: Value, devices: Value)

  const PreInferKeys: set<string> := {
    "pre_inference_batch_size", "pre_inference_precision", "pre_inference_num_workers",
    "pre_inference_layer_wise", "pre_inference_devices"}

  /** The five pre-inference `kwargs.pop(key, default)` statements, in order. */
  method PopPreInferOptions(kw: map<string, Value>) returns (options: PreInferOptions, kwargs: map<string, Value>)
    ensures options == PreInferOptionsFrom(kw)
    ensures kwargs == kw - PreInferKeys
  {
    kwargs := kw;
    var batchSize := Get(kwargs, "pre_inference_batch_size", IntV(1));
    kwargs := kwargs - {"pre_inference_batch_size"};
    var precision := Get(kwargs, "pre_inference_precision", IntV(32));
    kwargs := kwargs - {"pre_inference_precision"};
    var numWorkers := Get(kwargs, "pre_inference_num_workers", IntV(4));
    kwargs := kwargs - {"pre_inference_num_workers"};
    var layerWise := Get(kwargs, "pre_inference_layer_wise", BoolV(false));
    kwargs := kwargs - {"pre_inference_layer_wise"};
    var devices := Get(kwargs, "pre_inference_devices", IntListV([0, 1, 2, 3, 4, 5, 6, 7]));
    kwargs := kwargs - {"pre_inference_devices"};
    options := PreInferOptions(batchSize, precision, numWorkers, layerWise, devices);
  }

  /** The configuration object shared by the data modules: the base attributes, plus
      those of the subclass that built it (absent attributes are None). */
  class DataModuleConfig {
    const dataset: string
    var options: BaseOptions
    var sasrecSeqLen: Option<Value>
    var preInference: Option<PreInferOptions>
    var poolingMethod: Option<Value>
    var nNegSampling: Option<Value>

    constructor (dataset: string, options: BaseOptions)
      ensures this.dataset == dataset && this.options == options
      ensures sasrecSeqLen.None? && preInference.None? && poolingMethod.None? && nNegSampling.None?
    {
      this.dataset := dataset;
      this.options := options;
      sasrecSeqLen := None;
      preInference := None;
      poolingMethod := None;
      nNegSampling := None;
    }

    /** `DataModuleConfig(dataset, **kw)`: pop every option, validate in order, refuse
        leftovers. */
    static method Create(dataset: string, kw: map<string, Value>, numHiddenLayers: nat) returns (r: Result<DataModuleConfig>)
      requires "dataset" !in kw && "self" !in kw
      ensures r.Failure? <==> BaseOutcome(kw, numHiddenLayers).Fail?
      ensures r.Failure? ==> r.error == BaseOutcome(kw, numHiddenLayers).error
      ensures r.Success? ==> (fresh(r.value) && r.value.dataset == dataset &&
        r.value.options == BaseOptionsFrom(kw) &&
        r.value.sasrecSeqLen.None? && r.value.preInference.None? &&
        r.value.poolingMethod.None? && r.value.nNegSampling.None?)
    {
      var options, kwargs := PopBaseOptions(kw);
      var splitType, minItemSeqLen, maxItemSeqLen := options.splitType, options.minItemSeqLen, options.maxItemSeqLen;
      var tokenizedLen, samplingN, plmLastNUnfreeze := options.tokenizedLen, options.samplingN, options.plmLastNUnfreeze;
      if splitType != StrV("ratio") && splitType != StrV("leave_one_out") {
        return Failure(InvalidSplitType);
      }
      var check := CheckAtLeast(minItemSeqLen, 1, "min_item_seq_len > 0");
      if check.Fail? { return Failure(check.error); }
      check := CheckAtLeast(tokenizedLen, 1, "tokenized_len > 0");
      if check.Fail? { return Failure(check.error); }
      if samplingN != NoneV {
        check := CheckAtLeast(samplingN, 1000, "sampling_n must be >= 1000");
        if check.Fail? { return Failure(check.error); }
      }
      if maxItemSeqLen != NoneV {
        check := CheckAtLeast(maxItemSeqLen, 1, "max_item_seq_len > 0");
        if check.Fail? { return Failure(check.error); }
        check := CheckAtLeast(maxItemSeqLen, AsNumber(minItemSeqLen).value, "max_item_seq_len >= min_item_seq_len");
        if check.Fail? { return Failure(check.error); }
      }
      if plmLastNUnfreeze != NoneV {
        check := CheckAtLeast(plmLastNUnfreeze, -1, "plm_last_n_unfreeze >= -1");
        if check.Fail? { return Failure(check.error); }
        check := CheckAtMost(plmLastNUnfreeze, numHiddenLayers, "plm_last_n_unfreeze <= num_hidden_layers");
        if check.Fail? { return Failure(check.error); }
      }
      if kwargs != map[] {
        return Failure(UnrecognizedArguments(kwargs.Keys));
      }
      var config := new DataModuleConfig(dataset, options);
      return Success(config);
    }

    /** `SeqDataModuleConfig(dataset, **kw)`: pop and check `sasrec_seq_len` first. */
    static method CreateSeq(dataset: string, kw: map<string, Value>, numHiddenLayers: nat) returns (r: Result<DataModuleConfig>)
      requires "dataset" !in kw && "self" !in kw
      ensures r.Failure? <==> SeqOutcome(kw, numHiddenLayers).Fail?
      ensures r.Failure? ==> r.error == SeqOutcome(kw, numHiddenLayers).error
      ensures r.Success? ==> (fresh(r.value) && r.value.dataset == dataset &&
        r.value.options == BaseOptionsFrom(kw) &&
        r.value.sasrecSeqLen == Some(Get(kw, "sasrec_seq_len", IntV(20))) &&
        r.value.preInference.None? && r.value.poolingMethod.None? && r.value.nNegSampling.None?)
    {
      var kwargs := kw;
      var sasrecSeqLen := Get(kwargs, "sasrec_seq_len", IntV(20));
      kwargs := kwargs - {"sasrec_seq_len"};
      var check := CheckAtLeast(sasrecSeqLen, 1, "sasrec_seq_len > 0");
      if check.Fail? { return Failure(check.error); }
      BaseOptionsIgnoreOtherKeys(kw, {"sasrec_seq_len"});
      var config :- Create(dataset, kwargs, numHiddenLayers);
      config.sasrecSeqLen := Some(sasrecSeqLen);
      return Success(config);
    }

    /** `PreInferSeqDataModuleConfig(dataset, **kw)`: pop the pre-inference options,
        build the sequence configuration, then refuse full fine-tuning. */
    static method CreatePreInfer(dataset: string, kw: map<string, Value>, numHiddenLayers: nat) returns (r: Result<DataModuleConfig>)
      requires "dataset" !in kw && "self" !in kw
      ensures r.Failure? <==> PreInferOutcome(kw, numHiddenLayers).Fail?
      ensures r.Failure? ==> r.error == PreInferOutcome(kw, numHiddenLayers).error
      ensures r.Success? ==> (fresh(r.value) && r.value.dataset == dataset &&
        r.value.options == BaseOptionsFrom(kw) &&
        r.value.sasrecSeqLen == Some(Get(kw, "sasrec_seq_len", IntV(20))) &&
        r.value.preInference == Some(PreInferOptionsFrom(kw)) &&
        r.value.poolingMethod.None? && r.value.nNegSampling.None?)
    {
      var preInference, kwargs := PopPreInferOptions(kw);
      BaseOptionsIgnoreOtherKeys(kw, PreInferKeys);
      var config :- CreateSeq(dataset, kwargs, numHiddenLayers);
      if config.options.plmLastNUnfreeze == IntV(-1) {
        return Failure(FullFineTuneWithPreInference);
      }
      config.preInference := Some(preInference);
      return Success(config);
    }

    /** `AllFreezePreInferSeqDataModuleConfig(dataset, pooling_method="mean", **kw)`:
        the named parameter takes `pooling_method` out of the keywords. */
    static method CreateAllFreeze(dataset: string, kw: map<string, Value>, numHiddenLayers: nat) returns (r: Result<DataModuleConfig>)
      requires "dataset" !in kw && "self" !in kw
      ensures r.Failure? <==> PreInferOutcome(kw - {"pooling_method"}, numHiddenLayers).Fail?
      ensures r.Failure? ==> r.error == PreInferOutcome(kw - {"pooling_method"}, numHiddenLayers).error
      ensures r.Success? ==> (fresh(r.value) && r.value.dataset == dataset &&
        r.value.options == BaseOptionsFrom(kw) &&
        r.value.sasrecSeqLen == Some(Get(kw, "sasrec_seq_len", IntV(20))) &&
        r.value.preInference == Some(PreInferOptionsFrom(kw)) &&
        r.value.poolingMethod == Some(Get(kw, "pooling_method", StrV("mean"))) &&
        r.value.nNegSampling.None?)
    {
      var kwargs := kw;
      var poolingMethod := Get(kwargs, "pooling_method", StrV("mean"));
      kwargs := kwargs - {"pooling_method"};
      BaseOptionsIgnoreOtherKeys(kw, {"pooling_method"});
      var config :- CreatePreInfer(dataset, kwargs, numHiddenLayers);
      config.poolingMethod := Some(poolingMethod);
      return Success(config);
    }

    /** `PointWiseDataModuleConfig(dataset, **kw)`: pop and check `n_neg_sampling`
        first. */
    static method CreatePointWise(dataset: string, kw: map<string, Value>, numHiddenLayers: nat) returns (r: Result<DataModuleConfig>)
      requires "dataset" !in kw && "self" !in kw
      ensures r.Failure? <==> PointWiseOutcome(kw, numHiddenLayers).Fail?
      ensures r.Failure? ==> r.error == PointWiseOutcome(kw, numHiddenLayers).error
      ensures r.Success? ==> (fresh(r.value) && r.value.dataset == dataset &&
        r.value.options == BaseOptionsFrom(kw) &&
        r.value.nNegSampling == Some(Get(kw, "n_neg_sampling", IntV(1))) &&
        r.value.sasrecSeqLen.None? && r.value.preInference.None? && r.value.poolingMethod.None?)
    {
      var kwargs := kw;
      var nNegSampling := Get(kwargs, "n_neg_sampling", IntV(1));
      kwargs := kwargs - {"n_neg_sampling"};
      var check := CheckAtLeast(nNegSampling, 1, "n_neg_sampling > 0");
      if check.Fail? { return Failure(check.error); }
      BaseOptionsIgnoreOtherKeys(kw, {"n_neg_sampling"});
      var config :- Create(dataset, kwargs, numHiddenLayers);
      config.nNegSampling := Some(nNegSampling);
      return Success(config);
    }
  }

  /** Removing keywords that are not base options leaves the base options as they were. */
  lemma BaseOptionsIgnoreOtherKeys(kw: map<string, Value>, others: set<string>)
    requires others !! BaseKeys
    ensures BaseOptionsFrom(kw - others) == BaseOptionsFrom(kw)
  {
  }

  function PreInferOptionsFrom(kw: map<string, Value>): PreInferOptions {
    PreInferOptions(
      Get(kw, "pre_inference_batch_size", IntV(1)),
      Get(kw, "pre_inference_precision", IntV(32)),
      Get(kw, "pre_inference_num_workers", IntV(4)),
      Get(kw, "pre_inference_layer_wise", BoolV(false)),
      Get(kw, "pre_inference_devices", IntListV([0, 1, 2, 3, 4, 5, 6, 7])))
  }

  function SeqOutcome(kw: map<string, Value>, numHiddenLayers: nat): Outcome {
    AndThen(CheckAtLeast(Get(kw, "sasrec_seq_len", IntV(20)), 1, "sasrec_seq_len > 0"),
      BaseOutcome(kw - {"sasrec_seq_len"}, numHiddenLayers))
  }

  function PreInferOutcome(kw: map<string, Value>, numHiddenLayers: nat): Outcome {
    var parent := SeqOutcome(kw - PreInferKeys, numHiddenLayers);
    if parent.Fail? then parent
    else if Get(kw, "plm_last_n_unfreeze", IntV(0)) == IntV(-1) then Fail(FullFineTuneWithPreInference)
    else Pass
  }

  function PointWiseOutcome(kw: map<string, Value>, numHiddenLayers: nat): Outcome {
    AndThen(CheckAtLeast(Get(kw, "n_neg_sampling", IntV(1)), 1, "n_neg_sampling > 0"),
      BaseOutcome(kw - {"n_neg_sampling"}, numHiddenLayers))
  }

  /** Only the leftover check reports unrecognized keywords, and it reports exactly
      the keywords no option popped. */
  lemma BaseOutcomeUnrecognized(kw: map<string, Value>, numHiddenLayers: nat, ks: set<string>)
    requires BaseOutcome(kw, numHiddenLayers) == Fail(UnrecognizedArguments(ks))
    ensures ks == kw.Keys - BaseKeys && ks != {}
  {
    var check := CheckBaseOptions(BaseOptionsFrom(kw), numHiddenLayers);
    assert check.Pass?;
  }

  /** `SeqDataModuleConfig` pops `sasrec_seq_len` before the parent constructor runs,
      so the parent never reports it as unrecognized; any other unknown keyword it
      does report. */
  lemma SeqKeyNeverUnrecognized(kw: map<string, Value>, numHiddenLayers: nat, ks: set<string>)
    requires SeqOutcome(kw, numHiddenLayers) == Fail(UnrecognizedArguments(ks))
    ensures "sasrec_seq_len" !in ks && ks == kw.Keys - BaseKeys - {"sasrec_seq_len"}
  {
    BaseOutcomeUnrecognized(kw - {"sasrec_seq_len"}, numHiddenLayers, ks);
    assert (kw - {"sasrec_seq_len"}).Keys == kw.Keys - {"sasrec_seq_len"};
  }

  /** The pre-inference options and `sasrec_seq_len` are never reported as
      unrecognized. */
  lemma PreInferKeysNeverUnrecognized(kw: map<string, Value>, numHiddenLayers: nat, ks: set<string>)
    requires PreInferOutcome(kw, numHiddenLayers) == Fail(UnrecognizedArguments(ks))
    ensures ks !! PreInferKeys && "sasrec_seq_len" !in ks
    ensures ks == kw.Keys - BaseKeys - PreInferKeys - {"sasrec_seq_len"}
  {
    SeqKeyNeverUnrecognized(kw - PreInferKeys, numHiddenLayers, ks);
    assert (kw - PreInferKeys).Keys == kw.Keys - PreInferKeys;
  }

  /** `PointWiseDataModuleConfig` pops `n_neg_sampling` before the parent runs. */
  lemma PointWiseKeyNeverUnrecognized(kw: map<string, Value>, numHiddenLayers: nat, ks: set<string>)
    requires PointWiseOutcome(kw, numHiddenLayers) == Fail(UnrecognizedArguments(ks))
    ensures "n_neg_sampling" !in ks && ks == kw.Keys - BaseKeys - {"n_neg_sampling"}
  {
    BaseOutcomeUnrecognized(kw - {"n_neg_sampling"}, numHiddenLayers, ks);
    assert (kw - {"n_neg_sampling"}).Keys == kw.Keys - {"n_neg_sampling"};
  }

  /** A pre-inference configuration never asks for full fine-tuning: on success the
      unfreeze count is None or a number in [0, num_hidden_layers]. */
  lemma PreInferUnfreezeInRange(kw: map<string, Value>, numHiddenLayers: nat)
    requires PreInferOutcome(kw, numHiddenLayers) == Pass
    ensures var v := Get(kw, "plm_last_n_unfreeze", IntV(0));
      v == NoneV || (AsNumber(v).Some? && 0 <= AsNumber(v).value <= numHiddenLayers)
  {
    var rest := kw - PreInferKeys - {"sasrec_seq_len"};
    BaseOutcomeIff(rest, numHiddenLayers);
    assert BaseOptionsFrom(rest).plmLastNUnfreeze == Get(kw, "plm_last_n_unfreeze", IntV(0));
  }
}
