/** The sequential-recommendation data module (`SeqDataModule`) and its pre-inference
    variant (`PreInferSeqDataModule`): how the processed-data directory and file names
    are built, which preprocessing steps `prepare_data` runs on a given disk, the
    load-once guard of `setup`, the pre-inference decision, and how
    `build_datamodule_config` turns parsed arguments into a configuration.

    The file system is a `Disk` object holding abstract facts: which directories
    exist, how many data rows each TSV table holds, the shape of each saved `.npy`
    array and which saved tensor files exist. What the data preprocessor, `ratio_split`
    and the pre-inference helpers compute is passed in as parameters. */
module DataModule {
  import opened Common
  import opened DataConfigs

  // ---------------------------------------------------------------- printing options

  /** Python's truth value of an option. */
  predicate Truthy(v: Value) {
    match v
    case IntV(i) => i != 0
    case StrV(s) => s != ""
    case BoolV(b) => b
    case NoneV => false
    case IntListV(xs) => xs != []
  }

  function ListItems(xs: seq<int>): string
    decreases |xs|
  {
    if |xs| == 0 then ""
    else if |xs| == 1 then IntToString(xs[0])
    else IntToString(xs[0]) + ", " + ListItems(xs[1..])
  }

  /** `f"{v}"`: how an option value is printed into a name. */
  function Str(v: Value): string {
    match v
    case IntV(i) => IntToString(i)
    case StrV(s) => s
    case BoolV(b) => if b then "True" else "False"
    case NoneV => "None"
    case IntListV(xs) => "[" + ListItems(xs) + "]"
  }

  /** `max_item_seq_len if max_item_seq_len else "INF"`, printed. */
  function MaxLenLabel(v: Value): string {
    if Truthy(v) then Str(v) else "INF"
  }

  /** An integer option or an unset one, as the argument parser delivers them. */
  predicate IntOrNone(v: Value) {
    v.IntV? || v.NoneV?
  }

  /** For an integer or unset maximum length, the label is "INF" exactly when no
      maximum applies (unset or zero). */
  lemma InfLabelIff(v: Value)
    requires IntOrNone(v)
    ensures MaxLenLabel(v) == "INF" <==> !Truthy(v)
  {
    if v.IntV? && v.i != 0 {
      IntToStringSigned(v.i);
      assert IntToString(v.i)[0] != "INF"[0];
    }
  }

  // ---------------------------------------------------------------- names

  /** The directory name that records the preprocessing configuration. */
  function ProcessedDirName(dataset: string, maxLen: Value, minLen: Value, tokLen: Value, sasLen: Value): string {
    dataset + "_maxlen@" + MaxLenLabel(maxLen) + "_minlen@" + Str(minLen) +
    "_toklen@" + Str(tokLen) + "_saslen@" + Str(sasLen) + "_processed"
  }

  /** The processed items table, one per tokenizer. */
  function ItemFileName(itemTable: string, tokenizerAbbr: string): string {
    itemTable + "_" + tokenizerAbbr + ".processed.tsv"
  }

  /** The processed interactions table. */
  function InterFileName(interTable: string): string {
    interTable + ".processed.tsv"
  }

  /** The saved array of tokenized ids and attention masks. */
  function ItemArrayFileName(itemTable: string, tokenizerAbbr: string): string {
    itemTable + "_" + tokenizerAbbr + ".processed.npy"
  }

  /** `PRETRAIN_MODEL_ABBR[plm_name]`, with the `KeyError` turned into the data
      module's `ValueError`. A list is unhashable: its `TypeError` is not caught. */
  function TokenizerAbbr(abbrs: map<string, string>, plmName: Value): (r: Result<string>)
    ensures r.Success? <==> plmName.StrV? && plmName.s in abbrs
    ensures r.Success? ==> r.value == abbrs[plmName.s]
    ensures r.Failure? && plmName.IntListV? ==> r.error == TypeMismatch
    ensures r.Failure? && !plmName.IntListV? ==> r.error == UnsupportedPlmName
  {
    match plmName
    case StrV(s) => if s in abbrs then Success(abbrs[s]) else Failure(UnsupportedPlmName)
    case IntListV(_) => Failure(TypeMismatch)
    case _ => Failure(UnsupportedPlmName)
  }

  lemma NoAtInInteger(i: int)
    ensures '@' !in IntToString(i)
  {
    var s := IntToString(i);
    IntToStringSigned(i);
    if AllDigits(s) {
      NoSeparatorInDigits(s, '@');
    } else {
      NoSeparatorInDigits(s[1..], '@');
      assert s == [s[0]] + s[1..];
    }
  }

  /** The directory name regrouped around its four `@` separators. */
  lemma ProcessedNameShape(d: string, m: string, a: string, t: string, s: string)
    ensures d + "_maxlen@" + m + "_minlen@" + a + "_toklen@" + t + "_saslen@" + s + "_processed"
      == (d + "_maxlen") + "@" + ((m + "_minlen") + "@" + ((a + "_toklen") + "@" +
         ((t + "_saslen") + "@" + (s + "_processed"))))
  {
  }

  /** The five `@`-separated pieces of a processed directory name. */
  lemma ProcessedNamePieces(d: string, m: string, a: string, t: string, s: string)
    requires '@' !in d && '@' !in m && '@' !in a && '@' !in t && '@' !in s
    ensures Split(d + "_maxlen@" + m + "_minlen@" + a + "_toklen@" + t + "_saslen@" + s + "_processed", '@')
      == [d + "_maxlen", m + "_minlen", a + "_toklen", t + "_saslen", s + "_processed"]
  {
    var ps := [d + "_maxlen", m + "_minlen", a + "_toklen", t + "_saslen", s + "_processed"];
    ProcessedNameShape(d, m, a, t, s);
    assert Join(ps[4..], '@') == s + "_processed";
    assert Join(ps[3..], '@') == (t + "_saslen") + "@" + (s + "_processed") by {
      assert ps[3..][1..] == ps[4..];
    }
    assert Join(ps[2..], '@') == (a + "_toklen") + "@" + Join(ps[3..], '@') by {
      assert ps[2..][1..] == ps[3..];
    }
    assert Join(ps[1..], '@') == (m + "_minlen") + "@" + Join(ps[2..], '@') by {
      assert ps[1..][1..] == ps[2..];
    }
    assert Join(ps, '@') == (d + "_maxlen") + "@" + Join(ps[1..], '@');
    assert forall i :: 0 <= i < |ps| ==> '@' !in ps[i];
    SplitJoin(ps, '@');
  }

  /** Integer options are recovered from the directory name: two configurations
      that share a processed directory agree on the dataset, the minimum length,
      the tokenized length, the SASRec length and on whether and which maximum
      length applies. */
  lemma ProcessedNameDeterminesOptions(
    d1: string, m1: Value, a1: Value, t1: Value, s1: Value,
    d2: string, m2: Value, a2: Value, t2: Value, s2: Value)
    requires '@' !in d1 && '@' !in d2
    requires IntOrNone(m1) && IntOrNone(m2)
    requires a1.IntV? && t1.IntV? && s1.IntV? && a2.IntV? && t2.IntV? && s2.IntV?
    requires ProcessedDirName(d1, m1, a1, t1, s1) == ProcessedDirName(d2, m2, a2, t2, s2)
    ensures d1 == d2 && a1 == a2 && t1 == t2 && s1 == s2
    ensures Truthy(m1) <==> Truthy(m2)
    ensures Truthy(m1) ==> m1 == m2
  {
    NoAtInInteger(a1.i); NoAtInInteger(t1.i); NoAtInInteger(s1.i);
    NoAtInInteger(a2.i); NoAtInInteger(t2.i); NoAtInInteger(s2.i);
    if m1.IntV? { NoAtInInteger(m1.i); }
    if m2.IntV? { NoAtInInteger(m2.i); }
    ProcessedNamePieces(d1, MaxLenLabel(m1), Str(a1), Str(t1), Str(s1));
    ProcessedNamePieces(d2, MaxLenLabel(m2), Str(a2), Str(t2), Str(s2));
    var p1 := [d1 + "_maxlen", MaxLenLabel(m1) + "_minlen", Str(a1) + "_toklen", Str(t1) + "_saslen", Str(s1) + "_processed"];
    var p2 := [d2 + "_maxlen", MaxLenLabel(m2) + "_minlen", Str(a2) + "_toklen", Str(t2) + "_saslen", Str(s2) + "_processed"];
    assert p1 == p2;
    assert p1[0] == p2[0] && p1[1] == p2[1] && p1[2] == p2[2] && p1[3] == p2[3] && p1[4] == p2[4];
    DropCommonSuffix(d1, d2, "_maxlen");
    DropCommonSuffix(MaxLenLabel(m1), MaxLenLabel(m2), "_minlen");
    DropCommonSuffix(Str(a1), Str(a2), "_toklen");
    DropCommonSuffix(Str(t1), Str(t2), "_saslen");
    DropCommonSuffix(Str(s1), Str(s2), "_processed");
    IntToStringInjective(a1.i, a2.i);
    IntToStringInjective(t1.i, t2.i);
    IntToStringInjective(s1.i, s2.i);
    InfLabelIff(m1);
    InfLabelIff(m2);
    if Truthy(m1) && Truthy(m2) {
      IntToStringInjective(m1.i, m2.i);
    }
  }

  /** The processed directory's name begins with the dataset's name. */
  lemma ProcessedDirNameStartsWithDataset(dataset: string, maxLen: Value, minLen: Value, tokLen: Value, sasLen: Value)
    ensures StartsWith(ProcessedDirName(dataset, maxLen, minLen, tokLen, sasLen), dataset)
  {
    var name := ProcessedDirName(dataset, maxLen, minLen, tokLen, sasLen);
    assert name[..|dataset|] == dataset by {
      forall i | 0 <= i < |dataset| ensures name[i] == dataset[i] { }
    }
  }

  /** For a supported dataset the processed directory sits directly inside
      `data/<dataset>/`. */
  lemma ProcessedDirUnderDataDir(dataset: string, name: string)
    requires KnownDataset(dataset)
    requires StartsWith(name, dataset)
    ensures GetDataConfigs(dataset).Success?
    ensures PathJoin(GetDataConfigs(dataset).value.dataDir, name) == "data/" + dataset + "/" + name
  {
    var dir := "data/" + dataset + "/";
    assert dir[|dir| - 1..] == "/";
    assert name[0] == dataset[0] != '/';
  }

  // ---------------------------------------------------------------- the disk

  /** A saved `.npy` array of `planes` stacked (items x width) matrices. */
  datatype ItemArray = ItemArray(planes: nat, rows: nat, width: Value)

  /** The facts about the file system the data modules look at. */
  class Disk {
    var dirs: set<string>
    var tables: map<string, nat>       // TSV path -> number of data rows
    var arrays: map<string, ItemArray> // `.npy` path -> shape
    var tensors: set<string>           // files written by `torch.save`

    /** The directories and tables, which `prepare_data` reads and writes. */
    function Snapshot(): Files
      reads this
    {
      Files(dirs, tables)
    }
  }

  datatype Files = Files(dirs: set<string>, tables: map<string, nat>)

  /** `os.path.exists(p)`: a directory or a file. */
  predicate Exists(f: Files, p: string) {
    p in f.dirs || p in f.tables
  }

  /** The side-effecting steps of `prepare_data`, named after the calls. */
  datatype Step =
    | PreparePrepareData  // DataPreprocessor.prepare_data
    | PrepareInters       // DataPreprocessor.prepare_inters
    | PrepareItems        // DataPreprocessor.prepare_items
    | MakeDirs            // os.makedirs(processed_dir)
    | SaveInters          // DataPreprocessor.save_inters
    | SaveItems           // DataPreprocessor.save_items
    | ReadItems           // pd.read_csv of the items table
    | SaveItemArray       // np.save of ids and masks
    | CallPreInference    // call_pre_inference
    | GatherResults       // gather_inference_results

  /** What the preprocessor produces in one run: the rows `save_inters` and
      `save_items` write to the two tables, and the count its `num_items` reports.
      Nothing here ties `numItems` to `itemRows`; that is the preprocessor's business. */
  datatype Produced = Produced(interRows: nat, itemRows: nat, numItems: nat)

  /** What one `prepare_data` call leaves on disk, which steps it ran and the item
      count it returns. */
  datatype Prepared = Prepared(files: Files, steps: seq<Step>, numItems: nat)

  function Prepare(f: Files, dir: string, intersPath: string, itemsPath: string, out: Produced): Prepared {
    if !Exists(f, dir) then
      Prepared(Files(f.dirs + {dir}, f.tables[intersPath := out.interRows][itemsPath := out.itemRows]),
        [PreparePrepareData, PrepareInters, PrepareItems, MakeDirs, SaveInters, SaveItems], out.numItems)
    else if itemsPath !in f.tables then
      Prepared(Files(f.dirs, f.tables[itemsPath := out.itemRows]),
        [PreparePrepareData, PrepareItems, SaveItems], out.numItems)
    else
      Prepared(f, [ReadItems], f.tables[itemsPath])
  }

  /** Whether `prepare_data` finds an items table and only reads it back. */
  predicate ReadsBack(f: Files, dir: string, itemsPath: string) {
    Exists(f, dir) && itemsPath in f.tables
  }

  /** After `prepare_data` the processed directory and the items table exist. The
      returned count is the table's length when it was read back and the
      preprocessor's `num_items` when it was written; it equals the rows in the
      table whenever the preprocessor's count agrees with what it saved. */
  lemma PrepareLeavesItemsTable(f: Files, dir: string, intersPath: string, itemsPath: string, out: Produced)
    ensures var p := Prepare(f, dir, intersPath, itemsPath, out);
      Exists(p.files, dir) && itemsPath in p.files.tables &&
      p.numItems == (if ReadsBack(f, dir, itemsPath) then f.tables[itemsPath] else out.numItems) &&
      p.files.tables[itemsPath] == (if ReadsBack(f, dir, itemsPath) then f.tables[itemsPath] else out.itemRows) &&
      (out.itemRows == out.numItems ==> p.files.tables[itemsPath] == p.numItems)
  {
  }

  /** A second `prepare_data` only reads the items table back: it writes nothing and
      returns the table's length, which is the first call's count when the
      preprocessor's `num_items` agrees with the rows it saved. */
  lemma PrepareIdempotent(f: Files, dir: string, intersPath: string, itemsPath: string, out: Produced, out': Produced)
    ensures var p := Prepare(f, dir, intersPath, itemsPath, out);
      var q := Prepare(p.files, dir, intersPath, itemsPath, out');
      q.files == p.files && q.steps == [ReadItems] && q.numItems == p.files.tables[itemsPath] &&
      (out.itemRows == out.numItems ==> q.numItems == p.numItems)
  {
    PrepareLeavesItemsTable(f, dir, intersPath, itemsPath, out);
  }

  /** Only the processed directory and its two tables change; the interactions table
      is written only together with the directory, so a directory that exists
      without it stays without it. */
  lemma PrepareFrame(f: Files, dir: string, intersPath: string, itemsPath: string, out: Produced)
    ensures var p := Prepare(f, dir, intersPath, itemsPath, out);
      p.files.dirs - {dir} == f.dirs - {dir} &&
      (forall path :: path != intersPath && path != itemsPath ==>
        (path in p.files.tables <==> path in f.tables) &&
        (path in f.tables ==> p.files.tables[path] == f.tables[path])) &&
      (intersPath != itemsPath ==> (intersPath in p.files.tables <==> intersPath in f.tables || !Exists(f, dir)))
  {
  }

  // ---------------------------------------------------------------- the data module

  /** A `TextSeqRecDataset`: `sequences` (item-id sequence, target) pairs over a
      shared tokenized table of `items` items. Its truth value is its length. */
  datatype Dataset = Dataset(sequences: nat, items: nat)

  predicate DatasetTruthy(d: Option<Dataset>) {
    d.Some? && d.value.sequences > 0
  }

  /** The lengths of the train, validation and test parts `ratio_split` returns. */
  datatype SplitSizes = SplitSizes(train: nat, val: nat, test: nat)

  /** `setup` reads the interactions table, then the items table; it returns the
      item count, or the `FileNotFoundError` of the first missing table. */
  function LoadTables(f: Files, intersPath: string, itemsPath: string): (r: Result<nat>)
    ensures r.Success? <==> intersPath in f.tables && itemsPath in f.tables
    ensures r.Success? ==> r.value == f.tables[itemsPath]
    ensures intersPath !in f.tables ==> r == Failure(FileNotFound(intersPath))
    ensures intersPath in f.tables && itemsPath !in f.tables ==> r == Failure(FileNotFound(itemsPath))
  {
    if intersPath !in f.tables then Failure(FileNotFound(intersPath))
    else if itemsPath !in f.tables then Failure(FileNotFound(itemsPath))
    else Success(f.tables[itemsPath])
  }

  /** What `__init__` derives from a configuration: the dataset's tables, the
      tokenizer abbreviation and the processed directory. */
  datatype Settings = Settings(dataConfigs: DataConfig, tokenizerAbbr: string, processedDir: string)

  /** `SeqDataModule.__init__`'s computation, in its order: the dataset lookup, the
      abbreviation lookup, then the directory name, whose last field needs the
      `sasrec_seq_len` attribute. */
  function SettingsFor(dataset: string, options: BaseOptions, sasrecSeqLen: Option<Value>, abbrs: map<string, string>): (r: Result<Settings>)
    ensures !KnownDataset(dataset) ==> r == Failure(UnknownDataset(dataset))
    ensures KnownDataset(dataset) && TokenizerAbbr(abbrs, options.plmName).Failure? ==>
      r == Failure(TokenizerAbbr(abbrs, options.plmName).error)
    ensures KnownDataset(dataset) && TokenizerAbbr(abbrs, options.plmName).Success? && sasrecSeqLen.None? ==>
      r == Failure(MissingAttribute("sasrec_seq_len"))
    ensures r.Success? <==> KnownDataset(dataset) && TokenizerAbbr(abbrs, options.plmName).Success? && sasrecSeqLen.Some?
    ensures r.Success? ==> (r.value.dataConfigs == GetDataConfigs(dataset).value &&
      r.value.tokenizerAbbr == abbrs[options.plmName.s])
  {
    var dataConfigs :- GetDataConfigs(dataset);
    var abbr :- TokenizerAbbr(abbrs, options.plmName);
    if sasrecSeqLen.None? then Failure(MissingAttribute("sasrec_seq_len"))
    else
      var name := ProcessedDirName(dataset, options.maxItemSeqLen, options.minItemSeqLen, options.tokenizedLen, sasrecSeqLen.value);
      Success(Settings(dataConfigs, abbr, PathJoin(dataConfigs.dataDir, name)))
  }

  /** The processed directory is `data/<dataset>/` followed by the name that records
      the options. */
  lemma SettingsProcessedDir(dataset: string, options: BaseOptions, sasrecSeqLen: Option<Value>, abbrs: map<string, string>)
    requires SettingsFor(dataset, options, sasrecSeqLen, abbrs).Success?
    ensures SettingsFor(dataset, options, sasrecSeqLen, abbrs).value.processedDir == "data/" + dataset + "/" +
      ProcessedDirName(dataset, options.maxItemSeqLen, options.minItemSeqLen, options.tokenizedLen, sasrecSeqLen.value)
  {
    var name := ProcessedDirName(dataset, options.maxItemSeqLen, options.minItemSeqLen, options.tokenizedLen, sasrecSeqLen.value);
    ProcessedDirNameStartsWithDataset(dataset, options.maxItemSeqLen, options.minItemSeqLen, options.tokenizedLen, sasrecSeqLen.value);
    ProcessedDirUnderDataDir(dataset, name);
  }

  /** The argument namespace `build_datamodule_config` reads; `--dataset` always has
      a value, every other attribute may be absent. */
  datatype Namespace = Namespace(dataset: string, attrs: map<string, Value>)

  /** The position of the first of `names` the namespace lacks (`|names|` when none
      is missing). */
  function FirstMissingIndex(names: seq<string>, attrs: map<string, Value>): (i: nat)
    ensures i <= |names|
    ensures forall j :: 0 <= j < i ==> names[j] in attrs
    ensures i < |names| ==> names[i] !in attrs
    decreases |names|
  {
    if |names| == 0 || names[0] !in attrs then 0
    else 1 + FirstMissingIndex(names[1..], attrs)
  }

  /** The first of `names` the namespace lacks: Python evaluates keyword arguments in
      order, so its `AttributeError` is the one raised. */
  function FirstMissing(names: seq<string>, attrs: map<string, Value>): (r: Option<string>)
    ensures r.None? <==> forall j :: 0 <= j < |names| ==> names[j] in attrs
  {
    var i := FirstMissingIndex(names, attrs);
    if i < |names| then Some(names[i]) else None
  }

  /** The keywords built from the namespace (defined when none is missing). */
  function Kwargs(names: seq<string>, attrs: map<string, Value>): (kw: map<string, Value>)
    ensures forall k :: k in kw <==> k in attrs && k in names
    ensures forall k :: k in kw ==> kw[k] == attrs[k]
  {
    map k | k in attrs && k in names :: attrs[k]
  }

  /** The attributes `SeqDataModule.build_datamodule_config` passes, after `dataset`. */
  const SeqArgNames: seq<string> := [
    "min_item_seq_len", "max_item_seq_len", "sasrec_seq_len", "tokenized_len",
    "batch_size", "num_workers", "pin_memory"]

  /** The attributes `PreInferSeqDataModule.build_datamodule_config` passes, after
      `dataset`. */
  const PreInferArgNames: seq<string> := [
    "plm_name", "plm_last_n_unfreeze", "pre_inference_batch_size", "pre_inference_precision",
    "pre_inference_devices", "pre_inference_num_workers", "min_item_seq_len", "max_item_seq_len",
    "sasrec_seq_len", "tokenized_len", "batch_size", "num_workers", "pin_memory"]

  /** Python binds `dataset` (and `self`) as named parameters of the configuration
      constructors, so neither is ever among the keyword arguments they receive. */
  lemma ArgNamesOmitBoundParameters(attrs: map<string, Value>)
    ensures "dataset" !in Kwargs(SeqArgNames, attrs) && "self" !in Kwargs(SeqArgNames, attrs)
    ensures "dataset" !in Kwargs(PreInferArgNames, attrs) && "self" !in Kwargs(PreInferArgNames, attrs)
  {
  }

  /** The two optional attributes assigned after construction, without validation. */
  function WithOverrides(o: BaseOptions, attrs: map<string, Value>): BaseOptions {
    o.(plmName := Get(attrs, "plm_name", o.plmName),
       plmLastNUnfreeze := Get(attrs, "plm_last_n_unfreeze", o.plmLastNUnfreeze))
  }

  /** A namespace without `plm_name` or `plm_last_n_unfreeze` keeps the defaults
      `facebook/opt-125m` and `0`; one with them gets their values as given. */
  lemma SeqConfigFallbacks(attrs: map<string, Value>)
    ensures var o := WithOverrides(BaseOptionsFrom(Kwargs(SeqArgNames, attrs)), attrs);
      o.plmName == (if "plm_name" in attrs then attrs["plm_name"] else StrV("facebook/opt-125m")) &&
      o.plmLastNUnfreeze == (if "plm_last_n_unfreeze" in attrs then attrs["plm_last_n_unfreeze"] else IntV(0))
  {
    var kw := Kwargs(SeqArgNames, attrs);
    assert "plm_name" !in kw && "plm_last_n_unfreeze" !in kw;
  }

  /** The overrides bypass validation: whether the configuration is accepted does not
      depend on the namespace's `plm_name` or `plm_last_n_unfreeze`. */
  lemma SeqConfigIgnoresOverrides(attrs: map<string, Value>, name: Value, unfreeze: Value, numHiddenLayers: nat)
    ensures var attrs' := attrs["plm_name" := name]["plm_last_n_unfreeze" := unfreeze];
      FirstMissing(SeqArgNames, attrs') == FirstMissing(SeqArgNames, attrs) &&
      SeqOutcome(Kwargs(SeqArgNames, attrs'), numHiddenLayers) == SeqOutcome(Kwargs(SeqArgNames, attrs), numHiddenLayers)
  {
    var attrs' := attrs["plm_name" := name]["plm_last_n_unfreeze" := unfreeze];
    assert "plm_name" !in SeqArgNames && "plm_last_n_unfreeze" !in SeqArgNames;
    assert Kwargs(SeqArgNames, attrs') == Kwargs(SeqArgNames, attrs);
    FirstMissingAgrees(SeqArgNames, attrs, attrs');
  }

  lemma {:induction false} FirstMissingAgrees(names: seq<string>, attrs: map<string, Value>, attrs': map<string, Value>)
    requires forall i :: 0 <= i < |names| ==> (names[i] in attrs <==> names[i] in attrs')
    ensures FirstMissingIndex(names, attrs) == FirstMissingIndex(names, attrs')
    decreases |names|
  {
    if |names| > 0 {
      FirstMissingAgrees(names[1..], attrs, attrs');
    }
  }

  class SeqDataModule {
    const dataset: string
    const dataConfigs: DataConfig
    const tokenizerAbbr: string
    const processedDir: string
    const tokenizedLen: Value
    var dataTrain: Option<Dataset>
    var dataVal: Option<Dataset>
    var dataTest: Option<Dataset>
    var numItems: Option<nat>   // unset until `setup` (or pre-inference `prepare_data`) runs

    constructor (dataset: string, settings: Settings, tokenizedLen: Value)
      ensures this.dataset == dataset && this.tokenizedLen == tokenizedLen
      ensures dataConfigs == settings.dataConfigs && tokenizerAbbr == settings.tokenizerAbbr
      ensures processedDir == settings.processedDir
      ensures dataTrain.None? && dataVal.None? && dataTest.None? && numItems.None?
    {
      this.dataset := dataset;
      this.tokenizedLen := tokenizedLen;
      dataConfigs := settings.dataConfigs;
      tokenizerAbbr := settings.tokenizerAbbr;
      processedDir := settings.processedDir;
      dataTrain, dataVal, dataTest := None, None, None;
      numItems := None;
    }

    function InterPath(): string {
      PathJoin(processedDir, InterFileName(dataConfigs.interTable))
    }

    function ItemsPath(): string {
      PathJoin(processedDir, ItemFileName(dataConfigs.itemTable, tokenizerAbbr))
    }

    function ItemArrayPath(): string {
      PathJoin(processedDir, ItemArrayFileName(dataConfigs.itemTable, tokenizerAbbr))
    }

    /** The guard of `setup`: some split is already loaded (and non-empty). */
    predicate Loaded()
      reads this
    {
      DatasetTruthy(dataTrain) || DatasetTruthy(dataVal) || DatasetTruthy(dataTest)
    }

    /** `SeqDataModule(dm_config)`, for a configuration object and the abbreviation
        table. */
    static method Create(config: DataModuleConfig, abbrs: map<string, string>) returns (r: Result<SeqDataModule>)
      ensures var s := SettingsFor(config.dataset, config.options, config.sasrecSeqLen, abbrs);
        (r.Failure? <==> s.Failure?) && (r.Failure? ==> r.error == s.error) &&
        (r.Success? ==> (fresh(r.value) && r.value.dataset == config.dataset &&
          r.value.dataConfigs == s.value.dataConfigs && r.value.tokenizerAbbr == s.value.tokenizerAbbr &&
          r.value.processedDir == s.value.processedDir && r.value.tokenizedLen == config.options.tokenizedLen &&
          r.value.dataTrain.None? && r.value.dataVal.None? && r.value.dataTest.None? && r.value.numItems.None?))
    {
      var settings :- SettingsFor(config.dataset, config.options, config.sasrecSeqLen, abbrs);
      var m := new SeqDataModule(config.dataset, settings, config.options.tokenizedLen);
      return Success(m);
    }

    /** `SeqDataModule.prepare_data`: the steps chosen by what already exists.
        `out` is what the preprocessor would produce. */
    method PrepareData(disk: Disk, out: Produced) returns (count: nat, steps: seq<Step>)
      modifies disk
      ensures Prepared(disk.Snapshot(), steps, count) ==
        Prepare(old(disk.Snapshot()), processedDir, InterPath(), ItemsPath(), out)
      ensures disk.arrays == old(disk.arrays) && disk.tensors == old(disk.tensors)
    {
      if !(processedDir in disk.dirs || processedDir in disk.tables) {
        steps := [PreparePrepareData, PrepareInters, PrepareItems];
        disk.dirs := disk.dirs + {processedDir};
        steps := steps + [MakeDirs];
        disk.tables := disk.tables[InterPath() := out.interRows];
        steps := steps + [SaveInters];
        disk.tables := disk.tables[ItemsPath() := out.itemRows];
        steps := steps + [SaveItems];
        count := out.numItems;
      } else if ItemsPath() !in disk.tables {
        steps := [PreparePrepareData, PrepareItems];
        disk.tables := disk.tables[ItemsPath() := out.itemRows];
        steps := steps + [SaveItems];
        count := out.numItems;
      } else {
        count := disk.tables[ItemsPath()];
        steps := [ReadItems];
      }
    }

    /** `SeqDataModule.setup`: load the tables and build the three datasets, unless
        one of them is already loaded. */
    method Setup(disk: Disk, sizes: SplitSizes) returns (r: Outcome)
      modifies this
      ensures old(Loaded()) ==> r == Pass && unchanged(this)
      ensures !old(Loaded()) ==> (
        var load := LoadTables(disk.Snapshot(), InterPath(), ItemsPath());
        (r.Fail? <==> load.Failure?) &&
        (r.Fail? ==> r.error == load.error && unchanged(this)) &&
        (r.Pass? ==> (numItems == Some(load.value) &&
          dataTrain == Some(Dataset(sizes.train, load.value)) &&
          dataVal == Some(Dataset(sizes.val, load.value)) &&
          dataTest == Some(Dataset(sizes.test, load.value)))))
      ensures r.Pass? && (sizes.train > 0 || sizes.val > 0 || sizes.test > 0) ==> Loaded()
    {
      if !DatasetTruthy(dataTrain) && !DatasetTruthy(dataVal) && !DatasetTruthy(dataTest) {
        if InterPath() !in disk.tables {
          return Fail(FileNotFound(InterPath()));
        }
        if ItemsPath() !in disk.tables {
          return Fail(FileNotFound(ItemsPath()));
        }
        var rows := disk.tables[ItemsPath()];
        numItems := Some(rows);
        dataTrain := Some(Dataset(sizes.train, rows));
        dataVal := Some(Dataset(sizes.val, rows));
        dataTest := Some(Dataset(sizes.test, rows));
      }
      r := Pass;
    }

    /** `PreInferSeqDataModule.prepare_data`: the base preparation, the items table
        read back into `num_items` and saved as a `(2, rows, tokenized_len)` array,
        then pre-inference unless the embeddings are already there. It returns the
        base count, not the re-read one. `alreadyInferenced` and `returnCode` are
        what the existence check and the pre-inference subprocess report;
        `gatheredFile` is the file, relative to the processed directory, that
        `gather_inference_results` saves the embeddings to. */
    method PreInferPrepareData(disk: Disk, out: Produced, alreadyInferenced: bool, returnCode: int, gatheredFile: string)
      returns (r: Result<nat>, steps: seq<Step>)
      modifies disk, this
      ensures var p := Prepare(old(disk.Snapshot()), processedDir, InterPath(), ItemsPath(), out);
        var rows := p.files.tables[ItemsPath()];
        ItemsPath() in p.files.tables &&
        disk.Snapshot() == p.files &&
        numItems == Some(rows) &&
        disk.arrays == old(disk.arrays)[ItemArrayPath() := ItemArray(2, rows, tokenizedLen)] &&
        steps == p.steps + [ReadItems, SaveItemArray] +
          (if alreadyInferenced then [] else [CallPreInference] + (if returnCode == 0 then [GatherResults] else [])) &&
        (r.Failure? <==> !alreadyInferenced && returnCode != 0) &&
        (r.Failure? ==> r.error == PreInferenceFailed) &&
        (r.Success? ==> r.value == p.numItems)
      ensures dataTrain == old(dataTrain) && dataVal == old(dataVal) && dataTest == old(dataTest)
      ensures disk.tensors == old(disk.tensors) +
        (if !alreadyInferenced && returnCode == 0 then {PathJoin(processedDir, gatheredFile)} else {})
    {
      var count, baseSteps := PrepareData(disk, out);
      PrepareLeavesItemsTable(old(disk.Snapshot()), processedDir, InterPath(), ItemsPath(), out);
      var rows := disk.tables[ItemsPath()];
      numItems := Some(rows);
      disk.arrays := disk.arrays[ItemArrayPath() := ItemArray(2, rows, tokenizedLen)];
      steps := baseSteps + [ReadItems, SaveItemArray];
      if !alreadyInferenced {
        steps := steps + [CallPreInference];
        if returnCode == 0 {
          steps := steps + [GatherResults];
          disk.tensors := disk.tensors + {PathJoin(processedDir, gatheredFile)};
        } else {
          return Failure(PreInferenceFailed), steps;
        }
      }
      r := Success(count);
    }

    /** `PreInferSeqDataModule.setup`: as `Setup`, but the item count is recorded
        before the pre-inferred embeddings `embsFile` are loaded, so a missing
        embedding file leaves the count set and the datasets unloaded. */
    method PreInferSetup(disk: Disk, sizes: SplitSizes, embsFile: string) returns (r: Outcome)
      modifies this
      ensures old(Loaded()) ==> r == Pass && unchanged(this)
      ensures !old(Loaded()) ==> (
        var load := LoadTables(disk.Snapshot(), InterPath(), ItemsPath());
        var embs := PathJoin(processedDir, embsFile);
        (r.Fail? <==> load.Failure? || embs !in disk.tensors) &&
        (load.Failure? ==> r.error == load.error && unchanged(this)) &&
        (load.Success? ==> numItems == Some(load.value)) &&
        (load.Success? && embs !in disk.tensors ==> (r.error == FileNotFound(embs) &&
          dataTrain == old(dataTrain) && dataVal == old(dataVal) && dataTest == old(dataTest))) &&
        (r.Pass? ==> (dataTrain == Some(Dataset(sizes.train, load.value)) &&
          dataVal == Some(Dataset(sizes.val, load.value)) &&
          dataTest == Some(Dataset(sizes.test, load.value)))))
      ensures r.Pass? && (sizes.train > 0 || sizes.val > 0 || sizes.test > 0) ==> Loaded()
    {
      if !DatasetTruthy(dataTrain) && !DatasetTruthy(dataVal) && !DatasetTruthy(dataTest) {
        if InterPath() !in disk.tables {
          return Fail(FileNotFound(InterPath()));
        }
        if ItemsPath() !in disk.tables {
          return Fail(FileNotFound(ItemsPath()));
        }
        var rows := disk.tables[ItemsPath()];
        numItems := Some(rows);
        var embs := PathJoin(processedDir, embsFile);
        if embs !in disk.tensors {
          return Fail(FileNotFound(embs));
        }
        dataTrain := Some(Dataset(sizes.train, rows));
        dataVal := Some(Dataset(sizes.val, rows));
        dataTest := Some(Dataset(sizes.test, rows));
      }
      r := Pass;
    }

    /** `SeqDataModule.build_datamodule_config`: a sequence configuration from the
        namespace, then `plm_name` and `plm_last_n_unfreeze` copied over when the
        namespace has them. */
    static method BuildConfig(args: Namespace, numHiddenLayers: nat) returns (r: Result<DataModuleConfig>)
      ensures var missing := FirstMissing(SeqArgNames, args.attrs);
        var kw := Kwargs(SeqArgNames, args.attrs);
        (missing.Some? ==> r == Failure(MissingAttribute(missing.value))) &&
        (missing.None? ==> ((r.Failure? <==> SeqOutcome(kw, numHiddenLayers).Fail?) &&
          (r.Failure? ==> r.error == SeqOutcome(kw, numHiddenLayers).error))) &&
        (r.Success? ==> (fresh(r.value) && r.value.dataset == args.dataset &&
          r.value.options == WithOverrides(BaseOptionsFrom(kw), args.attrs) &&
          r.value.sasrecSeqLen == Some(args.attrs["sasrec_seq_len"]) &&
          r.value.preInference.None?))
    {
      var missing := FirstMissing(SeqArgNames, args.attrs);
      if missing.Some? {
        return Failure(MissingAttribute(missing.value));
      }
      var kw := Kwargs(SeqArgNames, args.attrs);
      assert SeqArgNames[2] in args.attrs;
      ArgNamesOmitBoundParameters(args.attrs);
      var config :- DataModuleConfig.CreateSeq(args.dataset, kw, numHiddenLayers);
      ApplyOverrides(config, args.attrs);
      return Success(config);
    }

    /** The two `try: config.x = args.x except AttributeError` blocks. */
    static method ApplyOverrides(config: DataModuleConfig, attrs: map<string, Value>)
      modifies config
      ensures config.options == WithOverrides(old(config.options), attrs)
      ensures config.sasrecSeqLen == old(config.sasrecSeqLen) && config.preInference == old(config.preInference)
      ensures config.poolingMethod == old(config.poolingMethod) && config.nNegSampling == old(config.nNegSampling)
    {
      if "plm_name" in attrs {
        config.options := config.options.(plmName := attrs["plm_name"]);
      }
      if "plm_last_n_unfreeze" in attrs {
        config.options := config.options.(plmLastNUnfreeze := attrs["plm_last_n_unfreeze"]);
      }
    }

    /** `PreInferSeqDataModule.build_datamodule_config`: every attribute is required
        and passed to the pre-inference configuration, which validates them all. */
    static method BuildPreInferConfig(args: Namespace, numHiddenLayers: nat) returns (r: Result<DataModuleConfig>)
      ensures var missing := FirstMissing(PreInferArgNames, args.attrs);
        var kw := Kwargs(PreInferArgNames, args.attrs);
        (missing.Some? ==> r == Failure(MissingAttribute(missing.value))) &&
        (missing.None? ==> ((r.Failure? <==> PreInferOutcome(kw, numHiddenLayers).Fail?) &&
          (r.Failure? ==> r.error == PreInferOutcome(kw, numHiddenLayers).error))) &&
        (r.Success? ==> (fresh(r.value) && r.value.dataset == args.dataset &&
          r.value.options == BaseOptionsFrom(kw) &&
          r.value.sasrecSeqLen == Some(args.attrs["sasrec_seq_len"]) &&
          r.value.preInference == Some(PreInferOptionsFrom(kw))))
    {
      var missing := FirstMissing(PreInferArgNames, args.attrs);
      if missing.Some? {
        return Failure(MissingAttribute(missing.value));
      }
      var kw := Kwargs(PreInferArgNames, args.attrs);
      ArgNamesOmitBoundParameters(args.attrs);
      r := DataModuleConfig.CreatePreInfer(args.dataset, kw, numHiddenLayers);
    }
  }
}
