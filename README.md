# Recommendation on a large pretrained language model: a Dafny model of its bookkeeping

The repository trains sequential recommenders on top of an OPT language model. OPT is the
backbone: a stack of decoder layers. SASRec sits on the item embeddings that OPT produces.
This project models the logic around that core that is not tensor arithmetic:

- **Trainability and optimizer groups** (`seqrec_opt.dfy`, module `SeqRecOpt`):
  - which backbone parameters `_freeze_plm_layers` leaves trainable;
  - the per-layer learning-rate table and the name parsing of `_set_opt_lr`;
  - the weight-decay exemption;
  - how `configure_optimizers` splits every model parameter into backbone groups and one `the_rest` group;
  - the index of the last real item of a padded sequence.
- **The prompt-conditioned forward pass** (`prompt_forward.dfy`, module `PromptSeqRec`). `OPTPromptSeqRec` has:
  - a constructor guard;
  - masks that are concatenated;
  - per-layer key/value caches that are handed to the backbone and spliced with the postfix prompt;
  - the hidden states that each pooling method reads.
- **Data configuration** (`data_configs.dfy`, module `DataConfigs`):
  - the per-dataset table layout of `get_data_configs`;
  - the `*Config` constructors. Each pops its keyword arguments with defaults, validates them in source order and refuses leftovers.
- **Data modules** (`data_module.dfy`, module `DataModule`). `SeqDataModule` and `PreInferSeqDataModule` have:
  - the processed-directory and file names;
  - the tokenizer-abbreviation lookup;
  - the steps `prepare_data` chooses for a given disk;
  - the load-once guard of `setup`;
  - the pre-inference decision;
  - `build_datamodule_config`.
- `common.dfy` (module `Common`) holds the shared pieces:
  - the exceptions, each as a constructor of `Error`;
  - `Result`;
  - the Python string and list behaviour the code relies on: `str.split`, `int()`, `str()` of an int, `in` on strings, `os.path.join` and negative indexing.

## How the model represents the source

**Parameters.** A parameter is its dotted name and its `requires_grad` flag. `Backbone` is a class whose `params` field `FreezeLayers` updates in place. Learning rates and weight decays are `real`.

**Caches and masks.**
- A layer's key or value tensor becomes the sequence of positions it covers, each labelled by its origin: prefix prompt, input token, postfix prompt or last query.
- A mask is the 0/1 row of one batch element.
- The backbone `self.opt` is abstract. A pass extends every layer of the cache by its inputs. It refuses a mask whose length is not the cache length plus the input length, and a cache with the wrong number of layers.

**Keyword arguments.**
- A keyword-argument dictionary is a `map<string, Value>`.
- `Value` covers the Python objects the options take: int, str, bool, `None` and a list of ints.
- Comparisons follow Python: a bool orders as 0/1, and str, `None` or a list compared with an int raise `TypeError`.
- Each `**kwargs` call hands the callee a fresh dictionary. So each constructor pops from its own local map, and the subclass pops before calling its parent.

**The file system.** A `Disk` object records:
- which directories exist;
- how many data rows each TSV table holds;
- each saved `.npy` array's shape;
- which `torch.save` files exist.

**Unseen code becomes parameters.** What the data preprocessor, `ratio_split`, `inferenced_embs_exists` and `call_pre_inference` compute is passed in.

**The layer count.** `AutoConfig.from_pretrained(plm_name).num_hidden_layers` becomes a `numHiddenLayers` parameter.

## Where the code differs from what its names and comments suggest

- The deepest layer gets `lr * decay`, not `lr`: the table is `lr * decay^(n-i)` for `i < n` (`SeqRecOpt.DeepestLayerLr`).
- `the_rest` also collects frozen backbone parameters. It takes every model parameter whose name is not a tuning name, and the tuning list has already been cut down to the trainable parameters (`SeqRecOpt.FrozenBackboneParamInRest`).
- OPT's layer norms are named `self_attn_layer_norm.weight` and `final_layer_norm.weight`. The exemption list looks for `LayerNorm.weight`, so these layer norms keep their weight decay (`SeqRecOpt.OptLayerNormWeightsDecayed`).
- The postfix splice uses `zip`, which truncates to the shorter of the two caches (`PromptSeqRec.SplicePostfix`).
- The item table's `filed_type` keys are `newsid` and `title` for every dataset. For `hm` and `bilibili` these are not among the columns read (`DataConfigs.ItemFieldTypesIgnoreDataset`).
- `SeqDataModule.build_datamodule_config` assigns `plm_name` and `plm_last_n_unfreeze` after the configuration is built, so these two values are never validated (`DataModule.SeqConfigIgnoresOverrides`).
- Whether the directory exists is the only thing that decides if `prepare_data` writes the interactions table. A processed directory that lacks that table keeps lacking it, and `setup` then raises `FileNotFoundError` (`DataModule.PrepareFrame`, `DataModule.SeqDataModule.Setup`).
- In `_get_opt_output`, `pooling_method` `last` or `mean_last` without a last query reads an unbound local. So does any unknown method name. The model reports this as `UnboundName`, the same error for both cases.

## Model

| member | source | states |
|---|---|---|
| SeqRecOpt.LayerPrefix | models/seqrec_opt.py:44-47 | definition: `decoder.layers.<k>.`, the prefix torch gives the parameters of `decoder.layers[k]` |
| SeqRecOpt.InLayer | models/seqrec_opt.py:44-47 | definition: the parameter belongs to `decoder.layers[k]` |
| SeqRecOpt.InLastLayers | models/seqrec_opt.py:40-47 | definition: the parameter belongs to one of `decoder.layers[-n:]`, the layers `k` with `layers - n <= k < layers` |
| SeqRecOpt.UnfrozenBy | models/seqrec_opt.py:31-47 | definition: the flag a parameter ends with after freezing, namely trainable for `-1`, and in the last `n` layers for `n > 0` |
| SeqRecOpt.Backbone.FreezeLayers | models/seqrec_opt.py:31-47 | Raises the ValueError exactly when `last_n_unfreeze < -1` or `> num_hidden_layers`, changing no flag. Otherwise each flag becomes: `n == -1`, or `n > 0` and the parameter lies in one of the last `n` decoder layers. `-1` unfreezes everything and `0` freezes everything; names and order are kept |
| SeqRecOpt.LayerMembershipIsUnique | models/seqrec_opt.py:45-47 | A parameter name lies in at most one decoder layer `decoder.layers.<k>.` |
| SeqRecOpt.EmbeddingsInNoLayer | models/seqrec_opt.py:44-47 | A `decoder.embed_` parameter belongs to no decoder layer |
| SeqRecOpt.UnfrozenLayerIff | models/seqrec_opt.py:44-47 | For `n > 0`, a parameter of layer `k` stays trainable iff `layers - n <= k < layers` |
| SeqRecOpt.EmbeddingsStayFrozen | models/seqrec_opt.py:40-47 | Unless `n == -1`, the embedding parameters end up frozen |
| SeqRecOpt.LayerLrs | models/seqrec_opt.py:116 | The table has exactly one rate per layer; definition: layer `i` gets `lr * decay^(n-i)` |
| SeqRecOpt.DeepestLayerLr | models/seqrec_opt.py:115-116 | The deepest layer's rate is `lr * decay`, not `lr` |
| SeqRecOpt.LayerLrsNonDecreasing | models/seqrec_opt.py:116 | For `0 < decay <= 1` and `lr >= 0`, the rates are non-negative and do not decrease from the first layer to the last |
| SeqRecOpt.PowAntitone | models/seqrec_opt.py:116 | A power of a decay in [0, 1] does not grow with the exponent |
| SeqRecOpt.LearningRateFor | models/seqrec_opt.py:119-126 | A selected rate is always an entry of the table, and an empty table (no layers) always fails. The only errors are IndexError and, for a `decoder.layers` name whose third segment is not an integer, the ValueError of `int()` naming that segment. Outside layer names it fails iff the table is empty |
| SeqRecOpt.LayerParamLr | models/seqrec_opt.py:120-122 | A name `decoder.layers.<k>.<rest>` with `k` below the layer count gets `lrs[k]` |
| SeqRecOpt.EmbeddingParamLr | models/seqrec_opt.py:123-124 | A `decoder.embed_` name gets `lrs[0]` |
| SeqRecOpt.OtherParamLr | models/seqrec_opt.py:125-126 | Any other name gets `lrs[-1]` |
| SeqRecOpt.ExemptFromWeightDecay | models/seqrec_opt.py:117-127 | definition: the name contains `bias` or `LayerNorm.weight` |
| SeqRecOpt.WeightDecayFor | models/seqrec_opt.py:117-130 | The decay is `0.0` or the given one. It is `0.0` for names containing `bias` or `LayerNorm.weight`. For a non-zero decay it is `0.0` only for those names |
| SeqRecOpt.BiasNotDecayed | models/seqrec_opt.py:117-128 | Every `...bias` parameter gets weight decay `0.0` |
| SeqRecOpt.NotContainedWithoutFirstChar | models/seqrec_opt.py:127 | A string lacking the first character of `sub` does not contain `sub` |
| SeqRecOpt.LayerParamDecayed | models/seqrec_opt.py:127-130 | A layer parameter whose suffix has no `b` and no `L` keeps the given weight decay |
| SeqRecOpt.OptLayerNormWeightsDecayed | models/seqrec_opt.py:117-130 | OPT's `self_attn_layer_norm.weight` and `final_layer_norm.weight` in any layer keep the given weight decay |
| SeqRecOpt.GroupFor | models/seqrec_opt.py:119-130 | One group per parameter. It fails exactly when rate selection fails, with that error. Otherwise it holds that parameter alone, under its name, with a table rate and the decay rule's value |
| SeqRecOpt.BuildGroups | models/seqrec_opt.py:119-131 | definition: the first loop of `_set_opt_lr`, one group per parameter in order, stopping at the first name that selects no rate |
| SeqRecOpt.BuildGroupsSuccess | models/seqrec_opt.py:119-131 | The loop completes iff every name selects a rate, and then yields exactly one group per parameter, in `named_parameters` order |
| SeqRecOpt.BuildGroupsFirstFailure | models/seqrec_opt.py:119-131 | A failing loop raises the error of the first parameter whose rate selection fails, and every earlier parameter succeeded |
| SeqRecOpt.BuildGroupsStopsAtFailure | models/seqrec_opt.py:119-131 | Once a prefix of the parameters fails, later parameters do not change the outcome |
| SeqRecOpt.KeepTrainable | models/seqrec_opt.py:133-135 | Keeps only groups of the input; definition: those whose parameter is trainable, in order |
| SeqRecOpt.KeepTrainableGroups | models/seqrec_opt.py:133-135 | The filter keeps exactly the groups of the trainable parameters, in order |
| SeqRecOpt.TuningGroups | models/seqrec_opt.py:113-136 | definition: the grouping loop followed by the trainable filter |
| SeqRecOpt.TuningGroupsSpec | models/seqrec_opt.py:113-136 | `_set_opt_lr` fails iff some backbone name selects no rate (first failure wins). Otherwise it returns exactly the trainable parameters, one group each, in order, each with its rate and decay |
| SeqRecOpt.Backbone.SetOptLr | models/seqrec_opt.py:113-136 | The two loops compute the tuning groups that `TuningGroupsSpec` characterises |
| SeqRecOpt.TrainableParams | models/seqrec_opt.py:133-135 | Keeps only trainable parameters, drawn from the input |
| SeqRecOpt.TrainableParamsComplete | models/seqrec_opt.py:133-135 | Every trainable parameter is kept |
| SeqRecOpt.TrainableParamsUnique | models/seqrec_opt.py:133-135 | Filtering keeps names unique |
| SeqRecOpt.RestParams | models/seqrec_opt.py:154-157 | Only parameters of the model whose names are not tuning names |
| SeqRecOpt.RestParamsComplete | models/seqrec_opt.py:154-157 | Every model parameter whose name is not a tuning name is collected |
| SeqRecOpt.Qualified | models/seqrec_opt.py:151-155 | The model's own `named_parameters` see the backbone's parameters under `opt.`-prefixed names, flags unchanged |
| SeqRecOpt.ModelParameters | models/seqrec_opt.py:151-155 | definition: the whole model's parameters, the backbone's under `opt.` followed by the recommender's own |
| SeqRecOpt.TuningNames | models/seqrec_opt.py:151-153 | The tuning names are `"opt." + name` of each group, in order |
| SeqRecOpt.TuningNamesOfGroups | models/seqrec_opt.py:150-153 | The tuning names are those of the trainable backbone parameters |
| SeqRecOpt.CollectRest | models/seqrec_opt.py:154-157 | The loop gathers the parameters `RestParams` describes |
| SeqRecOpt.OptimizerFor | models/seqrec_opt.py:138-166 | definition: plain AdamW when nothing is unfrozen, otherwise the tuning groups followed by `the_rest` |
| SeqRecOpt.ConfigureOptimizers | models/seqrec_opt.py:138-166 | Computes the optimizer that `OptimizerForSpec` characterises |
| SeqRecOpt.OptimizerForSpec | models/seqrec_opt.py:138-166 | With `plm_last_n_unfreeze == 0`: plain AdamW over all parameters with `lr` and `weight_decay`. Otherwise it fails iff some backbone name selects no rate, else it has one group per trainable backbone parameter followed by `the_rest`. `the_rest` holds every parameter not named by a tuning group, with the model's `lr` and `weight_decay` |
| SeqRecOpt.FrozenBackboneParamInRest | models/seqrec_opt.py:150-157 | With unique names, a frozen backbone parameter is not a tuning name and lands in `the_rest` |
| SeqRecOpt.TrainableBackboneParamGroupedOnce | models/seqrec_opt.py:150-157 | With unique names, a trainable backbone parameter is named by exactly one tuning group and is not in `the_rest` |
| SeqRecOpt.HeadParamInRest | models/seqrec_opt.py:154-157 | A parameter outside the backbone always lands in `the_rest` |
| SeqRecOpt.LastItemIndex | models/seqrec_opt.py:81 | definition: the sum of the item mask minus one |
| SeqRecOpt.SumOfBinaryMask | models/seqrec_opt.py:81 | A 0/1 mask sums to between 0 and its length; it sums to 0 iff it is all zeros |
| SeqRecOpt.LastItemIndexInRange | models/seqrec_opt.py:81 | For a 0/1 mask, `sum(mask) - 1` lies in `[-1, len)`. It is `-1` iff the mask is empty of items |
| SeqRecOpt.SumOfOnes | models/seqrec_opt.py:81 | A mask of `k` ones sums to `k` |
| SeqRecOpt.SumOfOnesThenZeros | models/seqrec_opt.py:446 | A right-padded mask of `k` ones then zeros sums to `k` |
| SeqRecOpt.LastItemIndexOfRightPaddedMask | models/seqrec_opt.py:446-448 | For `k > 0` ones followed by padding, the index is `k - 1`, the last real item; every later position is padding |
| SeqRecOpt.GatherLast | models/seqrec_opt.py:81-83 | Gathering at the last index succeeds iff it lies in range, and returns that position. For a 0/1 mask as long as the sequence, it succeeds exactly when the sequence holds at least one real item |
| PromptSeqRec.PromptCache | models/seqrec_opt.py:244-262 | A prompt encoder's cache holds the same prompt positions in every layer |
| PromptSeqRec.Forward | models/seqrec_opt.py:249-258 | The abstract backbone accepts a pass iff the mask covers exactly the cached and the new positions and the cache has one entry per layer; its cache then has the mask's length in every layer |
| PromptSeqRec.ForwardExtendsCache | models/seqrec_opt.py:249-253 | A pass over a cache of the right length appends the inputs to every layer |
| PromptSeqRec.ForwardStartsCache | models/seqrec_opt.py:255-258 | A pass without a cache yields the inputs in every layer |
| PromptSeqRec.HasPrefixEncoder | models/seqrec_opt.py:201 | definition: a prefix prompt encoder is built iff `pre_seq_len > 0` |
| PromptSeqRec.HasPostfixEncoder | models/seqrec_opt.py:209 | definition: a postfix prompt encoder is built iff `post_seq_len > 0` |
| PromptSeqRec.HasLastQueryEncoder | models/seqrec_opt.py:219 | definition: a last-query encoder is built iff `last_query_len > 0` |
| PromptSeqRec.NewPromptSeqRec | models/seqrec_opt.py:201-221 | Construction fails with AssertionError iff `post_seq_len > 0` and `last_query_len < 1`; otherwise the configuration is kept |
| PromptSeqRec.PostfixImpliesLastQuery | models/seqrec_opt.py:209-221 | A constructed model with a postfix encoder always has a last-query encoder |
| PromptSeqRec.SplicePostfix | models/seqrec_opt.py:263-271 | The spliced cache has as many layers as the shorter of the two caches (`zip`). Each layer holds the old keys and values followed by the prompt's |
| PromptSeqRec.SpliceExtendsEveryLayer | models/seqrec_opt.py:264-271 | When both caches cover every layer, every layer keeps its old positions as a prefix and gains the postfix positions |
| PromptSeqRec.PoolingBound | models/seqrec_opt.py:286-297 | definition: pooling `mean`, or `last`/`mean_last` with a last query, binds `item_embs` |
| PromptSeqRec.GetOptOutput | models/seqrec_opt.py:237-298 | Preconditions:<br>- success iff the postfix/query mask can be built and the cache splice lines up, and the pooling method is bound;<br>- the error is `NegativeDimension`, a mask/cache mismatch or `UnboundName` by case.<br>Lengths and contents:<br>- the first mask is `pre` ones then the real mask when `pre > 0`, else the real mask;<br>- the first cache holds prefix and tokens;<br>- the second mask is the first followed by `post + last_query` ones;<br>- the spliced cache adds `post` positions;<br>- the query pass exists iff `last_query_len > 0`, and its cache lines up with the second mask;<br>- each pooling method reads the states named |
| DataConfigs.KnownDataset | datamodules/configs.py:12-36 | definition: one of MIND_small, MIND_large, hm and bilibili, the datasets the branches accept |
| DataConfigs.LayoutFor | datamodules/configs.py:12-39 | Only the four supported datasets have a layout |
| DataConfigs.GetDataConfigs | datamodules/configs.py:4-81 | Raises the ValueError iff the dataset is not one of MIND_small, MIND_large, hm, bilibili. Otherwise `data_dir` is `data/<dataset>/`, there are exactly two tables, and each table's path is `data_dir + table + ".tsv"` |
| DataConfigs.TableNames | datamodules/configs.py:12-35 | The interaction table is always `behaviors`. The item table is `news` for MIND, `items` for hm and `videos` for bilibili |
| DataConfigs.ColumnsRenamedToCanonicalFields | datamodules/configs.py:5-8 | Every column read is renamed, onto `user_id`/`interactions` and `item_id`/`item_text`; only the interaction table has token-sequence fields |
| DataConfigs.ItemFieldTypesIgnoreDataset | datamodules/configs.py:55-61 | The item table's field types name `newsid` and `title` for every dataset, columns hm and bilibili do not read |
| DataConfigs.AsNumber | datamodules/configs.py:104-116 | Only ints and bools order against an int |
| DataConfigs.CheckAtLeast | datamodules/configs.py:104-115 | The check passes iff the value orders against an int and is at least the bound |
| DataConfigs.CheckAtMost | datamodules/configs.py:116 | The check passes iff the value orders against an int and is at most the bound |
| DataConfigs.CheckLeftover | datamodules/configs.py:118-119 | Passes iff no keyword is left |
| DataConfigs.BaseOptionsFrom | datamodules/configs.py:87-97 | definition: each base option read from the keywords, or its default |
| DataConfigs.CheckBaseOptions | datamodules/configs.py:101-116 | definition: the asserts and the ValueError in source order, the first failure winning |
| DataConfigs.BaseOutcome | datamodules/configs.py:84-119 | definition: the checks, then the leftover-keyword check |
| DataConfigs.BaseOutcomeIff | datamodules/configs.py:84-119 | `DataModuleConfig` succeeds iff `split_type` is ratio/leave_one_out, `min_item_seq_len` and `tokenized_len` are positive, `sampling_n` is unset or at least 1000, `max_item_seq_len` is unset or positive and at least the minimum, `plm_last_n_unfreeze` is unset or within `[-1, num_hidden_layers]`, and no keyword is unknown |
| DataConfigs.DefaultsValid | datamodules/configs.py:87-97 | With no keywords every default applies and is valid |
| DataConfigs.Get | datamodules/configs.py:87-97 | definition: `kwargs.pop(key, default)` as a read, the value when present and the default otherwise |
| DataConfigs.PopBaseOptions | datamodules/configs.py:87-97 | The pops read each option or its default and leave exactly the other keywords |
| DataConfigs.PreInferOptionsFrom | datamodules/configs.py:132-138 | definition: each pre-inference option read from the keywords, or its default |
| DataConfigs.PopPreInferOptions | datamodules/configs.py:132-138 | The pre-inference pops read each option or its default and leave exactly the other keywords |
| DataConfigs.DataModuleConfig.Create | datamodules/configs.py:84-119 | Fails iff the validation fails, with the first failing check's error; otherwise the options are those popped |
| DataConfigs.DataModuleConfig.CreateSeq | datamodules/configs.py:122-127 | Checks `sasrec_seq_len > 0` before the parent runs, and hides that keyword from it |
| DataConfigs.DataModuleConfig.CreatePreInfer | datamodules/configs.py:130-145 | Pops the pre-inference options, builds the sequence configuration, then refuses `plm_last_n_unfreeze == -1` |
| DataConfigs.DataModuleConfig.CreateAllFreeze | datamodules/configs.py:148-156 | `pooling_method` (default `mean`) is taken out of the keywords before the pre-inference constructor runs. On success it holds the base options, `sasrec_seq_len` (default 20), the pre-inference options and the pooling method, with no negative sampling |
| DataConfigs.DataModuleConfig.CreatePointWise | datamodules/configs.py:159-163 | Checks `n_neg_sampling > 0` before the parent runs, and hides that keyword from it |
| DataConfigs.BaseOptionsIgnoreOtherKeys | datamodules/configs.py:125-139 | Removing keywords no base option reads leaves the base options unchanged |
| DataConfigs.SeqOutcome | datamodules/configs.py:122-127 | definition: the `sasrec_seq_len > 0` check, then the base outcome without that keyword |
| DataConfigs.PreInferOutcome | datamodules/configs.py:130-145 | definition: the sequence outcome without the pre-inference keywords, then the refusal of `-1` |
| DataConfigs.PointWiseOutcome | datamodules/configs.py:159-163 | definition: the `n_neg_sampling > 0` check, then the base outcome without that keyword |
| DataConfigs.BaseOutcomeUnrecognized | datamodules/configs.py:118-119 | Only the leftover check reports unrecognized keywords, and it reports exactly those no base option popped |
| DataConfigs.SeqKeyNeverUnrecognized | datamodules/configs.py:122-127 | `sasrec_seq_len` is never reported as unrecognized; any other unknown keyword is |
| DataConfigs.PreInferKeysNeverUnrecognized | datamodules/configs.py:130-139 | Pre-inference options and `sasrec_seq_len` are never reported as unrecognized |
| DataConfigs.PointWiseKeyNeverUnrecognized | datamodules/configs.py:159-163 | `n_neg_sampling` is never reported as unrecognized |
| DataConfigs.PreInferUnfreezeInRange | datamodules/configs.py:130-145 | An accepted pre-inference configuration has `plm_last_n_unfreeze` unset or within `[0, num_hidden_layers]` |
| DataModule.TokenizerAbbr | datamodules/datamodule.py:38-41 | The lookup succeeds iff `plm_name` is a known string. An unknown name raises the module's ValueError; a list's TypeError escapes |
| DataModule.MaxLenLabel | datamodules/datamodule.py:43 | definition: the maximum length as Python prints it, or `INF` when it is falsy |
| DataModule.InfLabelIff | datamodules/datamodule.py:43 | For an int or unset maximum, the label is `INF` exactly when the maximum is unset or zero |
| DataModule.ProcessedDirName | datamodules/datamodule.py:44-52 | definition: the `<dataset>_maxlen@…_minlen@…_toklen@…_saslen@…_processed` name |
| DataModule.ItemFileName | datamodules/datamodule.py:89 | definition: `<item_table>_<abbr>.processed.tsv` |
| DataModule.InterFileName | datamodules/datamodule.py:123 | definition: `<inter_table>.processed.tsv` |
| DataModule.ItemArrayFileName | datamodules/datamodule.py:279 | definition: `<item_table>_<abbr>.processed.npy` |
| DataModule.ProcessedNamePieces | datamodules/datamodule.py:44-52 | The directory name splits at `@` into its five fields |
| DataModule.ProcessedNameDeterminesOptions | datamodules/datamodule.py:43-52 | Two configurations with integer options that share a processed directory agree on dataset, minimum, tokenized and SASRec lengths, and on the maximum length when one applies |
| DataModule.ProcessedDirNameStartsWithDataset | datamodules/datamodule.py:44-52 | The processed directory's name begins with the dataset's name |
| DataModule.ProcessedDirUnderDataDir | datamodules/datamodule.py:44-52 | For a supported dataset, `os.path.join` puts the name directly under `data/<dataset>/` |
| DataModule.SettingsFor | datamodules/datamodule.py:35-52 | `__init__` fails first on an unknown dataset, then on an unsupported `plm_name`, then on a configuration without `sasrec_seq_len`; otherwise it keeps the dataset's tables and the abbreviation |
| DataModule.SettingsProcessedDir | datamodules/datamodule.py:43-52 | The processed directory is `data/<dataset>/<dataset>_maxlen@..._processed` |
| DataModule.SeqDataModule.Create | datamodules/datamodule.py:28-56 | Construction fails exactly as `SettingsFor` does; a new module has no datasets loaded |
| DataModule.Prepare | datamodules/datamodule.py:75-106 | definition, three cases:<br>- a missing directory runs prepare_data, prepare_inters, prepare_items, makedirs, save_inters, save_items and returns `num_items`;<br>- a missing items file runs only prepare_data, prepare_items, save_items and returns `num_items`;<br>- otherwise it reads the table's length back and writes nothing. |
| DataModule.PrepareLeavesItemsTable | datamodules/datamodule.py:75-106 | After `prepare_data` the directory and the items table exist. The count is the table's length when it is read back, and the preprocessor's `num_items` when the table is written. It equals the table's rows when `num_items` agrees with the rows `save_items` wrote |
| DataModule.PrepareIdempotent | datamodules/datamodule.py:75-106 | A second `prepare_data` only reads the items table back: it writes nothing and returns the table's length. That is the first call's count when `num_items` agrees with the rows saved |
| DataModule.PrepareFrame | datamodules/datamodule.py:75-98 | Only the processed directory and its two tables change. The interactions table is written only when the directory is created |
| DataModule.SeqDataModule.InterPath | datamodules/datamodule.py:122-123 | definition: `<inter_table>.processed.tsv` joined onto the processed directory |
| DataModule.SeqDataModule.ItemsPath | datamodules/datamodule.py:89-90 | definition: `<item_table>_<abbr>.processed.tsv` joined onto the processed directory, read again at lines 265-266 |
| DataModule.SeqDataModule.ItemArrayPath | datamodules/datamodule.py:279-280 | definition: `<item_table>_<abbr>.processed.npy` joined onto the processed directory |
| DataModule.SeqDataModule.PrepareData | datamodules/datamodule.py:58-106 | The new disk, the steps run and the returned count are exactly those of `Prepare` for the disk as it was; arrays and tensor files are untouched |
| DataModule.LoadTables | datamodules/datamodule.py:120-130 | Loading succeeds iff both tables exist, raising FileNotFoundError for the interactions table first; the count is the items table's rows |
| DataModule.DatasetTruthy | datamodules/datamodule.py:116 | definition: a split is truthy when it is set and holds at least one sequence |
| DataModule.SeqDataModule.Loaded | datamodules/datamodule.py:116 | definition: some split is truthy, the condition under which `setup` (also at line 318) does nothing |
| DataModule.SeqDataModule.Setup | datamodules/datamodule.py:108-166 | The guard:<br>- with any dataset loaded, nothing changes;<br>- otherwise a missing table changes nothing and raises, and success sets the item count and three datasets over the same items;<br>- a non-empty split makes a second call a no-op. |
| DataModule.SeqDataModule.PreInferPrepareData | datamodules/datamodule.py:259-314 | Steps and result:<br>- runs the base preparation, records the re-read count and saves a `(2, N, tokenized_len)` array;<br>- runs pre-inference only when the embeddings are absent;<br>- a non-zero return code raises RuntimeError; a zero one gathers, which adds the gathered embedding file and nothing else to the tensor files;<br>- it returns the base count, which can differ from the re-read count that `num_items` and the array use. |
| DataModule.SeqDataModule.PreInferSetup | datamodules/datamodule.py:316-387 | As `Setup`, but a missing embedding file raises after the item count is set, leaving the datasets unloaded |
| DataModule.Kwargs | datamodules/datamodule.py:229-238 | The keywords passed are exactly the listed argument names the namespace has, each with the namespace's value. The lists are `SeqArgNames` (lines 229-238) and `PreInferArgNames` (lines 419-434) |
| DataModule.ArgNamesOmitBoundParameters | datamodules/datamodule.py:229-238 | Neither `dataset` nor `self` is among the keywords either builder passes |
| DataModule.FirstMissingIndex | datamodules/datamodule.py:229-238 | The position of the first attribute the namespace lacks; every earlier one is present |
| DataModule.FirstMissing | datamodules/datamodule.py:419-434 | No attribute is missing iff all are present |
| DataModule.WithOverrides | datamodules/datamodule.py:239-250 | definition: `plm_name` and `plm_last_n_unfreeze` replaced by the namespace's values when present |
| DataModule.SeqConfigFallbacks | datamodules/datamodule.py:239-250 | Without `plm_name` or `plm_last_n_unfreeze` in the arguments, the defaults `facebook/opt-125m` and `0` stay; with them, their values are used |
| DataModule.SeqConfigIgnoresOverrides | datamodules/datamodule.py:239-250 | Whether the configuration is accepted does not depend on the two overridden attributes |
| DataModule.FirstMissingAgrees | datamodules/datamodule.py:229-238 | Namespaces with the same attributes present fail on the same missing one |
| DataModule.SeqDataModule.ApplyOverrides | datamodules/datamodule.py:239-250 | Copies the two attributes when present and changes nothing else |
| DataModule.SeqDataModule.BuildConfig | datamodules/datamodule.py:227-251 | The first missing argument raises AttributeError; otherwise the sequence configuration's outcome, with the two overrides applied |
| DataModule.SeqDataModule.BuildPreInferConfig | datamodules/datamodule.py:417-435 | Every attribute is required, first missing wins; otherwise the pre-inference configuration's outcome |

## Left out

- Tensor arithmetic is not modelled: `mean_pooling`, `last_pooling`, the fusion MLP, softmax, the loss and everything the backbone computes. The model only records which hidden states each pooling reads.
- The internals of `PromptEncoder`, `DeepPromptEncoder` and `PartialOPTModel` are not part of this model. A prompt cache is a per-layer run of prompt positions of the configured length.
- `PromptSeqRec.GetOptOutput`: requires a backbone with at least one decoder layer. With none, no cache length could be refused, and OPT always has layers.
- `PromptSeqRec.GetOptOutput`: models one batch row. The batch dimension and the `(B, L_sas)` reshaping are left out.
- `SeqRecOpt.LearningRateFor`: `int()` accepts an optional sign and ASCII digits only. Python also accepts surrounding whitespace, underscores and non-ASCII digits, which parameter names do not contain.
- `get_topk_ranks` and the metric accumulators are left out (not part of this model), as is `PreInferOPTSeqRec`.
- `AutoConfig.from_pretrained` is replaced by the `numHiddenLayers` parameter. Its download failure for an unknown model name is not modelled.
- File I/O is abstract:
  - `os.makedirs` adds only the processed directory itself, not missing parents;
  - a table is its row count. The preprocessor's row counts, `ratio_split`'s split sizes, `inferenced_embs_exists`' answer and embedding file name, and the pre-inference return code are parameters.
- `call_pre_inference` appears only as a step and its return code; what the subprocess writes is not modelled.
- `DataModule.SeqDataModule.PreInferPrepareData`: the file `gather_inference_results` saves is a parameter. Whether it is the file `setup` later loads is not constrained, because `gather_inference_results` and `inferenced_embs_exists` are not part of this model.
- `SeqRecOpt.GatherLast`: `gather_indexes` from `models/utils.py` is not part of this model. It is taken to refuse an index outside the sequence, in particular the `-1` of a sequence with no items, as `torch.gather` does.
- `DataModule.Dataset`: a dataset's truth value is taken to be its length, on the assumption that `TextSeqRecDataset` defines `__len__` (that file is not part of this model).
- `DataModule.PrepareLeavesItemsTable`, `DataModule.PrepareIdempotent` and `DataModule.SeqDataModule.PreInferPrepareData`: `DataPreprocessor` is not part of this model. Its `num_items` and the rows `save_items` writes are separate parameters, so equal counts are promised only when the two agree.
- `DataModule.SeqDataModule.PrepareData`: the model assumes `save_items` writes `<item_table>_<abbr>.processed.tsv` in the processed directory and `save_inters` writes `<inter_table>.processed.tsv`, which are the paths `setup` reads.
- `datamodules/datamodule.py` imports `SeqRecDataModuleConfig` and `PreInferSeqRecDMConfig`, which `datamodules/configs.py` does not define, so the import as written raises ImportError. The model reads them as `SeqDataModuleConfig` and `PreInferSeqDataModuleConfig`.
- `SeqRecOpt.ModelParameters`: the model's `named_parameters` order is taken to be the backbone's parameters first, then the recommender's own. The real order depends on `TextSeqRec`, which is not part of this model. Only the order inside `the_rest` depends on this.
- `DataModule.SeqDataModule`: a single class stands for both `SeqDataModule` and its subclass `PreInferSeqDataModule`, whose `prepare_data` and `setup` are the methods `PreInferPrepareData` and `PreInferSetup`.
- `DataModule.SeqDataModule.PreInferPrepareData`: it assumes a pre-inference configuration. The source reads `pre_inference_batch_size` and the other pre-inference options after the `np.save`, so with a plain sequence configuration it would raise AttributeError there. The model goes on to the pre-inference decision instead.
- Data loaders, worker processes, devices, argparse `add_*_args`, logging and the Lightning hooks are left out.
- `DataModule.TokenizerAbbr`: the contents of `PRETRAIN_MODEL_ABBR` are not part of this model; the table is a parameter.
- `SeqRecOpt.Backbone`: parameters are named flags. A shared tensor under two names, and parameters outside `named_parameters`, are not represented.
