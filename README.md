# Offshore-well anomaly detection: data preparation and configuration, in Dafny

This project is a Dafny model of the data-preparation and configuration core
of the Petrobras offshore-well anomaly-detection repository, with proofs of
what that code promises. The core covers:

- **Sliding-window framer** (`Windowing`). This is `RollingWindowPreprocessor`: pad size per policy, edge padding, the window count, the window-filling loop, label slicing and row-major flattening.
- **Feature pipeline** (`Preprocessing`). This is `TimeSeriesPreprocessor`, a class whose stage fields (imputer, scaler, selector, PCA) and `is_fitted` flag are updated by `fit`.
  - `transform`, `inverse_transform`, `fit_transform`, `get_feature_names` and `get_preprocessing_info` are included.
  - The numeric stages are opaque: each fitted stage is known by its input width, output width, whether it accepts missing values, and (for a selector) its column mask.
- **3W dataset access** (`ThreeW`). This is `ThreeWDataset`: construction, problem listing, problem configuration, event folds, the fold-index guard, and the per-instance split into label column 0 and feature columns 1...
- **Fold assembler and cache** (`DataLoader`). This is `TimeSeriesDataLoader`: order-preserving concatenation, a scaler fitted on train only, the bundle, and the in-place cache keyed `problem_fold_index`.
- **Configuration manager** (`ConfigManagement`). This is `ConfigManager`: the recursive `_deep_update`, the `configs` cache with get-or-load and save-then-record, validation, the default 3W tree and `get_threew_setting`.
- **3W tables and getters** (`ThreeWConfig`). These are the 3W constant tables, the problem, dataset and experiment configurations, and the `get_threew_*` getters.
- **GCP configuration** (`GcpConfig`). This is `GCPConfig`: YAML-then-environment-then-default lookup, the storage section, warnings, `to_dict` and the required APIs.
- **GCP environment configuration** (`GcpEnvConfig`). This is `GCPEnvConfig`: required and optional variables, storage paths, Vertex AI settings and `get_gcp_config`.
- **AWS configuration** (`AwsConfig`). This is `AWSConfigManager`: the `.env` line parser, `get_training_config`, `get_hyperparameter_search_space` and the flags of `validate_sagemaker_setup`.
- **GCP trainer** (`GcpTraining`). This is `AIPlatformTrainer`: argument defaulting, the job request, job-id extraction from gcloud output, the submit/list/cancel/logs argument lists, and the terminal job states.

Shared pieces are in `common.dfy`:
- `Wrappers`: `Option`, `Result`;
- `Text`: Python's `strip` (over the full `str.isspace` set, Unicode separators included), `split`, `in`, `str(int)` and an ASCII `upper`;
- `Values`: a JSON/YAML-like `Value`, Python truthiness, and the nested-dictionary walk `Reach`.

Several source files exist twice, as byte-identical copies under `src/` and `src/anomaly_detection/`:
- `preprocessing.py`;
- `data_loader.py`;
- `aws_config_manager.py`;
- `gcp_env_config.py`.

One module models each pair, and the table cites the `src/` copy.

Code that changes state in place is imperative Dafny. Each such method's `ensures` ties its result and new state to a specification function, and the lemmas are proved about those functions. The imperative code covers:
- the preprocessor's stage fields;
- the loader's cache and scaler fields;
- the configuration manager's `configs` map;
- the `.env` reader;
- the window-filling loop;
- the instance-splitting and problem-listing loops;
- the dotted-path walks;
- the warning list;
- the gcloud command builders.

Things outside the program are inputs to the model:
- the filesystem, the environment variables and YAML files (as parsed values or read errors);
- the 3W toolkit;
- the instance reader;
- the scaler arithmetic and the random split;
- the SageMaker/IAM probes;
- whether a write succeeds.

## Model

| member | source | states |
|---|---|---|
| Windowing.EdgePadAt | src/data/preprocessing.py:341 | edge padding adds `pad` rows at each end; padded row `j` is original row `clamp(j - pad, 0, n - 1)` |
| Windowing.NumWindowsFit | src/data/preprocessing.py:352 | every one of the `(n + 2·pad - ws)//step + 1` windows fits in the padded rows, and one more would not |
| Windowing.StridedSliceAt | src/data/preprocessing.py:366-368 | `y[start:stop:step]` holds `y[start + k·step]` for exactly those `k` whose position is before both `stop` and `len(y)` |
| Windowing.WindowRows | src/data/preprocessing.py:355-359 | in windows cut from an edge-padded series, offset `t` of window `i` is original row `clamp(i·step + t - pad)` |
| Windowing.CutWindows | src/data/preprocessing.py:355-359 | the filling loop produces `n_windows` windows, window `i` being padded rows `[i·step, i·step + ws)` |
| Windowing.CreateWindows | src/data/preprocessing.py:336-373 | the result is an edge-pad error for an empty series with padding, or an error for a negative count; otherwise `n_windows` windows of `ws` rows each, row `clamp(i·step + t - pad)` at offset `t`; labels are `None`, `y` unchanged under "same", or `y[pad : pad + n_windows·step : step]` |
| Windowing.ExampleCounts | src/data/preprocessing.py:338-352 | for 100 rows, window 10, step 1: "valid" gives 91 windows, "full" 109, "same" 101 |
| Windowing.SameCount | src/data/preprocessing.py:338-364 | under "same" with step 1 there are `n + 1 - ws%2` windows, so an even window gives one more window than the `n` labels returned |
| Windowing.ValidLabelsAligned | src/data/preprocessing.py:366-368 | under "valid", labels for every row give exactly one label per window |
| Windowing.FullLabelsShort | src/data/preprocessing.py:346-368 | under "full" with step 1 there are `n + ws - 1` windows but only `n - ws + 1` labels |
| Windowing.FlattenWindows | src/data/preprocessing.py:385-386 | flattening gives one row per window |
| Windowing.FlattenWindowLength | src/data/preprocessing.py:386 | a `(ws, F)` window flattens to `ws·F` values |
| Windowing.FlattenWindowAt | src/data/preprocessing.py:386 | row-major layout: value `f` of row `t` lands at position `t·F + f` |
| Windowing.FlattenWindowsAt | src/data/preprocessing.py:385-386 | `out[i][t·F + f] == windows[i][t][f]`, and each row has `ws·F` values |
| Windowing.UnflattenFlatten | src/data/preprocessing.py:386 | flattening a window loses nothing: cutting the row back into blocks of `F` restores the window |
| Preprocessing.UnfittedGate | src/data/preprocessing.py:124-125 | before a successful fit, both `transform` and `inverse_transform` raise |
| Preprocessing.TransformOrder | src/data/preprocessing.py:124-146 | a successful `transform` requires a fitted preprocessor and applies exactly the present stages, in the order impute, scale, select, project |
| Preprocessing.InverseScalerWidths | src/data/preprocessing.py:288-289 | without a projection, the inverse succeeds exactly when the input has the scaler's width (giving its input width) or the scaler was fitted on one column and the input has at least one (width kept); otherwise a width mismatch |
| Preprocessing.InverseOrder | src/data/preprocessing.py:277-293 | `inverse_transform` undoes only the projection and then the scaling; it never undoes selection or imputation |
| Preprocessing.FitFlag | src/data/preprocessing.py:93-112 | a fit that raises leaves `is_fitted` as it was; a fit that returns sets it |
| Preprocessing.TouchesChain | src/data/preprocessing.py:95-107 | two fitting steps that each keep every stage, and replace one only under its condition, do the same together |
| Preprocessing.ImputerTouches | src/data/preprocessing.py:148-155 | `_fit_imputer` keeps every stage and replaces the imputer only for data with a missing value, with one built for the raw width |
| Preprocessing.ScalerTouches | src/data/preprocessing.py:157-170 | `_fit_scaler` keeps every stage and replaces only the scaler |
| Preprocessing.SelectorTouches | src/data/preprocessing.py:172-199 | `_fit_feature_selector` keeps every stage and replaces only the selector, with one built for the raw width |
| Preprocessing.PcaTouches | src/data/preprocessing.py:201-210 | `_fit_pca` keeps every stage and replaces only the projection, with one built for the raw width |
| Preprocessing.FitOnShapeTouches | src/data/preprocessing.py:95-107 | a whole fit, stage by stage, keeps every stage and replaces each only under its condition |
| Preprocessing.FitNeverClears | src/data/preprocessing.py:102-107 | a refit never resets a stage: a stage present before the fit is present after it, whether the fit succeeded or raised |
| Preprocessing.FitConditions | src/data/preprocessing.py:95-107 | a fit builds a new imputer only for data with a missing value, a selector only when `n_features` is set and below the column count, and a projection only when `pca_components` is set and below the column count; every new stage takes the raw width |
| Preprocessing.FitScales | src/data/preprocessing.py:157-170 | a successful fit leaves a fitted scaler for the raw width, which needs a known method and non-empty data |
| Preprocessing.ScalingErrors | src/data/preprocessing.py:159-166 | once the imputer step succeeded, the fit raises `ValueError` exactly for a method other than standard/minmax/robust, and then the scaler field is unchanged |
| Preprocessing.SelectorChoice | src/data/preprocessing.py:174-194 | without labels, a variance-threshold selector is fitted whatever the configured method; with labels, an unknown method raises and leaves the selector as it was |
| Preprocessing.RawFitBreaksProjection | src/data/preprocessing.py:102-107 | as written, fitting SelectKBest and PCA on the raw columns makes `transform` of the same data raise: the projection receives `k` columns but expects the original width |
| Preprocessing.IntegrationScenarioFails | test_3w_integration.py:131-144 | for the integration scenario (100×10 data with labels, 5 features, 3 components), the fit succeeds and the `transform` in `fit_transform` raises a width mismatch |
| Preprocessing.ChainedFitTransforms | src/data/preprocessing.py:95-146 | with each stage fitted on the previous stage's output, a successful fit can always transform the data it was fitted on |
| Preprocessing.SelectedIndices | src/data/preprocessing.py:232-234 | the kept positions are in increasing order, one per true mask entry, and each is a true entry |
| Preprocessing.FeatureNames | src/data/preprocessing.py:224-225 | an unfitted preprocessor names no columns; a fitted one with neither selector nor projection returns the given non-empty names unchanged |
| Preprocessing.DefaultFeatureNames | src/data/preprocessing.py:227 | with no names given, or an empty list, and neither selector nor projection, the names are `feature_0`…`feature_999`, all different |
| Preprocessing.KeptNamesOk | src/data/preprocessing.py:232-234 | the comprehension succeeds exactly when every kept position is within the name list, and then it yields one name per kept column |
| Preprocessing.PrefixedDistinct | src/data/preprocessing.py:238 | `pca_component_i` names are different for different `i` |
| Preprocessing.ComponentNamesShape | src/data/preprocessing.py:237-240 | with a projection present, the names are `pca_component_0`…, one per configured component, and all different |
| Preprocessing.SelectedNamesShape | src/data/preprocessing.py:224-240 | with no projection, the given names are narrowed to the selector's kept positions, or the call raises `IndexError` when a position is past the end |
| Preprocessing.InfoOf | src/data/preprocessing.py:249-265 | the info has one presence flag per stage and the fitted flag, and echoes the five configured settings; the explained variance is reported exactly for a fitted preprocessor with a projection, and reading it raises when that projection's fit had failed |
| Preprocessing.FailedRefitStrands | src/data/preprocessing.py:93-143 | a refit that fails in the projection step leaves `is_fitted` true with a projection that cannot transform, so every later `transform` raises |
| Preprocessing.TimeSeriesPreprocessor.constructor | src/data/preprocessing.py:32-63 | no stages, `is_fitted` false, configuration stored |
| Preprocessing.TimeSeriesPreprocessor.FitImputer | src/data/preprocessing.py:148-155 | the new fields are those of the imputer step's specification |
| Preprocessing.TimeSeriesPreprocessor.FitScaler | src/data/preprocessing.py:157-170 | the new fields are those of the scaler step's specification |
| Preprocessing.TimeSeriesPreprocessor.FitFeatureSelector | src/data/preprocessing.py:172-199 | the new fields are those of the selector step's specification |
| Preprocessing.TimeSeriesPreprocessor.FitPca | src/data/preprocessing.py:201-210 | the new fields are those of the projection step's specification |
| Preprocessing.TimeSeriesPreprocessor.Fit | src/data/preprocessing.py:80-112 | the stages run in order on the raw input and stop at the first exception; the new state and error are those of the fit specification |
| Preprocessing.TimeSeriesPreprocessor.Transform | src/data/preprocessing.py:114-146 | the result is the transform specification of the current state; nothing changes |
| Preprocessing.TimeSeriesPreprocessor.FitTransform | src/data/preprocessing.py:67-78 | `fit(X, y)` and then, if that succeeded, `transform(X)` on the new state |
| Preprocessing.TimeSeriesPreprocessor.InverseTransform | src/data/preprocessing.py:267-293 | the result is the inverse specification of the current state, in which a scaler fitted on one column broadcasts over wider input |
| ThreeW.NewDataset | src/data/threew_dataset.py:56-80 | construction raises `ToolkitUnavailable` exactly when the toolkit is missing; otherwise it succeeds exactly when the chosen dataset directory and the toolkit's folds directory both exist, raises `DatasetMissing` with the dataset path when that is absent, else `FoldsMissing` with the folds path, and a built dataset holds the chosen path, the folds path and the toolkit's version |
| ThreeW.NewDatasetPath | src/data/threew_dataset.py:69 | a non-empty dataset path overrides the toolkit's default; with no path the default is used |
| ThreeW.GetThreewInfo | src/data/threew_dataset.py:295-313 | the info reports "unavailable" exactly when the toolkit is missing; otherwise it reports the toolkit's version, dataset path and folds path |
| ThreeW.DatasetInfoAvailable | src/data/threew_dataset.py:86-98 | any constructed dataset reports `available` |
| ThreeW.ProblemNamesMembers | src/data/threew_dataset.py:111-116 | a name is listed exactly when some entry with that name is a directory whose name does not start with "_" |
| ThreeW.ListAvailableProblems | src/data/threew_dataset.py:100-116 | `[]` without a problems directory; otherwise the kept names in listing order |
| ThreeW.LoadProblemConfig | src/data/threew_dataset.py:118-145 | a record exactly when the problem directory and its README exist, echoing the name, the README text and the directory `3W/problems/<name>` under the repository root; otherwise `None` |
| ThreeW.GetEventFolds | src/data/threew_dataset.py:147-174 | folds exactly when `<fold_config>.csv` exists and reads; otherwise `None` |
| ThreeW.PyIndex | src/data/threew_dataset.py:201 | Python indexing: defined for `-len <= i < len`, counting from the end for a negative `i` |
| ThreeW.Features | src/data/threew_dataset.py:210 | columns `1..` of an instance: one column fewer, the same number of rows |
| ThreeW.SplitColumnsRestores | src/data/threew_dataset.py:210-211 | label column 0 and feature columns `1..`, put back side by side, give the instance again |
| ThreeW.SplitAll | src/data/threew_dataset.py:208-220 | splitting the instances fails exactly when an instance has no column; otherwise it gives features and labels instance by instance, in order |
| ThreeW.SplitInstances | src/data/threew_dataset.py:208-211 | the append loop gives what `SplitAll` specifies |
| ThreeW.LoadInstancesSpec | src/data/threew_dataset.py:176-230 | `None` when the folds do not load, when `fold_index >= len(folds)`, or when a loaded instance has no column; on success, four lists that split the fold's train and test instances in order |
| ThreeW.LoadInstancesForProblem | src/data/threew_dataset.py:176-230 | the method's steps give the load specification |
| ThreeW.ShippedReaderLoadsNothing | src/data/threew_dataset.py:263-280 | with the shipped `load_instances`, which returns `[]`, a load yields `None` or four empty lists |
| DataLoader.FlattenAppend | src/data/data_loader.py:173-176 | concatenating two groups of pieces is concatenating their concatenations |
| DataLoader.FlattenKeepsPieces | src/data/data_loader.py:173-176 | each piece is found in the concatenation right after the pieces before it |
| DataLoader.ConcatMatrices | src/data/data_loader.py:173-175 | 2-D concatenation succeeds exactly for a non-empty list of pieces of one width, and keeps that width |
| DataLoader.ConcatVectors | src/data/data_loader.py:174-176 | 1-D concatenation succeeds exactly for a non-empty list |
| DataLoader.ConcatMatricesKeepsOrder | src/data/data_loader.py:173-175 | the rows of instance `i` come right after the rows of instances `0..i` |
| DataLoader.ConcatMatricesWellFormed | src/data/data_loader.py:173-175 | concatenating rectangular pieces gives a rectangular matrix |
| DataLoader.FlattenRowsWidth | src/data/data_loader.py:173-175 | rows of one width stay that width after concatenation |
| DataLoader.ConcatVectorsKeepsOrder | src/data/data_loader.py:174-176 | the labels of instance `i` come right after those of instances `0..i` |
| DataLoader.ScalerKindOf | src/data/data_loader.py:236-241 | "standard" and "minmax" are the only accepted method names |
| DataLoader.NormalizeFitsOnTrainOnly | src/data/data_loader.py:243-245 | the normalised train matrix does not depend on the test matrix, and the test matrix goes through the scaler fitted on train |
| DataLoader.NormalizeMethodErrors | src/data/data_loader.py:236-245 | `ValueError` exactly for an unknown method; success exactly for a known method whose scaler accepts the data |
| DataLoader.CacheKeyJoins | src/data/data_loader.py:208 | the cache key is problem, fold configuration and `str(fold_index)` joined by "_" |
| DataLoader.BundleFields | src/data/data_loader.py:157-216 | a returned bundle echoes problem, fold configuration and index, has `normalized == normalize`, and holds the concatenated test data (normalised by the train-fitted scaler when asked); the scaler is fitted exactly when normalising |
| DataLoader.LoadNoneCases | src/data/data_loader.py:157-220 | `None`, with the scaler untouched, when 3W is off, there is no dataset, instance loading fails, a concatenation has nothing to join or mismatched widths, or a label list is empty |
| DataLoader.ShippedReaderNeverLoads | src/data/threew_dataset.py:263-280 | with the shipped instance reader every load returns `None` and leaves the scaler alone |
| DataLoader.CacheKeyCollision | src/data/data_loader.py:208 | different loads can share a key: `("a_b", "c", 0)` and `("a", "b_c", 0)` |
| DataLoader.CacheKeyInjective | src/data/data_loader.py:208 | without "_" in the names, the key determines the problem, fold configuration and index |
| DataLoader.KeyParts | src/data/data_loader.py:208 | without "_" in the names, splitting the key at "_" recovers its three parts |
| DataLoader.InitialSlot | src/data/data_loader.py:46-62 | as written: 3W is used exactly when it is wanted and the dataset builds; `threew_dataset` is left unassigned exactly when 3W is wanted, the toolkit imports and the dataset fails to build |
| DataLoader.InitialSlotFixed | src/data/data_loader.py:53-62 | corrected: the same `use_threew`, but a failed build leaves `threew_dataset = None` instead of unassigned |
| DataLoader.FailedInitBreaksListing | src/data/data_loader.py:284-307 | as written, with the toolkit present but the dataset directory missing, `list_available_problems` and `get_problem_info` raise `AttributeError` |
| DataLoader.FixedInitListsWithoutRaising | src/data/data_loader.py:284-307 | with the corrected constructor, listing and problem information never raise; without a dataset they give `[]` and `None` |
| DataLoader.TimeSeriesDataLoader.constructor | src/data/data_loader.py:32-68 | empty cache, no scaler; an empty path counts as none; 3W use and the dataset slot as `InitialSlot` decides |
| DataLoader.TimeSeriesDataLoader.NormalizeData | src/data/data_loader.py:222-250 | the result is the normalise specification; the scaler field is set for any known method, even when fitting then fails; `scaler_fitted` becomes true on success; nothing else changes |
| DataLoader.TimeSeriesDataLoader.LoadThreewProblem | src/data/data_loader.py:136-220 | the result is the load specification and never reads the cache; with caching on, a returned bundle is stored under its key and nothing else in the cache changes |
| DataLoader.TimeSeriesDataLoader.GetCachedData | src/data/data_loader.py:252-262 | the stored bundle, or `None` exactly for an absent key |
| DataLoader.TimeSeriesDataLoader.ClearCache | src/data/data_loader.py:264-267 | the cache becomes empty and nothing else changes |
| DataLoader.TimeSeriesDataLoader.GetDataInfo | src/data/data_loader.py:269-282 | `cache_size` is the number of cached bundles, and the other fields echo the loader |
| DataLoader.TimeSeriesDataLoader.ListAvailableProblems | src/data/data_loader.py:284-293 | the listing specification of the dataset slot |
| DataLoader.TimeSeriesDataLoader.GetProblemInfo | src/data/data_loader.py:295-307 | the problem-information specification of the dataset slot |
| DataLoader.CachedBundleReadable | src/data/data_loader.py:206-262 | a bundle stored under its key is read back by `get_cached_data` with that key, and the cache grows by one only for a new key |
| ConfigManagement.DeepUpdate | src/config/config_manager.py:226-251 | the keys are those of base and updates together; keys only in base keep their value; where both values are dicts the value is the recursive merge of the two, otherwise the update wins |
| ConfigManagement.DeepUpdateEmpty | src/config/config_manager.py:239-251 | merging no updates gives the base back |
| ConfigManagement.DeepUpdateSelf | src/config/config_manager.py:239-251 | merging a tree into itself gives the tree back |
| ConfigManagement.DeepUpdateIdempotent | src/config/config_manager.py:239-251 | applying the same updates twice is applying them once |
| ConfigManagement.DeepUpdateLeavesWin | src/config/config_manager.py:241-249 | every non-dictionary value of the updates is found at its path in the result |
| ConfigManagement.DeepUpdateKeepsNested | src/config/config_manager.py:241-249 | a nested key only the base holds, under dictionaries both sides hold, keeps its value at any depth |
| ConfigManagement.DeepUpdateKeepsUntouched | src/config/config_manager.py:239-251 | a path whose first key the updates do not mention reads the same before and after |
| ConfigManagement.ReadFile | src/config/config_manager.py:147-163 | a read succeeds exactly for an existing file that parses, giving its content |
| ConfigManagement.UpdateSpec | src/config/config_manager.py:217-224 | an empty configuration is refused; a dict is merged with the updates; other truthy values raise, except a list with no updates |
| ConfigManagement.PyIn | src/config/config_manager.py:271 | Python `in`: dict keys, list elements or substrings; it raises on numbers and booleans |
| ConfigManagement.ValidateDictionary | src/config/config_manager.py:263-276 | a dict is valid exactly when it has "dataset", "problems" and "experiments" |
| ConfigManagement.GetDefaultConfig | src/config/config_manager.py:278-314 | always a dict, and non-empty exactly for "3w" |
| ConfigManagement.DefaultFailsValidation | src/config/config_manager.py:288-314 | the default 3W tree has no "problems" key, so `validate_config` rejects it |
| ConfigManagement.SettingCases | src/config/config_manager.py:399-408 | a stored `None` is returned as found; a path that cannot be followed, or a configuration that is not a dict, gives the default |
| ConfigManagement.GetThreewSetting | src/config/config_manager.py:385-408 | the walk loop returns the stored value at the dotted path, or the default |
| ConfigManagement.ConfigManager.constructor | src/config/config_manager.py:114-126 | the cache starts empty |
| ConfigManagement.ConfigManager.LoadConfig | src/config/config_manager.py:137-163 | a missing or unreadable file gives `{}` and is not cached; a read is returned and cached, even `None` |
| ConfigManagement.ConfigManager.GetConfig | src/config/config_manager.py:165-177 | returns the cached entry when there is one, and loads otherwise |
| ConfigManagement.ConfigManager.SaveConfig | src/config/config_manager.py:179-204 | on a successful write, the file and the cache both hold the configuration; on failure, nothing changes |
| ConfigManagement.ConfigManager.UpdateConfig | src/config/config_manager.py:206-224 | `False` for an empty current configuration; a non-dict configuration raises; otherwise the merged configuration is saved, and on a successful write both the file and the cache hold it; in every other case the files are unchanged and the cache only gains what `get_config` read |
| ConfigManagement.ConfigManager.ValidateConfig | src/config/config_manager.py:253-276 | the cached, else loaded, else empty configuration is judged as `validate_config` does: `False` when empty, else whether it holds the three keys; a value that is not a container raises; the files are unchanged and the cache only gains what `get_config` read |
| ConfigManagement.ConfigManager.CreateConfigFromDefault | src/config/config_manager.py:316-331 | `False` with nothing changed for a name without defaults; otherwise the result is whether the write succeeds: on success the file and the cache hold the defaults, on failure nothing changes |
| ThreeWConfig.DatasetConfigSections | src/config/threew_config.py:119-142 | the dataset configuration has exactly the eleven sections |
| ThreeWConfig.DatasetConfigValidates | src/config/threew_config.py:119-142 | the dataset configuration has every key `validate_config` requires |
| ThreeWConfig.ProblemConfigFields | src/config/threew_config.py:155-181 | every problem configuration echoes the name and has target column 0, 5 splits, random state 42 and shuffling; exactly the DHSV problem is binary, a classification with stratified k-fold and classes 1/0; any other is "unknown" with plain k-fold and no positive class |
| ThreeWConfig.ExperimentConfigIgnoresName | src/config/threew_config.py:204-208 | every experiment name gives the default experiment table |
| ThreeWConfig.RollingWindowEntries | src/config/threew_config.py:45-50 | the rolling-window table: window 100, step 1, "same" |
| ThreeWConfig.PreprocessingEntries | src/config/threew_config.py:34-42 | the preprocessing table's entries for the getters |
| ThreeWConfig.LoadingEntries | src/config/threew_config.py:23-31 | the loading table: test size 0.2, random state 42 |
| ThreeWConfig.ExperimentEntries | src/config/threew_config.py:53-61 | the experiment table: 5 folds, 100 trials, "f1_score" |
| ThreeWConfig.CacheEntries | src/config/threew_config.py:83-89 | the cache table: enabled, max size 1000 |
| ThreeWConfig.PerformanceEntries | src/config/threew_config.py:74-80 | the performance table: `n_jobs` −1, batch size 1000 |
| ThreeWConfig.SettingDefaultFromTable | src/config/threew_config.py:262-375 | each getter's fallback is its table's entry under the path's last key |
| ThreeWConfig.KeysWithoutDots | src/config/threew_config.py:262-375 | every getter's path splits back into its keys |
| ThreeWConfig.RollingWindowKeys | src/config/threew_config.py:262-280 | the rolling-window getters' keys have no dots |
| ThreeWConfig.PreprocessingKeys | src/config/threew_config.py:283-317 | the preprocessing getters' keys have no dots |
| ThreeWConfig.LoadingKeys | src/config/threew_config.py:320-329 | the loading getters' keys have no dots |
| ThreeWConfig.ExperimentKeys | src/config/threew_config.py:332-351 | the experiment getters' keys have no dots |
| ThreeWConfig.CacheKeys | src/config/threew_config.py:354-361 | the cache getters' keys have no dots |
| ThreeWConfig.PerformanceKeys | src/config/threew_config.py:364-375 | the performance getters' keys have no dots |
| ThreeWConfig.GetSetting | src/config/threew_config.py:262-375 | a getter gives the value at its path when the path can be followed, else its default |
| ThreeWConfig.GetterDefaults | src/config/threew_config.py:262-280 | without a loaded dict every getter gives its default (window 100, "same" padding) |
| ThreeWConfig.DatasetConfigAgrees | src/config/threew_config.py:112-142 | the dataset configuration stores, at every getter's path, that getter's default |
| ThreeWConfig.RollingWindowAgrees | src/config/threew_config.py:262-280 | as above, for the rolling-window getters |
| ThreeWConfig.PreprocessingAgrees | src/config/threew_config.py:283-317 | as above, for the preprocessing getters |
| ThreeWConfig.LoadingAgrees | src/config/threew_config.py:320-329 | as above, for the loading getters |
| ThreeWConfig.ExperimentAgrees | src/config/threew_config.py:332-351 | as above, for the experiment getters |
| ThreeWConfig.ExperimentSectionAgrees | src/config/threew_config.py:136 | the "experiments" section holds each experiment getter's default under "default" |
| ThreeWConfig.CacheAgrees | src/config/threew_config.py:354-361 | as above, for the cache getters |
| ThreeWConfig.PerformanceAgrees | src/config/threew_config.py:364-375 | as above, for the performance getters |
| GcpConfig.EnvKey | src/gcp/config.py:159 | the variable name has the path's length, no ".", and "_" wherever the path has "." |
| GcpConfig.ConfigValueCases | src/gcp/config.py:145-160 | a YAML value that is not `None` wins, even `False` or ""; otherwise the environment variable, then the default |
| GcpConfig.EmptyYamlUsesEnvironment | src/gcp/config.py:155-160 | with an empty YAML map, every value comes from the environment or the default |
| GcpConfig.GetConfigValue | src/gcp/config.py:134-160 | the walk loop settles on the lookup specification for the "."-split path |
| GcpConfig.SectionKeys | src/gcp/config.py:162-304 | a section has exactly its fields' names as keys |
| GcpConfig.SectionAt | src/gcp/config.py:162-304 | each field holds its looked-up value |
| GcpConfig.StorageFields | src/gcp/config.py:239-256 | the five path fields default to `gs://<bucket>/<suffix>` |
| GcpConfig.StorageSection | src/gcp/config.py:232-256 | the storage section holds the resolved bucket |
| GcpConfig.StorageSectionKeys | src/gcp/config.py:239-256 | the storage section holds the bucket and the five paths, nothing else |
| GcpConfig.StorageNamesDistinct | src/gcp/config.py:239-256 | the five path names are distinct and differ from "bucket_name" |
| GcpConfig.StoragePathDefault | src/gcp/config.py:241-255 | a path found in neither the YAML nor its variable is `gs://<bucket>/<suffix>` for the resolved bucket; a found one is taken as is |
| GcpConfig.BucketPrecedence | src/gcp/config.py:234-237 | without YAML, the bucket is `CLOUD_STORAGE_BUCKET_NAME`, then `GCS_BUCKET_NAME`, then "your-bucket-name" |
| GcpConfig.MasterTypeNeverFromYamlList | src/gcp/config.py:218-221 | when the YAML holds a list at `machine_types.master`, the step "0" can never be taken, so the value comes from the environment or the default |
| GcpConfig.NewGcpSettings | src/gcp/config.py:88-132 | construction fails only on an unexpected read error; no path, a missing file or an unparsable file give an empty YAML map; each of the six sections (auth, Vertex AI, AI Platform, storage, MLflow, training) is looked up in that document with its own fields |
| GcpConfig.MissingYamlUsesDefaults | src/gcp/config.py:105-132 | a missing file, an unparsable file and no path all keep the empty map |
| GcpConfig.SameDocumentSameSettings | src/gcp/config.py:105-118 | the settings depend on the file only through the document kept from it |
| GcpConfig.ValidateConfig | src/gcp/config.py:306-325 | one warning each, exactly when: the project id is falsy; there is neither a key path nor default credentials; the bucket is the placeholder; in source order, each at most once |
| GcpConfig.ToDict | src/gcp/config.py:342-352 | exactly the keys auth, vertex_ai, ai_platform, storage, mlflow, training and required_apis |
| GcpConfig.RequiredApisDefault | src/gcp/config.py:327-340 | without YAML or environment, the required APIs are the seven defaults |
| GcpEnvConfig.RequiredEnv | src/config/gcp_env_config.py:27-32 | the value exactly when the variable is set and non-empty, else the missing-variable error |
| GcpEnvConfig.NewGcpEnv | src/config/gcp_env_config.py:13-36 | the project and bucket are required; region, zone and Vertex location default to us-central1, us-central1-a and us-central1 |
| GcpEnvConfig.NewGcpEnvErrors | src/config/gcp_env_config.py:13-44 | errors come in source order: project id, then bucket, then a missing key file; construction succeeds exactly when none applies |
| GcpEnvConfig.StoragePathsKeys | src/config/gcp_env_config.py:46-57 | exactly the seven storage keys |
| GcpEnvConfig.StoragePathsValues | src/config/gcp_env_config.py:46-57 | each path is `gs://<bucket>/<suffix>` for its key's suffix |
| GcpEnvConfig.StoragePathDeterminesBucket | src/config/gcp_env_config.py:48-56 | equal paths under one suffix mean equal buckets |
| GcpEnvConfig.GetVertexAiConfig | src/config/gcp_env_config.py:59-66 | four keys, echoing the project id and the Vertex location |
| GcpEnvConfig.ConstructedIsConfigured | src/config/gcp_env_config.py:68-73 | every constructed configuration is configured |
| GcpEnvConfig.GetGcpConfig | src/config/gcp_env_config.py:77-82 | `None` exactly for a missing variable; a missing key file escapes; a configuration is configured |
| GcpEnvConfig.TestEnvironment | tests/integration/test_gcp_config.py:36-46 | the test environment builds with its project, bucket and region, and the default Vertex location |
| GcpEnvConfig.TestPaths | tests/integration/test_gcp_config.py:36-46 | the test bucket's data path is `gs://test-bucket/data`, and the Vertex settings carry the project |
| AwsConfig.ParseLineCases | src/aws_config_manager.py:102-106 | a line is kept exactly when, stripped, it is non-empty, does not start with "#" and contains "="; it splits at the first "=", and the key and value are stripped |
| AwsConfig.ParseAssignment | src/aws_config_manager.py:103-106 | a clean `key=value` line parses to `(key, value)` |
| AwsConfig.NoBreakSpaceStripped | src/aws_config_manager.py:103-106 | a no-break space after "=" is whitespace to `strip()` and does not reach the value |
| AwsConfig.ParsedLines | src/aws_config_manager.py:102-104 | one parse result per line, in order |
| AwsConfig.EnvFromLinesStep | src/aws_config_manager.py:102-106 | reading one more line writes its entry, if any, over the map so far |
| AwsConfig.AssignLastWins | src/aws_config_manager.py:106 | a key is present exactly when it was before or some entry defines it; its value comes from the last entry that defines it |
| AwsConfig.AssignUntouched | src/aws_config_manager.py:106 | a key that no entry defines keeps its value |
| AwsConfig.EnvKeys | src/aws_config_manager.py:102-106 | a key is in the environment map exactly when it was before or some accepted line defines it |
| AwsConfig.ThreeLines | src/aws_config_manager.py:102-106 | of three lines, two defining distinct keys that the third does not redefine both end up in the map |
| AwsConfig.AccessKeyLine | tests/unit/test_aws_config_manager.py:25 | the test's access-key line parses to its key and value |
| AwsConfig.SecretKeyLine | tests/unit/test_aws_config_manager.py:25 | the test's secret-key line parses to its key and value |
| AwsConfig.RoleArnLine | tests/unit/test_aws_config_manager.py:25 | the test's role-ARN line parses to its key and value |
| AwsConfig.TestEnvFile | tests/unit/test_aws_config_manager.py:25-43 | the test file gives `AWS_ACCESS_KEY_ID` "TEST_KEY" and `AWS_SECRET_ACCESS_KEY` "TEST_SECRET" |
| AwsConfig.GetKey | src/aws_config_manager.py:315-320 | `.get(key, default)` succeeds exactly on a dict, giving the entry or the default |
| AwsConfig.GetChainReach | src/aws_config_manager.py:315-320 | where the path exists, the `.get` chain finds what the dictionary walk finds |
| AwsConfig.GetChainEmpty | src/aws_config_manager.py:393-398 | a chain on `{}` ends at its last default |
| AwsConfig.GetChainMissing | src/aws_config_manager.py:393-398 | a chain whose first key is missing ends at its last default |
| AwsConfig.TrainingConfig | src/aws_config_manager.py:381-414 | the default table overridden by the model's table, with `instance_type` set from the SageMaker section; `{}` when a lookup or the merge raises |
| AwsConfig.InstanceTypeForced | src/aws_config_manager.py:391-408 | when the model's table sets its own `instance_type`, the SageMaker section's default instance type replaces it, and every other key of that table is kept |
| AwsConfig.OnlyInstanceTypeWithoutTraining | src/aws_config_manager.py:391-414 | with no training section the lookups give empty tables, and the result holds only the SageMaker section's instance type |
| AwsConfig.InstanceTypeDefault | src/aws_config_manager.py:404-408 | without a SageMaker section, the instance type is "ml.p3.2xlarge" |
| AwsConfig.SearchSpace | src/aws_config_manager.py:416-433 | the model's search space, or `{}` when it is missing or a lookup raises |
| AwsConfig.AwsConfigManager.constructor | src/aws_config_manager.py:59-95 | the configuration is the parsed document, or `{}` when the file is missing or fails; the environment map is read from the lines |
| AwsConfig.AwsConfigManager.LoadEnvVars | src/aws_config_manager.py:97-115 | the line loop writes each accepted entry into the map; a missing or failing file resets it to `{}` |
| AwsConfig.AwsConfigManager.ValidateSagemakerSetup | src/aws_config_manager.py:296-379 | `valid` is the conjunction of the three flags; the domain flag needs a configured domain name that its probe finds, the profile flag a configured profile name that its probe finds, the role flag a set `SAGEMAKER_ROLE_ARN` whose role name its probe finds; when no probe raises, each flag holds exactly when its name is configured and its probe finds it; without clients every flag is false |
| GcpTraining.ResolveJobArgs | src/gcp/training.py:77-81 | falsy arguments take their defaults: the master type, "NVIDIA_TESLA_T4", 1, and the configured worker count; truthy ones are kept |
| GcpTraining.ZeroAcceleratorsMeansOne | src/gcp/training.py:80 | asking for 0 accelerators, or none, asks for one |
| GcpTraining.ResolveIdempotent | src/gcp/training.py:77-81 | filling in the defaults twice is filling them in once |
| GcpTraining.CreateJobRequest | src/gcp/training.py:85-121 | the request has the trainer's parent and display name, runs `python <script>` from the project's `anomaly-detection-training:latest` image in one worker pool with the resolved machine, and has a two-hour timeout |
| GcpTraining.FirstWhere | src/gcp/training.py:209-219 | the first line satisfying the test, if any |
| GcpTraining.AfterFirst | src/gcp/training.py:220-222 | `split(sep)[1]`: the text after the first separator, up to the next one |
| GcpTraining.AfterFirstHasNoSeparator | src/gcp/training.py:220-222 | that text contains no separator |
| GcpTraining.FirstWhereAt | src/gcp/training.py:209-219 | the first line that passes is the one found |
| GcpTraining.JobNameMentionsJobs | src/gcp/training.py:210-219 | a full job-name line also mentions "trainingJobs/" |
| GcpTraining.JobIdFromFullName | src/gcp/training.py:208-215 | the first line naming a job in full wins, stripped |
| GcpTraining.JobIdFromMention | src/gcp/training.py:217-222 | with no full name, the first line mentioning "trainingJobs/" gives the text after it, stripped |
| GcpTraining.JobIdMissing | src/gcp/training.py:224 | `ValueError` exactly when no line mentions "trainingJobs/" |
| GcpTraining.JobNameIsJobName | src/gcp/training.py:210-215 | a job's resource name is a full job-name line and is left alone by `strip()` |
| GcpTraining.MentionsMiddle | src/gcp/training.py:211-213 | a pattern placed between two texts is found in the whole |
| GcpTraining.ExtractsPrintedJobName | src/gcp/training.py:205-224 | a job name on its own line, after lines not mentioning jobs, is read back unchanged |
| GcpTraining.ExtractsJobUnderParent | src/gcp/training.py:205-224 | the job name under the request's parent is read back as the id |
| GcpTraining.SubmitOverridesUnfold | src/gcp/training.py:170-182 | the overrides are one conditional pair per keyword, in order |
| GcpTraining.SubmitCommand | src/gcp/training.py:153-184 | the eight fixed tokens, then a `--worker-pool-spec k=v` pair for each keyword given |
| GcpTraining.PoolOverridesShape | src/gcp/training.py:170-182 | two tokens per keyword given, each pair starting with the pool flag |
| GcpTraining.ReadPoolOverrides | src/gcp/training.py:170-182 | reading the pairs back gives each keyword's rendered value under its gcloud name |
| GcpTraining.OverridesKeys | src/gcp/training.py:170-182 | the names read back are those of the keywords given |
| GcpTraining.OverridesValue | src/gcp/training.py:170-182 | a keyword given is read back with its rendered value |
| GcpTraining.SubmitOverridesRead | src/gcp/training.py:170-182 | the submit command asks for exactly the machine type, accelerator type and accelerator count given |
| GcpTraining.ListCommand | src/gcp/training.py:278-289 | the list command, with `--filter` only for a truthy filter |
| GcpTraining.LogsCommand | src/gcp/training.py:354-365 | the log command, with `--max-lines` only for a truthy limit |
| GcpTraining.OptionValueSkips | src/gcp/training.py:278-289 | tokens other than the flag are skipped when reading an option |
| GcpTraining.InlineValueSkips | src/gcp/training.py:153-184 | tokens without the prefix are skipped when reading a `--name=value` option |
| GcpTraining.InlineValueHere | src/gcp/training.py:153-184 | `--name=value` is read back as `value` |
| GcpTraining.ListFilterRead | src/gcp/training.py:286-287 | the list command carries the filter exactly when it is truthy |
| GcpTraining.LogsLimitRead | src/gcp/training.py:363-364 | the log command carries `str(max_lines)` exactly when the limit is truthy |
| GcpTraining.VerbTokens | src/gcp/training.py:153-184 | the leading command words are not region or project options |
| GcpTraining.RegionIsNotProject | src/gcp/training.py:153-184 | a region token is not a project token |
| GcpTraining.JobIdIsNotOption | src/gcp/training.py:318-325 | a job id not written as an option is neither a region nor a project token |
| GcpTraining.SubmitTargetsTrainer | src/gcp/training.py:153-168 | the submit command names the trainer's region and project, whatever the display name and keywords |
| GcpTraining.ListTargetsTrainer | src/gcp/training.py:278-289 | the list command names the trainer's region and project |
| GcpTraining.CancelTargetsTrainer | src/gcp/training.py:318-325 | the cancel command names the trainer's region and project |
| GcpTraining.LogsTargetsTrainer | src/gcp/training.py:354-365 | the log command names the trainer's region and project |
| GcpTraining.MissingStateKeepsWaiting | src/gcp/training.py:408-415 | the wait ends exactly on SUCCEEDED, FAILED or CANCELLED; a job reporting no state keeps it waiting |
| Text.StripShape | src/aws_config_manager.py:103 | `strip()` removes exactly a prefix and a suffix of `str.isspace` characters |
| Text.StripEnds | src/aws_config_manager.py:103 | what `strip()` keeps neither starts nor ends with a `str.isspace` character |
| Text.SplitJoin | src/gcp/config.py:146 | joining the parts of `split(sep)` with `sep` gives the text back |
| Text.JoinSplit | src/gcp/config.py:146 | splitting a join of separator-free parts gives the parts back |
| Text.IntToStringInjective | src/data/data_loader.py:208 | `str` is injective on integers |
| Text.IntToStringNoUnderscore | src/data/data_loader.py:208 | `str(int)` has no "_" |
| Values.ReachAppend | src/config/config_manager.py:402-406 | following a path in two legs is following it in one |

## Left out

- Floating point and library numerics are not modelled.
  - Not modelled: the scaler, imputer, mutual-information/F-test scoring and PCA arithmetic, the explained variance, `train_test_split`'s stratified shuffle, and the float cost estimates.
  - Each stage is known only by its widths, whether it accepts missing values and its selector mask. The mask and the split are inputs.
- The library's own errors are modelled only partly: width mismatch (except in a scaler's inverse, which broadcasts a one-column scaler), missing values, non-positive counts and more components than rows. Other sklearn checks are not modelled, such as too few samples for a scaler or a degenerate stratified split.
- File, YAML and tabular I/O are not modelled.
  - The model does not cover `load_from_parquet`, `load_from_csv`, `yaml.safe_load`, `yaml.dump`, `list_configs` globbing, README reads, `load_dotenv` or `Path.exists`.
  - A file is its parsed content or a read error; the environment is a map; existence is a predicate.
  - ConfigManagement.ConfigManager.SaveConfig treats a failed write as leaving the stored file as it was. In the source, `open(path, 'w')` empties the file before `yaml.dump` runs, so a dump that fails leaves an empty or partial file; that is not modelled.
- Cloud SDK and process calls are left out: the Vertex AI client, `get_training_job`, gcloud execution through `subprocess.run`, `create_training_script` and `_generate_training_script`, and the boto3 client setup, buckets, structure, cost alarm and setup script of `aws_config_manager.py`. The SageMaker and IAM probes of `validate_sagemaker_setup` are parameters.
- GcpTraining: `wait_for_job_completion`'s clock, sleep and timeout loop are left out; only its state test is modelled.
- `get_config_manager` (an `lru_cache` singleton), `load_threew_config`, `save_threew_config`, the import-time `gcp_config` instance and `print_status` are left out. The configuration is passed explicitly.
- `ThreeWDataset.get_problem_experiment` is left out, because it builds a toolkit `Experiment` object that is not part of this model.
- Logging, warnings printed to the console and `__repr__` are left out.
- GcpConfig.Show renders only strings, integers and booleans. Floats and containers passed as `--worker-pool-spec` values render as "".
- GcpConfig.NewGcpSettings does not model the `int(...)`/`float(...)` conversions of the training section or of `AI_PLATFORM_TRAINING_WORKER_COUNT`: those values are kept as found, and the `ValueError` a bad number raises is not modelled.
- Windowing.CreateWindows requires a window of at least one row and a step of at least one. A zero step (a `ZeroDivisionError`) and non-positive windows are not modelled.
- Text.Upper maps only a-z to A-Z. Python's `upper` also maps non-ASCII letters ("é" to "É", "ß" to "SS", which changes the length). GcpConfig.EnvKey inherits this; `config.py` passes it only ASCII literal paths.
- DataLoader.TimeSeriesDataLoader.GetDataInfo reports the path as given to the constructor. The source stores `Path(data_path)` and reports `str(...)` of it, which drops a trailing "/", a leading "./" and doubled "/" ("data/" is reported as "data"); that normalisation is not modelled.
- The imputer is known only by its widths. It drops all-missing columns unless the strategy is "constant", and it refuses a strategy other than mean, median, most_frequent or constant.

## Findings

| source | as written | input that shows it | evidently intended | confidence | as-written member | corrected member |
|---|---|---|---|---|---|---|
| src/data/preprocessing.py:102-107 | the selector and the PCA are both fitted on the raw `X`, so PCA expects the original width, but `transform` feeds it the selector's `k` columns | the integration scenario in test_3w_integration.py:131-144: 100×10 data with labels, `n_features=5`, `pca_components=3`; `fit_transform` raises a width mismatch in PCA | each stage fitted on the output of the one before it, with the conditions compared against the width that stage receives | not executed | Preprocessing.RawFitBreaksProjection, Preprocessing.IntegrationScenarioFails | Preprocessing.ChainedFitTransforms |
| src/data/data_loader.py:58-60 | when `ThreeWDataset()` raises, `use_threew` is cleared but `threew_dataset` is never assigned, so `list_available_problems` (line 291) and `get_problem_info` (line 305) raise `AttributeError` | the toolkit imports but the dataset directory is missing; `TimeSeriesDataLoader()` then `list_available_problems()` | `threew_dataset = None` on that path, so the listing is `[]` and the problem information is `None` | not executed | DataLoader.FailedInitBreaksListing, DataLoader.InitialSlot | DataLoader.InitialSlotFixed, DataLoader.FixedInitListsWithoutRaising |
