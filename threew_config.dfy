/**
 * The 3W constants and default tables, the problem, dataset and experiment
 * configurations built from them, and the `get_threew_*` getters, each a
 * lookup of one dotted path in the loaded "3w" configuration with its
 * default table entry as fallback.
 */
module ThreeWConfig {
  import opened Wrappers
  import opened Values
  import ConfigManagement
  import Text

  const DatasetName: string := "3W"
  const DatasetVersion: string := "1.1.0"
  const Description: string := "Dataset 3W da Petrobras para detecção de anomalias em poços offshore"
  const DhsvProblem: string := "01_binary_classifier_of_spurious_closure_of_dhsv"

  /** `THREEW_AVAILABLE_PROBLEMS` */
  const AvailableProblems: seq<string> := [DhsvProblem]

  function DefaultLoading(): map<string, Value>
  {
    map["use_cache" := Bool(true), "cache_size" := Int(1000), "normalize_data" := Bool(true), "test_size" := Real(0.2),
        "random_state" := Int(42), "shuffle" := Bool(true), "stratify" := Bool(true)]
  }

  function DefaultPreprocessing(): map<string, Value>
  {
    map["imputation_strategy" := Str("mean"), "scaling_method" := Str("robust"),
        "feature_selection_method" := Str("mutual_info"), "n_features" := Null, "pca_components" := Null,
        "outlier_detection" := Bool(true), "outlier_method" := Str("isolation_forest")]
  }

  function DefaultRollingWindow(): map<string, Value>
  {
    map["window_size" := Int(100), "step_size" := Int(1), "padding" := Str("same"), "overlap" := Bool(true)]
  }

  function DefaultExperiment(): map<string, Value>
  {
    map["n_folds" := Int(5), "cross_validation" := Bool(true), "hyperparameter_optimization" := Bool(true),
        "optimization_trials" := Int(100), "optimization_method" := Str("optuna"), "metric" := Str("f1_score"),
        "scoring" := Str("f1_weighted")]
  }

  function DefaultValidation(): map<string, Value>
  {
    map["check_data_integrity" := Bool(true), "validate_schema" := Bool(true), "check_missing_values" := Bool(true),
        "outlier_detection" := Bool(true), "data_quality_threshold" := Real(0.95), "max_missing_ratio" := Real(0.1)]
  }

  function DefaultPerformance(): map<string, Value>
  {
    map["use_multiprocessing" := Bool(true), "n_jobs" := Int(-1), "batch_size" := Int(1000),
        "memory_efficient" := Bool(true), "chunk_size" := Int(10000)]
  }

  function DefaultCache(): map<string, Value>
  {
    map["enabled" := Bool(true), "max_size" := Int(1000), "ttl" := Int(3600), "backend" := Str("memory"),
        "compression" := Bool(true)]
  }

  function DefaultExport(): map<string, Value>
  {
    map["formats" := List([Str("parquet"), Str("csv"), Str("numpy")]), "compression" := Str("brotli"),
        "include_metadata" := Bool(true), "save_preprocessing_pipeline" := Bool(true), "save_model" := Bool(true),
        "save_predictions" := Bool(true)]
  }

  function DefaultLogging(): map<string, Value>
  {
    map["level" := Str("INFO"), "format" := Str("%(asctime)s - %(name)s - %(levelname)s - %(message)s"),
        "file" := Str("logs/3w_integration.log"), "console" := Bool(true), "rotation" := Str("1 day"),
        "retention" := Str("30 days")]
  }

  /** The top-level sections of `get_threew_dataset_config`. */
  const DatasetSections: set<string> :=
    {"dataset", "problems", "loading", "preprocessing", "rolling_window", "experiments", "validation",
     "performance", "cache", "export", "logging"}

  /** `get_threew_dataset_config` */
  function GetDatasetConfig(): map<string, Value>
  {
    map[
      "dataset" := Dict(map[
        "name" := Str(DatasetName), "version" := Str(DatasetVersion), "description" := Str(Description),
        "paths" := Dict(map["toolkit" := Str("3W/toolkit"), "dataset" := Str("3W/dataset"),
                            "folds" := Str("3W/dataset/folds"), "problems" := Str("3W/problems"),
                            "overviews" := Str("3W/overviews")])]),
      "problems" := List([Str(DhsvProblem)]),
      "loading" := Dict(DefaultLoading()),
      "preprocessing" := Dict(DefaultPreprocessing()),
      "rolling_window" := Dict(DefaultRollingWindow()),
      "experiments" := Dict(map["default" := Dict(DefaultExperiment())]),
      "validation" := Dict(DefaultValidation()),
      "performance" := Dict(DefaultPerformance()),
      "cache" := Dict(DefaultCache()),
      "export" := Dict(DefaultExport()),
      "logging" := Dict(DefaultLogging())]
  }

  /** The dataset configuration has exactly the eleven sections. */
  lemma DatasetConfigSections()
    ensures GetDatasetConfig().Keys == DatasetSections
  {
  }

  /** The dataset configuration has every section `validate_config` requires. */
  lemma DatasetConfigValidates()
    ensures ConfigManagement.ValidateSpec(Dict(GetDatasetConfig())) == Ok(true)
  {
    ConfigManagement.ValidateDictionary(GetDatasetConfig());
  }

  /** `get_threew_problem_config`: the DHSV problem's settings, or the generic ones for any other name. */
  function GetProblemConfig(problemName: string): map<string, Value>
  {
    if problemName == DhsvProblem then
      map["name" := Str(problemName), "type" := Str("classification"), "target_column" := Int(0),
          "binary" := Bool(true), "positive_class" := Int(1), "negative_class" := Int(0),
          "metrics" := List([Str("accuracy"), Str("precision"), Str("recall"), Str("f1_score"), Str("roc_auc")]),
          "cv_strategy" := Str("stratified_kfold"), "n_splits" := Int(5), "shuffle" := Bool(true),
          "random_state" := Int(42)]
    else
      map["name" := Str(problemName), "type" := Str("unknown"), "target_column" := Int(0),
          "binary" := Bool(false), "metrics" := List([Str("accuracy")]), "cv_strategy" := Str("kfold"),
          "n_splits" := Int(5), "shuffle" := Bool(true), "random_state" := Int(42)]
  }

  /**
   * Every problem configuration echoes the name and uses target column 0,
   * five splits and random state 42; only the DHSV problem is a binary
   * classification with stratified folds and positive class 1.
   */
  lemma ProblemConfigFields(problemName: string)
    ensures var c := GetProblemConfig(problemName);
      c["name"] == Str(problemName) && c["target_column"] == Int(0) && c["n_splits"] == Int(5)
      && c["random_state"] == Int(42) && c["shuffle"] == Bool(true)
    ensures var c := GetProblemConfig(problemName);
      problemName == DhsvProblem <==> c["binary"] == Bool(true)
    ensures var c := GetProblemConfig(problemName);
      problemName == DhsvProblem ==>
        c["type"] == Str("classification") && c["positive_class"] == Int(1) && c["negative_class"] == Int(0)
        && c["cv_strategy"] == Str("stratified_kfold")
    ensures var c := GetProblemConfig(problemName);
      problemName != DhsvProblem ==>
        c["type"] == Str("unknown") && c["cv_strategy"] == Str("kfold") && "positive_class" !in c
  {
  }

  /** `get_threew_experiment_config`: a copy of the default experiment table, whatever the name. */
  function GetExperimentConfig(experimentName: string): map<string, Value>
  {
    if experimentName == "default" then DefaultExperiment() else DefaultExperiment()
  }

  lemma ExperimentConfigIgnoresName(a: string, b: string)
    ensures GetExperimentConfig(a) == GetExperimentConfig(b) == DefaultExperiment()
  {
  }

  /** The configuration `get_threew_*` getters read: one per getter. */
  datatype Setting =
    | WindowSize | StepSize | Padding | ScalingMethod | ImputationStrategy | FeatureSelectionMethod
    | NFeatures | PcaComponents | TestSize | RandomState | NFolds | OptimizationTrials | Metric
    | UseCache | CacheSize | NJobs | BatchSize

  /** The section of the "3w" configuration a getter reads. */
  function SectionName(s: Setting): string
  {
    match s
    case WindowSize | StepSize | Padding => "rolling_window"
    case ScalingMethod | ImputationStrategy | FeatureSelectionMethod | NFeatures | PcaComponents => "preprocessing"
    case TestSize | RandomState => "loading"
    case NFolds | OptimizationTrials | Metric => "experiments"
    case UseCache | CacheSize => "cache"
    case NJobs | BatchSize => "performance"
  }

  /** The last key of a getter's path. */
  function LeafKey(s: Setting): string
  {
    match s
    case WindowSize => "window_size"
    case StepSize => "step_size"
    case Padding => "padding"
    case ScalingMethod => "scaling_method"
    case ImputationStrategy => "imputation_strategy"
    case FeatureSelectionMethod => "feature_selection_method"
    case NFeatures => "n_features"
    case PcaComponents => "pca_components"
    case TestSize => "test_size"
    case RandomState => "random_state"
    case NFolds => "n_folds"
    case OptimizationTrials => "optimization_trials"
    case Metric => "metric"
    case UseCache => "enabled"
    case CacheSize => "max_size"
    case NJobs => "n_jobs"
    case BatchSize => "batch_size"
  }

  /** The experiment getters read under "experiments.default". */
  predicate InExperiment(s: Setting)
  {
    s.NFolds? || s.OptimizationTrials? || s.Metric?
  }

  /** The keys of the dotted path a getter looks up, section first, such as ["rolling_window", "window_size"]. */
  function SettingKeys(s: Setting): seq<string>
  {
    if InExperiment(s) then [SectionName(s), "default", LeafKey(s)] else [SectionName(s), LeafKey(s)]
  }

  /** The path string the getter passes, such as "rolling_window.window_size". */
  function SettingPath(s: Setting): string
  {
    Text.Join(SettingKeys(s), '.')
  }

  /** The `DEFAULT_*` entry a getter falls back to. */
  function SettingDefault(s: Setting): Value
  {
    match s
    case WindowSize => Int(100)
    case StepSize => Int(1)
    case Padding => Str("same")
    case ScalingMethod => Str("robust")
    case ImputationStrategy => Str("mean")
    case FeatureSelectionMethod => Str("mutual_info")
    case NFeatures => Null
    case PcaComponents => Null
    case TestSize => Real(0.2)
    case RandomState => Int(42)
    case NFolds => Int(5)
    case OptimizationTrials => Int(100)
    case Metric => Str("f1_score")
    case UseCache => Bool(true)
    case CacheSize => Int(1000)
    case NJobs => Int(-1)
    case BatchSize => Int(1000)
  }

  /** The `DEFAULT_*` table a getter's fallback is taken from. */
  function SettingTable(s: Setting): map<string, Value>
  {
    match s
    case WindowSize | StepSize | Padding => DefaultRollingWindow()
    case ScalingMethod | ImputationStrategy | FeatureSelectionMethod | NFeatures | PcaComponents => DefaultPreprocessing()
    case TestSize | RandomState => DefaultLoading()
    case NFolds | OptimizationTrials | Metric => DefaultExperiment()
    case UseCache | CacheSize => DefaultCache()
    case NJobs | BatchSize => DefaultPerformance()
  }

  lemma RollingWindowEntries()
    ensures var m := DefaultRollingWindow();
      "window_size" in m && m["window_size"] == Int(100) && "step_size" in m && m["step_size"] == Int(1)
      && "padding" in m && m["padding"] == Str("same")
  {
  }

  lemma PreprocessingEntries()
    ensures var m := DefaultPreprocessing();
      "scaling_method" in m && m["scaling_method"] == Str("robust")
      && "imputation_strategy" in m && m["imputation_strategy"] == Str("mean")
      && "feature_selection_method" in m && m["feature_selection_method"] == Str("mutual_info")
      && "n_features" in m && m["n_features"] == Null && "pca_components" in m && m["pca_components"] == Null
  {
  }

  lemma LoadingEntries()
    ensures var m := DefaultLoading();
      "test_size" in m && m["test_size"] == Real(0.2) && "random_state" in m && m["random_state"] == Int(42)
  {
  }

  lemma ExperimentEntries()
    ensures var m := DefaultExperiment();
      "n_folds" in m && m["n_folds"] == Int(5) && "optimization_trials" in m && m["optimization_trials"] == Int(100)
      && "metric" in m && m["metric"] == Str("f1_score")
  {
  }

  lemma CacheEntries()
    ensures var m := DefaultCache();
      "enabled" in m && m["enabled"] == Bool(true) && "max_size" in m && m["max_size"] == Int(1000)
  {
  }

  lemma PerformanceEntries()
    ensures var m := DefaultPerformance();
      "n_jobs" in m && m["n_jobs"] == Int(-1) && "batch_size" in m && m["batch_size"] == Int(1000)
  {
  }

  /** Each fallback is the entry of its table under the path's last key. */
  lemma SettingDefaultFromTable(s: Setting)
    ensures LeafKey(s) in SettingTable(s) && SettingTable(s)[LeafKey(s)] == SettingDefault(s)
  {
    match s
    case WindowSize | StepSize | Padding => RollingWindowEntries();
    case ScalingMethod | ImputationStrategy | FeatureSelectionMethod | NFeatures | PcaComponents =>
      PreprocessingEntries();
    case TestSize | RandomState => LoadingEntries();
    case NFolds | OptimizationTrials | Metric => ExperimentEntries();
    case UseCache | CacheSize => CacheEntries();
    case NJobs | BatchSize => PerformanceEntries();
  }

  /** The keys of every getter's path are free of dots, so the dotted path splits back into them. */
  lemma KeysWithoutDots(s: Setting)
    ensures forall k :: 0 <= k < |SettingKeys(s)| ==> '.' !in SettingKeys(s)[k]
  {
    if s.WindowSize? || s.StepSize? || s.Padding? {
      RollingWindowKeys(s);
    } else if s.ScalingMethod? || s.ImputationStrategy? || s.FeatureSelectionMethod? || s.NFeatures? || s.PcaComponents? {
      PreprocessingKeys(s);
    } else if s.TestSize? || s.RandomState? {
      LoadingKeys(s);
    } else if s.NFolds? || s.OptimizationTrials? || s.Metric? {
      ExperimentKeys(s);
    } else if s.UseCache? || s.CacheSize? {
      CacheKeys(s);
    } else {
      PerformanceKeys(s);
    }
  }

  lemma RollingWindowKeys(s: Setting)
    requires s.WindowSize? || s.StepSize? || s.Padding?
    ensures forall k :: 0 <= k < |SettingKeys(s)| ==> '.' !in SettingKeys(s)[k]
  {
  }

  lemma PreprocessingKeys(s: Setting)
    requires s.ScalingMethod? || s.ImputationStrategy? || s.FeatureSelectionMethod? || s.NFeatures? || s.PcaComponents?
    ensures forall k :: 0 <= k < |SettingKeys(s)| ==> '.' !in SettingKeys(s)[k]
  {
  }

  lemma LoadingKeys(s: Setting)
    requires s.TestSize? || s.RandomState?
    ensures forall k :: 0 <= k < |SettingKeys(s)| ==> '.' !in SettingKeys(s)[k]
  {
  }

  lemma ExperimentKeys(s: Setting)
    requires s.NFolds? || s.OptimizationTrials? || s.Metric?
    ensures forall k :: 0 <= k < |SettingKeys(s)| ==> '.' !in SettingKeys(s)[k]
  {
  }

  lemma CacheKeys(s: Setting)
    requires s.UseCache? || s.CacheSize?
    ensures forall k :: 0 <= k < |SettingKeys(s)| ==> '.' !in SettingKeys(s)[k]
  {
  }

  lemma PerformanceKeys(s: Setting)
    requires s.NJobs? || s.BatchSize?
    ensures forall k :: 0 <= k < |SettingKeys(s)| ==> '.' !in SettingKeys(s)[k]
  {
  }

  /** A `get_threew_*` getter, given the loaded "3w" configuration. */
  function GetSetting(config: Value, s: Setting): (v: Value)
    ensures v == (match Reach(config, SettingKeys(s)) case Some(found) => found case None => SettingDefault(s))
  {
    KeysWithoutDots(s);
    Text.JoinSplit(SettingKeys(s), '.');
    ConfigManagement.SettingSpec(config, SettingPath(s), SettingDefault(s))
  }

  /** Without a loaded dictionary every getter gives its default: window 100, step 1, "same" padding. */
  lemma GetterDefaults(config: Value, s: Setting)
    requires !config.Dict?
    ensures GetSetting(config, s) == SettingDefault(s)
    ensures GetSetting(config, WindowSize) == Int(100) && GetSetting(config, Padding) == Str("same")
  {
  }

  /** The dataset configuration stores, at every getter's path, the getter's default. */
  lemma DatasetConfigAgrees(c: map<string, Value>, s: Setting)
    requires c == GetDatasetConfig()
    ensures GetSetting(Dict(c), s) == SettingDefault(s)
  {
    if s.WindowSize? || s.StepSize? || s.Padding? {
      RollingWindowAgrees(c, s);
    } else if s.ScalingMethod? || s.ImputationStrategy? || s.FeatureSelectionMethod? || s.NFeatures? || s.PcaComponents? {
      PreprocessingAgrees(c, s);
    } else if s.TestSize? || s.RandomState? {
      LoadingAgrees(c, s);
    } else if InExperiment(s) {
      ExperimentAgrees(c, s);
    } else if s.UseCache? || s.CacheSize? {
      CacheAgrees(c, s);
    } else {
      PerformanceAgrees(c, s);
    }
  }

  lemma RollingWindowAgrees(c: map<string, Value>, s: Setting)
    requires c == GetDatasetConfig()
    requires s.WindowSize? || s.StepSize? || s.Padding?
    ensures GetSetting(Dict(c), s) == SettingDefault(s)
  {
    assert "rolling_window" in c && c["rolling_window"] == Dict(DefaultRollingWindow());
    RollingWindowEntries();
    var leaf := LeafKey(s);
    assert SettingKeys(s) == ["rolling_window", leaf];
    assert Reach(Dict(DefaultRollingWindow()), [leaf]) == Some(SettingDefault(s));
    assert Reach(Dict(c), SettingKeys(s)) == Some(SettingDefault(s));
  }

  lemma PreprocessingAgrees(c: map<string, Value>, s: Setting)
    requires c == GetDatasetConfig()
    requires s.ScalingMethod? || s.ImputationStrategy? || s.FeatureSelectionMethod? || s.NFeatures? || s.PcaComponents?
    ensures GetSetting(Dict(c), s) == SettingDefault(s)
  {
    assert "preprocessing" in c && c["preprocessing"] == Dict(DefaultPreprocessing());
    PreprocessingEntries();
    var leaf := LeafKey(s);
    assert SettingKeys(s) == ["preprocessing", leaf];
    assert Reach(Dict(DefaultPreprocessing()), [leaf]) == Some(SettingDefault(s));
    assert Reach(Dict(c), SettingKeys(s)) == Some(SettingDefault(s));
  }

  lemma LoadingAgrees(c: map<string, Value>, s: Setting)
    requires c == GetDatasetConfig()
    requires s.TestSize? || s.RandomState?
    ensures GetSetting(Dict(c), s) == SettingDefault(s)
  {
    assert "loading" in c && c["loading"] == Dict(DefaultLoading());
    LoadingEntries();
    var leaf := LeafKey(s);
    assert SettingKeys(s) == ["loading", leaf];
    assert Reach(Dict(DefaultLoading()), [leaf]) == Some(SettingDefault(s));
    assert Reach(Dict(c), SettingKeys(s)) == Some(SettingDefault(s));
  }

  lemma ExperimentAgrees(c: map<string, Value>, s: Setting)
    requires c == GetDatasetConfig()
    requires InExperiment(s)
    ensures GetSetting(Dict(c), s) == SettingDefault(s)
  {
    var section := Dict(map["default" := Dict(DefaultExperiment())]);
    assert "experiments" in c && c["experiments"] == section;
    ExperimentSectionAgrees(s);
    assert SettingKeys(s) == ["experiments"] + ["default", LeafKey(s)];
    assert Reach(Dict(c), SettingKeys(s)) == Some(SettingDefault(s));
  }

  lemma ExperimentSectionAgrees(s: Setting)
    requires InExperiment(s)
    ensures Reach(Dict(map["default" := Dict(DefaultExperiment())]), ["default", LeafKey(s)]) == Some(SettingDefault(s))
  {
    ExperimentEntries();
    var leaf := LeafKey(s);
    assert Reach(Dict(DefaultExperiment()), [leaf]) == Some(SettingDefault(s));
    assert ["default", leaf][1..] == [leaf];
  }

  lemma CacheAgrees(c: map<string, Value>, s: Setting)
    requires c == GetDatasetConfig()
    requires s.UseCache? || s.CacheSize?
    ensures GetSetting(Dict(c), s) == SettingDefault(s)
  {
    assert "cache" in c && c["cache"] == Dict(DefaultCache());
    CacheEntries();
    var leaf := LeafKey(s);
    assert SettingKeys(s) == ["cache", leaf];
    assert Reach(Dict(DefaultCache()), [leaf]) == Some(SettingDefault(s));
    assert Reach(Dict(c), SettingKeys(s)) == Some(SettingDefault(s));
  }

  lemma PerformanceAgrees(c: map<string, Value>, s: Setting)
    requires c == GetDatasetConfig()
    requires s.NJobs? || s.BatchSize?
    ensures GetSetting(Dict(c), s) == SettingDefault(s)
  {
    assert "performance" in c && c["performance"] == Dict(DefaultPerformance());
    PerformanceEntries();
    var leaf := LeafKey(s);
    assert SettingKeys(s) == ["performance", leaf];
    assert Reach(Dict(DefaultPerformance()), [leaf]) == Some(SettingDefault(s));
    assert Reach(Dict(c), SettingKeys(s)) == Some(SettingDefault(s));
  }
}
