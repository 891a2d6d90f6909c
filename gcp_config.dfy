/**
 * `GCPConfig`: every setting is looked up first in the YAML document, by a
 * dotted path walked through nested dictionaries, then in the environment
 * variable named after the path, then falls back to a default. The sections
 * (authentication, Vertex AI, AI Platform, Cloud Storage, MLflow, training)
 * are tables of such lookups; the storage paths default to locations in the
 * resolved bucket; validation collects warnings.
 *
 * The environment is a map from variable name to text, as it stands after
 * the `.env` file has been loaded. The YAML file is its outcome: absent,
 * unparsable, unreadable for another reason, or a parsed document.
 */
module GcpConfig {
  import opened Wrappers
  import opened Values
  import Text

  type Env = map<string, string>

  /** `os.getenv(name, default)`: a set variable's text, even when empty, else the default. */
  function Getenv(env: Env, name: string, default: Value): Value
  {
    if name in env then Str(env[name]) else default
  }

  /** The environment variable `_get_config_value` consults: the path upper-cased, "." replaced by "_". */
  function EnvKey(keyPath: string): (k: string)
    ensures |k| == |keyPath| && '.' !in k
    ensures forall i :: 0 <= i < |keyPath| && keyPath[i] == '.' ==> k[i] == '_'
  {
    Text.ReplaceChar(Text.Upper(keyPath), '.', '_')
  }

  /**
   * The value `_get_config_value` settles on for the path whose "."-separated
   * keys are `keys`.
   */
  function ConfigValue(yaml: Value, env: Env, keys: seq<string>, default: Value): Value
  {
    var found := Reach(yaml, keys);
    if found.Some? && !found.value.Null? then found.value else Getenv(env, EnvKey(Text.Join(keys, '.')), default)
  }

  /**
   * A value found in the YAML wins unless it is `None`, even when it is
   * falsy (`False`, 0, ""); otherwise the environment variable, then the default.
   */
  lemma ConfigValueCases(yaml: Value, env: Env, keys: seq<string>, default: Value)
    ensures var found := Reach(yaml, keys);
      found.Some? && !found.value.Null? ==> ConfigValue(yaml, env, keys, default) == found.value
    ensures var found, name := Reach(yaml, keys), EnvKey(Text.Join(keys, '.'));
      (found.None? || found == Some(Null)) && name in env ==> ConfigValue(yaml, env, keys, default) == Str(env[name])
    ensures var found, name := Reach(yaml, keys), EnvKey(Text.Join(keys, '.'));
      (found.None? || found == Some(Null)) && name !in env ==> ConfigValue(yaml, env, keys, default) == default
    ensures Reach(yaml, keys) == Some(Bool(false)) ==> ConfigValue(yaml, env, keys, default) == Bool(false)
    ensures Reach(yaml, keys) == Some(Str("")) ==> ConfigValue(yaml, env, keys, default) == Str("")
  {
  }

  /** With an empty YAML map every value comes from the environment or the default. */
  lemma EmptyYamlUsesEnvironment(env: Env, keys: seq<string>, default: Value)
    requires |keys| >= 1
    ensures ConfigValue(Dict(map[]), env, keys, default) == Getenv(env, EnvKey(Text.Join(keys, '.')), default)
  {
    var empty: map<string, Value> := map[];
    assert keys[0] !in empty;
  }

  /** `_get_config_value`: walk the YAML by the "."-split path, then fall back to the environment. */
  method GetConfigValue(yaml: Value, env: Env, keyPath: string, default: Value) returns (r: Value)
    ensures r == ConfigValue(yaml, env, Text.Split(keyPath, '.'), default)
  {
    var keys := Text.Split(keyPath, '.');
    var value := yaml;
    for i := 0 to |keys|
      invariant Reach(yaml, keys) == Reach(value, keys[i..])
    {
      assert keys[i..][0] == keys[i] && keys[i..][1..] == keys[i + 1..];
      if value.Dict? && keys[i] in value.entries {
        value := value.entries[keys[i]];
      } else {
        assert Reach(yaml, keys).None?;
        value := Null;
        break;
      }
    }
    if !value.Null? {
      return value;
    }
    Text.SplitJoin(keyPath, '.');
    var envKey := Text.ReplaceChar(Text.Upper(keyPath), '.', '_');
    r := if envKey in env then Str(env[envKey]) else default;
  }

  /** One dataclass field: its name, the keys of the path it is read from, and its default. */
  datatype Field = Field(name: string, keys: seq<string>, default: Value)

  /** The field names of a section. */
  function Names(fields: seq<Field>): set<string>
  {
    set f | f in fields :: f.name
  }

  /** A section built from its fields, in order: each name maps to its looked-up value. */
  function Section(yaml: Value, env: Env, fields: seq<Field>): map<string, Value>
  {
    if fields == [] then map[]
    else
      var last := fields[|fields| - 1];
      Section(yaml, env, fields[..|fields| - 1])[last.name := ConfigValue(yaml, env, last.keys, last.default)]
  }

  /** A section has exactly its fields' names as keys. */
  lemma {:induction false} SectionKeys(yaml: Value, env: Env, fields: seq<Field>)
    ensures Section(yaml, env, fields).Keys == Names(fields)
    decreases |fields|
  {
    if fields != [] {
      var init, last := fields[..|fields| - 1], fields[|fields| - 1];
      SectionKeys(yaml, env, init);
      assert fields == init + [last];
      assert Names(fields) == Names(init) + {last.name};
    }
  }

  /** A field no later field renames holds its looked-up value. */
  lemma {:induction false} SectionAt(yaml: Value, env: Env, fields: seq<Field>, i: nat)
    requires i < |fields| && forall j :: i < j < |fields| ==> fields[j].name != fields[i].name
    ensures fields[i].name in Section(yaml, env, fields)
    ensures Section(yaml, env, fields)[fields[i].name] == ConfigValue(yaml, env, fields[i].keys, fields[i].default)
    decreases |fields|
  {
    if i < |fields| - 1 {
      SectionAt(yaml, env, fields[..|fields| - 1], i);
    }
  }

  function AuthFields(env: Env): seq<Field>
  {
    [Field("service_account_key_path", ["google_cloud", "authentication", "service_account_key_path"],
           Getenv(env, "GOOGLE_APPLICATION_CREDENTIALS", Null)),
     Field("application_default_credentials", ["google_cloud", "authentication", "application_default_credentials"],
           Bool(true)),
     Field("project_id", ["google_cloud", "project_id"], Getenv(env, "GOOGLE_CLOUD_PROJECT", Null)),
     Field("region", ["google_cloud", "region"], Getenv(env, "GOOGLE_CLOUD_REGION", Str("us-central1"))),
     Field("zone", ["google_cloud", "zone"], Getenv(env, "GOOGLE_CLOUD_ZONE", Str("us-central1-a")))]
  }

  function VertexAiFields(env: Env): seq<Field>
  {
    [Field("location", ["vertex_ai", "location"], Getenv(env, "VERTEX_AI_LOCATION", Str("us-central1"))),
     Field("experiment_name", ["vertex_ai", "experiment", "name"],
           Getenv(env, "VERTEX_AI_EXPERIMENT_NAME", Str("petrobras-anomaly-detection"))),
     Field("model_registry_name", ["vertex_ai", "model_registry", "name"], Str("anomaly-detection-models")),
     Field("default_machine_type", ["vertex_ai", "training_jobs", "default_machine_type"], Str("n1-standard-4")),
     Field("default_accelerator_type", ["vertex_ai", "training_jobs", "default_accelerator_type"],
           Str("NVIDIA_TESLA_T4")),
     Field("default_accelerator_count", ["vertex_ai", "training_jobs", "default_accelerator_count"], Int(1))]
  }

  const MasterTypeKeys: seq<string> := ["ai_platform_training", "machine_types", "master", "0"]

  function AiPlatformFields(env: Env): seq<Field>
  {
    [Field("region", ["ai_platform_training", "region"],
           Getenv(env, "AI_PLATFORM_TRAINING_REGION", Str("us-central1"))),
     Field("scale_tier", ["ai_platform_training", "scale_tiers", "basic_gpu"],
           Getenv(env, "AI_PLATFORM_TRAINING_SCALE_TIER", Str("BASIC_GPU"))),
     Field("master_type", MasterTypeKeys,
           Getenv(env, "AI_PLATFORM_TRAINING_MASTER_TYPE", Str("n1-standard-4"))),
     Field("worker_type", ["ai_platform_training", "machine_types", "worker", "0"],
           Getenv(env, "AI_PLATFORM_TRAINING_WORKER_TYPE", Str("n1-standard-4"))),
     Field("worker_count", ["ai_platform_training", "worker_count"],
           Getenv(env, "AI_PLATFORM_TRAINING_WORKER_COUNT", Str("2")))]
  }

  function MlflowFields(env: Env): seq<Field>
  {
    [Field("tracking_uri", ["mlflow", "tracking_uri"], Getenv(env, "MLFLOW_TRACKING_URI", Str("http://localhost:5000"))),
     Field("experiment_name", ["mlflow", "experiment_name"],
           Getenv(env, "MLFLOW_EXPERIMENT_NAME", Str("petrobras-anomaly-detection"))),
     Field("artifacts_storage", ["mlflow", "artifacts", "storage"], Str("gcs")),
     Field("artifacts_bucket", ["mlflow", "artifacts", "bucket"], Getenv(env, "GCS_BUCKET_NAME", Str("your-bucket-name"))),
     Field("artifacts_path", ["mlflow", "artifacts", "path"], Str("mlflow-artifacts"))]
  }

  function TrainingFields(env: Env): seq<Field>
  {
    [Field("batch_size", ["training", "default", "batch_size"], Getenv(env, "MODEL_BATCH_SIZE", Str("32"))),
     Field("learning_rate", ["training", "default", "learning_rate"], Getenv(env, "MODEL_LEARNING_RATE", Str("0.001"))),
     Field("epochs", ["training", "default", "epochs"], Getenv(env, "MODEL_EPOCHS", Str("100"))),
     Field("validation_split", ["training", "default", "validation_split"],
           Getenv(env, "MODEL_VALIDATION_SPLIT", Str("0.2")))]
  }

  /** The text an f-string gives for a value; floats and containers are not rendered. */
  function Show(v: Value): string
  {
    match v
    case Str(s) => s
    case Int(i) => Text.IntToString(i)
    case Bool(b) => if b then "True" else "False"
    case Null => "None"
    case _ => ""
  }

  /** The storage fields whose defaults are locations in the bucket, each with its path suffix. */
  const StoragePaths: seq<(string, string)> :=
    [("data_path", "data"), ("models_path", "models"), ("experiments_path", "experiments"), ("logs_path", "logs"),
     ("checkpoints_path", "checkpoints")]

  /** The five path fields of `_init_storage_config`, defaulting to "gs://<bucket>/<suffix>". */
  function StorageFields(bucket: Value): (fields: seq<Field>)
    ensures |fields| == |StoragePaths|
    ensures forall i :: 0 <= i < |StoragePaths| ==>
      fields[i] == Field(StoragePaths[i].0, ["cloud_storage", "paths", StoragePaths[i].1],
                         Str("gs://" + Show(bucket) + "/" + StoragePaths[i].1))
  {
    seq(|StoragePaths|, i requires 0 <= i < |StoragePaths| =>
      Field(StoragePaths[i].0, ["cloud_storage", "paths", StoragePaths[i].1],
            Str("gs://" + Show(bucket) + "/" + StoragePaths[i].1)))
  }

  const BucketKeys: seq<string> := ["cloud_storage", "bucket_name"]

  /**
   * The bucket `_init_storage_config` resolves: the YAML's
   * cloud_storage.bucket_name, then CLOUD_STORAGE_BUCKET_NAME, then
   * GCS_BUCKET_NAME, then "your-bucket-name".
   */
  function BucketName(yaml: Value, env: Env): Value
  {
    ConfigValue(yaml, env, BucketKeys, Getenv(env, "GCS_BUCKET_NAME", Str("your-bucket-name")))
  }

  /** `_init_storage_config`: the resolved bucket, then the five paths with defaults in that bucket. */
  function StorageSection(yaml: Value, env: Env): (s: map<string, Value>)
    ensures "bucket_name" in s && s["bucket_name"] == BucketName(yaml, env)
  {
    var bucket := BucketName(yaml, env);
    Section(yaml, env, StorageFields(bucket))["bucket_name" := bucket]
  }

  /** The storage section holds the bucket and the five paths, and nothing else. */
  lemma StorageSectionKeys(yaml: Value, env: Env)
    ensures StorageSection(yaml, env).Keys == {"bucket_name"} + set i | 0 <= i < |StoragePaths| :: StoragePaths[i].0
  {
    var fields := StorageFields(BucketName(yaml, env));
    var names := set i | 0 <= i < |StoragePaths| :: StoragePaths[i].0;
    SectionKeys(yaml, env, fields);
    forall n | n in Names(fields) ensures n in names {
      var f :| f in fields && f.name == n;
      var i :| 0 <= i < |fields| && fields[i] == f;
      assert StoragePaths[i].0 == n;
    }
    forall n | n in names ensures n in Names(fields) {
      var i :| 0 <= i < |StoragePaths| && StoragePaths[i].0 == n;
      assert fields[i] in fields;
    }
  }

  /** The storage paths names are distinct and none of them is "bucket_name". */
  lemma StorageNamesDistinct()
    ensures forall i, j :: 0 <= i < j < |StoragePaths| ==> StoragePaths[i].0 != StoragePaths[j].0
    ensures forall i :: 0 <= i < |StoragePaths| ==> StoragePaths[i].0 != "bucket_name"
  {
  }

  /**
   * A storage path neither in the YAML nor in its environment variable is
   * "gs://<bucket>/<suffix>" in the resolved bucket; one found in either is
   * taken as it is.
   */
  lemma StoragePathDefault(yaml: Value, env: Env, i: nat)
    requires i < |StoragePaths|
    ensures StoragePaths[i].0 in StorageSection(yaml, env)
    ensures var keys := ["cloud_storage", "paths", StoragePaths[i].1];
      StorageSection(yaml, env)[StoragePaths[i].0] ==
        ConfigValue(yaml, env, keys, Str("gs://" + Show(BucketName(yaml, env)) + "/" + StoragePaths[i].1))
  {
    var fields := StorageFields(BucketName(yaml, env));
    StorageNamesDistinct();
    SectionAt(yaml, env, fields, i);
  }

  /**
   * Without a YAML document the bucket is CLOUD_STORAGE_BUCKET_NAME if set,
   * else GCS_BUCKET_NAME if set, else "your-bucket-name".
   */
  lemma BucketPrecedence(env: Env)
    ensures var name := EnvKey(Text.Join(BucketKeys, '.'));
      BucketName(Dict(map[]), env) ==
        if name in env then Str(env[name])
        else if "GCS_BUCKET_NAME" in env then Str(env["GCS_BUCKET_NAME"])
        else Str("your-bucket-name")
  {
    EmptyYamlUsesEnvironment(env, BucketKeys, Getenv(env, "GCS_BUCKET_NAME", Str("your-bucket-name")));
  }

  /**
   * The master machine type's path goes through "0", which no dictionary
   * step can take when the YAML holds a list there: the value always comes
   * from the environment or the default.
   */
  lemma MasterTypeNeverFromYamlList(yaml: Value, env: Env, items: seq<Value>, default: Value)
    requires Reach(yaml, MasterTypeKeys[..3]) == Some(List(items))
    ensures ConfigValue(yaml, env, MasterTypeKeys, default) == Getenv(env, EnvKey(Text.Join(MasterTypeKeys, '.')), default)
  {
    assert MasterTypeKeys == MasterTypeKeys[..3] + ["0"];
    ReachAppend(yaml, MasterTypeKeys[..3], ["0"]);
  }

  /** The outcome of reading the YAML file named by `config_path`. */
  datatype YamlFile = NotFound | Unparsable | Unreadable | Loaded(document: Value)

  /** `GCPConfig`'s state: the YAML document, the environment, and its sections. */
  datatype GcpSettings = GcpSettings(
    yaml: Value, env: Env,
    auth: map<string, Value>, vertexAi: map<string, Value>, aiPlatform: map<string, Value>,
    storage: map<string, Value>, mlflow: map<string, Value>, training: map<string, Value>)

  /**
   * `GCPConfig(config_path)`: no path, a missing file and an unparsable file
   * leave the YAML map empty; any other read error escapes the constructor
   * (`None`). `yaml.safe_load` of an empty file gives `None`, which no path can walk.
   */
  function NewGcpSettings(file: Option<YamlFile>, env: Env): (r: Option<GcpSettings>)
    ensures r.None? <==> file == Some(Unreadable)
    ensures r.Some? ==> r.value.env == env && r.value.storage == StorageSection(r.value.yaml, env)
    ensures r.Some? ==>
      var y := r.value.yaml;
      r.value.auth == Section(y, env, AuthFields(env)) && r.value.vertexAi == Section(y, env, VertexAiFields(env))
      && r.value.aiPlatform == Section(y, env, AiPlatformFields(env)) && r.value.mlflow == Section(y, env, MlflowFields(env))
      && r.value.training == Section(y, env, TrainingFields(env))
    ensures r.Some? ==> Some(r.value.yaml) == YamlDocument(file)
    ensures r.Some? && file.Some? && file.value.Loaded? ==> r.value.yaml == file.value.document
  {
    var yaml := YamlDocument(file);
    if yaml.None? then None else Some(SettingsFrom(yaml.value, env))
  }

  /** The document the constructor keeps: `{}` for no file, a missing file or an unparsable one. */
  function YamlDocument(file: Option<YamlFile>): Option<Value>
  {
    match file
    case None => Some(Dict(map[]))
    case Some(NotFound) => Some(Dict(map[]))
    case Some(Unparsable) => Some(Dict(map[]))
    case Some(Unreadable) => None
    case Some(Loaded(document)) => Some(document)
  }

  /** Every section looked up in the document and the environment. */
  function SettingsFrom(y: Value, env: Env): GcpSettings
  {
    GcpSettings(y, env, Section(y, env, AuthFields(env)), Section(y, env, VertexAiFields(env)),
                Section(y, env, AiPlatformFields(env)), StorageSection(y, env), Section(y, env, MlflowFields(env)),
                Section(y, env, TrainingFields(env)))
  }

  /** A missing or unparsable file keeps the same document as no file at all: the empty map. */
  lemma MissingYamlUsesDefaults()
    ensures YamlDocument(Some(NotFound)) == YamlDocument(Some(Unparsable)) == YamlDocument(None) == Some(Dict(map[]))
  {
  }

  /** The settings depend on the file only through the document kept from it. */
  lemma SameDocumentSameSettings(f: Option<YamlFile>, g: Option<YamlFile>, env: Env)
    requires YamlDocument(f) == YamlDocument(g)
    ensures NewGcpSettings(f, env) == NewGcpSettings(g, env)
  {
  }

  const NoProjectWarning := "GOOGLE_CLOUD_PROJECT not set"
  const NoAuthWarning := "No authentication method configured"
  const NoBucketWarning := "GCS_BUCKET_NAME not configured"

  /** The field of a section, `None` when the section lacks it. */
  function Get(section: map<string, Value>, name: string): Value
  {
    if name in section then section[name] else Null
  }

  /**
   * `_validate_config`: a warning for a falsy project id, one when there is
   * neither a service-account key path nor application default credentials,
   * one when the bucket is still the placeholder; in that order, each at most once.
   */
  method ValidateConfig(c: GcpSettings) returns (warnings: seq<string>)
    ensures NoProjectWarning in warnings <==> !Truthy(Get(c.auth, "project_id"))
    ensures NoAuthWarning in warnings <==>
      !Truthy(Get(c.auth, "service_account_key_path")) && !Truthy(Get(c.auth, "application_default_credentials"))
    ensures NoBucketWarning in warnings <==> Get(c.storage, "bucket_name") == Str("your-bucket-name")
    ensures forall w :: w in warnings ==> w in [NoProjectWarning, NoAuthWarning, NoBucketWarning]
    ensures forall i, j :: 0 <= i < j < |warnings| ==> Rank(warnings[i]) < Rank(warnings[j])
  {
    warnings := [];
    if !Truthy(Get(c.auth, "project_id")) {
      warnings := warnings + [NoProjectWarning];
    }
    if !Truthy(Get(c.auth, "service_account_key_path")) && !Truthy(Get(c.auth, "application_default_credentials")) {
      warnings := warnings + [NoAuthWarning];
    }
    if Get(c.storage, "bucket_name") == Str("your-bucket-name") {
      warnings := warnings + [NoBucketWarning];
    }
  }

  /** The position of a warning in `_validate_config`'s order. */
  function Rank(w: string): nat
  {
    if w == NoProjectWarning then 0 else if w == NoAuthWarning then 1 else 2
  }

  const DefaultRequiredApis: seq<Value> :=
    [Str("aiplatform.googleapis.com"), Str("ml.googleapis.com"), Str("storage.googleapis.com"),
     Str("logging.googleapis.com"), Str("monitoring.googleapis.com"), Str("compute.googleapis.com"),
     Str("cloudbuild.googleapis.com")]

  const RequiredApisKeys: seq<string> := ["google_cloud", "required_apis"]

  /** `get_required_apis` */
  function RequiredApis(c: GcpSettings): Value
  {
    ConfigValue(c.yaml, c.env, RequiredApisKeys, List(DefaultRequiredApis))
  }

  /** `to_dict`: the six sections and the required APIs. */
  function ToDict(c: GcpSettings): (d: map<string, Value>)
    ensures d.Keys == {"auth", "vertex_ai", "ai_platform", "storage", "mlflow", "training", "required_apis"}
    ensures d["storage"] == Dict(c.storage) && d["required_apis"] == RequiredApis(c)
  {
    map["auth" := Dict(c.auth), "vertex_ai" := Dict(c.vertexAi), "ai_platform" := Dict(c.aiPlatform),
        "storage" := Dict(c.storage), "mlflow" := Dict(c.mlflow), "training" := Dict(c.training),
        "required_apis" := RequiredApis(c)]
  }

  /** Without YAML or environment the required APIs are the seven defaults. */
  lemma RequiredApisDefault(c: GcpSettings)
    requires c.yaml == Dict(map[]) && EnvKey(Text.Join(RequiredApisKeys, '.')) !in c.env
    ensures RequiredApis(c) == List(DefaultRequiredApis) && |DefaultRequiredApis| == 7
  {
    EmptyYamlUsesEnvironment(c.env, RequiredApisKeys, List(DefaultRequiredApis));
  }
}
