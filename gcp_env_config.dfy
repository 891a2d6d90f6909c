/**
 * `GCPEnvConfig`: the project id and bucket are required environment
 * variables, the region, zone, Vertex AI location and service-account key
 * path are optional ones; the storage paths and Vertex AI settings are built
 * from them. The environment is a map from variable name to text; whether a
 * file exists is a parameter.
 */
module GcpEnvConfig {
  import opened Wrappers

  type Env = map<string, string>

  datatype EnvError =
    | MissingVariable(key: string)        // ValueError
    | KeyFileNotFound(path: string)       // FileNotFoundError

  /** `_get_required_env`: the variable's text, an error when it is unset or empty. */
  function RequiredEnv(env: Env, key: string): (r: Result<string, EnvError>)
    ensures r.Ok? <==> key in env && env[key] != ""
    ensures r.Ok? ==> r.value == env[key]
    ensures r.Err? ==> r.error == MissingVariable(key)
  {
    if key in env && env[key] != "" then Ok(env[key]) else Err(MissingVariable(key))
  }

  /** `_get_env`: the variable's text, even when empty, else the default. */
  function OptionalEnv(env: Env, key: string, default: string): string
  {
    if key in env then env[key] else default
  }

  datatype GcpEnv = GcpEnv(
    projectId: string, region: string, zone: string, bucketName: string, vertexAiLocation: string,
    serviceAccountPath: string)

  /**
   * `GCPEnvConfig()`: the project id is read first, then the bucket; a
   * nonempty key path must name an existing file.
   */
  function NewGcpEnv(env: Env, fileExists: string -> bool): (r: Result<GcpEnv, EnvError>)
    ensures r.Ok? ==> "GCP_PROJECT_ID" in env && r.value.projectId == env["GCP_PROJECT_ID"]
    ensures r.Ok? ==> "GCP_BUCKET_NAME" in env && r.value.bucketName == env["GCP_BUCKET_NAME"]
    ensures r.Ok? ==> r.value.region == OptionalEnv(env, "GCP_REGION", "us-central1")
    ensures r.Ok? ==> r.value.zone == OptionalEnv(env, "GCP_ZONE", "us-central1-a")
    ensures r.Ok? ==> r.value.vertexAiLocation == OptionalEnv(env, "VERTEX_AI_LOCATION", "us-central1")
    ensures r.Ok? ==> r.value.serviceAccountPath == OptionalEnv(env, "GOOGLE_APPLICATION_CREDENTIALS", "")
  {
    var project := RequiredEnv(env, "GCP_PROJECT_ID");
    if project.Err? then Err(project.error)
    else
      var bucket := RequiredEnv(env, "GCP_BUCKET_NAME");
      if bucket.Err? then Err(bucket.error)
      else
        var keyPath := OptionalEnv(env, "GOOGLE_APPLICATION_CREDENTIALS", "");
        if keyPath != "" && !fileExists(keyPath) then Err(KeyFileNotFound(keyPath))
        else
          Ok(GcpEnv(project.value, OptionalEnv(env, "GCP_REGION", "us-central1"),
                    OptionalEnv(env, "GCP_ZONE", "us-central1-a"), bucket.value,
                    OptionalEnv(env, "VERTEX_AI_LOCATION", "us-central1"), keyPath))
  }

  /** The constructor fails exactly as the source orders its checks. */
  lemma NewGcpEnvErrors(env: Env, fileExists: string -> bool)
    ensures var r := NewGcpEnv(env, fileExists);
      r == Err(MissingVariable("GCP_PROJECT_ID")) <==> !("GCP_PROJECT_ID" in env && env["GCP_PROJECT_ID"] != "")
    ensures var r := NewGcpEnv(env, fileExists);
      r == Err(MissingVariable("GCP_BUCKET_NAME")) <==>
        ("GCP_PROJECT_ID" in env && env["GCP_PROJECT_ID"] != "") && !("GCP_BUCKET_NAME" in env && env["GCP_BUCKET_NAME"] != "")
    ensures var r, keyPath := NewGcpEnv(env, fileExists), OptionalEnv(env, "GOOGLE_APPLICATION_CREDENTIALS", "");
      r.Err? && r.error.KeyFileNotFound? ==> keyPath != "" && !fileExists(keyPath) && r.error.path == keyPath
    ensures NewGcpEnv(env, fileExists).Ok? <==>
      "GCP_PROJECT_ID" in env && env["GCP_PROJECT_ID"] != "" && "GCP_BUCKET_NAME" in env && env["GCP_BUCKET_NAME"] != ""
      && (OptionalEnv(env, "GOOGLE_APPLICATION_CREDENTIALS", "") == "" || fileExists(OptionalEnv(env, "GOOGLE_APPLICATION_CREDENTIALS", "")))
  {
  }

  /** The keys of `get_storage_paths` with the suffix each appends to the bucket. */
  const StorageSuffixes: seq<(string, string)> :=
    [("data", "data"), ("models", "models"), ("experiments", "experiments"), ("logs", "logs"),
     ("checkpoints", "checkpoints"), ("tensorboard", "tensorboard-logs"), ("mlflow_artifacts", "mlflow-artifacts")]

  /** `get_storage_paths`: seven locations under the bucket. */
  function GetStoragePaths(c: GcpEnv): map<string, string>
  {
    var base := "gs://" + c.bucketName;
    map["data" := base + "/data", "models" := base + "/models", "experiments" := base + "/experiments",
        "logs" := base + "/logs", "checkpoints" := base + "/checkpoints",
        "tensorboard" := base + "/tensorboard-logs", "mlflow_artifacts" := base + "/mlflow-artifacts"]
  }

  /** The storage paths have exactly the seven keys of the suffix table. */
  lemma StoragePathsKeys(c: GcpEnv)
    ensures GetStoragePaths(c).Keys == set i | 0 <= i < |StorageSuffixes| :: StorageSuffixes[i].0
  {
    var keys := set i | 0 <= i < |StorageSuffixes| :: StorageSuffixes[i].0;
    assert keys == {"data", "models", "experiments", "logs", "checkpoints", "tensorboard", "mlflow_artifacts"} by {
      assert StorageSuffixes[0].0 in keys && StorageSuffixes[1].0 in keys && StorageSuffixes[2].0 in keys;
      assert StorageSuffixes[3].0 in keys && StorageSuffixes[4].0 in keys && StorageSuffixes[5].0 in keys;
      assert StorageSuffixes[6].0 in keys;
    }
  }

  /** Each storage path is "gs://<bucket>/<suffix>" for its key's suffix. */
  lemma StoragePathsValues(c: GcpEnv)
    ensures forall i :: 0 <= i < |StorageSuffixes| ==>
      StorageSuffixes[i].0 in GetStoragePaths(c)
      && GetStoragePaths(c)[StorageSuffixes[i].0] == "gs://" + c.bucketName + "/" + StorageSuffixes[i].1
  {
    var paths, base := GetStoragePaths(c), "gs://" + c.bucketName;
    forall i | 0 <= i < |StorageSuffixes|
      ensures StorageSuffixes[i].0 in paths
      ensures paths[StorageSuffixes[i].0] == base + "/" + StorageSuffixes[i].1
    {
      if i == 0 { assert paths["data"] == base + "/data"; }
      else if i == 1 { assert paths["models"] == base + "/models"; }
      else if i == 2 { assert paths["experiments"] == base + "/experiments"; }
      else if i == 3 { assert paths["logs"] == base + "/logs"; }
      else if i == 4 { assert paths["checkpoints"] == base + "/checkpoints"; }
      else if i == 5 { assert paths["tensorboard"] == base + "/tensorboard-logs"; }
      else { assert paths["mlflow_artifacts"] == base + "/mlflow-artifacts"; }
    }
  }

  /** Two buckets give the same path under a suffix only when they are the same bucket. */
  lemma StoragePathDeterminesBucket(a: string, b: string, suffix: string)
    requires "gs://" + a + "/" + suffix == "gs://" + b + "/" + suffix
    ensures a == b
  {
    var p := "gs://" + a + "/" + suffix;
    assert a == p[5..5 + |a|];
    assert b == p[5..5 + |b|];
  }

  /** `get_vertex_ai_config` */
  function GetVertexAiConfig(c: GcpEnv): (r: map<string, string>)
    ensures r.Keys == {"project_id", "location", "experiment_name", "model_registry_name"}
    ensures r["project_id"] == c.projectId && r["location"] == c.vertexAiLocation
  {
    map["project_id" := c.projectId, "location" := c.vertexAiLocation,
        "experiment_name" := "petrobras-anomaly-detection", "model_registry_name" := "anomaly-detection-models"]
  }

  /** `is_configured` */
  predicate IsConfigured(c: GcpEnv)
  {
    c.projectId != "" && c.bucketName != ""
  }

  /** Every configuration the constructor builds is configured. */
  lemma ConstructedIsConfigured(env: Env, fileExists: string -> bool)
    requires NewGcpEnv(env, fileExists).Ok?
    ensures IsConfigured(NewGcpEnv(env, fileExists).value)
  {
  }

  /** What `get_gcp_config` gives: a configuration, `None`, or the escaping FileNotFoundError. */
  datatype Outcome = Configured(config: GcpEnv) | NotConfigured | KeyFileMissing(path: string)

  /** `get_gcp_config`: a missing variable gives `None`; a missing key file is not caught. */
  function GetGcpConfig(env: Env, fileExists: string -> bool): (r: Outcome)
    ensures r.NotConfigured? <==> NewGcpEnv(env, fileExists).Err? && NewGcpEnv(env, fileExists).error.MissingVariable?
    ensures r.KeyFileMissing? <==> NewGcpEnv(env, fileExists).Err? && NewGcpEnv(env, fileExists).error.KeyFileNotFound?
    ensures r.Configured? ==> IsConfigured(r.config)
  {
    match NewGcpEnv(env, fileExists)
    case Ok(c) => ConstructedIsConfigured(env, fileExists); Configured(c)
    case Err(MissingVariable(_)) => NotConfigured
    case Err(KeyFileNotFound(path)) => KeyFileMissing(path)
  }

  /**
   * With project "test-project", bucket "test-bucket" and region
   * "us-central1" set, the data path is "gs://test-bucket/data" and the
   * Vertex AI settings carry the project.
   */
  lemma TestEnvironment(fileExists: string -> bool)
    ensures var env := map["GCP_PROJECT_ID" := "test-project", "GCP_BUCKET_NAME" := "test-bucket",
                           "GCP_REGION" := "us-central1"];
      var r := NewGcpEnv(env, fileExists);
      r.Ok? && r.value.projectId == "test-project" && r.value.bucketName == "test-bucket"
      && r.value.region == "us-central1" && r.value.vertexAiLocation == "us-central1"
  {
    var env := map["GCP_PROJECT_ID" := "test-project", "GCP_BUCKET_NAME" := "test-bucket",
                   "GCP_REGION" := "us-central1"];
    assert RequiredEnv(env, "GCP_PROJECT_ID") == Ok("test-project");
    assert RequiredEnv(env, "GCP_BUCKET_NAME") == Ok("test-bucket");
    assert OptionalEnv(env, "GOOGLE_APPLICATION_CREDENTIALS", "") == "";
  }

  /** The test bucket's data path is "gs://test-bucket/data"; the Vertex AI settings carry the project. */
  lemma TestPaths(c: GcpEnv)
    requires c.projectId == "test-project" && c.bucketName == "test-bucket"
    ensures "data" in GetStoragePaths(c) && GetStoragePaths(c)["data"] == "gs://test-bucket/data"
    ensures GetVertexAiConfig(c)["project_id"] == "test-project"
  {
    assert StorageSuffixes[0] == ("data", "data");
  }
}
