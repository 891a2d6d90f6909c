/**
 * `AIPlatformTrainer` (src/gcp/training.py): the defaults `create_training_job`
 * fills in for falsy arguments, the request it builds, the gcloud argument
 * lists of the submit, list, cancel and log commands, the job id read back
 * from gcloud's output, and the states that end a wait. Running gcloud, the
 * Vertex AI client and the clock are not modelled: the command lists are
 * what the trainer would hand to `subprocess.run`.
 */
module GcpTraining {
  import opened Wrappers
  import opened Values
  import Text
  import GcpConfig

  // ---------------------------------------------------------------------
  // The trainer's settings
  // ---------------------------------------------------------------------

  /**
   * What a trainer holds: the authenticator's project id and the
   * `ai_platform` section of the GCP settings (region, master type, worker count).
   */
  datatype Trainer = Trainer(projectId: string, aiPlatform: map<string, Value>)

  /** `self.region`, as an f-string renders it. */
  function Region(t: Trainer): string
  {
    GcpConfig.Show(GcpConfig.Get(t.aiPlatform, "region"))
  }

  // ---------------------------------------------------------------------
  // create_training_job
  // ---------------------------------------------------------------------

  /** The optional arguments of `create_training_job`; `Null` stands for `None`. */
  datatype JobArgs = JobArgs(machineType: Value, acceleratorType: Value, acceleratorCount: Value, workerCount: Value)

  /** Python's `a or b`. */
  function Or(a: Value, b: Value): Value
  {
    if Truthy(a) then a else b
  }

  /**
   * `machine_type or master_type`, `accelerator_type or "NVIDIA_TESLA_T4"`,
   * `accelerator_count or 1`, `worker_count or worker_count of the config`.
   */
  function ResolveJobArgs(t: Trainer, requested: JobArgs): (r: JobArgs)
    ensures Truthy(r.acceleratorType) && Truthy(r.acceleratorCount)
    ensures Truthy(requested.machineType) ==> r.machineType == requested.machineType
    ensures !Truthy(requested.machineType) ==> r.machineType == GcpConfig.Get(t.aiPlatform, "master_type")
    ensures r.acceleratorType == (if Truthy(requested.acceleratorType) then requested.acceleratorType else Str("NVIDIA_TESLA_T4"))
    ensures r.acceleratorCount == (if Truthy(requested.acceleratorCount) then requested.acceleratorCount else Int(1))
    ensures Truthy(requested.workerCount) ==> r.workerCount == requested.workerCount
    ensures !Truthy(requested.workerCount) ==> r.workerCount == GcpConfig.Get(t.aiPlatform, "worker_count")
  {
    JobArgs(Or(requested.machineType, GcpConfig.Get(t.aiPlatform, "master_type")),
            Or(requested.acceleratorType, Str("NVIDIA_TESLA_T4")),
            Or(requested.acceleratorCount, Int(1)),
            Or(requested.workerCount, GcpConfig.Get(t.aiPlatform, "worker_count")))
  }

  /** Passing 0 accelerators, or none, asks for one. */
  lemma ZeroAcceleratorsMeansOne(t: Trainer, requested: JobArgs)
    requires requested.acceleratorCount == Int(0) || requested.acceleratorCount == Null
    ensures ResolveJobArgs(t, requested).acceleratorCount == Int(1)
  {
  }

  /** Filling in defaults a second time changes nothing, whatever the config holds. */
  lemma ResolveIdempotent(t: Trainer, requested: JobArgs)
    ensures ResolveJobArgs(t, ResolveJobArgs(t, requested)) == ResolveJobArgs(t, requested)
  {
  }

  /** The `CreateCustomJobRequest` that `create_training_job` submits. */
  datatype JobRequest = JobRequest(
    parent: string, displayName: string, imageUri: string, command: seq<string>, args: seq<string>,
    env: seq<(string, string)>, machineType: Value, acceleratorType: Value, acceleratorCount: Value,
    replicaCount: Value, timeout: string)

  /** The resource that owns the trainer's jobs. */
  function Parent(t: Trainer): string
  {
    "projects/" + t.projectId + "/locations/" + Region(t)
  }

  /**
   * The request of `create_training_job`: one worker pool with the resolved
   * machine, running `python <script>` in the project's training image with
   * a two-hour timeout.
   */
  function CreateJobRequest(t: Trainer, displayName: string, scriptPath: string, requested: JobArgs): (r: JobRequest)
    ensures r.parent == Parent(t) && r.displayName == displayName
    ensures r.imageUri == "gcr.io/" + t.projectId + "/anomaly-detection-training:latest"
    ensures r.command == ["python"] && r.args == [scriptPath] && r.timeout == "7200s"
    ensures r.env == [("GOOGLE_CLOUD_PROJECT", t.projectId), ("GOOGLE_CLOUD_REGION", Region(t))]
    ensures var a := ResolveJobArgs(t, requested);
      r.machineType == a.machineType && r.acceleratorType == a.acceleratorType
      && r.acceleratorCount == a.acceleratorCount && r.replicaCount == a.workerCount
  {
    var a := ResolveJobArgs(t, requested);
    JobRequest(Parent(t), displayName, "gcr.io/" + t.projectId + "/anomaly-detection-training:latest", ["python"],
               [scriptPath], [("GOOGLE_CLOUD_PROJECT", t.projectId), ("GOOGLE_CLOUD_REGION", Region(t))],
               a.machineType, a.acceleratorType, a.acceleratorCount, a.workerCount, "7200s")
  }

  // ---------------------------------------------------------------------
  // _extract_job_id
  // ---------------------------------------------------------------------

  const ProjectsMarker := "projects/"
  const LocationsMarker := "/locations/"
  const JobsPathMarker := "/trainingJobs/"
  const JobsMarker := "trainingJobs/"

  predicate Mentions(line: string, pattern: string)
  {
    Text.IndexOf(line, pattern).Some?
  }

  /** A line that looks like a full job resource name. */
  predicate IsJobName(line: string)
  {
    Mentions(line, ProjectsMarker) && Mentions(line, LocationsMarker) && Mentions(line, JobsPathMarker)
  }

  predicate MentionsJobs(line: string)
  {
    Mentions(line, JobsMarker)
  }

  /** The index of the first line satisfying `p`, if any. */
  function FirstWhere(lines: seq<string>, p: string -> bool): (k: Option<nat>)
    ensures k.Some? ==> k.value < |lines| && p(lines[k.value])
    ensures k.Some? ==> forall j :: 0 <= j < k.value ==> !p(lines[j])
    ensures k.None? ==> forall j :: 0 <= j < |lines| ==> !p(lines[j])
  {
    if |lines| == 0 then None
    else if p(lines[0]) then Some(0)
    else
      match FirstWhere(lines[1..], p)
      case Some(k) => Some(k + 1)
      case None => None
  }

  /** `line.split(sep)[1]`: the text between the first and the second `sep`, or to the end. */
  function AfterFirst(line: string, sep: string): (r: string)
    requires Text.IndexOf(line, sep).Some?
    ensures var rest := line[Text.IndexOf(line, sep).value + |sep|..];
      |r| <= |rest| && r == rest[..|r|] && (|r| == |rest| || Text.OccursAt(rest, sep, |r|))
  {
    var rest := line[Text.IndexOf(line, sep).value + |sep|..];
    match Text.IndexOf(rest, sep)
    case Some(m) => rest[..m]
    case None => rest
  }

  /** The part after the first separator holds no separator itself. */
  lemma AfterFirstHasNoSeparator(line: string, sep: string)
    requires Text.IndexOf(line, sep).Some? && sep != ""
    ensures forall j :: 0 <= j <= |AfterFirst(line, sep)| - |sep| ==> !Text.OccursAt(AfterFirst(line, sep), sep, j)
  {
    var rest := line[Text.IndexOf(line, sep).value + |sep|..];
    var r := AfterFirst(line, sep);
    forall j | 0 <= j <= |r| - |sep| ensures !Text.OccursAt(r, sep, j) {
      if Text.OccursAt(r, sep, j) {
        assert r[j..j + |sep|] == rest[j..j + |sep|];
        assert Text.OccursAt(rest, sep, j);
      }
    }
  }

  datatype JobIdError = NoJobId   // ValueError("Could not extract job ID from output")

  /**
   * `_extract_job_id`: the stripped first line that names a job in full;
   * failing that, the stripped text after "trainingJobs/" in the first line
   * mentioning it; failing that, an error.
   */
  function ExtractJobId(output: string): Result<string, JobIdError>
  {
    JobIdFromLines(Text.Split(output, '\n'))
  }

  /** The two searches of `_extract_job_id` over the output's lines. */
  function JobIdFromLines(lines: seq<string>): Result<string, JobIdError>
  {
    match FirstWhere(lines, IsJobName)
    case Some(k) => Ok(Text.Strip(lines[k]))
    case None =>
      match FirstWhere(lines, MentionsJobs)
      case Some(k) => Ok(Text.Strip(AfterFirst(lines[k], JobsMarker)))
      case None => Err(NoJobId)
  }

  /** The first line satisfying `p` is the one `FirstWhere` finds. */
  lemma {:induction false} FirstWhereAt(lines: seq<string>, p: string -> bool, k: nat)
    requires k < |lines| && p(lines[k]) && forall j :: 0 <= j < k ==> !p(lines[j])
    ensures FirstWhere(lines, p) == Some(k)
  {
    if k > 0 {
      assert !p(lines[0]);
      FirstWhereAt(lines[1..], p, k - 1);
    }
  }

  /** A full job name mentions "trainingJobs/" (it holds "/trainingJobs/"). */
  lemma JobNameMentionsJobs(line: string)
    requires IsJobName(line)
    ensures MentionsJobs(line)
  {
    var i := Text.IndexOf(line, JobsPathMarker).value;
    assert JobsPathMarker[1..] == JobsMarker;
    assert line[i + 1..i + 1 + |JobsMarker|] == line[i..i + |JobsPathMarker|][1..];
    assert Text.OccursAt(line, JobsMarker, i + 1);
  }

  /** The first line naming a job in full wins, stripped. */
  lemma JobIdFromFullName(lines: seq<string>, k: nat)
    requires k < |lines| && IsJobName(lines[k]) && forall j :: 0 <= j < k ==> !IsJobName(lines[j])
    ensures JobIdFromLines(lines) == Ok(Text.Strip(lines[k]))
  {
    FirstWhereAt(lines, IsJobName, k);
  }

  /** With no full name, the first line mentioning "trainingJobs/" gives the text after it, stripped. */
  lemma JobIdFromMention(lines: seq<string>, k: nat)
    requires forall j :: 0 <= j < |lines| ==> !IsJobName(lines[j])
    requires k < |lines| && MentionsJobs(lines[k]) && forall j :: 0 <= j < k ==> !MentionsJobs(lines[j])
    ensures JobIdFromLines(lines) == Ok(Text.Strip(AfterFirst(lines[k], JobsMarker)))
  {
    FirstWhereAt(lines, MentionsJobs, k);
    assert FirstWhere(lines, IsJobName).None?;
  }

  /** The ValueError is raised exactly when no line mentions "trainingJobs/". */
  lemma JobIdMissing(lines: seq<string>)
    ensures JobIdFromLines(lines).Err? <==> forall k :: 0 <= k < |lines| ==> !MentionsJobs(lines[k])
  {
    if forall k :: 0 <= k < |lines| ==> !MentionsJobs(lines[k]) {
      forall k | 0 <= k < |lines| ensures !IsJobName(lines[k]) {
        if IsJobName(lines[k]) {
          JobNameMentionsJobs(lines[k]);
        }
      }
      assert FirstWhere(lines, IsJobName).None?;
      assert FirstWhere(lines, MentionsJobs).None?;
    }
  }

  /** The resource name of job `id` under a project and location. */
  function JobName(project: string, location: string, id: string): string
  {
    ProjectsMarker + project + LocationsMarker + location + JobsPathMarker + id
  }

  /** A job's resource name names a job in full and is left alone by `strip()`. */
  lemma JobNameIsJobName(project: string, location: string, id: string)
    requires id != [] && !Text.IsSpace(id[|id| - 1])
    ensures IsJobName(JobName(project, location, id))
    ensures Text.Strip(JobName(project, location, id)) == JobName(project, location, id)
  {
    var name := JobName(project, location, id);
    var rest := location + JobsPathMarker + id;
    assert name == ProjectsMarker + (project + LocationsMarker + rest);
    MentionsMiddle([], ProjectsMarker, project + LocationsMarker + rest);
    assert name == (ProjectsMarker + project) + LocationsMarker + rest;
    MentionsMiddle(ProjectsMarker + project, LocationsMarker, rest);
    MentionsMiddle(ProjectsMarker + project + LocationsMarker + location, JobsPathMarker, id);
    assert name[0] == 'p';
    assert name[|name| - 1] == id[|id| - 1];
    Text.StripUnpadded(name);
  }

  /** A pattern placed between two pieces of text is mentioned by the whole. */
  lemma MentionsMiddle(a: string, pattern: string, b: string)
    ensures Mentions(a + pattern + b, pattern)
  {
    var s := a + pattern + b;
    assert s[|a|..|a| + |pattern|] == pattern;
    assert Text.OccursAt(s, pattern, |a|);
  }

  /**
   * A job name printed on its own line, after lines that do not mention
   * "trainingJobs/", is read back unchanged.
   */
  lemma ExtractsPrintedJobName(lines: seq<string>, k: nat, project: string, location: string, id: string)
    requires forall j :: 0 <= j < |lines| ==> '\n' !in lines[j]
    requires k < |lines| && lines[k] == JobName(project, location, id)
    requires forall j :: 0 <= j < k ==> !MentionsJobs(lines[j])
    requires id != [] && !Text.IsSpace(id[|id| - 1])
    ensures ExtractJobId(Text.Join(lines, '\n')) == Ok(JobName(project, location, id))
  {
    Text.JoinSplit(lines, '\n');
    JobNameIsJobName(project, location, id);
    forall j | 0 <= j < k ensures !IsJobName(lines[j]) {
      if IsJobName(lines[j]) {
        JobNameMentionsJobs(lines[j]);
      }
    }
    JobIdFromFullName(lines, k);
  }

  /** The job name under the request's parent is the id the trainer reads back from gcloud. */
  lemma ExtractsJobUnderParent(t: Trainer, id: string)
    requires '\n' !in t.projectId && '\n' !in Region(t) && '\n' !in id
    requires id != [] && !Text.IsSpace(id[|id| - 1])
    ensures ExtractJobId(Parent(t) + JobsPathMarker + id) == Ok(Parent(t) + JobsPathMarker + id)
  {
    var name := JobName(t.projectId, Region(t), id);
    assert Parent(t) + JobsPathMarker + id == name;
    assert '\n' !in name;
    ExtractsPrintedJobName([name], 0, t.projectId, Region(t), id);
  }

  // ---------------------------------------------------------------------
  // gcloud command lists
  // ---------------------------------------------------------------------

  /** The worker pool every submitted job starts from. */
  const DefaultPoolSpec :=
    "--worker-pool-spec=replica-count=1,machine-type=n1-standard-4,"
    + "container-image-uri=gcr.io/cloud-aiplatform/training/pytorch-gpu.1-13:latest,exec=python,args=--help"

  const PoolFlag := "--worker-pool-spec"

  /** The keyword arguments `submit_training_job` passes on, with gcloud's name for each, in order. */
  const SubmitOverrides: seq<(string, string)> :=
    [("machine_type", "machine-type"), ("accelerator_type", "accelerator-type"),
     ("accelerator_count", "accelerator-count")]

  /** The eight tokens every submit command starts with. */
  function SubmitHead(t: Trainer, jobName: string): seq<string>
  {
    ["gcloud", "ai", "custom-jobs", "create", "--display-name=" + jobName, "--region=" + Region(t),
     "--project=" + t.projectId, DefaultPoolSpec]
  }

  /** `--worker-pool-spec flag=value` for a keyword given, nothing for one absent. */
  function PoolPair(kwargs: map<string, Value>, key: string, flag: string): seq<string>
  {
    if key in kwargs then [PoolFlag, flag + "=" + GcpConfig.Show(kwargs[key])] else []
  }

  /** A `--worker-pool-spec name=value` pair for each of `keys` present in `kwargs`, in the order of `keys`. */
  function PoolOverrides(kwargs: map<string, Value>, keys: seq<(string, string)>): seq<string>
  {
    if keys == [] then [] else PoolPair(kwargs, keys[0].0, keys[0].1) + PoolOverrides(kwargs, keys[1..])
  }

  /** The submit overrides, one conditional pair per keyword. */
  lemma SubmitOverridesUnfold(kwargs: map<string, Value>)
    ensures PoolOverrides(kwargs, SubmitOverrides)
         == PoolPair(kwargs, "machine_type", "machine-type") + PoolPair(kwargs, "accelerator_type", "accelerator-type")
            + PoolPair(kwargs, "accelerator_count", "accelerator-count")
  {
    var k0 := SubmitOverrides;
    var k1 := [("accelerator_type", "accelerator-type"), ("accelerator_count", "accelerator-count")];
    var k2 := [("accelerator_count", "accelerator-count")];
    assert k0[1..] == k1 && k1[1..] == k2 && k2[1..] == [];
    assert PoolOverrides(kwargs, k2) == PoolPair(kwargs, "accelerator_count", "accelerator-count") + [];
  }

  /** `submit_training_job`'s command: the fixed head, then an override per keyword given. */
  method SubmitCommand(t: Trainer, jobName: string, kwargs: map<string, Value>) returns (cmd: seq<string>)
    ensures cmd == SubmitHead(t, jobName) + PoolOverrides(kwargs, SubmitOverrides)
  {
    assert "machine-type" + "=" == "machine-type=" && "accelerator-type" + "=" == "accelerator-type="
      && "accelerator-count" + "=" == "accelerator-count=";
    cmd := ["gcloud", "ai", "custom-jobs", "create", "--display-name=" + jobName, "--region=" + Region(t),
            "--project=" + t.projectId, DefaultPoolSpec];
    if "machine_type" in kwargs {
      cmd := cmd + [PoolFlag, "machine-type=" + GcpConfig.Show(kwargs["machine_type"])];
    }
    assert cmd == SubmitHead(t, jobName) + PoolPair(kwargs, "machine_type", "machine-type");
    if "accelerator_type" in kwargs {
      cmd := cmd + [PoolFlag, "accelerator-type=" + GcpConfig.Show(kwargs["accelerator_type"])];
    }
    assert cmd == SubmitHead(t, jobName) + PoolPair(kwargs, "machine_type", "machine-type")
                  + PoolPair(kwargs, "accelerator_type", "accelerator-type");
    if "accelerator_count" in kwargs {
      cmd := cmd + [PoolFlag, "accelerator-count=" + GcpConfig.Show(kwargs["accelerator_count"])];
    }
    SubmitOverridesUnfold(kwargs);
  }

  /** The number of `keys` present in `kwargs`. */
  function Present(kwargs: map<string, Value>, keys: seq<(string, string)>): nat
  {
    if keys == [] then 0 else (if keys[0].0 in kwargs then 1 else 0) + Present(kwargs, keys[1..])
  }

  /** How gcloud reads `--worker-pool-spec name=value` pairs back: a map from name to value. */
  function ReadOverrides(tail: seq<string>): map<string, string>
  {
    if |tail| >= 2 && tail[0] == PoolFlag && '=' in tail[1] then
      var i := Text.FirstIndex(tail[1], '=');
      ReadOverrides(tail[2..])[tail[1][..i] := tail[1][i + 1..]]
    else map[]
  }

  /** Each key present in `kwargs` under its gcloud name, with its rendered value. */
  function Overrides(kwargs: map<string, Value>, keys: seq<(string, string)>): map<string, string>
  {
    if keys == [] then map[]
    else if keys[0].0 in kwargs then Overrides(kwargs, keys[1..])[keys[0].1 := GcpConfig.Show(kwargs[keys[0].0])]
    else Overrides(kwargs, keys[1..])
  }

  /** The appended pairs are two tokens per key present, each pair starting with the pool flag. */
  lemma {:induction false} PoolOverridesShape(kwargs: map<string, Value>, keys: seq<(string, string)>)
    ensures var p := PoolOverrides(kwargs, keys);
      |p| == 2 * Present(kwargs, keys) && forall i :: 0 <= i < |p| && i % 2 == 0 ==> p[i] == PoolFlag
  {
    if keys != [] {
      PoolOverridesShape(kwargs, keys[1..]);
      var head := PoolPair(kwargs, keys[0].0, keys[0].1);
      var p := PoolOverrides(kwargs, keys);
      forall i | 0 <= i < |p| && i % 2 == 0 ensures p[i] == PoolFlag {
        if i >= |head| {
          assert (i - |head|) % 2 == 0;
          assert p[i] == PoolOverrides(kwargs, keys[1..])[i - |head|];
        }
      }
    }
  }

  /** Reading the appended pairs back gives every keyword value under its gcloud name. */
  lemma {:induction false} ReadPoolOverrides(kwargs: map<string, Value>, keys: seq<(string, string)>)
    requires forall k :: 0 <= k < |keys| ==> '=' !in keys[k].1
    ensures ReadOverrides(PoolOverrides(kwargs, keys)) == Overrides(kwargs, keys)
  {
    if keys != [] {
      ReadPoolOverrides(kwargs, keys[1..]);
      if keys[0].0 in kwargs {
        var token := keys[0].1 + "=" + GcpConfig.Show(kwargs[keys[0].0]);
        var p := PoolOverrides(kwargs, keys);
        assert p == [PoolFlag, token] + PoolOverrides(kwargs, keys[1..]);
        assert p[2..] == PoolOverrides(kwargs, keys[1..]);
        assert token[|keys[0].1|] == '=';
        var i := Text.FirstIndex(token, '=');
        assert forall j :: 0 <= j < |keys[0].1| ==> token[j] == keys[0].1[j];
        assert i == |keys[0].1|;
        assert token[..i] == keys[0].1;
        assert token[i + 1..] == GcpConfig.Show(kwargs[keys[0].0]);
      } else {
        assert PoolOverrides(kwargs, keys) == PoolOverrides(kwargs, keys[1..]);
      }
    }
  }

  /** The names read back are those of the keywords given. */
  lemma {:induction false} OverridesKeys(kwargs: map<string, Value>, keys: seq<(string, string)>)
    ensures Overrides(kwargs, keys).Keys == set j | 0 <= j < |keys| && keys[j].0 in kwargs :: keys[j].1
  {
    if keys != [] {
      OverridesKeys(kwargs, keys[1..]);
      var later := set j | 0 <= j < |keys[1..]| && keys[1..][j].0 in kwargs :: keys[1..][j].1;
      var all := set j | 0 <= j < |keys| && keys[j].0 in kwargs :: keys[j].1;
      assert forall j :: 0 < j < |keys| ==> keys[j] == keys[1..][j - 1];
      assert all == later + (if keys[0].0 in kwargs then {keys[0].1} else {}) by {
        forall f | f in all ensures f in later || (keys[0].0 in kwargs && f == keys[0].1) {
          var j :| 0 <= j < |keys| && keys[j].0 in kwargs && keys[j].1 == f;
          if j > 0 {
            assert keys[1..][j - 1] == keys[j];
          }
        }
      }
    }
  }

  /** A keyword given is read back with its rendered value, unless an earlier keyword has the same name. */
  lemma {:induction false} OverridesValue(kwargs: map<string, Value>, keys: seq<(string, string)>, j: nat)
    requires j < |keys| && keys[j].0 in kwargs
    requires forall i :: 0 <= i < j ==> keys[i].1 != keys[j].1
    ensures keys[j].1 in Overrides(kwargs, keys)
    ensures Overrides(kwargs, keys)[keys[j].1] == GcpConfig.Show(kwargs[keys[j].0])
  {
    if j > 0 {
      assert keys[1..][j - 1] == keys[j];
      OverridesValue(kwargs, keys[1..], j - 1);
    }
  }

  /** What the submit command asks for: the value of each keyword given, and nothing else. */
  lemma SubmitOverridesRead(kwargs: map<string, Value>)
    ensures var o := ReadOverrides(PoolOverrides(kwargs, SubmitOverrides));
      o.Keys == set j | 0 <= j < |SubmitOverrides| && SubmitOverrides[j].0 in kwargs :: SubmitOverrides[j].1
    ensures var o := ReadOverrides(PoolOverrides(kwargs, SubmitOverrides));
      forall j :: 0 <= j < |SubmitOverrides| && SubmitOverrides[j].0 in kwargs ==>
        o[SubmitOverrides[j].1] == GcpConfig.Show(kwargs[SubmitOverrides[j].0])
  {
    var k := SubmitOverrides;
    assert '=' !in k[0].1 && '=' !in k[1].1 && '=' !in k[2].1;
    ReadPoolOverrides(kwargs, k);
    OverridesKeys(kwargs, k);
    forall j | 0 <= j < |k| && k[j].0 in kwargs
      ensures Overrides(kwargs, k)[k[j].1] == GcpConfig.Show(kwargs[k[j].0])
    {
      OverridesValue(kwargs, k, j);
    }
  }

  /** The seven tokens every list command starts with. */
  function ListHead(t: Trainer): seq<string>
  {
    ["gcloud", "ai", "custom-jobs", "list", "--region=" + Region(t), "--project=" + t.projectId, "--format=json"]
  }

  /** The list command: `--filter <expr>` only for a truthy filter. */
  function ListArgs(t: Trainer, filter: Option<string>): seq<string>
  {
    ListHead(t) + (if filter.Some? && filter.value != "" then ["--filter", filter.value] else [])
  }

  /** `list_training_jobs`'s command list. */
  method ListCommand(t: Trainer, filter: Option<string>) returns (cmd: seq<string>)
    ensures cmd == ListArgs(t, filter)
  {
    cmd := ["gcloud", "ai", "custom-jobs", "list", "--region=" + Region(t), "--project=" + t.projectId,
            "--format=json"];
    if filter.Some? && filter.value != "" {
      cmd := cmd + ["--filter", filter.value];
    }
  }

  /** `cancel_training_job`'s command list. */
  function CancelArgs(t: Trainer, jobId: string): seq<string>
  {
    ["gcloud", "ai", "custom-jobs", "cancel", jobId, "--region=" + Region(t), "--project=" + t.projectId]
  }

  /** The seven tokens every log command starts with. */
  function LogsHead(t: Trainer, jobId: string): seq<string>
  {
    ["gcloud", "ai", "custom-jobs", "stream-logs", jobId, "--region=" + Region(t), "--project=" + t.projectId]
  }

  /** The log command: `--max-lines <n>` only for a truthy (nonzero) limit. */
  function LogsArgs(t: Trainer, jobId: string, maxLines: Option<int>): seq<string>
  {
    LogsHead(t, jobId)
    + (if maxLines.Some? && maxLines.value != 0 then ["--max-lines", Text.IntToString(maxLines.value)] else [])
  }

  /** `get_job_logs`'s command list. */
  method LogsCommand(t: Trainer, jobId: string, maxLines: Option<int>) returns (cmd: seq<string>)
    ensures cmd == LogsArgs(t, jobId, maxLines)
  {
    cmd := ["gcloud", "ai", "custom-jobs", "stream-logs", jobId, "--region=" + Region(t), "--project=" + t.projectId];
    if maxLines.Some? && maxLines.value != 0 {
      cmd := cmd + ["--max-lines", Text.IntToString(maxLines.value)];
    }
  }

  /** The token after the first occurrence of `flag`, as a command-line reader takes an option's argument. */
  function OptionValue(cmd: seq<string>, flag: string): Option<string>
  {
    if |cmd| < 2 then None
    else if cmd[0] == flag then Some(cmd[1])
    else OptionValue(cmd[1..], flag)
  }

  /** The rest of the first token that starts with `prefix` (a `--name=value` option). */
  function InlineValue(cmd: seq<string>, prefix: string): Option<string>
  {
    if cmd == [] then None
    else if Text.StartsWith(cmd[0], prefix) then Some(cmd[0][|prefix|..])
    else InlineValue(cmd[1..], prefix)
  }

  /** Tokens other than the flag are passed over. */
  lemma {:induction false} OptionValueSkips(a: seq<string>, b: seq<string>, flag: string)
    requires flag !in a
    ensures OptionValue(a + b, flag) == OptionValue(b, flag)
  {
    if a == [] {
      assert a + b == b;
    } else if |a + b| >= 2 {
      assert (a + b)[0] == a[0];
      assert (a + b)[1..] == a[1..] + b;
      OptionValueSkips(a[1..], b, flag);
    }
  }

  /** Tokens that do not start with the prefix are passed over. */
  lemma {:induction false} InlineValueSkips(a: seq<string>, b: seq<string>, prefix: string)
    requires forall x :: x in a ==> !Text.StartsWith(x, prefix)
    ensures InlineValue(a + b, prefix) == InlineValue(b, prefix)
  {
    if a == [] {
      assert a + b == b;
    } else {
      assert (a + b)[0] == a[0];
      assert (a + b)[1..] == a[1..] + b;
      InlineValueSkips(a[1..], b, prefix);
    }
  }

  /** A token whose character at `i` differs from the prefix's does not start with it. */
  lemma DiffersAt(s: string, prefix: string, i: nat)
    requires i < |s| && i < |prefix| && s[i] != prefix[i]
    ensures !Text.StartsWith(s, prefix)
  {
  }

  /** `--name=value` is read back as `value`. */
  lemma InlineValueHere(value: string, prefix: string, rest: seq<string>)
    ensures InlineValue([prefix + value] + rest, prefix) == Some(value)
  {
    var token := prefix + value;
    assert token[..|prefix|] == prefix && token[|prefix|..] == value;
  }

  /** The list command carries the filter exactly when it is truthy. */
  lemma ListFilterRead(t: Trainer, filter: Option<string>)
    ensures OptionValue(ListArgs(t, filter), "--filter")
         == (if filter.Some? && filter.value != "" then Some(filter.value) else None)
  {
    var head := ListHead(t);
    assert |head[4]| >= 9 && |head[5]| >= 10;
    OptionValueSkips(head, ListArgs(t, filter)[7..], "--filter");
    assert head + ListArgs(t, filter)[7..] == ListArgs(t, filter);
  }

  /** The log command carries `str(max_lines)` exactly when the limit is truthy. */
  lemma LogsLimitRead(t: Trainer, jobId: string, maxLines: Option<int>)
    requires jobId != "--max-lines"
    ensures OptionValue(LogsArgs(t, jobId, maxLines), "--max-lines")
         == (if maxLines.Some? && maxLines.value != 0 then Some(Text.IntToString(maxLines.value)) else None)
  {
    var head := LogsHead(t, jobId);
    assert head[5][2] == 'r' && head[6][2] == 'p';
    OptionValueSkips(head, LogsArgs(t, jobId, maxLines)[7..], "--max-lines");
    assert head + LogsArgs(t, jobId, maxLines)[7..] == LogsArgs(t, jobId, maxLines);
  }

  /** The first four tokens of every command are not `--region=` or `--project=` options. */
  lemma VerbTokens(verb: string)
    requires verb != [] && verb[0] != '-'
    ensures forall x :: x in ["gcloud", "ai", "custom-jobs", verb] ==>
      !Text.StartsWith(x, "--region=") && !Text.StartsWith(x, "--project=")
  {
    DiffersAt("gcloud", "--region=", 0);
    DiffersAt("gcloud", "--project=", 0);
    DiffersAt("ai", "--region=", 0);
    DiffersAt("ai", "--project=", 0);
    DiffersAt("custom-jobs", "--region=", 0);
    DiffersAt("custom-jobs", "--project=", 0);
    DiffersAt(verb, "--region=", 0);
    DiffersAt(verb, "--project=", 0);
  }

  /** A `--region=` token is not a `--project=` one. */
  lemma RegionIsNotProject(t: Trainer)
    ensures !Text.StartsWith("--region=" + Region(t), "--project=")
  {
    DiffersAt("--region=" + Region(t), "--project=", 2);
  }

  /** A job id that is not an option starts with neither prefix. */
  lemma JobIdIsNotOption(jobId: string)
    requires jobId == [] || jobId[0] != '-'
    ensures !Text.StartsWith(jobId, "--region=") && !Text.StartsWith(jobId, "--project=")
  {
    if jobId != [] {
      DiffersAt(jobId, "--region=", 0);
      DiffersAt(jobId, "--project=", 0);
    }
  }

  /** The submit command names the trainer's region and project, whatever the display name. */
  lemma SubmitTargetsTrainer(t: Trainer, jobName: string, kwargs: map<string, Value>)
    ensures var s := SubmitHead(t, jobName) + PoolOverrides(kwargs, SubmitOverrides);
      InlineValue(s, "--region=") == Some(Region(t)) && InlineValue(s, "--project=") == Some(t.projectId)
  {
    var region, project := "--region=" + Region(t), "--project=" + t.projectId;
    RegionIsNotProject(t);
    var name := "--display-name=" + jobName;
    DiffersAt(name, "--region=", 2);
    DiffersAt(name, "--project=", 2);
    var tail := PoolOverrides(kwargs, SubmitOverrides);
    VerbTokens("create");
    InlineValueSkips(["gcloud", "ai", "custom-jobs", "create", name], [region, project, DefaultPoolSpec] + tail, "--region=");
    InlineValueHere(Region(t), "--region=", [project, DefaultPoolSpec] + tail);
    InlineValueSkips(["gcloud", "ai", "custom-jobs", "create", name, region], [project, DefaultPoolSpec] + tail, "--project=");
    InlineValueHere(t.projectId, "--project=", [DefaultPoolSpec] + tail);
    assert SubmitHead(t, jobName) + tail == ["gcloud", "ai", "custom-jobs", "create", name] + ([region, project, DefaultPoolSpec] + tail);
    assert SubmitHead(t, jobName) + tail == ["gcloud", "ai", "custom-jobs", "create", name, region] + ([project, DefaultPoolSpec] + tail);
  }

  /** The list command names the trainer's region and project, with or without a filter. */
  lemma ListTargetsTrainer(t: Trainer, filter: Option<string>)
    ensures var l := ListArgs(t, filter);
      InlineValue(l, "--region=") == Some(Region(t)) && InlineValue(l, "--project=") == Some(t.projectId)
  {
    var region, project := "--region=" + Region(t), "--project=" + t.projectId;
    RegionIsNotProject(t);
    var more := ListArgs(t, filter)[7..];
    VerbTokens("list");
    InlineValueSkips(["gcloud", "ai", "custom-jobs", "list"], [region, project, "--format=json"] + more, "--region=");
    InlineValueHere(Region(t), "--region=", [project, "--format=json"] + more);
    InlineValueSkips(["gcloud", "ai", "custom-jobs", "list", region], [project, "--format=json"] + more, "--project=");
    InlineValueHere(t.projectId, "--project=", ["--format=json"] + more);
    assert ListArgs(t, filter) == ["gcloud", "ai", "custom-jobs", "list"] + ([region, project, "--format=json"] + more);
    assert ListArgs(t, filter) == ["gcloud", "ai", "custom-jobs", "list", region] + ([project, "--format=json"] + more);
  }

  /** The cancel command names the trainer's region and project for any job id not written as an option. */
  lemma CancelTargetsTrainer(t: Trainer, jobId: string)
    requires jobId == [] || jobId[0] != '-'
    ensures var c := CancelArgs(t, jobId);
      InlineValue(c, "--region=") == Some(Region(t)) && InlineValue(c, "--project=") == Some(t.projectId)
  {
    var region, project := "--region=" + Region(t), "--project=" + t.projectId;
    RegionIsNotProject(t);
    JobIdIsNotOption(jobId);
    VerbTokens("cancel");
    InlineValueSkips(["gcloud", "ai", "custom-jobs", "cancel", jobId], [region, project], "--region=");
    InlineValueHere(Region(t), "--region=", [project]);
    InlineValueSkips(["gcloud", "ai", "custom-jobs", "cancel", jobId, region], [project], "--project=");
    InlineValueHere(t.projectId, "--project=", []);
    assert [project] + [] == [project];
    assert CancelArgs(t, jobId) == ["gcloud", "ai", "custom-jobs", "cancel", jobId] + [region, project];
    assert CancelArgs(t, jobId) == ["gcloud", "ai", "custom-jobs", "cancel", jobId, region] + [project];
  }

  /** The logs command names the trainer's region and project for any job id not written as an option. */
  lemma LogsTargetsTrainer(t: Trainer, jobId: string, maxLines: Option<int>)
    requires jobId == [] || jobId[0] != '-'
    ensures var g := LogsArgs(t, jobId, maxLines);
      InlineValue(g, "--region=") == Some(Region(t)) && InlineValue(g, "--project=") == Some(t.projectId)
  {
    var region, project := "--region=" + Region(t), "--project=" + t.projectId;
    RegionIsNotProject(t);
    JobIdIsNotOption(jobId);
    var extra := LogsArgs(t, jobId, maxLines)[7..];
    VerbTokens("stream-logs");
    InlineValueSkips(["gcloud", "ai", "custom-jobs", "stream-logs", jobId], [region, project] + extra, "--region=");
    InlineValueHere(Region(t), "--region=", [project] + extra);
    InlineValueSkips(["gcloud", "ai", "custom-jobs", "stream-logs", jobId, region], [project] + extra, "--project=");
    InlineValueHere(t.projectId, "--project=", extra);
    assert LogsArgs(t, jobId, maxLines) == ["gcloud", "ai", "custom-jobs", "stream-logs", jobId] + ([region, project] + extra);
    assert LogsArgs(t, jobId, maxLines) == ["gcloud", "ai", "custom-jobs", "stream-logs", jobId, region] + ([project] + extra);
  }

  // ---------------------------------------------------------------------
  // wait_for_job_completion
  // ---------------------------------------------------------------------

  /** The states that end the wait. */
  predicate IsTerminal(state: string)
  {
    state in ["SUCCEEDED", "FAILED", "CANCELLED"]
  }

  /** `job_info.get("state", "UNKNOWN")` */
  function JobState(info: map<string, string>): string
  {
    if "state" in info then info["state"] else "UNKNOWN"
  }

  /** A job whose information carries no state keeps the trainer waiting, as a running job does. */
  lemma MissingStateKeepsWaiting(info: map<string, string>)
    ensures !IsTerminal(JobState(info)) <==> "state" !in info || info["state"] !in {"SUCCEEDED", "FAILED", "CANCELLED"}
  {
  }
}
