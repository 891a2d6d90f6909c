/**
 * `AWSConfigManager`: the YAML configuration, the `.env.aws` line parser,
 * the training configuration merged from the default and per-model tables,
 * the hyperparameter search space, and the `valid` flag of the SageMaker
 * setup check.
 *
 * The files are given by their outcome; the AWS clients' construction and
 * the SageMaker and IAM lookups are parameters (`clientsReady` and the
 * probe functions).
 */
module AwsConfig {
  import opened Wrappers
  import opened Values
  import Text

  /** One line of the environment file, or nothing: `key = value` split at the first "=". */
  function ParseLine(line: string): Option<(string, string)>
  {
    var l := Text.Strip(line);
    if l != [] && !Text.StartsWith(l, "#") && '=' in l then
      var i := Text.FirstIndex(l, '=');
      Some((Text.Strip(l[..i]), Text.Strip(l[i + 1..])))
    else None
  }

  /**
   * A line is kept exactly when, stripped, it is nonempty, does not start
   * with "#" and contains "="; its key then holds no "=", so the value is
   * everything after the first "=", stripped.
   */
  lemma ParseLineCases(line: string)
    ensures var l := Text.Strip(line);
      ParseLine(line).Some? <==> l != [] && !Text.StartsWith(l, "#") && '=' in l
    ensures var l := Text.Strip(line);
      ParseLine(line).Some? ==>
        var i := Text.FirstIndex(l, '=');
        '=' !in ParseLine(line).value.0 && ParseLine(line).value.1 == Text.Strip(l[i + 1..])
  {
    var l := Text.Strip(line);
    if l != [] && !Text.StartsWith(l, "#") && '=' in l {
      var i := Text.FirstIndex(l, '=');
      StripKeeps(l[..i]);
    }
  }

  /** Every character `strip()` keeps was in the string. */
  lemma StripKeeps(s: string)
    ensures forall c :: c in Text.Strip(s) ==> c in s
  {
    Text.StripShape(s);
    var a: nat, b: nat :| Text.Padded(s, Text.Strip(s), a, b);
    forall c | c in Text.Strip(s) ensures c in s {
      var k :| 0 <= k < |Text.Strip(s)| && Text.Strip(s)[k] == c;
      assert s[a + k] == c;
    }
  }

  /** A line `key=value` with no "=" in the key and no surrounding whitespace parses to that pair. */
  lemma ParseAssignment(key: string, value: string)
    requires key != [] && key[0] != '#' && !Text.IsSpace(key[0]) && !Text.IsSpace(key[|key| - 1]) && '=' !in key
    requires value == [] || (!Text.IsSpace(value[0]) && !Text.IsSpace(value[|value| - 1]))
    ensures ParseLine(key + "=" + value) == Some((key, value))
  {
    var l := key + "=" + value;
    assert l[0] == key[0] && l[|l| - 1] == (if value == [] then '=' else value[|value| - 1]);
    Text.StripUnpadded(l);
    assert l[|key|] == '=';
    var i := Text.FirstIndex(l, '=');
    assert l[..|key|] == key;
    assert i == |key|;
    assert l[..i] == key && l[i + 1..] == value;
    Text.StripUnpadded(key);
    Text.StripUnpadded(value);
  }

  /** What `ParseLine` gives for each line. */
  function ParsedLines(lines: seq<string>): (parsed: seq<Option<(string, string)>>)
    ensures |parsed| == |lines| && forall i :: 0 <= i < |lines| ==> parsed[i] == ParseLine(lines[i])
  {
    seq(|lines|, i requires 0 <= i < |lines| => ParseLine(lines[i]))
  }

  /** The present values, in order. */
  function Somes<X>(opts: seq<Option<X>>): seq<X>
  {
    if opts == [] then []
    else Somes(opts[..|opts| - 1]) + (if opts[|opts| - 1].Some? then [opts[|opts| - 1].value] else [])
  }

  /** `base` with each entry written in order. */
  function Assign(base: map<string, string>, entries: seq<(string, string)>): map<string, string>
  {
    if entries == [] then base
    else Assign(base, entries[..|entries| - 1])[entries[|entries| - 1].0 := entries[|entries| - 1].1]
  }

  /** The environment map after the lines, in order, are read into `base`. */
  function EnvFromLines(base: map<string, string>, lines: seq<string>): map<string, string>
  {
    Assign(base, Somes(ParsedLines(lines)))
  }

  /** Reading one more line writes its entry, if it has one, over the map read so far. */
  lemma EnvFromLinesStep(base: map<string, string>, lines: seq<string>, i: nat)
    requires i < |lines|
    ensures EnvFromLines(base, lines[..i + 1]) ==
      match ParseLine(lines[i])
      case Some(entry) => EnvFromLines(base, lines[..i])[entry.0 := entry.1]
      case None => EnvFromLines(base, lines[..i])
  {
    var p := ParsedLines(lines[..i + 1]);
    assert p[..i] == ParsedLines(lines[..i]);
    var e := Somes(p[..i]);
    if ParseLine(lines[i]).Some? {
      assert Somes(p) == e + [ParseLine(lines[i]).value];
      assert (e + [ParseLine(lines[i]).value])[..|e|] == e;
    } else {
      assert Somes(p) == e;
    }
  }

  /**
   * A key is in the map exactly when it was there before or some entry
   * defines it; its value is that of the last entry that defines it.
   */
  lemma {:induction false} AssignLastWins(base: map<string, string>, entries: seq<(string, string)>, key: string)
    ensures key in Assign(base, entries) <==> key in base || exists i :: 0 <= i < |entries| && entries[i].0 == key
    ensures forall i :: 0 <= i < |entries| && entries[i].0 == key && LastFor(entries, key, i) ==>
      key in Assign(base, entries) && Assign(base, entries)[key] == entries[i].1
    decreases |entries|
  {
    if entries != [] {
      var init := entries[..|entries| - 1];
      AssignLastWins(base, init, key);
      forall i | 0 <= i < |init| ensures init[i] == entries[i] { }
    }
  }

  /** No entry after position `i` defines `key`. */
  predicate LastFor(entries: seq<(string, string)>, key: string, i: nat)
  {
    forall j :: i < j < |entries| ==> entries[j].0 != key
  }

  /** A key no entry defines keeps its value from before. */
  lemma {:induction false} AssignUntouched(base: map<string, string>, entries: seq<(string, string)>, key: string)
    requires key in base && forall i :: 0 <= i < |entries| ==> entries[i].0 != key
    ensures key in Assign(base, entries) && Assign(base, entries)[key] == base[key]
    decreases |entries|
  {
    if entries != [] {
      AssignUntouched(base, entries[..|entries| - 1], key);
    }
  }

  /** The present values are exactly those of the present options, in order. */
  lemma {:induction false} SomesMembers<X>(opts: seq<Option<X>>)
    ensures forall i :: 0 <= i < |opts| && opts[i].Some? ==> opts[i].value in Somes(opts)
    ensures forall e :: e in Somes(opts) ==> Some(e) in opts
    decreases |opts|
  {
    if opts != [] {
      var init := opts[..|opts| - 1];
      SomesMembers(init);
      forall i | 0 <= i < |init| ensures init[i] == opts[i] { }
    }
  }

  /**
   * A key is in the environment read from the lines exactly when it was
   * there before or some accepted line defines it.
   */
  lemma EnvKeys(base: map<string, string>, lines: seq<string>, key: string)
    ensures key in EnvFromLines(base, lines) <==>
      key in base || exists i :: 0 <= i < |lines| && ParseLine(lines[i]).Some? && ParseLine(lines[i]).value.0 == key
  {
    var parsed := ParsedLines(lines);
    AssignLastWins(base, Somes(parsed), key);
    SomesKeys(parsed, key);
    if exists i :: 0 <= i < |parsed| && parsed[i].Some? && parsed[i].value.0 == key {
      var i :| 0 <= i < |parsed| && parsed[i].Some? && parsed[i].value.0 == key;
      assert ParseLine(lines[i]) == parsed[i];
    }
    if exists i :: 0 <= i < |lines| && ParseLine(lines[i]).Some? && ParseLine(lines[i]).value.0 == key {
      var i :| 0 <= i < |lines| && ParseLine(lines[i]).Some? && ParseLine(lines[i]).value.0 == key;
      assert parsed[i] == ParseLine(lines[i]);
    }
  }

  /** Some present value has key `key` exactly when some option holds such a value. */
  lemma SomesKeys<X>(opts: seq<Option<(string, X)>>, key: string)
    ensures (exists k :: 0 <= k < |Somes(opts)| && Somes(opts)[k].0 == key) <==>
      exists i :: 0 <= i < |opts| && opts[i].Some? && opts[i].value.0 == key
  {
    var entries := Somes(opts);
    SomesMembers(opts);
    if exists i :: 0 <= i < |opts| && opts[i].Some? && opts[i].value.0 == key {
      var i :| 0 <= i < |opts| && opts[i].Some? && opts[i].value.0 == key;
      var k :| 0 <= k < |entries| && entries[k] == opts[i].value;
      assert 0 <= k < |Somes(opts)| && Somes(opts)[k].0 == key;
    }
    if exists k :: 0 <= k < |Somes(opts)| && Somes(opts)[k].0 == key {
      var k :| 0 <= k < |entries| && entries[k].0 == key;
      assert entries[k] in entries;
      var i :| 0 <= i < |opts| && opts[i] == Some(entries[k]);
      assert opts[i].Some? && opts[i].value.0 == key;
    }
  }

  /** The entries read from three lines whose first two define `e1` and `e2`. */
  lemma ThreeLinesEntries(a: string, b: string, c: string, e1: (string, string), e2: (string, string))
    requires ParseLine(a) == Some(e1) && ParseLine(b) == Some(e2)
    ensures Somes(ParsedLines([a, b, c])) == [e1, e2] + (if ParseLine(c).Some? then [ParseLine(c).value] else [])
  {
    var parsed := ParsedLines([a, b, c]);
    assert parsed == [Some(e1), Some(e2), ParseLine(c)];
    assert parsed[..2][..1] == [Some(e1)] && parsed[..2] == [Some(e1), Some(e2)];
    assert Somes([Some(e1)]) == [e1];
    assert Somes(parsed[..2]) == [e1, e2];
  }

  /** Of three lines, the first two defining distinct keys the third does not redefine, both keys are read. */
  lemma ThreeLines(a: string, b: string, c: string, e1: (string, string), e2: (string, string))
    requires ParseLine(a) == Some(e1) && ParseLine(b) == Some(e2) && e1.0 != e2.0
    requires ParseLine(c).None? || (ParseLine(c).value.0 != e1.0 && ParseLine(c).value.0 != e2.0)
    ensures var env := EnvFromLines(map[], [a, b, c]);
      e1.0 in env && env[e1.0] == e1.1 && e2.0 in env && env[e2.0] == e2.1
  {
    ThreeLinesEntries(a, b, c, e1, e2);
    var entries := Somes(ParsedLines([a, b, c]));
    assert entries[0] == e1 && entries[1] == e2;
    assert LastFor(entries, e1.0, 0) && LastFor(entries, e2.0, 1);
    AssignLastWins(map[], entries, e1.0);
    AssignLastWins(map[], entries, e2.0);
  }

  /** The unit test's `.env.aws` lines parse to their own keys and values, one line per lemma. */
  lemma AccessKeyLine(k: string, v: string)
    requires k == "AWS_ACCESS_KEY_ID" && v == "TEST_KEY"
    ensures ParseLine(k + "=" + v) == Some((k, v))
  {
    ParseAssignment(k, v);
  }

  lemma SecretKeyLine(k: string, v: string)
    requires k == "AWS_SECRET_ACCESS_KEY" && v == "TEST_SECRET"
    ensures ParseLine(k + "=" + v) == Some((k, v))
  {
    ParseAssignment(k, v);
  }

  lemma RoleArnLine(k: string, v: string)
    requires k == "SAGEMAKER_ROLE_ARN" && v == "arn:aws:iam::123456789012:role/test-role"
    ensures ParseLine(k + "=" + v) == Some((k, v))
  {
    ParseAssignment(k, v);
  }

  /** A no-break space after "=" is whitespace to `strip()`, so it does not reach the value. */
  lemma NoBreakSpaceStripped(k: string, v: string)
    requires k == "AWS_REGION" && v == "us-east-1"
    ensures ParseLine(k + "=" + ['\U{A0}'] + v) == Some((k, v))
  {
    var padded := ['\U{A0}'] + v;
    var l := k + "=" + padded;
    assert l == k + ['='] + padded;
    assert l[0] == k[0] && l[|l| - 1] == v[|v| - 1];
    Text.StripUnpadded(l);
    Text.FirstIndexAfter(k, '=', padded);
    var i := Text.FirstIndex(l, '=');
    assert l[..i] == k && l[i + 1..] == padded;
    Text.StripUnpadded(k);
    assert padded[1..] == v;
    assert Text.StripLeft(padded) == Text.StripLeft(v);
    Text.StripUnpadded(v);
    assert Text.StripLeft(v) == v;
    assert Text.Strip(padded) == v;
    assert Text.Strip(l) == l;
    assert k + "=" + ['\U{A0}'] + v == l;
    assert ParseLine(l) == Some((k, v));
  }

  /**
   * The `.env.aws` lines of the unit test give AWS_ACCESS_KEY_ID "TEST_KEY"
   * and AWS_SECRET_ACCESS_KEY "TEST_SECRET".
   */
  lemma TestEnvFile(k1: string, v1: string, k2: string, v2: string, k3: string, v3: string)
    requires k1 == "AWS_ACCESS_KEY_ID" && v1 == "TEST_KEY" && k2 == "AWS_SECRET_ACCESS_KEY" && v2 == "TEST_SECRET"
    requires k3 == "SAGEMAKER_ROLE_ARN" && v3 == "arn:aws:iam::123456789012:role/test-role"
    ensures var env := EnvFromLines(map[], [k1 + "=" + v1, k2 + "=" + v2, k3 + "=" + v3]);
      k1 in env && env[k1] == v1 && k2 in env && env[k2] == v2
  {
    AccessKeyLine(k1, v1);
    SecretKeyLine(k2, v2);
    RoleArnLine(k3, v3);
    ThreeLines(k1 + "=" + v1, k2 + "=" + v2, k3 + "=" + v3, (k1, v1), (k2, v2));
  }

  /** The outcome of reading a file: missing, failing with any exception, or read. */
  datatype YamlFile = NoYaml | YamlError | YamlLoaded(document: Value)
  datatype EnvFile = NoEnv | EnvError | EnvLines(lines: seq<string>)

  /** `_load_config`: the parsed document (`None` for an empty file), `{}` otherwise. */
  function LoadedConfig(file: YamlFile): Value
  {
    match file
    case YamlLoaded(document) => document
    case _ => Dict(map[])
  }

  /** `.get(key, default)` on a value: `None` (AttributeError) when it is not a dictionary. */
  function GetKey(v: Value, key: string, default: Value): (r: Option<Value>)
    ensures r.Some? <==> v.Dict?
    ensures v.Dict? && key in v.entries ==> r == Some(v.entries[key])
    ensures v.Dict? && key !in v.entries ==> r == Some(default)
  {
    if !v.Dict? then None else if key in v.entries then Some(v.entries[key]) else Some(default)
  }

  /**
   * A chain `.get(k1, {}).get(k2, {})…get(kn, last)`, `None` when some step
   * is applied to a value that is not a dictionary.
   */
  function GetChain(v: Value, keys: seq<string>, last: Value): Option<Value>
    decreases |keys|
  {
    if keys == [] then Some(v)
    else
      match GetKey(v, keys[0], if |keys| == 1 then last else Dict(map[]))
      case None => None
      case Some(next) => GetChain(next, keys[1..], last)
  }

  /** Where the path is present, the chain finds what the dictionary walk finds. */
  lemma {:induction false} GetChainReach(v: Value, keys: seq<string>, last: Value)
    requires Reach(v, keys).Some?
    ensures GetChain(v, keys, last) == Reach(v, keys)
    decreases |keys|
  {
    if keys != [] {
      GetChainReach(v.entries[keys[0]], keys[1..], last);
    }
  }

  /** A chain applied to `{}` ends at its last default. */
  lemma {:induction false} GetChainEmpty(keys: seq<string>, last: Value)
    requires |keys| >= 1
    ensures GetChain(Dict(map[]), keys, last) == Some(last)
    decreases |keys|
  {
    var empty: map<string, Value> := map[];
    assert keys[0] !in empty;
    if |keys| > 1 {
      GetChainEmpty(keys[1..], last);
    }
  }

  /** A chain whose first key is missing from a dictionary ends at its last default. */
  lemma GetChainMissing(v: Value, keys: seq<string>, last: Value)
    requires |keys| >= 1 && v.Dict? && keys[0] !in v.entries
    ensures GetChain(v, keys, last) == Some(last)
  {
    if |keys| > 1 {
      GetChainEmpty(keys[1..], last);
    }
  }

  const DefaultInstanceType := "ml.p3.2xlarge"

  /**
   * `get_training_config`: the default table overridden by the model's
   * table, with `instance_type` always set from the SageMaker section;
   * `{}` when a lookup or the merge raises.
   */
  function TrainingConfig(config: Value, modelName: string): (r: map<string, Value>)
    ensures var d, m, t := GetChain(config, ["training", "default"], Dict(map[])),
                           GetChain(config, ["training", "models", modelName], Dict(map[])),
                           GetChain(config, ["sagemaker", "training", "default_instance_type"], Str(DefaultInstanceType));
      if d.Some? && d.value.Dict? && m.Some? && m.value.Dict? && t.Some? then
        r.Keys == d.value.entries.Keys + m.value.entries.Keys + {"instance_type"}
        && r["instance_type"] == t.value
        && (forall k :: k in r && k != "instance_type" ==>
              r[k] == if k in m.value.entries then m.value.entries[k] else d.value.entries[k])
      else r == map[]
  {
    var d := GetChain(config, ["training", "default"], Dict(map[]));
    var m := GetChain(config, ["training", "models", modelName], Dict(map[]));
    if d.None? || !d.value.Dict? || m.None? || !m.value.Dict? then map[]
    else
      var t := GetChain(config, ["sagemaker", "training", "default_instance_type"], Str(DefaultInstanceType));
      if t.None? then map[] else (d.value.entries + m.value.entries)["instance_type" := t.value]
  }

  /**
   * A model table's own `instance_type` never survives: the SageMaker
   * setting replaces it, while the table's other entries are kept.
   */
  lemma InstanceTypeForced(config: Value, modelName: string, defaults: map<string, Value>, table: map<string, Value>, t: Value)
    requires Reach(config, ["training", "default"]) == Some(Dict(defaults))
    requires Reach(config, ["training", "models", modelName]) == Some(Dict(table)) && "instance_type" in table
    requires Reach(config, ["sagemaker", "training", "default_instance_type"]) == Some(t)
    ensures var r := TrainingConfig(config, modelName);
      "instance_type" in r && r["instance_type"] == t
      && forall k :: k in table && k != "instance_type" ==> k in r && r[k] == table[k]
  {
    GetChainReach(config, ["training", "default"], Dict(map[]));
    GetChainReach(config, ["training", "models", modelName], Dict(map[]));
    GetChainReach(config, ["sagemaker", "training", "default_instance_type"], Str(DefaultInstanceType));
  }

  /** Without a training section the result holds nothing but the SageMaker instance type. */
  lemma OnlyInstanceTypeWithoutTraining(config: Value, modelName: string, t: Value)
    requires config.Dict? && "training" !in config.entries
    requires Reach(config, ["sagemaker", "training", "default_instance_type"]) == Some(t)
    ensures TrainingConfig(config, modelName) == map["instance_type" := t]
  {
    GetChainMissing(config, ["training", "default"], Dict(map[]));
    GetChainMissing(config, ["training", "models", modelName], Dict(map[]));
    GetChainReach(config, ["sagemaker", "training", "default_instance_type"], Str(DefaultInstanceType));
  }

  /** Without a SageMaker section the instance type is "ml.p3.2xlarge". */
  lemma InstanceTypeDefault(config: Value, modelName: string)
    requires config.Dict? && "sagemaker" !in config.entries
    requires TrainingConfig(config, modelName) != map[]
    ensures TrainingConfig(config, modelName)["instance_type"] == Str(DefaultInstanceType)
  {
    GetChainMissing(config, ["sagemaker", "training", "default_instance_type"], Str(DefaultInstanceType));
  }

  /** `get_hyperparameter_search_space`: the model's entry, `{}` when it is missing or a lookup raises. */
  function SearchSpace(config: Value, modelName: string): (r: Value)
    ensures var spaces := GetChain(config, ["hyperparameter_tuning", "search_spaces"], Dict(map[]));
      spaces.Some? && spaces.value.Dict? && modelName in spaces.value.entries ==> r == spaces.value.entries[modelName]
    ensures var spaces := GetChain(config, ["hyperparameter_tuning", "search_spaces"], Dict(map[]));
      !(spaces.Some? && spaces.value.Dict? && modelName in spaces.value.entries) ==> r == Dict(map[])
  {
    var spaces := GetChain(config, ["hyperparameter_tuning", "search_spaces"], Dict(map[]));
    if spaces.None? then Dict(map[])
    else match GetKey(spaces.value, modelName, Dict(map[]))
      case None => Dict(map[])
      case Some(v) => v
  }

  /** The answer of a SageMaker or IAM lookup. */
  datatype Probe =
    | Exists
    | Missing     // a ClientError, whatever its code
    | Crash       // any other exception

  /** The dictionary `validate_sagemaker_setup` returns. */
  datatype SetupReport = SetupReport(domainExists: bool, userProfileExists: bool, roleExists: bool, valid: bool)

  /**
   * The lookups of `validate_sagemaker_setup` run to the end: both `.get`
   * chains are defined, a truthy name is a string, and no probe raises
   * anything but a `ClientError`.
   */
  predicate ProbesSettle(config: Value, envVars: map<string, string>, domainProbe: string -> Probe,
                         profileProbe: (Value, string) -> Probe, roleProbe: string -> Probe)
  {
    var domain, profile := GetChain(config, ["sagemaker", "domain", "name"], Null),
                           GetChain(config, ["sagemaker", "notebook", "instance_type"], Null);
    domain.Some? && profile.Some?
    && (Truthy(domain.value) ==> domain.value.Str? && domainProbe(domain.value.s) != Crash)
    && (Truthy(profile.value) ==> profile.value.Str? && profileProbe(domain.value, profile.value.s) != Crash)
    && ("SAGEMAKER_ROLE_ARN" in envVars && envVars["SAGEMAKER_ROLE_ARN"] != [] ==>
          roleProbe(RoleName(envVars["SAGEMAKER_ROLE_ARN"])) != Crash)
  }

  /** `role_arn.split("/")[-1]` */
  function RoleName(arn: string): string
  {
    var parts := Text.Split(arn, '/');
    parts[|parts| - 1]
  }

  class AwsConfigManager {
    var config: Value
    var envVars: map<string, string>
    /** Whether `_init_aws_clients` built the clients (it sets them to `None` when it fails). */
    var clientsReady: bool

    /** `AWSConfigManager()`: the YAML configuration, then the environment file, then the clients. */
    constructor(configFile: YamlFile, envFile: EnvFile, clientsReady: bool)
      ensures config == LoadedConfig(configFile)
      ensures envVars == (if envFile.EnvLines? then EnvFromLines(map[], envFile.lines) else map[])
      ensures this.clientsReady == clientsReady
    {
      config := LoadedConfig(configFile);
      envVars := map[];
      this.clientsReady := clientsReady;
      new;
      LoadEnvVars(envFile);
    }

    /**
     * `_load_env_vars`: each accepted line is written into the map in file
     * order; a missing file or any read error leaves it empty.
     */
    method LoadEnvVars(file: EnvFile)
      modifies this
      ensures envVars == (if file.EnvLines? then EnvFromLines(old(envVars), file.lines) else map[])
      ensures config == old(config) && clientsReady == old(clientsReady)
    {
      match file {
        case NoEnv => envVars := map[];
        case EnvError => envVars := map[];
        case EnvLines(lines) =>
          for i := 0 to |lines|
            invariant envVars == EnvFromLines(old(envVars), lines[..i])
            invariant config == old(config) && clientsReady == old(clientsReady)
          {
            EnvFromLinesStep(old(envVars), lines, i);
            var entry := ParseLine(lines[i]);
            if entry.Some? {
              envVars := envVars[entry.value.0 := entry.value.1];
            }
          }
          assert lines[..|lines|] == lines;
      }
    }

    /**
     * `validate_sagemaker_setup`: the domain name comes from
     * sagemaker.domain.name, the user-profile name from
     * sagemaker.notebook.instance_type, the role from SAGEMAKER_ROLE_ARN;
     * each present name is looked up, and `valid` is the conjunction of the
     * three flags. An exception other than a ClientError returns the flags
     * set so far with `valid` false.
     */
    method ValidateSagemakerSetup(domainProbe: string -> Probe, profileProbe: (Value, string) -> Probe,
                                  roleProbe: string -> Probe) returns (r: SetupReport)
      ensures r.valid <==> r.domainExists && r.userProfileExists && r.roleExists
      ensures r.valid ==> clientsReady
      ensures r.domainExists ==>
        var name := GetChain(config, ["sagemaker", "domain", "name"], Null);
        name.Some? && name.value.Str? && name.value.s != [] && domainProbe(name.value.s) == Exists
      ensures r.roleExists ==>
        "SAGEMAKER_ROLE_ARN" in envVars && envVars["SAGEMAKER_ROLE_ARN"] != []
        && roleProbe(RoleName(envVars["SAGEMAKER_ROLE_ARN"])) == Exists
      ensures r.userProfileExists ==>
        var domain, profile := GetChain(config, ["sagemaker", "domain", "name"], Null),
                               GetChain(config, ["sagemaker", "notebook", "instance_type"], Null);
        domain.Some? && profile.Some? && profile.value.Str? && profile.value.s != []
        && profileProbe(domain.value, profile.value.s) == Exists
      ensures !clientsReady ==> r == SetupReport(false, false, false, false)
      ensures clientsReady && ProbesSettle(config, envVars, domainProbe, profileProbe, roleProbe) ==>
        var domain, profile := GetChain(config, ["sagemaker", "domain", "name"], Null).value,
                               GetChain(config, ["sagemaker", "notebook", "instance_type"], Null).value;
        (r.domainExists <==> Truthy(domain) && domainProbe(domain.s) == Exists)
        && (r.userProfileExists <==> Truthy(profile) && profileProbe(domain, profile.s) == Exists)
        && (r.roleExists <==> "SAGEMAKER_ROLE_ARN" in envVars && envVars["SAGEMAKER_ROLE_ARN"] != []
                              && roleProbe(RoleName(envVars["SAGEMAKER_ROLE_ARN"])) == Exists)
    {
      r := SetupReport(false, false, false, false);
      if !clientsReady {
        return;
      }
      var domainName := GetChain(config, ["sagemaker", "domain", "name"], Null);
      var profileName := GetChain(config, ["sagemaker", "notebook", "instance_type"], Null);
      if domainName.None? || profileName.None? {
        return;
      }
      if Truthy(domainName.value) {
        if !domainName.value.Str? {
          return;
        }
        var probe := domainProbe(domainName.value.s);
        if probe == Crash {
          return;
        }
        r := r.(domainExists := probe == Exists);
      }
      if Truthy(profileName.value) {
        if !profileName.value.Str? {
          return;
        }
        var probe := profileProbe(domainName.value, profileName.value.s);
        if probe == Crash {
          return;
        }
        r := r.(userProfileExists := probe == Exists);
      }
      if "SAGEMAKER_ROLE_ARN" in envVars && envVars["SAGEMAKER_ROLE_ARN"] != [] {
        var probe := roleProbe(RoleName(envVars["SAGEMAKER_ROLE_ARN"]));
        if probe == Crash {
          return;
        }
        r := r.(roleExists := probe == Exists);
      }
      r := r.(valid := r.domainExists && r.userProfileExists && r.roleExists);
    }
  }
}
