/**
 * `ConfigManager`: named YAML configurations kept in a directory and cached
 * in memory, the recursive dictionary merge behind `update_config`, the
 * default 3W tree, and `get_threew_setting`'s dotted-path lookup.
 *
 * The configuration directory is modelled as a map from configuration name
 * to the file's parsed content (or a file that does not parse); whether a
 * write succeeds is a parameter.
 */
module ConfigManagement {
  import opened Wrappers
  import opened Values
  import Text

  type Tree = map<string, Value>

  /** `_deep_update`: a copy of `base` with `updates` merged in, dictionaries recursively. */
  function DeepUpdate(base: Tree, updates: Tree): (r: Tree)
    ensures r.Keys == base.Keys + updates.Keys
    ensures forall k :: k in base && k !in updates ==> r[k] == base[k]
    ensures forall k :: k in updates && !(k in base && base[k].Dict? && updates[k].Dict?) ==> r[k] == updates[k]
    ensures forall k :: k in updates && k in base && base[k].Dict? && updates[k].Dict? ==>
      r[k] == Dict(DeepUpdate(base[k].entries, updates[k].entries))
      && r[k].entries.Keys == base[k].entries.Keys + updates[k].entries.Keys
    decreases Dict(updates)
  {
    map k | k in base.Keys + updates.Keys ::
      if k in updates then
        if k in base && base[k].Dict? && updates[k].Dict? then Dict(DeepUpdate(base[k].entries, updates[k].entries))
        else updates[k]
      else base[k]
  }

  /** Merging nothing changes nothing. */
  lemma DeepUpdateEmpty(base: Tree)
    ensures DeepUpdate(base, map[]) == base
  {
  }

  /** Merging a tree into itself gives the tree back. */
  lemma {:induction false} DeepUpdateSelf(t: Tree)
    ensures DeepUpdate(t, t) == t
    decreases Dict(t)
  {
    forall k | k in t
      ensures DeepUpdate(t, t)[k] == t[k]
    {
      if t[k].Dict? {
        DeepUpdateSelf(t[k].entries);
      }
    }
  }

  /** Applying the same updates twice is applying them once. */
  lemma {:induction false} DeepUpdateIdempotent(base: Tree, updates: Tree)
    ensures DeepUpdate(DeepUpdate(base, updates), updates) == DeepUpdate(base, updates)
    decreases Dict(updates)
  {
    var once := DeepUpdate(base, updates);
    forall k | k in once
      ensures DeepUpdate(once, updates)[k] == once[k]
    {
      if k in updates && once[k].Dict? && updates[k].Dict? {
        if k in base && base[k].Dict? {
          DeepUpdateIdempotent(base[k].entries, updates[k].entries);
        } else {
          DeepUpdateSelf(updates[k].entries);
        }
      }
    }
  }

  /** Every leaf of the updates (a value that is not a dictionary) is found at its path in the result. */
  lemma {:induction false} DeepUpdateLeavesWin(base: Tree, updates: Tree, path: seq<string>, v: Value)
    requires path != [] && Reach(Dict(updates), path) == Some(v) && !v.Dict?
    ensures Reach(Dict(DeepUpdate(base, updates)), path) == Some(v)
    decreases |path|
  {
    var k := path[0];
    var r := DeepUpdate(base, updates);
    if |path| > 1 {
      if k in base && base[k].Dict? && updates[k].Dict? {
        DeepUpdateLeavesWin(base[k].entries, updates[k].entries, path[1..], v);
      }
    }
  }

  /** A path whose first key the updates do not mention reads the same before and after. */
  lemma DeepUpdateKeepsUntouched(base: Tree, updates: Tree, path: seq<string>)
    requires path != [] && path[0] !in updates
    ensures Reach(Dict(DeepUpdate(base, updates)), path) == Reach(Dict(base), path)
  {
  }

  /**
   * The merge is deep: under a dictionary both sides hold, a key only the base
   * holds keeps its value, at any depth below the top level.
   */
  lemma {:induction false} DeepUpdateKeepsNested(base: Tree, updates: Tree, path: seq<string>, v: Value)
    requires |path| >= 2 && Reach(Dict(base), path) == Some(v)
    requires forall i :: 0 < i < |path| ==> Reach(Dict(updates), path[..i]).Some? && Reach(Dict(updates), path[..i]).value.Dict?
    requires Reach(Dict(updates), path) == None
    ensures Reach(Dict(DeepUpdate(base, updates)), path) == Some(v)
    decreases |path|
  {
    var k := path[0];
    assert path[..1] == [k];
    assert k in updates && updates[k].Dict? && k in base && base[k].Dict?;
    var tail := path[1..];
    if |path| == 2 {
      assert tail[0] in base[k].entries && tail[0] !in updates[k].entries;
    } else {
      forall i | 0 < i < |tail|
        ensures Reach(Dict(updates[k].entries), tail[..i]).Some? && Reach(Dict(updates[k].entries), tail[..i]).value.Dict?
      {
        assert path[..i + 1] == [k] + tail[..i];
        assert Reach(Dict(updates), path[..i + 1]) == Reach(updates[k], tail[..i]);
      }
      DeepUpdateKeepsNested(base[k].entries, updates[k].entries, tail, v);
    }
  }

  /** A configuration file: its parsed YAML content, or a file `yaml.safe_load` cannot read. */
  datatype StoredFile = Yaml(content: Value) | Unparsable

  /** What `load_config` reads: `None` for a missing or unreadable file. */
  function ReadFile(files: map<string, StoredFile>, name: string): (r: Option<Value>)
    ensures r.Some? <==> name in files && files[name].Yaml?
    ensures r.Some? ==> r.value == files[name].content
  {
    if name in files && files[name].Yaml? then Some(files[name].content) else None
  }

  /** An operation that raises: `AttributeError` or `TypeError` on a configuration that is not a dictionary. */
  datatype PyError = NotADictionary

  /**
   * `update_config` after `get_config`: an empty (falsy) configuration is
   * refused (`None`); a dictionary is merged with `updates` and the result is
   * to be saved. Other truthy values have no `copy` or cannot be indexed by a
   * key and raise, except a list with no updates, whose copy is saved.
   */
  function UpdateSpec(current: Value, updates: Tree): (r: Result<Option<Value>, PyError>)
    ensures !Truthy(current) ==> r == Ok(None)
    ensures current.Dict? && Truthy(current) ==> r == Ok(Some(Dict(DeepUpdate(current.entries, updates))))
    ensures r.Err? <==> Truthy(current) && !current.Dict? && !(current.List? && updates == map[])
  {
    if !Truthy(current) then Ok(None)
    else
      match current
      case Dict(entries) => Ok(Some(Dict(DeepUpdate(entries, updates))))
      case List(_) => if updates == map[] then Ok(Some(current)) else Err(NotADictionary)
      case _ => Err(NotADictionary)
  }

  /** The keys `validate_config` requires, in the order it checks them. */
  const RequiredKeys: seq<string> := ["dataset", "problems", "experiments"]

  /**
   * Python's `key in config`: dictionary keys, list elements, substrings of a
   * string; on a number or a boolean it raises.
   */
  function PyIn(key: string, config: Value): (r: Result<bool, PyError>)
    ensures config.Dict? ==> r == Ok(key in config.entries)
    ensures config.List? ==> r == Ok(Str(key) in config.items)
    ensures r.Err? <==> !(config.Dict? || config.List? || config.Str?)
  {
    match config
    case Dict(entries) => Ok(key in entries)
    case List(items) => Ok(Str(key) in items)
    case Str(s) => Ok(Text.IndexOf(s, key).Some?)
    case _ => Err(NotADictionary)
  }

  /** What `validate_config` decides for a configuration. */
  function ValidateSpec(config: Value): (r: Result<bool, PyError>)
  {
    if !Truthy(config) then Ok(false)
    else if !(config.Dict? || config.List? || config.Str?) then Err(NotADictionary)
    else Ok(forall i :: 0 <= i < |RequiredKeys| ==> PyIn(RequiredKeys[i], config) == Ok(true))
  }

  /** A dictionary is valid exactly when it holds "dataset", "problems" and "experiments". */
  lemma ValidateDictionary(entries: Tree)
    ensures ValidateSpec(Dict(entries)) == Ok("dataset" in entries && "problems" in entries && "experiments" in entries)
  {
    if "dataset" in entries && "problems" in entries && "experiments" in entries {
      assert |entries| != 0 by {
        assert "dataset" in entries.Keys;
      }
    }
    assert PyIn(RequiredKeys[0], Dict(entries)) == Ok("dataset" in entries);
    assert PyIn(RequiredKeys[1], Dict(entries)) == Ok("problems" in entries);
    assert PyIn(RequiredKeys[2], Dict(entries)) == Ok("experiments" in entries);
  }

  /** The tree `get_default_config("3w")` returns. */
  function DefaultThreeW(): Tree
  {
    map[
      "dataset" := Dict(map[
        "name" := Str("3W"),
        "version" := Str("1.1.0"),
        "description" := Str("Dataset 3W da Petrobras"),
        "paths" := Dict(map[
          "toolkit" := Str("3W/toolkit"),
          "dataset" := Str("3W/dataset"),
          "folds" := Str("3W/dataset/folds"),
          "problems" := Str("3W/problems")]),
        "loading" := Dict(map[
          "use_cache" := Bool(true),
          "normalize_data" := Bool(true),
          "test_size" := Real(0.2)]),
        "preprocessing" := Dict(map[
          "imputation_strategy" := Str("mean"),
          "scaling_method" := Str("robust")])]),
      "experiments" := Dict(map["default" := Dict(map["n_folds" := Int(5), "cross_validation" := Bool(true)])])
    ]
  }

  /** `get_default_config`: the 3W tree for "3w", an empty dictionary for any other name. */
  function GetDefaultConfig(name: string): (r: Value)
    ensures r.Dict?
    ensures Truthy(r) <==> name == "3w"
  {
    if name == "3w" then
      assert "dataset" in DefaultThreeW();
      Dict(DefaultThreeW())
    else Dict(map[])
  }

  /**
   * The default 3W tree has no "problems" key, so a configuration created
   * from it does not pass `validate_config`.
   */
  lemma DefaultFailsValidation()
    ensures ValidateSpec(GetDefaultConfig("3w")) == Ok(false)
  {
    ValidateDictionary(DefaultThreeW());
  }

  /** `get_threew_setting`'s answer: the stored value at the dotted path (even `None`), else the default. */
  function SettingSpec(config: Value, settingPath: string, default: Value): Value
  {
    match Reach(config, Text.Split(settingPath, '.'))
    case Some(v) => v
    case None => default
  }

  /** A stored `None` is returned as found; a path that cannot be followed gives the default. */
  lemma SettingCases(config: Value, settingPath: string, default: Value)
    ensures Reach(config, Text.Split(settingPath, '.')) == Some(Null) ==> SettingSpec(config, settingPath, default) == Null
    ensures Reach(config, Text.Split(settingPath, '.')).None? ==> SettingSpec(config, settingPath, default) == default
    ensures !config.Dict? ==> SettingSpec(config, settingPath, default) == default
  {
  }

  /**
   * `get_threew_setting`: split the path on "." and walk the nested
   * dictionaries, returning the default as soon as a step fails. `config` is
   * the loaded "3w" configuration.
   */
  method GetThreewSetting(config: Value, settingPath: string, default: Value) returns (v: Value)
    ensures v == SettingSpec(config, settingPath, default)
  {
    var keys := Text.Split(settingPath, '.');
    var current := config;
    for i := 0 to |keys|
      invariant Reach(config, keys) == Reach(current, keys[i..])
    {
      assert keys[i..][0] == keys[i] && keys[i..][1..] == keys[i + 1..];
      if current.Dict? && keys[i] in current.entries {
        current := current.entries[keys[i]];
      } else {
        return default;
      }
    }
    return current;
  }

  /** The configuration `get_config` returns: the cached one, else the file's content, else `{}`. */
  function CurrentConfig(configs: map<string, Value>, files: map<string, StoredFile>, name: string): Value
  {
    if name in configs then configs[name]
    else if ReadFile(files, name).Some? then ReadFile(files, name).value
    else Dict(map[])
  }

  /** The cache after `get_config`: an uncached name whose file reads is added; nothing else changes. */
  function CacheAfterGet(configs: map<string, Value>, files: map<string, StoredFile>, name: string): map<string, Value>
  {
    if name !in configs && ReadFile(files, name).Some? then configs[name := ReadFile(files, name).value] else configs
  }

  class ConfigManager {
    /** The parsed configurations, by name. */
    var configs: map<string, Value>
    /** The YAML files of the configuration directory, by name without ".yaml". */
    var files: map<string, StoredFile>

    constructor(files: map<string, StoredFile>)
      ensures configs == map[] && this.files == files
    {
      configs := map[];
      this.files := files;
    }

    /** `load_config`: a missing or unreadable file gives `{}` and is not cached; a read is cached, even `None`. */
    method LoadConfig(name: string) returns (config: Value)
      modifies this
      ensures files == old(files)
      ensures ReadFile(files, name).None? ==> config == Dict(map[]) && configs == old(configs)
      ensures ReadFile(files, name).Some? ==> config == ReadFile(files, name).value && configs == old(configs)[name := config]
    {
      if name !in files {
        return Dict(map[]);
      }
      match files[name]
      case Unparsable =>
        return Dict(map[]);
      case Yaml(content) =>
        configs := configs[name := content];
        return content;
    }

    /** `get_config`: the cached configuration, else a load. */
    method GetConfig(name: string) returns (config: Value)
      modifies this
      ensures files == old(files)
      ensures name in old(configs) ==> config == old(configs)[name] && configs == old(configs)
      ensures name !in old(configs) && ReadFile(files, name).None? ==> config == Dict(map[]) && configs == old(configs)
      ensures name !in old(configs) && ReadFile(files, name).Some? ==>
        config == ReadFile(files, name).value && configs == old(configs)[name := config]
    {
      if name !in configs {
        config := LoadConfig(name);
        return;
      }
      return configs[name];
    }

    /** `save_config`: on a successful write the file and the cache both hold `config`. */
    method SaveConfig(name: string, config: Value, writeSucceeds: bool) returns (ok: bool)
      modifies this
      ensures ok == writeSucceeds
      ensures ok ==> files == old(files)[name := Yaml(config)] && configs == old(configs)[name := config]
      ensures !ok ==> files == old(files) && configs == old(configs)
    {
      if !writeSucceeds {
        return false;
      }
      files := files[name := Yaml(config)];
      configs := configs[name := config];
      return true;
    }

    /**
     * `update_config`: `False` for an empty configuration, else the merged
     * configuration is saved; the cache first gains what `get_config` read.
     */
    method UpdateConfig(name: string, updates: Tree, writeSucceeds: bool) returns (r: Result<bool, PyError>)
      modifies this
      ensures var plan := UpdateSpec(CurrentConfig(old(configs), old(files), name), updates);
        var cached := CacheAfterGet(old(configs), old(files), name);
        (plan.Err? ==> r == Err(NotADictionary))
        && (plan == Ok(None) ==> r == Ok(false))
        && (plan.Ok? && plan.value.Some? ==> r == Ok(writeSucceeds))
        && (if plan.Ok? && plan.value.Some? && writeSucceeds
            then files == old(files)[name := Yaml(plan.value.value)] && configs == cached[name := plan.value.value]
            else files == old(files) && configs == cached)
    {
      var current := GetConfig(name);
      var plan := UpdateSpec(current, updates);
      if plan.Err? {
        return Err(NotADictionary);
      }
      if plan.value.None? {
        return Ok(false);
      }
      var ok := SaveConfig(name, plan.value.value, writeSucceeds);
      return Ok(ok);
    }

    /** `validate_config`: checks the three required keys in order; a non-container configuration raises. */
    method ValidateConfig(name: string) returns (r: Result<bool, PyError>)
      modifies this
      ensures files == old(files) && configs == CacheAfterGet(old(configs), old(files), name)
      ensures r == ValidateSpec(CurrentConfig(old(configs), old(files), name))
    {
      var config := GetConfig(name);
      if !Truthy(config) {
        return Ok(false);
      }
      for i := 0 to |RequiredKeys|
        invariant forall j :: 0 <= j < i ==> PyIn(RequiredKeys[j], config) == Ok(true)
        invariant i > 0 ==> config.Dict? || config.List? || config.Str?
      {
        var found := PyIn(RequiredKeys[i], config);
        if found.Err? {
          return Err(NotADictionary);
        }
        if !found.value {
          return Ok(false);
        }
      }
      return Ok(true);
    }

    /** `create_config_from_default`: `False` for a name without defaults, else the defaults are saved. */
    method CreateConfigFromDefault(name: string, writeSucceeds: bool) returns (ok: bool)
      modifies this
      ensures name != "3w" ==> !ok && files == old(files) && configs == old(configs)
      ensures name == "3w" ==> ok == writeSucceeds
      ensures name == "3w" && ok ==>
                files == old(files)[name := Yaml(GetDefaultConfig(name))]
                && configs == old(configs)[name := GetDefaultConfig(name)]
      ensures name == "3w" && !ok ==> files == old(files) && configs == old(configs)
    {
      var defaults := GetDefaultConfig(name);
      if !Truthy(defaults) {
        return false;
      }
      ok := SaveConfig(name, defaults, writeSucceeds);
    }
  }
}
