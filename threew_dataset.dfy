/**
 * Access to the 3W dataset through its toolkit (`ThreeWDataset` and the
 * module-level helpers of the dataset package).
 *
 * The toolkit, the dataset directory, the folds directory and the problems
 * directory are outside the program; they are modelled as an environment
 * value: which paths exist, what the problems directory lists, which fold
 * files there are and whether they parse, and which problems have a README.
 */
module ThreeW {
  import opened Wrappers
  import Text

  /** The constants the toolkit exports when it can be imported. */
  datatype Toolkit = Toolkit(version: string, datasetPath: string, foldsPath: string)

  /** One entry of the problems directory. */
  datatype Entry = Entry(name: string, isDir: bool)

  /** A fold file: its folds when the toolkit's `EventFolds` reads it, or a file it cannot read. */
  datatype FoldFile = Parsed(folds: seq<Fold>) | Unreadable

  /** One fold: where its training and its test instances are. */
  datatype Fold = Fold(trainInstances: string, testInstances: string)

  datatype Env = Env(
    toolkit: Option<Toolkit>,           // None: the toolkit import failed
    existing: set<string>,              // the paths that exist
    problemsListing: Option<seq<Entry>>, // None: the problems directory does not exist
    problemDirs: map<string, Option<string>>, // the problem directories, with their README text when there is one
    foldFiles: map<string, FoldFile>)   // the files of the folds directory, by name without ".csv"

  datatype DatasetError = ToolkitUnavailable | DatasetMissing(path: string) | FoldsMissing(path: string)

  /** A constructed `ThreeWDataset`; its fields are assigned once. */
  datatype Dataset = Dataset(datasetPath: string, foldsPath: string, version: string)

  /** The dataset directory the constructor uses: the given path when it is a non-empty string, else the toolkit's. */
  function ChosenPath(tk: Toolkit, datasetPath: Option<string>): string
  {
    if datasetPath.Some? && datasetPath.value != [] then datasetPath.value else tk.datasetPath
  }

  /**
   * The constructor: it raises when the toolkit is unavailable, then when the
   * dataset directory (the given one, or the toolkit's when none or an empty
   * one is given) or the folds directory is missing.
   */
  function NewDataset(env: Env, datasetPath: Option<string>): (r: Result<Dataset, DatasetError>)
    ensures env.toolkit.None? <==> r == Err(ToolkitUnavailable)
    ensures env.toolkit.Some? ==>
      var p, folds := ChosenPath(env.toolkit.value, datasetPath), env.toolkit.value.foldsPath;
      (r.Ok? <==> p in env.existing && folds in env.existing)
      && (p !in env.existing ==> r == Err(DatasetMissing(p)))
      && (p in env.existing && folds !in env.existing ==> r == Err(FoldsMissing(folds)))
      && (r.Ok? ==> r.value == Dataset(p, folds, env.toolkit.value.version))
  {
    if env.toolkit.None? then Err(ToolkitUnavailable)
    else
      var tk := env.toolkit.value;
      var path := ChosenPath(tk, datasetPath);
      if path !in env.existing then Err(DatasetMissing(path))
      else if tk.foldsPath !in env.existing then Err(FoldsMissing(tk.foldsPath))
      else Ok(Dataset(path, tk.foldsPath, tk.version))
  }

  /** The given dataset path wins over the toolkit's default when it is a non-empty string. */
  lemma NewDatasetPath(env: Env, datasetPath: Option<string>)
    requires NewDataset(env, datasetPath).Ok?
    ensures datasetPath.Some? && datasetPath.value != [] ==> NewDataset(env, datasetPath).value.datasetPath == datasetPath.value
    ensures datasetPath.None? ==> NewDataset(env, datasetPath).value.datasetPath == env.toolkit.value.datasetPath
  {
  }

  /** `is_threew_available` */
  predicate Available(env: Env)
  {
    env.toolkit.Some?
  }

  /** What `get_threew_info` reports. */
  datatype ThreeWInfo = Unavailable(error: string) | Reported(version: string, datasetPath: string, foldsPath: string)

  function GetThreewInfo(env: Env): (r: ThreeWInfo)
    ensures r.Unavailable? <==> !Available(env)
    ensures r.Reported? ==> r.version == env.toolkit.value.version && r.datasetPath == env.toolkit.value.datasetPath
                            && r.foldsPath == env.toolkit.value.foldsPath
  {
    if env.toolkit.None? then Unavailable("3W Toolkit não disponível")
    else Reported(env.toolkit.value.version, env.toolkit.value.datasetPath, env.toolkit.value.foldsPath)
  }

  /** `get_dataset_info`: the dataset's own fields, and availability, which holds for any constructed dataset. */
  datatype DatasetInfo = DatasetInfo(version: string, datasetPath: string, foldsPath: string, available: bool)

  function GetDatasetInfo(env: Env, d: Dataset): DatasetInfo
  {
    DatasetInfo(d.version, d.datasetPath, d.foldsPath, Available(env))
  }

  lemma DatasetInfoAvailable(env: Env, path: Option<string>)
    requires NewDataset(env, path).Ok?
    ensures GetDatasetInfo(env, NewDataset(env, path).value).available
  {
  }

  /** The entries `list_available_problems` keeps: directories whose name does not start with "_". */
  predicate Listed(e: Entry)
  {
    e.isDir && !Text.StartsWith(e.name, "_")
  }

  function ProblemNames(entries: seq<Entry>): seq<string>
  {
    if entries == [] then []
    else
      var last := entries[|entries| - 1];
      ProblemNames(entries[..|entries| - 1]) + (if Listed(last) then [last.name] else [])
  }

  /** A name is listed exactly when some entry with that name is a directory not starting with "_". */
  lemma {:induction false} ProblemNamesMembers(entries: seq<Entry>)
    ensures forall n :: n in ProblemNames(entries) <==> exists e :: e in entries && Listed(e) && e.name == n
    ensures |ProblemNames(entries)| <= |entries|
  {
    if entries != [] {
      var init := entries[..|entries| - 1];
      var last := entries[|entries| - 1];
      ProblemNamesMembers(init);
      assert entries == init + [last];
      forall n ensures n in ProblemNames(entries) <==> exists e :: e in entries && Listed(e) && e.name == n
      {
        if n in ProblemNames(entries) {
          if n in ProblemNames(init) {
            var e :| e in init && Listed(e) && e.name == n;
            assert e in entries;
          } else {
            assert last in entries;
          }
        }
        if exists e :: e in entries && Listed(e) && e.name == n {
          var e :| e in entries && Listed(e) && e.name == n;
          if e != last {
            assert e in init;
          }
        }
      }
    }
  }

  /** `list_available_problems`: `[]` without a problems directory, else the kept names in listing order. */
  method ListAvailableProblems(env: Env) returns (problems: seq<string>)
    ensures env.problemsListing.None? ==> problems == []
    ensures env.problemsListing.Some? ==> problems == ProblemNames(env.problemsListing.value)
  {
    if env.problemsListing.None? {
      return [];
    }
    var entries := env.problemsListing.value;
    problems := [];
    for i := 0 to |entries|
      invariant problems == ProblemNames(entries[..i])
    {
      assert entries[..i + 1][..i] == entries[..i];
      var item := entries[i];
      if item.isDir && !Text.StartsWith(item.name, "_") {
        problems := problems + [item.name];
      }
    }
    assert entries[..|entries|] == entries;
  }

  /** The record `load_problem_config` returns. */
  datatype ProblemConfig = ProblemConfig(name: string, description: string, path: string)

  /**
   * The problems directory: `3W/problems` under the repository root (the
   * module's grandparent directory), not under the dataset path.
   */
  const ProblemsRoot: string := "3W/problems"

  /** `load_problem_config`: the README text of an existing problem directory, else `None`. */
  function LoadProblemConfig(env: Env, problemName: string): (r: Option<ProblemConfig>)
    ensures r.Some? <==> problemName in env.problemDirs && env.problemDirs[problemName].Some?
    ensures r.Some? ==> r.value.name == problemName && r.value.description == env.problemDirs[problemName].value
                        && r.value.path == ProblemsRoot + "/" + problemName
  {
    if problemName !in env.problemDirs then None
    else
      match env.problemDirs[problemName]
      case None => None
      case Some(readme) => Some(ProblemConfig(problemName, readme, ProblemsRoot + "/" + problemName))
  }

  /** `get_event_folds`: `None` when `<fold_config>.csv` is absent or cannot be read. */
  function GetEventFolds(env: Env, foldConfig: string): (r: Option<seq<Fold>>)
    ensures r.Some? <==> foldConfig in env.foldFiles && env.foldFiles[foldConfig].Parsed?
  {
    if foldConfig !in env.foldFiles then None
    else
      match env.foldFiles[foldConfig]
      case Unreadable => None
      case Parsed(folds) => Some(folds)
  }

  /** Python list indexing, where `-1` is the last element; `None` stands for the IndexError. */
  function PyIndex<X>(s: seq<X>, i: int): (r: Option<X>)
    ensures r.Some? <==> -|s| <= i < |s|
    ensures r.Some? && i >= 0 ==> r.value == s[i]
    ensures r.Some? && i < 0 ==> r.value == s[|s| + i]
  {
    if 0 <= i < |s| then Some(s[i])
    else if -|s| <= i < 0 then Some(s[|s| + i])
    else None
  }

  /** A two-dimensional array: its number of columns and its rows. */
  datatype Matrix<T> = Matrix(width: nat, rows: seq<seq<T>>)

  predicate WellFormed<T>(m: Matrix<T>)
  {
    forall r :: 0 <= r < |m.rows| ==> |m.rows[r]| == m.width
  }

  /** `instance.iloc[:, 1:]` of a loaded instance, whose first column is the label. */
  function Features<T>(f: Matrix<T>): (x: Matrix<T>)
    requires WellFormed(f) && f.width >= 1
    ensures WellFormed(x) && x.width == f.width - 1 && |x.rows| == |f.rows|
  {
    Matrix(f.width - 1, seq(|f.rows|, r requires 0 <= r < |f.rows| => f.rows[r][1..]))
  }

  /** `instance.iloc[:, 0]` */
  function Labels<T>(f: Matrix<T>): seq<T>
    requires WellFormed(f) && f.width >= 1
  {
    seq(|f.rows|, r requires 0 <= r < |f.rows| => f.rows[r][0])
  }

  /** Column 0 and columns 1.. put back side by side give the instance again. */
  lemma SplitColumnsRestores<T>(f: Matrix<T>)
    requires WellFormed(f) && f.width >= 1
    ensures |Features(f).rows| == |Labels(f)| == |f.rows|
    ensures forall r :: 0 <= r < |f.rows| ==> [Labels(f)[r]] + Features(f).rows[r] == f.rows[r]
  {
    forall r | 0 <= r < |f.rows|
      ensures [Labels(f)[r]] + Features(f).rows[r] == f.rows[r]
    {
      assert f.rows[r] == [f.rows[r][0]] + f.rows[r][1..];
    }
  }

  /** The four lists `load_instances_for_problem` returns. */
  datatype Split<T> = Split(xTrain: seq<Matrix<T>>, yTrain: seq<seq<T>>, xTest: seq<Matrix<T>>, yTest: seq<seq<T>>)

  /** Every instance has a label column to split off. */
  predicate Splittable<T>(frames: seq<Matrix<T>>)
  {
    forall i :: 0 <= i < |frames| ==> WellFormed(frames[i]) && frames[i].width >= 1
  }

  /** `xs` and `ys` hold, instance by instance and in order, the features and labels of `frames`. */
  ghost predicate SplitInto<T>(frames: seq<Matrix<T>>, xs: seq<Matrix<T>>, ys: seq<seq<T>>)
    requires Splittable(frames)
  {
    |xs| == |ys| == |frames|
    && forall i :: 0 <= i < |frames| ==> xs[i] == Features(frames[i]) && ys[i] == Labels(frames[i])
  }

  /** What the append loop over one instance list yields; an instance without columns raises. */
  function SplitAll<T>(frames: seq<Matrix<T>>): (r: Option<(seq<Matrix<T>>, seq<seq<T>>)>)
    requires forall i :: 0 <= i < |frames| ==> WellFormed(frames[i])
    ensures r.None? <==> exists i :: 0 <= i < |frames| && frames[i].width == 0
    ensures r.Some? ==> Splittable(frames) && SplitInto(frames, r.value.0, r.value.1)
  {
    if exists i :: 0 <= i < |frames| && frames[i].width == 0 then None
    else Some((seq(|frames|, i requires 0 <= i < |frames| && Splittable(frames) => Features(frames[i])),
               seq(|frames|, i requires 0 <= i < |frames| && Splittable(frames) => Labels(frames[i]))))
  }

  /** The append loop over one instance list, in order. */
  method SplitInstances<T>(frames: seq<Matrix<T>>) returns (r: Option<(seq<Matrix<T>>, seq<seq<T>>)>)
    requires forall i :: 0 <= i < |frames| ==> WellFormed(frames[i])
    ensures r == SplitAll(frames)
  {
    var xs: seq<Matrix<T>> := [];
    var ys: seq<seq<T>> := [];
    for i := 0 to |frames|
      invariant forall k :: 0 <= k < i ==> frames[k].width >= 1
      invariant Splittable(frames[..i]) && SplitInto(frames[..i], xs, ys)
    {
      if frames[i].width == 0 {
        return None;
      }
      xs := xs + [Features(frames[i])];
      ys := ys + [Labels(frames[i])];
      assert frames[..i + 1] == frames[..i] + [frames[i]];
    }
    assert frames[..|frames|] == frames;
    var expected := SplitAll(frames);
    assert expected.Some?;
    assert xs == expected.value.0 && ys == expected.value.1;
    return Some((xs, ys));
  }

  /** The instance reader the module ships: it always returns an empty list. */
  function LoadInstances<T>(instancesPath: string): seq<Matrix<T>>
  {
    []
  }

  /** A reader that returns only rectangular instances. */
  ghost predicate ReaderWellFormed<T>(load: string -> seq<Matrix<T>>)
  {
    forall p :: forall i :: 0 <= i < |load(p)| ==> WellFormed(load(p)[i])
  }

  /**
   * `load_instances_for_problem`: the folds must load, the index must pass
   * the `fold_index >= len(folds)` guard (a negative index reaches Python
   * indexing, which counts from the end), and every instance must have a
   * label column; then the instances of the fold are split into features and
   * labels, in order. `load` reads an instance list.
   */
  function LoadInstancesSpec<T>(env: Env, foldConfig: string, foldIndex: int, load: string -> seq<Matrix<T>>): (r: Option<Split<T>>)
    requires ReaderWellFormed(load)
    ensures GetEventFolds(env, foldConfig).None? ==> r.None?
    ensures GetEventFolds(env, foldConfig).Some? && foldIndex >= |GetEventFolds(env, foldConfig).value| ==> r.None?
    ensures r.Some? ==>
      var folds := GetEventFolds(env, foldConfig);
      folds.Some? && PyIndex(folds.value, foldIndex).Some?
      && var fold := PyIndex(folds.value, foldIndex).value;
      Splittable(load(fold.trainInstances)) && Splittable(load(fold.testInstances))
      && SplitInto(load(fold.trainInstances), r.value.xTrain, r.value.yTrain)
      && SplitInto(load(fold.testInstances), r.value.xTest, r.value.yTest)
    ensures r.None? && GetEventFolds(env, foldConfig).Some? && foldIndex < |GetEventFolds(env, foldConfig).value|
            && PyIndex(GetEventFolds(env, foldConfig).value, foldIndex).Some? ==>
      var fold := PyIndex(GetEventFolds(env, foldConfig).value, foldIndex).value;
      (exists i :: 0 <= i < |load(fold.trainInstances)| && load(fold.trainInstances)[i].width == 0)
      || (exists i :: 0 <= i < |load(fold.testInstances)| && load(fold.testInstances)[i].width == 0)
  {
    var folds := GetEventFolds(env, foldConfig);
    if folds.None? || foldIndex >= |folds.value| then None
    else
      var fold := PyIndex(folds.value, foldIndex);
      if fold.None? then None
      else
        var train := SplitAll(load(fold.value.trainInstances));
        var test := SplitAll(load(fold.value.testInstances));
        if train.None? || test.None? then None
        else Some(Split(train.value.0, train.value.1, test.value.0, test.value.1))
  }

  /** The steps of `load_instances_for_problem`, in the order the source takes them. */
  method LoadInstancesForProblem<T>(env: Env, foldConfig: string, foldIndex: int, load: string -> seq<Matrix<T>>)
    returns (r: Option<Split<T>>)
    requires ReaderWellFormed(load)
    ensures r == LoadInstancesSpec(env, foldConfig, foldIndex, load)
  {
    var folds := GetEventFolds(env, foldConfig);
    if folds.None? {
      return None;
    }
    if foldIndex >= |folds.value| {
      return None;
    }
    var fold := PyIndex(folds.value, foldIndex);
    if fold.None? {
      return None;
    }
    var train := SplitInstances(load(fold.value.trainInstances));
    if train.None? {
      return None;
    }
    var test := SplitInstances(load(fold.value.testInstances));
    if test.None? {
      return None;
    }
    return Some(Split(train.value.0, train.value.1, test.value.0, test.value.1));
  }

  /** With the reader the module ships, a load yields nothing or four empty lists. */
  lemma ShippedReaderLoadsNothing<T>(env: Env, foldConfig: string, foldIndex: int)
    ensures var r := LoadInstancesSpec(env, foldConfig, foldIndex, LoadInstances<T>);
      r.None? || r == Some(Split([], [], [], []))
  {
  }
}
