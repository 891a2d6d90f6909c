/**
 * `TimeSeriesDataLoader`: assembles a 3W fold into train, validation and
 * test matrices, optionally normalises them, and caches the result by key.
 *
 * The dataset, the instance reader, the scaler arithmetic and the random
 * train/validation split are outside the loader; they come in as an
 * environment (`ThreeW.Env`) and a `Numerics` record of functions. Any
 * exception raised inside `load_threew_problem` is caught and becomes `None`.
 */
module DataLoader {
  import opened Wrappers
  import Text
  import ThreeW

  type Matrix<T> = ThreeW.Matrix<T>

  /** `StandardScaler` or `MinMaxScaler`. */
  datatype ScalerKind = Standard | MinMax

  /** The four arrays `train_test_split` returns. */
  datatype Parts<T> = Parts(xTrain: Matrix<T>, xVal: Matrix<T>, yTrain: seq<T>, yVal: seq<T>)

  /**
   * What the loader borrows from its libraries: the instance reader, a scaler
   * fitted on a matrix (as the function it then applies), and the stratified
   * split with `random_state=42`, `None` when the split raises.
   */
  datatype Numerics<!T> = Numerics(
    read: string -> seq<Matrix<T>>,
    fitScaler: (ScalerKind, Matrix<T>) -> (Matrix<T> -> Matrix<T>),
    split: (Matrix<T>, seq<T>, real) -> Option<Parts<T>>)

  /** The dictionary `load_threew_problem` returns. */
  datatype Bundle<T> = Bundle(
    xTrain: Matrix<T>, yTrain: seq<T>,
    xVal: Matrix<T>, yVal: seq<T>,
    xTest: Matrix<T>, yTest: seq<T>,
    problemName: string, foldConfig: string, foldIndex: int, normalized: bool)

  // ---------------------------------------------------------------------------
  // Concatenation (`np.concatenate(..., axis=0)`)
  // ---------------------------------------------------------------------------

  /** The sequences of `ss` one after the other. */
  function Flatten<X>(ss: seq<seq<X>>): seq<X>
  {
    if ss == [] then [] else ss[0] + Flatten(ss[1..])
  }

  lemma {:induction false} FlattenAppend<X>(a: seq<seq<X>>, b: seq<seq<X>>)
    ensures Flatten(a + b) == Flatten(a) + Flatten(b)
    decreases |a|
  {
    if a != [] {
      assert (a + b)[0] == a[0];
      assert (a + b)[1..] == a[1..] + b;
      FlattenAppend(a[1..], b);
    } else {
      assert a + b == b;
    }
  }

  /**
   * Concatenation keeps every piece, in order: piece `i` is found right after
   * the pieces before it.
   */
  lemma FlattenKeepsPieces<X>(ss: seq<seq<X>>, i: nat)
    requires i < |ss|
    ensures var at := |Flatten(ss[..i])|;
      at + |ss[i]| <= |Flatten(ss)| && Flatten(ss)[at..at + |ss[i]|] == ss[i]
  {
    assert ss == ss[..i] + ([ss[i]] + ss[i + 1..]);
    FlattenAppend(ss[..i], [ss[i]] + ss[i + 1..]);
    FlattenAppend([ss[i]], ss[i + 1..]);
    assert Flatten([ss[i]]) == ss[i] by {
      assert [ss[i]][1..] == [];
    }
  }

  function RowsOf<T>(parts: seq<Matrix<T>>): seq<seq<seq<T>>>
  {
    seq(|parts|, i requires 0 <= i < |parts| => parts[i].rows)
  }

  /** Two-dimensional concatenation: `None` for an empty list or pieces of different widths, which raise. */
  function ConcatMatrices<T>(parts: seq<Matrix<T>>): (r: Option<Matrix<T>>)
    ensures r.Some? <==> |parts| > 0 && forall i :: 0 <= i < |parts| ==> parts[i].width == parts[0].width
    ensures r.Some? ==> r.value.width == parts[0].width
  {
    if |parts| > 0 && forall i :: 0 <= i < |parts| ==> parts[i].width == parts[0].width
    then Some(ThreeW.Matrix(parts[0].width, Flatten(RowsOf(parts))))
    else None
  }

  /** One-dimensional concatenation: `None` for an empty list, which raises. */
  function ConcatVectors<T>(parts: seq<seq<T>>): (r: Option<seq<T>>)
    ensures r.Some? <==> |parts| > 0
  {
    if |parts| > 0 then Some(Flatten(parts)) else None
  }

  /** The rows of instance `i` are the rows of the concatenation starting after the rows of instances `0..i`. */
  lemma ConcatMatricesKeepsOrder<T>(parts: seq<Matrix<T>>, i: nat)
    requires ConcatMatrices(parts).Some? && i < |parts|
    ensures var rows := ConcatMatrices(parts).value.rows;
      var at := |Flatten(RowsOf(parts[..i]))|;
      at + |parts[i].rows| <= |rows| && rows[at..at + |parts[i].rows|] == parts[i].rows
  {
    assert RowsOf(parts)[..i] == RowsOf(parts[..i]);
    FlattenKeepsPieces(RowsOf(parts), i);
  }

  /** Concatenating well-formed pieces gives a well-formed matrix. */
  lemma ConcatMatricesWellFormed<T>(parts: seq<Matrix<T>>)
    requires ConcatMatrices(parts).Some?
    requires forall i :: 0 <= i < |parts| ==> ThreeW.WellFormed(parts[i])
    ensures ThreeW.WellFormed(ConcatMatrices(parts).value)
  {
    FlattenRowsWidth(RowsOf(parts), parts[0].width);
  }

  lemma {:induction false} FlattenRowsWidth<T>(ss: seq<seq<seq<T>>>, w: nat)
    requires forall i, r :: 0 <= i < |ss| && 0 <= r < |ss[i]| ==> |ss[i][r]| == w
    ensures forall r :: 0 <= r < |Flatten(ss)| ==> |Flatten(ss)[r]| == w
    decreases |ss|
  {
    if ss != [] {
      FlattenRowsWidth(ss[1..], w);
    }
  }

  /** Label vectors: the label of instance `i` sit right after the labels of instances `0..i`. */
  lemma ConcatVectorsKeepsOrder<T>(parts: seq<seq<T>>, i: nat)
    requires i < |parts|
    ensures var v := ConcatVectors(parts).value;
      var at := |Flatten(parts[..i])|;
      at + |parts[i]| <= |v| && v[at..at + |parts[i]|] == parts[i]
  {
    FlattenKeepsPieces(parts, i);
  }

  // ---------------------------------------------------------------------------
  // Normalisation (`_normalize_data`)
  // ---------------------------------------------------------------------------

  /** The method names `_normalize_data` accepts. */
  function ScalerKindOf(name: string): (k: Option<ScalerKind>)
    ensures k == Some(Standard) <==> name == "standard"
    ensures k == Some(MinMax) <==> name == "minmax"
  {
    if name == "standard" then Some(Standard)
    else if name == "minmax" then Some(MinMax)
    else None
  }

  /**
   * The scaler accepts the train matrix for fitting and the test matrix for
   * transforming: at least one row and one column, and the test matrix as
   * wide as the train matrix.
   */
  predicate ScalerAccepts<T>(xTrain: Matrix<T>, xTest: Matrix<T>)
  {
    |xTrain.rows| > 0 && xTrain.width > 0 && |xTest.rows| > 0 && xTest.width == xTrain.width
  }

  datatype NormalizeError = InvalidMethod(name: string) | ScalerRejects

  /** What `_normalize_data` returns: both matrices through one scaler fitted on the train matrix. */
  function NormalizeSpec<T>(xTrain: Matrix<T>, xTest: Matrix<T>, name: string, num: Numerics<T>)
    : Result<(Matrix<T>, Matrix<T>), NormalizeError>
  {
    match ScalerKindOf(name)
    case None => Err(InvalidMethod(name))
    case Some(kind) =>
      if !ScalerAccepts(xTrain, xTest) then Err(ScalerRejects)
      else
        var scaler := num.fitScaler(kind, xTrain);
        Ok((scaler(xTrain), scaler(xTest)))
  }

  /**
   * The scaler is fitted on the train matrix only: the normalised train
   * matrix does not depend on the test matrix, and two test matrices go
   * through the same fitted scaler.
   */
  lemma NormalizeFitsOnTrainOnly<T>(xTrain: Matrix<T>, xTest1: Matrix<T>, xTest2: Matrix<T>, name: string, num: Numerics<T>)
    requires NormalizeSpec(xTrain, xTest1, name, num).Ok? && NormalizeSpec(xTrain, xTest2, name, num).Ok?
    ensures NormalizeSpec(xTrain, xTest1, name, num).value.0 == NormalizeSpec(xTrain, xTest2, name, num).value.0
    ensures xTest1 == xTest2 ==> NormalizeSpec(xTrain, xTest1, name, num).value.1 == NormalizeSpec(xTrain, xTest2, name, num).value.1
    ensures var f := num.fitScaler(ScalerKindOf(name).value, xTrain);
      NormalizeSpec(xTrain, xTest1, name, num).value == (f(xTrain), f(xTest1))
  {
  }

  /** An unknown method name raises before any scaler is built; a known one never reports it. */
  lemma NormalizeMethodErrors<T>(xTrain: Matrix<T>, xTest: Matrix<T>, name: string, num: Numerics<T>)
    ensures NormalizeSpec(xTrain, xTest, name, num) == Err(InvalidMethod(name)) <==> name != "standard" && name != "minmax"
    ensures NormalizeSpec(xTrain, xTest, name, num).Ok? <==> (name == "standard" || name == "minmax") && ScalerAccepts(xTrain, xTest)
  {
  }

  // ---------------------------------------------------------------------------
  // The load pipeline as a value
  // ---------------------------------------------------------------------------

  /**
   * The outcome of one load: the bundle or `None`, whether a scaler was
   * assigned to the loader (a `StandardScaler`), and whether it was fitted.
   */
  datatype Assembled<T> = Assembled(outcome: Option<Bundle<T>>, scalerAssigned: bool, scalerFitted: bool)

  /** The key a bundle is cached under: `f"{problem_name}_{fold_config}_{fold_index}"`. */
  function CacheKey(problemName: string, foldConfig: string, foldIndex: int): string
  {
    problemName + "_" + foldConfig + "_" + Text.IntToString(foldIndex)
  }

  /** The key is the three parts joined by underscores. */
  lemma CacheKeyJoins(problemName: string, foldConfig: string, foldIndex: int)
    ensures CacheKey(problemName, foldConfig, foldIndex) == Text.Join([problemName, foldConfig, Text.IntToString(foldIndex)], '_')
  {
    var parts := [problemName, foldConfig, Text.IntToString(foldIndex)];
    assert parts[1..][1..] == [Text.IntToString(foldIndex)];
    assert Text.Join(parts[1..], '_') == foldConfig + "_" + Text.IntToString(foldIndex);
  }

  /**
   * From the four instance lists to the bundle: concatenate, normalise with
   * the default method when asked, split train into train and validation.
   */
  function Assemble<T>(parts: ThreeW.Split<T>, problemName: string, foldConfig: string, foldIndex: int,
                       normalize: bool, testSize: real, num: Numerics<T>): Assembled<T>
  {
    var xTrain := ConcatMatrices(parts.xTrain);
    var yTrain := ConcatVectors(parts.yTrain);
    var xTest := ConcatMatrices(parts.xTest);
    var yTest := ConcatVectors(parts.yTest);
    if xTrain.None? || yTrain.None? || xTest.None? || yTest.None? then Assembled(None, false, false)
    else
      var normalized := if normalize then NormalizeSpec(xTrain.value, xTest.value, "standard", num)
                        else Ok((xTrain.value, xTest.value));
      if normalized.Err? then Assembled(None, true, false)
      else
        var (xTrainN, xTestN) := normalized.value;
        match num.split(xTrainN, yTrain.value, testSize)
        case None => Assembled(None, normalize, normalize)
        case Some(p) =>
          var bundle := Bundle(p.xTrain, p.yTrain, p.xVal, p.yVal, xTestN, yTest.value,
                               problemName, foldConfig, foldIndex, normalize);
          Assembled(Some(bundle), normalize, normalize)
  }

  /** `load_threew_problem` without its cache write: the guard, the instance load, then `Assemble`. */
  function LoadSpec<T>(useThreew: bool, slot: DatasetSlot, env: ThreeW.Env, problemName: string, foldConfig: string,
                       foldIndex: int, normalize: bool, testSize: real, num: Numerics<T>): Assembled<T>
    requires ThreeW.ReaderWellFormed(num.read)
  {
    if !useThreew || slot.NoDataset? then Assembled(None, false, false)
    else
      match ThreeW.LoadInstancesSpec(env, foldConfig, foldIndex, num.read)
      case None => Assembled(None, false, false)
      case Some(parts) => Assemble(parts, problemName, foldConfig, foldIndex, normalize, testSize, num)
  }

  /**
   * A returned bundle echoes the problem, fold configuration and fold index,
   * has `normalized == normalize`, and its test arrays are the concatenated
   * test instances (normalised by a scaler fitted on the concatenated train
   * instances when asked); a scaler is fitted exactly when a normalised
   * bundle comes back or the split after normalising fails.
   */
  lemma BundleFields<T>(useThreew: bool, slot: DatasetSlot, env: ThreeW.Env, problemName: string, foldConfig: string,
                        foldIndex: int, normalize: bool, testSize: real, num: Numerics<T>)
    requires ThreeW.ReaderWellFormed(num.read)
    requires LoadSpec(useThreew, slot, env, problemName, foldConfig, foldIndex, normalize, testSize, num).outcome.Some?
    ensures var a := LoadSpec(useThreew, slot, env, problemName, foldConfig, foldIndex, normalize, testSize, num);
      var b := a.outcome.value;
      var parts := ThreeW.LoadInstancesSpec(env, foldConfig, foldIndex, num.read);
      useThreew && !slot.NoDataset? && parts.Some?
      && b.problemName == problemName && b.foldConfig == foldConfig && b.foldIndex == foldIndex
      && b.normalized == normalize && a.scalerFitted == normalize && a.scalerAssigned == normalize
      && var xTrain := ConcatMatrices(parts.value.xTrain).value;
         var xTest := ConcatMatrices(parts.value.xTest).value;
         b.yTest == Flatten(parts.value.yTest)
         && b.xTest == (if normalize then num.fitScaler(Standard, xTrain)(xTest) else xTest)
  {
  }

  /**
   * `None` comes back, with no scaler touched, when the loader has no
   * dataset, when instance loading fails, or when a list of instances is
   * empty or mixes widths (`np.concatenate` raises).
   */
  lemma LoadNoneCases<T>(useThreew: bool, slot: DatasetSlot, env: ThreeW.Env, problemName: string, foldConfig: string,
                         foldIndex: int, normalize: bool, testSize: real, num: Numerics<T>)
    requires ThreeW.ReaderWellFormed(num.read)
    ensures var a := LoadSpec(useThreew, slot, env, problemName, foldConfig, foldIndex, normalize, testSize, num);
      var parts := ThreeW.LoadInstancesSpec(env, foldConfig, foldIndex, num.read);
      (!useThreew || slot.NoDataset? || parts.None?
       || ConcatMatrices(parts.value.xTrain).None? || ConcatMatrices(parts.value.xTest).None?
       || parts.value.yTrain == [] || parts.value.yTest == [])
      ==> a == Assembled(None, false, false)
  {
  }

  /** With the instance reader the package ships, every load returns `None` and no scaler is touched. */
  lemma ShippedReaderNeverLoads<T>(useThreew: bool, slot: DatasetSlot, env: ThreeW.Env, problemName: string, foldConfig: string,
                                   foldIndex: int, normalize: bool, testSize: real, num: Numerics<T>)
    requires forall p :: num.read(p) == ThreeW.LoadInstances<T>(p)
    ensures ThreeW.ReaderWellFormed(num.read)
    ensures LoadSpec(useThreew, slot, env, problemName, foldConfig, foldIndex, normalize, testSize, num)
      == Assembled(None, false, false)
  {
    var parts := ThreeW.LoadInstancesSpec(env, foldConfig, foldIndex, num.read);
    if parts.Some? {
      assert parts.value.xTrain == [];
    }
  }

  /** Two different loads can share a cache key: an underscore in a name is ambiguous. */
  lemma CacheKeyCollision()
    ensures CacheKey("a_b", "c", 0) == CacheKey("a", "b_c", 0)
  {
  }

  /** Without underscores in the problem and fold names, the key determines the load it came from. */
  lemma CacheKeyInjective(p1: string, f1: string, i1: int, p2: string, f2: string, i2: int)
    requires '_' !in p1 && '_' !in f1 && '_' !in p2 && '_' !in f2
    requires CacheKey(p1, f1, i1) == CacheKey(p2, f2, i2)
    ensures p1 == p2 && f1 == f2 && i1 == i2
  {
    var s1 := KeyParts(p1, f1, i1);
    var s2 := KeyParts(p2, f2, i2);
    assert s1[2] == s2[2];
    Text.IntToStringInjective(i1, i2);
  }

  /** Splitting the key at its underscores recovers the three parts. */
  function KeyParts(problemName: string, foldConfig: string, foldIndex: int): (parts: seq<string>)
    requires '_' !in problemName && '_' !in foldConfig
    ensures parts == Text.Split(CacheKey(problemName, foldConfig, foldIndex), '_')
    ensures parts == [problemName, foldConfig, Text.IntToString(foldIndex)]
  {
    var parts := [problemName, foldConfig, Text.IntToString(foldIndex)];
    Text.IntToStringNoUnderscore(foldIndex);
    CacheKeyJoins(problemName, foldConfig, foldIndex);
    Text.JoinSplit(parts, '_');
    parts
  }

  // ---------------------------------------------------------------------------
  // The dataset attribute
  // ---------------------------------------------------------------------------

  /**
   * The `threew_dataset` attribute: never assigned, `None`, or a constructed
   * dataset.
   */
  datatype DatasetSlot = Unset | NoDataset | Present(dataset: ThreeW.Dataset)

  datatype AttributeError = AttributeMissing

  /**
   * The constructor's choice of `use_threew` and `threew_dataset`: with 3W
   * wanted and available the dataset is built; when that raises,
   * `use_threew` is cleared and the attribute is left unassigned.
   */
  function InitialSlot(env: ThreeW.Env, useThreew: bool): (r: (bool, DatasetSlot))
    ensures r.0 <==> useThreew && ThreeW.NewDataset(env, None).Ok?
    ensures r.0 <==> r.1.Present?
    ensures r.1.Unset? <==> useThreew && ThreeW.Available(env) && ThreeW.NewDataset(env, None).Err?
  {
    if useThreew && ThreeW.Available(env) then
      match ThreeW.NewDataset(env, None)
      case Ok(d) => (true, Present(d))
      case Err(_) => (false, Unset)
    else (false, NoDataset)
  }

  /** The constructor as evidently intended: a failed construction leaves `threew_dataset = None`. */
  function InitialSlotFixed(env: ThreeW.Env, useThreew: bool): (r: (bool, DatasetSlot))
    ensures !r.1.Unset?
    ensures r.0 == InitialSlot(env, useThreew).0
    ensures InitialSlot(env, useThreew).1.Unset? ==> r.1 == NoDataset
    ensures !InitialSlot(env, useThreew).1.Unset? ==> r == InitialSlot(env, useThreew)
  {
    var (use, slot) := InitialSlot(env, useThreew);
    (use, if slot.Unset? then NoDataset else slot)
  }

  /** `list_available_problems`: reading an unassigned attribute raises. */
  function ListingSpec(slot: DatasetSlot, env: ThreeW.Env): Result<seq<string>, AttributeError>
  {
    match slot
    case Unset => Err(AttributeMissing)
    case NoDataset => Ok([])
    case Present(_) =>
      if env.problemsListing.None? then Ok([]) else Ok(ThreeW.ProblemNames(env.problemsListing.value))
  }

  /** `get_problem_info`: the same attribute test, then `load_problem_config`. */
  function ProblemInfoSpec(slot: DatasetSlot, env: ThreeW.Env, problemName: string): Result<Option<ThreeW.ProblemConfig>, AttributeError>
  {
    match slot
    case Unset => Err(AttributeMissing)
    case NoDataset => Ok(None)
    case Present(_) => Ok(ThreeW.LoadProblemConfig(env, problemName))
  }

  /**
   * As written, an environment whose toolkit imports but whose dataset
   * directory is missing leaves the attribute unassigned, and listing the
   * problems then raises `AttributeError` instead of returning `[]`.
   */
  lemma FailedInitBreaksListing()
    ensures var env := ThreeW.Env(Some(ThreeW.Toolkit("1.0", "/data/3W", "/data/3W/folds")), {}, None, map[], map[]);
      InitialSlot(env, true) == (false, Unset)
      && ListingSpec(InitialSlot(env, true).1, env) == Err(AttributeMissing)
      && ProblemInfoSpec(InitialSlot(env, true).1, env, "p") == Err(AttributeMissing)
  {
    var env := ThreeW.Env(Some(ThreeW.Toolkit("1.0", "/data/3W", "/data/3W/folds")), {}, None, map[], map[]);
    assert ThreeW.NewDataset(env, None) == Err(ThreeW.DatasetMissing("/data/3W"));
  }

  /**
   * With the corrected constructor the documented behaviour holds: without a
   * dataset object the listing is `[]` and problem information is `None`.
   */
  lemma FixedInitListsWithoutRaising(env: ThreeW.Env, useThreew: bool, problemName: string)
    ensures var slot := InitialSlotFixed(env, useThreew).1;
      ListingSpec(slot, env).Ok? && ProblemInfoSpec(slot, env, problemName).Ok?
    ensures !InitialSlotFixed(env, useThreew).0 ==>
      ListingSpec(InitialSlotFixed(env, useThreew).1, env) == Ok([])
      && ProblemInfoSpec(InitialSlotFixed(env, useThreew).1, env, problemName) == Ok(None)
  {
  }

  /** `get_data_info` */
  datatype DataInfo = DataInfo(useThreew: bool, cacheEnabled: bool, cacheSize: nat, scalerFitted: bool, dataPath: Option<string>)

  // ---------------------------------------------------------------------------
  // The loader object
  // ---------------------------------------------------------------------------

  class TimeSeriesDataLoader<T> {
    const dataPath: Option<string>
    var useThreew: bool
    const cacheData: bool
    var threewDataset: DatasetSlot
    var cache: map<string, Bundle<T>>
    var scaler: Option<ScalerKind>
    var scalerFitted: bool

    /** Only a loader that uses 3W has a dataset. */
    ghost predicate Valid()
      reads this
    {
      useThreew <==> threewDataset.Present?
    }

    /**
     * `__init__`: an empty `data_path` counts as none; 3W is used only when
     * wanted and available, and only if the dataset can be built.
     */
    constructor(env: ThreeW.Env, dataPath: Option<string>, useThreew: bool, cacheData: bool)
      ensures Valid()
      ensures this.dataPath == (if dataPath.Some? && dataPath.value != [] then dataPath else None)
      ensures (this.useThreew, this.threewDataset) == InitialSlot(env, useThreew)
      ensures this.cacheData == cacheData
      ensures cache == map[] && scaler.None? && !scalerFitted
    {
      this.dataPath := if dataPath.Some? && dataPath.value != [] then dataPath else None;
      var use := useThreew && ThreeW.Available(env);
      this.useThreew := use;
      this.cacheData := cacheData;
      cache := map[];
      if use {
        var d := ThreeW.NewDataset(env, None);
        if d.Ok? {
          threewDataset := Present(d.value);
        } else {
          this.useThreew := false;
          threewDataset := Unset;
        }
      } else {
        threewDataset := NoDataset;
      }
      scaler := None;
      scalerFitted := false;
    }

    /**
     * `_normalize_data`: the scaler is assigned before it is fitted, so a
     * fit that raises leaves an unfitted scaler behind.
     */
    method NormalizeData(xTrain: Matrix<T>, xTest: Matrix<T>, name: string, num: Numerics<T>)
      returns (r: Result<(Matrix<T>, Matrix<T>), NormalizeError>)
      modifies this
      ensures r == NormalizeSpec(xTrain, xTest, name, num)
      ensures scaler == (if ScalerKindOf(name).Some? then ScalerKindOf(name) else old(scaler))
      ensures scalerFitted == (old(scalerFitted) || r.Ok?)
      ensures useThreew == old(useThreew) && threewDataset == old(threewDataset) && cache == old(cache)
    {
      if name == "standard" {
        scaler := Some(Standard);
      } else if name == "minmax" {
        scaler := Some(MinMax);
      } else {
        return Err(InvalidMethod(name));
      }
      if !ScalerAccepts(xTrain, xTest) {
        return Err(ScalerRejects);
      }
      var fitted := num.fitScaler(scaler.value, xTrain);
      var trainNormalized := fitted(xTrain);
      var testNormalized := fitted(xTest);
      scalerFitted := true;
      return Ok((trainNormalized, testNormalized));
    }

    /**
     * `load_threew_problem`: the load never reads the cache; a returned
     * bundle is stored under its key when caching is on, overwriting what
     * was there, and nothing else in the cache changes.
     */
    method LoadThreewProblem(env: ThreeW.Env, problemName: string, foldConfig: string, foldIndex: int,
                             normalize: bool, testSize: real, num: Numerics<T>)
      returns (r: Option<Bundle<T>>)
      requires Valid()
      requires ThreeW.ReaderWellFormed(num.read)
      modifies this
      ensures Valid()
      ensures useThreew == old(useThreew) && threewDataset == old(threewDataset)
      ensures var a := LoadSpec(old(useThreew), old(threewDataset), env, problemName, foldConfig, foldIndex, normalize, testSize, num);
        r == a.outcome
        && scaler == (if a.scalerAssigned then Some(Standard) else old(scaler))
        && scalerFitted == (old(scalerFitted) || a.scalerFitted)
      ensures cache == (if r.Some? && cacheData then old(cache)[CacheKey(problemName, foldConfig, foldIndex) := r.value] else old(cache))
    {
      if !useThreew || threewDataset.NoDataset? {
        return None;
      }
      var loaded := ThreeW.LoadInstancesForProblem(env, foldConfig, foldIndex, num.read);
      if loaded.None? {
        return None;
      }
      var parts := loaded.value;
      var xTrain := ConcatMatrices(parts.xTrain);
      var yTrain := ConcatVectors(parts.yTrain);
      var xTest := ConcatMatrices(parts.xTest);
      var yTest := ConcatVectors(parts.yTest);
      if xTrain.None? || yTrain.None? || xTest.None? || yTest.None? {
        return None;
      }
      var xTrainN, xTestN := xTrain.value, xTest.value;
      if normalize {
        var n := NormalizeData(xTrain.value, xTest.value, "standard", num);
        if n.Err? {
          return None;
        }
        xTrainN, xTestN := n.value.0, n.value.1;
      }
      var split := num.split(xTrainN, yTrain.value, testSize);
      if split.None? {
        return None;
      }
      var p := split.value;
      var bundle := Bundle(p.xTrain, p.yTrain, p.xVal, p.yVal, xTestN, yTest.value,
                           problemName, foldConfig, foldIndex, normalize);
      if cacheData {
        cache := cache[CacheKey(problemName, foldConfig, foldIndex) := bundle];
      }
      return Some(bundle);
    }

    /** `get_cached_data`: the stored bundle, or `None` for an absent key. */
    function GetCachedData(key: string): (r: Option<Bundle<T>>)
      reads this
      ensures r.Some? <==> key in cache
      ensures r.Some? ==> r.value == cache[key]
    {
      if key in cache then Some(cache[key]) else None
    }

    /** `clear_cache` */
    method ClearCache()
      modifies this
      ensures cache == map[]
      ensures useThreew == old(useThreew) && threewDataset == old(threewDataset)
      ensures scaler == old(scaler) && scalerFitted == old(scalerFitted)
    {
      cache := map[];
    }

    /** `get_data_info`: `cache_size` counts the cached bundles. */
    function GetDataInfo(): (info: DataInfo)
      reads this
      ensures info.cacheSize == |cache| && info.scalerFitted == scalerFitted
      ensures info.useThreew == useThreew && info.cacheEnabled == cacheData && info.dataPath == dataPath
    {
      DataInfo(useThreew, cacheData, |cache|, scalerFitted, dataPath)
    }

    /** `list_available_problems` */
    method ListAvailableProblems(env: ThreeW.Env) returns (r: Result<seq<string>, AttributeError>)
      ensures r == ListingSpec(threewDataset, env)
    {
      match threewDataset
      case Unset =>
        return Err(AttributeMissing);
      case NoDataset =>
        return Ok([]);
      case Present(_) =>
        var problems := ThreeW.ListAvailableProblems(env);
        return Ok(problems);
    }

    /** `get_problem_info` */
    function GetProblemInfo(env: ThreeW.Env, problemName: string): (r: Result<Option<ThreeW.ProblemConfig>, AttributeError>)
      reads this
      ensures r == ProblemInfoSpec(threewDataset, env, problemName)
    {
      match threewDataset
      case Unset => Err(AttributeMissing)
      case NoDataset => Ok(None)
      case Present(_) => Ok(ThreeW.LoadProblemConfig(env, problemName))
    }
  }

  /** A loaded bundle can be read back from the cache under its key until the next write or clear. */
  lemma CachedBundleReadable<T>(cache: map<string, Bundle<T>>, problemName: string, foldConfig: string, foldIndex: int, b: Bundle<T>)
    ensures var c := cache[CacheKey(problemName, foldConfig, foldIndex) := b];
      CacheKey(problemName, foldConfig, foldIndex) in c && c[CacheKey(problemName, foldConfig, foldIndex)] == b
      && |c| == (if CacheKey(problemName, foldConfig, foldIndex) in cache then |cache| else |cache| + 1)
  {
  }
}
