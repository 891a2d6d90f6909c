/**
 * The feature pipeline of the preprocessing package (`TimeSeriesPreprocessor`):
 * an optional imputer, a scaler, an optional feature selector and an optional
 * PCA projection, fitted by `fit`, applied in that order by `transform` and
 * partly undone by `inverse_transform`.
 *
 * The numeric work of each stage happens inside the machine-learning library
 * and is kept opaque: a fitted stage is known by the number of columns it
 * accepts and the number it produces, by whether it tolerates missing values,
 * and, for a selector, by the columns it keeps. Data are known by their shape
 * and by whether any value is missing.
 */
module Preprocessing {
  import opened Wrappers
  import Text

  /** The constructor arguments; the defaults are "mean", "robust", "mutual_info" and no counts. */
  datatype Config = Config(
    imputationStrategy: string,
    scalingMethod: string,
    selectionMethod: string,
    nFeatures: Option<int>,
    pcaComponents: Option<int>)

  function DefaultConfig(): Config
  {
    Config("mean", "robust", "mutual_info", None, None)
  }

  /** Python truthiness of an optional count: `None` and `0` are false. */
  predicate Truthy(k: Option<int>)
  {
    k.Some? && k.value != 0
  }

  datatype Step = ImputeStep | ScaleStep | SelectStep | ProjectStep

  /**
   * A stage object as the preprocessor holds it (which stage it is follows from
   * the field that holds it). `fitted` is false when the
   * object was created but its `fit` raised; the widths are then those of the
   * data it was given.
   */
  datatype Stage = Stage(inWidth: nat, outWidth: nat, support: seq<bool>, acceptsMissing: bool, fitted: bool)

  datatype PipeError =
    | NotFitted                                  // the preprocessor's own check
    | InvalidScaling(name: string)             // unknown scaling method name
    | InvalidSelection(name: string)           // unknown selection method name
    | Rejected(step: Step)                       // the library refuses a parameter or the data
    | MissingValues(step: Step)                  // the library refuses data with missing values
    | WidthMismatch(step: Step, expected: nat, got: nat)
    | StageNotFitted(step: Step)                 // a stage object whose fit had raised
    | IndexError                                 // a selected column past the end of the name list
    | AttributeMissing                           // a PCA object without its fitted attributes

  /** A 2-D input array: `width` columns, each cell a value or missing (`NaN`). */
  datatype Table<T> = Table(width: nat, cells: seq<seq<Option<T>>>)

  predicate Rectangular<T>(x: Table<T>)
  {
    forall r :: 0 <= r < |x.cells| ==> |x.cells[r]| == x.width
  }

  /** What the opaque stages see of an array: its shape and whether a value is missing. */
  datatype Shape = Shape(rows: nat, width: nat, missing: bool)

  predicate HasMissing<T>(x: Table<T>)
  {
    exists r, c | 0 <= r < |x.cells| && 0 <= c < |x.cells[r]| :: x.cells[r][c].None?
  }

  function ShapeOf<T>(x: Table<T>): Shape
  {
    Shape(|x.cells|, x.width, HasMissing(x))
  }

  function CountTrue(s: seq<bool>): (n: nat)
    ensures n <= |s|
  {
    if s == [] then 0 else CountTrue(s[..|s| - 1]) + (if s[|s| - 1] then 1 else 0)
  }

  /** A column with no value at all; the imputer drops these unless its strategy is "constant". */
  predicate EmptyColumn<T>(x: Table<T>, c: int)
  {
    forall r | 0 <= r < |x.cells| :: 0 <= c < |x.cells[r]| ==> x.cells[r][c].None?
  }

  function ImputedWidth<T>(cfg: Config, x: Table<T>): nat
  {
    var empty := seq(x.width, c => EmptyColumn(x, c));
    if cfg.imputationStrategy == "constant" then x.width else x.width - CountTrue(empty)
  }

  predicate ValidImputation(strategy: string)
  {
    strategy == "mean" || strategy == "median" || strategy == "most_frequent" || strategy == "constant"
  }

  predicate ValidScaling(name: string)
  {
    name == "standard" || name == "minmax" || name == "robust"
  }

  predicate KBestMethod(name: string)
  {
    name == "mutual_info" || name == "f_classif"
  }

  /** The stage fields and the fitted flag of a preprocessor. */
  datatype State = State(imputer: Option<Stage>, scaler: Option<Stage>, selector: Option<Stage>, pca: Option<Stage>, isFitted: bool)

  function InitialState(): State
  {
    State(None, None, None, None, false)
  }

  /** The state a fit leaves behind, and the exception it raised, if any. */
  datatype FitOutcome = FitOutcome(state: State, error: Option<PipeError>)

  /** `n_features and n_features < X.shape[1]` */
  predicate SelectorWanted(cfg: Config, width: nat)
  {
    Truthy(cfg.nFeatures) && cfg.nFeatures.value < width
  }

  /** `pca_components and pca_components < X.shape[1]` */
  predicate PcaWanted(cfg: Config, width: nat)
  {
    Truthy(cfg.pcaComponents) && cfg.pcaComponents.value < width
  }

  /** `_fit_imputer`: only data with a missing value get an imputer. */
  function FitImputerSpec(cfg: Config, s: State, input: Shape, imputedWidth: nat): FitOutcome
  {
    if !input.missing then FitOutcome(s, None)
    else if ValidImputation(cfg.imputationStrategy) then
      FitOutcome(s.(imputer := Some(Stage(input.width, imputedWidth, [], true, true))), None)
    else
      FitOutcome(s.(imputer := Some(Stage(input.width, input.width, [], true, false))), Some(Rejected(ImputeStep)))
  }

  /** `_fit_scaler`: an unknown method raises before the field is touched; empty data are refused by the library. */
  function FitScalerSpec(cfg: Config, s: State, input: Shape): FitOutcome
  {
    if !ValidScaling(cfg.scalingMethod) then FitOutcome(s, Some(InvalidScaling(cfg.scalingMethod)))
    else if input.rows == 0 || input.width == 0 then
      FitOutcome(s.(scaler := Some(Stage(input.width, input.width, [], true, false))), Some(Rejected(ScaleStep)))
    else
      FitOutcome(s.(scaler := Some(Stage(input.width, input.width, [], true, true))), None)
  }

  /**
   * `_fit_feature_selector`: without labels a variance-threshold selector,
   * whatever the configured method; with labels SelectKBest for the two known
   * scoring methods; any other method raises before the field is touched.
   */
  function FitSelectorSpec(cfg: Config, s: State, input: Shape, labelCount: Option<nat>, support: seq<bool>): FitOutcome
    requires SelectorWanted(cfg, input.width)
  {
    var k := cfg.nFeatures.value;
    if labelCount.None? then
      var kept := CountTrue(support);
      var st := Stage(input.width, kept, support, true, kept > 0);
      FitOutcome(s.(selector := Some(st)), if kept > 0 then None else Some(Rejected(SelectStep)))
    else if !KBestMethod(cfg.selectionMethod) then
      FitOutcome(s, Some(InvalidSelection(cfg.selectionMethod)))
    else if k < 0 then
      FitOutcome(s.(selector := Some(Stage(input.width, input.width, support, false, false))), Some(Rejected(SelectStep)))
    else if input.missing then
      FitOutcome(s.(selector := Some(Stage(input.width, k, support, false, false))), Some(MissingValues(SelectStep)))
    else if labelCount.value != input.rows then
      FitOutcome(s.(selector := Some(Stage(input.width, k, support, false, false))), Some(Rejected(SelectStep)))
    else
      FitOutcome(s.(selector := Some(Stage(input.width, k, support, false, true))), None)
  }

  /** `_fit_pca`: the library refuses a negative count, missing values, and more components than rows. */
  function FitPcaSpec(cfg: Config, s: State, input: Shape): FitOutcome
    requires PcaWanted(cfg, input.width)
  {
    var p := cfg.pcaComponents.value;
    if p < 0 then
      FitOutcome(s.(pca := Some(Stage(input.width, input.width, [], false, false))), Some(Rejected(ProjectStep)))
    else if input.missing then
      FitOutcome(s.(pca := Some(Stage(input.width, p, [], false, false))), Some(MissingValues(ProjectStep)))
    else if p > input.rows then
      FitOutcome(s.(pca := Some(Stage(input.width, p, [], false, false))), Some(Rejected(ProjectStep)))
    else
      FitOutcome(s.(pca := Some(Stage(input.width, p, [], false, true))), None)
  }

  /**
   * `fit` as written: every stage is fitted on the raw input, the first
   * exception stops the fit and leaves the fields it already changed, and the
   * fitted flag is raised only at the end.
   */
  function FitSpec<T>(cfg: Config, s: State, x: Table<T>, labelCount: Option<nat>, support: seq<bool>): FitOutcome
  {
    FitOnShape(cfg, s, ShapeOf(x), ImputedWidth(cfg, x), labelCount, support)
  }

  /** `fit` seen through the shape of its input and the width the imputer would keep. */
  function FitOnShape(cfg: Config, s: State, input: Shape, imputedWidth: nat, labelCount: Option<nat>, support: seq<bool>): FitOutcome
  {
    var o1 := FitImputerSpec(cfg, s, input, imputedWidth);
    if o1.error.Some? then o1 else
    var o2 := FitScalerSpec(cfg, o1.state, input);
    if o2.error.Some? then o2 else
    var o3 := if SelectorWanted(cfg, input.width) then FitSelectorSpec(cfg, o2.state, input, labelCount, support) else o2;
    if o3.error.Some? then o3 else
    var o4 := if PcaWanted(cfg, input.width) then FitPcaSpec(cfg, o3.state, input) else o3;
    if o4.error.Some? then o4 else
    FitOutcome(o4.state.(isFitted := true), None)
  }

  /** The result of `transform` or `inverse_transform`: the output shape and the stages applied, in order. */
  datatype Applied = Applied(shape: Shape, trace: seq<Step>)

  /** One stage's `transform`: the library checks that it is fitted, then missing values, then the width. */
  function ApplyStage(step: Step, st: Stage, input: Shape): Result<Shape, PipeError>
  {
    if !st.fitted then Err(StageNotFitted(step))
    else if input.missing && !st.acceptsMissing then Err(MissingValues(step))
    else if input.width != st.inWidth then Err(WidthMismatch(step, st.inWidth, input.width))
    else Ok(Shape(input.rows, st.outWidth, input.missing && step != ImputeStep))
  }

  /** `if stage: X = stage.transform(X)` */
  function ApplyIfPresent(step: Step, st: Option<Stage>, a: Result<Applied, PipeError>): Result<Applied, PipeError>
  {
    if a.Err? || st.None? then a
    else
      match ApplyStage(step, st.value, a.value.shape)
      case Ok(out) => Ok(Applied(out, a.value.trace + [step]))
      case Err(e) => Err(e)
  }

  function TransformSpec(s: State, input: Shape): Result<Applied, PipeError>
  {
    if !s.isFitted then Err(NotFitted)
    else ApplyIfPresent(ProjectStep, s.pca,
           ApplyIfPresent(SelectStep, s.selector,
             ApplyIfPresent(ScaleStep, s.scaler,
               ApplyIfPresent(ImputeStep, s.imputer, Ok(Applied(input, []))))))
  }

  /**
   * One stage's `inverse_transform`: from its output width back to its input
   * width. A scaler's inverse checks no column count; it scales by its
   * per-column factors with NumPy broadcasting, so a scaler fitted on one
   * column spreads over input of any (positive) width and keeps it.
   */
  function InvertStage(step: Step, st: Stage, input: Shape): Result<Shape, PipeError>
  {
    if !st.fitted then Err(StageNotFitted(step))
    else if input.width == st.outWidth then Ok(Shape(input.rows, st.inWidth, input.missing))
    else if step == ScaleStep && st.outWidth == 1 && input.width >= 1 then Ok(input)
    else Err(WidthMismatch(step, st.outWidth, input.width))
  }

  function InvertIfPresent(step: Step, st: Option<Stage>, a: Result<Applied, PipeError>): Result<Applied, PipeError>
  {
    if a.Err? || st.None? then a
    else
      match InvertStage(step, st.value, a.value.shape)
      case Ok(out) => Ok(Applied(out, a.value.trace + [step]))
      case Err(e) => Err(e)
  }

  function InverseSpec(s: State, input: Shape): Result<Applied, PipeError>
  {
    if !s.isFitted then Err(NotFitted)
    else InvertIfPresent(ScaleStep, s.scaler, InvertIfPresent(ProjectStep, s.pca, Ok(Applied(input, []))))
  }

  /**
   * Without a projection, the scaler's inverse accepts input of its own width,
   * or of any positive width when it was fitted on one column (broadcasting);
   * any other width is a mismatch.
   */
  lemma InverseScalerWidths(s: State, input: Shape)
    requires s.isFitted && s.pca.None? && s.scaler.Some? && s.scaler.value.fitted
    ensures var st := s.scaler.value; var r := InverseSpec(s, input);
      (r.Ok? <==> input.width == st.outWidth || (st.outWidth == 1 && input.width >= 1))
      && (input.width == st.outWidth ==> r == Ok(Applied(Shape(input.rows, st.inWidth, input.missing), [ScaleStep])))
      && (input.width != st.outWidth && st.outWidth == 1 && input.width >= 1 ==> r == Ok(Applied(input, [ScaleStep])))
      && (!r.Ok? ==> r == Err(WidthMismatch(ScaleStep, st.outWidth, input.width)))
  {
    var empty: seq<Step> := [];
    assert empty + [ScaleStep] == [ScaleStep];
  }

  /** The steps of the present stages, in the order `transform` applies them. */
  function PresentSteps(s: State): seq<Step>
  {
    (if s.imputer.Some? then [ImputeStep] else [])
    + (if s.scaler.Some? then [ScaleStep] else [])
    + (if s.selector.Some? then [SelectStep] else [])
    + (if s.pca.Some? then [ProjectStep] else [])
  }

  /** Before any successful fit, `transform` and `inverse_transform` raise. */
  lemma UnfittedGate(s: State, input: Shape)
    requires !s.isFitted
    ensures TransformSpec(s, input) == Err(NotFitted)
    ensures InverseSpec(s, input) == Err(NotFitted)
  {
  }

  /**
   * A successful `transform` applied exactly the present stages, in the
   * order impute, scale, select, project; it fails only by raising.
   */
  lemma TransformOrder(s: State, input: Shape)
    requires TransformSpec(s, input).Ok?
    ensures TransformSpec(s, input).value.trace == PresentSteps(s)
    ensures s.isFitted
  {
    var a0: Result<Applied, PipeError> := Ok(Applied(input, []));
    var a1 := ApplyIfPresent(ImputeStep, s.imputer, a0);
    var a2 := ApplyIfPresent(ScaleStep, s.scaler, a1);
    var a3 := ApplyIfPresent(SelectStep, s.selector, a2);
    assert a3.Ok? && a2.Ok? && a1.Ok?;
  }

  /** `inverse_transform` undoes only the projection and then the scaling; selection and imputation are never undone. */
  lemma InverseOrder(s: State, input: Shape)
    requires InverseSpec(s, input).Ok?
    ensures InverseSpec(s, input).value.trace
      == (if s.pca.Some? then [ProjectStep] else []) + (if s.scaler.Some? then [ScaleStep] else [])
    ensures SelectStep !in InverseSpec(s, input).value.trace && ImputeStep !in InverseSpec(s, input).value.trace
  {
    var a1 := InvertIfPresent(ProjectStep, s.pca, Ok(Applied(input, [])));
    assert a1.Ok?;
  }

  /** A fit that raises leaves the fitted flag as it was; one that returns raises it. */
  lemma FitFlag<T>(cfg: Config, s: State, x: Table<T>, labelCount: Option<nat>, support: seq<bool>)
    ensures var o := FitSpec(cfg, s, x, labelCount, support);
      (o.error.Some? ==> o.state.isFitted == s.isFitted) && (o.error.None? ==> o.state.isFitted)
  {
  }

  /** Every stage present in `s` is still present in `t`. */
  predicate Keeps(s: State, t: State)
  {
    (s.imputer.Some? ==> t.imputer.Some?) && (s.scaler.Some? ==> t.scaler.Some?)
    && (s.selector.Some? ==> t.selector.Some?) && (s.pca.Some? ==> t.pca.Some?)
  }

  /**
   * What a fitting step may do to the stages of `s` to give `t`: keep every
   * stage present, and replace a stage only under its condition, with a stage
   * built for the raw input's width.
   */
  predicate Touches(cfg: Config, s: State, t: State, input: Shape)
  {
    Keeps(s, t)
    && (t.imputer != s.imputer ==> input.missing && t.imputer.value.inWidth == input.width)
    && (t.scaler != s.scaler ==> t.scaler.value.inWidth == input.width)
    && (t.selector != s.selector ==> SelectorWanted(cfg, input.width) && t.selector.value.inWidth == input.width)
    && (t.pca != s.pca ==> PcaWanted(cfg, input.width) && t.pca.value.inWidth == input.width)
  }

  /** Two steps that each touch only what they may together touch only what they may. */
  lemma TouchesChain(cfg: Config, s: State, t: State, u: State, input: Shape)
    requires Touches(cfg, s, t, input) && Touches(cfg, t, u, input)
    ensures Touches(cfg, s, u, input)
  {
  }

  lemma ImputerTouches(cfg: Config, s: State, input: Shape, imputedWidth: nat)
    ensures Touches(cfg, s, FitImputerSpec(cfg, s, input, imputedWidth).state, input)
  {
  }

  lemma ScalerTouches(cfg: Config, s: State, input: Shape)
    ensures Touches(cfg, s, FitScalerSpec(cfg, s, input).state, input)
  {
  }

  lemma SelectorTouches(cfg: Config, s: State, input: Shape, labelCount: Option<nat>, support: seq<bool>)
    requires SelectorWanted(cfg, input.width)
    ensures Touches(cfg, s, FitSelectorSpec(cfg, s, input, labelCount, support).state, input)
  {
  }

  lemma PcaTouches(cfg: Config, s: State, input: Shape)
    requires PcaWanted(cfg, input.width)
    ensures Touches(cfg, s, FitPcaSpec(cfg, s, input).state, input)
  {
  }

  /** The whole fit, stage by stage, touches only what each stage may. */
  lemma FitOnShapeTouches(cfg: Config, s: State, input: Shape, imputedWidth: nat, labelCount: Option<nat>, support: seq<bool>)
    ensures Touches(cfg, s, FitOnShape(cfg, s, input, imputedWidth, labelCount, support).state, input)
  {
    var o1 := FitImputerSpec(cfg, s, input, imputedWidth);
    ImputerTouches(cfg, s, input, imputedWidth);
    if o1.error.None? {
      var o2 := FitScalerSpec(cfg, o1.state, input);
      ScalerTouches(cfg, o1.state, input);
      TouchesChain(cfg, s, o1.state, o2.state, input);
      if o2.error.None? {
        var o3 := if SelectorWanted(cfg, input.width) then FitSelectorSpec(cfg, o2.state, input, labelCount, support) else o2;
        if SelectorWanted(cfg, input.width) {
          SelectorTouches(cfg, o2.state, input, labelCount, support);
          TouchesChain(cfg, s, o2.state, o3.state, input);
        }
        if o3.error.None? {
          var o4 := if PcaWanted(cfg, input.width) then FitPcaSpec(cfg, o3.state, input) else o3;
          if PcaWanted(cfg, input.width) {
            PcaTouches(cfg, o3.state, input);
            TouchesChain(cfg, s, o3.state, o4.state, input);
          }
          assert FitOnShape(cfg, s, input, imputedWidth, labelCount, support).state.imputer == o4.state.imputer;
        }
      }
    }
  }

  /** Nothing is cleared by a refit: a stage present before the fit is present after it, whatever happened. */
  lemma FitNeverClears<T>(cfg: Config, s: State, x: Table<T>, labelCount: Option<nat>, support: seq<bool>)
    ensures Keeps(s, FitSpec(cfg, s, x, labelCount, support).state)
  {
    FitOnShapeTouches(cfg, s, ShapeOf(x), ImputedWidth(cfg, x), labelCount, support);
  }

  /**
   * Which stages a fit touches: the imputer only on data with a missing value,
   * the selector only when `n_features` is set and below the column count, the
   * projection only when `pca_components` is set and below the column count;
   * and every stage it touches is built for the raw input's width.
   */
  lemma FitConditions<T>(cfg: Config, s: State, x: Table<T>, labelCount: Option<nat>, support: seq<bool>)
    ensures var o := FitSpec(cfg, s, x, labelCount, support);
      (o.state.imputer != s.imputer ==> HasMissing(x) && o.state.imputer.value.inWidth == x.width)
      && (o.state.scaler != s.scaler ==> o.state.scaler.value.inWidth == x.width)
      && (o.state.selector != s.selector ==> SelectorWanted(cfg, x.width) && o.state.selector.value.inWidth == x.width)
      && (o.state.pca != s.pca ==> PcaWanted(cfg, x.width) && o.state.pca.value.inWidth == x.width)
  {
    FitOnShapeTouches(cfg, s, ShapeOf(x), ImputedWidth(cfg, x), labelCount, support);
  }

  /** A successful fit always leaves a fitted scaler for the raw width. */
  lemma FitScales<T>(cfg: Config, s: State, x: Table<T>, labelCount: Option<nat>, support: seq<bool>)
    requires FitSpec(cfg, s, x, labelCount, support).error.None?
    ensures var st := FitSpec(cfg, s, x, labelCount, support).state.scaler;
      st.Some? && st.value.fitted && st.value.inWidth == st.value.outWidth == x.width
    ensures ValidScaling(cfg.scalingMethod) && |x.cells| > 0 && x.width > 0
  {
  }

  /** An unknown scaling method raises exactly when the imputer step went through, and leaves the scaler as it was. */
  lemma ScalingErrors<T>(cfg: Config, s: State, x: Table<T>, labelCount: Option<nat>, support: seq<bool>)
    requires FitImputerSpec(cfg, s, ShapeOf(x), ImputedWidth(cfg, x)).error.None?
    ensures var o := FitSpec(cfg, s, x, labelCount, support);
      (o.error == Some(InvalidScaling(cfg.scalingMethod)) <==> !ValidScaling(cfg.scalingMethod))
      && (!ValidScaling(cfg.scalingMethod) ==> o.state.scaler == s.scaler)
  {
  }

  /**
   * Selector choice: without labels the variance selector is fitted whatever
   * the configured method; with labels an unknown method raises and leaves the
   * selector as it was.
   */
  lemma SelectorChoice<T>(cfg: Config, s: State, x: Table<T>, labelCount: Option<nat>, support: seq<bool>)
    requires SelectorWanted(cfg, x.width)
    ensures var o := FitSelectorSpec(cfg, s, ShapeOf(x), labelCount, support);
      (labelCount.None? ==> o.state.selector.Some? && o.state.selector.value.acceptsMissing
                              && o.state.selector.value.support == support)
      && (labelCount.Some? && !KBestMethod(cfg.selectionMethod) ==>
            o.error == Some(InvalidSelection(cfg.selectionMethod)) && o.state == s)
      && (labelCount.Some? && KBestMethod(cfg.selectionMethod) && o.error.None? ==>
            o.state.selector.value.outWidth == cfg.nFeatures.value)
  {
  }

  /**
   * As written, a fit that builds both a SelectKBest selector and a PCA
   * projection fits the projection on the raw columns, so transforming the
   * very data just fitted reaches the projection with `k` columns where it
   * expects the original width, and raises.
   */
  lemma RawFitBreaksProjection<T>(cfg: Config, x: Table<T>, support: seq<bool>)
    requires !HasMissing(x) && ValidScaling(cfg.scalingMethod) && KBestMethod(cfg.selectionMethod)
    requires cfg.nFeatures.Some? && cfg.pcaComponents.Some?
    requires 0 < cfg.nFeatures.value < x.width
    requires 0 < cfg.pcaComponents.value < x.width && cfg.pcaComponents.value <= |x.cells|
    ensures var o := FitSpec(cfg, InitialState(), x, Some(|x.cells|), support);
      o.error.None? && TransformSpec(o.state, ShapeOf(x)) == Err(WidthMismatch(ProjectStep, x.width, cfg.nFeatures.value))
  {
  }

  /** The repository's own integration scenario: 100 rows of 10 values, 5 selected features, 3 components. */
  lemma IntegrationScenarioFails(support: seq<bool>)
    ensures var cfg := Config("mean", "robust", "mutual_info", Some(5), Some(3));
      var x: Table<int> := Table(10, seq(100, _ => seq(10, _ => Some(0))));
      var o := FitSpec(cfg, InitialState(), x, Some(100), support);
      o.error.None? && TransformSpec(o.state, ShapeOf(x)) == Err(WidthMismatch(ProjectStep, 10, 5))
  {
    var cfg := Config("mean", "robust", "mutual_info", Some(5), Some(3));
    var x: Table<int> := Table(10, seq(100, _ => seq(10, _ => Some(0))));
    assert !HasMissing(x);
    RawFitBreaksProjection(cfg, x, support);
  }

  /** The shape a stage field passes on when it was fitted on `input`. */
  function Passed(st: Option<Stage>, input: Shape, clearsMissing: bool): Shape
  {
    if st.None? then input
    else Shape(input.rows, st.value.outWidth, input.missing && !clearsMissing)
  }

  /**
   * The evidently intended fit: every stage is rebuilt from scratch and fitted
   * on the output of the stage before it, and the selection and projection
   * conditions compare against the width that stage will actually receive.
   */
  function FitChainedSpec<T>(cfg: Config, x: Table<T>, labelCount: Option<nat>, support: seq<bool>): FitOutcome
  {
    var input := ShapeOf(x);
    var o1 := FitImputerSpec(cfg, InitialState(), input, ImputedWidth(cfg, x));
    if o1.error.Some? then o1 else
    var sh1 := Passed(o1.state.imputer, input, true);
    var o2 := FitScalerSpec(cfg, o1.state, sh1);
    if o2.error.Some? then o2 else
    var o3 := if SelectorWanted(cfg, sh1.width) then FitSelectorSpec(cfg, o2.state, sh1, labelCount, support) else o2;
    if o3.error.Some? then o3 else
    var sh3 := Passed(o3.state.selector, sh1, false);
    var o4 := if PcaWanted(cfg, sh3.width) then FitPcaSpec(cfg, o3.state, sh3) else o3;
    if o4.error.Some? then o4 else
    FitOutcome(o4.state.(isFitted := true), None)
  }

  /** With chained fitting, a fit that succeeds can always transform the data it was fitted on. */
  lemma ChainedFitTransforms<T>(cfg: Config, x: Table<T>, labelCount: Option<nat>, support: seq<bool>)
    requires FitChainedSpec(cfg, x, labelCount, support).error.None?
    ensures var o := FitChainedSpec(cfg, x, labelCount, support);
      TransformSpec(o.state, ShapeOf(x)).Ok?
      && TransformSpec(o.state, ShapeOf(x)).value.trace == PresentSteps(o.state)
  {
    var o := FitChainedSpec(cfg, x, labelCount, support);
    TransformOrder(o.state, ShapeOf(x));
  }

  /** The positions of the kept columns, in increasing order. */
  function SelectedIndices(support: seq<bool>): (idx: seq<nat>)
    ensures |idx| == CountTrue(support)
    ensures forall j :: 0 <= j < |idx| ==> idx[j] < |support| && support[idx[j]]
    ensures forall j, k :: 0 <= j < k < |idx| ==> idx[j] < idx[k]
    ensures forall i :: 0 <= i < |support| && support[i] ==> i in idx
  {
    if support == [] then []
    else
      var n := |support| - 1;
      var rest := SelectedIndices(support[..n]);
      rest + (if support[n] then [n] else [])
  }

  /** `[features[i] for i, selected in enumerate(mask) if selected]`, which raises when a kept position is past the end. */
  function KeptNames(features: seq<string>, support: seq<bool>): Result<seq<string>, PipeError>
  {
    var idx := SelectedIndices(support);
    if forall j :: 0 <= j < |idx| ==> idx[j] < |features| then Ok(seq(|idx|, j requires 0 <= j < |idx| => features[idx[j]]))
    else Err(IndexError)
  }

  /** The kept names are found exactly when every kept position is a valid index into the name list. */
  lemma KeptNamesOk(features: seq<string>, support: seq<bool>)
    ensures KeptNames(features, support).Ok? <==> forall i :: 0 <= i < |support| && support[i] ==> i < |features|
    ensures KeptNames(features, support).Ok? ==> |KeptNames(features, support).value| == CountTrue(support)
  {
    var idx := SelectedIndices(support);
    if forall i :: 0 <= i < |support| && support[i] ==> i < |features| {
      assert forall j :: 0 <= j < |idx| ==> idx[j] < |features|;
    }
  }

  function DefaultNames(): seq<string>
  {
    seq(1000, i => "feature_" + Text.IntToString(i))
  }

  function ComponentNames(p: int): seq<string>
  {
    seq(Max(p, 0), i => "pca_component_" + Text.IntToString(i))
  }

  /**
   * `get_feature_names`: empty before a fit; otherwise the given names (or
   * `feature_0` … `feature_999` when none or an empty list are given),
   * narrowed by the selector's mask, then replaced wholesale by component
   * names when a projection is present.
   */
  function FeatureNames(cfg: Config, s: State, original: Option<seq<string>>): (r: Result<seq<string>, PipeError>)
    requires s.pca.Some? ==> cfg.pcaComponents.Some?
    ensures !s.isFitted ==> r == Ok([])
    ensures s.isFitted && s.selector.None? && s.pca.None? && original.Some? && original.value != [] ==> r == Ok(original.value)
  {
    if !s.isFitted then Ok([])
    else
      var base := if original.Some? && original.value != [] then original.value else DefaultNames();
      var selected :=
        if s.selector.None? then Ok(base)
        else if !s.selector.value.fitted then Err(StageNotFitted(SelectStep))
        else KeptNames(base, s.selector.value.support);
      if selected.Err? then selected
      else if s.pca.Some? then Ok(ComponentNames(cfg.pcaComponents.value))
      else selected
  }

  lemma PrefixedDistinct(prefix: string, i: int, j: int)
    requires prefix + Text.IntToString(i) == prefix + Text.IntToString(j)
    ensures i == j
  {
    var a, b := prefix + Text.IntToString(i), prefix + Text.IntToString(j);
    assert a[|prefix|..] == Text.IntToString(i);
    assert b[|prefix|..] == Text.IntToString(j);
    Text.IntToStringInjective(i, j);
  }

  /**
   * With no names given, or an empty list, a fitted preprocessor without
   * selector or projection names its columns `feature_0` … `feature_999`,
   * all different.
   */
  lemma DefaultFeatureNames(cfg: Config, s: State, original: Option<seq<string>>)
    requires s.isFitted && s.selector.None? && s.pca.None?
    requires original.None? || original.value == []
    ensures var r := FeatureNames(cfg, s, original);
      r.Ok? && |r.value| == 1000
      && (forall i :: 0 <= i < 1000 ==> r.value[i] == "feature_" + Text.IntToString(i))
      && (forall i, j :: 0 <= i < j < 1000 ==> r.value[i] != r.value[j])
  {
    var names := DefaultNames();
    assert FeatureNames(cfg, s, original) == Ok(names);
    forall i, j | 0 <= i < j < 1000 ensures names[i] != names[j] {
      if names[i] == names[j] {
        PrefixedDistinct("feature_", i, j);
      }
    }
  }

  /**
   * With a projection present the names are `pca_component_0` … one per
   * configured component, all different, whatever the selector chose (unless
   * the selector step raised first).
   */
  lemma ComponentNamesShape(cfg: Config, s: State, original: Option<seq<string>>)
    requires s.isFitted && s.pca.Some? && cfg.pcaComponents.Some?
    requires FeatureNames(cfg, s, original).Ok?
    ensures var r := FeatureNames(cfg, s, original).value;
      |r| == Max(cfg.pcaComponents.value, 0)
      && (forall i :: 0 <= i < |r| ==> r[i] == "pca_component_" + Text.IntToString(i))
      && (forall i, j :: 0 <= i < j < |r| ==> r[i] != r[j])
  {
    var r := FeatureNames(cfg, s, original).value;
    forall i, j | 0 <= i < j < |r|
      ensures r[i] != r[j]
    {
      if r[i] == r[j] {
        PrefixedDistinct("pca_component_", i, j);
      }
    }
  }

  /** Without a projection, a fitted selector narrows the names to those at its kept positions, in order. */
  lemma SelectedNamesShape(cfg: Config, s: State, original: Option<seq<string>>)
    requires s.isFitted && s.pca.None? && s.selector.Some? && s.selector.value.fitted
    requires original.Some? && original.value != []
    ensures var r := FeatureNames(cfg, s, original);
      var idx := SelectedIndices(s.selector.value.support);
      (r.Ok? <==> forall j :: 0 <= j < |idx| ==> idx[j] < |original.value|)
      && (r.Ok? ==> |r.value| == |idx| && forall j :: 0 <= j < |idx| ==> r.value[j] == original.value[idx[j]])
  {
    var idx := SelectedIndices(s.selector.value.support);
    assert FeatureNames(cfg, s, original) == KeptNames(original.value, s.selector.value.support);
    if forall j :: 0 <= j < |idx| ==> idx[j] < |original.value| {
      assert KeptNames(original.value, s.selector.value.support).Ok?;
    } else {
      assert KeptNames(original.value, s.selector.value.support) == Err(IndexError);
    }
  }

  /** The record `get_preprocessing_info` returns; `reportsVariance` is whether it carries the explained variance. */
  datatype Info = Info(
    isFitted: bool,
    imputationStrategy: string,
    scalingMethod: string,
    selectionMethod: string,
    nFeatures: Option<int>,
    pcaComponents: Option<int>,
    hasImputer: bool,
    hasScaler: bool,
    hasSelector: bool,
    hasPca: bool,
    reportsVariance: bool)

  /**
   * `get_preprocessing_info`: the configuration echoed and one presence flag
   * per stage; the explained variance is read from a present projection once
   * the preprocessor is fitted, which raises when that projection's own fit
   * had failed.
   */
  function InfoOf(cfg: Config, s: State): (r: Result<Info, PipeError>)
    ensures r.Ok? ==>
      r.value.hasImputer == s.imputer.Some? && r.value.hasScaler == s.scaler.Some?
      && r.value.hasSelector == s.selector.Some? && r.value.hasPca == s.pca.Some?
      && r.value.isFitted == s.isFitted && r.value.reportsVariance == (s.pca.Some? && s.isFitted)
    ensures r.Ok? ==>
      r.value.imputationStrategy == cfg.imputationStrategy && r.value.scalingMethod == cfg.scalingMethod
      && r.value.selectionMethod == cfg.selectionMethod && r.value.nFeatures == cfg.nFeatures
      && r.value.pcaComponents == cfg.pcaComponents
    ensures r.Err? <==> s.isFitted && s.pca.Some? && !s.pca.value.fitted
  {
    if s.pca.Some? && s.isFitted && !s.pca.value.fitted then Err(AttributeMissing)
    else
      Ok(Info(s.isFitted, cfg.imputationStrategy, cfg.scalingMethod, cfg.selectionMethod,
              cfg.nFeatures, cfg.pcaComponents,
              s.imputer.Some?, s.scaler.Some?, s.selector.Some?, s.pca.Some?,
              s.pca.Some? && s.isFitted))
  }

  /**
   * A refit that fails in the projection step leaves the preprocessor marked
   * fitted (from the earlier fit) but holding a projection that cannot
   * transform: every later `transform` raises.
   */
  lemma FailedRefitStrands<T>(cfg: Config, s: State, x: Table<T>, labelCount: Option<nat>, support: seq<bool>)
    requires s.isFitted
    requires var o := FitSpec(cfg, s, x, labelCount, support);
      o.error == Some(Rejected(ProjectStep)) || o.error == Some(MissingValues(ProjectStep))
    ensures var o := FitSpec(cfg, s, x, labelCount, support);
      o.state.isFitted && o.state.pca.Some? && !o.state.pca.value.fitted
      && forall input :: TransformSpec(o.state, input).Err?
  {
  }

  /** `y` as the selector sees it: absent, or a number of labels. */
  function LabelCount<L>(y: Option<seq<L>>): Option<nat>
  {
    if y.None? then None else Some(|y.value|)
  }

  /** The preprocessor object: the configuration is fixed, the stage fields and the flag change as it is fitted. */
  class TimeSeriesPreprocessor {
    const config: Config
    var imputer: Option<Stage>
    var scaler: Option<Stage>
    var featureSelector: Option<Stage>
    var pca: Option<Stage>
    var isFitted: bool

    function Current(): State
      reads this
    {
      State(imputer, scaler, featureSelector, pca, isFitted)
    }

    /** A projection is only ever built when a component count is configured. */
    ghost predicate Valid()
      reads this
    {
      pca.Some? ==> config.pcaComponents.Some?
    }

    constructor(config: Config)
      ensures this.config == config && Current() == InitialState() && Valid()
    {
      this.config := config;
      imputer := None;
      scaler := None;
      featureSelector := None;
      pca := None;
      isFitted := false;
    }

    method FitImputer<T>(x: Table<T>) returns (err: Option<PipeError>)
      modifies this
      ensures var o := FitImputerSpec(config, old(Current()), ShapeOf(x), ImputedWidth(config, x));
        Current() == o.state && err == o.error
    {
      err := None;
      if HasMissing(x) {
        if ValidImputation(config.imputationStrategy) {
          imputer := Some(Stage(x.width, ImputedWidth(config, x), [], true, true));
        } else {
          imputer := Some(Stage(x.width, x.width, [], true, false));
          err := Some(Rejected(ImputeStep));
        }
      }
    }

    method FitScaler<T>(x: Table<T>) returns (err: Option<PipeError>)
      modifies this
      ensures var o := FitScalerSpec(config, old(Current()), ShapeOf(x));
        Current() == o.state && err == o.error
    {
      if !ValidScaling(config.scalingMethod) {
        return Some(InvalidScaling(config.scalingMethod));
      }
      var ok := |x.cells| > 0 && x.width > 0;
      scaler := Some(Stage(x.width, x.width, [], true, ok));
      err := if ok then None else Some(Rejected(ScaleStep));
    }

    method FitFeatureSelector<T>(x: Table<T>, labelCount: Option<nat>, support: seq<bool>) returns (err: Option<PipeError>)
      requires SelectorWanted(config, x.width)
      modifies this
      ensures var o := FitSelectorSpec(config, old(Current()), ShapeOf(x), labelCount, support);
        Current() == o.state && err == o.error
    {
      var k := config.nFeatures.value;
      if labelCount.None? {
        var kept := CountTrue(support);
        featureSelector := Some(Stage(x.width, kept, support, true, kept > 0));
        return if kept > 0 then None else Some(Rejected(SelectStep));
      }
      if !KBestMethod(config.selectionMethod) {
        return Some(InvalidSelection(config.selectionMethod));
      }
      if k < 0 {
        featureSelector := Some(Stage(x.width, x.width, support, false, false));
        return Some(Rejected(SelectStep));
      }
      var ok := !HasMissing(x) && labelCount.value == |x.cells|;
      featureSelector := Some(Stage(x.width, k, support, false, ok));
      if HasMissing(x) {
        err := Some(MissingValues(SelectStep));
      } else if !ok {
        err := Some(Rejected(SelectStep));
      } else {
        err := None;
      }
    }

    method FitPca<T>(x: Table<T>) returns (err: Option<PipeError>)
      requires PcaWanted(config, x.width)
      modifies this
      ensures var o := FitPcaSpec(config, old(Current()), ShapeOf(x));
        Current() == o.state && err == o.error
    {
      var p := config.pcaComponents.value;
      if p < 0 {
        pca := Some(Stage(x.width, x.width, [], false, false));
        return Some(Rejected(ProjectStep));
      }
      var ok := !HasMissing(x) && p <= |x.cells|;
      pca := Some(Stage(x.width, p, [], false, ok));
      if HasMissing(x) {
        err := Some(MissingValues(ProjectStep));
      } else if !ok {
        err := Some(Rejected(ProjectStep));
      } else {
        err := None;
      }
    }

    /** `fit`: the stages in order on the raw input, stopping at the first exception; the flag is raised last. */
    method Fit<T, L>(x: Table<T>, y: Option<seq<L>>, support: seq<bool>) returns (err: Option<PipeError>)
      requires Valid()
      modifies this
      ensures var o := FitSpec(config, old(Current()), x, LabelCount(y), support);
        Current() == o.state && err == o.error
      ensures Valid()
    {
      err := FitImputer(x);
      if err.Some? {
        return;
      }
      err := FitScaler(x);
      if err.Some? {
        return;
      }
      if SelectorWanted(config, x.width) {
        err := FitFeatureSelector(x, LabelCount(y), support);
        if err.Some? {
          return;
        }
      }
      if PcaWanted(config, x.width) {
        err := FitPca(x);
        if err.Some? {
          return;
        }
      }
      isFitted := true;
    }

    /** `transform`: refuses before a fit, then passes the data through the present stages in the fixed order. */
    method Transform<T>(x: Table<T>) returns (r: Result<Applied, PipeError>)
      ensures r == TransformSpec(Current(), ShapeOf(x))
    {
      if !isFitted {
        return Err(NotFitted);
      }
      var shape := ShapeOf(x);
      var trace: seq<Step> := [];
      if imputer.Some? {
        var out := ApplyStage(ImputeStep, imputer.value, shape);
        if out.Err? {
          return Err(out.error);
        }
        shape, trace := out.value, trace + [ImputeStep];
      }
      if scaler.Some? {
        var out := ApplyStage(ScaleStep, scaler.value, shape);
        if out.Err? {
          return Err(out.error);
        }
        shape, trace := out.value, trace + [ScaleStep];
      }
      if featureSelector.Some? {
        var out := ApplyStage(SelectStep, featureSelector.value, shape);
        if out.Err? {
          return Err(out.error);
        }
        shape, trace := out.value, trace + [SelectStep];
      }
      if pca.Some? {
        var out := ApplyStage(ProjectStep, pca.value, shape);
        if out.Err? {
          return Err(out.error);
        }
        shape, trace := out.value, trace + [ProjectStep];
      }
      return Ok(Applied(shape, trace));
    }

    /** `fit_transform(X, y)` is `fit(X, y)` followed by `transform(X)`. */
    method FitTransform<T, L>(x: Table<T>, y: Option<seq<L>>, support: seq<bool>) returns (r: Result<Applied, PipeError>)
      requires Valid()
      modifies this
      ensures var o := FitSpec(config, old(Current()), x, LabelCount(y), support);
        Current() == o.state
        && r == (if o.error.Some? then Err(o.error.value) else TransformSpec(o.state, ShapeOf(x)))
      ensures Valid()
    {
      var err := Fit(x, y, support);
      if err.Some? {
        return Err(err.value);
      }
      r := Transform(x);
    }

    /** `inverse_transform`: refuses before a fit, then undoes the projection and the scaling when present. */
    method InverseTransform<T>(x: Table<T>) returns (r: Result<Applied, PipeError>)
      ensures r == InverseSpec(Current(), ShapeOf(x))
    {
      if !isFitted {
        return Err(NotFitted);
      }
      var shape := ShapeOf(x);
      var trace: seq<Step> := [];
      if pca.Some? {
        var out := InvertStage(ProjectStep, pca.value, shape);
        if out.Err? {
          return Err(out.error);
        }
        shape, trace := out.value, trace + [ProjectStep];
      }
      if scaler.Some? {
        var out := InvertStage(ScaleStep, scaler.value, shape);
        if out.Err? {
          return Err(out.error);
        }
        shape, trace := out.value, trace + [ScaleStep];
      }
      return Ok(Applied(shape, trace));
    }
  }
}
