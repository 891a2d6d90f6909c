/**
 * The sliding-window framer of the preprocessing package
 * (`RollingWindowPreprocessor.create_windows` and `flatten_windows`).
 *
 * A series is a sequence of rows; the framer pads it at both ends by repeating
 * the first and last rows, cuts windows of `windowSize` consecutive padded rows
 * every `stepSize` rows, and slices the label vector to match. Rows are kept
 * opaque (type parameter `R`) except by the flattening step, which needs them
 * to be sequences of features.
 */
module Windowing {
  import opened Wrappers

  /** The framer's settings; the defaults are a window of 100 rows, step 1, "same". */
  datatype WindowConfig = WindowConfig(windowSize: int, stepSize: int, padding: string)

  function DefaultWindowConfig(): WindowConfig
  {
    WindowConfig(100, 1, "same")
  }

  /** Why `create_windows` raises: numpy refuses to edge-pad an empty axis, or to allocate a negative count. */
  datatype FrameError = EmptyEdgePad | NegativeWindowCount

  /** The windows and, when labels were given, the matching labels. */
  datatype Framed<R, L> = Framed(windows: seq<seq<R>>, labels: Option<seq<L>>)

  /** Rows added at each end: half a window for "same", none for "valid", a window less one otherwise. */
  function PadSize(padding: string, windowSize: int): int
  {
    if padding == "same" then windowSize / 2
    else if padding == "valid" then 0
    else windowSize - 1
  }

  /** `(n + 2·pad − ws) // step + 1`; Dafny's `/` agrees with Python's `//` for a positive divisor. */
  function NumWindows(n: int, pad: int, windowSize: int, stepSize: int): int
    requires stepSize >= 1
  {
    (n + 2 * pad - windowSize) / stepSize + 1
  }

  function Clamp(j: int, lo: int, hi: int): (c: int)
    requires lo <= hi
    ensures lo <= c <= hi
    ensures lo <= j <= hi ==> c == j
  {
    if j < lo then lo else if j > hi then hi else j
  }

  /** `np.pad(X, ((pad, pad), (0, 0)), mode="edge")`: `pad` copies of the first and last rows. */
  function EdgePad<R>(x: seq<R>, pad: nat): seq<R>
    requires pad > 0 ==> |x| > 0
  {
    if pad == 0 then x else seq(pad, _ => x[0]) + x + seq(pad, _ => x[|x| - 1])
  }

  /** Padded row `j` is the original row at `j - pad`, clamped into range. */
  lemma EdgePadAt<R>(x: seq<R>, pad: nat)
    requires |x| > 0
    ensures |EdgePad(x, pad)| == |x| + 2 * pad
    ensures forall j :: 0 <= j < |x| + 2 * pad ==> EdgePad(x, pad)[j] == x[Clamp(j - pad, 0, |x| - 1)]
  {
    var p := EdgePad(x, pad);
    forall j | 0 <= j < |x| + 2 * pad
      ensures p[j] == x[Clamp(j - pad, 0, |x| - 1)]
    {
      if pad > 0 {
        if j < pad {
          assert p[j] == x[0];
        } else if j < pad + |x| {
          assert p[j] == x[j - pad];
        } else {
          assert p[j] == x[|x| - 1];
        }
      }
    }
  }

  /**
   * Every counted window fits inside the padded series, and one more would not:
   * the count is the largest number of windows the padded rows can hold.
   */
  lemma NumWindowsFit(n: int, pad: int, windowSize: int, stepSize: int)
    requires stepSize >= 1
    ensures var nw := NumWindows(n, pad, windowSize, stepSize);
      (nw - 1) * stepSize + windowSize <= n + 2 * pad < nw * stepSize + windowSize
  {
    var a := n + 2 * pad - windowSize;
    var q := a / stepSize;
    var r := a % stepSize;
    assert q * stepSize + r == a;
    assert (q + 1) * stepSize == q * stepSize + stepSize;
  }

  lemma MulSucc(k: int, s: int)
    ensures (k + 1) * s == k * s + s
  {
  }

  /** `y[start:stop:step]` for a positive step and a non-negative start; Python truncates at `len(y)`. */
  function StridedSlice<L>(y: seq<L>, start: nat, stop: int, step: int): seq<L>
    requires step >= 1
    decreases |y| - start
  {
    if start >= Min(stop, |y|) then [] else [y[start]] + StridedSlice(y, start + step, stop, step)
  }

  /**
   * The slice holds `y[start + k·step]` for exactly those `k` whose position
   * lies before both `stop` and the end of `y`.
   */
  lemma {:induction false} StridedSliceAt<L>(y: seq<L>, start: nat, stop: int, step: int)
    requires step >= 1
    ensures var r := StridedSlice(y, start, stop, step);
      (forall k :: 0 <= k < |r| ==> start + k * step < Min(stop, |y|) && r[k] == y[start + k * step])
      && start + |r| * step >= Min(stop, |y|)
    decreases |y| - start
  {
    var r := StridedSlice(y, start, stop, step);
    if start < Min(stop, |y|) {
      var rest := StridedSlice(y, start + step, stop, step);
      assert r == [y[start]] + rest;
      StridedSliceAt(y, start + step, stop, step);
      forall k | 0 <= k < |r|
        ensures start + k * step < Min(stop, |y|) && r[k] == y[start + k * step]
      {
        if k > 0 {
          MulSucc(k - 1, step);
          assert start + step + (k - 1) * step == start + k * step;
          assert r[k] == rest[k - 1];
        }
      }
      MulSucc(|rest|, step);
      assert start + |r| * step == start + step + |rest| * step;
    } else {
      assert r == [];
    }
  }

  /** The windows cut from a padded series: `padded[i·step : i·step + ws]` for each `i < nw`. */
  ghost predicate CutFrom<R>(w: seq<seq<R>>, padded: seq<R>, windowSize: nat, stepSize: int)
  {
    forall i :: 0 <= i < |w| ==>
      0 <= i * stepSize && i * stepSize + windowSize <= |padded| && w[i] == padded[i * stepSize..i * stepSize + windowSize]
  }

  /** Offset `t` of window `i` is the original row `clamp(i·step + t − pad)`. */
  lemma WindowRows<R>(w: seq<seq<R>>, x: seq<R>, pad: nat, windowSize: int, stepSize: int)
    requires |x| > 0 && windowSize >= 0
    requires CutFrom(w, EdgePad(x, pad), windowSize, stepSize)
    ensures forall i :: 0 <= i < |w| ==> |w[i]| == windowSize
    ensures forall i, t :: 0 <= i < |w| && 0 <= t < windowSize ==>
      w[i][t] == x[Clamp(i * stepSize + t - pad, 0, |x| - 1)]
  {
    var padded := EdgePad(x, pad);
    EdgePadAt(x, pad);
    forall i, t | 0 <= i < |w| && 0 <= t < windowSize
      ensures w[i][t] == x[Clamp(i * stepSize + t - pad, 0, |x| - 1)]
    {
      assert w[i][t] == padded[i * stepSize + t];
    }
  }

  /** The loop of `create_windows`: `nw` windows of `ws` rows, each `step` rows after the previous one. */
  method CutWindows<R>(padded: seq<R>, nw: nat, ws: nat, step: int) returns (w: seq<seq<R>>)
    requires step >= 1
    requires nw > 0 ==> (nw - 1) * step + ws <= |padded|
    ensures |w| == nw && CutFrom(w, padded, ws, step)
  {
    var windows := new seq<R>[nw];
    for i := 0 to nw
      invariant CutFrom(windows[..i], padded, ws, step)
    {
      MulMono(i, nw - 1, step);
      windows[i] := padded[i * step..i * step + ws];
      assert windows[..i + 1] == windows[..i] + [windows[i]];
    }
    assert windows[..] == windows[..nw];
    return windows[..];
  }

  /**
   * `create_windows`: window `i` holds the padded rows `[i·step, i·step + ws)`,
   * i.e. original row `clamp(i·step + t − pad)` at offset `t`; labels are `y`
   * unchanged under "same" and `y[pad : pad + nw·step : step]` otherwise.
   */
  method CreateWindows<R(==), L(==)>(cfg: WindowConfig, x: seq<R>, y: Option<seq<L>>) returns (r: Result<Framed<R, L>, FrameError>)
    requires cfg.windowSize >= 1 && cfg.stepSize >= 1
    ensures var pad := PadSize(cfg.padding, cfg.windowSize);
      r == Err(EmptyEdgePad) <==> |x| == 0 && pad > 0
    ensures var pad := PadSize(cfg.padding, cfg.windowSize);
      r == Err(NegativeWindowCount) <==> !(|x| == 0 && pad > 0) && NumWindows(|x|, pad, cfg.windowSize, cfg.stepSize) < 0
    ensures r.Ok? ==>
      var nw := NumWindows(|x|, PadSize(cfg.padding, cfg.windowSize), cfg.windowSize, cfg.stepSize);
      |r.value.windows| == nw && (nw > 0 ==> |x| > 0)
    ensures r.Ok? && |x| > 0 ==>
      var pad := PadSize(cfg.padding, cfg.windowSize);
      var w := r.value.windows;
      (forall i :: 0 <= i < |w| ==> |w[i]| == cfg.windowSize)
      && (forall i, t :: 0 <= i < |w| && 0 <= t < cfg.windowSize ==>
            w[i][t] == x[Clamp(i * cfg.stepSize + t - pad, 0, |x| - 1)])
    ensures r.Ok? ==>
      var pad := PadSize(cfg.padding, cfg.windowSize);
      var nw := NumWindows(|x|, pad, cfg.windowSize, cfg.stepSize);
      r.value.labels == (if y.None? then None
                         else if cfg.padding == "same" then y
                         else Some(StridedSlice(y.value, pad, pad + nw * cfg.stepSize, cfg.stepSize)))
  {
    var ws, step := cfg.windowSize, cfg.stepSize;
    var pad := PadSize(cfg.padding, ws);
    if |x| == 0 && pad > 0 {
      return Err(EmptyEdgePad);
    }
    var padded := EdgePad(x, pad);
    var nw := NumWindows(|x|, pad, ws, step);
    if nw < 0 {
      return Err(NegativeWindowCount);
    }
    NumWindowsFit(|x|, pad, ws, step);
    assert |padded| == |x| + 2 * pad;
    var windows := CutWindows(padded, nw, ws, step);
    if |x| > 0 {
      WindowRows(windows, x, pad, ws, step);
    }
    var labels: Option<seq<L>>;
    if y.None? {
      labels := None;
    } else if cfg.padding == "same" {
      labels := y;
    } else {
      labels := Some(StridedSlice(y.value, pad, pad + nw * step, step));
    }
    return Ok(Framed(windows, labels));
  }

  /** The documented example counts for 100 rows, a window of 10 and step 1. */
  lemma ExampleCounts()
    ensures NumWindows(100, PadSize("valid", 10), 10, 1) == 91
    ensures NumWindows(100, PadSize("full", 10), 10, 1) == 109
    ensures NumWindows(100, PadSize("same", 10), 10, 1) == 101
  {
  }

  /**
   * Under "same" with step 1 an odd window gives one window per row, but an
   * even window gives one window more than there are rows, while the labels
   * are returned unchanged: the windows and labels then disagree in number.
   */
  lemma SameCount(n: nat, windowSize: int)
    requires windowSize >= 1
    ensures NumWindows(n, PadSize("same", windowSize), windowSize, 1) == n + 1 - windowSize % 2
  {
  }

  lemma MulMono(a: int, b: int, s: int)
    requires a <= b && s >= 0
    ensures a * s <= b * s
  {
    assert b * s - a * s == (b - a) * s;
  }

  /** A strided slice whose last kept position is below `m` and whose next position is not has exactly `nw` elements. */
  lemma SliceLength(len: nat, nw: int, step: int, start: int, m: int)
    requires step >= 1
    requires len > 0 ==> start + (len - 1) * step < m
    requires start + len * step >= m
    requires nw >= 0
    requires nw > 0 ==> start + (nw - 1) * step < m
    requires m <= start + nw * step
    ensures len == nw
  {
    if len < nw {
      MulMono(len, nw - 1, step);
    } else if len > nw {
      MulMono(nw, len - 1, step);
    }
  }

  /**
   * Under "valid", labels given for every row yield exactly one label per
   * window; by `StridedSliceAt` the label of window `k` is `y[k·step]`.
   */
  lemma ValidLabelsAligned<L>(y: seq<L>, windowSize: int, stepSize: int)
    requires windowSize >= 1 && stepSize >= 1
    requires NumWindows(|y|, 0, windowSize, stepSize) >= 0
    ensures var nw := NumWindows(|y|, 0, windowSize, stepSize);
      |StridedSlice(y, 0, nw * stepSize, stepSize)| == nw
  {
    var nw := NumWindows(|y|, 0, windowSize, stepSize);
    var labels := StridedSlice(y, 0, nw * stepSize, stepSize);
    StridedSliceAt(y, 0, nw * stepSize, stepSize);
    NumWindowsFit(|y|, 0, windowSize, stepSize);
    var m := Min(nw * stepSize, |y|);
    if |labels| > 0 {
      assert 0 + (|labels| - 1) * stepSize < m;
    }
    SliceLength(|labels|, nw, stepSize, 0, m);
  }

  /**
   * Under "full" with step 1 and a window of at least two rows, labels given
   * for every row cover only the windows that end inside the series: there are
   * `n − ws + 1` of them against `n + ws − 1` windows.
   */
  lemma FullLabelsShort<L>(y: seq<L>, windowSize: int)
    requires 2 <= windowSize <= |y|
    ensures var pad := PadSize("full", windowSize);
      var nw := NumWindows(|y|, pad, windowSize, 1);
      var labels := StridedSlice(y, pad, pad + nw, 1);
      nw == |y| + windowSize - 1 && |labels| == |y| - windowSize + 1 && |labels| < nw
  {
    var pad := PadSize("full", windowSize);
    var nw := NumWindows(|y|, pad, windowSize, 1);
    assert nw == |y| + windowSize - 1;
    StridedSliceAt(y, pad, pad + nw, 1);
    var labels := StridedSlice(y, pad, pad + nw, 1);
    if |labels| > 0 {
      assert pad + (|labels| - 1) * 1 < |y|;
    }
    SliceLength(|labels|, |y| - windowSize + 1, 1, pad, |y|);
  }

  /** One window laid out row after row: `reshape(ws·F)` of a `(ws, F)` block. */
  function FlattenWindow<T>(w: seq<seq<T>>): seq<T>
  {
    if w == [] then [] else w[0] + FlattenWindow(w[1..])
  }

  /** `flatten_windows`: each window of shape `(ws, F)` becomes one row of `ws·F` values. */
  function FlattenWindows<T>(windows: seq<seq<seq<T>>>): (out: seq<seq<T>>)
    ensures |out| == |windows|
  {
    seq(|windows|, i requires 0 <= i < |windows| => FlattenWindow(windows[i]))
  }

  /** Every row of `w` has `f` features. */
  predicate Rectangular<T>(w: seq<seq<T>>, f: nat)
  {
    forall t :: 0 <= t < |w| ==> |w[t]| == f
  }

  lemma {:induction false} FlattenWindowLength<T>(w: seq<seq<T>>, features: nat)
    requires Rectangular(w, features)
    ensures |FlattenWindow(w)| == |w| * features
  {
    if w != [] {
      FlattenWindowLength(w[1..], features);
      MulSucc(|w| - 1, features);
    }
  }

  /** Row-major layout: value `f` of row `t` lands at position `t·F + f`. */
  lemma {:induction false} FlattenWindowAt<T>(w: seq<seq<T>>, features: nat, t: nat, f: nat)
    requires Rectangular(w, features)
    requires t < |w| && f < features
    ensures t * features + f < |FlattenWindow(w)| && FlattenWindow(w)[t * features + f] == w[t][f]
  {
    var flat, rest := FlattenWindow(w), FlattenWindow(w[1..]);
    assert flat == w[0] + rest;
    FlattenWindowLength(w, features);
    MulMono(t + 1, |w|, features);
    MulSucc(t, features);
    if t == 0 {
      assert flat[f] == w[0][f];
    } else {
      FlattenWindowAt(w[1..], features, t - 1, f);
      MulSucc(t - 1, features);
      assert t * features + f == features + ((t - 1) * features + f);
      assert w[1..][t - 1] == w[t];
      assert flat[features + ((t - 1) * features + f)] == rest[(t - 1) * features + f];
    }
  }

  /** `flatten_windows` element by element: `out[i][t·F + f] == windows[i][t][f]`, and each row has `ws·F` values. */
  lemma FlattenWindowsAt<T>(windows: seq<seq<seq<T>>>, features: nat, i: nat, t: nat, f: nat)
    requires i < |windows| && Rectangular(windows[i], features)
    requires t < |windows[i]| && f < features
    ensures var out := FlattenWindows(windows);
      |out[i]| == |windows[i]| * features
      && t * features + f < |out[i]| && out[i][t * features + f] == windows[i][t][f]
  {
    var out := FlattenWindows(windows);
    assert out[i] == FlattenWindow(windows[i]);
    FlattenWindowLength(windows[i], features);
    FlattenWindowAt(windows[i], features, t, f);
  }

  /** The inverse reshape: consecutive blocks of `features` values become rows. */
  function Unflatten<T>(flat: seq<T>, features: nat): seq<seq<T>>
    requires features >= 1
    decreases |flat|
  {
    if |flat| < features then [] else [flat[..features]] + Unflatten(flat[features..], features)
  }

  /** Flattening a window loses nothing: splitting it back into rows of `F` values restores it. */
  lemma {:induction false} UnflattenFlatten<T>(w: seq<seq<T>>, features: nat)
    requires features >= 1 && Rectangular(w, features)
    ensures Unflatten(FlattenWindow(w), features) == w
  {
    if w != [] {
      UnflattenFlatten(w[1..], features);
      var flat := FlattenWindow(w);
      assert flat[..features] == w[0];
      assert flat[features..] == FlattenWindow(w[1..]);
    }
  }
}
