/** FractionalDifferentiator and StreamingFracDiffBuffer: causal convolution, its inverse,
    the calibration of the degree, and the streaming form. */
module FractionalDifferencing {
  import opened Results
  import opened Vectors
  import opened FractionalWeights

  datatype Failure =
    NotFitted | TooShort | AnchorTooShort | ShapeMismatch | BadParameters(cause: FractionalWeights.Error)
                   | SampleTooSmall | HistoryTooShort | Unhydrated

  // ---- convolution ----

  /** Python's x[-n:], which for n = 0 is all of x. */
  function PythonTail(x: seq<real>, n: nat): (r: seq<real>)
    requires n <= |x|
    ensures |r| >= n
  {
    if n == 0 then x else x[|x| - n..]
  }

  /** The last n entries of x, latest first. */
  function Latest(x: seq<real>, n: nat): (r: seq<real>)
    requires n <= |x|
    ensures |r| == n && forall k :: 0 <= k < n ==> r[k] == x[|x| - 1 - k]
  {
    seq(n, k requires 0 <= k < n => x[|x| - 1 - k])
  }

  /** sum over k of w[k] * P[t-k] for the last time t of the history. */
  function Filter(w: seq<real>, history: seq<real>): real
    requires |w| <= |history|
  {
    Dot(w, Latest(history, |w|))
  }

  /** The valid part of the causal convolution: one value per full window. */
  function Convolve(y: seq<real>, w: seq<real>): (z: seq<real>)
    requires w != [] && |y| >= |w|
    ensures |z| == |y| - |w| + 1
    ensures forall t :: 0 <= t < |z| ==> z[t] == Filter(w, y[..t + |w|])
  {
    seq(|y| - |w| + 1, t requires 0 <= t < |y| - |w| + 1 => Filter(w, y[..t + |w|]))
  }

  lemma DotHeadTail(w: seq<real>, x: seq<real>)
    requires |w| == |x| && w != []
    ensures Dot(w, x) == Times(w[0], x[0]) + Dot(w[1..], x[1..])
  {
    HeadAndTail(Mul(w, x));
    assert Mul(w, x)[1..] == Mul(w[1..], x[1..]);
  }

  /** The newest price and the past separate. */
  lemma FilterSplits(w: seq<real>, history: seq<real>, p: real)
    requires w != [] && |w| - 1 <= |history|
    ensures Filter(w, history + [p]) == Times(w[0], p) + Filter(w[1..], history)
  {
    var h := history + [p];
    DotHeadTail(w, Latest(h, |w|));
    assert Latest(h, |w|)[1..] == Latest(history, |w| - 1);
  }

  /** Only the last |w| prices matter. */
  lemma FilterSuffix(w: seq<real>, a: seq<real>, b: seq<real>)
    requires |w| <= |b|
    ensures |w| <= |a + b| && Filter(w, a + b) == Filter(w, b)
  {
    assert Latest(a + b, |w|) == Latest(b, |w|);
  }

  /** A constant series filters to its sum of weights times the constant. */
  lemma {:induction false} ConstantSeries(w: seq<real>, n: nat, c: real)
    requires w != [] && n >= |w|
    ensures forall t :: 0 <= t < |Convolve(Const(n, c), w)| ==> Convolve(Const(n, c), w)[t] == Times(c, Sum(w))
  {
    forall t | 0 <= t < n - |w| + 1 ensures Convolve(Const(n, c), w)[t] == Times(c, Sum(w)) {
      var x := Latest(Const(n, c)[..t + |w|], |w|);
      forall i | 0 <= i < |w| ensures Mul(w, x)[i] == Times(c, w[i]) {
        assert x[i] == c;
        TimesSym(w[i], c);
      }
      SumScale(c, w, Mul(w, x));
    }
  }

  // ---- reconstruction ----

  /** The price that the filtered value z and the past determine. */
  function Solve(w: seq<real>, history: seq<real>, z: real): real
    requires w != [] && w[0] != 0.0 && |w| - 1 <= |history|
  {
    Over(z - Filter(w[1..], history), w[0])
  }

  /** Prices recovered one after the other, each feeding the next. */
  function Reconstruct(w: seq<real>, anchor: seq<real>, z: seq<real>): (r: seq<real>)
    requires w != [] && w[0] != 0.0 && |w| - 1 <= |anchor|
    ensures |r| == |z|
  {
    if z == [] then []
    else
      var n := |z| - 1;
      var r := Reconstruct(w, anchor, z[..n]);
      r + [Solve(w, anchor + r, z[n])]
  }

  lemma SolveInverts(w: seq<real>, history: seq<real>, p: real, z: real)
    requires w != [] && w[0] != 0.0 && |w| - 1 <= |history|
    ensures Solve(w, history, Filter(w, history + [p])) == p
    ensures Filter(w, history + [Solve(w, history, z)]) == z
  {
    FilterSplits(w, history, p);
    FilterSplits(w, history, Solve(w, history, z));
  }

  lemma {:induction false} ReconstructStep(w: seq<real>, anchor: seq<real>, z: seq<real>, n: nat)
    requires w != [] && w[0] != 0.0 && |w| - 1 <= |anchor| && n < |z|
    ensures Reconstruct(w, anchor, z[..n + 1])
         == Reconstruct(w, anchor, z[..n]) + [Solve(w, anchor + Reconstruct(w, anchor, z[..n]), z[n])]
  {
    assert z[..n + 1][..n] == z[..n];
  }

  /** Differencing, then reconstructing from the first lookback prices, gives the rest back. */
  lemma {:induction false} InverseOfTransform(w: seq<real>, y: seq<real>, n: nat)
    requires |w| >= 1 && w[0] != 0.0 && |y| >= |w| && n <= |y| - |w| + 1
    ensures Reconstruct(w, y[..|w| - 1], Convolve(y, w)[..n]) == y[|w| - 1..][..n]
  {
    hide Solve, Filter;
    if n > 0 {
      var l := |w| - 1;
      InverseOfTransform(w, y, n - 1);
      ReconstructStep(w, y[..l], Convolve(y, w), n - 1);
      InverseStep(w, y, n - 1);
      assert y[l..][..n] == y[l..][..n - 1] + [y[l + n - 1]];
    }
  }

  lemma InverseStep(w: seq<real>, y: seq<real>, n: nat)
    requires |w| >= 1 && w[0] != 0.0 && |w| + n <= |y|
    ensures Solve(w, y[..|w| - 1] + y[|w| - 1..][..n], Convolve(y, w)[n]) == y[|w| - 1 + n]
  {
    hide Solve, Filter;
    var l := |w| - 1;
    var past := y[..l] + y[l..][..n];
    assert past == y[..l + n];
    assert y[..n + |w|] == past + [y[l + n]];
    SolveInverts(w, past, y[l + n], 0.0);
  }

  /** Transforming an anchor followed by its reconstruction gives the filtered values back. */
  lemma {:induction false} TransformOfInverse(w: seq<real>, anchor: seq<real>, z: seq<real>)
    requires |w| >= 1 && w[0] != 0.0 && |anchor| == |w| - 1 && z != []
    ensures Convolve(anchor + Reconstruct(w, anchor, z), w) == z
  {
    hide Solve, Filter, Reconstruct;
    var y := anchor + Reconstruct(w, anchor, z);
    forall t | 0 <= t < |z| ensures Convolve(y, w)[t] == z[t] {
      RebuiltValue(w, anchor, z, t);
    }
  }

  lemma {:induction false} RebuiltValue(w: seq<real>, anchor: seq<real>, z: seq<real>, t: nat)
    requires |w| >= 1 && w[0] != 0.0 && |anchor| == |w| - 1 && t < |z|
    ensures Filter(w, (anchor + Reconstruct(w, anchor, z))[..t + |w|]) == z[t]
  {
    hide Solve, Filter, Reconstruct;
    ReconstructPrefix(w, anchor, z, t + 1);
    ReconstructStep(w, anchor, z, t);
    var r := Reconstruct(w, anchor, z[..t]);
    PrefixOfConcat(anchor, Reconstruct(w, anchor, z), t + 1, r, Solve(w, anchor + r, z[t]));
    SolveInverts(w, anchor + r, 0.0, z[t]);
  }

  lemma PrefixOfConcat(a: seq<real>, b: seq<real>, n: nat, r: seq<real>, p: real)
    requires n <= |b| && b[..n] == r + [p]
    ensures (a + b)[..|a| + n] == (a + r) + [p]
  {
    assert (a + b)[..|a| + n] == a + b[..n];
  }

  lemma {:induction false} ReconstructPrefix(w: seq<real>, anchor: seq<real>, z: seq<real>, t: nat)
    requires w != [] && w[0] != 0.0 && |w| - 1 <= |anchor| && t <= |z|
    ensures Reconstruct(w, anchor, z)[..t] == Reconstruct(w, anchor, z[..t])
    decreases |z|
  {
    if t < |z| {
      var n := |z| - 1;
      ReconstructPrefix(w, anchor, z[..n], t);
      assert z[..n][..t] == z[..t];
    } else {
      assert z[..t] == z;
    }
  }

  // ---- the fitted transformer ----

  class FractionalDifferentiator {
    var degree: Option<real>
    var weights: Option<seq<real>>
    var lookback: nat

    /** Fitted weights come with a degree, are non-empty with a non-zero head, and the
        lookback counts their lags. */
    ghost predicate Valid()
      reads this
    {
      weights.Some? ==>
        degree.Some? && weights.value != [] && weights.value[0] != 0.0 && lookback == |weights.value| - 1
    }

    constructor ()
      ensures Valid() && degree == None && weights == None
    {
      degree, weights, lookback := None, None, 0;
    }

    /** Fitting with a given degree, which is stored before the weights are generated: a
        generator that refuses leaves the new degree beside the weights of the last fit.
        The stationarity statistics are not part of this model. */
    method Fit(d: real, sampleSize: nat, threshold: real, maxLookbackRatio: real, zeroSum: bool)
      returns (failure: Option<Failure>)
      requires Valid()
      modifies this
      ensures Valid()
      ensures failure == Some(SampleTooSmall) <==> sampleSize < 30
      ensures failure.Some? <==> sampleSize < 30 || !(0.0 <= d <= 1.0) || threshold <= 0.0
      ensures failure == Some(BadParameters(DegreeOutOfRange)) <==> sampleSize >= 30 && !(0.0 <= d <= 1.0)
      ensures failure.Some? ==> weights == old(weights) && lookback == old(lookback)
      ensures degree == if sampleSize < 30 then old(degree) else Some(d)
      ensures failure.None? ==> weights.Some?
      ensures failure.None? && d == 0.0 ==> weights.value == [1.0]
      ensures failure.None? && d == 1.0 ==> weights.value == [1.0, -1.0]
      ensures failure.None? && zeroSum ==> (Sum(weights.value) == 0.0 <==> d == 1.0 || d >= threshold)
      ensures failure.None? && 0.0 < d < 1.0 ==>
        var byRatio := Times(sampleSize as real, maxLookbackRatio).Floor;
        StopsAt(d, threshold, Some(if byRatio > 10 then byRatio else 10), lookback)
        && weights.value == Weights(d, lookback, zeroSum)
    {
      hide StopsAt, Omega, Weights;
      if sampleSize < 30 {
        return Some(SampleTooSmall);
      }
      var byRatio := Times(sampleSize as real, maxLookbackRatio).Floor;
      var cap := if byRatio < 10 then 10 else byRatio;
      degree := Some(d);
      var r := ComputeWeights(d, threshold, Some(cap), zeroSum);
      if r.Err? {
        match r.error {
          case DegreeOutOfRange => assert r == Err(DegreeOutOfRange);
          case ThresholdNotPositive => assert r == Err(ThresholdNotPositive);
        }
        return Some(BadParameters(r.error));
      }
      FittedWeights(d, threshold, Some(cap), zeroSum, r.value);
      weights, lookback := Some(r.value), |r.value| - 1;
      failure := None;
    }

    method Transform(y: seq<real>, padNans: bool) returns (r: Result<seq<Option<real>>, Failure>)
      requires Valid()
      ensures r == Err(NotFitted) <==> weights.None?
      ensures r == Err(TooShort) <==> weights.Some? && |y| <= lookback
      ensures r.Ok? ==> |r.value| == if padNans then |y| else |y| - lookback
      ensures r.Ok? ==> weights.Some? && forall t :: 0 <= t < |y| - lookback ==>
        r.value[if padNans then t + lookback else t] == Some(Convolve(y, weights.value)[t])
      ensures r.Ok? && padNans ==> forall t :: 0 <= t < lookback ==> r.value[t] == None
    {
      if weights.None? || degree.None? {
        return Err(NotFitted);
      }
      if |y| <= lookback {
        return Err(TooShort);
      }
      var z := Convolve(y, weights.value);
      var valid := seq(|z|, t requires 0 <= t < |z| => Some(z[t]));
      r := Ok(if padNans then seq(lookback, i => None) + valid else valid);
    }

    /** Reconstruction with a growing buffer.  A lag-free fit takes Python's [-0:] slice,
        which is the whole buffer, and fails unless that is empty. */
    method InverseTransform(diff: seq<real>, anchor: seq<real>) returns (r: Result<seq<real>, Failure>)
      requires Valid()
      ensures r == Err(NotFitted) <==> weights.None?
      ensures r == Err(AnchorTooShort) <==> weights.Some? && |anchor| < lookback
      ensures r == Err(ShapeMismatch) <==> weights.Some? && lookback == 0 && diff != [] && (anchor != [] || |diff| > 1)
      ensures r.Ok? ==> weights.Some? && lookback <= |anchor|
      ensures r.Ok? ==> r.value == Reconstruct(weights.value, anchor[|anchor| - lookback..], diff)
    {
      if weights.None? {
        return Err(NotFitted);
      }
      if |anchor| < lookback {
        return Err(AnchorTooShort);
      }
      r := Rebuild(weights.value, lookback, diff, anchor);
    }
  }

  /** The reconstruction loop over fitted weights. */
  method Rebuild(weights: seq<real>, lookback: nat, diff: seq<real>, anchor: seq<real>)
    returns (r: Result<seq<real>, Failure>)
    requires weights != [] && weights[0] != 0.0 && lookback == |weights| - 1 <= |anchor|
    ensures r.Ok? ==> r.value == Reconstruct(weights, anchor[|anchor| - lookback..], diff)
    ensures r.Err? ==> r.error == ShapeMismatch
    ensures r.Err? <==> lookback == 0 && diff != [] && (anchor != [] || |diff| > 1)
  {
    hide Filter, Solve, Dot, Reconstruct, Latest, PythonTail, Times;
    var w0, lags := weights[0], weights[1..];
    ghost var tail := anchor[|anchor| - lookback..];
    var buffer := PythonTail(anchor, lookback);
    var out: seq<real> := [];
    for i := 0 to |diff|
      invariant |out| == i && out == Reconstruct(weights, tail, diff[..i])
      invariant buffer == PythonTail(anchor, lookback) + out && |buffer| >= lookback
      invariant lookback == 0 && i > 0 ==> anchor == [] && i == 1
    {
      var window := PythonTail(buffer, lookback);
      WindowLength(anchor, lookback, out);
      if |window| != |lags| {
        return Err(ShapeMismatch);
      }
      var past := Dot(lags, Latest(window, |window|));
      var p := Over(diff[i] - past, w0);
      SolvedFromWindow(weights, tail + out, window, diff[i]);
      ReconstructStep(weights, tail, diff, i);
      assert PythonTail(anchor, lookback) + out + [p] == PythonTail(anchor, lookback) + (out + [p]);
      buffer := buffer + [p];
      out := out + [p];
    }
    assert diff[..|diff|] == diff;
    r := Ok(out);
  }

  lemma WindowLength(anchor: seq<real>, l: nat, out: seq<real>)
    requires l <= |anchor|
    ensures var base := PythonTail(anchor, l);
      var window := PythonTail(base + out, l);
      && |window| == (if l == 0 then |anchor| + |out| else l)
      && (|window| == l ==> window == (anchor[|anchor| - l..] + out)[|out|..])
  {
  }

  lemma SolvedFromWindow(w: seq<real>, history: seq<real>, window: seq<real>, z: real)
    requires w != [] && w[0] != 0.0 && |window| == |w| - 1 <= |history|
    requires window == history[|history| - (|w| - 1)..]
    ensures Over(z - Dot(w[1..], Latest(window, |window|)), w[0]) == Solve(w, history, z)
  {
    assert Latest(window, |window|) == Latest(history, |w| - 1);
  }

  /** The generator's weights always have a positive head, so the inverse is defined. */
  lemma {:induction false} FittedWeights(d: real, threshold: real, cap: Option<int>, zeroSum: bool, w: seq<real>)
    requires 0.0 <= d <= 1.0 && threshold > 0.0
    requires d == 0.0 ==> w == [1.0]
    requires d == 1.0 ==> w == [1.0, -1.0]
    requires 0.0 < d < 1.0 ==> exists lags: nat :: StopsAt(d, threshold, cap, lags) && w == Weights(d, lags, zeroSum)
    ensures w != [] && w[0] > 0.0
    ensures zeroSum ==> (Sum(w) == 0.0 <==> d == 1.0 || d >= threshold)
    ensures 0.0 < d < 1.0 ==> StopsAt(d, threshold, cap, |w| - 1) && w == Weights(d, |w| - 1, zeroSum)
  {
    hide StopsAt, Weights, Damping, Omega, Sum;
    if zeroSum {
      ZeroSumIff(d, threshold, cap, w);
    }
    if 0.0 < d < 1.0 {
      var lags: nat :| StopsAt(d, threshold, cap, lags) && w == Weights(d, lags, zeroSum);
      WeightsBalance(d, lags, zeroSum);
    }
  }

  // ---- calibration by bisection ----

  const BISECTION_STEPS := 7

  function Halving(n: nat): real { if n == 0 then 1.0 else Halving(n - 1) / 2.0 }

  /** Degree d is rejected: its window is too long for the sample, or its series does not
      pass the stationarity test. */
  predicate Rejected(passes: real -> bool, lags: real -> nat, n: nat, d: real) {
    n <= lags(d) + 10 || !passes(d)
  }

  /** The search of _find_optimal_d_bisection over an arbitrary stationarity verdict.  The
      result is 0 if the raw series passes; otherwise the upper end of a final bracket of
      width 1/128 whose lower end, unless it is 0, was rejected. */
  method FindDegree(passes: real -> bool, lags: real -> nat, n: nat, rawPasses: bool)
    returns (best: real, ghost low: real)
    ensures rawPasses ==> best == 0.0
    ensures !rawPasses ==> best - low == 1.0 / 128.0 && 0.0 <= low < best <= 1.0
    ensures !rawPasses ==> best == 1.0 || !Rejected(passes, lags, n, best)
    ensures !rawPasses ==> low == 0.0 || Rejected(passes, lags, n, low)
  {
    if rawPasses {
      return 0.0, 0.0;
    }
    var lo, hi := 0.0, 1.0;
    best := 1.0;
    for i := 0 to BISECTION_STEPS
      invariant 0.0 <= lo < hi <= 1.0 && hi - lo == Halving(i) && best == hi
      invariant hi == 1.0 || !Rejected(passes, lags, n, hi)
      invariant lo == 0.0 || Rejected(passes, lags, n, lo)
    {
      var mid := (lo + hi) / 2.0;
      if n <= lags(mid) + 10 {
        lo := mid;
      } else if passes(mid) {
        best, hi := mid, mid;
      } else {
        lo := mid;
      }
    }
    assert Halving(7) == 1.0 / 128.0;
    low := lo;
  }

  /** If acceptance is upward closed, the bisection is within 1/128 of every acceptable degree. */
  lemma BisectionNearMinimal(passes: real -> bool, lags: real -> nat, n: nat, best: real, low: real, e: real)
    requires best - low == 1.0 / 128.0 && (low == 0.0 || Rejected(passes, lags, n, low))
    requires forall a: real, b: real :: 0.0 < a <= b < 1.0 && !Rejected(passes, lags, n, a) ==>
      !Rejected(passes, lags, n, b)
    requires 0.0 < e < 1.0 && low < 1.0 && 0.0 <= low && !Rejected(passes, lags, n, e)
    ensures best < e + 1.0 / 128.0
  {
    assert e <= low ==> !Rejected(passes, lags, n, low);
  }

  // ---- streaming ----

  /** kept is grown itself, or its last entries when it has outgrown twice the capacity. */
  ghost predicate Trimmed(grown: seq<real>, capacity: nat, kept: seq<real>) {
    kept == if |grown| > 2 * capacity then grown[|grown| - capacity..] else grown
  }

  class StreamingFracDiffBuffer {
    const weights: seq<real>
    const lookback: nat
    const capacity: nat
    var buffer: seq<real>
    var hydrated: bool
    ghost var history: seq<real>

    /** Once hydrated, the buffer is a suffix of everything seen, long enough for the window. */
    ghost predicate Valid()
      reads this
    {
      && weights != [] && lookback == |weights| - 1 && capacity == lookback + 1
      && (hydrated ==> lookback <= |buffer| <= |history| && buffer == history[|history| - |buffer|..])
    }

    constructor (w: seq<real>)
      requires w != []
      ensures Valid() && !hydrated && weights == w
    {
      weights, lookback, capacity := w, |w| - 1, |w|;
      buffer, hydrated, history := [], false, [];
    }

    method Hydrate(prices: seq<real>) returns (failure: Option<Failure>)
      requires Valid()
      modifies this
      ensures Valid()
      ensures failure == (if |prices| < lookback then Some(HistoryTooShort) else None)
      ensures failure.Some? ==> buffer == old(buffer) && hydrated == old(hydrated) && history == old(history)
      ensures failure.None? ==> hydrated && history == prices
      ensures failure.None? ==> buffer == if lookback == 0 then prices else prices[|prices| - lookback..]
    {
      if |prices| < lookback {
        return Some(HistoryTooShort);
      }
      buffer := PythonTail(prices, lookback);
      hydrated, history := true, prices;
      failure := None;
    }

    /** The streamed value is the batch value at that bar; the buffer grows to twice its
        capacity and is then cut back to it. */
    method Update(price: real) returns (r: Result<real, Failure>)
      requires Valid()
      modifies this
      ensures Valid() && hydrated == old(hydrated)
      ensures r == Err(Unhydrated) <==> !hydrated
      ensures !hydrated ==> buffer == old(buffer) && history == old(history)
      ensures hydrated ==> history == old(history) + [price]
      ensures hydrated ==> |history| >= |weights| && r == Ok(Filter(weights, history))
      ensures hydrated ==> |buffer| <= 2 * capacity
      ensures hydrated ==> Trimmed(old(buffer) + [price], capacity, buffer)
    {
      hide Dot;
      if !hydrated {
        return Err(Unhydrated);
      }
      buffer := buffer + [price];
      history := history + [price];
      var window := buffer[|buffer| - capacity..];
      if |buffer| > capacity * 2 {
        buffer := window;
      }
      assert Latest(window, capacity) == Latest(history, capacity);
      r := Ok(Dot(weights, Latest(window, capacity)));
    }
  }

  /** Any run of updates after hydration streams exactly the batch transform of the last
      lookback hydration prices followed by the new ones. */
  method Replay(b: StreamingFracDiffBuffer, past: seq<real>, prices: seq<real>) returns (out: seq<real>)
    requires b.Valid() && |past| >= b.lookback && prices != []
    modifies b
    ensures b.Valid() && b.hydrated && b.history == past + prices
    ensures out == Convolve(past[|past| - b.lookback..] + prices, b.weights)
    ensures |b.buffer| <= 2 * b.capacity
  {
    hide Filter, PythonTail, Convolve, Trimmed;
    var failure := b.Hydrate(past);
    out := [];
    assert past + prices[..0] == past;
    ghost var tail := past[|past| - b.lookback..];
    ghost var batch := Convolve(tail + prices, b.weights);
    for i := 0 to |prices|
      invariant b.Valid() && b.hydrated && b.history == past + prices[..i]
      invariant i > 0 ==> |b.buffer| <= 2 * b.capacity
      invariant |out| == i && out == batch[..i]
    {
      var r := b.Update(prices[i]);
      StreamedValue(b.weights, past, tail, prices, i);
      assert batch[..i + 1] == batch[..i] + [batch[i]];
      out := out + [r.value];
    }
    assert prices[..|prices|] == prices && batch[..|prices|] == batch;
  }

  lemma StreamedValue(w: seq<real>, past: seq<real>, tail: seq<real>, prices: seq<real>, i: nat)
    requires w != [] && |past| >= |w| - 1 && tail == past[|past| - (|w| - 1)..] && i < |prices|
    ensures Filter(w, past + prices[..i + 1]) == Convolve(tail + prices, w)[i]
  {
    var head := past[..|past| - (|w| - 1)];
    assert past + prices[..i + 1] == head + (tail + prices[..i + 1]);
    FilterSuffix(w, head, tail + prices[..i + 1]);
    assert (tail + prices)[..i + |w|] == tail + prices[..i + 1];
  }

  /** The lag-free fit cannot be inverted beyond the first value: Python's [-0:] keeps
      everything.  With weight 1 and two values to reconstruct the source's product of
      mismatched shapes fails. */
  method LagFreeInverseFails() returns (r: Result<seq<real>, Failure>)
    ensures r == Err(ShapeMismatch)
  {
    var f := new FractionalDifferentiator();
    var failure := f.Fit(0.0, 30, 0.0001, 0.2, true);
    r := f.InverseTransform([1.0, 2.0], []);
  }
}
