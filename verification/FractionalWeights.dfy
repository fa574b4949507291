/** compute_fractional_weights: the truncated binomial expansion of (1 - B)^d. */
module FractionalWeights {
  import opened Results
  import opened Vectors

  datatype Error = DegreeOutOfRange | ThresholdNotPositive

  /** The recursion of the source: omega_k = -omega_{k-1} * (d - k + 1) / k. */
  function Omega(d: real, k: nat): real {
    if k == 0 then 1.0 else NextOmega(d, k, Omega(d, k - 1))
  }

  function NextOmega(d: real, k: nat, previous: real): real
    requires k > 0
  {
    Over(Times(-previous, d - k as real + 1.0), k as real)
  }

  /** The product of (1 - d/j) for j = 1 .. k. */
  function Damping(d: real, k: nat): real {
    if k == 0 then 1.0 else Times(Damping(d, k - 1), 1.0 - Over(d, k as real))
  }

  function Raw(d: real, lags: nat): (w: seq<real>)
    ensures |w| == lags + 1 && forall i :: 0 <= i <= lags ==> w[i] == Omega(d, i)
  {
    seq(lags + 1, i requires 0 <= i => Omega(d, i))
  }

  // ---- closed forms ----

  lemma DampingStep(p: real, d: real, k: nat)
    requires k > 0
    ensures Times(k as real, Times(p, 1.0 - Over(d, k as real))) == Times(p, k as real - d)
  {
    var q := Over(d, k as real);
    Quotient(d, k as real);
    assert k as real * (p * (1.0 - q)) == p * (k as real - k as real * q);
  }

  /** k * omega_k is minus d times the damping before it. */
  lemma {:induction false} OmegaClosed(d: real, k: nat)
    requires k > 0
    ensures Times(k as real, Omega(d, k)) == -Times(d, Damping(d, k - 1))
  {
    var prev := Omega(d, k - 1);
    Quotient(Times(-prev, d - k as real + 1.0), k as real);
    if k > 1 {
      OmegaClosed(d, k - 1);
      var j := k - 1;
      DampingStep(Damping(d, j - 1), d, j);
      OmegaScalar(d, j as real, prev, Damping(d, j - 1), Damping(d, j));
    }
  }

  lemma OmegaScalar(d: real, j: real, prev: real, p: real, q: real)
    requires j > 0.0 && Times(j, prev) == -Times(d, p) && Times(j, q) == Times(p, j - d)
    ensures Times(-prev, d - j) == -Times(d, q)
  {
    assert Times(j, Times(-prev, d - j)) == Times(Times(j, prev), j - d);
    assert Times(j, -Times(d, q)) == -Times(d, Times(j, q));
    assert Times(-Times(d, p), j - d) == -Times(d, Times(p, j - d));
    if Times(-prev, d - j) < -Times(d, q) {
      TimesStrict(j, Times(-prev, d - j), -Times(d, q));
    } else if Times(-prev, d - j) > -Times(d, q) {
      TimesStrict(j, -Times(d, q), Times(-prev, d - j));
    }
  }

  lemma {:induction false} DampingBounds(d: real, k: nat)
    requires 0.0 < d < 1.0
    ensures 0.0 < Damping(d, k) <= 1.0
    ensures k > 0 ==> Damping(d, k) < Damping(d, k - 1) && Damping(d, k) <= 1.0 - d
  {
    if k > 0 {
      DampingBounds(d, k - 1);
      var p, q := Damping(d, k - 1), Over(d, k as real);
      Quotient(d, k as real);
      PositiveProduct(p, 1.0 - q);
      TimesStrict(p, 1.0 - q, 1.0);
      if k == 1 {
        assert Times(1.0, q) == q && Times(1.0, 1.0 - q) == 1.0 - q;
      }
    }
  }

  /** Every lag weight is negative and k * |omega_k| <= d. */
  lemma {:induction false} OmegaBounds(d: real, k: nat)
    requires 0.0 < d < 1.0 && k > 0
    ensures Omega(d, k) < 0.0 && Times(k as real, Abs(Omega(d, k))) <= d
    ensures k == 1 ==> Omega(d, k) == -d
  {
    hide Omega;
    OmegaClosed(d, k);
    DampingBounds(d, k - 1);
    PositiveProduct(d, Damping(d, k - 1));
    TimesMonotone(d, Damping(d, k - 1), 1.0);
    var w := Omega(d, k);
    assert Times(k as real, -w) == -Times(k as real, w);
    if w >= 0.0 {
      NonNegProduct(k as real, w);
    }
  }

  /** Lag weights strictly shrink in magnitude. */
  lemma OmegaShrinks(d: real, k: nat)
    requires 0.0 < d < 1.0 && k > 0
    ensures Abs(Omega(d, k + 1)) < Abs(Omega(d, k))
  {
    hide Omega, Damping;
    OmegaBounds(d, k);
    OmegaBounds(d, k + 1);
    OmegaClosed(d, k);
    OmegaClosed(d, k + 1);
    DampingBounds(d, k);
    TimesStrict(d, Damping(d, k), Damping(d, k - 1));
    var a, b := -Omega(d, k), -Omega(d, k + 1);
    assert Times(k as real, a) == Times(d, Damping(d, k - 1)) && Times((k + 1) as real, b) == Times(d, Damping(d, k));
    assert Times((k + 1) as real, a) == Times(k as real, a) + a;
    if b >= a {
      TimesMonotone((k + 1) as real, a, b);
    }
  }

  /** The partial sums telescope to the damping product. */
  lemma {:induction false} PartialSums(d: real, lags: nat)
    ensures Sum(Raw(d, lags)) == Damping(d, lags)
  {
    if lags == 0 {
      assert Raw(d, 0) == [1.0];
      SumSingle(1.0);
    } else {
      PartialSums(d, lags - 1);
      assert Raw(d, lags)[..lags] == Raw(d, lags - 1);
      OmegaClosed(d, lags);
      DampingStep(Damping(d, lags - 1), d, lags);
      SumScalar(lags as real, Damping(d, lags - 1), Omega(d, lags), Damping(d, lags), d);
    }
  }

  lemma SumScalar(k: real, p: real, w: real, q: real, d: real)
    requires k > 0.0 && Times(k, w) == -Times(d, p) && Times(k, q) == Times(p, k - d)
    ensures p + w == q
  {
    assert Times(k, p + w) == Times(k, p) + Times(k, w);
    assert Times(p, k - d) == Times(k, p) - Times(d, p);
    if p + w < q {
      TimesStrict(k, p + w, q);
    } else if q < p + w {
      TimesStrict(k, q, p + w);
    }
  }

  // ---- truncation ----

  /** The cap admits at least one lag: it is tested only after the first is appended. */
  function LagCap(maxLookback: int): nat { if maxLookback < 1 then 1 else maxLookback }

  /** lags is where the expansion stops: every kept lag reaches the threshold, and either
      the next one does not or the cap is reached. */
  ghost predicate StopsAt(d: real, threshold: real, maxLookback: Option<int>, lags: nat) {
    && (forall i :: 1 <= i <= lags ==> Abs(Omega(d, i)) >= threshold)
    && (maxLookback.Some? ==> lags <= LagCap(maxLookback.value))
    && (Abs(Omega(d, lags + 1)) < threshold || (maxLookback.Some? && lags == LagCap(maxLookback.value)))
  }

  /** There is only one place to stop. */
  lemma StopUnique(d: real, threshold: real, maxLookback: Option<int>, a: nat, b: nat)
    requires 0.0 < d < 1.0 && threshold > 0.0
    requires StopsAt(d, threshold, maxLookback, a) && StopsAt(d, threshold, maxLookback, b)
    ensures a == b
  {
  }

  /** The corrected head balances the lags. */
  function Corrected(w: seq<real>): (r: seq<real>)
    requires w != []
    ensures |r| == |w| && r[0] == -Sum(w[1..]) && r[1..] == w[1..]
  {
    [-Sum(w[1..])] + w[1..]
  }

  function Weights(d: real, lags: nat, zeroSum: bool): seq<real> {
    if zeroSum && lags > 0 then Corrected(Raw(d, lags)) else Raw(d, lags)
  }

  /** A kept lag k costs k * threshold of d, which is what makes the loop end. */
  lemma {:induction false} LagBound(d: real, threshold: real, k: nat)
    requires 0.0 < d < 1.0 && threshold > 0.0 && k > 0 && Abs(Omega(d, k)) >= threshold
    ensures Times(k as real, threshold) <= d && k as real <= Over(d, threshold)
    ensures k <= Over(d, threshold).Floor
  {
    OmegaBounds(d, k);
    TimesMonotone(k as real, threshold, Abs(Omega(d, k)));
    Quotient(d, threshold);
    TimesSym(k as real, threshold);
    if k as real > Over(d, threshold) {
      TimesStrict(threshold, Over(d, threshold), k as real);
    }
  }

  /** The loop of the source; it ends for every degree and threshold even without a cap. */
  method Expand(d: real, threshold: real, maxLookback: Option<int>) returns (weights: seq<real>, ghost lags: nat)
    requires 0.0 < d < 1.0 && threshold > 0.0
    ensures weights == Raw(d, lags) && StopsAt(d, threshold, maxLookback, lags)
    ensures lags as real <= Over(d, threshold)
  {
    hide Times, Omega, NextOmega;
    weights := [1.0];
    FirstOmega(d);
    var k := 1;
    ghost var bound := Over(d, threshold).Floor;
    Quotient(d, threshold);
    while true
      invariant k >= 1 && |weights| == k && weights == Raw(d, k - 1)
      invariant forall i :: 1 <= i < k ==> Abs(Omega(d, i)) >= threshold
      invariant k - 1 <= bound
      invariant maxLookback.Some? ==> k <= LagCap(maxLookback.value)
      decreases bound - k
    {
      var w := NextOmega(d, k, weights[k - 1]);
      OmegaUnfolds(d, k);
      if Abs(w) < threshold {
        break;
      }
      LagBound(d, threshold, k);
      weights := weights + [w];
      k := k + 1;
      if maxLookback.Some? && k > maxLookback.value {
        break;
      }
    }
    lags := k - 1;
  }

  lemma {:induction false} FirstOmega(d: real)
    ensures Omega(d, 0) == 1.0
  {
  }

  lemma OmegaUnfolds(d: real, k: nat)
    requires k > 0
    ensures Omega(d, k) == NextOmega(d, k, Omega(d, k - 1))
  {
  }

  method ComputeWeights(d: real, threshold: real, maxLookback: Option<int>, zeroSum: bool)
    returns (r: Result<seq<real>, Error>)
    ensures r == Err(DegreeOutOfRange) <==> !(0.0 <= d <= 1.0)
    ensures r == Err(ThresholdNotPositive) <==> 0.0 <= d <= 1.0 && threshold <= 0.0
    ensures r.Ok? && d == 0.0 ==> r.value == [1.0]
    ensures r.Ok? && d == 1.0 ==> r.value == [1.0, -1.0]
    ensures r.Ok? && 0.0 < d < 1.0 ==>
      exists lags: nat :: StopsAt(d, threshold, maxLookback, lags) && r.value == Weights(d, lags, zeroSum)
  {
    hide Omega, StopsAt, Raw;
    if !(0.0 <= d <= 1.0) {
      return Err(DegreeOutOfRange);
    }
    if threshold <= 0.0 {
      return Err(ThresholdNotPositive);
    }
    if d == 0.0 {
      return Ok([1.0]);
    }
    if d == 1.0 {
      return Ok([1.0, -1.0]);
    }
    ghost var lags;
    var weights;
    weights, lags := Expand(d, threshold, maxLookback);
    if zeroSum && |weights| > 1 {
      weights := Corrected(weights);
    }
    assert weights == Weights(d, lags, zeroSum);
    r := Ok(weights);
  }

  // ---- what the weights promise ----

  /** With a lag the corrected head lies in [d, 1) and the weights sum to zero; without the
      correction the sum is the damping product, which is positive. */
  lemma {:induction false} WeightsBalance(d: real, lags: nat, zeroSum: bool)
    requires 0.0 < d < 1.0
    ensures var w := Weights(d, lags, zeroSum);
      && |w| == lags + 1
      && (zeroSum && lags > 0 ==> Sum(w) == 0.0 && d <= w[0] < 1.0 && w[0] == 1.0 - Damping(d, lags))
      && (!(zeroSum && lags > 0) ==> Sum(w) == Damping(d, lags) > 0.0 && w[0] == 1.0)
      && (forall i :: 1 <= i <= lags ==> w[i] == Omega(d, i) && w[i] < 0.0)
  {
    hide Omega, Damping, Times;
    var raw := Raw(d, lags);
    PartialSums(d, lags);
    DampingBounds(d, lags);
    FirstOmega(d);
    HeadAndTail(raw);
    HeadAndTail(Weights(d, lags, zeroSum));
    forall i | 1 <= i <= lags ensures Weights(d, lags, zeroSum)[i] == Omega(d, i) < 0.0 {
      OmegaBounds(d, i);
      assert Weights(d, lags, zeroSum)[1..][i - 1] == raw[1..][i - 1];
    }
  }

  lemma {:induction false} HeadAndTail(x: seq<real>)
    requires x != []
    ensures Sum(x) == x[0] + Sum(x[1..])
  {
    SumConcat([x[0]], x[1..]);
    SumSingle(x[0]);
    assert x == [x[0]] + x[1..];
  }

  /** The promised zero sum holds exactly when a lag survives, that is for d = 1 or d at
      least the threshold; smaller degrees keep the single weight 1. */
  lemma {:induction false} ZeroSumIff(d: real, threshold: real, maxLookback: Option<int>, w: seq<real>)
    requires 0.0 <= d <= 1.0 && threshold > 0.0
    requires d == 0.0 ==> w == [1.0]
    requires d == 1.0 ==> w == [1.0, -1.0]
    requires 0.0 < d < 1.0 ==>
      exists lags: nat :: StopsAt(d, threshold, maxLookback, lags) && w == Weights(d, lags, true)
    ensures Sum(w) == 0.0 <==> d == 1.0 || d >= threshold
    ensures w != [] && w[0] > 0.0
  {
    if d == 0.0 {
      SumSingle(1.0);
    } else if d == 1.0 {
      HeadAndTail(w);
      assert w[1..] == [-1.0];
      SumSingle(-1.0);
    } else {
      var lags: nat :| StopsAt(d, threshold, maxLookback, lags) && w == Weights(d, lags, true);
      WeightsBalance(d, lags, true);
      OmegaBounds(d, 1);
    }
  }
}
