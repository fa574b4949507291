/** discretize_lot_allocations: dollar allocations rounded to whole lots. */
module LotRounding {
  import opened Vectors
  import opened Geometry

  datatype Lots = NoLots | PerAsset(sizes: seq<real>)

  /** Deterministic nearest rounding (seed -1), or one uniform draw per asset. */
  datatype Mode = Nearest | Random(draws: seq<real>)

  function Sign(x: real): real { if x > 0.0 then 1.0 else if x < 0.0 then -1.0 else 0.0 }

  function LotRatio(nu: real, lot: real): real
    requires lot > 0.0
  {
    Over(Abs(nu), lot)
  }

  function RoundUpChance(nu: real, lot: real): real
    requires lot > 0.0
  {
    LotRatio(nu, lot) - LotRatio(nu, lot).Floor as real
  }

  function RoundsUp(nu: real, lot: real, mode: Mode, i: nat): bool
    requires lot > 0.0 && (mode.Random? ==> i < |mode.draws|)
  {
    match mode
    case Nearest => RoundUpChance(nu, lot) >= 0.5
    case Random(draws) => draws[i] < RoundUpChance(nu, lot)
  }

  function WholeLots(nu: real, lot: real, up: bool): int
    requires lot > 0.0
  {
    LotRatio(nu, lot).Floor + if up then 1 else 0
  }

  function Rounded(nu: real, lot: real, up: bool): real
    requires lot > 0.0
  {
    Times(Times(Sign(nu), WholeLots(nu, lot, up) as real), lot)
  }

  /** Assets without a positive lot size are left as they are. */
  function Discretize(target: seq<real>, lots: Lots, mode: Mode): (r: seq<real>)
    requires lots.PerAsset? ==> |lots.sizes| == |target|
    requires mode.Random? ==> |mode.draws| == |target|
    ensures |r| == |target|
  {
    match lots
    case NoLots => target
    case PerAsset(sizes) =>
      seq(|target|, i requires 0 <= i < |target| =>
        if sizes[i] > 0.0 then Rounded(target[i], sizes[i], RoundsUp(target[i], sizes[i], mode, i)) else target[i])
  }

  // ---- one coordinate ----

  lemma RatioSplits(nu: real, lot: real)
    requires lot > 0.0
    ensures 0.0 <= RoundUpChance(nu, lot) < 1.0 && LotRatio(nu, lot).Floor >= 0
    ensures Abs(nu) == Times(LotRatio(nu, lot).Floor as real, lot) + Times(RoundUpChance(nu, lot), lot)
  {
    Quotient(Abs(nu), lot);
    var q, f := LotRatio(nu, lot), LotRatio(nu, lot).Floor as real;
    if q < 0.0 {
      TimesStrict(lot, q, 0.0);
      TimesZero(lot);
      TimesSym(lot, q);
    }
    assert Times(q, lot) == Times(f, lot) + Times(q - f, lot);
  }

  lemma RoundedMagnitude(nu: real, lot: real, up: bool)
    requires lot > 0.0
    ensures Abs(Rounded(nu, lot, up)) == (if nu == 0.0 then 0.0 else Times(WholeLots(nu, lot, up) as real, lot))
    ensures nu >= 0.0 ==> Rounded(nu, lot, up) >= 0.0
    ensures nu <= 0.0 ==> Rounded(nu, lot, up) <= 0.0
  {
    RatioSplits(nu, lot);
    var m := WholeLots(nu, lot, up) as real;
    NonNegProduct(m, lot);
    assert Times(Times(1.0, m), lot) == Times(m, lot);
    assert Times(Times(-1.0, m), lot) == -Times(m, lot);
    assert Times(Times(0.0, m), lot) == 0.0;
  }

  /** Each coordinate moves by less than a lot, by at most half a lot when rounding to
      nearest, and keeps its sign. */
  lemma RoundedDistance(nu: real, lot: real, mode: Mode, i: nat)
    requires lot > 0.0 && (mode.Random? ==> i < |mode.draws| && mode.draws[i] >= 0.0)
    ensures var r := Rounded(nu, lot, RoundsUp(nu, lot, mode, i));
      && Abs(r - nu) < lot
      && Abs(Abs(r) - Abs(nu)) == Abs(r - nu)
      && (mode == Nearest ==> Abs(r - nu) <= 0.5 * lot)
  {
    hide Times, Rounded, LotRatio;
    var up := RoundsUp(nu, lot, mode, i);
    var r, p := Rounded(nu, lot, up), RoundUpChance(nu, lot);
    var base := LotRatio(nu, lot).Floor as real;
    RatioSplits(nu, lot);
    RoundedMagnitude(nu, lot, up);
    LotStep(base, p, lot);
    if nu != 0.0 {
      assert Abs(r) - Abs(nu) == if up then lot - Times(p, lot) else -Times(p, lot);
      assert Abs(r - nu) == Abs(Abs(r) - Abs(nu));
    }
  }

  lemma LotStep(base: real, p: real, lot: real)
    requires lot > 0.0 && 0.0 <= p < 1.0
    ensures Times(base + 1.0, lot) == Times(base, lot) + lot
    ensures 0.0 <= Times(p, lot) < lot
    ensures p >= 0.5 ==> Times(p, lot) >= 0.5 * lot
    ensures p < 0.5 ==> Times(p, lot) <= 0.5 * lot
    ensures p > 0.0 ==> Times(p, lot) > 0.0
  {
    TimesSym(p, lot);
    TimesStrict(lot, p, 1.0);
    NonNegProduct(p, lot);
    assert Times(lot, 0.5) == 0.5 * lot && Times(lot, 1.0) == lot;
    if p >= 0.5 {
      TimesMonotone(lot, 0.5, p);
    } else {
      TimesMonotone(lot, p, 0.5);
    }
    if p > 0.0 {
      PositiveProduct(p, lot);
    }
  }

  /** No other whole number of lots is closer than the one nearest rounding picks. */
  lemma NearestLot(nu: real, lot: real, m: int)
    requires lot > 0.0
    ensures Abs(Rounded(nu, lot, RoundsUp(nu, lot, Nearest, 0)) - nu) <= Abs(Times(m as real, lot) - nu)
  {
    hide Times, Rounded, LotRatio;
    var r, p := Rounded(nu, lot, RoundsUp(nu, lot, Nearest, 0)), RoundUpChance(nu, lot);
    var n := if nu >= 0.0 then m else -m;
    var base := LotRatio(nu, lot).Floor;
    RatioSplits(nu, lot);
    RoundedMagnitude(nu, lot, RoundsUp(nu, lot, Nearest, 0));
    LotStep(base as real, p, lot);
    NegatedLots(m, lot);
    assert Abs(Times(m as real, lot) - nu) == Abs(Times(n as real, lot) - Abs(nu));
    if n <= base {
      TimesMonotone(lot, n as real, base as real);
    } else {
      TimesMonotone(lot, base as real + 1.0, n as real);
    }
    TimesSym(lot, n as real);
    TimesSym(lot, base as real);
    TimesSym(lot, base as real + 1.0);
  }

  lemma NegatedLots(m: int, lot: real)
    ensures Times((-m) as real, lot) == -Times(m as real, lot)
  {
  }

  /** Rounding up with the stated chance keeps the expected allocation. */
  lemma Unbiased(nu: real, lot: real)
    requires lot > 0.0
    ensures var p := RoundUpChance(nu, lot);
      Times(p, Rounded(nu, lot, true)) + Times(1.0 - p, Rounded(nu, lot, false)) == nu
  {
    var p, base := RoundUpChance(nu, lot), LotRatio(nu, lot).Floor as real;
    RatioSplits(nu, lot);
    var s := Sign(nu);
    assert Times(s, Abs(nu)) == nu;
    Distribute(s, Times(base, lot), Times(p, lot));
  }

  // ---- the whole vector ----

  /** Every entry of an allocation between m and m + 1 lots: nearest rounding takes the upper
      one from half a lot on, a draw takes it exactly when it is below the fraction of the lot,
      and without a positive lot size nothing changes. */
  lemma DiscretizedEntry(target: seq<real>, lots: Lots, mode: Mode, i: nat, m: nat)
    requires (lots.PerAsset? ==> |lots.sizes| == |target|) && (mode.Random? ==> |mode.draws| == |target|)
    requires i < |target|
    ensures var nu, r := target[i], Discretize(target, lots, mode)[i];
      && (lots.NoLots? || lots.sizes[i] <= 0.0 ==> r == nu)
      && (lots.PerAsset? && lots.sizes[i] > 0.0 ==>
            var lot := lots.sizes[i];
            && (nu == 0.0 ==> r == 0.0)
            && (nu >= 0.0 ==> r >= 0.0)
            && (nu <= 0.0 ==> r <= 0.0)
            && (nu != 0.0 && Times(m as real, lot) <= Abs(nu) < Times(m as real + 1.0, lot) ==>
                  var rest := Abs(nu) - Times(m as real, lot);
                  var up := match mode
                    case Nearest => rest >= 0.5 * lot
                    case Random(draws) => rest > Times(draws[i], lot);
                  Abs(r) == Times(if up then m as real + 1.0 else m as real, lot)))
  {
    if lots.PerAsset? && lots.sizes[i] > 0.0 {
      hide Times, Over, Rounded;
      var nu, lot := target[i], lots.sizes[i];
      RoundedMagnitude(nu, lot, RoundsUp(nu, lot, mode, i));
      if nu != 0.0 && Times(m as real, lot) <= Abs(nu) < Times(m as real + 1.0, lot) {
        LotsBetween(nu, lot, m);
        RatioSplits(nu, lot);
        var p := RoundUpChance(nu, lot);
        HalfLot(lot);
        FactorOrder(p, 0.5, lot);
        if mode.Random? {
          FactorOrder(mode.draws[i], p, lot);
        }
      }
    }
  }

  lemma LotsBetween(nu: real, lot: real, m: nat)
    requires lot > 0.0 && Times(m as real, lot) <= Abs(nu) < Times(m as real + 1.0, lot)
    ensures LotRatio(nu, lot).Floor == m
  {
    hide Times, Over;
    var q := LotRatio(nu, lot);
    Quotient(Abs(nu), lot);
    TimesSym(q, lot);
    FactorOrder(q, m as real, lot);
    FactorOrder(q, m as real + 1.0, lot);
  }

  lemma FactorOrder(a: real, b: real, lot: real)
    requires lot > 0.0
    ensures a < b <==> Times(a, lot) < Times(b, lot)
  {
    TimesSym(a, lot);
    TimesSym(b, lot);
    if a < b {
      TimesStrict(lot, a, b);
    } else {
      TimesMonotone(lot, b, a);
    }
  }

  /** Nearest rounding adds at most half a lot per asset to any weighted exposure. */
  lemma WeightedExposure(c: seq<real>, target: seq<real>, sizes: seq<real>)
    requires |c| == |target| == |sizes| && NonNeg(c) && NonNeg(sizes)
    ensures var r := Discretize(target, PerAsset(sizes), Nearest);
      Dot(c, AbsOf(r)) <= Dot(c, AbsOf(target)) + 0.5 * Dot(c, sizes)
  {
    hide Times, Rounded, Sum, Mul, RoundsUp;
    var r := Discretize(target, PerAsset(sizes), Nearest);
    var half := Scale(0.5, sizes);
    var bound := Plus(AbsOf(target), half);
    forall i | 0 <= i < |c| ensures AbsOf(r)[i] <= bound[i] {
      HalfLot(sizes[i]);
      if sizes[i] > 0.0 {
        RoundedDistance(target[i], sizes[i], Nearest, i);
      }
    }
    DotMonotone(c, AbsOf(r), bound);
    DotSym(c, bound);
    DotSym(c, AbsOf(target));
    DotSym(c, sizes);
    DotAdd(AbsOf(target), half, bound, c);
    DotScale(0.5, sizes, half, c);
    HalfLot(Dot(sizes, c));
  }

  lemma HalfLot(x: real)
    ensures Times(0.5, x) == 0.5 * x
  {
  }

  /** A feasible allocation stays within half a lot per asset of both limits. */
  lemma {:induction false} DiscretizedWithinLimits(k: Limits, target: seq<real>, sizes: seq<real>)
    requires Feasible(k, target) && |sizes| == |target| && NonNeg(sizes) && NonNeg(k.c)
    ensures var r := Discretize(target, PerAsset(sizes), Nearest);
      && Norm1(r) <= k.b1 + 0.5 * Sum(sizes)
      && Dot(k.c, AbsOf(r)) <= k.b2 + 0.5 * Dot(k.c, sizes)
  {
    var r := Discretize(target, PerAsset(sizes), Nearest);
    WeightedExposure(k.c, target, sizes);
    WeightedExposure(Ones(|target|), target, sizes);
    Norm1AsDot(r);
    Norm1AsDot(target);
    DotOnes(sizes);
  }
}
