/** False-discovery-rate adjustment of a family of p-values, and the cohort screening
    that uses it.  The code sorts, scales by rank, takes a running minimum from the
    back and un-sorts; the specification knows neither ranks nor order: hypothesis i is
    rejected at level q when some threshold t at or above its p-value satisfies
    f * t <= q * #{j : p[j] <= t}. */
module FalseDiscovery {
  import opened Results
  import opened Vectors
  import opened Sorting

  /** How many entries are at most t. */
  function CountAtMost(p: seq<real>, t: real): (n: nat)
    ensures n <= |p|
  {
    if p == [] then 0 else CountAtMost(p[..|p| - 1], t) + if p[|p| - 1] <= t then 1 else 0
  }

  /** It is the number of their indexes. */
  lemma {:induction false} CountIsCardinality(p: seq<real>, t: real)
    ensures CountAtMost(p, t) == |set i: nat | i < |p| && p[i] <= t|
  {
    var all := set i: nat | i < |p| && p[i] <= t;
    if p != [] {
      var n := |p| - 1;
      CountIsCardinality(p[..n], t);
      var rest := set i: nat | i < n && p[..n][i] <= t;
      assert all == rest + if p[n] <= t then {n} else {};
    }
  }

  function Reciprocal(n: nat): real
    requires n > 0
  {
    Over(1.0, n as real)
  }

  /** 1, 1/2, ..., 1/m. */
  function Reciprocals(m: nat): (r: seq<real>)
    ensures |r| == m && forall i :: 0 <= i < m ==> r[i] == Reciprocal(i + 1)
  {
    seq(m, i requires 0 <= i < m => Reciprocal(i + 1))
  }

  /** The constant of the Yekutieli procedure. */
  function Harmonic(m: nat): real { Sum(Reciprocals(m)) }

  lemma HarmonicStep(m: nat)
    ensures Harmonic(0) == 0.0 && Harmonic(m + 1) == Harmonic(m) + Reciprocal(m + 1)
  {
    assert Reciprocals(m + 1)[..m] == Reciprocals(m);
    SumEmpty(Reciprocals(0));
  }

  lemma {:induction false} HarmonicAtLeastOne(m: nat)
    requires m >= 1
    ensures Harmonic(m) >= 1.0
  {
    hide Harmonic;
    HarmonicStep(m - 1);
    if m > 1 {
      HarmonicAtLeastOne(m - 1);
    }
  }

  function PowerOfTwo(k: nat): nat { if k == 0 then 1 else 2 * PowerOfTwo(k - 1) }

  /** From n to n + d every term lies between those of the two ends. */
  lemma {:induction false} HarmonicRange(n: nat, d: nat, lo: real, hi: real)
    requires forall i: nat :: n < i <= n + d ==> lo <= Reciprocal(i) <= hi
    ensures Harmonic(n) + Times(d as real, lo) <= Harmonic(n + d) <= Harmonic(n) + Times(d as real, hi)
  {
    hide Harmonic, Reciprocal;
    if d == 0 {
      TimesZero(lo);
      TimesZero(hi);
    } else {
      HarmonicRange(n, d - 1, lo, hi);
      HarmonicStep(n + d - 1);
      OneTimesMore(d, lo);
      OneTimesMore(d, hi);
    }
  }

  lemma OneTimesMore(d: nat, x: real)
    requires d > 0
    ensures Times(d as real, x) == Times((d - 1) as real, x) + x
  {
  }

  /** It grows like the logarithm: every doubling adds between a half and one. */
  lemma {:induction false} HarmonicGrowth(k: nat)
    ensures 1.0 + k as real / 2.0 <= Harmonic(PowerOfTwo(k)) <= 1.0 + k as real
  {
    hide Harmonic;
    if k == 0 {
      HarmonicStep(0);
    } else {
      var n := PowerOfTwo(k - 1);
      HarmonicGrowth(k - 1);
      PowerPositive(k - 1);
      forall i: nat | n < i <= n + n ensures Reciprocal(2 * n) <= Reciprocal(i) <= Reciprocal(n) {
        ReciprocalOrder(i, 2 * n);
        ReciprocalOrder(n, i);
      }
      HarmonicRange(n, n, Reciprocal(2 * n), Reciprocal(n));
      Quotient(1.0, n as real);
      HalfQuotient(n);
    }
  }

  lemma {:induction false} PowerPositive(k: nat)
    ensures PowerOfTwo(k) >= 1
  {
    if k > 0 {
      PowerPositive(k - 1);
    }
  }

  lemma ReciprocalOrder(a: nat, b: nat)
    requires 0 < a <= b
    ensures Reciprocal(b) <= Reciprocal(a)
  {
    var x, y := Over(1.0, b as real), Over(1.0, a as real);
    Quotient(1.0, a as real);
    Quotient(1.0, b as real);
    if x > y {
      TimesStrict(a as real, y, x);
      TimesSym(x, a as real);
      TimesSym(x, b as real);
      OverPositive(b as real);
      TimesMonotone(x, a as real, b as real);
    }
  }

  lemma OverPositive(b: real)
    requires b > 0.0
    ensures Over(1.0, b) > 0.0
  {
  }

  lemma HalfQuotient(n: nat)
    requires n > 0
    ensures Times(n as real, Over(1.0, (2 * n) as real)) == 0.5
  {
    Quotient(1.0, (2 * n) as real);
    assert Times((2 * n) as real, Over(1.0, (2 * n) as real))
        == 2.0 * Times(n as real, Over(1.0, (2 * n) as real));
  }

  datatype Procedure = BenjaminiHochberg | BenjaminiYekutieli

  /** The correction multiplying every p-value before the rank divides it. */
  function Factor(procedure: Procedure, m: nat): real {
    if procedure.BenjaminiYekutieli? then Times(m as real, Harmonic(m)) else m as real
  }

  lemma FactorAtLeastCount(procedure: Procedure, m: nat)
    ensures Factor(procedure, m) >= m as real
    ensures m >= 1 ==> Factor(procedure, m) > 0.0
    ensures Factor(BenjaminiHochberg, m) <= Factor(procedure, m)
  {
    hide Harmonic, Times;
    TimesOne(m as real);
    TimesZero(Harmonic(m));
    if m >= 1 {
      HarmonicAtLeastOne(m);
      TimesMonotone(m as real, 1.0, Harmonic(m));
    }
  }

  /** The threshold t is affordable at level q. */
  ghost predicate Affordable(p: seq<real>, f: real, q: real, t: real) {
    Times(f, t) <= Times(q, CountAtMost(p, t) as real)
  }

  /** The step-up rule, without sorting: the adjusted value is clipped into [0, 1],
      so every level from 1 up rejects everything and no negative level anything. */
  ghost predicate Rejected(p: seq<real>, f: real, q: real, i: nat)
    requires i < |p|
  {
    q >= 1.0 || (q >= 0.0 && exists t: real :: p[i] <= t && Affordable(p, f, q, t))
  }

  /** a[i] is the least level at which hypothesis i is rejected. */
  ghost predicate IsAdjusted(p: seq<real>, f: real, a: seq<real>) {
    && |a| == |p|
    && forall i: nat, q: real | i < |p| :: a[i] <= q <==> Rejected(p, f, q, i)
  }

  // ---- counting ----

  lemma {:induction false} CountMonotone(p: seq<real>, r: seq<real>, t: real, u: real)
    requires |p| == |r| && t <= u
    requires forall i :: 0 <= i < |p| ==> p[i] >= r[i]
    ensures CountAtMost(p, t) <= CountAtMost(r, u)
  {
    if p != [] {
      var n := |p| - 1;
      CountMonotone(p[..n], r[..n], t, u);
    }
  }

  lemma {:induction false} CountWithout(p: seq<real>, k: nat, t: real)
    requires k < |p|
    ensures CountAtMost(p, t) == CountAtMost(Without(p, k), t) + if p[k] <= t then 1 else 0
  {
    var n := |p| - 1;
    if k == n {
      assert Without(p, k) == p[..n];
    } else {
      CountWithout(p[..n], k, t);
      assert Without(p, k)[..n - 1] == Without(p[..n], k);
    }
  }

  lemma {:induction false} CountSameMultiset(p: seq<real>, r: seq<real>, t: real)
    requires multiset(p) == multiset(r)
    ensures CountAtMost(p, t) == CountAtMost(r, t)
    decreases |p|
  {
    if p == [] {
      assert |multiset(r)| == 0;
    } else {
      var n := |p| - 1;
      assert p[n] in multiset(p);
      assert p[n] in r;
      var k :| 0 <= k < |r| && r[k] == p[n];
      MultisetWithout(p, n);
      MultisetWithout(r, k);
      MultisetCancel(multiset(Without(p, n)), multiset(Without(r, k)), p[n]);
      CountWithout(p, n, t);
      CountWithout(r, k, t);
      CountSameMultiset(Without(p, n), Without(r, k), t);
    }
  }

  /** In an ascending list, the entries at most t are exactly the first CountAtMost. */
  lemma {:induction false} CountAscending(s: seq<real>, t: real, k: nat)
    requires Ascending(s) && k < |s|
    ensures s[k] <= t <==> k < CountAtMost(s, t)
  {
    var n := |s| - 1;
    if k < n {
      CountAscending(s[..n], t, k);
      if n >= 1 && s[n] <= t {
        assert s[..n][n - 1] <= t;
        CountAscending(s[..n], t, n - 1);
      }
    } else if n >= 1 {
      assert s[..n][n - 1] <= s[n];
      CountAscending(s[..n], t, n - 1);
    }
  }

  // ---- the computation ----

  /** For each place, the least entry from there to the end. */
  function SuffixMinima(s: seq<real>): (r: seq<real>)
    ensures |r| == |s|
    ensures forall k, j :: 0 <= k <= j < |s| ==> r[k] <= s[j]
    ensures forall k :: 0 <= k < |s| ==> r[k] in s[k..]
  {
    if s == [] then []
    else
      var rest := SuffixMinima(s[1..]);
      [if rest == [] then s[0] else Min(s[0], rest[0])] + rest
  }

  /** The entries scaled by f over their one-based rank. */
  function Scaled(sorted: seq<real>, f: real): (r: seq<real>)
    ensures |r| == |sorted|
    ensures forall k :: 0 <= k < |r| ==> r[k] == Times(sorted[k], Over(f, (k + 1) as real))
  {
    seq(|sorted|, k requires 0 <= k < |sorted| => Times(sorted[k], Over(f, (k + 1) as real)))
  }

  /** Scaling by rank and comparing with q is affording the threshold at that rank. */
  lemma ScaledAtMost(x: real, f: real, n: nat, q: real)
    requires n >= 1
    ensures Times(x, Over(f, n as real)) <= q <==> Times(f, x) <= Times(q, n as real)
  {
    var s := Times(x, Over(f, n as real));
    assert Times(n as real, s) == Times(f, x) by {
      Quotient(f, n as real);
      TimesSym(n as real, s);
      TimesAssoc(x, Over(f, n as real), n as real);
      TimesSym(f, x);
    }
    TimesSym(q, n as real);
    if s <= q {
      TimesMonotone(n as real, s, q);
    } else {
      TimesStrict(n as real, q, s);
    }
  }

  /** Rank k passes at level q. */
  ghost predicate RankPasses(sorted: seq<real>, f: real, q: real, k: nat)
    requires k < |sorted|
  {
    Times(sorted[k], Over(f, (k + 1) as real)) <= q
  }

  /** The order-free rule and the rank rule agree, whichever way the sort broke ties:
      the hypothesis at rank r is rejected exactly when some rank from r on passes. */
  lemma RejectedByRank(p: seq<real>, f: real, q: real, order: seq<nat>, r: nat)
    requires f > 0.0 && 0.0 <= q < 1.0
    requires IsPermutation(order, |p|) && Indexes(order, |p|) && Ascending(Gather(p, order))
    requires r < |order|
    ensures Rejected(p, f, q, order[r])
       <==> exists k: nat | r <= k < |order| :: RankPasses(Gather(p, order), f, q, k)
  {
    hide IsPermutation, Gather, Times, Over, CountAtMost, Ascending;
    var s := Gather(p, order);
    GatherPermuted(p, order);
    if k: nat :| r <= k < |order| && RankPasses(s, f, q, k) {
      PassingRankRejects(p, f, q, order, r, k);
    }
    if Rejected(p, f, q, order[r]) {
      var t: real :| p[order[r]] <= t && Affordable(p, f, q, t);
      var _ := RejectedHasPassingRank(p, f, q, order, r, t);
    }
  }

  lemma PassingRankRejects(p: seq<real>, f: real, q: real, order: seq<nat>, r: nat, k: nat)
    requires f > 0.0 && 0.0 <= q < 1.0
    requires IsPermutation(order, |p|) && Indexes(order, |p|) && Ascending(Gather(p, order))
    requires r <= k < |order| && RankPasses(Gather(p, order), f, q, k)
    ensures Rejected(p, f, q, order[r])
  {
    hide IsPermutation, Gather, Times, Over, CountAtMost;
    var s := Gather(p, order);
    var t := s[k];
    GatherPermuted(p, order);
    CountSameMultiset(s, p, t);
    CountAscending(s, t, k);
    ScaledAtMost(t, f, k + 1, q);
    TimesMonotone(q, (k + 1) as real, CountAtMost(p, t) as real);
    assert s[r] <= s[k];
    assert Affordable(p, f, q, t);
  }

  lemma RejectedHasPassingRank(p: seq<real>, f: real, q: real, order: seq<nat>, r: nat, t: real)
    returns (k: nat)
    requires f > 0.0 && 0.0 <= q < 1.0
    requires IsPermutation(order, |p|) && Indexes(order, |p|) && Ascending(Gather(p, order))
    requires r < |order| && p[order[r]] <= t && Affordable(p, f, q, t)
    ensures r <= k < |order| && RankPasses(Gather(p, order), f, q, k)
  {
    hide IsPermutation, Gather, Times, Over, CountAtMost;
    var s := Gather(p, order);
    GatherPermuted(p, order);
    PermutationIndexes(order, |p|);
    CountSameMultiset(s, p, t);
    CountAscending(s, t, r);
    k := CountAtMost(p, t) - 1;
    CountAscending(s, t, k);
    TimesMonotone(f, s[k], t);
    ScaledAtMost(s[k], f, k + 1, q);
  }

  /** Clipping the running minimum at rank r gives a value whose comparisons with
      every level are the step-up rule. */
  lemma ClippedMinimum(p: seq<real>, f: real, order: seq<nat>, r: nat, q: real)
    requires f > 0.0
    requires IsPermutation(order, |p|) && Indexes(order, |p|) && Ascending(Gather(p, order))
    requires r < |order|
    ensures Clip(SuffixMinima(Scaled(Gather(p, order), f))[r], 0.0, 1.0) <= q
       <==> Rejected(p, f, q, order[r])
  {
    hide IsPermutation, Gather, Times, Over, CountAtMost, Ascending, SuffixMinima, Scaled;
    var s := Gather(p, order);
    var w := Scaled(s, f);
    var m := SuffixMinima(w)[r];
    if 0.0 <= q < 1.0 {
      RejectedByRank(p, f, q, order, r);
      assert m in w[r..];
      var k: nat :| r <= k < |w| && w[k] == m;
      assert w[k] <= q <==> RankPasses(s, f, q, k);
      if j: nat :| r <= j < |order| && RankPasses(s, f, q, j) {
        assert m <= w[j];
      }
    }
  }

  /** The adjustment: sort, scale by rank, accumulate minima from the back, clip, and
      write the inverse of the sorting permutation to restore the input order. */
  method AdjustPValues(p: seq<real>, procedure: Procedure, q: real)
    returns (adjusted: seq<real>, significant: seq<bool>)
    ensures procedure.BenjaminiHochberg? ==> IsAdjusted(p, |p| as real, adjusted)
    ensures procedure.BenjaminiYekutieli? ==> IsAdjusted(p, Times(|p| as real, Sum(Reciprocals(|p|))), adjusted)
    ensures |significant| == |p|
    ensures forall i: nat | i < |p| :: significant[i] <==> adjusted[i] <= q
    ensures IsAdjusted(p, Factor(procedure, |p|), adjusted)
    ensures forall i: nat | i < |p| ::
      significant[i] <==> Rejected(p, Factor(procedure, |p|), q, i)
  {
    hide IsPermutation, Gather, Scaled, SuffixMinima, Ascending, CountAtMost, Times, Rejected;
    var m := |p|;
    if m == 0 {
      return [], [];
    }
    if m == 1 {
      adjusted := [Clip(p[0], 0.0, 1.0)];
      SingleAdjusted(p, procedure, adjusted);
    } else {
      var sortIdx := ArgSortAscending(p);
      var sortedP := Gather(p, sortIdx);
      PermutationIndexes(sortIdx, m);
      FactorAtLeastCount(procedure, m);
      var f := Factor(procedure, m);
      var lowest := SuffixMinima(Scaled(sortedP, f));
      var accumulated := seq(m, k requires 0 <= k < m => Clip(lowest[k], 0.0, 1.0));
      var originalIdx := new nat[m];
      forall k | 0 <= k < m {
        originalIdx[sortIdx[k]] := k;
      }
      InverseWritten(sortIdx, originalIdx[..]);
      adjusted := Gather(accumulated, originalIdx[..]);
      forall i: nat, level: real | i < m
        ensures adjusted[i] <= level <==> Rejected(p, f, level, i)
      {
        ClippedMinimum(p, f, sortIdx, originalIdx[i], level);
        assert adjusted[i] == accumulated[originalIdx[i]];
      }
    }
    significant := seq(m, i requires 0 <= i < m => adjusted[i] <= q);
  }

  lemma InverseWritten(order: seq<nat>, inverse: seq<nat>)
    requires IsPermutation(order, |inverse|) && Indexes(order, |inverse|) && |order| == |inverse|
    requires forall k :: 0 <= k < |order| ==> inverse[order[k]] == k
    ensures Indexes(inverse, |order|)
    ensures forall i :: 0 <= i < |inverse| ==> order[inverse[i]] == i
  {
    hide IsPermutation;
    PermutationIndexes(order, |inverse|);
    forall i | 0 <= i < |inverse| ensures inverse[i] < |order| && order[inverse[i]] == i {
      assert i in order;
      var k :| 0 <= k < |order| && order[k] == i;
    }
  }

  /** The early return for a single p-value agrees with the general rule. */
  lemma SingleAdjusted(p: seq<real>, procedure: Procedure, a: seq<real>)
    requires |p| == 1 && a == [Clip(p[0], 0.0, 1.0)]
    ensures IsAdjusted(p, Factor(procedure, 1), a)
  {
    hide Gather, Scaled, Rejected, IsPermutation;
    var f := Factor(procedure, 1);
    var order: seq<nat> := [0];
    assert order == Iota(1);
    assert IsPermutation(order, 1) by { SinglePermutation(); }
    var s := Gather(p, order);
    var w := Scaled(s, f);
    assert w[0] == p[0];
    assert SuffixMinima(w) == [p[0]];
    forall i: nat, q: real | i < 1 ensures a[i] <= q <==> Rejected(p, f, q, i) {
      ClippedMinimum(p, f, order, 0, q);
    }
  }

  lemma SinglePermutation()
    ensures IsPermutation([0], 1)
  {
    assert Iota(1) == [0];
  }

  // ---- what the adjustment promises ----

  /** The rule leaves exactly one adjusted vector: how ties were broken cannot show. */
  lemma AdjustedUnique(p: seq<real>, f: real, a: seq<real>, b: seq<real>)
    requires IsAdjusted(p, f, a) && IsAdjusted(p, f, b)
    ensures a == b
  {
    hide Rejected;
    forall i: nat | i < |p| ensures a[i] == b[i] {
      assert a[i] <= a[i] <==> Rejected(p, f, a[i], i);
      assert b[i] <= b[i] <==> Rejected(p, f, b[i], i);
    }
  }

  lemma RejectedAtOwnLevel(p: seq<real>, f: real, a: seq<real>, i: nat)
    requires IsAdjusted(p, f, a) && i < |p|
    ensures Rejected(p, f, a[i], i)
  {
    assert a[i] <= a[i];
  }

  lemma AdjustedInUnitInterval(p: seq<real>, f: real, a: seq<real>)
    requires IsAdjusted(p, f, a)
    ensures forall i :: 0 <= i < |a| ==> 0.0 <= a[i] <= 1.0
  {
    forall i: nat | i < |a| ensures 0.0 <= a[i] <= 1.0 {
      RejectedAtOwnLevel(p, f, a, i);
      assert Rejected(p, f, 1.0, i);
    }
  }

  /** Presenting the p-values in another order permutes the adjusted values alike. */
  lemma InputOrderIrrelevant(p: seq<real>, f: real, a: seq<real>, order: seq<nat>)
    requires IsAdjusted(p, f, a) && IsPermutation(order, |p|)
    ensures Indexes(order, |p|) && IsAdjusted(Gather(p, order), f, Gather(a, order))
  {
    hide IsPermutation, Gather, Times, CountAtMost;
    GatherPermuted(p, order);
    PermutationIndexes(order, |p|);
    var r := Gather(p, order);
    forall i: nat, q: real | i < |r|
      ensures Gather(a, order)[i] <= q <==> Rejected(r, f, q, i)
    {
      assert a[order[i]] <= q <==> Rejected(p, f, q, order[i]);
      forall t: real ensures Affordable(r, f, q, t) <==> Affordable(p, f, q, t) {
        CountSameMultiset(r, p, t);
      }
    }
  }

  /** Lowering p-values, all of them or some, never undoes a rejection. */
  lemma LoweringKeepsRejection(p: seq<real>, r: seq<real>, f: real, q: real, i: nat)
    requires |p| == |r| && AtMost(p, r) && i < |p|
    ensures Rejected(r, f, q, i) ==> Rejected(p, f, q, i)
  {
    hide Times, CountAtMost;
    if Rejected(r, f, q, i) && q < 1.0 {
      var t: real :| r[i] <= t && Affordable(r, f, q, t);
      CountMonotone(r, p, t, t);
      TimesMonotone(q, CountAtMost(r, t) as real, CountAtMost(p, t) as real);
      assert Affordable(p, f, q, t);
    }
  }

  /** Lowering p-values, all of them or some, never raises an adjusted value. */
  lemma LoweringNeverRaises(p: seq<real>, r: seq<real>, f: real, a: seq<real>, b: seq<real>)
    requires |p| == |r| && AtMost(p, r)
    requires IsAdjusted(p, f, a) && IsAdjusted(r, f, b)
    ensures AtMost(a, b)
  {
    hide Times, CountAtMost, IsAdjusted;
    assert |a| == |p| && |b| == |r| by { AdjustedLength(p, f, a); AdjustedLength(r, f, b); }
    forall i: nat | i < |p| ensures a[i] <= b[i] {
      RejectedAtOwnLevel(r, f, b, i);
      LoweringKeepsRejection(p, r, f, b[i], i);
      AdjustedAtMost(p, f, a, i, b[i]);
    }
  }

  lemma AdjustedLength(p: seq<real>, f: real, a: seq<real>)
    requires IsAdjusted(p, f, a)
    ensures |a| == |p|
  {
  }

  lemma AdjustedAtMost(p: seq<real>, f: real, a: seq<real>, i: nat, q: real)
    requires IsAdjusted(p, f, a) && i < |p| && Rejected(p, f, q, i)
    ensures a[i] <= q
  {
  }

  /** A smaller p-value never gets a larger adjusted value; equal ones get equal ones. */
  lemma OrderKept(p: seq<real>, f: real, a: seq<real>, i: nat, j: nat)
    requires IsAdjusted(p, f, a) && i < |p| && j < |p| && p[i] <= p[j]
    ensures a[i] <= a[j]
  {
    hide IsAdjusted, Affordable;
    AdjustedLength(p, f, a);
    RejectedAtOwnLevel(p, f, a, j);
    AdjustedAtMost(p, f, a, i, a[j]);
  }

  /** Adjustment never lowers a p-value that is at most 1, and only those. */
  lemma NeverBelowRaw(p: seq<real>, f: real, a: seq<real>, i: nat)
    requires f >= |p| as real && IsAdjusted(p, f, a) && i < |p|
    ensures a[i] >= p[i] <==> p[i] <= 1.0
  {
    hide Times, CountAtMost, IsAdjusted;
    AdjustedLength(p, f, a);
    AdjustedInUnitInterval(p, f, a);
    RejectedAtOwnLevel(p, f, a, i);
    var q := a[i];
    if q < 1.0 && p[i] > q {
      var t: real :| p[i] <= t && Affordable(p, f, q, t);
      var m := |p| as real;
      TimesMonotone(q, CountAtMost(p, t) as real, m);
      TimesMonotone(t, m, f);
      TimesStrict(m, q, t);
      TimesSym(t, m);
      TimesSym(t, f);
      TimesSym(q, m);
      assert false;
    }
  }

  /** A larger correction factor gives larger adjusted values: Benjamini-Yekutieli is
      at least Benjamini-Hochberg everywhere. */
  lemma LargerFactorAdjustsMore(p: seq<real>, f: real, g: real, a: seq<real>, b: seq<real>)
    requires 0.0 <= f <= g && IsAdjusted(p, f, a) && IsAdjusted(p, g, b)
    ensures |a| == |b| && AtMost(a, b)
  {
    hide Times, CountAtMost, IsAdjusted;
    assert |a| == |p| && |b| == |p| by { AdjustedLength(p, f, a); AdjustedLength(p, g, b); }
    forall i: nat | i < |p| ensures a[i] <= b[i] {
      RejectedAtOwnLevel(p, g, b, i);
      var q := b[i];
      if q < 1.0 {
        var t: real :| p[i] <= t && Affordable(p, g, q, t);
        SmallerFactorAffords(p, f, g, q, t);
      }
      AdjustedAtMost(p, f, a, i, q);
    }
  }

  lemma SmallerFactorAffords(p: seq<real>, f: real, g: real, q: real, t: real)
    requires 0.0 <= f <= g && q >= 0.0 && Affordable(p, g, q, t)
    ensures Affordable(p, f, q, t)
  {
    hide Times, CountAtMost;
    NonNegProduct(q, CountAtMost(p, t) as real);
    TimesSym(f, t);
    TimesSym(g, t);
    if t >= 0.0 {
      TimesMonotone(t, f, g);
    } else {
      TimesMonotone(f, t, 0.0);
      TimesZero(f);
    }
  }

  lemma YekutieliAtLeastHochberg(p: seq<real>, a: seq<real>, b: seq<real>)
    requires IsAdjusted(p, Factor(BenjaminiHochberg, |p|), a)
    requires IsAdjusted(p, Factor(BenjaminiYekutieli, |p|), b)
    ensures |a| == |b| && AtMost(a, b)
  {
    hide IsAdjusted;
    FactorAtLeastCount(BenjaminiYekutieli, |p|);
    LargerFactorAdjustsMore(p, Factor(BenjaminiHochberg, |p|), Factor(BenjaminiYekutieli, |p|), a, b);
  }

  /** The largest passing one-based rank, or 0. */
  ghost function LargestPassing(sorted: seq<real>, f: real, q: real, n: nat): (k: nat)
    requires n <= |sorted|
    ensures k <= n
    ensures forall j: nat | k <= j < n :: !RankPasses(sorted, f, q, j)
    ensures k > 0 ==> RankPasses(sorted, f, q, k - 1)
  {
    if n == 0 then 0
    else if RankPasses(sorted, f, q, n - 1) then n
    else LargestPassing(sorted, f, q, n - 1)
  }

  /** The step-up rule as it is usually stated: the adjusted value is at most q exactly
      when the rank is at most the largest k with p(k) * f / k <= q. */
  lemma {:induction false} StepUpRule(p: seq<real>, f: real, a: seq<real>, q: real, order: seq<nat>, r: nat)
    requires f > 0.0 && 0.0 <= q < 1.0 && IsAdjusted(p, f, a)
    requires IsPermutation(order, |p|) && Indexes(order, |p|) && Ascending(Gather(p, order))
    requires r < |order|
    ensures a[order[r]] <= q <==> r + 1 <= LargestPassing(Gather(p, order), f, q, |order|)
  {
    hide IsPermutation, Gather, Ascending, Rejected, RankPasses;
    RejectedByRank(p, f, q, order, r);
    assert a[order[r]] <= q <==> Rejected(p, f, q, order[r]);
    var k := LargestPassing(Gather(p, order), f, q, |order|);
    if r < k {
      assert RankPasses(Gather(p, order), f, q, k - 1);
    }
  }

  // ---- cohort screening ----

  /** What the individual evaluation of one candidate reports. */
  datatype Evaluation = Evaluation(psr: real, significant: bool, status: string)

  const CERTIFIED := "COHORT_FDR_CERTIFIED"
  const REJECTED := "FDR_REJECTED"

  /** The p-value of a candidate against its benchmark. */
  function PValue(e: Evaluation): real { Max(0.0, 1.0 - e.psr) }

  function PValues(cohort: seq<Evaluation>): (p: seq<real>)
    ensures |p| == |cohort|
    ensures forall i :: 0 <= i < |p| ==> p[i] == if cohort[i].psr < 1.0 then 1.0 - cohort[i].psr else 0.0
  {
    seq(|cohort|, i requires 0 <= i < |cohort| => PValue(cohort[i]))
  }

  /** Candidate i clears the cohort: on its own merit and, when it has company, under
      the false-discovery rule. */
  ghost predicate Certified(cohort: seq<Evaluation>, procedure: Procedure, q: real, i: nat)
    requires i < |cohort|
  {
    cohort[i].significant
    && (|cohort| == 1 || Discovered(PValues(cohort), procedure, q, i))
  }

  /** The false-discovery rule rejects hypothesis i at level q. */
  ghost predicate Discovered(p: seq<real>, procedure: Procedure, q: real, i: nat)
    requires i < |p|
  {
    match procedure
    case BenjaminiHochberg => Rejected(p, |p| as real, q, i)
    case BenjaminiYekutieli => Rejected(p, Times(|p| as real, Sum(Reciprocals(|p|))), q, i)
  }

  /** The screening loop over already evaluated candidates. */
  method ScreenCohort(cohort: seq<Evaluation>, procedure: Procedure, q: real)
    returns (screened: seq<Evaluation>)
    ensures |screened| == |cohort|
    ensures forall i: nat | i < |cohort| ::
      && screened[i].psr == cohort[i].psr
      && (screened[i].significant <==> Certified(cohort, procedure, q, i))
    ensures |cohort| == 1 ==> screened == cohort
    ensures |cohort| != 1 ==> forall i: nat | i < |cohort| ::
      && (screened[i].significant ==> screened[i].status == "COHORT_FDR_CERTIFIED")
      && (cohort[i].significant && !screened[i].significant ==> screened[i].status == "FDR_REJECTED")
      && (!cohort[i].significant ==> screened[i].status == cohort[i].status)
  {
    hide Rejected, IsAdjusted, Factor, Discovered;
    if |cohort| <= 1 {
      return cohort;
    }
    var pValues: seq<real> := [];
    for i := 0 to |cohort|
      invariant pValues == PValues(cohort[..i])
    {
      pValues := pValues + [PValue(cohort[i])];
    }
    assert cohort[..|cohort|] == cohort;
    var _, mask := AdjustPValues(pValues, procedure, q);
    MaskDiscovers(pValues, procedure, q);
    screened := [];
    for i := 0 to |cohort|
      invariant |screened| == i
      invariant forall k: nat | k < i ::
        && screened[k].psr == cohort[k].psr
        && (screened[k].significant <==> Certified(cohort, procedure, q, k))
        && (screened[k].significant ==> screened[k].status == CERTIFIED)
        && (cohort[k].significant && !screened[k].significant ==> screened[k].status == REJECTED)
        && (!cohort[k].significant ==> screened[k].status == cohort[k].status)
    {
      var both := cohort[i].significant && mask[i];
      screened := screened + [cohort[i].(
        significant := both,
        status := if both then CERTIFIED else if cohort[i].significant then REJECTED else cohort[i].status)];
    }
  }

  lemma MaskDiscovers(p: seq<real>, procedure: Procedure, q: real)
    ensures forall i: nat | i < |p| :: Discovered(p, procedure, q, i) <==> Rejected(p, Factor(procedure, |p|), q, i)
  {
    hide Rejected, Sum;
  }

  /** Two p-values, 0.02 and 0.9, at level 0.05: the Hochberg procedure makes a discovery that
      the Yekutieli procedure, which multiplies by 1 + 1/2 as well, withholds. */
  method YekutieliWithholds() returns (hochberg: seq<bool>, yekutieli: seq<bool>)
    ensures hochberg == [true, false] && yekutieli == [false, false]
  {
    hide Harmonic, Factor, Reciprocals;
    var p := [0.02, 0.9];
    var a, b;
    a, hochberg := AdjustPValues(p, BenjaminiHochberg, 0.05);
    b, yekutieli := AdjustPValues(p, BenjaminiYekutieli, 0.05);
    TwoFactors();
    TwoRejected(p, 2.0, 0.05);
    TwoRejected(p, 3.0, 0.05);
  }

  lemma TwoFactors()
    ensures Factor(BenjaminiHochberg, 2) == 2.0 && Factor(BenjaminiYekutieli, 2) == 3.0
  {
    hide Harmonic;
    HarmonicStep(0);
    HarmonicStep(1);
  }

  lemma TwoRejected(p: seq<real>, f: real, q: real)
    requires p == [0.02, 0.9] && q == 0.05 && f > 0.0
    ensures Rejected(p, f, q, 0) <==> Times(f, 0.02) <= 0.05 || Times(f, 0.9) <= 0.1
    ensures Rejected(p, f, q, 1) <==> Times(f, 0.9) <= 0.1
  {
    hide Times;
    forall t: real ensures CountAtMost(p, t) == (if 0.02 <= t then 1 else 0) + if 0.9 <= t then 1 else 0 {
      assert p[..1] == [0.02] && p[..1][..0] == [];
    }
    assert Times(q, 1.0) == 0.05 && Times(q, 2.0) == 0.1 by { ExactProducts(); }
    forall t: real | 0.02 <= t ensures Times(f, 0.02) <= Times(f, t) && (0.9 <= t ==> Times(f, 0.9) <= Times(f, t)) {
      TimesMonotone(f, 0.02, t);
      if 0.9 <= t {
        TimesMonotone(f, 0.9, t);
      }
    }
    if Times(f, 0.02) <= 0.05 {
      assert Affordable(p, f, q, 0.02);
    }
    if Times(f, 0.9) <= 0.1 {
      assert Affordable(p, f, q, 0.9);
    }
  }

  lemma ExactProducts()
    ensures Times(0.05, 1.0) == 0.05 && Times(0.05, 2.0) == 0.1
  {
  }

  /** Better candidates anywhere in the cohort never cost a candidate its certificate,
      as long as it stays individually significant. */
  lemma BetterCohortKeepsCertificates(cohort: seq<Evaluation>, better: seq<Evaluation>, procedure: Procedure, q: real,
                                      i: nat)
    requires |cohort| == |better| && i < |cohort|
    requires forall k :: 0 <= k < |cohort| ==> cohort[k].psr <= better[k].psr
    requires Certified(cohort, procedure, q, i) && better[i].significant
    ensures Certified(better, procedure, q, i)
  {
    hide Rejected, Factor, Discovered;
    if |cohort| != 1 {
      MaskDiscovers(PValues(cohort), procedure, q);
      MaskDiscovers(PValues(better), procedure, q);
      LoweringKeepsRejection(PValues(better), PValues(cohort), Factor(procedure, |cohort|), q, i);
    }
  }

  // ---- effective number of trials ----

  datatype ShapeError = NotSquare

  predicate Square(c: seq<seq<real>>) { forall i :: 0 <= i < |c| ==> |c[i]| == |c| }

  /** The squared Frobenius norm. */
  function SumOfSquares(c: seq<seq<real>>): real {
    Sum(seq(|c|, i requires 0 <= i < |c| => Dot(c[i], c[i])))
  }

  function EffectiveTrials(c: seq<seq<real>>): Result<real, ShapeError> {
    if !Square(c) then Err(NotSquare)
    else if |c| <= 1 then Ok(1.0)
    else
      var k := |c| as real;
      var s := SumOfSquares(c);
      if s <= 0.0 then Ok(k) else Ok(Clip(Over(Times(k, k), s), 1.0, k))
  }

  /** A correlation matrix: unit diagonal, entries in [-1, 1]. */
  ghost predicate Correlation(c: seq<seq<real>>) {
    && Square(c)
    && (forall i :: 0 <= i < |c| ==> c[i][i] == 1.0)
    && forall i, j :: 0 <= i < |c| && 0 <= j < |c| ==> -1.0 <= c[i][j] <= 1.0
  }

  /** Every off-diagonal correlation vanishes. */
  ghost predicate Uncorrelated(c: seq<seq<real>>)
    requires Square(c)
  {
    forall i, j :: 0 <= i < |c| && 0 <= j < |c| && i != j ==> c[i][j] == 0.0
  }

  /** Every correlation is perfect, with either sign. */
  ghost predicate FullyCorrelated(c: seq<seq<real>>)
    requires Square(c)
  {
    forall i, j :: 0 <= i < |c| && 0 <= j < |c| ==> Times(c[i][j], c[i][j]) == 1.0
  }

  lemma RowSquares(row: seq<real>, d: nat)
    requires d < |row| && row[d] == 1.0
    requires forall j :: 0 <= j < |row| ==> -1.0 <= row[j] <= 1.0
    ensures 1.0 <= Dot(row, row) <= |row| as real
    ensures Dot(row, row) == 1.0 <==> forall j :: 0 <= j < |row| && j != d ==> row[j] == 0.0
    ensures Dot(row, row) == |row| as real <==> forall j :: 0 <= j < |row| ==> Times(row[j], row[j]) == 1.0
  {
    hide Sum;
    var n := |row|;
    var squares, ones := Mul(row, row), Const(n, 1.0);
    var unit := seq(n, j => if j == d then 1.0 else 0.0);
    forall j | 0 <= j < n ensures unit[j] <= squares[j] <= 1.0 && (squares[j] == 0.0 <==> row[j] == 0.0) {
      UnitSquare(row[j]);
    }
    SumConst(n, 1.0);
    assert Times(n as real, 1.0) == n as real;
    UnitSum(unit, d);
    SumLe(unit, squares);
    SumLe(squares, ones);
    if j :| 0 <= j < n && j != d && row[j] != 0.0 {
      SumLeStrict(unit, squares, j);
    } else {
      assert squares == unit;
    }
    if j :| 0 <= j < n && Times(row[j], row[j]) != 1.0 {
      SumLeStrict(squares, ones, j);
    } else {
      assert squares == ones;
    }
  }

  lemma UnitSquare(x: real)
    requires -1.0 <= x <= 1.0
    ensures 0.0 <= Times(x, x) <= 1.0
    ensures Times(x, x) == 0.0 <==> x == 0.0
  {
    SquarePositive(x);
    assert (1.0 - x) * (1.0 + x) == 1.0 - x * x;
    NonNegProduct(1.0 - x, 1.0 + x);
  }

  lemma {:induction false} UnitSum(unit: seq<real>, d: nat)
    requires d < |unit|
    requires forall j :: 0 <= j < |unit| ==> unit[j] == if j == d then 1.0 else 0.0
    ensures Sum(unit) == 1.0
  {
    SumWithout(unit, d);
    SumOfZeros(Without(unit, d));
  }

  /** For a correlation matrix the clip never acts: K^2 over the squared norm already
      lies between 1 and K; it is K exactly for uncorrelated trials and 1 exactly for
      perfectly correlated ones. */
  lemma EffectiveTrialsMeaning(c: seq<seq<real>>)
    requires Correlation(c) && |c| >= 2
    ensures EffectiveTrials(c).Ok?
    ensures SumOfSquares(c) > 0.0
    ensures var k := EffectiveTrials(c).value;
      && k == Over(Times(|c| as real, |c| as real), SumOfSquares(c))
      && 1.0 <= k <= |c| as real
      && (k == |c| as real <==> Uncorrelated(c))
      && (k == 1.0 <==> FullyCorrelated(c))
  {
    hide Sum, Times, Dot;
    var n := |c|;
    var k := n as real;
    var rows := seq(n, i requires 0 <= i < n => Dot(c[i], c[i]));
    forall i | 0 <= i < n
      ensures 1.0 <= rows[i] <= k
      ensures rows[i] == 1.0 <==> forall j :: 0 <= j < n && j != i ==> c[i][j] == 0.0
      ensures rows[i] == k <==> forall j :: 0 <= j < n ==> Times(c[i][j], c[i][j]) == 1.0
    {
      RowSquares(c[i], i);
    }
    var ones, full := Const(n, 1.0), Const(n, k);
    SumConst(n, 1.0);
    SumConst(n, k);
    SumLe(ones, rows);
    SumLe(rows, full);
    if !Uncorrelated(c) {
      var i :| 0 <= i < n && rows[i] != 1.0;
      SumLeStrict(ones, rows, i);
    } else {
      assert rows == ones;
    }
    if !FullyCorrelated(c) {
      var i :| 0 <= i < n && rows[i] != k;
      SumLeStrict(rows, full, i);
    } else {
      assert rows == full;
    }
    assert Times(k, 1.0) == k by { TimesOne(k); }
    SquareRatio(k, Sum(rows));
  }

  /** n equally correlated trials count as n / (1 + (n - 1) r^2). */
  lemma EquicorrelatedTrials(c: seq<seq<real>>, r: real)
    requires Square(c) && |c| >= 2 && -1.0 <= r <= 1.0
    requires forall i, j :: 0 <= i < |c| && 0 <= j < |c| ==> c[i][j] == if i == j then 1.0 else r
    ensures EffectiveTrials(c).Ok?
    ensures Times(EffectiveTrials(c).value, 1.0 + Times((|c| - 1) as real, Times(r, r))) == |c| as real
  {
    hide Sum, Times, Dot;
    var n := |c|;
    var s := 1.0 + Times((n - 1) as real, Times(r, r));
    var rows := seq(n, i requires 0 <= i < n => Dot(c[i], c[i]));
    forall i | 0 <= i < n ensures rows[i] == s {
      EquicorrelatedRow(c[i], i, r);
    }
    SumConst(n, s);
    assert rows == Const(n, s);
    assert Correlation(c);
    EffectiveTrialsMeaning(c);
    assert SumOfSquares(c) == Times(n as real, s);
    RatioOfProducts(n as real, s);
  }

  lemma EquicorrelatedRow(row: seq<real>, d: nat, r: real)
    requires d < |row| && forall j :: 0 <= j < |row| ==> row[j] == if j == d then 1.0 else r
    ensures Dot(row, row) == 1.0 + Times((|row| - 1) as real, Times(r, r))
  {
    hide Sum, Times;
    var n := |row|;
    var rr := Times(r, r);
    var unit := seq(n, j => if j == d then 1.0 else 0.0);
    UnitSum(unit, d);
    SumConst(n, rr);
    SumLinear(1.0 - rr, unit, 1.0, Const(n, rr), Mul(row, row)) by {
      forall j | 0 <= j < n ensures Mul(row, row)[j] == Times(1.0 - rr, unit[j]) + Times(1.0, Const(n, rr)[j]) {
        TimesOne(1.0 - rr);
        TimesZero(1.0 - rr);
        TimesOne(rr);
        TimesOne(1.0);
        TimesSym(1.0, rr);
      }
    }
    TimesOne(1.0 - rr);
    TimesOne(Times(n as real, rr));
    TimesSym(1.0, Times(n as real, rr));
    OneFewer(n, rr);
  }

  lemma OneFewer(n: nat, x: real)
    requires n >= 1
    ensures (1.0 - x) + Times(n as real, x) == 1.0 + Times((n - 1) as real, x)
  {
  }

  lemma RatioOfProducts(n: real, s: real)
    requires n > 0.0 && Times(n, s) > 0.0
    ensures Times(Over(Times(n, n), Times(n, s)), s) == n
  {
    var k := Over(n * n, n * s);
    Quotient(n * n, n * s);
    assert (n * s) * k == n * n;
    assert n * (k * s - n) == 0.0;
  }

  /** Fewer than two trials count as one, no count leaves [1, K], and only a square matrix
      is accepted. */
  lemma EffectiveTrialsRange(c: seq<seq<real>>)
    ensures EffectiveTrials(c).Ok? <==> forall i :: 0 <= i < |c| ==> |c[i]| == |c|
    ensures EffectiveTrials(c).Ok? && |c| < 2 ==> EffectiveTrials(c).value == 1.0
    ensures EffectiveTrials(c).Ok? && |c| >= 2 ==> 1.0 <= EffectiveTrials(c).value <= |c| as real
  {
  }

  lemma SquareRatio(k: real, s: real)
    requires 2.0 <= k <= s <= Times(k, k)
    ensures 1.0 <= Over(Times(k, k), s) <= k
    ensures Over(Times(k, k), s) == k <==> s == k
    ensures Over(Times(k, k), s) == 1.0 <==> s == Times(k, k)
  {
    var kk := Times(k, k);
    var r := Over(kk, s);
    Quotient(kk, s);
    if r < 1.0 {
      TimesStrict(s, r, 1.0);
    }
    if r > k {
      TimesStrict(s, k, r);
      TimesMonotone(k, k, s);
      TimesSym(k, s);
    }
    if r == k {
      assert (s - k) * k == 0.0;
    }
  }
}
