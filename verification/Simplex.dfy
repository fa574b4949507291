/** Probability vectors: normalising, mixing and flooring them, and how many models a
    weighting effectively uses. */
module Simplex {
  import opened Vectors

  ghost predicate IsSimplex(w: seq<real>) { |w| >= 1 && NonNeg(w) && Sum(w) == 1.0 }

  function Normalise(v: seq<real>): (r: seq<real>)
    requires Sum(v) > 0.0
    ensures |r| == |v| && forall i :: 0 <= i < |v| ==> r[i] == Over(v[i], Sum(v))
  {
    seq(|v|, i requires 0 <= i < |v| => Over(v[i], Sum(v)))
  }

  function Uniform(k: nat): (r: seq<real>)
    requires k >= 1
    ensures |r| == k && forall i :: 0 <= i < k ==> r[i] == Over(1.0, k as real)
  {
    Const(k, Over(1.0, k as real))
  }

  /** (1 - l) * a + l * b. */
  function Mix(l: real, a: seq<real>, b: seq<real>): (r: seq<real>)
    requires |a| == |b|
    ensures |r| == |a| && forall i :: 0 <= i < |a| ==> r[i] == Times(1.0 - l, a[i]) + Times(l, b[i])
  {
    seq(|a|, i requires 0 <= i < |a| => Times(1.0 - l, a[i]) + Times(l, b[i]))
  }

  /** The largest entry. */
  function MaxOf(v: seq<real>): (m: real)
    requires |v| >= 1
    ensures m in v
    ensures forall i :: 0 <= i < |v| ==> v[i] <= m
  {
    if |v| == 1 then v[0] else Max(MaxOf(v[..|v| - 1]), v[|v| - 1])
  }

  lemma {:induction false} PositiveSum(v: seq<real>)
    requires |v| >= 1 && Positive(v)
    ensures Sum(v) > 0.0
  {
    SumConst(|v|, 0.0);
    TimesZero(|v| as real);
    SumLeStrict(Const(|v|, 0.0), v, 0);
  }

  lemma OverSign(a: real, k: real)
    requires k > 0.0
    ensures a >= 0.0 ==> Over(a, k) >= 0.0
    ensures a > 0.0 ==> Over(a, k) > 0.0
  {
  }

  lemma OverOne(a: real)
    ensures Over(a, 1.0) == a
  {
  }

  lemma {:induction false} SumOver(v: seq<real>, k: real, r: seq<real>)
    requires k > 0.0 && |r| == |v| && forall i :: 0 <= i < |v| ==> r[i] == Over(v[i], k)
    ensures Sum(r) == Over(Sum(v), k)
  {
    if v != [] {
      var n := |v| - 1;
      SumOver(v[..n], k, r[..n]);
    }
  }

  lemma {:induction false} NormaliseSimplex(v: seq<real>)
    requires |v| >= 1 && NonNeg(v) && Sum(v) > 0.0
    ensures IsSimplex(Normalise(v))
    ensures Positive(v) ==> Positive(Normalise(v))
    ensures Sum(v) == 1.0 ==> Normalise(v) == v
  {
    hide Sum, Over, Normalise;
    var r := Normalise(v);
    SumOver(v, Sum(v), r);
    assert Over(Sum(v), Sum(v)) == 1.0 by { OverSelf(Sum(v)); }
    forall i | 0 <= i < |v|
      ensures r[i] >= 0.0 && (v[i] > 0.0 ==> r[i] > 0.0) && (Sum(v) == 1.0 ==> r[i] == v[i])
    {
      OverSign(v[i], Sum(v));
      OverOne(v[i]);
    }
  }

  lemma OverSelf(k: real)
    requires k > 0.0
    ensures Over(k, k) == 1.0
  {
  }

  lemma UniformSimplex(k: nat)
    requires k >= 1
    ensures IsSimplex(Uniform(k)) && Positive(Uniform(k))
  {
    SumConst(k, Over(1.0, k as real));
    Quotient(1.0, k as real);
  }

  lemma MixSimplex(l: real, a: seq<real>, b: seq<real>)
    requires 0.0 <= l <= 1.0 && |a| == |b| && IsSimplex(a) && IsSimplex(b)
    ensures IsSimplex(Mix(l, a, b))
    ensures Normalise(Mix(l, a, b)) == Mix(l, a, b)
  {
    hide Sum, Times, Mix, Normalise;
    var r := Mix(l, a, b);
    SumLinear(1.0 - l, a, l, b, r);
    assert Times(1.0 - l, 1.0) + Times(l, 1.0) == 1.0 by { Distribute1(l); }
    forall i | 0 <= i < |r| ensures r[i] >= 0.0 {
      NonNegProduct(1.0 - l, a[i]);
      NonNegProduct(l, b[i]);
    }
    NormaliseSimplex(r);
  }

  lemma Distribute1(l: real)
    ensures Times(1.0 - l, 1.0) + Times(l, 1.0) == 1.0
  {
  }

  // ---- the Laplace floor ----

  /** The floor in force: the configured one, or half the uniform share when the
      configured one would not fit. */
  function Floor(eps: real, k: nat): (e: real)
    requires eps > 0.0 && k >= 1
    ensures e > 0.0 && Times(k as real, e) < 1.0
    ensures Times(eps, k as real) < 1.0 ==> e == eps
    ensures Times(eps, k as real) >= 1.0 ==> Times(k as real, e) == 0.5
  {
    TimesSym(eps, k as real);
    Quotient(0.5, k as real);
    if Times(eps, k as real) >= 1.0 then Over(0.5, k as real) else eps
  }

  /** (1 - K * e) * w + e at every entry. */
  function Raise(e: real, w: seq<real>): (r: seq<real>)
    ensures |r| == |w| && forall i :: 0 <= i < |w| ==> r[i] == Times(1.0 - Times(|w| as real, e), w[i]) + e
  {
    seq(|w|, i requires 0 <= i < |w| => Times(1.0 - Times(|w| as real, e), w[i]) + e)
  }

  /** The floored vector, renormalised as the source does it. */
  function Laplace(e: real, w: seq<real>): (r: seq<real>)
    requires Sum(Raise(e, w)) > 0.0
    ensures |r| == |w|
  {
    Normalise(Raise(e, w))
  }

  /** Flooring a probability vector mixes in K * e of the uniform one; the sum is
      already 1, so the renormalisation changes nothing and every entry keeps the floor. */
  lemma LaplaceMixesUniform(e: real, w: seq<real>)
    requires e > 0.0 && Times(|w| as real, e) < 1.0 && IsSimplex(w)
    ensures Sum(Raise(e, w)) == 1.0
    ensures Laplace(e, w) == Raise(e, w) == Mix(Times(|w| as real, e), w, Uniform(|w|))
    ensures IsSimplex(Laplace(e, w))
    ensures forall i :: 0 <= i < |w| ==> Laplace(e, w)[i] >= e
  {
    hide Sum, Times, Mix, Normalise, Raise, Uniform;
    var k := |w| as real;
    var l := Times(k, e);
    var r := Raise(e, w);
    PositiveProduct(k, e);
    forall i | 0 <= i < |w| ensures r[i] == Mix(l, w, Uniform(|w|))[i] && r[i] >= e {
      ShareOfFloor(k, e);
      NonNegProduct(1.0 - l, w[i]);
    }
    assert r == Mix(l, w, Uniform(|w|));
    UniformSimplex(|w|);
    MixSimplex(l, w, Uniform(|w|));
  }

  lemma ShareOfFloor(k: real, e: real)
    requires k >= 1.0
    ensures Times(Times(k, e), Over(1.0, k)) == e
  {
    Quotient(1.0, k);
    assert Times(Times(k, e), Over(1.0, k)) == Times(e, Times(k, Over(1.0, k)));
  }

  // ---- vertices ----

  /** All weight on model k. */
  function Vertex(n: nat, k: nat): (e: seq<real>)
    ensures |e| == n && forall j :: 0 <= j < n ==> e[j] == if j == k then 1.0 else 0.0
  {
    seq(n, j => if j == k then 1.0 else 0.0)
  }

  lemma VertexDot(x: seq<real>, k: nat)
    requires k < |x|
    ensures Dot(x, Vertex(|x|, k)) == x[k]
  {
    hide Sum, Times;
    var m := Mul(x, Vertex(|x|, k));
    forall j | 0 <= j < |x| ensures m[j] == if j == k then x[k] else 0.0 {
      TimesOne(x[j]);
      TimesZero(x[j]);
    }
    var l, r := m[..k], m[k + 1..];
    SumOfZeros(l);
    SumOfZeros(r);
    SumConcat(l, [m[k]]);
    SumConcat(l + [m[k]], r);
    SumSingle(m[k]);
    assert m == l + [m[k]] + r;
  }

  lemma VertexSimplex(n: nat, k: nat)
    requires k < n
    ensures IsSimplex(Vertex(n, k))
  {
    hide Sum, Times;
    var one := Const(n, 1.0);
    VertexDot(one, k);
    forall j | 0 <= j < n ensures Mul(one, Vertex(n, k))[j] == Vertex(n, k)[j] {
      TimesOne(Vertex(n, k)[j]);
    }
    assert Mul(one, Vertex(n, k)) == Vertex(n, k);
  }

  // ---- how many models a weighting uses ----

  function EffectiveModels(w: seq<real>): real
    requires Dot(w, w) > 0.0
  {
    Over(1.0, Dot(w, w))
  }

  /** The squared distance to the uniform vector is the excess of the squared weights
      over 1/K. */
  lemma SpreadFromUniform(w: seq<real>)
    requires IsSimplex(w)
    ensures Dot(w, w) == Over(1.0, |w| as real) + Dist2(w, Uniform(|w|))
  {
    hide Sum, Times, Mul, Over, Uniform;
    var k := |w| as real;
    var u := Uniform(|w|);
    var o := Const(|w|, 0.0);
    UniformSimplex(|w|);
    Cosine(w, u, o);
    DotWithConstant(Minus(w, u), Minus(o, u), -Over(1.0, k));
    SumAdd(u, Minus(w, u), w);
    TimesZero(-Over(1.0, k));
    assert Minus(w, o) == w && Minus(u, o) == u;
    DotWithConstant(u, u, Over(1.0, k));
    assert Times(Over(1.0, k), 1.0) == Over(1.0, k) by { TimesOne(Over(1.0, k)); }
  }

  lemma {:induction false} DotWithConstant(x: seq<real>, c: seq<real>, a: real)
    requires |c| == |x| && forall i :: 0 <= i < |c| ==> c[i] == a
    ensures Dot(x, c) == Times(a, Sum(x))
  {
    hide Sum, Times;
    forall i | 0 <= i < |x| ensures Mul(x, c)[i] == Times(a, x[i]) {
      TimesSym(a, x[i]);
    }
    SumScale(a, x, Mul(x, c));
  }

  /** Between one model and all of them; all of them exactly when the weights are equal. */
  lemma EffectiveModelsInRange(w: seq<real>)
    requires IsSimplex(w)
    ensures Dot(w, w) > 0.0
    ensures 1.0 <= EffectiveModels(w) <= |w| as real
    ensures EffectiveModels(w) == |w| as real <==> w == Uniform(|w|)
  {
    hide Sum, Times, Mul, Over, Uniform, Dist2;
    var k := |w| as real;
    var u := Uniform(|w|);
    SpreadFromUniform(w);
    Dist2Positive(w, u);
    Dist2Self(u);
    forall i | 0 <= i < |w| ensures Mul(w, w)[i] <= w[i] {
      EntryAtMostSum(w, i);
      TimesMonotone(w[i], w[i], 1.0);
      TimesOne(w[i]);
    }
    SumLe(Mul(w, w), w);
    OverSign(1.0, k);
    Reciprocal(Dot(w, w), k);
  }

  lemma Dist2Self(u: seq<real>)
    ensures Dist2(u, u) == 0.0
  {
    var d := Minus(u, u);
    forall i | 0 <= i < |u| ensures Mul(d, d)[i] == 0.0 {
      TimesZero(d[i]);
    }
    SumOfZeros(Mul(d, d));
  }

  lemma Reciprocal(d: real, k: real)
    requires 0.0 < d <= 1.0 && k >= 1.0 && d >= Over(1.0, k)
    ensures 1.0 <= Over(1.0, d) <= k
    ensures Over(1.0, d) == k <==> d == Over(1.0, k)
  {
    Quotient(1.0, k);
    Quotient(1.0, d);
    TimesMonotone(k, Over(1.0, k), d);
    if Over(1.0, d) > k {
      TimesStrict(d, k, Over(1.0, d));
      TimesSym(d, k);
    }
    if Over(1.0, d) == k {
      assert d == Over(1.0, k);
    }
  }

  // ---- distances ----

  /** The L1 distance of two vectors. */
  function Change(a: seq<real>, b: seq<real>): real
    requires |a| == |b|
  {
    Norm1(Minus(a, b))
  }

  /** Mixing moves no farther than the mixed distances. */
  lemma MixChange(l: real, a: seq<real>, b: seq<real>, c: seq<real>)
    requires 0.0 <= l <= 1.0 && |a| == |b| == |c|
    ensures Change(Mix(l, a, b), c) <= Times(1.0 - l, Change(a, c)) + Times(l, Change(b, c))
  {
    hide Sum, Times, Mix, AbsOf, Minus;
    var x, y := AbsOf(Minus(a, c)), AbsOf(Minus(b, c));
    var bound := seq(|a|, i requires 0 <= i < |a| => Times(1.0 - l, x[i]) + Times(l, y[i]));
    SumLinear(1.0 - l, x, l, y, bound);
    forall i | 0 <= i < |a| ensures AbsOf(Minus(Mix(l, a, b), c))[i] <= bound[i] {
      MixDistance(l, a[i], b[i], c[i]);
    }
    SumLe(AbsOf(Minus(Mix(l, a, b), c)), bound);
  }

  lemma MixDistance(l: real, a: real, b: real, c: real)
    requires 0.0 <= l <= 1.0
    ensures Abs(Times(1.0 - l, a) + Times(l, b) - c) <= Times(1.0 - l, Abs(a - c)) + Times(l, Abs(b - c))
  {
    assert Times(1.0 - l, a) + Times(l, b) - c == Times(1.0 - l, a - c) + Times(l, b - c);
    TimesMonotone(1.0 - l, a - c, Abs(a - c));
    TimesMonotone(l, b - c, Abs(b - c));
    TimesMonotone(1.0 - l, -Abs(a - c), a - c);
    TimesMonotone(l, -Abs(b - c), b - c);
    assert Times(1.0 - l, -Abs(a - c)) == -Times(1.0 - l, Abs(a - c));
    assert Times(l, -Abs(b - c)) == -Times(l, Abs(b - c));
  }

  lemma NoChange(a: seq<real>)
    ensures Change(a, a) == 0.0
  {
    SumOfZeros(AbsOf(Minus(a, a)));
  }
}
