/** Finite real vectors, their sums, and the few algebraic laws every proof in
    this project rests on.  A vector is a sequence of exact reals. */
module Vectors {

  /** Products and quotients under names, so that lemmas about them match term by term. */
  function Times(a: real, b: real): real { a * b }

  function Over(a: real, k: real): real
    requires k != 0.0
  {
    a / k
  }

  function Max(a: real, b: real): real { if a < b then b else a }

  function Min(a: real, b: real): real { if b < a then b else a }

  function Abs(a: real): real { if a < 0.0 then -a else a }

  /** Clipping into an interval, lower bound first. */
  function Clip(x: real, lo: real, hi: real): real { Min(Max(x, lo), hi) }

  function Sum(x: seq<real>): real {
    if x == [] then 0.0 else Sum(x[..|x| - 1]) + x[|x| - 1]
  }

  function Const(n: nat, k: real): (r: seq<real>)
    ensures |r| == n && forall i :: 0 <= i < n ==> r[i] == k
  {
    seq(n, i => k)
  }

  function AbsOf(x: seq<real>): (r: seq<real>)
    ensures |r| == |x| && NonNeg(r) && forall i :: 0 <= i < |x| ==> r[i] == Abs(x[i])
  {
    seq(|x|, i requires 0 <= i < |x| => Abs(x[i]))
  }

  function Mul(x: seq<real>, y: seq<real>): (r: seq<real>)
    requires |x| == |y|
    ensures |r| == |x| && forall i :: 0 <= i < |x| ==> r[i] == Times(x[i], y[i])
  {
    seq(|x|, i requires 0 <= i < |x| => Times(x[i], y[i]))
  }

  function Plus(x: seq<real>, y: seq<real>): (r: seq<real>)
    requires |x| == |y|
    ensures |r| == |x| && forall i :: 0 <= i < |x| ==> r[i] == x[i] + y[i]
  {
    seq(|x|, i requires 0 <= i < |x| => x[i] + y[i])
  }

  function Minus(x: seq<real>, y: seq<real>): (r: seq<real>)
    requires |x| == |y|
    ensures |r| == |x| && forall i :: 0 <= i < |x| ==> r[i] == x[i] - y[i]
  {
    seq(|x|, i requires 0 <= i < |x| => x[i] - y[i])
  }

  function Scale(k: real, x: seq<real>): (r: seq<real>)
    ensures |r| == |x| && forall i :: 0 <= i < |x| ==> r[i] == Times(k, x[i])
  {
    seq(|x|, i requires 0 <= i < |x| => Times(k, x[i]))
  }

  function Dot(x: seq<real>, y: seq<real>): real
    requires |x| == |y|
  {
    Sum(Mul(x, y))
  }

  /** Squared Euclidean distance. */
  function Dist2(x: seq<real>, y: seq<real>): real
    requires |x| == |y|
  {
    Dot(Minus(x, y), Minus(x, y))
  }

  function Norm1(x: seq<real>): real { Sum(AbsOf(x)) }

  ghost predicate NonNeg(x: seq<real>) { forall i :: 0 <= i < |x| ==> x[i] >= 0.0 }

  ghost predicate Positive(x: seq<real>) { forall i :: 0 <= i < |x| ==> x[i] > 0.0 }

  ghost predicate AtMost(x: seq<real>, y: seq<real>)
    requires |x| == |y|
  {
    forall i :: 0 <= i < |x| ==> x[i] <= y[i]
  }

  // ---- products ----

  lemma Distribute(a: real, x: real, y: real)
    ensures Times(a, x + y) == Times(a, x) + Times(a, y)
  {
  }

  lemma TimesSym(a: real, b: real)
    ensures Times(a, b) == Times(b, a)
  {
  }

  lemma TimesAssoc(a: real, b: real, c: real)
    ensures Times(a, Times(b, c)) == Times(Times(a, b), c)
  {
  }

  lemma PositiveProduct(a: real, b: real)
    requires a > 0.0 && b > 0.0
    ensures Times(a, b) > 0.0
  {
  }

  lemma NonNegProduct(a: real, b: real)
    requires a >= 0.0 && b >= 0.0
    ensures Times(a, b) >= 0.0
  {
  }

  lemma SquarePositive(x: real)
    ensures x == 0.0 || Times(x, x) > 0.0
    ensures Times(x, x) >= 0.0
  {
    assert Times(-x, -x) == Times(x, x);
    if x > 0.0 {
      PositiveProduct(x, x);
    } else if x < 0.0 {
      PositiveProduct(-x, -x);
    }
  }

  lemma TimesMonotone(k: real, a: real, b: real)
    requires k >= 0.0 && a <= b
    ensures Times(k, a) <= Times(k, b)
  {
  }

  lemma TimesStrict(k: real, a: real, b: real)
    requires k > 0.0 && a < b
    ensures Times(k, a) < Times(k, b)
  {
  }

  /** Dividing by a positive number undoes multiplying by it. */
  lemma Quotient(a: real, k: real)
    requires k > 0.0
    ensures Times(k, Over(a, k)) == a && Times(Over(a, k), k) == a
  {
  }

  // ---- sums ----

  lemma {:induction false} SumLe(u: seq<real>, v: seq<real>)
    requires |u| == |v|
    requires forall i :: 0 <= i < |u| ==> u[i] <= v[i]
    ensures Sum(u) <= Sum(v)
  {
    if u != [] {
      var n := |u| - 1;
      SumLe(u[..n], v[..n]);
    }
  }

  /** Strict domination at one place makes the sum strictly larger. */
  lemma {:induction false} SumLeStrict(u: seq<real>, v: seq<real>, k: nat)
    requires |u| == |v| && k < |u|
    requires forall i :: 0 <= i < |u| ==> u[i] <= v[i]
    requires u[k] < v[k]
    ensures Sum(u) < Sum(v)
  {
    var n := |u| - 1;
    if k == n {
      SumLe(u[..n], v[..n]);
    } else {
      SumLeStrict(u[..n], v[..n], k);
    }
  }

  lemma {:induction false} SumAdd(u: seq<real>, v: seq<real>, w: seq<real>)
    requires |u| == |v| == |w|
    requires forall i :: 0 <= i < |u| ==> w[i] == u[i] + v[i]
    ensures Sum(w) == Sum(u) + Sum(v)
  {
    if u != [] {
      var n := |u| - 1;
      SumAdd(u[..n], v[..n], w[..n]);
    }
  }

  lemma {:induction false} SumScale(k: real, u: seq<real>, w: seq<real>)
    requires |u| == |w|
    requires forall i :: 0 <= i < |u| ==> w[i] == Times(k, u[i])
    ensures Sum(w) == Times(k, Sum(u))
  {
    if u != [] {
      var n := |u| - 1;
      SumScale(k, u[..n], w[..n]);
      Distribute(k, Sum(u[..n]), u[n]);
    }
  }

  lemma {:induction false} SumLinear(a: real, u: seq<real>, b: real, v: seq<real>, w: seq<real>)
    requires |u| == |v| == |w|
    requires forall i :: 0 <= i < |u| ==> w[i] == Times(a, u[i]) + Times(b, v[i])
    ensures Sum(w) == Times(a, Sum(u)) + Times(b, Sum(v))
  {
    SumScale(a, u, Scale(a, u));
    SumScale(b, v, Scale(b, v));
    SumAdd(Scale(a, u), Scale(b, v), w);
  }

  lemma {:induction false} SumNonNeg(u: seq<real>)
    requires NonNeg(u)
    ensures Sum(u) >= 0.0
  {
    SumConst(|u|, 0.0);
    SumLe(Const(|u|, 0.0), u);
  }

  lemma {:induction false} SumConst(n: nat, k: real)
    ensures Sum(Const(n, k)) == Times(n as real, k)
  {
    if n != 0 {
      assert Const(n, k)[..n - 1] == Const(n - 1, k);
      SumConst(n - 1, k);
      assert Times(n as real, k) == Times((n - 1) as real, k) + k;
    }
  }

  lemma {:induction false} SumOfZeros(u: seq<real>)
    requires forall i :: 0 <= i < |u| ==> u[i] == 0.0
    ensures Sum(u) == 0.0
  {
    SumConst(|u|, 0.0);
    assert u == Const(|u|, 0.0);
  }

  /** A non-negative vector with a zero sum is zero. */
  lemma {:induction false} SumZero(u: seq<real>)
    requires NonNeg(u) && Sum(u) <= 0.0
    ensures forall i :: 0 <= i < |u| ==> u[i] == 0.0
  {
    forall i | 0 <= i < |u| ensures u[i] == 0.0 {
      if u[i] != 0.0 {
        SumConst(|u|, 0.0);
        SumLeStrict(Const(|u|, 0.0), u, i);
      }
    }
  }

  lemma {:induction false} SumConcat(u: seq<real>, v: seq<real>)
    ensures Sum(u + v) == Sum(u) + Sum(v)
  {
    if v == [] {
      assert u + v == u;
    } else {
      var n := |v| - 1;
      assert (u + v)[..|u + v| - 1] == u + v[..n];
      SumConcat(u, v[..n]);
    }
  }

  lemma {:induction false} SumEmpty(x: seq<real>)
    requires |x| == 0
    ensures Sum(x) == 0.0
  {
  }

  lemma SumSingle(a: real)
    ensures Sum([a]) == a
  {
    assert [a][..0] == [];
  }

  /** One entry never exceeds the sum of a non-negative vector. */
  lemma {:induction false} EntryAtMostSum(u: seq<real>, k: nat)
    requires NonNeg(u) && k < |u|
    ensures u[k] <= Sum(u)
  {
    var n := |u| - 1;
    if k == n {
      SumNonNeg(u[..n]);
    } else {
      EntryAtMostSum(u[..n], k);
    }
  }

  // ---- inner products ----

  lemma DotSym(x: seq<real>, y: seq<real>)
    requires |x| == |y|
    ensures Dot(x, y) == Dot(y, x)
  {
    forall i | 0 <= i < |x| ensures Mul(x, y)[i] == Mul(y, x)[i] {
      TimesSym(x[i], y[i]);
    }
    assert Mul(x, y) == Mul(y, x);
  }

  lemma DotAdd(x: seq<real>, y: seq<real>, w: seq<real>, z: seq<real>)
    requires |x| == |y| == |w| == |z|
    requires forall i :: 0 <= i < |x| ==> w[i] == x[i] + y[i]
    ensures Dot(w, z) == Dot(x, z) + Dot(y, z)
  {
    forall i | 0 <= i < |x| ensures Mul(w, z)[i] == Mul(x, z)[i] + Mul(y, z)[i] {
      Distribute(z[i], x[i], y[i]);
      TimesSym(z[i], x[i]);
      TimesSym(z[i], y[i]);
      TimesSym(z[i], w[i]);
    }
    SumAdd(Mul(x, z), Mul(y, z), Mul(w, z));
  }

  lemma DotScale(k: real, x: seq<real>, w: seq<real>, z: seq<real>)
    requires |x| == |w| == |z|
    requires forall i :: 0 <= i < |x| ==> w[i] == Times(k, x[i])
    ensures Dot(w, z) == Times(k, Dot(x, z))
  {
    forall i | 0 <= i < |x| ensures Mul(w, z)[i] == Times(k, Mul(x, z)[i]) {
      TimesAssoc(k, x[i], z[i]);
    }
    SumScale(k, Mul(x, z), Mul(w, z));
  }

  lemma DotMonotone(c: seq<real>, x: seq<real>, y: seq<real>)
    requires |c| == |x| == |y| && NonNeg(c) && AtMost(x, y)
    ensures Dot(c, x) <= Dot(c, y)
  {
    forall i | 0 <= i < |c| ensures Mul(c, x)[i] <= Mul(c, y)[i] {
      TimesMonotone(c[i], x[i], y[i]);
    }
    SumLe(Mul(c, x), Mul(c, y));
  }

  lemma DotNonNeg(c: seq<real>, x: seq<real>)
    requires |c| == |x| && NonNeg(c) && NonNeg(x)
    ensures Dot(c, x) >= 0.0
  {
    forall i | 0 <= i < |c| ensures Mul(c, x)[i] >= 0.0 {
      NonNegProduct(c[i], x[i]);
    }
    SumNonNeg(Mul(c, x));
  }

  lemma DotSelfNonNeg(d: seq<real>)
    ensures Dot(d, d) >= 0.0
  {
    forall k | 0 <= k < |d| ensures Mul(d, d)[k] >= 0.0 {
      SquarePositive(d[k]);
    }
    SumNonNeg(Mul(d, d));
  }

  lemma DotSelfPositive(d: seq<real>, i: nat)
    requires i < |d| && d[i] != 0.0
    ensures Dot(d, d) > 0.0
  {
    forall k | 0 <= k < |d| ensures Mul(d, d)[k] >= 0.0 {
      SquarePositive(d[k]);
    }
    SquarePositive(d[i]);
    SumConst(|d|, 0.0);
    SumLeStrict(Const(|d|, 0.0), Mul(d, d), i);
  }

  lemma Dist2Positive(x: seq<real>, y: seq<real>)
    requires |x| == |y|
    ensures Dist2(x, y) >= 0.0
    ensures x != y ==> Dist2(x, y) > 0.0
  {
    DotSelfNonNeg(Minus(x, y));
    if x != y {
      var i :| 0 <= i < |x| && x[i] != y[i];
      DotSelfPositive(Minus(x, y), i);
    }
  }

  lemma Dist2Sym(x: seq<real>, y: seq<real>)
    requires |x| == |y|
    ensures Dist2(x, y) == Dist2(y, x)
  {
    var d, e := Minus(x, y), Minus(y, x);
    forall i | 0 <= i < |x| ensures Mul(d, d)[i] == Mul(e, e)[i] {
      assert e[i] == -d[i];
    }
    assert Mul(d, d) == Mul(e, e);
  }

  /** The law of cosines, with the angle taken at p. */
  lemma Cosine(y: seq<real>, p: seq<real>, z: seq<real>)
    requires |y| == |p| == |z|
    ensures Dist2(y, z) == Dist2(y, p) + Dist2(p, z) - 2.0 * Dot(Minus(y, p), Minus(z, p))
  {
    hide Times, Mul, Sum, Scale, Plus;
    var yp, pz, zp, yz := Minus(y, p), Minus(p, z), Minus(z, p), Minus(y, z);
    var s := Plus(Mul(yp, yp), Mul(pz, pz));
    SumAdd(Mul(yp, yp), Mul(pz, pz), s);
    var cross := Scale(-2.0, Mul(yp, zp));
    SumScale(-2.0, Mul(yp, zp), cross);
    forall i | 0 <= i < |y| ensures Mul(yz, yz)[i] == s[i] + cross[i] {
      CosineTerm(y[i], p[i], z[i]);
    }
    SumAdd(s, cross, Mul(yz, yz));
    TimesMinusTwo(Sum(Mul(yp, zp)));
  }

  lemma TimesOne(a: real)
    ensures Times(a, 1.0) == a && Times(1.0, a) == a
  {
  }

  /** A weighted mean lies between whatever bounds both its terms. */
  lemma WeightedMeanBetween(l: real, a: real, b: real, lo: real, hi: real)
    requires 0.0 <= l <= 1.0 && lo <= a <= hi && lo <= b <= hi
    ensures lo <= Times(1.0 - l, a) + Times(l, b) <= hi
  {
    TimesMonotone(1.0 - l, lo, a);
    TimesMonotone(1.0 - l, a, hi);
    TimesMonotone(l, lo, b);
    TimesMonotone(l, b, hi);
    assert Times(1.0 - l, lo) + Times(l, lo) == lo;
    assert Times(1.0 - l, hi) + Times(l, hi) == hi;
  }

  lemma TimesMinusTwo(a: real)
    ensures Times(-2.0, a) == -2.0 * a
  {
  }

  lemma TimesZero(a: real)
    ensures Times(0.0, a) == 0.0 && Times(a, 0.0) == 0.0
  {
  }

  lemma CosineTerm(y: real, p: real, z: real)
    ensures Times(y - z, y - z)
         == Times(y - p, y - p) + Times(p - z, p - z) + Times(-2.0, Times(y - p, z - p))
  {
  }

  /** Cauchy-Schwarz under a non-negative weighting m. */
  lemma {:induction false} WeightedCauchySchwarz(m: seq<real>, c: seq<real>)
    requires |m| == |c| && NonNeg(m)
    ensures Times(Sum(m), Dot(m, Mul(c, c))) >= Times(Dot(m, c), Dot(m, c))
  {
    hide Times, Mul, Sum, Scale, Plus;
    var k, s, q := Sum(m), Dot(m, c), Dot(m, Mul(c, c));
    var kk, ks, ss := Times(k, k), -2.0 * Times(k, s), Times(s, s);
    SumNonNeg(m);
    var w := seq(|m|, i requires 0 <= i < |m| =>
      Times(kk, Mul(m, Mul(c, c))[i]) + Times(ks, Mul(m, c)[i]));
    SumLinear(kk, Mul(m, Mul(c, c)), ks, Mul(m, c), w);
    var t := Plus(w, Scale(ss, m));
    SumScale(ss, m, Scale(ss, m));
    SumAdd(w, Scale(ss, m), t);
    forall i | 0 <= i < |m| ensures t[i] >= 0.0 {
      SpreadTerm(m[i], c[i], k, s);
    }
    SumNonNeg(t);
    SpreadTotal(k, s, q);
    if k == 0.0 {
      WeightlessDot(m, c);
      TimesZero(q);
      TimesZero(0.0);
    }
  }

  lemma {:induction false} WeightlessDot(m: seq<real>, c: seq<real>)
    requires |m| == |c| && NonNeg(m) && Sum(m) <= 0.0
    ensures Dot(m, c) == 0.0
  {
    SumZero(m);
    SumOfZeros(Mul(m, c));
  }

  lemma SpreadTerm(m: real, c: real, k: real, s: real)
    requires m >= 0.0
    ensures Times(Times(k, k), Times(m, Times(c, c))) + Times(-2.0 * Times(k, s), Times(m, c))
            + Times(Times(s, s), m) >= 0.0
  {
    var d := k * c - s;
    assert d * d == (k * k) * (c * c) + (-2.0 * (k * s)) * c + s * s;
    assert m * (d * d) == (k * k) * (m * (c * c)) + (-2.0 * (k * s)) * (m * c) + (s * s) * m;
    SquarePositive(d);
    NonNegProduct(m, Times(d, d));
  }

  lemma SpreadTotal(k: real, s: real, q: real)
    requires k >= 0.0
    requires Times(Times(k, k), q) + Times(-2.0 * Times(k, s), s) + Times(Times(s, s), k) >= 0.0
    ensures k == 0.0 || Times(k, q) >= Times(s, s)
  {
    var g := Times(k, q) - Times(s, s);
    assert Times(k, g) == Times(Times(k, k), q) + Times(-2.0 * Times(k, s), s) + Times(Times(s, s), k);
    assert Times(k, -g) == -Times(k, g);
    if k > 0.0 && g < 0.0 {
      PositiveProduct(k, -g);
    }
  }
}
