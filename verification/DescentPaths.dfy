/** The mirror descent told as a path of weightings: how each one follows from the one before,
    where the path stops, and that what the solver returns is the end of the only such path
    with the floor mixed in. */
module DescentPaths {
  import opened Results
  import opened Vectors
  import opened Simplex
  import opened MirrorDescent

  /** The exponent a model's weight is multiplied by: minus the learning rate over the
      temperature times its score and its penalised correlation with the current weights. */
  function Exponent(p: Solver, scores: seq<real>, c: seq<seq<real>>, w: seq<real>, i: nat): real
    requires p.Valid() && |w| == |scores| && SquareOf(c, |scores|) && i < |scores|
  {
    -Times(Over(p.rate, p.temperature), scores[i] + Times(p.penalty, Dot(c[i], w)))
  }

  /** The odds of i against j after a step are the odds before it times the ratio of the
      exponentials. */
  ghost predicate OddsFollow(exp: real -> real, p: Solver, scores: seq<real>, c: seq<seq<real>>, w: seq<real>,
                             v: seq<real>, i: nat, j: nat)
    requires p.Valid() && |v| == |w| == |scores| && SquareOf(c, |scores|) && i < |scores| && j < |scores|
  {
    Times(v[i], Times(exp(Exponent(p, scores, c, w, j)), w[j]))
    == Times(v[j], Times(exp(Exponent(p, scores, c, w, i)), w[i]))
  }

  /** v is the weighting one step after w. */
  ghost predicate StepsTo(exp: real -> real, p: Solver, scores: seq<real>, c: seq<seq<real>>, w: seq<real>,
                          v: seq<real>)
    requires p.Valid() && SquareOf(c, |scores|)
  {
    && |v| == |w| == |scores| && IsSimplex(v)
    && forall i, j :: 0 <= i < |scores| && 0 <= j < |scores| ==> OddsFollow(exp, p, scores, c, w, v, i, j)
  }

  /** The laws of a step determine it. */
  lemma StepIff(exp: real -> real, p: Solver, scores: seq<real>, c: seq<seq<real>>, w: seq<real>, v: seq<real>)
    requires Posed(exp, p, scores, c) && Interior(w, |scores|) && Exponential(exp)
    ensures StepsTo(exp, p, scores, c, w, v) <==> v == MirrorStep(exp, p, scores, c, w)
  {
    hide Sum, Times, Over, Dot, Drift, Positive, Exponent, MirrorStep, Exponential, AlwaysPositive, Tilted, Normalise,
         IsSimplex;
    var plain := Tilted(exp, Drift(p, scores, c, w), w);
    StableStepIsPlainStep(exp, p, scores, c, w);
    forall i | 0 <= i < |w| ensures Drift(p, scores, c, w)[i] == Exponent(p, scores, c, w, i) {
      DriftIsExponent(p, scores, c, w, i);
    }
    if v == MirrorStep(exp, p, scores, c, w) {
      forall i, j | 0 <= i < |w| && 0 <= j < |w| ensures Times(v[i], plain[j]) == Times(v[j], plain[i]) {
        SharesCross(plain[i], plain[j], Sum(plain));
      }
    }
    if StepsTo(exp, p, scores, c, w, v) {
      forall i | 0 <= i < |w| ensures v[i] == Normalise(plain)[i] {
        forall j | 0 <= j < |w| ensures Times(v[i], plain[j]) == Times(plain[i], v[j]) {
          assert OddsFollow(exp, p, scores, c, w, v, i, j);
          TimesSym(v[j], plain[i]);
        }
        ShareFromOdds(v, plain, i);
      }
      assert v == Normalise(plain);
    }
  }

  lemma DriftIsExponent(p: Solver, scores: seq<real>, c: seq<seq<real>>, w: seq<real>, i: nat)
    requires p.Valid() && |w| == |scores| && SquareOf(c, |scores|) && i < |scores|
    ensures Drift(p, scores, c, w)[i] == Exponent(p, scores, c, w, i)
  {
    hide Dot, Drift, Over;
    DriftIsGradient(p, scores, c, w, i);
  }

  lemma SharesCross(a: real, b: real, z: real)
    requires z > 0.0
    ensures Times(Over(a, z), b) == Times(Over(b, z), a)
  {
    OverTimes(a, z, b);
    OverTimes(b, z, a);
    TimesSym(a, b);
  }

  lemma {:induction false} ShareFromOdds(v: seq<real>, plain: seq<real>, i: nat)
    requires |v| == |plain| && i < |v| && IsSimplex(v) && Sum(plain) > 0.0
    requires forall j :: 0 <= j < |v| ==> Times(v[i], plain[j]) == Times(plain[i], v[j])
    ensures v[i] == Over(plain[i], Sum(plain))
  {
    hide Sum, Times, Over;
    SumScale(v[i], plain, Scale(v[i], plain));
    SumScale(plain[i], v, Scale(v[i], plain));
    TimesOne(plain[i]);
    Quotient(plain[i], Sum(plain));
    TimesSym(v[i], Sum(plain));
    if v[i] < Over(plain[i], Sum(plain)) {
      TimesStrict(Sum(plain), v[i], Over(plain[i], Sum(plain)));
    } else if v[i] > Over(plain[i], Sum(plain)) {
      TimesStrict(Sum(plain), Over(plain[i], Sum(plain)), v[i]);
    }
  }

  // ---- paths ----

  /** No entry moved by the tolerance. */
  ghost predicate Settled(tol: real, w: seq<real>, v: seq<real>) {
    |w| == |v| && forall i :: 0 <= i < |w| ==> w[i] - tol < v[i] < w[i] + tol
  }

  lemma SettledIff(tol: real, w: seq<real>, v: seq<real>)
    requires |w| == |v| >= 1
    ensures Settled(tol, w, v) <==> Gap(v, w) < tol
  {
    var a := AbsOf(Minus(v, w));
    assert MaxOf(a) in a;
    forall i | 0 <= i < |a| ensures a[i] < tol <==> w[i] - tol < v[i] < w[i] + tol {
    }
  }

  /** A descent of at most n steps: every weighting follows from the one before; the path goes
      on while a step has moved some weight by the tolerance, up to n steps. */
  ghost predicate DescentPath(exp: real -> real, p: Solver, scores: seq<real>, c: seq<seq<real>>, path: seq<seq<real>>,
                              n: nat)
    requires p.Valid() && SquareOf(c, |scores|)
  {
    && 1 <= |path| <= n + 1
    && (forall k :: 0 <= k < |path| - 1 ==> StepsTo(exp, p, scores, c, path[k], path[k + 1]))
    && (forall k :: 0 <= k < |path| - 2 ==> !Settled(p.tol, path[k], path[k + 1]))
    && (|path| <= n ==> |path| >= 2 && Settled(p.tol, path[|path| - 2], path[|path| - 1]))
  }

  lemma {:induction false} PathEnds(exp: real -> real, p: Solver, scores: seq<real>, c: seq<seq<real>>,
                                    path: seq<seq<real>>, n: nat)
    requires Posed(exp, p, scores, c) && Exponential(exp) && DescentPath(exp, p, scores, c, path, n)
    requires Interior(path[0], |scores|)
    ensures path[|path| - 1] == Descend(exp, p, scores, c, path[0], n)
    decreases n
  {
    hide Exponential, AlwaysPositive, StepsTo, MirrorStep, Settled, IsSimplex, Positive, Gap;
    if |path| >= 2 {
      var w, v := path[0], path[1];
      assert StepsTo(exp, p, scores, c, path[0], path[0 + 1]);
      StepIff(exp, p, scores, c, w, v);
      SettledIff(p.tol, w, v);
      if |path| > 2 {
        assert !Settled(p.tol, path[0], path[0 + 1]);
        PathEnds(exp, p, scores, c, path[1..], n - 1);
      } else if !Settled(p.tol, w, v) {
        assert n == 1;
      }
    }
  }

  lemma {:induction false} PathExists(exp: real -> real, p: Solver, scores: seq<real>, c: seq<seq<real>>, w: seq<real>,
                                      n: nat)
    returns (path: seq<seq<real>>)
    requires Posed(exp, p, scores, c) && Exponential(exp) && Interior(w, |scores|)
    ensures DescentPath(exp, p, scores, c, path, n) && path[0] == w
    decreases n
  {
    hide Exponential, AlwaysPositive, StepsTo, MirrorStep, Settled, IsSimplex, Positive, Gap;
    if n == 0 {
      path := [w];
    } else {
      var v := MirrorStep(exp, p, scores, c, w);
      StepIff(exp, p, scores, c, w, v);
      SettledIff(p.tol, w, v);
      if Gap(v, w) < p.tol {
        path := [w, v];
      } else {
        var rest := PathExists(exp, p, scores, c, v, n - 1);
        path := [w] + rest;
        assert forall k :: 0 < k < |path| ==> path[k] == rest[k - 1];
      }
    }
  }

  /** The end of a descent path with the floor mixed in. */
  ghost predicate Returned(p: Solver, last: seq<real>, w: seq<real>) {
    |w| == |last| >= 1 && p.floor > 0.0
    && forall i :: 0 <= i < |w| ==>
         var e := Floor(p.floor, |w|);
         w[i] == Times(1.0 - Times(|w| as real, e), last[i]) + e
  }

  /** The path is a descent from start, and w is its end with the floor mixed in. */
  ghost predicate LeadsTo(exp: real -> real, p: Solver, scores: seq<real>, c: seq<seq<real>>, start: seq<real>,
                          path: seq<seq<real>>, w: seq<real>)
    requires p.Valid() && SquareOf(c, |scores|)
  {
    DescentPath(exp, p, scores, c, path, p.maxIter) && path[0] == start && Returned(p, path[|path| - 1], w)
  }

  lemma OnlySolution(exp: real -> real, p: Solver, scores: seq<real>, c: seq<seq<real>>, current: Option<seq<real>>,
                     path: seq<seq<real>>, w: seq<real>)
    requires Posed(exp, p, scores, c) && Startable(current, |scores|) && Exponential(exp)
    requires LeadsTo(exp, p, scores, c, Start(current, |scores|), path, w)
    ensures w == Solution(exp, p, scores, c, current)
  {
    hide Exponential, AlwaysPositive, IsSimplex, Positive, Descend, Start, Floor, Raise, Laplace, Sum, Times, StepsTo,
         Settled;
    PathEnds(exp, p, scores, c, path, p.maxIter);
    EndRaised(p, path[|path| - 1], w);
  }

  lemma EndRaised(p: Solver, end: seq<real>, w: seq<real>)
    requires p.Valid() && IsSimplex(end) && |w| == |end|
    ensures Sum(Raise(Floor(p.floor, |end|), end)) > 0.0
    ensures Returned(p, end, w) <==> w == Laplace(Floor(p.floor, |end|), end)
  {
    hide Sum, Times, Floor, Normalise;
    LaplaceMixesUniform(Floor(p.floor, |end|), end);
  }

  lemma PathToSolution(exp: real -> real, p: Solver, scores: seq<real>, c: seq<seq<real>>, current: Option<seq<real>>)
    returns (path: seq<seq<real>>)
    requires Posed(exp, p, scores, c) && Startable(current, |scores|) && Exponential(exp)
    ensures LeadsTo(exp, p, scores, c, Start(current, |scores|), path, Solution(exp, p, scores, c, current))
  {
    hide Exponential, AlwaysPositive, IsSimplex, Positive, Descend, Start, Floor, Raise, Laplace, Sum, Times, StepsTo,
         Settled;
    path := PathExists(exp, p, scores, c, Start(current, |scores|), p.maxIter);
    PathEnds(exp, p, scores, c, path, p.maxIter);
    EndRaised(p, path[|path| - 1], Solution(exp, p, scores, c, current));
  }

  /** What the solver returns: the end of a descent path from its starting weights, of at most
      maxIter steps, with the floor mixed in; every such path has the same end. */
  lemma SolutionIffPath(exp: real -> real, p: Solver, scores: seq<real>, c: seq<seq<real>>, current: Option<seq<real>>,
                        w: seq<real>)
    requires Posed(exp, p, scores, c) && Startable(current, |scores|) && Exponential(exp)
    ensures w == Solution(exp, p, scores, c, current)
       <==> exists path :: LeadsTo(exp, p, scores, c, Start(current, |scores|), path, w)
  {
    hide Exponential, AlwaysPositive, DescentPath, IsSimplex, Positive, Start, Solution, Returned, LeadsTo, Interior;
    var start := Start(current, |scores|);
    if w == Solution(exp, p, scores, c, current) {
      var path := PathToSolution(exp, p, scores, c, current);
    }
    if path: seq<seq<real>> :| LeadsTo(exp, p, scores, c, start, path, w) {
      OnlySolution(exp, p, scores, c, current, path, w);
    }
  }

  // ---- where it starts ----

  /** Without weights the descent starts from equal ones; given weights keep their odds, none
      of their shares counting as less than 1e-30. */
  lemma StartOdds(current: Option<seq<real>>, k: nat, i: nat, j: nat)
    requires k >= 1 && Startable(current, k) && i < k && j < k
    ensures current.None? ==> Start(current, k)[i] == Start(current, k)[j]
    ensures current.Some? ==>
      && |current.value| == k && Sum(current.value) > 0.0
      && var a, b := Over(current.value[i], Sum(current.value)), Over(current.value[j], Sum(current.value));
         Times(Start(current, k)[i], Max(b, 0.000000000000000000000000000001))
         == Times(Start(current, k)[j], Max(a, 0.000000000000000000000000000001))
  {
    hide Sum, Times, Over;
    if current.Some? {
      var lifted := Lifted(Normalise(current.value));
      PositiveSum(lifted);
      SharesCross(lifted[i], lifted[j], Sum(lifted));
    }
  }
}
