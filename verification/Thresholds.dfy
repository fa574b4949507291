/** The two sorted scans that find the multiplier of a single budget. */
module Thresholds {
  import opened Vectors
  import opened Sorting
  import opened Geometry

  // ---- the common mathematics ----

  /** What each item still spends of the budget when every ratio is lowered by lam. */
  function Spent(v: seq<real>, r: seq<real>, lam: real): (s: seq<real>)
    requires |v| == |r|
    ensures |s| == |v| && forall i :: 0 <= i < |v| ==> s[i] == Times(v[i], Max(0.0, r[i] - lam))
  {
    seq(|v|, i requires 0 <= i < |v| => Times(v[i], Max(0.0, r[i] - lam)))
  }

  /** t is the multiplier that would spend exactly b on the first k items alone. */
  ghost predicate Candidate(v: seq<real>, r: seq<real>, b: real, k: nat, t: real)
    requires |v| == |r| && k <= |v|
  {
    Times(Sum(v[..k]), t) == Sum(Mul(v, r)[..k]) - b
  }

  lemma PrefixSum(x: seq<real>, k: nat)
    requires k < |x|
    ensures Sum(x[..k + 1]) == Sum(x[..k]) + x[k]
  {
    assert x[..k + 1][..k] == x[..k];
  }

  lemma PrefixPositive(v: seq<real>, k: nat)
    requires Positive(v) && 0 < k <= |v|
    ensures Sum(v[..k]) > 0.0
  {
    PrefixSum(v, k - 1);
    SumNonNeg(v[..k - 1]);
  }

  /** Adding the item with ratio r to the candidate t moves the candidate towards r,
      never past it. */
  lemma CandidateMovesTowardsRatio(w: real, v: real, t: real, r: real, t': real)
    requires w > 0.0 && v > 0.0
    requires Times(w + v, t') == Times(w, t) + Times(v, r)
    ensures t' < r <==> t < r
    ensures t < r ==> t <= t'
  {
    var k := w + v;
    assert Times(k, r) == Times(w, r) + Times(v, r);
    if t < r {
      TimesStrict(w, t, r);
      TimesStrict(v, t, r);
      assert Times(k, t) == Times(w, t) + Times(v, t);
      if t' >= r {
        TimesMonotone(k, r, t');
      } else if t' < t {
        TimesMonotone(k, t', t);
      }
    } else {
      TimesMonotone(w, r, t);
      if t' < r {
        TimesStrict(k, t', r);
      }
    }
  }

  lemma NextCandidate(v: seq<real>, r: seq<real>, b: real, k: nat, t: real, t': real)
    requires |v| == |r| && Positive(v) && 0 < k < |v|
    requires Candidate(v, r, b, k, t) && Candidate(v, r, b, k + 1, t')
    ensures t' < r[k] <==> t < r[k]
  {
    PrefixSum(v, k);
    PrefixSum(Mul(v, r), k);
    PrefixPositive(v, k);
    CandidateMovesTowardsRatio(Sum(v[..k]), v[k], t, r[k], t');
  }

  /** The first item alone always passes: spending b > 0 on it lowers its ratio. */
  lemma FirstCandidate(v: seq<real>, r: seq<real>, b: real, t: real)
    requires |v| == |r| && Positive(v) && 0 < |v| && b > 0.0
    requires Candidate(v, r, b, 1, t)
    ensures t < r[0]
  {
    PrefixSum(v, 0);
    PrefixSum(Mul(v, r), 0);
    if t >= r[0] {
      TimesMonotone(v[0], r[0], t);
    }
  }

  /** A candidate that separates its own items from the rest is the root of the whole sum. */
  lemma SeparatingCandidateIsRoot(v: seq<real>, r: seq<real>, b: real, k: nat, t: real)
    requires |v| == |r| && Descending(r) && 0 < k <= |v|
    requires Candidate(v, r, b, k, t)
    requires t < r[k - 1] && (k == |v| || r[k] <= t)
    ensures Sum(Spent(v, r, t)) == b
  {
    var s := Spent(v, r, t);
    var head := s[..k];
    var tv := Scale(t, v[..k]);
    forall i | 0 <= i < k ensures head[i] + tv[i] == Mul(v, r)[..k][i] {
      assert r[i] >= r[k - 1];
      assert Times(v[i], r[i] - t) + Times(t, v[i]) == Times(v[i], r[i]);
    }
    SumAdd(head, tv, Mul(v, r)[..k]);
    SumScale(t, v[..k], tv);
    TimesSym(t, Sum(v[..k]));
    forall i | k <= i < |v| ensures s[i] == 0.0 {
      assert r[i] <= r[k];
    }
    SumOfZeros(s[k..]);
    assert s == head + s[k..];
    SumConcat(head, s[k..]);
  }

  // ---- the scan for the plain L1 ball ----

  /** The state of the scan after j items: th is the candidate of the first k, the longest
      passing prefix so far, and last is the candidate of all j. */
  ghost predicate L1Scan(s: seq<real>, b: real, j: nat, k: nat, th: real, last: real)
    requires j <= |s|
  {
    && 0 < k <= j
    && Candidate(Ones(|s|), s, b, k, th) && th < s[k - 1]
    && Candidate(Ones(|s|), s, b, j, last)
    && (k == j ==> last == th)
    && (k < j ==> s[k] <= th && s[j - 1] <= last)
  }

  lemma L1ScanStep(s: seq<real>, b: real, j: nat, k: nat, th: real, last: real, t: real)
    requires 0 < j < |s| && Descending(s)
    requires L1Scan(s, b, j, k, th, last) && Candidate(Ones(|s|), s, b, j + 1, t)
    ensures t < s[j] ==> L1Scan(s, b, j + 1, j + 1, t, t)
    ensures t >= s[j] ==> L1Scan(s, b, j + 1, k, th, t)
  {
    NextCandidate(Ones(|s|), s, b, j, last, t);
    assert s[j - 1] >= s[j];
  }

  lemma L1ScanStart(s: seq<real>, b: real, cum: real)
    requires 0 < |s| && b > 0.0 && cum == Sum(s[..1])
    ensures Mean(cum - b, 1) < s[0]
    ensures L1Scan(s, b, 1, 1, Mean(cum - b, 1), Mean(cum - b, 1))
  {
    CandidateOfMean(s, b, 1, cum);
    FirstCandidate(Ones(|s|), s, b, Mean(cum - b, 1));
  }

  lemma L1ScanNext(s: seq<real>, b: real, j: nat, k: nat, th: real, last: real, cum: real)
    requires 0 < j < |s| && Descending(s) && cum == Sum(s[..j + 1])
    requires L1Scan(s, b, j, k, th, last)
    ensures var t := Mean(cum - b, j + 1);
            if t < s[j] then L1Scan(s, b, j + 1, j + 1, t, t) else L1Scan(s, b, j + 1, k, th, t)
  {
    CandidateOfMean(s, b, j + 1, cum);
    L1ScanStep(s, b, j, k, th, last, Mean(cum - b, j + 1));
  }

  lemma L1ScanDone(a: seq<real>, p: seq<nat>, b: real, k: nat, th: real, last: real)
    requires IsPermutation(p, |a|) && Indexes(p, |a|) && |p| == |a| && Descending(Gather(a, p))
    requires L1Scan(Gather(a, p), b, |a|, k, th, last)
    ensures Sum(Shrink(a, Const(|a|, th))) == b
  {
    SeparatingCandidateIsRoot(Ones(|a|), Gather(a, p), b, k, th);
    L1Unsorted(a, p, th);
  }

  /** One pass over the sorted magnitudes that keeps the last passing threshold and never
      stops early. */
  method L1Threshold(a: seq<real>, b: real) returns (th: real)
    requires |a| > 0 && b > 0.0
    ensures Sum(Shrink(a, Const(|a|, th))) == b
  {
    hide L1Scan, Candidate, Descending, Gather, Sum, Shrink, Const;
    var n := |a|;
    var p := ArgSortDescending(a);
    PermutationIndexes(p, n);
    var s := Gather(a, p);
    var cum := 0.0;
    SumEmpty(s[..0]);
    th := 0.0;
    ghost var k := 0;
    ghost var last := 0.0;
    for j := 0 to n
      invariant cum == Sum(s[..j])
      invariant j > 0 ==> L1Scan(s, b, j, k, th, last)
    {
      PrefixSum(s, j);
      cum := cum + s[j];
      var t := Mean(cum - b, j + 1);
      if j == 0 {
        L1ScanStart(s, b, cum);
      } else {
        L1ScanNext(s, b, j, k, th, last, cum);
      }
      if s[j] - t > 0.0 {
        th := t;
        k := j + 1;
      }
      last := t;
    }
    L1ScanDone(a, p, b, k, th, last);
  }

  function Mean(total: real, k: nat): real
    requires k > 0
  {
    Over(total, k as real)
  }

  lemma CandidateOfMean(s: seq<real>, b: real, k: nat, cum: real)
    requires 0 < k <= |s| && cum == Sum(s[..k])
    ensures Candidate(Ones(|s|), s, b, k, Mean(cum - b, k))
  {
    assert Ones(|s|)[..k] == Const(k, 1.0);
    SumConst(k, 1.0);
    Quotient(cum - b, k as real);
    assert Mul(Ones(|s|), s) == s;
  }

  lemma L1Unsorted(a: seq<real>, p: seq<nat>, th: real)
    requires IsPermutation(p, |a|) && Indexes(p, |a|)
    ensures Sum(Spent(Ones(|p|), Gather(a, p), th)) == Sum(Shrink(a, Const(|a|, th)))
  {
    PermutationIndexes(p, |a|);
    SumPermuted(Shrink(a, Const(|a|, th)), p);
    assert Spent(Ones(|p|), Gather(a, p), th) == Gather(Shrink(a, Const(|a|, th)), p);
  }

  // ---- the scan for the weighted ball ----

  function Ratios(a: seq<real>, c: seq<real>): (r: seq<real>)
    requires |a| == |c| && Positive(c)
    ensures |r| == |a| && forall i :: 0 <= i < |a| ==> r[i] == Over(a[i], c[i])
  {
    seq(|a|, i requires 0 <= i < |a| => Over(a[i], c[i]))
  }

  /** Stop at the first candidate that separates the sorted ratios. */
  method RatioThreshold(a: seq<real>, c: seq<real>, b: real) returns (lam: real)
    requires |a| == |c| > 0 && Positive(c) && b > 0.0
    ensures Dot(c, Shrink(a, Scale(lam, c))) == b
  {
    hide Candidate, Descending, Gather, Mul, Ratios, Scale, Shrink, Positive, Sum;
    var n := |a|;
    var ratios := Ratios(a, c);
    var p := ArgSortDescending(ratios);
    PermutationIndexes(p, n);
    var r := Gather(ratios, p);
    ghost var v := Gather(Mul(c, c), p);
    ghost var va := Gather(Mul(c, a), p);
    SquaresPositive(c, p);
    RatioProducts(a, c, p);
    var cumCy, cumC2 := 0.0, 0.0;
    SumEmpty(va[..0]);
    SumEmpty(v[..0]);
    lam := 0.0;
    var k := 0;
    ghost var last := 0.0;
    while k < n
      invariant 0 <= k < n
      invariant cumCy == Sum(va[..k]) && cumC2 == Sum(v[..k])
      invariant k > 0 ==> Candidate(v, r, b, k, last) && last < r[k]
      decreases n - k
    {
      PrefixSum(va, k);
      PrefixSum(v, k);
      cumCy := cumCy + c[p[k]] * a[p[k]];
      cumC2 := cumC2 + c[p[k]] * c[p[k]];
      PrefixPositive(v, k + 1);
      var cand := Over(cumCy - b, cumC2);
      RatioCandidate(v, r, b, k + 1, cumCy, cumC2);
      if k == 0 {
        FirstCandidate(v, r, b, cand);
      } else {
        NextCandidate(v, r, b, k, last, cand);
      }
      if cand < r[k] && (k == n - 1 || cand >= r[k + 1]) {
        lam := cand;
        SeparatingCandidateIsRoot(v, r, b, k + 1, lam);
        break;
      }
      last := cand;
      k := k + 1;
    }
    RatioUnsorted(a, c, p, lam);
  }

  lemma RatioCandidate(v: seq<real>, r: seq<real>, b: real, k: nat, cumCy: real, cumC2: real)
    requires |v| == |r| && k <= |v|
    requires cumCy == Sum(Mul(v, r)[..k]) && cumC2 == Sum(v[..k]) && cumC2 > 0.0
    ensures Candidate(v, r, b, k, Over(cumCy - b, cumC2))
  {
    Quotient(cumCy - b, cumC2);
  }

  lemma SquaresPositive(c: seq<real>, p: seq<nat>)
    requires Positive(c) && Indexes(p, |c|)
    ensures Positive(Gather(Mul(c, c), p))
  {
    forall k | 0 <= k < |p| ensures Gather(Mul(c, c), p)[k] > 0.0 {
      PositiveProduct(c[p[k]], c[p[k]]);
    }
  }

  lemma RatioProducts(a: seq<real>, c: seq<real>, p: seq<nat>)
    requires |a| == |c| && Positive(c) && Indexes(p, |c|)
    ensures Mul(Gather(Mul(c, c), p), Gather(Ratios(a, c), p)) == Gather(Mul(c, a), p)
  {
    forall k | 0 <= k < |p|
      ensures Times(Times(c[p[k]], c[p[k]]), Over(a[p[k]], c[p[k]])) == Times(c[p[k]], a[p[k]])
    {
      Quotient(a[p[k]], c[p[k]]);
      TimesAssoc(c[p[k]], c[p[k]], Over(a[p[k]], c[p[k]]));
    }
  }

  lemma RatioUnsorted(a: seq<real>, c: seq<real>, p: seq<nat>, lam: real)
    requires |a| == |c| && Positive(c) && IsPermutation(p, |a|) && Indexes(p, |a|)
    ensures Sum(Spent(Gather(Mul(c, c), p), Gather(Ratios(a, c), p), lam)) == Dot(c, Shrink(a, Scale(lam, c)))
  {
    var terms := Mul(c, Shrink(a, Scale(lam, c)));
    PermutationIndexes(p, |a|);
    SumPermuted(terms, p);
    var s := Spent(Gather(Mul(c, c), p), Gather(Ratios(a, c), p), lam);
    forall k | 0 <= k < |p| ensures s[k] == Gather(terms, p)[k] {
      RatioTerm(a[p[k]], c[p[k]], lam);
    }
    assert s == Gather(terms, p);
  }

  lemma RatioTerm(a: real, c: real, lam: real)
    requires c > 0.0
    ensures Times(Times(c, c), Max(0.0, Over(a, c) - lam)) == Times(c, Max(0.0, a - Times(lam, c)))
  {
    var r := Over(a, c);
    Quotient(a, c);
    assert Times(c, r - lam) == a - Times(lam, c);
    if r - lam > 0.0 {
      PositiveProduct(c, r - lam);
    } else {
      NonNegProduct(c, lam - r);
      assert Times(c, lam - r) == -Times(c, r - lam);
    }
    TimesAssoc(c, c, Max(0.0, r - lam));
  }
}
