/** Binomial counting for combinatorial cross-validation: the k-element subsets of the
    groups, in the order itertools.combinations lists them. */
module Combinatorics {

  function Binomial(n: nat, k: nat): nat {
    if k == 0 then 1 else if n == 0 then 0 else Binomial(n - 1, k - 1) + Binomial(n - 1, k)
  }

  function Factorial(n: nat): nat { if n == 0 then 1 else n * Factorial(n - 1) }

  lemma {:induction false} BinomialAbove(n: nat, k: nat)
    requires k > n
    ensures Binomial(n, k) == 0
  {
    if n > 0 {
      BinomialAbove(n - 1, k - 1);
      BinomialAbove(n - 1, k);
    }
  }

  lemma {:induction false} BinomialFull(n: nat)
    ensures Binomial(n, n) == 1
  {
    if n > 0 {
      BinomialFull(n - 1);
      BinomialAbove(n - 1, n);
    }
  }

  lemma {:induction false} BinomialPositive(n: nat, k: nat)
    requires k <= n
    ensures Binomial(n, k) >= 1
  {
    if 0 < k {
      BinomialPositive(n - 1, k - 1);
    }
  }

  /** The counting function agrees with the factorial formula of math.comb. */
  lemma {:induction false} BinomialFactorial(n: nat, k: nat)
    requires k <= n
    ensures Binomial(n, k) * (Factorial(k) * Factorial(n - k)) == Factorial(n)
  {
    if k == 0 {
    } else if k == n {
      BinomialFull(n);
    } else {
      BinomialFactorial(n - 1, k - 1);
      BinomialFactorial(n - 1, k);
      var a, b := Binomial(n - 1, k - 1), Binomial(n - 1, k);
      var p, q := Factorial(k - 1), Factorial(n - k - 1);
      PascalFactorial(a, b, n, k, p, q, Factorial(n - 1));
      assert Factorial(k) == k * p && Factorial(n - k) == (n - k) * q && Factorial(n) == n * Factorial(n - 1);
    }
  }

  lemma PascalFactorial(a: int, b: int, n: int, k: int, p: int, q: int, f: int)
    requires a * (p * ((n - k) * q)) == f && b * ((k * p) * q) == f
    ensures (a + b) * ((k * p) * ((n - k) * q)) == n * f
  {
    assert a * ((k * p) * ((n - k) * q)) == k * (a * (p * ((n - k) * q)));
    assert b * ((k * p) * ((n - k) * q)) == (n - k) * (b * ((k * p) * q));
    assert (a + b) * ((k * p) * ((n - k) * q)) == a * ((k * p) * ((n - k) * q)) + b * ((k * p) * ((n - k) * q));
  }

  // ---- enumeration ----

  function Prepend(g: nat, combos: seq<seq<nat>>): (r: seq<seq<nat>>)
    ensures |r| == |combos| && forall i :: 0 <= i < |combos| ==> r[i] == [g] + combos[i]
  {
    seq(|combos|, i requires 0 <= i < |combos| => [g] + combos[i])
  }

  /** All increasing k-element lists over lo .. n-1, in lexicographic order. */
  function Combinations(lo: nat, n: nat, k: nat): seq<seq<nat>>
    requires lo <= n
    decreases n - lo
  {
    if k == 0 then [[]]
    else if lo == n then []
    else Prepend(lo, Combinations(lo + 1, n, k - 1)) + Combinations(lo + 1, n, k)
  }

  ghost predicate Increasing(c: seq<nat>) { forall i, j :: 0 <= i < j < |c| ==> c[i] < c[j] }

  /** An increasing selection of k groups from lo .. n-1. */
  ghost predicate Selection(c: seq<nat>, lo: nat, n: nat, k: nat) {
    |c| == k && Increasing(c) && forall i :: 0 <= i < |c| ==> lo <= c[i] < n
  }

  lemma {:induction false} CombinationsCount(lo: nat, n: nat, k: nat)
    requires lo <= n
    ensures |Combinations(lo, n, k)| == Binomial(n - lo, k)
    decreases n - lo
  {
    if k > 0 && lo < n {
      CombinationsCount(lo + 1, n, k - 1);
      CombinationsCount(lo + 1, n, k);
    }
  }

  /** Everything listed is a selection. */
  lemma {:induction false} CombinationsSound(lo: nat, n: nat, k: nat)
    requires lo <= n
    ensures forall i :: 0 <= i < |Combinations(lo, n, k)| ==> Selection(Combinations(lo, n, k)[i], lo, n, k)
    decreases n - lo
  {
    if k > 0 && lo < n {
      CombinationsSound(lo + 1, n, k - 1);
      CombinationsSound(lo + 1, n, k);
      var a, b := Combinations(lo + 1, n, k - 1), Combinations(lo + 1, n, k);
      forall i | 0 <= i < |a| + |b| ensures Selection((Prepend(lo, a) + b)[i], lo, n, k) {
        if i < |a| {
          assert Selection(a[i], lo + 1, n, k - 1);
        } else {
          assert Selection(b[i - |a|], lo + 1, n, k);
        }
      }
    }
  }

  /** Every selection is listed. */
  lemma {:induction false} CombinationsComplete(lo: nat, n: nat, k: nat, c: seq<nat>) returns (i: nat)
    requires lo <= n && Selection(c, lo, n, k)
    ensures i < |Combinations(lo, n, k)| && Combinations(lo, n, k)[i] == c
    decreases n - lo
  {
    if k == 0 {
      i := 0;
    } else {
      assert lo <= c[0] < n;
      var a, b := Combinations(lo + 1, n, k - 1), Combinations(lo + 1, n, k);
      if c[0] == lo {
        var j := CombinationsComplete(lo + 1, n, k - 1, c[1..]);
        assert c == [lo] + c[1..];
        i := j;
      } else {
        var j := CombinationsComplete(lo + 1, n, k, c);
        i := |a| + j;
      }
    }
  }

  /** Lexicographic order on lists of equal length. */
  ghost predicate LexLess(c: seq<nat>, d: seq<nat>) {
    c != [] && d != [] && (c[0] < d[0] || (c[0] == d[0] && LexLess(c[1..], d[1..])))
  }

  /** The listing is strictly increasing, so no selection is listed twice. */
  lemma {:induction false} CombinationsOrdered(lo: nat, n: nat, k: nat, i: nat, j: nat)
    requires lo <= n && i < j < |Combinations(lo, n, k)|
    ensures LexLess(Combinations(lo, n, k)[i], Combinations(lo, n, k)[j])
    decreases n - lo
  {
    var a, b := Combinations(lo + 1, n, k - 1), Combinations(lo + 1, n, k);
    if j < |a| {
      CombinationsOrdered(lo + 1, n, k - 1, i, j);
      assert ([lo] + a[i])[1..] == a[i] && ([lo] + a[j])[1..] == a[j];
    } else if i >= |a| {
      CombinationsOrdered(lo + 1, n, k, i - |a|, j - |a|);
    } else {
      CombinationsSound(lo + 1, n, k);
      assert Selection(b[j - |a|], lo + 1, n, k);
    }
  }

  lemma {:induction false} LexIrreflexive(c: seq<nat>)
    ensures !LexLess(c, c)
  {
    if c != [] {
      LexIrreflexive(c[1..]);
    }
  }

  lemma {:induction false} CombinationsDistinct(n: nat, k: nat, i: nat, j: nat)
    requires i < j < |Combinations(0, n, k)|
    ensures Combinations(0, n, k)[i] != Combinations(0, n, k)[j]
  {
    CombinationsOrdered(0, n, k, i, j);
    LexIrreflexive(Combinations(0, n, k)[i]);
  }

  // ---- how often a group is tested ----

  /** The positions at which group g is selected, in order. */
  function Occurrences(combos: seq<seq<nat>>, g: nat): seq<nat> {
    if combos == [] then []
    else
      var n := |combos| - 1;
      Occurrences(combos[..n], g) + if g in combos[n] then [n] else []
  }

  lemma {:induction false} OccurrencesExact(combos: seq<seq<nat>>, g: nat)
    ensures var o := Occurrences(combos, g);
      && (forall p :: 0 <= p < |o| ==> o[p] < |combos| && g in combos[o[p]])
      && (forall f :: 0 <= f < |combos| && g in combos[f] ==> f in o)
      && Increasing(o)
  {
    if combos != [] {
      var n := |combos| - 1;
      OccurrencesExact(combos[..n], g);
      var o, o' := Occurrences(combos[..n], g), Occurrences(combos, g);
      forall f | 0 <= f < |combos| && g in combos[f] ensures f in o' {
        if f == n {
          assert o'[|o|] == n;
        } else {
          assert combos[..n][f] == combos[f];
          assert f in o;
        }
      }
      forall p | 0 <= p < |o'| ensures o'[p] < |combos| && g in combos[o'[p]] {
        if p < |o| {
          assert o'[p] == o[p] && combos[..n][o[p]] == combos[o[p]];
        }
      }
    }
  }

  lemma {:induction false} OccurrencesConcat(a: seq<seq<nat>>, b: seq<seq<nat>>, g: nat)
    ensures |Occurrences(a + b, g)| == |Occurrences(a, g)| + |Occurrences(b, g)|
  {
    if b == [] {
      assert a + b == a;
    } else {
      assert (a + b)[..|a + b| - 1] == a + b[..|b| - 1];
      OccurrencesConcat(a, b[..|b| - 1], g);
    }
  }

  lemma {:induction false} OccurrencesPrepend(a: seq<seq<nat>>, h: nat, g: nat)
    ensures |Occurrences(Prepend(h, a), g)| == if g == h then |a| else |Occurrences(a, g)|
  {
    if a != [] {
      var n := |a| - 1;
      assert Prepend(h, a)[..n] == Prepend(h, a[..n]);
      OccurrencesPrepend(a[..n], h, g);
      assert Prepend(h, a)[n] == [h] + a[n];
    }
  }

  lemma {:induction false} NeverBelow(combos: seq<seq<nat>>, g: nat)
    requires forall i :: 0 <= i < |combos| ==> g !in combos[i]
    ensures Occurrences(combos, g) == []
  {
    if combos != [] {
      NeverBelow(combos[..|combos| - 1], g);
    }
  }

  /** The listing splits by whether the first group is selected. */
  lemma OccurrenceSplit(lo: nat, n: nat, k: nat, g: nat)
    requires lo < n && k > 0
    ensures |Occurrences(Combinations(lo, n, k), g)|
         == (if g == lo then Binomial(n - lo - 1, k - 1) else |Occurrences(Combinations(lo + 1, n, k - 1), g)|)
            + |Occurrences(Combinations(lo + 1, n, k), g)|
  {
    hide Occurrences, Binomial;
    var a, b := Combinations(lo + 1, n, k - 1), Combinations(lo + 1, n, k);
    OccurrencesConcat(Prepend(lo, a), b, g);
    OccurrencesPrepend(a, lo, g);
    CombinationsCount(lo + 1, n, k - 1);
  }

  lemma FirstGroupGone(lo: nat, n: nat, k: nat)
    requires lo < n
    ensures Occurrences(Combinations(lo + 1, n, k), lo) == []
  {
    hide Occurrences, Combinations;
    CombinationsSound(lo + 1, n, k);
    var b := Combinations(lo + 1, n, k);
    forall i | 0 <= i < |b| ensures lo !in b[i] {
      assert Selection(b[i], lo + 1, n, k);
    }
    NeverBelow(b, lo);
  }

  /** Each group is selected exactly C(n-1, k-1) times. */
  lemma {:induction false} OccurrenceCount(lo: nat, n: nat, k: nat, g: nat)
    requires lo <= g < n && k > 0
    ensures |Occurrences(Combinations(lo, n, k), g)| == Binomial(n - lo - 1, k - 1)
    decreases n - lo
  {
    hide Combinations;
    OccurrenceSplit(lo, n, k, g);
    if g == lo {
      FirstGroupGone(lo, n, k);
    } else {
      OccurrenceCount(lo + 1, n, k, g);
      if k == 1 {
        EmptySelectionOnly(lo + 1, n, g);
      } else {
        OccurrenceCount(lo + 1, n, k - 1, g);
      }
    }
  }

  lemma {:induction false} EmptySelectionOnly(lo: nat, n: nat, g: nat)
    requires lo <= n
    ensures |Occurrences(Combinations(lo, n, 0), g)| == 0
  {
    assert Combinations(lo, n, 0) == [[]];
    NeverBelow([[]], g);
  }
}
