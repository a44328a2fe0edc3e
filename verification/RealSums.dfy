/** Finite sums of reals, as the share solver's `iter().sum()` computes them. */
module RealSums {

  function Min(a: real, b: real): real {
    if a <= b then a else b
  }

  function Max(a: real, b: real): real {
    if a <= b then b else a
  }

  /** A product of two reals, behind a name so that sums of products stay linear to the solver. */
  function Mul(a: real, b: real): real {
    a * b
  }

  lemma MulAdd(k: real, a: real, b: real)
    ensures Mul(k, a + b) == Mul(k, a) + Mul(k, b)
  {
  }

  /** `c` added up `n` times. */
  function Times(n: nat, c: real): real {
    if n == 0 then 0.0 else Times(n - 1, c) + c
  }

  lemma {:induction false} TimesIsProduct(n: nat, c: real)
    ensures Times(n, c) == n as real * c
  {
    if n > 0 {
      TimesIsProduct(n - 1, c);
      assert n as real * c == (n - 1) as real * c + c;
    }
  }

  lemma {:induction false} TimesBounds(n: nat, c: real)
    requires c >= 0.0
    ensures Times(n, c) >= 0.0
    ensures n > 0 ==> Times(n, c) >= c
  {
    if n > 0 {
      TimesBounds(n - 1, c);
    }
  }

  lemma {:induction false} TimesMonotone(m: nat, n: nat, c: real)
    requires c >= 0.0 && m <= n
    ensures Times(m, c) <= Times(n, c)
  {
    if m < n {
      TimesMonotone(m, n - 1, c);
    }
  }

  function Sum(xs: seq<real>): real {
    if |xs| == 0 then 0.0 else xs[0] + Sum(xs[1..])
  }

  lemma {:induction false} SumUpdate(xs: seq<real>, i: nat, v: real)
    requires i < |xs|
    ensures Sum(xs[i := v]) == Sum(xs) - xs[i] + v
  {
    if i == 0 {
      assert xs[0 := v][1..] == xs[1..];
    } else {
      assert xs[i := v][1..] == xs[1..][i - 1 := v];
      SumUpdate(xs[1..], i - 1, v);
    }
  }

  /** Termwise domination up to a slack `c` adds up to domination up to `|a|` times `c`. */
  lemma {:induction false} SumDominated(a: seq<real>, b: seq<real>, c: real)
    requires |a| == |b|
    requires forall i :: 0 <= i < |a| ==> a[i] <= b[i] + c
    ensures Sum(a) <= Sum(b) + Times(|a|, c)
  {
    if |a| > 0 {
      SumDominated(a[1..], b[1..], c);
    }
  }

  lemma {:induction false} SumAtLeastEach(xs: seq<real>, i: nat)
    requires i < |xs|
    requires forall j :: 0 <= j < |xs| ==> xs[j] >= 0.0
    ensures xs[i] <= Sum(xs)
  {
    SumDominated(seq(|xs|, j => 0.0)[i := xs[i]], xs, 0.0);
    SumUpdate(seq(|xs|, j => 0.0), i, xs[i]);
    SumConstant(|xs|, 0.0);
    TimesIsProduct(|xs|, 0.0);
  }

  lemma {:induction false} SumConstant(n: nat, c: real)
    ensures Sum(seq(n, j => c)) == Times(n, c)
  {
    if n > 0 {
      assert seq(n, j => c)[1..] == seq(n - 1, j => c);
      SumConstant(n - 1, c);
    }
  }

  lemma SumOrdered(a: seq<real>, b: seq<real>)
    requires |a| == |b|
    requires forall i :: 0 <= i < |a| ==> a[i] <= b[i]
    ensures Sum(a) <= Sum(b)
  {
    SumDominated(a, b, 0.0);
    TimesIsProduct(|a|, 0.0);
  }

  lemma SumNonNegative(xs: seq<real>)
    requires forall j :: 0 <= j < |xs| ==> xs[j] >= 0.0
    ensures Sum(xs) >= 0.0
  {
    SumConstant(|xs|, 0.0);
    TimesIsProduct(|xs|, 0.0);
    SumOrdered(seq(|xs|, j => 0.0), xs);
  }

  /** Two termwise ordered sequences with ordered-the-other-way sums are equal. */
  lemma {:induction false} SumForcesEqual(a: seq<real>, b: seq<real>)
    requires |a| == |b|
    requires forall i :: 0 <= i < |a| ==> a[i] <= b[i]
    requires Sum(b) <= Sum(a)
    ensures a == b
  {
    TimesIsProduct(|a|, 0.0);
    forall k | 0 <= k < |a| ensures a[k] == b[k] {
      SumUpdate(b, k, a[k]);
      SumDominated(a, b[k := a[k]], 0.0);
    }
  }
}
