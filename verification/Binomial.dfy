/** Exact binomial coefficients and the identities behind the hypergeometric distribution. */
module Binomial {

  /** Zero outside 0 <= k <= n, as the log form's minus infinity makes it. */
  function Choose(n: nat, k: int): nat {
    if k < 0 || k > n then 0
    else if k == 0 || k == n then 1
    else Choose(n - 1, k - 1) + Choose(n - 1, k)
  }

  function Factorial(n: nat): (f: nat)
    ensures f > 0
  {
    if n == 0 then 1 else n * Factorial(n - 1)
  }

  lemma ChooseIsPositive(n: nat, k: int)
    ensures Choose(n, k) > 0 <==> 0 <= k <= n
  {
  }

  lemma {:induction false} ChooseIsSymmetric(n: nat, k: int)
    ensures Choose(n, k) == Choose(n, n - k)
  {
    if 0 < k < n {
      ChooseIsSymmetric(n - 1, k - 1);
      ChooseIsSymmetric(n - 1, k);
    }
  }

  lemma {:induction false} ChooseByFactorials(n: nat, k: nat)
    requires k <= n
    ensures Choose(n, k) * (Factorial(k) * Factorial(n - k)) == Factorial(n)
  {
    if 0 < k < n {
      ChooseByFactorials(n - 1, k - 1);
      ChooseByFactorials(n - 1, k);
      var a, b := Choose(n - 1, k - 1), Choose(n - 1, k);
      var s, t := Factorial(k - 1), Factorial(n - 1 - k);
      assert Factorial(k) == k * s && Factorial(n - k) == (n - k) * t;
      PascalStep(a, b, k, n - k, s, t, Factorial(n - 1));
    }
  }

  lemma PascalStep(a: int, b: int, k: int, j: int, s: int, t: int, f: int)
    requires a * (s * (j * t)) == f && b * ((k * s) * t) == f
    ensures (a + b) * ((k * s) * (j * t)) == (k + j) * f
  {
    calc {
      (a + b) * ((k * s) * (j * t));
      a * ((k * s) * (j * t)) + b * ((k * s) * (j * t));
      { assert a * ((k * s) * (j * t)) == k * (a * (s * (j * t))); }
      { assert b * ((k * s) * (j * t)) == j * (b * ((k * s) * t)); }
      k * f + j * f;
      (k + j) * f;
    }
  }

  function Sum(f: int -> int, lo: int, hi: int): int
    decreases hi - lo
  {
    if hi < lo then 0 else Sum(f, lo, hi - 1) + f(hi)
  }

  lemma {:induction false} SumOfEqualTerms(f: int -> int, g: int -> int, lo: int, hi: int)
    requires forall x :: lo <= x <= hi ==> f(x) == g(x)
    ensures Sum(f, lo, hi) == Sum(g, lo, hi)
    decreases hi - lo
  {
    if lo <= hi { SumOfEqualTerms(f, g, lo, hi - 1); }
  }

  lemma {:induction false} SumSplits(f: int -> int, g: int -> int, h: int -> int, lo: int, hi: int)
    requires forall x :: lo <= x <= hi ==> h(x) == f(x) + g(x)
    ensures Sum(h, lo, hi) == Sum(f, lo, hi) + Sum(g, lo, hi)
    decreases hi - lo
  {
    if lo <= hi { SumSplits(f, g, h, lo, hi - 1); }
  }

  lemma {:induction false} SumShifts(f: int -> int, g: int -> int, lo: int, hi: int)
    requires forall x :: lo <= x <= hi ==> g(x) == f(x - 1)
    ensures Sum(g, lo, hi) == Sum(f, lo - 1, hi - 1)
    decreases hi - lo
  {
    if lo <= hi { SumShifts(f, g, lo, hi - 1); }
  }

  /** Zero terms at either end may be dropped. */
  lemma {:induction false} SumTrims(f: int -> int, lo: int, hi: int, lo': int, hi': int)
    requires lo <= lo' && hi' <= hi
    requires forall x :: lo <= x <= hi && (x < lo' || x > hi') ==> f(x) == 0
    ensures Sum(f, lo, hi) == Sum(f, lo', hi')
    decreases hi - lo
  {
    if hi < lo {
    } else if hi' < hi {
      SumTrims(f, lo, hi - 1, lo', hi');
    } else {
      SumTrims(f, lo, hi - 1, lo', hi' - 1);
    }
  }

  function Convolution(m: nat, n: nat, r: int): int -> int {
    x => Choose(m, x) * Choose(n, r - x)
  }

  /** Pascal's rule, which holds for every column. */
  lemma Pascal(n: nat, k: int)
    requires n > 0
    ensures Choose(n, k) == Choose(n - 1, k - 1) + Choose(n - 1, k)
  {
  }

  lemma ConvolutionTerm(m: nat, n: nat, r: int, x: int)
    requires m > 0
    ensures Convolution(m, n, r)(x) == Convolution(m - 1, n, r)(x) + Convolution(m - 1, n, r - 1)(x - 1)
  {
    Pascal(m, x);
    assert r - 1 - (x - 1) == r - x;
    DistributeLeft(Choose(m - 1, x), Choose(m - 1, x - 1), Choose(n, r - x));
  }

  lemma ConvolutionStep(m: nat, n: nat, r: int)
    requires m > 0
    ensures Sum(Convolution(m, n, r), 0, r) == Sum(Convolution(m - 1, n, r), 0, r) + Sum(Convolution(m - 1, n, r - 1), 0, r - 1)
  {
    forall x ensures Convolution(m, n, r)(x) == Convolution(m - 1, n, r)(x) + Convolution(m - 1, n, r - 1)(x - 1) {
      ConvolutionTerm(m, n, r, x);
    }
    ConvolutionVanishes(m - 1, n, r - 1, -1);
    SumOfShiftedPair(Convolution(m, n, r), Convolution(m - 1, n, r), Convolution(m - 1, n, r - 1), r);
  }

  lemma SumOfShiftedPair(f: int -> int, stay: int -> int, step: int -> int, r: int)
    requires (forall x :: f(x) == stay(x) + step(x - 1)) && step(-1) == 0
    ensures Sum(f, 0, r) == Sum(stay, 0, r) + Sum(step, 0, r - 1)
  {
    var moved := (x: int) => step(x - 1);
    SumSplits(stay, moved, f, 0, r);
    SumShifts(step, moved, 0, r);
    SumTrims(step, -1, r - 1, 0, r - 1);
  }

  lemma ConvolutionVanishes(m: nat, n: nat, r: int, x: int)
    requires x < 0 || x > m || r - x < 0 || r - x > n
    ensures Convolution(m, n, r)(x) == 0
  {
    var a, b := Choose(m, x), Choose(n, r - x);
    assert a == 0 || b == 0;
    assert a * b == 0;
  }

  lemma DistributeLeft(a: int, b: int, c: int)
    ensures (a + b) * c == a * c + b * c
  {
  }

  /** Vandermonde's identity. */
  lemma {:induction false} Vandermonde(m: nat, n: nat, r: int)
    ensures Sum(Convolution(m, n, r), 0, r) == Choose(m + n, r)
  {
    if r < 0 {
    } else if m == 0 {
      var f := Convolution(m, n, r);
      SumTrims(f, 0, r, 0, 0);
      assert Sum(f, 0, 0) == Sum(f, 0, -1) + f(0);
    } else {
      ConvolutionStep(m, n, r);
      Vandermonde(m - 1, n, r);
      Vandermonde(m - 1, n, r - 1);
      Pascal(m + n, r);
    }
  }
}
