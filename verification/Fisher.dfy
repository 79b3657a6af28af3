/** The two-sided Fisher exact test over exact arithmetic. */
module Fisher {
  import opened Binomial
  import opened Reals

  const TOLERANCE := 0.000000000000001

  /** How many arrangements with the given margins have `a` in the first cell. */
  function Arrangements(a: int, r1: int, c1: nat, n: nat): nat
    requires c1 <= n
  {
    Choose(c1, a) * Choose(n - c1, r1 - a)
  }

  /** P(A = a) with fixed margins. */
  function HypergeomP(a: int, r1: int, c1: nat, n: nat): real
    requires c1 <= n && 0 <= r1 <= n
  {
    ChooseIsPositive(n, r1);
    Arrangements(a, r1, c1, n) as real / Choose(n, r1) as real
  }

  function Lowest(r1: int, c1: int, n: int): int {
    if r1 - (n - c1) > 0 then r1 - (n - c1) else 0
  }

  function Highest(r1: int, c1: int): int {
    if r1 < c1 then r1 else c1
  }

  /** The probability mass of the values in a range that are at most `threshold`. */
  ghost function MassUpTo(f: int -> real, threshold: real, lo: int, hi: int): real
    decreases hi - lo
  {
    if hi < lo then 0.0
    else MassUpTo(f, threshold, lo, hi - 1) + if f(hi) <= threshold then f(hi) else 0.0
  }

  ghost function Distribution(r1: int, c1: nat, n: nat): int -> real
    requires c1 <= n && 0 <= r1 <= n
  {
    x => HypergeomP(x, r1, c1, n)
  }

  /** The p-value of a table: the mass of all tables with its margins that are at most as probable. */
  ghost function PValue(a: nat, b: nat, c: nat, d: nat, tolerance: real): real {
    var r1, c1, n := a + b, a + c, a + b + c + d;
    MassUpTo(Distribution(r1, c1, n), HypergeomP(a, r1, c1, n) + tolerance, Lowest(r1, c1, n), Highest(r1, c1))
  }

  method FisherExactTwoSided(a: nat, b: nat, c: nat, d: nat) returns (p: real)
    ensures p == PValue(a, b, c, d, 0.000000000000001)
  {
    var r1 := a + b;
    var r2 := c + d;
    var c1 := a + c;
    var n := r1 + r2;
    var amin := Lowest(r1, c1, n);
    var amax := Highest(r1, c1);
    ghost var f := Distribution(r1, c1, n);
    var pObs := HypergeomP(a, r1, c1, n);
    p := 0.0;
    for x := amin to amax + 1
      invariant p == MassUpTo(f, pObs + TOLERANCE, amin, x - 1)
    {
      var px := HypergeomP(x, r1, c1, n);
      if px <= pObs + TOLERANCE {
        p := p + px;
      }
    }
    PValueIsProbability(a, b, c, d, TOLERANCE);
    var floored := if 0.0 > p then 0.0 else p;
    p := if 1.0 < floored then 1.0 else floored;
  }

  lemma {:induction false} MassIsMonotone(f: int -> real, s: real, t: real, lo: int, hi: int)
    requires s <= t && forall x :: lo <= x <= hi ==> f(x) >= 0.0
    ensures 0.0 <= MassUpTo(f, s, lo, hi) <= MassUpTo(f, t, lo, hi)
    decreases hi - lo
  {
    if lo <= hi { MassIsMonotone(f, s, t, lo, hi - 1); }
  }

  lemma {:induction false} MassIncludes(f: int -> real, threshold: real, lo: int, hi: int, a: int)
    requires lo <= a <= hi && f(a) <= threshold && forall x :: lo <= x <= hi ==> f(x) >= 0.0
    ensures MassUpTo(f, threshold, lo, hi) >= f(a)
    decreases hi - lo
  {
    if a < hi {
      MassIncludes(f, threshold, lo, hi - 1, a);
    } else {
      MassIsMonotone(f, threshold, threshold, lo, hi - 1);
    }
  }

  /** Weights over a common total, all of them below the threshold. */
  lemma {:induction false} MassOfEverything(f: int -> real, w: int -> int, total: real, threshold: real, lo: int, hi: int)
    requires total > 0.0
    requires forall x :: lo <= x <= hi ==> f(x) == w(x) as real / total && f(x) <= threshold
    ensures MassUpTo(f, threshold, lo, hi) == Sum(w, lo, hi) as real / total
    decreases hi - lo
  {
    if lo <= hi {
      MassOfEverything(f, w, total, threshold, lo, hi - 1);
      assert (Sum(w, lo, hi - 1) + w(hi)) as real / total == Sum(w, lo, hi - 1) as real / total + w(hi) as real / total;
    }
  }

  /** Terms are never negative, and the observed table's is positive. */
  lemma TermSign(x: int, r1: int, c1: nat, n: nat)
    requires c1 <= n && 0 <= r1 <= n
    ensures HypergeomP(x, r1, c1, n) >= 0.0
    ensures 0 <= x <= c1 && 0 <= r1 - x <= n - c1 ==> HypergeomP(x, r1, c1, n) > 0.0
  {
    ChooseIsPositive(n, r1);
    ChooseIsPositive(c1, x);
    ChooseIsPositive(n - c1, r1 - x);
    assert Choose(c1, x) > 0 && Choose(n - c1, r1 - x) > 0 ==> Arrangements(x, r1, c1, n) > 0;
    QuotientSign(Arrangements(x, r1, c1, n) as real, Choose(n, r1) as real);
  }

  lemma WholeRatio(w: int, total: nat)
    requires w == total > 0
    ensures w as real / total as real == 1.0
  {
  }

  /** The hypergeometric terms over the loop's range sum to one. */
  lemma TermsSumToOne(r1: int, c1: nat, n: nat, threshold: real)
    requires c1 <= n && 0 <= r1 <= n
    requires forall x :: Lowest(r1, c1, n) <= x <= Highest(r1, c1) ==> Distribution(r1, c1, n)(x) <= threshold
    ensures MassUpTo(Distribution(r1, c1, n), threshold, Lowest(r1, c1, n), Highest(r1, c1)) == 1.0
  {
    var w := Convolution(c1, n - c1, r1);
    var lo, hi := Lowest(r1, c1, n), Highest(r1, c1);
    ChooseIsPositive(n, r1);
    forall x | lo <= x <= hi ensures Distribution(r1, c1, n)(x) == w(x) as real / Choose(n, r1) as real {
      assert w(x) == Arrangements(x, r1, c1, n);
    }
    MassOfEverything(Distribution(r1, c1, n), w, Choose(n, r1) as real, threshold, lo, hi);
    forall x | 0 <= x <= r1 && (x < lo || x > hi) ensures w(x) == 0 {
      ConvolutionVanishes(c1, n - c1, r1, x);
    }
    SumTrims(w, 0, r1, lo, hi);
    Vandermonde(c1, n - c1, r1);
    assert c1 + (n - c1) == n;
    WholeRatio(Sum(w, lo, hi), Choose(n, r1));
  }

  ghost function Largest(f: int -> real, lo: int, hi: int): (m: real)
    ensures forall x :: lo <= x <= hi ==> f(x) <= m
    decreases hi - lo
  {
    if hi < lo then 0.0
    else
      var rest := Largest(f, lo, hi - 1);
      if f(hi) > rest then f(hi) else rest
  }

  /** The p-value lies between the probability of the observed table and one, so the final clamp never acts. */
  lemma PValueIsProbability(a: nat, b: nat, c: nat, d: nat, tolerance: real)
    requires tolerance >= 0.0
    ensures 0.0 < HypergeomP(a, a + b, a + c, a + b + c + d) <= PValue(a, b, c, d, tolerance) <= 1.0
  {
    var r1, c1, n := a + b, a + c, a + b + c + d;
    var lo, hi := Lowest(r1, c1, n), Highest(r1, c1);
    var f := Distribution(r1, c1, n);
    forall x ensures f(x) >= 0.0 {
      TermSign(x, r1, c1, n);
    }
    TermSign(a, r1, c1, n);
    MassIncludes(f, f(a) + tolerance, lo, hi, a);
    var top := Largest(f, lo, hi);
    var threshold := if top > f(a) + tolerance then top else f(a) + tolerance;
    MassIsMonotone(f, f(a) + tolerance, threshold, lo, hi);
    forall x | lo <= x <= hi ensures f(x) <= threshold {
    }
    TermsSumToOne(r1, c1, n, threshold);
  }

  /** Reversing the direction of summation. */
  lemma {:induction false} MassReflects(f: int -> real, g: int -> real, threshold: real, lo: int, hi: int, s: int)
    requires forall x :: lo <= x <= hi ==> f(x) == g(s - x)
    ensures MassUpTo(f, threshold, lo, hi) == MassUpTo(g, threshold, s - hi, s - lo)
    decreases hi - lo
  {
    if lo <= hi {
      MassReflects(f, g, threshold, lo, hi - 1, s);
      MassPeelsFront(g, threshold, s - hi, s - lo);
    }
  }

  lemma {:induction false} MassPeelsFront(g: int -> real, threshold: real, lo: int, hi: int)
    requires lo <= hi
    ensures MassUpTo(g, threshold, lo, hi) == (if g(lo) <= threshold then g(lo) else 0.0) + MassUpTo(g, threshold, lo + 1, hi)
    decreases hi - lo
  {
    if lo < hi { MassPeelsFront(g, threshold, lo, hi - 1); }
  }

  lemma TermWithRowsSwapped(x: int, r1: int, c1: nat, n: nat)
    requires c1 <= n && 0 <= r1 <= n
    ensures HypergeomP(c1 - x, n - r1, c1, n) == HypergeomP(x, r1, c1, n)
  {
    ChooseIsSymmetric(c1, x);
    ChooseIsSymmetric(n - c1, r1 - x);
    ChooseIsSymmetric(n, r1);
    assert n - c1 - (r1 - x) == n - r1 - (c1 - x);
  }

  /** Swapping the rows of the table leaves the p-value unchanged. */
  lemma PValueIgnoresRowOrder(a: nat, b: nat, c: nat, d: nat, tolerance: real)
    ensures PValue(c, d, a, b, tolerance) == PValue(a, b, c, d, tolerance)
  {
    var r1, c1, n := a + b, a + c, a + b + c + d;
    var f, g := Distribution(r1, c1, n), Distribution(n - r1, c1, n);
    forall x ensures f(x) == g(c1 - x) {
      TermWithRowsSwapped(x, r1, c1, n);
    }
    assert f(a) == g(c);
    MassReflects(f, g, f(a) + tolerance, Lowest(r1, c1, n), Highest(r1, c1), c1);
  }

  lemma TermWithColumnsSwapped(x: int, r1: int, c1: nat, n: nat)
    requires c1 <= n && 0 <= r1 <= n
    ensures HypergeomP(r1 - x, r1, n - c1, n) == HypergeomP(x, r1, c1, n)
  {
    assert n - (n - c1) == c1 && r1 - (r1 - x) == x;
  }

  /** Swapping the columns of the table leaves the p-value unchanged. */
  lemma PValueIgnoresColumnOrder(a: nat, b: nat, c: nat, d: nat, tolerance: real)
    ensures PValue(b, a, d, c, tolerance) == PValue(a, b, c, d, tolerance)
  {
    var r1, c1, n := a + b, a + c, a + b + c + d;
    var f, g := Distribution(r1, c1, n), Distribution(r1, n - c1, n);
    forall x ensures f(x) == g(r1 - x) {
      TermWithColumnsSwapped(x, r1, c1, n);
    }
    assert f(a) == g(b);
    MassReflects(f, g, f(a) + tolerance, Lowest(r1, c1, n), Highest(r1, c1), r1);
  }

  lemma Regroup(a: int, b: int, t: int, p: int, q: int, u: int, v: int, f: int)
    requires a * p == u && b * q == v && t * (u * v) == f
    ensures (a * b * t) * (p * q) == f
  {
    calc {
      (a * b * t) * (p * q);
      t * ((a * p) * (b * q));
      t * (u * v);
    }
  }

  lemma Cancel(x: int, y: int, p: int)
    requires p > 0 && x * p == y * p
    ensures x == y
  {
  }

  /** Choosing margins in either order: both sides count the tables with the given cells among n items. */
  lemma ArrangementsTimesColumnChoices(x: nat, y: nat, u: nat, v: nat)
    ensures (Choose(x + u, x) * Choose(y + v, y) * Choose(x + y + u + v, x + u))
            * ((Factorial(x) * Factorial(u)) * (Factorial(y) * Factorial(v))) == Factorial(x + y + u + v)
  {
    ChooseByFactorials(x + u, x);
    ChooseByFactorials(y + v, y);
    ChooseByFactorials(x + y + u + v, x + u);
    Regroup(Choose(x + u, x), Choose(y + v, y), Choose(x + y + u + v, x + u),
            Factorial(x) * Factorial(u), Factorial(y) * Factorial(v),
            Factorial(x + u), Factorial(y + v), Factorial(x + y + u + v));
  }

  /** For a table with cells x, y / u, v: weighing by rows or by columns gives the same probability. */
  lemma CellsByRowsOrColumns(x: nat, y: nat, u: nat, v: nat)
    ensures Choose(x + u, x) * Choose(y + v, y) * Choose(x + y + u + v, x + u)
         == Choose(x + y, x) * Choose(u + v, u) * Choose(x + y + u + v, x + y)
  {
    ArrangementsTimesColumnChoices(x, y, u, v);
    ArrangementsTimesColumnChoices(x, u, y, v);
    var p := (Factorial(x) * Factorial(u)) * (Factorial(y) * Factorial(v));
    assert p == (Factorial(x) * Factorial(y)) * (Factorial(u) * Factorial(v));
    assert x + u + y + v == x + y + u + v;
    ProductIsPositive(Factorial(x), Factorial(u), Factorial(y), Factorial(v));
    Cancel(Choose(x + u, x) * Choose(y + v, y) * Choose(x + y + u + v, x + u),
           Choose(x + y, x) * Choose(u + v, u) * Choose(x + y + u + v, x + y), p);
  }

  lemma ProductIsPositive(a: int, b: int, c: int, d: int)
    requires a > 0 && b > 0 && c > 0 && d > 0
    ensures (a * b) * (c * d) > 0
  {
  }

  lemma CrossRatio(w: int, s: int, w': int, s': int)
    requires s > 0 && s' > 0 && w * s' == w' * s
    ensures w as real / s as real == w' as real / s' as real
  {
    var a, b, c, d := w as real, s as real, w' as real, s' as real;
    assert a * d == c * b;
    assert a / b == (a * d) / (b * d) == (c * b) / (b * d) == c / d;
  }

  lemma TermTransposed(x: int, r1: nat, c1: nat, n: nat)
    requires c1 <= n && r1 <= n && Lowest(r1, c1, n) <= x <= Highest(r1, c1)
    ensures HypergeomP(x, r1, c1, n) == HypergeomP(x, c1, r1, n)
  {
    var y, u, v := r1 - x, c1 - x, n - c1 - (r1 - x);
    CellsByRowsOrColumns(x, y, u, v);
    ChooseIsPositive(n, r1);
    ChooseIsPositive(n, c1);
    assert x + y + u + v == n && x + u == c1 && x + y == r1 && y + v == n - c1 && u + v == n - r1;
    CrossRatio(Arrangements(x, r1, c1, n), Choose(n, r1), Arrangements(x, c1, r1, n), Choose(n, c1));
  }

  lemma {:induction false} MassOfEqualTerms(f: int -> real, g: int -> real, threshold: real, lo: int, hi: int)
    requires forall x :: lo <= x <= hi ==> f(x) == g(x)
    ensures MassUpTo(f, threshold, lo, hi) == MassUpTo(g, threshold, lo, hi)
    decreases hi - lo
  {
    if lo <= hi { MassOfEqualTerms(f, g, threshold, lo, hi - 1); }
  }

  /** Transposing the table leaves the p-value unchanged. */
  lemma PValueIgnoresTransposition(a: nat, b: nat, c: nat, d: nat, tolerance: real)
    ensures PValue(a, c, b, d, tolerance) == PValue(a, b, c, d, tolerance)
  {
    var r1, c1, n := a + b, a + c, a + b + c + d;
    var f, g := Distribution(r1, c1, n), Distribution(c1, r1, n);
    var lo, hi := Lowest(r1, c1, n), Highest(r1, c1);
    forall x | lo <= x <= hi ensures f(x) == g(x) {
      TermTransposed(x, r1, c1, n);
    }
    assert f(a) == g(a);
    MassOfEqualTerms(f, g, f(a) + tolerance, lo, hi);
  }

  lemma MulPairs(x: int, p: int, u: int, y: int, q: int, v: int)
    requires x * p == u && y * q == v
    ensures (x * y) * (p * q) == u * v
  {
  }

  lemma RatioByParts(w: int, t: int, p: int, q: int, u: int, f: int)
    requires t > 0 && w * p == u && t * q == f
    ensures (w as real / t as real) * ((f * p) as real) == (u * q) as real
  {
    assert w * p * (t * q) == u * (t * q);
    var a, b, c, d := w as real, t as real, p as real, q as real;
    assert (f * p) as real == (b * d) * c;
    assert (u * q) as real == (a * c) * d;
    assert (a / b) * b == a;
    assert (a / b) * ((b * d) * c) == ((a / b) * b) * (d * c);
  }

  ghost function Factorials(x: nat, y: nat): int {
    Factorial(x) * Factorial(y)
  }

  lemma ArrangementsByFactorials(a: nat, b: nat, c: nat, d: nat)
    ensures Arrangements(a, a + b, a + c, a + b + c + d) * (Factorials(a, c) * Factorials(b, d)) == Factorials(a + c, b + d)
  {
    ChooseByFactorials(a + c, a);
    ChooseByFactorials(b + d, b);
    MulPairs(Choose(a + c, a), Factorials(a, c), Factorial(a + c), Choose(b + d, b), Factorials(b, d), Factorial(b + d));
  }

  lemma RowChoicesByFactorials(r1: nat, r2: nat)
    ensures Choose(r1 + r2, r1) > 0 && Choose(r1 + r2, r1) * Factorials(r1, r2) == Factorial(r1 + r2)
  {
    ChooseByFactorials(r1 + r2, r1);
    ChooseIsPositive(r1 + r2, r1);
  }

  /** The probability of a table is the product of the factorials of its margins over those of its total and its cells. */
  lemma TermByFactorials(a: nat, b: nat, c: nat, d: nat)
    ensures HypergeomP(a, a + b, a + c, a + b + c + d)
            * ((Factorial(a + b + c + d) * (Factorials(a, c) * Factorials(b, d))) as real)
            == (Factorials(a + c, b + d) * Factorials(a + b, c + d)) as real
  {
    var n := a + b + c + d;
    ArrangementsByFactorials(a, b, c, d);
    RowChoicesByFactorials(a + b, c + d);
    assert a + b + (c + d) == n;
    RatioByParts(Arrangements(a, a + b, a + c, n), Choose(n, a + b), Factorials(a, c) * Factorials(b, d), Factorials(a + b, c + d),
                 Factorials(a + c, b + d), Factorial(n));
  }
}
