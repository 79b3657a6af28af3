/** The Wilson score interval, with the square root as a parameter. */
module Wilson {
  import opened Reals

  datatype Interval = Interval(lower: real, upper: real)

  /** The argument of the square root. */
  function Radicand(k: nat, n: nat, z: real): real
    requires n > 0
  {
    var p := k as real / n as real;
    p * (1.0 - p) / n as real + z * z / (4.0 * n as real * n as real)
  }

  /** What the square-root function promises. */
  predicate IsRoot(root: real, x: real) {
    root >= 0.0 && root * root == x
  }

  function Square(x: real): real {
    x * x
  }

  /** A square has the number itself for its root, without its sign. */
  lemma RootOfSquare(x: real)
    ensures IsRoot(if x < 0.0 then -x else x, Square(x))
  {
  }

  function Max(a: real, b: real): real {
    if b > a then b else a
  }

  function Min(a: real, b: real): real {
    if b < a then b else a
  }

  lemma DenominatorIsPositive(z: real, n: nat)
    requires n > 0
    ensures z * z >= 0.0 && z * z / n as real >= 0.0 && 1.0 + z * z / n as real > 0.0
  {
  }

  function Center(k: nat, n: nat, z: real): real
    requires n > 0
  {
    DenominatorIsPositive(z, n);
    (k as real / n as real + z * z / (2.0 * n as real)) / (1.0 + z * z / n as real)
  }

  function Margin(n: nat, z: real, root: real): real
    requires n > 0
  {
    DenominatorIsPositive(z, n);
    z / (1.0 + z * z / n as real) * root
  }

  /** The interval of the transition-matrix module. */
  function WilsonCi(k: nat, n: int, z: real, root: real): (real, real) {
    if n <= 0 then (0.0, 0.0)
    else (Max(0.0, Center(k, n, z) - Margin(n, z, root)), Min(1.0, Center(k, n, z) + Margin(n, z, root)))
  }

  /** The interval of the core statistics module. */
  function WilsonInterval(k: nat, n: int, z: real, root: real): Interval {
    if n <= 0 then Interval(0.0, 0.0)
    else
      var p := k as real / n as real;
      var z2 := z * z;
      DenominatorIsPositive(z, n);
      var den := 1.0 + z2 / n as real;
      var center := (p + z2 / (2.0 * n as real)) / den;
      var margin := (z / den) * root;
      Interval(Max(0.0, center - margin), Min(1.0, center + margin))
  }

  lemma ImplementationsAgree(k: nat, n: int, z: real, root: real)
    ensures WilsonInterval(k, n, z, root) == Interval(WilsonCi(k, n, z, root).0, WilsonCi(k, n, z, root).1)
  {
  }

  /** Completing the square in the score test's quadratic. */
  lemma ScoreQuadratic(p: real, w: real, q: real, t: real)
    requires q * q == w * (p * (1.0 - p)) + w * w / 4.0
    ensures (t * (1.0 + w) - (p + w / 2.0)) * (t * (1.0 + w) - (p + w / 2.0)) - q * q
         == (1.0 + w) * ((p - t) * (p - t) - w * (t * (1.0 - t)))
  {
  }

  lemma ProductSign(a: real, b: real)
    requires a >= 0.0 && b >= 0.0
    ensures a * b >= 0.0 && (a > 0.0 && b > 0.0 ==> a * b > 0.0)
  {
  }

  lemma NegatedFactor(a: real, b: real)
    ensures a * -b == -(a * b)
  {
  }

  lemma SquareGrows(y: real, x: real)
    requires 0.0 <= y <= x
    ensures x * x >= y * y && (x > y ==> x * x > y * y)
  {
    ProductSign(x - y, x + y);
    assert (x - y) * (x + y) == x * x - y * y;
  }

  lemma SquaresCompare(x: real, q: real)
    requires q >= 0.0
    ensures Square(x) <= Square(q) <==> -q <= x <= q
  {
    var y := if x >= 0.0 then x else -x;
    assert y * y == x * x by {
      if x < 0.0 { NegatedFactor(-x, x); NegatedFactor(x, x); assert x * -x == -x * x; }
    }
    if y <= q { SquareGrows(y, q); } else { SquareGrows(q, y); }
  }

  lemma SignOfProduct(a: real, b: real)
    requires a > 0.0
    ensures a * b <= 0.0 <==> b <= 0.0
  {
  }

  /** Between the roots of the quadratic is where the score test accepts. */
  lemma BetweenRoots(p: real, w: real, q: real, t: real)
    requires w >= 0.0 && q >= 0.0 && q * q == w * (p * (1.0 - p)) + w * w / 4.0
    ensures Square(p - t) <= w * (t * (1.0 - t)) <==> -q <= t * (1.0 + w) - (p + w / 2.0) <= q
  {
    var x := t * (1.0 + w) - (p + w / 2.0);
    ScoreQuadratic(p, w, q, t);
    SquaresCompare(x, q);
    SignOfProduct(1.0 + w, Square(p - t) - w * (t * (1.0 - t)));
  }

  lemma ScaledEndpoints(c: real, m: real, a: real, q: real, den: real, t: real)
    requires den > 0.0 && c == a / den && m * den == q
    ensures c - m <= t <= c + m <==> -q <= t * den - a <= q
  {
    assert c * den == a;
    assert (t - c) * den == t * den - a;
    assert t <= c + m <==> (t - c) * den <= m * den;
    assert c - m <= t <==> -(m * den) <= (t - c) * den;
  }

  /** The root, scaled as it enters the margin. */
  lemma ScaledRoot(k: nat, n: nat, z: real, root: real)
    requires n > 0 && IsRoot(root, Radicand(k, n, z))
    ensures var p, w := k as real / n as real, z * z / n as real;
            (z * root) * (z * root) == w * (p * (1.0 - p)) + w * w / 4.0
  {
    var m := n as real;
    var s := k as real / n as real * (1.0 - k as real / n as real);
    var v := z * z / (4.0 * n as real * n as real);
    assert root * root == s / m + v;
    assert (z * root) * (z * root) == (z * z) * (root * root);
    ScaleSum(z * z, s / m, v);
    ScaledParts(z * z, s, m, z * z / m);
  }

  lemma ScaledParts(z2: real, s: real, m: real, w: real)
    requires m > 0.0 && w == z2 / m
    ensures z2 * (s / m) == w * s && z2 * (z2 / (4.0 * m * m)) == w * w / 4.0
  {
    assert z2 == w * m;
    assert (s / m) * m == s;
    assert z2 * (s / m) == w * (m * (s / m));
    var v := z2 / (4.0 * m * m);
    assert v * (4.0 * m * m) == z2;
    assert v * (4.0 * m) * m == w * m;
    assert v * (4.0 * m) == w;
    assert z2 * v == w * (m * v);
  }

  /** Acceptance by the score test, in terms of the unclamped endpoints. */
  lemma EndpointsInvertScoreTest(k: nat, n: nat, z: real, root: real, t: real)
    requires n > 0 && z >= 0.0 && IsRoot(root, Radicand(k, n, z))
    ensures var p := k as real / n as real;
            Center(k, n, z) - Margin(n, z, root) <= t <= Center(k, n, z) + Margin(n, z, root)
            <==> Square(p - t) <= z * z / n as real * (t * (1.0 - t))
  {
    var p, w := k as real / n as real, z * z / n as real;
    var q := z * root;
    DenominatorIsPositive(z, n);
    ScaledRoot(k, n, z, root);
    BetweenRoots(p, w, q, t);
    HalfWeight(z * z, n as real);
    MarginTimesDenominator(z, root, 1.0 + w);
    ScaledEndpoints(Center(k, n, z), Margin(n, z, root), p + w / 2.0, q, 1.0 + w, t);
  }

  lemma HalfWeight(z2: real, m: real)
    requires m > 0.0
    ensures z2 / (2.0 * m) == z2 / m / 2.0
  {
  }

  lemma MarginTimesDenominator(z: real, root: real, den: real)
    requires den > 0.0
    ensures z / den * root * den == z * root
  {
    assert z / den * den == z;
  }

  lemma ProportionInUnit(k: nat, n: nat)
    requires n > 0 && k <= n
    ensures 0.0 <= k as real / n as real <= 1.0
  {
  }

  lemma WeightedVariance(p: real, w: real)
    requires 0.0 <= p <= 1.0 && w >= 0.0
    ensures Square(p - p) <= w * (p * (1.0 - p))
  {
    ProductSign(p, 1.0 - p);
    ProductSign(w, p * (1.0 - p));
  }

  /** The bounds bracket the observed proportion inside the unit interval, so neither clamp ever acts. */
  lemma BoundsBracketProportion(k: nat, n: nat, z: real, root: real)
    requires n > 0 && k <= n && z >= 0.0 && IsRoot(root, Radicand(k, n, z))
    ensures WilsonCi(k, n, z, root) == (Center(k, n, z) - Margin(n, z, root), Center(k, n, z) + Margin(n, z, root))
    ensures 0.0 <= WilsonCi(k, n, z, root).0 <= k as real / n as real <= WilsonCi(k, n, z, root).1 <= 1.0
  {
    var p, w := k as real / n as real, z * z / n as real;
    var lo, hi := Center(k, n, z) - Margin(n, z, root), Center(k, n, z) + Margin(n, z, root);
    DenominatorIsPositive(z, n);
    ProportionInUnit(k, n);
    WeightedVariance(p, w);
    EndpointsInvertScoreTest(k, n, z, root, p);
    if lo < 0.0 {
      var t := if lo > -1.0 then lo else -1.0;
      EndpointsInvertScoreTest(k, n, z, root, t);
      OutsideUnit(p, w, t);
    }
    if hi > 1.0 {
      var t := if hi < 2.0 then hi else 2.0;
      EndpointsInvertScoreTest(k, n, z, root, t);
      OutsideUnit(p, w, t);
    }
  }

  lemma ProductIsNonpositive(w: real, u: real)
    requires w >= 0.0 >= u
    ensures w * u <= 0.0
  {
  }

  lemma SquareIsPositive(g: real)
    requires g != 0.0
    ensures Square(g) > 0.0
  {
    var y := if g > 0.0 then g else -g;
    SquareGrows(0.0, y);
    SquaresCompare(g, 0.0);
  }

  lemma SquareBeatsNegative(g: real, w: real, u: real)
    requires g != 0.0 && w >= 0.0 && u <= 0.0
    ensures Square(g) > w * u
  {
    ProductIsNonpositive(w, u);
    SquareIsPositive(g);
  }

  lemma OutsideUnit(p: real, w: real, t: real)
    requires 0.0 <= p <= 1.0 && w >= 0.0 && (t < 0.0 || t > 1.0)
    ensures Square(p - t) > w * (t * (1.0 - t))
  {
    if t < 0.0 {
      ProductSign(-t, 1.0 - t);
      NegatedFactor(1.0 - t, t);
    } else {
      ProductSign(t, t - 1.0);
      NegatedFactor(t, 1.0 - t);
    }
    SquareBeatsNegative(p - t, w, t * (1.0 - t));
  }

  /** The interval is exactly the set of proportions that a score test with critical value z does not reject. */
  lemma IntervalInvertsScoreTest(k: nat, n: nat, z: real, root: real, t: real)
    requires n > 0 && k <= n && z >= 0.0 && IsRoot(root, Radicand(k, n, z))
    ensures var (lo, hi) := WilsonCi(k, n, z, root);
            var p := k as real / n as real;
            lo <= t <= hi <==> Square(p - t) <= z * z / n as real * (t * (1.0 - t))
  {
    BoundsBracketProportion(k, n, z, root);
    EndpointsInvertScoreTest(k, n, z, root, t);
  }
}
