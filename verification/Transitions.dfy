/** Transition counts and probabilities of repair experiments. */
module Transitions {
  import opened Schema
  import opened Wilson

  /** A normalized final status; anything but the two known ones is rejected. */
  datatype Status = SUCCESS | FAIL | OTHER(text: string)

  datatype Row = Row(status: Status, repairAttempted: bool, repairSuccess: bool)

  datatype State = S0 | S1 | S2 | S3

  datatype Transition = Transition(source: State, target: State)

  const S0S1 := Transition(S0, S1)
  const S0S2 := Transition(S0, S2)
  const S0S3 := Transition(S0, S3)
  const S1S2 := Transition(S1, S2)
  const S1S3 := Transition(S1, S3)

  type Counter<!K(==)> = map<K, nat>

  function Count<K(==)>(c: Counter<K>, k: K): nat {
    if k in c then c[k] else 0
  }

  function Bump<K(==)>(c: Counter<K>, k: K): Counter<K> {
    c[k := Count(c, k) + 1]
  }

  datatype Matrix = Matrix(transitions: Counter<Transition>, origins: Counter<State>)

  predicate ValidRow(r: Row) {
    !r.status.OTHER? && (r.repairSuccess ==> r.repairAttempted)
  }

  /** The rows with a property, counted independently of the matrix. */
  function RowsWith(rows: seq<Row>, p: Row -> bool): nat {
    if rows == [] then 0
    else RowsWith(rows[..|rows| - 1], p) + if p(rows[|rows| - 1]) then 1 else 0
  }

  const REPAIRED: Row -> bool := (r: Row) => r.repairAttempted && r.status == SUCCESS
  const FAILED_AFTER_REPAIR: Row -> bool := (r: Row) => r.repairAttempted && r.status == FAIL
  const FAILED_UNREPAIRED: Row -> bool := (r: Row) => !r.repairAttempted && r.status == FAIL

  /** What each counter stands for. Successes without a repair attempt leave no trace. */
  ghost predicate Describes(m: Matrix, rows: seq<Row>) {
    var repaired := RowsWith(rows, REPAIRED);
    var failedAfter := RowsWith(rows, FAILED_AFTER_REPAIR);
    var failedPlain := RowsWith(rows, FAILED_UNREPAIRED);
    && Count(m.origins, S0) == repaired + failedAfter + failedPlain
    && Count(m.origins, S1) == repaired + failedAfter
    && Count(m.transitions, S0S1) == repaired + failedAfter
    && Count(m.transitions, S0S2) == repaired
    && Count(m.transitions, S0S3) == failedAfter + failedPlain
    && Count(m.transitions, S1S2) == repaired
    && Count(m.transitions, S1S3) == failedAfter
  }

  /** The increments for one valid row. */
  method CountRow(row: Row, counts: Counter<Transition>, origins: Counter<State>, ghost before: seq<Row>)
    returns (counts': Counter<Transition>, origins': Counter<State>)
    requires ValidRow(row) && Describes(Matrix(counts, origins), before)
    ensures Describes(Matrix(counts', origins'), before + [row])
  {
    counts', origins' := counts, origins;
    if row.status == FAIL {
      origins' := Bump(origins', S0);
      if row.repairAttempted {
        counts' := Bump(counts', S0S1);
        origins' := Bump(origins', S1);
        counts' := Bump(counts', S1S3);
        counts' := Bump(counts', S0S3);
      } else {
        counts' := Bump(counts', S0S3);
      }
    } else if row.status == SUCCESS {
      if row.repairAttempted {
        counts' := Bump(counts', S0S1);
        origins' := Bump(origins', S0);
        origins' := Bump(origins', S1);
        counts' := Bump(counts', S1S2);
        counts' := Bump(counts', S0S2);
      }
    }
    assert (before + [row])[..|before|] == before;
  }

  method BuildMatrix(rows: seq<Row>) returns (r: Result<Matrix, string>)
    ensures r.Success? <==> forall row :: row in rows ==> ValidRow(row)
    ensures r.Success? ==> Describes(r.value, rows)
  {
    var counts: Counter<Transition> := map[];
    var origins: Counter<State> := map[];
    assert rows[..0] == [];
    for i := 0 to |rows|
      invariant forall j :: 0 <= j < i ==> ValidRow(rows[j])
      invariant Describes(Matrix(counts, origins), rows[..i])
    {
      var row := rows[i];
      assert row in rows;
      if row.status.OTHER? { return Failure("invalid status"); }
      if row.repairSuccess && !row.repairAttempted {
        return Failure("repair_success cannot be true when repair_attempted is false");
      }
      assert rows[..i + 1] == rows[..i] + [row];
      counts, origins := CountRow(row, counts, origins, rows[..i]);
    }
    assert rows[..|rows|] == rows;
    r := Success(Matrix(counts, origins));
  }

  /** Flow is conserved at both branching states. */
  ghost predicate FlowConserved(m: Matrix) {
    && Count(m.origins, S0) == Count(m.transitions, S0S2) + Count(m.transitions, S0S3)
    && Count(m.origins, S1) == Count(m.transitions, S1S2) + Count(m.transitions, S1S3)
    && Count(m.origins, S1) == Count(m.transitions, S0S1)
    && Count(m.transitions, S0S2) == Count(m.transitions, S1S2)
  }

  lemma MatrixConservesFlow(m: Matrix, rows: seq<Row>)
    requires Describes(m, rows)
    ensures FlowConserved(m)
  {
  }

  datatype Estimate = Estimate(count: nat, denominator: nat, probability: real, lower: real, upper: real)

  /** What the square-root function promises on nonnegative arguments. */
  ghost predicate RootsFor(sqrt: real -> real) {
    forall x :: x >= 0.0 ==> IsRoot(sqrt(x), x)
  }

  const Z := 1.959963984540054

  function Probability(m: Matrix, t: Transition): real {
    var n, k := Count(m.origins, t.source), Count(m.transitions, t);
    if n != 0 then k as real / n as real else 0.0
  }

  function EstimateOf(m: Matrix, t: Transition, sqrt: real -> real): Estimate {
    var n, k := Count(m.origins, t.source), Count(m.transitions, t);
    var (lo, hi) := if n == 0 then (0.0, 0.0) else WilsonCi(k, n, Z, sqrt(Radicand(k, n, Z)));
    Estimate(k, n, Probability(m, t), lo, hi)
  }

  method ComputeProbabilities(m: Matrix, sqrt: real -> real) returns (out: map<Transition, Estimate>)
    ensures out.Keys == {S0S1, S0S2, S0S3, S1S2, S1S3}
    ensures forall t :: t in out ==> out[t] == EstimateOf(m, t, sqrt)
  {
    out := map[];
    var transitions := [S0S1, S0S2, S0S3, S1S2, S1S3];
    for i := 0 to |transitions|
      invariant forall t :: t in out <==> t in transitions[..i]
      invariant forall t :: t in out ==> out[t] == EstimateOf(m, t, sqrt)
    {
      out := out[transitions[i] := EstimateOf(m, transitions[i], sqrt)];
    }
    assert transitions[..|transitions|] == transitions;
  }

  lemma QuotientsAdd(a: nat, b: nat, n: nat)
    requires n > 0 && a + b == n
    ensures a as real / n as real + b as real / n as real == 1.0
  {
    QuotientSum(a as real, b as real, n as real);
  }

  lemma QuotientTimesDivisor(x: real, z: real)
    requires z > 0.0
    ensures z * (x / z) == x
  {
  }

  lemma QuotientSum(x: real, y: real, z: real)
    requires z > 0.0 && x + y == z
    ensures x / z + y / z == 1.0
  {
    QuotientTimesDivisor(x, z);
    QuotientTimesDivisor(y, z);
    SharesOfWhole(x, y, z, x / z, y / z);
  }

  lemma SharesOfWhole(x: real, y: real, z: real, u: real, v: real)
    requires z > 0.0 && z * u == x && z * v == y && x + y == z
    ensures u + v == 1.0
  {
    assert z * (u + v - 1.0) == 0.0;
  }

  lemma QuotientsChain(a: nat, b: nat, n: nat)
    requires n > 0 && b > 0
    ensures a as real / n as real == b as real / n as real * (a as real / b as real)
  {
    var x, y, z := a as real, b as real, n as real;
    assert y * (x / y) == x;
    assert y / z * (x / y) == (y * (x / y)) / z;
  }

  /** Whenever a branching state was visited, the probabilities of its two outcomes sum to one. */
  lemma BranchesSumToOne(m: Matrix, rows: seq<Row>)
    requires Describes(m, rows)
    ensures Count(m.origins, S0) > 0 ==> Probability(m, S0S2) + Probability(m, S0S3) == 1.0
    ensures Count(m.origins, S1) > 0 ==> Probability(m, S1S2) + Probability(m, S1S3) == 1.0
  {
    MatrixConservesFlow(m, rows);
    if Count(m.origins, S0) > 0 {
      QuotientsAdd(Count(m.transitions, S0S2), Count(m.transitions, S0S3), Count(m.origins, S0));
    }
    if Count(m.origins, S1) > 0 {
      QuotientsAdd(Count(m.transitions, S1S2), Count(m.transitions, S1S3), Count(m.origins, S1));
    }
  }

  /** The collapsed success path is the product of its two steps. */
  lemma CollapsedPathIsProduct(m: Matrix, rows: seq<Row>)
    requires Describes(m, rows)
    ensures Probability(m, S0S2)
         == Probability(m, S0S1) * Probability(m, S1S2)
  {
    MatrixConservesFlow(m, rows);
    var repaired, attempted, all := Count(m.transitions, S1S2), Count(m.origins, S1), Count(m.origins, S0);
    if attempted > 0 {
      QuotientsChain(repaired, attempted, all);
    }
  }

  lemma RadicandIsNonnegative(k: nat, n: nat, z: real)
    requires n > 0 && k <= n
    ensures Radicand(k, n, z) >= 0.0
  {
    var m := n as real;
    ProportionInUnit(k, n);
    VarianceTerms(k as real / m, m, z * z);
  }

  lemma VarianceTerms(p: real, m: real, z2: real)
    requires 0.0 <= p <= 1.0 && m > 0.0
    ensures p * (1.0 - p) / m >= 0.0
    ensures z2 >= 0.0 ==> z2 / (4.0 * m * m) >= 0.0
  {
    ProductSign(p, 1.0 - p);
    var d := 4.0 * m;
    ProductSign(d, m);
    QuotientIsNonnegative(z2, d * m);
  }

  lemma QuotientIsNonnegative(a: real, b: real)
    requires b > 0.0
    ensures a >= 0.0 ==> a / b >= 0.0
  {
  }

  /** Every reported interval contains its probability and lies in the unit interval. */
  lemma EstimatesAreBracketed(m: Matrix, rows: seq<Row>, t: Transition, sqrt: real -> real)
    requires Describes(m, rows) && t in {S0S1, S0S2, S0S3, S1S2, S1S3} && RootsFor(sqrt)
    ensures var e := EstimateOf(m, t, sqrt);
            e.count <= e.denominator && 0.0 <= e.lower <= e.probability <= e.upper <= 1.0
  {
    MatrixConservesFlow(m, rows);
    var n, k := Count(m.origins, t.source), Count(m.transitions, t);
    if n > 0 {
      RadicandIsNonnegative(k, n, Z);
      BoundsBracketProportion(k, n, Z, sqrt(Radicand(k, n, Z)));
    }
  }

  /** The squared distance exceeds what `z` standard errors under the proportion `q` allow. */
  predicate Rejects(p: real, n: nat, z: real, q: real)
    requires n > 0
  {
    Square(p - q) > z * z / n as real * (q * (1.0 - q))
  }

  lemma WilsonInverts(k: nat, n: nat, z: real, sqrt: real -> real, q: real)
    requires 0 < n && k <= n && z >= 0.0 && RootsFor(sqrt)
    ensures var (lo, hi) := WilsonCi(k, n, z, sqrt(Radicand(k, n, z))); lo <= q <= hi <==> !Rejects(k as real / n as real, n, z, q)
  {
    RadicandIsNonnegative(k, n, z);
    IntervalInvertsScoreTest(k, n, z, sqrt(Radicand(k, n, z)), q);
  }

  lemma EstimateIsWilson(m: Matrix, t: Transition, sqrt: real -> real)
    requires Count(m.origins, t.source) > 0
    ensures var e, n, k := EstimateOf(m, t, sqrt), Count(m.origins, t.source), Count(m.transitions, t);
            && e.count == k && e.denominator == n && e.probability == k as real / n as real
            && (e.lower, e.upper) == WilsonCi(k, n, Z, sqrt(Radicand(k, n, Z)))
  {
  }

  /**
   * The interval of a transition from a visited state holds exactly the proportions that a score test at 1.959963984540054
   * does not reject.
   */
  lemma EstimateInvertsScoreTest(m: Matrix, rows: seq<Row>, t: Transition, sqrt: real -> real, q: real)
    requires Describes(m, rows) && t in {S0S1, S0S2, S0S3, S1S2, S1S3} && RootsFor(sqrt) && Count(m.origins, t.source) > 0
    ensures var e := EstimateOf(m, t, sqrt);
            && e.denominator > 0 && e.probability == e.count as real / e.denominator as real
            && (e.lower <= q <= e.upper <==> !Rejects(e.probability, e.denominator, 1.959963984540054, q))
  {
    MatrixConservesFlow(m, rows);
    EstimateIsWilson(m, t, sqrt);
    assert Z == 1.959963984540054;
    WilsonInverts(Count(m.transitions, t), Count(m.origins, t.source), 1.959963984540054, sqrt, q);
  }

  /** From a state that was never visited nothing is estimated. */
  lemma UnvisitedIsZero(m: Matrix, rows: seq<Row>, t: Transition, sqrt: real -> real)
    requires Describes(m, rows) && t in {S0S1, S0S2, S0S3, S1S2, S1S3} && Count(m.origins, t.source) == 0
    ensures EstimateOf(m, t, sqrt) == Estimate(0, 0, 0.0, 0.0, 0.0)
  {
    MatrixConservesFlow(m, rows);
  }
}
