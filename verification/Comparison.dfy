/** Comparing the methods case by case, at matched cost. */
module Comparison {
  import opened Baselines
  import opened Lists
  import opened Ordering
  import opened Reals
  import opened Schema

  const METHODS := [SingleLuna, BestOfN, MajorityVote, Swarm, RandomBaseline]
  const DRAWS := 2000
  const LOW_INDEX := 49
  const HIGH_INDEX := 1949

  datatype Error = NegativePenalty | InvalidCandidate | NoCases | InconsistentOutcomes(caseId: string)

  predicate Valid(c: Candidate) {
    && IsProbability(c.confidence) && c.cost >= 0.0 && c.tokens >= 0
    && (c.usefulness.Some? ==> IsProbability(c.usefulness.value))
  }

  function Loss(c: Candidate): real {
    var miss := c.confidence - Indicator(c.direction == c.realized);
    miss * miss
  }

  function Mean(s: seq<real>): real
    requires s != []
  {
    Sum(s) / |s| as real
  }

  /** A cost in the units of the score. */
  function Weighted(penalty: real, cost: real): real {
    penalty * cost
  }

  datatype Metrics = Metrics(
    cases: nat, hitRate: real, brier: real, cost: real, tokens: int, usefulPerDollar: Option<real>, usefulPerToken: Option<real>,
    costAdjustedBrier: real)

  function Usefulness(c: Candidate): real {
    if c.usefulness.Some? then c.usefulness.value else Indicator(c.direction == c.realized)
  }

  function MetricsOf(items: seq<Candidate>, cost: real, tokens: int, penalty: real): Metrics
    requires items != []
  {
    var useful := Sum(Map(Usefulness, items));
    var brier := Mean(Map(Loss, items));
    Metrics(
      |items|, Mean(Map((c: Candidate) => Indicator(c.direction == c.realized), items)), brier, cost, tokens,
      if cost != 0.0 then Some(useful / cost) else None,
      if tokens != 0 then Some(useful / tokens as real) else None,
      brier + Weighted(penalty, cost / |items| as real))
  }

  /** What a method has chosen and spent so far. */
  datatype Totals = Totals(selected: seq<Candidate>, cost: real, tokens: int, caseCosts: seq<real>)

  const COST_OF: Candidate -> real := (c: Candidate) => c.cost

  function TokenSum(items: seq<Candidate>): int {
    if items == [] then 0 else TokenSum(items[..|items| - 1]) + items[|items| - 1].tokens
  }

  /** A single worker pays for itself, the random baseline for nothing, the others for every candidate of the case. */
  function CaseCost(m: Method, rows: seq<Candidate>, chosen: Candidate): real {
    if m == SingleLuna then chosen.cost else if m == RandomBaseline then 0.0 else Sum(Map(COST_OF, rows))
  }

  function CaseTokens(m: Method, rows: seq<Candidate>, chosen: Candidate): int {
    if m == SingleLuna then chosen.tokens else if m == RandomBaseline then 0 else TokenSum(rows)
  }

  predicate NoneEmpty(cases: seq<seq<Candidate>>) {
    forall i :: 0 <= i < |cases| ==> cases[i] != []
  }

  /** The totals after one more case. */
  function Extended(t: Totals, m: Method, rows: seq<Candidate>, digest: string -> nat): Totals
    requires rows != []
  {
    var chosen := Select(m, rows, digest);
    var cost := CaseCost(m, rows, chosen);
    Totals(t.selected + [chosen], t.cost + cost, t.tokens + CaseTokens(m, rows, chosen), t.caseCosts + [cost])
  }

  function TotalsOf(m: Method, cases: seq<seq<Candidate>>, digest: string -> nat): (r: Totals)
    requires NoneEmpty(cases)
    ensures |r.selected| == |r.caseCosts| == |cases|
  {
    if cases == [] then Totals([], 0.0, 0, [])
    else Extended(TotalsOf(m, cases[..|cases| - 1], digest), m, cases[|cases| - 1], digest)
  }

  /** Positive where the swarm did better than the baseline. */
  function Improvements(swarm: seq<Candidate>, baseline: seq<Candidate>): (r: seq<real>)
    requires |swarm| == |baseline|
    ensures |r| == |swarm|
  {
    seq(|swarm|, i requires 0 <= i < |swarm| => Loss(baseline[i]) - Loss(swarm[i]))
  }

  function Adjusted(improvements: seq<real>, swarmCosts: seq<real>, baselineCosts: seq<real>, penalty: real): (r: seq<real>)
    requires |improvements| == |swarmCosts| == |baselineCosts|
    ensures |r| == |improvements|
  {
    seq(|improvements|, i requires 0 <= i < |improvements| => improvements[i] + Weighted(penalty, baselineCosts[i] - swarmCosts[i]))
  }

  /** The random generator: an index for each draw and position, reduced to the range. */
  type Random = (nat, nat) -> nat

  function Resampled(values: seq<real>, draw: nat, random: Random): (r: seq<real>)
    requires values != []
    ensures |r| == |values| && forall i :: 0 <= i < |r| ==> r[i] in values
  {
    seq(|values|, i requires 0 <= i < |values| => values[random(draw, i) % |values|])
  }

  const AT_MOST: (real, real) -> bool := (x: real, y: real) => x <= y

  function Samples(values: seq<real>, random: Random, n: nat): (r: seq<real>)
    requires values != []
    ensures |r| == n
  {
    if n == 0 then [] else Samples(values, random, n - 1) + [Mean(Resampled(values, n - 1, random))]
  }

  datatype Interval = Interval(low: real, high: real)

  /** The percentile bootstrap interval of the mean. */
  function Bootstrap(values: seq<real>, random: Random): Interval
    requires values != []
  {
    var sorted := SortBy(AT_MOST, Samples(values, random, DRAWS));
    Interval(sorted[LOW_INDEX], sorted[HIGH_INDEX])
  }

  datatype Advantage = Advantage(
    baseline: Method, mean: real, interval: Interval, positive: bool, adjustedMean: real, adjustedInterval: Interval,
    positiveAfterCost: bool)

  function PairedAdvantage(m: Method, swarm: Totals, baseline: Totals, penalty: real, random: Random): Advantage
    requires |swarm.selected| == |baseline.selected| == |swarm.caseCosts| == |baseline.caseCosts| > 0
  {
    var improvements := Improvements(swarm.selected, baseline.selected);
    var adjusted := Adjusted(improvements, swarm.caseCosts, baseline.caseCosts, penalty);
    var plain, net := Bootstrap(improvements, random), Bootstrap(adjusted, random);
    Advantage(m, Mean(improvements), plain, plain.low > 0.0, Mean(adjusted), net, net.low > 0.0)
  }

  function OfCase(id: string): Candidate -> bool {
    (c: Candidate) => c.caseId == id
  }

  /** The identifiers of the cases, in order. */
  function CaseIds(candidates: seq<Candidate>): seq<string> {
    Sort(Unique(Map(CASE_OF, candidates)))
  }

  /** The rows of each case, in their order of appearance. */
  function Cases(candidates: seq<Candidate>): seq<seq<Candidate>> {
    Map((id: string) => Where(OfCase(id), candidates), CaseIds(candidates))
  }

  predicate OneOutcome(rows: seq<Candidate>) {
    forall c, d :: c in rows && d in rows ==> c.realized == d.realized
  }

  lemma CasesAreNonempty(candidates: seq<Candidate>)
    ensures NoneEmpty(Cases(candidates)) && |Cases(candidates)| == |CaseIds(candidates)|
    ensures candidates != [] ==> Cases(candidates) != []
  {
    var ids := Map(CASE_OF, candidates);
    UniqueIsDistinct(ids);
    MembersOfEqualMultisets(Unique(ids), CaseIds(candidates));
    forall i | 0 <= i < |CaseIds(candidates)| ensures Cases(candidates)[i] != [] {
      var id := CaseIds(candidates)[i];
      assert id in Unique(ids) && id in Elements(Unique(ids));
      var j :| 0 <= j < |ids| && ids[j] == id;
      WhereMembers(OfCase(id), candidates);
      assert candidates[j] in Where(OfCase(id), candidates);
    }
    if candidates != [] {
      assert ids[0] in Elements(ids);
      assert ids[0] in CaseIds(candidates);
    }
  }

  /** The whole comparison: for every method its metrics, and for every baseline its paired advantage. */
  datatype Result = Compared(metrics: map<Method, Metrics>, advantages: seq<Advantage>) | Refused(error: Error)

  ghost predicate Accepted(candidates: seq<Candidate>, penalty: real) {
    && penalty >= 0.0 && candidates != [] && (forall c :: c in candidates ==> Valid(c))
    && forall rows :: rows in Cases(candidates) ==> OneOutcome(rows)
  }

  ghost predicate TotalsAre(totals: map<Method, Totals>, cases: seq<seq<Candidate>>, digest: string -> nat)
    requires NoneEmpty(cases)
  {
    forall m: Method :: m in totals && totals[m] == TotalsOf(m, cases, digest)
  }

  function AdvantageOf(m: Method, cases: seq<seq<Candidate>>, penalty: real, digest: string -> nat, random: Method -> Random): Advantage
    requires NoneEmpty(cases) && cases != []
  {
    PairedAdvantage(m, TotalsOf(Swarm, cases, digest), TotalsOf(m, cases, digest), penalty, random(m))
  }

  function MetricsFor(m: Method, cases: seq<seq<Candidate>>, penalty: real, digest: string -> nat): Metrics
    requires NoneEmpty(cases) && cases != []
  {
    var t := TotalsOf(m, cases, digest);
    MetricsOf(t.selected, t.cost, t.tokens, penalty)
  }

  /** What the comparison reports: metrics for every method, and an advantage over every baseline. */
  ghost predicate Reports(
    r: Result, cases: seq<seq<Candidate>>, penalty: real, digest: string -> nat, random: Method -> Random)
    requires NoneEmpty(cases) && cases != [] && r.Compared?
  {
    && (forall m: Method :: m in r.metrics && r.metrics[m] == MetricsFor(m, cases, penalty, digest))
    && AdvantagesAre(r.advantages, cases, penalty, digest, random)
  }

  ghost predicate AdvantagesAre(
    advantages: seq<Advantage>, cases: seq<seq<Candidate>>, penalty: real, digest: string -> nat, random: Method -> Random)
    requires NoneEmpty(cases) && cases != []
  {
    Listed(advantages, (m: Method) => AdvantageOf(m, cases, penalty, digest, random))
  }

  /** The advantages over the baselines, in order. */
  ghost predicate Listed(advantages: seq<Advantage>, f: Method -> Advantage) {
    |advantages| == |BASELINES| && forall i :: 0 <= i < |advantages| ==> advantages[i] == f(BASELINES[i])
  }

  const BASELINES := [SingleLuna, BestOfN, MajorityVote, RandomBaseline]

  /** The first check that fails names the error, and the first case in order whose rows disagree is the one reported. */
  ghost predicate RefusedFor(error: Error, candidates: seq<Candidate>, penalty: real) {
    match error
    case NegativePenalty => penalty < 0.0
    case InvalidCandidate => penalty >= 0.0 && exists c :: c in candidates && !Valid(c)
    case NoCases => penalty >= 0.0 && candidates == []
    case InconsistentOutcomes(id) =>
      && penalty >= 0.0 && (forall c :: c in candidates ==> Valid(c))
      && exists i: nat :: FirstToDisagree(candidates, i) && CaseIds(candidates)[i] == id
  }

  ghost predicate FirstToDisagree(candidates: seq<Candidate>, i: nat) {
    i < |CaseIds(candidates)| && !OneOutcome(Cases(candidates)[i]) && forall j :: 0 <= j < i ==> OneOutcome(Cases(candidates)[j])
  }

  method CompareBaselines(candidates: seq<Candidate>, penalty: real, digest: string -> nat, random: Method -> Random)
    returns (r: Result)
    ensures r.Compared? <==> Accepted(candidates, penalty)
    ensures r.Refused? ==> RefusedFor(r.error, candidates, penalty)
    ensures r.Compared? ==>
              NoneEmpty(Cases(candidates)) && Cases(candidates) != [] && Reports(r, Cases(candidates), penalty, digest, random)
  {
    if penalty < 0.0 { return Refused(NegativePenalty); }
    var invalid := FirstInvalid(candidates);
    if invalid { return Refused(InvalidCandidate); }
    if |candidates| == 0 { return Refused(NoCases); }
    CasesAreNonempty(candidates);
    var cases := Cases(candidates);
    var totals, inconsistent := Accumulate(cases, digest);
    if inconsistent < |cases| {
      assert FirstToDisagree(candidates, inconsistent);
      return Refused(InconsistentOutcomes(CaseIds(candidates)[inconsistent]));
    }
    var metrics, advantages := Report(totals, cases, penalty, digest, random);
    r := Compared(metrics, advantages);
  }

  method FirstInvalid(candidates: seq<Candidate>) returns (invalid: bool)
    ensures !invalid <==> forall c :: c in candidates ==> Valid(c)
  {
    for i := 0 to |candidates|
      invariant forall j :: 0 <= j < i ==> Valid(candidates[j])
    {
      if !Valid(candidates[i]) { return true; }
    }
    invalid := false;
  }

  /** Walks the cases, up to the first whose outcomes disagree. */
  method Accumulate(cases: seq<seq<Candidate>>, digest: string -> nat) returns (totals: map<Method, Totals>, inconsistent: nat)
    requires NoneEmpty(cases)
    ensures inconsistent >= |cases| <==> forall rows :: rows in cases ==> OneOutcome(rows)
    ensures inconsistent < |cases| ==> !OneOutcome(cases[inconsistent]) && forall j :: 0 <= j < inconsistent ==> OneOutcome(cases[j])
    ensures inconsistent >= |cases| ==> TotalsAre(totals, cases, digest)
  {
    var none := Totals([], 0.0, 0, []);
    totals := map[SingleLuna := none, BestOfN := none, MajorityVote := none, Swarm := none, RandomBaseline := none];
    forall m: Method ensures m in totals && totals[m] == none { FiveMethods(m); }
    assert cases[..0] == [];
    for i := 0 to |cases|
      invariant forall j :: 0 <= j < i ==> OneOutcome(cases[j])
      invariant NoneEmpty(cases[..i]) && TotalsAre(totals, cases[..i], digest)
    {
      if !OneOutcome(cases[i]) { return totals, i; }
      assert cases[..i + 1][..i] == cases[..i];
      totals := AddCase(totals, cases[i], digest);
    }
    assert cases[..|cases|] == cases;
    inconsistent := |cases|;
  }

  lemma FiveMethods(m: Method)
    ensures m == SingleLuna || m == BestOfN || m == MajorityVote || m == Swarm || m == RandomBaseline
  {
  }

  lemma MethodsAreListedOnce(i: nat)
    requires i < |METHODS|
    ensures METHODS[i] !in METHODS[..i] && METHODS[..i + 1] == METHODS[..i] + [METHODS[i]]
    ensures forall m: Method :: m in METHODS[..|METHODS|]
  {
    assert METHODS[..|METHODS|] == METHODS;
    assert METHODS[0] == SingleLuna && METHODS[1] == BestOfN && METHODS[2] == MajorityVote && METHODS[3] == Swarm
        && METHODS[4] == RandomBaseline;
    forall m: Method ensures m in METHODS { FiveMethods(m); }
  }

  method AddCase(totals: map<Method, Totals>, rows: seq<Candidate>, digest: string -> nat) returns (more: map<Method, Totals>)
    requires rows != [] && forall m: Method :: m in totals
    ensures forall m: Method :: m in more && more[m] == Extended(totals[m], m, rows, digest)
  {
    more := totals;
    for i := 0 to |METHODS|
      invariant forall m: Method :: m in more && more[m] == if m in METHODS[..i] then Extended(totals[m], m, rows, digest) else totals[m]
    {
      MethodsAreListedOnce(i);
      more := more[METHODS[i] := Extended(more[METHODS[i]], METHODS[i], rows, digest)];
    }
    MethodsAreListedOnce(0);
  }

  method Report(
    totals: map<Method, Totals>, ghost cases: seq<seq<Candidate>>, penalty: real, ghost digest: string -> nat, random: Method -> Random)
    returns (metrics: map<Method, Metrics>, advantages: seq<Advantage>)
    requires NoneEmpty(cases) && cases != [] && TotalsAre(totals, cases, digest)
    ensures Reports(Compared(metrics, advantages), cases, penalty, digest, random)
  {
    metrics := ReportMetrics(totals, cases, penalty, digest);
    advantages := ReportAdvantages(totals, cases, penalty, digest, random);
  }

  method ReportMetrics(totals: map<Method, Totals>, ghost cases: seq<seq<Candidate>>, penalty: real, ghost digest: string -> nat)
    returns (metrics: map<Method, Metrics>)
    requires NoneEmpty(cases) && cases != [] && TotalsAre(totals, cases, digest)
    ensures forall m: Method :: m in metrics && metrics[m] == MetricsFor(m, cases, penalty, digest)
  {
    metrics := map[];
    for i := 0 to |METHODS|
      invariant forall m: Method :: m in METHODS[..i] ==> m in metrics && metrics[m] == MetricsFor(m, cases, penalty, digest)
    {
      MethodsAreListedOnce(i);
      var t := totals[METHODS[i]];
      assert t == TotalsOf(METHODS[i], cases, digest);
      metrics := metrics[METHODS[i] := MetricsOf(t.selected, t.cost, t.tokens, penalty)];
    }
    MethodsAreListedOnce(0);
  }

  method ReportAdvantages(
    totals: map<Method, Totals>, ghost cases: seq<seq<Candidate>>, penalty: real, ghost digest: string -> nat, random: Method -> Random)
    returns (advantages: seq<Advantage>)
    requires NoneEmpty(cases) && cases != [] && TotalsAre(totals, cases, digest)
    ensures AdvantagesAre(advantages, cases, penalty, digest, random)
  {
    forall m: Method ensures AdvantageOf(m, cases, penalty, digest, random)
                             == PairedAdvantage(m, totals[Swarm], totals[m], penalty, random(m)) {}
    advantages := ListAdvantages(totals, |cases|, penalty, random, (m: Method) => AdvantageOf(m, cases, penalty, digest, random));
  }

  method ListAdvantages(
    totals: map<Method, Totals>, ghost n: nat, penalty: real, random: Method -> Random, ghost f: Method -> Advantage)
    returns (advantages: seq<Advantage>)
    requires n > 0 && forall m: Method :: m in totals && |totals[m].selected| == |totals[m].caseCosts| == n
    requires forall m: Method {:trigger f(m)} :: f(m) == PairedAdvantage(m, totals[Swarm], totals[m], penalty, random(m))
    ensures Listed(advantages, f)
  {
    advantages := [];
    for i := 0 to |BASELINES|
      invariant advantages == Map(f, BASELINES[..i])
    {
      var m := BASELINES[i];
      assert f(m) == PairedAdvantage(m, totals[Swarm], totals[m], penalty, random(m));
      assert BASELINES[..i + 1] == BASELINES[..i] + [m];
      MapOneMore(f, BASELINES[..i], m);
      advantages := advantages + [PairedAdvantage(m, totals[Swarm], totals[m], penalty, random(m))];
    }
    assert BASELINES[..|BASELINES|] == BASELINES;
  }

  lemma {:induction false} SumOfDifferences(s: seq<real>, t: seq<real>, d: seq<real>)
    requires |s| == |t| == |d| && forall i :: 0 <= i < |s| ==> d[i] == s[i] - t[i]
    ensures Sum(d) == Sum(s) - Sum(t)
  {
    if s != [] {
      var n := |s| - 1;
      SumOfDifferences(s[..n], t[..n], d[..n]);
    }
  }

  /** The net improvements add up to the gap in losses plus the weighted gap in costs. */
  lemma {:induction false} SumOfAdjusted(
    base: seq<real>, swarm: seq<real>, baseCosts: seq<real>, swarmCosts: seq<real>, net: seq<real>, penalty: real)
    requires |base| == |swarm| == |baseCosts| == |swarmCosts| == |net|
    requires forall i :: 0 <= i < |net| ==> net[i] == base[i] - swarm[i] + Weighted(penalty, baseCosts[i] - swarmCosts[i])
    ensures Sum(net) == Sum(base) - Sum(swarm) + Weighted(penalty, Sum(baseCosts) - Sum(swarmCosts))
  {
    if net != [] {
      var n := |net| - 1;
      SumOfAdjusted(base[..n], swarm[..n], baseCosts[..n], swarmCosts[..n], net[..n], penalty);
      WeightedAdds(penalty, Sum(baseCosts[..n]) - Sum(swarmCosts[..n]), baseCosts[n] - swarmCosts[n]);
    }
  }

  lemma WeightedAdds(penalty: real, x: real, y: real)
    ensures Weighted(penalty, x + y) == Weighted(penalty, x) + Weighted(penalty, y)
  {
    ScaleSum(penalty, x, y);
  }

  /** The total that a method was charged is the sum of its case costs. */
  lemma {:induction false} CostIsSumOfCaseCosts(m: Method, cases: seq<seq<Candidate>>, digest: string -> nat)
    requires NoneEmpty(cases)
    ensures var t := TotalsOf(m, cases, digest); t.cost == Sum(t.caseCosts)
  {
    if cases != [] {
      CostIsSumOfCaseCosts(m, cases[..|cases| - 1], digest);
      var t := TotalsOf(m, cases, digest);
      assert t.caseCosts[..|t.caseCosts| - 1] == TotalsOf(m, cases[..|cases| - 1], digest).caseCosts;
    }
  }

  lemma MeanOfNet(base: real, swarm: real, baseCost: real, swarmCost: real, penalty: real, n: real)
    requires n > 0.0
    ensures (base - swarm + Weighted(penalty, baseCost - swarmCost)) / n
            == (base / n + Weighted(penalty, baseCost / n)) - (swarm / n + Weighted(penalty, swarmCost / n))
  {
    QuotientOfSum(base - swarm, penalty * (baseCost - swarmCost), n);
    QuotientOfSum(base, -swarm, n);
    QuotientOfProduct(penalty, baseCost - swarmCost, n);
    QuotientOfSum(baseCost, -swarmCost, n);
    ScaleSum(penalty, baseCost / n, -swarmCost / n);
  }

  lemma QuotientOfSum(x: real, y: real, n: real)
    requires n > 0.0
    ensures (x + y) / n == x / n + y / n
  {
  }

  lemma QuotientOfProduct(x: real, y: real, n: real)
    requires n > 0.0
    ensures x * y / n == x * (y / n)
  {
  }

  lemma NetTerm(base: Totals, swarm: Totals, penalty: real, i: nat)
    requires |base.selected| == |swarm.selected| == |base.caseCosts| == |swarm.caseCosts| && i < |base.selected|
    ensures Adjusted(Improvements(swarm.selected, base.selected), swarm.caseCosts, base.caseCosts, penalty)[i]
            == Map(Loss, base.selected)[i] - Map(Loss, swarm.selected)[i]
               + Weighted(penalty, base.caseCosts[i] - swarm.caseCosts[i])
  {
  }

  lemma NetSum(base: Totals, swarm: Totals, penalty: real)
    requires |base.selected| == |swarm.selected| == |base.caseCosts| == |swarm.caseCosts|
    ensures Sum(Adjusted(Improvements(swarm.selected, base.selected), swarm.caseCosts, base.caseCosts, penalty))
            == Sum(Map(Loss, base.selected)) - Sum(Map(Loss, swarm.selected))
               + Weighted(penalty, Sum(base.caseCosts) - Sum(swarm.caseCosts))
  {
    var net := Adjusted(Improvements(swarm.selected, base.selected), swarm.caseCosts, base.caseCosts, penalty);
    var baseLosses, swarmLosses := Map(Loss, base.selected), Map(Loss, swarm.selected);
    forall i | 0 <= i < |net|
      ensures net[i] == baseLosses[i] - swarmLosses[i] + Weighted(penalty, base.caseCosts[i] - swarm.caseCosts[i])
    {
      NetTerm(base, swarm, penalty, i);
    }
    SumOfAdjusted(baseLosses, swarmLosses, base.caseCosts, swarm.caseCosts, net, penalty);
  }

  lemma NetGap(base: Totals, swarm: Totals, penalty: real)
    requires |base.selected| == |swarm.selected| == |base.caseCosts| == |swarm.caseCosts| > 0
    requires base.cost == Sum(base.caseCosts) && swarm.cost == Sum(swarm.caseCosts)
    ensures Mean(Adjusted(Improvements(swarm.selected, base.selected), swarm.caseCosts, base.caseCosts, penalty))
            == MetricsOf(base.selected, base.cost, base.tokens, penalty).costAdjustedBrier
               - MetricsOf(swarm.selected, swarm.cost, swarm.tokens, penalty).costAdjustedBrier
  {
    NetSum(base, swarm, penalty);
    MeanOfNet(
      Sum(Map(Loss, base.selected)), Sum(Map(Loss, swarm.selected)), base.cost, swarm.cost, penalty, |base.selected| as real);
  }

  lemma GrossGap(base: Totals, swarm: Totals, penalty: real)
    requires |base.selected| == |swarm.selected| > 0
    ensures Mean(Improvements(swarm.selected, base.selected))
            == MetricsOf(base.selected, base.cost, base.tokens, penalty).brier
               - MetricsOf(swarm.selected, swarm.cost, swarm.tokens, penalty).brier
  {
    SumOfDifferences(Map(Loss, base.selected), Map(Loss, swarm.selected), Improvements(swarm.selected, base.selected));
    MeanOfNet(Sum(Map(Loss, base.selected)), Sum(Map(Loss, swarm.selected)), 0.0, 0.0, 0.0, |base.selected| as real);
  }

  /**
   * The advantages that the paired comparison reports, gross and net of cost, are the gaps between the baseline's scores
   * and the swarm's, although the two are computed by different functions from differently kept books.
   */
  lemma AdvantagesAreScoreGaps(
    m: Method, cases: seq<seq<Candidate>>, penalty: real, digest: string -> nat, random: Method -> Random)
    requires NoneEmpty(cases) && cases != []
    ensures var advantage := AdvantageOf(m, cases, penalty, digest, random);
            var base, swarm := MetricsFor(m, cases, penalty, digest), MetricsFor(Swarm, cases, penalty, digest);
            advantage.mean == base.brier - swarm.brier && advantage.adjustedMean == base.costAdjustedBrier - swarm.costAdjustedBrier
  {
    CostIsSumOfCaseCosts(m, cases, digest);
    CostIsSumOfCaseCosts(Swarm, cases, digest);
    NetGap(TotalsOf(m, cases, digest), TotalsOf(Swarm, cases, digest), penalty);
    GrossGap(TotalsOf(m, cases, digest), TotalsOf(Swarm, cases, digest), penalty);
  }

  ghost predicate Within(s: seq<real>, low: real, high: real) {
    forall x :: x in s ==> low <= x <= high
  }

  function Times(n: nat, x: real): real {
    n as real * x
  }

  lemma OneMoreTime(n: nat, x: real)
    ensures Times(n + 1, x) == Times(n, x) + x
  {
    ScaleSum(x, n as real, 1.0);
  }

  lemma {:induction false} SumWithin(s: seq<real>, low: real, high: real)
    requires Within(s, low, high)
    ensures Times(|s|, low) <= Sum(s) <= Times(|s|, high)
  {
    if s != [] {
      var n := |s| - 1;
      assert forall x :: x in s[..n] ==> x in s;
      assert low <= s[n] <= high by { assert s[n] in s; }
      SumWithin(s[..n], low, high);
      OneMoreTime(n, low);
      OneMoreTime(n, high);
    }
  }

  lemma QuotientWithin(x: real, n: real, low: real, high: real)
    requires n > 0.0 && n * low <= x <= n * high
    ensures low <= x / n <= high
  {
  }

  lemma MeanWithin(s: seq<real>, low: real, high: real)
    requires s != [] && Within(s, low, high)
    ensures low <= Mean(s) <= high
  {
    SumWithin(s, low, high);
    QuotientWithin(Sum(s), |s| as real, low, high);
  }

  lemma {:induction false} SamplesWithin(values: seq<real>, random: Random, n: nat, low: real, high: real)
    requires values != [] && Within(values, low, high)
    ensures Within(Samples(values, random, n), low, high)
  {
    if n > 0 {
      SamplesWithin(values, random, n - 1, low, high);
      var drawn := Resampled(values, n - 1, random);
      forall x | x in drawn ensures low <= x <= high {
        var i :| 0 <= i < |drawn| && drawn[i] == x;
        assert drawn[i] in values;
      }
      MeanWithin(drawn, low, high);
    }
  }

  /**
   * Whatever the generator draws, the interval is not empty and lies between the least and the greatest improvement; so an
   * advantage is called positive only if some case improved.
   */
  lemma IntervalLiesWithin(values: seq<real>, random: Random, low: real, high: real)
    requires values != [] && Within(values, low, high)
    ensures low <= Bootstrap(values, random).low <= Bootstrap(values, random).high <= high
  {
    var samples := Samples(values, random, DRAWS);
    SamplesWithin(values, random, DRAWS, low, high);
    SortBySorts(AT_MOST, samples);
    var sorted := SortBy(AT_MOST, samples);
    MembersOfEqualMultisets(samples, sorted);
    assert AT_MOST(sorted[LOW_INDEX], sorted[HIGH_INDEX]);
    assert sorted[LOW_INDEX] in samples && sorted[HIGH_INDEX] in samples;
  }
}
