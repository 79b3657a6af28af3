/** What each comparison method chooses and what it is charged and credited with, in the fields of the candidates. */
module BaselineChoices {
  import opened Baselines
  import opened Comparison
  import opened Lists
  import opened Ordering
  import opened Schema

  /** Three keys in order, the last of them an identifier. */
  ghost predicate NotBelow(x: real, x': real, y: real, y': real, id: Id, id': Id) {
    && x >= x' && (x == x' ==> y >= y')
    && (x == x' && y == y' ==> id == id' || Lt(id', id))
  }

  ghost predicate MoreConfident(a: Candidate, b: Candidate) {
    NotBelow(a.confidence, b.confidence, 0.0, 0.0, a.workerId, b.workerId)
  }

  /** No candidate of the same evidence cluster is more confident. */
  ghost predicate LeadsCluster(items: seq<Candidate>, c: Candidate) {
    c in items && forall y :: y in items && y.clusterId == c.clusterId ==> MoreConfident(c, y)
  }

  lemma OrdersByFields(a: Candidate, b: Candidate)
    ensures BY_WORKER(a, b) <==> a.workerId == b.workerId || Lt(a.workerId, b.workerId)
    ensures BY_CONFIDENCE(a, b) <==> MoreConfident(a, b)
    ensures BY_CONFIDENCE_THEN_SCORE(a, b) <==> NotBelow(a.confidence, b.confidence, a.swarmScore, b.swarmScore, a.workerId, b.workerId)
    ensures BY_SCORE_THEN_CONFIDENCE(a, b) <==> NotBelow(a.swarmScore, b.swarmScore, a.confidence, b.confidence, a.workerId, b.workerId)
  {
  }

  /** The single worker is the one with the least identifier. */
  lemma SingleIsFirst(items: seq<Candidate>, digest: string -> nat)
    requires items != []
    ensures var c := Select(SingleLuna, items, digest);
            c in items && forall y :: y in items ==> c.workerId == y.workerId || Lt(c.workerId, y.workerId)
  {
    OrdersAreTotal();
    BestIsGreatest(BY_WORKER, items);
  }

  /** The swarm takes the highest score, then confidence, then identifier. */
  lemma SwarmIsHighest(items: seq<Candidate>, digest: string -> nat)
    requires items != []
    ensures var c := Select(Swarm, items, digest);
            && c in items
            && forall y :: y in items ==> NotBelow(c.swarmScore, y.swarmScore, c.confidence, y.confidence, c.workerId, y.workerId)
  {
    OrdersAreTotal();
    BestIsGreatest(BY_SCORE_THEN_CONFIDENCE, items);
    var c := Select(Swarm, items, digest);
    forall y | y in items ensures NotBelow(c.swarmScore, y.swarmScore, c.confidence, y.confidence, c.workerId, y.workerId) {
      OrdersByFields(c, y);
    }
  }

  lemma RepresentativesLead(items: seq<Candidate>)
    requires DistinctWorkers(items)
    ensures forall r :: r in Representatives(items) <==> LeadsCluster(items, r)
  {
    RepresentativesAreChampions(items);
    forall r, y ensures BY_CONFIDENCE(r, y) <==> MoreConfident(r, y) { OrdersByFields(r, y); }
  }

  /** The best of the independent ones is the leader with the highest confidence, then score, then identifier. */
  lemma BestLeads(items: seq<Candidate>, digest: string -> nat)
    requires items != [] && DistinctWorkers(items)
    ensures var c := Select(BestOfN, items, digest);
            && LeadsCluster(items, c)
            && forall y :: LeadsCluster(items, y) ==>
                 NotBelow(c.confidence, y.confidence, c.swarmScore, y.swarmScore, c.workerId, y.workerId)
  {
    OrdersAreTotal();
    RepresentativesExist(items);
    RepresentativesLead(items);
    BestIsGreatest(BY_CONFIDENCE_THEN_SCORE, Representatives(items));
    var c := Select(BestOfN, items, digest);
    forall y | LeadsCluster(items, y) ensures NotBelow(c.confidence, y.confidence, c.swarmScore, y.swarmScore, c.workerId, y.workerId) {
      OrdersByFields(c, y);
    }
  }

  function NameOf(d: Direction): string {
    match d case DOWN => "DOWN" case FLAT => "FLAT" case NO_SIGNAL => "NO_SIGNAL" case UP => "UP"
  }

  /** Directions rank as their names compare. */
  lemma RanksFollowNames(d: Direction, e: Direction)
    ensures d.Rank() < e.Rank() <==> Lt(NameOf(d), NameOf(e))
    ensures d.Rank() == e.Rank() <==> d == e
  {
    FirstLetter(d);
    FirstLetter(e);
    LtIrreflexive(NameOf(d));
  }

  lemma FirstLetter(d: Direction)
    ensures NameOf(d) != ""
    ensures NameOf(d)[0] == match d case DOWN => 'D' case FLAT => 'F' case NO_SIGNAL => 'N' case UP => 'U'
  {
  }

  ghost function VotersFor(reps: seq<Candidate>, d: Direction): seq<Candidate> {
    Where(Predicting(d), reps)
  }

  ghost function Weight(reps: seq<Candidate>, d: Direction): real {
    Sum(Map(CONFIDENCE_OF, VotersFor(reps, d)))
  }

  /** The leaders for a direction, in their order. */
  lemma VotersLineByLine(reps: seq<Candidate>, c: Candidate, d: Direction)
    ensures VotersFor([], d) == [] && VotersFor(reps + [c], d) == VotersFor(reps, d) + if c.direction == d then [c] else []
    ensures Weight([], d) == 0.0 && Weight(reps + [c], d) == Weight(reps, d) + if c.direction == d then c.confidence else 0.0
  {
    assert (reps + [c])[..|reps|] == reps;
    var voters := VotersFor(reps, d);
    if c.direction == d {
      MapOneMore(CONFIDENCE_OF, voters, c);
      assert Map(CONFIDENCE_OF, voters + [c])[..|voters|] == Map(CONFIDENCE_OF, voters);
    } else {
      assert VotersFor(reps + [c], d) == voters;
    }
  }

  lemma VotesAreOrdered(reps: seq<Candidate>)
    ensures TotalPreorder(ByVotes(reps))
  {
  }

  /** The direction with most leaders, then with the greater weight, then with the later name. */
  lemma MajorityWins(items: seq<Candidate>, digest: string -> nat)
    requires items != []
    ensures var reps, c := Representatives(items), Select(MajorityVote, items, digest);
            && c in reps
            && (forall y :: y in reps && y.direction == c.direction ==> MoreConfident(c, y))
            && forall e: Direction :: |VotersFor(reps, e)| > 0 && e != c.direction ==>
                 && |VotersFor(reps, c.direction)| >= |VotersFor(reps, e)|
                 && (|VotersFor(reps, c.direction)| == |VotersFor(reps, e)| ==> Weight(reps, c.direction) >= Weight(reps, e))
                 && (|VotersFor(reps, c.direction)| == |VotersFor(reps, e)| && Weight(reps, c.direction) == Weight(reps, e) ==>
                       Lt(NameOf(e), NameOf(c.direction)))
  {
    var reps, c := Representatives(items), Select(MajorityVote, items, digest);
    RepresentativesExist(items);
    var d := MajorityDirection(reps);
    DirectionIsListed(reps, d);
    WhereMembers(Predicting(d), reps);
    OrdersAreTotal();
    BestIsGreatest(BY_CONFIDENCE, Where(Predicting(d), reps));
    VotesAreOrdered(reps);
    BestIsGreatest(ByVotes(reps), Unique(Map(DIRECTION_OF, reps)));
    forall y | y in reps && y.direction == c.direction ensures MoreConfident(c, y) { OrdersByFields(c, y); }
    forall e: Direction | |VotersFor(reps, e)| > 0 && e != c.direction
      ensures ByVotes(reps)(c.direction, e) && (c.direction.Rank() >= e.Rank() ==> Lt(NameOf(e), NameOf(c.direction)))
    {
      DirectionIsListed(reps, e);
      RanksFollowNames(e, c.direction);
    }
  }

  /** The random baseline predicts one of three directions with a third of confidence, for free. */
  lemma RandomIsDrawn(items: seq<Candidate>, digest: string -> nat)
    requires items != []
    ensures var c, drawn := Select(RandomBaseline, items, digest), digest(items[0].caseId);
            && (c.direction == UP <==> exists k: nat :: drawn == 3 * k)
            && (c.direction == DOWN <==> exists k: nat :: drawn == 3 * k + 1)
            && (c.direction == FLAT <==> exists k: nat :: drawn == 3 * k + 2)
            && 3.0 * c.confidence == 1.0 && c.magnitude == 0.0 && c.cost == 0.0 && c.tokens == 0 && c.usefulness.None?
            && c.swarmScore == 0.0 && c.workerId == "random-baseline" && c.clusterId == "random"
            && exists t :: t in items && c.caseId == t.caseId && c.realized == t.realized
  {
    var drawn := digest(items[0].caseId);
    assert drawn == 3 * (drawn / 3) + drawn % 3;
  }

  /** A miss loses the squared confidence, a hit the square of what is missing from it. */
  lemma LossInFields(c: Candidate)
    ensures Loss(c) == if c.direction == c.realized then (1.0 - c.confidence) * (1.0 - c.confidence) else c.confidence * c.confidence
    ensures Usefulness(c) == match c.usefulness case Some(x) => x case None => if c.direction == c.realized then 1.0 else 0.0
  {
  }

  /** The cases in the order of their identifiers, each with all its rows. */
  lemma CasesByIdentifier(candidates: seq<Candidate>)
    ensures var ids, cases := CaseIds(candidates), Cases(candidates);
            && |cases| == |ids| && Increasing(ids) && (forall id :: id in ids <==> exists c :: c in candidates && c.caseId == id)
            && forall i :: 0 <= i < |ids| ==> forall c :: c in cases[i] <==> c in candidates && c.caseId == ids[i]
  {
    var listed, ids := Map(CASE_OF, candidates), CaseIds(candidates);
    UniqueIsDistinct(listed);
    SortEnumerates(Unique(listed));
    forall id ensures id in ids <==> exists c :: c in candidates && c.caseId == id { CaseIsListed(candidates, id); }
    forall i | 0 <= i < |ids| ensures forall c :: c in Cases(candidates)[i] <==> c in candidates && c.caseId == ids[i] {
      WhereMembers(OfCase(ids[i]), candidates);
    }
  }

  lemma CaseIsListed(candidates: seq<Candidate>, id: string)
    ensures id in CaseIds(candidates) <==> exists c :: c in candidates && c.caseId == id
  {
    var listed := Map(CASE_OF, candidates);
    UniqueIsDistinct(listed);
    MembersOfEqualMultisets(Unique(listed), CaseIds(candidates));
    assert id in Unique(listed) <==> id in Elements(Unique(listed));
    assert id in listed <==> id in Elements(listed);
    if id in listed {
      var i :| 0 <= i < |listed| && listed[i] == id;
      assert candidates[i] in candidates;
    }
    if c :| c in candidates && c.caseId == id {
      var i :| 0 <= i < |candidates| && candidates[i] == c;
      assert listed[i] == id;
    }
  }

  /** What a case costs: the single worker its own price, the random baseline nothing, the others all candidates. */
  lemma CostInFields(m: Method, rows: seq<Candidate>, chosen: Candidate)
    ensures CaseCost(m, rows, chosen) == match m
                                         case SingleLuna => chosen.cost
                                         case RandomBaseline => 0.0
                                         case _ => Sum(Map(COST_OF, rows))
    ensures CaseTokens(m, rows, chosen) == match m
                                           case SingleLuna => chosen.tokens
                                           case RandomBaseline => 0
                                           case _ => TokenSum(rows)
  {
  }

  lemma SumsLineByLine(rows: seq<Candidate>, c: Candidate)
    ensures Sum(Map(COST_OF, [])) == 0.0 && Sum(Map(COST_OF, rows + [c])) == Sum(Map(COST_OF, rows)) + c.cost
    ensures TokenSum([]) == 0 && TokenSum(rows + [c]) == TokenSum(rows) + c.tokens
  {
    MapOneMore(COST_OF, rows, c);
    assert Map(COST_OF, rows + [c])[..|rows|] == Map(COST_OF, rows) && (rows + [c])[..|rows|] == rows;
  }

  function HitsAmong(items: seq<Candidate>): nat {
    if items == [] then 0
    else HitsAmong(items[..|items| - 1]) + if items[|items| - 1].direction == items[|items| - 1].realized then 1 else 0
  }

  lemma {:induction false} HitsAdd(items: seq<Candidate>)
    ensures Sum(Map((c: Candidate) => Indicator(c.direction == c.realized), items)) == HitsAmong(items) as real
  {
    if items != [] {
      var f := (c: Candidate) => Indicator(c.direction == c.realized);
      assert Map(f, items)[..|items| - 1] == Map(f, items[..|items| - 1]);
      HitsAdd(items[..|items| - 1]);
    }
  }

  lemma MeanTimesSize(s: seq<real>)
    requires s != []
    ensures Mean(s) * |s| as real == Sum(s)
  {
  }

  /** Hit rate and score of a method are means over its cases. */
  lemma HitRateIsMean(items: seq<Candidate>, cost: real, tokens: int, penalty: real)
    requires items != []
    ensures var m := MetricsOf(items, cost, tokens, penalty);
            m.cases == |items| && m.cost == cost && m.tokens == tokens && MeansOf(m.hitRate, |items|, HitsAmong(items) as real)
  {
    HitsAdd(items);
    MeanIs(Map((c: Candidate) => Indicator(c.direction == c.realized), items));
  }

  lemma ScoreIsMean(items: seq<Candidate>, cost: real, tokens: int, penalty: real)
    requires items != []
    ensures MeansOf(MetricsOf(items, cost, tokens, penalty).brier, |items|, Sum(Map(Loss, items)))
  {
    MeanIs(Map(Loss, items));
  }

  /** So many times the mean is the sum. */
  ghost predicate MeansOf(mean: real, n: nat, sum: real) {
    mean * n as real == sum
  }

  lemma MeanIs(s: seq<real>)
    requires s != []
    ensures MeansOf(Mean(s), |s|, Sum(s))
  {
    MeanTimesSize(s);
  }

  /** Usefulness is told per unit spent, where something was spent. */
  lemma UsefulnessIsPerUnit(items: seq<Candidate>, cost: real, tokens: int, penalty: real)
    requires items != []
    ensures var m, useful := MetricsOf(items, cost, tokens, penalty), Sum(Map(Usefulness, items));
            && (m.usefulPerDollar.Some? <==> cost != 0.0) && (m.usefulPerToken.Some? <==> tokens != 0)
            && (m.usefulPerDollar.Some? ==> m.usefulPerDollar.value * cost == useful)
            && (m.usefulPerToken.Some? ==> m.usefulPerToken.value * tokens as real == useful)
  {
    PerUnit(Sum(Map(Usefulness, items)), cost);
    PerUnit(Sum(Map(Usefulness, items)), tokens as real);
  }

  /** The adjusted score adds the penalty on the cost of a case. */
  lemma AdjustmentIsPenalty(items: seq<Candidate>, cost: real, tokens: int, penalty: real)
    requires items != []
    ensures var m := MetricsOf(items, cost, tokens, penalty); (m.costAdjustedBrier - m.brier) * |items| as real == penalty * cost
  {
    ShareOfPenalty(penalty, cost, |items| as real);
  }

  lemma PerUnit(x: real, y: real)
    ensures y != 0.0 ==> x / y * y == x
  {
  }

  lemma ShareOfPenalty(penalty: real, cost: real, n: real)
    requires n > 0.0
    ensures Weighted(penalty, cost / n) * n == penalty * cost
  {
    PerUnit(cost, n);
    assert penalty * (cost / n) * n == penalty * (cost / n * n);
  }

  /** The bounds stand at places 50 and 1950 of 2000 sorted means of resampled values. */
  lemma IntervalIsQuantiles(values: seq<real>, random: Random)
    requires values != []
    ensures exists sorted: seq<real> ::
              && |sorted| == 2000 && (forall i, j :: 0 <= i < j < 2000 ==> sorted[i] <= sorted[j])
              && multiset(sorted) == multiset(Samples(values, random, 2000))
              && Bootstrap(values, random) == Comparison.Interval(sorted[49], sorted[1949])
  {
    var samples := Samples(values, random, DRAWS);
    var sorted := SortBy(AT_MOST, samples);
    SortBySorts(AT_MOST, samples);
    assert |sorted| == 2000 && forall i, j :: 0 <= i < j < 2000 ==> AT_MOST(sorted[i], sorted[j]);
  }

  /** Each sample is the mean of as many values, drawn one by one. */
  lemma SamplesAreMeans(values: seq<real>, random: Random, n: nat)
    requires values != []
    ensures Samples(values, random, 0) == []
    ensures Samples(values, random, n + 1) == Samples(values, random, n) + [Mean(Resampled(values, n, random))]
    ensures var drawn := Resampled(values, n, random);
            |drawn| == |values| && forall i :: 0 <= i < |drawn| ==> drawn[i] == values[random(n, i) % |values|]
  {
  }

  /** An advantage compares case by case, gross and with the weighted difference of the costs. */
  lemma AdvantageInFields(m: Method, swarm: Totals, baseline: Totals, penalty: real, random: Random)
    returns (gains: seq<real>, nets: seq<real>)
    requires |swarm.selected| == |baseline.selected| == |swarm.caseCosts| == |baseline.caseCosts| > 0
    ensures |gains| == |nets| == |swarm.selected|
    ensures forall i :: 0 <= i < |gains| ==>
              && gains[i] == Loss(baseline.selected[i]) - Loss(swarm.selected[i])
              && nets[i] == gains[i] + penalty * (baseline.caseCosts[i] - swarm.caseCosts[i])
    ensures var a := PairedAdvantage(m, swarm, baseline, penalty, random);
            && a.baseline == m && a.mean == Mean(gains) && a.interval == Bootstrap(gains, random)
            && a.adjustedMean == Mean(nets) && a.adjustedInterval == Bootstrap(nets, random)
            && (a.positive <==> a.interval.low > 0.0) && (a.positiveAfterCost <==> a.adjustedInterval.low > 0.0)
  {
    gains := Improvements(swarm.selected, baseline.selected);
    nets := Adjusted(gains, swarm.caseCosts, baseline.caseCosts, penalty);
  }

  /** What the comparison demands of a row. */
  ghost predicate IsSound(c: Candidate) {
    && 0.0 <= c.confidence <= 1.0 && c.cost >= 0.0 && c.tokens >= 0
    && (c.usefulness == None || 0.0 <= c.usefulness.value <= 1.0)
  }

  /** The comparison accepts a penalty of at least zero and sound rows, one at least, of which those of a case agree. */
  lemma AcceptedIff(items: seq<Candidate>, penalty: real)
    ensures Accepted(items, penalty) <==>
            && penalty >= 0.0 && items != [] && (forall c :: c in items ==> IsSound(c))
            && forall c, d :: c in items && d in items && c.caseId == d.caseId ==> c.realized == d.realized
  {
    forall c: Candidate ensures Valid(c) <==> IsSound(c) {}
    CasesAgreeIff(items);
  }

  lemma CasesAgreeIff(items: seq<Candidate>)
    ensures (forall rows :: rows in Cases(items) ==> OneOutcome(rows)) <==>
            (forall c, d :: c in items && d in items && c.caseId == d.caseId ==> c.realized == d.realized)
  {
    var ids := Map(CASE_OF, items);
    UniqueIsDistinct(ids);
    MembersOfEqualMultisets(Unique(ids), CaseIds(items));
    forall i | 0 <= i < |CaseIds(items)|
      ensures forall c :: c in Cases(items)[i] <==> c in items && c.caseId == CaseIds(items)[i]
    {
      WhereMembers(OfCase(CaseIds(items)[i]), items);
    }
    forall c | c in items ensures exists i :: 0 <= i < |CaseIds(items)| && CaseIds(items)[i] == c.caseId {
      var j :| 0 <= j < |items| && items[j] == c;
      assert ids[j] == c.caseId && ids[j] in Elements(ids);
      assert c.caseId in CaseIds(items);
    }
    if forall rows :: rows in Cases(items) ==> OneOutcome(rows) {
      forall c, d | c in items && d in items && c.caseId == d.caseId ensures c.realized == d.realized {
        var i :| 0 <= i < |CaseIds(items)| && CaseIds(items)[i] == c.caseId;
        assert Cases(items)[i] in Cases(items) && c in Cases(items)[i] && d in Cases(items)[i];
      }
    }
  }

  /** What a method has spent and whom it has chosen: each case adds its charge to what the cases before it came to. */
  lemma TotalsGrow(m: Method, cases: seq<seq<Candidate>>, rows: seq<Candidate>, digest: string -> nat)
    requires NoneEmpty(cases) && rows != []
    ensures TotalsOf(m, [], digest) == Totals([], 0.0, 0, [])
    ensures var chosen := Select(m, rows, digest);
            var before, after := TotalsOf(m, cases, digest), TotalsOf(m, cases + [rows], digest);
            && after.selected == before.selected + [chosen]
            && after.cost == before.cost + CaseCost(m, rows, chosen)
            && after.tokens == before.tokens + CaseTokens(m, rows, chosen)
            && after.caseCosts == before.caseCosts + [CaseCost(m, rows, chosen)]
  {
    assert (cases + [rows])[..|cases|] == cases;
  }
}
