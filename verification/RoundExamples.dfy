/** Two rounds whose order of completion matters: one for the references between outputs, one for a budget below one unit. */
module RoundExamples {
  import opened Lineage
  import opened Lists
  import opened Orchestration
  import opened OrchestrationLaws
  import opened Ordering
  import opened RoundOrder
  import opened Schema
  import opened Store

  function Output(w: Id, id: Id, parents: seq<Id>): Artifact {
    Artifact(id, 0, w, EVIDENCE, "s", ["source"], 1.0, parents, [], ACTIVE, None, Some(0.0), Some(0), "")
  }

  function Drawn(w: Id): Ticket {
    Ticket("c" + w, 0, "", "p" + w, (p: Id) => "r" + w + p)
  }

  /** Two registered workers with this budget. */
  function Registered(budget: real): Database {
    Apply(EMPTY, Registering(2, budget, true), LENIENT)
  }

  lemma RegisteredIs(budget: real)
    requires budget >= 0.0
    ensures Registered(budget) == EMPTY.(workers := map["A" := Worker(budget, None)]["B" := Worker(budget, None)])
  {
    assert Enrolled(map[], 0, budget, LENIENT) == map[];
    assert Enrolled(map[], 1, budget, LENIENT) == map["A" := Worker(budget, None)];
    assert LENIENT.workerName(2) == "B" != "A";
  }

  lemma DrawnEvents(w: Id, event: string, plan: Plan)
    requires plan.ticket(w) == Drawn(w) && |w| == 1 && Uses(plan, w, event)
    ensures |event| >= 2 && event[1] == w[0]
  {
    if event != Drawn(w).penaltyEvent {
      var p: Id :| event == Drawn(w).rewardEvent(p);
      assert event == "r" + w + p;
      assert event[1] == ("r" + w)[1] == w[0];
    }
  }

  lemma DrawnRewards(w: Id, p: Id, q: Id)
    ensures Drawn(w).rewardEvent(p) == Drawn(w).rewardEvent(q) ==> p == q
    ensures Drawn(w).rewardEvent(p) != Drawn(w).penaltyEvent
  {
    var k := 1 + |w|;
    assert ("r" + w + p)[k..] == p && ("r" + w + q)[k..] == q;
    assert ("r" + w + p)[0] == 'r' && ("p" + w)[0] == 'p';
  }

  lemma TwoMayStart(db: Database, order: seq<Id>, plan: Plan)
    requires order == ["A", "B"] || order == ["B", "A"]
    requires LineageKept(db) && NoDebts(db) && db.workers.Keys == {"A", "B"} && db.events == []
    requires plan.registered == {"A", "B"} && forall w: Id :: plan.ticket(w) == Drawn(w)
    ensures MayStart(db, order, plan)
  {
    forall w, v, event | w in order && v in order && Uses(plan, w, event) && Uses(plan, v, event) ensures w == v {
      DrawnEvents(w, event, plan);
      DrawnEvents(v, event, plan);
    }
    forall w, p: Id, q: Id | w in order && plan.ticket(w).rewardEvent(p) == plan.ticket(w).rewardEvent(q) ensures p == q {
      DrawnRewards(w, p, q);
    }
    forall w, p: Id | w in order ensures plan.ticket(w).rewardEvent(p) != plan.ticket(w).penaltyEvent { DrawnRewards(w, p, p); }
  }

  /** Who fails in a round of two, and what the store holds after each completion. */
  datatype Script = Script(failsFirst: bool, failsSecond: bool, one: seq<Artifact>, two: seq<Artifact>)

  ghost predicate Ends(db: Database, w: Id, plan: Plan, fails: bool) {
    fails == !Succeeds(db, w, plan, LENIENT) && (fails ==> CanReport(db, w, plan, LENIENT))
  }

  ghost predicate Follows(db: Database, v: Id, w: Id, plan: Plan, c: Script) {
    && Ends(db, v, plan, c.failsFirst) && c.one == db.artifacts + [LeftBy(plan, v, c.failsFirst)]
    && Ends(db.(artifacts := c.one), w, plan, c.failsSecond) && c.two == c.one + [LeftBy(plan, w, c.failsSecond)]
  }

  /** Only the stored artifacts decide how a completion ends. */
  lemma EndsByArtifacts(db: Database, other: Database, w: Id, plan: Plan, fails: bool)
    requires db.artifacts == other.artifacts && Ends(db, w, plan, fails)
    ensures Ends(other, w, plan, fails)
  {
  }

  /** A budget after one completion that earns `rewards` rewards. */
  function After(budget: real, fails: bool, rewards: nat): real {
    budget + REUSE_REWARD * rewards as real - if fails then Penalty(budget) else 0.0
  }

  /** What the two artifacts earn a worker. */
  ghost predicate Earns(plan: Plan, v: Id, w: Id, c: Script, u: Id, m: nat, n: nat) {
    && Credits(c.one, LeftBy(plan, v, c.failsFirst), u, plan.registered) == m
    && Credits(c.two, LeftBy(plan, w, c.failsSecond), u, plan.registered) == n
  }

  lemma CompletedBudget(before: Round, after: Round, w: Id, plan: Plan, fails: bool, u: Id, rewards: nat)
    requires Completed(before, after, w, plan, fails)
    requires Credits(after.db.artifacts, LeftBy(plan, w, fails), u, plan.registered) == rewards
    ensures after.failed == before.failed + (if fails then [w] else [])
    ensures after.db.artifacts == before.db.artifacts + [LeftBy(plan, w, fails)]
    ensures Budget(after.db, u) == After(Budget(before.db, u), u == w && fails, rewards)
  {
  }

  lemma FirstBudget(db: Database, v: Id, plan: Plan, fails: bool, u: Id, m: nat) returns (first: Round)
    requires MayStart(db, [v], plan) && Ends(db, v, plan, fails)
    requires Credits(db.artifacts + [LeftBy(plan, v, fails)], LeftBy(plan, v, fails), u, plan.registered) == m
    ensures first == RunRound(db, [v], plan, LENIENT) && !first.aborted && first.failed == if fails then [v] else []
    ensures first.db.artifacts == db.artifacts + [LeftBy(plan, v, fails)]
    ensures Budget(first.db, u) == After(Budget(db, u), u == v && fails, m)
  {
    assert [v] == [] + [v];
    var none, one := LastCompletion(db, [], v, plan, LENIENT);
    BeforeCompletion(db, [], v, plan, LENIENT);
    CompletionIsDecided(none, v, plan, LENIENT);
    CompletedBudget(none, one, v, plan, fails, u, m);
    first := one;
  }

  lemma SecondBudget(db: Database, v: Id, w: Id, plan: Plan, first: Round, fails: bool, u: Id, n: nat) returns (second: Round)
    requires MayStart(db, [v, w], plan) && first == RunRound(db, [v], plan, LENIENT) && !first.aborted && Ends(first.db, w, plan, fails)
    requires Credits(first.db.artifacts + [LeftBy(plan, w, fails)], LeftBy(plan, w, fails), u, plan.registered) == n
    ensures second == RunRound(db, [v, w], plan, LENIENT) && !second.aborted
    ensures second.failed == first.failed + (if fails then [w] else [])
    ensures Budget(second.db, u) == After(Budget(first.db, u), u == w && fails, n)
  {
    assert [v, w] == [v] + [w];
    var before, two := LastCompletion(db, [v], w, plan, LENIENT);
    BeforeCompletion(db, [v], w, plan, LENIENT);
    CompletionIsDecided(before, w, plan, LENIENT);
    CompletedBudget(before, two, w, plan, fails, u, n);
    second := two;
  }

  /** How the two completions end, and what they earn a worker, gives that worker's budget. */
  lemma TwoBudgets(db: Database, v: Id, w: Id, plan: Plan, c: Script, u: Id, m: nat, n: nat)
    requires MayStart(db, [v, w], plan) && Follows(db, v, w, plan, c) && Earns(plan, v, w, c, u, m, n)
    ensures var r := RunRound(db, [v, w], plan, LENIENT);
            && !r.aborted && r.failed == (if c.failsFirst then [v] else []) + (if c.failsSecond then [w] else [])
            && Budget(r.db, u) == After(After(Budget(db, u), u == v && c.failsFirst, m), u == w && c.failsSecond, n)
  {
    assert [v, w] == [v] + [w];
    StartShorter(db, [v], w, plan);
    var first := FirstBudget(db, v, plan, c.failsFirst, u, m);
    EndsByArtifacts(db.(artifacts := c.one), first.db, w, plan, c.failsSecond);
    var second := SecondBudget(db, v, w, plan, first, c.failsSecond, u, n);
  }

  lemma OutputEnds(db: Database, w: Id, id: Id, parents: seq<Id>, plan: Plan)
    requires plan.subject == "s" && plan.generate(w) == Some(Output(w, id, parents)) && Distinct(parents) && id !in parents
    requires forall a :: a in db.artifacts ==> a.id != id
    ensures Succeeds(db, w, plan, LENIENT) <==> forall p :: p in parents ==> p in Ids(db.artifacts)
  {
    var a := Output(w, id, parents);
    assert a.Lineage() == parents;
    assert Refusal(a, LENIENT).None?;
    AppendableIff(db, a, LENIENT);
    assert IsFresh(db.artifacts, a, LENIENT);
    if forall p :: p in parents ==> p in Ids(db.artifacts) { assert Parents(a) <= Ids(db.artifacts); }
    if Parents(a) <= Ids(db.artifacts) {
      forall p | p in parents ensures p in Ids(db.artifacts) { assert p in Parents(a); }
    }
  }

  lemma ReportAppends(db: Database, w: Id, plan: Plan)
    requires plan.ticket(w) == Drawn(w) && forall a :: a in db.artifacts ==> a.id != "c" + w
    ensures CanReport(db, w, plan, LENIENT)
  {
    var a := CritiqueOf(w, plan.subject, plan.ticket(w));
    assert a.Lineage() == [] && Parents(a) == {};
    AppendableIff(db, a, LENIENT);
  }

  lemma EarnsNothing(artifacts: seq<Artifact>, a: Artifact, v: Id, registered: set<Id>)
    requires forall p :: p in a.Lineage() ==> Find(artifacts, p).None? || Find(artifacts, p).value.workerId != v
    ensures Credits(artifacts, a, v, registered) == 0
  {
    RewardListIsDistinct(a);
    CountNone(PaysTo(artifacts, a, v, registered), RewardList(a));
  }

  lemma OnlyMember<T>(s: seq<T>, x: T)
    requires Distinct(s) && forall y :: y in s <==> y == x
    ensures s == [x]
  {
    DistinctSize(s);
    assert Elements(s) == {x};
    assert s[0] in s;
  }

  lemma EarnsOnce(artifacts: seq<Artifact>, a: Artifact, p: Id, v: Id, registered: set<Id>)
    requires a.Lineage() == [p] && PaysTo(artifacts, a, v, registered)(p)
    ensures Credits(artifacts, a, v, registered) == 1
  {
    RewardListIsDistinct(a);
    OnlyMember(RewardList(a), p);
    assert RewardList(a) == [] + [p];
    CountOneMore(PaysTo(artifacts, a, v, registered), [], p);
  }

  /** The second worker refers to what the first one makes. */
  const CHAINED := Plan(
    "s", (w: Id) => if w == "A" then Some(Output("A", "x", [])) else Some(Output("B", "y", ["x"])), (w: Id) => Drawn(w), {"A", "B"})

  lemma ChainedMayStart(order: seq<Id>)
    requires order == ["A", "B"] || order == ["B", "A"]
    ensures MayStart(Registered(5.0), order, CHAINED)
    ensures Budget(Registered(5.0), "B") == 5.0 && Registered(5.0).artifacts == []
  {
    RegisteredIs(5.0);
    TwoMayStart(Registered(5.0), order, CHAINED);
  }

  const X := Output("A", "x", [])
  const Y := Output("B", "y", ["x"])

  lemma ReaderEarnsNothing(artifacts: seq<Artifact>)
    requires artifacts != [] && artifacts[0] == X
    ensures Credits(artifacts, X, "B", CHAINED.registered) == 0 && Credits(artifacts, Y, "B", CHAINED.registered) == 0
  {
    assert Find(artifacts, "x") == Some(X);
    EarnsNothing(artifacts, X, "B", CHAINED.registered);
    EarnsNothing(artifacts, Y, "B", CHAINED.registered);
  }

  lemma AuthorFirstScript(db: Database)
    requires db.artifacts == []
    ensures Follows(db, "A", "B", CHAINED, Script(false, false, [X], [X, Y]))
  {
    OutputEnds(db, "A", "x", [], CHAINED);
    assert X in [X] && [X] == db.artifacts + [X] && [X, Y] == [X] + [Y];
    OutputEnds(db.(artifacts := [X]), "B", "y", ["x"], CHAINED);
  }

  lemma ReaderFirstScript(db: Database, report: Artifact)
    requires db.artifacts == [] && report == CritiqueOf("B", "s", Drawn("B"))
    ensures Follows(db, "B", "A", CHAINED, Script(true, false, [report], [report, X]))
  {
    OutputEnds(db, "B", "y", ["x"], CHAINED);
    assert "x" in ["x"] && "x" !in Ids(db.artifacts);
    ReportAppends(db, "B", CHAINED);
    assert [report] == db.artifacts + [report] && [report, X] == [report] + [X];
    OutputEnds(db.(artifacts := [report]), "A", "x", [], CHAINED);
  }

  lemma ReaderNeverEarns(report: Artifact)
    requires report == CritiqueOf("B", "s", Drawn("B"))
    ensures Earns(CHAINED, "A", "B", Script(false, false, [X], [X, Y]), "B", 0, 0)
    ensures Earns(CHAINED, "B", "A", Script(true, false, [report], [report, X]), "B", 0, 0)
  {
    ReaderEarnsNothing([X]);
    ReaderEarnsNothing([X, Y]);
    CritiqueEarnsNothing([report], "B", CHAINED, "B");
    EarnsNothing([report, X], X, "B", CHAINED.registered);
  }

  /** Workers with five units each: who refers to another's output loses one of them, or not, by the order of completion. */
  lemma ReferencesMatter()
    ensures MayStart(Registered(5.0), ["A", "B"], CHAINED) && MayStart(Registered(5.0), ["B", "A"], CHAINED)
    ensures var r, q := RunRound(Registered(5.0), ["A", "B"], CHAINED, LENIENT), RunRound(Registered(5.0), ["B", "A"], CHAINED, LENIENT);
            && !r.aborted && !q.aborted && r.failed == [] && q.failed == ["B"]
            && Budget(r.db, "B") == 5.0 && Budget(q.db, "B") == 4.0
  {
    var db, report := Registered(5.0), CritiqueOf("B", "s", Drawn("B"));
    ChainedMayStart(["A", "B"]);
    ChainedMayStart(["B", "A"]);
    AuthorFirstScript(db);
    ReaderFirstScript(db, report);
    ReaderNeverEarns(report);
    TwoBudgets(db, "A", "B", CHAINED, Script(false, false, [X], [X, Y]), "B", 0, 0);
    TwoBudgets(db, "B", "A", CHAINED, Script(true, false, [report], [report, X]), "B", 0, 0);
  }

  /** The first worker fails, and the second refers to an artifact that the first had stored before. */
  const POOR := Plan(
    "s", (w: Id) => if w == "A" then None else Some(Output("B", "y", ["x"])), (w: Id) => Drawn(w), {"A", "B"})

  function Indebted(): Database {
    Apply(Registered(0.5), Appending(Output("A", "x", [])), LENIENT)
  }

  lemma IndebtedIs(order: seq<Id>)
    requires order == ["A", "B"] || order == ["B", "A"]
    ensures Indebted().artifacts == [Output("A", "x", [])] && Budget(Indebted(), "A") == 0.5
    ensures MayStart(Indebted(), order, POOR)
  {
    var x, db := Output("A", "x", []), Registered(0.5);
    RegisteredIs(0.5);
    assert x.Lineage() == [] && Parents(x) == {} && Refusal(x, LENIENT).None?;
    AppendableIff(db, x, LENIENT);
    AppendKeepsLineage(db, x, LENIENT);
    TwoMayStart(Indebted(), order, POOR);
  }

  lemma PoorEarns(artifacts: seq<Artifact>)
    requires artifacts != [] && artifacts[0] == X
    ensures Credits(artifacts, Y, "A", POOR.registered) == 1
  {
    assert Find(artifacts, "x") == Some(X);
    assert Y.Lineage() == ["x"];
    EarnsOnce(artifacts, Y, "x", "A", POOR.registered);
  }

  lemma PoorFails(db: Database)
    requires forall a :: a in db.artifacts ==> a.id != "cA"
    ensures Ends(db, "A", POOR, true)
  {
    ReportAppends(db, "A", POOR);
  }

  lemma ReaderSucceeds(db: Database)
    requires "x" in Ids(db.artifacts) && forall a :: a in db.artifacts ==> a.id != "y"
    ensures Ends(db, "B", POOR, false)
  {
    OutputEnds(db, "B", "y", ["x"], POOR);
  }

  lemma ReaderIgnoresReport(artifacts: seq<Artifact>, report: Artifact)
    requires artifacts == [X] + [report] && report == CritiqueOf("A", "s", Drawn("A"))
    ensures "x" in Ids(artifacts) && forall a :: a in artifacts ==> a.id != "y"
  {
    assert artifacts[0] in artifacts && report.id[0] == 'c';
  }

  /** A failure first: half a unit is lost, a quarter earned after it. */
  lemma FailureFirstScript(db: Database, report: Artifact, one: seq<Artifact>)
    requires db.artifacts == [X] && report == CritiqueOf("A", "s", Drawn("A")) && one == [X] + [report]
    ensures Follows(db, "A", "B", POOR, Script(true, false, one, one + [Y]))
  {
    PoorFails(db);
    ReaderIgnoresReport(one, report);
    ReaderSucceeds(db.(artifacts := one));
  }

  lemma FailureFirstEarns(report: Artifact, one: seq<Artifact>)
    requires report == CritiqueOf("A", "s", Drawn("A")) && one == [X] + [report]
    ensures Earns(POOR, "A", "B", Script(true, false, one, one + [Y]), "A", 0, 1)
  {
    CritiqueEarnsNothing(one, "A", POOR, "A");
    PoorEarns(one + [Y]);
  }

  /** The reward first: it is lost with the rest. */
  lemma RewardFirstScript(db: Database, report: Artifact, one: seq<Artifact>)
    requires db.artifacts == [X] && report == CritiqueOf("A", "s", Drawn("A")) && one == [X] + [Y]
    ensures Follows(db, "B", "A", POOR, Script(false, true, one, one + [report]))
  {
    assert X in db.artifacts;
    ReaderSucceeds(db);
    PoorFails(db.(artifacts := one));
  }

  lemma RewardFirstEarns(report: Artifact, one: seq<Artifact>)
    requires report == CritiqueOf("A", "s", Drawn("A")) && one == [X] + [Y]
    ensures Earns(POOR, "B", "A", Script(false, true, one, one + [report]), "A", 1, 0)
  {
    PoorEarns(one);
    CritiqueEarnsNothing(one + [report], "A", POOR, "A");
  }

  /** The same failure and the same reward: what is left of half a unit depends on which came first. */
  lemma PovertyMatters()
    ensures MayStart(Indebted(), ["A", "B"], POOR) && MayStart(Indebted(), ["B", "A"], POOR)
    ensures var r, q := RunRound(Indebted(), ["A", "B"], POOR, LENIENT), RunRound(Indebted(), ["B", "A"], POOR, LENIENT);
            && !r.aborted && !q.aborted && r.failed == q.failed == ["A"]
            && Budget(r.db, "A") == 0.25 && Budget(q.db, "A") == 0.0
  {
    var db, report := Indebted(), CritiqueOf("A", "s", Drawn("A"));
    IndebtedIs(["A", "B"]);
    IndebtedIs(["B", "A"]);
    var reported, read := [X] + [report], [X] + [Y];
    FailureFirstScript(db, report, reported);
    FailureFirstEarns(report, reported);
    RewardFirstScript(db, report, read);
    RewardFirstEarns(report, read);
    TwoBudgets(db, "A", "B", POOR, Script(true, false, reported, reported + [Y]), "A", 0, 1);
    TwoBudgets(db, "B", "A", POOR, Script(false, true, read, read + [report]), "A", 1, 0);
  }
}
