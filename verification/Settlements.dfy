/** What a settlement records, reports and pays, and which predictions await one, in the fields of the stored rows. */
module Settlements {
  import opened DueListing
  import opened Evaluation
  import opened EvaluationLaws
  import opened Exceptions
  import opened Lineage
  import opened Lists
  import opened Ordering
  import opened Schema
  import opened Store

  predicate Hit(p: Artifact, o: Observation) {
    p.prediction.Some? && p.prediction.value.expectedDirection == o.direction
  }

  /** How far the confidence was from what happened. */
  function Miss(p: Artifact, o: Observation): real {
    if Hit(p, o) then 1.0 - p.confidence else p.confidence
  }

  /** The share of one prediction in its evidence cluster. */
  function Share(clusterSize: nat): real {
    if clusterSize <= 1 then 1.0 else 1.0 / clusterSize as real
  }

  /** The usefulness reported; else the share, for a hit only. */
  function Merit(p: Artifact, o: Observation, clusterSize: nat): real {
    match o.usefulness
    case Some(x) => x
    case None => if Hit(p, o) then Share(clusterSize) else 0.0
  }

  function Spent(p: Artifact): real {
    match p.inferenceCost
    case Some(x) => if x < 0.0 then 0.0 else x
    case None => 0.0
  }

  function TokensSpent(p: Artifact): int {
    match p.inferenceTokens
    case Some(x) => if x < 0 then 0 else x
    case None => 0
  }

  /** Two units for a hit or against a miss, the squared miss twice, the share twice, the merit, and at most two for the cost. */
  function Change(p: Artifact, o: Observation, clusterSize: nat): real {
    var miss, charge := Miss(p, o), Spent(p) / 0.01;
    (if Hit(p, o) then 2.0 else -2.0) - 2.0 * (miss * miss) + 2.0 * Share(clusterSize) + Merit(p, o, clusterSize)
    - (if charge > 2.0 then 2.0 else charge)
  }

  function ExpectedRecord(p: Artifact, o: Observation, inputs: Inputs): EvaluationRecord {
    var n, miss := inputs.clusterSize(p.id), Miss(p, o);
    EvaluationRecord(
      inputs.drawn(p.id).evaluationId, p.id, o.direction, miss * miss, 1.0 - miss * miss, Merit(p, o, n), Share(n), Spent(p),
      TokensSpent(p), o.observedAt, o.sourceRefs)
  }

  /** An artifact of the evaluator about one prediction, with the references of the observation. */
  function EvaluatorsReport(
    p: Artifact, o: Observation, inputs: Inputs, createdAt: int, kind: ArtifactType, status: ArtifactStatus): Artifact {
    Artifact(
      inputs.drawn(p.id).artifactId, createdAt, "swarm-evaluator", kind, p.subject, o.sourceRefs, 1.0, [p.id], [], status, None,
      Some(0.0), Some(0), inputs.drawn(p.id).body)
  }

  function ExpectedOutcome(p: Artifact, o: Observation, inputs: Inputs): Artifact {
    EvaluatorsReport(p, o, inputs, o.observedAt, OUTCOME, EVALUATED)
  }

  function ExpectedAnomaly(p: Artifact, o: Observation, inputs: Inputs): Artifact {
    EvaluatorsReport(p, o, inputs, inputs.now, ANOMALY, FAILED)
  }

  lemma MissIsDifference(p: Artifact, o: Observation)
    ensures var difference := p.confidence - Indicator(Correct(p, o)); difference * difference == Miss(p, o) * Miss(p, o)
  {
    var difference := p.confidence - Indicator(Correct(p, o));
    assert difference == Miss(p, o) || difference == -Miss(p, o);
    OppositeSquares(Miss(p, o));
  }

  lemma OppositeSquares(x: real)
    ensures -x * -x == x * x
  {
  }

  lemma ShareIsUniqueness(clusterSize: nat)
    ensures 1.0 / (if clusterSize == 0 then 1 else clusterSize) as real == Share(clusterSize)
  {
  }

  /** The record holds the squared miss and its complement, merit and share, and what was spent. */
  lemma RecordIsExpected(p: Artifact, o: Observation, inputs: Inputs)
    requires IsProbability(p.confidence) && ObservationValid(o)
    ensures RecordOf(p, o, inputs) == ExpectedRecord(p, o, inputs)
  {
    ScoresAreProbabilities(p, o, inputs.clusterSize(p.id), inputs.drawn(p.id).evaluationId);
    MissIsDifference(p, o);
    ShareIsUniqueness(inputs.clusterSize(p.id));
  }

  lemma ReportsAreExpected(p: Artifact, o: Observation, inputs: Inputs)
    ensures OutcomeFor(p, o, inputs.drawn(p.id)) == ExpectedOutcome(p, o, inputs)
    ensures AnomalyFor(p, o, inputs.drawn(p.id), inputs.now) == ExpectedAnomaly(p, o, inputs)
  {
  }

  lemma DeltaIsChange(p: Artifact, o: Observation, inputs: Inputs)
    requires IsProbability(p.confidence) && ObservationValid(o)
    ensures BudgetDelta(RecordOf(p, o, inputs), Correct(p, o)) == Change(p, o, inputs.clusterSize(p.id))
  {
    RecordIsExpected(p, o, inputs);
  }

  /** The observation passes validation, in its fields. */
  predicate Sane(o: Observation) {
    o.legible && |o.sourceRefs| > 0 && match o.usefulness case Some(x) => 0.0 <= x <= 1.0 case None => true
  }

  predicate Within(p: Artifact, o: Observation, now: int) {
    p.prediction.Some? && p.prediction.value.evaluationAt <= o.observedAt && o.observedAt <= now
  }

  /** What the ending of a settlement says about prediction and observation. */
  lemma EndingIsDecided(db: Database, p: Artifact, inputs: Inputs, rules: Rules)
    requires LineageKept(db) && Settleable(db, p, inputs, rules)
    ensures var ending := Settle(db, p, inputs, rules).1;
            match inputs.resolver(p)
            case None => ending == Unsettled
            case Some(o) =>
              && (ending.Contaminated? <==> Sane(o) && !Within(p, o, inputs.now) && rules.artifactOk(ExpectedAnomaly(p, o, inputs)))
              && (ending.Scored? <==>
                    && Sane(o) && Within(p, o, inputs.now) && p.inferenceCost.Some? && p.inferenceTokens.Some?
                    && rules.recordOk(ExpectedRecord(p, o, inputs)) && rules.artifactOk(ExpectedOutcome(p, o, inputs)))
              && (ending.Contaminated? || ending.Scored? || ending.Aborted?)
  {
    if o :| inputs.resolver(p) == Some(o) {
      SettlementAbortsIffUnfit(db, p, inputs, rules);
      ReportsAreExpected(p, o, inputs);
      if ObservationValid(o) { RecordIsExpected(p, o, inputs); }
    }
  }

  /** A settlement from outside the window leaves nothing but the evaluator's report of an anomaly. */
  lemma ContaminationLeaves(db: Database, p: Artifact, o: Observation, inputs: Inputs, rules: Rules)
    requires inputs.resolver(p) == Some(o) && Settle(db, p, inputs, rules).1.Contaminated?
    ensures var next := Settle(db, p, inputs, rules).0;
            next == db.(artifacts := db.artifacts + [ExpectedAnomaly(p, o, inputs)], edges := next.edges)
  {
    ReportsAreExpected(p, o, inputs);
  }

  /** The budget of the worker after a change, never below zero. */
  function BudgetAfter(budget: real, change: real): real {
    if budget + change < 0.0 then 0.0 else budget + change
  }

  /** One entry in the ledger of a registered worker takes its budget to what the change makes of it. */
  ghost predicate Paid(db: Database, next: Database, w: Id, change: real, eventId: string, about: Id) {
    if w !in db.workers then next.workers == db.workers && next.events == db.events
    else
      var budget := db.workers[w].budget;
      var after := BudgetAfter(budget, change);
      && next.workers == db.workers[w := db.workers[w].(budget := after)]
      && next.events == db.events + [BudgetEvent(eventId, w, after - budget, "matured_prediction_evaluation", Some(about))]
  }

  /** A scoring leaves one record, one report of the outcome and, if the worker is registered, one entry in the ledger. */
  lemma ScoringLeaves(db: Database, p: Artifact, o: Observation, inputs: Inputs, rules: Rules)
    requires inputs.resolver(p) == Some(o) && Settle(db, p, inputs, rules).1.Scored? && IsProbability(p.confidence)
    ensures var next := Settle(db, p, inputs, rules).0;
            && next.evaluations == db.evaluations + [ExpectedRecord(p, o, inputs)]
            && next.artifacts == db.artifacts + [ExpectedOutcome(p, o, inputs)]
            && Paid(db, next, p.workerId, Change(p, o, inputs.clusterSize(p.id)), inputs.drawn(p.id).eventId, p.id)
  {
    RecordIsExpected(p, o, inputs);
    ReportsAreExpected(p, o, inputs);
    DeltaIsChange(p, o, inputs);
    ScoringPays(db, p, o, RecordOf(p, o, inputs), inputs.drawn(p.id), rules);
  }

  lemma ScoringPays(db: Database, p: Artifact, o: Observation, record: EvaluationRecord, drawn: Drawn, rules: Rules)
    requires Score(db, p, o, record, drawn, rules).1.Scored?
    ensures var next := Score(db, p, o, record, drawn, rules).0;
            && next.evaluations == db.evaluations + [record] && next.artifacts == db.artifacts + [OutcomeFor(p, o, drawn)]
            && Paid(db, next, p.workerId, BudgetDelta(record, Correct(p, o)), drawn.eventId, p.id)
  {
    var recorded, outcome := AppendEvaluation(db, record, rules).value, OutcomeFor(p, o, drawn);
    ScoreSteps(db, p, o, record, drawn, rules);
    AppendedRecord(db, record, rules);
    AppendedArtifact(recorded, outcome, rules);
    StepsPay(db, recorded, AppendArtifact(recorded, outcome, rules).value, record, outcome, p, Correct(p, o), drawn.eventId);
  }

  lemma ScoreSteps(db: Database, p: Artifact, o: Observation, record: EvaluationRecord, drawn: Drawn, rules: Rules)
    requires Score(db, p, o, record, drawn, rules).1.Scored?
    ensures AppendEvaluation(db, record, rules).Success?
    ensures var reported := AppendArtifact(AppendEvaluation(db, record, rules).value, OutcomeFor(p, o, drawn), rules);
            && reported.Success?
            && Score(db, p, o, record, drawn, rules) == Pay(reported.value, p, record, Correct(p, o), drawn.eventId)
  {
  }

  lemma StepsPay(
    db: Database, recorded: Database, reported: Database, record: EvaluationRecord, outcome: Artifact, p: Artifact, correct: bool,
    eventId: string)
    requires recorded == db.(evaluations := db.evaluations + [record])
    requires reported == recorded.(artifacts := recorded.artifacts + [outcome], edges := reported.edges)
    requires Pay(reported, p, record, correct, eventId).1.Scored?
    ensures var next := Pay(reported, p, record, correct, eventId).0;
            && next.evaluations == db.evaluations + [record] && next.artifacts == db.artifacts + [outcome]
            && Paid(db, next, p.workerId, BudgetDelta(record, correct), eventId, p.id)
  {
    PayPays(reported, p, record, correct, eventId);
  }

  lemma AppendedRecord(db: Database, record: EvaluationRecord, rules: Rules)
    requires AppendEvaluation(db, record, rules).Success?
    ensures AppendEvaluation(db, record, rules).value == db.(evaluations := db.evaluations + [record])
  {
  }

  lemma AppendedArtifact(db: Database, a: Artifact, rules: Rules)
    requires AppendArtifact(db, a, rules).Success?
    ensures var next := AppendArtifact(db, a, rules).value; next == db.(artifacts := db.artifacts + [a], edges := next.edges)
  {
  }

  lemma PayPays(db: Database, p: Artifact, record: EvaluationRecord, correct: bool, eventId: string)
    requires Pay(db, p, record, correct, eventId).1.Scored?
    ensures var next := Pay(db, p, record, correct, eventId).0;
            && next.evaluations == db.evaluations && next.artifacts == db.artifacts
            && Paid(db, next, p.workerId, BudgetDelta(record, correct), eventId, p.id)
  {
  }

  /** The stored predictions that stand before this one. */
  ghost function Before(db: Database, listing: Listing, p: Artifact): set<Artifact> {
    set q | q in db.artifacts && q.kind == PREDICTION && q.id != p.id && listing(q, p)
  }

  lemma RankIsNumberBefore(db: Database, listing: Listing, p: Artifact)
    requires LineageKept(db)
    ensures Rank(db, listing, p) == |Before(db, listing, p)|
  {
    PredictionsAreDistinct(db);
    CountIsSetSize(Precedes(listing, p), Predictions(db));
    PrecedingIsBefore(db, listing, p);
  }

  lemma PrecedingIsBefore(db: Database, listing: Listing, p: Artifact)
    ensures Satisfying(Precedes(listing, p), Predictions(db)) == Before(db, listing, p)
  {
    forall q ensures q in Predictions(db) <==> q in db.artifacts && IsPrediction(q) { PredictionsAreStored(db, q); }
  }

  lemma PredictionsAreDistinct(db: Database)
    requires LineageKept(db)
    ensures Distinct(Predictions(db))
  {
    forall i, j | 0 <= i < j < |db.artifacts| ensures HAS_OTHER_ID(db.artifacts[i], db.artifacts[j]) {
      EarlierIdIsListed(db.artifacts, i, j);
    }
    FilterKeepsOrder(HAS_OTHER_ID, PREDICTION_OF, db.artifacts);
    var stored := Predictions(db);
    forall i, j | 0 <= i < j < |stored| ensures stored[i] != stored[j] { assert HAS_OTHER_ID(stored[i], stored[j]); }
  }

  /** Due: a stored prediction without a record, mature, not given up, and with fewer than 10000 predictions before it. */
  lemma DueByFields(db: Database, now: int, listing: Listing, p: Artifact)
    requires IsListing(listing) && LineageKept(db)
    ensures p in DuePredictions(db, now, listing) <==>
            && p in db.artifacts && p.kind == PREDICTION && (forall r :: r in db.evaluations ==> r.predictionId != p.id)
            && p.status != INVALIDATED && p.status != REJECTED && p.status != FAILED
            && p.prediction.Some? && p.prediction.value.evaluationAt <= now
            && |Before(db, listing, p)| < 10000
  {
    DueIffPendingAndRanked(db, now, listing, p);
    RankIsNumberBefore(db, listing, p);
  }
}
