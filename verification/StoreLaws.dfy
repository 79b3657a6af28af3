/** Exactly what the store takes in, and what it then holds, in the fields of the rows. */
module StoreLaws {
  import opened Lineage
  import opened Lists
  import opened Ordering
  import opened Reachability
  import opened Schema
  import opened Store

  /** A prediction matures after it was made, and without a signal expects no magnitude; nothing else predicts. */
  ghost predicate PredictsSoundly(a: Artifact) {
    match a.prediction
    case None => a.kind != PREDICTION
    case Some(f) =>
      a.kind == PREDICTION && a.createdAt < f.evaluationAt && (f.expectedDirection == NO_SIGNAL ==> f.expectedMagnitude == 0.0)
  }

  /** References are distinct, stored before, and not to itself. */
  ghost predicate RefersSoundly(artifacts: seq<Artifact>, a: Artifact) {
    var lineage := a.parentArtifacts + a.derivedFrom;
    && (forall i, j :: 0 <= i < j < |lineage| ==> lineage[i] != lineage[j])
    && (forall p :: p in lineage ==> p != a.id && exists b :: b in artifacts && b.id == p)
  }

  ghost predicate IsNew(artifacts: seq<Artifact>, a: Artifact, rules: Rules) {
    forall b :: b in artifacts ==> b.id != a.id && rules.artifactHash(b) != rules.artifactHash(a)
  }

  lemma RefusalIff(a: Artifact, rules: Rules)
    ensures Refusal(a, rules).None? <==>
            && rules.artifactOk(a) && |a.sourceRefs| > 0 && 0.0 <= a.confidence <= 1.0 && PredictsSoundly(a)
            && a.id !in a.parentArtifacts + a.derivedFrom && Distinct(a.parentArtifacts + a.derivedFrom)
  {
  }

  lemma ReferencesIff(artifacts: seq<Artifact>, a: Artifact)
    ensures RefersSoundly(artifacts, a) <==>
            a.id !in a.Lineage() && Distinct(a.Lineage()) && Parents(a) - Ids(artifacts) == {}
  {
    if Parents(a) - Ids(artifacts) == {} {
      forall p | p in a.Lineage() ensures exists b :: b in artifacts && b.id == p {
        assert p in Parents(a) && p !in Parents(a) - Ids(artifacts);
        assert p in Ids(artifacts);
      }
    }
  }

  /** An artifact is stored exactly when it is sound in itself, refers to stored artifacts and is new. */
  lemma ArtifactIsStoredIff(db: Database, a: Artifact, rules: Rules)
    ensures AppendArtifact(db, a, rules).Success? <==>
            && rules.artifactOk(a) && |a.sourceRefs| > 0 && 0.0 <= a.confidence <= 1.0
            && PredictsSoundly(a) && RefersSoundly(db.artifacts, a) && IsNew(db.artifacts, a, rules)
  {
    RefusalIff(a, rules);
    ReferencesIff(db.artifacts, a);
    NewIff(db.artifacts, a, rules);
  }

  lemma NewIff(artifacts: seq<Artifact>, a: Artifact, rules: Rules)
    ensures IsNew(artifacts, a, rules) <==> a.id !in Ids(artifacts) && !HashTaken(artifacts, rules.artifactHash(a), rules)
  {
  }

  /** It comes last, with one edge to each artifact it refers to. */
  lemma StoredArtifact(db: Database, a: Artifact, rules: Rules)
    requires AppendArtifact(db, a, rules).Success?
    ensures var next := AppendArtifact(db, a, rules).value;
            && next.artifacts == db.artifacts + [a] && next.evaluations == db.evaluations
            && next.workers == db.workers && next.events == db.events
            && forall x: Id, y: Id :: (x, y) in next.edges <==>
                 (x, y) in db.edges || (x == a.id && (y in a.parentArtifacts || y in a.derivedFrom))
  {
  }

  /** A record is stored exactly when its scores are probabilities, it is about a stored prediction without one, and it is new. */
  lemma RecordIsStoredIff(db: Database, r: EvaluationRecord, rules: Rules)
    requires LineageKept(db)
    ensures AppendEvaluation(db, r, rules).Success? <==>
            && rules.recordOk(r) && 0.0 <= r.brier <= 1.0 && 0.0 <= r.calibration <= 1.0 && 0.0 <= r.usefulness <= 1.0
            && 0.0 <= r.uniqueness <= 1.0 && r.cost >= 0.0 && r.tokens >= 0 && |r.sourceRefs| > 0
            && (exists p :: p in db.artifacts && p.id == r.predictionId && p.kind == PREDICTION)
            && forall e :: e in db.evaluations ==>
                 e.predictionId != r.predictionId && e.id != r.id && rules.recordHash(e) != rules.recordHash(r)
  {
    var found := Find(db.artifacts, r.predictionId);
    if p :| p in db.artifacts && p.id == r.predictionId && p.kind == PREDICTION {
      assert p.id in Ids(db.artifacts);
      OneArtifactPerId(db.artifacts, p, found.value);
    }
  }

  lemma StoredRecord(db: Database, r: EvaluationRecord, rules: Rules)
    requires AppendEvaluation(db, r, rules).Success?
    ensures var next := AppendEvaluation(db, r, rules).value;
            next.evaluations == db.evaluations + [r] && next == db.(evaluations := next.evaluations)
  {
  }

  /**
   * A budget changes exactly when a reason is given, the worker is registered, the event is new, and the artifact it is
   * about, if any, is stored. It takes what is asked for, but not below zero, and the ledger records what it took.
   */
  lemma BudgetChangesIff(db: Database, id: string, w: Id, delta: real, reason: string, related: Option<Id>)
    ensures AppendBudgetEvent(db, id, w, delta, reason, related).Success? <==>
            && (exists c :: c in reason && c != ' ' && c != '\t' && c != '\n' && c != '\r') && w in db.workers
            && (forall e :: e in db.events ==> e.id != id)
            && (related.Some? ==> exists a :: a in db.artifacts && a.id == related.value)
  {
  }

  lemma ChangedBudget(db: Database, id: string, w: Id, delta: real, reason: string, related: Option<Id>)
    requires AppendBudgetEvent(db, id, w, delta, reason, related).Success?
    ensures var next, budget := AppendBudgetEvent(db, id, w, delta, reason, related).value, db.workers[w].budget;
            var after := if budget + delta >= 0.0 then budget + delta else 0.0;
            && next.workers == db.workers[w := Worker(after, db.workers[w].pattern)]
            && next.events == db.events + [BudgetEvent(id, w, after - budget, reason, related)]
            && next.artifacts == db.artifacts && next.edges == db.edges && next.evaluations == db.evaluations
  {
  }

  /** A registered worker's pattern is set, and nothing else changes. */
  lemma PatternIsSetIff(db: Database, w: Id, pattern: Option<string>)
    ensures SetBehavioralPattern(db, w, pattern).Success? <==> w in db.workers
    ensures w in db.workers ==>
              SetBehavioralPattern(db, w, pattern) == Success(db.(workers := db.workers[w := Worker(db.workers[w].budget, pattern)]))
  {
  }

  /** Workers numbered from one, at most a thousand, are registered with a budget unless they were before. */
  lemma RegistrationIff(db: Database, count: int, budget: real, capable: bool, rules: Rules)
    ensures RegisterWorkers(db, count, budget, capable, rules).Success? <==> 1 <= count <= 1000 && budget >= 0.0 && capable
    ensures RegisterWorkers(db, count, budget, capable, rules).Success? ==>
              var next := RegisterWorkers(db, count, budget, capable, rules).value;
              next == db.(workers := next.workers) && Registers(db.workers, next.workers, count, budget, rules)
  {
    if count >= 1 { EnrolledAre(db.workers, count, budget, rules); }
  }

  ghost predicate Registers(before: map<Id, Worker>, after: map<Id, Worker>, count: int, budget: real, rules: Rules) {
    && (forall w :: w in after <==> w in before || exists i: nat :: 1 <= i <= count && rules.workerName(i) == w)
    && (forall w :: w in after ==> after[w] == if w in before then before[w] else Worker(budget, None))
  }

  lemma {:induction false} EnrolledAre(workers: map<Id, Worker>, count: nat, budget: real, rules: Rules)
    ensures Registers(workers, Enrolled(workers, count, budget, rules), count, budget, rules)
  {
    if count > 0 {
      EnrolledAre(workers, count - 1, budget, rules);
      var before, after := Enrolled(workers, count - 1, budget, rules), Enrolled(workers, count, budget, rules);
      forall w ensures w in after <==> w in workers || exists i: nat :: 1 <= i <= count && rules.workerName(i) == w {
        if w in after && w !in before { assert rules.workerName(count) == w; }
      }
    }
  }
}
