/** Evaluation runs and rounds of workers are transactions like any other, so whatever transactions keep, they keep. */
module Clients {
  import opened Evaluation
  import opened Ledger
  import opened Lineage
  import opened Orchestration
  import opened Reachability
  import opened Schema
  import opened Store

  /** Some transactions lead to this database, with these first grants. */
  ghost predicate Reached(db: Database, granted: map<Id, real>, rules: Rules) {
    exists ts: seq<Transaction> :: Run(ts, rules) == db && Granted(ts, rules) == granted
  }

  lemma OneMoreTransaction(db: Database, granted: map<Id, real>, t: Transaction, rules: Rules)
    requires Reached(db, granted, rules)
    ensures Reached(Apply(db, t, rules), GrantedBy(granted, t, rules), rules)
  {
    var ts :| Run(ts, rules) == db && Granted(ts, rules) == granted;
    assert (ts + [t])[..|ts|] == ts;
    assert Run(ts + [t], rules) == Apply(db, t, rules) && Granted(ts + [t], rules) == GrantedBy(granted, t, rules);
  }

  /** In every reached database the lineage has no cycles and the ledger reconciles. */
  lemma ReachedIsConsistent(db: Database, granted: map<Id, real>, rules: Rules)
    requires Reached(db, granted, rules)
    ensures LineageKept(db) && Reconciled(db, granted)
    ensures forall x: Id :: !ReachPlus(db.edges, x, x)
  {
    var ts :| Run(ts, rules) == db && Granted(ts, rules) == granted;
    RunKeepsLineage(ts, rules);
    LedgerReconciles(ts, rules);
    forall x: Id ensures !ReachPlus(db.edges, x, x) { LineageIsAcyclic(db, x); }
  }

  lemma {:induction false} RewardsReach(
    db: Database, granted: map<Id, real>, a: Artifact, parents: seq<Id>, registered: set<Id>, event: Id -> string, rules: Rules)
    requires Reached(db, granted, rules)
    ensures Reached(RewardAll(db, a, parents, registered, event).0, granted, rules)
  {
    if parents != [] {
      var init, p := parents[..|parents| - 1], parents[|parents| - 1];
      RewardsReach(db, granted, a, init, registered, event, rules);
      var (before, ok) := RewardAll(db, a, init, registered, event);
      if ok && Rewarded(before.artifacts, a, p, registered) {
        var author := Find(before.artifacts, p).value.workerId;
        OneMoreTransaction(before, granted, Budgeting(event(p), author, REUSE_REWARD, REUSE_REASON, Some(p)), rules);
      }
    }
  }

  lemma FailureReaches(round: Round, granted: map<Id, real>, w: Id, plan: Plan, rules: Rules)
    requires Reached(round.db, granted, rules)
    ensures Reached(RecordFailure(round, w, plan, rules).db, granted, rules)
  {
    var t := plan.ticket(w);
    var critique := CritiqueOf(w, plan.subject, t);
    OneMoreTransaction(round.db, granted, Appending(critique), rules);
    OneMoreTransaction(
      Apply(round.db, Appending(critique), rules), granted,
      Budgeting(t.penaltyEvent, w, FAILURE_PENALTY, FAILURE_REASON, Some(t.critiqueId)), rules);
  }

  lemma CompletionReaches(round: Round, granted: map<Id, real>, w: Id, plan: Plan, rules: Rules)
    requires Reached(round.db, granted, rules)
    ensures Reached(Complete(round, w, plan, rules).db, granted, rules)
  {
    var a := plan.generate(w);
    if a.Some? && OutputValid(w, plan.subject, a.value, rules) && AppendArtifact(round.db, a.value, rules).Success? {
      var committed := AppendArtifact(round.db, a.value, rules).value;
      OneMoreTransaction(round.db, granted, Appending(a.value), rules);
      RewardsReach(committed, granted, a.value, RewardList(a.value), plan.registered, plan.ticket(w).rewardEvent, rules);
      var (rewarded, ok) := RewardAll(committed, a.value, RewardList(a.value), plan.registered, plan.ticket(w).rewardEvent);
      if !ok { FailureReaches(round.(db := rewarded), granted, w, plan, rules); }
    } else {
      FailureReaches(round, granted, w, plan, rules);
    }
  }

  /** However a round goes, even if it is aborted, it leaves a reachable store. */
  lemma {:induction false} RoundReaches(db: Database, granted: map<Id, real>, order: seq<Id>, plan: Plan, rules: Rules)
    requires Reached(db, granted, rules)
    ensures Reached(RunRound(db, order, plan, rules).db, granted, rules)
  {
    if order != [] {
      RoundReaches(db, granted, order[..|order| - 1], plan, rules);
      var before := RunRound(db, order[..|order| - 1], plan, rules);
      if !before.aborted { CompletionReaches(before, granted, order[|order| - 1], plan, rules); }
    }
  }

  lemma SettlementReaches(db: Database, granted: map<Id, real>, p: Artifact, inputs: Inputs, rules: Rules)
    requires Reached(db, granted, rules)
    ensures Reached(Settle(db, p, inputs, rules).0, granted, rules)
  {
    var observation := inputs.resolver(p);
    if observation.Some? && ObservationValid(observation.value) {
      var o, drawn := observation.value, inputs.drawn(p.id);
      if InWindow(p, o, inputs.now) {
        ScoreReaches(db, granted, p, o, RecordFor(p, o, inputs.clusterSize(p.id), drawn.evaluationId), drawn, rules);
      } else {
        OneMoreTransaction(db, granted, Appending(AnomalyFor(p, o, drawn, inputs.now)), rules);
      }
    }
  }

  lemma ScoreReaches(
    db: Database, granted: map<Id, real>, p: Artifact, o: Observation, record: EvaluationRecord, drawn: Drawn, rules: Rules)
    requires Reached(db, granted, rules)
    ensures Reached(Score(db, p, o, record, drawn, rules).0, granted, rules)
  {
    OneMoreTransaction(db, granted, Evaluating(record), rules);
    var recorded := Apply(db, Evaluating(record), rules);
    OneMoreTransaction(recorded, granted, Appending(OutcomeFor(p, o, drawn)), rules);
    var reported := Apply(recorded, Appending(OutcomeFor(p, o, drawn)), rules);
    OneMoreTransaction(
      reported, granted,
      Budgeting(drawn.eventId, p.workerId, BudgetDelta(record, Correct(p, o)), EVALUATION_REASON, Some(p.id)), rules);
  }

  lemma {:induction false} SettlementsReach(db: Database, granted: map<Id, real>, due: seq<Artifact>, inputs: Inputs, rules: Rules)
    requires Reached(db, granted, rules)
    ensures Reached(SettleAll(db, due, inputs, rules).db, granted, rules)
  {
    if due != [] {
      SettlementsReach(db, granted, due[..|due| - 1], inputs, rules);
      var before := SettleAll(db, due[..|due| - 1], inputs, rules);
      if !before.aborted { SettlementReaches(before.db, granted, due[|due| - 1], inputs, rules); }
    }
  }

  /** However an evaluation run goes, even if it is aborted, it leaves a reachable store. */
  lemma EvaluationReaches(
    db: Database, granted: map<Id, real>, inputs: Inputs, listing: (Artifact, Artifact) -> bool, rules: Rules)
    requires Reached(db, granted, rules)
    ensures Reached(EvaluationRun(db, inputs, listing, rules).db, granted, rules)
  {
    SettlementsReach(db, granted, DuePredictions(db, inputs.now, listing), inputs, rules);
  }
}
