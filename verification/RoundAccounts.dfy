/** Rewards, penalties and reports of a round in the fields of the artifacts and in numbers. */
module RoundAccounts {
  import opened Lineage
  import opened Lists
  import opened Orchestration
  import opened OrchestrationLaws
  import opened Ordering
  import opened Schema
  import opened Store

  /** The references of `a` to artifacts of this worker, if it is another registered one. */
  ghost function ReusedFrom(artifacts: seq<Artifact>, a: Artifact, v: Id, registered: set<Id>): set<Id> {
    set b | b in artifacts && (b.id in a.parentArtifacts || b.id in a.derivedFrom)
      && b.workerId == v && v != a.workerId && v in registered :: b.id
  }

  lemma PaidIffReused(artifacts: seq<Artifact>, a: Artifact, v: Id, registered: set<Id>, p: Id)
    requires Chronological(artifacts)
    ensures p in RewardList(a) && PaysTo(artifacts, a, v, registered)(p) <==> p in ReusedFrom(artifacts, a, v, registered)
  {
    RewardListIsDistinct(a);
    if b :| b in artifacts && b.id == p {
      assert p in Ids(artifacts);
      OneArtifactPerId(artifacts, b, Find(artifacts, p).value);
    }
  }

  /** An artifact earns a worker one reward for each of the worker's artifacts that it refers to, however often. */
  lemma CreditsAreReuses(artifacts: seq<Artifact>, a: Artifact, v: Id, registered: set<Id>)
    requires Chronological(artifacts)
    ensures Credits(artifacts, a, v, registered) == |ReusedFrom(artifacts, a, v, registered)|
  {
    RewardListIsDistinct(a);
    CountIsSetSize(PaysTo(artifacts, a, v, registered), RewardList(a));
    forall p ensures p in RewardList(a) && PaysTo(artifacts, a, v, registered)(p) <==> p in ReusedFrom(artifacts, a, v, registered) {
      PaidIffReused(artifacts, a, v, registered, p);
    }
    assert Satisfying(PaysTo(artifacts, a, v, registered), RewardList(a)) == ReusedFrom(artifacts, a, v, registered);
  }

  /**
   * Of a round that is accounted for, in numbers: a quarter for each reuse; one unit less for a failure, or all that was
   * held when it was recorded.
   */
  lemma BudgetInNumbers(start: Database, order: seq<Id>, r: Round, plan: Plan, v: Id)
    requires Accounted(start, order, r, plan) && v in start.workers
    ensures v in r.db.workers
    ensures var added, budget := Added(start, r), start.workers[v].budget;
            var held := budget + 0.25 * Earned(r.db.artifacts, added[..Place(order, v)], v, plan.registered) as real;
            r.db.workers[v].budget == budget + 0.25 * Earned(r.db.artifacts, added, v, plan.registered) as real
              - if v !in r.failed then 0.0 else if held >= 1.0 then 1.0 else held
  {
    assert BudgetFollows(start, order, r, plan, v);
  }

  /** What a worker leaves in a round: its output, or the report of its failure. */
  lemma LeftInFields(start: Database, order: seq<Id>, r: Round, plan: Plan, i: nat)
    requires Accounted(start, order, r, plan) && i < |order|
    ensures var added, w := Added(start, r), order[i];
            && i < |added| && added[i].workerId == w && added[i].subject == plan.subject
            && (w !in r.failed && plan.generate(w).Some? ==> added[i] == plan.generate(w).value)
            && (w in r.failed ==>
                  && added[i].id == plan.ticket(w).critiqueId && added[i].kind == CRITIQUE && added[i].status == FAILED
                  && added[i].sourceRefs == ["agentos2://swarm/worker/" + w] && added[i].confidence == 1.0
                  && added[i].parentArtifacts == [] && added[i].derivedFrom == [])
  {
    assert Added(start, r)[i] == LeftBy(plan, order[i], order[i] in r.failed);
  }

  /** The report of a failure: the worker's own, certain, without references. */
  function FailureReport(w: Id, subject: string, t: Ticket): Artifact {
    Artifact(t.critiqueId, t.createdAt, w, CRITIQUE, subject, ["agentos2://swarm/worker/" + w], 1.0, [], [], FAILED, None, Some(0.0),
             Some(0), t.body)
  }

  /** A failure is reported and paid for by one unit, as far as the budget goes. */
  lemma FailureLeaves(round: Round, w: Id, plan: Plan, rules: Rules)
    requires !round.aborted && w in round.db.workers && round.db.workers[w].budget >= 0.0
    requires !RecordFailure(round, w, plan, rules).aborted
    ensures var after, budget, t := RecordFailure(round, w, plan, rules), round.db.workers[w].budget, plan.ticket(w);
            var taken := if budget >= 1.0 then 1.0 else budget;
            && after.db.artifacts == round.db.artifacts + [FailureReport(w, plan.subject, t)]
            && after.failed == round.failed + [w] && after.stored == round.stored + [t.critiqueId]
            && after.db.workers == round.db.workers[w := Worker(budget - taken, round.db.workers[w].pattern)]
            && after.db.events == round.db.events + [
                 BudgetEvent(t.penaltyEvent, w, -taken, "invalid_or_failed_generation", Some(t.critiqueId))]
  {
  }

  /** Rewards are given in the order of the identifiers referred to, each once. */
  lemma RewardsAreInOrder(a: Artifact)
    ensures forall i, j :: 0 <= i < j < |RewardList(a)| ==> Lt(RewardList(a)[i], RewardList(a)[j])
    ensures forall p :: p in RewardList(a) <==> p in a.parentArtifacts || p in a.derivedFrom
  {
    UniqueIsDistinct(a.Lineage());
    SortEnumerates(Unique(a.Lineage()));
    forall p ensures p in RewardList(a) <==> p in a.Lineage() {
      assert p in RewardList(a) <==> p in Elements(RewardList(a));
      assert p in a.Lineage() <==> p in Elements(a.Lineage());
    }
  }

  /** One reward adds a quarter to the budget of whoever made the artifact that is referred to. */
  lemma RewardLeaves(db: Database, a: Artifact, p: Id, registered: set<Id>, event: Id -> string, b: Artifact)
    requires LineageKept(db) && b in db.artifacts && b.id == p && b.workerId in db.workers && db.workers[b.workerId].budget >= 0.0
    requires RewardOne(db, a, p, registered, event).1
    ensures var next, v := RewardOne(db, a, p, registered, event).0, b.workerId;
            if v != a.workerId && v in registered then
              && next.workers == db.workers[v := Worker(db.workers[v].budget + 0.25, db.workers[v].pattern)]
              && next.events == db.events + [BudgetEvent(event(p), v, 0.25, "downstream_artifact_reuse", Some(p))]
            else next == db
  {
    assert p in Ids(db.artifacts);
    OneArtifactPerId(db.artifacts, b, Find(db.artifacts, p).value);
  }

  /** An output is a worker's own, on the subject of the round, and one that the store takes in; else the worker fails. */
  lemma SucceedsIff(db: Database, w: Id, plan: Plan, rules: Rules)
    ensures Succeeds(db, w, plan, rules) <==>
            match plan.generate(w)
            case None => false
            case Some(a) => a.workerId == w && a.subject == plan.subject && AppendArtifact(db, a, rules).Success?
  {
  }
}
