/** A round of workers: generations committed in completion order, reuse rewarded, failures recorded and penalized. */
module Orchestration {
  import opened Lists
  import opened Ordering
  import opened Schema
  import opened Store

  const REUSE_REASON := "downstream_artifact_reuse"
  const FAILURE_REASON := "invalid_or_failed_generation"
  const REUSE_REWARD := 0.25
  const FAILURE_PENALTY := -1.0

  /** What is drawn for one worker: the report of a failure, and identifiers of budget events. */
  datatype Ticket = Ticket(critiqueId: Id, createdAt: int, body: string, penaltyEvent: string, rewardEvent: Id -> string)

  /** A round: what each worker's generation returns, if it returns, for one subject. */
  datatype Plan = Plan(subject: string, generate: Id -> Option<Artifact>, ticket: Id -> Ticket, registered: set<Id>)

  /** `aborted` when recording a failure failed itself, which ends the round. */
  datatype Round = Round(db: Database, stored: seq<Id>, failed: seq<Id>, aborted: bool)

  function CritiqueOf(w: Id, subject: string, t: Ticket): Artifact {
    Artifact(t.critiqueId, t.createdAt, w, CRITIQUE, subject, ["agentos2://swarm/worker/" + w], 1.0, [], [], FAILED, None,
             Some(0.0), Some(0), t.body)
  }

  /** The output is valid and is the worker's own, on the subject asked for. */
  predicate OutputValid(w: Id, subject: string, a: Artifact, rules: Rules) {
    Refusal(a, rules).None? && a.workerId == w && a.subject == subject
  }

  /** References to be rewarded: the distinct ones, in order. */
  function RewardList(a: Artifact): seq<Id> {
    Sort(Unique(a.Lineage()))
  }

  /** A reference is rewarded when another registered worker made it. */
  predicate Rewarded(artifacts: seq<Artifact>, a: Artifact, parentId: Id, registered: set<Id>) {
    var parent := Find(artifacts, parentId);
    parent.Some? && parent.value.workerId != a.workerId && parent.value.workerId in registered
  }

  /** One reward; the flag tells whether the ledger took it. */
  function RewardOne(db: Database, a: Artifact, parentId: Id, registered: set<Id>, event: Id -> string): (Database, bool) {
    if !Rewarded(db.artifacts, a, parentId, registered) then (db, true)
    else
      var r := AppendBudgetEvent(
        db, event(parentId), Find(db.artifacts, parentId).value.workerId, REUSE_REWARD, REUSE_REASON, Some(parentId));
      if r.Success? then (r.value, true) else (db, false)
  }

  function RewardAll(db: Database, a: Artifact, parents: seq<Id>, registered: set<Id>, event: Id -> string): (Database, bool) {
    if parents == [] then (db, true)
    else
      var (before, ok) := RewardAll(db, a, parents[..|parents| - 1], registered, event);
      if !ok then (before, false) else RewardOne(before, a, parents[|parents| - 1], registered, event)
  }

  /** The failure itself becomes an artifact, and costs the worker one unit of budget. */
  function RecordFailure(round: Round, w: Id, plan: Plan, rules: Rules): Round {
    var t := plan.ticket(w);
    var reported := AppendArtifact(round.db, CritiqueOf(w, plan.subject, t), rules);
    if reported.Failure? then round.(failed := round.failed + [w], aborted := true)
    else
      var next := round.(db := reported.value, stored := round.stored + [t.critiqueId], failed := round.failed + [w]);
      var paid := AppendBudgetEvent(next.db, t.penaltyEvent, w, FAILURE_PENALTY, FAILURE_REASON, Some(t.critiqueId));
      if paid.Failure? then next.(aborted := true) else next.(db := paid.value)
  }

  /** One completed generation. */
  function Complete(round: Round, w: Id, plan: Plan, rules: Rules): Round {
    var a := plan.generate(w);
    if a.None? || !OutputValid(w, plan.subject, a.value, rules) then RecordFailure(round, w, plan, rules)
    else
      var committed := AppendArtifact(round.db, a.value, rules);
      if committed.Failure? then RecordFailure(round, w, plan, rules)
      else
        var (rewarded, ok) := RewardAll(committed.value, a.value, RewardList(a.value), plan.registered, plan.ticket(w).rewardEvent);
        if ok then round.(db := rewarded, stored := round.stored + [a.value.id])
        else RecordFailure(round.(db := rewarded), w, plan, rules)
  }

  /** The whole round, in the order in which the generations completed. */
  function RunRound(db: Database, order: seq<Id>, plan: Plan, rules: Rules): Round {
    if order == [] then Round(db, [], [], false)
    else
      var before := RunRound(db, order[..|order| - 1], plan, rules);
      if before.aborted then before else Complete(before, order[|order| - 1], plan, rules)
  }

  lemma {:induction false} AbortIsFinal(db: Database, order: seq<Id>, k: nat, plan: Plan, rules: Rules)
    requires k <= |order| && RunRound(db, order[..k], plan, rules).aborted
    ensures RunRound(db, order, plan, rules) == RunRound(db, order[..k], plan, rules)
    decreases |order| - k
  {
    if k < |order| {
      assert order[..k + 1][..k] == order[..k];
      AbortIsFinal(db, order, k + 1, plan, rules);
    } else {
      assert order[..k] == order;
    }
  }

  class SwarmOrchestrator {
    const store: ArtifactStore

    constructor (store: ArtifactStore)
      ensures this.store == store
    {
      this.store := store;
    }

    /** Commits the generations one by one as they complete. */
    method CommitRound(order: seq<Id>, plan: Plan) returns (stored: seq<Id>, failed: seq<Id>, aborted: bool)
      modifies store
      ensures RunRound(old(store.Db()), order, plan, store.rules) == Round(store.Db(), stored, failed, aborted)
    {
      ghost var before := store.Db();
      stored, failed, aborted := [], [], false;
      for i := 0 to |order|
        invariant !aborted && RunRound(before, order[..i], plan, store.rules) == Round(store.Db(), stored, failed, aborted)
      {
        assert order[..i + 1][..i] == order[..i];
        stored, failed, aborted := CommitOne(order[i], plan, stored, failed);
        if aborted {
          AbortIsFinal(before, order, i + 1, plan, store.rules);
          return;
        }
      }
      assert order[..|order|] == order;
    }

    method CommitOne(w: Id, plan: Plan, storedBefore: seq<Id>, failedBefore: seq<Id>)
      returns (stored: seq<Id>, failed: seq<Id>, aborted: bool)
      modifies store
      ensures Complete(Round(old(store.Db()), storedBefore, failedBefore, false), w, plan, store.rules)
              == Round(store.Db(), stored, failed, aborted)
    {
      var a := plan.generate(w);
      if a.Some? && OutputValid(w, plan.subject, a.value, store.rules) {
        var committed := store.AddArtifact(a.value);
        if committed.Success? {
          var ok := RewardDownstreamReuse(a.value, plan.registered, plan.ticket(w).rewardEvent);
          if ok { return storedBefore + [a.value.id], failedBefore, false; }
        }
      }
      stored, failed, aborted := RecordFailed(w, plan, storedBefore, failedBefore);
    }

    method RecordFailed(w: Id, plan: Plan, storedBefore: seq<Id>, failedBefore: seq<Id>)
      returns (stored: seq<Id>, failed: seq<Id>, aborted: bool)
      modifies store
      ensures RecordFailure(Round(old(store.Db()), storedBefore, failedBefore, false), w, plan, store.rules)
              == Round(store.Db(), stored, failed, aborted)
    {
      var t := plan.ticket(w);
      stored, failed := storedBefore, failedBefore + [w];
      var reported := store.AddArtifact(CritiqueOf(w, plan.subject, t));
      if reported.Failure? { return stored, failed, true; }
      stored := stored + [t.critiqueId];
      var paid := store.AddBudgetEvent(t.penaltyEvent, w, FAILURE_PENALTY, FAILURE_REASON, Some(t.critiqueId));
      aborted := paid.Failure?;
    }

    method RewardDownstreamReuse(a: Artifact, registered: set<Id>, event: Id -> string) returns (ok: bool)
      modifies store
      ensures RewardAll(old(store.Db()), a, RewardList(a), registered, event) == (store.Db(), ok)
    {
      ghost var before := store.Db();
      var parents := RewardList(a);
      ok := true;
      for i := 0 to |parents|
        invariant ok && RewardAll(before, a, parents[..i], registered, event) == (store.Db(), true)
      {
        assert parents[..i + 1][..i] == parents[..i];
        if Rewarded(store.artifacts, a, parents[i], registered) {
          var parent := Find(store.artifacts, parents[i]);
          var paid := store.AddBudgetEvent(event(parents[i]), parent.value.workerId, REUSE_REWARD, REUSE_REASON, Some(parents[i]));
          if paid.Failure? {
            RewardStops(before, a, parents, i + 1, registered, event);
            return false;
          }
        }
      }
      assert parents[..|parents|] == parents;
    }
  }

  lemma {:induction false} RewardStops(
    db: Database, a: Artifact, parents: seq<Id>, k: nat, registered: set<Id>, event: Id -> string)
    requires k <= |parents| && !RewardAll(db, a, parents[..k], registered, event).1
    ensures RewardAll(db, a, parents, registered, event) == RewardAll(db, a, parents[..k], registered, event)
    decreases |parents| - k
  {
    if k < |parents| {
      assert parents[..k + 1][..k] == parents[..k];
      RewardStops(db, a, parents, k + 1, registered, event);
    } else {
      assert parents[..k] == parents;
    }
  }
}
