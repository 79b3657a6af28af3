/** What an abort does to the predictions behind it: a prediction that is stuck keeps all later ones waiting. */
module Blockade {
  import opened DueListing
  import opened Evaluation
  import opened EvaluationLaws
  import opened Exceptions
  import opened Lineage
  import opened Lists
  import opened Ordering
  import opened Provenance
  import opened Schema
  import opened Store

  /** Whatever the store holds, settling this prediction aborts the run and leaves the store as it is. */
  ghost predicate Refused(p: Artifact, inputs: Inputs, rules: Rules) {
    forall db: Database :: Settle(db, p, inputs, rules) == (db, Aborted)
  }

  /** Which is so exactly when the prediction is stuck, provided that the report of it would be another artifact than itself. */
  lemma RefusedIffStuck(p: Artifact, inputs: Inputs, rules: Rules)
    requires IsPrediction(p) && IsProbability(p.confidence)
    requires var o := inputs.resolver(p);
             o.Some? ==> ChildOf(p, o.value, inputs).id != p.id
                         && rules.artifactHash(ChildOf(p, o.value, inputs)) != rules.artifactHash(p)
    ensures Refused(p, inputs, rules) <==> Stuck(p, inputs, rules)
  {
    if Stuck(p, inputs, rules) {
      forall db: Database ensures Settle(db, p, inputs, rules) == (db, Aborted) { StuckAborts(db, p, inputs, rules); }
    } else {
      var db := EMPTY.(artifacts := [p]);
      SettledAlone(db, p, inputs, rules);
      assert Settle(db, p, inputs, rules) != (db, Aborted);
    }
  }

  lemma SettledAlone(db: Database, p: Artifact, inputs: Inputs, rules: Rules)
    requires db == EMPTY.(artifacts := [p]) && IsPrediction(p) && IsProbability(p.confidence) && !Stuck(p, inputs, rules)
    requires var o := inputs.resolver(p);
             o.Some? ==> ChildOf(p, o.value, inputs).id != p.id
                         && rules.artifactHash(ChildOf(p, o.value, inputs)) != rules.artifactHash(p)
    ensures Settle(db, p, inputs, rules) != (db, Aborted)
  {
    assert Ids(db.artifacts) == {p.id};
    if o :| inputs.resolver(p) == Some(o) {
      if InWindow(p, o, inputs.now) {
        ScoresAreProbabilities(p, o, inputs.clusterSize(p.id), inputs.drawn(p.id).evaluationId);
        assert Find(db.artifacts, p.id) == Some(p);
        RecordedStays(db, p, o, RecordOf(p, o, inputs), inputs.drawn(p.id), rules);
      } else {
        assert p in db.artifacts;
        ContaminationIsDecided(db, p, inputs, rules);
      }
    }
  }

  lemma RecordedStays(db: Database, p: Artifact, o: Observation, record: EvaluationRecord, drawn: Drawn, rules: Rules)
    requires AppendEvaluation(db, record, rules).Success?
    ensures Score(db, p, o, record, drawn, rules).0.evaluations == db.evaluations + [record]
  {
  }

  /** The due predictions come in the order of the listing. */
  lemma DueIsSorted(db: Database, now: int, listing: Listing)
    requires IsListing(listing)
    ensures SortedBy(listing, DuePredictions(db, now, listing))
  {
    var all := SortedPredictions(db, listing);
    var due := (a: Artifact) => if IsDue(db, a, now) then Some(a) else None;
    FilterKeepsOrder(listing, due, Candidates(db, listing));
  }

  /** A run evaluates nothing but what it settles. */
  lemma {:induction false} SettleAllEvaluates(db: Database, due: seq<Artifact>, inputs: Inputs, rules: Rules, id: Id)
    ensures Evaluated(SettleAll(db, due, inputs, rules).db, id) ==> Evaluated(db, id) || exists x :: x in due && x.id == id
  {
    if due != [] {
      var init, p := due[..|due| - 1], due[|due| - 1];
      SettleAllEvaluates(db, init, inputs, rules, id);
      SettlementEvaluates(SettleAll(db, init, inputs, rules).db, p, inputs, rules, id);
      assert p in due && forall x :: x in init ==> x in due;
    }
  }

  /** A run ends at the latest where it comes to a prediction that is stuck. */
  lemma RunEndsAt(db: Database, due: seq<Artifact>, k: nat, inputs: Inputs, rules: Rules)
    requires k < |due| && Stuck(due[k], inputs, rules)
    ensures SettleAll(db, due, inputs, rules).aborted
    ensures SettleAll(db, due, inputs, rules).db == SettleAll(db, due[..k], inputs, rules).db
  {
    var before := SettleAll(db, due[..k], inputs, rules);
    if before.aborted {
      AbortIsFinal(db, due, k, inputs, rules);
    } else {
      SettleAllOneMore(db, due, k, inputs, rules);
      StuckAborts(before.db, due[k], inputs, rules);
      AbortIsFinal(db, due, k + 1, inputs, rules);
    }
  }

  /** The first prediction stands before the second. */
  ghost predicate StandsBefore(listing: Listing, p: Artifact, q: Artifact) {
    p.id != q.id && listing(p, q)
  }

  lemma RanksFollowOrder(db: Database, listing: Listing, p: Artifact, q: Artifact)
    requires IsListing(listing) && StandsBefore(listing, p, q) && LineageKept(db) && q in db.artifacts
    ensures Rank(db, listing, p) <= Rank(db, listing, q)
  {
    forall x | x in Predictions(db) ensures Precedes(listing, p)(x) ==> Precedes(listing, q)(x) {
      PredictionsAreStored(db, x);
      PrecedesBoth(db, listing, x, p, q);
    }
    CountLess(Precedes(listing, p), Precedes(listing, q), Predictions(db));
  }

  lemma PrecedesBoth(db: Database, listing: Listing, x: Artifact, p: Artifact, q: Artifact)
    requires IsListing(listing) && StandsBefore(listing, p, q) && LineageKept(db) && x in db.artifacts && q in db.artifacts
    ensures Precedes(listing, p)(x) ==> Precedes(listing, q)(x)
  {
    if Precedes(listing, p)(x) {
      assert listing(x, q);
      if x.id == q.id {
        OneArtifactPerId(db.artifacts, x, q);
        OneComesFirst(listing, p, q);
      }
    }
  }

  lemma {:induction false} CountLess<T>(f: T -> bool, g: T -> bool, s: seq<T>)
    requires forall x :: x in s && f(x) ==> g(x)
    ensures CountIf(f, s) <= CountIf(g, s)
  {
    if s != [] { CountLess(f, g, s[..|s| - 1]); }
  }

  /** Both predictions wait, the first in front of the second. */
  ghost predicate Waiting(db: Database, listing: Listing, p: Artifact, q: Artifact) {
    && LineageKept(db) && StandsBefore(listing, p, q)
    && p in db.artifacts && q in db.artifacts && IsPrediction(p)
    && p.prediction.Some? && p.status !in {INVALIDATED, REJECTED, FAILED}
    && !Evaluated(db, p.id) && !Evaluated(db, q.id)
  }

  /** The settlements of one evaluation run leave both waiting, whoever else they evaluate. */
  lemma SettlementsLeaveWaiting(db: Database, inputs: Inputs, rules: Rules, listing: Listing, p: Artifact, q: Artifact)
    requires IsListing(listing) && Waiting(db, listing, p, q)
    requires p.prediction.value.evaluationAt <= inputs.now && Stuck(p, inputs, rules)
    ensures var after := SettleAll(db, DuePredictions(db, inputs.now, listing), inputs, rules).db;
            !Evaluated(after, p.id) && !Evaluated(after, q.id)
  {
    var due := DuePredictions(db, inputs.now, listing);
    if p in due {
      var k := FirstPlace(due, p);
      RunEndsAt(db, due, k, inputs, rules);
      SettleAllEvaluates(db, due[..k], inputs, rules, p.id);
      SettleAllEvaluates(db, due[..k], inputs, rules, q.id);
      forall x | x in due[..k] ensures x.id != p.id && x.id != q.id { EarlierIsNeither(db, inputs.now, listing, p, q, k, x); }
    } else {
      NeitherIsDue(db, inputs.now, listing, p, q);
      SettleAllEvaluates(db, due, inputs, rules, p.id);
      SettleAllEvaluates(db, due, inputs, rules, q.id);
    }
  }

  lemma EarlierIsNeither(db: Database, now: int, listing: Listing, p: Artifact, q: Artifact, k: nat, x: Artifact)
    requires IsListing(listing) && Waiting(db, listing, p, q)
    requires var due := DuePredictions(db, now, listing);
             k < |due| && due[k] == p && x in due[..k] && forall j :: 0 <= j < k ==> due[j] != p
    ensures x.id != p.id && x.id != q.id
  {
    var due := DuePredictions(db, now, listing);
    DueIsSorted(db, now, listing);
    var j :| 0 <= j < k && due[j] == x;
    assert listing(x, p);
    DueArePending(db, now, listing, x);
    if x.id == p.id { OneArtifactPerId(db.artifacts, x, p); }
    if x.id == q.id {
      OneArtifactPerId(db.artifacts, x, q);
      OneComesFirst(listing, p, q);
    }
  }

  lemma NeitherIsDue(db: Database, now: int, listing: Listing, p: Artifact, q: Artifact)
    requires IsListing(listing) && Waiting(db, listing, p, q) && p.prediction.value.evaluationAt <= now
    requires p !in DuePredictions(db, now, listing)
    ensures forall x :: x in DuePredictions(db, now, listing) ==> x.id != p.id && x.id != q.id
  {
    DueIffPendingAndRanked(db, now, listing, p);
    DueIffPendingAndRanked(db, now, listing, q);
    RanksFollowOrder(db, listing, p, q);
    forall x | x in DuePredictions(db, now, listing) ensures x.id != p.id && x.id != q.id {
      DueArePending(db, now, listing, x);
      if x.id == p.id { OneArtifactPerId(db.artifacts, x, p); }
      if x.id == q.id { OneArtifactPerId(db.artifacts, x, q); }
    }
  }

  /** Every evaluation run of the history uses this listing, comes after maturity and finds the prediction stuck. */
  ghost predicate AlwaysStuck(steps: seq<Step>, rules: Rules, listing: Listing, p: Artifact) {
    forall i {:trigger steps[i]} :: 0 <= i < |steps| && steps[i].EvaluateDue? ==>
      && steps[i].listing == listing && p.prediction.Some? && p.prediction.value.evaluationAt <= steps[i].inputs.now
      && Stuck(p, steps[i].inputs, rules)
  }

  lemma ClientLeavesWaiting(db: Database, t: Transaction, rules: Rules, listing: Listing, p: Artifact, q: Artifact)
    requires Waiting(db, listing, p, q) && !t.Evaluating?
    ensures Waiting(Apply(db, t, rules), listing, p, q)
  {
    ApplyKeepsLineage(db, t, rules);
    assert Apply(db, t, rules).evaluations == db.evaluations && db.artifacts <= Apply(db, t, rules).artifacts;
  }

  lemma {:induction false} SettleAllKeepsLineage(db: Database, due: seq<Artifact>, inputs: Inputs, rules: Rules)
    requires LineageKept(db)
    ensures LineageKept(SettleAll(db, due, inputs, rules).db)
  {
    if due != [] {
      SettleAllKeepsLineage(db, due[..|due| - 1], inputs, rules);
      SettlementKeepsLineage(SettleAll(db, due[..|due| - 1], inputs, rules).db, due[|due| - 1], inputs, rules);
    }
  }

  lemma StepLeavesWaiting(w: World, step: Step, rules: Rules, listing: Listing, p: Artifact, q: Artifact)
    requires IsListing(listing) && Waiting(w.db, listing, p, q) && Admissible(w, step) && AlwaysStuck([step], rules, listing, p)
    ensures Waiting(Next(w, step, rules).db, listing, p, q)
  {
    match step
    case Client(t) => ClientLeavesWaiting(w.db, t, rules, listing, p, q);
    case EvaluateDue(inputs, _) =>
      assert [step][0] == step;
      if AllParse(Candidates(w.db, listing), inputs.normalize) {
        SettlementsLeaveWaiting(w.db, inputs, rules, listing, p, q);
        SettleAllKeepsLineage(w.db, DuePredictions(w.db, inputs.now, listing), inputs, rules);
        SettleAllOnlyAppends(w.db, DuePredictions(w.db, inputs.now, listing), inputs, rules);
      }
  }

  /**
   * A mature prediction that every run finds stuck keeps each prediction that stands behind it in the listing from ever
   * being evaluated, over any history of runs and clients.
   */
  lemma {:induction false} StuckBlocksTheRest(
    start: World, steps: seq<Step>, rules: Rules, listing: Listing, p: Artifact, q: Artifact)
    requires IsListing(listing) && Waiting(start.db, listing, p, q)
    requires AllAdmissible(start, steps, rules) && AlwaysStuck(steps, rules, listing, p)
    ensures Waiting(RunFrom(start, steps, rules).db, listing, p, q)
  {
    if steps != [] {
      var init, last := steps[..|steps| - 1], steps[|steps| - 1];
      assert AlwaysStuck(init, rules, listing, p) by {
        assert forall i :: 0 <= i < |init| ==> init[i] == steps[i];
      }
      StuckBlocksTheRest(start, init, rules, listing, p, q);
      StepLeavesWaiting(RunFrom(start, init, rules), last, rules, listing, p, q);
    }
  }

  /** Two stored predictions: the metadata of the first cannot be read. */
  const UNREADABLE := SAMPLE.(id := "b", inferenceCost := None)
  const BEHIND := SAMPLE.(id := "g")

  const SETTLED_IN_TIME := Inputs(
    1, (a: Artifact) => Some(Observation(true, 1.0, UP, 1, ["source"], None)), (id: Id) => Drawn("e", "o", "v", ""), (id: Id) => 1,
    (ref: string) => Some(ref))

  lemma BothAreStored(p: Artifact, q: Artifact)
    requires p.id != q.id && Refusal(p, LENIENT).None? && Refusal(q, LENIENT).None? && p.Lineage() == [] && q.Lineage() == []
    ensures var db := Run([Appending(p), Appending(q)], LENIENT); db.artifacts == [p, q] && db.evaluations == []
  {
    var ts := [Appending(p), Appending(q)];
    assert ts[..1] == [Appending(p)] && ts[..1][..0] == [];
    assert Run(ts[..1], LENIENT) == Apply(EMPTY, Appending(p), LENIENT);
    assert AppendArtifact(EMPTY, p, LENIENT).Success?;
    assert Run(ts[..1], LENIENT).artifacts == [p];
    assert Ids([p]) == {p.id};
  }

  ghost predicate Repeats(steps: seq<Step>, step: Step) {
    forall i :: 0 <= i < |steps| ==> steps[i] == step
  }

  lemma {:induction false} RepeatedIsAdmissible(start: World, steps: seq<Step>, step: Step, rules: Rules)
    requires step.EvaluateDue? && start.clock <= step.inputs.now && Repeats(steps, step)
    ensures AllAdmissible(start, steps, rules) && RunFrom(start, steps, rules).clock <= step.inputs.now
  {
    if steps != [] { RepeatedIsAdmissible(start, steps[..|steps| - 1], step, rules); }
  }

  lemma RepeatedRunsBlock(start: World, steps: seq<Step>, inputs: Inputs, rules: Rules, listing: Listing, p: Artifact, q: Artifact)
    requires IsListing(listing) && Waiting(start.db, listing, p, q) && start.clock <= inputs.now
    requires p.prediction.value.evaluationAt <= inputs.now && Stuck(p, inputs, rules) && Repeats(steps, EvaluateDue(inputs, listing))
    ensures Waiting(RunFrom(start, steps, rules).db, listing, p, q)
  {
    RepeatedIsAdmissible(start, steps, EvaluateDue(inputs, listing), rules);
    StuckBlocksTheRest(start, steps, rules, listing, p, q);
  }

  lemma BothWait(db: Database)
    requires LineageKept(db) && db.artifacts == [UNREADABLE, BEHIND] && db.evaluations == []
    ensures Waiting(db, BY_AGE, UNREADABLE, BEHIND)
  {
    assert db.artifacts[0] == UNREADABLE && db.artifacts[1] == BEHIND;
    assert UNREADABLE.id[0] == 'b' && BEHIND.id[0] == 'g';
  }

  lemma FirstIsStuck()
    ensures Stuck(UNREADABLE, SETTLED_IN_TIME, LENIENT) && Fit(BEHIND, SETTLED_IN_TIME, LENIENT)
  {
  }

  /** However often the run is repeated, the prediction behind the unreadable one waits, though nothing is wrong with it. */
  lemma UnreadableBlocksTheNext(steps: seq<Step>)
    requires Repeats(steps, EvaluateDue(SETTLED_IN_TIME, BY_AGE))
    ensures var start := World(Run([Appending(UNREADABLE), Appending(BEHIND)], LENIENT), 1, true, {});
            && Fit(BEHIND, SETTLED_IN_TIME, LENIENT)
            && IsPending(RunFrom(start, steps, LENIENT).db, BEHIND, 1)
  {
    var start := World(Run([Appending(UNREADABLE), Appending(BEHIND)], LENIENT), 1, true, {});
    BothAreStored(UNREADABLE, BEHIND);
    RunKeepsLineage([Appending(UNREADABLE), Appending(BEHIND)], LENIENT);
    ByAgeIsListing();
    BothWait(start.db);
    FirstIsStuck();
    RepeatedRunsBlock(start, steps, SETTLED_IN_TIME, LENIENT, BY_AGE, UNREADABLE, BEHIND);
  }

  /** Every run of the history lists the prediction, and does not get a reference of it to parse. */
  ghost predicate AlwaysUnparsable(start: World, steps: seq<Step>, rules: Rules, p: Artifact) {
    forall i {:trigger steps[i]} :: 0 <= i < |steps| ==> ListedUnparsable(RunFrom(start, steps[..i], rules).db, steps[i], p)
  }

  ghost predicate ListedUnparsable(db: Database, step: Step, p: Artifact) {
    step.EvaluateDue? ==>
      IsListing(step.listing) && !Parses(p, step.inputs.normalize) && Rank(db, step.listing, p) < LISTING_LIMIT
  }

  /** What the other clients alone would have done. */
  function Transacted(db: Database, steps: seq<Step>, rules: Rules): Database {
    if steps == [] then db
    else
      var before := Transacted(db, steps[..|steps| - 1], rules);
      match steps[|steps| - 1]
      case Client(t) => Apply(before, t, rules)
      case EvaluateDue(_, _) => before
  }

  lemma UnparsableStopsTheRun(w: World, step: Step, rules: Rules, p: Artifact)
    requires LineageKept(w.db) && p in w.db.artifacts && IsPrediction(p) && ListedUnparsable(w.db, step, p)
    ensures LineageKept(Next(w, step, rules).db) && w.db.artifacts <= Next(w, step, rules).db.artifacts
    ensures Next(w, step, rules).db == if step.Client? then Apply(w.db, step.t, rules) else w.db
  {
    match step
    case Client(t) => ApplyKeepsLineage(w.db, t, rules);
    case EvaluateDue(inputs, listing) => ClusteringRaisesIff(w.db, listing, inputs.normalize);
  }

  /**
   * As long as a prediction with a reference that does not parse stands among the first 10000, whether it is due, mature,
   * evaluated or none of them, no run settles anything: whatever changes is the work of other clients.
   */
  lemma {:induction false} UnparsableStopsEveryRun(start: World, steps: seq<Step>, rules: Rules, p: Artifact)
    requires LineageKept(start.db) && p in start.db.artifacts && IsPrediction(p) && AlwaysUnparsable(start, steps, rules, p)
    ensures RunFrom(start, steps, rules).db == Transacted(start.db, steps, rules)
    ensures LineageKept(RunFrom(start, steps, rules).db) && p in RunFrom(start, steps, rules).db.artifacts
  {
    if steps != [] {
      var last := |steps| - 1;
      assert AlwaysUnparsable(start, steps[..last], rules, p) by {
        forall i {:trigger steps[..last][i]} | 0 <= i < last
          ensures ListedUnparsable(RunFrom(start, steps[..last][..i], rules).db, steps[..last][i], p)
        {
          assert steps[..last][..i] == steps[..i] && steps[..last][i] == steps[i];
        }
      }
      UnparsableStopsEveryRun(start, steps[..last], rules, p);
      assert ListedUnparsable(RunFrom(start, steps[..last], rules).db, steps[last], p);
      UnparsableStopsTheRun(RunFrom(start, steps[..last], rules), steps[last], rules, p);
    }
  }

  /** One reference that is no URL, in an artifact that passes validation. */
  const UNPARSABLE := SAMPLE.(id := "b", sourceRefs := ["http://["])

  const RAISING := SETTLED_IN_TIME.(normalize := (ref: string) => if ref == "http://[" then None else Some(ref))

  lemma DoesNotParse()
    ensures !Parses(UNPARSABLE, RAISING.normalize)
  {
    var ref := "http://[";
    assert UNPARSABLE.sourceRefs[0] == ref && ref in UNPARSABLE.sourceRefs && RAISING.normalize(ref).None?;
  }

  lemma TwoAreListed(db: Database, p: Artifact, q: Artifact)
    requires db.artifacts == [p, q] && IsPrediction(p) && IsPrediction(q)
    ensures p in db.artifacts && q in db.artifacts && Rank(db, BY_AGE, p) < LISTING_LIMIT
  {
    assert db.artifacts[0] == p && db.artifacts[1] == q;
    AllPredictions(db.artifacts);
    RankBelowSize(db, BY_AGE, p);
  }

  lemma {:induction false} RepeatedRunsStop(start: World, steps: seq<Step>, step: Step, rules: Rules, p: Artifact)
    requires LineageKept(start.db) && p in start.db.artifacts && IsPrediction(p)
    requires step.EvaluateDue? && ListedUnparsable(start.db, step, p) && Repeats(steps, step)
    ensures RunFrom(start, steps, rules).db == start.db
  {
    if steps != [] {
      RepeatedRunsStop(start, steps[..|steps| - 1], step, rules, p);
      UnparsableStopsTheRun(RunFrom(start, steps[..|steps| - 1], rules), step, rules, p);
    }
  }

  /** However often the run is repeated, it leaves the store as it is, though nothing is wrong with the other prediction. */
  lemma BadReferenceStopsAll(steps: seq<Step>)
    requires Repeats(steps, EvaluateDue(RAISING, BY_AGE))
    ensures var start := World(Run([Appending(UNPARSABLE), Appending(BEHIND)], LENIENT), 1, true, {});
            && Fit(BEHIND, RAISING, LENIENT) && IsPending(start.db, BEHIND, 1)
            && RunFrom(start, steps, LENIENT).db == start.db
  {
    var start := World(Run([Appending(UNPARSABLE), Appending(BEHIND)], LENIENT), 1, true, {});
    BothAreStored(UNPARSABLE, BEHIND);
    RunKeepsLineage([Appending(UNPARSABLE), Appending(BEHIND)], LENIENT);
    TwoAreListed(start.db, UNPARSABLE, BEHIND);
    DoesNotParse();
    ByAgeIsListing();
    RepeatedRunsStop(start, steps, EvaluateDue(RAISING, BY_AGE), LENIENT, UNPARSABLE);
  }
}
