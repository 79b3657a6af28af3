/** When an evaluation run raises, told from what it is given, and what it has evaluated by then. */
module Exceptions {
  import opened DueListing
  import opened Evaluation
  import opened EvaluationLaws
  import opened Lineage
  import opened Lists
  import opened Ordering
  import opened Provenance
  import opened Schema
  import opened Store

  function RecordOf(p: Artifact, o: Observation, inputs: Inputs): EvaluationRecord {
    RecordFor(p, o, inputs.clusterSize(p.id), inputs.drawn(p.id).evaluationId)
  }

  /** The artifact that reports the settlement. */
  function ChildOf(p: Artifact, o: Observation, inputs: Inputs): Artifact {
    if InWindow(p, o, inputs.now) then OutcomeFor(p, o, inputs.drawn(p.id)) else AnomalyFor(p, o, inputs.drawn(p.id), inputs.now)
  }

  /** There is no settlement, or one that passes every check: of observation, metadata, record and reporting artifact. */
  predicate Fit(p: Artifact, inputs: Inputs, rules: Rules) {
    match inputs.resolver(p)
    case None => true
    case Some(o) =>
      && ObservationValid(o) && rules.artifactOk(ChildOf(p, o, inputs))
      && (InWindow(p, o, inputs.now) ==> Readable(p) && rules.recordOk(RecordOf(p, o, inputs)))
  }

  /** The settlement fails a check before anything is written. */
  predicate Stuck(p: Artifact, inputs: Inputs, rules: Rules) {
    match inputs.resolver(p)
    case None => false
    case Some(o) =>
      || !ObservationValid(o)
      || if InWindow(p, o, inputs.now) then !Readable(p) || !rules.recordOk(RecordOf(p, o, inputs))
         else !rules.artifactOk(ChildOf(p, o, inputs))
  }

  /** The settlement is recorded, whether or not its outcome can be stored. */
  predicate Recordable(p: Artifact, inputs: Inputs, rules: Rules) {
    match inputs.resolver(p)
    case None => false
    case Some(o) => InWindow(p, o, inputs.now) && !Stuck(p, inputs, rules)
  }

  /** What the database holds rules out none of the identifiers drawn for this prediction. */
  ghost predicate FreshFor(db: Database, p: Artifact, inputs: Inputs, rules: Rules) {
    match inputs.resolver(p)
    case None => true
    case Some(o) =>
      var child := ChildOf(p, o, inputs);
      && child.id !in Ids(db.artifacts) && !HashTaken(db.artifacts, rules.artifactHash(child), rules)
      && (InWindow(p, o, inputs.now) ==>
            !RecordTaken(db, RecordOf(p, o, inputs), rules) && !EventTaken(db.events, inputs.drawn(p.id).eventId))
  }

  ghost predicate Settleable(db: Database, p: Artifact, inputs: Inputs, rules: Rules) {
    && p in db.artifacts && IsPrediction(p) && IsProbability(p.confidence) && !Evaluated(db, p.id)
    && FreshFor(db, p, inputs, rules)
  }

  lemma StuckAborts(db: Database, p: Artifact, inputs: Inputs, rules: Rules)
    requires Stuck(p, inputs, rules)
    ensures Settle(db, p, inputs, rules) == (db, Aborted)
  {
  }

  lemma ContaminationIsDecided(db: Database, p: Artifact, inputs: Inputs, rules: Rules)
    requires Settleable(db, p, inputs, rules) && inputs.resolver(p).Some?
    requires var o := inputs.resolver(p).value; ObservationValid(o) && !InWindow(p, o, inputs.now)
    ensures var (next, ending) := Settle(db, p, inputs, rules);
            && next.evaluations == db.evaluations
            && ending == if Stuck(p, inputs, rules) then Aborted else Contaminated
  {
    var anomaly := ChildOf(p, inputs.resolver(p).value, inputs);
    assert anomaly.Lineage() == [p.id];
    assert p.id in Ids(db.artifacts);
    assert Parents(anomaly) == {p.id};
  }

  /**
   * The settlement of a stored prediction raises exactly when it is unfit, and then it has changed nothing exactly when the
   * prediction is stuck. It is recorded exactly when it is recordable.
   */
  lemma SettlementAbortsIffUnfit(db: Database, p: Artifact, inputs: Inputs, rules: Rules)
    requires LineageKept(db) && Settleable(db, p, inputs, rules)
    ensures var (next, ending) := Settle(db, p, inputs, rules);
            && (ending == Aborted <==> !Fit(p, inputs, rules))
            && ((next, ending) == (db, Aborted) <==> Stuck(p, inputs, rules))
            && next.evaluations == db.evaluations + Entries([p], inputs, rules)
            && (ending.Scored? <==> Recordable(p, inputs, rules) && Fit(p, inputs, rules))
            && (ending.Scored? ==> Entries([p], inputs, rules) == [ending.record])
  {
    FilterMapOne(Entry(inputs, rules), p);
    var observation := inputs.resolver(p);
    if observation.Some? && ObservationValid(observation.value) {
      if InWindow(p, observation.value, inputs.now) {
        ScoringCompletesIff(db, p, inputs, rules);
      } else {
        ContaminationIsDecided(db, p, inputs, rules);
      }
    }
  }

  const BLANK_TOO_EARLY := BLANK_SETTLEMENT.(resolver := (a: Artifact) => Some(Observation(true, 1.0, UP, 0, [" "], None)))

  /** A settlement from outside the window that is valid but for a blank source reference. */
  lemma BlankAnomalyIsStuck()
    ensures var o := BLANK_TOO_EARLY.resolver(SAMPLE).value;
            && ObservationValid(o) && !InWindow(SAMPLE, o, BLANK_TOO_EARLY.now) && Readable(SAMPLE)
            && Stuck(SAMPLE, BLANK_TOO_EARLY, BLANK_REFUSED)
  {
    var o := BLANK_TOO_EARLY.resolver(SAMPLE).value;
    assert ChildOf(SAMPLE, o, BLANK_TOO_EARLY).sourceRefs == [" "];
    assert Blank(" ");
  }

  /** An unfit prediction that is not stuck raises once: it is recorded by then, and never due again. */
  lemma UnfitRaisesOnceUnlessStuck(db: Database, p: Artifact, inputs: Inputs, rules: Rules, later: int, listing: Listing)
    requires LineageKept(db) && Settleable(db, p, inputs, rules) && !Fit(p, inputs, rules) && !Stuck(p, inputs, rules)
    ensures p !in DuePredictions(Settle(db, p, inputs, rules).0, later, listing)
  {
    var next := Settle(db, p, inputs, rules).0;
    SettlementAbortsIffUnfit(db, p, inputs, rules);
    EntriesOfOne(p, inputs, rules);
    RecordedIffEvaluated(db, Entries([p], inputs, rules), next, p.id);
    var record := RecordOf(p, inputs.resolver(p).value, inputs);
    assert record in [record];
    ScoredIsNeverDueAgain(next, later, listing, p);
  }

  function Entry(inputs: Inputs, rules: Rules): Artifact -> Option<EvaluationRecord> {
    (p: Artifact) => if Recordable(p, inputs, rules) then Some(RecordOf(p, inputs.resolver(p).value, inputs)) else None
  }

  /** The records of the recordable among these predictions, in their order. */
  function Entries(ps: seq<Artifact>, inputs: Inputs, rules: Rules): seq<EvaluationRecord> {
    FilterMap(Entry(inputs, rules), ps)
  }

  /** The identifiers drawn for two predictions, and the digests of what they name, differ. */
  ghost predicate Apart(p: Artifact, q: Artifact, inputs: Inputs, rules: Rules) {
    match (inputs.resolver(p), inputs.resolver(q))
    case (Some(o), Some(u)) =>
      var a, b, r, s := ChildOf(p, o, inputs), ChildOf(q, u, inputs), RecordOf(p, o, inputs), RecordOf(q, u, inputs);
      && a.id != b.id && rules.artifactHash(a) != rules.artifactHash(b)
      && r.id != s.id && rules.recordHash(r) != rules.recordHash(s)
      && inputs.drawn(p.id).eventId != inputs.drawn(q.id).eventId
    case _ => true
  }

  /** A settlement adds at most its record, its report and its payment. */
  lemma SettlementAdds(db: Database, p: Artifact, o: Observation, inputs: Inputs, rules: Rules)
    requires inputs.resolver(p) == Some(o)
    ensures var next := Settle(db, p, inputs, rules).0;
            && (forall a :: a in next.artifacts ==> a in db.artifacts || a == ChildOf(p, o, inputs))
            && (forall r :: r in next.evaluations ==> r in db.evaluations || r == RecordOf(p, o, inputs))
            && (forall e :: e in next.events ==> e in db.events || e.id == inputs.drawn(p.id).eventId)
  {
    if ObservationValid(o) && InWindow(p, o, inputs.now) && Readable(p) {
      ScoringAdds(db, p, o, RecordOf(p, o, inputs), inputs.drawn(p.id), rules);
    }
  }

  lemma ScoringAdds(db: Database, p: Artifact, o: Observation, record: EvaluationRecord, drawn: Drawn, rules: Rules)
    ensures var next := Score(db, p, o, record, drawn, rules).0;
            && (forall a :: a in next.artifacts ==> a in db.artifacts || a == OutcomeFor(p, o, drawn))
            && (forall r :: r in next.evaluations ==> r in db.evaluations || r == record)
            && (forall e :: e in next.events ==> e in db.events || e.id == drawn.eventId)
  {
  }

  lemma SettlementEvaluates(db: Database, p: Artifact, inputs: Inputs, rules: Rules, id: Id)
    ensures Evaluated(Settle(db, p, inputs, rules).0, id) ==> Evaluated(db, id) || id == p.id
  {
    if inputs.resolver(p).Some? { SettlementAdds(db, p, inputs.resolver(p).value, inputs, rules); }
  }

  lemma SettlementKeepsLineage(db: Database, p: Artifact, inputs: Inputs, rules: Rules)
    requires LineageKept(db)
    ensures LineageKept(Settle(db, p, inputs, rules).0)
  {
    var observation := inputs.resolver(p);
    if observation.Some? && ObservationValid(observation.value) {
      var o, drawn := observation.value, inputs.drawn(p.id);
      if !InWindow(p, o, inputs.now) {
        ApplyKeepsLineage(db, Appending(AnomalyFor(p, o, drawn, inputs.now)), rules);
      } else if Readable(p) {
        ScoringKeepsLineage(db, p, o, RecordOf(p, o, inputs), drawn, rules);
      }
    }
  }

  lemma ScoringKeepsLineage(db: Database, p: Artifact, o: Observation, record: EvaluationRecord, drawn: Drawn, rules: Rules)
    requires LineageKept(db)
    ensures LineageKept(Score(db, p, o, record, drawn, rules).0)
  {
    ApplyKeepsLineage(Apply(db, Evaluating(record), rules), Appending(OutcomeFor(p, o, drawn)), rules);
  }

  /** Settling one prediction leaves another as settleable as it was. */
  lemma OthersStaySettleable(db: Database, q: Artifact, p: Artifact, inputs: Inputs, rules: Rules)
    requires Settleable(db, p, inputs, rules) && p.id != q.id && Apart(p, q, inputs, rules)
    ensures Settleable(Settle(db, q, inputs, rules).0, p, inputs, rules)
  {
    var u := inputs.resolver(q);
    if u.Some? {
      var next := Settle(db, q, inputs, rules).0;
      SettlementAdds(db, q, u.value, inputs, rules);
      SettleOnlyAppends(db, q, inputs, rules);
      assert p in next.artifacts;
      if o :| inputs.resolver(p) == Some(o) { FreshnessStays(db, next, q, u.value, p, o, inputs, rules); }
    }
  }

  lemma FreshnessStays(
    db: Database, next: Database, q: Artifact, u: Observation, p: Artifact, o: Observation, inputs: Inputs, rules: Rules)
    requires inputs.resolver(p) == Some(o) && inputs.resolver(q) == Some(u) && Apart(p, q, inputs, rules)
    requires FreshFor(db, p, inputs, rules)
    requires forall a :: a in next.artifacts ==> a in db.artifacts || a == ChildOf(q, u, inputs)
    requires forall r :: r in next.evaluations ==> r in db.evaluations || r == RecordOf(q, u, inputs)
    requires forall e :: e in next.events ==> e in db.events || e.id == inputs.drawn(q.id).eventId
    ensures FreshFor(next, p, inputs, rules)
  {
  }

  /** The due predictions, and what is drawn for each, can be told apart and are settleable. */
  ghost predicate Prepared(db: Database, due: seq<Artifact>, inputs: Inputs, rules: Rules) {
    && LineageKept(db)
    && (forall p :: p in due ==> Settleable(db, p, inputs, rules))
    && (forall i, j :: 0 <= i < j < |due| ==> due[i].id != due[j].id && Apart(due[j], due[i], inputs, rules))
  }

  /** What the run has done after `k` predictions that did not raise. */
  ghost predicate Underway(report: Report, db: Database, due: seq<Artifact>, k: nat, inputs: Inputs, rules: Rules)
    requires k <= |due|
  {
    && !report.aborted && LineageKept(report.db)
    && report.db.evaluations == db.evaluations + Entries(due[..k], inputs, rules)
    && report.records == Entries(due[..k], inputs, rules)
    && forall j :: k <= j < |due| ==> Settleable(report.db, due[j], inputs, rules)
  }

  function Extended(report: Report, p: Artifact, inputs: Inputs, rules: Rules): Report {
    var (after, ending) := Settle(report.db, p, inputs, rules);
    Report(after, if ending.Scored? then report.records + [ending.record] else report.records, ending.Aborted?)
  }

  lemma OthersBehindStaySettleable(db: Database, due: seq<Artifact>, k: nat, before: Database, inputs: Inputs, rules: Rules)
    requires Prepared(db, due, inputs, rules) && k < |due|
    requires forall j :: k <= j < |due| ==> Settleable(before, due[j], inputs, rules)
    ensures var next := Settle(before, due[k], inputs, rules).0;
            forall j :: k + 1 <= j < |due| ==> Settleable(next, due[j], inputs, rules)
  {
    var next := Settle(before, due[k], inputs, rules).0;
    forall j | k + 1 <= j < |due| ensures Settleable(next, due[j], inputs, rules) {
      OthersStaySettleable(before, due[k], due[j], inputs, rules);
    }
  }

  lemma NextFitIsSettled(report: Report, db: Database, due: seq<Artifact>, k: nat, inputs: Inputs, rules: Rules)
    requires Prepared(db, due, inputs, rules) && k < |due| && Fit(due[k], inputs, rules)
    requires Underway(report, db, due, k, inputs, rules)
    ensures Underway(Extended(report, due[k], inputs, rules), db, due, k + 1, inputs, rules)
  {
    var p := due[k];
    SettlementAbortsIffUnfit(report.db, p, inputs, rules);
    SettlementKeepsLineage(report.db, p, inputs, rules);
    EntriesOneMore(due, k, inputs, rules);
    EntriesOfOne(p, inputs, rules);
    OthersBehindStaySettleable(db, due, k, report.db, inputs, rules);
  }

  lemma EntriesOfOne(p: Artifact, inputs: Inputs, rules: Rules)
    ensures Entries([p], inputs, rules) == match Entry(inputs, rules)(p) { case Some(r) => [r] case None => [] }
  {
    FilterMapOne(Entry(inputs, rules), p);
  }

  /** As long as the predictions are fit the run goes on, and it leaves the rest settleable. */
  lemma {:induction false} FitPredictionsAreSettled(db: Database, due: seq<Artifact>, k: nat, inputs: Inputs, rules: Rules)
    requires Prepared(db, due, inputs, rules) && k <= |due| && forall i :: 0 <= i < k ==> Fit(due[i], inputs, rules)
    ensures Underway(SettleAll(db, due[..k], inputs, rules), db, due, k, inputs, rules)
  {
    if k == 0 {
      assert Entries([], inputs, rules) == [];
      assert forall j :: 0 <= j < |due| ==> due[j] in due;
    } else {
      FitPredictionsAreSettled(db, due, k - 1, inputs, rules);
      SettleAllOneMore(db, due, k - 1, inputs, rules);
      NextFitIsSettled(SettleAll(db, due[..k - 1], inputs, rules), db, due, k - 1, inputs, rules);
    }
  }

  lemma EntriesOneMore(due: seq<Artifact>, k: nat, inputs: Inputs, rules: Rules)
    requires k < |due|
    ensures Entries(due[..k + 1], inputs, rules) == Entries(due[..k], inputs, rules) + Entries([due[k]], inputs, rules)
  {
    assert due[..k + 1] == due[..k] + [due[k]];
    FilterMapConcat(Entry(inputs, rules), due[..k], [due[k]]);
  }

  lemma RecordedIffEvaluated(db: Database, found: seq<EvaluationRecord>, next: Database, id: Id)
    requires next.evaluations == db.evaluations + found && !Evaluated(db, id)
    ensures Evaluated(next, id) <==> exists r :: r in found && r.predictionId == id
  {
    if r :| r in found && r.predictionId == id { assert r in next.evaluations; }
  }

  /** A prediction has an entry when it stands in the list and is recordable. */
  lemma EntriesAreOfRecordable(due: seq<Artifact>, k: nat, j: nat, inputs: Inputs, rules: Rules)
    requires k <= |due| && j < |due| && forall i, l :: 0 <= i < l < |due| ==> due[i].id != due[l].id
    ensures (exists r :: r in Entries(due[..k], inputs, rules) && r.predictionId == due[j].id)
            <==> j < k && Recordable(due[j], inputs, rules)
  {
    var entry := Entry(inputs, rules);
    FilterMapMembers(entry, due[..k]);
    if r :| r in Entries(due[..k], inputs, rules) && r.predictionId == due[j].id {
      var p :| p in due[..k] && entry(p) == Some(r);
      assert p.id == due[j].id;
    }
    if j < k && Recordable(due[j], inputs, rules) {
      assert due[j] in due[..k] && entry(due[j]).Some?;
      assert entry(due[j]).value.predictionId == due[j].id;
    }
  }

  /**
   * A run over settleable predictions raises exactly when one of them is unfit. Exactly the recordable predictions up to and
   * including the first unfit one are evaluated by then.
   */
  lemma RunEvaluatesUpToFirstUnfit(db: Database, due: seq<Artifact>, k: nat, inputs: Inputs, rules: Rules)
    requires Prepared(db, due, inputs, rules) && k <= |due| && forall i :: 0 <= i < k ==> Fit(due[i], inputs, rules)
    requires k < |due| ==> !Fit(due[k], inputs, rules)
    ensures var report := SettleAll(db, due, inputs, rules);
            && (report.aborted <==> k < |due|)
            && report.records == Entries(due[..k], inputs, rules)
            && report.db.evaluations == db.evaluations + Entries(due[..if k < |due| then k + 1 else k], inputs, rules)
            && forall j :: 0 <= j < |due| ==> (Evaluated(report.db, due[j].id) <==> j <= k && Recordable(due[j], inputs, rules))
  {
    FitPredictionsAreSettled(db, due, k, inputs, rules);
    var last := if k < |due| then k + 1 else k;
    if k < |due| {
      FirstUnfitEndsTheRun(SettleAll(db, due[..k], inputs, rules), db, due, k, inputs, rules);
      SettleAllOneMore(db, due, k, inputs, rules);
      AbortIsFinal(db, due, k + 1, inputs, rules);
    } else {
      assert due[..k] == due;
    }
    var after := SettleAll(db, due, inputs, rules).db;
    forall j | 0 <= j < |due| ensures Evaluated(after, due[j].id) <==> j <= k && Recordable(due[j], inputs, rules) {
      assert due[j] in due;
      RecordedIffEvaluated(db, Entries(due[..last], inputs, rules), after, due[j].id);
      EntriesAreOfRecordable(due, last, j, inputs, rules);
    }
  }

  lemma FirstUnfitEndsTheRun(report: Report, db: Database, due: seq<Artifact>, k: nat, inputs: Inputs, rules: Rules)
    requires k < |due| && !Fit(due[k], inputs, rules) && Underway(report, db, due, k, inputs, rules)
    ensures var next := Extended(report, due[k], inputs, rules);
            && next.aborted && next.records == report.records
            && next.db.evaluations == db.evaluations + Entries(due[..k + 1], inputs, rules)
  {
    SettlementAbortsIffUnfit(report.db, due[k], inputs, rules);
    EntriesOneMore(due, k, inputs, rules);
    Associative(db.evaluations, Entries(due[..k], inputs, rules), Entries([due[k]], inputs, rules));
  }

  lemma {:induction false} FirstUnfit(due: seq<Artifact>, inputs: Inputs, rules: Rules) returns (k: nat)
    ensures k <= |due| && (forall i :: 0 <= i < k ==> Fit(due[i], inputs, rules)) && (k < |due| ==> !Fit(due[k], inputs, rules))
  {
    k := 0;
    while k < |due| && Fit(due[k], inputs, rules)
      invariant k <= |due| && forall i :: 0 <= i < k ==> Fit(due[i], inputs, rules)
    {
      k := k + 1;
    }
  }

  /** What is drawn for the due predictions is new and different, and the predictions carry what validation lets pass. */
  ghost predicate FreshDraws(db: Database, due: seq<Artifact>, inputs: Inputs, rules: Rules) {
    && (forall p :: p in due ==> IsProbability(p.confidence) && FreshFor(db, p, inputs, rules))
    && (forall i, j :: 0 <= i < j < |due| ==> Apart(due[j], due[i], inputs, rules))
  }

  lemma {:induction false} FilterKeepsOrder<T(!new)>(before: (T, T) -> bool, keep: T -> Option<T>, s: seq<T>)
    requires SortedBy(before, s) && forall x :: keep(x).Some? ==> keep(x).value == x
    ensures SortedBy(before, FilterMap(keep, s))
  {
    if s != [] {
      var init, last := s[..|s| - 1], s[|s| - 1];
      FilterKeepsOrder(before, keep, init);
      FilterMapMembers(keep, init);
      forall x | x in FilterMap(keep, init) ensures before(x, last) {
        var i :| 0 <= i < |init| && init[i] == x;
        assert s[i] == x;
      }
    }
  }

  const HAS_OTHER_ID: (Artifact, Artifact) -> bool := (a: Artifact, b: Artifact) => a.id != b.id

  /** No prediction is due twice. */
  lemma DueAreDistinct(db: Database, now: int, listing: Listing)
    requires LineageKept(db)
    ensures SortedBy(HAS_OTHER_ID, DuePredictions(db, now, listing))
  {
    var key := (a: Artifact) => a.id;
    forall i, j | 0 <= i < j < |db.artifacts| ensures HAS_OTHER_ID(db.artifacts[i], db.artifacts[j]) {
      EarlierIdIsListed(db.artifacts, i, j);
    }
    FilterKeepsOrder(HAS_OTHER_ID, PREDICTION_OF, db.artifacts);
    var stored := Predictions(db);
    assert DistinctBy(key, stored) by {
      assert forall i, j :: 0 <= i < j < |stored| ==> HAS_OTHER_ID(stored[i], stored[j]);
    }
    DistinctByPermutes(key, stored, SortBy(listing, stored));
    var all := SortBy(listing, stored);
    assert SortedBy(HAS_OTHER_ID, all) by {
      forall i, j | 0 <= i < j < |all| ensures HAS_OTHER_ID(all[i], all[j]) { assert key(all[i]) != key(all[j]); }
    }
    var due := (a: Artifact) => if IsDue(db, a, now) then Some(a) else None;
    FilterKeepsOrder(HAS_OTHER_ID, due, Candidates(db, listing));
  }

  lemma DueArePrepared(db: Database, listing: Listing, inputs: Inputs, rules: Rules)
    requires LineageKept(db) && FreshDraws(db, DuePredictions(db, inputs.now, listing), inputs, rules)
    ensures Prepared(db, DuePredictions(db, inputs.now, listing), inputs, rules)
  {
    var due := DuePredictions(db, inputs.now, listing);
    DueAreDistinct(db, inputs.now, listing);
    forall p | p in due ensures Settleable(db, p, inputs, rules) { DueArePending(db, inputs.now, listing, p); }
    forall i, j | 0 <= i < j < |due| ensures due[i].id != due[j].id { assert HAS_OTHER_ID(due[i], due[j]); }
  }

  lemma RunAbortsIffSomeUnfit(db: Database, due: seq<Artifact>, inputs: Inputs, rules: Rules)
    requires Prepared(db, due, inputs, rules)
    ensures SettleAll(db, due, inputs, rules).aborted <==> exists p :: p in due && !Fit(p, inputs, rules)
  {
    var k := FirstUnfit(due, inputs, rules);
    RunEvaluatesUpToFirstUnfit(db, due, k, inputs, rules);
    if k < |due| { assert due[k] in due; }
  }

  /** Some prediction among the first 10000 has a source reference that does not parse. */
  ghost predicate BadReferenceListed(db: Database, listing: Listing, normalize: Normalizer) {
    exists p :: p in db.artifacts && IsPrediction(p) && Rank(db, listing, p) < LISTING_LIMIT && !Parses(p, normalize)
  }

  /** Some prediction among the first 10000 awaits evaluation and is unfit. */
  ghost predicate UnfitListed(db: Database, listing: Listing, inputs: Inputs, rules: Rules) {
    exists p :: IsPending(db, p, inputs.now) && Rank(db, listing, p) < LISTING_LIMIT && !Fit(p, inputs, rules)
  }

  lemma ClusteringRaisesIff(db: Database, listing: Listing, normalize: Normalizer)
    requires IsListing(listing) && LineageKept(db)
    ensures !AllParse(Candidates(db, listing), normalize) <==> BadReferenceListed(db, listing, normalize)
  {
    if p :| p in Candidates(db, listing) && !Parses(p, normalize) { ListedIsRanked(db, listing, p); }
    if p :| p in db.artifacts && IsPrediction(p) && Rank(db, listing, p) < LISTING_LIMIT && !Parses(p, normalize) {
      RankedIsListed(db, listing, p);
    }
  }

  /**
   * An evaluation run with fresh draws raises exactly when a listed prediction has a reference that does not parse, in which
   * case nothing is settled, or a listed prediction that awaits evaluation is unfit.
   */
  lemma EvaluationAbortsIff(db: Database, listing: Listing, inputs: Inputs, rules: Rules)
    requires IsListing(listing) && LineageKept(db)
    requires FreshDraws(db, DuePredictions(db, inputs.now, listing), inputs, rules)
    ensures EvaluationRun(db, inputs, listing, rules).aborted
            <==> BadReferenceListed(db, listing, inputs.normalize) || UnfitListed(db, listing, inputs, rules)
    ensures BadReferenceListed(db, listing, inputs.normalize) ==> EvaluationRun(db, inputs, listing, rules) == Report(db, [], true)
  {
    var due := DuePredictions(db, inputs.now, listing);
    ClusteringRaisesIff(db, listing, inputs.normalize);
    DueArePrepared(db, listing, inputs, rules);
    RunAbortsIffSomeUnfit(db, due, inputs, rules);
    forall p ensures p in due <==> IsPending(db, p, inputs.now) && Rank(db, listing, p) < LISTING_LIMIT {
      DueIffPendingAndRanked(db, inputs.now, listing, p);
    }
  }
}
