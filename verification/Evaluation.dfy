/** Maturity-aware evaluation of predictions. */
module Evaluation {
  import opened Clusters
  import opened Lists
  import opened Ordering
  import opened Provenance
  import opened Schema
  import opened Store

  /**
   * A settlement reported by the resolver. It is not legible when its direction, time or result are malformed; a resolver
   * that raises comes to the same.
   */
  datatype Observation = Observation(
    legible: bool,
    realizedResult: real,
    direction: Direction,
    observedAt: int,
    sourceRefs: seq<string>,
    usefulness: Option<real>)

  /** The resolver answers for one prediction, or has no settlement yet. */
  type Resolver = Artifact -> Option<Observation>

  /** The random identifiers drawn for one prediction, and the texts of the artifact that reports its settlement. */
  datatype Drawn = Drawn(evaluationId: string, artifactId: Id, eventId: string, body: string)

  /** What an evaluation run is given besides the store. */
  datatype Inputs = Inputs(now: int, resolver: Resolver, drawn: Id -> Drawn, clusterSize: Id -> nat, normalize: Normalizer)

  const EVALUATOR := "swarm-evaluator"
  const EVALUATION_REASON := "matured_prediction_evaluation"
  const LISTING_LIMIT := 10000

  predicate IsPrediction(a: Artifact) {
    a.kind == PREDICTION
  }

  const PREDICTION_OF: Artifact -> Option<Artifact> := (a: Artifact) => if IsPrediction(a) then Some(a) else None

  /** The first 10000 predictions in the order of the listing, by creation text and identifier. */
  function Candidates(db: Database, listing: (Artifact, Artifact) -> bool): seq<Artifact> {
    var all := SortBy(listing, FilterMap(PREDICTION_OF, db.artifacts));
    if |all| <= LISTING_LIMIT then all else all[..LISTING_LIMIT]
  }

  predicate IsDue(db: Database, a: Artifact, now: int) {
    && !Evaluated(db, a.id)
    && a.status !in {INVALIDATED, REJECTED, FAILED}
    && a.prediction.Some? && a.prediction.value.evaluationAt <= now
  }

  function DuePredictions(db: Database, now: int, listing: (Artifact, Artifact) -> bool): seq<Artifact> {
    FilterMap((a: Artifact) => if IsDue(db, a, now) then Some(a) else None, Candidates(db, listing))
  }

  predicate ObservationValid(o: Observation) {
    o.legible && o.sourceRefs != [] && (o.usefulness.Some? ==> IsProbability(o.usefulness.value))
  }

  predicate InWindow(p: Artifact, o: Observation, now: int) {
    p.prediction.Some? && p.prediction.value.evaluationAt <= o.observedAt <= now
  }

  /** The metadata of the prediction can be read as a cost and a token count. */
  predicate Readable(p: Artifact) {
    p.inferenceCost.Some? && p.inferenceTokens.Some?
  }

  predicate Correct(p: Artifact, o: Observation) {
    p.prediction.Some? && p.prediction.value.expectedDirection == o.direction
  }

  function Clamp(x: real): real {
    if x < 0.0 then 0.0 else if x > 1.0 then 1.0 else x
  }

  function RecordFor(p: Artifact, o: Observation, clusterSize: nat, evaluationId: string): EvaluationRecord {
    var miss := p.confidence - Indicator(Correct(p, o));
    var brier := miss * miss;
    var uniqueness := 1.0 / (if clusterSize == 0 then 1 else clusterSize) as real;
    EvaluationRecord(
      evaluationId, p.id, o.direction, Clamp(brier), Clamp(1.0 - brier),
      if o.usefulness.Some? then o.usefulness.value else Indicator(Correct(p, o)) * uniqueness,
      uniqueness,
      if p.inferenceCost.Some? && p.inferenceCost.value > 0.0 then p.inferenceCost.value else 0.0,
      if p.inferenceTokens.Some? && p.inferenceTokens.value > 0 then p.inferenceTokens.value else 0,
      o.observedAt, o.sourceRefs)
  }

  function OutcomeFor(p: Artifact, o: Observation, drawn: Drawn): Artifact {
    Artifact(drawn.artifactId, o.observedAt, EVALUATOR, OUTCOME, p.subject, o.sourceRefs, 1.0, [p.id], [], EVALUATED, None, Some(0.0),
             Some(0), drawn.body)
  }

  /** The report of an outcome from outside the settlement window. */
  function AnomalyFor(p: Artifact, o: Observation, drawn: Drawn, now: int): Artifact {
    Artifact(drawn.artifactId, now, EVALUATOR, ANOMALY, p.subject, o.sourceRefs, 1.0, [p.id], [], FAILED, None, Some(0.0), Some(0),
             drawn.body)
  }

  /** The change of the predicting worker's budget. */
  function BudgetDelta(r: EvaluationRecord, correct: bool): real {
    var penalty := if r.cost == 0.0 then 0.0 else if r.cost / 0.01 < 2.0 then r.cost / 0.01 else 2.0;
    (if correct then 2.0 else -2.0) + 2.0 * (r.calibration - 0.5) + r.uniqueness + r.usefulness - (1.0 - r.uniqueness) - penalty
  }

  /** How the settlement of one prediction ended. An abort is an exception that ends the whole run. */
  datatype Ending = Unsettled | Contaminated | Scored(record: EvaluationRecord) | Aborted

  /** The settlement of one prediction, transaction by transaction. */
  function Settle(db: Database, p: Artifact, inputs: Inputs, rules: Rules): (Database, Ending) {
    SettleWith(db, p, inputs.resolver(p), inputs.now, inputs.clusterSize(p.id), inputs.drawn(p.id), rules)
  }

  function SettleWith(
    db: Database, p: Artifact, observation: Option<Observation>, now: int, clusterSize: nat, drawn: Drawn, rules: Rules)
    : (Database, Ending)
  {
    if observation.None? then (db, Unsettled)
    else if !ObservationValid(observation.value) then (db, Aborted)
    else
      var o := observation.value;
      if !InWindow(p, o, now) then Contaminate(db, AnomalyFor(p, o, drawn, now), rules)
      else if !Readable(p) then (db, Aborted)
      else Score(db, p, o, RecordFor(p, o, clusterSize, drawn.evaluationId), drawn, rules)
  }

  function Contaminate(db: Database, anomaly: Artifact, rules: Rules): (Database, Ending) {
    var r := AppendArtifact(db, anomaly, rules);
    if r.Failure? then (db, Aborted) else (r.value, Contaminated)
  }

  function Score(db: Database, p: Artifact, o: Observation, record: EvaluationRecord, drawn: Drawn, rules: Rules): (Database, Ending) {
    var recorded := AppendEvaluation(db, record, rules);
    if recorded.Failure? then (db, Aborted)
    else
      var reported := AppendArtifact(recorded.value, OutcomeFor(p, o, drawn), rules);
      if reported.Failure? then (recorded.value, Aborted)
      else Pay(reported.value, p, record, Correct(p, o), drawn.eventId)
  }

  /** Only registered workers have a budget. */
  function Pay(db: Database, p: Artifact, record: EvaluationRecord, correct: bool, eventId: string): (Database, Ending) {
    if p.workerId !in db.workers then (db, Scored(record))
    else
      var paid := AppendBudgetEvent(db, eventId, p.workerId, BudgetDelta(record, correct), EVALUATION_REASON, Some(p.id));
      if paid.Failure? then (db, Aborted) else (paid.value, Scored(record))
  }

  datatype Report = Report(db: Database, records: seq<EvaluationRecord>, aborted: bool)

  /** The settlements in order, up to the first abort. */
  function SettleAll(db: Database, due: seq<Artifact>, inputs: Inputs, rules: Rules): Report {
    if due == [] then Report(db, [], false)
    else
      var before := SettleAll(db, due[..|due| - 1], inputs, rules);
      if before.aborted then before
      else
        var (after, ending) := Settle(before.db, due[|due| - 1], inputs, rules);
        Report(after, if ending.Scored? then before.records + [ending.record] else before.records, ending.Aborted?)
  }

  /** One run. The listed predictions are clustered first, and where that raises nothing is settled. */
  function EvaluationRun(db: Database, inputs: Inputs, listing: (Artifact, Artifact) -> bool, rules: Rules): Report {
    if !AllParse(Candidates(db, listing), inputs.normalize) then Report(db, [], true)
    else SettleAll(db, DuePredictions(db, inputs.now, listing), inputs, rules)
  }

  /** For each listed prediction, the size of its evidence cluster among the listed predictions. */
  ghost function EvidenceClusterSize(candidates: seq<Artifact>, norm: string -> string): Id -> nat {
    var src := SourcesOf(Index(candidates), norm);
    (id: Id) => if id in src then |ClassOf(src, id)| else 1
  }

  class EvaluationEngine {
    const store: ArtifactStore

    constructor (store: ArtifactStore)
      ensures this.store == store
    {
      this.store := store;
    }

    /** The evaluation run: the due predictions and the cluster sizes are read once, then settled one by one. */
    method EvaluateDue(
      now: int, resolver: Resolver, drawn: Id -> Drawn, listing: (Artifact, Artifact) -> bool, normalize: Normalizer,
      digest: seq<string> -> string)
      returns (records: seq<EvaluationRecord>, aborted: bool)
      modifies store
      ensures var clusterSize := EvidenceClusterSize(old(Candidates(store.Db(), listing)), Returned(normalize));
              EvaluationRun(old(store.Db()), Inputs(now, resolver, drawn, clusterSize, normalize), listing, store.rules)
              == Report(store.Db(), records, aborted)
    {
      ghost var before := store.Db();
      var due := DuePredictions(store.Db(), now, listing);
      var candidates := Candidates(store.Db(), listing);
      var sizes := ClusterSizes(candidates, normalize, digest);
      if sizes.None? { return [], true; }
      var clusterSize := sizes.value;
      ghost var inputs := Inputs(now, resolver, drawn, EvidenceClusterSize(candidates, Returned(normalize)), normalize);
      records, aborted := [], false;
      for i := 0 to |due|
        invariant !aborted && SettleAll(before, due[..i], inputs, store.rules) == Report(store.Db(), records, aborted)
      {
        var p := due[i];
        SettleAllOneMore(before, due, i, inputs, store.rules);
        var ending := SettleOne(p, resolver(p), now, if p.id in clusterSize then clusterSize[p.id] else 1, drawn(p.id));
        if ending.Aborted? {
          AbortIsFinal(before, due, i + 1, inputs, store.rules);
          return records, true;
        }
        if ending.Scored? { records := records + [ending.record]; }
      }
      assert due[..|due|] == due;
    }

    method SettleOne(p: Artifact, observation: Option<Observation>, now: int, clusterSize: nat, drawn: Drawn)
      returns (ending: Ending)
      modifies store
      ensures SettleWith(old(store.Db()), p, observation, now, clusterSize, drawn, store.rules) == (store.Db(), ending)
    {
      if observation.None? { return Unsettled; }
      var o := observation.value;
      if !ObservationValid(o) { return Aborted; }
      if !InWindow(p, o, now) {
        var reported := store.AddArtifact(AnomalyFor(p, o, drawn, now));
        return if reported.Success? then Contaminated else Aborted;
      }
      if !Readable(p) { return Aborted; }
      var record := RecordFor(p, o, clusterSize, drawn.evaluationId);
      var recorded := store.AddEvaluation(record);
      if recorded.Failure? { return Aborted; }
      var reported := store.AddArtifact(OutcomeFor(p, o, drawn));
      if reported.Failure? { return Aborted; }
      ending := ApplyWorkerBudget(p, record, Correct(p, o), drawn.eventId);
    }

    method ApplyWorkerBudget(p: Artifact, record: EvaluationRecord, correct: bool, eventId: string) returns (ending: Ending)
      modifies store
      ensures Pay(old(store.Db()), p, record, correct, eventId) == (store.Db(), ending)
    {
      if p.workerId !in store.workers { return Scored(record); }
      var paid := store.AddBudgetEvent(eventId, p.workerId, BudgetDelta(record, correct), EVALUATION_REASON, Some(p.id));
      return if paid.Success? then Scored(record) else Aborted;
    }
  }

  lemma SettleAllOneMore(db: Database, due: seq<Artifact>, i: nat, inputs: Inputs, rules: Rules)
    requires i < |due| && !SettleAll(db, due[..i], inputs, rules).aborted
    ensures var before := SettleAll(db, due[..i], inputs, rules);
            var (after, ending) := Settle(before.db, due[i], inputs, rules);
            SettleAll(db, due[..i + 1], inputs, rules)
            == Report(after, if ending.Scored? then before.records + [ending.record] else before.records, ending.Aborted?)
  {
    assert due[..i + 1][..i] == due[..i];
  }

  lemma {:induction false} AbortIsFinal(db: Database, due: seq<Artifact>, k: nat, inputs: Inputs, rules: Rules)
    requires k <= |due| && SettleAll(db, due[..k], inputs, rules).aborted
    ensures SettleAll(db, due, inputs, rules) == SettleAll(db, due[..k], inputs, rules)
    decreases |due| - k
  {
    if k < |due| {
      assert due[..k + 1][..k] == due[..k];
      AbortIsFinal(db, due, k + 1, inputs, rules);
    } else {
      assert due[..k] == due;
    }
  }

  /** The sizes, collected from the clusters, unless clustering raises. */
  method ClusterSizes(candidates: seq<Artifact>, normalize: Normalizer, digest: seq<string> -> string)
    returns (r: Option<map<Id, nat>>)
    ensures r.Some? <==> AllParse(candidates, normalize)
    ensures r.Some? ==>
              forall id: Id :: EvidenceClusterSize(candidates, Returned(normalize))(id) == if id in r.value then r.value[id] else 1
  {
    ghost var norm := Returned(normalize);
    var clusters := SizedClusters(candidates, normalize, digest);
    if clusters.None? { return None; }
    var sizes := CollectSizes(clusters.value, EvidenceClusterSize(candidates, norm), SourcesOf(Index(candidates), norm).Keys);
    r := Some(sizes);
  }

  method SizedClusters(candidates: seq<Artifact>, normalize: Normalizer, digest: seq<string> -> string)
    returns (r: Option<seq<EvidenceCluster>>)
    ensures r.Some? <==> AllParse(candidates, normalize)
    ensures r.Some? ==>
              var norm := Returned(normalize);
              SizesAre(r.value, EvidenceClusterSize(candidates, norm), SourcesOf(Index(candidates), norm).Keys)
  {
    ghost var norm := Returned(normalize);
    r := ClusterByEvidence(candidates, normalize, digest);
    if r.Some? {
      ClusteringIsSized(r.value, SourcesOf(Index(candidates), norm), digest, EvidenceClusterSize(candidates, norm));
    }
  }

  lemma ClusteringIsSized(clusters: seq<EvidenceCluster>, src: SourceMap, digest: seq<string> -> string, f: Id -> nat)
    requires IsClustering(clusters, src, digest)
    requires forall id: Id {:trigger f(id)} :: id in src ==> f(id) == |ClassOf(src, id)|
    ensures SizesAre(clusters, f, src.Keys)
  {
    AllSized(clusters, src, digest, f, |clusters|);
    EveryoneIsMember(clusters, src, digest);
  }

  /** One cluster has the size that `f` gives its members. */
  ghost predicate SizedBy(c: EvidenceCluster, f: Id -> nat, domain: set<Id>) {
    forall id :: id in c.artifactIds ==> id in domain && f(id) == |c.artifactIds|
  }

  lemma ListedClusterIsSized(clusters: seq<EvidenceCluster>, src: SourceMap, digest: seq<string> -> string, f: Id -> nat, i: nat)
    requires IsClustering(clusters, src, digest) && i < |clusters|
    requires forall id: Id {:trigger f(id)} :: id in src ==> f(id) == |ClassOf(src, id)|
    ensures SizedBy(clusters[i], f, src.Keys)
  {
    ListedClassSize(clusters, src, digest, clusters[i]);
  }

  lemma {:induction false} AllSized(clusters: seq<EvidenceCluster>, src: SourceMap, digest: seq<string> -> string, f: Id -> nat, n: nat)
    requires IsClustering(clusters, src, digest) && n <= |clusters|
    requires forall id: Id {:trigger f(id)} :: id in src ==> f(id) == |ClassOf(src, id)|
    ensures forall i {:trigger clusters[i]} :: 0 <= i < n ==> SizedBy(clusters[i], f, src.Keys)
  {
    if n > 0 {
      AllSized(clusters, src, digest, f, n - 1);
      ListedClusterIsSized(clusters, src, digest, f, n - 1);
    }
  }

  lemma EveryoneIsMember(clusters: seq<EvidenceCluster>, src: SourceMap, digest: seq<string> -> string)
    requires IsClustering(clusters, src, digest)
    ensures forall id: Id :: id in src.Keys ==> exists i :: 0 <= i < |clusters| && id in clusters[i].artifactIds
  {
    forall id: Id | id in src.Keys ensures exists i :: 0 <= i < |clusters| && id in clusters[i].artifactIds {
      InSomeCluster(clusters, src, digest, id);
    }
  }

  /** The clusters cover the domain, and `f` is the size of the cluster an identifier is in. */
  ghost predicate SizesAre(clusters: seq<EvidenceCluster>, f: Id -> nat, domain: set<Id>) {
    && (forall i {:trigger clusters[i]} :: 0 <= i < |clusters| ==> SizedBy(clusters[i], f, domain))
    && (forall id: Id :: id in domain ==> exists i :: 0 <= i < |clusters| && id in clusters[i].artifactIds)
  }

  /** For every member of a cluster, the number of its members. */
  method CollectSizes(clusters: seq<EvidenceCluster>, ghost f: Id -> nat, ghost domain: set<Id>) returns (sizes: map<Id, nat>)
    requires SizesAre(clusters, f, domain)
    ensures sizes.Keys == domain && forall id: Id :: id in sizes ==> sizes[id] == f(id)
  {
    sizes := map[];
    for i := 0 to |clusters|
      invariant forall id: Id :: id in sizes ==> id in domain && sizes[id] == f(id)
      invariant forall j, id :: 0 <= j < i && id in clusters[j].artifactIds ==> id in sizes
    {
      assert SizedBy(clusters[i], f, domain);
      sizes := AddSizes(sizes, clusters[i].artifactIds, |clusters[i].artifactIds|);
    }
  }

  lemma IncreasingIsDistinct(s: seq<string>)
    requires Increasing(s)
    ensures Distinct(s)
  {
    LtIsStrictTotalOrder();
  }

  lemma ListedClassSize(
    clusters: seq<EvidenceCluster>, src: SourceMap, digest: seq<string> -> string, c: EvidenceCluster)
    requires IsClustering(clusters, src, digest) && c in clusters
    ensures forall id :: id in c.artifactIds ==> id in src && |ClassOf(src, id)| == |c.artifactIds|
  {
    var x :| x in src.Keys && Record(src, digest)(x) == c;
    IncreasingIsDistinct(c.artifactIds);
    DistinctSize(c.artifactIds);
    forall id | id in c.artifactIds ensures id in src && |ClassOf(src, id)| == |c.artifactIds| {
      assert id in Elements(c.artifactIds);
      LinkedArtifactsHaveOneClass(src, x, id);
    }
  }

  lemma InSomeCluster(clusters: seq<EvidenceCluster>, src: SourceMap, digest: seq<string> -> string, id: Id)
    requires IsClustering(clusters, src, digest) && id in src
    ensures exists i :: 0 <= i < |clusters| && id in clusters[i].artifactIds
  {
    var c := Record(src, digest)(id);
    assert c in clusters;
    SameClusterIsEquivalence(src, id, id, id);
    assert id in Elements(c.artifactIds);
  }

  method AddSizes(sizes: map<Id, nat>, ids: seq<Id>, size: nat) returns (more: map<Id, nat>)
    ensures forall id :: id in more <==> id in sizes || id in ids
    ensures forall id :: id in more ==> more[id] == if id in ids then size else sizes[id]
  {
    more := sizes;
    for i := 0 to |ids|
      invariant forall id :: id in more <==> id in sizes || id in ids[..i]
      invariant forall id :: id in more ==> more[id] == if id in ids[..i] then size else sizes[id]
    {
      more := more[ids[i] := size];
      assert ids[..i + 1] == ids[..i] + [ids[i]];
    }
    assert ids[..|ids|] == ids;
  }
}
