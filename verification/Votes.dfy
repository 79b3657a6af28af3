/** One directional vote per independent evidence cluster. */
module Votes {
  import opened Schema
  import opened Ordering
  import opened Provenance
  import opened Clusters

  /** The evidence clusters as plain sets of identifiers. */
  ghost function Classes(src: SourceMap): set<set<Id>> {
    set x | x in src :: ClassOf(src, x)
  }

  predicate Predicts(byId: Environment, x: Id) {
    x in byId && byId[x].PredictedDirection().Some?
  }

  ghost predicate Predicting(byId: Environment, k: set<Id>) {
    exists x :: x in k && Predicts(byId, x)
  }

  /** Comparison by confidence, then identifier. */
  predicate AtLeast(a: Artifact, b: Artifact) {
    b.confidence < a.confidence || (b.confidence == a.confidence && Le(b.id, a.id))
  }

  ghost predicate Represents(byId: Environment, k: set<Id>, r: Id) {
    r in k && Predicts(byId, r) && forall x :: x in k && Predicts(byId, x) ==> AtLeast(byId[r], byId[x])
  }

  /** The direction that a cluster votes for. */
  ghost predicate VotesFor(byId: Environment, k: set<Id>, d: Direction) {
    exists r :: Represents(byId, k, r) && byId[r].PredictedDirection() == Some(d)
  }

  ghost function Supporters(byId: Environment, classes: set<set<Id>>, d: Direction): set<set<Id>> {
    set k | k in classes && VotesFor(byId, k, d)
  }

  ghost function PredictingAmong(byId: Environment, classes: set<set<Id>>): set<set<Id>> {
    set k | k in classes && Predicting(byId, k)
  }

  /** The number of clusters that contain a prediction. */
  ghost function VoteTotal(byId: Environment, norm: string -> string): nat
    requires Keyed(byId)
  {
    |PredictingAmong(byId, Classes(SourcesOf(byId, norm)))|
  }

  function Count(votes: map<Direction, nat>, d: Direction): nat {
    if d in votes then votes[d] else 0
  }

  function Total(votes: map<Direction, nat>): nat {
    Count(votes, DOWN) + Count(votes, FLAT) + Count(votes, NO_SIGNAL) + Count(votes, UP)
  }

  lemma RepresentativeIsUnique(byId: Environment, k: set<Id>, r: Id, q: Id)
    requires Keyed(byId) && Represents(byId, k, r) && Represents(byId, k, q)
    ensures r == q
  {
    assert AtLeast(byId[r], byId[q]) && AtLeast(byId[q], byId[r]);
    LeAntisymmetric(byId[r].id, byId[q].id);
  }

  lemma AtLeastIsTotalPreorder(a: Artifact, b: Artifact, c: Artifact)
    ensures AtLeast(a, b) || AtLeast(b, a)
    ensures AtLeast(a, b) && AtLeast(b, c) ==> AtLeast(a, c)
  {
    LtTotal(a.id, b.id);
    if AtLeast(a, b) && AtLeast(b, c) && Le(b.id, a.id) && Le(c.id, b.id) { LeTransitive(c.id, b.id, a.id); }
  }

  const BY_CONFIDENCE: (Artifact, Artifact) -> bool := (a: Artifact, b: Artifact) => AtLeast(a, b)

  lemma ConfidenceIsTotalPreorder()
    ensures TotalPreorder(BY_CONFIDENCE)
  {
    forall a: Artifact, b: Artifact ensures BY_CONFIDENCE(a, b) || BY_CONFIDENCE(b, a) {
      AtLeastIsTotalPreorder(a, b, b);
    }
    forall a: Artifact, b: Artifact, c: Artifact | BY_CONFIDENCE(a, b) && BY_CONFIDENCE(b, c) ensures BY_CONFIDENCE(a, c) {
      AtLeastIsTotalPreorder(a, b, c);
    }
  }

  lemma ClassOfRecord(src: SourceMap, digest: seq<string> -> string, c: EvidenceCluster, x: Id)
    requires x in src && c == ClusterOf(src, digest, x)
    ensures Elements(c.artifactIds) == ClassOf(src, x) && ClassOf(src, x) in Classes(src)
  {
  }

  ghost function ClassesListed(clusters: seq<EvidenceCluster>): set<set<Id>> {
    set c | c in clusters :: Elements(c.artifactIds)
  }

  lemma RecordsHaveDistinctClasses(clusters: seq<EvidenceCluster>, src: SourceMap, digest: seq<string> -> string, j: nat, i: nat)
    requires IsClustering(clusters, src, digest) && j < i < |clusters|
    ensures Elements(clusters[j].artifactIds) != Elements(clusters[i].artifactIds)
  {
    var record := Record(src, digest);
    assert clusters[i] in clusters && clusters[j] in clusters;
    var x :| x in src.Keys && clusters[i] == record(x);
    var y :| y in src.Keys && clusters[j] == record(y);
    ClassOfRecord(src, digest, clusters[i], x);
    ClassOfRecord(src, digest, clusters[j], y);
    RecordIffLinked(src, digest, record, x, y);
    SameClusterIsEquivalence(src, y, y, y);
  }

  /** The records of a clustering stand for the classes, one each. */
  lemma RecordsStandForClasses(clusters: seq<EvidenceCluster>, src: SourceMap, digest: seq<string> -> string)
    requires IsClustering(clusters, src, digest)
    ensures ClassesListed(clusters) == Classes(src)
  {
    var record := Record(src, digest);
    forall c | c in clusters ensures Elements(c.artifactIds) in Classes(src) {
      var x :| x in src.Keys && c == record(x);
      ClassOfRecord(src, digest, c, x);
    }
    forall k | k in Classes(src) ensures k in ClassesListed(clusters) {
      var x :| x in src && k == ClassOf(src, x);
      assert x in src.Keys && record(x) in clusters;
      ClassOfRecord(src, digest, record(x), x);
    }
  }

  lemma NextRecordIsNewClass(clusters: seq<EvidenceCluster>, src: SourceMap, digest: seq<string> -> string, i: nat)
    requires IsClustering(clusters, src, digest) && i < |clusters|
    ensures Elements(clusters[i].artifactIds) !in ClassesListed(clusters[..i])
    ensures ClassesListed(clusters[..i + 1]) == ClassesListed(clusters[..i]) + {Elements(clusters[i].artifactIds)}
  {
    assert clusters[..i + 1] == clusters[..i] + [clusters[i]];
    forall j | 0 <= j < i ensures Elements(clusters[j].artifactIds) != Elements(clusters[i].artifactIds) {
      RecordsHaveDistinctClasses(clusters, src, digest, j, i);
    }
  }

  /** The predictions among the members of a cluster, in their order. */
  function PredictionsOf(byId: Environment, ids: seq<Id>): (r: seq<Artifact>)
    requires Keyed(byId)
    ensures forall a :: a in r <==> a.id in ids && Predicts(byId, a.id) && byId[a.id] == a
  {
    if ids == [] then []
    else (if Predicts(byId, ids[0]) then [byId[ids[0]]] else []) + PredictionsOf(byId, ids[1..])
  }

  ghost predicate Tallied(votes: map<Direction, nat>, byId: Environment, counted: set<set<Id>>) {
    && (forall d :: Count(votes, d) == |Supporters(byId, counted, d)|)
    && (forall d :: d in votes ==> votes[d] > 0)
  }

  lemma TallyOne(votes: map<Direction, nat>, byId: Environment, counted: set<set<Id>>, k: set<Id>, r: Id, d: Direction)
    requires Keyed(byId) && Tallied(votes, byId, counted) && k !in counted
    requires Represents(byId, k, r) && byId[r].PredictedDirection() == Some(d)
    ensures Tallied(votes[d := Count(votes, d) + 1], byId, counted + {k})
  {
    forall e ensures Count(votes[d := Count(votes, d) + 1], e) == |Supporters(byId, counted + {k}, e)| {
      BallotOfRepresentative(byId, k, r, d, e);
      SupportersGrow(byId, counted, k, e, e == d);
    }
  }

  lemma SupportersGrow(byId: Environment, counted: set<set<Id>>, k: set<Id>, e: Direction, supports: bool)
    requires k !in counted && VotesFor(byId, k, e) == supports
    ensures |Supporters(byId, counted + {k}, e)| == |Supporters(byId, counted, e)| + if supports then 1 else 0
  {
    assert Supporters(byId, counted + {k}, e) == Supporters(byId, counted, e) + if supports then {k} else {};
  }

  lemma BallotOfRepresentative(byId: Environment, k: set<Id>, r: Id, d: Direction, e: Direction)
    requires Keyed(byId) && Represents(byId, k, r) && byId[r].PredictedDirection() == Some(d)
    ensures VotesFor(byId, k, e) <==> e == d
  {
    if VotesFor(byId, k, e) {
      var q :| Represents(byId, k, q) && byId[q].PredictedDirection() == Some(e);
      RepresentativeIsUnique(byId, k, r, q);
    }
  }

  lemma TallyNone(votes: map<Direction, nat>, byId: Environment, counted: set<set<Id>>, k: set<Id>)
    requires Tallied(votes, byId, counted) && !Predicting(byId, k)
    ensures Tallied(votes, byId, counted + {k})
  {
    forall e ensures Supporters(byId, counted + {k}, e) == Supporters(byId, counted, e) {
    }
  }

  lemma {:induction false} Strongest(byId: Environment, s: set<Id>) returns (r: Id)
    requires s != {} && s <= byId.Keys
    ensures r in s && forall x :: x in s ==> AtLeast(byId[r], byId[x])
  {
    r :| r in s;
    AtLeastIsTotalPreorder(byId[r], byId[r], byId[r]);
    if s != {r} {
      var q := Strongest(byId, s - {r});
      AtLeastIsTotalPreorder(byId[q], byId[r], byId[r]);
      if AtLeast(byId[q], byId[r]) {
        r := q;
      } else {
        forall x | x in s ensures AtLeast(byId[r], byId[x]) {
          if x != r { AtLeastIsTotalPreorder(byId[r], byId[q], byId[x]); }
        }
      }
    }
  }

  lemma PredictingClassVotes(byId: Environment, k: set<Id>)
    ensures Predicting(byId, k) <==> exists d :: VotesFor(byId, k, d)
  {
    if Predicting(byId, k) {
      var s := set x | x in k && Predicts(byId, x);
      var x :| x in k && Predicts(byId, x);
      assert x in s;
      var r := Strongest(byId, s);
      assert Represents(byId, k, r);
      assert VotesFor(byId, k, byId[r].PredictedDirection().value);
    }
  }

  lemma VotesForOneDirection(byId: Environment, k: set<Id>, d: Direction, e: Direction)
    requires Keyed(byId) && VotesFor(byId, k, d) && VotesFor(byId, k, e)
    ensures d == e
  {
    var r :| Represents(byId, k, r) && byId[r].PredictedDirection() == Some(d);
    var q :| Represents(byId, k, q) && byId[q].PredictedDirection() == Some(e);
    RepresentativeIsUnique(byId, k, r, q);
  }

  lemma SupportersAreDisjoint(byId: Environment, classes: set<set<Id>>, d: Direction, e: Direction)
    requires Keyed(byId) && d != e
    ensures Supporters(byId, classes, d) !! Supporters(byId, classes, e)
  {
    forall k | k in Supporters(byId, classes, d) && k in Supporters(byId, classes, e) ensures false {
      VotesForOneDirection(byId, k, d, e);
    }
  }

  lemma PredictingClassesAreSupporters(byId: Environment, classes: set<set<Id>>)
    ensures PredictingAmong(byId, classes) == Supporters(byId, classes, DOWN) + Supporters(byId, classes, FLAT)
                                              + Supporters(byId, classes, NO_SIGNAL) + Supporters(byId, classes, UP)
  {
    forall k | k in classes
      ensures Predicting(byId, k) <==>
                VotesFor(byId, k, DOWN) || VotesFor(byId, k, FLAT) || VotesFor(byId, k, NO_SIGNAL) || VotesFor(byId, k, UP)
    {
      PredictingClassVotes(byId, k);
      if d :| VotesFor(byId, k, d) {
        match d case DOWN => case FLAT => case NO_SIGNAL => case UP =>
      }
    }
  }

  /** The total vote is the number of clusters that contain a prediction. */
  lemma TotalCountsPredictingClasses(votes: map<Direction, nat>, byId: Environment, classes: set<set<Id>>)
    requires Keyed(byId) && Tallied(votes, byId, classes)
    ensures Total(votes) == |PredictingAmong(byId, classes)|
  {
    PredictingClassesAreSupporters(byId, classes);
    SupportersAreDisjoint(byId, classes, DOWN, FLAT);
    SupportersAreDisjoint(byId, classes, DOWN, NO_SIGNAL);
    SupportersAreDisjoint(byId, classes, DOWN, UP);
    SupportersAreDisjoint(byId, classes, FLAT, NO_SIGNAL);
    SupportersAreDisjoint(byId, classes, FLAT, UP);
    SupportersAreDisjoint(byId, classes, NO_SIGNAL, UP);
    DisjointUnionSize(Supporters(byId, classes, DOWN), Supporters(byId, classes, FLAT),
                      Supporters(byId, classes, NO_SIGNAL), Supporters(byId, classes, UP));
  }

  lemma DisjointUnionSize<T>(a: set<T>, b: set<T>, c: set<T>, d: set<T>)
    requires a !! b !! c !! d
    ensures |a + b + c + d| == |a| + |b| + |c| + |d|
  {
    assert |a + b| == |a| + |b|;
    assert |a + b + c| == |a + b| + |c|;
  }

  /**
   * The member that decides the vote of a cluster: a prediction of this direction that is more confident than every other
   * prediction of the cluster, or as confident with the greater identifier.
   */
  ghost predicate Decides(byId: Environment, k: set<Id>, r: Id, d: Direction) {
    && r in k && r in byId && byId[r].kind == PREDICTION
    && byId[r].prediction.Some? && byId[r].prediction.value.expectedDirection == d
    && forall x :: x in k && x != r && x in byId && byId[x].kind == PREDICTION && byId[x].prediction.Some? ==>
         byId[x].confidence < byId[r].confidence || (byId[x].confidence == byId[r].confidence && Lt(x, r))
  }

  ghost function DecidedFor(byId: Environment, classes: set<set<Id>>, d: Direction): set<set<Id>> {
    set k | k in classes && exists r :: Decides(byId, k, r, d)
  }

  /** The strongest prediction in the order of the code decides, and nobody else. */
  lemma RepresentativeDecides(byId: Environment, k: set<Id>, r: Id, d: Direction)
    requires Keyed(byId)
    ensures Represents(byId, k, r) && byId[r].PredictedDirection() == Some(d) <==> Decides(byId, k, r, d)
  {
    if Represents(byId, k, r) && byId[r].PredictedDirection() == Some(d) {
      forall x | x in k && x != r && Predicts(byId, x)
        ensures byId[x].confidence < byId[r].confidence || (byId[x].confidence == byId[r].confidence && Lt(x, r))
      {
        assert AtLeast(byId[r], byId[x]);
      }
    }
    if Decides(byId, k, r, d) {
      forall x | x in k && Predicts(byId, x) ensures AtLeast(byId[r], byId[x]) {}
    }
  }

  lemma SupportersAreDecided(byId: Environment, classes: set<set<Id>>, d: Direction)
    requires Keyed(byId)
    ensures Supporters(byId, classes, d) == DecidedFor(byId, classes, d)
  {
    forall k, r ensures Represents(byId, k, r) && byId[r].PredictedDirection() == Some(d) <==> Decides(byId, k, r, d) {
      RepresentativeDecides(byId, k, r, d);
    }
  }

  /** For every direction with a vote, the number of clusters decided for it; the others have none. */
  ghost predicate CountsDecisions(votes: map<Direction, nat>, byId: Environment, classes: set<set<Id>>) {
    forall d: Direction ::
      && (d in votes ==> votes[d] == |DecidedFor(byId, classes, d)|)
      && (d in votes <==> DecidedFor(byId, classes, d) != {})
  }

  lemma TallyCountsDecisions(votes: map<Direction, nat>, byId: Environment, classes: set<set<Id>>)
    requires Keyed(byId) && Tallied(votes, byId, classes)
    ensures CountsDecisions(votes, byId, classes)
  {
    forall d: Direction
      ensures (d in votes ==> votes[d] == |DecidedFor(byId, classes, d)|) && (d in votes <==> DecidedFor(byId, classes, d) != {})
    {
      SupportersAreDecided(byId, classes, d);
      assert Count(votes, d) == |Supporters(byId, classes, d)|;
    }
  }

  /** The vote of one cluster, given its predictions. */
  method CastBallot(votes: map<Direction, nat>, byId: Environment, ids: seq<Id>, ghost counted: set<set<Id>>)
    returns (after: map<Direction, nat>)
    requires Keyed(byId) && Tallied(votes, byId, counted) && Elements(ids) !in counted
    ensures Tallied(after, byId, counted + {Elements(ids)})
  {
    var predictions := PredictionsOf(byId, ids);
    forall x | x in Elements(ids) ensures x in ids && (Predicts(byId, x) ==> byId[x] in predictions) {
    }
    if predictions != [] {
      ConfidenceIsTotalPreorder();
      var representative := MaxBy(BY_CONFIDENCE, predictions);
      assert forall a :: a in predictions ==> BY_CONFIDENCE(representative, a);
      var d := representative.PredictedDirection().value;
      TallyOne(votes, byId, counted, Elements(ids), representative.id, d);
      after := votes[d := Count(votes, d) + 1];
    } else {
      TallyNone(votes, byId, counted, Elements(ids));
      after := votes;
    }
  }

  /** At most one vote for each evidence cluster, or nothing when some reference does not parse. */
  method IndependentClusterVote(items: seq<Artifact>, normalize: Normalizer, digest: seq<string> -> string)
    returns (r: Option<map<Direction, nat>>)
    ensures r.Some? <==> AllParse(items, normalize)
    ensures r.Some? ==> Tallied(r.value, Index(items), Classes(SourcesOf(Index(items), Returned(normalize))))
    ensures r.Some? ==> CountsDecisions(r.value, Index(items), Classes(SourcesOf(Index(items), Returned(normalize))))
    ensures r.Some? ==> Total(r.value) == VoteTotal(Index(items), Returned(normalize))
  {
    var byId := Index(items);
    ghost var src := SourcesOf(byId, Returned(normalize));
    var votes: map<Direction, nat> := map[];
    var clustered := ClusterByEvidence(items, normalize, digest);
    if clustered.None? { return None; }
    var clusters := clustered.value;
    RecordsStandForClasses(clusters, src, digest);
    assert clusters[..0] == [];
    assert forall d :: Supporters(byId, {}, d) == {};
    for i := 0 to |clusters|
      invariant Tallied(votes, byId, ClassesListed(clusters[..i]))
    {
      NextRecordIsNewClass(clusters, src, digest, i);
      votes := CastBallot(votes, byId, clusters[i].artifactIds, ClassesListed(clusters[..i]));
    }
    assert clusters[..|clusters|] == clusters;
    TotalCountsPredictingClasses(votes, byId, Classes(src));
    TallyCountsDecisions(votes, byId, Classes(src));
    r := Some(votes);
  }
}
