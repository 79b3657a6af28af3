/** The matched-condition selectors: which candidate each comparison method picks for a case. */
module Baselines {
  import opened Lists
  import opened Ordering
  import opened Schema

  datatype Candidate = Candidate(
    caseId: string,
    workerId: Id,
    direction: Direction,
    confidence: real,
    magnitude: real,
    clusterId: string,
    realized: Direction,
    swarmScore: real,
    cost: real,
    tokens: int,
    usefulness: Option<real>)

  datatype Method = SingleLuna | BestOfN | MajorityVote | Swarm | RandomBaseline

  /** The library `max` with a key: the first element that no later one exceeds. */
  function Best<T>(atLeast: (T, T) -> bool, s: seq<T>): (r: T)
    requires s != []
    ensures r in s
  {
    var last := s[|s| - 1];
    if |s| == 1 then last
    else
      var best := Best(atLeast, s[..|s| - 1]);
      if atLeast(best, last) then best else last
  }

  lemma {:induction false} BestIsGreatest<T(!new)>(atLeast: (T, T) -> bool, s: seq<T>)
    requires s != [] && TotalPreorder(atLeast)
    ensures forall y :: y in s ==> atLeast(Best(atLeast, s), y)
  {
    assert s == s[..|s| - 1] + [s[|s| - 1]];
    if |s| > 1 { BestIsGreatest(atLeast, s[..|s| - 1]); }
  }

  /** Where no two elements tie, the greatest one does not depend on the order of the list. */
  lemma BestIgnoresOrder<T(!new)>(atLeast: (T, T) -> bool, s: seq<T>, t: seq<T>)
    requires s != [] && t != [] && TotalPreorder(atLeast) && forall x :: x in s <==> x in t
    requires forall x, y :: x in s && y in s && atLeast(x, y) && atLeast(y, x) ==> x == y
    ensures Best(atLeast, s) == Best(atLeast, t)
  {
    BestIsGreatest(atLeast, s);
    BestIsGreatest(atLeast, t);
  }

  /** By worker identifier, the least first. */
  const BY_WORKER: (Candidate, Candidate) -> bool := (a: Candidate, b: Candidate) => Le(a.workerId, b.workerId)

  const BY_CONFIDENCE: (Candidate, Candidate) -> bool := (a: Candidate, b: Candidate) =>
    a.confidence > b.confidence || (a.confidence == b.confidence && Le(b.workerId, a.workerId))

  const BY_CONFIDENCE_THEN_SCORE: (Candidate, Candidate) -> bool := (a: Candidate, b: Candidate) =>
    || a.confidence > b.confidence
    || (a.confidence == b.confidence
        && (a.swarmScore > b.swarmScore || (a.swarmScore == b.swarmScore && Le(b.workerId, a.workerId))))

  const BY_SCORE_THEN_CONFIDENCE: (Candidate, Candidate) -> bool := (a: Candidate, b: Candidate) =>
    || a.swarmScore > b.swarmScore
    || (a.swarmScore == b.swarmScore
        && (a.confidence > b.confidence || (a.confidence == b.confidence && Le(b.workerId, a.workerId))))

  ghost predicate IsOrder(atLeast: (Candidate, Candidate) -> bool) {
    atLeast == BY_WORKER || atLeast == BY_CONFIDENCE || atLeast == BY_CONFIDENCE_THEN_SCORE || atLeast == BY_SCORE_THEN_CONFIDENCE
  }

  const WORKER_OF: Candidate -> string := (c: Candidate) => c.workerId
  const CLUSTER_OF: Candidate -> string := (c: Candidate) => c.clusterId
  const DIRECTION_OF: Candidate -> Direction := (c: Candidate) => c.direction
  const CASE_OF: Candidate -> string := (c: Candidate) => c.caseId

  function Where(keep: Candidate -> bool, items: seq<Candidate>): seq<Candidate> {
    FilterMap((c: Candidate) => if keep(c) then Some(c) else None, items)
  }

  function InCluster(cluster: string): Candidate -> bool {
    (c: Candidate) => c.clusterId == cluster
  }

  function Predicting(d: Direction): Candidate -> bool {
    (c: Candidate) => c.direction == d
  }

  lemma WhereMembers(keep: Candidate -> bool, items: seq<Candidate>)
    ensures forall c :: c in Where(keep, items) <==> c in items && keep(c)
  {
    var f := (c: Candidate) => if keep(c) then Some(c) else None;
    FilterMapMembers(f, items);
    forall c | c in items && keep(c) ensures c in Where(keep, items) { assert f(c) == Some(c); }
  }

  /** The most confident candidate of a cluster, and nobody for an empty one. */
  function Champion(items: seq<Candidate>): string -> Option<Candidate> {
    (cluster: string) =>
      var members := Where(InCluster(cluster), items);
      if members == [] then None else Some(Best(BY_CONFIDENCE, members))
  }

  /** One candidate for each evidence cluster, clusters in order of appearance. */
  function Representatives(items: seq<Candidate>): seq<Candidate> {
    FilterMap(Champion(items), Unique(Map(CLUSTER_OF, items)))
  }

  function Sum(s: seq<real>): real {
    if s == [] then 0.0 else Sum(s[..|s| - 1]) + s[|s| - 1]
  }

  const CONFIDENCE_OF: Candidate -> real := (c: Candidate) => c.confidence

  /** More votes first, then more confidence, then the later name. */
  function ByVotes(reps: seq<Candidate>): (Direction, Direction) -> bool {
    (d: Direction, e: Direction) =>
      var votes, others := |Where(Predicting(d), reps)|, |Where(Predicting(e), reps)|;
      var weight, weights := Sum(Map(CONFIDENCE_OF, Where(Predicting(d), reps))), Sum(Map(CONFIDENCE_OF, Where(Predicting(e), reps)));
      votes > others || (votes == others && (weight > weights || (weight == weights && d.Rank() >= e.Rank())))
  }

  function MajorityDirection(reps: seq<Candidate>): Direction
    requires reps != []
  {
    Best(ByVotes(reps), Unique(Map(DIRECTION_OF, reps)))
  }

  lemma ChampionWins(items: seq<Candidate>, cluster: string)
    ensures var c := Champion(items)(cluster);
            && (c.Some? <==> exists x :: x in items && x.clusterId == cluster)
            && (c.Some? ==> c.value in items && c.value.clusterId == cluster
                            && forall y :: y in items && y.clusterId == cluster ==> BY_CONFIDENCE(c.value, y))
  {
    var members := Where(InCluster(cluster), items);
    WhereMembers(InCluster(cluster), items);
    OrdersAreTotal();
    if members == [] {
      forall x | x in items ensures x.clusterId != cluster { assert x !in members; }
    } else {
      BestIsGreatest(BY_CONFIDENCE, members);
    }
  }

  lemma OrdersAreTotal()
    ensures TotalPreorder(BY_WORKER) && TotalPreorder(BY_CONFIDENCE)
    ensures TotalPreorder(BY_CONFIDENCE_THEN_SCORE) && TotalPreorder(BY_SCORE_THEN_CONFIDENCE)
  {
    LtIsStrictTotalOrder();
  }

  /** Candidates that tie in one of the orders come from the same worker. */
  lemma TiesShareWorker(a: Candidate, b: Candidate, atLeast: (Candidate, Candidate) -> bool)
    requires IsOrder(atLeast) && atLeast(a, b) && atLeast(b, a)
    ensures a.workerId == b.workerId
  {
    LeAntisymmetric(a.workerId, b.workerId);
  }

  ghost predicate DistinctWorkers(items: seq<Candidate>) {
    DistinctBy(WORKER_OF, items)
  }

  lemma SameWorkerSameCandidate(items: seq<Candidate>, a: Candidate, b: Candidate)
    requires DistinctWorkers(items) && a in items && b in items && a.workerId == b.workerId
    ensures a == b
  {
    var i :| 0 <= i < |items| && items[i] == a;
    var j :| 0 <= j < |items| && items[j] == b;
    assert WORKER_OF(items[i]) == WORKER_OF(items[j]);
  }

  /** A representative is a candidate that no other of its cluster exceeds. */
  lemma RepresentativesAreChampions(items: seq<Candidate>)
    requires DistinctWorkers(items)
    ensures forall r :: r in Representatives(items) <==>
              r in items && forall y :: y in items && y.clusterId == r.clusterId ==> BY_CONFIDENCE(r, y)
  {
    var clusters := Unique(Map(CLUSTER_OF, items));
    FilterMapMembers(Champion(items), clusters);
    forall r | r in Representatives(items)
      ensures r in items && forall y :: y in items && y.clusterId == r.clusterId ==> BY_CONFIDENCE(r, y)
    {
      var cluster :| cluster in clusters && Champion(items)(cluster) == Some(r);
      ChampionWins(items, cluster);
    }
    forall r | r in items && forall y :: y in items && y.clusterId == r.clusterId ==> BY_CONFIDENCE(r, y)
      ensures r in Representatives(items)
    {
      ChampionIsListed(items, r);
    }
  }

  lemma ChampionIsListed(items: seq<Candidate>, r: Candidate)
    requires DistinctWorkers(items) && r in items && forall y :: y in items && y.clusterId == r.clusterId ==> BY_CONFIDENCE(r, y)
    ensures r in Representatives(items)
  {
    ClusterIsListed(items, r);
    ChampionWins(items, r.clusterId);
    var c := Champion(items)(r.clusterId).value;
    TiesShareWorker(c, r, BY_CONFIDENCE);
    SameWorkerSameCandidate(items, c, r);
    FilterMapMembers(Champion(items), Unique(Map(CLUSTER_OF, items)));
  }

  lemma ClusterIsListed(items: seq<Candidate>, r: Candidate)
    requires r in items
    ensures r.clusterId in Unique(Map(CLUSTER_OF, items))
  {
    var i :| 0 <= i < |items| && items[i] == r;
    assert Map(CLUSTER_OF, items)[i] == r.clusterId;
    UniqueIsDistinct(Map(CLUSTER_OF, items));
    assert r.clusterId in Elements(Map(CLUSTER_OF, items));
  }

  lemma {:induction false} ChampionsAreDistinct(items: seq<Candidate>, clusters: seq<string>)
    requires Distinct(clusters)
    ensures Distinct(FilterMap(Champion(items), clusters))
    ensures forall r :: r in FilterMap(Champion(items), clusters) ==> r.clusterId in clusters
  {
    if clusters != [] {
      var init, last := clusters[..|clusters| - 1], clusters[|clusters| - 1];
      ChampionsAreDistinct(items, init);
      ChampionWins(items, last);
      assert clusters == init + [last] && last !in init;
      DistinctConcat(FilterMap(Champion(items), init), if Champion(items)(last).Some? then [Champion(items)(last).value] else []);
    }
  }

  lemma RepresentativesAreDistinct(items: seq<Candidate>)
    ensures Distinct(Representatives(items))
  {
    UniqueIsDistinct(Map(CLUSTER_OF, items));
    ChampionsAreDistinct(items, Unique(Map(CLUSTER_OF, items)));
  }

  lemma RepresentativesExist(items: seq<Candidate>)
    requires items != []
    ensures Representatives(items) != []
  {
    ClusterIsListed(items, items[0]);
    ChampionWins(items, items[0].clusterId);
    FilterMapMembers(Champion(items), Unique(Map(CLUSTER_OF, items)));
  }

  lemma DirectionIsListed(reps: seq<Candidate>, d: Direction)
    ensures d in Unique(Map(DIRECTION_OF, reps)) <==> Where(Predicting(d), reps) != []
  {
    UniqueIsDistinct(Map(DIRECTION_OF, reps));
    WhereMembers(Predicting(d), reps);
    assert d in Unique(Map(DIRECTION_OF, reps)) <==> d in Elements(Unique(Map(DIRECTION_OF, reps)));
    if d in Map(DIRECTION_OF, reps) {
      var i :| 0 <= i < |reps| && Map(DIRECTION_OF, reps)[i] == d;
      assert reps[i] in Where(Predicting(d), reps);
    }
    if Where(Predicting(d), reps) != [] {
      var c := Where(Predicting(d), reps)[0];
      assert c in Where(Predicting(d), reps);
      var i :| 0 <= i < |reps| && reps[i] == c;
      assert Map(DIRECTION_OF, reps)[i] == d;
    }
  }

  /** The three directions that the random baseline draws from. */
  function DrawnDirection(byte: nat): Direction {
    if byte % 3 == 0 then UP else if byte % 3 == 1 then DOWN else FLAT
  }

  /** The candidate that a method picks for a case; `digest` is the first byte of the hash of a case identifier. */
  function Select(m: Method, items: seq<Candidate>, digest: string -> nat): Candidate
    requires items != []
  {
    match m
    case SingleLuna => Best(BY_WORKER, items)
    case BestOfN =>
      RepresentativesExist(items);
      Best(BY_CONFIDENCE_THEN_SCORE, Representatives(items))
    case MajorityVote =>
      RepresentativesExist(items);
      var reps := Representatives(items);
      DirectionIsListed(reps, MajorityDirection(reps));
      Best(BY_CONFIDENCE, Where(Predicting(MajorityDirection(reps)), reps))
    case Swarm => Best(BY_SCORE_THEN_CONFIDENCE, items)
    case RandomBaseline =>
      var template := Best(BY_WORKER, items);
      Candidate(
        template.caseId, "random-baseline", DrawnDirection(digest(items[0].caseId)), 1.0 / 3.0, 0.0, "random", template.realized,
        0.0, 0.0, 0, None)
  }
}
