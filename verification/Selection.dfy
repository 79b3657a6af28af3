/** Choosing what a worker gets to observe, with capacity reserved for disagreement. */
module Selection {
  import opened Schema
  import opened Ordering
  import opened Provenance
  import opened Clusters
  import opened Votes

  type Quality = map<Id, real>

  function Score(quality: Quality, a: Artifact): real {
    if a.id in quality then quality[a.id] else 0.5
  }

  function CounterBit(a: Artifact): nat {
    if a.kind == COUNTER_EVIDENCE then 1 else 0
  }

  /** Comparison of the rank tuples: quality, confidence, being counter-evidence, identifier. */
  predicate RankAtLeast(quality: Quality, a: Artifact, b: Artifact) {
    || Score(quality, a) > Score(quality, b)
    || (Score(quality, a) == Score(quality, b) &&
        (|| a.confidence > b.confidence
         || (a.confidence == b.confidence &&
             (|| CounterBit(a) > CounterBit(b)
              || (CounterBit(a) == CounterBit(b) && Le(b.id, a.id))))))
  }

  function ByRank(quality: Quality): (Artifact, Artifact) -> bool {
    (a: Artifact, b: Artifact) => RankAtLeast(quality, a, b)
  }

  lemma RankIsTotalPreorder(quality: Quality)
    ensures TotalPreorder(ByRank(quality))
  {
    var rank := ByRank(quality);
    forall a: Artifact, b: Artifact ensures rank(a, b) || rank(b, a) {
      LtTotal(a.id, b.id);
    }
    forall a: Artifact, b: Artifact, c: Artifact | rank(a, b) && rank(b, c) ensures rank(a, c) {
      if Le(c.id, b.id) && Le(b.id, a.id) { LeTransitive(c.id, b.id, a.id); }
    }
  }

  /**
   * The tuple order in terms of the fields: no smaller quality, 0.5 where none is given; for equal quality no smaller
   * confidence; for both equal, counter-evidence if the other is; and for all three equal the identifier not smaller.
   */
  ghost predicate NotBelow(quality: Quality, a: Artifact, b: Artifact) {
    var q, r := if a.id in quality then quality[a.id] else 0.5, if b.id in quality then quality[b.id] else 0.5;
    && q >= r
    && (q == r ==> a.confidence >= b.confidence)
    && (q == r && a.confidence == b.confidence ==> (b.kind == COUNTER_EVIDENCE ==> a.kind == COUNTER_EVIDENCE))
    && (q == r && a.confidence == b.confidence && (a.kind == COUNTER_EVIDENCE <==> b.kind == COUNTER_EVIDENCE) ==>
          a.id == b.id || Lt(b.id, a.id))
  }

  lemma RankIsByFields(quality: Quality, a: Artifact, b: Artifact)
    ensures RankAtLeast(quality, a, b) <==> NotBelow(quality, a, b)
  {
  }

  /** Ties in rank occur only between artifacts with one identifier. */
  lemma RankTiesShareIdentifier(quality: Quality, a: Artifact, b: Artifact)
    requires RankAtLeast(quality, a, b) && RankAtLeast(quality, b, a)
    ensures a.id == b.id
  {
    LeAntisymmetric(a.id, b.id);
  }

  function DirectionCount(reps: seq<Artifact>, d: Direction): nat {
    if reps == [] then 0
    else (if reps[0].PredictedDirection() == Some(d) then 1 else 0) + DirectionCount(reps[1..], d)
  }

  ghost function Predictors(reps: set<Artifact>, d: Direction): set<Artifact> {
    set a | a in reps && a.PredictedDirection() == Some(d)
  }

  lemma OneMorePredictor(reps: set<Artifact>, a: Artifact, d: Direction)
    requires a !in reps
    ensures |Predictors(reps + {a}, d)| == |Predictors(reps, d)| + if a.PredictedDirection() == Some(d) then 1 else 0
  {
    assert Predictors(reps + {a}, d) == Predictors(reps, d) + if a.PredictedDirection() == Some(d) then {a} else {};
  }

  lemma {:induction false} DirectionCountCountsPredictors(reps: seq<Artifact>, d: Direction)
    requires Distinct(reps)
    ensures DirectionCount(reps, d) == |Predictors(Elements(reps), d)|
  {
    if reps != [] {
      DirectionCountCountsPredictors(reps[1..], d);
      assert reps == [reps[0]] + reps[1..] && reps[0] !in reps[1..];
      ElementsOfConcat([reps[0]], reps[1..]);
      assert Elements(reps) == Elements(reps[1..]) + {reps[0]};
      OneMorePredictor(Elements(reps[1..]), reps[0], d);
    }
  }

  /** `max` of two directions by count, then by name. */
  function MoreCommon(count: Direction -> nat, d: Direction, e: Direction): Direction {
    if count(d) > count(e) then d
    else if count(d) < count(e) then e
    else if d.Rank() > e.Rank() then d else e
  }

  /** The direction most representatives predict; NO_SIGNAL is not counted. */
  function MajorityDirection(count: Direction -> nat): (r: Option<Direction>)
    ensures r.Some? ==> r.value != NO_SIGNAL && count(r.value) > 0
    ensures r.Some? ==> forall d :: d != NO_SIGNAL ==>
              count(d) < count(r.value) || (count(d) == count(r.value) && d.Rank() <= r.value.Rank())
    ensures r.None? <==> forall d :: d != NO_SIGNAL ==> count(d) == 0
  {
    var top := MoreCommon(count, DOWN, MoreCommon(count, FLAT, UP));
    assert forall d: Direction {:trigger count(d)} :: d == DOWN || d == FLAT || d == NO_SIGNAL || d == UP;
    if count(top) == 0 then None else Some(top)
  }

  /** Counter-evidence, or a prediction that departs from the majority direction. */
  predicate InMinority(a: Artifact, majority: Option<Direction>) {
    a.kind == COUNTER_EVIDENCE || (a.PredictedDirection().Some? && a.PredictedDirection() != majority)
  }

  function MinorityOf(reps: seq<Artifact>, majority: Option<Direction>): (r: seq<Artifact>)
    ensures forall a :: a in r <==> a in reps && InMinority(a, majority)
    ensures |r| <= |reps|
  {
    if reps == [] then []
    else (if InMinority(reps[0], majority) then [reps[0]] else []) + MinorityOf(reps[1..], majority)
  }

  function Min(a: int, b: int): int {
    if a < b then a else b
  }

  function Max(a: int, b: int): int {
    if a > b then a else b
  }

  function Ceil(x: real): int {
    -((-x).Floor)
  }

  lemma ReserveFits(limit: nat, fraction: real)
    requires limit >= 1 && 0.0 <= fraction <= 0.5
    ensures 0 <= Ceil(limit as real * fraction) <= limit
  {
    var x := limit as real * fraction;
    assert 0.0 <= x <= limit as real * 0.5;
  }

  /** Extends a selection up to the limit. */
  function TopUp<T>(chosen: seq<T>, more: seq<T>, limit: nat): (r: seq<T>)
    requires |chosen| <= limit
    ensures |r| == Min(limit, |chosen| + |more|)
    ensures r == chosen + more[..|r| - |chosen|]
  {
    if |chosen| < limit then chosen + more[..Min(|more|, limit - |chosen|)] else chosen
  }

  /** The representatives that get a slot: reserved minority, majority, rest of the minority. */
  function RankedSlots<T(==,!new)>(minority: seq<T>, majority: seq<T>, limit: nat, reserve: nat): (r: seq<T>)
    requires reserve <= |minority| && reserve <= limit
    ensures |r| <= limit
  {
    var second := TopUp(minority[..reserve], majority, limit);
    TopUp(second, Without(minority[reserve..], second), limit)
  }

  /** The fill order: reserved minority, majority, rest of the minority, then duplicates of covered clusters. */
  function FillSlots<T(==,!new)>(
    minority: seq<T>, majority: seq<T>, items: seq<T>, limit: nat, reserve: nat, rank: (T, T) -> bool): seq<T>
    requires reserve <= |minority| && reserve <= limit
  {
    var third := RankedSlots(minority, majority, limit, reserve);
    TopUp(third, SortBy(rank, Without(items, third)), limit)
  }

  lemma {:induction false} WithoutStrangers<T(!new)>(s: seq<T>, t: seq<T>)
    requires forall x :: x in s ==> x !in t
    ensures Without(s, t) == s
  {
    if s != [] {
      assert s[0] in s;
      assert forall x :: x in s[1..] ==> x in s;
      WithoutStrangers(s[1..], t);
    }
  }

  /** How many minority and majority representatives get a slot. */
  function MajorityShare(minority: nat, majority: nat, limit: nat, reserve: nat): nat
    requires reserve <= limit
  {
    Min(majority, limit - reserve)
  }

  function MinorityShare(minority: nat, majority: nat, limit: nat, reserve: nat): nat
    requires reserve <= minority && reserve <= limit
  {
    Min(minority, limit - MajorityShare(minority, majority, limit, reserve))
  }

  lemma SharesWhenFew(minority: nat, majority: nat, limit: nat, reserve: nat)
    requires reserve <= minority && minority + majority <= limit
    ensures MajorityShare(minority, majority, limit, reserve) == majority
    ensures MinorityShare(minority, majority, limit, reserve) == minority
  {
  }

  /** The slots that go to representatives: a prefix of each ranking. */
  ghost function Prefixes<T>(minority: seq<T>, majority: seq<T>, limit: nat, reserve: nat): seq<T>
    requires reserve <= |minority| && reserve <= limit
  {
    var m := MinorityShare(|minority|, |majority|, limit, reserve);
    var j := MajorityShare(|minority|, |majority|, limit, reserve);
    minority[..reserve] + majority[..j] + minority[reserve..m]
  }

  ghost predicate PaddedFrom<T>(selected: seq<T>, chosen: seq<T>, others: seq<T>, limit: nat) {
    && |chosen| <= limit <= |chosen| + |others|
    && selected == chosen + others[..limit - |chosen|]
    && Distinct(selected)
  }

  /** What is chosen: the prefixes, and then the best of the other items. */
  ghost predicate TakesPrefixes<T(!new)>(
    selected: seq<T>, minority: seq<T>, majority: seq<T>, items: seq<T>, limit: nat, reserve: nat, rank: (T, T) -> bool)
    requires reserve <= |minority| && reserve <= limit
  {
    var chosen := Prefixes(minority, majority, limit, reserve);
    PaddedFrom(selected, chosen, SortBy(rank, Without(items, chosen)), limit)
  }

  lemma UnreservedIsUnchosen<T(!new)>(minority: seq<T>, majority: seq<T>, reserve: nat, j: nat)
    requires Distinct(minority + majority) && reserve <= |minority| && j <= |majority|
    ensures Without(minority[reserve..], minority[..reserve] + majority[..j]) == minority[reserve..]
  {
    var all := minority + majority;
    forall a | a in minority[reserve..] ensures a !in minority[..reserve] + majority[..j] {
      var i :| reserve <= i < |minority| && a == minority[i];
      assert all[i] == a;
      forall k | 0 <= k < reserve ensures minority[k] != a { assert all[k] != all[i]; }
      forall k | 0 <= k < j ensures majority[k] != a { assert all[i] != all[|minority| + k]; }
    }
    WithoutStrangers(minority[reserve..], minority[..reserve] + majority[..j]);
  }

  lemma DuplicatesSuffice<T(!new)>(chosen: seq<T>, items: seq<T>, rank: (T, T) -> bool, k: nat)
    requires Distinct(items) && Distinct(chosen) && (forall a :: a in chosen ==> a in items)
    requires |chosen| + k <= |items|
    ensures var duplicates := SortBy(rank, Without(items, chosen));
            k <= |duplicates| && Distinct(chosen + duplicates[..k])
  {
    var duplicates := SortBy(rank, Without(items, chosen));
    WithoutSize(items, chosen);
    WithoutKeepsDistinct(items, chosen);
    DistinctIsCanonical(Without(items, chosen), duplicates);
    MembersOfEqualMultisets(Without(items, chosen), duplicates);
    DistinctConcat(chosen, duplicates[..k]);
  }

  lemma FillSlotsTakesPrefixes<T(!new)>(
    minority: seq<T>, majority: seq<T>, items: seq<T>, limit: nat, reserve: nat,
    rank: (T, T) -> bool)
    requires reserve <= |minority| && reserve <= limit <= |items|
    requires Distinct(items) && Distinct(minority + majority)
    requires forall a :: a in minority + majority ==> a in items
    ensures TakesPrefixes(FillSlots(minority, majority, items, limit, reserve, rank), minority, majority, items, limit, reserve, rank)
  {
    var m := MinorityShare(|minority|, |majority|, limit, reserve);
    var j := MajorityShare(|minority|, |majority|, limit, reserve);
    var chosen := Prefixes(minority, majority, limit, reserve);
    RankedSlotsArePrefixes(minority, majority, limit, reserve, j, m);
    ChosenAreDistinct(minority, majority, reserve, j, m);
    ChosenAreRanked(minority, majority, reserve, j, m);
    DuplicatesSuffice(chosen, items, rank, limit - |chosen|);
    PaddingIsExact(chosen, SortBy(rank, Without(items, chosen)), limit);
  }

  lemma PaddingIsExact<T>(chosen: seq<T>, others: seq<T>, limit: nat)
    requires |chosen| <= limit <= |chosen| + |others| && Distinct(chosen + others[..limit - |chosen|])
    ensures PaddedFrom(TopUp(chosen, others, limit), chosen, others, limit)
  {
    TopUpExactly(chosen, others, limit, limit - |chosen|);
  }

  lemma TopUpExactly<T>(chosen: seq<T>, more: seq<T>, limit: nat, k: nat)
    requires |chosen| + k == limit && k <= |more|
    ensures TopUp(chosen, more, limit) == chosen + more[..k]
  {
  }

  lemma ChosenAreRanked<T>(minority: seq<T>, majority: seq<T>, reserve: nat, j: nat, m: nat)
    requires reserve <= m <= |minority| && j <= |majority|
    ensures forall a :: a in minority[..reserve] + majority[..j] + minority[reserve..m] ==> a in minority + majority
  {
  }

  /** The slots filled before any duplicate is considered. */
  lemma RankedSlotsArePrefixes<T(!new)>(minority: seq<T>, majority: seq<T>, limit: nat, reserve: nat, j: nat, m: nat)
    requires reserve <= |minority| && reserve <= limit && Distinct(minority + majority)
    requires j == MajorityShare(|minority|, |majority|, limit, reserve) && m == MinorityShare(|minority|, |majority|, limit, reserve)
    ensures RankedSlots(minority, majority, limit, reserve) == minority[..reserve] + majority[..j] + minority[reserve..m]
  {
    var second := TopUp(minority[..reserve], majority, limit);
    assert second == minority[..reserve] + majority[..j];
    UnreservedIsUnchosen(minority, majority, reserve, j);
    assert minority[reserve..][..m - reserve] == minority[reserve..m];
  }

  lemma ChosenAreDistinct<T(!new)>(minority: seq<T>, majority: seq<T>, reserve: nat, j: nat, m: nat)
    requires Distinct(minority + majority) && reserve <= m <= |minority| && j <= |majority|
    ensures Distinct(minority[..reserve] + majority[..j] + minority[reserve..m])
  {
    var all := minority + majority;
    var s := minority[..reserve] + majority[..j] + minority[reserve..m];
    var at := i => if i < reserve then i else if i < reserve + j then |minority| + i - reserve else i - j;
    assert forall i :: 0 <= i < |s| ==> s[i] == all[at(i)];
    forall i, k | 0 <= i < k < |s| ensures s[i] != s[k] {
      assert at(i) < at(k) || at(k) < at(i);
      assert all[at(i)] != all[at(k)];
    }
  }

  lemma {:induction false} WithoutSameElements<T(!new)>(s: seq<T>, t: seq<T>, u: seq<T>)
    requires Elements(t) == Elements(u)
    ensures Without(s, t) == Without(s, u)
  {
    if s != [] {
      assert s[0] in t <==> s[0] in Elements(t);
      assert s[0] in u <==> s[0] in Elements(u);
      WithoutSameElements(s[1..], t, u);
    }
  }

  lemma ElementsOfConcat<T>(s: seq<T>, t: seq<T>)
    ensures Elements(s + t) == Elements(s) + Elements(t)
  {
  }

  lemma ChosenElements<T>(minority: seq<T>, majority: seq<T>, reserve: nat, j: nat, m: nat)
    requires reserve <= m <= |minority| && j <= |majority|
    ensures Elements(minority[..reserve] + majority[..j] + minority[reserve..m])
         == Elements(minority[..m]) + Elements(majority[..j])
  {
    assert minority[..m] == minority[..reserve] + minority[reserve..m];
    ElementsOfConcat(minority[..reserve], minority[reserve..m]);
    ElementsOfConcat(minority[..reserve] + majority[..j], minority[reserve..m]);
    ElementsOfConcat(minority[..reserve], majority[..j]);
  }

  /** When the ranked lists do not suffice, everything in them is taken, and then the best of the other items. */
  lemma EveryRankedIsTaken<T(!new)>(
    selected: seq<T>, minority: seq<T>, majority: seq<T>, items: seq<T>, limit: nat, reserve: nat, rank: (T, T) -> bool)
    requires reserve <= |minority| && |minority| + |majority| <= limit && reserve <= limit
    requires TakesPrefixes(selected, minority, majority, items, limit, reserve, rank)
    ensures var others := SortBy(rank, Without(items, minority + majority));
            var k := limit - |minority| - |majority|;
            k <= |others| && Elements(selected) == Elements(minority) + Elements(majority) + Elements(others[..k])
  {
    var m, j := |minority|, |majority|;
    var chosen := minority[..reserve] + majority[..j] + minority[reserve..m];
    SharesWhenFew(m, j, limit, reserve);
    ChosenElements(minority, majority, reserve, j, m);
    assert minority[..m] == minority && majority[..j] == majority;
    ElementsOfConcat(minority, majority);
    WithoutSameElements(items, chosen, minority + majority);
    ElementsOfConcat(chosen, SortBy(rank, Without(items, chosen))[..limit - m - j]);
  }

  /** When they suffice, a prefix of each is taken: the majority gets what the reserve leaves. */
  lemma OnlyRankedAreTaken<T(!new)>(
    selected: seq<T>, minority: seq<T>, majority: seq<T>, items: seq<T>, limit: nat, reserve: nat, rank: (T, T) -> bool)
    requires reserve <= |minority| && |minority| + |majority| >= limit && reserve <= limit
    requires TakesPrefixes(selected, minority, majority, items, limit, reserve, rank)
    ensures Elements(selected) == Elements(minority[..Max(reserve, limit - |majority|)])
                                + Elements(majority[..Min(|majority|, limit - reserve)])
  {
    var m := MinorityShare(|minority|, |majority|, limit, reserve);
    var j := MajorityShare(|minority|, |majority|, limit, reserve);
    assert m == Max(reserve, limit - |majority|);
    ChosenElements(minority, majority, reserve, j, m);
    var chosen := minority[..reserve] + majority[..j] + minority[reserve..m];
    assert selected == chosen;
  }

  lemma PrefixIsBest<T(!new)>(s: seq<T>, k: nat, rank: (T, T) -> bool, a: T, b: T)
    requires SortedBy(rank, s) && k <= |s| && a in s[..k] && b in s && b !in s[..k]
    ensures rank(a, b)
  {
    var i :| 0 <= i < k && s[i] == a;
    assert s == s[..k] + s[k..];
    var j :| 0 <= j < |s| - k && s[k..][j] == b;
    assert rank(s[i], s[k + j]);
  }

  /** The artifact that stands for its cluster: no member outranks it. */
  ghost predicate StandsForCluster(byId: Environment, src: SourceMap, quality: Quality, x: Id) {
    x in byId && x in src && forall y :: y in ClassOf(src, x) && y in byId ==> RankAtLeast(quality, byId[x], byId[y])
  }

  ghost function Representatives(byId: Environment, src: SourceMap, quality: Quality, classes: set<set<Id>>): set<Artifact> {
    set x | x in byId && StandsForCluster(byId, src, quality, x) && ClassOf(src, x) in classes :: byId[x]
  }

  lemma BestStandsForCluster(byId: Environment, src: SourceMap, quality: Quality, k: set<Id>, best: Artifact, x: Id)
    requires Keyed(byId) && byId.Keys == src.Keys && k in Classes(src)
    requires best.id in k && best.id in byId && byId[best.id] == best
    requires forall y :: y in k && y in byId ==> RankAtLeast(quality, best, byId[y])
    ensures x in byId && StandsForCluster(byId, src, quality, x) && ClassOf(src, x) == k <==> x == best.id
  {
    var a :| a in src && k == ClassOf(src, a);
    LinkedArtifactsHaveOneClass(src, a, best.id);
    if x in byId && StandsForCluster(byId, src, quality, x) && ClassOf(src, x) == k {
      SameClusterIsEquivalence(src, x, x, x);
      assert x in k;
      RankTiesShareIdentifier(quality, byId[x], best);
    }
  }

  /** Each cluster has exactly one representative, so as many representatives as clusters. */
  lemma OneMoreRepresentative(
    byId: Environment, src: SourceMap, quality: Quality, classes: set<set<Id>>, k: set<Id>, best: Artifact)
    requires Keyed(byId) && byId.Keys == src.Keys && k in Classes(src) && k !in classes
    requires best.id in k && best.id in byId && byId[best.id] == best
    requires forall y :: y in k && y in byId ==> RankAtLeast(quality, best, byId[y])
    ensures Representatives(byId, src, quality, classes + {k}) == Representatives(byId, src, quality, classes) + {best}
    ensures best !in Representatives(byId, src, quality, classes)
  {
    forall x ensures x in byId && StandsForCluster(byId, src, quality, x) && ClassOf(src, x) == k <==> x == best.id {
      BestStandsForCluster(byId, src, quality, k, best, x);
    }
  }

  function Lookup(byId: Environment, ids: seq<Id>): (r: seq<Artifact>)
    requires forall x :: x in ids ==> x in byId
    ensures |r| == |ids| && forall i :: 0 <= i < |ids| ==> r[i] == byId[ids[i]]
  {
    seq(|ids|, i requires 0 <= i < |ids| => byId[ids[i]])
  }

  lemma ClusterMembersArePresent(
    clusters: seq<EvidenceCluster>, src: SourceMap, digest: seq<string> -> string, c: EvidenceCluster)
    requires IsClustering(clusters, src, digest) && c in clusters
    ensures Elements(c.artifactIds) in Classes(src) && c.artifactIds != []
    ensures forall y :: y in c.artifactIds ==> y in src
  {
    var x :| x in src.Keys && c == Record(src, digest)(x);
    ClassOfRecord(src, digest, c, x);
    SameClusterIsEquivalence(src, x, x, x);
    assert x in Elements(c.artifactIds);
    assert forall y :: y in c.artifactIds ==> y in Elements(c.artifactIds);
  }

  method BestMember(byId: Environment, ids: seq<Id>, quality: Quality) returns (best: Artifact)
    requires Keyed(byId) && ids != [] && forall y :: y in ids ==> y in byId
    ensures best.id in ids && byId[best.id] == best
    ensures forall y :: y in ids ==> RankAtLeast(quality, best, byId[y])
  {
    RankIsTotalPreorder(quality);
    var members := Lookup(byId, ids);
    var rank := ByRank(quality);
    best := MaxBy(rank, members);
    forall y | y in ids ensures RankAtLeast(quality, best, byId[y]) {
      var i :| 0 <= i < |ids| && ids[i] == y;
      assert rank(best, members[i]);
    }
  }

  method AddRepresentative(
    reps: seq<Artifact>, byId: Environment, ids: seq<Id>, ghost src: SourceMap, quality: Quality, ghost classes: set<set<Id>>)
    returns (more: seq<Artifact>)
    requires Keyed(byId) && byId.Keys == src.Keys && RepresentativesSoFar(reps, byId, src, quality, classes)
    requires Elements(ids) in Classes(src) && Elements(ids) !in classes && ids != [] && forall y :: y in ids ==> y in byId
    ensures RepresentativesSoFar(more, byId, src, quality, classes + {Elements(ids)})
  {
    var best := BestMember(byId, ids, quality);
    RepresentativesGrow(reps, byId, src, quality, classes, ids, best);
    more := reps + [best];
  }

  method AddClusterRepresentative(
    reps: seq<Artifact>, byId: Environment, clusters: seq<EvidenceCluster>, i: nat, ghost src: SourceMap, quality: Quality,
    ghost digest: seq<string> -> string)
    returns (more: seq<Artifact>)
    requires Keyed(byId) && byId.Keys == src.Keys && IsClustering(clusters, src, digest) && i < |clusters|
    requires RepresentativesSoFar(reps, byId, src, quality, ClassesListed(clusters[..i]))
    ensures RepresentativesSoFar(more, byId, src, quality, ClassesListed(clusters[..i + 1]))
  {
    ClusterMembersArePresent(clusters, src, digest, clusters[i]);
    NextRecordIsNewClass(clusters, src, digest, i);
    more := AddRepresentative(reps, byId, clusters[i].artifactIds, src, quality, ClassesListed(clusters[..i]));
  }

  /** The best-ranked member of each cluster. */
  method ClusterRepresentatives(
    byId: Environment, clusters: seq<EvidenceCluster>, ghost src: SourceMap, quality: Quality, ghost digest: seq<string> -> string)
    returns (reps: seq<Artifact>)
    requires Keyed(byId) && byId.Keys == src.Keys && IsClustering(clusters, src, digest)
    ensures RepresentativesSoFar(reps, byId, src, quality, Classes(src))
    ensures Elements(reps) == BestOfClusters(byId, src, quality)
  {
    reps := [];
    assert clusters[..0] == [];
    for i := 0 to |clusters|
      invariant RepresentativesSoFar(reps, byId, src, quality, ClassesListed(clusters[..i]))
    {
      reps := AddClusterRepresentative(reps, byId, clusters, i, src, quality, digest);
    }
    assert clusters[..|clusters|] == clusters;
    RecordsStandForClasses(clusters, src, digest);
    RepresentativesAreBest(byId, src, quality);
  }

  ghost predicate RepresentativesSoFar(
    reps: seq<Artifact>, byId: Environment, src: SourceMap, quality: Quality, classes: set<set<Id>>) {
    Distinct(reps) && |reps| == |classes| && Elements(reps) == Representatives(byId, src, quality, classes)
  }

  lemma RepresentativesGrow(
    reps: seq<Artifact>, byId: Environment, src: SourceMap, quality: Quality, classes: set<set<Id>>, ids: seq<Id>, best: Artifact)
    requires Keyed(byId) && byId.Keys == src.Keys && RepresentativesSoFar(reps, byId, src, quality, classes)
    requires Elements(ids) in Classes(src) && Elements(ids) !in classes && forall y :: y in ids ==> y in byId
    requires best.id in ids && byId[best.id] == best && forall y :: y in ids ==> RankAtLeast(quality, best, byId[y])
    ensures RepresentativesSoFar(reps + [best], byId, src, quality, classes + {Elements(ids)})
  {
    OneMoreRepresentative(byId, src, quality, classes, Elements(ids), best);
    assert best !in Elements(reps);
    DistinctConcat(reps, [best]);
    ElementsOfConcat(reps, [best]);
  }

  ghost function MinoritySet(reps: set<Artifact>): set<Artifact> {
    set a | a in reps && InMinority(a, MajorityDirection(d => |Predictors(reps, d)|))
  }

  /** Of a pool, the selection takes the best-ranked. */
  ghost predicate TakesBest(pool: set<Artifact>, selected: set<Artifact>, quality: Quality) {
    forall a, b :: a in pool && a in selected && b in pool && b !in selected ==> RankAtLeast(quality, a, b)
  }

  /**
   * What observers get from a crowded environment: exactly `limit` artifacts; every cluster represented before any
   * cluster is represented twice; the disagreeing minority never below its reserve, and above it only for slots that
   * the majority cannot fill; within minority, majority and the rest, the best-ranked first.
   */
  ghost predicate FairSelection(
    selected: seq<Artifact>, items: set<Artifact>, limit: nat, fraction: real, reps: set<Artifact>, quality: Quality) {
    var minority := MinoritySet(reps);
    && |selected| == limit && Distinct(selected)
    && FairSets(Elements(selected), items, limit, Ceil(limit as real * fraction), minority, reps - minority, quality)
  }

  ghost predicate FairSets(
    chosen: set<Artifact>, items: set<Artifact>, limit: nat, reserve: int, minority: set<Artifact>, majority: set<Artifact>,
    quality: Quality) {
    && chosen <= items
    && (|minority + majority| <= limit ==> minority + majority <= chosen)
    && (|minority + majority| >= limit ==>
          && chosen <= minority + majority
          && |minority * chosen| == Max(Min(|minority|, reserve), limit - |majority|))
    && TakesBest(minority, chosen, quality) && TakesBest(majority, chosen, quality)
    && TakesBest(items - (minority + majority), chosen, quality)
  }

  lemma PrefixTakesBest(s: seq<Artifact>, k: nat, pool: set<Artifact>, selected: set<Artifact>, quality: Quality)
    requires SortedBy(ByRank(quality), s) && k <= |s| && Elements(s) == pool
    requires pool * selected == Elements(s[..k])
    ensures TakesBest(pool, selected, quality)
  {
    forall a, b | a in pool && a in selected && b in pool && b !in selected ensures RankAtLeast(quality, a, b) {
      assert a in pool * selected && b !in pool * selected;
      assert b in Elements(s) && a in Elements(s[..k]) && b !in Elements(s[..k]);
      PrefixIsBest(s, k, ByRank(quality), a, b);
    }
  }

  lemma DistinctPrefixSize<T(!new)>(s: seq<T>, k: nat)
    requires Distinct(s) && k <= |s|
    ensures |Elements(s[..k])| == k
  {
    DistinctSize(s[..k]);
  }

  /** Enough clusters: every slot goes to a different cluster. */
  lemma CrowdedSelectionIsFair(
    selected: seq<Artifact>, minority: seq<Artifact>, majority: seq<Artifact>, items: seq<Artifact>, limit: nat, fraction: real,
    quality: Quality)
    requires RankedSplit(minority, majority, items, quality)
    requires var reserve := Min(|minority|, Ceil(limit as real * fraction));
             0 <= reserve <= limit && TakesPrefixes(selected, minority, majority, items, limit, reserve, ByRank(quality))
    requires |minority| + |majority| >= limit
    ensures FairSelection(selected, Elements(items), limit, fraction, Elements(minority) + Elements(majority), quality)
  {
    var reserve := Min(|minority|, Ceil(limit as real * fraction));
    var m, j := Max(reserve, limit - |majority|), Min(|majority|, limit - reserve);
    OnlyRankedAreTaken(selected, minority, majority, items, limit, reserve, ByRank(quality));
    CrowdedSetsAreFair(Elements(selected), minority, majority, items, limit, Ceil(limit as real * fraction), m, j, quality);
    assert Elements(minority) + Elements(majority) - Elements(minority) == Elements(majority);
    assert |selected| == limit;
  }

  lemma CrowdedSetsAreFair(
    chosen: set<Artifact>, minority: seq<Artifact>, majority: seq<Artifact>, items: seq<Artifact>, limit: nat, reserve: int,
    m: nat, j: nat, quality: Quality)
    requires RankedSplit(minority, majority, items, quality) && |minority| + |majority| >= limit
    requires m == Max(Min(|minority|, reserve), limit - |majority|) && m <= |minority| && j <= |majority|
    requires m + j == limit && chosen == Elements(minority[..m]) + Elements(majority[..j])
    ensures FairSets(chosen, Elements(items), limit, reserve, Elements(minority), Elements(majority), quality)
  {
    PrefixElements(minority, m);
    PrefixElements(majority, j);
    assert Elements(minority) * chosen == Elements(minority[..m]);
    assert Elements(majority) * chosen == Elements(majority[..j]);
    PrefixTakesBest(minority, m, Elements(minority), chosen, quality);
    PrefixTakesBest(majority, j, Elements(majority), chosen, quality);
    DistinctPrefixSize(minority, m);
    SplitSizes(minority, majority);
    DistinctSize(minority);
    DistinctSize(majority);
    if |minority| + |majority| == limit {
      FullPrefix(minority, m);
      FullPrefix(majority, j);
    }
  }

  lemma FullPrefix<T>(s: seq<T>, k: nat)
    requires k == |s|
    ensures s[..k] == s
  {
  }

  lemma PrefixElements<T>(s: seq<T>, k: nat)
    requires k <= |s|
    ensures Elements(s[..k]) <= Elements(s)
  {
  }

  lemma SplitSizes<T>(s: seq<T>, t: seq<T>)
    requires Distinct(s) && Distinct(t) && Elements(s) !! Elements(t)
    ensures |Elements(s) + Elements(t)| == |s| + |t|
    ensures Elements(s) + Elements(t) - Elements(s) == Elements(t)
  {
    DistinctSize(s);
    DistinctSize(t);
  }

  /** Minority and majority representatives, each ranked. */
  ghost predicate RankedSplit(minority: seq<Artifact>, majority: seq<Artifact>, items: seq<Artifact>, quality: Quality) {
    && Distinct(minority) && Distinct(majority) && Elements(minority) !! Elements(majority)
    && SortedBy(ByRank(quality), minority) && SortedBy(ByRank(quality), majority)
    && Elements(minority) == MinoritySet(Elements(minority) + Elements(majority))
    && Elements(minority) + Elements(majority) <= Elements(items)
  }

  /** Few clusters: all are represented, and the best duplicates fill the rest. */
  lemma SparseSelectionIsFair(
    selected: seq<Artifact>, minority: seq<Artifact>, majority: seq<Artifact>, items: seq<Artifact>, limit: nat, fraction: real,
    quality: Quality)
    requires RankedSplit(minority, majority, items, quality)
    requires var reserve := Min(|minority|, Ceil(limit as real * fraction));
             0 <= reserve <= limit && TakesPrefixes(selected, minority, majority, items, limit, reserve, ByRank(quality))
    requires |minority| + |majority| < limit
    ensures FairSelection(selected, Elements(items), limit, fraction, Elements(minority) + Elements(majority), quality)
  {
    SparseFilling(selected, minority, majority, items, limit, Ceil(limit as real * fraction), quality);
    FairBySets(selected, Elements(items), limit, fraction, Elements(minority), Elements(majority), quality);
  }

  lemma SparseFilling(
    selected: seq<Artifact>, minority: seq<Artifact>, majority: seq<Artifact>, items: seq<Artifact>, limit: nat, share: int,
    quality: Quality)
    requires RankedSplit(minority, majority, items, quality) && |minority| + |majority| < limit
    requires var reserve := Min(|minority|, share);
             0 <= reserve <= limit && TakesPrefixes(selected, minority, majority, items, limit, reserve, ByRank(quality))
    ensures |selected| == limit && Distinct(selected)
    ensures FairSets(Elements(selected), Elements(items), limit, share, Elements(minority), Elements(majority), quality)
  {
    var k := limit - |minority| - |majority|;
    var others := SortBy(ByRank(quality), Without(items, minority + majority));
    EveryRankedIsTaken(selected, minority, majority, items, limit, Min(|minority|, share), ByRank(quality));
    OthersAreRanked(minority + majority, items, others, quality);
    ElementsOfConcat(minority, majority);
    SparseSetsAreFair(Elements(selected), minority, majority, others, Elements(items), limit, share, k, quality);
  }

  lemma FairBySets(
    selected: seq<Artifact>, items: set<Artifact>, limit: nat, fraction: real, minority: set<Artifact>, majority: set<Artifact>,
    quality: Quality)
    requires |selected| == limit && Distinct(selected) && minority !! majority && minority == MinoritySet(minority + majority)
    requires FairSets(Elements(selected), items, limit, Ceil(limit as real * fraction), minority, majority, quality)
    ensures FairSelection(selected, items, limit, fraction, minority + majority, quality)
  {
    assert minority + majority - minority == majority;
  }

  lemma OthersAreRanked(ranked: seq<Artifact>, items: seq<Artifact>, others: seq<Artifact>, quality: Quality)
    requires others == SortBy(ByRank(quality), Without(items, ranked))
    ensures SortedBy(ByRank(quality), others) && Elements(others) == Elements(items) - Elements(ranked)
  {
    RankIsTotalPreorder(quality);
    SortBySorts(ByRank(quality), Without(items, ranked));
    MembersOfEqualMultisets(Without(items, ranked), others);
  }

  lemma SparseSetsAreFair(
    chosen: set<Artifact>, minority: seq<Artifact>, majority: seq<Artifact>, others: seq<Artifact>, items: set<Artifact>, limit: nat,
    reserve: int, k: nat, quality: Quality)
    requires Distinct(minority) && Distinct(majority) && Elements(minority) !! Elements(majority)
    requires Elements(minority) + Elements(majority) <= items && |minority| + |majority| < limit
    requires SortedBy(ByRank(quality), others) && Elements(others) == items - (Elements(minority) + Elements(majority))
    requires k <= |others| && chosen == Elements(minority) + Elements(majority) + Elements(others[..k])
    ensures FairSets(chosen, items, limit, reserve, Elements(minority), Elements(majority), quality)
  {
    PrefixElements(others, k);
    assert Elements(others) * chosen == Elements(others[..k]);
    PrefixTakesBest(others, k, Elements(others), chosen, quality);
    SplitSizes(minority, majority);
  }

  lemma MajorityDependsOnCounts(c: Direction -> nat, e: Direction -> nat)
    requires forall d :: c(d) == e(d)
    ensures MajorityDirection(c) == MajorityDirection(e)
  {
  }

  lemma MinorityKeepsDistinct(reps: seq<Artifact>, m: Option<Direction>)
    requires Distinct(reps)
    ensures Distinct(MinorityOf(reps, m))
  {
    if reps != [] {
      MinorityKeepsDistinct(reps[1..], m);
      assert reps[0] !in reps[1..];
    }
  }

  lemma SortedListKeepsElements(s: seq<Artifact>, quality: Quality)
    requires Distinct(s)
    ensures var r := SortBy(ByRank(quality), s);
            Distinct(r) && SortedBy(ByRank(quality), r) && Elements(r) == Elements(s)
  {
    RankIsTotalPreorder(quality);
    SortBySorts(ByRank(quality), s);
    DistinctIsCanonical(s, SortBy(ByRank(quality), s));
    MembersOfEqualMultisets(s, SortBy(ByRank(quality), s));
  }

  lemma MinorityListIsMinoritySet(reps: seq<Artifact>, m: Option<Direction>)
    requires Distinct(reps) && m == MajorityDirection(d => DirectionCount(reps, d))
    ensures Elements(MinorityOf(reps, m)) == MinoritySet(Elements(reps))
  {
    forall d ensures DirectionCount(reps, d) == |Predictors(Elements(reps), d)| {
      DirectionCountCountsPredictors(reps, d);
    }
    MajorityDependsOnCounts(d => DirectionCount(reps, d), d => |Predictors(Elements(reps), d)|);
  }

  /** Splits the representatives by the majority direction and ranks both parts. */
  method SplitByMajority(reps: seq<Artifact>, ghost items: seq<Artifact>, quality: Quality)
    returns (minority: seq<Artifact>, majority: seq<Artifact>)
    requires Distinct(reps) && Elements(reps) <= Elements(items)
    ensures RankedSplit(minority, majority, items, quality) && Elements(minority) + Elements(majority) == Elements(reps)
  {
    var majorityDirection := MajorityDirection(d => DirectionCount(reps, d));
    minority := MinorityOf(reps, majorityDirection);
    majority := Without(reps, minority);
    MinorityListIsMinoritySet(reps, majorityDirection);
    MinorityKeepsDistinct(reps, majorityDirection);
    WithoutKeepsDistinct(reps, minority);
    assert Elements(minority) + Elements(majority) == Elements(reps);
    assert Elements(minority) !! Elements(majority);
    SortedListKeepsElements(minority, quality);
    SortedListKeepsElements(majority, quality);
    minority := SortBy(ByRank(quality), minority);
    majority := SortBy(ByRank(quality), majority);
  }

  /** Fills the slots step by step, in the order that `FillSlots` gives in one expression. */
  method Fill(minority: seq<Artifact>, majority: seq<Artifact>, items: seq<Artifact>, limit: nat, fraction: real, quality: Quality)
    returns (selected: seq<Artifact>)
    requires limit >= 1 && 0.0 <= fraction <= 0.5
    ensures 0 <= Ceil(limit as real * fraction) <= limit
    ensures selected == FillSlots(minority, majority, items, limit, Min(|minority|, Ceil(limit as real * fraction)), ByRank(quality))
  {
    ReserveFits(limit, fraction);
    var reserve := Min(|minority|, Ceil(limit as real * fraction));
    selected := minority[..reserve];
    selected := TopUp(selected, majority, limit);
    selected := TopUp(selected, Without(minority[reserve..], selected), limit);
    selected := TopUp(selected, SortBy(ByRank(quality), Without(items, selected)), limit);
    selected := selected[..Min(|selected|, limit)];
  }

  lemma FilledSelectionIsFair(
    minority: seq<Artifact>, majority: seq<Artifact>, items: seq<Artifact>, limit: nat, fraction: real, quality: Quality)
    requires limit >= 1 && 0.0 <= fraction <= 0.5 && limit <= |items| && Distinct(items)
    requires RankedSplit(minority, majority, items, quality)
    ensures var reserve := Min(|minority|, Ceil(limit as real * fraction));
            0 <= reserve <= limit &&
            FairSelection(FillSlots(minority, majority, items, limit, reserve, ByRank(quality)), Elements(items), limit, fraction,
                          Elements(minority) + Elements(majority), quality)
  {
    ReserveFits(limit, fraction);
    var reserve := Min(|minority|, Ceil(limit as real * fraction));
    forall a | a in majority ensures a !in minority {
      assert a in Elements(majority);
    }
    DistinctConcat(minority, majority);
    forall a | a in minority + majority ensures a in items {
      assert a in Elements(minority) + Elements(majority);
    }
    FillSlotsTakesPrefixes(minority, majority, items, limit, reserve, ByRank(quality));
    var selected := FillSlots(minority, majority, items, limit, reserve, ByRank(quality));
    if |minority| + |majority| >= limit {
      CrowdedSelectionIsFair(selected, minority, majority, items, limit, fraction, quality);
    } else {
      SparseSelectionIsFair(selected, minority, majority, items, limit, fraction, quality);
    }
  }

  /** The slots are filled from the two ranked parts of the representatives, then from the other items. */
  ghost predicate FilledFrom(
    selected: seq<Artifact>, minority: seq<Artifact>, majority: seq<Artifact>, items: seq<Artifact>, reps: set<Artifact>, limit: nat,
    fraction: real, quality: Quality) {
    && RankedSplit(minority, majority, items, quality) && Elements(minority) + Elements(majority) == reps
    && 0 <= Ceil(limit as real * fraction) <= limit
    && selected == FillSlots(minority, majority, items, limit, Min(|minority|, Ceil(limit as real * fraction)), ByRank(quality))
  }

  const BY_ID: (Artifact, Artifact) -> bool := (a: Artifact, b: Artifact) => Le(a.id, b.id)

  lemma IdIsTotalPreorder()
    ensures TotalPreorder(BY_ID)
  {
    LtIsStrictTotalOrder();
  }

  ghost predicate DistinctIds(items: seq<Artifact>) {
    forall i, j :: 0 <= i < j < |items| ==> items[i].id != items[j].id
  }

  /** Select strong artifacts while reserving capacity for disagreement. */
  method SelectObservations(
    items: seq<Artifact>, limit: int, minorityFraction: real, quality: Quality, normalize: Normalizer,
    digest: seq<string> -> string)
    returns (r: Result<seq<Artifact>, string>)
    ensures r.Success? <==> limit >= 1 && 0.0 <= minorityFraction <= 0.5 && (|items| > limit ==> AllParse(items, normalize))
    ensures r.Success? && |items| <= limit ==> multiset(r.value) == multiset(items) && SortedBy(BY_ID, r.value)
    ensures r.Success? && |items| > limit ==>
              var byId := Index(items);
              var src := SourcesOf(byId, Returned(normalize));
              exists minority, majority ::
                FilledFrom(r.value, minority, majority, items, Representatives(byId, src, quality, Classes(src)), limit, minorityFraction, quality)
    ensures r.Success? && |items| > limit && DistinctIds(items) ==>
              var byId := Index(items);
              var src := SourcesOf(byId, Returned(normalize));
              && FairSelection(r.value, Elements(items), limit, minorityFraction,
                               Representatives(byId, src, quality, Classes(src)), quality)
              && FairByFields(r.value, Elements(items), limit, minorityFraction, byId, src, quality)
  {
    if limit < 1 { return Failure("limit must be positive"); }
    if !(0.0 <= minorityFraction <= 0.5) { return Failure("minority_fraction must be between 0 and 0.5"); }
    if |items| <= limit {
      IdIsTotalPreorder();
      SortBySorts(BY_ID, items);
      return Success(SortBy(BY_ID, items));
    }
    var byId := Index(items);
    ghost var src := SourcesOf(byId, Returned(normalize));
    var clustered := ClusterByEvidence(items, normalize, digest);
    if clustered.None? { return Failure("a source reference does not parse"); }
    var reps := ClusterRepresentatives(byId, clustered.value, src, quality, digest);
    RepresentativesAreInputs(items, src, quality);
    var minority, majority := SplitByMajority(reps, items, quality);
    var selected := Fill(minority, majority, items, limit, minorityFraction, quality);
    assert FilledFrom(
      selected, minority, majority, items, Representatives(byId, src, quality, Classes(src)), limit, minorityFraction, quality);
    if DistinctIds(items) {
      DistinctIdsMeanDistinct(items);
      FilledSelectionIsFair(minority, majority, items, limit, minorityFraction, quality);
      FairnessByFields(selected, Elements(items), limit, minorityFraction, byId, src, quality);
    }
    r := Success(selected);
  }

  /** For each cluster its best member. */
  ghost function BestOfClusters(byId: Environment, src: SourceMap, quality: Quality): set<Artifact> {
    set x | x in byId && x in src && (forall y :: y in byId && y in src && SameCluster(src, x, y) ==> NotBelow(quality, byId[x], byId[y])) ::
      byId[x]
  }

  ghost function Foretelling(reps: set<Artifact>, d: Direction): set<Artifact> {
    set a | a in reps && a.kind == PREDICTION && a.prediction.Some? && a.prediction.value.expectedDirection == d
  }

  /** The most frequent of three directions; among equals UP before FLAT before DOWN. */
  function Commonest(up: nat, flat: nat, down: nat): Direction {
    if up >= flat && up >= down then UP else if flat >= down then FLAT else DOWN
  }

  /** Counter-evidence, and predictions of a direction that is not the commonest one. */
  ghost function Dissenting(reps: set<Artifact>): set<Artifact> {
    set a | a in reps &&
      (|| a.kind == COUNTER_EVIDENCE
       || (a.kind == PREDICTION && a.prediction.Some?
           && a.prediction.value.expectedDirection
              != Commonest(|Foretelling(reps, UP)|, |Foretelling(reps, FLAT)|, |Foretelling(reps, DOWN)|)))
  }

  /** Whatever of a pool is chosen is not below what is not. */
  ghost predicate BestChosen(pool: set<Artifact>, chosen: set<Artifact>, quality: Quality) {
    forall a, b :: a in pool && a in chosen && b in pool && b !in chosen ==> NotBelow(quality, a, b)
  }

  /** The reserve is the fraction of the slots, rounded up. */
  ghost predicate IsReserve(reserve: nat, limit: nat, fraction: real) {
    limit as real * fraction <= reserve as real < limit as real * fraction + 1.0
  }

  /** The minority gets its reserve, as far as there is so much of it, and more only where the majority is too small. */
  ghost predicate ReserveKept(taken: nat, minority: nat, majority: nat, limit: nat, fraction: real) {
    exists reserve: nat :: IsReserve(reserve, limit, fraction) &&
      var least := if minority < reserve then minority else reserve;
      taken == if least < limit - majority then limit - majority else least
  }

  /** The fairness of a selection in terms of clusters, counts and the fields of the artifacts. */
  ghost predicate FairByFields(
    selected: seq<Artifact>, items: set<Artifact>, limit: nat, fraction: real, byId: Environment, src: SourceMap, quality: Quality)
  {
    FairOver(selected, items, limit, fraction, BestOfClusters(byId, src, quality), quality)
  }

  ghost predicate FairOver(
    selected: seq<Artifact>, items: set<Artifact>, limit: nat, fraction: real, reps: set<Artifact>, quality: Quality)
  {
    var minority, chosen := Dissenting(reps), Elements(selected);
    && |selected| == limit && Distinct(selected) && chosen <= items
    && (|reps| <= limit ==> reps <= chosen)
    && (|reps| >= limit ==>
          chosen <= reps && ReserveKept(|minority * chosen|, |minority|, |reps - minority|, limit, fraction))
    && BestChosen(minority, chosen, quality) && BestChosen(reps - minority, chosen, quality)
    && BestChosen(items - reps, chosen, quality)
  }

  lemma RepresentativesAreBest(byId: Environment, src: SourceMap, quality: Quality)
    requires byId.Keys == src.Keys
    ensures Representatives(byId, src, quality, Classes(src)) == BestOfClusters(byId, src, quality)
  {
    forall x | x in byId
      ensures StandsForCluster(byId, src, quality, x) <==>
              forall y :: y in byId && y in src && SameCluster(src, x, y) ==> NotBelow(quality, byId[x], byId[y])
    {
      forall y | y in byId ensures RankAtLeast(quality, byId[x], byId[y]) <==> NotBelow(quality, byId[x], byId[y]) {
        RankIsByFields(quality, byId[x], byId[y]);
      }
    }
  }

  lemma PredictorsForetell(reps: set<Artifact>, d: Direction)
    ensures Predictors(reps, d) == Foretelling(reps, d)
  {
  }

  lemma MajorityIsCommonest(count: Direction -> nat)
    ensures var m := MajorityDirection(count);
            && (m.Some? ==> m.value == Commonest(count(UP), count(FLAT), count(DOWN)))
            && (m.None? ==> count(UP) == count(FLAT) == count(DOWN) == 0)
  {
  }

  /** Without any direction to count, every prediction is of no signal, which is no commonest direction. */
  lemma MinorityDissents(reps: set<Artifact>)
    ensures MinoritySet(reps) == Dissenting(reps)
  {
    var count := d => |Predictors(reps, d)|;
    MajorityIsCommonest(count);
    PredictorsForetell(reps, UP);
    PredictorsForetell(reps, FLAT);
    PredictorsForetell(reps, DOWN);
    forall a | a in reps && a.PredictedDirection().Some? && a.PredictedDirection().value != NO_SIGNAL
      ensures MajorityDirection(count).Some?
    {
      var d := a.PredictedDirection().value;
      assert a in Predictors(reps, d);
      assert count(d) > 0;
    }
  }

  lemma BestIsChosen(pool: set<Artifact>, chosen: set<Artifact>, quality: Quality)
    requires TakesBest(pool, chosen, quality)
    ensures BestChosen(pool, chosen, quality)
  {
    forall a, b | a in pool && a in chosen && b in pool && b !in chosen ensures NotBelow(quality, a, b) {
      RankIsByFields(quality, a, b);
    }
  }

  lemma CeilRoundsUp(x: real)
    ensures x <= Ceil(x) as real < x + 1.0
  {
  }

  lemma ReserveIsKept(taken: nat, minority: nat, majority: nat, limit: nat, fraction: real)
    requires limit >= 1 && 0.0 <= fraction <= 0.5
    requires taken == Max(Min(minority, Ceil(limit as real * fraction)), limit - majority)
    ensures ReserveKept(taken, minority, majority, limit, fraction)
  {
    ReserveFits(limit, fraction);
    CeilRoundsUp(limit as real * fraction);
    assert IsReserve(Ceil(limit as real * fraction), limit, fraction);
  }

  lemma FairSetsByFields(
    chosen: set<Artifact>, items: set<Artifact>, limit: nat, fraction: real, minority: set<Artifact>, majority: set<Artifact>,
    quality: Quality)
    requires limit >= 1 && 0.0 <= fraction <= 0.5
    requires FairSets(chosen, items, limit, Ceil(limit as real * fraction), minority, majority, quality)
    ensures |minority + majority| >= limit ==> ReserveKept(|minority * chosen|, |minority|, |majority|, limit, fraction)
    ensures BestChosen(minority, chosen, quality) && BestChosen(majority, chosen, quality)
    ensures BestChosen(items - (minority + majority), chosen, quality)
  {
    BestIsChosen(minority, chosen, quality);
    BestIsChosen(majority, chosen, quality);
    BestIsChosen(items - (minority + majority), chosen, quality);
    if |minority + majority| >= limit { ReserveIsKept(|minority * chosen|, |minority|, |majority|, limit, fraction); }
  }

  lemma DissentingAreMembers(reps: set<Artifact>)
    ensures Dissenting(reps) + (reps - Dissenting(reps)) == reps
  {
  }

  /** What the fairness of a selection means for the fields of the artifacts. */
  lemma FairnessByFields(
    selected: seq<Artifact>, items: set<Artifact>, limit: nat, fraction: real, byId: Environment, src: SourceMap, quality: Quality)
    requires limit >= 1 && 0.0 <= fraction <= 0.5 && byId.Keys == src.Keys
    requires FairSelection(selected, items, limit, fraction, Representatives(byId, src, quality, Classes(src)), quality)
    ensures FairByFields(selected, items, limit, fraction, byId, src, quality)
  {
    RepresentativesAreBest(byId, src, quality);
    FairOverBest(selected, items, limit, fraction, BestOfClusters(byId, src, quality), quality);
  }

  lemma FairOverBest(
    selected: seq<Artifact>, items: set<Artifact>, limit: nat, fraction: real, reps: set<Artifact>, quality: Quality)
    requires limit >= 1 && 0.0 <= fraction <= 0.5 && FairSelection(selected, items, limit, fraction, reps, quality)
    ensures FairOver(selected, items, limit, fraction, reps, quality)
  {
    MinorityDissents(reps);
    DissentingAreMembers(reps);
    FairSetsByFields(Elements(selected), items, limit, fraction, Dissenting(reps), reps - Dissenting(reps), quality);
  }

  lemma RepresentativesAreInputs(items: seq<Artifact>, src: SourceMap, quality: Quality)
    ensures Representatives(Index(items), src, quality, Classes(src)) <= Elements(items)
  {
  }

  lemma DistinctIdsMeanDistinct(items: seq<Artifact>)
    requires DistinctIds(items)
    ensures Distinct(items)
  {
    forall i, j | 0 <= i < j < |items| ensures items[i] != items[j] {
      assert items[i].id != items[j].id;
    }
  }
}
