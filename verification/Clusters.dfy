/** Grouping artifacts whose evidence is not independent. */
module Clusters {
  import opened Schema
  import opened Ordering
  import opened Reachability
  import opened Provenance
  import opened DisjointSets

  datatype EvidenceCluster = EvidenceCluster(clusterId: string, artifactIds: seq<Id>, independentSourceRefs: seq<string>)

  /** The dictionary that keys artifacts by identifier; the last of several artifacts with one identifier wins. */
  function Index(items: seq<Artifact>): (byId: Environment)
    ensures Keyed(byId)
    ensures forall i :: 0 <= i < |items| ==> items[i].id in byId
    ensures forall k :: k in byId ==> byId[k] in items
  {
    if items == [] then map[]
    else
      var last := items[|items| - 1];
      Index(items[..|items| - 1])[last.id := last]
  }

  ghost function IdsOf(items: seq<Artifact>): set<Id> {
    set a | a in items :: a.id
  }

  lemma IdsOfNext(items: seq<Artifact>, i: nat)
    requires i < |items|
    ensures IdsOf(items[..i + 1]) == IdsOf(items[..i]) + {items[i].id}
    ensures items[i].id in IdsOf(items)
  {
    assert items[..i + 1] == items[..i] + [items[i]];
  }

  /** The root sources of every artifact. */
  type SourceMap = map<Id, set<string>>

  function SourcesOf(byId: Environment, norm: string -> string): SourceMap
    requires Keyed(byId)
  {
    map x | x in byId :: RootSources(byId[x], byId, norm, {})
  }

  /** Pairs of artifacts that share a root source. */
  ghost function Sharing(src: SourceMap): Edges<Id> {
    set a, b | a in src && b in src && SharesSource(src, a, b) :: (a, b)
  }

  /** The declarative meaning of a cluster: a chain of artifacts, each sharing a source with the next. */
  ghost predicate SameCluster(src: SourceMap, x: Id, y: Id) {
    Connected(Sharing(src), x, y)
  }

  ghost function ClassOf(src: SourceMap, x: Id): set<Id> {
    set y | y in src && SameCluster(src, x, y)
  }

  ghost function AllSources(src: SourceMap, ids: set<Id>): set<string>
    requires ids <= src.Keys
  {
    set x, s | x in ids && s in src[x] :: s
  }

  /** The cluster record that the declarative relation assigns to an artifact. */
  ghost function ClusterOf(src: SourceMap, digest: seq<string> -> string, x: Id): EvidenceCluster {
    var ids := SortedSet(ClassOf(src, x));
    var refs := SortedSet(AllSources(src, ClassOf(src, x)));
    EvidenceCluster("ecluster_" + digest(refs + ids), ids, refs)
  }

  const BY_CLUSTER_ID: (EvidenceCluster, EvidenceCluster) -> bool :=
    (a: EvidenceCluster, b: EvidenceCluster) => Le(a.clusterId, b.clusterId)

  lemma ClusterIdsArePreordered()
    ensures TotalPreorder(BY_CLUSTER_ID)
  {
    LtIsStrictTotalOrder();
  }

  ghost function Record(src: SourceMap, digest: seq<string> -> string): Id -> EvidenceCluster {
    (x: Id) => ClusterOf(src, digest, x)
  }

  /** Each cluster that the declarative relation defines is listed once, in the order of the cluster identifiers. */
  ghost predicate IsClustering(clusters: seq<EvidenceCluster>, src: SourceMap, digest: seq<string> -> string) {
    ListsImage(clusters, Record(src, digest), src.Keys) && SortedBy(BY_CLUSTER_ID, clusters)
  }

  lemma SortedRecordsListImage(output: seq<EvidenceCluster>, record: Id -> EvidenceCluster, representatives: set<Id>, all: set<Id>)
    requires ListsImage(output, record, representatives) && representatives <= all
    requires forall x {:trigger HasTwin(record, representatives, x)} :: x in all ==> HasTwin(record, representatives, x)
    ensures ListsImage(SortBy(BY_CLUSTER_ID, output), record, all) && SortedBy(BY_CLUSTER_ID, SortBy(BY_CLUSTER_ID, output))
  {
    ClusterIdsArePreordered();
    SortBySorts(BY_CLUSTER_ID, output);
    ListsSameImage(output, SortBy(BY_CLUSTER_ID, output), record, representatives, all);
  }

  /** The artifact `x` has been united with the owner of each of these sources. */
  ghost predicate Owned(sources: set<string>, x: Id, owner: map<string, Id>, unions: Edges<Id>) {
    forall s :: s in sources ==> s in owner && (owner[s], x) in unions
  }

  ghost predicate RestsOn(src: SourceMap, x: Id, s: string) {
    x in src && s in src[x]
  }

  ghost predicate SharesSource(src: SourceMap, a: Id, b: Id) {
    a in src && b in src && !(src[a] !! src[b])
  }

  /** After the artifacts in `seen`, and the sources `part` of `id`, have been united with their owners. */
  ghost predicate OwnersUnited(src: SourceMap, seen: set<Id>, id: Id, part: set<string>, owner: map<string, Id>, unions: Edges<Id>) {
    && (forall a, b {:trigger SharesSource(src, a, b)} :: (a, b) in unions ==> SharesSource(src, a, b))
    && (forall s {:trigger RestsOn(src, owner[s], s)} :: s in owner ==> RestsOn(src, owner[s], s))
    && (forall z :: z in seen ==> z in src && Owned(src[z], z, owner, unions))
    && Owned(part, id, owner, unions)
  }

  lemma OwnersStayUnited(
    src: SourceMap, seen: set<Id>, id: Id, part: set<string>, owner: map<string, Id>, unions: Edges<Id>, s: string, owner': map<string, Id>)
    requires OwnersUnited(src, seen, id, part, owner, unions) && id in src && s in src[id]
    requires owner' == if s in owner then owner else owner[s := id]
    ensures OwnersUnited(src, seen, id, part + {s}, owner', unions + {(owner'[s], id)})
  {
    assert RestsOn(src, owner'[s], s) && SharesSource(src, owner'[s], id);
  }

  lemma OwnersOfNextArtifact(src: SourceMap, seen: set<Id>, id: Id, owner: map<string, Id>, unions: Edges<Id>, next: Id)
    requires id in src && OwnersUnited(src, seen, id, src[id], owner, unions)
    ensures OwnersUnited(src, seen + {id}, next, {}, owner, unions)
  {
  }

  /** The members listed under each root found so far are exactly the visited identifiers with that root. */
  ghost predicate GroupedByRoot(groups: map<Id, seq<Id>>, done: set<Id>, root: map<Id, Id>) {
    && done <= root.Keys
    && (forall x :: x in done ==> root[x] in groups)
    && (forall r :: r in groups ==> r in root && root[r] == r && Distinct(groups[r]))
    && (forall r :: r in groups ==> Elements(groups[r]) == set x | x in done && root[x] == r)
  }

  lemma GroupsGrow(groups: map<Id, seq<Id>>, done: set<Id>, root: map<Id, Id>, x: Id)
    requires GroupedByRoot(groups, done, root) && x in root && x !in done
    requires root[x] in root && root[root[x]] == root[x]
    ensures var members := if root[x] in groups then groups[root[x]] else [];
            GroupedByRoot(groups[root[x] := members + [x]], done + {x}, root)
  {
    var r := root[x];
    var members := if r in groups then groups[r] else [];
    assert forall i :: 0 <= i < |members| ==> members[i] in Elements(members);
    assert Elements(members + [x]) == Elements(members) + {x};
    forall q | q in groups && q != r
      ensures Elements(groups[q]) == set y | y in done + {x} && root[y] == q
    {
      assert (set y | y in done + {x} && root[y] == q) == set y | y in done && root[y] == q;
    }
  }

  lemma OwnerLinksSharers(src: SourceMap, unions: Edges<Id>, owner: map<string, Id>, a: Id, b: Id)
    requires (a, b) in Sharing(src)
    requires forall z :: z in src ==> Owned(src[z], z, owner, unions)
    ensures Connected(unions, a, b)
  {
    var s :| s in src[a] && s in src[b];
    ConnectedEdge(unions, owner[s], a);
    ConnectedEdge(unions, owner[s], b);
    ConnectedTransitive(unions, a, owner[s], b);
  }

  /** Uniting every artifact with the first owner of each of its sources closes the sharing relation. */
  lemma OwnersCloseSharing(src: SourceMap, id: Id, owner: map<string, Id>, unions: Edges<Id>, x: Id, y: Id)
    requires OwnersUnited(src, src.Keys, id, {}, owner, unions)
    ensures Connected(unions, x, y) <==> SameCluster(src, x, y)
  {
    if Connected(unions, x, y) {
      forall e | e in unions ensures e in Sharing(src) {
        assert (e.0, e.1) in unions && SharesSource(src, e.0, e.1);
      }
      ConnectedMonotone(unions, Sharing(src), x, y);
    }
    if SameCluster(src, x, y) {
      forall a: Id, b: Id | (a, b) in Sharing(src) ensures Connected(unions, a, b) {
        OwnerLinksSharers(src, unions, owner, a, b);
      }
      ClosureIsLeast(Sharing(src), unions, x, y);
    }
  }

  /** Whether two artifacts are in one cluster is an equivalence on the artifacts present. */
  lemma SameClusterIsEquivalence(src: SourceMap, x: Id, y: Id, z: Id)
    ensures SameCluster(src, x, x)
    ensures SameCluster(src, x, y) ==> SameCluster(src, y, x)
    ensures SameCluster(src, x, y) && SameCluster(src, y, z) ==> SameCluster(src, x, z)
  {
    ConnectedReflexive(Sharing(src), x);
    if SameCluster(src, x, y) {
      ConnectedSymmetric(Sharing(src), x, y);
      if SameCluster(src, y, z) { ConnectedTransitive(Sharing(src), x, y, z); }
    }
  }

  lemma LinkedArtifactsHaveOneClass(src: SourceMap, x: Id, y: Id)
    requires SameCluster(src, x, y)
    ensures ClassOf(src, x) == ClassOf(src, y)
  {
    forall z | z in src ensures SameCluster(src, x, z) <==> SameCluster(src, y, z) {
      SameClusterIsEquivalence(src, x, y, z);
      SameClusterIsEquivalence(src, y, x, z);
    }
  }

  /** Two artifacts get the same cluster record exactly when the declarative relation links them. */
  lemma ClusterIffLinked(src: SourceMap, digest: seq<string> -> string, x: Id, y: Id)
    requires x in src && y in src
    ensures y in ClusterOf(src, digest, x).artifactIds <==> SameCluster(src, x, y)
    ensures ClusterOf(src, digest, x) == ClusterOf(src, digest, y) <==> SameCluster(src, x, y)
  {
    var cx, cy := ClusterOf(src, digest, x), ClusterOf(src, digest, y);
    assert y in cx.artifactIds <==> y in Elements(cx.artifactIds);
    assert y in cy.artifactIds <==> y in Elements(cy.artifactIds);
    SameClusterIsEquivalence(src, y, y, y);
    if SameCluster(src, x, y) {
      LinkedArtifactsHaveOneClass(src, x, y);
    }
  }

  lemma RecordIffLinked(src: SourceMap, digest: seq<string> -> string, record: Id -> EvidenceCluster, x: Id, y: Id)
    requires x in src && y in src && record == Record(src, digest)
    ensures record(x) == record(y) <==> SameCluster(src, x, y)
  {
    ClusterIffLinked(src, digest, x, y);
  }

  /** Different clusters rest on disjoint sources. */
  lemma DistinctClustersShareNoSource(src: SourceMap, digest: seq<string> -> string, x: Id, y: Id)
    requires x in src && y in src && !SameCluster(src, x, y)
    ensures Elements(ClusterOf(src, digest, x).independentSourceRefs)
         !! Elements(ClusterOf(src, digest, y).independentSourceRefs)
    ensures Elements(ClusterOf(src, digest, x).artifactIds) !! Elements(ClusterOf(src, digest, y).artifactIds)
  {
    forall a, b | a in ClassOf(src, x) && b in ClassOf(src, y)
      ensures src[a] !! src[b] && a != b
    {
      SameClusterIsEquivalence(src, y, b, y);
      if !(src[a] !! src[b]) {
        ConnectedEdge(Sharing(src), a, b);
        SameClusterIsEquivalence(src, x, a, b);
      }
      if SameCluster(src, x, b) {
        SameClusterIsEquivalence(src, x, b, y);
      }
    }
  }

  /** An artifact always lands in the cluster of each present artifact it descends from. */
  lemma ClustersWithEveryAncestor(byId: Environment, norm: string -> string, x: Id, y: Id)
    requires Keyed(byId) && x in byId && y in byId && byId[y].sourceRefs != []
    requires Reach(LineageEdges(byId), x, y)
    ensures SameCluster(SourcesOf(byId, norm), x, y)
  {
    var src := SourcesOf(byId, norm);
    var s := norm(byId[y].sourceRefs[0]);
    assert s in OwnSources(byId[y], norm);
    ReachReflexive(LineageEdges(byId), y);
    GuardLosesNothing(byId[x], byId, norm);
    GuardLosesNothing(byId[y], byId, norm);
    assert byId[x := byId[x]] == byId == byId[y := byId[y]];
    assert s in src[x] && s in src[y];
    ConnectedEdge(Sharing(src), x, y);
  }

  /** The clusters are a function of the artifacts alone: any two clusterings agree, up to the order of equal digests. */
  lemma ClusteringIsUnique(c: seq<EvidenceCluster>, d: seq<EvidenceCluster>, src: SourceMap, digest: seq<string> -> string)
    requires IsClustering(c, src, digest) && IsClustering(d, src, digest)
    ensures multiset(c) == multiset(d)
    ensures (forall i, j :: 0 <= i < j < |c| ==> c[i].clusterId != c[j].clusterId) ==> c == d
  {
    DistinctWithSameElements(c, d);
    if forall i, j :: 0 <= i < j < |c| ==> c[i].clusterId != c[j].clusterId {
      ClustersInOneOrder(c, d);
    }
  }

  lemma ClustersInOneOrder(c: seq<EvidenceCluster>, d: seq<EvidenceCluster>)
    requires SortedBy(BY_CLUSTER_ID, c) && SortedBy(BY_CLUSTER_ID, d) && multiset(c) == multiset(d)
    requires forall i, j :: 0 <= i < j < |c| ==> c[i].clusterId != c[j].clusterId
    ensures c == d
  {
    ClusterIdsArePreordered();
    forall a, b | a in c && b in c && BY_CLUSTER_ID(a, b) && BY_CLUSTER_ID(b, a) ensures a == b {
      LeAntisymmetric(a.clusterId, b.clusterId);
    }
    SortedSequencesAgree(BY_CLUSTER_ID, c, d);
  }

  /** Reordering the input leaves the indexed environment, hence the clusters, unchanged. */
  lemma IndexIgnoresOrder(items: seq<Artifact>, others: seq<Artifact>)
    requires multiset(items) == multiset(others)
    requires forall i, j :: 0 <= i < j < |items| ==> items[i].id != items[j].id
    ensures Index(items) == Index(others)
  {
    MembersOfEqualMultisets(items, others);
    forall k | k in Index(items) ensures k in Index(others) && Index(items)[k] == Index(others)[k] { SameEntry(items, others, k); }
    forall k | k in Index(others) ensures k in Index(items) { EntryExists(others, items, k); }
  }

  lemma EntryExists(items: seq<Artifact>, others: seq<Artifact>, k: Id)
    requires k in Index(items) && Index(items)[k] in others
    ensures k in Index(others)
  {
    var i :| 0 <= i < |others| && others[i] == Index(items)[k];
  }

  lemma SameEntry(items: seq<Artifact>, others: seq<Artifact>, k: Id)
    requires forall i, j :: 0 <= i < j < |items| ==> items[i].id != items[j].id
    requires forall a :: a in items <==> a in others
    requires k in Index(items)
    ensures k in Index(others) && Index(items)[k] == Index(others)[k]
  {
    EntryExists(items, others, k);
    OneArtifactPerId(items, Index(items)[k], Index(others)[k]);
  }

  lemma OneArtifactPerId(items: seq<Artifact>, a: Artifact, b: Artifact)
    requires forall i, j :: 0 <= i < j < |items| ==> items[i].id != items[j].id
    requires a in items && b in items && a.id == b.id
    ensures a == b
  {
    var i :| 0 <= i < |items| && items[i] == a;
    var j :| 0 <= j < |items| && items[j] == b;
  }

  /** The first owners of sources once `id` has taken those of its own that had none. */
  ghost predicate OwnersAfter(before: map<string, Id>, own: set<string>, id: Id, owner: map<string, Id>) {
    && owner.Keys == before.Keys + own
    && forall s :: s in owner ==> owner[s] == if s in before then before[s] else id
  }

  /** Each owner of one of these sources, with the artifact that shares it. */
  ghost function OwnerPairs(before: map<string, Id>, own: set<string>, id: Id): Edges<Id> {
    set s | s in own :: (if s in before then before[s] else id, id)
  }

  lemma OwnersAfterGrow(before: map<string, Id>, own: set<string>, id: Id, s: string, earlier: map<string, Id>, owner: map<string, Id>)
    requires OwnersAfter(before, own, id, earlier) && s !in own
    requires owner == if s in earlier then earlier else earlier[s := id]
    ensures OwnersAfter(before, own + {s}, id, owner) && owner[s] == if s in before then before[s] else id
  {
  }

  lemma OwnerPairsGrow(before: map<string, Id>, own: set<string>, id: Id, s: string)
    ensures OwnerPairs(before, own + {s}, id) == OwnerPairs(before, own, id) + {(if s in before then before[s] else id, id)}
  {
  }

  /** Unites one artifact with the first owner of each of its root sources. The set is visited in any order. */
  method UniteWithOwners(union: UnionFind, id: Id, sources: SourceMap, before: map<string, Id>, ghost seen: set<Id>)
    returns (owner: map<string, Id>)
    requires union.Valid() && union.parent.Keys == sources.Keys && id in sources
    requires OwnersUnited(sources, seen, "", {}, before, union.unions)
    modifies union
    ensures union.Valid() && union.parent.Keys == sources.Keys
    ensures OwnersUnited(sources, seen + {id}, "", {}, owner, union.unions)
    ensures OwnersAfter(before, sources[id], id, owner)
    ensures union.unions == old(union.unions) + OwnerPairs(before, sources[id], id)
  {
    owner := before;
    assert OwnerPairs(before, {}, id) == {} && OwnersAfter(before, {}, id, owner);
    var rest := sources[id];
    assert sources[id] - rest == {};
    while rest != {}
      invariant union.Valid() && union.parent.Keys == sources.Keys && rest <= sources[id]
      invariant OwnersUnited(sources, seen, id, sources[id] - rest, owner, union.unions)
      invariant OwnersAfter(before, sources[id] - rest, id, owner)
      invariant union.unions == old(union.unions) + OwnerPairs(before, sources[id] - rest, id)
    {
      var s :| s in rest;
      ghost var earlier := owner;
      if s !in owner { owner := owner[s := id]; }
      assert s in earlier ==> RestsOn(sources, earlier[s], s);
      OwnersStayUnited(sources, seen, id, sources[id] - rest, earlier, union.unions, s, owner);
      TakeOne(sources[id], rest, s);
      OwnersAfterGrow(before, sources[id] - rest, id, s, earlier, owner);
      OwnerPairsGrow(before, sources[id] - rest, id, s);
      union.Union(owner[s], id);
      rest := rest - {s};
    }
    assert sources[id] - rest == sources[id];
    OwnersOfNextArtifact(sources, seen, id, owner, union.unions, "");
  }

  method UniteByEvidence(items: seq<Artifact>, sources: SourceMap) returns (union: UnionFind)
    requires IdsOf(items) == sources.Keys
    ensures fresh(union) && union.Valid() && union.parent.Keys == sources.Keys
    ensures forall x, y :: Connected(union.unions, x, y) <==> SameCluster(sources, x, y)
  {
    union := new UnionFind(sources.Keys);
    var owner: map<string, Id> := map[];
    for i := 0 to |items|
      invariant union.Valid() && fresh(union) && union.parent.Keys == sources.Keys
      invariant OwnersUnited(sources, IdsOf(items[..i]), "", {}, owner, union.unions)
    {
      IdsOfNext(items, i);
      owner := UniteWithOwners(union, items[i].id, sources, owner, IdsOf(items[..i]));
    }
    assert items[..|items|] == items;
    forall x, y ensures Connected(union.unions, x, y) <==> SameCluster(sources, x, y) {
      OwnersCloseSharing(sources, "", owner, union.unions, x, y);
    }
  }

  ghost predicate LinkedToOne(src: SourceMap, representatives: set<Id>, x: Id) {
    exists r :: r in representatives && SameCluster(src, r, x)
  }

  /** Collects the identifiers under their roots. */
  method GroupByRoot(union: UnionFind, ghost src: SourceMap) returns (groups: map<Id, seq<Id>>)
    requires union.Valid() && union.parent.Keys == src.Keys
    requires forall x, y :: Connected(union.unions, x, y) <==> SameCluster(src, x, y)
    modifies union`parent
    ensures forall r :: r in groups ==> r in src && Distinct(groups[r]) && Elements(groups[r]) == ClassOf(src, r)
    ensures forall x {:trigger LinkedToOne(src, groups.Keys, x)} :: x in src ==> LinkedToOne(src, groups.Keys, x)
    ensures forall r, q :: r in groups && q in groups && r != q ==> !SameCluster(src, r, q)
  {
    groups := map[];
    var todo := union.parent.Keys;
    while todo != {}
      invariant union.Valid() && union.parent.Keys == src.Keys && todo <= src.Keys
      invariant union.root == old(union.root)
      invariant GroupedByRoot(groups, src.Keys - todo, union.root)
    {
      var x :| x in todo;
      var r := union.Find(x);
      GroupsGrow(groups, src.Keys - todo, union.root, x);
      TakeOne(src.Keys, todo, x);
      groups := groups[r := (if r in groups then groups[r] else []) + [x]];
      todo := todo - {x};
    }
    assert src.Keys - todo == src.Keys;
    GroupsAreClasses(groups, union.root, union.unions, src);
  }

  lemma GroupsAreClasses(groups: map<Id, seq<Id>>, root: map<Id, Id>, unions: Edges<Id>, src: SourceMap)
    requires root.Keys == src.Keys && LabelsAreClasses(root, unions) && GroupedByRoot(groups, src.Keys, root)
    requires forall x, y :: Connected(unions, x, y) <==> SameCluster(src, x, y)
    ensures forall r :: r in groups ==> r in src && Distinct(groups[r]) && Elements(groups[r]) == ClassOf(src, r)
    ensures forall x {:trigger LinkedToOne(src, groups.Keys, x)} :: x in src ==> LinkedToOne(src, groups.Keys, x)
    ensures forall r, q :: r in groups && q in groups && r != q ==> !SameCluster(src, r, q)
  {
    forall x {:trigger LinkedToOne(src, groups.Keys, x)} | x in src ensures LinkedToOne(src, groups.Keys, x) {
      assert root[x] in groups && Connected(unions, root[x], x);
    }
  }

  /** Turns each group into its cluster record. */
  method ListClusters(groups: map<Id, seq<Id>>, sources: SourceMap, digest: seq<string> -> string)
    returns (output: seq<EvidenceCluster>)
    requires forall r :: r in groups ==> r in sources && Distinct(groups[r]) && Elements(groups[r]) == ClassOf(sources, r)
    requires forall r, q :: r in groups && q in groups && r != q ==> !SameCluster(sources, r, q)
    ensures ListsImage(output, Record(sources, digest), groups.Keys)
  {
    ghost var record := Record(sources, digest);
    output := [];
    var todo := groups.Keys;
    while todo != {}
      invariant todo <= groups.Keys && ListsImage(output, record, groups.Keys - todo)
    {
      var r :| r in todo;
      var cluster := MakeCluster(groups[r], sources, digest, r);
      forall q | q in groups.Keys - todo ensures record(q) != record(r) {
        RecordIffLinked(sources, digest, record, r, q);
      }
      ListsImageGrows(output, record, groups.Keys - todo, r);
      TakeOne(groups.Keys, todo, r);
      output := output + [cluster];
      todo := todo - {r};
    }
    assert groups.Keys - todo == groups.Keys;
  }

  /** The dictionary of the artifacts so far, with the root sources of each. */
  ghost predicate SourcesCollected(sources: SourceMap, seen: Environment, byId: Environment, norm: string -> string)
    requires Keyed(byId)
  {
    sources.Keys == seen.Keys && forall x :: x in sources ==> sources[x] == RootSources(seen[x], byId, norm, {})
  }

  /** Starting from an input, the recursion raises only where some input has a reference that does not parse. */
  lemma RecursionStaysInside(items: seq<Artifact>, a: Artifact, normalize: Normalizer)
    requires a in items
    ensures TryRootSources(a, Index(items), normalize, {}).None? ==> !AllParse(items, normalize)
    ensures TryRootSources(a, Index(items), normalize, {}).Some? ==> Parses(a, normalize)
    ensures TryRootSources(a, Index(items), normalize, {}).Some? ==>
              TryRootSources(a, Index(items), normalize, {}).value == RootSources(a, Index(items), Returned(normalize), {})
  {
    RootSourcesAreReachableSources(a, Index(items), normalize);
    RaisesIffMarked(a, Index(items), normalize, {});
  }

  lemma OneMoreCollected(sources: SourceMap, seen: Environment, byId: Environment, norm: string -> string, a: Artifact)
    requires Keyed(byId) && SourcesCollected(sources, seen, byId, norm)
    ensures SourcesCollected(sources[a.id := RootSources(a, byId, norm, {})], seen[a.id := a], byId, norm)
  {
  }

  lemma AllCollected(sources: SourceMap, byId: Environment, norm: string -> string)
    requires Keyed(byId) && SourcesCollected(sources, byId, byId, norm)
    ensures sources == SourcesOf(byId, norm)
  {
  }

  lemma IndexOneMore(items: seq<Artifact>, i: nat)
    requires i < |items|
    ensures Index(items[..i + 1]) == Index(items[..i])[items[i].id := items[i]]
  {
    assert items[..i + 1][..i] == items[..i];
  }

  lemma AllParseOneMore(items: seq<Artifact>, i: nat, normalize: Normalizer)
    requires i < |items| && AllParse(items[..i], normalize) && Parses(items[i], normalize)
    ensures AllParse(items[..i + 1], normalize)
  {
  }

  /** The root sources of every artifact, unless a recursion raises. */
  method CollectSources(items: seq<Artifact>, byId: Environment, normalize: Normalizer) returns (r: Option<SourceMap>)
    requires byId == Index(items)
    ensures r.Some? <==> AllParse(items, normalize)
    ensures r.Some? ==> r.value == SourcesOf(byId, Returned(normalize))
  {
    ghost var norm := Returned(normalize);
    var sources: SourceMap := map[];
    for i := 0 to |items|
      invariant SourcesCollected(sources, Index(items[..i]), byId, norm) && AllParse(items[..i], normalize)
    {
      var found := TryRootSources(items[i], byId, normalize, {});
      RecursionStaysInside(items, items[i], normalize);
      if found.None? { return None; }
      OneMoreCollected(sources, Index(items[..i]), byId, norm, items[i]);
      IndexOneMore(items, i);
      AllParseOneMore(items, i, normalize);
      sources := sources[items[i].id := found.value];
    }
    assert items[..|items|] == items;
    AllCollected(sources, byId, norm);
    r := Some(sources);
  }

  /** The clusters of an artifact collection, sorted by cluster identifier, unless some reference does not parse. */
  method ClusterByEvidence(items: seq<Artifact>, normalize: Normalizer, digest: seq<string> -> string)
    returns (r: Option<seq<EvidenceCluster>>)
    ensures r.Some? <==> AllParse(items, normalize)
    ensures r.Some? ==> IsClustering(r.value, SourcesOf(Index(items), Returned(normalize)), digest)
  {
    var byId := Index(items);
    var collected := CollectSources(items, byId, normalize);
    if collected.None? { return None; }
    var sources := collected.value;
    assert IdsOf(items) == sources.Keys;
    var union := UniteByEvidence(items, sources);
    var groups := GroupByRoot(union, sources);
    var output := ListClusters(groups, sources, digest);
    var clusters := SortBy(BY_CLUSTER_ID, output);
    ghost var record := Record(sources, digest);
    forall x {:trigger HasTwin(record, groups.Keys, x)} | x in sources ensures HasTwin(record, groups.Keys, x) {
      assert LinkedToOne(sources, groups.Keys, x);
      var r :| r in groups && SameCluster(sources, r, x);
      RecordIffLinked(sources, digest, record, r, x);
    }
    SortedRecordsListImage(output, record, groups.Keys, sources.Keys);
    r := Some(clusters);
  }

  lemma SortedGroupIsClass(group: seq<Id>, src: SourceMap, x: Id)
    requires Distinct(group) && Elements(group) == ClassOf(src, x)
    ensures Sort(group) == SortedSet(ClassOf(src, x))
    ensures forall y :: y in group ==> y in src
    ensures (set y, s | y in group && s in src[y] :: s) == AllSources(src, ClassOf(src, x))
  {
    SortEnumerates(group);
    assert forall y :: y in group <==> y in Elements(group);
    IncreasingSequencesAgree(Sort(group), SortedSet(ClassOf(src, x)));
  }

  method MakeCluster(group: seq<Id>, sources: SourceMap, digest: seq<string> -> string, ghost x: Id)
    returns (cluster: EvidenceCluster)
    requires Distinct(group) && Elements(group) == ClassOf(sources, x)
    ensures cluster == ClusterOf(sources, digest, x)
  {
    SortedGroupIsClass(group, sources, x);
    var identifiers := Sort(group);
    var refs := SortSet(set y, s | y in group && s in sources[y] :: s);
    cluster := EvidenceCluster("ecluster_" + digest(refs + identifiers), identifiers, refs);
  }
}
