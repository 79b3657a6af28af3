/** What the clustering comes to in the fields of the artifacts: lines of descent, cited sources and chains of shared ones. */
module EvidenceChains {
  import opened Clusters
  import opened Ordering
  import opened Provenance
  import opened Reachability
  import opened Schema

  /** Of artifacts with one identifier the last one counts. */
  ghost predicate IsLast(items: seq<Artifact>, k: Id, a: Artifact) {
    exists i :: 0 <= i < |items| && items[i] == a && a.id == k && forall j :: i < j < |items| ==> items[j].id != k
  }

  lemma LastStays(items: seq<Artifact>, more: Artifact, k: Id, a: Artifact)
    requires IsLast(items, k, a) && more.id != k
    ensures IsLast(items + [more], k, a)
  {
    var i :| 0 <= i < |items| && items[i] == a && a.id == k && forall j :: i < j < |items| ==> items[j].id != k;
    assert (items + [more])[i] == a;
  }

  lemma LastIsLast(items: seq<Artifact>, more: Artifact)
    ensures IsLast(items + [more], more.id, more)
  {
    assert (items + [more])[|items|] == more;
  }

  lemma {:induction false} IndexKeepsLast(items: seq<Artifact>, k: Id)
    requires k in Index(items)
    ensures IsLast(items, k, Index(items)[k])
  {
    var init, more := items[..|items| - 1], items[|items| - 1];
    assert items == init + [more];
    if k == more.id {
      LastIsLast(init, more);
    } else {
      IndexKeepsLast(init, k);
      LastStays(init, more, k, Index(init)[k]);
    }
  }

  /** Each artifact of the line names the next one among its parents or what it was derived from. */
  ghost predicate IsLine(byId: Environment, p: seq<Id>) {
    && |p| > 0 && (forall i :: 0 <= i < |p| ==> p[i] in byId)
    && forall i :: 0 <= i < |p| - 1 ==> p[i + 1] in byId[p[i]].parentArtifacts || p[i + 1] in byId[p[i]].derivedFrom
  }

  ghost predicate Cites(a: Artifact, normalize: Normalizer, s: string) {
    exists ref :: ref in a.sourceRefs && normalize(ref) == Some(s)
  }

  ghost predicate Traces(byId: Environment, normalize: Normalizer, p: seq<Id>, x: Id, s: string) {
    IsLine(byId, p) && p[0] == x && Cites(byId[p[|p| - 1]], normalize, s)
  }

  /** The artifact or one that it descends from cites the source. */
  ghost predicate Rests(byId: Environment, normalize: Normalizer, x: Id, s: string) {
    exists p :: Traces(byId, normalize, p, x, s)
  }

  ghost predicate AllReadable(byId: Environment, normalize: Normalizer) {
    forall k :: k in byId ==> Parses(byId[k], normalize)
  }

  lemma CitesIffOwn(a: Artifact, normalize: Normalizer, s: string)
    requires Parses(a, normalize)
    ensures Cites(a, normalize, s) <==> s in OwnSources(a, Returned(normalize))
  {
    if s in OwnSources(a, Returned(normalize)) {
      var ref :| ref in a.sourceRefs && Returned(normalize)(ref) == s;
      assert normalize(ref) == Some(s);
    }
    if ref :| ref in a.sourceRefs && normalize(ref) == Some(s) { assert Returned(normalize)(ref) == s; }
  }

  lemma LineIffPath(byId: Environment, p: seq<Id>)
    ensures IsLine(byId, p) <==> Path(LineageEdges(byId), p) && p[0] in byId
  {
    if IsLine(byId, p) {
      forall i | 0 <= i < |p| - 1 ensures Step(LineageEdges(byId), p, i) { assert p[i] in byId && p[i + 1] in byId; }
    }
    if Path(LineageEdges(byId), p) && p[0] in byId {
      forall i | 0 <= i < |p| ensures p[i] in byId { if i > 0 { assert Step(LineageEdges(byId), p, i - 1); } }
      forall i | 0 <= i < |p| - 1 ensures p[i + 1] in byId[p[i]].parentArtifacts || p[i + 1] in byId[p[i]].derivedFrom {
        assert Step(LineageEdges(byId), p, i);
      }
    }
  }

  /** The root sources of an artifact are those on which it rests. */
  lemma RootSourcesIff(byId: Environment, normalize: Normalizer, x: Id, s: string)
    requires Keyed(byId) && x in byId && AllReadable(byId, normalize)
    ensures s in SourcesOf(byId, Returned(normalize))[x] <==> Rests(byId, normalize, x, s)
  {
    var norm := Returned(normalize);
    GuardLosesNothing(byId[x], byId, norm);
    assert byId[x := byId[x]] == byId;
    if s in SourcesOf(byId, norm)[x] {
      var y :| y in byId && s in OwnSources(byId[y], norm) && Reach(LineageEdges(byId), x, y);
      var p :| PathBetween(LineageEdges(byId), p, x, y);
      LineIffPath(byId, p);
      CitesIffOwn(byId[y], normalize, s);
      assert Traces(byId, normalize, p, x, s);
    }
    if p :| Traces(byId, normalize, p, x, s) {
      var y := p[|p| - 1];
      LineIffPath(byId, p);
      CitesIffOwn(byId[y], normalize, s);
      assert PathBetween(LineageEdges(byId), p, x, y);
    }
  }

  /** The two rest on a common source. */
  ghost predicate Share(byId: Environment, normalize: Normalizer, x: Id, y: Id) {
    exists s :: Rests(byId, normalize, x, s) && Rests(byId, normalize, y, s)
  }

  ghost predicate IsChain(byId: Environment, normalize: Normalizer, q: seq<Id>, x: Id, y: Id) {
    && |q| > 0 && q[0] == x && q[|q| - 1] == y && (forall i :: 0 <= i < |q| ==> q[i] in byId)
    && forall i :: 0 <= i < |q| - 1 ==> Share(byId, normalize, q[i], q[i + 1])
  }

  /** A chain of artifacts, each resting on a source of the next, leads from one to the other. */
  ghost predicate Chained(byId: Environment, normalize: Normalizer, x: Id, y: Id) {
    exists q :: IsChain(byId, normalize, q, x, y)
  }

  lemma ShareIff(byId: Environment, normalize: Normalizer, x: Id, y: Id)
    requires Keyed(byId) && x in byId && y in byId && AllReadable(byId, normalize)
    ensures Share(byId, normalize, x, y) <==> SharesSource(SourcesOf(byId, Returned(normalize)), x, y)
  {
    var src := SourcesOf(byId, Returned(normalize));
    if s :| Rests(byId, normalize, x, s) && Rests(byId, normalize, y, s) {
      RootSourcesIff(byId, normalize, x, s);
      RootSourcesIff(byId, normalize, y, s);
      assert s in src[x] && s in src[y];
    }
    if !(src[x] !! src[y]) {
      var s :| s in src[x] && s in src[y];
      RootSourcesIff(byId, normalize, x, s);
      RootSourcesIff(byId, normalize, y, s);
    }
  }

  lemma LinkIff(byId: Environment, normalize: Normalizer, q: seq<Id>, i: nat)
    requires Keyed(byId) && AllReadable(byId, normalize) && i < |q| - 1
    ensures var edges := Sharing(SourcesOf(byId, Returned(normalize)));
            Step(edges + Inverse(edges), q, i) <==> q[i] in byId && q[i + 1] in byId && Share(byId, normalize, q[i], q[i + 1])
  {
    if q[i] in byId && q[i + 1] in byId {
      ShareIff(byId, normalize, q[i], q[i + 1]);
      ShareIff(byId, normalize, q[i + 1], q[i]);
    }
  }

  lemma ChainIffPath(byId: Environment, normalize: Normalizer, q: seq<Id>, x: Id, y: Id)
    requires Keyed(byId) && x in byId && AllReadable(byId, normalize)
    ensures var edges := Sharing(SourcesOf(byId, Returned(normalize)));
            IsChain(byId, normalize, q, x, y) <==> PathBetween(edges + Inverse(edges), q, x, y)
  {
    var edges := Sharing(SourcesOf(byId, Returned(normalize)));
    forall i | 0 <= i < |q| - 1
      ensures Step(edges + Inverse(edges), q, i) <==> q[i] in byId && q[i + 1] in byId && Share(byId, normalize, q[i], q[i + 1])
    {
      LinkIff(byId, normalize, q, i);
    }
    if PathBetween(edges + Inverse(edges), q, x, y) {
      forall i | 0 <= i < |q| ensures q[i] in byId { if i > 0 { assert Step(edges + Inverse(edges), q, i - 1); } }
    }
  }

  lemma SameClusterIffChained(byId: Environment, normalize: Normalizer, x: Id, y: Id)
    requires Keyed(byId) && x in byId && AllReadable(byId, normalize)
    ensures SameCluster(SourcesOf(byId, Returned(normalize)), x, y) <==> Chained(byId, normalize, x, y)
  {
    forall q ensures var edges := Sharing(SourcesOf(byId, Returned(normalize)));
                     IsChain(byId, normalize, q, x, y) <==> PathBetween(edges + Inverse(edges), q, x, y)
    {
      ChainIffPath(byId, normalize, q, x, y);
    }
  }

  lemma IndexIsReadable(items: seq<Artifact>, normalize: Normalizer)
    requires AllParse(items, normalize)
    ensures AllReadable(Index(items), normalize)
  {
  }

  /** Both artifacts are listed in one cluster. */
  ghost predicate Together(clusters: seq<EvidenceCluster>, x: Id, y: Id) {
    exists i :: 0 <= i < |clusters| && x in clusters[i].artifactIds && y in clusters[i].artifactIds
  }

  lemma MembersAreLinked(src: SourceMap, digest: seq<string> -> string, z: Id, x: Id)
    requires z in src
    ensures x in ClusterOf(src, digest, z).artifactIds <==> x in src && SameCluster(src, z, x)
  {
    assert x in ClusterOf(src, digest, z).artifactIds <==> x in Elements(ClusterOf(src, digest, z).artifactIds);
  }

  lemma TogetherMeansLinked(clusters: seq<EvidenceCluster>, src: SourceMap, digest: seq<string> -> string, x: Id, y: Id)
    requires IsClustering(clusters, src, digest) && Together(clusters, x, y)
    ensures SameCluster(src, x, y)
  {
    var i :| 0 <= i < |clusters| && x in clusters[i].artifactIds && y in clusters[i].artifactIds;
    assert clusters[i] in clusters;
    var z :| z in src.Keys && clusters[i] == Record(src, digest)(z);
    MembersAreLinked(src, digest, z, x);
    MembersAreLinked(src, digest, z, y);
    SameClusterIsEquivalence(src, z, x, x);
    SameClusterIsEquivalence(src, x, z, y);
  }

  lemma LinkedAreTogether(clusters: seq<EvidenceCluster>, src: SourceMap, digest: seq<string> -> string, x: Id, y: Id)
    requires IsClustering(clusters, src, digest) && x in src && y in src && SameCluster(src, x, y)
    ensures Together(clusters, x, y)
  {
    assert Record(src, digest)(x) in clusters;
    var i :| 0 <= i < |clusters| && clusters[i] == ClusterOf(src, digest, x);
    SameClusterIsEquivalence(src, x, x, x);
    MembersAreLinked(src, digest, x, x);
    MembersAreLinked(src, digest, x, y);
  }

  /**
   * The clusters of an artifact collection: two artifacts are listed together exactly when a chain of shared sources leads
   * from one to the other, where an artifact rests on what it and those it descends from cite.
   */
  lemma TogetherIffChained(items: seq<Artifact>, normalize: Normalizer, digest: seq<string> -> string,
                           clusters: seq<EvidenceCluster>, x: Id, y: Id)
    requires AllParse(items, normalize) && IsClustering(clusters, SourcesOf(Index(items), Returned(normalize)), digest)
    requires x in Index(items) && y in Index(items)
    ensures Together(clusters, x, y) <==> Chained(Index(items), normalize, x, y)
  {
    var src := SourcesOf(Index(items), Returned(normalize));
    IndexIsReadable(items, normalize);
    SameClusterIffChained(Index(items), normalize, x, y);
    if Together(clusters, x, y) { TogetherMeansLinked(clusters, src, digest, x, y); }
    if SameCluster(src, x, y) { LinkedAreTogether(clusters, src, digest, x, y); }
  }

  /** In order, each once. */
  ghost predicate Ascending(s: seq<string>) {
    forall i, j :: 0 <= i < j < |s| ==> Lt(s[i], s[j])
  }

  /** A cluster lists its artifacts and the sources that they rest on, and is named by the digest of both. */
  ghost predicate IsRecord(byId: Environment, normalize: Normalizer, digest: seq<string> -> string, c: EvidenceCluster) {
    && c.clusterId == "ecluster_" + digest(c.independentSourceRefs + c.artifactIds)
    && Ascending(c.artifactIds) && Ascending(c.independentSourceRefs)
    && (forall x :: x in c.artifactIds ==> x in byId)
    && forall s :: s in c.independentSourceRefs <==> exists x :: x in c.artifactIds && Rests(byId, normalize, x, s)
  }

  /** Every artifact is listed, each cluster once, in the order of their names. */
  lemma RecordsInFields(items: seq<Artifact>, normalize: Normalizer, digest: seq<string> -> string, clusters: seq<EvidenceCluster>)
    requires AllParse(items, normalize) && IsClustering(clusters, SourcesOf(Index(items), Returned(normalize)), digest)
    ensures forall a :: a in items ==> Together(clusters, a.id, a.id)
    ensures forall c :: c in clusters ==> IsRecord(Index(items), normalize, digest, c)
    ensures forall i, j :: 0 <= i < j < |clusters| ==>
              clusters[i] != clusters[j] && (clusters[i].clusterId == clusters[j].clusterId || Lt(clusters[i].clusterId, clusters[j].clusterId))
  {
    var src := SourcesOf(Index(items), Returned(normalize));
    IndexIsReadable(items, normalize);
    forall a | a in items ensures Together(clusters, a.id, a.id) {
      assert a.id in Index(items);
      assert Record(src, digest)(a.id) in clusters;
      SameClusterIsEquivalence(src, a.id, a.id, a.id);
      MembersAreLinked(src, digest, a.id, a.id);
    }
    forall c | c in clusters ensures IsRecord(Index(items), normalize, digest, c) {
      var x :| x in src.Keys && c == Record(src, digest)(x);
      ClusterIsRecord(Index(items), normalize, digest, x);
    }
    forall i, j | 0 <= i < j < |clusters|
      ensures clusters[i].clusterId == clusters[j].clusterId || Lt(clusters[i].clusterId, clusters[j].clusterId)
    {
      assert BY_CLUSTER_ID(clusters[i], clusters[j]);
    }
  }

  lemma ClusterIsRecord(byId: Environment, normalize: Normalizer, digest: seq<string> -> string, x: Id)
    requires Keyed(byId) && x in byId && AllReadable(byId, normalize)
    ensures IsRecord(byId, normalize, digest, ClusterOf(SourcesOf(byId, Returned(normalize)), digest, x))
  {
    var src := SourcesOf(byId, Returned(normalize));
    var c := ClusterOf(src, digest, x);
    forall y ensures y in c.artifactIds <==> y in ClassOf(src, x) { assert y in c.artifactIds <==> y in Elements(c.artifactIds); }
    forall s ensures s in c.independentSourceRefs <==> s in AllSources(src, ClassOf(src, x)) {
      assert s in c.independentSourceRefs <==> s in Elements(c.independentSourceRefs);
    }
    forall s ensures s in c.independentSourceRefs <==> exists y :: y in c.artifactIds && Rests(byId, normalize, y, s) {
      forall y | y in c.artifactIds ensures s in src[y] <==> Rests(byId, normalize, y, s) { RootSourcesIff(byId, normalize, y, s); }
    }
  }
}
