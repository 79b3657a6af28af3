/** What one more prediction can do to the vote: correlated evidence never adds weight. */
module Herding {
  import opened Schema
  import opened Reachability
  import opened Provenance
  import opened Clusters
  import opened Votes

  /** No present artifact lists `x` in its lineage. */
  ghost predicate Unreferenced(byId: Environment, x: Id) {
    forall a :: a in byId ==> x !in byId[a].Lineage()
  }

  lemma {:induction false} UnreferencedEntryIsIrrelevant(
    a: Id, byId: Environment, larger: Environment, norm: string -> string, visiting: set<Id>, b: Artifact)
    requires Keyed(byId) && Keyed(larger) && larger == byId[b.id := b]
    requires a in byId && b.id !in byId && Unreferenced(byId, b.id)
    ensures RootSources(byId[a], byId, norm, visiting) == RootSources(larger[a], larger, norm, visiting)
    decreases byId.Keys - visiting
  {
    if a !in visiting {
      var guard := visiting + {a};
      assert a in byId.Keys - visiting;
      assert b.id !in byId[a].Lineage();
      forall p | p in byId[a].Lineage()
        ensures p in byId <==> p in larger
        ensures p in byId ==> RootSources(byId[p], byId, norm, guard) == RootSources(larger[p], larger, norm, guard)
      {
        if p in byId { UnreferencedEntryIsIrrelevant(p, byId, larger, norm, guard, b); }
      }
    }
  }

  /** An unreferenced newcomer brings its own root sources and leaves everyone else's alone. */
  lemma NewcomerKeepsSources(byId: Environment, norm: string -> string, b: Artifact)
    requires Keyed(byId) && b.id !in byId && Unreferenced(byId, b.id)
    ensures SourcesOf(byId[b.id := b], norm) == SourcesOf(byId, norm)[b.id := RootSources(b, byId[b.id := b], norm, {})]
  {
    forall a | a in byId ensures SourcesOf(byId[b.id := b], norm)[a] == SourcesOf(byId, norm)[a] { OldSourcesStay(byId, norm, b, a); }
    OneMoreKey(SourcesOf(byId, norm), SourcesOf(byId[b.id := b], norm), b.id);
  }

  lemma OneMoreKey<K, V>(m: map<K, V>, more: map<K, V>, k: K)
    requires more.Keys == m.Keys + {k} && k !in m && forall a :: a in m ==> more[a] == m[a]
    ensures more == m[k := more[k]]
  {
  }

  lemma OldSourcesStay(byId: Environment, norm: string -> string, b: Artifact, a: Id)
    requires Keyed(byId) && b.id !in byId && Unreferenced(byId, b.id) && a in byId
    ensures SourcesOf(byId[b.id := b], norm)[a] == SourcesOf(byId, norm)[a]
  {
    UnreferencedEntryIsIrrelevant(a, byId, byId[b.id := b], norm, {}, b);
  }

  /** The cluster of `a` already rests on one of the sources `s`. */
  ghost predicate Touched(src: SourceMap, s: set<string>, a: Id) {
    exists m :: m in src && SameCluster(src, a, m) && !(src[m] !! s)
  }

  lemma TouchedIsShared(src: SourceMap, s: set<string>, a: Id, b: Id)
    requires SameCluster(src, a, b)
    ensures Touched(src, s, a) <==> Touched(src, s, b)
  {
    SameClusterIsEquivalence(src, a, b, b);
    if m :| m in src && SameCluster(src, a, m) && !(src[m] !! s) {
      SameClusterIsEquivalence(src, b, a, m);
    }
    if m :| m in src && SameCluster(src, b, m) && !(src[m] !! s) {
      SameClusterIsEquivalence(src, a, b, m);
    }
  }

  lemma StrangersAreAlone(src: SourceMap, x: Id, a: Id)
    requires x !in src && SameCluster(src, a, x)
    ensures a == x
  {
    ConnectedSymmetric(Sharing(src), a, x);
    ConnectedStaysInside(Sharing(src), iset{x}, x, a);
  }

  lemma TouchedLinksNewcomer(src: SourceMap, x: Id, s: set<string>, a: Id)
    requires x !in src && Touched(src, s, a)
    ensures SameCluster(src[x := s], a, x) && SameCluster(src[x := s], x, a)
  {
    var src' := src[x := s];
    var m :| m in src && SameCluster(src, a, m) && !(src[m] !! s);
    assert SharesSource(src', m, x);
    forall e | e in Sharing(src) ensures e in Sharing(src') {
      assert SharesSource(src', e.0, e.1);
    }
    ConnectedMonotone(Sharing(src), Sharing(src'), a, m);
    ConnectedEdge(Sharing(src'), m, x);
    ConnectedTransitive(Sharing(src'), a, m, x);
    ConnectedSymmetric(Sharing(src'), a, x);
  }

  /** The clusters that a newcomer touches become one; nothing else moves. */
  lemma NewcomerMergesTouched(src: SourceMap, x: Id, s: set<string>, a: Id, b: Id)
    requires x !in src && s != {} && a in src && b in src
    ensures SameCluster(src[x := s], a, b) <==> SameCluster(src, a, b) || (Touched(src, s, a) && Touched(src, s, b))
    ensures SameCluster(src[x := s], x, a) <==> Touched(src, s, a)
  {
    var src' := src[x := s];
    if Touched(src, s, a) { TouchedLinksNewcomer(src, x, s, a); }
    if Touched(src, s, b) { TouchedLinksNewcomer(src, x, s, b); }
    if Touched(src, s, a) && Touched(src, s, b) { SameClusterIsEquivalence(src', a, x, b); }
    forall e | e in Sharing(src) ensures e in Sharing(src') {
      assert SharesSource(src', e.0, e.1);
    }
    if SameCluster(src, a, b) { ConnectedMonotone(Sharing(src), Sharing(src'), a, b); }
    if SameCluster(src', a, b) { NewcomerAddsNothingElse(src, x, s, a, b); }
    if SameCluster(src', x, a) {
      ConnectedSymmetric(Sharing(src'), x, a);
      NewcomerAddsNothingElse(src, x, s, a, x);
      if SameCluster(src, a, x) { StrangersAreAlone(src, x, a); }
    }
  }

  lemma NewcomerAddsNothingElse(src: SourceMap, x: Id, s: set<string>, a: Id, b: Id)
    requires x !in src && a in src && SameCluster(src[x := s], a, b)
    ensures SameCluster(src, a, b) || (Touched(src, s, a) && (b == x || Touched(src, s, b)))
  {
    var src' := src[x := s];
    var reached := iset z | SameCluster(src, a, z) || (Touched(src, s, a) && (z == x || Touched(src, s, z)));
    forall u: Id, v: Id | (u, v) in Sharing(src') ensures u in reached <==> v in reached {
      assert SharesSource(src', u, v);
      if u != x && v != x {
        assert SharesSource(src, u, v);
        ConnectedEdge(Sharing(src), u, v);
        TouchedIsShared(src, s, u, v);
        SameClusterIsEquivalence(src, a, u, v);
        SameClusterIsEquivalence(src, a, v, u);
      } else if u == x && v != x {
        EdgeToNewcomer(src, x, s, a, v);
      } else if v == x && u != x {
        EdgeToNewcomer(src, x, s, a, u);
      }
    }
    SameClusterIsEquivalence(src, a, a, a);
    ConnectedStaysInside(Sharing(src'), reached, a, b);
  }

  lemma EdgeToNewcomer(src: SourceMap, x: Id, s: set<string>, a: Id, v: Id)
    requires x !in src && a in src && v in src && !(src[v] !! s)
    ensures Touched(src, s, v) && !SameCluster(src, a, x)
    ensures SameCluster(src, a, v) ==> Touched(src, s, a)
  {
    SameClusterIsEquivalence(src, v, v, v);
    if SameCluster(src, a, x) { StrangersAreAlone(src, x, a); }
    if SameCluster(src, a, v) { TouchedIsShared(src, s, a, v); }
  }

  /** The clusters that rest on one of the sources `s`. */
  ghost function TouchedClasses(src: SourceMap, s: set<string>): set<set<Id>> {
    set k | k in Classes(src) && exists a :: a in k && Touched(src, s, a)
  }

  lemma ClassOfBystander(src: SourceMap, x: Id, s: set<string>, a: Id)
    requires x !in src && s != {} && a in src
    ensures ClassOf(src[x := s], a) == if Touched(src, s, a) then ClassOf(src[x := s], x) else ClassOf(src, a)
    ensures ClassOf(src, a) in TouchedClasses(src, s) <==> Touched(src, s, a)
  {
    var src' := src[x := s];
    SameClusterIsEquivalence(src, a, a, a);
    assert Touched(src, s, a) ==> a in ClassOf(src, a);
    forall c | c in ClassOf(src, a) && Touched(src, s, c) ensures Touched(src, s, a) {
      TouchedIsShared(src, s, a, c);
    }
    NewcomerMergesTouched(src, x, s, a, a);
    if Touched(src, s, a) {
      SameClusterIsEquivalence(src', x, a, a);
      LinkedArtifactsHaveOneClass(src', a, x);
    } else {
      forall c | c in src' ensures SameCluster(src', a, c) <==> c in src && SameCluster(src, a, c) {
        if c == x {
          SameClusterIsEquivalence(src', a, x, a);
        } else {
          NewcomerMergesTouched(src, x, s, a, c);
        }
      }
    }
  }

  /** The clusters afterwards: the untouched ones, and one that absorbs the touched ones and the newcomer. */
  lemma ClassesWithNewcomer(src: SourceMap, x: Id, s: set<string>)
    requires x !in src && s != {}
    ensures Classes(src[x := s]) == Classes(src) - TouchedClasses(src, s) + {ClassOf(src[x := s], x)}
    ensures x in ClassOf(src[x := s], x)
  {
    var src' := src[x := s];
    SameClusterIsEquivalence(src', x, x, x);
    forall k | k in Classes(src') ensures k in Classes(src) - TouchedClasses(src, s) + {ClassOf(src', x)} {
      var a :| a in src' && k == ClassOf(src', a);
      if a != x { ClassOfBystander(src, x, s, a); }
    }
    forall k | k in Classes(src) - TouchedClasses(src, s) ensures k in Classes(src') {
      var a :| a in src && k == ClassOf(src, a);
      ClassOfBystander(src, x, s, a);
      assert a in src' && ClassOf(src', a) == k;
    }
    assert x in src' && ClassOf(src', x) in Classes(src');
  }

  lemma NewcomerLeavesBallots(byId: Environment, src: SourceMap, b: Artifact, k: set<Id>)
    requires src.Keys == byId.Keys && b.id !in byId && k in Classes(src)
    ensures b.id !in k && (Predicting(byId, k) <==> Predicting(byId[b.id := b], k))
  {
    var a :| a in src && k == ClassOf(src, a);
    forall p | p in k ensures Predicts(byId, p) <==> Predicts(byId[b.id := b], p) {
    }
  }

  /** A newcomer's prediction replaces the votes of all the clusters it correlates with by a single one. */
  lemma VotesWithNewcomer(byId: Environment, src: SourceMap, b: Artifact, s: set<string>)
    requires src.Keys == byId.Keys && b.id !in byId && s != {} && b.PredictedDirection().Some?
    ensures |PredictingAmong(byId[b.id := b], Classes(src[b.id := s]))|
         == |PredictingAmong(byId, Classes(src)) - TouchedClasses(src, s)| + 1
  {
    var larger := byId[b.id := b];
    ClassesWithNewcomer(src, b.id, s);
    var merged := ClassOf(src[b.id := s], b.id);
    forall k | k in Classes(src) ensures b.id !in k && (Predicting(byId, k) <==> Predicting(larger, k)) {
      NewcomerLeavesBallots(byId, src, b, k);
    }
    BallotsWithMergedClass(byId, larger, Classes(src), TouchedClasses(src, s), merged, b.id);
  }

  lemma BallotsWithMergedClass(
    byId: Environment, larger: Environment, classes: set<set<Id>>, touched: set<set<Id>>, merged: set<Id>, x: Id)
    requires forall k :: k in classes ==> x !in k && (Predicting(byId, k) <==> Predicting(larger, k))
    requires x in merged && Predicts(larger, x)
    ensures |PredictingAmong(larger, classes - touched + {merged})| == |PredictingAmong(byId, classes) - touched| + 1
  {
    assert Predicting(larger, merged);
    assert PredictingAmong(larger, classes - touched + {merged}) == PredictingAmong(byId, classes) - touched + {merged};
  }

  /** Sources that lie in one cluster touch that cluster only. */
  lemma SourcesOfOneClassTouchIt(src: SourceMap, s: set<string>, k: set<Id>)
    requires k in Classes(src) && s != {} && s <= AllSources(src, k)
    ensures TouchedClasses(src, s) == {k}
  {
    var a :| a in src && k == ClassOf(src, a);
    var t :| t in s;
    var m :| m in k && t in src[m];
    SameClusterIsEquivalence(src, m, m, m);
    assert Touched(src, s, m);
    forall h | h in TouchedClasses(src, s) ensures h == k {
      var c :| c in src && h == ClassOf(src, c);
      var d :| d in h && Touched(src, s, d);
      var n :| n in src && SameCluster(src, d, n) && !(src[n] !! s);
      var u :| u in src[n] && u in s;
      var q :| q in k && u in src[q];
      assert SharesSource(src, n, q);
      ConnectedEdge(Sharing(src), n, q);
      SameClusterIsEquivalence(src, c, d, n);
      SameClusterIsEquivalence(src, c, n, q);
      SameClusterIsEquivalence(src, a, q, q);
      SameClusterIsEquivalence(src, c, q, a);
      LinkedArtifactsHaveOneClass(src, c, a);
    }
  }

  lemma TouchedIffSharing(src: SourceMap, s: set<string>, k: set<Id>)
    requires k in Classes(src)
    ensures k in TouchedClasses(src, s) <==> !(AllSources(src, k) !! s)
  {
    var a :| a in src && k == ClassOf(src, a);
    if c :| c in k && Touched(src, s, c) {
      var m :| m in src && SameCluster(src, c, m) && !(src[m] !! s);
      SameClusterIsEquivalence(src, a, c, m);
      assert m in k;
      var t :| t in src[m] && t in s;
      assert t in AllSources(src, k);
    }
    if t :| t in AllSources(src, k) && t in s {
      var m :| m in k && t in src[m];
      SameClusterIsEquivalence(src, m, m, m);
      assert Touched(src, s, m);
    }
  }

  lemma VoteRisesIffIndependent(byId: Environment, src: SourceMap, b: Artifact, s: set<string>)
    requires src.Keys == byId.Keys && b.id !in byId && s != {} && b.PredictedDirection().Some?
    ensures var before := PredictingAmong(byId, Classes(src));
            var after := PredictingAmong(byId[b.id := b], Classes(src[b.id := s]));
            (|after| > |before| <==> forall k :: k in before ==> AllSources(src, k) !! s) && |after| <= |before| + 1
  {
    var before := PredictingAmong(byId, Classes(src));
    var touched := TouchedClasses(src, s);
    VotesWithNewcomer(byId, src, b, s);
    forall k | k in before ensures k in touched <==> !(AllSources(src, k) !! s) {
      TouchedIffSharing(src, s, k);
    }
    assert before == (before - touched) + before * touched;
    assert |before| == |before - touched| + |before * touched|;
    if k :| k in before && !(AllSources(src, k) !! s) {
      assert k in before * touched;
    } else {
      assert before * touched == {};
    }
  }

  lemma NewcomerHasSources(byId: Environment, norm: string -> string, b: Artifact)
    requires Keyed(byId) && b.sourceRefs != []
    ensures RootSources(b, byId, norm, {}) != {}
  {
    assert norm(b.sourceRefs[0]) in OwnSources(b, norm);
  }

  /**
   * A prediction that nothing references yet raises the total vote by one if its root sources are independent of
   * every cluster that already votes, and otherwise does not raise it at all.
   */
  lemma PredictionAddsVoteIffIndependent(byId: Environment, norm: string -> string, b: Artifact)
    requires Keyed(byId) && b.id !in byId && Unreferenced(byId, b.id)
    requires b.PredictedDirection().Some? && b.sourceRefs != []
    ensures var src, s := SourcesOf(byId, norm), RootSources(b, byId[b.id := b], norm, {});
            VoteTotal(byId[b.id := b], norm) > VoteTotal(byId, norm) <==>
            forall k :: k in PredictingAmong(byId, Classes(src)) ==> AllSources(src, k) !! s
    ensures VoteTotal(byId[b.id := b], norm) <= VoteTotal(byId, norm) + 1
  {
    NewcomerKeepsSources(byId, norm, b);
    NewcomerHasSources(byId[b.id := b], norm, b);
    VoteRisesIffIndependent(byId, SourcesOf(byId, norm), b, RootSources(b, byId[b.id := b], norm, {}));
  }

  /** Repeating evidence of one cluster that already votes leaves the total unchanged. */
  lemma CorrelatedPredictionAddsNoVote(byId: Environment, norm: string -> string, b: Artifact, k: set<Id>)
    requires Keyed(byId) && b.id !in byId && Unreferenced(byId, b.id)
    requires b.PredictedDirection().Some? && b.sourceRefs != []
    requires k in PredictingAmong(byId, Classes(SourcesOf(byId, norm)))
    requires RootSources(b, byId[b.id := b], norm, {}) <= AllSources(SourcesOf(byId, norm), k)
    ensures VoteTotal(byId[b.id := b], norm) == VoteTotal(byId, norm)
  {
    NewcomerKeepsSources(byId, norm, b);
    NewcomerHasSources(byId[b.id := b], norm, b);
    VoteIsUnchanged(byId, SourcesOf(byId, norm), b, RootSources(b, byId[b.id := b], norm, {}), k);
  }

  lemma VoteIsUnchanged(byId: Environment, src: SourceMap, b: Artifact, s: set<string>, k: set<Id>)
    requires src.Keys == byId.Keys && b.id !in byId && s != {} && b.PredictedDirection().Some?
    requires k in PredictingAmong(byId, Classes(src)) && s <= AllSources(src, k)
    ensures |PredictingAmong(byId[b.id := b], Classes(src[b.id := s]))| == |PredictingAmong(byId, Classes(src))|
  {
    VotesWithNewcomer(byId, src, b, s);
    SourcesOfOneClassTouchIt(src, s, k);
    assert |PredictingAmong(byId, Classes(src)) - {k}| == |PredictingAmong(byId, Classes(src))| - 1;
  }
}
