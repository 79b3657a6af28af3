/** Which primary sources an artifact ultimately rests on. */
module Provenance {
  import opened Schema
  import opened Reachability

  type Environment = map<Id, Artifact>

  /** An environment is built by keying artifacts with their own identifiers. */
  predicate Keyed(byId: Environment) {
    forall k {:trigger byId[k]} :: k in byId ==> byId[k].id == k
  }

  /** Normalization takes a reference apart as a URL, which raises for some texts. */
  type Normalizer = string -> Option<string>

  predicate Parses(a: Artifact, normalize: Normalizer) {
    forall ref :: ref in a.sourceRefs ==> normalize(ref).Some?
  }

  predicate AllParse(items: seq<Artifact>, normalize: Normalizer) {
    forall a :: a in items ==> Parses(a, normalize)
  }

  /** What normalization returns, where it does. */
  function Returned(normalize: Normalizer): string -> string {
    (ref: string) => match normalize(ref) case Some(s) => s case None => ""
  }

  function OwnSources(a: Artifact, norm: string -> string): set<string> {
    set ref | ref in a.sourceRefs :: norm(ref)
  }

  /** The recursion over lineage; `visiting` holds only the identifiers on the current path. `None` when it raises. */
  function TryRootSources(a: Artifact, byId: Environment, normalize: Normalizer, visiting: set<Id>): Option<set<string>>
    requires Keyed(byId)
    decreases byId.Keys + {a.id} - visiting
  {
    if a.id in visiting then Some({})
    else if !Parses(a, normalize) then None
    else
      VisitingGrows(byId, a.id, visiting);
      if exists p :: p in a.Lineage() && p in byId && TryRootSources(byId[p], byId, normalize, visiting + {a.id}).None? then None
      else
        var inherited := set p, s | p in a.Lineage() && p in byId &&
          s in TryRootSources(byId[p], byId, normalize, visiting + {a.id}).value :: s;
        Some(inherited + OwnSources(a, Returned(normalize)))
  }

  /** The recursion for a normalization that never raises. */
  function RootSources(a: Artifact, byId: Environment, norm: string -> string, visiting: set<Id>): set<string>
    requires Keyed(byId)
    decreases byId.Keys + {a.id} - visiting
  {
    if a.id in visiting then {}
    else
      VisitingGrows(byId, a.id, visiting);
      var inherited := set p, s | p in a.Lineage() && p in byId &&
        s in RootSources(byId[p], byId, norm, visiting + {a.id}) :: s;
      inherited + OwnSources(a, norm)
  }

  lemma VisitingGrows(byId: Environment, x: Id, visiting: set<Id>)
    requires Keyed(byId) && x !in visiting
    ensures forall p :: p in byId ==> byId.Keys + {byId[p].id} - (visiting + {x}) < byId.Keys + {x} - visiting
  {
    forall p | p in byId ensures byId.Keys + {byId[p].id} - (visiting + {x}) < byId.Keys + {x} - visiting {
      assert x in byId.Keys + {x} - visiting && x !in byId.Keys + {byId[p].id} - (visiting + {x});
    }
  }

  /** Child-to-parent edges between present artifacts; dangling references contribute none. */
  function LineageEdges(byId: Environment): Edges<Id> {
    set c, p | c in byId && p in byId[c].Lineage() && p in byId :: (c, p)
  }

  /** What `RootSources` is meant to compute: the sources of every artifact reachable through lineage. */
  ghost function ReachableSources(byId: Environment, norm: string -> string, x: Id): set<string> {
    set y, s | y in byId && s in OwnSources(byId[y], norm) && Reach(LineageEdges(byId), x, y) :: s
  }

  ghost predicate Avoids(p: seq<Id>, visiting: set<Id>) {
    forall x :: x in p ==> x !in visiting
  }

  /** The path guard loses nothing: a walk that avoids the guarded identifiers is explored to its end. */
  lemma {:induction false} WalkIsExplored(byId: Environment, norm: string -> string, visiting: set<Id>, p: seq<Id>, s: string)
    requires Keyed(byId) && Path(LineageEdges(byId), p) && Avoids(p, visiting)
    requires p[0] in byId && p[|p| - 1] in byId && s in OwnSources(byId[p[|p| - 1]], norm)
    ensures s in RootSources(byId[p[0]], byId, norm, visiting)
    decreases |p|
  {
    var x := p[0];
    if k :| 0 < k < |p| && p[k] == x {
      PathSuffix(LineageEdges(byId), p, k);
      WalkIsExplored(byId, norm, visiting, p[k..], s);
    } else if |p| > 1 {
      var rest := p[1..];
      PathSuffix(LineageEdges(byId), p, 1);
      assert Step(LineageEdges(byId), p, 0);
      WalkIsExplored(byId, norm, visiting + {x}, rest, s);
    }
  }

  lemma {:induction false} ExploredIsReachable(byId: Environment, norm: string -> string, visiting: set<Id>, x: Id, s: string)
    requires Keyed(byId) && x in byId && s in RootSources(byId[x], byId, norm, visiting)
    ensures s in ReachableSources(byId, norm, x)
    decreases byId.Keys - visiting
  {
    ReachReflexive(LineageEdges(byId), x);
    if s !in OwnSources(byId[x], norm) {
      var p :| p in byId[x].Lineage() && p in byId && s in RootSources(byId[p], byId, norm, visiting + {x});
      assert x in byId.Keys - visiting;
      ExploredIsReachable(byId, norm, visiting + {x}, p, s);
      var y :| y in byId && s in OwnSources(byId[y], norm) && Reach(LineageEdges(byId), p, y);
      ReachEdge(LineageEdges(byId), x, p);
      ReachTransitive(LineageEdges(byId), x, p, y);
    }
  }

  /** Once an identifier is guarded, what the environment stores under it is irrelevant. */
  lemma {:induction false} GuardedEntryIsIrrelevant(a: Artifact, byId: Environment, norm: string -> string, visiting: set<Id>, b: Artifact)
    requires Keyed(byId) && b.id in visiting
    ensures RootSources(a, byId, norm, visiting) == RootSources(a, byId[b.id := b], norm, visiting)
    decreases byId.Keys + {a.id} - visiting
  {
    var byId' := byId[b.id := b];
    if a.id !in visiting {
      var guard := visiting + {a.id};
      forall p | p in a.Lineage() && p in byId
        ensures RootSources(byId[p], byId, norm, guard) == RootSources(byId'[p], byId', norm, guard)
      {
        if p != b.id {
          VisitingGrows(byId, a.id, visiting);
          GuardedEntryIsIrrelevant(byId[p], byId, norm, guard, b);
        }
      }
      assert RootSources(b, byId', norm, guard) == {};
    }
  }

  /** Without exceptions: for every lineage graph, cyclic or with dangling parents, the guard loses nothing. */
  lemma GuardLosesNothing(a: Artifact, byId: Environment, norm: string -> string)
    requires Keyed(byId)
    ensures RootSources(a, byId, norm, {}) == ReachableSources(byId[a.id := a], norm, a.id)
  {
    var byId' := byId[a.id := a];
    assert RootSources(a, byId, norm, {}) == RootSources(a, byId', norm, {}) by {
      forall p | p in a.Lineage() && p in byId
        ensures RootSources(byId[p], byId, norm, {a.id}) == RootSources(byId'[p], byId', norm, {a.id})
      {
        if p != a.id { GuardedEntryIsIrrelevant(byId[p], byId, norm, {a.id}, a); }
      }
      assert {} + {a.id} == {a.id};
    }
    forall s | s in RootSources(a, byId', norm, {}) ensures s in ReachableSources(byId', norm, a.id) {
      ExploredIsReachable(byId', norm, {}, a.id, s);
    }
    forall s | s in ReachableSources(byId', norm, a.id) ensures s in RootSources(a, byId', norm, {}) {
      var y :| y in byId' && s in OwnSources(byId'[y], norm) && Reach(LineageEdges(byId'), a.id, y);
      var p :| PathBetween(LineageEdges(byId'), p, a.id, y);
      WalkIsExplored(byId', norm, {}, p, s);
    }
  }

  /** Tells the references that raise from the others. */
  function Marked(normalize: Normalizer): string -> string {
    (ref: string) => if normalize(ref).Some? then "" else "raises"
  }

  /** The recursion raises when the marks it would collect include one of a reference that raises. */
  lemma {:induction false} RaisesIffMarked(a: Artifact, byId: Environment, normalize: Normalizer, visiting: set<Id>)
    requires Keyed(byId)
    ensures var r := TryRootSources(a, byId, normalize, visiting);
            && (r.None? <==> "raises" in RootSources(a, byId, Marked(normalize), visiting))
            && (r.Some? ==> r.value == RootSources(a, byId, Returned(normalize), visiting))
    decreases byId.Keys + {a.id} - visiting
  {
    if a.id !in visiting {
      MarkedIffUnparsable(a, normalize);
      VisitingGrows(byId, a.id, visiting);
      forall p | p in a.Lineage() && p in byId
        ensures var r := TryRootSources(byId[p], byId, normalize, visiting + {a.id});
                && (r.None? <==> "raises" in RootSources(byId[p], byId, Marked(normalize), visiting + {a.id}))
                && (r.Some? ==> r.value == RootSources(byId[p], byId, Returned(normalize), visiting + {a.id}))
      {
        RaisesIffMarked(byId[p], byId, normalize, visiting + {a.id});
      }
    }
  }

  lemma MarkedIffUnparsable(a: Artifact, normalize: Normalizer)
    ensures "raises" in OwnSources(a, Marked(normalize)) <==> !Parses(a, normalize)
  {
    if ref :| ref in a.sourceRefs && normalize(ref).None? { assert Marked(normalize)(ref) == "raises"; }
  }

  /**
   * For every lineage graph, cyclic or with dangling parents: the recursion raises exactly when some reachable artifact has
   * a reference that does not parse, and otherwise returns exactly the sources of the reachable artifacts.
   */
  lemma RootSourcesAreReachableSources(a: Artifact, byId: Environment, normalize: Normalizer)
    requires Keyed(byId)
    ensures var r, all := TryRootSources(a, byId, normalize, {}), byId[a.id := a];
            && (r.None? <==> exists y :: y in all && Reach(LineageEdges(all), a.id, y) && !Parses(all[y], normalize))
            && (r.Some? ==> r.value == ReachableSources(all, Returned(normalize), a.id))
  {
    var all := byId[a.id := a];
    RaisesIffMarked(a, byId, normalize, {});
    GuardLosesNothing(a, byId, Marked(normalize));
    GuardLosesNothing(a, byId, Returned(normalize));
    forall y | y in all ensures "raises" in OwnSources(all[y], Marked(normalize)) <==> !Parses(all[y], normalize) {
      MarkedIffUnparsable(all[y], normalize);
    }
  }
}
