/** Lineage in the store: acyclic in every reachable state, and never rewritten. */
module Lineage {
  import opened Ordering
  import opened Reachability
  import opened Schema
  import opened Store

  /** Each artifact's references point to artifacts stored before it, and the edge table holds exactly the references. */
  ghost predicate Chronological(artifacts: seq<Artifact>) {
    forall i :: 0 <= i < |artifacts| ==>
      artifacts[i].id !in Ids(artifacts[..i]) && Parents(artifacts[i]) <= Ids(artifacts[..i])
  }

  ghost predicate EdgesRecordLineage(db: Database) {
    && (forall a :: a in db.artifacts ==> EdgesOf(a) <= db.edges)
    && (forall e :: e in db.edges ==> exists a :: a in db.artifacts && e in EdgesOf(a))
  }

  ghost predicate LineageKept(db: Database) {
    Chronological(db.artifacts) && EdgesRecordLineage(db)
  }

  lemma IdsOfMore(artifacts: seq<Artifact>, a: Artifact)
    ensures Ids(artifacts + [a]) == Ids(artifacts) + {a.id}
  {
    assert a in artifacts + [a];
    assert forall b :: b in artifacts ==> b in artifacts + [a];
  }

  lemma AppendKeepsLineage(db: Database, a: Artifact, rules: Rules)
    requires LineageKept(db) && AppendArtifact(db, a, rules).Success?
    ensures LineageKept(AppendArtifact(db, a, rules).value)
  {
    var more := db.artifacts + [a];
    forall i | 0 <= i < |more| ensures more[i].id !in Ids(more[..i]) && Parents(more[i]) <= Ids(more[..i]) {
      if i < |db.artifacts| {
        assert more[..i] == db.artifacts[..i];
      } else {
        assert more[..i] == db.artifacts;
        forall p | p in Parents(a) ensures p in Ids(db.artifacts) { assert p !in Parents(a) - Ids(db.artifacts); }
      }
    }
    var next := AppendArtifact(db, a, rules).value;
    forall e | e in next.edges ensures exists b :: b in next.artifacts && e in EdgesOf(b) {
      if e in db.edges {
        var b :| b in db.artifacts && e in EdgesOf(b);
        assert b in next.artifacts;
      } else {
        assert a in next.artifacts;
      }
    }
  }

  lemma ApplyKeepsLineage(db: Database, t: Transaction, rules: Rules)
    requires LineageKept(db)
    ensures LineageKept(Apply(db, t, rules))
  {
    if t.Appending? && AppendArtifact(db, t.artifact, rules).Success? {
      AppendKeepsLineage(db, t.artifact, rules);
    }
  }

  lemma {:induction false} RunKeepsLineage(ts: seq<Transaction>, rules: Rules)
    ensures LineageKept(Run(ts, rules))
  {
    if ts != [] {
      RunKeepsLineage(ts[..|ts| - 1], rules);
      ApplyKeepsLineage(Run(ts[..|ts| - 1], rules), ts[|ts| - 1], rules);
    }
  }

  lemma EdgeLeadsBack(db: Database, x: Id, y: Id, i: nat)
    requires LineageKept(db) && i < |db.artifacts| && db.artifacts[i].id == x && (x, y) in db.edges
    ensures y in Ids(db.artifacts[..i])
  {
    var a :| a in db.artifacts && (x, y) in EdgesOf(a);
    var j :| 0 <= j < |db.artifacts| && db.artifacts[j] == a;
    SameIdSameIndex(db.artifacts, i, j);
    assert y in Parents(a);
  }

  lemma SameIdSameIndex(artifacts: seq<Artifact>, i: nat, j: nat)
    requires Chronological(artifacts) && i < |artifacts| && j < |artifacts| && artifacts[i].id == artifacts[j].id
    ensures i == j
  {
    if i < j { EarlierIdIsListed(artifacts, i, j); }
    if j < i { EarlierIdIsListed(artifacts, j, i); }
  }

  lemma OneArtifactPerId(artifacts: seq<Artifact>, a: Artifact, b: Artifact)
    requires Chronological(artifacts) && a in artifacts && b in artifacts && a.id == b.id
    ensures a == b
  {
    var i :| 0 <= i < |artifacts| && artifacts[i] == a;
    var j :| 0 <= j < |artifacts| && artifacts[j] == b;
    SameIdSameIndex(artifacts, i, j);
  }

  lemma EarlierIdIsListed(artifacts: seq<Artifact>, i: nat, j: nat)
    requires i < j < |artifacts|
    ensures artifacts[i].id in Ids(artifacts[..j])
  {
    assert artifacts[i] in artifacts[..j];
  }

  lemma IndexOf(artifacts: seq<Artifact>, x: Id) returns (i: nat)
    requires x in Ids(artifacts)
    ensures i < |artifacts| && artifacts[i].id == x
  {
    var a :| a in artifacts && a.id == x;
    i :| 0 <= i < |artifacts| && artifacts[i] == a;
  }

  lemma EarlierIdsAreClosed(db: Database, k: nat)
    requires LineageKept(db) && k <= |db.artifacts|
    ensures ClosedUnder(db.edges, iset x | x in Ids(db.artifacts[..k]))
  {
    forall x: Id, y: Id | x in Ids(db.artifacts[..k]) && (x, y) in db.edges ensures y in Ids(db.artifacts[..k]) {
      var i := IndexOf(db.artifacts[..k], x);
      EdgeLeadsBack(db, x, y, i);
      assert forall a :: a in db.artifacts[..i] ==> a in db.artifacts[..k];
    }
  }

  /** Everything reachable from an artifact was stored before it. */
  lemma AncestorsAreEarlier(db: Database, x: Id, y: Id, i: nat)
    requires LineageKept(db) && i < |db.artifacts| && db.artifacts[i].id == x && ReachPlus(db.edges, x, y)
    ensures y in Ids(db.artifacts[..i])
  {
    var z :| (x, z) in db.edges && Reach(db.edges, z, y);
    EdgeLeadsBack(db, x, z, i);
    EarlierIdsAreClosed(db, i);
    ReachStaysInside(db.edges, (iset w | w in Ids(db.artifacts[..i])), z, y);
  }

  lemma EdgeEndsAreStored(db: Database, x: Id, y: Id)
    requires LineageKept(db) && (x, y) in db.edges
    ensures x in Ids(db.artifacts) && y in Ids(db.artifacts)
  {
    var a :| a in db.artifacts && (x, y) in EdgesOf(a);
    var i := IndexOf(db.artifacts, x);
    EdgeLeadsBack(db, x, y, i);
    assert forall b :: b in db.artifacts[..i] ==> b in db.artifacts;
  }

  /** The lineage relation has no cycles. */
  lemma LineageIsAcyclic(db: Database, x: Id)
    requires LineageKept(db)
    ensures !ReachPlus(db.edges, x, x)
  {
    if ReachPlus(db.edges, x, x) {
      var z :| (x, z) in db.edges && Reach(db.edges, z, x);
      EdgeEndsAreStored(db, x, z);
      var i := IndexOf(db.artifacts, x);
      AncestorsAreEarlier(db, x, x, i);
    }
  }

  lemma ReachableLineageIsAcyclic(ts: seq<Transaction>, rules: Rules, x: Id)
    ensures !ReachPlus(Run(ts, rules).edges, x, x)
  {
    RunKeepsLineage(ts, rules);
    LineageIsAcyclic(Run(ts, rules), x);
  }

  ghost function Ancestors(db: Database, x: Id): set<Id> {
    set y | y in Ids(db.artifacts) && ReachPlus(db.edges, x, y)
  }

  /** Descendants are found by following the edges from parent to child. */
  ghost function Descendants(db: Database, x: Id): set<Id> {
    set y | y in Ids(db.artifacts) && ReachPlus(Inverse(db.edges), x, y)
  }

  lemma ReachPlusInverse(edges: Edges<Id>, x: Id, y: Id)
    requires ReachPlus(edges, x, y)
    ensures ReachPlus(Inverse(edges), y, x)
  {
    var z :| (x, z) in edges && Reach(edges, z, y);
    ReachReflexive(Inverse(edges), x);
    var t := iset w | ReachPlus(Inverse(edges), w, x);
    assert ClosedUnder(edges, t) by {
      forall a, b | a in t && (a, b) in edges ensures b in t {
        ReachPlusUnfold(Inverse(edges), a, x);
        assert (b, a) in Inverse(edges) && Reach(Inverse(edges), a, x);
      }
    }
    assert (z, x) in Inverse(edges) && Reach(Inverse(edges), x, x);
    ReachStaysInside(edges, t, z, y);
  }

  /** One is an ancestor of the other exactly when the other is a descendant of the one. */
  lemma AncestorIffDescendant(db: Database, x: Id, y: Id)
    requires LineageKept(db)
    ensures y in Ancestors(db, x) <==> x in Descendants(db, y)
  {
    if ReachPlus(db.edges, x, y) {
      ReachPlusInverse(db.edges, x, y);
      EndsAreStored(db, x, y);
    }
    if ReachPlus(Inverse(db.edges), y, x) {
      ReachPlusInverse(Inverse(db.edges), y, x);
      assert Inverse(Inverse(db.edges)) == db.edges;
      EndsAreStored(db, x, y);
    }
  }

  lemma EndsAreStored(db: Database, x: Id, y: Id)
    requires LineageKept(db) && ReachPlus(db.edges, x, y)
    ensures x in Ids(db.artifacts) && y in Ids(db.artifacts)
  {
    var z :| (x, z) in db.edges && Reach(db.edges, z, y);
    EdgeEndsAreStored(db, x, z);
    var i := IndexOf(db.artifacts, x);
    AncestorsAreEarlier(db, x, y, i);
    assert forall b :: b in db.artifacts[..i] ==> b in db.artifacts;
  }

  lemma AppendLeavesOldReach(db: Database, a: Artifact, rules: Rules, x: Id, y: Id)
    requires LineageKept(db) && AppendArtifact(db, a, rules).Success? && x != a.id
    ensures ReachPlus(AppendArtifact(db, a, rules).value.edges, x, y) <==> ReachPlus(db.edges, x, y)
  {
    var next := AppendArtifact(db, a, rules).value;
    if ReachPlus(next.edges, x, y) {
      var z :| (x, z) in next.edges && Reach(next.edges, z, y);
      assert (x, z) in db.edges;
      EdgeEndsAreStored(db, x, z);
      ReachReflexive(db.edges, z);
      var s := iset w | w in Ids(db.artifacts) && Reach(db.edges, z, w);
      forall b, c | b in s && (b, c) in next.edges ensures c in s {
        assert (b, c) in db.edges;
        EdgeEndsAreStored(db, b, c);
        ReachEdge(db.edges, b, c);
        ReachTransitive(db.edges, z, b, c);
      }
      ReachStaysInside(next.edges, s, z, y);
    }
    if ReachPlus(db.edges, x, y) {
      var z :| (x, z) in db.edges && Reach(db.edges, z, y);
      ReachMonotone(db.edges, next.edges, z, y);
    }
  }

  lemma AppendKeepsAncestors(db: Database, a: Artifact, rules: Rules, x: Id)
    requires LineageKept(db) && AppendArtifact(db, a, rules).Success? && x in Ids(db.artifacts)
    ensures Ancestors(AppendArtifact(db, a, rules).value, x) == Ancestors(db, x)
  {
    IdsOfMore(db.artifacts, a);
    forall y ensures y in Ancestors(AppendArtifact(db, a, rules).value, x) <==> y in Ancestors(db, x) {
      AppendLeavesOldReach(db, a, rules, x, y);
      if ReachPlus(db.edges, x, y) { EndsAreStored(db, x, y); }
    }
  }

  lemma AppendAddsDescendant(db: Database, a: Artifact, rules: Rules, x: Id, y: Id)
    requires LineageKept(db) && AppendArtifact(db, a, rules).Success? && x in Ids(db.artifacts)
    ensures var next := AppendArtifact(db, a, rules).value;
            y in Descendants(next, x) <==> y in Descendants(db, x) || (y == a.id && x in Ancestors(next, a.id))
  {
    var next := AppendArtifact(db, a, rules).value;
    AppendKeepsLineage(db, a, rules);
    AncestorIffDescendant(next, y, x);
    AncestorIffDescendant(db, y, x);
    IdsOfMore(db.artifacts, a);
    if y != a.id { AppendLeavesOldReach(db, a, rules, y, x); }
  }

  /** Appending changes no stored artifact's ancestors, and can only add the new artifact to anyone's descendants. */
  lemma AppendOnlyGrowsDescendants(db: Database, a: Artifact, rules: Rules, x: Id)
    requires LineageKept(db) && AppendArtifact(db, a, rules).Success? && x in Ids(db.artifacts)
    ensures var next := AppendArtifact(db, a, rules).value;
            && Ancestors(next, x) == Ancestors(db, x)
            && Descendants(next, x) == Descendants(db, x) + if x in Ancestors(next, a.id) then {a.id} else {}
  {
    AppendKeepsAncestors(db, a, rules, x);
    forall y ensures y in Descendants(AppendArtifact(db, a, rules).value, x) <==>
                     y in Descendants(db, x) || (y == a.id && x in Ancestors(AppendArtifact(db, a, rules).value, a.id)) {
      AppendAddsDescendant(db, a, rules, x, y);
    }
  }

  /** The targets of the edges that leave `x`. */
  function Targets(edges: Edges<Id>, x: Id): set<Id> {
    set e | e in edges && e.0 == x :: e.1
  }

  lemma AllTargetsAreTargets(edges: Edges<Id>, x: Id)
    ensures Targets(edges, x) <= set e | e in edges :: e.1
  {
  }

  /** The recursive query: a worklist that unites what each new identifier leads to. */
  method Closure(edges: Edges<Id>, x: Id) returns (found: set<Id>)
    ensures forall y :: y in found <==> ReachPlus(edges, x, y)
  {
    ghost var all := set e | e in edges :: e.1;
    found := Targets(edges, x);
    var queue := found;
    ReachedByOne(edges, x);
    while queue != {}
      invariant queue <= found <= all && Targets(edges, x) <= found
      invariant forall y :: y in found ==> ReachPlus(edges, x, y)
      invariant forall y :: y in found - queue ==> Targets(edges, y) <= found
      decreases all - found, queue
    {
      var z :| z in queue;
      var more := Targets(edges, z) - found;
      ReachedByMore(edges, x, z);
      AllTargetsAreTargets(edges, z);
      found := found + more;
      queue := queue - {z} + more;
    }
    forall y | ReachPlus(edges, x, y) ensures y in found {
      var z :| (x, z) in edges && Reach(edges, z, y);
      assert z in Targets(edges, x);
      ClosedByTargets(edges, found);
      ReachStaysInside(edges, (iset w | w in found), z, y);
    }
  }

  lemma ReachedByOne(edges: Edges<Id>, x: Id)
    ensures forall y :: y in Targets(edges, x) ==> ReachPlus(edges, x, y)
  {
    forall y | y in Targets(edges, x) ensures ReachPlus(edges, x, y) {
      assert (x, y) in edges;
      ReachReflexive(edges, y);
    }
  }

  lemma ReachedByMore(edges: Edges<Id>, x: Id, z: Id)
    requires ReachPlus(edges, x, z)
    ensures forall y :: y in Targets(edges, z) ==> ReachPlus(edges, x, y)
  {
    forall y | y in Targets(edges, z) ensures ReachPlus(edges, x, y) {
      assert (z, y) in edges;
      var w :| (x, w) in edges && Reach(edges, w, z);
      ReachEdge(edges, z, y);
      ReachTransitive(edges, w, z, y);
    }
  }

  lemma ClosedByTargets(edges: Edges<Id>, found: set<Id>)
    requires forall y :: y in found ==> Targets(edges, y) <= found
    ensures ClosedUnder(edges, iset w | w in found)
  {
    forall a: Id, b: Id | a in found && (a, b) in edges ensures b in found {
      assert b in Targets(edges, a);
    }
  }

  /** Both directions of the lineage query, each sorted. */
  method LineageOf(db: Database, x: Id) returns (ancestors: seq<Id>, descendants: seq<Id>)
    requires LineageKept(db)
    ensures ancestors == SortedSet(Ancestors(db, x)) && descendants == SortedSet(Descendants(db, x))
    ensures x !in ancestors && x !in descendants
  {
    var up := Closure(db.edges, x);
    var down := Closure(Inverse(db.edges), x);
    assert up == Ancestors(db, x) by {
      forall y | y in up ensures y in Ids(db.artifacts) { EndsAreStored(db, x, y); }
    }
    assert down == Descendants(db, x) by {
      forall y | y in down ensures y in Ids(db.artifacts) {
        ReachPlusInverse(Inverse(db.edges), x, y);
        assert Inverse(Inverse(db.edges)) == db.edges;
        EndsAreStored(db, y, x);
      }
    }
    LineageIsAcyclic(db, x);
    AncestorIffDescendant(db, x, x);
    ancestors := SortSet(up);
    descendants := SortSet(down);
    assert x !in Elements(ancestors) && x !in Elements(descendants);
  }
}
