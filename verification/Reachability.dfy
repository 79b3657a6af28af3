/** Paths, reachability and connectivity over a finite set of directed edges. */
module Reachability {

  type Edges<T(==)> = set<(T, T)>

  predicate Step<T(==)>(edges: Edges<T>, p: seq<T>, i: int)
    requires 0 <= i < |p| - 1
  {
    (p[i], p[i + 1]) in edges
  }

  /** A nonempty walk that follows edges forward. */
  predicate Path<T(==)>(edges: Edges<T>, p: seq<T>) {
    |p| > 0 && forall i :: 0 <= i < |p| - 1 ==> Step(edges, p, i)
  }

  ghost predicate PathBetween<T>(edges: Edges<T>, p: seq<T>, x: T, y: T) {
    Path(edges, p) && p[0] == x && p[|p| - 1] == y
  }

  /** The reflexive-transitive closure of the edges. */
  ghost predicate Reach<T(!new)>(edges: Edges<T>, x: T, y: T) {
    exists p: seq<T> :: PathBetween(edges, p, x, y)
  }

  /** The transitive closure: at least one edge is followed. */
  ghost predicate ReachPlus<T(!new)>(edges: Edges<T>, x: T, y: T) {
    exists z: T :: (x, z) in edges && Reach(edges, z, y)
  }

  function Inverse<T(==,!new)>(edges: Edges<T>): (r: Edges<T>)
    ensures forall a: T, b: T :: (a, b) in r <==> (b, a) in edges
  {
    set e | e in edges :: (e.1, e.0)
  }

  /** The equivalence closure of the edges. */
  ghost predicate Connected<T(!new)>(edges: Edges<T>, x: T, y: T) {
    Reach(edges + Inverse(edges), x, y)
  }

  lemma PathSuffix<T(!new)>(edges: Edges<T>, p: seq<T>, k: nat)
    requires Path(edges, p) && k < |p|
    ensures Path(edges, p[k..])
  {
    forall i | 0 <= i < |p[k..]| - 1 ensures Step(edges, p[k..], i) { assert Step(edges, p, k + i); }
  }

  lemma ReachReflexive<T(!new)>(edges: Edges<T>, x: T)
    ensures Reach(edges, x, x)
  {
    assert PathBetween(edges, [x], x, x);
  }

  lemma ReachEdge<T(!new)>(edges: Edges<T>, x: T, y: T)
    requires (x, y) in edges
    ensures Reach(edges, x, y)
  {
    assert PathBetween(edges, [x, y], x, y);
  }

  lemma ReachTransitive<T(!new)>(edges: Edges<T>, x: T, y: T, z: T)
    requires Reach(edges, x, y) && Reach(edges, y, z)
    ensures Reach(edges, x, z)
  {
    var p :| PathBetween(edges, p, x, y);
    var q :| PathBetween(edges, q, y, z);
    var r := p + q[1..];
    forall i | 0 <= i < |r| - 1 ensures Step(edges, r, i) {
      assert if i < |p| - 1 then Step(edges, p, i) else Step(edges, q, i - |p| + 1);
    }
    assert PathBetween(edges, r, x, z);
  }

  lemma ReachMonotone<T(!new)>(small: Edges<T>, large: Edges<T>, x: T, y: T)
    requires small <= large && Reach(small, x, y)
    ensures Reach(large, x, y)
  {
    var p :| PathBetween(small, p, x, y);
    forall i | 0 <= i < |p| - 1 ensures Step(large, p, i) { assert Step(small, p, i); }
    assert PathBetween(large, p, x, y);
  }

  ghost predicate ClosedUnder<T(!new)>(edges: Edges<T>, s: iset<T>) {
    forall a: T, b: T :: a in s && (a, b) in edges ==> b in s
  }

  /** A set closed under the edges cannot be left; this is how every upper bound on Reach is proved. */
  lemma {:induction false} ReachStaysInside<T(!new)>(edges: Edges<T>, s: iset<T>, x: T, y: T)
    requires ClosedUnder(edges, s) && x in s && Reach(edges, x, y)
    ensures y in s
  {
    var p :| PathBetween(edges, p, x, y);
    PathStaysInside(edges, s, p, |p| - 1);
  }

  lemma {:induction false} PathStaysInside<T(!new)>(edges: Edges<T>, s: iset<T>, p: seq<T>, k: nat)
    requires ClosedUnder(edges, s) && Path(edges, p) && p[0] in s && k < |p|
    ensures p[k] in s
  {
    if k > 0 {
      PathStaysInside(edges, s, p, k - 1);
      assert Step(edges, p, k - 1);
    }
  }

  /** Following edges backward undoes following them forward. */
  lemma ReachInverse<T(!new)>(edges: Edges<T>, x: T, y: T)
    requires Reach(edges, x, y)
    ensures Reach(Inverse(edges), y, x)
  {
    var s := iset z | Reach(Inverse(edges), z, x);
    ReachReflexive(Inverse(edges), x);
    forall a, b | a in s && (a, b) in edges ensures b in s {
      ReachEdge(Inverse(edges), b, a);
      ReachTransitive(Inverse(edges), b, a, x);
    }
    ReachStaysInside(edges, s, x, y);
  }

  lemma ConnectedSymmetric<T(!new)>(edges: Edges<T>, x: T, y: T)
    requires Connected(edges, x, y)
    ensures Connected(edges, y, x)
  {
    var both := edges + Inverse(edges);
    ReachInverse(both, x, y);
    assert Inverse(both) == both;
  }

  lemma ConnectedReflexive<T(!new)>(edges: Edges<T>, x: T)
    ensures Connected(edges, x, x)
  {
    ReachReflexive(edges + Inverse(edges), x);
  }

  lemma ConnectedEdge<T(!new)>(edges: Edges<T>, x: T, y: T)
    requires (x, y) in edges
    ensures Connected(edges, x, y) && Connected(edges, y, x)
  {
    ReachEdge(edges + Inverse(edges), x, y);
    ReachEdge(edges + Inverse(edges), y, x);
  }

  lemma ConnectedTransitive<T(!new)>(edges: Edges<T>, x: T, y: T, z: T)
    requires Connected(edges, x, y) && Connected(edges, y, z)
    ensures Connected(edges, x, z)
  {
    ReachTransitive(edges + Inverse(edges), x, y, z);
  }

  lemma ConnectedMonotone<T(!new)>(small: Edges<T>, large: Edges<T>, x: T, y: T)
    requires small <= large && Connected(small, x, y)
    ensures Connected(large, x, y)
  {
    ReachMonotone(small + Inverse(small), large + Inverse(large), x, y);
  }

  /** Every predicate that both ends of each edge agree on is constant on a connected class. */
  lemma ConnectedStaysInside<T(!new)>(edges: Edges<T>, s: iset<T>, x: T, y: T)
    requires forall a: T, b: T :: (a, b) in edges ==> (a in s <==> b in s)
    requires x in s && Connected(edges, x, y)
    ensures y in s
  {
    ReachStaysInside(edges + Inverse(edges), s, x, y);
  }

  /** The equivalence closure is contained in any other closure that contains its edges. */
  lemma ClosureIsLeast<T(!new)>(edges: Edges<T>, others: Edges<T>, x: T, y: T)
    requires forall a: T, b: T :: (a, b) in edges ==> Connected(others, a, b)
    requires Connected(edges, x, y)
    ensures Connected(others, x, y)
  {
    var reached := iset z | Connected(others, x, z);
    forall a: T, b: T | (a, b) in edges ensures a in reached <==> b in reached {
      ConnectedSymmetric(others, a, b);
      if a in reached { ConnectedTransitive(others, x, a, b); }
      if b in reached { ConnectedTransitive(others, x, b, a); }
    }
    ConnectedReflexive(others, x);
    ConnectedStaysInside(edges, reached, x, y);
  }

  lemma ReachPlusUnfold<T(!new)>(edges: Edges<T>, x: T, y: T)
    ensures Reach(edges, x, y) <==> x == y || ReachPlus(edges, x, y)
  {
    if Reach(edges, x, y) && x != y {
      var p :| PathBetween(edges, p, x, y);
      assert Step(edges, p, 0);
      PathSuffix(edges, p, 1);
      assert PathBetween(edges, p[1..], p[1], y);
    }
    if ReachPlus(edges, x, y) {
      var z :| (x, z) in edges && Reach(edges, z, y);
      ReachEdge(edges, x, z);
      ReachTransitive(edges, x, z, y);
    }
    ReachReflexive(edges, x);
  }
}
