/** The mutable union-find of the anti-herding layer: path compression and minimum-identifier linking. */
module DisjointSets {
  import opened Ordering
  import opened Reachability

  type Id = string
  type Parents = map<Id, Id>

  /** Map lookup as a named term, so that quantifiers over a chain of lookups stay one step deep. */
  ghost function At(m: map<Id, Id>, x: Id): Id
    requires x in m
  {
    m[x]
  }

  /** Every parent is present and never larger than its child. */
  ghost predicate Descending(p: Parents) {
    forall x {:trigger At(p, x)} :: x in p ==> At(p, x) in p && Le(At(p, x), x)
  }

  ghost function Below(keys: set<Id>, x: Id): set<Id> {
    set y | y in keys && Lt(y, x)
  }

  lemma BelowShrinks(keys: set<Id>, x: Id, y: Id)
    requires y in keys && Lt(y, x)
    ensures Below(keys, y) < Below(keys, x)
  {
    forall z | z in Below(keys, y) ensures z in Below(keys, x) { LtTransitive(z, y, x); }
    LtIrreflexive(y);
    assert y in Below(keys, x) && y !in Below(keys, y);
  }

  /** The representative that the parent pointers lead to. */
  ghost function Root(p: Parents, x: Id): Id
    requires Descending(p) && x in p
    decreases Below(p.Keys, x)
  {
    if At(p, x) == x then x
    else
      BelowShrinks(p.Keys, x, At(p, x));
      Root(p, At(p, x))
  }

  lemma {:induction false} RootIsLeastFixpoint(p: Parents, x: Id)
    requires Descending(p) && x in p
    ensures Root(p, x) in p && p[Root(p, x)] == Root(p, x) && Le(Root(p, x), x)
    decreases Below(p.Keys, x)
  {
    if At(p, x) != x {
      BelowShrinks(p.Keys, x, At(p, x));
      RootIsLeastFixpoint(p, At(p, x));
      LeTransitive(Root(p, At(p, x)), At(p, x), x);
    }
  }

  /** Redirecting one node to something no larger keeps the pointers descending. */
  lemma RedirectionKeepsDescending(p: Parents, v: Id, target: Id)
    requires Descending(p) && v in p && target in p && Le(target, v)
    ensures Descending(p[v := target])
  {
    var q := p[v := target];
    forall x {:trigger At(q, x)} | x in q ensures At(q, x) in q && Le(At(q, x), x) {
      assert x != v ==> At(q, x) == At(p, x);
    }
  }

  /** Redirecting a node to its own root, which is what `find` does, changes no root. */
  lemma {:induction false} CompressionKeepsRoots(p: Parents, v: Id, q: Parents, x: Id)
    requires Descending(p) && Descending(q) && v in p && x in p && q == p[v := Root(p, v)]
    ensures Root(q, x) == Root(p, x)
    decreases Below(p.Keys, x)
  {
    RootIsLeastFixpoint(p, v);
    if x == v {
      assert At(q, v) == Root(p, v);
      assert At(q, Root(p, v)) == Root(p, v);
    } else if At(p, x) != x {
      assert At(q, x) == At(p, x);
      BelowShrinks(p.Keys, x, At(p, x));
      CompressionKeepsRoots(p, v, q, At(p, x));
    } else {
      assert At(q, x) == At(p, x);
    }
  }

  /** Hanging one root below a smaller one moves exactly the class of that root. */
  lemma {:induction false} LinkingMovesOneClass(p: Parents, high: Id, low: Id, q: Parents, x: Id)
    requires Descending(p) && Descending(q) && high in p && low in p && x in p && q == p[high := low]
    requires p[high] == high && p[low] == low && low != high
    ensures Root(q, x) == if Root(p, x) == high then low else Root(p, x)
    decreases Below(p.Keys, x)
  {
    assert At(q, high) == low && At(q, low) == low;
    if x != high {
      assert At(q, x) == At(p, x);
      if At(p, x) != x {
        BelowShrinks(p.Keys, x, At(p, x));
        LinkingMovesOneClass(p, high, low, q, At(p, x));
      }
    }
  }

  /** `labels` names the root of every identifier. */
  ghost predicate LabelledByRoot(p: Parents, labels: map<Id, Id>) {
    Descending(p) && labels.Keys == p.Keys && forall x {:trigger At(labels, x)} :: x in p ==> At(labels, x) == Root(p, x)
  }

  lemma CompressionKeepsLabels(p: Parents, v: Id, labels: map<Id, Id>)
    requires LabelledByRoot(p, labels) && v in p
    ensures LabelledByRoot(p[v := labels[v]], labels)
  {
    assert At(labels, v) == labels[v];
    RootIsLeastFixpoint(p, v);
    var q := p[v := labels[v]];
    RedirectionKeepsDescending(p, v, labels[v]);
    forall x {:trigger At(labels, x)} | x in p ensures At(labels, x) == Root(q, x) {
      CompressionKeepsRoots(p, v, q, x);
    }
  }

  ghost function Relabelled(labels: map<Id, Id>, high: Id, low: Id): map<Id, Id> {
    map x | x in labels :: if labels[x] == high then low else labels[x]
  }

  lemma LinkingMovesOneLabel(p: Parents, high: Id, low: Id, labels: map<Id, Id>, moved: map<Id, Id>)
    requires LabelledByRoot(p, labels) && high in p && low in p
    requires p[high] == high && p[low] == low && Lt(low, high)
    requires moved == Relabelled(labels, high, low)
    ensures LabelledByRoot(p[high := low], moved)
  {
    var q := p[high := low];
    LtIrreflexive(low);
    RedirectionKeepsDescending(p, high, low);
    forall x {:trigger At(moved, x)} | x in p ensures At(moved, x) == Root(q, x) {
      assert At(labels, x) == labels[x];
      LinkingMovesOneClass(p, high, low, q, x);
    }
  }

  /** Two identifiers carry the same label exactly when the pairs united so far connect them. */
  ghost predicate LabelsAreClasses(labels: map<Id, Id>, unions: Edges<Id>) {
    && (forall e :: e in unions ==> e.0 in labels && e.1 in labels)
    && (forall x, y :: x in labels && y in labels ==> (labels[x] == labels[y] <==> Connected(unions, x, y)))
  }

  lemma NothingUnitedYet(labels: map<Id, Id>)
    requires forall x :: x in labels ==> labels[x] == x
    ensures LabelsAreClasses(labels, {})
  {
    forall x, y | x in labels && y in labels ensures labels[x] == labels[y] <==> Connected({}, x, y) {
      if Connected({}, x, y) { ConnectedStaysInside({}, iset{x}, x, y); }
      ConnectedReflexive({}, x);
    }
  }

  lemma ConnectedThrough(unions: Edges<Id>, x: Id, a: Id, b: Id, y: Id)
    requires Connected(unions, x, a) && Connected(unions, b, y)
    ensures Connected(unions + {(a, b)}, x, y)
  {
    var more := unions + {(a, b)};
    ConnectedMonotone(unions, more, x, a);
    ConnectedMonotone(unions, more, b, y);
    ConnectedEdge(more, a, b);
    ConnectedTransitive(more, x, a, b);
    ConnectedTransitive(more, x, b, y);
  }

  /** Merging the labels of two identifiers is the same as adding their pair to the closure. */
  lemma MergingLabelsExtendsClosure(before: map<Id, Id>, after: map<Id, Id>, unions: Edges<Id>, a: Id, b: Id, low: Id)
    requires LabelsAreClasses(before, unions)
    requires a in before && b in before && after.Keys == before.Keys && low in {before[a], before[b]}
    requires forall x :: x in before ==>
               after[x] == if before[x] == before[a] || before[x] == before[b] then low else before[x]
    ensures LabelsAreClasses(after, unions + {(a, b)})
  {
    var more := unions + {(a, b)};
    forall x, y | x in after && y in after ensures after[x] == after[y] <==> Connected(more, x, y) {
      if Connected(more, x, y) {
        ConnectedKeepsLabel(before, after, unions, a, b, x, y);
      }
      if after[x] == after[y] {
        if before[x] == before[y] {
          ConnectedMonotone(unions, more, x, y);
        } else if before[x] == before[a] {
          ConnectedThrough(unions, x, a, b, y);
        } else {
          ConnectedThrough(unions, y, a, b, x);
          ConnectedSymmetric(more, y, x);
        }
      }
    }
  }

  lemma RelabellingUnites(labels: map<Id, Id>, unions: Edges<Id>, a: Id, b: Id, high: Id, low: Id)
    requires LabelsAreClasses(labels, unions) && a in labels && b in labels
    requires (high == labels[a] && low == labels[b]) || (high == labels[b] && low == labels[a])
    ensures LabelsAreClasses(Relabelled(labels, high, low), unions + {(a, b)})
  {
    MergingLabelsExtendsClosure(labels, Relabelled(labels, high, low), unions, a, b, low);
  }

  lemma LabelsAreRoots(p: Parents, labels: map<Id, Id>, x: Id)
    requires LabelledByRoot(p, labels) && x in p
    ensures x in labels && labels[x] in p && p[labels[x]] == labels[x]
  {
    assert At(labels, x) == labels[x];
    RootIsLeastFixpoint(p, x);
  }

  /** Hanging the larger root below the smaller one keeps the labels and adds the pair to the closure. */
  lemma LinkingUnites(p: Parents, labels: map<Id, Id>, unions: Edges<Id>, a: Id, b: Id, high: Id, low: Id)
    requires LabelledByRoot(p, labels) && LabelsAreClasses(labels, unions) && a in p && b in p && Lt(low, high)
    requires (high == labels[a] && low == labels[b]) || (high == labels[b] && low == labels[a])
    ensures high in p && LabelledByRoot(p[high := low], Relabelled(labels, high, low))
    ensures LabelsAreClasses(Relabelled(labels, high, low), unions + {(a, b)})
  {
    LabelsAreRoots(p, labels, a);
    LabelsAreRoots(p, labels, b);
    LinkingMovesOneLabel(p, high, low, labels, Relabelled(labels, high, low));
    RelabellingUnites(labels, unions, a, b, high, low);
  }

  lemma ConnectedKeepsLabel(before: map<Id, Id>, after: map<Id, Id>, unions: Edges<Id>, a: Id, b: Id, x: Id, y: Id)
    requires LabelsAreClasses(before, unions) && a in before && b in before && after.Keys == before.Keys
    requires after[a] == after[b]
    requires forall u, v :: u in before && v in before && before[u] == before[v] ==> after[u] == after[v]
    requires x in after && Connected(unions + {(a, b)}, x, y)
    ensures y in after && after[x] == after[y]
  {
    var s := iset z | z in after && after[z] == after[x];
    forall u: Id, v: Id | (u, v) in unions + {(a, b)} ensures u in s <==> v in s {
      if (u, v) in unions {
        assert (u, v).0 in before && (u, v).1 in before;
        ConnectedEdge(unions, u, v);
      }
    }
    ConnectedStaysInside(unions + {(a, b)}, s, x, y);
  }

  class UnionFind {
    var parent: Parents
    /** The root of every identifier, and the pairs united so far. */
    ghost var root: map<Id, Id>
    ghost var unions: Edges<Id>

    ghost predicate Valid()
      reads this
    {
      LabelledByRoot(parent, root) && LabelsAreClasses(root, unions)
    }

    constructor (identifiers: set<Id>)
      ensures Valid() && parent.Keys == identifiers && unions == {}
    {
      parent := map x | x in identifiers :: x;
      root := map x | x in identifiers :: x;
      unions := {};
      new;
      NothingUnitedYet(root);
    }

    /** Returns the least identifier connected to `value` and points `value` straight at it. */
    method Find(value: Id) returns (r: Id)
      requires Valid() && value in parent
      modifies this`parent
      ensures Valid() && parent.Keys == old(parent.Keys)
      ensures r == root[value] && parent[value] == r && r in parent && root[r] == r
      ensures Connected(unions, value, r)
      ensures forall y :: y in parent && Connected(unions, value, y) ==> Le(r, y)
    {
      r := value;
      assert At(root, value) == root[value];
      while parent[r] != r
        invariant parent == old(parent) && r in parent && Root(parent, r) == root[value]
        decreases Below(parent.Keys, r)
      {
        assert At(parent, r) == parent[r];
        BelowShrinks(parent.Keys, r, parent[r]);
        r := parent[r];
      }
      assert At(parent, r) == r && At(root, r) == root[r];
      forall y | y in parent && Connected(unions, value, y) ensures Le(r, y) {
        assert At(root, y) == root[y] == root[value];
        RootIsLeastFixpoint(parent, y);
      }
      var v := value;
      while parent[v] != v
        invariant LabelledByRoot(parent, root) && parent.Keys == old(parent.Keys)
        invariant v in parent && root[v] == r && root[r] == r
        invariant v == value || parent[value] == r
        decreases Below(parent.Keys, v)
      {
        var next := parent[v];
        assert At(parent, v) == next && At(root, v) == root[v] && At(root, next) == root[next];
        BelowShrinks(parent.Keys, v, next);
        CompressionKeepsLabels(parent, v, root);
        parent := parent[v := r];
        v := next;
      }
      assert At(parent, v) == v && At(root, v) == root[v];
    }

    method Union(left: Id, right: Id)
      requires Valid() && left in parent && right in parent
      modifies this
      ensures Valid() && parent.Keys == old(parent.Keys)
      ensures unions == old(unions) + {(left, right)}
    {
      var leftRoot := Find(left);
      var rightRoot := Find(right);
      ghost var before := root;
      if leftRoot != rightRoot {
        LtTotal(leftRoot, rightRoot);
        var larger := if Lt(leftRoot, rightRoot) then rightRoot else leftRoot;
        var smaller := if Lt(leftRoot, rightRoot) then leftRoot else rightRoot;
        root := Relabelled(before, larger, smaller);
        LinkingUnites(parent, before, unions, left, right, larger, smaller);
        parent := parent[larger := smaller];
      } else {
        MergingLabelsExtendsClosure(before, before, unions, left, right, leftRoot);
      }
      unions := unions + {(left, right)};
    }
  }
}
