/** Strings in code-point order, and sorting by that order. */
module Ordering {

  /** Strict lexicographic order, Python's `<` on `str` and the default order of JavaScript's `sort`. */
  predicate Lt(a: string, b: string) {
    |b| > 0 && (|a| == 0 || a[0] < b[0] || (a[0] == b[0] && Lt(a[1..], b[1..])))
  }

  lemma {:induction false} LtIrreflexive(a: string)
    ensures !Lt(a, a)
  {
    if |a| > 0 { LtIrreflexive(a[1..]); }
  }

  lemma {:induction false} LtTransitive(a: string, b: string, c: string)
    requires Lt(a, b) && Lt(b, c)
    ensures Lt(a, c)
  {
    if |a| > 0 && a[0] == b[0] == c[0] { LtTransitive(a[1..], b[1..], c[1..]); }
  }

  lemma {:induction false} LtTotal(a: string, b: string)
    ensures Lt(a, b) || a == b || Lt(b, a)
  {
    if |a| > 0 && |b| > 0 && a[0] == b[0] {
      LtTotal(a[1..], b[1..]);
      if a[1..] == b[1..] { assert a == [a[0]] + a[1..] == b; }
    }
  }

  /** After `k` equal characters the first text ends, or goes on with the smaller character. */
  predicate SmallerAt(a: string, b: string, k: nat) {
    k <= |a| && k < |b| && a[..k] == b[..k] && (k == |a| || a[k] < b[k])
  }

  /** Smaller means: a proper prefix, or the smaller character at the first difference. */
  lemma {:induction false} LtIsLexicographic(a: string, b: string)
    ensures Lt(a, b) <==> exists k: nat :: SmallerAt(a, b, k)
  {
    if |a| > 0 && |b| > 0 && a[0] == b[0] {
      LtIsLexicographic(a[1..], b[1..]);
      if k: nat :| SmallerAt(a[1..], b[1..], k) {
        assert a[..k + 1] == [a[0]] + a[1..][..k] && b[..k + 1] == [b[0]] + b[1..][..k];
        assert SmallerAt(a, b, k + 1);
      }
      if k: nat :| SmallerAt(a, b, k) {
        assert k > 0;
        assert a[1..][..k - 1] == a[..k][1..] && b[1..][..k - 1] == b[..k][1..];
        assert SmallerAt(a[1..], b[1..], k - 1);
      }
    } else if |b| > 0 && (|a| == 0 || a[0] < b[0]) {
      assert SmallerAt(a, b, 0);
    } else {
      forall k: nat | 0 < k <= |a| && k < |b| ensures a[..k] != b[..k] { assert a[..k][0] == a[0] && b[..k][0] == b[0]; }
    }
  }

  predicate Le(a: string, b: string) {
    a == b || Lt(a, b)
  }

  lemma LeTransitive(a: string, b: string, c: string)
    requires Le(a, b) && Le(b, c)
    ensures Le(a, c) && (Lt(a, b) || Lt(b, c) ==> Lt(a, c))
  {
    if a != b && b != c { LtTransitive(a, b, c); }
  }

  lemma LeAntisymmetric(a: string, b: string)
    requires Le(a, b) && Le(b, a)
    ensures a == b
  {
    if a != b {
      LtTransitive(a, b, a);
      LtIrreflexive(a);
    }
  }

  /** The order facts, for all strings at once. */
  lemma LtIsStrictTotalOrder()
    ensures forall a: string :: !Lt(a, a)
    ensures forall a: string, b: string, c: string :: Lt(a, b) && Lt(b, c) ==> Lt(a, c)
    ensures forall a: string, b: string :: Lt(a, b) || a == b || Lt(b, a)
  {
    forall a: string ensures !Lt(a, a) { LtIrreflexive(a); }
    forall a: string, b: string, c: string | Lt(a, b) && Lt(b, c) ensures Lt(a, c) { LtTransitive(a, b, c); }
    forall a: string, b: string ensures Lt(a, b) || a == b || Lt(b, a) { LtTotal(a, b); }
  }

  /** `before` says which of two elements may stand first; ties are allowed. */
  ghost predicate TotalPreorder<T(!new)>(before: (T, T) -> bool) {
    && (forall a: T, b: T :: before(a, b) || before(b, a))
    && (forall a: T, b: T, c: T :: before(a, b) && before(b, c) ==> before(a, c))
  }

  ghost predicate TotalOrder<T(!new)>(before: (T, T) -> bool) {
    TotalPreorder(before) && forall a: T, b: T :: before(a, b) && before(b, a) ==> a == b
  }

  predicate SortedBy<T>(before: (T, T) -> bool, s: seq<T>) {
    forall i, j :: 0 <= i < j < |s| ==> before(s[i], s[j])
  }

  function InsertBy<T>(before: (T, T) -> bool, x: T, s: seq<T>): (r: seq<T>)
    ensures multiset(r) == multiset{x} + multiset(s) && |r| == |s| + 1
  {
    if s == [] then [x]
    else if before(x, s[0]) then [x] + s
    else
      assert s == [s[0]] + s[1..];
      [s[0]] + InsertBy(before, x, s[1..])
  }

  /** The stable library sort. */
  function SortBy<T>(before: (T, T) -> bool, s: seq<T>): (r: seq<T>)
    ensures multiset(r) == multiset(s) && |r| == |s|
  {
    if s == [] then []
    else
      assert s == [s[0]] + s[1..];
      InsertBy(before, s[0], SortBy(before, s[1..]))
  }

  lemma MembersOfEqualMultisets<T>(s: seq<T>, t: seq<T>)
    requires multiset(s) == multiset(t)
    ensures forall x :: x in s <==> x in t
  {
    assert forall x :: x in s <==> x in multiset(s);
  }

  lemma {:induction false} InsertBySorts<T(!new)>(before: (T, T) -> bool, x: T, s: seq<T>)
    requires TotalPreorder(before) && SortedBy(before, s)
    ensures SortedBy(before, InsertBy(before, x, s))
  {
    if s != [] && !before(x, s[0]) {
      var rest := InsertBy(before, x, s[1..]);
      InsertBySorts(before, x, s[1..]);
      forall y | y in rest ensures before(s[0], y) {
        assert y in multiset(rest);
        assert y == x || y in s[1..];
      }
    }
  }

  lemma {:induction false} SortBySorts<T(!new)>(before: (T, T) -> bool, s: seq<T>)
    requires TotalPreorder(before)
    ensures SortedBy(before, SortBy(before, s))
  {
    if s != [] {
      SortBySorts(before, s[1..]);
      InsertBySorts(before, s[0], SortBy(before, s[1..]));
    }
  }

  /** When the elements have no ties there is one way to sort them. */
  lemma {:induction false} SortedSequencesAgree<T(!new)>(before: (T, T) -> bool, s: seq<T>, t: seq<T>)
    requires TotalPreorder(before) && SortedBy(before, s) && SortedBy(before, t) && multiset(s) == multiset(t)
    requires forall a, b :: a in s && b in s && before(a, b) && before(b, a) ==> a == b
    ensures s == t
  {
    assert |multiset(s)| == |s| && |multiset(t)| == |t|;
    if s != [] {
      MembersOfEqualMultisets(s, t);
      assert s[0] in t && t[0] in s;
      assert s[0] == t[0];
      TailsAgree(s, t);
      SortedSequencesAgree(before, s[1..], t[1..]);
      assert s == [s[0]] + s[1..] && t == [t[0]] + t[1..];
    }
  }

  lemma TailsAgree<T>(s: seq<T>, t: seq<T>)
    requires s != [] && t != [] && s[0] == t[0] && multiset(s) == multiset(t)
    ensures multiset(s[1..]) == multiset(t[1..])
  {
    assert s == [s[0]] + s[1..] && t == [t[0]] + t[1..];
    assert multiset(s[1..]) == multiset(s) - multiset{s[0]};
    assert multiset(t[1..]) == multiset(t) - multiset{t[0]};
  }

  const LE: (string, string) -> bool := (a: string, b: string) => Le(a, b)

  lemma LeIsTotalOrder()
    ensures TotalOrder(LE)
  {
    LtIsStrictTotalOrder();
  }

  function Sort(s: seq<string>): seq<string> {
    SortBy(LE, s)
  }

  /** Sorting depends on the collection only, not on the order it is given in. */
  lemma SortIsCanonical(s: seq<string>, t: seq<string>)
    ensures Sort(s) == Sort(t) <==> multiset(s) == multiset(t)
    ensures Sort(Sort(s)) == Sort(s)
  {
    LeIsTotalOrder();
    SortBySorts(LE, s);
    SortBySorts(LE, t);
    SortBySorts(LE, Sort(s));
    SortedSequencesAgree(LE, Sort(s), Sort(Sort(s)));
    if multiset(s) == multiset(t) { SortedSequencesAgree(LE, Sort(s), Sort(t)); }
  }

  predicate Increasing(s: seq<string>) {
    forall i, j :: 0 <= i < j < |s| ==> Lt(s[i], s[j])
  }

  ghost function Elements<T>(s: seq<T>): set<T> {
    set x | x in s
  }

  /** A set has one increasing enumeration. */
  lemma {:induction false} IncreasingSequencesAgree(s: seq<string>, t: seq<string>)
    requires Increasing(s) && Increasing(t) && Elements(s) == Elements(t)
    ensures s == t
  {
    if s == [] || t == [] {
      assert forall u: seq<string> :: u != [] ==> u[0] in Elements(u);
    } else {
      LtIsStrictTotalOrder();
      assert s[0] in Elements(s) && t[0] in Elements(t);
      assert s[0] == t[0];
      assert Elements(s[1..]) == Elements(s) - {s[0]};
      assert Elements(t[1..]) == Elements(t) - {t[0]};
      IncreasingSequencesAgree(s[1..], t[1..]);
      assert s == [s[0]] + s[1..] == t;
    }
  }

  predicate Distinct<T(==)>(s: seq<T>) {
    forall i, j :: 0 <= i < j < |s| ==> s[i] != s[j]
  }

  lemma DistinctConcat<T>(s: seq<T>, t: seq<T>)
    requires Distinct(s) && Distinct(t) && forall x :: x in t ==> x !in s
    ensures Distinct(s + t)
  {
    var st := s + t;
    forall i, j | 0 <= i < j < |st| ensures st[i] != st[j] {
      if |s| <= j {
        assert st[j] == t[j - |s|];
        if |s| <= i {
          assert st[i] == t[i - |s|];
        } else {
          assert st[j] in t && st[i] in s;
        }
      }
    }
  }

  lemma {:induction false} DistinctMeansSingle<T>(s: seq<T>, x: T)
    requires Distinct(s)
    ensures multiset(s)[x] <= 1
  {
    if s != [] {
      DistinctMeansSingle(s[1..], x);
      assert s == [s[0]] + s[1..];
    }
  }

  lemma RepeatedMeansMultiple<T>(s: seq<T>, i: nat, j: nat)
    requires i < j < |s| && s[i] == s[j]
    ensures multiset(s)[s[i]] >= 2
  {
    assert s == s[..i] + [s[i]] + s[i + 1..j] + [s[j]] + s[j + 1..];
  }

  /** Having no repetitions depends on the collection only. */
  lemma DistinctIsCanonical<T>(s: seq<T>, t: seq<T>)
    requires multiset(s) == multiset(t) && Distinct(s)
    ensures Distinct(t)
  {
    if i, j :| 0 <= i < j < |t| && t[i] == t[j] {
      DistinctMeansSingle(s, t[i]);
      RepeatedMeansMultiple(t, i, j);
    }
  }

  lemma DistinctWithSameElements<T(!new)>(s: seq<T>, t: seq<T>)
    requires Distinct(s) && Distinct(t) && forall x :: x in s <==> x in t
    ensures multiset(s) == multiset(t)
  {
    forall x ensures multiset(s)[x] == multiset(t)[x] {
      DistinctMeansSingle(s, x);
      DistinctMeansSingle(t, x);
      assert x in s <==> x in multiset(s);
      assert x in t <==> x in multiset(t);
    }
  }

  /** Sorting a list without repetitions enumerates it in increasing order. */
  lemma SortEnumerates(s: seq<string>)
    requires Distinct(s)
    ensures Increasing(Sort(s)) && Elements(Sort(s)) == Elements(s)
  {
    LeIsTotalOrder();
    SortBySorts(LE, s);
    MembersOfEqualMultisets(Sort(s), s);
    DistinctIsCanonical(s, Sort(s));
  }

  ghost function SortedSet(s: set<string>): (r: seq<string>)
    ensures Increasing(r) && Elements(r) == s
  {
    var e := SomeEnumeration(s);
    SortEnumerates(e);
    Sort(e)
  }

  ghost function SomeEnumeration<T>(s: set<T>): (r: seq<T>)
    ensures Elements(r) == s && Distinct(r)
  {
    if s == {} then []
    else
      var x :| x in s;
      var rest := SomeEnumeration(s - {x});
      assert Elements([x] + rest) == {x} + Elements(rest);
      [x] + rest
  }

  lemma TakeOne<T>(all: set<T>, todo: set<T>, x: T)
    requires todo <= all && x in todo
    ensures all - (todo - {x}) == all - todo + {x}
  {
  }

  /** `output` lists the values that `f` takes on `domain`, each once. */
  ghost predicate ListsImage<T(!new), U>(output: seq<U>, f: T -> U, domain: set<T>) {
    && (forall x :: x in domain ==> f(x) in output)
    && (forall c :: c in output ==> exists x :: x in domain && c == f(x))
    && Distinct(output)
  }

  lemma ListsImageGrows<T(!new), U>(output: seq<U>, f: T -> U, domain: set<T>, x: T)
    requires ListsImage(output, f, domain) && forall y :: y in domain ==> f(y) != f(x)
    ensures ListsImage(output + [f(x)], f, domain + {x})
  {
    forall c | c in output ensures c != f(x) {
      var y :| y in domain && c == f(y);
    }
    DistinctConcat(output, [f(x)]);
    forall c | c in output + [f(x)] ensures exists y :: y in domain + {x} && c == f(y) {
      if c in output {
        var y :| y in domain && c == f(y);
        assert y in domain + {x};
      } else {
        assert x in domain + {x};
      }
    }
  }

  /** Some argument in `domain` has the same value as `x`. */
  ghost predicate HasTwin<T(!new), U>(f: T -> U, domain: set<T>, x: T) {
    exists y :: y in domain && f(y) == f(x)
  }

  /** The list depends neither on its own order nor on which of several arguments with one value is used. */
  lemma ListsSameImage<T(!new), U(!new)>(output: seq<U>, other: seq<U>, f: T -> U, domain: set<T>, larger: set<T>)
    requires ListsImage(output, f, domain) && domain <= larger && multiset(output) == multiset(other)
    requires forall x {:trigger HasTwin(f, domain, x)} :: x in larger ==> HasTwin(f, domain, x)
    ensures ListsImage(other, f, larger)
  {
    DistinctIsCanonical(output, other);
    MembersOfEqualMultisets(output, other);
    SameMembersSameImage(output, other, f, domain, larger);
  }

  lemma SameMembersSameImage<T(!new), U(!new)>(output: seq<U>, other: seq<U>, f: T -> U, domain: set<T>, larger: set<T>)
    requires ListsImage(output, f, domain) && domain <= larger && Distinct(other)
    requires forall c :: c in output <==> c in other
    requires forall x {:trigger HasTwin(f, domain, x)} :: x in larger ==> HasTwin(f, domain, x)
    ensures ListsImage(other, f, larger)
  {
    ImageIsListed(output, other, f, domain, larger);
    forall c | c in other ensures exists x :: x in larger && c == f(x) {
      var x :| x in domain && c == f(x);
      assert x in larger;
    }
  }

  lemma ImageIsListed<T(!new), U(!new)>(output: seq<U>, other: seq<U>, f: T -> U, domain: set<T>, larger: set<T>)
    requires forall x :: x in domain ==> f(x) in output
    requires forall c :: c in output ==> c in other
    requires forall x {:trigger HasTwin(f, domain, x)} :: x in larger ==> HasTwin(f, domain, x)
    ensures forall x :: x in larger ==> f(x) in other
  {
    forall x | x in larger ensures f(x) in other {
      assert HasTwin(f, domain, x);
      var y :| y in domain && f(y) == f(x);
      assert f(y) in output;
    }
  }

  /** The library `sorted` on a set of strings. */
  method SortSet(s: set<string>) returns (r: seq<string>)
    ensures r == SortedSet(s)
  {
    var items: seq<string> := [];
    var rest := s;
    while rest != {}
      invariant rest <= s && Elements(items) == s - rest && Distinct(items)
    {
      var x :| x in rest;
      assert forall i :: 0 <= i < |items| ==> items[i] in Elements(items);
      assert Elements(items + [x]) == Elements(items) + {x};
      items := items + [x];
      rest := rest - {x};
    }
    SortEnumerates(items);
    r := Sort(items);
    IncreasingSequencesAgree(r, SortedSet(s));
  }

  /** The library `max` with a key: the first element that no later one exceeds. */
  method MaxBy<T(!new)>(atLeast: (T, T) -> bool, s: seq<T>) returns (r: T)
    requires s != [] && TotalPreorder(atLeast)
    ensures r in s && forall a :: a in s ==> atLeast(r, a)
  {
    r := s[0];
    for i := 1 to |s|
      invariant r in s && forall j :: 0 <= j < i ==> atLeast(r, s[j])
    {
      if !atLeast(r, s[i]) { r := s[i]; }
    }
  }

  /** The list comprehension `[x for x in s if x not in t]`. */
  function Without<T(==,!new)>(s: seq<T>, t: seq<T>): (r: seq<T>)
    ensures forall x :: x in r <==> x in s && x !in t
    ensures |r| <= |s|
  {
    if s == [] then [] else (if s[0] in t then [] else [s[0]]) + Without(s[1..], t)
  }

  lemma {:induction false} WithoutKeepsDistinct<T(!new)>(s: seq<T>, t: seq<T>)
    requires Distinct(s)
    ensures Distinct(Without(s, t))
  {
    if s != [] {
      WithoutKeepsDistinct(s[1..], t);
      assert s[0] !in s[1..];
    }
  }

  lemma {:induction false} DistinctSize<T>(s: seq<T>)
    requires Distinct(s)
    ensures |Elements(s)| == |s|
  {
    if s != [] {
      DistinctSize(s[1..]);
      assert s[0] !in s[1..];
      assert Elements(s) == {s[0]} + Elements(s[1..]);
    }
  }

  lemma WithoutSize<T(!new)>(s: seq<T>, t: seq<T>)
    requires Distinct(s) && Distinct(t) && forall x :: x in t ==> x in s
    ensures |Without(s, t)| == |s| - |t|
  {
    WithoutKeepsDistinct(s, t);
    DistinctSize(s);
    DistinctSize(t);
    DistinctSize(Without(s, t));
    assert Elements(s) == Elements(Without(s, t)) + Elements(t);
  }
}
