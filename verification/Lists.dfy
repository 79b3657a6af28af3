/** Filtering and mapping lists, and what reordering a list does to the result. */
module Lists {
  import opened Ordering
  import opened Schema

  /** The results that `f` keeps, in order. */
  function FilterMap<T, U>(f: T -> Option<U>, s: seq<T>): seq<U> {
    if s == [] then []
    else
      var last := |s| - 1;
      FilterMap(f, s[..last]) + match f(s[last]) { case Some(y) => [y] case None => [] }
  }

  lemma Associative<T>(a: seq<T>, b: seq<T>, c: seq<T>)
    ensures a + b + c == a + (b + c)
  {
  }

  lemma {:induction false} FilterMapConcat<T, U>(f: T -> Option<U>, s: seq<T>, t: seq<T>)
    ensures FilterMap(f, s + t) == FilterMap(f, s) + FilterMap(f, t)
  {
    if t == [] {
      assert s + t == s;
    } else {
      var last := |t| - 1;
      FilterMapConcat(f, s, t[..last]);
      assert (s + t)[..|s + t| - 1] == s + t[..last];
    }
  }

  lemma FilterMapOne<T, U>(f: T -> Option<U>, x: T)
    ensures FilterMap(f, [x]) == match f(x) { case Some(y) => [y] case None => [] }
  {
    assert [x][..0] == [] && FilterMap(f, []) == [];
  }

  lemma {:induction false} FilterMapMembers<T, U>(f: T -> Option<U>, s: seq<T>)
    ensures forall x :: x in s && f(x).Some? ==> f(x).value in FilterMap(f, s)
    ensures forall y :: y in FilterMap(f, s) ==> exists x :: x in s && f(x) == Some(y)
  {
    if s != [] {
      var last := |s| - 1;
      FilterMapMembers(f, s[..last]);
      assert s == s[..last] + [s[last]];
    }
  }

  lemma MultisetMiddle<T>(a: seq<T>, b: seq<T>, c: seq<T>)
    ensures multiset(a + b + c) == multiset(a + c) + multiset(b)
  {
  }

  ghost function Yield<T, U>(f: T -> Option<U>, x: T): multiset<U> {
    if f(x).Some? then multiset{f(x).value} else multiset{}
  }

  lemma YieldOfOne<T, U>(f: T -> Option<U>, x: T)
    ensures multiset(FilterMap(f, [x])) == Yield(f, x)
  {
    assert [x][..0] == [];
  }

  lemma FilterMapMiddle<T, U>(f: T -> Option<U>, before: seq<T>, x: T, after: seq<T>)
    ensures FilterMap(f, before + [x] + after) == FilterMap(f, before) + FilterMap(f, [x]) + FilterMap(f, after)
    ensures FilterMap(f, before + after) == FilterMap(f, before) + FilterMap(f, after)
  {
    FilterMapConcat(f, before, after);
    FilterMapConcat(f, before + [x], after);
    FilterMapConcat(f, before, [x]);
  }

  /** An element contributes the same wherever it stands. */
  lemma RemoveAt<T, U>(f: T -> Option<U>, s: seq<T>, j: nat) returns (rest: seq<T>)
    requires j < |s|
    ensures |rest| < |s| && multiset(s) == multiset(rest) + multiset{s[j]}
    ensures multiset(FilterMap(f, s)) == multiset(FilterMap(f, rest)) + Yield(f, s[j])
  {
    var before, x, after := s[..j], s[j], s[j + 1..];
    assert s == before + [x] + after;
    MultisetMiddle(before, [x], after);
    FilterMapMiddle(f, before, x, after);
    MultisetMiddle(FilterMap(f, before), FilterMap(f, [x]), FilterMap(f, after));
    YieldOfOne(f, x);
    rest := before + after;
  }

  /** Reordering the input reorders the output. */
  lemma {:induction false} FilterMapPermutes<T, U>(f: T -> Option<U>, s: seq<T>, t: seq<T>)
    requires multiset(s) == multiset(t)
    ensures multiset(FilterMap(f, s)) == multiset(FilterMap(f, t))
    decreases |s|
  {
    if s == [] {
      assert |multiset(t)| == |t|;
    } else {
      var j := Somewhere(s[0], s, t);
      var s' := RemoveAt(f, s, 0);
      var t' := RemoveAt(f, t, j);
      MultisetCancel(multiset(s'), multiset(t'), multiset{s[0]});
      FilterMapPermutes(f, s', t');
    }
  }

  lemma Somewhere<T>(x: T, s: seq<T>, t: seq<T>) returns (j: nat)
    requires multiset(s) == multiset(t) && x in s
    ensures j < |t| && t[j] == x
  {
    MembersOfEqualMultisets(s, t);
    j :| 0 <= j < |t| && t[j] == x;
  }

  lemma MultisetCancel<T>(a: multiset<T>, b: multiset<T>, c: multiset<T>)
    requires a + c == b + c
    ensures a == b
  {
    assert a == (a + c) - c == (b + c) - c == b;
  }

  /** `values.map(f)`. */
  function Map<T, U>(f: T -> U, s: seq<T>): (r: seq<U>)
    ensures |r| == |s| && forall i :: 0 <= i < |r| ==> r[i] == f(s[i])
  {
    seq(|s|, i requires 0 <= i < |s| => f(s[i]))
  }

  lemma MapOneMore<T, U>(f: T -> U, s: seq<T>, x: T)
    ensures Map(f, s + [x]) == Map(f, s) + [f(x)]
  {
  }

  lemma {:induction false} MapIsFilterMap<T, U>(f: T -> U, s: seq<T>)
    ensures FilterMap((x: T) => Some(f(x)), s) == Map(f, s)
  {
    if s != [] { MapIsFilterMap(f, s[..|s| - 1]); }
  }

  lemma MapPermutes<T, U>(f: T -> U, s: seq<T>, t: seq<T>)
    requires multiset(s) == multiset(t)
    ensures multiset(Map(f, s)) == multiset(Map(f, t))
  {
    FilterMapPermutes((x: T) => Some(f(x)), s, t);
    MapIsFilterMap(f, s);
    MapIsFilterMap(f, t);
  }

  ghost predicate DistinctBy<T>(key: T -> string, s: seq<T>) {
    forall i, j :: 0 <= i < j < |s| ==> key(s[i]) != key(s[j])
  }

  /** Having distinct keys does not depend on the order. */
  lemma DistinctByPermutes<T>(key: T -> string, s: seq<T>, t: seq<T>)
    requires multiset(s) == multiset(t) && DistinctBy(key, s)
    ensures DistinctBy(key, t)
  {
    MembersOfEqualMultisets(s, t);
    DistinctIsCanonical(s, t);
    forall i, j | 0 <= i < j < |t| ensures key(t[i]) != key(t[j]) {
      assert t[i] != t[j] && t[i] in s && t[j] in s;
      var k :| 0 <= k < |s| && s[k] == t[i];
      var l :| 0 <= l < |s| && s[l] == t[j];
    }
  }

  /** The first occurrence of each element, as a JavaScript `Set` lists them. */
  function Unique<T(==)>(s: seq<T>): seq<T> {
    if s == [] then []
    else
      var before := Unique(s[..|s| - 1]);
      if s[|s| - 1] in before then before else before + [s[|s| - 1]]
  }

  lemma {:induction false} UniqueIsDistinct<T(!new)>(s: seq<T>)
    ensures Distinct(Unique(s)) && Elements(Unique(s)) == Elements(s)
  {
    if s != [] {
      var last := |s| - 1;
      UniqueIsDistinct(s[..last]);
      assert s == s[..last] + [s[last]];
      assert forall x :: x in Unique(s[..last]) <==> x in Elements(Unique(s[..last]));
    }
  }

  function Nonempty(s: seq<string>): (r: seq<string>)
    ensures forall x :: x in r <==> x in s && x != ""
  {
    if s == [] then [] else (if s[0] == "" then [] else [s[0]]) + Nonempty(s[1..])
  }

  /** `Array.from(new Set(values.filter(Boolean))).sort()`: the nonempty values, each once, in order. */
  function SortedUnique(s: seq<string>): seq<string> {
    Sort(Unique(Nonempty(s)))
  }

  /** The normalized list depends on the set of values only, and lists it in increasing order. */
  lemma SortedUniqueListsTheSet(s: seq<string>)
    ensures Increasing(SortedUnique(s)) && Elements(SortedUnique(s)) == Elements(s) - {""}
  {
    UniqueIsDistinct(Nonempty(s));
    SortEnumerates(Unique(Nonempty(s)));
  }

  /** How many elements satisfy the predicate. */
  function CountIf<T>(p: T -> bool, s: seq<T>): nat {
    if s == [] then 0 else CountIf(p, s[..|s| - 1]) + if p(s[|s| - 1]) then 1 else 0
  }

  lemma CountOneMore<T>(p: T -> bool, s: seq<T>, x: T)
    ensures CountIf(p, s + [x]) == CountIf(p, s) + if p(x) then 1 else 0
  {
    assert (s + [x])[..|s|] == s;
  }

  lemma {:induction false} CountConcat<T>(p: T -> bool, s: seq<T>, t: seq<T>)
    ensures CountIf(p, s + t) == CountIf(p, s) + CountIf(p, t)
  {
    if t == [] {
      assert s + t == s;
    } else {
      CountConcat(p, s, t[..|t| - 1]);
      assert (s + t)[..|s + t| - 1] == s + t[..|t| - 1];
    }
  }

  lemma {:induction false} CountIsFilterSize<T>(p: T -> bool, s: seq<T>)
    ensures CountIf(p, s) == |FilterMap((x: T) => if p(x) then Some(x) else None, s)|
  {
    if s != [] { CountIsFilterSize(p, s[..|s| - 1]); }
  }

  lemma CountPermutes<T>(p: T -> bool, s: seq<T>, t: seq<T>)
    requires multiset(s) == multiset(t)
    ensures CountIf(p, s) == CountIf(p, t)
  {
    var keep := (x: T) => if p(x) then Some(x) else None;
    FilterMapPermutes(keep, s, t);
    CountIsFilterSize(p, s);
    CountIsFilterSize(p, t);
    assert |multiset(FilterMap(keep, s))| == |FilterMap(keep, s)| && |multiset(FilterMap(keep, t))| == |FilterMap(keep, t)|;
  }

  lemma {:induction false} CountNone<T>(p: T -> bool, s: seq<T>)
    ensures CountIf(p, s) == 0 <==> forall x :: x in s ==> !p(x)
  {
    if s != [] {
      CountNone(p, s[..|s| - 1]);
      assert s == s[..|s| - 1] + [s[|s| - 1]];
    }
  }

  ghost function Satisfying<T(!new)>(f: T -> bool, s: seq<T>): set<T> {
    set x | x in s && f(x)
  }

  lemma {:induction false} CountIsSetSize<T(!new)>(f: T -> bool, s: seq<T>)
    requires Distinct(s)
    ensures CountIf(f, s) == |Satisfying(f, s)|
  {
    if s == [] {
      assert Satisfying(f, s) == {};
    } else {
      var init, last := s[..|s| - 1], s[|s| - 1];
      CountIsSetSize(f, init);
      SatisfyingOneMore(f, init, last);
      assert s == init + [last];
    }
  }

  lemma SatisfyingOneMore<T(!new)>(f: T -> bool, s: seq<T>, last: T)
    requires last !in s
    ensures |Satisfying(f, s + [last])| == |Satisfying(f, s)| + if f(last) then 1 else 0
  {
    assert Satisfying(f, s + [last]) == Satisfying(f, s) + if f(last) then {last} else {};
  }

  /** The sum of what `f` makes of the elements. */
  function Total<T>(f: T -> nat, s: seq<T>): nat {
    if s == [] then 0 else Total(f, s[..|s| - 1]) + f(s[|s| - 1])
  }

  lemma TotalOneMore<T>(f: T -> nat, s: seq<T>, x: T)
    ensures Total(f, s + [x]) == Total(f, s) + f(x)
  {
    assert (s + [x])[..|s|] == s;
  }

  lemma {:induction false} TotalConcat<T>(f: T -> nat, s: seq<T>, t: seq<T>)
    ensures Total(f, s + t) == Total(f, s) + Total(f, t)
  {
    if t == [] {
      assert s + t == s;
    } else {
      TotalConcat(f, s, t[..|t| - 1]);
      assert (s + t)[..|s + t| - 1] == s + t[..|t| - 1];
    }
  }

  lemma {:induction false} TotalSame<T>(f: T -> nat, g: T -> nat, s: seq<T>)
    requires forall x :: x in s ==> f(x) == g(x)
    ensures Total(f, s) == Total(g, s)
  {
    if s != [] { TotalSame(f, g, s[..|s| - 1]); }
  }

  lemma {:induction false} TotalOfMap<T, U>(f: U -> nat, g: T -> U, h: T -> nat, s: seq<T>)
    requires forall x :: x in s ==> f(g(x)) == h(x)
    ensures Total(f, Map(g, s)) == Total(h, s)
  {
    if s != [] {
      assert Map(g, s)[..|s| - 1] == Map(g, s[..|s| - 1]);
      TotalOfMap(f, g, h, s[..|s| - 1]);
    }
  }

  lemma TotalWithout<T>(f: T -> nat, s: seq<T>, j: nat) returns (rest: seq<T>)
    requires j < |s|
    ensures |rest| < |s| && multiset(s) == multiset(rest) + multiset{s[j]} && Total(f, s) == Total(f, rest) + f(s[j])
  {
    var before, x, after := s[..j], s[j], s[j + 1..];
    assert s == before + [x] + after;
    MultisetMiddle(before, [x], after);
    TotalConcat(f, before + [x], after);
    TotalOneMore(f, before, x);
    TotalConcat(f, before, after);
    rest := before + after;
  }

  /** A sum does not depend on the order of its terms. */
  lemma {:induction false} TotalPermutes<T>(f: T -> nat, s: seq<T>, t: seq<T>)
    requires multiset(s) == multiset(t)
    ensures Total(f, s) == Total(f, t)
    decreases |s|
  {
    if s == [] {
      assert |multiset(t)| == |t|;
    } else {
      var j := Somewhere(s[0], s, t);
      var s' := TotalWithout(f, s, 0);
      var t' := TotalWithout(f, t, j);
      MultisetCancel(multiset(s'), multiset(t'), multiset{s[0]});
      TotalPermutes(f, s', t');
    }
  }

  /** `text.includes(token)`. */
  predicate Includes(text: string, token: string) {
    exists i :: 0 <= i <= |text| - |token| && StandsAt(text, token, i)
  }

  predicate StandsAt(text: string, token: string, i: int)
    requires 0 <= i <= |text| - |token|
  {
    text[i..i + |token|] == token
  }

  /** The text is the token with something around it. */
  ghost predicate Surrounds(text: string, token: string) {
    exists before, after :: text == before + token + after
  }

  lemma IncludesIff(text: string, token: string)
    ensures Includes(text, token) <==> Surrounds(text, token)
  {
    if before, after :| text == before + token + after {
      assert StandsAt(text, token, |before|);
    }
    if i :| 0 <= i <= |text| - |token| && StandsAt(text, token, i) {
      assert text == text[..i] + token + text[i + |token|..];
    }
  }
}
