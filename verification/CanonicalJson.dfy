/** Canonical JSON: sorted keys, sorted string arrays, no undefined values. */
module CanonicalJson {
  import opened Ordering

  /** A JavaScript value; `Other` is a function, symbol or anything else that JSON cannot hold. */
  datatype Json =
    | Undefined
    | Null
    | Bool(flag: bool)
    | Num(number: real)
    | Str(text: string)
    | Arr(items: seq<Json>)
    | Obj(fields: map<string, Json>)
    | Other

  /** Assigning to this key sets the prototype of the new object instead of adding a field. */
  const PROTOTYPE := "__proto__"

  predicate IsStringArray(items: seq<Json>) {
    forall x :: x in items ==> x.Str?
  }

  function Texts(items: seq<Json>): (r: seq<string>)
    requires IsStringArray(items)
    ensures |r| == |items| && forall i :: 0 <= i < |r| ==> r[i] == items[i].text
  {
    seq(|items|, i requires 0 <= i < |items| => items[i].text)
  }

  function Strings(texts: seq<string>): (r: seq<Json>)
    ensures |r| == |texts| && (forall i :: 0 <= i < |r| ==> r[i] == Str(texts[i])) && IsStringArray(r) && Texts(r) == texts
  {
    seq(|texts|, i requires 0 <= i < |texts| => Str(texts[i]))
  }

  predicate Survives(x: Json) {
    !x.Undefined? && !x.Other?
  }

  /** Reading a missing property gives undefined; the prototype property is no field. */
  function Read(fields: map<string, Json>, k: string): Json {
    if k in fields && k != PROTOTYPE then fields[k] else Undefined
  }

  predicate Kept(fields: map<string, Json>, k: string) {
    Survives(Read(fields, k))
  }

  function Canonicalize(v: Json): (r: Json)
    ensures !r.Other? && (r.Undefined? <==> !Survives(v)) && (r.Str? <==> v.Str?)
  {
    match v
    case Arr(items) => Arr(if IsStringArray(items) then Strings(Sort(Texts(items))) else CanonicalItems(items))
    case Obj(fields) => Obj(map k | k in fields && Kept(fields, k) :: Canonicalize(Read(fields, k)))
    case Other => Undefined
    case _ => v
  }

  /** The elements that are not undefined, in order. */
  function Survivors(items: seq<Json>): (r: seq<Json>)
    ensures forall x :: x in r <==> x in items && Survives(x)
  {
    if items == [] then []
    else
      var last := |items| - 1;
      assert items == items[..last] + [items[last]];
      Survivors(items[..last]) + if Survives(items[last]) then [items[last]] else []
  }

  /** The elements that are not undefined, canonicalized one by one. */
  function CanonicalItems(items: seq<Json>): (r: seq<Json>)
  {
    if items == [] then []
    else
      var last := |items| - 1;
      CanonicalItems(items[..last]) + if Survives(items[last]) then [Canonicalize(items[last])] else []
  }

  lemma {:induction false} ItemsAreCanonicalSurvivors(items: seq<Json>)
    ensures |CanonicalItems(items)| == |Survivors(items)|
    ensures forall i :: 0 <= i < |Survivors(items)| ==> CanonicalItems(items)[i] == Canonicalize(Survivors(items)[i])
  {
    if items != [] { ItemsAreCanonicalSurvivors(items[..|items| - 1]); }
  }

  /** The canonical form by recursion, with a loop over the elements of an array and one over the sorted keys of an object. */
  method CanonicalizeValue(value: Json) returns (r: Json)
    ensures r == Canonicalize(value)
    decreases value, 1
  {
    match value {
      case Arr(items) =>
        if IsStringArray(items) {
          r := Arr(Strings(Sort(Texts(items))));
        } else {
          var out := CanonicalizeItems(items, value);
          r := Arr(out);
        }
      case Obj(fields) =>
        var out := CanonicalizeFields(fields, value);
        r := Obj(out);
      case Other => r := Undefined;
      case _ => r := value;
    }
  }

  method CanonicalizeItems(items: seq<Json>, ghost whole: Json) returns (out: seq<Json>)
    requires whole == Arr(items)
    ensures out == CanonicalItems(items)
    decreases whole, 0
  {
    out := [];
    for i := 0 to |items|
      invariant out == CanonicalItems(items[..i])
    {
      var item := CanonicalizeValue(items[i]);
      assert items[..i + 1][..i] == items[..i];
      if !item.Undefined? { out := out + [item]; }
    }
    assert items[..|items|] == items;
  }

  method CanonicalizeFields(fields: map<string, Json>, ghost whole: Json) returns (out: map<string, Json>)
    requires whole == Obj(fields)
    ensures Obj(out) == Canonicalize(whole)
    decreases whole, 0
  {
    out := map[];
    var keys := SortedKeys(fields);
    ghost var result := FieldsOfCanonical(fields);
    for i := 0 to |keys|
      invariant out == Restrict(result, Listed(keys, i))
    {
      var field := CanonicalizeValue(fields[keys[i]]);
      FieldStep(result, keys, i);
      if !field.Undefined? && keys[i] != PROTOTYPE { out := out[keys[i] := field]; }
    }
    RestrictAll(result, Listed(keys, |keys|));
  }

  /** `Object.keys(src).sort()`. */
  method SortedKeys(fields: map<string, Json>) returns (keys: seq<string>)
    ensures keys == SortedSet(fields.Keys) && Listed(keys, |keys|) == fields.Keys
    ensures forall i :: 0 <= i < |keys| ==> keys[i] in fields
  {
    keys := SortSet(fields.Keys);
    assert keys[..|keys|] == keys;
    assert forall i :: 0 <= i < |keys| ==> keys[i] in Elements(keys);
  }

  ghost function Listed(keys: seq<string>, n: nat): set<string>
    requires n <= |keys|
  {
    Elements(keys[..n])
  }

  lemma FieldsOfCanonical(fields: map<string, Json>) returns (result: map<string, Json>)
    ensures Canonicalize(Obj(fields)) == Obj(result)
    ensures forall k :: k in result <==> k in fields && Kept(fields, k)
    ensures forall k :: k in result ==> result[k] == Canonicalize(fields[k])
  {
    result := Canonicalize(Obj(fields)).fields;
  }

  lemma FieldStep(result: map<string, Json>, keys: seq<string>, i: nat)
    requires i < |keys|
    ensures Restrict(result, Listed(keys, i + 1)) ==
            if keys[i] in result then Restrict(result, Listed(keys, i))[keys[i] := result[keys[i]]]
            else Restrict(result, Listed(keys, i))
  {
    assert keys[..i + 1] == keys[..i] + [keys[i]];
    assert Listed(keys, i + 1) == Listed(keys, i) + {keys[i]};
    RestrictGrows(result, Listed(keys, i), keys[i]);
  }

  ghost function Restrict<V>(m: map<string, V>, s: set<string>): map<string, V> {
    m - (m.Keys - s)
  }

  lemma RestrictGrows<V>(m: map<string, V>, s: set<string>, k: string)
    ensures Restrict(m, s + {k}) == if k in m then Restrict(m, s)[k := m[k]] else Restrict(m, s)
  {
  }

  lemma RestrictAll<V>(m: map<string, V>, s: set<string>)
    requires m.Keys <= s
    ensures Restrict(m, s) == m
  {
  }

  lemma FieldOfCanonical(fields: map<string, Json>, k: string)
    requires k in fields
    ensures var out := Canonicalize(Obj(fields)).fields;
            (k in out <==> Kept(fields, k)) && (k in out ==> out[k] == Canonicalize(fields[k]))
  {
  }

  /**
   * No array holds undefined elements next to strings that are out of order. Such an array is not a string array on the
   * first pass and is one on the second.
   */
  predicate Settled(v: Json) {
    match v
    case Arr(items) =>
      IsStringArray(items)
      || ((IsStringArray(Survivors(items)) ==> SortedBy(LE, Texts(Survivors(items)))) && forall x :: x in items ==> Settled(x))
    case Obj(fields) => forall k :: k in fields && k != PROTOTYPE ==> Settled(fields[k])
    case _ => true
  }

  lemma SortedIsFixed(s: seq<string>)
    ensures Sort(s) == s <==> SortedBy(LE, s)
  {
    LeIsTotalOrder();
    SortBySorts(LE, s);
    if SortedBy(LE, s) { SortedSequencesAgree(LE, s, Sort(s)); }
  }

  lemma StringsOfTexts(items: seq<Json>)
    requires IsStringArray(items)
    ensures Strings(Texts(items)) == items
  {
    forall i | 0 <= i < |items| ensures items[i] == Strings(Texts(items))[i] { assert items[i] in items; }
  }

  lemma AllSurvive(items: seq<Json>)
    requires forall x :: x in items ==> Survives(x)
    ensures Survivors(items) == items
  {
    if items != [] {
      var last := |items| - 1;
      AllSurvive(items[..last]);
      assert items == items[..last] + [items[last]];
    }
  }

  /** Canonicalizing twice is canonicalizing once, exactly on the settled values. */
  lemma {:induction false} CanonicalizeIdempotentIffSettled(v: Json)
    ensures Canonicalize(Canonicalize(v)) == Canonicalize(v) <==> Settled(v)
    decreases v
  {
    match v {
      case Arr(items) =>
        if IsStringArray(items) {
          SortIsCanonical(Texts(items), Texts(items));
        } else {
          forall x | x in items ensures Canonicalize(Canonicalize(x)) == Canonicalize(x) <==> Settled(x) {
            CanonicalizeIdempotentIffSettled(x);
          }
          ArrayIdempotence(items);
        }
      case Obj(fields) =>
        forall k | k in fields ensures Canonicalize(Canonicalize(fields[k])) == Canonicalize(fields[k]) <==> Settled(fields[k]) {
          CanonicalizeIdempotentIffSettled(fields[k]);
        }
        ObjectIdempotence(fields);
      case _ =>
    }
  }

  lemma ArrayIdempotence(items: seq<Json>)
    requires !IsStringArray(items)
    requires forall x :: x in items ==> (Canonicalize(Canonicalize(x)) == Canonicalize(x) <==> Settled(x))
    ensures Canonicalize(Canonicalize(Arr(items))) == Canonicalize(Arr(items)) <==> Settled(Arr(items))
  {
    var s, t := Survivors(items), CanonicalItems(items);
    ItemsAreCanonicalSurvivors(items);
    CanonicalArray(items);
    SettledBySurvivors(items);
    if IsStringArray(s) {
      assert t == s;
      SortedStringsAreCanonical(s);
    } else {
      CanonicalTwice(s, t);
    }
  }

  lemma CanonicalTwice(s: seq<Json>, t: seq<Json>)
    requires |s| == |t| && !IsStringArray(s) && forall x :: x in s ==> Survives(x)
    requires forall i :: 0 <= i < |s| ==> t[i] == Canonicalize(s[i])
    requires forall x :: x in s ==> (Canonicalize(Canonicalize(x)) == Canonicalize(x) <==> Settled(x))
    ensures Canonicalize(Arr(t)) == Arr(t) <==> forall x :: x in s ==> Settled(x)
  {
    var k :| 0 <= k < |s| && !s[k].Str?;
    assert !t[k].Str? && t[k] in t;
    forall x | x in t ensures Survives(x) {
      var i :| 0 <= i < |t| && t[i] == x;
      assert s[i] in s;
    }
    CanonicalArray(t);
    AllSurvive(t);
    ItemsAreCanonicalSurvivors(t);
    TwiceElementwise(s, t, CanonicalItems(t));
  }

  lemma CanonicalArray(items: seq<Json>)
    requires !IsStringArray(items)
    ensures Canonicalize(Arr(items)) == Arr(CanonicalItems(items))
  {
  }

  lemma SettledBySurvivors(items: seq<Json>)
    requires !IsStringArray(items)
    ensures Settled(Arr(items)) <==>
            if IsStringArray(Survivors(items)) then SortedBy(LE, Texts(Survivors(items)))
            else forall x :: x in Survivors(items) ==> Settled(x)
  {
    forall x | x in items && (x !in Survivors(items) || x.Str?) ensures Settled(x) {}
  }

  lemma SortedStringsAreCanonical(s: seq<Json>)
    requires IsStringArray(s)
    ensures Canonicalize(Arr(s)) == Arr(s) <==> SortedBy(LE, Texts(s))
  {
    SortedIsFixed(Texts(s));
    StringsOfTexts(s);
    assert Texts(Strings(Sort(Texts(s)))) == Sort(Texts(s));
  }

  lemma TwiceElementwise(s: seq<Json>, t: seq<Json>, u: seq<Json>)
    requires |s| == |t| == |u|
    requires forall i :: 0 <= i < |s| ==> t[i] == Canonicalize(s[i])
    requires forall i :: 0 <= i < |s| ==> u[i] == Canonicalize(t[i])
    requires forall x :: x in s ==> (Canonicalize(Canonicalize(x)) == Canonicalize(x) <==> Settled(x))
    ensures u == t <==> forall x :: x in s ==> Settled(x)
  {
    if u == t {
      forall x | x in s ensures Settled(x) {
        var i :| 0 <= i < |s| && s[i] == x;
        assert u[i] == t[i];
      }
    } else {
      var i :| 0 <= i < |s| && u[i] != t[i];
      assert s[i] in s;
    }
  }

  lemma ObjectIdempotence(fields: map<string, Json>)
    requires forall k :: k in fields ==> (Canonicalize(Canonicalize(fields[k])) == Canonicalize(fields[k]) <==> Settled(fields[k]))
    ensures Canonicalize(Canonicalize(Obj(fields))) == Canonicalize(Obj(fields)) <==> Settled(Obj(fields))
  {
    var once := FieldsOfCanonical(fields);
    var twice := FieldsOfCanonical(once);
    assert twice.Keys == once.Keys;
    if twice == once {
      forall k | k in fields && k != PROTOTYPE ensures Settled(fields[k]) {
        if Survives(fields[k]) { assert once[k] == twice[k]; }
      }
    }
  }

  /** The smallest array that is not settled. */
  lemma UndefinedElementsDelaySorting()
    ensures Canonicalize(Canonicalize(UNSETTLED)) != Canonicalize(UNSETTLED)
  {
    var items := UNSETTLED.items;
    assert items[0] in items;
    assert items[..2] == [Undefined, Str("b")] && items[..2][..1] == [Undefined];
    assert Survivors([Undefined]) == [] && Survivors(items[..2]) == [Str("b")];
    assert Survivors(items) == [Str("b"), Str("a")];
    StringsOutOfOrder(Survivors(items));
    CanonicalizeIdempotentIffSettled(UNSETTLED);
  }

  const UNSETTLED := Arr([Undefined, Str("b"), Str("a")])

  lemma StringsOutOfOrder(s: seq<Json>)
    requires s == [Str("b"), Str("a")]
    ensures IsStringArray(s) && !SortedBy(LE, Texts(s))
  {
    assert LE(Texts(s)[0], Texts(s)[1]) == Le("b", "a");
  }

  /** A value that JSON text can hold: parsed JSON, or the result of canonicalization. */
  predicate Plain(v: Json) {
    match v
    case Arr(items) => forall x :: x in items ==> Plain(x)
    case Obj(fields) => PROTOTYPE !in fields && forall k :: k in fields ==> Plain(fields[k])
    case _ => Survives(v)
  }

  /** The same value but for the order inside string arrays, at any depth. */
  predicate SameButStringOrder(a: Json, b: Json) {
    match (a, b)
    case (Arr(s), Arr(t)) =>
      if IsStringArray(s) && IsStringArray(t) then multiset(Texts(s)) == multiset(Texts(t))
      else |s| == |t| && forall i :: 0 <= i < |s| ==> SameButStringOrder(s[i], t[i])
    case (Obj(f), Obj(g)) => f.Keys == g.Keys && forall k :: k in f ==> SameButStringOrder(f[k], g[k])
    case _ => a == b
  }

  lemma {:induction false} CanonicalIsPlain(v: Json)
    requires Survives(v)
    ensures Plain(Canonicalize(v))
    decreases v
  {
    match v {
      case Arr(items) =>
        if !IsStringArray(items) {
          ItemsAreCanonicalSurvivors(items);
          forall x | x in CanonicalItems(items) ensures Plain(x) {
            var i :| 0 <= i < |CanonicalItems(items)| && CanonicalItems(items)[i] == x;
            CanonicalIsPlain(Survivors(items)[i]);
          }
        }
      case Obj(fields) =>
        forall k | k in fields && Survives(fields[k]) ensures Plain(Canonicalize(fields[k])) {
          CanonicalIsPlain(fields[k]);
        }
      case _ =>
    }
  }

  lemma {:induction false} PlainIsSettled(v: Json)
    requires Plain(v)
    ensures Settled(v)
    decreases v
  {
    match v {
      case Arr(items) =>
        forall x | x in items ensures Settled(x) && Survives(x) { PlainIsSettled(x); }
        AllSurvive(items);
      case Obj(fields) =>
        forall k | k in fields ensures Settled(fields[k]) { PlainIsSettled(fields[k]); }
      case _ =>
    }
  }

  /** On plain values canonicalization is a complete invariant: it forgets the order inside string arrays and nothing else. */
  lemma {:induction false} CanonicalizeIsCompleteInvariant(a: Json, b: Json)
    requires Plain(a) && Plain(b)
    ensures Canonicalize(a) == Canonicalize(b) <==> SameButStringOrder(a, b)
    decreases a
  {
    match (a, b) {
      case (Arr(s), Arr(t)) =>
        if |s| == |t| {
          forall i | 0 <= i < |s| ensures Canonicalize(s[i]) == Canonicalize(t[i]) <==> SameButStringOrder(s[i], t[i]) {
            assert s[i] in s && t[i] in t;
            CanonicalizeIsCompleteInvariant(s[i], t[i]);
          }
        }
        ArraysAgree(s, t);
      case (Obj(f), Obj(g)) =>
        forall k | k in f && k in g ensures Canonicalize(f[k]) == Canonicalize(g[k]) <==> SameButStringOrder(f[k], g[k]) {
          CanonicalizeIsCompleteInvariant(f[k], g[k]);
        }
        ObjectsAgreeFieldwise(f, g);
      case _ =>
    }
  }

  lemma CanonicalOfSurviving(s: seq<Json>) returns (c: seq<Json>)
    requires forall x :: x in s ==> Survives(x)
    ensures Canonicalize(Arr(s)) == Arr(c) && |c| == |s|
    ensures IsStringArray(c) <==> IsStringArray(s)
    ensures !IsStringArray(s) ==> forall i :: 0 <= i < |s| ==> c[i] == Canonicalize(s[i])
  {
    if IsStringArray(s) {
      c := Strings(Sort(Texts(s)));
    } else {
      c := CanonicalElements(s);
      CanonicalArray(s);
      var i :| 0 <= i < |s| && !s[i].Str?;
      assert !c[i].Str? && c[i] in c;
    }
  }

  lemma CanonicalElements(s: seq<Json>) returns (c: seq<Json>)
    requires forall x :: x in s ==> Survives(x)
    ensures c == CanonicalItems(s) && |c| == |s| && forall i :: 0 <= i < |s| ==> c[i] == Canonicalize(s[i])
  {
    AllSurvive(s);
    ItemsAreCanonicalSurvivors(s);
    c := CanonicalItems(s);
  }

  lemma ArraysAgree(s: seq<Json>, t: seq<Json>)
    requires forall x :: x in s || x in t ==> Survives(x)
    requires |s| == |t| ==>
               forall i :: 0 <= i < |s| ==> (Canonicalize(s[i]) == Canonicalize(t[i]) <==> SameButStringOrder(s[i], t[i]))
    ensures Canonicalize(Arr(s)) == Canonicalize(Arr(t)) <==> SameButStringOrder(Arr(s), Arr(t))
  {
    var c := CanonicalOfSurviving(s);
    var d := CanonicalOfSurviving(t);
    if IsStringArray(s) && IsStringArray(t) {
      StringArraysAgree(s, t);
    } else if IsStringArray(s) == IsStringArray(t) {
      ElementsAgree(s, t, c, d);
    } else if |s| == |t| {
      var i :| 0 <= i < |s| && s[i].Str? != t[i].Str?;
      assert Canonicalize(s[i]) != Canonicalize(t[i]);
    }
  }

  lemma ElementsAgree(s: seq<Json>, t: seq<Json>, c: seq<Json>, d: seq<Json>)
    requires |s| == |c| && |t| == |d| && !IsStringArray(s)
    requires forall i :: 0 <= i < |s| ==> c[i] == Canonicalize(s[i])
    requires forall i :: 0 <= i < |t| ==> d[i] == Canonicalize(t[i])
    requires |s| == |t| ==>
               forall i :: 0 <= i < |s| ==> (Canonicalize(s[i]) == Canonicalize(t[i]) <==> SameButStringOrder(s[i], t[i]))
    ensures c == d <==> SameButStringOrder(Arr(s), Arr(t))
  {
    if c == d {
      forall i | 0 <= i < |s| ensures SameButStringOrder(s[i], t[i]) { assert c[i] == d[i]; }
    }
  }

  lemma StringArraysAgree(s: seq<Json>, t: seq<Json>)
    requires IsStringArray(s) && IsStringArray(t)
    ensures Canonicalize(Arr(s)) == Canonicalize(Arr(t)) <==> multiset(Texts(s)) == multiset(Texts(t))
  {
    SortIsCanonical(Texts(s), Texts(t));
    assert Texts(Strings(Sort(Texts(s)))) == Sort(Texts(s));
    assert Texts(Strings(Sort(Texts(t)))) == Sort(Texts(t));
  }

  lemma ObjectsAgreeFieldwise(f: map<string, Json>, g: map<string, Json>)
    requires PROTOTYPE !in f && PROTOTYPE !in g
    requires forall k :: k in f ==> Survives(f[k])
    requires forall k :: k in g ==> Survives(g[k])
    ensures Canonicalize(Obj(f)) == Canonicalize(Obj(g)) <==>
            f.Keys == g.Keys && forall k :: k in f ==> Canonicalize(f[k]) == Canonicalize(g[k])
  {
    var c := FieldsOfCanonical(f);
    var d := FieldsOfCanonical(g);
    assert c.Keys == f.Keys && d.Keys == g.Keys;
  }

  lemma {:induction false} SameIsReflexive(v: Json)
    ensures SameButStringOrder(v, v)
    decreases v
  {
    match v {
      case Arr(items) => forall i | 0 <= i < |items| ensures SameButStringOrder(items[i], items[i]) { SameIsReflexive(items[i]); }
      case Obj(fields) => forall k | k in fields ensures SameButStringOrder(fields[k], fields[k]) { SameIsReflexive(fields[k]); }
      case _ =>
    }
  }

  lemma SameFieldSet(f: map<string, Json>, g: map<string, Json>, k: string, x: Json, y: Json)
    requires SameButStringOrder(Obj(f), Obj(g)) && SameButStringOrder(x, y)
    ensures SameButStringOrder(Obj(f[k := x]), Obj(g[k := y]))
  {
  }

  /** The order inside string arrays never shows in canonical form, even next to undefined values. */
  lemma {:induction false} CanonicalizeForgetsStringOrder(a: Json, b: Json)
    requires SameButStringOrder(a, b)
    ensures Canonicalize(a) == Canonicalize(b)
    decreases a
  {
    match (a, b) {
      case (Arr(s), Arr(t)) =>
        if IsStringArray(s) && IsStringArray(t) {
          StringArraysAgree(s, t);
        } else {
          forall i | 0 <= i < |s| ensures Canonicalize(s[i]) == Canonicalize(t[i]) { CanonicalizeForgetsStringOrder(s[i], t[i]); }
          MixedArraysAgree(s, t);
        }
      case (Obj(f), Obj(g)) =>
        forall k | k in f ensures Canonicalize(f[k]) == Canonicalize(g[k]) { CanonicalizeForgetsStringOrder(f[k], g[k]); }
        EqualFieldwise(f, g);
      case _ =>
    }
  }

  lemma EqualFieldwise(f: map<string, Json>, g: map<string, Json>)
    requires f.Keys == g.Keys && forall k :: k in f ==> Canonicalize(f[k]) == Canonicalize(g[k])
    ensures Canonicalize(Obj(f)) == Canonicalize(Obj(g))
  {
    forall k | k in f ensures Kept(f, k) == Kept(g, k) {
      assert Canonicalize(f[k]).Undefined? == Canonicalize(g[k]).Undefined?;
    }
    var c := FieldsOfCanonical(f);
    var d := FieldsOfCanonical(g);
    assert c == d;
  }

  lemma MixedArraysAgree(s: seq<Json>, t: seq<Json>)
    requires |s| == |t| && !(IsStringArray(s) && IsStringArray(t))
    requires forall i :: 0 <= i < |s| ==> Canonicalize(s[i]) == Canonicalize(t[i])
    ensures Canonicalize(Arr(s)) == Canonicalize(Arr(t))
  {
    EqualItems(s, t);
    forall i | 0 <= i < |s| ensures s[i].Str? <==> t[i].Str? {
      assert Canonicalize(s[i]).Str? == Canonicalize(t[i]).Str?;
    }
    assert IsStringArray(s) <==> forall i :: 0 <= i < |s| ==> s[i].Str?;
    assert IsStringArray(t) <==> forall i :: 0 <= i < |t| ==> t[i].Str?;
    CanonicalArray(s);
    CanonicalArray(t);
  }

  lemma {:induction false} EqualItems(s: seq<Json>, t: seq<Json>)
    requires |s| == |t| && forall i :: 0 <= i < |s| ==> Canonicalize(s[i]) == Canonicalize(t[i])
    ensures CanonicalItems(s) == CanonicalItems(t)
  {
    if s != [] {
      var last := |s| - 1;
      EqualItems(s[..last], t[..last]);
      assert Canonicalize(s[last]).Undefined? == Canonicalize(t[last]).Undefined?;
    }
  }
}
