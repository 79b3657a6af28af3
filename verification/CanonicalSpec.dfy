/** The canonical runtime spec and the hash that it carries. */
module CanonicalSpec {
  import opened CanonicalJson
  import opened Schema

  const ORIGIN := "meaning_origin"
  const HASH := "hash"

  /** The digest of a value's canonical text, as a function of the canonical value that the text stands for. */
  type Digest = Json -> string

  /** JavaScript's `typeof v === "object"` on parsed JSON other than null. */
  predicate IsObject(v: Json) {
    v.Arr? || v.Obj?
  }

  predicate HasOrigin(spec: Json) {
    spec.Obj? && ORIGIN in spec.fields && IsObject(spec.fields[ORIGIN])
  }

  predicate HasRecordOrigin(spec: Json) {
    spec.Obj? && ORIGIN in spec.fields && spec.fields[ORIGIN].Obj?
  }

  /** A property set on an array never reaches its JSON text. */
  function SetHash(origin: Json, hash: Json): Json {
    if origin.Obj? then Obj(origin.fields[HASH := hash]) else origin
  }

  function DeleteHash(origin: Json): Json {
    if origin.Obj? then Obj(origin.fields - {HASH}) else origin
  }

  function Stamp(spec: Json, hash: Json): Json
    requires HasOrigin(spec)
  {
    Obj(spec.fields[ORIGIN := SetHash(spec.fields[ORIGIN], hash)])
  }

  function Unstamp(spec: Json): Json
    requires HasOrigin(spec)
  {
    Obj(spec.fields[ORIGIN := DeleteHash(spec.fields[ORIGIN])])
  }

  function StoredHash(spec: Json): Option<Json> {
    if HasRecordOrigin(spec) && HASH in spec.fields[ORIGIN].fields then Some(spec.fields[ORIGIN].fields[HASH]) else None
  }

  /** What the build comes to: the settled canonical value, stamped with the digest of what it is without its stamp. */
  function Built(spec: Json, digest: Digest): Result<Json, string> {
    var settled := Canonicalize(Canonicalize(spec));
    if HasOrigin(settled) then Success(Stamp(settled, Str(digest(Unstamp(settled))))) else Failure("meaning_origin is not an object")
  }

  /** The build in steps: copy through canonical text, delete the old hash, digest, assign, canonicalize. */
  method BuildCanonicalSpec(spec: Json, digest: Digest) returns (r: Result<Json, string>)
    ensures r.Success? == Built(spec, digest).Success?
    ensures r.Success? ==> r == Built(spec, digest)
  {
    var seedSpec := CanonicalizeValue(spec);
    if seedSpec.Undefined? { return Failure("undefined is not valid JSON"); }
    var forHash := CanonicalizeValue(seedSpec);
    if !forHash.Obj? { return Failure("cannot set properties"); }
    if ORIGIN !in forHash.fields || !IsObject(forHash.fields[ORIGIN]) {
      forHash := Obj(forHash.fields[ORIGIN := Obj(map[])]);
    }
    forHash := Obj(forHash.fields[ORIGIN := DeleteHash(forHash.fields[ORIGIN])]);
    var hashed := CanonicalizeValue(forHash);
    var hash := digest(hashed);
    if ORIGIN !in seedSpec.fields || !IsObject(seedSpec.fields[ORIGIN]) {
      OriginSurvives(seedSpec);
      return Failure("cannot set properties");
    }
    OriginSurvives(seedSpec);
    BuildStepsCommute(spec, Str(hash));
    seedSpec := Obj(seedSpec.fields[ORIGIN := SetHash(seedSpec.fields[ORIGIN], Str(hash))]);
    var canonical := CanonicalizeValue(seedSpec);
    r := Success(canonical);
  }

  lemma OriginSurvives(v: Json)
    ensures HasOrigin(Canonicalize(v)) == HasOrigin(v)
    ensures HasRecordOrigin(Canonicalize(v)) == HasRecordOrigin(v)
  {
    if v.Obj? && ORIGIN in v.fields {
      FieldOfCanonical(v.fields, ORIGIN);
      assert Canonicalize(v).fields.Keys <= v.fields.Keys;
    }
  }

  lemma FieldSetCommutes(fields: map<string, Json>, k: string, x: Json)
    requires k != PROTOTYPE && Survives(x)
    ensures Canonicalize(Obj(fields[k := x])) == Obj(Canonicalize(Obj(fields)).fields[k := Canonicalize(x)])
  {
  }

  lemma FieldDeleteCommutes(fields: map<string, Json>, k: string)
    ensures Canonicalize(Obj(fields - {k})) == Obj(Canonicalize(Obj(fields)).fields - {k})
  {
  }

  lemma UnstampCommutes(v: Json)
    requires HasOrigin(v)
    ensures HasOrigin(Canonicalize(v)) && Canonicalize(Unstamp(v)) == Unstamp(Canonicalize(v))
  {
    OriginSurvives(v);
    var origin := v.fields[ORIGIN];
    FieldOfCanonical(v.fields, ORIGIN);
    FieldSetCommutes(v.fields, ORIGIN, DeleteHash(origin));
    if origin.Obj? { FieldDeleteCommutes(origin.fields, HASH); }
  }

  lemma StampCommutes(v: Json, text: string)
    requires HasOrigin(v)
    ensures HasOrigin(Canonicalize(v)) && Canonicalize(Stamp(v, Str(text))) == Stamp(Canonicalize(v), Str(text))
  {
    OriginSurvives(v);
    var origin := v.fields[ORIGIN];
    FieldOfCanonical(v.fields, ORIGIN);
    FieldSetCommutes(v.fields, ORIGIN, SetHash(origin, Str(text)));
    if origin.Obj? { FieldSetCommutes(origin.fields, HASH, Str(text)); }
  }

  /** One pass makes any value plain, so a third pass changes nothing. */
  lemma TwicePassesSettle(v: Json)
    ensures Canonicalize(Canonicalize(Canonicalize(v))) == Canonicalize(Canonicalize(v))
  {
    if Survives(v) {
      CanonicalIsPlain(v);
      PlainIsSettled(Canonicalize(v));
      CanonicalizeIdempotentIffSettled(Canonicalize(v));
    }
  }

  lemma BuildStepsCommute(spec: Json, hash: Json)
    requires HasOrigin(Canonicalize(spec)) && hash.Str?
    ensures HasOrigin(Canonicalize(Canonicalize(spec)))
    ensures var once := Canonicalize(spec);
            var settled := Canonicalize(once);
            && Canonicalize(Unstamp(settled)) == Unstamp(settled)
            && Canonicalize(Stamp(once, hash)) == Stamp(settled, hash)
  {
    var once := Canonicalize(spec);
    OriginSurvives(once);
    TwicePassesSettle(spec);
    UnstampCommutes(Canonicalize(once));
    StampCommutes(once, hash.text);
  }

  /** A spec builds exactly when its origin is an object. */
  lemma BuildSucceedsIffOriginIsObject(spec: Json, digest: Digest)
    ensures Built(spec, digest).Success? <==> HasOrigin(spec)
  {
    OriginSurvives(spec);
    OriginSurvives(Canonicalize(spec));
  }

  /** Building a built spec changes nothing, on every input, settled or not. */
  lemma BuildIsFixpoint(spec: Json, digest: Digest)
    requires Built(spec, digest).Success?
    ensures Built(Built(spec, digest).value, digest) == Built(spec, digest)
  {
    var settled := Canonicalize(Canonicalize(spec));
    var hash := digest(Unstamp(settled));
    TwicePassesSettle(spec);
    StampCommutes(settled, hash);
    UnstampOfStamp(settled, Str(hash));
  }

  lemma UnstampOfStamp(v: Json, hash: Json)
    requires HasOrigin(v)
    ensures HasOrigin(Stamp(v, hash)) && Unstamp(Stamp(v, hash)) == Unstamp(v) && Stamp(Stamp(v, hash), hash) == Stamp(v, hash)
  {
    var origin := v.fields[ORIGIN];
    if origin.Obj? { assert origin.fields[HASH := hash] - {HASH} == origin.fields - {HASH}; }
    assert DeleteHash(SetHash(origin, hash)) == DeleteHash(origin);
    assert v.fields[ORIGIN := SetHash(origin, hash)][ORIGIN := DeleteHash(origin)] == v.fields[ORIGIN := DeleteHash(origin)];
    assert SetHash(SetHash(origin, hash), hash) == SetHash(origin, hash);
    assert Stamp(v, hash).fields[ORIGIN := SetHash(origin, hash)] == Stamp(v, hash).fields;
  }

  /** The stored hash is the canonical digest of the built spec without its hash field. */
  lemma StoredHashIsDigestOfRest(spec: Json, digest: Digest)
    requires HasRecordOrigin(spec)
    ensures Built(spec, digest).Success?
    ensures var built := Built(spec, digest).value;
            HasRecordOrigin(built) && StoredHash(built) == Some(Str(digest(Canonicalize(Unstamp(built)))))
  {
    OriginSurvives(spec);
    OriginSurvives(Canonicalize(spec));
    var settled := Canonicalize(Canonicalize(spec));
    TwicePassesSettle(spec);
    UnstampCommutes(settled);
    UnstampOfStamp(settled, Str(digest(Unstamp(settled))));
  }

  /** Two specs build to the same result exactly when they agree, apart from hash and string order, once settled. */
  lemma BuildsAgreeIffRestAgrees(a: Json, b: Json, digest: Digest)
    requires HasOrigin(a) && HasOrigin(b)
    ensures Built(a, digest) == Built(b, digest) <==>
            Canonicalize(Canonicalize(Unstamp(a))) == Canonicalize(Canonicalize(Unstamp(b)))
  {
    SettledWithoutStamp(a);
    SettledWithoutStamp(b);
    var s, t := Canonicalize(Canonicalize(a)), Canonicalize(Canonicalize(b));
    var h, k := Str(digest(Unstamp(s))), Str(digest(Unstamp(t)));
    UnstampOfStamp(s, h);
    UnstampOfStamp(t, k);
    StampOfUnstamp(s, h);
    StampOfUnstamp(t, k);
  }

  lemma SettledWithoutStamp(v: Json)
    requires HasOrigin(v)
    ensures HasOrigin(Canonicalize(Canonicalize(v)))
    ensures Unstamp(Canonicalize(Canonicalize(v))) == Canonicalize(Canonicalize(Unstamp(v)))
  {
    UnstampCommutes(v);
    UnstampCommutes(Canonicalize(v));
  }

  lemma StampOfUnstamp(v: Json, hash: Json)
    requires HasOrigin(v)
    ensures HasOrigin(Unstamp(v)) && Stamp(Unstamp(v), hash) == Stamp(v, hash)
  {
    var origin := v.fields[ORIGIN];
    if origin.Obj? { assert (origin.fields - {HASH})[HASH := hash] == origin.fields[HASH := hash]; }
    assert SetHash(DeleteHash(origin), hash) == SetHash(origin, hash);
    assert v.fields[ORIGIN := DeleteHash(origin)][ORIGIN := SetHash(origin, hash)] == v.fields[ORIGIN := SetHash(origin, hash)];
  }

  /** On plain specs: exactly when they differ in the hash and in the order inside string arrays only. */
  lemma PlainBuildsAgreeIffSameButStringOrder(a: Json, b: Json, digest: Digest)
    requires HasOrigin(a) && HasOrigin(b) && Plain(a) && Plain(b)
    ensures Built(a, digest) == Built(b, digest) <==> SameButStringOrder(Unstamp(a), Unstamp(b))
  {
    PlainWithoutStamp(a);
    PlainWithoutStamp(b);
    BuildsAgreeIffRestAgrees(a, b, digest);
    CanonicalizeIsCompleteInvariant(Unstamp(a), Unstamp(b));
  }

  lemma PlainWithoutStamp(v: Json)
    requires HasOrigin(v) && Plain(v)
    ensures Plain(Unstamp(v)) && Canonicalize(Canonicalize(Unstamp(v))) == Canonicalize(Unstamp(v))
  {
    var origin := v.fields[ORIGIN];
    if origin.Obj? { assert forall k :: k in origin.fields - {HASH} ==> k in origin.fields; }
    assert Plain(DeleteHash(origin));
    PlainIsSettled(Unstamp(v));
    CanonicalizeIdempotentIffSettled(Unstamp(v));
  }

  /** Whatever hash a spec arrives with, even an undefined one, is overwritten. */
  lemma IncomingHashIsIgnored(spec: Json, hash: Json, digest: Digest)
    requires HasOrigin(spec)
    ensures Built(Stamp(spec, hash), digest) == Built(spec, digest)
    ensures Built(Unstamp(spec), digest) == Built(spec, digest)
  {
    UnstampOfStamp(spec, hash);
    StampOfUnstamp(spec, hash);
    UnstampTwice(spec);
    BuildsAgreeIffRestAgrees(Stamp(spec, hash), spec, digest);
    BuildsAgreeIffRestAgrees(Unstamp(spec), spec, digest);
  }

  lemma UnstampTwice(v: Json)
    requires HasOrigin(v)
    ensures HasOrigin(Unstamp(v)) && Unstamp(Unstamp(v)) == Unstamp(v)
  {
    var origin := v.fields[ORIGIN];
    assert DeleteHash(DeleteHash(origin)) == DeleteHash(origin);
    assert v.fields[ORIGIN := DeleteHash(origin)][ORIGIN := DeleteHash(origin)] == v.fields[ORIGIN := DeleteHash(origin)];
  }

  /** The origin of a spec without its hash. */
  function WithoutHash(spec: map<string, Json>): Json
    requires "meaning_origin" in spec && spec["meaning_origin"].Obj?
  {
    Obj(spec["meaning_origin" := Obj(spec["meaning_origin"].fields - {"hash"})])
  }

  /** The hash is the digest of the built spec without it, which is the settled spec without the hash it came with. */
  ghost predicate HashIsByNames(spec: map<string, Json>, built: Json, digest: Digest)
    requires "meaning_origin" in spec && spec["meaning_origin"].Obj?
  {
    && built.Obj? && "meaning_origin" in built.fields && built.fields["meaning_origin"].Obj?
    && "hash" in built.fields["meaning_origin"].fields
    && built.fields["meaning_origin"].fields["hash"] == Str(digest(WithoutHash(built.fields)))
    && WithoutHash(built.fields) == Canonicalize(Canonicalize(WithoutHash(spec)))
  }

  /** A build succeeds, and what it comes to, by the names of the fields. */
  lemma BuiltByNames(spec: Json, digest: Digest)
    ensures Built(spec, digest).Success? <==>
            spec.Obj? && "meaning_origin" in spec.fields && (spec.fields["meaning_origin"].Obj? || spec.fields["meaning_origin"].Arr?)
    ensures Built(spec, digest).Success? && spec.fields["meaning_origin"].Obj? ==>
              HashIsByNames(spec.fields, Built(spec, digest).value, digest)
    ensures Built(spec, digest).Success? && spec.fields["meaning_origin"].Arr? ==>
              Built(spec, digest).value == Canonicalize(Canonicalize(spec))
  {
    BuildSucceedsIffOriginIsObject(spec, digest);
    if Built(spec, digest).Success? && spec.fields["meaning_origin"].Obj? {
      HashByNames(spec, digest);
    } else if Built(spec, digest).Success? {
      ArrayOriginIsKept(spec, digest);
    }
  }

  lemma HashByNames(spec: Json, digest: Digest)
    requires HasRecordOrigin(spec)
    ensures Built(spec, digest).Success? && HashIsByNames(spec.fields, Built(spec, digest).value, digest)
  {
    SettledWithoutStamp(spec);
    OriginSurvives(spec);
    OriginSurvives(Canonicalize(spec));
    var settled := Canonicalize(Canonicalize(spec));
    UnstampOfStamp(settled, Str(digest(Unstamp(settled))));
    UnstampByNames(spec);
    UnstampByNames(Built(spec, digest).value);
  }

  lemma UnstampByNames(v: Json)
    requires HasRecordOrigin(v)
    ensures Unstamp(v) == WithoutHash(v.fields)
  {
  }

  lemma ArrayOriginIsKept(spec: Json, digest: Digest)
    requires HasOrigin(spec) && !HasRecordOrigin(spec)
    ensures Built(spec, digest) == Success(Canonicalize(Canonicalize(spec)))
  {
    OriginSurvives(spec);
    OriginSurvives(Canonicalize(spec));
    var settled := Canonicalize(Canonicalize(spec));
    assert settled.fields[ORIGIN := settled.fields[ORIGIN]] == settled.fields;
  }
}
