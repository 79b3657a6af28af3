/** The compiler from document lines to the canonical spec, step by step, and what it guarantees. */
module MeaningCompiler {
  import opened CanonicalJson
  import opened CanonicalSpec
  import opened Lists
  import opened MeaningDocument
  import opened MeaningSpec
  import opened MeaningText
  import opened Ordering
  import opened Schema

  method CollectIntents(profile: seq<string>, observations: seq<string>, lower: Lower) returns (featureIntents: seq<string>)
    ensures featureIntents == FeatureIntents(profile, observations, lower)
  {
    featureIntents := profile;
    if IncludesToken(observations, "heart", lower) { featureIntents := featureIntents + ["physiological_monitor"]; }
    if IncludesToken(observations, "screen", lower) { featureIntents := featureIntents + ["screen_monitor"]; }
    if IncludesToken(observations, "interrupt", lower) { featureIntents := featureIntents + ["interruption_tracking"]; }
    featureIntents := SortedUnique(featureIntents);
  }

  method MapMeaningToSpec(m: Meaning, lower: Lower, hash: string) returns (spec: Spec)
    ensures spec == MapMeaning(m, lower, hash)
  {
    var functionalIntent := if m.functionalIntent.Some? then m.functionalIntent.value else "";
    var aiTask := ResolveAiTask(lower(functionalIntent), FUNCTIONAL_INTENT_RULES);
    var profile := TaskProfile(aiTask);
    var featureIntents := CollectIntents(profile.featureIntents, m.observations, lower);
    spec := Spec(
      aiTask, profile.uiType, featureIntents, m.functionalIntent, m.riskLevel, hash, false, false, "", [], [], map[]);
    if IncludesToken(m.recommendedActions, "reduce", lower) { spec := spec.(behaviorFeedback := true); }
    if IncludesToken(m.recommendedActions, "increase", lower) { spec := spec.(adaptiveSuggestion := true); }
  }

  method ApplyUiPreferenceVariation(files: seq<string>, prefs: map<string, string>) returns (varied: seq<string>)
    ensures varied == VaryFiles(files, prefs)
  {
    varied := files;
    if Preferred(prefs, "theme") == "dark" { varied := varied + [THEME_FILE]; }
    if Preferred(prefs, "layout") == "panel" { varied := varied + [PANEL_FILE]; }
    if Preferred(prefs, "layout") == "minimal" {
      varied := FilterMap(NOT_PUBLIC_PAGE, varied);
      varied := varied + [MINIMAL_PAGE];
    }
    varied := SortedUnique(varied);
  }

  /**
   * The resulting files, in increasing order: the given ones and the optional ones, except that the minimal layout has
   * one public page only.
   */
  lemma VariedFiles(files: seq<string>, dark: bool, panel: bool, minimal: bool)
    ensures Increasing(Varied(files, dark, panel, minimal))
    ensures forall f :: f in Varied(files, dark, panel, minimal) <==>
              || (minimal && f == MINIMAL_PAGE)
              || (f != "" && (f in files || (dark && f == THEME_FILE) || (panel && f == PANEL_FILE)) && (minimal ==> !IsPublicPage(f)))
  {
    MinimizedMembers(Decorated(files, dark, panel), minimal);
  }

  lemma MinimizedMembers(files: seq<string>, minimal: bool)
    ensures Increasing(Minimized(files, minimal))
    ensures forall f :: f in Minimized(files, minimal) <==>
              (minimal && f == MINIMAL_PAGE) || (f != "" && f in files && (minimal ==> !IsPublicPage(f)))
  {
    if minimal {
      NotPublicMembers(files);
      SortedUniqueMembers(FilterMap(NOT_PUBLIC_PAGE, files) + [MINIMAL_PAGE]);
    } else {
      SortedUniqueMembers(files);
    }
  }

  lemma NotPublicMembers(files: seq<string>)
    ensures forall f :: f in FilterMap(NOT_PUBLIC_PAGE, files) <==> f in files && !IsPublicPage(f)
  {
    FilterMapMembers(NOT_PUBLIC_PAGE, files);
    forall f | f in files && !IsPublicPage(f) ensures f in FilterMap(NOT_PUBLIC_PAGE, files) {
      assert NOT_PUBLIC_PAGE(f) == Some(f);
    }
  }

  lemma SortedUniqueMembers(s: seq<string>)
    ensures Increasing(SortedUnique(s)) && forall x :: x in SortedUnique(s) <==> x in s && x != ""
  {
    SortedUniqueListsTheSet(s);
    assert forall x :: x in SortedUnique(s) <==> x in Elements(SortedUnique(s));
  }

  method BuildDataModelArtifacts(fields: seq<Field>, collation: Collation)
    returns (dataModel: map<string, Json>, properties: map<string, Json>, required: seq<string>)
    ensures var sorted := SortFields(fields, collation);
            && dataModel == TextValues(FieldTypes(sorted))
            && properties == TypeValues(FieldTypes(sorted))
            && required == Map(NAME, sorted)
  {
    var sorted := SortFields(fields, collation);
    dataModel, properties, required := map[], map[], [];
    for i := 0 to |sorted|
      invariant dataModel == TextValues(FieldTypes(sorted[..i]))
      invariant properties == TypeValues(FieldTypes(sorted[..i]))
      invariant required == Map(NAME, sorted[..i])
    {
      FieldTypesGrow(sorted, i);
      dataModel, properties, required := AddField(dataModel, properties, required, sorted[i], FieldTypes(sorted[..i]));
      assert Map(NAME, sorted[..i + 1]) == Map(NAME, sorted[..i]) + [sorted[i].name];
    }
    assert sorted[..|sorted|] == sorted;
  }

  method AddField(before: map<string, Json>, props: map<string, Json>, names: seq<string>, field: Field, ghost types: map<string, string>)
    returns (dataModel: map<string, Json>, properties: map<string, Json>, required: seq<string>)
    requires before == TextValues(types) && props == TypeValues(types)
    ensures dataModel == TextValues(WithField(types, field)) && properties == TypeValues(WithField(types, field))
    ensures required == names + [field.name]
  {
    dataModel, properties := before, props;
    if field.name != PROTOTYPE {
      dataModel := dataModel[field.name := Str(field.typeName)];
      properties := properties[field.name := Obj(map["type" := Str(field.typeName)])];
    }
    required := names + [field.name];
  }

  ghost function WithField(types: map<string, string>, field: Field): map<string, string> {
    if field.name == PROTOTYPE then types else types[field.name := field.typeName]
  }

  lemma FieldTypesGrow(fields: seq<Field>, i: nat)
    requires i < |fields|
    ensures FieldTypes(fields[..i + 1]) == WithField(FieldTypes(fields[..i]), fields[i])
  {
    var more := Map(FIELD_ENTRY, fields[..i + 1]);
    assert more == Map(FIELD_ENTRY, fields[..i]) + [FIELD_ENTRY(fields[i])];
    assert more[..|more| - 1] == Map(FIELD_ENTRY, fields[..i]);
  }

  /** The named types are those of all fields but one named like the prototype property. */
  lemma FieldTypesAreNamed(fields: seq<Field>)
    requires DistinctNames(fields)
    ensures FieldTypes(fields).Keys == Elements(Map(NAME, fields)) - {PROTOTYPE}
  {
    var entries := Map(FIELD_ENTRY, fields);
    assert forall i :: 0 <= i < |fields| ==> entries[i].key == NAME(fields[i]);
    EntryMapLooksUp(entries);
    forall name ensures name in EntryMap(entries) <==> name in Map(NAME, fields) {
      if name in EntryMap(entries) {
        var i :| 0 <= i < |entries| && entries[i] == Entry(name, EntryMap(entries)[name]);
        assert Map(NAME, fields)[i] == name;
      }
      if name in Map(NAME, fields) {
        var i :| 0 <= i < |fields| && Map(NAME, fields)[i] == name;
        assert entries[i] == Entry(name, fields[i].typeName);
      }
    }
  }

  const FORBIDDEN_TYPES := {"function", "class", "any", "undefined"}

  /** The second look at the types, after validation. */
  predicate TypeHardened(typeName: string) {
    typeName in ALLOWED_DATA_TYPES && !Includes(typeName, "[]") && typeName !in FORBIDDEN_TYPES
  }

  ghost predicate Hardened(m: Meaning, lower: Lower) {
    |m.dataModel| <= MAX_DATA_MODEL_FIELDS && forall f :: f in m.dataModel ==> TypeHardened(lower(f.typeName))
  }

  method EnforceDataModelTypeHardening(fields: seq<Field>, lower: Lower) returns (refused: Option<Error>)
    ensures refused.None? <==> forall f :: f in fields ==> TypeHardened(lower(f.typeName))
  {
    for i := 0 to |fields|
      invariant forall f :: f in fields[..i] ==> TypeHardened(lower(f.typeName))
    {
      var typeName := lower(fields[i].typeName);
      if typeName !in ALLOWED_DATA_TYPES { return Some(ForbiddenType(fields[i].typeName)); }
      if Includes(typeName, "[]") { return Some(ForbiddenType(fields[i].typeName)); }
      if typeName in FORBIDDEN_TYPES { return Some(ForbiddenType(fields[i].typeName)); }
      assert fields[..i + 1] == fields[..i] + [fields[i]];
    }
    assert fields[..|fields|] == fields;
    refused := None;
  }

  lemma WithoutBrackets(text: string)
    requires forall i :: 0 <= i < |text| ==> text[i] != '['
    ensures !Includes(text, "[]")
  {
    forall i | 0 <= i <= |text| - |"[]"| ensures !StandsAt(text, "[]", i) {
      assert text[i..i + 2][0] == text[i];
    }
  }

  lemma AllowedTypesAreHardened(typeName: string)
    requires typeName in ALLOWED_DATA_TYPES
    ensures TypeHardened(typeName)
  {
    WithoutBrackets("number");
    WithoutBrackets("string");
    WithoutBrackets("boolean");
    WithoutBrackets("array");
    WithoutBrackets("object");
  }

  /** What validation accepts, the second look never refuses. */
  lemma HardeningNeverFires(lines: seq<Line>, lower: Lower)
    requires KeepsTypeNames(lower) && Accepted(lines, lower)
    ensures Hardened(MeaningIn(lines, lower), lower)
  {
    forall f | f in MeaningIn(lines, lower).dataModel ensures TypeHardened(lower(f.typeName)) {
      AllowedTypesAreHardened(f.typeName);
    }
  }

  predicate Forbidden(lines: seq<Line>) {
    exists line :: line in lines && line.forbidden
  }

  /** The digest of the parsed meaning as it was written, order included. */
  type MeaningDigest = Meaning -> string

  /** What is fixed for a run of the compiler: the text functions, the two digests, and the size limit on the result. */
  datatype Settings = Settings(
    lower: Lower, collation: Collation, meaningDigest: MeaningDigest, digest: Digest, fits: Json -> bool)

  ghost function Compiled(m: Meaning, origin: string, settings: Settings): Json {
    ToJson(Derive(m, origin, settings.lower, settings.meaningDigest(m)), settings.collation)
  }

  /** The canonical spec of a meaning, if it is small enough. */
  ghost function SpecOf(m: Meaning, origin: string, settings: Settings): Option<Json> {
    var built := Built(Compiled(m, origin, settings), settings.digest);
    if built.Success? && settings.fits(built.value) then Some(built.value) else None
  }

  /** The canonical spec of a document, if it compiles. */
  ghost function Outcome(lines: seq<Line>, origin: string, settings: Settings): Option<Json> {
    if Forbidden(lines) || !Accepted(lines, settings.lower) then None
    else SpecOf(MeaningIn(lines, settings.lower), origin, settings)
  }

  method EnforceHardening(m: Meaning, lower: Lower) returns (refused: Option<Error>)
    ensures refused.None? <==> Hardened(m, lower)
  {
    if |m.dataModel| > MAX_DATA_MODEL_FIELDS { return Some(TooManyFields); }
    refused := EnforceDataModelTypeHardening(m.dataModel, lower);
  }

  method DeriveSpec(m: Meaning, origin: string, lower: Lower, hash: string) returns (spec: Spec)
    ensures spec == Derive(m, origin, lower, hash)
  {
    var mappedSpec := MapMeaningToSpec(m, lower, hash);
    var overrideTask := OverrideTask(m.dataModel, lower);
    if overrideTask.Some? { mappedSpec := Rerouted(mappedSpec, overrideTask.value); }
    spec := ApplyBlueprint(mappedSpec, m, origin);
  }

  /** The steps after validation. */
  method SpecFromMeaning(m: Meaning, origin: string, settings: Settings) returns (r: Result<Json, Error>)
    ensures r.Success? <==> Hardened(m, settings.lower) && SpecOf(m, origin, settings).Some?
    ensures r.Success? ==> SpecOf(m, origin, settings) == Some(r.value)
  {
    var refused := EnforceHardening(m, settings.lower);
    if refused.Some? { return Failure(refused.value); }
    var spec := DeriveSpec(m, origin, settings.lower, settings.meaningDigest(m));
    var json := LayOut(spec, settings.collation);
    var built := BuildCanonicalSpec(json, settings.digest);
    if built.Failure? { return Failure(SpecRefused(built.error)); }
    if !settings.fits(built.value) { return Failure(SpecTooLarge); }
    r := Success(built.value);
  }

  method ApplyBlueprint(mappedSpec: Spec, m: Meaning, origin: string) returns (spec: Spec)
    ensures spec == Finished(mappedSpec, m, origin)
  {
    spec := mappedSpec.(origin := origin, files := SortedUnique(Blueprint(mappedSpec.aiTask)));
    spec := spec.(dataModel := m.dataModel);
    if |m.uiPreference| > 0 {
      var files := ApplyUiPreferenceVariation(spec.files, m.uiPreference);
      spec := spec.(files := files);
    }
    spec := spec.(uiPreferences := m.uiPreference);
  }

  method LayOut(spec: Spec, collation: Collation) returns (json: Json)
    ensures json == ToJson(spec, collation)
  {
    var fields := Fixed(spec);
    var dataModel, properties, required := BuildDataModelArtifacts(spec.dataModel, collation);
    if |spec.dataModel| > 0 {
      fields := fields["data_model" := Obj(dataModel)];
      var dataSchema := map["type" := Str("object"), "properties" := Obj(properties)]["required" := Arr(Strings(required))];
      fields := fields["data_schema" := Obj(dataSchema)];
    }
    assert |SortFields(spec.dataModel, collation)| == |spec.dataModel| by {
      var sorted := SortFields(spec.dataModel, collation);
      assert |multiset(sorted)| == |sorted| && |multiset(spec.dataModel)| == |spec.dataModel|;
    }
    json := Obj(fields[ORIGIN := Obj(Origin(spec)[HASH := Str(spec.hash)])]);
  }

  /** The whole pipeline, from lines to canonical spec. */
  method ParseMeaning(lines: seq<Line>, origin: string, settings: Settings) returns (r: Result<Json, Error>)
    requires KeepsTypeNames(settings.lower)
    ensures r.Success? <==> Outcome(lines, origin, settings).Some?
    ensures r.Success? ==> Outcome(lines, origin, settings) == Some(r.value)
  {
    if Forbidden(lines) { return Failure(ForbiddenContent); }
    var meaning := ValidateMeaningMarkdown(lines, settings.lower);
    if meaning.Failure? { return Failure(meaning.error); }
    HardeningNeverFires(lines, settings.lower);
    r := SpecFromMeaning(meaning.value, origin, settings);
  }

  lemma {:induction false} RenderMembers(blocks: seq<Block>, line: Line)
    ensures line in Render(blocks) <==> exists i :: 0 <= i < |blocks| && (line == blocks[i].heading || line in blocks[i].body)
  {
    if blocks != [] {
      var n := |blocks| - 1;
      RenderMembers(blocks[..n], line);
      if i :| 0 <= i < n && (line == blocks[..n][i].heading || line in blocks[..n][i].body) {
        assert blocks[..n][i] == blocks[i];
      }
    }
  }

  lemma RearrangedKeepsLines(a: seq<Block>, b: seq<Block>, line: Line)
    requires Rearranged(a, b) && line in Render(a)
    ensures line in Render(b)
  {
    var p, q :| RearrangedBy(a, b, p, q);
    RenderMembers(a, line);
    RenderMembers(b, line);
    var i :| 0 <= i < |a| && (line == a[i].heading || line in a[i].body);
    assert BlocksAlike(a[p[q[i]]], b[q[i]]) && p[q[i]] == i;
    if a[i].body != b[q[i]].body { MembersOfEqualMultisets(a[i].body, b[q[i]].body); }
  }

  lemma RearrangedStaysForbidden(a: seq<Line>, b: seq<Line>)
    requires Rearranged(Blocks(a), Blocks(b)) && (Forbidden(Preamble(a)) ==> Forbidden(Preamble(b))) && Forbidden(a)
    ensures Forbidden(b)
  {
    EveryTextIsADocument(a);
    EveryTextIsADocument(b);
    var line :| line in a && line.forbidden;
    if line in Preamble(a) {
      var other :| other in Preamble(b) && other.forbidden;
      assert other in b;
    } else {
      RearrangedKeepsLines(Blocks(a), Blocks(b), line);
      assert line in b;
    }
  }

  /** The same text functions and limits; collation and the raw digest may differ. */
  ghost predicate SameRules(s: Settings, t: Settings) {
    s.lower == t.lower && s.digest == t.digest && s.fits == t.fits
  }

  lemma RearrangedCompilesAlike(a: seq<Line>, b: seq<Line>, origin: string, s: Settings, t: Settings)
    requires Rearranged(Blocks(a), Blocks(b)) && Accepted(a, s.lower) && SameRules(s, t)
    ensures Accepted(b, s.lower)
    ensures Built(Compiled(MeaningIn(a, s.lower), origin, s), s.digest) == Built(Compiled(MeaningIn(b, s.lower), origin, t), s.digest)
  {
    RearrangedMeansAlike(a, b, s.lower);
    var m, n := MeaningIn(a, s.lower), MeaningIn(b, s.lower);
    DerivedAlike(m, n, origin, s.lower, s.meaningDigest(m), t.meaningDigest(n));
    AlikeSpecsBuildAlike(
      Derive(m, origin, s.lower, s.meaningDigest(m)), Derive(n, origin, s.lower, t.meaningDigest(n)), s.collation, t.collation, s.digest);
  }

  /**
   * Reordering sections, bullets, data fields or preferences leaves the outcome identical: the same canonical spec with
   * the same hash, or no spec either way, under any collation and although the digest of the raw meaning sees the order.
   */
  lemma RearrangementIsInvisible(a: seq<Line>, b: seq<Line>, origin: string, s: Settings, t: Settings)
    requires Rearranged(Blocks(a), Blocks(b)) && Forbidden(Preamble(a)) == Forbidden(Preamble(b)) && SameRules(s, t)
    ensures Outcome(a, origin, s) == Outcome(b, origin, t)
  {
    RearrangedSymmetric(Blocks(a), Blocks(b));
    if Forbidden(a) { RearrangedStaysForbidden(a, b); }
    if Forbidden(b) { RearrangedStaysForbidden(b, a); }
    if Accepted(a, s.lower) {
      RearrangedCompilesAlike(a, b, origin, s, t);
    } else if Accepted(b, s.lower) {
      RearrangedCompilesAlike(b, a, origin, t, s);
    }
  }

  /** A compiled spec is a fixpoint of the canonical build, and carries the digest of the rest of itself. */
  lemma OutcomeIsCanonical(lines: seq<Line>, origin: string, settings: Settings)
    requires Outcome(lines, origin, settings).Some?
    ensures var spec := Outcome(lines, origin, settings).value;
            && Built(spec, settings.digest) == Success(spec)
            && HasRecordOrigin(spec)
            && StoredHash(spec) == Some(Str(settings.digest(Canonicalize(Unstamp(spec)))))
  {
    var m := MeaningIn(lines, settings.lower);
    var spec := Derive(m, origin, settings.lower, settings.meaningDigest(m));
    AlikeSpecsBuildAlike(spec, spec, settings.collation, settings.collation, settings.digest);
    BuildIsFixpoint(Compiled(m, origin, settings), settings.digest);
    StoredHashIsDigestOfRest(Compiled(m, origin, settings), settings.digest);
  }

  /** A document that validates and holds nothing forbidden builds; only the size limit can still refuse the result. */
  lemma AcceptedDocumentsBuild(lines: seq<Line>, origin: string, settings: Settings)
    requires !Forbidden(lines) && Accepted(lines, settings.lower)
    ensures var built := Built(Compiled(MeaningIn(lines, settings.lower), origin, settings), settings.digest);
            built.Success? && (Outcome(lines, origin, settings).Some? <==> settings.fits(built.value))
  {
    var m := MeaningIn(lines, settings.lower);
    var spec := Derive(m, origin, settings.lower, settings.meaningDigest(m));
    AlikeSpecsBuildAlike(spec, spec, settings.collation, settings.collation, settings.digest);
    BuildSucceedsIffOriginIsObject(Compiled(m, origin, settings), settings.digest);
  }
}
