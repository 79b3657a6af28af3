/** What of a document shows in its compiled spec, and where the generated schema contradicts itself. */
module MeaningLaws {
  import opened CanonicalJson
  import opened CanonicalSpec
  import opened Lists
  import opened MeaningCompiler
  import opened MeaningDocument
  import opened MeaningSpec
  import opened MeaningText
  import opened Ordering
  import opened Schema

  /** What an observation that mentions the token adds to the intents. */
  const OBSERVED_INTENTS := map[
    "heart" := "physiological_monitor", "screen" := "screen_monitor", "interrupt" := "interruption_tracking"]

  ghost predicate Observed(observations: seq<string>, lower: Lower, intent: string) {
    exists token :: token in OBSERVED_INTENTS && OBSERVED_INTENTS[token] == intent && IncludesToken(observations, token, lower)
  }

  lemma ObservedIff(observations: seq<string>, lower: Lower, intent: string)
    ensures Observed(observations, lower, intent) <==>
            || (intent == "physiological_monitor" && IncludesToken(observations, "heart", lower))
            || (intent == "screen_monitor" && IncludesToken(observations, "screen", lower))
            || (intent == "interruption_tracking" && IncludesToken(observations, "interrupt", lower))
  {
    assert "heart" in OBSERVED_INTENTS && "screen" in OBSERVED_INTENTS && "interrupt" in OBSERVED_INTENTS;
  }

  lemma ProfileIntentsAreNamed(task: string)
    ensures "" !in TaskProfile(task).featureIntents
  {
  }

  function Pushed(profile: seq<string>, heart: bool, screen: bool, interrupt: bool): seq<string> {
    PushIf(PushIf(PushIf(profile, heart, "physiological_monitor"), screen, "screen_monitor"), interrupt, "interruption_tracking")
  }

  lemma PushedMembers(profile: seq<string>, heart: bool, screen: bool, interrupt: bool)
    ensures forall x :: x in Pushed(profile, heart, screen, interrupt) <==>
              || x in profile || (heart && x == "physiological_monitor") || (screen && x == "screen_monitor")
              || (interrupt && x == "interruption_tracking")
  {
  }

  /** The intents of the profile and those that observations bring up, each once, in order. */
  lemma IntentsAreProfileAndObserved(profile: seq<string>, observations: seq<string>, lower: Lower)
    requires "" !in profile
    ensures Increasing(FeatureIntents(profile, observations, lower))
    ensures forall x :: x in FeatureIntents(profile, observations, lower) <==> x in profile || Observed(observations, lower, x)
  {
    var h, c, t := IncludesToken(observations, "heart", lower), IncludesToken(observations, "screen", lower),
                   IncludesToken(observations, "interrupt", lower);
    PushedSorted(profile, h, c, t);
    forall x ensures x in FeatureIntents(profile, observations, lower) <==> x in profile || Observed(observations, lower, x) {
      ObservedIff(observations, lower, x);
    }
  }

  lemma PushedSorted(profile: seq<string>, heart: bool, screen: bool, interrupt: bool)
    requires "" !in profile
    ensures var intents := SortedUnique(Pushed(profile, heart, screen, interrupt));
            && Increasing(intents)
            && forall x :: x in intents <==>
              || x in profile || (heart && x == "physiological_monitor") || (screen && x == "screen_monitor")
              || (interrupt && x == "interruption_tracking")
  {
    PushedMembers(profile, heart, screen, interrupt);
    SortedUniqueMembers(Pushed(profile, heart, screen, interrupt));
  }

  /** The task that the functional intent names, before the data model may override it. */
  function IntendedTask(m: Meaning, lower: Lower): string {
    ResolveAiTask(lower(if m.functionalIntent.Some? then m.functionalIntent.value else ""), FUNCTIONAL_INTENT_RULES)
  }

  /**
   * What of a meaning shows in the spec: the intents are those of the task that the functional intent names and those that
   * observations bring up, even when the data model overrides the task; each flag is set exactly when some recommended
   * action mentions its token.
   */
  lemma SpecReflectsMeaning(m: Meaning, origin: string, lower: Lower, hash: string)
    ensures var spec, task := Derive(m, origin, lower, hash), OverrideTask(m.dataModel, lower);
            && spec.aiTask == (if task.Some? then task.value else IntendedTask(m, lower))
            && Increasing(spec.featureIntents)
            && (forall x :: x in spec.featureIntents <==>
                  x in TaskProfile(IntendedTask(m, lower)).featureIntents || Observed(m.observations, lower, x))
            && (spec.behaviorFeedback <==> exists a :: a in m.recommendedActions && Includes(lower(a), lower("reduce")))
            && (spec.adaptiveSuggestion <==> exists a :: a in m.recommendedActions && Includes(lower(a), lower("increase")))
  {
    var profile := TaskProfile(IntendedTask(m, lower)).featureIntents;
    ProfileIntentsAreNamed(IntendedTask(m, lower));
    IntentsAreProfileAndObserved(profile, m.observations, lower);
    DerivedKeepsMapped(m, origin, lower, hash);
    assert MapMeaning(m, lower, hash).featureIntents == FeatureIntents(profile, m.observations, lower);
  }

  lemma DerivedKeepsMapped(m: Meaning, origin: string, lower: Lower, hash: string)
    ensures var spec, mapped, task := Derive(m, origin, lower, hash), MapMeaning(m, lower, hash), OverrideTask(m.dataModel, lower);
            && spec.aiTask == (if task.Some? then task.value else mapped.aiTask)
            && spec.featureIntents == mapped.featureIntents
            && spec.behaviorFeedback == mapped.behaviorFeedback && spec.adaptiveSuggestion == mapped.adaptiveSuggestion
  {
  }

  /** Canonicalizing, even twice, looks at each field by itself. */
  lemma FieldOfSettled(fields: map<string, Json>, k: string)
    requires k != PROTOTYPE && k in fields
    ensures var settled := Canonicalize(Canonicalize(Obj(fields))).fields;
            && (k in settled <==> Survives(fields[k]))
            && (k in settled ==> settled[k] == Canonicalize(Canonicalize(fields[k])))
  {
    FieldOfCanonical(fields, k);
    var once := Canonicalize(Obj(fields)).fields;
    if k in once { FieldOfCanonical(once, k); }
    assert Canonicalize(Obj(once)).fields.Keys <= once.Keys;
  }

  ghost predicate SchemaFormed(schema: Json) {
    && schema.Obj? && "properties" in schema.fields && "required" in schema.fields
    && schema.fields["properties"].Obj? && schema.fields["required"].Arr? && IsStringArray(schema.fields["required"].items)
    && forall k :: k in schema.fields["properties"].fields ==> k != PROTOTYPE && Survives(schema.fields["properties"].fields[k])
  }

  ghost function Properties(schema: Json): set<string>
    requires SchemaFormed(schema)
  {
    schema.fields["properties"].fields.Keys
  }

  ghost function Required(schema: Json): set<string>
    requires SchemaFormed(schema)
  {
    Elements(Texts(schema.fields["required"].items))
  }

  /** A schema with these properties and these required names. */
  ghost predicate IsSchema(schema: Json, properties: set<string>, required: set<string>) {
    SchemaFormed(schema) && Properties(schema) == properties && Required(schema) == required
  }

  lemma PropertiesStay(fields: map<string, Json>)
    requires forall k :: k in fields ==> k != PROTOTYPE && Survives(fields[k])
    ensures var out := Canonicalize(Obj(fields)).fields; out.Keys == fields.Keys && forall k :: k in out ==> Survives(out[k])
  {
    forall k | k in fields ensures k in Canonicalize(Obj(fields)).fields { FieldOfCanonical(fields, k); }
    forall k | k in Canonicalize(Obj(fields)).fields ensures k in fields && Survives(Canonicalize(Obj(fields)).fields[k]) {
      FieldOfCanonical(fields, k);
    }
  }

  lemma RequiredStays(items: seq<Json>)
    requires IsStringArray(items)
    ensures var out := Canonicalize(Arr(items)); IsStringArray(out.items) && Elements(Texts(out.items)) == Elements(Texts(items))
  {
    MembersOfEqualMultisets(Sort(Texts(items)), Texts(items));
  }

  lemma CanonicalSchema(schema: Json, properties: set<string>, required: set<string>)
    requires IsSchema(schema, properties, required)
    ensures IsSchema(Canonicalize(schema), properties, required)
  {
    FieldOfCanonical(schema.fields, "properties");
    FieldOfCanonical(schema.fields, "required");
    PropertiesStay(schema.fields["properties"].fields);
    RequiredStays(schema.fields["required"].items);
  }

  lemma GeneratedSchema(types: map<string, string>, names: seq<string>)
    requires PROTOTYPE !in types
    ensures IsSchema(DataSchema(types, names), types.Keys, Elements(names))
  {
  }

  /** A field of the laid out spec that is not the origin reaches the compiled spec in settled form. */
  lemma FieldOfOutcome(lines: seq<Line>, origin: string, settings: Settings, k: string)
    requires Outcome(lines, origin, settings).Some? && k != ORIGIN && k != PROTOTYPE
    requires k in Compiled(MeaningIn(lines, settings.lower), origin, settings).fields
    requires Survives(Compiled(MeaningIn(lines, settings.lower), origin, settings).fields[k])
    ensures var compiled := Compiled(MeaningIn(lines, settings.lower), origin, settings).fields;
            var spec := Outcome(lines, origin, settings).value;
            spec.Obj? && k in spec.fields && spec.fields[k] == Canonicalize(Canonicalize(compiled[k]))
  {
    FieldOfSettled(Compiled(MeaningIn(lines, settings.lower), origin, settings).fields, k);
  }

  lemma SettledSchema(schema: Json, types: map<string, string>, names: seq<string>)
    requires PROTOTYPE !in types && schema == DataSchema(types, names)
    ensures IsSchema(Canonicalize(Canonicalize(schema)), types.Keys, Elements(names))
  {
    GeneratedSchema(types, names);
    CanonicalSchema(schema, types.Keys, Elements(names));
    CanonicalSchema(Canonicalize(schema), types.Keys, Elements(names));
  }

  lemma CompiledSchema(m: Meaning, origin: string, settings: Settings)
    requires m.dataModel != []
    ensures var compiled, sorted := Compiled(m, origin, settings), SortFields(m.dataModel, settings.collation);
            && compiled.Obj? && "data_schema" in compiled.fields
            && compiled.fields["data_schema"] == DataSchema(FieldTypes(sorted), Map(NAME, sorted))
  {
    SortedFieldsRemain(m.dataModel, settings.collation);
    DerivedDataModel(m, origin, settings.lower, settings.meaningDigest(m));
    SpecSchema(Derive(m, origin, settings.lower, settings.meaningDigest(m)), SortFields(m.dataModel, settings.collation), settings.collation);
  }

  lemma DerivedDataModel(m: Meaning, origin: string, lower: Lower, hash: string)
    ensures Derive(m, origin, lower, hash).dataModel == m.dataModel
  {
  }

  lemma SpecSchema(spec: Spec, sorted: seq<Field>, collation: Collation)
    requires sorted == SortFields(spec.dataModel, collation) != []
    ensures var json := ToJson(spec, collation);
            && json.Obj? && "data_schema" in json.fields
            && json.fields["data_schema"] == DataSchema(FieldTypes(sorted), Map(NAME, sorted))
  {
  }

  lemma SortedFieldsRemain(fields: seq<Field>, collation: Collation)
    requires fields != []
    ensures SortFields(fields, collation) != []
  {
    var sorted := SortFields(fields, collation);
    assert |multiset(sorted)| == |sorted| && |multiset(fields)| == |fields|;
  }

  lemma SortedFieldsKeepNames(fields: seq<Field>, collation: Collation)
    requires DistinctNames(fields)
    ensures var sorted := SortFields(fields, collation);
            && PROTOTYPE !in FieldTypes(sorted)
            && FieldTypes(sorted).Keys == Elements(Map(NAME, fields)) - {PROTOTYPE}
            && Elements(Map(NAME, sorted)) == Elements(Map(NAME, fields))
  {
    var sorted := SortFields(fields, collation);
    FieldTypesAlike(fields, sorted);
    FieldTypesAreNamed(fields);
    MembersOfEqualMultisets(Map(NAME, fields), Map(NAME, sorted));
  }

  /**
   * The schema in a compiled spec, from document lines to canonical form: it requires the names of all fields of the data
   * model, and lists all but one named like the prototype property.
   */
  lemma OutcomeSchema(lines: seq<Line>, origin: string, settings: Settings)
    requires Outcome(lines, origin, settings).Some? && MeaningIn(lines, settings.lower).dataModel != []
    ensures var fields, spec := MeaningIn(lines, settings.lower).dataModel, Outcome(lines, origin, settings).value;
            && spec.Obj? && "data_schema" in spec.fields
            && IsSchema(spec.fields["data_schema"], Elements(Map(NAME, fields)) - {PROTOTYPE}, Elements(Map(NAME, fields)))
  {
    var m := MeaningIn(lines, settings.lower);
    AcceptedNamesAreDistinct(lines, settings.lower);
    var sorted := SortFields(m.dataModel, settings.collation);
    CompiledSchema(m, origin, settings);
    SortedFieldsKeepNames(m.dataModel, settings.collation);
    SettledSchema(DataSchema(FieldTypes(sorted), Map(NAME, sorted)), FieldTypes(sorted), Map(NAME, sorted));
    FieldOfOutcome(lines, origin, settings, "data_schema");
  }

  lemma AcceptedNamesAreDistinct(lines: seq<Line>, lower: Lower)
    requires Accepted(lines, lower)
    ensures DistinctNames(MeaningIn(lines, lower).dataModel)
  {
  }

  lemma PrototypeMakesTheDifference(names: seq<string>)
    ensures Elements(names) - {PROTOTYPE} == Elements(names) <==> PROTOTYPE !in names
  {
    assert PROTOTYPE in names <==> PROTOTYPE in Elements(names);
  }

  /** A compiled schema requires exactly the properties it lists, unless a field is named like the prototype property. */
  lemma OutcomeRequiresListedIff(lines: seq<Line>, origin: string, settings: Settings)
    requires Outcome(lines, origin, settings).Some? && MeaningIn(lines, settings.lower).dataModel != []
    ensures var names, spec := Map(NAME, MeaningIn(lines, settings.lower).dataModel), Outcome(lines, origin, settings).value;
            && spec.Obj? && "data_schema" in spec.fields && SchemaFormed(spec.fields["data_schema"])
            && (Properties(spec.fields["data_schema"]) == Required(spec.fields["data_schema"]) <==> "__proto__" !in names)
  {
    OutcomeSchema(lines, origin, settings);
    PrototypeMakesTheDifference(Map(NAME, MeaningIn(lines, settings.lower).dataModel));
  }

  function Titled(title: string): Line {
    Line(false, Heading(title))
  }

  function Item(text: string): Line {
    Line(false, Text(false, false, Some(text), text, None, None))
  }

  function FieldLine(name: string, typeName: string): Line {
    Line(false, Text(false, false, Some(name), name, Some(Entry(name, typeName)), None))
  }

  /** One bullet in each required section, and a data model with one field named like the prototype property. */
  const PROTOTYPE_DOCUMENT: seq<Line> :=
    [Titled("Observations")] + [Item("o")] + [Titled("Recommended Actions")] + [Item("r")] + [Titled("Data Model")]
    + [FieldLine(PROTOTYPE, "number")]

  const PROTOTYPE_SECTIONS: map<Section, seq<Line>> :=
    map[Observations := [Item("o")]][RecommendedActions := [Item("r")]][DataModel := [FieldLine(PROTOTYPE, "number")]]

  lemma ScanOneMore(lines: seq<Line>, line: Line)
    ensures ScanAll(lines + [line]) ==
            if ScanAll(lines).Failure? then ScanAll(lines) else ScanLine(ScanAll(lines).value, line, |lines| + 1)
  {
    assert (lines + [line])[..|lines|] == lines;
  }

  lemma HeadingScanned(state: Scan, title: string, number: nat, s: Section)
    requires SectionOf(title) == Some(s) && s !in state.sections
    ensures ScanLine(state, Titled(title), number) == Success(Scan(Some(s), state.sections[s := []]))
  {
  }

  lemma TextScanned(state: Scan, line: Line, number: nat, s: Section)
    requires line.shape.Text? && !line.shape.nested && state.current == Some(s) && s in state.sections
    ensures ScanLine(state, line, number) == Success(Scan(Some(s), state.sections[s := state.sections[s] + [line]]))
  {
  }

  lemma SectionScanned(lines: seq<Line>, state: Scan, title: string, s: Section, line: Line)
    requires ScanAll(lines) == Success(state) && SectionOf(title) == Some(s) && s !in state.sections
    requires line.shape.Text? && !line.shape.nested
    ensures ScanAll(lines + [Titled(title)] + [line]) == Success(Scan(Some(s), state.sections[s := [line]]))
  {
    ScanOneMore(lines, Titled(title));
    HeadingScanned(state, title, |lines| + 1, s);
    var entered := Scan(Some(s), state.sections[s := []]);
    ScanOneMore(lines + [Titled(title)], line);
    TextScanned(entered, line, |lines| + 2, s);
    assert [] + [line] == [line] && state.sections[s := []][s := [line]] == state.sections[s := [line]];
  }

  lemma PrototypeDocumentScans()
    ensures ScanAll(PROTOTYPE_DOCUMENT).Success? && ScanAll(PROTOTYPE_DOCUMENT).value.sections == PROTOTYPE_SECTIONS
  {
    SectionScanned([], START, "Observations", Observations, Item("o"));
    var one := [Titled("Observations")] + [Item("o")];
    assert one == [] + [Titled("Observations")] + [Item("o")];
    var first := Scan(Some(Observations), map[Observations := [Item("o")]]);
    SectionScanned(one, first, "Recommended Actions", RecommendedActions, Item("r"));
    var two := one + [Titled("Recommended Actions")] + [Item("r")];
    var second := Scan(Some(RecommendedActions), first.sections[RecommendedActions := [Item("r")]]);
    SectionScanned(two, second, "Data Model", DataModel, FieldLine(PROTOTYPE, "number"));
  }

  lemma SingleItem(line: Line)
    ensures Bullets([line]) == if BULLET_OF(line).Some? then [BULLET_OF(line).value] else []
  {
    FilterMapOne(BULLET_OF, line);
  }

  lemma SingleField(lower: Lower)
    requires lower("number") == "number"
    ensures Fields([FieldLine(PROTOTYPE, "number")], lower) == [Field(PROTOTYPE, "number")]
    ensures FieldsAccepted([FieldLine(PROTOTYPE, "number")], lower)
  {
    FilterMapOne(FieldOf(lower), FieldLine(PROTOTYPE, "number"));
    assert FieldOf(lower)(FieldLine(PROTOTYPE, "number")) == Some(Field(PROTOTYPE, "number"));
  }

  lemma PrototypeDocumentIsAccepted(lower: Lower)
    requires KeepsTypeNames(lower)
    ensures Accepted(PROTOTYPE_DOCUMENT, lower)
    ensures MeaningIn(PROTOTYPE_DOCUMENT, lower).dataModel == [Field(PROTOTYPE, "number")]
  {
    PrototypeDocumentScans();
    SingleItem(Item("o"));
    SingleItem(Item("r"));
    SingleField(lower);
    assert Preferences([], lower) == [];
  }

  lemma PrototypeDocumentIsHarmless()
    ensures !Forbidden(PROTOTYPE_DOCUMENT)
  {
  }

  /** Its schema requires the prototype property and lists nothing. */
  lemma PrototypeFieldIsRequiredNotListed(origin: string, settings: Settings)
    requires KeepsTypeNames(settings.lower) && forall v :: settings.fits(v)
    ensures Outcome(PROTOTYPE_DOCUMENT, origin, settings).Some?
    ensures var spec := Outcome(PROTOTYPE_DOCUMENT, origin, settings).value;
            spec.Obj? && "data_schema" in spec.fields && IsSchema(spec.fields["data_schema"], {}, {"__proto__"})
  {
    PrototypeDocumentIsAccepted(settings.lower);
    PrototypeDocumentIsHarmless();
    AcceptedDocumentsBuild(PROTOTYPE_DOCUMENT, origin, settings);
    OutcomeSchema(PROTOTYPE_DOCUMENT, origin, settings);
    PrototypeNames();
  }

  lemma PrototypeNames()
    ensures Elements(Map(NAME, [Field(PROTOTYPE, "number")])) == {PROTOTYPE}
    ensures Elements(Map(NAME, [Field(PROTOTYPE, "number")])) - {PROTOTYPE} == {}
  {
    assert Map(NAME, [Field(PROTOTYPE, "number")]) == [PROTOTYPE];
  }
}
