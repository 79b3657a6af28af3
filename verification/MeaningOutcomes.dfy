/** What a compiled spec holds, field by field, in terms of the document. */
module MeaningOutcomes {
  import opened CanonicalJson
  import opened CanonicalSpec
  import opened Lists
  import opened MeaningCompiler
  import opened MeaningDocument
  import opened MeaningLaws
  import opened MeaningSpec
  import opened MeaningTables
  import opened MeaningText
  import opened Ordering
  import opened Schema

  lemma NamedIntent(m: Meaning, lower: Lower)
    ensures IntendedTask(m, lower) == NamedTask(lower(IntentText(m)))
  {
    RulesNameTask(lower(IntentText(m)));
  }

  lemma OverrideIsExpected(m: Meaning, lower: Lower)
    ensures var task := OverrideTask(m.dataModel, lower);
            ExpectedTask(m, lower) == if task.Some? then task.value else NamedTask(lower(IntentText(m)))
  {
  }

  lemma DerivedTask(m: Meaning, origin: string, lower: Lower, hash: string)
    ensures var task := OverrideTask(m.dataModel, lower);
            Derive(m, origin, lower, hash).aiTask == if task.Some? then task.value else IntendedTask(m, lower)
  {
    DerivedKeepsMapped(m, origin, lower, hash);
  }

  /** The task of a spec is the one that data model and functional intent ask for. */
  lemma TaskIsExpected(m: Meaning, origin: string, lower: Lower, hash: string)
    ensures Derive(m, origin, lower, hash).aiTask == ExpectedTask(m, lower)
  {
    DerivedTask(m, origin, lower, hash);
    OverrideIsExpected(m, lower);
    NamedIntent(m, lower);
  }

  /** A field of a built spec, other than the origin, is the one given, in canonical form. */
  lemma FieldOfBuilt(fields: map<string, Json>, digest: Digest, k: string)
    requires Built(Obj(fields), digest).Success? && k != ORIGIN && k != PROTOTYPE
    ensures var spec := Built(Obj(fields), digest).value;
            && spec.Obj? && (k in spec.fields <==> k in fields && Survives(fields[k]))
            && (k in spec.fields ==> spec.fields[k] == Canonicalize(Canonicalize(fields[k])))
  {
    if k in fields { FieldOfSettled(fields, k); }
    var once := Canonicalize(Obj(fields));
    assert once.fields.Keys <= fields.Keys && Canonicalize(once).fields.Keys <= once.fields.Keys;
  }

  lemma LookUpLayout(spec: Spec, collation: Collation, k: string)
    requires k != ORIGIN && k != "data_model" && k != "data_schema"
    ensures var laid := ToJson(spec, collation);
            laid.Obj? && (k in laid.fields <==> k in Fixed(spec)) && (k in laid.fields ==> laid.fields[k] == Fixed(spec)[k])
  {
  }

  lemma LookUpWith(fields: map<string, Json>, present: bool, k: string, v: Json, x: string)
    ensures var more := With(fields, present, k, v);
            && (x != k ==> (x in more <==> x in fields) && (x in more ==> more[x] == fields[x]))
            && (present ==> k in more && more[k] == v)
  {
  }

  ghost predicate Optional(k: string) {
    k == "behavior_feedback" || k == "adaptive_suggestion" || k == "ui_preferences"
  }

  /** The key depends on no condition, and is not that of the origin. */
  ghost predicate Unconditional(k: string) {
    k != ORIGIN && k != PROTOTYPE && k != "data_model" && k != "data_schema" && !Optional(k)
  }

  lemma ShortKeys()
    ensures Unconditional("ai_task") && Unconditional("ui_type") && Unconditional("origin")
  {
  }

  lemma LongKeys()
    ensures Unconditional("project_type") && Unconditional("capabilities") && Unconditional("contracts")
  {
  }

  /** A key that every spec has leads to the same value through all layers of the layout. */
  lemma LookUpAlways(spec: Spec, collation: Collation, k: string)
    requires Unconditional(k)
    ensures var laid := ToJson(spec, collation);
            laid.Obj? && (k in laid.fields <==> k in Always(spec)) && (k in laid.fields ==> laid.fields[k] == Always(spec)[k])
  {
    LookUpLayout(spec, collation, k);
    var one := With(Always(spec), spec.behaviorFeedback, "behavior_feedback", Bool(true));
    var two := With(one, spec.adaptiveSuggestion, "adaptive_suggestion", Bool(true));
    LookUpWith(Always(spec), spec.behaviorFeedback, "behavior_feedback", Bool(true), k);
    LookUpWith(one, spec.adaptiveSuggestion, "adaptive_suggestion", Bool(true), k);
    LookUpWith(two, |spec.uiPreferences| > 0, "ui_preferences", Obj(TextValues(spec.uiPreferences)), k);
  }

  lemma AlwaysTask(spec: Spec)
    ensures "ai_task" in Always(spec) && Always(spec)["ai_task"] == Str(spec.aiTask)
  {
  }

  lemma AlwaysUi(spec: Spec)
    ensures "ui_type" in Always(spec) && Always(spec)["ui_type"] == Str(spec.uiType)
  {
  }

  lemma AlwaysTexts(spec: Spec)
    ensures "project_type" in Always(spec) && Always(spec)["project_type"] == Str("desktop_app")
    ensures "origin" in Always(spec) && Always(spec)["origin"] == Str(spec.origin)
  {
  }

  lemma AlwaysParts(spec: Spec)
    ensures "capabilities" in Always(spec) && Always(spec)["capabilities"] == Capabilities(spec.featureIntents)
    ensures "contracts" in Always(spec) && Always(spec)["contracts"] == Contracts(spec.files)
  {
  }

  lemma AlwaysWithoutFlags(spec: Spec)
    ensures "behavior_feedback" !in Always(spec) && "adaptive_suggestion" !in Always(spec) && "ui_preferences" !in Always(spec)
  {
  }

  /** The field of a compiled spec under a key that every spec has. */
  lemma OutcomeHolds(m: Meaning, origin: string, settings: Settings, k: string)
    requires SpecOf(m, origin, settings).Some? && Unconditional(k)
    requires var always := Always(Derive(m, origin, settings.lower, settings.meaningDigest(m))); k in always && Survives(always[k])
    ensures var spec := SpecOf(m, origin, settings).value;
            && spec.Obj? && k in spec.fields
            && spec.fields[k] ==
               Canonicalize(Canonicalize(Always(Derive(m, origin, settings.lower, settings.meaningDigest(m)))[k]))
  {
    var derived := Derive(m, origin, settings.lower, settings.meaningDigest(m));
    LookUpAlways(derived, settings.collation, k);
    FieldOfBuilt(ToJson(derived, settings.collation).fields, settings.digest, k);
  }

  lemma OutcomeTask(m: Meaning, origin: string, settings: Settings)
    requires SpecOf(m, origin, settings).Some?
    ensures var spec := SpecOf(m, origin, settings).value;
            spec.Obj? && "ai_task" in spec.fields && spec.fields["ai_task"] == Str(ExpectedTask(m, settings.lower))
  {
    var derived := Derive(m, origin, settings.lower, settings.meaningDigest(m));
    TaskIsExpected(m, origin, settings.lower, settings.meaningDigest(m));
    AlwaysTask(derived);
    ShortKeys();
    OutcomeHolds(m, origin, settings, "ai_task");
  }

  lemma OutcomeUi(m: Meaning, origin: string, settings: Settings)
    requires SpecOf(m, origin, settings).Some?
    ensures var spec := SpecOf(m, origin, settings).value;
            && spec.Obj? && "ui_type" in spec.fields && spec.fields["ui_type"].Str?
            && ShownAs(ExpectedTask(m, settings.lower), spec.fields["ui_type"].text)
  {
    var hash := settings.meaningDigest(m);
    var derived := Derive(m, origin, settings.lower, hash);
    TaskIsExpected(m, origin, settings.lower, hash);
    UiTypeFollowsTask(m, origin, settings.lower, hash);
    ProfilesShow(derived.aiTask, derived.uiType);
    AlwaysUi(derived);
    ShortKeys();
    OutcomeHolds(m, origin, settings, "ui_type");
  }

  lemma OutcomeTexts(m: Meaning, origin: string, settings: Settings)
    requires SpecOf(m, origin, settings).Some?
    ensures var spec := SpecOf(m, origin, settings).value;
            && spec.Obj? && "project_type" in spec.fields && spec.fields["project_type"] == Str("desktop_app")
            && "origin" in spec.fields && spec.fields["origin"] == Str(origin)
  {
    var derived := Derive(m, origin, settings.lower, settings.meaningDigest(m));
    AlwaysTexts(derived);
    ShortKeys();
    LongKeys();
    OutcomeHolds(m, origin, settings, "origin");
    OutcomeHolds(m, origin, settings, "project_type");
  }

  lemma IncreasingStays(s: seq<string>)
    requires Increasing(s)
    ensures Canonicalize(Arr(Strings(s))) == Arr(Strings(s))
  {
    SortedIsFixed(s);
  }

  lemma OneEntry<K, V>(m: map<K, V>, k: K)
    requires k in m && m.Keys <= {k}
    ensures m == map[k := m[k]]
  {
  }

  lemma KeysOfCanonical(fields: map<string, Json>)
    ensures Canonicalize(Obj(fields)).fields.Keys <= fields.Keys
  {
  }

  /** A value in an object that has no other fields. */
  lemma OnlyFieldCanonical(k: string, v: Json)
    requires k != PROTOTYPE && Survives(v)
    ensures Canonicalize(Obj(map[k := v])) == Obj(map[k := Canonicalize(v)])
  {
    var fields := map[k := v];
    FieldOfCanonical(fields, k);
    KeysOfCanonical(fields);
    OneEntry(Canonicalize(Obj(fields)).fields, k);
  }

  lemma OnlyFieldSettled(k: string, v: Json)
    requires k != PROTOTYPE && Survives(v)
    ensures Canonicalize(Canonicalize(Obj(map[k := v]))) == Obj(map[k := Canonicalize(Canonicalize(v))])
  {
    OnlyFieldCanonical(k, v);
    OnlyFieldCanonical(k, Canonicalize(v));
  }

  /** The intents of a compiled spec: those of the named task, and those that the observations bring up. */
  ghost predicate Intended(m: Meaning, lower: Lower, x: string) {
    || Intends(NamedTask(lower(IntentText(m))), x)
    || (x == "physiological_monitor" && Mentioned(m.observations, "heart", lower))
    || (x == "screen_monitor" && Mentioned(m.observations, "screen", lower))
    || (x == "interruption_tracking" && Mentioned(m.observations, "interrupt", lower))
  }

  ghost predicate Mentioned(items: seq<string>, token: string, lower: Lower) {
    exists item :: item in items && Includes(lower(item), lower(token))
  }

  lemma IntentsAreIntended(m: Meaning, origin: string, lower: Lower, hash: string)
    ensures var intents := Derive(m, origin, lower, hash).featureIntents;
            Increasing(intents) && forall x :: x in intents <==> Intended(m, lower, x)
  {
    SpecReflectsMeaning(m, origin, lower, hash);
    NamedIntent(m, lower);
    forall x ensures x in Derive(m, origin, lower, hash).featureIntents <==> Intended(m, lower, x) {
      ObservedIff(m.observations, lower, x);
      ProfilesIntend(IntendedTask(m, lower), x);
    }
  }

  lemma OutcomeIntents(m: Meaning, origin: string, settings: Settings) returns (intents: seq<string>)
    requires SpecOf(m, origin, settings).Some?
    ensures Increasing(intents) && forall x :: x in intents <==> Intended(m, settings.lower, x)
    ensures var spec := SpecOf(m, origin, settings).value;
            && spec.Obj? && "capabilities" in spec.fields
            && spec.fields["capabilities"] == Obj(map["feature_intents" := Arr(Strings(intents))])
  {
    var derived := Derive(m, origin, settings.lower, settings.meaningDigest(m));
    intents := derived.featureIntents;
    IntentsAreIntended(m, origin, settings.lower, settings.meaningDigest(m));
    AlwaysParts(derived);
    LongKeys();
    OutcomeHolds(m, origin, settings, "capabilities");
    CapabilitiesSettled(intents);
  }

  lemma CapabilitiesSettled(intents: seq<string>)
    requires Increasing(intents)
    ensures Canonicalize(Canonicalize(Capabilities(intents))) == Obj(map["feature_intents" := Arr(Strings(intents))])
  {
    IncreasingStays(intents);
    OnlyFieldSettled("feature_intents", Arr(Strings(intents)));
  }

  ghost predicate Prefers(m: Meaning, key: string, value: string) {
    key in m.uiPreference && m.uiPreference[key] == value
  }

  /** A page in the public directory: twelve characters in front and five at the end. */
  ghost predicate IsPage(f: string) {
    |f| >= 17 && f[..12] == "core/public/" && f[|f| - 5..] == ".html"
  }

  lemma PagesAgree(f: string)
    ensures IsPublicPage(f) <==> IsPage(f)
  {
    assert |"core/public/"| == 12 && |".html"| == 5;
  }

  /** The files of the task, with those for theme and layout; the minimal layout has one public page of its own. */
  ghost predicate Contracted(m: Meaning, task: string, f: string) {
    || (f == "core/public/theme-dark.css" && Prefers(m, "theme", "dark"))
    || (f == "core/public/panel_layout.js" && Prefers(m, "layout", "panel"))
    || (f == "core/public/minimal.html" && Prefers(m, "layout", "minimal"))
    || (Ships(task, f) && !(Prefers(m, "layout", "minimal") && IsPage(f)))
  }

  lemma OptionalFilesAreNoPages()
    ensures !IsPage("core/public/theme-dark.css") && !IsPage("core/public/panel_layout.js")
  {
    var theme, panel := "core/public/theme-dark.css", "core/public/panel_layout.js";
    assert theme[|theme| - 5..][0] == 'k' && panel[|panel| - 5..][0] == 'u';
  }

  lemma NothingShipsUnnamed(task: string)
    ensures !Ships(task, "")
  {
  }

  lemma PlainFiles(task: string)
    ensures Increasing(SortedUnique(Blueprint(task)))
    ensures forall f :: f in SortedUnique(Blueprint(task)) <==> Ships(task, f)
  {
    SortedUniqueMembers(Blueprint(task));
    NothingShipsUnnamed(task);
    forall f ensures f in Blueprint(task) <==> Ships(task, f) { BlueprintsShip(task, f); }
  }

  lemma PreferredIff(prefs: map<string, string>, key: string, value: string)
    requires value != ""
    ensures Preferred(prefs, key) == value <==> key in prefs && prefs[key] == value
  {
  }

  lemma VariedByPreference(files: seq<string>, m: Meaning, task: string)
    requires forall f :: f in files <==> Ships(task, f)
    ensures Increasing(VaryFiles(files, m.uiPreference))
    ensures forall f :: f in VaryFiles(files, m.uiPreference) <==> Contracted(m, task, f)
  {
    PreferredIff(m.uiPreference, "theme", "dark");
    PreferredIff(m.uiPreference, "layout", "panel");
    PreferredIff(m.uiPreference, "layout", "minimal");
    var dark, panel, minimal := Prefers(m, "theme", "dark"), Prefers(m, "layout", "panel"), Prefers(m, "layout", "minimal");
    VariedFiles(files, dark, panel, minimal);
    VariedAreContracted(files, m, task);
  }

  lemma VariedAreContracted(files: seq<string>, m: Meaning, task: string)
    requires forall f :: f in files <==> Ships(task, f)
    ensures var dark, panel, minimal := Prefers(m, "theme", "dark"), Prefers(m, "layout", "panel"), Prefers(m, "layout", "minimal");
            forall f :: Contracted(m, task, f) <==>
              || (minimal && f == MINIMAL_PAGE)
              || (f != "" && (f in files || (dark && f == THEME_FILE) || (panel && f == PANEL_FILE)) && (minimal ==> !IsPublicPage(f)))
  {
    OptionalFilesAreNoPages();
    NothingShipsUnnamed(task);
    forall f ensures IsPublicPage(f) <==> IsPage(f) { PagesAgree(f); }
  }

  lemma FilesAreContracted(m: Meaning, origin: string, lower: Lower, hash: string)
    ensures var files := Derive(m, origin, lower, hash).files;
            Increasing(files) && forall f :: f in files <==> Contracted(m, ExpectedTask(m, lower), f)
  {
    TaskIsExpected(m, origin, lower, hash);
    var task := ExpectedTask(m, lower);
    PlainFiles(task);
    FinishedKeepsTask(Routed(m, lower, hash), m, origin);
    if |m.uiPreference| > 0 {
      VariedByPreference(SortedUnique(Blueprint(task)), m, task);
    } else {
      assert forall key: string :: key !in m.uiPreference;
    }
  }

  /** The contract of a spec: its files in order, and two fixed lists. */
  ghost predicate IsContract(v: Json, files: seq<string>) {
    && v.Obj? && v.fields.Keys == {"files", "behaviors", "test_rules"} && v.fields["files"] == Arr(Strings(files))
    && v.fields["behaviors"] == Arr([Str("emit local notification")])
    && v.fields["test_rules"] == Arr([Str("smoke"), Str("syntax")])
  }

  lemma TwoSorted(a: string, b: string)
    requires Lt(a, b)
    ensures Sort([b, a]) == [a, b]
  {
    if LE(b, a) { LeAntisymmetric(a, b); LtIrreflexive(a); }
    assert SortBy(LE, [a]) == [a];
  }

  lemma SmokeBeforeSyntax()
    ensures Lt("smoke", "syntax")
  {
    LtIsLexicographic("smoke", "syntax");
    assert SmallerAt("smoke", "syntax", 1);
  }

  lemma RulesStay()
    ensures Canonicalize(Canonicalize(Arr([Str("syntax"), Str("smoke")]))) == Arr([Str("smoke"), Str("syntax")])
  {
    SmokeBeforeSyntax();
    TwoSorted("smoke", "syntax");
    assert [Str("syntax"), Str("smoke")] == Strings(["syntax", "smoke"]);
    assert [Str("smoke"), Str("syntax")] == Strings(["smoke", "syntax"]);
    SortIsCanonical(["syntax", "smoke"], ["syntax", "smoke"]);
  }

  lemma BehaviorStays()
    ensures Canonicalize(Arr([Str("emit local notification")])) == Arr([Str("emit local notification")])
  {
    var one := ["emit local notification"];
    assert Increasing(one) && [Str("emit local notification")] == Strings(one);
    IncreasingStays(one);
  }

  /** Three fields of an object, settled one by one. */
  lemma ThreeFieldsSettled(a: string, b: string, c: string, x: Json, y: Json, z: Json)
    requires a != b && b != c && a != c && PROTOTYPE !in {a, b, c} && Survives(x) && Survives(y) && Survives(z)
    ensures var settled := Canonicalize(Canonicalize(Obj(map[a := x, b := y, c := z])));
            && settled.Obj? && settled.fields.Keys == {a, b, c}
            && settled.fields[a] == Canonicalize(Canonicalize(x)) && settled.fields[b] == Canonicalize(Canonicalize(y))
            && settled.fields[c] == Canonicalize(Canonicalize(z))
  {
    var fields := map[a := x, b := y, c := z];
    FieldOfSettled(fields, a);
    FieldOfSettled(fields, b);
    FieldOfSettled(fields, c);
    var once := Canonicalize(Obj(fields));
    assert once.fields.Keys <= fields.Keys && Canonicalize(once).fields.Keys <= once.fields.Keys;
  }

  lemma ContractSettled(files: seq<string>)
    requires Increasing(files)
    ensures IsContract(Canonicalize(Canonicalize(Contracts(files))), files)
  {
    IncreasingStays(files);
    BehaviorStays();
    RulesStay();
    ThreeFieldsSettled(
      "files", "behaviors", "test_rules", Arr(Strings(files)), Arr([Str("emit local notification")]), Arr([Str("syntax"), Str("smoke")]));
  }

  /** The files that a compiled spec contracts for. */
  lemma OutcomeFiles(m: Meaning, origin: string, settings: Settings) returns (files: seq<string>)
    requires SpecOf(m, origin, settings).Some?
    ensures Increasing(files) && forall f :: f in files <==> Contracted(m, ExpectedTask(m, settings.lower), f)
    ensures var spec := SpecOf(m, origin, settings).value;
            spec.Obj? && "contracts" in spec.fields && IsContract(spec.fields["contracts"], files)
  {
    var derived := Derive(m, origin, settings.lower, settings.meaningDigest(m));
    files := derived.files;
    FilesAreContracted(m, origin, settings.lower, settings.meaningDigest(m));
    AlwaysParts(derived);
    LongKeys();
    OutcomeHolds(m, origin, settings, "contracts");
    ContractSettled(files);
  }

  /** The flags are there, and set, exactly when some recommended action mentions what they are about. */
  lemma OutcomeFeedback(m: Meaning, origin: string, settings: Settings)
    requires SpecOf(m, origin, settings).Some?
    ensures var spec := SpecOf(m, origin, settings).value;
            && spec.Obj?
            && ("behavior_feedback" in spec.fields <==> Mentioned(m.recommendedActions, "reduce", settings.lower))
            && ("behavior_feedback" in spec.fields ==> spec.fields["behavior_feedback"] == Bool(true))
  {
    var derived := Derive(m, origin, settings.lower, settings.meaningDigest(m));
    FlagsAreMentioned(m, origin, settings.lower, settings.meaningDigest(m));
    FlagsLaidOut(derived, settings.collation);
    FlagKeys();
    FlagSurvives(ToJson(derived, settings.collation).fields, settings.digest, "behavior_feedback");
  }

  lemma OutcomeSuggestion(m: Meaning, origin: string, settings: Settings)
    requires SpecOf(m, origin, settings).Some?
    ensures var spec := SpecOf(m, origin, settings).value;
            && spec.Obj?
            && ("adaptive_suggestion" in spec.fields <==> Mentioned(m.recommendedActions, "increase", settings.lower))
            && ("adaptive_suggestion" in spec.fields ==> spec.fields["adaptive_suggestion"] == Bool(true))
  {
    var derived := Derive(m, origin, settings.lower, settings.meaningDigest(m));
    FlagsAreMentioned(m, origin, settings.lower, settings.meaningDigest(m));
    FlagsLaidOut(derived, settings.collation);
    FlagKeys();
    FlagSurvives(ToJson(derived, settings.collation).fields, settings.digest, "adaptive_suggestion");
  }

  lemma FlagsAreMentioned(m: Meaning, origin: string, lower: Lower, hash: string)
    ensures var spec := Derive(m, origin, lower, hash);
            && (spec.behaviorFeedback <==> Mentioned(m.recommendedActions, "reduce", lower))
            && (spec.adaptiveSuggestion <==> Mentioned(m.recommendedActions, "increase", lower))
  {
    SpecReflectsMeaning(m, origin, lower, hash);
  }

  lemma FlagSurvives(fields: map<string, Json>, digest: Digest, k: string)
    requires Built(Obj(fields), digest).Success? && k != ORIGIN && k != PROTOTYPE && (k in fields ==> fields[k] == Bool(true))
    ensures var spec := Built(Obj(fields), digest).value;
            spec.Obj? && (k in spec.fields <==> k in fields) && (k in spec.fields ==> spec.fields[k] == Bool(true))
  {
    FieldOfBuilt(fields, digest, k);
  }

  lemma FlagKeys()
    ensures "behavior_feedback" != ORIGIN && "behavior_feedback" != PROTOTYPE && "behavior_feedback" != "data_model"
    ensures "behavior_feedback" != "data_schema"
    ensures "adaptive_suggestion" != ORIGIN && "adaptive_suggestion" != PROTOTYPE && "adaptive_suggestion" != "data_model"
    ensures "adaptive_suggestion" != "data_schema"
  {
  }

  lemma FlagsLaidOut(spec: Spec, collation: Collation)
    ensures var laid := ToJson(spec, collation);
            && laid.Obj?
            && ("behavior_feedback" in laid.fields <==> spec.behaviorFeedback)
            && ("behavior_feedback" in laid.fields ==> laid.fields["behavior_feedback"] == Bool(true))
            && ("adaptive_suggestion" in laid.fields <==> spec.adaptiveSuggestion)
            && ("adaptive_suggestion" in laid.fields ==> laid.fields["adaptive_suggestion"] == Bool(true))
  {
    FlagKeys();
    AlwaysWithoutFlags(spec);
    LookUpLayout(spec, collation, "behavior_feedback");
    LookUpLayout(spec, collation, "adaptive_suggestion");
  }

  /** The origin keeps its fields in canonical form; only the hash is set anew. */
  lemma OriginOfBuilt(fields: map<string, Json>, digest: Digest, k: string)
    requires Built(Obj(fields), digest).Success? && ORIGIN in fields && fields[ORIGIN].Obj?
    requires k != HASH && k != PROTOTYPE && k in fields[ORIGIN].fields && Survives(fields[ORIGIN].fields[k])
    ensures var spec := Built(Obj(fields), digest).value;
            && spec.Obj? && ORIGIN in spec.fields && spec.fields[ORIGIN].Obj? && k in spec.fields[ORIGIN].fields
            && spec.fields[ORIGIN].fields[k] == Canonicalize(Canonicalize(fields[ORIGIN].fields[k]))
  {
    FieldOfSettled(fields, ORIGIN);
    FieldOfSettled(fields[ORIGIN].fields, k);
  }

  lemma OriginLaidOut(spec: Spec, collation: Collation)
    ensures var laid := ToJson(spec, collation);
            && laid.Obj? && ORIGIN in laid.fields && laid.fields[ORIGIN].Obj?
            && "functional_intent" in laid.fields[ORIGIN].fields && "risk_level" in laid.fields[ORIGIN].fields
            && laid.fields[ORIGIN].fields["functional_intent"] == TextOrNull(spec.functionalIntent)
            && laid.fields[ORIGIN].fields["risk_level"] == TextOrNull(spec.riskLevel)
  {
  }

  /** A text that is not empty, or null. */
  ghost predicate IsTextOrNull(v: Json, text: Option<string>) {
    match text
    case Some(t) => v == (if t == "" then Null else Str(t))
    case None => v == Null
  }

  /** The origin of a compiled spec names the functional intent and the risk level of the document. */
  lemma OutcomeOriginIntent(m: Meaning, origin: string, settings: Settings)
    requires SpecOf(m, origin, settings).Some?
    ensures var spec := SpecOf(m, origin, settings).value;
            && spec.Obj? && ORIGIN in spec.fields && spec.fields[ORIGIN].Obj? && "functional_intent" in spec.fields[ORIGIN].fields
            && IsTextOrNull(spec.fields[ORIGIN].fields["functional_intent"], m.functionalIntent)
  {
    var derived := Derive(m, origin, settings.lower, settings.meaningDigest(m));
    OriginLaidOut(derived, settings.collation);
    DerivedTexts(m, origin, settings.lower, settings.meaningDigest(m));
    OriginKeys();
    OriginOfBuilt(ToJson(derived, settings.collation).fields, settings.digest, "functional_intent");
  }

  lemma OutcomeOriginRisk(m: Meaning, origin: string, settings: Settings)
    requires SpecOf(m, origin, settings).Some?
    ensures var spec := SpecOf(m, origin, settings).value;
            && spec.Obj? && ORIGIN in spec.fields && spec.fields[ORIGIN].Obj? && "risk_level" in spec.fields[ORIGIN].fields
            && IsTextOrNull(spec.fields[ORIGIN].fields["risk_level"], m.riskLevel)
  {
    var derived := Derive(m, origin, settings.lower, settings.meaningDigest(m));
    OriginLaidOut(derived, settings.collation);
    DerivedTexts(m, origin, settings.lower, settings.meaningDigest(m));
    OriginKeys();
    OriginOfBuilt(ToJson(derived, settings.collation).fields, settings.digest, "risk_level");
  }

  lemma OriginKeys()
    ensures "functional_intent" != HASH && "functional_intent" != PROTOTYPE && "risk_level" != HASH && "risk_level" != PROTOTYPE
  {
  }

  lemma DerivedTexts(m: Meaning, origin: string, lower: Lower, hash: string)
    ensures var spec := Derive(m, origin, lower, hash);
            && spec.functionalIntent == m.functionalIntent && spec.riskLevel == m.riskLevel
            && spec.uiPreferences == m.uiPreference && spec.dataModel == m.dataModel
  {
  }

  /** An object that holds these texts. */
  ghost predicate HoldsTexts(v: Json, texts: map<string, string>) {
    v.Obj? && v.fields.Keys == texts.Keys - {PROTOTYPE} && forall k :: k in v.fields ==> v.fields[k] == Str(texts[k])
  }

  lemma TextsSettled(texts: map<string, string>)
    ensures HoldsTexts(Canonicalize(Canonicalize(Obj(TextValues(texts)))), texts)
  {
    var fields := TextValues(texts);
    var settled := Canonicalize(Canonicalize(Obj(fields)));
    assert Canonicalize(Obj(fields)).fields.Keys <= fields.Keys && PROTOTYPE !in Canonicalize(Obj(fields)).fields;
    forall k | k in texts && k != PROTOTYPE ensures k in settled.fields && settled.fields[k] == Str(texts[k]) {
      FieldOfSettled(fields, k);
    }
  }

  lemma OutcomePreferences(m: Meaning, origin: string, settings: Settings)
    requires SpecOf(m, origin, settings).Some?
    ensures var spec := SpecOf(m, origin, settings).value;
            && spec.Obj? && ("ui_preferences" in spec.fields <==> |m.uiPreference| > 0)
            && ("ui_preferences" in spec.fields ==> HoldsTexts(spec.fields["ui_preferences"], m.uiPreference))
  {
    var derived := Derive(m, origin, settings.lower, settings.meaningDigest(m));
    DerivedTexts(m, origin, settings.lower, settings.meaningDigest(m));
    PreferencesLaidOut(derived, settings.collation);
    FieldOfBuilt(ToJson(derived, settings.collation).fields, settings.digest, "ui_preferences");
    TextsSettled(m.uiPreference);
  }

  lemma PreferencesLaidOut(spec: Spec, collation: Collation)
    ensures "ui_preferences" != ORIGIN && "ui_preferences" != PROTOTYPE
    ensures var laid := ToJson(spec, collation);
            && laid.Obj? && ("ui_preferences" in laid.fields <==> |spec.uiPreferences| > 0)
            && ("ui_preferences" in laid.fields ==> laid.fields["ui_preferences"] == Obj(TextValues(spec.uiPreferences)))
  {
    AlwaysWithoutFlags(spec);
    LookUpLayout(spec, collation, "ui_preferences");
  }

  /** The types of the data fields, by name. */
  ghost predicate HoldsTypes(v: Json, fields: seq<Field>) {
    && v.Obj? && v.fields.Keys == (set f | f in fields && f.name != PROTOTYPE :: f.name)
    && forall f :: f in fields && f.name != PROTOTYPE ==> v.fields[f.name] == Str(f.typeName)
  }

  lemma DataModelLaidOut(spec: Spec, collation: Collation)
    requires spec.dataModel != []
    ensures "data_model" != ORIGIN && "data_model" != PROTOTYPE
    ensures var laid, sorted := ToJson(spec, collation), SortFields(spec.dataModel, collation);
            && laid.Obj? && "data_model" in laid.fields
            && laid.fields["data_model"] == Obj(TextValues(FieldTypes(sorted)))
  {
    SortedFieldsRemain(spec.dataModel, collation);
  }

  lemma NoDataModelLaidOut(spec: Spec, collation: Collation)
    requires spec.dataModel == []
    ensures var laid := ToJson(spec, collation); laid.Obj? && "data_model" !in laid.fields && "data_schema" !in laid.fields
  {
    LookUpWithoutData(spec);
    assert SortFields(spec.dataModel, collation) == [];
  }

  lemma LookUpWithoutData(spec: Spec)
    ensures "data_model" !in Fixed(spec) && "data_schema" !in Fixed(spec)
  {
  }

  lemma NamesAreListed(fields: seq<Field>)
    ensures Elements(Map(NAME, fields)) == (set f | f in fields :: f.name)
  {
    forall f | f in fields ensures f.name in Map(NAME, fields) {
      var i :| 0 <= i < |fields| && fields[i] == f;
      assert Map(NAME, fields)[i] == f.name;
    }
    forall name | name in Map(NAME, fields) ensures exists f :: f in fields && f.name == name {
      var i :| 0 <= i < |fields| && Map(NAME, fields)[i] == name;
      assert fields[i] in fields;
    }
  }

  lemma FieldTypeIsType(fields: seq<Field>, f: Field)
    requires DistinctNames(fields) && f in fields && f.name in FieldTypes(fields)
    ensures FieldTypes(fields)[f.name] == f.typeName
  {
    var entries := Map(FIELD_ENTRY, fields);
    assert forall i :: 0 <= i < |fields| ==> entries[i].key == NAME(fields[i]);
    EntryMapLooksUp(entries);
    var i :| 0 <= i < |fields| && fields[i] == f;
    assert entries[i] == Entry(f.name, f.typeName);
  }

  lemma FieldTypesAreTypes(fields: seq<Field>)
    requires DistinctNames(fields)
    ensures FieldTypes(fields).Keys == (set f | f in fields && f.name != PROTOTYPE :: f.name)
    ensures forall f :: f in fields && f.name != PROTOTYPE ==> FieldTypes(fields)[f.name] == f.typeName
  {
    FieldTypesAreNamed(fields);
    NamesAreListed(fields);
    forall f | f in fields && f.name != PROTOTYPE ensures f.name in FieldTypes(fields) && FieldTypes(fields)[f.name] == f.typeName {
      assert f.name in (set g | g in fields :: g.name);
      FieldTypeIsType(fields, f);
    }
  }

  /** The properties of a schema: for each data field an object with its type. */
  ghost predicate HoldsProperties(v: Json, fields: seq<Field>) {
    && v.Obj? && v.fields.Keys == (set f | f in fields && f.name != PROTOTYPE :: f.name)
    && forall f :: f in fields && f.name != PROTOTYPE ==> v.fields[f.name] == Obj(map["type" := Str(f.typeName)])
  }

  lemma TypeStays(typeName: string)
    ensures Canonicalize(Canonicalize(Obj(map["type" := Str(typeName)]))) == Obj(map["type" := Str(typeName)])
  {
    OnlyFieldSettled("type", Str(typeName));
  }

  lemma PropertySettled(types: map<string, string>, k: string)
    requires k in types && k != PROTOTYPE
    ensures var settled := Canonicalize(Canonicalize(Obj(TypeValues(types))));
            settled.Obj? && k in settled.fields && settled.fields[k] == Obj(map["type" := Str(types[k])])
  {
    FieldOfSettled(TypeValues(types), k);
    TypeStays(types[k]);
  }

  lemma SettledKeysShrink(fields: map<string, Json>)
    ensures var settled := Canonicalize(Canonicalize(Obj(fields))); settled.Obj? && settled.fields.Keys <= fields.Keys
  {
    assert Canonicalize(Obj(fields)).fields.Keys <= fields.Keys;
  }

  lemma PropertiesSettled(types: map<string, string>, settled: Json)
    requires PROTOTYPE !in types && settled == Canonicalize(Canonicalize(Obj(TypeValues(types))))
    ensures settled.Obj? && settled.fields.Keys == types.Keys
    ensures forall k :: k in types ==> settled.fields[k] == Obj(map["type" := Str(types[k])])
  {
    SettledKeysShrink(TypeValues(types));
    forall k | k in types ensures k in settled.fields && settled.fields[k] == Obj(map["type" := Str(types[k])]) {
      PropertySettled(types, k);
    }
  }

  lemma SchemaSettled(types: map<string, string>, names: seq<string>)
    ensures var settled := Canonicalize(Canonicalize(DataSchema(types, names)));
            && settled.Obj? && settled.fields.Keys == {"type", "properties", "required"} && settled.fields["type"] == Str("object")
            && settled.fields["properties"] == Canonicalize(Canonicalize(Obj(TypeValues(types))))
  {
    ThreeFieldsSettled("type", "properties", "required", Str("object"), Obj(TypeValues(types)), Arr(Strings(names)));
    assert DataSchema(types, names) == Obj(map["type" := Str("object"), "properties" := Obj(TypeValues(types)), "required" := Arr(Strings(names))]);
  }

  /** The data model of a compiled spec, and the types in its schema. */
  lemma OutcomeDataModel(m: Meaning, origin: string, settings: Settings)
    requires SpecOf(m, origin, settings).Some? && m.dataModel != [] && DistinctNames(m.dataModel)
    ensures var spec := SpecOf(m, origin, settings).value;
            spec.Obj? && "data_model" in spec.fields && HoldsTypes(spec.fields["data_model"], m.dataModel)
  {
    var derived := Derive(m, origin, settings.lower, settings.meaningDigest(m));
    var sorted := SortFields(m.dataModel, settings.collation);
    DerivedTexts(m, origin, settings.lower, settings.meaningDigest(m));
    DataModelLaidOut(derived, settings.collation);
    FieldOfBuilt(ToJson(derived, settings.collation).fields, settings.digest, "data_model");
    FieldTypesAlike(m.dataModel, sorted);
    FieldTypesAreTypes(m.dataModel);
    TextsSettled(FieldTypes(sorted));
  }

  lemma OutcomeSchemaTypes(m: Meaning, origin: string, settings: Settings)
    requires SpecOf(m, origin, settings).Some? && m.dataModel != [] && DistinctNames(m.dataModel)
    ensures var spec := SpecOf(m, origin, settings).value;
            && spec.Obj? && "data_schema" in spec.fields && spec.fields["data_schema"].Obj?
            && spec.fields["data_schema"].fields.Keys == {"type", "properties", "required"}
            && spec.fields["data_schema"].fields["type"] == Str("object")
            && HoldsProperties(spec.fields["data_schema"].fields["properties"], m.dataModel)
  {
    var sorted := SortFields(m.dataModel, settings.collation);
    CompiledSchema(m, origin, settings);
    SchemaKey();
    FieldOfBuilt(Compiled(m, origin, settings).fields, settings.digest, "data_schema");
    FieldTypesAlike(m.dataModel, sorted);
    FieldTypesAreTypes(m.dataModel);
    SchemaSettled(FieldTypes(sorted), Map(NAME, sorted));
    PropertiesSettled(FieldTypes(sorted), Canonicalize(Canonicalize(Obj(TypeValues(FieldTypes(sorted))))));
  }

  lemma SchemaKey()
    ensures "data_schema" != ORIGIN && "data_schema" != PROTOTYPE
  {
  }

  lemma OutcomeWithoutData(m: Meaning, origin: string, settings: Settings)
    requires SpecOf(m, origin, settings).Some? && m.dataModel == []
    ensures var spec := SpecOf(m, origin, settings).value;
            spec.Obj? && "data_model" !in spec.fields && "data_schema" !in spec.fields
  {
    var derived := Derive(m, origin, settings.lower, settings.meaningDigest(m));
    DerivedTexts(m, origin, settings.lower, settings.meaningDigest(m));
    NoDataModelLaidOut(derived, settings.collation);
    SchemaKey();
    DataKey();
    FieldOfBuilt(ToJson(derived, settings.collation).fields, settings.digest, "data_model");
    FieldOfBuilt(ToJson(derived, settings.collation).fields, settings.digest, "data_schema");
  }

  lemma DataKey()
    ensures "data_model" != ORIGIN && "data_model" != PROTOTYPE
  {
  }

  /** A document has an outcome when it holds nothing forbidden, is accepted, and its spec is small enough: that spec. */
  lemma OutcomeIsSpec(lines: seq<Line>, origin: string, settings: Settings)
    ensures Outcome(lines, origin, settings).Some? ==>
              && (forall line :: line in lines ==> !line.forbidden) && Accepted(lines, settings.lower)
              && Outcome(lines, origin, settings) == SpecOf(MeaningIn(lines, settings.lower), origin, settings)
    ensures (forall line :: line in lines ==> !line.forbidden) && Accepted(lines, settings.lower) ==>
              Outcome(lines, origin, settings) == SpecOf(MeaningIn(lines, settings.lower), origin, settings)
  {
  }

  /** The task of a compiled document. */
  lemma DocumentNamesTask(lines: seq<Line>, origin: string, settings: Settings)
    requires Outcome(lines, origin, settings).Some?
    ensures var spec, m := Outcome(lines, origin, settings).value, MeaningIn(lines, settings.lower);
            spec.Obj? && "ai_task" in spec.fields && spec.fields["ai_task"] == Str(ExpectedTask(m, settings.lower))
  {
    OutcomeIsSpec(lines, origin, settings);
    OutcomeTask(MeaningIn(lines, settings.lower), origin, settings);
  }
}
