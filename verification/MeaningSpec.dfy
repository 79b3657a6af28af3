/** From a validated meaning to the canonical runtime spec. */
module MeaningSpec {
  import opened CanonicalJson
  import opened CanonicalSpec
  import opened Lists
  import opened MeaningDocument
  import opened MeaningText
  import opened Ordering
  import opened Schema

  datatype Profile = Profile(uiType: string, featureIntents: seq<string>)

  function TaskProfile(task: string): Profile {
    if task == "focus_stability_dashboard" then Profile("desktop_gui", ["focus_monitor"])
    else if task == "behavior_anomaly_monitor" then Profile("alert_panel", ["monitor", "alert"])
    else if task == "recovery_pattern_analysis" then Profile("dashboard", ["analysis", "behavior_feedback"])
    else if task == "habit_tracker" then Profile("dashboard", ["habit", "streak_tracking"])
    else if task == "sleep_monitor" then Profile("dashboard", ["sleep_monitoring", "analysis"])
    else if task == "productivity_timer" then Profile("timer_ui", ["focus_timer", "session_tracking"])
    else if task == "api_service_mode" then Profile("api", ["service", "endpoint"])
    else if task == "offline_local_app" then Profile("desktop_gui", ["local_storage", "offline_first"])
    else if task == "realtime_stream_processor" then Profile("stream_dashboard", ["stream", "event_processing"])
    else if task == "physiological_monitor_app" then Profile("dashboard", ["physiological_monitor", "alert"])
    else Profile("dashboard", [])
  }

  /** The second table of interface types, consulted when the data model overrides the task. */
  function TaskUiDefault(task: string): Option<string> {
    if task == "focus_stability_dashboard" then Some("desktop_gui")
    else if task == "behavior_anomaly_monitor" then Some("alert_panel")
    else if task == "recovery_pattern_analysis" then Some("dashboard")
    else if task == "habit_tracker" then Some("dashboard")
    else if task == "sleep_monitor" then Some("dashboard")
    else if task == "productivity_timer" then Some("timer_ui")
    else if task == "api_service_mode" then Some("api")
    else if task == "offline_local_app" then Some("desktop_gui")
    else if task == "realtime_stream_processor" then Some("stream_dashboard")
    else if task == "physiological_monitor_app" then Some("dashboard")
    else if task == "meaning_analysis" then Some("dashboard")
    else None
  }

  datatype Rule = Rule(token: string, aiTask: string)

  const FUNCTIONAL_INTENT_RULES := [
    Rule("focus_monitoring", "focus_stability_dashboard"),
    Rule("anomaly_detection", "behavior_anomaly_monitor"),
    Rule("recovery_analysis", "recovery_pattern_analysis"),
    Rule("habit_tracker", "habit_tracker"),
    Rule("sleep_monitor", "sleep_monitor"),
    Rule("productivity_timer", "productivity_timer"),
    Rule("api_service_mode", "api_service_mode"),
    Rule("offline_local_app", "offline_local_app"),
    Rule("realtime_stream_processor", "realtime_stream_processor"),
    Rule("physiological_monitor_app", "physiological_monitor_app")
  ]

  /** The task of the first rule whose token occurs. */
  function ResolveAiTask(intent: string, rules: seq<Rule>): string {
    if rules == [] then "meaning_analysis"
    else if Includes(intent, rules[0].token) then rules[0].aiTask
    else ResolveAiTask(intent, rules[1..])
  }

  /** The task is that of the first rule that matches, and the default one exactly when the search comes to an end. */
  lemma {:induction false} ResolveAiTaskIsFirstMatch(intent: string, rules: seq<Rule>, i: nat)
    requires i <= |rules| && forall j :: 0 <= j < i ==> !Includes(intent, rules[j].token)
    requires i < |rules| ==> Includes(intent, rules[i].token)
    ensures ResolveAiTask(intent, rules) == if i < |rules| then rules[i].aiTask else "meaning_analysis"
  {
    if i > 0 {
      assert forall j :: 0 <= j < i - 1 ==> rules[1..][j] == rules[j + 1];
      ResolveAiTaskIsFirstMatch(intent, rules[1..], i - 1);
    }
  }

  predicate IncludesToken(values: seq<string>, token: string, lower: Lower) {
    exists v :: v in values && Includes(lower(v), lower(token))
  }

  function Blueprint(task: string): seq<string> {
    if task == "focus_stability_dashboard" then
      ["core/dashboard.js", "core/heatmap.js", "core/public/dashboard.html", "core/public/app.js", "README.md"]
    else if task == "behavior_anomaly_monitor" then
      ["core/monitor.js", "core/alert_engine.js", "core/public/alert_panel.html", "core/public/app.js", "README.md"]
    else if task == "recovery_pattern_analysis" then
      ["core/analysis.js", "core/recovery_model.js", "core/public/recovery_dashboard.html", "core/public/app.js", "README.md"]
    else if task == "habit_tracker" then
      ["core/habit.js", "core/streak_engine.js", "core/public/habit_dashboard.html", "core/public/app.js", "README.md"]
    else if task == "sleep_monitor" then
      ["core/sleep_analysis.js", "core/sleep_model.js", "core/public/sleep_dashboard.html", "core/public/app.js", "README.md"]
    else if task == "productivity_timer" then
      ["core/timer.js", "core/session_engine.js", "core/public/timer.html", "core/public/app.js", "README.md"]
    else if task == "api_service_mode" then ["core/api.js", "core/router.js", "core/server.js", "README.md"]
    else if task == "offline_local_app" then ["core/local_store.js", "core/app.js", "core/public/index.html", "README.md"]
    else if task == "realtime_stream_processor" then
      ["core/stream.js", "core/event_handler.js", "core/public/stream_dashboard.html", "README.md"]
    else if task == "physiological_monitor_app" then
      ["core/physio_monitor.js", "core/alert_engine.js", "core/public/physio_dashboard.html", "README.md"]
    else ["core/app.js", "core/public/index.html", "README.md"]
  }

  /** The spec while it is built; `ToJson` gives its layout. */
  datatype Spec = Spec(
    aiTask: string,
    uiType: string,
    featureIntents: seq<string>,
    functionalIntent: Option<string>,
    riskLevel: Option<string>,
    hash: string,
    behaviorFeedback: bool,
    adaptiveSuggestion: bool,
    origin: string,
    files: seq<string>,
    dataModel: seq<Field>,
    uiPreferences: map<string, string>)

  /** `if (condition) list.push(item)`. */
  function PushIf(list: seq<string>, condition: bool, item: string): seq<string> {
    if condition then list + [item] else list
  }

  function FeatureIntents(profile: seq<string>, observations: seq<string>, lower: Lower): seq<string> {
    var heart := PushIf(profile, IncludesToken(observations, "heart", lower), "physiological_monitor");
    var screen := PushIf(heart, IncludesToken(observations, "screen", lower), "screen_monitor");
    SortedUnique(PushIf(screen, IncludesToken(observations, "interrupt", lower), "interruption_tracking"))
  }

  function MapMeaning(m: Meaning, lower: Lower, hash: string): Spec {
    var intent := if m.functionalIntent.Some? then m.functionalIntent.value else "";
    var aiTask := ResolveAiTask(lower(intent), FUNCTIONAL_INTENT_RULES);
    var profile := TaskProfile(aiTask);
    Spec(
      aiTask, profile.uiType, FeatureIntents(profile.featureIntents, m.observations, lower),
      m.functionalIntent, m.riskLevel, hash,
      IncludesToken(m.recommendedActions, "reduce", lower), IncludesToken(m.recommendedActions, "increase", lower),
      "", [], [], map[])
  }

  predicate HasName(fields: seq<Field>, name: string, lower: Lower) {
    exists f :: f in fields && lower(f.name) == name
  }

  predicate HasNameWith(fields: seq<Field>, token: string, lower: Lower) {
    exists f :: f in fields && Includes(lower(f.name), token)
  }

  /** The data model overrides the task, in strict priority. */
  function OverrideTask(fields: seq<Field>, lower: Lower): Option<string> {
    if HasName(fields, "heart_rate", lower) then Some("physiological_monitor_app")
    else if HasName(fields, "sleep_duration", lower) then Some("sleep_monitor")
    else if HasNameWith(fields, "habit", lower) || HasNameWith(fields, "streak", lower) then Some("habit_tracker")
    else if HasName(fields, "event_stream", lower) then Some("realtime_stream_processor")
    else None
  }

  function Rerouted(spec: Spec, task: string): Spec {
    var ui := TaskUiDefault(task);
    spec.(aiTask := task, uiType := if ui.Some? then ui.value else if spec.uiType != "" then spec.uiType else "dashboard")
  }

  predicate IsPublicPage(file: string) {
    var prefix, suffix := "core/public/", ".html";
    && |file| >= |prefix| + |suffix|
    && file[..|prefix|] == prefix
    && file[|file| - |suffix|..] == suffix
  }

  const NOT_PUBLIC_PAGE: string -> Option<string> := (file: string) => if IsPublicPage(file) then None else Some(file)

  function Preferred(prefs: map<string, string>, key: string): string {
    if key in prefs then prefs[key] else ""
  }

  const THEME_FILE := "core/public/theme-dark.css"
  const PANEL_FILE := "core/public/panel_layout.js"
  const MINIMAL_PAGE := "core/public/minimal.html"

  function Decorated(files: seq<string>, dark: bool, panel: bool): seq<string> {
    PushIf(PushIf(files, dark, THEME_FILE), panel, PANEL_FILE)
  }

  function Minimized(files: seq<string>, minimal: bool): seq<string> {
    SortedUnique(if minimal then FilterMap(NOT_PUBLIC_PAGE, files) + [MINIMAL_PAGE] else files)
  }

  /** Optional files for the theme and the layout; the minimal layout replaces every public page. */
  function Varied(files: seq<string>, dark: bool, panel: bool, minimal: bool): seq<string> {
    Minimized(Decorated(files, dark, panel), minimal)
  }

  function VaryFiles(files: seq<string>, prefs: map<string, string>): seq<string> {
    Varied(
      files, Preferred(prefs, "theme") == "dark", Preferred(prefs, "layout") == "panel", Preferred(prefs, "layout") == "minimal")
  }

  /** The mapped meaning, rerouted when the data model demands another task. */
  function Routed(m: Meaning, lower: Lower, hash: string): Spec {
    var mapped := MapMeaning(m, lower, hash);
    var task := OverrideTask(m.dataModel, lower);
    if task.Some? then Rerouted(mapped, task.value) else mapped
  }

  /** The blueprint of the routed task, the data model and the preferences. */
  function Finished(routed: Spec, m: Meaning, origin: string): Spec {
    var files := SortedUnique(Blueprint(routed.aiTask));
    routed.(
      origin := origin, dataModel := m.dataModel, uiPreferences := m.uiPreference,
      files := if |m.uiPreference| > 0 then VaryFiles(files, m.uiPreference) else files)
  }

  function Derive(m: Meaning, origin: string, lower: Lower, hash: string): Spec {
    Finished(Routed(m, lower, hash), m, origin)
  }

  lemma TablesAgree(task: string)
    ensures TaskUiDefault(task).Some? ==> TaskUiDefault(task).value == TaskProfile(task).uiType
  {
  }

  lemma OverrideIsKnown(fields: seq<Field>, lower: Lower)
    ensures var task := OverrideTask(fields, lower); task.Some? ==> TaskUiDefault(task.value).Some?
  {
  }

  lemma RoutedUiType(m: Meaning, lower: Lower, hash: string)
    ensures var spec := Routed(m, lower, hash); spec.uiType == TaskProfile(spec.aiTask).uiType
  {
    OverrideIsKnown(m.dataModel, lower);
    var task := OverrideTask(m.dataModel, lower);
    if task.Some? {
      TablesAgree(task.value);
      var mapped := MapMeaning(m, lower, hash);
      ReroutedUiType(mapped, task.value);
    }
  }

  lemma ReroutedUiType(spec: Spec, task: string)
    requires TaskUiDefault(task).Some?
    ensures Rerouted(spec, task).uiType == TaskUiDefault(task).value && Rerouted(spec, task).aiTask == task
  {
  }

  /** However the task was chosen, the interface type is the one its profile names: the two tables agree. */
  lemma UiTypeFollowsTask(m: Meaning, origin: string, lower: Lower, hash: string)
    ensures var spec := Derive(m, origin, lower, hash); spec.uiType == TaskProfile(spec.aiTask).uiType
  {
    RoutedUiType(m, lower, hash);
    FinishedKeepsTask(Routed(m, lower, hash), m, origin);
  }

  lemma FinishedKeepsTask(routed: Spec, m: Meaning, origin: string)
    ensures var spec := Finished(routed, m, origin); spec.uiType == routed.uiType && spec.aiTask == routed.aiTask
  {
  }

  const FIELD_ENTRY: Field -> Entry := (f: Field) => Entry(f.name, f.typeName)

  /** Assigning the fields one by one to an empty object: a field named like the prototype property is lost. */
  function FieldTypes(fields: seq<Field>): map<string, string> {
    EntryMap(Map(FIELD_ENTRY, fields)) - {PROTOTYPE}
  }

  function ReadText(m: map<string, string>, k: string): Json {
    if k in m then Str(m[k]) else Undefined
  }

  function ReadType(m: map<string, string>, k: string): Json {
    if k in m then Obj(map["type" := Str(m[k])]) else Undefined
  }

  function TextValues(m: map<string, string>): map<string, Json> {
    map k | k in m :: ReadText(m, k)
  }

  function TypeValues(m: map<string, string>): map<string, Json> {
    map k | k in m :: ReadType(m, k)
  }

  /** `localeCompare`, of which only that it is some comparison is used. */
  type Collation = (string, string) -> bool

  function SortFields(fields: seq<Field>, collation: Collation): (r: seq<Field>)
    ensures multiset(r) == multiset(fields)
  {
    SortBy((f: Field, g: Field) => collation(f.name, g.name), fields)
  }

  function DataSchema(types: map<string, string>, required: seq<string>): Json {
    Obj(map["type" := Str("object"), "properties" := Obj(TypeValues(types))]["required" := Arr(Strings(required))])
  }

  function TextOrNull(text: Option<string>): Json {
    if text.Some? && text.value != "" then Str(text.value) else Null
  }

  function Contracts(files: seq<string>): Json {
    Obj(map[
      "files" := Arr(Strings(files)), "behaviors" := Arr([Str("emit local notification")]),
      "test_rules" := Arr([Str("syntax"), Str("smoke")])])
  }

  function Capabilities(featureIntents: seq<string>): Json {
    Obj(map["feature_intents" := Arr(Strings(featureIntents))])
  }

  /** What every spec holds. */
  function Always(spec: Spec): map<string, Json> {
    map[
      "project_type" := Str("desktop_app"),
      "ai_task" := Str(spec.aiTask),
      "ui_type" := Str(spec.uiType),
      "capabilities" := Capabilities(spec.featureIntents),
      "origin" := Str(spec.origin),
      "contracts" := Contracts(spec.files)]
  }

  function With(fields: map<string, Json>, present: bool, k: string, v: Json): map<string, Json> {
    if present then fields[k := v] else fields
  }

  function Fixed(spec: Spec): map<string, Json> {
    var flagged := With(
      With(Always(spec), spec.behaviorFeedback, "behavior_feedback", Bool(true)),
      spec.adaptiveSuggestion, "adaptive_suggestion", Bool(true));
    With(flagged, |spec.uiPreferences| > 0, "ui_preferences", Obj(TextValues(spec.uiPreferences)))
  }

  function DataFields(fields: map<string, Json>, sorted: seq<Field>): map<string, Json> {
    if sorted == [] then fields
    else fields["data_model" := Obj(TextValues(FieldTypes(sorted)))]
               ["data_schema" := DataSchema(FieldTypes(sorted), Map(NAME, sorted))]
  }

  function Origin(spec: Spec): map<string, Json> {
    map["functional_intent" := TextOrNull(spec.functionalIntent), "risk_level" := TextOrNull(spec.riskLevel)]
  }

  /** The spec object that is handed to canonicalization. */
  function ToJson(spec: Spec, collation: Collation): Json {
    Obj(DataFields(Fixed(spec), SortFields(spec.dataModel, collation))[ORIGIN := Obj(Origin(spec)[HASH := Str(spec.hash)])])
  }

  /** Specs that differ in the incoming hash and in the order of the data fields only. */
  ghost predicate SpecsAlike(s: Spec, t: Spec) {
    && multiset(s.dataModel) == multiset(t.dataModel) && DistinctNames(s.dataModel)
    && s == t.(hash := s.hash, dataModel := s.dataModel)
  }

  lemma TokensAlike(x: seq<string>, y: seq<string>, token: string, lower: Lower)
    requires multiset(x) == multiset(y)
    ensures IncludesToken(x, token, lower) == IncludesToken(y, token, lower)
  {
    MembersOfEqualMultisets(x, y);
  }

  lemma IntentsAlike(profile: seq<string>, x: seq<string>, y: seq<string>, lower: Lower)
    requires multiset(x) == multiset(y)
    ensures FeatureIntents(profile, x, lower) == FeatureIntents(profile, y, lower)
  {
    TokensAlike(x, y, "heart", lower);
    TokensAlike(x, y, "screen", lower);
    TokensAlike(x, y, "interrupt", lower);
  }

  lemma OverridesAlike(x: seq<Field>, y: seq<Field>, lower: Lower)
    requires multiset(x) == multiset(y)
    ensures OverrideTask(x, lower) == OverrideTask(y, lower)
  {
    MembersOfEqualMultisets(x, y);
    forall name ensures HasName(x, name, lower) == HasName(y, name, lower) {}
    forall token ensures HasNameWith(x, token, lower) == HasNameWith(y, token, lower) {}
  }

  lemma MappedAlike(m: Meaning, n: Meaning, lower: Lower, hash: string)
    requires MeaningsAlike(m, n)
    ensures MapMeaning(m, lower, hash) == MapMeaning(n, lower, hash)
  {
    IntentsAlike(TaskProfile(MapMeaning(m, lower, hash).aiTask).featureIntents, m.observations, n.observations, lower);
    TokensAlike(m.recommendedActions, n.recommendedActions, "reduce", lower);
    TokensAlike(m.recommendedActions, n.recommendedActions, "increase", lower);
  }

  lemma RoutedAlike(m: Meaning, n: Meaning, lower: Lower, h: string, k: string)
    requires MeaningsAlike(m, n)
    ensures Routed(m, lower, h) == Routed(n, lower, k).(hash := h)
  {
    MappedAlike(m, n, lower, h);
    OverridesAlike(m.dataModel, n.dataModel, lower);
    HashIsCopied(n, lower, h, k);
    var task := OverrideTask(m.dataModel, lower);
    if task.Some? { RerouteKeepsHash(MapMeaning(n, lower, k), task.value, h); }
  }

  lemma HashIsCopied(m: Meaning, lower: Lower, h: string, k: string)
    ensures MapMeaning(m, lower, h) == MapMeaning(m, lower, k).(hash := h)
  {
  }

  lemma RerouteKeepsHash(spec: Spec, task: string, h: string)
    ensures Rerouted(spec.(hash := h), task) == Rerouted(spec, task).(hash := h)
  {
  }

  lemma FinishedAlike(routed: Spec, m: Meaning, n: Meaning, origin: string, h: string)
    requires MeaningsAlike(m, n) && DistinctNames(m.dataModel)
    ensures SpecsAlike(Finished(routed.(hash := h), m, origin), Finished(routed, n, origin))
  {
  }

  lemma DerivedAlike(m: Meaning, n: Meaning, origin: string, lower: Lower, h: string, k: string)
    requires MeaningsAlike(m, n) && DistinctNames(m.dataModel)
    ensures SpecsAlike(Derive(m, origin, lower, h), Derive(n, origin, lower, k))
  {
    RoutedAlike(m, n, lower, h, k);
    FinishedAlike(Routed(n, lower, k), m, n, origin, h);
  }

  lemma FieldTypesAlike(x: seq<Field>, y: seq<Field>)
    requires multiset(x) == multiset(y) && DistinctNames(x)
    ensures FieldTypes(x) == FieldTypes(y) && multiset(Map(NAME, x)) == multiset(Map(NAME, y)) && (x == [] <==> y == [])
  {
    DistinctByPermutes(NAME, x, y);
    MapPermutes(NAME, x, y);
    MapPermutes(FIELD_ENTRY, x, y);
    MembersOfEqualMultisets(Map(FIELD_ENTRY, x), Map(FIELD_ENTRY, y));
    assert forall i :: 0 <= i < |x| ==> Map(FIELD_ENTRY, x)[i].key == NAME(x[i]);
    assert forall i :: 0 <= i < |y| ==> Map(FIELD_ENTRY, y)[i].key == NAME(y[i]);
    EntryMapsAgree(Map(FIELD_ENTRY, x), Map(FIELD_ENTRY, y));
    assert |multiset(x)| == |x| && |multiset(y)| == |y|;
  }

  lemma DataFieldsAlike(fields: map<string, Json>, x: seq<Field>, y: seq<Field>)
    requires multiset(x) == multiset(y) && DistinctNames(x)
    ensures SameButStringOrder(Obj(DataFields(fields, x)), Obj(DataFields(fields, y)))
  {
    FieldTypesAlike(x, y);
    if x == [] {
      SameIsReflexive(Obj(fields));
    } else {
      var before := fields["data_model" := Obj(TextValues(FieldTypes(x)))];
      DataSchemasAlike(FieldTypes(x), Map(NAME, x), Map(NAME, y));
      SameIsReflexive(Obj(before));
      SameFieldSet(before, before, "data_schema", DataSchema(FieldTypes(x), Map(NAME, x)), DataSchema(FieldTypes(x), Map(NAME, y)));
    }
  }

  lemma DataSchemasAlike(types: map<string, string>, x: seq<string>, y: seq<string>)
    requires multiset(x) == multiset(y)
    ensures SameButStringOrder(DataSchema(types, x), DataSchema(types, y))
  {
    var before := map["type" := Str("object"), "properties" := Obj(TypeValues(types))];
    SameIsReflexive(Obj(before));
    SameFieldSet(before, before, "required", Arr(Strings(x)), Arr(Strings(y)));
  }

  lemma UnstampedForm(fields: map<string, Json>, origin: map<string, Json>, hash: Json)
    ensures var v := Obj(fields[ORIGIN := Obj(origin[HASH := hash])]);
            HasRecordOrigin(v) && Unstamp(v) == Obj(fields[ORIGIN := Obj(origin - {HASH})])
  {
    assert origin[HASH := hash] - {HASH} == origin - {HASH};
  }

  lemma AlikeSpecsBuildAlike(s: Spec, t: Spec, c: Collation, d: Collation, digest: Digest)
    requires SpecsAlike(s, t)
    ensures HasRecordOrigin(ToJson(s, c))
    ensures Built(ToJson(s, c), digest) == Built(ToJson(t, d), digest)
  {
    var x, y := SortFields(s.dataModel, c), SortFields(t.dataModel, d);
    DistinctByPermutes(NAME, s.dataModel, x);
    DataFieldsAlike(Fixed(s), x, y);
    var f, g, origin := DataFields(Fixed(s), x), DataFields(Fixed(s), y), Obj(Origin(s) - {HASH});
    SameIsReflexive(origin);
    SameFieldSet(f, g, ORIGIN, origin, origin);
    UnstampedForm(f, Origin(s), Str(s.hash));
    UnstampedForm(g, Origin(s), Str(t.hash));
    CanonicalizeForgetsStringOrder(Obj(f[ORIGIN := origin]), Obj(g[ORIGIN := origin]));
    BuildsAgreeIffRestAgrees(ToJson(s, c), ToJson(t, d), digest);
  }
}
