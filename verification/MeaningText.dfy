/** Validating an insight document: the section state machine and the parsers of the individual sections. */
module MeaningText {
  import opened Lists
  import opened Ordering
  import opened Schema

  /** A pattern match of the form `- key: value`. */
  datatype Entry = Entry(key: string, value: string)

  /**
   * A line as the parser's patterns see it. A `Text` line is any line that does not start with two hash signs:
   * `nested` when its trimmed text opens a heading of another level, `bullet` when it reads `- item`, `content` what it
   * adds to a free-text section, `field` and `preference` when it has the form of the two key-value sections.
   */
  datatype Shape =
    | EmptyHeading
    | MalformedHeading
    | Heading(title: string)
    | Text(nested: bool, blank: bool, bullet: Option<string>, content: string, field: Option<Entry>, preference: Option<Entry>)

  /** `forbidden` when the lower-cased line includes one of the forbidden tokens, none of which spans lines. */
  datatype Line = Line(forbidden: bool, shape: Shape)

  datatype Section =
    | Observations | RecommendedActions | PatternInterpretation | RiskLevel | FunctionalIntent | DataModel | UiPreference

  function SectionOf(title: string): Option<Section> {
    if title == "Observations" then Some(Observations)
    else if title == "Recommended Actions" then Some(RecommendedActions)
    else if title == "Pattern Interpretation" then Some(PatternInterpretation)
    else if title == "Risk Level" then Some(RiskLevel)
    else if title == "Functional Intent" then Some(FunctionalIntent)
    else if title == "Data Model" then Some(DataModel)
    else if title == "UI Preference" then Some(UiPreference)
    else None
  }

  datatype Error =
    | EmptyHeadingText(line: nat)
    | MalformedHeadingText(line: nat)
    | InvalidHeading(title: string, line: nat)
    | DuplicatedSection(title: string, line: nat)
    | NestedHeading(line: nat)
    | MissingSection(section: Section)
    | NoBullets(section: Section)
    | BadFieldLine | BadFieldType(typeName: string) | DuplicatedField(name: string) | TooManyFields | NoFields
    | BadPreferenceLine | BadPreferenceKey(key: string) | DuplicatedPreference(key: string) | BadPreferenceValue(key: string, value: string)
    | TooManyPreferences
    | ForbiddenContent | ForbiddenType(typeName: string) | SpecRefused(message: string) | SpecTooLarge

  /** The open section and the lines collected for each section seen so far. */
  datatype Scan = Scan(current: Option<Section>, sections: map<Section, seq<Line>>)

  const START := Scan(None, map[])

  function ScanLine(state: Scan, line: Line, number: nat): Result<Scan, Error> {
    match line.shape
    case EmptyHeading => Failure(EmptyHeadingText(number))
    case MalformedHeading => Failure(MalformedHeadingText(number))
    case Heading(title) =>
      var section := SectionOf(title);
      if section.None? then Failure(InvalidHeading(title, number))
      else if section.value in state.sections then Failure(DuplicatedSection(title, number))
      else Success(Scan(section, state.sections[section.value := []]))
    case Text(nested, _, _, _, _, _) =>
      if state.current.None? || state.current.value !in state.sections then Success(state)
      else if nested then Failure(NestedHeading(number))
      else
        var s := state.current.value;
        Success(state.(sections := state.sections[s := state.sections[s] + [line]]))
  }

  function ScanAll(lines: seq<Line>): Result<Scan, Error> {
    if lines == [] then Success(START)
    else
      var before := ScanAll(lines[..|lines| - 1]);
      if before.Failure? then before else ScanLine(before.value, lines[|lines| - 1], |lines|)
  }

  /** The section state machine, line by line. */
  method CollectSections(lines: seq<Line>) returns (r: Result<Scan, Error>)
    ensures r == ScanAll(lines)
  {
    var currentSection: Option<Section> := None;
    var sectionLines: map<Section, seq<Line>> := map[];
    for i := 0 to |lines|
      invariant currentSection.Some? ==> currentSection.value in sectionLines
      invariant ScanAll(lines[..i]) == Success(Scan(currentSection, sectionLines))
    {
      var line, lineNumber := lines[i], i + 1;
      assert lines[..i + 1][..i] == lines[..i];
      FailureIsFinal(lines, i + 1);
      if line.shape.EmptyHeading? { return Failure(EmptyHeadingText(lineNumber)); }
      if line.shape.MalformedHeading? { return Failure(MalformedHeadingText(lineNumber)); }
      if line.shape.Heading? {
        var key := SectionOf(line.shape.title);
        if key.None? { return Failure(InvalidHeading(line.shape.title, lineNumber)); }
        if key.value in sectionLines { return Failure(DuplicatedSection(line.shape.title, lineNumber)); }
        sectionLines := sectionLines[key.value := []];
        currentSection := key;
        continue;
      }
      if currentSection.None? { continue; }
      sectionLines := sectionLines[currentSection.value := sectionLines[currentSection.value] + [line]];
      if line.shape.nested { return Failure(NestedHeading(lineNumber)); }
    }
    assert lines[..|lines|] == lines;
    r := Success(Scan(currentSection, sectionLines));
  }

  lemma {:induction false} FailureIsFinal(lines: seq<Line>, k: nat)
    requires k <= |lines|
    ensures ScanAll(lines[..k]).Failure? ==> ScanAll(lines) == ScanAll(lines[..k])
    decreases |lines| - k
  {
    if k < |lines| {
      assert lines[..k + 1][..k] == lines[..k];
      FailureIsFinal(lines, k + 1);
    } else {
      assert lines[..k] == lines;
    }
  }

  function LinesOf(sections: map<Section, seq<Line>>, s: Section): seq<Line> {
    if s in sections then sections[s] else []
  }

  const BULLET_OF: Line -> Option<string> := (line: Line) => if line.shape.Text? then line.shape.bullet else None

  /** The items of a bullet section; other lines are skipped. */
  function Bullets(lines: seq<Line>): seq<string> {
    FilterMap(BULLET_OF, lines)
  }

  method ExtractBullets(lines: seq<Line>) returns (items: seq<string>)
    ensures items == Bullets(lines)
  {
    items := [];
    for i := 0 to |lines|
      invariant items == Bullets(lines[..i])
    {
      assert lines[..i + 1][..i] == lines[..i];
      var item := BULLET_OF(lines[i]);
      if item.Some? { items := items + [item.value]; }
    }
    assert lines[..|lines|] == lines;
  }

  const CONTENT_OF: Line -> Option<string> :=
    (line: Line) => if line.shape.Text? && !line.shape.blank then Some(line.shape.content) else None

  function Join(parts: seq<string>): string {
    if parts == [] then "" else if |parts| == 1 then parts[0] else parts[0] + "\n" + Join(parts[1..])
  }

  /** The text of a free-text section, if it has any. */
  function SectionText(lines: seq<Line>): Option<string> {
    var parts := FilterMap(CONTENT_OF, lines);
    if parts == [] then None else Some(Join(parts))
  }

  datatype Field = Field(name: string, typeName: string)

  const ALLOWED_DATA_TYPES := {"number", "string", "boolean", "array", "object"}
  const MAX_DATA_MODEL_FIELDS := 20
  const MAX_UI_PREFERENCES := 10

  /** `toLowerCase`, of which only its effect on the allowed type names matters. */
  type Lower = string -> string

  predicate KeepsTypeNames(lower: Lower) {
    forall t :: t in ALLOWED_DATA_TYPES ==> lower(t) == t
  }

  predicate IsBlank(line: Line) {
    line.shape.Text? && line.shape.blank
  }

  function FieldOf(lower: Lower): Line -> Option<Field> {
    (line: Line) =>
      if line.shape.Text? && !line.shape.blank && line.shape.field.Some?
      then Some(Field(line.shape.field.value.key, lower(line.shape.field.value.value)))
      else None
  }

  function Fields(lines: seq<Line>, lower: Lower): seq<Field> {
    FilterMap(FieldOf(lower), lines)
  }

  const NAME: Field -> string := (f: Field) => f.name

  ghost predicate DistinctNames(fields: seq<Field>) {
    DistinctBy(NAME, fields)
  }

  ghost predicate FieldsFine(fields: seq<Field>) {
    DistinctNames(fields) && forall f :: f in fields ==> f.typeName in ALLOWED_DATA_TYPES
  }

  /** What the data-model section must satisfy, in no particular order of its lines. */
  ghost predicate FieldsAccepted(lines: seq<Line>, lower: Lower) {
    && (forall line :: line in lines ==> IsBlank(line) || FieldOf(lower)(line).Some?)
    && FieldsFine(Fields(lines, lower))
    && |Fields(lines, lower)| <= MAX_DATA_MODEL_FIELDS
    && (lines != [] ==> Fields(lines, lower) != [])
  }

  /** Why the next field is refused, if it is. */
  function RefusedField(seen: set<string>, f: Field): Option<Error> {
    if f.typeName !in ALLOWED_DATA_TYPES then Some(BadFieldType(f.typeName))
    else if f.name in seen then Some(DuplicatedField(f.name))
    else None
  }

  lemma RefusedFieldIffNotFine(fields: seq<Field>, seen: set<string>, f: Field)
    requires FieldsFine(fields) && seen == set g | g in fields :: g.name
    ensures RefusedField(seen, f).None? <==> FieldsFine(fields + [f])
  {
    var next := fields + [f];
    if f.name in seen {
      var k :| 0 <= k < |fields| && fields[k].name == f.name;
      assert next[k].name == next[|fields|].name;
    }
    assert f in next;
  }

  lemma PrefixOfFineFields(fields: seq<Field>, all: seq<Field>)
    requires fields <= all && FieldsFine(all)
    ensures FieldsFine(fields)
  {
    forall f | f in fields ensures f in all {}
  }

  method ParseDataModel(lines: seq<Line>, lower: Lower) returns (r: Result<seq<Field>, Error>)
    ensures r.Success? <==> FieldsAccepted(lines, lower)
    ensures r.Success? ==> r.value == Fields(lines, lower)
  {
    var fields: seq<Field> := [];
    var seen: set<string> := {};
    for i := 0 to |lines|
      invariant fields == Fields(lines[..i], lower) && |fields| <= MAX_DATA_MODEL_FIELDS
      invariant seen == set f | f in fields :: f.name
      invariant FieldsFine(fields)
      invariant forall line :: line in lines[..i] ==> IsBlank(line) || FieldOf(lower)(line).Some?
    {
      var line := lines[i];
      assert lines[..i + 1] == lines[..i] + [line] && lines[..i + 1][..i] == lines[..i];
      if IsBlank(line) { continue; }
      var matched := FieldOf(lower)(line);
      if matched.None? { return Failure(BadFieldLine); }
      FieldsGrow(lines, lower, i + 1);
      RefusedFieldIffNotFine(fields, seen, matched.value);
      var refused := RefusedField(seen, matched.value);
      if refused.Some? {
        if FieldsFine(Fields(lines, lower)) { PrefixOfFineFields(Fields(lines[..i + 1], lower), Fields(lines, lower)); }
        return Failure(refused.value);
      }
      seen := seen + {matched.value.name};
      fields := fields + [matched.value];
      if |fields| > MAX_DATA_MODEL_FIELDS { return Failure(TooManyFields); }
    }
    assert lines[..|lines|] == lines;
    if |lines| > 0 && |fields| == 0 { return Failure(NoFields); }
    r := Success(fields);
  }

  lemma FieldsGrow(lines: seq<Line>, lower: Lower, k: nat)
    requires k <= |lines|
    ensures Fields(lines[..k], lower) <= Fields(lines, lower)
  {
    FilterMapConcat(FieldOf(lower), lines[..k], lines[k..]);
    assert lines == lines[..k] + lines[k..];
  }

  function PreferenceValues(key: string): Option<set<string>> {
    if key == "theme" then Some({"light", "dark"})
    else if key == "layout" then Some({"dashboard", "panel", "minimal"})
    else if key == "density" then Some({"compact", "comfortable"})
    else if key == "navigation" then Some({"sidebar", "topbar", "none"})
    else None
  }

  predicate IsPreference(e: Entry) {
    PreferenceValues(e.key).Some? && e.value in PreferenceValues(e.key).value
  }

  function PreferenceOf(lower: Lower): Line -> Option<Entry> {
    (line: Line) =>
      if line.shape.Text? && !line.shape.blank && line.shape.preference.Some?
      then Some(Entry(line.shape.preference.value.key, lower(line.shape.preference.value.value)))
      else None
  }

  function Preferences(lines: seq<Line>, lower: Lower): seq<Entry> {
    FilterMap(PreferenceOf(lower), lines)
  }

  const KEY: Entry -> string := (e: Entry) => e.key

  ghost predicate DistinctKeys(entries: seq<Entry>) {
    DistinctBy(KEY, entries)
  }

  function EntryMap(entries: seq<Entry>): map<string, string> {
    if entries == [] then map[]
    else EntryMap(entries[..|entries| - 1])[entries[|entries| - 1].key := entries[|entries| - 1].value]
  }

  lemma {:induction false} EntryMapLooksUp(entries: seq<Entry>)
    requires DistinctKeys(entries)
    ensures forall k, v :: k in EntryMap(entries) && EntryMap(entries)[k] == v <==> Entry(k, v) in entries
  {
    if entries != [] {
      var last := |entries| - 1;
      EntryMapLooksUp(entries[..last]);
      assert entries == entries[..last] + [entries[last]];
      assert forall e :: e in entries[..last] ==> e.key != entries[last].key;
    }
  }

  ghost predicate EntriesFine(entries: seq<Entry>) {
    DistinctKeys(entries) && forall e :: e in entries ==> IsPreference(e)
  }

  /** What the preference section must satisfy, in no particular order of its lines. */
  ghost predicate PreferencesAccepted(lines: seq<Line>, lower: Lower) {
    && (forall line :: line in lines ==> IsBlank(line) || PreferenceOf(lower)(line).Some?)
    && EntriesFine(Preferences(lines, lower))
    && |Preferences(lines, lower)| <= MAX_UI_PREFERENCES
  }

  /** Why the next preference is refused, if it is. */
  function RefusedPreference(prefs: map<string, string>, e: Entry): Option<Error> {
    if PreferenceValues(e.key).None? then Some(BadPreferenceKey(e.key))
    else if e.key in prefs then Some(DuplicatedPreference(e.key))
    else if e.value !in PreferenceValues(e.key).value then Some(BadPreferenceValue(e.key, e.value))
    else None
  }

  lemma RefusedIffNotFine(entries: seq<Entry>, e: Entry)
    requires EntriesFine(entries)
    ensures RefusedPreference(EntryMap(entries), e).None? <==> EntriesFine(entries + [e])
    ensures EntryMap(entries + [e]) == EntryMap(entries)[e.key := e.value]
  {
    var next := entries + [e];
    EntryMapLooksUp(entries);
    assert next[..|next| - 1] == entries;
    if e.key in EntryMap(entries) {
      var k :| 0 <= k < |entries| && entries[k] == Entry(e.key, EntryMap(entries)[e.key]);
      assert next[k].key == next[|entries|].key;
    } else {
      forall d | d in entries ensures d.key != e.key { assert Entry(d.key, d.value) == d; }
    }
    assert e in next;
  }

  lemma PrefixOfFineIsFine(entries: seq<Entry>, all: seq<Entry>)
    requires entries <= all && EntriesFine(all)
    ensures EntriesFine(entries)
  {
    forall e | e in entries ensures e in all {}
  }

  lemma FineEntriesAreFew(entries: seq<Entry>)
    requires EntriesFine(entries)
    ensures |entries| <= 4
  {
    var keys := set e | e in entries :: e.key;
    var names := seq(|entries|, i requires 0 <= i < |entries| => entries[i].key);
    assert Distinct(names);
    DistinctSize(names);
    var allowed := {"theme", "layout", "density", "navigation"};
    forall k | k in Elements(names) ensures k in allowed {
      var i :| 0 <= i < |names| && names[i] == k;
      assert IsPreference(entries[i]);
    }
    SubsetSize(Elements(names), allowed);
  }

  lemma {:induction false} SubsetSize<T>(s: set<T>, t: set<T>)
    requires s <= t
    ensures |s| <= |t|
  {
    if s != {} {
      var x :| x in s;
      SubsetSize(s - {x}, t - {x});
    }
  }

  method ParseUiPreference(lines: seq<Line>, lower: Lower) returns (r: Result<map<string, string>, Error>)
    ensures r.Success? <==> PreferencesAccepted(lines, lower)
    ensures r.Success? ==> r.value == EntryMap(Preferences(lines, lower))
  {
    var prefs: map<string, string> := map[];
    var count := 0;
    ghost var entries: seq<Entry> := [];
    for i := 0 to |lines|
      invariant entries == Preferences(lines[..i], lower) && count == |entries| <= MAX_UI_PREFERENCES
      invariant prefs == EntryMap(entries) && EntriesFine(entries)
      invariant forall line :: line in lines[..i] ==> IsBlank(line) || PreferenceOf(lower)(line).Some?
    {
      var line := lines[i];
      assert lines[..i + 1] == lines[..i] + [line] && lines[..i + 1][..i] == lines[..i];
      if IsBlank(line) { continue; }
      var matched := PreferenceOf(lower)(line);
      if matched.None? { return Failure(BadPreferenceLine); }
      PreferencesGrow(lines, lower, i + 1);
      RefusedIffNotFine(entries, matched.value);
      var refused := RefusedPreference(prefs, matched.value);
      if refused.Some? {
        if EntriesFine(Preferences(lines, lower)) { PrefixOfFineIsFine(Preferences(lines[..i + 1], lower), Preferences(lines, lower)); }
        return Failure(refused.value);
      }
      prefs := prefs[matched.value.key := matched.value.value];
      entries := entries + [matched.value];
      count := count + 1;
      if count > MAX_UI_PREFERENCES { return Failure(TooManyPreferences); }
    }
    assert lines[..|lines|] == lines;
    r := Success(prefs);
  }

  lemma PreferencesGrow(lines: seq<Line>, lower: Lower, k: nat)
    requires k <= |lines|
    ensures Preferences(lines[..k], lower) <= Preferences(lines, lower)
  {
    FilterMapConcat(PreferenceOf(lower), lines[..k], lines[k..]);
    assert lines == lines[..k] + lines[k..];
  }

  datatype Meaning = Meaning(
    observations: seq<string>,
    recommendedActions: seq<string>,
    patternInterpretation: Option<string>,
    riskLevel: Option<string>,
    functionalIntent: Option<string>,
    dataModel: seq<Field>,
    uiPreference: map<string, string>)

  /** The meaning that the collected sections spell out. */
  function MeaningOf(sections: map<Section, seq<Line>>, lower: Lower): Meaning {
    Meaning(
      Bullets(LinesOf(sections, Observations)),
      Bullets(LinesOf(sections, RecommendedActions)),
      SectionText(LinesOf(sections, PatternInterpretation)),
      SectionText(LinesOf(sections, RiskLevel)),
      SectionText(LinesOf(sections, FunctionalIntent)),
      Fields(LinesOf(sections, DataModel), lower),
      EntryMap(Preferences(LinesOf(sections, UiPreference), lower)))
  }

  /** Which collected sections make up a valid meaning. */
  ghost predicate SectionsAccepted(sections: map<Section, seq<Line>>, lower: Lower) {
    && Observations in sections && RecommendedActions in sections
    && Bullets(LinesOf(sections, Observations)) != [] && Bullets(LinesOf(sections, RecommendedActions)) != []
    && FieldsAccepted(LinesOf(sections, DataModel), lower)
    && PreferencesAccepted(LinesOf(sections, UiPreference), lower)
  }

  method ValidateMeaningMarkdown(lines: seq<Line>, lower: Lower) returns (r: Result<Meaning, Error>)
    ensures r.Success? <==> ScanAll(lines).Success? && SectionsAccepted(ScanAll(lines).value.sections, lower)
    ensures r.Success? ==> r.value == MeaningOf(ScanAll(lines).value.sections, lower)
  {
    var scanned := CollectSections(lines);
    if scanned.Failure? { return Failure(scanned.error); }
    var sections := scanned.value.sections;
    if Observations !in sections { return Failure(MissingSection(Observations)); }
    if RecommendedActions !in sections { return Failure(MissingSection(RecommendedActions)); }
    var observations := ExtractBullets(LinesOf(sections, Observations));
    if |observations| == 0 { return Failure(NoBullets(Observations)); }
    var recommendedActions := ExtractBullets(LinesOf(sections, RecommendedActions));
    if |recommendedActions| == 0 { return Failure(NoBullets(RecommendedActions)); }
    var dataModel := ParseDataModel(LinesOf(sections, DataModel), lower);
    if dataModel.Failure? { return Failure(dataModel.error); }
    var uiPreference := ParseUiPreference(LinesOf(sections, UiPreference), lower);
    if uiPreference.Failure? { return Failure(uiPreference.error); }
    r := Success(Meaning(
      observations, recommendedActions, SectionText(LinesOf(sections, PatternInterpretation)),
      SectionText(LinesOf(sections, RiskLevel)), SectionText(LinesOf(sections, FunctionalIntent)), dataModel.value,
      uiPreference.value));
  }
}
