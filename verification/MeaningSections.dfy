/** Validation in terms of titled sections: which documents are accepted, and what each section contributes. */
module MeaningSections {
  import opened Lists
  import opened MeaningDocument
  import opened MeaningText
  import opened Ordering
  import opened Schema

  function TitleOf(s: Section): string {
    match s
    case Observations => "Observations"
    case RecommendedActions => "Recommended Actions"
    case PatternInterpretation => "Pattern Interpretation"
    case RiskLevel => "Risk Level"
    case FunctionalIntent => "Functional Intent"
    case DataModel => "Data Model"
    case UiPreference => "UI Preference"
  }

  lemma SectionsHaveTitles(title: string, s: Section)
    ensures SectionOf(title) == Some(s) <==> title == TitleOf(s)
  {
  }

  ghost predicate IsTitled(b: Block, title: string) {
    b.heading.shape.Heading? && b.heading.shape.title == title
  }

  /** The lines of a section with this title, and none when there is no such section. */
  ghost function BodyUnder(lines: seq<Line>, title: string): seq<Line> {
    if exists b :: b in Blocks(lines) && IsTitled(b, title) then
      var b :| b in Blocks(lines) && IsTitled(b, title);
      b.body
    else []
  }

  /** All headings are known titles, none occurs twice, and no section has a heading of another level inside. */
  ghost predicate WellTitled(blocks: seq<Block>) {
    && (forall b :: b in blocks ==>
          && b.heading.shape.Heading? && (exists s :: b.heading.shape.title == TitleOf(s))
          && forall line :: line in b.body && line.shape.Text? ==> !line.shape.nested)
    && forall i, j :: 0 <= i < j < |blocks| && blocks[i].heading.shape.Heading? && blocks[j].heading.shape.Heading? ==>
         blocks[i].heading.shape.title != blocks[j].heading.shape.title
  }

  lemma KnownIffTitled(b: Block)
    ensures KnownHeading(b) <==> b.heading.shape.Heading? && exists s :: b.heading.shape.title == TitleOf(s)
    ensures KnownHeading(b) ==> b.heading.shape.title == TitleOf(SectionAt(b))
  {
    if b.heading.shape.Heading? {
      var title := b.heading.shape.title;
      forall s ensures SectionOf(title) == Some(s) <==> title == TitleOf(s) { SectionsHaveTitles(title, s); }
    }
  }

  lemma TitlesAreDistinct(s: Section, t: Section)
    ensures TitleOf(s) == TitleOf(t) ==> s == t
  {
    SectionsHaveTitles(TitleOf(s), s);
    SectionsHaveTitles(TitleOf(t), t);
  }

  lemma WellTitledIffSectioned(blocks: seq<Block>)
    ensures WellTitled(blocks) <==> WellSectioned(blocks)
  {
    forall b ensures (KnownHeading(b) <==> b.heading.shape.Heading? && exists s :: b.heading.shape.title == TitleOf(s))
                     && (KnownHeading(b) ==> b.heading.shape.title == TitleOf(SectionAt(b))) { KnownIffTitled(b); }
    forall s, t ensures TitleOf(s) == TitleOf(t) ==> s == t { TitlesAreDistinct(s, t); }
    assert forall i :: 0 <= i < |blocks| ==> blocks[i] in blocks;
  }

  /** The scan collects for a section what stands under its title. */
  lemma CollectedUnderTitle(lines: seq<Line>, s: Section)
    requires ScanAll(lines).Success?
    ensures WellTitled(Blocks(lines)) && LinesOf(ScanAll(lines).value.sections, s) == BodyUnder(lines, TitleOf(s))
    ensures s in ScanAll(lines).value.sections <==> exists b :: b in Blocks(lines) && IsTitled(b, TitleOf(s))
  {
    var blocks := Blocks(lines);
    EveryTextIsADocument(lines);
    ScanOfDocument(Preamble(lines), blocks);
    WellTitledIffSectioned(blocks);
    UnderTitle(lines, blocks, ScanAll(lines).value.sections, s);
  }

  lemma BodyCollected(lines: seq<Line>, s: Section, title: string)
    requires ScanAll(lines).Success? && title == TitleOf(s)
    ensures LinesOf(ScanAll(lines).value.sections, s) == BodyUnder(lines, title)
  {
    CollectedUnderTitle(lines, s);
  }

  lemma UnderTitle(lines: seq<Line>, blocks: seq<Block>, sections: map<Section, seq<Line>>, s: Section)
    requires blocks == Blocks(lines) && WellSectioned(blocks) && Collects(sections, blocks)
    ensures LinesOf(sections, s) == BodyUnder(lines, TitleOf(s))
    ensures s in sections <==> exists b :: b in blocks && IsTitled(b, TitleOf(s))
  {
    forall b | b in blocks ensures IsTitled(b, TitleOf(s)) <==> SectionAt(b) == s {
      KnownIffTitled(b);
      TitlesAreDistinct(SectionAt(b), s);
    }
    forall b | b in blocks && SectionAt(b) == s ensures s in sections && sections[s] == b.body {
      CollectedBody(blocks, sections, b);
    }
    if s in sections { SomeBlockCollected(blocks, sections, s); }
  }

  lemma CollectedBody(blocks: seq<Block>, sections: map<Section, seq<Line>>, b: Block)
    requires WellSectioned(blocks) && Collects(sections, blocks) && b in blocks
    ensures SectionAt(b) in sections && sections[SectionAt(b)] == b.body
  {
    var i :| 0 <= i < |blocks| && blocks[i] == b;
  }

  lemma SomeBlockCollected(blocks: seq<Block>, sections: map<Section, seq<Line>>, s: Section)
    requires WellSectioned(blocks) && Collects(sections, blocks) && s in sections
    ensures exists b :: b in blocks && KnownHeading(b) && SectionAt(b) == s
  {
    var i :| 0 <= i < |blocks| && SectionAt(blocks[i]) == s;
    assert blocks[i] in blocks;
  }

  /** A line of the data model that is not blank declares a field of one of five types. */
  ghost predicate Declares(line: Line, lower: Lower) {
    && line.shape.Text? && !line.shape.blank && line.shape.field.Some?
    && lower(line.shape.field.value.value) in {"number", "string", "boolean", "array", "object"}
  }

  ghost predicate Blanks(line: Line) {
    line.shape.Text? && line.shape.blank
  }

  /** At most twenty fields of different names, and at least one unless the section is empty. */
  ghost predicate DataModelSound(lines: seq<Line>, lower: Lower) {
    var fields := Fields(lines, lower);
    && (forall line :: line in lines ==> Blanks(line) || Declares(line, lower))
    && (forall i, j :: 0 <= i < j < |fields| ==> fields[i].name != fields[j].name)
    && |fields| <= 20 && (|lines| > 0 ==> |fields| > 0)
  }

  lemma FieldsOfDeclared(lines: seq<Line>, lower: Lower)
    ensures (forall line :: line in lines ==> Blanks(line) || Declares(line, lower)) <==>
            && (forall line :: line in lines ==> IsBlank(line) || FieldOf(lower)(line).Some?)
            && forall f :: f in Fields(lines, lower) ==> f.typeName in ALLOWED_DATA_TYPES
  {
    FilterMapMembers(FieldOf(lower), lines);
    forall line | line in lines && FieldOf(lower)(line).Some?
      ensures Declares(line, lower) <==> FieldOf(lower)(line).value.typeName in ALLOWED_DATA_TYPES {}
  }

  lemma DataModelSoundIff(lines: seq<Line>, lower: Lower)
    ensures DataModelSound(lines, lower) <==> FieldsAccepted(lines, lower)
  {
    FieldsOfDeclared(lines, lower);
  }

  /** The values that a preference may have. */
  predicate MayPrefer(key: string, value: string) {
    match key
    case "theme" => value == "light" || value == "dark"
    case "layout" => value == "dashboard" || value == "panel" || value == "minimal"
    case "density" => value == "compact" || value == "comfortable"
    case "navigation" => value == "sidebar" || value == "topbar" || value == "none"
    case _ => false
  }

  ghost predicate Wishes(line: Line, lower: Lower) {
    && line.shape.Text? && !line.shape.blank && line.shape.preference.Some?
    && MayPrefer(line.shape.preference.value.key, lower(line.shape.preference.value.value))
  }

  ghost predicate PreferencesSound(lines: seq<Line>, lower: Lower) {
    var wishes := Preferences(lines, lower);
    && (forall line :: line in lines ==> Blanks(line) || Wishes(line, lower))
    && (forall i, j :: 0 <= i < j < |wishes| ==> wishes[i].key != wishes[j].key)
  }

  lemma PreferenceIff(e: Entry)
    ensures IsPreference(e) <==> MayPrefer(e.key, e.value)
  {
  }

  lemma WishesIff(lines: seq<Line>, lower: Lower)
    ensures (forall line :: line in lines ==> Blanks(line) || Wishes(line, lower)) <==>
            && (forall line :: line in lines ==> IsBlank(line) || PreferenceOf(lower)(line).Some?)
            && forall e :: e in Preferences(lines, lower) ==> IsPreference(e)
  {
    FilterMapMembers(PreferenceOf(lower), lines);
    forall e ensures IsPreference(e) <==> MayPrefer(e.key, e.value) { PreferenceIff(e); }
    forall line | line in lines && PreferenceOf(lower)(line).Some?
      ensures Wishes(line, lower) <==> IsPreference(PreferenceOf(lower)(line).value) {}
  }

  lemma PreferencesSoundIff(lines: seq<Line>, lower: Lower)
    ensures PreferencesSound(lines, lower) <==> PreferencesAccepted(lines, lower)
  {
    WishesIff(lines, lower);
    if EntriesFine(Preferences(lines, lower)) { FineEntriesAreFew(Preferences(lines, lower)); }
  }

  /**
   * A document is accepted exactly when it is well titled, observes and recommends something in bullets, and its data model
   * and preferences are sound.
   */
  lemma AcceptedByTitles(lines: seq<Line>, lower: Lower)
    ensures Accepted(lines, lower) <==>
            && WellTitled(Blocks(lines))
            && Bullets(BodyUnder(lines, "Observations")) != [] && Bullets(BodyUnder(lines, "Recommended Actions")) != []
            && DataModelSound(BodyUnder(lines, "Data Model"), lower)
            && PreferencesSound(BodyUnder(lines, "UI Preference"), lower)
  {
    ScansIffWellTitled(lines);
    if ScanAll(lines).Success? {
      BulletsGivenIff(lines);
      DataModelGivenIff(lines, lower);
      PreferencesGivenIff(lines, lower);
    }
  }

  lemma BulletsGivenIff(lines: seq<Line>)
    requires ScanAll(lines).Success?
    ensures var sections := ScanAll(lines).value.sections;
            && Observations in sections && RecommendedActions in sections
            && Bullets(LinesOf(sections, Observations)) != [] && Bullets(LinesOf(sections, RecommendedActions)) != []
            <==> Bullets(BodyUnder(lines, "Observations")) != [] && Bullets(BodyUnder(lines, "Recommended Actions")) != []
  {
    BodyCollected(lines, Observations, "Observations");
    BodyCollected(lines, RecommendedActions, "Recommended Actions");
    assert Bullets([]) == [];
  }

  lemma DataModelGivenIff(lines: seq<Line>, lower: Lower)
    requires ScanAll(lines).Success?
    ensures FieldsAccepted(LinesOf(ScanAll(lines).value.sections, DataModel), lower) <==> DataModelSound(BodyUnder(lines, "Data Model"), lower)
  {
    BodyCollected(lines, DataModel, "Data Model");
    DataModelSoundIff(BodyUnder(lines, "Data Model"), lower);
  }

  lemma PreferencesGivenIff(lines: seq<Line>, lower: Lower)
    requires ScanAll(lines).Success?
    ensures PreferencesAccepted(LinesOf(ScanAll(lines).value.sections, UiPreference), lower)
            <==> PreferencesSound(BodyUnder(lines, "UI Preference"), lower)
  {
    BodyCollected(lines, UiPreference, "UI Preference");
    PreferencesSoundIff(BodyUnder(lines, "UI Preference"), lower);
  }

  lemma ScansIffWellTitled(lines: seq<Line>)
    ensures ScanAll(lines).Success? <==> WellTitled(Blocks(lines))
  {
    EveryTextIsADocument(lines);
    ScanOfDocument(Preamble(lines), Blocks(lines));
    WellTitledIffSectioned(Blocks(lines));
  }

  /** Each part of the meaning comes from the section with its title. */
  lemma TextsByTitles(lines: seq<Line>, lower: Lower)
    requires Accepted(lines, lower)
    ensures var m := MeaningIn(lines, lower);
            && m.patternInterpretation == SectionText(BodyUnder(lines, "Pattern Interpretation"))
            && m.riskLevel == SectionText(BodyUnder(lines, "Risk Level"))
            && m.functionalIntent == SectionText(BodyUnder(lines, "Functional Intent"))
  {
    BodyCollected(lines, PatternInterpretation, "Pattern Interpretation");
    BodyCollected(lines, RiskLevel, "Risk Level");
    BodyCollected(lines, FunctionalIntent, "Functional Intent");
  }

  lemma BulletsByTitles(lines: seq<Line>, lower: Lower)
    requires Accepted(lines, lower)
    ensures var m := MeaningIn(lines, lower);
            && m.observations == Bullets(BodyUnder(lines, "Observations"))
            && m.recommendedActions == Bullets(BodyUnder(lines, "Recommended Actions"))
  {
    BodyCollected(lines, Observations, "Observations");
    BodyCollected(lines, RecommendedActions, "Recommended Actions");
  }

  lemma EntriesByTitles(lines: seq<Line>, lower: Lower)
    requires Accepted(lines, lower)
    ensures var m := MeaningIn(lines, lower);
            && m.dataModel == Fields(BodyUnder(lines, "Data Model"), lower)
            && m.uiPreference == EntryMap(Preferences(BodyUnder(lines, "UI Preference"), lower))
  {
    BodyCollected(lines, DataModel, "Data Model");
    BodyCollected(lines, UiPreference, "UI Preference");
  }

  /** Bullets and data fields are listed line by line. */
  lemma BulletsLineByLine(lines: seq<Line>, line: Line)
    ensures Bullets([]) == []
    ensures Bullets(lines + [line]) ==
            Bullets(lines) + if line.shape.Text? && line.shape.bullet.Some? then [line.shape.bullet.value] else []
  {
    assert (lines + [line])[..|lines|] == lines;
  }

  lemma FieldsLineByLine(lines: seq<Line>, line: Line, lower: Lower)
    ensures Fields([], lower) == []
    ensures Fields(lines + [line], lower) ==
            Fields(lines, lower)
            + if line.shape.Text? && !line.shape.blank && line.shape.field.Some?
              then [Field(line.shape.field.value.key, lower(line.shape.field.value.value))] else []
  {
    assert (lines + [line])[..|lines|] == lines;
  }

  lemma PreferencesLineByLine(lines: seq<Line>, line: Line, lower: Lower)
    ensures Preferences([], lower) == []
    ensures Preferences(lines + [line], lower) ==
            Preferences(lines, lower)
            + if line.shape.Text? && !line.shape.blank && line.shape.preference.Some?
              then [Entry(line.shape.preference.value.key, lower(line.shape.preference.value.value))] else []
  {
    assert (lines + [line])[..|lines|] == lines;
  }

  /** The text of a section grows by a line break and the content of each further line that is not blank. */
  lemma TextLineByLine(lines: seq<Line>, line: Line)
    ensures SectionText([]) == None
    ensures SectionText(lines + [line]) ==
            if !line.shape.Text? || line.shape.blank then SectionText(lines)
            else
              match SectionText(lines)
              case None => Some(line.shape.content)
              case Some(text) => Some(text + "\n" + line.shape.content)
  {
    assert (lines + [line])[..|lines|] == lines;
    var parts := FilterMap(CONTENT_OF, lines);
    if line.shape.Text? && !line.shape.blank {
      assert FilterMap(CONTENT_OF, lines + [line]) == parts + [line.shape.content];
      if parts != [] { JoinOneMore(parts, line.shape.content); }
    } else {
      assert FilterMap(CONTENT_OF, lines + [line]) == parts;
    }
  }

  lemma {:induction false} JoinOneMore(parts: seq<string>, last: string)
    requires parts != []
    ensures Join(parts + [last]) == Join(parts) + "\n" + last
  {
    assert (parts + [last])[1..] == parts[1..] + [last];
    if |parts| > 1 {
      JoinOneMore(parts[1..], last);
      assert parts[0] + "\n" + (Join(parts[1..]) + "\n" + last) == parts[0] + "\n" + Join(parts[1..]) + "\n" + last;
    }
  }
}
