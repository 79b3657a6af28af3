/** Documents as a preamble and a list of sections, and what rearranging them leaves unchanged. */
module MeaningDocument {
  import opened Lists
  import opened MeaningText
  import opened Ordering
  import opened Schema

  /** A line that starts with two hash signs, and the text lines up to the next such line. */
  datatype Block = Block(heading: Line, body: seq<Line>)

  ghost predicate AllText(lines: seq<Line>) {
    forall line :: line in lines ==> line.shape.Text?
  }

  ghost predicate BlocksFormed(blocks: seq<Block>) {
    forall b :: b in blocks ==> !b.heading.shape.Text? && AllText(b.body)
  }

  function Render(blocks: seq<Block>): seq<Line> {
    if blocks == [] then []
    else
      var last := blocks[|blocks| - 1];
      Render(blocks[..|blocks| - 1]) + [last.heading] + last.body
  }

  /** Every list of lines is a preamble followed by blocks, in one way. */
  function Preamble(lines: seq<Line>): (r: seq<Line>)
    ensures AllText(r)
  {
    if lines == [] || !lines[0].shape.Text? then [] else [lines[0]] + Preamble(lines[1..])
  }

  function Blocks(lines: seq<Line>): (r: seq<Block>)
    ensures BlocksFormed(r)
  {
    if lines == [] then []
    else if lines[0].shape.Text? then Blocks(lines[1..])
    else [Block(lines[0], Preamble(lines[1..]))] + Blocks(lines[1..])
  }

  lemma RenderOne(b: Block)
    ensures Render([b]) == [b.heading] + b.body
  {
    assert [b][..0] == [];
  }

  lemma SplitLast(blocks: seq<Block>) returns (init: seq<Block>, last: Block)
    requires blocks != []
    ensures |init| < |blocks| && blocks == init + [last] && Render(blocks) == Render(init) + ([last.heading] + last.body)
  {
    init, last := blocks[..|blocks| - 1], blocks[|blocks| - 1];
    assert Render(blocks) == Render(init) + [last.heading] + last.body;
  }

  lemma JoinLast(init: seq<Block>, last: Block)
    ensures Render(init + [last]) == Render(init) + ([last.heading] + last.body)
  {
    assert (init + [last])[..|init|] == init;
    assert Render(init) + [last.heading] + last.body == Render(init) + ([last.heading] + last.body);
  }

  lemma {:induction false} RenderConcat(a: seq<Block>, b: seq<Block>)
    ensures Render(a + b) == Render(a) + Render(b)
    decreases |b|
  {
    if b == [] {
      assert a + b == a;
    } else {
      var init, last := SplitLast(b);
      RenderConcat(a, init);
      JoinLast(a + init, last);
      Associative(a, init, [last]);
      Associative(Render(a), Render(init), [last.heading] + last.body);
    }
  }

  lemma {:induction false} EveryTextIsADocument(lines: seq<Line>)
    ensures Preamble(lines) + Render(Blocks(lines)) == lines
  {
    if lines != [] {
      EveryTextIsADocument(lines[1..]);
      if !lines[0].shape.Text? {
        var b := Block(lines[0], Preamble(lines[1..]));
        RenderConcat([b], Blocks(lines[1..]));
        RenderOne(b);
      }
    }
  }

  ghost predicate KnownHeading(b: Block) {
    b.heading.shape.Heading? && SectionOf(b.heading.shape.title).Some?
  }

  ghost function SectionAt(b: Block): Section
    requires KnownHeading(b)
  {
    SectionOf(b.heading.shape.title).value
  }

  ghost predicate NoneNested(lines: seq<Line>) {
    forall line :: line in lines && line.shape.Text? ==> !line.shape.nested
  }

  /** Only known headings, each section at most once, and no other headings inside sections. */
  ghost predicate WellSectioned(blocks: seq<Block>) {
    && (forall i :: 0 <= i < |blocks| ==> KnownHeading(blocks[i]) && NoneNested(blocks[i].body))
    && (forall i, j :: 0 <= i < j < |blocks| ==> SectionAt(blocks[i]) != SectionAt(blocks[j]))
  }

  /** What the scan of a well-sectioned document collects, whatever the order of the sections. */
  ghost predicate Collects(sections: map<Section, seq<Line>>, blocks: seq<Block>)
    requires WellSectioned(blocks)
  {
    && (forall i :: 0 <= i < |blocks| ==> SectionAt(blocks[i]) in sections && sections[SectionAt(blocks[i])] == blocks[i].body)
    && (forall s :: s in sections ==> exists i :: 0 <= i < |blocks| && SectionAt(blocks[i]) == s)
  }

  lemma ScanSplits(lines: seq<Line>, line: Line)
    ensures ScanAll(lines + [line]) == if ScanAll(lines).Failure? then ScanAll(lines) else ScanLine(ScanAll(lines).value, line, |lines| + 1)
  {
    assert (lines + [line])[..|lines|] == lines;
  }

  /** The lines before the first heading are ignored. */
  lemma {:induction false} ScanOfPreamble(lines: seq<Line>)
    requires AllText(lines)
    ensures ScanAll(lines) == Success(START)
  {
    if lines != [] { ScanOfPreamble(lines[..|lines| - 1]); }
  }

  /** The state after more lines for the open section. */
  ghost function Extended(state: Scan, body: seq<Line>): Scan
    requires state.current.Some? && state.current.value in state.sections
  {
    Scan(state.current, state.sections[state.current.value := state.sections[state.current.value] + body])
  }

  lemma {:induction false} ScanOfBody(before: seq<Line>, body: seq<Line>, state: Scan)
    requires AllText(body) && ScanAll(before) == Success(state) && state.current.Some? && state.current.value in state.sections
    ensures if NoneNested(body) then ScanAll(before + body) == Success(Extended(state, body)) else ScanAll(before + body).Failure?
  {
    if body == [] {
      assert before + body == before;
      assert state.sections[state.current.value] + body == state.sections[state.current.value];
      assert state.sections[state.current.value := state.sections[state.current.value]] == state.sections;
    } else {
      var last := |body| - 1;
      ScanOfBody(before, body[..last], state);
      assert before + body == before + body[..last] + [body[last]];
      assert body == body[..last] + [body[last]];
      ScanSplits(before + body[..last], body[last]);
      if NoneNested(body[..last]) { ExtendedByOne(state, body[..last], body[last]); }
    }
  }

  lemma ExtendedByOne(state: Scan, body: seq<Line>, line: Line)
    requires state.current.Some? && state.current.value in state.sections && line.shape.Text?
    ensures forall number :: ScanLine(Extended(state, body), line, number) ==
              if line.shape.nested then Failure(NestedHeading(number)) else Success(Extended(state, body + [line]))
  {
    var s := state.current.value;
    assert state.sections[s] + body + [line] == state.sections[s] + (body + [line]);
    assert state.sections[s := state.sections[s] + body][s := state.sections[s] + (body + [line])]
        == state.sections[s := state.sections[s] + (body + [line])];
  }

  lemma {:induction false} ScanFailsForGood(before: seq<Line>, after: seq<Line>)
    requires ScanAll(before).Failure?
    ensures ScanAll(before + after).Failure?
  {
    FailureIsFinal(before + after, |before|);
    assert (before + after)[..|before|] == before;
  }

  /** The scan succeeds exactly on well-sectioned documents, and collects each section's lines. */
  lemma {:induction false} ScanOfDocument(preamble: seq<Line>, blocks: seq<Block>)
    requires AllText(preamble) && BlocksFormed(blocks)
    ensures var r := ScanAll(preamble + Render(blocks));
            (r.Success? <==> WellSectioned(blocks)) && (r.Success? ==> Collects(r.value.sections, blocks))
    decreases |blocks|
  {
    if blocks == [] {
      assert preamble + Render(blocks) == preamble;
      ScanOfPreamble(preamble);
    } else {
      var init, last := SplitLast(blocks);
      assert last in blocks && forall b :: b in init ==> b in blocks;
      ScanOfDocument(preamble, init);
      ScanOfLastBlock(preamble + Render(init), init, last);
      Associative(preamble, Render(init), [last.heading] + last.body);
      Associative(preamble + Render(init), [last.heading], last.body);
    }
  }

  lemma ScanOfLastBlock(before: seq<Line>, blocks: seq<Block>, b: Block)
    requires !b.heading.shape.Text? && AllText(b.body)
    requires ScanAll(before).Success? <==> WellSectioned(blocks)
    requires ScanAll(before).Success? ==> Collects(ScanAll(before).value.sections, blocks)
    ensures var r := ScanAll(before + [b.heading] + b.body);
            && (r.Success? <==> WellSectioned(blocks + [b]))
            && (r.Success? ==> Collects(r.value.sections, blocks + [b]))
  {
    ScanSplits(before, b.heading);
    OneMoreBlock(blocks, b);
    if ScanAll(before + [b.heading]).Failure? {
      ScanFailsForGood(before + [b.heading], b.body);
      if WellSectioned(blocks) { NewSectionIff(ScanAll(before).value.sections, blocks, b); }
    } else {
      var sections := ScanAll(before).value.sections;
      NewSectionIff(sections, blocks, b);
      ScanOfNewSection(before + [b.heading], sections, blocks, b);
    }
  }

  lemma ScanOfNewSection(before: seq<Line>, sections: map<Section, seq<Line>>, blocks: seq<Block>, b: Block)
    requires AllText(b.body) && WellSectioned(blocks) && Collects(sections, blocks) && KnownHeading(b) && SectionAt(b) !in sections
    requires ScanAll(before) == Success(Scan(Some(SectionAt(b)), sections[SectionAt(b) := []]))
    ensures var r := ScanAll(before + b.body);
            (r.Success? <==> NoneNested(b.body)) &&
            (r.Success? ==> WellSectioned(blocks + [b]) && Collects(r.value.sections, blocks + [b]))
  {
    ScanOfBody(before, b.body, Scan(Some(SectionAt(b)), sections[SectionAt(b) := []]));
    if NoneNested(b.body) {
      NewSectionIff(sections, blocks, b);
      OneMoreBlock(blocks, b);
      CollectsOneMore(sections, blocks, b);
      ExtendedFromEmpty(SectionAt(b), sections, b.body);
    }
  }

  lemma ExtendedFromEmpty(s: Section, sections: map<Section, seq<Line>>, body: seq<Line>)
    ensures Extended(Scan(Some(s), sections[s := []]), body) == Scan(Some(s), sections[s := body])
  {
    assert [] + body == body;
    assert sections[s := []][s := body] == sections[s := body];
  }

  ghost predicate NewSection(blocks: seq<Block>, b: Block)
    requires WellSectioned(blocks) && KnownHeading(b)
  {
    forall i :: 0 <= i < |blocks| ==> SectionAt(blocks[i]) != SectionAt(b)
  }

  lemma OneMoreBlock(blocks: seq<Block>, b: Block)
    ensures WellSectioned(blocks + [b]) <==>
            WellSectioned(blocks) && KnownHeading(b) && NoneNested(b.body) && NewSection(blocks, b)
  {
    var more := blocks + [b];
    assert more[|blocks|] == b && forall i :: 0 <= i < |blocks| ==> more[i] == blocks[i];
  }

  lemma NewSectionIff(sections: map<Section, seq<Line>>, blocks: seq<Block>, b: Block)
    requires WellSectioned(blocks) && Collects(sections, blocks)
    ensures KnownHeading(b) ==> (NewSection(blocks, b) <==> SectionAt(b) !in sections)
  {
  }

  lemma CollectsOneMore(sections: map<Section, seq<Line>>, blocks: seq<Block>, b: Block)
    requires WellSectioned(blocks) && Collects(sections, blocks) && KnownHeading(b) && SectionAt(b) !in sections
    requires WellSectioned(blocks + [b])
    ensures Collects(sections[SectionAt(b) := b.body], blocks + [b])
  {
    var more, all := blocks + [b], sections[SectionAt(b) := b.body];
    assert more[|blocks|] == b && forall i :: 0 <= i < |blocks| ==> more[i] == blocks[i];
    forall s: Section | s in all ensures exists i :: 0 <= i < |more| && SectionAt(more[i]) == s {
      if s == SectionAt(b) {
        assert SectionAt(more[|blocks|]) == s;
      } else {
        var i :| 0 <= i < |blocks| && SectionAt(blocks[i]) == s;
        assert SectionAt(more[i]) == s;
      }
    }
  }

  /** In these sections the order of the lines carries no meaning. */
  predicate OrderFree(s: Section) {
    s.Observations? || s.RecommendedActions? || s.DataModel? || s.UiPreference?
  }

  ghost predicate LinesAlike(s: Section, x: seq<Line>, y: seq<Line>) {
    x == y || (OrderFree(s) && multiset(x) == multiset(y))
  }

  ghost predicate BlocksAlike(a: Block, b: Block) {
    a.heading == b.heading && (a.body == b.body || (KnownHeading(a) && LinesAlike(SectionAt(a), a.body, b.body)))
  }

  /** A permutation of the first `n` numbers, and its inverse. */
  ghost predicate Permutation(p: seq<nat>, q: seq<nat>, n: nat) {
    && |p| == n && |q| == n
    && (forall i :: 0 <= i < n ==> p[i] < n && q[p[i]] == i)
    && (forall i :: 0 <= i < n ==> q[i] < n && p[q[i]] == i)
  }

  ghost predicate RearrangedBy(a: seq<Block>, b: seq<Block>, p: seq<nat>, q: seq<nat>) {
    && |a| == |b| && Permutation(p, q, |a|)
    && forall i :: 0 <= i < |a| ==> BlocksAlike(a[p[i]], b[i])
  }

  /** The same sections in any order, with the lines of the order-free sections in any order. */
  ghost predicate Rearranged(a: seq<Block>, b: seq<Block>) {
    exists p: seq<nat>, q: seq<nat> :: RearrangedBy(a, b, p, q)
  }

  lemma RearrangedSymmetric(a: seq<Block>, b: seq<Block>)
    requires Rearranged(a, b)
    ensures Rearranged(b, a)
  {
    var p, q :| RearrangedBy(a, b, p, q);
    forall i | 0 <= i < |a| ensures BlocksAlike(b[q[i]], a[i]) {
      assert BlocksAlike(a[p[q[i]]], b[q[i]]);
    }
    assert RearrangedBy(b, a, q, p);
  }

  lemma RearrangedStaysWellSectioned(a: seq<Block>, b: seq<Block>, p: seq<nat>, q: seq<nat>)
    requires RearrangedBy(a, b, p, q) && WellSectioned(a)
    ensures WellSectioned(b)
  {
    forall i | 0 <= i < |b| ensures KnownHeading(b[i]) && NoneNested(b[i].body) && SectionAt(b[i]) == SectionAt(a[p[i]]) {
      assert BlocksAlike(a[p[i]], b[i]);
      if a[p[i]].body != b[i].body { MembersOfEqualMultisets(a[p[i]].body, b[i].body); }
    }
    forall i, j | 0 <= i < j < |b| ensures SectionAt(b[i]) != SectionAt(b[j]) {
      assert p[i] != p[j];
    }
  }

  ghost predicate SectionsAlike(x: map<Section, seq<Line>>, y: map<Section, seq<Line>>) {
    x.Keys == y.Keys && forall s: Section :: s in x ==> LinesAlike(s, x[s], y[s])
  }

  lemma RearrangedCollectsAlike(a: seq<Block>, b: seq<Block>, x: map<Section, seq<Line>>, y: map<Section, seq<Line>>)
    requires Rearranged(a, b) && WellSectioned(a) && WellSectioned(b) && Collects(x, a) && Collects(y, b)
    ensures SectionsAlike(x, y)
  {
    var p, q :| RearrangedBy(a, b, p, q);
    forall s: Section | s in x ensures s in y && LinesAlike(s, x[s], y[s]) { TwinSection(a, b, x, y, p, q, s); }
    forall s: Section | s in y ensures s in x { TwinSectionBack(a, b, x, y, p, q, s); }
  }

  lemma TwinSection(
    a: seq<Block>, b: seq<Block>, x: map<Section, seq<Line>>, y: map<Section, seq<Line>>, p: seq<nat>, q: seq<nat>, s: Section)
    requires RearrangedBy(a, b, p, q) && WellSectioned(a) && WellSectioned(b) && Collects(x, a) && Collects(y, b) && s in x
    ensures s in y && LinesAlike(s, x[s], y[s])
  {
    var k :| 0 <= k < |a| && SectionAt(a[k]) == s;
    MatchingBlocks(a, b, p, q, q[k]);
  }

  lemma TwinSectionBack(
    a: seq<Block>, b: seq<Block>, x: map<Section, seq<Line>>, y: map<Section, seq<Line>>, p: seq<nat>, q: seq<nat>, s: Section)
    requires RearrangedBy(a, b, p, q) && WellSectioned(a) && WellSectioned(b) && Collects(x, a) && Collects(y, b) && s in y
    ensures s in x
  {
    var i :| 0 <= i < |b| && SectionAt(b[i]) == s;
    MatchingBlocks(a, b, p, q, i);
  }

  lemma MatchingBlocks(a: seq<Block>, b: seq<Block>, p: seq<nat>, q: seq<nat>, i: nat)
    requires RearrangedBy(a, b, p, q) && WellSectioned(a) && WellSectioned(b) && i < |b|
    ensures p[i] < |a| && SectionAt(a[p[i]]) == SectionAt(b[i])
    ensures LinesAlike(SectionAt(b[i]), a[p[i]].body, b[i].body)
  {
    assert BlocksAlike(a[p[i]], b[i]);
  }

  /** The same meaning but for the order of bullets and of data fields. */
  ghost predicate MeaningsAlike(m: Meaning, n: Meaning) {
    && multiset(m.observations) == multiset(n.observations)
    && multiset(m.recommendedActions) == multiset(n.recommendedActions)
    && multiset(m.dataModel) == multiset(n.dataModel)
    && m == n.(observations := m.observations, recommendedActions := m.recommendedActions, dataModel := m.dataModel)
  }

  lemma BulletsAlike(s: Section, x: seq<Line>, y: seq<Line>)
    requires LinesAlike(s, x, y)
    ensures multiset(Bullets(x)) == multiset(Bullets(y)) && (Bullets(x) == [] <==> Bullets(y) == [])
  {
    if x != y { FilterMapPermutes(BULLET_OF, x, y); }
    assert |multiset(Bullets(x))| == |Bullets(x)| && |multiset(Bullets(y))| == |Bullets(y)|;
  }

  lemma FieldsAlike(x: seq<Line>, y: seq<Line>, lower: Lower)
    requires multiset(x) == multiset(y) && FieldsAccepted(x, lower)
    ensures FieldsAccepted(y, lower) && multiset(Fields(x, lower)) == multiset(Fields(y, lower))
  {
    var f, g := Fields(x, lower), Fields(y, lower);
    FilterMapPermutes(FieldOf(lower), x, y);
    MembersOfEqualMultisets(x, y);
    MembersOfEqualMultisets(f, g);
    DistinctByPermutes(NAME, f, g);
    assert |multiset(x)| == |x| && |multiset(y)| == |y| && |multiset(f)| == |f| && |multiset(g)| == |g|;
  }

  lemma PreferencesAlike(x: seq<Line>, y: seq<Line>, lower: Lower)
    requires multiset(x) == multiset(y) && PreferencesAccepted(x, lower)
    ensures PreferencesAccepted(y, lower) && EntryMap(Preferences(x, lower)) == EntryMap(Preferences(y, lower))
  {
    var e, f := Preferences(x, lower), Preferences(y, lower);
    FilterMapPermutes(PreferenceOf(lower), x, y);
    MembersOfEqualMultisets(x, y);
    MembersOfEqualMultisets(e, f);
    DistinctByPermutes(KEY, e, f);
    assert |multiset(e)| == |e| && |multiset(f)| == |f|;
    EntryMapsAgree(e, f);
  }

  lemma EntryMapsAgree(e: seq<Entry>, f: seq<Entry>)
    requires DistinctKeys(e) && DistinctKeys(f) && forall x :: x in e <==> x in f
    ensures EntryMap(e) == EntryMap(f)
  {
    EntryMapLooksUp(e);
    EntryMapLooksUp(f);
    forall k ensures k in EntryMap(e) <==> k in EntryMap(f) {
      if k in EntryMap(e) { assert Entry(k, EntryMap(e)[k]) in f; }
      if k in EntryMap(f) { assert Entry(k, EntryMap(f)[k]) in e; }
    }
    forall k | k in EntryMap(e) ensures EntryMap(e)[k] == EntryMap(f)[k] {
      assert Entry(k, EntryMap(e)[k]) in f;
    }
  }

  lemma LinesOfAlike(x: map<Section, seq<Line>>, y: map<Section, seq<Line>>, s: Section)
    requires SectionsAlike(x, y)
    ensures LinesAlike(s, LinesOf(x, s), LinesOf(y, s))
  {
  }

  lemma AlikeSectionsMeanAlike(x: map<Section, seq<Line>>, y: map<Section, seq<Line>>, lower: Lower)
    requires SectionsAlike(x, y) && SectionsAccepted(x, lower)
    ensures SectionsAccepted(y, lower) && MeaningsAlike(MeaningOf(x, lower), MeaningOf(y, lower))
  {
    LinesOfAlike(x, y, Observations);
    LinesOfAlike(x, y, RecommendedActions);
    LinesOfAlike(x, y, DataModel);
    LinesOfAlike(x, y, UiPreference);
    BulletsAlike(Observations, LinesOf(x, Observations), LinesOf(y, Observations));
    BulletsAlike(RecommendedActions, LinesOf(x, RecommendedActions), LinesOf(y, RecommendedActions));
    FieldsAlike(LinesOf(x, DataModel), LinesOf(y, DataModel), lower);
    PreferencesAlike(LinesOf(x, UiPreference), LinesOf(y, UiPreference), lower);
    FreeTextAlike(x, y);
  }

  lemma FreeTextAlike(x: map<Section, seq<Line>>, y: map<Section, seq<Line>>)
    requires SectionsAlike(x, y)
    ensures LinesOf(x, PatternInterpretation) == LinesOf(y, PatternInterpretation)
    ensures LinesOf(x, RiskLevel) == LinesOf(y, RiskLevel)
    ensures LinesOf(x, FunctionalIntent) == LinesOf(y, FunctionalIntent)
  {
    LinesOfAlike(x, y, PatternInterpretation);
    LinesOfAlike(x, y, RiskLevel);
    LinesOfAlike(x, y, FunctionalIntent);
  }

  /** The document is accepted. */
  ghost predicate Accepted(lines: seq<Line>, lower: Lower) {
    ScanAll(lines).Success? && SectionsAccepted(ScanAll(lines).value.sections, lower)
  }

  ghost function MeaningIn(lines: seq<Line>, lower: Lower): Meaning
    requires Accepted(lines, lower)
  {
    MeaningOf(ScanAll(lines).value.sections, lower)
  }

  /** Rearranging an accepted document gives an accepted document of the same meaning, up to the order of bullets and fields. */
  lemma RearrangedMeansAlike(a: seq<Line>, b: seq<Line>, lower: Lower)
    requires Rearranged(Blocks(a), Blocks(b)) && Accepted(a, lower)
    ensures Accepted(b, lower) && MeaningsAlike(MeaningIn(a, lower), MeaningIn(b, lower))
  {
    EveryTextIsADocument(a);
    EveryTextIsADocument(b);
    ScanOfDocument(Preamble(a), Blocks(a));
    ScanOfDocument(Preamble(b), Blocks(b));
    var p, q :| RearrangedBy(Blocks(a), Blocks(b), p, q);
    RearrangedStaysWellSectioned(Blocks(a), Blocks(b), p, q);
    RearrangedCollectsAlike(Blocks(a), Blocks(b), ScanAll(a).value.sections, ScanAll(b).value.sections);
    AlikeSectionsMeanAlike(ScanAll(a).value.sections, ScanAll(b).value.sections, lower);
  }
}
