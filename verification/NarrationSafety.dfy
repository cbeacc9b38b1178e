/** What every rendered sentence promises: one language, filled slots, no braces. */
module NarrationSafety {
  import opened Prelude
  import opened FreeText
  import opened NarrationText
  import opened NarrationPlan
  import opened Narration

  // ----- one language -----

  ghost predicate SameDrinks(a: Strings, b: Strings) {
    forall key: string :: Lookup(a, DrinkName(key)) == Lookup(b, DrinkName(key))
  }

  lemma {:induction false} SameCandidates(nameKeys: seq<string>, strings: Strings, a: Strings, b: Strings, ui: UiStrings)
    requires SameDrinks(a, b)
    ensures Candidates(nameKeys, strings, a, ui) == Candidates(nameKeys, strings, b, ui)
  {
    if nameKeys != [] {
      SameCandidates(nameKeys[..|nameKeys| - 1], strings, a, b, ui);
    }
  }

  lemma SameSentence(u: Unicode, plan: Plan, strings: Strings, a: Strings, b: Strings, ui: UiStrings, language: string)
    requires plan.heads != [] && SameDrinks(a, b)
    ensures Compose(u, plan, strings, a, ui, language) == Compose(u, plan, strings, b, ui, language)
  {
    SameCandidates(plan.nameKeys, strings, a, b, ui);
    assert SlotsFor(u, plan, strings, a, ui) == SlotsFor(u, plan, strings, b, ui);
  }

  lemma ForeignLabelMeansLocale(u: Unicode, plan: Plan, language: string, maps: Maps)
    requires plan.heads != [] && language != "en"
    requires var r := RenderPlan(u, plan, language, maps); r.text.Some? && r.language != "en"
    ensures Gaps(plan, maps.narration) == {}
    ensures RenderPlan(u, plan, language, maps) ==
            Compose(u, plan, maps.narration, maps.narrationEn, maps.ui, language)
  {
  }

  /** A sentence labelled with a language other than English comes from that language's map alone: the template of its
      head stands there, all planned keys are in it, and of the English maps only the spoken drink names can change it. */
  lemma NoCodeSwitching(u: Unicode, plan: Plan, language: string, maps: Maps, en: Strings, uiEn: UiStrings)
    requires plan.heads != [] && language != "en"
    requires var r := RenderPlan(u, plan, language, maps); r.text.Some? && r.language != "en"
    requires SameDrinks(maps.narrationEn, en)
    ensures var r := RenderPlan(u, plan, language, maps);
            && r.language == language
            && PlannedKeys(plan) <= maps.narration.Keys
            && r.key.Some? && r.key.value in maps.narration
            && r == RenderPlan(u, plan, language, maps.(narrationEn := en, uiEn := uiEn))
  {
    ForeignLabelMeansLocale(u, plan, language, maps);
    SameSentence(u, plan, maps.narration, maps.narrationEn, en, maps.ui, language);
    assert PlannedKeys(plan) <= maps.narration.Keys by {
      assert forall k | k in PlannedKeys(plan) && k !in maps.narration.Keys :: k in Gaps(plan, maps.narration);
    }
  }

  /** Corollary of the guard: a locale that misses a planned key gets no text, or a sentence that is English throughout,
      marked incomplete, and independent of everything else in the locale's own maps. */
  lemma GapMeansEnglish(u: Unicode, plan: Plan, language: string, maps: Maps, narration: Strings, ui: UiStrings)
    requires plan.heads != [] && language != "en"
    requires Gaps(plan, maps.narration) != {} && Gaps(plan, narration) == Gaps(plan, maps.narration)
    ensures var r := RenderPlan(u, plan, language, maps);
            && (r == NO_NARRATION ||
                (r.text.Some? && r.language == "en" && !r.complete && r.missing == Gaps(plan, maps.narration)))
            && r == RenderPlan(u, plan, language, maps.(narration := narration, ui := ui))
  {
  }

  /** Corollary: with a text, the label tells which map was used, the locale exactly when no planned key is missing there
      and its sentence can be composed. */
  lemma LabelIsExact(u: Unicode, plan: Plan, language: string, maps: Maps)
    requires plan.heads != [] && language != "en" && RenderPlan(u, plan, language, maps).text.Some?
    ensures var r := RenderPlan(u, plan, language, maps);
            && (r.language == language <==>
                  Gaps(plan, maps.narration) == {} &&
                  Compose(u, plan, maps.narration, maps.narrationEn, maps.ui, language).text.Some?)
            && (r.language != language ==> r.language == "en" && !r.complete)
  {
  }

  /** For English itself the guard does not lower the flag: when the missing key is a head that is not spoken, the
      sentence still claims to be complete. */
  lemma EnglishGapCanBeComplete(u: Unicode)
    requires !u.space('x')
    ensures var en := map[Unnamed(BrewStarted) := "x"];
            var plan := BrewPlan(u, map[], BrewStarted);
            var r := RenderPlan(u, plan, "en", Maps(en, en, map[], map[]));
            Named(BrewStarted) in Gaps(plan, en) && r.complete && r.text == Some("x")
  {
    var en := map[Unnamed(BrewStarted) := "x"];
    var plan := BrewPlan(u, map[], BrewStarted);
    assert Heads(BrewStarted)[0] == Named(BrewStarted);
    assert Named(BrewStarted) in Gaps(plan, en);
    assert Strip("x", u.space) == "x";
    var s := SlotsFor(u, plan, en, en, map[]);
    assert s == Slots("", "", "");
    assert Substitute("x", Values(plan, s)) == "x";
    assert Sentence(u, "x", Values(plan, s)) == "x";
  }

  /** The shape sentence was asked for and is not there. */
  predicate LacksShape(u: Unicode, plan: Plan, strings: Strings, s: Slots) {
    && IsBrew(plan.kind) && s.drink == "" && s.detail == ""
    && plan.shapeKey.Some? && Template(u, strings, plan.shapeKey.value).None?
  }

  /** The flag of a sentence is what was planned, what was spoken, and whether the shape had to be left out. */
  lemma FlagIsExact(u: Unicode, plan: Plan, strings: Strings, en: Strings, ui: UiStrings, language: string)
    requires SoundPlan(plan) && Compose(u, plan, strings, en, ui, language).text.Some?
    ensures Compose(u, plan, strings, en, ui, language).complete <==>
            && plan.complete
            && AllSpoken(u, strings, plan.clauses)
            && !LacksShape(u, plan, strings, SlotsFor(u, plan, strings, en, ui))
  {
  }

  /** And the keys it reports missing are those of its clauses, and the shape when that had to be left out. */
  lemma MissingIsExact(u: Unicode, plan: Plan, strings: Strings, en: Strings, ui: UiStrings, language: string)
    requires SoundPlan(plan) && Compose(u, plan, strings, en, ui, language).text.Some?
    ensures Compose(u, plan, strings, en, ui, language).missing ==
            MissingKeys(u, strings, plan.clauses) +
            if LacksShape(u, plan, strings, SlotsFor(u, plan, strings, en, ui)) then {plan.shapeKey.value} else {}
  {
  }

  lemma EnglishIsComposed(u: Unicode, plan: Plan, maps: Maps)
    requires plan.heads != [] && Gaps(plan, maps.narration) != {}
    ensures RenderPlan(u, plan, "en", maps) == InEnglish(u, plan, maps)
  {
  }

  ghost predicate IsClauseKey(plan: Plan, k: Key) {
    exists c :: c in plan.clauses && c.key == k
  }

  /** Which gaps an English sentence reports: a missing planned key is named, and lowers the flag, exactly when it belongs
      to a clause; a missing head that is not spoken is never named. */
  lemma EnglishReportsClauseGaps(u: Unicode, plan: Plan, maps: Maps, k: Key)
    requires SoundPlan(plan) && maps.narration == maps.narrationEn && k in Gaps(plan, maps.narrationEn)
    requires RenderPlan(u, plan, "en", maps).text.Some?
    ensures var r := RenderPlan(u, plan, "en", maps);
            && (k in r.missing <==> IsClauseKey(plan, k))
            && (IsClauseKey(plan, k) ==> !r.complete)
            && (!IsClauseKey(plan, k) ==> k in plan.heads && r.key != Some(k))
  {
    EnglishIsComposed(u, plan, maps);
    GapIsReportedIff(u, plan, maps.narrationEn, maps.uiEn, k);
  }

  lemma GapIsReportedIff(u: Unicode, plan: Plan, en: Strings, ui: UiStrings, k: Key)
    requires SoundPlan(plan) && k in Gaps(plan, en) && Compose(u, plan, en, en, ui, "en").text.Some?
    ensures var r := Compose(u, plan, en, en, ui, "en");
            && (k in r.missing <==> IsClauseKey(plan, k))
            && (IsClauseKey(plan, k) ==> !r.complete)
            && (!IsClauseKey(plan, k) ==> k in plan.heads && r.key != Some(k))
  {
    assert IsHeadKey(k) || IsDetailKey(k);
    FlagIsExact(u, plan, en, en, ui, "en");
    MissingIsExact(u, plan, en, en, ui, "en");
    AbsentKey(u, plan, en, k);
  }

  lemma AbsentKey(u: Unicode, plan: Plan, strings: Strings, k: Key)
    requires k !in strings
    ensures k in MissingKeys(u, strings, plan.clauses) <==> IsClauseKey(plan, k)
    ensures IsClauseKey(plan, k) ==> !AllSpoken(u, strings, plan.clauses)
  {
    if c :| c in plan.clauses && c.key == k {
      assert Template(u, strings, c.key).None? && !Speaks(u, strings, c);
    }
  }

  lemma {:induction false} OtherKeyOtherTexts(u: Unicode, strings: Strings, clauses: seq<Clause>, k: Key, x: string)
    requires forall c | c in clauses :: c.key != k
    ensures Texts(u, strings[k := x], clauses) == Texts(u, strings, clauses)
  {
    if clauses != [] {
      assert clauses[|clauses| - 1] in clauses;
      OtherKeyOtherTexts(u, strings, clauses[..|clauses| - 1], k, x);
    }
  }

  lemma {:induction false} HeadIsNoDrink(nameKeys: seq<string>, strings: Strings, ui: UiStrings, k: Key, x: string)
    requires IsHeadKey(k)
    ensures Candidates(nameKeys, strings[k := x], strings[k := x], ui) == Candidates(nameKeys, strings, strings, ui)
  {
    if nameKeys != [] {
      HeadIsNoDrink(nameKeys[..|nameKeys| - 1], strings, ui, k, x);
    }
  }

  lemma SameSlots(u: Unicode, plan: Plan, en: Strings, ui: UiStrings, k: Key, x: string)
    requires SoundPlan(plan) && IsHeadKey(k)
    ensures SlotsFor(u, plan, en[k := x], en[k := x], ui) == SlotsFor(u, plan, en, en, ui)
    ensures AllSpoken(u, en[k := x], plan.clauses) == AllSpoken(u, en, plan.clauses)
    ensures MissingKeys(u, en[k := x], plan.clauses) == MissingKeys(u, en, plan.clauses)
  {
    OtherKeyOtherTexts(u, en, plan.clauses, k, x);
    HeadIsNoDrink(plan.nameKeys, en, ui, k, x);
    forall c | c in plan.clauses
      ensures Speaks(u, en[k := x], c) == Speaks(u, en, c)
      ensures Template(u, en[k := x], c.key) == Template(u, en, c.key)
    {
    }
  }

  /** And the gaps that go unreported cost nothing: had the unspoken head been there, with any text, the result would be
      the same. */
  lemma UnreportedGapsAreHarmless(u: Unicode, plan: Plan, en: Strings, ui: UiStrings, k: Key, x: string)
    requires SoundPlan(plan) && k in plan.heads && k !in en && Compose(u, plan, en, en, ui, "en").text.Some?
    ensures Compose(u, plan, en[k := x], en[k := x], ui, "en") == Compose(u, plan, en, en, ui, "en")
  {
    SameSlots(u, plan, en, ui, k, x);
    SameHead(u, plan, en, k, x, SlotsFor(u, plan, en, en, ui));
  }

  lemma SameHead(u: Unicode, plan: Plan, en: Strings, k: Key, x: string, s: Slots)
    requires SoundPlan(plan) && IsHeadKey(k) && k !in en && Template(u, en, ChooseHead(u, plan, en, s).0).Some?
    ensures ChooseHead(u, plan, en[k := x], s) == ChooseHead(u, plan, en, s)
    ensures Template(u, en[k := x], ChooseHead(u, plan, en, s).0) == Template(u, en, ChooseHead(u, plan, en, s).0)
  {
    if plan.shapeKey.Some? {
      assert Template(u, en[k := x], plan.shapeKey.value) == Template(u, en, plan.shapeKey.value);
    }
  }

  // ----- the drink name -----

  /** Three candidates per key, the payload's own key first: the locale's spoken name, the English one, the UI label. */
  lemma {:induction false} CandidatesAreChained(
      nameKeys: seq<string>, strings: Strings, en: Strings, ui: UiStrings, k: nat)
    requires k < |nameKeys|
    ensures var c := Candidates(nameKeys, strings, en, ui);
            && |c| == 3 * |nameKeys|
            && c[3 * k] == Lookup(strings, DrinkName(nameKeys[k]))
            && c[3 * k + 1] == Lookup(en, DrinkName(nameKeys[k]))
            && c[3 * k + 2] == Lookup(ui, RecipeName(nameKeys[k]))
  {
    var most := nameKeys[..|nameKeys| - 1];
    if k < |most| {
      CandidatesAreChained(most, strings, en, ui, k);
    } else if most != [] {
      CandidatesAreChained(most, strings, en, ui, 0);
    }
  }

  // ----- filled slots -----

  lemma {:induction false} TextsAreFilled(u: Unicode, strings: Strings, clauses: seq<Clause>)
    ensures forall t | t in Texts(u, strings, clauses) :: t != ""
  {
    if clauses != [] {
      TextsAreFilled(u, strings, clauses[..|clauses| - 1]);
    }
  }

  /** Which head fits the slots: the most telling one whose slots all hold something, and a shape sentence only for a
      finished brew of which nothing else is known and whose language has it. */
  predicate HeadFits(u: Unicode, plan: Plan, strings: Strings, head: Key, s: Slots) {
    var finished, shaped :=
      plan.kind == BrewFinished, plan.shapeKey.Some? && Template(u, strings, plan.shapeKey.value).Some?;
    && (IsBrew(plan.kind) ==>
          && (head.NamedDetail? <==> finished && s.drink != "" && s.detail != "")
          && (head.Named? <==> s.drink != "" && !(finished && s.detail != ""))
          && (head.UnnamedDetail? <==> finished && s.drink == "" && s.detail != "")
          && (head.ShapeSentence? <==> finished && s.drink == "" && s.detail == "" && shaped)
          && (head.ShapeSentence? ==> Some(head) == plan.shapeKey)
          && (head.Unnamed? <==> s.drink == "" && !(finished && (s.detail != "" || shaped))))
    && (plan.kind == Raised ==>
          (head.PromptRaised? <==> s.prompt != "") && (head.PromptGeneric? <==> s.prompt == ""))
    && (!IsBrew(plan.kind) && plan.kind != Raised ==> head.PromptCleared? || head.MaintenanceFinished?)
  }

  lemma ChosenHead(u: Unicode, plan: Plan, strings: Strings, s: Slots)
    requires SoundPlan(plan)
    ensures HeadFits(u, plan, strings, ChooseHead(u, plan, strings, s).0, s)
  {
  }

  /** A sentence is spoken with the one head that fits what is known of the drink, the details and the prompt. */
  lemma HeadSlotsAreFilled(u: Unicode, plan: Plan, strings: Strings, en: Strings, ui: UiStrings, language: string)
    requires SoundPlan(plan)
    requires Compose(u, plan, strings, en, ui, language).text.Some?
    ensures HeadFits(u, plan, strings, Compose(u, plan, strings, en, ui, language).key.value,
                     SlotsFor(u, plan, strings, en, ui))
  {
    ChosenHead(u, plan, strings, SlotsFor(u, plan, strings, en, ui));
  }

  // ----- completeness -----

  lemma {:induction false} AllTextsSpoken(u: Unicode, strings: Strings, clauses: seq<Clause>)
    requires AllSpoken(u, strings, clauses)
    ensures |Texts(u, strings, clauses)| == |clauses|
  {
    if clauses != [] {
      var most, last := clauses[..|clauses| - 1], clauses[|clauses| - 1];
      assert last in clauses && forall c | c in most :: c in clauses;
      AllTextsSpoken(u, strings, most);
    }
  }

  /** The maps a sentence was composed from. */
  function MapUsed(u: Unicode, plan: Plan, language: string, maps: Maps): Strings
    requires plan.heads != []
  {
    if InLocale(u, plan, maps, language).text.Some? then maps.narration else maps.narrationEn
  }

  function UiUsed(u: Unicode, plan: Plan, language: string, maps: Maps): UiStrings
    requires plan.heads != []
  {
    if InLocale(u, plan, maps, language).text.Some? then maps.ui else maps.uiEn
  }

  /** With a text, the sentence is the composition from the maps used. */
  lemma SentenceIsComposed(u: Unicode, plan: Plan, language: string, maps: Maps)
    requires plan.heads != [] && RenderPlan(u, plan, language, maps).text.Some?
    ensures var r := RenderPlan(u, plan, language, maps);
            var used, ui := MapUsed(u, plan, language, maps), UiUsed(u, plan, language, maps);
            var composed := Compose(u, plan, used, maps.narrationEn, ui, r.language);
            composed.text == r.text && composed.key == r.key
  {
  }

  lemma CompleteIsSpoken(u: Unicode, plan: Plan, language: string, maps: Maps)
    requires plan.heads != [] && RenderPlan(u, plan, language, maps).complete
    ensures var r, used := RenderPlan(u, plan, language, maps), MapUsed(u, plan, language, maps);
            r.missing == {} && r.language == language && plan.complete && AllSpoken(u, used, plan.clauses)
  {
  }

  // ----- no braces -----

  ghost predicate AllWellFormed(strings: Strings) {
    forall key | key in strings :: WellFormed(strings[key])
  }

  lemma {:induction false} OneSpacedKeepsBraces(s: string)
    ensures BraceFree(OneSpaced(s)) <==> BraceFree(s)
    decreases |s|
  {
    if |s| > 1 {
      OneSpacedKeepsBraces(s[1..]);
      assert s == [s[0]] + s[1..];
    }
  }

  /** Stripping whitespace removes no brace. */
  lemma StripKeepsBraces(u: Unicode, s: string)
    requires !u.space('{') && !u.space('}')
    ensures BraceFree(Strip(s, u.space)) <==> BraceFree(s)
  {
    var n := Leading(s, u.space);
    LeadingIsDropped(s, u.space);
    var rest := s[n..];
    TrailingIsDropped(rest, u.space);
    SpacesHoldNoBrace(u, s, 0, n);
    SpacesHoldNoBrace(u, rest, |rest| - Trailing(rest, u.space), |rest|);
    BraceFreeParts(s, n);
    BraceFreeParts(rest, |rest| - Trailing(rest, u.space));
  }

  lemma SpacesHoldNoBrace(u: Unicode, s: string, a: nat, b: nat)
    requires !u.space('{') && !u.space('}')
    requires a <= b <= |s| && forall k | a <= k < b :: u.space(s[k])
    ensures BraceFree(s[a..b])
  {
  }

  lemma BraceFreeParts(s: string, n: nat)
    requires n <= |s|
    ensures BraceFree(s) <==> BraceFree(s[..n]) && BraceFree(s[n..])
  {
    assert s == s[..n] + s[n..];
  }

  lemma {:induction false} JoinedIsBraceFree(texts: seq<string>)
    requires forall t | t in texts :: BraceFree(t)
    ensures BraceFree(Joined(texts, SEPARATOR))
  {
    if |texts| > 1 {
      JoinedIsBraceFree(texts[1..]);
      assert texts[0] in texts && BraceFree(SEPARATOR);
      assert BraceFree(texts[0] + SEPARATOR);
    } else if |texts| == 1 {
      assert texts[0] in texts;
    }
  }

  lemma {:induction false} TextsAreBraceFree(u: Unicode, strings: Strings, clauses: seq<Clause>)
    requires AllWellFormed(strings) && SafeClauses(clauses) && !u.space('{') && !u.space('}')
    ensures forall t | t in Texts(u, strings, clauses) :: BraceFree(t)
  {
    if clauses != [] {
      var last := clauses[|clauses| - 1];
      TextsAreBraceFree(u, strings, clauses[..|clauses| - 1]);
      if last.key in strings {
        BraceFreeIffWellFormed(strings[last.key], last.values);
        StripKeepsBraces(u, Substitute(strings[last.key], last.values));
      }
    }
  }

  lemma SoundIsBraceFree(u: Unicode, candidate: Option<string>)
    requires Sane(u)
    ensures BraceFree(Sound(u, candidate))
  {
    if candidate.Some? {
      SpeakableIsBraceFree(u, JText(candidate.value), MAX_FREE_TEXT);
    }
  }

  lemma DetailIsBraceFree(u: Unicode, plan: Plan, strings: Strings)
    requires !u.space('{') && !u.space('}') && AllWellFormed(strings) && SafeClauses(plan.clauses)
    ensures BraceFree(Detail(u, plan, strings))
  {
    TextsAreBraceFree(u, strings, plan.clauses);
    JoinedIsBraceFree(Texts(u, strings, plan.clauses));
  }

  lemma DrinkIsBraceFree(u: Unicode, plan: Plan, strings: Strings, en: Strings, ui: UiStrings)
    requires Sane(u) && BraceFree(plan.freeName)
    ensures BraceFree(ResolveDrink(u, plan, strings, en, ui))
  {
    var candidates := Candidates(plan.nameKeys, strings, en, ui);
    forall i | 0 <= i < |candidates| ensures BraceFree(Sounds(u, candidates)[i]) {
      SoundIsBraceFree(u, candidates[i]);
    }
  }

  lemma PromptIsBraceFree(u: Unicode, plan: Plan, strings: Strings, en: Strings, ui: UiStrings)
    requires Sane(u)
    ensures BraceFree(SlotsFor(u, plan, strings, en, ui).prompt)
  {
    if plan.promptKey.Some? && Manipulation(plan.promptKey.value) in ui {
      SpeakableIsBraceFree(u, JText(ui[Manipulation(plan.promptKey.value)]), MAX_LABEL);
    }
  }

  /** Whatever the names and the labels contain, no slot of a head holds a brace. */
  lemma SlotsAreBraceFree(u: Unicode, plan: Plan, strings: Strings, en: Strings, ui: UiStrings)
    requires Sane(u) && !u.space('{') && !u.space('}') && AllWellFormed(strings) && SoundPlan(plan)
    ensures var s := SlotsFor(u, plan, strings, en, ui);
            BraceFree(s.drink) && BraceFree(s.detail) && BraceFree(s.prompt)
  {
    DetailIsBraceFree(u, plan, strings);
    DrinkIsBraceFree(u, plan, strings, en, ui);
    PromptIsBraceFree(u, plan, strings, en, ui);
  }

  /** The brace test of a composed sentence fails exactly for a head template that is not well formed; with templates
      whose braces all belong to placeholders it never fires, whatever the user text. */
  lemma BraceTestIsExact(u: Unicode, plan: Plan, strings: Strings, en: Strings, ui: UiStrings, template: string)
    requires Sane(u) && !u.space('{') && !u.space('}') && AllWellFormed(strings) && SoundPlan(plan)
    ensures BraceFree(Sentence(u, template, Values(plan, SlotsFor(u, plan, strings, en, ui)))) <==> WellFormed(template)
  {
    var values := Values(plan, SlotsFor(u, plan, strings, en, ui));
    SlotsAreBraceFree(u, plan, strings, en, ui);
    BraceFreeIffWellFormed(template, values);
    OneSpacedKeepsBraces(Substitute(template, values));
    StripKeepsBraces(u, OneSpaced(Substitute(template, values)));
  }

  /** So with well-formed templates a sentence fails only for a head that is missing or comes out blank. */
  lemma OnlyTheHeadCanFail(u: Unicode, plan: Plan, strings: Strings, en: Strings, ui: UiStrings, language: string)
    requires Sane(u) && !u.space('{') && !u.space('}') && AllWellFormed(strings) && SoundPlan(plan)
    ensures var s := SlotsFor(u, plan, strings, en, ui);
            var head := ChooseHead(u, plan, strings, s).0;
            Compose(u, plan, strings, en, ui, language).text.None? <==>
            Template(u, strings, head).None? || Sentence(u, strings[head], Values(plan, s)) == ""
  {
    var s := SlotsFor(u, plan, strings, en, ui);
    var head := ChooseHead(u, plan, strings, s).0;
    if head in strings {
      BraceTestIsExact(u, plan, strings, en, ui, strings[head]);
    }
  }

  // ----- events -----

  /** The template of the chosen head is there and does not come out blank. */
  predicate HeadSpeaks(u: Unicode, plan: Plan, strings: Strings, en: Strings, ui: UiStrings)
    requires plan.heads != []
  {
    var s := SlotsFor(u, plan, strings, en, ui);
    var head := ChooseHead(u, plan, strings, s).0;
    Template(u, strings, head).Some? && Sentence(u, strings[head], Values(plan, s)) != ""
  }

  lemma EventPlansAreSound(u: Unicode, payload: Payload, eventType: Json)
    requires Sane(u) && Planned(u, payload, eventType).Some?
    ensures SoundPlan(Planned(u, payload, eventType).value)
  {
    PlansAreSound(u, payload, KindOf(EventKind(payload, eventType).value).value);
  }

  /** With well-formed templates, an event gets no sentence exactly when it has no plan, or neither its locale, complete in
      the planned keys, nor English has a head to say: whatever the payload and the names in it. */
  lemma EventIsSilentIff(u: Unicode, payload: Payload, eventType: Json, locale: string, maps: Maps)
    requires Sane(u) && !u.space('{') && !u.space('}')
    requires AllWellFormed(maps.narration) && AllWellFormed(maps.narrationEn)
    ensures var plan := Planned(u, payload, eventType);
            Render(u, payload, eventType, locale, maps).text.None? <==>
            || plan.None?
            || (&& !(Gaps(plan.value, maps.narration) == {} &&
                     HeadSpeaks(u, plan.value, maps.narration, maps.narrationEn, maps.ui))
                && !HeadSpeaks(u, plan.value, maps.narrationEn, maps.narrationEn, maps.uiEn))
  {
    if Planned(u, payload, eventType).Some? {
      var plan := Planned(u, payload, eventType).value;
      EventPlansAreSound(u, payload, eventType);
      PlanIsSilentIff(u, plan, Language(locale), maps);
    }
  }

  lemma PlanIsSilentIff(u: Unicode, plan: Plan, language: string, maps: Maps)
    requires Sane(u) && !u.space('{') && !u.space('}') && SoundPlan(plan)
    requires AllWellFormed(maps.narration) && AllWellFormed(maps.narrationEn)
    ensures RenderPlan(u, plan, language, maps).text.None? <==>
            && !(Gaps(plan, maps.narration) == {} && HeadSpeaks(u, plan, maps.narration, maps.narrationEn, maps.ui))
            && !HeadSpeaks(u, plan, maps.narrationEn, maps.narrationEn, maps.uiEn)
  {
    OnlyTheHeadCanFail(u, plan, maps.narration, maps.narrationEn, maps.ui, language);
    OnlyTheHeadCanFail(u, plan, maps.narrationEn, maps.narrationEn, maps.uiEn, "en");
  }

  /** The sentence of an event labelled with a language other than English is that language's own. */
  lemma EventsNeverSwitchCode(
      u: Unicode, payload: Payload, eventType: Json, locale: string, maps: Maps, en: Strings, uiEn: UiStrings)
    requires Language(locale) != "en" && SameDrinks(maps.narrationEn, en)
    requires var r := Render(u, payload, eventType, locale, maps); r.text.Some? && r.language != "en"
    ensures var r, plan := Render(u, payload, eventType, locale, maps), Planned(u, payload, eventType);
            && r.language == Language(locale)
            && plan.Some? && PlannedKeys(plan.value) <= maps.narration.Keys
            && r.key.Some? && r.key.value in maps.narration
            && r == Render(u, payload, eventType, locale, maps.(narrationEn := en, uiEn := uiEn))
  {
    NoCodeSwitching(u, Planned(u, payload, eventType).value, Language(locale), maps, en, uiEn);
  }
}
