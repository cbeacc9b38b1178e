/** Composition of a planned sentence in one language, and the whole-sentence fallback to English. */
module Narration {
  import opened Prelude
  import opened FreeText
  import opened NarrationText
  import opened NarrationPlan

  const SEPARATOR := ", "
  const MAX_LABEL := 80

  type Strings = map<Key, string>

  datatype UiKey = RecipeName(key: string) | Manipulation(token: string)
  type UiStrings = map<UiKey, string>

  datatype Result = Result(text: Option<string>, key: Option<Key>, language: string, complete: bool, missing: set<Key>)

  const NO_NARRATION := Result(None, None, "", false, {})

  // ----- clauses -----

  /** A string at the key that is not blank. */
  function Template(u: Unicode, strings: Strings, key: Key): Option<string> {
    if key in strings && Strip(strings[key], u.space) != "" then Some(strings[key]) else None
  }

  function ClauseText(u: Unicode, strings: Strings, clause: Clause): string
    requires Template(u, strings, clause.key).Some?
  {
    Strip(Substitute(strings[clause.key], clause.values), u.space)
  }

  function Texts(u: Unicode, strings: Strings, clauses: seq<Clause>): seq<string> {
    if clauses == [] then []
    else
      var last := clauses[|clauses| - 1];
      Texts(u, strings, clauses[..|clauses| - 1]) +
      if Template(u, strings, last.key).Some? && ClauseText(u, strings, last) != "" then [ClauseText(u, strings, last)]
      else []
  }

  function MissingKeys(u: Unicode, strings: Strings, clauses: seq<Clause>): set<Key> {
    set c | c in clauses && Template(u, strings, c.key).None? :: c.key
  }

  predicate AllSpoken(u: Unicode, strings: Strings, clauses: seq<Clause>) {
    forall c | c in clauses :: Speaks(u, strings, c)
  }

  predicate Speaks(u: Unicode, strings: Strings, clause: Clause) {
    Template(u, strings, clause.key).Some? && ClauseText(u, strings, clause) != ""
  }

  function Detail(u: Unicode, plan: Plan, strings: Strings): string {
    Joined(Texts(u, strings, plan.clauses), SEPARATOR)
  }

  // ----- the drink name -----

  function Lookup<K>(strings: map<K, string>, key: K): Option<string> {
    if key in strings then Some(strings[key]) else None
  }

  function Candidates(nameKeys: seq<string>, strings: Strings, en: Strings, ui: UiStrings): seq<Option<string>> {
    if nameKeys == [] then []
    else
      var most, key := nameKeys[..|nameKeys| - 1], nameKeys[|nameKeys| - 1];
      Candidates(most, strings, en, ui) +
      [Lookup(strings, DrinkName(key)), Lookup(en, DrinkName(key)), Lookup(ui, RecipeName(key))]
  }

  /** What a candidate sounds like; empty when it cannot be spoken. */
  function Sound(u: Unicode, candidate: Option<string>): string {
    if candidate.Some? && Strip(candidate.value, u.space) != "" then Speakable(u, JText(candidate.value), MAX_FREE_TEXT)
    else ""
  }

  function Sounds(u: Unicode, candidates: seq<Option<string>>): seq<string> {
    seq(|candidates|, i requires 0 <= i < |candidates| => Sound(u, candidates[i]))
  }

  function FirstNonEmpty(sounds: seq<string>): (r: string)
    ensures r == "" <==> forall i | 0 <= i < |sounds| :: sounds[i] == ""
    ensures r != "" ==> exists i :: 0 <= i < |sounds| && sounds[i] == r && forall j | 0 <= j < i :: sounds[j] == ""
  {
    if sounds == [] then "" else if sounds[0] != "" then sounds[0] else FirstNonEmpty(sounds[1..])
  }

  /** The first candidate that can be spoken, else the free-text name. */
  function ResolveDrink(u: Unicode, plan: Plan, strings: Strings, en: Strings, ui: UiStrings): string {
    var spoken := FirstNonEmpty(Sounds(u, Candidates(plan.nameKeys, strings, en, ui)));
    if spoken != "" then spoken else plan.freeName
  }

  // ----- the head -----

  /** What the three slots of a head hold. */
  datatype Slots = Slots(drink: string, detail: string, prompt: string)

  function SlotsFor(u: Unicode, plan: Plan, strings: Strings, en: Strings, ui: UiStrings): Slots {
    var served := if plan.promptKey.Some? then Lookup(ui, Manipulation(plan.promptKey.value)) else None;
    Slots(
      if IsBrew(plan.kind) then ResolveDrink(u, plan, strings, en, ui) else "",
      Detail(u, plan, strings),
      if plan.kind == Raised && served.Some? then Speakable(u, JText(served.value), MAX_LABEL) else "")
  }

  function Values(plan: Plan, s: Slots): map<string, string> {
    if IsBrew(plan.kind) then map["detail" := s.detail, "drink" := s.drink]
    else if plan.kind == Raised then map["detail" := s.detail, "prompt" := s.prompt]
    else map["detail" := s.detail]
  }

  /** The head is chosen once the slots are known, so that none of its slots is empty; a missing shape sentence is
      reported and replaced by the plain unnamed head of the same language. */
  function ChooseHead(u: Unicode, plan: Plan, strings: Strings, s: Slots): (Key, set<Key>)
    requires plan.heads != []
  {
    if IsBrew(plan.kind) then
      var finished := plan.kind == BrewFinished;
      if s.drink != "" && s.detail != "" && finished then (NamedDetail, {})
      else if s.drink != "" then (Named(plan.kind), {})
      else if s.detail != "" && finished then (UnnamedDetail, {})
      else if plan.shapeKey.Some? then
        if Template(u, strings, plan.shapeKey.value).Some? then (plan.shapeKey.value, {})
        else (Unnamed(plan.kind), {plan.shapeKey.value})
      else (Unnamed(plan.kind), {})
    else if plan.kind == Raised then
      if s.prompt != "" then (PromptRaised, {}) else (PromptGeneric, {})
    else (plan.heads[0], {})
  }

  /** Runs of spaces become one. */
  function OneSpaced(s: string): string {
    if |s| <= 1 then s
    else if s[0] == ' ' && s[1] == ' ' then OneSpaced(s[1..])
    else [s[0]] + OneSpaced(s[1..])
  }

  function Sentence(u: Unicode, template: string, values: map<string, string>): string {
    Strip(OneSpaced(Substitute(template, values)), u.space)
  }

  function Compose(u: Unicode, plan: Plan, strings: Strings, en: Strings, ui: UiStrings, language: string): (r: Result)
    requires plan.heads != []
    ensures r.text.Some? || r == NO_NARRATION
    ensures r.text.Some? ==> r.language == language && r.key.Some? && Template(u, strings, r.key.value).Some?
  {
    var s := SlotsFor(u, plan, strings, en, ui);
    var (head, absent) := ChooseHead(u, plan, strings, s);
    var template := Template(u, strings, head);
    if template.None? then NO_NARRATION
    else
      var text := Sentence(u, template.value, Values(plan, s));
      if text == "" || !BraceFree(text) then NO_NARRATION
      else
        Result(
          Some(text), Some(head), language,
          plan.complete && AllSpoken(u, strings, plan.clauses) && absent == {},
          MissingKeys(u, strings, plan.clauses) + absent)
  }

  lemma OneMoreClause(u: Unicode, clauses: seq<Clause>, strings: Strings, c: Clause)
    ensures Texts(u, strings, clauses + [c]) ==
            Texts(u, strings, clauses) + if Speaks(u, strings, c) then [ClauseText(u, strings, c)] else []
    ensures MissingKeys(u, strings, clauses + [c]) ==
            MissingKeys(u, strings, clauses) + if Template(u, strings, c.key).None? then {c.key} else {}
    ensures AllSpoken(u, strings, clauses + [c]) <==> AllSpoken(u, strings, clauses) && Speaks(u, strings, c)
  {
    assert (clauses + [c])[..|clauses|] == clauses;
  }

  method SpeakClauses(u: Unicode, clauses: seq<Clause>, strings: Strings)
    returns (texts: seq<string>, missing: set<Key>, complete: bool)
    ensures texts == Texts(u, strings, clauses)
    ensures missing == MissingKeys(u, strings, clauses)
    ensures complete == AllSpoken(u, strings, clauses)
  {
    texts, missing, complete := [], {}, true;
    for i := 0 to |clauses|
      invariant texts == Texts(u, strings, clauses[..i])
      invariant missing == MissingKeys(u, strings, clauses[..i])
      invariant complete == AllSpoken(u, strings, clauses[..i])
    {
      var clause := clauses[i];
      assert clauses[..i + 1] == clauses[..i] + [clause];
      OneMoreClause(u, clauses[..i], strings, clause);
      if Template(u, strings, clause.key).None? {
        missing, complete := missing + {clause.key}, false;
        continue;
      }
      var text := ClauseText(u, strings, clause);
      if text == "" {
        complete := false;
        continue;
      }
      texts := texts + [text];
    }
    assert clauses[..|clauses|] == clauses;
  }

  method ComposeSentence(
      u: Unicode, plan: Plan, strings: Strings, en: Strings, ui: UiStrings, language: string) returns (r: Result)
    requires plan.heads != []
    ensures r == Compose(u, plan, strings, en, ui, language)
  {
    var texts, missing, complete := SpeakClauses(u, plan.clauses, strings);
    var s := SlotsFor(u, plan, strings, en, ui).(detail := Joined(texts, SEPARATOR));
    var (head, absent) := ChooseHead(u, plan, strings, s);
    var template := Template(u, strings, head);
    if template.None? {
      return NO_NARRATION;
    }
    var text := Sentence(u, template.value, Values(plan, s));
    if text == "" || !BraceFree(text) {
      return NO_NARRATION;
    }
    return Result(Some(text), Some(head), language, plan.complete && complete && absent == {}, missing + absent);
  }

  // ----- rendering -----

  predicate IsNamed(candidate: Json) {
    candidate.JText? && candidate.text != ""
  }

  function FirstText(candidates: seq<Json>): (r: Option<string>)
    ensures r.None? <==> forall i | 0 <= i < |candidates| :: !IsNamed(candidates[i])
    ensures r.Some? ==>
              exists i :: 0 <= i < |candidates| && IsNamed(candidates[i]) && candidates[i] == JText(r.value) &&
                          forall j | 0 <= j < i :: !IsNamed(candidates[j])
  {
    if candidates == [] then None
    else if candidates[0].JText? && candidates[0].text != "" then Some(candidates[0].text)
    else FirstText(candidates[1..])
  }

  function EventKind(payload: Payload, eventType: Json): Option<string> {
    FirstText([eventType, Get(payload, "type"), Get(payload, "kind")])
  }

  /** The plan of an event, when there is a sentence for it at all. */
  function Planned(u: Unicode, payload: Payload, eventType: Json): (plan: Option<Plan>)
    ensures plan.Some? ==> plan.value.heads != []
  {
    var name := EventKind(payload, eventType);
    var kind := if name.Some? then KindOf(name.value) else None;
    if kind.None? || PlanRaises(payload, kind.value) then None else PlanOf(u, payload, kind.value)
  }

  /** Every key the guard requires of a locale. */
  function PlannedKeys(plan: Plan): set<Key> {
    (set k | k in plan.heads) + (set c | c in plan.clauses :: c.key)
  }

  function Gaps(plan: Plan, strings: Strings): set<Key> {
    PlannedKeys(plan) - strings.Keys
  }

  datatype Maps = Maps(narration: Strings, narrationEn: Strings, ui: UiStrings, uiEn: UiStrings)

  function InLocale(u: Unicode, plan: Plan, maps: Maps, language: string): Result
    requires plan.heads != []
  {
    if Gaps(plan, maps.narration) != {} then NO_NARRATION
    else Compose(u, plan, maps.narration, maps.narrationEn, maps.ui, language)
  }

  function InEnglish(u: Unicode, plan: Plan, maps: Maps): Result
    requires plan.heads != []
  {
    Compose(u, plan, maps.narrationEn, maps.narrationEn, maps.uiEn, "en")
  }

  function Language(locale: string): string {
    if locale == "" then "en" else locale
  }

  /** A planned sentence: in the locale when that can say it, else in English and marked incomplete. */
  function RenderPlan(u: Unicode, plan: Plan, language: string, maps: Maps): Result
    requires plan.heads != []
  {
    var local := InLocale(u, plan, maps, language);
    if local.text.Some? then local
    else
      var english := InEnglish(u, plan, maps);
      if english.text.None? then NO_NARRATION
      else if language == "en" then english
      else
        var gaps := Gaps(plan, maps.narration);
        Result(english.text, english.key, "en", false, if gaps != {} then gaps else english.missing)
  }

  function Render(u: Unicode, payload: Payload, eventType: Json, locale: string, maps: Maps): Result {
    var plan := Planned(u, payload, eventType);
    if plan.None? then NO_NARRATION else RenderPlan(u, plan.value, Language(locale), maps)
  }
}
