/** What a plan is made of, read off the event payload: its clauses one by one, and where the name of the drink comes from. */
module NarrationFacts {
  import opened Prelude
  import opened Domain
  import opened FreeText
  import opened NarrationText
  import opened NarrationPlan
  import opened Narration
  import opened NarrationSafety
  import LifecycleSpec

  // ----- clauses -----

  predicate SaysPhase(payload: Payload, c: Clause) {
    var index, total := Get(payload, "phase_index"), Get(payload, "phase_total");
    && index.JInt? && total.JInt? && 2 <= total.number && 0 <= index.number < total.number
    && c == Clause(Phase, PhaseKey, map["n" := Decimal(index.number + 1), "m" := Decimal(total.number)])
  }

  /** The component of the clause's slot, with its amount when that can be said. */
  predicate SaysComponent(components: seq<Payload>, c: Clause) {
    && (c.slot == Component1 || c.slot == Component2)
    && var i := if c.slot == Component1 then 0 else 1;
    && i < |components|
    && var process, volume := Get(components[i], "process"), Volume(Get(components[i], "portion_ml"));
    && process.JText? && process.text in COMPONENT_TOKENS
    && if volume.Some? && 0 < volume.value <= MAX_ML
       then c == Clause(c.slot, ComponentWithAmount(process.text), map["volume" := Decimal(volume.value)])
       else c == Clause(c.slot, ComponentPlain(process.text), map[])
  }

  predicate SaysValue(components: seq<Payload>, c: Clause) {
    && c.key.ValueKey?
    && c == Clause(c.key.family, c.key, map[])
    && c.key.family in VALUE_SLOTS
    && IsPlanned(components, c.key.family, c.key.token)
  }

  predicate SaysTwoCups(payload: Payload, c: Clause) {
    c == Clause(TwoCups, TwoCupsKey, map[]) && Get(payload, "two_cups") == JBool(true)
  }

  predicate SaysProfile(u: Unicode, payload: Payload, c: Clause) {
    var profile := Speakable(u, Get(payload, "profile_name"), MAX_FREE_TEXT);
    profile != "" && c == Clause(Profile, ProfileKey, map["profile" := profile])
  }

  lemma PhaseIsExact(payload: Payload, c: Clause)
    ensures c in PhaseClauses(payload) <==> SaysPhase(payload, c)
  {
  }

  lemma ComponentIsExact(slot: Slot, component: Payload, c: Clause)
    requires slot == Component1 || slot == Component2
    ensures c in Opt(ComponentClause(slot, component).0) <==>
            c.slot == slot && SaysComponent(if slot == Component1 then [component] else [component, component], c)
  {
  }

  lemma ComponentsAreExact(components: seq<Payload>, c: Clause)
    ensures c in ComponentClauses(components) <==> SaysComponent(components, c)
  {
    if |components| > 0 {
      ComponentIsExact(Component1, components[0], c);
    }
    if |components| > 1 {
      ComponentIsExact(Component2, components[1], c);
    }
  }

  lemma OneValueIsExact(components: seq<Payload>, family: Slot, c: Clause)
    ensures c in ValueClause(components, family) <==>
            && c.key.ValueKey? && c.key.family == family && c == Clause(family, c.key, map[])
            && IsPlanned(components, family, c.key.token)
  {
  }

  lemma {:induction false} ValuesAreExact(components: seq<Payload>, n: nat, c: Clause)
    requires n <= |VALUE_SLOTS|
    ensures c in ValueClauses(components, n) <==>
            && c.key.ValueKey? && 3 <= Rank(c.key.family) < 3 + n && c == Clause(c.key.family, c.key, map[])
            && IsPlanned(components, c.key.family, c.key.token)
  {
    if n > 0 {
      ValuesAreExact(components, n - 1, c);
      SlotRank(n);
      OneValueIsExact(components, VALUE_SLOTS[n - 1], c);
      InEither(ValueClauses(components, n - 1), ValueClause(components, VALUE_SLOTS[n - 1]), c);
    }
  }

  lemma InEither(a: seq<Clause>, b: seq<Clause>, c: Clause)
    ensures c in a + b <==> c in a || c in b
  {
  }

  lemma ValueRanks(family: Slot)
    ensures family in VALUE_SLOTS <==> 3 <= Rank(family) < 8
  {
    assert VALUE_SLOTS[0] == Intensity && VALUE_SLOTS[1] == Aroma && VALUE_SLOTS[2] == Temperature;
    assert VALUE_SLOTS[3] == Shots && VALUE_SLOTS[4] == Blend;
  }

  lemma TailIsExact(u: Unicode, payload: Payload, c: Clause)
    ensures c in TailClauses(payload, ProfileName(u, payload)) <==> SaysTwoCups(payload, c) || SaysProfile(u, payload, c)
  {
  }

  /** The clauses of a finished brew are exactly these: the phase of a drink in several, the first two components with what
      can be said of their amounts, the first stated value of each family when it is known, two cups, and the profile. */
  lemma ClausesAreExact(u: Unicode, payload: Payload, c: Clause)
    ensures c in AllClauses(u, payload) <==>
            || SaysPhase(payload, c)
            || SaysComponent(Components(payload), c)
            || SaysValue(Components(payload), c)
            || SaysTwoCups(payload, c)
            || SaysProfile(u, payload, c)
  {
    var components := Components(payload);
    var phase, parts, values := PhaseClauses(payload), ComponentClauses(components), ValueClauses(components, 5);
    PhaseIsExact(payload, c);
    ComponentsAreExact(components, c);
    ValuesAreExact(components, 5, c);
    if c.key.ValueKey? {
      ValueRanks(c.key.family);
    }
    TailIsExact(u, payload, c);
    InEither(phase, parts, c);
    InEither(phase + parts, values, c);
    InEither(phase + parts + values, TailClauses(payload, ProfileName(u, payload)), c);
  }

  // ----- completeness -----

  /** Everything of a component can be said: its process is known and its amount, when it has one, is not out of range. */
  predicate CanBeSaid(component: Payload) {
    var process, volume := Get(component, "process"), Volume(Get(component, "portion_ml"));
    process.JText? && process.text in COMPONENT_TOKENS && (volume.Some? ==> volume.value <= MAX_ML)
  }

  predicate ValueCanBeSaid(components: seq<Payload>, family: Slot) {
    var token := ValueToken(components, family);
    token.Some? ==> token.value in FamilyTokens(family)
  }

  /** A finished brew is planned as complete exactly when it has at most two components and six clauses, all of each
      component can be said, and the value of each family that states one is known. */
  lemma PlanIsCompleteIff(u: Unicode, payload: Payload)
    ensures BrewPlan(u, payload, BrewFinished).complete <==>
            && |AllClauses(u, payload)| <= 6
            && |Components(payload)| <= 2
            && (forall component | component in Components(payload) :: CanBeSaid(component))
            && (forall family | family in VALUE_SLOTS :: ValueCanBeSaid(Components(payload), family))
  {
    var components := Components(payload);
    ComponentsCanBeSaid(components);
    ValuesCanBeSaid(components);
  }

  lemma OneCanBeSaid(slot: Slot, component: Payload)
    ensures ComponentClause(slot, component).1 <==> CanBeSaid(component)
  {
  }

  lemma ComponentsCanBeSaid(components: seq<Payload>)
    ensures |components| <= 2 ==>
              ((forall component | component in components :: CanBeSaid(component)) <==>
               (|components| > 0 ==> ComponentClause(Component1, components[0]).1) &&
               (|components| > 1 ==> ComponentClause(Component2, components[1]).1))
  {
    if |components| > 0 {
      OneCanBeSaid(Component1, components[0]);
    }
    if |components| > 1 {
      OneCanBeSaid(Component2, components[1]);
    }
  }

  lemma {:induction false} KnownUpTo(components: seq<Payload>, n: nat)
    requires n <= |VALUE_SLOTS|
    ensures ValuesKnown(components, n) <==>
            forall family | 3 <= Rank(family) < 3 + n :: ValueCanBeSaid(components, family)
  {
    if n > 0 {
      KnownUpTo(components, n - 1);
      SlotRank(n);
      forall family | 3 <= Rank(family) < 3 + n ensures Rank(family) < 2 + n || family == VALUE_SLOTS[n - 1] {
      }
    }
  }

  lemma ValuesCanBeSaid(components: seq<Payload>)
    ensures ValuesKnown(components, 5) <==> forall family | family in VALUE_SLOTS :: ValueCanBeSaid(components, family)
  {
    KnownUpTo(components, 5);
    forall family: Slot ensures family in VALUE_SLOTS <==> 3 <= Rank(family) < 8 {
      ValueRanks(family);
    }
  }

  /** A volume is the number the payload gives, a fraction rounded to the nearest whole millilitre with halves to even. */
  lemma VolumeIsNearest(value: Json, n: int)
    requires Volume(value) == Some(n)
    ensures value == JInt(n) ||
            (value.JFloat? && n as real - 0.5 <= value.fraction <= n as real + 0.5 &&
             (value.fraction == n as real + 0.5 || value.fraction == n as real - 0.5 ==> n % 2 == 0))
  {
  }

  lemma NumbersHaveVolume(value: Json)
    ensures Volume(value).Some? <==> value.JInt? || value.JFloat?
  {
  }

  // ----- which events are planned, and in which language they are told -----

  /** The kind of an event is that of its type; the payload is asked only when there is none. */
  lemma EventTypeComesFirst(payload: Payload, eventType: Json)
    ensures IsNamed(eventType) ==> EventKind(payload, eventType) == Some(eventType.text)
    ensures !IsNamed(eventType) && IsNamed(Get(payload, "type")) ==>
              EventKind(payload, eventType) == Some(Get(payload, "type").text)
    ensures !IsNamed(eventType) && !IsNamed(Get(payload, "type")) ==>
              EventKind(payload, eventType) ==
              if IsNamed(Get(payload, "kind")) then Some(Get(payload, "kind").text) else None
  {
    var candidates := [eventType, Get(payload, "type"), Get(payload, "kind")];
    assert IsNamed(candidates[0]) || IsNamed(candidates[1]) || IsNamed(candidates[2]) ==> FirstText(candidates).Some?;
    if FirstText(candidates).Some? {
      var i :| 0 <= i < |candidates| && IsNamed(candidates[i]) &&
               candidates[i] == JText(FirstText(candidates).value) &&
               forall j | 0 <= j < i :: !IsNamed(candidates[j]);
      assert i == 0 || !IsNamed(candidates[0]);
      assert i <= 1 || !IsNamed(candidates[1]);
    }
  }

  /** An event has a plan exactly when its kind is known, a finished procedure is one with a sentence, and a finished brew
      lists no component whose process cannot even be looked up. */
  lemma PlannedIff(u: Unicode, payload: Payload, eventType: Json)
    ensures var name := EventKind(payload, eventType);
            Planned(u, payload, eventType).Some? <==>
            && name.Some? && KindOf(name.value).Some?
            && (KindOf(name.value) == Some(Maintained) ==>
                  exists token :: token in MAINTENANCE_TOKENS && Get(payload, "process") == JText(token))
            && (KindOf(name.value) == Some(BrewFinished) ==>
                  forall item | item in ListItems(Get(payload, "components")) && item.JDict? ::
                    !Get(item.entries, "process").JList? && !Get(item.entries, "process").JDict?)
  {
    var process := Get(payload, "process");
    if process.JText? {
      assert process == JText(process.text);
    }
  }

  /** A raised prompt is asked for by its own token, unless that is blank or says there is none. */
  lemma PromptIsAskedFor(u: Unicode, payload: Payload, token: string)
    ensures var plan := PlanOf(u, payload, Raised);
            && plan.Some?
            && (plan.value.promptKey == Some(token) <==>
                  Get(payload, "prompt") == JText(token) && token != "" && token != "NONE")
  {
  }

  /** The shape sentence is asked for exactly for a finished brew whose shape is known. */
  lemma ShapeIsAskedFor(payload: Payload, kind: Kind, token: string)
    ensures ShapeKey(payload, kind) == Some(ShapeSentence(token)) <==>
            kind == BrewFinished && Get(payload, "shape") == JText(token) && token in SHAPE_TOKENS
  {
  }

  /** An event is told in the locale of the home whenever that has every planned key and can compose the sentence; a home
      without a locale is told English. */
  lemma LocaleIsSpoken(u: Unicode, payload: Payload, eventType: Json, locale: string, maps: Maps)
    requires Planned(u, payload, eventType).Some?
    ensures var plan := Planned(u, payload, eventType).value;
            var own := if locale == "" then "en" else locale;
            var composed := Compose(u, plan, maps.narration, maps.narrationEn, maps.ui, own);
            Gaps(plan, maps.narration) == {} && composed.text.Some? ==>
              Render(u, payload, eventType, locale, maps) == composed && composed.language == own
  {
  }

  /** A template of whitespace only is as good as none. */
  lemma BlankIsMissing(u: Unicode, strings: Strings, key: Key)
    ensures Template(u, strings, key).Some? <==> key in strings && exists c | c in strings[key] :: !u.space(c)
  {
    if key in strings {
      StrippedIsBlankIff(strings[key], u.space);
    }
  }

  lemma StrippedIsBlankIff(s: string, drop: char -> bool)
    ensures Strip(s, drop) != "" <==> exists c | c in s :: !drop(c)
  {
    LeadingIsDropped(s, drop);
    var n := Leading(s, drop);
    if n < |s| {
      var rest := s[n..];
      assert rest[0] == s[n] && s[n] in s;
      TrailingIsDropped(rest, drop);
      assert Trailing(rest, drop) < |rest|;
    }
  }

  // ----- components -----

  /** The components are the items with a process that is said aloud, in the order of the payload. */
  lemma {:induction false} SpokenIsExact(items: seq<Json>, component: Payload)
    ensures component in Spoken(items) <==>
            JDict(component) in items && Get(component, "process") !in {JNull, JText("none")}
  {
    if items != [] {
      SpokenIsExact(items[1..], component);
      assert items == [items[0]] + items[1..];
    }
  }

  lemma {:induction false} SpokenJoins(a: seq<Json>, b: seq<Json>)
    ensures Spoken(a + b) == Spoken(a) + Spoken(b)
  {
    if a == [] {
      assert a + b == b;
    } else {
      var whole, rest := a + b, a[1..];
      assert whole[1..] == rest + b && whole[0] == a[0];
      SpokenJoins(rest, b);
      var first := if IsSpoken(a[0]) then [a[0].entries] else [];
      assert first + (Spoken(rest) + Spoken(b)) == (first + Spoken(rest)) + Spoken(b);
    }
  }

  // ----- the name of the drink -----

  /** The first candidate that can be spoken is the drink, and the free text only when there is none. */
  lemma FirstSoundIsTheDrink(u: Unicode, plan: Plan, strings: Strings, en: Strings, ui: UiStrings)
    ensures var c, drink := Candidates(plan.nameKeys, strings, en, ui), ResolveDrink(u, plan, strings, en, ui);
            && (forall k | 0 <= k < |c| && Sound(u, c[k]) != "" && (forall j | 0 <= j < k :: Sound(u, c[j]) == "") ::
                  drink == Sound(u, c[k]))
            && ((forall k | 0 <= k < |c| :: Sound(u, c[k]) == "") ==> drink == plan.freeName)
  {
    var c := Candidates(plan.nameKeys, strings, en, ui);
    assert forall k | 0 <= k < |c| :: Sounds(u, c)[k] == Sound(u, c[k]);
  }

  lemma RecipeKeyComesFirst(payload: Payload, key: string)
    requires Get(payload, "recipe_key") == JText(key) && key != ""
    ensures NameKeys(payload) != [] && NameKeys(payload)[0] == key
  {
  }

  /** With a recipe key the drink is called what the locale calls that recipe, else what English does, else the title of
      the user interface; the typed name is used when the key is not there or no candidate can be spoken. */
  lemma RecipeNamesTheDrink(u: Unicode, plan: Plan, strings: Strings, en: Strings, ui: UiStrings)
    requires plan.nameKeys != []
    ensures var key, drink := plan.nameKeys[0], ResolveDrink(u, plan, strings, en, ui);
            var own, english, title :=
              Sound(u, Lookup(strings, DrinkName(key))), Sound(u, Lookup(en, DrinkName(key))),
              Sound(u, Lookup(ui, RecipeName(key)));
            && (own != "" ==> drink == own)
            && (own == "" && english != "" ==> drink == english)
            && (own == "" && english == "" && title != "" ==> drink == title)
  {
    var key, sounds := plan.nameKeys[0], Sounds(u, Candidates(plan.nameKeys, strings, en, ui));
    FirstSounds(u, plan.nameKeys, strings, en, ui);
    FirstOfThree(sounds);
    SpokenNameWins(u, plan, strings, en, ui, FirstNonEmpty(sounds));
  }

  lemma FirstSounds(u: Unicode, nameKeys: seq<string>, strings: Strings, en: Strings, ui: UiStrings)
    requires nameKeys != []
    ensures var key, sounds := nameKeys[0], Sounds(u, Candidates(nameKeys, strings, en, ui));
            && |sounds| >= 3
            && sounds[0] == Sound(u, Lookup(strings, DrinkName(key)))
            && sounds[1] == Sound(u, Lookup(en, DrinkName(key)))
            && sounds[2] == Sound(u, Lookup(ui, RecipeName(key)))
  {
    CandidatesAreChained(nameKeys, strings, en, ui, 0);
  }

  lemma SpokenNameWins(u: Unicode, plan: Plan, strings: Strings, en: Strings, ui: UiStrings, first: string)
    requires first == FirstNonEmpty(Sounds(u, Candidates(plan.nameKeys, strings, en, ui)))
    ensures first != "" ==> ResolveDrink(u, plan, strings, en, ui) == first
  {
  }

  lemma FirstOfThree(sounds: seq<string>)
    requires |sounds| >= 3
    ensures sounds[0] != "" ==> FirstNonEmpty(sounds) == sounds[0]
    ensures sounds[0] == "" && sounds[1] != "" ==> FirstNonEmpty(sounds) == sounds[1]
    ensures sounds[0] == "" && sounds[1] == "" && sounds[2] != "" ==> FirstNonEmpty(sounds) == sounds[2]
  {
    var first := FirstNonEmpty(sounds);
    if first != "" {
      var i :| 0 <= i < |sounds| && sounds[i] == first && forall j | 0 <= j < i :: sounds[j] == "";
    }
  }

  lemma NoRecipeMeansTypedName(u: Unicode, payload: Payload, kind: Kind, strings: Strings, en: Strings, ui: UiStrings)
    requires IsBrew(kind) && (!Get(payload, "recipe_key").JText? || Get(payload, "recipe_key") == JText(""))
    ensures ResolveDrink(u, BrewPlan(u, payload, kind), strings, en, ui) ==
            Speakable(u, Get(payload, "recipe_name"), MAX_FREE_TEXT)
  {
    FirstSoundIsTheDrink(u, BrewPlan(u, payload, kind), strings, en, ui);
  }

  // ----- the vocabulary of the detector -----

  /** The token under which a process is reported. */
  function ProcessToken(p: Process): string {
    match p
    case Ready => "READY"
    case Product => "PRODUCT"
    case Cleaning => "CLEANING"
    case Descaling => "DESCALING"
    case FilterInsert => "FILTER_INSERT"
    case FilterReplace => "FILTER_REPLACE"
    case FilterRemove => "FILTER_REMOVE"
    case SwitchOff => "SWITCH_OFF"
    case EasyClean => "EASY_CLEAN"
    case IntensiveClean => "INTENSIVE_CLEAN"
    case Evaporating => "EVAPORATING"
    case Busy => "BUSY"
  }

  function ShapeToken(s: LifecycleSpec.Shape): string {
    match s
    case CoffeeShape => "coffee"
    case CoffeeWithMilkShape => "coffee_with_milk"
    case MilkShape => "milk"
    case WaterShape => "water"
  }

  /** The type under which an event of the detector is fired. */
  function EventToken(e: LifecycleSpec.Event): string {
    match e
    case BrewStarted(_) => "brew_started"
    case BrewFinished(_, _, _, _, _) => "brew_finished"
    case BrewCancelled(_, _, _, _, _) => "brew_cancelled"
    case PromptRaised(_, _, _, _) => "prompt_raised"
    case PromptCleared(_, _) => "prompt_cleared"
    case MaintenanceFinished(_, _) => "maintenance_finished"
  }

  /** Every event of the detector is told as what it is. */
  lemma EventsKeepTheirKind(e: LifecycleSpec.Event)
    ensures var kind := KindOf(EventToken(e));
            && kind.Some?
            && (e.BrewStarted? <==> kind == Some(BrewStarted)) && (e.BrewFinished? <==> kind == Some(BrewFinished))
            && (e.BrewCancelled? <==> kind == Some(BrewCancelled)) && (e.PromptRaised? <==> kind == Some(Raised))
            && (e.PromptCleared? <==> kind == Some(Cleared)) && (e.MaintenanceFinished? <==> kind == Some(Maintained))
  {
  }

  /** The procedures the detector reports as finished are exactly those with a sentence of their own, and so are its
      shapes. */
  lemma DetectorAndNarratorAgree(u: Unicode, payload: Payload, p: Process)
    requires Get(payload, "process") == JText(ProcessToken(p))
    ensures IsMaintenance(p) <==> PlanOf(u, payload, Maintained).Some?
    ensures SHAPE_TOKENS == set s: LifecycleSpec.Shape :: ShapeToken(s)
  {
    assert ShapeToken(LifecycleSpec.CoffeeShape) == "coffee" && ShapeToken(LifecycleSpec.MilkShape) == "milk";
    assert ShapeToken(LifecycleSpec.CoffeeWithMilkShape) == "coffee_with_milk";
    assert ShapeToken(LifecycleSpec.WaterShape) == "water";
  }
}
