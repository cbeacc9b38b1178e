/**
 What a sentence needs, decided once from the event payload and independent of any language: its head candidates, its
 detail clauses in slot order, and the sources of the drink name.
 */
module NarrationPlan {
  import opened Prelude
  import opened FreeText
  import opened NarrationText

  const MAX_CLAUSES := 6
  const MAX_ML := 2000
  const MAX_FREE_TEXT := 40

  const COMPONENT_TOKENS := {"coffee", "milk", "water"}
  const SHAPE_TOKENS := {"coffee", "coffee_with_milk", "milk", "water"}
  const MAINTENANCE_TOKENS := {
    "CLEANING", "DESCALING", "FILTER_INSERT", "FILTER_REPLACE", "FILTER_REMOVE", "EASY_CLEAN", "INTENSIVE_CLEAN",
    "EVAPORATING"
  }

  datatype Slot =
    | Phase | Component1 | Component2 | Intensity | Aroma | Temperature | Shots | Blend | TwoCups | Profile

  /** The position in `SLOT_ORDER`. */
  function Rank(slot: Slot): nat {
    match slot
    case Phase => 0
    case Component1 => 1
    case Component2 => 2
    case Intensity => 3
    case Aroma => 4
    case Temperature => 5
    case Shots => 6
    case Blend => 7
    case TwoCups => 8
    case Profile => 9
  }

  const VALUE_SLOTS := [Intensity, Aroma, Temperature, Shots, Blend]

  /** The string keys of a narration file, taken apart into family and token. */
  datatype Key =
    | Named(kind: Kind) | Unnamed(kind: Kind) | NamedDetail | UnnamedDetail | ShapeSentence(token: string)
    | PromptRaised | PromptGeneric | PromptCleared | MaintenanceFinished(token: string)
    | ComponentWithAmount(token: string) | ComponentPlain(token: string) | ValueKey(family: Slot, token: string)
    | TwoCupsKey | ProfileKey | PhaseKey | DrinkName(key: string)

  datatype Clause = Clause(slot: Slot, key: Key, values: map<string, string>)

  datatype Plan = Plan(
    kind: Kind, heads: seq<Key>, clauses: seq<Clause>, nameKeys: seq<string>, freeName: string,
    promptKey: Option<string>, complete: bool, shapeKey: Option<Key>)

  type Payload = map<string, Json>

  datatype Kind = BrewStarted | BrewFinished | BrewCancelled | Raised | Cleared | Maintained

  /** The event type of that name; any other name has no sentence. */
  function KindOf(name: string): Option<Kind> {
    match name
    case "brew_started" => Some(BrewStarted)
    case "brew_finished" => Some(BrewFinished)
    case "brew_cancelled" => Some(BrewCancelled)
    case "prompt_raised" => Some(Raised)
    case "prompt_cleared" => Some(Cleared)
    case "maintenance_finished" => Some(Maintained)
    case _ => None
  }

  predicate IsBrew(kind: Kind) {
    kind.BrewStarted? || kind.BrewFinished? || kind.BrewCancelled?
  }

  // ----- numbers -----

  /** `str(n)` */
  function Decimal(n: nat): (s: string)
    ensures s != "" && BraceFree(s)
  {
    if n < 10 then ["0123456789"[n]] else Decimal(n / 10) + ["0123456789"[n % 10]]
  }

  /** What a decimal numeral denotes. */
  function NumberOf(s: string): nat {
    if s == "" then 0
    else NumberOf(s[..|s| - 1]) * 10 + if '0' <= s[|s| - 1] <= '9' then s[|s| - 1] as int - '0' as int else 0
  }

  /** Read back, the numeral of n is n; it is all digits, and only that of 0 starts with a 0. */
  lemma {:induction false} DecimalReads(n: nat)
    ensures NumberOf(Decimal(n)) == n
    ensures forall c | c in Decimal(n) :: '0' <= c <= '9'
    ensures n > 0 ==> Decimal(n)[0] != '0'
  {
    DigitReads(n % 10);
    if n < 10 {
      assert Decimal(n)[..0] == "";
    } else {
      DecimalReads(n / 10);
      assert Decimal(n)[..|Decimal(n)| - 1] == Decimal(n / 10);
    }
  }

  lemma DigitReads(d: nat)
    requires d < 10
    ensures "0123456789"[d] == ('0' as int + d) as char
  {
  }

  /** Python's `round`: to the nearest integer, halves to the even one. */
  function RoundHalfEven(x: real): (n: int)
    ensures n as real - 0.5 <= x <= n as real + 0.5
    ensures x == n as real + 0.5 || x == n as real - 0.5 ==> n % 2 == 0
  {
    var low := x.Floor;
    var rest := x - low as real;
    if rest < 0.5 || (rest == 0.5 && low % 2 == 0) then low else low + 1
  }

  function Volume(value: Json): Option<int> {
    match value
    case JInt(n) => Some(n)
    case JFloat(x) => Some(RoundHalfEven(x))
    case _ => None
  }

  // ----- components -----

  function ListItems(value: Json): seq<Json> {
    if value.JList? then value.items else []
  }

  predicate IsSpoken(item: Json) {
    item.JDict? && Get(item.entries, "process") != JNull && Get(item.entries, "process") != JText("none")
  }

  /** A set lookup raises on a process that cannot be hashed. */
  predicate Unhashable(item: Json) {
    item.JDict? && var process := Get(item.entries, "process"); process.JList? || process.JDict?
  }

  function Spoken(items: seq<Json>): (components: seq<Payload>)
    ensures |components| <= |items|
  {
    if items == [] then []
    else (if IsSpoken(items[0]) then [items[0].entries] else []) + Spoken(items[1..])
  }

  function Components(payload: Payload): seq<Payload> {
    Spoken(ListItems(Get(payload, "components")))
  }

  /** The clause of one component, and whether it tells everything the component carries. */
  function ComponentClause(slot: Slot, component: Payload): (r: (Option<Clause>, bool))
    ensures r.0.Some? ==> r.0.value.slot == slot && BraceFreeValues(r.0.value.values)
  {
    var process := Get(component, "process");
    if !process.JText? || process.text !in COMPONENT_TOKENS then (None, false)
    else
      var volume := Volume(Get(component, "portion_ml"));
      var plain := Some(Clause(slot, ComponentPlain(process.text), map[]));
      if volume.Some? && volume.value > MAX_ML then (plain, false)
      else if volume.None? || volume.value <= 0 then (plain, true)
      else (Some(Clause(slot, ComponentWithAmount(process.text), map["volume" := Decimal(volume.value)])), true)
  }

  // ----- values -----

  function Field(family: Slot): string {
    match family
    case Intensity => "intensity"
    case Aroma => "aroma"
    case Temperature => "temperature"
    case Shots => "shots"
    case _ => "blend"
  }

  function Omitted(family: Slot): set<string> {
    match family
    case Temperature => {"normal"}
    case Shots => {"none"}
    case Aroma => {"standard"}
    case _ => {}
  }

  function FamilyTokens(family: Slot): set<string> {
    match family
    case Intensity => {"very_mild", "mild", "medium", "strong", "very_strong"}
    case Aroma => {"intense"}
    case Temperature => {"cold", "high"}
    case Shots => {"one", "two", "three"}
    case Blend => {"hopper_1", "hopper_2"}
    case _ => {}
  }

  /** The component speaks for the family: every family but the temperature is a fact about the coffee. */
  predicate SpeaksFor(component: Payload, family: Slot) {
    family == Temperature || Get(component, "process") == JText("coffee")
  }

  /** The component states something other than the machine default. */
  predicate States(component: Payload, family: Slot) {
    && SpeaksFor(component, family)
    && var token := Get(component, Field(family)); token.JText? && token.text != "" && token.text !in Omitted(family)
  }

  function ValueToken(components: seq<Payload>, family: Slot): (token: Option<string>)
    ensures token.None? <==> forall c | c in components :: !States(c, family)
    ensures token.Some? ==>
              exists i :: 0 <= i < |components| && States(components[i], family) &&
                          Get(components[i], Field(family)) == JText(token.value) &&
                          forall j | 0 <= j < i :: !States(components[j], family)
  {
    if components == [] then None
    else if States(components[0], family) then
      assert Get(components[0], Field(family)).JText?;
      Some(Get(components[0], Field(family)).text)
    else ValueToken(components[1..], family)
  }

  // ----- clauses -----

  function PhaseClauses(payload: Payload): seq<Clause> {
    var index, total := Get(payload, "phase_index"), Get(payload, "phase_total");
    if !index.JInt? || !total.JInt? || total.number < 2 || index.number < 0 || index.number >= total.number then []
    else [Clause(Phase, PhaseKey, map["n" := Decimal(index.number + 1), "m" := Decimal(total.number)])]
  }

  function ComponentClauses(components: seq<Payload>): seq<Clause> {
    (if |components| > 0 then Opt(ComponentClause(Component1, components[0]).0) else []) +
    (if |components| > 1 then Opt(ComponentClause(Component2, components[1]).0) else [])
  }

  function Opt(clause: Option<Clause>): seq<Clause> {
    if clause.Some? then [clause.value] else []
  }

  /** The value clauses of the first n families. */
  function ValueClauses(components: seq<Payload>, n: nat): seq<Clause>
    requires n <= |VALUE_SLOTS|
  {
    if n == 0 then []
    else
      ValueClauses(components, n - 1) + ValueClause(components, VALUE_SLOTS[n - 1])
  }

  function ValueClause(components: seq<Payload>, family: Slot): seq<Clause> {
    var token := ValueToken(components, family);
    if token.Some? && token.value in FamilyTokens(family) then [Clause(family, ValueKey(family, token.value), map[])]
    else []
  }

  function ProfileName(u: Unicode, payload: Payload): string {
    Speakable(u, Get(payload, "profile_name"), MAX_FREE_TEXT)
  }

  function TailClauses(payload: Payload, profile: string): seq<Clause> {
    (if Get(payload, "two_cups") == JBool(true) then [Clause(TwoCups, TwoCupsKey, map[])] else []) +
    (if profile != "" then [Clause(Profile, ProfileKey, map["profile" := profile])] else [])
  }

  /** Every clause the payload has material for, in the order they are planned. */
  function AllClauses(u: Unicode, payload: Payload): seq<Clause> {
    var components := Components(payload);
    PhaseClauses(payload) + ComponentClauses(components) + ValueClauses(components, |VALUE_SLOTS|) +
    TailClauses(payload, ProfileName(u, payload))
  }

  /** No component and no value was left unspoken. */
  predicate NothingLost(payload: Payload) {
    var components := Components(payload);
    && |components| <= 2
    && (|components| > 0 ==> ComponentClause(Component1, components[0]).1)
    && (|components| > 1 ==> ComponentClause(Component2, components[1]).1)
    && ValuesKnown(components, |VALUE_SLOTS|)
  }

  predicate ValuesKnown(components: seq<Payload>, n: nat)
    requires n <= |VALUE_SLOTS|
  {
    n > 0 ==>
      && ValuesKnown(components, n - 1)
      && var token := ValueToken(components, VALUE_SLOTS[n - 1]);
         token.Some? ==> token.value in FamilyTokens(VALUE_SLOTS[n - 1])
  }

  // ----- the stable sort by slot -----

  function InsertClause(sorted: seq<Clause>, clause: Clause): seq<Clause> {
    if sorted == [] || Rank(sorted[|sorted| - 1].slot) <= Rank(clause.slot) then sorted + [clause]
    else InsertClause(sorted[..|sorted| - 1], clause) + [sorted[|sorted| - 1]]
  }

  function SortBySlot(clauses: seq<Clause>): seq<Clause> {
    if clauses == [] then [] else InsertClause(SortBySlot(clauses[..|clauses| - 1]), clauses[|clauses| - 1])
  }

  ghost predicate InSlotOrder(clauses: seq<Clause>) {
    forall i, j | 0 <= i < j < |clauses| :: Rank(clauses[i].slot) < Rank(clauses[j].slot)
  }

  lemma {:induction false} SortIsIdentity(clauses: seq<Clause>)
    requires InSlotOrder(clauses)
    ensures SortBySlot(clauses) == clauses
  {
    if clauses != [] {
      SortIsIdentity(clauses[..|clauses| - 1]);
      assert clauses == clauses[..|clauses| - 1] + [clauses[|clauses| - 1]];
    }
  }

  // ----- plans -----

  function NameKeys(payload: Payload): seq<string> {
    var key := Get(payload, "recipe_key");
    if !key.JText? || key.text == "" then []
    else if key.text == "milk" then ["milk", "warm_milk"]
    else if key.text == "water" then ["water", "hot_water"]
    else [key.text]
  }

  function Heads(kind: Kind): seq<Key> {
    [Named(kind), Unnamed(kind)] + if kind == BrewFinished then [NamedDetail, UnnamedDetail] else []
  }

  function ShapeKey(payload: Payload, kind: Kind): Option<Key> {
    var shape := Get(payload, "shape");
    if kind == BrewFinished && shape.JText? && shape.text in SHAPE_TOKENS then Some(ShapeSentence(shape.text))
    else None
  }

  function BrewPlan(u: Unicode, payload: Payload, kind: Kind): Plan {
    var all := if kind == BrewFinished then AllClauses(u, payload) else [];
    var lost := kind == BrewFinished && !NothingLost(payload);
    Plan(
      kind, Heads(kind), if |all| > MAX_CLAUSES then all[..MAX_CLAUSES] else all, NameKeys(payload),
      Speakable(u, Get(payload, "recipe_name"), MAX_FREE_TEXT), None, !lost && |all| <= MAX_CLAUSES,
      ShapeKey(payload, kind))
  }

  function PlanOf(u: Unicode, payload: Payload, kind: Kind): Option<Plan> {
    match kind
    case Raised =>
      var token := Get(payload, "prompt");
      var prompt := if token.JText? && token.text != "" && token.text != "NONE" then Some(token.text) else None;
      Some(Plan(kind, [PromptRaised, PromptGeneric], [], [], "", prompt, true, None))
    case Cleared => Some(Plan(kind, [PromptCleared], [], [], "", None, true, None))
    case Maintained =>
      var token := Get(payload, "process");
      if !token.JText? || token.text !in MAINTENANCE_TOKENS then None
      else Some(Plan(kind, [MaintenanceFinished(token.text)], [], [], "", None, true, None))
    case _ => Some(BrewPlan(u, payload, kind))
  }

  /** Planning raises on an unhashable process token; it looks at the components of a finished brew only. */
  predicate PlanRaises(payload: Payload, kind: Kind) {
    kind == BrewFinished && exists item | item in ListItems(Get(payload, "components")) :: Unhashable(item)
  }

  // ----- planning in loops -----

  method PlanBrew(u: Unicode, payload: Payload, kind: Kind) returns (plan: Plan)
    requires Sane(u) && IsBrew(kind)
    ensures plan == BrewPlan(u, payload, kind)
  {
    var complete, clauses := true, [];
    if kind == BrewFinished {
      clauses, complete := PlanClauses(u, payload);
      clauses := SortBySlot(clauses);
      ClausesAreInSlotOrder(u, payload);
      if |clauses| > MAX_CLAUSES {
        clauses := clauses[..MAX_CLAUSES];
        complete := false;
      }
    }
    plan := Plan(
      kind, Heads(kind), clauses, NameKeys(payload), Speakable(u, Get(payload, "recipe_name"), MAX_FREE_TEXT), None,
      complete, ShapeKey(payload, kind));
  }

  method PlanClauses(u: Unicode, payload: Payload) returns (clauses: seq<Clause>, complete: bool)
    ensures clauses == AllClauses(u, payload)
    ensures complete == NothingLost(payload)
  {
    clauses, complete := PlanDetails(payload, Components(payload));
    ghost var details := clauses;
    if Get(payload, "two_cups") == JBool(true) {
      clauses := clauses + [Clause(TwoCups, TwoCupsKey, map[])];
    }
    var profile := ProfileName(u, payload);
    if profile != "" {
      clauses := clauses + [Clause(Profile, ProfileKey, map["profile" := profile])];
    }
    assert clauses == details + TailClauses(payload, profile);
  }

  method PlanDetails(payload: Payload, components: seq<Payload>) returns (clauses: seq<Clause>, complete: bool)
    requires components == Components(payload)
    ensures clauses == PhaseClauses(payload) + ComponentClauses(components) + ValueClauses(components, |VALUE_SLOTS|)
    ensures complete == NothingLost(payload)
  {
    clauses, complete := PhaseClauses(payload), true;
    if |components| > 0 {
      var (clause, kept) := ComponentClause(Component1, components[0]);
      clauses, complete := clauses + Opt(clause), complete && kept;
    }
    if |components| > 1 {
      var (clause, kept) := ComponentClause(Component2, components[1]);
      clauses, complete := clauses + Opt(clause), complete && kept;
    }
    if |components| > 2 {
      complete := false;
    }
    assert clauses == PhaseClauses(payload) + ComponentClauses(components);
    var values, known := PlanValues(components);
    clauses, complete := clauses + values, complete && known;
  }

  method PlanValues(components: seq<Payload>) returns (clauses: seq<Clause>, complete: bool)
    ensures clauses == ValueClauses(components, |VALUE_SLOTS|)
    ensures complete == ValuesKnown(components, |VALUE_SLOTS|)
  {
    clauses, complete := [], true;
    for i := 0 to |VALUE_SLOTS|
      invariant clauses == ValueClauses(components, i)
      invariant complete == ValuesKnown(components, i)
    {
      var family := VALUE_SLOTS[i];
      var token := ValueToken(components, family);
      if token.None? {
        continue;
      }
      if token.value !in FamilyTokens(family) {
        complete := false;
        continue;
      }
      clauses := clauses + [Clause(family, ValueKey(family, token.value), map[])];
    }
  }

  // ----- properties of every plan -----

  lemma {:induction false} ValueClausesAreInSlotOrder(components: seq<Payload>, n: nat)
    requires n <= |VALUE_SLOTS|
    ensures InSlotOrder(ValueClauses(components, n))
    ensures forall c | c in ValueClauses(components, n) ::
              3 <= Rank(c.slot) < 3 + n && c.values == map[] && IsDetailKey(c.key)
  {
    if n > 0 {
      ValueClausesAreInSlotOrder(components, n - 1);
      SlotRank(n);
      OneValueSegment(components, VALUE_SLOTS[n - 1]);
      AppendInSlotOrder(ValueClauses(components, n - 1), ValueClause(components, VALUE_SLOTS[n - 1]), 2 + n);
    }
  }

  lemma OneValueSegment(components: seq<Payload>, slot: Slot)
    ensures InSlotOrder(ValueClause(components, slot))
    ensures forall c | c in ValueClause(components, slot) :: c.slot == slot && c.values == map[] && IsDetailKey(c.key)
  {
  }

  lemma AppendInSlotOrder(a: seq<Clause>, b: seq<Clause>, middle: nat)
    requires InSlotOrder(a) && InSlotOrder(b)
    requires forall c | c in a :: Rank(c.slot) < middle
    requires forall c | c in b :: middle <= Rank(c.slot)
    ensures InSlotOrder(a + b)
  {
  }

  predicate IsDetailKey(key: Key) {
    key.ComponentWithAmount? || key.ComponentPlain? || key.ValueKey? || key.TwoCupsKey? || key.ProfileKey? ||
    key.PhaseKey?
  }

  predicate IsHeadKey(key: Key) {
    key.Named? || key.Unnamed? || key.NamedDetail? || key.UnnamedDetail? || key.PromptRaised? || key.PromptGeneric? ||
    key.PromptCleared? || key.MaintenanceFinished?
  }

  /** In slot order, within the ranks lo to hi, with brace-free values and clause keys. */
  ghost predicate Segment(clauses: seq<Clause>, lo: nat, hi: nat) {
    && InSlotOrder(clauses)
    && forall c | c in clauses :: lo <= Rank(c.slot) < hi && BraceFreeValues(c.values) && IsDetailKey(c.key)
  }

  lemma Join(a: seq<Clause>, b: seq<Clause>, lo: nat, middle: nat, hi: nat)
    requires lo <= middle <= hi && Segment(a, lo, middle) && Segment(b, middle, hi)
    ensures Segment(a + b, lo, hi)
  {
    AppendInSlotOrder(a, b, middle);
  }

  lemma PhaseSegment(payload: Payload)
    ensures Segment(PhaseClauses(payload), 0, 1)
  {
  }

  lemma ComponentSegment(components: seq<Payload>)
    ensures Segment(ComponentClauses(components), 1, 3)
  {
  }

  lemma TailSegment(payload: Payload, profile: string)
    requires BraceFree(profile)
    ensures Segment(TailClauses(payload, profile), 8, 10)
  {
  }

  /** Clauses are planned in slot order with distinct slots, so the sort changes nothing; numbers and cleaned text are all
      they carry. */
  lemma ClausesAreInSlotOrder(u: Unicode, payload: Payload)
    requires Sane(u)
    ensures Segment(AllClauses(u, payload), 0, 10)
    ensures SortBySlot(AllClauses(u, payload)) == AllClauses(u, payload)
  {
    var phase, components := PhaseClauses(payload), ComponentClauses(Components(payload));
    var values := ValueClauses(Components(payload), |VALUE_SLOTS|);
    PhaseSegment(payload);
    ComponentSegment(Components(payload));
    ValueClausesAreInSlotOrder(Components(payload), |VALUE_SLOTS|);
    SpeakableIsBraceFree(u, Get(payload, "profile_name"), MAX_FREE_TEXT);
    TailSegment(payload, ProfileName(u, payload));
    Join(phase, components, 0, 1, 3);
    Join(phase + components, values, 0, 3, 8);
    Join(phase + components + values, TailClauses(payload, ProfileName(u, payload)), 0, 8, 10);
    SortIsIdentity(AllClauses(u, payload));
  }

  /** The clause budget drops exactly the clauses of the last slots, and says so. */
  lemma BudgetDropsTheTail(u: Unicode, payload: Payload, i: nat, j: nat)
    requires Sane(u)
    requires var all := AllClauses(u, payload); i < |all| && j < |all|
    requires var all := AllClauses(u, payload); var kept := BrewPlan(u, payload, BrewFinished).clauses;
             all[i] in kept && all[j] !in kept
    ensures i < MAX_CLAUSES <= j
    ensures Rank(AllClauses(u, payload)[i].slot) < Rank(AllClauses(u, payload)[j].slot)
    ensures !BrewPlan(u, payload, BrewFinished).complete
    ensures |BrewPlan(u, payload, BrewFinished).clauses| == MAX_CLAUSES
  {
    ClausesAreInSlotOrder(u, payload);
    CutDropsTheTail(AllClauses(u, payload), i, j);
  }

  lemma CutDropsTheTail(all: seq<Clause>, i: nat, j: nat)
    requires InSlotOrder(all) && i < |all| && j < |all|
    requires var kept := if |all| > MAX_CLAUSES then all[..MAX_CLAUSES] else all; all[i] in kept && all[j] !in kept
    ensures |all| > MAX_CLAUSES && i < MAX_CLAUSES <= j && Rank(all[i].slot) < Rank(all[j].slot)
  {
    var kept := all[..MAX_CLAUSES];
    assert forall n | 0 <= n < MAX_CLAUSES :: all[n] in kept by {
      assert forall n | 0 <= n < MAX_CLAUSES :: kept[n] == all[n];
    }
    var k :| 0 <= k < |kept| && kept[k] == all[i];
  }

  ghost predicate SafeClauses(clauses: seq<Clause>) {
    forall c | c in clauses :: BraceFreeValues(c.values) && IsDetailKey(c.key)
  }

  lemma SpeakableIsBraceFree(u: Unicode, value: Json, limit: nat)
    requires Sane(u)
    ensures BraceFree(Speakable(u, value, limit))
  {
    SpeakableIsClean(u, value, limit);
  }

  predicate HasKey(clauses: seq<Clause>, key: Key) {
    exists c :: c in clauses && c.key == key
  }

  lemma HasKeySplits(a: seq<Clause>, b: seq<Clause>, key: Key)
    ensures HasKey(a + b, key) <==> HasKey(a, key) || HasKey(b, key)
  {
    if c :| c in a && c.key == key {
      assert c in a + b;
    }
    if c :| c in b && c.key == key {
      assert c in a + b;
    }
  }

  predicate IsPlanned(components: seq<Payload>, family: Slot, token: string) {
    ValueToken(components, family) == Some(token) && token in FamilyTokens(family)
  }

  lemma OneValueClause(components: seq<Payload>, slot: Slot, family: Slot, token: string)
    ensures HasKey(ValueClause(components, slot), ValueKey(family, token)) <==>
            Rank(slot) == Rank(family) && IsPlanned(components, family, token)
  {
    var clauses := ValueClause(components, slot);
    if slot == family && IsPlanned(components, family, token) {
      assert clauses[0].key == ValueKey(family, token);
    }
  }

  lemma {:induction false} ValueIsPlannedIff(components: seq<Payload>, n: nat, family: Slot, token: string)
    requires n <= |VALUE_SLOTS|
    ensures HasKey(ValueClauses(components, n), ValueKey(family, token)) <==>
            3 <= Rank(family) < 3 + n && IsPlanned(components, family, token)
  {
    if n > 0 {
      ValueIsPlannedIff(components, n - 1, family, token);
      SlotRank(n);
      OneMoreSlot(components, ValueClauses(components, n - 1), VALUE_SLOTS[n - 1], family, token);
    }
  }

  lemma SlotRank(n: nat)
    requires 0 < n <= |VALUE_SLOTS|
    ensures Rank(VALUE_SLOTS[n - 1]) == 2 + n
  {
  }

  lemma OneMoreSlot(components: seq<Payload>, most: seq<Clause>, slot: Slot, family: Slot, token: string)
    ensures HasKey(most + ValueClause(components, slot), ValueKey(family, token)) <==>
            HasKey(most, ValueKey(family, token)) || (Rank(slot) == Rank(family) && IsPlanned(components, family, token))
  {
    HasKeySplits(most, ValueClause(components, slot), ValueKey(family, token));
    OneValueClause(components, slot, family, token);
  }

  lemma OtherClausesHaveNoValue(
    payload: Payload, components: seq<Payload>, profile: string, family: Slot, token: string)
    ensures !HasKey(PhaseClauses(payload), ValueKey(family, token))
    ensures !HasKey(ComponentClauses(components), ValueKey(family, token))
    ensures !HasKey(TailClauses(payload, profile), ValueKey(family, token))
  {
  }

  lemma ValueIsSpokenIff(u: Unicode, payload: Payload, family: Slot, token: string)
    requires family in VALUE_SLOTS
    ensures HasKey(AllClauses(u, payload), ValueKey(family, token)) <==> IsPlanned(Components(payload), family, token)
  {
    var key, components := ValueKey(family, token), Components(payload);
    var phase, parts := PhaseClauses(payload), ComponentClauses(components);
    var values := ValueClauses(components, |VALUE_SLOTS|);
    var tail := TailClauses(payload, ProfileName(u, payload));
    ValueIsPlannedIff(components, |VALUE_SLOTS|, family, token);
    OtherClausesHaveNoValue(payload, components, ProfileName(u, payload), family, token);
    HasKeySplits(phase, parts, key);
    HasKeySplits(phase + parts, values, key);
    HasKeySplits(phase + parts + values, tail, key);
  }

  /** What a plan marked complete leaves out: of the values its components state, exactly those that differ from the first
      one stated in their family. */
  lemma CompleteOmitsLaterValues(u: Unicode, payload: Payload, i: nat, k: nat)
    requires BrewPlan(u, payload, BrewFinished).complete
    requires i < |Components(payload)| && k < |VALUE_SLOTS| && States(Components(payload)[i], VALUE_SLOTS[k])
    ensures var stated := Get(Components(payload)[i], Field(VALUE_SLOTS[k])).text;
            HasKey(BrewPlan(u, payload, BrewFinished).clauses, ValueKey(VALUE_SLOTS[k], stated)) <==>
            ValueToken(Components(payload), VALUE_SLOTS[k]) == Some(stated)
  {
    var stated := Get(Components(payload)[i], Field(VALUE_SLOTS[k])).text;
    ValueIsSpokenIff(u, payload, VALUE_SLOTS[k], stated);
    KnownValues(Components(payload), |VALUE_SLOTS|, k);
  }

  lemma {:induction false} KnownValues(components: seq<Payload>, n: nat, k: nat)
    requires k < n <= |VALUE_SLOTS| && ValuesKnown(components, n)
    ensures var token := ValueToken(components, VALUE_SLOTS[k]);
            token.Some? ==> token.value in FamilyTokens(VALUE_SLOTS[k])
  {
    if k < n - 1 {
      KnownValues(components, n - 1, k);
    }
  }

  /** What every plan guarantees to the composition. */
  ghost predicate SoundPlan(plan: Plan) {
    && plan.heads != []
    && (forall k | k in plan.heads :: IsHeadKey(k))
    && (plan.shapeKey.Some? ==> plan.shapeKey.value.ShapeSentence? && plan.kind == BrewFinished)
    && (IsBrew(plan.kind) || plan.kind == Raised || plan.heads[0].PromptCleared? || plan.heads[0].MaintenanceFinished?)
    && SafeClauses(plan.clauses)
    && BraceFree(plan.freeName)
  }

  /** Every plan of every payload is sound: numbers and cleaned text are all it carries. */
  lemma PlansAreSound(u: Unicode, payload: Payload, kind: Kind)
    requires Sane(u) && PlanOf(u, payload, kind).Some?
    ensures SoundPlan(PlanOf(u, payload, kind).value)
  {
    if IsBrew(kind) {
      BrewPlansAreSound(u, payload, kind);
    }
  }

  lemma BrewPlansAreSound(u: Unicode, payload: Payload, kind: Kind)
    requires Sane(u) && IsBrew(kind)
    ensures SoundPlan(BrewPlan(u, payload, kind))
  {
    var plan := BrewPlan(u, payload, kind);
    assert SafeClauses(plan.clauses) by {
      ClausesAreInSlotOrder(u, payload);
      KeptClausesAreSafe(AllClauses(u, payload));
    }
    assert BraceFree(plan.freeName) by {
      SpeakableIsBraceFree(u, Get(payload, "recipe_name"), MAX_FREE_TEXT);
    }
    HeadsAreHeadKeys(kind);
  }

  lemma KeptClausesAreSafe(all: seq<Clause>)
    requires Segment(all, 0, 10)
    ensures SafeClauses(all) && (|all| > MAX_CLAUSES ==> SafeClauses(all[..MAX_CLAUSES]))
  {
  }

  lemma HeadsAreHeadKeys(kind: Kind)
    ensures forall k | k in Heads(kind) :: IsHeadKey(k)
  {
  }
}
