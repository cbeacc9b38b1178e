/** What a composed sentence says: the template of its head with every placeholder replaced by its own slot, single-spaced
    and stripped. */
module NarrationSpeech {
  import opened Prelude
  import opened FreeText
  import opened NarrationText
  import opened NarrationPlan
  import opened Narration
  import opened NarrationSafety

  // ----- spacing -----

  lemma {:induction false} OneSpacedSplits(a: string, b: string)
    requires a == "" || b == "" || a[|a| - 1] != ' ' || b[0] != ' '
    ensures OneSpaced(a + b) == OneSpaced(a) + OneSpaced(b)
    decreases |a|
  {
    if a == "" {
      assert a + b == b;
    } else if b == "" {
      assert a + b == a;
    } else if |a| == 1 {
      assert (a + b)[1..] == b;
    } else {
      assert (a + b)[1..] == a[1..] + b;
      OneSpacedSplits(a[1..], b);
      assert (a + b)[0] == a[0] && (a + b)[1] == a[1];
    }
  }

  ghost predicate SingleSpaced(s: string) {
    forall i | 0 <= i < |s| - 1 :: !(s[i] == ' ' && s[i + 1] == ' ')
  }

  /** The result is single-spaced, a single-spaced text stays as it is, and how often a space is repeated does not matter. */
  lemma {:induction false} OneSpacedIsExact(s: string)
    ensures SingleSpaced(OneSpaced(s))
    ensures s != "" ==> OneSpaced(s) != "" && OneSpaced(s)[0] == s[0]
    ensures SingleSpaced(s) ==> OneSpaced(s) == s
    decreases |s|
  {
    if |s| > 1 {
      OneSpacedIsExact(s[1..]);
      if SingleSpaced(s) {
        TailIsSingleSpaced(s);
      }
    }
  }

  lemma TailIsSingleSpaced(s: string)
    requires SingleSpaced(s) && s != ""
    ensures SingleSpaced(s[1..])
  {
    var rest := s[1..];
    forall i | 0 <= i < |rest| - 1 ensures !(rest[i] == ' ' && rest[i + 1] == ' ') {
      assert rest[i] == s[i + 1];
    }
  }

  lemma {:induction false} RepeatedSpaceIsOne(a: string, b: string)
    ensures OneSpaced(a + "  " + b) == OneSpaced(a + " " + b)
    decreases |a|
  {
    var long, short := a + "  " + b, a + " " + b;
    if a == "" {
      assert long[1..] == short && long[0] == ' ' && long[1] == ' ';
    } else {
      assert long[1..] == a[1..] + "  " + b && short[1..] == a[1..] + " " + b;
      RepeatedSpaceIsOne(a[1..], b);
      assert long[0] == short[0] && long[1] == short[1];
    }
  }

  ghost predicate Contains(s: string, part: string) {
    exists i, j :: 0 <= i <= j <= |s| && s[i..j] == part
  }

  /** A part with no whitespace at its ends survives the spacing and the stripping of the text around it. */
  lemma PartIsHeard(u: Unicode, before: string, part: string, after: string)
    requires part != "" && u.space(' ') && !u.space(part[0]) && !u.space(part[|part| - 1])
    ensures Contains(Strip(OneSpaced(before + part + after), u.space), OneSpaced(part))
  {
    OneSpacedSplits(before + part, after);
    OneSpacedSplits(before, part);
    var a, b, c := OneSpaced(before), OneSpaced(part), OneSpaced(after);
    OneSpacedKeepsEnds(part);
    MiddleSurvives(a, b, c, u.space);
  }

  lemma {:induction false} OneSpacedKeepsEnds(s: string)
    requires s != "" && s[|s| - 1] != ' '
    ensures var r := OneSpaced(s); r != "" && r[0] == s[0] && r[|r| - 1] == s[|s| - 1]
    decreases |s|
  {
    OneSpacedIsExact(s);
    if |s| > 1 {
      OneSpacedKeepsEnds(s[1..]);
    }
  }

  lemma LeadingStops(s: string, drop: char -> bool, k: nat)
    requires k < |s| && !drop(s[k])
    ensures Leading(s, drop) <= k
  {
    LeadingIsDropped(s, drop);
  }

  lemma TrailingStops(s: string, drop: char -> bool, k: nat)
    requires k < |s| && !drop(s[k])
    ensures Trailing(s, drop) <= |s| - 1 - k
  {
    TrailingIsDropped(s, drop);
  }

  lemma SliceOfSlice(s: string, n: nat, e: nat, i: nat, j: nat)
    requires n + e <= |s| && i <= j <= e
    ensures s[n..][..e][i..j] == s[n + i..n + j]
  {
  }

  lemma StripKeeps(s: string, drop: char -> bool, i: nat, j: nat)
    requires i < j <= |s| && !drop(s[i]) && !drop(s[j - 1])
    ensures Contains(Strip(s, drop), s[i..j])
  {
    LeadingStops(s, drop, i);
    var n := Leading(s, drop);
    var rest := s[n..];
    TrailingStops(rest, drop, j - 1 - n);
    SliceOfSlice(s, n, |rest| - Trailing(rest, drop), i - n, j - n);
  }

  lemma MiddleSurvives(a: string, b: string, c: string, drop: char -> bool)
    requires b != "" && !drop(b[0]) && !drop(b[|b| - 1])
    ensures Contains(Strip(a + b + c, drop), b)
  {
    var s := a + b + c;
    assert s[|a|] == b[0] && s[|a| + |b| - 1] == b[|b| - 1] && s[|a|..|a| + |b|] == b;
    StripKeeps(s, drop, |a|, |a| + |b|);
  }

  // ----- templates in pieces -----

  datatype Piece = Literal(text: string) | Hole(name: string)

  /** How the pieces of a template are written. */
  function Written(pieces: seq<Piece>): string {
    if pieces == [] then ""
    else (match pieces[0] case Literal(text) => text case Hole(name) => "{" + name + "}") + Written(pieces[1..])
  }

  ghost predicate Plain(pieces: seq<Piece>) {
    forall p | p in pieces :: (p.Literal? ==> BraceFree(p.text)) && (p.Hole? ==> IsName(p.name))
  }

  /** What a placeholder stands for: every head may hold the detail, a brew its drink, and a raised prompt its label. */
  function Meaning(kind: Kind, name: string, drink: string, detail: string, prompt: string): string {
    if name == "detail" then detail
    else if name == "drink" && IsBrew(kind) then drink
    else if name == "prompt" && kind == Raised then prompt
    else ""
  }

  /** How they are said. */
  function Said(pieces: seq<Piece>, kind: Kind, drink: string, detail: string, prompt: string): string {
    if pieces == [] then ""
    else
      (match pieces[0] case Literal(text) => text case Hole(name) => Meaning(kind, name, drink, detail, prompt)) +
      Said(pieces[1..], kind, drink, detail, prompt)
  }

  lemma {:induction false} LiteralIsCopied(text: string, rest: string, values: map<string, string>)
    requires BraceFree(text)
    ensures Substitute(text + rest, values) == text + Substitute(rest, values)
  {
    if text == "" {
      assert text + rest == rest;
    } else {
      assert (text + rest)[1..] == text[1..] + rest;
      assert text[0] in text && forall c | c in text[1..] :: c in text;
      LiteralIsCopied(text[1..], rest, values);
    }
  }

  /** The pieces with each placeholder replaced by the value of its name, or by nothing. */
  function FilledIn(pieces: seq<Piece>, values: map<string, string>): string {
    if pieces == [] then ""
    else
      (match pieces[0]
       case Literal(text) => text
       case Hole(name) => if name in values then values[name] else "") +
      FilledIn(pieces[1..], values)
  }

  lemma {:induction false} PiecesAreFilled(pieces: seq<Piece>, values: map<string, string>)
    requires Plain(pieces)
    ensures Substitute(Written(pieces), values) == FilledIn(pieces, values)
  {
    if pieces != [] {
      var rest := pieces[1..];
      assert pieces[0] in pieces && forall p | p in rest :: p in pieces;
      PiecesAreFilled(rest, values);
      match pieces[0] {
        case Literal(text) => LiteralIsCopied(text, Written(rest), values);
        case Hole(name) => FillsHole(name, Written(rest), values);
      }
    }
  }

  lemma {:induction false} ValuesAreMeant(pieces: seq<Piece>, plan: Plan, s: Slots)
    ensures FilledIn(pieces, Values(plan, s)) == Said(pieces, plan.kind, s.drink, s.detail, s.prompt)
  {
    if pieces != [] {
      ValuesAreMeant(pieces[1..], plan, s);
    }
  }

  lemma HoleIsWritten(t: string)
    requires StartsWithHole(t)
    ensures IsName(HoleName(t)) && t == "{" + HoleName(t) + "}" + AfterHole(t)
  {
    var n := NameLength(t[1..]);
    assert forall k | 0 <= k < n :: IsNameChar(t[1..][k]);
  }

  /** Every template whose braces all belong to placeholders is made of such pieces. */
  lemma {:induction false} TemplateHasPieces(t: string) returns (pieces: seq<Piece>)
    requires WellFormed(t)
    ensures Plain(pieces) && Written(pieces) == t
    decreases |t|
  {
    if t == [] {
      pieces := [];
    } else if StartsWithHole(t) {
      HoleTail(t);
      HoleIsWritten(t);
      var rest := TemplateHasPieces(AfterHole(t));
      pieces := [Hole(HoleName(t))] + rest;
      assert pieces[1..] == rest;
    } else {
      LetterTail(t);
      var rest := TemplateHasPieces(t[1..]);
      pieces := [Literal(t[..1])] + rest;
      assert t == t[..1] + t[1..];
      assert pieces[1..] == rest;
    }
  }

  // ----- what a sentence says -----

  /** The label of the prompt as the user interface has it. */
  function PromptLabel(u: Unicode, plan: Plan, ui: UiStrings): string {
    if plan.promptKey.None? || Manipulation(plan.promptKey.value) !in ui then ""
    else Speakable(u, JText(ui[Manipulation(plan.promptKey.value)]), MAX_LABEL)
  }

  /** The text of a template made of these pieces, for this plan and these maps. */
  function Spoken(
      u: Unicode, plan: Plan, strings: Strings, en: Strings, ui: UiStrings, pieces: seq<Piece>): string
  {
    var drink, detail := ResolveDrink(u, plan, strings, en, ui), Joined(Texts(u, strings, plan.clauses), SEPARATOR);
    Strip(OneSpaced(Said(pieces, plan.kind, drink, detail, PromptLabel(u, plan, ui))), u.space)
  }

  lemma {:induction false} UnsaidSlotsDoNotMatter(
      pieces: seq<Piece>, kind: Kind, a: Slots, b: Slots)
    requires a.detail == b.detail && (IsBrew(kind) ==> a.drink == b.drink) && (kind == Raised ==> a.prompt == b.prompt)
    ensures Said(pieces, kind, a.drink, a.detail, a.prompt) == Said(pieces, kind, b.drink, b.detail, b.prompt)
  {
    if pieces != [] {
      UnsaidSlotsDoNotMatter(pieces[1..], kind, a, b);
    }
  }

  /** The text is the template of its head with the drink, the clauses and the label each in their own place. */
  lemma TextIsSaid(
      u: Unicode, plan: Plan, strings: Strings, en: Strings, ui: UiStrings, language: string, pieces: seq<Piece>)
    requires plan.heads != [] && Compose(u, plan, strings, en, ui, language).text.Some? && Plain(pieces)
    requires strings[Compose(u, plan, strings, en, ui, language).key.value] == Written(pieces)
    ensures Compose(u, plan, strings, en, ui, language).text == Some(Spoken(u, plan, strings, en, ui, pieces))
  {
    var s := SlotsFor(u, plan, strings, en, ui);
    PiecesAreFilled(pieces, Values(plan, s));
    ValuesAreMeant(pieces, plan, s);
    var drink, detail := ResolveDrink(u, plan, strings, en, ui), Joined(Texts(u, strings, plan.clauses), SEPARATOR);
    UnsaidSlotsDoNotMatter(pieces, plan.kind, s, Slots(drink, detail, PromptLabel(u, plan, ui)));
  }

  /** So with well-formed templates every sentence that is rendered says the pieces of its head's template. */
  lemma EverySentenceIsSaid(u: Unicode, plan: Plan, language: string, maps: Maps)
    requires plan.heads != [] && RenderPlan(u, plan, language, maps).text.Some?
    requires AllWellFormed(maps.narration) && AllWellFormed(maps.narrationEn)
    ensures var r := RenderPlan(u, plan, language, maps);
            var used, ui := MapUsed(u, plan, language, maps), UiUsed(u, plan, language, maps);
            exists pieces ::
              && Plain(pieces)
              && Lookup(used, r.key.value) == Some(Written(pieces))
              && r.text == Some(Spoken(u, plan, used, maps.narrationEn, ui, pieces))
  {
    var r := RenderPlan(u, plan, language, maps);
    var used, ui := MapUsed(u, plan, language, maps), UiUsed(u, plan, language, maps);
    SentenceIsComposed(u, plan, language, maps);
    var pieces := TemplateHasPieces(used[r.key.value]);
    TextIsSaid(u, plan, used, maps.narrationEn, ui, r.language, pieces);
  }

  // ----- clauses and names word for word -----

  /** When every clause was spoken, the texts are those of the clauses one by one, each its template filled in and
      stripped. */
  lemma ClausesAreSaid(u: Unicode, strings: Strings, clauses: seq<Clause>, i: nat, pieces: seq<Piece>)
    requires AllSpoken(u, strings, clauses) && i < |clauses|
    requires Plain(pieces) && Lookup(strings, clauses[i].key) == Some(Written(pieces))
    ensures |Texts(u, strings, clauses)| == |clauses|
    ensures Texts(u, strings, clauses)[i] == Strip(FilledIn(pieces, clauses[i].values), u.space)
  {
    AllTextsSpoken(u, strings, clauses);
    EachTextIsItsClause(u, strings, clauses, i);
    PiecesAreFilled(pieces, clauses[i].values);
  }

  lemma {:induction false} EachTextIsItsClause(u: Unicode, strings: Strings, clauses: seq<Clause>, i: nat)
    requires AllSpoken(u, strings, clauses) && i < |clauses| == |Texts(u, strings, clauses)|
    ensures clauses[i].key in strings
    ensures Texts(u, strings, clauses)[i] == Strip(Substitute(strings[clauses[i].key], clauses[i].values), u.space)
  {
    var most, last := clauses[..|clauses| - 1], clauses[|clauses| - 1];
    assert clauses == most + [last];
    OneMoreClause(u, most, strings, last);
    AllTextsSpoken(u, strings, most);
    assert Speaks(u, strings, last);
    if i < |most| {
      EachTextIsItsClause(u, strings, most, i);
    }
  }

  lemma StripEnds(s: string, drop: char -> bool)
    ensures var r := Strip(s, drop); r != "" ==> !drop(r[0]) && !drop(r[|r| - 1])
  {
  }

  ghost predicate Trimmed(u: Unicode, s: string) {
    s != "" && !u.space(s[0]) && !u.space(s[|s| - 1])
  }

  lemma {:induction false} TextsAreTrimmed(u: Unicode, strings: Strings, clauses: seq<Clause>)
    ensures forall t | t in Texts(u, strings, clauses) :: Trimmed(u, t)
  {
    if clauses != [] {
      TextsAreTrimmed(u, strings, clauses[..|clauses| - 1]);
      var last := clauses[|clauses| - 1];
      if last.key in strings {
        StripEnds(Substitute(strings[last.key], last.values), u.space);
      }
    }
  }

  lemma {:induction false} JoinedIsTrimmed(u: Unicode, texts: seq<string>)
    requires texts != [] && forall t | t in texts :: Trimmed(u, t)
    ensures Trimmed(u, Joined(texts, SEPARATOR))
  {
    assert texts[0] in texts;
    if |texts| > 1 {
      assert forall t | t in texts[1..] :: t in texts;
      JoinedIsTrimmed(u, texts[1..]);
    }
  }

  lemma FilledHoleIsHeard(
      u: Unicode, plan: Plan, s: Slots, name: string, value: string, pre: string, post: string)
    requires IsName(name) && Filled(name, Values(plan, s)) == value && Trimmed(u, value) && u.space(' ')
    ensures Contains(Sentence(u, pre + "{" + name + "}" + post, Values(plan, s)), OneSpaced(value))
  {
    SinglePass(pre, name, post, Values(plan, s));
    PartIsHeard(u, Substitute(pre, Values(plan, s)), value, Substitute(post, Values(plan, s)));
  }

  /** The template has that placeholder. */
  ghost predicate HasHole(t: string, name: string) {
    exists pre, post :: t == pre + "{" + name + "}" + post
  }

  lemma HoleIsHeard(u: Unicode, plan: Plan, s: Slots, template: string, name: string, value: string)
    requires HasHole(template, name)
    requires IsName(name) && Filled(name, Values(plan, s)) == value && Trimmed(u, value) && u.space(' ')
    ensures Contains(Sentence(u, template, Values(plan, s)), OneSpaced(value))
  {
    var pre, post :| template == pre + "{" + name + "}" + post;
    FilledHoleIsHeard(u, plan, s, name, value, pre, post);
  }

  lemma TextIsSentence(u: Unicode, plan: Plan, strings: Strings, en: Strings, ui: UiStrings, language: string)
    requires plan.heads != [] && Compose(u, plan, strings, en, ui, language).text.Some?
    ensures var r := Compose(u, plan, strings, en, ui, language);
            r.text == Some(Sentence(u, strings[r.key.value], Values(plan, SlotsFor(u, plan, strings, en, ui))))
  {
  }

  lemma DetailIsHeard(
      u: Unicode, plan: Plan, strings: Strings, en: Strings, ui: UiStrings, language: string)
    requires Sane(u) && plan.heads != [] && Compose(u, plan, strings, en, ui, language).text.Some?
    requires Texts(u, strings, plan.clauses) != []
    requires HasHole(strings[Compose(u, plan, strings, en, ui, language).key.value], "detail")
    ensures Contains(Compose(u, plan, strings, en, ui, language).text.value,
                     OneSpaced(Joined(Texts(u, strings, plan.clauses), SEPARATOR)))
  {
    TextsAreTrimmed(u, strings, plan.clauses);
    JoinedIsTrimmed(u, Texts(u, strings, plan.clauses));
    TextIsSentence(u, plan, strings, en, ui, language);
    var s, detail := SlotsFor(u, plan, strings, en, ui), Joined(Texts(u, strings, plan.clauses), SEPARATOR);
    DetailFills(plan, s, detail);
    HoleIsHeard(u, plan, s, strings[Compose(u, plan, strings, en, ui, language).key.value], "detail", detail);
  }

  lemma DetailFills(plan: Plan, s: Slots, detail: string)
    requires s.detail == detail
    ensures IsName("detail") && Filled("detail", Values(plan, s)) == detail
  {
  }

  lemma DrinkFills(plan: Plan, s: Slots, drink: string)
    requires IsBrew(plan.kind) && s.drink == drink
    ensures IsName("drink") && Filled("drink", Values(plan, s)) == drink
  {
  }

  lemma CleanIsTrimmed(u: Unicode, s: string, limit: nat)
    requires Sane(u) && Clean(u, s, limit)
    ensures Trimmed(u, s) && SingleSpaced(s)
  {
    assert IsEdge(' ');
  }

  lemma DrinkIsClean(u: Unicode, plan: Plan, strings: Strings, en: Strings, ui: UiStrings)
    requires Sane(u) && (plan.freeName == "" || Clean(u, plan.freeName, MAX_FREE_TEXT))
    ensures var drink := ResolveDrink(u, plan, strings, en, ui); drink == "" || Clean(u, drink, MAX_FREE_TEXT)
  {
    var candidates := Candidates(plan.nameKeys, strings, en, ui);
    forall i | 0 <= i < |candidates|
      ensures Sounds(u, candidates)[i] == "" || Clean(u, Sounds(u, candidates)[i], MAX_FREE_TEXT)
    {
      if candidates[i].Some? {
        SpeakableIsClean(u, JText(candidates[i].value), MAX_FREE_TEXT);
      }
    }
  }

  /** Every plan has a free name that is empty or clean. */
  lemma FreeNamesAreClean(u: Unicode, payload: Payload, kind: Kind)
    requires Sane(u) && IsBrew(kind)
    ensures var name := BrewPlan(u, payload, kind).freeName; name == "" || Clean(u, name, MAX_FREE_TEXT)
  {
    SpeakableIsClean(u, Get(payload, "recipe_name"), MAX_FREE_TEXT);
  }

  /** The name of the drink is heard word for word wherever the template of the head has its placeholder. */
  lemma DrinkIsHeard(u: Unicode, plan: Plan, language: string, maps: Maps)
    requires Sane(u) && plan.heads != [] && IsBrew(plan.kind)
    requires plan.freeName == "" || Clean(u, plan.freeName, MAX_FREE_TEXT)
    requires RenderPlan(u, plan, language, maps).text.Some?
    requires var used, ui := MapUsed(u, plan, language, maps), UiUsed(u, plan, language, maps);
             && ResolveDrink(u, plan, used, maps.narrationEn, ui) != ""
             && HasHole(Lookup(used, RenderPlan(u, plan, language, maps).key.value).GetOr(""), "drink")
    ensures var used, ui := MapUsed(u, plan, language, maps), UiUsed(u, plan, language, maps);
            Contains(RenderPlan(u, plan, language, maps).text.value, ResolveDrink(u, plan, used, maps.narrationEn, ui))
  {
    var used, ui := MapUsed(u, plan, language, maps), UiUsed(u, plan, language, maps);
    SentenceIsComposed(u, plan, language, maps);
    ComposedDrinkIsHeard(u, plan, used, maps.narrationEn, ui, RenderPlan(u, plan, language, maps).language);
  }

  lemma ComposedDrinkIsHeard(
      u: Unicode, plan: Plan, strings: Strings, en: Strings, ui: UiStrings, language: string)
    requires Sane(u) && plan.heads != [] && IsBrew(plan.kind)
    requires plan.freeName == "" || Clean(u, plan.freeName, MAX_FREE_TEXT)
    requires Compose(u, plan, strings, en, ui, language).text.Some? && ResolveDrink(u, plan, strings, en, ui) != ""
    requires HasHole(strings[Compose(u, plan, strings, en, ui, language).key.value], "drink")
    ensures Contains(Compose(u, plan, strings, en, ui, language).text.value, ResolveDrink(u, plan, strings, en, ui))
  {
    var s, drink := SlotsFor(u, plan, strings, en, ui), ResolveDrink(u, plan, strings, en, ui);
    DrinkIsClean(u, plan, strings, en, ui);
    CleanIsTrimmed(u, drink, MAX_FREE_TEXT);
    OneSpacedIsExact(drink);
    TextIsSentence(u, plan, strings, en, ui, language);
    DrinkFills(plan, s, drink);
    HoleIsHeard(u, plan, s, strings[Compose(u, plan, strings, en, ui, language).key.value], "drink", drink);
  }

  // ----- completeness -----

  /** A sentence of a finished brew that claims to be complete, in any language, lost no clause: the whole payload was
      plannable, fits the budget, every clause the payload has material for is in the detail, and the detail is heard in the
      text, single-spaced, with a head meant for it, whose template only has to hold its placeholder. The values that have
      no clause of their own are those of `CompleteOmitsLaterValues`. */
  lemma CompleteLosesNothing(u: Unicode, payload: Payload, language: string, maps: Maps)
    requires Sane(u) && RenderPlan(u, BrewPlan(u, payload, BrewFinished), language, maps).complete
    ensures var plan := BrewPlan(u, payload, BrewFinished);
            var used := MapUsed(u, plan, language, maps);
            var r, texts := RenderPlan(u, plan, language, maps), Texts(u, used, AllClauses(u, payload));
            && r.missing == {} && r.language == language
            && NothingLost(payload)
            && |texts| == |AllClauses(u, payload)| <= MAX_CLAUSES
            && (texts != [] ==>
                  && r.key in {Some(NamedDetail), Some(UnnamedDetail)}
                  && (HasHole(Lookup(used, r.key.value).GetOr(""), "detail") ==>
                        Contains(r.text.value, OneSpaced(Joined(texts, SEPARATOR)))))
  {
    var plan := BrewPlan(u, payload, BrewFinished);
    var used, ui := MapUsed(u, plan, language, maps), UiUsed(u, plan, language, maps);
    var r, texts := RenderPlan(u, plan, language, maps), Texts(u, used, plan.clauses);
    CompleteIsSpoken(u, plan, language, maps);
    AllTextsSpoken(u, used, plan.clauses);
    SentenceIsComposed(u, plan, language, maps);
    if texts != [] {
      TextsAreTrimmed(u, used, plan.clauses);
      JoinedIsTrimmed(u, texts);
      BrewPlansAreSound(u, payload, BrewFinished);
      HeadSlotsAreFilled(u, plan, used, maps.narrationEn, ui, r.language);
      if HasHole(Lookup(used, r.key.value).GetOr(""), "detail") {
        DetailIsHeard(u, plan, used, maps.narrationEn, ui, r.language);
      }
    }
  }
}
