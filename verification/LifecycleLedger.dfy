/** What every run of the detector keeps, with any frames, any clock readings and any disconnects in any order. */
module LifecycleLedger {
  import opened Prelude
  import opened Domain
  import opened LifecycleSpec

  datatype Input = Observed(frame: Frame) | Disconnected

  function Next(d: Latches, input: Input): (Latches, seq<Event>) {
    match input
    case Observed(f) => Feed(d, f)
    case Disconnected => (INITIAL, [])
  }

  /** The latches after a run. */
  function Run(inputs: seq<Input>): Latches {
    if inputs == [] then INITIAL else Next(Run(inputs[..|inputs| - 1]), inputs[|inputs| - 1]).0
  }

  // ----- the invariant of every reachable state -----

  predicate Coherent(d: Latches) {
    && (d.brew.brewing ==> d.prevProcess == Some(Product) && d.brew.startedAt.Some?)
    && (!d.brew.brewing ==> d.brew == NO_BREW)
    && (d.maintenance.process.Some? ==>
          && IsMaintenance(d.maintenance.process.value)
          && d.prevProcess.Some? && IsMaintenance(d.prevProcess.value)
          && d.maintenance.startedAt.Some?)
    && (d.maintenance.process.None? ==> d.maintenance == NO_MAINTENANCE)
    && (d.prompts.previous.None? ==> d.prompts == NO_PROMPT)
    && (d.prompts.previous.Some? ==>
          d.prompts.prompt == if IsPrompt(d.prompts.previous.value) then d.prompts.previous else None)
    && (d.prompts.prompt.Some? <==> d.prompts.startedAt.Some?)
  }

  lemma CoherentStep(d: Latches, f: Frame)
    requires Coherent(d)
    ensures Coherent(Feed(d, f).0)
    ensures !(Feed(d, f).0.brew.brewing && Feed(d, f).0.maintenance.process.Some?)
  {
  }

  lemma {:induction false} ReachableIsCoherent(inputs: seq<Input>)
    ensures Coherent(Run(inputs))
    ensures !(Run(inputs).brew.brewing && Run(inputs).maintenance.process.Some?)
  {
    if inputs != [] {
      ReachableIsCoherent(inputs[..|inputs| - 1]);
      if inputs[|inputs| - 1].Observed? {
        CoherentStep(Run(inputs[..|inputs| - 1]), inputs[|inputs| - 1].frame);
      }
    }
  }

  ghost predicate IsTerminal(e: Event) {
    e.BrewFinished? || e.BrewCancelled?
  }

  lemma BrewEvents(d: Latches, f: Frame)
    requires Coherent(d)
    ensures var (b, es) := FeedBrew(d.brew, d.prevProcess, f);
            && |es| == Unit(StartEdge(d.prevProcess, f)) +
                       Unit(d.brew.brewing && !Expires(d.brew, f.now) && f.status.process !in {None, Some(Product)})
            && forall e | e in es :: e.BrewStarted? || (IsTerminal(e) && e.duration <= 1800)
  {
    assert BREW_MAX_DURATION_S.Floor == 1800;
  }

  lemma MaintenanceEvents(d: Latches, f: Frame)
    requires Coherent(d)
    ensures var es := FeedMaintenance(d.maintenance, d.prevProcess, f).1;
            |es| <= 1 && (d.brew.brewing ==> es == []) && forall e | e in es :: e.MaintenanceFinished?
  {
  }

  lemma PromptEvents(d: Latches, f: Frame)
    requires Coherent(d)
    ensures var es := FeedPrompt(d.prompts, f, FeedBrew(d.brew, d.prevProcess, f).0.brewing).1;
            && |es| <= 2
            && forall e | e in es :: e.PromptRaised? || (e.PromptCleared? && d.prompts.prompt == Some(e.prompt))
  {
  }

  /** One frame in any reachable state: at most four events, terminal durations within the age limit, clears of standing
      prompts, and no procedure ending while a brew is in flight. */
  lemma OneFrame(d: Latches, f: Frame)
    requires Coherent(d)
    ensures var es := Feed(d, f).1;
            && |es| <= 4
            && (forall e | e in es && IsTerminal(e) :: e.duration <= 1800)
            && (forall e | e in es && e.PromptCleared? :: d.prompts.prompt == Some(e.prompt))
            && (forall e | e in es && e.MaintenanceFinished? :: !d.brew.brewing)
  {
    BrewEvents(d, f);
    MaintenanceEvents(d, f);
    PromptEvents(d, f);
    var maintenance, brew := FeedMaintenance(d.maintenance, d.prevProcess, f).1, FeedBrew(d.brew, d.prevProcess, f);
    assert Feed(d, f).1 == maintenance + brew.1 + FeedPrompt(d.prompts, f, brew.0.brewing).1;
  }

  /** The bound of four is met: a brew started out of a maintenance procedure, with one prompt replacing another. */
  lemma FourEventsInOneFrame()
    ensures exists inputs, f :: |Feed(Run(inputs), f).1| == 4
  {
    var clean := MachineStatus(Some(Cleaning), None, 0, FillWater);
    var a := Frame(clean, None, 0.0, false, true, false);
    var f := a.(status := clean.(process := Some(Product), manipulation := EmptyTrays));
    var inputs := [Observed(a), Observed(a)];
    assert inputs[..1] == [Observed(a)] && inputs[..1][..0] == [];
    assert |Feed(Run(inputs), f).1| == 4;
  }

  /** A different prompt over a standing one is reported as its clear followed by the new raise. */
  lemma ReplacementClearsThenRaises(d: Latches, f: Frame)
    requires Coherent(d) && d.prompts.prompt.Some?
    requires IsPrompt(f.status.manipulation) && f.status.manipulation != d.prompts.prompt.value
    ensures var es := Feed(d, f).1;
            && |es| >= 2
            && es[|es| - 2].PromptCleared? && es[|es| - 2].prompt == d.prompts.prompt.value
            && es[|es| - 1].PromptRaised? && es[|es| - 1].prompt == f.status.manipulation
  {
    var prompts := FeedPrompt(d.prompts, f, FeedBrew(d.brew, d.prevProcess, f).0.brewing).1;
    assert |prompts| == 2;
    assert Feed(d, f).1[|Feed(d, f).1| - 2..] == prompts;
  }

  // ----- conservation -----

  datatype Kind = Started | Finished | Cancelled | Raised | Cleared | Maintained

  function KindOf(e: Event): Kind {
    match e
    case BrewStarted(_) => Started
    case BrewFinished(_, _, _, _, _) => Finished
    case BrewCancelled(_, _, _, _, _) => Cancelled
    case PromptRaised(_, _, _, _) => Raised
    case PromptCleared(_, _) => Cleared
    case MaintenanceFinished(_, _) => Maintained
  }

  function Count(es: seq<Event>, kind: Kind): nat {
    if es == [] then 0 else (if KindOf(es[0]) == kind then 1 else 0) + Count(es[1..], kind)
  }

  lemma {:induction false} CountOfConcat(a: seq<Event>, b: seq<Event>, kind: Kind)
    ensures Count(a + b, kind) == Count(a, kind) + Count(b, kind)
  {
    if a == [] {
      assert a + b == b;
    } else {
      assert (a + b)[1..] == a[1..] + b;
      CountOfConcat(a[1..], b, kind);
    }
  }

  /** The sum over a run of what each input weighs in the state that meets it. */
  function Total(inputs: seq<Input>, weigh: (Latches, Input) -> nat): nat {
    if inputs == [] then 0
    else Total(inputs[..|inputs| - 1], weigh) + weigh(Run(inputs[..|inputs| - 1]), inputs[|inputs| - 1])
  }

  function Emits(kind: Kind): (Latches, Input) -> nat {
    (d, input) => Count(Next(d, input).1, kind)
  }

  function Unit(b: bool): nat {
    if b then 1 else 0
  }

  /** A brew that outlived the age limit and is dropped without an event. */
  function Expired(): (Latches, Input) -> nat {
    (d: Latches, input: Input) => Unit(input.Observed? && Expires(d.brew, input.frame.now))
  }

  function DroppedBrew(): (Latches, Input) -> nat {
    (d: Latches, input: Input) => Unit(input.Disconnected? && d.brew.brewing)
  }

  function DroppedPrompt(): (Latches, Input) -> nat {
    (d: Latches, input: Input) => Unit(input.Disconnected? && d.prompts.prompt.Some?)
  }

  /** A prompt already standing on the first frame after a reset is adopted silently. */
  function Adopted(): (Latches, Input) -> nat {
    (d: Latches, input: Input) =>
      Unit(input.Observed? && d.prompts.previous.None? && IsPrompt(input.frame.status.manipulation))
  }

  /** Counting the at most two events one part of the detector emits. */
  lemma ShortCount(es: seq<Event>, kind: Kind)
    requires |es| <= 2
    ensures Count(es, kind) ==
            (if |es| > 0 then Unit(KindOf(es[0]) == kind) else 0) + if |es| > 1 then Unit(KindOf(es[1]) == kind) else 0
  {
    if |es| > 0 {
      assert |es| == 1 ==> es[1..] == [];
      assert |es| == 2 ==> es[1..] == [es[1]] && es[1..][1..] == [];
    }
  }

  lemma FrameCounts(d: Latches, f: Frame, kind: Kind)
    ensures Count(Feed(d, f).1, kind) ==
            Count(FeedMaintenance(d.maintenance, d.prevProcess, f).1, kind) +
            Count(FeedBrew(d.brew, d.prevProcess, f).1, kind) +
            Count(FeedPrompt(d.prompts, f, FeedBrew(d.brew, d.prevProcess, f).0.brewing).1, kind)
    ensures kind != Maintained ==> Count(FeedMaintenance(d.maintenance, d.prevProcess, f).1, kind) == 0
    ensures kind in {Started, Finished, Cancelled} ==>
              Count(FeedPrompt(d.prompts, f, FeedBrew(d.brew, d.prevProcess, f).0.brewing).1, kind) == 0
    ensures kind in {Raised, Cleared} ==> Count(FeedBrew(d.brew, d.prevProcess, f).1, kind) == 0
  {
    var a, b := FeedMaintenance(d.maintenance, d.prevProcess, f).1, FeedBrew(d.brew, d.prevProcess, f).1;
    CountOfConcat(a + b, FeedPrompt(d.prompts, f, FeedBrew(d.brew, d.prevProcess, f).0.brewing).1, kind);
    CountOfConcat(a, b, kind);
    MaintenanceCounts(d, f, kind);
    BrewCounts(d, f, kind);
    PromptCounts(d, f, FeedBrew(d.brew, d.prevProcess, f).0.brewing, kind);
  }

  lemma MaintenanceCounts(d: Latches, f: Frame, kind: Kind)
    ensures kind != Maintained ==> Count(FeedMaintenance(d.maintenance, d.prevProcess, f).1, kind) == 0
  {
    ShortCount(FeedMaintenance(d.maintenance, d.prevProcess, f).1, kind);
  }

  lemma BrewCounts(d: Latches, f: Frame, kind: Kind)
    ensures kind in {Raised, Cleared} ==> Count(FeedBrew(d.brew, d.prevProcess, f).1, kind) == 0
  {
    ShortCount(FeedBrew(d.brew, d.prevProcess, f).1, kind);
  }

  lemma PromptCounts(d: Latches, f: Frame, brewing: bool, kind: Kind)
    ensures kind in {Started, Finished, Cancelled} ==> Count(FeedPrompt(d.prompts, f, brewing).1, kind) == 0
  {
    ShortCount(FeedPrompt(d.prompts, f, brewing).1, kind);
  }

  /** Every started brew is finished, cancelled, expired, dropped by a disconnect, or still in flight: exactly one. */
  lemma {:induction false} BrewsAreConserved(inputs: seq<Input>)
    ensures Total(inputs, Emits(Started)) ==
            Total(inputs, Emits(Finished)) + Total(inputs, Emits(Cancelled)) +
            Total(inputs, Expired()) + Total(inputs, DroppedBrew()) + Unit(Run(inputs).brew.brewing)
  {
    if inputs != [] {
      var before, last := inputs[..|inputs| - 1], inputs[|inputs| - 1];
      BrewsAreConserved(before);
      ReachableIsCoherent(before);
      if last.Observed? {
        BrewBalance(Run(before), last.frame);
      }
    }
  }

  lemma BrewBalance(d: Latches, f: Frame)
    requires Coherent(d)
    ensures Count(Feed(d, f).1, Started) + Unit(d.brew.brewing) ==
            Count(Feed(d, f).1, Finished) + Count(Feed(d, f).1, Cancelled) +
            Unit(Expires(d.brew, f.now)) + Unit(Feed(d, f).0.brew.brewing)
  {
    FrameCounts(d, f, Started);
    FrameCounts(d, f, Finished);
    FrameCounts(d, f, Cancelled);
    var es := FeedBrew(d.brew, d.prevProcess, f).1;
    ShortCount(es, Started);
    ShortCount(es, Finished);
    ShortCount(es, Cancelled);
  }

  /** Every prompt raised or adopted at connect is cleared, dropped by a disconnect, or still standing: exactly one. */
  lemma {:induction false} PromptsAreConserved(inputs: seq<Input>)
    ensures Total(inputs, Emits(Raised)) + Total(inputs, Adopted()) ==
            Total(inputs, Emits(Cleared)) + Total(inputs, DroppedPrompt()) + Unit(Run(inputs).prompts.prompt.Some?)
  {
    if inputs != [] {
      var before, last := inputs[..|inputs| - 1], inputs[|inputs| - 1];
      PromptsAreConserved(before);
      ReachableIsCoherent(before);
      if last.Observed? {
        PromptBalance(Run(before), last.frame);
      }
    }
  }

  lemma PromptBalance(d: Latches, f: Frame)
    requires Coherent(d)
    ensures Count(Feed(d, f).1, Raised) + Unit(d.prompts.previous.None? && IsPrompt(f.status.manipulation)) +
            Unit(d.prompts.prompt.Some?) ==
            Count(Feed(d, f).1, Cleared) + Unit(Feed(d, f).0.prompts.prompt.Some?)
  {
    FrameCounts(d, f, Raised);
    FrameCounts(d, f, Cleared);
    var es := FeedPrompt(d.prompts, f, FeedBrew(d.brew, d.prevProcess, f).0.brewing).1;
    ShortCount(es, Raised);
    ShortCount(es, Cleared);
  }
}
