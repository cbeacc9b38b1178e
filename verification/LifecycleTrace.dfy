/**
 What the detector's steps add up to: after any frames since a reset, the events of frame j are a function of the
 trace alone, given by first and last indices and quantifiers over frames, with no latch in sight.
 */
module LifecycleTrace {
  import opened Prelude
  import opened Domain
  import opened LifecycleSpec

  /** The latches after the first n frames since a reset. */
  function After(fs: seq<Frame>, n: nat): Latches
    requires n <= |fs|
  {
    if n == 0 then INITIAL else Feed(After(fs, n - 1), fs[n - 1]).0
  }

  /** What the detector emits for frame j. */
  function EventsAt(fs: seq<Frame>, j: nat): seq<Event>
    requires j < |fs|
  {
    Feed(After(fs, j), fs[j]).1
  }

  // ----- the trace specification -----

  predicate Known(fs: seq<Frame>, i: nat)
    requires i < |fs|
  {
    fs[i].status.process.Some?
  }

  /** The process code of the last frame before n that carried one. */
  function LastKnown(fs: seq<Frame>, n: nat): Option<Process>
    requires n <= |fs|
  {
    if n == 0 then None
    else if Known(fs, n - 1) then fs[n - 1].status.process
    else LastKnown(fs, n - 1)
  }

  /** How many frames before n carried a process code. */
  function KnownCount(fs: seq<Frame>, n: nat): nat
    requires n <= |fs|
  {
    if n == 0 then 0 else KnownCount(fs, n - 1) + if Known(fs, n - 1) then 1 else 0
  }

  /** A brew starts on each PRODUCT frame whose last known code was another one; the first code never starts one. */
  ghost predicate IsStart(fs: seq<Frame>, i: nat)
    requires i < |fs|
  {
    && fs[i].status.process == Some(Product)
    && LastKnown(fs, i) !in {None, Some(Product)}
  }

  /** Frame k neither ends nor outlives a brew started at frame i. */
  ghost predicate Continues(fs: seq<Frame>, i: nat, k: nat)
    requires i < |fs| && k < |fs|
  {
    && fs[k].status.process in {None, Some(Product)}
    && fs[k].now - fs[i].now <= BREW_MAX_DURATION_S
  }

  /** The brew started at frame i is still open just before frame n. */
  ghost predicate OpenAt(fs: seq<Frame>, i: nat, n: nat)
    requires n <= |fs|
  {
    && i < n
    && IsStart(fs, i)
    && forall k | i < k < n :: Continues(fs, i, k)
  }

  ghost predicate BrewOpen(fs: seq<Frame>, n: nat)
    requires n <= |fs|
  {
    exists i: nat :: OpenAt(fs, i, n)
  }

  ghost predicate Ends(fs: seq<Frame>, i: nat, j: nat)
    requires i < |fs| && j < |fs|
  {
    fs[j].status.process !in {None, Some(Product)} && fs[j].now - fs[i].now <= BREW_MAX_DURATION_S
  }

  /** The record captured by the start at frame i. */
  function Captured(f: Frame): Option<BrewIntent> {
    TakeIntent(f.intent, f.now)
  }

  ghost function SubsIn(fs: seq<Frame>, i: nat, j: nat): set<SubProcess>
    requires j <= |fs|
  {
    set k | i <= k < j && fs[k].status.subProcess.Some? :: fs[k].status.subProcess.value
  }

  ghost predicate HaCancelIn(fs: seq<Frame>, i: nat, j: nat)
    requires j < |fs|
  {
    exists k :: i < k <= j && fs[k].haCancelled
  }

  ghost predicate MachineCancelIn(fs: seq<Frame>, i: nat, j: nat)
    requires j < |fs|
  {
    exists k :: i < k <= j && CancelBit(fs[k].status)
  }

  /** Why the brew of frames i to j did not finish, in the order HA, machine, power-off; None when it did. */
  ghost function CancelledBy(fs: seq<Frame>, i: nat, j: nat): Option<CancelSource>
    requires i < j < |fs|
  {
    if HaCancelIn(fs, i, j) || (Captured(fs[i]).Some? && Captured(fs[i]).value.haCancelled) then Some(ByHa)
    else if MachineCancelIn(fs, i, j) then Some(ByMachine)
    else if fs[j].status.process == Some(SwitchOff) then Some(ByPowerOff)
    else None
  }

  ghost function Terminal(fs: seq<Frame>, i: nat, j: nat): Event
    requires i < j < |fs|
  {
    var origin, duration := OriginOf(Captured(fs[i])), Seconds(fs[j].now - fs[i].now);
    var detection, final := fs[j].cancelDetection, IsFinal(Captured(fs[i]));
    match CancelledBy(fs, i, j)
    case None => BrewFinished(origin, duration, detection, final, ClassifyBrewShape(SubsIn(fs, i, j)))
    case Some(source) => BrewCancelled(origin, duration, detection, final, source)
  }

  ghost function ExpectedBrew(fs: seq<Frame>, j: nat): seq<Event>
    requires j < |fs|
  {
    if IsStart(fs, j) then [BrewStarted(OriginOf(Captured(fs[j])))]
    else if exists i: nat :: OpenAt(fs, i, j) && Ends(fs, i, j) then
      var i: nat :| OpenAt(fs, i, j) && Ends(fs, i, j);
      [Terminal(fs, i, j)]
    else []
  }

  predicate InMaintenance(fs: seq<Frame>, i: nat)
    requires i < |fs|
  {
    Known(fs, i) && IsMaintenance(fs[i].status.process.value)
  }

  /** A procedure starts on a maintenance code that is the second code of the trace or follows another kind of code. */
  ghost predicate IsMaintenanceStart(fs: seq<Frame>, i: nat)
    requires i < |fs|
  {
    && InMaintenance(fs, i)
    && LastKnown(fs, i).Some?
    && (KnownCount(fs, i) == 1 || !IsMaintenance(LastKnown(fs, i).value))
  }

  ghost predicate MaintenanceAt(fs: seq<Frame>, i: nat, n: nat)
    requires n <= |fs|
  {
    && i < n
    && IsMaintenanceStart(fs, i)
    && forall k | i < k < n && Known(fs, k) :: InMaintenance(fs, k)
  }

  ghost function ExpectedMaintenance(fs: seq<Frame>, j: nat): seq<Event>
    requires j < |fs|
  {
    if Known(fs, j) && !InMaintenance(fs, j) && exists i: nat :: MaintenanceAt(fs, i, j) then
      var i: nat :| MaintenanceAt(fs, i, j);
      [MaintenanceFinished(fs[i].status.process.value, Seconds(fs[j].now - fs[i].now))]
    else []
  }

  /** The frame since which the manipulation of frame j has been standing. */
  function StandingSince(fs: seq<Frame>, j: nat): (s: nat)
    requires j < |fs|
    ensures s <= j
    ensures forall k | s <= k <= j :: fs[k].status.manipulation == fs[j].status.manipulation
    ensures s > 0 ==> fs[s - 1].status.manipulation != fs[j].status.manipulation
  {
    if j > 0 && fs[j - 1].status.manipulation == fs[j].status.manipulation then StandingSince(fs, j - 1) else j
  }

  ghost function ExpectedPrompts(fs: seq<Frame>, j: nat): seq<Event>
    requires j < |fs|
  {
    if j == 0 || fs[j].status.manipulation == fs[j - 1].status.manipulation then []
    else
      var prev, m := fs[j - 1].status.manipulation, fs[j].status.manipulation;
      (if IsPrompt(prev) then [PromptCleared(prev, Seconds(fs[j].now - fs[StandingSince(fs, j - 1)].now))] else []) +
      (if IsPrompt(m)
       then [PromptRaised(m, IsSoftPrompt(m), IsSoftPrompt(m) && fs[j].autoConfirm, BrewOpen(fs, j + 1))]
       else [])
  }

  ghost function Expected(fs: seq<Frame>, j: nat): seq<Event>
    requires j < |fs|
  {
    ExpectedMaintenance(fs, j) + ExpectedBrew(fs, j) + ExpectedPrompts(fs, j)
  }

  // ----- at most one brew and one procedure are open -----

  lemma {:induction false} LastKnownWhileOpen(fs: seq<Frame>, i: nat, n: nat)
    requires n <= |fs| && OpenAt(fs, i, n)
    ensures LastKnown(fs, n) == Some(Product)
  {
    if n > i + 1 {
      assert Continues(fs, i, n - 1);
      LastKnownWhileOpen(fs, i, n - 1);
    }
  }

  lemma OpenIsUnique(fs: seq<Frame>, n: nat, i: nat, i': nat)
    requires n <= |fs| && OpenAt(fs, i, n) && OpenAt(fs, i', n)
    ensures i == i'
  {
    if i < i' {
      LastKnownWhileOpen(fs, i, i');
    } else if i' < i {
      LastKnownWhileOpen(fs, i', i);
    }
  }

  lemma {:induction false} KnownWhileMaintenance(fs: seq<Frame>, i: nat, n: nat)
    requires n <= |fs| && MaintenanceAt(fs, i, n)
    ensures LastKnown(fs, n).Some? && IsMaintenance(LastKnown(fs, n).value)
    ensures KnownCount(fs, n) >= 2
  {
    if n > i + 1 {
      KnownWhileMaintenance(fs, i, n - 1);
    } else {
      CountedWhenKnown(fs, i);
    }
  }

  lemma {:induction false} CountedWhenKnown(fs: seq<Frame>, n: nat)
    requires n <= |fs|
    ensures KnownCount(fs, n) > 0 <==> LastKnown(fs, n).Some?
  {
    if n > 0 {
      CountedWhenKnown(fs, n - 1);
    }
  }

  lemma MaintenanceIsUnique(fs: seq<Frame>, n: nat, i: nat, i': nat)
    requires n <= |fs| && MaintenanceAt(fs, i, n) && MaintenanceAt(fs, i', n)
    ensures i == i'
  {
    if i < i' {
      KnownWhileMaintenance(fs, i, i');
    } else if i' < i {
      KnownWhileMaintenance(fs, i', i);
    }
  }

  // ----- the latches hold exactly what the trace says -----

  ghost predicate BrewLatched(fs: seq<Frame>, n: nat, b: BrewLatches)
    requires n <= |fs|
  {
    && (b.brewing <==> BrewOpen(fs, n))
    && (!b.brewing ==> b == NO_BREW)
    && forall i: nat | OpenAt(fs, i, n) ::
         b == BrewLatches(true, Some(fs[i].now), SubsIn(fs, i, n), MachineCancelIn(fs, i, n - 1),
                          HaCancelIn(fs, i, n - 1), Captured(fs[i]))
  }

  ghost predicate MaintenanceLatched(fs: seq<Frame>, n: nat, m: MaintenanceLatches)
    requires n <= |fs|
  {
    && (m.process.Some? <==> exists i: nat :: MaintenanceAt(fs, i, n))
    && (m.process.None? ==> m == NO_MAINTENANCE)
    && forall i: nat | MaintenanceAt(fs, i, n) :: m == MaintenanceLatches(fs[i].status.process, Some(fs[i].now))
  }

  ghost predicate PromptLatched(fs: seq<Frame>, n: nat, q: PromptLatches)
    requires n <= |fs|
  {
    if n == 0 then q == NO_PROMPT
    else
      var m := fs[n - 1].status.manipulation;
      q == if IsPrompt(m) then PromptLatches(Some(m), Some(m), Some(fs[StandingSince(fs, n - 1)].now))
           else PromptLatches(Some(m), None, None)
  }

  lemma OpenNext(fs: seq<Frame>, i: nat, n: nat)
    requires n < |fs|
    ensures OpenAt(fs, i, n + 1) <==> (i == n && IsStart(fs, n)) || (OpenAt(fs, i, n) && Continues(fs, i, n))
  {
  }

  lemma SubsNext(fs: seq<Frame>, i: nat, n: nat)
    requires i <= n < |fs|
    ensures SubsIn(fs, i, n + 1) ==
            SubsIn(fs, i, n) + if fs[n].status.subProcess.Some? then {fs[n].status.subProcess.value} else {}
  {
    forall sub | sub in SubsIn(fs, i, n) ensures sub in SubsIn(fs, i, n + 1) {
      var k :| i <= k < n && fs[k].status.subProcess == Some(sub);
    }
  }

  lemma CancelsNext(fs: seq<Frame>, i: nat, n: nat)
    requires i < n < |fs|
    ensures HaCancelIn(fs, i, n) <==> HaCancelIn(fs, i, n - 1) || fs[n].haCancelled
    ensures MachineCancelIn(fs, i, n) <==> MachineCancelIn(fs, i, n - 1) || CancelBit(fs[n].status)
  {
  }

  /** A frame met with the brew of frame i in flight. */
  lemma OpenBrewStep(fs: seq<Frame>, i: nat, n: nat, b: BrewLatches)
    requires n < |fs| && BrewLatched(fs, n, b) && OpenAt(fs, i, n)
    ensures BrewLatched(fs, n + 1, FeedBrew(b, LastKnown(fs, n), fs[n]).0)
    ensures FeedBrew(b, LastKnown(fs, n), fs[n]).1 == ExpectedBrew(fs, n)
  {
    OpenBrewLatches(fs, i, n, b);
    OpenBrewEvents(fs, i, n, b);
  }

  lemma TerminalIsExpected(fs: seq<Frame>, i: nat, j: nat)
    requires i < j < |fs| && OpenAt(fs, i, j) && Ends(fs, i, j)
    ensures ExpectedBrew(fs, j) == [Terminal(fs, i, j)]
  {
    forall h: nat | OpenAt(fs, h, j) ensures h == i {
      OpenIsUnique(fs, j, i, h);
    }
    LastKnownWhileOpen(fs, i, j);
  }

  lemma NothingIsExpected(fs: seq<Frame>, i: nat, j: nat)
    requires i < j < |fs| && OpenAt(fs, i, j) && !Ends(fs, i, j)
    ensures ExpectedBrew(fs, j) == if IsStart(fs, j) then [BrewStarted(OriginOf(Captured(fs[j])))] else []
  {
    forall h: nat | OpenAt(fs, h, j) ensures h == i {
      OpenIsUnique(fs, j, i, h);
    }
  }

  lemma OpenBrewEvents(fs: seq<Frame>, i: nat, n: nat, b: BrewLatches)
    requires n < |fs| && BrewLatched(fs, n, b) && OpenAt(fs, i, n)
    ensures FeedBrew(b, LastKnown(fs, n), fs[n]).1 == ExpectedBrew(fs, n)
  {
    LastKnownWhileOpen(fs, i, n);
    CancelsNext(fs, i, n);
    if Ends(fs, i, n) {
      TerminalIsExpected(fs, i, n);
    } else {
      NothingIsExpected(fs, i, n);
    }
  }

  lemma OpenBrewLatches(fs: seq<Frame>, i: nat, n: nat, b: BrewLatches)
    requires n < |fs| && BrewLatched(fs, n, b) && OpenAt(fs, i, n)
    ensures BrewLatched(fs, n + 1, FeedBrew(b, LastKnown(fs, n), fs[n]).0)
  {
    LastKnownWhileOpen(fs, i, n);
    var next := n + 1;
    forall h: nat ensures OpenAt(fs, h, next) <==> h == i && Continues(fs, i, n) {
      OpenNext(fs, h, n);
      if OpenAt(fs, h, n) {
        OpenIsUnique(fs, n, i, h);
      }
    }
    CancelsNext(fs, i, n);
    SubsNext(fs, i, n);
    var b' := FeedBrew(b, LastKnown(fs, n), fs[n]).0;
    if Continues(fs, i, n) {
      assert OpenAt(fs, i, n + 1) && BrewOpen(fs, n + 1);
    } else {
      assert b' == NO_BREW;
    }
  }

  /** A frame met with no brew in flight. */
  lemma IdleBrewStep(fs: seq<Frame>, n: nat, b: BrewLatches)
    requires n < |fs| && BrewLatched(fs, n, b) && !BrewOpen(fs, n)
    ensures BrewLatched(fs, n + 1, FeedBrew(b, LastKnown(fs, n), fs[n]).0)
    ensures FeedBrew(b, LastKnown(fs, n), fs[n]).1 == ExpectedBrew(fs, n)
  {
    var next := n + 1;
    forall h: nat ensures OpenAt(fs, h, next) <==> h == n && IsStart(fs, n) {
      OpenNext(fs, h, n);
    }
    SubsNext(fs, n, n);
    if IsStart(fs, n) {
      assert OpenAt(fs, n, n + 1);
    }
  }

  lemma MaintenanceStep(fs: seq<Frame>, n: nat, m: MaintenanceLatches)
    requires n < |fs| && MaintenanceLatched(fs, n, m)
    ensures MaintenanceLatched(fs, n + 1, FeedMaintenance(m, LastKnown(fs, n), fs[n]).0)
    ensures FeedMaintenance(m, LastKnown(fs, n), fs[n]).1 == ExpectedMaintenance(fs, n)
  {
    var next := n + 1;
    if m.process.Some? {
      var i: nat :| MaintenanceAt(fs, i, n);
      KnownWhileMaintenance(fs, i, n);
      forall h: nat ensures MaintenanceAt(fs, h, next) <==> h == i && (Known(fs, n) ==> InMaintenance(fs, n)) {
        MaintenanceNext(fs, h, n);
        if MaintenanceAt(fs, h, n) {
          MaintenanceIsUnique(fs, n, i, h);
        }
      }
      forall h: nat | MaintenanceAt(fs, h, n) ensures h == i {
        MaintenanceIsUnique(fs, n, i, h);
      }
      if Known(fs, n) ==> InMaintenance(fs, n) {
        assert MaintenanceAt(fs, i, next);
      }
    } else {
      CountedWhenKnown(fs, n);
      NoProcedureOpen(fs, n);
      forall h: nat ensures MaintenanceAt(fs, h, next) <==> h == n && IsMaintenanceStart(fs, n) {
        MaintenanceNext(fs, h, n);
        assert !MaintenanceAt(fs, h, n);
      }
      if IsMaintenanceStart(fs, n) {
        assert MaintenanceAt(fs, n, next);
      }
    }
  }

  lemma MaintenanceNext(fs: seq<Frame>, i: nat, n: nat)
    requires n < |fs|
    ensures MaintenanceAt(fs, i, n + 1) <==>
            (i == n && IsMaintenanceStart(fs, n)) ||
            (MaintenanceAt(fs, i, n) && (Known(fs, n) ==> InMaintenance(fs, n)))
  {
  }

  /** With no procedure open, a known last code is not maintenance unless it is the first code of all. */
  lemma {:induction false} NoProcedureOpen(fs: seq<Frame>, n: nat)
    requires n <= |fs|
    requires !exists i: nat :: MaintenanceAt(fs, i, n)
    ensures LastKnown(fs, n).Some? && IsMaintenance(LastKnown(fs, n).value) ==> KnownCount(fs, n) == 1
  {
    CountedWhenKnown(fs, n);
    if n > 0 {
      var m := n - 1;
      CountedWhenKnown(fs, m);
      if !Known(fs, m) || InMaintenance(fs, m) {
        forall i: nat ensures !MaintenanceAt(fs, i, m) {
          MaintenanceNext(fs, i, m);
          assert !MaintenanceAt(fs, i, n);
        }
        NoProcedureOpen(fs, m);
        assert !MaintenanceAt(fs, m, n);
      }
    }
  }

  lemma PromptStep(fs: seq<Frame>, n: nat, q: PromptLatches)
    requires n < |fs| && PromptLatched(fs, n, q)
    ensures PromptLatched(fs, n + 1, FeedPrompt(q, fs[n], BrewOpen(fs, n + 1)).0)
    ensures FeedPrompt(q, fs[n], BrewOpen(fs, n + 1)).1 == ExpectedPrompts(fs, n)
  {
  }

  lemma BrewStep(fs: seq<Frame>, n: nat, b: BrewLatches)
    requires n < |fs| && BrewLatched(fs, n, b)
    ensures BrewLatched(fs, n + 1, FeedBrew(b, LastKnown(fs, n), fs[n]).0)
    ensures FeedBrew(b, LastKnown(fs, n), fs[n]).1 == ExpectedBrew(fs, n)
  {
    if BrewOpen(fs, n) {
      var i: nat :| OpenAt(fs, i, n);
      OpenBrewStep(fs, i, n, b);
    } else {
      IdleBrewStep(fs, n, b);
    }
  }

  lemma {:induction false} ProcessFollowsTrace(fs: seq<Frame>, n: nat)
    requires n <= |fs|
    ensures After(fs, n).prevProcess == LastKnown(fs, n)
  {
    if n > 0 {
      ProcessFollowsTrace(fs, n - 1);
    }
  }

  lemma {:induction false} BrewFollowsTrace(fs: seq<Frame>, n: nat)
    requires n <= |fs|
    ensures BrewLatched(fs, n, After(fs, n).brew)
  {
    if n > 0 {
      ProcessFollowsTrace(fs, n - 1);
      BrewFollowsTrace(fs, n - 1);
      BrewStep(fs, n - 1, After(fs, n - 1).brew);
    }
  }

  lemma {:induction false} MaintenanceFollowsTrace(fs: seq<Frame>, n: nat)
    requires n <= |fs|
    ensures MaintenanceLatched(fs, n, After(fs, n).maintenance)
  {
    if n > 0 {
      ProcessFollowsTrace(fs, n - 1);
      MaintenanceFollowsTrace(fs, n - 1);
      MaintenanceStep(fs, n - 1, After(fs, n - 1).maintenance);
    }
  }

  lemma {:induction false} PromptsFollowTrace(fs: seq<Frame>, n: nat)
    requires n <= |fs|
    ensures PromptLatched(fs, n, After(fs, n).prompts)
  {
    if n > 0 {
      BrewFollowsTrace(fs, n);
      PromptsFollowTrace(fs, n - 1);
      PromptStep(fs, n - 1, After(fs, n - 1).prompts);
    }
  }

  /** The incremental detector computes the declarative function of the trace, for every trace and every frame. */
  lemma EventsAreTraceFunction(fs: seq<Frame>, j: nat)
    requires j < |fs|
    ensures EventsAt(fs, j) == Expected(fs, j)
  {
    var d := After(fs, j);
    ProcessFollowsTrace(fs, j);
    BrewFollowsTrace(fs, j);
    BrewFollowsTrace(fs, j + 1);
    MaintenanceFollowsTrace(fs, j);
    PromptsFollowTrace(fs, j);
    BrewStep(fs, j, d.brew);
    MaintenanceStep(fs, j, d.maintenance);
    PromptStep(fs, j, d.prompts);
    assert Feed(d, fs[j]).0 == After(fs, j + 1);
  }

  // ----- what a terminal event says about the brew -----

  /** The machine reported that leg of the preparation on a frame from i on and before j. */
  ghost predicate SeenIn(fs: seq<Frame>, i: nat, j: nat, leg: SubProcess)
    requires j <= |fs|
  {
    exists k :: i <= k < j && fs[k].status.subProcess == Some(leg)
  }

  lemma LegsAreSeen(fs: seq<Frame>, i: nat, j: nat, leg: SubProcess)
    requires j <= |fs|
    ensures leg in SubsIn(fs, i, j) <==> SeenIn(fs, i, j, leg)
  {
  }

  predicate IsTerminal(e: Event) {
    e.BrewFinished? || e.BrewCancelled?
  }

  lemma OthersAreNotTerminal(fs: seq<Frame>, j: nat)
    requires j < |fs|
    ensures forall e | e in ExpectedMaintenance(fs, j) || e in ExpectedPrompts(fs, j) :: !IsTerminal(e)
  {
  }

  lemma OneTerminal(fs: seq<Frame>, i: nat, j: nat)
    requires i < j < |fs| && OpenAt(fs, i, j) && Ends(fs, i, j)
    ensures Terminal(fs, i, j) in EventsAt(fs, j)
    ensures forall e | e in EventsAt(fs, j) && IsTerminal(e) :: e == Terminal(fs, i, j)
  {
    EventsAreTraceFunction(fs, j);
    TerminalIsExpected(fs, i, j);
    OthersAreNotTerminal(fs, j);
    InTheMiddle(ExpectedMaintenance(fs, j), Terminal(fs, i, j), ExpectedPrompts(fs, j));
  }

  lemma InTheMiddle(a: seq<Event>, e: Event, b: seq<Event>)
    ensures forall x :: x in a + [e] + b <==> x in a || x == e || x in b
  {
  }

  /** The shape of a finished brew, from the legs its frames reported: steam and coffee, grinding included, make a coffee
      with milk, either alone milk or a coffee, and water counts when there is neither. Frames that prepare say nothing. */
  lemma ShapeFollowsTrace(fs: seq<Frame>, i: nat, j: nat, e: Event)
    requires i < j < |fs| && OpenAt(fs, i, j) && Ends(fs, i, j)
    requires e in EventsAt(fs, j) && e.BrewFinished?
    ensures var steam, coffee := SeenIn(fs, i, j, Steam), SeenIn(fs, i, j, Coffee) || SeenIn(fs, i, j, Grinding);
            && (e.shape == Some(CoffeeWithMilkShape) <==> steam && coffee)
            && (e.shape == Some(MilkShape) <==> steam && !coffee)
            && (e.shape == Some(CoffeeShape) <==> coffee && !steam)
            && (e.shape == Some(WaterShape) <==> SeenIn(fs, i, j, Water) && !steam && !coffee)
            && (e.shape == None <==> !SeenIn(fs, i, j, Water) && !steam && !coffee)
  {
    OneTerminal(fs, i, j);
    forall leg: SubProcess ensures leg in SubsIn(fs, i, j) <==> SeenIn(fs, i, j, leg) {
      LegsAreSeen(fs, i, j, leg);
    }
  }

  /** Phase p of the drink in that record is still to be brewed. */
  predicate PhaseLeft(record: BrewIntent, p: int) {
    var index, total := Get(record.extra, "phase_index"), AsInt(Get(record.extra, "phase_total"));
    index.JInt? && total.Some? && index.number < p < total.value
  }

  /** A terminal event is the final one exactly when no phase is left of the record captured at the start; it lasted the
      whole seconds between the two frames. */
  lemma TerminalFollowsTrace(fs: seq<Frame>, i: nat, j: nat, e: Event)
    requires i < j < |fs| && OpenAt(fs, i, j) && Ends(fs, i, j)
    requires e in EventsAt(fs, j) && IsTerminal(e)
    ensures e.final <==> forall record, p: int | Captured(fs[i]) == Some(record) :: !PhaseLeft(record, p)
    ensures var span := fs[j].now - fs[i].now;
            if span < 0.0 then e.duration == 0 else e.duration as real <= span < e.duration as real + 1.0
    ensures e.cancelDetection == fs[j].cancelDetection
  {
    OneTerminal(fs, i, j);
    FinalIffNoneLeft(Captured(fs[i]));
  }

  lemma FinalIffNoneLeft(record: Option<BrewIntent>)
    ensures IsFinal(record) <==> forall r, p: int | record == Some(r) :: !PhaseLeft(r, p)
  {
    if !IsFinal(record) {
      assert PhaseLeft(record.value, Get(record.value.extra, "phase_index").number + 1);
    }
  }

  /** A raised prompt is the one of its frame; it is soft for the two prompts the machine asks for between phases, confirmed
      automatically when it is soft and that is enabled, and says whether a brew is in flight after the frame. */
  lemma RaisedPromptSays(fs: seq<Frame>, j: nat, e: Event)
    requires j < |fs| && e in EventsAt(fs, j) && e.PromptRaised?
    ensures e.prompt == fs[j].status.manipulation && e.prompt != NoManipulation
    ensures j > 0 && fs[j - 1].status.manipulation != e.prompt
    ensures e.soft <==> e.prompt == MoveCupToFrother || e.prompt == FlushRequired
    ensures e.autoConfirm <==> e.soft && fs[j].autoConfirm
    ensures e.duringBrew <==> BrewOpen(fs, j + 1)
  {
    EventsAreTraceFunction(fs, j);
    BrewIsNoPrompt(fs, j);
    InThird(ExpectedMaintenance(fs, j), ExpectedBrew(fs, j), ExpectedPrompts(fs, j), e);
  }

  lemma BrewIsNoPrompt(fs: seq<Frame>, j: nat)
    requires j < |fs|
    ensures forall e | e in ExpectedMaintenance(fs, j) || e in ExpectedBrew(fs, j) :: !e.PromptRaised?
  {
  }

  lemma InThird(a: seq<Event>, b: seq<Event>, c: seq<Event>, e: Event)
    requires e in a + b + c && e !in a && e !in b
    ensures e in c
  {
  }

  /** Later frames do not change what earlier ones left behind. */
  lemma {:induction false} AfterOfPrefix(fs: seq<Frame>, more: seq<Frame>, n: nat)
    requires n <= |fs|
    ensures After(fs + more, n) == After(fs, n)
  {
    if n > 0 {
      AfterOfPrefix(fs, more, n - 1);
    }
  }

  lemma NextFrame(fs: seq<Frame>, f: Frame)
    ensures After(fs + [f], |fs| + 1) == Feed(After(fs, |fs|), f).0
    ensures Expected(fs + [f], |fs|) == Feed(After(fs, |fs|), f).1
  {
    AfterOfPrefix(fs, [f], |fs|);
    EventsAreTraceFunction(fs + [f], |fs|);
  }
}
