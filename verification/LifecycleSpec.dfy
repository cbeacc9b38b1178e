/**
 The lifecycle detector: folds machine status frames into brew, prompt and maintenance events.

 One step of the detector, as functions on its latches. LifecycleDetector in module Lifecycle does the same steps in
 place and is proved against these functions; what the steps add up to over a whole trace is proved in LifecycleTrace
 and LifecycleLedger.
 */
module LifecycleSpec {
  import opened Prelude
  import opened Domain

  const BREW_INTENT_TTL_S := 60.0
  const BREW_MAX_DURATION_S := 1800.0

  /** The recipe facts of a brew record; an absent fact is None. */
  datatype RecipeFacts = RecipeFacts(
    recipeSource: Option<string>,
    recipeKey: Option<string>,
    recipeName: Option<string>,
    profile: Option<int>,
    profileName: Option<string>,
    twoCups: Option<bool>,
    slot: Option<int>)

  /** What HA knew when it asked the machine to brew. */
  datatype BrewIntent = BrewIntent(notedAt: real, facts: RecipeFacts, extra: map<string, Json>, haCancelled: bool) {
    predicate IsFresh(now: real) {
      now - notedAt <= BREW_INTENT_TTL_S
    }
  }

  datatype Shape = CoffeeShape | CoffeeWithMilkShape | MilkShape | WaterShape

  datatype CancelSource = ByHa | ByMachine | ByPowerOff

  /** What a brew event says about the record it was started with. */
  datatype Origin = FromMachine | FromHa(facts: RecipeFacts, extra: map<string, Json>)

  datatype Event =
    | BrewStarted(origin: Origin)
    | BrewFinished(origin: Origin, duration: nat, cancelDetection: bool, final: bool, shape: Option<Shape>)
    | BrewCancelled(origin: Origin, duration: nat, cancelDetection: bool, final: bool, source: CancelSource)
    | PromptRaised(prompt: Manipulation, soft: bool, autoConfirm: bool, duringBrew: bool)
    | PromptCleared(prompt: Manipulation, duration: nat)
    | MaintenanceFinished(process: Process, duration: nat)

  /** One call of `feed`: the status and everything the caller hands in with it. */
  datatype Frame = Frame(
    status: MachineStatus,
    intent: Option<BrewIntent>,
    now: real,
    autoConfirm: bool,
    cancelDetection: bool,
    haCancelled: bool)

  /** What is latched about the brew in flight. */
  datatype BrewLatches = BrewLatches(
    brewing: bool,
    startedAt: Option<real>,
    subProcesses: set<SubProcess>,
    cancelLatched: bool,
    haCancelLatched: bool,
    intent: Option<BrewIntent>)

  datatype MaintenanceLatches = MaintenanceLatches(process: Option<Process>, startedAt: Option<real>)

  datatype PromptLatches = PromptLatches(
    previous: Option<Manipulation>,
    prompt: Option<Manipulation>,
    startedAt: Option<real>)

  /** Every latch of the detector. */
  datatype Latches = Latches(
    prevProcess: Option<Process>,
    brew: BrewLatches,
    maintenance: MaintenanceLatches,
    prompts: PromptLatches,
    consumedIntent: bool)

  const NO_BREW := BrewLatches(false, None, {}, false, false, None)
  const NO_MAINTENANCE := MaintenanceLatches(None, None)
  const NO_PROMPT := PromptLatches(None, None, None)
  const INITIAL := Latches(None, NO_BREW, NO_MAINTENANCE, NO_PROMPT, false)

  function Seconds(span: real): nat {
    if span < 0.0 then 0 else span.Floor
  }

  /** Whole seconds since `startedAt`, clamped at 0 and 0 when it is unknown. */
  function Duration(startedAt: Option<real>, now: real): nat {
    match startedAt
    case None => 0
    case Some(at) => Seconds(now - at)
  }

  function OriginOf(intent: Option<BrewIntent>): Origin {
    match intent
    case None => FromMachine
    case Some(i) => FromHa(i.facts, i.extra)
  }

  /** False only while a multi-phase drink has phases left to brew. */
  predicate IsFinal(intent: Option<BrewIntent>) {
    intent.None? ||
    var index, total := Get(intent.value.extra, "phase_index"), AsInt(Get(intent.value.extra, "phase_total"));
    !index.JInt? || total.None? || index.number >= total.value - 1
  }

  function ClassifyBrewShape(observed: set<SubProcess>): Option<Shape> {
    var seen := observed - {Prepare};
    var steam, coffee := Steam in seen, Coffee in seen || Grinding in seen;
    if steam && coffee then Some(CoffeeWithMilkShape)
    else if steam then Some(MilkShape)
    else if coffee then Some(CoffeeShape)
    else if Water in seen then Some(WaterShape)
    else None
  }

  // ----- one step, on values -----

  predicate Expires(b: BrewLatches, now: real) {
    b.brewing && b.startedAt.Some? && now - b.startedAt.value > BREW_MAX_DURATION_S
  }

  function ExpireStaleBrew(b: BrewLatches, now: real): BrewLatches {
    if Expires(b, now) then NO_BREW else b
  }

  function LatchCancels(b: BrewLatches, f: Frame): BrewLatches {
    if b.brewing
    then b.(cancelLatched := b.cancelLatched || CancelBit(f.status),
            haCancelLatched := b.haCancelLatched || f.haCancelled)
    else b
  }

  /** The record a brew-start edge captures: a stale one is discarded. */
  function TakeIntent(intent: Option<BrewIntent>, now: real): Option<BrewIntent> {
    if intent.Some? && intent.value.IsFresh(now) then intent else None
  }

  function CancelSourceOf(b: BrewLatches, process: Process): Option<CancelSource> {
    if b.haCancelLatched || (b.intent.Some? && b.intent.value.haCancelled) then Some(ByHa)
    else if b.cancelLatched then Some(ByMachine)
    else if process == SwitchOff then Some(ByPowerOff)
    else None
  }

  function TerminalEvent(b: BrewLatches, process: Process, f: Frame): Event {
    var origin, duration := OriginOf(b.intent), Duration(b.startedAt, f.now);
    match CancelSourceOf(b, process)
    case None =>
      BrewFinished(origin, duration, f.cancelDetection, IsFinal(b.intent), ClassifyBrewShape(b.subProcesses))
    case Some(source) => BrewCancelled(origin, duration, f.cancelDetection, IsFinal(b.intent), source)
  }

  function StartBrew(f: Frame): BrewLatches {
    BrewLatches(true, Some(f.now), {}, false, false, TakeIntent(f.intent, f.now))
  }

  /** A frame that starts a brew when none is in flight. */
  predicate StartEdge(prev: Option<Process>, f: Frame) {
    prev !in {None, Some(Product)} && f.status.process == Some(Product)
  }

  function BrewEdge(b: BrewLatches, prev: Option<Process>, f: Frame): (BrewLatches, seq<Event>) {
    if prev.None? || f.status.process.None? then (b, [])
    else if b.brewing && f.status.process.value != Product then
      (NO_BREW, [TerminalEvent(b, f.status.process.value, f)])
    else if StartEdge(prev, f) then (StartBrew(f), [BrewStarted(OriginOf(TakeIntent(f.intent, f.now)))])
    else (b, [])
  }

  function ObserveSubProcess(b: BrewLatches, sub: Option<SubProcess>): BrewLatches {
    if b.brewing && sub.Some? then b.(subProcesses := b.subProcesses + {sub.value}) else b
  }

  /** What one frame does to the brew: expiry, cancel latches, process edge, sub-process. */
  function FeedBrew(b: BrewLatches, prev: Option<Process>, f: Frame): (BrewLatches, seq<Event>) {
    var (edged, events) := BrewEdge(LatchCancels(ExpireStaleBrew(b, f.now), f), prev, f);
    (ObserveSubProcess(edged, f.status.subProcess), events)
  }

  function FeedMaintenance(m: MaintenanceLatches, prev: Option<Process>, f: Frame): (MaintenanceLatches, seq<Event>) {
    if prev.None? || f.status.process.None? then (m, [])
    else
      var process := f.status.process.value;
      if IsMaintenance(process) then
        (if m.process.None? then MaintenanceLatches(Some(process), Some(f.now)) else m, [])
      else if m.process.Some? then
        (NO_MAINTENANCE, [MaintenanceFinished(m.process.value, Duration(m.startedAt, f.now))])
      else (m, [])
  }

  function FeedPrompt(q: PromptLatches, f: Frame, brewing: bool): (PromptLatches, seq<Event>) {
    var m := f.status.manipulation;
    if q.previous == Some(m) then (q, [])
    else
      var prev := q.previous.GetOr(NoManipulation);
      (if IsPrompt(m) then PromptLatches(Some(m), Some(m), Some(f.now))
       else if IsPrompt(prev) then PromptLatches(Some(m), None, None)
       else q.(previous := Some(m)),
       (if IsPrompt(prev) then [PromptCleared(prev, Duration(q.startedAt, f.now))] else []) +
       (if q.previous.Some? && IsPrompt(m)
        then [PromptRaised(m, IsSoftPrompt(m), IsSoftPrompt(m) && f.autoConfirm, brewing)]
        else []))
  }

  /** One frame: the brew, maintenance and prompt latches move on their own, a raised prompt only asks for the brew. */
  function Feed(d: Latches, f: Frame): (Latches, seq<Event>) {
    var (maintenance, finished) := FeedMaintenance(d.maintenance, d.prevProcess, f);
    var (brew, brewed) := FeedBrew(d.brew, d.prevProcess, f);
    var (prompts, prompted) := FeedPrompt(d.prompts, f, brew.brewing);
    (Latches(if f.status.process.Some? then f.status.process else d.prevProcess, brew, maintenance, prompts,
             ConsumesIntent(d, f)),
     finished + brewed + prompted)
  }

  /** True when the frame takes the staged record, fresh or stale. */
  predicate ConsumesIntent(d: Latches, f: Frame) {
    f.intent.Some? && StartEdge(d.prevProcess, f)
  }
}
