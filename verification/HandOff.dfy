/**
 The hand-off between the brew commands (producer), the client's single-slot stage, the event entity (consumer) and the
 detector. A run is any interleaving of staged brews, annotations, acknowledged cancels, status frames and link changes.
 */
module HandOff {
  import opened Prelude
  import opened Domain
  import opened LifecycleSpec
  import opened LifecycleLedger
  import opened Lifecycle
  import Trace = LifecycleTrace

  datatype System = System(stage: Option<BrewIntent>, haCancelPending: bool, detector: Latches)

  const START := System(None, false, INITIAL)

  datatype Action =
    | StageIntent(notedAt: real, facts: RecipeFacts)
    | Annotate(newFacts: Option<RecipeFacts>, extra: map<string, Json>)
    | CancelAcked(process: Process)
    | Report(status: MachineStatus, now: real, autoConfirm: bool, cancelDetection: bool)
    | Link(connected: bool)

  function Annotated(i: BrewIntent, newFacts: Option<RecipeFacts>, extra: map<string, Json>): BrewIntent {
    i.(facts := newFacts.GetOr(i.facts), extra := i.extra + extra)
  }

  function FrameOf(s: System, a: Action): Frame
    requires a.Report?
  {
    Frame(a.status, s.stage, a.now, a.autoConfirm, a.cancelDetection, s.haCancelPending)
  }

  function Step(s: System, a: Action): (System, seq<Event>) {
    match a
    case StageIntent(at, facts) => (s.(stage := Some(BrewIntent(at, facts, map[], false))), [])
    case Annotate(facts, extra) =>
      (if s.stage.Some? then s.(stage := Some(Annotated(s.stage.value, facts, extra))) else s, [])
    case CancelAcked(process) =>
      (if process != Product then s
       else s.(stage := if s.stage.Some? then Some(s.stage.value.(haCancelled := true)) else None,
               haCancelPending := true),
       [])
    case Report(_, _, _, _) =>
      var (detector, events) := Feed(s.detector, FrameOf(s, a));
      (System(if detector.consumedIntent then None else s.stage, false, detector), events)
    case Link(connected) => (if connected then s else START, [])
  }

  // ----- the client's stage and the commands that write it -----

  class BrewStage {
    var brewIntent: Option<BrewIntent>
    var haCancelPending: bool

    constructor ()
      ensures brewIntent.None? && !haCancelPending
    {
      brewIntent, haCancelPending := None, false;
    }

    method TakeBrewIntent() returns (intent: Option<BrewIntent>)
      modifies `brewIntent
      ensures intent == old(brewIntent) && brewIntent.None?
    {
      intent := brewIntent;
      brewIntent := None;
    }

    method TakeHaCancel() returns (pending: bool)
      modifies `haCancelPending
      ensures pending == old(haCancelPending) && !haCancelPending
    {
      pending := haCancelPending;
      haCancelPending := false;
    }

    method ClearBrewIntent()
      modifies this
      ensures brewIntent.None? && !haCancelPending
    {
      brewIntent := None;
      haCancelPending := false;
    }

    /** Stages the record of a brew the machine has just acknowledged, over any earlier one. */
    method RecordBrewIntent(now: real, facts: RecipeFacts)
      modifies `brewIntent
      ensures forall d: Latches ::
                System(brewIntent, haCancelPending, d) ==
                Step(System(old(brewIntent), haCancelPending, d), StageIntent(now, facts)).0
    {
      brewIntent := Some(BrewIntent(now, facts, map[], false));
    }

    method AnnotateBrewIntent(newFacts: Option<RecipeFacts>, extra: map<string, Json>)
      modifies `brewIntent
      ensures forall d: Latches ::
                System(brewIntent, haCancelPending, d) ==
                Step(System(old(brewIntent), haCancelPending, d), Annotate(newFacts, extra)).0
    {
      if brewIntent.None? {
        return;
      }
      brewIntent := Some(Annotated(brewIntent.value, newFacts, extra));
    }

    /** Only an acknowledged PRODUCT cancel is recorded, on the staged record and beside it. */
    method CancelProcess(connected: bool, acked: bool, process: Process) returns (ok: bool)
      modifies this
      ensures ok == (connected && acked)
      ensures !ok ==> brewIntent == old(brewIntent) && haCancelPending == old(haCancelPending)
      ensures ok ==> forall d: Latches ::
                System(brewIntent, haCancelPending, d) ==
                Step(System(old(brewIntent), old(haCancelPending), d), CancelAcked(process)).0
    {
      if !connected {
        return false;
      }
      ok := acked;
      if ok && process == Product {
        if brewIntent.Some? {
          brewIntent := Some(brewIntent.value.(haCancelled := true));
        }
        haCancelPending := true;
      }
    }
  }

  // ----- the event entity -----

  class MachineEvent {
    const client: BrewStage
    const detector: LifecycleDetector

    ghost function State(): System
      reads this, client, detector
    {
      System(client.brewIntent, client.haCancelPending, detector.State())
    }

    constructor (client: BrewStage, detector: LifecycleDetector)
      ensures this.client == client && this.detector == detector
    {
      this.client, this.detector := client, detector;
    }

    /** Feeds one frame with the staged record and the popped cancel flag, and pops the record when it was taken. */
    method OnStatus(a: Action) returns (events: seq<Event>)
      requires a.Report? && detector.Valid()
      modifies client, detector
      ensures detector.Valid()
      ensures State() == Step(old(State()), a).0 && events == Step(old(State()), a).1
    {
      var pending := client.TakeHaCancel();
      events := detector.Feed(Frame(a.status, client.brewIntent, a.now, a.autoConfirm, a.cancelDetection, pending));
      if detector.consumedIntent {
        var _ := client.TakeBrewIntent();
      }
    }

    method OnConnectionChange(connected: bool)
      requires detector.Valid()
      modifies client, detector
      ensures detector.Valid()
      ensures State() == Step(old(State()), Link(connected)).0
    {
      if !connected {
        detector.Reset();
        client.ClearBrewIntent();
      }
    }
  }

  // ----- runs -----

  /** The system before action n of a run. */
  function At(acts: seq<Action>, n: nat): System
    requires n <= |acts|
  {
    if n == 0 then START else Step(At(acts, n - 1), acts[n - 1]).0
  }

  function EventsOf(acts: seq<Action>, n: nat): seq<Event>
    requires n < |acts|
  {
    Step(At(acts, n), acts[n]).1
  }

  /** Action n is a status frame that starts a brew. */
  predicate StartsAt(acts: seq<Action>, n: nat)
    requires n < |acts|
  {
    acts[n].Report? && StartEdge(At(acts, n).detector.prevProcess, FrameOf(At(acts, n), acts[n]))
  }

  predicate IsDrop(a: Action) {
    a == Link(false)
  }

  /** HA's cancel of a brew is acknowledged strictly between actions a and b. */
  ghost predicate CancelBetween(acts: seq<Action>, a: int, b: nat)
    requires b <= |acts|
  {
    exists c: nat :: a < c < b && acts[c] == CancelAcked(Product)
  }

  /** The record staged by action s is the one waiting before action n. */
  ghost predicate WaitingFrom(acts: seq<Action>, s: nat, n: nat)
    requires n <= |acts|
  {
    && s < n
    && acts[s].StageIntent?
    && forall k: nat | s < k < n :: !acts[k].StageIntent? && !IsDrop(acts[k]) && !StartsAt(acts, k)
  }

  /** The record of action s with everything recorded on it before action n. */
  function RecordAt(acts: seq<Action>, s: nat, n: nat): BrewIntent
    requires s < n <= |acts| && acts[s].StageIntent?
  {
    if n == s + 1 then BrewIntent(acts[s].notedAt, acts[s].facts, map[], false)
    else
      var record, a := RecordAt(acts, s, n - 1), acts[n - 1];
      if a.Annotate? then Annotated(record, a.newFacts, a.extra)
      else if a == CancelAcked(Product) then record.(haCancelled := true)
      else record
  }

  lemma {:induction false} RecordSays(acts: seq<Action>, s: nat, n: nat)
    requires s < n <= |acts| && acts[s].StageIntent?
    ensures RecordAt(acts, s, n).notedAt == acts[s].notedAt
    ensures RecordAt(acts, s, n).haCancelled <==> CancelBetween(acts, s, n)
  {
    if n > s + 1 {
      RecordSays(acts, s, n - 1);
    }
  }

  /** Action c annotates that key. */
  predicate Carries(acts: seq<Action>, c: nat, key: string)
    requires c < |acts|
  {
    acts[c].Annotate? && key in acts[c].extra
  }

  predicate Restates(acts: seq<Action>, c: nat)
    requires c < |acts|
  {
    acts[c].Annotate? && acts[c].newFacts.Some?
  }

  /** The annotation of action c is the last one after s and before n to carry that key. */
  ghost predicate LastCarrier(acts: seq<Action>, s: nat, n: nat, key: string, c: nat)
    requires n <= |acts|
  {
    s < c < n && Carries(acts, c, key) && forall d: nat | c < d < n :: !Carries(acts, d, key)
  }

  ghost predicate LastFacts(acts: seq<Action>, s: nat, n: nat, c: nat)
    requires n <= |acts|
  {
    s < c < n && Restates(acts, c) && forall d: nat | c < d < n :: !Restates(acts, d)
  }

  /** Annotations merge: each extra key has the value that the last annotation carrying it gave, and no other key is
      there. */
  lemma {:induction false} ExtrasMerge(acts: seq<Action>, s: nat, n: nat, key: string)
    requires s < n <= |acts| && acts[s].StageIntent?
    ensures var extra := RecordAt(acts, s, n).extra;
            && (key in extra <==> exists c: nat :: LastCarrier(acts, s, n, key, c))
            && (forall c: nat | LastCarrier(acts, s, n, key, c) :: extra[key] == acts[c].extra[key])
  {
    if n > s + 1 {
      var m := n - 1;
      ExtrasMerge(acts, s, m, key);
      if Carries(acts, m, key) {
        assert LastCarrier(acts, s, n, key, m);
        assert forall c: nat | LastCarrier(acts, s, n, key, c) :: c == m;
      } else {
        forall c: nat ensures LastCarrier(acts, s, n, key, c) <==> LastCarrier(acts, s, m, key, c) {
        }
        if key in RecordAt(acts, s, m).extra {
          var c: nat :| LastCarrier(acts, s, m, key, c);
          assert LastCarrier(acts, s, n, key, c);
        }
      }
    }
  }

  /** The facts are those of the last annotation that has any, or the staged ones. */
  lemma {:induction false} LastFactsStand(acts: seq<Action>, s: nat, n: nat)
    requires s < n <= |acts| && acts[s].StageIntent?
    ensures forall c: nat | LastFacts(acts, s, n, c) :: Some(RecordAt(acts, s, n).facts) == acts[c].newFacts
    ensures (forall c: nat :: !LastFacts(acts, s, n, c)) ==> RecordAt(acts, s, n).facts == acts[s].facts
  {
    if n > s + 1 {
      var m := n - 1;
      LastFactsStand(acts, s, m);
      if Restates(acts, m) {
        assert LastFacts(acts, s, n, m);
      } else {
        forall c: nat ensures LastFacts(acts, s, n, c) <==> LastFacts(acts, s, m, c) {
        }
      }
    }
  }

  // ----- the detector of the composed system -----

  /** The frames that reached the detector since the last disconnect, with what was staged and pending at each. */
  function FramesSince(acts: seq<Action>, n: nat): seq<Frame>
    requires n <= |acts|
  {
    if n == 0 || IsDrop(acts[n - 1]) then []
    else if acts[n - 1].Report? then FramesSince(acts, n - 1) + [FrameOf(At(acts, n - 1), acts[n - 1])]
    else FramesSince(acts, n - 1)
  }

  ghost predicate SeenBy(d: Latches, fs: seq<Frame>) {
    d == Trace.After(fs, |fs|)
  }

  lemma OneMoreFrame(d: Latches, fs: seq<Frame>, f: Frame)
    requires SeenBy(d, fs)
    ensures SeenBy(Feed(d, f).0, fs + [f])
    ensures Feed(d, f).1 == Trace.Expected(fs + [f], |fs|)
  {
    Trace.NextFrame(fs, f);
  }

  lemma DetectorStep(s: System, a: Action, fs: seq<Frame>)
    requires SeenBy(s.detector, fs)
    ensures SeenBy(Step(s, a).0.detector,
                   if IsDrop(a) then [] else if a.Report? then fs + [FrameOf(s, a)] else fs)
    ensures a.Report? ==> Step(s, a).1 == Trace.Expected(fs + [FrameOf(s, a)], |fs|)
  {
    if a.Report? {
      OneMoreFrame(s.detector, fs, FrameOf(s, a));
    }
  }

  /** The detector has seen exactly the frames since the last disconnect. */
  lemma {:induction false} DetectorIsOfItsFrames(acts: seq<Action>, n: nat)
    requires n <= |acts|
    ensures SeenBy(At(acts, n).detector, FramesSince(acts, n))
  {
    if n > 0 {
      DetectorIsOfItsFrames(acts, n - 1);
      DetectorStep(At(acts, n - 1), acts[n - 1], FramesSince(acts, n - 1));
    }
  }

  /** So what the event entity fires for a status is the trace function of the frames since the last disconnect, the last
      of which carries the status with what was staged and pending when it came. */
  lemma EventsAreOfItsFrames(acts: seq<Action>, n: nat)
    requires n < |acts| && acts[n].Report?
    ensures var fs, s, a := FramesSince(acts, n), At(acts, n), acts[n];
            var last := Frame(a.status, s.stage, a.now, a.autoConfirm, a.cancelDetection, s.haCancelPending);
            EventsOf(acts, n) == Trace.Expected(fs + [last], |fs|) && FramesSince(acts, n + 1) == fs + [last]
  {
    DetectorIsOfItsFrames(acts, n);
    DetectorStep(At(acts, n), acts[n], FramesSince(acts, n));
  }

  lemma {:induction false} DetectorIsCoherent(acts: seq<Action>, n: nat)
    requires n <= |acts|
    ensures Coherent(At(acts, n).detector)
  {
    if n > 0 {
      DetectorIsCoherent(acts, n - 1);
      if acts[n - 1].Report? {
        CoherentStep(At(acts, n - 1).detector, FrameOf(At(acts, n - 1), acts[n - 1]));
      }
    }
  }

  /** The stage holds exactly the last staged record that no start, no newer record and no disconnect has removed. */
  lemma {:induction false} StageIsExact(acts: seq<Action>, n: nat)
    requires n <= |acts|
    ensures At(acts, n).stage.Some? <==> exists s: nat :: WaitingFrom(acts, s, n)
    ensures forall s: nat | WaitingFrom(acts, s, n) :: At(acts, n).stage == Some(RecordAt(acts, s, n))
  {
    if n > 0 {
      var m := n - 1;
      StageIsExact(acts, m);
      forall s: nat ensures WaitingFrom(acts, s, n) <==>
          (s == m && acts[m].StageIntent?) ||
          (WaitingFrom(acts, s, m) && !acts[m].StageIntent? && !IsDrop(acts[m]) && !StartsAt(acts, m))
      {
      }
      if acts[m].StageIntent? {
        assert WaitingFrom(acts, m, n);
      }
    }
  }

  lemma WaitingFromIsUnique(acts: seq<Action>, n: nat, s: nat, s': nat)
    requires n <= |acts| && WaitingFrom(acts, s, n) && WaitingFrom(acts, s', n)
    ensures s == s'
  {
  }

  lemma {:induction false} PendingIsExact(acts: seq<Action>, n: nat)
    requires n <= |acts|
    ensures At(acts, n).haCancelPending <==>
            exists c: nat :: c < n && acts[c] == CancelAcked(Product) &&
                             forall k: nat | c < k < n :: !acts[k].Report? && !IsDrop(acts[k])
  {
    if n > 0 {
      PendingIsExact(acts, n - 1);
    }
  }

  /** A start frame emits one start event, which quotes what the stage held, and leaves the stage empty. */
  lemma StartEvent(acts: seq<Action>, i: nat)
    requires i < |acts| && StartsAt(acts, i)
    ensures forall o ::
              BrewStarted(o) in EventsOf(acts, i) <==> o == OriginOf(TakeIntent(At(acts, i).stage, acts[i].now))
    ensures At(acts, i + 1).stage.None?
  {
    var d, f := At(acts, i).detector, FrameOf(At(acts, i), acts[i]);
    DetectorIsCoherent(acts, i);
    var brew := FeedBrew(d.brew, d.prevProcess, f);
    var maintenance := FeedMaintenance(d.maintenance, d.prevProcess, f).1;
    var prompts := FeedPrompt(d.prompts, f, brew.0.brewing).1;
    assert EventsOf(acts, i) == maintenance + brew.1 + prompts;
    assert brew.1 == [BrewStarted(OriginOf(TakeIntent(f.intent, f.now)))];
    assert forall e | e in maintenance + prompts :: !e.BrewStarted?;
  }

  /** A start says it came from HA exactly when a record staged at most 60 s earlier is waiting, and quotes that record. */
  lemma StartOrigin(acts: seq<Action>, i: nat, o: Origin)
    requires i < |acts| && StartsAt(acts, i) && BrewStarted(o) in EventsOf(acts, i)
    ensures o.FromHa? <==>
            exists s: nat :: WaitingFrom(acts, s, i) && acts[i].now - acts[s].notedAt <= BREW_INTENT_TTL_S
    ensures forall s: nat | WaitingFrom(acts, s, i) && o.FromHa? ::
              o == FromHa(RecordAt(acts, s, i).facts, RecordAt(acts, s, i).extra)
  {
    StartEvent(acts, i);
    StageIsExact(acts, i);
    forall s: nat | WaitingFrom(acts, s, i) ensures RecordAt(acts, s, i).notedAt == acts[s].notedAt {
      RecordSays(acts, s, i);
    }
    if At(acts, i).stage.Some? {
      var s: nat :| WaitingFrom(acts, s, i);
      forall s': nat | WaitingFrom(acts, s', i) ensures s' == s {
        WaitingFromIsUnique(acts, i, s, s');
      }
    }
  }

  /** A staged record decorates at most one brew: a later HA start has its own record, staged after the earlier start. */
  lemma RecordIsUsedOnce(acts: seq<Action>, a: nat, b: nat, o: Origin)
    requires a < b < |acts| && StartsAt(acts, a) && StartsAt(acts, b)
    requires BrewStarted(o) in EventsOf(acts, b) && o.FromHa?
    ensures exists s: nat :: a < s < b && WaitingFrom(acts, s, b) && acts[b].now - acts[s].notedAt <= BREW_INTENT_TTL_S
  {
    StartOrigin(acts, b, o);
    var s: nat :| WaitingFrom(acts, s, b) && acts[b].now - acts[s].notedAt <= BREW_INTENT_TTL_S;
    assert s != a;
  }

  // ----- who cancelled a brew -----

  /** The brew started by action i is in flight all the way to action j. */
  ghost predicate InFlight(acts: seq<Action>, i: nat, j: nat)
    requires j < |acts|
  {
    && i < j
    && StartsAt(acts, i)
    && forall k: nat | i < k <= j :: At(acts, k).detector.brew.brewing
  }

  /** While a brew is in flight its captured record stands, and a cancel is latched or pending once acknowledged. */
  lemma {:induction false} InFlightLatches(acts: seq<Action>, i: nat, k: nat)
    requires k < |acts| && InFlight(acts, i, k)
    ensures At(acts, k).detector.brew.intent == TakeIntent(At(acts, i).stage, acts[i].now)
    ensures At(acts, k).detector.brew.haCancelLatched || At(acts, k).haCancelPending <==> CancelBetween(acts, i, k)
  {
    DetectorIsCoherent(acts, k - 1);
    if k == i + 1 {
      assert !CancelBetween(acts, i, k);
    } else {
      InFlightLatches(acts, i, k - 1);
      assert At(acts, k).detector.brew.brewing && At(acts, k - 1).detector.brew.brewing;
      assert CancelBetween(acts, i, k) <==> CancelBetween(acts, i, k - 1) || acts[k - 1] == CancelAcked(Product);
    }
  }

  /**
   A brew is reported as cancelled by HA exactly when HA's cancel was acknowledged between its start frame and its
   terminal frame, or between the staging of the fresh record it was started with and its start frame.
   */
  lemma HaCancelIsExact(acts: seq<Action>, i: nat, j: nat, e: Event)
    requires j < |acts| && InFlight(acts, i, j)
    requires e in EventsOf(acts, j) && IsTerminal(e)
    ensures e.BrewCancelled? && e.source == ByHa <==>
            CancelBetween(acts, i, j) ||
            exists s: nat :: && WaitingFrom(acts, s, i)
                             && acts[i].now - acts[s].notedAt <= BREW_INTENT_TTL_S
                             && CancelBetween(acts, s, i)
  {
    InFlightLatches(acts, i, j);
    TerminalOf(acts, j, e);
    StageIsExact(acts, i);
    forall s: nat | WaitingFrom(acts, s, i)
      ensures RecordAt(acts, s, i).notedAt == acts[s].notedAt
      ensures RecordAt(acts, s, i).haCancelled <==> CancelBetween(acts, s, i)
    {
      RecordSays(acts, s, i);
    }
  }

  lemma TerminalOf(acts: seq<Action>, j: nat, e: Event)
    requires j < |acts| && e in EventsOf(acts, j) && IsTerminal(e)
    ensures acts[j].Report?
    ensures var b, pending := At(acts, j).detector.brew, At(acts, j).haCancelPending;
            e.BrewCancelled? && e.source == ByHa <==>
            b.haCancelLatched || pending || (b.intent.Some? && b.intent.value.haCancelled)
  {
    var d, f := At(acts, j).detector, FrameOf(At(acts, j), acts[j]);
    DetectorIsCoherent(acts, j);
    var brew := FeedBrew(d.brew, d.prevProcess, f);
    MaintenanceEvents(d, f);
    PromptEvents(d, f);
    assert EventsOf(acts, j) == FeedMaintenance(d.maintenance, d.prevProcess, f).1 + brew.1 +
                                FeedPrompt(d.prompts, f, brew.0.brewing).1;
    assert e in brew.1;
  }
}
