/** The lifecycle detector as the source has it: an object whose latches every status frame updates in place. */
module Lifecycle {
  import opened Prelude
  import opened Domain
  import opened LifecycleSpec
  import opened LifecycleTrace
  import Spec = LifecycleSpec


  class LifecycleDetector {
    var prevProcess: Option<Process>
    var prevManipulation: Option<Manipulation>
    var brewing: bool
    var brewStartedAt: Option<real>
    var subProcesses: set<SubProcess>
    var cancelLatched: bool
    var haCancelLatched: bool
    var intent: Option<BrewIntent>
    var consumedIntent: bool
    var prompt: Option<Manipulation>
    var promptStartedAt: Option<real>
    var maintenance: Option<Process>
    var maintenanceStartedAt: Option<real>

    /** The frames fed since the last reset. */
    ghost var trace: seq<Frame>

    ghost predicate Valid()
      reads this
    {
      State() == After(trace, |trace|)
    }

    ghost function State(): Latches
      reads this
    {
      Latches(prevProcess, Brew(), Maintenance(), PromptLatches(prevManipulation, prompt, promptStartedAt),
              consumedIntent)
    }

    ghost function Brew(): BrewLatches
      reads this
    {
      BrewLatches(brewing, brewStartedAt, subProcesses, cancelLatched, haCancelLatched, intent)
    }

    ghost function Maintenance(): MaintenanceLatches
      reads this
    {
      MaintenanceLatches(maintenance, maintenanceStartedAt)
    }

    constructor ()
      ensures Valid() && trace == [] && State() == INITIAL
    {
      trace := [];
      prevProcess, prevManipulation := None, None;
      brewing, brewStartedAt, subProcesses := false, None, {};
      cancelLatched, haCancelLatched, intent, consumedIntent := false, false, None, false;
      prompt, promptStartedAt, maintenance, maintenanceStartedAt := None, None, None, None;
    }

    /** Drops every latch; called on each disconnect. */
    method Reset()
      modifies this
      ensures Valid() && trace == [] && State() == INITIAL
    {
      trace := [];
      prevProcess, prevManipulation := None, None;
      DropBrew();
      consumedIntent := false;
      prompt, promptStartedAt := None, None;
      maintenance, maintenanceStartedAt := None, None;
      assert State() == INITIAL;
    }

    method DropBrew()
      modifies `brewing, `brewStartedAt, `subProcesses, `cancelLatched, `haCancelLatched, `intent
      ensures Brew() == NO_BREW
    {
      brewing := false;
      brewStartedAt := None;
      subProcesses := {};
      cancelLatched, haCancelLatched := false, false;
      intent := None;
    }

    /** The one entry point: what it emits is the trace function of every frame since the last reset. */
    method Feed(f: Frame) returns (events: seq<Event>)
      requires Valid()
      modifies this
      ensures Valid() && trace == old(trace) + [f]
      ensures State() == Spec.Feed(old(State()), f).0
      ensures events == Spec.Feed(old(State()), f).1 == Expected(trace, |trace| - 1)
    {
      events := FeedLatches(f);
      NextFrame(trace, f);
      trace := trace + [f];
    }

    /** Expiry, cancel latches, process edges, sub-process, manipulation, in that order. */
    method FeedLatches(f: Frame) returns (events: seq<Event>)
      modifies this
      ensures trace == old(trace)
      ensures State() == Spec.Feed(old(State()), f).0
      ensures events == Spec.Feed(old(State()), f).1
    {
      consumedIntent := false;
      events := FeedBrew(f);
      var prompts := FeedManipulation(f);
      events := events + prompts;
    }

    method FeedBrew(f: Frame) returns (events: seq<Event>)
      requires !consumedIntent
      modifies `prevProcess, `maintenance, `maintenanceStartedAt, `consumedIntent
      modifies `brewing, `brewStartedAt, `subProcesses, `cancelLatched, `haCancelLatched, `intent
      ensures prevProcess == if f.status.process.Some? then f.status.process else old(prevProcess)
      ensures Maintenance() == Spec.FeedMaintenance(old(Maintenance()), old(prevProcess), f).0
      ensures Brew() == Spec.FeedBrew(old(Brew()), old(prevProcess), f).0
      ensures consumedIntent == (f.intent.Some? && StartEdge(old(prevProcess), f))
      ensures events == Spec.FeedMaintenance(old(Maintenance()), old(prevProcess), f).1 +
                        Spec.FeedBrew(old(Brew()), old(prevProcess), f).1
    {
      ExpireStaleBrew(f.now);
      LatchCancels(f);
      events := [];
      if f.status.process.Some? {
        events := FeedProcess(f.status.process.value, f);
      }
      ObserveSubProcess(f.status.subProcess);
    }

    method ExpireStaleBrew(now: real)
      modifies `brewing, `brewStartedAt, `subProcesses, `cancelLatched, `haCancelLatched, `intent
      ensures Brew() == Spec.ExpireStaleBrew(old(Brew()), now)
    {
      if !brewing || brewStartedAt.None? {
        return;
      }
      if now - brewStartedAt.value <= BREW_MAX_DURATION_S {
        return;
      }
      DropBrew();
    }

    method LatchCancels(f: Frame)
      modifies `cancelLatched, `haCancelLatched
      ensures Brew() == Spec.LatchCancels(old(Brew()), f)
    {
      if brewing && CancelBit(f.status) {
        cancelLatched := true;
      }
      if f.haCancelled && brewing {
        haCancelLatched := true;
      }
    }

    method FeedProcess(process: Process, f: Frame) returns (events: seq<Event>)
      requires f.status.process == Some(process) && !consumedIntent
      modifies `prevProcess, `maintenance, `maintenanceStartedAt, `consumedIntent
      modifies `brewing, `brewStartedAt, `subProcesses, `cancelLatched, `haCancelLatched, `intent
      ensures prevProcess == Some(process)
      ensures Maintenance() == Spec.FeedMaintenance(old(Maintenance()), old(prevProcess), f).0
      ensures Brew() == Spec.BrewEdge(old(Brew()), old(prevProcess), f).0
      ensures consumedIntent == (f.intent.Some? && StartEdge(old(prevProcess), f))
      ensures events == Spec.FeedMaintenance(old(Maintenance()), old(prevProcess), f).1 +
                        Spec.BrewEdge(old(Brew()), old(prevProcess), f).1
    {
      events := [];
      var prev := prevProcess;
      if prev.None? {
        prevProcess := Some(process);
        return;
      }
      if maintenance.Some? && !IsMaintenance(process) {
        events := [MaintenanceFinished(maintenance.value, Duration(maintenanceStartedAt, f.now))];
        maintenance, maintenanceStartedAt := None, None;
      }
      if brewing && process != Product {
        var terminal := TerminalEvent(process, f);
        events := events + [terminal];
      } else if prev.value != Product && process == Product {
        StartBrew(f);
        events := events + [BrewStarted(OriginOf(intent))];
      }
      if IsMaintenance(process) && maintenance.None? {
        maintenance, maintenanceStartedAt := Some(process), Some(f.now);
      }
      prevProcess := Some(process);
    }

    method StartBrew(f: Frame)
      modifies `consumedIntent, `brewing, `brewStartedAt, `subProcesses, `cancelLatched, `haCancelLatched, `intent
      ensures Brew() == Spec.StartBrew(f)
      ensures consumedIntent == (old(consumedIntent) || f.intent.Some?)
    {
      brewing, brewStartedAt, subProcesses := true, Some(f.now), {};
      cancelLatched, haCancelLatched := false, false;
      intent := None;
      if f.intent.Some? {
        consumedIntent := true;
        if f.intent.value.IsFresh(f.now) {
          intent := f.intent;
        }
      }
    }

    /** Builds the terminal event of the brew in flight and clears its latches. */
    method TerminalEvent(process: Process, f: Frame) returns (event: Event)
      modifies `brewing, `brewStartedAt, `subProcesses, `cancelLatched, `haCancelLatched, `intent
      ensures event == Spec.TerminalEvent(old(Brew()), process, f)
      ensures Brew() == NO_BREW
    {
      var origin, final, shape := OriginOf(intent), IsFinal(intent), ClassifyBrewShape(subProcesses);
      var duration := Duration(brewStartedAt, f.now);
      var source: Option<CancelSource> := None;
      if haCancelLatched || (intent.Some? && intent.value.haCancelled) {
        source := Some(ByHa);
      } else if cancelLatched {
        source := Some(ByMachine);
      } else if process == SwitchOff {
        source := Some(ByPowerOff);
      }
      DropBrew();
      if source.None? {
        event := BrewFinished(origin, duration, f.cancelDetection, final, shape);
      } else {
        event := BrewCancelled(origin, duration, f.cancelDetection, final, source.value);
      }
    }

    method ObserveSubProcess(sub: Option<SubProcess>)
      modifies `subProcesses
      ensures Brew() == Spec.ObserveSubProcess(old(Brew()), sub)
    {
      if !brewing || sub.None? {
        return;
      }
      subProcesses := subProcesses + {sub.value};
    }

    method FeedManipulation(f: Frame) returns (events: seq<Event>)
      modifies `prevManipulation, `prompt, `promptStartedAt
      ensures PromptLatches(prevManipulation, prompt, promptStartedAt) ==
              Spec.FeedPrompt(old(PromptLatches(prevManipulation, prompt, promptStartedAt)), f, brewing).0
      ensures events ==
              Spec.FeedPrompt(old(PromptLatches(prevManipulation, prompt, promptStartedAt)), f, brewing).1
    {
      events := [];
      var m := f.status.manipulation;
      var prev := prevManipulation;
      prevManipulation := Some(m);
      if prev.None? {
        if IsPrompt(m) {
          prompt, promptStartedAt := Some(m), Some(f.now);
        }
        return;
      }
      if m == prev.value {
        return;
      }
      if IsPrompt(prev.value) {
        events := [PromptCleared(prev.value, Duration(promptStartedAt, f.now))];
        prompt, promptStartedAt := None, None;
      }
      if IsPrompt(m) {
        var soft := IsSoftPrompt(m);
        prompt, promptStartedAt := Some(m), Some(f.now);
        events := events + [PromptRaised(m, soft, soft && f.autoConfirm, brewing)];
      }
    }
  }
}
