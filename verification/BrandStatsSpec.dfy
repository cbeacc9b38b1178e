/**
 One bounded stream of statistics reads. `_refresh` is cut at its awaits: between two steps a task is either not yet
 started, waiting for the read of one descriptor, or cancelled and not yet told so.
 */
module BrandStatsSpec {
  import opened Prelude

  datatype Client = Client(connected: bool, status: Option<bool>)

  datatype Pc = Entry | Reading(ids: seq<int>, i: nat) | Cancelled

  /** How an awaited read ends: an exception, no value, or a value. */
  datatype Outcome = Failed | NoValue | Value(value: int)

  datatype LogEntry = PassStart(ids: seq<int>) | Read(id: int, outcome: Outcome) | PassEnd

  datatype State = State(
    client: Client, descriptors: seq<int>, values: map<int, int>,
    tasks: map<nat, Pc>, current: Option<nat>, spawned: nat,
    pending: bool, closed: bool, initialRequested: bool, wasBusy: bool, log: seq<LogEntry>)

  function Initial(client: Client): State {
    State(client, [], map[], map[], None, 0, false, false, false, client.status == Some(false), [])
  }

  predicate CanRead(s: State) {
    s.client.connected && s.client.status != Some(false)
  }

  /** The task the coordinator holds is alive, and every other task in the event loop is a cancelled one. */
  ghost predicate Inv(s: State) {
    && (s.current.Some? ==> s.current.value in s.tasks && !s.tasks[s.current.value].Cancelled?)
    && (forall t | t in s.tasks :: t < s.spawned && (s.tasks[t].Cancelled? || s.current == Some(t)))
    && (forall t | t in s.tasks && s.tasks[t].Reading? :: s.tasks[t].i < |s.tasks[t].ids|)
    && (s.closed ==> s.current.None?)
  }

  // ----- requests and callbacks -----

  function RequestRefresh(s: State, followUp: bool): (r: State)
    requires Inv(s)
    ensures Inv(r)
  {
    if s.closed || s.descriptors == [] || !CanRead(s) then s
    else if s.current.Some? then s.(pending := s.pending || followUp)
    else s.(tasks := s.tasks[s.spawned := Entry], current := Some(s.spawned), spawned := s.spawned + 1)
  }

  function RequestInitialRefresh(s: State): (r: State)
    requires Inv(s)
    ensures Inv(r)
  {
    if s.initialRequested then s else RequestRefresh(s.(initialRequested := true), false)
  }

  /** A cancelled task stays in the event loop until it is resumed and sees the cancellation. */
  function CancelRefresh(s: State): (r: State)
    requires Inv(s)
    ensures Inv(r)
  {
    if s.current.None? then s.(pending := false)
    else s.(pending := false, tasks := s.tasks[s.current.value := Cancelled], current := None)
  }

  function OnStatus(s: State, ready: bool): (r: State)
    requires Inv(s)
    ensures Inv(r)
  {
    var seen := s.(client := s.client.(status := Some(ready)));
    if s.closed then seen
    else
      var next := seen.(wasBusy := !ready);
      if s.wasBusy && ready then RequestRefresh(next, true) else next
  }

  function OnConnection(s: State, connected: bool): (r: State)
    requires Inv(s)
    ensures Inv(r)
  {
    var seen := s.(client := s.client.(connected := connected));
    if s.closed then seen
    else
      var next := seen.(wasBusy := connected && seen.client.status == Some(false));
      if connected then RequestRefresh(next, false) else CancelRefresh(next)
  }

  function Close(s: State): (r: State)
    requires Inv(s)
    ensures Inv(r)
  {
    if s.closed then s else CancelRefresh(s).(closed := true)
  }

  // ----- the refresh task -----

  /** The `finally` clause: only the task the coordinator still holds clears it. */
  function Finish(s: State, t: nat): (r: State)
    requires Inv(s) && t in s.tasks
    ensures Inv(r)
  {
    s.(tasks := s.tasks - {t}, current := if s.current == Some(t) then None else s.current)
  }

  /** A pass over the descriptors of this moment; no await separates the readability test from the first read. */
  function Loop(s: State, t: nat): (r: State)
    requires Inv(s) && s.current == Some(t)
    ensures Inv(r)
  {
    if !CanRead(s) then Finish(s, t)
    else
      var begun := s.(pending := false, log := s.log + [PassStart(s.descriptors)]);
      if s.descriptors == [] then Finish(begun.(log := begun.log + [PassEnd]), t)
      else begun.(tasks := begun.tasks[t := Reading(s.descriptors, 0)])
  }

  function EndPass(s: State, t: nat): (r: State)
    requires Inv(s) && s.current == Some(t)
    ensures Inv(r)
  {
    var ended := s.(log := s.log + [PassEnd]);
    if s.pending then Loop(ended, t) else Finish(ended, t)
  }

  function Advance(s: State, t: nat, ids: seq<int>, i: nat): (r: State)
    requires Inv(s) && s.current == Some(t)
    ensures Inv(r)
  {
    if i < |ids| && CanRead(s) then s.(tasks := s.tasks[t := Reading(ids, i)]) else EndPass(s, t)
  }

  function Learn(s: State, id: int, outcome: Outcome): (r: State)
    requires Inv(s)
    ensures Inv(r)
  {
    s.(log := s.log + [Read(id, outcome)], values := if outcome.Value? then s.values[id := outcome.value] else s.values)
  }

  function Resume(s: State, t: nat, outcome: Outcome): (r: State)
    requires Inv(s)
    ensures Inv(r)
  {
    if t !in s.tasks then s
    else match s.tasks[t]
      case Cancelled => Finish(s, t)
      case Entry => Loop(s, t)
      case Reading(ids, i) => Advance(Learn(s, ids[i], outcome), t, ids, i + 1)
  }

  // ----- runs -----

  /** `Silent` is a change of the client that no callback announces; `Tick` is the five-minute timer. */
  datatype Action =
    | Silent(client: Client)
    | Status(ready: bool)
    | Connection(connected: bool)
    | Tick
    | First
    | SetDescriptors(ids: seq<int>)
    | Shutdown
    | Resumed(task: nat, outcome: Outcome)

  function Step(s: State, a: Action): (r: State)
    requires Inv(s)
    ensures Inv(r)
  {
    match a
    case Silent(client) => s.(client := client)
    case Status(ready) => OnStatus(s, ready)
    case Connection(connected) => OnConnection(s, connected)
    case Tick => if s.closed then s else RequestRefresh(s, false)
    case First => RequestInitialRefresh(s)
    case SetDescriptors(ids) => s.(descriptors := ids)
    case Shutdown => Close(s)
    case Resumed(t, outcome) => Resume(s, t, outcome)
  }

  function Run(s: State, actions: seq<Action>): (r: State)
    requires Inv(s)
    ensures Inv(r)
  {
    if actions == [] then s else Step(Run(s, actions[..|actions| - 1]), actions[|actions| - 1])
  }
}
