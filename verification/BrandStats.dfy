/** `BrandStatsCoordinator` with the fields of the source, and what its refresh task promises over every run. */
module BrandStats {
  import opened Prelude
  import opened BrandStatsSpec

  class BrandStatsCoordinator {
    var client: Client
    var descriptors: seq<int>
    var values: map<int, int>
    var tasks: map<nat, Pc>
    var task: Option<nat>
    var spawned: nat
    var pending: bool
    var closed: bool
    var initialRequested: bool
    var wasBusy: bool
    ghost var log: seq<LogEntry>

    ghost function Now(): State
      reads this
    {
      State(client, descriptors, values, tasks, task, spawned, pending, closed, initialRequested, wasBusy, log)
    }

    ghost predicate Valid()
      reads this
    {
      Inv(Now())
    }

    constructor (client: Client)
      ensures Valid() && Now() == Initial(client)
    {
      this.client := client;
      descriptors, values, tasks, task, spawned := [], map[], map[], None, 0;
      pending, closed, initialRequested := false, false, false;
      wasBusy := client.status == Some(false);
      log := [];
    }

    predicate Readable()
      reads this
      ensures Readable() == CanRead(Now())
    {
      client.connected && (client.status.None? || client.status.value)
    }

    method RequestRefresh(followUp: bool)
      requires Valid()
      modifies this
      ensures Valid() && Now() == BrandStatsSpec.RequestRefresh(old(Now()), followUp)
    {
      if closed || |descriptors| == 0 || !Readable() {
        return;
      }
      if task.Some? {
        pending := pending || followUp;
        return;
      }
      tasks := tasks[spawned := Entry];
      task := Some(spawned);
      spawned := spawned + 1;
    }

    method RequestInitialRefresh()
      requires Valid()
      modifies this
      ensures Valid() && Now() == BrandStatsSpec.RequestInitialRefresh(old(Now()))
    {
      if !initialRequested {
        initialRequested := true;
        RequestRefresh(false);
      }
    }

    method CancelRefresh()
      requires Valid()
      modifies this
      ensures Valid() && Now() == BrandStatsSpec.CancelRefresh(old(Now()))
    {
      pending := false;
      if task.Some? {
        tasks := tasks[task.value := Cancelled];
        task := None;
      }
    }

    method OnStatus(ready: bool)
      requires Valid()
      modifies this
      ensures Valid() && Now() == BrandStatsSpec.OnStatus(old(Now()), ready)
    {
      client := client.(status := Some(ready));
      if closed {
        return;
      }
      var before := wasBusy;
      wasBusy := !ready;
      if before && ready {
        RequestRefresh(true);
      }
    }

    method OnConnection(connected: bool)
      requires Valid()
      modifies this
      ensures Valid() && Now() == BrandStatsSpec.OnConnection(old(Now()), connected)
    {
      client := client.(connected := connected);
      if closed {
        return;
      }
      wasBusy := connected && client.status.Some? && !client.status.value;
      if connected {
        RequestRefresh(false);
      } else {
        CancelRefresh();
      }
    }

    method Close()
      requires Valid()
      modifies this
      ensures Valid() && Now() == BrandStatsSpec.Close(old(Now()))
    {
      if closed {
        return;
      }
      closed := true;
      pending := false;
      if task.Some? {
        tasks := tasks[task.value := Cancelled];
        task := None;
      }
    }

    /** The part of `_refresh` that runs between two awaits of task t; outcome is what its pending read gave. */
    method Resume(t: nat, outcome: Outcome)
      requires Valid() && t in tasks
      modifies this
      ensures Valid() && Now() == BrandStatsSpec.Resume(old(Now()), t, outcome)
    {
      match tasks[t] {
        case Cancelled => Finish(t);
        case Entry => BeginPass(t);
        case Reading(ids, i) =>
          if outcome.Value? {
            values := values[ids[i] := outcome.value];
          }
          log := log + [Read(ids[i], outcome)];
          Advance(t, ids, i + 1);
      }
    }

    method Advance(t: nat, ids: seq<int>, i: nat)
      requires Valid() && task == Some(t)
      modifies `tasks, `task, `pending, `log
      ensures Valid() && Now() == BrandStatsSpec.Advance(old(Now()), t, ids, i)
    {
      if i < |ids| && Readable() {
        tasks := tasks[t := Reading(ids, i)];
        return;
      }
      log := log + [PassEnd];
      if pending {
        BeginPass(t);
      } else {
        Finish(t);
      }
    }

    method BeginPass(t: nat)
      requires Valid() && task == Some(t)
      modifies `tasks, `task, `pending, `log
      ensures Valid() && Now() == BrandStatsSpec.Loop(old(Now()), t)
    {
      if !Readable() {
        Finish(t);
        return;
      }
      pending := false;
      log := log + [PassStart(descriptors)];
      if |descriptors| == 0 {
        log := log + [PassEnd];
        Finish(t);
      } else {
        tasks := tasks[t := Reading(descriptors, 0)];
      }
    }

    method Finish(t: nat)
      requires Valid() && t in tasks
      modifies `tasks, `task
      ensures Now() == BrandStatsSpec.Finish(old(Now()), t)
    {
      tasks := tasks - {t};
      if task == Some(t) {
        task := None;
      }
    }
  }

  // ----- what every run keeps -----

  /** A cancelled task neither reads nor writes, and its last step leaves a newer task in place. */
  lemma CancelledTaskIsInert(s: State, t: nat, outcome: Outcome)
    requires Inv(s) && t in s.tasks && s.current != Some(t)
    ensures Resume(s, t, outcome) == s.(tasks := s.tasks - {t})
  {
  }

  /** At every moment of every run at most one task is alive: the one the coordinator holds. */
  lemma AtMostOneLiveTask(client: Client, actions: seq<Action>, t: nat, u: nat)
    requires var s := Run(Initial(client), actions);
             t in s.tasks && u in s.tasks && !s.tasks[t].Cancelled? && !s.tasks[u].Cancelled?
    ensures t == u && Run(Initial(client), actions).current == Some(t)
  {
    var s := Run(Initial(client), actions);
    assert Inv(s);
  }

  /** A task that waits for a read after it ran found the machine connected and not busy; nothing but running it, its
      start included, makes it wait. */
  lemma ReadsOnlyWhenReadable(s: State, a: Action, t: nat)
    requires Inv(s) && t in Step(s, a).tasks && Step(s, a).tasks[t].Reading?
    ensures a.Resumed? && a.task == t ==> s.client.connected && s.client.status != Some(false)
    ensures !(a.Resumed? && a.task == t) ==> t in s.tasks && s.tasks[t] == Step(s, a).tasks[t]
  {
    if !(a.Resumed? && s.current == Some(a.task)) {
      QuietStep(s, a);
    } else {
      ResumedReads(s, a.task, a.outcome);
    }
  }

  /** The live task after it ran either ended or waits for a read, and then the machine was readable. */
  lemma ResumedReads(s: State, t: nat, outcome: Outcome)
    requires Inv(s) && s.current == Some(t)
    ensures RanOn(s, Resume(s, t, outcome), t)
  {
    match s.tasks[t] {
      case Entry => LoopReads(s, t);
      case Reading(ids, i) =>
        var learned := Learn(s, ids[i], outcome);
        LoopReads(learned.(log := learned.log + [PassEnd]), t);
    }
  }

  predicate RanOn(s: State, r: State, t: nat) {
    r.current.None? || (r.current == Some(t) && CanRead(s))
  }

  lemma LoopReads(s: State, t: nat)
    requires Inv(s) && s.current == Some(t)
    ensures RanOn(s, Loop(s, t), t)
  {
  }

  /** The stored values after a log of reads: a successful one replaces its value, a failed one keeps it. */
  function Replay(values: map<int, int>, log: seq<LogEntry>): map<int, int> {
    if log == [] then values
    else
      var before, last := Replay(values, log[..|log| - 1]), log[|log| - 1];
      if last.Read? && last.outcome.Value? then before[last.id := last.outcome.value] else before
  }

  lemma ReplayNext(values: map<int, int>, log: seq<LogEntry>, entry: LogEntry)
    ensures Replay(values, log + [entry]) ==
            if entry.Read? && entry.outcome.Value? then Replay(values, log)[entry.id := entry.outcome.value]
            else Replay(values, log)
  {
    assert (log + [entry])[..|log|] == log;
  }

  ghost predicate Replayed(s: State) {
    s.values == Replay(map[], s.log)
  }

  lemma LoopReplays(s: State, t: nat)
    requires Inv(s) && s.current == Some(t) && Replayed(s)
    ensures Replayed(Loop(s, t))
  {
    ReplayNext(map[], s.log, PassStart(s.descriptors));
    ReplayNext(map[], s.log + [PassStart(s.descriptors)], PassEnd);
  }

  lemma AdvanceReplays(s: State, t: nat, ids: seq<int>, i: nat)
    requires Inv(s) && s.current == Some(t) && Replayed(s)
    ensures Replayed(Advance(s, t, ids, i))
  {
    ReplayNext(map[], s.log, PassEnd);
    LoopReplays(s.(log := s.log + [PassEnd]), t);
  }

  /** Over any run the values are exactly what the successful reads of the log left there. */
  lemma {:induction false} ValuesComeFromReads(client: Client, actions: seq<Action>)
    ensures Replayed(Run(Initial(client), actions))
  {
    if actions != [] {
      ValuesComeFromReads(client, actions[..|actions| - 1]);
      StepReplays(Run(Initial(client), actions[..|actions| - 1]), actions[|actions| - 1]);
    }
  }

  lemma StepReplays(s: State, a: Action)
    requires Inv(s) && Replayed(s)
    ensures Replayed(Step(s, a))
  {
    if a.Resumed? && s.current == Some(a.task) {
      ResumeReplays(s, a.task, a.outcome);
    } else {
      QuietStep(s, a);
    }
  }

  lemma ResumeReplays(s: State, t: nat, outcome: Outcome)
    requires Inv(s) && Replayed(s) && s.current == Some(t)
    ensures Replayed(Resume(s, t, outcome))
  {
    match s.tasks[t] {
      case Entry => LoopReplays(s, t);
      case Reading(ids, i) =>
        LearnReplays(s, ids[i], outcome);
        AdvanceReplays(Learn(s, ids[i], outcome), t, ids, i + 1);
    }
  }

  lemma LearnReplays(s: State, id: int, outcome: Outcome)
    requires Inv(s) && Replayed(s)
    ensures Replayed(Learn(s, id, outcome))
  {
    ReplayNext(map[], s.log, Read(id, outcome));
  }

  /** r has done no work that s had not: same log and values, and the live task is the old one or one just scheduled; when
      the link is up and the coordinator open, nothing queued in s is dropped. */
  ghost predicate Quiet(s: State, r: State)
    requires Inv(s) && Inv(r)
  {
    && r.log == s.log
    && r.values == s.values
    && (r.current.Some? && r.current != s.current ==> r.tasks[r.current.value].Entry?)
    && (r.current.Some? && r.current == s.current ==> r.tasks[r.current.value] == s.tasks[r.current.value])
    && (s.current.Some? && !r.closed && r.client.connected ==> r.current == s.current && (s.pending ==> r.pending))
  }

  lemma RequestIsQuiet(s: State, followUp: bool)
    requires Inv(s)
    ensures Quiet(s, BrandStatsSpec.RequestRefresh(s, followUp))
  {
  }

  lemma StatusIsQuiet(s: State, ready: bool)
    requires Inv(s)
    ensures Quiet(s, BrandStatsSpec.OnStatus(s, ready))
  {
    RequestIsQuiet(s.(client := s.client.(status := Some(ready)), wasBusy := !ready), true);
  }

  lemma ConnectionIsQuiet(s: State, connected: bool)
    requires Inv(s)
    ensures Quiet(s, BrandStatsSpec.OnConnection(s, connected))
  {
    var seen := s.(client := s.client.(connected := connected));
    RequestIsQuiet(seen.(wasBusy := connected && seen.client.status == Some(false)), false);
  }

  lemma ResumeIsQuiet(s: State, t: nat, outcome: Outcome)
    requires Inv(s) && s.current != Some(t)
    ensures Quiet(s, BrandStatsSpec.Resume(s, t, outcome))
  {
    if t in s.tasks {
      CancelledTaskIsInert(s, t, outcome);
    }
  }

  /** An action that does not resume the live task does no work and drops none. */
  lemma QuietStep(s: State, a: Action)
    requires Inv(s) && !(a.Resumed? && s.current == Some(a.task))
    ensures Quiet(s, Step(s, a))
  {
    match a {
      case Silent(client) =>
      case Status(ready) => StatusIsQuiet(s, ready);
      case Connection(connected) => ConnectionIsQuiet(s, connected);
      case Tick => RequestIsQuiet(s, false);
      case First => RequestIsQuiet(s.(initialRequested := true), false);
      case SetDescriptors(ids) =>
      case Shutdown =>
      case Resumed(t, outcome) => ResumeIsQuiet(s, t, outcome);
    }
  }

  /** A disconnect or a shutdown leaves no live task and no follow-up. */
  lemma DisconnectStopsReading(s: State, a: Action)
    requires Inv(s) && !s.closed && (a == Connection(false) || a == Shutdown)
    ensures var r := Step(s, a);
            r.current.None? && !r.pending && r.log == s.log && forall t | t in r.tasks :: r.tasks[t].Cancelled?
  {
  }

  // ----- what the actions of a run announced -----

  /** The status the client holds after these actions. */
  function StatusAfter(client: Client, actions: seq<Action>): Option<bool> {
    if actions == [] then client.status
    else
      var before, last := StatusAfter(client, actions[..|actions| - 1]), actions[|actions| - 1];
      match last
      case Silent(changed) => changed.status
      case Status(ready) => Some(ready)
      case _ => before
  }

  function LinkAfter(client: Client, actions: seq<Action>): bool {
    if actions == [] then client.connected
    else
      var before, last := LinkAfter(client, actions[..|actions| - 1]), actions[|actions| - 1];
      match last
      case Silent(changed) => changed.connected
      case Connection(connected) => connected
      case _ => before
  }

  function DescriptorsAfter(actions: seq<Action>): seq<int> {
    if actions == [] then []
    else if actions[|actions| - 1].SetDescriptors? then actions[|actions| - 1].ids
    else DescriptorsAfter(actions[..|actions| - 1])
  }

  /** The last announcement found the machine busy: a status frame that says so, or a connection that met the stored
      status busy; before any, the status at the start. */
  function AnnouncedBusy(client: Client, actions: seq<Action>): bool {
    if actions == [] then client.status == Some(false)
    else
      var before, last := actions[..|actions| - 1], actions[|actions| - 1];
      match last
      case Status(ready) => !ready
      case Connection(connected) => connected && StatusAfter(client, before) == Some(false)
      case _ => AnnouncedBusy(client, before)
  }

  predicate ReadableAfter(client: Client, actions: seq<Action>) {
    LinkAfter(client, actions) && StatusAfter(client, actions) != Some(false)
  }

  lemma ResumeLeaves(s: State, t: nat, outcome: Outcome)
    requires Inv(s)
    ensures SameOutside(s, Resume(s, t, outcome))
  {
    if t in s.tasks && s.tasks[t].Reading? {
      var learned := Learn(s, s.tasks[t].ids[s.tasks[t].i], outcome);
      assert SameOutside(s, learned);
      AdvanceLeaves(learned, t, s.tasks[t].ids, s.tasks[t].i + 1);
    }
  }

  lemma AdvanceLeaves(s: State, t: nat, ids: seq<int>, i: nat)
    requires Inv(s) && s.current == Some(t)
    ensures SameOutside(s, Advance(s, t, ids, i))
  {
  }

  predicate SameOutside(s: State, r: State) {
    && r.client == s.client && r.descriptors == s.descriptors && r.closed == s.closed
    && r.initialRequested == s.initialRequested && r.wasBusy == s.wasBusy
  }

  /** What an action tells the coordinator, whatever it then does about it. */
  function Told(s: State, a: Action): State {
    match a
    case Silent(client) => s.(client := client)
    case Status(ready) => s.(client := s.client.(status := Some(ready)), wasBusy := if s.closed then s.wasBusy else !ready)
    case Connection(connected) =>
      var busy := connected && s.client.status == Some(false);
      s.(client := s.client.(connected := connected), wasBusy := if s.closed then s.wasBusy else busy)
    case First => s.(initialRequested := true)
    case SetDescriptors(ids) => s.(descriptors := ids)
    case Shutdown => s.(closed := true)
    case _ => s
  }

  lemma StepTells(s: State, a: Action)
    requires Inv(s)
    ensures SameOutside(Told(s, a), Step(s, a))
  {
    match a {
      case Resumed(t, outcome) => ResumeLeaves(s, t, outcome);
      case _ =>
    }
  }

  lemma ToldFollows(client: Client, most: seq<Action>, a: Action, s: State)
    requires Follows(client, most, s)
    ensures Follows(client, most + [a], Told(s, a))
  {
    var all := most + [a];
    assert all[..|most|] == most && all[|most|] == a;
    assert forall b :: b in all <==> b in most || b == a;
  }

  /** The client, the descriptors and the flags are those that the actions announced. */
  ghost predicate Follows(client: Client, actions: seq<Action>, s: State) {
    && s.client == Client(LinkAfter(client, actions), StatusAfter(client, actions))
    && s.descriptors == DescriptorsAfter(actions)
    && (s.closed <==> Shutdown in actions)
    && (s.initialRequested <==> First in actions)
    && (!s.closed ==> s.wasBusy == AnnouncedBusy(client, actions))
  }

  /** While the coordinator is open it believes the machine busy exactly when the last announcement left it so; the initial
      refresh is asked for once. */
  lemma {:induction false} BusyIsAnnounced(client: Client, actions: seq<Action>)
    ensures Follows(client, actions, Run(Initial(client), actions))
  {
    if actions != [] {
      var most := actions[..|actions| - 1];
      BusyIsAnnounced(client, most);
      ToldFollows(client, most, actions[|actions| - 1], Run(Initial(client), most));
      StepTells(Run(Initial(client), most), actions[|actions| - 1]);
      assert most + [actions[|actions| - 1]] == actions;
    }
  }

  // ----- no follow-up is lost -----

  ghost predicate ReadsFrom(log: seq<LogEntry>, p: nat, n: nat) {
    && p + n < |log|
    && log[p].PassStart?
    && n <= |log[p].ids|
    && (forall k | p < k <= p + n :: log[k].Read? && log[k].id == log[p].ids[k - p - 1])
  }

  /** A pass that started at p and read every descriptor of that moment, in order. */
  ghost predicate FullPass(log: seq<LogEntry>, p: nat) {
    && p < |log|
    && log[p].PassStart?
    && ReadsFrom(log, p, |log[p].ids|)
    && p + 1 + |log[p].ids| < |log|
    && log[p + 1 + |log[p].ids|] == PassEnd
  }

  /** The log agrees with the waiting task: its pass has read everything before the descriptor it waits for. */
  ghost predicate Shape(s: State)
    requires Inv(s)
  {
    s.current.Some? && s.tasks[s.current.value].Reading? ==>
      var pc := s.tasks[s.current.value];
      pc.i < |s.log| && ReadsFrom(s.log, |s.log| - 1 - pc.i, pc.i) && s.log[|s.log| - 1 - pc.i].ids == pc.ids
  }

  /** A pass that starts at mark or later is queued, scheduled, running, or done in full. */
  ghost predicate Due(s: State, mark: nat)
    requires Inv(s)
  {
    || (s.current.Some? && (s.pending || s.tasks[s.current.value].Entry?))
    || (s.current.Some? && s.tasks[s.current.value].Reading? && mark + s.tasks[s.current.value].i < |s.log|)
    || (exists p :: mark <= p && FullPass(s.log, p))
  }

  lemma {:induction false} RunHasShape(client: Client, actions: seq<Action>)
    ensures Shape(Run(Initial(client), actions))
  {
    if actions != [] {
      RunHasShape(client, actions[..|actions| - 1]);
      ShapeStep(Run(Initial(client), actions[..|actions| - 1]), actions[|actions| - 1]);
    }
  }

  lemma ShapeStep(s: State, a: Action)
    requires Inv(s) && Shape(s)
    ensures Shape(Step(s, a))
  {
    if a.Resumed? && s.current == Some(a.task) {
      if s.tasks[a.task].Reading? {
        ReadStep(s, a.task, a.outcome);
      }
    } else {
      QuietStep(s, a);
    }
  }

  lemma ReadStep(s: State, t: nat, outcome: Outcome)
    requires Inv(s) && Shape(s) && s.current == Some(t) && s.tasks[t].Reading?
    ensures Shape(Resume(s, t, outcome))
    ensures var pc := s.tasks[t]; ReadsFrom(s.log + [Read(pc.ids[pc.i], outcome)], |s.log| - 1 - pc.i, pc.i + 1)
  {
    var pc := s.tasks[t];
    var learned := Learn(s, pc.ids[pc.i], outcome);
    assert ReadsFrom(learned.log, |s.log| - 1 - pc.i, pc.i + 1);
    if !(pc.i + 1 < |pc.ids| && CanRead(s)) {
      FreshPassHasShape(learned.(log := learned.log + [PassEnd]), t);
    }
  }

  lemma FreshPassHasShape(s: State, t: nat)
    requires Inv(s) && s.current == Some(t)
    ensures Shape(Loop(s, t)) && Shape(Finish(s, t))
  {
  }

  /** A pass that begins at mark or later is due. */
  lemma FreshPassIsDue(s: State, t: nat, mark: nat)
    requires Inv(s) && s.current == Some(t) && CanRead(s) && mark <= |s.log|
    ensures Due(Loop(s, t), mark)
  {
    if s.descriptors == [] {
      assert FullPass(Loop(s, t).log, |s.log|);
    }
  }

  lemma FullPassStays(log: seq<LogEntry>, longer: seq<LogEntry>, p: nat)
    requires FullPass(log, p) && log <= longer
    ensures FullPass(longer, p)
  {
  }

  lemma LogGrows(s: State, a: Action)
    requires Inv(s)
    ensures s.log <= Step(s, a).log
  {
    if a.Resumed? && s.current == Some(a.task) {
      ResumeLogs(s, a.task, a.outcome);
    } else {
      QuietStep(s, a);
    }
  }

  lemma ResumeLogs(s: State, t: nat, outcome: Outcome)
    requires Inv(s)
    ensures s.log <= Resume(s, t, outcome).log
  {
    if t in s.tasks && s.current == Some(t) && s.tasks[t].Reading? {
      AdvanceLogs(Learn(s, s.tasks[t].ids[s.tasks[t].i], outcome), t, s.tasks[t].ids, s.tasks[t].i + 1);
    }
  }

  lemma AdvanceLogs(s: State, t: nat, ids: seq<int>, i: nat)
    requires Inv(s) && s.current == Some(t)
    ensures s.log <= Advance(s, t, ids, i).log
  {
    LoopLogs(s.(log := s.log + [PassEnd]), t);
  }

  lemma LoopLogs(s: State, t: nat)
    requires Inv(s) && s.current == Some(t)
    ensures s.log <= Loop(s, t).log
  {
  }

  lemma DueAfterRead(s: State, t: nat, outcome: Outcome, mark: nat)
    requires Inv(s) && Shape(s) && s.current == Some(t) && s.tasks[t].Reading? && CanRead(s) && mark <= |s.log|
    requires s.pending || mark + s.tasks[t].i < |s.log|
    ensures Due(Resume(s, t, outcome), mark)
  {
    var pc := s.tasks[t];
    ReadStep(s, t, outcome);
    if pc.i + 1 == |pc.ids| {
      var learned := Learn(s, pc.ids[pc.i], outcome);
      var ended := learned.(log := learned.log + [PassEnd]);
      if s.pending {
        FreshPassIsDue(ended, t, mark);
      } else {
        assert FullPass(ended.log, |s.log| - 1 - pc.i);
      }
    }
  }

  /** While the machine stays readable and the coordinator open, no step loses a pass that is due. */
  lemma DueStep(s: State, a: Action, mark: nat)
    requires Inv(s) && Shape(s) && Due(s, mark) && mark <= |s.log|
    requires !Step(s, a).closed && CanRead(s) && CanRead(Step(s, a))
    ensures Due(Step(s, a), mark)
  {
    LogGrows(s, a);
    if p :| mark <= p && FullPass(s.log, p) {
      FullPassStays(s.log, Step(s, a).log, p);
    } else if a.Resumed? && s.current == Some(a.task) {
      if s.tasks[a.task].Reading? {
        DueAfterRead(s, a.task, a.outcome, mark);
      } else {
        FreshPassIsDue(s, a.task, mark);
      }
    } else {
      QuietStep(s, a);
    }
  }

  /** The coordinator could serve a request now. */
  predicate Open(s: State) {
    !s.closed && CanRead(s) && s.descriptors != []
  }

  /** A busy-to-ready edge that the coordinator accepts makes a pass due that starts after it. */
  lemma EdgeIsDue(s: State)
    requires Inv(s) && s.wasBusy && Open(Step(s, Status(true)))
    ensures Due(Step(s, Status(true)), |s.log|) && Step(s, Status(true)).log == s.log
  {
  }

  /** After an accepted edge, as long as the machine stays readable and the coordinator open, a pass that starts after the
      edge is due. */
  lemma {:induction false} EdgeStaysDue(client: Client, before: seq<Action>, after: seq<Action>)
    requires var s := Run(Initial(client), before); s.wasBusy && Open(Step(s, Status(true)))
    requires var edge := Step(Run(Initial(client), before), Status(true));
             forall n | 0 <= n <= |after| :: !Run(edge, after[..n]).closed && CanRead(Run(edge, after[..n]))
    ensures var s := Run(Initial(client), before);
            var now := Run(Step(s, Status(true)), after);
            && Shape(now)
            && s.log <= now.log
            && Due(now, |s.log|)
            && (now.current.None? ==> exists p :: |s.log| <= p && FullPass(now.log, p))
  {
    var s := Run(Initial(client), before);
    var edge := Step(s, Status(true));
    RunHasShape(client, before);
    ShapeStep(s, Status(true));
    EdgeIsDue(s);
    if after != [] {
      var m := |after| - 1;
      assert forall n | 0 <= n <= m :: after[..m][..n] == after[..n];
      EdgeStaysDue(client, before, after[..m]);
      assert after[..|after|] == after;
      var previous := Run(edge, after[..m]);
      ShapeStep(previous, after[m]);
      LogGrows(previous, after[m]);
      DueStep(previous, after[m], |s.log|);
    }
  }

  lemma {:induction false} RunJoins(s: State, before: seq<Action>, after: seq<Action>)
    requires Inv(s)
    ensures Run(s, before + after) == Run(Run(s, before), after)
    decreases |after|
  {
    if after == [] {
      assert before + after == before;
    } else {
      var all, m := before + after, |after| - 1;
      assert all[..|all| - 1] == before + after[..m];
      RunJoins(s, before, after[..m]);
    }
  }

  lemma RunSplits(client: Client, acts: seq<Action>, e: nat)
    requires e < |acts|
    ensures Run(Initial(client), acts) == Run(Step(Run(Initial(client), acts[..e]), acts[e]), acts[e + 1..])
  {
    var front := acts[..e + 1];
    assert front[..e] == acts[..e] && acts == front + acts[e + 1..];
    RunJoins(Initial(client), front, acts[e + 1..]);
  }

  /** The main result: when a ready status follows a busy announcement, with descriptors and a live link, and the machine
      stays readable and the coordinator open from then on, a pass that starts after that status is due; so once no task
      runs, one has read every descriptor. */
  lemma NoFollowUpIsLost(client: Client, acts: seq<Action>, e: nat)
    requires e < |acts| && acts[e] == Status(true) && AnnouncedBusy(client, acts[..e])
    requires LinkAfter(client, acts[..e]) && DescriptorsAfter(acts[..e]) != []
    requires Shutdown !in acts && forall n | e < n <= |acts| :: ReadableAfter(client, acts[..n])
    ensures var s, now := Run(Initial(client), acts[..e]), Run(Initial(client), acts);
            && Shape(now)
            && s.log <= now.log
            && Due(now, |s.log|)
            && (now.current.None? ==> exists p :: |s.log| <= p && FullPass(now.log, p))
  {
    var before, after := acts[..e], acts[e + 1..];
    BusyIsAnnounced(client, before);
    RunSplits(client, acts, e);
    var edge := Step(Run(Initial(client), before), Status(true));
    forall n | 0 <= n <= |after| ensures !Run(edge, after[..n]).closed && CanRead(Run(edge, after[..n])) {
      StaysOpen(client, acts, e, n);
    }
    EdgeStaysDue(client, before, after);
  }

  lemma StaysOpen(client: Client, acts: seq<Action>, e: nat, n: nat)
    requires e + 1 + n <= |acts| && Shutdown !in acts && ReadableAfter(client, acts[..e + 1 + n])
    ensures var r := Run(Step(Run(Initial(client), acts[..e]), acts[e]), acts[e + 1..][..n]); !r.closed && CanRead(r)
  {
    var now := acts[..e + 1 + n];
    BusyIsAnnounced(client, now);
    RunSplits(client, now, e);
    assert now[..e] == acts[..e] && now[e + 1..] == acts[e + 1..][..n];
  }

  // ----- edges coalesce -----

  /** The steps the live task still needs when nothing else happens. */
  function Remaining(s: State): nat
    requires Inv(s)
  {
    if s.current.None? then 0
    else match s.tasks[s.current.value]
      case Entry => 1 + |s.descriptors|
      case Reading(ids, i) => |ids| - i + if s.pending then |s.descriptors| else 0
  }

  function Drain(s: State, outcomes: seq<Outcome>): (r: State)
    requires Inv(s)
    ensures Inv(r)
    decreases |outcomes|
  {
    if outcomes == [] || s.current.None? then s
    else Drain(Resume(s, s.current.value, outcomes[0]), outcomes[1..])
  }

  function Passes(log: seq<LogEntry>): nat {
    if log == [] then 0 else Passes(log[..|log| - 1]) + if log[|log| - 1].PassStart? then 1 else 0
  }

  lemma PassesNext(log: seq<LogEntry>, entry: LogEntry)
    ensures Passes(log + [entry]) == Passes(log) + if entry.PassStart? then 1 else 0
  {
    assert (log + [entry])[..|log|] == log;
  }

  lemma LoopDrains(s: State, t: nat)
    requires Inv(s) && s.current == Some(t) && CanRead(s)
    ensures var r := Loop(s, t);
            && CanRead(r) && r.descriptors == s.descriptors && !r.pending
            && Remaining(r) == |s.descriptors|
            && Owed(r) == 0
            && Passes(r.log) == Passes(s.log) + 1
  {
    PassesNext(s.log, PassStart(s.descriptors));
    PassesNext(s.log + [PassStart(s.descriptors)], PassEnd);
  }

  lemma OneStepDrains(s: State, outcome: Outcome)
    requires Inv(s) && s.current.Some? && CanRead(s)
    ensures var r := Resume(s, s.current.value, outcome);
            && CanRead(r) && r.descriptors == s.descriptors
            && Remaining(r) + 1 == Remaining(s)
            && Passes(r.log) + Owed(r) == Passes(s.log) + Owed(s)
  {
    var t := s.current.value;
    if s.tasks[t].Entry? {
      LoopDrains(s, t);
    } else {
      var learned := Learn(s, s.tasks[t].ids[s.tasks[t].i], outcome);
      PassesNext(s.log, Read(s.tasks[t].ids[s.tasks[t].i], outcome));
      if s.tasks[t].i + 1 == |s.tasks[t].ids| {
        PassesNext(learned.log, PassEnd);
        if s.pending {
          LoopDrains(learned.(log := learned.log + [PassEnd]), t);
        }
      }
    }
  }

  /** The passes still to start: none without a task, one for a task that has not begun or that owes a follow-up. */
  function Owed(s: State): nat
    requires Inv(s)
  {
    if s.current.Some? && (s.pending || s.tasks[s.current.value].Entry?) then 1 else 0
  }

  /** Left alone and readable, the task ends after exactly the reads that remain, and however many edges asked for a
      follow-up it starts one more pass, not more. */
  lemma {:induction false} FollowUpsCoalesce(s: State, outcomes: seq<Outcome>)
    requires Inv(s) && CanRead(s) && |outcomes| == Remaining(s)
    ensures var r := Drain(s, outcomes);
            r.current.None? && Passes(r.log) == Passes(s.log) + Owed(s)
    decreases |outcomes|
  {
    if outcomes != [] {
      OneStepDrains(s, outcomes[0]);
      FollowUpsCoalesce(Resume(s, s.current.value, outcomes[0]), outcomes[1..]);
    }
  }

  // ----- every pass was asked for -----

  /** What the action asks of the coordinator: a follow-up pass, a first pass, or nothing. */
  function Asks(s: State, a: Action): Option<bool> {
    match a
    case Status(ready) => if s.wasBusy && ready then Some(true) else None
    case Connection(connected) => if connected then Some(false) else None
    case Tick => Some(false)
    case First => if s.initialRequested then None else Some(false)
    case _ => None
  }

  /** A request that finds the coordinator open starts a task or, as a follow-up, joins the running one. */
  predicate Accepts(s: State, a: Action)
    requires Inv(s)
  {
    Open(Step(s, a)) && Asks(s, a).Some? && (s.current.None? || Asks(s, a).value)
  }

  /** A disconnect, a shutdown, or the task resumed while the machine cannot be read. */
  predicate Drops(s: State, a: Action) {
    || (!s.closed && (a == Connection(false) || a.Shutdown?))
    || (a.Resumed? && s.current == Some(a.task) && !CanRead(s))
  }

  datatype Requests = Requests(accepted: nat, coalesced: nat, dropped: nat)

  function Tally(s: State, a: Action, so: Requests): Requests
    requires Inv(s)
  {
    Requests(
      so.accepted + if Accepts(s, a) then 1 else 0,
      so.coalesced + if Accepts(s, a) then Owed(s) else 0,
      so.dropped + if Drops(s, a) then Owed(s) else 0)
  }

  function RequestsOf(s: State, actions: seq<Action>): Requests
    requires Inv(s)
  {
    if actions == [] then Requests(0, 0, 0)
    else
      var most := actions[..|actions| - 1];
      Tally(Run(s, most), actions[|actions| - 1], RequestsOf(s, most))
  }

  /** Over any run every accepted request is one pass that started, one that is still owed, one that joined a pass already
      owed, or one dropped by a disconnect, a shutdown or a machine that could not be read; so passes never outnumber
      accepted requests. */
  lemma {:induction false} PassesAreRequested(s: State, actions: seq<Action>)
    requires Inv(s)
    ensures var now, r := Run(s, actions), RequestsOf(s, actions);
            Passes(s.log) + Owed(s) + r.accepted == Passes(now.log) + Owed(now) + r.coalesced + r.dropped
  {
    if actions != [] {
      var most := actions[..|actions| - 1];
      PassesAreRequested(s, most);
      StepIsRequested(Run(s, most), actions[|actions| - 1]);
    }
  }

  lemma StepIsRequested(s: State, a: Action)
    requires Inv(s)
    ensures var r := Tally(s, a, Requests(0, 0, 0));
            Passes(s.log) + Owed(s) + r.accepted == Passes(Step(s, a).log) + Owed(Step(s, a)) + r.coalesced + r.dropped
  {
    if a.Resumed? && s.current == Some(a.task) {
      if CanRead(s) {
        OneStepDrains(s, a.outcome);
      } else {
        UnreadableStep(s, a.task, a.outcome);
      }
    } else if Asks(s, a).Some? {
      AskIsTallied(s, a);
    } else {
      OtherStepIsTallied(s, a);
    }
  }

  lemma RequestIsOwed(s: State, followUp: bool)
    requires Inv(s)
    ensures var r, accepted := BrandStatsSpec.RequestRefresh(s, followUp), Open(s) && (s.current.None? || followUp);
            r.log == s.log && Owed(r) == if accepted then 1 else Owed(s)
  {
  }

  lemma AskIsTallied(s: State, a: Action)
    requires Inv(s) && Asks(s, a).Some?
    ensures Step(s, a).log == s.log && Owed(Step(s, a)) == if Accepts(s, a) then 1 else Owed(s)
  {
    match a {
      case Status(ready) =>
        RequestIsOwed(s.(client := s.client.(status := Some(ready)), wasBusy := !ready), true);
      case Connection(connected) =>
        var seen := s.(client := s.client.(connected := connected));
        RequestIsOwed(seen.(wasBusy := connected && seen.client.status == Some(false)), false);
      case Tick => RequestIsOwed(s, false);
      case First => RequestIsOwed(s.(initialRequested := true), false);
    }
  }

  lemma OtherStepIsTallied(s: State, a: Action)
    requires Inv(s) && Asks(s, a).None? && !(a.Resumed? && s.current == Some(a.task))
    ensures Step(s, a).log == s.log && Owed(Step(s, a)) == if Drops(s, a) then 0 else Owed(s)
  {
    if a.Resumed? && a.task in s.tasks {
      CancelledTaskIsInert(s, a.task, a.outcome);
    }
  }

  lemma UnreadableStep(s: State, t: nat, outcome: Outcome)
    requires Inv(s) && s.current == Some(t) && !CanRead(s)
    ensures Passes(Resume(s, t, outcome).log) == Passes(s.log) && Resume(s, t, outcome).current.None?
  {
    if s.tasks[t].Reading? {
      var learned := Learn(s, s.tasks[t].ids[s.tasks[t].i], outcome);
      PassesNext(s.log, Read(s.tasks[t].ids[s.tasks[t].i], outcome));
      PassesNext(learned.log, PassEnd);
    }
  }
}
