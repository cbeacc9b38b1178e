/**
 What every run of connect cycles, advertisements, failure reports and restarts keeps: destruction is never doubled and
 never unjustified, and no handshake traffic leaves the source that owns the bond.
 */
module ConnectSafety {
  import opened Prelude
  import opened BondState
  import opened ConnectSpec

  // ----- runs -----

  /** What setup hands to a new client; the bond machine is the persisted one. */
  datatype Config = Config(
    device: Option<Device>, deviceSource: Option<string>, affinity: Option<string>, hint: Option<string>,
    migration: bool)

  /** Setup takes the initial device from the scanner of the affinity when there is one. */
  predicate WellConfigured(g: Config) {
    && (g.device.None? ==> g.deviceSource.None?)
    && (g.affinity.Some? && g.device.Some? ==> g.deviceSource == g.affinity)
    && (g.affinity.Some? ==> g.hint.None?)
  }

  datatype Action =
    | Advertise(ad: Advert)
    | Cycle(script: CycleScript)
    | Note(threshold: int, installed: bool, now: real)
    | LinkLost
    | Presence(absent: bool)
    | Save
    | Restart(config: Config)

  /** A new client on the bond document in storage. */
  function Boot(g: Config, store: map<string, Json>, log: seq<Entry>): Client {
    Client(Radio(g.device, g.deviceSource, g.affinity, g.hint, None, None),
           Episode(false, g.migration, false, None, false, 0, 0, {}, false), Restore(store), store, log)
  }

  function Step(c: Client, a: Action): Client {
    match a
    case Advertise(ad) => c.(radio := SetBleDevice(c.radio, ad))
    case Cycle(script) => Connect(c, script).0
    case Note(threshold, installed, now) => NoteFailure(c, threshold, installed, now)
    case LinkLost => Disconnected(c)
    case Presence(absent) => c.(episode := c.episode.(absent := absent))
    case Save => SaveBond(c)
    case Restart(g) => Log(Boot(g, c.store, c.log), Restarted)
  }

  predicate WellFormed(acts: seq<Action>) {
    forall a | a in acts :: a.Restart? ==> WellConfigured(a.config)
  }

  /** A run of an install: `prior` are the bond calls of its earlier life, whose outcome was persisted. Changes of the bond
      reach storage with a save, some seconds later; a restart begins from what storage holds. */
  function Run(prior: seq<Call>, g: Config, acts: seq<Action>): Client {
    if acts == [] then Boot(g, AsDict(BondState.Run(FRESH, prior)), [])
    else Step(Run(prior, g, acts[..|acts| - 1]), acts[|acts| - 1])
  }

  // ----- what the log says -----

  /** The bond calls that the client remembers, and those that storage does. */
  datatype Memory = Memory(now: seq<Call>, saved: seq<Call>)

  function Remember(prior: seq<Call>, log: seq<Entry>): Memory {
    if log == [] then Memory(prior, prior) else Recall(Remember(prior, log[..|log| - 1]), log[|log| - 1])
  }

  function Recall(m: Memory, e: Entry): Memory {
    match e
    case BondCall(call) => m.(now := m.now + [call])
    case Saved => Memory(m.now, m.now)
    case Restarted => Memory(m.saved, m.saved)
    case _ => m
  }

  function Calls(prior: seq<Call>, log: seq<Entry>): seq<Call> {
    Remember(prior, log).now
  }

  /** The classes noted since the last handshake or restart. */
  function NotedClasses(log: seq<Entry>): set<Option<FailureClass>> {
    if log == [] || IsHandshake(log[|log| - 1]) || log[|log| - 1].Restarted? then {}
    else
      NotedClasses(log[..|log| - 1]) +
      if IsNote(log[|log| - 1]) then {log[|log| - 1].call.cls} else {}
  }

  predicate IsNote(e: Entry) {
    e.BondCall? && e.call.CycleFailure?
  }

  predicate IsDestruction(e: Entry) {
    e.BondCall? && e.call.BondDestroyed?
  }

  predicate EndsInRequest(log: seq<Entry>) {
    log != [] && log[|log| - 1].Request?
  }

  predicate IsHandshake(e: Entry) {
    e.BondCall? && e.call.HandshakeSuccess?
  }

  /** A destructive request may have left since the last handshake or restart. */
  function Requested(log: seq<Entry>): bool {
    if log == [] then false
    else if log[|log| - 1].Request? then true
    else if IsHandshake(log[|log| - 1]) || log[|log| - 1].Restarted? then false
    else Requested(log[..|log| - 1])
  }

  /** The pair frozen by the last cycle start. */
  function Frozen(log: seq<Entry>): (Option<Device>, Option<string>) {
    if log == [] then (None, None)
    else if log[|log| - 1].CycleStart? then (log[|log| - 1].frozenDevice, log[|log| - 1].frozenSource)
    else Frozen(log[..|log| - 1])
  }

  function LastLink(log: seq<Entry>): Option<Entry> {
    if log == [] then None
    else if log[|log| - 1].LinkUp? then Some(log[|log| - 1])
    else LastLink(log[..|log| - 1])
  }

  /** The evidence for forgetting the bond: the remembered AUTH reports since the last handshake plus the verdict in
      flight. */
  function Evidence(prior: seq<Call>, log: seq<Entry>, authFailSeen: bool): nat {
    AuthReports(Calls(prior, log)) + if authFailSeen then 1 else 0
  }

  /** A migration target's own rejection, or repeated evidence against a proven and not yet destroyed bond. */
  ghost predicate Justified(prior: seq<Call>, log: seq<Entry>, facts: UnpairCase) {
    if facts.migration then facts.authFailSeen
    else
      && facts.affinity.Some?
      && Evidence(prior, log, facts.authFailSeen) >= 2
      && !DestroyedSinceHandshake(Calls(prior, log))
  }

  /** What makes entry e acceptable after the entries of `log`. */
  ghost predicate SafeNext(prior: seq<Call>, log: seq<Entry>, e: Entry) {
    (EndsInRequest(log) ==> IsDestruction(e)) && SafeEntry(prior, log, e)
  }

  ghost predicate SafeEntry(prior: seq<Call>, log: seq<Entry>, e: Entry) {
    match e
    case UnpairRung(facts) => Justified(prior, log, facts)
    case Request(facts) => Justified(prior, log, facts) && !Requested(log)
    case LinkUp(source, on, affinity) =>
      && (Truthy(source) ==> on.Some? && Norm(on) == Norm(source))
      && (Norm(affinity) != "" ==> on.Some? && Norm(on) == Norm(affinity))
    case Rung(device, source) =>
      Frozen(log).0.Some? && Truthy(Frozen(log).1) ==> (Some(device), source) == Frozen(log)
    case Learned(learned) =>
      Truthy(Frozen(log).1) ==>
        && Frozen(log).1 == Some(learned)
        && LastLink(log).Some? && LastLink(log).value.LinkUp? && LastLink(log).value.source == Some(learned)
        && LastLink(log).value.on.Some? && Norm(LastLink(log).value.on) == Norm(Some(learned))
    case _ => true
  }

  ghost predicate SafeLog(prior: seq<Call>, log: seq<Entry>) {
    log == [] || (SafeLog(prior, log[..|log| - 1]) && SafeNext(prior, log[..|log| - 1], log[|log| - 1]))
  }

  // ----- the invariant -----

  /** A known affinity owns the cached device. */
  predicate RadioOk(r: Radio) {
    && (r.device.None? ==> r.deviceSource.None?)
    && (Norm(r.affinity) != "" && r.device.Some? ==> Norm(r.deviceSource) == Norm(r.affinity))
  }

  predicate CycleOk(r: Radio) {
    && (r.cycleDevice.None? ==> r.cycleSource.None?)
    && (Norm(r.affinity) != "" && r.cycleDevice.Some? ==> Norm(r.cycleSource) == Norm(r.affinity))
  }

  ghost predicate Inv(prior: seq<Call>, c: Client) {
    && SafeLog(prior, c.log)
    && !EndsInRequest(c.log)
    && c.episode.unpaired == Requested(c.log)
    && c.episode.classes == NotedClasses(c.log)
    && BondOk(prior, c)
    && RadioOk(c.radio)
  }

  /** The machine and storage hold what they remember. */
  ghost predicate BondOk(prior: seq<Call>, c: Client) {
    && c.bond == BondState.Run(FRESH, Calls(prior, c.log))
    && c.store == AsDict(BondState.Run(FRESH, Remember(prior, c.log).saved))
  }

  ghost predicate InCycle(prior: seq<Call>, c: Client) {
    && Inv(prior, c)
    && CycleOk(c.radio)
    && Frozen(c.log) == (c.radio.cycleDevice, c.radio.cycleSource)
  }

  // ----- the log grows one safe entry at a time -----

  lemma LogNext(prior: seq<Call>, log: seq<Entry>, e: Entry)
    ensures SafeLog(prior, log + [e]) <==> SafeLog(prior, log) && SafeNext(prior, log, e)
    ensures Calls(prior, log + [e]) == (if e.BondCall? then Calls(prior, log) + [e.call]
                                        else if e.Restarted? then Remember(prior, log).saved else Calls(prior, log))
    ensures Remember(prior, log + [e]).saved == if e.Saved? then Calls(prior, log) else Remember(prior, log).saved
    ensures Requested(log + [e]) <==> e.Request? || (Requested(log) && !IsHandshake(e) && !e.Restarted?)
    ensures Frozen(log + [e]) == if e.CycleStart? then (e.frozenDevice, e.frozenSource) else Frozen(log)
    ensures LastLink(log + [e]) == if e.LinkUp? then Some(e) else LastLink(log)
  {
    assert (log + [e])[..|log|] == log;
  }

  lemma ClassesNext(log: seq<Entry>, e: Entry)
    ensures NotedClasses(log + [e]) == (if IsHandshake(e) || e.Restarted? then {}
                                        else if IsNote(e) then NotedClasses(log) + {e.call.cls} else NotedClasses(log))
  {
    assert (log + [e])[..|log|] == log;
  }

  /** Logging an entry that is neither a request, a bond call, a save, a restart nor a cycle start. */
  lemma LogPlain(prior: seq<Call>, c: Client, e: Entry)
    requires Inv(prior, c) && SafeNext(prior, c.log, e)
    requires !e.Request? && !e.BondCall? && !e.Saved? && !e.Restarted? && !e.CycleStart?
    ensures Inv(prior, Log(c, e))
    ensures InCycle(prior, c) ==> InCycle(prior, Log(c, e))
  {
    LogNext(prior, c.log, e);
    ClassesNext(c.log, e);
  }

  lemma SaveIsSafe(prior: seq<Call>, c: Client)
    requires Inv(prior, c)
    ensures Inv(prior, SaveBond(c))
    ensures InCycle(prior, c) ==> InCycle(prior, SaveBond(c))
  {
    LogNext(prior, c.log, Saved);
    ClassesNext(c.log, Saved);
  }

  lemma BondCallNext(prior: seq<Call>, c: Client, call: Call)
    requires SafeLog(prior, c.log) && BondOk(prior, c) && (EndsInRequest(c.log) ==> call.BondDestroyed?)
    ensures SafeLog(prior, CallBond(c, call).log) && !EndsInRequest(CallBond(c, call).log)
    ensures BondOk(prior, CallBond(c, call))
  {
    var calls := Calls(prior, c.log);
    LogNext(prior, c.log, BondCall(call));
    assert (calls + [call])[..|calls|] == calls;
  }

  // ----- advertisements -----

  lemma {:induction false} AdvertsKeepAffinity(r: Radio, ads: seq<Advert>)
    requires RadioOk(r)
    ensures var r' := SetBleDevices(r, ads);
            && RadioOk(r') && r'.affinity == r.affinity && r'.hint == r.hint
            && r'.cycleDevice == r.cycleDevice && r'.cycleSource == r.cycleSource
            && (r.device.Some? ==> r'.device.Some?)
  {
    if ads != [] {
      AdvertsKeepAffinity(r, ads[..|ads| - 1]);
    }
  }

  // ----- one rung -----

  lemma RungStarts(prior: seq<Call>, c: Client, during: seq<Advert>)
    requires InCycle(prior, c) && RungDevice(c.radio).Some?
    ensures var c' := StartRung(c, RungDevice(c.radio).value, during);
            && InCycle(prior, c') && c'.radio.affinity == c.radio.affinity && c'.radio.cycleSource == c.radio.cycleSource
  {
    LogPlain(prior, c, Rung(RungDevice(c.radio).value, RungSource(c.radio)));
    AdvertsKeepAffinity(c.radio, during);
  }

  lemma RungIsSafe(prior: seq<Call>, c: Client, a: Attempt)
    requires InCycle(prior, c)
    ensures var (c', verdict) := TryConnect(c, a);
            && InCycle(prior, c')
            && c'.radio.affinity == c.radio.affinity
            && c'.episode.unpaired == c.episode.unpaired
            && c'.episode.migrationPending == c.episode.migrationPending
            && (verdict == Handshaken && Truthy(c'.radio.cycleSource) ==> ProvenOn(c'.log, c'.radio.cycleSource))
  {
    if RungDevice(c.radio).Some? {
      RungStarts(prior, c, a.during);
      if Norm(c.radio.affinity) != "" {
        PinFollowsAffinity(c.radio);
      }
      ConcludeIsSafe(prior, StartRung(c, RungDevice(c.radio).value, a.during), RungSource(c.radio), a.outcome);
    }
  }

  lemma ConcludeIsSafe(prior: seq<Call>, c: Client, source: Option<string>, outcome: LinkOutcome)
    requires InCycle(prior, c)
    requires Norm(c.radio.affinity) != "" ==> Truthy(source) && Norm(source) == Norm(c.radio.affinity)
    ensures var (c', verdict) := Conclude(c, source, outcome);
            && InCycle(prior, c') && c'.radio == c.radio
            && c'.episode.unpaired == c.episode.unpaired
            && c'.episode.migrationPending == c.episode.migrationPending
            && (verdict == Handshaken && Truthy(source) ==> ProvenOn(c'.log, source))
  {
    match outcome {
      case EstablishFails(cls) => LogPlain(prior, c, Classified(cls));
      case Lands(on, alive, session) =>
        LogPlain(prior, c, Classified(LinkFail));
        if SourceVerified(source, on) && alive {
          var link := LinkUp(source, on, c.radio.affinity);
          LogPlain(prior, c, link);
          LogNext(prior, c.log, link);
          ConverseIsSafe(prior, Log(c, link), session);
        }
    }
  }

  lemma ConverseIsSafe(prior: seq<Call>, c: Client, session: Session)
    requires InCycle(prior, c)
    ensures var (c', verdict) := Converse(c, session);
            && InCycle(prior, c') && c'.radio == c.radio
            && c'.episode.unpaired == c.episode.unpaired
            && c'.episode.migrationPending == c.episode.migrationPending
            && (verdict == Handshaken ==> c' == c)
  {
    match session {
      case NotifyFails(cls) => LogPlain(prior, c, Classified(cls));
      case HandshakeFails => LogPlain(prior, c, Classified(Handshake));
      case HandshakeRaises =>
      case HandshakeDone =>
    }
  }

  /** The last link came up verified on this source. */
  predicate ProvenOn(log: seq<Entry>, source: Option<string>) {
    var link := LastLink(log);
    link.Some? && link.value.LinkUp? && link.value.source == source && link.value.on.Some? &&
    Norm(link.value.on) == Norm(source)
  }

  /** With a known affinity a rung is always pinned to it. */
  lemma PinFollowsAffinity(r: Radio)
    requires RadioOk(r) && CycleOk(r) && RungDevice(r).Some? && Norm(r.affinity) != ""
    ensures Truthy(RungSource(r)) && Norm(RungSource(r)) == Norm(r.affinity)
  {
  }

  // ----- the destructive rung -----

  function Requests(log: seq<Entry>): nat {
    if log == [] then 0
    else Requests(log[..|log| - 1]) + if log[|log| - 1].Request? then 1 else 0
  }

  lemma RequestsNext(log: seq<Entry>, e: Entry)
    ensures Requests(log + [e]) == Requests(log) + if e.Request? then 1 else 0
  {
    assert (log + [e])[..|log|] == log;
  }

  /** One unpair attempt sends at most one destructive request, and sets the episode latch exactly when it may have. */
  lemma AtMostOneRequest(c: Client, u: UnpairScript)
    ensures var (c', outcome) := TryUnpair(c, u);
            && Requests(c'.log) == Requests(c.log) + (if outcome == NotSent then 0 else 1)
            && c'.episode.unpaired == (c.episode.unpaired || outcome != NotSent)
  {
    if CallbackSends(u.callback) {
      CallbackCountsOnce(c, u);
    } else {
      FallbackCountsOnce(Ask(c, u), u);
    }
  }

  lemma CallbackCountsOnce(c: Client, u: UnpairScript)
    requires CallbackSends(u.callback)
    ensures var (c', outcome) := TryUnpair(c, u);
            Requests(c'.log) == Requests(c.log) + 1 && outcome != NotSent && c'.episode.unpaired
  {
    var heard := c.(radio := SetBleDevices(c.radio, u.asking));
    AttemptCountsOnce(heard, "proxy_unpair", u.now);
    AttemptCountsOnce(heard, "proxy_unpair_attempted_unconfirmed", u.now);
  }

  lemma FallbackCountsOnce(c: Client, u: UnpairScript)
    ensures var (c', outcome) := FallbackUnpair(c, u);
            && Requests(c'.log) == Requests(c.log) + (if outcome == NotSent then 0 else 1)
            && c'.episode.unpaired == (c.episode.unpaired || outcome != NotSent)
  {
    if RungDevice(c.radio).Some? {
      var tried := StartRung(c, RungDevice(c.radio).value, u.during);
      RequestsNext(c.log, Rung(RungDevice(c.radio).value, RungSource(c.radio)));
      CallCountsOnce(tried, u.call, u.now);
    }
  }

  lemma CallCountsOnce(c: Client, call: UnpairCall, now: real)
    ensures var (c', outcome) := CallUnpair(c, call, now);
            && Requests(c'.log) == Requests(c.log) + (if outcome == NotSent then 0 else 1)
            && c'.episode.unpaired == (c.episode.unpaired || outcome != NotSent)
  {
    AttemptCountsOnce(c, "connect_unpair", now);
    AttemptCountsOnce(c, "connect_unpair_attempted_unconfirmed", now);
  }

  lemma AttemptCountsOnce(c: Client, op: string, now: real)
    ensures Requests(RecordAttempt(Dispatch(c), op, now).log) == Requests(c.log) + 1
  {
    RequestsNext(c.log, Request(CaseOf(c)));
    RequestsNext(Dispatch(c).log, BondCall(BondDestroyed(op, "rung3", now)));
  }

  /** Whether the bond may still be forgotten. */
  ghost predicate Unspent(prior: seq<Call>, c: Client) {
    InCycle(prior, c) && !c.episode.unpaired && Justified(prior, c.log, CaseOf(c))
  }

  lemma AttemptIsSafe(prior: seq<Call>, c: Client, op: string, now: real)
    requires Unspent(prior, c)
    ensures InCycle(prior, RecordAttempt(Dispatch(c), op, now))
  {
    var sent, call := Dispatch(c), BondDestroyed(op, "rung3", now);
    LogNext(prior, c.log, Request(CaseOf(c)));
    ClassesNext(c.log, Request(CaseOf(c)));
    BondCallNext(prior, sent, call);
    LogNext(prior, sent.log, BondCall(call));
    ClassesNext(sent.log, BondCall(call));
  }

  lemma HearingIsSafe(prior: seq<Call>, c: Client, ads: seq<Advert>)
    requires Unspent(prior, c)
    ensures Unspent(prior, c.(radio := SetBleDevices(c.radio, ads)))
    ensures SetBleDevices(c.radio, ads).affinity == c.radio.affinity
  {
    AdvertsKeepAffinity(c.radio, ads);
  }

  lemma UnpairIsSafe(prior: seq<Call>, c: Client, u: UnpairScript)
    requires Unspent(prior, c)
    ensures InCycle(prior, TryUnpair(c, u).0)
    ensures TryUnpair(c, u).0.radio.affinity == c.radio.affinity
  {
    HearingIsSafe(prior, c, u.asking);
    if CallbackSends(u.callback) {
      CallbackIsSafe(prior, c, u);
    } else {
      FallbackIsSafe(prior, Ask(c, u), u);
    }
  }

  lemma CallbackIsSafe(prior: seq<Call>, c: Client, u: UnpairScript)
    requires CallbackSends(u.callback) && Unspent(prior, c.(radio := SetBleDevices(c.radio, u.asking)))
    ensures InCycle(prior, TryUnpair(c, u).0)
    ensures TryUnpair(c, u).0.radio == SetBleDevices(c.radio, u.asking)
  {
    var heard := c.(radio := SetBleDevices(c.radio, u.asking));
    AttemptIsSafe(prior, heard, "proxy_unpair", u.now);
    AttemptIsSafe(prior, heard, "proxy_unpair_attempted_unconfirmed", u.now);
  }

  lemma FallbackIsSafe(prior: seq<Call>, c: Client, u: UnpairScript)
    requires Unspent(prior, c)
    ensures InCycle(prior, FallbackUnpair(c, u).0)
    ensures FallbackUnpair(c, u).0.radio.affinity == c.radio.affinity
  {
    if RungDevice(c.radio).Some? {
      var tried := StartRung(c, RungDevice(c.radio).value, u.during);
      RungStarts(prior, c, u.during);
      LogNext(prior, c.log, Rung(RungDevice(c.radio).value, RungSource(c.radio)));
      assert CaseOf(tried) == CaseOf(c);
      CallUnpairIsSafe(prior, tried, u.call, u.now);
    }
  }

  lemma CallUnpairIsSafe(prior: seq<Call>, c: Client, call: UnpairCall, now: real)
    requires Unspent(prior, c)
    ensures InCycle(prior, CallUnpair(c, call, now).0)
    ensures CallUnpair(c, call, now).0.radio == c.radio
  {
    AttemptIsSafe(prior, c, "connect_unpair", now);
    AttemptIsSafe(prior, c, "connect_unpair_attempted_unconfirmed", now);
  }

  // ----- one cycle -----

  lemma MayUnpairIsJustified(prior: seq<Call>, c: Client)
    requires InCycle(prior, c) && MayUnpair(c)
    ensures Unspent(prior, c)
  {
    UnpairNeedsTwoVerdicts(Calls(prior, c.log), c.episode.authFailSeen);
  }

  lemma UnpairAndRetryIsSafe(prior: seq<Call>, c: Client, s: CycleScript)
    requires InCycle(prior, c) && MayUnpair(c)
    ensures CycleOutcomeSafe(prior, c, UnpairAndRetry(c, s))
  {
    var rung := UnpairRung(CaseOf(c));
    var armed := Log(c, rung);
    assert Unspent(prior, armed) by {
      MayUnpairIsJustified(prior, c);
      LogPlain(prior, c, rung);
      LogNext(prior, c.log, rung);
    }
    UnpairIsSafe(prior, armed, s.unpair);
    var (unpaired, outcome) := TryUnpair(armed, s.unpair);
    FinishIsSafe(prior, unpaired, outcome, s);
  }

  lemma FinishIsSafe(prior: seq<Call>, c: Client, outcome: UnpairOutcome, s: CycleScript)
    requires InCycle(prior, c)
    ensures CycleOutcomeSafe(prior, c, FinishLadder(c, outcome, s))
  {
    SaveIsSafe(prior, c);
    RungIsSafe(prior, if s.savesBond then SaveBond(c) else c, s.third);
  }

  /** What a ladder that started in c leaves behind. */
  ghost predicate CycleOutcomeSafe(prior: seq<Call>, c: Client, r: (Client, Verdict)) {
    && InCycle(prior, r.0)
    && r.0.radio.affinity == c.radio.affinity
    && (r.1 == Handshaken && Truthy(r.0.radio.cycleSource) ==> ProvenOn(r.0.log, r.0.radio.cycleSource))
  }

  lemma LadderIsSafe(prior: seq<Call>, c: Client, s: CycleScript)
    requires InCycle(prior, c)
    ensures CycleOutcomeSafe(prior, c, Ladder(c, s))
  {
    RungIsSafe(prior, c, s.first);
    var c1 := TryConnect(c, s.first).0;
    RungIsSafe(prior, c1, s.second);
    var c2 := TryConnect(c1, s.second).0;
    if MayUnpair(c2) {
      UnpairAndRetryIsSafe(prior, c2, s);
    }
  }

  lemma LearnIsSafe(prior: seq<Call>, c: Client)
    requires InCycle(prior, c)
    requires Truthy(c.radio.cycleSource) ==> ProvenOn(c.log, c.radio.cycleSource)
    ensures Inv(prior, LearnSource(c))
    ensures c.radio.affinity.Some? ==> LearnSource(c).radio.affinity == c.radio.affinity
  {
    var source := RungSource(c.radio);
    if Truthy(source) && c.radio.affinity.None? {
      var learned := Learned(source.value);
      assert InCycle(prior, Log(c, learned)) by {
        LogPlain(prior, c, learned);
      }
      assert RadioOk(SetAffinity(c.radio, source));
    }
  }

  lemma SuccessIsSafe(prior: seq<Call>, c: Client, now: real)
    requires InCycle(prior, c)
    requires Truthy(c.radio.cycleSource) ==> ProvenOn(c.log, c.radio.cycleSource)
    ensures Inv(prior, Succeed(c, now))
    ensures c.radio.affinity.Some? ==> Succeed(c, now).radio.affinity == c.radio.affinity
  {
    var call := HandshakeSuccess(now);
    BondCallNext(prior, Renewed(c), call);
    LogNext(prior, c.log, BondCall(call));
    ClassesNext(c.log, BondCall(call));
    LearnIsSafe(prior, CallBond(Renewed(c), call));
  }

  lemma ImplIsSafe(prior: seq<Call>, c: Client, s: CycleScript)
    requires InCycle(prior, c)
    ensures Inv(prior, ConnectImpl(c, s).0)
    ensures c.radio.affinity.Some? ==> ConnectImpl(c, s).0.radio.affinity == c.radio.affinity
  {
    var begun := c.(episode := c.episode.(authFailSeen := false));
    LadderIsSafe(prior, begun, s);
    var (after, verdict) := Ladder(begun, s);
    if verdict == Handshaken {
      SuccessIsSafe(prior, after, s.now);
    }
  }

  lemma CycleIsSafe(prior: seq<Call>, c: Client, s: CycleScript)
    requires Inv(prior, c)
    ensures Inv(prior, Connect(c, s).0)
    ensures c.radio.affinity.Some? ==> Connect(c, s).0.radio.affinity == c.radio.affinity
  {
    LogNext(prior, c.log, CycleStart(c.radio.device, c.radio.deviceSource));
    ClassesNext(c.log, CycleStart(c.radio.device, c.radio.deviceSource));
    ImplIsSafe(prior, Freeze(c), s);
  }

  // ----- runs -----

  lemma NoteIsSafe(prior: seq<Call>, c: Client, threshold: int, installed: bool, now: real)
    requires Inv(prior, c)
    ensures Inv(prior, NoteFailure(c, threshold, installed, now))
  {
    var cls := ReportedClass(c.episode);
    var counted := c.(episode := CountFailure(WithClass(c.episode, cls), threshold, installed));
    BondCallNext(prior, counted, CycleFailure(cls, now));
    LogNext(prior, c.log, BondCall(CycleFailure(cls, now)));
    ClassesNext(c.log, BondCall(CycleFailure(cls, now)));
  }

  lemma StepIsSafe(prior: seq<Call>, c: Client, a: Action)
    requires Inv(prior, c) && (a.Restart? ==> WellConfigured(a.config))
    ensures Inv(prior, Step(c, a))
    ensures c.radio.affinity.Some? && !a.Restart? ==> Step(c, a).radio.affinity == c.radio.affinity
  {
    match a {
      case Advertise(ad) => AdvertIsSafe(prior, c, ad);
      case Cycle(script) => CycleIsSafe(prior, c, script);
      case Note(threshold, installed, now) => NoteIsSafe(prior, c, threshold, installed, now);
      case LinkLost =>
      case Presence(absent) =>
      case Save => SaveIsSafe(prior, c);
      case Restart(g) => RestartIsSafe(prior, c, g);
    }
  }

  lemma AdvertIsSafe(prior: seq<Call>, c: Client, ad: Advert)
    requires Inv(prior, c)
    ensures Inv(prior, c.(radio := SetBleDevice(c.radio, ad)))
  {
  }

  lemma RestartIsSafe(prior: seq<Call>, c: Client, g: Config)
    requires Inv(prior, c) && WellConfigured(g)
    ensures Inv(prior, Log(Boot(g, c.store, c.log), Restarted))
  {
    LogNext(prior, c.log, Restarted);
    ClassesNext(c.log, Restarted);
    StoredIsRestored(Remember(prior, c.log).saved);
  }

  lemma StoredIsRestored(calls: seq<Call>)
    ensures Restore(AsDict(BondState.Run(FRESH, calls))) == BondState.Run(FRESH, calls)
  {
    RunStaysValid(FRESH, calls);
    SnapshotIsLossless(BondState.Run(FRESH, calls));
  }

  lemma {:induction false} RunIsSafe(prior: seq<Call>, g: Config, acts: seq<Action>)
    requires WellConfigured(g) && WellFormed(acts)
    ensures Inv(prior, Run(prior, g, acts))
  {
    if acts == [] {
      StoredIsRestored(prior);
    } else {
      RunIsSafe(prior, g, acts[..|acts| - 1]);
      StepIsSafe(prior, Run(prior, g, acts[..|acts| - 1]), acts[|acts| - 1]);
    }
  }

  // ----- what the log of every run shows -----

  lemma {:induction false} SafeAt(prior: seq<Call>, log: seq<Entry>, l: nat)
    requires SafeLog(prior, log) && l < |log|
    ensures SafeNext(prior, log[..l], log[l])
  {
    var most := log[..|log| - 1];
    if l < |most| {
      SafeAt(prior, most, l);
      assert most[..l] == log[..l];
    }
  }

  lemma {:induction false} RequestedSince(log: seq<Entry>, k: nat)
    requires k < |log| && log[k].Request?
    requires forall h | k < h < |log| :: !IsHandshake(log[h]) && !log[h].Restarted?
    ensures Requested(log)
  {
    if k < |log| - 1 {
      RequestedSince(log[..|log| - 1], k);
    }
  }

  lemma {:induction false} RequestIsRecorded(prior: seq<Call>, log: seq<Entry>, k: nat)
    requires SafeLog(prior, log) && k + 1 < |log| && log[k].Request?
    ensures IsDestruction(log[k + 1])
  {
    SafeAt(prior, log, k + 1);
    assert log[..k + 1][k] == log[k];
  }

  /** Every restart after entry k found a save that was made after k. */
  ghost predicate SavedBeforeRestarts(log: seq<Entry>, k: nat) {
    forall r | k < r < |log| && log[r].Restarted? :: SavedIn(log, k, r)
  }

  ghost predicate SavedIn(log: seq<Entry>, k: nat, r: nat)
    requires r <= |log|
  {
    exists s :: k < s < r && log[s].Saved?
  }

  /** A destruction without a later handshake stays remembered when it was saved before the restarts. */
  lemma {:induction false} DestroyedSince(prior: seq<Call>, log: seq<Entry>, k: nat)
    requires k < |log| && IsDestruction(log[k])
    requires forall h | k < h < |log| :: !IsHandshake(log[h])
    requires SavedBeforeRestarts(log, k)
    ensures DestroyedSinceHandshake(Calls(prior, log))
    ensures SavedIn(log, k, |log|) ==> DestroyedSinceHandshake(Remember(prior, log).saved)
  {
    var n := |log| - 1;
    var most, last := log[..n], log[n];
    if last.BondCall? {
      DestroyedNext(Calls(prior, most), last.call);
    }
    if k < n {
      assert forall h | 0 <= h < n :: most[h] == log[h];
      assert SavedBeforeRestarts(most, k) by {
        forall r | k < r < |most| && most[r].Restarted? ensures SavedIn(most, k, r) {
          assert log[r].Restarted?;
          var s :| k < s < r && log[s].Saved?;
          assert most[s].Saved?;
        }
      }
      DestroyedSince(prior, most, k);
      if last.Restarted? {
        var s :| k < s < n && log[s].Saved?;
        assert most[s].Saved?;
      }
      if !last.Saved? && SavedIn(log, k, |log|) {
        var s :| k < s < |log| && log[s].Saved?;
        assert most[s].Saved?;
      }
    }
  }

  /**
   Destruction is never doubled: two destructive requests without a handshake in between are separated by a restart, and
   the later one was sent while migrating, or a restart in between lost the record of the earlier one because no save
   had fired since.
   */
  lemma DestructionIsNeverDoubled(prior: seq<Call>, g: Config, acts: seq<Action>, k: nat, l: nat)
    requires WellConfigured(g) && WellFormed(acts)
    requires k < l < |Run(prior, g, acts).log|
    requires var log := Run(prior, g, acts).log;
             log[k].Request? && log[l].Request? && forall h | k < h < l :: !IsHandshake(log[h])
    ensures var log := Run(prior, g, acts).log;
            exists r :: && k < r < l && log[r].Restarted?
                        && (log[l].facts.migration || !SavedIn(log, k, r))
  {
    var log := Run(prior, g, acts).log;
    RunIsSafe(prior, g, acts);
    DoublingNeedsRestart(prior, log, k, l);
    if !log[l].facts.migration && forall r | k < r < l && log[r].Restarted? :: SavedIn(log, k, r) {
      SavedDestructionBlocks(prior, log, k, l);
    }
  }

  lemma DoublingNeedsRestart(prior: seq<Call>, log: seq<Entry>, k: nat, l: nat)
    requires SafeLog(prior, log) && k < l < |log| && log[k].Request? && log[l].Request?
    requires forall h | k < h < l :: !IsHandshake(log[h])
    ensures exists r :: k < r < l && log[r].Restarted?
  {
    SafeAt(prior, log, l);
    if forall r | k < r < l :: !log[r].Restarted? {
      RequestedSince(log[..l], k);
    }
  }

  lemma SavedDestructionBlocks(prior: seq<Call>, log: seq<Entry>, k: nat, l: nat)
    requires SafeLog(prior, log) && k < l < |log| && log[k].Request? && log[l].Request?
    requires forall h | k < h < l :: !IsHandshake(log[h])
    requires forall r | k < r < l && log[r].Restarted? :: SavedIn(log, k, r)
    ensures log[l].facts.migration
  {
    SafeAt(prior, log, l);
    RequestIsRecorded(prior, log, k);
    var before, d := log[..l], k + 1;
    assert forall h | 0 <= h < l :: before[h] == log[h];
    forall r | d < r < |before| && before[r].Restarted? ensures SavedIn(before, d, r) {
      assert log[r].Restarted?;
      var s :| k < s < r && log[s].Saved?;
      assert s != d && before[s].Saved?;
    }
    DestroyedSince(prior, before, d);
  }

  lemma EntryIsJustified(prior: seq<Call>, log: seq<Entry>, l: nat)
    requires SafeLog(prior, log) && l < |log| && (log[l].UnpairRung? || log[l].Request?)
    ensures Justified(prior, log[..l], log[l].facts)
  {
    SafeAt(prior, log, l);
  }

  /** Destruction is justified: the unpair rung runs, and a request leaves, only on the evidence its case demands. */
  lemma DestructionIsJustified(prior: seq<Call>, g: Config, acts: seq<Action>, l: nat)
    requires WellConfigured(g) && WellFormed(acts)
    requires l < |Run(prior, g, acts).log|
    ensures var log := Run(prior, g, acts).log;
            log[l].UnpairRung? || log[l].Request? ==>
              if log[l].facts.migration then log[l].facts.authFailSeen
              else log[l].facts.affinity.Some? && Evidence(prior, log[..l], log[l].facts.authFailSeen) >= 2
  {
    var log := Run(prior, g, acts).log;
    RunIsSafe(prior, g, acts);
    if log[l].UnpairRung? || log[l].Request? {
      EntryIsJustified(prior, log, l);
    }
  }

  /** At every moment of every run, a stale bond is suspected exactly outside migration, with the affinity known, on at
      least two remembered AUTH verdicts since the last handshake, and with no destruction remembered since it. */
  lemma SuspicionIsExact(prior: seq<Call>, g: Config, acts: seq<Action>)
    requires WellConfigured(g) && WellFormed(acts)
    ensures var c := Run(prior, g, acts);
            SuspectsStaleBond(c) <==>
            && !c.episode.migrationPending
            && c.radio.affinity.Some?
            && Evidence(prior, c.log, c.episode.authFailSeen) >= 2
            && !DestroyedSinceHandshake(Calls(prior, c.log))
  {
    var c := Run(prior, g, acts);
    RunIsSafe(prior, g, acts);
    UnpairNeedsTwoVerdicts(Calls(prior, c.log), c.episode.authFailSeen);
  }

  /** Every bond call of a log, remembered or not. */
  function AllCalls(log: seq<Entry>): seq<Call> {
    if log == [] then []
    else AllCalls(log[..|log| - 1]) + if log[|log| - 1].BondCall? then [log[|log| - 1].call] else []
  }

  /** No restart lost a bond call: each found everything saved. */
  predicate NothingLost(prior: seq<Call>, log: seq<Entry>) {
    log == [] ||
    (NothingLost(prior, log[..|log| - 1]) &&
     (log[|log| - 1].Restarted? ==>
        Remember(prior, log[..|log| - 1]).saved == Calls(prior, log[..|log| - 1])))
  }

  /** Then what the client remembers is what happened. */
  lemma {:induction false} MemoryIsTheHistory(prior: seq<Call>, log: seq<Entry>)
    requires NothingLost(prior, log)
    ensures Calls(prior, log) == prior + AllCalls(log)
  {
    if log == [] {
      assert prior + AllCalls([]) == prior;
    } else {
      MemoryIsTheHistory(prior, log[..|log| - 1]);
    }
  }

  /** No roaming: every link that carries handshake traffic is on its pinned source, and on a known affinity. */
  lemma LinksStayOnAffinity(prior: seq<Call>, g: Config, acts: seq<Action>, l: nat)
    requires WellConfigured(g) && WellFormed(acts)
    requires l < |Run(prior, g, acts).log| && Run(prior, g, acts).log[l].LinkUp?
    ensures var link := Run(prior, g, acts).log[l];
            && (Truthy(link.source) ==> link.on.Some? && Norm(link.on) == Norm(link.source))
            && (Norm(link.affinity) != "" ==> link.on.Some? && Norm(link.on) == Norm(link.affinity))
  {
    RunIsSafe(prior, g, acts);
    SafeAt(prior, Run(prior, g, acts).log, l);
  }

  lemma {:induction false} FrozenSince(log: seq<Entry>, k: nat)
    requires k < |log| && log[k].CycleStart?
    requires forall h | k < h < |log| :: !log[h].CycleStart?
    ensures Frozen(log) == (log[k].frozenDevice, log[k].frozenSource)
  {
    if k < |log| - 1 {
      FrozenSince(log[..|log| - 1], k);
    }
  }

  /** A cycle that starts with a device and a source uses that pair on every rung, and learns no other source. */
  lemma CyclesNeverRoam(prior: seq<Call>, g: Config, acts: seq<Action>, k: nat, l: nat)
    requires WellConfigured(g) && WellFormed(acts)
    requires k < l < |Run(prior, g, acts).log|
    requires var log := Run(prior, g, acts).log;
             && log[k].CycleStart? && log[k].frozenDevice.Some? && Truthy(log[k].frozenSource)
             && forall h | k < h < l :: !log[h].CycleStart?
    ensures var log := Run(prior, g, acts).log;
            && (log[l].Rung? ==> Some(log[l].device) == log[k].frozenDevice && log[l].source == log[k].frozenSource)
            && (log[l].Learned? ==>
                  && Some(log[l].learned) == log[k].frozenSource
                  && ProvenOn(log[..l], log[k].frozenSource))
  {
    RunIsSafe(prior, g, acts);
    CycleNeverRoams(prior, Run(prior, g, acts).log, k, l);
  }

  lemma CycleNeverRoams(prior: seq<Call>, log: seq<Entry>, k: nat, l: nat)
    requires SafeLog(prior, log) && k < l < |log|
    requires log[k].CycleStart? && log[k].frozenDevice.Some? && Truthy(log[k].frozenSource)
    requires forall h | k < h < l :: !log[h].CycleStart?
    ensures log[l].Rung? ==> Some(log[l].device) == log[k].frozenDevice && log[l].source == log[k].frozenSource
    ensures log[l].Learned? ==>
              Some(log[l].learned) == log[k].frozenSource && ProvenOn(log[..l], log[k].frozenSource)
  {
    SafeAt(prior, log, l);
    FrozenSince(log[..l], k);
  }

  /** Once known, the affinity never changes while the client lives, and the cached device is always the affinity's. */
  lemma {:induction false} AffinityIsForever(prior: seq<Call>, g: Config, before: seq<Action>, after: seq<Action>)
    requires WellConfigured(g) && WellFormed(before) && WellFormed(after)
    requires Run(prior, g, before).radio.affinity.Some?
    requires forall a | a in after :: !a.Restart?
    ensures var r := Run(prior, g, before + after).radio;
            && r.affinity == Run(prior, g, before).radio.affinity
            && (Norm(r.affinity) != "" && r.device.Some? ==> Norm(r.deviceSource) == Norm(r.affinity))
  {
    if after == [] {
      assert before + after == before;
      RunIsSafe(prior, g, before);
    } else {
      var acts, n := before + after, |before + after| - 1;
      AffinityIsForever(prior, g, before, after[..|after| - 1]);
      assert acts[..n] == before + after[..|after| - 1] && acts[n] == after[|after| - 1];
      AffinityNext(prior, g, acts);
    }
  }

  lemma AffinityNext(prior: seq<Call>, g: Config, acts: seq<Action>)
    requires WellConfigured(g) && WellFormed(acts) && acts != [] && !acts[|acts| - 1].Restart?
    requires Run(prior, g, acts[..|acts| - 1]).radio.affinity.Some?
    ensures Run(prior, g, acts).radio.affinity == Run(prior, g, acts[..|acts| - 1]).radio.affinity
    ensures RadioOk(Run(prior, g, acts).radio)
  {
    RunIsSafe(prior, g, acts[..|acts| - 1]);
    StepIsSafe(prior, Run(prior, g, acts[..|acts| - 1]), acts[|acts| - 1]);
  }

  lemma RunNext(prior: seq<Call>, g: Config, acts: seq<Action>, a: Action)
    ensures Run(prior, g, acts + [a]) == Step(Run(prior, g, acts), a)
  {
    assert (acts + [a])[..|acts|] == acts;
  }
}
