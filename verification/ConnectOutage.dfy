/**
 Outages: any number of failed cycles, each noted, with advertisements and everything else arriving between them. A cycle
 can also fail after its handshake, while the machine is being read.
 */
module ConnectOutage {
  import opened Prelude
  import opened BondState
  import opened ConnectSpec
  import opened ConnectSafety
  import opened ConnectEvidence

  /** The repair threshold and whether its callback is installed. */
  datatype Repair = Repair(threshold: int, installed: bool)

  /** `Tried` is a connect cycle and the note of its failure. */
  datatype Event = Heard(ad: Advert) | Lost | Presence(absent: bool) | Stored | Tried(script: CycleScript)

  function Tick(c: Client, e: Event, r: Repair): Client {
    match e
    case Heard(ad) => c.(radio := SetBleDevice(c.radio, ad))
    case Lost => Disconnected(c)
    case Presence(absent) => c.(episode := c.episode.(absent := absent))
    case Stored => SaveBond(c)
    case Tried(s) => NoteFailure(Connect(c, s).0, r.threshold, r.installed, s.now)
  }

  function Outage(c: Client, events: seq<Event>, r: Repair): Client {
    if events == [] then c else Tick(Outage(c, events[..|events| - 1], r), events[|events| - 1], r)
  }

  ghost predicate FailsAt(c: Client, events: seq<Event>, r: Repair, k: nat)
    requires k < |events|
  {
    events[k].Tried? ==> !Connect(Outage(c, events[..k], r), events[k].script).1
  }

  /** Every cycle of the outage fails. */
  ghost predicate AllFail(c: Client, events: seq<Event>, r: Repair) {
    forall k: nat | k < |events| :: FailsAt(c, events, r, k)
  }

  /** The counted cycles of an outage: what was counted before it, and since the last handshake the cycles rejected after
      it, those rejected before it, and the stale ones. */
  datatype Count = Count(kept: int, rejectedSince: nat, rejectedBefore: nat, stale: nat) {
    function Total(): int {
      kept + rejectedSince + rejectedBefore + stale
    }
  }

  function CountOf(c: Client, events: seq<Event>, r: Repair): Count {
    if events == [] then Count(c.bond.authFailCycles, 0, 0, 0)
    else
      var most, last := events[..|events| - 1], events[|events| - 1];
      var n := CountOf(c, most, r);
      if !last.Tried? then n else CountTry(n, Outage(c, most, r), last.script)
  }

  function CountTry(n: Count, c: Client, s: CycleScript): Count {
    AddTry(n, IsHandshaken(c, s), RejectedSince(c, s), RejectedBefore(c, s), Stale(c, s))
  }

  function AddTry(n: Count, handshaken: bool, since: bool, before: bool, stale: bool): Count {
    var base := if handshaken then Count(0, 0, 0, 0) else n;
    Count(base.kept, base.rejectedSince + One(since), base.rejectedBefore + One(before), base.stale + One(stale))
  }

  /** The failed cycles since the last handshake, and how often the repair callback had fired until then. */
  datatype Span = Span(fired: nat, tries: nat)

  function SpanOf(c: Client, events: seq<Event>, r: Repair): Span {
    if events == [] then Span(c.episode.repairs, 0)
    else
      var most, last := events[..|events| - 1], events[|events| - 1];
      var span := SpanOf(c, most, r);
      if !last.Tried? then span
      else if IsHandshaken(Outage(c, most, r), last.script) then Span(Outage(c, most, r).episode.repairs, 1)
      else span.(tries := span.tries + 1)
  }

  // ----- what a failed cycle leaves alone -----

  predicate Kept(c: Client, c': Client) {
    && c'.bond.authFailCycles == c.bond.authFailCycles
    && c'.episode.connected == c.episode.connected
    && c'.episode.migrationPending == c.episode.migrationPending
    && c'.episode.failures == c.episode.failures
    && c'.episode.repairs == c.episode.repairs
    && c'.episode.absent == c.episode.absent
  }

  lemma RungKeeps(c: Client, a: Attempt)
    ensures Kept(c, TryConnect(c, a).0)
  {
  }

  lemma UnpairKeeps(c: Client, u: UnpairScript)
    ensures Kept(c, TryUnpair(c, u).0)
  {
    AttemptKeeps(Ask(c, u), "proxy_unpair", u.now);
    AttemptKeeps(Ask(c, u), "proxy_unpair_attempted_unconfirmed", u.now);
    FallbackKeeps(Ask(c, u), u);
  }

  lemma AttemptKeeps(c: Client, op: string, now: real)
    ensures Kept(c, RecordAttempt(c, op, now))
  {
  }

  lemma FallbackKeeps(c: Client, u: UnpairScript)
    ensures Kept(c, FallbackUnpair(c, u).0)
  {
    if RungDevice(c.radio).Some? {
      var tried := StartRung(c, RungDevice(c.radio).value, u.during);
      AttemptKeeps(Dispatch(tried), "connect_unpair", u.now);
      AttemptKeeps(Dispatch(tried), "connect_unpair_attempted_unconfirmed", u.now);
    }
  }

  lemma RetryKeeps(c: Client, s: CycleScript)
    ensures Kept(c, UnpairAndRetry(c, s).0)
  {
    var armed := Log(c, UnpairRung(CaseOf(c)));
    UnpairKeeps(armed, s.unpair);
    var unpaired := TryUnpair(armed, s.unpair).0;
    RungKeeps(if s.savesBond then SaveBond(unpaired) else unpaired, s.third);
  }

  lemma LadderKeeps(c: Client, s: CycleScript)
    ensures Kept(c, Ladder(c, s).0)
  {
    RungKeeps(c, s.first);
    var c1 := TryConnect(c, s.first).0;
    RungKeeps(c1, s.second);
    RetryKeeps(TryConnect(c1, s.second).0, s);
  }

  lemma SucceedKeeps(c: Client, now: real)
    ensures var c' := Succeed(c, now);
            && c'.bond.authFailCycles == 0
            && (!c.episode.migrationPending ==> !c'.episode.migrationPending)
            && c'.episode.failures == 0 && c'.episode.repairs == c.episode.repairs && !c'.episode.absent
  {
  }

  /** A failed cycle leaves the client disconnected, and the counters as they were, or reset when it had a handshake. */
  lemma FailedCycleKeeps(c: Client, s: CycleScript)
    requires !c.episode.connected && !Connect(c, s).1
    ensures var c' := Connect(c, s).0;
            && !c'.episode.connected
            && (!c.episode.migrationPending ==> !c'.episode.migrationPending)
            && c'.bond.authFailCycles == (if IsHandshaken(c, s) then 0 else c.bond.authFailCycles)
            && c'.episode.failures == (if IsHandshaken(c, s) then 0 else c.episode.failures)
            && c'.episode.repairs == c.episode.repairs
            && c'.episode.absent == (c.episode.absent && !IsHandshaken(c, s))
  {
    LadderKeeps(Begun(c), s);
    SucceedKeeps(Ladder(Begun(c), s).0, s.now);
  }

  lemma AllFailBefore(c: Client, events: seq<Event>, r: Repair)
    requires events != [] && AllFail(c, events, r)
    ensures AllFail(c, events[..|events| - 1], r)
    ensures FailsAt(c, events, r, |events| - 1)
  {
    var most := events[..|events| - 1];
    forall k: nat | k < |most| ensures FailsAt(c, most, r, k) {
      assert FailsAt(c, events, r, k) && most[..k] == events[..k];
    }
  }

  lemma {:induction false} OutageStaysDown(c: Client, events: seq<Event>, r: Repair)
    requires !c.episode.connected && AllFail(c, events, r)
    ensures !Outage(c, events, r).episode.connected
    ensures !c.episode.migrationPending ==> !Outage(c, events, r).episode.migrationPending
  {
    if events != [] {
      var most, last := events[..|events| - 1], events[|events| - 1];
      AllFailBefore(c, events, r);
      OutageStaysDown(c, most, r);
      TickStaysDown(Outage(c, most, r), last, r);
    }
  }

  lemma TickStaysDown(c: Client, e: Event, r: Repair)
    requires !c.episode.connected && (e.Tried? ==> !Connect(c, e.script).1)
    ensures !Tick(c, e, r).episode.connected
    ensures !c.episode.migrationPending ==> !Tick(c, e, r).episode.migrationPending
  {
    if e.Tried? {
      FailedCycleKeeps(c, e.script);
      NoteCounts(Connect(c, e.script).0, r, e.script.now);
    }
  }

  /** What the note of a failed cycle changes. */
  lemma NoteCounts(c: Client, r: Repair, now: real)
    ensures var c' := NoteFailure(c, r.threshold, r.installed, now);
            && c'.bond.authFailCycles == c.bond.authFailCycles + One(ReportedClass(c.episode) == Some(Auth))
            && c'.episode.connected == c.episode.connected
            && c'.episode.migrationPending == c.episode.migrationPending
            && c'.episode.unpaired == c.episode.unpaired
            && c'.episode.absent == c.episode.absent
            && (c'.episode.failures, c'.episode.repairs) ==
                 Counters(c.episode.failures, c.episode.repairs, r.threshold, r.installed)
            && (c.bond.state == PairingRequired ==> c'.bond.state == PairingRequired)
  {
  }

  // ----- the counters of an outage -----

  /** One failed cycle, noted: the count moves by one exactly on a rejection of its own or a stale verdict. */
  lemma FailedCycleCounts(c: Client, s: CycleScript, r: Repair, n: Count)
    requires !c.episode.connected && !c.episode.migrationPending && !Connect(c, s).1
    requires c.bond.authFailCycles == n.Total()
    ensures Tick(c, Tried(s), r).bond.authFailCycles == CountTry(n, c, s).Total()
  {
    FailedCycleKeeps(c, s);
    ReportIsOwnOrStale(c, s);
    NotedTry(Connect(c, s).0, r, s.now, n, IsHandshaken(c, s), RejectedSince(c, s), RejectedBefore(c, s), Stale(c, s));
  }

  lemma NotedTry(
      c: Client, r: Repair, now: real, n: Count, handshaken: bool, since: bool, before: bool, stale: bool)
    requires c.bond.authFailCycles == if handshaken then 0 else n.Total()
    requires ReportedClass(c.episode) == Some(Auth) <==> since || before || stale
    requires !(since && before) && !(since && stale) && !(before && stale)
    ensures NoteFailure(c, r.threshold, r.installed, now).bond.authFailCycles ==
            AddTry(n, handshaken, since, before, stale).Total()
  {
  }

  /** The AUTH cycles counted after an outage are what it found plus, since its last handshake, the cycles really rejected,
      those rejected before that handshake in its own cycle, and the stale ones; so they are the real rejections since the
      handshake exactly when there is none of the others. */
  lemma {:induction false} CountIsRealPlusStale(c: Client, events: seq<Event>, r: Repair)
    requires !c.episode.connected && !c.episode.migrationPending && AllFail(c, events, r)
    ensures Outage(c, events, r).bond.authFailCycles == CountOf(c, events, r).Total()
  {
    if events != [] {
      var most, last := events[..|events| - 1], events[|events| - 1];
      AllFailBefore(c, events, r);
      CountIsRealPlusStale(c, most, r);
      OutageStaysDown(c, most, r);
      if last.Tried? {
        FailedCycleCounts(Outage(c, most, r), last.script, r, CountOf(c, most, r));
      }
    }
  }

  /** The failure counters after one event: a handshake restarts the count, and a failed cycle adds to it. */
  function CountersAfter(c: Client, e: Event, r: Repair): (int, nat) {
    if !e.Tried? then (c.episode.failures, c.episode.repairs)
    else
      var base := if IsHandshaken(c, e.script) then 0 else c.episode.failures;
      Counters(base, c.episode.repairs, r.threshold, r.installed)
  }

  lemma TickCounts(c: Client, e: Event, r: Repair)
    requires !c.episode.connected && (e.Tried? ==> !Connect(c, e.script).1)
    ensures (Tick(c, e, r).episode.failures, Tick(c, e, r).episode.repairs) == CountersAfter(c, e, r)
  {
    if e.Tried? {
      FailedCycleKeeps(c, e.script);
      NoteCounts(Connect(c, e.script).0, r, e.script.now);
    }
  }

  /** The failure counters of an outage after its last event, in terms of those before it. */
  lemma OutageCounts(c: Client, events: seq<Event>, r: Repair)
    requires !c.episode.connected && AllFail(c, events, r) && events != []
    ensures var after := Outage(c, events, r).episode;
            (after.failures, after.repairs) ==
            CountersAfter(Outage(c, events[..|events| - 1], r), events[|events| - 1], r)
  {
    AllFailBefore(c, events, r);
    OutageStaysDown(c, events[..|events| - 1], r);
    TickCounts(Outage(c, events[..|events| - 1], r), events[|events| - 1], r);
  }

  // ----- one rejection can be enough -----

  /** The affinity is known and the device is cached from it; the bond machine is new. */
  const SETTLED := Boot(Config(Some(Device(1, None)), Some("a"), Some("a"), None, false), AsDict(FRESH), [])

  const HOME := Radio(Some(Device(1, None)), Some("a"), Some("a"), None, None, None)

  function Script(first: LinkOutcome, second: LinkOutcome): CycleScript {
    var third := Attempt(EstablishFails(Timeout), []);
    CycleScript(true, Attempt(first, []), Attempt(second, []),
                UnpairScript(Replies(ReplyBool(true)), [], Refused, Returns, [], 0.0), false, third, 0.0, false)
  }

  const REJECTED := Script(EstablishFails(Auth), EstablishFails(Auth))
  const WRITE_FAILS := Script(Lands(Some("a"), true, HandshakeRaises), EstablishFails(Timeout))
  const TIMES_OUT := Script(EstablishFails(Timeout), EstablishFails(Timeout))

  /** One rejected cycle, one whose handshake write fails, one that times out. */
  const ONE_REJECTION := [Tried(REJECTED), Tried(WRITE_FAILS), Tried(TIMES_OUT)]

  /** The client after k cycles of that outage. */
  predicate Stage(c: Client, k: nat) {
    && c.radio == HOME
    && !c.episode.connected && !c.episode.migrationPending && !c.episode.unpaired
    && (k > 0 ==> c.episode.lastFailureClass == Some(Auth))
    && c.bond.state == (if k == 0 then Unknown else if k == 1 then Suspect else Mismatch)
    && c.bond.authFailCycles == k
  }

  lemma RejectedCycle(r: Repair, c: Client)
    requires Stage(c, 0)
    ensures Stage(Tick(c, Tried(REJECTED), r), 1)
    ensures RejectedSince(c, REJECTED) && !IsHandshaken(c, REJECTED)
  {
    CycleTracks(c, REJECTED);
    TwiceRejected(Begun(c));
    SinceIsPart(Connect(c, REJECTED).0.log);
  }

  lemma RungRejected(c: Client)
    requires c.radio.cycleDevice.Some?
    ensures var r := TryConnect(c, Attempt(EstablishFails(Auth), []));
            && r.1 == Failed && r.0.radio == c.radio && r.0.bond == c.bond
            && r.0.episode == c.episode.(authFailSeen := true, lastFailureClass := Some(Auth))
  {
    assert SetBleDevices(c.radio, []) == c.radio;
  }

  /** Two rejected rungs on a bond that is not suspected. */
  lemma TwiceRejected(c: Client)
    requires c.radio.cycleDevice.Some? && c.radio.affinity.Some?
    requires !c.episode.migrationPending && c.bond.state == Unknown
    ensures var r := Ladder(c, REJECTED);
            && r.1 == Failed && r.0.radio == c.radio && r.0.bond == c.bond
            && r.0.episode == c.episode.(authFailSeen := true, lastFailureClass := Some(Auth))
  {
    RungRejected(c);
    RungRejected(TryConnect(c, REJECTED.first).0);
  }

  lemma StaleCycle(r: Repair, c: Client)
    requires Stage(c, 1)
    ensures Stage(Tick(c, Tried(WRITE_FAILS), r), 2)
    ensures !Rejected(c, WRITE_FAILS) && !IsHandshaken(c, WRITE_FAILS)
  {
    CycleTracks(c, WRITE_FAILS);
    WriteFails(Begun(c));
  }

  lemma WriteFails(c: Client)
    requires c.radio.cycleDevice.Some? && c.radio.cycleSource == Some("a")
    ensures Ladder(c, WRITE_FAILS).1 == Aborted
    ensures var c' := Ladder(c, WRITE_FAILS).0;
            c'.episode == c.episode && c'.bond == c.bond && c'.radio == c.radio
  {
    assert SourceVerified(Some("a"), Some("a"));
    assert SetBleDevices(c.radio, []) == c.radio;
  }

  /** A timed-out cycle on MISMATCH evidence forgets the bond. */
  lemma TimeoutAfterMismatch(r: Repair, c: Client)
    requires Stage(c, 2)
    ensures Forgotten(Tick(c, Tried(TIMES_OUT), r))
    ensures !Rejected(c, TIMES_OUT) && !IsHandshaken(c, TIMES_OUT)
  {
    NotRejected(c);
    TimedOutCycle(c);
    NotedForgotten(c, TIMES_OUT, r);
  }

  lemma NotRejected(c: Client)
    requires Stage(c, 2)
    ensures !Rejected(c, TIMES_OUT) && !IsHandshaken(c, TIMES_OUT)
  {
    CycleTracks(c, TIMES_OUT);
    TimedOutCycle(c);
    TimesOut(Begun(c));
  }

  lemma TimedOutCycle(c: Client)
    requires Stage(c, 2)
    ensures var after := Connect(c, TIMES_OUT).0;
            && after.bond.state == PairingRequired && after.episode.unpaired
            && !after.episode.authFailSeen && after.episode.lastFailureClass == Some(Timeout)
  {
    TimesOut(Begun(c));
  }

  lemma TimesOut(c: Client)
    requires c.radio.cycleDevice.Some? && c.radio.cycleSource == Some("a") && c.radio.affinity.Some?
    requires !c.episode.unpaired && !c.episode.migrationPending && !c.episode.authFailSeen && c.bond.state == Mismatch
    ensures var r := Ladder(c, TIMES_OUT);
            && r.1 == Failed
            && r.0.bond.state == PairingRequired && r.0.episode.unpaired && !r.0.episode.authFailSeen
            && r.0.episode.lastFailureClass == Some(Timeout)
  {
    RungTimesOut(c);
    var c1 := TryConnect(c, TIMES_OUT.first).0;
    RungTimesOut(c1);
    RetryTimesOut(TryConnect(c1, TIMES_OUT.second).0);
  }

  lemma RungTimesOut(c: Client)
    requires c.radio.cycleDevice.Some?
    ensures var r := TryConnect(c, Attempt(EstablishFails(Timeout), []));
            && r.1 == Failed && r.0.radio == c.radio && r.0.bond == c.bond
            && r.0.episode == c.episode.(lastFailureClass := Some(Timeout))
  {
    assert SetBleDevices(c.radio, []) == c.radio;
  }

  lemma RetryTimesOut(c: Client)
    requires c.radio.cycleDevice.Some? && !c.episode.authFailSeen
    ensures var r := UnpairAndRetry(c, TIMES_OUT);
            && r.1 == Failed
            && r.0.bond.state == PairingRequired && r.0.episode.unpaired && !r.0.episode.authFailSeen
            && r.0.episode.lastFailureClass == Some(Timeout)
  {
    assert SetBleDevices(c.radio, []) == c.radio;
    RungTimesOut(TryUnpair(Log(c, UnpairRung(CaseOf(c))), TIMES_OUT.unpair).0);
  }

  lemma OutageNext(c: Client, events: seq<Event>, e: Event, r: Repair)
    ensures Outage(c, events + [e], r) == Tick(Outage(c, events, r), e, r)
    ensures CountOf(c, events + [e], r) ==
            if e.Tried? then CountTry(CountOf(c, events, r), Outage(c, events, r), e.script) else CountOf(c, events, r)
  {
    assert (events + [e])[..|events|] == events;
  }

  lemma SettledIsFresh()
    ensures Stage(SETTLED, 0)
  {
    StoredIsRestored([]);
  }

  /** The rejections an outage has counted. */
  function Rejections(n: Count): nat {
    n.rejectedSince + n.rejectedBefore
  }

  lemma UnrejectedTry(n: Count, c: Client, s: CycleScript)
    requires !Rejected(c, s) && !IsHandshaken(c, s)
    ensures Rejections(CountTry(n, c, s)) == Rejections(n)
  {
    SinceIsPart(Connect(c, s).0.log);
  }

  lemma FirstStage(r: Repair)
    ensures Stage(Outage(SETTLED, [Tried(REJECTED)], r), 1)
    ensures Rejections(CountOf(SETTLED, [Tried(REJECTED)], r)) == 1
  {
    SettledIsFresh();
    OutageNext(SETTLED, [], Tried(REJECTED), r);
    assert [] + [Tried(REJECTED)] == [Tried(REJECTED)];
    RejectedCycle(r, SETTLED);
  }

  lemma SecondStage(r: Repair)
    ensures Stage(Outage(SETTLED, [Tried(REJECTED), Tried(WRITE_FAILS)], r), 2)
    ensures Rejections(CountOf(SETTLED, [Tried(REJECTED), Tried(WRITE_FAILS)], r)) == 1
  {
    FirstStage(r);
    OutageNext(SETTLED, [Tried(REJECTED)], Tried(WRITE_FAILS), r);
    assert [Tried(REJECTED)] + [Tried(WRITE_FAILS)] == [Tried(REJECTED), Tried(WRITE_FAILS)];
    var c := Outage(SETTLED, [Tried(REJECTED)], r);
    StaleCycle(r, c);
    UnrejectedTry(CountOf(SETTLED, [Tried(REJECTED)], r), c, WRITE_FAILS);
  }

  /** A single rejected cycle can cost the bond: a stale report supplies the second verdict the unpair rung asks for. */
  lemma OneRejectionDestroysTheBond(r: Repair)
    ensures WellConfigured(Config(Some(Device(1, None)), Some("a"), Some("a"), None, false))
    ensures Rejections(CountOf(SETTLED, ONE_REJECTION, r)) == 1
    ensures Forgotten(Outage(SETTLED, ONE_REJECTION, r))
  {
    var most := [Tried(REJECTED), Tried(WRITE_FAILS)];
    SecondStage(r);
    OutageNext(SETTLED, most, Tried(TIMES_OUT), r);
    assert most + [Tried(TIMES_OUT)] == ONE_REJECTION;
    var c := Outage(SETTLED, most, r);
    TimeoutAfterMismatch(r, c);
    UnrejectedTry(CountOf(SETTLED, most, r), c, TIMES_OUT);
  }

  // ----- a handshake does not clear the verdict of its own cycle -----

  /** Rejected on the first rung, handshaken on the second, and failed while the machine is being read. */
  const SETUP_FAILS := Script(EstablishFails(Auth), Lands(Some("a"), true, HandshakeDone)).(setupFails := true)

  lemma RungHandshakes(c: Client)
    requires c.radio.cycleDevice.Some? && c.radio.cycleSource == Some("a")
    ensures var r := TryConnect(c, SETUP_FAILS.second);
            r.1 == Handshaken && r.0.radio == c.radio && r.0.bond == c.bond && r.0.episode == c.episode
  {
    assert SetBleDevices(c.radio, []) == c.radio;
    assert SourceVerified(Some("a"), Some("a"));
  }

  lemma RejectedThenHandshaken(c: Client)
    requires c.radio.cycleDevice.Some? && c.radio.cycleSource == Some("a")
    ensures var r := Ladder(c, SETUP_FAILS);
            && r.1 == Handshaken && r.0.radio == c.radio && r.0.bond == c.bond
            && r.0.episode == c.episode.(authFailSeen := true, lastFailureClass := Some(Auth))
  {
    RungRejected(c);
    RungHandshakes(TryConnect(c, SETUP_FAILS.first).0);
  }

  lemma SetupFailsCycle(r: Repair, c: Client)
    requires Stage(c, 0)
    ensures Stage(Tick(c, Tried(SETUP_FAILS), r), 1)
    ensures !Connect(c, SETUP_FAILS).1 && IsHandshaken(c, SETUP_FAILS) && RejectedBefore(c, SETUP_FAILS)
  {
    CycleTracks(c, SETUP_FAILS);
    RejectedThenHandshaken(Begun(c));
  }

  /** On a suspected bond, one more rejected cycle forgets it. */
  lemma RejectedOnSuspicion(r: Repair, c: Client)
    requires Stage(c, 1)
    ensures Forgotten(Tick(c, Tried(REJECTED), r))
    ensures !IsHandshaken(c, REJECTED) && RejectedSince(c, REJECTED)
  {
    CycleForgets(c);
    NotedForgotten(c, REJECTED, r);
  }

  /** The bond was destroyed in this failure episode. */
  predicate Forgotten(c: Client) {
    c.bond.state == PairingRequired && c.episode.unpaired
  }

  lemma NotedForgotten(c: Client, s: CycleScript, r: Repair)
    requires Forgotten(Connect(c, s).0)
    ensures Forgotten(Tick(c, Tried(s), r))
  {
    NoteCounts(Connect(c, s).0, r, s.now);
  }

  lemma CycleForgets(c: Client)
    requires Stage(c, 1)
    ensures Forgotten(Connect(c, REJECTED).0)
    ensures !IsHandshaken(c, REJECTED) && RejectedSince(c, REJECTED)
  {
    LadderForgets(Begun(c));
    CycleTracks(c, REJECTED);
  }

  lemma LadderForgets(c: Client)
    requires c.radio.cycleDevice.Some? && c.radio.affinity.Some?
    requires !c.episode.unpaired && !c.episode.migrationPending && c.bond.state == Suspect
    ensures var r := Ladder(c, REJECTED);
            r.1 == Failed && r.0.bond.state == PairingRequired && r.0.episode.unpaired && r.0.episode.authFailSeen
  {
    RungRejected(c);
    var c1 := TryConnect(c, REJECTED.first).0;
    RungRejected(c1);
    RetryForgets(TryConnect(c1, REJECTED.second).0);
  }

  lemma RetryForgets(c: Client)
    requires c.radio.cycleDevice.Some? && c.episode.authFailSeen
    ensures var r := UnpairAndRetry(c, REJECTED);
            r.1 == Failed && r.0.bond.state == PairingRequired && r.0.episode.unpaired && r.0.episode.authFailSeen
  {
    assert SetBleDevices(c.radio, []) == c.radio;
    RungTimesOut(TryUnpair(Log(c, UnpairRung(CaseOf(c))), REJECTED.unpair).0);
  }

  /** After a handshake, one rejected cycle can cost the bond with nothing stale and nothing counted before: the verdict of
      a cycle that was rejected and then handshaken is reported after the handshake that should have cleared it. */
  lemma VerdictOutlivesHandshake(r: Repair)
    ensures AllFail(SETTLED, [Tried(SETUP_FAILS)], r)
    ensures var c := Outage(SETTLED, [Tried(SETUP_FAILS)], r);
            && CountOf(SETTLED, [Tried(SETUP_FAILS)], r) == Count(0, 0, 1, 0)
            && !IsHandshaken(c, REJECTED) && RejectedSince(c, REJECTED)
            && Forgotten(Tick(c, Tried(REJECTED), r))
  {
    SettledIsFresh();
    OutageNext(SETTLED, [], Tried(SETUP_FAILS), r);
    assert [] + [Tried(SETUP_FAILS)] == [Tried(SETUP_FAILS)];
    assert [Tried(SETUP_FAILS)][..0] == [];
    SetupFailsCycle(r, SETTLED);
    CountOfSetupFails(SETTLED);
    RejectedOnSuspicion(r, Outage(SETTLED, [Tried(SETUP_FAILS)], r));
  }

  lemma CountOfSetupFails(c: Client)
    requires Stage(c, 0) && IsHandshaken(c, SETUP_FAILS) && RejectedBefore(c, SETUP_FAILS)
    ensures forall n :: CountTry(n, c, SETUP_FAILS) == Count(0, 0, 1, 0)
  {
    ReportIsOwnOrStale(c, SETUP_FAILS);
  }
}
