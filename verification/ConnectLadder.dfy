/**
 What a connect cycle comes to, read off its script: which rungs are reached, when a destructive request leaves, which rung
 connects, and what the cycle remembers of its failures.
 */
module ConnectLadder {
  import opened Prelude
  import opened BondState
  import opened ConnectSpec
  import opened ConnectSafety
  import opened ConnectEvidence

  // ----- one rung -----

  /** The link may carry handshake traffic: it is up, and on the pinned scanner when there is one. */
  predicate OnPin(pin: Option<string>, on: Option<string>) {
    pin == None || pin == Some("") || (on.Some? && Norm(on) == Norm(pin))
  }

  predicate Talks(pin: Option<string>, o: LinkOutcome) {
    o.Lands? && o.alive && OnPin(pin, o.on)
  }

  predicate Completes(pin: Option<string>, o: LinkOutcome) {
    Talks(pin, o) && o.session == HandshakeDone
  }

  /** The handshake raises, which ends the whole cycle. */
  predicate Breaks(pin: Option<string>, o: LinkOutcome) {
    Talks(pin, o) && o.session == HandshakeRaises
  }

  /** The rung failed and the ladder goes on. */
  predicate Fails(pin: Option<string>, o: LinkOutcome) {
    !Completes(pin, o) && !Breaks(pin, o)
  }

  /** The class a rung is remembered with: a link on another scanner counts as lost, a dead one as nothing. */
  function ClassOf(pin: Option<string>, o: LinkOutcome): Option<FailureClass> {
    match o
    case EstablishFails(cls) => Some(cls)
    case Lands(on, alive, session) =>
      if !OnPin(pin, on) then Some(LinkFail)
      else if !alive then None
      else match session
        case NotifyFails(cls) => Some(cls)
        case HandshakeFails => Some(Handshake)
        case _ => None
  }

  function Remembering(e: Episode, cls: Option<FailureClass>): Episode {
    if cls.None? then e
    else e.(lastFailureClass := cls, authFailSeen := e.authFailSeen || cls == Some(Auth))
  }

  /** What was added to the log holds no request and starts no cycle. */
  ghost predicate Calmly(before: seq<Entry>, log: seq<Entry>) {
    before <= log && forall k | |before| <= k < |log| :: !log[k].Request? && !log[k].CycleStart?
  }

  lemma ConverseIs(c: Client, session: Session)
    ensures var (after, verdict) := Converse(c, session);
            && (verdict == Handshaken <==> session == HandshakeDone)
            && (verdict == Aborted <==> session == HandshakeRaises)
            && after.radio == c.radio && after.bond == c.bond
            && after.episode == Remembering(c.episode, ClassOf(None, Lands(None, true, session)))
  {
  }

  lemma ConcludeIs(c: Client, pin: Option<string>, o: LinkOutcome)
    ensures var (after, verdict) := Conclude(c, pin, o);
            && (verdict == Handshaken <==> Completes(pin, o))
            && (verdict == Aborted <==> Breaks(pin, o))
            && after.radio == c.radio && after.bond == c.bond
            && after.episode == Remembering(c.episode, ClassOf(pin, o))
  {
    if Talks(pin, o) {
      ConverseIs(Log(c, LinkUp(pin, o.on, c.radio.affinity)), o.session);
    }
  }

  lemma RungIs(c: Client, a: Attempt)
    requires RungDevice(c.radio).Some?
    ensures var (after, verdict), pin := TryConnect(c, a), RungSource(c.radio);
            && (verdict == Handshaken <==> Completes(pin, a.outcome))
            && (verdict == Aborted <==> Breaks(pin, a.outcome))
            && after.radio == SetBleDevices(c.radio, a.during)
            && after.episode == Remembering(c.episode, ClassOf(pin, a.outcome))
            && after.bond == c.bond
  {
    ConcludeIs(StartRung(c, RungDevice(c.radio).value, a.during), RungSource(c.radio), a.outcome);
  }

  lemma RungLogs(c: Client, a: Attempt)
    requires RungDevice(c.radio).Some?
    ensures var log := TryConnect(c, a).0.log;
            Calmly(c.log, log) && |c.log| < |log| && log[|c.log|].Rung?
  {
  }

  lemma NoDeviceAborts(c: Client, a: Attempt)
    requires RungDevice(c.radio).None?
    ensures TryConnect(c, a) == (c, Aborted)
  {
  }

  // ----- the destructive rung -----

  /** A callback that raises, or answers anything but that nothing was sent, may have sent a request. */
  predicate CallbackSent(callback: Callback) {
    match callback
    case Absent => false
    case Raises => true
    case Replies(raw) =>
      match raw
      case ReplyBool(b) => b
      case ReplyNone => false
      case ReplyOutcome(o) => o.Confirmed? || o.AttemptedUnconfirmed?
      case ReplyText(text) => text != "not_sent"
  }

  /** The fallback link sends one when it comes up on the pinned scanner and the backend knows the operation. */
  predicate FallbackSent(pin: Option<string>, u: UnpairScript) {
    u.link.LandsOn? && OnPin(pin, u.link.on) && !u.call.NotImplemented?
  }

  function RadioAsked(r: Radio, u: UnpairScript): Radio {
    if u.callback.Absent? then r else SetBleDevices(r, u.asking)
  }

  predicate MayHaveLeft(r: Radio, u: UnpairScript) {
    CallbackSent(u.callback) || FallbackSent(RungSource(RadioAsked(r, u)), u)
  }

  function RadioUnpaired(r: Radio, u: UnpairScript): Radio {
    if CallbackSent(u.callback) then RadioAsked(r, u) else SetBleDevices(RadioAsked(r, u), u.during)
  }

  ghost predicate LogsRequest(before: seq<Entry>, log: seq<Entry>) {
    before <= log && exists k :: |before| <= k < |log| && log[k].Request?
  }

  ghost predicate NoStart(before: seq<Entry>, log: seq<Entry>) {
    before <= log && forall k | |before| <= k < |log| :: !log[k].CycleStart?
  }

  lemma AdvertsKeepPair(r: Radio, ads: seq<Advert>)
    ensures var r' := SetBleDevices(r, ads);
            && r'.affinity == r.affinity && r'.hint == r.hint
            && r'.cycleDevice == r.cycleDevice && r'.cycleSource == r.cycleSource
            && (r.device.Some? ==> r'.device.Some?)
  {
  }

  lemma CallIs(c: Client, call: UnpairCall, now: real)
    ensures var (after, outcome) := CallUnpair(c, call, now);
            && (outcome == NotSent <==> call == NotImplemented)
            && after.radio == c.radio
            && after.episode == c.episode.(unpaired := c.episode.unpaired || call != NotImplemented)
            && NoStart(c.log, after.log)
            && (call != NotImplemented <==> LogsRequest(c.log, after.log))
  {
    if call != NotImplemented {
      assert CallUnpair(c, call, now).0.log[|c.log|].Request?;
    }
  }

  lemma FallbackIs(c: Client, u: UnpairScript)
    requires RungDevice(c.radio).Some?
    ensures var (after, outcome) := FallbackUnpair(c, u);
            && (outcome != NotSent <==> FallbackSent(RungSource(c.radio), u))
            && after.radio == SetBleDevices(c.radio, u.during)
            && after.episode == c.episode.(unpaired := c.episode.unpaired || outcome != NotSent)
            && NoStart(c.log, after.log)
            && (outcome != NotSent <==> LogsRequest(c.log, after.log))
  {
    var device, source := RungDevice(c.radio).value, RungSource(c.radio);
    var tried := StartRung(c, device, u.during);
    CallIs(tried, u.call, u.now);
    StartLogs(c.log, Rung(device, source), FallbackUnpair(c, u).0.log);
  }

  lemma StartLogs(before: seq<Entry>, e: Entry, log: seq<Entry>)
    requires e.Rung? && NoStart(before + [e], log)
    ensures NoStart(before, log) && (LogsRequest(before, log) <==> LogsRequest(before + [e], log))
  {
    assert before <= before + [e] <= log && log[|before|] == e;
    if LogsRequest(before, log) {
      var k :| |before| <= k < |log| && log[k].Request?;
      assert k != |before|;
    }
  }

  lemma CallbackIs(c: Client, u: UnpairScript)
    ensures var (after, outcome) := TryUnpair(c, u);
            if CallbackSent(u.callback) then
              && outcome != NotSent
              && after.radio == RadioAsked(c.radio, u)
              && after.episode == c.episode.(unpaired := true)
              && NoStart(c.log, after.log) && LogsRequest(c.log, after.log)
            else
              (after, outcome) == FallbackUnpair(Ask(c, u), u)
    ensures !CallbackSent(u.callback) ==>
              Ask(c, u) == c.(radio := RadioAsked(c.radio, u))
  {
    if CallbackSent(u.callback) {
      var asked := Ask(c, u);
      assert asked.log == c.log + [Request(CaseOf(asked.(log := c.log)))];
      assert TryUnpair(c, u).0.log[|c.log|].Request?;
    }
  }

  lemma UnpairIs(c: Client, u: UnpairScript)
    requires RungDevice(c.radio).Some?
    ensures var (after, outcome), left := TryUnpair(c, u), MayHaveLeft(c.radio, u);
            && (outcome != NotSent <==> left)
            && after.radio == RadioUnpaired(c.radio, u)
            && after.episode == c.episode.(unpaired := c.episode.unpaired || left)
            && NoStart(c.log, after.log)
            && (left <==> LogsRequest(c.log, after.log))
  {
    CallbackIs(c, u);
    if !CallbackSent(u.callback) {
      AdvertsKeepPair(c.radio, u.asking);
      FallbackIs(Ask(c, u), u);
    }
  }

  predicate CallbackConfirmed(callback: Callback) {
    callback in {Replies(ReplyBool(true)), Replies(ReplyOutcome(Confirmed)), Replies(ReplyText("confirmed"))}
  }

  /** Who sent the request, and whether it was confirmed. */
  function Operation(u: UnpairScript): string {
    if CallbackSent(u.callback) then
      if CallbackConfirmed(u.callback) then "proxy_unpair" else "proxy_unpair_attempted_unconfirmed"
    else if u.call == Returns then "connect_unpair" else "connect_unpair_attempted_unconfirmed"
  }

  predicate OperationConfirmed(u: UnpairScript) {
    if CallbackSent(u.callback) then CallbackConfirmed(u.callback) else u.call == Returns
  }

  /** The bond machine hears of exactly the requests that may have left, as confirmed or not. */
  lemma UnpairIsRecorded(c: Client, u: UnpairScript)
    requires RungDevice(c.radio).Some?
    ensures var (after, outcome) := TryUnpair(c, u);
            && (outcome == Confirmed <==> MayHaveLeft(c.radio, u) && OperationConfirmed(u))
            && after.bond == if MayHaveLeft(c.radio, u) then Apply(c.bond, BondDestroyed(Operation(u), "rung3", u.now))
                             else c.bond
  {
    if CallbackSent(u.callback) {
      CallbackIsRecorded(c, u);
    } else {
      AdvertsKeepPair(c.radio, u.asking);
      CallbackIs(c, u);
      FallbackIsRecorded(Ask(c, u), u);
    }
  }

  lemma CallbackIsRecorded(c: Client, u: UnpairScript)
    requires CallbackSent(u.callback)
    ensures var (after, outcome) := TryUnpair(c, u);
            && (outcome == Confirmed <==> CallbackConfirmed(u.callback))
            && after.bond == Apply(c.bond, BondDestroyed(Operation(u), "rung3", u.now))
  {
    AttemptIsRecorded(Ask(c, u), Operation(u), u.now);
  }

  lemma AttemptIsRecorded(c: Client, op: string, now: real)
    ensures RecordAttempt(c, op, now).bond == Apply(c.bond, BondDestroyed(op, "rung3", now))
  {
  }

  lemma FallbackIsRecorded(c: Client, u: UnpairScript)
    requires RungDevice(c.radio).Some? && !CallbackSent(u.callback)
    ensures var (after, outcome) := FallbackUnpair(c, u);
            && (outcome == Confirmed <==> FallbackSent(RungSource(c.radio), u) && u.call == Returns)
            && after.bond ==
               if FallbackSent(RungSource(c.radio), u) then Apply(c.bond, BondDestroyed(Operation(u), "rung3", u.now))
               else c.bond
  {
  }

  // ----- the ladder -----

  function SecondRadio(r: Radio, s: CycleScript): Radio {
    SetBleDevices(r, s.first.during)
  }

  function UnpairRadio(r: Radio, s: CycleScript): Radio {
    SetBleDevices(SecondRadio(r, s), s.second.during)
  }

  function ThirdRadio(r: Radio, s: CycleScript): Radio {
    RadioUnpaired(UnpairRadio(r, s), s.unpair)
  }

  function FirstClass(r: Radio, s: CycleScript): Option<FailureClass> {
    ClassOf(RungSource(r), s.first.outcome)
  }

  function SecondClass(r: Radio, s: CycleScript): Option<FailureClass> {
    ClassOf(RungSource(SecondRadio(r, s)), s.second.outcome)
  }

  predicate FirstFails(r: Radio, s: CycleScript) {
    Fails(RungSource(r), s.first.outcome)
  }

  predicate SecondFails(r: Radio, s: CycleScript) {
    FirstFails(r, s) && Fails(RungSource(SecondRadio(r, s)), s.second.outcome)
  }

  /** The gates of the destructive rung: once an episode, on a rejection while migrating, and otherwise on a known affinity
      with a mismatch, or a suspicion and a rejection in this cycle. */
  predicate Permits(c: Client, rejected: bool) {
    && !c.episode.unpaired
    && if c.episode.migrationPending then rejected
       else c.radio.affinity.Some? && (c.bond.state == Mismatch || (c.bond.state == Suspect && rejected))
  }

  predicate SawAuth(r: Radio, s: CycleScript) {
    FirstClass(r, s) == Some(Auth) || SecondClass(r, s) == Some(Auth)
  }

  /** Two rungs fail, the gates allow the unpair, and a request may have left. */
  predicate ReachesThird(c: Client, s: CycleScript) {
    && SecondFails(c.radio, s)
    && Permits(c, SawAuth(c.radio, s))
    && MayHaveLeft(UnpairRadio(c.radio, s), s.unpair)
  }

  /** The first rung that is reached and does not fail completes. */
  predicate LadderCompletes(c: Client, s: CycleScript) {
    || Completes(RungSource(c.radio), s.first.outcome)
    || (FirstFails(c.radio, s) && Completes(RungSource(SecondRadio(c.radio, s)), s.second.outcome))
    || (ReachesThird(c, s) && Completes(RungSource(ThirdRadio(c.radio, s)), s.third.outcome))
  }

  predicate LadderBreaks(c: Client, s: CycleScript) {
    || Breaks(RungSource(c.radio), s.first.outcome)
    || (FirstFails(c.radio, s) && Breaks(RungSource(SecondRadio(c.radio, s)), s.second.outcome))
    || (ReachesThird(c, s) && Breaks(RungSource(ThirdRadio(c.radio, s)), s.third.outcome))
  }

  /** What the reached rungs are remembered with, in order. */
  function Classes(c: Client, s: CycleScript): seq<Option<FailureClass>> {
    if !ReachesThird(c, s) then FirstClasses(c, s)
    else FirstClasses(c, s) + [ClassOf(RungSource(ThirdRadio(c.radio, s)), s.third.outcome)]
  }

  function FirstClasses(c: Client, s: CycleScript): seq<Option<FailureClass>> {
    if FirstFails(c.radio, s) then [FirstClass(c.radio, s), SecondClass(c.radio, s)] else [FirstClass(c.radio, s)]
  }

  function LastClassOf(classes: seq<Option<FailureClass>>, before: Option<FailureClass>): Option<FailureClass> {
    if classes == [] then before
    else if classes[|classes| - 1].Some? then classes[|classes| - 1]
    else LastClassOf(classes[..|classes| - 1], before)
  }

  predicate Remembers(e: Episode, classes: seq<Option<FailureClass>>, before: Episode) {
    && (e.authFailSeen <==> before.authFailSeen || Some(Auth) in classes)
    && e.lastFailureClass == LastClassOf(classes, before.lastFailureClass)
  }

  lemma RemembersOne(e: Episode, classes: seq<Option<FailureClass>>, before: Episode, cls: Option<FailureClass>)
    requires Remembers(e, classes, before)
    ensures Remembers(Remembering(e, cls), classes + [cls], before)
  {
    assert (classes + [cls])[..|classes|] == classes;
  }

  /** The two rungs that come first. */
  lemma FirstRungsAre(c: Client, s: CycleScript)
    requires RungDevice(c.radio).Some?
    ensures var (after, verdict) := FirstRungs(c, s);
            && (verdict == Failed <==> SecondFails(c.radio, s))
            && (verdict == Handshaken <==>
                  || Completes(RungSource(c.radio), s.first.outcome)
                  || (FirstFails(c.radio, s) &&
                      Completes(RungSource(SecondRadio(c.radio, s)), s.second.outcome)))
            && after.radio == (if FirstFails(c.radio, s) then UnpairRadio(c.radio, s) else SecondRadio(c.radio, s))
            && after.bond == c.bond
    ensures FirstRungs(c, s).0.episode ==
            if FirstFails(c.radio, s) then Remembering(Remembering(c.episode, FirstClass(c.radio, s)), SecondClass(c.radio, s))
            else Remembering(c.episode, FirstClass(c.radio, s))
    ensures Calmly(c.log, FirstRungs(c, s).0.log)
  {
    RungIs(c, s.first);
    RungLogs(c, s.first);
    if FirstFails(c.radio, s) {
      var c1 := TryConnect(c, s.first).0;
      AdvertsKeepPair(c.radio, s.first.during);
      RungIs(c1, s.second);
      RungLogs(c1, s.second);
    }
  }

  lemma GateIs(c: Client, rejected: bool)
    requires c.episode.authFailSeen == rejected
    ensures MayUnpair(c) <==> Permits(c, rejected)
  {
  }

  ghost predicate Answered(before: seq<Entry>, log: seq<Entry>) {
    before <= log && forall k | |before| <= k < |log| && log[k].Request? :: exists m :: k < m < |log| && log[m].Rung?
  }

  /** Unpair, and go on to the third rung unless nothing was sent. */
  lemma RetryIs(c: Client, s: CycleScript)
    requires RungDevice(c.radio).Some?
    ensures var (after, verdict), left := UnpairAndRetry(c, s), MayHaveLeft(c.radio, s.unpair);
            var pin := RungSource(RadioUnpaired(c.radio, s.unpair));
            && (verdict == Handshaken <==> left && Completes(pin, s.third.outcome))
            && (verdict == Aborted <==> left && Breaks(pin, s.third.outcome))
            && after.episode ==
                 (if left then Remembering(c.episode.(unpaired := true), ClassOf(pin, s.third.outcome)) else c.episode)
    ensures RetryAnswers(c.log, UnpairAndRetry(c, s).0.log, MayHaveLeft(c.radio, s.unpair))
  {
    var armed := Log(c, UnpairRung(CaseOf(c)));
    var (unpaired, outcome) := TryUnpair(armed, s.unpair);
    UnpairIs(armed, s.unpair);
    if outcome != NotSent {
      var ready := if s.savesBond then SaveBond(unpaired) else unpaired;
      UnpairKeepsPair(c.radio, s.unpair);
      RungIs(ready, s.third);
      RungLogs(ready, s.third);
      RungAnswers(armed.log, unpaired.log, ready.log, TryConnect(ready, s.third).0.log);
      RetryAnswersLater(c.log, UnpairRung(CaseOf(c)), TryConnect(ready, s.third).0.log, true);
    } else {
      NothingToAnswer(armed.log, unpaired.log);
      RetryAnswersLater(c.log, UnpairRung(CaseOf(c)), unpaired.log, false);
    }
  }

  lemma UnpairKeepsPair(r: Radio, u: UnpairScript)
    requires RungDevice(r).Some?
    ensures RungDevice(RadioUnpaired(r, u)).Some?
  {
    AdvertsKeepPair(r, u.asking);
    AdvertsKeepPair(RadioAsked(r, u), u.during);
  }

  ghost predicate RetryAnswers(before: seq<Entry>, log: seq<Entry>, left: bool) {
    NoStart(before, log) && (LogsRequest(before, log) <==> left) && Answered(before, log)
  }

  lemma RungAnswers(before: seq<Entry>, unpaired: seq<Entry>, ready: seq<Entry>, log: seq<Entry>)
    requires NoStart(before, unpaired) && LogsRequest(before, unpaired)
    requires ready == unpaired || ready == unpaired + [Saved]
    requires Calmly(ready, log) && |ready| < |log| && log[|ready|].Rung?
    ensures RetryAnswers(before, log, true)
  {
    assert before <= log && unpaired <= log;
    forall k | |before| <= k < |log| && log[k].Request? ensures exists m :: k < m < |log| && log[m].Rung? {
      assert k < |unpaired|;
      assert log[|ready|].Rung?;
    }
    var k :| |before| <= k < |unpaired| && unpaired[k].Request?;
    assert log[k].Request?;
  }

  lemma NothingToAnswer(before: seq<Entry>, log: seq<Entry>)
    requires NoStart(before, log) && !LogsRequest(before, log)
    ensures RetryAnswers(before, log, false)
  {
  }

  lemma RetryAnswersLater(before: seq<Entry>, e: Entry, log: seq<Entry>, left: bool)
    requires e.UnpairRung? && RetryAnswers(before + [e], log, left)
    ensures RetryAnswers(before, log, left)
  {
    assert before <= before + [e] <= log && log[|before|] == e;
    if LogsRequest(before, log) {
      var k :| |before| <= k < |log| && log[k].Request?;
      assert k != |before|;
    }
  }

  /** The whole ladder, from the frozen pair. */
  lemma LadderIs(c: Client, s: CycleScript)
    requires RungDevice(c.radio).Some? && !c.episode.authFailSeen
    ensures var (after, verdict) := Ladder(c, s);
            && (verdict == Handshaken <==> LadderCompletes(c, s))
            && (verdict == Aborted <==> LadderBreaks(c, s))
            && Remembers(after.episode, Classes(c, s), c.episode)
            && (after.episode.unpaired <==> c.episode.unpaired || ReachesThird(c, s))
    ensures RetryAnswers(c.log, Ladder(c, s).0.log, ReachesThird(c, s))
  {
    FirstRungsAre(c, s);
    FirstClassesAre(c, s);
    var (c2, verdict) := FirstRungs(c, s);
    if verdict == Failed {
      GateIsReached(c, s);
      if MayUnpair(c2) {
        RetryIs(c2, s);
        LongerLog(c.log, c2.log, Ladder(c, s).0.log, ReachesThird(c, s));
      }
    }
    AllClassesAre(c, s, c2.episode);
  }

  lemma AllClassesAre(c: Client, s: CycleScript, e: Episode)
    requires Remembers(e, FirstClasses(c, s), c.episode)
    ensures !ReachesThird(c, s) ==> Remembers(e, Classes(c, s), c.episode)
    ensures ReachesThird(c, s) ==>
              var third := ClassOf(RungSource(ThirdRadio(c.radio, s)), s.third.outcome);
              Remembers(Remembering(e.(unpaired := true), third), Classes(c, s), c.episode)
  {
    if ReachesThird(c, s) {
      var third := ClassOf(RungSource(ThirdRadio(c.radio, s)), s.third.outcome);
      RemembersOne(e.(unpaired := true), FirstClasses(c, s), c.episode, third);
    }
  }

  /** After two failed rungs the gates are those of the client that began. */
  lemma GateIsReached(c: Client, s: CycleScript)
    requires RungDevice(c.radio).Some? && !c.episode.authFailSeen && SecondFails(c.radio, s)
    ensures var c2 := FirstRungs(c, s).0;
            RungDevice(c2.radio).Some? && (MayUnpair(c2) <==> Permits(c, SawAuth(c.radio, s)))
  {
    FirstRungsAre(c, s);
    FirstClassesAre(c, s);
    AdvertsKeepPair(c.radio, s.first.during);
    AdvertsKeepPair(SecondRadio(c.radio, s), s.second.during);
    GateIs(FirstRungs(c, s).0, SawAuth(c.radio, s));
  }

  lemma LongerLog(before: seq<Entry>, middle: seq<Entry>, log: seq<Entry>, left: bool)
    requires Calmly(before, middle) && RetryAnswers(middle, log, left)
    ensures RetryAnswers(before, log, left)
  {
    assert before <= log;
    if LogsRequest(before, log) {
      var k :| |before| <= k < |log| && log[k].Request?;
      assert |middle| <= k;
    }
    if LogsRequest(middle, log) {
      var k :| |middle| <= k < |log| && log[k].Request?;
      assert |before| <= k;
    }
  }

  lemma FirstClassesAre(c: Client, s: CycleScript)
    requires RungDevice(c.radio).Some?
    ensures var e := FirstRungs(c, s).0.episode;
            && Remembers(e, FirstClasses(c, s), c.episode)
            && e.unpaired == c.episode.unpaired && e.migrationPending == c.episode.migrationPending
  {
    FirstRungsAre(c, s);
    var first, second := FirstClass(c.radio, s), SecondClass(c.radio, s);
    RemembersOne(c.episode, [], c.episode, first);
    assert [] + [first] == [first];
    RemembersOne(Remembering(c.episode, first), [first], c.episode, second);
    assert [first] + [second] == [first, second];
  }

  // ----- the cycle -----

  /** The cycle runs the ladder: there is no living link already, and a device to climb with. */
  predicate RunsLadder(c: Client, s: CycleScript) {
    !(c.episode.connected && s.linkAlive) && c.radio.device.Some?
  }

  lemma LadderWithoutDevice(c: Client, s: CycleScript)
    requires RungDevice(c.radio).None?
    ensures Ladder(c, s) == (c, Aborted)
  {
  }

  /** A cycle connects exactly when the link is alive already, or the machine can be read and the first rung that is reached
      and does not fail completes; the third is reached exactly after two failures, with the gates open, once a request may
      have left. */
  lemma ConnectsIff(c: Client, s: CycleScript)
    ensures Connect(c, s).1 <==>
            || (c.episode.connected && s.linkAlive)
            || (RunsLadder(c, s) && LadderCompletes(Begun(c), s) && !s.setupFails)
    ensures Connect(c, s).1 ==> Connect(c, s).0.episode.connected
    ensures RunsLadder(c, s) && (LadderBreaks(Begun(c), s) || (LadderCompletes(Begun(c), s) && s.setupFails)) ==>
              !Connect(c, s).0.episode.connected
  {
    if RunsLadder(c, s) {
      LadderIs(Begun(c), s);
    } else if c.radio.device.None? {
      LadderWithoutDevice(Begun(c), s);
    }
    SucceededIsConnected(Ladder(Begun(c), s).0, s.now);
  }

  lemma SucceededIsConnected(c: Client, now: real)
    ensures Succeed(c, now).episode.connected
  {
  }

  /** What a cycle remembers of its failures: a rejection on some rung that was reached, and the last class recorded. */
  lemma CycleRemembers(c: Client, s: CycleScript)
    requires RunsLadder(c, s)
    ensures var e, classes := Connect(c, s).0.episode, Classes(Begun(c), s);
            && (e.authFailSeen <==> Some(Auth) in classes)
            && e.lastFailureClass == LastClassOf(classes, c.episode.lastFailureClass)
  {
    LadderIs(Begun(c), s);
    SettleRemembers(Ladder(Begun(c), s).0, Ladder(Begun(c), s).1, s);
  }

  lemma SettleRemembers(c: Client, verdict: Verdict, s: CycleScript)
    ensures var e := Settle(c, verdict, s).0.episode;
            e.authFailSeen == c.episode.authFailSeen && e.lastFailureClass == c.episode.lastFailureClass
    ensures Calmly(c.log, Settle(c, verdict, s).0.log)
  {
  }

  /** A request leaves exactly when the third rung is reached, and that rung follows it in the same cycle. */
  lemma RequestIff(c: Client, s: CycleScript)
    requires RunsLadder(c, s)
    ensures RetryAnswers(Freeze(c).log, Connect(c, s).0.log, ReachesThird(Begun(c), s))
  {
    LadderIs(Begun(c), s);
    var (after, verdict) := Ladder(Begun(c), s);
    SettleRemembers(after, verdict, s);
    SettledLog(Freeze(c).log, after.log, Settle(after, verdict, s).0.log, ReachesThird(Begun(c), s));
  }

  lemma SettledLog(before: seq<Entry>, middle: seq<Entry>, log: seq<Entry>, left: bool)
    requires RetryAnswers(before, middle, left) && Calmly(middle, log)
    ensures RetryAnswers(before, log, left)
  {
    assert before <= log;
    forall k | |before| <= k < |log| && log[k].Request? ensures exists m :: k < m < |log| && log[m].Rung? {
      assert k < |middle| && middle[k].Request?;
      var m :| k < m < |middle| && middle[m].Rung?;
      assert log[m].Rung?;
    }
    if LogsRequest(before, middle) {
      var k :| |before| <= k < |middle| && middle[k].Request?;
      assert log[k].Request?;
    }
    if LogsRequest(before, log) {
      var k :| |before| <= k < |log| && log[k].Request?;
      assert middle[k].Request?;
    }
  }

  /** The class a failed cycle is reported with: AUTH when a rung was rejected or nothing newer was recorded since an old
      rejection, which counts as a lost link while migrating, and otherwise the last class recorded. */
  lemma ReportIs(c: Client, s: CycleScript)
    requires RunsLadder(c, s)
    ensures var classes, e := Classes(Begun(c), s), Connect(c, s).0.episode;
            var last := LastClassOf(classes, c.episode.lastFailureClass);
            ReportedClass(e) ==
            if Some(Auth) in classes || last == Some(Auth) then Some(if e.migrationPending then LinkFail else Auth)
            else last
  {
    CycleRemembers(c, s);
  }

  /** While migrating no failure counts against the bond that is being replaced. */
  lemma MigrationSparesTheBond(c: Client, threshold: int, installed: bool, now: real)
    requires c.episode.migrationPending
    ensures NoteFailure(c, threshold, installed, now).bond == c.bond
    ensures ReportedClass(c.episode) != Some(Auth)
  {
  }

  // ----- runs -----

  /** A rung follows the request of entry k in the same cycle. */
  ghost predicate FollowedByRung(log: seq<Entry>, k: nat) {
    exists m :: k < m < |log| && log[m].Rung? && forall h | k < h <= m :: !log[h].CycleStart?
  }

  ghost predicate AllFollowed(log: seq<Entry>) {
    forall k: nat | k < |log| && log[k].Request? :: FollowedByRung(log, k)
  }

  lemma FollowedStays(log: seq<Entry>, longer: seq<Entry>)
    requires AllFollowed(log) && log <= longer
    requires forall k: nat | |log| <= k < |longer| && longer[k].Request? :: FollowedByRung(longer, k)
    ensures AllFollowed(longer)
  {
    forall k: nat | k < |longer| && longer[k].Request? ensures FollowedByRung(longer, k) {
      if k < |log| {
        assert log[k].Request?;
        var m :| k < m < |log| && log[m].Rung? && forall h | k < h <= m :: !log[h].CycleStart?;
        assert longer[m].Rung? && forall h | k < h <= m :: longer[h] == log[h];
      }
    }
  }

  lemma AnsweredIsFollowed(before: seq<Entry>, log: seq<Entry>)
    requires AllFollowed(before) && NoStart(before, log) && Answered(before, log)
    ensures AllFollowed(log)
  {
    forall k: nat | |before| <= k < |log| && log[k].Request? ensures FollowedByRung(log, k) {
      var m :| k < m < |log| && log[m].Rung?;
    }
    FollowedStays(before, log);
  }

  lemma CycleIsFollowed(c: Client, s: CycleScript)
    requires AllFollowed(c.log)
    ensures AllFollowed(Connect(c, s).0.log)
  {
    FollowedStays(c.log, Freeze(c).log);
    if RunsLadder(c, s) {
      RequestIff(c, s);
      AnsweredIsFollowed(Freeze(c).log, Connect(c, s).0.log);
    } else if c.radio.device.None? && !(c.episode.connected && s.linkAlive) {
      LadderWithoutDevice(Begun(c), s);
    }
  }

  lemma StepIsFollowed(c: Client, a: Action)
    requires AllFollowed(c.log)
    ensures AllFollowed(ConnectSafety.Step(c, a).log)
  {
    if a.Cycle? {
      CycleIsFollowed(c, a.script);
    } else {
      FollowedStays(c.log, ConnectSafety.Step(c, a).log);
    }
  }

  /** In every run each destructive request is followed by another rung of the same cycle: the bond is never given up
      without the attempt that was to follow. */
  lemma {:induction false} RequestsAreFollowed(prior: seq<Call>, g: Config, acts: seq<Action>)
    ensures AllFollowed(ConnectSafety.Run(prior, g, acts).log)
  {
    if acts != [] {
      RequestsAreFollowed(prior, g, acts[..|acts| - 1]);
      StepIsFollowed(ConnectSafety.Run(prior, g, acts[..|acts| - 1]), acts[|acts| - 1]);
    }
  }
}
