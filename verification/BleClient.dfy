/**
 The BLE client's connect and recovery code in the source's own form: an object whose fields every rung of the ladder
 updates in place. Each method is proved against the function of the same name in ConnectSpec; ConnectSafety proves what
 any run of those functions keeps.
 */
module BleClient {
  import opened Prelude
  import opened BondState
  import opened ConnectSpec
  import opened ConnectOutage
  import opened Reconnect
  import Spec = ConnectSpec

  class MelittaBleClient {
    var device: Option<Device>
    var deviceSource: Option<string>
    var affinity: Option<string>
    var hint: Option<string>
    var migrationPending: bool
    var cycleDevice: Option<Device>
    var cycleSource: Option<string>
    var connected: bool
    var authFailSeen: bool
    var lastFailureClass: Option<FailureClass>
    var unpairedThisEpisode: bool
    var failures: int
    var repairs: nat
    var episodeClasses: set<Option<FailureClass>>
    var wasAbsent: bool
    var bondDocument: map<string, Json>
    const bond: BondStateMachine
    ghost var log: seq<Entry>

    ghost function State(): Client
      reads this, bond
    {
      Client(RadioState(), EpisodeState(), bond.Value(), bondDocument, log)
    }

    ghost function RadioState(): Radio
      reads this
    {
      Radio(device, deviceSource, affinity, hint, cycleDevice, cycleSource)
    }

    ghost function EpisodeState(): Episode
      reads this
    {
      Episode(connected, migrationPending, authFailSeen, lastFailureClass, unpairedThisEpisode, failures, repairs,
              episodeClasses, wasAbsent)
    }

    constructor (device: Option<Device>, deviceSource: Option<string>, affinity: Option<string>, hint: Option<string>,
                 migrationPending: bool, bond: BondStateMachine, document: map<string, Json>)
      ensures this.bond == bond && bondDocument == document && log == []
      ensures RadioState() == Radio(device, deviceSource, affinity, if affinity.None? then hint else None, None, None)
      ensures EpisodeState() == Episode(false, migrationPending, false, None, false, 0, 0, {}, false)
    {
      this.device, this.deviceSource := device, deviceSource;
      this.affinity, this.migrationPending, this.bond := affinity, migrationPending, bond;
      this.hint := if affinity.None? then hint else None;
      cycleDevice, cycleSource := None, None;
      connected, authFailSeen, lastFailureClass, unpairedThisEpisode := false, false, None, false;
      failures, repairs := 0, 0;
      episodeClasses, wasAbsent := {}, false;
      bondDocument := document;
      log := [];
    }

    /** The delayed save of the bond document, which fires while the client waits for something else. */
    method SaveBond()
      modifies `bondDocument, `log
      ensures State() == Spec.SaveBond(old(State()))
    {
      bondDocument := AsDict(bond.Value());
      log := log + [Saved];
    }

    /** Adopts the device of an advertisement unless it belongs to another central than the preferred one. */
    method SetBleDevice(ad: Advert) returns (accepted: bool)
      modifies `device, `deviceSource
      ensures RadioState() == Spec.SetBleDevice(old(RadioState()), ad)
      ensures accepted == Adopts(old(RadioState()), ad)
    {
      var source := ad.source;
      if source.None? && Truthy(ad.device.detailsSource) {
        source := ad.device.detailsSource;
      }
      var preferred := Or(affinity, hint);
      if preferred.Some? && Norm(source) != Norm(preferred) {
        return false;
      }
      device := Some(ad.device);
      deviceSource := source;
      return true;
    }

    /** The advertisements that arrive while the caller waits. */
    method Await(ads: seq<Advert>)
      modifies `device, `deviceSource
      ensures RadioState() == Spec.SetBleDevices(old(RadioState()), ads)
    {
      for i := 0 to |ads|
        invariant RadioState() == Spec.SetBleDevices(old(RadioState()), ads[..i])
      {
        assert ads[..i + 1][..i] == ads[..i];
        var _ := SetBleDevice(ads[i]);
      }
      assert ads[..|ads|] == ads;
    }

    method SetBleSourceAffinity(source: Option<string>)
      modifies `affinity, `hint, `device, `deviceSource, `cycleDevice, `cycleSource
      ensures RadioState() == SetAffinity(old(RadioState()), source)
    {
      if Norm(source) == Norm(affinity) {
        affinity := source;
        return;
      }
      affinity := source;
      if source.Some? {
        hint := None;
      }
      if source.Some? && Norm(deviceSource) != Norm(source) {
        device, deviceSource := None, None;
        cycleDevice, cycleSource := None, None;
      }
    }

    method RecordConnectFailure(cls: FailureClass)
      modifies `lastFailureClass, `authFailSeen, `log
      ensures State() == RecordFailure(old(State()), cls)
    {
      lastFailureClass := Some(cls);
      if cls == Auth {
        authFailSeen := true;
      }
      log := log + [Classified(cls)];
    }

    method TryConnectAndHandshake(a: Attempt) returns (verdict: Verdict)
      modifies `device, `deviceSource, `lastFailureClass, `authFailSeen, `log
      ensures (State(), verdict) == TryConnect(old(State()), a)
    {
      var rungDevice := if cycleDevice.Some? then cycleDevice else device;
      var source := Or(cycleSource, deviceSource);
      if rungDevice.None? {
        return Aborted;
      }
      BeginRung(rungDevice.value, source, a.during);
      verdict := FinishRung(source, a.outcome);
    }

    /** The link of a rung is being established on this pair. */
    method BeginRung(rungDevice: Device, source: Option<string>, during: seq<Advert>)
      requires source == RungSource(RadioState())
      modifies `device, `deviceSource, `log
      ensures State() == StartRung(old(State()), rungDevice, during)
    {
      log := log + [Rung(rungDevice, source)];
      Await(during);
    }

    /** The source is checked before any handshake traffic is sent. */
    method FinishRung(source: Option<string>, outcome: LinkOutcome) returns (verdict: Verdict)
      modifies `lastFailureClass, `authFailSeen, `log
      ensures (State(), verdict) == Conclude(old(State()), source, outcome)
    {
      if outcome.EstablishFails? {
        RecordConnectFailure(outcome.cls);
        return Failed;
      }
      if Truthy(source) && (outcome.on.None? || Norm(outcome.on) != Norm(source)) {
        RecordConnectFailure(LinkFail);
        return Failed;
      }
      if !outcome.alive {
        return Failed;
      }
      log := log + [LinkUp(source, outcome.on, affinity)];
      match outcome.session {
        case NotifyFails(cls) =>
          RecordConnectFailure(cls);
          return Failed;
        case HandshakeFails =>
          RecordConnectFailure(Handshake);
          return Failed;
        case HandshakeRaises => return Aborted;
        case HandshakeDone => return Handshaken;
      }
    }

    method SuspectStaleBond() returns (suspect: bool)
      ensures suspect <==> SuspectsStaleBond(State())
    {
      if migrationPending {
        return false;
      }
      if affinity.None? {
        return false;
      }
      suspect := bond.state == Mismatch || (bond.state == Suspect && authFailSeen);
    }

    method RecordAttempt(op: string, now: real)
      modifies `unpairedThisEpisode, `log, bond
      ensures State() == Spec.RecordAttempt(old(State()), op, now)
    {
      unpairedThisEpisode := true;
      bond.OnBondDestroyed(op, "rung3", now);
      log := log + [BondCall(BondDestroyed(op, "rung3", now))];
    }

    /** One stale-bond removal: the connect-then-unpair fallback runs only when the callback sent nothing. */
    method TryUnpair(u: UnpairScript) returns (outcome: UnpairOutcome)
      modifies `device, `deviceSource, `unpairedThisEpisode, `log, bond
      ensures (State(), outcome) == Spec.TryUnpair(old(State()), u)
    {
      if !u.callback.Absent? {
        Await(u.asking);
      }
      if CallbackSends(u.callback) {
        log := log + [Request(UnpairCase(migrationPending, affinity, authFailSeen))];
      }
      match u.callback {
        case Raises =>
          RecordAttempt("proxy_unpair_attempted_unconfirmed", u.now);
          return AttemptedUnconfirmed;
        case Replies(raw) =>
          outcome := OutcomeOf(raw);
          if outcome == Confirmed {
            RecordAttempt("proxy_unpair", u.now);
            return;
          }
          if outcome == AttemptedUnconfirmed {
            RecordAttempt("proxy_unpair_attempted_unconfirmed", u.now);
            return;
          }
        case Absent =>
      }
      outcome := FallbackUnpair(u);
    }

    method FallbackUnpair(u: UnpairScript) returns (outcome: UnpairOutcome)
      modifies `device, `deviceSource, `unpairedThisEpisode, `log, bond
      ensures (State(), outcome) == Spec.FallbackUnpair(old(State()), u)
    {
      var rungDevice := if cycleDevice.Some? then cycleDevice else device;
      var source := Or(cycleSource, deviceSource);
      if rungDevice.None? {
        return NotSent;
      }
      BeginRung(rungDevice.value, source, u.during);
      if u.link.Refused? || !SourceVerified(source, u.link.on) {
        return NotSent;
      }
      outcome := CallUnpair(u.call, u.now);
    }

    method CallUnpair(call: UnpairCall, now: real) returns (outcome: UnpairOutcome)
      modifies `unpairedThisEpisode, `log, bond
      ensures (State(), outcome) == Spec.CallUnpair(old(State()), call, now)
    {
      if call != NotImplemented {
        log := log + [Request(UnpairCase(migrationPending, affinity, authFailSeen))];
      }
      match call {
        case NotImplemented => return NotSent;
        case Fails =>
          RecordAttempt("connect_unpair_attempted_unconfirmed", now);
          return AttemptedUnconfirmed;
        case Returns =>
          RecordAttempt("connect_unpair", now);
          return Confirmed;
      }
    }

    method Connect(s: CycleScript) returns (ok: bool)
      modifies this, bond
      ensures (State(), ok) == Spec.Connect(old(State()), s)
    {
      FreezeCycle();
      ok := ConnectImpl(s);
      ThawCycle();
    }

    method FreezeCycle()
      modifies `cycleDevice, `cycleSource, `log
      ensures State() == Freeze(old(State()))
    {
      cycleDevice, cycleSource := device, deviceSource;
      log := log + [CycleStart(device, deviceSource)];
    }

    method ThawCycle()
      modifies `hint, `device, `deviceSource, `cycleDevice, `cycleSource
      ensures RadioState() == Thaw(old(RadioState()), authFailSeen)
    {
      if affinity.None? && hint.Some? && authFailSeen && Norm(cycleSource) == Norm(hint) {
        hint := None;
        if Norm(deviceSource) == Norm(cycleSource) {
          device, deviceSource := None, None;
        }
      }
      cycleDevice, cycleSource := None, None;
    }

    method ConnectImpl(s: CycleScript) returns (ok: bool)
      modifies this, bond
      ensures (State(), ok) == Spec.ConnectImpl(old(State()), s)
    {
      if connected && s.linkAlive {
        return true;
      }
      authFailSeen := false;
      var verdict := ClimbLadder(s);
      match verdict {
        case Failed => return false;
        case Aborted =>
          connected := false;
          return false;
        case Handshaken =>
      }
      HandshakeComplete(s.now);
      if s.setupFails {
        connected := false;
        return false;
      }
      return true;
    }

    /** pair=False, then pair=True, then at most one unpair followed by pair=True again. */
    method ClimbLadder(s: CycleScript) returns (verdict: Verdict)
      modifies this, bond
      ensures (State(), verdict) == Ladder(old(State()), s)
    {
      verdict := FirstRungs(s);
      if verdict != Failed {
        return;
      }
      var allowed := MayUnpair();
      if allowed {
        verdict := UnpairAndRetry(s);
      }
    }

    method FirstRungs(s: CycleScript) returns (verdict: Verdict)
      modifies `device, `deviceSource, `lastFailureClass, `authFailSeen, `log
      ensures (State(), verdict) == Spec.FirstRungs(old(State()), s)
    {
      verdict := TryConnectAndHandshake(s.first);
      if verdict != Failed {
        return;
      }
      verdict := TryConnectAndHandshake(s.second);
    }

    /** The gates of the destructive rung, on both paths. */
    method MayUnpair() returns (allowed: bool)
      ensures allowed <==> Spec.MayUnpair(State())
    {
      if migrationPending {
        if !authFailSeen {
          return false;
        }
      } else {
        var suspect := SuspectStaleBond();
        if !suspect {
          return false;
        }
      }
      return !unpairedThisEpisode;
    }

    method UnpairAndRetry(s: CycleScript) returns (verdict: Verdict)
      modifies `device, `deviceSource, `lastFailureClass, `authFailSeen, `unpairedThisEpisode, `bondDocument, `log, bond
      ensures (State(), verdict) == Spec.UnpairAndRetry(old(State()), s)
    {
      log := log + [UnpairRung(UnpairCase(migrationPending, affinity, authFailSeen))];
      var outcome := TryUnpair(s.unpair);
      if outcome == NotSent {
        return Failed;
      }
      if s.savesBond {
        SaveBond();
      }
      verdict := TryConnectAndHandshake(s.third);
    }

    method HandshakeComplete(now: real)
      modifies this, bond
      ensures State() == Succeed(old(State()), now)
    {
      RenewEpisode();
      bond.OnHandshakeSuccess(now);
      log := log + [BondCall(HandshakeSuccess(now))];
      LearnConnectedSource();
    }

    method RenewEpisode()
      modifies `connected, `failures, `unpairedThisEpisode, `episodeClasses, `wasAbsent
      ensures EpisodeState() == Renewed(old(State())).episode
    {
      connected := true;
      failures := 0;
      unpairedThisEpisode := false;
      episodeClasses := {};
      wasAbsent := false;
    }

    method LearnConnectedSource()
      modifies `migrationPending, `affinity, `hint, `device, `deviceSource, `cycleDevice, `cycleSource, `log
      ensures State() == LearnSource(old(State()))
    {
      var source := Or(cycleSource, deviceSource);
      if Truthy(source) {
        EndMigration();
        if affinity.None? {
          AdoptSource(source);
        }
      }
    }

    method EndMigration()
      modifies `migrationPending
      ensures EpisodeState() == old(EpisodeState()).(migrationPending := false)
    {
      migrationPending := false;
    }

    method AdoptSource(source: Option<string>)
      requires source.Some?
      modifies `affinity, `hint, `device, `deviceSource, `cycleDevice, `cycleSource, `log
      ensures RadioState() == SetAffinity(old(RadioState()), source)
      ensures log == old(log) + [Learned(source.value)]
    {
      SetBleSourceAffinity(source);
      log := log + [Learned(source.value)];
    }

    /** Counts a failed cycle, feeds its class to the bond machine, and fires the repair callback at the threshold. */
    method NoteConnectFailure(threshold: int, installed: bool, now: real)
      modifies this, bond
      ensures State() == NoteFailure(old(State()), threshold, installed, now)
    {
      var cls := if authFailSeen then Some(Auth) else lastFailureClass;
      if cls == Some(Auth) && migrationPending {
        cls := Some(LinkFail);
      }
      AddFailureClass(cls);
      CountConnectFailure(threshold, installed);
      ReportCycleFailure(cls, now);
    }

    method ReportCycleFailure(cls: Option<FailureClass>, now: real)
      modifies `log, bond
      ensures State() == CallBond(old(State()), CycleFailure(cls, now))
    {
      bond.OnCycleFailure(cls, now);
      log := log + [BondCall(CycleFailure(cls, now))];
    }

    method AddFailureClass(cls: Option<FailureClass>)
      modifies `episodeClasses
      ensures EpisodeState() == WithClass(old(EpisodeState()), cls)
    {
      episodeClasses := episodeClasses + {cls};
    }

    method CountConnectFailure(threshold: int, installed: bool)
      modifies `failures, `repairs
      ensures EpisodeState() == CountFailure(old(EpisodeState()), threshold, installed)
    {
      failures := failures + 1;
      if threshold > 0 && failures >= threshold && installed {
        failures := 0;
        repairs := repairs + 1;
      }
    }

    /** Whether the failure episode matches an ordinary power-off; any AUTH or handshake failure in it says no. */
    method EpisodeLooksLikePowerOff(starved: bool, present: Option<bool>) returns (looks: bool)
      ensures looks <==> LooksLikePowerOff(EpisodeState(), starved, present)
    {
      if episodeClasses == {} {
        return false;
      }
      if !(episodeClasses <= {Some(Timeout), Some(LinkFail)}) {
        return false;
      }
      if starved {
        return false;
      }
      if wasAbsent {
        return true;
      }
      return present == Some(false);
    }

    /** Serves the whole delay unless an advertisement outside a counted failure, or after an absence, comes before. */
    method WaitBackoff(delay: real, now: real, wakes: seq<Wake>) returns (woken: bool)
      requires InOrder(now, wakes)
      modifies `device, `deviceSource, `wasAbsent
      ensures (State(), woken) == Wait(old(State()), now + delay, wakes)
    {
      var deadline, t, i := now + delay, now, 0;
      while true
        invariant 0 <= i <= |wakes|
        invariant t == if i == 0 then now else wakes[i - 1].at
        invariant i > 0 ==> t < deadline
        invariant Wait(State(), deadline, wakes[i..]) == Wait(old(State()), deadline, wakes)
        decreases |wakes| - i
      {
        if deadline - t <= 0.0 {
          return false;
        }
        if i == |wakes| || wakes[i].at >= deadline {
          return false;
        }
        t := wakes[i].at;
        var _ := SetBleDevice(wakes[i].ad);
        if failures == 0 || wasAbsent {
          wasAbsent := false;
          return true;
        }
        i := i + 1;
      }
    }

    /** No attempt while the scanner of the affinity is away, or the machine is and no scanner starves. */
    method ShouldAttemptConnect(gate: Gate) returns (open: bool)
      modifies `device, `deviceSource, `wasAbsent
      ensures (State(), open) == Approach(old(State()), gate)
    {
      if affinity.Some? && gate.available.Some? && !gate.available.value {
        wasAbsent := true;
        return false;
      }
      Await(gate.pulled);
      if gate.present.None? || gate.present.value {
        return true;
      }
      if gate.starved {
        return true;
      }
      wasAbsent := true;
      return false;
    }

    /** The gate and, when it opens, one attempt with the note of its failure. */
    method TryOnce(gate: Gate, script: CycleScript, r: Repair) returns (attempted: bool, ok: bool, ghost turn: Turn)
      modifies this, bond
      ensures (State(), turn) == Reconnect.TryOnce(old(State()), gate, script, r)
      ensures attempted == turn.attempts && ok == turn.connects
      ensures turn.pairingRequired == (attempted && !ok && bond.state == PairingRequired)
    {
      turn := Reconnect.TryOnce(State(), gate, script, r).1;
      attempted := ShouldAttemptConnect(gate);
      if !attempted {
        return attempted, false, turn;
      }
      ok := Connect(script);
      if !ok {
        NoteConnectFailure(r.threshold, r.installed, script.now);
      }
    }

    /** The loop that runs after a disconnect. */
    method ReconnectLoop(base: real, max: real, rounds: seq<Round>, r: Repair) returns (waits: seq<real>, ok: bool)
      requires 0.0 <= base <= max && forall i | 0 <= i < |rounds| :: InOrder(rounds[i].now, rounds[i].wakes)
      modifies this, bond
      ensures var l := Reconnecting(old(State()), base, max, rounds, r);
              State() == l.client && waits == l.waits && ok == l.connected
    {
      var delay := base;
      waits, ok := [], false;
      ghost var l := Loop(State(), [], [], false);
      StartOfLoop(base, max);
      for i := 0 to |rounds|
        invariant l == Reconnecting(old(State()), base, max, rounds[..i], r) && !l.connected && !ok
        invariant State() == l.client && waits == l.waits && delay == ReconnectDelay(base, max, l.turns)
      {
        ReconnectingNext(old(State()), base, max, rounds, r, i);
        waits := waits + [delay];
        var woken, attempted;
        ghost var turn;
        woken, attempted, ok, turn := WaitAndTry(delay, rounds[i], r);
        ReconnectDelayNext(base, max, l.turns, turn);
        l := EndTurn(l, delay, State(), turn);
        if ok {
          return;
        }
        delay := Min((if woken then base else delay) * 2.0, max);
        if attempted && bond.state == PairingRequired {
          delay := max;
        }
      }
      assert rounds[..|rounds|] == rounds;
    }

    method WaitAndTry(delay: real, round: Round, r: Repair)
      returns (woken: bool, attempted: bool, ok: bool, ghost turn: Turn)
      requires InOrder(round.now, round.wakes)
      modifies this, bond
      ensures (State(), turn) == Turned(old(State()), delay, round, r)
      ensures woken == turn.woken && ok == turn.connects
      ensures turn.pairingRequired == (attempted && !ok && bond.state == PairingRequired)
    {
      woken := WaitBackoff(delay, round.now, round.wakes);
      attempted, ok, turn := TryOnce(round.gate, round.script, r);
      turn := turn.(woken := woken);
    }
  }
}
