/**
 One connect cycle of the BLE client, as functions on its recovery state. Everything the radio decides is a script: how
 each rung of the ladder ends, what the unpair callback answers, and which advertisements arrive while a rung runs.
 The log is a ghost record of what a run did; nothing in the client reads it.
 */
module ConnectSpec {
  import opened Prelude
  import opened BondState

  // ----- sources -----

  predicate Truthy(s: Option<string>) {
    s.Some? && s.value != ""
  }

  /** Python's `a or b` on optional strings. */
  function Or(a: Option<string>, b: Option<string>): Option<string> {
    if Truthy(a) then a else b
  }

  function Lower(c: char): char {
    if 'A' <= c <= 'Z' then (c as int + 32) as char else c
  }

  function NormText(s: string): string {
    if s == "" then ""
    else (if s[0] in {':', '-'} then "" else [Lower(s[0])]) + NormText(s[1..])
  }

  /** A scanner source identifier, normalized for comparison. */
  function Norm(s: Option<string>): string {
    NormText(s.GetOr(""))
  }

  datatype Device = Device(id: nat, detailsSource: Option<string>)

  datatype Advert = Advert(device: Device, source: Option<string>)

  // ----- scripts -----

  datatype Session = NotifyFails(cls: FailureClass) | HandshakeFails | HandshakeRaises | HandshakeDone

  datatype LinkOutcome = EstablishFails(cls: FailureClass) | Lands(on: Option<string>, alive: bool, session: Session)

  datatype Attempt = Attempt(outcome: LinkOutcome, during: seq<Advert>)

  datatype UnpairOutcome = Confirmed | AttemptedUnconfirmed | NotSent

  /** What the installed callback may answer, older boolean contracts included. */
  datatype RawReply = ReplyBool(b: bool) | ReplyNone | ReplyOutcome(o: UnpairOutcome) | ReplyText(text: string)

  datatype Callback = Absent | Raises | Replies(raw: RawReply)

  datatype FallbackLink = Refused | LandsOn(on: Option<string>)

  datatype UnpairCall = Returns | NotImplemented | Fails

  datatype UnpairScript = UnpairScript(
    callback: Callback, asking: seq<Advert>, link: FallbackLink, call: UnpairCall, during: seq<Advert>, now: real)

  /** `savesBond`: the delayed save of the bond document fires between the unpair and the end of the ladder. */
  datatype CycleScript = CycleScript(
    linkAlive: bool, first: Attempt, second: Attempt, unpair: UnpairScript, savesBond: bool, third: Attempt,
    now: real, setupFails: bool)

  // ----- the log -----

  /** The facts a destructive step is taken on. */
  datatype UnpairCase = UnpairCase(migration: bool, affinity: Option<string>, authFailSeen: bool)

  datatype Entry =
    | CycleStart(frozenDevice: Option<Device>, frozenSource: Option<string>)
    | Rung(device: Device, source: Option<string>)
    | LinkUp(source: Option<string>, on: Option<string>, affinity: Option<string>)
    | Classified(cls: FailureClass)
    | UnpairRung(facts: UnpairCase)
    | Request(facts: UnpairCase)
    | BondCall(call: Call)
    | Learned(learned: string)
    | Saved
    | Restarted

  // ----- the state -----

  /** The cached device, the sources it is tied to, and the pair frozen for the connect cycle in progress. */
  datatype Radio = Radio(
    device: Option<Device>,
    deviceSource: Option<string>,
    affinity: Option<string>,
    hint: Option<string>,
    cycleDevice: Option<Device>,
    cycleSource: Option<string>)

  datatype Episode = Episode(
    connected: bool,
    migrationPending: bool,
    authFailSeen: bool,
    lastFailureClass: Option<FailureClass>,
    unpaired: bool,
    failures: int,
    repairs: nat,
    classes: set<Option<FailureClass>>,
    absent: bool)

  /** `store` is the bond document in storage, which may be older than the bond machine. */
  datatype Client = Client(radio: Radio, episode: Episode, bond: Bond, store: map<string, Json>, log: seq<Entry>)

  function Log(c: Client, e: Entry): Client {
    c.(log := c.log + [e])
  }

  function CallBond(c: Client, call: Call): Client {
    Log(c.(bond := Apply(c.bond, call)), BondCall(call))
  }

  function SaveBond(c: Client): Client {
    Log(c.(store := AsDict(c.bond)), Saved)
  }

  // ----- device and source -----

  function AdvertSource(ad: Advert): Option<string> {
    if ad.source.Some? then ad.source
    else if Truthy(ad.device.detailsSource) then ad.device.detailsSource else None
  }

  predicate Adopts(r: Radio, ad: Advert) {
    var preferred := Or(r.affinity, r.hint);
    preferred.None? || Norm(AdvertSource(ad)) == Norm(preferred)
  }

  function SetBleDevice(r: Radio, ad: Advert): Radio {
    if Adopts(r, ad) then r.(device := Some(ad.device), deviceSource := AdvertSource(ad)) else r
  }

  function SetBleDevices(r: Radio, ads: seq<Advert>): Radio {
    if ads == [] then r else SetBleDevice(SetBleDevices(r, ads[..|ads| - 1]), ads[|ads| - 1])
  }

  function SetAffinity(r: Radio, source: Option<string>): Radio {
    if Norm(source) == Norm(r.affinity) then r.(affinity := source)
    else
      var moved := r.(affinity := source, hint := if source.Some? then None else r.hint);
      if source.Some? && Norm(r.deviceSource) != Norm(source)
      then moved.(device := None, deviceSource := None, cycleDevice := None, cycleSource := None)
      else moved
  }

  // ----- one rung -----

  datatype Verdict = Handshaken | Failed | Aborted

  function RungDevice(r: Radio): Option<Device> {
    if r.cycleDevice.Some? then r.cycleDevice else r.device
  }

  function RungSource(r: Radio): Option<string> {
    Or(r.cycleSource, r.deviceSource)
  }

  /** The scanner the link came up on is the pinned one; without a pin nothing is checked. */
  predicate SourceVerified(source: Option<string>, on: Option<string>) {
    Truthy(source) ==> on.Some? && Norm(on) == Norm(source)
  }

  function RecordFailure(c: Client, cls: FailureClass): Client {
    Log(c.(episode := c.episode.(lastFailureClass := Some(cls), authFailSeen := c.episode.authFailSeen || cls == Auth)),
        Classified(cls))
  }

  /** Starts a rung on the frozen pair and lets the advertisements in that arrive while it runs. */
  function StartRung(c: Client, device: Device, during: seq<Advert>): Client {
    Log(c, Rung(device, RungSource(c.radio))).(radio := SetBleDevices(c.radio, during))
  }

  /** How a started rung ends: only a link on the pinned source carries handshake traffic. */
  function Conclude(c: Client, source: Option<string>, outcome: LinkOutcome): (Client, Verdict) {
    match outcome
    case EstablishFails(cls) => (RecordFailure(c, cls), Failed)
    case Lands(on, alive, session) =>
      if !SourceVerified(source, on) then (RecordFailure(c, LinkFail), Failed)
      else if !alive then (c, Failed)
      else Converse(Log(c, LinkUp(source, on, c.radio.affinity)), session)
  }

  function Converse(c: Client, session: Session): (Client, Verdict) {
    match session
    case NotifyFails(cls) => (RecordFailure(c, cls), Failed)
    case HandshakeFails => (RecordFailure(c, Handshake), Failed)
    case HandshakeRaises => (c, Aborted)
    case HandshakeDone => (c, Handshaken)
  }

  function TryConnect(c: Client, a: Attempt): (Client, Verdict) {
    var device := RungDevice(c.radio);
    if device.None? then (c, Aborted)
    else Conclude(StartRung(c, device.value, a.during), RungSource(c.radio), a.outcome)
  }

  // ----- the destructive rung -----

  function OutcomeOf(raw: RawReply): UnpairOutcome {
    match raw
    case ReplyBool(b) => if b then Confirmed else NotSent
    case ReplyNone => NotSent
    case ReplyOutcome(o) => o
    case ReplyText(text) =>
      if text == "confirmed" then Confirmed else if text == "not_sent" then NotSent else AttemptedUnconfirmed
  }

  function CaseOf(c: Client): UnpairCase {
    UnpairCase(c.episode.migrationPending, c.radio.affinity, c.episode.authFailSeen)
  }

  /** A destructive request that may have left for the radio. */
  function Dispatch(c: Client): Client {
    Log(c, Request(CaseOf(c)))
  }

  function RecordAttempt(c: Client, op: string, now: real): Client {
    CallBond(c.(episode := c.episode.(unpaired := true)), BondDestroyed(op, "rung3", now))
  }

  predicate CallbackSends(callback: Callback) {
    callback.Raises? || (callback.Replies? && OutcomeOf(callback.raw) != NotSent)
  }

  function FallbackUnpair(c: Client, u: UnpairScript): (Client, UnpairOutcome) {
    var device, source := RungDevice(c.radio), RungSource(c.radio);
    if device.None? then (c, NotSent)
    else
      var tried := StartRung(c, device.value, u.during);
      if u.link.Refused? || !SourceVerified(source, u.link.on) then (tried, NotSent)
      else CallUnpair(tried, u.call, u.now)
  }

  function CallUnpair(c: Client, call: UnpairCall, now: real): (Client, UnpairOutcome) {
    match call
    case NotImplemented => (c, NotSent)
    case Fails => (RecordAttempt(Dispatch(c), "connect_unpair_attempted_unconfirmed", now), AttemptedUnconfirmed)
    case Returns => (RecordAttempt(Dispatch(c), "connect_unpair", now), Confirmed)
  }

  /** Advertisements keep arriving while the callback is awaited. */
  function Ask(c: Client, u: UnpairScript): Client {
    if u.callback.Absent? then c
    else
      var heard := c.(radio := SetBleDevices(c.radio, u.asking));
      if CallbackSends(u.callback) then Dispatch(heard) else heard
  }

  function TryUnpair(c: Client, u: UnpairScript): (Client, UnpairOutcome) {
    var asked := Ask(c, u);
    match u.callback
    case Absent => FallbackUnpair(asked, u)
    case Raises => (RecordAttempt(asked, "proxy_unpair_attempted_unconfirmed", u.now), AttemptedUnconfirmed)
    case Replies(raw) =>
      match OutcomeOf(raw)
      case Confirmed => (RecordAttempt(asked, "proxy_unpair", u.now), Confirmed)
      case AttemptedUnconfirmed =>
        (RecordAttempt(asked, "proxy_unpair_attempted_unconfirmed", u.now), AttemptedUnconfirmed)
      case NotSent => FallbackUnpair(asked, u)
  }

  /** The evidence asked for outside migration. */
  predicate SuspectsStaleBond(c: Client) {
    !c.episode.migrationPending && c.radio.affinity.Some? && AllowUnpair(c.bond, c.episode.authFailSeen)
  }

  /** What justifies forgetting a bond: the target's own rejection while migrating, repeated evidence otherwise. */
  predicate MayUnpair(c: Client) {
    && !c.episode.unpaired
    && if c.episode.migrationPending then c.episode.authFailSeen else SuspectsStaleBond(c)
  }

  // ----- one cycle -----

  /** The source that completed the frozen cycle ends a migration and, when none is known, becomes the affinity. */
  function LearnSource(c: Client): Client {
    var source := RungSource(c.radio);
    if !Truthy(source) then c
    else
      var settled := c.(episode := c.episode.(migrationPending := false));
      if c.radio.affinity.None?
      then Log(settled.(radio := SetAffinity(c.radio, source)), Learned(source.value))
      else settled
  }

  /** A new failure episode. */
  function Renewed(c: Client): Client {
    c.(episode :=
         c.episode.(connected := true, failures := 0, unpaired := false, classes := {}, absent := false))
  }

  function Succeed(c: Client, now: real): Client {
    LearnSource(CallBond(Renewed(c), HandshakeSuccess(now)))
  }

  function UnpairAndRetry(c: Client, s: CycleScript): (Client, Verdict) {
    var (unpaired, outcome) := TryUnpair(Log(c, UnpairRung(CaseOf(c))), s.unpair);
    FinishLadder(unpaired, outcome, s)
  }

  function FinishLadder(c: Client, outcome: UnpairOutcome, s: CycleScript): (Client, Verdict) {
    if outcome == NotSent then (c, Failed) else TryConnect(if s.savesBond then SaveBond(c) else c, s.third)
  }

  function FirstRungs(c: Client, s: CycleScript): (Client, Verdict) {
    var (c1, v1) := TryConnect(c, s.first);
    if v1 != Failed then (c1, v1) else TryConnect(c1, s.second)
  }

  function Ladder(c: Client, s: CycleScript): (Client, Verdict) {
    var (c2, v2) := FirstRungs(c, s);
    if v2 != Failed || !MayUnpair(c2) then (c2, v2) else UnpairAndRetry(c2, s)
  }

  function Disconnected(c: Client): Client {
    c.(episode := c.episode.(connected := false))
  }

  function ConnectImpl(c: Client, s: CycleScript): (Client, bool) {
    if c.episode.connected && s.linkAlive then (c, true)
    else
      var (after, verdict) := Ladder(c.(episode := c.episode.(authFailSeen := false)), s);
      Settle(after, verdict, s)
  }

  /** How a cycle ends once the ladder is climbed. */
  function Settle(c: Client, verdict: Verdict, s: CycleScript): (Client, bool) {
    match verdict
    case Failed => (c, false)
    case Aborted => (Disconnected(c), false)
    case Handshaken =>
      var done := Succeed(c, s.now);
      if s.setupFails then (Disconnected(done), false) else (done, true)
  }

  function Freeze(c: Client): Client {
    Log(c.(radio := c.radio.(cycleDevice := c.radio.device, cycleSource := c.radio.deviceSource)),
        CycleStart(c.radio.device, c.radio.deviceSource))
  }

  /** The end of a cycle: an upgrade hint its own source rejected is dropped with its device, and the pair unfrozen. */
  function Thaw(r: Radio, authFailSeen: bool): Radio {
    var dropsHint := r.affinity.None? && r.hint.Some? && authFailSeen && Norm(r.cycleSource) == Norm(r.hint);
    var dropsDevice := dropsHint && Norm(r.deviceSource) == Norm(r.cycleSource);
    Radio(if dropsDevice then None else r.device, if dropsDevice then None else r.deviceSource,
          r.affinity, if dropsHint then None else r.hint, None, None)
  }

  function Connect(c: Client, s: CycleScript): (Client, bool) {
    var (after, ok) := ConnectImpl(Freeze(c), s);
    (after.(radio := Thaw(after.radio, after.episode.authFailSeen)), ok)
  }

  // ----- after a failed cycle -----

  /** The class a failed cycle is reported with: its own AUTH verdict, else whatever class was recorded last. */
  function ReportedClass(e: Episode): Option<FailureClass> {
    var cls := if e.authFailSeen then Some(Auth) else e.lastFailureClass;
    if cls == Some(Auth) && e.migrationPending then Some(LinkFail) else cls
  }

  function WithClass(e: Episode, cls: Option<FailureClass>): Episode {
    e.(classes := e.classes + {cls})
  }

  /** The failure counter and the firings of the repair callback after one more failed cycle. */
  function Counters(failures: int, repairs: nat, threshold: int, installed: bool): (int, nat) {
    if threshold > 0 && failures + 1 >= threshold && installed then (0, repairs + 1) else (failures + 1, repairs)
  }

  function CountFailure(e: Episode, threshold: int, installed: bool): Episode {
    var (failures, repairs) := Counters(e.failures, e.repairs, threshold, installed);
    e.(failures := failures, repairs := repairs)
  }

  function NoteFailure(c: Client, threshold: int, installed: bool, now: real): Client {
    var cls := ReportedClass(c.episode);
    CallBond(c.(episode := CountFailure(WithClass(c.episode, cls), threshold, installed)), CycleFailure(cls, now))
  }

  /** The failure episode looks like an ordinary power-off: only timeouts and lost links, and the device off the air. */
  predicate LooksLikePowerOff(e: Episode, starved: bool, present: Option<bool>) {
    && e.classes != {}
    && e.classes <= {Some(Timeout), Some(LinkFail)}
    && !starved
    && (e.absent || present == Some(false))
  }
}
