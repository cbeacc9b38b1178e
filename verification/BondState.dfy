/** The bond-health state machine, its persisted snapshot, and what its state means in terms of the calls made. */
module BondState {
  import opened Prelude

  const AUTH_CYCLES_FOR_MISMATCH := 2
  const HISTORY_LEN := 20

  datatype State = Unknown | Trusted | Suspect | Mismatch | PairingRequired

  datatype FailureClass = Auth | Timeout | LinkFail | Handshake

  function StateName(s: State): string {
    match s
    case Unknown => "unknown"
    case Trusted => "trusted"
    case Suspect => "suspect"
    case Mismatch => "mismatch"
    case PairingRequired => "pairing_required"
  }

  function StateOfName(j: Json): State {
    if j == JText("trusted") then Trusted
    else if j == JText("suspect") then Suspect
    else if j == JText("mismatch") then Mismatch
    else if j == JText("pairing_required") then PairingRequired
    else Unknown
  }

  /** The fields of the machine. The three timestamps and the entries of the history are stored values. */
  datatype Bond = Bond(
    state: State,
    authFailCycles: int,
    lastHandshakeAt: Json,
    lastAuthFailAt: Json,
    bondDestroyedAt: Json,
    history: seq<Json>)

  const FRESH := Bond(Unknown, 0, JNull, JNull, JNull, [])

  predicate IsNumber(j: Json) {
    j.JInt? || j.JFloat? || j.JBool?
  }

  predicate IsStamp(j: Json) {
    j.JNull? || IsNumber(j)
  }

  predicate ValidBond(b: Bond) {
    && IsStamp(b.lastHandshakeAt) && IsStamp(b.lastAuthFailAt) && IsStamp(b.bondDestroyedAt)
    && |b.history| <= HISTORY_LEN
    && forall op | op in b.history :: op.JDict?
  }

  // ----- the calls -----

  datatype Call =
    | HandshakeSuccess(now: real)
    | CycleFailure(cls: Option<FailureClass>, now: real)
    | BondDestroyed(op: string, trigger: string, now: real)

  /** What `deque(maxlen=20)` keeps. */
  function Bounded(history: seq<Json>): (kept: seq<Json>) {
    if |history| > HISTORY_LEN then history[|history| - HISTORY_LEN..] else history
  }

  function Entry(b: Bond, event: string, now: real, extra: map<string, Json>): Json {
    JDict(map["ts" := JFloat(now), "event" := JText(event), "state" := JText(StateName(b.state)),
              "auth_fail_cycles" := JInt(b.authFailCycles)] + extra)
  }

  function Record(b: Bond, event: string, now: real, extra: map<string, Json>): Bond {
    b.(history := Bounded(b.history + [Entry(b, event, now, extra)]))
  }

  function Apply(b: Bond, c: Call): Bond {
    match c
    case HandshakeSuccess(now) =>
      Record(b.(lastHandshakeAt := JFloat(now), authFailCycles := 0, state := Trusted), "handshake_success", now, map[])
    case CycleFailure(cls, now) =>
      if cls != Some(Auth) then b
      else
        var counted := b.(authFailCycles := b.authFailCycles + 1, lastAuthFailAt := JFloat(now));
        if b.state == PairingRequired then Record(counted, "auth_fail_while_pairing_required", now, map[])
        else
          Record(counted.(state := if counted.authFailCycles >= AUTH_CYCLES_FOR_MISMATCH then Mismatch else Suspect),
                 "auth_fail", now, map[])
    case BondDestroyed(op, trigger, now) =>
      Record(b.(bondDestroyedAt := JFloat(now), state := PairingRequired), "bond_destroyed", now,
             map["op" := JText(op), "trigger" := JText(trigger)])
  }

  function AllowUnpair(b: Bond, currentCycleAuth: bool): bool {
    b.state == Mismatch || (b.state == Suspect && currentCycleAuth)
  }

  function AsDict(b: Bond): map<string, Json> {
    map["state" := JText(StateName(b.state)), "auth_fail_cycles" := JInt(b.authFailCycles),
        "last_handshake_at" := b.lastHandshakeAt, "last_auth_fail_at" := b.lastAuthFailAt,
        "bond_destroyed_at" := b.bondDestroyedAt, "history" := JList(b.history)]
  }

  function StampOf(j: Json): Json {
    if IsNumber(j) then j else JNull
  }

  function OnlyDicts(items: seq<Json>): (r: seq<Json>)
    ensures |r| <= |items|
    ensures forall op | op in r :: op.JDict?
    ensures (forall op | op in items :: op.JDict?) ==> r == items
  {
    if items == [] then [] else (if items[0].JDict? then [items[0]] else []) + OnlyDicts(items[1..])
  }

  /** The dictionaries are kept in order, wherever the rest stands. */
  lemma {:induction false} OnlyDictsSplits(a: seq<Json>, b: seq<Json>)
    ensures OnlyDicts(a + b) == OnlyDicts(a) + OnlyDicts(b)
  {
    if a == [] {
      assert a + b == b;
    } else {
      var rest, whole := a[1..], a + b;
      assert whole[0] == a[0] && whole[1..] == rest + b;
      OnlyDictsSplits(rest, b);
      var first := if a[0].JDict? then [a[0]] else [];
      assert OnlyDicts(whole) == first + OnlyDicts(rest + b);
      assert first + (OnlyDicts(rest) + OnlyDicts(b)) == (first + OnlyDicts(rest)) + OnlyDicts(b);
    }
  }

  /** Best-effort restore of any stored document; a malformed field falls back to its default. */
  function Restore(data: map<string, Json>): (b: Bond)
    ensures ValidBond(b)
  {
    Bond(StateOfName(Get(data, "state")), AsInt(Get(data, "auth_fail_cycles")).GetOr(0),
         StampOf(Get(data, "last_handshake_at")), StampOf(Get(data, "last_auth_fail_at")),
         StampOf(Get(data, "bond_destroyed_at")),
         var history := Get(data, "history");
         if history.JList? then OnlyDicts(Bounded(history.items)) else [])
  }

  // ----- the machine -----

  class BondStateMachine {
    var state: State
    var authFailCycles: int
    var lastHandshakeAt: Json
    var lastAuthFailAt: Json
    var bondDestroyedAt: Json
    var history: seq<Json>

    function Value(): Bond
      reads this
    {
      Bond(state, authFailCycles, lastHandshakeAt, lastAuthFailAt, bondDestroyedAt, history)
    }

    constructor (initial: map<string, Json>)
      ensures Value() == if initial == map[] then FRESH else Restore(initial)
      ensures ValidBond(Value())
    {
      var b := if initial == map[] then FRESH else Restore(initial);
      state, authFailCycles := b.state, b.authFailCycles;
      lastHandshakeAt, lastAuthFailAt, bondDestroyedAt := b.lastHandshakeAt, b.lastAuthFailAt, b.bondDestroyedAt;
      history := b.history;
    }

    method OnHandshakeSuccess(now: real)
      modifies this
      ensures Value() == Apply(old(Value()), HandshakeSuccess(now))
    {
      lastHandshakeAt := JFloat(now);
      authFailCycles := 0;
      Transition(Trusted, "handshake_success", now, map[]);
    }

    method OnCycleFailure(cls: Option<FailureClass>, now: real)
      modifies this
      ensures Value() == Apply(old(Value()), CycleFailure(cls, now))
    {
      if cls != Some(Auth) {
        return;
      }
      authFailCycles := authFailCycles + 1;
      lastAuthFailAt := JFloat(now);
      if state == PairingRequired {
        RecordOp("auth_fail_while_pairing_required", now, map[]);
        return;
      }
      if authFailCycles >= AUTH_CYCLES_FOR_MISMATCH {
        Transition(Mismatch, "auth_fail", now, map[]);
      } else {
        Transition(Suspect, "auth_fail", now, map[]);
      }
    }

    method OnBondDestroyed(op: string, trigger: string, now: real)
      modifies this
      ensures Value() == Apply(old(Value()), BondDestroyed(op, trigger, now))
    {
      bondDestroyedAt := JFloat(now);
      Transition(PairingRequired, "bond_destroyed", now, map["op" := JText(op), "trigger" := JText(trigger)]);
    }

    method Transition(newState: State, event: string, now: real, extra: map<string, Json>)
      modifies this
      ensures Value() == Record(old(Value()).(state := newState), event, now, extra)
    {
      state := newState;
      RecordOp(event, now, extra);
    }

    method RecordOp(event: string, now: real, extra: map<string, Json>)
      modifies `history
      ensures Value() == Record(old(Value()), event, now, extra)
    {
      history := Bounded(history + [Entry(Value(), event, now, extra)]);
    }
  }

  // ----- runs -----

  function Run(b: Bond, calls: seq<Call>): Bond {
    if calls == [] then b else Apply(Run(b, calls[..|calls| - 1]), calls[|calls| - 1])
  }

  lemma {:induction false} RunStaysValid(b: Bond, calls: seq<Call>)
    requires ValidBond(b)
    ensures ValidBond(Run(b, calls))
  {
    if calls != [] {
      RunStaysValid(b, calls[..|calls| - 1]);
      ApplyStaysValid(Run(b, calls[..|calls| - 1]), calls[|calls| - 1]);
    }
  }

  lemma ApplyStaysValid(b: Bond, c: Call)
    requires ValidBond(b)
    ensures ValidBond(Apply(b, c))
  {
  }

  lemma SnapshotIsLossless(b: Bond)
    requires ValidBond(b)
    ensures Restore(AsDict(b)) == b
  {
  }

  /** Overwriting one key of a stored document leaves the fields of the other keys as they were, and a value the field
      cannot hold costs that field only, which falls back to its default. */
  lemma RestoreIsBestEffort(data: map<string, Json>, key: string, j: Json)
    ensures var before, after := Restore(data), Restore(data[key := j]);
            && (key != "state" ==> after.state == before.state)
            && (key != "auth_fail_cycles" ==> after.authFailCycles == before.authFailCycles)
            && (key != "last_handshake_at" ==> after.lastHandshakeAt == before.lastHandshakeAt)
            && (key != "last_auth_fail_at" ==> after.lastAuthFailAt == before.lastAuthFailAt)
            && (key != "bond_destroyed_at" ==> after.bondDestroyedAt == before.bondDestroyedAt)
            && (key != "history" ==> after.history == before.history)
    ensures var after := Restore(data[key := j]);
            && (key == "state" && !j.JText? ==> after.state == Unknown)
            && (key == "auth_fail_cycles" && !j.JInt? && !j.JBool? ==> after.authFailCycles == 0)
            && (key == "history" && !j.JList? ==> after.history == [])
  {
  }

  /** A restored history is the dictionaries among the newest twenty items of the stored list. */
  lemma RestoredHistoryIsLatest(data: map<string, Json>, items: seq<Json>)
    ensures exists kept :: LatestOf(items, kept) &&
                           Restore(data["history" := JList(items)]).history == OnlyDicts(kept)
  {
    assert LatestOf(items, Bounded(items));
  }

  /** The persisted snapshot loses nothing: the restored machine is the same, so every future call sequence is too. */
  lemma RestoreIsBisimilar(start: map<string, Json>, before: seq<Call>, after: seq<Call>)
    ensures var b := Run(Restore(start), before);
            && Restore(AsDict(b)) == b
            && Run(Restore(AsDict(b)), after) == Run(b, after)
            && AsDict(Run(Restore(AsDict(b)), after)) == AsDict(Run(b, after))
  {
    RunStaysValid(Restore(start), before);
  }

  predicate IsNoise(c: Call) {
    c.CycleFailure? && c.cls != Some(Auth)
  }

  function WithoutNoise(calls: seq<Call>): seq<Call> {
    if calls == [] then []
    else
      WithoutNoise(calls[..|calls| - 1]) + if IsNoise(calls[|calls| - 1]) then [] else [calls[|calls| - 1]]
  }

  /** Timeouts, link drops and failed handshakes change nothing, wherever they are in a run. */
  lemma {:induction false} NoiseChangesNothing(b: Bond, calls: seq<Call>)
    ensures Run(b, WithoutNoise(calls)) == Run(b, calls)
  {
    if calls != [] {
      var most, last := calls[..|calls| - 1], calls[|calls| - 1];
      NoiseChangesNothing(b, most);
      if IsNoise(last) {
        assert WithoutNoise(calls) == WithoutNoise(most);
      } else {
        assert WithoutNoise(calls)[..|WithoutNoise(most)|] == WithoutNoise(most);
      }
    }
  }

  // ----- what the state means -----

  /** AUTH reports since the last handshake of a run. */
  function AuthReports(calls: seq<Call>): nat {
    if calls == [] then 0
    else
      var earlier, last := AuthReports(calls[..|calls| - 1]), calls[|calls| - 1];
      match last
      case HandshakeSuccess(_) => 0
      case CycleFailure(cls, _) => if cls == Some(Auth) then earlier + 1 else earlier
      case BondDestroyed(_, _, _) => earlier
  }

  ghost predicate EverTrusted(calls: seq<Call>) {
    exists h :: 0 <= h < |calls| && calls[h].HandshakeSuccess?
  }

  /** A bond operation ran and no handshake has succeeded since. */
  ghost predicate DestroyedSinceHandshake(calls: seq<Call>) {
    exists d :: DestroyedAt(calls, d)
  }

  ghost predicate DestroyedAt(calls: seq<Call>, d: int) {
    && 0 <= d < |calls|
    && calls[d].BondDestroyed?
    && forall h | d < h < |calls| :: !calls[h].HandshakeSuccess?
  }

  lemma DestroyedNext(calls: seq<Call>, c: Call)
    ensures DestroyedSinceHandshake(calls + [c]) <==>
            c.BondDestroyed? || (!c.HandshakeSuccess? && DestroyedSinceHandshake(calls))
  {
    var all := calls + [c];
    assert all[|calls|] == c;
    if c.BondDestroyed? {
      assert DestroyedAt(all, |calls|);
    } else {
      if d :| DestroyedAt(calls, d) {
        assert !c.HandshakeSuccess? ==> DestroyedAt(all, d);
      }
      if d :| DestroyedAt(all, d) {
        assert forall h | 0 <= h < |calls| :: all[h] == calls[h];
        assert DestroyedAt(calls, d);
      }
    }
  }

  lemma TrustedNext(calls: seq<Call>, c: Call)
    ensures EverTrusted(calls + [c]) <==> c.HandshakeSuccess? || EverTrusted(calls)
  {
    var all := calls + [c];
    assert all[|calls|] == c;
    assert forall h | 0 <= h < |calls| :: all[h] == calls[h];
  }

  ghost function StateAfter(calls: seq<Call>): State {
    if DestroyedSinceHandshake(calls) then PairingRequired
    else if AuthReports(calls) >= 2 then Mismatch
    else if AuthReports(calls) == 1 then Suspect
    else if EverTrusted(calls) then Trusted else Unknown
  }

  /** From a fresh machine, the state says exactly which AUTH reports and destructions the last handshake left behind. */
  lemma {:induction false} StateIsExact(calls: seq<Call>)
    ensures Run(FRESH, calls).authFailCycles == AuthReports(calls)
    ensures Run(FRESH, calls).state == StateAfter(calls)
  {
    if calls != [] {
      var most, last := calls[..|calls| - 1], calls[|calls| - 1];
      assert calls == most + [last];
      StateIsExact(most);
      DestroyedNext(most, last);
      TrustedNext(most, last);
    }
  }

  /** Destruction is allowed exactly on two AUTH verdicts since the last handshake, none of them already acted on. */
  lemma UnpairNeedsTwoVerdicts(calls: seq<Call>, currentCycleAuth: bool)
    ensures AllowUnpair(Run(FRESH, calls), currentCycleAuth) <==>
            !DestroyedSinceHandshake(calls) && AuthReports(calls) + (if currentCycleAuth then 1 else 0) >= 2
  {
    StateIsExact(calls);
  }

  // ----- the audit trail -----

  predicate IsHandshakeCall(c: Call) {
    c.HandshakeSuccess?
  }

  predicate IsAuthCall(c: Call) {
    c.CycleFailure? && c.cls == Some(Auth)
  }

  predicate IsDestroyCall(c: Call) {
    c.BondDestroyed?
  }

  /** When the last such call was made. */
  function LastTime(calls: seq<Call>, kind: Call -> bool): Json {
    if calls == [] then JNull
    else if kind(calls[|calls| - 1]) then JFloat(calls[|calls| - 1].now)
    else LastTime(calls[..|calls| - 1], kind)
  }

  /** Each stamp is the time of the last call of its own kind. */
  lemma {:induction false} StampsAreExact(calls: seq<Call>)
    ensures var b := Run(FRESH, calls);
            && b.lastHandshakeAt == LastTime(calls, IsHandshakeCall)
            && b.lastAuthFailAt == LastTime(calls, IsAuthCall)
            && b.bondDestroyedAt == LastTime(calls, IsDestroyCall)
  {
    if calls != [] {
      StampsAreExact(calls[..|calls| - 1]);
    }
  }

  ghost function EventName(most: seq<Call>, last: Call): string {
    match last
    case HandshakeSuccess(_) => "handshake_success"
    case CycleFailure(_, _) =>
      if DestroyedSinceHandshake(most) then "auth_fail_while_pairing_required" else "auth_fail"
    case BondDestroyed(_, _, _) => "bond_destroyed"
  }

  /** What the last call leaves in the audit trail: its time and event, and the state and counter the calls lead to. */
  ghost function AuditEntry(calls: seq<Call>): Json
    requires calls != []
  {
    var most, last := calls[..|calls| - 1], calls[|calls| - 1];
    var extra := if last.BondDestroyed? then map["op" := JText(last.op), "trigger" := JText(last.trigger)] else map[];
    JDict(map["ts" := JFloat(last.now), "event" := JText(EventName(most, last)),
              "state" := JText(StateName(StateAfter(calls))), "auth_fail_cycles" := JInt(AuthReports(calls))] + extra)
  }

  /** Every entry ever recorded, in order: one for each call that is not noise. */
  ghost function Audit(calls: seq<Call>): seq<Json> {
    if calls == [] then []
    else Audit(calls[..|calls| - 1]) + if IsNoise(calls[|calls| - 1]) then [] else [AuditEntry(calls)]
  }

  /** The newest entries of the full history, all of them while there are at most twenty. */
  ghost predicate LatestOf(all: seq<Json>, kept: seq<Json>) {
    && |kept| == (if |all| < HISTORY_LEN then |all| else HISTORY_LEN)
    && kept == all[|all| - |kept|..]
  }

  /** From a fresh machine, the history is the newest twenty entries of the whole audit trail. */
  lemma {:induction false} HistoryIsExact(calls: seq<Call>)
    ensures LatestOf(Audit(calls), Run(FRESH, calls).history)
  {
    if calls != [] {
      var most, last := calls[..|calls| - 1], calls[|calls| - 1];
      assert calls == most + [last];
      HistoryIsExact(most);
      if IsNoise(last) {
        assert Audit(calls) == Audit(most);
      } else {
        LastCallIsAudited(most, last);
        OneMoreEntry(Audit(most), Run(FRESH, most).history, AuditEntry(calls));
      }
    }
  }

  lemma LastCallIsAudited(most: seq<Call>, last: Call)
    requires !IsNoise(last)
    ensures Run(FRESH, most + [last]).history == Bounded(Run(FRESH, most).history + [AuditEntry(most + [last])])
  {
    assert (most + [last])[..|most|] == most;
    StateIsExact(most);
    StateIsExact(most + [last]);
    RecordsEntry(Run(FRESH, most), last, EventName(most, last));
  }

  /** One call appends one entry, which shows the machine as it is then. */
  lemma RecordsEntry(b: Bond, c: Call, event: string)
    requires !IsNoise(c)
    requires event == match c
                      case HandshakeSuccess(_) => "handshake_success"
                      case CycleFailure(_, _) =>
                        if b.state == PairingRequired then "auth_fail_while_pairing_required" else "auth_fail"
                      case BondDestroyed(_, _, _) => "bond_destroyed"
    ensures var extra := if c.BondDestroyed? then map["op" := JText(c.op), "trigger" := JText(c.trigger)] else map[];
            Apply(b, c).history == Bounded(b.history + [Entry(Apply(b, c), event, c.now, extra)])
  {
  }

  lemma OneMoreEntry(all: seq<Json>, kept: seq<Json>, entry: Json)
    requires LatestOf(all, kept)
    ensures LatestOf(all + [entry], Bounded(kept + [entry]))
  {
    var longer := kept + [entry];
    assert longer == (all + [entry])[|all| - |kept|..];
    var next := Bounded(longer);
    assert next == longer[|longer| - |next|..] == (all + [entry])[|all| + 1 - |next|..];
  }

  // ----- stored documents nobody vouches for -----

  /** The AUTH reports a document attests: a suspicion counts its cycles, a trusted or unknown bond has none to show. */
  function Attested(b: Bond): int {
    if b.state == Suspect || b.state == Mismatch then b.authFailCycles else 0
  }

  /** The AUTH reports since the last handshake of the calls, and while there is none, those the document attests. */
  function EvidenceOf(b: Bond, calls: seq<Call>): int {
    if calls == [] then Attested(b)
    else
      var earlier, last := EvidenceOf(b, calls[..|calls| - 1]), calls[|calls| - 1];
      match last
      case HandshakeSuccess(_) => 0
      case CycleFailure(cls, _) => if cls == Some(Auth) then earlier + 1 else earlier
      case BondDestroyed(_, _, _) => earlier
  }

  /** State and counter agree: no count without a suspicion, and no suspicion without its count. */
  predicate Consistent(b: Bond) {
    match b.state
    case Unknown => b.authFailCycles <= 0
    case Trusted => b.authFailCycles <= 0
    case Suspect => b.authFailCycles >= 1
    case Mismatch => b.authFailCycles >= 2
    case PairingRequired => true
  }

  /** Destruction needs two verdicts: the evidence and the one in flight. */
  predicate TwoVerdicts(b: Bond, calls: seq<Call>, currentCycleAuth: bool) {
    AllowUnpair(Run(b, calls), currentCycleAuth) ==> EvidenceOf(b, calls) + (if currentCycleAuth then 1 else 0) >= 2
  }

  /** The counter never runs ahead of the evidence, and a suspicion has its evidence. */
  predicate Backed(b: Bond, evidence: int) {
    && evidence >= 0
    && (b.state != PairingRequired ==>
          b.authFailCycles <= evidence && (b.state == Suspect ==> evidence >= 1) && (b.state == Mismatch ==> evidence >= 2))
  }

  lemma {:induction false} RunStaysBacked(b: Bond, calls: seq<Call>)
    requires Consistent(b)
    ensures Backed(Run(b, calls), EvidenceOf(b, calls))
  {
    if calls != [] {
      RunStaysBacked(b, calls[..|calls| - 1]);
    }
  }

  ghost predicate AlwaysTwoVerdicts(b: Bond) {
    forall calls, currentCycleAuth :: TwoVerdicts(b, calls, currentCycleAuth)
  }

  /** The call sequence on which an inconsistent machine allows destruction too early. */
  function EarlyCalls(b: Bond): seq<Call> {
    if b.state in {Unknown, Trusted} then [CycleFailure(Some(Auth), 0.0)] else []
  }

  /** Whatever document was restored, destruction needs two AUTH verdicts for every future call sequence exactly when the
      document was consistent; an inconsistent one breaks the rule at once or on the next AUTH report. */
  lemma TwoVerdictsIffConsistent(data: map<string, Json>)
    ensures AlwaysTwoVerdicts(Restore(data)) <==> Consistent(Restore(data))
  {
    var b := Restore(data);
    if Consistent(b) {
      forall calls, currentCycleAuth ensures TwoVerdicts(b, calls, currentCycleAuth) {
        RunStaysBacked(b, calls);
      }
    } else {
      var calls := EarlyCalls(b);
      if calls != [] {
        assert calls[..0] == [];
        assert Run(b, calls) == Apply(b, calls[0]) && EvidenceOf(b, calls) == 1;
      }
      assert !TwoVerdicts(b, calls, b.state == Suspect);
    }
  }

  /** Every document a machine writes is consistent. */
  lemma WrittenDocumentsAreConsistent(calls: seq<Call>)
    ensures Consistent(Restore(AsDict(Run(FRESH, calls))))
  {
    StateIsExact(calls);
    RunStaysValid(FRESH, calls);
    SnapshotIsLossless(Run(FRESH, calls));
  }

  /** Documents that break the rule: MISMATCH with no counted cycle, at once, and TRUSTED with one, on a single report. */
  lemma MalformedStoreAllowsUnpair()
    ensures var b := Restore(map["state" := JText("mismatch"), "auth_fail_cycles" := JNull]);
            !Consistent(b) && EvidenceOf(b, []) == 0 && AllowUnpair(b, false)
    ensures var b := Restore(map["state" := JText("trusted"), "auth_fail_cycles" := JInt(1)]);
            var calls := [CycleFailure(Some(Auth), 0.0)];
            !Consistent(b) && EvidenceOf(b, calls) == 1 && AllowUnpair(Run(b, calls), false)
  {
    var b := Restore(map["state" := JText("trusted"), "auth_fail_cycles" := JInt(1)]);
    var calls := [CycleFailure(Some(Auth), 0.0)];
    assert calls[..0] == [];
    assert Run(b, calls) == Apply(b, calls[0]);
  }
}
