/**
 Whether the evidence the bond machine counts is real. A failed cycle reports its own AUTH verdict, but a cycle that
 recorded no class of its own reports the class of an earlier one, so a report can be stale.
 */
module ConnectEvidence {
  import opened Prelude
  import opened BondState
  import opened ConnectSpec
  import opened ConnectSafety

  // ----- what a log says about its last cycle -----

  /** The failure classes recorded since the last cycle start. */
  function Verdicts(log: seq<Entry>): seq<FailureClass> {
    if log == [] || log[|log| - 1].CycleStart? || log[|log| - 1].Restarted? then []
    else Verdicts(log[..|log| - 1]) + if log[|log| - 1].Classified? then [log[|log| - 1].cls] else []
  }

  /** Those of them recorded since the last handshake: all, unless the cycle itself got a handshake through. */
  function VerdictsSince(log: seq<Entry>): seq<FailureClass> {
    if log == [] || log[|log| - 1].CycleStart? || log[|log| - 1].Restarted? || IsHandshake(log[|log| - 1]) then []
    else VerdictsSince(log[..|log| - 1]) + if log[|log| - 1].Classified? then [log[|log| - 1].cls] else []
  }

  /** The class recorded last since the client was created. */
  function LastClass(log: seq<Entry>): Option<FailureClass> {
    if log == [] || log[|log| - 1].Restarted? then None
    else if log[|log| - 1].Classified? then Some(log[|log| - 1].cls)
    else LastClass(log[..|log| - 1])
  }

  /** The last cycle was noted as failed. */
  function IsNoted(log: seq<Entry>): bool {
    if log == [] || log[|log| - 1].CycleStart? then false
    else IsNote(log[|log| - 1]) || IsNoted(log[..|log| - 1])
  }

  lemma VerdictsNext(log: seq<Entry>, e: Entry)
    ensures Verdicts(log + [e]) == (if e.CycleStart? || e.Restarted? then []
                                    else if e.Classified? then Verdicts(log) + [e.cls] else Verdicts(log))
    ensures VerdictsSince(log + [e]) == (if e.CycleStart? || e.Restarted? || IsHandshake(e) then []
                                         else if e.Classified? then VerdictsSince(log) + [e.cls]
                                         else VerdictsSince(log))
    ensures LastClass(log + [e]) == if e.Restarted? then None else if e.Classified? then Some(e.cls) else LastClass(log)
    ensures IsNoted(log + [e]) == (!e.CycleStart? && (IsNote(e) || IsNoted(log)))
  {
    assert (log + [e])[..|log|] == log;
  }

  lemma {:induction false} LastVerdict(log: seq<Entry>)
    ensures Verdicts(log) != [] ==> LastClass(log) == Some(Verdicts(log)[|Verdicts(log)| - 1])
  {
    if log != [] {
      LastVerdict(log[..|log| - 1]);
    }
  }

  /** The machine rejected an SMP exchange in the last cycle. */
  predicate WasRejected(log: seq<Entry>) {
    Auth in Verdicts(log)
  }

  /** It did so after the last handshake. */
  predicate WasRejectedSince(log: seq<Entry>) {
    Auth in VerdictsSince(log)
  }

  /** It did so before a handshake of the same cycle, which then failed all the same. */
  predicate WasRejectedBefore(log: seq<Entry>) {
    WasRejected(log) && !WasRejectedSince(log)
  }

  lemma {:induction false} SinceIsPart(log: seq<Entry>)
    ensures WasRejectedSince(log) ==> WasRejected(log)
  {
    if log != [] {
      SinceIsPart(log[..|log| - 1]);
    }
  }

  /** The last cycle recorded no class of its own, and an AUTH of an earlier cycle is still remembered. */
  predicate WasStale(log: seq<Entry>) {
    Verdicts(log) == [] && LastClass(log) == Some(Auth)
  }

  // ----- one cycle -----

  /** An entry the ladder may write: the flag an unpair rung acts on is this cycle's own verdict. */
  predicate Calm(log: seq<Entry>, e: Entry) {
    && !e.CycleStart?
    && !e.Restarted?
    && !IsNote(e)
    && (e.UnpairRung? && e.facts.authFailSeen ==> WasRejectedSince(log))
  }

  ghost predicate Grows(start: seq<Entry>, log: seq<Entry>) {
    start <= log && forall i | |start| <= i < |log| :: Calm(log[..i], log[i])
  }

  /** The client remembers the verdicts of the cycle whose log grew from `start`, and before the first one the class
      `before` of an earlier cycle. */
  ghost predicate Tracks(before: Option<FailureClass>, start: seq<Entry>, c: Client) {
    var own := Verdicts(c.log);
    && Grows(start, c.log)
    && (c.episode.authFailSeen <==> Auth in own)
    && c.episode.lastFailureClass == if own == [] then before else Some(own[|own| - 1])
  }

  /** And no handshake has come yet, so that its verdicts all count since the last one. */
  ghost predicate Climbs(before: Option<FailureClass>, start: seq<Entry>, c: Client) {
    Tracks(before, start, c) && VerdictsSince(c.log) == Verdicts(c.log)
  }

  lemma GrowsNext(start: seq<Entry>, log: seq<Entry>, e: Entry)
    requires Grows(start, log) && Calm(log, e)
    ensures Grows(start, log + [e])
  {
    forall i | |start| <= i < |log| + 1 ensures Calm((log + [e])[..i], (log + [e])[i]) {
      assert (log + [e])[..i] == log[..i];
      assert i == |log| ==> log[..i] == log;
    }
  }

  /** One more entry that is no verdict. */
  lemma EntryTracks(before: Option<FailureClass>, start: seq<Entry>, c: Client, e: Entry, c': Client)
    requires Tracks(before, start, c) && Calm(c.log, e) && !e.Classified?
    requires c'.log == c.log + [e]
    requires c'.episode.authFailSeen == c.episode.authFailSeen
    requires c'.episode.lastFailureClass == c.episode.lastFailureClass
    ensures Tracks(before, start, c')
    ensures Climbs(before, start, c) && !IsHandshake(e) ==> Climbs(before, start, c')
  {
    VerdictsNext(c.log, e);
    GrowsNext(start, c.log, e);
  }

  lemma RecordClimbs(before: Option<FailureClass>, start: seq<Entry>, c: Client, cls: FailureClass)
    requires Climbs(before, start, c)
    ensures Climbs(before, start, RecordFailure(c, cls))
  {
    VerdictsNext(c.log, Classified(cls));
    GrowsNext(start, c.log, Classified(cls));
  }

  lemma RungClimbs(before: Option<FailureClass>, start: seq<Entry>, c: Client, a: Attempt)
    requires Climbs(before, start, c)
    ensures Climbs(before, start, TryConnect(c, a).0)
  {
    if RungDevice(c.radio).Some? {
      var tried := StartRung(c, RungDevice(c.radio).value, a.during);
      EntryTracks(before, start, c, Rung(RungDevice(c.radio).value, RungSource(c.radio)), tried);
      ConcludeClimbs(before, start, tried, RungSource(c.radio), a.outcome);
    }
  }

  lemma ConcludeClimbs(
      before: Option<FailureClass>, start: seq<Entry>, c: Client, source: Option<string>, outcome: LinkOutcome)
    requires Climbs(before, start, c)
    ensures Climbs(before, start, Conclude(c, source, outcome).0)
  {
    match outcome {
      case EstablishFails(cls) => RecordClimbs(before, start, c, cls);
      case Lands(on, alive, session) =>
        if !SourceVerified(source, on) {
          RecordClimbs(before, start, c, LinkFail);
        } else if alive {
          var link := LinkUp(source, on, c.radio.affinity);
          EntryTracks(before, start, c, link, Log(c, link));
          ConverseClimbs(before, start, Log(c, link), session);
        }
    }
  }

  lemma ConverseClimbs(before: Option<FailureClass>, start: seq<Entry>, c: Client, session: Session)
    requires Climbs(before, start, c)
    ensures Climbs(before, start, Converse(c, session).0)
  {
    RecordClimbs(before, start, c, Handshake);
    if session.NotifyFails? {
      RecordClimbs(before, start, c, session.cls);
    }
  }

  lemma AttemptClimbs(before: Option<FailureClass>, start: seq<Entry>, c: Client, op: string, now: real)
    requires Climbs(before, start, c)
    ensures Climbs(before, start, RecordAttempt(Dispatch(c), op, now))
  {
    EntryTracks(before, start, c, Request(CaseOf(c)), Dispatch(c));
    var call := BondCall(BondDestroyed(op, "rung3", now));
    EntryTracks(before, start, Dispatch(c), call, RecordAttempt(Dispatch(c), op, now));
  }

  lemma UnpairClimbs(before: Option<FailureClass>, start: seq<Entry>, c: Client, u: UnpairScript)
    requires Climbs(before, start, c)
    ensures Climbs(before, start, TryUnpair(c, u).0)
  {
    if CallbackSends(u.callback) {
      CallbackClimbs(before, start, c, u);
    } else {
      FallbackClimbs(before, start, Ask(c, u), u);
    }
  }

  lemma CallbackClimbs(before: Option<FailureClass>, start: seq<Entry>, c: Client, u: UnpairScript)
    requires Climbs(before, start, c) && CallbackSends(u.callback)
    ensures Climbs(before, start, TryUnpair(c, u).0)
  {
    var heard := c.(radio := SetBleDevices(c.radio, u.asking));
    AttemptClimbs(before, start, heard, "proxy_unpair", u.now);
    AttemptClimbs(before, start, heard, "proxy_unpair_attempted_unconfirmed", u.now);
  }

  lemma FallbackClimbs(before: Option<FailureClass>, start: seq<Entry>, c: Client, u: UnpairScript)
    requires Climbs(before, start, c)
    ensures Climbs(before, start, FallbackUnpair(c, u).0)
  {
    if RungDevice(c.radio).Some? {
      var tried := StartRung(c, RungDevice(c.radio).value, u.during);
      EntryTracks(before, start, c, Rung(RungDevice(c.radio).value, RungSource(c.radio)), tried);
      CallUnpairClimbs(before, start, tried, u.call, u.now);
    }
  }

  lemma CallUnpairClimbs(before: Option<FailureClass>, start: seq<Entry>, c: Client, call: UnpairCall, now: real)
    requires Climbs(before, start, c)
    ensures Climbs(before, start, CallUnpair(c, call, now).0)
  {
    AttemptClimbs(before, start, c, "connect_unpair", now);
    AttemptClimbs(before, start, c, "connect_unpair_attempted_unconfirmed", now);
  }

  lemma UnpairAndRetryClimbs(before: Option<FailureClass>, start: seq<Entry>, c: Client, s: CycleScript)
    requires Climbs(before, start, c)
    ensures Climbs(before, start, UnpairAndRetry(c, s).0)
  {
    var armed := Log(c, UnpairRung(CaseOf(c)));
    EntryTracks(before, start, c, UnpairRung(CaseOf(c)), armed);
    UnpairClimbs(before, start, armed, s.unpair);
    var (unpaired, outcome) := TryUnpair(armed, s.unpair);
    FinishClimbs(before, start, unpaired, outcome, s);
  }

  lemma FinishClimbs(
      before: Option<FailureClass>, start: seq<Entry>, c: Client, outcome: UnpairOutcome, s: CycleScript)
    requires Climbs(before, start, c)
    ensures Climbs(before, start, FinishLadder(c, outcome, s).0)
  {
    EntryTracks(before, start, c, Saved, SaveBond(c));
    RungClimbs(before, start, if s.savesBond then SaveBond(c) else c, s.third);
  }

  lemma LadderClimbs(before: Option<FailureClass>, start: seq<Entry>, c: Client, s: CycleScript)
    requires Climbs(before, start, c)
    ensures Climbs(before, start, Ladder(c, s).0)
  {
    RungClimbs(before, start, c, s.first);
    var c1 := TryConnect(c, s.first).0;
    RungClimbs(before, start, c1, s.second);
    UnpairAndRetryClimbs(before, start, TryConnect(c1, s.second).0, s);
  }

  lemma SettleTracks(before: Option<FailureClass>, start: seq<Entry>, c: Client, verdict: Verdict, s: CycleScript)
    requires Climbs(before, start, c)
    ensures Tracks(before, start, Settle(c, verdict, s).0)
    ensures WasRejectedBefore(Settle(c, verdict, s).0.log) <==> verdict == Handshaken && WasRejected(c.log)
    ensures WasRejected(Settle(c, verdict, s).0.log) <==> WasRejected(c.log)
  {
    if verdict == Handshaken {
      SucceedTracks(before, start, c, s.now);
    }
  }

  lemma SucceedTracks(before: Option<FailureClass>, start: seq<Entry>, c: Client, now: real)
    requires Tracks(before, start, c)
    ensures Tracks(before, start, Succeed(c, now))
    ensures Verdicts(Succeed(c, now).log) == Verdicts(c.log) && VerdictsSince(Succeed(c, now).log) == []
  {
    var call := HandshakeSuccess(now);
    var proven := CallBond(Renewed(c), call);
    EntryTracks(before, start, c, BondCall(call), proven);
    VerdictsNext(c.log, BondCall(call));
    LearnTracks(before, start, proven);
  }

  lemma LearnTracks(before: Option<FailureClass>, start: seq<Entry>, c: Client)
    requires Tracks(before, start, c)
    ensures Tracks(before, start, LearnSource(c))
    ensures Verdicts(LearnSource(c).log) == Verdicts(c.log)
    ensures VerdictsSince(LearnSource(c).log) == VerdictsSince(c.log)
  {
    if Truthy(RungSource(c.radio)) && c.radio.affinity.None? {
      VerdictsNext(c.log, Learned(RungSource(c.radio).value));
      EntryTracks(before, start, c, Learned(RungSource(c.radio).value), LearnSource(c));
    }
  }

  /** The client as a cycle's ladder begins. */
  function Begun(c: Client): Client {
    Freeze(c).(episode := c.episode.(authFailSeen := false))
  }

  predicate IsHandshaken(c: Client, s: CycleScript) {
    Ladder(Begun(c), s).1 == Handshaken
  }

  /** A cycle that runs the ladder remembers exactly its own verdicts, and a rejection precedes a handshake of the same
      cycle exactly when there was such a handshake. */
  lemma CycleTracks(c: Client, s: CycleScript)
    requires !(c.episode.connected && s.linkAlive)
    ensures Tracks(c.episode.lastFailureClass, Freeze(c).log, Connect(c, s).0)
    ensures RejectedBefore(c, s) <==> IsHandshaken(c, s) && Rejected(c, s)
  {
    VerdictsNext(c.log, CycleStart(c.radio.device, c.radio.deviceSource));
    LadderClimbs(c.episode.lastFailureClass, Begun(c).log, Begun(c), s);
    var (after, verdict) := Ladder(Begun(c), s);
    SettleTracks(c.episode.lastFailureClass, Begun(c).log, after, verdict, s);
  }

  /** The machine rejected an SMP exchange in this cycle. */
  predicate Rejected(c: Client, s: CycleScript) {
    WasRejected(Connect(c, s).0.log)
  }

  predicate RejectedSince(c: Client, s: CycleScript) {
    WasRejectedSince(Connect(c, s).0.log)
  }

  predicate RejectedBefore(c: Client, s: CycleScript) {
    WasRejectedBefore(Connect(c, s).0.log)
  }

  predicate Stale(c: Client, s: CycleScript) {
    Verdicts(Connect(c, s).0.log) == [] && c.episode.lastFailureClass == Some(Auth)
  }

  /** Outside migration a cycle is reported as AUTH exactly in one of three cases: it was rejected with no handshake after
      the rejection, it was rejected and then got a handshake through, or it carries a stale verdict. */
  lemma ReportIsOwnOrStale(c: Client, s: CycleScript)
    requires !(c.episode.connected && s.linkAlive)
    requires !Connect(c, s).0.episode.migrationPending
    ensures ReportedClass(Connect(c, s).0.episode) == Some(Auth) <==>
            RejectedSince(c, s) || RejectedBefore(c, s) || Stale(c, s)
    ensures RejectedBefore(c, s) <==> IsHandshaken(c, s) && Rejected(c, s)
    ensures !(RejectedSince(c, s) && RejectedBefore(c, s)) && !(Rejected(c, s) && Stale(c, s))
    ensures RejectedSince(c, s) ==> Rejected(c, s)
  {
    CycleTracks(c, s);
    SinceIsPart(Connect(c, s).0.log);
  }

  // ----- logs whose evidence is accounted for -----

  ghost predicate AccountedNext(log: seq<Entry>, e: Entry) {
    && (e.UnpairRung? && e.facts.authFailSeen ==> WasRejectedSince(log))
    && (IsNote(e) ==> !IsNoted(log))
    && (IsNote(e) && e.call.cls == Some(Auth) ==> WasRejected(log) || WasStale(log))
  }

  /** No cycle is noted twice, every AUTH report is of a rejected or a stale cycle, and every flag an unpair rung acts on
      is a rejection in its own cycle. */
  ghost predicate Accounted(log: seq<Entry>) {
    log == [] || (Accounted(log[..|log| - 1]) && AccountedNext(log[..|log| - 1], log[|log| - 1]))
  }

  lemma AccountedStep(log: seq<Entry>, e: Entry)
    requires Accounted(log) && AccountedNext(log, e)
    ensures Accounted(log + [e])
  {
    assert (log + [e])[..|log|] == log;
  }

  lemma {:induction false} AccountedAt(log: seq<Entry>, l: nat)
    requires Accounted(log) && l < |log|
    ensures Accounted(log[..l]) && AccountedNext(log[..l], log[l])
  {
    var most := log[..|log| - 1];
    if l < |most| {
      AccountedAt(most, l);
      assert most[..l] == log[..l];
    }
  }

  lemma {:induction false} GrowthIsAccounted(start: seq<Entry>, log: seq<Entry>)
    requires Accounted(start) && Grows(start, log) && !IsNoted(start) && Verdicts(start) == []
    ensures Accounted(log) && !IsNoted(log)
    ensures Verdicts(log) == [] ==> LastClass(log) == LastClass(start)
  {
    if |log| > |start| {
      var n := |log| - 1;
      var most := log[..n];
      forall i | |start| <= i < n ensures Calm(most[..i], most[i]) {
        assert most[..i] == log[..i];
      }
      GrowthIsAccounted(start, most);
      assert Calm(log[..n], log[n]);
    } else {
      assert log == start;
    }
  }

  /** Two notes are of two cycles: a cycle starts between them. */
  lemma {:induction false} NotesAreOfDistinctCycles(log: seq<Entry>, k: nat, l: nat)
    requires Accounted(log) && k < l < |log| && IsNote(log[k]) && IsNote(log[l])
    ensures exists i :: k < i < l && log[i].CycleStart?
  {
    AccountedAt(log, l);
    if forall i | k < i < l :: !log[i].CycleStart? {
      NotedSince(log[..l], k);
    }
  }

  lemma {:induction false} NotedSince(log: seq<Entry>, k: nat)
    requires k < |log| && IsNote(log[k]) && forall i | k < i < |log| :: !log[i].CycleStart?
    ensures IsNoted(log)
  {
    if k < |log| - 1 {
      NotedSince(log[..|log| - 1], k);
    }
  }

  /** The noted cycles since the last handshake that are remembered: AUTH reports from before the run, cycles rejected
      since that handshake, cycles rejected before it, which was their own, and stale cycles. */
  datatype Tally = Tally(earlier: nat, rejectedSince: nat, rejectedBefore: nat, stale: nat) {
    function Total(): nat {
      earlier + rejectedSince + rejectedBefore + stale
    }
  }

  function Noted(t: Tally, log: seq<Entry>): Tally {
    Tally(t.earlier, t.rejectedSince + One(WasRejectedSince(log)), t.rejectedBefore + One(WasRejectedBefore(log)),
          t.stale + One(WasStale(log)))
  }

  function One(b: bool): nat {
    if b then 1 else 0
  }

  /** The tally of what the client remembers and of what storage does. */
  function Tallies(prior: seq<Call>, log: seq<Entry>): (Tally, Tally) {
    if log == [] then (Tally(AuthReports(prior), 0, 0, 0), Tally(AuthReports(prior), 0, 0, 0))
    else NextTallies(Tallies(prior, log[..|log| - 1]), log[..|log| - 1], log[|log| - 1])
  }

  function NextTallies(t: (Tally, Tally), log: seq<Entry>, e: Entry): (Tally, Tally) {
    if IsNote(e) then (Noted(t.0, log), t.1)
    else if IsHandshake(e) then (Tally(0, 0, 0, 0), t.1)
    else if e.Saved? then (t.0, t.0)
    else if e.Restarted? then (t.1, t.1)
    else t
  }

  predicate AreTallied(m: Memory, t: (Tally, Tally)) {
    AuthReports(m.now) <= t.0.Total() && AuthReports(m.saved) <= t.1.Total()
  }

  lemma NextIsTallied(m: Memory, t: (Tally, Tally), log: seq<Entry>, e: Entry)
    requires AreTallied(m, t) && AccountedNext(log, e)
    ensures AreTallied(Recall(m, e), NextTallies(t, log, e))
  {
    if e.BondCall? {
      ReportsNext(m.now, e.call);
    }
  }

  lemma ReportsNext(calls: seq<Call>, c: Call)
    ensures AuthReports(calls + [c]) ==
            if c.HandshakeSuccess? then 0
            else AuthReports(calls) + if c.CycleFailure? && c.cls == Some(Auth) then 1 else 0
  {
    assert (calls + [c])[..|calls|] == calls;
  }

  /** The counted AUTH reports are at most the cycles of the tally, whatever was saved or lost. */
  lemma {:induction false} ReportsAreTallied(prior: seq<Call>, log: seq<Entry>)
    requires Accounted(log)
    ensures AreTallied(Remember(prior, log), Tallies(prior, log))
  {
    if log != [] {
      var most, e := log[..|log| - 1], log[|log| - 1];
      ReportsAreTallied(prior, most);
      NextIsTallied(Remember(prior, most), Tallies(prior, most), most, e);
    }
  }

  // ----- runs that note each failed cycle once -----

  /** The last cycle of the run failed and has not been noted. */
  predicate Unnoted(prior: seq<Call>, g: Config, acts: seq<Action>) {
    acts != [] &&
    var most, last := acts[..|acts| - 1], acts[|acts| - 1];
    match last
    case Cycle(script) => !Connect(ConnectSafety.Run(prior, g, most), script).1
    case Note(_, _, _) => false
    case Restart(_) => false
    case _ => Unnoted(prior, g, most)
  }

  /** Only a failed cycle is noted, and only once: what both reconnect loops do. */
  predicate Disciplined(prior: seq<Call>, g: Config, acts: seq<Action>) {
    acts == [] ||
    (Disciplined(prior, g, acts[..|acts| - 1]) &&
     (acts[|acts| - 1].Note? ==> Unnoted(prior, g, acts[..|acts| - 1])))
  }

  ghost predicate EvidenceOk(c: Client, unnoted: bool) {
    && Accounted(c.log)
    && c.episode.lastFailureClass == LastClass(c.log)
    && (unnoted ==> !IsNoted(c.log) && (c.episode.authFailSeen <==> WasRejected(c.log)))
  }

  lemma CycleEvidence(c: Client, s: CycleScript, unnoted: bool)
    requires EvidenceOk(c, unnoted)
    ensures EvidenceOk(Connect(c, s).0, !Connect(c, s).1)
  {
    var e := CycleStart(c.radio.device, c.radio.deviceSource);
    AccountedStep(c.log, e);
    VerdictsNext(c.log, e);
    if !(c.episode.connected && s.linkAlive) {
      CycleTracks(c, s);
      TrackedEvidence(c.episode.lastFailureClass, Freeze(c).log, Connect(c, s).0);
    }
  }

  lemma TrackedEvidence(before: Option<FailureClass>, start: seq<Entry>, c: Client)
    requires Accounted(start) && !IsNoted(start) && Verdicts(start) == [] && LastClass(start) == before
    requires Tracks(before, start, c)
    ensures EvidenceOk(c, true)
  {
    GrowthIsAccounted(start, c.log);
    LastVerdict(c.log);
  }

  lemma NoteEvidence(c: Client, threshold: int, installed: bool, now: real)
    requires EvidenceOk(c, true)
    ensures EvidenceOk(NoteFailure(c, threshold, installed, now), false)
  {
    LastVerdict(c.log);
    var e := BondCall(CycleFailure(ReportedClass(c.episode), now));
    AccountedStep(c.log, e);
    VerdictsNext(c.log, e);
  }

  lemma PlainEvidence(c: Client, e: Entry, unnoted: bool)
    requires EvidenceOk(c, unnoted) && (e.Saved? || e.Restarted?)
    ensures Accounted(c.log + [e])
    ensures e.Saved? ==> EvidenceOk(SaveBond(c), unnoted)
    ensures e.Restarted? ==> LastClass(c.log + [e]) == None
  {
    AccountedStep(c.log, e);
    VerdictsNext(c.log, e);
  }

  lemma StepEvidence(c: Client, a: Action, unnoted: bool)
    requires EvidenceOk(c, unnoted) && (a.Note? ==> unnoted)
    ensures EvidenceOk(ConnectSafety.Step(c, a), match a case Cycle(s) => !Connect(c, s).1
                                                         case Note(_, _, _) => false
                                                         case Restart(_) => false
                                                         case _ => unnoted)
  {
    match a {
      case Cycle(script) => CycleEvidence(c, script, unnoted);
      case Note(threshold, installed, now) => NoteEvidence(c, threshold, installed, now);
      case Save => PlainEvidence(c, Saved, unnoted);
      case Restart(_) => PlainEvidence(c, Restarted, unnoted);
      case Advertise(_) =>
      case LinkLost =>
      case Presence(absent) =>
    }
  }

  lemma {:induction false} RunEvidence(prior: seq<Call>, g: Config, acts: seq<Action>)
    requires Disciplined(prior, g, acts)
    ensures EvidenceOk(ConnectSafety.Run(prior, g, acts), Unnoted(prior, g, acts))
  {
    if acts != [] {
      var most, last := acts[..|acts| - 1], acts[|acts| - 1];
      RunEvidence(prior, g, most);
      StepEvidence(ConnectSafety.Run(prior, g, most), last, Unnoted(prior, g, most));
    }
  }

  /**
   Destruction outside migration rests on two cycles, all of them different: those the machine rejected since the last
   remembered handshake, the one in flight included, those it rejected before that handshake in the same cycle, the stale
   ones, and what was reported before the run. With none of the last three, the machine rejected two cycles since the
   handshake.
   */
  lemma DestructionRestsOnTwoCycles(prior: seq<Call>, g: Config, acts: seq<Action>, l: nat)
    requires WellConfigured(g) && WellFormed(acts) && Disciplined(prior, g, acts)
    requires var log := ConnectSafety.Run(prior, g, acts).log; l < |log| && log[l].UnpairRung? && !log[l].facts.migration
    ensures var log := ConnectSafety.Run(prior, g, acts).log;
            var t := Tallies(prior, log[..l]).0;
            && Accounted(log)
            && t.Total() + One(WasRejectedSince(log[..l])) >= 2
            && (t.earlier == 0 && t.rejectedBefore == 0 && t.stale == 0 ==>
                  t.rejectedSince + One(WasRejectedSince(log[..l])) >= 2)
  {
    var log := ConnectSafety.Run(prior, g, acts).log;
    RunEvidence(prior, g, acts);
    RunIsSafe(prior, g, acts);
    RungRestsOnTwoCycles(prior, log, l);
  }

  lemma RungRestsOnTwoCycles(prior: seq<Call>, log: seq<Entry>, l: nat)
    requires SafeLog(prior, log) && Accounted(log) && l < |log| && log[l].UnpairRung? && !log[l].facts.migration
    ensures Tallies(prior, log[..l]).0.Total() + One(WasRejectedSince(log[..l])) >= 2
  {
    EntryIsJustified(prior, log, l);
    AccountedAt(log, l);
    ReportsAreTallied(prior, log[..l]);
  }

  // ----- the suppression of repair -----

  lemma {:induction false} NotedClassesAre(log: seq<Entry>, cls: Option<FailureClass>)
    ensures cls in NotedClasses(log) <==> exists n :: NotedAt(log, n, cls)
  {
    if log != [] {
      var most, n := log[..|log| - 1], |log| - 1;
      NotedClassesAre(most, cls);
      if k :| NotedAt(log, k, cls) {
        assert k < n ==> NotedAt(most, k, cls);
      }
      if !IsHandshake(log[n]) && !log[n].Restarted? {
        if k :| NotedAt(most, k, cls) {
          assert NotedAt(log, k, cls);
        }
        if IsNote(log[n]) && log[n].call.cls == cls {
          assert NotedAt(log, n, cls);
        }
      }
    }
  }

  /** A failed cycle was noted with that class, and no handshake or restart followed. */
  ghost predicate NotedAt(log: seq<Entry>, n: int, cls: Option<FailureClass>) {
    && 0 <= n < |log|
    && IsNote(log[n]) && log[n].call.cls == cls
    && forall h | n < h < |log| :: !IsHandshake(log[h]) && !log[h].Restarted?
  }

  /** A failure episode passes for a power-off exactly when something was noted in it, nothing but timeouts and lost
      links, and the device is off the air; one AUTH or handshake report keeps the repair path open. */
  lemma PowerOffIsExact(prior: seq<Call>, g: Config, acts: seq<Action>, starved: bool, present: Option<bool>)
    requires WellConfigured(g) && WellFormed(acts)
    ensures var c := ConnectSafety.Run(prior, g, acts);
            LooksLikePowerOff(c.episode, starved, present) <==>
            && (exists n, cls :: NotedAt(c.log, n, cls))
            && (forall n, cls | NotedAt(c.log, n, cls) :: cls == Some(Timeout) || cls == Some(LinkFail))
            && !starved
            && (c.episode.absent || present == Some(false))
  {
    var c := ConnectSafety.Run(prior, g, acts);
    RunIsSafe(prior, g, acts);
    ClassesAreNoted(c.log);
  }

  lemma ClassesAreNoted(log: seq<Entry>)
    ensures NotedClasses(log) != {} <==> exists n, cls :: NotedAt(log, n, cls)
    ensures NotedClasses(log) <= {Some(Timeout), Some(LinkFail)} <==>
            forall n, cls | NotedAt(log, n, cls) :: cls == Some(Timeout) || cls == Some(LinkFail)
  {
    forall n, cls | NotedAt(log, n, cls) ensures cls in NotedClasses(log) {
      NotedClassesAre(log, cls);
    }
    forall cls | cls in NotedClasses(log) ensures exists n :: NotedAt(log, n, cls) {
      NotedClassesAre(log, cls);
    }
    if forall n, cls | NotedAt(log, n, cls) :: cls == Some(Timeout) || cls == Some(LinkFail) {
      forall cls | cls in NotedClasses(log) ensures cls in {Some(Timeout), Some(LinkFail)} {
        var n :| NotedAt(log, n, cls);
      }
    }
  }
}
