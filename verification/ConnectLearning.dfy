/** Which source a first success learns, and exactly when the link was verified to be on it. */
module ConnectLearning {
  import opened Prelude
  import opened BondState
  import opened ConnectSpec
  import opened ConnectSafety
  import opened ConnectEvidence
  import ConnectOutage

  // ----- the rung that succeeds -----

  /** The client and the attempt of the last rung of a ladder. */
  function LastRung(c: Client, s: CycleScript): (Client, Attempt) {
    var (c1, v1) := TryConnect(c, s.first);
    if v1 != Failed then (c, s.first)
    else
      var (c2, v2) := TryConnect(c1, s.second);
      if v2 != Failed || !MayUnpair(c2) then (c1, s.second)
      else
        var unpaired := TryUnpair(Log(c2, UnpairRung(CaseOf(c2))), s.unpair).0;
        (if s.savesBond then SaveBond(unpaired) else unpaired, s.third)
  }

  lemma LadderEndsWithLastRung(c: Client, s: CycleScript)
    requires Ladder(c, s).1 == Handshaken
    ensures TryConnect(LastRung(c, s).0, LastRung(c, s).1) == Ladder(c, s)
  {
  }

  /** The source read after a rung: the frozen one, else that of the device adopted last. */
  function SourceAfter(r: Radio, during: seq<Advert>): Option<string> {
    RungSource(SetBleDevices(r, during))
  }

  lemma {:induction false} AdvertsKeepPins(r: Radio, ads: seq<Advert>)
    ensures var r' := SetBleDevices(r, ads);
            r'.affinity == r.affinity && r'.cycleSource == r.cycleSource && r'.cycleDevice == r.cycleDevice
  {
    if ads != [] {
      AdvertsKeepPins(r, ads[..|ads| - 1]);
    }
  }

  lemma RungKeepsAffinity(c: Client, a: Attempt)
    ensures TryConnect(c, a).0.radio.affinity == c.radio.affinity
  {
    AdvertsKeepPins(c.radio, a.during);
  }

  lemma UnpairKeepsAffinity(c: Client, u: UnpairScript)
    ensures TryUnpair(c, u).0.radio.affinity == c.radio.affinity
  {
    AdvertsKeepPins(c.radio, u.asking);
    FallbackKeepsAffinity(Ask(c, u), u);
  }

  lemma FallbackKeepsAffinity(c: Client, u: UnpairScript)
    ensures FallbackUnpair(c, u).0.radio.affinity == c.radio.affinity
  {
    AdvertsKeepPins(c.radio, u.during);
  }

  lemma LadderKeepsAffinity(c: Client, s: CycleScript)
    ensures Ladder(c, s).0.radio.affinity == c.radio.affinity
  {
    RungKeepsAffinity(c, s.first);
    var c1 := TryConnect(c, s.first).0;
    RungKeepsAffinity(c1, s.second);
    var c2 := TryConnect(c1, s.second).0;
    UnpairKeepsAffinity(Log(c2, UnpairRung(CaseOf(c2))), s.unpair);
    var unpaired := TryUnpair(Log(c2, UnpairRung(CaseOf(c2))), s.unpair).0;
    RungKeepsAffinity(if s.savesBond then SaveBond(unpaired) else unpaired, s.third);
  }

  // ----- what is learned -----

  /** A first success learns the source that is read after its last rung, on whatever rung it came. */
  lemma FirstSuccessLearns(c: Client, s: CycleScript)
    requires !(c.episode.connected && s.linkAlive) && IsHandshaken(c, s) && c.radio.affinity.None?
    ensures var (w, a) := LastRung(Begun(c), s);
            var source := SourceAfter(w.radio, a.during);
            Connect(c, s).0.radio.affinity == if Truthy(source) then source else None
  {
    LadderEndsWithLastRung(Begun(c), s);
    LadderKeepsAffinity(Begun(c), s);
    var (w, a) := LastRung(Begun(c), s);
    assert Ladder(Begun(c), s).0.radio == SetBleDevices(w.radio, a.during);
  }

  /** A migration ends with the first handshake after which a source can be read, and with nothing else in a cycle. */
  lemma MigrationEndsIff(c: Client, s: CycleScript)
    requires !(c.episode.connected && s.linkAlive)
    ensures var (w, a) := LastRung(Begun(c), s);
            Connect(c, s).0.episode.migrationPending <==>
            && c.episode.migrationPending
            && !(IsHandshaken(c, s) && Truthy(SourceAfter(w.radio, a.during)))
  {
    ConnectOutage.LadderKeeps(Begun(c), s);
    if IsHandshaken(c, s) {
      LadderEndsWithLastRung(Begun(c), s);
      LastRungReads(Begun(c), s);
      SuccessEndsMigration(Ladder(Begun(c), s).0, s.now);
    }
  }

  lemma LastRungReads(c: Client, s: CycleScript)
    requires Ladder(c, s).1 == Handshaken
    ensures var (w, a) := LastRung(c, s); RungSource(Ladder(c, s).0.radio) == SourceAfter(w.radio, a.during)
  {
    LadderEndsWithLastRung(c, s);
    var (w, a) := LastRung(c, s);
    assert Ladder(c, s).0.radio == SetBleDevices(w.radio, a.during);
  }

  lemma SuccessEndsMigration(c: Client, now: real)
    ensures Succeed(c, now).episode.migrationPending <==>
            c.episode.migrationPending && !Truthy(RungSource(c.radio))
  {
  }

  // ----- when it is verified -----

  /** A rung from w during which these advertisements arrive can succeed on scanner `on`. */
  predicate ComesUpOn(w: Client, during: seq<Advert>, on: Option<string>) {
    TryConnect(w, Attempt(Lands(on, true, HandshakeDone), during)).1 == Handshaken
  }

  /** The rung started with a source, and no advertisement adopted during it changed the one that is read. */
  predicate SourceHolds(r: Radio, during: seq<Advert>) {
    Truthy(RungSource(r)) && Norm(SourceAfter(r, during)) == Norm(RungSource(r))
  }

  /** Whatever scanner a successful rung comes up on, the source learned is that scanner, exactly when the rung started
      with a source and no advertisement adopted during it changed the one that is read. */
  lemma LearnedIsVerifiedIff(w: Client, during: seq<Advert>)
    requires RungDevice(w.radio).Some?
    ensures (forall on :: ComesUpOn(w, during, on) ==> on.Some? && Norm(on) == Norm(SourceAfter(w.radio, during))) <==>
            SourceHolds(w.radio, during)
  {
    var source := RungSource(w.radio);
    if !Truthy(source) {
      assert ComesUpOn(w, during, None);
    } else {
      assert ComesUpOn(w, during, source);
    }
  }

  /** So a cycle frozen with a source always learns a verified one; without, a rung is still pinned to a source adopted
      before it started. */
  lemma FrozenSourceHolds(r: Radio, during: seq<Advert>)
    requires Truthy(r.cycleSource)
    ensures SourceHolds(r, during)
  {
    AdvertsKeepPins(r, during);
  }

  lemma AdoptedSourceHolds(r: Radio, during: seq<Advert>)
    requires !Truthy(r.cycleSource)
    ensures SourceHolds(r, during) <==>
            Truthy(r.deviceSource) && Norm(SetBleDevices(r, during).deviceSource) == Norm(r.deviceSource)
  {
    AdvertsKeepPins(r, during);
  }

  /** The other family, for a first rung and no hint: it starts without a source, so it comes up anywhere, and what was
      adopted last meanwhile is learned. */
  lemma UnverifiedSourceIsLearned(c: Client, s: CycleScript, on: Option<string>)
    requires c.radio.affinity.None? && c.radio.hint.None? && c.radio.device.Some? && !Truthy(c.radio.deviceSource)
    requires !c.episode.connected && s.first.outcome == Lands(on, true, HandshakeDone)
    ensures var ads := s.first.during;
            var source := if ads == [] then None else AdvertSource(ads[|ads| - 1]);
            Connect(c, s).0.radio.affinity == if Truthy(source) then source else None
  {
    LastAdvertWins(Begun(c).radio, s.first.during);
    assert LastRung(Begun(c), s) == (Begun(c), s.first);
    FirstSuccessLearns(c, s);
  }

  lemma {:induction false} LastAdvertWins(r: Radio, ads: seq<Advert>)
    requires r.affinity.None? && r.hint.None?
    ensures var r' := SetBleDevices(r, ads);
            && r'.affinity.None? && r'.hint.None? && r'.cycleSource == r.cycleSource
            && r'.deviceSource == if ads == [] then r.deviceSource else AdvertSource(ads[|ads| - 1])
  {
    if ads != [] {
      LastAdvertWins(r, ads[..|ads| - 1]);
    }
  }
}
