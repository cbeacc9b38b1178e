/** Which device a client is tied to: how sources are compared, which advertisements are adopted, and when a hint is given
    up. */
module ConnectRadio {
  import opened Prelude
  import opened BondState
  import opened ConnectSpec
  import opened ConnectEvidence
  import opened ConnectLadder

  // ----- comparing sources -----

  predicate IsCanonical(c: char) {
    c !in {':', '-'} && !('A' <= c <= 'Z')
  }

  lemma {:induction false} NormJoins(a: string, b: string)
    ensures NormText(a + b) == NormText(a) + NormText(b)
  {
    if a == "" {
      assert a + b == b;
    } else {
      assert (a + b)[1..] == a[1..] + b;
      NormJoins(a[1..], b);
    }
  }

  lemma {:induction false} NormIsCanonical(s: string)
    ensures forall c | c in NormText(s) :: IsCanonical(c)
    ensures (forall c | c in s :: IsCanonical(c)) ==> NormText(s) == s
  {
    if s != "" {
      NormIsCanonical(s[1..]);
      assert s == [s[0]] + s[1..];
      if forall c | c in s :: IsCanonical(c) {
        assert IsCanonical(s[0]) && forall c | c in s[1..] :: c in s;
      }
    }
  }

  /** A separator anywhere, or the case of an ASCII letter, makes no difference between sources; any other character does:
      the texts without separators and capitals are compared as they stand. */
  lemma SeparatorsAndCaseAreIgnored(a: string, c: char, b: string)
    ensures c in {':', '-'} ==> NormText(a + [c] + b) == NormText(a + b)
    ensures 'A' <= c <= 'Z' ==> NormText(a + [c] + b) == NormText(a + [(c as int + 32) as char] + b)
  {
    NormJoins(a, b);
    NormSplits(a, c, b);
    if 'A' <= c <= 'Z' {
      NormSplits(a, (c as int + 32) as char, b);
    }
  }

  lemma NormSplits(a: string, c: char, b: string)
    ensures NormText(a + [c] + b) == NormText(a) + NormText([c]) + NormText(b)
  {
    NormJoins(a + [c], b);
    NormJoins(a, [c]);
  }

  // ----- adoption -----

  /** The central an advertisement came through: what the caller names, else what the device itself says. */
  predicate CameThrough(ad: Advert, source: Option<string>) {
    if ad.source.Some? then source == ad.source
    else if ad.device.detailsSource in {None, Some("")} then source == None
    else source == ad.device.detailsSource
  }

  /** With an affinity an advertisement must come through it; without, through the hint when there is one. */
  ghost predicate Wanted(r: Radio, ad: Advert) {
    var required := if r.affinity in {None, Some("")} then r.hint else r.affinity;
    required == None || exists source :: CameThrough(ad, source) && Norm(source) == Norm(required)
  }

  lemma AdoptsWanted(r: Radio, ad: Advert)
    ensures Adopts(r, ad) <==> Wanted(r, ad)
    ensures CameThrough(ad, AdvertSource(ad))
    ensures forall source | CameThrough(ad, source) :: source == AdvertSource(ad)
  {
  }

  ghost predicate LastWanted(r: Radio, ads: seq<Advert>, k: int) {
    0 <= k < |ads| && Wanted(r, ads[k]) && forall m | k < m < |ads| :: !Wanted(r, ads[m])
  }

  /** After any advertisements the cached device is that of the last wanted one, or the old one; nothing else moves. */
  lemma {:induction false} LastWantedIsCached(r: Radio, ads: seq<Advert>)
    ensures var r' := SetBleDevices(r, ads);
            && r' == r.(device := r'.device, deviceSource := r'.deviceSource)
            && (forall k | LastWanted(r, ads, k) ::
                  r'.device == Some(ads[k].device) && CameThrough(ads[k], r'.deviceSource))
            && ((forall k | 0 <= k < |ads| :: !Wanted(r, ads[k])) ==> r' == r)
  {
    if ads != [] {
      var most, last := ads[..|ads| - 1], ads[|ads| - 1];
      LastWantedIsCached(r, most);
      var before := SetBleDevices(r, most);
      AdoptsWanted(before, last);
      SameWants(r, before, last);
      forall k | LastWanted(r, ads, k) ensures if Wanted(r, last) then k == |most| else LastWanted(r, most, k) {
        assert k < |most| ==> most[k] == ads[k];
      }
      if forall k | 0 <= k < |ads| :: !Wanted(r, ads[k]) {
        assert forall k | 0 <= k < |most| :: most[k] == ads[k];
      }
    }
  }

  lemma SameWants(r: Radio, r': Radio, ad: Advert)
    requires r'.affinity == r.affinity && r'.hint == r.hint
    ensures Wanted(r', ad) <==> Wanted(r, ad)
  {
  }

  // ----- giving up a hint -----

  /** Nothing but the cached device differs, and one that came through the hint is replaced by another such one. */
  predicate Tied(r: Radio, r': Radio) {
    && r' == r.(device := r'.device, deviceSource := r'.deviceSource)
    && (r.affinity.None? && r.hint.Some? && Norm(r.deviceSource) == Norm(r.hint) ==>
          Norm(r'.deviceSource) == Norm(r.hint))
  }

  lemma {:induction false} AdvertsTie(r: Radio, ads: seq<Advert>)
    ensures Tied(r, SetBleDevices(r, ads))
  {
    if ads != [] {
      AdvertsTie(r, ads[..|ads| - 1]);
    }
  }

  lemma UnpairTies(r: Radio, u: UnpairScript)
    ensures Tied(r, RadioUnpaired(r, u))
  {
    AdvertsTie(r, u.asking);
    AdvertsTie(RadioAsked(r, u), u.during);
  }

  lemma RungTies(c: Client, a: Attempt)
    requires RungDevice(c.radio).Some?
    ensures Tied(c.radio, TryConnect(c, a).0.radio) && RungDevice(TryConnect(c, a).0.radio).Some?
  {
    RungIs(c, a);
    AdvertsTie(c.radio, a.during);
    AdvertsKeepPair(c.radio, a.during);
  }

  lemma LadderTies(c: Client, s: CycleScript)
    requires RungDevice(c.radio).Some?
    ensures Tied(c.radio, Ladder(c, s).0.radio)
  {
    RungTies(c, s.first);
    RungTies(TryConnect(c, s.first).0, s.second);
    RetryTies(TryConnect(TryConnect(c, s.first).0, s.second).0, s);
  }

  lemma RetryTies(c: Client, s: CycleScript)
    requires RungDevice(c.radio).Some?
    ensures Tied(c.radio, UnpairAndRetry(c, s).0.radio)
  {
    var armed := Log(c, UnpairRung(CaseOf(c)));
    var (unpaired, outcome) := TryUnpair(armed, s.unpair);
    UnpairIs(armed, s.unpair);
    UnpairTies(c.radio, s.unpair);
    UnpairKeepsPair(c.radio, s.unpair);
    if outcome != NotSent {
      RungTies(if s.savesBond then SaveBond(unpaired) else unpaired, s.third);
    }
  }

  /** As long as no source is learned, a hint is given up exactly when a rung of a cycle frozen on its own source was
      rejected, and then together with the cached device; the frozen pair is released in any case. */
  lemma RejectedHintIsDropped(c: Client, s: CycleScript)
    requires RunsLadder(c, s) && c.radio.affinity.None? && c.radio.hint.Some?
    requires Connect(c, s).0.radio.affinity.None?
    ensures var r := Connect(c, s).0.radio;
            && (r.hint.None? <==>
                  Some(Auth) in Classes(Begun(c), s) && Norm(c.radio.deviceSource) == Norm(c.radio.hint))
            && (r.hint.Some? ==> r.hint == c.radio.hint)
            && (r.hint.None? ==> r.device.None? && r.deviceSource.None?)
            && r.cycleDevice.None? && r.cycleSource.None?
  {
    CycleRemembers(c, s);
    LadderTies(Begun(c), s);
    var (after, verdict) := Ladder(Begun(c), s);
    SettledRadio(after, verdict, s);
    ThawIs(Begun(c).radio, Settle(after, verdict, s).0.radio, Settle(after, verdict, s).0.episode.authFailSeen);
  }

  lemma SettledRadio(c: Client, verdict: Verdict, s: CycleScript)
    requires c.radio.affinity.None?
    ensures var r := Settle(c, verdict, s).0.radio; r.affinity.None? ==> r == c.radio
  {
  }

  lemma ThawIs(frozen: Radio, r: Radio, rejected: bool)
    requires Tied(frozen, r) && frozen.affinity.None? && frozen.hint.Some? && frozen.cycleSource == frozen.deviceSource
    ensures var r' := Thaw(r, rejected);
            && (r'.hint.None? <==> rejected && Norm(frozen.deviceSource) == Norm(frozen.hint))
            && (r'.hint.Some? ==> r'.hint == frozen.hint)
            && (r'.hint.None? ==> r'.device.None? && r'.deviceSource.None?)
            && r'.cycleDevice.None? && r'.cycleSource.None?
  {
  }

  // ----- a new affinity -----

  /** A new affinity keeps a device that came through it and drops one that came through another central, with the pair of
      a cycle in progress; it ends the search a hint stood for. Forgetting an affinity drops nothing. */
  lemma AffinityKeepsItsDevice(r: Radio, source: Option<string>)
    ensures var r' := SetAffinity(r, source);
            && r'.affinity == source
            && (source.None? || Norm(source) == Norm(r.affinity) || Norm(source) == Norm(r.deviceSource) ==>
                  r'.device == r.device && r'.deviceSource == r.deviceSource &&
                  r'.cycleDevice == r.cycleDevice && r'.cycleSource == r.cycleSource)
            && (source.Some? && Norm(source) != Norm(r.affinity) ==> r'.hint.None?)
            && (source.Some? && Norm(source) != Norm(r.affinity) && Norm(source) != Norm(r.deviceSource) ==>
                  r'.device.None? && r'.deviceSource.None? && r'.cycleDevice.None? && r'.cycleSource.None?)
            && (source.None? || Norm(source) == Norm(r.affinity) ==> r'.hint == r.hint)
  {
  }
}
