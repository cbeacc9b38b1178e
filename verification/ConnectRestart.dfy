/** Both ways in which a restart allows a second destructive request without a handshake, as concrete runs. */
module ConnectRestart {
  import opened Prelude
  import opened BondState
  import opened ConnectSpec
  import opened ConnectSafety
  import opened ConnectEvidence
  import opened ConnectOutage

  const DEVICE := Device(1, None)
  const SOURCE := Some("a")
  const RADIO := Radio(Some(DEVICE), SOURCE, SOURCE, None, None, None)

  function Setup(migration: bool): Config {
    Config(Some(DEVICE), SOURCE, SOURCE, None, migration)
  }

  /** The rungs of a cycle that is rejected twice. */
  const REJECTIONS := [
    CycleStart(Some(DEVICE), SOURCE), Rung(DEVICE, SOURCE), Classified(Auth), Rung(DEVICE, SOURCE), Classified(Auth)]

  /** The rungs that follow: a confirmed unpair and a last attempt that times out. */
  function Wipe(migration: bool): seq<Entry> {
    var facts := UnpairCase(migration, SOURCE, true);
    [UnpairRung(facts), Request(facts), BondCall(BondDestroyed("proxy_unpair", "rung3", 0.0)), Rung(DEVICE, SOURCE),
     Classified(Timeout)]
  }

  /** A client that is about to meet two rejections with its affinity known and no unpair behind it. */
  predicate Waits(c: Client, migration: bool) {
    && c.radio == RADIO
    && !c.episode.connected && !c.episode.unpaired && c.episode.migrationPending == migration
  }

  lemma TwoRejections(c: Client)
    requires Waits(c, c.episode.migrationPending)
    ensures var c1 := TryConnect(Begun(c), REJECTED.first);
            var c2 := TryConnect(c1.0, REJECTED.second);
            && c1.1 == Failed && c2.1 == Failed
            && c2.0.log == c.log + REJECTIONS
            && c2.0.radio == RADIO.(cycleDevice := Some(DEVICE), cycleSource := SOURCE)
            && c2.0.bond == c.bond && c2.0.store == c.store
            && c2.0.episode == c.episode.(authFailSeen := true, lastFailureClass := Some(Auth))
  {
    assert SetBleDevices(Begun(c).radio, []) == Begun(c).radio;
    assert c.log + [CycleStart(Some(DEVICE), SOURCE)] + [Rung(DEVICE, SOURCE)] + [Classified(Auth)] +
           [Rung(DEVICE, SOURCE)] + [Classified(Auth)] == c.log + REJECTIONS;
  }

  /** On a fresh bond nothing is forgotten. */
  lemma HarmlessCycle(c: Client)
    requires Waits(c, false) && c.bond.state == Unknown
    ensures var c' := Connect(c, REJECTED).0;
            Waits(c', false) && c'.log == c.log + REJECTIONS && c'.bond == c.bond && c'.episode.authFailSeen
  {
    TwoRejections(c);
  }

  lemma RetryWipes(c: Client, migration: bool)
    requires c.radio == RADIO.(cycleDevice := Some(DEVICE), cycleSource := SOURCE)
    requires c.episode.migrationPending == migration && c.episode.authFailSeen
    ensures var c' := UnpairAndRetry(c, REJECTED);
            c'.1 == Failed && c'.0.log == c.log + Wipe(migration) && c'.0.store == c.store && c'.0.radio == c.radio
  {
    assert SetBleDevices(c.radio, []) == c.radio;
    var facts := UnpairCase(migration, SOURCE, true);
    assert c.log + [UnpairRung(facts)] + [Request(facts)] +
           [BondCall(BondDestroyed("proxy_unpair", "rung3", 0.0))] + [Rung(DEVICE, SOURCE)] + [Classified(Timeout)] ==
           c.log + Wipe(migration);
  }

  /** While migrating, or on SUSPECT evidence, the bond is forgotten. */
  lemma WipingCycle(c: Client, migration: bool)
    requires Waits(c, migration) && (!migration ==> c.bond.state == Suspect)
    ensures Connect(c, REJECTED).0.log == c.log + REJECTIONS + Wipe(migration)
    ensures Connect(c, REJECTED).0.store == c.store
  {
    TwoRejections(c);
    var c2 := TryConnect(TryConnect(Begun(c), REJECTED.first).0, REJECTED.second).0;
    RetryWipes(c2, migration);
  }

  /** Requests at k and l with no handshake in between. */
  ghost predicate Doubled(log: seq<Entry>, k: nat, l: nat) {
    && k < l < |log|
    && log[k].Request? && log[l].Request?
    && forall h | k < h < l :: !IsHandshake(log[h])
  }

  lemma TwoWipesDouble(before: seq<Entry>, migration: bool)
    ensures var log := before + REJECTIONS + Wipe(migration) + [Restarted] + REJECTIONS + Wipe(migration);
            var k := |before| + 6;
            && Doubled(log, k, k + 11)
            && log[k + 11].facts.migration == migration
            && log[k + 4] == Restarted
            && !SavedIn(log, k, k + 4)
  {
    var log := before + REJECTIONS + Wipe(migration) + [Restarted] + REJECTIONS + Wipe(migration);
    var k := |before| + 6;
    assert log[k..k + 11] == Wipe(migration)[1..] + [Restarted] + REJECTIONS + Wipe(migration)[..1];
    forall h | k <= h < k + 11 ensures !IsHandshake(log[h]) && !log[h].Saved? {
      assert log[h] == log[k..k + 11][h - k];
    }
  }

  lemma ThreeSteps(g: Config, acts: seq<Action>, a: Action, b: Action, d: Action)
    ensures ConnectSafety.Run([], g, acts + [a] + [b] + [d]) ==
            ConnectSafety.Step(ConnectSafety.Step(ConnectSafety.Step(ConnectSafety.Run([], g, acts), a), b), d)
  {
    RunNext([], g, acts, a);
    RunNext([], g, acts + [a], b);
    RunNext([], g, acts + [a] + [b], d);
  }

  /** The bond is forgotten, the client restarted on what storage holds, and the bond forgotten again. */
  lemma WipeRestartWipe(c: Client, migration: bool)
    requires Waits(c, migration) && (!migration ==> c.bond.state == Suspect && Restore(c.store).state == Suspect)
    ensures var c1 := ConnectSafety.Step(c, Cycle(REJECTED));
            var c2 := ConnectSafety.Step(c1, Restart(Setup(migration)));
            ConnectSafety.Step(c2, Cycle(REJECTED)).log ==
            c.log + REJECTIONS + Wipe(migration) + [Restarted] + REJECTIONS + Wipe(migration)
  {
    WipingCycle(c, migration);
    RestartThenWipe(Connect(c, REJECTED).0, migration);
  }

  lemma RestartThenWipe(c: Client, migration: bool)
    requires !migration ==> Restore(c.store).state == Suspect
    ensures var c' := ConnectSafety.Step(c, Restart(Setup(migration)));
            ConnectSafety.Step(c', Cycle(REJECTED)).log == c.log + [Restarted] + REJECTIONS + Wipe(migration)
  {
    WipingCycle(ConnectSafety.Step(c, Restart(Setup(migration))), migration);
  }

  lemma BootWaits(none: seq<Action>, migration: bool)
    requires none == []
    ensures var c := ConnectSafety.Run([], Setup(migration), none);
            Waits(c, migration) && c.log == [] && c.bond == FRESH && c.store == AsDict(FRESH)
  {
    StoredIsRestored([]);
  }

  /** The run sends requests at k and l with no handshake in between, and restarts at k + 4 with nothing saved since k. */
  ghost predicate Breaks(migration: bool, acts: seq<Action>, k: nat, l: nat) {
    var log := ConnectSafety.Run([], Setup(migration), acts).log;
    && WellConfigured(Setup(migration))
    && Doubled(log, k, l)
    && log[l].facts.migration == migration
    && k + 4 < l && log[k + 4] == Restarted && !SavedIn(log, k, k + 4)
  }

  /** After any run that leaves the client waiting, forgetting the bond, restarting and forgetting it again is possible. */
  lemma RunBreaks(acts: seq<Action>, migration: bool) returns (again: seq<Action>, k: nat, l: nat)
    requires var c := ConnectSafety.Run([], Setup(migration), acts);
             Waits(c, migration) && (!migration ==> c.bond.state == Suspect && Restore(c.store).state == Suspect)
    ensures Breaks(migration, again, k, l)
  {
    var c := ConnectSafety.Run([], Setup(migration), acts);
    ThreeSteps(Setup(migration), acts, Cycle(REJECTED), Restart(Setup(migration)), Cycle(REJECTED));
    WipeRestartWipe(c, migration);
    TwoWipesDouble(c.log, migration);
    again := acts + [Cycle(REJECTED)] + [Restart(Setup(migration))] + [Cycle(REJECTED)];
    k, l := |c.log| + 6, |c.log| + 17;
  }

  /** While a source migration is pending, a restart is enough: the episode latch is not persisted. */
  lemma MigrationRestartDoubles() returns (acts: seq<Action>, k: nat, l: nat)
    ensures Breaks(true, acts, k, l)
  {
    var none: seq<Action> :| none == [];
    BootWaits(none, true);
    acts, k, l := RunBreaks(none, true);
  }

  const NOTE := Note(0, false, 0.0)
  const EARLY := [Cycle(REJECTED), NOTE, Save]
  const NOTED := BondCall(CycleFailure(Some(Auth), 0.0))

  lemma NotedAndSaved(c: Client)
    requires Waits(c, false) && c.bond == FRESH && c.log == []
    ensures var c3 := ConnectSafety.Step(ConnectSafety.Step(ConnectSafety.Step(c, Cycle(REJECTED)), NOTE), Save);
            && Waits(c3, false) && c3.bond.state == Suspect && c3.log == REJECTIONS + [NOTED] + [Saved]
            && c3.store == AsDict(c3.bond) && ValidBond(c3.bond)
  {
    HarmlessCycle(c);
    assert [] + REJECTIONS == REJECTIONS;
  }

  /** After one noted rejection, saved: SUSPECT in the machine and in storage. */
  lemma EarlySuspects()
    ensures var c := ConnectSafety.Run([], Setup(false), EARLY);
            Waits(c, false) && c.bond.state == Suspect && c.log == REJECTIONS + [NOTED] + [Saved] &&
            Restore(c.store).state == Suspect
  {
    assert [] + [Cycle(REJECTED)] + [NOTE] + [Save] == EARLY;
    ThreeSteps(Setup(false), [], Cycle(REJECTED), NOTE, Save);
    BootWaits([], false);
    NotedAndSaved(ConnectSafety.Run([], Setup(false), []));
    SnapshotIsLossless(ConnectSafety.Run([], Setup(false), EARLY).bond);
  }

  /** Outside migration, a restart is enough when the destruction was not saved before it: storage still says SUSPECT. */
  lemma UnsavedRestartDoubles() returns (acts: seq<Action>, k: nat, l: nat)
    ensures Breaks(false, acts, k, l)
  {
    EarlySuspects();
    acts, k, l := RunBreaks(EARLY, false);
  }
}
