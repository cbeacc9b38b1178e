/**
 The two sliding windows of the integration setup: the circuit breaker on automatic proxy reloads and the tracker of
 disconnects. Both keep a pruned list; the ghost history keeps everything, and a monotone clock reads never back.
 */
module RepairThrottle {
  import opened Prelude
  import opened BondState
  import opened ConnectSpec

  const WINDOW := 3600.0
  const MAX_RELOADS := 3
  const MAX_DISCONNECTS := 5

  /** The times of a history that lie less than the window before `now`, in order. */
  function Recent(times: seq<real>, now: real): seq<real> {
    if times == [] then []
    else Recent(times[..|times| - 1], now) + if now - times[|times| - 1] < WINDOW then [times[|times| - 1]] else []
  }

  ghost function WithinWindow(times: seq<real>, now: real): set<int> {
    set i | 0 <= i < |times| && now - times[i] < WINDOW
  }

  /** As many are kept as there are times within the window, and each of them is one. */
  lemma {:induction false} RecentIsExact(times: seq<real>, now: real)
    ensures |Recent(times, now)| == |WithinWindow(times, now)|
    ensures forall t :: t in Recent(times, now) <==> t in times && now - t < WINDOW
  {
    if times == [] {
      assert WithinWindow(times, now) == {};
    } else {
      var most, last := times[..|times| - 1], |times| - 1;
      RecentIsExact(most, now);
      assert WithinWindow(times, now) ==
             WithinWindow(most, now) + if now - times[last] < WINDOW then {last} else {};
      assert times == most + [times[last]];
    }
  }

  ghost predicate Monotone(times: seq<real>, clock: real) {
    && (forall i, j | 0 <= i < j < |times| :: times[i] <= times[j])
    && forall i | 0 <= i < |times| :: times[i] <= clock
  }

  /** Pruning a pruned list loses nothing that a later pruning of the full history keeps. */
  lemma {:induction false} PruningComposes(times: seq<real>, earlier: real, now: real)
    requires earlier <= now
    ensures Recent(Recent(times, earlier), now) == Recent(times, now)
  {
    if times != [] {
      var most := Recent(times[..|times| - 1], earlier);
      PruningComposes(times[..|times| - 1], earlier, now);
      if earlier - times[|times| - 1] < WINDOW {
        assert (most + [times[|times| - 1]])[..|most|] == most;
      } else {
        assert most + [] == most;
      }
    }
  }

  lemma RecentOfAppend(times: seq<real>, t: real, now: real)
    ensures Recent(times + [t], now) == Recent(times, now) + if now - t < WINDOW then [t] else []
  {
    assert (times + [t])[..|times|] == times;
  }

  /** Any k + 1 reloads in a row span at least the window. */
  ghost predicate Sparse(times: seq<real>) {
    forall i, j | 0 <= i && i + MAX_RELOADS <= j < |times| :: times[j] - times[i] >= WINDOW
  }

  lemma FewRecentMeansOldThird(times: seq<real>, now: real)
    requires Monotone(times, now) && |times| >= MAX_RELOADS && |Recent(times, now)| < MAX_RELOADS
    ensures now - times[|times| - MAX_RELOADS] >= WINDOW
  {
    var n := |times|;
    var t1, t2 := times[..n - 1], times[..n - 1][..n - 2];
    assert Recent(times, now) == Recent(t1, now) + if now - times[n - 1] < WINDOW then [times[n - 1]] else [];
    assert Recent(t1, now) == Recent(t2, now) + if now - times[n - 2] < WINDOW then [times[n - 2]] else [];
    assert |Recent(t2, now)| >= if now - times[n - 3] < WINDOW then 1 else 0;
  }

  lemma OldEnough(times: seq<real>, now: real, i: nat)
    requires Monotone(times, now) && |Recent(times, now)| < MAX_RELOADS && i + MAX_RELOADS <= |times|
    ensures now - times[i] >= WINDOW
  {
    FewRecentMeansOldThird(times, now);
    assert times[i] <= times[|times| - MAX_RELOADS];
  }

  /** A reload allowed at `now` keeps the history sparse. */
  lemma StaysSparse(times: seq<real>, now: real)
    requires Monotone(times, now) && Sparse(times) && |Recent(times, now)| < MAX_RELOADS
    ensures Monotone(times + [now], now) && Sparse(times + [now])
  {
    forall i: nat | i + MAX_RELOADS <= |times| ensures now - times[i] >= WINDOW {
      OldEnough(times, now, i);
    }
    SparseAppend(times, now);
    MonotoneAppend(times, now, now, now);
  }

  lemma SparseAppend(times: seq<real>, now: real)
    requires Sparse(times) && forall i | 0 <= i && i + MAX_RELOADS <= |times| :: now - times[i] >= WINDOW
    ensures Sparse(times + [now])
  {
  }

  /** The bond of a proven owner is rejected or gone: no reload of its proxy can help. */
  predicate ProvenMismatch(c: Client) {
    c.radio.affinity.Some? && (c.bond.state == Mismatch || c.bond.state == PairingRequired)
  }

  class CircuitBreaker {
    var reloadTimes: seq<real>
    ghost var history: seq<real>
    ghost var clock: real

    ghost predicate Valid()
      reads this
    {
      && Monotone(history, clock)
      && reloadTimes == Recent(history, clock)
      && Sparse(history)
    }

    constructor (ghost now: real)
      ensures Valid() && history == [] && clock == now
    {
      reloadTimes, history, clock := [], [], now;
    }

    /** Raises the card unless a migration is pending or the machine looks switched off; then reloads the proxy unless its
        bond owner is rejected or three reloads are recent. */
    method TriggerRepair(now: real, c: Client, starved: bool, present: Option<bool>)
      returns (card: bool, reloads: bool)
      requires Valid() && clock <= now
      modifies this
      ensures Valid() && clock <= now
      ensures card <==> !c.episode.migrationPending && !LooksLikePowerOff(c.episode, starved, present)
      ensures reloads <==> card && !ProvenMismatch(c) && |Recent(old(history), now)| < MAX_RELOADS
      ensures history == if reloads then old(history) + [now] else old(history)
    {
      if c.episode.migrationPending {
        return false, false;
      }
      if LooksLikePowerOff(c.episode, starved, present) {
        return false, false;
      }
      card := true;
      if c.radio.affinity.Some? && (c.bond.state == Mismatch || c.bond.state == PairingRequired) {
        return card, false;
      }
      PruningComposes(history, clock, now);
      reloadTimes := Recent(reloadTimes, now);
      clock := now;
      if |reloadTimes| >= MAX_RELOADS {
        return card, false;
      }
      StaysSparse(history, now);
      RecentOfAppend(history, now, now);
      reloadTimes := reloadTimes + [now];
      history := history + [now];
      return card, true;
    }
  }

  function FirstFrom(times: seq<real>, start: real, i: nat): (r: nat)
    requires i <= |times|
    ensures i <= r <= |times|
    ensures forall k | i <= k < r :: times[k] < start
    ensures r < |times| ==> times[r] >= start
    decreases |times| - i
  {
    if i == |times| || times[i] >= start then i else FirstFrom(times, start, i + 1)
  }

  ghost function Inside(times: seq<real>, start: real): set<int> {
    set i | 0 <= i < |times| && start <= times[i] < start + WINDOW
  }

  /** The breaker holds over all history: any window of an hour, wherever it starts, holds at most three reloads. */
  lemma AnyHourHoldsThreeReloads(times: seq<real>, clock: real, start: real)
    requires Monotone(times, clock) && Sparse(times)
    ensures |Inside(times, start)| <= MAX_RELOADS
  {
    var first := FirstFrom(times, start, 0);
    var three := {first, first + 1, first + 2};
    assert first + MAX_RELOADS < |times| ==> times[first + MAX_RELOADS] - times[first] >= WINDOW;
    assert Inside(times, start) <= three;
    assert three == Inside(times, start) + (three - Inside(times, start));
  }

  lemma ExtendThenPrune(times: seq<real>, clock: real, t: real, now: real)
    requires clock <= now
    ensures Recent(Recent(times, clock) + [t], now) == Recent(times + [t], now)
  {
    var kept := Recent(times, clock);
    PruningComposes(times, clock, now);
    RecentOfAppend(times, t, now);
    RecentOfAppend(kept, t, now);
  }

  lemma MonotoneAppend(times: seq<real>, clock: real, t: real, now: real)
    requires Monotone(times, clock) && clock <= t <= now
    ensures Monotone(times + [t], now)
  {
  }

  class DisconnectTracker {
    var disconnectTimes: seq<real>
    ghost var history: seq<real>
    ghost var clock: real

    ghost predicate Valid()
      reads this
    {
      Monotone(history, clock) && disconnectTimes == Recent(history, clock)
    }

    constructor (ghost now: real)
      ensures Valid() && history == [] && clock == now
    {
      disconnectTimes, history, clock := [], [], now;
    }

    /** Warns exactly when the full history holds five disconnects of the last hour; the clock is read twice. */
    method TrackConnection(connected: bool, dropped: real, now: real) returns (unstable: bool)
      requires Valid() && clock <= dropped <= now
      modifies this
      ensures Valid() && clock <= now
      ensures history == if connected then old(history) else old(history) + [dropped]
      ensures unstable <==> !connected && |Recent(history, now)| >= MAX_DISCONNECTS
    {
      if connected {
        return false;
      }
      ExtendThenPrune(history, clock, dropped, now);
      MonotoneAppend(history, clock, dropped, now);
      disconnectTimes := disconnectTimes + [dropped];
      history := history + [dropped];
      disconnectTimes := Recent(disconnectTimes, now);
      clock := now;
      unstable := |disconnectTimes| >= MAX_DISCONNECTS;
    }
  }
}
