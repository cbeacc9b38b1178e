/** The reconnect loops: the failure counter, the delays they serve, and the wait that serves them. */
module Reconnect {
  import opened Prelude
  import opened BondState
  import opened ConnectSpec
  import opened ConnectEvidence
  import opened ConnectOutage

  // ----- the failure counter -----

  /** The counters after n failed cycles since the last handshake, when the callback had fired `start` times before. */
  ghost predicate Wrapped(failures: int, repairs: nat, start: nat, n: nat, r: Repair) {
    if r.threshold > 0 && r.installed
    then n == r.threshold * (repairs - start) + failures && 0 <= failures < r.threshold
    else failures == n && repairs == start
  }

  lemma OneMoreFailure(failures: int, repairs: nat, start: nat, n: nat, r: Repair)
    requires Wrapped(failures, repairs, start, n, r)
    ensures var (f, m) := Counters(failures, repairs, r.threshold, r.installed); Wrapped(f, m, start, n + 1, r)
  {
    var fired := repairs - start;
    assert r.threshold * (fired + 1) == r.threshold * fired + r.threshold;
  }

  /** With threshold k and the callback installed, the n failed cycles since the last handshake have fired the repair
      callback n div k times and left n mod k in the counter; otherwise the counter holds every one of them. */
  lemma {:induction false} FailuresWrapAtThreshold(c: Client, events: seq<Event>, r: Repair)
    requires !c.episode.connected && AllFail(c, events, r) && c.episode.failures == 0
    ensures var e, span := Outage(c, events, r).episode, SpanOf(c, events, r);
            Wrapped(e.failures, e.repairs, span.fired, span.tries, r)
  {
    if events != [] {
      var most, last := events[..|events| - 1], events[|events| - 1];
      AllFailBefore(c, events, r);
      FailuresWrapAtThreshold(c, most, r);
      OutageCounts(c, events, r);
      if last.Tried? {
        var before, span := Outage(c, most, r), SpanOf(c, most, r);
        FailureWraps(before.episode.failures, before.episode.repairs, IsHandshaken(before, last.script), span, r);
      }
    }
  }

  /** One more failed cycle; a handshake in it starts the count anew. */
  lemma FailureWraps(failures: int, repairs: nat, handshaken: bool, span: Span, r: Repair)
    requires Wrapped(failures, repairs, span.fired, span.tries, r)
    ensures var (f, m) := Counters(if handshaken then 0 else failures, repairs, r.threshold, r.installed);
            if handshaken then Wrapped(f, m, repairs, 1, r) else Wrapped(f, m, span.fired, span.tries + 1, r)
  {
    if handshaken {
      OneMoreFailure(0, repairs, repairs, 0, r);
    } else {
      OneMoreFailure(failures, repairs, span.fired, span.tries, r);
    }
  }

  // ----- serving a delay -----

  /** An advertisement that reaches the client while it waits. */
  datatype Wake = Wake(at: real, ad: Advert)

  predicate InOrder(now: real, wakes: seq<Wake>) {
    && (forall i | 0 <= i < |wakes| :: now <= wakes[i].at)
    && forall i, j | 0 <= i < j < |wakes| :: wakes[i].at <= wakes[j].at
  }

  predicate Honours(e: Episode) {
    e.failures == 0 || e.absent
  }

  function WithAbsence(c: Client, absent: bool): Client {
    c.(episode := c.episode.(absent := absent))
  }

  /** The wait until the deadline, and whether an advertisement ended it. */
  function Wait(c: Client, deadline: real, wakes: seq<Wake>): (Client, bool)
    decreases |wakes|
  {
    if wakes == [] || wakes[0].at >= deadline then (c, false)
    else
      var heard := c.(radio := SetBleDevice(c.radio, wakes[0].ad));
      if Honours(heard.episode) then (WithAbsence(heard, false), true) else Wait(heard, deadline, wakes[1..])
  }

  predicate HeardBefore(deadline: real, wakes: seq<Wake>) {
    wakes != [] && wakes[0].at < deadline
  }

  /** The first advertisement decides: it ends the wait, and clears the absence, or no later one can. */
  lemma {:induction false} FirstWakeDecides(c: Client, deadline: real, wakes: seq<Wake>)
    ensures var (waited, woken) := Wait(c, deadline, wakes);
            && (woken <==> HeardBefore(deadline, wakes) && Honours(c.episode))
            && waited.episode == c.episode.(absent := c.episode.absent && !woken)
            && waited.bond == c.bond
    decreases |wakes|
  {
    if HeardBefore(deadline, wakes) && !Honours(c.episode) {
      FirstWakeDecides(c.(radio := SetBleDevice(c.radio, wakes[0].ad)), deadline, wakes[1..]);
    }
  }

  /** The advertisements of a wait that nothing ends early. */
  function AdsBefore(deadline: real, wakes: seq<Wake>): seq<Advert> {
    if wakes == [] || wakes[0].at >= deadline then [] else [wakes[0].ad] + AdsBefore(deadline, wakes[1..])
  }

  lemma {:induction false} AdvertsFromTheFront(r: Radio, ad: Advert, ads: seq<Advert>)
    ensures SetBleDevices(r, [ad] + ads) == SetBleDevices(SetBleDevice(r, ad), ads)
  {
    var all := [ad] + ads;
    if ads == [] {
      assert all[..0] == [];
    } else {
      assert all[..|all| - 1] == [ad] + ads[..|ads| - 1];
      AdvertsFromTheFront(r, ad, ads[..|ads| - 1]);
    }
  }

  /** A wait that is ended hears the advertisement that ends it, and any other all those before its deadline. */
  lemma {:induction false} WaitHears(c: Client, deadline: real, wakes: seq<Wake>)
    ensures var (waited, woken) := Wait(c, deadline, wakes);
            waited.radio == SetBleDevices(c.radio, if woken then [wakes[0].ad] else AdsBefore(deadline, wakes))
    decreases |wakes|
  {
    if HeardBefore(deadline, wakes) {
      var ad := wakes[0].ad;
      assert [ad][..0] == [];
      var heard := c.(radio := SetBleDevice(c.radio, ad));
      FirstWakeDecides(c, deadline, wakes);
      FirstWakeDecides(heard, deadline, wakes[1..]);
      WaitHears(heard, deadline, wakes[1..]);
      AdvertsFromTheFront(c.radio, ad, AdsBefore(deadline, wakes[1..]));
    }
  }

  /** What the callbacks say before an attempt: whether the scanner of the affinity is available, whether the machine is
      advertising, which advertisements that question pulls from a scanner cache, and whether a scanner is starved. */
  datatype Gate = Gate(available: Option<bool>, present: Option<bool>, pulled: seq<Advert>, starved: bool)

  /** The presence gate of both loops. */
  function Approach(c: Client, g: Gate): (Client, bool) {
    if c.radio.affinity.Some? && g.available == Some(false) then (WithAbsence(c, true), false)
    else
      var asked := c.(radio := SetBleDevices(c.radio, g.pulled));
      if g.present != Some(false) || g.starved then (asked, true) else (WithAbsence(asked, true), false)
  }

  /** An attempt is made unless the scanner of a known affinity is away, or the machine is off the air while every scanner
      hears something: a starved scanner says nothing about the machine. A refusal notes an absence, and only that. */
  lemma GateOpensIff(c: Client, g: Gate)
    ensures var (after, open) := Approach(c, g);
            var away := c.radio.affinity.Some? && g.available == Some(false);
            && (open <==> !away && (g.present == Some(false) ==> g.starved))
            && after.episode == c.episode.(absent := c.episode.absent || !open)
            && after.radio == SetBleDevices(c.radio, if away then [] else g.pulled)
            && after.bond == c.bond && after.log == c.log
  {
  }

  // ----- the delays -----

  /** What one turn of a loop came to; a turn without an attempt only waits. */
  datatype Turn = Turn(woken: bool, attempts: bool, connects: bool, handshaken: bool, pairingRequired: bool)

  function Pow2(n: nat): nat {
    if n == 0 then 1 else 2 * Pow2(n - 1)
  }

  /** The delay after m doublings, capped. */
  function Backoff(base: real, max: real, m: nat): real {
    Min(base * Pow2(m) as real, max)
  }

  lemma BackoffDoubles(base: real, max: real, m: nat)
    requires 0.0 <= base <= max
    ensures Min(Backoff(base, max, m) * 2.0, max) == Backoff(base, max, m + 1)
    ensures base <= Backoff(base, max, m) <= max
    ensures Backoff(base, max, 0) == base
  {
    Pow2IsPositive(m);
    var p := Pow2(m) as real;
    assert Pow2(m + 1) as real == 2.0 * p;
    assert base * (2.0 * p) == base * p * 2.0;
    assert base * p >= base * 1.0;
  }

  lemma {:induction false} Pow2IsPositive(n: nat)
    ensures Pow2(n) >= 1
  {
    if n > 0 {
      Pow2IsPositive(n - 1);
    }
  }

  /** How many doublings separate the next turn from the last honoured wake-up, or from the start of the loop. */
  function SinceWake(turns: seq<Turn>): (m: nat)
    ensures m <= |turns|
  {
    if turns == [] then 0
    else if turns[|turns| - 1].woken then 1 else SinceWake(turns[..|turns| - 1]) + 1
  }

  /** A failed attempt of the last n turns left the bond needing to be paired anew. */
  ghost predicate PinnedIn(turns: seq<Turn>, n: nat)
    requires n <= |turns|
  {
    exists k :: |turns| - n <= k < |turns| && turns[k].pairingRequired
  }

  /** The delay after these turns: exponential since the last honoured wake-up, at its cap while pairing is required. */
  ghost function ReconnectDelay(base: real, max: real, turns: seq<Turn>): (delay: real)
    requires 0.0 <= base <= max
    ensures base <= delay <= max
  {
    BackoffDoubles(base, max, SinceWake(turns));
    if PinnedIn(turns, SinceWake(turns)) then max else Backoff(base, max, SinceWake(turns))
  }

  lemma PinnedNext(turns: seq<Turn>, t: Turn, n: nat)
    requires n <= |turns|
    ensures PinnedIn(turns + [t], n + 1) <==> PinnedIn(turns, n) || t.pairingRequired
  {
    var longer := turns + [t];
    if k :| |turns| - n <= k < |turns| && turns[k].pairingRequired {
      assert longer[k].pairingRequired;
    }
    if t.pairingRequired {
      assert longer[|turns|].pairingRequired;
    }
  }

  /** The delay of the reconnect loop after one more turn. */
  function NextDelay(served: real, base: real, max: real, t: Turn): real {
    if t.pairingRequired then max else Min((if t.woken then base else served) * 2.0, max)
  }

  lemma ReconnectDelayNext(base: real, max: real, turns: seq<Turn>, t: Turn)
    requires 0.0 <= base <= max
    ensures ReconnectDelay(base, max, turns + [t]) == NextDelay(ReconnectDelay(base, max, turns), base, max, t)
  {
    assert (turns + [t])[..|turns|] == turns;
    BackoffDoubles(base, max, SinceWake(turns));
    BackoffDoubles(base, max, 0);
    PinnedNext(turns, t, if t.woken then 0 else SinceWake(turns));
  }

  // ----- the loop after a disconnect -----

  /** What the world does in one turn: the advertisements during the wait, the gate, and the cycle if it is attempted. */
  datatype Round = Round(now: real, wakes: seq<Wake>, gate: Gate, script: CycleScript)

  /** A loop in progress: the client, the turns taken, the delays served, and whether an attempt has connected. */
  datatype Loop = Loop(client: Client, turns: seq<Turn>, waits: seq<real>, connected: bool)

  /** The gate and, when it opens, one attempt with the note of its failure. */
  function TryOnce(c: Client, gate: Gate, script: CycleScript, r: Repair): (Client, Turn) {
    var (ready, open) := Approach(c, gate);
    if !open then (ready, Turn(false, false, false, false, false))
    else
      var handshaken := IsHandshaken(ready, script);
      var (tried, ok) := Connect(ready, script);
      if ok then (tried, Turn(false, true, true, handshaken, false))
      else
        var noted := NoteFailure(tried, r.threshold, r.installed, script.now);
        (noted, Turn(false, true, false, handshaken, noted.bond.state == PairingRequired))
  }

  ghost function TakeTurn(l: Loop, base: real, max: real, round: Round, r: Repair): Loop
    requires 0.0 <= base <= max
  {
    var delay := ReconnectDelay(base, max, l.turns);
    var (after, turn) := Turned(l.client, delay, round, r);
    EndTurn(l, delay, after, turn)
  }

  function Turned(c: Client, delay: real, round: Round, r: Repair): (Client, Turn) {
    AfterWait(Waited(c, delay, round), round, r)
  }

  function Waited(c: Client, delay: real, round: Round): (Client, bool) {
    Wait(c, round.now + delay, round.wakes)
  }

  function AfterWait(waited: (Client, bool), round: Round, r: Repair): (Client, Turn) {
    var (after, turn) := TryOnce(waited.0, round.gate, round.script, r);
    (after, turn.(woken := waited.1))
  }

  function EndTurn(l: Loop, delay: real, after: Client, turn: Turn): Loop {
    Loop(after, l.turns + [turn], l.waits + [delay], turn.connects)
  }

  /** The loop that runs after a disconnect: wait, then attempt, until an attempt connects. */
  ghost function Reconnecting(c: Client, base: real, max: real, rounds: seq<Round>, r: Repair): Loop
    requires 0.0 <= base <= max
  {
    if rounds == [] then Loop(c, [], [], false)
    else
      var l := Reconnecting(c, base, max, rounds[..|rounds| - 1], r);
      if l.connected then l else TakeTurn(l, base, max, rounds[|rounds| - 1], r)
  }

  /** One more round; an attempt that connects ends the loop, whatever rounds follow. */
  lemma ReconnectingNext(c: Client, base: real, max: real, rounds: seq<Round>, r: Repair, i: nat)
    requires 0.0 <= base <= max && i < |rounds|
    ensures var l := Reconnecting(c, base, max, rounds[..i], r);
            !l.connected ==>
              var next := TakeTurn(l, base, max, rounds[i], r);
              && Reconnecting(c, base, max, rounds[..i + 1], r) == next
              && (next.connected ==> Reconnecting(c, base, max, rounds, r) == next)
  {
    assert rounds[..i + 1][..i] == rounds[..i];
    var l := Reconnecting(c, base, max, rounds[..i + 1], r);
    if l.connected {
      ConnectedStays(c, base, max, rounds, r, i + 1);
    }
  }

  lemma {:induction false} ConnectedStays(c: Client, base: real, max: real, rounds: seq<Round>, r: Repair, i: nat)
    requires 0.0 <= base <= max && i <= |rounds| && Reconnecting(c, base, max, rounds[..i], r).connected
    ensures Reconnecting(c, base, max, rounds, r) == Reconnecting(c, base, max, rounds[..i], r)
    decreases |rounds|
  {
    if i < |rounds| {
      assert rounds[..|rounds| - 1][..i] == rounds[..i];
      ConnectedStays(c, base, max, rounds[..|rounds| - 1], r, i);
    } else {
      assert rounds[..i] == rounds;
    }
  }

  /** Each wait serves the delay that the turns before it call for. */
  ghost predicate Served(waits: seq<real>, turns: seq<Turn>, base: real, max: real)
    requires 0.0 <= base <= max
  {
    |waits| == |turns| && forall i | 0 <= i < |waits| :: waits[i] == ReconnectDelay(base, max, turns[..i])
  }

  lemma ServedNext(waits: seq<real>, turns: seq<Turn>, t: Turn, base: real, max: real)
    requires 0.0 <= base <= max && Served(waits, turns, base, max)
    ensures Served(waits + [ReconnectDelay(base, max, turns)], turns + [t], base, max)
  {
    forall i | 0 <= i <= |turns| ensures (turns + [t])[..i] == turns[..i] {
    }
    assert turns[..|turns|] == turns;
  }

  lemma {:induction false} WaitsAreDelays(c: Client, base: real, max: real, rounds: seq<Round>, r: Repair)
    requires 0.0 <= base <= max
    ensures var l := Reconnecting(c, base, max, rounds, r); Served(l.waits, l.turns, base, max)
  {
    if rounds != [] {
      WaitsAreDelays(c, base, max, rounds[..|rounds| - 1], r);
      var l := Reconnecting(c, base, max, rounds[..|rounds| - 1], r);
      ServedNext(l.waits, l.turns, TakeTurn(l, base, max, rounds[|rounds| - 1], r).turns[|l.turns|], base, max);
    }
  }

  lemma StartOfLoop(base: real, max: real)
    requires 0.0 <= base <= max
    ensures ReconnectDelay(base, max, []) == base && InitialDelay(base, max, []) == base
  {
    BackoffDoubles(base, max, 0);
  }

  // ----- the initial-connect loop -----

  /** The turns since the last honoured wake-up, or since the start of the loop. */
  function AfterWake(turns: seq<Turn>): (m: nat)
    ensures m <= |turns|
  {
    if turns == [] || turns[|turns| - 1].woken then 0 else AfterWake(turns[..|turns| - 1]) + 1
  }

  /** The delay the initial-connect loop holds before the attempt of its next turn. */
  ghost function InitialDelay(base: real, max: real, turns: seq<Turn>): (delay: real)
    requires 0.0 <= base <= max
    ensures base <= delay <= max
  {
    BackoffDoubles(base, max, SinceWake(turns));
    if PinnedIn(turns, AfterWake(turns)) then max else Backoff(base, max, SinceWake(turns))
  }

  /** A lost bond slows down the very next wait. */
  ghost function ServedDelay(base: real, max: real, turns: seq<Turn>, t: Turn): (delay: real)
    requires 0.0 <= base <= max
    ensures base <= delay <= max
  {
    if t.pairingRequired then max else InitialDelay(base, max, turns)
  }

  lemma InitialDelayNext(base: real, max: real, turns: seq<Turn>, t: Turn)
    requires 0.0 <= base <= max
    ensures InitialDelay(base, max, turns + [t]) ==
            Min((if t.woken then base else ServedDelay(base, max, turns, t)) * 2.0, max)
  {
    assert (turns + [t])[..|turns|] == turns;
    BackoffDoubles(base, max, SinceWake(turns));
    BackoffDoubles(base, max, 0);
    PinnedNext(turns, t, AfterWake(turns));
  }

  ghost function PollTurn(l: Loop, base: real, max: real, round: Round, r: Repair): Loop
    requires 0.0 <= base <= max
  {
    var (after, turn) := TryOnce(l.client, round.gate, round.script, r);
    EndPoll(l, base, max, round, after, turn)
  }

  /** A turn of the initial-connect loop from the end of its attempt. */
  ghost function EndPoll(l: Loop, base: real, max: real, round: Round, after: Client, turn: Turn): Loop
    requires 0.0 <= base <= max
  {
    if turn.connects then Loop(after, l.turns + [turn], l.waits, true)
    else
      var delay := ServedDelay(base, max, l.turns, turn);
      var (waited, woken) := Wait(after, round.now + delay, round.wakes);
      Loop(waited, l.turns + [turn.(woken := woken)], l.waits + [delay], false)
  }

  /** The loop that makes the first connection: attempt, then wait. */
  ghost function Connecting(c: Client, base: real, max: real, rounds: seq<Round>, r: Repair): Loop
    requires 0.0 <= base <= max
  {
    if rounds == [] then Loop(c, [], [], false)
    else
      var l := Connecting(c, base, max, rounds[..|rounds| - 1], r);
      if l.connected then l else PollTurn(l, base, max, rounds[|rounds| - 1], r)
  }

  lemma ConnectingNext(c: Client, base: real, max: real, rounds: seq<Round>, r: Repair, i: nat)
    requires 0.0 <= base <= max && i < |rounds|
    ensures var l := Connecting(c, base, max, rounds[..i], r);
            !l.connected ==>
              var next := PollTurn(l, base, max, rounds[i], r);
              && Connecting(c, base, max, rounds[..i + 1], r) == next
              && (next.connected ==> Connecting(c, base, max, rounds, r) == next)
  {
    assert rounds[..i + 1][..i] == rounds[..i];
    var l := Connecting(c, base, max, rounds[..i + 1], r);
    if l.connected {
      EstablishedStays(c, base, max, rounds, r, i + 1);
    }
  }

  lemma {:induction false} EstablishedStays(c: Client, base: real, max: real, rounds: seq<Round>, r: Repair, i: nat)
    requires 0.0 <= base <= max && i <= |rounds| && Connecting(c, base, max, rounds[..i], r).connected
    ensures Connecting(c, base, max, rounds, r) == Connecting(c, base, max, rounds[..i], r)
    decreases |rounds|
  {
    if i < |rounds| {
      assert rounds[..|rounds| - 1][..i] == rounds[..i];
      EstablishedStays(c, base, max, rounds[..|rounds| - 1], r, i);
    } else {
      assert rounds[..i] == rounds;
    }
  }

  // ----- when a wake-up is honoured -----

  /** The failed attempts since the last handshake. */
  function FailedSince(turns: seq<Turn>): nat {
    if turns == [] then 0
    else FailedAfter(FailedSince(turns[..|turns| - 1]), turns[|turns| - 1])
  }

  function FailedAfter(n: nat, t: Turn): nat {
    if !t.attempts then n else if t.handshaken then 1 else n + 1
  }

  /** The absence flag once the attempt of a turn is over. */
  function AbsentTried(absent: bool, t: Turn): bool {
    !t.attempts || (absent && !t.handshaken)
  }

  /** The failure counter after n failed attempts in a row. */
  function CounterAfter(n: nat, r: Repair): nat {
    if r.threshold > 0 && r.installed then n % r.threshold else n
  }

  lemma CounterNext(n: nat, repairs: nat, r: Repair)
    ensures Counters(CounterAfter(n, r), repairs, r.threshold, r.installed).0 == CounterAfter(n + 1, r)
  {
    if r.threshold > 0 && r.installed {
      var k, d := r.threshold, n / r.threshold;
      assert n == d * k + n % k;
      if n % k + 1 == k {
        assert n + 1 == (d + 1) * k;
        RemainderOf(n + 1, k, d + 1, 0);
      } else {
        RemainderOf(n + 1, k, d, n % k + 1);
      }
    }
  }

  lemma RemainderOf(n: nat, k: nat, d: nat, m: nat)
    requires n == d * k + m && m < k
    ensures n % k == m
  {
    var e, rest := n / k, n % k;
    assert n == e * k + rest;
    OnlyQuotient(k, d, m, e, rest);
  }

  lemma OnlyQuotient(k: nat, d: nat, m: nat, e: nat, rest: nat)
    requires d * k + m == e * k + rest && m < k && rest < k
    ensures m == rest
  {
    if d < e {
      NextMultiple(k, d, e);
    } else if e < d {
      NextMultiple(k, e, d);
    }
  }

  lemma NextMultiple(k: nat, d: nat, e: nat)
    requires d < e
    ensures d * k + k <= e * k
  {
    var gap := e - d - 1;
    assert e * k == (d + 1 + gap) * k == d * k + k + gap * k;
    assert gap * k >= 0;
  }

  /** A disconnected client whose failure counter stands at n failed attempts. */
  predicate Counts(c: Client, n: nat, absent: bool, r: Repair) {
    !c.episode.connected && c.episode.failures == CounterAfter(n, r) && c.episode.absent == absent
  }

  lemma WaitCounts(c: Client, deadline: real, wakes: seq<Wake>, n: nat, absent: bool, r: Repair)
    requires Counts(c, n, absent, r)
    ensures var waited := Wait(c, deadline, wakes); Counts(waited.0, n, absent && !waited.1, r)
  {
    FirstWakeDecides(c, deadline, wakes);
  }

  lemma AttemptCounts(c: Client, gate: Gate, s: CycleScript, n: nat, absent: bool, r: Repair)
    requires Counts(c, n, absent, r) && !TryOnce(c, gate, s, r).1.connects
    ensures var (after, turn) := TryOnce(c, gate, s, r); Counts(after, FailedAfter(n, turn), AbsentTried(absent, turn), r)
  {
    var (ready, open) := Approach(c, gate);
    assert Counts(ready, n, absent || !open, r);
    if open {
      FailedCycleKeeps(ready, s);
      NoteCounts(Connect(ready, s).0, r, s.now);
      CounterNext(n, c.episode.repairs, r);
      CounterNext(0, c.episode.repairs, r);
    }
  }

  /** The absence flag of the reconnect loop after these turns. */
  function AbsentAfter(absent: bool, turns: seq<Turn>): bool {
    if turns == [] then absent
    else
      var before, last := AbsentAfter(absent, turns[..|turns| - 1]), turns[|turns| - 1];
      AbsentTried(before && !last.woken, last)
  }

  lemma {:induction false} ReconnectingCounts(c: Client, base: real, max: real, rounds: seq<Round>, r: Repair)
    requires 0.0 <= base <= max && Counts(c, 0, c.episode.absent, r)
    ensures var l := Reconnecting(c, base, max, rounds, r);
            !l.connected ==> Counts(l.client, FailedSince(l.turns), AbsentAfter(c.episode.absent, l.turns), r)
  {
    if rounds != [] {
      var most, last := rounds[..|rounds| - 1], rounds[|rounds| - 1];
      ReconnectingCounts(c, base, max, most, r);
      var l := Reconnecting(c, base, max, most, r);
      if !l.connected && !TakeTurn(l, base, max, last, r).connected {
        TurnCounts(l, base, max, last, r, c.episode.absent);
      }
    }
  }

  lemma TurnCounts(l: Loop, base: real, max: real, round: Round, r: Repair, absent: bool)
    requires 0.0 <= base <= max && !TakeTurn(l, base, max, round, r).connected
    requires Counts(l.client, FailedSince(l.turns), AbsentAfter(absent, l.turns), r)
    ensures var after := TakeTurn(l, base, max, round, r);
            Counts(after.client, FailedSince(after.turns), AbsentAfter(absent, after.turns), r)
  {
    var delay := ReconnectDelay(base, max, l.turns);
    TurnedCounts(l.client, delay, round, r, FailedSince(l.turns), AbsentAfter(absent, l.turns));
    var (after, turn) := Turned(l.client, delay, round, r);
    TurnsNext(l.turns, turn, absent);
  }

  lemma TurnedCounts(c: Client, delay: real, round: Round, r: Repair, n: nat, absent: bool)
    requires Counts(c, n, absent, r)
    ensures var turned := Turned(c, delay, round, r); turned.1.connects || TurnCounted(turned, n, absent, r)
  {
    WaitedCounts(c, delay, round, n, absent, r);
    AfterWaitCounts(Waited(c, delay, round), round, r, n, absent);
  }

  lemma WaitedCounts(c: Client, delay: real, round: Round, n: nat, absent: bool, r: Repair)
    requires Counts(c, n, absent, r)
    ensures var waited := Waited(c, delay, round); Counts(waited.0, n, absent && !waited.1, r)
  {
    WaitCounts(c, round.now + delay, round.wakes, n, absent, r);
  }

  lemma AfterWaitCounts(waited: (Client, bool), round: Round, r: Repair, n: nat, absent: bool)
    requires Counts(waited.0, n, absent && !waited.1, r)
    ensures var turned := AfterWait(waited, round, r); turned.1.connects || TurnCounted(turned, n, absent, r)
  {
    if !TryOnce(waited.0, round.gate, round.script, r).1.connects {
      AttemptCounts(waited.0, round.gate, round.script, n, absent && !waited.1, r);
    }
  }

  predicate TurnCounted(turned: (Client, Turn), n: nat, absent: bool, r: Repair) {
    Counts(turned.0, FailedAfter(n, turned.1), AbsentTried(absent && !turned.1.woken, turned.1), r)
  }

  /** The next turn is woken exactly by an advertisement before its deadline, when an absence was noted or the failed
      attempts have wrapped the counter back to 0. */
  ghost predicate WakesExactly(l: Loop, base: real, max: real, round: Round, r: Repair, absent: bool)
    requires 0.0 <= base <= max
  {
    TakeTurn(l, base, max, round, r).turns[|l.turns|].woken <==>
    && HeardBefore(round.now + ReconnectDelay(base, max, l.turns), round.wakes)
    && (absent || CounterAfter(FailedSince(l.turns), r) == 0)
  }

  lemma TurnWakesExactly(l: Loop, base: real, max: real, round: Round, r: Repair, absent: bool)
    requires 0.0 <= base <= max && Counts(l.client, FailedSince(l.turns), absent, r)
    ensures WakesExactly(l, base, max, round, r, absent)
  {
    FirstWakeDecides(l.client, round.now + ReconnectDelay(base, max, l.turns), round.wakes);
  }

  /** The main result on wake-ups: an advertisement before the deadline is honoured exactly when an absence was noted since
      the last wake-up and handshake, or the failed attempts since that handshake are a multiple of the repair threshold;
      so the full delay is served after every other failure. */
  lemma WakeIsHonouredIff(c: Client, base: real, max: real, rounds: seq<Round>, round: Round, r: Repair)
    requires 0.0 <= base <= max && Counts(c, 0, c.episode.absent, r)
    requires !Reconnecting(c, base, max, rounds, r).connected
    ensures var l := Reconnecting(c, base, max, rounds, r);
            WakesExactly(l, base, max, round, r, AbsentAfter(c.episode.absent, l.turns))
  {
    ReconnectingCounts(c, base, max, rounds, r);
    var l := Reconnecting(c, base, max, rounds, r);
    TurnWakesExactly(l, base, max, round, r, AbsentAfter(c.episode.absent, l.turns));
  }

  /** The absence flag of the initial-connect loop after these turns. */
  function AbsentPolled(absent: bool, turns: seq<Turn>): bool {
    if turns == [] then absent
    else !turns[|turns| - 1].woken && AbsentTried(AbsentPolled(absent, turns[..|turns| - 1]), turns[|turns| - 1])
  }

  /** After the attempt of a turn that did not connect, its wait ends exactly on an advertisement before the deadline, when
      an absence is noted or the failed attempts have wrapped the counter back to 0. */
  predicate PollWakesExactly(t: Turn, heard: bool, failed: nat, absent: bool, r: Repair) {
    t.woken <==> heard && (AbsentTried(absent, t) || CounterAfter(FailedAfter(failed, t), r) == 0)
  }

  ghost predicate PollsExactly(l: Loop, next: Loop, base: real, max: real, round: Round, r: Repair, absent: bool)
    requires 0.0 <= base <= max && |next.turns| == |l.turns| + 1
  {
    var t := next.turns[|l.turns|];
    var heard := HeardBefore(round.now + ServedDelay(base, max, l.turns, t), round.wakes);
    t.connects || PollWakesExactly(t, heard, FailedSince(l.turns), absent, r)
  }

  lemma EndPollCounts(
      l: Loop, base: real, max: real, round: Round, after: Client, turn: Turn, r: Repair, absent: bool)
    requires 0.0 <= base <= max && !turn.connects
    requires Counts(after, FailedAfter(FailedSince(l.turns), turn), AbsentTried(AbsentPolled(absent, l.turns), turn), r)
    ensures var next := EndPoll(l, base, max, round, after, turn);
            && PollsExactly(l, next, base, max, round, r, AbsentPolled(absent, l.turns))
            && Counts(next.client, FailedSince(next.turns), AbsentPolled(absent, next.turns), r)
  {
    var failed, was := FailedSince(l.turns), AbsentPolled(absent, l.turns);
    var deadline := round.now + ServedDelay(base, max, l.turns, turn);
    PolledWait(after, turn, deadline, round.wakes, failed, was, r);
    TurnsNext(l.turns, turn.(woken := Wait(after, deadline, round.wakes).1), absent);
  }

  lemma PolledWait(c: Client, turn: Turn, deadline: real, wakes: seq<Wake>, failed: nat, absent: bool, r: Repair)
    requires Counts(c, FailedAfter(failed, turn), AbsentTried(absent, turn), r)
    ensures var (waited, woken) := Wait(c, deadline, wakes);
            && Counts(waited, FailedAfter(failed, turn), !woken && AbsentTried(absent, turn), r)
            && PollWakesExactly(turn.(woken := woken), HeardBefore(deadline, wakes), failed, absent, r)
  {
    WaitCounts(c, deadline, wakes, FailedAfter(failed, turn), AbsentTried(absent, turn), r);
    FirstWakeDecides(c, deadline, wakes);
  }

  lemma PollTurnCounts(l: Loop, base: real, max: real, round: Round, r: Repair, absent: bool)
    requires 0.0 <= base <= max
    requires Counts(l.client, FailedSince(l.turns), AbsentPolled(absent, l.turns), r)
    ensures var next := PollTurn(l, base, max, round, r);
            && PollsExactly(l, next, base, max, round, r, AbsentPolled(absent, l.turns))
            && (!next.connected ==> Counts(next.client, FailedSince(next.turns), AbsentPolled(absent, next.turns), r))
  {
    var (after, turn) := TryOnce(l.client, round.gate, round.script, r);
    if !turn.connects {
      AttemptCounts(l.client, round.gate, round.script, FailedSince(l.turns), AbsentPolled(absent, l.turns), r);
      EndPollCounts(l, base, max, round, after, turn, r, absent);
    }
  }

  lemma TurnsNext(turns: seq<Turn>, t: Turn, absent: bool)
    ensures FailedSince(turns + [t]) == FailedAfter(FailedSince(turns), t)
    ensures AbsentPolled(absent, turns + [t]) == (!t.woken && AbsentTried(AbsentPolled(absent, turns), t))
    ensures AbsentAfter(absent, turns + [t]) == AbsentTried(AbsentAfter(absent, turns) && !t.woken, t)
  {
    assert (turns + [t])[..|turns|] == turns;
  }

  /** The same result on the wake-ups of the initial-connect loop, whose attempt comes before the wait of its turn. */
  lemma {:induction false} FirstWakeIsHonouredIff(
      c: Client, base: real, max: real, rounds: seq<Round>, round: Round, r: Repair)
    requires 0.0 <= base <= max && Counts(c, 0, c.episode.absent, r)
    requires !Connecting(c, base, max, rounds, r).connected
    ensures var l := Connecting(c, base, max, rounds, r);
            var next, absent := PollTurn(l, base, max, round, r), AbsentPolled(c.episode.absent, l.turns);
            && Counts(l.client, FailedSince(l.turns), absent, r)
            && PollsExactly(l, next, base, max, round, r, absent)
    decreases |rounds|
  {
    if rounds != [] {
      var most, last := rounds[..|rounds| - 1], rounds[|rounds| - 1];
      FirstWakeIsHonouredIff(c, base, max, most, last, r);
      PollTurnCounts(Connecting(c, base, max, most, r), base, max, last, r, c.episode.absent);
    }
    PollTurnCounts(Connecting(c, base, max, rounds, r), base, max, round, r, c.episode.absent);
  }
}
