/** The loop that makes the first connection after setup; it drives the same client as the reconnect loop. */
module InitialConnect {
  import opened Prelude
  import opened BondState
  import opened ConnectOutage
  import opened Reconnect
  import opened BleClient

  /** Attempts first and waits afterwards, so a lost bond slows down the very next wait. */
  method ConnectAndPoll(client: MelittaBleClient, base: real, max: real, rounds: seq<Round>, r: Repair)
    returns (waits: seq<real>, ok: bool)
    requires 0.0 <= base <= max && forall i | 0 <= i < |rounds| :: InOrder(rounds[i].now, rounds[i].wakes)
    modifies client, client.bond
    ensures var l := Connecting(old(client.State()), base, max, rounds, r);
            client.State() == l.client && waits == l.waits && ok == l.connected
  {
    var delay := base;
    waits, ok := [], false;
    ghost var l := Loop(client.State(), [], [], false);
    StartOfLoop(base, max);
    for i := 0 to |rounds|
      invariant l == Connecting(old(client.State()), base, max, rounds[..i], r) && !l.connected && !ok
      invariant client.State() == l.client && waits == l.waits && delay == InitialDelay(base, max, l.turns)
    {
      ConnectingNext(old(client.State()), base, max, rounds, r, i);
      var attempted;
      ghost var turn;
      attempted, ok, turn := client.TryOnce(rounds[i].gate, rounds[i].script, r);
      if ok {
        return;
      }
      if attempted && client.bond.state == PairingRequired {
        delay := max;
      }
      waits := waits + [delay];
      delay, l := ServeDelay(client, delay, base, max, rounds[i], l, turn);
    }
    assert rounds[..|rounds|] == rounds;
  }

  method ServeDelay(
      client: MelittaBleClient, served: real, base: real, max: real, round: Round, ghost l: Loop, ghost turn: Turn)
    returns (delay: real, ghost next: Loop)
    requires 0.0 <= base <= max && InOrder(round.now, round.wakes)
    requires !turn.connects && served == ServedDelay(base, max, l.turns, turn)
    modifies client`device, client`deviceSource, client`wasAbsent
    ensures next == EndPoll(l, base, max, round, old(client.State()), turn)
    ensures client.State() == next.client
    ensures delay == InitialDelay(base, max, next.turns)
  {
    next := EndPoll(l, base, max, round, client.State(), turn);
    InitialDelayNext(base, max, l.turns, next.turns[|l.turns|]);
    delay := served;
    var woken := client.WaitBackoff(delay, round.now, round.wakes);
    if woken {
      delay := base;
    }
    delay := Min(delay * 2.0, max);
  }
}
