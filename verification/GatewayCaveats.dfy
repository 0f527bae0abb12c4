/** A stop leaves the session lease in place once a start follows it. */
module GatewayCaveats {
  import opened Prelude
  import opened GatewayModel
  import opened GatewayRuns

  /** The last step of a stop clears the session lease exactly when no newer call has drawn a generation. */
  lemma StopClearsLeaseExactlyWhen(g: Gateway, k: nat)
    requires Enabled(g, StopResumes(k)) && (g.ledger.ops[k].StopPending? ==> g.ledger.ops[k].next.None?)
    ensures !Next(g, StopResumes(k)).leased <==> k == g.ledger.startGeneration || !g.leased
  {
  }

  /** A session is connected over a promoted tunnel and no start or stop is under way. */
  predicate Connected(g: Gateway) {
    && g.state == SESSION_CONNECTED && g.leased && g.ledger.tunnel.Some? && g.tunnelUrl.Some?
    && g.ledger.pendingStart.None? && g.ledger.ops == map[]
  }

  /** From every connected state: stop, and start before the stop has returned, and the old lease is still held. */
  lemma LeaseSurvivesSupersededStop(g: Gateway) returns (es: seq<Event>)
    requires Connected(g)
    ensures Runs(g, es) && es == [StopCall, StartCall, StopResumes(g.ledger.startGeneration + 1)]
    ensures After(g, es).leased && After(g, es).state == INITIALIZING && After(g, es).ledger.tunnel.None?
  {
    var k := g.ledger.startGeneration + 1;
    var g1 := Next(g, StopCall);
    assert g1.ledger.ops == map[k := StopTunnel];
    var g2 := Next(g1, StartCall);
    assert k in g2.ledger.ops && g2.ledger.ops[k] == StopTunnel && g2.ledger.startGeneration == k + 1;
    var g3 := Next(g2, StopResumes(k));
    hide Next, Runs, After;
    Nothing(g3);
    RunsCons(g2, StopResumes(k), []);
    RunsCons(g1, StartCall, [StopResumes(k)] + []);
    RunsCons(g, StopCall, [StartCall] + ([StopResumes(k)] + []));
    es := [StopCall] + ([StartCall] + ([StopResumes(k)] + []));
  }

  lemma Nothing(g: Gateway)
    ensures Runs(g, []) && After(g, []) == g
  {
  }
}
