/** What a stop guarantees once it is the last lifecycle call, and the one start that escapes it. */
module GatewayStop {
  import opened Prelude
  import opened GatewayModel
  import opened GatewayOwnership
  import opened GatewayRuns

  predicate LifecycleCall(e: Event) { e.StartCall? || e.StopCall? }

  predicate NoLifecycleCall(es: seq<Event>) { forall i :: 0 <= i < |es| ==> !LifecycleCall(es[i]) }

  /** The stop that drew the current generation has returned. */
  predicate StopReturned(g: Gateway) { g.ledger.startGeneration !in g.ledger.ops }

  /** Starts that failed and are stopping their own tunnel. */
  ghost predicate FailurePending(g: Gateway) { exists k <- g.ledger.ops :: g.ledger.ops[k].FailStopping? }

  /** Everything a stop establishes except the state itself. */
  ghost predicate Stopping(g: Gateway) {
    && !g.desiredRunning && g.ledger.tunnel.None? && g.ledger.pendingStart.None?
    && (g.ledger.startGeneration in g.ledger.ops ==> !IsStart(g.ledger.ops[g.ledger.startGeneration]))
    && (StopReturned(g) ==> g.tunnelUrl.None? && !g.leased && (g.state == STOPPED || g.state == ERROR))
  }

  /** `h` follows `g` by one event: no tunnel was promoted, no failure began, and only a failure that resumes
      (`failed`) takes a returned stop out of STOPPED. */
  ghost predicate StaysStopping(g: Gateway, failed: bool, h: Gateway) {
    && Stopping(h)
    && h.ledger.promotions == g.ledger.promotions && h.ledger.overwritten == g.ledger.overwritten
    && (forall k <- h.ledger.ops :: h.ledger.ops[k].FailStopping? ==> k in g.ledger.ops && g.ledger.ops[k].FailStopping?)
    && (StopReturned(g) ==> StopReturned(h))
    && (StopReturned(g) ==> (h.state == STOPPED <==> g.state == STOPPED && !failed))
    && (!StopReturned(g) && StopReturned(h) ==> h.state == STOPPED)
  }

  lemma StopBegins(g: Gateway)
    requires Keys(g.ledger)
    ensures Stopping(Stop(g))
    ensures StopReturned(Stop(g)) ==> Stop(g).state == STOPPED
  {
    assert g.ledger.startGeneration + 1 !in g.ledger.ops;
  }

  lemma BeginStopOps(l: Ledger)
    ensures forall k <- BeginStop(l).ops :: k == l.startGeneration + 1 || (k in l.ops && BeginStop(l).ops[k] == l.ops[k])
    ensures BeginStop(l).overwritten == l.overwritten && BeginStop(l).startGeneration == l.startGeneration + 1
  {
  }

  lemma StopBeginsNoFailure(g: Gateway)
    requires Keys(g.ledger)
    ensures FailurePending(Stop(g)) ==> FailurePending(g)
    ensures Stop(g).ledger.overwritten == g.ledger.overwritten
  {
    hide Keys;
    BeginStopOps(g.ledger);
    StopBegins(g);
    assert Stop(g).ledger == BeginStop(g.ledger);
  }

  lemma RefuseStays(g: Gateway, k: nat, c: Caller)
    requires Stopping(g) && k in g.ledger.ops && k != g.ledger.startGeneration
    ensures StaysStopping(g, false, Refuse(g, k, c))
    ensures StaysStopping(g, true, Refuse(g.(state := ERROR), k, c))
    ensures StaysStopping(g, false, Refuse(g.(ledger := g.ledger.(late := g.ledger.late + {k})), k, c))
  {
  }

  lemma SuspendStays(g: Gateway, k: nat, t: Tunnel, c: Continuation)
    requires Stopping(g) && k in g.ledger.ops && (k == g.ledger.startGeneration ==> !IsStart(c)) && !c.FailStopping?
    ensures StaysStopping(g, false, g.(ledger := YieldAndStop(g.ledger, k, t, c)))
    ensures k in g.ledger.pendings ==> StaysStopping(g, false, g.(ledger := Release(g.ledger, k, t, c)))
    ensures StaysStopping(g, false, g.(ledger := StopNext(g.ledger, k, t)))
  {
  }

  lemma EndStays(g: Gateway, k: nat)
    requires Stopping(g) && k in g.ledger.ops
    ensures k != g.ledger.startGeneration ==> StaysStopping(g, false, g.(ledger := End(g.ledger, k)))
    ensures k == g.ledger.startGeneration ==> StaysStopping(g, false, Settle(g.(ledger := End(g.ledger, k))))
    ensures forall c :: k != g.ledger.startGeneration ==> StaysStopping(g, false, Answer(g.(ledger := End(g.ledger, k)), c, false))
  {
  }

  lemma DiscardStays(g: Gateway, k: nat, t: Tunnel, c: Caller)
    requires Stopping(g) && k in g.ledger.ops && k in g.ledger.pendings && k != g.ledger.startGeneration
    ensures StaysStopping(g, false, Discard(g, k, t, c))
  {
    hide StaysStopping;
    SuspendStays(g, k, t, Discarding(c));
    RefuseStays(g, k, c);
  }

  lemma ProbeStays(g: Gateway, k: nat, status: int)
    requires Stopping(g) && Enabled(g, ProbeReturns(k, status))
    ensures StaysStopping(g, false, Next(g, ProbeReturns(k, status)))
  {
    var t, c := g.ledger.ops[k].probed, g.ledger.ops[k].caller;
    DiscardStays(g.(ledger := NoteProbe(g.ledger, t, status)), k, t, c);
    assert Superseded(g, k);
  }

  lemma StartStays(g: Gateway, e: Event)
    requires Stopping(g) && Enabled(g, e)
    requires e.StaleStopped? || e.ProviderYields? || e.ProviderFails? || e.ProviderCancelled? || e.ProbeThrows? || e.Discarded? || e.FailStopped?
    ensures StaysStopping(g, e.FailStopped?, Next(g, e))
  {
    hide StaysStopping;
    var k, c := e.k, g.ledger.ops[e.k].caller;
    if e.StaleStopped? { EndStays(g, k); }
    else if e.ProviderYields? { assert Superseded(g, k); SuspendStays(g, k, e.t, Discarding(c)); }
    else if e.ProbeThrows? { DiscardStays(g, k, g.ledger.ops[k].probed, c); }
    else { RefuseStays(g, k, c); }
  }

  lemma StopStays(g: Gateway, k: nat)
    requires Stopping(g) && Enabled(g, StopResumes(k))
    ensures StaysStopping(g, false, Next(g, StopResumes(k)))
  {
    hide StaysStopping;
    EndStays(g, k);
    if g.ledger.ops[k].StopPending? && g.ledger.ops[k].next.Some? { SuspendStays(g, k, g.ledger.ops[k].next.value, StopTunnel); }
  }

  lemma SessionStays(g: Gateway, e: Event)
    requires Stopping(g) && Enabled(g, e)
    requires e.ConnectCall? || e.DisconnectCall? || e.LeaseExpires? || e.MonitorFires? || e.MonitorProbed? || e.RecoveryResumes?
          || e.ReconnectFires? || e.ReconnectResumes? || e.LateYields? || e.LateFails?
    ensures StaysStopping(g, false, Next(g, e))
  {
  }

  lemma StoppingStep(g: Gateway, e: Event)
    requires Stopping(g) && Enabled(g, e) && !LifecycleCall(e)
    ensures StaysStopping(g, e.FailStopped?, Next(g, e))
  {
    hide StaysStopping, Stopping, Next;
    match e
    case ProbeReturns(k, status) => ProbeStays(g, k, status);
    case StopResumes(k) => StopStays(g, k);
    case StaleStopped(_) => StartStays(g, e);
    case ProviderYields(_, _, _) => StartStays(g, e);
    case ProviderFails(_) => StartStays(g, e);
    case ProviderCancelled(_) => StartStays(g, e);
    case ProbeThrows(_) => StartStays(g, e);
    case Discarded(_) => StartStays(g, e);
    case FailStopped(_) => StartStays(g, e);
    case _ => SessionStays(g, e);
  }

  // ---------------------------------------------------------------- runs after a stop

  /** From a stop on, through any run without a further lifecycle call. */
  lemma {:induction false} StoppingRun(g: Gateway, es: seq<Event>)
    requires Stopping(g) && Runs(g, es) && NoLifecycleCall(es)
    ensures Stopping(After(g, es)) && After(g, es).ledger.overwritten == g.ledger.overwritten
    ensures After(g, es).ledger.promotions == g.ledger.promotions
    ensures FailurePending(After(g, es)) ==> FailurePending(g)
    ensures !FailurePending(g) && (StopReturned(g) ==> g.state == STOPPED) ==>
              (StopReturned(After(g, es)) ==> After(g, es).state == STOPPED)
    ensures StopReturned(g) ==> StopReturned(After(g, es))
    decreases |es|
  {
    if es != [] {
      var h := Next(g, es[0]);
      StoppingStep(g, es[0]);
      assert NoLifecycleCall(es[1..]) by { forall i | 0 <= i < |es[1..]| ensures !LifecycleCall(es[1..][i]) { assert es[1..][i] == es[i + 1]; } }
      StoppingRun(h, es[1..]);
    }
  }

  /**
   Stop wins.  `stop` is called in any sound state in which no failed start is still stopping its
   tunnel, and no lifecycle call follows.  Whatever else happens, once that stop has returned the
   state is STOPPED, with no URL, no lease and no promoted or pending tunnel; and once no start is
   suspended either, every tunnel ever yielded was stopped, unless it had been overwritten before.
   */
  lemma StopWins(g: Gateway, es: seq<Event>)
    requires Sound(g.ledger) && Runs(Next(g, StopCall), es) && NoLifecycleCall(es)
    ensures var h := After(Next(g, StopCall), es);
      && h.ledger.tunnel.None? && PendingTunnel(h.ledger).None? && !h.desiredRunning
      && (StopReturned(h) ==> h.tunnelUrl.None? && !h.leased)
      && (!FailurePending(g) && StopReturned(h) ==> h.state == STOPPED)
      && (h.ledger.ops == map[] ==> forall t <- h.ledger.yielded :: t in h.ledger.stops || t in g.ledger.overwritten)
  {
    StopBegins(g);
    StopBeginsNoFailure(g);
    var g1 := Next(g, StopCall);
    StoppingRun(g1, es);
    var h := After(g1, es);
    SoundStep(g, StopCall);
    SoundRun(g1, es);
    if h.ledger.ops == map[] {
      forall t <- h.ledger.yielded ensures t in h.ledger.stops || t in g.ledger.overwritten { assert Covered(h.ledger, t); }
    }
  }

  /**
   ... and exactly then: after a stop has returned, STOPPED holds through every run without a
   lifecycle call if and only if no failed start is still stopping its tunnel.
   */
  lemma StopIsFinalExactlyWhen(g: Gateway)
    requires Sound(g.ledger) && Stopping(g) && StopReturned(g) && g.state == STOPPED
    ensures (forall es :: Runs(g, es) && NoLifecycleCall(es) ==> After(g, es).state == STOPPED) <==> !FailurePending(g)
  {
    if !FailurePending(g) {
      forall es | Runs(g, es) && NoLifecycleCall(es) ensures After(g, es).state == STOPPED { StoppingRun(g, es); }
    } else {
      var k :| k in g.ledger.ops && g.ledger.ops[k].FailStopping?;
      var es := [FailStopped(k)];
      assert Waits(g.ledger, k);
      RunsCons(g, es[0], []);
      assert es == [es[0]] + [];
      assert NoLifecycleCall(es) && After(g, es).state == ERROR;
    }
  }

  /** Such a start exists in a reachable state: its probe answered 500 just before the stop. */
  lemma StopCanBeUndone(options: Options)
    ensures exists es ::
      && Runs(Init(options), es)
      && var g := After(Init(options), es);
         Stopping(g) && StopReturned(g) && g.state == STOPPED && FailurePending(g)
  {
    hide Next, Enabled, Runs, After;
    var g0, t := Init(options), Tunnel(0, 0);
    var g1 := FailingStart(g0, t);
    var g2 := StopAfterFailure(g1, 1);
    RunsAppend(g0, ProbedEvents(g0, t, 500), [StopCall]);
  }

  lemma StopAfterFailure(g: Gateway, k: nat) returns (h: Gateway)
    requires g.ledger.ops == map[k := FailStopping(External)] && k == g.ledger.startGeneration
    requires PendingTunnel(g.ledger).None? && g.ledger.tunnel.None?
    ensures Runs(g, [StopCall]) && After(g, [StopCall]) == h
    ensures Stopping(h) && StopReturned(h) && h.state == STOPPED && FailurePending(h)
  {
    RunsCons(g, StopCall, []);
    assert [StopCall] == [StopCall] + [];
    h := Next(g, StopCall);
    assert k in h.ledger.ops && h.ledger.ops[k].FailStopping?;
  }
}
