/** The gateway's promises over whole runs. */
module GatewayRuns {
  import opened Prelude
  import opened GatewayModel
  import opened GatewayOwnership

  // ---------------------------------------------------------------- custody of tunnels

  lemma SoundRun(g: Gateway, es: seq<Event>)
    requires Sound(g.ledger) && Runs(g, es)
    ensures Sound(After(g, es).ledger)
    decreases |es|
  {
    hide Sound;
    if es != [] {
      SoundStep(g, es[0]);
      SoundRun(Next(g, es[0]), es[1..]);
    }
  }

  lemma OneOwner(l: Ledger, t: Tunnel)
    requires Sound(l) && t in l.yielded
    ensures ExactlyOneOwner(l, t)
  {
    assert Covered(l, t);
    var o := if l.tunnel == Some(t) then Promoted
             else if PendingTunnel(l) == Some(t) then InPendingSlot
             else if t in l.stops then StopCalled
             else if t in l.overwritten then Overwritten
             else var k :| k in l.ops && l.ops[k] == StopPending(Some(t)); BoundToStop(k);
    assert Owns(l, t, o);
    forall p | Owns(l, t, p) ensures p == o {
      if p.BoundToStop? { assert Binds(l.ops[p.k]); }
    }
  }

  /**
   In every interleaving each tunnel a provider ever yielded, a late one included, has exactly one
   owner; stop() was called on it at most once; it was promoted at most once, and only after its
   own probe loop returned 2xx.
   */
  lemma TunnelCustody(options: Options, es: seq<Event>, t: Tunnel)
    requires Runs(Init(options), es)
    ensures var l := After(Init(options), es).ledger;
      && (t in l.yielded ==> ExactlyOneOwner(l, t))
      && l.stops[t] <= 1
      && l.promotions[t] <= 1
      && (t in l.promotions ==> t in l.probedOk)
      && (t in l.stops || t in l.promotions ==> t in l.yielded)
  {
    var g := Init(options);
    SoundRun(g, es);
    var l := After(g, es).ledger;
    if t in l.yielded { OneOwner(l, t); }
  }

  // ---------------------------------------------------------------- a promoted tunnel is the one in service

  /** While a tunnel is promoted the bridge is healthy at its URL, and no current operation runs. */
  ghost predicate Coherent(g: Gateway) {
    && (g.ledger.tunnel.Some? ==> Healthy(g) && g.tunnelUrl == Some(g.ledger.tunnel.value.url))
    && (g.ledger.tunnel.Some? ==> g.ledger.startGeneration !in g.ledger.ops)
  }

  /** The failed start that resumes from stopping its tunnel finds another tunnel promoted. */
  predicate StaleFailure(g: Gateway, e: Event) { e.FailStopped? && g.ledger.tunnel.Some? }

  /** `h` is coherent and lost no tunnel that `g` had not lost. */
  ghost predicate Keeps(g: Gateway, h: Gateway) { Coherent(h) && h.ledger.overwritten == g.ledger.overwritten }

  lemma RefuseKeeps(g: Gateway, k: nat, c: Caller)
    requires Coherent(g)
    ensures Keeps(g, Refuse(g, k, c))
    ensures g.ledger.tunnel.None? ==> Keeps(g, Refuse(g.(state := ERROR), k, c))
  {
  }

  lemma YieldKeeps(g: Gateway, k: nat, t: Tunnel, c: Continuation)
    requires Coherent(g) && k in g.ledger.ops
    ensures Keeps(g, g.(ledger := YieldAndStop(g.ledger, k, t, c)))
    ensures k in g.ledger.pendings && c.Probing? ==> Keeps(g, g.(ledger := YieldAndProbe(g.ledger, k, t, c.caller)))
  {
  }

  lemma ReleaseKeeps(g: Gateway, k: nat, t: Tunnel, c: Continuation)
    requires Coherent(g) && k in g.ledger.ops
    ensures k in g.ledger.pendings ==> Keeps(g, g.(ledger := Release(g.ledger, k, t, c)))
    ensures Keeps(g, g.(ledger := StopNext(g.ledger, k, t)))
  {
  }

  lemma SucceedKeeps(g: Gateway, k: nat, t: Tunnel, c: Caller)
    requires Coherent(g) && k in g.ledger.ops && k in g.ledger.pendings && k == g.ledger.startGeneration
    ensures Keeps(g, Succeed(g, k, t, c))
  {
  }

  lemma StartKeeps(g: Gateway, c: Caller)
    requires Coherent(g)
    ensures Keeps(g, Start(g, c))
  {
    if !AlreadyRunning(g) { assert g.ledger.tunnel.None?; }
  }

  lemma StopKeeps(g: Gateway)
    requires Coherent(g)
    ensures Keeps(g, Stop(g))
  {
    assert BeginStop(g.ledger).tunnel.None? && BeginStop(g.ledger).overwritten == g.ledger.overwritten;
  }

  lemma EndKeeps(g: Gateway, k: nat)
    requires Coherent(g) && k in g.ledger.ops
    ensures Keeps(g, g.(ledger := End(g.ledger, k)))
    ensures k == g.ledger.startGeneration ==> Keeps(g, Settle(g.(ledger := End(g.ledger, k))))
    ensures forall c :: k == g.ledger.startGeneration ==> Keeps(g, g.(ledger := Open(g.ledger, k, c), state := INITIALIZING))
    ensures forall c :: Keeps(g, Answer(g.(ledger := End(g.ledger, k)), c, false))
  {
  }

  lemma DiscardKeeps(g: Gateway, k: nat, t: Tunnel, c: Caller)
    requires Coherent(g) && k in g.ledger.ops && k in g.ledger.pendings
    ensures Keeps(g, Discard(g, k, t, c))
  {
    hide Keeps;
    ReleaseKeeps(g, k, t, Discarding(c));
    RefuseKeeps(g, k, c);
  }

  lemma ProbeKeeps(g: Gateway, k: nat, status: int)
    requires Coherent(g) && Enabled(g, ProbeReturns(k, status))
    ensures Keeps(g, Next(g, ProbeReturns(k, status)))
  {
    var t, c := g.ledger.ops[k].probed, g.ledger.ops[k].caller;
    var g1 := g.(ledger := NoteProbe(g.ledger, t, status));
    assert Keeps(g, g1);
    if Superseded(g, k) {
      DiscardKeeps(g1, k, t, c);
      assert Next(g, ProbeReturns(k, status)) == Discard(g1, k, t, c);
    } else if Is2xx(status) {
      SucceedKeeps(g1, k, t, c);
      assert Next(g, ProbeReturns(k, status)) == Succeed(g1, k, t, c);
    } else {
      ReleaseKeeps(g, k, t, FailStopping(c));
    }
  }

  lemma ProviderKeeps(g: Gateway, e: Event)
    requires Coherent(g) && Enabled(g, e) && (e.ProviderYields? || e.ProviderFails? || e.ProviderCancelled?)
    ensures Keeps(g, Next(g, e))
  {
    var k, c := e.k, g.ledger.ops[e.k].caller;
    match e
    case ProviderYields(_, t, _) =>
      YieldKeeps(g, k, t, Discarding(c));
      YieldKeeps(g, k, t, FailStopping(c));
      YieldKeeps(g, k, t, Probing(t, c));
    case ProviderFails(_) => RefuseKeeps(g, k, c);
    case ProviderCancelled(_) => RefuseKeeps(g.(ledger := g.ledger.(late := g.ledger.late + {k})), k, c);
    case _ =>
  }

  lemma ResumeKeeps(g: Gateway, e: Event)
    requires Coherent(g) && Enabled(g, e) && (e.StaleStopped? || e.StopResumes? || e.ProbeThrows? || e.Discarded?)
    ensures Keeps(g, Next(g, e))
  {
    var k := e.k;
    match e
    case StaleStopped(_) => EndKeeps(g, k);
    case StopResumes(_) =>
      EndKeeps(g, k);
      if g.ledger.ops[k].StopPending? && g.ledger.ops[k].next.Some? { ReleaseKeeps(g, k, g.ledger.ops[k].next.value, StopTunnel); }
    case ProbeThrows(_) => DiscardKeeps(g, k, g.ledger.ops[k].probed, g.ledger.ops[k].caller);
    case Discarded(_) => RefuseKeeps(g, k, g.ledger.ops[k].caller);
    case _ =>
  }

  lemma SessionKeeps(g: Gateway, e: Event)
    requires Coherent(g) && Enabled(g, e)
    requires e.ConnectCall? || e.DisconnectCall? || e.LeaseExpires? || e.MonitorFires? || e.MonitorProbed? || e.RecoveryResumes?
          || e.ReconnectResumes? || e.LateYields? || e.LateFails?
    ensures Keeps(g, Next(g, e))
  {
  }

  /**
   Exactly when an event keeps the bridge coherent: it breaks only if a start that failed resumes
   from stopping its own tunnel, and writes ERROR, after a newer start was promoted.  While the
   bridge is coherent no promotion overwrites a promoted tunnel.
   */
  lemma CoherentExactlyWhen(g: Gateway, e: Event)
    requires Coherent(g) && Enabled(g, e)
    ensures Coherent(Next(g, e)) <==> !StaleFailure(g, e)
    ensures !StaleFailure(g, e) ==> Next(g, e).ledger.overwritten == g.ledger.overwritten
  {
    match e
    case StartCall => StartKeeps(g, External);
    case ReconnectFires => StartKeeps(g.(timers := g.timers.(reconnect := false)), Reconnect);
    case StopCall => StopKeeps(g);
    case FailStopped(k) => RefuseKeeps(g, k, g.ledger.ops[k].caller);
    case ProbeReturns(k, status) => ProbeKeeps(g, k, status);
    case ProviderYields(_, _, _) => ProviderKeeps(g, e);
    case ProviderFails(_) => ProviderKeeps(g, e);
    case ProviderCancelled(_) => ProviderKeeps(g, e);
    case StaleStopped(_) => ResumeKeeps(g, e);
    case StopResumes(_) => ResumeKeeps(g, e);
    case ProbeThrows(_) => ResumeKeeps(g, e);
    case Discarded(_) => ResumeKeeps(g, e);
    case _ => SessionKeeps(g, e);
  }

  ghost predicate CoherentThroughout(g: Gateway, es: seq<Event>)
    requires Runs(g, es)
    decreases |es|
  {
    Coherent(g) && (es == [] || CoherentThroughout(Next(g, es[0]), es[1..]))
  }

  predicate NoStaleFailure(g: Gateway, es: seq<Event>)
    requires Runs(g, es)
    decreases |es|
  {
    es == [] || (!StaleFailure(g, es[0]) && NoStaleFailure(Next(g, es[0]), es[1..]))
  }

  /** A run stays coherent exactly when no stale failure occurs in it, and then it loses no tunnel. */
  lemma {:induction false} CoherentRun(g: Gateway, es: seq<Event>)
    requires Coherent(g) && Runs(g, es)
    ensures CoherentThroughout(g, es) <==> NoStaleFailure(g, es)
    ensures NoStaleFailure(g, es) ==> After(g, es).ledger.overwritten == g.ledger.overwritten
    decreases |es|
  {
    if es != [] {
      CoherentExactlyWhen(g, es[0]);
      if !StaleFailure(g, es[0]) { CoherentRun(Next(g, es[0]), es[1..]); }
    }
  }

  // ---------------------------------------------------------------- the stale failure happens

  lemma {:induction false} RunsAppend(g: Gateway, es: seq<Event>, fs: seq<Event>)
    requires Runs(g, es) && Runs(After(g, es), fs)
    ensures Runs(g, es + fs) && After(g, es + fs) == After(After(g, es), fs)
    decreases |es|
  {
    if es == [] {
      assert es + fs == fs;
    } else {
      assert (es + fs)[1..] == es[1..] + fs;
      RunsAppend(Next(g, es[0]), es[1..], fs);
    }
  }

  lemma RunsCons(g: Gateway, e: Event, es: seq<Event>)
    requires Enabled(g, e) && Runs(Next(g, e), es)
    ensures Runs(g, [e] + es) && After(g, [e] + es) == After(Next(g, e), es)
  {
    assert ([e] + es)[1..] == es;
  }

  predicate CanStart(g: Gateway, t: Tunnel) {
    !AlreadyRunning(g) && PendingTunnel(g.ledger).None? && t !in g.ledger.yielded
  }

  /** A start, up to the result of its probe: `Probed(g, t)` is the state in which the probe answers. */
  function ProbedEvents(g: Gateway, t: Tunnel, status: int): seq<Event> {
    var k := g.ledger.startGeneration + 1;
    [StartCall, ProviderYields(k, t, true), ProbeReturns(k, status)]
  }

  function Probed(g: Gateway, t: Tunnel): Gateway
    requires CanStart(g, t)
  {
    Next(Next(g, StartCall), ProviderYields(g.ledger.startGeneration + 1, t, true))
  }

  lemma ProbedStart(g: Gateway, t: Tunnel)
    requires CanStart(g, t)
    ensures var k := g.ledger.startGeneration + 1; var h := Probed(g, t).ledger;
      && h.startGeneration == k && h.ops == g.ledger.ops[k := Probing(t, External)]
      && h.pendingStart == Some(k) && k in h.pendings && h.pendings[k] == Pending(Some(t), false)
      && h.tunnel == g.ledger.tunnel && h.overwritten == g.ledger.overwritten && h.yielded == g.ledger.yielded + {t}
      && Probed(g, t).state == INITIALIZING
    ensures Enabled(Next(g, StartCall), ProviderYields(g.ledger.startGeneration + 1, t, true))
  {
    var k := g.ledger.startGeneration + 1;
    assert Probed(g, t).ledger.ops == g.ledger.ops[k := Probing(t, External)];
  }

  lemma ProbedRuns(g: Gateway, t: Tunnel, status: int)
    requires CanStart(g, t)
    ensures var e := ProbeReturns(g.ledger.startGeneration + 1, status);
      && Enabled(Probed(g, t), e)
      && Runs(g, ProbedEvents(g, t, status)) && After(g, ProbedEvents(g, t, status)) == Next(Probed(g, t), e)
  {
    ProbedStart(g, t);
    var es := ProbedEvents(g, t, status);
    RunsCons(Probed(g, t), es[2], []);
    RunsCons(Next(g, StartCall), es[1], [es[2]]);
    RunsCons(g, es[0], [es[1]] + [es[2]]);
    assert es == [es[0]] + ([es[1]] + [es[2]]) && [es[2]] == [es[2]] + [];
  }

  lemma FailingStart(g: Gateway, t: Tunnel) returns (h: Gateway)
    requires CanStart(g, t) && g.ledger.tunnel != Some(t)
    ensures var es := ProbedEvents(g, t, 500); Runs(g, es) && After(g, es) == h
    ensures h.ledger.ops == g.ledger.ops[g.ledger.startGeneration + 1 := FailStopping(External)]
    ensures g.ledger.startGeneration + 1 in h.ledger.pendings && h.state == INITIALIZING
    ensures PendingTunnel(h.ledger).None? && h.ledger.startGeneration == g.ledger.startGeneration + 1
    ensures h.ledger.tunnel == g.ledger.tunnel && h.ledger.yielded == g.ledger.yielded + {t}
  {
    ProbedStart(g, t);
    ProbedRuns(g, t, 500);
    var k := g.ledger.startGeneration + 1;
    h := Next(Probed(g, t), ProbeReturns(k, 500));
    assert h.ledger.ops == Probed(g, t).ledger.ops[k := FailStopping(External)];
  }

  lemma SucceedingStart(g: Gateway, t: Tunnel) returns (h: Gateway)
    requires CanStart(g, t)
    ensures var es := ProbedEvents(g, t, 200); Runs(g, es) && After(g, es) == h
    ensures h.ledger.ops == Without(g.ledger.ops, g.ledger.startGeneration + 1)
    ensures forall k <- g.ledger.pendings :: k in h.ledger.pendings
    ensures PendingTunnel(h.ledger).None? && h.ledger.startGeneration == g.ledger.startGeneration + 1
    ensures h.ledger.tunnel == Some(t) && h.ledger.yielded == g.ledger.yielded + {t} && h.state == BRIDGE_HEALTHY
    ensures g.ledger.tunnel.Some? ==> g.ledger.tunnel.value in h.ledger.overwritten
  {
    ProbedStart(g, t);
    ProbedRuns(g, t, 200);
    h := Next(Probed(g, t), ProbeReturns(g.ledger.startGeneration + 1, 200));
  }

  lemma FailureResumes(g: Gateway, k: nat)
    requires Waits(g.ledger, k) && g.ledger.ops[k] == FailStopping(External)
    ensures Enabled(g, FailStopped(k)) && Runs(g, [FailStopped(k)])
    ensures After(g, [FailStopped(k)]).state == ERROR
    ensures var l := After(g, [FailStopped(k)]).ledger;
      && l.tunnel == g.ledger.tunnel && l.yielded == g.ledger.yielded
      && (PendingTunnel(g.ledger).None? ==> PendingTunnel(l).None?)
  {
    RunsCons(g, FailStopped(k), []);
    assert [FailStopped(k)] == [FailStopped(k)] + [];
  }

  /**
   A start's probe answers 500; while its tunnel is being stopped a second start is promoted; the
   first start then writes ERROR under the promoted tunnel, and a third start overwrites it.  The
   second tunnel is lost without a stop.
   */
  lemma PromotedTunnelCanBeLost(options: Options)
    ensures exists es :: Runs(Init(options), es) && Tunnel(1, 1) in After(Init(options), es).ledger.overwritten
  {
    hide Next, Enabled, Runs, After;
    var a, b, c := Tunnel(0, 0), Tunnel(1, 1), Tunnel(2, 2);
    var g0 := Init(options);
    var g1 := FailingStart(g0, a);
    var g2 := SucceedingStart(g1, b);
    FailureResumes(g2, 1);
    var failed := [FailStopped(1)];
    var g3 := After(g2, failed);
    var g4 := SucceedingStart(g3, c);
    RunsAppend(g2, failed, ProbedEvents(g3, c, 200));
    RunsAppend(g1, ProbedEvents(g1, b, 200), failed + ProbedEvents(g3, c, 200));
    RunsAppend(g0, ProbedEvents(g0, a, 500), ProbedEvents(g1, b, 200) + (failed + ProbedEvents(g3, c, 200)));
  }
}
