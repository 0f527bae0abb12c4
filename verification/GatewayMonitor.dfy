/** To which tunnel the verdict of a health probe is charged. */
module GatewayMonitor {
  import opened Prelude
  import opened GatewayModel
  import opened GatewayOwnership
  import opened GatewayRuns
  import opened GatewayCaveats

  // ---------------------------------------------------------------- what a probe in flight was sent to

  /** A healthy bridge that is meant to run has a promoted tunnel, and its URL is the one probed. */
  predicate InService(g: Gateway) {
    Healthy(g) ==>
      && g.ledger.pendingStart.None?
      && (g.desiredRunning ==> g.ledger.tunnel.Some?)
      && (g.ledger.tunnel.Some? ==> g.tunnelUrl == Some(g.ledger.tunnel.value.url))
  }

  lemma ProbeInService(g: Gateway, k: nat, status: int)
    requires InService(g) && Sound(g.ledger) && Enabled(g, ProbeReturns(k, status))
    ensures InService(Next(g, ProbeReturns(k, status)))
  {
    hide Partition, AtMostOnce, Covered;
    var t, c := g.ledger.ops[k].probed, g.ledger.ops[k].caller;
    var g1 := g.(ledger := NoteProbe(g.ledger, t, status));
    DiscardInService(g1, k, t, c);
    if !Superseded(g, k) {
      assert g.ledger.pendingStart == Some(k);
      SucceedInService(g1, k, t, c);
    }
    hide Discard, Succeed, Sound;
  }

  lemma DiscardInService(g: Gateway, k: nat, t: Tunnel, c: Caller)
    requires InService(g) && k in g.ledger.pendings
    ensures InService(Discard(g, k, t, c))
  {
  }

  lemma SucceedInService(g: Gateway, k: nat, t: Tunnel, c: Caller)
    requires g.ledger.pendingStart == Some(k) && k in g.ledger.pendings
    ensures InService(Succeed(g, k, t, c))
  {
  }

  lemma StartInService(g: Gateway, caller: Caller)
    requires InService(g)
    ensures InService(Start(g, caller))
  {
  }

  lemma StopInService(g: Gateway)
    requires InService(g)
    ensures InService(Stop(g))
  {
    assert BeginStop(g.ledger).tunnel.None? && BeginStop(g.ledger).pendingStart.None?;
  }

  lemma InServiceStep(g: Gateway, e: Event)
    requires InService(g) && Sound(g.ledger) && Enabled(g, e)
    ensures InService(Next(g, e))
  {
    hide Sound;
    match e
    case StartCall => StartInService(g, External);
    case ReconnectFires => StartInService(g.(timers := g.timers.(reconnect := false)), Reconnect);
    case StopCall => StopInService(g);
    case ProbeReturns(k, status) => ProbeInService(g, k, status);
    case ProbeThrows(k) => DiscardInService(g, k, g.ledger.ops[k].probed, g.ledger.ops[k].caller);
    case ProviderYields(k, t, _) => YieldInService(g, e);
    case _ => if Session(e) { SessionInService(g, e); } else { ResumeInService(g, e); }
  }

  lemma YieldInService(g: Gateway, e: Event)
    requires InService(g) && Enabled(g, e) && e.ProviderYields?
    ensures InService(Next(g, e))
  {
  }

  predicate Lifecycle(e: Event) { e.StartCall? || e.StopCall? || e.ReconnectFires? || e.ProbeReturns? || e.ProbeThrows? || e.ProviderYields? }

  predicate Session(e: Event) {
    e.ConnectCall? || e.DisconnectCall? || e.LeaseExpires? || e.MonitorFires? || e.MonitorProbed? || e.ReconnectResumes?
  }

  lemma SessionInService(g: Gateway, e: Event)
    requires InService(g) && Enabled(g, e) && Session(e)
    ensures InService(Next(g, e))
  {
  }

  lemma ResumeInService(g: Gateway, e: Event)
    requires InService(g) && Enabled(g, e) && !Lifecycle(e) && !Session(e)
    ensures InService(Next(g, e))
  {
  }

  /** Each probe in flight was sent to a tunnel that had been promoted. */
  ghost predicate Tracked(g: Gateway) {
    forall p :: p in g.waiting.monitors ==> p.Some? && p.value in g.ledger.promotions
  }

  lemma PromotionsGrow(g: Gateway, e: Event)
    requires Enabled(g, e)
    ensures g.ledger.promotions <= Next(g, e).ledger.promotions
    ensures var m := Next(g, e).waiting.monitors;
      || m <= g.waiting.monitors
      || (e.MonitorFires? && MonitorApplies(g) && m == g.waiting.monitors + multiset{g.ledger.tunnel})
  {
    hide Start, Stop, Discard, Succeed;
    match e
    case StopCall => StopPromotions(g);
    case StartCall => StartPromotions(g, External);
    case ReconnectFires => StartPromotions(g.(timers := g.timers.(reconnect := false)), Reconnect);
    case ProbeReturns(k, status) => ProbePromotions(g, k, status);
    case ProviderYields(_, _, _) => YieldPromotions(g, e);
    case ProbeThrows(k) => DiscardWaits(g, k, g.ledger.ops[k].probed, g.ledger.ops[k].caller);
    case _ => if Session(e) { SessionPromotions(g, e); } else { ResumePromotions(g, e); }
  }

  lemma StopPromotions(g: Gateway)
    ensures Stop(g).ledger.promotions == g.ledger.promotions && Stop(g).waiting == g.waiting
  {
  }

  lemma StartPromotions(g: Gateway, caller: Caller)
    ensures Start(g, caller).ledger.promotions == g.ledger.promotions
    ensures Start(g, caller).waiting.monitors == g.waiting.monitors
  {
  }

  lemma ProbePromotions(g: Gateway, k: nat, status: int)
    requires Enabled(g, ProbeReturns(k, status))
    ensures g.ledger.promotions <= Next(g, ProbeReturns(k, status)).ledger.promotions
    ensures Next(g, ProbeReturns(k, status)).waiting.monitors == g.waiting.monitors
  {
    var t, c := g.ledger.ops[k].probed, g.ledger.ops[k].caller;
    var g1 := g.(ledger := NoteProbe(g.ledger, t, status));
    DiscardWaits(g1, k, t, c);
    SucceedWaits(g1, k, t, c);
    hide Succeed, Discard, Superseded;
  }

  lemma DiscardWaits(g: Gateway, k: nat, t: Tunnel, c: Caller)
    requires k in g.ledger.pendings
    ensures Discard(g, k, t, c).waiting.monitors == g.waiting.monitors && Discard(g, k, t, c).ledger.promotions == g.ledger.promotions
  {
  }

  lemma SucceedWaits(g: Gateway, k: nat, t: Tunnel, c: Caller)
    requires k in g.ledger.pendings
    ensures Succeed(g, k, t, c).waiting.monitors == g.waiting.monitors
    ensures g.ledger.promotions <= Succeed(g, k, t, c).ledger.promotions
  {
  }

  lemma YieldPromotions(g: Gateway, e: Event)
    requires Enabled(g, e) && e.ProviderYields?
    ensures Next(g, e).ledger.promotions == g.ledger.promotions && Next(g, e).waiting.monitors == g.waiting.monitors
  {
  }

  lemma SessionPromotions(g: Gateway, e: Event)
    requires Enabled(g, e) && Session(e)
    ensures Next(g, e).ledger.promotions == g.ledger.promotions
    ensures var m := Next(g, e).waiting.monitors;
      || m <= g.waiting.monitors
      || (e.MonitorFires? && MonitorApplies(g) && m == g.waiting.monitors + multiset{g.ledger.tunnel})
  {
  }

  lemma ResumePromotions(g: Gateway, e: Event)
    requires Enabled(g, e) && !Lifecycle(e) && !Session(e)
    ensures Next(g, e).ledger.promotions == g.ledger.promotions && Next(g, e).waiting.monitors == g.waiting.monitors
  {
  }

  lemma TrackedStep(g: Gateway, e: Event)
    requires Tracked(g) && InService(g) && Sound(g.ledger) && Enabled(g, e)
    ensures Tracked(Next(g, e))
  {
    assert g.ledger.tunnel.Some? ==> g.ledger.promotions[g.ledger.tunnel.value] == 1;
    hide Sound, Next, Enabled;
    PromotionsGrow(g, e);
  }

  lemma {:induction false} TrackedRun(g: Gateway, es: seq<Event>)
    requires Tracked(g) && InService(g) && Sound(g.ledger) && Runs(g, es)
    ensures var h := After(g, es); Tracked(h) && InService(h) && Sound(h.ledger)
    decreases |es|
  {
    hide Tracked, InService, Sound, Next, Enabled;
    if es != [] {
      SoundStep(g, es[0]);
      InServiceStep(g, es[0]);
      TrackedStep(g, es[0]);
      TrackedRun(Next(g, es[0]), es[1..]);
    }
  }

  // ---------------------------------------------------------------- to whom a verdict is charged

  /** A tunnel that was given up: stopped, waiting for its stop, or replaced. */
  ghost predicate GivenUp(l: Ledger, t: Tunnel) {
    t in l.stops || t in l.overwritten || exists k <- l.ops :: l.ops[k] == StopPending(Some(t))
  }

  lemma GivenUpExactlyWhen(l: Ledger, t: Tunnel)
    requires Sound(l) && t in l.promotions
    ensures GivenUp(l, t) <==> l.tunnel != Some(t)
  {
    assert t in l.yielded && Covered(l, t);
    assert PendingTunnel(l) != Some(t);
    if k :| k in l.ops && l.ops[k] == StopPending(Some(t)) { assert Binds(l.ops[k]); }
  }

  /** The verdict raises the failure count of a promoted tunnel other than the one that was probed. */
  predicate Mischarged(g: Gateway, sentTo: Option<Tunnel>, status: int)
    requires Enabled(g, MonitorProbed(sentTo, status))
  {
    && Next(g, MonitorProbed(sentTo, status)).failures > g.failures
    && g.ledger.tunnel.Some? && g.ledger.tunnel != sentTo
  }

  /** ... clears that other tunnel's failures ... */
  predicate Miscleared(g: Gateway, sentTo: Option<Tunnel>, status: int)
    requires Enabled(g, MonitorProbed(sentTo, status))
  {
    && Next(g, MonitorProbed(sentTo, status)).failures < g.failures
    && g.ledger.tunnel.Some? && g.ledger.tunnel != sentTo
  }

  /** ... or stops it. */
  ghost predicate StopsAnother(g: Gateway, sentTo: Option<Tunnel>, status: int)
    requires Enabled(g, MonitorProbed(sentTo, status))
  {
    exists t :: Some(t) != sentTo && Next(g, MonitorProbed(sentTo, status)).ledger.stops[t] > g.ledger.stops[t]
  }

  /**
   In every run each probe in flight was sent to a tunnel once promoted, and its verdict is charged to
   another tunnel exactly when the bridge is in service and the probed tunnel has been given up since.
   The other tunnel is then stopped exactly when that failure is the last one allowed.
   */
  lemma MischargedExactlyWhen(options: Options, es: seq<Event>, sentTo: Option<Tunnel>, status: int)
    requires Runs(Init(options), es) && Enabled(After(Init(options), es), MonitorProbed(sentTo, status))
    ensures var g := After(Init(options), es);
      && sentTo.Some?
      && (Mischarged(g, sentTo, status) <==> !Is2xx(status) && MonitorApplies(g) && GivenUp(g.ledger, sentTo.value))
      && (Miscleared(g, sentTo, status) <==>
            Is2xx(status) && MonitorApplies(g) && GivenUp(g.ledger, sentTo.value) && g.failures > 0)
      && (StopsAnother(g, sentTo, status) <==>
            && !Is2xx(status) && MonitorApplies(g) && GivenUp(g.ledger, sentTo.value)
            && g.failures + 1 >= g.options.failureThreshold)
  {
    TrackedRun(Init(options), es);
    var g := After(Init(options), es);
    GivenUpExactlyWhen(g.ledger, sentTo.value);
    hide Sound, Tracked, GivenUp, Runs, After, Mischarged, Miscleared, StopsAnother, Next, Enabled;
    VerdictCharged(g, sentTo, status);
  }

  lemma VerdictCharged(g: Gateway, sentTo: Option<Tunnel>, status: int)
    requires InService(g) && Enabled(g, MonitorProbed(sentTo, status))
    ensures Mischarged(g, sentTo, status) <==> !Is2xx(status) && MonitorApplies(g) && g.ledger.tunnel != sentTo
    ensures Miscleared(g, sentTo, status) <==> Is2xx(status) && MonitorApplies(g) && g.ledger.tunnel != sentTo && g.failures > 0
    ensures StopsAnother(g, sentTo, status) <==>
      !Is2xx(status) && MonitorApplies(g) && g.ledger.tunnel != sentTo && g.failures + 1 >= g.options.failureThreshold
  {
    var h := Next(g, MonitorProbed(sentTo, status));
    if MonitorApplies(g) && !Is2xx(status) && g.failures + 1 >= g.options.failureThreshold {
      assert h.ledger == Demote(g.ledger);
      var t := g.ledger.tunnel.value;
      assert h.ledger.stops[t] > g.ledger.stops[t];
    } else {
      assert h.ledger == g.ledger;
    }
  }

  // ---------------------------------------------------------------- the run, for every threshold

  /** A bridge is healthy, its monitor armed, and no start or stop is under way. */
  predicate Watched(g: Gateway) {
    && g.state == BRIDGE_HEALTHY && g.timers.monitor && MonitorApplies(g)
    && g.ledger.tunnel.Some? && g.ledger.tunnel.value in g.ledger.yielded
    && g.ledger.pendingStart.None? && g.ledger.ops == map[]
  }

  /** Everything is stopped but the probes. */
  predicate Rests(g: Gateway) {
    g.state == STOPPED && g.ledger.tunnel.None? && g.ledger.pendingStart.None? && g.ledger.ops == map[]
  }

  lemma MonitorFired(g: Gateway) returns (h: Gateway)
    requires Watched(g)
    ensures Enabled(g, MonitorFires) && h == Next(g, MonitorFires)
    ensures h == g.(timers := g.timers.(monitor := false),
                    waiting := g.waiting.(monitors := g.waiting.monitors + multiset{g.ledger.tunnel}))
  {
    h := Next(g, MonitorFires);
  }

  lemma StoppedWhole(g: Gateway) returns (h: Gateway)
    requires g.ledger.tunnel.Some? && g.ledger.pendingStart.None? && g.ledger.ops == map[]
    ensures Enabled(g, StopCall)
    ensures var k := g.ledger.startGeneration + 1;
      Enabled(Next(g, StopCall), StopResumes(k)) && h == Next(Next(g, StopCall), StopResumes(k))
    ensures Rests(h) && h.ledger.yielded == g.ledger.yielded && h.options == g.options && h.waiting == g.waiting
  {
    var k := g.ledger.startGeneration + 1;
    assert Next(g, StopCall).ledger.ops == map[k := StopTunnel];
    h := Next(Next(g, StopCall), StopResumes(k));
  }

  lemma StopDuringProbe(g: Gateway) returns (es: seq<Event>)
    requires Watched(g)
    ensures es == [MonitorFires, StopCall, StopResumes(g.ledger.startGeneration + 1)]
    ensures Runs(g, es)
    ensures var h := After(g, es);
      && Rests(h) && h.ledger.yielded == g.ledger.yielded && h.options == g.options
      && h.waiting.monitors == g.waiting.monitors + multiset{g.ledger.tunnel}
  {
    hide Next, Runs, After;
    var k := g.ledger.startGeneration + 1;
    var g1 := MonitorFired(g);
    var g3 := StoppedWhole(g1);
    Nothing(g3);
    RunsCons(Next(g1, StopCall), StopResumes(k), []);
    RunsCons(g1, StopCall, [StopResumes(k)] + []);
    RunsCons(g, MonitorFires, [StopCall] + ([StopResumes(k)] + []));
    es := [MonitorFires] + ([StopCall] + ([StopResumes(k)] + []));
  }

  lemma StartWithProbes(g: Gateway, t: Tunnel)
    requires Rests(g) && t !in g.ledger.yielded
    ensures Runs(g, ProbedEvents(g, t, 200))
    ensures var h := After(g, ProbedEvents(g, t, 200));
      && Watched(h) && h.ledger.tunnel == Some(t) && h.failures == 0 && h.options == g.options
      && h.ledger.yielded == g.ledger.yielded + {t} && h.waiting.monitors == g.waiting.monitors
  {
    ProbedStart(g, t);
    ProbedRuns(g, t, 200);
    assert Probed(g, t).waiting.monitors == g.waiting.monitors && Probed(g, t).desiredRunning;
    hide Runs, After;
    assert !Superseded(Probed(g, t), g.ledger.startGeneration + 1);
  }

  predicate Charges(es: seq<Event>) { exists e <- es :: e.MonitorProbed? }

  /** The monitor probes the tunnel; before the answer the bridge is stopped and started on `t`. */
  lemma OneCycle(g: Gateway, t: Tunnel) returns (es: seq<Event>)
    requires Watched(g) && t !in g.ledger.yielded
    ensures Runs(g, es) && !Charges(es)
    ensures var h := After(g, es);
      && Watched(h) && h.ledger.tunnel == Some(t) && h.failures == 0 && h.options == g.options
      && h.ledger.yielded == g.ledger.yielded + {t} && h.waiting.monitors == g.waiting.monitors + multiset{g.ledger.tunnel}
  {
    hide Next, Runs, After, Enabled, Watched;
    var stop := StopDuringProbe(g);
    var h := After(g, stop);
    StartWithProbes(h, t);
    RunsAppend(g, stop, ProbedEvents(h, t, 200));
    es := stop + ProbedEvents(h, t, 200);
  }

  /** The tunnels that were promoted when the cycles over `ts` sent their probes. */
  function Sent(first: Option<Tunnel>, ts: seq<Tunnel>): (ps: seq<Option<Tunnel>>)
    ensures |ps| == |ts|
    ensures forall i :: 0 <= i < |ps| ==> ps[i] == if i == 0 then first else Some(ts[i - 1])
    decreases |ts|
  {
    if ts == [] then [] else [first] + Sent(Some(ts[0]), ts[1..])
  }

  predicate Fresh(l: Ledger, ts: seq<Tunnel>) {
    && (forall t <- ts :: t !in l.yielded)
    && forall i, j :: 0 <= i < j < |ts| ==> ts[i] != ts[j]
  }

  lemma {:induction false} Cycles(g: Gateway, ts: seq<Tunnel>) returns (es: seq<Event>)
    requires Watched(g) && Fresh(g.ledger, ts) && ts != []
    ensures Runs(g, es) && !Charges(es)
    ensures var h := After(g, es);
      && Watched(h) && h.ledger.tunnel == Some(ts[|ts| - 1]) && h.failures == 0 && h.options == g.options
      && h.waiting.monitors == g.waiting.monitors + multiset(Sent(g.ledger.tunnel, ts))
    decreases |ts|
  {
    hide Next, Runs, After, Enabled, Watched;
    es := OneCycle(g, ts[0]);
    var h := After(g, es);
    if |ts| > 1 {
      var rest := Cycles(h, ts[1..]);
      RunsAppend(g, es, rest);
      assert multiset([g.ledger.tunnel] + Sent(Some(ts[0]), ts[1..])) == multiset{g.ledger.tunnel} + multiset(Sent(Some(ts[0]), ts[1..]));
      es := es + rest;
    } else {
      assert Sent(g.ledger.tunnel, ts) == [g.ledger.tunnel];
    }
  }

  function Verdicts(ps: seq<Option<Tunnel>>): (es: seq<Event>)
    ensures |es| == |ps| && forall i :: 0 <= i < |ps| ==> es[i] == MonitorProbed(ps[i], 500)
  {
    seq(|ps|, i requires 0 <= i < |ps| => MonitorProbed(ps[i], 500))
  }

  lemma OneVerdict(g: Gateway, p: Option<Tunnel>)
    requires MonitorApplies(g) && p in g.waiting.monitors && g.ledger.tunnel.Some?
    ensures Enabled(g, MonitorProbed(p, 500))
    ensures var h := Next(g, MonitorProbed(p, 500));
      if g.failures + 1 < g.options.failureThreshold
      then && MonitorApplies(h) && h.ledger == g.ledger && h.failures == g.failures + 1 && h.options == g.options
           && h.waiting.monitors == g.waiting.monitors - multiset{p}
      else g.ledger.tunnel.value in h.ledger.stops && h.state == ERROR
  {
  }

  lemma VerdictsOf(ps: seq<Option<Tunnel>>)
    requires ps != []
    ensures Verdicts(ps) == [MonitorProbed(ps[0], 500)] + Verdicts(ps[1..])
    ensures |ps| == 1 ==> Verdicts(ps[1..]) == []
  {
  }

  lemma {:induction false} FailingVerdicts(g: Gateway, ps: seq<Option<Tunnel>>)
    requires MonitorApplies(g) && g.ledger.tunnel.Some? && multiset(ps) <= g.waiting.monitors
    requires ps != [] && g.failures + |ps| == Limit(g.options)
    ensures Runs(g, Verdicts(ps))
    ensures g.ledger.tunnel.value in After(g, Verdicts(ps)).ledger.stops && After(g, Verdicts(ps)).state == ERROR
    decreases |ps|
  {
    hide Next, Enabled, Runs, After, MonitorApplies, Verdicts;
    assert ps == [ps[0]] + ps[1..];
    assert ps[0] in multiset(ps);
    OneVerdict(g, ps[0]);
    VerdictsOf(ps);
    var h := Next(g, MonitorProbed(ps[0], 500));
    if |ps| == 1 { Nothing(h); } else { FailingVerdicts(h, ps[1..]); }
    RunsCons(g, MonitorProbed(ps[0], 500), Verdicts(ps[1..]));
  }

  /** So many failing verdicts in a row begin a recovery. */
  function Limit(options: Options): nat { if options.failureThreshold == 0 then 1 else options.failureThreshold }

  /**
   For every threshold and from every watched state: as many stops and starts as the threshold, each
   with a probe in flight, and then the answers of these probes stop the last tunnel, which the
   monitor never probed.
   */
  lemma StaleProbesStopNewTunnel(g: Gateway, ts: seq<Tunnel>) returns (cycles: seq<Event>, verdicts: seq<Event>)
    requires Watched(g) && Fresh(g.ledger, ts) && |ts| == Limit(g.options)
    ensures !Charges(cycles) && verdicts == Verdicts(Sent(g.ledger.tunnel, ts))
    ensures Runs(g, cycles) && After(g, cycles).ledger.tunnel == Some(ts[|ts| - 1])
    ensures Runs(g, cycles + verdicts)
    ensures var h := After(g, cycles + verdicts); ts[|ts| - 1] in h.ledger.stops && h.state == ERROR
    ensures Some(ts[|ts| - 1]) !in Sent(g.ledger.tunnel, ts)
  {
    hide Next, Enabled, Runs, After, Charges, Verdicts;
    cycles := Cycles(g, ts);
    var sent := Sent(g.ledger.tunnel, ts);
    verdicts := Verdicts(sent);
    LastNotSent(g, ts);
    FailingVerdicts(After(g, cycles), sent);
    RunsAppend(g, cycles, verdicts);
  }

  lemma LastNotSent(g: Gateway, ts: seq<Tunnel>)
    requires Watched(g) && Fresh(g.ledger, ts) && ts != []
    ensures Some(ts[|ts| - 1]) !in Sent(g.ledger.tunnel, ts)
  {
    var last := |ts| - 1;
    forall i | 0 <= i < |ts| ensures Sent(g.ledger.tunnel, ts)[i] != Some(ts[last]) {
      if i > 0 { assert ts[i - 1] != ts[last]; }
    }
  }

  /** Such states are reachable. */
  lemma WatchedIsReachable(options: Options, t: Tunnel)
    ensures var es := ProbedEvents(Init(options), t, 200); Runs(Init(options), es) && Watched(After(Init(options), es))
  {
    StartWithProbes(Init(options), t);
  }
}
