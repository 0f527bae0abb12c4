/**
 The tunnel lifecycle of the Cloudflare gateway, as a step machine.

 JavaScript runs a method to completion between two `await`s.  Each event below is one such
 atomic stretch of code, and `Next` is what the stretch does.  A method that is suspended at an
 `await` is a `Continuation` in `ops`, under the generation the method drew when it was called;
 an external caller, a timer or a settled promise chooses which event happens next, so a
 sequence of enabled events is one interleaving.
 */
module GatewayModel {
  import opened Prelude

  datatype BridgeState = STOPPED | INITIALIZING | BRIDGE_HEALTHY | SESSION_CONNECTED | ERROR

  /** A handle yielded by the tunnel provider.  Two handles may carry the same URL. */
  type Url = nat  // only ever stored and compared

  datatype Tunnel = Tunnel(id: nat, url: Url)

  /** The `pendingStart` record.  It is shared by `pendingStart` and by the start that created it,
      so it lives in `pendings`, keyed by its generation. */
  datatype Pending = Pending(tunnel: Option<Tunnel>, cancelled: bool)

  /** Who awaits a `start`: code outside the service, or `attemptReconnect`. */
  datatype Caller = External | Reconnect

  datatype Continuation =
    | StaleStop(caller: Caller)                    // start, stopping the tunnel it took from its predecessor
    | AwaitProvider(caller: Caller)                // start, racing the provider against cancellation
    | Probing(probed: Tunnel, caller: Caller)      // start, inside the readiness probe
    | Discarding(caller: Caller)                   // start, stopping a tunnel because it was superseded
    | FailStopping(caller: Caller)                 // start, stopping a tunnel because it failed
    | StopPending(next: Option<Tunnel>)            // stop, awaiting the pending tunnel; `next` is stopped after it
    | StopTunnel                                   // stop, awaiting the promoted tunnel

  /** The part of the service that creates, hands over and stops tunnels. */
  datatype Ledger = Ledger(
    tunnel: Option<Tunnel>,          // the promoted tunnel
    pendingStart: Option<nat>,
    startGeneration: nat,
    pendings: map<nat, Pending>,
    ops: map<nat, Continuation>,     // suspended starts and stops
    late: set<nat>,                  // providers still outstanding after their start was cancelled
    // history, read by the theorems only
    yielded: set<Tunnel>,
    stops: multiset<Tunnel>,         // every call of stop() on a handle
    promotions: multiset<Tunnel>,
    probedOk: set<Tunnel>,           // tunnels whose own probe loop returned 2xx
    overwritten: set<Tunnel>         // tunnels dropped from the promoted slot without a stop
  )

  /** The armed timers: health monitor, reconnect, session lease. */
  datatype Timers = Timers(monitor: bool, reconnect: bool, lease: bool)

  /** Suspended code that holds no tunnel, counted; a health probe in flight keeps the tunnel it was sent to. */
  datatype Waiting = Waiting(
    monitors: multiset<Option<Tunnel>>, // health probes in flight, each with the tunnel promoted when it was sent
    recoveries: nat,                 // recoveries awaiting their tunnel's stop
    reconnectOk: nat,                // attemptReconnect about to resume after a successful start
    reconnectFailed: nat             // attemptReconnect about to resume after a failed start
  )

  datatype Options = Options(failureThreshold: nat, leaseTtl: bool)

  datatype Gateway = Gateway(
    ledger: Ledger,
    state: BridgeState,
    tunnelUrl: Option<Url>,
    leased: bool,
    desiredRunning: bool,
    desiredSession: bool,
    failures: nat,
    timers: Timers,
    waiting: Waiting,
    options: Options
  )

  function Init(options: Options): Gateway {
    Gateway(Ledger(None, None, 0, map[], map[], {}, {}, multiset{}, multiset{}, {}, {}),
            STOPPED, None, false, false, false, 0, Timers(false, false, false), Waiting(multiset{}, 0, 0, 0), options)
  }

  datatype Event =
    | StartCall                                     // start() called from outside
    | StaleStopped(k: nat)
    | ProviderYields(k: nat, t: Tunnel, urlValid: bool)
    | ProviderFails(k: nat)
    | ProviderCancelled(k: nat)
    | ProbeReturns(k: nat, status: int)
    | ProbeThrows(k: nat)
    | Discarded(k: nat)
    | FailStopped(k: nat)
    | LateYields(k: nat, t: Tunnel)
    | LateFails(k: nat)
    | StopCall                                      // stop() called from outside
    | StopResumes(k: nat)
    | ConnectCall
    | DisconnectCall
    | LeaseExpires
    | MonitorFires
    | MonitorProbed(sentTo: Option<Tunnel>, status: int)
    | RecoveryResumes
    | ReconnectFires
    | ReconnectResumes(ok: bool)

  predicate Healthy(g: Gateway) { g.state == BRIDGE_HEALTHY || g.state == SESSION_CONNECTED }

  predicate Is2xx(status: int) { 200 <= status < 300 }

  /** The guard a start re-evaluates after each of its awaits. */
  predicate Superseded(g: Gateway, k: nat)
    requires k in g.ledger.pendings
  {
    g.ledger.pendings[k].cancelled || k != g.ledger.startGeneration || g.state != INITIALIZING
  }

  predicate Waits(l: Ledger, k: nat) { k in l.ops && (UsesPending(l.ops[k]) ==> k in l.pendings) }

  predicate UsesPending(c: Continuation) { c.AwaitProvider? || c.Probing? || c.Discarding? || c.FailStopping? }

  predicate Enabled(g: Gateway, e: Event) {
    var l := g.ledger;
    match e
    case StartCall => true
    case StaleStopped(k) => Waits(l, k) && l.ops[k].StaleStop?
    case ProviderYields(k, t, _) => Waits(l, k) && l.ops[k].AwaitProvider? && t !in l.yielded
    case ProviderFails(k) => Waits(l, k) && l.ops[k].AwaitProvider?
    case ProviderCancelled(k) => Waits(l, k) && l.ops[k].AwaitProvider? && l.pendings[k].cancelled
    case ProbeReturns(k, _) => Waits(l, k) && l.ops[k].Probing?
    // probeWithRetry throws only after it saw the start superseded, and that verdict never reverts
    case ProbeThrows(k) => Waits(l, k) && l.ops[k].Probing? && Superseded(g, k)
    case Discarded(k) => Waits(l, k) && l.ops[k].Discarding?
    case FailStopped(k) => Waits(l, k) && l.ops[k].FailStopping?
    case LateYields(k, t) => k in l.late && t !in l.yielded
    case LateFails(k) => k in l.late
    case StopCall => true
    case StopResumes(k) => Waits(l, k) && (l.ops[k].StopPending? || l.ops[k].StopTunnel?)
    case ConnectCall => true
    case DisconnectCall => true
    case LeaseExpires => g.timers.lease
    case MonitorFires => g.timers.monitor
    case MonitorProbed(sentTo, _) => sentTo in g.waiting.monitors
    case RecoveryResumes => g.waiting.recoveries > 0
    case ReconnectFires => g.timers.reconnect
    case ReconnectResumes(ok) => if ok then g.waiting.reconnectOk > 0 else g.waiting.reconnectFailed > 0
  }

  // ---------------------------------------------------------------- what the events do to the ledger

  function Without<V>(m: map<nat, V>, k: nat): map<nat, V> { m - {k} }

  function CallStop(l: Ledger, t: Tunnel): Ledger { l.(stops := l.stops + multiset{t}) }

  function PendingTunnel(l: Ledger): Option<Tunnel> {
    if l.pendingStart.Some? && l.pendingStart.value in l.pendings
    then l.pendings[l.pendingStart.value].tunnel else None
  }

  /** A newer operation draws its generation, cancels the current pending record and takes its tunnel. */
  function Cancel(l: Ledger): Ledger {
    l.(startGeneration := l.startGeneration + 1,
       pendings := if l.pendingStart.Some? then l.pendings[l.pendingStart.value := Pending(None, true)] else l.pendings)
  }

  /** ... and stops the tunnel it took. */
  function TakeOver(l: Ledger): Ledger {
    match PendingTunnel(l)
    case Some(stale) => CallStop(Cancel(l), stale)
    case None => Cancel(l)
  }

  /** A start publishes its pending record and calls the provider. */
  function Open(l: Ledger, k: nat, caller: Caller): Ledger {
    l.(pendings := l.pendings[k := Pending(None, false)], pendingStart := Some(k), ops := l.ops[k := AwaitProvider(caller)])
  }

  /** A start draws its generation; it waits first if it has a predecessor's tunnel to stop. */
  function OpenAfterStale(l: Ledger, caller: Caller): Ledger {
    var l1 := TakeOver(l);
    if PendingTunnel(l).Some? then l1.(ops := l1.ops[l1.startGeneration := StaleStop(caller)])
    else Open(l1, l1.startGeneration, caller)
  }

  /** A start leaves its try block through `finally`. */
  function Close(l: Ledger, k: nat): Ledger {
    l.(pendingStart := if l.pendingStart == Some(k) then None else l.pendingStart, ops := Without(l.ops, k))
  }

  /** A start, or a stop, ends outside a try block. */
  function End(l: Ledger, k: nat): Ledger { l.(ops := Without(l.ops, k)) }

  /** The provider's tunnel is stopped at once, the start waiting as `after`. */
  function YieldAndStop(l: Ledger, k: nat, t: Tunnel, after: Continuation): Ledger {
    CallStop(l.(yielded := l.yielded + {t}), t).(ops := l.ops[k := after])
  }

  /** The provider's tunnel enters the pending record and is probed. */
  function YieldAndProbe(l: Ledger, k: nat, t: Tunnel, caller: Caller): Ledger
    requires k in l.pendings
  {
    l.(yielded := l.yielded + {t},
       pendings := l.pendings[k := l.pendings[k].(tunnel := Some(t))],
       ops := l.ops[k := Probing(t, caller)])
  }

  function LateStop(l: Ledger, k: nat, t: Tunnel): Ledger {
    CallStop(l.(yielded := l.yielded + {t}, late := l.late - {k}), t)
  }

  function NoteProbe(l: Ledger, t: Tunnel, status: int): Ledger {
    if Is2xx(status) then l.(probedOk := l.probedOk + {t}) else l
  }

  /** The probed tunnel leaves the pending record and is stopped, the start waiting as `after`. */
  function Release(l: Ledger, k: nat, t: Tunnel, after: Continuation): Ledger
    requires k in l.pendings
  {
    CallStop(l, t).(pendings := l.pendings[k := l.pendings[k].(tunnel := None)], ops := l.ops[k := after])
  }

  function Promote(l: Ledger, k: nat, t: Tunnel): Ledger
    requires k in l.pendings
  {
    Close(l.(pendings := l.pendings[k := l.pendings[k].(tunnel := None)],
             tunnel := Some(t),
             promotions := l.promotions + multiset{t},
             overwritten := if l.tunnel.Some? then l.overwritten + {l.tunnel.value} else l.overwritten), k)
  }

  /** The promoted tunnel, if any, is given up and stopped. */
  function Demote(l: Ledger): Ledger {
    if l.tunnel.Some? then CallStop(l.(tunnel := None), l.tunnel.value) else l
  }

  /** stop() up to its first await: every tunnel it finds is stopped, or bound to be stopped next. */
  function BeginStop(l: Ledger): Ledger {
    if PendingTunnel(l).Some? && PendingTunnel(l) != l.tunnel then
      var l1 := TakeOver(l);
      l1.(pendingStart := None, tunnel := None, ops := l1.ops[l1.startGeneration := StopPending(l.tunnel)])
    else
      var l1 := Demote(Cancel(l)).(pendingStart := None);
      if l.tunnel.Some? then l1.(ops := l1.ops[l1.startGeneration := StopTunnel]) else l1
  }

  function StopNext(l: Ledger, k: nat, t: Tunnel): Ledger { CallStop(l, t).(ops := l.ops[k := StopTunnel]) }

  // ---------------------------------------------------------------- what the events do to the rest

  function ScheduleMonitor(g: Gateway): Gateway {
    g.(timers := g.timers.(monitor := g.desiredRunning && g.tunnelUrl.Some? && Healthy(g)))
  }

  function ScheduleReconnect(g: Gateway): Gateway { g.(timers := g.timers.(reconnect := g.timers.reconnect || g.desiredRunning)) }

  /** A start gives its result to its caller. */
  function Answer(g: Gateway, caller: Caller, ok: bool): Gateway {
    match caller
    case External => g
    case Reconnect =>
      var w := g.waiting;
      g.(waiting := if ok then w.(reconnectOk := w.reconnectOk + 1) else w.(reconnectFailed := w.reconnectFailed + 1))
  }

  function Refuse(g: Gateway, k: nat, caller: Caller): Gateway { Answer(g.(ledger := Close(g.ledger, k)), caller, false) }

  predicate AlreadyRunning(g: Gateway) { Healthy(g) && g.ledger.tunnel.Some? && g.tunnelUrl.Some? }

  function Start(g: Gateway, caller: Caller): Gateway {
    var g1 := g.(desiredRunning := true, timers := g.timers.(reconnect := false));
    if AlreadyRunning(g) then Answer(ScheduleMonitor(g1), caller, true)
    else g1.(timers := g1.timers.(monitor := false),
             ledger := OpenAfterStale(g.ledger, caller),
             state := if PendingTunnel(g.ledger).Some? then g.state else INITIALIZING)
  }

  /** The superseded exit after the probe: stop the tunnel unless somebody already took it. */
  function Discard(g: Gateway, k: nat, t: Tunnel, caller: Caller): Gateway
    requires k in g.ledger.pendings
  {
    if g.ledger.pendings[k].tunnel == Some(t) then g.(ledger := Release(g.ledger, k, t, Discarding(caller)))
    else Refuse(g, k, caller)
  }

  function Succeed(g: Gateway, k: nat, t: Tunnel, caller: Caller): Gateway
    requires k in g.ledger.pendings
  {
    Answer(ScheduleMonitor(g.(ledger := Promote(g.ledger, k, t), tunnelUrl := Some(t.url), state := BRIDGE_HEALTHY, failures := 0)),
           caller, true)
  }

  function Stop(g: Gateway): Gateway {
    var l := BeginStop(g.ledger);
    var g1 := g.(desiredRunning := false, desiredSession := false,
                 timers := g.timers.(monitor := false, reconnect := false), ledger := l);
    if l.startGeneration in l.ops then g1 else Settle(g1)
  }

  /** The end of a stop that is still current. */
  function Settle(g: Gateway): Gateway {
    g.(state := STOPPED, tunnelUrl := None, leased := false, timers := g.timers.(lease := false), failures := 0)
  }

  function Connect(g: Gateway): Gateway {
    if g.state != BRIDGE_HEALTHY then g
    else ScheduleMonitor(g.(desiredSession := true, leased := true, state := SESSION_CONNECTED,
                           timers := g.timers.(lease := g.options.leaseTtl)))
  }

  function Disconnect(g: Gateway): Gateway {
    ScheduleMonitor(g.(desiredSession := false, timers := g.timers.(lease := false), leased := false,
                       state := if g.state != SESSION_CONNECTED then g.state
                                else if g.tunnelUrl.None? then STOPPED else BRIDGE_HEALTHY))
  }

  predicate MonitorApplies(g: Gateway) { g.desiredRunning && g.tunnelUrl.Some? && Healthy(g) }

  function BeginRecovery(g: Gateway): Gateway {
    var g1 := g.(timers := g.timers.(monitor := false, lease := false), leased := false, state := ERROR,
                 tunnelUrl := None, ledger := Demote(g.ledger));
    if g.ledger.tunnel.Some? then g1.(waiting := g.waiting.(recoveries := g.waiting.recoveries + 1)) else ScheduleReconnect(g1)
  }

  function Next(g: Gateway, e: Event): Gateway
    requires Enabled(g, e)
  {
    var l := g.ledger;
    match e
    case StartCall => Start(g, External)
    case StaleStopped(k) =>
      if k != l.startGeneration || !g.desiredRunning
      then Answer(g.(ledger := End(l, k)), l.ops[k].caller, false)
      else g.(ledger := Open(l, k, l.ops[k].caller), state := INITIALIZING)
    case ProviderYields(k, t, urlValid) =>
      if Superseded(g, k) then g.(ledger := YieldAndStop(l, k, t, Discarding(l.ops[k].caller)))
      else if !urlValid then g.(ledger := YieldAndStop(l, k, t, FailStopping(l.ops[k].caller)))
      else g.(ledger := YieldAndProbe(l, k, t, l.ops[k].caller))
    case ProviderFails(k) =>
      if Superseded(g, k) then Refuse(g, k, l.ops[k].caller)
      else Refuse(g.(state := ERROR), k, l.ops[k].caller)
    case ProviderCancelled(k) => Refuse(g.(ledger := l.(late := l.late + {k})), k, l.ops[k].caller)
    case ProbeReturns(k, status) =>
      var t, caller := l.ops[k].probed, l.ops[k].caller;
      var g1 := g.(ledger := NoteProbe(l, t, status));
      if Superseded(g, k) then Discard(g1, k, t, caller)
      else if Is2xx(status) then Succeed(g1, k, t, caller)
      else if l.tunnel == Some(t) then Refuse(g.(state := ERROR), k, caller)
      else g1.(ledger := Release(l, k, t, FailStopping(caller)))
    case ProbeThrows(k) => Discard(g, k, l.ops[k].probed, l.ops[k].caller)
    case Discarded(k) => Refuse(g, k, l.ops[k].caller)
    // no generation check here: this is the write the theorems single out
    case FailStopped(k) => Refuse(g.(state := ERROR), k, l.ops[k].caller)
    case LateYields(k, t) => g.(ledger := LateStop(l, k, t))
    case LateFails(k) => g.(ledger := l.(late := l.late - {k}))
    case StopCall => Stop(g)
    case StopResumes(k) =>
      if l.ops[k].StopPending? && l.ops[k].next.Some? then g.(ledger := StopNext(l, k, l.ops[k].next.value))
      else if k != l.startGeneration then g.(ledger := End(l, k))
      else Settle(g.(ledger := End(l, k)))
    case ConnectCall => Connect(g)
    case DisconnectCall => Disconnect(g)
    case LeaseExpires => Disconnect(g)
    case MonitorFires =>
      var g1 := g.(timers := g.timers.(monitor := false));
      if MonitorApplies(g) then g1.(waiting := g.waiting.(monitors := g.waiting.monitors + multiset{l.tunnel})) else g1
    case MonitorProbed(sentTo, status) =>
      var g1 := g.(waiting := g.waiting.(monitors := g.waiting.monitors - multiset{sentTo}));
      if !MonitorApplies(g) then g1
      else if Is2xx(status) then ScheduleMonitor(g1.(failures := 0))
      else if g.failures + 1 < g.options.failureThreshold then ScheduleMonitor(g1.(failures := g.failures + 1))
      else BeginRecovery(g1.(failures := g.failures + 1))
    case RecoveryResumes => ScheduleReconnect(g.(waiting := g.waiting.(recoveries := g.waiting.recoveries - 1)))
    case ReconnectFires =>
      var g1 := g.(timers := g.timers.(reconnect := false));
      if g.desiredRunning then Start(g1, Reconnect) else g1
    case ReconnectResumes(ok) =>
      if ok then
        var g1 := g.(waiting := g.waiting.(reconnectOk := g.waiting.reconnectOk - 1));
        if g.desiredSession && g.desiredRunning && g.state == BRIDGE_HEALTHY then Connect(g1) else g1
      else ScheduleReconnect(g.(waiting := g.waiting.(reconnectFailed := g.waiting.reconnectFailed - 1)))
  }

  // ---------------------------------------------------------------- runs

  /** Every event of `es` is enabled when its turn comes. */
  predicate Runs(g: Gateway, es: seq<Event>)
    decreases |es|
  {
    es == [] || (Enabled(g, es[0]) && Runs(Next(g, es[0]), es[1..]))
  }

  function After(g: Gateway, es: seq<Event>): Gateway
    requires Runs(g, es)
    decreases |es|
  {
    if es == [] then g else After(Next(g, es[0]), es[1..])
  }
}
