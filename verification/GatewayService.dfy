/**
 The service object, with one method for each stretch of code between two awaits.  Every method is
 proved to take the step machine's transition; the theorems are about the machine.
 */
module GatewayObject {
  import opened Prelude
  import opened GatewayModel

  class GatewayService {
    var ledger: Ledger               // tunnel, pendingStart, startGeneration and the suspended starts and stops
    var state: BridgeState
    var tunnelUrl: Option<Url>
    var leased: bool
    var desiredRunning: bool
    var desiredSession: bool
    var failures: nat
    var timers: Timers
    var waiting: Waiting
    const options: Options

    ghost function View(): Gateway
      reads this
    {
      Gateway(ledger, state, tunnelUrl, leased, desiredRunning, desiredSession, failures, timers, waiting, options)
    }

    constructor (options: Options)
      ensures View() == Init(options)
    {
      ledger := Ledger(None, None, 0, map[], map[], {}, {}, multiset{}, multiset{}, {}, {});
      state, tunnelUrl, leased := STOPPED, None, false;
      desiredRunning, desiredSession, failures := false, false, 0;
      timers, waiting := Timers(false, false, false), Waiting(multiset{}, 0, 0, 0);
      this.options := options;
    }

    // ---------------------------------------------------------------- private helpers

    /** handle.stop(); the caller then suspends or goes on. */
    method StopHandle(t: Tunnel)
      modifies this`ledger
      ensures ledger == CallStop(old(ledger), t)
    {
      ledger := ledger.(stops := ledger.stops + multiset{t});
    }

    method Suspend(k: nat, c: Continuation)
      modifies this`ledger
      ensures ledger == old(ledger).(ops := old(ledger.ops)[k := c])
    {
      ledger := ledger.(ops := ledger.ops[k := c]);
    }

    method ScheduleHealthMonitor()
      modifies this`timers
      ensures View() == ScheduleMonitor(old(View()))
    {
      timers := timers.(monitor := false);
      if !desiredRunning || tunnelUrl.None? || (state != BRIDGE_HEALTHY && state != SESSION_CONNECTED) { return; }
      timers := timers.(monitor := true);
    }

    method ScheduleReconnectTimer()
      modifies this`timers
      ensures View() == ScheduleReconnect(old(View()))
    {
      if !desiredRunning || timers.reconnect { return; }
      timers := timers.(reconnect := true);
    }

    method Return(caller: Caller, ok: bool)
      modifies this`waiting
      ensures View() == Answer(old(View()), caller, ok)
    {
      if caller == Reconnect {
        if ok { waiting := waiting.(reconnectOk := waiting.reconnectOk + 1); }
        else { waiting := waiting.(reconnectFailed := waiting.reconnectFailed + 1); }
      }
    }

    method Finally(k: nat)
      modifies this`ledger
      ensures ledger == Close(old(ledger), k)
    {
      if ledger.pendingStart == Some(k) { ledger := ledger.(pendingStart := None); }
      ledger := ledger.(ops := Without(ledger.ops, k));
    }

    method ReturnError(k: nat, caller: Caller)
      modifies this`ledger, this`waiting
      ensures View() == Refuse(old(View()), k, caller)
    {
      Finally(k);
      Return(caller, false);
    }

    /** Draws a generation, cancels the current pending record, if any, and takes its tunnel. */
    method CancelPrevious() returns (taken: Option<Tunnel>)
      modifies this`ledger
      ensures taken == PendingTunnel(old(ledger)) && ledger == Cancel(old(ledger))
    {
      taken := None;
      ledger := ledger.(startGeneration := ledger.startGeneration + 1);
      if ledger.pendingStart.Some? {
        var p := ledger.pendingStart.value;
        if p in ledger.pendings { taken := ledger.pendings[p].tunnel; }
        ledger := ledger.(pendings := ledger.pendings[p := Pending(None, true)]);
      }
    }

    predicate IsSuperseded(k: nat)
      requires k in ledger.pendings
      reads this
      ensures IsSuperseded(k) == Superseded(View(), k)
    {
      ledger.pendings[k].cancelled || k != ledger.startGeneration || state != INITIALIZING
    }

    // ---------------------------------------------------------------- start

    method StartFrom(caller: Caller)
      modifies this
      ensures View() == Start(old(View()), caller)
    {
      hide Open, ScheduleMonitor, Answer;
      desiredRunning := true;
      timers := timers.(reconnect := false);
      if (state == BRIDGE_HEALTHY || state == SESSION_CONNECTED) && ledger.tunnel.Some? && tunnelUrl.Some? {
        ScheduleHealthMonitor();
        Return(caller, true);
        return;
      }
      timers := timers.(monitor := false);
      var staleTunnel := CancelPrevious();
      if staleTunnel.Some? {
        StopHandle(staleTunnel.value);
        Suspend(ledger.startGeneration, StaleStop(caller));
      } else {
        Publish(ledger.startGeneration, caller);
      }
    }

    /** A start publishes its pending record and calls the provider. */
    method Publish(k: nat, caller: Caller)
      modifies this`ledger, this`state
      ensures View() == old(View()).(ledger := Open(old(ledger), k, caller), state := INITIALIZING)
    {
      ledger := ledger.(pendings := ledger.pendings[k := Pending(None, false)]);
      ledger := ledger.(pendingStart := Some(k));
      state := INITIALIZING;
      Suspend(k, AwaitProvider(caller));
    }

    method AfterStaleStop(k: nat)
      requires Enabled(View(), StaleStopped(k))
      modifies this
      ensures View() == Next(old(View()), StaleStopped(k))
    {
      var caller := ledger.ops[k].caller;
      if k != ledger.startGeneration || !desiredRunning {
        ledger := ledger.(ops := Without(ledger.ops, k));
        Return(caller, false);
      } else {
        Publish(k, caller);
      }
    }

    method AfterProvider(k: nat, t: Tunnel, urlValid: bool)
      requires Enabled(View(), ProviderYields(k, t, urlValid))
      modifies this
      ensures View() == Next(old(View()), ProviderYields(k, t, urlValid))
    {
      var caller := ledger.ops[k].caller;
      ledger := ledger.(yielded := ledger.yielded + {t});
      if IsSuperseded(k) {
        StopHandle(t);
        Suspend(k, Discarding(caller));
      } else if !urlValid {
        StopHandle(t);
        Suspend(k, FailStopping(caller));
      } else {
        ledger := ledger.(pendings := ledger.pendings[k := ledger.pendings[k].(tunnel := Some(t))]);
        Suspend(k, Probing(t, caller));
      }
    }

    method AfterProviderError(k: nat)
      requires Enabled(View(), ProviderFails(k))
      modifies this
      ensures View() == Next(old(View()), ProviderFails(k))
    {
      if !IsSuperseded(k) { state := ERROR; }
      ReturnError(k, ledger.ops[k].caller);
    }

    method AfterCancellation(k: nat)
      requires Enabled(View(), ProviderCancelled(k))
      modifies this
      ensures View() == Next(old(View()), ProviderCancelled(k))
    {
      ledger := ledger.(late := ledger.late + {k});
      ReturnError(k, ledger.ops[k].caller);
    }

    /** The probed tunnel leaves its pending record and is stopped. */
    method ReleaseTunnel(k: nat, t: Tunnel, after: Continuation)
      requires k in ledger.pendings
      modifies this`ledger
      ensures ledger == Release(old(ledger), k, t, after)
    {
      ledger := ledger.(pendings := ledger.pendings[k := ledger.pendings[k].(tunnel := None)]);
      StopHandle(t);
      Suspend(k, after);
    }

    /** The exit for a superseded start that may still own its tunnel. */
    method GiveUp(k: nat, t: Tunnel, caller: Caller)
      requires k in ledger.pendings
      modifies this
      ensures View() == Discard(old(View()), k, t, caller)
    {
      if ledger.pendings[k].tunnel == Some(t) { ReleaseTunnel(k, t, Discarding(caller)); }
      else { ReturnError(k, caller); }
    }

    method AfterProbe(k: nat, status: int)
      requires Enabled(View(), ProbeReturns(k, status))
      modifies this
      ensures View() == Next(old(View()), ProbeReturns(k, status))
    {
      var t, caller := ledger.ops[k].probed, ledger.ops[k].caller;
      if 200 <= status < 300 { ledger := ledger.(probedOk := ledger.probedOk + {t}); }
      if IsSuperseded(k) {
        GiveUp(k, t, caller);
      } else if status < 200 || status >= 300 {
        if ledger.tunnel != Some(t) {
          ReleaseTunnel(k, t, FailStopping(caller));
        } else {
          state := ERROR;
          ReturnError(k, caller);
        }
      } else {
        Accept(k, t, caller);
      }
    }

    /** The promotion of a probed tunnel. */
    method Accept(k: nat, t: Tunnel, caller: Caller)
      requires k in ledger.pendings
      modifies this
      ensures View() == Succeed(old(View()), k, t, caller)
    {
      ledger := ledger.(pendings := ledger.pendings[k := ledger.pendings[k].(tunnel := None)],
                        overwritten := if ledger.tunnel.Some? then ledger.overwritten + {ledger.tunnel.value} else ledger.overwritten);
      ledger := ledger.(tunnel := Some(t), promotions := ledger.promotions + multiset{t});
      tunnelUrl := Some(t.url);
      state := BRIDGE_HEALTHY;
      failures := 0;
      Finally(k);
      ScheduleHealthMonitor();
      Return(caller, true);
    }

    method AfterProbeThrew(k: nat)
      requires Enabled(View(), ProbeThrows(k))
      modifies this
      ensures View() == Next(old(View()), ProbeThrows(k))
    {
      GiveUp(k, ledger.ops[k].probed, ledger.ops[k].caller);
    }

    method AfterDiscard(k: nat)
      requires Enabled(View(), Discarded(k))
      modifies this
      ensures View() == Next(old(View()), Discarded(k))
    {
      ReturnError(k, ledger.ops[k].caller);
    }

    method AfterFailStop(k: nat)
      requires Enabled(View(), FailStopped(k))
      modifies this
      ensures View() == Next(old(View()), FailStopped(k))
    {
      state := ERROR;
      ReturnError(k, ledger.ops[k].caller);
    }

    method AfterLateProvider(k: nat, t: Tunnel)
      requires Enabled(View(), LateYields(k, t))
      modifies this
      ensures View() == Next(old(View()), LateYields(k, t))
    {
      ledger := ledger.(late := ledger.late - {k}, yielded := ledger.yielded + {t});
      StopHandle(t);
    }

    // ---------------------------------------------------------------- stop

    method StopService()
      requires ledger.startGeneration + 1 !in ledger.ops
      modifies this
      ensures View() == Next(old(View()), StopCall)
    {
      desiredRunning := false;
      desiredSession := false;
      var pendingTunnel := CancelPrevious();
      timers := timers.(monitor := false, reconnect := false);
      var promoted := ledger.tunnel;
      ledger := ledger.(pendingStart := None, tunnel := None);
      if pendingTunnel.Some? && pendingTunnel != promoted {
        StopHandle(pendingTunnel.value);
        Suspend(ledger.startGeneration, StopPending(promoted));
      } else if promoted.Some? {
        StopHandle(promoted.value);
        Suspend(ledger.startGeneration, StopTunnel);
      } else {
        FinishStop();
      }
    }

    /** The writes behind stop's generation check. */
    method FinishStop()
      modifies this
      ensures View() == Settle(old(View()))
    {
      state := STOPPED;
      tunnelUrl := None;
      leased := false;
      timers := timers.(lease := false);
      failures := 0;
    }

    method AfterStop(k: nat)
      requires Enabled(View(), StopResumes(k))
      modifies this
      ensures View() == Next(old(View()), StopResumes(k))
    {
      if ledger.ops[k].StopPending? && ledger.ops[k].next.Some? {
        StopHandle(ledger.ops[k].next.value);
        Suspend(k, StopTunnel);
        return;
      }
      ledger := ledger.(ops := Without(ledger.ops, k));
      if k != ledger.startGeneration { return; }
      FinishStop();
    }

    // ---------------------------------------------------------------- session, health monitor, recovery, reconnect

    method ConnectSession()
      modifies this
      ensures View() == Connect(old(View()))
    {
      if state != BRIDGE_HEALTHY { return; }
      desiredSession := true;
      leased := true;
      state := SESSION_CONNECTED;
      timers := timers.(lease := false);
      if options.leaseTtl { timers := timers.(lease := true); }
      ScheduleHealthMonitor();
    }

    method DisconnectSession()
      modifies this
      ensures View() == Disconnect(old(View()))
    {
      desiredSession := false;
      timers := timers.(lease := false);
      leased := false;
      if state == SESSION_CONNECTED { state := if tunnelUrl.None? then STOPPED else BRIDGE_HEALTHY; }
      ScheduleHealthMonitor();
    }

    method RunHealthMonitor()
      requires Enabled(View(), MonitorFires)
      modifies this
      ensures View() == Next(old(View()), MonitorFires)
    {
      timers := timers.(monitor := false);
      if !desiredRunning || tunnelUrl.None? || (state != BRIDGE_HEALTHY && state != SESSION_CONNECTED) { return; }
      waiting := waiting.(monitors := waiting.monitors + multiset{ledger.tunnel});
    }

    method AfterHealthProbe(sentTo: Option<Tunnel>, status: int)
      requires Enabled(View(), MonitorProbed(sentTo, status))
      modifies this
      ensures View() == Next(old(View()), MonitorProbed(sentTo, status))
    {
      waiting := waiting.(monitors := waiting.monitors - multiset{sentTo});
      if !desiredRunning || tunnelUrl.None? || (state != BRIDGE_HEALTHY && state != SESSION_CONNECTED) { return; }
      if 200 <= status < 300 {
        failures := 0;
        ScheduleHealthMonitor();
        return;
      }
      failures := failures + 1;
      if failures < options.failureThreshold {
        ScheduleHealthMonitor();
        return;
      }
      Recover();
    }

    method Recover()
      modifies this
      ensures View() == BeginRecovery(old(View()))
    {
      timers := timers.(monitor := false, lease := false);
      leased := false;
      state := ERROR;
      var promoted := ledger.tunnel;
      ledger := ledger.(tunnel := None);
      tunnelUrl := None;
      if promoted.Some? {
        StopHandle(promoted.value);
        waiting := waiting.(recoveries := waiting.recoveries + 1);
      } else {
        ScheduleReconnectTimer();
      }
    }

    method AfterRecoveryStop()
      requires Enabled(View(), RecoveryResumes)
      modifies this
      ensures View() == Next(old(View()), RecoveryResumes)
    {
      waiting := waiting.(recoveries := waiting.recoveries - 1);
      ScheduleReconnectTimer();
    }

    method AttemptReconnect()
      requires Enabled(View(), ReconnectFires)
      modifies this
      ensures View() == Next(old(View()), ReconnectFires)
    {
      timers := timers.(reconnect := false);
      if !desiredRunning { return; }
      StartFrom(Reconnect);
    }

    method AfterReconnectStart(ok: bool)
      requires Enabled(View(), ReconnectResumes(ok))
      modifies this
      ensures View() == Next(old(View()), ReconnectResumes(ok))
    {
      if !ok {
        waiting := waiting.(reconnectFailed := waiting.reconnectFailed - 1);
        ScheduleReconnectTimer();
        return;
      }
      waiting := waiting.(reconnectOk := waiting.reconnectOk - 1);
      if desiredSession && desiredRunning && state == BRIDGE_HEALTHY { ConnectSession(); }
    }
  }
}
