/**
 The scheduler object.  Its loops read the rows once, walk over what they read, keep a local count
 of running workers and break when a launch is held; each is proved to compute the model's loop.
 */
module SwarmObject {
  import opened Prelude
  import opened SwarmGraph
  import opened SwarmModel
  import S = SwarmSafety

  /** Once a launch is held, the rest of the launch loop does nothing: leaving it early is safe. */
  lemma {:induction false} HeldRest(p: Plan, env: Env, s: Swarm, i: nat, n: nat)
    requires WellFormed(p) && Tabulated(p, s.rows) && i <= n <= |p.order|
    requires Held(p, env, Loop(Launching, p, env, s, i), i)
    ensures Loop(Launching, p, env, s, n) == Loop(Launching, p, env, s, i)
  {
    hide Iterate, Held;
    if i < n {
      HeldRest(p, env, s, i, n - 1);
      HeldIteration(p, env, s.rows, Loop(Launching, p, env, s, i), i, n - 1);
    }
  }

  lemma HeldIteration(p: Plan, env: Env, snap: map<Id, Row>, s: Swarm, i: nat, j: nat)
    requires WellFormed(p) && Tabulated(p, snap) && Tabulated(p, s.rows) && i <= j < |p.order| && Held(p, env, s, i)
    ensures Iterate(Launching, p, env, snap, s, j) == s
  {
    hide RunningCount, Dispatch;
  }

  class SwarmService {
    const plan: Plan
    var rows: map<Id, Row>
    var debt: Debt
    var aborted: bool
    var state: SwarmState
    ghost var writes: nat

    ghost function View(): Swarm
      reads this
    {
      Swarm(rows, debt, aborted, state, writes)
    }

    ghost predicate Valid()
      reads this
    {
      WellFormed(plan) && Tabulated(plan, rows)
    }

    constructor (plan: Plan)
      requires WellFormed(plan)
      ensures this.plan == plan && Valid() && View() == Created(plan)
    {
      this.plan := plan;
      rows := map id <- plan.deps :: Row(if plan.deps[id] == [] then Queued else Blocked, None);
      debt := Debt(map[], map[], map[], {});
      aborted, state, writes := false, SwarmQueued, 0;
    }

    method UpdateTask(id: Id, row: Row)
      modifies this`rows, this`writes
      ensures View() == Write(old(View()), id, row)
    {
      rows := rows[id := row];
      writes := writes + 1;
    }

    method ReleaseTaskAdmission(marked: bool, id: Id)
      modifies this`debt
      ensures View() == old(View()).(debt := Release(plan, marked, old(debt), id))
    {
      if !plan.controller || id !in debt.leases { return; }
      if plan.durable {
        if !marked { debt := debt.(refused := debt.refused + {id}); return; }
        if id in debt.bindings { debt := debt.(bindings := debt.bindings[id := Released]); }
      }
      if id in debt.active && debt.active[id] == debt.leases[id] {
        debt := debt.(active := debt.active - {id});
        debt := debt.(leases := debt.leases - {id});
      }
    }

    method RetainTaskAdmissionAsUnverified(marked: bool, id: Id)
      modifies this`debt
      ensures View() == old(View()).(debt := Retain(plan, marked, old(debt), id))
    {
      if id !in debt.leases { return; }
      if plan.durable && marked && id in debt.bindings && debt.bindings[id] != Released {
        debt := debt.(bindings := debt.bindings[id := Unverified]);
      }
    }

    method PersistTaskAdmission(env: Env, id: Id) returns (durable: bool)
      modifies this`debt
      ensures (debt, durable) == Persist(plan, env, old(debt), id)
      ensures View() == old(View()).(debt := debt)
    {
      if !plan.durable { return true; }
      if id !in debt.leases { return false; }
      if !env.identity(id) { return false; }
      if !env.store(id) { return false; }
      if id !in debt.bindings { debt := debt.(bindings := debt.bindings[id := Active]); }
      return debt.bindings[id] != Released;
    }

    // ---------------------------------------------------------------- tick

    method PollTask(env: Env, ghost snap: map<Id, Row>, i: nat, task: Row)
      requires Valid() && Tabulated(plan, snap) && i < |plan.order| && snap[plan.order[i]] == task
      requires task.state == Running && task.handle.Some?
      modifies this`rows, this`debt, this`writes
      ensures View() == Iterate(Polling, plan, env, snap, old(View()), i)
    {
      hide Release, Retain, WellFormed;
      var id := plan.order[i];
      var status := env.status(id);
      if !status.Reply? {
        if status == NotFound {
          RetainTaskAdmissionAsUnverified(env.markUnverified(id), id);
          UpdateTask(id, Row(TerminationUnverified, task.handle));
        }
        return;
      }
      if !TerminalProcess(status.state) { return; }
      var completed := status.state == Exited && (if status.exitCode.Some? then status.exitCode.value else 0) == 0;
      UpdateTask(id, Row(if completed then Completed else Failed, task.handle));
      ReleaseTaskAdmission(env.markReleased(id), id);
    }

    method PollRunning(env: Env)
      requires Valid()
      modifies this`rows, this`debt, this`writes
      ensures Valid() && View() == Whole(Polling, plan, env, old(View()))
    {
      hide Iterate, Tabulated, WellFormed;
      var swarm := rows;
      ghost var s := View();
      var i := 0;
      while i < |plan.order|
        invariant 0 <= i <= |plan.order| && Valid() && View() == Loop(Polling, plan, env, s, i)
      {
        ghost var t := View();
        InOrder(plan, swarm, i);
        var task := swarm[plan.order[i]];
        if task.state == Running && task.handle.Some? { PollTask(env, swarm, i, task); }
        else { PollSkips(plan, env, swarm, t, i); }
        i := i + 1;
      }
    }

    method ResolveTask(ghost env: Env, swarm: map<Id, Row>, failed: set<Id>, i: nat)
      requires Valid() && Tabulated(plan, swarm) && i < |plan.order| && swarm[plan.order[i]].state == Blocked
      requires failed == set id <- swarm | Unsuccessful(swarm[id].state)
      modifies this`rows, this`writes
      ensures View() == Iterate(Resolving, plan, env, swarm, old(View()), i)
    {
      var id := plan.order[i];
      if exists d <- plan.deps[id] :: d in failed {
        UpdateTask(id, Row(Failed, swarm[id].handle));
      } else if forall d <- plan.deps[id] :: d in swarm && swarm[d].state == Completed {
        UpdateTask(id, Row(Queued, swarm[id].handle));
      }
    }

    method ResolveBlocked(ghost env: Env)
      requires Valid()
      modifies this`rows, this`writes
      ensures Valid() && View() == Whole(Resolving, plan, env, old(View()))
    {
      hide Iterate, Tabulated, WellFormed;
      var swarm := rows;
      ghost var s := View();
      var failed := set id <- swarm | Unsuccessful(swarm[id].state);
      var i := 0;
      while i < |plan.order|
        invariant 0 <= i <= |plan.order| && Valid() && View() == Loop(Resolving, plan, env, s, i)
      {
        ghost var t := View();
        InOrder(plan, swarm, i);
        if swarm[plan.order[i]].state == Blocked { ResolveTask(env, swarm, failed, i); }
        else { ResolveSkips(plan, env, swarm, t, i); }
        i := i + 1;
      }
    }

    /** codex.run and what follows it; tells whether a worker now runs. */
    method LaunchWorker(env: Env, ghost snap: map<Id, Row>, id: Id, task: Row) returns (runs: bool)
      requires Valid() && id in rows && id in snap && snap[id] == task
      modifies this`rows, this`debt, this`writes
      ensures View() == Dispatch(plan, env, snap, old(View()), id)
      ensures runs <==> View().rows[id].state == Running
    {
      hide Release, Retain, Persist, Tabulated, WellFormed;
      var started := env.run(id);
      if started.None? {
        ReleaseTaskAdmission(env.markReleased(id), id);
        UpdateTask(id, Row(Failed, task.handle));
        return false;
      }
      var durable := PersistTaskAdmission(env, id);
      if !durable {
        if env.stop(id) {
          ReleaseTaskAdmission(env.markReleased(id), id);
          UpdateTask(id, Row(Failed, task.handle));
        } else {
          RetainTaskAdmissionAsUnverified(env.markUnverified(id), id);
          UpdateTask(id, Row(TerminationUnverified, started));
        }
        return false;
      }
      UpdateTask(id, Row(Running, started));
      return true;
    }

    /** The body of the launch loop past its break. */
    method LaunchTask(env: Env, ghost snap: map<Id, Row>, i: nat, task: Row) returns (runs: bool)
      requires Valid() && Tabulated(plan, snap) && i < |plan.order| && snap[plan.order[i]] == task && task.state == Queued
      requires rows[plan.order[i]] == task && !Held(plan, env, View(), i)
      modifies this`rows, this`debt, this`writes
      ensures View() == Iterate(Launching, plan, env, snap, old(View()), i)
      ensures runs <==> plan.order[i] in rows && rows[plan.order[i]].state == Running
    {
      hide Dispatch, RunningCount;
      var id := plan.order[i];
      if id !in plan.prompts {
        UpdateTask(id, Row(TerminationUnverified, task.handle));
        return false;
      }
      if plan.controller && id !in debt.leases {
        var admission := Acquire(env.pressed(id), debt, id);
        if admission != Admitted {
          if admission == Pressure { return false; }
          UpdateTask(id, Row(Failed, task.handle));
          return false;
        }
        debt := Admit(plan, debt, id);
      }
      runs := LaunchWorker(env, snap, id, task);
    }

    method LaunchQueued(env: Env)
      requires Valid()
      modifies this`rows, this`debt, this`writes
      ensures Valid() && View() == Whole(Launching, plan, env, old(View()))
    {
      hide Iterate, RunningCount, WellFormed;
      var swarm := rows;
      ghost var s := View();
      var running := CountRunning();
      var i := 0;
      while i < |plan.order|
        invariant 0 <= i <= |plan.order| && Valid() && View() == Loop(Launching, plan, env, s, i)
        invariant S.Follows(plan, swarm, rows, i) && running == RunningCount(plan, rows)
      {
        ghost var t := View();
        InOrder(plan, swarm, i);
        var task := swarm[plan.order[i]];
        if task.state == Queued {
          if running >= plan.maxConcurrency || i >= env.signalFrom || aborted {
            HeldRest(plan, env, s, i, |plan.order|);
            return;
          }
          var runs := LaunchTask(env, swarm, i, task);
          LaunchCounts(plan, env, swarm, t, i);
          if runs { running := running + 1; }
        } else {
          LaunchSkips(plan, env, swarm, t, i);
        }
        i := i + 1;
      }
    }

    method CountRunning() returns (n: nat)
      requires Valid()
      ensures n == RunningCount(plan, rows)
    {
      n := 0;
      var i := |plan.order|;
      assert plan.order[i..] == [];
      while i > 0
        invariant 0 <= i <= |plan.order| && n == Total(IsRunning, rows, plan.order[i..])
      {
        i := i - 1;
        assert plan.order[i..][1..] == plan.order[i + 1..];
        if rows[plan.order[i]].state == Running { n := n + 1; }
      }
      assert plan.order[0..] == plan.order;
    }

    method RefreshSwarmState()
      modifies this`state
      ensures View() == old(View()).(state := Summary(rows))
    {
      state := SwarmRunning;
      if exists id <- rows :: rows[id].state == TerminationUnverified { state := SwarmUnverified; }
      else if forall id <- rows :: rows[id].state == Cancelled { state := SwarmCancelled; }
      else if forall id <- rows :: Terminal(rows[id].state) {
        state := if forall id <- rows :: rows[id].state == Completed then SwarmCompleted else SwarmFailed;
      }
      else if forall id <- rows :: rows[id].state == Queued || rows[id].state == Blocked { state := SwarmQueued; }
    }

    method RunTick(env: Env)
      requires Valid()
      modifies this`rows, this`debt, this`state, this`writes
      ensures Valid() && View() == Tick(plan, env, old(View()))
    {
      hide Whole;
      PollRunning(env);
      ResolveBlocked(env);
      LaunchQueued(env);
      RefreshSwarmState();
    }

    // ---------------------------------------------------------------- cancel

    method CancelTask(env: Env, ghost snap: map<Id, Row>, i: nat, task: Row)
      requires Valid() && Tabulated(plan, snap) && i < |plan.order| && snap[plan.order[i]] == task
      modifies this`rows, this`debt, this`writes
      ensures View() == Iterate(Cancelling, plan, env, snap, old(View()), i)
    {
      hide Release, Retain, WellFormed;
      var id := plan.order[i];
      if task.state == Queued || task.state == Blocked {
        ReleaseTaskAdmission(env.markReleased(id), id);
        UpdateTask(id, Row(Cancelled, task.handle));
        return;
      }
      if task.state != Running || task.handle.None? { return; }
      var stopped := env.stop(id);
      if stopped { ReleaseTaskAdmission(env.markReleased(id), id); }
      else { RetainTaskAdmissionAsUnverified(env.markUnverified(id), id); }
      UpdateTask(id, Row(if stopped then Cancelled else TerminationUnverified, task.handle));
    }

    method CancelTasks(env: Env)
      requires Valid()
      modifies this`rows, this`debt, this`writes
      ensures Valid() && View() == Whole(Cancelling, plan, env, old(View()))
    {
      hide Iterate, Tabulated, WellFormed;
      var swarm := rows;
      ghost var s := View();
      var i := 0;
      while i < |plan.order|
        invariant 0 <= i <= |plan.order| && Valid() && View() == Loop(Cancelling, plan, env, s, i)
      {
        InOrder(plan, swarm, i);
        CancelTask(env, swarm, i, swarm[plan.order[i]]);
        i := i + 1;
      }
    }

    method ReleaseAllTaskAdmissions(again: Id -> bool)
      modifies this`debt
      ensures View() == old(View()).(debt := ReleaseAll(plan, again, old(debt), |plan.order|))
    {
      hide Release;
      var i := 0;
      while i < |plan.order|
        invariant 0 <= i <= |plan.order| && debt == ReleaseAll(plan, again, old(debt), i)
      {
        ReleaseTaskAdmission(again(plan.order[i]), plan.order[i]);
        i := i + 1;
      }
    }

    method RunCancel(env: Env, again: Id -> bool)
      requires Valid()
      modifies this
      ensures Valid() && View() == Cancel(plan, env, again, old(View()))
    {
      hide Whole, ReleaseAll;
      if TerminalSwarm(state) { return; }
      aborted := true;
      CancelTasks(env);
      state := if exists id <- rows :: rows[id].state == TerminationUnverified then SwarmUnverified else SwarmCancelled;
      if state == SwarmCancelled { ReleaseAllTaskAdmissions(again); }
    }
  }

  lemma InOrder(p: Plan, rows: map<Id, Row>, i: nat)
    requires Tabulated(p, rows) && i < |p.order|
    ensures p.order[i] in rows
  {
  }

  lemma PollSkips(p: Plan, env: Env, snap: map<Id, Row>, s: Swarm, i: nat)
    requires WellFormed(p) && Tabulated(p, snap) && Tabulated(p, s.rows) && i < |p.order|
    requires snap[p.order[i]].state != Running || snap[p.order[i]].handle.None?
    ensures Iterate(Polling, p, env, snap, s, i) == s
  {
  }

  lemma ResolveSkips(p: Plan, env: Env, snap: map<Id, Row>, s: Swarm, i: nat)
    requires WellFormed(p) && Tabulated(p, snap) && Tabulated(p, s.rows) && i < |p.order| && snap[p.order[i]].state != Blocked
    ensures Iterate(Resolving, p, env, snap, s, i) == s
  {
  }

  lemma LaunchSkips(p: Plan, env: Env, snap: map<Id, Row>, s: Swarm, i: nat)
    requires WellFormed(p) && Tabulated(p, snap) && Tabulated(p, s.rows) && i < |p.order| && snap[p.order[i]].state != Queued
    ensures Iterate(Launching, p, env, snap, s, i) == s
    ensures S.Follows(p, snap, s.rows, i) ==> S.Follows(p, snap, s.rows, i + 1)
  {
  }

  lemma DispatchWrites(p: Plan, env: Env, snap: map<Id, Row>, s: Swarm, id: Id)
    requires id in snap && id in s.rows && snap[id].state == Queued
    ensures var t := Dispatch(p, env, snap, s, id); t.rows == s.rows[id := t.rows[id]] && Weight(t.rows[id].state) < Weight(Queued)
  {
    hide Release, Retain, Persist;
  }

  lemma LaunchWrites(p: Plan, env: Env, snap: map<Id, Row>, s: Swarm, i: nat)
    requires WellFormed(p) && Tabulated(p, snap) && Tabulated(p, s.rows) && i < |p.order|
    requires s.rows[p.order[i]] == snap[p.order[i]] && snap[p.order[i]].state == Queued
    ensures var id, t := p.order[i], Iterate(Launching, p, env, snap, s, i);
      t.rows == s.rows || (t.rows == s.rows[id := t.rows[id]] && Weight(t.rows[id].state) < Weight(s.rows[id].state))
  {
    hide RunningCount, Dispatch, Admit, Held, Acquire;
    DispatchWrites(p, env, snap, s, p.order[i]);
    DispatchWrites(p, env, snap, s.(debt := Admit(p, s.debt, p.order[i])), p.order[i]);
  }

  /** The local counter of the launch loop follows the rows. */
  lemma LaunchCounts(p: Plan, env: Env, snap: map<Id, Row>, s: Swarm, i: nat)
    requires WellFormed(p) && Tabulated(p, snap) && Tabulated(p, s.rows) && i < |p.order|
    requires S.Follows(p, snap, s.rows, i) && snap[p.order[i]].state == Queued
    ensures var t := Iterate(Launching, p, env, snap, s, i);
      && RunningCount(p, t.rows) == RunningCount(p, s.rows) + IsRunning(t.rows[p.order[i]].state)
      && S.Follows(p, snap, t.rows, i + 1)
  {
    hide RunningCount, Iterate;
    LaunchWrites(p, env, snap, s, i);
    S.WriteCounts(p, s.rows, p.order[i], Iterate(Launching, p, env, snap, s, i).rows[p.order[i]]);
  }
}
