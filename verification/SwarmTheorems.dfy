/** What the scheduler guarantees from its creation to its end. */
module SwarmTheorems {
  import opened Prelude
  import opened SwarmGraph
  import opened SwarmModel
  import opened SwarmSafety
  import opened SwarmRuns

  // ---------------------------------------------------------------- dependencies

  /** `t` depends on `u`, directly or through others. */
  ghost predicate Needs(p: Plan, t: Id, u: Id) {
    exists q: seq<Id> :: 2 <= |q| && IsPath(p.deps, q) && q[0] == t && q[|q| - 1] == u
  }

  lemma {:induction false} PathCompleted(p: Plan, rows: map<Id, Row>, q: seq<Id>)
    requires RowsOk(p, rows) && 2 <= |q| && IsPath(p.deps, q) && q[0] in rows && Entered(rows[q[0]])
    ensures q[|q| - 1] in rows && rows[q[|q| - 1]].state == Completed
    decreases |q|
  {
    assert q[1] in Dependencies(p.deps, q[0]);
    if |q| > 2 {
      assert forall i :: 0 < i < |q[1..]| ==> q[1..][i] == q[i + 1] && q[1..][i - 1] == q[i];
      PathCompleted(p, rows, q[1..]);
    }
  }

  /** A task is queued, launched or completed only after everything it depends on, directly or not, completed. */
  lemma DependencySafety(p: Plan, s: Swarm, t: Id, u: Id)
    requires Sound(p, s) && t in s.rows && Entered(s.rows[t]) && Needs(p, t, u)
    ensures u in s.rows && s.rows[u].state == Completed
  {
    var q :| 2 <= |q| && IsPath(p.deps, q) && q[0] == t && q[|q| - 1] == u;
    PathCompleted(p, s.rows, q);
  }

  /** Once a dependency, direct or not, was unsuccessful, no run ever queues or launches the dependent. */
  lemma NeverLaunched(p: Plan, s: Swarm, es: seq<Event>, t: Id, u: Id)
    requires Good(p, s) && Runs(p, s, es) && t in s.rows && Needs(p, t, u)
    requires u in s.rows && Unsuccessful(s.rows[u].state)
    ensures t in After(p, s, es).rows && !Entered(After(p, s, es).rows[t])
  {
    RunGood(p, s, es);
    var h := After(p, s, es);
    hide Runs, After, RowsOk, DebtOk, RunningCount, Rank, Needs;
    assert h.rows[u] == s.rows[u] && t in h.rows;
    if Entered(h.rows[t]) { DependencySafety(p, h, t, u); }
  }

  // ---------------------------------------------------------------- every write of every run

  /** Reachable states are good, and a run of a swarm of N tasks updates task rows at most 3N times. */
  lemma Reachable(p: Plan, es: seq<Event>)
    requires WellFormed(p) && p.order != [] && Runs(p, Created(p), es)
    ensures Good(p, After(p, Created(p), es)) && After(p, Created(p), es).writes <= 3 * |p.order|
  {
    CreatedGood(p);
    RunGood(p, Created(p), es);
    assert Created(p).writes == 0;
    hide Created, Runs, After, Good, Rank;
    assert Good(p, After(p, Created(p), es));
  }

  /**
   The cap and the invariant hold after every iteration of every loop of a tick or a cancel, and not only
   between them.  An iteration writes at most one row and settles the lease of that task.
   */
  lemma EveryIteration(p: Plan, env: Env, s: Swarm, n: nat)
    requires Good(p, s) && n <= |p.order|
    ensures var s1 := Whole(Polling, p, env, s);
            var s2 := Whole(Resolving, p, env, s1);
      && Sound(p, Loop(Polling, p, env, s, n)) && RunningCount(p, Loop(Polling, p, env, s, n).rows) <= p.maxConcurrency
      && Sound(p, Loop(Resolving, p, env, s1, n)) && RunningCount(p, Loop(Resolving, p, env, s1, n).rows) <= p.maxConcurrency
      && Sound(p, Loop(Launching, p, env, s2, n)) && RunningCount(p, Loop(Launching, p, env, s2, n).rows) <= p.maxConcurrency
      && Sound(p, Loop(Cancelling, p, env, s.(aborted := true), n))
  {
    hide Loop, RowsOk, DebtOk, RunningCount, Rank, Whole;
    WholeLeads(Polling, p, env, s);
    var s1 := Whole(Polling, p, env, s);
    WholeLeads(Resolving, p, env, s1);
    var s2 := Whole(Resolving, p, env, s1);
    LoopSound(Polling, p, env, s, n);
    LoopSound(Resolving, p, env, s1, n);
    LoopSound(Launching, p, env, s2, n);
    AbortSound(p, s);
    LoopSound(Cancelling, p, env, s.(aborted := true), n);
  }

  // ---------------------------------------------------------------- leases

  ghost function Reserved(m: map<Id, nat>): nat {
    if m == map[] then 0 else
      var id :| id in m;
      m[id] + Reserved(m - {id})
  }

  lemma {:induction false} ReservedUniform(m: map<Id, nat>, cost: nat)
    requires forall id <- m :: m[id] == cost
    ensures Reserved(m) == cost * |m|
    decreases |m|
  {
    if m != map[] {
      var id :| id in m && Reserved(m) == m[id] + Reserved(m - {id});
      assert (m - {id}).Keys == m.Keys - {id};
      ReservedUniform(m - {id}, cost);
      assert cost * |m| == cost + cost * (|m| - 1);
    }
  }

  /**
   Lease conservation.  In every sound state the controller reserves exactly the cost of the held
   leases; a running or possibly running worker holds one; a lease that is not held is inactive at
   the controller and has no unreleased durable binding; and unless a durable release was refused,
   no other task holds one.
   */
  lemma LeaseConservation(p: Plan, s: Swarm)
    requires Sound(p, s)
    ensures s.debt.active == s.debt.leases && Reserved(s.debt.active) == p.cost * |s.debt.leases|
    ensures p.controller ==> forall id <- s.rows :: LaunchedNow(s.rows[id]) ==> id in s.debt.leases
    ensures forall id <- s.rows :: id !in s.debt.leases && id in s.debt.bindings ==> s.debt.bindings[id] == Released
    ensures p.controller && s.debt.refused == {} ==> s.debt.leases.Keys == set id <- s.rows | LaunchedNow(s.rows[id])
    ensures p.durable ==> forall id <- s.rows :: s.rows[id].state == Running ==> id in s.debt.bindings && s.debt.bindings[id] == Active
  {
    hide RowsOk, RunningCount;
    assert forall id <- s.rows :: SlotOk(p, s.rows[id], s.debt, id);
    assert forall id <- s.debt.leases :: id in s.rows;
    assert forall id <- s.debt.active :: id in s.rows;
    ReservedUniform(s.debt.active, p.cost);
  }

  /** A lease leaves the live map only with its task finished and its durable binding released. */
  lemma LeaseDrops(p: Plan, s: Swarm, e: Event, id: Id)
    requires Good(p, s) && Enabled(s, e) && id in s.debt.leases && id !in Next(p, s, e).debt.leases
    ensures var t := Next(p, s, e);
      && id in t.rows && Terminal(t.rows[id].state) && !LaunchedNow(t.rows[id])
      && id !in t.debt.active && (id in t.debt.bindings ==> t.debt.bindings[id] == Released)
  {
    NextGood(p, s, e);
    hide Next, RowsOk, RunningCount, Rank;
    var t := Next(p, s, e);
    assert id in s.rows && SlotOk(p, s.rows[id], s.debt, id) && id in t.rows;
    assert SlotOk(p, t.rows[id], t.debt, id);
  }
}
