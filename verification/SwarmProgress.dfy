/** The scheduler never deadlocks, idles only when its environment holds it up, and ends. */
module SwarmProgress {
  import opened Prelude
  import opened SwarmGraph
  import opened SwarmModel
  import opened SwarmSafety
  import opened SwarmRuns

  /** What validation established about the graph, `order` being its topological order. */
  ghost predicate Validated(p: Plan, order: seq<Id>) {
    && WellFormed(p) && p.order != [] && p.maxConcurrency >= 1
    && IsOrder(p.deps, order) && (forall id <- p.deps :: id in order)
    && forall id <- p.deps :: forall d <- p.deps[id] :: d in p.deps
  }

  /** The plan of a validated request. */
  function PlanOf(r: StartRequest, cost: nat, controller: bool, durable: bool): Plan
    requires EffectiveConcurrency(r).Given? && EffectiveConcurrency(r).n >= 0
  {
    Plan(Ids(r.tasks), ById(r.tasks), set t <- r.tasks :: t.id, EffectiveConcurrency(r).n, cost, controller, durable)
  }

  lemma {:induction false} DependenciesOf(tasks: seq<TaskRequest>, id: Id)
    requires id in ById(tasks)
    ensures exists t <- tasks :: t.id == id && ById(tasks)[id] == t.dependsOn
  {
    var last := tasks[|tasks| - 1];
    if last.id != id {
      DependenciesOf(tasks[..|tasks| - 1], id);
      var t :| t in tasks[..|tasks| - 1] && t.id == id && ById(tasks[..|tasks| - 1])[id] == t.dependsOn;
      assert t in tasks;
    }
  }

  /** Every request that `ValidateStart` accepts gives a plan this module's theorems apply to. */
  lemma StartableIsValidated(r: StartRequest, order: seq<Id>, cost: nat, controller: bool, durable: bool)
    requires Startable(r) && IsOrder(ById(r.tasks), order) && forall t <- r.tasks :: t.id in order
    ensures Validated(PlanOf(r, cost, controller, durable), order)
  {
    var p := PlanOf(r, cost, controller, durable);
    assert forall t <- r.tasks :: t.id in Ids(r.tasks) by {
      forall t <- r.tasks ensures t.id in Ids(r.tasks) { var i :| 0 <= i < |r.tasks| && r.tasks[i] == t; assert Ids(r.tasks)[i] == t.id; }
    }
    assert forall id <- Ids(r.tasks) :: id in p.deps;
    forall id, d | id in p.deps && d in p.deps[id] ensures d in p.deps {
      DependenciesOf(r.tasks, id);
    }
  }

  // ---------------------------------------------------------------- no deadlock

  predicate Settled(p: Plan, rows: map<Id, Row>, id: Id) {
    && id in rows && rows[id].state == Blocked && id in p.deps
    && ((exists d <- p.deps[id] :: d in rows && Unsuccessful(rows[d].state))
        || (forall d <- p.deps[id] :: d in rows && rows[d].state == Completed))
  }

  /** A task the next tick can do something about. */
  predicate Live(p: Plan, rows: map<Id, Row>, id: Id) {
    id in rows && (rows[id].state == Running || rows[id].state == Queued || Settled(p, rows, id))
  }

  /** The first blocked task of the topological order has only finished dependencies. */
  lemma {:induction false} FirstBlocked(p: Plan, order: seq<Id>, rows: map<Id, Row>, n: nat) returns (id: Id)
    requires Validated(p, order) && Tabulated(p, rows) && n <= |order|
    requires forall x <- rows :: rows[x].state != Running && rows[x].state != Queued
    requires exists x <- order[..n] :: x in rows && rows[x].state == Blocked
    ensures Settled(p, rows, id)
  {
    if exists x <- order[..n - 1] :: x in rows && rows[x].state == Blocked {
      id := FirstBlocked(p, order, rows, n - 1);
    } else {
      id := order[n - 1];
      assert order[..n] == order[..n - 1] + [id];
      assert Dependencies(p.deps, id) == p.deps[id];
      assert forall d <- p.deps[id] :: d in order[..n - 1] && d in rows && Terminal(rows[d].state);
    }
  }

  /** No deadlock: while the swarm is not terminal some task is running, queued, or ready to leave `blocked`. */
  lemma Progress(p: Plan, order: seq<Id>, s: Swarm) returns (id: Id)
    requires Validated(p, order) && Tabulated(p, s.rows) && Reported(p, s) && !TerminalSwarm(s.state)
    ensures Live(p, s.rows, id)
  {
    assert exists x <- s.rows :: !Terminal(s.rows[x].state);
    if exists x <- s.rows :: s.rows[x].state == Running || s.rows[x].state == Queued {
      id :| id in s.rows && (s.rows[id].state == Running || s.rows[id].state == Queued);
    } else {
      assert order[..|order|] == order;
      id := FirstBlocked(p, order, s.rows, |order|);
    }
  }

  // ---------------------------------------------------------------- idle ticks

  /** An iteration that writes no row changes nothing at all. */
  lemma IterationIdle(ph: Phase, p: Plan, env: Env, snap: map<Id, Row>, s: Swarm, i: nat)
    requires WellFormed(p) && Tabulated(p, snap) && Tabulated(p, s.rows) && i < |p.order|
    ensures Iterate(ph, p, env, snap, s, i).writes >= s.writes
    ensures Iterate(ph, p, env, snap, s, i).writes == s.writes ==> Iterate(ph, p, env, snap, s, i) == s
  {
    hide Release, Retain, Persist, Acquire, RunningCount;
  }

  lemma {:induction false} LoopIdle(ph: Phase, p: Plan, env: Env, s: Swarm, n: nat)
    requires WellFormed(p) && Tabulated(p, s.rows) && n <= |p.order|
    ensures Loop(ph, p, env, s, n).writes >= s.writes
    ensures Loop(ph, p, env, s, n).writes == s.writes ==>
              Loop(ph, p, env, s, n) == s && forall i :: 0 <= i < n ==> Iterate(ph, p, env, s.rows, s, i) == s
  {
    hide Iterate;
    if n > 0 {
      LoopIdle(ph, p, env, s, n - 1);
      IterationIdle(ph, p, env, s.rows, Loop(ph, p, env, s, n - 1), n - 1);
    }
  }

  /** The worker of a running task has not ended, or its status is unavailable. */
  predicate StillRuns(env: Env, row: Row, id: Id) {
    row.state == Running && (env.status(id) == Unavailable || (env.status(id).Reply? && env.status(id).state == Alive))
  }

  /** A queued task is refused capacity, or the caller's signal is aborted. */
  predicate HeldUp(p: Plan, env: Env, row: Row, i: nat)
    requires i < |p.order|
  {
    row.state == Queued && (i >= env.signalFrom || (p.controller && env.pressed(p.order[i])))
  }

  /** The environment keeps every task where it is. */
  ghost predicate Obstructed(p: Plan, env: Env, rows: map<Id, Row>)
    requires Tabulated(p, rows)
  {
    exists i :: 0 <= i < |p.order| && (StillRuns(env, rows[p.order[i]], p.order[i]) || HeldUp(p, env, rows[p.order[i]], i))
  }

  lemma IdlePoll(p: Plan, env: Env, s: Swarm, i: nat)
    requires Sound(p, s) && i < |p.order| && s.rows[p.order[i]].state == Running
    requires Iterate(Polling, p, env, s.rows, s, i) == s
    ensures StillRuns(env, s.rows[p.order[i]], p.order[i])
  {
    hide Release, Retain, DebtOk, RunningCount;
    assert RowOk(s.rows[p.order[i]]);
  }

  lemma IdleResolve(p: Plan, env: Env, s: Swarm, i: nat)
    requires WellFormed(p) && Tabulated(p, s.rows) && i < |p.order| && Iterate(Resolving, p, env, s.rows, s, i) == s
    ensures !Settled(p, s.rows, p.order[i])
  {
  }

  lemma IdleLaunch(p: Plan, env: Env, s: Swarm, i: nat)
    requires Sound(p, s) && i < |p.order| && s.rows[p.order[i]].state == Queued && !s.aborted
    requires Iterate(Launching, p, env, s.rows, s, i) == s && RunningCount(p, s.rows) < p.maxConcurrency
    ensures HeldUp(p, env, s.rows[p.order[i]], i)
  {
    hide Release, Retain, Persist, RowsOk, RunningCount, Admit;
    assert SlotOk(p, s.rows[p.order[i]], s.debt, p.order[i]);
  }

  lemma {:induction false} SomeRunning(p: Plan, rows: map<Id, Row>, ids: seq<Id>) returns (i: nat)
    requires (forall id <- ids :: id in rows) && Total(IsRunning, rows, ids) > 0
    ensures i < |ids| && rows[ids[i]].state == Running
  {
    if rows[ids[0]].state == Running { i := 0; } else { var j := SomeRunning(p, rows, ids[1..]); i := j + 1; }
  }

  /** A tick that writes nothing: the loops saw, and left, the state as it was. */
  lemma TickIdle(p: Plan, env: Env, s: Swarm)
    requires WellFormed(p) && Tabulated(p, s.rows)
    ensures Tick(p, env, s).writes >= s.writes
    ensures Tick(p, env, s).writes == s.writes ==>
              && forall i :: 0 <= i < |p.order| ==>
                   && Iterate(Polling, p, env, s.rows, s, i) == s
                   && Iterate(Resolving, p, env, s.rows, s, i) == s
                   && Iterate(Launching, p, env, s.rows, s, i) == s
  {
    hide Iterate, Loop;
    var n := |p.order|;
    LoopIdle(Polling, p, env, s, n);
    var s1 := Whole(Polling, p, env, s);
    LoopIdle(Resolving, p, env, s1, n);
    var s2 := Whole(Resolving, p, env, s1);
    LoopIdle(Launching, p, env, s2, n);
  }

  /** Liveness: a tick of a swarm that is not terminal writes a row unless its environment obstructs it. */
  lemma TickProgress(p: Plan, order: seq<Id>, env: Env, s: Swarm)
    requires Validated(p, order) && Good(p, s) && !TerminalSwarm(s.state) && !s.aborted
    ensures Tick(p, env, s).writes > s.writes || Obstructed(p, env, s.rows)
  {
    TickIdle(p, env, s);
    var id := Progress(p, order, s);
    var i := FirstIndex(p.order, id);
    hide Tick, Iterate, StillRuns, HeldUp, Settled, RowsOk, DebtOk, Validated;
    if Tick(p, env, s).writes == s.writes {
      IdleResolve(p, env, s, i);
      if s.rows[id].state == Running {
        IdlePoll(p, env, s, i);
      } else if RunningCount(p, s.rows) < p.maxConcurrency {
        IdleLaunch(p, env, s, i);
      } else {
        Capped(p, order);
        var j := SomeRunning(p, s.rows, p.order);
        IdlePoll(p, env, s, j);
      }
    }
  }

  lemma Capped(p: Plan, order: seq<Id>)
    requires Validated(p, order)
    ensures p.maxConcurrency >= 1
  {
  }

  // ---------------------------------------------------------------- termination

  /** Workers end, capacity is granted and nobody aborts. */
  predicate Free(p: Plan, e: Event) {
    && e.TickEvent? && e.env.signalFrom >= |p.order|
    && forall id <- p.order :: !e.env.pressed(id) && e.env.status(id) != Unavailable && (e.env.status(id).Reply? ==> e.env.status(id).state != Alive)
  }

  lemma FreeIsUnobstructed(p: Plan, e: Event, rows: map<Id, Row>)
    requires Tabulated(p, rows) && Free(p, e)
    ensures !Obstructed(p, e.env, rows)
  {
  }

  lemma FreeTick(p: Plan, e: Event)
    requires Free(p, e)
    ensures e.TickEvent?
  {
  }

  /** Every free tick pays with rank. */
  lemma {:induction false} FreeRun(p: Plan, order: seq<Id>, s: Swarm, es: seq<Event>)
    requires Validated(p, order) && Good(p, s) && Runs(p, s, es) && forall e <- es :: Free(p, e)
    ensures Good(p, After(p, s, es)) && |es| + Rank(p, After(p, s, es).rows) <= Rank(p, s.rows)
    decreases |es|
  {
    hide Validated, Sound, Reported, Tick, Rank, Free, Obstructed;
    if es != [] {
      GoodTabulated(p, s);
      FreeTick(p, es[0]);
      TickProgress(p, order, es[0].env, s);
      FreeIsUnobstructed(p, es[0], s.rows);
      NextGood(p, s, es[0]);
      FreeRun(p, order, Next(p, s, es[0]), es[1..]);
    }
  }

  lemma {:induction false} NoRankLeft(rows: map<Id, Row>, ids: seq<Id>)
    requires (forall id <- ids :: id in rows) && Total(Weight, rows, ids) == 0
    ensures forall id <- ids :: Terminal(rows[id].state)
  {
    if ids != [] { NoRankLeft(rows, ids[1..]); }
  }

  lemma SettledSwarm(p: Plan, s: Swarm)
    requires Good(p, s) && Rank(p, s.rows) == 0
    ensures TerminalSwarm(s.state)
  {
    hide RowsOk, DebtOk, RunningCount;
    NoRankLeft(s.rows, p.order);
    assert forall id <- s.rows :: id in p.order;
  }

  /** In a free environment a swarm of N tasks is terminal after at most 3N ticks. */
  lemma Terminates(p: Plan, order: seq<Id>, es: seq<Event>)
    requires Validated(p, order) && Runs(p, Created(p), es) && forall e <- es :: Free(p, e)
    ensures |es| < 3 * |p.order| || (|es| == 3 * |p.order| && TerminalSwarm(After(p, Created(p), es).state))
  {
    hide Runs, Free, After, Good, Rank, Created;
    CreatedGood(p);
    FreeRun(p, order, Created(p), es);
    if |es| == 3 * |p.order| { SettledSwarm(p, After(p, Created(p), es)); }
  }
}
