/**
 A terminal swarm is never ticked or cancelled again.  For every terminal state but one that is
 harmless; a swarm that became `termination_unverified` during a tick may leave a sibling running.
 */
module SwarmOrphans {
  import opened Prelude
  import opened SwarmGraph
  import opened SwarmModel
  import opened SwarmSafety
  import opened SwarmRuns
  import opened SwarmProgress

  /** Terminal swarms are frozen: no run from one changes anything. */
  lemma {:induction false} Frozen(p: Plan, s: Swarm, es: seq<Event>)
    requires WellFormed(p) && Tabulated(p, s.rows) && TerminalSwarm(s.state) && Runs(p, s, es)
    ensures After(p, s, es) == s
    decreases |es|
  {
    hide Tick, Loop;
    if es != [] {
      assert es[0].CancelEvent? && Next(p, s, es[0]) == s;
      Frozen(p, s, es[1..]);
    }
  }

  /** The swarm is over, yet a worker runs under a held lease. */
  predicate Orphaned(s: Swarm, id: Id) {
    TerminalSwarm(s.state) && id in s.rows && s.rows[id].state == Running && id in s.debt.leases
  }

  /** ... and no tick or cancel will ever end it. */
  lemma OrphanedForever(p: Plan, s: Swarm, es: seq<Event>, id: Id)
    requires WellFormed(p) && Tabulated(p, s.rows) && Orphaned(s, id) && Runs(p, s, es)
    ensures Orphaned(After(p, s, es), id)
  {
    Frozen(p, s, es);
  }

  // ---------------------------------------------------------------- the exception occurs

  /** Two independent tasks and room for both. */
  function TwoTasks(a: Id, b: Id): Plan { Plan([a, b], map[a := [], b := []], {a, b}, 2, 8, true, true) }

  function Replies(lost: Option<Id>): Env {
    Env(id => if lost == Some(id) then NotFound else Reply(Alive, None), _ => false, _ => Some(1), _ => true, _ => true,
        _ => true, _ => true, _ => true, 2)
  }

  function BothRunning(a: Id, b: Id): map<Id, Row> { map[a := Row(Running, Some(1)), b := Row(Running, Some(1))] }

  lemma TwoTasksValidated(a: Id, b: Id)
    requires a != b
    ensures Validated(TwoTasks(a, b), [a, b])
  {
    var p := TwoTasks(a, b);
    assert p.order[0] == a && p.order[1] == b;
    assert a in p.order && b in p.order;
    assert [a, b][..1] == [a];
  }

  lemma TwoIterations(ph: Phase, p: Plan, env: Env, s: Swarm)
    requires WellFormed(p) && Tabulated(p, s.rows) && |p.order| == 2
    ensures Whole(ph, p, env, s) == Iterate(ph, p, env, s.rows, Iterate(ph, p, env, s.rows, s, 0), 1)
  {
    hide Iterate;
    assert Loop(ph, p, env, s, 0) == s;
    assert Loop(ph, p, env, s, 1) == Iterate(ph, p, env, s.rows, s, 0);
  }

  lemma TwoTotals(p: Plan, a: Id, b: Id, rows: map<Id, Row>)
    requires p == TwoTasks(a, b) && Tabulated(p, rows)
    ensures a in rows && b in rows && RunningCount(p, rows) == IsRunning(rows[a].state) + IsRunning(rows[b].state)
  {
    assert p.order[0] == a && p.order[1..] == [b];
    assert [b][1..] == [];
    assert Total(IsRunning, rows, [b]) == IsRunning(rows[b].state);
  }

  /** A launch on which every port agrees. */
  lemma LaunchSucceeds(p: Plan, snap: map<Id, Row>, s: Swarm, i: nat)
    requires i < 2 && |p.order| == 2 && (forall id <- p.order :: id in s.rows) && p.order[i] in snap && snap[p.order[i]].state == Queued
    requires RunningCount(p, s.rows) < p.maxConcurrency && !s.aborted && p.order[i] in p.prompts && p.controller && p.durable
    requires p.order[i] !in s.debt.leases && p.order[i] !in s.debt.active && p.order[i] !in s.debt.bindings
    ensures var id, t := p.order[i], Launch(p, Replies(None), snap, s, i);
      && t.rows == s.rows[id := Row(Running, Some(1))] && t.state == s.state && t.aborted == s.aborted
      && t.debt == Debt(s.debt.leases[id := p.cost], s.debt.active[id := p.cost], s.debt.bindings[id := Active], s.debt.refused)
  {
    hide RunningCount;
  }

  lemma FirstLaunches(a: Id, b: Id, s0: Swarm) returns (s: Swarm)
    requires a != b && WellFormed(TwoTasks(a, b)) && s0 == Created(TwoTasks(a, b))
    ensures Whole(Launching, TwoTasks(a, b), Replies(None), s0) == s
    ensures s.rows == BothRunning(a, b) && s.debt.leases == map[a := 8, b := 8] && !s.aborted
  {
    hide Launch, RunningCount, WellFormed;
    var p, env := TwoTasks(a, b), Replies(None);
    assert p.order[0] == a && p.order[1] == b;
    TwoIterations(Launching, p, env, s0);
    TwoTotals(p, a, b, s0.rows);
    LaunchSucceeds(p, s0.rows, s0, 0);
    var s1 := Launch(p, env, s0.rows, s0, 0);
    TwoTotals(p, a, b, s1.rows);
    LaunchSucceeds(p, s0.rows, s1, 1);
    s := Whole(Launching, p, env, s0);
    assert s.rows == BothRunning(a, b);
  }

  lemma FirstPhases(a: Id, b: Id, s0: Swarm)
    requires a != b && WellFormed(TwoTasks(a, b)) && s0 == Created(TwoTasks(a, b))
    ensures Whole(Polling, TwoTasks(a, b), Replies(None), s0) == s0 && Whole(Resolving, TwoTasks(a, b), Replies(None), s0) == s0
  {
    hide RunningCount, WellFormed;
    var p, env := TwoTasks(a, b), Replies(None);
    assert p.order[0] == a && p.order[1] == b;
    TwoIterations(Polling, p, env, s0);
    TwoIterations(Resolving, p, env, s0);
  }

  /** The first tick launches both tasks. */
  lemma FirstTick(a: Id, b: Id) returns (s: Swarm)
    requires a != b && Validated(TwoTasks(a, b), [a, b])
    ensures Tick(TwoTasks(a, b), Replies(None), Created(TwoTasks(a, b))) == s
    ensures s.rows == BothRunning(a, b) && s.debt.leases == map[a := 8, b := 8] && s.state == SwarmRunning && !s.aborted
  {
    hide Whole, Created, Replies, TwoTasks, BothRunning, Validated, Summary, WellFormed, Tabulated;
    Wellness(TwoTasks(a, b), [a, b]);
    var s0 := Created(TwoTasks(a, b));
    FirstPhases(a, b, s0);
    var s1 := FirstLaunches(a, b, s0);
    s := Tick(TwoTasks(a, b), Replies(None), s0);
    SummaryRunning(a, b);
  }

  lemma Wellness(p: Plan, order: seq<Id>)
    requires Validated(p, order)
    ensures WellFormed(p) && Tabulated(p, Created(p).rows)
  {
  }

  lemma SummaryRunning(a: Id, b: Id)
    ensures Summary(BothRunning(a, b)) == SwarmRunning
  {
    assert a in BothRunning(a, b);
  }

  lemma PollLoses(p: Plan, snap: map<Id, Row>, s: Swarm, id: Id)
    requires id in snap && id in s.rows && snap[id] == Row(Running, Some(1))
    ensures var t := Poll(p, Replies(Some(id)), snap, s, id);
      t.rows == s.rows[id := Row(TerminationUnverified, Some(1))] && t.debt.leases == s.debt.leases
  {
  }

  lemma PollFindsAlive(p: Plan, snap: map<Id, Row>, s: Swarm, id: Id, lost: Id)
    requires id in snap && id in s.rows && id != lost
    ensures Poll(p, Replies(Some(lost)), snap, s, id) == s
  {
  }

  lemma SecondPoll(a: Id, b: Id, s0: Swarm) returns (s: Swarm)
    requires a != b && WellFormed(TwoTasks(a, b)) && Tabulated(TwoTasks(a, b), s0.rows)
    requires s0.rows == BothRunning(a, b) && s0.debt.leases == map[a := 8, b := 8]
    ensures Whole(Polling, TwoTasks(a, b), Replies(Some(a)), s0) == s && s.debt.leases == s0.debt.leases
    ensures s.rows == map[a := Row(TerminationUnverified, Some(1)), b := Row(Running, Some(1))]
  {
    hide RunningCount, Summary, Poll, Replies;
    var p, env := TwoTasks(a, b), Replies(Some(a));
    assert p.order[0] == a && p.order[1] == b;
    TwoIterations(Polling, p, env, s0);
    PollLoses(p, s0.rows, s0, a);
    PollFindsAlive(p, s0.rows, Poll(p, env, s0.rows, s0, a), b, a);
    s := Whole(Polling, p, env, s0);
  }

  lemma NothingToDo(ph: Phase, p: Plan, env: Env, s: Swarm)
    requires WellFormed(p) && Tabulated(p, s.rows) && |p.order| == 2 && (ph.Resolving? || ph.Launching?)
    requires forall id <- s.rows :: s.rows[id].state != Blocked && s.rows[id].state != Queued
    ensures Whole(ph, p, env, s) == s
  {
    hide RunningCount;
    TwoIterations(ph, p, env, s);
  }

  /** The second tick loses the handle of one worker and sees the other alive. */
  lemma SecondTick(a: Id, b: Id, s0: Swarm) returns (s: Swarm)
    requires a != b && WellFormed(TwoTasks(a, b)) && Tabulated(TwoTasks(a, b), s0.rows)
    requires s0.rows == BothRunning(a, b) && s0.debt.leases == map[a := 8, b := 8]
    ensures Tick(TwoTasks(a, b), Replies(Some(a)), s0) == s
    ensures b in s.rows && s.rows[b].state == Running && b in s.debt.leases && s.state == SwarmUnverified
  {
    hide RunningCount, Summary, Whole, Replies, WellFormed, Tabulated;
    var p, env := TwoTasks(a, b), Replies(Some(a));
    var s1 := SecondPoll(a, b, s0);
    NothingToDo(Resolving, p, env, s1);
    NothingToDo(Launching, p, env, s1);
    s := Tick(p, env, s0);
    SummaryUnverified(s.rows, a);
  }

  lemma SummaryUnverified(rows: map<Id, Row>, id: Id)
    requires id in rows && rows[id].state == TerminationUnverified
    ensures Summary(rows) == SwarmUnverified
  {
  }

  lemma OrphaningRun(p: Plan, a: Id, b: Id) returns (es: seq<Event>)
    requires a != b && p == TwoTasks(a, b) && Validated(p, [a, b]) && WellFormed(p) && Tabulated(p, Created(p).rows)
    ensures Runs(p, Created(p), es) && Orphaned(After(p, Created(p), es), b)
  {
    hide Tick, Created, TwoTasks, Replies, BothRunning, WellFormed, Tabulated, Runs, After, Validated;
    var s1 := FirstTick(a, b);
    var s2 := SecondTick(a, b, s1);
    CreatedFacts(p);
    es := TwoTicks(p, Created(p), Replies(None), Replies(Some(a)));
  }

  /** There is a validated swarm and a run after which a worker is orphaned. */
  lemma WorkerCanBeOrphaned(a: Id, b: Id)
    requires a != b
    ensures exists p: Plan, order: seq<Id>, es: seq<Event> ::
      Validated(p, order) && Runs(p, Created(p), es) && Orphaned(After(p, Created(p), es), b)
  {
    TwoTasksValidated(a, b);
    Wellness(TwoTasks(a, b), [a, b]);
    var es := OrphaningRun(TwoTasks(a, b), a, b);
    hide TwoTasks, Created, Validated, Runs, After, Orphaned, WellFormed, Tabulated;
    assert Validated(TwoTasks(a, b), [a, b]) && Runs(TwoTasks(a, b), Created(TwoTasks(a, b)), es);
  }

  lemma CreatedFacts(p: Plan)
    requires WellFormed(p)
    ensures Created(p).state == SwarmQueued && !Created(p).aborted
  {
  }

  lemma TwoTicks(p: Plan, s: Swarm, env: Env, later: Env) returns (es: seq<Event>)
    requires WellFormed(p) && Tabulated(p, s.rows)
    requires !TerminalSwarm(s.state) && !s.aborted
    requires !TerminalSwarm(Tick(p, env, s).state) && !Tick(p, env, s).aborted
    ensures Runs(p, s, es) && After(p, s, es) == Tick(p, later, Tick(p, env, s))
  {
    hide Tick;
    var e, f := TickEvent(env), TickEvent(later);
    es := [e, f];
    var t := Next(p, s, e);
    assert es[1..] == [f] && [f][1..] == [];
    assert After(p, t, [f]) == Next(p, t, f);
    assert Runs(p, t, [f]);
  }
}
