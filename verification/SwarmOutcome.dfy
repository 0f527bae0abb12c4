/**
 What one tick makes of every task, told from the rows and the replies before it, and from that exactly
 when a tick ends the swarm while a task is unfinished.
 */
module SwarmOutcome {
  import opened Prelude
  import opened SwarmGraph
  import opened SwarmModel
  import opened SwarmSafety
  import opened SwarmRuns

  type States = map<Id, TaskState>

  function StatesOf(rows: map<Id, Row>): (st: States)
    ensures st.Keys == rows.Keys
  {
    map id <- rows :: rows[id].state
  }

  // ---------------------------------------------------------------- a loop, row by row

  /** A loop has reached place `n`: the rows before it are in their new states, the others as they were. */
  predicate Reaches(p: Plan, snap: map<Id, Row>, rows: map<Id, Row>, after: seq<TaskState>, n: nat)
    requires Tabulated(p, snap) && Tabulated(p, rows) && |after| == |p.order|
  {
    forall j :: 0 <= j < |p.order| ==> rows[p.order[j]].state == if j < n then after[j] else snap[p.order[j]].state
  }

  predicate Only(rows: map<Id, Row>, later: map<Id, Row>, id: Id) {
    forall x <- rows :: x != id ==> x in later && later[x] == rows[x]
  }

  lemma ReachesNone(p: Plan, snap: map<Id, Row>, after: seq<TaskState>)
    requires Tabulated(p, snap) && |after| == |p.order|
    ensures Reaches(p, snap, snap, after, 0)
  {
  }

  lemma ReachesNext(p: Plan, snap: map<Id, Row>, rows: map<Id, Row>, later: map<Id, Row>, after: seq<TaskState>, n: nat)
    requires WellFormed(p) && Tabulated(p, snap) && Tabulated(p, rows) && Tabulated(p, later) && |after| == |p.order|
    requires n < |p.order| && Reaches(p, snap, rows, after, n)
    requires Only(rows, later, p.order[n]) && later[p.order[n]].state == after[n]
    ensures Reaches(p, snap, later, after, n + 1)
  {
    forall j | 0 <= j < |p.order|
      ensures later[p.order[j]].state == if j < n + 1 then after[j] else snap[p.order[j]].state
    {
      if j != n { assert p.order[j] != p.order[n]; }
    }
  }

  // ---------------------------------------------------------------- after the polls

  predicate EndedWell(status: Status) {
    status.Reply? && status.state == Exited && (status.exitCode.None? || status.exitCode.value == 0)
  }

  function Polled(env: Env, state: TaskState, id: Id): TaskState {
    if state != Running then state
    else if env.status(id).NotFound? then TerminationUnverified
    else if env.status(id).Unavailable? || env.status(id).state == Alive then Running
    else if EndedWell(env.status(id)) then Completed else Failed
  }

  function AfterPolls(env: Env, st: States): (r: States)
    ensures r.Keys == st.Keys
  {
    map id <- st :: Polled(env, st[id], id)
  }

  function PollStates(p: Plan, env: Env, rows: map<Id, Row>): (r: seq<TaskState>)
    requires forall id <- p.order :: id in rows
    ensures |r| == |p.order|
  {
    seq(|p.order|, j requires 0 <= j < |p.order| => Polled(env, rows[p.order[j]].state, p.order[j]))
  }

  lemma PollReaches(p: Plan, env: Env, snap: map<Id, Row>, s: Swarm, id: Id)
    requires id in snap && id in s.rows && s.rows[id].state == snap[id].state && RowOk(snap[id])
    ensures var r := Poll(p, env, snap, s, id).rows; Only(s.rows, r, id) && r[id].state == Polled(env, snap[id].state, id)
  {
    hide Release, Retain;
  }

  lemma PollAt(p: Plan, env: Env, s: Swarm, t: Swarm, i: nat)
    requires Tabulated(p, s.rows) && RowsOk(p, s.rows) && i < |p.order| && Tabulated(p, t.rows)
    requires Reaches(p, s.rows, t.rows, PollStates(p, env, s.rows), i)
    ensures var (id, r) := (p.order[i], Poll(p, env, s.rows, t, p.order[i]).rows);
      Only(t.rows, r, id) && r[id].state == PollStates(p, env, s.rows)[i]
  {
    hide Poll, Only;
    assert RowOk(s.rows[p.order[i]]);
    PollReaches(p, env, s.rows, t, p.order[i]);
  }

  lemma {:induction false} PollsReach(p: Plan, env: Env, s: Swarm, n: nat)
    requires WellFormed(p) && Tabulated(p, s.rows) && RowsOk(p, s.rows) && n <= |p.order|
    ensures Reaches(p, s.rows, Loop(Polling, p, env, s, n).rows, PollStates(p, env, s.rows), n)
  {
    hide Poll, Only, PollStates, Reaches, RowsOk;
    if n == 0 {
      ReachesNone(p, s.rows, PollStates(p, env, s.rows));
    } else {
      PollsReach(p, env, s, n - 1);
      var t := Loop(Polling, p, env, s, n - 1);
      PollAt(p, env, s, t, n - 1);
      ReachesNext(p, s.rows, t.rows, Poll(p, env, s.rows, t, p.order[n - 1]).rows, PollStates(p, env, s.rows), n - 1);
    }
  }

  // ---------------------------------------------------------------- after the dependencies

  predicate DepFailed(p: Plan, st: States, id: Id) {
    id in p.deps && exists d <- p.deps[id] :: d in st && Unsuccessful(st[d])
  }

  predicate DepsDone(p: Plan, st: States, id: Id) {
    id in p.deps && forall d <- p.deps[id] :: d in st && st[d] == Completed
  }

  function AfterResolving(p: Plan, st: States): (r: States)
    ensures r.Keys == st.Keys
  {
    map id <- st :: if st[id] != Blocked then st[id] else if DepFailed(p, st, id) then Failed
                    else if DepsDone(p, st, id) then Queued else Blocked
  }

  function ResolveStates(p: Plan, rows: map<Id, Row>): (r: seq<TaskState>)
    requires forall id <- p.order :: id in rows
    ensures |r| == |p.order|
  {
    seq(|p.order|, j requires 0 <= j < |p.order| => AfterResolving(p, StatesOf(rows))[p.order[j]])
  }

  lemma ResolveReaches(p: Plan, snap: map<Id, Row>, s: Swarm, id: Id)
    requires id in snap && id in s.rows && id in p.deps && s.rows[id].state == snap[id].state
    ensures var r := Resolve(p, snap, s, id).rows; Only(s.rows, r, id) && r[id].state == AfterResolving(p, StatesOf(snap))[id]
  {
    assert DepFailed(p, StatesOf(snap), id) <==> exists d <- p.deps[id] :: d in snap && Unsuccessful(snap[d].state);
    assert DepsDone(p, StatesOf(snap), id) <==> forall d <- p.deps[id] :: d in snap && snap[d].state == Completed;
  }

  lemma ResolveAt(p: Plan, s: Swarm, t: Swarm, i: nat)
    requires Tabulated(p, s.rows) && WellFormed(p) && i < |p.order| && Tabulated(p, t.rows)
    requires Reaches(p, s.rows, t.rows, ResolveStates(p, s.rows), i)
    ensures var (id, r) := (p.order[i], Resolve(p, s.rows, t, p.order[i]).rows);
      Only(t.rows, r, id) && r[id].state == ResolveStates(p, s.rows)[i]
  {
    hide Resolve, Only, AfterResolving;
    ResolveReaches(p, s.rows, t, p.order[i]);
  }

  lemma {:induction false} ResolvesReach(p: Plan, env: Env, s: Swarm, n: nat)
    requires WellFormed(p) && Tabulated(p, s.rows) && n <= |p.order|
    ensures Reaches(p, s.rows, Loop(Resolving, p, env, s, n).rows, ResolveStates(p, s.rows), n)
  {
    hide Resolve, Only, ResolveStates, Reaches;
    if n == 0 {
      ReachesNone(p, s.rows, ResolveStates(p, s.rows));
    } else {
      ResolvesReach(p, env, s, n - 1);
      var t := Loop(Resolving, p, env, s, n - 1);
      ResolveAt(p, s, t, n - 1);
      ReachesNext(p, s.rows, t.rows, Resolve(p, s.rows, t, p.order[n - 1]).rows, ResolveStates(p, s.rows), n - 1);
    }
  }

  // ---------------------------------------------------------------- after the launches

  function RunningIn(st: States, ids: seq<Id>): nat
    requires forall id <- ids :: id in st
  {
    if ids == [] then 0 else IsRunning(st[ids[0]]) + RunningIn(st, ids[1..])
  }

  lemma {:induction false} RunningAgrees(rows: map<Id, Row>, ids: seq<Id>)
    requires forall id <- ids :: id in rows
    ensures RunningIn(StatesOf(rows), ids) == Total(IsRunning, rows, ids)
  {
    if ids != [] { RunningAgrees(rows, ids[1..]); }
  }

  /** Capacity is granted, and the worker starts. */
  predicate WorkerStarts(p: Plan, env: Env, id: Id) {
    id in p.prompts && !(p.controller && env.pressed(id)) && env.run(id).Some?
  }

  /** The worker's admission is stored durably, where that is asked for. */
  predicate Recorded(p: Plan, env: Env, id: Id) { !p.durable || (p.controller && env.identity(id) && env.store(id)) }

  /** What an attempt to launch a queued task makes of it. */
  function Attempted(p: Plan, env: Env, id: Id): TaskState {
    if id !in p.prompts then TerminationUnverified
    else if p.controller && env.pressed(id) then Queued
    else if env.run(id).None? then Failed
    else if Recorded(p, env, id) then Running
    else if env.stop(id) then Failed else TerminationUnverified
  }

  /** The workers running when the launch loop reaches place `n`. */
  function Load(p: Plan, env: Env, st: States, n: nat): nat
    requires n <= |p.order| && forall id <- p.order :: id in st
    decreases n, 0
  {
    if n == 0 then RunningIn(st, p.order)
    else Load(p, env, st, n - 1) + if Tried(p, env, st, n - 1) && Attempted(p, env, p.order[n - 1]) == Running then 1 else 0
  }

  /** A queued task is reached with room for it and before the caller's signal is aborted. */
  predicate Tried(p: Plan, env: Env, st: States, i: nat)
    requires i < |p.order| && forall id <- p.order :: id in st
    decreases i, 1
  {
    st[p.order[i]] == Queued && Load(p, env, st, i) < p.maxConcurrency && i < env.signalFrom
  }

  function Launched(p: Plan, env: Env, st: States, i: nat): TaskState
    requires i < |p.order| && forall id <- p.order :: id in st
  {
    if Tried(p, env, st, i) then Attempted(p, env, p.order[i]) else st[p.order[i]]
  }

  /** What an attempt does, seen from a queued task without a debt. */
  lemma DispatchReaches(p: Plan, env: Env, snap: map<Id, Row>, s: Swarm, id: Id)
    requires id in snap && id in s.rows && id in p.prompts && !(p.controller && env.pressed(id))
    requires (p.controller <==> id in s.debt.leases) && id !in s.debt.bindings
    ensures exists row: Row :: row.state == Attempted(p, env, id) && Dispatch(p, env, snap, s, id).rows == s.rows[id := row]
  {
    hide Release, Retain;
    var row := Dispatch(p, env, snap, s, id).rows[id];
    assert row.state == Attempted(p, env, id) && Dispatch(p, env, snap, s, id).rows == s.rows[id := row];
  }

  lemma LaunchReaches(p: Plan, env: Env, snap: map<Id, Row>, s: Swarm, i: nat)
    requires WellFormed(p) && Tabulated(p, snap) && Tabulated(p, s.rows) && i < |p.order| && !s.aborted
    requires s.rows[p.order[i]] == snap[p.order[i]] && SlotOk(p, s.rows[p.order[i]], s.debt, p.order[i])
    ensures var (id, r) := (p.order[i], Launch(p, env, snap, s, i).rows);
      if snap[id].state != Queued || RunningCount(p, s.rows) >= p.maxConcurrency || i >= env.signalFrom then r == s.rows
      else exists row: Row :: row.state == Attempted(p, env, id) && r == s.rows[id := row]
  {
    hide RunningCount, Dispatch, Attempted;
    var id := p.order[i];
    if snap[id].state == Queued && !Held(p, env, s, i) {
      AttemptReaches(p, env, snap, s, i);
    }
  }

  lemma AttemptReaches(p: Plan, env: Env, snap: map<Id, Row>, s: Swarm, i: nat)
    requires WellFormed(p) && Tabulated(p, snap) && Tabulated(p, s.rows) && i < |p.order| && !Held(p, env, s, i)
    requires s.rows[p.order[i]] == snap[p.order[i]] && snap[p.order[i]].state == Queued
    requires SlotOk(p, s.rows[p.order[i]], s.debt, p.order[i])
    ensures var (id, r) := (p.order[i], Launch(p, env, snap, s, i).rows);
      exists row: Row :: row.state == Attempted(p, env, id) && r == s.rows[id := row]
  {
    hide RunningCount, Dispatch;
    var id := p.order[i];
    var r := Launch(p, env, snap, s, i).rows;
    if id !in p.prompts {
      assert r == s.rows[id := Row(TerminationUnverified, snap[id].handle)];
    } else if p.controller && env.pressed(id) {
      assert r == s.rows[id := s.rows[id]];
    } else if p.controller {
      DispatchReaches(p, env, snap, s.(debt := Admit(p, s.debt, id)), id);
    } else {
      DispatchReaches(p, env, snap, s, id);
    }
  }

  function LaunchStates(p: Plan, env: Env, rows: map<Id, Row>): (r: seq<TaskState>)
    requires forall id <- p.order :: id in rows
    ensures |r| == |p.order|
  {
    seq(|p.order|, j requires 0 <= j < |p.order| => Launched(p, env, StatesOf(rows), j))
  }

  /** The launch loop at place `n`. */
  ghost predicate LaunchedTo(p: Plan, env: Env, s: Swarm, t: Swarm, n: nat) {
    && Tabulated(p, s.rows) && Tabulated(p, t.rows) && n <= |p.order|
    && RunningCount(p, t.rows) == Load(p, env, StatesOf(s.rows), n)
    && Reaches(p, s.rows, t.rows, LaunchStates(p, env, s.rows), n)
  }

  lemma LaunchedToNext(p: Plan, env: Env, s: Swarm, t: Swarm, i: nat)
    requires Sound(p, t) && Tabulated(p, s.rows) && i < |p.order| && !t.aborted && Follows(p, s.rows, t.rows, i)
    requires LaunchedTo(p, env, s, t, i)
    ensures LaunchedTo(p, env, s, Launch(p, env, s.rows, t, i), i + 1)
  {
    hide Launch, RowsOk, DebtOk, RunningCount, Load, LaunchStates, Follows, Only, Reaches;
    OneLaunch(p, env, s.rows, t, i);
    ReachesNext(p, s.rows, t.rows, Launch(p, env, s.rows, t, i).rows, LaunchStates(p, env, s.rows), i);
  }

  lemma {:induction false} LaunchesReach(p: Plan, env: Env, s: Swarm, n: nat)
    requires Sound(p, s) && !s.aborted && n <= |p.order|
    ensures LaunchedTo(p, env, s, Loop(Launching, p, env, s, n), n)
  {
    hide Sound, Launch, LaunchedTo, Follows, Rank;
    SoundTabulated(p, s);
    if n == 0 {
      LaunchedToNone(p, env, s);
    } else {
      LaunchesReach(p, env, s, n - 1);
      LoopSound(Launching, p, env, s, n - 1);
      LaunchedToNext(p, env, s, Loop(Launching, p, env, s, n - 1), n - 1);
    }
  }

  lemma LaunchedToNone(p: Plan, env: Env, s: Swarm)
    requires Tabulated(p, s.rows)
    ensures LaunchedTo(p, env, s, s, 0)
  {
    hide RunningCount, Load, LaunchStates, Reaches;
    RunningAgreesWith(p, env, s.rows);
    ReachesNone(p, s.rows, LaunchStates(p, env, s.rows));
  }

  lemma RunningAgreesWith(p: Plan, env: Env, rows: map<Id, Row>)
    requires forall id <- p.order :: id in rows
    ensures RunningCount(p, rows) == Load(p, env, StatesOf(rows), 0)
  {
    RunningAgrees(rows, p.order);
  }

  lemma OneLaunch(p: Plan, env: Env, snap: map<Id, Row>, s: Swarm, i: nat)
    requires Sound(p, s) && Tabulated(p, snap) && Tabulated(p, s.rows) && i < |p.order| && !s.aborted && Follows(p, snap, s.rows, i)
    requires RunningCount(p, s.rows) == Load(p, env, StatesOf(snap), i)
    ensures var r := Launch(p, env, snap, s, i).rows;
      && RunningCount(p, r) == Load(p, env, StatesOf(snap), i + 1)
      && Only(s.rows, r, p.order[i]) && r[p.order[i]].state == LaunchStates(p, env, snap)[i]
  {
    hide RowsOk, RunningCount, Launch, Attempted, RunningIn;
    var id := p.order[i];
    LaunchReaches(p, env, snap, s, i);
    var row := Launch(p, env, snap, s, i).rows[id];
    if Tried(p, env, StatesOf(snap), i) {
      assert Launch(p, env, snap, s, i).rows == s.rows[id := row] && row.state == Attempted(p, env, id);
      WriteCounts(p, s.rows, id, row);
    }
  }

  // ---------------------------------------------------------------- the whole tick

  /** Each task's state when the launch loop begins. */
  function BeforeLaunches(p: Plan, env: Env, rows: map<Id, Row>): (st: States)
    ensures st.Keys == rows.Keys
  {
    AfterResolving(p, AfterPolls(env, StatesOf(rows)))
  }

  /** A tick gives each task the state told from the rows and replies before it. */
  lemma TickReaches(p: Plan, env: Env, s: Swarm)
    requires Sound(p, s) && !s.aborted
    ensures forall j :: 0 <= j < |p.order| ==>
      Tick(p, env, s).rows[p.order[j]].state == Launched(p, env, BeforeLaunches(p, env, s.rows), j)
  {
    hide Loop, AfterPolls, AfterResolving, Launched, Tabulated;
    SoundTabulated(p, s);
    var n := |p.order|;
    var s1 := Whole(Polling, p, env, s);
    AfterPollsAre(p, env, s);
    WholeLeads(Polling, p, env, s);
    LeadsSound(p, s, s1);
    var s2 := Whole(Resolving, p, env, s1);
    AfterResolvingAre(p, env, s1);
    WholeLeads(Resolving, p, env, s1);
    LeadsSound(p, s1, s2);
    hide Sound;
    LaunchesReach(p, env, s2, n);
  }

  lemma AfterPollsAre(p: Plan, env: Env, s: Swarm)
    requires Sound(p, s)
    ensures StatesOf(Whole(Polling, p, env, s).rows) == AfterPolls(env, StatesOf(s.rows))
  {
    hide Loop, DebtOk, RunningCount;
    PollsReach(p, env, s, |p.order|);
    var r := Whole(Polling, p, env, s).rows;
    assert r.Keys == s.rows.Keys;
    forall id <- r ensures r[id].state == Polled(env, s.rows[id].state, id) { assert id in p.order; }
  }

  lemma AfterResolvingAre(p: Plan, env: Env, s: Swarm)
    requires Sound(p, s)
    ensures StatesOf(Whole(Resolving, p, env, s).rows) == AfterResolving(p, StatesOf(s.rows))
  {
    hide Loop, DebtOk, RowsOk, RunningCount;
    ResolvesReach(p, env, s, |p.order|);
    var r := Whole(Resolving, p, env, s).rows;
    assert r.Keys == s.rows.Keys;
    forall id <- r ensures r[id].state == AfterResolving(p, StatesOf(s.rows))[id] { assert id in p.order; }
  }

  // ---------------------------------------------------------------- who ends how

  /** The task is queued, or becomes so in this tick, and the launch loop gets to it. */
  predicate Comes(p: Plan, env: Env, rows: map<Id, Row>, i: nat)
    requires i < |p.order| && forall id <- p.order :: id in rows
  {
    && Ready(p, env, rows, p.order[i]) && i < env.signalFrom
    && Load(p, env, BeforeLaunches(p, env, rows), i) < p.maxConcurrency
  }

  predicate Waiting(env: Env, row: Row, id: Id) { row.state == Running && (env.status(id).Unavailable? || (env.status(id).Reply? && env.status(id).state == Alive)) }

  /** A dependency that is, or is found in this tick to be, completed; unsuccessful. */
  predicate Done(env: Env, row: Row, id: Id) { row.state == Completed || (row.state == Running && EndedWell(env.status(id))) }

  predicate Bad(env: Env, row: Row, id: Id) {
    || Unsuccessful(row.state)
    || (row.state == Running && !EndedWell(env.status(id)) && !Waiting(env, row, id))
  }

  predicate Ready(p: Plan, env: Env, rows: map<Id, Row>, id: Id) {
    && id in rows
    && (|| rows[id].state == Queued
        || (&& rows[id].state == Blocked && id in p.deps
            && (forall d <- p.deps[id] :: d in rows && Done(env, rows[d], d))))
  }

  predicate StaysBlocked(p: Plan, env: Env, rows: map<Id, Row>, id: Id) {
    && id in rows && rows[id].state == Blocked && id in p.deps
    && (forall d <- p.deps[id] :: d in rows ==> !Bad(env, rows[d], d))
    && exists d <- p.deps[id] :: d !in rows || !Done(env, rows[d], d)
  }

  /** The handle of its worker is lost, its prompt is lost, or its worker was neither recorded nor stopped. */
  predicate EndsUnverified(p: Plan, env: Env, rows: map<Id, Row>, i: nat)
    requires i < |p.order| && forall id <- p.order :: id in rows
  {
    var id := p.order[i];
    || rows[id].state == TerminationUnverified
    || (rows[id].state == Running && env.status(id).NotFound?)
    || (Comes(p, env, rows, i) && (id !in p.prompts || (WorkerStarts(p, env, id) && !Recorded(p, env, id) && !env.stop(id))))
  }

  /** Its worker runs on, its dependencies are pending, it has to wait, or it has just been launched. */
  predicate EndsUnfinished(p: Plan, env: Env, rows: map<Id, Row>, i: nat)
    requires i < |p.order| && forall id <- p.order :: id in rows
  {
    var id := p.order[i];
    || Waiting(env, rows[id], id)
    || StaysBlocked(p, env, rows, id)
    || (Ready(p, env, rows, id) && !Comes(p, env, rows, i))
    || (Comes(p, env, rows, i) && id in p.prompts
        && ((p.controller && env.pressed(id)) || (WorkerStarts(p, env, id) && Recorded(p, env, id))))
  }

  lemma QueuedMeansReady(p: Plan, env: Env, rows: map<Id, Row>, id: Id)
    requires id in rows && id in p.deps
    ensures var st := BeforeLaunches(p, env, rows)[id];
      && (st == Queued <==> Ready(p, env, rows, id))
      && (st == Running <==> Waiting(env, rows[id], id))
      && (st == Blocked <==> StaysBlocked(p, env, rows, id))
      && (st == TerminationUnverified <==>
            rows[id].state == TerminationUnverified || (rows[id].state == Running && env.status(id).NotFound?))
  {
    var st := AfterPolls(env, StatesOf(rows));
    assert forall d <- rows :: (st[d] == Completed <==> Done(env, rows[d], d)) && (Unsuccessful(st[d]) <==> Bad(env, rows[d], d));
    assert DepFailed(p, st, id) <==> exists d <- p.deps[id] :: d in rows && Bad(env, rows[d], d);
    assert DepsDone(p, st, id) <==> forall d <- p.deps[id] :: d in rows && Done(env, rows[d], d);
    hide AfterPolls, EndedWell, Waiting, Done, Bad;
  }

  lemma EndsAs(p: Plan, env: Env, rows: map<Id, Row>, i: nat)
    requires WellFormed(p) && Tabulated(p, rows) && i < |p.order|
    ensures var state := Launched(p, env, BeforeLaunches(p, env, rows), i);
      && (state == TerminationUnverified <==> EndsUnverified(p, env, rows, i))
      && (!Terminal(state) <==> EndsUnfinished(p, env, rows, i))
  {
    QueuedMeansReady(p, env, rows, p.order[i]);
    hide BeforeLaunches, Ready, StaysBlocked, Waiting, Load, Recorded;
  }

  // ---------------------------------------------------------------- a swarm that ends too early

  /** The swarm is over, yet a task is not. */
  predicate LeavesUnfinished(s: Swarm) { TerminalSwarm(s.state) && exists id <- s.rows :: !Terminal(s.rows[id].state) }

  /** ... exactly when one task's end is unverified and another has not ended. */
  lemma LeavesUnfinishedExactlyWhen(p: Plan, s: Swarm)
    requires Good(p, s)
    ensures LeavesUnfinished(s) <==>
      (exists id <- s.rows :: s.rows[id].state == TerminationUnverified) && (exists id <- s.rows :: !Terminal(s.rows[id].state))
  {
    hide Sound;
    if id :| id in s.rows && !Terminal(s.rows[id].state) {
      assert s.rows[id].state != Cancelled;
    }
  }

  /** Told from before the tick: one task loses its worker while another is not done. */
  ghost predicate LosesTrack(p: Plan, env: Env, rows: map<Id, Row>)
    requires forall id <- p.order :: id in rows
  {
    && (exists i :: 0 <= i < |p.order| && EndsUnverified(p, env, rows, i))
    && (exists i :: 0 <= i < |p.order| && EndsUnfinished(p, env, rows, i))
  }

  /** Exactly when a tick ends the swarm while a task is unfinished. */
  lemma TickLeavesUnfinishedExactlyWhen(p: Plan, env: Env, s: Swarm)
    requires Good(p, s) && !s.aborted
    ensures LeavesUnfinished(Tick(p, env, s)) <==> LosesTrack(p, env, s.rows)
  {
    hide Sound, Tick, Launched, EndsUnverified, EndsUnfinished, Summary, Leads;
    SoundTabulated(p, s);
    TickGood(p, env, s);
    var t := Tick(p, env, s);
    LeavesUnfinishedExactlyWhen(p, t);
    TickReaches(p, env, s);
    forall i | 0 <= i < |p.order|
      ensures t.rows[p.order[i]].state == TerminationUnverified <==> EndsUnverified(p, env, s.rows, i)
      ensures !Terminal(t.rows[p.order[i]].state) <==> EndsUnfinished(p, env, s.rows, i)
    {
      EndsAs(p, env, s.rows, i);
    }
    ByPlace(p, t.rows);
  }

  /** Every row has its place. */
  lemma ByPlace(p: Plan, rows: map<Id, Row>)
    requires WellFormed(p) && Tabulated(p, rows)
    ensures (exists id <- rows :: rows[id].state == TerminationUnverified) <==>
            exists i :: 0 <= i < |p.order| && rows[p.order[i]].state == TerminationUnverified
    ensures (exists id <- rows :: !Terminal(rows[id].state)) <==> exists i :: 0 <= i < |p.order| && !Terminal(rows[p.order[i]].state)
  {
    forall id <- rows ensures exists i :: 0 <= i < |p.order| && p.order[i] == id { assert id in p.order; }
  }

  ghost predicate SomeTickLoses(p: Plan, s: Swarm, es: seq<Event>)
    requires WellFormed(p) && Tabulated(p, s.rows)
    decreases |es|
  {
    es != [] && ((es[0].TickEvent? && LosesTrack(p, es[0].env, s.rows)) || SomeTickLoses(p, Next(p, s, es[0]), es[1..]))
  }

  /** Exactly when a run ends with a terminal swarm and an unfinished task: in one of its ticks that happened. */
  lemma {:induction false} RunLeavesUnfinishedExactlyWhen(p: Plan, s: Swarm, es: seq<Event>)
    requires Good(p, s) && Runs(p, s, es)
    ensures Good(p, After(p, s, es)) && (LeavesUnfinished(After(p, s, es)) <==> LeavesUnfinished(s) || SomeTickLoses(p, s, es))
    decreases |es|
  {
    hide Good, Tick, Cancel, LosesTrack, LeavesUnfinished, Leads;
    GoodTabulated(p, s);
    if es != [] {
      var t := Next(p, s, es[0]);
      NextGood(p, s, es[0]);
      RunLeavesUnfinishedExactlyWhen(p, t, es[1..]);
      match es[0]
      case TickEvent(env) =>
        TickLeavesUnfinishedExactlyWhen(p, env, s);
        NotTerminal(s);
      case CancelEvent(env, again) => CancelLeaves(p, env, again, s);
    }
  }

  lemma NotTerminal(s: Swarm)
    requires !TerminalSwarm(s.state)
    ensures !LeavesUnfinished(s)
  {
  }

  lemma CancelLeaves(p: Plan, env: Env, again: Id -> bool, s: Swarm)
    requires Good(p, s) && Tabulated(p, s.rows) && WellFormed(p)
    ensures LeavesUnfinished(Cancel(p, env, again, s)) <==> LeavesUnfinished(s)
  {
    hide Sound, Leads, Reported;
    CancelGood(p, env, again, s);
    hide Whole, ReleaseAll;
  }
}
