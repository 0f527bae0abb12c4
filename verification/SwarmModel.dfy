/**
 The swarm scheduler as a deterministic function of its ports' replies.

 `Poll`, `Resolve` and `Launch` are what one iteration of the three loops of a tick does to one
 task; each of them updates at most one task row.  The answers of the Codex runtime, the resource
 controller and the durable bindings come from an `Env`; every possible answer is allowed.
 */
module SwarmModel {
  import opened Prelude
  import opened SwarmGraph

  datatype TaskState = Blocked | Queued | Running | Completed | Failed | Cancelled | TerminationUnverified

  datatype SwarmState = SwarmQueued | SwarmRunning | SwarmCompleted | SwarmFailed | SwarmCancelled | SwarmUnverified

  /** A task row of the repository; `handle` is codexTaskId. */
  datatype Row = Row(state: TaskState, handle: Option<nat>)

  datatype Binding = Active | Unverified | Released

  /** Resource admission: the leases of the live swarm, the controller's view, the durable bindings. */
  datatype Debt = Debt(
    leases: map<Id, nat>,            // resourceLeases: task id -> cost of its lease
    active: map<Id, nat>,            // the controller's active operations of this swarm
    bindings: map<Id, Binding>,
    refused: set<Id>                 // history: tasks for which markReleased failed
  )

  /** What does not change after the swarm was created. */
  datatype Plan = Plan(
    order: seq<Id>,                  // task ids in row order
    deps: map<Id, seq<Id>>,
    prompts: set<Id>,                // tasks whose ephemeral prompt is still known
    maxConcurrency: nat,
    cost: nat,
    controller: bool,                // is a resource admission controller configured?
    durable: bool                    // is a binding repository configured?
  )

  datatype Swarm = Swarm(
    rows: map<Id, Row>,
    debt: Debt,
    aborted: bool,
    state: SwarmState,
    writes: nat                      // history: calls of updateTask
  )

  // ---------------------------------------------------------------- ports

  datatype ProcessState = Exited | ProcessFailed | Stopped | TimedOut | Alive

  datatype Status = Reply(state: ProcessState, exitCode: Option<int>) | NotFound | Unavailable

  datatype Env = Env(
    status: Id -> Status,
    pressed: Id -> bool,             // tryAcquire is refused for lack of capacity
    run: Id -> Option<nat>,          // the handle of the launched worker, or None if the launch failed
    identity: Id -> bool,            // recoveryIdentityForGoal exists and succeeds
    store: Id -> bool,               // storeActive does not throw
    stop: Id -> bool,                // codex.stop succeeds
    markReleased: Id -> bool,        // the call does not throw
    markUnverified: Id -> bool,
    signalFrom: nat                  // the caller's signal is aborted from this launch position on
  )

  // ---------------------------------------------------------------- vocabulary

  predicate Terminal(s: TaskState) { s == Completed || s == Failed || s == Cancelled || s == TerminationUnverified }

  predicate Unsuccessful(s: TaskState) { s == Failed || s == Cancelled || s == TerminationUnverified }

  predicate TerminalSwarm(s: SwarmState) { s == SwarmCompleted || s == SwarmFailed || s == SwarmCancelled || s == SwarmUnverified }

  predicate TerminalProcess(s: ProcessState) { s != Alive }

  function Weight(s: TaskState): nat {
    match s
    case Blocked => 3
    case Queued => 2
    case Running => 1
    case _ => 0
  }

  function IsRunning(s: TaskState): nat { if s == Running then 1 else 0 }

  predicate WellFormed(p: Plan) { Distinct(p.order) && p.deps.Keys == set id <- p.order :: id }

  predicate Tabulated(p: Plan, rows: map<Id, Row>) { rows.Keys == p.deps.Keys && forall id <- p.order :: id in rows }

  function Total(w: TaskState -> nat, rows: map<Id, Row>, ids: seq<Id>): nat
    requires forall id <- ids :: id in rows
  {
    if ids == [] then 0 else w(rows[ids[0]].state) + Total(w, rows, ids[1..])
  }

  function RunningCount(p: Plan, rows: map<Id, Row>): nat
    requires forall id <- p.order :: id in rows
  {
    Total(IsRunning, rows, p.order)
  }

  function Rank(p: Plan, rows: map<Id, Row>): nat
    requires forall id <- p.order :: id in rows
  {
    Total(Weight, rows, p.order)
  }

  // ---------------------------------------------------------------- writes and leases

  function Write(s: Swarm, id: Id, row: Row): Swarm { s.(rows := s.rows[id := row], writes := s.writes + 1) }

  /** releaseTaskAdmission: durable ownership first, then the controller, then the lease. */
  function Release(p: Plan, marked: bool, d: Debt, id: Id): Debt {
    if !p.controller || id !in d.leases then d
    else if p.durable && !marked then d.(refused := d.refused + {id})
    else
      var d1 := if p.durable && id in d.bindings then d.(bindings := d.bindings[id := Released]) else d;
      if id in d.active && d.active[id] == d.leases[id] then d1.(active := d1.active - {id}, leases := d1.leases - {id}) else d1
  }

  /** retainTaskAdmissionAsUnverified. */
  function Retain(p: Plan, marked: bool, d: Debt, id: Id): Debt {
    if id in d.leases && p.durable && marked && id in d.bindings && d.bindings[id] != Released
    then d.(bindings := d.bindings[id := Unverified]) else d
  }

  datatype Admission = Admitted | Pressure | Invalid

  /** tryAcquire, for an operation of this swarm. */
  function Acquire(pressed: bool, d: Debt, id: Id): Admission {
    if id in d.active then Invalid else if pressed then Pressure else Admitted
  }

  function Admit(p: Plan, d: Debt, id: Id): Debt { d.(active := d.active[id := p.cost], leases := d.leases[id := p.cost]) }

  /** persistTaskAdmission: the debt afterwards, and whether the admission is durable. */
  function Persist(p: Plan, env: Env, d: Debt, id: Id): (Debt, bool) {
    if !p.durable then (d, true)
    else if id !in d.leases || !env.identity(id) || !env.store(id) then (d, false)
    else if id !in d.bindings then (d.(bindings := d.bindings[id := Active]), true)
    else (d, d.bindings[id] != Released)
  }

  // ---------------------------------------------------------------- one loop iteration each

  function Poll(p: Plan, env: Env, snap: map<Id, Row>, s: Swarm, id: Id): (t: Swarm)
    requires id in snap && id in s.rows
    ensures t.rows.Keys == s.rows.Keys
  {
    if snap[id].state != Running || snap[id].handle.None? then s else
      match env.status(id)
      case NotFound =>
        Write(s.(debt := Retain(p, env.markUnverified(id), s.debt, id)), id, Row(TerminationUnverified, snap[id].handle))
      case Unavailable => s
      case Reply(state, code) =>
        if !TerminalProcess(state) then s else
          var success := state == Exited && (code.None? || code.value == 0);
          var s1 := Write(s, id, Row(if success then Completed else Failed, snap[id].handle));
          s1.(debt := Release(p, env.markReleased(id), s1.debt, id))
  }

  function Resolve(p: Plan, snap: map<Id, Row>, s: Swarm, id: Id): (t: Swarm)
    requires id in snap && id in p.deps && id in s.rows
    ensures t.rows.Keys == s.rows.Keys
  {
    if snap[id].state != Blocked then s
    else if exists d <- p.deps[id] :: d in snap && Unsuccessful(snap[d].state) then Write(s, id, Row(Failed, snap[id].handle))
    else if forall d <- p.deps[id] :: d in snap && snap[d].state == Completed then Write(s, id, Row(Queued, snap[id].handle))
    else s
  }

  /** The part of a launch that follows a successful admission. */
  function Dispatch(p: Plan, env: Env, snap: map<Id, Row>, s: Swarm, id: Id): (t: Swarm)
    requires id in snap && id in s.rows
    ensures t.rows.Keys == s.rows.Keys
  {
    match env.run(id)
    case None => Write(s.(debt := Release(p, env.markReleased(id), s.debt, id)), id, Row(Failed, snap[id].handle))
    case Some(handle) =>
      var (d, durable) := Persist(p, env, s.debt, id);
      if durable then Write(s.(debt := d), id, Row(Running, Some(handle)))
      else if env.stop(id)
      then Write(s.(debt := Release(p, env.markReleased(id), d, id)), id, Row(Failed, snap[id].handle))
      else Write(s.(debt := Retain(p, env.markUnverified(id), d, id)), id, Row(TerminationUnverified, Some(handle)))
  }

  predicate Held(p: Plan, env: Env, s: Swarm, i: nat)
    requires forall id <- p.order :: id in s.rows
  {
    RunningCount(p, s.rows) >= p.maxConcurrency || i >= env.signalFrom || s.aborted
  }

  function Launch(p: Plan, env: Env, snap: map<Id, Row>, s: Swarm, i: nat): (t: Swarm)
    requires i < |p.order| && p.order[i] in snap && forall id <- p.order :: id in s.rows
    ensures t.rows.Keys == s.rows.Keys
  {
    var id := p.order[i];
    if snap[id].state != Queued || Held(p, env, s, i) then s
    else if id !in p.prompts then Write(s, id, Row(TerminationUnverified, snap[id].handle))
    else if !p.controller || id in s.debt.leases then Dispatch(p, env, snap, s, id)
    else match Acquire(env.pressed(id), s.debt, id)
      case Pressure => s
      case Invalid => Write(s, id, Row(Failed, snap[id].handle))
      case Admitted => Dispatch(p, env, snap, s.(debt := Admit(p, s.debt, id)), id)
  }

  function CancelOne(p: Plan, env: Env, snap: map<Id, Row>, s: Swarm, id: Id): (t: Swarm)
    requires id in snap && id in s.rows
    ensures t.rows.Keys == s.rows.Keys
  {
    if snap[id].state == Queued || snap[id].state == Blocked
    then Write(s.(debt := Release(p, env.markReleased(id), s.debt, id)), id, Row(Cancelled, snap[id].handle))
    else if snap[id].state != Running || snap[id].handle.None? then s
    else if env.stop(id) then Write(s.(debt := Release(p, env.markReleased(id), s.debt, id)), id, Row(Cancelled, snap[id].handle))
    else Write(s.(debt := Retain(p, env.markUnverified(id), s.debt, id)), id, Row(TerminationUnverified, snap[id].handle))
  }

  // ---------------------------------------------------------------- the loops

  datatype Phase = Polling | Resolving | Launching | Cancelling

  /** One iteration of the loop of a phase, on the task in place `i`. */
  function Iterate(ph: Phase, p: Plan, env: Env, snap: map<Id, Row>, s: Swarm, i: nat): (t: Swarm)
    requires WellFormed(p) && Tabulated(p, snap) && Tabulated(p, s.rows) && i < |p.order|
    ensures Tabulated(p, t.rows)
  {
    match ph
    case Polling => Poll(p, env, snap, s, p.order[i])
    case Resolving => Resolve(p, snap, s, p.order[i])
    case Launching => Launch(p, env, snap, s, i)
    case Cancelling => CancelOne(p, env, snap, s, p.order[i])
  }

  /** The first `n` iterations.  Each loop walks over the rows it read before it began. */
  function Loop(ph: Phase, p: Plan, env: Env, s: Swarm, n: nat): (t: Swarm)
    requires WellFormed(p) && Tabulated(p, s.rows) && n <= |p.order|
    ensures Tabulated(p, t.rows)
  {
    if n == 0 then s else Iterate(ph, p, env, s.rows, Loop(ph, p, env, s, n - 1), n - 1)
  }

  function Whole(ph: Phase, p: Plan, env: Env, s: Swarm): (t: Swarm)
    requires WellFormed(p) && Tabulated(p, s.rows)
    ensures Tabulated(p, t.rows)
  {
    Loop(ph, p, env, s, |p.order|)
  }

  /** refreshSwarmState. */
  function Summary(rows: map<Id, Row>): SwarmState {
    if exists id <- rows :: rows[id].state == TerminationUnverified then SwarmUnverified
    else if forall id <- rows :: rows[id].state == Cancelled then SwarmCancelled
    else if forall id <- rows :: Terminal(rows[id].state)
    then if forall id <- rows :: rows[id].state == Completed then SwarmCompleted else SwarmFailed
    else if forall id <- rows :: rows[id].state == Queued || rows[id].state == Blocked then SwarmQueued
    else SwarmRunning
  }

  function Tick(p: Plan, env: Env, s: Swarm): (t: Swarm)
    requires WellFormed(p) && Tabulated(p, s.rows)
    ensures Tabulated(p, t.rows)
  {
    var t := Whole(Launching, p, env, Whole(Resolving, p, env, Whole(Polling, p, env, s)));
    t.(state := Summary(t.rows))
  }

  /** releaseAllTaskAdmissions, with the replies of a second round of markReleased. */
  function ReleaseAll(p: Plan, again: Id -> bool, d: Debt, n: nat): Debt
    requires n <= |p.order|
  {
    if n == 0 then d else
      var d1 := ReleaseAll(p, again, d, n - 1);
      Release(p, again(p.order[n - 1]), d1, p.order[n - 1])
  }

  /** cancel, past its authorization check. */
  function Cancel(p: Plan, env: Env, again: Id -> bool, s: Swarm): (t: Swarm)
    requires WellFormed(p) && Tabulated(p, s.rows)
    ensures Tabulated(p, t.rows)
  {
    if TerminalSwarm(s.state) then s else
      var t := Whole(Cancelling, p, env, s.(aborted := true));
      if exists id <- t.rows :: t.rows[id].state == TerminationUnverified then t.(state := SwarmUnverified)
      else t.(state := SwarmCancelled, debt := ReleaseAll(p, again, t.debt, |p.order|))
  }

  // ---------------------------------------------------------------- runs

  /** start(): tasks with dependencies are blocked, the others queued. */
  function Created(p: Plan): (s: Swarm)
    requires WellFormed(p)
    ensures Tabulated(p, s.rows)
  {
    Swarm(map id <- p.deps :: Row(if p.deps[id] == [] then Queued else Blocked, None),
          Debt(map[], map[], map[], {}), false, SwarmQueued, 0)
  }

  datatype Event = TickEvent(env: Env) | CancelEvent(env: Env, again: Id -> bool)

  /** The monitor ticks only while the swarm is not terminal and was not aborted. */
  predicate Enabled(s: Swarm, e: Event) { e.TickEvent? ==> !TerminalSwarm(s.state) && !s.aborted }

  function Next(p: Plan, s: Swarm, e: Event): (t: Swarm)
    requires WellFormed(p) && Tabulated(p, s.rows)
    ensures Tabulated(p, t.rows)
  {
    match e
    case TickEvent(env) => Tick(p, env, s)
    case CancelEvent(env, again) => Cancel(p, env, again, s)
  }

  predicate Runs(p: Plan, s: Swarm, es: seq<Event>)
    requires WellFormed(p) && Tabulated(p, s.rows)
    decreases |es|
  {
    es == [] || (Enabled(s, es[0]) && Runs(p, Next(p, s, es[0]), es[1..]))
  }

  function After(p: Plan, s: Swarm, es: seq<Event>): (t: Swarm)
    requires WellFormed(p) && Tabulated(p, s.rows)
    ensures Tabulated(p, t.rows)
    decreases |es|
  {
    if es == [] then s else After(p, Next(p, s, es[0]), es[1..])
  }
}
