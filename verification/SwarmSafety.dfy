/**
 What every iteration of the scheduler keeps, and so every row write of every run: dependencies
 complete before their dependents start, the concurrency cap, and the conservation of leases.
 */
module SwarmSafety {
  import opened Prelude
  import opened SwarmGraph
  import opened SwarmModel

  // ---------------------------------------------------------------- the invariant

  /** The task was queued or launched at some time. */
  predicate Entered(row: Row) { row.state == Queued || row.state == Running || row.state == Completed || row.handle.Some? }

  predicate DepsCompleted(p: Plan, rows: map<Id, Row>, id: Id) {
    id in p.deps && forall d <- p.deps[id] :: d in rows && rows[d].state == Completed
  }

  predicate RowOk(row: Row) {
    (row.state == Running ==> row.handle.Some?) && (row.state == Blocked || row.state == Queued ==> row.handle.None?)
  }

  /** A worker of this task was launched, and is not known to have ended. */
  predicate LaunchedNow(row: Row) { row.state == Running || (row.state == TerminationUnverified && row.handle.Some?) }

  /** The leases of one task, given its row. */
  predicate SlotOk(p: Plan, row: Row, d: Debt, id: Id) {
    && (id in d.leases <==> id in d.active)
    && (id in d.leases ==> d.leases[id] == p.cost && d.active[id] == p.cost && p.controller)
    && (id in d.leases ==> LaunchedNow(row) || (Terminal(row.state) && id in d.refused))
    && (p.controller && LaunchedNow(row) ==> id in d.leases)
    && (id in d.bindings && d.bindings[id] != Released ==> id in d.leases)
    && (id in d.bindings ==> p.durable)
    && (p.durable && row.state == Running ==> id in d.bindings && d.bindings[id] == Active)
    && (row.state == Blocked || row.state == Queued ==> id !in d.leases && id !in d.bindings && id !in d.refused)
  }

  ghost predicate RowsOk(p: Plan, rows: map<Id, Row>) {
    forall id <- rows :: RowOk(rows[id]) && (Entered(rows[id]) ==> DepsCompleted(p, rows, id))
  }

  ghost predicate DebtOk(p: Plan, rows: map<Id, Row>, d: Debt) {
    && d.leases.Keys <= rows.Keys && d.active.Keys <= rows.Keys && d.bindings.Keys <= rows.Keys
    && forall id <- rows :: SlotOk(p, rows[id], d, id)
  }

  ghost predicate Sound(p: Plan, s: Swarm) {
    && WellFormed(p) && Tabulated(p, s.rows)
    && RowsOk(p, s.rows) && DebtOk(p, s.rows, s.debt) && RunningCount(p, s.rows) <= p.maxConcurrency
  }

  // ---------------------------------------------------------------- one step

  predicate SameElsewhere(d: Debt, e: Debt, id: Id) {
    && d.leases - {id} == e.leases - {id} && d.active - {id} == e.active - {id}
    && d.bindings - {id} == e.bindings - {id} && d.refused - {id} == e.refused - {id}
  }

  /** A row may be written only downwards in rank, and only with a row its surroundings allow. */
  ghost predicate MayWrite(p: Plan, s: Swarm, id: Id, row: Row)
    requires Tabulated(p, s.rows)
  {
    && id in s.rows && Weight(row.state) < Weight(s.rows[id].state) && RowOk(row)
    && (Entered(row) ==> DepsCompleted(p, s.rows, id))
    && (row.state == Running ==> RunningCount(p, s.rows) < p.maxConcurrency)
  }

  ghost predicate Steps(p: Plan, s: Swarm, t: Swarm, id: Id)
    requires Tabulated(p, s.rows)
  {
    && id in t.rows && id in s.rows && t.aborted == s.aborted && t.state == s.state
    && (|| (t.rows == s.rows && t.writes == s.writes)
        || (MayWrite(p, s, id, t.rows[id]) && t.rows == s.rows[id := t.rows[id]] && t.writes == s.writes + 1))
    && SameElsewhere(s.debt, t.debt, id) && SlotOk(p, t.rows[id], t.debt, id)
  }

  lemma {:induction false} TotalUpdate(w: TaskState -> nat, rows: map<Id, Row>, ids: seq<Id>, id: Id, row: Row)
    requires Distinct(ids) && forall x <- ids :: x in rows
    ensures id !in ids ==> Total(w, rows[id := row], ids) == Total(w, rows, ids)
    ensures id in ids ==> Total(w, rows[id := row], ids) + w(rows[id].state) == Total(w, rows, ids) + w(row.state)
  {
    if ids != [] {
      assert Distinct(ids[1..]);
      TotalUpdate(w, rows, ids[1..], id, row);
    }
  }

  /** One row write moves the counters by the weight of that row alone. */
  lemma WriteCounts(p: Plan, rows: map<Id, Row>, id: Id, row: Row)
    requires WellFormed(p) && Tabulated(p, rows) && id in rows
    ensures Rank(p, rows[id := row]) + Weight(rows[id].state) == Rank(p, rows) + Weight(row.state)
    ensures RunningCount(p, rows[id := row]) + IsRunning(rows[id].state) == RunningCount(p, rows) + IsRunning(row.state)
  {
    assert id in p.order;
    TotalUpdate(Weight, rows, p.order, id, row);
    TotalUpdate(IsRunning, rows, p.order, id, row);
  }

  lemma StepRows(p: Plan, s: Swarm, t: Swarm, id: Id)
    requires Sound(p, s) && Tabulated(p, t.rows) && Steps(p, s, t, id)
    ensures RowsOk(p, t.rows)
  {
    hide DebtOk, SlotOk, SameElsewhere, RunningCount;
  }

  lemma StepDebt(p: Plan, s: Swarm, t: Swarm, id: Id)
    requires Sound(p, s) && Tabulated(p, t.rows) && Steps(p, s, t, id)
    ensures DebtOk(p, t.rows, t.debt)
  {
    hide RowsOk, RowOk, RunningCount, MayWrite, SlotOk;
    assert t.rows.Keys == s.rows.Keys;
    forall x <- t.rows ensures SlotOk(p, t.rows[x], t.debt, x) {
      if x != id {
        SlotFrame(p, s.rows[x], s.debt, t.debt, id, x);
      }
    }
    KeysFrame(s.debt, t.debt, id);
  }

  lemma KeysFrame(d: Debt, e: Debt, id: Id)
    requires SameElsewhere(d, e, id)
    ensures e.leases.Keys <= d.leases.Keys + {id} && e.active.Keys <= d.active.Keys + {id} && e.bindings.Keys <= d.bindings.Keys + {id}
  {
    assert forall x <- e.leases :: x == id || x in e.leases - {id};
    assert forall x <- e.active :: x == id || x in e.active - {id};
    assert forall x <- e.bindings :: x == id || x in e.bindings - {id};
  }

  lemma SlotFrame(p: Plan, row: Row, d: Debt, e: Debt, id: Id, x: Id)
    requires SameElsewhere(d, e, id) && x != id && SlotOk(p, row, d, x)
    ensures SlotOk(p, row, e, x)
  {
    assert x in d.leases <==> x in d.leases - {id};
    assert x in e.leases <==> x in e.leases - {id};
    assert x in d.leases ==> (d.leases - {id})[x] == d.leases[x];
    assert x in e.leases ==> (e.leases - {id})[x] == e.leases[x];
    assert x in d.active <==> x in d.active - {id};
    assert x in e.active <==> x in e.active - {id};
    assert x in d.active ==> (d.active - {id})[x] == d.active[x];
    assert x in e.active ==> (e.active - {id})[x] == e.active[x];
    assert x in d.bindings <==> x in d.bindings - {id};
    assert x in e.bindings <==> x in e.bindings - {id};
    assert x in d.bindings ==> (d.bindings - {id})[x] == d.bindings[x];
    assert x in e.bindings ==> (e.bindings - {id})[x] == e.bindings[x];
    assert x in d.refused <==> x in d.refused - {id};
    assert x in e.refused <==> x in e.refused - {id};
  }

  /** A step keeps the invariant, never raises the rank, and pays for a write with rank. */
  lemma StepSound(p: Plan, s: Swarm, t: Swarm, id: Id)
    requires Sound(p, s) && Tabulated(p, t.rows) && Steps(p, s, t, id)
    ensures Sound(p, t) && t.writes + Rank(p, t.rows) <= s.writes + Rank(p, s.rows)
  {
    StepRows(p, s, t, id);
    StepDebt(p, s, t, id);
    hide RowsOk, DebtOk, SlotOk, SameElsewhere, RunningCount, Rank;
    if t.rows != s.rows {
      WriteCounts(p, s.rows, id, t.rows[id]);
    }
  }

  // ---------------------------------------------------------------- the iterations are steps

  /** Every row is as it was, or has moved down in rank; a terminal row cannot. */
  ghost predicate Descends(rows: map<Id, Row>, later: map<Id, Row>) {
    forall id <- rows :: id in later && (later[id] == rows[id] || Weight(later[id].state) < Weight(rows[id].state))
  }

  /** A loop at place `i` has left the rows from `i` on as it read them, and raised no other. */
  ghost predicate Follows(p: Plan, snap: map<Id, Row>, rows: map<Id, Row>, i: nat)
    requires Tabulated(p, snap) && Tabulated(p, rows)
  {
    && (forall j :: i <= j < |p.order| ==> rows[p.order[j]] == snap[p.order[j]])
    && Descends(snap, rows)
  }

  lemma ReleaseSlot(p: Plan, marked: bool, d: Debt, id: Id, row: Row, after: Row)
    requires SlotOk(p, row, d, id) && Terminal(after.state) && after.state != TerminationUnverified
    ensures var e := Release(p, marked, d, id); SameElsewhere(d, e, id) && SlotOk(p, after, e, id)
  {
  }

  lemma RetainSlot(p: Plan, marked: bool, d: Debt, id: Id, row: Row, after: Row)
    requires SlotOk(p, row, d, id) && after.state == TerminationUnverified && after.handle.Some? && row.state == Running
    ensures var e := Retain(p, marked, d, id); SameElsewhere(d, e, id) && SlotOk(p, after, e, id)
  {
  }

  lemma Untouched(p: Plan, s: Swarm, id: Id)
    requires Sound(p, s) && id in s.rows
    ensures Steps(p, s, s, id) && SameElsewhere(s.debt, s.debt, id) && SlotOk(p, s.rows[id], s.debt, id)
  {
  }

  lemma PollSteps(p: Plan, env: Env, snap: map<Id, Row>, s: Swarm, id: Id)
    requires Sound(p, s) && id in snap && id in s.rows && s.rows[id] == snap[id]
    ensures Steps(p, s, Poll(p, env, snap, s, id), id)
  {
    hide Release, Retain, SlotOk, SameElsewhere, RunningCount, DebtOk, Tabulated, WellFormed;
    Untouched(p, s, id);
    var row := snap[id];
    if row.state == Running {
      ReleaseSlot(p, env.markReleased(id), s.debt, id, row, Row(Completed, row.handle));
      ReleaseSlot(p, env.markReleased(id), s.debt, id, row, Row(Failed, row.handle));
      RetainSlot(p, env.markUnverified(id), s.debt, id, row, Row(TerminationUnverified, row.handle));
    }
  }

  /** Phase two judges dependencies by the rows it read first; a completed one is still completed. */
  lemma StillCompleted(p: Plan, snap: map<Id, Row>, rows: map<Id, Row>, id: Id)
    requires Descends(snap, rows) && id in p.deps
    requires forall d <- p.deps[id] :: d in snap && snap[d].state == Completed
    ensures DepsCompleted(p, rows, id)
  {
  }

  lemma ResolveSteps(p: Plan, snap: map<Id, Row>, s: Swarm, id: Id)
    requires Sound(p, s) && Tabulated(p, snap) && id in s.rows && id in p.deps && s.rows[id] == snap[id]
    requires Descends(snap, s.rows)
    ensures Steps(p, s, Resolve(p, snap, s, id), id)
  {
    hide SlotOk, SameElsewhere, RunningCount, RowsOk, DebtOk, DepsCompleted, Descends, Steps;
    Untouched(p, s, id);
    BlockedSlot(p, s.rows[id], s.debt, id);
    if s.rows[id].state == Blocked {
      BlockedRow(p, s, id);
      WriteSteps(p, s, id, Row(Failed, None));
      if forall d <- p.deps[id] :: d in snap && snap[d].state == Completed {
        StillCompleted(p, snap, s.rows, id);
        WriteSteps(p, s, id, Row(Queued, None));
      }
    }
  }

  lemma BlockedRow(p: Plan, s: Swarm, id: Id)
    requires Sound(p, s) && id in s.rows && s.rows[id].state == Blocked
    ensures s.rows[id].handle.None?
  {
    hide DebtOk, RunningCount;
    assert RowOk(s.rows[id]);
  }

  /** Writing an allowed row that fits the slot as it is. */
  lemma WriteSteps(p: Plan, s: Swarm, id: Id, row: Row)
    requires Tabulated(p, s.rows) && id in s.rows && MayWrite(p, s, id, row) && SlotOk(p, row, s.debt, id)
    ensures Steps(p, s, Write(s, id, row), id)
  {
    hide SlotOk, MayWrite;
  }

  /** A blocked task holds nothing, so any row that is not running fits its slot. */
  lemma BlockedSlot(p: Plan, row: Row, d: Debt, id: Id)
    requires SlotOk(p, row, d, id)
    ensures forall state: TaskState :: row.state == Blocked && state != Running ==> SlotOk(p, Row(state, None), d, id)
    ensures forall state: TaskState :: row.state == Queued && state != Running ==> SlotOk(p, Row(state, None), d, id)
  {
  }

  /** What the admission branch establishes for the task it is about to launch. */
  predicate Ready(p: Plan, d: Debt, id: Id) {
    && (p.controller <==> id in d.leases) && (id in d.leases <==> id in d.active)
    && (id in d.leases ==> d.leases[id] == p.cost && d.active[id] == p.cost)
    && id !in d.bindings && id !in d.refused
  }

  lemma AdmitReady(p: Plan, d: Debt, id: Id, row: Row)
    requires SlotOk(p, row, d, id) && row.state == Queued
    ensures id !in d.leases && id !in d.active
    ensures !p.controller ==> Ready(p, d, id) && SameElsewhere(d, d, id)
    ensures p.controller ==> Ready(p, Admit(p, d, id), id) && SameElsewhere(d, Admit(p, d, id), id)
  {
    assert Admit(p, d, id).leases - {id} == d.leases - {id};
    assert Admit(p, d, id).active - {id} == d.active - {id};
  }

  /** The slot after a release, a successful persist or a retain of a ready task. */
  lemma ReadySlot(p: Plan, env: Env, d: Debt, id: Id, handle: nat)
    requires Ready(p, d, id)
    ensures var e := Release(p, env.markReleased(id), d, id); SameElsewhere(d, e, id) && SlotOk(p, Row(Failed, None), e, id)
    ensures var (e, durable) := Persist(p, env, d, id);
      && SameElsewhere(d, e, id)
      && (if durable then SlotOk(p, Row(Running, Some(handle)), e, id) else e == d)
    ensures var e := Retain(p, env.markUnverified(id), d, id);
      SameElsewhere(d, e, id) && SlotOk(p, Row(TerminationUnverified, Some(handle)), e, id)
  {
  }

  lemma ElsewhereChains(d: Debt, e: Debt, f: Debt, id: Id)
    requires SameElsewhere(d, e, id) && SameElsewhere(e, f, id)
    ensures SameElsewhere(d, f, id)
  {
  }

  lemma DispatchSteps(p: Plan, env: Env, snap: map<Id, Row>, s: Swarm, d: Debt, id: Id)
    requires Sound(p, s) && id in snap && id in s.rows && s.rows[id] == snap[id] && snap[id].state == Queued
    requires Ready(p, d, id) && SameElsewhere(s.debt, d, id) && RunningCount(p, s.rows) < p.maxConcurrency
    ensures Steps(p, s, Dispatch(p, env, snap, s.(debt := d), id), id)
  {
    hide SlotOk, SameElsewhere, RunningCount, DebtOk, Release, Retain, Persist, Ready;
    var handle := if env.run(id).Some? then env.run(id).value else 0;
    ReadySlot(p, env, d, id, handle);
    ElsewhereChains(s.debt, d, Release(p, env.markReleased(id), d, id), id);
    ElsewhereChains(s.debt, d, Persist(p, env, d, id).0, id);
    ElsewhereChains(s.debt, d, Retain(p, env.markUnverified(id), d, id), id);
  }

  lemma LaunchSteps(p: Plan, env: Env, snap: map<Id, Row>, s: Swarm, i: nat)
    requires Sound(p, s) && Tabulated(p, snap) && i < |p.order| && s.rows[p.order[i]] == snap[p.order[i]]
    ensures Steps(p, s, Launch(p, env, snap, s, i), p.order[i])
  {
    hide SlotOk, SameElsewhere, RunningCount, DebtOk, Dispatch, Ready, Admit;
    var id := p.order[i];
    Untouched(p, s, id);
    BlockedSlot(p, s.rows[id], s.debt, id);
    if snap[id].state == Queued && !Held(p, env, s, i) {
      AdmitReady(p, s.debt, id, snap[id]);
      if p.controller { DispatchSteps(p, env, snap, s, Admit(p, s.debt, id), id); }
      else { DispatchSteps(p, env, snap, s, s.debt, id); }
    }
  }

  lemma CancelSteps(p: Plan, env: Env, snap: map<Id, Row>, s: Swarm, id: Id)
    requires Sound(p, s) && id in snap && id in s.rows && s.rows[id] == snap[id]
    ensures Steps(p, s, CancelOne(p, env, snap, s, id), id)
  {
    hide Release, Retain, SlotOk, SameElsewhere, RunningCount, DebtOk, Tabulated, WellFormed;
    Untouched(p, s, id);
    var row := snap[id];
    ReleaseSlot(p, env.markReleased(id), s.debt, id, row, Row(Cancelled, row.handle));
    if row.state == Running {
      RetainSlot(p, env.markUnverified(id), s.debt, id, row, Row(TerminationUnverified, row.handle));
    }
  }

  // ---------------------------------------------------------------- the loops

  lemma IterationSteps(ph: Phase, p: Plan, env: Env, snap: map<Id, Row>, s: Swarm, i: nat)
    requires Sound(p, s) && Tabulated(p, snap) && i < |p.order| && Follows(p, snap, s.rows, i)
    ensures Steps(p, s, Iterate(ph, p, env, snap, s, i), p.order[i])
    ensures Follows(p, snap, Iterate(ph, p, env, snap, s, i).rows, i + 1)
  {
    hide Steps, RowsOk, DebtOk, RunningCount, Poll, Resolve, Launch, CancelOne;
    match ph {
      case Polling => PollSteps(p, env, snap, s, p.order[i]);
      case Resolving => ResolveSteps(p, snap, s, p.order[i]);
      case Launching => LaunchSteps(p, env, snap, s, i);
      case Cancelling => CancelSteps(p, env, snap, s, p.order[i]);
    }
    StepFollows(p, snap, s, Iterate(ph, p, env, snap, s, i), i);
  }

  lemma StepFollows(p: Plan, snap: map<Id, Row>, s: Swarm, t: Swarm, i: nat)
    requires Sound(p, s) && Tabulated(p, snap) && Tabulated(p, t.rows) && i < |p.order|
    requires Follows(p, snap, s.rows, i) && Steps(p, s, t, p.order[i])
    ensures Follows(p, snap, t.rows, i + 1)
  {
    hide RowsOk, DebtOk, SlotOk, SameElsewhere, RunningCount;
  }

  /**
   At every row write inside a tick or a cancel -- after any number `n` of iterations of any of its
   loops -- the invariant holds, terminal rows are as they were, and writes were paid for with rank.
   */
  lemma {:induction false} LoopSound(ph: Phase, p: Plan, env: Env, s: Swarm, n: nat)
    requires Sound(p, s) && n <= |p.order|
    ensures var t := Loop(ph, p, env, s, n);
      && Sound(p, t) && Follows(p, s.rows, t.rows, n)
      && t.writes + Rank(p, t.rows) <= s.writes + Rank(p, s.rows)
      && t.aborted == s.aborted && t.state == s.state
  {
    hide Iterate, RunningCount, Rank, Steps, Follows, RowsOk, DebtOk;
    if n == 0 {
      FollowsSelf(p, s.rows);
    } else {
      LoopSound(ph, p, env, s, n - 1);
      var t := Loop(ph, p, env, s, n - 1);
      IterationSteps(ph, p, env, s.rows, t, n - 1);
      StepSound(p, t, Iterate(ph, p, env, s.rows, t, n - 1), p.order[n - 1]);
      StepLeaves(p, t, Iterate(ph, p, env, s.rows, t, n - 1), p.order[n - 1]);
    }
  }

  lemma FollowsSelf(p: Plan, rows: map<Id, Row>)
    requires Tabulated(p, rows)
    ensures Follows(p, rows, rows, 0)
  {
  }

  lemma StepLeaves(p: Plan, s: Swarm, t: Swarm, id: Id)
    requires Tabulated(p, s.rows) && Steps(p, s, t, id)
    ensures t.aborted == s.aborted && t.state == s.state
  {
  }
}
