/** The scheduler over whole runs of ticks and cancels. */
module SwarmRuns {
  import opened Prelude
  import opened SwarmGraph
  import opened SwarmModel
  import opened SwarmSafety

  // ---------------------------------------------------------------- reachable states

  /** Outside a tick the stored swarm state tells the truth about the rows. */
  ghost predicate Reported(p: Plan, s: Swarm) {
    if s.aborted then TerminalSwarm(s.state) && forall id <- s.rows :: Terminal(s.rows[id].state)
    else s.state == Summary(s.rows)
  }

  ghost predicate Good(p: Plan, s: Swarm) { Sound(p, s) && Reported(p, s) }

  /** What a transition owes: the invariant, no row raised in rank, and writes paid for with rank. */
  ghost predicate Leads(p: Plan, s: Swarm, t: Swarm)
    requires Tabulated(p, s.rows)
  {
    Sound(p, t) && Descends(s.rows, t.rows) && t.writes + Rank(p, t.rows) <= s.writes + Rank(p, s.rows)
  }

  lemma CreatedRows(p: Plan)
    requires WellFormed(p)
    ensures RowsOk(p, Created(p).rows) && DebtOk(p, Created(p).rows, Created(p).debt)
    ensures forall id <- Created(p).rows :: Created(p).rows[id].state == Blocked || Created(p).rows[id].state == Queued
  {
    hide Tabulated, RunningCount;
  }

  lemma CreatedGood(p: Plan)
    requires WellFormed(p) && p.order != []
    ensures Good(p, Created(p)) && Rank(p, Created(p).rows) <= 3 * |p.order|
  {
    CreatedRows(p);
    hide RowsOk, DebtOk, Created;
    var rows := Created(p).rows;
    assert p.order[0] in rows && !Terminal(rows[p.order[0]].state);
    NoneRunning(rows, p.order);
    CreatedReported(p);
  }

  lemma CreatedReported(p: Plan)
    requires WellFormed(p) && p.order != []
    ensures Created(p).state == SwarmQueued == Summary(Created(p).rows) && !Created(p).aborted
  {
    CreatedRows(p);
    hide RowsOk, DebtOk;
    assert p.order[0] in Created(p).rows;
  }

  lemma {:induction false} NoneRunning(rows: map<Id, Row>, ids: seq<Id>)
    requires forall id <- ids :: id in rows && (rows[id].state == Blocked || rows[id].state == Queued)
    ensures Total(IsRunning, rows, ids) == 0 && Total(Weight, rows, ids) <= 3 * |ids|
  {
    if ids != [] { NoneRunning(rows, ids[1..]); }
  }

  lemma WholeLeads(ph: Phase, p: Plan, env: Env, s: Swarm)
    requires Sound(p, s)
    ensures Leads(p, s, Whole(ph, p, env, s))
    ensures Whole(ph, p, env, s).aborted == s.aborted && Whole(ph, p, env, s).state == s.state
  {
    hide Loop, Rank, RowsOk, DebtOk, RunningCount;
    LoopSound(ph, p, env, s, |p.order|);
  }

  lemma LeadsChains(p: Plan, s: Swarm, t: Swarm, u: Swarm)
    requires Tabulated(p, s.rows) && Leads(p, s, t) && Leads(p, t, u)
    ensures Leads(p, s, u)
  {
    hide Sound, Rank;
    assert Tabulated(p, t.rows) by { SoundTabulated(p, t); }
  }

  lemma SoundTabulated(p: Plan, s: Swarm)
    requires Sound(p, s)
    ensures Tabulated(p, s.rows) && WellFormed(p)
  {
  }

  lemma RelabelLeads(p: Plan, s: Swarm, t: Swarm, state: SwarmState, aborted: bool)
    requires Tabulated(p, s.rows) && Leads(p, s, t)
    ensures Leads(p, s, t.(state := state, aborted := aborted))
  {
    hide Rank, RowsOk, DebtOk, RunningCount;
  }

  lemma TickGood(p: Plan, env: Env, s: Swarm)
    requires Good(p, s) && !s.aborted
    ensures Good(p, Tick(p, env, s)) && Leads(p, s, Tick(p, env, s)) && !Tick(p, env, s).aborted
  {
    hide Leads, Whole, Sound;
    SoundTabulated(p, s);
    var s1 := Whole(Polling, p, env, s);
    WholeLeads(Polling, p, env, s);
    LeadsSound(p, s, s1);
    var s2 := Whole(Resolving, p, env, s1);
    WholeLeads(Resolving, p, env, s1);
    LeadsSound(p, s1, s2);
    var s3 := Whole(Launching, p, env, s2);
    WholeLeads(Launching, p, env, s2);
    LeadsChains(p, s, s1, s2);
    LeadsChains(p, s, s2, s3);
    RelabelLeads(p, s, s3, Summary(s3.rows), s3.aborted);
    LeadsSound(p, s, Tick(p, env, s));
  }

  lemma LeadsSound(p: Plan, s: Swarm, t: Swarm)
    requires Tabulated(p, s.rows) && Leads(p, s, t)
    ensures Sound(p, t) && Tabulated(p, t.rows)
  {
  }

  // ---------------------------------------------------------------- cancel

  lemma CancelledRow(p: Plan, env: Env, snap: map<Id, Row>, s: Swarm, id: Id)
    requires Sound(p, s) && id in snap && id in s.rows && s.rows[id] == snap[id]
    ensures Terminal(CancelOne(p, env, snap, s, id).rows[id].state)
  {
    hide DebtOk, RunningCount, Release, Retain;
    assert RowOk(s.rows[id]);
  }

  lemma CancelIteration(p: Plan, env: Env, snap: map<Id, Row>, s: Swarm, i: nat)
    requires Sound(p, s) && Tabulated(p, snap) && i < |p.order| && Follows(p, snap, s.rows, i)
    ensures var t := Iterate(Cancelling, p, env, snap, s, i);
      Terminal(t.rows[p.order[i]].state) && Descends(s.rows, t.rows)
  {
    hide Sound, CancelOne, Steps;
    SoundTabulated(p, s);
    CancelledRow(p, env, snap, s, p.order[i]);
    IterationSteps(Cancelling, p, env, snap, s, i);
    StepDescends(p, s, Iterate(Cancelling, p, env, snap, s, i), p.order[i]);
  }

  predicate TerminalUpTo(p: Plan, rows: map<Id, Row>, n: nat)
    requires n <= |p.order| && Tabulated(p, rows)
  {
    forall j :: 0 <= j < n ==> Terminal(rows[p.order[j]].state)
  }

  lemma OneMoreTerminal(p: Plan, rows: map<Id, Row>, later: map<Id, Row>, n: nat)
    requires 0 < n <= |p.order| && Tabulated(p, rows) && Tabulated(p, later)
    requires TerminalUpTo(p, rows, n - 1) && Descends(rows, later) && Terminal(later[p.order[n - 1]].state)
    ensures TerminalUpTo(p, later, n)
  {
  }

  /** Every row the cancel loop has passed is terminal. */
  lemma {:induction false} CancelLoop(p: Plan, env: Env, s: Swarm, n: nat)
    requires Sound(p, s) && n <= |p.order|
    ensures TerminalUpTo(p, Loop(Cancelling, p, env, s, n).rows, n)
  {
    hide Sound, Iterate, Steps, Follows, Rank, Descends, TerminalUpTo, Tabulated, WellFormed;
    SoundTabulated(p, s);
    if n == 0 {
      NoneTerminal(p, s.rows);
    } else {
      CancelLoop(p, env, s, n - 1);
      LoopSound(Cancelling, p, env, s, n - 1);
      var t := Loop(Cancelling, p, env, s, n - 1);
      CancelIteration(p, env, s.rows, t, n - 1);
      OneMoreTerminal(p, t.rows, Iterate(Cancelling, p, env, s.rows, t, n - 1).rows, n);
    }
  }

  lemma NoneTerminal(p: Plan, rows: map<Id, Row>)
    requires Tabulated(p, rows)
    ensures TerminalUpTo(p, rows, 0)
  {
  }

  lemma StepDescends(p: Plan, s: Swarm, t: Swarm, id: Id)
    requires Tabulated(p, s.rows) && Steps(p, s, t, id)
    ensures Descends(s.rows, t.rows)
  {
  }

  lemma ReleaseTerminal(p: Plan, rows: map<Id, Row>, d: Debt, marked: bool, id: Id)
    requires DebtOk(p, rows, d) && id in rows && Terminal(rows[id].state) && rows[id].state != TerminationUnverified
    ensures DebtOk(p, rows, Release(p, marked, d, id))
  {
    hide SlotOk, SameElsewhere, Release;
    ReleaseSlot(p, marked, d, id, rows[id], rows[id]);
    var e := Release(p, marked, d, id);
    forall x <- rows ensures SlotOk(p, rows[x], e, x) {
      if x != id { SlotFrame(p, rows[x], d, e, id, x); }
    }
    KeysFrame(d, e, id);
  }

  lemma {:induction false} ReleaseAllOk(p: Plan, again: Id -> bool, rows: map<Id, Row>, d: Debt, n: nat)
    requires DebtOk(p, rows, d) && n <= |p.order| && Tabulated(p, rows)
    requires forall id <- rows :: Terminal(rows[id].state) && rows[id].state != TerminationUnverified
    ensures DebtOk(p, rows, ReleaseAll(p, again, d, n))
  {
    hide DebtOk, Release;
    if n > 0 {
      ReleaseAllOk(p, again, rows, d, n - 1);
      ReleaseTerminal(p, rows, ReleaseAll(p, again, d, n - 1), again(p.order[n - 1]), p.order[n - 1]);
    }
  }

  lemma AbortSound(p: Plan, s: Swarm)
    requires Sound(p, s)
    ensures Sound(p, s.(aborted := true))
  {
  }

  /** The cancel loop as a whole. */
  lemma CancelWhole(p: Plan, env: Env, s: Swarm)
    requires Sound(p, s) && !TerminalSwarm(s.state)
    ensures var t := Whole(Cancelling, p, env, s.(aborted := true));
      Leads(p, s, t) && t.aborted && forall id <- t.rows :: Terminal(t.rows[id].state)
  {
    hide Rank, RowsOk, DebtOk, RunningCount, Loop, Descends;
    var s1 := s.(aborted := true);
    AbortSound(p, s);
    WholeLeads(Cancelling, p, env, s1);
    CancelLoop(p, env, s1, |p.order|);
    var t := Whole(Cancelling, p, env, s1);
    forall id <- t.rows ensures Terminal(t.rows[id].state) { assert id in p.order; }
  }

  lemma CancelEnds(p: Plan, s: Swarm, t: Swarm, state: SwarmState, debt: Debt)
    requires Tabulated(p, s.rows) && Leads(p, s, t) && t.aborted && (forall id <- t.rows :: Terminal(t.rows[id].state))
    requires TerminalSwarm(state) && DebtOk(p, t.rows, debt)
    ensures Good(p, t.(state := state, debt := debt)) && Leads(p, s, t.(state := state, debt := debt))
  {
    hide Rank, RowsOk, DebtOk, RunningCount, Descends;
  }

  lemma SoundDebt(p: Plan, s: Swarm)
    requires Sound(p, s)
    ensures DebtOk(p, s.rows, s.debt)
  {
  }

  /** A cancel leaves no task unfinished, and says whether every one of them is known to have stopped. */
  lemma CancelGood(p: Plan, env: Env, again: Id -> bool, s: Swarm)
    requires Good(p, s)
    ensures var t := Cancel(p, env, again, s);
      && Good(p, t) && Leads(p, s, t)
      && (!TerminalSwarm(s.state) ==>
            && (forall id <- t.rows :: Terminal(t.rows[id].state))
            && (t.state == SwarmUnverified <==> exists id <- t.rows :: t.rows[id].state == TerminationUnverified)
            && (t.state != SwarmUnverified ==> t.state == SwarmCancelled))
  {
    hide Sound, Leads, DebtOk, Whole, Reported;
    SoundTabulated(p, s);
    if TerminalSwarm(s.state) {
      LeadsSelf(p, s);
    } else {
      CancelWhole(p, env, s);
      var t := Whole(Cancelling, p, env, s.(aborted := true));
      LeadsSound(p, s, t);
      SoundDebt(p, t);
      if exists id <- t.rows :: t.rows[id].state == TerminationUnverified {
        CancelEnds(p, s, t, SwarmUnverified, t.debt);
      } else {
        ReleaseAllOk(p, again, t.rows, t.debt, |p.order|);
        CancelEnds(p, s, t, SwarmCancelled, ReleaseAll(p, again, t.debt, |p.order|));
      }
    }
  }

  lemma LeadsSelf(p: Plan, s: Swarm)
    requires Sound(p, s)
    ensures Leads(p, s, s)
  {
  }

  // ---------------------------------------------------------------- runs

  lemma NextGood(p: Plan, s: Swarm, e: Event)
    requires Good(p, s) && Enabled(s, e)
    ensures Good(p, Next(p, s, e)) && Leads(p, s, Next(p, s, e))
  {
    hide Good, Leads, Tick, Cancel;
    GoodTabulated(p, s);
    match e
    case TickEvent(env) =>
      TickGood(p, env, s);
    case CancelEvent(env, again) => CancelGood(p, env, again, s);
  }

  lemma GoodTabulated(p: Plan, s: Swarm)
    requires Good(p, s)
    ensures WellFormed(p) && Tabulated(p, s.rows)
  {
  }

  lemma {:induction false} RunGood(p: Plan, s: Swarm, es: seq<Event>)
    requires Good(p, s) && Runs(p, s, es)
    ensures Good(p, After(p, s, es)) && Leads(p, s, After(p, s, es))
    decreases |es|
  {
    hide Sound, Next, Rank;
    SoundTabulated(p, s);
    if es != [] {
      var t := Next(p, s, es[0]);
      NextGood(p, s, es[0]);
      RunGood(p, t, es[1..]);
      LeadsChains(p, s, t, After(p, t, es[1..]));
    }
  }
}
