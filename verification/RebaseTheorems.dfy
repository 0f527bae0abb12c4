/** The guarantees of the guarded rebase, and the one its metadata write does not give. */
module RebaseTheorems {
  import opened Prelude
  import opened GuardedRebase
  import opened RebaseSafety

  lemma FreshSound(w: World)
    requires Fresh(w)
    ensures Sound(w)
  {
  }

  /** Git runs only for a caller whose own `started` receipt is the latest, and for one caller at a time. */
  lemma GitRunsFenced(w: World, es: seq<Event>, id: nat, g: Git)
    requires Fresh(w) && Runs(w, es) && Enabled(After(w, es), Step(id, Ran(g)))
    ensures var v := After(w, es);
      && v.callers[id].Rebasing? && v.receipt == Some(v.callers[id].j.r) && v.callers[id].j.r.status == STARTED
      && forall x <- v.callers :: x != id ==> !Holds(v.callers[x])
  {
    FreshSound(w);
    RunSound(w, es);
    var v := After(w, es);
    hide Runs, After;
    OthersDoNotHold(v, id);
  }

  /** The receipt changes only to its successor revision. */
  lemma RevisionsIncrease(w: World, e: Event)
    requires Sound(w) && Enabled(w, e)
    ensures Next(w, e).receipt == w.receipt || RevisionOf(Next(w, e).receipt) == RevisionOf(w.receipt) + 1
  {
    if e.Step? && Holds(w.callers[e.id]) { OthersDoNotHold(w, e.id); }
    hide Sound;
  }

  lemma {:induction false} RevisionsIncreaseOverRuns(w: World, es: seq<Event>)
    requires Sound(w) && Runs(w, es)
    ensures RevisionOf(w.receipt) <= RevisionOf(After(w, es).receipt)
    ensures RevisionOf(w.receipt) == RevisionOf(After(w, es).receipt) ==> After(w, es).receipt == w.receipt
    decreases |es|
  {
    hide Sound, Next;
    if es != [] {
      RevisionsIncrease(w, es[0]);
      StepSound(w, es[0]);
      RevisionsIncreaseOverRuns(Next(w, es[0]), es[1..]);
    }
  }

  // ---------------------------------------------------------------- blocked for good

  predicate Blocked(w: World) {
    && w.receipt.Some? && w.receipt.value.status != COMPLETED
    && forall id <- w.callers :: !Holds(w.callers[id])
  }

  lemma BlockedStep(w: World, e: Event)
    requires Sound(w) && Blocked(w) && Enabled(w, e)
    ensures Blocked(Next(w, e)) && Next(w, e).receipt == w.receipt && Next(w, e).history.moved == w.history.moved
  {
    if e.Step? {
      assert StageOk(w, w.callers[e.id]);
      hide Sound, Holder, Admits, Allowed;
      var v := Next(w, e);
      assert v.receipt == w.receipt && v.history.moved == w.history.moved && !Holds(v.callers[e.id]);
      assert forall id <- v.callers :: id != e.id ==> id in w.callers && v.callers[id] == w.callers[id];
    }
  }

  /**
   A latest receipt that is `started` with no caller left behind it, or `recovery_required`, blocks
   every attempt for good: through no run does the receipt change or Git run again.
   */
  lemma BlockedForever(w: World, es: seq<Event>)
    requires Sound(w) && Runs(w, es) && w.receipt.Some?
    requires w.receipt.value.status == NEEDS_RECOVERY || (w.receipt.value.status == STARTED && forall id <- w.callers :: !Holds(w.callers[id]))
    ensures Blocked(After(w, es)) && After(w, es).receipt == w.receipt && After(w, es).history.moved == w.history.moved
  {
    if w.receipt.value.status == NEEDS_RECOVERY { RecoveryBlocks(w); }
    hide Sound;
    StaysBlocked(w, es);
  }

  lemma {:induction false} StaysBlocked(w: World, es: seq<Event>)
    requires Sound(w) && Blocked(w) && Runs(w, es)
    ensures Blocked(After(w, es)) && After(w, es).receipt == w.receipt && After(w, es).history.moved == w.history.moved
    decreases |es|
  {
    hide Sound, Next, Blocked;
    if es != [] {
      BlockedStep(w, es[0]);
      StepSound(w, es[0]);
      StaysBlocked(Next(w, es[0]), es[1..]);
    }
  }

  lemma RecoveryBlocks(w: World)
    requires Sound(w) && w.receipt.Some? && w.receipt.value.status == NEEDS_RECOVERY
    ensures Blocked(w)
  {
    forall id <- w.callers ensures !Holds(w.callers[id]) { assert StageOk(w, w.callers[id]); }
  }

  /** ... and a crash of the holder at any point leaves the workspace blocked. */
  lemma CrashBlocks(w: World, id: nat)
    requires Sound(w) && id in w.callers && Holds(w.callers[id])
    ensures Blocked(Next(w, Crash(id)))
  {
    OthersDoNotHold(w, id);
  }

  // ---------------------------------------------------------------- crash points

  /**
   At every point of every run: if an operation may have moved the head and its admission generation
   is still valid, then the latest receipt is that operation's, and is not `completed`; and a latest
   `completed` receipt means that its admission generation is invalidated or replaced.
   */
  lemma NoUnsafeCrashPoint(w: World, es: seq<Event>, op: nat)
    requires Fresh(w) && Runs(w, es)
    ensures var v := After(w, es);
      && (op in v.history.moved && v.admission.Some? && v.admission.value.generation <= v.history.moved[op] && !v.admission.value.invalidated ==>
            v.receipt.Some? && v.receipt.value.op == op && v.receipt.value.status != COMPLETED)
      && (v.receipt.Some? && v.receipt.value.status == COMPLETED ==> Superseded(v, v.receipt.value.plan.generation))
  {
    FreshSound(w);
    RunSound(w, es);
    hide Runs, After;
  }

  // ---------------------------------------------------------------- what REBASED means

  /**
   A caller is told REBASED only by storing its `completed` receipt over its own `started` one, with
   its admission generation current and invalidated; and the workspace's base is the new base exactly
   when no metadata update restored a row since the new base was written, or the last to do so restored
   a row with the new base.
   */
  lemma RebasedMeans(w: World, es: seq<Event>, id: nat, reply: Reply)
    requires Fresh(w) && Runs(w, es) && Enabled(After(w, es), Step(id, reply))
    requires Next(After(w, es), Step(id, reply)).callers[id] == Done(REBASED)
    ensures var v, u := After(w, es), Next(After(w, es), Step(id, reply));
      && v.callers[id].Completing?
      && var r := v.callers[id].j.r;
         && u.receipt == Some(Finished(r, COMPLETED)) && v.receipt == Some(r)
         && u.admission.Some? && u.admission.value.generation == r.plan.generation && u.admission.value.invalidated
         && (u.row.base == r.plan.newBase <==> u.history.restored.None? || u.history.restored == Some(r.plan.newBase))
  {
    FreshSound(w);
    RunSound(w, es);
    var v := After(w, es);
    hide Runs, After, Holder, Admits, Allowed;
    assert StageOk(v, v.callers[id]);
    OnlyCompletingRebases(v, id, reply);
  }

  lemma OnlyCompletingRebases(w: World, id: nat, reply: Reply)
    requires id in w.callers && Accepts(w, w.callers[id], reply) && Next(w, Step(id, reply)).callers[id] == Done(REBASED)
    requires StageOk(w, w.callers[id])
    ensures w.callers[id].Completing?
  {
  }

  // ---------------------------------------------------------------- the base update can be lost

  lemma Extend(w: World, es: seq<Event>, e: Event)
    requires Runs(w, es) && Enabled(After(w, es), e)
    ensures Runs(w, es + [e]) && After(w, es + [e]) == Next(After(w, es), e)
    decreases |es|
  {
    hide Next, Enabled;
    if es == [] {
      assert [e][1..] == [];
      assert es + [e] == [e];
      assert Runs(w, [e]) && After(w, [e]) == After(Next(w, e), []);
    } else {
      assert (es + [e])[1..] == es[1..] + [e];
      Extend(Next(w, es[0]), es[1..], e);
    }
  }

  /** A clean worktree at head 5 on base 7, admitted under lease 1 until time 9. */
  const BEFORE: World := World(
    Some(Admission(1, false, 1, 5, 7, Some(0))), None, Row(7, Some(0), Some(Lease(1, 1, 9))), 5, 0, map[], map[], History(map[], {}, None))

  const REQUEST := Request(1, 1, 1)

  const PLAN := Plan(1, 1, 5, 7, 8, 0)

  const JOB := Job(REQUEST, Receipt(0, 1, STARTED, PLAN), 0)

  /** BEFORE with one caller. */
  function With(s: Stage): World { BEFORE.(callers := map[0 := s]) }

  lemma Decides() returns (es: seq<Event>)
    ensures Runs(BEFORE, es) && After(BEFORE, es) == With(Clear(REQUEST, PLAN, 0))
  {
    hide Runs, After;
    var e := Reports(Evidence(5, true, true, true, 8, true, false, false));
    RunsNil(BEFORE);
    es := [];
    Extend(BEFORE, es, Call(0, REQUEST));
    assert Next(BEFORE, Call(0, REQUEST)) == With(Asked(REQUEST));
    es := es + [Call(0, REQUEST)];
    Extend(BEFORE, es, Step(0, Succeeds));
    assert Next(With(Asked(REQUEST)), Step(0, Succeeds)) == With(HasRow(REQUEST, BEFORE.row, 0));
    es := es + [Step(0, Succeeds)];
    Extend(BEFORE, es, Step(0, Succeeds));
    assert Next(With(HasRow(REQUEST, BEFORE.row, 0)), Step(0, Succeeds)) == With(HasAdmission(REQUEST, BEFORE.row, 0, BEFORE.admission.value));
    es := es + [Step(0, Succeeds)];
    Extend(BEFORE, es, Step(0, e));
    assert Next(With(HasAdmission(REQUEST, BEFORE.row, 0, BEFORE.admission.value)), Step(0, e)) == With(Permitted(REQUEST, PLAN));
    es := es + [Step(0, e)];
    Extend(BEFORE, es, Step(0, Succeeds));
    assert Next(With(Permitted(REQUEST, PLAN)), Step(0, Succeeds)) == With(Clear(REQUEST, PLAN, 0));
    es := es + [Step(0, Succeeds)];
  }

  lemma RunsNil(w: World)
    ensures Runs(w, []) && After(w, []) == w
  {
  }

  /** The receipt stored, Git run and the admission invalidated. */
  function Mid(s: Stage, row: Row, updaters: map<nat, Row>): World {
    World(Some(Admission(1, true, 1, 5, 7, Some(0))), Some(JOB.r), row, 6, 0, map[0 := s], updaters, History(map[0 := 1], {0}, None))
  }

  lemma Rebases() returns (es: seq<Event>)
    ensures Runs(BEFORE, es) && After(BEFORE, es) == Mid(Invalidated(JOB), BEFORE.row, map[])
  {
    hide Runs, After;
    es := Decides();
    Extend(BEFORE, es, Step(0, Draws(0)));
    var w1 := Next(With(Clear(REQUEST, PLAN, 0)), Step(0, Draws(0)));
    assert w1 == With(Rebasing(JOB)).(receipt := Some(JOB.r), history := History(map[], {0}, None));
    es := es + [Step(0, Draws(0))];
    Extend(BEFORE, es, Step(0, Ran(GitCompleted(6))));
    var w2 := Next(w1, Step(0, Ran(GitCompleted(6))));
    assert w2 == w1.(callers := map[0 := Moved(JOB)], head := 6, history := History(map[0 := 1], {0}, None));
    es := es + [Step(0, Ran(GitCompleted(6)))];
    Extend(BEFORE, es, Step(0, Succeeds));
    assert Next(w2, Step(0, Succeeds)) == Mid(Invalidated(JOB), BEFORE.row, map[]);
    es := es + [Step(0, Succeeds)];
  }

  /** A metadata update reads the row before the base is written and restores it after: REBASED, on the old base. */
  lemma BaseUpdateCanBeLost()
    ensures exists w: World, es: seq<Event>, e: Event ::
      && Fresh(w) && Runs(w, es) && e.Step? && Enabled(After(w, es), e)
      && Next(After(w, es), e).callers[e.id] == Done(REBASED) && Next(After(w, es), e).row.base == w.row.base
  {
    hide Runs, After;
    var es := Rebases();
    var stale := BEFORE.row;
    var rebased := stale.(base := 8);
    Extend(BEFORE, es, ReadRow(1));
    assert Next(Mid(Invalidated(JOB), stale, map[]), ReadRow(1)) == Mid(Invalidated(JOB), stale, map[1 := stale]);
    es := es + [ReadRow(1)];
    Extend(BEFORE, es, Step(0, Succeeds));
    assert Next(Mid(Invalidated(JOB), stale, map[1 := stale]), Step(0, Succeeds)) == Mid(Updating(JOB, stale), stale, map[1 := stale]);
    es := es + [Step(0, Succeeds)];
    Extend(BEFORE, es, Step(0, Succeeds));
    assert Next(Mid(Updating(JOB, stale), stale, map[1 := stale]), Step(0, Succeeds)) == Mid(Completing(JOB), rebased, map[1 := stale]);
    es := es + [Step(0, Succeeds)];
    Extend(BEFORE, es, RestoreRow(1, Some(0)));
    var w := Next(Mid(Completing(JOB), rebased, map[1 := stale]), RestoreRow(1, Some(0)));
    assert w.row == stale && w.callers == map[0 := Completing(JOB)];
    es := es + [RestoreRow(1, Some(0))];
    assert Fresh(BEFORE) && After(BEFORE, es) == w && Enabled(w, Step(0, Succeeds));
    assert Next(w, Step(0, Succeeds)).callers[0] == Done(REBASED);
  }
}
