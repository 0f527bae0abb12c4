/** What the rebase protocol keeps under every interleaving and every crash. */
module RebaseSafety {
  import opened Prelude
  import opened GuardedRebase

  /** The caller has stored `started` and not yet tried to replace it. */
  predicate Holds(s: Stage) {
    s.Rebasing? || s.Fencing? || s.Settling? || s.Moved? || s.Invalidated? || s.Updating? || s.Completing?
  }

  /** Admission generation `k` is invalidated or has been replaced. */
  predicate Superseded(w: World, k: nat) {
    w.admission.Some? && (w.admission.value.generation > k || (w.admission.value.generation == k && w.admission.value.invalidated))
  }

  predicate PastInvalidation(s: Stage) { s.Invalidated? || s.Updating? || s.Completing? }

  predicate Clears(receipt: Option<Receipt>) { receipt.None? || receipt.value.status == COMPLETED }

  /** What one caller's stage says about the durable state. */
  predicate StageOk(w: World, s: Stage) {
    && (Holds(s) ==> w.receipt == Some(s.j.r) && s.j.r.status == STARTED)
    && (s.Clear? ==> s.revision <= RevisionOf(w.receipt) && (s.revision == RevisionOf(w.receipt) ==> Clears(w.receipt)))
    && (PastInvalidation(s) ==> Superseded(w, s.j.r.plan.generation))
    && (s.Completing? ==> w.row.base == if w.history.restored.None? then s.j.r.plan.newBase else w.history.restored.value)
  }

  predicate Stages(w: World) { forall id <- w.callers :: StageOk(w, w.callers[id]) }

  /** At most one caller holds the latest receipt. */
  predicate OneHolder(w: World) { forall a <- w.callers, b <- w.callers :: Holds(w.callers[a]) && Holds(w.callers[b]) ==> a == b }

  predicate ReceiptOk(w: World) {
    w.receipt.Some? ==>
      && w.receipt.value.op in w.history.used
      && (w.receipt.value.status == COMPLETED ==> Superseded(w, w.receipt.value.plan.generation))
  }

  /** An operation that may have moved the head has its admission superseded, or is the latest, unfinished. */
  predicate MovedOk(w: World) {
    forall op <- w.history.moved ::
      op in w.history.used
      && (Superseded(w, w.history.moved[op]) || (w.receipt.Some? && w.receipt.value.op == op && w.receipt.value.status != COMPLETED
                                                 && w.receipt.value.plan.generation == w.history.moved[op]))
  }

  predicate Sound(w: World) { Stages(w) && OneHolder(w) && ReceiptOk(w) && MovedOk(w) }

  // ---------------------------------------------------------------- environment steps

  /** `v` differs from `w` in nothing the invariant speaks of, but for an admission that only moved on. */
  ghost predicate Calm(w: World, v: World) {
    && v.receipt == w.receipt && v.callers == w.callers && v.history.moved == w.history.moved && v.history.used == w.history.used
    && (forall k: nat :: Superseded(w, k) ==> Superseded(v, k))
    && (|| (v.row.base == w.row.base && v.history.restored == w.history.restored)
        || v.history.restored == Some(v.row.base))
  }

  lemma CalmKeeps(w: World, v: World)
    requires Sound(w) && Calm(w, v)
    ensures Sound(v)
  {
    assert forall id <- v.callers :: StageOk(w, v.callers[id]);
  }

  lemma EnvironmentIsCalm(w: World, e: Event)
    requires Enabled(w, e) && (e.Clock? || e.Acquire? || e.WriteAdmission? || e.Commit? || e.ReadRow? || e.RestoreRow? || e.ReleaseLease? || e.RevokeAdmission?)
    ensures Calm(w, Next(w, e))
  {
  }

  // ---------------------------------------------------------------- callers' steps

  /** A caller that does not hold the receipt moves to a stage that does not either. */
  lemma SetStage(w: World, id: nat, s: Stage)
    requires Sound(w) && StageOk(w, s)
    requires Holds(s) ==> id in w.callers && Holds(w.callers[id])
    ensures Sound(At(w, id, s))
  {
    var v := At(w, id, s);
    assert forall x <- v.callers :: x != id ==> x in w.callers && v.callers[x] == w.callers[x];
    assert forall x <- v.callers :: StageOk(v, v.callers[x]) <==> StageOk(w, v.callers[x]);
  }

  /** While a caller holds the receipt, the other callers hold nothing. */
  lemma OthersDoNotHold(w: World, id: nat)
    requires Sound(w) && id in w.callers && Holds(w.callers[id])
    ensures w.receipt == Some(w.callers[id].j.r) && w.receipt.value.status == STARTED
    ensures forall x <- w.callers :: x != id ==> !Holds(w.callers[x])
  {
    assert StageOk(w, w.callers[id]);
  }

  /** The holder stores its next receipt and is done. */
  lemma HolderFinishes(w: World, id: nat, status: Status, outcome: Outcome)
    requires Sound(w) && id in w.callers && Holds(w.callers[id]) && status != STARTED
    requires status == COMPLETED ==> Superseded(w, w.callers[id].j.r.plan.generation)
    ensures Sound(At(Store(w, Finished(w.callers[id].j.r, status)), id, Done(outcome)))
  {
    OthersDoNotHold(w, id);
    var v := At(Store(w, Finished(w.callers[id].j.r, status)), id, Done(outcome));
    forall x <- v.callers ensures StageOk(v, v.callers[x]) {
      if x != id { assert StageOk(w, w.callers[x]) && v.callers[x] == w.callers[x]; }
    }
  }

  lemma StarterWins(w: World, id: nat, reply: Reply)
    requires Sound(w) && id in w.callers && w.callers[id].Clear? && Accepts(w, w.callers[id], reply)
    ensures Sound(StepOf(w, id, w.callers[id], reply))
  {
    assert StageOk(w, w.callers[id]);
    if reply.Draws? {
      var q, plan, revision := w.callers[id].q, w.callers[id].plan, w.callers[id].revision;
      var r := Receipt(reply.op, revision + 1, STARTED, plan);
      var w1 := w.(history := w.history.(used := w.history.used + {reply.op}));
      CalmUse(w, w1);
      if Swaps(w, revision, r, plan.startedAt) {
        Starts(w1, id, q, r);
      } else {
        SetStage(w1, id, Done(RECOVERY_REQUIRED));
      }
    } else {
      SetStage(w, id, Done(FAILED));
    }
  }

  lemma CalmUse(w: World, v: World)
    requires Sound(w) && v == w.(history := w.history.(used := v.history.used)) && w.history.used <= v.history.used
    ensures Sound(v)
  {
    assert forall id <- v.callers :: StageOk(w, v.callers[id]);
  }

  /** Storing `started` over a finished receipt: nobody held that one, and every moved operation is superseded. */
  lemma Starts(w: World, id: nat, q: Request, r: Receipt)
    requires Sound(w) && id in w.callers && !Holds(w.callers[id]) && r.status == STARTED && r.op in w.history.used
    requires Clears(w.receipt) && r.revision == RevisionOf(w.receipt) + 1
    ensures Sound(At(Store(w, r), id, Rebasing(Job(q, r, 0))))
  {
    var v := At(Store(w, r), id, Rebasing(Job(q, r, 0)));
    forall x <- v.callers ensures StageOk(v, v.callers[x]) && (x != id ==> !Holds(v.callers[x])) {
      if x != id { assert StageOk(w, w.callers[x]) && v.callers[x] == w.callers[x]; }
    }
  }

  /** Git may have moved the head of the holder's operation. */
  lemma GitMoves(w: World, id: nat, s: Stage, head: Sha)
    requires Sound(w) && id in w.callers && w.callers[id].Rebasing?
    requires Holds(s) && !PastInvalidation(s) && s.j.r == w.callers[id].j.r
    ensures Sound(At(Move(w, s.j.r, head), id, s))
  {
    OthersDoNotHold(w, id);
    var v := Move(w, s.j.r, head);
    assert forall x <- v.callers :: StageOk(w, v.callers[x]);
    assert Sound(v);
    SetStage(v, id, s);
  }

  lemma InvalidateCalms(w: World)
    requires w.admission.Some?
    ensures Calm(w, Invalidate(w)) && Superseded(Invalidate(w), w.admission.value.generation)
  {
  }

  lemma HolderStep(w: World, id: nat, reply: Reply)
    requires Sound(w) && id in w.callers && Holds(w.callers[id]) && Accepts(w, w.callers[id], reply)
    ensures Sound(StepOf(w, id, w.callers[id], reply))
  {
    hide Sound, Calm, Swaps;
    assert StageOk(w, w.callers[id]) by { SoundStage(w, id); }
    var j := w.callers[id].j;
    if reply.Fails? && !w.callers[id].Updating? {
      SetStage(w, id, Done(FAILED));
    } else {
      match w.callers[id]
      case Rebasing(_) =>
        var k := j.(finishedAt := w.now);
        SetStage(w, id, Settling(k, true, false));
        GitMoves(w, id, Moved(k), if reply.g.GitCompleted? then reply.g.newHead else 0);
        GitMoves(w, id, Fencing(k, false), if reply.g.GitAborted? then reply.g.after else 0);
        GitMoves(w, id, Fencing(k, true), if reply.g.GitError? then reply.g.after else 0);
      case Fencing(_, threw) =>
        if Invalidates(w, j.r.plan.generation) {
          InvalidateCalms(w);
          CalmKeeps(w, Invalidate(w));
          SetStage(Invalidate(w), id, Settling(j, true, threw));
        } else { SetStage(w, id, Settling(j, false, threw)); }
      case Settling(_, fenced, threw) =>
        HolderFinishes(w, id, NEEDS_RECOVERY, if !fenced then CONFLICT else if threw then FAILED else RECOVERY_REQUIRED);
        SetStage(w, id, Done(CONFLICT));
      case Moved(_) =>
        if Invalidates(w, j.r.plan.generation) {
          InvalidateCalms(w);
          CalmKeeps(w, Invalidate(w));
          SetStage(Invalidate(w), id, Invalidated(j));
        } else { SetStage(w, id, Settling(j, true, false)); }
      case Invalidated(_) =>
        SetStage(w, id, Updating(j, w.row));
        SetStage(w, id, Settling(j, true, false));
      case Updating(_, row) =>
        SetStage(w, id, Settling(j, true, false));
        NewBase(w, id, row);
      case Completing(_) =>
        HolderFinishes(w, id, COMPLETED, REBASED);
        SetStage(w, id, Done(RECOVERY_REQUIRED));
      case _ =>
    }
  }

  lemma SoundStage(w: World, id: nat)
    requires Sound(w) && id in w.callers
    ensures StageOk(w, w.callers[id])
  {
  }

  lemma NewBase(w: World, id: nat, row: Row)
    requires Sound(w) && id in w.callers && w.callers[id].Updating?
    ensures var j := w.callers[id].j; Sound(At(WriteBase(w, row, j.r.plan.newBase), id, Completing(j)))
  {
    OthersDoNotHold(w, id);
    var j := w.callers[id].j;
    var v := WriteBase(w, row, j.r.plan.newBase);
    assert forall x <- v.callers :: StageOk(w, v.callers[x]);
    assert Sound(v);
    SetStage(v, id, Completing(j));
  }

  lemma EarlyStep(w: World, id: nat, reply: Reply)
    requires Sound(w) && id in w.callers && !Holds(w.callers[id]) && !w.callers[id].Clear? && Accepts(w, w.callers[id], reply)
    ensures Sound(StepOf(w, id, w.callers[id], reply))
  {
    hide Sound, Holder, Admits, Allowed;
    var v := StepOf(w, id, w.callers[id], reply);
    SetStage(w, id, v.callers[id]);
  }

  lemma StepSound(w: World, e: Event)
    requires Sound(w) && Enabled(w, e)
    ensures Sound(Next(w, e))
  {
    hide Sound, Calm, StepOf, Accepts;
    match e
    case Call(id, q) => SetStage(w, id, Asked(q));
    case Crash(id) => CrashSound(w, id);
    case Step(id, reply) =>
      if Holds(w.callers[id]) { HolderStep(w, id, reply); }
      else if w.callers[id].Clear? { StarterWins(w, id, reply); }
      else { EarlyStep(w, id, reply); }
    case _ =>
      EnvironmentIsCalm(w, e);
      CalmKeeps(w, Next(w, e));
  }

  lemma CrashSound(w: World, id: nat)
    requires Sound(w) && id in w.callers
    ensures Sound(w.(callers := w.callers - {id}))
  {
    assert forall x <- w.callers - {id} :: StageOk(w, w.callers[x]);
  }

  lemma {:induction false} RunSound(w: World, es: seq<Event>)
    requires Sound(w) && Runs(w, es)
    ensures Sound(After(w, es))
    decreases |es|
  {
    hide Sound, Next;
    if es != [] {
      StepSound(w, es[0]);
      RunSound(Next(w, es[0]), es[1..]);
    }
  }
}
