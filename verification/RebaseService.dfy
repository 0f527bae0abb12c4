/**
 The repository row, the two receipts and the methods of `rebaseStaleBase` between its awaits.  Each
 method is proved to take the protocol's step of the caller's stage.
 */
module RebaseObject {
  import opened Prelude
  import opened GuardedRebase

  class GoalWorkspaceService {
    var admission: Option<Admission>
    var receipt: Option<Receipt>
    var row: Row
    var head: Sha
    var now: nat
    var callers: map<nat, Stage>
    var updaters: map<nat, Row>
    ghost var history: History

    ghost function View(): World
      reads this
    {
      World(admission, receipt, row, head, now, callers, updaters, history)
    }

    constructor (admission: Option<Admission>, row: Row, head: Sha, now: nat)
      ensures View() == World(admission, None, row, head, now, map[], map[], History(map[], {}, None))
      ensures Fresh(View())
    {
      this.admission, this.row, this.head, this.now := admission, row, head, now;
      receipt, callers, updaters, history := None, map[], map[], History(map[], {}, None);
    }

    // ---------------------------------------------------------------- repository ports

    method CompareAndSwapBaseRebaseReceipt(expected: nat, next: Receipt, stamp: nat) returns (saved: bool)
      modifies this`receipt
      ensures saved <==> Swaps(old(View()), expected, next, stamp)
      ensures View() == if saved then Store(old(View()), next) else old(View())
    {
      if next.revision != expected + 1 { return false; }
      if row.lease.None? || row.lease.value.generation != next.plan.lease || row.lease.value.expiresAt <= stamp { return false; }
      if admission.None? || admission.value.generation != next.plan.generation { return false; }
      var stored := if receipt.None? then 0 else receipt.value.revision;
      if stored != expected { return false; }
      if receipt.Some? && next.status != STARTED && receipt.value.op != next.op { return false; }
      receipt := Some(next);
      return true;
    }

    method InvalidateAdmissionReceipt(generation: nat) returns (invalidated: bool)
      modifies this`admission
      ensures invalidated <==> Invalidates(old(View()), generation)
      ensures View() == if invalidated then Invalidate(old(View())) else old(View())
    {
      if admission.None? || admission.value.generation != generation { return false; }
      admission := Some(admission.value.(invalidated := true));
      return true;
    }

    method Suspend(id: nat, s: Stage)
      modifies this`callers
      ensures View() == At(old(View()), id, s)
    {
      callers := callers[id := s];
    }

    // ---------------------------------------------------------------- rebaseStaleBase

    method FindWorkspace(id: nat)
      requires id in callers && callers[id].Asked?
      modifies this`callers
      ensures View() == StepOf(old(View()), id, old(callers)[id], Succeeds)
    {
      var q := callers[id].q;
      if row.lease.None? || row.lease.value.id != q.leaseId || row.lease.value.generation != q.leaseGeneration
         || row.lease.value.expiresAt <= now {
        Suspend(id, Done(RECOVERY_REQUIRED));
        return;
      }
      Suspend(id, HasRow(q, row, now));
    }

    method ReadAdmission(id: nat)
      requires id in callers && callers[id].HasRow?
      modifies this`callers
      ensures View() == StepOf(old(View()), id, old(callers)[id], Succeeds)
    {
      var s := callers[id];
      if admission.None? || admission.value.invalidated || admission.value.generation != s.q.generation
         || admission.value.lease != s.q.leaseGeneration || admission.value.checkpoint.None?
         || s.row.checkpoint != admission.value.checkpoint || admission.value.base != s.row.base {
        Suspend(id, Done(RECOVERY_REQUIRED));
        return;
      }
      Suspend(id, HasAdmission(s.q, s.row, s.at, admission.value));
    }

    method Decide(id: nat, e: Evidence)
      requires id in callers && callers[id].HasAdmission? && e.head == head
      modifies this`callers
      ensures View() == StepOf(old(View()), id, old(callers)[id], Reports(e))
    {
      var s := callers[id];
      if s.a.head != e.head || !e.sameContent || !e.clean || !e.baseRefKept || s.a.base == e.newBase || !e.ancestor
         || e.remoteMoved || e.published {
        Suspend(id, Done(RECOVERY_REQUIRED));
        return;
      }
      Suspend(id, Permitted(s.q, Plan(s.a.generation, s.a.lease, e.head, s.a.base, e.newBase, s.at)));
    }

    method ReadRebaseReceipt(id: nat)
      requires id in callers && callers[id].Permitted?
      modifies this`callers
      ensures View() == StepOf(old(View()), id, old(callers)[id], Succeeds)
    {
      var s := callers[id];
      if receipt.Some? && (receipt.value.status == STARTED || receipt.value.status == NEEDS_RECOVERY) {
        Suspend(id, Done(RECOVERY_REQUIRED));
        return;
      }
      Suspend(id, Clear(s.q, s.plan, if receipt.None? then 0 else receipt.value.revision));
    }

    method StoreStarted(id: nat, op: nat)
      requires id in callers && callers[id].Clear? && op !in history.used
      modifies this`receipt, this`callers, this`history
      ensures View() == StepOf(old(View()), id, old(callers)[id], Draws(op))
    {
      var s := callers[id];
      var started := Receipt(op, s.revision + 1, STARTED, s.plan);
      var saved := CompareAndSwapBaseRebaseReceipt(s.revision, started, s.plan.startedAt);
      history := history.(used := history.used + {op});
      if saved { Suspend(id, Rebasing(Job(s.q, started, 0))); } else { Suspend(id, Done(RECOVERY_REQUIRED)); }
    }

    method RunGit(id: nat, g: Git)
      requires id in callers && callers[id].Rebasing? && Accepts(View(), callers[id], Ran(g))
      modifies this`head, this`callers, this`history
      ensures View() == StepOf(old(View()), id, old(callers)[id], Ran(g))
    {
      var j := callers[id].j.(finishedAt := now);
      var restoredExactly := g.GitAborted? && g.restored;
      if !restoredExactly {
        head := if g.GitCompleted? then g.newHead else g.after;
        history := history.(moved := history.moved[j.r.op := j.r.plan.generation]);
      }
      match g {
        case GitCompleted(_) => Suspend(id, Moved(j));
        case GitAborted(_, restored) => Suspend(id, if restored then Settling(j, true, false) else Fencing(j, false));
        case GitError(_) => Suspend(id, Fencing(j, true));
      }
    }

    method FenceAdmission(id: nat)
      requires id in callers && callers[id].Fencing?
      modifies this`admission, this`callers
      ensures View() == StepOf(old(View()), id, old(callers)[id], Succeeds)
    {
      var s := callers[id];
      var invalidated := InvalidateAdmissionReceipt(s.j.r.plan.generation);
      Suspend(id, Settling(s.j, invalidated, s.threw));
    }

    method StoreRecovery(id: nat)
      requires id in callers && callers[id].Settling?
      modifies this`receipt, this`callers
      ensures View() == StepOf(old(View()), id, old(callers)[id], Succeeds)
    {
      var s := callers[id];
      var saved := CompareAndSwapBaseRebaseReceipt(s.j.r.revision, Finished(s.j.r, NEEDS_RECOVERY), s.j.finishedAt);
      Suspend(id, Done(if !s.fenced || !saved then CONFLICT else if s.threw then FAILED else RECOVERY_REQUIRED));
    }

    method InvalidateAdmission(id: nat)
      requires id in callers && callers[id].Moved?
      modifies this`admission, this`callers
      ensures View() == StepOf(old(View()), id, old(callers)[id], Succeeds)
    {
      var j := callers[id].j;
      var invalidated := InvalidateAdmissionReceipt(j.r.plan.generation);
      if invalidated { Suspend(id, Invalidated(j)); } else { Suspend(id, Settling(j, true, false)); }
    }

    /** updateGoalWorkspace, up to its restore. */
    method FindWorkspaceAgain(id: nat)
      requires id in callers && callers[id].Invalidated?
      modifies this`callers
      ensures View() == StepOf(old(View()), id, old(callers)[id], Succeeds)
    {
      var j := callers[id].j;
      if row.lease.None? || row.lease.value.expiresAt <= now || row.lease.value.id != j.q.leaseId
         || row.lease.value.generation != j.q.leaseGeneration {
        Suspend(id, Settling(j, true, false));
        return;
      }
      Suspend(id, Updating(j, row));
    }

    /** ... and the restore, of the whole row as it was read. */
    method RestoreWithNewBase(id: nat, restored: bool)
      requires id in callers && callers[id].Updating?
      modifies this`row, this`callers, this`history
      ensures View() == StepOf(old(View()), id, old(callers)[id], if restored then Succeeds else Fails)
    {
      var s := callers[id];
      if !restored { Suspend(id, Settling(s.j, true, false)); return; }
      row := s.row.(base := s.j.r.plan.newBase);
      history := history.(restored := None);
      Suspend(id, Completing(s.j));
    }

    method StoreCompleted(id: nat)
      requires id in callers && callers[id].Completing?
      modifies this`receipt, this`callers
      ensures View() == StepOf(old(View()), id, old(callers)[id], Succeeds)
    {
      var j := callers[id].j;
      var saved := CompareAndSwapBaseRebaseReceipt(j.r.revision, Finished(j.r, COMPLETED), j.finishedAt);
      Suspend(id, Done(if saved then REBASED else RECOVERY_REQUIRED));
    }
  }
}
