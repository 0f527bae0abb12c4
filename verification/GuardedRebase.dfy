/**
 The guarded rebase of a goal worktree, as a durable-receipt protocol.

 Each await of `rebaseStaleBase` is a stage at which the caller may crash, and between any two of
 its steps other callers, admission writers and revocations, lease changes, commits and metadata updates may occur.
 A workspace row is always restored as a whole, lease included.
 */
module GuardedRebase {
  import opened Prelude

  type Sha = nat

  datatype Lease = Lease(id: nat, generation: nat, expiresAt: nat)

  /** The durable workspace row. */
  datatype Row = Row(base: Sha, checkpoint: Option<nat>, lease: Option<Lease>)

  datatype Admission = Admission(generation: nat, invalidated: bool, lease: nat, head: Sha, base: Sha, checkpoint: Option<nat>)

  /** What the decision fixes. */
  datatype Plan = Plan(generation: nat, lease: nat, oldHead: Sha, oldBase: Sha, newBase: Sha, startedAt: nat)

  datatype Status = STARTED | COMPLETED | NEEDS_RECOVERY

  datatype Receipt = Receipt(op: nat, revision: nat, status: Status, plan: Plan)

  datatype Request = Request(leaseId: nat, leaseGeneration: nat, generation: nat)

  datatype Outcome = REBASED | RECOVERY_REQUIRED | FAILED | CONFLICT

  /** A caller that holds the `started` receipt `r`; `finishedAt` is the time Git returned. */
  datatype Job = Job(q: Request, r: Receipt, finishedAt: nat)

  datatype Stage =
    | Asked(q: Request)                        // about to find the workspace
    | HasRow(q: Request, row: Row, at: nat)    // about to read the admission receipt
    | HasAdmission(q: Request, row: Row, at: nat, a: Admission)  // about to observe Git and decide
    | Permitted(q: Request, plan: Plan)        // about to read the latest rebase receipt
    | Clear(q: Request, plan: Plan, revision: nat)      // about to store `started`
    | Rebasing(j: Job)                         // about to run Git
    | Fencing(j: Job, threw: bool)         // Git failed: about to invalidate the admission
    | Settling(j: Job, fenced: bool, threw: bool)   // about to store `recovery_required`
    | Moved(j: Job)                            // Git moved the head: about to invalidate the admission
    | Invalidated(j: Job)                      // about to find the workspace again
    | Updating(j: Job, row: Row)               // about to restore the row with the new base
    | Completing(j: Job)                       // about to store `completed`
    | Done(outcome: Outcome)

  datatype History = History(
    moved: map<nat, nat>,            // operations that may have moved the head -> their admission generation
    used: set<nat>,                  // operation ids drawn
    restored: Option<Sha>            // the base in the row a metadata update last restored, since a rebase last wrote the base
  )

  datatype World = World(
    admission: Option<Admission>,
    receipt: Option<Receipt>,
    row: Row,
    head: Sha,
    now: nat,
    callers: map<nat, Stage>,
    updaters: map<nat, Row>,         // recordCheckpoint and the like, between their read and their restore
    history: History
  )

  // ---------------------------------------------------------------- ports

  /** What observation and remote refresh report. */
  datatype Evidence = Evidence(head: Sha, sameContent: bool, clean: bool, baseRefKept: bool, newBase: Sha, ancestor: bool,
                               remoteMoved: bool, published: bool)

  datatype Git =
    | GitCompleted(newHead: Sha)
    | GitAborted(after: Sha, restored: bool)   // a conflict or failure, after the attempt to abort
    | GitError(after: Sha)

  datatype Reply = Succeeds | Fails | Reports(e: Evidence) | Draws(op: nat) | Ran(g: Git)

  datatype Event =
    | Call(id: nat, q: Request)
    | Step(id: nat, reply: Reply)
    | Crash(id: nat)
    | Clock(to: nat)
    | Acquire(lease: Lease)
    | WriteAdmission(a: Admission)
    | Commit(head: Sha)
    | ReadRow(id: nat)
    | RestoreRow(id: nat, checkpoint: Option<nat>)
    | ReleaseLease
    | RevokeAdmission

  // ---------------------------------------------------------------- guards

  predicate Live(row: Row, now: nat) { row.lease.Some? && row.lease.value.expiresAt > now }

  predicate Holder(q: Request, row: Row, now: nat) {
    Live(row, now) && row.lease.value.id == q.leaseId && row.lease.value.generation == q.leaseGeneration
  }

  predicate Admits(q: Request, row: Row, a: Admission) {
    && !a.invalidated && a.generation == q.generation && a.lease == q.leaseGeneration
    && a.checkpoint.Some? && row.checkpoint == a.checkpoint && a.base == row.base
  }

  /** decideGuardedBaseRebase, given that the earlier guards hold. */
  predicate Allowed(a: Admission, e: Evidence) {
    e.head == a.head && e.sameContent && e.clean && e.baseRefKept && e.newBase != a.base && e.ancestor && !e.remoteMoved && !e.published
  }

  function RevisionOf(receipt: Option<Receipt>): nat { if receipt.None? then 0 else receipt.value.revision }

  /** compareAndSwapBaseRebaseReceipt; the lease must outlive the time stamped on the receipt. */
  predicate Swaps(w: World, expected: nat, next: Receipt, stamp: nat) {
    && next.revision == expected + 1 && RevisionOf(w.receipt) == expected
    && Live(w.row, stamp) && w.row.lease.value.generation == next.plan.lease
    && w.admission.Some? && w.admission.value.generation == next.plan.generation
    && (next.status != STARTED && w.receipt.Some? ==> w.receipt.value.op == next.op)
  }

  predicate Invalidates(w: World, generation: nat) { w.admission.Some? && w.admission.value.generation == generation }

  function Invalidate(w: World): World
    requires w.admission.Some?
  {
    w.(admission := Some(w.admission.value.(invalidated := true)))
  }

  predicate Accepts(w: World, s: Stage, reply: Reply) {
    match s
    case HasAdmission(_, _, _, _) => reply.Fails? || (reply.Reports? && reply.e.head == w.head)
    case Clear(_, _, _) => reply.Fails? || (reply.Draws? && reply.op !in w.history.used)
    case Rebasing(j) =>
      && reply.Ran?
      && (reply.g.GitCompleted? ==> w.head == j.r.plan.oldHead)
      && (reply.g.GitAborted? ==> w.head == j.r.plan.oldHead && (reply.g.restored ==> reply.g.after == j.r.plan.oldHead))
      && (reply.g.GitError? && w.head != j.r.plan.oldHead ==> reply.g.after == w.head)
    case Done(_) => false
    case _ => reply.Succeeds? || reply.Fails?
  }

  predicate Enabled(w: World, e: Event) {
    match e
    case Call(id, _) => id !in w.callers
    case Step(id, reply) => id in w.callers && Accepts(w, w.callers[id], reply)
    case Crash(id) => id in w.callers
    case Clock(to) => to >= w.now
    case Acquire(lease) => (Live(w.row, w.now) ==> lease.id == w.row.lease.value.id)
    case WriteAdmission(a) => a.generation == (if w.admission.None? then 0 else w.admission.value.generation) + 1
    case Commit(_) => true
    case ReadRow(id) => id !in w.updaters
    case RestoreRow(id, _) => id in w.updaters
    case ReleaseLease => true
    case RevokeAdmission => w.admission.Some?
  }

  // ---------------------------------------------------------------- transitions

  function At(w: World, id: nat, s: Stage): World { w.(callers := w.callers[id := s]) }

  function Store(w: World, r: Receipt): World { w.(receipt := Some(r)) }

  function Finished(r: Receipt, status: Status): Receipt { r.(revision := r.revision + 1, status := status) }

  function GitReturns(w: World, id: nat, job: Job, g: Git): World {
    var j := job.(finishedAt := w.now);
    match g
    case GitCompleted(newHead) => At(Move(w, j.r, newHead), id, Moved(j))
    case GitAborted(after, restored) =>
      if restored then At(w, id, Settling(j, true, false)) else At(Move(w, j.r, after), id, Fencing(j, false))
    case GitError(after) => At(Move(w, j.r, after), id, Fencing(j, true))
  }

  function Move(w: World, r: Receipt, head: Sha): World {
    w.(head := head, history := w.history.(moved := w.history.moved[r.op := r.plan.generation]))
  }

  /** The row as it was read, with the new base. */
  function WriteBase(w: World, row: Row, base: Sha): World {
    w.(row := row.(base := base), history := w.history.(restored := None))
  }

  function StepOf(w: World, id: nat, s: Stage, reply: Reply): World
    requires Accepts(w, s, reply)
  {
    if reply.Fails? && !s.Updating? then At(w, id, Done(FAILED)) else
    match s
    case Asked(q) => At(w, id, if Holder(q, w.row, w.now) then HasRow(q, w.row, w.now) else Done(RECOVERY_REQUIRED))
    case HasRow(q, row, at) =>
      At(w, id, if w.admission.Some? && Admits(q, row, w.admission.value) then HasAdmission(q, row, at, w.admission.value)
                else Done(RECOVERY_REQUIRED))
    case HasAdmission(q, row, at, a) =>
      At(w, id, if Allowed(a, reply.e) then Permitted(q, Plan(a.generation, a.lease, reply.e.head, a.base, reply.e.newBase, at))
                else Done(RECOVERY_REQUIRED))
    case Permitted(q, plan) =>
      At(w, id, if w.receipt.Some? && w.receipt.value.status != COMPLETED then Done(RECOVERY_REQUIRED)
                else Clear(q, plan, RevisionOf(w.receipt)))
    case Clear(q, plan, revision) =>
      var r := Receipt(reply.op, revision + 1, STARTED, plan);
      var w1 := w.(history := w.history.(used := w.history.used + {reply.op}));
      if Swaps(w, revision, r, plan.startedAt) then At(Store(w1, r), id, Rebasing(Job(q, r, 0))) else At(w1, id, Done(RECOVERY_REQUIRED))
    case Rebasing(j) => GitReturns(w, id, j, reply.g)
    case Fencing(j, threw) =>
      if Invalidates(w, j.r.plan.generation) then At(Invalidate(w), id, Settling(j, true, threw)) else At(w, id, Settling(j, false, threw))
    case Settling(j, fenced, threw) =>
      var next := Finished(j.r, NEEDS_RECOVERY);
      if Swaps(w, j.r.revision, next, j.finishedAt) then At(Store(w, next), id, Done(if !fenced then CONFLICT else if threw then FAILED else RECOVERY_REQUIRED))
      else At(w, id, Done(CONFLICT))
    case Moved(j) =>
      if Invalidates(w, j.r.plan.generation) then At(Invalidate(w), id, Invalidated(j)) else At(w, id, Settling(j, true, false))
    case Invalidated(j) => At(w, id, if Holder(j.q, w.row, w.now) then Updating(j, w.row) else Settling(j, true, false))
    case Updating(j, row) =>
      if reply.Fails? then At(w, id, Settling(j, true, false))
      else At(WriteBase(w, row, j.r.plan.newBase), id, Completing(j))
    case Completing(j) =>
      var next := Finished(j.r, COMPLETED);
      if Swaps(w, j.r.revision, next, j.finishedAt) then At(Store(w, next), id, Done(REBASED)) else At(w, id, Done(RECOVERY_REQUIRED))
  }

  function Next(w: World, e: Event): World
    requires Enabled(w, e)
  {
    match e
    case Call(id, q) => At(w, id, Asked(q))
    case Step(id, reply) => StepOf(w, id, w.callers[id], reply)
    case Crash(id) => w.(callers := w.callers - {id})
    case Clock(to) => w.(now := to)
    case Acquire(lease) => w.(row := w.row.(lease := Some(lease)))
    case WriteAdmission(a) => w.(admission := Some(a))
    case Commit(head) => w.(head := head)
    case ReadRow(id) => w.(updaters := w.updaters[id := w.row])
    case RestoreRow(id, checkpoint) =>
      w.(row := w.updaters[id].(checkpoint := checkpoint), updaters := w.updaters - {id},
         history := w.history.(restored := Some(w.updaters[id].base)))
    case ReleaseLease => w.(row := w.row.(lease := None))
    case RevokeAdmission => Invalidate(w)
  }

  predicate Runs(w: World, es: seq<Event>)
    decreases |es|
  {
    es == [] || (Enabled(w, es[0]) && Runs(Next(w, es[0]), es[1..]))
  }

  function After(w: World, es: seq<Event>): World
    requires Runs(w, es)
    decreases |es|
  {
    if es == [] then w else After(Next(w, es[0]), es[1..])
  }

  /** No rebase yet and nobody calling. */
  predicate Fresh(w: World) {
    w.receipt.None? && w.callers == map[] && w.updaters == map[] && w.history == History(map[], {}, None)
  }
}
