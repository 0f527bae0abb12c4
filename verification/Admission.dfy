/**
 Workspace admission receipts: a durable cell written by compare-and-swap, and the family of writers
 that read it, observe the workspace, and try to replace what they read.

 Identities, fingerprints and SHAs are only ever compared, so they are numbers.  The classifier of
 an observation against a receipt is a parameter.
 */
module Admission {
  import opened Prelude

  type Value = nat

  datatype Kind = Git | NonGit | OtherKind

  datatype Dirtiness = Clean | Dirty | Unknown

  datatype Place = Place(kind: Kind, project: Option<Value>, goal: Option<Value>, checkpoint: Option<Value>)

  datatype Source = Source(
    repository: Option<Value>, commonDir: Option<Value>, worktree: Option<Value>, branch: Option<Value>,
    baseRef: Option<Value>, baseSha: Option<Value>, mergeBase: Option<Value>, remote: Option<Value>
  )

  datatype Content = Content(expectedHead: Value, observedHead: Value, dirty: Dirtiness, dirtyPrint: Value, stagedPrint: Option<Value>)

  /** `generation` stands for the joined identity that runtimeAdmissionGeneration compares. */
  datatype Runtime = Runtime(generation: Value, buildDirty: bool)

  datatype Receipt = Receipt(
    place: Place, source: Source, content: Content, runtime: Runtime,
    lease: nat, generation: nat, invalidated: bool, expires: Option<nat>
  )

  datatype Writer = Writer(lease: Option<nat>, expires: Option<nat>)

  datatype Seen = Seen(head: Option<Value>, dirty: Dirtiness, dirtyPrint: Option<Value>, stagedPrint: Option<Value>,
                       snapshot: Option<Value>, snapshotPrint: Option<Value>)

  datatype Observed = Observed(place: Place, source: Source, seen: Seen, writer: Writer)

  datatype Status = ADMITTED | RUNTIME_GENERATION_CHANGED | WORKSPACE_STATE_CHANGED | RECOVERY_REQUIRED | OTHER_STATUS

  /** classifyWorkspaceAdmission of a receipt against an observation, under a lease and a runtime generation. */
  type Classifier = (Receipt, Observed, nat, Value) -> Status

  /** What a writer learns besides the receipt: observation, runtime identity, the clock. */
  datatype Context = Context(observed: Option<Observed>, runtime: Option<Runtime>, now: nat, classify: Classifier)

  datatype Binding = Binding(goal: Value, lease: nat, generation: nat, head: Value, dirtyPrint: Value, stagedPrint: Value)

  datatype Op =
    | Classify                       // classifyAdmissionBestEffort, the heart of validation and refresh
    | Progress(b: Binding)           // recordSuccessfulWorkspaceMutation
    | RecoverStaged(b: Binding)
    | RecoverUnstaged(b: Binding)

  datatype Verdict = Reported(status: Status, generation: Option<nat>) | Threw

  /** The outcome of a decision: an answer, or a swap.  After a captured first receipt the classification resumes. */
  datatype Decision =
    | Answer(verdict: Verdict)
    | Swap(expected: nat, lease: nat, next: Receipt, won: Verdict, lost: Verdict, resumes: bool)

  const NO_PROOF := Answer(Reported(RECOVERY_REQUIRED, None))

  predicate Lives(w: Writer, now: nat) { w.lease.Some? && w.expires.Some? && w.expires.value > now }

  predicate Usable(r: Receipt, now: nat) { !r.invalidated && (r.expires.Some? ==> r.expires.value > now) }

  // ---------------------------------------------------------------- classification

  predicate GitProof(o: Observed, now: nat) {
    && o.place.kind == Git && o.seen.head.Some? && o.seen.dirtyPrint.Some? && o.seen.stagedPrint.Some?
    && o.source.repository.Some? && o.source.commonDir.Some? && o.source.worktree.Some?
    && o.source.baseRef.Some? && o.source.baseSha.Some? && o.source.mergeBase.Some?
    && o.place.goal.Some? && o.place.project.Some? && Lives(o.writer, now)
  }

  predicate SnapshotProof(o: Observed, now: nat) {
    o.seen.snapshot.Some? && o.seen.snapshotPrint.Some? && o.place.goal.Some? && o.place.project.Some? && Lives(o.writer, now)
  }

  function FirstGit(o: Observed, runtime: Runtime): Receipt
    requires o.seen.head.Some? && o.seen.dirtyPrint.Some? && o.writer.lease.Some?
  {
    Receipt(o.place, o.source, Content(o.seen.head.value, o.seen.head.value, Clean, o.seen.dirtyPrint.value, o.seen.stagedPrint),
            runtime, o.writer.lease.value, 1, false, None)
  }

  function FirstNonGit(o: Observed, runtime: Runtime): Receipt
    requires o.seen.snapshot.Some? && o.seen.snapshotPrint.Some? && o.writer.lease.Some?
  {
    Receipt(o.place, Source(None, None, o.seen.snapshot, None, None, None, None, None),
            Content(o.seen.snapshot.value, o.seen.snapshot.value, Clean, o.seen.snapshotPrint.value, None),
            runtime, o.writer.lease.value, 1, false, None)
  }

  function Renewed(r: Receipt, lease: nat, runtime: Runtime): Receipt {
    r.(lease := lease, runtime := runtime, generation := r.generation + 1)
  }

  function Refresh(r: Receipt, lease: nat, next: Receipt): Decision {
    Swap(r.generation, lease, next, Reported(ADMITTED, Some(r.generation + 1)), Reported(RECOVERY_REQUIRED, Some(r.generation)), false)
  }

  function ClassifyGit(c: Context, o: Observed, runtime: Runtime, r: Receipt): Decision
    requires GitProof(o, c.now)
  {
    var lease := o.writer.lease.value;
    if !Usable(r, c.now) then Answer(Reported(RECOVERY_REQUIRED, Some(r.generation)))
    else if r.place != o.place || o.source.branch != r.source.branch || o.seen.dirty != r.content.dirty || o.seen.stagedPrint != r.content.stagedPrint
    then Answer(Reported(WORKSPACE_STATE_CHANGED, Some(r.generation)))
    else
      var status := c.classify(r, o, lease, runtime.generation);
      var sameLease := c.classify(r, o, r.lease, runtime.generation);
      if status == WORKSPACE_STATE_CHANGED && lease != r.lease && (sameLease == ADMITTED || sameLease == RUNTIME_GENERATION_CHANGED)
      then Refresh(r, lease, Renewed(r, lease, if sameLease == ADMITTED then r.runtime else runtime))
      else if status != RUNTIME_GENERATION_CHANGED then Answer(Reported(status, Some(r.generation)))
      else Refresh(r, lease, Renewed(r, r.lease, runtime))
  }

  function ClassifyNonGit(c: Context, o: Observed, runtime: Runtime, r: Receipt): Decision
    requires SnapshotProof(o, c.now)
  {
    if !Usable(r, c.now) then Answer(Reported(RECOVERY_REQUIRED, Some(r.generation)))
    else if r.place != o.place || r.content.expectedHead != o.seen.snapshot.value || r.content.observedHead != o.seen.snapshot.value
         || r.content.dirtyPrint != o.seen.snapshotPrint.value || Some(r.lease) != o.writer.lease
    then Answer(Reported(WORKSPACE_STATE_CHANGED, Some(r.generation)))
    else if r.runtime.generation == runtime.generation then Answer(Reported(ADMITTED, Some(r.generation)))
    else Refresh(r, o.writer.lease.value, Renewed(r, r.lease, runtime))
  }

  function DecideClassify(c: Context, read: Option<Receipt>): Decision {
    if c.observed.None? || c.observed.value.seen.dirty == Unknown then NO_PROOF else
      var o := c.observed.value;
      if !(if o.place.kind == NonGit then SnapshotProof(o, c.now) else GitProof(o, c.now)) then NO_PROOF
      else if c.runtime.None? || c.runtime.value.buildDirty then NO_PROOF
      else match read
        case Some(r) => if o.place.kind == NonGit then ClassifyNonGit(c, o, c.runtime.value, r) else ClassifyGit(c, o, c.runtime.value, r)
        case None =>
          if o.place.kind == NonGit
          then Swap(0, o.writer.lease.value, FirstNonGit(o, c.runtime.value),
                    Reported(ADMITTED, Some(1)), Reported(RECOVERY_REQUIRED, None), false)
          else if o.seen.dirty != Clean then NO_PROOF
          else Swap(0, o.writer.lease.value, FirstGit(o, c.runtime.value), Threw, Reported(RECOVERY_REQUIRED, None), true)
  }

  // ---------------------------------------------------------------- progress and recovery

  predicate SameSource(o: Observed, r: Receipt) {
    && o.source.repository == r.source.repository && o.source.commonDir == r.source.commonDir && o.source.worktree == r.source.worktree
    && o.source.branch == r.source.branch && o.source.baseRef == r.source.baseRef && o.source.baseSha == r.source.baseSha
    && o.source.mergeBase == r.source.mergeBase && o.source.remote == r.source.remote
  }

  predicate BoundTo(c: Context, b: Binding, o: Observed, r: Receipt) {
    && o.seen.dirty != Unknown && o.writer.lease == Some(b.lease) && Lives(o.writer, c.now)
    && o.place.goal == Some(b.goal) && o.place == r.place && r.generation == b.generation && Usable(r, c.now)
  }

  function DecideProgress(c: Context, b: Binding, read: Option<Receipt>): Decision {
    if c.runtime.None? || c.runtime.value.buildDirty || read.None? || c.observed.None? then Answer(Threw) else
      var o, r := c.observed.value, read.value;
      var nonGit := o.place.kind == NonGit;
      if !BoundTo(c, b, o, r) || r.lease != b.lease || c.runtime.value.generation != r.runtime.generation then Answer(Threw)
      else if nonGit
      then
        if o.seen.snapshot.None? || o.seen.snapshotPrint.None? || r.content.expectedHead != o.seen.snapshot.value
           || r.content.observedHead != o.seen.snapshot.value || r.source.worktree != o.seen.snapshot
        then Answer(Threw)
        else Proceed(b, r, r.(content := Content(o.seen.snapshot.value, o.seen.snapshot.value, o.seen.dirty, o.seen.snapshotPrint.value, Some(0)),
                              generation := r.generation + 1))
      else
        if o.place.kind != Git || o.seen.head.None? || o.seen.dirtyPrint.None? || o.seen.stagedPrint.None? || !SameSource(o, r)
        then Answer(Threw)
        else Proceed(b, r, r.(content := Content(o.seen.head.value, o.seen.head.value, o.seen.dirty, o.seen.dirtyPrint.value, o.seen.stagedPrint),
                              generation := r.generation + 1))
  }

  function Proceed(b: Binding, r: Receipt, next: Receipt): Decision {
    Swap(b.generation, b.lease, next, Reported(ADMITTED, Some(b.generation + 1)), Threw, false)
  }

  /** The two recoveries differ in which fingerprint must have moved. */
  function DecideRecovery(c: Context, b: Binding, staged: bool, read: Option<Receipt>): Decision {
    if c.runtime.None? || c.runtime.value.buildDirty || read.None? || c.observed.None? then Answer(Threw) else
      var o, r := c.observed.value, read.value;
      if !BoundTo(c, b, o, r) || o.place.kind != Git || o.seen.dirty != Dirty || !SameSource(o, r) || r.lease > b.lease
         || o.seen.head != Some(b.head) || r.content.expectedHead != b.head || r.content.observedHead != b.head
         || o.seen.stagedPrint != Some(b.stagedPrint) || o.seen.dirtyPrint.None?
         || (staged && o.seen.stagedPrint == r.content.stagedPrint)
         || (!staged && (o.seen.dirtyPrint != Some(b.dirtyPrint) || o.seen.stagedPrint != r.content.stagedPrint
                         || b.dirtyPrint == r.content.dirtyPrint))
      then Answer(Threw)
      else Proceed(b, r, r.(content := Content(b.head, b.head, o.seen.dirty, o.seen.dirtyPrint.value, o.seen.stagedPrint),
                            runtime := c.runtime.value, lease := b.lease, generation := b.generation + 1))
  }

  function Decide(op: Op, c: Context, read: Option<Receipt>): Decision {
    match op
    case Classify => DecideClassify(c, read)
    case Progress(b) => DecideProgress(c, b, read)
    case RecoverStaged(b) => DecideRecovery(c, b, true, read)
    case RecoverUnstaged(b) => DecideRecovery(c, b, false, read)
  }

  // ---------------------------------------------------------------- the durable cell

  function GenerationOf(cell: Option<Receipt>): nat { if cell.None? then 0 else cell.value.generation }

  /** compareAndSwapAdmissionReceipt; `accepts` is false when the repository throws or finds the receipt malformed. */
  predicate Swaps(cell: Option<Receipt>, live: Option<nat>, expected: nat, lease: nat, next: Receipt, accepts: bool) {
    && accepts && next.lease == lease && next.generation == expected + 1 && lease >= 1
    && live == Some(lease) && GenerationOf(cell) == expected
  }

  class ReceiptCell {
    var cell: Option<Receipt>
    var live: Option<nat>            // the writer lease, if it is held and not expired

    constructor ()
      ensures cell == None && live == None
    {
      cell, live := None, None;
    }

    method CompareAndSwap(expected: nat, lease: nat, next: Receipt, accepts: bool) returns (saved: bool)
      modifies this`cell
      ensures saved <==> Swaps(old(cell), live, expected, lease, next, accepts)
      ensures cell == if saved then Some(next) else old(cell)
    {
      if next.lease != lease || next.generation != expected + 1 || lease < 1 || !accepts { return false; }
      if live != Some(lease) { return false; }
      var stored := if cell.None? then 0 else cell.value.generation;
      if stored != expected { return false; }
      cell := Some(next);
      return true;
    }

    /** invalidateAdmissionReceipt keeps the generation. */
    method Invalidate(expected: nat) returns (done: bool)
      modifies this`cell
      ensures done <==> old(cell).Some? && old(cell).value.generation == expected
      ensures cell == if done then Some(old(cell).value.(invalidated := true)) else old(cell)
    {
      if cell.None? || cell.value.generation != expected { return false; }
      cell := Some(cell.value.(invalidated := true));
      return true;
    }
  }
}
