/** What an invalidated receipt can still be replaced by. */
module AdmissionInvalidation {
  import opened Prelude
  import opened Admission
  import opened AdmissionChain

  predicate Valid(s: Store) { s.cell.Some? && !s.cell.value.invalidated }

  // ---------------------------------------------------------------- what every stored receipt proves

  predicate Proven(r: Receipt) {
    && r.lease >= 1 && r.expires.None? && r.place.goal.Some? && r.place.project.Some?
    && r.content.dirty != Unknown && r.content.expectedHead == r.content.observedHead
    && match r.place.kind
       case Git =>
         && r.content.stagedPrint.Some?
         && r.source.repository.Some? && r.source.commonDir.Some? && r.source.worktree.Some?
         && r.source.baseRef.Some? && r.source.baseSha.Some? && r.source.mergeBase.Some?
       case NonGit => r.source.worktree == Some(r.content.expectedHead)
       case OtherKind => false
  }

  ghost predicate AllProven(s: Store) { forall r <- s.history :: Proven(r) }

  lemma ClassifyProves(c: Context, read: Option<Receipt>)
    requires read.Some? ==> Proven(read.value)
    ensures var d := DecideClassify(c, read); d.Swap? && d.lease >= 1 && d.next.lease == d.lease ==> Proven(d.next)
  {
  }

  lemma BoundProves(op: Op, c: Context, read: Option<Receipt>)
    requires !op.Classify? && (read.Some? ==> Proven(read.value))
    ensures var d := Decide(op, c, read); d.Swap? && d.lease >= 1 && d.next.lease == d.lease ==> Proven(d.next)
  {
  }

  lemma DecisionsProve(op: Op, c: Context, read: Option<Receipt>)
    requires read.Some? ==> Proven(read.value)
    ensures var d := Decide(op, c, read); d.Swap? && d.lease >= 1 && d.next.lease == d.lease ==> Proven(d.next)
  {
    if op.Classify? { ClassifyProves(c, read); } else { BoundProves(op, c, read); }
    hide DecideClassify, DecideProgress, DecideRecovery, Proven;
  }

  lemma ReadIsProven(s: Store, id: nat)
    requires Sound(s) && AllProven(s) && id in s.processes && s.processes[id].read.Some?
    ensures var r := s.processes[id].read.value.receipt; r.Some? ==> Proven(r.value)
  {
    var read := s.processes[id].read.value;
    assert ReadsHistory(s.history, read);
    if read.receipt.Some? { assert Proven(s.history[read.at - 1]); }
  }

  lemma ProvenStep(s: Store, e: Event)
    requires Sound(s) && AllProven(s) && Enabled(s, e)
    ensures AllProven(Next(s, e))
  {
    if e.Act? {
      ReadIsProven(s, e.id);
      DecisionsProve(s.processes[e.id].op, e.context, s.processes[e.id].read.value.receipt);
    }
    hide Decide, Proven, Sound;
  }

  lemma {:induction false} ProvenRun(s: Store, es: seq<Event>)
    requires Sound(s) && AllProven(s) && Runs(s, es)
    ensures Sound(After(s, es)) && AllProven(After(s, es))
    decreases |es|
  {
    hide Sound, AllProven, Next, Enabled;
    if es != [] {
      StepSound(s, es[0]);
      ProvenStep(s, es[0]);
      ProvenRun(Next(s, es[0]), es[1..]);
    }
  }

  // ---------------------------------------------------------------- which copies can still be used

  /** The operation suits the receipt: a binding names its goal, generation and lease, and a recovery its head and its change. */
  predicate Fits(op: Op, r: Receipt) {
    match op
    case Classify => true
    case Progress(b) => r.generation == b.generation && r.place.goal == Some(b.goal) && r.lease == b.lease
    case RecoverStaged(b) => Recovers(b, r) && r.content.stagedPrint != Some(b.stagedPrint)
    case RecoverUnstaged(b) => Recovers(b, r) && r.content.stagedPrint == Some(b.stagedPrint) && r.content.dirtyPrint != b.dirtyPrint
  }

  predicate Recovers(b: Binding, r: Receipt) {
    r.place.kind == Git && r.generation == b.generation && r.place.goal == Some(b.goal) && r.lease <= b.lease && r.content.expectedHead == b.head
  }

  lemma SwapsNeedFit(op: Op, c: Context, r: Receipt)
    requires Decide(op, c, Some(r)).Swap?
    ensures Fits(op, r)
  {
  }

  /** An observation under which an operation that fits replaces the receipt. */
  function Suitable(op: Op, r: Receipt): Context {
    var content := r.content;
    var seen :=
      match op
      case RecoverStaged(b) => Seen(Some(b.head), Dirty, Some(0), Some(b.stagedPrint), None, None)
      case RecoverUnstaged(b) => Seen(Some(b.head), Dirty, Some(b.dirtyPrint), Some(b.stagedPrint), None, None)
      case _ =>
        if r.place.kind == NonGit then Seen(None, Clean, None, None, Some(content.expectedHead), Some(content.dirtyPrint))
        else Seen(Some(0), content.dirty, Some(0), content.stagedPrint, None, None);
    var generation := if op.Classify? then r.runtime.generation + 1 else r.runtime.generation;
    Context(Some(Observed(r.place, r.source, seen, Writer(Some(LeaseOf(op, r)), Some(1)))), Some(Runtime(generation, false)), 0,
            (_, _, _, _) => RUNTIME_GENERATION_CHANGED)
  }

  function LeaseOf(op: Op, r: Receipt): nat { if op.Classify? then r.lease else op.b.lease }

  lemma FitsSwaps(op: Op, r: Receipt)
    requires Proven(r) && !r.invalidated && Fits(op, r)
    ensures var d := Decide(op, Suitable(op, r), Some(r));
      d.Swap? && d.expected == r.generation && d.lease == LeaseOf(op, r) >= 1 && d.next.lease == d.lease
      && d.next.generation == r.generation + 1 && !d.next.invalidated
  {
  }

  // ---------------------------------------------------------------- exactly when the cell can become valid again

  /** A process holds a copy of the last receipt that predates its invalidation, and its operation fits it. */
  predicate UsableCopy(s: Store, id: nat) {
    && id in s.processes && s.processes[id].read.Some?
    && var read := s.processes[id].read.value;
       read.at == |s.history| && read.receipt.Some? && !read.receipt.value.invalidated && Fits(s.processes[id].op, read.receipt.value)
  }

  ghost predicate SomeUsableCopy(s: Store) { exists id :: UsableCopy(s, id) }

  predicate Invalidated(s: Store) { s.cell.Some? && s.cell.value.invalidated }

  lemma WinnerHoldsCopy(s: Store, id: nat, c: Context, accepts: bool)
    requires Sound(s) && Enabled(s, Act(id, c, accepts)) && s.cell.Some? && Wins(s, DecisionOf(s, id, c), accepts)
    ensures UsableCopy(s, id)
  {
    var read := s.processes[id].read.value;
    DecisionsBuildOnReads(s.processes[id].op, c, read.receipt);
    WinnerIsCurrent(s, id, c, accepts);
    assert ReadsHistory(s.history, read);
    SwapsNeedFit(s.processes[id].op, c, read.receipt.value);
  }

  /** Without such a copy nothing happens to the cell. */
  lemma InvalidStep(s: Store, e: Event)
    requires Sound(s) && Enabled(s, e) && Invalidated(s) && !SomeUsableCopy(s)
    ensures Next(s, e).cell == s.cell && Next(s, e).history == s.history && !SomeUsableCopy(Next(s, e))
  {
    var t := Next(s, e);
    if e.Act? {
      if Wins(s, DecisionOf(s, e.id, e.context), e.accepts) { WinnerHoldsCopy(s, e.id, e.context, e.accepts); }
    }
    hide Decide, Sound, Fits;
    assert t.history == s.history;
    forall id ensures !UsableCopy(t, id) { assert !UsableCopy(s, id); }
  }

  lemma {:induction false} StaysInvalid(s: Store, es: seq<Event>)
    requires Sound(s) && Runs(s, es) && Invalidated(s) && !SomeUsableCopy(s)
    ensures After(s, es).cell == s.cell && After(s, es).history == s.history
    decreases |es|
  {
    hide Sound, Next, Enabled, SomeUsableCopy;
    if es != [] {
      StepSound(s, es[0]);
      InvalidStep(s, es[0]);
      StaysInvalid(Next(s, es[0]), es[1..]);
    }
  }

  /** With such a copy, the writer lease it needs and a suitable observation replace the receipt. */
  lemma CopyRevalidates(s: Store, id: nat) returns (es: seq<Event>)
    requires Sound(s) && AllProven(s) && UsableCopy(s, id)
    ensures Runs(s, es) && Valid(After(s, es))
  {
    var op, r := s.processes[id].op, s.processes[id].read.value.receipt.value;
    ReadIsProven(s, id);
    FitsSwaps(op, r);
    assert ReadsHistory(s.history, s.processes[id].read.value);
    assert GenerationOf(s.cell) == |s.history| == r.generation;
    hide Decide, Suitable, Sound, AllProven, Fits, Proven;
    var e0, e1 := MoveLease(Some(LeaseOf(op, r))), Act(id, Suitable(op, r), true);
    var t := Next(s, e0);
    assert Wins(t, DecisionOf(t, id, Suitable(op, r)), true);
    assert Valid(Next(t, e1));
    RunsNil(Next(t, e1));
    RunsCons(t, e1, []);
    RunsCons(s, e0, [e1] + []);
    es := [e0] + ([e1] + []);
  }

  /**
   Invalidation keeps the generation, so it does not stop a writer that read before it.  In every
   reachable store an invalidated cell can become valid again exactly when some process still holds
   a copy of it from before the invalidation and its operation fits that copy.
   */
  lemma RevalidatedExactlyWhen(es: seq<Event>)
    requires Runs(EMPTY, es) && Invalidated(After(EMPTY, es))
    ensures var s := After(EMPTY, es); (exists fs :: Runs(s, fs) && Valid(After(s, fs))) <==> SomeUsableCopy(s)
  {
    ProvenRun(EMPTY, es);
    var s := After(EMPTY, es);
    hide Sound, AllProven, Runs, After, UsableCopy;
    if id :| UsableCopy(s, id) {
      var fs := CopyRevalidates(s, id);
      assert Runs(s, fs);
    } else {
      forall fs | Runs(s, fs) ensures !Valid(After(s, fs)) { StaysInvalid(s, fs); }
    }
  }

  lemma RunsCons(s: Store, e: Event, es: seq<Event>)
    requires Enabled(s, e) && Runs(Next(s, e), es)
    ensures Runs(s, [e] + es) && After(s, [e] + es) == After(Next(s, e), es)
  {
    assert ([e] + es)[1..] == es;
  }

  /** A clean Git workspace under lease 1, seen by a classifier that asks for a runtime refresh. */
  function Witness(): Context {
    Context(Some(Observed(Place(Git, Some(0), Some(0), None),
                          Source(Some(0), Some(0), Some(0), None, Some(0), Some(0), Some(0), None),
                          Seen(Some(0), Clean, Some(0), Some(0), None, None), Writer(Some(1), Some(1)))),
            Some(Runtime(0, false)), 0, (_, _, _, _) => RUNTIME_GENERATION_CHANGED)
  }

  lemma WitnessCaptures()
    ensures var d := Decide(Classify, Witness(), None);
      d.Swap? && d.expected == 0 && d.lease == 1 && d.resumes && d.next == FirstGit(Witness().observed.value, Runtime(0, false))
    ensures var r := FirstGit(Witness().observed.value, Runtime(0, false));
            var d := Decide(Classify, Witness(), Some(r));
      d.Swap? && d.expected == 1 && d.lease == 1 && !d.resumes && d.next == Renewed(r, 1, Runtime(0, false))
  {
  }

  /** The overtaking happens: a receipt is captured, invalidated, and replaced by a valid one by the writer that captured it. */
  lemma InvalidationCanBeOvertaken()
    ensures exists es: seq<Event>, e: Event ::
      && Runs(EMPTY, es) && Enabled(After(EMPTY, es), e)
      && Invalidated(After(EMPTY, es)) && Valid(Next(After(EMPTY, es), e))
  {
    hide Runs, After, Decide;
    WitnessCaptures();
    var c, r := Witness(), FirstGit(Witness().observed.value, Runtime(0, false));
    hide Witness, FirstGit;
    var e0, e1, e2, e3, e4 := Begin(0, Classify), MoveLease(Some(1)), ReadReceipt(0), Act(0, c, true), Invalidate(1);
    var s1 := Store(None, None, map[0 := Process(Classify, None)], []);
    assert Next(EMPTY, e0) == s1;
    var s2 := s1.(live := Some(1));
    var s3 := s2.(processes := map[0 := Process(Classify, Some(Read(None, 0)))]);
    assert Next(s2, e2) == s3;
    var s4 := Store(Some(r), Some(1), map[0 := Process(Classify, Some(Read(Some(r), 1)))], [r]);
    assert Next(s3, e3) == s4;
    var s5 := s4.(cell := Some(r.(invalidated := true)));
    assert Next(s4, e4) == s5;
    RunsNil(s5);
    RunsCons(s4, e4, []);
    RunsCons(s3, e3, [e4] + []);
    RunsCons(s2, e2, [e3] + ([e4] + []));
    RunsCons(s1, e1, [e2] + ([e3] + ([e4] + [])));
    RunsCons(EMPTY, e0, [e1] + ([e2] + ([e3] + ([e4] + []))));
    assert Valid(Next(s5, e3));
  }

  lemma RunsNil(s: Store)
    ensures Runs(s, []) && After(s, []) == s
  {
  }
}
