/** Any number of admission writers over one receipt cell, interleaved at will. */
module AdmissionChain {
  import opened Prelude
  import opened Admission

  /** What a writer has read, and how many receipts had been stored by then. */
  datatype Read = Read(receipt: Option<Receipt>, at: nat)

  datatype Process = Process(op: Op, read: Option<Read>)

  datatype Store = Store(
    cell: Option<Receipt>,
    live: Option<nat>,
    processes: map<nat, Process>,
    history: seq<Receipt>            // every receipt a swap has stored, in order
  )

  datatype Event =
    | Begin(id: nat, op: Op)
    | ReadReceipt(id: nat)
    | Act(id: nat, context: Context, accepts: bool)   // decide, and swap if the decision is to swap
    | Invalidate(expected: nat)
    | MoveLease(live: Option<nat>)

  const EMPTY := Store(None, None, map[], [])

  predicate Enabled(s: Store, e: Event) {
    match e
    case Begin(id, _) => id !in s.processes
    case ReadReceipt(id) => id in s.processes && s.processes[id].read.None?
    case Act(id, _, _) => id in s.processes && s.processes[id].read.Some?
    case _ => true
  }

  function DecisionOf(s: Store, id: nat, c: Context): Decision
    requires id in s.processes && s.processes[id].read.Some?
  {
    Decide(s.processes[id].op, c, s.processes[id].read.value.receipt)
  }

  predicate Wins(s: Store, d: Decision, accepts: bool) {
    d.Swap? && Swaps(s.cell, s.live, d.expected, d.lease, d.next, accepts)
  }

  function Next(s: Store, e: Event): Store
    requires Enabled(s, e)
  {
    match e
    case Begin(id, op) => s.(processes := s.processes[id := Process(op, None)])
    case ReadReceipt(id) => s.(processes := s.processes[id := s.processes[id].(read := Some(Read(s.cell, |s.history|)))])
    case Act(id, c, accepts) =>
      var d := DecisionOf(s, id, c);
      if !Wins(s, d, accepts) then s.(processes := s.processes - {id})
      else
        var rest := if d.resumes then s.processes[id := s.processes[id].(read := Some(Read(Some(d.next), |s.history| + 1)))]
                    else s.processes - {id};
        Store(Some(d.next), s.live, rest, s.history + [d.next])
    case Invalidate(expected) =>
      if s.cell.None? || s.cell.value.generation != expected then s else s.(cell := Some(s.cell.value.(invalidated := true)))
    case MoveLease(live) => s.(live := live)
  }

  /** What the writer that acts reports; None while a captured first receipt is still being classified. */
  function VerdictOf(s: Store, e: Event): Option<Verdict>
    requires e.Act? && Enabled(s, e)
  {
    match DecisionOf(s, e.id, e.context)
    case Answer(v) => Some(v)
    case Swap(_, _, _, won, lost, resumes) =>
      if !Wins(s, DecisionOf(s, e.id, e.context), e.accepts) then Some(lost) else if resumes then None else Some(won)
  }

  predicate Runs(s: Store, es: seq<Event>)
    decreases |es|
  {
    es == [] || (Enabled(s, es[0]) && Runs(Next(s, es[0]), es[1..]))
  }

  function After(s: Store, es: seq<Event>): Store
    requires Runs(s, es)
    decreases |es|
  {
    if es == [] then s else After(Next(s, es[0]), es[1..])
  }

  // ---------------------------------------------------------------- the invariant

  /** Equal up to invalidation, which keeps everything else. */
  predicate SameButInvalidated(r: Receipt, q: Receipt) { r.(invalidated := false) == q.(invalidated := false) }

  predicate Numbered(history: seq<Receipt>) { forall k :: 0 <= k < |history| ==> history[k].generation == k + 1 }

  predicate OneIdentity(history: seq<Receipt>) {
    forall k :: 0 <= k < |history| ==> history[k].place == history[0].place && history[k].source == history[0].source
  }

  predicate CellIsLast(s: Store) {
    if s.history == [] then s.cell.None?
    else s.cell.Some? && SameButInvalidated(s.cell.value, s.history[|s.history| - 1])
  }

  /** What a process holds is the receipt that was stored last when it read. */
  predicate ReadsHistory(history: seq<Receipt>, r: Read) {
    && r.at <= |history|
    && (if r.at == 0 then r.receipt.None? else r.receipt.Some? && SameButInvalidated(r.receipt.value, history[r.at - 1]))
  }

  predicate Sound(s: Store) {
    && Numbered(s.history) && OneIdentity(s.history) && CellIsLast(s)
    && forall id <- s.processes :: s.processes[id].read.Some? ==> ReadsHistory(s.history, s.processes[id].read.value)
  }

  /** Every decision builds on the receipt that was read: its successor generation, and its place and source. */
  lemma DecisionsBuildOnReads(op: Op, c: Context, read: Option<Receipt>)
    ensures var d := Decide(op, c, read);
      && (d.Swap? && read.None? ==> d.expected == 0 && d.next.generation == 1 && !d.next.invalidated)
      && (d.Swap? && read.Some? ==>
            && d.expected == read.value.generation && d.next.generation == read.value.generation + 1
            && d.next.place == read.value.place && d.next.source == read.value.source
            && !read.value.invalidated && !d.next.invalidated && !d.resumes)
      && (d.Swap? && d.won != Threw ==> d.won == Reported(ADMITTED, Some(d.next.generation)))
      && (d.Swap? && d.won == Threw ==> d.resumes)
      && (d.Swap? ==> d.lost == Threw || (d.lost.Reported? && d.lost.status == RECOVERY_REQUIRED))
      && (d.Answer? && d.verdict.Reported? && d.verdict.status == ADMITTED ==>
            read.Some? && d.verdict.generation == Some(read.value.generation) && !read.value.invalidated)
  {
  }

  lemma ActSound(s: Store, id: nat, c: Context, accepts: bool)
    requires Sound(s) && Enabled(s, Act(id, c, accepts))
    ensures Sound(Next(s, Act(id, c, accepts)))
  {
    var read := s.processes[id].read.value;
    DecisionsBuildOnReads(s.processes[id].op, c, read.receipt);
    hide Decide, Swaps;
    var d := DecisionOf(s, id, c);
    if Wins(s, d, accepts) { WinnerIsCurrent(s, id, c, accepts); }
  }

  /** A swap succeeds only for a writer that read the receipt stored last. */
  lemma WinnerIsCurrent(s: Store, id: nat, c: Context, accepts: bool)
    requires Sound(s) && Enabled(s, Act(id, c, accepts)) && Wins(s, DecisionOf(s, id, c), accepts)
    ensures s.processes[id].read.value.at == |s.history|
    ensures DecisionOf(s, id, c).next.generation == |s.history| + 1
  {
    DecisionsBuildOnReads(s.processes[id].op, c, s.processes[id].read.value.receipt);
    hide Decide;
  }

  lemma {:induction false} RunSound(s: Store, es: seq<Event>)
    requires Sound(s) && Runs(s, es)
    ensures Sound(After(s, es))
    decreases |es|
  {
    if es != [] {
      StepSound(s, es[0]);
      RunSound(Next(s, es[0]), es[1..]);
    }
  }

  lemma StepSound(s: Store, e: Event)
    requires Sound(s) && Enabled(s, e)
    ensures Sound(Next(s, e))
  {
    if e.Act? { ActSound(s, e.id, e.context, e.accepts); }
  }

  // ---------------------------------------------------------------- theorems

  /**
   The admission chain.  After any interleaving the stored receipts are generations 1, 2, 3, ..., each
   stored by one winner; place (kind, project, goal, checkpoint) and source (repository, worktree,
   branch, base) never change along it; and the cell is its last element, perhaps invalidated.
   */
  lemma OneChain(es: seq<Event>)
    requires Runs(EMPTY, es)
    ensures var s := After(EMPTY, es);
      && (forall k :: 0 <= k < |s.history| ==>
            && s.history[k].generation == k + 1
            && s.history[k].place == s.history[0].place && s.history[k].source == s.history[0].source)
      && GenerationOf(s.cell) == |s.history|
      && (s.history != [] ==> s.cell.Some? && SameButInvalidated(s.cell.value, s.history[|s.history| - 1]))
  {
    RunSound(EMPTY, es);
  }

  /** Nothing is ever unwritten: the chain only grows, by at most one receipt a step. */
  lemma ChainGrows(s: Store, e: Event)
    requires Enabled(s, e)
    ensures s.history <= Next(s, e).history && |Next(s, e).history| <= |s.history| + 1
    ensures |Next(s, e).history| == |s.history| + 1 <==> e.Act? && Wins(s, DecisionOf(s, e.id, e.context), e.accepts)
  {
  }

  /** validateWorkspaceAdmission, given the verdict of its classification. */
  predicate Accepts(v: Verdict, c: Context, goal: Value, lease: nat, expected: Option<nat>) {
    && v.Reported? && v.status == ADMITTED && expected.Some? && v.generation == expected
    && c.observed.Some? && c.observed.value.place.goal == Some(goal) && c.observed.value.writer.lease == Some(lease)
  }

  /**
   A validation that read its receipt when `at` receipts had been stored accepts no generation below
   `at`: once a swap has superseded a generation, no validation that reads afterwards accepts it.
   The generation it does accept is the one it read, or the one it has just stored itself.
   */
  lemma NoSupersededGeneration(es: seq<Event>, e: Event, goal: Value, lease: nat, expected: Option<nat>)
    requires Runs(EMPTY, es) && e.Act? && Enabled(After(EMPTY, es), e) && After(EMPTY, es).processes[e.id].op == Classify
    requires VerdictOf(After(EMPTY, es), e).Some? && Accepts(VerdictOf(After(EMPTY, es), e).value, e.context, goal, lease, expected)
    ensures var s := After(EMPTY, es);
            var at := s.processes[e.id].read.value.at;
      && at <= expected.value <= |Next(s, e).history|
      && (expected.value == at || (expected.value == |s.history| + 1 && at == |s.history| && Next(s, e).history != s.history))
  {
    RunSound(EMPTY, es);
    var s := After(EMPTY, es);
    hide Runs, After, Swaps;
    DecisionsBuildOnReads(Classify, e.context, s.processes[e.id].read.value.receipt);
    hide Decide;
    if Wins(s, DecisionOf(s, e.id, e.context), e.accepts) { WinnerIsCurrent(s, e.id, e.context, e.accepts); }
  }
}
