/**
 Catching a goal's snapshot up with the shared event log.

 The log of a workspace is one ascending sequence of records of many goals.  While a catch-up runs,
 other producers append and retention prunes; `final` is the log as it ends up and `views(k)` the
 window of it that the k-th read of the event repository sees.  The projector is any partial
 function; `None` is its `reject`.
 */
module GoalReplay {
  import opened Prelude

  datatype Record<+E> = Record(sequence: nat, goal: nat, event: E, recordedAt: nat)

  datatype Snapshot<+P> = Snapshot(projection: P, last: nat, updatedAt: nat)

  datatype View = View(oldest: nat, end: nat)

  datatype Failure = ReplayWindowMissed | ProjectionRejected | GoalNotFound

  predicate Ascending<E>(log: seq<Record<E>>) {
    && (forall i :: 0 <= i < |log| ==> log[i].sequence > 0)
    && forall i, j :: 0 <= i < j < |log| ==> log[i].sequence < log[j].sequence
  }

  /** Appends and prunings only move a window forward, and pruning never removes the newest record. */
  ghost predicate Windows(views: nat -> View, size: nat) {
    forall j: nat, k: nat :: j <= k ==>
      views(j).oldest <= views(k).oldest <= views(k).end <= size && views(j).end <= views(k).end
      && (views(k).end > 0 ==> views(k).oldest < views(k).end)
  }

  /** How many records have a sequence of at most `after`. */
  function Seen<E>(log: seq<Record<E>>, after: nat): (n: nat)
    requires Ascending(log)
    ensures n <= |log|
    ensures forall i :: 0 <= i < n ==> log[i].sequence <= after
    ensures forall i :: n <= i < |log| ==> log[i].sequence > after
  {
    if log == [] then 0
    else if log[|log| - 1].sequence <= after then |log|
    else Seen(log[..|log| - 1], after)
  }

  lemma SeenAt<E>(log: seq<Record<E>>, i: nat)
    requires Ascending(log) && i < |log|
    ensures Seen(log, log[i].sequence) == i + 1
  {
    assert i + 1 < |log| ==> log[i + 1].sequence > log[i].sequence;
  }

  lemma SeenGrows<E>(log: seq<Record<E>>, a: nat, b: nat)
    requires Ascending(log) && a <= b
    ensures Seen(log, a) <= Seen(log, b)
  {
  }

  /** The records of one goal. */
  function Own<E>(log: seq<Record<E>>, goal: nat): (own: seq<Record<E>>)
    ensures |own| <= |log|
  {
    if log == [] then []
    else if log[|log| - 1].goal == goal then Own(log[..|log| - 1], goal) + [log[|log| - 1]]
    else Own(log[..|log| - 1], goal)
  }

  function Fold<P, E>(project: (P, E) -> Option<P>, p: P, rs: seq<Record<E>>): Option<P> {
    if rs == [] then Some(p) else
      match Fold(project, p, rs[..|rs| - 1])
      case None => None
      case Some(q) => project(q, rs[|rs| - 1].event)
  }

  /** The fold that passes over rejected records. */
  function FoldSkipping<P, E>(project: (P, E) -> Option<P>, p: P, rs: seq<Record<E>>): P {
    if rs == [] then p else
      var q := FoldSkipping(project, p, rs[..|rs| - 1]);
      match project(q, rs[|rs| - 1].event)
      case None => q
      case Some(r) => r
  }

  function LastOf<E>(rs: seq<Record<E>>, otherwise: nat): nat { if rs == [] then otherwise else rs[|rs| - 1].sequence }

  // ---------------------------------------------------------------- laws of the fold

  lemma LastOfAppend<E>(a: seq<Record<E>>, b: seq<Record<E>>, otherwise: nat)
    ensures LastOf(a + b, otherwise) == LastOf(b, LastOf(a, otherwise))
  {
  }

  lemma {:induction false} OwnAppend<E>(a: seq<Record<E>>, b: seq<Record<E>>, goal: nat)
    ensures Own(a + b, goal) == Own(a, goal) + Own(b, goal)
  {
    if b == [] {
      assert a + b == a;
    } else {
      OwnAppend(a, b[..|b| - 1], goal);
      assert (a + b)[..|a + b| - 1] == a + b[..|b| - 1];
    }
  }

  lemma {:induction false} FoldAppend<P, E>(project: (P, E) -> Option<P>, p: P, a: seq<Record<E>>, b: seq<Record<E>>)
    ensures Fold(project, p, a + b) ==
              match Fold(project, p, a) case None => None case Some(q) => Fold(project, q, b)
  {
    if b == [] {
      assert a + b == a;
    } else {
      FoldAppend(project, p, a, b[..|b| - 1]);
      assert (a + b)[..|a + b| - 1] == a + b[..|b| - 1];
    }
  }

  /** The projection and cursor that follow `from` when its goal's records up to place `n` are folded in. */
  ghost predicate Folds<P, E>(project: (P, E) -> Option<P>, log: seq<Record<E>>, goal: nat, from: Snapshot<P>, n: nat, to: Snapshot<P>)
    requires Ascending(log)
  {
    && Seen(log, from.last) <= n <= |log|
    && var own := Own(log[Seen(log, from.last)..n], goal);
       Fold(project, from.projection, own) == Some(to.projection) && to.last == LastOf(own, from.last)
  }

  lemma Slices<E>(log: seq<Record<E>>, a: nat, b: nat, c: nat, goal: nat)
    requires a <= b <= c <= |log|
    ensures Own(log[a..c], goal) == Own(log[a..b], goal) + Own(log[b..c], goal)
  {
    assert log[a..c] == log[a..b] + log[b..c];
    OwnAppend(log[a..b], log[b..c], goal);
  }

  /** After the last record of the goal there is none. */
  lemma {:induction false} LastIsLast<E>(log: seq<Record<E>>, a: nat, n: nat, goal: nat) returns (i: nat)
    requires a <= n <= |log| && Own(log[a..n], goal) != []
    ensures a <= i < n && log[i] == Own(log[a..n], goal)[|Own(log[a..n], goal)| - 1] && Own(log[i + 1..n], goal) == []
    decreases n
  {
    assert log[a..n][..n - a - 1] == log[a..n - 1];
    if log[n - 1].goal == goal {
      i := n - 1;
    } else {
      i := LastIsLast(log, a, n - 1, goal);
      assert log[i + 1..n][..n - i - 2] == log[i + 1..n - 1];
    }
  }

  /** No record of the goal lies between the cursor and the place the fold has reached. */
  lemma NoneBeyondCursor<P, E>(project: (P, E) -> Option<P>, log: seq<Record<E>>, goal: nat, from: Snapshot<P>, n: nat, to: Snapshot<P>)
    requires Ascending(log) && Folds(project, log, goal, from, n, to)
    ensures Seen(log, from.last) <= Seen(log, to.last) <= n && Own(log[Seen(log, to.last)..n], goal) == []
  {
    hide Fold;
    if Own(log[Seen(log, from.last)..n], goal) != [] {
      var i := LastIsLast(log, Seen(log, from.last), n, goal);
      SeenAt(log, i);
    }
  }

  /** Catching up can stop at any stored snapshot and go on from there: two folds make one. */
  lemma FoldsChain<P, E>(project: (P, E) -> Option<P>, log: seq<Record<E>>, goal: nat,
                         s: Snapshot<P>, m: nat, t: Snapshot<P>, n: nat, u: Snapshot<P>)
    requires Ascending(log) && Folds(project, log, goal, s, m, t) && Folds(project, log, goal, t, n, u) && m <= n
    ensures Folds(project, log, goal, s, n, u)
  {
    hide Fold, Own, Seen;
    var a, b := Seen(log, s.last), Seen(log, t.last);
    NoneBeyondCursor(project, log, goal, s, m, t);
    Slices(log, a, b, m, goal);
    assert Own(log[a..m], goal) == Own(log[a..b], goal);
    Slices(log, a, b, n, goal);
    FoldAppend(project, s.projection, Own(log[a..b], goal), Own(log[b..n], goal));
    LastOfAppend(Own(log[a..b], goal), Own(log[b..n], goal), s.last);
  }
}
