/**
 The multiplexed server-sent event stream (section 9.2 of the WHATWG HTML Standard): snapshots of
 several workspaces and one global cursor, then a polling pump over their merged event log.

 `log` holds the records of the selected workspaces, in ascending sequence.  Retention prunes each
 workspace on its own: `floor(w)` is the sequence below which its records are gone.
 */
module EventStream {
  import opened Prelude

  datatype Record = Record(sequence: nat, workspace: nat, goal: nat)

  datatype Bounds = Bounds(oldest: nat, latest: nat)

  datatype Snapshot = Snapshot(goal: nat, last: nat)

  /** One workspace's snapshot read; None if it timed out or failed. */
  datatype Read = Read(workspace: nat, snapshots: Option<seq<Snapshot>>)

  /** The log as one replay request sees it. */
  datatype View = View(end: nat, floor: nat -> nat)

  predicate Ascending(log: seq<Record>) {
    && (forall i :: 0 <= i < |log| ==> log[i].sequence > 0)
    && forall i, j :: 0 <= i < j < |log| ==> log[i].sequence < log[j].sequence
  }

  /** The retained records past a cursor. */
  function Retained(log: seq<Record>, floor: nat -> nat, after: nat): (rs: seq<Record>)
    ensures |rs| <= |log|
  {
    if log == [] then [] else
      var r, front := log[|log| - 1], Retained(log[..|log| - 1], floor, after);
      if r.sequence > after && r.sequence >= floor(r.workspace) then front + [r] else front
  }

  function OfWorkspace(rs: seq<Record>, w: nat): (own: seq<Record>)
    ensures |own| <= |rs|
  {
    if rs == [] then [] else
      var r, front := rs[|rs| - 1], OfWorkspace(rs[..|rs| - 1], w);
      if r.workspace == w then front + [r] else front
  }

  /** MIN and MAX of the retained sequences of a workspace. */
  function BoundsOf(log: seq<Record>, floor: nat -> nat, w: nat): Option<Bounds> {
    var own := OfWorkspace(Retained(log, floor, 0), w);
    if own == [] then None else Some(Bounds(own[0].sequence, own[|own| - 1].sequence))
  }

  function BoundsIn(log: seq<Record>, floor: nat -> nat): nat -> Option<Bounds> { (w: nat) => BoundsOf(log, floor, w) }

  /** No record was pruned. */
  const KEEP_ALL: nat -> nat := (_: nat) => 0

  function LatestOf(log: seq<Record>, floor: nat -> nat): Option<nat> {
    var rs := Retained(log, floor, 0);
    if rs == [] then None else Some(rs[|rs| - 1].sequence)
  }

  predicate MissedIn(bounds: Option<Bounds>, cursor: nat) { bounds.Some? && cursor + 1 < bounds.value.oldest }

  // ---------------------------------------------------------------- facts about filters

  lemma {:induction false} RetainedMembers(log: seq<Record>, floor: nat -> nat, after: nat)
    ensures forall r :: r in Retained(log, floor, after) <==> r in log && r.sequence > after && r.sequence >= floor(r.workspace)
  {
    if log != [] {
      RetainedMembers(log[..|log| - 1], floor, after);
      assert log == log[..|log| - 1] + [log[|log| - 1]];
    }
  }

  lemma {:induction false} OfWorkspaceMembers(rs: seq<Record>, w: nat)
    ensures forall r :: r in OfWorkspace(rs, w) <==> r in rs && r.workspace == w
  {
    if rs != [] {
      OfWorkspaceMembers(rs[..|rs| - 1], w);
      assert rs == rs[..|rs| - 1] + [rs[|rs| - 1]];
    }
  }

  lemma {:induction false} RetainedAscends(log: seq<Record>, floor: nat -> nat, after: nat)
    requires Ascending(log)
    ensures Ascending(Retained(log, floor, after))
  {
    if log != [] {
      var front := log[..|log| - 1];
      RetainedAscends(front, floor, after);
      RetainedMembers(front, floor, after);
      assert forall i :: 0 <= i < |Retained(front, floor, after)| ==> Retained(front, floor, after)[i] in front;
    }
  }

  lemma {:induction false} OfWorkspaceAscends(rs: seq<Record>, w: nat)
    requires Ascending(rs)
    ensures Ascending(OfWorkspace(rs, w))
  {
    if rs != [] {
      var front := rs[..|rs| - 1];
      OfWorkspaceAscends(front, w);
      OfWorkspaceMembers(front, w);
      assert forall i :: 0 <= i < |OfWorkspace(front, w)| ==> OfWorkspace(front, w)[i] in front;
    }
  }

  /** Bounds bound: a retained record lies between the bounds of its workspace, and below the latest of all. */
  lemma BoundsBound(log: seq<Record>, floor: nat -> nat, r: Record)
    requires Ascending(log) && r in log && r.sequence >= floor(r.workspace)
    ensures var b := BoundsOf(log, floor, r.workspace);
      b.Some? && b.value.oldest <= r.sequence <= b.value.latest && b.value.oldest > 0
    ensures LatestOf(log, floor).Some? && BoundsOf(log, floor, r.workspace).value.latest <= LatestOf(log, floor).value
  {
    var rs := Retained(log, floor, 0);
    RetainedMembers(log, floor, 0);
    RetainedAscends(log, floor, 0);
    var own := OfWorkspace(rs, r.workspace);
    OfWorkspaceMembers(rs, r.workspace);
    OfWorkspaceAscends(rs, r.workspace);
    hide Retained, OfWorkspace;
    assert r in rs && r in own;
    var last := own[|own| - 1];
    assert last in own && last in rs;
  }

  // ---------------------------------------------------------------- the cursor

  function Min(a: nat, b: nat): nat { if a <= b then a else b }

  function Max(a: nat, b: nat): nat { if a <= b then b else a }

  function Lowest(snapshots: seq<Snapshot>, start: nat): (m: nat)
    ensures m <= start && forall s <- snapshots :: m <= s.last
    ensures m == start || exists s <- snapshots :: m == s.last
  {
    if snapshots == [] then start else
      var m := Lowest(snapshots[..|snapshots| - 1], start);
      assert snapshots == snapshots[..|snapshots| - 1] + [snapshots[|snapshots| - 1]];
      Min(m, snapshots[|snapshots| - 1].last)
  }

  /** goalRuntimeSnapshotCursor, for a workspace with retained records. */
  function SnapshotCursor(snapshots: seq<Snapshot>, b: Bounds): nat {
    var floor := if b.oldest == 0 then 0 else b.oldest - 1;
    if snapshots == [] then Min(floor, b.latest)
    else Min(b.latest, Max(floor, Lowest(snapshots, b.latest)))
  }

  /** `new Map(reads.map(...))`: the last read of a workspace. */
  function SnapshotsIn(answers: seq<Read>, w: nat): seq<Snapshot> {
    if answers == [] then []
    else if answers[|answers| - 1].workspace == w
    then if answers[|answers| - 1].snapshots.Some? then answers[|answers| - 1].snapshots.value else []
    else SnapshotsIn(answers[..|answers| - 1], w)
  }

  function Lowered(cursor: nat, answers: seq<Read>, bounds: nat -> Option<Bounds>, w: nat): nat {
    if bounds(w).None? then cursor else
      var c := SnapshotCursor(SnapshotsIn(answers, w), bounds(w).value);
      if c < bounds(w).value.latest then Min(cursor, c) else cursor
  }

  function CursorAfter(ids: seq<nat>, answers: seq<Read>, bounds: nat -> Option<Bounds>, latest: Option<nat>): nat {
    if ids == [] then if latest.None? then 0 else latest.value
    else Lowered(CursorAfter(ids[..|ids| - 1], answers, bounds, latest), answers, bounds, ids[|ids| - 1])
  }

  /** multiplexedSnapshotCursor. */
  method MultiplexedSnapshotCursor(ids: seq<nat>, answers: seq<Read>, bounds: nat -> Option<Bounds>, latest: Option<nat>) returns (cursor: nat)
    ensures cursor == CursorAfter(ids, answers, bounds, latest)
  {
    cursor := if latest.None? then 0 else latest.value;
    var i := 0;
    while i < |ids|
      invariant 0 <= i <= |ids| && cursor == CursorAfter(ids[..i], answers, bounds, latest)
    {
      assert ids[..i + 1][..i] == ids[..i];
      if bounds(ids[i]).Some? {
        var workspaceCursor := SnapshotCursor(SnapshotsIn(answers, ids[i]), bounds(ids[i]).value);
        if workspaceCursor < bounds(ids[i]).value.latest { cursor := Min(cursor, workspaceCursor); }
      }
      i := i + 1;
    }
    assert ids[..i] == ids;
  }

  lemma {:induction false} CursorIsLow(ids: seq<nat>, answers: seq<Read>, bounds: nat -> Option<Bounds>, latest: Option<nat>, w: nat)
    requires w in ids && bounds(w).Some?
    ensures var c := SnapshotCursor(SnapshotsIn(answers, w), bounds(w).value);
      c < bounds(w).value.latest ==> CursorAfter(ids, answers, bounds, latest) <= c
  {
    if ids[|ids| - 1] != w { CursorIsLow(ids[..|ids| - 1], answers, bounds, latest, w); }
  }

  lemma {:induction false} CursorIsAtMostLatest(ids: seq<nat>, answers: seq<Read>, bounds: nat -> Option<Bounds>, latest: Option<nat>)
    ensures CursorAfter(ids, answers, bounds, latest) <= (if latest.None? then 0 else latest.value)
  {
    if ids != [] { CursorIsAtMostLatest(ids[..|ids| - 1], answers, bounds, latest); }
  }

  // ---------------------------------------------------------------- no loss

  /** The client has the effect of `r` from the snapshots it was sent. */
  predicate Covered(answers: seq<Read>, r: Record) {
    exists s <- SnapshotsIn(answers, r.workspace) :: s.goal == r.goal && r.sequence <= s.last
  }

  predicate Snapshotted(answers: seq<Read>, r: Record) {
    SnapshotsIn(answers, r.workspace) == [] || exists s <- SnapshotsIn(answers, r.workspace) :: s.goal == r.goal
  }

  /**
   No loss at the opening.  Every record retained by the page, whose goal has a snapshot in the read
   of its workspace (or whose read failed, or is empty), is covered by that snapshot or lies above
   the cursor; so does every record appended later.
   */
  lemma NoLoss(log: seq<Record>, floor: nat -> nat, ids: seq<nat>, answers: seq<Read>, r: Record)
    requires Ascending(log) && r.workspace in ids
    requires (r in log && r.sequence >= floor(r.workspace)) || (forall q <- log :: q.sequence < r.sequence)
    requires Snapshotted(answers, r) && r.sequence > 0
    ensures var cursor := CursorAfter(ids, answers, BoundsIn(log, floor), LatestOf(log, floor));
      Covered(answers, r) || r.sequence > cursor
  {
    var bounds := BoundsIn(log, floor);
    var latest := LatestOf(log, floor);
    CursorIsAtMostLatest(ids, answers, bounds, latest);
    if r in log && r.sequence >= floor(r.workspace) {
      BoundsBound(log, floor, r);
      CursorIsLow(ids, answers, bounds, latest, r.workspace);
    } else {
      LatestInLog(log, floor);
    }
  }

  lemma LatestInLog(log: seq<Record>, floor: nat -> nat)
    ensures LatestOf(log, floor).Some? ==> exists q <- log :: q.sequence == LatestOf(log, floor).value
  {
    RetainedMembers(log, floor, 0);
    var rs := Retained(log, floor, 0);
    if rs != [] { assert rs[|rs| - 1] in rs; }
  }

  /** No workspace that lags lowers the cursor below `m`. */
  predicate NoneLowersBelow(ids: seq<nat>, answers: seq<Read>, bounds: nat -> Option<Bounds>, m: nat) {
    forall w <- ids :: bounds(w).Some? ==>
      var c := SnapshotCursor(SnapshotsIn(answers, w), bounds(w).value); c < bounds(w).value.latest ==> m <= c
  }

  lemma {:induction false} CursorIsGreatest(ids: seq<nat>, answers: seq<Read>, bounds: nat -> Option<Bounds>, latest: Option<nat>, m: nat)
    requires latest.Some? && m <= latest.value && NoneLowersBelow(ids, answers, bounds, m)
    ensures m <= CursorAfter(ids, answers, bounds, latest)
  {
    if ids != [] {
      assert ids[|ids| - 1] in ids;
      CursorIsGreatest(ids[..|ids| - 1], answers, bounds, latest, m);
    }
  }

  /**
   Exactly when a retained record is lost to a client that just connected: the read of its workspace
   succeeded and has snapshots but none of its goal, and no lagging workspace, its own or another,
   holds the cursor below it.
   */
  lemma LostExactlyWhen(log: seq<Record>, floor: nat -> nat, ids: seq<nat>, answers: seq<Read>, r: Record)
    requires Ascending(log) && r.workspace in ids && r in log && r.sequence >= floor(r.workspace)
    ensures var cursor := CursorAfter(ids, answers, BoundsIn(log, floor), LatestOf(log, floor));
      !Covered(answers, r) && r.sequence <= cursor <==>
        !Snapshotted(answers, r) && NoneLowersBelow(ids, answers, BoundsIn(log, floor), r.sequence)
  {
    var bounds, latest := BoundsIn(log, floor), LatestOf(log, floor);
    BoundsBound(log, floor, r);
    var cursor := CursorAfter(ids, answers, bounds, latest);
    hide BoundsOf, Retained, SnapshotCursor, CursorAfter;
    if Snapshotted(answers, r) { NoLoss(log, floor, ids, answers, r); }
    if r.sequence <= cursor {
      forall w <- ids | bounds(w).Some? ensures
        var c := SnapshotCursor(SnapshotsIn(answers, w), bounds(w).value); c < bounds(w).value.latest ==> r.sequence <= c
      {
        CursorIsLow(ids, answers, bounds, latest, w);
      }
    }
    if NoneLowersBelow(ids, answers, bounds, r.sequence) { CursorIsGreatest(ids, answers, bounds, latest, r.sequence); }
  }

  /** Without a snapshot of its goal a retained record can lie at or below the cursor: goal 2's is never sent. */
  lemma UnsnapshottedGoalIsLost()
    ensures var log, answers := [Record(1, 0, 2), Record(2, 0, 1)], [Read(0, Some([Snapshot(1, 2)]))];
            var cursor := CursorAfter([0], answers, BoundsIn(log, KEEP_ALL), LatestOf(log, KEEP_ALL));
      Ascending(log) && !Covered(answers, log[0]) && log[0].sequence <= cursor
  {
    var log, answers := [Record(1, 0, 2), Record(2, 0, 1)], [Read(0, Some([Snapshot(1, 2)]))];
    var floor := KEEP_ALL;
    BoundsBound(log, floor, log[0]);
    BoundsBound(log, floor, log[1]);
    LatestInLog(log, floor);
    assert SnapshotsIn(answers, 0) == [Snapshot(1, 2)];
    assert BoundsOf(log, floor, 0).value.latest == 2;
    assert [0][..0] == [];
    assert Lowest([Snapshot(1, 2)], 2) == 2;
  }
}
