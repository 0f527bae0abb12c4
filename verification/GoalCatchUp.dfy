/** The catch-up itself: paged replay, the zero-cursor path, and recovery after a missed window. */
module GoalCatchUp {
  import opened Prelude
  import opened GoalReplay

  // ---------------------------------------------------------------- the event repository

  /** replayWorkspaceGoalRuntimeEvents: the records after a cursor, ascending, at most `limit` of them. */
  function PageOf<E>(log: seq<Record<E>>, v: View, after: nat, limit: nat): seq<Record<E>>
    requires Ascending(log) && v.oldest <= v.end <= |log|
  {
    var a := if Seen(log, after) < v.oldest then v.oldest else Seen(log, after);
    if a >= v.end then [] else log[a..if a + limit < v.end then a + limit else v.end]
  }

  /** replayWindowMissed: the cursor lies before the oldest retained record, and not just before it. */
  predicate Missed<E>(log: seq<Record<E>>, v: View, after: nat)
    requires v.oldest <= v.end <= |log|
  {
    v.oldest < v.end && after + 1 < log[v.oldest].sequence
  }

  function Reversed<T>(s: seq<T>): (r: seq<T>)
    ensures |r| == |s| && forall i :: 0 <= i < |s| ==> r[i] == s[|s| - 1 - i]
  {
    if s == [] then [] else Reversed(s[1..]) + [s[0]]
  }

  /** listGoalRuntimeEvents: the goal's retained records, newest first, at most `limit` of them. */
  function Newest<E>(log: seq<Record<E>>, v: View, goal: nat, limit: nat): seq<Record<E>>
    requires v.oldest <= v.end <= |log|
  {
    var own := Own(log[v.oldest..v.end], goal);
    Reversed(if |own| <= limit then own else own[|own| - limit..])
  }

  /** The place after the last record of the goal among the first `n`, or `a` if there is none past `a`. */
  function OwnEnd<E>(log: seq<Record<E>>, goal: nat, a: nat, n: nat): (m: nat)
    requires a <= n <= |log|
    ensures a <= m <= n && (m > a ==> log[m - 1].goal == goal)
    ensures forall i :: m <= i < n ==> log[i].goal != goal
    decreases n
  {
    if n == a then a else if log[n - 1].goal == goal then n else OwnEnd(log, goal, a, n - 1)
  }

  /** The last place of the page that holds place `i`, of pages of `size` records from `a` up to `reach`. */
  function PageEnd(a: nat, i: nat, size: nat, reach: nat): (e: nat)
    requires a <= i < reach && size >= 1
    ensures i <= e < reach
    decreases i - a
  {
    if i >= a + size then PageEnd(a + size, i, size, reach) else if a + size <= reach then a + size - 1 else reach - 1
  }

  /** Full pages from `a` on end at `n`. */
  predicate FullPages(a: nat, n: nat, size: nat)
    requires size >= 1
    decreases n - a
  {
    n == a || (a + size <= n && FullPages(a + size, n, size))
  }

  /** When a paged catch-up from `s` up to `reach` says the snapshot was updated. */
  function Stamp<P, E>(log: seq<Record<E>>, goal: nat, s: Snapshot<P>, size: nat, reach: nat): nat
    requires Ascending(log) && Seen(log, s.last) <= reach <= |log| && size >= 1
  {
    var a := Seen(log, s.last);
    var m := OwnEnd(log, goal, a, reach);
    if m == a then s.updatedAt else
      log[PageEnd(a, m - 1, size, reach)].recordedAt
  }

  lemma {:induction false} OneMorePage(a: nat, n: nat, size: nat)
    requires size >= 1 && FullPages(a, n, size)
    ensures FullPages(a, n + size, size)
    decreases n - a
  {
    if n != a { OneMorePage(a + size, n, size); }
  }

  /** The page that holds the place ends at `reach`. */
  lemma {:induction false} PageEndHere(a: nat, n: nat, i: nat, size: nat, reach: nat)
    requires size >= 1 && a <= n <= i < reach <= n + size && FullPages(a, n, size)
    ensures PageEnd(a, i, size, reach) == reach - 1
    decreases n - a
  {
    if n != a { PageEndHere(a + size, n, i, size, reach); }
  }

  /** Later pages do not move the end of an earlier one. */
  lemma {:induction false} PageEndStays(a: nat, n: nat, i: nat, size: nat, reach: nat)
    requires size >= 1 && a <= i < n <= reach && FullPages(a, n, size)
    ensures PageEnd(a, i, size, reach) == PageEnd(a, i, size, n)
    decreases n - a
  {
    if i >= a + size { PageEndStays(a + size, n, i, size, reach); }
  }

  lemma {:induction false} OwnEndStays<E>(log: seq<Record<E>>, goal: nat, a: nat, n: nat, m: nat)
    requires a <= n <= m <= |log| && forall i :: n <= i < m ==> log[i].goal != goal
    ensures OwnEnd(log, goal, a, m) == OwnEnd(log, goal, a, n)
    decreases m
  {
    if n < m { OwnEndStays(log, goal, a, n, m - 1); }
  }

  lemma OwnEndMoves<E>(log: seq<Record<E>>, goal: nat, a: nat, n: nat, m: nat)
    requires a <= n <= m <= |log| && exists i :: n <= i < m && log[i].goal == goal
    ensures n < OwnEnd(log, goal, a, m) <= m
  {
  }

  /** One more page: the stamp moves to its last record exactly when it holds a record of the goal. */
  lemma StampNext<P, E>(log: seq<Record<E>>, goal: nat, s: Snapshot<P>, size: nat, n: nat, reach: nat)
    requires Ascending(log) && size >= 1 && Seen(log, s.last) <= n < reach <= n + size && reach <= |log|
    requires FullPages(Seen(log, s.last), n, size)
    ensures Stamp(log, goal, s, size, reach) ==
      if exists i :: n <= i < reach && log[i].goal == goal then log[reach - 1].recordedAt else Stamp(log, goal, s, size, n)
  {
    hide Ascending, Seen;
    var a := Seen(log, s.last);
    if exists i :: n <= i < reach && log[i].goal == goal {
      OwnEndMoves(log, goal, a, n, reach);
      PageEndHere(a, n, OwnEnd(log, goal, a, reach) - 1, size, reach);
    } else {
      OwnEndStays(log, goal, a, n, reach);
      var m := OwnEnd(log, goal, a, reach);
      if m > a { PageEndStays(a, n, m - 1, size, reach); }
    }
  }

  lemma StampNone<P, E>(log: seq<Record<E>>, goal: nat, s: Snapshot<P>, size: nat)
    requires Ascending(log) && size >= 1
    ensures Stamp(log, goal, s, size, Seen(log, s.last)) == s.updatedAt && FullPages(Seen(log, s.last), Seen(log, s.last), size)
  {
  }

  lemma PageIsNext<E>(log: seq<Record<E>>, v: View, after: nat, limit: nat)
    requires Ascending(log) && v.oldest <= v.end <= |log| && (v.end > 0 ==> v.oldest < v.end) && !Missed(log, v, after) && limit >= 1
    ensures var a, page := Seen(log, after), PageOf(log, v, after, limit);
      && a + |page| <= |log| && page == log[a..a + |page|] && (page == [] ==> v.end <= a)
      && (page != [] ==> Seen(log, page[|page| - 1].sequence) == a + |page| <= v.end)
      && (page != [] ==> page[|page| - 1].sequence > after)
      && |page| <= limit && (page != [] && |page| < limit ==> page[|page| - 1].sequence >= log[v.end - 1].sequence)
  {
    var a := Seen(log, after);
    assert forall j :: a < j < |log| ==> log[a].sequence < log[j].sequence;
    var page := PageOf(log, v, after, limit);
    if page != [] { SeenAt(log, a + |page| - 1); }
  }

  /** A rejection anywhere rejects the whole fold. */
  lemma RejectionPropagates<P, E>(project: (P, E) -> Option<P>, log: seq<Record<E>>, goal: nat, p: P, a: nat, n: nat)
    requires a <= n <= |log| && Fold(project, p, Own(log[a..n], goal)).None?
    ensures Fold(project, p, Own(log[a..], goal)).None?
  {
    assert log[a..] == log[a..|log|];
    Slices(log, a, n, |log|, goal);
    FoldAppend(project, p, Own(log[a..n], goal), Own(log[n..|log|], goal));
  }

  lemma FoldNothing<P, E>(project: (P, E) -> Option<P>, p: P)
    ensures Fold(project, p, []) == Some(p)
  {
  }

  /** One more record of a list: the fold of all of it fails if this step does. */
  lemma FoldNext<P, E>(project: (P, E) -> Option<P>, p: P, rs: seq<Record<E>>, i: nat)
    requires i < |rs| && Fold(project, p, rs[..i]).Some?
    ensures Fold(project, p, rs[..i + 1]) == project(Fold(project, p, rs[..i]).value, rs[i].event)
    ensures Fold(project, p, rs[..i + 1]).None? ==> Fold(project, p, rs).None?
  {
    assert rs[..i + 1][..i] == rs[..i];
    FoldAppend(project, p, rs[..i + 1], rs[i + 1..]);
    assert rs[..i + 1] + rs[i + 1..] == rs;
  }

  /** Folding in one more record of the log. */
  lemma FoldsStep<P, E>(project: (P, E) -> Option<P>, log: seq<Record<E>>, goal: nat, p: P, a: nat, n: nat)
    requires a <= n < |log|
    ensures var own, more := Own(log[a..n], goal), Own(log[a..n + 1], goal);
      if log[n].goal == goal
      then more == own + [log[n]]
           && Fold(project, p, more) == match Fold(project, p, own) case None => None case Some(q) => project(q, log[n].event)
      else more == own
  {
    assert log[a..n + 1][..n - a] == log[a..n];
    if log[n].goal == goal {
      var own, more := Own(log[a..n], goal), Own(log[a..n + 1], goal);
      assert more[..|more| - 1] == own;
    }
  }

  // ---------------------------------------------------------------- the service

  class ControlPlane<P(==), E> {
    const project: (P, E) -> Option<P>
    const goal: nat
    const pageSize: nat
    var stored: seq<Snapshot<P>>     // every snapshot stored for this goal; the last one is current

    constructor (project: (P, E) -> Option<P>, goal: nat, pageSize: nat, initial: Snapshot<P>)
      ensures this.project == project && this.goal == goal && this.pageSize == pageSize && stored == [initial]
    {
      this.project, this.goal, this.pageSize := project, goal, pageSize;
      stored := [initial];
    }

    /** storeGoalRuntimeSnapshot refuses a cursor that moves backwards; its callers never send one. */
    method Store(s: Snapshot<P>)
      requires stored != [] && stored[|stored| - 1].last < s.last
      modifies this
      ensures stored == old(stored) + [s]
    {
      stored := stored + [s];
    }

    /** Folds one page into a projection; None if a record of the goal is rejected. */
    method FoldPage(ghost log: seq<Record<E>>, ghost from: Snapshot<P>, ghost a: nat, page: seq<Record<E>>, s: Snapshot<P>)
      returns (folded: Option<Snapshot<P>>)
      requires Ascending(log) && a + |page| <= |log| && page == log[a..a + |page|] && Folds(project, log, goal, from, a, s)
      ensures folded.Some? ==> Folds(project, log, goal, from, a + |page|, folded.value) && folded.value.last >= s.last
      ensures folded.Some? && folded.value.last == s.last ==> folded.value.projection == s.projection
      ensures folded.Some? ==> (folded.value.last > s.last <==> exists i :: a <= i < a + |page| && log[i].goal == goal)
      ensures folded.None? ==> Fold(project, from.projection, Own(log[Seen(log, from.last)..], goal)).None?
    {
      hide Fold, Own, Seen;
      var projection, last := s.projection, s.last;
      ghost var b := Seen(log, from.last);
      NoneBeyondCursor(project, log, goal, from, a, s);
      var i := 0;
      while i < |page|
        invariant 0 <= i <= |page| && last >= s.last && (last == s.last ==> projection == s.projection)
        invariant last > s.last <==> exists j :: a <= j < a + i && log[j].goal == goal
        invariant Seen(log, last) <= a + i
        invariant Folds(project, log, goal, from, a + i, Snapshot(projection, last, s.updatedAt))
      {
        var record := page[i];
        assert record == log[a + i];
        FoldsStep(project, log, goal, from.projection, b, a + i);
        if record.goal == goal {
          match project(projection, record.event) {
            case None =>
              RejectionPropagates(project, log, goal, from.projection, b, a + i + 1);
              return None;
            case Some(q) =>
              SeenPasses(log, a + i, s.last);
              projection, last := q, record.sequence;
          }
        }
        i := i + 1;
      }
      return Some(Snapshot(projection, last, s.updatedAt));
    }

    /** Takes a page in: the snapshot moves, and is stored, if the page holds records of the goal. */
    method TakePage(ghost log: seq<Record<E>>, ghost initial: Snapshot<P>, ghost reach: nat, page: seq<Record<E>>, s: Snapshot<P>, ghost from: nat)
      returns (taken: Option<Snapshot<P>>)
      requires Ascending(log) && reach + |page| <= |log| && page == log[reach..reach + |page|] && 1 <= |page| <= pageSize
      requires Folds(project, log, goal, initial, reach, s) && FullPages(Seen(log, initial.last), reach, pageSize)
      requires s.updatedAt == Stamp(log, goal, initial, pageSize, reach)
      requires stored != [] && stored[|stored| - 1] == s && AllFold(project, log, goal, initial, stored, from)
      modifies this
      ensures old(stored) <= stored && AllFold(project, log, goal, initial, stored, from)
      ensures taken.Some? ==>
                && stored[|stored| - 1] == taken.value && Folds(project, log, goal, initial, reach + |page|, taken.value)
                && taken.value.updatedAt == Stamp(log, goal, initial, pageSize, reach + |page|)
      ensures taken.None? ==> Fold(project, initial.projection, Own(log[Seen(log, initial.last)..], goal)).None?
    {
      hide Fold, Own, AllFold, Stamp, FullPages, Ascending;
      var folded := FoldPage(log, initial, reach, page, s);
      if folded.None? { return None; }
      StampNext(log, goal, initial, pageSize, reach, reach + |page|);
      if folded.value.last > s.last {
        var snapshot := folded.value.(updatedAt := page[|page| - 1].recordedAt);
        Relabelled(project, log, goal, initial, reach + |page|, folded.value, snapshot);
        OneMoreFolds(project, log, goal, initial, stored, from, reach + |page|, snapshot);
        Store(snapshot);
        return Some(snapshot);
      }
      Relabelled(project, log, goal, initial, reach + |page|, folded.value, s);
      return Some(s);
    }

    /** The loop over pages, for a cursor past zero. */
    method ReplayPages(log: seq<Record<E>>, views: nat -> View, durable: Option<P>, initial: Snapshot<P>)
      returns (out: Result<Snapshot<P>, Failure>, ghost reach: nat, ghost missed: bool)
      requires Ascending(log) && Windows(views, |log|) && pageSize >= 1 && stored != [] && stored[|stored| - 1] == initial
      modifies this
      ensures old(stored) <= stored
      ensures !missed && out.Ok? ==>
                && views(0).end <= reach && Folds(project, log, goal, initial, reach, out.value)
                && stored[|stored| - 1].projection == out.value.projection && stored[|stored| - 1].last == out.value.last
      ensures !missed && out.Ok? ==> out.value.updatedAt == Stamp(log, goal, initial, pageSize, reach)
      ensures !missed ==> (out.Ok? || out == Err(ProjectionRejected))
      ensures out == Err(ProjectionRejected) ==> Fold(project, initial.projection, Own(log[Seen(log, initial.last)..], goal)).None?
      ensures missed ==> exists k: nat :: Missed(log, views(k), initial.last)
      ensures !missed ==> AllFold(project, log, goal, initial, stored, |old(stored)|)
      ensures missed ==> exists k: nat, s: Snapshot<P>, n: nat ::
                Folds(project, log, goal, initial, n, s) && out == Recovered(project, log, views(k), goal, pageSize, durable, s)
    {
      hide Fold, Own, Seen, Folds, PageOf, AllFold, Stamp, FullPages;
      var snapshot, cursor, k := initial, initial.last, 0;
      ghost var a := Seen(log, initial.last);
      StampNone(log, goal, initial, pageSize);
      reach, missed := Seen(log, initial.last), false;
      FoldsNothing(project, log, goal, initial);
      NoneToFold(project, log, goal, initial, stored);
      while true
        invariant !missed && cursor >= initial.last && reach == Seen(log, cursor) <= |log|
        invariant old(stored) <= stored && stored[|stored| - 1] == snapshot
        invariant Folds(project, log, goal, initial, reach, snapshot)
        invariant AllFold(project, log, goal, initial, stored, |old(stored)|)
        invariant a <= reach && FullPages(a, reach, pageSize) && snapshot.updatedAt == Stamp(log, goal, initial, pageSize, reach)
        decreases |log| - reach
      {
        var view := views(k);
        if Missed(log, view, cursor) {
          missed := true;
          assert Missed(log, views(k), initial.last);
          out := RecoverAfterReplayWindowMiss(log, view, durable, snapshot);
          return;
        }
        var page := PageOf(log, view, cursor, pageSize);
        PageIsNext(log, view, cursor, pageSize);
        assert views(0).end <= view.end;
        if page == [] { return Ok(snapshot), reach, false; }
        var taken := TakePage(log, initial, reach, page, snapshot, |old(stored)|);
        if taken.None? { return Err(ProjectionRejected), reach, false; }
        if |page| == pageSize { OneMorePage(a, reach, pageSize); }
        reach, snapshot := reach + |page|, taken.value;
        cursor := page[|page| - 1].sequence;
        if cursor >= log[view.end - 1].sequence {
          assert view.end <= reach by { SeenAt(log, view.end - 1); SeenGrows(log, log[view.end - 1].sequence, cursor); }
          return Ok(snapshot), reach, false;
        }
        k := k + 1;
      }
    }

    /** The zero-cursor path: the goal's own records, newest first, reversed and folded. */
    method ReplayOwn(log: seq<Record<E>>, view: View, initial: Snapshot<P>) returns (out: Result<Snapshot<P>, Failure>)
      requires Ascending(log) && view.oldest <= view.end <= |log| && pageSize >= 1 && initial.last == 0
      requires stored != [] && stored[|stored| - 1] == initial
      modifies this
      ensures old(stored) <= stored
      ensures out == OwnReplayed(project, log, view, goal, pageSize, initial)
      ensures out.Ok? ==> stored[|stored| - 1] == out.value
    {
      hide Own, Fold, Newest;
      FoldNothing<P, E>(project, initial.projection);
      var retained := Newest(log, view, goal, pageSize);
      NewestBack(log, view, goal, pageSize);
      if retained == [] { return Ok(initial); }
      if |retained| == pageSize { return Err(ReplayWindowMissed); }
      var own := Reversed(retained);
      var projection, i := initial.projection, 0;
      while i < |own|
        invariant 0 <= i <= |own| && Fold(project, initial.projection, own[..i]) == Some(projection) && stored == old(stored)
      {
        FoldNext(project, initial.projection, own, i);
        match project(projection, own[i].event) {
          case None => return Err(ProjectionRejected);
          case Some(q) => projection := q;
        }
        i := i + 1;
      }
      assert own[..i] == own;
      var snapshot := Snapshot(projection, own[|own| - 1].sequence, own[|own| - 1].recordedAt);
      Store(snapshot);
      return Ok(snapshot);
    }

    /**
     catchUpSnapshotUnlocked.  Unless records the snapshot had not seen were pruned before they were
     read, the result is one fold of the goal's records after the cursor, reaching at least as far as
     the log did when the call began -- whatever the page size, however the records of other goals
     interleave, and whatever is appended meanwhile.  If that fold meets no rejection, it succeeds
     (but for the zero-cursor path, which gives up at `pageSize` records of the goal).
     */
    method CatchUp(log: seq<Record<E>>, views: nat -> View, durable: Option<P>, initial: Snapshot<P>)
      returns (out: Result<Snapshot<P>, Failure>, ghost reach: nat, ghost missed: bool)
      requires Ascending(log) && Windows(views, |log|) && pageSize >= 1 && stored != [] && stored[|stored| - 1] == initial
      modifies this
      ensures old(stored) <= stored
      ensures !missed && out.Ok? ==>
                && views(0).end <= reach && Folds(project, log, goal, initial, reach, out.value)
                && stored[|stored| - 1].projection == out.value.projection && stored[|stored| - 1].last == out.value.last
      ensures !missed && out == Err(ProjectionRejected) ==>
                Fold(project, initial.projection, Own(log[Seen(log, initial.last)..], goal)).None?
      ensures !missed && out == Err(ReplayWindowMissed) ==>
                initial.last == 0 && |Own(log[views(0).oldest..views(0).end], goal)| >= pageSize
      ensures !missed ==> out != Err(GoalNotFound)
      ensures initial.last == 0 ==> reach == views(0).end && out == OwnReplayed(project, log, views(0), goal, pageSize, initial)
      ensures !missed && out.Ok? && initial.last > 0 ==> out.value.updatedAt == Stamp(log, goal, initial, pageSize, reach)
      ensures missed && initial.last > 0 ==> exists k: nat, s: Snapshot<P>, n: nat ::
                Folds(project, log, goal, initial, n, s) && out == Recovered(project, log, views(k), goal, pageSize, durable, s)
      ensures missed ==>
                if initial.last == 0 then Own(log[..views(0).oldest], goal) != []
                else exists k: nat :: Missed(log, views(k), initial.last)
    {
      hide Fold, Own, Seen, Folds, AllFold;
      if initial.last == 0 {
        var view := views(0);
        out := ReplayOwn(log, view, initial);
        reach, missed := view.end, Own(log[..view.oldest], goal) != [];
        FoldNothing<P, E>(project, initial.projection);
        if !missed { ZeroCursorFolds(project, log, goal, initial, view); }
      } else {
        out, reach, missed := ReplayPages(log, views, durable, initial);
      }
    }

    /**
     appendAndReplayUnlocked, after a successful preview.  `place` is where the repository has put the
     record; it is visible from the first read on.  The returned snapshot has folded it in.
     */
    method AppendAndReplay(log: seq<Record<E>>, views: nat -> View, durable: Option<P>, snapshot: Snapshot<P>, event: E, ghost place: nat,
                           sequence: nat)
      returns (out: Result<Snapshot<P>, Failure>, ghost reach: nat, ghost missed: bool)
      requires Ascending(log) && Windows(views, |log|) && pageSize >= 1 && stored != [] && stored[|stored| - 1] == snapshot
      requires place < views(0).end && place < |log| && log[place].goal == goal && log[place].sequence == sequence
      modifies this
      ensures project(snapshot.projection, event).None? ==> out == Err(ProjectionRejected) && stored == old(stored)
      ensures out.Ok? && !missed ==> Folds(project, log, goal, snapshot, reach, out.value) && sequence <= out.value.last
    {
      reach, missed := Seen(log, snapshot.last), false;
      if project(snapshot.projection, event).None? { return Err(ProjectionRejected), reach, missed; }
      if sequence <= snapshot.last {
        FoldsNothing(project, log, goal, snapshot);
        return Ok(snapshot), reach, missed;
      }
      out, reach, missed := CatchUp(log, views, durable, snapshot);
      if out.Ok? && !missed { FoldCovers(project, log, goal, snapshot, reach, out.value, place); }
    }

    /** recoverAfterReplayWindowMissUnlocked. */
    method RecoverAfterReplayWindowMiss(log: seq<Record<E>>, view: View, durable: Option<P>, initial: Snapshot<P>)
      returns (out: Result<Snapshot<P>, Failure>)
      requires view.oldest <= view.end <= |log| && pageSize >= 1 && Ascending(log) && stored != [] && stored[|stored| - 1] == initial
      modifies this
      ensures old(stored) <= stored
      ensures out == Recovered(project, log, view, goal, pageSize, durable, initial)
      ensures out.Ok? && out.value != initial ==> stored == old(stored) + [out.value]
    {
      var retained := Newest(log, view, goal, pageSize);
      NewestDescends(log, view, goal, pageSize);
      if retained == [] || retained[0].sequence <= initial.last { return Ok(initial); }
      if durable.None? { return Err(GoalNotFound); }
      var tail := Reversed(retained);
      var projection := durable.value;
      var i := 0;
      while i < |tail|
        invariant 0 <= i <= |tail| && projection == FoldSkipping(project, durable.value, tail[..i])
      {
        assert tail[..i + 1][..i] == tail[..i];
        match project(projection, tail[i].event) {
          case None =>
          case Some(q) => projection := q;
        }
        i := i + 1;
      }
      assert tail[..i] == tail;
      var snapshot := Snapshot(projection, retained[0].sequence, retained[0].recordedAt);
      Store(snapshot);
      return Ok(snapshot);
    }
  }

  /** What the zero-cursor path returns: the fold of the goal's retained records, whatever was pruned before them. */
  function OwnReplayed<P, E>(project: (P, E) -> Option<P>, log: seq<Record<E>>, v: View, goal: nat, limit: nat, s: Snapshot<P>)
    : Result<Snapshot<P>, Failure>
    requires v.oldest <= v.end <= |log|
  {
    var own := Own(log[v.oldest..v.end], goal);
    if own == [] then Ok(s)
    else if |own| >= limit then Err(ReplayWindowMissed)
    else match Fold(project, s.projection, own)
      case None => Err(ProjectionRejected)
      case Some(q) => Ok(Snapshot(q, own[|own| - 1].sequence, own[|own| - 1].recordedAt))
  }

  /** What recovery returns: the snapshot itself, or a rebuild from the durable goal and the retained tail. */
  function Recovered<P, E>(project: (P, E) -> Option<P>, log: seq<Record<E>>, v: View, goal: nat, limit: nat, durable: Option<P>, s: Snapshot<P>)
    : Result<Snapshot<P>, Failure>
    requires v.oldest <= v.end <= |log|
  {
    var retained := Newest(log, v, goal, limit);
    if forall i :: 0 <= i < |retained| ==> retained[i].sequence <= s.last then Ok(s)
    else if durable.None? then Err(GoalNotFound)
    else Ok(Snapshot(FoldSkipping(project, durable.value, Reversed(retained)), retained[0].sequence, retained[0].recordedAt))
  }

  ghost predicate FoldsTo<P, E>(project: (P, E) -> Option<P>, log: seq<Record<E>>, goal: nat, from: Snapshot<P>, s: Snapshot<P>)
    requires Ascending(log)
  {
    exists n: nat :: Folds(project, log, goal, from, n, s)
  }

  /** Every snapshot from place `k` on follows `from` by a fold of some stretch of the log. */
  ghost predicate AllFold<P, E>(project: (P, E) -> Option<P>, log: seq<Record<E>>, goal: nat, from: Snapshot<P>, stored: seq<Snapshot<P>>, k: nat)
    requires Ascending(log)
  {
    forall i :: k <= i < |stored| ==> FoldsTo(project, log, goal, from, stored[i])
  }

  lemma NoneToFold<P, E>(project: (P, E) -> Option<P>, log: seq<Record<E>>, goal: nat, from: Snapshot<P>, stored: seq<Snapshot<P>>)
    requires Ascending(log)
    ensures AllFold(project, log, goal, from, stored, |stored|)
  {
  }

  lemma OneMoreFolds<P, E>(project: (P, E) -> Option<P>, log: seq<Record<E>>, goal: nat, from: Snapshot<P>, stored: seq<Snapshot<P>>, k: nat,
                           n: nat, s: Snapshot<P>)
    requires Ascending(log) && AllFold(project, log, goal, from, stored, k) && Folds(project, log, goal, from, n, s)
    ensures AllFold(project, log, goal, from, stored + [s], k)
  {
    assert FoldsTo(project, log, goal, from, s);
  }

  lemma FoldsNothing<P, E>(project: (P, E) -> Option<P>, log: seq<Record<E>>, goal: nat, s: Snapshot<P>)
    requires Ascending(log)
    ensures Folds(project, log, goal, s, Seen(log, s.last), s)
  {
    assert log[Seen(log, s.last)..Seen(log, s.last)] == [];
  }

  lemma Relabelled<P, E>(project: (P, E) -> Option<P>, log: seq<Record<E>>, goal: nat, s: Snapshot<P>, n: nat, t: Snapshot<P>, u: Snapshot<P>)
    requires Ascending(log) && Folds(project, log, goal, s, n, t) && u.projection == t.projection && u.last == t.last
    ensures Folds(project, log, goal, s, n, u)
  {
  }

  lemma {:induction false} OwnMembers<E>(log: seq<Record<E>>, goal: nat)
    ensures forall i :: 0 <= i < |Own(log, goal)| ==>
              Own(log, goal)[i].goal == goal && exists j :: 0 <= j < |log| && log[j] == Own(log, goal)[i]
  {
    if log != [] {
      OwnMembers(log[..|log| - 1], goal);
      assert log[|log| - 1] == log[|log| - 1];
    }
  }

  lemma {:induction false} OwnAscends<E>(log: seq<Record<E>>, goal: nat)
    requires Ascending(log)
    ensures Ascending(Own(log, goal))
  {
    if log != [] {
      var front := log[..|log| - 1];
      OwnAscends(front, goal);
      OwnMembers(front, goal);
    }
  }

  /** Unless the list was cut short, reversing it gives the retained records in order. */
  lemma NewestBack<E>(log: seq<Record<E>>, v: View, goal: nat, limit: nat)
    requires Ascending(log) && v.oldest <= v.end <= |log|
    ensures var own, newest := Own(log[v.oldest..v.end], goal), Newest(log, v, goal, limit);
      && |newest| == (if |own| <= limit then |own| else limit)
      && (|own| <= limit ==> Reversed(newest) == own)
      && (own != [] ==> own[|own| - 1].sequence > 0)
  {
    OwnAscends(log[v.oldest..v.end], goal);
  }

  /** The newest record comes first. */
  lemma NewestDescends<E>(log: seq<Record<E>>, v: View, goal: nat, limit: nat)
    requires Ascending(log) && v.oldest <= v.end <= |log|
    ensures forall i :: 0 <= i < |Newest(log, v, goal, limit)| ==>
              Newest(log, v, goal, limit)[i].sequence <= Newest(log, v, goal, limit)[0].sequence
  {
    OwnAscends(log[v.oldest..v.end], goal);
  }

  /** If no record of the goal was pruned, the retained ones are all there are after cursor zero. */
  lemma ZeroCursorFolds<P, E>(project: (P, E) -> Option<P>, log: seq<Record<E>>, goal: nat, s: Snapshot<P>, v: View)
    requires Ascending(log) && v.oldest <= v.end <= |log| && s.last == 0 && Own(log[..v.oldest], goal) == []
    ensures var own := Own(log[v.oldest..v.end], goal);
      && (forall t: Snapshot<P> :: Fold(project, s.projection, own) == Some(t.projection) && t.last == LastOf(own, 0) ==>
            Folds(project, log, goal, s, v.end, t))
      && (Fold(project, s.projection, own).None? ==> Fold(project, s.projection, Own(log[Seen(log, s.last)..], goal)).None?)
  {
    hide Fold, Own;
    SeenZero(log);
    var own := Own(log[v.oldest..v.end], goal);
    assert log[0..v.oldest] == log[..v.oldest];
    Slices(log, 0, v.oldest, v.end, goal);
    assert Own(log[0..v.end], goal) == own;
    if Fold(project, s.projection, own).None? { RejectionPropagates(project, log, goal, s.projection, 0, v.end); }
  }

  lemma SeenZero<E>(log: seq<Record<E>>)
    requires Ascending(log)
    ensures Seen(log, 0) == 0
  {
  }

  /** A fold that reaches past a record of the goal has a cursor at or past it. */
  lemma FoldCovers<P, E>(project: (P, E) -> Option<P>, log: seq<Record<E>>, goal: nat, s: Snapshot<P>, n: nat, t: Snapshot<P>, place: nat)
    requires Ascending(log) && Folds(project, log, goal, s, n, t) && place < n && place < |log| && log[place].goal == goal
    ensures log[place].sequence <= t.last
  {
    NoneBeyondCursor(project, log, goal, s, n, t);
    if Seen(log, t.last) <= place { OwnFinds(log, Seen(log, t.last), n, place, goal); }
  }

  lemma OwnFinds<E>(log: seq<Record<E>>, a: nat, n: nat, place: nat, goal: nat)
    requires a <= place < n <= |log| && log[place].goal == goal
    ensures Own(log[a..n], goal) != []
  {
    Slices(log, a, place, n, goal);
    Slices(log, place, place + 1, n, goal);
    assert log[place..place + 1] == [log[place]];
  }

  lemma SeenPasses<E>(log: seq<Record<E>>, i: nat, after: nat)
    requires Ascending(log) && i < |log| && Seen(log, after) <= i
    ensures log[i].sequence > after && Seen(log, log[i].sequence) == i + 1
  {
    SeenAt(log, i);
  }
}
