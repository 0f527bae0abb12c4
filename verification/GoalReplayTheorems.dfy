/** What paged replay promises, and where recovery from a missed window falls short of it. */
module GoalReplayTheorems {
  import opened Prelude
  import opened GoalReplay
  import opened GoalCatchUp

  /** A catch-up result depends only on which records it covered: page size, path and interleaving do not matter. */
  lemma ReplayIsDeterministic<P, E>(project: (P, E) -> Option<P>, log: seq<Record<E>>, goal: nat, s: Snapshot<P>,
                                    m: nat, t: Snapshot<P>, n: nat, u: Snapshot<P>)
    requires Ascending(log) && Folds(project, log, goal, s, m, t) && Folds(project, log, goal, s, n, u)
    requires m <= n && Own(log[m..n], goal) == []
    ensures t.projection == u.projection && t.last == u.last
  {
    Slices(log, Seen(log, s.last), m, n, goal);
    assert Own(log[Seen(log, s.last)..n], goal) == Own(log[Seen(log, s.last)..m], goal);
  }

  /** The cursor of a caught-up snapshot is the largest sequence among the records it covers. */
  lemma {:induction false} CursorIsLargest<E>(log: seq<Record<E>>, a: nat, n: nat, goal: nat)
    requires Ascending(log) && a <= n <= |log|
    ensures forall i :: a <= i < n && log[i].goal == goal ==> log[i].sequence <= LastOf(Own(log[a..n], goal), 0)
    ensures Own(log[a..n], goal) != [] ==> exists i :: a <= i < n && log[i].goal == goal && log[i].sequence == LastOf(Own(log[a..n], goal), 0)
    decreases n
  {
    if a < n {
      CursorIsLargest(log, a, n - 1, goal);
      assert log[a..n][..n - 1 - a] == log[a..n - 1];
    }
  }

  /**
   After a missed window with no newer retained record of its goal, recovery returns the snapshot it
   was given.  That is the fold it should be exactly when no record of the goal beyond the cursor was
   pruned.
   */
  lemma RecoveryCompleteExactlyWhen<P, E>(project: (P, E) -> Option<P>, log: seq<Record<E>>, goal: nat, s: Snapshot<P>, v: View,
                                          limit: nat, durable: Option<P>)
    requires Ascending(log) && v.oldest <= v.end <= |log| && Seen(log, s.last) <= v.end && limit >= 1
    requires forall i :: v.oldest <= i < v.end && log[i].goal == goal ==> log[i].sequence <= s.last
    ensures Recovered(project, log, v, goal, limit, durable, s) == Ok(s)
    ensures Folds(project, log, goal, s, v.end, s) <==> forall i :: 0 <= i < v.oldest && log[i].goal == goal ==> log[i].sequence <= s.last
  {
    hide Fold, Own, Newest, Seen, Ascending;
    RetainedAreOld(log, goal, s.last, v, limit);
    var a := Seen(log, s.last);
    if Own(log[a..v.end], goal) == [] {
      FoldNothing<P, E>(project, s.projection);
      forall i | 0 <= i < v.oldest && log[i].goal == goal ensures log[i].sequence <= s.last { NoneIsOld(log, goal, s.last, v.end, i); }
    } else {
      var i := OneIsNew(log, goal, s.last, v.end);
    }
  }

  // ---------------------------------------------------------------- the zero-cursor path

  /**
   The zero-cursor path checks no window.  A snapshot it returns is the fold it should be exactly when
   no record of the goal was pruned, or the pruned records fold to a projection from which the retained
   ones, if there are any, lead to the same result.
   */
  lemma ZeroCursorCompleteExactlyWhen<P, E>(project: (P, E) -> Option<P>, log: seq<Record<E>>, goal: nat, s: Snapshot<P>, v: View, limit: nat)
    requires Ascending(log) && v.oldest <= v.end <= |log| && s.last == 0
    requires OwnReplayed(project, log, v, goal, limit, s).Ok?
    ensures var t := OwnReplayed(project, log, v, goal, limit, s).value;
            var pruned, retained := Own(log[..v.oldest], goal), Own(log[v.oldest..v.end], goal);
      Folds(project, log, goal, s, v.end, t) <==>
        || pruned == []
        || (retained != [] && Fold(project, s.projection, pruned).Some?
            && Fold(project, Fold(project, s.projection, pruned).value, retained) == Some(t.projection))
  {
    var pruned, retained := Own(log[..v.oldest], goal), Own(log[v.oldest..v.end], goal);
    SeenZero(log);
    assert log[0..v.oldest] == log[..v.oldest];
    Slices(log, 0, v.oldest, v.end, goal);
    OwnAscends(log[..v.oldest], goal);
    hide Own, Seen, Fold, Ascending;
    assert Own(log[0..v.end], goal) == pruned + retained;
    FoldAppend(project, s.projection, pruned, retained);
    FoldNothing<P, E>(project, s.projection);
    LastOfAppend(pruned, retained, 0);
    if pruned != [] { PositiveLast(pruned); }
  }

  lemma PositiveLast<E>(rs: seq<Record<E>>)
    requires Ascending(rs) && rs != []
    ensures LastOf(rs, 0) > 0
  {
  }

  /** The case occurs: record 1 of goal 1 was pruned, and its snapshot at cursor zero is returned as it was. */
  lemma ZeroCursorCanMissAnEvent<P, E>(project: (P, E) -> Option<P>, p: P, e: E, f: E, limit: nat)
    ensures var log, v, s := [Record(1, 1, e, 0), Record(2, 2, f, 0)], View(1, 2), Snapshot(p, 0, 0);
      && Ascending(log) && OwnReplayed(project, log, v, 1, limit, s) == Ok(s) && !Folds(project, log, 1, s, v.end, s)
  {
    var log, v, s := [Record(1, 1, e, 0), Record(2, 2, f, 0)], View(1, 2), Snapshot(p, 0, 0);
    assert log[0].sequence == 1 && log[1].sequence == 2;
    assert log[1..2] == [log[1]] && [log[1]][..0] == [] && log[..1] == [log[0]] && [log[0]][..0] == [];
    assert Own(log[1..2], 1) == [] && Own(log[..1], 1) == [log[0]];
    ZeroCursorCompleteExactlyWhen(project, log, 1, s, v, limit);
  }

  // ---------------------------------------------------------------- when a snapshot says it was updated

  /** The page size does not matter to the time of the update. */
  ghost predicate StampIsOne<P, E>(log: seq<Record<E>>, goal: nat, s: Snapshot<P>, reach: nat)
    requires Ascending(log) && Seen(log, s.last) <= reach <= |log|
  {
    forall m: nat, n: nat :: m >= 1 && n >= 1 ==> Stamp(log, goal, s, m, reach) == Stamp(log, goal, s, n, reach)
  }

  /** From the last record of the goal on, everything covered was recorded at the same time. */
  ghost predicate RecordedTogether<P, E>(log: seq<Record<E>>, goal: nat, s: Snapshot<P>, reach: nat)
    requires Ascending(log) && Seen(log, s.last) <= reach <= |log|
  {
    var m := OwnEnd(log, goal, Seen(log, s.last), reach);
    m > Seen(log, s.last) ==> forall j :: m <= j < reach ==> log[j].recordedAt == log[m - 1].recordedAt
  }

  /** Pages of one record end at that record; a first page can end anywhere from there on. */
  lemma {:induction false} PageEndsAnywhere(a: nat, i: nat, j: nat, reach: nat)
    requires a <= i <= j < reach
    ensures PageEnd(a, i, j - a + 1, reach) == j && PageEnd(a, i, 1, reach) == i
    decreases i - a
  {
    if i > a { PageEndsAnywhere(a + 1, i, j, reach); }
  }

  /**
   `updatedAt` of a paged catch-up is the time of the last record of a page, of whichever goal.  It is
   the same for every page size exactly when all covered records from the goal's last one on were
   recorded at the same time; projection and cursor always are (`ReplayIsDeterministic`).
   */
  lemma UpdatedAtExactlyWhen<P, E>(log: seq<Record<E>>, goal: nat, s: Snapshot<P>, reach: nat)
    requires Ascending(log) && Seen(log, s.last) <= reach <= |log|
    ensures StampIsOne(log, goal, s, reach) <==> RecordedTogether(log, goal, s, reach)
  {
    hide Seen, Ascending, OwnEnd;
    var a := Seen(log, s.last);
    var m := OwnEnd(log, goal, a, reach);
    if m > a {
      if StampIsOne(log, goal, s, reach) {
        forall j | m <= j < reach ensures log[j].recordedAt == log[m - 1].recordedAt {
          PageEndsAnywhere(a, m - 1, j, reach);
          assert Stamp(log, goal, s, 1, reach) == Stamp(log, goal, s, j - a + 1, reach);
        }
      }
      if RecordedTogether(log, goal, s, reach) {
        forall n: nat | n >= 1 ensures Stamp(log, goal, s, n, reach) == log[m - 1].recordedAt {
          assert m - 1 <= PageEnd(a, m - 1, n, reach) < reach;
        }
      }
    }
  }

  /** It can matter: a record of goal 1 at time 1 and one of goal 2 at time 2, in pages of one and of two. */
  lemma UpdatedAtDependsOnPageSize<P, E>(p: P, e: E, f: E)
    ensures var log, s := [Record(6, 1, e, 1), Record(7, 2, f, 2)], Snapshot(p, 5, 0);
      Ascending(log) && Seen(log, s.last) == 0 && Stamp(log, 1, s, 1, 2) == 1 && Stamp(log, 1, s, 2, 2) == 2
  {
    var log, s := [Record(6, 1, e, 1), Record(7, 2, f, 2)], Snapshot(p, 5, 0);
    assert log[0].sequence == 6 && log[1].sequence == 7;
    assert Seen(log, 5) == 0;
    assert log[1].goal == 2 && log[0].goal == 1;
    assert OwnEnd(log, 1, 0, 2) == 1;
    PageEndsAnywhere(0, 0, 0, 2);
    PageEndsAnywhere(0, 0, 1, 2);
  }

  lemma NoneIsOld<E>(log: seq<Record<E>>, goal: nat, last: nat, end: nat, i: nat)
    requires Ascending(log) && Seen(log, last) <= end <= |log| && Own(log[Seen(log, last)..end], goal) == []
    requires i < end && log[i].goal == goal
    ensures log[i].sequence <= last
  {
    if Seen(log, last) <= i { OwnFinds(log, Seen(log, last), end, i, goal); }
  }

  /** A record of the goal past the cursor makes the fold's cursor move. */
  lemma OneIsNew<E>(log: seq<Record<E>>, goal: nat, last: nat, end: nat) returns (i: nat)
    requires Ascending(log) && Seen(log, last) <= end <= |log| && Own(log[Seen(log, last)..end], goal) != []
    ensures i < end && log[i].goal == goal && log[i].sequence > last
    ensures LastOf(Own(log[Seen(log, last)..end], goal), last) == log[i].sequence
  {
    i := LastIsLast(log, Seen(log, last), end, goal);
    OwnMembers(log[Seen(log, last)..end], goal);
  }

  lemma RetainedAreOld<E>(log: seq<Record<E>>, goal: nat, last: nat, v: View, limit: nat)
    requires Ascending(log) && v.oldest <= v.end <= |log|
    requires forall i :: v.oldest <= i < v.end && log[i].goal == goal ==> log[i].sequence <= last
    ensures forall i :: 0 <= i < |Newest(log, v, goal, limit)| ==> Newest(log, v, goal, limit)[i].sequence <= last
  {
    var window := log[v.oldest..v.end];
    OwnMembers(window, goal);
    forall i | 0 <= i < |Own(window, goal)| ensures Own(window, goal)[i].sequence <= last {
      var j :| 0 <= j < |window| && window[j] == Own(window, goal)[i];
      assert log[v.oldest + j] == window[j];
    }
  }

  /** The case occurs: record 6 of goal 1 was pruned before a snapshot at cursor 5 had seen it. */
  lemma RecoveryCanMissAnEvent<P, E>(project: (P, E) -> Option<P>, p: P, e: E, f: E, limit: nat)
    requires limit >= 1
    ensures var log, v, s := [Record(6, 1, e, 0), Record(9, 2, f, 0)], View(1, 2), Snapshot(p, 5, 0);
      && Ascending(log) && Missed(log, v, s.last)
      && Recovered(project, log, v, 1, limit, Some(p), s) == Ok(s) && !Folds(project, log, 1, s, v.end, s)
  {
    var log, v, s := [Record(6, 1, e, 0), Record(9, 2, f, 0)], View(1, 2), Snapshot(p, 5, 0);
    assert log[0].sequence == 6 && log[1].sequence == 9;
    SeenAt(log, 0);
    assert Seen(log, 5) == 0;
    RecoveryCompleteExactlyWhen(project, log, 1, s, v, limit, Some(p));
    assert log[0].goal == 1;
  }
}
