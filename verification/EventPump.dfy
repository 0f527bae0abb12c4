/** The polling pump of the event stream. */
module EventPump {
  import opened Prelude
  import opened EventStream

  datatype Message =
    | EventMessage(record: Record)
    | SnapshotMessage(read: Read, cursor: nat, windowMissed: bool)
    | ErrorMessage(workspace: nat)

  function Take<T>(s: seq<T>, n: nat): seq<T> { if |s| <= n then s else s[..n] }

  /** The events of one replay page. */
  function PageOf(log: seq<Record>, v: View, cursor: nat, limit: nat): seq<Record>
    requires v.end <= |log|
  {
    Take(Retained(log[..v.end], v.floor, cursor), limit)
  }

  predicate Missed(log: seq<Record>, v: View, ids: seq<nat>, cursor: nat)
    requires v.end <= |log|
  {
    exists w <- ids :: MissedIn(BoundsOf(log[..v.end], v.floor, w), cursor)
  }

  /** The cursor is past everything the log retains. */
  predicate Ahead(log: seq<Record>, v: View, cursor: nat)
    requires v.end <= |log|
  {
    LatestOf(log[..v.end], v.floor).Some? && cursor > LatestOf(log[..v.end], v.floor).value
  }

  function Announced(answers: seq<Read>, cursor: nat, windowMissed: bool): seq<Message> {
    if answers == [] then [] else
      var r := answers[|answers| - 1];
      Announced(answers[..|answers| - 1], cursor, windowMissed)
      + [if r.snapshots.Some? then SnapshotMessage(r, cursor, windowMissed) else ErrorMessage(r.workspace)]
  }

  function Events(rs: seq<Record>): (ms: seq<Message>)
    ensures |ms| == |rs| && forall i :: 0 <= i < |rs| ==> ms[i] == EventMessage(rs[i])
  {
    seq(|rs|, i requires 0 <= i < |rs| => EventMessage(rs[i]))
  }

  function LastOf(rs: seq<Record>, otherwise: nat): nat { if rs == [] then otherwise else rs[|rs| - 1].sequence }

  /** May a stream go on from the requested cursor? */
  predicate Resumes(log: seq<Record>, v: View, ids: seq<nat>, requested: Option<nat>)
    requires v.end <= |log|
  {
    && requested.Some? && LatestOf(log[..v.end], v.floor).Some?
    && !Missed(log, v, ids, requested.value) && !Ahead(log, v, requested.value)
  }

  /** An empty log misses nothing. */
  lemma NothingMissed(log: seq<Record>, v: View, ids: seq<nat>, requested: Option<nat>)
    requires v.end <= |log|
    ensures LatestOf(log[..v.end], v.floor).None? && requested.Some? ==> !Missed(log, v, ids, requested.value)
  {
  }

  class Stream {
    var cursor: nat
    var sent: seq<Message>

    /**
     The opening of the stream.  Without a usable `Last-Event-ID` it sends snapshots and starts at
     their cursor; with one it starts like a pump at the cursor that was asked for.
     */
    constructor Open(log: seq<Record>, v: View, ids: seq<nat>, limit: nat, requested: Option<nat>, answers: seq<Read>)
      requires Ascending(log) && v.end <= |log|
      ensures !Resumes(log, v, ids, requested) ==>
                && cursor == CursorAfter(ids, answers, BoundsIn(log[..v.end], v.floor), LatestOf(log[..v.end], v.floor))
                && sent == Announced(answers, cursor, requested.Some? && LatestOf(log[..v.end], v.floor).Some?)
      ensures Resumes(log, v, ids, requested) ==>
                var events := PageOf(log, v, requested.value, limit);
                sent == Events(events) && cursor == LastOf(events, requested.value)
    {
      cursor := 0;
      sent := [];
      new;
      hide BoundsOf, Retained;
      var latest := LatestOf(log[..v.end], v.floor);
      var windowMissed := requested.Some? && (Missed(log, v, ids, requested.value) || (latest.Some? && requested.value > latest.value));
      NothingMissed(log, v, ids, requested);
      if requested.None? || windowMissed || latest.None? {
        cursor := MultiplexedSnapshotCursor(ids, answers, BoundsIn(log[..v.end], v.floor), latest);
        Announce(answers, windowMissed);
      } else {
        cursor := requested.value;
        Deliver(PageOf(log, v, requested.value, limit));
      }
    }

    method Announce(answers: seq<Read>, windowMissed: bool)
      modifies this`sent
      ensures sent == old(sent) + Announced(answers, cursor, windowMissed)
    {
      var i := 0;
      while i < |answers|
        invariant 0 <= i <= |answers| && sent == old(sent) + Announced(answers[..i], cursor, windowMissed)
      {
        assert answers[..i + 1][..i] == answers[..i];
        var read := answers[i];
        if read.snapshots.Some? { sent := sent + [SnapshotMessage(read, cursor, windowMissed)]; }
        else { sent := sent + [ErrorMessage(read.workspace)]; }
        i := i + 1;
      }
      assert answers[..i] == answers;
    }

    /** Writes a page of events, moving the cursor with each. */
    method Deliver(events: seq<Record>)
      modifies this
      ensures sent == old(sent) + Events(events) && cursor == LastOf(events, old(cursor))
    {
      var i := 0;
      while i < |events|
        invariant 0 <= i <= |events| && sent == old(sent) + Events(events[..i]) && cursor == LastOf(events[..i], old(cursor))
      {
        sent := sent + [EventMessage(events[i])];
        cursor := events[i].sequence;
        assert Events(events[..i + 1]) == Events(events[..i]) + [EventMessage(events[i])];
        i := i + 1;
      }
      assert events[..i] == events;
    }

    /** One pump.  `answers` are the snapshot reads it makes, of all workspaces or of those it missed. */
    method Pump(log: seq<Record>, v: View, ids: seq<nat>, limit: nat, answers: seq<Read>) returns (hasMore: bool)
      requires Ascending(log) && v.end <= |log|
      modifies this
      ensures Ahead(log, v, old(cursor)) ==>
                && cursor == CursorAfter(ids, answers, BoundsIn(log[..v.end], v.floor), LatestOf(log[..v.end], v.floor))
                && sent == old(sent) + Announced(answers, cursor, true)
      ensures !Ahead(log, v, old(cursor)) ==>
                var events := PageOf(log, v, old(cursor), limit);
                && cursor == LastOf(events, old(cursor))
                && sent == old(sent) + (if Missed(log, v, ids, old(cursor)) then Announced(answers, old(cursor), true) else []) + Events(events)
      ensures hasMore <==> LatestOf(log[..v.end], v.floor).Some? && cursor < LatestOf(log[..v.end], v.floor).value
    {
      hide BoundsOf, Retained;
      var latest := LatestOf(log[..v.end], v.floor);
      if latest.Some? && cursor > latest.value {
        cursor := MultiplexedSnapshotCursor(ids, answers, BoundsIn(log[..v.end], v.floor), latest);
        Announce(answers, true);
      } else {
        var events := PageOf(log, v, cursor, limit);
        if Missed(log, v, ids, cursor) { Announce(answers, true); }
        Deliver(events);
      }
      hasMore := latest.Some? && cursor < latest.value;
    }

    /** Successive pumps, as the timer schedules them. */
    method PumpAll(log: seq<Record>, views: seq<View>, ids: seq<nat>, limit: nat)
      requires Ascending(log) && (forall i :: 0 <= i < |views| ==> views[i].end <= |log|) && Follow(log, ids, cursor, views, limit)
      modifies this
      ensures sent == old(sent) + Events(Sent(log, old(cursor), views, limit))
      decreases |views|
    {
      hide PageOf, Missed, Ahead, KeepsNewest, LatestOf;
      if views != [] {
        ghost var page, start := PageOf(log, views[0], cursor, limit), cursor;
        var hasMore := Pump(log, views[0], ids, limit, []);
        PumpAll(log, views[1..], ids, limit);
        assert Sent(log, start, views, limit) == page + Sent(log, LastOf(page, start), views[1..], limit);
        assert Events(page + Sent(log, LastOf(page, start), views[1..], limit))
            == Events(page) + Events(Sent(log, LastOf(page, start), views[1..], limit));
      }
    }
  }

  // ---------------------------------------------------------------- exactly once

  function Seen(log: seq<Record>, after: nat): (n: nat)
    requires Ascending(log)
    ensures n <= |log|
    ensures forall i :: 0 <= i < n ==> log[i].sequence <= after
    ensures forall i :: n <= i < |log| ==> log[i].sequence > after
  {
    if log == [] then 0
    else if log[|log| - 1].sequence <= after then |log|
    else Seen(log[..|log| - 1], after)
  }

  /** Retention keeps at least the newest record of every workspace. */
  predicate KeepsNewest(log: seq<Record>, v: View)
    requires v.end <= |log|
  {
    forall i :: 0 <= i < v.end ==> exists j :: i <= j < v.end && log[j].workspace == log[i].workspace && log[j].sequence >= v.floor(log[j].workspace)
  }

  lemma AscendingPrefix(log: seq<Record>, n: nat)
    requires Ascending(log) && n <= |log|
    ensures Ascending(log[..n]) && forall i :: 0 <= i < n ==> log[..n][i] == log[i]
  {
  }

  lemma NewestOf(log: seq<Record>, v: View, i: nat) returns (j: nat)
    requires v.end <= |log| && KeepsNewest(log, v) && i < v.end
    ensures i <= j < v.end && log[j].workspace == log[i].workspace && log[j].sequence >= v.floor(log[j].workspace)
  {
    j :| i <= j < v.end && log[j].workspace == log[i].workspace && log[j].sequence >= v.floor(log[j].workspace);
  }

  lemma NotMissedIn(log: seq<Record>, v: View, ids: seq<nat>, cursor: nat, w: nat)
    requires v.end <= |log| && !Missed(log, v, ids, cursor) && w in ids
    ensures BoundsOf(log[..v.end], v.floor, w).Some? ==> BoundsOf(log[..v.end], v.floor, w).value.oldest <= cursor + 1
  {
  }

  /** If no window is missed, nothing past the cursor was pruned. */
  lemma NotMissedMeansRetained(log: seq<Record>, v: View, ids: seq<nat>, cursor: nat, i: nat)
    requires Ascending(log) && v.end <= |log| && KeepsNewest(log, v) && !Missed(log, v, ids, cursor)
    requires i < v.end && log[i].workspace in ids && log[i].sequence > cursor
    ensures log[i].sequence >= v.floor(log[i].workspace)
  {
    hide Ascending, BoundsOf, LatestOf, KeepsNewest, Missed;
    var j := NewestOf(log, v, i);
    AscendingPrefix(log, v.end);
    assert log[..v.end][j] in log[..v.end];
    BoundsBound(log[..v.end], v.floor, log[j]);
    OldestIsRetained(log[..v.end], v.floor, log[i].workspace);
    NotMissedIn(log, v, ids, cursor, log[i].workspace);
  }

  lemma OldestIsRetained(log: seq<Record>, floor: nat -> nat, w: nat)
    ensures BoundsOf(log, floor, w).Some? ==> BoundsOf(log, floor, w).value.oldest >= floor(w)
  {
    RetainedMembers(log, floor, 0);
    OfWorkspaceMembers(Retained(log, floor, 0), w);
    var own := OfWorkspace(Retained(log, floor, 0), w);
    if own != [] { assert own[0] in own; }
  }

  predicate KeptPast(log: seq<Record>, floor: nat -> nat, cursor: nat) {
    forall i :: 0 <= i < |log| && log[i].sequence > cursor ==> log[i].sequence >= floor(log[i].workspace)
  }

  lemma {:induction false} AllRetained(log: seq<Record>, floor: nat -> nat, cursor: nat)
    requires Ascending(log) && KeptPast(log, floor, cursor)
    ensures Retained(log, floor, cursor) == log[Seen(log, cursor)..]
  {
    hide Ascending, Seen, KeptPast;
    if log != [] {
      SeenLast(log, cursor);
      KeptLast(log, floor, cursor);
      AllRetained(log[..|log| - 1], floor, cursor);
      DropLast(log, Seen(log[..|log| - 1], cursor));
    }
  }

  lemma KeptLast(log: seq<Record>, floor: nat -> nat, cursor: nat)
    requires log != [] && KeptPast(log, floor, cursor)
    ensures KeptPast(log[..|log| - 1], floor, cursor)
    ensures log[|log| - 1].sequence > cursor ==> log[|log| - 1].sequence >= floor(log[|log| - 1].workspace)
  {
  }

  lemma DropLast(log: seq<Record>, a: nat)
    requires log != [] && a <= |log| - 1
    ensures log[a..] == log[..|log| - 1][a..] + [log[|log| - 1]] && log[..|log| - 1][|log| - 1..] == [] == log[|log|..]
  {
  }

  lemma SeenLast(log: seq<Record>, cursor: nat)
    requires Ascending(log) && log != []
    ensures Ascending(log[..|log| - 1])
    ensures log[|log| - 1].sequence > cursor ==> Seen(log, cursor) == Seen(log[..|log| - 1], cursor)
    ensures log[|log| - 1].sequence <= cursor ==> Seen(log, cursor) == |log| && Seen(log[..|log| - 1], cursor) == |log| - 1
  {
    var front := log[..|log| - 1];
    if log[|log| - 1].sequence <= cursor {
      assert forall i :: 0 <= i < |front| ==> front[i].sequence <= cursor;
    }
  }

  lemma SeenPrefix(log: seq<Record>, n: nat, cursor: nat)
    requires Ascending(log) && n <= |log|
    ensures Seen(log[..n], cursor) == if Seen(log, cursor) < n then Seen(log, cursor) else n
  {
    var a, b := Seen(log[..n], cursor), Seen(log, cursor);
    assert forall i :: 0 <= i < n ==> log[..n][i] == log[i];
    assert a < n ==> log[..n][a].sequence > cursor;
    assert b < n ==> log[..n][b].sequence > cursor;
  }

  /** The place a pump reaches from place `a`. */
  function Reach(a: nat, end: nat, limit: nat): nat { if a >= end then a else Min(a + limit, end) }

  /** A pump whose window is not missed sees every record past its cursor, whatever was pruned behind it. */
  lemma WholeWindow(log: seq<Record>, v: View, ids: seq<nat>, cursor: nat)
    requires Ascending(log) && v.end <= |log| && KeepsNewest(log, v) && !Missed(log, v, ids, cursor)
    requires forall i :: 0 <= i < |log| ==> log[i].workspace in ids
    ensures Ascending(log[..v.end]) && Retained(log[..v.end], v.floor, cursor) == log[..v.end][Seen(log[..v.end], cursor)..]
  {
    hide KeepsNewest, Missed, Retained, Ascending, Seen;
    var window := log[..v.end];
    AscendingPrefix(log, v.end);
    assert KeptPast(window, v.floor, cursor) by {
      forall i | 0 <= i < |window| && window[i].sequence > cursor ensures window[i].sequence >= v.floor(window[i].workspace) {
        NotMissedMeansRetained(log, v, ids, cursor, i);
      }
    }
    AllRetained(window, v.floor, cursor);
  }

  /** ... and sends exactly the next ones. */
  lemma PageIsNext(log: seq<Record>, v: View, ids: seq<nat>, cursor: nat, limit: nat)
    requires Ascending(log) && v.end <= |log| && KeepsNewest(log, v) && !Missed(log, v, ids, cursor)
    requires forall i :: 0 <= i < |log| ==> log[i].workspace in ids
    ensures var a := Seen(log, cursor);
            var b := Reach(a, v.end, limit);
      && a <= b <= |log| && PageOf(log, v, cursor, limit) == log[a..b]
      && Seen(log, LastOf(log[a..b], cursor)) == b
  {
    hide KeepsNewest, Missed, Retained, Ascending, Seen;
    WholeWindow(log, v, ids, cursor);
    SeenPrefix(log, v.end, cursor);
    var a := Seen(log, cursor);
    var b := Reach(a, v.end, limit);
    if a < v.end {
      assert log[..v.end][a..] == log[a..v.end];
      assert Take(log[a..v.end], limit) == log[a..b];
    } else {
      assert log[..v.end][v.end..] == [] && log[a..a] == [];
    }
    if a < b { SeenAt(log, b - 1); }
  }

  lemma SeenAt(log: seq<Record>, i: nat)
    requires Ascending(log) && i < |log|
    ensures Seen(log, log[i].sequence) == i + 1
  {
    assert i + 1 < |log| ==> log[i + 1].sequence > log[i].sequence;
  }

  /** The windows of successive pumps are not missed, and the cursor is not ahead, each at the cursor its predecessors left. */
  ghost predicate Follow(log: seq<Record>, ids: seq<nat>, cursor: nat, views: seq<View>, limit: nat)
    decreases |views|
  {
    views == [] ||
    (&& views[0].end <= |log| && KeepsNewest(log, views[0])
     && !Missed(log, views[0], ids, cursor) && !Ahead(log, views[0], cursor)
     && Follow(log, ids, LastOf(PageOf(log, views[0], cursor, limit), cursor), views[1..], limit))
  }

  function Sent(log: seq<Record>, cursor: nat, views: seq<View>, limit: nat): seq<Record>
    requires forall i :: 0 <= i < |views| ==> views[i].end <= |log|
    decreases |views|
  {
    if views == [] then [] else
      var page := PageOf(log, views[0], cursor, limit);
      page + Sent(log, LastOf(page, cursor), views[1..], limit)
  }

  function ReachAll(a: nat, views: seq<View>, limit: nat): (b: nat)
    ensures a <= b
    decreases |views|
  {
    if views == [] then a else ReachAll(Reach(a, views[0].end, limit), views[1..], limit)
  }

  /**
   Exactly once and in order.  Over any number of pumps whose windows are not missed the events sent
   are one contiguous stretch of the log, from the first record past the cursor on: every record once,
   in strictly increasing sequence, none left out.
   */
  lemma {:induction false} ExactlyOnce(log: seq<Record>, ids: seq<nat>, cursor: nat, views: seq<View>, limit: nat)
    requires Ascending(log) && (forall i :: 0 <= i < |log| ==> log[i].workspace in ids)
    requires (forall i :: 0 <= i < |views| ==> views[i].end <= |log|) && Follow(log, ids, cursor, views, limit)
    ensures var a := Seen(log, cursor);
            var b := ReachAll(a, views, limit);
      b <= |log| && Sent(log, cursor, views, limit) == log[a..b]
    decreases |views|
  {
    hide PageOf, Missed, KeepsNewest, Seen, Reach, Ascending;
    if views == [] {
      assert log[Seen(log, cursor)..Seen(log, cursor)] == [];
    } else {
      var a := Seen(log, cursor);
      var c := Reach(a, views[0].end, limit);
      PageIsNext(log, views[0], ids, cursor, limit);
      var next := LastOf(PageOf(log, views[0], cursor, limit), cursor);
      ExactlyOnce(log, ids, next, views[1..], limit);
      var b := ReachAll(c, views[1..], limit);
      assert log[a..c] + log[c..b] == log[a..b];
    }
  }

  /** Enough pumps over views that show the first `n` records send all of them. */
  lemma {:induction false} AllSent(a: nat, views: seq<View>, limit: nat, n: nat)
    requires (forall i :: 0 <= i < |views| ==> n <= views[i].end) && n <= a + |views| * limit
    ensures n <= ReachAll(a, views, limit)
    decreases |views|
  {
    if views != [] {
      var b := Reach(a, views[0].end, limit);
      if a < n {
        assert |views| * limit == limit + |views[1..]| * limit;
        AllSent(b, views[1..], limit, n);
      }
    }
  }

  /**
   Opening and pump together: a record whose goal was snapshotted at the opening reaches the client --
   in a snapshot or as an event -- as soon as the pumps have come past it.
   */
  lemma EveryRecordReachesTheClient(log: seq<Record>, opening: View, ids: seq<nat>, answers: seq<Read>, views: seq<View>, limit: nat, i: nat)
    requires Ascending(log) && (forall k :: 0 <= k < |log| ==> log[k].workspace in ids) && opening.end <= |log|
    requires (forall k :: 0 <= k < |views| ==> views[k].end <= |log|)
    requires var cursor := CursorAfter(ids, answers, BoundsIn(log[..opening.end], opening.floor), LatestOf(log[..opening.end], opening.floor));
      Follow(log, ids, cursor, views, limit) && i < ReachAll(Seen(log, cursor), views, limit)
    requires i < |log| && Snapshotted(answers, log[i]) && (i < opening.end ==> log[i].sequence >= opening.floor(log[i].workspace))
    ensures var cursor := CursorAfter(ids, answers, BoundsIn(log[..opening.end], opening.floor), LatestOf(log[..opening.end], opening.floor));
      Covered(answers, log[i]) || log[i] in Sent(log, cursor, views, limit)
  {
    hide Follow, Sent, ReachAll, CursorAfter, LatestOf, Covered, Snapshotted, Seen, BoundsIn;
    var window := log[..opening.end];
    var cursor := CursorAfter(ids, answers, BoundsIn(window, opening.floor), LatestOf(window, opening.floor));
    OpeningLosesNone(log, opening, ids, answers, i);
    ExactlyOnce(log, ids, cursor, views, limit);
    if !Covered(answers, log[i]) {
      var a, b := Seen(log, cursor), ReachAll(Seen(log, cursor), views, limit);
      SeenBelow(log, cursor, i);
      assert log[a..b][i - a] == log[i];
    }
  }

  lemma SeenBelow(log: seq<Record>, cursor: nat, i: nat)
    requires Ascending(log) && i < |log| && log[i].sequence > cursor
    ensures Seen(log, cursor) <= i
  {
  }

  lemma OpeningLosesNone(log: seq<Record>, opening: View, ids: seq<nat>, answers: seq<Read>, i: nat)
    requires Ascending(log) && opening.end <= |log| && i < |log| && log[i].workspace in ids
    requires Snapshotted(answers, log[i]) && (i < opening.end ==> log[i].sequence >= opening.floor(log[i].workspace))
    ensures var cursor := CursorAfter(ids, answers, BoundsIn(log[..opening.end], opening.floor), LatestOf(log[..opening.end], opening.floor));
      Covered(answers, log[i]) || log[i].sequence > cursor
  {
    hide CursorAfter, LatestOf, Covered, Snapshotted, BoundsIn;
    var window := log[..opening.end];
    AscendingPrefix(log, opening.end);
    if i < opening.end { assert window[i] in window; }
    else { assert forall q <- window :: q.sequence < log[i].sequence; }
    NoLoss(window, opening.floor, ids, answers, log[i]);
  }
}
