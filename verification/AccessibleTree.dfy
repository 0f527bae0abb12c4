/**
 The bounded breadth-first collection of accessible objects over AT-SPI.  `children` answers one
 GetChildren query per path (None is a failed query); names and roles are answered likewise.
 */
module AccessibleTree {
  import opened Prelude

  /** Paths are compared, never taken apart. */
  datatype Path = Path(text: string)

  datatype Accessible = Accessible(path: Path, depth: nat, title: Option<string>, role: string)

  datatype Entry = Entry(path: Path, depth: nat)

  datatype Options = Options(root: Path, maxItems: nat, maxDepth: nat)

  datatype Bus = Bus(children: Path -> Option<seq<Path>>, name: Path -> Option<string>, role: Path -> Option<string>)

  function Kids(bus: Bus, p: Path): seq<Path> { if bus.children(p).Some? then bus.children(p).value else [] }

  /** There is a walk of `k` steps from the root to `p`. */
  ghost predicate Reaches(bus: Bus, root: Path, p: Path, k: nat)
    decreases k
  {
    if k == 0 then p == root else exists u: Path :: Reaches(bus, root, u, k - 1) && p in Kids(bus, u)
  }

  ghost predicate Within(bus: Bus, o: Options, p: Path) { exists k: nat :: k <= o.maxDepth && Reaches(bus, o.root, p, k) }

  predicate DistinctPaths(records: seq<Accessible>) { forall i, j :: 0 <= i < j < |records| ==> records[i].path != records[j].path }

  predicate DepthsRise(records: seq<Accessible>) { forall i, j :: 0 <= i < j < |records| ==> records[i].depth <= records[j].depth }

  function NonEmpty(s: Option<string>): Option<string> { if s == Some("") then None else s }

  /** The record made of a path. */
  function Describe(bus: Bus, p: Path, depth: nat): Accessible {
    var role := NonEmpty(bus.role(p));
    Accessible(p, depth, NonEmpty(bus.name(p)), if role.Some? then role.value else "unknown")
  }

  // ---------------------------------------------------------------- the loop's state

  /** Queue, visited paths with the depth they were visited at, and records. */
  datatype State = State(queue: seq<Entry>, depths: map<Path, nat>, records: seq<Accessible>)

  /** Every entry and visit is witnessed by a walk of that length, within the depth bound. */
  ghost predicate Walked(bus: Bus, o: Options, s: State) {
    && (forall i :: 0 <= i < |s.queue| ==> s.queue[i].depth <= o.maxDepth && Reaches(bus, o.root, s.queue[i].path, s.queue[i].depth))
    && (forall p <- s.depths :: s.depths[p] <= o.maxDepth && Reaches(bus, o.root, p, s.depths[p]))
  }

  /** The queue rises in depth by at most one, and nothing visited is deeper than what is queued. */
  ghost predicate Layered(s: State) {
    && (forall i, j :: 0 <= i < j < |s.queue| ==> s.queue[i].depth <= s.queue[j].depth <= s.queue[i].depth + 1)
    && (forall p <- s.depths, i :: 0 <= i < |s.queue| ==> s.depths[p] <= s.queue[i].depth)
  }

  /** The records are the visited paths but the root, each once, in rising depth. */
  ghost predicate Recorded(o: Options, s: State) {
    && DistinctPaths(s.records) && DepthsRise(s.records)
    && (forall i :: 0 <= i < |s.records| ==>
          s.records[i].path != o.root && s.records[i].path in s.depths && s.depths[s.records[i].path] == s.records[i].depth)
    && (forall p <- s.depths :: p != o.root ==> exists i :: 0 <= i < |s.records| && s.records[i].path == p)
  }

  /** `c` was visited at depth at most `d`, or waits in the queue at depth `d`. */
  ghost predicate Scheduled(s: State, c: Path, d: nat) { (c in s.depths && s.depths[c] <= d) || Entry(c, d) in s.queue }

  /** Children of a visited path above the bound are scheduled one deeper. */
  ghost predicate Expanded(bus: Bus, o: Options, s: State, p: Path)
    requires p in s.depths
  {
    s.depths[p] < o.maxDepth ==> forall c <- Kids(bus, p) :: Scheduled(s, c, s.depths[p] + 1)
  }

  ghost predicate Complete(bus: Bus, o: Options, s: State) {
    && Scheduled(s, o.root, 0)
    && forall p <- s.depths :: Expanded(bus, o, s, p)
  }

  ghost predicate Sound(bus: Bus, o: Options, s: State, capped: bool) {
    Walked(bus, o, s) && Layered(s) && Recorded(o, s) && (!capped ==> Complete(bus, o, s))
  }

  // ---------------------------------------------------------------- steps

  lemma PopLayered(s: State, t: State)
    requires Layered(s) && s.queue != [] && t == s.(queue := s.queue[1..])
    ensures Layered(t)
  {
    assert forall i :: 0 <= i < |t.queue| ==> t.queue[i] == s.queue[i + 1];
  }

  lemma PopWalked(bus: Bus, o: Options, s: State, t: State)
    requires Walked(bus, o, s) && s.queue != [] && t == s.(queue := s.queue[1..])
    ensures Walked(bus, o, t)
  {
    hide Reaches;
    assert forall i :: 0 <= i < |t.queue| ==> t.queue[i] == s.queue[i + 1];
  }

  lemma PopComplete(bus: Bus, o: Options, s: State, t: State)
    requires Layered(s) && Complete(bus, o, s) && s.queue != [] && t == s.(queue := s.queue[1..]) && s.queue[0].path in s.depths
    ensures Complete(bus, o, t)
  {
    hide Layered, Scheduled;
    forall c, d: nat | Scheduled(s, c, d) ensures Scheduled(t, c, d) { ScheduledAfterPop(s, c, d); }
    forall p <- t.depths ensures Expanded(bus, o, t, p) { assert Expanded(bus, o, s, p); }
  }

  /** A path that was visited before is dropped. */
  lemma DropVisited(bus: Bus, o: Options, s: State, capped: bool)
    requires Sound(bus, o, s, capped) && s.queue != [] && s.queue[0].path in s.depths
    ensures Sound(bus, o, s.(queue := s.queue[1..]), capped)
  {
    hide Layered, Walked, Complete, DistinctPaths, DepthsRise;
    var t := s.(queue := s.queue[1..]);
    PopLayered(s, t);
    PopWalked(bus, o, s, t);
    if !capped { PopComplete(bus, o, s, t); }
  }

  lemma ScheduledAfterPop(s: State, c: Path, d: nat)
    requires Layered(s) && s.queue != [] && Scheduled(s, c, d)
    ensures Scheduled(s.(queue := s.queue[1..]), c, d) || s.queue[0] == Entry(c, d)
    ensures s.queue[0] == Entry(c, d) && c in s.depths ==> Scheduled(s.(queue := s.queue[1..]), c, d)
  {
    if Entry(c, d) in s.queue {
      var i :| 0 <= i < |s.queue| && s.queue[i] == Entry(c, d);
      if i > 0 { assert s.queue[1..][i - 1] == Entry(c, d); }
    }
  }

  /** Visiting the front of the queue, before its children are queued. */
  function Visit(bus: Bus, o: Options, s: State): State
    requires s.queue != []
  {
    var e := s.queue[0];
    State(s.queue[1..], s.depths[e.path := e.depth],
          if e.path == o.root then s.records else s.records + [Describe(bus, e.path, e.depth)])
  }

  /** Complete but for the children of `p`. */
  ghost predicate CompleteBut(bus: Bus, o: Options, s: State, p: Path) {
    Scheduled(s, o.root, 0) && forall q <- s.depths :: q != p ==> Expanded(bus, o, s, q)
  }

  lemma VisitLayered(bus: Bus, o: Options, s: State)
    requires Layered(s) && s.queue != []
    ensures Layered(Visit(bus, o, s))
  {
    var t := Visit(bus, o, s);
    assert forall i :: 0 <= i < |t.queue| ==> t.queue[i] == s.queue[i + 1];
    assert forall p <- t.depths :: p == s.queue[0].path || (p in s.depths && t.depths[p] == s.depths[p]);
  }

  lemma VisitWalked(bus: Bus, o: Options, s: State)
    requires Walked(bus, o, s) && s.queue != []
    ensures Walked(bus, o, Visit(bus, o, s))
  {
    hide Reaches;
    var t := Visit(bus, o, s);
    assert forall i :: 0 <= i < |t.queue| ==> t.queue[i] == s.queue[i + 1];
    assert forall p <- t.depths :: p == s.queue[0].path || (p in s.depths && t.depths[p] == s.depths[p]);
  }

  lemma VisitComplete(bus: Bus, o: Options, s: State)
    requires Layered(s) && Complete(bus, o, s) && s.queue != [] && s.queue[0].path !in s.depths
    ensures CompleteBut(bus, o, Visit(bus, o, s), s.queue[0].path)
  {
    hide Layered, Scheduled;
    var t := Visit(bus, o, s);
    forall c, d: nat | Scheduled(s, c, d) ensures Scheduled(t, c, d) { ScheduledAfterVisit(bus, o, s, c, d); }
    forall q <- t.depths | q != s.queue[0].path ensures Expanded(bus, o, t, q) { assert Expanded(bus, o, s, q); }
  }

  lemma VisitFront(bus: Bus, o: Options, s: State, capped: bool)
    requires Sound(bus, o, s, capped) && s.queue != [] && s.queue[0].path !in s.depths
    ensures var t := Visit(bus, o, s);
      && Walked(bus, o, t) && Layered(t) && Recorded(o, t)
      && (!capped ==> CompleteBut(bus, o, t, s.queue[0].path))
  {
    hide Layered, Walked, Complete, CompleteBut, Recorded, Visit;
    VisitRecords(bus, o, s);
    VisitLayered(bus, o, s);
    VisitWalked(bus, o, s);
    if !capped { VisitComplete(bus, o, s); }
  }

  lemma ScheduledAfterVisit(bus: Bus, o: Options, s: State, c: Path, d: nat)
    requires Layered(s) && s.queue != [] && s.queue[0].path !in s.depths && Scheduled(s, c, d)
    ensures Scheduled(Visit(bus, o, s), c, d)
  {
    if Entry(c, d) in s.queue {
      var i :| 0 <= i < |s.queue| && s.queue[i] == Entry(c, d);
      if i > 0 { assert s.queue[1..][i - 1] == Entry(c, d); }
    }
  }

  lemma VisitRecords(bus: Bus, o: Options, s: State)
    requires Recorded(o, s) && Layered(s) && s.queue != [] && s.queue[0].path !in s.depths
    ensures Recorded(o, Visit(bus, o, s))
  {
    var e := s.queue[0];
    assert forall i :: 0 <= i < |s.records| ==> s.records[i].depth <= e.depth by {
      forall i | 0 <= i < |s.records| ensures s.records[i].depth <= e.depth { assert s.records[i].path in s.depths; }
    }
    hide Layered;
    RecordMore(o, s, s.queue[1..], e, Describe(bus, e.path, e.depth));
  }

  lemma RecordMore(o: Options, s: State, queue: seq<Entry>, e: Entry, r: Accessible)
    requires Recorded(o, s) && e.path !in s.depths && r.path == e.path && r.depth == e.depth
    requires forall i :: 0 <= i < |s.records| ==> s.records[i].depth <= e.depth
    ensures Recorded(o, State(queue, s.depths[e.path := e.depth], if e.path == o.root then s.records else s.records + [r]))
  {
    var t := State(queue, s.depths[e.path := e.depth], if e.path == o.root then s.records else s.records + [r]);
    assert forall i :: 0 <= i < |s.records| ==> t.records[i] == s.records[i];
    forall p <- t.depths | p != o.root ensures exists i :: 0 <= i < |t.records| && t.records[i].path == p {
      if p == e.path { assert t.records[|s.records|].path == p; }
      else {
        assert p in s.depths;
        var i :| 0 <= i < |s.records| && s.records[i].path == p;
        assert t.records[i].path == p;
      }
    }
  }

  /** The queue after the first `n` children of a visited path were queued. */
  function Queued(queue: seq<Entry>, kids: seq<Path>, depth: nat, n: nat): (q: seq<Entry>)
    requires n <= |kids|
    ensures |q| == |queue| + n
    ensures forall i :: 0 <= i < |queue| ==> q[i] == queue[i]
    ensures forall i :: 0 <= i < n ==> q[|queue| + i] == Entry(kids[i], depth + 1)
  {
    queue + seq(n, i requires 0 <= i < n => Entry(kids[i], depth + 1))
  }

  lemma QueueWalked(bus: Bus, o: Options, s: State, t: State, p: Path, n: nat)
    requires Walked(bus, o, s) && p in s.depths && n <= |Kids(bus, p)| && (n > 0 ==> s.depths[p] < o.maxDepth)
    requires t == s.(queue := Queued(s.queue, Kids(bus, p), s.depths[p], n))
    ensures Walked(bus, o, t)
  {
    hide Queued;
    var kids, d := Kids(bus, p), s.depths[p];
    forall i | 0 <= i < |t.queue| ensures t.queue[i].depth <= o.maxDepth && Reaches(bus, o.root, t.queue[i].path, t.queue[i].depth) {
      if i >= |s.queue| {
        assert t.queue[|s.queue| + (i - |s.queue|)] == Entry(kids[i - |s.queue|], d + 1) && Reaches(bus, o.root, p, d);
      } else { assert t.queue[i] == s.queue[i]; }
    }
  }

  lemma QueueLayered(s: State, t: State, kids: seq<Path>, d: nat, n: nat)
    requires Layered(s) && n <= |kids| && t == s.(queue := Queued(s.queue, kids, d, n))
    requires (forall q <- s.depths :: s.depths[q] <= d) && (forall i :: 0 <= i < |s.queue| ==> d <= s.queue[i].depth <= d + 1)
    ensures Layered(t)
  {
    hide Queued;
    forall i | 0 <= i < |t.queue| ensures if i < |s.queue| then t.queue[i] == s.queue[i] else t.queue[i].depth == d + 1 {
      if i >= |s.queue| {
        var k := i - |s.queue|;
        assert t.queue[|s.queue| + k] == Entry(kids[k], d + 1);
      }
    }
  }

  lemma QueueComplete(bus: Bus, o: Options, s: State, t: State, p: Path, n: nat)
    requires CompleteBut(bus, o, s, p) && p in s.depths && n <= |Kids(bus, p)|
    requires t == s.(queue := Queued(s.queue, Kids(bus, p), s.depths[p], n)) && (s.depths[p] >= o.maxDepth || n == |Kids(bus, p)|)
    ensures Complete(bus, o, t)
  {
    hide Queued;
    var kids, d := Kids(bus, p), s.depths[p];
    forall c, k: nat | Scheduled(s, c, k) ensures Scheduled(t, c, k) {
      if Entry(c, k) in s.queue { var i :| 0 <= i < |s.queue| && s.queue[i] == Entry(c, k); assert t.queue[i] == Entry(c, k); }
    }
    if d < o.maxDepth {
      forall c <- kids ensures Scheduled(t, c, d + 1) { var i :| 0 <= i < |kids| && kids[i] == c; assert t.queue[|s.queue| + i] == Entry(c, d + 1); }
    }
    hide Scheduled;
    forall q <- t.depths ensures Expanded(bus, o, t, q) { if q != p { assert Expanded(bus, o, s, q); } }
  }

  /** Queueing children keeps the invariant; if all of them were queued it is complete again. */
  lemma QueueChildren(bus: Bus, o: Options, s: State, capped: bool, p: Path, n: nat)
    requires Walked(bus, o, s) && Layered(s) && Recorded(o, s) && (!capped ==> CompleteBut(bus, o, s, p))
    requires p in s.depths && (forall q <- s.depths :: s.depths[q] <= s.depths[p])
    requires forall i :: 0 <= i < |s.queue| ==> s.queue[i].depth <= s.depths[p] + 1
    requires n <= |Kids(bus, p)| && (n > 0 ==> s.depths[p] < o.maxDepth)
    ensures var t := s.(queue := Queued(s.queue, Kids(bus, p), s.depths[p], n));
      Sound(bus, o, t, capped || (s.depths[p] < o.maxDepth && n < |Kids(bus, p)|))
  {
    var t := s.(queue := Queued(s.queue, Kids(bus, p), s.depths[p], n));
    assert forall i :: 0 <= i < |s.queue| ==> s.depths[p] <= s.queue[i].depth;
    QueueLayered(s, t, Kids(bus, p), s.depths[p], n);
    hide Layered, Walked, Complete, CompleteBut, Queued, DistinctPaths, DepthsRise;
    QueueWalked(bus, o, s, t, p, n);
    if !capped && (s.depths[p] >= o.maxDepth || n == |Kids(bus, p)|) { QueueComplete(bus, o, s, t, p, n); }
  }

  // ---------------------------------------------------------------- the end

  /** With an empty queue and no cap, every walk within the bound ends in a visited path, no deeper than the walk is long. */
  lemma {:induction false} WalksAreVisited(bus: Bus, o: Options, s: State, p: Path, k: nat)
    requires Complete(bus, o, s) && s.queue == [] && k <= o.maxDepth && Reaches(bus, o.root, p, k)
    ensures p in s.depths && s.depths[p] <= k
    decreases k
  {
    if k > 0 {
      var u: Path :| Reaches(bus, o.root, u, k - 1) && p in Kids(bus, u);
      WalksAreVisited(bus, o, s, u, k - 1);
      assert Expanded(bus, o, s, u);
    }
  }

  /** What a collection that met no cap has found. */
  ghost predicate Exact(bus: Bus, o: Options, records: seq<Accessible>) {
    && (forall p :: (exists i :: 0 <= i < |records| && records[i].path == p) <==> p != o.root && Within(bus, o, p))
    && forall i, k: nat :: 0 <= i < |records| && Reaches(bus, o.root, records[i].path, k) ==> records[i].depth <= k
  }

  lemma ExactAtEnd(bus: Bus, o: Options, s: State)
    requires Walked(bus, o, s) && Recorded(o, s) && Complete(bus, o, s) && s.queue == []
    ensures Exact(bus, o, s.records)
  {
    forall p ensures (exists i :: 0 <= i < |s.records| && s.records[i].path == p) <==> p != o.root && Within(bus, o, p) {
      if p != o.root && Within(bus, o, p) {
        var k: nat :| k <= o.maxDepth && Reaches(bus, o.root, p, k);
        WalksAreVisited(bus, o, s, p, k);
      }
    }
    forall i, k: nat | 0 <= i < |s.records| && Reaches(bus, o.root, s.records[i].path, k) ensures s.records[i].depth <= k {
      if k <= o.maxDepth { WalksAreVisited(bus, o, s, s.records[i].path, k); }
    }
  }

  // ---------------------------------------------------------------- when the caps fire

  /** How many child links the paths of a set have. */
  ghost function Links(bus: Bus, paths: set<Path>): nat {
    if paths == {} then 0 else
      var p :| p in paths;
      |Kids(bus, p)| + Links(bus, paths - {p})
  }

  lemma {:induction false} LinksAdd(bus: Bus, paths: set<Path>, p: Path)
    requires p !in paths
    ensures Links(bus, paths + {p}) == Links(bus, paths) + |Kids(bus, p)|
    decreases |paths|
  {
    var all := paths + {p};
    var q :| q in all && Links(bus, all) == |Kids(bus, q)| + Links(bus, all - {q});
    if q == p {
      assert all - {p} == paths;
    } else {
      assert all - {q} == (paths - {q}) + {p};
      LinksAdd(bus, paths - {q}, p);
      LinksAdd(bus, paths - {q}, q);
      assert (paths - {q}) + {q} == paths;
    }
  }

  function PathsOf(records: seq<Accessible>): set<Path> { set r <- records :: r.path }

  lemma VisitedPaths(o: Options, s: State)
    requires Recorded(o, s) && o.root in s.depths
    ensures s.depths.Keys == {o.root} + PathsOf(s.records)
  {
    forall p <- s.depths | p != o.root ensures p in PathsOf(s.records) {
      var i :| 0 <= i < |s.records| && s.records[i].path == p;
      assert s.records[i] in s.records;
    }
  }

  // ---------------------------------------------------------------- collect_accessibles

  /**
   Records are distinct non-root paths in rising depth, each at the end of a walk of its depth.  If
   neither cap fired they are exactly the paths within `maxDepth`, each at its shortest distance.  A
   cap fires only with `maxItems` records, or when the root and the recorded paths together have more
   than twice `maxItems` child links.
   The loop ends: a turn that does not shorten the queue records a path or visits the root.
   */
  method CollectAccessibles(bus: Bus, o: Options) returns (out: Result<seq<Accessible>, ()>, ghost capped: bool)
    ensures out.Ok? ==>
              && |out.value| <= o.maxItems && DistinctPaths(out.value) && DepthsRise(out.value) && Described(bus, out.value)
              && (forall i :: 0 <= i < |out.value| ==>
                    var r := out.value[i];
                    r.path != o.root && r.depth <= o.maxDepth && Reaches(bus, o.root, r.path, r.depth))
              && (!capped ==> Exact(bus, o, out.value))
              && (capped ==> |out.value| == o.maxItems || Links(bus, {o.root} + PathsOf(out.value)) > 2 * o.maxItems)
    ensures out.Err? ==> exists p: Path :: Within(bus, o, p) && bus.children(p).None?
  {
    hide Sound, Reaches, Walked, Layered, Recorded, Complete, CompleteBut, Visit, Queued, Describe, DistinctPaths, DepthsRise, Exact, Within, Links, Kids, PathsOf;
    var queue, visited, records := [Entry(o.root, 0)], {}, [];
    ghost var s := State(queue, map[], []);
    ghost var pushed := 0;
    capped := false;
    StartSound(bus, o);
    while queue != []
      invariant s.queue == queue && s.records == records && visited == s.depths.Keys && Sound(bus, o, s, capped)
      invariant |records| <= o.maxItems
      invariant |records| == o.maxItems ==> o.maxItems == 0 && forall i :: 0 <= i < |queue| ==> queue[i].path == o.root
      invariant Described(bus, records)
      invariant |queue| + |records| + (if o.root in visited then 1 else 0) <= pushed + 1
      invariant pushed <= Links(bus, visited) && (capped ==> Links(bus, visited) > 2 * o.maxItems)
      invariant o.root in visited || (queue == [Entry(o.root, 0)] && !capped)
      decreases o.maxItems - |records|, if o.root in visited then 0 else 1, |queue|
    {
      var entry := queue[0];
      if entry.path in visited {
        DropVisited(bus, o, s, capped);
        queue := queue[1..];
        s := s.(queue := queue);
        continue;
      }
      VisitFront(bus, o, s, capped);
      VisitFacts(bus, o, s, capped);
      s := Visit(bus, o, s);
      queue := queue[1..];
      LinksAdd(bus, visited, entry.path);
      visited := visited + {entry.path};
      if entry.path != o.root {
        records := records + [Describe(bus, entry.path, entry.depth)];
        DescribedMore(bus, records);
        if |records| >= o.maxItems {
          capped := true;
          assert |records| == o.maxItems;
          RecordsAreWalked(bus, o, s);
          return Ok(records), capped;
        }
      }
      var kids: seq<Path> := [];
      if entry.depth < o.maxDepth {
        if bus.children(entry.path).None? {
          FailedQuery(bus, o, entry);
          return Err(()), capped;
        }
        kids := bus.children(entry.path).value;
        assert kids == Kids(bus, entry.path) by { KidsOf(bus, entry.path); }
      }
      ghost var before := queue;
      var i := 0;
      NoKidsQueued(bus, before, entry, o, kids);
      while i < |kids| && |queue| + |records| < 2 * o.maxItems
        invariant 0 <= i <= |kids| && queue == Queued(before, kids, entry.depth, i)
        invariant i > 0 ==> o.maxItems > 0
        invariant |queue| + |records| <= pushed + i
      {
        OneMoreQueued(before, kids, entry.depth, i);
        queue := queue + [Entry(kids[i], entry.depth + 1)];
        i := i + 1;
      }
      QueueChildren(bus, o, s, capped, entry.path, i);
      capped := capped || i < |kids|;
      pushed := pushed + i;
      s := s.(queue := queue);
    }
    EndSound(bus, o, s, capped);
    VisitedPaths(o, s) by { SoundRecorded(bus, o, s, capped); }
    return Ok(records), capped;
  }

  predicate Described(bus: Bus, records: seq<Accessible>) {
    forall i :: 0 <= i < |records| ==> records[i] == Describe(bus, records[i].path, records[i].depth)
  }

  lemma DescribedMore(bus: Bus, records: seq<Accessible>)
    requires records != [] && Described(bus, records[..|records| - 1])
    requires exists p, d :: records[|records| - 1] == Describe(bus, p, d)
    ensures Described(bus, records)
  {
    assert forall i :: 0 <= i < |records| - 1 ==> records[i] == records[..|records| - 1][i];
  }

  lemma OneMoreQueued(queue: seq<Entry>, kids: seq<Path>, depth: nat, i: nat)
    requires i < |kids|
    ensures Queued(queue, kids, depth, i) + [Entry(kids[i], depth + 1)] == Queued(queue, kids, depth, i + 1)
  {
  }

  lemma FailedQuery(bus: Bus, o: Options, e: Entry)
    requires e.depth <= o.maxDepth && Reaches(bus, o.root, e.path, e.depth)
    ensures Within(bus, o, e.path)
  {
  }

  /** The shape of a visit, and what is known of the visited entry. */
  lemma VisitFacts(bus: Bus, o: Options, s: State, capped: bool)
    requires Sound(bus, o, s, capped) && s.queue != []
    ensures var e, t := s.queue[0], Visit(bus, o, s);
      && t.queue == s.queue[1..] && t.depths == s.depths[e.path := e.depth]
      && t.records == (if e.path == o.root then s.records else s.records + [Describe(bus, e.path, e.depth)])
      && e.depth <= o.maxDepth && Reaches(bus, o.root, e.path, e.depth)
      && (forall p <- t.depths :: t.depths[p] <= e.depth) && (forall i :: 0 <= i < |t.queue| ==> t.queue[i].depth <= e.depth + 1)
  {
    hide Reaches;
  }

  lemma KidsOf(bus: Bus, p: Path)
    requires bus.children(p).Some?
    ensures Kids(bus, p) == bus.children(p).value
  {
  }

  lemma SoundRecorded(bus: Bus, o: Options, s: State, capped: bool)
    requires Sound(bus, o, s, capped)
    ensures Recorded(o, s)
  {
  }

  lemma StartSound(bus: Bus, o: Options)
    ensures Sound(bus, o, State([Entry(o.root, 0)], map[], []), false)
  {
  }

  lemma NoKidsQueued(bus: Bus, queue: seq<Entry>, e: Entry, o: Options, kids: seq<Path>)
    ensures Queued(queue, kids, e.depth, 0) == queue == Queued(queue, Kids(bus, e.path), e.depth, 0)
  {
  }

  lemma RecordsAreWalked(bus: Bus, o: Options, s: State)
    requires Walked(bus, o, s) && Recorded(o, s)
    ensures DistinctPaths(s.records) && DepthsRise(s.records)
    ensures forall i :: 0 <= i < |s.records| ==>
              s.records[i].path != o.root && s.records[i].depth <= o.maxDepth && Reaches(bus, o.root, s.records[i].path, s.records[i].depth)
  {
  }

  lemma EndSound(bus: Bus, o: Options, s: State, capped: bool)
    requires Sound(bus, o, s, capped) && s.queue == []
    ensures DistinctPaths(s.records) && DepthsRise(s.records)
    ensures forall i :: 0 <= i < |s.records| ==>
              s.records[i].path != o.root && s.records[i].depth <= o.maxDepth && Reaches(bus, o.root, s.records[i].path, s.records[i].depth)
    ensures !capped ==> Exact(bus, o, s.records)
  {
    RecordsAreWalked(bus, o, s);
    if !capped { ExactAtEnd(bus, o, s); }
  }
}
