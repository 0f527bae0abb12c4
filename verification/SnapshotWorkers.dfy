/** The bounded pool of workers that reads one snapshot page per workspace, sharing `nextIndex`. */
module SnapshotWorkers {
  import opened Prelude

  /** A worker runs from one await to the next; between two it holds the index whose read it awaits. */
  datatype Worker = Ready | Reading(index: nat) | Returned

  datatype Pool<+T> = Pool(nextIndex: nat, results: seq<Option<T>>, workers: seq<Worker>)

  /** `outcome` is the page that was read, or the error entry. */
  datatype Event<+T> = Claim(w: nat) | Settle(w: nat, outcome: T)

  const CONCURRENCY := 8

  function Start<T>(size: nat): Pool<T> {
    Pool(0, seq(size, _ => None), seq(if size < CONCURRENCY then size else CONCURRENCY, _ => Ready))
  }

  predicate Enabled<T>(p: Pool<T>, e: Event<T>) {
    match e
    case Claim(w) => w < |p.workers| && p.workers[w] == Ready
    case Settle(w, _) => w < |p.workers| && p.workers[w].Reading? && p.workers[w].index < |p.results|
  }

  function Next<T>(p: Pool<T>, e: Event<T>): Pool<T>
    requires Enabled(p, e)
  {
    match e
    case Claim(w) =>
      p.(nextIndex := p.nextIndex + 1,
         workers := p.workers[w := if p.nextIndex >= |p.results| then Returned else Reading(p.nextIndex)])
    case Settle(w, outcome) =>
      p.(results := p.results[p.workers[w].index := Some(outcome)], workers := p.workers[w := Ready])
  }

  predicate Runs<T>(p: Pool<T>, es: seq<Event<T>>)
    decreases |es|
  {
    es == [] || (Enabled(p, es[0]) && Runs(Next(p, es[0]), es[1..]))
  }

  function After<T>(p: Pool<T>, es: seq<Event<T>>): Pool<T>
    requires Runs(p, es)
    decreases |es|
  {
    if es == [] then p else After(Next(p, es[0]), es[1..])
  }

  predicate Holds<T>(p: Pool<T>, w: nat, i: nat) { w < |p.workers| && p.workers[w] == Reading(i) }

  /** Claimed indices are filled or held, by one worker; the others are neither; a worker returns only at the end. */
  ghost predicate Sound<T>(p: Pool<T>) {
    && (forall i :: 0 <= i < |p.results| ==> (p.results[i].Some? || (exists w: nat :: Holds(p, w, i)) <==> i < p.nextIndex))
    && (forall w: nat, i: nat :: Holds(p, w, i) ==> i < |p.results| && p.results[i].None?)
    && (forall v: nat, w: nat, i: nat :: Holds(p, v, i) && Holds(p, w, i) ==> v == w)
    && (forall w :: 0 <= w < |p.workers| && p.workers[w] == Returned ==> p.nextIndex > |p.results|)
  }

  lemma ClaimSound<T>(p: Pool<T>, w: nat)
    requires Sound(p) && Enabled(p, Claim(w))
    ensures Sound(Next(p, Claim(w)))
  {
    var q := Next(p, Claim(w));
    assert forall v: nat, i: nat :: v != w ==> (Holds(q, v, i) <==> Holds(p, v, i));
    assert forall i: nat :: !Holds(p, w, i);
    assert forall i: nat :: Holds(q, w, i) <==> i == p.nextIndex && i < |p.results|;
    forall i | 0 <= i < |q.results|
      ensures q.results[i].Some? || (exists v: nat :: Holds(q, v, i)) <==> i < q.nextIndex
    {
      if i == p.nextIndex { assert Holds(q, w, i); }
      else if v: nat :| Holds(p, v, i) { assert v != w && Holds(q, v, i); }
    }
  }

  lemma SettleSound<T>(p: Pool<T>, w: nat, outcome: T)
    requires Sound(p) && Enabled(p, Settle(w, outcome))
    ensures Sound(Next(p, Settle(w, outcome)))
  {
    var q := Next(p, Settle(w, outcome));
    var k := p.workers[w].index;
    assert Holds(p, w, k);
    assert forall v: nat, i: nat :: v != w ==> (Holds(q, v, i) <==> Holds(p, v, i));
    assert forall i: nat :: !Holds(q, w, i);
    forall i | 0 <= i < |q.results|
      ensures q.results[i].Some? || (exists v: nat :: Holds(q, v, i)) <==> i < q.nextIndex
    {
      if i != k {
        assert q.results[i] == p.results[i];
        if v: nat :| Holds(p, v, i) { assert v != w && Holds(q, v, i); }
      }
    }
  }

  /** What has been filled stays: no result is overwritten. */
  predicate Keeps<T(==)>(p: Pool<T>, q: Pool<T>) {
    |q.results| == |p.results| && |q.workers| == |p.workers|
    && forall i :: 0 <= i < |p.results| && p.results[i].Some? ==> q.results[i] == p.results[i]
  }

  lemma {:induction false} RunSound<T>(p: Pool<T>, es: seq<Event<T>>)
    requires Sound(p) && Runs(p, es)
    ensures Sound(After(p, es)) && Keeps(p, After(p, es))
    decreases |es|
  {
    if es != [] {
      var q := Next(p, es[0]);
      match es[0] {
        case Claim(w) => ClaimSound(p, w);
        case Settle(w, outcome) => SettleSound(p, w, outcome); assert Holds(p, w, p.workers[w].index);
      }
      hide Sound, Next, Runs, After;
      NextKeeps(p, es[0]);
      RunRest(p, es);
      RunSound(q, es[1..]);
    }
  }

  lemma NextKeeps<T>(p: Pool<T>, e: Event<T>)
    requires Sound(p) && Enabled(p, e)
    ensures Keeps(p, Next(p, e))
  {
    if e.Settle? { assert Holds(p, e.w, p.workers[e.w].index); }
  }

  lemma RunRest<T>(p: Pool<T>, es: seq<Event<T>>)
    requires es != [] && Runs(p, es)
    ensures Enabled(p, es[0]) && Runs(Next(p, es[0]), es[1..]) && After(p, es) == After(Next(p, es[0]), es[1..])
  {
  }

  lemma StartSound<T>(size: nat)
    ensures Sound<T>(Start(size))
  {
  }

  /** When every worker has returned, every workspace has exactly one result; and before that no result is overwritten. */
  lemma AllFilledOnce<T>(size: nat, es: seq<Event<T>>)
    requires size > 0 && Runs(Start(size), es)
    ensures |After(Start(size), es).results| == size
    ensures var p := After(Start(size), es);
      (forall w :: 0 <= w < |p.workers| ==> p.workers[w] == Returned) ==> forall i :: 0 <= i < size ==> p.results[i].Some?
  {
    StartSound<T>(size);
    RunSound(Start(size), es);
    var p := After(Start(size), es);
    hide Runs, After;
    if forall w :: 0 <= w < |p.workers| ==> p.workers[w] == Returned {
      assert p.workers[0] == Returned;
      assert forall w: nat, i: nat :: !Holds(p, w, i);
    }
  }
}
