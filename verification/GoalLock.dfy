/**
 The promise-chain lock per goal.  A call that arrives remembers the chain it found (`previous`),
 publishes its own, and waits; a chain is settled once its own gate is released and the chain it
 continues is settled.  Waiting, running and finishing are separate steps, so a sequence of enabled
 events is one interleaving of any number of calls on any goals.
 */
module GoalLock {
  import opened Prelude

  datatype Stage = Waiting | Running | Finished

  datatype Call = Call(goal: nat, previous: Option<nat>, stage: Stage)

  /** Calls in order of arrival; `chains` maps a goal to the call that published its chain. */
  datatype Lock = Lock(calls: seq<Call>, chains: map<nat, nat>)

  datatype Event =
    | Arrive(goal: nat)
    | Begin(i: nat)                  // the awaited chain has settled
    | End(i: nat)                    // the operation has returned or thrown, and `finally` runs

  const IDLE := Lock([], map[])

  /** Is the chain published by call `i` settled? */
  predicate Settled(calls: seq<Call>, i: nat)
    decreases i
  {
    && i < |calls| && calls[i].stage == Finished
    && (calls[i].previous.Some? ==> calls[i].previous.value < i && Settled(calls, calls[i].previous.value))
  }

  predicate Enabled(l: Lock, e: Event) {
    match e
    case Arrive(_) => true
    case Begin(i) =>
      && i < |l.calls| && l.calls[i].stage == Waiting
      && (l.calls[i].previous.Some? ==> Settled(l.calls, l.calls[i].previous.value))
    case End(i) => i < |l.calls| && l.calls[i].stage == Running
  }

  function Next(l: Lock, e: Event): Lock
    requires Enabled(l, e)
  {
    match e
    case Arrive(goal) =>
      Lock(l.calls + [Call(goal, if goal in l.chains then Some(l.chains[goal]) else None, Waiting)], l.chains[goal := |l.calls|])
    case Begin(i) => l.(calls := l.calls[i := l.calls[i].(stage := Running)])
    case End(i) =>
      var goal := l.calls[i].goal;
      Lock(l.calls[i := l.calls[i].(stage := Finished)],
           if goal in l.chains && l.chains[goal] == i then l.chains - {goal} else l.chains)
  }

  predicate Runs(l: Lock, es: seq<Event>)
    decreases |es|
  {
    es == [] || (Enabled(l, es[0]) && Runs(Next(l, es[0]), es[1..]))
  }

  function After(l: Lock, es: seq<Event>): Lock
    requires Runs(l, es)
    decreases |es|
  {
    if es == [] then l else After(Next(l, es[0]), es[1..])
  }

  // ---------------------------------------------------------------- the invariant

  /** Calls of one goal leave `Waiting` in order of arrival, each after all before it have finished. */
  predicate InOrder(calls: seq<Call>) {
    forall i, j :: 0 <= i < j < |calls| && calls[i].goal == calls[j].goal && calls[j].stage != Waiting ==> calls[i].stage == Finished
  }

  /** A call waits for the call of its goal that arrived just before it, unless all of those had finished. */
  predicate Linked(calls: seq<Call>) {
    forall j :: 0 <= j < |calls| ==>
      var p := calls[j].previous;
      && (p.Some? ==> p.value < j && calls[p.value].goal == calls[j].goal)
      && forall i :: (if p.Some? then p.value + 1 else 0) <= i < j && calls[i].goal == calls[j].goal ==> p.None? && calls[i].stage == Finished
  }

  /** The published chains are those of the latest calls of the goals that are not idle. */
  predicate Published(l: Lock) {
    && (forall g <- l.chains :: l.chains[g] < |l.calls| && l.calls[l.chains[g]].goal == g && l.calls[l.chains[g]].stage != Finished)
    && (forall i :: 0 <= i < |l.calls| && l.calls[i].goal in l.chains ==> i <= l.chains[l.calls[i].goal])
    && (forall i :: 0 <= i < |l.calls| && l.calls[i].stage != Finished ==> l.calls[i].goal in l.chains)
  }

  predicate Sound(l: Lock) { InOrder(l.calls) && Linked(l.calls) && Published(l) }

  /** A settled chain means that every call of the goal up to it has finished. */
  lemma {:induction false} SettledMeansAllFinished(calls: seq<Call>, i: nat, j: nat)
    requires Linked(calls) && Settled(calls, i) && j <= i && calls[j].goal == calls[i].goal
    ensures calls[j].stage == Finished
    decreases i
  {
    if j < i {
      var p := calls[i].previous;
      if p.Some? && j <= p.value { SettledMeansAllFinished(calls, p.value, j); }
    }
  }

  /** ... and conversely. */
  lemma {:induction false} AllFinishedMeansSettled(calls: seq<Call>, i: nat)
    requires Linked(calls) && i < |calls| && forall j :: 0 <= j <= i && calls[j].goal == calls[i].goal ==> calls[j].stage == Finished
    ensures Settled(calls, i)
    decreases i
  {
    if calls[i].previous.Some? { AllFinishedMeansSettled(calls, calls[i].previous.value); }
  }

  /** A call may begin exactly when every earlier call of its goal has finished. */
  lemma BeginExactlyWhen(l: Lock, i: nat)
    requires Sound(l) && i < |l.calls| && l.calls[i].stage == Waiting
    ensures Enabled(l, Begin(i)) <==> forall j :: 0 <= j < i && l.calls[j].goal == l.calls[i].goal ==> l.calls[j].stage == Finished
  {
    var p := l.calls[i].previous;
    if Enabled(l, Begin(i)) {
      forall j | 0 <= j < i && l.calls[j].goal == l.calls[i].goal ensures l.calls[j].stage == Finished {
        if p.Some? && j <= p.value { SettledMeansAllFinished(l.calls, p.value, j); }
      }
    } else {
      if forall j :: 0 <= j < i && l.calls[j].goal == l.calls[i].goal ==> l.calls[j].stage == Finished {
        AllFinishedMeansSettled(l.calls, p.value);
      }
    }
  }

  lemma ArriveLinked(l: Lock, goal: nat)
    requires Linked(l.calls) && Published(l)
    ensures Linked(Next(l, Arrive(goal)).calls)
  {
  }

  lemma ArrivePublished(l: Lock, goal: nat)
    requires Published(l)
    ensures Published(Next(l, Arrive(goal)))
  {
  }

  lemma ArriveSound(l: Lock, goal: nat)
    requires Sound(l)
    ensures Sound(Next(l, Arrive(goal)))
  {
    ArriveLinked(l, goal);
    ArrivePublished(l, goal);
    hide Linked, Published;
  }

  /** A call that is not finished takes its next stage. */
  function Advance(calls: seq<Call>, i: nat, stage: Stage): (r: seq<Call>)
    requires i < |calls|
    ensures |r| == |calls| && r[i].stage == stage
    ensures forall j :: 0 <= j < |calls| ==>
              r[j].goal == calls[j].goal && r[j].previous == calls[j].previous && (j != i ==> r[j].stage == calls[j].stage)
  {
    calls[i := calls[i].(stage := stage)]
  }

  lemma AdvanceInOrder(calls: seq<Call>, i: nat, stage: Stage)
    requires InOrder(calls) && i < |calls| && calls[i].stage != Finished
    requires forall j :: 0 <= j < i && calls[j].goal == calls[i].goal ==> calls[j].stage == Finished
    ensures InOrder(Advance(calls, i, stage))
  {
    hide Advance;
  }

  lemma AdvanceLinked(calls: seq<Call>, i: nat, stage: Stage)
    requires Linked(calls) && i < |calls| && calls[i].stage != Finished
    ensures Linked(Advance(calls, i, stage))
  {
    hide Advance;
    var r := Advance(calls, i, stage);
    forall j | 0 <= j < |r|
      ensures var p := r[j].previous;
        && (p.Some? ==> p.value < j && r[p.value].goal == r[j].goal)
        && forall k :: (if p.Some? then p.value + 1 else 0) <= k < j && r[k].goal == r[j].goal ==> p.None? && r[k].stage == Finished
    {
      assert calls[j].previous == r[j].previous;
    }
  }

  lemma BeginSound(l: Lock, i: nat)
    requires Sound(l) && Enabled(l, Begin(i))
    ensures Sound(Next(l, Begin(i)))
  {
    BeginExactlyWhen(l, i);
    AdvanceInOrder(l.calls, i, Running);
    AdvanceLinked(l.calls, i, Running);
    hide InOrder, Linked;
    assert Next(l, Begin(i)).calls == Advance(l.calls, i, Running);
    assert Published(Next(l, Begin(i)));
  }

  lemma EarlierFinished(l: Lock, i: nat)
    requires InOrder(l.calls) && i < |l.calls| && l.calls[i].stage == Running
    ensures forall j :: 0 <= j < i && l.calls[j].goal == l.calls[i].goal ==> l.calls[j].stage == Finished
  {
  }

  lemma EndSound(l: Lock, i: nat)
    requires Sound(l) && Enabled(l, End(i))
    ensures Sound(Next(l, End(i)))
  {
    EarlierFinished(l, i);
    AdvanceInOrder(l.calls, i, Finished);
    AdvanceLinked(l.calls, i, Finished);
    EndPublished(l, i);
    hide InOrder, Linked, Published;
    assert Next(l, End(i)).calls == Advance(l.calls, i, Finished);
  }

  lemma EndPublished(l: Lock, i: nat)
    requires Published(l) && Enabled(l, End(i))
    requires forall j :: 0 <= j < i && l.calls[j].goal == l.calls[i].goal ==> l.calls[j].stage == Finished
    ensures Published(Next(l, End(i)))
  {
    var t := Next(l, End(i));
    assert t.calls == Advance(l.calls, i, Finished);
    hide Next, Advance;
    assert t.chains == if l.chains[l.calls[i].goal] == i then l.chains - {l.calls[i].goal} else l.chains by { NextEnd(l, i); }
  }

  lemma NextEnd(l: Lock, i: nat)
    requires Published(l) && Enabled(l, End(i))
    ensures l.calls[i].goal in l.chains
    ensures Next(l, End(i)).chains == if l.chains[l.calls[i].goal] == i then l.chains - {l.calls[i].goal} else l.chains
  {
  }

  lemma {:induction false} RunSound(l: Lock, es: seq<Event>)
    requires Sound(l) && Runs(l, es)
    ensures Sound(After(l, es))
    decreases |es|
  {
    if es != [] {
      hide Sound, Next;
      match es[0] {
        case Arrive(goal) => ArriveSound(l, goal);
        case Begin(i) => BeginSound(l, i);
        case End(i) => EndSound(l, i);
      }
      RunSound(Next(l, es[0]), es[1..]);
    }
  }

  // ---------------------------------------------------------------- theorems

  /** At most one operation of a goal runs, and its calls run in order of arrival. */
  lemma MutualExclusion(es: seq<Event>, i: nat, j: nat)
    requires Runs(IDLE, es) && i < j < |After(IDLE, es).calls| && After(IDLE, es).calls[i].goal == After(IDLE, es).calls[j].goal
    ensures var calls := After(IDLE, es).calls;
      && !(calls[i].stage == Running && calls[j].stage == Running)
      && (calls[j].stage != Waiting ==> calls[i].stage == Finished)
  {
    RunSound(IDLE, es);
  }

  /** The chain map holds exactly the goals with an unfinished call, so it is empty when the service is idle. */
  lemma ChainsAreTheBusyGoals(es: seq<Event>)
    requires Runs(IDLE, es)
    ensures var l := After(IDLE, es); l.chains.Keys == set c <- l.calls | c.stage != Finished :: c.goal
  {
    RunSound(IDLE, es);
    var l := After(IDLE, es);
    hide Runs, After;
    forall g <- l.chains ensures exists c <- l.calls :: c.stage != Finished && c.goal == g { assert l.calls[l.chains[g]] in l.calls; }
    forall c <- l.calls | c.stage != Finished ensures c.goal in l.chains { var i :| 0 <= i < |l.calls| && l.calls[i] == c; }
  }

  /** Nothing blocks: the first unfinished call of a goal runs or may begin, however its predecessors ended. */
  lemma NeverStuck(es: seq<Event>, i: nat) returns (k: nat)
    requires Runs(IDLE, es) && i < |After(IDLE, es).calls| && After(IDLE, es).calls[i].stage != Finished
    ensures var l := After(IDLE, es);
      k <= i && l.calls[k].goal == l.calls[i].goal && (Enabled(l, Begin(k)) || Enabled(l, End(k)))
  {
    RunSound(IDLE, es);
    var l := After(IDLE, es);
    hide Runs, After;
    k := FirstUnfinished(l.calls, i);
    if l.calls[k].stage == Waiting { BeginExactlyWhen(l, k); }
  }

  lemma {:induction false} FirstUnfinished(calls: seq<Call>, i: nat) returns (k: nat)
    requires i < |calls| && calls[i].stage != Finished
    ensures k <= i && calls[k].goal == calls[i].goal && calls[k].stage != Finished
    ensures forall j :: 0 <= j < k && calls[j].goal == calls[k].goal ==> calls[j].stage == Finished
    decreases i
  {
    if j: nat :| j < i && calls[j].goal == calls[i].goal && calls[j].stage != Finished {
      k := FirstUnfinished(calls, j);
    } else {
      k := i;
    }
  }

  // ---------------------------------------------------------------- the object

  class GoalChains {
    var calls: seq<Call>
    var chains: map<nat, nat>

    ghost function View(): Lock
      reads this
    {
      Lock(calls, chains)
    }

    constructor ()
      ensures View() == IDLE
    {
      calls, chains := [], map[];
    }

    /** withGoalLock up to its await. */
    method EnterLock(goal: nat) returns (chain: nat)
      modifies this
      ensures View() == Next(old(View()), Arrive(goal)) && chain == |old(calls)|
    {
      var previous := None;
      if goal in chains { previous := Some(chains[goal]); }
      chain := |calls|;
      calls := calls + [Call(goal, previous, Waiting)];
      chains := chains[goal := chain];
    }

    method BeginOperation(chain: nat)
      requires Enabled(View(), Begin(chain))
      modifies this`calls
      ensures View() == Next(old(View()), Begin(chain))
    {
      calls := calls[chain := calls[chain].(stage := Running)];
    }

    /** The `finally` block. */
    method LeaveLock(chain: nat)
      requires Enabled(View(), End(chain))
      modifies this
      ensures View() == Next(old(View()), End(chain))
    {
      var goal := calls[chain].goal;
      calls := calls[chain := calls[chain].(stage := Finished)];
      if goal in chains && chains[goal] == chain { chains := chains - {goal}; }
    }
  }
}
