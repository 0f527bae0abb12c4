/**
 The dependency graph of an agent swarm: what a request must satisfy to be started, and the
 depth-first cycle search behind it.
 */
module SwarmGraph {
  import opened Prelude

  type Id = string

  /** The prompt enters only through the two facts that validation asks of it. */
  datatype TaskRequest = TaskRequest(id: Id, promptBlank: bool, promptBytes: nat, dependsOn: seq<Id>)

  /** The optional JavaScript number `maxConcurrency`. */
  datatype Concurrency = Unset | Given(n: int) | NotAnInteger

  datatype StartRequest = StartRequest(readOnly: bool, tasks: seq<TaskRequest>, maxConcurrency: Concurrency)

  datatype Refusal = PermissionDenied | TaskCount | BadIdOrDuplicate | BadPrompt | BadDependencies | Cyclic | BadConcurrency

  const MAX_TASKS := 4
  const MAX_PROMPT_BYTES := 32 * 1024

  type Graph = map<Id, seq<Id>>

  /** `new Map(tasks.map(...))`: of two tasks with one id, the later wins. */
  function ById(tasks: seq<TaskRequest>): (g: Graph)
    ensures g.Keys == set t <- tasks :: t.id
  {
    if tasks == [] then map[]
    else ById(tasks[..|tasks| - 1])[tasks[|tasks| - 1].id := tasks[|tasks| - 1].dependsOn]
  }

  function Dependencies(g: Graph, id: Id): seq<Id> { if id in g then g[id] else [] }

  // ---------------------------------------------------------------- paths, cycles, orders

  predicate IsPath(g: Graph, p: seq<Id>) { forall i :: 0 < i < |p| ==> p[i] in Dependencies(g, p[i - 1]) }

  ghost predicate Cycles(g: Graph) { exists p: seq<Id> :: 2 <= |p| && IsPath(g, p) && p[0] == p[|p| - 1] }

  /** A listing in which every id comes after all of its dependencies. */
  predicate IsOrder(g: Graph, order: seq<Id>) { forall i :: 0 <= i < |order| ==> forall d <- Dependencies(g, order[i]) :: d in order[..i] }

  lemma OrderExtends(g: Graph, order: seq<Id>, id: Id)
    requires IsOrder(g, order) && forall d <- Dependencies(g, id) :: d in order
    ensures IsOrder(g, order + [id])
  {
    forall i | 0 <= i < |order + [id]|
      ensures forall d <- Dependencies(g, (order + [id])[i]) :: d in (order + [id])[..i]
    {
      assert (order + [id])[..i] == order[..i];
    }
  }

  /** Along a path every step moves to an earlier place of the order. */
  lemma {:induction false} PathDescends(g: Graph, order: seq<Id>, p: seq<Id>, i: nat)
    requires IsOrder(g, order) && IsPath(g, p) && p != [] && i < |order| && order[i] == p[0]
    ensures exists j :: 0 <= j <= i - (|p| - 1) && order[j] == p[|p| - 1]
    decreases |p|
  {
    if |p| > 1 {
      assert p[1] in Dependencies(g, p[0]);
      var k :| 0 <= k < i && order[..i][k] == p[1];
      assert forall n :: 0 < n < |p[1..]| ==> p[1..][n] == p[n + 1] && p[1..][n - 1] == p[n];
      PathDescends(g, order, p[1..], k);
    }
  }

  /** A graph whose every id is listed in an order has no cycle. */
  lemma OrderedIsAcyclic(g: Graph, order: seq<Id>)
    requires IsOrder(g, order) && forall id <- g :: id in order
    ensures !Cycles(g)
  {
    forall p: seq<Id> | 2 <= |p| && IsPath(g, p) && p[0] == p[|p| - 1] ensures false {
      assert p[1] in Dependencies(g, p[0]);
      var i := FirstIndex(order, p[0]);
      PathDescends(g, order, p, i);
    }
  }

  function FirstIndex(s: seq<Id>, id: Id): (i: nat)
    requires id in s
    ensures i < |s| && s[i] == id && id !in s[..i]
  {
    if s[0] == id then 0 else
      var j := FirstIndex(s[1..], id);
      assert s[..j + 1] == [s[0]] + s[1..][..j];
      j + 1
  }

  // ---------------------------------------------------------------- the search

  ghost function Universe(g: Graph): set<Id> { g.Keys + set k <- g, d <- g[k] :: d }

  class CycleSearch {
    const graph: Graph
    var visiting: set<Id>
    var visited: set<Id>
    ghost var grey: seq<Id>        // the ids of `visiting`, in the order they were entered
    ghost var order: seq<Id>       // the ids of `visited`, in the order they were left

    ghost predicate Valid()
      reads this
    {
      && visiting !! visited
      && (forall id :: id in visiting <==> id in grey) && IsPath(graph, grey)
      && (forall id :: id in visited <==> id in order) && IsOrder(graph, order)
      && visiting <= Universe(graph) && visited <= Universe(graph)
    }

    constructor (graph: Graph)
      ensures Valid() && this.graph == graph && visited == {} && grey == []
    {
      this.graph := graph;
      visiting, visited := {}, {};
      grey, order := [], [];
    }

    /** One call of the recursive closure.  The measure is the number of ids not yet entered. */
    method Visit(id: Id) returns (cyclic: bool)
      requires Valid() && id in Universe(graph)
      requires grey != [] ==> id in Dependencies(graph, grey[|grey| - 1])
      modifies this
      ensures cyclic ==> Cycles(graph)
      ensures !cyclic ==> Valid() && visiting == old(visiting) && grey == old(grey) && old(visited) <= visited && id in visited
      decreases Universe(graph) - visiting - visited
    {
      if id in visiting {
        ClosesCycle(graph, grey, id);
        return true;
      }
      if id in visited { return false; }
      ghost var path := grey;
      ghost var was := visiting;
      ghost var unseen := Universe(graph) - visiting - visited;
      visiting := visiting + {id};
      grey := grey + [id];
      var deps := Dependencies(graph, id);
      var i := 0;
      while i < |deps|
        invariant 0 <= i <= |deps| && Valid() && grey == path + [id] && visiting == was + {id}
        invariant old(visited) <= visited
        invariant forall d <- deps[..i] :: d in visited
      {
        assert id in graph && graph[id][i] in graph[id];
        assert grey[|grey| - 1] == id;
        assert Universe(graph) - visiting - visited < unseen by { assert id in unseen; }
        var found := Visit(deps[i]);
        if found { return true; }
        assert forall d <- deps[..i + 1] :: d in deps[..i] || d == deps[i];
        i := i + 1;
      }
      assert deps[..i] == deps;
      OrderExtends(graph, order, id);
      visiting := visiting - {id};
      grey := path;
      visited := visited + {id};
      order := order + [id];
      return false;
    }
  }

  /** Reaching an id of the grey path again closes a cycle. */
  lemma ClosesCycle(g: Graph, grey: seq<Id>, id: Id)
    requires IsPath(g, grey) && id in grey && id in Dependencies(g, grey[|grey| - 1])
    ensures Cycles(g)
  {
    var i := FirstIndex(grey, id);
    var p := grey[i..] + [id];
    assert IsPath(g, p);
    assert p[0] == p[|p| - 1];
  }

  /**
   The search answers the question exactly, whatever the graph: unknown dependencies, duplicate ids
   and self-dependencies included.  A negative answer comes with a topological order of all ids.
   */
  method HasCycle(tasks: seq<TaskRequest>) returns (cyclic: bool, ghost order: seq<Id>)
    ensures cyclic <==> Cycles(ById(tasks))
    ensures !cyclic ==> IsOrder(ById(tasks), order) && forall t <- tasks :: t.id in order
  {
    var g := ById(tasks);
    var search := new CycleSearch(g);
    var i := 0;
    while i < |tasks|
      invariant 0 <= i <= |tasks| && search.graph == g
      invariant search.Valid() && search.grey == []
      invariant forall t <- tasks[..i] :: t.id in search.visited
      modifies search
    {
      assert tasks[i].id in g;
      var found := search.Visit(tasks[i].id);
      if found { return true, []; }
      i := i + 1;
    }
    assert tasks[..i] == tasks;
    order := search.order;
    forall id <- g ensures id in order { var t :| t in tasks && t.id == id; }
    OrderedIsAcyclic(g, order);
    return false, order;
  }

  // ---------------------------------------------------------------- validateStart

  predicate AlphaNumeric(c: char) { 'A' <= c <= 'Z' || 'a' <= c <= 'z' || '0' <= c <= '9' }

  predicate IdShape(id: Id) {
    && 1 <= |id| <= 64 && AlphaNumeric(id[0])
    && forall c <- id[1..] :: AlphaNumeric(c) || c == '_' || c == '-'
  }

  predicate Distinct(s: seq<Id>) { forall i, j :: 0 <= i < j < |s| ==> s[i] != s[j] }

  function Ids(tasks: seq<TaskRequest>): (ids: seq<Id>)
    ensures |ids| == |tasks| && forall i :: 0 <= i < |ids| ==> ids[i] == tasks[i].id
  {
    seq(|tasks|, i requires 0 <= i < |tasks| => tasks[i].id)
  }

  predicate PromptOk(t: TaskRequest) { !t.promptBlank && t.promptBytes <= MAX_PROMPT_BYTES }

  predicate TasksOk(tasks: seq<TaskRequest>) {
    1 <= |tasks| <= MAX_TASKS && Distinct(Ids(tasks)) && forall t <- tasks :: IdShape(t.id) && PromptOk(t)
  }

  predicate DependsOk(t: TaskRequest, known: seq<Id>) {
    |t.dependsOn| <= 3 && Distinct(t.dependsOn) && t.id !in t.dependsOn && forall d <- t.dependsOn :: d in known
  }

  predicate GraphOk(tasks: seq<TaskRequest>) { forall t <- tasks :: DependsOk(t, Ids(tasks)) }

  function EffectiveConcurrency(r: StartRequest): Concurrency {
    if r.maxConcurrency.Unset? then Given(if |r.tasks| < 2 then |r.tasks| else 2) else r.maxConcurrency
  }

  predicate ConcurrencyOk(r: StartRequest) {
    var c := EffectiveConcurrency(r);
    c.Given? && 1 <= c.n <= MAX_TASKS && c.n <= |r.tasks|
  }

  ghost predicate Startable(r: StartRequest) {
    r.readOnly && TasksOk(r.tasks) && GraphOk(r.tasks) && !Cycles(ById(r.tasks)) && ConcurrencyOk(r)
  }

  /** Validation accepts exactly the startable requests, and hands the scheduler a topological order. */
  method ValidateStart(r: StartRequest) returns (refusal: Option<Refusal>, ghost order: seq<Id>)
    ensures refusal.None? <==> Startable(r)
    ensures refusal == Some(PermissionDenied) <==> !r.readOnly
    ensures refusal == Some(Cyclic) <==> r.readOnly && TasksOk(r.tasks) && GraphOk(r.tasks) && Cycles(ById(r.tasks))
    ensures refusal.None? ==> IsOrder(ById(r.tasks), order) && forall t <- r.tasks :: t.id in order
  {
    order := [];
    if !r.readOnly { return Some(PermissionDenied), order; }
    if |r.tasks| < 1 || |r.tasks| > MAX_TASKS { return Some(TaskCount), order; }
    var ids: set<Id> := {};
    var i := 0;
    while i < |r.tasks|
      invariant 0 <= i <= |r.tasks|
      invariant forall id :: id in ids <==> id in Ids(r.tasks)[..i]
      invariant Distinct(Ids(r.tasks)[..i]) && forall t <- r.tasks[..i] :: IdShape(t.id) && PromptOk(t)
    {
      var t := r.tasks[i];
      assert t in r.tasks && Ids(r.tasks)[i] == t.id;
      assert Ids(r.tasks)[..i + 1] == Ids(r.tasks)[..i] + [t.id];
      if !IdShape(t.id) || t.id in ids { return Some(BadIdOrDuplicate), order; }
      if !PromptOk(t) { return Some(BadPrompt), order; }
      ids := ids + {t.id};
      i := i + 1;
    }
    assert Ids(r.tasks)[..i] == Ids(r.tasks) && r.tasks[..i] == r.tasks;
    i := 0;
    while i < |r.tasks|
      invariant 0 <= i <= |r.tasks|
      invariant forall t <- r.tasks[..i] :: DependsOk(t, Ids(r.tasks))
    {
      var t := r.tasks[i];
      assert t in r.tasks;
      if |t.dependsOn| > 3 || !Distinct(t.dependsOn) || t.id in t.dependsOn || exists d <- t.dependsOn :: d !in ids {
        assert !DependsOk(t, Ids(r.tasks));
        return Some(BadDependencies), order;
      }
      i := i + 1;
    }
    assert r.tasks[..i] == r.tasks;
    var cyclic;
    cyclic, order := HasCycle(r.tasks);
    if cyclic { return Some(Cyclic), order; }
    if !ConcurrencyOk(r) { return Some(BadConcurrency), order; }
    return None, order;
  }
}
