/**
  The cleanup tasks of version updates name the earlier tasks they resolve. A task is stored only
  when these references form a known, acyclic graph.
 */
module ResolutionGraph {
  import opened Common

  datatype TaskId = TaskId(value: string)

  type Graph = map<TaskId, seq<TaskId>>

  datatype Colour = Visiting | Visited

  predicate Known(g: Graph) {
    forall task, k :: task in g && 0 <= k < |g[task]| ==> g[task][k] in g
  }

  predicate Edge(g: Graph, a: TaskId, b: TaskId) {
    a in g && b in g[a]
  }

  ghost predicate IsPath(g: Graph, p: seq<TaskId>) {
    forall j, k :: 0 <= j < k < |p| && k == j + 1 ==> Edge(g, p[j], p[k])
  }

  ghost predicate IsCycle(g: Graph, p: seq<TaskId>) {
    |p| >= 2 && IsPath(g, p) && p[0] == p[|p| - 1]
  }

  ghost predicate Cyclic(g: Graph) {
    exists p :: IsCycle(g, p)
  }

  // ---- A finishing order rules out cycles ----

  /** Every task comes after the tasks it resolves. */
  predicate FinishingOrder(g: Graph, order: seq<TaskId>) {
    order != [] ==>
      && var earlier, task := order[..|order| - 1], order[|order| - 1];
      && FinishingOrder(g, earlier) && task in g && forall j :: 0 <= j < |g[task]| ==> g[task][j] in earlier
  }

  /** The position of a task's first occurrence. */
  function Rank(order: seq<TaskId>, task: TaskId): nat
    requires task in order
    ensures Rank(order, task) < |order|
  {
    var earlier := order[..|order| - 1];
    if task in earlier then Rank(earlier, task) else |order| - 1
  }

  lemma {:induction false} EdgeLowersRank(g: Graph, order: seq<TaskId>, a: TaskId, b: TaskId)
    requires FinishingOrder(g, order) && a in order && Edge(g, a, b)
    ensures b in order && Rank(order, b) < Rank(order, a)
  {
    var earlier := order[..|order| - 1];
    if a in earlier {
      EdgeLowersRank(g, earlier, a, b);
    }
  }

  lemma {:induction false} PathLowersRank(g: Graph, order: seq<TaskId>, p: seq<TaskId>, k: nat)
    requires FinishingOrder(g, order) && IsPath(g, p) && k < |p| && p[0] in order
    ensures p[k] in order && Rank(order, p[k]) <= Rank(order, p[0]) - k
    decreases k
  {
    if k > 0 {
      PathLowersRank(g, order, p, k - 1);
      EdgeLowersRank(g, order, p[k - 1], p[k]);
    }
  }

  lemma OrderedIsAcyclic(g: Graph, order: seq<TaskId>)
    requires FinishingOrder(g, order) && forall task :: task in g ==> task in order
    ensures !Cyclic(g)
  {
    forall p | |p| >= 2 && IsPath(g, p) ensures p[0] != p[|p| - 1] {
      assert Edge(g, p[0], p[1]);
      PathLowersRank(g, order, p, |p| - 1);
    }
  }

  // ---- The depth-first search ----

  /** A task is unmet, being visited or visited; `unmet`, `stack` and `order` list them. */
  ghost predicate Coloured(g: Graph, states: map<TaskId, Colour>, unmet: set<TaskId>, stack: seq<TaskId>, order: seq<TaskId>) {
    forall task ::
      && (task in unmet <==> task in g && task !in states)
      && (task in stack <==> task in states && states[task] == Visiting)
      && (task in order <==> task in states && states[task] == Visited)
  }

  lemma Push(g: Graph, states: map<TaskId, Colour>, unmet: set<TaskId>, stack: seq<TaskId>, order: seq<TaskId>, task: TaskId)
    requires Coloured(g, states, unmet, stack, order) && task in unmet
    ensures Coloured(g, states[task := Visiting], unmet - {task}, stack + [task], order)
  {
  }

  lemma Pop(g: Graph, states: map<TaskId, Colour>, unmet: set<TaskId>, stack: seq<TaskId>, order: seq<TaskId>, task: TaskId)
    requires Coloured(g, states, unmet, stack + [task], order) && task !in stack
    ensures Coloured(g, states[task := Visited], unmet, stack, order + [task])
  {
    assert task in stack + [task];
  }

  lemma PathGrows(g: Graph, stack: seq<TaskId>, task: TaskId)
    requires IsPath(g, stack) && (stack != [] ==> Edge(g, stack[|stack| - 1], task))
    ensures IsPath(g, stack + [task])
  {
  }

  lemma OrderGrows(g: Graph, order: seq<TaskId>, task: TaskId)
    requires FinishingOrder(g, order) && task in g && forall k :: 0 <= k < |g[task]| ==> g[task][k] in order
    ensures FinishingOrder(g, order + [task])
  {
    assert (order + [task])[..|order|] == order;
  }

  class Search {
    const g: Graph
    var states: map<TaskId, Colour>
    ghost var unmet: set<TaskId>
    ghost var stack: seq<TaskId>
    ghost var order: seq<TaskId>

    /** The tasks being visited form a path, and the visited ones a finishing order. */
    ghost predicate Valid()
      reads this
    {
      Known(g) && IsPath(g, stack) && FinishingOrder(g, order) && Coloured(g, states, unmet, stack, order)
    }

    constructor (graph: Graph)
      requires Known(graph)
      ensures Valid() && g == graph && stack == []
    {
      g := graph;
      states, unmet, stack, order := map[], graph.Keys, [], [];
    }

    lemma CycleOnStack(task: TaskId)
      requires Valid() && task in stack && Edge(g, stack[|stack| - 1], task)
      ensures Cyclic(g)
    {
      var k :| 0 <= k < |stack| && stack[k] == task;
      var p := stack[k..] + [task];
      assert IsCycle(g, p);
    }

    /** Colours everything below a task, or finds a cycle. */
    method Visit(task: TaskId) returns (ok: bool)
      requires Valid() && task in g && (stack != [] ==> Edge(g, stack[|stack| - 1], task))
      modifies this
      decreases |unmet|, 2
      ensures !ok ==> Cyclic(g)
      ensures ok ==> Valid() && stack == old(stack) && task in order && unmet <= old(unmet) && old(order) <= order
    {
      if task in states {
        if states[task] == Visiting {
          CycleOnStack(task);
          return false;
        }
        return true;
      }
      ok := Explore(task);
    }

    method Explore(task: TaskId) returns (ok: bool)
      requires Valid() && task in unmet && (stack != [] ==> Edge(g, stack[|stack| - 1], task))
      modifies this
      decreases |unmet|, 1
      ensures !ok ==> Cyclic(g)
      ensures ok ==> Valid() && stack == old(stack) && task in order && unmet <= old(unmet) && old(order) <= order
    {
      Push(g, states, unmet, stack, order, task);
      PathGrows(g, stack, task);
      states := states[task := Visiting];
      unmet, stack := unmet - {task}, stack + [task];
      ok := VisitReferences(task);
      if ok {
        Pop(g, states, unmet, old(stack), order, task);
        OrderGrows(g, order, task);
        states := states[task := Visited];
        stack, order := old(stack), order + [task];
      }
    }

    method VisitReferences(task: TaskId) returns (ok: bool)
      requires Valid() && task in g && stack != [] && stack[|stack| - 1] == task
      modifies this
      decreases |unmet|, 3
      ensures !ok ==> Cyclic(g)
      ensures ok ==> Valid() && stack == old(stack) && unmet <= old(unmet) && old(order) <= order
      ensures ok ==> forall k :: 0 <= k < |g[task]| ==> g[task][k] in order
    {
      for k := 0 to |g[task]|
        invariant Valid() && stack == old(stack) && unmet <= old(unmet) && old(order) <= order
        invariant forall j :: 0 <= j < k ==> g[task][j] in order
      {
        Bounded(unmet, old(unmet));
        ok := Visit(g[task][k]);
        if !ok {
          return;
        }
      }
      return true;
    }
  }

  /** Whether every reference names a task of the graph. */
  method CheckKnown(g: Graph) returns (ok: bool)
    ensures ok <==> Known(g)
  {
    var left := g.Keys;
    while left != {}
      invariant left <= g.Keys
      invariant forall task, k :: task in g && task !in left && 0 <= k < |g[task]| ==> g[task][k] in g
      decreases |left|
    {
      var task :| task in left;
      for k := 0 to |g[task]|
        invariant forall j :: 0 <= j < k ==> g[task][j] in g
      {
        if g[task][k] !in g {
          return false;
        }
      }
      left := left - {task};
    }
    return true;
  }

  /** Accepts exactly the graphs whose references are all known and that have no cycle. */
  method Validate(g: Graph) returns (ok: bool)
    ensures ok <==> Known(g) && !Cyclic(g)
  {
    var known := CheckKnown(g);
    if !known {
      return false;
    }
    var search := new Search(g);
    var left := g.Keys;
    while left != {}
      invariant search.Valid() && search.g == g && search.stack == [] && fresh(search) && left <= g.Keys
      invariant forall task :: task in g && task !in left ==> task in search.order
      decreases |left|
    {
      var task :| task in left;
      ok := search.Visit(task);
      if !ok {
        return;
      }
      left := left - {task};
    }
    OrderedIsAcyclic(g, search.order);
    return true;
  }
}
