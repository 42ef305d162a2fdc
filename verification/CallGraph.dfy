/** The static call graph of a module's actions and the check that it has no cycle. */
module CallGraph {
  import opened Common
  import opened Syntax
  import opened Graph
  import opened AspectIr

  /** The actions an expression may call, as the graph builder sees it. */
  function CallsIn(m: Module, e: Expr): set<Key>
    decreases e, 1
  {
    match e
    case Atom(_) => {}
    case List(items) =>
      if items == [] then {}
      else if IsEquation(m, items) then CallsIn(m, items[2])
      else (if items[0].Atom? then ActionsNamed(m, items[0].name) else {}) + CallsInAll(m, items[1..])
  }

  function CallsInAll(m: Module, items: seq<Expr>): set<Key>
    decreases items, 0
  {
    if items == [] then {} else CallsIn(m, items[0]) + CallsInAll(m, items[1..])
  }

  function BodyCalls(m: Module, a: ActionDef): set<Key> {
    if a.body.Some? then CallsIn(m, a.body.value) else {}
  }

  /** The call graph the verifier builds. */
  function ActionGraph(m: Module): Graph<Key> {
    map k | k in m.actions :: BodyCalls(m, m.actions[k])
  }

  /** The graph builder's traversal, adding to the set it is given. */
  method CollectActionCalls(m: Module, e: Expr, before: set<Key>) returns (calls: set<Key>)
    ensures calls == before + CallsIn(m, e)
    decreases e
  {
    calls := before;
    if e.Atom? || e.items == [] { return; }
    var items := e.items;
    if items[0].Atom? {
      if IsEquation(m, items) {
        calls := CollectActionCalls(m, items[2], calls);
        return;
      }
      calls := calls + ActionsNamed(m, items[0].name);
    }
    ghost var seen := calls;
    var i := 1;
    while i < |items|
      invariant 1 <= i <= |items|
      invariant calls + CallsInAll(m, items[i..]) == seen + CallsInAll(m, items[1..])
    {
      assert items[i..][0] == items[i] && items[i..][1..] == items[i + 1..];
      calls := CollectActionCalls(m, items[i], calls);
      i := i + 1;
    }
    assert items[i..] == [];
  }

  /** Depth-first search for a cycle. */
  class CycleDetector {
    const graph: Graph<Key>
    var visiting: set<Key>
    var visited: set<Key>

    constructor (graph: Graph<Key>)
      ensures this.graph == graph && visiting == {} && visited == {}
    {
      this.graph := graph;
      visiting, visited := {}, {};
    }

    /** Finished nodes are closed under calls, lie on no cycle, and are no longer being visited. */
    ghost predicate Valid()
      reads this
    {
      && visited !! visiting
      && Closed(graph, visited)
      && forall v | v in visited :: !ReachesPlus(graph, v, v)
    }

    method DetectActionCycle(action: Key) returns (ok: bool)
      requires Valid()
      requires forall v | v in visiting :: ReachesPlus(graph, v, action)
      modifies this
      ensures ok ==> Valid() && visiting == old(visiting) && old(visited) <= visited && action in visited
      ensures !ok ==> !Acyclic(graph)
      decreases graph.Keys - visiting, if action in graph.Keys then 1 else 0
    {
      if action in visited { return true; }
      if action in visiting { return false; }
      ghost var entered := visiting;
      visiting := visiting + {action};
      if action in graph {
        var todo := graph[action];
        ghost var done: set<Key> := {};
        while todo != {}
          invariant todo + done == Successors(graph, action)
          invariant Valid() && visiting == entered + {action} && old(visited) <= visited && done <= visited
          decreases todo
        {
          var callee :| callee in todo;
          forall v | v in visiting ensures ReachesPlus(graph, v, callee) {
            if v == action {
              ReachesSelf(graph, callee);
            } else {
              var c :| c in Successors(graph, v) && Reaches(graph, c, action);
              ReachesEdge(graph, c, action, callee);
            }
          }
          var fine := DetectActionCycle(callee);
          if !fine { return false; }
          todo, done := todo - {callee}, done + {callee};
        }
        assert Successors(graph, action) == done <= visited;
      }
      if ReachesPlus(graph, action, action) {
        var c :| c in Successors(graph, action) && Reaches(graph, c, action);
        ClosedHoldsReachable(graph, visited, c, action);
        assert false;
      }
      visiting := visiting - {action};
      visited := visited + {action};
      ok := true;
    }
  }

  /** The module's call graph is accepted exactly when it has no directed cycle. */
  method VerifyActionCallGraph(m: Module) returns (ok: bool)
    ensures ok <==> Acyclic(ActionGraph(m))
  {
    var graph: Graph<Key> := map[];
    var todo := m.actions.Keys;
    while todo != {}
      invariant todo <= m.actions.Keys && graph.Keys == m.actions.Keys - todo
      invariant forall k | k in graph :: graph[k] == BodyCalls(m, m.actions[k])
      decreases todo
    {
      var k :| k in todo;
      var calls: set<Key> := {};
      if m.actions[k].body.Some? {
        calls := CollectActionCalls(m, m.actions[k].body.value, calls);
      }
      graph := graph[k := calls];
      todo := todo - {k};
    }
    assert graph == ActionGraph(m);

    var keys := graph.Keys;
    ghost var clean: set<Key> := {};
    while keys != {}
      invariant keys + clean == graph.Keys
      invariant forall v | v in clean :: !ReachesPlus(graph, v, v)
      decreases keys
    {
      var k :| k in keys;
      var detector := new CycleDetector(graph);
      var fine := detector.DetectActionCycle(k);
      if !fine { return false; }
      assert !ReachesPlus(graph, k, k);
      keys, clean := keys - {k}, clean + {k};
    }
    forall a ensures !ReachesPlus(graph, a, a) {
      if a !in graph.Keys { assert Successors(graph, a) == {}; }
    }
    ok := true;
  }
}
