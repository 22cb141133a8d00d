/**
  Dependency order of modules (`order` in rt-app/core-ts/src/RTAppManager.ts): a depth-first walk
  that lists every module after the ones it depends on, or finds a path that ends in an unknown
  module or closes a cycle.
*/
module ModuleGraph {
  import opened Prelude

  /** Dependencies of each known module, in the order they are visited. */
  type Graph = map<string, seq<string>>

  predicate Edge(g: Graph, a: string, b: string) {
    a in g && b in g[a]
  }

  predicate Chain(g: Graph, path: seq<string>) {
    forall i :: 0 <= i < |path| - 1 ==> Edge(g, path[i], path[i + 1])
  }

  /** A chain from one of the names. */
  predicate Leads(g: Graph, names: seq<string>, path: seq<string>) {
    path != [] && path[0] in names && Chain(g, path)
  }

  ghost predicate Reachable(g: Graph, names: seq<string>, m: string) {
    exists path :: Leads(g, names, path) && path[|path| - 1] == m
  }

  /** Why there is no order: the last module of a path is unknown, or is on the path already. */
  datatype Obstacle = Unknown(path: seq<string>) | Cycle(path: seq<string>)

  predicate Blocks(g: Graph, names: seq<string>, o: Obstacle) {
    Leads(g, names, o.path) &&
    var last := o.path[|o.path| - 1];
    match o
    case Unknown(path) => last !in g
    case Cycle(path) => last in path[..|path| - 1]
  }

  /** No path from a name ends in an unknown module or closes a cycle. */
  ghost predicate Orderable(g: Graph, names: seq<string>) {
    forall o :: !Blocks(g, names, o)
  }

  /** Every module of a list is known and comes after all it depends on. */
  predicate DependenciesFirst(g: Graph, list: seq<string>) {
    forall i :: 0 <= i < |list| ==> list[i] in g && forall d :: d in g[list[i]] ==> d in list[..i]
  }

  /** An order of what the names need: each module once, after its dependencies, and nothing else. */
  ghost predicate Orders(g: Graph, names: seq<string>, list: seq<string>) {
    && Distinct(list)
    && DependenciesFirst(g, list)
    && (forall n :: n in names ==> n in list)
    && (forall m :: m in list ==> Reachable(g, names, m))
  }

  // ---- an order and an obstacle exclude each other ----

  lemma PlaceOf(list: seq<string>, m: string) returns (i: nat)
    requires m in list
    ensures i < |list| && list[i] == m
  {
    i :| 0 <= i < |list| && list[i] == m;
  }

  /** Along a chain that starts in an order, places strictly fall. */
  lemma {:induction false} ChainDescends(g: Graph, list: seq<string>, path: seq<string>, from: nat, to: nat)
    requires Distinct(list) && DependenciesFirst(g, list) && Chain(g, path)
    requires from <= to < |path| && path[from] in list
    ensures path[to] in list
    ensures forall i, j :: 0 <= i < |list| && 0 <= j < |list| && list[i] == path[from] && list[j] == path[to] ==> j <= i && (from < to ==> j < i)
  {
    if from < to {
      ChainDescends(g, list, path, from, to - 1);
      var k := PlaceOf(list, path[to - 1]);
      assert Edge(g, path[to - 1], path[to - 1 + 1]);
      assert path[to] in list[..k];
    }
  }

  lemma OrderExcludesObstacles(g: Graph, names: seq<string>, list: seq<string>, o: Obstacle)
    requires Orders(g, names, list)
    ensures !Blocks(g, names, o)
  {
    if Blocks(g, names, o) {
      var n := |o.path| - 1;
      ChainDescends(g, list, o.path, 0, n);
      var i := PlaceOf(list, o.path[n]);
      assert o.path[n] in g;
      if o.Cycle? {
        var k :| 0 <= k < n && o.path[k] == o.path[n];
        ChainDescends(g, list, o.path, 0, k);
        ChainDescends(g, list, o.path, k, n);
      }
    }
  }

  /** An order lists exactly what the names reach. */
  lemma OrderListsTheReachable(g: Graph, names: seq<string>, list: seq<string>, m: string)
    requires Orders(g, names, list)
    ensures m in list <==> Reachable(g, names, m)
  {
    if Reachable(g, names, m) {
      var path :| Leads(g, names, path) && path[|path| - 1] == m;
      ChainDescends(g, list, path, 0, |path| - 1);
    }
  }

  // ---- the walk ----

  class Walker {
    const graph: Graph
    const names: seq<string>
    var done: set<string>
    var active: set<string>
    var result: seq<string>

    constructor (graph: Graph, names: seq<string>)
      ensures this.graph == graph && this.names == names
      ensures done == {} && active == {} && result == []
    {
      this.graph := graph;
      this.names := names;
      done, active, result := {}, {}, [];
    }

    /** What is listed is in order and reachable; what is active is the path being walked. */
    ghost predicate Valid(path: seq<string>)
      reads this
    {
      && (forall m :: m in done <==> m in result)
      && Distinct(result) && DependenciesFirst(graph, result)
      && (forall m :: m in result ==> Reachable(graph, names, m))
      && (forall m :: m in active <==> m in path)
      && done !! active && active <= graph.Keys
    }

    method Visit(name: string, path: seq<string>) returns (obstacle: Option<Obstacle>)
      requires Valid(path) && Leads(graph, names, path + [name])
      modifies this
      ensures obstacle.Some? ==> Blocks(graph, names, obstacle.value)
      ensures obstacle.None? ==> Valid(path) && name in done && old(result) <= result
      decreases graph.Keys - active
    {
      var here := path + [name];
      if name in active {
        assert here[..|here| - 1] == path;
        return Some(Cycle(here));
      }
      if name in done {
        return None;
      }
      if name !in graph {
        return Some(Unknown(here));
      }
      active := active + {name};
      var dependencies := graph[name];
      for i := 0 to |dependencies|
        invariant Valid(here) && active == old(active) + {name} && old(result) <= result
        invariant forall j :: 0 <= j < i ==> dependencies[j] in done
      {
        LeadsOn(graph, names, here, dependencies[i]);
        obstacle := Visit(dependencies[i], here);
        if obstacle.Some? {
          return;
        }
      }
      active := active - {name};
      done := done + {name};
      ghost var before := result;
      result := result + [name];
      assert Reachable(graph, names, name) by {
        assert here[|here| - 1] == name;
      }
      forall i | 0 <= i < |result|
        ensures result[i] in graph && forall d :: d in graph[result[i]] ==> d in result[..i]
      {
        if i < |before| {
          assert result[i] == before[i] && result[..i] == before[..i];
        } else {
          assert result[..i] == before;
        }
      }
      obstacle := None;
    }
  }

  lemma LeadsOn(g: Graph, names: seq<string>, path: seq<string>, next: string)
    requires Leads(g, names, path) && Edge(g, path[|path| - 1], next)
    ensures Leads(g, names, path + [next])
  {
    var longer := path + [next];
    forall i | 0 <= i < |longer| - 1
      ensures Edge(g, longer[i], longer[i + 1])
    {
      if i < |path| - 1 {
        assert Edge(g, path[i], path[i + 1]);
      }
    }
  }

  /**
    `order`: it always ends; it lists what the names need, each module once and after its
    dependencies, exactly when no path from a name ends in an unknown module or closes a cycle;
    otherwise it reports such a path.
  */
  method Order(g: Graph, names: seq<string>) returns (list: seq<string>, obstacle: Option<Obstacle>)
    ensures obstacle.None? <==> Orderable(g, names)
    ensures obstacle.None? ==> Orders(g, names, list)
    ensures obstacle.Some? ==> Blocks(g, names, obstacle.value)
  {
    var walker := new Walker(g, names);
    for i := 0 to |names|
      invariant walker.graph == g && walker.names == names && fresh(walker)
      invariant walker.Valid([])
      invariant forall j :: 0 <= j < i ==> names[j] in walker.done
    {
      assert [] + [names[i]] == [names[i]];
      obstacle := walker.Visit(names[i], []);
      if obstacle.Some? {
        return [], obstacle;
      }
    }
    list := walker.result;
    obstacle := None;
    forall o: Obstacle
      ensures !Blocks(g, names, o)
    {
      OrderExcludesObstacles(g, names, list, o);
    }
  }
}
