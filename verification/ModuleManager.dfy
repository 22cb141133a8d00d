/**
  The module manager (rt-app/core-ts/src/RTAppManager.ts): modules are created and initialized in
  dependency order, each at most once however often loading is asked for, and disposed of once. The
  calls that the source chains on its queue run one after the other here; which initializations fail
  is an input.
*/
module ModuleManager {
  import opened Prelude
  import opened JsKeys
  import opened ModuleGraph

  /** A module: what it depends on (its bindings' providers included), those providers, and preloading. */
  datatype Config = Config(dependsOn: seq<string>, providers: seq<string>, preload: bool)

  function GraphOf(modules: map<string, Config>): Graph {
    map name | name in modules :: modules[name].dependsOn
  }

  /** A list without repetitions, as a JavaScript Set keeps it. */
  function Once(list: seq<string>): (r: seq<string>)
    ensures Distinct(r) && forall x :: x in r <==> x in list
  {
    if list == [] then []
    else
      var front := Once(list[..|list| - 1]);
      if list[|list| - 1] in front then front else front + [list[|list| - 1]]
  }

  function Reversed(s: seq<string>): (r: seq<string>)
    ensures |r| == |s| && forall i :: 0 <= i < |s| ==> r[i] == s[|s| - 1 - i]
  {
    seq(|s|, i requires 0 <= i < |s| => s[|s| - 1 - i])
  }

  /** One more module whose dependencies are all there keeps a list in order. */
  lemma OrderGrows(g: Graph, list: seq<string>, name: string)
    requires DependenciesFirst(g, list) && name in g && forall d :: d in g[name] ==> d in list
    ensures DependenciesFirst(g, list + [name])
  {
    var longer := list + [name];
    forall i | 0 <= i < |longer|
      ensures longer[i] in g && forall d :: d in g[longer[i]] ==> d in longer[..i]
    {
      if i < |list| {
        assert longer[..i] == list[..i];
      } else {
        assert longer[..i] == list;
      }
    }
  }

  class Manager {
    var modules: map<string, Config>
    var names: seq<string>
    var instances: seq<string>
    var inits: seq<string>
    var disposals: seq<string>
    var failed: bool
    var started: bool
    var closing: bool
    ghost var created: seq<string>

    /**
      Instances and initializations are in dependency order and happen once; a module is initialized
      only when it was created; after a failure the last initialization is the failed one.
    */
    ghost predicate Valid()
      reads this
    {
      && (forall n :: n in names <==> n in modules)
      && (forall n :: n in modules ==> forall p :: p in modules[n].providers ==> p in modules[n].dependsOn)
      && instances == KeysOf(created)
      && Distinct(created) && DependenciesFirst(GraphOf(modules), created)
      && Distinct(inits) && DependenciesFirst(GraphOf(modules), inits)
      && (forall n :: n in inits ==> n in created)
      && (!started ==> created == [] && inits == [])
      && (!closing ==> disposals == [])
      && (closing ==> disposals == Reversed(instances))
    }

    constructor ()
      ensures Valid() && modules == map[] && created == [] && inits == [] && !failed && !closing
    {
      modules, names, instances, inits, disposals := map[], [], [], [], [];
      failed, started, closing := false, false, false;
      created := [];
    }

    /** Modules may be set until loading starts. */
    method SetModule(name: string, dependsOn: seq<string>, providers: seq<string>, preload: bool) returns (ok: bool)
      requires Valid()
      modifies this
      ensures Valid()
      ensures ok == !(old(started) || old(closing))
      ensures modules == if ok then old(modules)[name := Config(Once(dependsOn + providers), providers, preload)] else old(modules)
      ensures created == old(created) && inits == old(inits) && disposals == old(disposals)
      ensures started == old(started) && closing == old(closing) && failed == old(failed)
    {
      if started || closing {
        return false;
      }
      modules := modules[name := Config(Once(dependsOn + providers), providers, preload)];
      if name !in names {
        InsertedKeyElements(names, name);
        names := InsertedKey(names, name);
      }
      ok := true;
    }

    /** Creates a module whose bindings' providers exist already. */
    method CreateInstance(name: string)
      requires Valid() && started && !closing && name in modules
      requires forall d :: d in modules[name].dependsOn ==> d in created
      modifies this`instances, this`created
      ensures Valid() && created == (if name in old(created) then old(created) else old(created) + [name])
    {
      KeysOfElements(created);
      if name in instances {
        return;
      }
      var providers := modules[name].providers;
      for i := 0 to |providers|
      {
        assert providers[i] in modules[name].providers;
        assert providers[i] in instances;
      }
      OrderGrows(GraphOf(modules), created, name);
      instances := InsertedKey(instances, name);
      created := created + [name];
      assert created[..|created| - 1] == old(created);
    }

    /** Which names a load asks for. */
    function Wanted(preloadOnly: bool): (r: seq<string>)
      requires forall n :: n in names ==> n in modules
      reads this
      ensures forall n :: n in r <==> n in names && (!preloadOnly || modules[n].preload)
    {
      Filtered(names, preloadOnly)
    }

    function Filtered(list: seq<string>, preloadOnly: bool): (r: seq<string>)
      requires forall n :: n in list ==> n in modules
      reads this
      ensures forall n :: n in r <==> n in list && (!preloadOnly || modules[n].preload)
    {
      if list == [] then []
      else
        var front := Filtered(list[..|list| - 1], preloadOnly);
        if !preloadOnly || modules[list[|list| - 1]].preload then front + [list[|list| - 1]] else front
    }

    /**
      `load`: nothing happens unless the whole graph has an order; then every wanted module and all
      it needs is created and initialized, dependencies first, the ones initialized before left
      alone. A failure is final.
    */
    method Load(preloadOnly: bool, failing: set<string>) returns (ok: bool)
      requires Valid()
      modifies this
      ensures Valid() && modules == old(modules) && names == old(names)
      ensures old(inits) <= inits && old(created) <= created && disposals == old(disposals) && closing == old(closing)
      ensures ok ==> !failed && forall n :: n in modules && (!preloadOnly || modules[n].preload) ==> n in inits
      ensures !ok <==> old(closing) || failed
      ensures old(failed) || old(closing) ==> inits == old(inits) && failed == old(failed)
      ensures (forall n :: n in inits && n !in old(inits) && n in failing ==> failed && n == inits[|inits| - 1])
      ensures !old(closing) && !old(failed) && !Orderable(GraphOf(modules), names) ==> failed && created == old(created) && inits == old(inits)
      ensures failed && !old(failed) ==>
                !Orderable(GraphOf(modules), names) || (inits != [] && inits[|inits| - 1] in failing)
    {
      hide Orders, Orderable, Blocks, DependenciesFirst, KeysOf, Distinct;
      if closing {
        return false;
      }
      started := true;
      if failed {
        return false;
      }
      var graph := GraphOf(modules);
      var all, obstacle := Order(graph, names);
      if obstacle.Some? {
        failed := true;
        return false;
      }
      var wanted := Wanted(preloadOnly);
      var order, none := Order(graph, wanted);
      WantedIsOrderable(graph, names, wanted);
      OrderCovers(graph, wanted, order);
      CreateAll(order);
      ok := InitializeAll(order, failing);
      if ok {
        forall n | n in modules && (!preloadOnly || modules[n].preload)
          ensures n in inits
        {
          assert n in wanted;
        }
      }
    }

    method CreateAll(order: seq<string>)
      requires Valid() && started && !closing && DependenciesFirst(GraphOf(modules), order)
      modifies this`instances, this`created
      ensures Valid() && old(created) <= created
      ensures forall n :: n in order ==> n in created
    {
      hide DependenciesFirst, KeysOf, Distinct, Reversed;
      for i := 0 to |order|
        invariant Valid() && old(created) <= created
        invariant forall j :: 0 <= j < i ==> order[j] in created
      {
        DependenciesAreBefore(GraphOf(modules), order, i, created);
        CreateInstance(order[i]);
      }
    }

    /** Awaits one initialization after the other; each is started only if it never was. */
    method InitializeAll(order: seq<string>, failing: set<string>) returns (ok: bool)
      requires Valid() && started && !closing && !failed && DependenciesFirst(GraphOf(modules), order)
      requires forall n :: n in order ==> n in created
      modifies this`inits, this`failed
      ensures Valid() && old(inits) <= inits && ok == !failed
      ensures ok ==> forall n :: n in order ==> n in inits
      ensures forall n :: n in inits && n !in old(inits) && n in failing ==> failed && n == inits[|inits| - 1]
      ensures failed ==> inits != [] && inits[|inits| - 1] in failing
    {
      hide DependenciesFirst, KeysOf, Reversed;
      for i := 0 to |order|
        invariant Valid() && !failed && old(inits) <= inits
        invariant forall j :: 0 <= j < i ==> order[j] in inits
        invariant forall n :: n in inits && n !in old(inits) ==> n !in failing
      {
        var name := order[i];
        if name !in inits {
          DependenciesAreBefore(GraphOf(modules), order, i, inits);
          OrderGrows(GraphOf(modules), inits, name);
          inits := inits + [name];
          if name in failing {
            failed := true;
            return false;
          }
        }
      }
      ok := true;
    }

    /** Disposal: once, in the reverse of the order the instances are listed in. */
    method Dispose()
      requires Valid()
      modifies this
      ensures Valid() && closing && created == old(created) && inits == old(inits) && modules == old(modules)
      ensures disposals == Reversed(instances) && instances == old(instances)
      ensures old(closing) ==> disposals == old(disposals)
    {
      if closing {
        return;
      }
      closing := true;
      for i := 0 to |instances|
        invariant instances == old(instances)
        invariant disposals == Reversed(instances)[..i]
        invariant closing && created == old(created) && inits == old(inits) && modules == old(modules) && names == old(names) && started == old(started)
      {
        disposals := disposals + [instances[|instances| - 1 - i]];
      }
      assert Reversed(instances)[..|instances|] == Reversed(instances);
    }
  }

  lemma DependenciesAreBefore(g: Graph, order: seq<string>, i: nat, there: seq<string>)
    requires DependenciesFirst(g, order) && i < |order| && forall j :: 0 <= j < i ==> order[j] in there
    ensures order[i] in g && forall d :: d in g[order[i]] ==> d in there
  {
    forall d | d in g[order[i]]
      ensures d in there
    {
      assert d in order[..i];
    }
  }

  lemma WantedIsOrderable(g: Graph, names: seq<string>, wanted: seq<string>)
    requires Orderable(g, names) && forall n :: n in wanted ==> n in names
    ensures Orderable(g, wanted)
  {
    forall o: Obstacle
      ensures !Blocks(g, wanted, o)
    {
      assert !Blocks(g, names, o);
    }
  }

  lemma OrderCovers(g: Graph, names: seq<string>, list: seq<string>)
    requires Orders(g, names, list)
    ensures DependenciesFirst(g, list) && forall n :: n in names ==> n in list
  {}

  /** Disposal reverses creation exactly when no array index among the names was created out of turn. */
  lemma DisposalReversesCreation(created: seq<string>)
    ensures Reversed(KeysOf(created)) == Reversed(created) <==> InOrder(created)
  {
    KeysKeepTheirOrder(created);
    KeysOfElements(created);
    if Reversed(KeysOf(created)) == Reversed(created) {
      forall i | 0 <= i < |created|
        ensures KeysOf(created)[i] == created[i]
      {
        assert Reversed(KeysOf(created))[|created| - 1 - i] == Reversed(created)[|created| - 1 - i];
      }
      assert KeysOf(created) == created;
    }
  }

  /** Then every module is disposed of before what it depends on. */
  lemma DependentsGoFirst(g: Graph, created: seq<string>, i: nat, d: string)
    requires DependenciesFirst(g, created) && InOrder(created) && i < |created| && created[i] in g && d in g[created[i]]
    ensures d in Reversed(KeysOf(created))[|created| - i..]
  {
    DisposalReversesCreation(created);
    assert d in created[..i];
    var j :| 0 <= j < i && created[j] == d;
    var r := Reversed(KeysOf(created));
    assert r[|created| - 1 - j] == d;
    assert r[|created| - i..][i - 1 - j] == d;
  }

  /** Modules named like array indices are disposed of out of turn. */
  lemma IndexNamesBreakTheOrder()
    ensures !InOrder(["web", "1"]) && Reversed(KeysOf(["web", "1"])) == ["web", "1"]
  {
    assert ['1'][..0] == [];
    assert DigitsValue("1"[..0]) == 0;
    assert DigitsValue("1") == 1;
    assert !('0' <= "web"[0] <= '9');
    assert ArrayIndex("web").None? && ArrayIndex("1") == Some(1);
    var created := ["web", "1"];
    assert GoesBefore(created[1], created[0]);
    assert created[..1] == ["web"] && created[..1][..0] == [];
    assert KeysOf(["web"]) == ["web"];
    assert KeysOf(created) == ["1", "web"];
  }
}
