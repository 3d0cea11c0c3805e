/**
 The worker graph of an agent configuration: the depth-first cycle check and
 the validation that uses it.
 */
module WorkerGraph {
  import opened Common

  type Name = string

  type Graph = map<Name, seq<Name>>

  function Targets(g: Graph, a: Name): seq<Name> {
    if a in g then g[a] else []
  }

  predicate Edge(g: Graph, a: Name, b: Name) {
    b in Targets(g, a)
  }

  predicate IsPath(g: Graph, p: seq<Name>) {
    forall i :: 0 <= i < |p| - 1 ==> Edge(g, p[i], p[i + 1])
  }

  /** A closed walk along worker edges. */
  predicate IsCycle(g: Graph, c: seq<Name>) {
    |c| >= 2 && c[0] == c[|c| - 1] && IsPath(g, c)
  }

  ghost predicate Acyclic(g: Graph) {
    forall c: seq<Name> :: !IsCycle(g, c)
  }

  predicate Distinct(p: seq<Name>) {
    forall i, j :: 0 <= i < j < |p| ==> p[i] != p[j]
  }

  /** Every agent comes after all of its workers. */
  predicate Topological(g: Graph, order: seq<Name>) {
    forall i, t :: 0 <= i < |order| && t in Targets(g, order[i]) ==> t in order[..i]
  }

  function Universe(g: Graph): set<Name> {
    g.Keys + (set a, t | a in g && t in g[a] :: t)
  }

  function IndexOf(s: seq<Name>, x: Name): (i: nat)
    requires x in s
    ensures i < |s| && s[i] == x
    ensures forall k :: 0 <= k < i ==> s[k] != x
    decreases |s|
  {
    if s[0] == x then 0
    else
      var i := IndexOf(s[1..], x);
      assert forall k :: 1 <= k < i + 1 ==> s[k] == s[1..][k - 1];
      i + 1
  }

  lemma {:induction false} WalkDescends(g: Graph, order: seq<Name>, p: seq<Name>)
    requires Topological(g, order) && g.Keys <= (set x | x in order)
    requires |p| >= 2 && IsPath(g, p)
    ensures p[0] in order && p[|p| - 1] in order && IndexOf(order, p[|p| - 1]) < IndexOf(order, p[0])
    decreases |p|
  {
    assert Edge(g, p[0], p[1]);
    assert p[0] in g.Keys;
    var i := IndexOf(order, p[0]);
    assert p[1] in order[..i];
    var j := IndexOf(order[..i], p[1]);
    assert order[j] == p[1];
    assert IndexOf(order, p[1]) <= j;
    if |p| > 2 {
      var rest := p[1..];
      forall k | 0 <= k < |rest| - 1 ensures Edge(g, rest[k], rest[k + 1]) {
        assert Edge(g, p[k + 1], p[k + 2]);
      }
      WalkDescends(g, order, rest);
    }
  }

  /** A topological order of all local agents rules out every cycle. */
  lemma OrderRulesOutCycles(g: Graph, order: seq<Name>)
    requires Topological(g, order) && g.Keys <= (set x | x in order)
    ensures Acyclic(g)
  {
    forall c: seq<Name> ensures !IsCycle(g, c) {
      if IsCycle(g, c) {
        WalkDescends(g, order, c);
        assert false;
      }
    }
  }

  // ----- the recursive visit

  class CycleCheck {
    const g: Graph
    var visiting: set<Name>
    var visited: set<Name>
    var path: seq<Name>
    ghost var order: seq<Name>

    constructor (g: Graph)
      ensures this.g == g && Valid() && visited == {} && path == []
    {
      this.g := g;
      visiting, visited, path, order := {}, {}, [], [];
    }

    ghost predicate Valid()
      reads this
    {
      visiting == (set x | x in path) && visiting <= Universe(g) && visiting !! visited
      && Distinct(path) && IsPath(g, path)
      && visited == (set x | x in order) && Topological(g, order)
    }

    /** Returns the cycle the source raises, if one is met. */
    method Visit(x: Name) returns (cycle: Option<seq<Name>>)
      requires Valid() && x in Universe(g)
      requires path != [] ==> Edge(g, path[|path| - 1], x)
      modifies this
      ensures cycle.None? ==> Valid() && path == old(path) && old(visited) <= visited && x in visited
      ensures cycle.Some? ==> IsCycle(g, cycle.value) && Distinct(cycle.value[1..])
      decreases Universe(g) - visiting
    {
      if x in visited {
        return None;
      }
      if x in visiting {
        var start := IndexOf(path, x);
        CutCycle(g, path, x, start);
        return Some(path[start..] + [x]);
      }
      Enter(x);
      var targets := Targets(g, x);
      var i := 0;
      while i < |targets|
        invariant 0 <= i <= |targets|
        invariant Valid() && path == old(path) + [x] && old(visited) <= visited
        invariant forall k :: 0 <= k < i ==> targets[k] in visited
      {
        TargetInUniverse(g, x, targets[i]);
        cycle := Visit(targets[i]);
        if cycle.Some? {
          return;
        }
        i := i + 1;
      }
      Leave(x, old(path));
      return None;
    }

    /** `visiting.add`, `path.append`. */
    method Enter(x: Name)
      requires Valid() && x in Universe(g) && x !in visited && x !in visiting
      requires path != [] ==> Edge(g, path[|path| - 1], x)
      modifies this
      ensures Valid() && path == old(path) + [x] && visiting == old(visiting) + {x}
      ensures visited == old(visited) && order == old(order)
    {
      PushPath(g, path, x);
      visiting := visiting + {x};
      path := path + [x];
    }

    /** `path.pop`, `visiting.remove`, `visited.add`. */
    method Leave(x: Name, ghost before: seq<Name>)
      requires Valid() && path == before + [x]
      requires forall k :: 0 <= k < |Targets(g, x)| ==> Targets(g, x)[k] in visited
      modifies this
      ensures Valid() && path == before && visited == old(visited) + {x}
    {
      PopPath(g, before, x);
      AddLast(g, order, x);
      path := path[..|path| - 1];
      visiting := visiting - {x};
      visited := visited + {x};
      order := order + [x];
    }
  }

  lemma TargetInUniverse(g: Graph, a: Name, b: Name)
    requires Edge(g, a, b)
    ensures b in Universe(g)
  {
  }

  lemma CutCycle(g: Graph, path: seq<Name>, x: Name, start: nat)
    requires start < |path| && path[start] == x && Distinct(path) && IsPath(g, path) && Edge(g, path[|path| - 1], x)
    ensures IsCycle(g, path[start..] + [x]) && Distinct((path[start..] + [x])[1..])
  {
    var c := path[start..] + [x];
    forall i | 0 <= i < |c| - 1 ensures Edge(g, c[i], c[i + 1]) {
      if i < |c| - 2 {
        assert Edge(g, path[start + i], path[start + i + 1]);
      }
    }
  }

  lemma PushPath(g: Graph, path: seq<Name>, x: Name)
    requires Distinct(path) && IsPath(g, path) && x !in path && (path != [] ==> Edge(g, path[|path| - 1], x))
    ensures Distinct(path + [x]) && IsPath(g, path + [x])
    ensures (set y | y in path + [x]) == (set y | y in path) + {x}
  {
    var p := path + [x];
    forall i | 0 <= i < |p| - 1 ensures Edge(g, p[i], p[i + 1]) {
      if i < |path| - 1 {
        assert Edge(g, path[i], path[i + 1]);
      }
    }
  }

  lemma PopPath(g: Graph, path: seq<Name>, x: Name)
    requires Distinct(path + [x]) && IsPath(g, path + [x])
    ensures (path + [x])[..|path|] == path && x !in path
    ensures (set y | y in path + [x]) - {x} == (set y | y in path)
  {
    assert forall i :: 0 <= i < |path| ==> (path + [x])[i] != (path + [x])[|path|];
  }

  lemma AddLast(g: Graph, order: seq<Name>, x: Name)
    requires Topological(g, order) && forall k :: 0 <= k < |Targets(g, x)| ==> Targets(g, x)[k] in order
    ensures Topological(g, order + [x])
    ensures (set y | y in order + [x]) == (set y | y in order) + {x}
  {
    var longer := order + [x];
    forall i, t | 0 <= i < |longer| && t in Targets(g, longer[i]) ensures t in longer[..i] {
      if i < |order| {
        assert longer[..i] == order[..i];
      } else {
        assert longer[..i] == order;
      }
    }
  }

  /**
   `_validate_local_graph_acyclic`: terminates on every finite graph, accepts
   exactly the acyclic ones with a witness order, and reports only real cycles.
   */
  method ValidateLocalGraphAcyclic(g: Graph, names: seq<Name>) returns (cycle: Option<seq<Name>>, ghost order: seq<Name>)
    requires (set n | n in names) == g.Keys
    ensures cycle.None? <==> Acyclic(g)
    ensures cycle.None? ==> Topological(g, order) && g.Keys <= (set x | x in order)
    ensures cycle.Some? ==> IsCycle(g, cycle.value) && Distinct(cycle.value[1..])
  {
    var check := new CycleCheck(g);
    var i := 0;
    while i < |names|
      invariant 0 <= i <= |names| && check.g == g && check.Valid() && check.path == []
      invariant forall k :: 0 <= k < i ==> names[k] in check.visited
    {
      assert names[i] in g.Keys;
      cycle := check.Visit(names[i]);
      if cycle.Some? {
        order := [];
        return;
      }
      i := i + 1;
    }
    order := check.order;
    forall a | a in g.Keys ensures a in order {
      assert a in names;
    }
    OrderRulesOutCycles(g, order);
    cycle := None;
  }

  // ----- the configuration

  datatype Agent = Local(workers: seq<Name>) | Remote

  type Configs = map<Name, Agent>

  datatype GraphError =
    | MainMissing
    | MainNotLocal
    | SelfWorker(agent: Name)
    | UnknownWorker(agent: Name, target: Name)
    | Cyclic(cycle: seq<Name>)

  predicate IsLocal(configs: Configs, a: Name) {
    a in configs && configs[a].Local?
  }

  function LocalTargets(configs: Configs, workers: seq<Name>): seq<Name>
    decreases |workers|
  {
    if workers == [] then []
    else (if IsLocal(configs, workers[0]) then [workers[0]] else []) + LocalTargets(configs, workers[1..])
  }

  function LocalEdges(configs: Configs): Graph {
    map a | a in configs && configs[a].Local? :: LocalTargets(configs, configs[a].workers)
  }

  /** No agent works for itself and every worker is configured. */
  predicate WorkersOk(configs: Configs, a: Name)
    requires IsLocal(configs, a)
  {
    a !in configs[a].workers && forall t :: t in configs[a].workers ==> t in configs
  }

  /** What a valid configuration is, without reference to how it is checked. */
  ghost predicate ValidGraph(main: Name, configs: Configs) {
    IsLocal(configs, main)
    && (forall a :: a in configs && configs[a].Local? ==> WorkersOk(configs, a))
    && Acyclic(LocalEdges(configs))
  }

  method FirstUnknown(configs: Configs, workers: seq<Name>) returns (target: Option<Name>)
    ensures target.None? <==> forall t :: t in workers ==> t in configs
    ensures target.Some? ==> target.value in workers && target.value !in configs
  {
    var i := 0;
    while i < |workers|
      invariant 0 <= i <= |workers| && forall k :: 0 <= k < i ==> workers[k] in configs
    {
      if workers[i] !in configs {
        return Some(workers[i]);
      }
      i := i + 1;
    }
    return None;
  }

  lemma {:induction false} LocalTargetsMember(configs: Configs, workers: seq<Name>, t: Name)
    ensures t in LocalTargets(configs, workers) <==> t in workers && IsLocal(configs, t)
    decreases |workers|
  {
    if workers != [] {
      LocalTargetsMember(configs, workers[1..], t);
      assert t in workers <==> t == workers[0] || t in workers[1..];
    }
  }

  /** The edges of the checked graph are the worker edges between local agents. */
  lemma LocalEdgesAre(configs: Configs, a: Name, b: Name)
    ensures Edge(LocalEdges(configs), a, b) <==> IsLocal(configs, a) && IsLocal(configs, b) && b in configs[a].workers
  {
    if IsLocal(configs, a) {
      LocalTargetsMember(configs, configs[a].workers, b);
    }
  }

  /** `_validate_agent_graph`; `names` lists the configured agents in order. */
  method ValidateAgentGraph(main: Name, configs: Configs, names: seq<Name>) returns (error: Option<GraphError>)
    requires (set n | n in names) == configs.Keys
    ensures error.None? <==> ValidGraph(main, configs)
    ensures error.Some? ==>
              match error.value
              case MainMissing => main !in configs
              case MainNotLocal => main in configs && configs[main].Remote?
              case SelfWorker(a) => IsLocal(configs, a) && a in configs[a].workers
              case UnknownWorker(a, t) => IsLocal(configs, a) && t in configs[a].workers && t !in configs
              case Cyclic(c) => IsCycle(LocalEdges(configs), c)
  {
    if main !in configs {
      return Some(MainMissing);
    }
    if configs[main].Remote? {
      return Some(MainNotLocal);
    }
    var edges: Graph := map[];
    var locals: seq<Name> := [];
    var i := 0;
    while i < |names|
      invariant 0 <= i <= |names|
      invariant forall k :: 0 <= k < i && IsLocal(configs, names[k]) ==> WorkersOk(configs, names[k])
      invariant edges.Keys == (set k | 0 <= k < i && IsLocal(configs, names[k]) :: names[k])
      invariant forall a :: a in edges ==> IsLocal(configs, a) && edges[a] == LocalTargets(configs, configs[a].workers)
      invariant (set n | n in locals) == edges.Keys
    {
      var a := names[i];
      assert a in configs.Keys;
      if configs[a].Local? {
        var workers := configs[a].workers;
        if a in workers {
          return Some(SelfWorker(a));
        }
        var unknown := FirstUnknown(configs, workers);
        if unknown.Some? {
          return Some(UnknownWorker(a, unknown.value));
        }
        edges := edges[a := LocalTargets(configs, workers)];
        locals := locals + [a];
      }
      i := i + 1;
    }
    AllNamed(configs, names, edges);
    assert edges == LocalEdges(configs);
    var cycle, _ := ValidateLocalGraphAcyclic(edges, locals);
    return if cycle.Some? then Some(Cyclic(cycle.value)) else None;
  }

  lemma AllNamed(configs: Configs, names: seq<Name>, edges: Graph)
    requires (set n | n in names) == configs.Keys
    requires edges.Keys == (set k | 0 <= k < |names| && IsLocal(configs, names[k]) :: names[k])
    ensures edges.Keys == LocalEdges(configs).Keys
    ensures forall a :: a in configs ==> exists k :: 0 <= k < |names| && names[k] == a
  {
    forall a | a in configs ensures exists k :: 0 <= k < |names| && names[k] == a {
      assert a in names;
    }
  }
}
