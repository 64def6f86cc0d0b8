/** Recursive depth-first cycle detection, as TaskPlan validation
    (MEIZEX_AIR/src/meizex_air/bounded_execution.py) and partition-plan validation
    (MEIZEX_AIR/src/meizex_air/workload_partitioning.py) both do it. */
module DependencyGraph {
  import opened Common
  import opened Ordering

  /** Node -> the nodes it depends on. */
  type Graph = map<string, seq<string>>

  ghost predicate Closed(g: Graph) {
    forall n, d :: n in g && d in g[n] ==> d in g
  }

  /** A walk follows dependencies: each node depends on the next one. */
  ghost predicate Walk(g: Graph, w: seq<string>) {
    forall i :: 0 <= i < |w| - 1 ==> w[i] in g && w[i + 1] in g[w[i]]
  }

  ghost predicate Cycle(g: Graph, w: seq<string>) {
    |w| >= 2 && w[0] == w[|w| - 1] && Walk(g, w)
  }

  ghost predicate Acyclic(g: Graph) {
    forall w :: !Cycle(g, w)
  }

  /** Every node of the order comes after everything it depends on. */
  ghost predicate Topological(g: Graph, order: seq<string>) {
    forall i :: 0 <= i < |order| ==> order[i] in g && forall d :: d in g[order[i]] ==> d in order[..i]
  }

  /** In a topological order a dependency sits strictly before its dependent. */
  lemma DependencyComesBefore(g: Graph, order: seq<string>, i: nat, d: string) returns (j: nat)
    requires Topological(g, order) && i < |order| && d in g[order[i]]
    ensures j < i && order[j] == d
  {
    assert d in order[..i];
    j :| 0 <= j < i && order[..i][j] == d;
  }

  /** The first position of a node. */
  function Position(order: seq<string>, n: string): (p: nat)
    requires n in order
    ensures p < |order| && order[p] == n
    ensures forall k :: 0 <= k < p ==> order[k] != n
  {
    if order[0] == n then 0 else 1 + Position(order[1..], n)
  }

  lemma {:induction false} WalkDescends(g: Graph, order: seq<string>, w: seq<string>)
    requires Topological(g, order) && Walk(g, w) && |w| >= 2 && w[0] in order
    ensures w[|w| - 1] in order
    ensures Position(order, w[|w| - 1]) < Position(order, w[0])
    decreases |w|
  {
    var p := Position(order, w[0]);
    var j := DependencyComesBefore(g, order, p, w[1]);
    assert Position(order, w[1]) <= j;
    if |w| > 2 {
      WalkDescends(g, order, w[1..]);
    }
  }

  /** A topological order of all nodes rules out every cycle. */
  lemma TopologicalMeansAcyclic(g: Graph, order: seq<string>)
    requires Topological(g, order)
    requires forall n :: n in g ==> n in order
    ensures Acyclic(g)
  {
    forall w ensures !Cycle(g, w) {
      if Cycle(g, w) {
        assert w[0] in g;
        WalkDescends(g, order, w);
        assert false;
      }
    }
  }

  // ---------------------------------------------------------------- the search

  /** The state one validation shares between its recursive visits. `order` and `path` are what
      the search proves about itself: the order in which nodes were finished, and the chain of
      dependencies from the root of the search down to the node being visited. */
  class DepthFirstSearch {
    const graph: Graph
    var visiting: set<string>
    var visited: set<string>
    ghost var order: seq<string>
    ghost var path: seq<string>

    ghost predicate Valid()
      reads this
    {
      && Closed(graph)
      && visiting !! visited
      && visiting <= graph.Keys
      && Walk(graph, path)
      && (forall n :: n in visiting <==> n in path)
      && (forall n :: n in visited <==> n in order)
      && Topological(graph, order)
    }

    constructor (graph: Graph)
      requires Closed(graph)
      ensures Valid() && this.graph == graph && visiting == {} && visited == {} && path == [] && order == []
    {
      this.graph := graph;
      visiting, visited, order, path := {}, {}, [], [];
    }

    /** Raises with a cycle all of whose nodes are being visited at that moment, on the path below the
        caller's; or returns once `n` and all it needs are finished. */
    method Visit(n: string) returns (ghost cycle: seq<string>, raised: bool)
      requires Valid() && n in graph
      requires path != [] ==> n in graph[path[|path| - 1]]
      modifies this
      ensures raised ==> Cycle(graph, cycle) && forall m :: m in cycle ==> m in visiting
      ensures raised ==> Valid() && old(visiting) <= visiting && old(path) <= path
      ensures !raised ==> Valid() && visiting == old(visiting) && path == old(path)
      ensures !raised ==> n in visited && old(visited) <= visited && old(order) <= order
      decreases graph.Keys - visiting
    {
      cycle := [];
      if n in visiting {
        // The path from the earlier occurrence of n back to n is the cycle.
        var p := Position(path, n);
        cycle := path[p..] + [n];
        return cycle, true;
      }
      if n in visited {
        return cycle, false;
      }
      visiting := visiting + {n};
      ghost var outer := path;
      path := path + [n];
      var i := 0;
      while i < |graph[n]|
        invariant 0 <= i <= |graph[n]|
        invariant Valid()
        invariant visiting == old(visiting) + {n} && path == outer + [n]
        invariant old(visited) <= visited && old(order) <= order
        invariant forall k :: 0 <= k < i ==> graph[n][k] in visited
      {
        ghost var evidence;
        evidence, raised := Visit(graph[n][i]);
        if raised {
          return evidence, true;
        }
        i := i + 1;
      }
      visiting := visiting - {n};
      visited := visited + {n};
      path := outer;
      FinishKeepsOrder(graph, order, n);
      order := order + [n];
      raised := false;
    }

    /** The driver loop over the sorted node ids. */
    method Search(nodes: seq<string>) returns (ghost cycle: seq<string>, raised: bool)
      requires Valid() && visiting == {} && path == []
      requires forall n :: n in nodes <==> n in graph
      modifies this
      ensures raised ==> Cycle(graph, cycle) && forall m :: m in cycle ==> m in visiting
      ensures !raised ==> Valid() && (forall n :: n in graph ==> n in order)
    {
      cycle := [];
      var i := 0;
      while i < |nodes|
        invariant 0 <= i <= |nodes|
        invariant Valid() && visiting == {} && path == []
        invariant forall k :: 0 <= k < i ==> nodes[k] in visited
      {
        cycle, raised := Visit(nodes[i]);
        if raised {
          return;
        }
        i := i + 1;
      }
      raised := false;
    }
  }

  lemma FinishKeepsOrder(g: Graph, order: seq<string>, n: string)
    requires Topological(g, order) && n in g
    requires forall d :: d in g[n] ==> d in order
    ensures Topological(g, order + [n])
  {
    var next := order + [n];
    forall i | 0 <= i < |next| ensures next[i] in g && forall d :: d in g[next[i]] ==> d in next[..i] {
      assert next[..i] == order[..i];
      if i == |order| {
        assert order[..i] == order;
      }
    }
  }

  // ---------------------------------------------------------------- TaskPlan

  datatype PlanError = DuplicateIds | UnknownKey | SelfDependency | UnknownDependency | DependencyCycle

  /** One entry of the `dependencies` dictionary, in the dictionary's order. */
  datatype Entry = Entry(id: string, deps: seq<string>)

  function Lookup(entries: seq<Entry>, id: string): seq<string> {
    if entries == [] then []
    else if entries[0].id == id then entries[0].deps
    else Lookup(entries[1..], id)
  }

  /** The graph that is checked: every sprint, with its dependencies once each and sorted. */
  ghost function PlanGraph(ids: seq<string>, entries: seq<Entry>): Graph {
    map n | n in ids :: SortedSet(Lookup(entries, n))
  }

  /** Every key and every referenced id is a member of `sprint_ids`. */
  ghost predicate KnownReferences(ids: seq<string>, entries: seq<Entry>) {
    forall e :: e in entries ==> e.id in ids && forall d :: d in e.deps ==> d in ids
  }

  /** Dictionary keys are distinct. */
  ghost predicate DistinctKeys(entries: seq<Entry>) {
    forall i, j :: 0 <= i < j < |entries| ==> entries[i].id != entries[j].id
  }

  lemma {:induction false} LookupFinds(entries: seq<Entry>, k: nat)
    requires DistinctKeys(entries) && k < |entries|
    ensures Lookup(entries, entries[k].id) == entries[k].deps
  {
    if k > 0 {
      LookupFinds(entries[1..], k - 1);
    }
  }

  lemma {:induction false} LookupOrigin(entries: seq<Entry>, id: string, d: string)
    requires d in Lookup(entries, id)
    ensures exists k :: 0 <= k < |entries| && entries[k].id == id && d in entries[k].deps
  {
    if entries[0].id != id {
      LookupOrigin(entries[1..], id, d);
      var k :| 0 <= k < |entries[1..]| && entries[1..][k].id == id && d in entries[1..][k].deps;
      assert entries[k + 1].id == id && d in entries[k + 1].deps;
    }
  }

  lemma NothingLooked()
    ensures forall n :: SortedSet(Lookup([], n)) == []
  {
  }

  /** The first loop: only known tasks may be keys. */
  method KeysKnown(ids: seq<string>, entries: seq<Entry>) returns (known: bool)
    ensures known <==> forall e :: e in entries ==> e.id in ids
  {
    var k := 0;
    while k < |entries|
      invariant 0 <= k <= |entries|
      invariant forall i :: 0 <= i < k ==> entries[i].id in ids
    {
      if entries[k].id !in ids {
        assert entries[k] in entries;
        return false;
      }
      k := k + 1;
    }
    known := true;
  }

  /** The reference checks and the construction of the graph, entry by entry. */
  method BuildGraph(ids: seq<string>, entries: seq<Entry>) returns (r: Result<Graph, PlanError>)
    requires DistinctKeys(entries)
    ensures r.Ok? ==> KnownReferences(ids, entries) && r.value == PlanGraph(ids, entries)
    ensures r.Err? ==> !KnownReferences(ids, entries) || !Acyclic(PlanGraph(ids, entries))
    ensures r.Err? ==> r.error in {UnknownKey, SelfDependency, UnknownDependency}
  {
    hide Lookup, SortedSet, UnknownOf, Acyclic;
    var known := KeysKnown(ids, entries);
    if !known {
      return Err(UnknownKey);
    }
    var graph: Graph := map n | n in ids :: [];
    NothingLooked();
    assert entries[..0] == [];
    var k := 0;
    while k < |entries|
      invariant 0 <= k <= |entries|
      invariant forall n :: n in graph <==> n in ids
      invariant forall n :: n in ids ==> graph[n] == SortedSet(Lookup(entries[..k], n))
      invariant forall i :: 0 <= i < k ==> forall d :: d in entries[i].deps ==> d in ids
    {
      var e := entries[k];
      assert e in entries;
      if e.id in e.deps {
        SelfDependencyIsCycle(ids, entries, k);
        return Err(SelfDependency);
      }
      UnknownOfMembers(e.deps, ids);
      var unknown := UnknownOf(e.deps, ids);
      if unknown != [] {
        assert unknown[0] in unknown;
        return Err(UnknownDependency);
      }
      forall d | d in e.deps ensures d in ids { assert d !in unknown; }
      forall n | n in ids ensures graph[e.id := SortedSet(e.deps)][n] == SortedSet(Lookup(entries[..k + 1], n)) {
        LookupStep(entries, k, n);
      }
      graph := graph[e.id := SortedSet(e.deps)];
      k := k + 1;
    }
    assert entries[..k] == entries;
    assert graph == PlanGraph(ids, entries);
    r := Ok(graph);
  }

  /** `_validate`'s graph part. It accepts a plan exactly when the ids are distinct, every
      reference is known and the dependency relation has no cycle (a sprint depending on itself
      is one); an accepted plan's dependencies are the non-empty rows of its graph. */
  method ValidateTaskPlan(ids: seq<string>, entries: seq<Entry>) returns (r: Result<Graph, PlanError>, ghost order: seq<string>)
    requires DistinctKeys(entries)
    ensures r.Ok? <==> NoDuplicates(ids) && KnownReferences(ids, entries) && Acyclic(PlanGraph(ids, entries))
    ensures r.Ok? ==> r.value == (map n | n in ids && Lookup(entries, n) != [] :: SortedSet(Lookup(entries, n)))
    ensures r.Ok? ==> Topological(PlanGraph(ids, entries), order) && forall n :: n in ids ==> n in order
    ensures r.Err? && r.error.DuplicateIds? <==> !NoDuplicates(ids)
    ensures r.Err? && r.error.DependencyCycle? ==> KnownReferences(ids, entries) && !Acyclic(PlanGraph(ids, entries))
  {
    order := [];
    DedupShrinks(ids);
    if |Dedup(ids)| != |ids| {
      return Err(DuplicateIds), order;
    }
    var built := BuildGraph(ids, entries);
    if built.Err? {
      return Err(built.error), order;
    }
    var graph := built.value;
    GraphClosed(ids, entries);
    var search := new DepthFirstSearch(graph);
    var sorted := SortStrings(ids);
    forall n ensures n in sorted <==> n in graph { SortByMembers(ids, Codes, n); }
    ghost var cycle;
    var raised;
    cycle, raised := search.Search(sorted);
    if raised {
      return Err(DependencyCycle), order;
    }
    order := search.order;
    TopologicalMeansAcyclic(graph, order);
    r := Ok(map n | n in graph && graph[n] != [] :: graph[n]);
    NonEmptyRows(ids, entries);
  }

  function UnknownOf(deps: seq<string>, ids: seq<string>): seq<string> {
    if deps == [] then []
    else if deps[0] in ids then UnknownOf(deps[1..], ids)
    else [deps[0]] + UnknownOf(deps[1..], ids)
  }

  lemma {:induction false} UnknownOfMembers(deps: seq<string>, ids: seq<string>)
    ensures forall d :: d in UnknownOf(deps, ids) <==> d in deps && d !in ids
  {
    if deps != [] {
      UnknownOfMembers(deps[1..], ids);
      assert deps == [deps[0]] + deps[1..];
    }
  }

  lemma {:induction false} DedupShrinks(xs: seq<string>)
    ensures |Dedup(xs)| <= |xs|
    ensures |Dedup(xs)| == |xs| <==> NoDuplicates(xs)
  {
    if xs != [] {
      DedupShrinks(xs[1..]);
      if xs[0] in xs[1..] {
        var i :| 0 <= i < |xs[1..]| && xs[1..][i] == xs[0];
        assert xs[0] == xs[i + 1];
      } else if NoDuplicates(xs[1..]) {
        forall i, j | 0 <= i < j < |xs| ensures xs[i] != xs[j] {
          if i == 0 { assert xs[j] == xs[1..][j - 1]; } else { assert xs[i] == xs[1..][i - 1] && xs[j] == xs[1..][j - 1]; }
        }
      }
    }
  }

  lemma {:induction false} LookupPrefix(entries: seq<Entry>, k: nat, n: string)
    requires DistinctKeys(entries) && k < |entries|
    ensures Lookup(entries[..k + 1], n) == if entries[k].id == n then entries[k].deps else Lookup(entries[..k], n)
  {
    if k == 0 {
      assert entries[..1] == [entries[0]];
    } else {
      assert entries[..k + 1][1..] == entries[1..][..k] && entries[..k][1..] == entries[1..][..k - 1];
      LookupPrefix(entries[1..], k - 1, n);
    }
  }

  lemma LookupStep(entries: seq<Entry>, k: nat, n: string)
    requires DistinctKeys(entries) && k < |entries|
    ensures SortedSet(Lookup(entries[..k + 1], n))
         == if entries[k].id == n then SortedSet(entries[k].deps) else SortedSet(Lookup(entries[..k], n))
  {
    LookupPrefix(entries, k, n);
  }

  lemma SelfDependencyIsCycle(ids: seq<string>, entries: seq<Entry>, k: nat)
    requires DistinctKeys(entries) && k < |entries| && entries[k].id in entries[k].deps && entries[k].id in ids
    ensures Cycle(PlanGraph(ids, entries), [entries[k].id, entries[k].id])
    ensures !Acyclic(PlanGraph(ids, entries))
  {
    LookupFinds(entries, k);
    SortedSetMembers(entries[k].deps);
  }

  lemma GraphClosed(ids: seq<string>, entries: seq<Entry>)
    requires KnownReferences(ids, entries)
    ensures Closed(PlanGraph(ids, entries))
  {
    var g := PlanGraph(ids, entries);
    forall n, d | n in g && d in g[n] ensures d in g {
      SortedSetMembers(Lookup(entries, n));
      LookupOrigin(entries, n, d);
      var k :| 0 <= k < |entries| && entries[k].id == n && d in entries[k].deps;
      assert entries[k] in entries;
    }
  }

  lemma NonEmptyRows(ids: seq<string>, entries: seq<Entry>)
    ensures (map n | n in PlanGraph(ids, entries) && PlanGraph(ids, entries)[n] != [] :: PlanGraph(ids, entries)[n])
         == (map n | n in ids && Lookup(entries, n) != [] :: SortedSet(Lookup(entries, n)))
  {
    forall n | n in ids ensures SortedSet(Lookup(entries, n)) == [] <==> Lookup(entries, n) == [] {
      SortedSetMembers(Lookup(entries, n));
      if Lookup(entries, n) != [] {
        assert Lookup(entries, n)[0] in SortedSet(Lookup(entries, n));
      }
    }
  }
}
