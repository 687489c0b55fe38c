/** The graph the resolver builds and searches: incremental construction with in-degrees, and the
    three-colour depth-first search for a cycle. */
module Dag {
  import opened Prelude
  import opened Resources
  import opened Graph
  import opened Kahn

  function Elements(s: seq<NodeID>): set<NodeID> {
    set x | x in s
  }

  lemma ElementsOneMore(s: seq<NodeID>, i: nat)
    requires i < |s|
    ensures Elements(s[..i + 1]) == Elements(s[..i]) + {s[i]}
  {
  }

  /** g1 is g0 with a node and more dependencies of that node. */
  ghost predicate Grown(g0: Graph, g1: Graph, from: NodeID, more: set<NodeID>) {
    && g1.nodes == g0.nodes + {from} + more
    && DepsOf(g1, from) == DepsOf(g0, from) + more
    && forall n :: n != from ==> DepsOf(g1, n) == DepsOf(g0, n)
  }

  lemma GrownTwice(g0: Graph, g1: Graph, g2: Graph, from: NodeID, a: set<NodeID>, b: set<NodeID>)
    requires Grown(g0, g1, from, a) && Grown(g1, g2, from, b)
    ensures Grown(g0, g2, from, a + b)
  {
  }

  /** Every in-degree is the number of distinct dependencies. */
  ghost predicate Degrees(g: Graph, inDegree: map<NodeID, int>) {
    inDegree.Keys == g.nodes && forall n :: n in g.nodes ==> inDegree[n] == |DepsOf(g, n)|
  }

  /** An entry without dependencies counts for nothing... */
  lemma EmptyEntry(g: Graph, inDegree: map<NodeID, int>, from: NodeID)
    requires Closed(g) && Degrees(g, inDegree) && from in g.nodes && from !in g.deps
    ensures var h := Graph(g.nodes, g.deps[from := {}]);
            Closed(h) && Degrees(h, inDegree) && forall n :: DepsOf(h, n) == DepsOf(g, n)
  {
  }

  lemma NewEdgeDeps(g: Graph, from: NodeID, to: NodeID)
    requires from in g.deps && to !in g.deps[from]
    ensures var h := Graph(g.nodes, g.deps[from := g.deps[from] + {to}]);
            && DepsOf(h, from) == DepsOf(g, from) + {to} && to !in DepsOf(g, from)
            && forall n :: n != from ==> DepsOf(h, n) == DepsOf(g, n)
  {
  }

  /** ... and a new edge counts once. */
  lemma NewEdge(g: Graph, inDegree: map<NodeID, int>, from: NodeID, to: NodeID)
    requires Closed(g) && Degrees(g, inDegree) && from in g.deps && to in g.nodes && to !in g.deps[from]
    ensures var h := Graph(g.nodes, g.deps[from := g.deps[from] + {to}]);
            Closed(h) && Degrees(h, inDegree[from := inDegree[from] + 1]) && Grown(g, h, from, {to})
  {
    hide DepsOf;
    NewEdgeDeps(g, from, to);
  }

  lemma DegreesIn(g: Graph, inDegree: map<NodeID, int>, from: NodeID)
    requires Degrees(g, inDegree) && from in g.nodes
    ensures from in inDegree
  {
  }

  lemma OldEdge(g0: Graph, g1: Graph, from: NodeID, to: NodeID)
    requires g0.nodes == g1.nodes && (forall n :: DepsOf(g1, n) == DepsOf(g0, n)) && from in g0.nodes && to in g0.nodes
    ensures to in DepsOf(g1, from) ==> Grown(g0, g1, from, {to})
    ensures from in g1.deps ==> DepsOf(g1, from) == g1.deps[from]
  {
  }

  lemma GrownLater(g0: Graph, g1: Graph, g2: Graph, from: NodeID, to: NodeID)
    requires g0.nodes == g1.nodes && (forall n :: DepsOf(g1, n) == DepsOf(g0, n)) && Grown(g1, g2, from, {to})
    ensures Grown(g0, g2, from, {to})
  {
  }

  class Dag {
    var nodes: set<NodeID>
    var edges: map<NodeID, set<NodeID>>
    var inDegree: map<NodeID, int>

    ghost function View(): Graph
      reads this
    {
      Graph(nodes, edges)
    }

    /** The in-degree is the number of distinct dependencies, however often an edge was added. */
    ghost predicate Valid()
      reads this
    {
      Closed(View()) && Degrees(View(), inDegree)
    }

    constructor ()
      ensures Valid() && nodes == {} && edges == map[]
    {
      nodes, edges, inDegree := {}, map[], map[];
    }

    method AddNode(id: NodeID)
      requires Valid()
      modifies this
      ensures Valid() && nodes == old(nodes) + {id} && edges == old(edges)
    {
      if id in nodes {
        return;
      }
      nodes := nodes + {id};
      inDegree := inDegree[id := 0];
    }

    /** Both ends must have been added before; the program panics otherwise. */
    method AddEdge(from: NodeID, to: NodeID)
      requires Valid() && from in nodes && to in nodes
      modifies this
      ensures Valid() && Grown(old(View()), View(), from, {to})
    {
      hide Grown, Degrees, Closed, DepsOf;
      ghost var g0 := View();
      DegreesIn(g0, inDegree, from);
      if from !in edges {
        EmptyEntry(g0, inDegree, from);
        edges := edges[from := {}];
      }
      ghost var g1 := View();
      DegreesIn(g1, inDegree, from);
      OldEdge(g0, g1, from, to);
      if to !in edges[from] {
        NewEdge(g1, inDegree, from, to);
        GrownLater(g0, g1, Graph(nodes, edges[from := edges[from] + {to}]), from, to);
        edges := edges[from := edges[from] + {to}];
        inDegree := inDegree[from := inDegree[from] + 1];
      }
    }

    method AddResource(res: Resource)
      requires Valid()
      modifies this
      ensures Valid() && Grown(old(View()), View(), res.Id(), Elements(res.Dependencies()))
      ensures forall d :: d in DepsOf(View(), res.Id()) <==> d in DepsOf(old(View()), res.Id()) || Needs(res, d)
    {
      forall d ensures d in res.Dependencies() <==> Needs(res, d) {
        DependenciesAre(res, d);
      }
      AddNode(res.Id());
      AddDependencies(res.Id(), res.Dependencies());
    }

    method AddDependencies(from: NodeID, refs: seq<NodeID>)
      requires Valid() && from in nodes
      modifies this
      ensures Valid() && Grown(old(View()), View(), from, Elements(refs))
    {
      ghost var g0 := View();
      for i := 0 to |refs|
        invariant Valid() && from in nodes && Grown(g0, View(), from, Elements(refs[..i]))
      {
        ghost var g1 := View();
        AddDependency(from, refs[i]);
        GrownTwice(g0, g1, View(), from, Elements(refs[..i]), {refs[i]});
        ElementsOneMore(refs, i);
      }
      assert refs[..|refs|] == refs;
    }

    method AddDependency(from: NodeID, to: NodeID)
      requires Valid() && from in nodes
      modifies this
      ensures Valid() && Grown(old(View()), View(), from, {to})
    {
      AddNode(to);
      AddEdge(from, to);
    }

    /** nil (here: the empty path) exactly when the graph is acyclic; otherwise a simple cycle along
        dependency edges. The order in which map entries are visited is arbitrary. */
    method DetectCycle() returns (cycle: seq<NodeID>, ghost rank: map<NodeID, nat>)
      requires Valid()
      ensures cycle == [] <==> Acyclic(View())
      ensures cycle != [] ==> SimpleCycle(View(), cycle)
      ensures cycle == [] ==> Ranked(View(), rank)
    {
      var search := new CycleSearch(nodes, edges);
      var todo := nodes;
      while todo != {}
        invariant todo <= nodes
        invariant search.Valid([])
        invariant search.nodes == nodes && search.edges == edges
        invariant forall n :: n in nodes - todo ==> ColorIn(search.color, n) == Black
      {
        var id :| id in todo;
        todo := todo - {id};
        if ColorIn(search.color, id) == White {
          var found := search.Dfs(id, []);
          if found {
            assert Cycle(View(), search.cycle);
            return search.cycle, map[];
          }
        }
      }
      rank := search.rank;
      RankedAcyclic(View(), rank);
      cycle := [];
    }

    /** Execution layers by Kahn's algorithm, or the cycle that makes them impossible. */
    method TopologicalSort() returns (r: Result<Layers, seq<NodeID>>, ghost level: map<NodeID, nat>)
      requires Valid()
      ensures r.Err? <==> !Acyclic(View())
      ensures r.Err? ==> SimpleCycle(View(), r.error)
      ensures r.Ok? ==> Layering(View(), level, r.value)
    {
      var cycle, rank := DetectCycle();
      if cycle != [] {
        return Err(cycle), map[];
      }
      var layers;
      layers, level := SortAcyclic(rank);
      r := Ok(layers);
    }

    method SortAcyclic(ghost rank: map<NodeID, nat>) returns (layers: Layers, ghost level: map<NodeID, nat>)
      requires Valid() && Ranked(View(), rank)
      ensures Layering(View(), level, layers)
    {
      ghost var g := View();
      var remaining := inDegree;
      var reverse := ReverseEdges(nodes, edges);
      var queue := NodesWithoutDependencies();
      ghost var done: set<NodeID> := {};
      layers := [];
      level := map n | n in Members(queue) :: 0;
      FirstLayer(g, queue, level);
      AllPending(g, remaining);
      while queue != []
        invariant Ready(g, done, queue) && LeveledSoFar(g, done, queue, level, |layers|)
        invariant Filled(done, level, layers) && Ordered(layers)
        invariant Counted(g, done, remaining)
        decreases g.nodes - done
      {
        var next;
        remaining, next := FinishLayer(g, done, queue, reverse, remaining);
        ghost var level' := Promote(level, next, |layers| + 1);
        LayerDone(g, done, queue, level, layers, next);
        assert queue[0] in queue && queue[0] in g.nodes - done;
        layers, level, done, queue := layers + [Sort(queue)], level', done + Members(queue), next;
      }
      AllPlaced(g, rank, done, level, layers);
    }

    method NodesWithoutDependencies() returns (queue: seq<NodeID>)
      requires Valid()
      ensures NoDup(queue) && forall n :: n in queue <==> n in nodes && DepsOf(View(), n) == {}
    {
      queue := [];
      var todo := nodes;
      while todo != {}
        invariant todo <= nodes
        invariant NoDup(queue) && forall n :: n in queue <==> n in nodes - todo && DepsOf(View(), n) == {}
      {
        var id :| id in todo;
        todo := todo - {id};
        if inDegree[id] == 0 {
          queue := queue + [id];
        }
      }
    }
  }

  datatype Color = White | Gray | Black

  function Reversed<T>(s: seq<T>): (r: seq<T>)
    ensures |r| == |s| && forall i :: 0 <= i < |s| ==> r[i] == s[|s| - 1 - i]
  {
    seq(|s|, i requires 0 <= i < |s| => s[|s| - 1 - i])
  }

  function ColorIn(color: map<NodeID, Color>, n: NodeID): Color {
    if n in color then color[n] else White
  }

  ghost predicate StaysBlack(before: map<NodeID, Color>, after: map<NodeID, Color>) {
    forall n :: ColorIn(before, n) == Black ==> ColorIn(after, n) == Black
  }

  lemma StaysBlackTwice(a: map<NodeID, Color>, b: map<NodeID, Color>, c: map<NodeID, Color>)
    requires StaysBlack(a, b) && StaysBlack(b, c)
    ensures StaysBlack(a, c)
  {
  }

  ghost function Whites(g: Graph, color: map<NodeID, Color>): set<NodeID> {
    set n | n in g.nodes && ColorIn(color, n) == White
  }

  /** The gray nodes are the path from the root, linked by parent; the black ones have only black
      dependencies, all finished earlier. */
  ghost predicate Consistent(g: Graph, color: map<NodeID, Color>, parent: map<NodeID, NodeID>, rank: map<NodeID, nat>,
                             clock: nat, path: seq<NodeID>)
  {
    && (forall n :: ColorIn(color, n) == Gray <==> n in path)
    && GrayPath(g, parent, path)
    && (forall n :: ColorIn(color, n) == Black ==> n in rank && rank[n] < clock)
    && (forall n, d :: ColorIn(color, n) == Black && d in DepsOf(g, n) ==>
        ColorIn(color, d) == Black && rank[d] < rank[n])
  }

  ghost predicate GrayPath(g: Graph, parent: map<NodeID, NodeID>, path: seq<NodeID>) {
    && (path != [] ==> Chain(g, path))
    && (forall i, j :: 0 <= i < j < |path| ==> path[i] != path[j])
    && (forall i :: 1 <= i < |path| ==> path[i] in parent && parent[path[i]] == path[i - 1])
  }

  lemma Greyed(g: Graph, color: map<NodeID, Color>, parent: map<NodeID, NodeID>, rank: map<NodeID, nat>, clock: nat,
               path: seq<NodeID>, node: NodeID)
    requires Consistent(g, color, parent, rank, clock, path) && node in g.nodes && ColorIn(color, node) == White
    requires path != [] ==> node in DepsOf(g, path[|path| - 1]) && node in parent && parent[node] == path[|path| - 1]
    ensures Consistent(g, color[node := Gray], parent, rank, clock, path + [node])
    ensures Whites(g, color[node := Gray]) < Whites(g, color) && StaysBlack(color, color[node := Gray])
  {
    assert node in Whites(g, color) && node !in Whites(g, color[node := Gray]);
    var color', path' := color[node := Gray], path + [node];
    assert forall n :: n != node ==> ColorIn(color', n) == ColorIn(color, n);
    assert Chain(g, path');
  }

  lemma Blackened(g: Graph, color: map<NodeID, Color>, parent: map<NodeID, NodeID>, rank: map<NodeID, nat>, clock: nat,
                  path: seq<NodeID>, node: NodeID)
    requires Consistent(g, color, parent, rank, clock, path + [node])
    requires forall d :: d in DepsOf(g, node) ==> ColorIn(color, d) == Black
    ensures Consistent(g, color[node := Black], parent, rank[node := clock], clock + 1, path)
    ensures StaysBlack(color, color[node := Black]) && Whites(g, color[node := Black]) <= Whites(g, color)
  {
    var path', color' := path + [node], color[node := Black];
    assert path'[|path|] == node && node in path';
    assert forall i :: 0 <= i < |path| ==> path[i] == path'[i];
    assert forall n :: n != node ==> ColorIn(color', n) == ColorIn(color, n);
    forall n ensures n in path' && n != node <==> n in path {
      if n in path {
        var i :| 0 <= i < |path| && path[i] == n;
        assert path'[i] == n;
      }
    }
  }

  lemma Reparented(g: Graph, color: map<NodeID, Color>, parent: map<NodeID, NodeID>, rank: map<NodeID, nat>, clock: nat,
                   path: seq<NodeID>, n: NodeID, p: NodeID)
    requires Consistent(g, color, parent, rank, clock, path) && ColorIn(color, n) == White
    ensures Consistent(g, color, parent[n := p], rank, clock, path)
  {
  }

  /** The variables the recursive closure shares. */
  class CycleSearch {
    const nodes: set<NodeID>
    const edges: map<NodeID, set<NodeID>>
    var color: map<NodeID, Color>
    var parent: map<NodeID, NodeID>
    var cycle: seq<NodeID>
    ghost var rank: map<NodeID, nat>
    ghost var clock: nat

    ghost function G(): Graph {
      Graph(nodes, edges)
    }

    ghost predicate Valid(path: seq<NodeID>)
      reads this
    {
      Closed(G()) && Consistent(G(), color, parent, rank, clock, path)
    }

    constructor (nodes: set<NodeID>, edges: map<NodeID, set<NodeID>>)
      requires Closed(Graph(nodes, edges))
      ensures this.nodes == nodes && this.edges == edges && Valid([])
    {
      this.nodes, this.edges := nodes, edges;
      color, parent, cycle, rank, clock := map[], map[], [], map[], 0;
    }

    method Dfs(node: NodeID, ghost path: seq<NodeID>) returns (found: bool)
      requires Valid(path) && node in nodes && ColorIn(color, node) == White
      requires path != [] ==>
        node in DepsOf(G(), path[|path| - 1]) && node in parent && parent[node] == path[|path| - 1]
      modifies this
      ensures found ==> SimpleCycle(G(), cycle)
      ensures !found ==> Valid(path) && ColorIn(color, node) == Black && StaysBlack(old(color), color)
      ensures !found ==> Whites(G(), color) <= Whites(G(), old(color))
      decreases Whites(G(), color), 0
    {
      hide Consistent, SimpleCycle;
      ghost var g, color0 := G(), color;
      Greyed(g, color, parent, rank, clock, path, node);
      color := color[node := Gray];
      var todo := if node in edges then edges[node] else {};
      while todo != {}
        invariant todo <= DepsOf(g, node)
        invariant Valid(path + [node])
        invariant Whites(g, color) < Whites(g, color0) && StaysBlack(color0, color)
        invariant forall d :: d in DepsOf(g, node) - todo ==> ColorIn(color, d) == Black
        decreases |todo|
      {
        var dep :| dep in todo;
        todo := todo - {dep};
        ghost var color1 := color;
        found := Follow(node, dep, path + [node]);
        if found {
          return;
        }
        StaysBlackTwice(color0, color1, color);
      }
      ghost var color1 := color;
      Finish(node, path);
      StaysBlackTwice(color0, color1, color);
      found := false;
    }

    method Finish(node: NodeID, ghost path: seq<NodeID>)
      requires Valid(path + [node])
      requires forall d :: d in DepsOf(G(), node) ==> ColorIn(color, d) == Black
      modifies this
      ensures Valid(path) && ColorIn(color, node) == Black
      ensures StaysBlack(old(color), color) && Whites(G(), color) <= Whites(G(), old(color))
    {
      Blackened(G(), color, parent, rank, clock, path, node);
      color := color[node := Black];
      rank, clock := rank[node := clock], clock + 1;
    }

    /** One round of the loop over a node's dependencies. */
    method Follow(node: NodeID, dep: NodeID, ghost path: seq<NodeID>) returns (found: bool)
      requires Valid(path) && path != [] && path[|path| - 1] == node && dep in DepsOf(G(), node)
      modifies this
      ensures found ==> SimpleCycle(G(), cycle)
      ensures !found ==> Valid(path) && ColorIn(color, dep) == Black && StaysBlack(old(color), color)
      ensures !found ==> Whites(G(), color) <= Whites(G(), old(color))
      decreases Whites(G(), color), 1
    {
      if ColorIn(color, dep) == Gray {
        cycle := Reconstruct(G(), parent, node, dep, path);
        return true;
      }
      if ColorIn(color, dep) == White {
        Reparented(G(), color, parent, rank, clock, path, dep, node);
        parent := parent[dep := node];
        found := Dfs(dep, path);
        return;
      }
      found := false;
    }
  }

  /** Walks the parent chain from node back to the gray dep; the chain does reach it. */
  method Reconstruct(ghost g: Graph, parent: map<NodeID, NodeID>, node: NodeID, dep: NodeID, ghost path: seq<NodeID>)
    returns (cycle: seq<NodeID>)
    requires path != [] && path[|path| - 1] == node && GrayPath(g, parent, path)
    requires dep in path && dep in DepsOf(g, node)
    ensures SimpleCycle(g, cycle)
  {
    ghost var j :| 0 <= j < |path| && path[j] == dep;
    ghost var q := |path| - 1;
    var found := [dep];
    var curr := node;
    while curr != dep
      invariant j <= q < |path| && curr == path[q]
      invariant |found| == |path| - q && found[0] == dep
      invariant forall t :: 1 <= t < |found| ==> found[t] == path[|path| - t]
      decreases q
    {
      found := found + [curr];
      curr := parent[curr];
      q := q - 1;
    }
    found := found + [dep];
    cycle := Reversed(found);
    assert cycle == path[j..] + [dep];
    ClosesCycle(g, path, j, dep);
  }

  lemma ClosesCycle(g: Graph, path: seq<NodeID>, j: nat, dep: NodeID)
    requires j < |path| && Chain(g, path) && path[j] == dep && dep in DepsOf(g, path[|path| - 1])
    requires forall i, k :: 0 <= i < k < |path| ==> path[i] != path[k]
    ensures SimpleCycle(g, path[j..] + [dep])
  {
  }
}
