/** Layered topological sorting: reverse edges, in-degrees that count down, and the layer loop. */
module Kahn {
  import opened Resources
  import opened Graph

  function Pending(g: Graph, done: set<NodeID>, n: NodeID): set<NodeID> {
    DepsOf(g, n) - done
  }

  /** The working in-degrees count the dependencies that are not done. */
  ghost predicate Counted(g: Graph, done: set<NodeID>, inDegree: map<NodeID, int>) {
    inDegree.Keys == g.nodes && forall n :: n in g.nodes ==> inDegree[n] == |Pending(g, done, n)|
  }

  function Dependents(reverse: map<NodeID, seq<NodeID>>, d: NodeID): seq<NodeID> {
    if d in reverse then reverse[d] else []
  }

  method ReverseEdges(nodes: set<NodeID>, edges: map<NodeID, set<NodeID>>) returns (reverse: map<NodeID, seq<NodeID>>)
    requires Closed(Graph(nodes, edges))
    ensures forall d :: NoDup(Dependents(reverse, d))
    ensures forall d, n :: n in Dependents(reverse, d) <==> d in DepsOf(Graph(nodes, edges), n)
  {
    reverse := map[];
    var froms := edges.Keys;
    while froms != {}
      invariant froms <= edges.Keys
      invariant forall d :: NoDup(Dependents(reverse, d))
      invariant forall d, n :: n in Dependents(reverse, d) <==> n in edges && n !in froms && d in edges[n]
    {
      var from :| from in froms;
      reverse := AddReverse(reverse, from, edges[from]);
      froms := froms - {from};
    }
  }

  method AddReverse(reverse0: map<NodeID, seq<NodeID>>, from: NodeID,
                    deps: set<NodeID>) returns (reverse: map<NodeID, seq<NodeID>>)
    requires forall d :: NoDup(Dependents(reverse0, d)) && from !in Dependents(reverse0, d)
    ensures forall d :: NoDup(Dependents(reverse, d))
    ensures forall d, n :: n in Dependents(reverse, d) <==> n in Dependents(reverse0, d) || (n == from && d in deps)
  {
    reverse := reverse0;
    var todo := deps;
    while todo != {}
      invariant todo <= deps
      invariant forall d :: Dependents(reverse, d) == Dependents(reverse0, d) + (if d in deps - todo then [from]
                                                                                 else [])
    {
      var dep :| dep in todo;
      reverse := reverse[dep := Dependents(reverse, dep) + [from]];
      todo := todo - {dep};
    }
  }

  /** One finished node: counts its dependents down and queues those that reach zero. */
  method Release(ghost g: Graph, ghost done: set<NodeID>, id: NodeID, dependents: seq<NodeID>,
                 inDegree0: map<NodeID, int>, next0: seq<NodeID>)
    returns (inDegree: map<NodeID, int>, next: seq<NodeID>)
    requires Closed(g) && Counted(g, done, inDegree0) && id !in done
    requires NoDup(dependents) && forall n :: n in dependents <==> id in DepsOf(g, n)
    requires NoDup(next0) && forall n :: n in next0 ==> Pending(g, done, n) == {}
    ensures Counted(g, done + {id}, inDegree)
    ensures NoDup(next)
    ensures forall n :: n in next <==> n in next0 || (id in DepsOf(g, n) && Pending(g, done + {id}, n) == {})
  {
    forall n | n in dependents ensures n in g.nodes && n !in next0 {
      assert id in Pending(g, done, n);
    }
    inDegree, next := CountDown(dependents, inDegree0, next0);
    forall n | n in g.nodes
      ensures inDegree[n] == |Pending(g, done + {id}, n)|
      ensures n in dependents ==> (inDegree0[n] == 1 <==> Pending(g, done + {id}, n) == {})
    {
      PendingDrops(g, done, id, n);
    }
  }

  lemma PendingDrops(g: Graph, done: set<NodeID>, id: NodeID, n: NodeID)
    requires id !in done
    ensures |Pending(g, done + {id}, n)| == |Pending(g, done, n)| - (if id in DepsOf(g, n) then 1 else 0)
  {
    assert Pending(g, done + {id}, n) == Pending(g, done, n) - {id};
  }

  /** The loop over the dependents of a finished node. */
  method CountDown(dependents: seq<NodeID>, inDegree0: map<NodeID, int>, next0: seq<NodeID>)
    returns (inDegree: map<NodeID, int>, next: seq<NodeID>)
    requires NoDup(dependents) && NoDup(next0)
    requires forall n :: n in dependents ==> n in inDegree0 && n !in next0
    ensures inDegree.Keys == inDegree0.Keys
    ensures forall n :: n in inDegree ==> inDegree[n] == inDegree0[n] - (if n in dependents then 1 else 0)
    ensures NoDup(next)
    ensures forall n :: n in next <==> n in next0 || (n in dependents && inDegree0[n] == 1)
  {
    inDegree, next := inDegree0, next0;
    for i := 0 to |dependents|
      invariant inDegree.Keys == inDegree0.Keys
      invariant forall n :: n in inDegree ==> inDegree[n] == inDegree0[n] - (if n in dependents[..i] then 1 else 0)
      invariant NoDup(next)
      invariant forall n :: n in next <==> n in next0 || (n in dependents[..i] && inDegree0[n] == 1)
    {
      var n := dependents[i];
      assert n in dependents && n !in dependents[..i];
      assert dependents[..i + 1] == dependents[..i] + [n];
      inDegree := inDegree[n := inDegree[n] - 1];
      if inDegree[n] == 0 {
        next := next + [n];
      }
    }
    assert dependents[..|dependents|] == dependents;
  }

  function Members(s: seq<NodeID>): set<NodeID> {
    set x | x in s
  }

  lemma MembersOneMore(s: seq<NodeID>, i: nat)
    requires i < |s| && NoDup(s)
    ensures Members(s[..i + 1]) == Members(s[..i]) + {s[i]}
    ensures s[i] in Members(s) && s[i] !in Members(s[..i])
  {
  }

  /** next are the nodes whose last pending dependency was finished since done. */
  ghost predicate Queued(g: Graph, done: set<NodeID>, now: set<NodeID>, next: seq<NodeID>) {
    NoDup(next) && forall n :: n in next <==> Pending(g, done, n) != {} && Pending(g, now, n) == {}
  }

  ghost predicate Inverse(g: Graph, reverse: map<NodeID, seq<NodeID>>) {
    && (forall d :: NoDup(Dependents(reverse, d)))
    && (forall d, n :: n in Dependents(reverse, d) <==> d in DepsOf(g, n))
  }

  /** All nodes of one layer are finished. */
  method FinishLayer(ghost g: Graph, ghost done: set<NodeID>, queue: seq<NodeID>, reverse: map<NodeID, seq<NodeID>>,
                     inDegree0: map<NodeID, int>)
    returns (inDegree: map<NodeID, int>, next: seq<NodeID>)
    requires Closed(g) && Counted(g, done, inDegree0) && NoDup(queue) && Members(queue) !! done
    requires Inverse(g, reverse)
    ensures Counted(g, done + Members(queue), inDegree)
    ensures Queued(g, done, done + Members(queue), next)
  {
    inDegree, next := inDegree0, [];
    ghost var now := done;
    for i := 0 to |queue|
      invariant now == done + Members(queue[..i])
      invariant Counted(g, now, inDegree) && Queued(g, done, now, next)
    {
      MembersOneMore(queue, i);
      inDegree, next := FinishNode(g, done, now, queue[i], Dependents(reverse, queue[i]), inDegree, next);
      now := now + {queue[i]};
    }
    assert queue[..|queue|] == queue;
  }

  method FinishNode(ghost g: Graph, ghost done: set<NodeID>, ghost now: set<NodeID>, id: NodeID,
                    dependents: seq<NodeID>, inDegree0: map<NodeID, int>, next0: seq<NodeID>)
    returns (inDegree: map<NodeID, int>, next: seq<NodeID>)
    requires Closed(g) && Counted(g, now, inDegree0) && Queued(g, done, now, next0) && done <= now && id !in now
    requires NoDup(dependents) && forall n :: n in dependents <==> id in DepsOf(g, n)
    ensures Counted(g, now + {id}, inDegree) && Queued(g, done, now + {id}, next)
  {
    inDegree, next := Release(g, now, id, dependents, inDegree0, next0);
    forall n ensures n in next <==> Pending(g, done, n) != {} && Pending(g, now + {id}, n) == {} {
      PendingShrinks(g, done, now, id, n);
    }
  }

  lemma PendingShrinks(g: Graph, done: set<NodeID>, now: set<NodeID>, id: NodeID, n: NodeID)
    requires id !in now && done <= now
    ensures id in DepsOf(g, n) ==> Pending(g, done, n) != {} && Pending(g, now, n) != {}
    ensures id !in DepsOf(g, n) ==> Pending(g, now + {id}, n) == Pending(g, now, n)
  {
    assert Pending(g, now + {id}, n) == Pending(g, now, n) - {id};
    if id in DepsOf(g, n) {
      assert id in Pending(g, done, n) && id in Pending(g, now, n);
    }
  }

  // ----- The invariant of the layer loop --------------------------------------------------------

  /** The queue holds the nodes that are ready and not done. */
  ghost predicate Ready(g: Graph, done: set<NodeID>, queue: seq<NodeID>) {
    && done <= g.nodes
    && NoDup(queue)
    && (forall n :: n in done ==> Pending(g, done, n) == {})
    && (forall n :: n in queue <==> n in g.nodes && n !in done && Pending(g, done, n) == {})
  }

  /** Levels so far: the done nodes' and, one above, the queue's. */
  ghost predicate LeveledSoFar(g: Graph, done: set<NodeID>, queue: seq<NodeID>, level: map<NodeID, nat>, top: nat) {
    && level.Keys == done + Members(queue)
    && (forall n :: n in done ==> level[n] < top)
    && (forall n :: n in queue ==> level[n] == top)
    && (forall n, d :: n in level && d in DepsOf(g, n) ==> d in done && level[d] < level[n])
    && (forall n {:trigger StepsDown(g, level, n)} :: n in level ==> StepsDown(g, level, n))
  }

  /** The layers so far hold the done nodes. */
  ghost predicate Filled(done: set<NodeID>, level: map<NodeID, nat>, layers: Layers)
    requires done <= level.Keys
  {
    && (forall n :: n in done ==> InLayer(layers, level[n], n))
    && (forall k, n :: InLayer(layers, k, n) ==> n in done && level[n] == k)
  }

  ghost predicate Ordered(layers: Layers) {
    forall k :: 0 <= k < |layers| ==> layers[k] != [] && NoDup(layers[k]) && SortedByKind(layers[k])
  }

  ghost function Promote(level: map<NodeID, nat>, next: seq<NodeID>, k: nat): map<NodeID, nat> {
    level + map n | n in Members(next) :: k
  }

  lemma ReadyOneMore(g: Graph, done: set<NodeID>, queue: seq<NodeID>, next: seq<NodeID>)
    requires Closed(g) && Ready(g, done, queue) && Queued(g, done, done + Members(queue), next)
    ensures Ready(g, done + Members(queue), next)
  {
  }

  lemma LeveledOneMore(g: Graph, done: set<NodeID>, queue: seq<NodeID>, level: map<NodeID, nat>, next: seq<NodeID>,
                       top: nat, done': set<NodeID>, level': map<NodeID, nat>)
    requires LeveledSoFar(g, done, queue, level, top) && Queued(g, done, done', next)
    requires done' == done + Members(queue) && Members(next) !! done' && level' == Promote(level, next, top + 1)
    ensures LeveledSoFar(g, done', next, level', top + 1)
  {
    assert level'.Keys == done' + Members(next);
    forall n, d | n in level' && d in DepsOf(g, n) ensures d in done' && level'[d] < level'[n] {
      if n in next {
        assert d !in Pending(g, done', n);
      }
    }
    forall n {:trigger StepsDown(g, level', n)} | n in level' ensures StepsDown(g, level', n) {
      if n in next {
        var d :| d in Pending(g, done, n);
        assert d !in Pending(g, done', n);
        assert d in queue && level'[d] == top;
      } else {
        assert StepsDown(g, level, n);
      }
    }
  }

  lemma FilledOneMore(done: set<NodeID>, queue: seq<NodeID>, level: map<NodeID, nat>, layers: Layers,
                      level': map<NodeID, nat>)
    requires done <= level.Keys && Filled(done, level, layers)
    requires done + Members(queue) <= level'.Keys && Members(queue) !! done
    requires forall n :: n in done ==> level'[n] == level[n]
    requires forall n :: n in queue ==> level'[n] == |layers|
    ensures Filled(done + Members(queue), level', layers + [Sort(queue)])
  {
    var layers' := layers + [Sort(queue)];
    forall n | n in done + Members(queue) ensures InLayer(layers', level'[n], n) {
      if n in done {
        assert InLayer(layers, level[n], n);
      }
    }
    forall k, n | InLayer(layers', k, n) ensures n in done + Members(queue) && level'[n] == k {
      if k < |layers| {
        assert InLayer(layers, k, n);
      }
    }
  }

  lemma OrderedOneMore(layers: Layers, queue: seq<NodeID>)
    requires Ordered(layers) && queue != [] && NoDup(queue)
    ensures Ordered(layers + [Sort(queue)])
  {
    SortSorts(queue);
    assert queue[0] in Sort(queue);
  }

  lemma AllPending(g: Graph, inDegree: map<NodeID, int>)
    requires inDegree.Keys == g.nodes && forall n :: n in g.nodes ==> inDegree[n] == |DepsOf(g, n)|
    ensures Counted(g, {}, inDegree)
  {
  }

  lemma FirstLayer(g: Graph, queue: seq<NodeID>, level: map<NodeID, nat>)
    requires Closed(g) && NoDup(queue) && forall n :: n in queue <==> n in g.nodes && DepsOf(g, n) == {}
    requires level == map n | n in Members(queue) :: 0
    ensures Ready(g, {}, queue) && LeveledSoFar(g, {}, queue, level, 0) && Filled({}, level, []) && Ordered([])
  {
  }

  lemma LayerDone(g: Graph, done: set<NodeID>, queue: seq<NodeID>, level: map<NodeID, nat>, layers: Layers,
                  next: seq<NodeID>)
    requires Closed(g) && Ready(g, done, queue) && LeveledSoFar(g, done, queue, level, |layers|)
    requires Filled(done, level, layers) && Ordered(layers) && queue != []
    requires Queued(g, done, done + Members(queue), next)
    ensures Ready(g, done + Members(queue), next)
    ensures LeveledSoFar(g, done + Members(queue), next, Promote(level, next, |layers| + 1), |layers| + 1)
    ensures Filled(done + Members(queue), Promote(level, next, |layers| + 1), layers + [Sort(queue)])
    ensures Ordered(layers + [Sort(queue)])
  {
    ReadyOneMore(g, done, queue, next);
    var level' := Promote(level, next, |layers| + 1);
    LeveledOneMore(g, done, queue, level, next, |layers|, done + Members(queue), level');
    assert forall n :: n in level ==> n !in next && level'[n] == level[n];
    FilledOneMore(done, queue, level, layers, level');
    OrderedOneMore(layers, queue);
  }

  lemma {:induction false} RankedIsDone(g: Graph, rank: map<NodeID, nat>, done: set<NodeID>, n: NodeID)
    requires Ranked(g, rank) && n in g.nodes
    requires forall m :: m in g.nodes && Pending(g, done, m) == {} ==> m in done
    ensures n in done
    decreases rank[n]
  {
    forall d | d in DepsOf(g, n) ensures d in done {
      RankedIsDone(g, rank, done, d);
    }
    assert Pending(g, done, n) == {};
  }

  /** With the queue empty every node of a ranked graph is placed. */
  lemma AllPlaced(g: Graph, rank: map<NodeID, nat>, done: set<NodeID>, level: map<NodeID, nat>, layers: Layers)
    requires Ranked(g, rank) && Ready(g, done, []) && LeveledSoFar(g, done, [], level, |layers|)
    requires Filled(done, level, layers) && Ordered(layers)
    ensures Layering(g, level, layers)
  {
    forall n | n in g.nodes ensures n in done {
      forall m | m in g.nodes && Pending(g, done, m) == {} ensures m in done {
        assert m !in [];
      }
      RankedIsDone(g, rank, done, n);
    }
    assert done == g.nodes && level.Keys == g.nodes;
  }
}
