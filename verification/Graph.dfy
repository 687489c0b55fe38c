/** Dependency graphs as values: chains, cycles and layerings, and what a layering determines. */
module Graph {
  import opened Resources

  /** deps may leave out nodes without dependencies. */
  datatype Graph = Graph(nodes: set<NodeID>, deps: map<NodeID, set<NodeID>>)

  function DepsOf(g: Graph, n: NodeID): set<NodeID> {
    if n in g.deps then g.deps[n] else {}
  }

  ghost predicate Closed(g: Graph) {
    g.deps.Keys <= g.nodes && forall n :: n in g.deps ==> g.deps[n] <= g.nodes
  }

  /** Every node of a chain depends on the next one. */
  ghost predicate Chain(g: Graph, p: seq<NodeID>) {
    && |p| >= 1
    && (forall i :: 0 <= i < |p| ==> p[i] in g.nodes)
    && (forall i :: 0 <= i < |p| - 1 ==> p[i + 1] in DepsOf(g, p[i]))
  }

  ghost predicate Cycle(g: Graph, p: seq<NodeID>) {
    |p| >= 2 && Chain(g, p) && p[0] == p[|p| - 1]
  }

  ghost predicate SimpleCycle(g: Graph, p: seq<NodeID>) {
    Cycle(g, p) && forall i, j :: 0 <= i < j < |p| - 1 ==> p[i] != p[j]
  }

  ghost predicate Acyclic(g: Graph) {
    forall p :: !Cycle(g, p)
  }

  /** A numbering that grows along dependencies, as the order in which a depth-first search finishes. */
  ghost predicate Ranked(g: Graph, rank: map<NodeID, nat>) {
    && g.nodes <= rank.Keys
    && forall n, d :: n in g.nodes && d in DepsOf(g, n) ==> d in g.nodes && rank[d] < rank[n]
  }

  lemma {:induction false} RankDescends(g: Graph, rank: map<NodeID, nat>, p: seq<NodeID>)
    requires Ranked(g, rank) && Chain(g, p) && |p| >= 2
    ensures rank[p[|p| - 1]] < rank[p[0]]
  {
    var q := p[..|p| - 1];
    if |q| >= 2 {
      RankDescends(g, rank, q);
    }
    assert p[|p| - 1] in DepsOf(g, q[|q| - 1]);
  }

  lemma RankedAcyclic(g: Graph, rank: map<NodeID, nat>)
    requires Ranked(g, rank)
    ensures Acyclic(g)
  {
    forall p ensures !Cycle(g, p) {
      if Cycle(g, p) {
        RankDescends(g, rank, p);
      }
    }
  }

  // ----- The order inside a layer ---------------------------------------------------------------

  function KindPriority(k: Kind): nat {
    match k
    case KindRuntime => 100
    case KindInstaller => 200
    case KindInstallerRepository => 250
    case KindTool => 300
    case _ => 1000
  }

  predicate StringLess(a: string, b: string) {
    b != "" && (a == "" || a[0] < b[0] || (a[0] == b[0] && StringLess(a[1..], b[1..])))
  }

  lemma {:induction false} StringLessOrder(a: string, b: string, c: string)
    ensures !(StringLess(a, b) && StringLess(b, a))
    ensures a == b || StringLess(a, b) || StringLess(b, a)
    ensures !StringLess(a, a)
    ensures StringLess(a, b) && StringLess(b, c) ==> StringLess(a, c)
  {
    if a != "" && b != "" && a[0] == b[0] {
      StringLessOrder(a[1..], b[1..], if c == "" then "" else c[1..]);
      assert a[1..] == b[1..] ==> a == [a[0]] + b[1..] == b;
    }
    if a != "" {
      StringLessOrder(a[1..], "", "");
    }
  }

  /** Sorts before, or is equal: by kind priority, then by name. Kinds of one priority are not separated. */
  predicate Before(a: NodeID, b: NodeID) {
    || KindPriority(a.kind) < KindPriority(b.kind)
    || (KindPriority(a.kind) == KindPriority(b.kind) && !StringLess(b.name, a.name))
  }

  ghost predicate SortedByKind(s: seq<NodeID>) {
    forall i, j :: 0 <= i < j < |s| ==> Before(s[i], s[j])
  }

  ghost predicate NoDup(s: seq<NodeID>) {
    forall i, j :: 0 <= i < j < |s| ==> s[i] != s[j]
  }

  // ----- Layers -----------------------------------------------------------------------------------

  type Layers = seq<seq<NodeID>>

  /** Unless n is at level zero, some dependency is just one level below. */
  ghost predicate StepsDown(g: Graph, level: map<NodeID, nat>, n: NodeID)
    requires n in level
  {
    level[n] > 0 ==> exists d :: d in DepsOf(g, n) && d in level && level[d] == level[n] - 1
  }

  /** One level above the highest dependency, zero without dependencies. */
  ghost predicate Leveled(g: Graph, level: map<NodeID, nat>) {
    && level.Keys == g.nodes
    && (forall n, d :: n in g.nodes && d in DepsOf(g, n) ==> d in g.nodes && level[d] < level[n])
    && (forall n {:trigger StepsDown(g, level, n)} :: n in g.nodes ==> StepsDown(g, level, n))
  }

  predicate InLayer(layers: Layers, k: int, n: NodeID) {
    0 <= k < |layers| && n in layers[k]
  }

  /** Each layer holds exactly the nodes of its level, and no layer is empty. */
  ghost predicate Placed(g: Graph, level: map<NodeID, nat>, layers: Layers) {
    && Leveled(g, level)
    && (forall n :: n in g.nodes ==> InLayer(layers, level[n], n))
    && (forall k, n :: InLayer(layers, k, n) ==> n in g.nodes && level[n] == k)
    && (forall k :: 0 <= k < |layers| ==> layers[k] != [])
  }

  /** ... once, and in order. */
  ghost predicate Layering(g: Graph, level: map<NodeID, nat>, layers: Layers) {
    && Placed(g, level, layers)
    && (forall k :: 0 <= k < |layers| ==> NoDup(layers[k]) && SortedByKind(layers[k]))
  }

  ghost predicate ChainFrom(g: Graph, n: NodeID, p: seq<NodeID>) {
    Chain(g, p) && p[0] == n
  }

  lemma {:induction false} ChainsAreShort(g: Graph, level: map<NodeID, nat>, p: seq<NodeID>)
    requires Leveled(g, level) && Chain(g, p)
    ensures |p| - 1 + level[p[|p| - 1]] <= level[p[0]]
  {
    if |p| > 1 {
      assert p[1] in DepsOf(g, p[0]);
      assert forall i :: 0 <= i < |p[1..]| ==> p[1..][i] == p[i + 1];
      ChainsAreShort(g, level, p[1..]);
    }
  }

  lemma {:induction false} LongChainExists(g: Graph, level: map<NodeID, nat>, n: NodeID) returns (p: seq<NodeID>)
    requires Leveled(g, level) && n in g.nodes
    ensures ChainFrom(g, n, p) && |p| == level[n] + 1
    decreases level[n]
  {
    p := [n];
    if level[n] > 0 {
      assert StepsDown(g, level, n);
      var d :| d in DepsOf(g, n) && d in level && level[d] == level[n] - 1;
      var q := LongChainExists(g, level, d);
      p := [n] + q;
      assert forall i :: 1 <= i < |p| ==> p[i] == q[i - 1];
    }
  }

  /** The level of a node is the length of its longest dependency chain. */
  lemma LevelIsLongestChain(g: Graph, level: map<NodeID, nat>, n: NodeID)
    requires Leveled(g, level) && n in g.nodes
    ensures exists p :: ChainFrom(g, n, p) && |p| == level[n] + 1
    ensures forall p :: ChainFrom(g, n, p) ==> |p| <= level[n] + 1
  {
    var p := LongChainExists(g, level, n);
    forall p | ChainFrom(g, n, p) ensures |p| <= level[n] + 1 {
      ChainsAreShort(g, level, p);
    }
  }

  /** Whatever n transitively depends on lies at a strictly lower level. */
  lemma DependenciesBelow(g: Graph, level: map<NodeID, nat>, p: seq<NodeID>)
    requires Leveled(g, level) && Chain(g, p) && |p| >= 2
    ensures level[p[|p| - 1]] < level[p[0]]
  {
    ChainsAreShort(g, level, p);
  }

  /** Two nodes that sort alike: the same name, and two kinds outside the four the order distinguishes. */
  predicate Tied(a: NodeID, b: NodeID) {
    a != b && a.name == b.name && KindPriority(a.kind) == KindPriority(b.kind)
  }

  ghost predicate NoTies(s: seq<NodeID>) {
    forall x, y :: x in s && y in s ==> !Tied(x, y)
  }

  lemma LevelsUnique(g: Graph, level1: map<NodeID, nat>, level2: map<NodeID, nat>)
    requires Leveled(g, level1) && Leveled(g, level2)
    ensures level1 == level2
  {
    forall n | n in g.nodes ensures level1[n] == level2[n] {
      var p := LongChainExists(g, level1, n);
      ChainsAreShort(g, level2, p);
      var q := LongChainExists(g, level2, n);
      ChainsAreShort(g, level1, q);
    }
  }

  lemma NotMoreLayers(g: Graph, level: map<NodeID, nat>, a: Layers, b: Layers)
    requires Placed(g, level, a) && Placed(g, level, b)
    ensures |a| <= |b|
  {
    if |a| > 0 {
      var k := |a| - 1;
      assert InLayer(a, k, a[k][0]);
    }
  }

  /** The layers are a function of the graph: two layerings have the same levels and the same nodes in every
      layer... */
  lemma LayersDetermined(g: Graph, level1: map<NodeID, nat>, a: Layers, level2: map<NodeID, nat>, b: Layers)
    requires Placed(g, level1, a) && Placed(g, level2, b)
    ensures level1 == level2 && |a| == |b|
    ensures forall k, n :: InLayer(a, k, n) <==> InLayer(b, k, n)
  {
    LevelsUnique(g, level1, level2);
    NotMoreLayers(g, level1, a, b);
    NotMoreLayers(g, level1, b, a);
  }

  /** ... and the same sequence in every layer without a tie. */
  lemma SequencesDetermined(g: Graph, level1: map<NodeID, nat>, a: Layers, level2: map<NodeID, nat>, b: Layers, k: nat)
    requires Layering(g, level1, a) && Layering(g, level2, b) && k < |a| && NoTies(a[k])
    ensures k < |b| && a[k] == b[k]
  {
    LevelsUnique(g, level1, level2);
    NotMoreLayers(g, level1, a, b);
    SameLayer(g, level1, a, b, k);
  }

  lemma SameLayer(g: Graph, level: map<NodeID, nat>, a: Layers, b: Layers, k: nat)
    requires Layering(g, level, a) && Layering(g, level, b) && k < |a| && k < |b|
    requires NoTies(a[k])
    ensures a[k] == b[k]
  {
    forall n ensures n in a[k] <==> n in b[k] {
      assert InLayer(a, k, n) <==> InLayer(b, k, n);
    }
    SortedUnique(a[k], b[k]);
  }

  lemma SameEmptiness(a: seq<NodeID>, b: seq<NodeID>)
    requires forall n :: n in a <==> n in b
    ensures a == [] <==> b == []
  {
    if a != [] { assert a[0] in b; }
    if b != [] { assert b[0] in a; }
  }

  lemma {:induction false} SortedUnique(a: seq<NodeID>, b: seq<NodeID>)
    requires SortedByKind(a) && SortedByKind(b) && NoDup(a) && NoDup(b)
    requires forall n :: n in a <==> n in b
    requires NoTies(a)
    ensures a == b
  {
    SameEmptiness(a, b);
    if a != [] {
      FirstAgrees(a, b);
      var a', b' := a[1..], b[1..];
      forall n ensures n in a' <==> n in b' {
        assert n in a' <==> n in a && n != a[0] by { assert a == [a[0]] + a'; }
        assert n in b' <==> n in b && n != b[0] by { assert b == [b[0]] + b'; }
      }
      SortedUnique(a', b');
      assert a == [a[0]] + a' && b == [b[0]] + b';
    }
  }

  lemma FirstAgrees(a: seq<NodeID>, b: seq<NodeID>)
    requires a != [] && b != [] && SortedByKind(a) && SortedByKind(b)
    requires forall n :: n in a <==> n in b
    requires NoTies(a)
    ensures a[0] == b[0]
  {
    assert a[0] in b && b[0] in a;
    var i :| 0 <= i < |b| && b[i] == a[0];
    var j :| 0 <= j < |a| && a[j] == b[0];
    if i > 0 && j > 0 {
      assert Before(b[0], b[i]) && Before(a[0], a[j]);
      StringLessOrder(a[0].name, b[0].name, "");
      assert !Tied(a[0], b[0]);
      assert a[0].name == b[0].name ==> KindPriority(a[0].kind) == KindPriority(b[0].kind);
      KindsWithPriority(a[0], b[0]);
    }
  }

  lemma KindsWithPriority(a: NodeID, b: NodeID)
    requires Before(a, b) && Before(b, a) && !Tied(a, b)
    ensures a == b
  {
    StringLessOrder(a.name, b.name, "");
  }

  function Swapped(s: seq<NodeID>, i: nat, j: nat): seq<NodeID>
    requires i < |s| && j < |s|
  {
    s[i := s[j]][j := s[i]]
  }

  lemma SwappedKeeps(s: seq<NodeID>, i: nat, j: nat)
    requires i < |s| && j < |s| && Tied(s[i], s[j]) && SortedByKind(s) && NoDup(s)
    ensures SortedByKind(Swapped(s, i, j)) && NoDup(Swapped(s, i, j)) && Swapped(s, i, j) != s
    ensures forall n :: n in Swapped(s, i, j) <==> n in s
  {
    var t := Swapped(s, i, j);
    assert t[i] == s[j] && t[j] == s[i];
    forall p, q | 0 <= p < q < |t| ensures Before(t[p], t[q]) {
      StringLessOrder(s[i].name, s[i].name, "");
      assert Before(s[p], s[q]);
    }
    forall n | n in s ensures n in t {
      var p :| 0 <= p < |s| && s[p] == n;
      assert t[if p == i then j else if p == j then i else p] == n;
    }
    assert forall p :: 0 <= p < |t| ==> t[p] in s;
  }

  /** With a tie the order inside a layer is not determined: swapping two tied nodes gives another layering of the
      same graph. */
  lemma TiesAreOpen(g: Graph, level: map<NodeID, nat>, a: Layers, k: nat, i: nat, j: nat)
    requires Layering(g, level, a) && k < |a| && i < |a[k]| && j < |a[k]| && Tied(a[k][i], a[k][j])
    ensures var b := a[k := Swapped(a[k], i, j)]; Layering(g, level, b) && b[k] != a[k]
  {
    hide Leveled, Tied, SortedByKind, NoDup;
    SwappedKeeps(a[k], i, j);
    var b := a[k := Swapped(a[k], i, j)];
    forall l, n ensures InLayer(b, l, n) <==> InLayer(a, l, n) {
    }
  }

  /** So a layer's sequence is determined by the graph exactly if the layer has no tie. */
  lemma DeterminedExactly(g: Graph, level: map<NodeID, nat>, a: Layers, k: nat)
    requires Layering(g, level, a) && k < |a|
    ensures (forall other, b :: Layering(g, other, b) ==> k < |b| && b[k] == a[k]) <==> NoTies(a[k])
  {
    hide Layering, Tied;
    if NoTies(a[k]) {
      forall other, b | Layering(g, other, b) ensures k < |b| && b[k] == a[k] {
        SequencesDetermined(g, level, a, other, b, k);
      }
    } else {
      var x, y :| x in a[k] && y in a[k] && Tied(x, y);
      var i :| 0 <= i < |a[k]| && a[k][i] == x;
      var j :| 0 <= j < |a[k]| && a[k][j] == y;
      TiesAreOpen(g, level, a, k, i, j);
    }
  }

  lemma OneBelow(g: Graph, level: map<NodeID, nat>, n: NodeID, d: NodeID)
    requires Leveled(g, level) && n in g.nodes && d in DepsOf(g, n)
    ensures d in level && 0 <= level[d] < level[n]
  {
  }

  /** A node at level zero has no dependencies. */
  lemma BottomLayer(g: Graph, level: map<NodeID, nat>, n: NodeID)
    requires Leveled(g, level) && n in g.nodes && level[n] == 0
    ensures DepsOf(g, n) == {}
  {
    if d :| d in DepsOf(g, n) {
      OneBelow(g, level, n, d);
    }
  }

  // ----- Sorting ------------------------------------------------------------------------------------

  lemma BeforeOrder(a: NodeID, b: NodeID, c: NodeID)
    ensures Before(a, b) || Before(b, a)
    ensures Before(a, b) && Before(b, c) ==> Before(a, c)
  {
    StringLessOrder(a.name, b.name, c.name);
    StringLessOrder(c.name, a.name, b.name);
    StringLessOrder(b.name, c.name, a.name);
  }

  function Insert(x: NodeID, s: seq<NodeID>): (r: seq<NodeID>)
    ensures forall y :: y in r <==> y == x || y in s
  {
    if s == [] || Before(x, s[0]) then [x] + s
    else [s[0]] + Insert(x, s[1..])
  }

  /** The library sort, as an insertion sort. */
  function Sort(s: seq<NodeID>): (r: seq<NodeID>)
    ensures forall y :: y in r <==> y in s
  {
    if s == [] then [] else Insert(s[0], Sort(s[1..]))
  }

  lemma {:induction false} InsertSorts(x: NodeID, s: seq<NodeID>)
    requires SortedByKind(s)
    ensures SortedByKind(Insert(x, s)) && (NoDup(s) && x !in s ==> NoDup(Insert(x, s)))
  {
    if s == [] || Before(x, s[0]) {
      forall i | 0 <= i < |s| ensures Before(x, s[i]) {
        BeforeOrder(x, s[0], s[i]);
      }
    } else {
      InsertSorts(x, s[1..]);
      var rest := Insert(x, s[1..]);
      assert s == [s[0]] + s[1..];
      forall i | 0 <= i < |rest| ensures Before(s[0], rest[i]) && (NoDup(s) && x !in s ==> rest[i] != s[0]) {
        BeforeOrder(s[0], x, x);
        assert rest[i] in rest;
      }
    }
  }

  lemma {:induction false} SortSorts(s: seq<NodeID>)
    ensures SortedByKind(Sort(s)) && (NoDup(s) ==> NoDup(Sort(s)))
  {
    if s != [] {
      SortSorts(s[1..]);
      InsertSorts(s[0], Sort(s[1..]));
    }
  }

  /** The sort itself leaves tied nodes in the order in which the maps gave them. */
  lemma SortKeepsTies(x: NodeID, y: NodeID)
    requires Tied(x, y)
    ensures Sort([x, y]) == [x, y] && Sort([y, x]) == [y, x]
  {
    StringLessOrder(x.name, x.name, "");
    assert [x, y][1..] == [y] && [y, x][1..] == [x] && [x][1..] == [] && [y][1..] == [];
    assert Sort([]) == [];
    assert Sort([x]) == [x] && Sort([y]) == [y];
    assert Insert(x, [y]) == [x] + [y] && Insert(y, [x]) == [y] + [x];
  }

  /** The order of a layer: runtimes, installers, repositories, tools, anything else; inside each of them by name. */
  lemma SortedMeans(s: seq<NodeID>, i: nat, j: nat)
    requires SortedByKind(s) && i < j < |s|
    ensures s[i].kind == KindRuntime || s[j].kind != KindRuntime
    ensures s[j].kind == KindInstaller ==> s[i].kind in {KindRuntime, KindInstaller}
    ensures s[j].kind == KindInstallerRepository ==>
              s[i].kind in {KindRuntime, KindInstaller, KindInstallerRepository}
    ensures s[j].kind == KindTool ==>
              s[i].kind in {KindRuntime, KindInstaller, KindInstallerRepository, KindTool}
    ensures s[i].kind == s[j].kind ==> !StringLess(s[j].name, s[i].name)
    ensures !(s[i].kind in {KindRuntime, KindInstaller, KindInstallerRepository, KindTool}) ==>
              !(s[j].kind in {KindRuntime, KindInstaller, KindInstallerRepository, KindTool}) &&
              !StringLess(s[j].name, s[i].name)
  {
    assert Before(s[i], s[j]);
  }

  /** The texts differ first at some position, where a's character is smaller or a ends. */
  lemma {:induction false} StringLessMeans(a: string, b: string)
    ensures StringLess(a, b) <==>
            exists k :: 0 <= k <= |a| && k < |b| && a[..k] == b[..k] && (k == |a| || a[k] < b[k])
  {
    if a != "" && b != "" && a[0] == b[0] {
      StringLessMeans(a[1..], b[1..]);
      var x, y := a[1..], b[1..];
      if k :| 0 <= k <= |x| && k < |y| && x[..k] == y[..k] && (k == |x| || x[k] < y[k]) {
        assert a[..k + 1] == [a[0]] + x[..k] && b[..k + 1] == [b[0]] + y[..k];
      }
      if k :| 0 <= k <= |a| && k < |b| && a[..k] == b[..k] && (k == |a| || a[k] < b[k]) {
        assert k > 0 && x[..k - 1] == a[..k][1..] && y[..k - 1] == b[..k][1..];
      }
    } else if b != "" {
      assert a[..0] == b[..0];
    }
  }
}
