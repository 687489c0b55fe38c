/** Printing a dependency graph as a tree: below a node come the nodes that depend on it. */
module Tree {
  import opened Resources
  import opened Graph
  import opened Kahn

  // ----- The order of siblings ------------------------------------------------------------------

  function KindText(k: Kind): string {
    match k
    case KindSystemInstaller => "SystemInstaller"
    case KindSystemPackageRepository => "SystemPackageRepository"
    case KindSystemPackageSet => "SystemPackageSet"
    case KindInstaller => "Installer"
    case KindInstallerRepository => "InstallerRepository"
    case KindRuntime => "Runtime"
    case KindTool => "Tool"
    case KindToolSet => "ToolSet"
  }

  function Text(id: NodeID): string {
    KindText(id.kind) + "/" + id.name
  }

  predicate TextLess(a: NodeID, b: NodeID) {
    StringLess(Text(a), Text(b))
  }

  /** A resource shows as its type and its name. */
  lemma TextMeans(res: Resource)
    ensures var name := res.name;
            Text(res.Id()) == match res
                              case ToolRes(_, _) => "Tool/" + name
                              case ToolSetRes(_, _) => "ToolSet/" + name
                              case RuntimeRes(_, _) => "Runtime/" + name
                              case RepoRes(_, _) => "InstallerRepository/" + name
                              case InstallerRes(_, _) => "Installer/" + name
                              case SystemRes(_, SystemInstaller, _) => "SystemInstaller/" + name
                              case SystemRes(_, SystemPackageRepository, _) => "SystemPackageRepository/" + name
                              case SystemRes(_, SystemPackageSet, _) => "SystemPackageSet/" + name
  {
  }

  lemma {:induction false} SlashSplits(a: string, b: string, m: string, n: string)
    requires '/' !in a && '/' !in b && a + "/" + m == b + "/" + n
    ensures a == b && m == n
  {
    var s := a + "/" + m;
    assert s[|a|] == '/' && s[|b|] == '/';
    assert forall i :: 0 <= i < |a| ==> s[i] == a[i] != '/';
    assert forall i :: 0 <= i < |b| ==> s[i] == b[i] != '/';
    assert |a| == |b|;
    assert a == s[..|a|] && b == s[..|b|];
    assert m == s[|a| + 1..] && n == s[|b| + 1..];
  }

  /** Identities and their texts correspond, so the order has no ties. */
  lemma TextsDiffer(a: NodeID, b: NodeID)
    ensures Text(a) == Text(b) ==> a == b
    ensures a != b ==> TextLess(a, b) || TextLess(b, a)
  {
    if Text(a) == Text(b) {
      SlashSplits(KindText(a.kind), KindText(b.kind), a.name, b.name);
    }
    StringLessOrder(Text(a), Text(b), "");
  }

  ghost predicate Sorted(s: seq<NodeID>) {
    forall i, j :: 0 <= i < j < |s| ==> TextLess(s[i], s[j])
  }

  function InsertByText(x: NodeID, s: seq<NodeID>): (r: seq<NodeID>)
    ensures forall y :: y in r <==> y == x || y in s
  {
    if s == [] || TextLess(x, s[0]) then [x] + s else [s[0]] + InsertByText(x, s[1..])
  }

  /** The library sort. */
  function SortByText(s: seq<NodeID>): (r: seq<NodeID>)
    ensures forall y :: y in r <==> y in s
  {
    if s == [] then [] else InsertByText(s[0], SortByText(s[1..]))
  }

  lemma {:induction false} InsertKeepsSorted(x: NodeID, s: seq<NodeID>)
    requires Sorted(s) && x !in s
    ensures Sorted(InsertByText(x, s))
  {
    hide TextLess;
    if s == [] || TextLess(x, s[0]) {
      forall j | 0 <= j < |s| ensures TextLess(x, s[j]) {
        TextLessTransitive(x, s[0], s[j]);
      }
    } else {
      assert s == [s[0]] + s[1..];
      InsertKeepsSorted(x, s[1..]);
      TextsDiffer(x, s[0]);
      var rest := InsertByText(x, s[1..]);
      forall j | 0 <= j < |rest| ensures TextLess(s[0], rest[j]) {
        assert rest[j] in rest;
      }
    }
  }

  lemma TextLessTransitive(a: NodeID, b: NodeID, c: NodeID)
    ensures TextLess(a, b) && (b == c || TextLess(b, c)) ==> TextLess(a, c)
  {
    StringLessOrder(Text(a), Text(b), Text(c));
  }

  lemma {:induction false} SortByTextSorts(s: seq<NodeID>)
    requires NoDup(s)
    ensures Sorted(SortByText(s))
  {
    if s != [] {
      SortByTextSorts(s[1..]);
      assert s[0] !in s[1..];
      InsertKeepsSorted(s[0], SortByText(s[1..]));
    }
  }

  // ----- What a tree shows --------------------------------------------------------------------------

  /** A way down the tree: every node depends on the one before it. */
  ghost predicate Descends(g: Graph, q: seq<NodeID>) {
    && q != []
    && (forall i :: 0 <= i < |q| ==> q[i] in g.nodes)
    && (forall i :: 0 <= i < |q| - 1 ==> q[i] in DepsOf(g, q[i + 1]))
  }

  ghost predicate FromRoot(g: Graph, q: seq<NodeID>) {
    Descends(g, q) && DepsOf(g, q[0]) == {}
  }

  /** Depth first: a way comes before its continuations, and siblings go by their text. */
  predicate PathLess(p: seq<NodeID>, q: seq<NodeID>) {
    q != [] && (p == [] || TextLess(p[0], q[0]) || (p[0] == q[0] && PathLess(p[1..], q[1..])))
  }

  ghost predicate Ascending(paths: seq<seq<NodeID>>) {
    forall i, j :: 0 <= i < j < |paths| ==> PathLess(paths[i], paths[j])
  }

  lemma {:induction false} PrefixLess(p: seq<NodeID>, q: seq<NodeID>)
    requires p <= q && p != q
    ensures PathLess(p, q)
  {
    if p != [] {
      PrefixLess(p[1..], q[1..]);
    }
  }

  lemma {:induction false} SiblingsLess(p: seq<NodeID>, a: NodeID, b: NodeID, q: seq<NodeID>, r: seq<NodeID>)
    requires TextLess(a, b) && p + [a] <= q && p + [b] <= r
    ensures PathLess(q, r)
  {
    if p == [] {
      assert q[0] == a && r[0] == b;
    } else {
      assert q[0] == p[0] == r[0];
      assert (p + [a])[1..] == p[1..] + [a] && (p + [b])[1..] == p[1..] + [b];
      SiblingsLess(p[1..], a, b, q[1..], r[1..]);
    }
  }

  lemma {:induction false} PathOrder(p: seq<NodeID>, q: seq<NodeID>)
    ensures !(PathLess(p, q) && PathLess(q, p))
  {
    if p != [] && q != [] {
      StringLessOrder(Text(p[0]), Text(q[0]), "");
      PathOrder(p[1..], q[1..]);
    }
  }

  /** The same ways in ascending order are the same sequence: the order of printing is determined. */
  lemma {:induction false} AscendingUnique(a: seq<seq<NodeID>>, b: seq<seq<NodeID>>)
    requires Ascending(a) && Ascending(b) && forall q :: q in a <==> q in b
    ensures a == b
  {
    hide PathLess;
    BothOrNone(a, b);
    if a != [] {
      FirstWay(a, b);
      var c, d := a[1..], b[1..];
      forall q ensures q in c <==> q in d {
        RestWays(a, q);
        RestWays(b, q);
      }
      AscendingUnique(c, d);
      assert a == [a[0]] + c && b == [b[0]] + d;
    }
  }

  lemma BothOrNone(a: seq<seq<NodeID>>, b: seq<seq<NodeID>>)
    requires forall q :: q in a <==> q in b
    ensures a == [] <==> b == []
  {
    if a != [] { assert a[0] in b; }
    if b != [] { assert b[0] in a; }
  }

  lemma FirstWay(a: seq<seq<NodeID>>, b: seq<seq<NodeID>>)
    requires Ascending(a) && Ascending(b) && a != [] && forall q :: q in a <==> q in b
    ensures b != [] && a[0] == b[0]
  {
    hide PathLess;
    BothOrNone(a, b);
    assert a[0] in b;
    var i :| 0 <= i < |b| && b[i] == a[0];
    assert b[0] in a;
    var j :| 0 <= j < |a| && a[j] == b[0];
    PathOrder(a[0], b[0]);
  }

  lemma RestWays(a: seq<seq<NodeID>>, q: seq<NodeID>)
    requires Ascending(a) && a != []
    ensures q in a[1..] <==> q in a && q != a[0]
  {
    hide PathLess;
    PathOrder(q, q);
    assert a == [a[0]] + a[1..];
  }

  // ----- Printing -----------------------------------------------------------------------------------

  datatype Line = Line(prefix: string, connector: string, id: NodeID)

  /** Lines and the ways they stand for: indented by four columns a generation, from the second on. */
  ghost predicate Shows(lines: seq<Line>, paths: seq<seq<NodeID>>) {
    && |lines| == |paths|
    && forall i :: 0 <= i < |lines| ==>
         && paths[i] != [] && lines[i].id == paths[i][|paths[i]| - 1]
         && |lines[i].prefix| == Indent(|paths[i]|)
         && (lines[i].connector == "" <==> |paths[i]| == 1)
  }

  function Indent(generation: nat): nat {
    if generation <= 2 then 0 else 4 * (generation - 2)
  }

  ghost predicate Children(g: Graph, children: map<NodeID, seq<NodeID>>) {
    && (forall d :: NoDup(Dependents(children, d)))
    && (forall d, n :: n in Dependents(children, d) <==> d in DepsOf(g, n))
  }

  ghost predicate Bounded(g: Graph, level: map<NodeID, nat>, height: nat) {
    Leveled(g, level) && forall n :: n in g.nodes ==> level[n] <= height
  }

  /** The ways that go through one of some children of the last node of a way. */
  ghost predicate Through(g: Graph, path: seq<NodeID>, kids: seq<NodeID>, q: seq<NodeID>) {
    Descends(g, q) && path < q && q[|path|] in kids
  }

  lemma DescendsOn(g: Graph, path: seq<NodeID>, kid: NodeID)
    requires Descends(g, path) && kid in g.nodes && path[|path| - 1] in DepsOf(g, kid)
    ensures Descends(g, path + [kid])
  {
  }

  /** What is below the last kid joins what is below the earlier ones. */
  lemma OneMoreKid(g: Graph, path: seq<NodeID>, kids: seq<NodeID>, i: nat, paths: seq<seq<NodeID>>,
                   more: seq<seq<NodeID>>)
    requires Sorted(kids) && i < |kids| && Ascending(paths) && Ascending(more)
    requires forall q :: q in paths <==> (q == path && Descends(g, q)) || Through(g, path, kids[..i], q)
    requires forall q :: q in more <==> Descends(g, q) && path + [kids[i]] <= q
    ensures Ascending(paths + more)
    ensures forall q :: q in paths + more <==> (q == path && Descends(g, q)) || Through(g, path, kids[..i + 1], q)
  {
    hide PathLess, TextLess, Descends;
    forall a, b | 0 <= a < |paths| && 0 <= b < |more| ensures PathLess(paths[a], more[b]) {
      assert paths[a] in paths && more[b] in more;
      var q, r := paths[a], more[b];
      if q == path {
        PrefixLess(q, r);
      } else {
        var k :| 0 <= k < i && kids[..i][k] == q[|path|];
        assert path + [kids[k]] <= q;
        SiblingsLess(path, kids[k], kids[i], q, r);
      }
    }
    forall q ensures q in paths + more <==> (q == path && Descends(g, q)) || Through(g, path, kids[..i + 1], q) {
      assert kids[..i + 1] == kids[..i] + [kids[i]];
      assert path + [kids[i]] <= q <==> path < q && q[|path|] == kids[i];
    }
  }

  lemma ShowsTogether(l1: seq<Line>, p1: seq<seq<NodeID>>, l2: seq<Line>, p2: seq<seq<NodeID>>)
    requires Shows(l1, p1) && Shows(l2, p2)
    ensures Shows(l1 + l2, p1 + p2)
  {
  }

  /** Every kid lies in a strictly later layer, so the recursion ends. */
  lemma KidsAbove(g: Graph, level: map<NodeID, nat>, height: nat, id: NodeID, kid: NodeID)
    requires Bounded(g, level, height) && kid in g.nodes && id in DepsOf(g, kid)
    ensures id in g.nodes && id in level && kid in level && level[id] < level[kid] <= height
  {
  }

  /** The node and everything below it; path: the way to it. */
  method PrintNode(id: NodeID, prefix: string, isLast: bool, children: map<NodeID, seq<NodeID>>, isRoot: bool,
                   ghost g: Graph, ghost level: map<NodeID, nat>, ghost height: nat, ghost path: seq<NodeID>)
    returns (lines: seq<Line>, ghost paths: seq<seq<NodeID>>)
    requires Children(g, children) && Bounded(g, level, height) && Closed(g)
    requires Descends(g, path) && path[|path| - 1] == id && |prefix| == Indent(|path|) && (isRoot <==> |path| == 1)
    ensures Shows(lines, paths) && Ascending(paths)
    ensures forall q :: q in paths <==> Descends(g, q) && path <= q
    decreases height - (if id in level then level[id] else 0)
  {
    hide Descends, PathLess, TextLess, Bounded, Ascending, Sorted, Through;
    LastInGraph(g, level, height, path);
    var connector := if isRoot then "" else if isLast then "+-- " else "|-- ";
    lines, paths := [Line(prefix, connector, id)], [path];
    var kids := SortByText(Dependents(children, id));
    SortByTextSorts(Dependents(children, id));
    var below := if isRoot then "" else if isLast then prefix + "    " else prefix + "|   ";
    OnlyItself(g, path, kids);
    for i := 0 to |kids|
      invariant Shows(lines, paths) && Ascending(paths)
      invariant forall q :: q in paths <==> (q == path && Descends(g, q)) || Through(g, path, kids[..i], q)
    {
      var kid := kids[i];
      assert kid in kids && kid in g.nodes by { KidInGraph(g, children, id, kid); }
      KidsAbove(g, level, height, id, kid);
      DescendsOn(g, path, kid);
      var more, morePaths := PrintNode(kid, below, i == |kids| - 1, children, false, g, level, height, path + [kid]);
      OneMoreKid(g, path, kids, i, paths, morePaths);
      ShowsTogether(lines, paths, more, morePaths);
      lines, paths := lines + more, paths + morePaths;
    }
    assert kids[..|kids|] == kids;
    AllBelowShown(g, children, path, kids, paths);
  }

  lemma LastInGraph(g: Graph, level: map<NodeID, nat>, height: nat, path: seq<NodeID>)
    requires Descends(g, path) && Bounded(g, level, height)
    ensures path != [] && path[|path| - 1] in g.nodes && path[|path| - 1] in level && level[path[|path| - 1]] <= height
  {
  }

  lemma OnlyItself(g: Graph, path: seq<NodeID>, kids: seq<NodeID>)
    requires Descends(g, path)
    ensures Ascending([path])
    ensures forall q :: q in [path] <==> (q == path && Descends(g, q)) || Through(g, path, kids[..0], q)
  {
  }

  lemma KidInGraph(g: Graph, children: map<NodeID, seq<NodeID>>, id: NodeID, kid: NodeID)
    requires Children(g, children) && Closed(g) && kid in Dependents(children, id)
    ensures kid in g.nodes && id in DepsOf(g, kid)
  {
  }

  lemma AllBelowShown(g: Graph, children: map<NodeID, seq<NodeID>>, path: seq<NodeID>, kids: seq<NodeID>,
                      paths: seq<seq<NodeID>>)
    requires Children(g, children) && path != []
    requires forall k :: k in kids <==> k in Dependents(children, path[|path| - 1])
    requires forall q :: q in paths <==> (q == path && Descends(g, q)) || Through(g, path, kids, q)
    ensures forall q :: q in paths <==> Descends(g, q) && path <= q
  {
  }

  // ----- The whole forest ---------------------------------------------------------------------------

  /** Nodes without dependencies are the roots. */
  method Roots(nodes: set<NodeID>, edges: map<NodeID, set<NodeID>>) returns (roots: seq<NodeID>)
    requires Closed(Graph(nodes, edges))
    ensures Sorted(roots)
    ensures forall n :: n in roots <==> n in nodes && DepsOf(Graph(nodes, edges), n) == {}
  {
    var found: seq<NodeID> := [];
    var todo := nodes;
    while todo != {}
      invariant todo <= nodes && NoDup(found)
      invariant forall n :: n in found <==> n in nodes - todo && DepsOf(Graph(nodes, edges), n) == {}
    {
      var n :| n in todo;
      todo := todo - {n};
      assert n !in found;
      if n !in edges || edges[n] == {} {
        found := found + [n];
      }
    }
    roots := SortByText(found);
    SortByTextSorts(found);
  }

  /** The ways from the roots, those from the first i of them. */
  ghost predicate FromFirst(g: Graph, roots: seq<NodeID>, q: seq<NodeID>) {
    Descends(g, q) && q[0] in roots
  }

  lemma OneMoreRoot(g: Graph, roots: seq<NodeID>, i: nat, paths: seq<seq<NodeID>>, more: seq<seq<NodeID>>)
    requires Sorted(roots) && i < |roots| && Ascending(paths) && Ascending(more)
    requires forall q :: q in paths <==> FromFirst(g, roots[..i], q)
    requires forall q :: q in more <==> Descends(g, q) && [roots[i]] <= q
    ensures Ascending(paths + more)
    ensures forall q :: q in paths + more <==> FromFirst(g, roots[..i + 1], q)
  {
    hide TextLess;
    assert roots[..i + 1] == roots[..i] + [roots[i]];
    forall a, b | 0 <= a < |paths| && 0 <= b < |more| ensures PathLess(paths[a], more[b]) {
      assert paths[a] in paths && more[b] in more;
      var k :| 0 <= k < i && roots[..i][k] == paths[a][0];
      assert TextLess(paths[a][0], more[b][0]);
    }
    forall q ensures q in paths + more <==> FromFirst(g, roots[..i + 1], q) {
      assert q != [] ==> ([roots[i]] <= q <==> q[0] == roots[i]);
    }
  }

  /** The lines stand for exactly the ways from a root, each shown once, depth first with siblings in order, and
      every node is printed. */
  method PrintTree(nodes: set<NodeID>, edges: map<NodeID, set<NodeID>>, ghost level: map<NodeID, nat>)
    returns (lines: seq<Line>, ghost paths: seq<seq<NodeID>>)
    requires Closed(Graph(nodes, edges)) && Leveled(Graph(nodes, edges), level)
    ensures Shows(lines, paths) && Ascending(paths)
    ensures forall q :: q in paths <==> FromRoot(Graph(nodes, edges), q)
    ensures forall n :: n in nodes ==> exists i :: 0 <= i < |lines| && lines[i].id == n
  {
    hide Descends, PathLess, TextLess, Bounded, Leveled, Ascending, Sorted;
    ghost var g := Graph(nodes, edges);
    var children := ReverseEdges(nodes, edges);
    var roots := Roots(nodes, edges);
    ghost var height := Height(level, nodes);
    assert Bounded(g, level, height) by { HeightBounds(g, level); }
    lines, paths := [], [];
    assert Ascending(paths) by { NothingAscends(); }
    for i := 0 to |roots|
      invariant Shows(lines, paths) && Ascending(paths)
      invariant forall q :: q in paths <==> FromFirst(g, roots[..i], q)
    {
      assert roots[i] in roots;
      RootDescends(g, roots[i]);
      var more, morePaths := PrintNode(roots[i], "", true, children, true, g, level, height, [roots[i]]);
      OneMoreRoot(g, roots, i, paths, morePaths);
      ShowsTogether(lines, paths, more, morePaths);
      lines, paths := lines + more, paths + morePaths;
    }
    assert roots[..|roots|] == roots;
    RootsOnly(g, roots);
    forall n | n in nodes ensures exists i :: 0 <= i < |lines| && lines[i].id == n {
      WayTo(g, level, n, lines, paths);
    }
  }

  lemma NothingAscends()
    ensures Ascending([])
  {
  }

  lemma RootDescends(g: Graph, root: NodeID)
    requires root in g.nodes
    ensures Descends(g, [root])
  {
  }

  lemma RootsOnly(g: Graph, roots: seq<NodeID>)
    requires forall n :: n in roots <==> n in g.nodes && DepsOf(g, n) == {}
    ensures forall q :: FromFirst(g, roots, q) <==> FromRoot(g, q)
  {
  }

  ghost function Height(level: map<NodeID, nat>, nodes: set<NodeID>): (h: nat)
    ensures forall n :: n in nodes && n in level ==> level[n] <= h
  {
    if nodes == {} then 0
    else
      var n :| n in nodes;
      var h := Height(level, nodes - {n});
      if n in level && level[n] > h then level[n] else h
  }

  lemma HeightBounds(g: Graph, level: map<NodeID, nat>)
    requires Leveled(g, level)
    ensures Bounded(g, level, Height(level, g.nodes))
  {
  }

  /** Going from dependency to dependency comes to a root. */
  lemma {:induction false} RootAbove(g: Graph, level: map<NodeID, nat>, n: NodeID) returns (q: seq<NodeID>)
    requires Leveled(g, level) && n in g.nodes
    ensures FromRoot(g, q) && q[|q| - 1] == n
    decreases level[n]
  {
    if level[n] == 0 {
      q := [n];
      BottomLayer(g, level, n);
    } else {
      assert StepsDown(g, level, n);
      var d :| d in DepsOf(g, n) && d in level && level[d] == level[n] - 1;
      var r := RootAbove(g, level, d);
      q := r + [n];
      assert q[0] == r[0];
    }
  }

  lemma WayTo(g: Graph, level: map<NodeID, nat>, n: NodeID, lines: seq<Line>, paths: seq<seq<NodeID>>)
    requires Leveled(g, level) && n in g.nodes && Shows(lines, paths) && forall q :: q in paths <==> FromRoot(g, q)
    ensures exists i :: 0 <= i < |lines| && lines[i].id == n
  {
    var q := RootAbove(g, level, n);
    var i :| 0 <= i < |paths| && paths[i] == q;
    assert lines[i].id == n;
  }
}
