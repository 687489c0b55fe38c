/** The resolver: every resource and every dependency becomes a node, and the graph is layered. */
module Resolver {
  import opened Prelude
  import opened Resources
  import opened Graph
  import opened Dag
  import Manifest

  /** All dependencies that resources with this identity declare. */
  ghost function Declares(resources: seq<Resource>, id: NodeID): set<NodeID> {
    if resources == [] then {}
    else var n := |resources| - 1;
      Declares(resources[..n], id) + (if resources[n].Id() == id then Elements(resources[n].Dependencies()) else {})
  }

  ghost function Mentioned(resources: seq<Resource>): set<NodeID> {
    if resources == [] then {}
    else var n := |resources| - 1;
      Mentioned(resources[..n]) + {resources[n].Id()} + Elements(resources[n].Dependencies())
  }

  ghost predicate Describes(resources: seq<Resource>, g: Graph) {
    g.nodes == Mentioned(resources) && forall n :: DepsOf(g, n) == Declares(resources, n)
  }

  /** Being acyclic and the layers depend on the resources alone. */
  lemma DescribedAlike(resources: seq<Resource>, g: Graph, h: Graph)
    requires Describes(resources, g) && Describes(resources, h)
    ensures Acyclic(g) <==> Acyclic(h)
    ensures forall p :: SimpleCycle(g, p) <==> SimpleCycle(h, p)
    ensures forall level :: Leveled(g, level) <==> Leveled(h, level)
    ensures forall level, layers :: Layering(g, level, layers) <==> Layering(h, level, layers)
  {
    hide Declares, Mentioned, Cycle, Leveled;
    assert forall n :: DepsOf(g, n) == DepsOf(h, n);
    forall p ensures Cycle(g, p) <==> Cycle(h, p) {
      CyclesAlike(g, h, p);
    }
    forall level ensures Leveled(g, level) <==> Leveled(h, level) {
      if Leveled(g, level) { LevelsAlike(g, h, level); }
      if Leveled(h, level) { LevelsAlike(h, g, level); }
    }
  }

  lemma CyclesAlike(g: Graph, h: Graph, p: seq<NodeID>)
    requires g.nodes == h.nodes && forall n :: DepsOf(g, n) == DepsOf(h, n)
    ensures Cycle(g, p) <==> Cycle(h, p)
  {
  }

  lemma LevelsAlike(g: Graph, h: Graph, level: map<NodeID, nat>)
    requires g.nodes == h.nodes && forall n :: DepsOf(g, n) == DepsOf(h, n)
    requires Leveled(g, level)
    ensures Leveled(h, level)
  {
    hide DepsOf;
    forall n {:trigger StepsDown(h, level, n)} | n in h.nodes ensures StepsDown(h, level, n) {
      assert StepsDown(g, level, n) && DepsOf(g, n) == DepsOf(h, n);
    }
  }

  /** The graph that resources describe, as a value. */
  ghost function GraphOf(resources: seq<Resource>): Graph {
    Graph(Mentioned(resources), map n | n in Mentioned(resources) :: Declares(resources, n))
  }

  lemma {:induction false} OnlyMentionedDeclare(resources: seq<Resource>, n: NodeID)
    requires n !in Mentioned(resources)
    ensures Declares(resources, n) == {}
  {
    if resources != [] {
      OnlyMentionedDeclare(resources[..|resources| - 1], n);
    }
  }

  lemma GraphOfDescribes(resources: seq<Resource>)
    ensures Describes(resources, GraphOf(resources))
  {
    var g := GraphOf(resources);
    forall n ensures DepsOf(g, n) == Declares(resources, n) {
      if n !in Mentioned(resources) {
        OnlyMentionedDeclare(resources, n);
      }
    }
  }

  lemma DescribesOneMore(resources: seq<Resource>, i: nat, g0: Graph, g1: Graph)
    requires i < |resources| && Describes(resources[..i], g0)
    requires Grown(g0, g1, resources[i].Id(), Elements(resources[i].Dependencies()))
    ensures Describes(resources[..i + 1], g1)
  {
    hide Resource.Dependencies, Resource.Id;
    assert resources[..i + 1][..i] == resources[..i];
    forall n ensures DepsOf(g1, n) == Declares(resources[..i + 1], n) {
      assert DepsOf(g0, n) == Declares(resources[..i], n);
    }
  }

  method BuildGraph(resources: seq<Resource>) returns (d: Dag)
    ensures fresh(d) && d.Valid() && Describes(resources, d.View())
  {
    d := new Dag();
    for i := 0 to |resources|
      invariant fresh(d) && d.Valid() && Describes(resources[..i], d.View())
    {
      ghost var g0 := d.View();
      d.AddResource(resources[i]);
      DescribesOneMore(resources, i, g0, d.View());
    }
    assert resources[..|resources|] == resources;
  }

  // ----- Built-in installers ----------------------------------------------------------------------

  function Builtin(name: string): Resource {
    InstallerRes(name, InstallerSpec(TypeDownload, "", "", [], None, ""))
  }

  predicate HasInstaller(resources: seq<Resource>, name: string) {
    exists r :: r in resources && r.Id() == NodeID(KindInstaller, name)
  }

  function WithInstaller(resources: seq<Resource>, name: string): (r: seq<Resource>)
    ensures resources <= r && HasInstaller(r, name)
    ensures forall x :: x in r <==> x in resources || (!HasInstaller(resources, name) && x == Builtin(name))
  {
    if HasInstaller(resources, name) then resources
    else
      var r := resources + [Builtin(name)];
      assert r[|resources|] == Builtin(name) && Builtin(name) in r && Builtin(name).Id() == NodeID(KindInstaller, name);
      r
  }

  /** The built-in installers back dependency nodes; they are never part of the manifest itself. */
  function AppendBuiltinInstallers(resources: seq<Resource>): (r: seq<Resource>)
    ensures resources <= r && HasInstaller(r, "aqua") && HasInstaller(r, "download")
    ensures forall x :: x in r <==>
      || x in resources
      || (!HasInstaller(resources, "download") && x == Builtin("download"))
      || (!HasInstaller(resources, "aqua") && x == Builtin("aqua"))
    ensures forall x :: x in r && x !in resources ==>
      && x.InstallerRes? && x.name in {"aqua", "download"}
      && x.installer == InstallerSpec(TypeDownload, "", "", [], None, "")
  {
    var one := WithInstaller(resources, "download");
    OtherInstaller(resources, "download", "aqua");
    OtherInstaller(one, "aqua", "download");
    WithInstaller(one, "aqua")
  }

  lemma OtherInstaller(resources: seq<Resource>, name: string, other: string)
    requires name != other
    ensures HasInstaller(WithInstaller(resources, name), other) <==> HasInstaller(resources, other)
  {
    assert Builtin(name).Id() == NodeID(KindInstaller, name);
    if HasInstaller(resources, other) {
      var r :| r in resources && r.Id() == NodeID(KindInstaller, other);
      assert r in WithInstaller(resources, name);
    }
  }

  lemma {:induction false} MentionsAll(resources: seq<Resource>, r: Resource)
    requires r in resources
    ensures r.Id() in Mentioned(resources)
  {
    var n := |resources| - 1;
    if r != resources[n] {
      assert r in resources[..n];
      MentionsAll(resources[..n], r);
    }
  }

  /** Every resource of the manifest has a node. */
  lemma WantedMentioned(resources: seq<Resource>, id: NodeID)
    requires id in Manifest.ById(resources)
    ensures id in Mentioned(AppendBuiltinInstallers(resources))
  {
    Manifest.ByIdKeys(resources);
    var r :| r in resources && r.Id() == id;
    assert r in AppendBuiltinInstallers(resources);
    MentionsAll(AppendBuiltinInstallers(resources), r);
  }

  lemma WantedHaveNodes(resources: seq<Resource>, g: Graph)
    requires Describes(AppendBuiltinInstallers(resources), g)
    ensures Manifest.ById(resources).Keys <= g.nodes
  {
    forall id | id in Manifest.ById(resources) ensures id in g.nodes {
      WantedMentioned(resources, id);
    }
  }

  ghost predicate IsLayering(g: Graph, layers: Layers) {
    exists level :: Layering(g, level, layers)
  }

  // ----- Resources as a set -----------------------------------------------------------------------

  lemma DeclaresMore(resources: seq<Resource>, id: NodeID, d: NodeID)
    requires resources != []
    ensures var r := resources[|resources| - 1];
            d in Declares(resources, id) <==>
              d in Declares(resources[..|resources| - 1], id) || (r.Id() == id && d in r.Dependencies())
  {
    hide Resource.Dependencies, Resource.Id;
  }

  lemma {:induction false} DeclaresIs(resources: seq<Resource>, id: NodeID, d: NodeID)
    ensures d in Declares(resources, id) <==> exists r :: r in resources && r.Id() == id && d in r.Dependencies()
  {
    if resources != [] {
      hide Resource.Dependencies, Resource.Id, Declares;
      var n := |resources| - 1;
      DeclaresIs(resources[..n], id, d);
      DeclaresMore(resources, id, d);
      assert forall r :: r in resources <==> r in resources[..n] || r == resources[n];
    }
  }

  predicate Mentions(r: Resource, n: NodeID) {
    n == r.Id() || n in r.Dependencies()
  }

  lemma MentionedMore(resources: seq<Resource>, n: NodeID)
    requires resources != []
    ensures n in Mentioned(resources) <==>
      n in Mentioned(resources[..|resources| - 1]) || Mentions(resources[|resources| - 1], n)
  {
  }

  lemma {:induction false} MentionedIs(resources: seq<Resource>, n: NodeID)
    ensures n in Mentioned(resources) <==> exists r :: r in resources && Mentions(r, n)
  {
    if resources != [] {
      hide Mentions, Mentioned;
      var k := |resources| - 1;
      MentionedIs(resources[..k], n);
      MentionedMore(resources, n);
      assert forall r :: r in resources <==> r in resources[..k] || r == resources[k];
    }
  }

  /** The graph depends on which resources there are, not on their order. */
  lemma SameGraph(a: seq<Resource>, b: seq<Resource>, g: Graph)
    requires (forall r :: r in a <==> r in b) && Describes(a, g)
    ensures Describes(b, g)
  {
    hide Declares, Mentioned;
    forall n ensures n in Mentioned(a) <==> n in Mentioned(b) {
      MentionedIs(a, n);
      MentionedIs(b, n);
    }
    forall n ensures Declares(a, n) == Declares(b, n) {
      forall d ensures d in Declares(a, n) <==> d in Declares(b, n) {
        DeclaresIs(a, n, d);
        DeclaresIs(b, n, d);
      }
    }
  }

  lemma SameWithBuiltins(a: seq<Resource>, b: seq<Resource>)
    requires forall r :: r in a <==> r in b
    ensures forall r :: r in AppendBuiltinInstallers(a) <==> r in AppendBuiltinInstallers(b)
  {
  }

  /** Two orders of one manifest: what is acyclic in one is acyclic in the other. */
  lemma SameAcyclic(a: seq<Resource>, b: seq<Resource>, g: Graph, h: Graph)
    requires forall r :: r in a <==> r in b
    requires Describes(AppendBuiltinInstallers(a), g) && Describes(AppendBuiltinInstallers(b), h)
    ensures Acyclic(g) <==> Acyclic(h)
    ensures forall level :: Leveled(g, level) <==> Leveled(h, level)
  {
    hide Describes, AppendBuiltinInstallers;
    SameWithBuiltins(a, b);
    SameGraph(AppendBuiltinInstallers(a), AppendBuiltinInstallers(b), g);
    DescribedAlike(AppendBuiltinInstallers(b), g, h);
  }

  /** Every wanted resource has its dependencies in the graph. */
  ghost predicate DependenciesIn(want: map<NodeID, Resource>, g: Graph) {
    forall id, d :: id in want && d in want[id].Dependencies() ==> d in DepsOf(g, id)
  }

  lemma {:induction false} ByIdFrom(resources: seq<Resource>, id: NodeID)
    requires id in Manifest.ById(resources)
    ensures Manifest.ById(resources)[id] in resources && Manifest.ById(resources)[id].Id() == id
  {
    var n := |resources| - 1;
    if resources[n].Id() != id {
      ByIdFrom(resources[..n], id);
    }
  }

  lemma WantedDependencies(resources: seq<Resource>, g: Graph)
    requires Describes(AppendBuiltinInstallers(resources), g)
    ensures DependenciesIn(Manifest.ById(resources), g)
  {
    hide AppendBuiltinInstallers, Declares, Mentioned;
    var want := Manifest.ById(resources);
    forall id, d | id in want && d in want[id].Dependencies() ensures d in DepsOf(g, id) {
      ByIdFrom(resources, id);
      assert want[id] in AppendBuiltinInstallers(resources);
      DeclaresIs(AppendBuiltinInstallers(resources), id, d);
    }
  }

  /** There always are the built-in installers. */
  lemma SomeLayer(resources: seq<Resource>, g: Graph, level: map<NodeID, nat>, layers: Layers)
    requires Describes(AppendBuiltinInstallers(resources), g) && Layering(g, level, layers)
    ensures layers != []
  {
    var all := AppendBuiltinInstallers(resources);
    var r :| r in all && r.Id() == NodeID(KindInstaller, "aqua");
    MentionsAll(all, r);
    assert r.Id() in g.nodes;
  }

  /** The graph has a node for every resource, for everything a resource needs and for the two built-in installers; a
      node depends on exactly what the resources with its identity need. */
  lemma GraphMeans(resources: seq<Resource>, g: Graph, n: NodeID, d: NodeID)
    requires Describes(AppendBuiltinInstallers(resources), g)
    ensures d in DepsOf(g, n) <==> exists r :: r in resources && r.Id() == n && Needs(r, d)
    ensures n in g.nodes <==>
            || n in {NodeID(KindInstaller, "aqua"), NodeID(KindInstaller, "download")}
            || exists r :: r in resources && (r.Id() == n || Needs(r, n))
  {
    hide Needs, Declares, Mentioned;
    var all := AppendBuiltinInstallers(resources);
    DeclaresIs(all, n, d);
    MentionedIs(all, n);
    forall r: Resource, e ensures e in r.Dependencies() <==> Needs(r, e) {
      DependenciesAre(r, e);
    }
    forall name, e ensures Builtin(name).Id() == NodeID(KindInstaller, name) && !Needs(Builtin(name), e) {
      NoNeeds(name, e);
    }
    if n in {NodeID(KindInstaller, "aqua"), NodeID(KindInstaller, "download")} {
      BuiltinsAmong(resources, n);
    }
    if r :| r in all && r.Id() == n && d in r.Dependencies() {
      assert r in resources;
    }
    if r :| r in resources && r.Id() == n && Needs(r, d) {
      assert r in all && d in r.Dependencies();
    }
    if r :| r in all && Mentions(r, n) && r in resources {
      assert r.Id() == n || Needs(r, n);
    }
    if r :| r in resources && (r.Id() == n || Needs(r, n)) {
      assert r in all && Mentions(r, n);
    }
  }

  lemma NoNeeds(name: string, d: NodeID)
    ensures Builtin(name).Id() == NodeID(KindInstaller, name) && !Needs(Builtin(name), d)
  {
  }

  lemma BuiltinsAmong(resources: seq<Resource>, n: NodeID)
    requires n in {NodeID(KindInstaller, "aqua"), NodeID(KindInstaller, "download")}
    ensures exists r :: r in AppendBuiltinInstallers(resources) && Mentions(r, n)
  {
    var all := AppendBuiltinInstallers(resources);
    assert HasInstaller(all, n.name);
    var r :| r in all && r.Id() == NodeID(KindInstaller, n.name);
    assert Mentions(r, n);
  }

  /** Layers of the manifest with the built-in installers, or a dependency cycle. */
  method Resolve(resources: seq<Resource>) returns (r: Result<Layers, seq<NodeID>>, ghost g: Graph,
                 ghost level: map<NodeID, nat>)
    ensures Describes(AppendBuiltinInstallers(resources), g)
    ensures Manifest.ById(resources).Keys <= g.nodes && DependenciesIn(Manifest.ById(resources), g)
    ensures r.Err? <==> !Acyclic(g)
    ensures r.Err? ==> SimpleCycle(g, r.error)
    ensures r.Ok? ==> Layering(g, level, r.value) && r.value != []
    ensures r.Err? ==> SimpleCycle(GraphOf(AppendBuiltinInstallers(resources)), r.error)
    ensures r.Ok? ==> IsLayering(GraphOf(AppendBuiltinInstallers(resources)), r.value)
  {
    hide Layering, SimpleCycle, Acyclic, Declares, Mentioned, AppendBuiltinInstallers, Describes, GraphOf,
      DependenciesIn;
    var d := BuildGraph(AppendBuiltinInstallers(resources));
    g := d.View();
    WantedHaveNodes(resources, g);
    WantedDependencies(resources, g);
    r, level := d.TopologicalSort();
    GraphOfDescribes(AppendBuiltinInstallers(resources));
    DescribedAlike(AppendBuiltinInstallers(resources), g, GraphOf(AppendBuiltinInstallers(resources)));
    if r.Ok? {
      SomeLayer(resources, g, level, r.value);
      assert Layering(GraphOf(AppendBuiltinInstallers(resources)), level, r.value);
    }
  }
}
