/** Delegation groups: which tools must not run at the same time, and how a layer's nodes are split. */
module Grouping {
  import opened Prelude
  import opened Resources
  import opened Graph
  import opened Installers

  /** The resource map files every resource under its own identity. */
  ghost predicate Indexed(want: map<NodeID, Resource>) {
    forall id :: id in want ==> want[id].Id() == id
  }

  predicate DelegationInstaller(want: map<NodeID, Resource>, ref: string) {
    var id := NodeID(KindInstaller, ref);
    id in want && want[id].InstallerRes? && want[id].installer.typ == TypeDelegation
  }

  /** "" for a tool that may run beside any other. */
  function DelegationKey(spec: ToolSpec, want: map<NodeID, Resource>): string {
    if spec.runtimeRef != "" then "runtime:" + spec.runtimeRef
    else if spec.installerRef != "" &&
      DelegationInstaller(want, spec.installerRef) then "installer:" + spec.installerRef
    else ""
  }

  /** Nodes that are no tool of the manifest count as downloads. */
  function KeyOf(want: map<NodeID, Resource>, id: NodeID): string {
    if id in want && id.kind == KindTool && want[id].ToolRes? then DelegationKey(want[id].tool, want) else ""
  }

  /** The nodes with one key, in their order. */
  function WithKey(want: map<NodeID, Resource>, nodes: seq<NodeID>, key: string): seq<NodeID> {
    if nodes == [] then []
    else
      var n := |nodes| - 1;
      WithKey(want, nodes[..n], key) + (if KeyOf(want, nodes[n]) == key then [nodes[n]] else [])
  }

  lemma {:induction false} WithKeyIs(want: map<NodeID, Resource>, nodes: seq<NodeID>, key: string)
    ensures forall id :: id in WithKey(want, nodes, key) <==> id in nodes && KeyOf(want, id) == key
    ensures NoDup(nodes) ==> NoDup(WithKey(want, nodes, key))
  {
    if nodes != [] {
      var n := |nodes| - 1;
      WithKeyIs(want, nodes[..n], key);
      assert nodes == nodes[..n] + [nodes[n]];
      if NoDup(nodes) {
        assert nodes[n] !in nodes[..n];
      }
    }
  }

  lemma KeyedInOrder(want: map<NodeID, Resource>, m: NodeID, n: NodeID)
    requires KeyOf(want, m) == KeyOf(want, n) != "" && m != n && Before(m, n)
    ensures StringLess(m.name, n.name)
  {
    StringLessOrder(m.name, n.name, "");
  }

  ghost predicate NamesAscend(s: seq<NodeID>) {
    forall i, j :: 0 <= i < j < |s| ==> StringLess(s[i].name, s[j].name)
  }

  /** Tools with one key stand in the order of their names if they stand in the order of a layer. */
  lemma {:induction false} WithKeySorted(want: map<NodeID, Resource>, nodes: seq<NodeID>, key: string)
    requires NoDup(nodes) && SortedByKind(nodes) && key != ""
    ensures NamesAscend(WithKey(want, nodes, key))
  {
    hide KeyOf, Before;
    if nodes != [] {
      var n := |nodes| - 1;
      WithKeySorted(want, nodes[..n], key);
      WithKeyIs(want, nodes[..n], key);
      assert nodes[n] !in nodes[..n];
      var g, all := WithKey(want, nodes[..n], key), WithKey(want, nodes, key);
      forall i, j | 0 <= i < j < |all| ensures StringLess(all[i].name, all[j].name) {
        assert all[i] == g[i] && g[i] in g && g[i] in nodes[..n];
        if j < |g| {
          assert all[j] == g[j];
        } else {
          assert all[j] == nodes[n];
          KeyedInOrder(want, g[i], nodes[n]);
        }
      }
    }
  }

  lemma WithKeyAppend(want: map<NodeID, Resource>, nodes: seq<NodeID>, i: nat, key: string)
    requires i < |nodes|
    ensures WithKey(want, nodes[..i + 1], key) ==
            WithKey(want, nodes[..i], key) + (if KeyOf(want, nodes[i]) == key then [nodes[i]] else [])
  {
    assert nodes[..i + 1][..i] == nodes[..i];
  }

  /** The keys in use, in increasing order, each once. */
  ghost predicate KeysInUse(want: map<NodeID, Resource>, nodes: seq<NodeID>, keys: seq<string>) {
    && (forall i, j :: 0 <= i < j < |keys| ==> StringLess(keys[i], keys[j]))
    && (forall k :: k in keys <==> k != "" && exists id :: id in nodes && KeyOf(want, id) == k)
  }

  /** Download nodes and one group a key: every part is the order-preserving selection of its key. */
  ghost predicate Partition(want: map<NodeID, Resource>, nodes: seq<NodeID>, keys: seq<string>, downloads: seq<NodeID>,
                            groups: seq<seq<NodeID>>)
  {
    && downloads == WithKey(want, nodes, "")
    && KeysInUse(want, nodes, keys)
    && |groups| == |keys|
    && forall i :: 0 <= i < |groups| ==> groups[i] == WithKey(want, nodes, keys[i])
  }

  /** The groups so far: what every key other than "" has collected, keys without nodes left out. */
  ghost predicate Collected(want: map<NodeID, Resource>, nodes: seq<NodeID>, byKey: map<string, seq<NodeID>>) {
    && "" !in byKey
    && (forall k :: k != "" ==> GroupOf(byKey, k) == WithKey(want, nodes, k))
    && (forall k :: k in byKey ==> byKey[k] != [])
  }

  lemma NothingCollected(want: map<NodeID, Resource>, nodes: seq<NodeID>)
    ensures WithKey(want, nodes[..0], "") == [] && Collected(want, nodes[..0], map[])
  {
  }

  lemma CollectedOneMore(want: map<NodeID, Resource>, nodes: seq<NodeID>, i: nat, byKey: map<string, seq<NodeID>>)
    requires i < |nodes| && Collected(want, nodes[..i], byKey)
    ensures var key := KeyOf(want, nodes[i]);
            Collected(want, nodes[..i + 1], if key == "" then byKey else byKey[key := GroupOf(byKey, key) + [nodes[i]]])
  {
    hide KeyOf, WithKey;
    var key := KeyOf(want, nodes[i]);
    var more := if key == "" then byKey else byKey[key := GroupOf(byKey, key) + [nodes[i]]];
    forall k | k != "" ensures GroupOf(more, k) == WithKey(want, nodes[..i + 1], k) {
      WithKeyAppend(want, nodes, i, k);
      assert GroupOf(byKey, k) == WithKey(want, nodes[..i], k);
    }
  }

  function GroupOf(byKey: map<string, seq<NodeID>>, k: string): seq<NodeID> {
    if k in byKey then byKey[k] else []
  }

  method PartitionTools(nodes: seq<NodeID>, want: map<NodeID, Resource>)
    returns (downloads: seq<NodeID>, groups: seq<seq<NodeID>>, ghost keys: seq<string>)
    ensures Partition(want, nodes, keys, downloads, groups)
    ensures downloads == WithKey(want, nodes, "")
    ensures forall g :: g in groups <==> IsGroup(want, nodes, g)
  {
    hide KeyOf, WithKey, Collected;
    NothingCollected(want, nodes);
    downloads := [];
    var byKey: map<string, seq<NodeID>> := map[];
    for i := 0 to |nodes|
      invariant downloads == WithKey(want, nodes[..i], "")
      invariant Collected(want, nodes[..i], byKey)
    {
      WithKeyAppend(want, nodes, i, "");
      CollectedOneMore(want, nodes, i, byKey);
      var key := KeyOf(want, nodes[i]);
      if key == "" {
        downloads := downloads + [nodes[i]];
      } else {
        byKey := byKey[key := GroupOf(byKey, key) + [nodes[i]]];
      }
    }
    assert nodes[..|nodes|] == nodes;
    var sorted := SortedKeys(byKey.Keys);
    CollectedKeys(want, nodes, byKey);
    groups := seq(|sorted|, i requires 0 <= i < |sorted| => GroupOf(byKey, sorted[i]));
    keys := sorted;
    assert forall i :: 0 <= i < |keys| ==> keys[i] in keys && groups[i] == GroupOf(byKey, keys[i]);
    assert Partition(want, nodes, keys, downloads, groups);
    forall g ensures g in groups <==> IsGroup(want, nodes, g) {
      GroupsAre(want, nodes, keys, downloads, groups, g);
    }
  }

  lemma CollectedKeys(want: map<NodeID, Resource>, nodes: seq<NodeID>, byKey: map<string, seq<NodeID>>)
    requires Collected(want, nodes, byKey)
    ensures forall k :: k in byKey <==> k != "" && exists id :: id in nodes && KeyOf(want, id) == k
    ensures forall k :: k in byKey ==> GroupOf(byKey, k) == WithKey(want, nodes, k)
  {
    forall k | k != "" ensures k in byKey <==> exists id :: id in nodes && KeyOf(want, id) == k {
      WithKeyIs(want, nodes, k);
      assert GroupOf(byKey, k) == WithKey(want, nodes, k);
      if k in byKey {
        assert byKey[k][0] in WithKey(want, nodes, k);
      }
    }
  }

  /** All nodes with one key, the key being in use. */
  ghost predicate IsGroup(want: map<NodeID, Resource>, nodes: seq<NodeID>, g: seq<NodeID>) {
    exists k: string :: k != "" && g == WithKey(want, nodes, k) && g != []
  }

  lemma GroupsAre(want: map<NodeID, Resource>, nodes: seq<NodeID>, keys: seq<string>, downloads: seq<NodeID>,
                  groups: seq<seq<NodeID>>, g: seq<NodeID>)
    requires Partition(want, nodes, keys, downloads, groups)
    ensures g in groups <==> IsGroup(want, nodes, g)
  {
    hide KeyOf, WithKey;
    if g in groups {
      var i :| 0 <= i < |groups| && groups[i] == g;
      WithKeyIs(want, nodes, keys[i]);
      assert keys[i] in keys;
      var id :| id in nodes && KeyOf(want, id) == keys[i];
      assert id in g;
    }
    if IsGroup(want, nodes, g) {
      var k: string :| k != "" && g == WithKey(want, nodes, k) && g != [];
      WithKeyIs(want, nodes, k);
      assert g[0] in g && g[0] in nodes && KeyOf(want, g[0]) == k;
      assert k in keys;
      var i :| 0 <= i < |keys| && keys[i] == k;
      assert groups[i] == g;
    }
  }

  /** The library's sorted list of map keys: selects the least remaining key again and again. */
  method SortedKeys(keys: set<string>) returns (s: seq<string>)
    ensures forall k :: k in s <==> k in keys
    ensures forall i, j :: 0 <= i < j < |s| ==> StringLess(s[i], s[j])
  {
    s := [];
    var todo := keys;
    while todo != {}
      invariant todo <= keys && forall k :: k in s <==> k in keys - todo
      invariant forall i, j :: 0 <= i < j < |s| ==> StringLess(s[i], s[j])
      invariant forall k, l :: k in s && l in todo ==> StringLess(k, l)
    {
      var least := LeastKey(todo);
      s := s + [least];
      todo := todo - {least};
    }
  }

  method LeastKey(keys: set<string>) returns (least: string)
    requires keys != {}
    ensures least in keys && forall k :: k in keys && k != least ==> StringLess(least, k)
  {
    least :| least in keys;
    var todo := keys - {least};
    while todo != {}
      invariant todo <= keys && least in keys - todo
      invariant forall k :: k in keys - todo && k != least ==> StringLess(least, k)
    {
      var k :| k in todo;
      todo := todo - {k};
      StringLessOrder(least, k, k);
      ghost var before := least;
      if StringLess(k, least) {
        forall l | l in keys && StringLess(least, l) ensures StringLess(k, l) {
          StringLessOrder(k, least, l);
        }
        least := k;
      }
    }
  }

  // ----- What the split means ----------------------------------------------------------------------

  /** Nothing is lost and nothing is duplicated: a node is in the downloads exactly if it has no key, and in
      the group of its key otherwise, and no part repeats a node. */
  lemma ExactPartition(want: map<NodeID, Resource>, nodes: seq<NodeID>, keys: seq<string>, downloads: seq<NodeID>,
                       groups: seq<seq<NodeID>>)
    requires Partition(want, nodes, keys, downloads, groups)
    ensures |groups| == |keys|
    ensures forall id :: id in downloads <==> id in nodes && KeyOf(want, id) == ""
    ensures forall i, id :: 0 <= i < |groups| ==> (id in groups[i] <==> id in nodes && KeyOf(want, id) == keys[i])
    ensures forall id :: id in nodes && KeyOf(want, id) != "" ==>
              exists i :: 0 <= i < |groups| && id in groups[i] && keys[i] == KeyOf(want, id)
    ensures forall i, j :: 0 <= i < j < |keys| ==> keys[i] != keys[j]
    ensures forall i :: 0 <= i < |groups| ==> groups[i] != [] && keys[i] != ""
    ensures NoDup(nodes) ==> NoDup(downloads) && forall i :: 0 <= i < |groups| ==> NoDup(groups[i])
  {
    WithKeyIs(want, nodes, "");
    forall i | 0 <= i < |groups|
      ensures forall id :: id in groups[i] <==> id in nodes && KeyOf(want, id) == keys[i]
      ensures groups[i] != [] && keys[i] != ""
      ensures NoDup(nodes) ==> NoDup(groups[i])
    {
      WithKeyIs(want, nodes, keys[i]);
      assert keys[i] in keys;
      var id :| id in nodes && KeyOf(want, id) == keys[i];
      assert id in groups[i];
    }
    forall id | id in nodes && KeyOf(want, id) != ""
      ensures exists i :: 0 <= i < |groups| && id in groups[i] && keys[i] == KeyOf(want, id)
    {
      var k := KeyOf(want, id);
      assert k in keys;
      var i :| 0 <= i < |keys| && keys[i] == k;
      assert id in groups[i];
    }
    forall i, j | 0 <= i < j < |keys| ensures keys[i] != keys[j] {
      StringLessOrder(keys[i], keys[j], keys[j]);
    }
  }

  /** The tool installer knows exactly the manifest's installers. */
  ghost predicate Registered(reg: Registry, want: map<NodeID, Resource>) {
    forall ref :: (ref in reg.installers && reg.installers[ref].typ == TypeDelegation) <==>
      DelegationInstaller(want, ref)
  }

  /** The runtime or installer whose commands would install the tool if it had none of its own. */
  function Delegate(reg: Registry, spec: ToolSpec): Route {
    RouteOf(reg, spec.(commands := None))
  }

  /** A tool that Install hands to the commands of a runtime or of a delegation installer has the key of
      exactly that runtime or installer, and any other tool has none. There are two exceptions: an installer with an
      empty name gives no key, and a tool with its own commands keeps the key it would have without them. */
  lemma KeyMatchesRoute(reg: Registry, want: map<NodeID, Resource>, spec: ToolSpec)
    requires Registered(reg, want)
    ensures DelegationKey(spec, want) ==
            match Delegate(reg, spec)
            case ByRuntime(r) => "runtime:" + r
            case ByInstaller(i) => if i != "" then "installer:" + i else ""
            case _ => ""
    ensures !RouteOf(reg, spec).ByCommands? ==> Delegate(reg, spec) == RouteOf(reg, spec)
    ensures Delegate(reg, spec).ByRuntime? ==> Delegate(reg, spec).runtime != ""
  {
  }

  predicate Delegated(r: Route) {
    r.ByRuntime? || (r.ByInstaller? && r.installer != "")
  }

  /** A tool with its own commands runs beside any other exactly if it names neither a runtime nor a delegation
      installer. */
  lemma CommandsUnserialized(reg: Registry, want: map<NodeID, Resource>, spec: ToolSpec)
    requires Registered(reg, want) && RouteOf(reg, spec).ByCommands?
    ensures DelegationKey(spec, want) == "" <==> !Delegated(Delegate(reg, spec))
  {
  }

  /** One that is serialized all the same: its own commands install it, but it also names a runtime. */
  lemma CommandsSerialized(reg: Registry, want: map<NodeID, Resource>, spec: ToolSpec)
    requires spec.commands.Some? && spec.runtimeRef == "go"
    ensures RouteOf(reg, spec) == ByCommands && DelegationKey(spec, want) == "runtime:go" != ""
  {
  }

  /** Two tools share a group exactly when they would be delegated to the same runtime or named installer; without
      commands of their own, that is where Install sends them. */
  lemma SameGroupSameRoute(reg: Registry, want: map<NodeID, Resource>, s: ToolSpec, t: ToolSpec)
    requires Registered(reg, want)
    ensures DelegationKey(s, want) == DelegationKey(t, want) != "" <==>
      Delegate(reg, s) == Delegate(reg, t) && Delegated(Delegate(reg, s))
    ensures !RouteOf(reg, s).ByCommands? && !RouteOf(reg, t).ByCommands? ==>
              (DelegationKey(s, want) == DelegationKey(t, want) != "" <==>
               RouteOf(reg, s) == RouteOf(reg, t) && Delegated(RouteOf(reg, s)))
  {
    KeyMatchesRoute(reg, want, s);
    KeyMatchesRoute(reg, want, t);
    KeysSplit(RouteName(Delegate(reg, s)), RouteName(Delegate(reg, t)));
  }

  /** The tools of a delegation installer that is registered under the empty name are not serialized. */
  lemma NamelessInstaller(reg: Registry, want: map<NodeID, Resource>, spec: ToolSpec)
    requires Registered(reg, want) && DelegationInstaller(want, "")
    requires spec.commands.None? && spec.runtimeRef == "" && spec.installerRef == ""
    ensures RouteOf(reg, spec) == ByInstaller("") && DelegationKey(spec, want) == ""
  {
  }

  function RouteName(r: Route): string {
    match r
    case ByRuntime(n) => n
    case ByInstaller(n) => n
    case _ => ""
  }

  lemma KeysSplit(a: string, b: string)
    ensures "runtime:" + a == "runtime:" + b ==> a == b
    ensures "installer:" + a == "installer:" + b ==> a == b
    ensures "runtime:" + a != "installer:" + b
    ensures "installer:" + a != "runtime:" + b
    ensures "runtime:" + a != "" && "installer:" + a != ""
  {
    assert ("runtime:" + a)[8..] == a && ("runtime:" + b)[8..] == b;
    assert ("installer:" + a)[10..] == a && ("installer:" + b)[10..] == b;
    assert ("runtime:" + a)[0] == 'r' && ("installer:" + b)[0] == 'i';
    assert ("runtime:" + b)[0] == 'r' && ("installer:" + a)[0] == 'i';
  }

  // ----- Keys in the fields of the specifications -----------------------------------------------------

  /** Two tools of the manifest that name one runtime, or no runtime and one installer that delegates. */
  ghost predicate SameDelegate(want: map<NodeID, Resource>, m: NodeID, n: NodeID) {
    && m in want && want[m].ToolRes? && n in want && want[n].ToolRes?
    && var s, t := want[m].tool, want[n].tool;
       var installer := NodeID(KindInstaller, s.installerRef);
       && s.runtimeRef == t.runtimeRef
       && (|| s.runtimeRef != ""
           || (&& s.installerRef == t.installerRef != "" && installer in want && want[installer].InstallerRes?
               && want[installer].installer.typ == TypeDelegation))
  }

  lemma KeysMean(want: map<NodeID, Resource>, m: NodeID, n: NodeID)
    requires Indexed(want)
    ensures KeyOf(want, m) == KeyOf(want, n) != "" <==> SameDelegate(want, m, n)
  {
    forall id | id in want && want[id].ToolRes? ensures id.kind == KindTool {
      assert want[id].Id() == id;
    }
    if m in want && want[m].ToolRes? && n in want && want[n].ToolRes? {
      var s, t := want[m].tool, want[n].tool;
      KeysSplit(s.runtimeRef, t.runtimeRef);
      KeysSplit(s.installerRef, t.installerRef);
      KeysSplit(s.runtimeRef, t.installerRef);
      KeysSplit(s.installerRef, t.runtimeRef);
    }
  }
}
