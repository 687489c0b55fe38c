/** Expanding tool sets and dropping disabled resources. */
module Manifest {
  import opened Prelude
  import opened Resources
  import Reconciler

  // ----- What a manifest asks for ------------------------------------------------------------

  function ItemTool(s: ToolSetSpec, name: string, item: ToolItem): Resource {
    ToolRes(name, ToolSpec(s.installerRef, s.repositoryRef, s.runtimeRef, item.version, None, item.source,
                           item.package, None, item.binaryName, item.args))
  }

  /** An item depends on exactly what its set depends on, and its set never shows in the graph. */
  lemma ItemKeepsDependencies(s: ToolSetSpec, setName: string, name: string, item: ToolItem)
    ensures ItemTool(s, name, item).Dependencies() == ToolSetRes(setName, s).Dependencies()
    ensures ItemTool(s, name, item).Enabled() && ItemTool(s, name, item).Id() == NodeID(KindTool, name)
  {
  }

  function EnabledItems(s: ToolSetSpec): set<string> {
    set n | n in s.tools && FlagOn(s.tools[n].enabled)
  }

  /** What one resource of the manifest adds, by identity. */
  ghost function Contribution(res: Resource): map<NodeID, Resource> {
    if !res.Enabled() then map[]
    else if res.ToolSetRes? then
      map id: NodeID | id in ItemIds(res.toolSet) :: ItemTool(res.toolSet, id.name, res.toolSet.tools[id.name])
    else map[res.Id() := res]
  }

  function ItemIds(s: ToolSetSpec): (ids: set<NodeID>)
    ensures forall id :: id in ids <==> id.kind == KindTool && id.name in s.tools && FlagOn(s.tools[id.name].enabled)
  {
    set n | n in s.tools && FlagOn(s.tools[n].enabled) :: NodeID(KindTool, n)
  }

  /** What the manifest asks for: enabled resources and enabled set items by identity, later ones first. */
  ghost function Desired(resources: seq<Resource>): map<NodeID, Resource> {
    if resources == [] then map[]
    else var n := |resources| - 1; Desired(resources[..n]) + Contribution(resources[n])
  }

  /** Resources by identity; a later duplicate replaces an earlier one. */
  function ById(resources: seq<Resource>): map<NodeID, Resource> {
    if resources == [] then map[]
    else var n := |resources| - 1; ById(resources[..n])[resources[n].Id() := resources[n]]
  }

  predicate Standalone(res: Resource) {
    res.Enabled() && !res.ToolSetRes?
  }

  /** Identities that come from the sets among the resources. */
  ghost function FromSets(resources: seq<Resource>): set<NodeID> {
    if resources == [] then {}
    else var n := |resources| - 1;
      FromSets(resources[..n]) + (if resources[n].ToolSetRes? then ItemIds(resources[n].toolSet) else {})
  }

  ghost function StandaloneIds(resources: seq<Resource>): set<NodeID> {
    set i | 0 <= i < |resources| && Standalone(resources[i]) :: resources[i].Id()
  }

  /** No item of this set is claimed by a standalone resource or by an earlier set. */
  ghost predicate ClashFree(resources: seq<Resource>, i: int)
    requires 0 <= i < |resources|
  {
    resources[i].ToolSetRes? ==> ItemIds(resources[i].toolSet) !! StandaloneIds(resources) + FromSets(resources[..i])
  }

  ghost predicate ClashFreeBefore(resources: seq<Resource>, n: nat)
    requires n <= |resources|
  {
    forall i :: 0 <= i < n ==> ClashFree(resources, i)
  }

  lemma OneMoreClashFree(resources: seq<Resource>, n: nat)
    requires n < |resources| && ClashFreeBefore(resources, n) && ClashFree(resources, n)
    ensures ClashFreeBefore(resources, n + 1)
  {
  }

  /** An identity that comes from a set is claimed a second time. */
  ghost predicate Conflict(resources: seq<Resource>) {
    exists i :: 0 <= i < |resources| && !ClashFree(resources, i)
  }

  lemma {:induction false} FromSetsIs(resources: seq<Resource>, id: NodeID)
    ensures id in FromSets(resources) <==>
            exists j :: 0 <= j < |resources| && resources[j].ToolSetRes? && id in ItemIds(resources[j].toolSet)
  {
    if resources != [] {
      var n := |resources| - 1;
      var rest := resources[..n];
      FromSetsIs(rest, id);
      if j :| 0 <= j < |resources| && resources[j].ToolSetRes? && id in ItemIds(resources[j].toolSet) {
        assert j < n ==> rest[j] == resources[j];
      }
      if j :| 0 <= j < |rest| && rest[j].ToolSetRes? && id in ItemIds(rest[j].toolSet) {
        assert resources[j] == rest[j];
      }
    }
  }

  /** There is a conflict exactly when an item of one set is also a standalone resource or an item of another
      set, so the order of the manifest does not matter. */
  lemma ConflictMeans(resources: seq<Resource>)
    ensures Conflict(resources) <==>
            exists i, id :: 0 <= i < |resources| && resources[i].ToolSetRes? && id in ItemIds(resources[i].toolSet) &&
              (id in StandaloneIds(resources) ||
               exists j :: 0 <= j < |resources| && j != i && resources[j].ToolSetRes? &&
                 id in ItemIds(resources[j].toolSet))
  {
    if Conflict(resources) {
      var i :| 0 <= i < |resources| && !ClashFree(resources, i);
      var id :| id in ItemIds(resources[i].toolSet) && id in StandaloneIds(resources) + FromSets(resources[..i]);
      FromSetsIs(resources[..i], id);
      if id !in StandaloneIds(resources) {
        var j :| 0 <= j < i && resources[..i][j].ToolSetRes? && id in ItemIds(resources[..i][j].toolSet);
        assert resources[j] == resources[..i][j];
      }
    }
    forall i, id | 0 <= i < |resources| && resources[i].ToolSetRes? && id in ItemIds(resources[i].toolSet) &&
        (id in StandaloneIds(resources) ||
         exists j :: 0 <= j < |resources| && j != i && resources[j].ToolSetRes? && id in ItemIds(resources[j].toolSet))
      ensures Conflict(resources)
    {
      if id in StandaloneIds(resources) {
        assert !ClashFree(resources, i);
      } else {
        var j :| 0 <= j < |resources| && j != i && resources[j].ToolSetRes? && id in ItemIds(resources[j].toolSet);
        var lo, hi := if i < j then i else j, if i < j then j else i;
        FromSetsIs(resources[..hi], id);
        assert resources[..hi][lo] == resources[lo];
        assert !ClashFree(resources, hi);
      }
    }
  }

  /** x stands alone in the manifest, or is an enabled item of one of its sets. */
  ghost predicate Asked(resources: seq<Resource>, x: Resource) {
    (x in resources && Standalone(x)) || exists i :: 0 <= i < |resources| && AskedBySet(resources[i], x)
  }

  predicate AskedBySet(res: Resource, x: Resource) {
    res.ToolSetRes? && x.Id() in ItemIds(res.toolSet) && x == ItemTool(res.toolSet, x.name, res.toolSet.tools[x.name])
  }

  lemma AskedOneMore(resources: seq<Resource>, i: nat, x: Resource)
    requires i < |resources|
    ensures Asked(resources[..i + 1], x) <==>
            Asked(resources[..i], x) || (x == resources[i] && Standalone(x)) || AskedBySet(resources[i], x)
  {
  }

  /** The expanded manifest: what is asked for, no set, nothing disabled, and every identity that came from a
      set exactly once. */
  ghost predicate Expansion(resources: seq<Resource>, out: seq<Resource>) {
    && (forall x :: x in out ==> Standalone(x))
    && (forall x :: x in out <==> Asked(resources, x))
    && ById(out) == Desired(resources)
    && FromSets(resources) <= ById(out).Keys
    && (forall k, l :: 0 <= k < l < |out| && out[k].Id() == out[l].Id() ==> out[k].Id() !in FromSets(resources))
  }

  // ----- ExpandSets ----------------------------------------------------------------------------

  ghost predicate ItemsOnce(s: ToolSetSpec, names: set<string>, tools: seq<Resource>) {
    && names <= s.tools.Keys
    && (forall k :: 0 <= k < |tools| ==>
        tools[k].name in names && tools[k] == ItemTool(s, tools[k].name, s.tools[tools[k].name]))
    && (forall n :: n in names ==> exists k :: 0 <= k < |tools| && tools[k].name == n)
    && (forall k, l :: 0 <= k < l < |tools| ==> tools[k].name != tools[l].name)
  }

  lemma ItemsOnceMore(s: ToolSetSpec, names: set<string>, tools: seq<Resource>, n: string)
    requires ItemsOnce(s, names, tools) && n in s.tools && n !in names
    ensures ItemsOnce(s, names + {n}, tools + [ItemTool(s, n, s.tools[n])])
  {
    var tools' := tools + [ItemTool(s, n, s.tools[n])];
    assert tools'[|tools|].name == n;
    forall m | m in names ensures exists k :: 0 <= k < |tools'| && tools'[k].name == m {
      var k :| 0 <= k < |tools| && tools[k].name == m;
      assert tools'[k].name == m;
    }
  }

  /** The items of a set, in an arbitrary order, disabled ones left out. */
  method Expand(s: ToolSetSpec) returns (tools: seq<Resource>)
    ensures ItemsOnce(s, EnabledItems(s), tools)
  {
    tools := [];
    var todo := s.tools.Keys;
    ghost var seen: set<string> := {};
    while todo != {}
      invariant todo <= s.tools.Keys
      invariant seen == EnabledItems(s) - todo
      invariant ItemsOnce(s, seen, tools)
      decreases |todo|
    {
      var n :| n in todo;
      todo := todo - {n};
      if FlagOn(s.tools[n].enabled) {
        ItemsOnceMore(s, seen, tools, n);
        tools := tools + [ItemTool(s, n, s.tools[n])];
        seen := seen + {n};
      }
    }
    assert seen == EnabledItems(s);
  }

  /** Claims the identities of expanded tools; fails on the first that is taken. */
  method Claim(names0: set<NodeID>, tools: seq<Resource>) returns (ok: bool, names: set<NodeID>)
    requires forall k, l :: 0 <= k < l < |tools| ==> tools[k].Id() != tools[l].Id()
    ensures ok <==> Ids(tools) !! names0
    ensures ok ==> names == names0 + Ids(tools)
  {
    names := names0;
    for i := 0 to |tools|
      invariant Ids(tools[..i]) !! names0 && names == names0 + Ids(tools[..i])
    {
      assert tools[..i + 1] == tools[..i] + [tools[i]];
      assert tools[i].Id() in Ids(tools);
      if tools[i].Id() in names {
        return false, names;
      }
      names := names + {tools[i].Id()};
    }
    assert tools[..|tools|] == tools;
    ok := true;
  }

  function Ids(rs: seq<Resource>): set<NodeID> {
    set x | x in rs :: x.Id()
  }

  method RegisterStandalone(resources: seq<Resource>) returns (names: set<NodeID>)
    ensures names == StandaloneIds(resources)
  {
    names := {};
    for i := 0 to |resources|
      invariant names == set j | 0 <= j < i && Standalone(resources[j]) :: resources[j].Id()
    {
      if Standalone(resources[i]) {
        names := names + {resources[i].Id()};
      }
    }
  }

  lemma {:induction false} ByIdKeys(rs: seq<Resource>)
    ensures ById(rs).Keys == Ids(rs)
  {
    if rs != [] {
      var n := |rs| - 1;
      ByIdKeys(rs[..n]);
      assert rs == rs[..n] + [rs[n]];
    }
  }

  lemma {:induction false} ByIdAppend(a: seq<Resource>, b: seq<Resource>)
    ensures ById(a + b) == ById(a) + ById(b)
  {
    if b == [] {
      assert a + b == a;
    } else {
      var n := |b| - 1;
      ByIdAppend(a, b[..n]);
      assert (a + b)[..|a + b| - 1] == a + b[..n];
    }
  }

  lemma {:induction false} ByIdDistinct(rs: seq<Resource>, k: nat)
    requires k < |rs| && forall i, j :: 0 <= i < j < |rs| ==> rs[i].Id() != rs[j].Id()
    ensures rs[k].Id() in ById(rs) && ById(rs)[rs[k].Id()] == rs[k]
  {
    var n := |rs| - 1;
    if k < n {
      ByIdDistinct(rs[..n], k);
    }
  }

  lemma ItemsIds(s: ToolSetSpec, tools: seq<Resource>)
    requires ItemsOnce(s, EnabledItems(s), tools)
    ensures Ids(tools) == ItemIds(s) && forall x :: x in tools ==> Standalone(x)
    ensures forall i, j :: 0 <= i < j < |tools| ==> tools[i].Id() != tools[j].Id()
  {
    forall id ensures id in Ids(tools) <==> id in ItemIds(s) {
      if id in ItemIds(s) {
        assert id.name in EnabledItems(s);
        var k :| 0 <= k < |tools| && tools[k].name == id.name;
        assert tools[k].Id() == id;
      }
    }
  }

  lemma ItemsContribute(res: Resource, tools: seq<Resource>)
    requires res.ToolSetRes? && ItemsOnce(res.toolSet, EnabledItems(res.toolSet), tools)
    ensures ById(tools) == Contribution(res)
  {
    var s := res.toolSet;
    ItemsIds(s, tools);
    ByIdKeys(tools);
    forall id | id in ItemIds(s) ensures ById(tools)[id] == ItemTool(s, id.name, s.tools[id.name]) {
      assert id in Ids(tools);
      var k :| 0 <= k < |tools| && tools[k].Id() == id;
      ByIdDistinct(tools, k);
    }
  }

  lemma PrefixSets(resources: seq<Resource>, i: nat)
    requires i < |resources|
    ensures FromSets(resources[..i + 1]) ==
            FromSets(resources[..i]) + (if resources[i].ToolSetRes? then ItemIds(resources[i].toolSet) else {})
    ensures Desired(resources[..i + 1]) == Desired(resources[..i]) + Contribution(resources[i])
  {
    assert resources[..i + 1][..i] == resources[..i];
  }

  /** The state of the main loop after a prefix: names are taken by standalone resources or by earlier sets. */
  ghost predicate Expanded(resources: seq<Resource>, i: nat, names: set<NodeID>, out: seq<Resource>)
    requires i <= |resources|
  {
    && names == StandaloneIds(resources) + FromSets(resources[..i])
    && FromSets(resources[..i]) !! StandaloneIds(resources)
    && Expansion(resources[..i], out)
    && Ids(out) <= names
  }

  lemma ExpandedStandalone(resources: seq<Resource>, i: nat, names: set<NodeID>, out: seq<Resource>)
    requires i < |resources| && Expanded(resources, i, names, out) && Standalone(resources[i])
    ensures Expanded(resources, i + 1, names, out + [resources[i]])
  {
    hide Desired, FromSets, ById, Contribution, Ids, StandaloneIds, Asked;
    var x, out' := resources[i], out + [resources[i]];
    PrefixSets(resources, i);
    ByIdAppend(out, [x]);
    OneStandalone(resources, i);
    IdsAppend(out, [x]);
    IdsOf(out);
    forall y ensures y in out' <==> Asked(resources[..i + 1], y) {
      AskedOneMore(resources, i, y);
      OneStandalone(resources, i);
    }
  }

  lemma OneStandalone(resources: seq<Resource>, i: nat)
    requires i < |resources| && Standalone(resources[i])
    ensures var x := resources[i];
            && ById([x]) == Contribution(x) == map[x.Id() := x] && Ids([x]) == {x.Id()}
            && x.Id() in StandaloneIds(resources) && forall y :: !AskedBySet(x, y)
  {
    assert [resources[i]][..0] == [];
    assert Ids([resources[i]]) == {resources[i].Id()};
  }

  lemma IdsOf(rs: seq<Resource>)
    ensures forall x :: x in rs ==> x.Id() in Ids(rs)
  {
  }

  lemma ExpandedSet(resources: seq<Resource>, i: nat, names: set<NodeID>, out: seq<Resource>, tools: seq<Resource>)
    requires i < |resources| && Expanded(resources, i, names, out) && resources[i].ToolSetRes?
    requires ItemsOnce(resources[i].toolSet, EnabledItems(resources[i].toolSet), tools) && Ids(tools) !! names
    ensures Expanded(resources, i + 1, names + Ids(tools), out + tools)
  {
    hide Desired, FromSets, ById, Contribution, ItemsOnce, Ids, StandaloneIds, Asked;
    PrefixSets(resources, i);
    ItemsIds(resources[i].toolSet, tools);
    ItemsContribute(resources[i], tools);
    ByIdAppend(out, tools);
    ByIdKeys(tools);
    IdsAppend(out, tools);
    AskedAppend(resources, i, out, tools);
    UniqueAppend(out, tools, FromSets(resources[..i]), names);
  }

  lemma NothingExpanded(resources: seq<Resource>)
    ensures Expansion(resources[..0], [])
  {
  }

  lemma ExpandedNothing(resources: seq<Resource>, i: nat, names: set<NodeID>, out: seq<Resource>)
    requires i < |resources| && Expanded(resources, i, names, out) && !resources[i].Enabled()
    ensures Expanded(resources, i + 1, names, out + [])
  {
    hide Asked;
    PrefixSets(resources, i);
    assert Desired(resources[..i]) + map[] == Desired(resources[..i]);
    assert out + [] == out;
    forall y ensures y in out <==> Asked(resources[..i + 1], y) {
      AskedOneMore(resources, i, y);
    }
  }

  lemma AskedAppend(resources: seq<Resource>, i: nat, out: seq<Resource>, tools: seq<Resource>)
    requires i < |resources| && resources[i].ToolSetRes? && forall x :: x in out <==> Asked(resources[..i], x)
    requires ItemsOnce(resources[i].toolSet, EnabledItems(resources[i].toolSet), tools)
    ensures forall x :: x in out + tools <==> Asked(resources[..i + 1], x)
  {
    hide Asked;
    var s := resources[i].toolSet;
    forall x ensures x in out + tools <==> Asked(resources[..i + 1], x) {
      AskedOneMore(resources, i, x);
      if AskedBySet(resources[i], x) {
        assert x.name in EnabledItems(s);
        var k :| 0 <= k < |tools| && tools[k].name == x.name;
        assert tools[k] == x;
      }
    }
  }

  lemma IdsAppend(a: seq<Resource>, b: seq<Resource>)
    ensures Ids(a + b) == Ids(a) + Ids(b)
  {
  }

  lemma UniqueAppend(out: seq<Resource>, tools: seq<Resource>, sets: set<NodeID>, names: set<NodeID>)
    requires forall k, l :: 0 <= k < l < |out| && out[k].Id() == out[l].Id() ==> out[k].Id() !in sets
    requires forall i, j :: 0 <= i < j < |tools| ==> tools[i].Id() != tools[j].Id()
    requires Ids(out) <= names && Ids(tools) !! names
    ensures var all := out + tools;
            forall k, l :: 0 <= k < l < |all| && all[k].Id() == all[l].Id() ==> all[k].Id() !in sets + Ids(tools)
  {
    var all := out + tools;
    forall k | 0 <= k < |out| ensures all[k] == out[k] && all[k].Id() in Ids(out) {
      assert out[k] in out;
    }
    forall k | |out| <= k < |all| ensures all[k] == tools[k - |out|] && all[k].Id() in Ids(tools) {
      assert tools[k - |out|] in tools;
    }
  }

  /** Fails exactly on a conflict, and is the identity on its own results. */
  method ExpandSets(resources: seq<Resource>) returns (r: Result<seq<Resource>, ()>)
    ensures r.Err? <==> Conflict(resources)
    ensures r.Ok? ==> Expansion(resources, r.value)
    ensures (forall x :: x in resources ==> Standalone(x)) ==> r == Ok(resources)
  {
    hide Expansion, ClashFree;
    var names := RegisterStandalone(resources);
    var out: seq<Resource> := [];
    NothingExpanded(resources);
    for i := 0 to |resources|
      invariant Expanded(resources, i, names, out)
      invariant ClashFreeBefore(resources, i)
      invariant (forall x :: x in resources ==> Standalone(x)) ==> out == resources[..i]
    {
      assert resources[i] in resources;
      var ok, more, names' := ExpandOne(resources, i, names, out);
      if !ok {
        return Err(());
      }
      OneMoreClashFree(resources, i);
      out, names := out + more, names';
      assert resources[..i + 1] == resources[..i] + [resources[i]];
    }
    assert resources[..|resources|] == resources;
    r := Ok(out);
  }

  /** One round of the main loop: what resource i adds to the output, unless it conflicts. */
  method ExpandOne(resources: seq<Resource>, i: nat, names: set<NodeID>, ghost out: seq<Resource>)
    returns (ok: bool, more: seq<Resource>, names': set<NodeID>)
    requires i < |resources| && Expanded(resources, i, names, out)
    ensures !ok ==> !ClashFree(resources, i)
    ensures ok ==> Expanded(resources, i + 1, names', out + more)
    ensures ok ==> ClashFree(resources, i)
    ensures Standalone(resources[i]) ==> ok && more == [resources[i]]
  {
    hide Expansion, ItemsOnce, StandaloneIds, FromSets;
    var res := resources[i];
    if !res.Enabled() {
      ExpandedNothing(resources, i, names, out);
      return true, [], names;
    }
    if !res.ToolSetRes? {
      ExpandedStandalone(resources, i, names, out);
      return true, [res], names;
    }
    more := Expand(res.toolSet);
    ItemsIds(res.toolSet, more);
    ok, names' := Claim(names, more);
    if ok {
      ExpandedSet(resources, i, names, out, more);
    }
  }

  /** Expanding twice is expanding once: the command expands, then the engine expands again. What comes out has no
      conflict, is its own expansion, and any other expansion of it asks for the same. */
  lemma ExpandTwice(resources: seq<Resource>, once: seq<Resource>, twice: seq<Resource>)
    requires Expansion(resources, once)
    ensures !Conflict(once) && Expansion(once, once)
    ensures Expansion(once, twice) ==> ById(twice) == ById(once) && forall x :: x in twice <==> x in once
  {
    hide Expansion, Desired, ById;
    Settled(resources, once);
    NoSets(once);
    Settled(once, once);
    if Expansion(once, twice) {
      Settled(once, twice);
    }
  }

  lemma Settled(resources: seq<Resource>, out: seq<Resource>)
    requires Expansion(resources, out)
    ensures forall x :: x in out ==> Standalone(x)
    ensures forall x :: x in out <==> Asked(resources, x)
    ensures ById(out) == Desired(resources)
  {
  }

  /** Among standalone resources there is nothing to expand and nothing to clash. */
  lemma NoSets(rs: seq<Resource>)
    requires forall x :: x in rs ==> Standalone(x)
    ensures Expansion(rs, rs) && !Conflict(rs)
  {
    hide Desired, FromSets, ById, Contribution, ItemIds, Resource.Enabled;
    forall i | 0 <= i < |rs| ensures !rs[i].ToolSetRes? {
      assert rs[i] in rs;
    }
    NothingAdded(rs);
  }

  lemma {:induction false} NothingAdded(rs: seq<Resource>)
    requires forall x :: x in rs ==> Standalone(x)
    ensures Desired(rs) == ById(rs) && FromSets(rs) == {}
  {
    if rs != [] {
      var n := |rs| - 1;
      NothingAdded(rs[..n]);
      assert rs[n] in rs && Standalone(rs[n]);
      assert Contribution(rs[n]) == map[rs[n].Id() := rs[n]];
      assert ById(rs[..n]) + map[rs[n].Id() := rs[n]] == ById(rs);
    }
  }

  // ----- Extraction by kind ---------------------------------------------------------------------

  function OfKind(resources: seq<Resource>, kind: Kind): seq<Resource> {
    if resources == [] then []
    else var n := |resources| - 1;
      OfKind(resources[..n], kind) + (if resources[n].Kind() == kind then [resources[n]] else [])
  }

  function NameOf(res: Resource): string { res.name }

  /** Indexing the resources of one kind by name is reading that kind off the index by identity. */
  lemma {:induction false} OfKindByName(resources: seq<Resource>, kind: Kind, name: string)
    ensures Get(Reconciler.ByName(NameOf, OfKind(resources, kind)), name) == Get(ById(resources), NodeID(kind, name))
  {
    if resources != [] {
      var n := |resources| - 1;
      OfKindByName(resources[..n], kind, name);
      if resources[n].Kind() == kind {
        var tail := OfKind(resources[..n], kind);
        assert (tail + [resources[n]])[..|tail|] == tail;
      } else {
        assert OfKind(resources[..n], kind) + [] == OfKind(resources[..n], kind);
      }
    }
  }

  // ----- The expanded manifest in the fields of its parts -----------------------------------------------

  /** A tool that asks for just what an item of a set asks for. */
  ghost predicate AsItem(s: ToolSetSpec, name: string, item: ToolItem, x: Resource) {
    && x.ToolRes? && x.name == name
    && x.tool.installerRef == s.installerRef && x.tool.repositoryRef == s.repositoryRef
    && x.tool.runtimeRef == s.runtimeRef
    && x.tool.version == item.version && x.tool.source == item.source && x.tool.package == item.package
    && x.tool.binaryName == item.binaryName && x.tool.args == item.args
    && x.tool.commands == None && x.tool.enabled == None
  }

  ghost predicate Disabled(x: Resource) {
    x.ToolRes? && x.tool.enabled == Some(false)
  }

  /** Every tool of the expanded manifest stands in the manifest, or is an item of a set in it; what is disabled is left
      out, and nothing else. */
  lemma ExpandedMeans(resources: seq<Resource>, out: seq<Resource>, x: Resource)
    requires Expansion(resources, out)
    ensures x in out <==>
            || (x in resources && !x.ToolSetRes? && !Disabled(x))
            || exists group, n :: group in resources && group.ToolSetRes? && n in group.toolSet.tools &&
                 group.toolSet.tools[n].enabled != Some(false) && AsItem(group.toolSet, n, group.toolSet.tools[n], x)
  {
  }
}
