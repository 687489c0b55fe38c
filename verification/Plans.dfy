/** What the reconciler lists for a whole manifest, and which runtimes may not be removed. */
module Plans {
  import opened Prelude
  import opened Resources
  import opened StateStore
  import opened Execution
  import opened Manifest
  import Grouping
  import Reconciler

  type PlanAction = Reconciler.Action<Resource, Entry>

  /** What an identity is owed, from the manifest and the state alone. */
  function Planned(want: map<NodeID, Resource>, s: Snapshot, id: NodeID): ActionType {
    if id in want then ActionOf(want[id], Get(s, id)) else if id in s then ActionRemove else ActionNone
  }

  /** The actions of one kind are exactly what the names of that kind are owed, one action a name, removals
      last; only a removal comes without a resource. */
  ghost predicate Lists(kind: Kind, want: map<NodeID, Resource>, s: Snapshot, actions: seq<PlanAction>) {
    && (forall i :: 0 <= i < |actions| ==> Fitting(kind, want, s, actions[i]))
    && (forall n :: Planned(want, s, NodeID(kind, n)) != ActionNone ==>
        exists i :: 0 <= i < |actions| && actions[i].name == n)
    && (forall i, j :: 0 <= i < j < |actions| ==> actions[i].name != actions[j].name)
    && Reconciler.RemovalsLast(actions)
  }

  predicate Fitting(kind: Kind, want: map<NodeID, Resource>, s: Snapshot, a: PlanAction) {
    var id := NodeID(kind, a.name);
    && a.typ == Planned(want, s, id) && a.typ != ActionNone
    && (a.typ == ActionRemove <==> id !in want)
    && a.resource == Get(want, id) && a.state == Get(s, id)
  }

  lemma OwedIsPlanned(resources: seq<Resource>, kind: Kind, s: Snapshot, states: map<string, Entry>, n: string)
    requires Get(states, n) == Get(s, NodeID(kind, n))
    ensures var o := Reconciler.Owed(Stale, Reconciler.ByName(NameOf, OfKind(resources, kind)), states, n);
            && (o.None? <==> Planned(ById(resources), s, NodeID(kind, n)) == ActionNone)
            && (o.Some? ==> o.value.name == n && Fitting(kind, ById(resources), s, o.value))
  {
    hide ById, Reconciler.ByName, Stale;
    OfKindByName(resources, kind, n);
  }

  lemma SettlesLists(resources: seq<Resource>, kind: Kind, s: Snapshot, states: map<string, Entry>,
                     actions: seq<PlanAction>)
    requires forall n :: Get(states, n) == Get(s, NodeID(kind, n))
    requires Reconciler.Settles(Stale, Reconciler.ByName(NameOf, OfKind(resources, kind)), states, actions)
    ensures Lists(kind, ById(resources), s, actions)
  {
    hide ById, Reconciler.ByName, Reconciler.Owed, Fitting, Planned, Stale, Reconciler.RemovalsLast;
    var want := Reconciler.ByName(NameOf, OfKind(resources, kind));
    forall i | 0 <= i < |actions| ensures Fitting(kind, ById(resources), s, actions[i]) {
      OwedIsPlanned(resources, kind, s, states, actions[i].name);
    }
    forall n | Planned(ById(resources), s, NodeID(kind, n)) != ActionNone
      ensures exists i :: 0 <= i < |actions| && actions[i].name == n
    {
      OwedIsPlanned(resources, kind, s, states, n);
      OwedNames(want, states, n);
    }
  }

  lemma OwedNames(want: map<string, Resource>, states: map<string, Entry>, n: string)
    requires Reconciler.Owed(Stale, want, states, n).Some?
    ensures n in want.Keys + states.Keys
  {
  }

  method ReconcileKind(resources: seq<Resource>, kind: Kind, st: UserState) returns (actions: seq<PlanAction>)
    ensures Lists(kind, ById(resources), st.Entries(), actions)
  {
    hide View, EntryOf, ById, Reconciler.Settles;
    var states := st.OfKind(kind);
    actions := Reconciler.Reconcile(NameOf, Stale, OfKind(resources, kind), states);
    SettlesLists(resources, kind, st.Entries(), states, actions);
  }

  /** A tool of the manifest names the runtime. */
  ghost predicate Named(resources: seq<Resource>, runtime: NodeID) {
    exists t :: t in resources && t.ToolRes? && t.tool.runtimeRef != "" &&
      NodeID(KindRuntime, t.tool.runtimeRef) == runtime
  }

  /** The names an action list removes. */
  function RemovalNames(actions: seq<PlanAction>): set<string> {
    set a | a in actions && a.typ == ActionRemove :: a.name
  }

  method CheckRemovalDependencies(removing: set<string>, resources: seq<Resource>) returns (ok: bool)
    ensures !ok <==> exists n :: n in removing && Named(resources, NodeID(KindRuntime, n))
  {
    var blocked: seq<string> := [];
    for i := 0 to |resources|
      invariant blocked == [] <==> forall n :: n in removing ==> !Named(resources[..i], NodeID(KindRuntime, n))
    {
      var t := resources[i];
      assert resources[..i + 1] == resources[..i] + [t];
      if t.ToolRes? && t.tool.runtimeRef != "" && t.tool.runtimeRef in removing {
        blocked := blocked + [t.name];
        assert t in resources[..i + 1] && Named(resources[..i + 1], NodeID(KindRuntime, t.tool.runtimeRef));
      } else {
        forall n | n in removing ensures Named(resources[..i + 1], NodeID(KindRuntime, n)) <==>
          Named(resources[..i], NodeID(KindRuntime, n)) {
        }
      }
    }
    assert resources[..|resources|] == resources;
    ok := blocked == [];
  }

  /** What a wanted tool, runtime or repository is owed: its installation if it is not recorded, nothing if it is
      recorded as its specification says, and an upgrade otherwise. */
  lemma OwedMeans(want: map<NodeID, Resource>, s: Snapshot, id: NodeID)
    requires Grouping.Indexed(want) && WellTyped(s) && id in want && Recordable(want[id])
    ensures Planned(want, s, id) == if id !in s then ActionInstall
                                    else if Matches(want[id], s[id]) then ActionNone else ActionUpgrade
  {
    hide Stale, Matches;
    assert want[id].Id() == id;
    if id in s {
      StaleMeans(want[id], s[id]);
    }
  }
}
