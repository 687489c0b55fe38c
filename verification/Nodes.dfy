/** Executing single nodes against the cached state: load, reconcile, install, save. */
module Nodes {
  import opened Prelude
  import opened Resources
  import opened Graph
  import opened Installers
  import opened Scheduler
  import opened StateStore
  import opened Execution
  import opened Phases
  import Reconciler
  import Manifest
  import Grouping

  /** A cancellable context: once cancelled it stays so; it may become so at any time. */
  class Context {
    var cancelled: bool

    method Err() returns (e: bool)
      modifies this
      ensures e == cancelled && (old(cancelled) ==> cancelled)
    {
      var signal: bool := *;
      if signal {
        cancelled := true;
      }
      e := cancelled;
    }
  }

  /** What the engine registers with the tool installer. */
  class ToolInstaller {
    var registry: Registry
    /** How often the home directory could not be found. */
    ghost var faults: nat
    /** How often it has been asked for. */
    ghost var asked: nat

    method HomeDirectory() returns (ok: bool)
      modifies this`faults, this`asked
      ensures faults == (if ok then old(faults) else old(faults) + 1) && asked == old(asked) + 1
    {
      asked := asked + 1;
      ok := *;
      if !ok {
        faults := faults + 1;
      }
    }

    method RegisterRuntime(name: string, info: RuntimeInfo)
      modifies this`registry
      ensures registry == old(registry).(runtimes := old(registry).runtimes[name := info])
    {
      registry := registry.(runtimes := registry.runtimes[name := info]);
    }

    method RegisterInstaller(name: string, info: InstallerInfo)
      modifies this`registry
      ensures registry == old(registry).(installers := old(registry).installers[name := info])
    {
      registry := registry.(installers := registry.installers[name := info]);
    }
  }

  /** The record of a run as a value. */
  datatype Record = Record(env: Env, manifest: seq<Resource>, graph: Graph, start: Snapshot, mid: Snapshot,
                           updated: set<NodeID>,
                           acted: set<NodeID>, log: seq<Event>, reinstalled: seq<NodeID>, removed: seq<NodeID>)

  /** The locals of one Apply that its callees update through pointers, and the record of the run. */
  class Progress {
    var updated: set<NodeID>
    var total: nat
    ghost var acted: set<NodeID>
    ghost var log: seq<Event>
    /** Tools reinstalled in the taint phase and entries removed in the removal phase, in order. */
    ghost var reinstalled: seq<NodeID>
    ghost var removed: seq<NodeID>
    /** What the tool installer knew when the layers began, and the outside world. */
    ghost var env: Env
    /** The expanded manifest, its graph, and the cached state before the first and after the last layer. */
    ghost var manifest: seq<Resource>
    ghost var graph: Graph
    ghost var start: Snapshot
    ghost var mid: Snapshot
    /** How many contents the file had had when the layers were over. */
    ghost var mark: nat

    /** Every action that succeeded is counted once. */
    ghost predicate Counted()
      reads this`total, this`acted, this`reinstalled, this`removed
    {
      total == |acted| + |reinstalled| + |removed|
    }

    ghost function Told(): Record
      reads this
    {
      Record(env, manifest, graph, start, mid, updated, acted, log, reinstalled, removed)
    }

    constructor (ghost env: Env)
      ensures this.env == env
      ensures Counted() && updated == {} && acted == {} && log == [] && reinstalled == [] && removed == []
    {
      this.env := env;
      updated, total := {}, 0;
      acted, log, reinstalled, removed := {}, [], [], [];
      manifest, graph, start, mid, mark := [], Graph({}, map[]), map[], map[], 0;
    }
  }

  class Executor {
    const sc: StateCache
    const toolStore: CachedStore
    const runtimeStore: CachedStore
    const repoStore: CachedStore
    const tools: ToolInstaller

    ghost predicate Wired() {
      && toolStore.cache == sc && toolStore.kind == KindTool
      && runtimeStore.cache == sc && runtimeStore.kind == KindRuntime
      && repoStore.cache == sc && repoStore.kind == KindInstallerRepository
    }

    constructor (sc: StateCache, tools: ToolInstaller)
      ensures this.sc == sc && this.tools == tools && Wired()
    {
      this.sc, this.tools := sc, tools;
      toolStore := new CachedStore(sc, KindTool);
      runtimeStore := new CachedStore(sc, KindRuntime);
      repoStore := new CachedStore(sc, KindInstallerRepository);
    }

    function StoreFor(kind: Kind): CachedStore
      requires Managed(kind)
    {
      match kind
      case KindTool => toolStore
      case KindRuntime => runtimeStore
      case _ => repoStore
    }

    ghost function Here(p: Progress): (a: Point)
      requires sc.cache != null
      reads sc, sc.cache, p
      ensures a.cache == sc.Now() && a.updated == p.updated && a.acted == p.acted && a.log == p.log
    {
      Point(sc.Now(), p.updated, p.acted, p.log)
    }

    /** Loads a resource's own entry and reconciles the resource against it alone. */
    method Plan(res: Resource) returns (act: ActionType, cur: Option<Entry>)
      requires Wired() && sc.cache != null && Managed(res.Kind())
      ensures cur == Get(sc.Now(), res.Id()) && act == ActionOf(res, cur) && (cur.Some? ==> cur.value.Fits(res.Kind()))
    {
      hide View, EntryOf;
      cur := StoreFor(res.Kind()).Load(res.name);
      var states := if cur.Some? then map[res.name := cur.value] else map[];
      var actions := Reconciler.Reconcile(Manifest.NameOf, Stale, [res], states);
      AloneDecides(res, cur, actions);
      act := if actions == [] then ActionNone else actions[0].typ;
    }

    /** Install, then save: the entry is replaced exactly when the installation succeeded. */
    method Perform(res: Resource, act: ActionType, fate: Fate) returns (ok: bool)
      requires Wired() && sc.Valid() && Managed(res.Kind())
      modifies sc.cache, sc`dirty, sc`history
      ensures sc.Valid()
      ensures var e := Install(tools.registry, fate, res, act);
              ok == e.Some? && sc.Now() == if ok then old(sc.Now())[res.Id() := e.value] else old(sc.Now())
      ensures !ok ==> sc.dirty == old(sc.dirty)
    {
      hide View, EntryOf;
      var e := Install(tools.registry, fate, res, act);
      if e.None? {
        return false;
      }
      InstallFixpoint(tools.registry, fate, res, act);
      StoreFor(res.Kind()).Save(res.name, e.value);
      ok := true;
    }

    /** Remove, then delete the entry. */
    method Drop(kind: Kind, name: string, fate: Fate) returns (ok: bool)
      requires Wired() && sc.Valid() && Managed(kind)
      modifies sc.cache, sc`dirty, sc`history
      ensures sc.Valid() && ok == fate.removed
      ensures sc.Now() == if ok then old(sc.Now()) - {NodeID(kind, name)} else old(sc.Now())
      ensures !ok ==> sc.dirty == old(sc.dirty)
    {
      hide View, EntryOf;
      if !fate.removed {
        return false;
      }
      StoreFor(kind).Delete(name);
      ok := true;
    }

    /** Plans one resource and performs what it owes. */
    method ExecuteResource(res: Resource, fate: Fate, p: Progress) returns (ok: bool)
      requires Wired() && sc.Valid() && Managed(res.Kind()) && p.Counted() && res.Id() !in p.acted
      modifies sc.cache, sc`dirty, sc`history, p`updated, p`total, p`acted
      ensures sc.Valid() && p.Counted()
      ensures var r := RunResource(tools.registry, fate, res, Get(old(sc.Now()), res.Id()));
              ok == !r.Broke? && Here(p) == AfterRun(old(Here(p)), res.Id(), r)
    {
      hide View, EntryOf, Execution.Install, ActionOf, VersionChanged, StateCache.Valid, StateCache.Usable;
      var act, cur := Plan(res);
      if act == ActionNone {
        return true;
      }
      ok := Perform(res, act, fate);
      if ok {
        p.total := p.total + 1;
        p.acted := p.acted + {res.Id()};
        NoteUpgrade(res, act, cur, p);
      }
    }

    /** Only an upgrade that really changed the version of a runtime counts as an update of it. */
    method NoteUpgrade(res: Resource, act: ActionType, cur: Option<Entry>, p: Progress)
      requires Wired() && sc.cache != null && act == ActionOf(res, cur) && act != ActionNone
      requires (cur.Some? ==> cur.value.Fits(res.Kind()))
      modifies p`updated
      ensures p.updated == if VersionChanged(cur, Get(sc.Now(), res.Id())) then old(p.updated) + {res.Id()}
        else old(p.updated)
      ensures p.updated == old(p.updated) +
                set id | id == res.Id() && cur.Some? && cur.value.RuntimeEntry? && id in sc.Now() &&
                         sc.Now()[id].RuntimeEntry? && sc.Now()[id].runtime.version != cur.value.runtime.version
    {
      hide View, EntryOf;
      if res.RuntimeRes? && act == ActionUpgrade {
        var now := runtimeStore.Load(res.name);
        if VersionChanged(cur, now) {
          p.updated := p.updated + {res.Id()};
        }
      }
    }

    /** One node of the graph. */
    method ExecuteNode(id: NodeID, want: map<NodeID, Resource>, world: World, p: Progress) returns (ok: bool)
      requires Wired() && sc.Valid() && Grouping.Indexed(want) && p.Counted() && id !in p.acted
      modifies sc.cache, sc`dirty, sc`history, p`updated, p`total, p`acted, p`log
      ensures sc.Valid() && p.Counted()
      ensures var r := RunNode(want, tools.registry, world(PhaseDAG, id), id, Get(old(sc.Now()), id));
              ok == !r.Broke? && Here(p) == AfterNode(old(Here(p)), id, r)
    {
      hide View, EntryOf;
      ghost var r := RunNode(want, tools.registry, world(PhaseDAG, id), id, Get(sc.Now(), id));
      p.log := p.log + ([Enter(id)] + Trace(id, r));
      ok := true;
      if id in want && Managed(id.kind) {
        assert want[id].Id() == id;
        ok := ExecuteResource(want[id], world(PhaseDAG, id), p);
      }
    }
  }

  lemma AloneDecides(res: Resource, cur: Option<Entry>, actions: seq<Reconciler.Action<Resource, Entry>>)
    requires Reconciler.Settles(Stale, Reconciler.ByName(Manifest.NameOf, [res]),
                                if cur.Some? then map[res.name := cur.value] else map[], actions)
    ensures ActionOf(res, cur) == if actions == [] then ActionNone else actions[0].typ
  {
    var want := Reconciler.ByName(Manifest.NameOf, [res]);
    assert [res][..0] == [];
    assert Reconciler.ByName(Manifest.NameOf, []) == map[];
    assert Manifest.NameOf(res) == res.name;
    assert want == map[res.name := res];
    var states := if cur.Some? then map[res.name := cur.value] else map[];
    var o := Reconciler.Owed(Stale, want, states, res.name);
    if actions != [] {
      assert actions[0].name == res.name;
      assert o == Some(actions[0]);
    }
  }
}
