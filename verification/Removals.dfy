/** At the end of a run: entries that the manifest no longer asks for are removed, tools first, then
    repositories, then runtimes, unless a runtime is still named by a tool of the manifest. */
module Removals {
  import opened Resources
  import opened Graph
  import opened Kahn
  import opened StateStore
  import opened Execution
  import opened Nodes
  import opened Plans
  import Manifest

  datatype End = Completed | Refused | Broken

  ghost function Gone(want: map<NodeID, Resource>, s: Snapshot): set<NodeID> {
    s.Keys - want.Keys
  }

  ghost function GoneOf(want: map<NodeID, Resource>, s: Snapshot, kind: Kind): set<NodeID> {
    set id | id in Gone(want, s) && id.kind == kind
  }

  /** Removals of one kind: each entry was recorded, unwanted, and really removed. */
  ghost predicate Swept(want: map<NodeID, Resource>, s: Snapshot, kind: Kind, ids: seq<NodeID>, world: World) {
    && NoDup(ids)
    && Members(ids) <= GoneOf(want, s, kind)
    && forall id :: id in ids ==> world(PhaseRemove, id).removed
  }

  ghost predicate Stuck(want: map<NodeID, Resource>, s: Snapshot, kind: Kind, ids: seq<NodeID>, world: World) {
    exists id :: id in GoneOf(want, s, kind) && id !in ids && !world(PhaseRemove, id).removed
  }

  /** A prefix of the action list of one kind, seen as removals. */
  ghost predicate Reached(kind: Kind, want: map<NodeID, Resource>, s: Snapshot, actions: seq<PlanAction>, i: nat,
                          ids: seq<NodeID>, world: World)
  {
    && i <= |actions|
    && Swept(want, s, kind, ids, world)
    && forall id :: id in ids <==>
      exists j :: 0 <= j < i && actions[j].typ == ActionRemove && NodeID(kind, actions[j].name) == id
  }

  lemma ReachedStart(kind: Kind, want: map<NodeID, Resource>, s: Snapshot, actions: seq<PlanAction>, world: World)
    ensures Reached(kind, want, s, actions, 0, [], world)
  {
  }

  lemma ReachedMore(kind: Kind, want: map<NodeID, Resource>, s: Snapshot, actions: seq<PlanAction>, i: nat,
                    ids: seq<NodeID>, world: World)
    requires Lists(kind, want, s, actions) && Reached(kind, want, s, actions, i, ids, world) && i < |actions|
    ensures var id := NodeID(kind, actions[i].name);
            if actions[i].typ != ActionRemove then Reached(kind, want, s, actions, i + 1, ids, world)
            else
              && id !in ids && id in GoneOf(want, s, kind)
              && (if world(PhaseRemove, id).removed then Reached(kind, want, s, actions, i + 1, ids + [id], world)
                  else Stuck(want, s, kind, ids, world))
  {
  }

  lemma ReachedEnd(kind: Kind, want: map<NodeID, Resource>, s: Snapshot, actions: seq<PlanAction>, ids: seq<NodeID>,
                   world: World)
    requires Lists(kind, want, s, actions) && Reached(kind, want, s, actions, |actions|, ids, world)
    ensures Members(ids) == GoneOf(want, s, kind)
  {
  }

  /** Stops at the first failure. */
  method RemoveKind(x: Executor, kind: Kind, actions: seq<PlanAction>, ghost want: map<NodeID, Resource>,
                    ghost s: Snapshot, world: World, p: Progress)
    returns (ok: bool, ghost ids: seq<NodeID>)
    requires x.Wired() && x.sc.Valid() && p.Counted() && Managed(kind) && Lists(kind, want, s, actions)
    modifies x.sc.cache, x.sc`dirty, x.sc`history, p`total, p`removed
    ensures x.sc.Valid() && p.Counted() && x.sc.cache == old(x.sc.cache)
    ensures p.removed == old(p.removed) + ids && x.sc.Now() == old(x.sc.Now()) - Members(ids)
    ensures Swept(want, s, kind, ids, world)
    ensures if ok then Members(ids) == GoneOf(want, s, kind) else Stuck(want, s, kind, ids, world)
  {
    hide View, EntryOf, Lists, Swept, Stuck;
    ids := [];
    ReachedStart(kind, want, s, actions, world);
    for i := 0 to |actions|
      invariant x.sc.Valid() && p.Counted() && x.sc.cache == old(x.sc.cache)
      invariant p.removed == old(p.removed) + ids && x.sc.Now() == old(x.sc.Now()) - Members(ids)
      invariant Reached(kind, want, s, actions, i, ids, world)
    {
      ReachedMore(kind, want, s, actions, i, ids, world);
      if actions[i].typ == ActionRemove {
        var id := NodeID(kind, actions[i].name);
        ok := x.Drop(kind, actions[i].name, world(PhaseRemove, id));
        if !ok {
          return;
        }
        assert Members(ids + [id]) == Members(ids) + {id};
        ids := ids + [id];
        p.removed := p.removed + [id];
        p.total := p.total + 1;
      }
    }
    ReachedEnd(kind, want, s, actions, ids, world);
    ok := true;
  }

  // ----- The whole phase ------------------------------------------------------------------------

  function Rank(kind: Kind): nat {
    match kind
    case KindTool => 0
    case KindInstallerRepository => 1
    case _ => 2
  }

  /** Tools, then repositories, then runtimes; nothing of a kind while something of an earlier kind is left. */
  ghost predicate InOrder(want: map<NodeID, Resource>, s: Snapshot, ids: seq<NodeID>) {
    && (forall i, j :: 0 <= i < j < |ids| ==> Rank(ids[i].kind) <= Rank(ids[j].kind))
    && (forall id, d :: id in ids && d in Gone(want, s) && Rank(d.kind) < Rank(id.kind) ==> d in ids)
  }

  /** The same by name: no tool after a repository, none of the two after a runtime, and nothing of a kind is removed
      while one to go of the kinds before it is left. */
  ghost predicate KindsInOrder(want: map<NodeID, Resource>, s: Snapshot, ids: seq<NodeID>) {
    && (forall i, j :: 0 <= i < j < |ids| ==>
         && (ids[i].kind != KindTool ==> ids[j].kind != KindTool)
         && (ids[i].kind == KindRuntime ==> ids[j].kind == KindRuntime))
    && (forall id, d :: id in ids && d in Gone(want, s) && d !in ids ==>
         && (d.kind == KindTool ==> id.kind == KindTool)
         && (d.kind == KindInstallerRepository ==> id.kind in {KindTool, KindInstallerRepository}))
  }

  /** The phase is refused exactly when a tool of the manifest names a runtime that would go, and then nothing
      is removed; an entry leaves the cache exactly when its removal succeeded. */
  ghost predicate Cleaned(resources: seq<Resource>, want: map<NodeID, Resource>, before: Snapshot, ids: seq<NodeID>,
                          after: Snapshot, end: End, world: World)
  {
    && NoDup(ids) && Members(ids) <= Gone(want, before)
    && after == before - Members(ids)
    && InOrder(want, before, ids)
    && (forall id :: id in ids ==> world(PhaseRemove, id).removed)
    && (forall id :: id in ids && id.kind == KindRuntime ==> !Named(resources, id))
    && (end.Refused? <==> exists id :: id in GoneOf(want, before, KindRuntime) && Named(resources, id))
    && (end.Refused? ==> ids == [])
    && (end.Completed? ==> Members(ids) == Gone(want, before))
    && (end.Broken? ==> exists id :: id in Gone(want, before) && id !in ids && !world(PhaseRemove, id).removed)
  }

  /** How far the three lists got. */
  ghost predicate Sweeps(want: map<NodeID, Resource>, s: Snapshot, t: seq<NodeID>, r: seq<NodeID>, u: seq<NodeID>,
                         world: World, end: End)
  {
    && Swept(want, s, KindTool, t, world) && Swept(want, s, KindInstallerRepository, r, world) &&
      Swept(want, s, KindRuntime, u, world)
    && (r != [] || u != [] || end.Completed? ==> Members(t) == GoneOf(want, s, KindTool))
    && (u != [] || end.Completed? ==> Members(r) == GoneOf(want, s, KindInstallerRepository))
    && (end.Completed? ==> Members(u) == GoneOf(want, s, KindRuntime))
    && (end.Broken? ==>
         || Stuck(want, s, KindTool, t, world)
         || Stuck(want, s, KindInstallerRepository, r, world)
         || Stuck(want, s, KindRuntime, u, world))
  }

  lemma SweepsInOrder(want: map<NodeID, Resource>, s: Snapshot, t: seq<NodeID>, r: seq<NodeID>, u: seq<NodeID>,
                      world: World, end: End)
    requires WellTyped(s) && Sweeps(want, s, t, r, u, world, end)
    ensures NoDup(t + r + u) && InOrder(want, s, t + r + u) && KindsInOrder(want, s, t + r + u)
  {
    var ids := t + r + u;
    forall i | 0 <= i < |ids|
      ensures ids[i].kind == if i < |t| then KindTool else if i < |t| + |r| then KindInstallerRepository
        else KindRuntime
    {
      assert if i < |t| then ids[i] in Members(t) else if i < |t| + |r| then ids[i] in Members(r)
        else ids[i] in Members(u);
    }
    forall id, d | id in ids && d in Gone(want, s) && Rank(d.kind) < Rank(id.kind) ensures d in ids {
      assert s[d].Fits(d.kind);
      assert d in GoneOf(want, s, d.kind);
      assert id in t ==> id in Members(t);
      assert d.kind == KindTool ==> d in Members(t);
      assert d.kind == KindInstallerRepository ==> d in Members(r);
    }
    ByKind(want, s, ids);
  }

  lemma ByKind(want: map<NodeID, Resource>, s: Snapshot, ids: seq<NodeID>)
    requires InOrder(want, s, ids) && forall id :: id in ids ==> Managed(id.kind)
    ensures KindsInOrder(want, s, ids)
  {
    hide Gone;
    forall i, j | 0 <= i < j < |ids|
      ensures ids[i].kind != KindTool ==> ids[j].kind != KindTool
      ensures ids[i].kind == KindRuntime ==> ids[j].kind == KindRuntime
    {
      assert ids[j] in ids;
    }
    forall id, d | id in ids && d in Gone(want, s) && d !in ids
      ensures d.kind == KindTool ==> id.kind == KindTool
      ensures d.kind == KindInstallerRepository ==> id.kind in {KindTool, KindInstallerRepository}
    {
    }
  }

  lemma SweepsClean(resources: seq<Resource>, want: map<NodeID, Resource>, s: Snapshot, t: seq<NodeID>, r: seq<NodeID>,
                    u: seq<NodeID>, world: World, end: End, after: Snapshot)
    requires WellTyped(s) && Sweeps(want, s, t, r, u, world, end) && !end.Refused?
    requires after == s - Members(t) - Members(r) - Members(u)
    requires forall id :: id in GoneOf(want, s, KindRuntime) ==> !Named(resources, id)
    ensures Cleaned(resources, want, s, t + r + u, after, end, world)
  {
    hide InOrder, KindsInOrder, Named, Stuck, NoDup;
    var ids := t + r + u;
    SweepsInOrder(want, s, t, r, u, world, end);
    assert Members(ids) == Members(t) + Members(r) + Members(u);
    GoneByKind(want, s);
    forall id | id in ids && id.kind == KindRuntime ensures !Named(resources, id) {
      assert id in Members(ids);
    }
    if end.Broken? {
      StuckAll(want, s, t, r, u, world);
    }
  }

  lemma GoneByKind(want: map<NodeID, Resource>, s: Snapshot)
    requires WellTyped(s)
    ensures GoneOf(want, s, KindTool) + GoneOf(want, s, KindInstallerRepository) + GoneOf(want, s,
                                                                                          KindRuntime) == Gone(want, s)
  {
    forall id | id in Gone(want, s) ensures Managed(id.kind) {
      assert s[id].Fits(id.kind);
    }
  }

  lemma StuckAll(want: map<NodeID, Resource>, s: Snapshot, t: seq<NodeID>, r: seq<NodeID>, u: seq<NodeID>, world: World)
    requires Swept(want, s, KindTool, t, world) && Swept(want, s, KindInstallerRepository, r, world)
    requires Swept(want, s, KindRuntime, u, world)
    requires Stuck(want, s, KindTool, t, world) || Stuck(want, s, KindInstallerRepository, r, world) ||
      Stuck(want, s, KindRuntime, u, world)
    ensures exists id :: id in Gone(want, s) && id !in t + r + u && !world(PhaseRemove, id).removed
  {
  }

  method HandleRemovals(x: Executor, resources: seq<Resource>, world: World, p: Progress) returns (end: End)
    requires x.Wired() && x.sc.Valid() && p.Counted() && p.removed == []
    modifies x.sc.cache, x.sc`dirty, x.sc`history, p`total, p`removed
    ensures x.sc.Valid() && p.Counted()
    ensures Cleaned(resources, Manifest.ById(resources), old(x.sc.Now()), p.removed, x.sc.Now(), end, world)
  {
    hide View, EntryOf, Cleaned, Lists, Sweeps;
    ghost var want, s := Manifest.ById(resources), x.sc.Now();
    ViewWellTyped(x.sc.cache.data);
    var st := x.sc.Snapshot();
    var tools := ReconcileKind(resources, KindTool, st);
    var repos := ReconcileKind(resources, KindInstallerRepository, st);
    var runtimes := ReconcileKind(resources, KindRuntime, st);
    var removing := RemovalNames(runtimes);
    RemovalsAre(want, s, runtimes);
    if removing != {} {
      var allowed := CheckRemovalDependencies(removing, resources);
      if !allowed {
        RefusedIs(resources, want, s, removing, world);
        return Refused;
      }
    }
    NoneNamed(resources, want, s, removing);
    end := RemoveAll(x, resources, tools, repos, runtimes, want, s, world, p);
  }

  method RemoveAll(x: Executor, ghost resources: seq<Resource>, tools: seq<PlanAction>, repos: seq<PlanAction>,
                   runtimes: seq<PlanAction>, ghost want: map<NodeID, Resource>, ghost s: Snapshot, world: World,
                   p: Progress) returns (end: End)
    requires x.Wired() && x.sc.Valid() && p.Counted() && p.removed == [] && s == x.sc.Now() && WellTyped(s)
    requires Lists(KindTool, want, s, tools) && Lists(KindInstallerRepository, want, s, repos)
    requires Lists(KindRuntime, want, s, runtimes)
    requires forall id :: id in GoneOf(want, s, KindRuntime) ==> !Named(resources, id)
    modifies x.sc.cache, x.sc`dirty, x.sc`history, p`total, p`removed
    ensures x.sc.Valid() && p.Counted()
    ensures Cleaned(resources, want, s, p.removed, x.sc.Now(), end, world)
  {
    hide View, EntryOf, Cleaned, Lists, Swept, Stuck, Named;
    var ok, t := RemoveKind(x, KindTool, tools, want, s, world, p);
    NothingSwept(want, s, world);
    if !ok {
      assert p.removed == t + [] + [];
      SweepsClean(resources, want, s, t, [], [], world, Broken, x.sc.Now());
      return Broken;
    }
    ghost var r, u;
    ok, r := RemoveKind(x, KindInstallerRepository, repos, want, s, world, p);
    if !ok {
      assert p.removed == t + r + [];
      SweepsClean(resources, want, s, t, r, [], world, Broken, x.sc.Now());
      return Broken;
    }
    ok, u := RemoveKind(x, KindRuntime, runtimes, want, s, world, p);
    end := if ok then Completed else Broken;
    assert p.removed == t + r + u;
    SweepsClean(resources, want, s, t, r, u, world, end, x.sc.Now());
  }

  lemma NothingSwept(want: map<NodeID, Resource>, s: Snapshot, world: World)
    ensures forall kind :: Swept(want, s, kind, [], world)
  {
  }

  lemma RemovalsAre(want: map<NodeID, Resource>, s: Snapshot, runtimes: seq<PlanAction>)
    requires Lists(KindRuntime, want, s, runtimes)
    ensures forall n :: n in RemovalNames(runtimes) <==> NodeID(KindRuntime, n) in GoneOf(want, s, KindRuntime)
  {
  }

  lemma RefusedIs(resources: seq<Resource>, want: map<NodeID, Resource>, s: Snapshot, removing: set<string>,
                  world: World)
    requires forall n :: n in removing <==> NodeID(KindRuntime, n) in GoneOf(want, s, KindRuntime)
    requires exists n :: n in removing && Named(resources, NodeID(KindRuntime, n))
    ensures Cleaned(resources, want, s, [], s, Refused, world)
  {
  }

  lemma NoneNamed(resources: seq<Resource>, want: map<NodeID, Resource>, s: Snapshot, removing: set<string>)
    requires forall n :: n in removing <==> NodeID(KindRuntime, n) in GoneOf(want, s, KindRuntime)
    requires forall n :: n in removing ==> !Named(resources, NodeID(KindRuntime, n))
    ensures forall id :: id in GoneOf(want, s, KindRuntime) ==> !Named(resources, id)
  {
  }
}
