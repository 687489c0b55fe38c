/** After all layers: the tools of upgraded runtimes are marked, the marks are saved, and every tool that is
    then stale is installed again, one after another. */
module TaintPhase {
  import opened Prelude
  import opened Resources
  import opened Graph
  import opened Installers
  import opened StateStore
  import opened Execution
  import opened Nodes
  import opened Taints
  import opened Plans
  import Grouping
  import Manifest

  /** Crashed: the program dereferences the missing resource of a removal and panics. */
  datatype End = Completed | FlushFailed | Broken | Crashed

  /** Each of ids has a fresh entry; everything else is as before. */
  ghost predicate Reinstalled(want: map<NodeID, Resource>, before: Snapshot, ids: seq<NodeID>, after: Snapshot) {
    && NoDup(ids)
    && (forall id :: id in ids ==> id in want && id in after && after[id].Fits(id.kind) && !Stale(want[id], after[id]))
    && (forall id :: id !in ids ==> Get(after, id) == Get(before, id))
  }

  lemma ReinstalledOneMore(want: map<NodeID, Resource>, before: Snapshot, ids: seq<NodeID>, now: Snapshot, id: NodeID,
                           e: Entry)
    requires Reinstalled(want, before, ids, now) && id !in ids && id in want && e.Fits(id.kind) && !Stale(want[id], e)
    ensures Reinstalled(want, before, ids + [id], now[id := e])
  {
  }

  predicate Reinstalls(want: map<NodeID, Resource>, s: Snapshot, id: NodeID) {
    id.kind == KindTool && id in want && Planned(want, s, id) != ActionNone
  }

  /** How far the loop over the actions got: to its end, to a failed installation, or to a removal. */
  ghost predicate Progressed(want: map<NodeID, Resource>, s: Snapshot, ids: seq<NodeID>, end: End) {
    && (forall id :: id in ids ==> Reinstalls(want, s, id))
    && (end.Completed? ==> forall id: NodeID :: id.kind == KindTool && Planned(want, s, id) != ActionNone ==> id in ids)
    && (end.Crashed? ==> (exists id :: StaleTool(want, s, id)) && forall id :: Reinstalls(want, s, id) ==> id in ids)
    && (end.Broken? ==> exists id :: id !in ids && Reinstalls(want, s, id))
    && !end.FlushFailed?
  }

  /** A recorded tool that the manifest no longer names. */
  predicate StaleTool(want: map<NodeID, Resource>, s: Snapshot, id: NodeID) {
    id.kind == KindTool && id in s && id !in want
  }

  ghost function Targets(actions: seq<PlanAction>, i: nat): (ids: seq<NodeID>)
    requires i <= |actions|
    ensures |ids| == i && forall j :: 0 <= j < i ==> ids[j] == NodeID(KindTool, actions[j].name)
  {
    seq(i, j requires 0 <= j < i => NodeID(KindTool, actions[j].name))
  }

  lemma TargetsNoDup(want: map<NodeID, Resource>, s: Snapshot, actions: seq<PlanAction>, i: nat)
    requires Lists(KindTool, want, s, actions) && i < |actions|
    ensures Fitting(KindTool, want, s, actions[i])
    ensures Targets(actions, i + 1) == Targets(actions, i) + [NodeID(KindTool, actions[i].name)]
    ensures NodeID(KindTool, actions[i].name) !in Targets(actions, i)
  {
  }

  /** Stopping at position i accounts for everything listed. */
  lemma StopsAt(want: map<NodeID, Resource>, s: Snapshot, actions: seq<PlanAction>, i: nat, end: End)
    requires Lists(KindTool, want, s, actions) && i <= |actions| && !end.FlushFailed?
    requires forall j :: 0 <= j < i ==> actions[j].typ != ActionRemove
    requires if i == |actions| then end.Completed? else if actions[i].typ == ActionRemove then end.Crashed?
      else end.Broken?
    ensures Progressed(want, s, Targets(actions, i), end)
  {
    var ids := Targets(actions, i);
    forall id | id in ids ensures Reinstalls(want, s, id) {
      var j :| 0 <= j < i && ids[j] == id;
      assert Fitting(KindTool, want, s, actions[j]);
    }
    forall id: NodeID | id.kind == KindTool && Planned(want, s, id) != ActionNone && (id in want || i == |actions|) &&
      !end.Broken?
      ensures id in ids
    {
      var j := ListedAt(want, s, actions, id);
      assert j < i ==> ids[j] == id;
    }
    if i < |actions| {
      var id := NodeID(KindTool, actions[i].name);
      TargetsNoDup(want, s, actions, i);
      if actions[i].typ == ActionRemove {
        assert StaleTool(want, s, id);
      } else {
        assert id !in ids && Reinstalls(want, s, id);
      }
    }
  }

  lemma ListedAt(want: map<NodeID, Resource>, s: Snapshot, actions: seq<PlanAction>, id: NodeID) returns (j: nat)
    requires Lists(KindTool, want, s, actions) && id.kind == KindTool && Planned(want, s, id) != ActionNone
    ensures j < |actions| && NodeID(KindTool, actions[j].name) == id && Fitting(KindTool, want, s, actions[j])
  {
    assert NodeID(KindTool, id.name) == id;
    j :| 0 <= j < |actions| && actions[j].name == id.name;
  }

  method Reinstall(x: Executor, actions: seq<PlanAction>, ghost want: map<NodeID, Resource>, world: World, p: Progress)
    returns (end: End)
    requires x.Wired() && x.sc.Valid() && p.Counted() && p.reinstalled == []
    requires Grouping.Indexed(want) && Lists(KindTool, want, x.sc.Now(), actions)
    modifies x.sc.cache, x.sc`dirty, x.sc`history, p`total, p`reinstalled
    ensures x.sc.Valid() && p.Counted()
    ensures Reinstalled(want, old(x.sc.Now()), p.reinstalled, x.sc.Now())
    ensures Progressed(want, old(x.sc.Now()), p.reinstalled, end)
    ensures Answers(x.tools.registry, want, old(x.sc.Now()), p.reinstalled, x.sc.Now(), world, end.Broken?)
  {
    hide View, EntryOf, Lists, Execution.Install, Stale, Reinstalled, Progressed, Fails, Answers, StateCache.Valid,
      StateCache.Usable, Executor.Wired, Planned;
    ghost var s := x.sc.Now();
    NothingYet(want, s);
    NoAnswers(x.tools.registry, want, s, s, world);
    for i := 0 to |actions|
      invariant x.sc.Valid() && p.Counted() && x.sc.cache == old(x.sc.cache)
      invariant forall j :: 0 <= j < i ==> actions[j].typ != ActionRemove
      invariant p.reinstalled == Targets(actions, i)
      invariant Reinstalled(want, s, p.reinstalled, x.sc.Now())
      invariant Answers(x.tools.registry, want, s, p.reinstalled, x.sc.Now(), world, false)
    {
      var a := actions[i];
      TargetsNoDup(want, s, actions, i);
      if a.resource.None? {
        StopsAt(want, s, actions, i, Crashed);
        return Crashed;
      }
      var ok := ReinstallOne(x, a, want, s, world, p);
      if !ok {
        StopsAt(want, s, actions, i, Broken);
        return Broken;
      }
    }
    StopsAt(want, s, actions, |actions|, Completed);
    end := Completed;
  }

  method ReinstallOne(x: Executor, a: PlanAction, ghost want: map<NodeID, Resource>, ghost s: Snapshot, world: World,
                      p: Progress)
    returns (ok: bool)
    requires x.Wired() && x.sc.Valid() && p.Counted() && Grouping.Indexed(want)
    requires Fitting(KindTool, want, s, a) && a.resource.Some? && NodeID(KindTool, a.name) !in p.reinstalled
    requires Reinstalled(want, s, p.reinstalled, x.sc.Now())
    requires Answers(x.tools.registry, want, s, p.reinstalled, x.sc.Now(), world, false)
    modifies x.sc.cache, x.sc`dirty, x.sc`history, p`total, p`reinstalled
    ensures x.sc.Valid() && p.Counted() && x.sc.cache == old(x.sc.cache)
    ensures p.reinstalled == if ok then old(p.reinstalled) + [NodeID(KindTool, a.name)] else old(p.reinstalled)
    ensures Reinstalled(want, s, p.reinstalled, x.sc.Now())
    ensures Answers(x.tools.registry, want, s, p.reinstalled, x.sc.Now(), world, !ok)
  {
    hide View, EntryOf, Execution.Install, Stale, Reinstalled, Fails, Answers, StateCache.Valid, StateCache.Usable,
      Executor.Wired, ActionOf;
    ghost var now, id, res := x.sc.Now(), NodeID(KindTool, a.name), a.resource.value;
    assert res == want[id] && res.Id() == id && Reinstalls(want, s, id);
    ok := x.Perform(a.resource.value, a.typ, world(PhaseTaint, a.resource.value.Id()));
    if !ok {
      FailsAt(x.tools.registry, want, s, p.reinstalled, world, id);
      AnswersBroke(x.tools.registry, want, s, p.reinstalled, now, world);
      return;
    }
    ghost var e := Execution.Install(x.tools.registry, world(PhaseTaint, id), res, a.typ).value;
    InstallFixpoint(x.tools.registry, world(PhaseTaint, id), res, a.typ);
    ReinstalledOneMore(want, s, p.reinstalled, now, id, e);
    AnswersMore(x.tools.registry, want, s, p.reinstalled, now, world, id, e);
    p.reinstalled := p.reinstalled + [id];
    p.total := p.total + 1;
  }

  /** One of the remaining tools cannot be installed. */
  ghost predicate Fails(reg: Registry, want: map<NodeID, Resource>, s: Snapshot, ids: seq<NodeID>, world: World) {
    exists id :: id !in ids && Reinstalls(want, s, id) &&
      Execution.Install(reg, world(PhaseTaint, id), want[id], Planned(want, s, id)).None?
  }

  /** Every reinstalled tool has the entry its installer answered, and if the phase broke off, some remaining tool
      cannot be installed. */
  ghost predicate Answers(reg: Registry, want: map<NodeID, Resource>, s: Snapshot, ids: seq<NodeID>, after: Snapshot,
                          world: World, broke: bool)
  {
    && (forall id :: id in ids ==>
         && id in want && id in after
         && Get(after, id) == Execution.Install(reg, world(PhaseTaint, id), want[id], Planned(want, s, id)))
    && (broke ==> Fails(reg, want, s, ids, world))
  }

  lemma NoAnswers(reg: Registry, want: map<NodeID, Resource>, s: Snapshot, after: Snapshot, world: World)
    ensures Answers(reg, want, s, [], after, world, false)
  {
  }

  lemma AnswersMore(reg: Registry, want: map<NodeID, Resource>, s: Snapshot, ids: seq<NodeID>, now: Snapshot,
                    world: World, id: NodeID, e: Entry)
    requires Answers(reg, want, s, ids, now, world, false) && id !in ids && id in want
    requires Execution.Install(reg, world(PhaseTaint, id), want[id], Planned(want, s, id)) == Some(e)
    ensures Answers(reg, want, s, ids + [id], now[id := e], world, false)
  {
  }

  lemma AnswersBroke(reg: Registry, want: map<NodeID, Resource>, s: Snapshot, ids: seq<NodeID>, now: Snapshot,
                     world: World)
    requires Answers(reg, want, s, ids, now, world, false) && Fails(reg, want, s, ids, world)
    ensures Answers(reg, want, s, ids, now, world, true)
  {
  }

  lemma BrokeFails(reg: Registry, want: map<NodeID, Resource>, s: Snapshot, ids: seq<NodeID>, after: Snapshot,
                   world: World)
    requires Answers(reg, want, s, ids, after, world, true)
    ensures Fails(reg, want, s, ids, world)
  {
  }

  /** Removing what the manifest does not ask for leaves the answers in place. */
  lemma AnswersKept(reg: Registry, want: map<NodeID, Resource>, s: Snapshot, ids: seq<NodeID>, now: Snapshot,
                    later: Snapshot, world: World, broke: bool)
    requires Answers(reg, want, s, ids, now, world, broke) && forall id :: id in want ==> Get(later, id) == Get(now, id)
    ensures Answers(reg, want, s, ids, later, world, broke)
  {
    assert forall id :: id in want ==> Get(later, id) == Get(now, id);
  }

  lemma FailsAt(reg: Registry, want: map<NodeID, Resource>, s: Snapshot, ids: seq<NodeID>, world: World, id: NodeID)
    requires id !in ids && Reinstalls(want, s, id)
    requires Execution.Install(reg, world(PhaseTaint, id), want[id], Planned(want, s, id)).None?
    ensures Fails(reg, want, s, ids, world)
  {
  }

  lemma NothingYet(want: map<NodeID, Resource>, s: Snapshot)
    ensures Reinstalled(want, s, [], s)
  {
  }

  // ----- The whole phase ------------------------------------------------------------------------

  /** From the state mid that the layers left: exactly the manifest's tools of upgraded runtimes that ask for
      it are due, and the phase completes exactly if no recorded tool is stale and nothing fails. */
  ghost predicate Tainted(want: map<NodeID, Resource>, mid: Snapshot, updated: set<NodeID>, ids: seq<NodeID>,
                          after: Snapshot, end: End)
  {
    && Reinstalled(want, TaintedBy(mid, updated), ids, after)
    && (forall id :: id in ids ==> id in want && ShouldTaint(mid, updated, id))
    && (end.Completed? ==> forall id :: ShouldTaint(mid, updated, id) ==> id in ids)
    && (end.Completed? ==> forall id :: !StaleTool(want, mid, id))
    && (end.Crashed? ==> forall id :: id in want && ShouldTaint(mid, updated, id) ==> id in ids)
    && (end.Crashed? ==> exists id :: StaleTool(want, mid, id))
    && (end.Broken? ==> exists id :: id !in ids && id in want && ShouldTaint(mid, updated, id))
    && (end.FlushFailed? ==> ids == [])
  }

  lemma PhaseIs(want: map<NodeID, Resource>, mid: Snapshot, updated: set<NodeID>, ids: seq<NodeID>, after: Snapshot,
                end: End)
    requires Grouping.Indexed(want) && Current(want, mid)
    requires Progressed(want, TaintedBy(mid, updated), ids, end)
    requires Reinstalled(want, TaintedBy(mid, updated), ids, after)
    ensures Tainted(want, mid, updated, ids, after, end)
  {
    hide Stale, Marked, Reinstalled;
    forall id | id in want && id.kind == KindTool
      ensures Reinstalls(want, TaintedBy(mid, updated), id) <==> ShouldTaint(mid, updated, id)
    {
      TaintedIsStale(want, mid, updated, id);
    }
    forall id {:trigger StaleTool(want, mid, id)}
      ensures StaleTool(want, TaintedBy(mid, updated), id) <==> StaleTool(want, mid, id)
      ensures StaleTool(want, mid, id) ==> Planned(want, TaintedBy(mid, updated), id) == ActionRemove
    {
    }
    if end.Completed? {
      forall id | ShouldTaint(mid, updated, id) ensures id in ids {
        assert !StaleTool(want, mid, id);
      }
    }
    if end.Crashed? {
      var id :| StaleTool(want, TaintedBy(mid, updated), id);
      assert StaleTool(want, mid, id);
    }
  }

  /** From the taint flush on, the file holds every due tool marked. */
  method HandleTaintedTools(x: Executor, resources: seq<Resource>, world: World, p: Progress) returns (end: End)
    requires x.Wired() && x.sc.Valid() && p.Counted() && p.reinstalled == []
    requires Grouping.Indexed(Manifest.ById(resources)) && Current(Manifest.ById(resources), x.sc.Now())
    modifies x.sc.cache, x.sc`dirty, x.sc`history, x.sc.store`file, x.sc.store`writes, x.sc.store`faults, p`total,
      p`reinstalled
    ensures x.sc.Valid() && p.Counted()
    ensures Tainted(Manifest.ById(resources), old(x.sc.Now()), p.updated, p.reinstalled, x.sc.Now(), end)
    ensures end.FlushFailed? ==> x.sc.store.locked ==> x.sc.store.faults > old(x.sc.store.faults)
    ensures end.FlushFailed? ==>
      x.sc.store.writes == old(x.sc.store.writes) && x.sc.store.Disk() == old(x.sc.store.Disk())
    ensures !end.FlushFailed? ==>
      && x.sc.store.Disk() == TaintedBy(old(x.sc.Now()), p.updated)
      && x.sc.store.faults == old(x.sc.store.faults)
      && (x.sc.store.writes == old(x.sc.store.writes) ||
          x.sc.store.writes == old(x.sc.store.writes) + [TaintedBy(old(x.sc.Now()), p.updated)])
    ensures Answers(x.tools.registry, Manifest.ById(resources), TaintedBy(old(x.sc.Now()), p.updated), p.reinstalled,
                    x.sc.Now(), world, end.Broken?)
    ensures x.sc.store.faults >= old(x.sc.store.faults)
  {
    hide View, EntryOf, Tainted, Current, Reinstalled, Answers;
    ghost var want, mid := Manifest.ById(resources), x.sc.Now();
    var st := x.sc.Snapshot();
    TaintDependents(st, x, p.updated);
    var flushed := x.sc.Flush();
    if !flushed {
      NothingDone(want, mid, p.updated);
      NoAnswers(x.tools.registry, want, TaintedBy(mid, p.updated), x.sc.Now(), world);
      return FlushFailed;
    }
    st := x.sc.Snapshot();
    var actions := ReconcileKind(resources, KindTool, st);
    end := Reinstall(x, actions, want, world, p);
    PhaseIs(want, mid, p.updated, p.reinstalled, x.sc.Now(), end);
  }

  lemma NothingDone(want: map<NodeID, Resource>, mid: Snapshot, updated: set<NodeID>)
    ensures Tainted(want, mid, updated, [], TaintedBy(mid, updated), FlushFailed)
  {
  }
}
