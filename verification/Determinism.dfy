/** What a run comes to is decided by the manifest, the state, the known installers and the outside world. Neither the
    scheduler nor the order of any map shows, unless the context is cancelled or a file operation fails. */
module Determinism {
  import opened Prelude
  import opened Resources
  import opened Graph
  import opened Kahn
  import opened StateStore
  import opened Execution
  import opened Phases
  import opened Nodes
  import opened Taints
  import opened Plans
  import opened Runs
  import opened Registering
  import opened Engine
  import Grouping
  import Installers
  import Manifest
  import Removals
  import Resolver
  import Scheduler
  import TaintPhase

  /** Two runs of one manifest, expanded in whatever order, from one state and in one environment. */
  ghost predicate Twins(r1: Record, r2: Record) {
    && Manifest.ById(r1.manifest) == Manifest.ById(r2.manifest)
    && (forall x :: x in r1.manifest <==> x in r2.manifest)
    && (forall level :: Leveled(r1.graph, level) <==> Leveled(r2.graph, level))
    && r1.env == r2.env && r1.start == r2.start
  }

  lemma TwinsBack(r1: Record, r2: Record)
    requires Twins(r1, r2)
    ensures Twins(r2, r1)
  {
  }

  /** A run in which no cancellation and no failing file operation had a say. */
  ghost predicate Untroubled(r: Record, now: Snapshot, out: Outcome) {
    && Began(out) && !Unstored(out) && Excused(out, false, r.log) && RunRight(r, now, r.env.world, out)
    && (out == Failed(LayerFailed) ==> FullyTried(Manifest.ById(r.manifest), r.graph, r.log))
  }

  // ----- The layers ---------------------------------------------------------------------------------

  /** Runs that get past their layers have come to the same state by then; and if one does, nothing fails in the
      layers of the other. */
  lemma LayersAlike(r1: Record, now1: Snapshot, out1: Outcome, r2: Record, now2: Snapshot, out2: Outcome)
    requires Twins(r1, r2) && RunRight(r1, now1, r1.env.world, out1) && RunRight(r2, now2, r2.env.world, out2)
    requires PastLayers(out1)
    ensures !Scheduler.Failure(r2.log)
    ensures PastLayers(out2) ==> r1.mid == r2.mid && r1.updated == r2.updated && r1.acted == r2.acted
  {
    hide Ran, RunAnswered, OrderKept, EndsRight, TaintsAnswered, Scheduler.Failure, Manifest.ById;
    var want := Manifest.ById(r1.manifest);
    SucceedsAgain(want, r1.env, r1.graph, r1.start, Over(r1), Over(r2));
    if PastLayers(out2) {
      LayersAgree(want, r1.env, r1.graph, r2.graph, r1.start, Over(r1), Over(r2));
    }
  }

  /** Runs that were troubled or not, finished or not, agree on every node that both executed. */
  lemma NodesAgree(r1: Record, now1: Snapshot, out1: Outcome, r2: Record, now2: Snapshot, out2: Outcome, id: NodeID,
                   ok1: bool, ok2: bool)
    requires Twins(r1, r2) && RunRight(r1, now1, r1.env.world, out1) && RunRight(r2, now2, r2.env.world, out2)
    requires Scheduler.Exit(id, ok1) in r1.log && Scheduler.Exit(id, ok2) in r2.log
    ensures ok1 == ok2 && Get(r1.mid, id) == Get(r2.mid, id)
  {
    hide Ran, RunAnswered, OrderKept, EndsRight, TaintsAnswered, Manifest.ById;
    RunsAgree(Manifest.ById(r1.manifest), r1.env, r1.start, Over(r1), Over(r2), id, ok1, ok2);
  }

  /** If an uncancelled run fails in its layers and so does the other, they executed the same nodes. */
  lemma ExecutedToo(r1: Record, now1: Snapshot, out1: Outcome, r2: Record, now2: Snapshot, out2: Outcome,
                    level: map<NodeID, nat>, n: NodeID)
    requires Twins(r1, r2) && RunRight(r1, now1, r1.env.world, out1) && RunRight(r2, now2, r2.env.world, out2)
    requires TriedBy(Manifest.ById(r1.manifest), level, r1.log) && TriedBy(Manifest.ById(r1.manifest), level, r2.log)
    requires n in level && Scheduler.Ended(n, r1.log)
    ensures Scheduler.Ended(n, r2.log)
  {
    hide RunRight, Twins, Ahead, Manifest.ById;
    var want := Manifest.ById(r1.manifest);
    if m :| Stops(want, level, r2.log, m, n) {
      AheadIs(want, level, m, n);
      assert !Stops(want, level, r1.log, m, n);
      if Scheduler.Ended(m, r1.log) {
        NodesAgree(r1, now1, out1, r2, now2, out2, m, true, false);
      } else {
        var l :| Stops(want, level, r1.log, l, m);
        StopsTwice(want, level, r1.log, l, m, n);
      }
    }
  }

  lemma AheadIs(want: map<NodeID, Resource>, level: map<NodeID, nat>, m: NodeID, n: NodeID)
    requires Ahead(want, level, m, n)
    ensures m in level && n in level
  {
  }

  lemma StopsTwice(want: map<NodeID, Resource>, level: map<NodeID, nat>, log: seq<Scheduler.Event>, l: NodeID,
                   m: NodeID, n: NodeID)
    requires Stops(want, level, log, l, m) && Ahead(want, level, m, n)
    ensures Stops(want, level, log, l, n)
  {
    hide StringLess;
    StringLessOrder(l.name, m.name, n.name);
  }

  lemma NodeAlike(r1: Record, now1: Snapshot, out1: Outcome, d1: set<NodeID>, r2: Record, now2: Snapshot, out2: Outcome,
                  d2: set<NodeID>, level: map<NodeID, nat>, id: NodeID)
    requires Twins(r1, r2) && RunRight(r1, now1, r1.env.world, out1) && RunRight(r2, now2, r2.env.world, out2)
    requires Leveled(r1.graph, level) && Leveled(r2.graph, level)
    requires TriedBy(Manifest.ById(r1.manifest), level, r1.log) && TriedBy(Manifest.ById(r1.manifest), level, r2.log)
    requires Ran(Manifest.ById(r1.manifest), r1.graph, r1.start, d1, Over(r1))
    requires Ran(Manifest.ById(r2.manifest), r2.graph, r2.start, d2, Over(r2))
    ensures (id in d1 <==> id in d2) && Get(r1.mid, id) == Get(r2.mid, id)
  {
    hide RunRight, Manifest.ById, TriedBy, Leveled, Effect, Acts, VersionChanged, Logged;
    var want := Manifest.ById(r1.manifest);
    TwinsBack(r1, r2);
    ExecutedLogged(want, r1.graph, r1.start, d1, Over(r1), id);
    ExecutedLogged(want, r2.graph, r2.start, d2, Over(r2), id);
    Leveling(r1.graph, level, id);
    Leveling(r2.graph, level, id);
    if id in level && Scheduler.Ended(id, r1.log) {
      ExecutedToo(r1, now1, out1, r2, now2, out2, level, id);
    }
    if id in level && Scheduler.Ended(id, r2.log) {
      ExecutedToo(r2, now2, out2, r1, now1, out1, level, id);
    }
    forall ok1, ok2 | Scheduler.Exit(id, ok1) in r1.log && Scheduler.Exit(id, ok2) in r2.log
      ensures ok1 == ok2 && Get(r1.mid, id) == Get(r2.mid, id)
    {
      NodesAgree(r1, now1, out1, r2, now2, out2, id, ok1, ok2);
    }
    assert id !in d1 ==> Get(r1.mid, id) == Get(r1.start, id);
    assert id !in d2 ==> Get(r2.mid, id) == Get(r2.start, id);
    assert id in d1 ==> id in level && Scheduler.Ended(id, r1.log) && Scheduler.Ended(id, r2.log);
    assert id in d2 ==> id in level && Scheduler.Ended(id, r1.log) && Scheduler.Ended(id, r2.log);
  }

  /** So they come to the same state, too. */
  lemma FailedAlike(r1: Record, now1: Snapshot, out1: Outcome, r2: Record, now2: Snapshot, out2: Outcome)
    requires Twins(r1, r2) && RunRight(r1, now1, r1.env.world, out1) && RunRight(r2, now2, r2.env.world, out2)
    requires FullyTried(Manifest.ById(r1.manifest), r1.graph, r1.log)
    requires FullyTried(Manifest.ById(r2.manifest), r2.graph, r2.log)
    ensures r1.mid == r2.mid && r1.updated == r2.updated && r1.acted == r2.acted
  {
    hide RunAnswered, OrderKept, EndsRight, TaintsAnswered, Manifest.ById, TriedBy, Leveled, Effect, Acts,
      VersionChanged;
    var want := Manifest.ById(r1.manifest);
    var level :| Leveled(r1.graph, level) && TriedBy(want, level, r1.log);
    var level2 :| Leveled(r2.graph, level2) && TriedBy(want, level2, r2.log);
    LevelsUnique(r1.graph, level, level2);
    var d1 :| Ran(want, r1.graph, r1.start, d1, Over(r1));
    var d2 :| Ran(want, r2.graph, r2.start, d2, Over(r2));
    forall id ensures (id in d1 <==> id in d2) && Get(r1.mid, id) == Get(r2.mid, id) {
      NodeAlike(r1, now1, out1, d1, r2, now2, out2, d2, level, id);
    }
    SameLookups(r1.mid, r2.mid);
  }

  lemma Leveling(g: Graph, level: map<NodeID, nat>, id: NodeID)
    requires Leveled(g, level)
    ensures id in level <==> id in g.nodes
  {
  }

  // ----- The phases after them ------------------------------------------------------------------------

  /** A tool that is due cannot be installed again. */
  ghost predicate CannotReinstall(r: Record) {
    var want := Manifest.ById(r.manifest);
    exists id :: id in want && Due(r.start, r.mid, id) && Reinstallation(r, id).None?
  }

  /** What installing it again answers. */
  ghost function Reinstallation(r: Record, id: NodeID): Option<Entry>
    requires id in Manifest.ById(r.manifest)
  {
    var want := Manifest.ById(r.manifest);
    Execution.Install(Informed(r.env.reg, r.mid), r.env.world(PhaseTaint, id), want[id],
                      Planned(want, TaintedBy(r.mid, r.updated), id))
  }

  /** How a run ends that got past its layers, said of the state they left, the start and the outside world. */
  ghost function Verdict(r: Record): Outcome {
    var want := Manifest.ById(r.manifest);
    if CannotReinstall(r) then Failed(ReinstallFailed)
    else if r.updated != {} && exists id :: TaintPhase.StaleTool(want, r.mid, id) then Panicked
    else if Blocked(r.manifest, want, r.start) then Failed(RemovalRefused)
    else if exists id :: id in Removals.Gone(want, r.start) && !r.env.world(PhaseRemove, id).removed then
      Failed(RemovalFailed)
    else Done
  }

  /** Tools that the taint phase finds stale are due. */
  lemma FoundAreDue(r: Record, now: Snapshot, out: Outcome, id: NodeID)
    requires RunRight(r, now, r.env.world, out) && PastLayers(out)
    requires TaintPhase.Reinstalls(Manifest.ById(r.manifest), TaintedBy(r.mid, r.updated), id)
    ensures Due(r.start, r.mid, id)
  {
    hide Ran, RunAnswered, OrderKept, EndsRight, TaintsAnswered, Manifest.ById, TaintedBy, Stale, Current, ShouldTaint,
      Due;
    var want := Manifest.ById(r.manifest);
    LayersSettle(want, r.graph, r.start, Over(r));
    DueExactly(want, r.graph, r.start, r.graph.nodes, Over(r), id);
    TaintedIsStale(want, r.mid, r.updated, id);
  }

  /** If every due tool of the manifest was installed again, all of them can be. */
  lemma AllReinstalled(r: Record, now: Snapshot, out: Outcome)
    requires TaintsAnswered(r, now, out)
    requires forall id :: id in Manifest.ById(r.manifest) && Due(r.start, r.mid, id) ==> id in r.reinstalled
    ensures !CannotReinstall(r)
  {
    hide Due, Informed, Execution.Install, TaintedBy, Planned, Manifest.ById;
  }

  lemma BrokeOff(r: Record, now: Snapshot)
    requires RunRight(r, now, r.env.world, Failed(ReinstallFailed))
    ensures CannotReinstall(r)
  {
    hide LayersRight, OrderKept, EndsRight, Due, Informed, Execution.Install, TaintedBy, Planned, Manifest.ById;
    var want := Manifest.ById(r.manifest);
    var id :| id !in r.reinstalled && TaintPhase.Reinstalls(want, TaintedBy(r.mid, r.updated), id) &&
      Reinstallation(r, id).None?;
    FoundAreDue(r, now, Failed(ReinstallFailed), id);
  }

  lemma DueListed(start: Snapshot, mid: Snapshot, id: NodeID)
    requires Due(start, mid, id)
    ensures id in DueSet(start, mid)
  {
  }

  lemma VerdictIs(r: Record, now: Snapshot, out: Outcome)
    requires Untroubled(r, now, out) && PastLayers(out)
    ensures out == Verdict(r)
  {
    hide LayersRight, OrderKept, Due, TaintsAnswered, CannotReinstall, Manifest.ById, Blocked, Removals.InOrder,
      OthersKept, Named, TaintPhase.StaleTool;
    if out == Failed(ReinstallFailed) {
      BrokeOff(r, now);
    } else {
      forall id | id in Manifest.ById(r.manifest) && Due(r.start, r.mid, id) ensures id in r.reinstalled {
        DueListed(r.start, r.mid, id);
      }
      AllReinstalled(r, now, out);
    }
  }

  /** Two runs that nothing troubles come to the same outcome. */
  lemma SameOutcome(r1: Record, now1: Snapshot, out1: Outcome, r2: Record, now2: Snapshot, out2: Outcome)
    requires Twins(r1, r2) && Untroubled(r1, now1, out1) && Untroubled(r2, now2, out2)
    ensures out1 == out2 && r1.mid == r2.mid && r1.updated == r2.updated && r1.acted == r2.acted
  {
    hide RunRight, Manifest.ById, Scheduler.Failure, CannotReinstall, Blocked, TaintPhase.StaleTool, Verdict, Twins,
      FullyTried;
    if out1 == out2 == Failed(LayerFailed) {
      FailedAlike(r1, now1, out1, r2, now2, out2);
    } else {
      if PastLayers(out1) {
        LayersAlike(r1, now1, out1, r2, now2, out2);
      } else {
        TwinsBack(r1, r2);
        LayersAlike(r2, now2, out2, r1, now1, out1);
      }
      VerdictIs(r1, now1, out1);
      VerdictIs(r2, now2, out2);
      SameVerdict(r1, r2);
    }
  }

  lemma SameVerdict(r1: Record, r2: Record)
    requires Twins(r1, r2) && r1.mid == r2.mid && r1.updated == r2.updated
    ensures Verdict(r1) == Verdict(r2)
  {
    hide Manifest.ById, Due, Informed, Execution.Install, TaintedBy, Planned, TaintPhase.StaleTool;
    forall id ensures Named(r1.manifest, id) <==> Named(r2.manifest, id) {
    }
    forall id | id in Manifest.ById(r1.manifest) ensures Reinstallation(r1, id) == Reinstallation(r2, id) {
    }
    assert CannotReinstall(r1) <==> CannotReinstall(r2);
  }

  // ----- The file -----------------------------------------------------------------------------------

  /** ... and leave the same file. */
  lemma SameFile(r1: Record, now1: Snapshot, disk1: Snapshot, writes1: seq<Snapshot>, mark1: nat, r2: Record,
                 now2: Snapshot, disk2: Snapshot, writes2: seq<Snapshot>, mark2: nat, out: Outcome)
    requires Twins(r1, r2) && Untroubled(r1, now1, out) && Untroubled(r2, now2, out)
    requires DiskRight(r1, now1, disk1, writes1, mark1, out) && DiskRight(r2, now2, disk2, writes2, mark2, out)
    ensures disk1 == disk2
  {
    hide RunRight, Manifest.ById, Scheduler.Failure, Converged, WritesKeep, TaintKept, LossAsForeseen, PointBefore,
      TaintedBy;
    SameOutcome(r1, now1, out, r2, now2, out);
    if out.Done? {
      var want := Manifest.ById(r1.manifest);
      forall id ensures Get(now1, id) == Get(now2, id) {
        if id in want {
          EntriesAlike(r1, now1, r2, now2, id);
        } else {
          NotWanted(want, now1, id);
          NotWanted(want, now2, id);
        }
      }
      SameLookups(now1, now2);
    }
  }

  lemma EntriesAlike(r1: Record, now1: Snapshot, r2: Record, now2: Snapshot, id: NodeID)
    requires Twins(r1, r2) && r1.mid == r2.mid && r1.updated == r2.updated && id in Manifest.ById(r1.manifest)
    requires RunRight(r1, now1, r1.env.world, Done) && RunRight(r2, now2, r2.env.world, Done)
    ensures Get(now1, id) == Get(now2, id)
  {
    hide LayersRight, OrderKept, RemovalsRight, Manifest.ById, Due, Informed, Execution.Install, TaintedBy, Planned,
      TaintPhase.StaleTool;
    assert id in r1.reinstalled <==> id in Members(r1.reinstalled);
    assert id in r2.reinstalled <==> id in Members(r2.reinstalled);
  }

  lemma NotWanted(want: map<NodeID, Resource>, s: Snapshot, id: NodeID)
    requires Converged(want, s) && id !in want
    ensures id !in s
  {
  }

  // ----- Two machines -------------------------------------------------------------------------------

  /** The same outcome, except that another cycle may be reported. */
  predicate Same(out1: Outcome, out2: Outcome) {
    out1 == out2 || (out1.Failed? && out1.why.BadGraph? && out2.Failed? && out2.why.BadGraph?)
  }

  /** What comes before the lock is the same on both. */
  lemma SameBeginning(resources: seq<Resource>, m1: seq<Resource>, g1: Graph, out1: Outcome, m2: seq<Resource>,
                      g2: Graph, out2: Outcome)
    requires Admitted(resources, m1, g1, out1) && Admitted(resources, m2, g2, out2)
    requires !Unstored(out1) && !Unstored(out2)
    requires out1 != Failed(Cancelled(BeforeStart)) && out2 != Failed(Cancelled(BeforeStart))
    requires if out1 == Failed(BadInstaller) then !InstallersValid(m1) else Began(out1) ==> InstallersValid(m1)
    requires if out2 == Failed(BadInstaller) then !InstallersValid(m2) else Began(out2) ==> InstallersValid(m2)
    ensures Began(out1) <==> Began(out2)
    ensures !Began(out1) ==> Same(out1, out2)
    ensures Began(out1) ==> Manifest.ById(m1) == Manifest.ById(m2) && forall x :: x in m1 <==> x in m2
    ensures Began(out1) ==> forall level :: Leveled(g1, level) <==> Leveled(g2, level)
  {
    hide Manifest.Conflict, Manifest.Expansion, Acyclic, SimpleCycle, Resolver.Describes,
      Resolver.AppendBuiltinInstallers, ValidInstaller, Manifest.ById, Manifest.Desired, Leveled;
    if out1 != Failed(BadSets) && out2 != Failed(BadSets) {
      SameResources(resources, m1, m2);
      Resolver.SameAcyclic(m1, m2, g1, g2);
      if out1.Failed? && out1.why.BadGraph? { Cyclic(g1, out1.why.cycle); }
      if out2.Failed? && out2.why.BadGraph? { Cyclic(g2, out2.why.cycle); }
    }
    if Began(out1) && Began(out2) {
      SameDesired(resources, m1, g1, out1);
      SameDesired(resources, m2, g2, out2);
    }
  }

  /** One manifest applied on two machines with equal state files, in the same outside world, at whatever
      parallelism: unless a run is cancelled or an operation on files fails, outcomes and files are the same. */
  method OnTwoMachines(e1: Engine, e2: Engine, resources: seq<Resource>, world: World, ctx1: Context, ctx2: Context)
    returns (out1: Outcome, out2: Outcome)
    requires e1.Valid() && e2.Valid()
    requires {e1.x.sc as object, e1.store, e1.x.tools, ctx1} !! {e2.x.sc as object, e2.store, e2.x.tools, ctx2, e2}
    requires e1.store.Disk() == e2.store.Disk() && e1.updateCfg == e2.updateCfg
    requires e1.x.tools.registry == e2.x.tools.registry
    modifies e1.x.sc, e1.store, e1.x.tools, ctx1, e2.x.sc, e2.store, e2.x.tools, ctx2
    ensures
      && !ctx1.cancelled && e1.store.faults == old(e1.store.faults) && e1.x.tools.faults == old(e1.x.tools.faults)
      && !ctx2.cancelled && e2.store.faults == old(e2.store.faults) && e2.x.tools.faults == old(e2.x.tools.faults)
      ==> Same(out1, out2) && e1.store.Disk() == e2.store.Disk()
  {
    hide View, EntryOf, FlagTaints, Admitted, RunRight, DiskRight, Excused, Grouping.Registered, AllExecuted,
      FollowsPlan, Converged, Manifest.Desired, Manifest.ById, DidNothing, Engine.InEnv, Unhindered, Auspicious,
      Admissible, InstallersValid, InstallersKnown, Progress.Told, Progress.Counted, StateCache.Valid,
      StateCache.Usable, Executor.Wired, Same, FullyTried, Leveled, Grounded, AsWanted;
    ghost var registry, disk := e1.x.tools.registry, e1.store.Disk();
    var p1, p2;
    out1, p1 := e1.Apply(resources, world, ctx1);
    Told(p1);
    EngineParts(e1, p1, world);
    ghost var now1 := if Began(out1) then e1.x.sc.Now() else map[];
    ghost var r1, disk1, writes1, mark1 := p1.Told(), e1.store.Disk(), e1.store.writes, p1.mark;
    ghost var quiet1 := !ctx1.cancelled && e1.store.faults == old(e1.store.faults) &&
      e1.x.tools.faults == old(e1.x.tools.faults);
    out2, p2 := e2.Apply(resources, world, ctx2);
    Told(p2);
    EngineParts(e2, p2, world);
    if quiet1 && !ctx2.cancelled && e2.store.faults == old(e2.store.faults) &&
      e2.x.tools.faults == old(e2.x.tools.faults) {
      SameBeginning(resources, r1.manifest, r1.graph, out1, p2.manifest, p2.graph, out2);
      if Began(out1) {
        KnownAlike(registry, r1.manifest, r1.env.reg, p2.manifest, p2.env.reg);
        RunsAlike(r1, now1, disk1, writes1, mark1, out1, p2.Told(), e2.x.sc.Now(), e2.store.Disk(), e2.store.writes,
                  p2.mark, out2, world);
      }
    }
  }

  lemma RunsAlike(r1: Record, now1: Snapshot, disk1: Snapshot, writes1: seq<Snapshot>, mark1: nat, out1: Outcome,
                  r2: Record, now2: Snapshot, disk2: Snapshot, writes2: seq<Snapshot>, mark2: nat, out2: Outcome,
                  world: World)
    requires Twins(r1, r2) && Began(out1) && Began(out2) && !Unstored(out1) && !Unstored(out2)
    requires r1.env.world == world && r2.env.world == world
    requires Excused(out1, false, r1.log) && RunRight(r1, now1, world, out1)
    requires Excused(out2, false, r2.log) && RunRight(r2, now2, world, out2)
    requires DiskRight(r1, now1, disk1, writes1, mark1, out1) && DiskRight(r2, now2, disk2, writes2, mark2, out2)
    requires out1 == Failed(LayerFailed) ==> FullyTried(Manifest.ById(r1.manifest), r1.graph, r1.log)
    requires out2 == Failed(LayerFailed) ==> FullyTried(Manifest.ById(r2.manifest), r2.graph, r2.log)
    ensures Same(out1, out2) && disk1 == disk2
  {
    hide RunRight, DiskRight, Excused, Twins, FullyTried;
    SameOutcome(r1, now1, out1, r2, now2, out2);
    SameFile(r1, now1, disk1, writes1, mark1, r2, now2, disk2, writes2, mark2, out1);
  }
}
