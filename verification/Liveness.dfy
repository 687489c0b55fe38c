/** When nothing can go wrong: a world in which every operation works, a well-formed manifest and a usable state. */
module Liveness {
  import opened Prelude
  import opened Resources
  import opened Graph
  import opened Installers
  import opened Scheduler
  import opened Execution
  import opened Phases
  import opened Taints
  import opened Plans
  import opened Runs
  import opened Registering
  import Grouping
  import Resolver
  import Removals
  import TaintPhase

  /** Every command, download, removal and version resolver works, at any time and for anything. */
  ghost predicate Obliging(world: World) {
    forall phase, id :: AllWork(world(phase, id))
  }

  predicate AllWork(f: Fate) {
    f.tool.ok && f.runtime.ok && f.runtime.resolved.Some? && f.repo.ok && f.removed
  }

  /** The specification has what its installation needs; whether its runtime is ready is another question. */
  predicate WellFormed(reg: Registry, res: Resource) {
    match res
    case ToolRes(n, spec) =>
      && (spec.binaryName == "" || ValidBinaryName(spec.binaryName))
      && (match RouteOf(reg, spec)
          case ByCommands => true
          case ByRuntime(_) => true
          case ByInstaller(i) => HasInstall(reg.installers[i].commands)
          case FromRegistry => reg.hasPackageRegistry
          case ByDownload => spec.source.Some? && ValidBinaryName(if spec.binaryName != "" then spec.binaryName else n))
    case RuntimeRes(_, spec) =>
      (match spec.typ
       case TypeDownload => spec.source.Some? && spec.source.value.url != ""
       case TypeDelegation => HasInstall(spec.bootstrap)
       case TypeOther(_) => false)
    case RepoRes(_, spec) =>
      spec.sourceType.SourceGit? || (spec.sourceType.SourceDelegation? && spec.commands.Some?)
    case _ => true
  }

  /** A runtime that tools are installed with is in the manifest and can install, and so can a recorded one. */
  predicate Usable(want: map<NodeID, Resource>, start: Snapshot, runtime: NodeID) {
    && runtime in want && want[runtime].RuntimeRes? && HasInstall(want[runtime].runtime.commands)
    && (runtime in start ==> start[runtime].RuntimeEntry? && HasInstall(start[runtime].runtime.commands))
  }

  /** Said of the manifest, the state at the start, the installers known and the outside world alone. */
  ghost predicate Promising(want: map<NodeID, Resource>, reg: Registry, start: Snapshot, world: World) {
    Obliging(world) && Prepared(want, reg, start)
  }

  ghost predicate Prepared(want: map<NodeID, Resource>, reg: Registry, start: Snapshot) {
    && (forall id :: id in want && Managed(id.kind) ==> WellFormed(reg, want[id]))
    && (forall id :: id in want && want[id].ToolRes? && RouteOf(reg, want[id].tool).ByRuntime? ==>
         Usable(want, start, NodeID(KindRuntime, want[id].tool.runtimeRef)))
  }

  /** The runtime a tool is installed with is registered and can install. */
  predicate Ready(reg: Registry, res: Resource) {
    res.ToolRes? && RouteOf(reg, res.tool).ByRuntime? ==>
      res.tool.runtimeRef in reg.runtimes && HasInstall(reg.runtimes[res.tool.runtimeRef].commands)
  }

  /** A runtime that was executed without an error is recorded with install commands, new or old. */
  lemma RuntimeRecorded(want: map<NodeID, Resource>, env: Env, start: Snapshot, b: Point, runtime: NodeID)
    requires Grouping.Indexed(want) && RunAnswered(want, env, start, b) && Exit(runtime, true) in b.log
    requires Usable(want, start, runtime) && runtime.kind == KindRuntime
    ensures runtime in b.cache && b.cache[runtime].RuntimeEntry? && HasInstall(b.cache[runtime].runtime.commands)
  {
  }

  /** A tool is ready once its dependencies are done and the recorded runtimes are registered. */
  lemma ToolReady(want: map<NodeID, Resource>, env: Env, g: Graph, start: Snapshot, b: Point, reg: Registry, id: NodeID)
    requires Grouping.Indexed(want) && Promising(want, env.reg, start, env.world) && Resolver.DependenciesIn(want, g)
    requires RunAnswered(want, env, start, b) && reg == env.reg.(runtimes := reg.runtimes) && id in want
    requires (forall d :: d in DepsOf(g, id) ==> Exit(d, true) in b.log)
    requires DepsOf(g, id) != {} ==> reg == Informed(env.reg, b.cache)
    ensures Ready(reg, want[id])
  {
    hide RunAnswered, WellFormed, Informed;
    if want[id].ToolRes? && RouteOf(reg, want[id].tool).ByRuntime? {
      var r := NodeID(KindRuntime, want[id].tool.runtimeRef);
      SameRoute(reg, env.reg, want[id].tool);
      RuntimeNamed(want[id]);
      assert r in want[id].Dependencies();
      RuntimeRecorded(want, env, start, b, r);
      InformedOf(env.reg, b.cache, want[id].tool.runtimeRef);
    }
  }

  lemma RuntimeNamed(res: Resource)
    ensures res.ToolRes? && res.tool.runtimeRef != "" ==> NodeID(KindRuntime, res.tool.runtimeRef) in res.Dependencies()
  {
  }

  lemma SameRoute(a: Registry, b: Registry, spec: ToolSpec)
    requires a.installers == b.installers
    ensures RouteOf(a, spec) == RouteOf(b, spec) && (RouteOf(a, spec).ByRuntime? ==> spec.runtimeRef != "")
  {
  }

  /** So a layer that begins when everything below it is done has no failure. */
  lemma LayerSucceeds(want: map<NodeID, Resource>, env: Env, g: Graph, start: Snapshot, b: Point, nodes: set<NodeID>,
                      done: set<NodeID>, reg: Registry, c: Point)
    requires Grouping.Indexed(want) && Promising(want, env.reg, start, env.world) && Resolver.DependenciesIn(want, g)
    requires RunAnswered(want, env, start, b) && reg == env.reg.(runtimes := reg.runtimes)
    requires forall n, d :: n in nodes && d in DepsOf(g, n) ==> Exit(d, true) in b.log
    requires (forall n :: n in nodes ==> DepsOf(g, n) == {}) || reg == Informed(env.reg, b.cache)
    requires Advanced(want, nodes, done, b, c) && Answered(want, Env(reg, env.world), b, c)
    ensures !Failure(c.log[|b.log|..])
  {
    hide RunAnswered, Promising, StateAdvanced, Ready, Informed, AnswerIs;
    var log := c.log[|b.log|..];
    forall id ensures Exit(id, false) !in log {
      if Exit(id, false) in log {
        assert Exit(id, false).id in nodes;
        Refused(want, Env(reg, env.world), id, Get(b.cache, id), Get(c.cache, id));
        ToolReady(want, env, g, start, b, reg, id);
        Accepted(want, env, start, reg, PhaseDAG, id, ActionOf(want[id], Get(b.cache, id)));
      }
    }
  }

  lemma Refused(want: map<NodeID, Resource>, env: Env, id: NodeID, cur: Option<Entry>, after: Option<Entry>)
    requires AnswerIs(want, env, id, cur, false, after)
    ensures id in want && Managed(id.kind)
    ensures Execution.Install(env.reg, env.world(PhaseDAG, id), want[id], ActionOf(want[id], cur)).None?
  {
  }

  lemma Accepted(want: map<NodeID, Resource>, env: Env, start: Snapshot, reg: Registry, phase: Phase, id: NodeID,
                 act: ActionType)
    requires Grouping.Indexed(want) && Promising(want, env.reg, start, env.world)
    requires reg == env.reg.(runtimes := reg.runtimes)
    requires id in want && Managed(id.kind) && Ready(reg, want[id])
    ensures Execution.Install(reg, env.world(phase, id), want[id], act).Some?
  {
  }

  /** Nor does a reinstallation fail once all layers are done. */
  lemma ReinstallationsSucceed(want: map<NodeID, Resource>, env: Env, g: Graph, start: Snapshot, b: Point,
                               reg: Registry, s: Snapshot, ids: seq<NodeID>)
    requires Grouping.Indexed(want) && Promising(want, env.reg, start, env.world) && Resolver.DependenciesIn(want, g)
    requires RunAnswered(want, env, start, b) && reg == env.reg.(runtimes := reg.runtimes)
    requires reg == Informed(env.reg, b.cache)
    requires forall n :: n in g.nodes ==> Exit(n, true) in b.log
    requires forall n :: n in want ==> DepsOf(g, n) <= g.nodes
    ensures !TaintPhase.Fails(reg, want, s, ids, env.world)
  {
    hide RunAnswered, Promising, Ready, Informed, Execution.Install, Planned;
    forall id | id !in ids && TaintPhase.Reinstalls(want, s, id)
      ensures Execution.Install(reg, env.world(PhaseTaint, id), want[id], Planned(want, s, id)).Some?
    {
      ToolReady(want, env, g, start, b, reg, id);
      Accepted(want, env, start, reg, PhaseTaint, id, Planned(want, s, id));
    }
  }

  /** No recorded runtime is stale, or no recorded tool has been dropped: then the taint phase cannot panic. */
  ghost predicate PanicFree(want: map<NodeID, Resource>, start: Snapshot) {
    || (forall id :: id in want && id in start && start[id].RuntimeEntry? ==> !Stale(want[id], start[id]))
    || (forall id :: !TaintPhase.StaleTool(want, start, id))
  }

  lemma CannotPanic(want: map<NodeID, Resource>, g: Graph, start: Snapshot, done: set<NodeID>, b: Point)
    requires Ran(want, g, start, done, b) && PanicFree(want, start)
    ensures b.updated == {} || forall id :: !TaintPhase.StaleTool(want, b.cache, id)
  {
    hide Ran, Stale;
    UnwantedKept(want, g, start, done, b);
    if id :| id in b.updated {
      UpdatedWereStale(want, g, start, done, b, id);
      forall t ensures !TaintPhase.StaleTool(want, b.cache, t) {
        assert t !in want ==> Get(b.cache, t) == Get(start, t);
        assert !TaintPhase.StaleTool(want, start, t);
      }
    }
  }

  // ----- Trying again -------------------------------------------------------------------------------

  /** Said of the manifest, the state and the known installers: an obliging world is all that is missing. */
  ghost predicate Sound(resources: seq<Resource>, want: map<NodeID, Resource>, reg: Registry, s: Snapshot) {
    && Prepared(want, reg, s)
    && (forall id :: !TaintPhase.StaleTool(want, s, id))
    && (forall id :: id in Removals.GoneOf(want, s, KindRuntime) ==> !Named(resources, id))
  }

  /** Whatever the layers came to, they leave a sound state sound... */
  lemma StaysSound(resources: seq<Resource>, want: map<NodeID, Resource>, env: Env, g: Graph, start: Snapshot,
                   done: set<NodeID>, b: Point)
    requires Grouping.Indexed(want) && Ran(want, g, start, done, b) && RunAnswered(want, env, start, b)
    requires Sound(resources, want, env.reg, start)
    ensures Sound(resources, want, env.reg, b.cache)
  {
    hide Ran, RunAnswered, WellFormed, Named;
    UnwantedKept(want, g, start, done, b);
    forall r: NodeID | r.kind == KindRuntime && Usable(want, start, r) ensures Usable(want, b.cache, r) {
      StaysUsable(want, env, g, start, done, b, r);
    }
    forall id ensures TaintPhase.StaleTool(want, b.cache, id) ==> TaintPhase.StaleTool(want, start, id) {
      assert id !in want ==> Get(b.cache, id) == Get(start, id);
    }
    forall id | id in Removals.GoneOf(want, b.cache, KindRuntime)
      ensures id in Removals.GoneOf(want, start, KindRuntime) {
      assert Get(b.cache, id) == Get(start, id);
    }
  }

  lemma StaysUsable(want: map<NodeID, Resource>, env: Env, g: Graph, start: Snapshot, done: set<NodeID>, b: Point,
                    runtime: NodeID)
    requires Grouping.Indexed(want) && Ran(want, g, start, done, b) && RunAnswered(want, env, start, b)
    requires runtime.kind == KindRuntime && Usable(want, start, runtime)
    ensures Usable(want, b.cache, runtime)
  {
    hide RunAnswered, Effect, Acts, VersionChanged;
    ExecutedLogged(want, g, start, done, b, runtime);
    if runtime in done {
      RuntimeRecorded(want, env, start, b, runtime);
    } else {
      assert Get(b.cache, runtime) == Get(start, runtime);
    }
  }

  /** ... and so do the marks. */
  lemma MarksStaySound(resources: seq<Resource>, want: map<NodeID, Resource>, reg: Registry, s: Snapshot,
                       updated: set<NodeID>)
    requires Sound(resources, want, reg, s)
    ensures Sound(resources, want, reg, TaintedBy(s, updated))
  {
    hide WellFormed, Named, Marked;
    var t := TaintedBy(s, updated);
    assert forall id :: id in t <==> id in s;
    forall r: NodeID | r.kind == KindRuntime ensures Usable(want, t, r) <==> Usable(want, s, r) {
      assert r in s ==> t[r] == s[r];
    }
    forall id ensures TaintPhase.StaleTool(want, t, id) <==> TaintPhase.StaleTool(want, s, id) {
    }
    assert Removals.GoneOf(want, t, KindRuntime) == Removals.GoneOf(want, s, KindRuntime);
  }

  /** A sound state and an obliging world cannot but lead to success. */
  lemma SoundPromises(resources: seq<Resource>, want: map<NodeID, Resource>, reg: Registry, s: Snapshot, world: World)
    requires Sound(resources, want, reg, s) && Obliging(world)
    ensures Promising(want, reg, s, world) && PanicFree(want, s)
  {
  }

  /** Which runtimes are registered does not matter. */
  lemma SoundAnyway(resources: seq<Resource>, want: map<NodeID, Resource>, a: Registry, b: Registry, s: Snapshot)
    requires Sound(resources, want, a, s) && b == a.(runtimes := b.runtimes)
    ensures Sound(resources, want, b, s)
  {
    hide Usable, Named;
  }
}
