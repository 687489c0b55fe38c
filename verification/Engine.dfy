/** The apply engine: layers, taint phase, removal phase, and the plan that predicts them. */
module Engine {
  import opened Prelude
  import opened Resources
  import opened Graph
  import opened Kahn
  import opened StateStore
  import opened Execution
  import opened Phases
  import opened Nodes
  import opened Taints
  import opened Plans
  import opened Runs
  import opened Registering
  import Grouping
  import Installers
  import opened Liveness
  import LayerExecution
  import Manifest
  import Removals
  import Resolver
  import Scheduler
  import TaintPhase

  datatype Checkpoint = BeforeStart | BeforeLayer | BeforeTaints | BeforeRemovals

  datatype Stage =
    | Cancelled(at: Checkpoint) | BadSets | BadGraph(cycle: seq<NodeID>)
    | NotLocked | NotLoaded | BadInstaller | NotSaved
    | LayerFailed | LayerNotFlushed
    | TaintsNotFlushed | ReinstallFailed
    | RemovalRefused | RemovalFailed | NotFlushed

  datatype Outcome = Done | Failed(why: Stage) | Panicked

  const DefaultParallelism: nat := 5
  const MaxParallelism: nat := 20

  /** Nodes below a level. */
  ghost function Below(g: Graph, level: map<NodeID, nat>, k: nat): set<NodeID>
    requires level.Keys == g.nodes
  {
    set n | n in g.nodes && level[n] < k
  }

  lemma LayerMembers(g: Graph, level: map<NodeID, nat>, layers: Layers, k: nat)
    requires Layering(g, level, layers) && k < |layers|
    ensures NoDup(layers[k]) && SortedByKind(layers[k]) && Members(layers[k]) !! Below(g, level, k)
    ensures Below(g, level, k + 1) == Below(g, level, k) + Members(layers[k])
    ensures forall n :: n in Members(layers[k]) ==> n in g.nodes && level[n] == k
  {
    forall n ensures n in layers[k] <==> n in g.nodes && level[n] == k {
      assert InLayer(layers, k, n) <==> n in layers[k];
      if n in g.nodes && level[n] == k {
        assert InLayer(layers, level[n], n);
      }
    }
  }

  lemma AllBelow(g: Graph, level: map<NodeID, nat>, layers: Layers)
    requires Layering(g, level, layers)
    ensures Below(g, level, |layers|) == g.nodes
  {
  }

  /** The state of the layer loop before layer k. */
  ghost predicate LayersSoFar(want: map<NodeID, Resource>, g: Graph, level: map<NodeID, nat>, k: nat, start: Snapshot,
                              done: set<NodeID>, b: Point, cancelled: bool)
  {
    && Leveled(g, level)
    && Advanced(want, Below(g, level, k), done, Fresh(start), b)
    && b.acted <= Below(g, level, k)
    && (!cancelled ==> done == Below(g, level, k))
    && Barrier(level, b.log)
    && !Scheduler.Failure(b.log)
  }

  lemma LayersStart(want: map<NodeID, Resource>, g: Graph, level: map<NodeID, nat>, start: Snapshot, cancelled: bool)
    requires Leveled(g, level)
    ensures LayersSoFar(want, g, level, 0, start, {}, Fresh(start), cancelled)
  {
  }

  /** One more layer, begun while the context was not cancelled. */
  lemma LayersMore(want: map<NodeID, Resource>, g: Graph, level: map<NodeID, nat>, layers: Layers, k: nat,
                   start: Snapshot, done: set<NodeID>, b: Point, more: set<NodeID>, c: Point, ok: bool, cancelled: bool)
    requires Layering(g, level, layers) && k < |layers| && LayersSoFar(want, g, level, k, start, done, b, false)
    requires Advanced(want, Members(layers[k]), more, b, c) && c.acted <= b.acted + Members(layers[k])
    requires LayerExecution.InTurn(Members(layers[k]), b, c)
    requires Verdict(ok, cancelled, b, c) && (ok && !cancelled ==> more == Members(layers[k]))
    ensures Advanced(want, Below(g, level, k + 1), done + more, Fresh(start), c) && OrderKept(g, c.log)
    ensures ok ==> LayersSoFar(want, g, level, k + 1, start, done + more, c, cancelled)
    ensures !ok ==> cancelled || Scheduler.Failure(c.log)
  {
    hide OrderKept, Barrier, LayerExecution.InTurn, Placed;
    LayerMembers(g, level, layers, k);
    Compose(want, Below(g, level, k), done, Members(layers[k]), more, Fresh(start), b, c);
    LayerBarrier(want, g, level, layers, k, start, done, b, more, c);
    OrderIs(g, level, c.log);
    var tail := c.log[|b.log|..];
    assert c.log == b.log + tail by { LayerExecution.LogsGrow(want, Members(layers[k]), more, b, c); }
    assert forall e :: e in c.log <==> e in b.log || e in tail;
  }

  lemma LayerBarrier(want: map<NodeID, Resource>, g: Graph, level: map<NodeID, nat>, layers: Layers, k: nat,
                     start: Snapshot, done: set<NodeID>, b: Point, more: set<NodeID>, c: Point)
    requires Layering(g, level, layers) && k < |layers| && LayersSoFar(want, g, level, k, start, done, b, false)
    requires Advanced(want, Members(layers[k]), more, b, c) && LayerExecution.InTurn(Members(layers[k]), b, c)
    ensures Barrier(level, c.log)
  {
    hide Barrier, KindOrder, StateAdvanced, Placed;
    LayerMembers(g, level, layers, k);
    var tail := c.log[|b.log|..];
    assert c.log == b.log + tail;
    assert b.log[|Fresh(start).log|..] == b.log;
    forall n | n in level && level[n] < k ensures Scheduler.Exit(n, true) in b.log {
      assert n in done;
    }
    assert forall n :: n in Below(g, level, k + 1) <==> n in Below(g, level, k) || n in Members(layers[k]);
    BarrierGrows(level, k, Members(layers[k]), b.log, tail);
  }

  lemma LayersOver(want: map<NodeID, Resource>, g: Graph, level: map<NodeID, nat>, k: nat, start: Snapshot,
                   done: set<NodeID>, b: Point)
    requires level.Keys == g.nodes && Advanced(want, Below(g, level, k), done, Fresh(start), b)
    ensures Ran(want, g, start, done, b)
  {
  }

  /** The layer's executions did as the installers answer, knowing the runtimes registered before it... */
  lemma LayerAnswers(want: map<NodeID, Resource>, env: Env, g: Graph, level: map<NodeID, nat>, layers: Layers, k: nat,
                     start: Snapshot, done: set<NodeID>, b: Point, more: set<NodeID>, reg: Installers.Registry,
                     c: Point)
    requires Layering(g, level, layers) && k < |layers| && LayersSoFar(want, g, level, k, start, done, b, false)
    requires Advanced(want, Members(layers[k]), more, b, c) && RunAnswered(want, env, start, b)
    requires Answered(want, Env(reg, env.world), b, c) && ToolsInformed(env.reg, k, b.cache, reg)
    requires Resolver.DependenciesIn(want, g)
    ensures RunAnswered(want, env, start, c)
  {
    hide RunAnswered, Answered, Advanced, Barrier, Scheduler.Failure, Placed, Informed, OwnRuntime;
    LayerMembers(g, level, layers, k);
    InformedKeeps(env.reg, b.cache);
    forall id | id in Members(layers[k]) && OwnRuntime(want, id).Some?
      ensures OwnRuntime(want, id).value in done && k > 0
    {
      OwnIsDependency(want, g, id);
      assert level[OwnRuntime(want, id).value] < k;
    }
    RunAnsweredMore(want, env, start, Below(g, level, k), done, Members(layers[k]), more, b, reg, c);
  }

  lemma OwnIsDependency(want: map<NodeID, Resource>, g: Graph, id: NodeID)
    requires Resolver.DependenciesIn(want, g) && OwnRuntime(want, id).Some?
    ensures OwnRuntime(want, id).value in DepsOf(g, id)
  {
    RuntimeNamed(want[id]);
  }

  /** What the tool installer knows before layer k: nothing new before the first, then every recorded runtime. */
  ghost predicate ToolsInformed(before: Installers.Registry, k: nat, s: Snapshot, reg: Installers.Registry) {
    reg == if k == 0 then before else Informed(before, s)
  }

  lemma InformedIsAt(before: Installers.Registry, k: nat, s: Snapshot, reg: Installers.Registry)
    ensures ToolsInformed(before, k, s, reg) <==> reg == if k == 0 then before else Informed(before, s)
  {
  }

  lemma InformedMore(want: map<NodeID, Resource>, nodes: set<NodeID>, done: set<NodeID>, b: Point, c: Point, k: nat,
                     before: Installers.Registry, reg: Installers.Registry)
    requires Advanced(want, nodes, done, b, c) && ToolsInformed(before, k, b.cache, reg)
    ensures ToolsInformed(before, k + 1, c.cache, Informed(reg, c.cache))
  {
    hide Informed;
    if k > 0 {
      forall n ensures RecordedRuntime(b.cache, n).Some? ==> RecordedRuntime(c.cache, n).Some? {
        var id := NodeID(KindRuntime, n);
        assert id in done ==> Effect(want, id, Get(b.cache, id), Get(c.cache, id));
      }
      InformedAgain(before, b.cache, c.cache);
    }
  }

  /** ... and if the world, the manifest and the state promise it, none of them failed. */
  lemma LayerPromise(want: map<NodeID, Resource>, env: Env, g: Graph, level: map<NodeID, nat>, layers: Layers, k: nat,
                     start: Snapshot, done: set<NodeID>, b: Point, more: set<NodeID>, reg: Installers.Registry,
                     c: Point)
    requires Layering(g, level, layers) && k < |layers| && LayersSoFar(want, g, level, k, start, done, b, false)
    requires Advanced(want, Members(layers[k]), more, b, c) && RunAnswered(want, env, start, b)
    requires Answered(want, Env(reg, env.world), b, c) && reg == env.reg.(runtimes := reg.runtimes)
    requires Grouping.Indexed(want) && Resolver.DependenciesIn(want, g) && ToolsInformed(env.reg, k, b.cache, reg)
    ensures Promising(want, env.reg, start, env.world) ==> !Scheduler.Failure(c.log)
  {
    hide RunAnswered, Answered, StateAdvanced, Barrier, Placed, Promising, Informed, Resolver.DependenciesIn;
    if Promising(want, env.reg, start, env.world) {
      LayerMembers(g, level, layers, k);
      assert b.log[|Fresh(start).log|..] == b.log;
      forall n, d | n in Members(layers[k]) && d in DepsOf(g, n) ensures Scheduler.Exit(d, true) in b.log {
        assert level[d] < k && d in done;
      }
      if k == 0 {
        forall n | n in Members(layers[k]) ensures DepsOf(g, n) == {} {
          BottomLayer(g, level, n);
        }
      }
      LayerSucceeds(want, env, g, start, b, Members(layers[k]), more, reg, c);
      assert c.log == b.log + c.log[|b.log|..];
      assert forall e :: e in c.log <==> e in b.log || e in c.log[|b.log|..];
    }
  }

  /** A failure of m keeps n from being executed: its layer is an earlier one, or it hinders n in the same layer. */
  ghost predicate Stops(want: map<NodeID, Resource>, level: map<NodeID, nat>, log: seq<Scheduler.Event>, m: NodeID,
                        n: NodeID)
  {
    Scheduler.Exit(m, false) in log && Ahead(want, level, m, n)
  }

  predicate Ahead(want: map<NodeID, Resource>, level: map<NodeID, nat>, m: NodeID, n: NodeID) {
    m in level && n in level && (level[m] < level[n] || (level[m] == level[n] && Hinders(want, m, n)))
  }

  /** A node was executed if and only if no failure kept it from that. */
  ghost predicate FullyTried(want: map<NodeID, Resource>, g: Graph, log: seq<Scheduler.Event>) {
    exists level :: Leveled(g, level) && TriedBy(want, level, log)
  }

  ghost predicate TriedBy(want: map<NodeID, Resource>, level: map<NodeID, nat>, log: seq<Scheduler.Event>) {
    forall n :: n in level ==> (Scheduler.Ended(n, log) <==> !exists m :: Stops(want, level, log, m, n))
  }

  /** In a run that gets to layer k without a failure, logs and failures lie where the layers say. */
  lemma LayerEvents(want: map<NodeID, Resource>, g: Graph, level: map<NodeID, nat>, layers: Layers, k: nat,
                    start: Snapshot, done: set<NodeID>, b: Point, more: set<NodeID>, c: Point, n: NodeID)
    requires Layering(g, level, layers) && k < |layers| && LayersSoFar(want, g, level, k, start, done, b, false)
    requires Advanced(want, Members(layers[k]), more, b, c) && n in level
    ensures level[n] < k ==> Scheduler.Ended(n, c.log)
    ensures level[n] == k ==> (Scheduler.Ended(n, c.log) <==> Scheduler.Ended(n, c.log[|b.log|..]))
    ensures level[n] > k ==> !Scheduler.Ended(n, c.log)
    ensures level[n] == k <==> n in Members(layers[k])
    ensures Scheduler.Exit(n, false) in c.log <==> Scheduler.Exit(n, false) in c.log[|b.log|..]
    ensures Scheduler.Exit(n, false) in c.log ==> level[n] == k
  {
    hide StateAdvanced, Barrier, Placed;
    LayerMembers(g, level, layers, k);
    var tail := c.log[|b.log|..];
    assert c.log == b.log + tail && b.log[|Fresh(start).log|..] == b.log;
    forall ok
      ensures Scheduler.Exit(n, ok) in b.log ==> level[n] < k
      ensures Scheduler.Exit(n, ok) in tail ==> level[n] == k
    {
      assert Scheduler.Exit(n, ok) in b.log ==> Scheduler.Exit(n, ok).id in Below(g, level, k);
      assert Scheduler.Exit(n, ok) in tail ==> Scheduler.Exit(n, ok).id in Members(layers[k]);
    }
    if level[n] < k {
      assert n in done && Scheduler.Exit(n, true) in c.log;
    }
  }

  /** Uncancelled, a layer that fails leaves nothing out that it did not have to. */
  lemma LayerTried(want: map<NodeID, Resource>, g: Graph, level: map<NodeID, nat>, layers: Layers, k: nat,
                   start: Snapshot, done: set<NodeID>, b: Point, more: set<NodeID>, c: Point)
    requires Layering(g, level, layers) && k < |layers| && LayersSoFar(want, g, level, k, start, done, b, false)
    requires Advanced(want, Members(layers[k]), more, b, c) && Attempted(want, Members(layers[k]), b, c)
    requires Verdict(false, false, b, c)
    ensures FullyTried(want, g, c.log)
  {
    hide Layering, LayersSoFar, Advanced, Hinders, Scheduler.Ended;
    var tail := c.log[|b.log|..];
    var bad :| Scheduler.Exit(bad, false) in tail;
    LayerWithin(want, g, level, layers, k, start, done, b, more, c);
    assert Scheduler.Exit(bad, false).id in level;
    forall n | n in level {
      LayerEvents(want, g, level, layers, k, start, done, b, more, c, n);
    }
    forall n | n in level ensures Scheduler.Ended(n, c.log) <==> !exists m :: Stops(want, level, c.log, m, n) {
      if level[n] == k {
        assert forall m :: Stops(want, level, c.log, m, n) ==> Excuses(want, tail, m, n);
        forall m | Excuses(want, tail, m, n) ensures Stops(want, level, c.log, m, n) {
          assert Scheduler.Exit(m, false).id in level;
        }
      } else if level[n] > k {
        assert Stops(want, level, c.log, bad, n);
      }
    }
    assert TriedBy(want, level, c.log);
  }

  lemma LayerWithin(want: map<NodeID, Resource>, g: Graph, level: map<NodeID, nat>, layers: Layers, k: nat,
                    start: Snapshot, done: set<NodeID>, b: Point, more: set<NodeID>, c: Point)
    requires Layering(g, level, layers) && k < |layers| && LayersSoFar(want, g, level, k, start, done, b, false)
    requires Advanced(want, Members(layers[k]), more, b, c)
    ensures Leveled(g, level) && forall e :: e in c.log[|b.log|..] ==> e.id in level
  {
    hide StateAdvanced, Placed;
    LayerMembers(g, level, layers, k);
  }

  /** What was logged since belongs to one layer. */
  ghost predicate OneLevel(level: map<NodeID, nat>, k: nat, before: seq<Scheduler.Event>, log: seq<Scheduler.Event>) {
    before <= log && forall e :: e in log[|before|..] ==> e.id in level && level[e.id] == k
  }

  lemma NothingLogged(level: map<NodeID, nat>, k: nat, log: seq<Scheduler.Event>)
    ensures OneLevel(level, k, log, log)
  {
  }

  lemma LayerLogged(want: map<NodeID, Resource>, g: Graph, level: map<NodeID, nat>, layers: Layers, k: nat,
                    more: set<NodeID>, b: Point, c: Point)
    requires Layering(g, level, layers) && k < |layers| && Advanced(want, Members(layers[k]), more, b, c)
    ensures OneLevel(level, k, b.log, c.log)
  {
    hide StateAdvanced;
    LayerMembers(g, level, layers, k);
  }

  /** A point of the run up to which the file holds everything: only executions of one more layer have come since. */
  ghost predicate PointBefore(want: map<NodeID, Resource>, env: Env, g: Graph, start: Snapshot, b: Point,
                              log: seq<Scheduler.Event>)
  {
    && (exists done :: Ran(want, g, start, done, b))
    && RunAnswered(want, env, start, b)
    && forall level :: Leveled(g, level) ==> exists k :: OneLevel(level, k, b.log, log)
  }

  lemma PointIs(want: map<NodeID, Resource>, env: Env, g: Graph, start: Snapshot, done: set<NodeID>, b: Point,
                level: map<NodeID, nat>, k: nat, log: seq<Scheduler.Event>)
    requires Ran(want, g, start, done, b) && RunAnswered(want, env, start, b) && Leveled(g, level)
    requires OneLevel(level, k, b.log, log)
    ensures PointBefore(want, env, g, start, b, log)
  {
    hide Ran, RunAnswered, Leveled, OneLevel;
    forall other | Leveled(g, other) ensures exists k :: OneLevel(other, k, b.log, log) {
      LevelsUnique(g, level, other);
      assert OneLevel(other, k, b.log, log);
    }
  }

  class Engine {
    const store: Store
    const x: Executor
    var parallelism: nat
    var updateCfg: UpdateConfig

    ghost predicate Valid()
      reads this
    {
      x.Wired() && x.sc.store == store && 1 <= parallelism <= MaxParallelism
    }

    /** The tool installer knows what it knew when the layers began, and perhaps other runtimes. */
    ghost predicate InEnv(p: Progress, world: World)
      reads this, x.tools`registry, p`env
    {
      p.env.world == world && x.tools.registry == p.env.reg.(runtimes := x.tools.registry.runtimes)
    }

    constructor (store: Store, tools: ToolInstaller)
      ensures Valid() && this.store == store && x.tools == tools && fresh(x) && fresh(x.sc)
      ensures parallelism == DefaultParallelism && updateCfg == NoUpdates
    {
      this.store := store;
      var sc := new StateCache(store);
      x := new Executor(sc, tools);
      parallelism, updateCfg := DefaultParallelism, NoUpdates;
    }

    method SetParallelism(n: int)
      requires Valid()
      modifies this`parallelism
      ensures Valid() && (1 <= n <= MaxParallelism ==> parallelism == n)
      ensures (n < 1 ==> parallelism == 1) && (n > MaxParallelism ==> parallelism == MaxParallelism)
    {
      parallelism := if n < 1 then 1 else if n > MaxParallelism then MaxParallelism else n;
    }

    method SetUpdateConfig(cfg: UpdateConfig)
      requires Valid()
      modifies this`updateCfg
      ensures Valid() && updateCfg == cfg
    {
      updateCfg := cfg;
    }

    // ----- The layers ---------------------------------------------------------------------------

    /** Layer k; whatever it came to, the file then holds the cache unless the flush itself failed. */
    method RunLayer(layers: Layers, k: nat, ghost g: Graph, ghost level: map<NodeID, nat>, want: map<NodeID, Resource>,
                    world: World, ctx: Context, p: Progress, ghost start: Snapshot, ghost before: set<NodeID>)
      returns (why: Option<Stage>, ghost done: set<NodeID>)
      requires Valid() && x.sc.Valid() && p.Counted() && Grouping.Indexed(want) && Layering(g, level, layers)
      requires k < |layers|
      requires LayersSoFar(want, g, level, k, start, before, x.Here(p), ctx.cancelled) && store.Disk() == x.sc.Now()
      requires store.locked
      requires InEnv(p, world) && RunAnswered(want, p.env, start, x.Here(p)) && Resolver.DependenciesIn(want, g)
      requires ToolsInformed(p.env.reg, k, x.sc.Now(), x.tools.registry)
      modifies x.sc.cache, x.sc`dirty, x.sc`history, store`file, store`writes, store`faults, x.tools`registry,
        p`updated, p`total, p`acted, p`log, ctx
      ensures x.sc.Valid() && p.Counted() && x.sc.cache == old(x.sc.cache)
      ensures InEnv(p, world) && RunAnswered(want, p.env, start, x.Here(p))
      ensures Promising(want, p.env.reg, start, world) ==> !Scheduler.Failure(p.log)
      ensures old(ctx.cancelled) ==> why == Some(Cancelled(BeforeLayer)) && p.log == old(p.log)
      ensures OneLevel(level, k, old(p.log), p.log)
      ensures old(ctx.cancelled) ==> ctx.cancelled
      ensures Ran(want, g, start, done, x.Here(p)) && OrderKept(g, p.log)
      ensures why.None? ==> LayersSoFar(want, g, level, k + 1, start, done, x.Here(p), ctx.cancelled)
      ensures why.None? ==> ToolsInformed(p.env.reg, k + 1, x.sc.Now(), x.tools.registry)
      ensures why == Some(LayerFailed) && !ctx.cancelled ==> FullyTried(want, g, p.log)
      ensures store.Disk() == if why == Some(LayerNotFlushed) then old(store.Disk()) else x.sc.Now()
      ensures store.faults >= old(store.faults) && (why == Some(LayerNotFlushed) ==> store.faults > old(store.faults))
      ensures Blamed(why, ctx.cancelled, p.log)
    {
      hide View, EntryOf, Advanced, OrderKept, LayersSoFar, Layering, Scheduler.Failure, Ran, Below, Blamed, Informed,
        ToolsInformed, RunAnswered, Answered, Promising, Resolver.DependenciesIn, Executor.Wired, StateCache.Valid,
        StateCache.Usable, Progress.Counted, Store.Disk;
      ghost var b := x.Here(p);
      SoFarIs(want, g, level, k, start, before, b, ctx.cancelled);
      NothingLogged(level, k, p.log);
      done, why := before, None;
      var stop := ctx.Err();
      if stop {
        CancelledBlamed(BeforeLayer, p.log);
        return Some(Cancelled(BeforeLayer)), done;
      }
      SoFarUncancelled(want, g, level, k, start, done, b, ctx.cancelled);
      LayerMembers(g, level, layers, k);
      DisjointActed(b, level, g, k, Members(layers[k]));
      var ok, more := LayerExecution.ExecuteLayer(x, layers[k], parallelism, want, world, ctx, p);
      LayersMore(want, g, level, layers, k, start, done, b, more, x.Here(p), ok, ctx.cancelled);
      LayerAnswers(want, p.env, g, level, layers, k, start, done, b, more, x.tools.registry, x.Here(p));
      LayerPromise(want, p.env, g, level, layers, k, start, done, b, more, x.tools.registry, x.Here(p));
      LayerLogged(want, g, level, layers, k, more, b, x.Here(p));
      done := done + more;
      LayersOver(want, g, level, k + 1, start, done, x.Here(p));
      FlushBlamed(ctx.cancelled, p.log);
      var flushed := x.sc.Flush();
      if !flushed {
        return Some(LayerNotFlushed), done;
      }
      if !ok {
        LayerBlamed(ctx.cancelled, p.log);
        if !ctx.cancelled {
          LayerTried(want, g, level, layers, k, start, before, b, more, x.Here(p));
        }
        return Some(LayerFailed), done;
      }
      var st := x.sc.Snapshot();
      ghost var reg := x.tools.registry;
      RegisterRuntimes(x.tools, st);
      InformedMore(want, Members(layers[k]), more, b, x.Here(p), k, p.env.reg, reg);
      InformedKeeps(reg, x.sc.Now());
      SoFarIs(want, g, level, k + 1, start, done, x.Here(p), ctx.cancelled);
    }

    /** saved: the point of the run whose cache the file holds. */
    method RunLayers(layers: Layers, ghost g: Graph, ghost level: map<NodeID, nat>, want: map<NodeID, Resource>,
                     world: World, ctx: Context, p: Progress)
      returns (why: Option<Stage>, ghost done: set<NodeID>, ghost saved: Point)
      requires Valid() && x.sc.Valid() && p.Counted() && Grouping.Indexed(want) && Layering(g, level, layers)
      requires x.Here(p) == Fresh(x.sc.Now()) && store.Disk() == x.sc.Now() && store.locked
      requires InEnv(p, world) && Resolver.DependenciesIn(want, g) && x.tools.registry == p.env.reg
      modifies x.sc.cache, x.sc`dirty, x.sc`history, store`file, store`writes, store`faults, x.tools`registry,
        p`updated, p`total, p`acted, p`log, ctx
      ensures x.sc.Valid() && p.Counted() && x.sc.cache == old(x.sc.cache)
      ensures InEnv(p, world) && RunAnswered(want, p.env, old(x.sc.Now()), x.Here(p))
      ensures Promising(want, p.env.reg, old(x.sc.Now()), world) ==> !Scheduler.Failure(p.log)
      ensures old(ctx.cancelled) ==> ctx.cancelled
      ensures Ran(want, g, old(x.sc.Now()), done, x.Here(p)) && OrderKept(g, p.log)
      ensures PointBefore(want, p.env, g, old(x.sc.Now()), saved, p.log) && store.Disk() == saved.cache
      ensures why != Some(LayerNotFlushed) ==> saved == x.Here(p)
      ensures why.None? && !ctx.cancelled ==> done == g.nodes
      ensures store.faults >= old(store.faults) && (why == Some(LayerNotFlushed) ==> store.faults > old(store.faults))
      ensures why.None? ==> ToolsInformed(p.env.reg, |layers|, x.sc.Now(), x.tools.registry)
      ensures why == Some(LayerFailed) && !ctx.cancelled ==> FullyTried(want, g, p.log)
      ensures Blamed(why, ctx.cancelled, p.log)
    {
      hide View, EntryOf, Advanced, OrderKept, LayersSoFar, Layering, Scheduler.Failure, Ran, Below, Blamed, Informed,
        ToolsInformed, RunAnswered, Answered, Promising, Resolver.DependenciesIn, Executor.Wired, StateCache.Valid,
        StateCache.Usable, Progress.Counted, Store.Disk;
      ghost var start := x.sc.Now();
      done, why := {}, None;
      LayeringLevels(g, level, layers);
      LayersStart(want, g, level, start, ctx.cancelled);
      NothingBlamed(ctx.cancelled);
      NothingRun(want, p.env, start);
      InformedIsAt(p.env.reg, 0, start, x.tools.registry);
      for k := 0 to |layers|
        invariant x.sc.Valid() && p.Counted()
        invariant InEnv(p, world) && RunAnswered(want, p.env, start, x.Here(p))
        invariant old(ctx.cancelled) ==> ctx.cancelled
        invariant LayersSoFar(want, g, level, k, start, done, x.Here(p), ctx.cancelled)
        invariant store.faults >= old(store.faults)
        invariant store.Disk() == x.sc.Now() && Blamed(None, ctx.cancelled, p.log)
        invariant why.None? && ToolsInformed(p.env.reg, k, x.sc.Now(), x.tools.registry)
      {
        SoFarIs(want, g, level, k, start, done, x.Here(p), ctx.cancelled);
        saved := x.Here(p);
        ghost var before := done;
        why, done := RunLayer(layers, k, g, level, want, world, ctx, p, start, done);
        if why.Some? {
          if why == Some(LayerNotFlushed) {
            PointIs(want, p.env, g, start, before, saved, level, k, p.log);
          } else {
            saved := x.Here(p);
            NothingLogged(level, 0, p.log);
            PointIs(want, p.env, g, start, done, saved, level, 0, p.log);
          }
          return;
        }
      }
      AllBelow(g, level, layers);
      SoFarIs(want, g, level, |layers|, start, done, x.Here(p), ctx.cancelled);
      saved := x.Here(p);
      NothingLogged(level, 0, p.log);
      PointIs(want, p.env, g, start, done, saved, level, 0, p.log);
    }

    // ----- After the layers ---------------------------------------------------------------------

    /** The taint phase, entered only if a runtime was updated. None: go on. */
    method RunTaints(resources: seq<Resource>, ghost g: Graph, world: World, p: Progress) returns (why: Option<Outcome>)
      requires Valid() && x.sc.Valid() && p.Counted() && p.reinstalled == [] && x.sc.Now() == p.mid == store.Disk()
      requires store.locked
      requires LayersDone(Manifest.ById(resources), g, p.start, x.Here(p))
      modifies x.sc.cache, x.sc`dirty, x.sc`history, store`file, store`writes, store`faults, p`total, p`reinstalled
      ensures x.sc.Valid() && p.Counted() && x.sc.cache == old(x.sc.cache)
      ensures TaintsRight(Manifest.ById(resources), p.start, p.mid, p.updated, p.reinstalled, if why.Some?
                          then why.value else Done)
      ensures why.None? ==> AfterTaints(Manifest.ById(resources), p.mid, p.updated, p.reinstalled, x.sc.Now())
      ensures WritesKeep(DueSet(p.start, p.mid), p.reinstalled, old(store.writes), store.writes)
      ensures why != Some(Failed(TaintsNotFlushed)) ==> TaintKept(DueSet(p.start, p.mid), p.reinstalled, store.Disk())
      ensures why.Some? ==> why.value in {Panicked, Failed(TaintsNotFlushed), Failed(ReinstallFailed)}
      ensures store.faults >= old(store.faults)
      ensures (why == Some(Failed(TaintsNotFlushed)) ==> store.faults > old(store.faults))
      ensures TaintPhase.Answers(x.tools.registry, Manifest.ById(resources), TaintedBy(p.mid, p.updated),
                                 p.reinstalled, x.sc.Now(), world, why == Some(Failed(ReinstallFailed)))
      ensures Removals.Gone(Manifest.ById(resources), p.start) <= x.sc.Now().Keys
      ensures store.Disk() == if why == Some(Failed(TaintsNotFlushed)) then p.mid else TaintedBy(p.mid, p.updated)
      ensures p.updated == {} ==> x.sc.Now() == p.mid && store.Disk() == old(store.Disk())
    {
      hide View, EntryOf, TaintedBy, LayersDone, TaintsRight, AfterTaints, WritesKeep, TaintKept, TaintPhase.Tainted,
        TaintPhase.Answers, Current, Executor.Wired, StateCache.Valid, StateCache.Usable, Progress.Counted,
        Store.Disk;
      ghost var want, b := Manifest.ById(resources), x.Here(p);
      if p.updated == {} {
        NoTaintsRight(want, g, p.start, b, store.writes);
        DoneIs(want, g, p.start, b);
        StillRecorded(want, p.start, x.sc.Now());
        TaintPhase.NoAnswers(x.tools.registry, want, TaintedBy(p.mid, p.updated), x.sc.Now(), world);
        return None;
      }
      ghost var writes := store.writes;
      DoneIs(want, g, p.start, b);
      var end := TaintPhase.HandleTaintedTools(x, resources, world, p);
      TaintsAreRight(want, g, p.start, b, p.reinstalled, x.sc.Now(), end);
      TaintsRemoveNothing(want, g, p.start, b, p.reinstalled, x.sc.Now(), end);
      TaintsReachFile(want, g, p.start, b, p.reinstalled, writes);
      why := if end.Completed? then None else Some(Ended(end));
    }

    /** The removal phase and the last flush. */
    method RunRemovals(resources: seq<Resource>, ghost g: Graph, ghost b: Point, world: World,
                       p: Progress) returns (out: Outcome)
      requires Valid() && x.sc.Valid() && p.Counted() && p.removed == []
      requires LayersDone(Manifest.ById(resources), g, p.start, b) && b.cache == p.mid && b.updated == p.updated
      requires AfterTaints(Manifest.ById(resources), p.mid, p.updated, p.reinstalled, x.sc.Now())
      requires TaintKept(DueSet(p.start, p.mid), p.reinstalled, store.Disk()) && store.locked
      modifies x.sc.cache, x.sc`dirty, x.sc`history, store`file, store`writes, store`faults, p`total, p`removed
      ensures x.sc.Valid() && p.Counted() && x.sc.cache == old(x.sc.cache)
      ensures RemovalsRight(resources, Manifest.ById(resources), p.start, p.removed, x.sc.Now(), world, out)
      ensures WritesKeep(DueSet(p.start, p.mid), p.reinstalled, old(store.writes), store.writes)
      ensures TaintKept(DueSet(p.start, p.mid), p.reinstalled, store.Disk())
      ensures out.Done? ==> Converged(Manifest.ById(resources), store.Disk()) && store.Disk() == x.sc.Now()
      ensures out in {Done, Failed(RemovalRefused), Failed(RemovalFailed), Failed(NotFlushed)}
      ensures store.faults >= old(store.faults) && (out == Failed(NotFlushed) ==> store.faults > old(store.faults))
      ensures forall id :: id in Manifest.ById(resources) ==> Get(x.sc.Now(), id) == Get(old(x.sc.Now()), id)
      ensures !out.Done? ==> store.Disk() == old(store.Disk())
      ensures p.removed == [] ==> x.sc.Now() == old(x.sc.Now()) && store.Disk() in {old(store.Disk()), old(x.sc.Now())}
    {
      hide View, EntryOf, LayersDone, RemovalsRight, AfterTaints, WritesKeep, TaintKept, Converged, Removals.Cleaned,
        Executor.Wired, StateCache.Valid, StateCache.Usable, Progress.Counted, Store.Disk;
      ghost var want, c := Manifest.ById(resources), x.sc.Now();
      ghost var due, writes := DueSet(p.start, p.mid), store.writes;
      ViewWellTyped(x.sc.cache.data);
      NoWrites(due, p.reinstalled, writes);
      var end := Removals.HandleRemovals(x, resources, world, p);
      RemovalsAreRight(resources, want, g, p.start, b, p.reinstalled, c, p.removed, x.sc.Now(), end, world);
      NoneRemoved(resources, want, c, p.removed, x.sc.Now(), end, world);
      if end.Refused? {
        return Failed(RemovalRefused);
      }
      if end.Broken? {
        return Failed(RemovalFailed);
      }
      AllSettled(resources, want, g, p.start, b, p.reinstalled, c, p.removed, x.sc.Now(), world);
      OneWrite(due, p.reinstalled, writes, x.sc.Now());
      var flushed := x.sc.Flush();
      out := if flushed then Done else Failed(NotFlushed);
    }

    /** The taint phase and the removal phase of a run whose layers are done. */
    method RunEnds(resources: seq<Resource>, ghost g: Graph, world: World, ctx: Context,
                   p: Progress) returns (out: Outcome)
      requires Valid() && x.sc.Valid() && p.Counted() && p.reinstalled == [] && p.removed == [] && store.locked
      requires x.sc.Now() == p.mid == store.Disk()
      requires LayersDone(Manifest.ById(resources), g, p.start, x.Here(p))
      modifies x.sc.cache, x.sc`dirty, x.sc`history, store`file, store`writes, store`faults, p`total, p`reinstalled,
        p`removed, ctx
      ensures x.sc.Valid() && p.Counted() && x.sc.cache == old(x.sc.cache)
      ensures EndsRight(resources, Manifest.ById(resources), p.start, p.mid, p.updated, p.reinstalled, p.removed,
                        x.sc.Now(), world, out)
      ensures WritesKeep(DueSet(p.start, p.mid), p.reinstalled, old(store.writes), store.writes)
      ensures out != Failed(TaintsNotFlushed) ==> TaintKept(DueSet(p.start, p.mid), p.reinstalled, store.Disk())
      ensures out.Done? ==> Converged(Manifest.ById(resources), store.Disk()) && store.Disk() == x.sc.Now()
      ensures FinishOutcome(out) && out != Failed(Cancelled(BeforeTaints))
      ensures (out == Failed(Cancelled(BeforeRemovals)) ==> ctx.cancelled)
      ensures old(ctx.cancelled) ==> !out.Done? && p.removed == []
      ensures p.updated == {} && p.removed == [] ==> x.sc.Now() == p.mid == store.Disk()
      ensures out == Failed(TaintsNotFlushed) ==> store.Disk() == p.mid
      ensures PastLayers(out) && !out.Done? && out != Failed(TaintsNotFlushed) ==>
        store.Disk() == TaintedBy(p.mid, p.updated)
      ensures store.faults >= old(store.faults) && (Unstored(out) ==> store.faults > old(store.faults))
      ensures TaintPhase.Answers(x.tools.registry, Manifest.ById(resources), TaintedBy(p.mid, p.updated),
                                 p.reinstalled, x.sc.Now(), world, out == Failed(ReinstallFailed))
    {
      hide *;
      ghost var want, b := Manifest.ById(resources), x.Here(p);
      var why := RunTaints(resources, g, world, p);
      ghost var writes := store.writes;
      if why.Some? {
        EndsEarly(resources, want, p.start, p.mid, p.updated, p.reinstalled, x.sc.Now(), world, why.value);
        return why.value;
      }
      var stop := ctx.Err();
      if stop {
        EndsCancelled(resources, want, p.start, p.mid, p.updated, p.reinstalled, x.sc.Now(), world);
        return Failed(Cancelled(BeforeRemovals));
      }
      ghost var s := x.sc.Now();
      out := RunRemovals(resources, g, b, world, p);
      TaintPhase.AnswersKept(x.tools.registry, want, TaintedBy(p.mid, p.updated), p.reinstalled, s, x.sc.Now(), world,
                             false);
      EndsLate(resources, want, p.start, p.mid, p.updated, p.reinstalled, s, p.removed, x.sc.Now(), world, out);
      UntouchedEnds(want, p.mid, p.updated, p.reinstalled, s);
      WritesKeepTwice(DueSet(p.start, p.mid), p.reinstalled, old(store.writes), writes, store.writes);
    }

    /** Everything after the layers; the context is looked at before each phase. */
    method Finish(resources: seq<Resource>, ghost g: Graph, ghost done: set<NodeID>, world: World, ctx: Context,
                  p: Progress)
      returns (out: Outcome)
      requires Valid() && x.sc.Valid() && p.Counted() && p.reinstalled == [] && p.removed == []
      requires x.sc.Now() == p.mid == store.Disk() && p.mark == |store.writes| && store.locked
      requires Grouping.Indexed(Manifest.ById(resources)) && WellTyped(p.start)
      requires Manifest.ById(resources).Keys <= g.nodes
      requires Ran(Manifest.ById(resources), g, p.start, done, x.Here(p)) && (!ctx.cancelled ==> done == g.nodes)
      modifies x.sc.cache, x.sc`dirty, x.sc`history, store`file, store`writes, store`faults, p`total, p`reinstalled,
        p`removed, ctx
      ensures x.sc.Valid() && p.Counted() && x.sc.cache == old(x.sc.cache)
      ensures EndsRight(resources, Manifest.ById(resources), p.start, p.mid, p.updated, p.reinstalled, p.removed,
                        x.sc.Now(), world, out)
      ensures p.mark <= |store.writes|
      ensures WritesKeep(DueSet(p.start, p.mid), p.reinstalled, store.writes[..p.mark], store.writes)
      ensures !(out in {Failed(Cancelled(BeforeTaints)), Failed(TaintsNotFlushed)}) ==>
                TaintKept(DueSet(p.start, p.mid), p.reinstalled, store.Disk())
      ensures out.Done? ==> Converged(Manifest.ById(resources), store.Disk()) && store.Disk() == x.sc.Now()
      ensures out != Failed(Cancelled(BeforeTaints)) ==> done == g.nodes
      ensures out == Failed(Cancelled(BeforeTaints)) ==> store.Disk() == x.sc.Now() == p.mid
      ensures FinishOutcome(out)
      ensures out in {Failed(Cancelled(BeforeTaints)), Failed(Cancelled(BeforeRemovals))} ==> ctx.cancelled
      ensures old(ctx.cancelled) ==> out == Failed(Cancelled(BeforeTaints)) && p.reinstalled == [] && p.removed == []
      ensures p.updated == {} && p.removed == [] ==> x.sc.Now() == p.mid == store.Disk()
      ensures out == Failed(TaintsNotFlushed) ==> store.Disk() == p.mid
      ensures PastLayers(out) && !out.Done? && out != Failed(TaintsNotFlushed) ==>
        store.Disk() == TaintedBy(p.mid, p.updated)
      ensures store.faults >= old(store.faults) && (Unstored(out) ==> store.faults > old(store.faults))
      ensures TaintPhase.Answers(x.tools.registry, Manifest.ById(resources), TaintedBy(p.mid, p.updated),
                                 p.reinstalled, x.sc.Now(), world, out == Failed(ReinstallFailed))
    {
      hide View, EntryOf, Ran, LayersDone, EndsRight, WritesKeep, TaintKept, Converged, Manifest.ById,
        TaintPhase.Answers, TaintedBy, DueSet, Executor.Wired, StateCache.Valid, StateCache.Usable, Progress.Counted,
        Store.Disk;
      ghost var want, b := Manifest.ById(resources), x.Here(p);
      var stop := ctx.Err();
      if stop {
        EarlyRight(resources, want, g, p.start, done, b, world);
        NoWrites(DueSet(p.start, p.mid), p.reinstalled, store.writes);
        assert store.writes[..p.mark] == store.writes;
        TaintPhase.NoAnswers(x.tools.registry, want, TaintedBy(p.mid, p.updated), x.sc.Now(), world);
        return Failed(Cancelled(BeforeTaints));
      }
      NowDone(want, g, p.start, done, b);
      out := RunEnds(resources, g, world, ctx, p);
      KeptFrom(DueSet(p.start, p.mid), p.reinstalled, old(store.writes), store.writes, p.mark);
    }

    // ----- Apply --------------------------------------------------------------------------------

    /** The layers, with what they leave behind written down. */
    method RunFirst(resources: seq<Resource>, layers: Layers, ghost level: map<NodeID, nat>, world: World, ctx: Context,
                    p: Progress)
      returns (why: Option<Stage>, ghost done: set<NodeID>)
      requires Valid() && x.sc.Valid() && p.Counted() && p.manifest == resources && p.reinstalled == []
      requires p.removed == []
      requires x.Here(p) == Fresh(x.sc.Now()) && p.start == x.sc.Now() == store.Disk() && WellTyped(p.start)
      requires store.locked
      requires Grouping.Indexed(Manifest.ById(resources)) && Layering(p.graph, level, layers)
      requires Manifest.ById(resources).Keys <= p.graph.nodes
      requires InEnv(p, world) && Resolver.DependenciesIn(Manifest.ById(resources), p.graph)
      requires x.tools.registry == p.env.reg && layers != []
      modifies x.sc.cache, x.sc`dirty, x.sc`history, store`file, store`writes, store`faults, x.tools`registry, ctx,
        p`updated, p`total, p`acted, p`log, p`mid, p`mark
      ensures x.sc.Valid() && p.Counted() && x.sc.cache == old(x.sc.cache) && InEnv(p, world)
      ensures p.mid == x.sc.Now() && p.mark == |store.writes| && WellPosed(p.Told()) && p.env.world == world
      ensures Ran(Manifest.ById(resources), p.graph, p.start, done, x.Here(p)) && OrderKept(p.graph, p.log)
      ensures RunAnswered(Manifest.ById(resources), p.env, p.start, x.Here(p))
      ensures Promising(Manifest.ById(resources), p.env.reg, p.start, world) ==> !Scheduler.Failure(p.log)
      ensures why.None? ==>
        !Scheduler.Failure(p.log) && store.Disk() == x.sc.Now() && (!ctx.cancelled ==> done == p.graph.nodes)
      ensures why.None? ==> x.tools.registry == Informed(p.env.reg, p.mid)
      ensures why == Some(LayerFailed) && !ctx.cancelled ==> FullyTried(Manifest.ById(resources), p.graph, p.log)
      ensures store.faults >= old(store.faults) && (why == Some(LayerNotFlushed) ==> store.faults > old(store.faults))
      ensures why.Some? ==> Stopped(why.value, ctx.cancelled, p.log)
      ensures why.Some? ==>
        RunRight(p.Told(), x.sc.Now(), world, Failed(why.value)) &&
        DiskRight(p.Told(), x.sc.Now(), store.Disk(), store.writes, p.mark, Failed(why.value))
    {
      hide *;
      ghost var saved;
      EngineParts(this, p, world);
      why, done, saved := RunLayers(layers, p.graph, level, Manifest.ById(resources), world, ctx, p);
      ghost var b := x.Here(p);
      p.mid, p.mark := x.sc.Now(), |store.writes|;
      BlamedIs(why, ctx.cancelled, p.log);
      Told(p);
      EngineParts(this, p, world);
      InformedIsAt(p.env.reg, |layers|, x.sc.Now(), x.tools.registry);
      if why.Some? {
        StoppedRight(p.Told(), done, b, saved, store.writes, world, Failed(why.value));
      }
    }

    /** The layers and what follows them, once the state is in the cache. */
    method RunAll(resources: seq<Resource>, layers: Layers, ghost level: map<NodeID, nat>, world: World, ctx: Context,
                  p: Progress)
      returns (out: Outcome)
      requires Valid() && x.sc.Valid() && p.Counted() && p.manifest == resources && p.reinstalled == []
      requires p.removed == []
      requires x.Here(p) == Fresh(x.sc.Now()) && p.start == x.sc.Now() == store.Disk() && WellTyped(p.start)
      requires store.locked
      requires Grouping.Indexed(Manifest.ById(resources)) && Layering(p.graph, level, layers)
      requires Manifest.ById(resources).Keys <= p.graph.nodes
      requires InEnv(p, world) && Resolver.DependenciesIn(Manifest.ById(resources), p.graph)
      requires x.tools.registry == p.env.reg && layers != []
      modifies x.sc.cache, x.sc`dirty, x.sc`history, store`file, store`writes, store`faults, x.tools`registry, ctx,
        p`updated, p`total, p`acted, p`log, p`reinstalled, p`removed, p`mid, p`mark
      ensures x.sc.Valid() && p.Counted() && x.sc.cache == old(x.sc.cache)
      ensures InEnv(p, world) && Began(out) && Excused(out, ctx.cancelled, p.log)
      ensures out == Failed(LayerFailed) && !ctx.cancelled ==> FullyTried(Manifest.ById(resources), p.graph, p.log)
      ensures Promising(Manifest.ById(resources), p.env.reg, p.start, world) ==>
        !Scheduler.Failure(p.log) && out != Failed(ReinstallFailed)
      ensures store.faults >= old(store.faults) && (Unstored(out) ==> store.faults > old(store.faults))
      ensures RunRight(p.Told(), x.sc.Now(), world, out)
      ensures DiskRight(p.Told(), x.sc.Now(), store.Disk(), store.writes, p.mark, out)
    {
      hide *;
      var why, done := RunFirst(resources, layers, level, world, ctx, p);
      if why.Some? {
        out := Failed(why.value);
        StoppedIs(why.value, ctx.cancelled, p.log);
        return;
      }
      out := RunLast(resources, layers, level, done, world, ctx, p);
    }

    /** What follows the layers, with what it comes to. */
    method RunLast(resources: seq<Resource>, ghost layers: Layers, ghost level: map<NodeID, nat>,
                   ghost done: set<NodeID>, world: World, ctx: Context, p: Progress)
      returns (out: Outcome)
      requires Valid() && x.sc.Valid() && p.Counted() && p.manifest == resources && p.reinstalled == []
      requires p.removed == []
      requires Layering(p.graph, level, layers) && Resolver.DependenciesIn(Manifest.ById(resources), p.graph)
      requires InEnv(p, world)
      requires x.sc.Now() == p.mid == store.Disk() && p.mark == |store.writes| && store.locked && WellPosed(p.Told())
      requires p.env.world == world
      requires Ran(Manifest.ById(resources), p.graph, p.start, done, x.Here(p)) && OrderKept(p.graph, p.log)
      requires !Scheduler.Failure(p.log)
      requires RunAnswered(Manifest.ById(resources), p.env, p.start, x.Here(p))
      requires (!ctx.cancelled ==> done == p.graph.nodes)
      requires x.tools.registry == Informed(p.env.reg, p.mid)
      modifies x.sc.cache, x.sc`dirty, x.sc`history, store`file, store`writes, store`faults, p`total, p`reinstalled,
        p`removed, ctx
      ensures x.sc.Valid() && p.Counted() && x.sc.cache == old(x.sc.cache)
      ensures Began(out) && out != Failed(LayerFailed) && Excused(out, ctx.cancelled, p.log)
      ensures Promising(Manifest.ById(resources), p.env.reg, p.start, world) ==> out != Failed(ReinstallFailed)
      ensures store.faults >= old(store.faults) && (Unstored(out) ==> store.faults > old(store.faults))
      ensures RunRight(p.Told(), x.sc.Now(), world, out)
      ensures DiskRight(p.Told(), x.sc.Now(), store.Disk(), store.writes, p.mark, out)
    {
      hide *;
      ghost var b := x.Here(p);
      Told(p);
      EngineParts(this, p, world);
      out := Finish(resources, p.graph, done, world, ctx, p);
      Told(p);
      if out == Failed(ReinstallFailed) {
        ReinstallPromise(Manifest.ById(resources), p.env, p.graph, level, layers, p.start, b, x.tools.registry,
                         TaintedBy(p.mid, p.updated), p.reinstalled);
        TaintPhase.BrokeFails(x.tools.registry, Manifest.ById(resources), TaintedBy(p.mid, p.updated), p.reinstalled,
                              x.sc.Now(), world);
      }
      AnsweredIs(p.Told(), x.sc.Now(), out);
      FinishedRight(p.Told(), done, b, x.sc.Now(), store.Disk(), store.writes, p.mark, world, out, ctx.cancelled);
    }

    /** Locks and loads the state, applies the flags, registers the installers and saves; then the cache holds the
        state. */
    method Open(resources: seq<Resource>, world: World, p: Progress) returns (why: Option<Stage>)
      requires Valid()
      modifies x.sc, store, x.tools, p`start, p`env
      ensures store.locked <==> why != Some(NotLocked)
      ensures store.faults >= old(store.faults)
      ensures why.Some? ==> why.value in {NotLocked, NotLoaded, BadInstaller, NotSaved}
      ensures why.Some? ==> store.file == old(store.file) && store.writes == old(store.writes)
      ensures why.Some? ==> p.start == old(p.start)
      ensures why.Some? && why.value != BadInstaller ==> store.faults > old(store.faults)
      ensures why == Some(BadInstaller) ==> x.tools.faults > old(x.tools.faults) || !InstallersValid(resources)
      ensures why != Some(BadInstaller) ==> x.tools.faults == old(x.tools.faults)
      ensures why.None? ==>
        x.sc.Valid() && fresh(x.sc.cache) && x.sc.Now() == p.start == store.Disk() && InEnv(p, world) &&
        x.tools.registry == p.env.reg
      ensures why.None? ==>
        p.start == FlagTaints(updateCfg, old(store.Disk())) && WellTyped(p.start) && InstallersValid(resources)
      ensures why.None? && old(x.tools.registry.installers) == map[] ==>
        Grouping.Registered(p.env.reg, Manifest.ById(resources))
      ensures why.None? ==> InstallersKnown(old(x.tools.registry), resources, p.env.reg)
    {
      hide View, EntryOf, FlagTaints, Manifest.ById, Grouping.Registered, InstallersKnown, InstallersValid,
        Executor.Wired;
      var ok := store.Lock();
      if !ok {
        return Some(NotLocked);
      }
      var loaded := store.Load();
      if loaded.None? {
        return Some(NotLoaded);
      }
      var st := loaded.value;
      ViewWellTyped(st.data);
      FlagsKeepTypes(updateCfg, st.Entries());
      ApplyUpdateTaints(st, updateCfg);
      ghost var registry := x.tools.registry;
      ok := RegisterInstallers(x.tools, resources);
      if !ok {
        return Some(BadInstaller);
      }
      if registry.installers == map[] {
        KnownRegistered(registry, resources, x.tools.registry);
      }
      ok := store.Save(st);
      if !ok {
        return Some(NotSaved);
      }
      x.sc.Init(st);
      p.start, p.env := x.sc.Now(), Env(x.tools.registry, world);
      why := None;
    }

    /** From the lock on. */
    method ApplyLocked(resources: seq<Resource>, layers: Layers, ghost level: map<NodeID, nat>, world: World,
                       ctx: Context, p: Progress)
      returns (out: Outcome)
      requires Valid() && p.Counted() && p.manifest == resources
      requires p.updated == {} && p.acted == {} && p.log == [] && p.reinstalled == [] && p.removed == []
      requires Grouping.Indexed(Manifest.ById(resources)) && Layering(p.graph, level, layers) && layers != []
      requires Manifest.ById(resources).Keys <= p.graph.nodes
      requires Resolver.DependenciesIn(Manifest.ById(resources), p.graph)
      modifies x.sc, store, x.tools, ctx,
        p`updated, p`total, p`acted, p`log, p`reinstalled, p`removed, p`start, p`mid, p`mark, p`env
      ensures p.Counted() && LockedOutcome(out)
      ensures !old(store.locked) && store.locked ==> store.faults > old(store.faults)
      ensures store.faults >= old(store.faults) && (Unstored(out) ==> store.faults > old(store.faults))
      ensures out == Failed(BadInstaller) ==> x.tools.faults > old(x.tools.faults) || !InstallersValid(resources)
      ensures out != Failed(BadInstaller) ==> x.tools.faults == old(x.tools.faults)
      ensures Began(out) ==>
        InEnv(p, world) && InstallersValid(resources) && InstallersKnown(old(x.tools.registry), resources, p.env.reg)
      ensures Began(out) && Promising(Manifest.ById(resources), p.env.reg, p.start, world) ==>
        !Scheduler.Failure(p.log) && out != Failed(ReinstallFailed)
      ensures !Began(out) ==>
        store.file == old(store.file) && store.writes == old(store.writes) && p.Told() == old(p.Told()).(env := p.env)
      ensures Began(out) ==>
        x.sc.Valid() && p.start == FlagTaints(updateCfg, old(store.Disk())) && Excused(out, ctx.cancelled, p.log)
      ensures out == Failed(LayerFailed) && !ctx.cancelled ==> FullyTried(Manifest.ById(resources), p.graph, p.log)
      ensures Began(out) ==> RunRight(p.Told(), x.sc.Now(), world, out)
      ensures Began(out) ==> DiskRight(p.Told(), x.sc.Now(), store.Disk(), store.writes, p.mark, out)
      ensures Began(out) && old(x.tools.registry.installers) == map[] ==>
        Grouping.Registered(x.tools.registry, Manifest.ById(resources))
    {
      hide *;
      Told(p);
      var why := Open(resources, world, p);
      if why.Some? {
        Told(p);
        NotOpened(why.value);
        if why.value != NotLocked {
          var _ := store.Unlock();
        }
        return Failed(why.value);
      }
      AtFirst(x, p);
      out := RunAll(resources, layers, level, world, ctx, p);
      EngineParts(this, p, world);
      SameInstallers(p.env.reg, x.tools.registry, Manifest.ById(resources));
      BeganLocked(out);
      var _ := store.Unlock();
    }

    /** What comes before the lock: the context, the sets, the graph. */
    method Prepare(resources: seq<Resource>, ctx: Context, p: Progress)
      returns (r: Result<(seq<Resource>, Layers), Stage>, ghost level: map<NodeID, nat>)
      modifies ctx, p`manifest, p`graph
      ensures Admitted(resources, p.manifest, p.graph, if r.Err? then Failed(r.error) else Done)
      ensures r.Err? ==> !Began(Failed(r.error)) && !Unstored(Failed(r.error)) && r.error != BadInstaller
      ensures r == Err(Cancelled(BeforeStart)) ==> ctx.cancelled
      ensures old(ctx.cancelled) ==> r == Err(Cancelled(BeforeStart))
      ensures r.Ok? ==> r.value.0 == p.manifest && Layering(p.graph, level, r.value.1) && r.value.1 != []
      ensures r.Ok? ==> Manifest.ById(p.manifest).Keys <= p.graph.nodes
      ensures r.Ok? ==> Resolver.DependenciesIn(Manifest.ById(p.manifest), p.graph)
      ensures r.Ok? ==>
        Manifest.ById(p.manifest) == Manifest.Desired(resources) && Grouping.Indexed(Manifest.ById(p.manifest))
    {
      hide Layering, Acyclic, SimpleCycle, Manifest.ById, Resolver.Describes, Resolver.AppendBuiltinInstallers,
        Manifest.Expansion, Manifest.Conflict, Manifest.Desired, Grouping.Indexed, Resolver.DependenciesIn;
      level := map[];
      var stop := ctx.Err();
      if stop {
        return Err(Cancelled(BeforeStart)), level;
      }
      var expanded := Manifest.ExpandSets(resources);
      if expanded.Err? {
        return Err(BadSets), level;
      }
      p.manifest := expanded.value;
      ManifestIndexed(resources, p.manifest);
      ghost var g;
      var layers;
      layers, g, level := Resolver.Resolve(expanded.value);
      p.graph := g;
      if layers.Err? {
        return Err(BadGraph(layers.error)), level;
      }
      r := Ok((expanded.value, layers.value));
    }

    /** The whole run. */
    method Apply(resources: seq<Resource>, world: World, ctx: Context) returns (out: Outcome, p: Progress)
      requires Valid()
      modifies x.sc, store, x.tools, ctx
      ensures Valid() && fresh(p) && p.Counted()
      ensures Admitted(resources, p.manifest, p.graph, out)
      ensures Unstored(out) ==> store.faults > old(store.faults)
      ensures !old(store.locked) && store.locked ==> store.faults > old(store.faults)
      ensures out == Failed(Cancelled(BeforeStart)) ==> ctx.cancelled
      ensures old(ctx.cancelled) ==> out == Failed(Cancelled(BeforeStart))
      ensures out == Failed(BadInstaller) ==> x.tools.faults > old(x.tools.faults) || !InstallersValid(p.manifest)
      ensures out != Failed(BadInstaller) ==> x.tools.faults == old(x.tools.faults)
      ensures Began(out) ==>
        InstallersValid(p.manifest) && InEnv(p, world) && InstallersKnown(old(x.tools.registry), p.manifest, p.env.reg)
      ensures !Began(out) ==>
        store.file == old(store.file) && store.writes == old(store.writes) && p.total == 0 && p.log == []
      ensures Began(out) ==>
        x.sc.Valid() && p.start == FlagTaints(updateCfg, old(store.Disk())) && Excused(out, ctx.cancelled, p.log)
      ensures out == Failed(LayerFailed) && !ctx.cancelled ==> FullyTried(Manifest.ById(p.manifest), p.graph, p.log)
      ensures Began(out) ==> RunRight(p.Told(), x.sc.Now(), world, out)
      ensures Began(out) ==> DiskRight(p.Told(), x.sc.Now(), store.Disk(), store.writes, p.mark, out)
      ensures out.Done? ==> Converged(Manifest.Desired(resources), store.Disk()) && AllExecuted(p.graph, p.log)
      ensures out.Done? ==> AsWanted(Manifest.Desired(resources), store.Disk())
      ensures Began(out) ==> Grounded(Manifest.Desired(resources), p.Told())
      ensures Admissible(resources, p.graph) && !ctx.cancelled ==>
        store.faults == old(store.faults) && x.tools.faults == old(x.tools.faults) ==>
        Unhindered(p.Told(), world) || Auspicious(p.Told(), world) ==> out.Done?
      ensures Began(out) && Converged(Manifest.Desired(resources), p.start) ==>
        p.total == 0 && store.Disk() == p.start && DidNothing(p.Told())
      ensures Began(out) ==> FollowsPlan(Manifest.Desired(resources), p.Told(), out)
      ensures Began(out) && old(x.tools.registry.installers) == map[] ==>
        Grouping.Registered(x.tools.registry, Manifest.Desired(resources))
    {
      hide *;
      p := new Progress(Env(x.tools.registry, world));
      Told(p);
      CountedNone(p);
      var ready, level := Prepare(resources, ctx, p);
      if ready.Err? {
        Told(p);
        NotBegun(ready.error);
        Reasons(resources, p.Told(), map[], world, Failed(ready.error), ctx.cancelled, false);
        return Failed(ready.error), p;
      }
      NotLockedAdmitted(resources, p.manifest, p.graph);
      Told(p);
      out := ApplyLocked(ready.value.0, ready.value.1, level, world, ctx, p);
      Told(p);
      LockedIs(out);
      if Began(out) {
        Headlines(resources, p.Told(), x.sc.Now(), store.Disk(), store.writes, p.mark, world, out);
        LayeringLevels(p.graph, level, ready.value.1);
        GroundedRun(p.Told(), level, x.sc.Now(), world, out);
      }
      CountedNone(p);
      Reasons(resources, p.Told(), if Began(out) then x.sc.Now() else map[], world, out, ctx.cancelled,
              x.tools.faults > old(x.tools.faults));
    }

    /** Idempotence: after a run that is done, whatever its flags, another one of the same manifest without flags
        does nothing; and it is done too unless it is cancelled or an operation on files fails (faults: how many had
        failed between the runs). */
    method ApplyTwice(resources: seq<Resource>, world1: World, world2: World, ctx1: Context, ctx2: Context)
      returns (out1: Outcome, out2: Outcome, p: Progress, ghost between: Snapshot, ghost faults: (nat, nat))
      requires Valid()
      modifies x.sc, store, x.tools, ctx1, ctx2, this`updateCfg
      ensures Valid()
      ensures out1.Done? ==> Converged(Manifest.Desired(resources), between) && store.Disk() == between
      ensures out1.Done? && Began(out2) ==> p.total == 0 && DidNothing(p.Told()) && !out2.Panicked?
      ensures out1.Done? && !ctx2.cancelled && faults == (store.faults, x.tools.faults) ==> out2.Done?
    {
      hide View, EntryOf, FlagTaints, Admitted, RunRight, DiskRight, Excused, Grouping.Registered, AllExecuted,
        FollowsPlan, Converged, Manifest.Desired, Manifest.ById, DidNothing, InEnv, Unhindered, Auspicious, Admissible,
        InstallersValid, TaintPhase.Answers, TaintedBy, Executor.Wired, StateCache.Valid, StateCache.Usable;
      var first;
      out1, first := Apply(resources, world1, ctx1);
      between, faults := store.Disk(), (store.faults, x.tools.faults);
      SetUpdateConfig(NoUpdates);
      out2, p := Apply(resources, world2, ctx2);
      if out1.Done? {
        ConvergedUnflagged(Manifest.Desired(resources), between);
        if Began(out2) {
          NothingToPanicAbout(p.Told(), x.sc.Now(), world2, out2);
        }
        if !ctx2.cancelled && faults == (store.faults, x.tools.faults) {
          Told(p);
          BeginsAgain(resources, first.manifest, first.graph, p.manifest, p.graph, out2);
          SameDesired(resources, p.manifest, p.graph, out2);
          IdleUnhindered(p.Told(), x.sc.Now(), world2, out2);
        }
      }
    }

    /** Trying again: after a run that did not succeed, whatever stopped it, another one of the same manifest without
        flags succeeds in an obliging world, provided the first began in a sound state (faults: how many operations on
        files had failed between the runs). */
    method ApplyRetry(resources: seq<Resource>, world1: World, world2: World, ctx1: Context, ctx2: Context)
      returns (out1: Outcome, out2: Outcome, first: Progress, ghost faults: (nat, nat))
      requires Valid()
      modifies x.sc, store, x.tools, ctx1, ctx2, this`updateCfg
      ensures Valid()
      ensures Began(out1) && !out1.Done? && SoundStart(first.Told()) && Obliging(world2) && !ctx2.cancelled &&
              faults == (store.faults, x.tools.faults)
              ==> out2.Done? && Converged(Manifest.Desired(resources), store.Disk())
    {
      hide *;
      out1, first := Apply(resources, world1, ctx1);
      faults := (store.faults, x.tools.faults);
      ghost var disk, known, now := store.Disk(), x.tools.registry, if Began(out1) then x.sc.Now() else map[];
      ghost var r1, writes, mark := first.Told(), store.writes, first.mark;
      Told(first);
      EngineParts(this, first, world1);
      SetUpdateConfig(NoUpdates);
      var p;
      out2, p := Apply(resources, world2, ctx2);
      Told(p);
      NoFlags(disk);
      if Began(out1) && !out1.Done? && SoundStart(r1) && Obliging(world2) && !ctx2.cancelled &&
        faults == (store.faults, x.tools.faults) {
        AdmittedStill(resources, r1.manifest, r1.graph, out1);
        BeginsAgain(resources, r1.manifest, r1.graph, p.manifest, p.graph, out2);
        RetryAuspicious(resources, r1, now, disk, writes, mark, world1, out1, known, p.Told(), world2, out2);
      }
    }

    /** What a run on the present file would do. */
    method PlanAll(resources: seq<Resource>) returns (r: Result<Plan, Stage>)
      requires Valid()
      modifies store`locked, store`faults
      ensures r.Ok? ==> r.value.Matches(Manifest.ById(resources), FlagTaints(updateCfg, store.Disk())) &&
                        !Blocked(resources, Manifest.ById(resources), FlagTaints(updateCfg, store.Disk()))
      ensures r.Err? ==> r.error in {NotLocked, NotLoaded, RemovalRefused}
      ensures store.locked || r in {Err(NotLocked), Err(NotLoaded)} ==> store.faults > old(store.faults)
      ensures r == Err(RemovalRefused) ==>
        Blocked(resources, Manifest.ById(resources), FlagTaints(updateCfg, store.Disk()))
    {
      hide View, EntryOf, FlagTaints, Lists, Blocked, Executor.Wired;
      var locked := store.Lock();
      if !locked {
        return Err(NotLocked);
      }
      var loaded := store.Load();
      var _ := store.Unlock();
      if loaded.None? {
        return Err(NotLoaded);
      }
      var st := loaded.value;
      ApplyUpdateTaints(st, updateCfg);
      var runtimes := ReconcileKind(resources, KindRuntime, st);
      var repos := ReconcileKind(resources, KindInstallerRepository, st);
      var tools := ReconcileKind(resources, KindTool, st);
      var removing := RemovalNames(runtimes);
      var allowed := removing == {};
      if removing != {} {
        allowed := CheckRemovalDependencies(removing, resources);
      }
      BlockedIs(resources, st.Entries(), runtimes, removing);
      r := if allowed then Ok(Plan(runtimes, repos, tools)) else Err(RemovalRefused);
    }

    /** Planning and then applying one expanded manifest: a run that is done did exactly what the plan lists, and a
        plan that is refused announces a run that will not be done. */
    method PlanThenApply(resources: seq<Resource>, world: World, ctx: Context)
      returns (plan: Result<Plan, Stage>, out: Outcome, p: Progress)
      requires Valid() && forall x :: x in resources ==> Manifest.Standalone(x)
      modifies x.sc, store, x.tools, ctx
      ensures Valid() && (plan.Ok? && out.Done? ==> plan.value.Predicts(p.Told()))
      ensures plan == Err(RemovalRefused) ==> !out.Done? && p.removed == []
    {
      hide *;
      StandaloneDesired(resources);
      DiskTyped(store, updateCfg);
      plan := PlanAll(resources);
      out, p := Apply(resources, world, ctx);
      CountedNone(p);
      AdmittedManifest(resources, p.manifest, p.graph, out);
      if Began(out) {
        PlanHolds(resources, plan, p.Told(), x.sc.Now(), world, out);
      }
    }
  }

  /** The three lists of a plan. */
  datatype Plan = Plan(runtimes: seq<PlanAction>, repos: seq<PlanAction>, tools: seq<PlanAction>)
  {
    function Of(kind: Kind): seq<PlanAction> {
      match kind
      case KindRuntime => runtimes
      case KindInstallerRepository => repos
      case KindTool => tools
      case _ => []
    }

    ghost predicate Matches(want: map<NodeID, Resource>, s: Snapshot) {
      && Lists(KindRuntime, want, s, runtimes)
      && Lists(KindInstallerRepository, want, s, repos)
      && Lists(KindTool, want, s, tools)
    }

    ghost predicate Contains(id: NodeID, act: ActionType) {
      exists i :: 0 <= i < |Of(id.kind)| && Of(id.kind)[i].name == id.name && Of(id.kind)[i].typ == act
    }

    /** The layers and the removal phase of the run took exactly the listed actions. */
    ghost predicate Predicts(r: Record) {
      && (forall id, act :: act != ActionRemove ==> (Contains(id, act) <==> Scheduler.Act(id, act) in r.log))
      && (forall id :: Contains(id, ActionRemove) <==> id in r.removed)
    }
  }

  /** What ended the loop over the layers: nothing, and then no execution failed; a cancellation; an execution
      that failed; or a failed write. */
  ghost predicate Blamed(why: Option<Stage>, cancelled: bool, log: seq<Scheduler.Event>) {
    match why
    case None => !Scheduler.Failure(log)
    case Some(Cancelled(at)) => at == BeforeLayer && cancelled && !Scheduler.Failure(log)
    case Some(LayerFailed) => cancelled || Scheduler.Failure(log)
    case Some(LayerNotFlushed) => true
    case Some(_) => false
  }

  lemma CancelledBlamed(at: Checkpoint, log: seq<Scheduler.Event>)
    requires at == BeforeLayer && !Scheduler.Failure(log)
    ensures Blamed(Some(Cancelled(at)), true, log)
  {
  }

  lemma FlushBlamed(cancelled: bool, log: seq<Scheduler.Event>)
    ensures Blamed(Some(LayerNotFlushed), cancelled, log)
  {
  }

  lemma LayerBlamed(cancelled: bool, log: seq<Scheduler.Event>)
    requires cancelled || Scheduler.Failure(log)
    ensures Blamed(Some(LayerFailed), cancelled, log)
  {
  }

  lemma NothingBlamed(cancelled: bool)
    ensures Blamed(None, cancelled, [])
  {
  }

  lemma DisjointActed(b: Point, level: map<NodeID, nat>, g: Graph, k: nat, layer: set<NodeID>)
    requires level.Keys == g.nodes && b.acted <= Below(g, level, k) && layer !! Below(g, level, k)
    ensures layer !! b.acted
  {
  }

  lemma LayeringLevels(g: Graph, level: map<NodeID, nat>, layers: Layers)
    requires Layering(g, level, layers)
    ensures Leveled(g, level)
  {
  }

  lemma SoFarIs(want: map<NodeID, Resource>, g: Graph, level: map<NodeID, nat>, k: nat, start: Snapshot,
                done: set<NodeID>, b: Point, cancelled: bool)
    requires LayersSoFar(want, g, level, k, start, done, b, cancelled)
    ensures Ran(want, g, start, done, b) && OrderKept(g, b.log) && !Scheduler.Failure(b.log)
    ensures level.Keys == g.nodes && b.acted <= Below(g, level, k) && (!cancelled ==> done == Below(g, level, k))
    ensures forall c: bool :: Blamed(None, c, b.log)
  {
    hide OrderKept, Scheduler.Failure, Barrier;
    OrderIs(g, level, b.log);
    LayersOver(want, g, level, k, start, done, b);
  }

  lemma SoFarUncancelled(want: map<NodeID, Resource>, g: Graph, level: map<NodeID, nat>, k: nat, start: Snapshot,
                         done: set<NodeID>, b: Point, cancelled: bool)
    requires LayersSoFar(want, g, level, k, start, done, b, cancelled) && !cancelled
    ensures LayersSoFar(want, g, level, k, start, done, b, false)
  {
  }

  // ----- After the layers -------------------------------------------------------------------------

  /** Every node was executed without an error. */
  ghost predicate LayersDone(want: map<NodeID, Resource>, g: Graph, start: Snapshot, b: Point) {
    && Grouping.Indexed(want) && WellTyped(start) && want.Keys <= g.nodes
    && Ran(want, g, start, g.nodes, b)
  }

  lemma DoneIs(want: map<NodeID, Resource>, g: Graph, start: Snapshot, b: Point)
    requires LayersDone(want, g, start, b)
    ensures Grouping.Indexed(want) && Current(want, b.cache)
    ensures forall id :: id !in want ==> Get(b.cache, id) == Get(start, id)
  {
  }

  predicate PastTaints(out: Outcome) {
    out in {Done, Failed(Cancelled(BeforeRemovals)), Failed(RemovalRefused), Failed(RemovalFailed), Failed(NotFlushed)}
  }

  /** The taint phase installs exactly the due tools again before the run goes on. It breaks off at a tool that
      cannot be installed, and it panics exactly when, with a runtime updated, a recorded tool is no longer in
      the manifest; all due tools of the manifest have been installed by then. */
  ghost predicate TaintsRight(want: map<NodeID, Resource>, start: Snapshot, mid: Snapshot, updated: set<NodeID>,
                              ids: seq<NodeID>, out: Outcome)
  {
    && NoDup(ids)
    && (forall id :: id in ids ==> id in want && Due(start, mid, id))
    && (PastTaints(out) ==> Members(ids) == DueSet(start, mid))
    && (PastTaints(out) ==> updated == {} || forall id :: !TaintPhase.StaleTool(want, mid, id))
    && (out.Panicked? ==> updated != {} && exists id :: TaintPhase.StaleTool(want, mid, id))
    && (out.Panicked? ==> forall id :: id in want && Due(start, mid, id) ==> id in ids)
    && (out == Failed(ReinstallFailed) ==> exists id :: id !in ids && id in want && Due(start, mid, id))
    && (out in {Failed(Cancelled(BeforeTaints)), Failed(TaintsNotFlushed)} ==> ids == [])
  }

  lemma RightGoesOn(want: map<NodeID, Resource>, start: Snapshot, mid: Snapshot, updated: set<NodeID>, ids: seq<NodeID>,
                    out: Outcome)
    requires TaintsRight(want, start, mid, updated, ids, Done) && PastTaints(out)
    ensures TaintsRight(want, start, mid, updated, ids, out)
  {
  }

  ghost predicate AfterTaints(want: map<NodeID, Resource>, mid: Snapshot, updated: set<NodeID>, ids: seq<NodeID>,
                              c: Snapshot)
  {
    if updated == {} then ids == [] &&
      c == mid else TaintPhase.Tainted(want, mid, updated, ids, c, TaintPhase.Completed)
  }

  ghost predicate WritesKeep(due: set<NodeID>, ids: seq<NodeID>, before: seq<Snapshot>, after: seq<Snapshot>) {
    before <= after && forall i :: |before| <= i < |after| ==> TaintKept(due, ids, after[i])
  }

  lemma NoTaintsRight(want: map<NodeID, Resource>, g: Graph, start: Snapshot, b: Point, writes: seq<Snapshot>)
    requires LayersDone(want, g, start, b) && b.updated == {}
    ensures TaintsRight(want, start, b.cache, {}, [], Done) && AfterTaints(want, b.cache, {}, [], b.cache)
    ensures TaintedBy(b.cache, {}) == b.cache
    ensures DueSet(start, b.cache) == {} && forall s, ids :: TaintKept(DueSet(start, b.cache), ids, s)
    ensures forall ids :: WritesKeep(DueSet(start, b.cache), ids, writes, writes)
  {
    forall id ensures !Due(start, b.cache, id) {
      DueExactly(want, g, start, g.nodes, b, id);
    }
  }

  function Ended(end: TaintPhase.End): Outcome {
    match end
    case Completed => Done
    case FlushFailed => Failed(TaintsNotFlushed)
    case Broken => Failed(ReinstallFailed)
    case Crashed => Panicked
  }

  lemma TaintsAreRight(want: map<NodeID, Resource>, g: Graph, start: Snapshot, b: Point, ids: seq<NodeID>, c: Snapshot,
                       end: TaintPhase.End)
    requires LayersDone(want, g, start, b) && b.updated != {}
    requires TaintPhase.Tainted(want, b.cache, b.updated, ids, c, end)
    ensures TaintsRight(want, start, b.cache, b.updated, ids, Ended(end))
    ensures end.Completed? ==> AfterTaints(want, b.cache, b.updated, ids, c)
  {
    hide Ran, Due, ShouldTaint, Stale, TaintedBy;
    forall id {:trigger Due(start, b.cache, id)} ensures ShouldTaint(b.cache, b.updated, id) <==>
      Due(start, b.cache, id)
      ensures Due(start, b.cache, id) ==> id in b.cache {
      DueExactly(want, g, start, g.nodes, b, id);
      ShouldTaintRecorded(b.cache, b.updated, id);
    }
    if end.Completed? {
      forall id ensures id in Members(ids) <==> id in DueSet(start, b.cache) {
        assert Due(start, b.cache, id) <==> ShouldTaint(b.cache, b.updated, id);
      }
    }
  }

  lemma StillRecorded(want: map<NodeID, Resource>, start: Snapshot, now: Snapshot)
    requires forall id :: id !in want ==> Get(now, id) == Get(start, id)
    ensures Removals.Gone(want, start) <= now.Keys
  {
  }

  lemma TaintsRemoveNothing(want: map<NodeID, Resource>, g: Graph, start: Snapshot, b: Point, ids: seq<NodeID>,
                            c: Snapshot, end: TaintPhase.End)
    requires LayersDone(want, g, start, b) && TaintPhase.Tainted(want, b.cache, b.updated, ids, c, end)
    ensures Removals.Gone(want, start) <= c.Keys
  {
    hide Ran, ShouldTaint, Stale;
    DoneIs(want, g, start, b);
    forall id | id in Removals.Gone(want, start) ensures id in c {
      assert Get(b.cache, id) == Get(start, id);
      assert id !in ids && Get(c, id) == Get(TaintedBy(b.cache, b.updated), id);
    }
  }

  lemma TaintsReachFile(want: map<NodeID, Resource>, g: Graph, start: Snapshot, b: Point, ids: seq<NodeID>,
                        writes: seq<Snapshot>)
    requires LayersDone(want, g, start, b)
    ensures var due, t := DueSet(start, b.cache), TaintedBy(b.cache, b.updated);
            TaintKept(due, ids, t) && WritesKeep(due, ids, writes, writes) && WritesKeep(due, ids, writes, writes + [t])
  {
  }

  lemma NoWrites(due: set<NodeID>, ids: seq<NodeID>, writes: seq<Snapshot>)
    ensures WritesKeep(due, ids, writes, writes)
  {
  }

  lemma OneWrite(due: set<NodeID>, ids: seq<NodeID>, writes: seq<Snapshot>, s: Snapshot)
    requires TaintKept(due, ids, s)
    ensures WritesKeep(due, ids, writes, writes + [s])
  {
  }

  /** A tool of the manifest names a recorded runtime that the manifest no longer has. */
  ghost predicate Blocked(resources: seq<Resource>, want: map<NodeID, Resource>, s: Snapshot) {
    exists id :: id in Removals.GoneOf(want, s, KindRuntime) && Named(resources, id)
  }

  /** Removed are only planned removals whose command succeeded, in order, and never a runtime that a tool of
      the manifest names; an entry is gone exactly if it was removed; a run that is done removed all; a
      blocked run removes nothing and is not done. */
  ghost predicate RemovalsRight(resources: seq<Resource>, want: map<NodeID, Resource>, start: Snapshot,
                                ids: seq<NodeID>, now: Snapshot, world: World, out: Outcome)
  {
    && NoDup(ids) && Removals.InOrder(want, start, ids)
    && (forall id :: id in ids ==> id in Removals.Gone(want, start) && world(PhaseRemove, id).removed)
    && (forall id :: id in ids && id.kind == KindRuntime ==> !Named(resources, id))
    && (forall id :: id in Removals.Gone(want, start) ==> (id in now <==> id !in ids))
    && (out.Done? ==> Members(ids) == Removals.Gone(want, start))
    && (Blocked(resources, want, start) ==>
         ids == [] && !(out in {Done, Failed(RemovalFailed), Failed(NotFlushed)}))
    && (out == Failed(RemovalRefused) ==> Blocked(resources, want, start))
    && (out == Failed(RemovalFailed) ==>
        exists id :: id in Removals.Gone(want, start) && id !in ids && !world(PhaseRemove, id).removed)
  }

  function Swept(end: Removals.End): Outcome {
    match end
    case Completed => Done
    case Refused => Failed(RemovalRefused)
    case Broken => Failed(RemovalFailed)
  }

  /** Neither the layers nor the taint phase changes which unwanted names are recorded. */
  lemma SameGone(want: map<NodeID, Resource>, g: Graph, start: Snapshot, b: Point, ids: seq<NodeID>, c: Snapshot)
    requires LayersDone(want, g, start, b) && AfterTaints(want, b.cache, b.updated, ids, c)
    ensures Removals.Gone(want, c) == Removals.Gone(want, start)
  {
    hide Ran, Stale, ShouldTaint, Planned, TaintedBy;
    DoneIs(want, g, start, b);
    if b.updated != {} {
      RemovalsFollowPlan(want, start, b.cache, b.updated, ids, c);
      RemovalsFollowPlan(want, start, start, {}, [], start) by { NoTaints(want, start); }
    } else {
      forall id ensures id in Removals.Gone(want, c) <==> id in Removals.Gone(want, start) {
        assert id !in want ==> Get(c, id) == Get(start, id);
      }
    }
  }

  lemma RemovalsAreRight(resources: seq<Resource>, want: map<NodeID, Resource>, g: Graph, start: Snapshot, b: Point,
                         ids: seq<NodeID>, c: Snapshot, gone: seq<NodeID>, after: Snapshot, end: Removals.End,
                         world: World)
    requires LayersDone(want, g, start, b) && AfterTaints(want, b.cache, b.updated, ids, c)
    requires Removals.Cleaned(resources, want, c, gone, after, end, world)
    ensures RemovalsRight(resources, want, start, gone, after, world, Swept(end))
    ensures end.Completed? ==> RemovalsRight(resources, want, start, gone, after, world, Failed(NotFlushed))
  {
    hide LayersDone, AfterTaints, Named, Removals.InOrder;
    SameGone(want, g, start, b, ids, c);
    assert Removals.GoneOf(want, c, KindRuntime) == Removals.GoneOf(want, start, KindRuntime);
    assert Removals.InOrder(want, c, gone) ==>
      Removals.InOrder(want, start, gone) by { SameOrder(want, c, start, gone); }
    assert forall id :: id in Removals.Gone(want, start) ==> id in c;
  }

  lemma NoneRemoved(resources: seq<Resource>, want: map<NodeID, Resource>, c: Snapshot, gone: seq<NodeID>,
                    after: Snapshot, end: Removals.End, world: World)
    requires Removals.Cleaned(resources, want, c, gone, after, end, world)
    ensures gone == [] ==> after == c
    ensures forall id :: id in want ==> Get(after, id) == Get(c, id)
  {
  }

  lemma SameOrder(want: map<NodeID, Resource>, s: Snapshot, t: Snapshot, ids: seq<NodeID>)
    requires Removals.Gone(want, s) == Removals.Gone(want, t)
    ensures Removals.InOrder(want, s, ids) ==> Removals.InOrder(want, t, ids)
  {
  }

  lemma AllSettled(resources: seq<Resource>, want: map<NodeID, Resource>, g: Graph, start: Snapshot, b: Point,
                   ids: seq<NodeID>, c: Snapshot, gone: seq<NodeID>, after: Snapshot, world: World)
    requires LayersDone(want, g, start, b) && AfterTaints(want, b.cache, b.updated, ids, c) && WellTyped(c)
    requires Removals.Cleaned(resources, want, c, gone, after, Removals.Completed, world)
    ensures Converged(want, after) && TaintKept(DueSet(start, b.cache), ids, after)
  {
    hide Ran, Current, TaintPhase.Tainted, Removals.Cleaned, TaintKept, Converged, DueSet;
    DoneIs(want, g, start, b);
    if b.updated == {} {
      ConvergesUntouched(resources, want, b.cache, gone, after, world);
      NoTaintsRight(want, g, start, b, []);
    } else {
      Converges(resources, want, b.cache, b.updated, ids, c, gone, after, world);
      TaintsReplaced(want, g, start, b, ids, c, resources, gone, after, world);
    }
  }

  /** The state could not be locked, read or written. */
  predicate Unstored(out: Outcome) {
    out.Failed? && out.why in {NotLocked, NotLoaded, NotSaved, LayerNotFlushed, TaintsNotFlushed, NotFlushed}
  }

  predicate FinishOutcome(out: Outcome) {
    out.Done? || out.Panicked? ||
    out.why in {Cancelled(BeforeTaints), TaintsNotFlushed, ReinstallFailed, Cancelled(BeforeRemovals), RemovalRefused,
                RemovalFailed, NotFlushed}
  }

  ghost predicate EndsRight(resources: seq<Resource>, want: map<NodeID, Resource>, start: Snapshot, mid: Snapshot,
                            updated: set<NodeID>, reinstalled: seq<NodeID>, removed: seq<NodeID>, now: Snapshot,
                            world: World, out: Outcome)
  {
    && TaintsRight(want, start, mid, updated, reinstalled, out)
    && RemovalsRight(resources, want, start, removed, now, world, out)
    && OthersKept(want, mid, updated, reinstalled, now, out)
  }

  /** Of the manifest's entries the phases after the layers change only those that are installed again. */
  ghost predicate OthersKept(want: map<NodeID, Resource>, mid: Snapshot, updated: set<NodeID>, ids: seq<NodeID>,
                             now: Snapshot, out: Outcome)
  {
    PastTaints(out) ==>
      forall id :: id in want && id !in ids ==> Get(now, id) == Get(TaintedBy(mid, updated), id)
  }

  lemma OthersStay(want: map<NodeID, Resource>, mid: Snapshot, updated: set<NodeID>, ids: seq<NodeID>, s: Snapshot,
                   now: Snapshot, out: Outcome)
    requires AfterTaints(want, mid, updated, ids, s) && forall id :: id in want ==> Get(now, id) == Get(s, id)
    ensures OthersKept(want, mid, updated, ids, now, out)
  {
    hide TaintedBy;
    UntouchedEnds(want, mid, updated, ids, s);
  }

  lemma EndsEarly(resources: seq<Resource>, want: map<NodeID, Resource>, start: Snapshot, mid: Snapshot,
                  updated: set<NodeID>, ids: seq<NodeID>, now: Snapshot, world: World, out: Outcome)
    requires TaintsRight(want, start, mid, updated, ids, out) && Removals.Gone(want, start) <= now.Keys
    requires out in {Panicked, Failed(TaintsNotFlushed), Failed(ReinstallFailed)}
    ensures EndsRight(resources, want, start, mid, updated, ids, [], now, world, out) && FinishOutcome(out)
    ensures Unstored(out) <==> out == Failed(TaintsNotFlushed)
    ensures PastLayers(out)
  {
    hide TaintsRight, Removals.Gone;
    NotRemoved(resources, want, start, now, world, out);
  }

  lemma EndsCancelled(resources: seq<Resource>, want: map<NodeID, Resource>, start: Snapshot, mid: Snapshot,
                      updated: set<NodeID>, ids: seq<NodeID>, now: Snapshot, world: World)
    requires TaintsRight(want, start, mid, updated, ids, Done) && Removals.Gone(want, start) <= now.Keys
    requires AfterTaints(want, mid, updated, ids, now)
    ensures var out := Failed(Cancelled(BeforeRemovals));
            EndsRight(resources, want, start, mid, updated, ids, [], now, world, out) && FinishOutcome(out) &&
              !Unstored(out)
  {
    hide TaintsRight, Removals.Gone, OthersKept, AfterTaints;
    OthersStay(want, mid, updated, ids, now, now, Failed(Cancelled(BeforeRemovals)));
    NotRemoved(resources, want, start, now, world, Failed(Cancelled(BeforeRemovals)));
    RightGoesOn(want, start, mid, updated, ids, Failed(Cancelled(BeforeRemovals)));
  }

  lemma EndsLate(resources: seq<Resource>, want: map<NodeID, Resource>, start: Snapshot, mid: Snapshot,
                 updated: set<NodeID>, ids: seq<NodeID>, s: Snapshot, removed: seq<NodeID>, now: Snapshot, world: World,
                 out: Outcome)
    requires TaintsRight(want, start, mid, updated, ids, Done) && AfterTaints(want, mid, updated, ids, s)
    requires forall id :: id in want ==> Get(now, id) == Get(s, id)
    requires RemovalsRight(resources, want, start, removed, now, world, out)
    requires out in {Done, Failed(RemovalRefused), Failed(RemovalFailed), Failed(NotFlushed)}
    ensures EndsRight(resources, want, start, mid, updated, ids, removed, now, world, out) && FinishOutcome(out)
    ensures Unstored(out) <==> out == Failed(NotFlushed)
    ensures out != Failed(ReinstallFailed)
  {
    hide TaintsRight, RemovalsRight, OthersKept, AfterTaints;
    OthersStay(want, mid, updated, ids, s, now, out);
    RightGoesOn(want, start, mid, updated, ids, out);
  }

  lemma UntouchedEnds(want: map<NodeID, Resource>, mid: Snapshot, updated: set<NodeID>, ids: seq<NodeID>, s: Snapshot)
    requires AfterTaints(want, mid, updated, ids, s)
    ensures updated == {} ==> s == mid && TaintedBy(mid, updated) == mid
  {
    hide TaintPhase.Tainted;
    if updated == {} {
      SameLookups(TaintedBy(mid, {}), mid);
    }
  }

  /** Outcomes of runs that never came to the removal phase. */
  predicate BeforeRemoving(out: Outcome) {
    out.Panicked? || (out.Failed? && !(out.why in {RemovalRefused, RemovalFailed, NotFlushed}))
  }

  lemma NotRemoved(resources: seq<Resource>, want: map<NodeID, Resource>, start: Snapshot, now: Snapshot, world: World,
                   out: Outcome)
    requires BeforeRemoving(out) && Removals.Gone(want, start) <= now.Keys
    ensures RemovalsRight(resources, want, start, [], now, world, out)
  {
  }

  /** A run that ends before the taint phase. */
  predicate Early(out: Outcome) {
    out.Failed? && out.why in {Cancelled(BeforeLayer), LayerFailed, LayerNotFlushed, Cancelled(BeforeTaints)}
  }

  lemma EarlyRight(resources: seq<Resource>, want: map<NodeID, Resource>, g: Graph, start: Snapshot, done: set<NodeID>,
                   b: Point, world: World)
    requires Ran(want, g, start, done, b)
    ensures forall out :: Early(out) ==>
      EndsRight(resources, want, start, b.cache, b.updated, [], [], b.cache, world, out)
  {
    hide Ran, RemovalsRight, Removals.Gone;
    UnwantedKept(want, g, start, done, b);
    StillRecorded(want, start, b.cache);
    forall out | Early(out) ensures RemovalsRight(resources, want, start, [], b.cache, world, out) {
      NotRemoved(resources, want, start, b.cache, world, out);
    }
  }

  lemma NowDone(want: map<NodeID, Resource>, g: Graph, start: Snapshot, done: set<NodeID>, b: Point)
    requires Grouping.Indexed(want) && WellTyped(start) && want.Keys <= g.nodes && Ran(want, g, start, done, b)
    requires done == g.nodes
    ensures LayersDone(want, g, start, b)
  {
  }

  lemma KeptFrom(due: set<NodeID>, ids: seq<NodeID>, before: seq<Snapshot>, after: seq<Snapshot>, mark: nat)
    requires WritesKeep(due, ids, before, after) && mark == |before|
    ensures mark <= |after| && after[..mark] == before
  {
  }

  lemma WritesKeepTwice(due: set<NodeID>, ids: seq<NodeID>, a: seq<Snapshot>, b: seq<Snapshot>, c: seq<Snapshot>)
    requires WritesKeep(due, ids, a, b) && WritesKeep(due, ids, b, c)
    ensures WritesKeep(due, ids, a, c)
  {
  }

  predicate Began(out: Outcome) {
    !(out.Failed? && out.why in {Cancelled(BeforeStart), BadSets, NotLocked, NotLoaded, BadInstaller, NotSaved}) &&
    !(out.Failed? && out.why.BadGraph?)
  }

  predicate PastLayers(out: Outcome) {
    out.Done? || out.Panicked? ||
    out.why in {TaintsNotFlushed, ReinstallFailed, Cancelled(BeforeRemovals), RemovalRefused, RemovalFailed, NotFlushed}
  }

  function Over(r: Record): Point {
    Point(r.mid, r.updated, r.acted, r.log)
  }

  /** The layers are a stretch of the run over the graph; only if it executed every node does the run go on. */
  ghost predicate LayersRight(r: Record, out: Outcome) {
    && WellPosed(r)
    && RunAnswered(Manifest.ById(r.manifest), r.env, r.start, Over(r))
    && exists done ::
         && Ran(Manifest.ById(r.manifest), r.graph, r.start, done, Over(r))
         && (PastLayers(out) ==> done == r.graph.nodes)
  }

  ghost predicate WellPosed(r: Record) {
    Grouping.Indexed(Manifest.ById(r.manifest)) && WellTyped(r.start) && Manifest.ById(r.manifest).Keys <= r.graph.nodes
  }

  /** What was installed again has the entry its installer answered, told of the runtimes that the layers left; and if
      the phase broke off, some tool cannot be installed. */
  ghost predicate TaintsAnswered(r: Record, now: Snapshot, out: Outcome) {
    TaintPhase.Answers(Informed(r.env.reg, r.mid), Manifest.ById(r.manifest), TaintedBy(r.mid, r.updated),
                       r.reinstalled, now, r.env.world, out == Failed(ReinstallFailed))
  }

  lemma AnsweredIs(r: Record, now: Snapshot, out: Outcome)
    ensures TaintsAnswered(r, now, out) <==>
      TaintPhase.Answers(Informed(r.env.reg, r.mid), Manifest.ById(r.manifest), TaintedBy(r.mid, r.updated),
                         r.reinstalled, now, r.env.world, out == Failed(ReinstallFailed))
  {
  }

  /** What every run keeps, however it ends. */
  ghost predicate RunRight(r: Record, now: Snapshot, world: World, out: Outcome) {
    && r.env.world == world
    && LayersRight(r, out)
    && OrderKept(r.graph, r.log)
    && EndsRight(r.manifest, Manifest.ById(r.manifest), r.start, r.mid, r.updated, r.reinstalled, r.removed, now,
                 world, out)
    && TaintsAnswered(r, now, out)
  }

  /** The errors that have to do with the layers are excused by a cancellation or a failed execution. */
  ghost predicate Excused(out: Outcome, cancelled: bool, log: seq<Scheduler.Event>) {
    && (out == Failed(LayerFailed) ==> cancelled || Scheduler.Failure(log))
    && (out.Failed? && out.why.Cancelled? ==> cancelled)
    && (!(out in {Failed(LayerFailed), Failed(LayerNotFlushed)}) ==> !Scheduler.Failure(log))
  }

  /** The run upgraded what it upgraded, but the marks of the tools that depend on it did not reach the file. */
  predicate Unmarked(out: Outcome) {
    out in {Failed(Cancelled(BeforeLayer)), Failed(LayerFailed), Failed(Cancelled(BeforeTaints)),
            Failed(TaintsNotFlushed)}
  }

  /** The file: done means converged; after a layer that failed it holds everything done so far; a layer that
      could not be written leaves the file as after the layer before; without the taint flush exactly the foreseen
      reinstallations are lost, from it on the file holds the marks until all is done, and a due tool is marked or was
      installed again; and nothing to do means nothing is changed. */
  ghost predicate DiskRight(r: Record, now: Snapshot, disk: Snapshot, writes: seq<Snapshot>, mark: nat, out: Outcome) {
    var want := Manifest.ById(r.manifest);
    && (out.Done? ==> Converged(want, disk) && disk == now)
    && (Unmarked(out) ==> disk == r.mid && (out != Failed(TaintsNotFlushed) ==> now == r.mid))
    && (Unmarked(out) ==>
         r.reinstalled == [] && LossAsForeseen(want, r.env, r.start, r.mid, r.log, disk))
    && (out == Failed(LayerNotFlushed) ==>
        exists b :: PointBefore(want, r.env, r.graph, r.start, b, r.log) && disk == b.cache)
    && mark <= |writes| && WritesKeep(DueSet(r.start, r.mid), r.reinstalled, writes[..mark], writes)
    && (PastLayers(out) && !out.Done? && out != Failed(TaintsNotFlushed) ==> disk == TaintedBy(r.mid, r.updated))
    && (PastLayers(out) && out != Failed(TaintsNotFlushed) ==> TaintKept(DueSet(r.start, r.mid), r.reinstalled, disk))
    && (Converged(want, r.start) ==> disk == now == r.start)
  }

  lemma Told(p: Progress)
    ensures p.Told() == Record(p.env, p.manifest, p.graph, p.start, p.mid, p.updated, p.acted, p.log, p.reinstalled,
                               p.removed)
    ensures Over(p.Told()) == Point(p.mid, p.updated, p.acted, p.log)
    ensures WellPosed(p.Told()) <==>
      Grouping.Indexed(Manifest.ById(p.manifest)) && WellTyped(p.start) &&
        Manifest.ById(p.manifest).Keys <= p.graph.nodes
  {
  }

  /** How a run can stop in its layers. */
  ghost predicate Stopped(why: Stage, cancelled: bool, log: seq<Scheduler.Event>) {
    Early(Failed(why)) && why != Cancelled(BeforeTaints) && Excused(Failed(why), cancelled, log)
  }

  lemma StoppedIs(why: Stage, cancelled: bool, log: seq<Scheduler.Event>)
    requires Stopped(why, cancelled, log)
    ensures Began(Failed(why)) && Excused(Failed(why), cancelled, log) && why != ReinstallFailed
    ensures Unstored(Failed(why)) ==> why == LayerNotFlushed
  {
  }

  lemma NotBegun(why: Stage)
    ensures !Began(Failed(why)) ==> why != ReinstallFailed && why != LayerFailed
  {
  }

  lemma LockedIs(out: Outcome)
    requires LockedOutcome(out)
    ensures out != Failed(Cancelled(BeforeStart)) && (out == Failed(ReinstallFailed) ==> Began(out))
    ensures (out.Done? ==> Began(out))
  {
  }

  lemma NotOpened(why: Stage)
    requires why in {NotLocked, NotLoaded, BadInstaller, NotSaved}
    ensures !Began(Failed(why)) && LockedOutcome(Failed(why)) && (Unstored(Failed(why)) <==> why != BadInstaller)
  {
  }

  lemma BeganLocked(out: Outcome)
    requires Began(out)
    ensures LockedOutcome(out) && out != Failed(BadInstaller)
  {
  }

  lemma AtFirst(x: Executor, p: Progress)
    requires x.sc.cache != null && p.updated == {} && p.acted == {} && p.log == []
    ensures x.Here(p) == Fresh(x.sc.Now())
  {
  }

  lemma EngineParts(e: Engine, p: Progress, world: World)
    ensures e.Valid() ==> e.x.sc.store == e.store
    ensures e.InEnv(p, world) ==>
      p.env.world == world && e.x.tools.registry == p.env.reg.(runtimes := e.x.tools.registry.runtimes)
  {
  }

  lemma BlamedIs(why: Option<Stage>, cancelled: bool, log: seq<Scheduler.Event>)
    requires Blamed(why, cancelled, log)
    ensures why.Some? ==>
      Early(Failed(why.value)) && why != Some(Cancelled(BeforeTaints)) && Stopped(why.value, cancelled, log)
    ensures why.None? ==> !Scheduler.Failure(log)
  {
  }

  lemma StoppedRight(r: Record, done: set<NodeID>, b: Point, saved: Point, writes: seq<Snapshot>, world: World,
                     out: Outcome)
    requires Ran(Manifest.ById(r.manifest), r.graph, r.start, done, b) && b == Over(r) && OrderKept(r.graph, r.log)
    requires PointBefore(Manifest.ById(r.manifest), r.env, r.graph, r.start, saved, r.log)
    requires out != Failed(LayerNotFlushed) ==> saved == b
    requires Early(out) && out != Failed(Cancelled(BeforeTaints)) && r.reinstalled == [] && r.removed == []
    requires WellPosed(r) && RunAnswered(Manifest.ById(r.manifest), r.env, r.start, b) && r.env.world == world
    ensures RunRight(r, b.cache, world, out) && DiskRight(r, b.cache, saved.cache, writes, |writes|, out)
  {
    hide Ran, OrderKept, EndsRight, Converged, TaintKept, DueSet, RunAnswered, WellPosed, Due;
    var want := Manifest.ById(r.manifest);
    EarlyRight(r.manifest, want, r.graph, r.start, done, b, world);
    TaintPhase.NoAnswers(Informed(r.env.reg, r.mid), want, TaintedBy(r.mid, r.updated), b.cache, world);
    PosedWell(r);
    LossesForeseen(want, r.env, r.graph, r.start, done, b);
    assert writes[..|writes|] == writes;
    if Converged(want, r.start) {
      Idle(want, r.graph, r.start, done, b);
      var savedDone :| Ran(want, r.graph, r.start, savedDone, saved);
      Idle(want, r.graph, r.start, savedDone, saved);
    }
  }

  lemma FinishedRight(r: Record, done: set<NodeID>, b: Point, now: Snapshot, disk: Snapshot, writes: seq<Snapshot>,
                      mark: nat, world: World, out: Outcome, cancelled: bool)
    requires Ran(Manifest.ById(r.manifest), r.graph, r.start, done, b) && b == Over(r) && OrderKept(r.graph, r.log)
    requires !Scheduler.Failure(r.log)
    requires FinishOutcome(out) && (out != Failed(Cancelled(BeforeTaints)) ==> done == r.graph.nodes)
    requires out in {Failed(Cancelled(BeforeTaints)), Failed(Cancelled(BeforeRemovals))} ==> cancelled
    requires EndsRight(r.manifest, Manifest.ById(r.manifest), r.start, r.mid, r.updated, r.reinstalled, r.removed, now,
                       world, out)
    requires mark <= |writes| && WritesKeep(DueSet(r.start, r.mid), r.reinstalled, writes[..mark], writes)
    requires !(out in {Failed(Cancelled(BeforeTaints)), Failed(TaintsNotFlushed)}) ==>
      TaintKept(DueSet(r.start, r.mid), r.reinstalled, disk)
    requires out.Done? ==> Converged(Manifest.ById(r.manifest), disk) && disk == now
    requires r.updated == {} && r.removed == [] ==> now == r.mid == disk
    requires out == Failed(Cancelled(BeforeTaints)) ==> disk == now == r.mid
    requires out == Failed(TaintsNotFlushed) ==> disk == r.mid
    requires PastLayers(out) && !out.Done? && out != Failed(TaintsNotFlushed) ==> disk == TaintedBy(r.mid, r.updated)
    requires WellPosed(r) && RunAnswered(Manifest.ById(r.manifest), r.env, r.start, b) && r.env.world == world
    requires TaintsAnswered(r, now, out)
    ensures RunRight(r, now, world, out) && DiskRight(r, now, disk, writes, mark, out)
    ensures Began(out) && out != Failed(LayerFailed)
    ensures Excused(out, cancelled, r.log)
  {
    hide Ran, OrderKept, Converged, TaintKept, DueSet, WritesKeep, EndsRight, Scheduler.Failure, Manifest.ById,
      RunAnswered, WellPosed, Due;
    if Unmarked(out) {
      NoneReinstalled(r, now, world, out);
      PosedWell(r);
      LossesForeseen(Manifest.ById(r.manifest), r.env, r.graph, r.start, done, b);
    }
    if Converged(Manifest.ById(r.manifest), r.start) {
      IdleToTheEnd(r, done, b, now, world, out);
    }
  }

  lemma PosedWell(r: Record)
    requires WellPosed(r)
    ensures Grouping.Indexed(Manifest.ById(r.manifest)) && WellTyped(r.start)
  {
  }

  lemma NoneReinstalled(r: Record, now: Snapshot, world: World, out: Outcome)
    requires EndsRight(r.manifest, Manifest.ById(r.manifest), r.start, r.mid, r.updated, r.reinstalled, r.removed, now,
                       world, out)
    requires out in {Failed(Cancelled(BeforeTaints)), Failed(TaintsNotFlushed)}
    ensures r.reinstalled == []
  {
  }

  /** With the layers done, no reinstallation fails if the world, the manifest and the state promise it. */
  lemma ReinstallPromise(want: map<NodeID, Resource>, env: Env, g: Graph, level: map<NodeID, nat>, layers: Layers,
                         start: Snapshot, b: Point, reg: Installers.Registry, s: Snapshot, ids: seq<NodeID>)
    requires Layering(g, level, layers) && Ran(want, g, start, g.nodes, b) && RunAnswered(want, env, start, b)
    requires Grouping.Indexed(want) && want.Keys <= g.nodes && Resolver.DependenciesIn(want, g)
    requires reg == Informed(env.reg, b.cache)
    ensures Promising(want, env.reg, start, env.world) ==> !TaintPhase.Fails(reg, want, s, ids, env.world)
  {
    hide RunAnswered, Promising, Informed, Resolver.DependenciesIn, TaintPhase.Fails, Layering, DepsOf, Ran;
    LayersClosed(g, level, layers);
    AllDone(want, g, start, b);
    InformedKeeps(env.reg, b.cache);
    if Promising(want, env.reg, start, env.world) {
      ReinstallationsSucceed(want, env, g, start, b, reg, s, ids);
    }
  }

  lemma LayersClosed(g: Graph, level: map<NodeID, nat>, layers: Layers)
    requires Layering(g, level, layers)
    ensures forall n :: n in g.nodes ==> DepsOf(g, n) <= g.nodes
  {
  }

  lemma IdleToTheEnd(r: Record, done: set<NodeID>, b: Point, now: Snapshot, world: World, out: Outcome)
    requires Converged(Manifest.ById(r.manifest), r.start)
    requires Ran(Manifest.ById(r.manifest), r.graph, r.start, done, b) && b == Over(r)
    requires EndsRight(r.manifest, Manifest.ById(r.manifest), r.start, r.mid, r.updated, r.reinstalled, r.removed, now,
                       world, out)
    ensures r.mid == r.start && r.updated == {} && r.acted == {} && r.reinstalled == [] && r.removed == []
    ensures forall id, act :: Scheduler.Act(id, act) !in r.log
  {
    hide Ran, Converged, Removals.InOrder, Named, Manifest.ById;
    var want := Manifest.ById(r.manifest);
    Idle(want, r.graph, r.start, done, b);
    assert Members(r.removed) <= Removals.Gone(want, r.start);
    MembersCount(r.removed);
    assert Members(r.reinstalled) == {} by {
      forall id ensures id !in r.reinstalled {
        assert !Due(r.start, r.start, id);
      }
    }
    MembersCount(r.reinstalled);
  }

  lemma {:induction false} MembersCount(s: seq<NodeID>)
    requires NoDup(s)
    ensures |Members(s)| == |s|
  {
    if s != [] {
      var rest := s[..|s| - 1];
      MembersCount(rest);
      assert Members(s) == Members(rest) + {s[|s| - 1]};
      assert s[|s| - 1] !in rest;
    }
  }

  predicate LockedOutcome(out: Outcome) {
    Began(out) || out.why in {NotLocked, NotLoaded, BadInstaller, NotSaved}
  }

  /** Which manifests get as far as the lock: those without a conflict whose graph has no cycle. */
  ghost predicate Admitted(resources: seq<Resource>, manifest: seq<Resource>, g: Graph, out: Outcome) {
    && (out == Failed(BadSets) ==> Manifest.Conflict(resources))
    && (!(out in {Failed(Cancelled(BeforeStart)), Failed(BadSets)}) ==>
         && !Manifest.Conflict(resources) && Manifest.Expansion(resources, manifest)
         && ((forall x :: x in resources ==> Manifest.Standalone(x)) ==> manifest == resources)
         && Resolver.Describes(Resolver.AppendBuiltinInstallers(manifest), g)
         && (if out.Failed? && out.why.BadGraph? then SimpleCycle(g, out.why.cycle) else Acyclic(g)))
  }

  lemma SameInstallers(a: Installers.Registry, b: Installers.Registry, want: map<NodeID, Resource>)
    requires a.installers == b.installers
    ensures Grouping.Registered(a, want) ==> Grouping.Registered(b, want)
  {
  }

  lemma {:induction false} ByIdIndexed(resources: seq<Resource>)
    ensures Grouping.Indexed(Manifest.ById(resources))
  {
    if resources != [] {
      ByIdIndexed(resources[..|resources| - 1]);
    }
  }

  lemma ManifestIndexed(resources: seq<Resource>, manifest: seq<Resource>)
    requires Manifest.Expansion(resources, manifest)
    ensures Manifest.ById(manifest) == Manifest.Desired(resources) && Grouping.Indexed(Manifest.ById(manifest))
  {
    ByIdIndexed(manifest);
  }

  ghost predicate AllExecuted(g: Graph, log: seq<Scheduler.Event>) {
    forall n :: n in g.nodes ==> Scheduler.Exit(n, true) in log
  }

  ghost predicate DidNothing(r: Record) {
    && r.mid == r.start && r.updated == {} && r.acted == {} && r.reinstalled == [] && r.removed == []
    && forall id, act :: Scheduler.Act(id, act) !in r.log
  }

  /** The layers take planned actions only, and the removals are planned ones; a run that is done took all of
      them. */
  ghost predicate FollowsPlan(want: map<NodeID, Resource>, r: Record, out: Outcome) {
    && (forall id, act :: Scheduler.Act(id, act) in r.log ==>
         id in want && Managed(id.kind) && act == Planned(want, r.start, id) != ActionNone)
    && (forall id :: id in r.removed ==> Planned(want, r.start, id) == ActionRemove)
    && (out.Done? ==> forall id :: id in want && Managed(id.kind) && Planned(want, r.start, id) != ActionNone ==>
         Scheduler.Act(id, Planned(want, r.start, id)) in r.log)
    && (out.Done? ==> forall id :: Planned(want, r.start, id) == ActionRemove ==> id in r.removed)
  }

  /** What a reader takes away from a run. */
  lemma Headlines(resources: seq<Resource>, r: Record, now: Snapshot, disk: Snapshot, writes: seq<Snapshot>, mark: nat,
                  world: World, out: Outcome)
    requires Manifest.ById(r.manifest) == Manifest.Desired(resources) && Grouping.Indexed(Manifest.ById(r.manifest))
    requires Manifest.ById(r.manifest).Keys <= r.graph.nodes
    requires RunRight(r, now, world, out) && DiskRight(r, now, disk, writes, mark, out)
    ensures var want := Manifest.Desired(resources);
      && (out.Done? ==> Converged(want, disk) && AsWanted(want, disk) && AllExecuted(r.graph, r.log))
      && (Converged(want, r.start) ==> disk == r.start && DidNothing(r))
      && FollowsPlan(want, r, out)
  {
    hide Ran, Converged, OrderKept, EndsRight, WritesKeep, TaintKept, Manifest.ById, FollowsPlan, AllExecuted,
      AsWanted;
    var want := Manifest.ById(r.manifest);
    var done :| Ran(want, r.graph, r.start, done, Over(r)) && (PastLayers(out) ==> done == r.graph.nodes);
    if out.Done? {
      ConvergedMeans(want, disk);
      AllDone(want, r.graph, r.start, Over(r));
    }
    if Converged(want, r.start) {
      IdleToTheEnd(r, done, Over(r), now, world, out);
    }
    PlanFollowed(r, done, now, world, out);
  }

  /** What a run rests on: needs come first, and what was installed, in the layers or again after them, was installed by
      an outside world that did its part. */
  ghost predicate Grounded(want: map<NodeID, Resource>, r: Record) {
    && NeedsFirst(want, r.log)
    && AllWorked(want, r.env.world, r.log)
    && forall id :: id in r.reinstalled ==> id in want && Fulfilled(want[id], r.env.world(PhaseTaint, id))
  }

  lemma GroundedRun(r: Record, level: map<NodeID, nat>, now: Snapshot, world: World, out: Outcome)
    requires RunRight(r, now, world, out) && Leveled(r.graph, level)
    requires Resolver.DependenciesIn(Manifest.ById(r.manifest), r.graph)
    ensures Grounded(Manifest.ById(r.manifest), r)
  {
    hide Ran, RunAnswered, OrderKept, EndsRight, Manifest.ById, Leveled, Resolver.DependenciesIn, NeedsFirst, AllWorked,
      Fulfilled, Execution.Install, Informed, Planned, TaintedBy;
    var want := Manifest.ById(r.manifest);
    var done :| Ran(want, r.graph, r.start, done, Over(r));
    NeededFirst(want, r.graph, level, r.log);
    ActedWorked(want, r.env, r.graph, r.start, done, Over(r));
    forall id | id in r.reinstalled ensures id in want && Fulfilled(want[id], r.env.world(PhaseTaint, id)) {
      assert id in want && id in now;
      InstallWorked(Informed(r.env.reg, r.mid), r.env.world(PhaseTaint, id), want[id],
                    Planned(want, TaintedBy(r.mid, r.updated), id));
    }
  }

  lemma AllDone(want: map<NodeID, Resource>, g: Graph, start: Snapshot, b: Point)
    requires Ran(want, g, start, g.nodes, b)
    ensures AllExecuted(g, b.log)
  {
  }

  lemma PlanFollowed(r: Record, done: set<NodeID>, now: Snapshot, world: World, out: Outcome)
    requires Ran(Manifest.ById(r.manifest), r.graph, r.start, done, Over(r))
    requires (PastLayers(out) ==> done == r.graph.nodes)
    requires Manifest.ById(r.manifest).Keys <= r.graph.nodes
    requires EndsRight(r.manifest, Manifest.ById(r.manifest), r.start, r.mid, r.updated, r.reinstalled, r.removed, now,
                       world, out)
    ensures FollowsPlan(Manifest.ById(r.manifest), r, out)
  {
    hide Ran, Manifest.ById, TaintsRight, Removals.InOrder, Named, Stale;
    var want := Manifest.ById(r.manifest);
    LayersFollowPlan(want, r.graph, r.start, done, Over(r));
    forall id ensures Planned(want, r.start, id) == ActionRemove <==> id in Removals.Gone(want, r.start) {
    }
    assert forall id :: id in r.removed <==> id in Members(r.removed);
  }

  /** Nothing after the graph changes which manifests were admitted. */
  lemma NotLockedAdmitted(resources: seq<Resource>, manifest: seq<Resource>, g: Graph)
    requires Admitted(resources, manifest, g, Done)
    ensures forall out :: LockedOutcome(out) ==> Admitted(resources, manifest, g, out)
  {
    hide Manifest.Conflict, Manifest.Expansion, Manifest.Standalone, Resolver.Describes,
      Resolver.AppendBuiltinInstallers, SimpleCycle, Acyclic;
  }

  lemma ConvergedUnflagged(want: map<NodeID, Resource>, s: Snapshot)
    requires Converged(want, s)
    ensures FlagTaints(NoUpdates, s) == s
  {
  }

  lemma NothingToPanicAbout(r: Record, now: Snapshot, world: World, out: Outcome)
    requires RunRight(r, now, world, out) && DidNothing(r)
    ensures !out.Panicked?
  {
  }

  lemma BlockedIs(resources: seq<Resource>, s: Snapshot, runtimes: seq<PlanAction>, removing: set<string>)
    requires Lists(KindRuntime, Manifest.ById(resources), s, runtimes) && removing == RemovalNames(runtimes)
    ensures Blocked(resources, Manifest.ById(resources), s) <==>
      exists n :: n in removing && Named(resources, NodeID(KindRuntime, n))
  {
  }

  lemma {:induction false} StandaloneDesired(resources: seq<Resource>)
    requires forall x :: x in resources ==> Manifest.Standalone(x)
    ensures Manifest.Desired(resources) == Manifest.ById(resources)
  {
    if resources != [] {
      var rest := resources[..|resources| - 1];
      assert forall x :: x in rest ==> x in resources;
      StandaloneDesired(rest);
      assert resources[|resources| - 1] in resources;
    }
  }

  lemma ContainsPlanned(plan: Plan, want: map<NodeID, Resource>, s: Snapshot, id: NodeID, act: ActionType)
    requires plan.Matches(want, s) && Managed(id.kind)
    ensures plan.Contains(id, act) <==> act != ActionNone && act == Planned(want, s, id)
  {
    hide Planned;
    var actions := plan.Of(id.kind);
    assert Lists(id.kind, want, s, actions);
    assert NodeID(id.kind, id.name) == id;
    if plan.Contains(id, act) {
      var i :| 0 <= i < |actions| && actions[i].name == id.name && actions[i].typ == act;
      assert Fitting(id.kind, want, s, actions[i]);
    }
    if act != ActionNone && act == Planned(want, s, id) {
      var i :| 0 <= i < |actions| && actions[i].name == id.name;
      assert Fitting(id.kind, want, s, actions[i]);
    }
  }

  /** Plan and run agree. */
  lemma PlanPredicts(plan: Plan, want: map<NodeID, Resource>, r: Record)
    requires plan.Matches(want, r.start) && WellTyped(r.start) && FollowsPlan(want, r, Done)
    ensures plan.Predicts(r)
  {
    hide Plan.Matches, ActionOf, Lists;
    forall id, act | act != ActionRemove ensures plan.Contains(id, act) <==> Scheduler.Act(id, act) in r.log {
      if Managed(id.kind) {
        ContainsPlanned(plan, want, r.start, id, act);
        WantedActs(want, r.start, id);
      }
    }
    forall id ensures plan.Contains(id, ActionRemove) <==> id in r.removed {
      if Managed(id.kind) {
        ContainsPlanned(plan, want, r.start, id, ActionRemove);
      } else {
        assert id in r.start ==> r.start[id].Fits(id.kind);
        WantedActs(want, r.start, id);
      }
    }
  }

  lemma WantedActs(want: map<NodeID, Resource>, s: Snapshot, id: NodeID)
    ensures Planned(want, s, id) !in {ActionNone, ActionRemove} <==> id in want && Planned(want, s, id) != ActionNone
    ensures Planned(want, s, id) == ActionRemove ==> id in s && id !in want
  {
  }

  lemma DiskTyped(store: Store, cfg: UpdateConfig)
    ensures WellTyped(FlagTaints(cfg, store.Disk()))
  {
  }

  lemma CountedNone(p: Progress)
    ensures p.Counted() && p.total == 0 ==> p.removed == []
    ensures p.Counted() && (DidNothing(p.Told()) || (p.acted == {} && p.reinstalled == [] && p.removed == [])) ==>
      p.total == 0
    ensures p.Told().removed == p.removed && p.Told().manifest == p.manifest && p.Told().start == p.start
  {
  }

  lemma AdmittedManifest(resources: seq<Resource>, manifest: seq<Resource>, g: Graph, out: Outcome)
    requires Admitted(resources, manifest, g, out) && forall x :: x in resources ==> Manifest.Standalone(x)
    ensures Began(out) ==> manifest == resources
    ensures !Began(out) ==> !out.Done?
  {
  }

  lemma PlanHolds(resources: seq<Resource>, plan: Result<Plan, Stage>, r: Record, now: Snapshot, world: World,
                  out: Outcome)
    requires r.manifest == resources && Manifest.Desired(resources) == Manifest.ById(resources) && WellTyped(r.start)
    requires RunRight(r, now, world, out) && FollowsPlan(Manifest.Desired(resources), r, out)
    requires plan.Ok? ==> plan.value.Matches(Manifest.ById(resources), r.start)
    requires plan == Err(RemovalRefused) ==> Blocked(resources, Manifest.ById(resources), r.start)
    ensures plan.Ok? && out.Done? ==> plan.value.Predicts(r)
    ensures plan == Err(RemovalRefused) ==> !out.Done? && r.removed == []
  {
    hide LayersRight, OrderKept, TaintsRight, Manifest.ById, Manifest.Desired, Plan.Matches, Plan.Predicts,
      Removals.InOrder, Blocked, FollowsPlan;
    if plan.Ok? && out.Done? {
      PlanPredicts(plan.value, Manifest.ById(resources), r);
    }
  }

  /** Nothing went wrong in the run. */
  ghost predicate Unhindered(r: Record, world: World) {
    var want := Manifest.ById(r.manifest);
    && InstallersValid(r.manifest)
    && !Scheduler.Failure(r.log)
    && (r.updated == {} || forall id :: !TaintPhase.StaleTool(want, r.mid, id))
    && !TaintPhase.Fails(Informed(r.env.reg, r.mid), want, TaintedBy(r.mid, r.updated), r.reinstalled, world)
    && !Blocked(r.manifest, want, r.start)
    && forall id :: id in Removals.Gone(want, r.start) ==> world(PhaseRemove, id).removed
  }

  /** Nothing can go wrong, said of the manifest, the state at the start, the registered installers and the outside
      world only. */
  ghost predicate Auspicious(r: Record, world: World) {
    var want := Manifest.ById(r.manifest);
    Promising(want, r.env.reg, r.start, world) && PanicFree(want, r.start) && !Blocked(r.manifest, want, r.start) &&
      InstallersValid(r.manifest)
  }

  ghost predicate Admissible(resources: seq<Resource>, g: Graph) {
    !Manifest.Conflict(resources) && Acyclic(g)
  }

  /** Every outcome but Done has a reason: an inadmissible manifest, a cancellation, a failed file operation, an unknown
      home directory, or something that went wrong in the run; and nothing does under good auspices. */
  lemma Reasons(resources: seq<Resource>, r: Record, now: Snapshot, world: World, out: Outcome, cancelled: bool,
                homeless: bool)
    requires Admitted(resources, r.manifest, r.graph, out)
    requires Began(out) ==> Excused(out, cancelled, r.log) && RunRight(r, now, world, out)
    requires out == Failed(Cancelled(BeforeStart)) ==> cancelled
    requires out == Failed(BadInstaller) ==> homeless || !InstallersValid(r.manifest)
    requires Began(out) && Promising(Manifest.ById(r.manifest), r.env.reg, r.start, world) ==>
      !Scheduler.Failure(r.log) && out != Failed(ReinstallFailed)
    ensures Admissible(resources, r.graph) && !cancelled && !Unstored(out) && !homeless ==>
      (Unhindered(r, world) || Auspicious(r, world) ==> out.Done?)
  {
    hide RunRight, Manifest.Expansion, Manifest.Conflict, Resolver.Describes, InstallersValid, Acyclic, Excused,
      Promising, PanicFree, TaintPhase.Fails, TaintedBy, Blocked, Removals.Gone, Scheduler.Failure, Manifest.ById;
    GraphReason(resources, r, out);
    if Began(out) && Admissible(resources, r.graph) && !cancelled && !Unstored(out) && !homeless {
      if Auspicious(r, world) {
        AuspiciousEnds(r, now, world, out);
      } else if Unhindered(r, world) {
        NoneFails(r, now, world, out);
        NoPanic(Manifest.ById(r.manifest), r, now, world, out);
        ReasonsLate(r, now, world, out);
      }
    }
  }

  lemma GraphReason(resources: seq<Resource>, r: Record, out: Outcome)
    requires Admitted(resources, r.manifest, r.graph, out)
    ensures out.Failed? && out.why.BadGraph? && !Manifest.Conflict(resources) ==> !Acyclic(r.graph)
  {
  }

  lemma NoneFails(r: Record, now: Snapshot, world: World, out: Outcome)
    requires RunRight(r, now, world, out)
    ensures out == Failed(ReinstallFailed) ==>
      TaintPhase.Fails(Informed(r.env.reg, r.mid), Manifest.ById(r.manifest), TaintedBy(r.mid, r.updated),
                       r.reinstalled, world)
  {
    hide LayersRight, OrderKept, EndsRight, Informed, TaintPhase.Fails;
  }

  lemma NoPanic(want: map<NodeID, Resource>, r: Record, now: Snapshot, world: World, out: Outcome)
    requires RunRight(r, now, world, out) && want == Manifest.ById(r.manifest)
    requires r.updated == {} || forall id :: !TaintPhase.StaleTool(want, r.mid, id)
    ensures !out.Panicked?
  {
  }

  lemma AuspiciousEnds(r: Record, now: Snapshot, world: World, out: Outcome)
    requires Auspicious(r, world) && Began(out) && Excused(out, false, r.log) && RunRight(r, now, world, out)
    requires !Unstored(out)
    requires !Scheduler.Failure(r.log) && out != Failed(ReinstallFailed)
    ensures out.Done?
  {
    hide Ran, RunAnswered, WellPosed, OrderKept, EndsRight, Manifest.ById, PanicFree, Blocked, InstallersValid,
      Scheduler.Failure, TaintPhase.StaleTool;
    var want := Manifest.ById(r.manifest);
    var done :| Ran(want, r.graph, r.start, done, Over(r));
    CannotPanic(want, r.graph, r.start, done, Over(r));
    NoPanic(want, r, now, world, out);
    assert forall id :: AllWork(world(PhaseRemove, id));
    ReasonsLate(r, now, world, out);
  }

  lemma ReasonsLate(r: Record, now: Snapshot, world: World, out: Outcome)
    requires Began(out) && Excused(out, false, r.log) && RunRight(r, now, world, out) && !Unstored(out)
    requires !out.Panicked?
    requires !Scheduler.Failure(r.log) && out != Failed(ReinstallFailed)
    requires !Blocked(r.manifest, Manifest.ById(r.manifest), r.start)
    requires forall id :: id in Removals.Gone(Manifest.ById(r.manifest), r.start) ==> world(PhaseRemove, id).removed
    ensures out.Done?
  {
  }

  /** From a converged state nothing hinders a run but what can be found before it starts. */
  lemma IdleUnhindered(r: Record, now: Snapshot, world: World, out: Outcome)
    requires RunRight(r, now, world, out) && Converged(Manifest.ById(r.manifest), r.start)
    requires InstallersValid(r.manifest)
    ensures Unhindered(r, world)
  {
    hide Ran, RunAnswered, Converged, OrderKept, EndsRight, Manifest.ById, InstallersValid, Scheduler.Failure, Named,
      TaintedBy;
    var want := Manifest.ById(r.manifest);
    var done :| Ran(want, r.graph, r.start, done, Over(r));
    Idle(want, r.graph, r.start, done, Over(r));
    IdleSucceeds(want, r.env, r.graph, r.start, done, Over(r));
    NothingStale(want, r.start);
  }

  /** The run began in a sound state. */
  ghost predicate SoundStart(r: Record) {
    Sound(r.manifest, Manifest.ById(r.manifest), r.env.reg, r.start)
  }

  /** Whatever stops a run that began in a sound state, it leaves a sound file. */
  lemma FileSound(r: Record, now: Snapshot, disk: Snapshot, writes: seq<Snapshot>, mark: nat, world: World,
                  out: Outcome)
    requires RunRight(r, now, world, out) && DiskRight(r, now, disk, writes, mark, out) && Began(out) && !out.Done?
    requires SoundStart(r)
    ensures Sound(r.manifest, Manifest.ById(r.manifest), r.env.reg, disk)
  {
    hide Ran, RunAnswered, OrderKept, EndsRight, WritesKeep, TaintKept, Converged, LossAsForeseen, Sound, DueSet,
      TaintedBy;
    var want := Manifest.ById(r.manifest);
    var done :| Ran(want, r.graph, r.start, done, Over(r));
    StaysSound(r.manifest, want, r.env, r.graph, r.start, done, Over(r));
    MarksStaySound(r.manifest, want, r.env.reg, r.mid, r.updated);
    if out == Failed(LayerNotFlushed) {
      var b :| PointBefore(want, r.env, r.graph, r.start, b, r.log) && disk == b.cache;
      var before :| Ran(want, r.graph, r.start, before, b);
      StaysSound(r.manifest, want, r.env, r.graph, r.start, before, b);
    } else {
      EndsSorted(out);
      assert disk == if Unmarked(out) then r.mid else TaintedBy(r.mid, r.updated);
    }
  }

  lemma EndsSorted(out: Outcome)
    requires Began(out) && !out.Done?
    ensures out == Failed(LayerNotFlushed) || Unmarked(out) || (PastLayers(out) && out != Failed(TaintsNotFlushed))
  {
    if out.Failed? && out.why.Cancelled? {
      match out.why.at {
        case BeforeStart =>
        case BeforeLayer =>
        case BeforeTaints =>
        case BeforeRemovals =>
      }
    }
  }

  lemma NoFlags(s: Snapshot)
    ensures FlagTaints(NoUpdates, s) == s
  {
  }

  lemma AdmittedStill(resources: seq<Resource>, manifest: seq<Resource>, g: Graph, out: Outcome)
    requires Admitted(resources, manifest, g, out) && Began(out)
    ensures Admitted(resources, manifest, g, Done)
  {
  }

  /** So the next run is under good auspices if the world obliges. */
  lemma RetryAuspicious(resources: seq<Resource>, r: Record, now: Snapshot, disk: Snapshot, writes: seq<Snapshot>,
                        mark: nat, world: World, out: Outcome, between: Installers.Registry, next: Record,
                        world2: World, out2: Outcome)
    requires RunRight(r, now, world, out) && DiskRight(r, now, disk, writes, mark, out) && Began(out) && !out.Done?
    requires SoundStart(r)
    requires Admitted(resources, r.manifest, r.graph, Done) && Admitted(resources, next.manifest, next.graph, out2)
    requires Began(out2)
    requires next.start == disk && Obliging(world2) && InstallersValid(next.manifest)
    requires exists before :: InstallersKnown(before, r.manifest, r.env.reg)
    requires between == r.env.reg.(runtimes := between.runtimes)
    requires InstallersKnown(between, next.manifest, next.env.reg)
    ensures Auspicious(next, world2)
  {
    hide RunRight, DiskRight, Manifest.Conflict, Acyclic, Resolver.Describes, Resolver.AppendBuiltinInstallers,
      InstallersKnown, Obliging, Sound, InstallersValid, Promising, PanicFree;
    var before :| InstallersKnown(before, r.manifest, r.env.reg);
    var want := Manifest.ById(r.manifest);
    FileSound(r, now, disk, writes, mark, world, out);
    SameResources(resources, r.manifest, next.manifest);
    SameDesired(resources, r.manifest, r.graph, Done);
    SameDesired(resources, next.manifest, next.graph, out2);
    KnownAgain(before, r.manifest, r.env.reg, between, next.manifest, next.env.reg);
    SoundAnyway(r.manifest, want, r.env.reg, next.env.reg, disk);
    SoundPromises(r.manifest, want, next.env.reg, disk, world2);
    NotBlocked(r.manifest, next.manifest, want, next.env.reg, disk);
  }

  lemma NotBlocked(m1: seq<Resource>, m2: seq<Resource>, want: map<NodeID, Resource>, reg: Installers.Registry,
                   s: Snapshot)
    requires Sound(m1, want, reg, s) && forall x :: x in m1 <==> x in m2
    ensures !Blocked(m2, want, s)
  {
    forall id | id in Removals.GoneOf(want, s, KindRuntime) ensures !Named(m2, id) {
      assert !Named(m1, id);
    }
  }

  /** A manifest that was admitted once is admitted again, in whatever order its sets are expanded. */
  lemma BeginsAgain(resources: seq<Resource>, m1: seq<Resource>, g1: Graph, m2: seq<Resource>, g2: Graph, out: Outcome)
    requires Admitted(resources, m1, g1, Done) && Admitted(resources, m2, g2, out) && InstallersValid(m1)
    requires !Unstored(out) && out != Failed(Cancelled(BeforeStart))
    requires (out == Failed(BadInstaller) ==> !InstallersValid(m2))
    ensures Began(out) && Admissible(resources, g2) && InstallersValid(m2)
  {
    hide Manifest.Conflict, Acyclic, Resolver.Describes, Resolver.AppendBuiltinInstallers, ValidInstaller;
    SameResources(resources, m1, m2);
    Resolver.SameAcyclic(m1, m2, g1, g2);
    if out.Failed? && out.why.BadGraph? {
      Cyclic(g2, out.why.cycle);
    }
  }

  lemma Cyclic(g: Graph, p: seq<NodeID>)
    requires SimpleCycle(g, p)
    ensures !Acyclic(g)
  {
  }

  lemma SameResources(resources: seq<Resource>, m1: seq<Resource>, m2: seq<Resource>)
    requires Manifest.Expansion(resources, m1) && Manifest.Expansion(resources, m2)
    ensures forall x :: x in m1 <==> x in m2
  {
  }

  lemma SameDesired(resources: seq<Resource>, manifest: seq<Resource>, g: Graph, out: Outcome)
    requires Admitted(resources, manifest, g, out) && Began(out)
    ensures Manifest.ById(manifest) == Manifest.Desired(resources)
  {
  }

  lemma NothingStale(want: map<NodeID, Resource>, s: Snapshot)
    requires Converged(want, s)
    ensures forall id :: !TaintPhase.Reinstalls(want, TaintedBy(s, {}), id)
    ensures Removals.Gone(want, s) == {}
  {
  }

  /** The state records a tool that the manifest no longer names. */
  ghost predicate DropsTool(want: map<NodeID, Resource>, s: Snapshot) {
    exists id :: TaintPhase.StaleTool(want, s, id)
  }

  lemma DropsAlike(want: map<NodeID, Resource>, s: Snapshot, t: Snapshot)
    requires forall id :: id !in want ==> Get(s, id) == Get(t, id)
    ensures DropsTool(want, s) ==> DropsTool(want, t)
  {
    if DropsTool(want, s) {
      var id :| TaintPhase.StaleTool(want, s, id);
      assert Get(s, id) == Get(t, id);
      assert TaintPhase.StaleTool(want, t, id);
    }
  }

  /** When the program crashes: a run that gets through its taint phase panics there exactly if the layers
      changed the version of a runtime and the state recorded a tool that the manifest no longer names. */
  lemma PanicExactly(r: Record, now: Snapshot, world: World, out: Outcome)
    requires RunRight(r, now, world, out) && (out.Panicked? || PastTaints(out))
    ensures out.Panicked? <==> r.updated != {} && DropsTool(Manifest.ById(r.manifest), r.start)
  {
    hide Ran, OrderKept, RemovalsRight, Due;
    var want := Manifest.ById(r.manifest);
    var done :| Ran(want, r.graph, r.start, done, Over(r));
    UnwantedKept(want, r.graph, r.start, done, Over(r));
    DropsAlike(want, r.start, r.mid);
    DropsAlike(want, r.mid, r.start);
    assert TaintsRight(want, r.start, r.mid, r.updated, r.reinstalled, out);
  }

  /** Foreseen before the run: it panics exactly if the state records a dropped tool and the upgrade of some stale
      runtime answers with another version. Without a stale runtime, or without a dropped tool, it never does. */
  lemma PanicForeseen(r: Record, now: Snapshot, world: World, out: Outcome)
    requires RunRight(r, now, world, out) && (out.Panicked? || PastTaints(out))
    ensures var want := Manifest.ById(r.manifest);
            out.Panicked? <==> DropsTool(want, r.start) && BringsVersion(want, r.env, r.start)
  {
    hide Ran, RunAnswered, OrderKept, EndsRight, Manifest.ById, DropsTool, NewVersion;
    var want := Manifest.ById(r.manifest);
    PanicExactly(r, now, world, out);
    var done :| Ran(want, r.graph, r.start, done, Over(r)) && (PastLayers(out) ==> done == r.graph.nodes);
    if id :| id in r.updated {
      UpdatedExactly(want, r.env, r.graph, r.start, done, Over(r), id);
    }
    if id :| NewVersion(want, r.env, r.start, id) {
      NewVersionWanted(want, r.env, r.start, id);
      UpdatedExactly(want, r.env, r.graph, r.start, done, Over(r), id);
    }
  }

  lemma NewVersionWanted(want: map<NodeID, Resource>, env: Env, start: Snapshot, id: NodeID)
    requires NewVersion(want, env, start, id)
    ensures id in want
  {
  }

  ghost predicate BringsVersion(want: map<NodeID, Resource>, env: Env, start: Snapshot) {
    exists id :: NewVersion(want, env, start, id)
  }

  /** A manifest with one runtime, and a state that records an older one and a tool the manifest does not name. */
  function GoManifest(): seq<Resource> {
    [RuntimeRes("go", RuntimeSpec(TypeDownload, "1.26.0", Some(DownloadSource("https://go.dev/dl", "")), None, None,
                                  "~/go/bin", true, []))]
  }

  function GoAndGopls(): Snapshot {
    map[NodeID(KindRuntime, "go") :=
          RuntimeEntry(RuntimeState(TypeDownload, "1.25.0", VersionExact, "1.25.0", None, "/home/me/go/bin", true, [],
                                    "")),
        NodeID(KindTool, "gopls") :=
          ToolEntry(ToolState("", "go", "0.20.0", VersionExact, "0.20.0", "/home/me/go/bin/gopls", None, None, None,
                              "", ""))]
  }

  lemma GoWanted()
    ensures Manifest.ById(GoManifest()) == map[NodeID(KindRuntime, "go") := GoManifest()[0]]
  {
  }

  /** The input that crashes the program: whatever the outside world answers, a run that executes its layers panics,
      or fails to write the marks just before. */
  lemma UpgradeAndDrop(r: Record, now: Snapshot, world: World, out: Outcome)
    requires RunRight(r, now, world, out) && PastLayers(out)
    requires r.manifest == GoManifest() && r.start == GoAndGopls()
    ensures out.Panicked? || out == Failed(TaintsNotFlushed)
  {
    hide Ran, RunAnswered, OrderKept, EndsRight;
    GoWanted();
    var want, go := Manifest.ById(r.manifest), NodeID(KindRuntime, "go");
    var done :| Ran(want, r.graph, r.start, done, Over(r)) && (PastLayers(out) ==> done == r.graph.nodes);
    UpgradedToGo(want, r.env, r.graph, r.start, done, Over(r));
    UpdatedExactly(want, r.env, r.graph, r.start, done, Over(r), go);
    assert TaintPhase.StaleTool(want, r.start, NodeID(KindTool, "gopls"));
    NoToolDue(r, now, world, out);
    if PastTaints(out) {
      PanicExactly(r, now, world, out);
    }
  }

  lemma UpgradedToGo(want: map<NodeID, Resource>, env: Env, g: Graph, start: Snapshot, done: set<NodeID>, b: Point)
    requires Grouping.Indexed(want) && start == GoAndGopls()
    requires var go := NodeID(KindRuntime, "go"); go in want && want[go] == GoManifest()[0] && go in done
    requires Ran(want, g, start, done, b) && RunAnswered(want, env, start, b)
    ensures NewVersion(want, env, start, NodeID(KindRuntime, "go"))
  {
    var go := NodeID(KindRuntime, "go");
    ExecutedLogged(want, g, start, done, b, go);
    AnswerFixed(want, env, start, b, go, true);
    RuntimeAnswer(want, env, start, go, Get(b.cache, go));
    assert Effect(want, go, Get(start, go), Get(b.cache, go));
  }

  /** The same manifest with the tool in it. */
  function GoToolManifest(): seq<Resource> {
    GoManifest() + [ToolRes("gopls", ToolSpec("", "", "go", "0.20.0", None, None, None, None, "", []))]
  }

  lemma GoToolWanted()
    ensures var want := Manifest.ById(GoToolManifest());
            && want == map[NodeID(KindRuntime, "go") := GoManifest()[0],
                           NodeID(KindTool, "gopls") := GoToolManifest()[1]]
            && AtStake(want, GoAndGopls(), NodeID(KindTool, "gopls"))
  {
    GoWanted();
    assert GoToolManifest()[..1] == GoManifest();
  }

  /** The input at which a reinstallation is lost: once the runtime has been upgraded, a run that stops before the
      taint flush leaves the tool unmarked in the file, and nothing is owed to it or its runtime any more. */
  lemma LossAtGo(r: Record, now: Snapshot, disk: Snapshot, writes: seq<Snapshot>, mark: nat, world: World, out: Outcome)
    requires RunRight(r, now, world, out) && DiskRight(r, now, disk, writes, mark, out) && Unmarked(out)
    requires r.manifest == GoToolManifest() && r.start == GoAndGopls()
    requires Scheduler.Exit(NodeID(KindRuntime, "go"), true) in r.log
    ensures var want, go, gopls := Manifest.ById(r.manifest), NodeID(KindRuntime, "go"), NodeID(KindTool, "gopls");
            && Due(r.start, r.mid, gopls) && gopls in disk && !disk[gopls].Tainted()
            && Planned(want, disk, gopls) == ActionNone && Planned(want, disk, go) == ActionNone
  {
    hide Ran, RunAnswered, OrderKept, EndsRight, Manifest.ById, WritesKeep, TaintKept, Converged, PointBefore, AtStake,
      Due;
    GoToolWanted();
    var want, go, gopls := Manifest.ById(r.manifest), NodeID(KindRuntime, "go"), NodeID(KindTool, "gopls");
    var done :| Ran(want, r.graph, r.start, done, Over(r));
    ExecutedLogged(want, r.graph, r.start, done, Over(r), go);
    UpgradedToGo(want, r.env, r.graph, r.start, done, Over(r));
    assert RuntimeOf(r.start[gopls]) == go && CallsForTools(want, r.env, r.start, go);
    assert Due(r.start, r.mid, gopls) && !disk[gopls].Tainted();
    CurrentStays(want, r.graph, r.start, done, Over(r), gopls) by { GoplsCurrent(); }
    TaintLost(want, r.graph, r.start, done, Over(r), gopls) by { GoplsCurrent(); }
  }

  lemma GoplsCurrent()
    ensures !Stale(GoToolManifest()[1], GoAndGopls()[NodeID(KindTool, "gopls")])
    ensures NodeID(KindTool, "gopls") in GoAndGopls()
  {
  }

  lemma NoToolDue(r: Record, now: Snapshot, world: World, out: Outcome)
    requires RunRight(r, now, world, out) && forall id :: id in Manifest.ById(r.manifest) ==> id.kind != KindTool
    ensures out != Failed(ReinstallFailed)
  {
  }
}
