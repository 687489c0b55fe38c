/** What the phases of a run add up to: convergence, idempotence, agreement with the plan, taint exactness. */
module Runs {
  import opened Prelude
  import opened Resources
  import opened Graph
  import opened Kahn
  import opened Scheduler
  import opened Execution
  import opened Installers
  import opened Phases
  import opened Taints
  import opened Plans
  import opened Registering
  import Grouping
  import TaintPhase
  import Removals
  import Resolver

  /** Where a run starts: nothing updated, nothing done. */
  function Fresh(s: Snapshot): Point {
    Point(s, {}, {}, [])
  }

  /** The layers executed the nodes in done without an error, starting in state start. */
  ghost predicate Ran(want: map<NodeID, Resource>, g: Graph, start: Snapshot, done: set<NodeID>, b: Point) {
    Advanced(want, g.nodes, done, Fresh(start), b)
  }

  /** Dependencies first, layer after layer, and the kinds of a layer in their turn. */
  ghost predicate OrderKept(g: Graph, log: seq<Event>) {
    DepSafe(g, log) && forall level :: Leveled(g, level) ==> Barrier(level, log)
  }

  lemma OrderIs(g: Graph, level: map<NodeID, nat>, log: seq<Event>)
    requires Leveled(g, level) && Barrier(level, log)
    ensures OrderKept(g, log)
  {
    hide DepSafe, Barrier, Leveled;
    BarrierSafe(g, level, log);
    forall other | Leveled(g, other) ensures Barrier(other, log) {
      LevelsUnique(g, level, other);
    }
  }

  // ----- What the installers answered in a whole run ------------------------------------------------

  /** The runtime that a tool names. */
  function OwnRuntime(want: map<NodeID, Resource>, id: NodeID): Option<NodeID> {
    if id in want && want[id].ToolRes? && want[id].tool.runtimeRef != ""
    then Some(NodeID(KindRuntime, want[id].tool.runtimeRef)) else None
  }

  /** The environment as it is once the tool installer knows the runtimes recorded in s. */
  function EnvAt(env: Env, s: Snapshot): Env {
    env.(reg := Informed(env.reg, s))
  }

  /** An execution did as its installer answers; a tool's knew its runtime as it is recorded now, for that had been
      executed before. */
  predicate NodeAnswers(want: map<NodeID, Resource>, env: Env, start: Snapshot, b: Point, id: NodeID, ok: bool) {
    && AnswerIs(want, EnvAt(env, b.cache), id, Get(start, id), ok, Get(b.cache, id))
    && (OwnRuntime(want, id).Some? ==> Exit(OwnRuntime(want, id).value, true) in b.log)
  }

  /** Every execution of the layers that ended did. */
  ghost predicate RunAnswered(want: map<NodeID, Resource>, env: Env, start: Snapshot, b: Point) {
    forall id, ok :: Exit(id, ok) in b.log ==> NodeAnswers(want, env, start, b, id, ok)
  }

  lemma NothingRun(want: map<NodeID, Resource>, env: Env, start: Snapshot)
    ensures RunAnswered(want, env, start, Fresh(start))
  {
  }

  /** Another layer, for which the runtimes were registered that its tools name, and were executed before it. */
  lemma RunAnsweredMore(want: map<NodeID, Resource>, env: Env, start: Snapshot, n1: set<NodeID>, d1: set<NodeID>,
                        n2: set<NodeID>, d2: set<NodeID>, b: Point, reg: Registry, c: Point)
    requires Advanced(want, n1, d1, Fresh(start), b) && Advanced(want, n2, d2, b, c) && n1 !! n2
    requires RunAnswered(want, env, start, b) && Answered(want, Env(reg, env.world), b, c)
    requires reg == env.reg.(runtimes := reg.runtimes)
    requires forall id :: id in n2 && OwnRuntime(want, id).Some? ==>
               OwnRuntime(want, id).value in d1 && reg == Informed(env.reg, b.cache)
    ensures RunAnswered(want, env, start, c)
  {
    hide AnswerIs, Informed, RecordedRuntime, Effect, Acts, VersionChanged;
    assert b.log[|Fresh(start).log|..] == b.log;
    var tail := c.log[|b.log|..];
    assert c.log == b.log + tail;
    InformedKeeps(env.reg, b.cache);
    forall id, ok | Exit(id, ok) in c.log ensures NodeAnswers(want, env, start, c, id, ok) {
      var own := OwnRuntime(want, id);
      if Exit(id, ok) in b.log {
        assert NodeAnswers(want, env, start, b, id, ok);
        assert Exit(id, ok).id in n1;
        assert own.Some? ==> Exit(own.value, true).id in n1;
        AnswerSame(want, env, Informed(env.reg, b.cache), b.cache, c.cache, id, Get(start, id), ok, Get(c.cache, id));
      } else {
        assert Exit(id, ok) in tail && Exit(id, ok).id in n2;
        AnswerSame(want, env, reg, b.cache, c.cache, id, Get(start, id), ok, Get(c.cache, id));
      }
    }
  }

  /** What a node answers depends on what is registered only if it is a tool, and then only on its own runtime. */
  lemma AnswerSame(want: map<NodeID, Resource>, env: Env, reg: Registry, s: Snapshot, t: Snapshot, id: NodeID,
                   cur: Option<Entry>, ok: bool, after: Option<Entry>)
    requires AnswerIs(want, Env(reg, env.world), id, cur, ok, after) && reg == env.reg.(runtimes := reg.runtimes)
    requires OwnRuntime(want, id).Some? ==>
               reg == Informed(env.reg, s) && Get(s, OwnRuntime(want, id).value) == Get(t, OwnRuntime(want, id).value)
    ensures AnswerIs(want, EnvAt(env, t), id, cur, ok, after)
  {
    hide Informed, RecordedRuntime;
    InformedKeeps(env.reg, t);
    if OwnRuntime(want, id).Some? {
      var name := want[id].tool.runtimeRef;
      InformedOf(env.reg, s, name);
      InformedOf(env.reg, t, name);
      RecordedAlike(s, t, name);
    }
  }

  lemma RecordedAlike(s: Snapshot, t: Snapshot, name: string)
    requires Get(s, NodeID(KindRuntime, name)) == Get(t, NodeID(KindRuntime, name))
    ensures RecordedRuntime(s, name) == RecordedRuntime(t, name)
  {
  }

  /** For anything but a tool the answer does not depend on what is registered at all. */
  lemma AnswerFixed(want: map<NodeID, Resource>, env: Env, start: Snapshot, b: Point, id: NodeID, ok: bool)
    requires Grouping.Indexed(want) && id.kind != KindTool && RunAnswered(want, env, start, b) && Exit(id, ok) in b.log
    ensures AnswerIs(want, env, id, Get(start, id), ok, Get(b.cache, id))
  {
    hide Informed;
    assert NodeAnswers(want, env, start, b, id, ok);
  }

  /** A successfully executed tool has the entry that its own installation records, with its runtime as recorded. */
  lemma ToolAnswerFixed(want: map<NodeID, Resource>, env: Env, start: Snapshot, b: Point, id: NodeID)
    requires Grouping.Indexed(want) && id.kind == KindTool && id in want
    requires RunAnswered(want, env, start, b) && Exit(id, true) in b.log
    ensures if ActionOf(want[id], Get(start, id)) == ActionNone then Get(b.cache, id) == Get(start, id)
            else id in b.cache && b.cache[id].ToolEntry? &&
                 InstallTool(Informed(env.reg, b.cache), want[id].tool, id.name, env.world(PhaseDAG, id).tool) ==
                 Ok(b.cache[id].tool)
  {
    hide Informed;
    assert NodeAnswers(want, env, start, b, id, true);
    assert want[id].Id() == id;
  }

  // ----- Parallelism does not show ------------------------------------------------------------------

  /** Two runs from one state in one world agree on every node that both executed, whatever order they took and
      however far they got: on the verdict and on the entry. */
  lemma RunsAgree(want: map<NodeID, Resource>, env: Env, start: Snapshot, b1: Point, b2: Point, id: NodeID, ok1: bool,
                  ok2: bool)
    requires Grouping.Indexed(want) && RunAnswered(want, env, start, b1) && RunAnswered(want, env, start, b2)
    requires Exit(id, ok1) in b1.log && Exit(id, ok2) in b2.log
    ensures ok1 == ok2 && Get(b1.cache, id) == Get(b2.cache, id)
    decreases id.kind == KindTool
  {
    hide AnswerIs, Informed;
    var cur := Get(start, id);
    if id.kind == KindTool {
      assert NodeAnswers(want, env, start, b1, id, ok1) && NodeAnswers(want, env, start, b2, id, ok2);
      if OwnRuntime(want, id).Some? {
        RunsAgree(want, env, start, b1, b2, OwnRuntime(want, id).value, true, true);
      }
      InformedKeeps(env.reg, b1.cache);
      AnswerSame(want, env, Informed(env.reg, b1.cache), b1.cache, b2.cache, id, cur, ok1, Get(b1.cache, id));
      OneAnswer(want, EnvAt(env, b2.cache), id, cur, ok1, Get(b1.cache, id), ok2, Get(b2.cache, id));
    } else {
      AnswerFixed(want, env, start, b1, id, ok1);
      AnswerFixed(want, env, start, b2, id, ok2);
      OneAnswer(want, env, id, cur, ok1, Get(b1.cache, id), ok2, Get(b2.cache, id));
    }
  }

  lemma OneAnswer(want: map<NodeID, Resource>, env: Env, id: NodeID, cur: Option<Entry>, ok1: bool,
                  after1: Option<Entry>, ok2: bool, after2: Option<Entry>)
    requires AnswerIs(want, env, id, cur, ok1, after1) && AnswerIs(want, env, id, cur, ok2, after2)
    ensures ok1 == ok2 && after1 == after2
  {
  }

  /** Parallelism does not show: two complete executions of the layers leave the same state, upgraded the same
      runtimes and took the same actions. */
  lemma LayersAgree(want: map<NodeID, Resource>, env: Env, g1: Graph, g2: Graph, start: Snapshot, b1: Point, b2: Point)
    requires Grouping.Indexed(want) && want.Keys <= g1.nodes && want.Keys <= g2.nodes
    requires Ran(want, g1, start, g1.nodes, b1) && RunAnswered(want, env, start, b1)
    requires Ran(want, g2, start, g2.nodes, b2) && RunAnswered(want, env, start, b2)
    ensures b1.cache == b2.cache && b1.updated == b2.updated && b1.acted == b2.acted
  {
    hide RunAnswered, Effect, Acts, VersionChanged;
    forall id ensures Get(b1.cache, id) == Get(b2.cache, id) {
      if id in want {
        ExecutedLogged(want, g1, start, g1.nodes, b1, id);
        ExecutedLogged(want, g2, start, g2.nodes, b2, id);
        RunsAgree(want, env, start, b1, b2, id, true, true);
      } else {
        UnwantedKept(want, g1, start, g1.nodes, b1);
        UnwantedKept(want, g2, start, g2.nodes, b2);
      }
    }
    SameLookups(b1.cache, b2.cache);
    assert forall id :: Acts(want, id, start) ==> id in want by { ActsWanted(want, start); }
  }

  lemma ActsWanted(want: map<NodeID, Resource>, s: Snapshot)
    ensures forall id :: Acts(want, id, s) ==> id in want
  {
  }

  /** Success does not depend on luck: after a complete execution no other one of the same has a failing node. */
  lemma SucceedsAgain(want: map<NodeID, Resource>, env: Env, g: Graph, start: Snapshot, b1: Point, b2: Point)
    requires Grouping.Indexed(want) && want.Keys <= g.nodes && Ran(want, g, start, g.nodes, b1)
    requires RunAnswered(want, env, start, b1) && RunAnswered(want, env, start, b2)
    ensures !Failure(b2.log)
  {
    hide RunAnswered, Ran;
    forall id ensures Exit(id, false) !in b2.log {
      if Exit(id, false) in b2.log {
        FailedWanted(want, env, start, b2, id);
        ExecutedLogged(want, g, start, g.nodes, b1, id);
        RunsAgree(want, env, start, b1, b2, id, true, false);
      }
    }
  }

  lemma FailedWanted(want: map<NodeID, Resource>, env: Env, start: Snapshot, b: Point, id: NodeID)
    requires RunAnswered(want, env, start, b) && Exit(id, false) in b.log
    ensures id in want
  {
    hide Informed;
    assert NodeAnswers(want, env, start, b, id, false);
  }

  // ----- After a complete execution of the graph --------------------------------------------------

  /** Every wanted entry is current. */
  lemma LayersSettle(want: map<NodeID, Resource>, g: Graph, start: Snapshot, b: Point)
    requires Grouping.Indexed(want) && WellTyped(start) && want.Keys <= g.nodes
    requires Ran(want, g, start, g.nodes, b)
    ensures Current(want, b.cache)
  {
  }

  /** No layer touches an entry the manifest does not ask for. */
  lemma UnwantedKept(want: map<NodeID, Resource>, g: Graph, start: Snapshot, done: set<NodeID>, b: Point)
    requires Ran(want, g, start, done, b)
    ensures forall id :: id !in want ==> Get(b.cache, id) == Get(start, id)
  {
  }

  /** A run without an error leaves exactly what the manifest asks for. */
  lemma Converges(resources: seq<Resource>, want: map<NodeID, Resource>, mid: Snapshot, updated: set<NodeID>,
                  ids: seq<NodeID>, c: Snapshot, gone: seq<NodeID>, after: Snapshot, world: World)
    requires Grouping.Indexed(want) && Current(want, mid) && WellTyped(c)
    requires TaintPhase.Tainted(want, mid, updated, ids, c, TaintPhase.Completed)
    requires Removals.Cleaned(resources, want, c, gone, after, Removals.Completed, world)
    ensures Converged(want, after)
  {
  }

  /** Without an updated runtime there is no taint phase; this is what it would have amounted to. */
  lemma NoTaints(want: map<NodeID, Resource>, mid: Snapshot)
    ensures TaintPhase.Reinstalled(want, TaintedBy(mid, {}), [], mid)
    ensures forall id :: !ShouldTaint(mid, {}, id)
  {
  }

  lemma ConvergesUntouched(resources: seq<Resource>, want: map<NodeID, Resource>, mid: Snapshot, gone: seq<NodeID>,
                           after: Snapshot, world: World)
    requires Current(want, mid) && WellTyped(mid)
    requires Removals.Cleaned(resources, want, mid, gone, after, Removals.Completed, world)
    ensures Converged(want, after)
  {
  }

  // ----- From a state that needs nothing ------------------------------------------------------------

  /** Idempotence: from a state the manifest asks for, no stretch of any run acts or changes anything. */
  lemma Idle(want: map<NodeID, Resource>, g: Graph, start: Snapshot, done: set<NodeID>, b: Point)
    requires Converged(want, start) && Ran(want, g, start, done, b)
    ensures b.cache == start && b.updated == {} && b.acted == {}
    ensures forall id, act :: Act(id, act) !in b.log
    ensures Removals.Gone(want, start) == {}
  {
    hide Stale;
    forall id ensures !Acts(want, id, start) && Get(b.cache, id) == Get(start, id) {
      assert id in done ==> Effect(want, id, Get(start, id), Get(b.cache, id));
    }
    SameLookups(b.cache, start);
    assert b.log[|Fresh(start).log|..] == b.log;
  }

  /** Nor does any execution fail. */
  lemma IdleSucceeds(want: map<NodeID, Resource>, env: Env, g: Graph, start: Snapshot, done: set<NodeID>, b: Point)
    requires Converged(want, start) && Ran(want, g, start, done, b) && RunAnswered(want, env, start, b)
    ensures !Failure(b.log)
  {
  }

  // ----- Agreement with the plan --------------------------------------------------------------------

  /** The layers of any run only take planned actions; those of a complete one take all of them. */
  lemma LayersFollowPlan(want: map<NodeID, Resource>, g: Graph, start: Snapshot, done: set<NodeID>, b: Point)
    requires Ran(want, g, start, done, b) && want.Keys <= g.nodes
    ensures forall id, act :: Act(id, act) in b.log ==>
      id in want && Managed(id.kind) && act == Planned(want, start, id) != ActionNone
    ensures done == g.nodes ==>
      forall id :: id in want && Managed(id.kind) && Planned(want, start, id) != ActionNone ==>
        Act(id, Planned(want, start, id)) in b.log
  {
  }

  /** What a complete run removes is what the plan removes: neither the layers nor the taint phase changes
      which unwanted names are recorded. */
  lemma RemovalsFollowPlan(want: map<NodeID, Resource>, start: Snapshot, mid: Snapshot, updated: set<NodeID>,
                           ids: seq<NodeID>, c: Snapshot)
    requires WellTyped(start) && forall id :: id !in want ==> Get(mid, id) == Get(start, id)
    requires TaintPhase.Reinstalled(want, TaintedBy(mid, updated), ids, c)
    ensures forall id :: id in Removals.Gone(want, c) <==> Planned(want, start, id) == ActionRemove
  {
  }

  // ----- Taints --------------------------------------------------------------------------------------

  /** A recorded runtime became another version between two states, and asks for its tools to follow. */
  predicate Upgraded(start: Snapshot, mid: Snapshot, runtime: NodeID) {
    && runtime in start && start[runtime].RuntimeEntry? && runtime in mid && mid[runtime].RuntimeEntry?
    && mid[runtime].runtime.version != start[runtime].runtime.version
    && mid[runtime].runtime.taintOnUpgrade
  }

  /** The tools that are due are exactly those recorded for an upgraded runtime. */
  predicate Due(start: Snapshot, mid: Snapshot, id: NodeID) {
    && id.kind == KindTool && id in mid && mid[id].ToolEntry? && mid[id].tool.runtimeRef != ""
    && Upgraded(start, mid, NodeID(KindRuntime, mid[id].tool.runtimeRef))
  }

  lemma DueExactly(want: map<NodeID, Resource>, g: Graph, start: Snapshot, done: set<NodeID>, b: Point, id: NodeID)
    requires Ran(want, g, start, done, b)
    ensures ShouldTaint(b.cache, b.updated, id) <==> Due(start, b.cache, id)
  {
  }

  /** Only a runtime that was recorded and stale at the start can count as updated... */
  lemma UpdatedWereStale(want: map<NodeID, Resource>, g: Graph, start: Snapshot, done: set<NodeID>, b: Point,
                         id: NodeID)
    requires Ran(want, g, start, done, b) && id in b.updated
    ensures id in want && id in start && start[id].RuntimeEntry? && Stale(want[id], start[id])
  {
  }

  /** The upgrade of a recorded runtime brings another version. */
  predicate NewVersion(want: map<NodeID, Resource>, env: Env, start: Snapshot, id: NodeID) {
    && id in want && id in start && Stale(want[id], start[id]) && start[id].RuntimeEntry?
    && var answer := Execution.Install(env.reg, env.world(PhaseDAG, id), want[id], ActionUpgrade);
       answer.Some? && answer.value.RuntimeEntry? && answer.value.runtime.version != start[id].runtime.version
  }

  /** ... and of those that were executed the ones count whose installation answered with another version: what counts
      is a function of the manifest, the state and the outside world. */
  lemma UpdatedExactly(want: map<NodeID, Resource>, env: Env, g: Graph, start: Snapshot, done: set<NodeID>, b: Point,
                       id: NodeID)
    requires Grouping.Indexed(want) && WellTyped(start) && Ran(want, g, start, done, b)
    requires RunAnswered(want, env, start, b)
    ensures id in b.updated <==> id in done && NewVersion(want, env, start, id)
    ensures id in b.updated <==>
            && id in start && start[id].RuntimeEntry? && id in b.cache && b.cache[id].RuntimeEntry?
            && b.cache[id].runtime.version != start[id].runtime.version
  {
    hide Stale, Execution.Install, AnswerIs, RunAnswered, Effect;
    assert id in b.updated <==> VersionChanged(Get(start, id), Get(b.cache, id));
    if id in done && id in want && id in start && start[id].RuntimeEntry? {
      assert start[id].Fits(id.kind) && want[id].Id() == id;
      ExecutedLogged(want, g, start, done, b, id);
      AnswerFixed(want, env, start, b, id, true);
      RuntimeAnswer(want, env, start, id, Get(b.cache, id));
    } else if id in b.updated {
      UpdatedWereStale(want, g, start, done, b, id);
    }
  }

  lemma ExecutedLogged(want: map<NodeID, Resource>, g: Graph, start: Snapshot, done: set<NodeID>, b: Point, id: NodeID)
    requires Ran(want, g, start, done, b)
    ensures id in done <==> Exit(id, true) in b.log
  {
    assert b.log[|Fresh(start).log|..] == b.log;
  }

  lemma RuntimeAnswer(want: map<NodeID, Resource>, env: Env, start: Snapshot, id: NodeID, after: Option<Entry>)
    requires id in want && id in start && id.kind == KindRuntime
    requires AnswerIs(want, env, id, Some(start[id]), true, after)
    ensures after == if Stale(want[id], start[id])
                     then Execution.Install(env.reg, env.world(PhaseDAG, id), want[id], ActionUpgrade)
                       else Some(start[id])
  {
  }

  // ----- When taints are lost -------------------------------------------------------------------------

  /** A run that stops after the upgrade and before the taint flush loses the reinstallation: nothing is marked, and
      neither the tool nor its runtime is owed anything. In no later run of the manifest that finds the two entries as
      they are is the tool due; only an update flag or another manifest can make it so. */
  lemma TaintLost(want: map<NodeID, Resource>, g: Graph, start: Snapshot, done: set<NodeID>, b: Point, id: NodeID)
    requires Grouping.Indexed(want) && Ran(want, g, start, done, b) && Due(start, b.cache, id)
    requires id in want && !Stale(want[id], b.cache[id])
    ensures !TaintKept(DueSet(start, b.cache), [], b.cache)
    ensures Planned(want, b.cache, id) == ActionNone && Planned(want, b.cache, RuntimeOf(b.cache[id])) == ActionNone
    ensures forall h, s, done2, b2 ::
              Ran(want, h, s, done2, b2) && Alike(s, b.cache, id) && Alike(s, b.cache, RuntimeOf(b.cache[id])) ==>
                !Due(s, b2.cache, id)
  {
    var r := RuntimeOf(b.cache[id]);
    assert want[id].Id() == id && id in DueSet(start, b.cache);
    assert Effect(want, r, Get(start, r), Get(b.cache, r));
    forall h, s, done2, b2 | Ran(want, h, s, done2, b2) && Alike(s, b.cache, id) && Alike(s, b.cache, r)
      ensures !Due(s, b2.cache, id)
    {
      CurrentStays(want, h, s, done2, b2, id);
      CurrentStays(want, h, s, done2, b2, r);
    }
  }

  predicate Alike(s: Snapshot, t: Snapshot, id: NodeID) {
    Get(s, id) == Get(t, id)
  }

  lemma CurrentStays(want: map<NodeID, Resource>, g: Graph, s: Snapshot, done: set<NodeID>, b: Point, id: NodeID)
    requires Ran(want, g, s, done, b) && (id in want ==> id in s && !Stale(want[id], s[id]))
    ensures Get(b.cache, id) == Get(s, id)
  {
  }

  /** The runtime a recorded tool was installed with. */
  function RuntimeOf(e: Entry): NodeID {
    NodeID(KindRuntime, if e.ToolEntry? then e.tool.runtimeRef else "")
  }

  /** A recorded tool that came from a runtime, has no mark, and would not be installed again for its own sake. */
  predicate AtStake(want: map<NodeID, Resource>, start: Snapshot, id: NodeID) {
    && id.kind == KindTool && id in start && start[id].ToolEntry? && start[id].tool.runtimeRef != "" &&
      !start[id].Tainted()
    && (id in want ==> !Stale(want[id], start[id]))
  }

  /** The upgrade of a runtime brings another version, and its tools are to follow. */
  predicate CallsForTools(want: map<NodeID, Resource>, env: Env, start: Snapshot, runtime: NodeID) {
    NewVersion(want, env, start, runtime) && want[runtime].RuntimeRes? && want[runtime].runtime.taintOnUpgrade
  }

  /** Which reinstallations are lost when the marks are not saved: exactly those of the tools at stake whose runtime was
      executed and calls for its tools, which the manifest, the state and the outside world decide. */
  lemma LossForeseen(want: map<NodeID, Resource>, env: Env, g: Graph, start: Snapshot, done: set<NodeID>, b: Point,
                     id: NodeID)
    requires Grouping.Indexed(want) && WellTyped(start) && Ran(want, g, start, done, b)
    requires RunAnswered(want, env, start, b)
    requires AtStake(want, start, id)
    ensures Due(start, b.cache, id) && !b.cache[id].Tainted() <==>
            RuntimeOf(start[id]) in done && CallsForTools(want, env, start, RuntimeOf(start[id]))
  {
    hide Stale, Execution.Install, Logged, RunAnswered;
    var r := RuntimeOf(start[id]);
    CurrentStays(want, g, start, done, b, id);
    UpdatedExactly(want, env, g, start, done, b, r);
    assert r in b.updated <==> VersionChanged(Get(start, r), Get(b.cache, r));
    if r in b.updated {
      UpdatedWereStale(want, g, start, done, b, r);
      Follows(want, env, g, start, done, b, r);
    }
  }

  /** The new record of an upgraded runtime asks its tools to follow exactly if the manifest does. */
  lemma Follows(want: map<NodeID, Resource>, env: Env, g: Graph, start: Snapshot, done: set<NodeID>, b: Point,
                runtime: NodeID)
    requires Grouping.Indexed(want) && Ran(want, g, start, done, b) && RunAnswered(want, env, start, b)
    requires runtime.kind == KindRuntime && runtime in want && runtime in start && runtime in done
    requires VersionChanged(Get(start, runtime), Get(b.cache, runtime))
    ensures want[runtime].RuntimeRes? && b.cache[runtime].runtime.taintOnUpgrade == want[runtime].runtime.taintOnUpgrade
  {
    hide RunAnswered, Stale, Effect;
    assert want[runtime].Id() == runtime;
    ExecutedLogged(want, g, start, done, b, runtime);
    AnswerFixed(want, env, start, b, runtime, true);
    RuntimeAnswer(want, env, start, runtime, Get(b.cache, runtime));
  }

  /** The same, of a log and a file without marks. */
  ghost predicate LossAsForeseen(want: map<NodeID, Resource>, env: Env, start: Snapshot, mid: Snapshot, log: seq<Event>,
                                 disk: Snapshot)
  {
    forall id :: AtStake(want, start, id) ==>
      && id in disk
      && (Due(start, mid, id) && !disk[id].Tainted() <==>
           Exit(RuntimeOf(start[id]), true) in log && CallsForTools(want, env, start, RuntimeOf(start[id])))
  }

  lemma LossesForeseen(want: map<NodeID, Resource>, env: Env, g: Graph, start: Snapshot, done: set<NodeID>, b: Point)
    requires Grouping.Indexed(want) && WellTyped(start) && Ran(want, g, start, done, b)
    requires RunAnswered(want, env, start, b)
    ensures LossAsForeseen(want, env, start, b.cache, b.log, b.cache)
  {
    hide Ran, RunAnswered, CallsForTools, Due, Stale;
    forall id | AtStake(want, start, id)
      ensures id in b.cache
      ensures Due(start, b.cache, id) && !b.cache[id].Tainted() <==>
              Exit(RuntimeOf(start[id]), true) in b.log && CallsForTools(want, env, start, RuntimeOf(start[id]))
    {
      CurrentStays(want, g, start, done, b, id);
      assert Get(b.cache, id) == Get(start, id);
      LossForeseen(want, env, g, start, done, b, id);
      ExecutedLogged(want, g, start, done, b, RuntimeOf(start[id]));
    }
  }

  /** The upgrade of the runtime a tool is due for is on the log of the layers, which precede the taint phase. */
  lemma UpgradeLogged(want: map<NodeID, Resource>, g: Graph, start: Snapshot, done: set<NodeID>, b: Point,
                      runtime: NodeID)
    requires Ran(want, g, start, done, b) && Upgraded(start, b.cache, runtime)
    ensures Act(runtime, ActionUpgrade) in b.log && Exit(runtime, true) in b.log
  {
    assert VersionChanged(Get(start, runtime), Get(b.cache, runtime));
    assert b.log[|Fresh(start).log|..] == b.log;
  }

  /** Every due tool is recorded, and marked unless it was installed again. */
  ghost predicate TaintKept(due: set<NodeID>, reinstalled: seq<NodeID>, s: Snapshot) {
    forall id :: id in due ==> id in s && (s[id].Tainted() || id in reinstalled)
  }

  ghost function DueSet(start: Snapshot, mid: Snapshot): set<NodeID> {
    set id | id in mid && Due(start, mid, id)
  }

  /** The marks of a complete run are only replaced by finished reinstallations. */
  lemma TaintsReplaced(want: map<NodeID, Resource>, g: Graph, start: Snapshot, b: Point, ids: seq<NodeID>, c: Snapshot,
                       resources: seq<Resource>, gone: seq<NodeID>, after: Snapshot, world: World)
    requires Ran(want, g, start, g.nodes, b)
    requires TaintPhase.Tainted(want, b.cache, b.updated, ids, c, TaintPhase.Completed)
    requires Removals.Cleaned(resources, want, c, gone, after, Removals.Completed, world)
    ensures TaintKept(DueSet(start, b.cache), ids, after)
    ensures Members(ids) == DueSet(start, b.cache)
  {
  }

  /** The marks are put on exactly the due tools, with their reason, and change nothing else. */
  lemma MarksMean(want: map<NodeID, Resource>, g: Graph, start: Snapshot, done: set<NodeID>, b: Point, id: NodeID)
    requires Ran(want, g, start, done, b) && id in b.cache
    ensures var after := TaintedBy(b.cache, b.updated);
            && after.Keys == b.cache.Keys
            && (if Due(start, b.cache, id) then OnlyMarked(b.cache[id], "runtime_upgraded", after[id])
                else after[id] == b.cache[id])
  {
    hide ShouldTaint, Due, Ran;
    DueExactly(want, g, start, done, b, id);
  }

  lemma ShouldTaintRecorded(s: Snapshot, updated: set<NodeID>, id: NodeID)
    ensures ShouldTaint(s, updated, id) ==> id in s
  {
  }

  /** A marked tool of the manifest is installed again by the next run, whatever flags it has. */
  lemma MarkedIsRepeated(want: map<NodeID, Resource>, cfg: UpdateConfig, s: Snapshot, id: NodeID)
    requires Grouping.Indexed(want) && WellTyped(s) && id in want && id in s && id.kind == KindTool && s[id].Tainted()
    ensures Planned(want, FlagTaints(cfg, s), id) == ActionUpgrade
  {
  }

  // ----- What a run rests on, in the words of the specifications -----------------------------------------

  /** Each needs the next one. */
  ghost predicate NeedsChain(want: map<NodeID, Resource>, q: seq<NodeID>) {
    forall i :: 0 <= i < |q| - 1 ==> q[i] in want && Needs(want[q[i]], q[i + 1])
  }

  /** No resource begins before everything it needs, directly or through others, has ended without an error. */
  ghost predicate NeedsFirst(want: map<NodeID, Resource>, log: seq<Event>) {
    forall p, q :: 0 <= p < |log| && |q| >= 2 && NeedsChain(want, q) && log[p] == Enter(q[0]) ==>
      Exit(q[|q| - 1], true) in log[..p]
  }

  lemma NeededFirst(want: map<NodeID, Resource>, g: Graph, level: map<NodeID, nat>, log: seq<Event>)
    requires OrderKept(g, log) && Leveled(g, level) && Resolver.DependenciesIn(want, g) && want.Keys <= g.nodes
    ensures NeedsFirst(want, log)
  {
    hide Needs, Leveled, NeedsChain, ChainFrom, Resolver.DependenciesIn;
    forall p, q | 0 <= p < |log| && |q| >= 2 && NeedsChain(want, q) && log[p] == Enter(q[0])
      ensures Exit(q[|q| - 1], true) in log[..p]
    {
      NeededChain(want, g, level, q);
      assert DependsOn(g, log[p].id, q[|q| - 1]);
    }
  }

  lemma NeededChain(want: map<NodeID, Resource>, g: Graph, level: map<NodeID, nat>, q: seq<NodeID>)
    requires Leveled(g, level) && Resolver.DependenciesIn(want, g) && want.Keys <= g.nodes
    requires |q| >= 2 && NeedsChain(want, q)
    ensures ChainFrom(g, q[0], q)
  {
    hide Needs, Leveled, Resolver.DependenciesIn;
    forall i | 0 <= i < |q| ensures q[i] in g.nodes && (i < |q| - 1 ==> q[i + 1] in DepsOf(g, q[i])) {
      if i < |q| - 1 {
        Needed(want, g, level, q[i], q[i + 1]);
      } else {
        Needed(want, g, level, q[i - 1], q[i]);
      }
    }
  }

  lemma Needed(want: map<NodeID, Resource>, g: Graph, level: map<NodeID, nat>, n: NodeID, d: NodeID)
    requires Leveled(g, level) && Resolver.DependenciesIn(want, g) && want.Keys <= g.nodes
    requires n in want && Needs(want[n], d)
    ensures n in g.nodes && d in g.nodes && d in DepsOf(g, n)
  {
    hide Needs;
    DependenciesAre(want[n], d);
  }

  /** Whatever was installed without an error was installed by an outside world that did its part. */
  ghost predicate AllWorked(want: map<NodeID, Resource>, world: World, log: seq<Event>) {
    forall id, act :: Act(id, act) in log && Exit(id, true) in log ==>
      id in want && Fulfilled(want[id], world(PhaseDAG, id))
  }

  lemma ActedWorked(want: map<NodeID, Resource>, env: Env, g: Graph, start: Snapshot, done: set<NodeID>, b: Point)
    requires Ran(want, g, start, done, b) && RunAnswered(want, env, start, b)
    ensures AllWorked(want, env.world, b.log)
  {
    hide Informed, Execution.Install, Stale;
    assert b.log[|Fresh(start).log|..] == b.log;
    forall id, act | Act(id, act) in b.log && Exit(id, true) in b.log
      ensures id in want && Fulfilled(want[id], env.world(PhaseDAG, id))
    {
      assert NodeAnswers(want, env, start, b, id, true) && Acts(want, id, start);
      InstallWorked(Informed(env.reg, b.cache), env.world(PhaseDAG, id), want[id],
                    ActionOf(want[id], Get(start, id)));
    }
  }
}
