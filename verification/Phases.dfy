/** What a stretch of a run does to the cache, the accounts and the log, and how stretches compose. */
module Phases {
  import opened Prelude
  import opened Resources
  import opened Graph
  import opened Installers
  import opened Scheduler
  import opened Execution
  import Grouping

  /** A point of a run: the cached state, the runtimes that changed version, the nodes that acted, the log. */
  datatype Point = Point(cache: Snapshot, updated: set<NodeID>, acted: set<NodeID>, log: seq<Event>)

  /** The node has something to do in state s. */
  predicate Acts(want: map<NodeID, Resource>, id: NodeID, s: Snapshot) {
    id in want && Managed(id.kind) && ActionOf(want[id], Get(s, id)) != ActionNone
  }

  /** Of some nodes those in done were executed without an error; nothing else changed. */
  ghost predicate StateAdvanced(want: map<NodeID, Resource>, done: set<NodeID>, a: Point, b: Point) {
    && (forall id :: id in done ==> Effect(want, id, Get(a.cache, id), Get(b.cache, id)))
    && (forall id :: id !in done ==> Get(b.cache, id) == Get(a.cache, id))
    && (forall id :: id in b.updated <==> id in a.updated || VersionChanged(Get(a.cache, id), Get(b.cache, id)))
    && (forall id :: id in b.acted <==> id in a.acted || (id in done && Acts(want, id, a.cache)))
  }

  /** What is appended to the log: events of the given nodes, with the actions they owed in state s. */
  ghost predicate Logged(want: map<NodeID, Resource>, nodes: set<NodeID>, done: set<NodeID>, s: Snapshot,
                         log: seq<Event>)
  {
    && (forall e :: e in log ==> e.id in nodes)
    && (forall id, act :: Act(id, act) in log ==> Acts(want, id, s) && act == ActionOf(want[id], Get(s, id)))
    && (forall id :: id in done <==> Exit(id, true) in log)
    && (forall id :: id in done && Acts(want, id, s) ==> Act(id, ActionOf(want[id], Get(s, id))) in log)
  }

  ghost predicate Advanced(want: map<NodeID, Resource>, nodes: set<NodeID>, done: set<NodeID>, a: Point, b: Point) {
    && done <= nodes
    && StateAdvanced(want, done, a, b)
    && a.log <= b.log
    && Logged(want, nodes, done, a.cache, b.log[|a.log|..])
  }

  lemma NotAdvanced(want: map<NodeID, Resource>, a: Point)
    ensures Advanced(want, {}, {}, a, a)
  {
  }

  lemma ComposeStates(want: map<NodeID, Resource>, d1: set<NodeID>, d2: set<NodeID>, a: Point, b: Point, c: Point)
    requires StateAdvanced(want, d1, a, b) && StateAdvanced(want, d2, b, c) && d1 !! d2
    ensures StateAdvanced(want, d1 + d2, a, c)
  {
  }

  lemma ComposeLogs(want: map<NodeID, Resource>, n1: set<NodeID>, n2: set<NodeID>, d1: set<NodeID>, d2: set<NodeID>,
                    s: Snapshot, t: Snapshot, l1: seq<Event>, l2: seq<Event>)
    requires Logged(want, n1, d1, s, l1) && Logged(want, n2, d2, t, l2) && d2 <= n2
    requires forall id :: id in n2 ==> Get(t, id) == Get(s, id)
    ensures Logged(want, n1 + n2, d1 + d2, s, l1 + l2)
  {
  }

  /** Stretches over different nodes compose. */
  lemma Compose(want: map<NodeID, Resource>, n1: set<NodeID>, d1: set<NodeID>, n2: set<NodeID>, d2: set<NodeID>,
                a: Point, b: Point, c: Point)
    requires Advanced(want, n1, d1, a, b) && Advanced(want, n2, d2, b, c) && n1 !! n2
    ensures Advanced(want, n1 + n2, d1 + d2, a, c)
  {
    ComposeStates(want, d1, d2, a, b, c);
    var l1, l2 := b.log[|a.log|..], c.log[|b.log|..];
    ComposeLogs(want, n1, n2, d1, d2, a.cache, b.cache, l1, l2);
    assert c.log[|a.log|..] == l1 + l2;
  }

  /** What is reported of a stretch: an error, unless cancelled, exactly when an execution ended with one. */
  ghost predicate Verdict(ok: bool, cancelled: bool, a: Point, b: Point) {
    && |a.log| <= |b.log|
    && (ok ==> !Failure(b.log[|a.log|..]))
    && (!ok ==> cancelled || Failure(b.log[|a.log|..]))
  }

  lemma VerdictTwice(ok: bool, cancelled1: bool, cancelled: bool, a: Point, b: Point, c: Point)
    requires Verdict(true, cancelled1, a, b) && Verdict(ok, cancelled, b, c) && a.log <= b.log <= c.log
    ensures Verdict(ok, cancelled, a, c)
  {
  }

  lemma VerdictAlready(cancelled: bool, a: Point)
    ensures Verdict(true, cancelled, a, a)
  {
  }

  // ----- What the installers answered --------------------------------------------------------------

  /** Every execution that ended did as the installers answer in this environment. */
  ghost predicate Answered(want: map<NodeID, Resource>, env: Env, a: Point, b: Point) {
    |a.log| <= |b.log| &&
    forall id, ok :: Exit(id, ok) in b.log[|a.log|..] ==>
      AnswerIs(want, env, id, Get(a.cache, id), ok, Get(b.cache, id))
  }

  lemma NothingAnswered(want: map<NodeID, Resource>, env: Env, a: Point)
    ensures Answered(want, env, a, a)
  {
  }

  lemma AnsweredTwice(want: map<NodeID, Resource>, env: Env, n1: set<NodeID>, d1: set<NodeID>, n2: set<NodeID>,
                      d2: set<NodeID>, a: Point, b: Point, c: Point)
    requires Advanced(want, n1, d1, a, b) && Advanced(want, n2, d2, b, c) && n1 !! n2
    requires Answered(want, env, a, b) && Answered(want, env, b, c)
    ensures Answered(want, env, a, c)
  {
  }

  lemma NodeAnswered(want: map<NodeID, Resource>, env: Env, id: NodeID, a: Point)
    ensures var r := RunNode(want, env.reg, env.world(PhaseDAG, id), id, Get(a.cache, id));
            Answered(want, env, a, AfterNode(a, id, r))
  {
  }

  lemma OverAnswered(c: Config, want: map<NodeID, Resource>, env: Env, a: Point, base: Accounts, done: seq<nat>,
                     cache: Snapshot, acc: Accounts, log: seq<Event>)
    requires Valid(c) && Runs(c, want, env.reg, env.world)
    requires Over(c, a.cache, base, done, cache, acc, log)
    ensures Answered(want, env, a, Point(cache, acc.updated, a.acted + acc.acted, a.log + log))
  {
  }

  // ----- One node, and one parallel phase -----------------------------------------------------

  function AfterRun(a: Point, id: NodeID, r: Report): Point {
    Point(Written(a.cache, id, r),
          if r.Did? && r.bumped then a.updated + {id} else a.updated,
          if r.Did? then a.acted + {id} else a.acted,
          a.log)
  }

  function AfterNode(a: Point, id: NodeID, r: Report): Point {
    AfterRun(a, id, r).(log := a.log + ([Enter(id)] + Trace(id, r)))
  }

  /** A report is the reconciler's: an action exactly when one is owed, that action, and a current entry. */
  predicate Honest(want: map<NodeID, Resource>, id: NodeID, cur: Option<Entry>, r: Report) {
    var owed := id in want && Managed(id.kind) && ActionOf(want[id], cur) != ActionNone;
    match r
    case Quiet => !owed
    case Broke(act) => owed && act == ActionOf(want[id], cur)
    case Did(act, e, bumped) =>
      && owed && act == ActionOf(want[id], cur)
      && e.Fits(id.kind) && !Stale(want[id], e)
      && bumped == VersionChanged(cur, Some(e))
  }

  lemma RunNodeHonest(want: map<NodeID, Resource>, reg: Registry, fate: Fate, id: NodeID, cur: Option<Entry>)
    requires Grouping.Indexed(want)
    ensures Honest(want, id, cur, RunNode(want, reg, fate, id, cur))
  {
  }

  lemma NodeAdvances(want: map<NodeID, Resource>, id: NodeID, r: Report, a: Point)
    requires Honest(want, id, Get(a.cache, id), r)
    ensures Advanced(want, {id}, if r.Broke? then {} else {id}, a, AfterNode(a, id, r))
  {
    var b := AfterNode(a, id, r);
    NodeState(want, id, r, a);
    NodeLogged(want, id, r, a.cache);
    assert b.log[|a.log|..] == [Enter(id)] + Trace(id, r);
  }

  lemma NodeState(want: map<NodeID, Resource>, id: NodeID, r: Report, a: Point)
    requires Honest(want, id, Get(a.cache, id), r)
    ensures StateAdvanced(want, if r.Broke? then {} else {id}, a, AfterNode(a, id, r))
  {
  }

  lemma NodeLogged(want: map<NodeID, Resource>, id: NodeID, r: Report, s: Snapshot)
    requires Honest(want, id, Get(s, id), r)
    ensures Logged(want, {id}, if r.Broke? then {} else {id}, s, [Enter(id)] + Trace(id, r))
  {
  }

  /** The nodes of a configuration, and those of them executed without an error. */
  ghost function NodesOf(c: Config): set<NodeID> {
    set i, k | 0 <= i < |c.work| && 0 <= k < |c.work[i]| :: c.work[i][k]
  }

  ghost function Succeeded(c: Config, s: Snapshot, done: seq<nat>): set<NodeID>
    requires Counts(c, done)
  {
    set i, k | 0 <= i < |c.work| && 0 <= k < |c.work[i]| && k < done[i] && !Outcome(c, s, i, k).Broke? :: c.work[i][k]
  }

  ghost predicate Runs(c: Config, want: map<NodeID, Resource>, reg: Registry, world: World) {
    forall id, cur :: c.run(id, cur) == RunNode(want, reg, world(PhaseDAG, id), id, cur)
  }

  lemma AmongNodes(c: Config, id: NodeID)
    ensures id in NodesOf(c) <==> Among(c, id)
  {
    if id in NodesOf(c) {
      var i, k :| 0 <= i < |c.work| && 0 <= k < |c.work[i]| && c.work[i][k] == id;
      assert Slot(c, i, k) && At(c, i, k) == id;
    }
  }

  /** What a node of a finished phase came to, by identity. */
  lemma OverAt(c: Config, want: map<NodeID, Resource>, reg: Registry, world: World, a: Point, base: Accounts,
               done: seq<nat>, cache: Snapshot, acc: Accounts, log: seq<Event>, id: NodeID)
    requires Valid(c) && Runs(c, want, reg, world) && Grouping.Indexed(want)
    requires Over(c, a.cache, base, done, cache, acc, log) && base == Accounts(a.updated, {}, {})
    ensures id in Succeeded(c, a.cache, done) ==> id in NodesOf(c)
    ensures id in Succeeded(c, a.cache, done) ==> Effect(want, id, Get(a.cache, id), Get(cache, id))
    ensures id !in Succeeded(c, a.cache, done) ==> Get(cache, id) == Get(a.cache, id)
    ensures id in acc.updated <==> id in a.updated || VersionChanged(Get(a.cache, id), Get(cache, id))
    ensures id in acc.acted <==> id in Succeeded(c, a.cache, done) && Acts(want, id, a.cache)
    ensures id in Succeeded(c, a.cache, done) <==> Exit(id, true) in log
    ensures forall act :: Act(id, act) in log ==> Acts(want, id, a.cache) && act == ActionOf(want[id], Get(a.cache, id))
    ensures id in Succeeded(c, a.cache, done) && Acts(want, id, a.cache) ==>
      Act(id, ActionOf(want[id], Get(a.cache, id))) in log
  {
  }

  lemma LoggedAmong(c: Config, s: Snapshot, base: Accounts, done: seq<nat>, cache: Snapshot, acc: Accounts,
                    log: seq<Event>, e: Event)
    requires Over(c, s, base, done, cache, acc, log) && e in log
    ensures Among(c, e.id)
  {
  }

  /** A finished phase is a stretch over its nodes; a complete one executed them all without an error. */
  lemma OverAdvances(c: Config, want: map<NodeID, Resource>, reg: Registry, world: World, a: Point, base: Accounts,
                     done: seq<nat>, cache: Snapshot, acc: Accounts, log: seq<Event>)
    requires Valid(c) && Runs(c, want, reg, world) && Grouping.Indexed(want)
    requires Over(c, a.cache, base, done, cache, acc, log) && base == Accounts(a.updated, {}, {})
    ensures Advanced(want, NodesOf(c), Succeeded(c, a.cache, done), a,
                     Point(cache, acc.updated, a.acted + acc.acted, a.log + log))
    ensures Complete(c, a.cache, done) ==> Succeeded(c, a.cache, done) == NodesOf(c)
    ensures acc.acted <= NodesOf(c)
  {
    hide Over, Runs, Valid, Effect, Acts, VersionChanged;
    var b := Point(cache, acc.updated, a.acted + acc.acted, a.log + log);
    forall id {
      OverAt(c, want, reg, world, a, base, done, cache, acc, log, id);
    }
    assert b.log[|a.log|..] == log;
    forall e | e in log ensures e.id in NodesOf(c) {
      LoggedAmong(c, a.cache, base, done, cache, acc, log, e);
      AmongNodes(c, e.id);
    }
    if Complete(c, a.cache, done) {
      forall id | id in NodesOf(c) ensures id in Succeeded(c, a.cache, done) {
        var i, k :| 0 <= i < |c.work| && 0 <= k < |c.work[i]| && c.work[i][k] == id;
        assert Slot(c, i, k);
      }
    }
  }

  // ----- Dependency safety over the whole run ------------------------------------------------------

  ghost predicate DependsOn(g: Graph, n: NodeID, d: NodeID) {
    exists q :: ChainFrom(g, n, q) && |q| >= 2 && q[|q| - 1] == d
  }

  /** No node begins before everything it transitively depends on has ended without an error. The log only
      grows, so this holds at every moment of the run. */
  ghost predicate DepSafe(g: Graph, log: seq<Event>) {
    forall p, d :: 0 <= p < |log| && log[p].Enter? && DependsOn(g, log[p].id, d) ==> Exit(d, true) in log[..p]
  }

  lemma DepSafePrefix(g: Graph, log: seq<Event>, n: nat)
    requires DepSafe(g, log) && n <= |log|
    ensures DepSafe(g, log[..n])
  {
  }

  /** Inside a layer: runtimes and installers, then repositories, then the rest. */
  function Turn(k: Kind): nat {
    match k
    case KindRuntime => 0
    case KindInstaller => 0
    case KindInstallerRepository => 1
    case _ => 2
  }

  /** No node begins before all of the given nodes with an earlier turn have ended without an error. */
  ghost predicate KindOrder(nodes: set<NodeID>, log: seq<Event>) {
    forall p, n :: 0 <= p < |log| && log[p].Enter? && n in nodes && Turn(n.kind) < Turn(log[p].id.kind) ==>
      Exit(n, true) in log[..p]
  }

  lemma KindOrderGrows(nodes: set<NodeID>, turn: nat, log: seq<Event>, more: seq<Event>)
    requires KindOrder(nodes, log)
    requires forall n :: n in nodes && Turn(n.kind) < turn ==> Exit(n, true) in log
    requires forall e :: e in more ==> Turn(e.id.kind) == turn
    ensures KindOrder(nodes, log + more)
  {
    var all := log + more;
    forall p, n | 0 <= p < |all| && all[p].Enter? && n in nodes && Turn(n.kind) < Turn(all[p].id.kind)
      ensures Exit(n, true) in all[..p]
    {
      if p < |log| {
        assert all[..p] == log[..p];
      } else {
        assert all[p] in more;
        assert all[..p] == log + more[..p - |log|];
      }
    }
  }

  predicate Sooner(level: map<NodeID, nat>, n: NodeID, m: NodeID)
    requires n in level && m in level
  {
    level[n] < level[m] || (level[n] == level[m] && Turn(n.kind) < Turn(m.kind))
  }

  /** The barrier between layers and between the kinds of a layer. */
  ghost predicate Barrier(level: map<NodeID, nat>, log: seq<Event>) {
    && (forall e :: e in log ==> e.id in level)
    && forall p, n ::
         0 <= p < |log| && log[p].Enter? && n in level && log[p].id in level && Sooner(level, n, log[p].id) ==>
           Exit(n, true) in log[..p]
  }

  /** One more layer keeps the barrier once all lower levels are done. */
  lemma BarrierGrows(level: map<NodeID, nat>, k: nat, nodes: set<NodeID>, log: seq<Event>, more: seq<Event>)
    requires Barrier(level, log) && KindOrder(nodes, more)
    requires forall n :: n in nodes <==> n in level && level[n] == k
    requires forall n :: n in level && level[n] < k ==> Exit(n, true) in log
    requires forall e :: e in more ==> e.id in nodes
    ensures Barrier(level, log + more)
  {
    var all := log + more;
    forall p, n | 0 <= p < |all| && all[p].Enter? && n in level && all[p].id in level && Sooner(level, n, all[p].id)
      ensures Exit(n, true) in all[..p]
    {
      if p < |log| {
        assert all[..p] == log[..p];
      } else {
        assert all[p] == more[p - |log|] && all[p] in more;
        assert all[..p] == log + more[..p - |log|];
      }
    }
  }

  /** The barrier is enough for dependency safety: whatever a node transitively depends on lies in a lower layer. */
  lemma BarrierSafe(g: Graph, level: map<NodeID, nat>, log: seq<Event>)
    requires Leveled(g, level) && Barrier(level, log)
    ensures DepSafe(g, log)
  {
    forall p, d | 0 <= p < |log| && log[p].Enter? && DependsOn(g, log[p].id, d)
      ensures Exit(d, true) in log[..p]
    {
      var q :| ChainFrom(g, log[p].id, q) && |q| >= 2 && q[|q| - 1] == d;
      DependenciesBelow(g, level, q);
      assert Sooner(level, d, log[p].id);
    }
  }

  // ----- Errors ---------------------------------------------------------------------------------------

  /** A failure of m keeps n from being executed: m has an earlier turn, or comes before n in its delegation group. */
  predicate Hinders(want: map<NodeID, Resource>, m: NodeID, n: NodeID) {
    || Turn(m.kind) < Turn(n.kind)
    || (Grouping.KeyOf(want, m) == Grouping.KeyOf(want, n) != "" && StringLess(m.name, n.name))
  }

  ghost predicate Excuses(want: map<NodeID, Resource>, log: seq<Event>, m: NodeID, n: NodeID) {
    Exit(m, false) in log && Hinders(want, m, n)
  }

  /** A node is executed if and only if no failure keeps it from that. */
  ghost predicate Attempted(want: map<NodeID, Resource>, nodes: set<NodeID>, a: Point, b: Point) {
    |a.log| <= |b.log| &&
    var log := b.log[|a.log|..];
    forall n :: n in nodes ==> (Ended(n, log) <==> !exists m :: Excuses(want, log, m, n))
  }

  /** Only an earlier turn hinders across turns. */
  lemma HindersForward(want: map<NodeID, Resource>, m: NodeID, n: NodeID)
    requires Hinders(want, m, n)
    ensures Turn(m.kind) <= Turn(n.kind) && m != n
  {
    StringLessOrder(m.name, n.name, "");
  }

  /** A stretch without a failure, followed by one over nodes with later turns. */
  lemma AttemptedTwice(want: map<NodeID, Resource>, n1: set<NodeID>, d1: set<NodeID>, n2: set<NodeID>, d2: set<NodeID>,
                       turn: nat, a: Point, b: Point, c: Point)
    requires Advanced(want, n1, d1, a, b) && Advanced(want, n2, d2, b, c)
    requires Attempted(want, n1, a, b) && Attempted(want, n2, b, c) && Verdict(true, false, a, b)
    requires (forall n :: n in n1 ==> Turn(n.kind) < turn) && forall n :: n in n2 ==> Turn(n.kind) >= turn
    ensures Attempted(want, n1 + n2, a, c)
  {
    hide StateAdvanced, Hinders;
    var l1, l2, l := b.log[|a.log|..], c.log[|b.log|..], c.log[|a.log|..];
    assert l == l1 + l2;
    forall n | n in n1 + n2 ensures Ended(n, l) <==> !exists m :: Excuses(want, l, m, n) {
      forall m | Excuses(want, l, m, n) ensures n in n2 && Excuses(want, l2, m, n) {
        assert Exit(m, false) in l2 && Exit(m, false).id in n2;
        HindersForward(want, m, n);
      }
      assert forall m :: Excuses(want, l2, m, n) ==> Excuses(want, l, m, n);
      if n in n1 {
        assert forall m :: !Excuses(want, l1, m, n);
        var ok :| Exit(n, ok) in l1;
        assert Exit(n, ok) in l;
      } else {
        forall ok ensures Exit(n, ok) in l <==> Exit(n, ok) in l2 {
          assert Exit(n, ok) in l1 ==> Exit(n, ok).id in n1;
        }
      }
    }
  }

  /** A failure in an earlier turn keeps all later ones from being executed. */
  lemma FailureExcuses(want: map<NodeID, Resource>, nodes: set<NodeID>, later: set<NodeID>, done: set<NodeID>,
                       turn: nat, a: Point, b: Point)
    requires Advanced(want, nodes, done, a, b) && Failure(b.log[|a.log|..]) && Attempted(want, nodes, a, b)
    requires (forall n :: n in nodes ==> Turn(n.kind) < turn) && forall n :: n in later ==> Turn(n.kind) >= turn
    ensures Attempted(want, nodes + later, a, b)
  {
    hide StateAdvanced, Grouping.KeyOf;
    var log := b.log[|a.log|..];
    var m :| Exit(m, false) in log;
    assert Exit(m, false).id in nodes;
    forall n | n in later ensures !Ended(n, log) && Excuses(want, log, m, n) {
      forall ok ensures Exit(n, ok) !in log {
        assert Exit(n, ok) in log ==> Exit(n, ok).id in nodes;
      }
    }
  }
}
