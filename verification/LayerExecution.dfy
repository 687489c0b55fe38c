/** Executing a layer: three phases by kind, each in sequence or in parallel. */
module LayerExecution {
  import opened Prelude
  import opened Resources
  import opened Graph
  import opened Kahn
  import opened Installers
  import opened Grouping
  import opened Scheduler
  import opened StateStore
  import opened Execution
  import opened Phases
  import opened Nodes

  // ----- In sequence --------------------------------------------------------------------------

  /** One node, seen as a stretch of the run. */
  method ExecuteOne(x: Executor, id: NodeID, want: map<NodeID, Resource>, world: World, p: Progress) returns (ok: bool)
    requires x.Wired() && x.sc.Valid() && Indexed(want) && p.Counted() && id !in p.acted
    modifies x.sc.cache, x.sc`dirty, x.sc`history, p`updated, p`total, p`acted, p`log
    ensures x.sc.Valid() && p.Counted() && x.sc.cache == old(x.sc.cache)
    ensures Advanced(want, {id}, if ok then {id} else {}, old(x.Here(p)), x.Here(p))
    ensures Verdict(ok, false, old(x.Here(p)), x.Here(p))
    ensures Answered(want, Env(x.tools.registry, world), old(x.Here(p)), x.Here(p))
    ensures p.acted <= old(p.acted) + {id}
  {
    hide View, EntryOf, RunNode, Advanced, Honest, Answered;
    ghost var a := x.Here(p);
    RunNodeHonest(want, x.tools.registry, world(PhaseDAG, id), id, Get(a.cache, id));
    ok := x.ExecuteNode(id, want, world, p);
    NodeAdvances(want, id, RunNode(want, x.tools.registry, world(PhaseDAG, id), id, Get(a.cache, id)), a);
    NodeVerdict(id, RunNode(want, x.tools.registry, world(PhaseDAG, id), id, Get(a.cache, id)), a);
    NodeAnswered(want, Env(x.tools.registry, world), id, a);
  }

  lemma NodeVerdict(id: NodeID, r: Report, a: Point)
    ensures Verdict(!r.Broke?, false, a, AfterNode(a, id, r))
  {
  }

  /** Stops at the first error. */
  method ExecuteSequence(x: Executor, nodes: seq<NodeID>, want: map<NodeID, Resource>, world: World, p: Progress)
    returns (ok: bool, ghost done: set<NodeID>)
    requires x.Wired() && x.sc.Valid() && Indexed(want) && p.Counted()
    requires NoDup(nodes) && Members(nodes) !! p.acted
    modifies x.sc.cache, x.sc`dirty, x.sc`history, p`updated, p`total, p`acted, p`log
    ensures x.sc.Valid() && p.Counted() && x.sc.cache == old(x.sc.cache)
    ensures Advanced(want, Members(nodes), done, old(x.Here(p)), x.Here(p))
    ensures ok ==> done == Members(nodes)
    ensures Verdict(ok, false, old(x.Here(p)), x.Here(p))
    ensures TriedFrom([nodes], old(x.Here(p)), x.Here(p))
    ensures Answered(want, Env(x.tools.registry, world), old(x.Here(p)), x.Here(p))
    ensures p.acted <= old(p.acted) + Members(nodes)
  {
    hide *;
    ghost var a, env := x.Here(p), Env(x.tools.registry, world);
    NothingAnswered(want, env, a);
    ghost var before: set<NodeID> := {};
    NotAdvanced(want, a);
    done := {};
    NoMembers(nodes);
    VerdictAlready(false, a);
    for i := 0 to |nodes|
      invariant x.sc.Valid() && p.Counted() && x.sc.cache == old(x.sc.cache)
      invariant before == Members(nodes[..i]) && before <= Members(nodes) && done == before
      invariant Advanced(want, before, done, a, x.Here(p)) && Verdict(true, false, a, x.Here(p))
      invariant Answered(want, env, a, x.Here(p))
      invariant p.acted <= a.acted + before
    {
      MembersOneMore(nodes, i);
      ghost var b := x.Here(p);
      ok := ExecuteOne(x, nodes[i], want, world, p);
      ghost var one: set<NodeID> := if ok then {nodes[i]} else {};
      Compose(want, before, done, {nodes[i]}, one, a, b, x.Here(p));
      AnsweredTwice(want, env, before, done, {nodes[i]}, one, a, b, x.Here(p));
      LogsGrow(want, before, done, a, b);
      LogsGrow(want, {nodes[i]}, one, b, x.Here(p));
      VerdictTwice(ok, false, false, a, b, x.Here(p));
      before, done := before + {nodes[i]}, done + one;
      if !ok {
        StoppedTried(want, nodes, i, before - {nodes[i]}, done, a, b, x.Here(p));
        Widen(want, before, Members(nodes), done, a, x.Here(p));
        return;
      }
    }
    assert nodes[..|nodes|] == nodes;
    VerdictPassed(false, a, x.Here(p));
    AllTried(want, nodes, done, a, x.Here(p));
    ok := true;
  }

  /** Nodes are executed exactly if no earlier one of their worker failed, in the stretch from a to b. */
  ghost predicate TriedFrom(work: seq<seq<NodeID>>, a: Point, b: Point) {
    |a.log| <= |b.log| && Tried(work, b.log[|a.log|..])
  }

  lemma AllTried(want: map<NodeID, Resource>, nodes: seq<NodeID>, done: set<NodeID>, a: Point, b: Point)
    requires Advanced(want, Members(nodes), done, a, b) && done == Members(nodes) && Verdict(true, false, a, b)
    ensures TriedFrom([nodes], a, b)
  {
    hide StateAdvanced;
    forall k | 0 <= k < |nodes| ensures Ended(nodes[k], b.log[|a.log|..]) {
      assert nodes[k] in done;
      assert Exit(nodes[k], true) in b.log[|a.log|..];
    }
  }

  /** The loop over a sequence stopped at node i. */
  lemma StoppedTried(want: map<NodeID, Resource>, nodes: seq<NodeID>, i: nat, before: set<NodeID>, done: set<NodeID>,
                     a: Point, b: Point, c: Point)
    requires i < |nodes| && before == Members(nodes[..i]) && done == before
    requires NoDup(nodes) && Advanced(want, before, done, a, b) && Verdict(true, false, a, b)
    requires Advanced(want, {nodes[i]}, {}, b, c) && Verdict(false, false, b, c)
    ensures TriedFrom([nodes], a, c)
  {
    hide StateAdvanced;
    var log := c.log[|a.log|..];
    assert log == b.log[|a.log|..] + c.log[|b.log|..];
    var id :| Exit(id, false) in c.log[|b.log|..];
    assert Exit(id, false).id in {nodes[i]};
    assert Exit(nodes[i], false) in log;
    forall k | 0 <= k < |nodes| ensures Ended(nodes[k], log) <==> !FailedBefore(nodes, k, log) {
      if k < i {
        assert nodes[..i][k] in done;
        assert Exit(nodes[k], true) in log;
      }
      NotFailed(want, nodes, i, before, done, a, b, c);
    }
  }

  /** Before position i none failed, and after it none was executed. */
  lemma NotFailed(want: map<NodeID, Resource>, nodes: seq<NodeID>, i: nat, before: set<NodeID>, done: set<NodeID>,
                  a: Point, b: Point, c: Point)
    requires i < |nodes| && NoDup(nodes) && before == Members(nodes[..i]) && done == before
    requires Advanced(want, before, done, a, b) && Verdict(true, false, a, b) && Advanced(want, {nodes[i]}, {}, b, c)
    ensures forall j :: 0 <= j < i ==> Exit(nodes[j], false) !in c.log[|a.log|..]
    ensures forall k :: i < k < |nodes| ==> !Ended(nodes[k], c.log[|a.log|..])
  {
    hide StateAdvanced;
    var l1, l2 := b.log[|a.log|..], c.log[|b.log|..];
    assert c.log[|a.log|..] == l1 + l2;
    assert forall e :: e in l1 ==> e.id in before;
    assert forall e :: e in l2 ==> e.id in {nodes[i]};
    forall k, ok | 0 <= k < |nodes| && k != i && (k < i ==> !ok) ensures Exit(nodes[k], ok) !in l1 + l2 {
      var e := Exit(nodes[k], ok);
      assert e.id !in {nodes[i]} && (k > i ==> e.id !in before);
    }
  }

  lemma LogsGrow(want: map<NodeID, Resource>, nodes: set<NodeID>, done: set<NodeID>, a: Point, b: Point)
    requires Advanced(want, nodes, done, a, b)
    ensures a.log <= b.log
  {
  }

  lemma NoMembers(s: seq<NodeID>)
    ensures Members(s[..0]) == {}
  {
  }

  lemma Widen(want: map<NodeID, Resource>, n: set<NodeID>, m: set<NodeID>, done: set<NodeID>, a: Point, b: Point)
    requires Advanced(want, n, done, a, b) && n <= m
    ensures Advanced(want, m, done, a, b)
  {
  }

  // ----- In parallel --------------------------------------------------------------------------

  function Configure(work: seq<seq<NodeID>>, nd: nat, par: nat, want: map<NodeID, Resource>, reg: Registry,
                     world: World): (c: Config)
    ensures c.work == work && c.nd == nd && c.par == par && Runs(c, want, reg, world)
  {
    Config(work, nd, par, (id, cur) => RunNode(want, reg, world(PhaseDAG, id), id, cur))
  }

  /** The part of a step that touches the shared cache: a loaded node is installed and saved. */
  method PerformStep(x: Executor, c: Config, s: State, t: Step, want: map<NodeID, Resource>, world: World)
    requires x.Wired() && x.sc.Valid() && Indexed(want) && Runs(c, want, x.tools.registry, world)
    requires Scheduler.Valid(c) && Shape(c, s) && Enabled(c, s, t) && s.cache == x.sc.Now()
    requires t.Work? && s.ws[t.i].Loaded? ==> s.ws[t.i].cur == Get(s.cache, At(c, t.i, s.ws[t.i].k))
    modifies x.sc.cache, x.sc`dirty, x.sc`history
    ensures x.sc.Valid() && x.sc.cache == old(x.sc.cache) && x.sc.Now() == Do(c, s, t).cache
  {
    hide View, EntryOf, Do, RunNode, Scheduler.Valid;
    StepEffects(c, s, t);
    if t.Work? && s.ws[t.i].Loaded? {
      var id := At(c, t.i, s.ws[t.i].k);
      PerformNode(x, id, want, world, s.ws[t.i].cur);
    }
  }

  method PerformNode(x: Executor, id: NodeID, want: map<NodeID, Resource>, world: World, cur: Option<Entry>)
    requires x.Wired() && x.sc.Valid() && Indexed(want)
    modifies x.sc.cache, x.sc`dirty, x.sc`history
    ensures x.sc.Valid() && x.sc.cache == old(x.sc.cache)
    ensures x.sc.Now() == Written(old(x.sc.Now()), id, RunNode(want, x.tools.registry, world(PhaseDAG, id), id, cur))
  {
    hide View, EntryOf, Execution.Install, Stale;
    if id in want && Managed(id.kind) {
      assert want[id].Id() == id;
      var act := ActionOf(want[id], cur);
      if act != ActionNone {
        var _ := x.Perform(want[id], act, world(PhaseDAG, id));
      }
    }
  }

  /** The goroutines of a phase, with every choice of the next step left open. */
  method ExecuteParallel(x: Executor, work: seq<seq<NodeID>>, nd: nat, par: nat, want: map<NodeID, Resource>,
                         world: World, ctx: Context, p: Progress)
    returns (ok: bool, ghost done: set<NodeID>)
    requires x.Wired() && x.sc.Valid() && Indexed(want) && p.Counted()
    requires Distinct(work) && nd <= |work| && par >= 1 && forall i :: 0 <= i < nd ==> |work[i]| == 1
    requires AllOf(work) !! p.acted
    modifies x.sc.cache, x.sc`dirty, x.sc`history, p`updated, p`total, p`acted, p`log, ctx
    ensures x.sc.Valid() && p.Counted() && x.sc.cache == old(x.sc.cache)
    ensures old(ctx.cancelled) ==> ctx.cancelled
    ensures Advanced(want, AllOf(work), done, old(x.Here(p)), x.Here(p))
    ensures ok && (!ctx.cancelled || nd == |work|) ==> done == AllOf(work)
    ensures Verdict(ok, ctx.cancelled, old(x.Here(p)), x.Here(p))
    ensures !ctx.cancelled ==> TriedFrom(work, old(x.Here(p)), x.Here(p))
    ensures Answered(want, Env(x.tools.registry, world), old(x.Here(p)), x.Here(p))
    ensures !ctx.cancelled ==>
      LikeSequential(Configure(work, nd, par, want, x.tools.registry, world), old(x.Here(p)), x.Here(p), ok)
    ensures p.acted <= old(p.acted) + AllOf(work)
  {
    hide *;
    var c := Configure(work, nd, par, want, x.tools.registry, world);
    ConfigValid(c);
    ghost var a := x.Here(p);
    var base := Accounts(p.updated, {}, {});
    var s := Init(c, x.sc.Now(), base, ctx.cancelled);
    InitInv(c, a.cache, base, ctx.cancelled);
    InitIs(c, a.cache, base, ctx.cancelled);
    while !s.joined
      invariant Inv(c, a.cache, base, s)
      invariant x.sc.Valid() && x.sc.cache == old(x.sc.cache) && s.cache == x.sc.Now() && s.cancelled == ctx.cancelled
      invariant old(ctx.cancelled) ==> ctx.cancelled
      invariant unchanged(p)
      decreases Steps(c, s)
    {
      InvParts(c, a.cache, base, s);
      var t := Choose(c, s);
      StepEffects(c, s, t);
      StepsLeft(c, s, t);
      LoadedCurrent(c, a.cache, base, s, t);
      PerformStep(x, c, s, t, want, world);
      InvKept(c, a.cache, base, s, t);
      s := Do(c, s, t);
      ctx.cancelled := s.cancelled;
    }
    InvParts(c, a.cache, base, s);
    JoinedComplete(c, a.cache, base, s);
    JoinVerdict(c, a.cache, base, s, a);
    OverAnswered(c, want, Env(x.tools.registry, world), a, base, DoneAll(s.ws), s.cache, s.accounts, s.log);
    OverAdvances(c, want, x.tools.registry, world, a, base, DoneAll(s.ws), s.cache, s.accounts, s.log);
    done := Succeeded(c, a.cache, DoneAll(s.ws));
    ok := s.accounts.failed == {} && !s.interrupted;
    Tally(p, s);
    assert x.Here(p) == Point(s.cache, s.accounts.updated, a.acted + s.accounts.acted, a.log + s.log);
  }

  /** Point b is what executing the workers one after another makes of a, with the same errors. */
  ghost predicate LikeSequential(c: Config, a: Point, b: Point, ok: bool) {
    Scheduler.Valid(c) &&
    var r := Sequentially(c, 0, 0, a.cache, Accounts(a.updated, {}, {}));
    && b.cache == r.0 && b.updated == r.1.updated && b.acted == a.acted + r.1.acted
    && (ok <==> r.1.failed == {})
  }

  lemma JoinVerdict(c: Config, cache0: Snapshot, base: Accounts, s: State, a: Point)
    requires Scheduler.Valid(c) && Inv(c, cache0, base, s) && s.joined && a.cache == cache0
    requires base == Accounts(a.updated, {}, {})
    ensures var ok, b := s.accounts.failed == {} &&
      !s.interrupted, Point(s.cache, s.accounts.updated, a.acted + s.accounts.acted, a.log + s.log);
            Verdict(ok, s.cancelled, a, b) && (!s.cancelled ==> LikeSequential(c, a, b, ok) && TriedFrom(c.work, a, b))
  {
    hide Shape, Data, LogSpec, Sequentially, Scheduler.Valid, Over, Tried;
    JoinedComplete(c, cache0, base, s);
    OverFailures(c, cache0, base, DoneAll(s.ws), s.cache, s.accounts, s.log);
    assert (a.log + s.log)[|a.log|..] == s.log;
    if !s.cancelled {
      JoinedSequential(c, cache0, base, s);
      JoinedTried(c, cache0, base, s);
    }
  }

  lemma InitIs(c: Config, cache0: Snapshot, base: Accounts, cancelled: bool)
    ensures var s := Init(c, cache0, base, cancelled); s.cache == cache0 && s.cancelled == cancelled
  {
  }

  lemma InvParts(c: Config, cache0: Snapshot, base: Accounts, s: State)
    requires Inv(c, cache0, base, s)
    ensures Shape(c, s) && Semaphore(c, s) && |s.ws| == |c.work| && Counts(c, DoneAll(s.ws))
  {
  }

  lemma StepsLeft(c: Config, s: State, t: Step)
    requires Scheduler.Valid(c) && Shape(c, s) && Enabled(c, s, t)
    ensures Steps(c, Do(c, s, t)) < Steps(c, s)
  {
    hide Do, LeftAll, Shape, Enabled, Scheduler.Valid;
    Scheduler.StepsDown(c, s, t);
    ShapeKept(c, s, t);
    assert |s.ws| == |c.work| by { InShape(c, s); }
  }

  lemma InShape(c: Config, s: State)
    requires Shape(c, s)
    ensures |s.ws| == |c.work|
  {
  }

  /** What a worker loaded is still what the cache holds: nobody else writes its entry. */
  lemma LoadedCurrent(c: Config, cache0: Snapshot, base: Accounts, s: State, t: Step)
    requires Inv(c, cache0, base, s) && Enabled(c, s, t)
    ensures t.Work? && s.ws[t.i].Loaded? ==>
      s.ws[t.i].k < |c.work[t.i]| && s.ws[t.i].cur == Get(s.cache, At(c, t.i, s.ws[t.i].k))
  {
  }

  /** The join adds up what the goroutines counted. */
  method Tally(p: Progress, s: State)
    requires p.Counted() && s.accounts.acted !! p.acted
    modifies p`updated, p`total, p`acted, p`log
    ensures p.Counted()
    ensures p.updated == s.accounts.updated && p.acted == old(p.acted) + s.accounts.acted && p.log == old(p.log) + s.log
  {
    p.updated := s.accounts.updated;
    p.total := p.total + |s.accounts.acted|;
    p.acted := p.acted + s.accounts.acted;
    p.log := p.log + s.log;
  }

  ghost function AllOf(work: seq<seq<NodeID>>): set<NodeID> {
    set i, k | 0 <= i < |work| && 0 <= k < |work[i]| :: work[i][k]
  }

  /** No node occurs twice and no worker is empty. */
  ghost predicate Distinct(work: seq<seq<NodeID>>) {
    && (forall i :: 0 <= i < |work| ==> |work[i]| >= 1 && NoDup(work[i]))
    && (forall i, j, n :: 0 <= i < |work| && 0 <= j < |work| && n in work[i] && n in work[j] ==> i == j)
  }

  lemma ConfigValid(c: Config)
    requires Distinct(c.work) && c.nd <= |c.work| && c.par >= 1 && forall i :: 0 <= i < c.nd ==> |c.work[i]| == 1
    ensures Scheduler.Valid(c) && NodesOf(c) == AllOf(c.work)
  {
    forall i, k, j, l | Slot(c, i, k) && Slot(c, j, l) && At(c, i, k) == At(c, j, l) ensures i == j && k == l {
      assert c.work[i][k] in c.work[i] && c.work[j][l] in c.work[j];
    }
  }

  function Steps(c: Config, s: State): nat {
    if |s.ws| == |c.work| && Measure(c, s) >= 0 then Measure(c, s) else 0
  }

  // ----- Groups of nodes and layers ---------------------------------------------------------------

  function Singles(nodes: seq<NodeID>): seq<seq<NodeID>> {
    seq(|nodes|, i requires 0 <= i < |nodes| => [nodes[i]])
  }

  lemma SinglesDistinct(nodes: seq<NodeID>)
    requires NoDup(nodes)
    ensures Distinct(Singles(nodes)) && AllOf(Singles(nodes)) == Members(nodes)
  {
    var work := Singles(nodes);
    forall n ensures n in AllOf(work) <==> n in Members(nodes) {
      if n in Members(nodes) {
        var i :| 0 <= i < |nodes| && nodes[i] == n;
        assert work[i][0] == n;
      }
    }
  }

  /** One node or none runs in place, several run in parallel. */
  method ExecuteNodeGroup(x: Executor, nodes: seq<NodeID>, par: nat, want: map<NodeID, Resource>, world: World,
                          ctx: Context, p: Progress)
    returns (ok: bool, ghost done: set<NodeID>)
    requires x.Wired() && x.sc.Valid() && Indexed(want) && p.Counted() && par >= 1
    requires NoDup(nodes) && Members(nodes) !! p.acted
    modifies x.sc.cache, x.sc`dirty, x.sc`history, p`updated, p`total, p`acted, p`log, ctx
    ensures x.sc.Valid() && p.Counted() && x.sc.cache == old(x.sc.cache)
    ensures old(ctx.cancelled) ==> ctx.cancelled
    ensures Advanced(want, Members(nodes), done, old(x.Here(p)), x.Here(p))
    ensures ok ==> done == Members(nodes)
    ensures Verdict(ok, ctx.cancelled, old(x.Here(p)), x.Here(p))
    ensures !ctx.cancelled && Independent(want, nodes) ==>
      Attempted(want, Members(nodes), old(x.Here(p)), x.Here(p))
    ensures Answered(want, Env(x.tools.registry, world), old(x.Here(p)), x.Here(p))
    ensures p.acted <= old(p.acted) + Members(nodes)
  {
    hide *;
    ghost var a := x.Here(p);
    if |nodes| <= 1 {
      ok, done := ExecuteSequence(x, nodes, want, world, p);
      VerdictWidens(ok, ctx.cancelled, a, x.Here(p));
      if Independent(want, nodes) {
        SingleAttempted(want, nodes, done, a, x.Here(p));
      }
      return;
    }
    SinglesDistinct(nodes);
    SinglesAreSingle(nodes);
    ok, done := ExecuteParallel(x, Singles(nodes), |nodes|, par, want, world, ctx, p);
    if !ctx.cancelled && Independent(want, nodes) {
      SinglesAttempted(want, nodes, done, a, x.Here(p));
    }
  }

  /** No failure among the nodes keeps another from being executed. */
  ghost predicate Independent(want: map<NodeID, Resource>, nodes: seq<NodeID>) {
    forall m, n :: m in nodes && n in nodes ==> !Hinders(want, m, n)
  }

  lemma IndependentWithoutKeys(want: map<NodeID, Resource>, nodes: seq<NodeID>, turn: nat)
    requires forall n :: n in nodes ==> Turn(n.kind) == turn && KeyOf(want, n) == ""
    ensures Independent(want, nodes)
  {
  }

  lemma SingleAttempted(want: map<NodeID, Resource>, nodes: seq<NodeID>, done: set<NodeID>, a: Point, b: Point)
    requires |nodes| <= 1 && TriedFrom([nodes], a, b) && Advanced(want, Members(nodes), done, a, b)
    requires Independent(want, nodes)
    ensures Attempted(want, Members(nodes), a, b)
  {
    hide Hinders, StateAdvanced;
    AllEnded(want, nodes, done, a, b) by {
      if |nodes| == 1 {
        assert !FailedBefore([nodes][0], 0, b.log[|a.log|..]);
        assert Ended([nodes][0][0], b.log[|a.log|..]);
      }
    }
  }

  lemma SinglesAttempted(want: map<NodeID, Resource>, nodes: seq<NodeID>, done: set<NodeID>, a: Point, b: Point)
    requires TriedFrom(Singles(nodes), a, b) && Advanced(want, Members(nodes), done, a, b)
    requires Independent(want, nodes)
    ensures Attempted(want, Members(nodes), a, b)
  {
    hide Hinders, StateAdvanced;
    forall n | n in nodes ensures Ended(n, b.log[|a.log|..]) {
      var i :| 0 <= i < |nodes| && nodes[i] == n;
      assert !FailedBefore(Singles(nodes)[i], 0, b.log[|a.log|..]);
      assert Singles(nodes)[i][0] == n;
    }
    AllEnded(want, nodes, done, a, b);
  }

  /** Independent nodes are all executed. */
  lemma AllEnded(want: map<NodeID, Resource>, nodes: seq<NodeID>, done: set<NodeID>, a: Point, b: Point)
    requires Advanced(want, Members(nodes), done, a, b) && Independent(want, nodes)
    requires forall n :: n in nodes ==> Ended(n, b.log[|a.log|..])
    ensures Attempted(want, Members(nodes), a, b)
  {
    hide Hinders, StateAdvanced;
    var log := b.log[|a.log|..];
    forall m, n | n in nodes ensures !Excuses(want, log, m, n) {
      assert Exit(m, false) in log ==> Exit(m, false).id in Members(nodes);
    }
  }

  lemma VerdictWidens(ok: bool, cancelled: bool, a: Point, b: Point)
    requires Verdict(ok, false, a, b)
    ensures Verdict(ok, cancelled, a, b)
  {
  }

  lemma SinglesAreSingle(nodes: seq<NodeID>)
    ensures |Singles(nodes)| == |nodes| && forall i :: 0 <= i < |nodes| ==> |Singles(nodes)[i]| == 1
  {
  }

  /** Downloads each on their own and delegation groups in sequence, under one semaphore; the two fast paths
      are a group without delegation and a single delegation group. */
  method ExecuteTools(x: Executor, nodes: seq<NodeID>, par: nat, want: map<NodeID, Resource>, world: World,
                      ctx: Context, p: Progress)
    returns (ok: bool, ghost done: set<NodeID>)
    requires x.Wired() && x.sc.Valid() && Indexed(want) && p.Counted() && par >= 1
    requires NoDup(nodes) && Members(nodes) !! p.acted
    modifies x.sc.cache, x.sc`dirty, x.sc`history, p`updated, p`total, p`acted, p`log, ctx
    ensures x.sc.Valid() && p.Counted() && x.sc.cache == old(x.sc.cache)
    ensures old(ctx.cancelled) ==> ctx.cancelled
    ensures Advanced(want, Members(nodes), done, old(x.Here(p)), x.Here(p))
    ensures ok && (!ctx.cancelled || !Mixed(want, nodes)) ==> done == Members(nodes)
    ensures Verdict(ok, ctx.cancelled, old(x.Here(p)), x.Here(p))
    ensures !ctx.cancelled && LastInOrder(nodes) ==> Attempted(want, Members(nodes), old(x.Here(p)), x.Here(p))
    ensures Answered(want, Env(x.tools.registry, world), old(x.Here(p)), x.Here(p))
    ensures p.acted <= old(p.acted) + Members(nodes)
  {
    hide *;
    ghost var a := x.Here(p);
    var downloads, groups, keys := PartitionTools(nodes, want);
    PartitionWork(want, nodes, keys, downloads, groups);
    MixedGroups(want, nodes, keys, downloads, groups);
    if |groups| == 0 {
      ok, done := ExecuteNodeGroup(x, downloads, par, want, world, ctx, p);
      if LastInOrder(nodes) {
        DownloadsIndependent(want, nodes, keys, downloads, groups);
      }
    } else if |downloads| == 0 && |groups| == 1 {
      ok, done := ExecuteSequence(x, groups[0], want, world, p);
      VerdictWidens(ok, ctx.cancelled, a, x.Here(p));
      OnlyGroup(downloads, groups);
      if LastInOrder(nodes) {
        GroupsAttempted(want, nodes, keys, downloads, groups, done, a, x.Here(p));
      }
    } else {
      SinglesAreSingle(downloads);
      ok, done := ExecuteParallel(x, Singles(downloads) + groups, |downloads|, par, want, world, ctx, p);
      if !ctx.cancelled && LastInOrder(nodes) {
        GroupsAttempted(want, nodes, keys, downloads, groups, done, a, x.Here(p));
      }
    }
  }

  /** Nodes of the last turn, in the order of a layer. */
  ghost predicate LastInOrder(nodes: seq<NodeID>) {
    NoDup(nodes) && SortedByKind(nodes) && forall n :: n in nodes ==> Turn(n.kind) == 2
  }

  lemma DownloadsIndependent(want: map<NodeID, Resource>, nodes: seq<NodeID>, keys: seq<string>,
                             downloads: seq<NodeID>, groups: seq<seq<NodeID>>)
    requires Partition(want, nodes, keys, downloads, groups) && LastInOrder(nodes)
    ensures Independent(want, downloads)
  {
    hide KeyOf, WithKey;
    WithKeyIs(want, nodes, "");
    IndependentWithoutKeys(want, downloads, 2);
  }

  /** Some tool has a delegation key, and not every tool has that one: then the tools are neither all downloads nor all
      in one group, and are scheduled together. */
  ghost predicate Mixed(want: map<NodeID, Resource>, nodes: seq<NodeID>) {
    exists m, n :: m in nodes && n in nodes && KeyOf(want, n) != "" && KeyOf(want, m) != KeyOf(want, n)
  }

  lemma MixedGroups(want: map<NodeID, Resource>, nodes: seq<NodeID>, keys: seq<string>, downloads: seq<NodeID>,
                    groups: seq<seq<NodeID>>)
    requires Partition(want, nodes, keys, downloads, groups)
    ensures Mixed(want, nodes) <==> groups != [] && (downloads != [] || |groups| >= 2)
  {
    hide Partition, KeyOf, WithKey;
    ExactPartition(want, nodes, keys, downloads, groups);
    if groups != [] && (downloads != [] || |groups| >= 2) {
      var n := groups[0][0];
      var m := if downloads != [] then downloads[0] else groups[1][0];
      assert n in groups[0] && (if downloads != [] then m in downloads else m in groups[1]);
      assert KeyOf(want, n) == keys[0] && KeyOf(want, m) != keys[0];
    }
    if Mixed(want, nodes) {
      var m, n :| m in nodes && n in nodes && KeyOf(want, n) != "" && KeyOf(want, m) != KeyOf(want, n);
      var i :| 0 <= i < |groups| && n in groups[i] && keys[i] == KeyOf(want, n);
      if KeyOf(want, m) == "" {
        assert m in downloads;
      } else {
        var j :| 0 <= j < |groups| && m in groups[j] && keys[j] == KeyOf(want, m);
        assert i != j;
      }
    }
  }

  /** What the tool phase does when it is not run in place: some interleaving ends without an error although some
      tool was not executed. */
  ghost predicate ToolsDrop(want: map<NodeID, Resource>, nodes: seq<NodeID>, c: Config, cache0: Snapshot,
                            base: Accounts)
  {
    Scheduler.Valid(c) && Mixed(want, nodes) && exists steps, t :: DropsSilently(c, cache0, base, steps, t)
  }

  /** Exactly when a cancellation can drop tools without an error: some tool has a key, some other tool has not the
      same, and no tool without a key fails. */
  lemma ToolsDropExactly(want: map<NodeID, Resource>, reg: Registry, world: World, nodes: seq<NodeID>,
                         keys: seq<string>, downloads: seq<NodeID>, groups: seq<seq<NodeID>>, par: nat,
                         cache0: Snapshot, base: Accounts)
    requires Partition(want, nodes, keys, downloads, groups) && NoDup(nodes) && par >= 1 && base.failed == {}
    ensures var c := Configure(Singles(downloads) + groups, |downloads|, par, want, reg, world);
            ToolsDrop(want, nodes, c, cache0, base) <==>
              && Mixed(want, nodes)
              && forall n :: n in nodes && KeyOf(want, n) == "" ==>
                   !RunNode(want, reg, world(PhaseDAG, n), n, Get(cache0, n)).Broke?
  {
    hide Partition, KeyOf, WithKey, Mixed, RunNode, DropsSilently, Distinct;
    var c := Configure(Singles(downloads) + groups, |downloads|, par, want, reg, world);
    PartitionWork(want, nodes, keys, downloads, groups);
    MixedGroups(want, nodes, keys, downloads, groups);
    SinglesAreSingle(downloads);
    ConfigValid(c);
    SilentDropExactly(c, cache0, base);
    DownloadOutcomes(want, reg, world, nodes, keys, downloads, groups, c, cache0);
  }

  lemma DownloadOutcomes(want: map<NodeID, Resource>, reg: Registry, world: World, nodes: seq<NodeID>,
                         keys: seq<string>, downloads: seq<NodeID>, groups: seq<seq<NodeID>>, c: Config,
                         cache0: Snapshot)
    requires Partition(want, nodes, keys, downloads, groups) && Runs(c, want, reg, world)
    requires c.work == Singles(downloads) + groups && c.nd == |downloads|
    ensures (forall i :: 0 <= i < c.nd ==> Slot(c, i, 0) && !Outcome(c, cache0, i, 0).Broke?) <==>
            (forall n :: n in nodes && KeyOf(want, n) == "" ==>
             !RunNode(want, reg, world(PhaseDAG, n), n, Get(cache0, n)).Broke?)
  {
    hide Partition, KeyOf, WithKey, RunNode;
    ExactPartition(want, nodes, keys, downloads, groups);
    forall i | 0 <= i < c.nd
      ensures Slot(c, i, 0) && At(c, i, 0) == downloads[i]
      ensures var n := downloads[i]; Outcome(c, cache0, i, 0) == RunNode(want, reg, world(PhaseDAG, n), n,
                                                                         Get(cache0, n))
    {
      assert c.work[i] == [downloads[i]];
    }
    forall n | n in nodes && KeyOf(want, n) == "" ensures exists i :: 0 <= i < c.nd && downloads[i] == n {
      assert n in downloads;
    }
    forall i | 0 <= i < c.nd ensures downloads[i] in nodes && KeyOf(want, downloads[i]) == "" {
      assert downloads[i] in downloads;
    }
  }

  lemma OnlyGroup(downloads: seq<NodeID>, groups: seq<seq<NodeID>>)
    requires |downloads| == 0 && |groups| == 1
    ensures Singles(downloads) + groups == [groups[0]]
  {
  }

  /** A tool is executed exactly if none before it in its group failed. */
  lemma GroupsAttempted(want: map<NodeID, Resource>, nodes: seq<NodeID>, keys: seq<string>, downloads: seq<NodeID>,
                        groups: seq<seq<NodeID>>, done: set<NodeID>, a: Point, b: Point)
    requires Partition(want, nodes, keys, downloads, groups) && TriedFrom(Singles(downloads) + groups, a, b)
    requires LastInOrder(nodes) && Advanced(want, Members(nodes), done, a, b)
    ensures Attempted(want, Members(nodes), a, b)
  {
    hide Partition, WithKey, KeyOf, StateAdvanced, StringLess, Hinders, LastInOrder;
    var work, log := Singles(downloads) + groups, b.log[|a.log|..];
    forall n | n in Members(nodes) ensures Ended(n, log) <==> !exists m :: Excuses(want, log, m, n) {
      var i := WorkerOf(want, nodes, keys, downloads, groups, n);
      var k :| 0 <= k < |work[i]| && work[i][k] == n;
      if FailedBefore(work[i], k, log) {
        var j :| 0 <= j < k && Exit(work[i][j], false) in log;
        HindersInWork(want, nodes, keys, downloads, groups, i, k, work[i][j]);
        assert Excuses(want, log, work[i][j], n);
      }
      if m :| Excuses(want, log, m, n) {
        assert Exit(m, false).id in Members(nodes);
        HindersInWork(want, nodes, keys, downloads, groups, i, k, m);
      }
    }
  }

  /** Tools hinder exactly those behind them in their own group. */
  lemma HindersInWork(want: map<NodeID, Resource>, nodes: seq<NodeID>, keys: seq<string>, downloads: seq<NodeID>,
                      groups: seq<seq<NodeID>>, i: nat, k: nat, m: NodeID)
    requires Partition(want, nodes, keys, downloads, groups) && LastInOrder(nodes) && m in nodes
    requires i < |downloads| + |groups| && k < |(Singles(downloads) + groups)[i]|
    ensures var worker := (Singles(downloads) + groups)[i];
            Hinders(want, m, worker[k]) <==> exists j :: 0 <= j < k && worker[j] == m
  {
    hide WithKey, KeyOf, StringLess;
    var work, d := Singles(downloads) + groups, |downloads|;
    var n := work[i][k];
    InWork(want, nodes, keys, downloads, groups, i, n);
    if i >= d {
      var g := groups[i - d];
      assert work[i] == g && keys[i - d] in keys;
      WithKeySorted(want, nodes, keys[i - d]);
      WithKeyIs(want, nodes, keys[i - d]);
      if KeyOf(want, m) == keys[i - d] {
        var j :| 0 <= j < |g| && g[j] == m;
        StringLessOrder(m.name, n.name, "");
      }
    } else {
      assert work[i] == [downloads[i]];
    }
  }

  lemma PartitionWork(want: map<NodeID, Resource>, nodes: seq<NodeID>, keys: seq<string>, downloads: seq<NodeID>,
                      groups: seq<seq<NodeID>>)
    requires Partition(want, nodes, keys, downloads, groups) && NoDup(nodes)
    ensures NoDup(downloads) && Distinct(Singles(downloads) + groups)
    ensures AllOf(Singles(downloads) + groups) == Members(nodes)
    ensures |groups| == 0 ==> Members(downloads) == Members(nodes)
    ensures |downloads| == 0 && |groups| == 1 ==> NoDup(groups[0]) && Members(groups[0]) == Members(nodes)
  {
    hide Partition, WithKey, KeyOf;
    ExactPartition(want, nodes, keys, downloads, groups);
    PartitionDistinct(want, nodes, keys, downloads, groups);
    PartitionAll(want, nodes, keys, downloads, groups);
    hide Distinct;
    if |groups| == 0 {
      SinglesDistinct(downloads);
      assert Singles(downloads) + groups == Singles(downloads);
    }
    if |downloads| == 0 && |groups| == 1 {
      assert Singles(downloads) + groups == [groups[0]];
      assert AllOf([groups[0]]) == Members(groups[0]);
    }
  }

  lemma PartitionDistinct(want: map<NodeID, Resource>, nodes: seq<NodeID>, keys: seq<string>, downloads: seq<NodeID>,
                          groups: seq<seq<NodeID>>)
    requires Partition(want, nodes, keys, downloads, groups) && NoDup(nodes)
    ensures Distinct(Singles(downloads) + groups)
  {
    hide Partition, WithKey, KeyOf;
    ExactPartition(want, nodes, keys, downloads, groups);
    var work, d := Singles(downloads) + groups, |downloads|;
    forall i | 0 <= i < |work| ensures |work[i]| >= 1 && NoDup(work[i]) {
      if i >= d { assert work[i] == groups[i - d]; }
    }
    forall i, j, n | 0 <= i < |work| && 0 <= j < |work| && n in work[i] && n in work[j] ensures i == j {
      InWork(want, nodes, keys, downloads, groups, i, n);
      InWork(want, nodes, keys, downloads, groups, j, n);
    }
  }

  /** The worker of a node tells its key, or which download it is. */
  lemma InWork(want: map<NodeID, Resource>, nodes: seq<NodeID>, keys: seq<string>, downloads: seq<NodeID>,
               groups: seq<seq<NodeID>>, i: nat, n: NodeID)
    requires Partition(want, nodes, keys, downloads, groups)
    requires i < |downloads| + |groups| && n in (Singles(downloads) + groups)[i]
    ensures |keys| == |groups| && n in nodes
    ensures if i < |downloads| then n == downloads[i] && KeyOf(want, n) == ""
            else n in groups[i - |downloads|] && KeyOf(want, n) == keys[i - |downloads|] != ""
  {
    hide WithKey, KeyOf;
    ExactPartition(want, nodes, keys, downloads, groups);
    var work, d := Singles(downloads) + groups, |downloads|;
    if i < d {
      assert work[i] == [downloads[i]] && downloads[i] in downloads;
    } else {
      assert work[i] == groups[i - d];
    }
  }

  lemma PartitionAll(want: map<NodeID, Resource>, nodes: seq<NodeID>, keys: seq<string>, downloads: seq<NodeID>,
                     groups: seq<seq<NodeID>>)
    requires Partition(want, nodes, keys, downloads, groups)
    ensures AllOf(Singles(downloads) + groups) == Members(nodes)
  {
    hide Partition, WithKey, KeyOf;
    var work := Singles(downloads) + groups;
    forall n | n in AllOf(work) ensures n in nodes {
      var i, k :| 0 <= i < |work| && 0 <= k < |work[i]| && work[i][k] == n;
      InWork(want, nodes, keys, downloads, groups, i, n);
    }
    forall n | n in nodes ensures n in AllOf(work) {
      var i := WorkerOf(want, nodes, keys, downloads, groups, n);
      assert n in work[i];
    }
  }

  lemma WorkerOf(want: map<NodeID, Resource>, nodes: seq<NodeID>, keys: seq<string>, downloads: seq<NodeID>,
                 groups: seq<seq<NodeID>>, n: NodeID) returns (i: nat)
    requires Partition(want, nodes, keys, downloads, groups) && n in nodes
    ensures i < |downloads| + |groups| && n in (Singles(downloads) + groups)[i]
  {
    hide Partition, WithKey, KeyOf;
    ExactPartition(want, nodes, keys, downloads, groups);
    var work := Singles(downloads) + groups;
    if KeyOf(want, n) == "" {
      i :| 0 <= i < |downloads| && downloads[i] == n;
      assert work[i] == [n];
    } else {
      var j :| 0 <= j < |groups| && n in groups[j];
      i := |downloads| + j;
      assert work[i] == groups[j];
    }
  }

  /** In every interleaving of the tool phase: two tools that execute at the same moment never share their runtime or
      delegation installer, and no tool of a group begins after one before it has failed. */
  lemma OneToolPerKey(want: map<NodeID, Resource>, nodes: seq<NodeID>, keys: seq<string>, downloads: seq<NodeID>,
                      groups: seq<seq<NodeID>>, c: Config, cache0: Snapshot, base: Accounts, cancelled: bool,
                      steps: seq<Step>, t: State)
    requires Partition(want, nodes, keys, downloads, groups) && c.work == Singles(downloads) + groups
    requires Indexed(want) && c.nd == |downloads|
    requires Scheduler.Valid(c) && Run(c, Init(c, cache0, base, cancelled), steps, t)
    ensures forall i, j :: i in Busy(t) && j in Busy(t) && i != j ==>
      && Slot(c, i, t.ws[i].k) && Slot(c, j, t.ws[j].k)
      && var m, n := At(c, i, t.ws[i].k), At(c, j, t.ws[j].k);
         m != n && !SameDelegate(want, m, n)
    ensures forall i, k, j :: Slot(c, i, k) && 0 <= j < k && Exit(At(c, i, j), false) in t.log ==>
      Enter(At(c, i, k)) !in t.log
  {
    hide Partition, WithKey, KeyOf, Run, SameDelegate;
    SafeInEveryRun(c, cache0, base, cancelled, steps, t);
    forall i, j | i in Busy(t) && j in Busy(t) && i != j
      ensures Slot(c, i, t.ws[i].k) && Slot(c, j, t.ws[j].k)
      ensures var m, n := At(c, i, t.ws[i].k), At(c, j, t.ws[j].k);
              m != n && !SameDelegate(want, m, n)
    {
      assert WorkerShape(c, i, t.ws[i]) && WorkerShape(c, j, t.ws[j]);
      var m, n := At(c, i, t.ws[i].k), At(c, j, t.ws[j].k);
      InWork(want, nodes, keys, downloads, groups, i, m);
      InWork(want, nodes, keys, downloads, groups, j, n);
      ExactPartition(want, nodes, keys, downloads, groups);
      KeysMean(want, m, n);
    }
    forall i, k, j | Slot(c, i, k) && 0 <= j < k && Exit(At(c, i, j), false) in t.log
      ensures Enter(At(c, i, k)) !in t.log {
      assert Slot(c, i, j);
    }
  }

  /** Runtimes and installers, then repositories, then everything else. */
  method SplitByKind(layer: seq<NodeID>) returns (runtimes: seq<NodeID>, repos: seq<NodeID>, tools: seq<NodeID>)
    requires NoDup(layer)
    ensures NoDup(runtimes) && NoDup(repos) && NoDup(tools)
    ensures forall n :: n in runtimes <==> n in layer && (n.kind == KindRuntime || n.kind == KindInstaller)
    ensures forall n :: n in repos <==> n in layer && n.kind == KindInstallerRepository
    ensures forall n :: n in tools <==>
      n in layer && n.kind != KindRuntime && n.kind != KindInstaller && n.kind != KindInstallerRepository
    ensures SortedByKind(layer) ==> LastInOrder(tools)
  {
    hide Before;
    runtimes, repos, tools := [], [], [];
    for i := 0 to |layer|
      invariant NoDup(runtimes) && NoDup(repos) && NoDup(tools)
      invariant SortedByKind(layer) ==> SortedByKind(tools)
      invariant forall n :: n in runtimes <==> n in layer[..i] && (n.kind == KindRuntime || n.kind == KindInstaller)
      invariant forall n :: n in repos <==> n in layer[..i] && n.kind == KindInstallerRepository
      invariant forall n :: n in tools <==>
        n in layer[..i] && n.kind != KindRuntime && n.kind != KindInstaller && n.kind != KindInstallerRepository
    {
      var n := layer[i];
      assert layer[..i + 1] == layer[..i] + [n] && n !in layer[..i];
      assert SortedByKind(layer) ==> forall m :: m in layer[..i] ==> Before(m, n);
      match n.kind {
        case KindRuntime => runtimes := runtimes + [n];
        case KindInstaller => runtimes := runtimes + [n];
        case KindInstallerRepository => repos := repos + [n];
        case _ => tools := tools + [n];
      }
    }
    assert layer[..|layer|] == layer;
  }

  /** The three phases of a layer; the first one that reports an error ends it. */
  method ExecuteLayer(x: Executor, layer: seq<NodeID>, par: nat, want: map<NodeID, Resource>, world: World,
                      ctx: Context, p: Progress)
    returns (ok: bool, ghost done: set<NodeID>)
    requires x.Wired() && x.sc.Valid() && Indexed(want) && p.Counted() && par >= 1
    requires NoDup(layer) && Members(layer) !! p.acted
    modifies x.sc.cache, x.sc`dirty, x.sc`history, p`updated, p`total, p`acted, p`log, ctx
    ensures x.sc.Valid() && p.Counted() && x.sc.cache == old(x.sc.cache)
    ensures old(ctx.cancelled) ==> ctx.cancelled
    ensures Advanced(want, Members(layer), done, old(x.Here(p)), x.Here(p))
    ensures ok && !ctx.cancelled ==> done == Members(layer)
    ensures Verdict(ok, ctx.cancelled, old(x.Here(p)), x.Here(p))
    ensures InTurn(Members(layer), old(x.Here(p)), x.Here(p))
    ensures !ctx.cancelled && SortedByKind(layer) ==> Attempted(want, Members(layer), old(x.Here(p)), x.Here(p))
    ensures Answered(want, Env(x.tools.registry, world), old(x.Here(p)), x.Here(p))
    ensures p.acted <= old(p.acted) + Members(layer)
  {
    hide *;
    ghost var a := x.Here(p);
    var runtimes, repos, tools := SplitByKind(layer);
    ghost var all, r, i, t := Members(layer), Members(runtimes), Members(repos), Members(tools);
    SplitMembers(layer, runtimes, repos, tools);
    IndependentKinds(want, runtimes, 0);
    IndependentKinds(want, repos, 1);
    ghost var more: set<NodeID>;
    ok, done := ExecuteNodeGroup(x, runtimes, par, want, world, ctx, p);
    ghost var b := x.Here(p);
    FirstTurn(want, all, r, done, a, b);
    if !ok {
      Widen(want, r, all, done, a, b);
      if !ctx.cancelled {
        SkippedAttempted(want, all, r, i + t, done, 1, a, b);
      }
      return;
    }
    VerdictPassed(ctx.cancelled, a, b);
    ok, more := ExecuteNodeGroup(x, repos, par, want, world, ctx, p);
    ghost var c := x.Here(p);
    Compose(want, r, done, i, more, a, b, c);
    AnsweredTwice(want, Env(x.tools.registry, world), r, done, i, more, a, b, c);
    LogsGrow(want, r, done, a, b);
    LogsGrow(want, i, more, b, c);
    VerdictTwice(ok, false, ctx.cancelled, a, b, c);
    NextTurn(want, all, r, done, i, more, 1, a, b, c);
    if !ctx.cancelled {
      AttemptedTwice(want, r, done, i, more, 1, a, b, c);
    }
    done := done + more;
    if !ok {
      Widen(want, r + i, all, done, a, c);
      if !ctx.cancelled {
        SkippedAttempted(want, all, r + i, t, done, 2, a, c);
      }
      return;
    }
    VerdictPassed(ctx.cancelled, a, c);
    ok, more := ExecuteTools(x, tools, par, want, world, ctx, p);
    Compose(want, r + i, done, t, more, a, c, x.Here(p));
    AnsweredTwice(want, Env(x.tools.registry, world), r + i, done, t, more, a, c, x.Here(p));
    LogsGrow(want, r + i, done, a, c);
    LogsGrow(want, t, more, c, x.Here(p));
    VerdictTwice(ok, false, ctx.cancelled, a, c, x.Here(p));
    NextTurn(want, all, r + i, done, t, more, 2, a, c, x.Here(p));
    if !ctx.cancelled && SortedByKind(layer) {
      AttemptedTwice(want, r + i, done, t, more, 2, a, c, x.Here(p));
    }
    done := done + more;
  }

  /** The stretch from a to b respects the turns of the nodes. */
  ghost predicate InTurn(nodes: set<NodeID>, a: Point, b: Point) {
    |a.log| <= |b.log| && KindOrder(nodes, b.log[|a.log|..])
  }

  lemma FirstTurn(want: map<NodeID, Resource>, all: set<NodeID>, nodes: set<NodeID>, done: set<NodeID>, a: Point,
                  b: Point)
    requires Advanced(want, nodes, done, a, b) && forall n :: n in nodes ==> Turn(n.kind) == 0
    ensures InTurn(all, a, b)
  {
  }

  lemma NextTurn(want: map<NodeID, Resource>, all: set<NodeID>, n1: set<NodeID>, d1: set<NodeID>, n2: set<NodeID>,
                 d2: set<NodeID>, turn: nat, a: Point, b: Point, c: Point)
    requires Advanced(want, n1, d1, a, b) && d1 == n1 && Advanced(want, n2, d2, b, c) && InTurn(all, a, b)
    requires forall n :: n in n2 ==> Turn(n.kind) == turn
    requires forall n :: n in all && Turn(n.kind) < turn ==> n in n1
    ensures InTurn(all, a, c)
  {
    hide StateAdvanced;
    var l1, l2 := b.log[|a.log|..], c.log[|b.log|..];
    assert c.log[|a.log|..] == l1 + l2;
    KindOrderGrows(all, turn, l1, l2);
  }

  lemma IndependentKinds(want: map<NodeID, Resource>, nodes: seq<NodeID>, turn: nat)
    requires turn < 2 && forall n :: n in Members(nodes) ==> Turn(n.kind) == turn
    ensures Independent(want, nodes)
  {
    hide Independent;
    forall n | n in nodes ensures Turn(n.kind) == turn && KeyOf(want, n) == "" {
      assert n in Members(nodes);
    }
    IndependentWithoutKeys(want, nodes, turn);
  }

  /** A failed phase excuses the ones that are skipped. */
  lemma SkippedAttempted(want: map<NodeID, Resource>, all: set<NodeID>, nodes: set<NodeID>, later: set<NodeID>,
                         done: set<NodeID>, turn: nat, a: Point, b: Point)
    requires Advanced(want, nodes, done, a, b) && Verdict(false, false, a, b) && Attempted(want, nodes, a, b)
    requires (forall n :: n in nodes ==> Turn(n.kind) < turn) && forall n :: n in later ==> Turn(n.kind) >= turn
    requires all == nodes + later
    ensures Attempted(want, all, a, b)
  {
    hide Advanced, Failure, Attempted;
    FailureExcuses(want, nodes, later, done, turn, a, b);
  }

  lemma VerdictPassed(cancelled: bool, a: Point, b: Point)
    requires Verdict(true, cancelled, a, b)
    ensures Verdict(true, false, a, b)
  {
  }

  lemma SplitMembers(layer: seq<NodeID>, runtimes: seq<NodeID>, repos: seq<NodeID>, tools: seq<NodeID>)
    requires forall n :: n in runtimes <==> n in layer && (n.kind == KindRuntime || n.kind == KindInstaller)
    requires forall n :: n in repos <==> n in layer && n.kind == KindInstallerRepository
    requires forall n :: n in tools <==>
      n in layer && n.kind != KindRuntime && n.kind != KindInstaller && n.kind != KindInstallerRepository
    ensures Members(layer) == Members(runtimes) + Members(repos) + Members(tools)
    ensures Members(runtimes) !! Members(repos) && Members(runtimes) + Members(repos) !! Members(tools)
    ensures forall n :: n in Members(runtimes) ==> Turn(n.kind) == 0
    ensures forall n :: n in Members(repos) ==> Turn(n.kind) == 1
    ensures forall n :: n in Members(tools) ==> Turn(n.kind) == 2
  {
  }
}
