/** Executing one node as a value: what its reconciliation decides and what its installation leaves behind. */
module Execution {
  import opened Prelude
  import opened Resources
  import opened Installers
  import Reconciler
  import opened Grouping
  import opened Scheduler

  /** What the outside world does during one operation on one resource. */
  datatype Fate = Fate(tool: ToolIo, runtime: RuntimeIo, repo: RepoIo, removed: bool)
  datatype Phase = PhaseDAG | PhaseTaint | PhaseRemove
  /** A resource is operated on at most once a phase, so this covers every behaviour of a run. */
  type World = (Phase, NodeID) -> Fate

  predicate Managed(k: Kind) {
    k == KindTool || k == KindRuntime || k == KindInstallerRepository
  }

  /** The comparators, over resources and entries of any kind. */
  predicate Stale(res: Resource, e: Entry) {
    match res
    case ToolRes(_, spec) => e.ToolEntry? && Reconciler.ToolNeedsUpdate(spec, e.tool)
    case RuntimeRes(_, spec) => e.RuntimeEntry? && Reconciler.RuntimeNeedsUpdate(spec, e.runtime)
    case RepoRes(_, spec) => e.RepoEntry? && Reconciler.RepoNeedsUpdate(spec, e.repo)
    case _ => false
  }

  /** What reconciling a resource against its own entry decides. */
  function ActionOf(res: Resource, cur: Option<Entry>): ActionType {
    if cur.None? then ActionInstall else if Stale(res, cur.value) then ActionUpgrade else ActionNone
  }

  /** The three installers behind one call; the action is part of the context an installer sees. */
  function Install(reg: Registry, fate: Fate, res: Resource, act: ActionType): Option<Entry> {
    match res
    case ToolRes(n, spec) =>
      var r := InstallTool(reg, spec, n, fate.tool);
      if r.Ok? then Some(ToolEntry(r.value)) else None
    case RuntimeRes(n, spec) =>
      var r := InstallRuntime(spec, act, fate.runtime);
      if r.Ok? then Some(RuntimeEntry(r.value)) else None
    case RepoRes(n, spec) =>
      var r := InstallRepo(spec, fate.repo);
      if r.Ok? then Some(RepoEntry(r.value)) else None
    case _ => None
  }

  /** A recorded runtime became another version. */
  predicate VersionChanged(before: Option<Entry>, after: Option<Entry>) {
    && before.Some? && after.Some? && before.value.RuntimeEntry? && after.value.RuntimeEntry?
    && before.value.runtime.version != after.value.runtime.version
  }

  function RunResource(reg: Registry, fate: Fate, res: Resource, cur: Option<Entry>): Report {
    var act := ActionOf(res, cur);
    if act == ActionNone then Quiet
    else
      var e := Install(reg, fate, res, act);
      if e.None? then Broke(act) else Did(act, e.value, VersionChanged(cur, e))
  }

  /** Nodes without a resource and kinds that are only registered are skipped. */
  function RunNode(want: map<NodeID, Resource>, reg: Registry, fate: Fate, id: NodeID, cur: Option<Entry>): Report {
    if id !in want || !Managed(id.kind) then Quiet else RunResource(reg, fate, want[id], cur)
  }

  /** A successful installation leaves an entry of the resource's own kind that needs no update. */
  lemma InstallFixpoint(reg: Registry, fate: Fate, res: Resource, act: ActionType)
    requires Install(reg, fate, res, act).Some?
    ensures var e := Install(reg, fate, res, act).value;
            e.Fits(res.Kind()) && !Stale(res, e) && Managed(res.Kind()) && !e.Tainted()
  {
  }

  /** What decides how an execution comes out: what the tool installer knows, and the outside world. */
  datatype Env = Env(reg: Registry, world: World)

  /** Executing a node on its entry cur ended with verdict ok and left the entry after. */
  predicate AnswerIs(want: map<NodeID, Resource>, env: Env, id: NodeID, cur: Option<Entry>, ok: bool,
                     after: Option<Entry>)
  {
    var r := RunNode(want, env.reg, env.world(PhaseDAG, id), id, cur);
    ok == !r.Broke? && after == if r.Did? then Some(r.entry) else cur
  }

  // ----- The state the manifest asks for --------------------------------------------------------

  /** What a node executed without an error leaves of its entry. */
  predicate Effect(want: map<NodeID, Resource>, id: NodeID, before: Option<Entry>, after: Option<Entry>) {
    if id in want && Managed(id.kind) then
      if ActionOf(want[id], before) == ActionNone then after == before
      else after.Some? && after.value.Fits(id.kind) && !Stale(want[id], after.value)
    else after == before
  }

  /** The recorded names are exactly the wanted ones and nothing needs an update. */
  ghost predicate Converged(want: map<NodeID, Resource>, s: Snapshot) {
    && WellTyped(s)
    && (forall id :: id in s <==> id in want && Managed(id.kind))
    && (forall id :: id in s ==> !Stale(want[id], s[id]))
  }

  // ----- The same in the fields of specifications and records ------------------------------------

  /** The version asked for is the one recorded: any spelling of latest where latest was recorded, the same alias where
      an alias was resolved, and the very version otherwise. */
  ghost predicate SameVersion(wanted: string, kind: VersionKind, recorded: string, recordedSpec: string) {
    match kind
    case VersionLatest => wanted in {"", "latest"}
    case VersionAlias => wanted == recordedSpec
    case VersionExact => wanted == recorded
    case VersionOther(_) => wanted == recorded
  }

  /** The entry records what the resource asks for, and nobody has asked to install it again. */
  ghost predicate Matches(res: Resource, e: Entry) {
    match res
    case ToolRes(_, spec) =>
      && e.ToolEntry? && e.tool.taintReason == "" && e.tool.binaryName == spec.binaryName
      && SameVersion(spec.version, e.tool.versionKind, e.tool.version, e.tool.specVersion)
    case RuntimeRes(_, spec) =>
      && e.RuntimeEntry? && e.runtime.taintReason == ""
      && SameVersion(spec.version, e.runtime.versionKind, e.runtime.version, e.runtime.specVersion)
    case RepoRes(_, spec) => e.RepoEntry? && e.repo.url == spec.url && e.repo.sourceType == spec.sourceType
    case _ => false
  }

  lemma StaleMeans(res: Resource, e: Entry)
    requires e.Fits(res.Kind())
    ensures !Stale(res, e) <==> Matches(res, e)
  {
  }

  /** A resource of a kind that leaves an entry in the state file. */
  ghost predicate Recordable(res: Resource) {
    res.ToolRes? || res.RuntimeRes? || res.RepoRes?
  }

  /** Recorded are exactly the wanted tools, runtimes and repositories, each as its specification says. */
  ghost predicate AsWanted(want: map<NodeID, Resource>, s: Snapshot) {
    && (forall id :: id in s <==> id in want && Recordable(want[id]))
    && (forall id :: id in s ==> Matches(want[id], s[id]))
  }

  lemma ConvergedMeans(want: map<NodeID, Resource>, s: Snapshot)
    requires Indexed(want)
    ensures Converged(want, s) <==> AsWanted(want, s)
  {
    hide Stale, SameVersion;
    forall id | id in want ensures Managed(id.kind) <==> Recordable(want[id]) {
      assert want[id].Id() == id;
    }
    forall id | id in s && id in want && s[id].Fits(id.kind)
      ensures !Stale(want[id], s[id]) <==> Matches(want[id], s[id])
    {
      assert want[id].Id() == id;
      StaleMeans(want[id], s[id]);
    }
    forall id | id in s && id in want && Matches(want[id], s[id]) ensures s[id].Fits(id.kind) {
      assert want[id].Id() == id;
    }
  }

  /** The outside world did its part when a resource was installed. */
  ghost predicate Fulfilled(res: Resource, fate: Fate) {
    match res
    case ToolRes(_, _) => fate.tool.ok
    case RuntimeRes(_, _) => fate.runtime.ok
    case RepoRes(_, _) => fate.repo.ok
    case _ => false
  }

  lemma InstallWorked(reg: Registry, fate: Fate, res: Resource, act: ActionType)
    requires Install(reg, fate, res, act).Some?
    ensures Fulfilled(res, fate)
  {
  }
}
