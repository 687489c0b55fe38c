# Verified model of tomei's apply engine

tomei takes a manifest (tools, tool sets, runtimes, installers, installer repositories) and drives a machine to it,
keeping what it installed in a state file. This project models the part that decides and orchestrates, and proves
what the tool promises: an apply that reports success has reached the manifest, applying again does nothing,
dependencies come first, and nothing that was installed is forgotten.

The model is organised as the program is:

- `Resources`, `Manifest`: the entities of manifest and state; expansion of tool sets.
- `Reconciler`, `Installers`: which action a resource needs; what a successful installation records. Downloads,
  commands, git and file placement are parameters (`ToolIo`, `RuntimeIo`, `RepoIo`) that may fail or answer anything.
- `Graph`, `Kahn`, `Dag`, `Resolver`: the dependency graph, cycle detection and layering. `Tree`: printing it.
- `StateStore`: the state file with its lock, and the dirty-flagged cache in front of it.
- `Grouping`, `Scheduler`, `LayerExecution`: delegation groups; the goroutines of a layer as a step system in which any
  enabled step may come next; the methods that run a layer through that system against the shared cache.
- `Execution`, `Nodes`, `Phases`, `Runs`, `Liveness`: one node as a value and as a method; what stretches of a run do and
  how they compose; what whole runs add up to; when a run cannot but succeed.
- `Taints`, `TaintPhase`, `Plans`, `Removals`, `Registering`, `Engine`: update flags, the taint phase, the plan, the
  removal phase, registration with the tool installer, and `Apply` itself.
- `Determinism`: two runs of one manifest from one state compared.
- `Upgrade`: the self-upgrade's replace, verify and roll back protocol on a file system that may fail at every step.

Code that changes things step by step is modelled by classes and methods with loops, proved against functions and
relations on values; the headline theorems are lemmas about those and `ensures` clauses of `Engine.Engine.Apply`.

## How to read the main results

`Apply` returns an outcome and the record of the run (`Progress`, as a value `Record`): the state it started from
(`start`), the cached state after the layers (`mid`), the log of executions (begin, action, end), the tools reinstalled
in the taint phase, the entries removed. A `World` fixes, for every phase and resource, what the outside world does;
it is universally quantified, and so are the choices of the scheduler, the order of every map iteration, cancellation
of the context at any moment, and failures of the state file. The contracts hold for all of them.

The state is viewed as one map from identity (kind and name) to entry. `Converged(want, s)` says that the recorded
tools, runtimes and repositories are exactly the wanted ones and none needs an update; `Desired(resources)` is what a
manifest asks for.

Decisions of the code, such as whether an entry is stale or what a resource depends on, are functions of the model, and
methods and runs are proved against them. What each of these functions decides is stated once more in the fields of
specifications and records, apart from its body: `Execution.ConvergedMeans`, `Plans.OwedMeans`,
`Resources.DependenciesAre`, `Resolver.GraphMeans`, `Installers.ToolInstalls`, `Installers.ToolFields`,
`Installers.RuntimeInstalls`, `Installers.RuntimeFields`, `Installers.RepoInstalls`, `Taints.FlagsMean`, `Runs.MarksMean`,
`Manifest.ExpandedMeans`, `Grouping.KeysMean`, `Graph.SortedMeans` and the `ensures` of `Engine.Engine.Apply`.

The headlines: a run that reports success has converged, and the next one does nothing (`Engine.Engine.Apply`,
`Engine.Engine.ApplyTwice`); under conditions on the inputs alone it does report success, also after a run that failed
(`Engine.Engine.ApplyRetry`); the plan agrees with the run (`Engine.Engine.PlanThenApply`); and although nodes execute in
parallel and maps are visited in any order, outcome and file are decided by manifest, state and outside world
(`Determinism.OnTwoMachines`).

## Results that differ from what the code or its documents say

- A run that upgrades a runtime and also drops a tool from the manifest panics in the taint phase: the reconciler lists
  a removal, which has no resource, and the phase dereferences it (internal/installer/engine/engine.go:1124-1150). The
  model has the outcome `Panicked`. `Engine.PanicExactly` says exactly when it occurs, `Engine.PanicForeseen` says so in
  terms of the manifest, the state and what the outside world answers, and `Engine.UpgradeAndDrop` gives a manifest and a
  state with which every run that executes its layers crashes or fails to write just before.
- A cancelled context can drop whole delegation groups without an error. It can happen in a phase exactly if some tool has
  a delegation key, some other one has not the same, and no tool without a key fails (`LayerExecution.ToolsDropExactly`);
  a single group, or downloads only, are never dropped silently. The checks before every later phase still keep such a
  run from going on or reporting success (`Engine.Engine.Apply`).
- The taint of an upgraded runtime is saved only after all layers, so a run that stops before loses the reinstallation.
  Which ones are lost is decided by the inputs and by which runtimes got executed: exactly those of the unmarked, current
  tools whose runtime was executed, was stale, answers its upgrade with another version and has `taintOnUpgrade`
  (`Runs.LossForeseen`; `Engine.DiskRight` says so of the file). `Engine.LossAtGo` gives a manifest and a state. No later
  run of the same manifest finds such a tool due as long as no update flag marks it or its runtime (`Runs.TaintLost`).
  Durability holds from the taint flush on.
- docs/architecture.md:131 promises a reinstall action for a tainted entry; the reconciler answers with an upgrade.
- docs/architecture.md:250 says that all tools of an upgraded runtime are marked; the code marks them only if the
  runtime asks for it (`taintOnUpgrade`).
- The comment at internal/installer/engine/engine.go:422 says that a failing node cancels its siblings; the code lets
  them run to their end. The model follows the code.
- The comment at internal/installer/engine/engine.go:921-923 exempts tools with their own commands from serialization;
  the code serializes them too, exactly if they name a runtime or a delegation installer
  (`Grouping.CommandsUnserialized`; an example is `Grouping.CommandsSerialized`). The tools of an installer registered
  under the empty name are not serialized at all (`Grouping.NamelessInstaller`).
- After a self-upgrade the binary has the original's permission bits, but not set-user-id and the like:
  `Upgrade.ModeKept` says exactly when the mode is the original's, `Upgrade.SetUserIdIsLost` gives an example.
- The order inside a layer is determined exactly if no two of its nodes have equal names and unranked kinds
  (`Graph.DeterminedExactly`). The sort, modelled as an insertion sort, leaves a layer of two such nodes in the order of a
  map iteration (`Graph.SortKeepsTies`); in longer layers the library's sort may also swap them. What a run
  comes to does not depend on it (`Determinism.OnTwoMachines`).

## Model

| member | source | states |
|---|---|---|
| Engine.Engine.Apply | internal/installer/engine/engine.go:228-413 | success means the file records exactly the wanted tools, runtimes and repositories, each with the version, binary name or address its specification names and without a mark, and every node executed; nothing begins before everything its specification names, directly or through others, has succeeded; every entry a successful execution or reinstallation left is its installer's own answer, given by an outside world that did its part; from a converged state no action is taken and nothing changes; layers and removals follow the plan; order, taint, removal and durability relations hold on every outcome, and after a failed flush the file is as at the end of the layer before; a context cancelled before the run stops it at once; every failure has a reason, and with a well-formed manifest, a usable state and a world in which everything works the run succeeds |
| Engine.Engine.ApplyTwice | internal/installer/engine/engine.go:228-413 | after a successful apply a second one without update flags executes zero actions and leaves the file as it was, and it succeeds unless it is cancelled or an operation on files fails |
| Engine.Engine.ApplyRetry | internal/installer/engine/engine.go:228-413 | a run that began in a sound state and did not succeed, whatever stopped it, leaves a file from which a run without flags succeeds in an obliging world, unless that is cancelled or an operation on files fails |
| Engine.FileSound | internal/installer/engine/engine.go:345-412 | every way to stop leaves the file in a state that is sound if the start was |
| Engine.RetryAuspicious | internal/installer/engine/engine.go:228-413 | from such a file the next run has the conditions of success, said of inputs alone |
| Liveness.StaysSound | internal/installer/engine/engine.go:345-385 | no stretch of the layers makes a sound state unsound |
| Determinism.OnTwoMachines | internal/installer/engine/engine.go:228-413 | one manifest applied to equal state files in the same world, at any two parallelisms: the same outcome and the same file, if neither run is cancelled and no operation on files fails |
| Determinism.SameOutcome | internal/installer/engine/engine.go:228-413 | two untroubled runs of one manifest from one state end alike, and leave their layers with the same state, updated runtimes and actions |
| Determinism.SameFile | internal/installer/engine/engine.go:388-412 | and leave the same file, successful or not |
| Determinism.VerdictIs | internal/installer/engine/engine.go:388-412 | a run past its layers ends as its state then, the start and the outside world decide: a tool that cannot be reinstalled, then a panic, a refused removal, a failed removal, or success |
| Determinism.LayersAlike | internal/installer/engine/engine.go:345-385 | runs that get past their layers agree on the state; if one does, no node fails in the other |
| Determinism.FailedAlike | internal/installer/engine/engine.go:345-371 | two uncancelled runs that fail in their layers have executed the same nodes and reached the same state |
| Engine.LayerTried | internal/installer/engine/engine.go:346-371 | in an uncancelled run that fails in a layer a node was executed if and only if no node failed in an earlier layer, in an earlier kind of its own layer, or before it in its delegation group |
| Determinism.NodesAgree | internal/installer/engine/engine.go:345-385 | any two runs, cancelled or not, agree on verdict and entry of every node that both executed |
| Engine.Engine.PlanAll | internal/installer/engine/engine.go:1325-1380 | lists per kind exactly what every name is owed in the flagged state; refuses exactly on a runtime removal that a manifest tool blocks |
| Engine.Engine.PlanThenApply | internal/installer/engine/engine.go:1325-1380 | a successful apply executed exactly the planned actions; a refused plan announces a run that does not succeed and removes nothing |
| Engine.PlanPredicts | internal/installer/engine/engine.go:1350-1363 | any plan that matches the start state lists an action if and only if the successful run took it |
| Engine.Headlines | internal/installer/engine/engine.go:345-412 | what every run keeps implies convergence on success, idleness from a converged state, and agreement with the plan |
| Engine.GroundedRun | internal/installer/engine/engine.go:228-413 | in every run needs come first, and whatever was installed without an error, in the layers or again after them, had the outside world's consent |
| Runs.NeededFirst | internal/installer/engine/engine.go:345-371 | a resource begins only after everything it needs by its specification, along chains of any length, has ended without an error: a plugin after the tool that its installer wraps, for one |
| Runs.ActedWorked | internal/installer/executor/executor.go:60-90 | an action that ended without an error means that the commands or downloads of that resource worked |
| Engine.Reasons | internal/installer/engine/engine.go:228-413 | every outcome but success has a reason found in the run; and none can be found if the manifest, the state at the start, the registered installers and the outside world are in order |
| Engine.PanicExactly | internal/installer/engine/engine.go:1124-1150 | a run that gets through the taint phase panics there if and only if a runtime changed version and a recorded tool is not in the manifest |
| Engine.PanicForeseen | internal/installer/engine/engine.go:1124-1150 | the same before the run: a dropped tool, and a stale runtime whose upgrade answers with another version |
| Engine.UpgradeAndDrop | internal/installer/engine/engine.go:1124-1150 | a manifest and a state with which every run that executes its layers panics, or fails to write the marks just before |
| Engine.LossAtGo | internal/installer/engine/engine.go:361-396 | a manifest and a state with which every run that upgrades the runtime and stops before the taint flush leaves the tool due, unmarked in the file, and owed nothing |
| Engine.Engine.RunLayer | internal/installer/engine/engine.go:346-385 | one layer: context check, execution, flush even after an error; the file equals the cache afterwards unless the flush failed |
| Engine.Engine.RunLayers | internal/installer/engine/engine.go:346-385 | dependency order and layer barriers over the whole log; an error has a cause; the file always holds the point of this very run that its log had reached, or, after a failed flush, had reached before the last layer; the tool installer knows exactly the recorded runtimes |
| Engine.LayersMore | internal/installer/engine/engine.go:346-371 | a layer begun uncancelled keeps the barrier, and keeps completeness unless it fails or is cancelled |
| Engine.LayerPromise | internal/installer/engine/engine.go:346-385 | in a layer begun under good auspices no execution fails: the runtimes its tools need are executed, recorded and registered by then |
| Engine.ReinstallPromise | internal/installer/engine/engine.go:1108-1195 | nor does a reinstallation in the taint phase |
| Engine.AuspiciousEnds | internal/installer/engine/engine.go:228-413 | a run under good auspices ends in success |
| Engine.IdleUnhindered | internal/installer/engine/engine.go:228-413 | from a converged state nothing hinders a run |
| Engine.BeginsAgain | internal/installer/engine/engine.go:228-270 | a manifest admitted once is admitted again, in whatever order its sets are expanded |
| Engine.Engine.RunEnds | internal/installer/engine/engine.go:388-412 | taint phase, context check and removal phase with their contracts together; every write from the taint flush on keeps due tools marked or reinstalled; a context cancelled before lets nothing be removed |
| Engine.TaintsAreRight | internal/installer/engine/engine.go:1108-1195 | the taint phase's outcome in terms of runtimes whose version really changed between the start and the end of the layers |
| Engine.RemovalsAreRight | internal/installer/engine/engine.go:1209-1266 | the removal phase's outcome in terms of the names unwanted at the start of the run |
| Engine.IdleToTheEnd | internal/installer/engine/engine.go:228-413 | from a converged state no phase of any run acts, whatever its outcome |
| Engine.Engine.SetParallelism | internal/installer/engine/engine.go:185-193 | clamped to 1 and 20 |
| Runs.Converges | internal/installer/engine/engine.go:388-412 | layers, a completed taint phase and a completed removal phase leave exactly what the manifest asks for |
| Runs.LayersSettle | internal/installer/engine/engine.go:345-385 | a complete execution of the graph leaves every wanted entry recorded and in need of no update |
| Runs.Idle | internal/installer/reconciler/reconciler.go:33-86 | from a converged state no stretch of any run acts or changes an entry |
| Runs.IdleSucceeds | internal/installer/engine/engine.go:606-634 | nor does an execution from a converged state fail |
| Runs.RunAnsweredMore | internal/installer/executor/executor.go:60-90 | over all layers, what an execution left and whether it failed is what its installer answered for that resource and action; a tool's knew its runtime as the run left it recorded, for that was executed and registered in an earlier layer |
| Runs.AnswerSame | internal/installer/tool/installer.go:183-220 | an execution's answer depends on the registered runtimes only through the one that the tool names |
| Runs.RunsAgree | internal/installer/engine/engine.go:345-385 | two runs from one state in one world agree on every node that both executed, whatever their orders |
| Runs.LayersAgree | internal/installer/engine/engine.go:345-385 | two complete executions of the layers leave the same state, updated runtimes and actions |
| Runs.SucceedsAgain | internal/installer/engine/engine.go:345-385 | after one complete execution no other run has a failing node |
| Runs.ToolAnswerFixed | internal/installer/executor/executor.go:60-90 | a successfully executed tool has its old entry if it was current, and otherwise the record of its own installation, its runtime being known as recorded at the end |
| Runs.LayersFollowPlan | internal/installer/engine/engine.go:606-634 | executed actions are planned ones; a complete execution takes all of them |
| Runs.RemovalsFollowPlan | internal/installer/engine/engine.go:1209-1266 | layers and taint phase do not change which unwanted names are recorded |
| Runs.DueExactly | internal/installer/engine/engine.go:1384-1404 | marked are exactly the tools recorded for a runtime whose recorded version differs between start and end of the layers and whose new state has taintOnUpgrade |
| Runs.MarksMean | internal/installer/engine/engine.go:1384-1404 | their records get the reason runtime_upgraded and change in nothing else |
| Runs.TaintLost | internal/installer/engine/engine.go:361-396 | a run that stops between an upgrade and the taint flush loses the reinstallation: nothing is marked, tool and runtime are owed nothing, and no later run of the manifest that finds the two entries as they are, without an update flag on them, has the tool due |
| Runs.LossForeseen | internal/installer/engine/engine.go:361-396 | without a taint flush the reinstallation of an unmarked current tool is lost if and only if its runtime was executed, was stale, answers its upgrade with another version and asks its tools to follow |
| Runs.UpdatedExactly | internal/installer/engine/engine.go:704-720 | in any run a runtime counts as updated if and only if its recorded version differs from the one at the start, which is if and only if it was executed, was recorded and stale and its upgrade answers with another version |
| Runs.UpdatedWereStale | internal/installer/engine/engine.go:704-720 | in any run only a runtime that was recorded and stale counts as updated |
| Runs.UpgradeLogged | internal/installer/engine/engine.go:711-720 | the upgrade behind such a mark is in the log of the layers, which precede every reinstallation |
| Runs.TaintsReplaced | internal/installer/engine/engine.go:1108-1195 | after a completed run every due tool was reinstalled, and only those |
| Runs.MarkedIsRepeated | internal/installer/engine/engine.go:1408-1438 | a tool left marked is upgraded by the next run, whatever its flags |
| Phases.Compose | internal/installer/engine/engine.go:423-466 | effects of stretches over different nodes compose: entries, updated runtimes, counted actions, log |
| Phases.BarrierGrows | internal/installer/engine/engine.go:346-371 | executing one more layer in kind order keeps the barrier between and inside layers |
| Phases.BarrierSafe | internal/installer/engine/engine.go:345-371 | the barrier gives dependency safety for transitive dependencies |
| Phases.DepSafePrefix | internal/installer/engine/engine.go:345-371 | dependency safety of a log is dependency safety at every moment of the run |
| Phases.OverAdvances | internal/installer/engine/engine.go:489-545 | a finished parallel phase did to cache, updated runtimes, action count and log what its successful nodes account for |
| Phases.OverAnswered | internal/installer/engine/engine.go:489-545 | after a parallel phase every executed node has the entry and the verdict its installer answered |
| Phases.RunNodeHonest | internal/installer/engine/engine.go:606-634 | a node acts exactly if reconciliation owes it an action, and then leaves an entry that needs none |
| LayerExecution.ExecuteLayer | internal/installer/engine/engine.go:423-466 | runtimes and installers, then repositories, then tools, each only after all earlier ones succeeded; no error and no cancellation means every node succeeded; an error means some node failed or a cancellation; uncancelled, a node is executed exactly if none failed in an earlier kind or before it in its own group |
| LayerExecution.ExecuteNodeGroup | internal/installer/engine/engine.go:466-487 | one node in place, several in parallel; no error means all succeeded, cancelled or not |
| LayerExecution.ExecuteParallel | internal/installer/engine/engine.go:489-545 | simulates every interleaving on the real cache; uncancelled, it ends as the sequential execution does, with the same error verdict |
| LayerExecution.ExecuteTools | internal/installer/engine/engine.go:975-1102 | downloads in parallel and delegation groups in sequence, with both fast paths; no error means all succeeded, unless a cancellation met tools of different keys |
| LayerExecution.ExecuteSequence | internal/installer/engine/engine.go:975-1005 | stops at the first error, having executed everything before it |
| LayerExecution.OneToolPerKey | internal/installer/engine/engine.go:975-1102 | in every interleaving two tools executing at once never name the same runtime, nor without a runtime the same delegation installer, and no tool of a group begins after an earlier one failed |
| LayerExecution.GroupsAttempted | internal/installer/engine/engine.go:1036-1095 | uncancelled, a tool is executed if and only if no tool before it in its own group failed |
| LayerExecution.ToolsDropExactly | internal/installer/engine/engine.go:975-1102 | with both fast paths: tools can be dropped without an error if and only if one has a key, another has not the same, and none without a key fails |
| Scheduler.SafeInEveryRun | internal/installer/engine/engine.go:489-545 | at most `parallelism` nodes execute at once, a group executes one node at a time and only after its predecessors succeeded |
| Scheduler.Confluence | internal/installer/engine/engine.go:505-544 | every complete uncancelled run ends with the cache, updated runtimes, actions and failures of the sequential execution |
| Scheduler.NeverStuck | internal/installer/engine/engine.go:489-545 | before the join some step other than a cancellation is enabled |
| Scheduler.WaitersGiveUp | internal/installer/engine/engine.go:499-505 | after a cancellation the launching loop and every waiting group may give up, which is kept as an error |
| Scheduler.RunsEnd | internal/installer/engine/engine.go:489-545 | no run is longer than the measure of its first state |
| Scheduler.AlwaysJoins | internal/installer/engine/engine.go:489-545 | every unfinished run extends to the join |
| Scheduler.JoinedComplete | internal/installer/engine/engine.go:1036-1102 | a join without an error lost at most whole delegation groups, and those only to a cancellation |
| Scheduler.SilentDrop | internal/installer/engine/engine.go:1046-1056 | of the goroutines alone: once a cancellation meets groups that have not started, they never run and no error is reported |
| Scheduler.SilentDropExactly | internal/installer/engine/engine.go:1003-1102 | of the goroutines alone: some run of what is scheduled ends without an error and incomplete if and only if there is a group and no download fails |
| Scheduler.JoinedTried | internal/installer/engine/engine.go:489-545 | uncancelled, a node is executed if and only if no earlier one of its worker failed |
| Scheduler.OverFailures | internal/installer/engine/engine.go:489-545 | an error is collected exactly if an execution ended with one |
| Scheduler.SemaphoreKept | internal/installer/engine/engine.go:497-516 | the semaphore counts the workers that hold a slot and never exceeds its size |
| Grouping.PartitionTools | internal/installer/engine/engine.go:942-969 | downloads are exactly the nodes without a key and the groups exactly the non-empty selections of one key, in the nodes' order; groups in key order |
| Grouping.ExactPartition | internal/installer/engine/engine.go:942-969 | every node is in exactly one part, the part of its key, and no part repeats a node |
| Grouping.KeyMatchesRoute | internal/installer/engine/engine.go:924-940 | a tool's key is that of the runtime or delegation installer Install sends it to, and none otherwise; a tool with its own commands has the key it would have without them |
| Grouping.KeysMean | internal/installer/engine/engine.go:924-940 | two tools have one key if and only if they name the same runtime, or none and the same installer that delegates |
| Grouping.CommandsUnserialized | internal/installer/engine/engine.go:921-940 | a tool with its own commands is not serialized if and only if it names neither a runtime nor a delegation installer |
| Grouping.CommandsSerialized | internal/installer/engine/engine.go:921-940 | one that is serialized although its own commands install it |
| Grouping.NamelessInstaller | internal/installer/engine/engine.go:924-940 | tools of an installer with an empty name have no key |
| Grouping.SameGroupSameRoute | internal/installer/tool/installer.go:195-219 | two tools share a group if and only if they would be delegated to the same runtime or named installer, which is where Install sends them unless they have commands of their own |
| Registering.RegisterInstallers | internal/installer/engine/engine.go:289-325 | registers every installer of the manifest and stops exactly at an invalid one |
| Registering.FaultyIsRefused | internal/resource/installer.go:77-121 | an installer is refused exactly for one of the listed faults: its type, two references, delegation without commands, a misplaced directory, an empty or repeated tool to wait for |
| Registering.KnownMeans | internal/installer/engine/engine.go:289-325 | what is registered of each installer of the manifest |
| Registering.KnownRegistered | internal/installer/engine/engine.go:289-325 | the tool installer then knows exactly the manifest's delegation installers |
| Registering.RegisterRuntimes | internal/installer/engine/engine.go:373-385 | exactly the recorded runtimes are registered anew, with what is recorded of them |
| Registering.InformedMeans | internal/installer/engine/engine.go:373-385 | what is registered of each recorded runtime |
| Registering.InformedAgain | internal/installer/engine/engine.go:373-385 | registering after every layer comes to registering the last state |
| TaintPhase.HandleTaintedTools | internal/installer/engine/engine.go:1108-1195 | reinstalled are exactly the marked tools of the manifest, each with the entry its installer answered; the file holds the marks from the flush on; ends by completion, a tool that cannot be installed, a failed flush, or a panic |
| TaintPhase.PhaseIs | internal/installer/engine/engine.go:1124-1195 | what the loop over the actions did is what the marks asked for |
| Taints.ApplyUpdateTaints | internal/installer/engine/engine.go:1413-1454 | in place and in any order, exactly what the flags make of the state |
| Taints.FlagsMean | internal/installer/engine/engine.go:1413-1438 | the reason that each flag writes on tools and runtimes of which kinds of version; a requested update hides a sync, and nothing else changes |
| Taints.FlagsReach | internal/installer/engine/engine.go:1413-1438 | an unmarked tool is marked if and only if an update is requested and it follows latest or an alias, or a sync is and it follows latest; a runtime if and only if its update is requested and it follows one of both |
| Taints.FlaggedIsStale | internal/installer/engine/engine.go:1413-1438 | a marked entry is stale for any specification, any other entry is as stale as before |
| Taints.TaintDependents | internal/installer/engine/engine.go:1384-1404 | marking through the cache's own object and saving leaves a valid, dirty cache with exactly the marked entries changed |
| Taints.TaintedIsStale | internal/installer/reconciler/tool.go:27-41 | after a complete execution exactly the marked wanted tools are stale |
| Removals.HandleRemovals | internal/installer/engine/engine.go:1209-1322 | refused exactly on a runtime named by a manifest tool, before any removal; else tools, repositories, runtimes, an entry gone exactly if its removal succeeded, stop at the first failure |
| Removals.SweepsInOrder | internal/installer/engine/engine.go:1254-1265 | tools are removed before repositories, these before runtimes, and nothing of a kind while an entry of an earlier kind is left |
| Plans.ReconcileKind | internal/installer/reconciler/reconciler.go:33-86 | over a whole kind: exactly what each name is owed from manifest and state, one action a name, removals last |
| Plans.CheckRemovalDependencies | internal/installer/engine/engine.go:1467-1484 | refuses if and only if a tool of the manifest names a runtime to be removed |
| Reconciler.Reconcile | internal/installer/reconciler/reconciler.go:33-86 | the actions are exactly what the names are owed, one a name, removals last, for every map order |
| Reconciler.Decomposes | internal/installer/reconciler/reconciler.go:33-86 | reconciling everything gives a wanted name the action of reconciling it alone; every other recorded name is removed |
| Reconciler.OrderIrrelevant | internal/installer/reconciler/reconciler.go:33-86 | two answers for one question hold the same actions, equally many |
| Execution.InstallFixpoint | internal/installer/executor/executor.go:60-90 | a successful installation leaves an untainted entry of the right kind that needs no update |
| Execution.ConvergedMeans | internal/installer/reconciler/tool.go:27-41 | converged means: recorded are exactly the wanted tools, runtimes and repositories, unmarked, with the version asked for, the binary name, the address and source type of their specifications |
| Execution.StaleMeans | internal/installer/reconciler/installer_repository.go:8-20 | an entry needs an update exactly if one of those differs; which version counts depends on the recorded kind |
| Plans.OwedMeans | internal/installer/reconciler/reconciler.go:33-86 | an unrecorded resource is owed its installation, one recorded as specified nothing, any other an upgrade |
| Installers.ToolFixpoint | internal/installer/tool/installer.go:183-220 | on all five routes the record asks for another update exactly if version (two spellings of latest being one) or binary name changed |
| Installers.ToolRecord | internal/installer/tool/installer.go:549-564 | the record names the runtime exactly if its commands installed the tool; versions differ from the specification only where a resolver or registry answered |
| Installers.RouteMeans | internal/installer/tool/installer.go:195-219 | which of the five routes a tool takes, by its commands, runtime, installer and package |
| Installers.ToolInstalls | internal/installer/tool/installer.go:183-774 | on every route a tool is installed exactly if the outside world did its part, its names are plain and what the route relies on is configured |
| Installers.ToolFields | internal/installer/tool/installer.go:378-620 | every field of the record on every route, and when a version resolver or the registry decides the version |
| Installers.NamesAre | internal/installer/tool/installer.go:169-180 | a binary name is accepted exactly if it has the characters of a plain name and begins with a letter or digit |
| Installers.RuntimeFixpoint | internal/installer/runtime/installer.go:292-350 | on both routes with resolver and fallback the record asks for an update exactly if the version text changed, latest spellings aside; it keeps the commands that tools of the runtime will need, and the home directory is expanded in the tool path |
| Installers.RuntimeInstalls | internal/installer/runtime/installer.go:81-447 | a runtime is installed exactly if the outside world did its part, source or bootstrap is given, and a resolver that is asked answers, which only a first bootstrap may do without |
| Installers.RuntimeFields | internal/installer/runtime/installer.go:292-350 | every field of the record, and when the resolver decides the version |
| Resources.ExactMeans | internal/resource/types.go:223-232 | an exact version is a digit with anything behind it, after an optional v |
| Installers.InstallRepo | internal/installer/repository/installer.go:95-169 | on both routes the record asks for no update by the same specification |
| Installers.RepoInstalls | internal/installer/repository/installer.go:95-169 | a repository is installed exactly if its commands or the clone worked; the record keeps address and source type, and asks for another installation exactly if one of them changes |
| Nodes.Executor.ExecuteNode | internal/installer/engine/engine.go:606-634 | loads, reconciles, installs and saves one node exactly as its value-level description says, counting it and noting a real version change |
| Nodes.Executor.Perform | internal/installer/executor/executor.go:60-90 | the entry is replaced exactly if the installation succeeded |
| Nodes.Executor.Drop | internal/installer/executor/executor.go:92-107 | the entry is deleted exactly if the removal succeeded |
| Nodes.Executor.NoteUpgrade | internal/installer/engine/engine.go:704-720 | a runtime counts as updated exactly if the version recorded now differs from the one recorded before |
| StateStore.StateCache.Flush | internal/installer/executor/state_cache.go:36-47 | clean means the file equals the cache; a failed flush leaves the file and the dirty flag |
| StateStore.StateCache.Init | internal/installer/executor/state_cache.go:27-32 | starts clean and in agreement with the file |
| StateStore.CachedStore.Save | internal/installer/executor/cached_store.go:26-32 | writes exactly one entry, also after the object was changed in place; every later file content is a recorded cache content |
| StateStore.CachedStore.Delete | internal/installer/executor/cached_store.go:35-41 | deletes exactly one entry |
| StateStore.CachedStore.Load | internal/installer/executor/cached_store.go:16-23 | reads what a plain map would hold |
| StateStore.UserState.Assign | internal/installer/executor/map_accessor.go:28-33 | one entry changes, whether the Go map was nil or made |
| StateStore.Store.Save | internal/state/store.go:151-174 | needs the lock; the file holds what readers will see again, or is untouched |
| StateStore.Store.Load | internal/state/store.go:113-126 | needs the lock; a missing file reads as the empty state |
| StateStore.EncodeFaithful | internal/state/store.go:151-174 | no empty map is in the file, and leaving it out changes nothing a reader sees |
| Dag.Dag.AddEdge | internal/graph/dag.go:68-87 | in-degree stays the number of distinct dependencies, duplicates included |
| Dag.Dag.AddResource | internal/graph/resolver.go:55-66 | adds exactly the resource, what its specification names, and the edges between them |
| Dag.Dag.DetectCycle | internal/graph/dag.go:100-142 | nil if and only if acyclic; otherwise a simple cycle along dependency edges, for every map order |
| Dag.Reconstruct | internal/graph/dag.go:114-127 | the parent chain reaches the grey node and gives a simple cycle |
| Dag.Dag.TopologicalSort | internal/graph/dag.go:187-239 | fails exactly on a cycle; otherwise every node once, in the layer of its level, layers sorted |
| Graph.LevelIsLongestChain | internal/graph/dag.go:187-239 | the level of a node is the length of its longest dependency chain |
| Graph.DependenciesBelow | internal/graph/dag.go:187-239 | a transitive dependency lies in a strictly earlier layer |
| Graph.LayersDetermined | internal/graph/dag.go:187-239 | two layerings of a graph have the same nodes in every layer |
| Graph.SequencesDetermined | internal/graph/dag.go:165-182 | and the same sequences in layers without ties |
| Graph.TiesAreOpen | internal/graph/dag.go:148-182 | in any layering, swapping two tied nodes gives another layering of the same graph |
| Graph.DeterminedExactly | internal/graph/dag.go:148-182 | a layer's sequence is determined by the graph if and only if the layer has no tie |
| Graph.SortKeepsTies | internal/graph/dag.go:165-182 | the sort leaves a layer of two tied nodes in the order in which the maps gave them |
| Graph.SortedMeans | internal/graph/dag.go:146-182 | in a layer runtimes come before installers, repositories, tools and anything else in this order, and by name inside each |
| Graph.StringLessMeans | internal/graph/dag.go:175-180 | names compare at the first position where they differ |
| Graph.RankedAcyclic | internal/graph/dag.go:100-142 | the order in which the search finishes nodes proves the graph acyclic |
| Kahn.LayerDone | internal/graph/dag.go:205-236 | finishing a layer leaves exactly the nodes whose dependencies are all done in the next queue |
| Kahn.AllPlaced | internal/graph/dag.go:205-236 | in an acyclic graph the loop ends only when every node is placed |
| Resolver.Resolve | internal/graph/resolver.go:70-72 | layers or a cycle of the graph that the manifest and the built-in installers describe |
| Resolver.DescribedAlike | internal/graph/resolver.go:55-72 | acyclicity and layers depend on the resources alone |
| Resolver.SameAcyclic | internal/graph/resolver.go:55-72 | acyclicity does not depend on the order of the resources |
| Resolver.AppendBuiltinInstallers | internal/installer/engine/engine.go:1489-1507 | both built-in installers are present afterwards, as plain download installers, added only if missing |
| Resolver.GraphMeans | internal/graph/resolver.go:55-66 | a node depends on exactly what the specifications of the resources with its identity name; nodes are those resources, what they name, and the two built-in installers |
| Resources.DependenciesAre | internal/resource/installer.go:124-141 | dependencies are exactly the references of the specification: installer, repository and runtime of a tool or set, the installer of a repository, runtime, tool and ordering-only tools of an installer |
| Tree.PrintTree | internal/graph/tree.go:67-100 | the lines are exactly the ways down from the roots, each once, depth first with siblings in order, and every node is printed |
| Tree.PrintNode | internal/graph/tree.go:102-142 | terminates because children lie in later layers; prints exactly the ways through the node |
| Tree.AscendingUnique | internal/graph/tree.go:67-142 | the order of printing is determined |
| Tree.TextMeans | internal/graph/dag.go:12-22 | a resource shows as its type and name |
| Tree.RootAbove | internal/graph/tree.go:85-91 | every node is reachable from a node without dependencies |
| Manifest.ExpandSets | internal/resource/expand.go:24-74 | fails exactly on a conflict; the result holds exactly the enabled standalone resources and set items, no set, and names from sets once; expanded manifests are left alone |
| Manifest.ConflictMeans | internal/resource/expand.go:24-74 | a conflict is an enabled set item that is also a standalone resource or an item of another set |
| Manifest.ExpandedMeans | internal/resource/expand.go:24-74 | the expanded manifest holds exactly the resources that are neither sets nor disabled, and for every enabled item of a set the tool that asks for the same, with its set's references |
| Manifest.ExpandTwice | internal/resource/expand.go:24-74 | an expanded manifest has no conflict, is its own expansion, and every expansion of it asks for the same |
| Manifest.Expand | internal/resource/tool.go:446-476 | one tool for each enabled item |
| Manifest.ItemKeepsDependencies | internal/resource/tool.go:458-476 | a tool made from a set item depends on exactly what the set depends on |
| Manifest.OfKindByName | internal/installer/engine/engine.go:1456-1464 | indexing one kind by name reads that kind off the resource map |
| Upgrade.ReplaceAndVerify | internal/upgrade/upgrade.go:290-321 | until verification passes the original is whole at target or backup at every step and the target never partial; rolled back means the disk is as before; a bad binary stays only if the rollback rename failed, with the backup kept; without failures the outcome is the verdict and only the target has changed; a single failing operation during the replacement leaves the disk as it was |
| Upgrade.ReplaceBinary | internal/upgrade/upgrade.go:374-446 | success: new bytes, original permissions, original at the backup, and no operation failed; error: original in place unless the restoring rename failed too; other paths untouched |
| Upgrade.CopyToWriter | internal/upgrade/upgrade.go:637-646 | chunk by chunk into the staging file, nothing else changes |
| Upgrade.ModeKept | internal/upgrade/upgrade.go:374-446 | the mode is the original's if and only if that has permission bits only |
| Upgrade.SetUserIdIsLost | internal/upgrade/upgrade.go:374-446 | replacing a binary of mode 4755 leaves one of mode 755, with the lost bit on the backup |
| Upgrade.Recoverable | internal/upgrade/upgrade.go:374-446 | at every step before verification passes, at most one rename brings the original back |

## Left out

- Download, archive, git, shell, registry and checksum work: outside calls, represented by the Io parameters.
- CUE loading, schema, templates, module files; TUI, colours, completions, cobra wiring; doctor, env, log store.
- Command-line action prediction (cmd/tomei/plan.go): deliberately approximate; the engine's own plan is modelled.
- What one command changes for another: a `World` answers for each phase and resource by itself, whatever ran before.
- Timestamps, digests, install directories, event payloads, log messages: not recorded, nothing modelled reads them.
- The installer and registry parts of the state file: written, never read by what is modelled.
- Symlinks and binary cleanup, tool bin paths for repository commands: part of the operations that may fail.
- State backup before a run and the resolver callback: their failures are only logged.
- Locking between processes and the JSON encoding: a lock either succeeds or fails; a saved state loads back, with empty maps left out.
- Specifications and command sets that are nil where the source would dereference them: treated as a failed installation.
- Installers.InstallRepo: a delegation repository without commands crashes the program; here its installation fails, so the promise that the file is written after a failed layer does not cover it.
- Registering.RegisterInstallers: does not model the installer entries written to the state file, because nothing modelled reads them.
- Registering.RegisterRuntimes: does not model a runtime's install path, directory and environment, which only reach the commands.
- Installers.RuntimeFixpoint: the expanded tool path is not cleaned of redundant separators as the path library does.
- Identities are pairs of kind and name; the program writes them as one text, which carries the same information (`Tree.TextsDiffer`).
- Scheduler.Confluence: stated for runs without a cancellation; node failures are allowed.
- Scheduler.SilentDrop: says nothing about which groups get scheduled; `LayerExecution.ToolsDropExactly` does.
- Scheduler.SilentDropExactly: likewise; a lone group without downloads is never scheduled but executed in place.
- Graph.SortKeepsTies: two nodes only, because the library's sort is not stable on longer layers.
- Engine.Engine.PlanThenApply: stated for expanded manifests, because the plan does not expand sets; `Apply` itself is not restricted.
- Removal safety looks at the tools of the manifest, as the code does, not at the runtime recorded for a tool.
- Process crashes in the middle of an apply are covered only by what the file holds after each write; a power loss during the self-upgrade is not.
- Tree.PrintTree: the order and the ways are determined; line texts, versions and colours are not modelled.
