/** What the engine tells the tool installer: the manifest's installers before the layers, the recorded
    runtimes after each of them. */
module Registering {
  import opened Prelude
  import opened Resources
  import opened Installers
  import opened StateStore
  import opened Nodes
  import Grouping
  import Manifest

  /** A delegation installer needs commands; a directory for binaries only goes with delegation. */
  predicate ValidInstaller(s: InstallerSpec) {
    && (s.typ.TypeDownload? || s.typ.TypeDelegation?)
    && (s.runtimeRef == "" || s.toolRef == "")
    && (s.typ.TypeDelegation? ==> s.commands.Some?)
    && (s.binDir != "" ==> s.typ.TypeDelegation? && ("~/" <= s.binDir || "/" <= s.binDir))
    && (forall i :: 0 <= i < |s.dependsOn| ==> s.dependsOn[i] != "")
    && (forall i, j :: 0 <= i < j < |s.dependsOn| ==> s.dependsOn[i] != s.dependsOn[j])
  }

  ghost predicate InstallersValid(resources: seq<Resource>) {
    forall r :: r in resources && r.InstallerRes? ==> ValidInstaller(r.installer)
  }

  function InfoOf(s: InstallerSpec): InstallerInfo {
    InstallerInfo(s.typ, s.toolRef, s.commands)
  }

  function Wanted(want: map<NodeID, Resource>, name: string): Option<InstallerInfo> {
    var id := NodeID(KindInstaller, name);
    if id in want && want[id].InstallerRes? then Some(InfoOf(want[id].installer)) else None
  }

  /** Every installer of the manifest is registered under its name, a later one replacing an earlier one. */
  ghost predicate InstallersKnown(before: Registry, resources: seq<Resource>, after: Registry) {
    && after.runtimes == before.runtimes
    && after.hasVersionResolver == before.hasVersionResolver && after.hasPackageRegistry == before.hasPackageRegistry
    && forall n :: Get(after.installers, n) ==
         if Wanted(Manifest.ById(resources), n).Some? then Wanted(Manifest.ById(resources), n)
           else Get(before.installers, n)
  }

  lemma OneMoreKnown(before: Registry, resources: seq<Resource>, i: nat, now: Registry)
    requires i < |resources| && InstallersKnown(before, resources[..i], now)
    ensures InstallersKnown(before, resources[..i + 1],
              if resources[i].InstallerRes?
                then now.(installers := now.installers[resources[i].name := InfoOf(resources[i].installer)]) else now)
  {
    var r := resources[i];
    assert resources[..i + 1][..i] == resources[..i];
    var w0, w1 := Manifest.ById(resources[..i]), Manifest.ById(resources[..i + 1]);
    assert w1 == w0[r.Id() := r];
    forall n ensures Wanted(w1, n) == (if r.InstallerRes? &&
                                       r.name == n then Some(InfoOf(r.installer)) else Wanted(w0, n)) {
      hide Manifest.ById;
      assert r.Id() == NodeID(r.Kind(), r.name);
    }
  }

  /** How many installers keep their binaries below the home directory. */
  ghost function AtHome(resources: seq<Resource>): nat {
    if resources == [] then 0
    else var n := |resources| - 1;
      AtHome(resources[..n]) +
        (if resources[n].InstallerRes? && "~/" <= resources[n].installer.binDir then 1 else 0)
  }

  /** Stops at the first invalid installer; expanding a directory name may fail too. */
  method RegisterInstallers(tools: ToolInstaller, resources: seq<Resource>) returns (ok: bool)
    modifies tools
    ensures ok ==> InstallersKnown(old(tools.registry), resources, tools.registry)
    ensures ok ==> InstallersValid(resources)
    ensures !ok ==> tools.faults > old(tools.faults) || !InstallersValid(resources)
    ensures ok ==> tools.faults == old(tools.faults) && tools.asked == old(tools.asked) + AtHome(resources)
  {
    ghost var before := tools.registry;
    for i := 0 to |resources|
      invariant InstallersKnown(before, resources[..i], tools.registry) && tools.faults == old(tools.faults)
      invariant forall r :: r in resources[..i] && r.InstallerRes? ==> ValidInstaller(r.installer)
      invariant tools.asked == old(tools.asked) + AtHome(resources[..i])
    {
      assert resources[..i + 1][..i] == resources[..i];
      OneMoreKnown(before, resources, i, tools.registry);
      assert resources[..i + 1] == resources[..i] + [resources[i]];
      assert resources[i] in resources;
      if resources[i].InstallerRes? {
        var s := resources[i].installer;
        if !ValidInstaller(s) {
          return false;
        }
        tools.RegisterInstaller(resources[i].name, InfoOf(s));
        if "~/" <= s.binDir {
          var found := tools.HomeDirectory();
          if !found {
            return false;
          }
        }
      }
    }
    assert resources[..|resources|] == resources;
    ok := true;
  }

  /** Starting without installers, the tool installer then knows exactly the manifest's, so grouping agrees
      with routing. */
  lemma KnownRegistered(before: Registry, resources: seq<Resource>, after: Registry)
    requires InstallersKnown(before, resources, after) && before.installers == map[]
    ensures Grouping.Registered(after, Manifest.ById(resources))
  {
    forall ref
      ensures (ref in after.installers && after.installers[ref].typ == TypeDelegation) <==>
        Grouping.DelegationInstaller(Manifest.ById(resources), ref)
    {
      assert Get(after.installers, ref) == Wanted(Manifest.ById(resources), ref);
    }
  }

  /** What the tool installer is told of the runtime recorded under that name. */
  function RecordedRuntime(s: Snapshot, n: string): Option<RuntimeInfo> {
    var id := NodeID(KindRuntime, n);
    if id in s && s[id].RuntimeEntry? then Some(RuntimeInfo(s[id].runtime.toolBinPath, s[id].runtime.commands))
    else None
  }

  /** A registry that has been told of every recorded runtime; what it knows of others stays. */
  function Informed(reg: Registry, s: Snapshot): Registry {
    var names := set id | id in s && RecordedRuntime(s, id.name).Some? :: id.name;
    reg.(runtimes := map n | n in reg.runtimes.Keys + names ::
           if RecordedRuntime(s, n).Some? then RecordedRuntime(s, n).value else reg.runtimes[n])
  }

  lemma InformedOf(reg: Registry, s: Snapshot, n: string)
    ensures Get(Informed(reg, s).runtimes, n) ==
            if RecordedRuntime(s, n).Some? then RecordedRuntime(s, n) else Get(reg.runtimes, n)
  {
    assert NodeID(KindRuntime, n).name == n;
  }

  lemma InformedIs(reg: Registry, s: Snapshot, after: Registry)
    requires after == reg.(runtimes := after.runtimes)
    requires forall n :: Get(after.runtimes, n) ==
               if RecordedRuntime(s, n).Some? then RecordedRuntime(s, n) else Get(reg.runtimes, n)
    ensures after == Informed(reg, s)
  {
    hide Informed, RecordedRuntime;
    forall n ensures Get(after.runtimes, n) == Get(Informed(reg, s).runtimes, n) {
      InformedOf(reg, s, n);
    }
    SameLookups(after.runtimes, Informed(reg, s).runtimes);
    InformedKeeps(reg, s);
  }

  lemma InformedKeeps(reg: Registry, s: Snapshot)
    ensures Informed(reg, s) == reg.(runtimes := Informed(reg, s).runtimes)
  {
  }

  /** Telling it of a later state, in which every recorded runtime still is recorded, makes up for the earlier one. */
  lemma InformedAgain(reg: Registry, s: Snapshot, t: Snapshot)
    requires forall n :: RecordedRuntime(s, n).Some? ==> RecordedRuntime(t, n).Some?
    ensures Informed(Informed(reg, s), t) == Informed(reg, t)
  {
    hide Informed, RecordedRuntime;
    InformedKeeps(reg, s);
    InformedKeeps(reg, t);
    InformedKeeps(Informed(reg, s), t);
    forall n ensures Get(Informed(Informed(reg, s), t).runtimes, n) ==
                     if RecordedRuntime(t, n).Some? then RecordedRuntime(t, n) else Get(reg.runtimes, n)
    {
      InformedOf(reg, s, n);
      InformedOf(Informed(reg, s), t, n);
    }
    InformedIs(reg, t, Informed(Informed(reg, s), t));
  }

  method RegisterRuntimes(tools: ToolInstaller, st: UserState)
    modifies tools`registry
    ensures tools.registry == Informed(old(tools.registry), st.Entries())
  {
    hide View, EntryOf, Informed;
    ghost var before := tools.registry;
    var states := st.OfKind(KindRuntime);
    var todo := states.Keys;
    while todo != {}
      invariant todo <= states.Keys
      invariant forall n :: Get(tools.registry.runtimes, n) ==
                  if n in states.Keys - todo && states[n].RuntimeEntry?
                  then Some(RuntimeInfo(states[n].runtime.toolBinPath, states[n].runtime.commands))
                  else Get(before.runtimes, n)
      invariant tools.registry == before.(runtimes := tools.registry.runtimes)
    {
      var n :| n in todo;
      todo := todo - {n};
      if states[n].RuntimeEntry? {
        tools.RegisterRuntime(n, RuntimeInfo(states[n].runtime.toolBinPath, states[n].runtime.commands));
      }
    }
    forall n ensures Get(states, n) == Get(st.Entries(), NodeID(KindRuntime, n)) {
    }
    InformedIs(before, st.Entries(), tools.registry);
  }

  /** Registering one manifest again, in whatever order, changes nothing but what is known of runtimes. */
  lemma KnownAgain(before: Registry, m1: seq<Resource>, first: Registry, between: Registry, m2: seq<Resource>,
                   second: Registry)
    requires InstallersKnown(before, m1, first) && InstallersKnown(between, m2, second)
    requires between == first.(runtimes := between.runtimes) && Manifest.ById(m1) == Manifest.ById(m2)
    ensures second == first.(runtimes := second.runtimes)
  {
    hide Wanted;
    SameLookups(first.installers, second.installers);
  }

  /** What is registered of the installers is decided by the manifest and what was registered before. */
  lemma KnownAlike(before: Registry, m1: seq<Resource>, first: Registry, m2: seq<Resource>, second: Registry)
    requires InstallersKnown(before, m1, first) && InstallersKnown(before, m2, second)
    requires Manifest.ById(m1) == Manifest.ById(m2)
    ensures first == second
  {
    hide Wanted;
    SameLookups(first.installers, second.installers);
  }

  // ----- The checks and the registrations, field by field ---------------------------------------------

  /** What is wrong with an installer that is refused: its type, two references at once, delegation without commands, a
      directory that does not go with its type or begins nowhere, an empty or repeated tool to wait for. */
  ghost predicate Faulty(s: InstallerSpec) {
    || s.typ.TypeOther?
    || (s.runtimeRef != "" && s.toolRef != "")
    || (s.typ == TypeDelegation && s.commands == None)
    || (s.binDir != "" && s.typ == TypeDownload)
    || (s.binDir != "" && s.binDir[0] != '/' && !(|s.binDir| >= 2 && s.binDir[..2] == "~/"))
    || "" in s.dependsOn
    || |set d | d in s.dependsOn| < |s.dependsOn|
  }

  lemma FaultyIsRefused(s: InstallerSpec)
    ensures ValidInstaller(s) <==> !Faulty(s)
  {
    Repeats(s.dependsOn);
  }

  lemma {:induction false} Repeats(s: seq<string>)
    ensures |set d | d in s| <= |s|
    ensures |set d | d in s| < |s| <==> exists i, j :: 0 <= i < j < |s| && s[i] == s[j]
  {
    if s != [] {
      var n := |s| - 1;
      var all, rest := set d | d in s, set d | d in s[..n];
      Repeats(s[..n]);
      assert s == s[..n] + [s[n]];
      assert all == rest + {s[n]};
      if s[n] in rest {
        var i :| 0 <= i < n && s[..n][i] == s[n];
        assert s[i] == s[n] && all == rest;
      } else {
        assert |all| == |rest| + 1;
        forall i, j | 0 <= i < j < |s| && s[i] == s[j] ensures j < n && s[..n][i] == s[..n][j] {
          assert i < n ==> s[..n][i] in rest;
        }
        forall i, j | 0 <= i < j < n && s[..n][i] == s[..n][j] ensures s[i] == s[j] {
        }
      }
    }
  }

  /** The tool installer is told where a recorded runtime keeps its tools and by which commands it installs them. */
  lemma InformedMeans(reg: Registry, s: Snapshot, n: string)
    ensures var id, after := NodeID(KindRuntime, n), Informed(reg, s);
            && after.installers == reg.installers && after.hasVersionResolver == reg.hasVersionResolver
            && after.hasPackageRegistry == reg.hasPackageRegistry
            && (if id in s && s[id].RuntimeEntry? then
                  n in after.runtimes && after.runtimes[n].toolBinPath == s[id].runtime.toolBinPath &&
                  after.runtimes[n].commands == s[id].runtime.commands
                else Get(after.runtimes, n) == Get(reg.runtimes, n))
  {
    InformedOf(reg, s, n);
  }

  /** And of every installer of the manifest its type, tool and commands. */
  lemma KnownMeans(before: Registry, resources: seq<Resource>, after: Registry, n: string)
    requires InstallersKnown(before, resources, after)
    ensures var want, id := Manifest.ById(resources), NodeID(KindInstaller, n);
            if id in want && want[id].InstallerRes? then
              && n in after.installers && after.installers[n].typ == want[id].installer.typ
              && after.installers[n].toolRef == want[id].installer.toolRef
              && after.installers[n].commands == want[id].installer.commands
            else Get(after.installers, n) == Get(before.installers, n)
  {
    assert Get(after.installers, n) == if Wanted(Manifest.ById(resources), n).Some?
                                         then Wanted(Manifest.ById(resources), n) else Get(before.installers, n);
  }
}
