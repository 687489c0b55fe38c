/** The entities of a manifest (what the user wants) and of the state file (what is installed). */
module Resources {
  import opened Prelude

  // ----- Identities -------------------------------------------------------------------------

  datatype Kind =
    | KindSystemInstaller | KindSystemPackageRepository | KindSystemPackageSet
    | KindInstaller | KindInstallerRepository | KindRuntime | KindTool | KindToolSet

  /** The program writes an identity as the text "Kind/Name"; no kind contains a slash, so a pair
      carries the same information. */
  datatype NodeID = NodeID(kind: Kind, name: string)

  datatype ActionType = ActionNone | ActionInstall | ActionUpgrade | ActionReinstall | ActionRemove

  // ----- Versions ---------------------------------------------------------------------------

  /** Any other text found in a state file is compared like an exact version. */
  datatype VersionKind = VersionExact | VersionLatest | VersionAlias | VersionOther(raw: string)

  predicate IsLatestVersion(version: string) {
    version == "" || version == "latest"
  }

  function ClassifyVersion(specVersion: string): VersionKind {
    if IsLatestVersion(specVersion) then VersionLatest else VersionExact
  }

  /** Starts with a digit once one optional leading "v" is dropped. */
  predicate IsExactVersion(version: string) {
    var v := if "v" <= version then version[1..] else version;
    |v| > 0 && '0' <= v[0] <= '9'
  }

  // ----- Manifest ---------------------------------------------------------------------------

  datatype InstallType = TypeDownload | TypeDelegation | TypeOther(raw: string)
  datatype SourceType = SourceDelegation | SourceGit | SourceOther(raw: string)

  datatype DownloadSource = DownloadSource(url: string, checksum: string)
  datatype Package = Package(owner: string, repo: string, name: string)
  datatype CommandSet = CommandSet(install: seq<string>, check: seq<string>, remove: seq<string>,
                                   update: seq<string>, resolveVersion: seq<string>)

  predicate IsRegistry(p: Option<Package>) {
    p.Some? && p.value.owner != "" && p.value.repo != ""
  }

  datatype ToolSpec = ToolSpec(
    installerRef: string, repositoryRef: string, runtimeRef: string, version: string,
    enabled: Option<bool>, source: Option<DownloadSource>, package: Option<Package>,
    commands: Option<CommandSet>, binaryName: string, args: seq<string>)

  datatype ToolItem = ToolItem(
    version: string, enabled: Option<bool>, source: Option<DownloadSource>,
    package: Option<Package>, binaryName: string, args: seq<string>)

  datatype ToolSetSpec = ToolSetSpec(
    installerRef: string, repositoryRef: string, runtimeRef: string, tools: map<string, ToolItem>)

  datatype RuntimeSpec = RuntimeSpec(
    typ: InstallType, version: string, source: Option<DownloadSource>, bootstrap: Option<CommandSet>,
    commands: Option<CommandSet>, toolBinPath: string, taintOnUpgrade: bool, resolveVersion: seq<string>)

  datatype RepoSpec = RepoSpec(installerRef: string, sourceType: SourceType, url: string, commands: Option<CommandSet>)

  datatype InstallerSpec = InstallerSpec(
    typ: InstallType, runtimeRef: string, toolRef: string, dependsOn: seq<string>,
    commands: Option<CommandSet>, binDir: string)

  datatype SystemKind = SystemInstaller | SystemPackageRepository | SystemPackageSet

  predicate FlagOn(enabled: Option<bool>) {
    enabled.None? || enabled.value
  }

  datatype Resource =
    | ToolRes(name: string, tool: ToolSpec)
    | ToolSetRes(name: string, toolSet: ToolSetSpec)
    | RuntimeRes(name: string, runtime: RuntimeSpec)
    | RepoRes(name: string, repo: RepoSpec)
    | InstallerRes(name: string, installer: InstallerSpec)
    | SystemRes(name: string, sys: SystemKind, refs: seq<NodeID>)
  {
    function Kind(): Kind {
      match this
      case ToolRes(_, _) => KindTool
      case ToolSetRes(_, _) => KindToolSet
      case RuntimeRes(_, _) => KindRuntime
      case RepoRes(_, _) => KindInstallerRepository
      case InstallerRes(_, _) => KindInstaller
      case SystemRes(_, SystemInstaller, _) => KindSystemInstaller
      case SystemRes(_, SystemPackageRepository, _) => KindSystemPackageRepository
      case SystemRes(_, SystemPackageSet, _) => KindSystemPackageSet
    }

    function Id(): NodeID {
      NodeID(Kind(), name)
    }

    /** Only a tool carries an enabled flag of its own. */
    predicate Enabled() {
      ToolRes? ==> FlagOn(tool.enabled)
    }

    /** The resources this one depends on, in the order the specification lists them. */
    function Dependencies(): seq<NodeID> {
      match this
      case ToolRes(_, s) => Refs(s.installerRef, s.repositoryRef, s.runtimeRef)
      case ToolSetRes(_, s) => Refs(s.installerRef, s.repositoryRef, s.runtimeRef)
      case RuntimeRes(_, _) => []
      case RepoRes(_, s) => [NodeID(KindInstaller, s.installerRef)]
      case InstallerRes(_, s) =>
        Ref(KindRuntime, s.runtimeRef) + Ref(KindTool, s.toolRef) + OrderOnly(s.dependsOn, s.toolRef)
      case SystemRes(_, _, refs) => refs
    }
  }

  function Ref(kind: Kind, name: string): seq<NodeID> {
    if name == "" then [] else [NodeID(kind, name)]
  }

  function Refs(installerRef: string, repositoryRef: string, runtimeRef: string): seq<NodeID> {
    Ref(KindInstaller, installerRef) + Ref(KindInstallerRepository, repositoryRef) + Ref(KindRuntime, runtimeRef)
  }

  /** Ordering-only tool dependencies of an installer; the one already named by toolRef is skipped. */
  function OrderOnly(names: seq<string>, toolRef: string): seq<NodeID> {
    if names == [] then []
    else (if names[0] == toolRef then [] else [NodeID(KindTool, names[0])]) + OrderOnly(names[1..], toolRef)
  }

  // ----- State ------------------------------------------------------------------------------

  /** Timestamps, digests and install directories are not recorded: nothing below reads them. */
  datatype ToolState = ToolState(
    installerRef: string, runtimeRef: string, version: string, versionKind: VersionKind,
    specVersion: string, binPath: string, source: Option<DownloadSource>, package: Option<Package>,
    commands: Option<CommandSet>, binaryName: string, taintReason: string)

  datatype RuntimeState = RuntimeState(
    typ: InstallType, version: string, versionKind: VersionKind, specVersion: string,
    commands: Option<CommandSet>, toolBinPath: string, taintOnUpgrade: bool,
    removeCommand: seq<string>, taintReason: string)

  datatype RepoState = RepoState(
    installerRef: string, sourceType: SourceType, url: string, localPath: string, removeCommand: seq<string>)

  datatype Entry = ToolEntry(tool: ToolState) | RuntimeEntry(runtime: RuntimeState) | RepoEntry(repo: RepoState)
  {
    predicate Fits(kind: Kind) {
      match this
      case ToolEntry(_) => kind == KindTool
      case RuntimeEntry(_) => kind == KindRuntime
      case RepoEntry(_) => kind == KindInstallerRepository
    }

    predicate Tainted() {
      match this
      case ToolEntry(t) => t.taintReason != ""
      case RuntimeEntry(r) => r.taintReason != ""
      case RepoEntry(_) => false
    }
  }

  /** The whole persisted state: the tool, runtime and repository maps, keyed by identity. */
  type Snapshot = map<NodeID, Entry>

  ghost predicate WellTyped(s: Snapshot) {
    forall id :: id in s ==> s[id].Fits(id.kind)
  }

  // ----- What the definitions above amount to ---------------------------------------------------

  lemma DigitIs(c: char)
    ensures c in "0123456789" <==> '0' <= c <= '9'
  {
    if '0' <= c <= '9' {
      assert "0123456789"[c as int - '0' as int] == c;
    }
  }

  /** A digit with anything behind it, after an optional "v". */
  ghost predicate Numbered(version: string) {
    exists digit, rest :: digit in "0123456789" && version in {[digit] + rest, "v" + ([digit] + rest)}
  }

  lemma ExactMeans(version: string)
    ensures IsExactVersion(version) <==> Numbered(version)
  {
    if IsExactVersion(version) {
      var v := if "v" <= version then version[1..] else version;
      assert v == [v[0]] + v[1..] && (v == version || version == "v" + v);
      DigitIs(v[0]);
      assert v[0] in "0123456789" && version in {[v[0]] + v[1..], "v" + ([v[0]] + v[1..])};
    }
    forall digit, rest | digit in "0123456789" && version in {[digit] + rest, "v" + ([digit] + rest)}
      ensures IsExactVersion(version)
    {
      DigitIs(digit);
      if version == "v" + ([digit] + rest) {
        assert version[0] == 'v' && version[1..] == [digit] + rest;
      } else {
        assert version[0] == digit;
      }
    }
  }

  /** The resource names d in its specification as something it depends on. */
  ghost predicate Needs(res: Resource, d: NodeID) {
    match res
    case ToolRes(_, s) => NeededBy(s.installerRef, s.repositoryRef, s.runtimeRef, d)
    case ToolSetRes(_, s) => NeededBy(s.installerRef, s.repositoryRef, s.runtimeRef, d)
    case RuntimeRes(_, _) => false
    case RepoRes(_, s) => d.kind == KindInstaller && d.name == s.installerRef
    case InstallerRes(_, s) =>
      || (d.kind == KindRuntime && d.name == s.runtimeRef != "")
      || (d.kind == KindTool && (d.name == s.toolRef != "" || (d.name in s.dependsOn && d.name != s.toolRef)))
    case SystemRes(_, _, refs) => d in refs
  }

  ghost predicate NeededBy(installerRef: string, repositoryRef: string, runtimeRef: string, d: NodeID) {
    || (d.kind == KindInstaller && d.name == installerRef != "")
    || (d.kind == KindInstallerRepository && d.name == repositoryRef != "")
    || (d.kind == KindRuntime && d.name == runtimeRef != "")
  }

  lemma {:induction false} OrderOnlyIs(names: seq<string>, toolRef: string, d: NodeID)
    ensures d in OrderOnly(names, toolRef) <==> d.kind == KindTool && d.name in names && d.name != toolRef
  {
    if names != [] {
      OrderOnlyIs(names[1..], toolRef, d);
      assert names == [names[0]] + names[1..];
    }
  }

  /** The list of dependencies holds exactly what the specification names; an installer's tools count once. */
  lemma DependenciesAre(res: Resource, d: NodeID)
    ensures d in res.Dependencies() <==> Needs(res, d)
  {
    if res.InstallerRes? {
      OrderOnlyIs(res.installer.dependsOn, res.installer.toolRef, d);
    }
  }
}
