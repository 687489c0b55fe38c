/** The three installers. Commands, downloads and file placement are outside; what they report is a
    parameter (the Io values), and an installation is the record it returns or a failure. */
module Installers {
  import opened Prelude
  import opened Resources
  import opened Reconciler

  datatype InstallError =
    InvalidBinaryName | NotConfigured | MissingSource | MissingBootstrap | UnsupportedType | External

  // ----- Tools ------------------------------------------------------------------------------

  datatype RuntimeInfo = RuntimeInfo(toolBinPath: string, commands: Option<CommandSet>)
  datatype InstallerInfo = InstallerInfo(typ: InstallType, toolRef: string, commands: Option<CommandSet>)

  /** What the engine registered with the tool installer, and the registry set-up it was given. */
  datatype Registry = Registry(runtimes: map<string, RuntimeInfo>, installers: map<string, InstallerInfo>,
                               hasVersionResolver: bool, hasPackageRegistry: bool)

  /** ok: every command, check, download and placement of this call succeeded;
      resolved: what the version resolver answered (None: it failed);
      latest: the newest version the package registry knows; source: the download it resolved;
      binPath: where the binary is linked. */
  datatype ToolIo = ToolIo(ok: bool, resolved: Option<string>, latest: string, source: DownloadSource, binPath: string)

  datatype Route = ByCommands | ByRuntime(runtime: string) | ByInstaller(installer: string) | FromRegistry | ByDownload

  function RouteOf(reg: Registry, spec: ToolSpec): Route {
    if spec.commands.Some? then ByCommands
    else if spec.runtimeRef != "" then ByRuntime(spec.runtimeRef)
    else if spec.installerRef in reg.installers && reg.installers[spec.installerRef].typ == TypeDelegation then
      ByInstaller(spec.installerRef)
    else if IsRegistry(spec.package) then FromRegistry
    else ByDownload
  }

  predicate Alphanumeric(c: char) {
    'a' <= c <= 'z' || 'A' <= c <= 'Z' || '0' <= c <= '9'
  }

  predicate ValidBinaryName(s: string) {
    && |s| > 0 && Alphanumeric(s[0])
    && forall i :: 1 <= i < |s| ==> Alphanumeric(s[i]) || s[i] == '.' || s[i] == '_' || s[i] == '-'
  }

  predicate HasInstall(commands: Option<CommandSet>) {
    commands.Some? && commands.value.install != []
  }

  /** On every route the record of a successful installation asks for no further update. */
  function InstallTool(reg: Registry, spec: ToolSpec, name: string, io: ToolIo): (r: Result<ToolState, InstallError>)
    ensures r.Ok? ==> !ToolNeedsUpdate(spec, r.value)
  {
    if spec.binaryName != "" && !ValidBinaryName(spec.binaryName) then Err(InvalidBinaryName)
    else
      match RouteOf(reg, spec)
      case ByCommands => InstallByCommands(reg, spec, io)
      case ByRuntime(r) =>
        if r !in reg.runtimes || !HasInstall(reg.runtimes[r].commands) then Err(NotConfigured)
        else if !io.ok then Err(External)
        else Ok(DelegationState(spec, io.binPath))
      case ByInstaller(i) =>
        if !HasInstall(reg.installers[i].commands) then Err(NotConfigured)
        else if !io.ok then Err(External)
        else Ok(DelegationState(spec, ""))
      case FromRegistry => InstallFromRegistry(reg, spec, io)
      case ByDownload =>
        if !ValidBinaryName(if spec.binaryName != "" then spec.binaryName else name) then Err(InvalidBinaryName)
        else if spec.source.None? then Err(MissingSource)
        else if !io.ok then Err(External)
        else Ok(DownloadState(spec, io.binPath))
  }

  function InstallByCommands(reg: Registry, spec: ToolSpec, io: ToolIo): Result<ToolState, InstallError>
    requires spec.commands.Some?
  {
    if !io.ok then Err(External)
    else
      var asks := reg.hasVersionResolver && spec.commands.value.resolveVersion != [] && !IsExactVersion(spec.version);
      var answered := asks && io.resolved.Some? && io.resolved.value != "";
      var version := if answered then io.resolved.value else spec.version;
      var kind :=
        if answered then (if IsLatestVersion(spec.version) then VersionLatest else VersionAlias)
        else ClassifyVersion(spec.version);
      Ok(ToolState("", "", version, kind, spec.version, "", None, None, spec.commands, spec.binaryName, ""))
  }

  /** The registry route installs a copy of the specification that carries the resolved version. */
  function InstallFromRegistry(reg: Registry, spec: ToolSpec, io: ToolIo): Result<ToolState, InstallError> {
    if !reg.hasPackageRegistry then Err(NotConfigured)
    else if !io.ok then Err(External)
    else
      var version := if IsLatestVersion(spec.version) then io.latest else spec.version;
      var st := DownloadState(spec.(version := version, runtimeRef := "", source := Some(io.source)), io.binPath);
      Ok(st.(package := spec.package, versionKind := ClassifyVersion(spec.version), specVersion := spec.version))
  }

  function DownloadState(spec: ToolSpec, binPath: string): ToolState {
    ToolState(spec.installerRef, spec.runtimeRef, spec.version, ClassifyVersion(spec.version), spec.version,
              binPath, spec.source, spec.package, None, spec.binaryName, "")
  }

  function DelegationState(spec: ToolSpec, binPath: string): ToolState {
    ToolState(spec.installerRef, spec.runtimeRef, spec.version, ClassifyVersion(spec.version), spec.version,
              binPath, None, spec.package, None, spec.binaryName, "")
  }

  // ----- Runtimes ---------------------------------------------------------------------------

  /** home: the home directory, if it can be found. */
  datatype RuntimeIo = RuntimeIo(ok: bool, resolved: Option<string>, home: Option<string>)

  /** A leading "~" stands for the home directory; the path is kept as written when that is unknown. */
  function ExpandPath(path: string, home: Option<string>): string {
    if home.None? then path
    else if "~/" <= path then home.value + path[1..]
    else if path == "~" then home.value
    else path
  }

  /** None: the resolver was asked and failed. */
  function ResolveVersion(version: string, cmds: seq<string>, io: RuntimeIo): Option<(string, VersionKind)> {
    if cmds == [] then Some((version, ClassifyVersion(version)))
    else if IsExactVersion(version) then Some((version, VersionExact))
    else if io.resolved.None? then None
    else Some((io.resolved.value, VersionAlias))
  }

  function InstallRuntime(spec: RuntimeSpec, action: ActionType, io: RuntimeIo): (r: Result<RuntimeState, InstallError>)
    ensures r.Ok? ==> !RuntimeNeedsUpdate(spec, r.value) && r.value.taintOnUpgrade == spec.taintOnUpgrade
  {
    match spec.typ
    case TypeDownload =>
      if spec.source.None? || spec.source.value.url == "" then Err(MissingSource)
      else
        var v := ResolveVersion(spec.version, spec.resolveVersion, io);
        if v.None? || !io.ok then Err(External)
        else Ok(RuntimeStateResolved(spec, v.value.0, v.value.1, [], io))
    case TypeDelegation =>
      if !HasInstall(spec.bootstrap) then Err(MissingBootstrap)
      else
        var v := ResolveVersion(spec.version, spec.bootstrap.value.resolveVersion, io);
        var w := if v.None? && action == ActionInstall then Some((spec.version, ClassifyVersion(spec.version))) else v;
        if w.None? || !io.ok then Err(External)
        else Ok(RuntimeStateResolved(spec, w.value.0, w.value.1, spec.bootstrap.value.remove, io))
    case TypeOther(_) => Err(UnsupportedType)
  }

  function RuntimeStateResolved(spec: RuntimeSpec, version: string, kind: VersionKind, remove: seq<string>,
                                io: RuntimeIo): RuntimeState {
    RuntimeState(spec.typ, version, kind, spec.version, spec.commands, ExpandPath(spec.toolBinPath, io.home),
                 spec.taintOnUpgrade, remove, "")
  }

  // ----- Installer repositories -------------------------------------------------------------

  datatype RepoIo = RepoIo(ok: bool, localPath: string)

  function InstallRepo(spec: RepoSpec, io: RepoIo): (r: Result<RepoState, InstallError>)
    ensures r.Ok? ==> !RepoNeedsUpdate(spec, r.value)
  {
    match spec.sourceType
    case SourceDelegation =>
      if spec.commands.None? then Err(NotConfigured)
      else if !io.ok then Err(External)
      else Ok(RepoState(spec.installerRef, SourceDelegation, spec.url, "", spec.commands.value.remove))
    case SourceGit =>
      if !io.ok then Err(External)
      else Ok(RepoState(spec.installerRef, SourceGit, spec.url, io.localPath, []))
    case SourceOther(_) => Err(UnsupportedType)
  }

  // ----- A successful installation is a fixpoint of the comparator ----------------------------

  /** On every route, for every kind of version and whatever the resolvers answered, the record of a
      successful tool installation asks for another update exactly when the specification it is then
      compared with changed its version (moving between the two spellings of "latest" is no change)
      or its binary name. In particular the same specification asks for none. */
  lemma ToolFixpoint(reg: Registry, spec: ToolSpec, name: string, io: ToolIo, later: ToolSpec)
    requires InstallTool(reg, spec, name, io).Ok?
    ensures var st := InstallTool(reg, spec, name, io).value;
            && st.specVersion == spec.version
            && !ToolNeedsUpdate(spec, st)
            && (ToolNeedsUpdate(later, st) <==>
                 || later.binaryName != spec.binaryName
                 || (later.version != spec.version &&
                     !(later.version in {"", "latest"} && spec.version in {"", "latest"})))
  {
  }

  /** The same for both runtime routes with their resolver and fallback branches, except that an alias
      that was resolved is compared letter by letter, "latest" included. */
  lemma RuntimeFixpoint(spec: RuntimeSpec, action: ActionType, io: RuntimeIo, later: RuntimeSpec)
    requires InstallRuntime(spec, action, io).Ok?
    ensures var st := InstallRuntime(spec, action, io).value;
            && !RuntimeNeedsUpdate(spec, st)
            && st.taintOnUpgrade == spec.taintOnUpgrade
            && (RuntimeNeedsUpdate(later, st) <==>
                 later.version != spec.version &&
                 !(st.versionKind == VersionLatest && later.version in {"", "latest"}))
            && (st.versionKind == VersionLatest ==> spec.version in {"", "latest"} && st.version == spec.version)
            && (st.version == spec.version || (!Numbered(spec.version) && io.resolved == Some(st.version)))
            && st.typ == spec.typ && st.commands == spec.commands
            && (st.toolBinPath == spec.toolBinPath || "~" <= spec.toolBinPath)
            && ("~/" <= spec.toolBinPath && io.home.Some? ==> io.home.value <= st.toolBinPath)
  {
    ExactMeans(spec.version);
  }

  /** The record names the runtime exactly if that runtime's commands installed the tool, so a tool is later
      tainted for the runtime it was really installed with; and the recorded version is the specification's
      unless a resolver or the registry answered for a specification that leaves it open. */
  lemma ToolRecord(reg: Registry, spec: ToolSpec, name: string, io: ToolIo)
    requires InstallTool(reg, spec, name, io).Ok?
    ensures var st, route := InstallTool(reg, spec, name, io).value, RouteOf(reg, spec);
            && (st.runtimeRef != "" <==> route.ByRuntime?)
            && (route.ByRuntime? ==> st.runtimeRef == route.runtime && route.runtime in reg.runtimes)
            && (route.ByInstaller? ==> st.installerRef == route.installer)
            && (st.commands.Some? <==> route.ByCommands?)
            && (st.version == spec.version || !Numbered(spec.version))
            && (st.version == spec.version || route.FromRegistry? ||
                (route.ByCommands? && io.resolved == Some(st.version)))
            && st.specVersion == spec.version
            && st.taintReason == ""
  {
    ExactMeans(spec.version);
  }

  // ----- When an installation succeeds, and what it records, field by field -----------------------

  /** A name for a binary is not empty, is made of letters, digits, dots, underscores and dashes, and begins with a
      letter or digit: no path in disguise. */
  ghost predicate PlainName(s: string) {
    && s != "" && s[0] !in "._-"
    && forall c :: c in s ==> 'a' <= c <= 'z' || 'A' <= c <= 'Z' || '0' <= c <= '9' || c in "._-"
  }

  lemma NamesAre(s: string)
    ensures ValidBinaryName(s) <==> PlainName(s)
  {
    assert forall c: char :: c in "._-" <==> c == '.' || c == '_' || c == '-';
    if ValidBinaryName(s) {
      forall c | c in s ensures Alphanumeric(c) || c in "._-" {
        var i :| 0 <= i < |s| && s[i] == c;
      }
    }
    if PlainName(s) {
      assert forall i :: 0 <= i < |s| ==> s[i] in s;
    }
  }

  ghost predicate CommandsGiven(commands: Option<CommandSet>) {
    commands.Some? && |commands.value.install| > 0
  }

  /** Whose work the installation of a tool is: its own commands', its runtime's, its installer's if that delegates,
      the package registry's if the package has an owner and a repository, else a download's. */
  lemma RouteMeans(reg: Registry, spec: ToolSpec)
    ensures var route := RouteOf(reg, spec);
            var delegates := spec.installerRef in reg.installers &&
              reg.installers[spec.installerRef].typ == TypeDelegation;
            var open := spec.commands == None && spec.runtimeRef == "";
            && (route == ByCommands <==> spec.commands != None)
            && (route.ByRuntime? <==> spec.commands == None && spec.runtimeRef != "")
            && (route.ByRuntime? ==> route.runtime == spec.runtimeRef)
            && (route.ByInstaller? <==> open && delegates)
            && (route.ByInstaller? ==> route.installer == spec.installerRef)
            && (route == FromRegistry <==>
                 open && !delegates && spec.package.Some? && |spec.package.value.owner| > 0 &&
                 |spec.package.value.repo| > 0)
  {
  }

  /** On every route: the outside world did its part, the names are plain, and what the route relies on is there. */
  ghost predicate ToolInstallable(reg: Registry, spec: ToolSpec, name: string, io: ToolIo) {
    && io.ok && (spec.binaryName == "" || PlainName(spec.binaryName))
    && match RouteOf(reg, spec)
       case ByCommands => true
       case ByRuntime(r) => r in reg.runtimes && CommandsGiven(reg.runtimes[r].commands)
       case ByInstaller(i) => CommandsGiven(reg.installers[i].commands)
       case FromRegistry => reg.hasPackageRegistry
       case ByDownload => spec.source.Some? && (spec.binaryName == "" ==> PlainName(name))
  }

  lemma ToolInstalls(reg: Registry, spec: ToolSpec, name: string, io: ToolIo)
    ensures InstallTool(reg, spec, name, io).Ok? <==> ToolInstallable(reg, spec, name, io)
    ensures InstallTool(reg, spec, name, io).Ok? ==> io.ok
  {
    hide ValidBinaryName, PlainName;
    NamesAre(spec.binaryName);
    NamesAre(name);
  }

  /** The version resolver's say in a tool with commands: it is asked where one is known and configured and the version
      is not exact, and an empty answer or a failure leaves the version as written. */
  ghost predicate Resolves(reg: Registry, spec: ToolSpec, io: ToolIo) {
    && spec.commands.Some? && reg.hasVersionResolver && |spec.commands.value.resolveVersion| > 0
    && !Numbered(spec.version) && io.resolved.Some? && |io.resolved.value| > 0
  }

  lemma ToolFields(reg: Registry, spec: ToolSpec, name: string, io: ToolIo)
    requires InstallTool(reg, spec, name, io).Ok?
    ensures var st, route, latest := InstallTool(reg, spec, name, io).value, RouteOf(reg, spec),
              spec.version in {"", "latest"};
            && st.specVersion == spec.version && st.binaryName == spec.binaryName && st.taintReason == ""
            && st.version == (if Resolves(reg, spec, io) then io.resolved.value
                              else if route == FromRegistry && latest then io.latest else spec.version)
            && st.versionKind == (if latest then VersionLatest
                                  else if Resolves(reg, spec, io) then VersionAlias else VersionExact)
            && st.installerRef == (if route == ByCommands then "" else spec.installerRef)
            && st.runtimeRef == (if route.ByRuntime? then spec.runtimeRef else "")
            && st.package == (if route == ByCommands then None else spec.package)
            && st.commands == spec.commands
            && st.source == (if route == FromRegistry then Some(io.source)
                             else if route == ByDownload then spec.source else None)
            && st.binPath == (if route == ByCommands || route.ByInstaller? then "" else io.binPath)
  {
    ExactMeans(spec.version);
  }

  /** Whether the version of a runtime is resolved: by its own resolver for a download, by the bootstrap's otherwise. */
  ghost function ResolverOf(spec: RuntimeSpec): seq<string> {
    if spec.typ == TypeDelegation && spec.bootstrap.Some? then spec.bootstrap.value.resolveVersion
    else spec.resolveVersion
  }

  ghost predicate AsksResolver(spec: RuntimeSpec) {
    |ResolverOf(spec)| > 0 && !Numbered(spec.version)
  }

  /** A runtime is installed exactly if the outside world did its part, its source or its bootstrap commands are given,
      and its resolver answers when asked; only a first installation by bootstrap forgives a failing resolver. */
  lemma RuntimeInstalls(spec: RuntimeSpec, action: ActionType, io: RuntimeIo)
    ensures InstallRuntime(spec, action, io).Ok? <==>
            && io.ok
            && (AsksResolver(spec) ==> io.resolved.Some? || (spec.typ == TypeDelegation && action == ActionInstall))
            && (|| (spec.typ == TypeDownload && spec.source.Some? && spec.source.value.url != "")
                || (spec.typ == TypeDelegation && CommandsGiven(spec.bootstrap)))
  {
    ExactMeans(spec.version);
  }

  lemma RuntimeFields(spec: RuntimeSpec, action: ActionType, io: RuntimeIo)
    requires InstallRuntime(spec, action, io).Ok?
    ensures var st, resolved := InstallRuntime(spec, action, io).value, AsksResolver(spec) && io.resolved.Some?;
            && st.typ == spec.typ && st.specVersion == spec.version && st.commands == spec.commands
            && st.taintOnUpgrade == spec.taintOnUpgrade && st.taintReason == ""
            && st.version == (if resolved then io.resolved.value else spec.version)
            && st.versionKind == (if resolved then VersionAlias
                                  else if spec.version in {"", "latest"} then VersionLatest else VersionExact)
            && st.removeCommand == (if spec.typ == TypeDelegation then spec.bootstrap.value.remove else [])
            && st.toolBinPath == (if io.home.Some? && (spec.toolBinPath == "~" || "~/" <= spec.toolBinPath)
                                  then io.home.value + spec.toolBinPath[1..] else spec.toolBinPath)
  {
    ExactMeans(spec.version);
  }

  /** A repository is installed exactly if its commands or the clone worked; its record asks for another installation
      exactly if the address or the kind of the source changes. */
  lemma RepoInstalls(spec: RepoSpec, io: RepoIo, later: RepoSpec)
    ensures InstallRepo(spec, io).Ok? <==>
            && io.ok && (spec.sourceType == SourceGit || (spec.sourceType == SourceDelegation && spec.commands.Some?))
    ensures InstallRepo(spec, io).Ok? ==>
              var st := InstallRepo(spec, io).value;
              && st.url == spec.url && st.sourceType == spec.sourceType && st.installerRef == spec.installerRef
              && st.localPath == (if spec.sourceType == SourceGit then io.localPath else "")
              && st.removeCommand == (if spec.sourceType == SourceGit then [] else spec.commands.value.remove)
              && (RepoNeedsUpdate(later, st) <==> later.url != spec.url || later.sourceType != spec.sourceType)
  {
  }
}
