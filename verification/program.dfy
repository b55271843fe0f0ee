/**
 * The entry point (Program.Main): parse the command line, then show help,
 * refuse install together with uninstall, uninstall, install, or run the
 * workload; an exception is reported and swallowed when interactive, and
 * logged and rethrown otherwise.
 */
module EntryPoint {
  import opened Common
  import opened CommandLine
  import opened Platform
  import opened ServiceInstallerConfigurations
  import opened InstallConfigurations
  import opened HostFactories
  import opened HostServiceInstallers
  import WindowsServiceInstallers
  import HostRuntime

  // ---------------------------------------------------------------------------
  // The dispatch decision.
  // ---------------------------------------------------------------------------

  datatype Directive = ShowHelp | UninstallService | InstallService | RunHost

  const ConflictMessage := "Cannot specify /install and /uninstall together."

  /** The branch Main takes for the parsed command line, or the exception it meets first. */
  function Decide(table: ArgumentTable): (r: Result<Directive>)
    ensures HelpRequested(table).Err? ==> r == Err(HelpRequested(table).error)
    ensures r == Ok(ShowHelp) <==> HelpRequested(table) == Ok(true)
    ensures HelpRequested(table) == Ok(false) ==>
      var install := GetString(table, "install", "");
      var uninstall := GetString(table, "uninstall", "");
      && (install != "" && uninstall != "" ==> r == Err(Error(ConfigurationErrors, ConflictMessage)))
      && (r == Ok(UninstallService) <==> uninstall != "" && install == "")
      && (r == Ok(InstallService) <==> install != "" && uninstall == "")
      && (r == Ok(RunHost) <==> install == "" && uninstall == "")
  {
    var help :- HelpRequested(table);
    if help then Ok(ShowHelp)
    else
      var install := GetString(table, "install", "");
      var uninstall := GetString(table, "uninstall", "");
      if install != "" && uninstall != "" then Err(Error(ConfigurationErrors, ConflictMessage))
      else if uninstall != "" then Ok(UninstallService)
      else if install != "" then Ok(InstallService)
      else Ok(RunHost)
  }

  /** The directive switch names are lower-case names the splitter reads back whole. */
  lemma DirectiveNames(prefix: string)
    requires IsSwitchPrefix(prefix)
    ensures Lower("install") == "install" && Lower("uninstall") == "uninstall"
    ensures IsSwitchName(prefix, "install") && IsSwitchName(prefix, "uninstall")
  {
    assert Lower("install") == "install";
    assert Lower("uninstall") == "uninstall";
  }

  /** A command line of two bare switches stores both as "true". */
  lemma TwoSwitchesTable(prefix: string, a: string, prefix': string, b: string)
    requires IsSwitchPrefix(prefix) && IsSwitchName(prefix, a)
    requires IsSwitchPrefix(prefix') && IsSwitchName(prefix', b)
    requires Lower(a) != Lower(b)
    ensures Parse([prefix + a, prefix' + b]) == map[Lower(a) := "true", Lower(b) := "true"]
  {
    SplitOfSwitch(prefix, a);
    ScanAppend([], prefix + a);
    assert [] + [prefix + a] == [prefix + a];
    assert Scan([prefix + a]) == ParserState(Some(a), map[]);
    TrailingSwitchIsTrue([prefix + a], prefix', b);
    assert [prefix + a] + [prefix' + b] == [prefix + a, prefix' + b];
  }

  /** A command line of one bare switch with a lower-case name stores it as "true". */
  lemma OneSwitchTable(prefix: string, name: string)
    requires IsSwitchPrefix(prefix) && IsSwitchName(prefix, name) && Lower(name) == name
    ensures Parse([prefix + name]) == map[name := "true"]
  {
    TrailingSwitchIsTrue([], prefix, name);
    assert [] + [prefix + name] == [prefix + name];
  }

  /** A table whose switch names are all longer than "help" has none of the help switches. */
  lemma LongSwitchesAreNoHelp(table: ArgumentTable, a: string, b: string)
    requires |a| > 4 && |b| > 4
    requires forall name :: name in table ==> name == a || name == b
    ensures "help" !in table && "h" !in table && "?" !in table
  {
    assert |"help"| == 4 && |"h"| == 1 && |"?"| == 1;
  }

  /** How Main decides on a table holding only directive switches. */
  lemma DecideOnDirectiveSwitches(table: ArgumentTable)
    requires forall name :: name in table ==> (name == "install" || name == "uninstall") && table[name] == "true"
    ensures "install" in table && "uninstall" in table ==> Decide(table) == Err(Error(ConfigurationErrors, ConflictMessage))
    ensures "install" in table && "uninstall" !in table ==> Decide(table) == Ok(InstallService)
    ensures "install" !in table && "uninstall" in table ==> Decide(table) == Ok(UninstallService)
  {
    LongSwitchesAreNoHelp(table, "install", "uninstall");
    assert Lower("install") == "install" && Lower("uninstall") == "uninstall";
  }

  /** `/install` alone installs. */
  lemma InstallSwitchInstalls(prefix: string)
    requires IsSwitchPrefix(prefix)
    ensures Decide(Parse([prefix + "install"])) == Ok(InstallService)
  {
    var table := map["install" := "true"];
    assert Parse([prefix + "install"]) == table by {
      DirectiveNames(prefix);
      OneSwitchTable(prefix, "install");
    }
    DecideOnDirectiveSwitches(table);
  }

  /** `/uninstall` alone uninstalls. */
  lemma UninstallSwitchUninstalls(prefix: string)
    requires IsSwitchPrefix(prefix)
    ensures Decide(Parse([prefix + "uninstall"])) == Ok(UninstallService)
  {
    var table := map["uninstall" := "true"];
    assert Parse([prefix + "uninstall"]) == table by {
      DirectiveNames(prefix);
      OneSwitchTable(prefix, "uninstall");
    }
    DecideOnDirectiveSwitches(table);
  }

  /** `/install /uninstall` stores both directives. */
  lemma BothDirectivesTable(prefix: string, prefix': string)
    requires IsSwitchPrefix(prefix) && IsSwitchPrefix(prefix')
    ensures Parse([prefix + "install", prefix' + "uninstall"]) == map["install" := "true", "uninstall" := "true"]
  {
    DirectiveNames(prefix);
    DirectiveNames(prefix');
    TwoSwitchesTable(prefix, "install", prefix', "uninstall");
  }

  /** `/install /uninstall` on one command line is refused. */
  lemma BothDirectivesConflict(prefix: string, prefix': string)
    requires IsSwitchPrefix(prefix) && IsSwitchPrefix(prefix')
    ensures Decide(Parse([prefix + "install", prefix' + "uninstall"])) == Err(Error(ConfigurationErrors, ConflictMessage))
  {
    BothDirectivesTable(prefix, prefix');
    DecideOnDirectiveSwitches(map["install" := "true", "uninstall" := "true"]);
  }

  // ---------------------------------------------------------------------------
  // The error policy of Main.
  // ---------------------------------------------------------------------------

  /** How the process ends. */
  datatype Termination =
    | Completed                       // Main returned normally
    | ReportedAndWaited(error: Error) // shown on the console, then Main waited for a key and returned
    | LoggedAndRethrown(error: Error) // logged as fatal, then rethrown out of Main

  /** The catch block of Main. */
  function Terminate(interactive: bool, failure: Option<Error>): (t: Termination)
    ensures failure.None? ==> t == Completed
    ensures t.LoggedAndRethrown? <==> failure.Some? && !interactive
    ensures t.ReportedAndWaited? <==> failure.Some? && interactive
    ensures !t.Completed? ==> t.error == failure.value
  {
    match failure
    case None => Completed
    case Some(e) => if interactive then ReportedAndWaited(e) else LoggedAndRethrown(e)
  }

  // ---------------------------------------------------------------------------
  // The three branches that act.
  // ---------------------------------------------------------------------------

  /** The service name and instance to uninstall: the host type is consulted only without a name. */
  function UninstallTarget(table: ArgumentTable, ctx: ProcessContext): (r: Result<(string, string)>)
    ensures GetString(table, "serviceName", "") != "" ==>
      r == Ok((GetString(table, "serviceName", ""), GetString(table, "instance", "")))
    ensures GetString(table, "serviceName", "") == "" ==>
      var selected := ResolveHostType(GetString(table, "HostType", ""), ctx);
      && (selected.Err? ==> r == Err(selected.error))
      && (selected.Ok? ==> r == Ok((selected.value.fullName, GetString(table, "instance", ""))))
  {
    var serviceName := GetString(table, "serviceName", "");
    var instance := GetString(table, "instance", "");
    if serviceName != "" then Ok((serviceName, instance))
    else
      var hostType :- ResolveHostType(GetString(table, "HostType", ""), ctx);
      Ok((hostType.fullName, instance))
  }

  /** The exception the uninstall branch lets out, if any. */
  function UninstallFailure(table: ArgumentTable, ctx: ProcessContext): (r: Option<Error>)
    ensures UninstallTarget(table, ctx).Err? ==> r == Some(UninstallTarget(table, ctx).error)
    ensures UninstallTarget(table, ctx).Ok? && UninstallTarget(table, ctx).value.0 == "" ==>
      r == Some(Error(General, "ServiceName may not be empty."))
    ensures UninstallTarget(table, ctx).Ok? && UninstallTarget(table, ctx).value.0 != "" ==>
      r == FailureOf(WindowsServiceInstallers.UninstallTransactionOutcome(ctx.installer))
  {
    match UninstallTarget(table, ctx)
    case Err(e) => Some(e)
    case Ok((serviceName, _)) =>
      if serviceName == "" then Some(Error(General, "ServiceName may not be empty."))
      else FailureOf(WindowsServiceInstallers.UninstallTransactionOutcome(ctx.installer))
  }

  /** InstallEntry is what Install writes for the configuration the install branch builds for `hostType`. */
  lemma InstallEntryIsEntryOf(table: ArgumentTable, hostType: TypeInfo, configuration: InstallConfiguration)
    requires configuration.serviceName == InstallServiceName(table, hostType)
    requires configuration.instance == GetString(table, "instance", "")
    requires configuration.displayName == GetString(table, "displayName", "")
    requires configuration.description == GetString(table, "description", "")
    requires configuration.configurationFileName == GetString(table, "configurationFileName", "")
    requires configuration.hostTypeAssemblyQualifiedName == hostType.assemblyQualifiedName
    ensures InstallEntry(table, hostType) == WindowsServiceInstallers.EntryOf(configuration)
  {
  }

  /** What a branch leaves behind: the exception it lets out, if any, and the registry. */
  datatype BranchEffect = BranchEffect(failure: Option<Error>, keys: map<KeyPath, map<string, string>>)

  /**
   * The uninstall branch on values: the exception it lets out, and the registry
   * without the key of the uninstalled service when the branch succeeds.
   */
  function UninstallEffect(table: ArgumentTable, ctx: ProcessContext, keys: map<KeyPath, map<string, string>>): (e: BranchEffect)
    ensures e.failure == UninstallFailure(table, ctx)
    ensures e.failure.Some? ==> e.keys == keys
    ensures e.failure.None? ==>
      && UninstallTarget(table, ctx).Ok?
      && var path := ServiceKeyPath(InstancedName(UninstallTarget(table, ctx).value.0, UninstallTarget(table, ctx).value.1));
      && e.keys.Keys == keys.Keys - {path}
      && (forall p :: p in e.keys ==> e.keys[p] == keys[p])
  {
    match UninstallTarget(table, ctx)
    case Err(error) => BranchEffect(Some(error), keys)
    case Ok((serviceName, instance)) =>
      if serviceName == "" then BranchEffect(Some(Error(General, "ServiceName may not be empty.")), keys)
      else
        match WindowsServiceInstallers.UninstallTransactionOutcome(ctx.installer)
        case Pass => BranchEffect(None, RemovedKeys(keys, InstancedName(serviceName, instance)))
        case Fail(error) => BranchEffect(Some(error), keys)
  }

  /**
   * The uninstall branch: read the configuration, apply the host type when no
   * service name was given, assign the configuration, then uninstall.
   */
  method UninstallBranch(arguments: Arguments, ctx: ProcessContext, statics: StaticConfiguration, registry: Registry)
    returns (failure: Option<Error>)
    modifies statics, registry
    ensures var e := UninstallEffect(arguments.parameters, ctx, old(registry.keys));
      failure == e.failure && registry.keys == e.keys
    ensures statics.installConfiguration == old(statics.installConfiguration)
    ensures UninstallTarget(arguments.parameters, ctx).Err? ==>
      statics.serviceInstallerConfiguration == old(statics.serviceInstallerConfiguration)
    ensures UninstallTarget(arguments.parameters, ctx).Ok? ==>
      var configuration := statics.serviceInstallerConfiguration;
      && configuration != null && fresh(configuration)
      && (configuration.serviceName, configuration.instance) == UninstallTarget(arguments.parameters, ctx).value
      && configuration.serviceAssembly == None
  {
    var configuration := new ServiceInstallerConfiguration.FromArguments(arguments);
    if configuration.HostTypeRequired() {
      var hostType := GetHostType(arguments, ctx);
      if hostType.Err? {
        return Some(hostType.error);
      }
      configuration.ApplyHostType(hostType.value);
    }
    statics.AssignServiceInstaller(configuration);
    var outcome, _ := WindowsServiceInstallers.Uninstall(configuration, ctx, registry);
    return FailureOf(outcome);
  }

  /** The service name the install branch registers: the one given, else the host type's full name. */
  function InstallServiceName(table: ArgumentTable, hostType: TypeInfo): string
  {
    var given := GetString(table, "serviceName", "");
    if given != "" then given else hostType.fullName
  }

  /** What the install branch writes for `hostType`: the configuration read from `table`, named after the type if unnamed. */
  function InstallEntry(table: ArgumentTable, hostType: TypeInfo): WindowsServiceInstallers.ServiceEntry
  {
    var serviceName := InstallServiceName(table, hostType);
    var instance := GetString(table, "instance", "");
    var displayName := DisplayNameOf(GetString(table, "displayName", ""), serviceName, instance);
    WindowsServiceInstallers.ServiceEntry(
      InstancedName(serviceName, instance), DescriptionOf(GetString(table, "description", ""), displayName),
      serviceName, instance, GetString(table, "configurationFileName", ""), hostType.assemblyQualifiedName)
  }

  /**
   * The install branch on values: resolve the host type, check the invariants
   * of the configuration, then run the install transaction. A service that
   * did not exist is registered and its key patched when the framework's steps
   * pass and the Services key exists; a failure leaves the registry as it was
   * when it comes before the framework's Install passes, or when Rollback
   * removes a service that did not exist before.
   */
  function InstallEffect(table: ArgumentTable, ctx: ProcessContext, keys: map<KeyPath, map<string, string>>): (e: BranchEffect)
    ensures var selected := ResolveHostType(GetString(table, "HostType", ""), ctx);
      && (selected.Err? ==> e == BranchEffect(Some(selected.error), keys))
      && ((e.failure.Some? && selected.Ok? && ctx.installer.rollback.None?
             && ServiceKeyPath(InstallEntry(table, selected.value).keyName) !in keys) ==> e.keys == keys)
    ensures e.failure.Some? && ctx.installer.install.Some? ==> e.keys == keys
  {
    match ResolveHostType(GetString(table, "HostType", ""), ctx)
    case Err(error) => BranchEffect(Some(error), keys)
    case Ok(hostType) =>
      match InstallInvariants(InstallServiceName(table, hostType), hostType.fullName, hostType.assemblyQualifiedName)
      case Fail(error) => BranchEffect(Some(error), keys)
      case Pass =>
        var entry := InstallEntry(table, hostType);
        var t := WindowsServiceInstallers.InstallTransactionEffect(
          keys, entry, ctx.installer, entry.keyName, Error(General, WindowsServiceInstallers.MissingKeyMessage(entry.keyName)));
        BranchEffect(FailureOf(t.outcome), t.keys)
  }

  /**
   * The install branch succeeds exactly when the host type resolves to one with
   * both names, the framework's Install and Commit pass and the Services key
   * exists; it then leaves the registry with the service registered and its
   * key patched.
   */
  lemma InstallEffectSucceedsExactly(table: ArgumentTable, ctx: ProcessContext, keys: map<KeyPath, map<string, string>>)
    ensures var selected := ResolveHostType(GetString(table, "HostType", ""), ctx);
      var e := InstallEffect(table, ctx, keys);
      && (e.failure.None? <==>
            && selected.Ok? && selected.value.fullName != "" && selected.value.assemblyQualifiedName != ""
            && ctx.installer.install.None? && ctx.installer.commit.None?
            && WindowsServiceInstallers.ServicesKeyExists(keys))
      && (e.failure.None? ==>
            var entry := InstallEntry(table, selected.value);
            var patched := WindowsServiceInstallers.PatchedRegistry(
                             RegisteredKeys(keys, entry.keyName, ctx.installer.imagePath), entry);
            patched.Ok? && e.keys == patched.value)
  {
    var selected := ResolveHostType(GetString(table, "HostType", ""), ctx);
    if selected.Ok? {
      var entry := InstallEntry(table, selected.value);
      WindowsServiceInstallers.InstallTransactionSucceedsExactly(
        keys, entry, ctx.installer, entry.keyName, Error(General, WindowsServiceInstallers.MissingKeyMessage(entry.keyName)));
      WindowsServiceInstallers.RegisteredKeyOpens(keys, entry.keyName, ctx.installer.imagePath);
    }
  }

  /**
   * The install branch: read the configuration, apply the host type (always
   * needed, as the command line never names both host-type names), assign the
   * configuration, then install.
   */
  method InstallBranch(arguments: Arguments, ctx: ProcessContext, statics: StaticConfiguration, registry: Registry)
    returns (failure: Option<Error>)
    modifies statics, registry
    ensures var e := InstallEffect(arguments.parameters, ctx, old(registry.keys));
      failure == e.failure && registry.keys == e.keys
    ensures statics.serviceInstallerConfiguration == old(statics.serviceInstallerConfiguration)
    ensures var selected := ResolveHostType(GetString(arguments.parameters, "HostType", ""), ctx);
      && (selected.Err? ==>
            && failure == Some(selected.error)
            && statics.installConfiguration == old(statics.installConfiguration)
            && registry.keys == old(registry.keys))
      && (selected.Ok? ==>
            var configuration := statics.installConfiguration;
            var given := GetString(arguments.parameters, "serviceName", "");
            && configuration != null && fresh(configuration)
            && configuration.serviceName == (if given != "" then given else selected.value.fullName)
            && configuration.instance == GetString(arguments.parameters, "instance", "")
            && configuration.displayName == GetString(arguments.parameters, "displayName", "")
            && configuration.description == GetString(arguments.parameters, "description", "")
            && configuration.configurationFileName == GetString(arguments.parameters, "configurationFileName", "")
            && configuration.hostTypeFullName == selected.value.fullName
            && configuration.hostTypeAssemblyQualifiedName == selected.value.assemblyQualifiedName
            && configuration.userName == "" && configuration.password == "" && !configuration.startManually
            && configuration.serviceAssembly == None
            && (configuration.ApplyInvariants().Fail? ==>
                  failure == FailureOf(configuration.ApplyInvariants()) && registry.keys == old(registry.keys))
            && (configuration.ApplyInvariants() == Pass ==>
                  var e := WindowsServiceInstallers.InstallTransactionEffect(
                    old(registry.keys), WindowsServiceInstallers.EntryOf(configuration), ctx.installer,
                    configuration.InstancedServiceName(), Error(General, WindowsServiceInstallers.MissingKeyMessage(configuration.InstancedServiceName())));
                  failure == FailureOf(e.outcome) && registry.keys == e.keys))
  {
    ghost var keys := registry.keys;
    var configuration := new InstallConfiguration.FromArguments(arguments);
    if configuration.HostTypeRequired() {
      var hostType := GetHostType(arguments, ctx);
      if hostType.Err? {
        return Some(hostType.error);
      }
      configuration.ApplyHostType(hostType.value);
      InstallEntryIsEntryOf(arguments.parameters, hostType.value, configuration);
    }
    statics.AssignInstall(configuration);
    var outcome, _ := WindowsServiceInstallers.Install(configuration, ctx, registry);
    failure := FailureOf(outcome);
    ghost var e := InstallEffect(arguments.parameters, ctx, keys);
    assert failure == e.failure && registry.keys == e.keys;
  }

  /** The exception the run branch lets out: RunService swallows its own when interactive. */
  function RunFailure(table: ArgumentTable, ctx: ProcessContext, configuration: HostRuntime.HostServiceConfiguration,
                      reset: Outcome, run: Outcome): (r: Option<Error>)
    ensures CreateHost(GetString(table, "HostType", ""), ctx).Err? ==>
      r == Some(CreateHost(GetString(table, "HostType", ""), ctx).error)
    ensures CreateHost(GetString(table, "HostType", ""), ctx).Ok? && ctx.interactive ==> r.None?
    ensures CreateHost(GetString(table, "HostType", ""), ctx).Ok? && !ctx.interactive ==>
      r == HostRuntime.RunServiceFailure(ctx, CreateHost(GetString(table, "HostType", ""), ctx).value, configuration, reset, run)
  {
    match CreateHost(GetString(table, "HostType", ""), ctx)
    case Err(e) => Some(e)
    case Ok(host) =>
      if ctx.interactive then None
      else HostRuntime.RunServiceFailure(ctx, host, configuration, reset, run)
  }

  /**
   * The run branch: create the workload and run it. The HostServiceConfiguration
   * built from the host and the arguments is given as `configuration`; `reset`
   * and `run` are the outcomes of the configuration reset and of the run itself.
   */
  method RunBranch(arguments: Arguments, ctx: ProcessContext, configuration: HostRuntime.HostServiceConfiguration,
                   reset: Outcome, run: Outcome) returns (failure: Option<Error>)
    ensures failure == RunFailure(arguments.parameters, ctx, configuration, reset, run)
  {
    var host := Create(arguments, ctx);
    if host.Err? {
      return Some(host.error);
    }
    var runner := new HostRuntime.Host();
    var result := runner.RunService(Some(host.value), Some(configuration), ctx, reset, run);
    if result.Err? {
      return Some(result.error);
    }
    return None;
  }

  // ---------------------------------------------------------------------------
  // Main.
  // ---------------------------------------------------------------------------

  /**
   * Main: the parsed command line picks the branch; help and a conflict change
   * nothing; the exception a branch lets out meets the error policy.
   */
  method Launch(args: seq<string>, ctx: ProcessContext, configuration: HostRuntime.HostServiceConfiguration,
                reset: Outcome, run: Outcome, statics: StaticConfiguration, registry: Registry)
    returns (t: Termination)
    modifies statics, registry
    ensures var directive := Decide(Parse(args));
      && (directive.Err? ==> t == Terminate(ctx.interactive, Some(directive.error)))
      && (directive == Ok(ShowHelp) ==> t == Completed)
      && (directive.Err? || directive == Ok(ShowHelp) || directive == Ok(RunHost) ==>
            && statics.installConfiguration == old(statics.installConfiguration)
            && statics.serviceInstallerConfiguration == old(statics.serviceInstallerConfiguration)
            && registry.keys == old(registry.keys))
      && (directive == Ok(UninstallService) ==>
            var e := UninstallEffect(Parse(args), ctx, old(registry.keys));
            && t == Terminate(ctx.interactive, e.failure)
            && registry.keys == e.keys
            && statics.installConfiguration == old(statics.installConfiguration))
      && (directive == Ok(InstallService) ==>
            var e := InstallEffect(Parse(args), ctx, old(registry.keys));
            && t == Terminate(ctx.interactive, e.failure)
            && registry.keys == e.keys
            && statics.serviceInstallerConfiguration == old(statics.serviceInstallerConfiguration))
      && (directive == Ok(RunHost) ==>
            t == Terminate(ctx.interactive, RunFailure(Parse(args), ctx, configuration, reset, run)))
  {
    ghost var keys := registry.keys;
    var arguments := new Arguments(args);
    var help := arguments.ShouldShowHelp();
    if help.Err? {
      return Terminate(ctx.interactive, Some(help.error));
    }
    if help.value {
      return Completed;
    }
    var install := arguments.Get("install", "");
    var uninstall := arguments.Get("uninstall", "");
    if install != "" && uninstall != "" {
      return Terminate(ctx.interactive, Some(Error(ConfigurationErrors, ConflictMessage)));
    }
    var failure: Option<Error>;
    if uninstall != "" {
      assert Decide(Parse(args)) == Ok(UninstallService);
      failure := UninstallBranch(arguments, ctx, statics, registry);
      assert failure == UninstallEffect(Parse(args), ctx, keys).failure && registry.keys == UninstallEffect(Parse(args), ctx, keys).keys;
    } else if install != "" {
      assert Decide(Parse(args)) == Ok(InstallService);
      failure := InstallBranch(arguments, ctx, statics, registry);
      assert failure == InstallEffect(Parse(args), ctx, keys).failure && registry.keys == InstallEffect(Parse(args), ctx, keys).keys;
    } else {
      assert Decide(Parse(args)) == Ok(RunHost);
      failure := RunBranch(arguments, ctx, configuration, reset, run);
      assert failure == RunFailure(Parse(args), ctx, configuration, reset, run) && registry.keys == keys;
    }
    return Terminate(ctx.interactive, failure);
  }
}
