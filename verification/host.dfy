/**
 * The host runtime (Host): where the workload's configuration file is looked
 * for, the error policy around running the workload, and the static
 * install/uninstall path that patches the service key found under the plain
 * service name.
 */
module HostRuntime {
  import opened Common
  import opened Platform
  import opened WindowsServiceInstallers
  import opened ServiceInstallerConfigurations

  /** The values an IHostServiceConfiguration supplies. */
  datatype HostServiceConfiguration = HostServiceConfiguration(
    hostTypeAssemblyQualifiedName: string,
    configurationFileName: string,
    serviceName: string,
    displayName: string,
    description: string,
    instance: string,
    userName: string,
    password: string,
    startManually: bool)

  // ---------------------------------------------------------------------------
  // The configuration file of the workload.
  // ---------------------------------------------------------------------------

  predicate IsDirectorySeparator(c: char)
  {
    c == '\\' || c == '/'
  }

  /** Path.IsPathRooted: a leading separator or a drive letter and colon. */
  predicate IsPathRooted(path: string)
  {
    (|path| >= 1 && IsDirectorySeparator(path[0])) || (|path| >= 2 && path[1] == ':')
  }

  /** Path.Combine of two paths. */
  function CombinePath(path1: string, path2: string): (r: string)
    ensures path2 == "" ==> r == path1
    ensures path2 != "" ==> |r| >= |path2| && r[|r| - |path2|..] == path2
    ensures path2 != "" && (path1 == "" || IsPathRooted(path2)) ==> r == path2
    ensures path1 != "" && path2 != "" && !IsPathRooted(path2) ==>
      |r| > |path1| && r[..|path1|] == path1
      && (r == path1 + path2 || r == path1 + "\\" + path2)
  {
    if path2 == "" then path1
    else if path1 == "" then path2
    else if IsPathRooted(path2) then path2
    else
      var last := path1[|path1| - 1];
      if !IsDirectorySeparator(last) && last != ':' then path1 + "\\" + path2
      else path1 + path2
  }

  /** The file the workload reads its configuration from, relative to the base directory. */
  function ConfigurationFileNameFor(hostType: TypeInfo, configuration: HostServiceConfiguration): (r: string)
    ensures r != ""
    ensures configuration.configurationFileName != "" ==> r == configuration.configurationFileName
    ensures configuration.configurationFileName == "" ==> r == hostType.manifestModuleName + ".config"
  {
    if configuration.configurationFileName != "" then configuration.configurationFileName
    else hostType.manifestModuleName + ".config"
  }

  /** GetHostConfigurationFile: the chosen file name, under the base directory unless rooted. */
  function GetHostConfigurationFile(baseDirectory: string, host: HostInstance, configuration: HostServiceConfiguration): (r: string)
    ensures var name := ConfigurationFileNameFor(host.hostType, configuration);
      && |r| >= |name| && r[|r| - |name|..] == name
      && (baseDirectory != "" && !IsPathRooted(name) ==> |r| > |baseDirectory| && r[..|baseDirectory|] == baseDirectory)
  {
    CombinePath(baseDirectory, ConfigurationFileNameFor(host.hostType, configuration))
  }

  // ---------------------------------------------------------------------------
  // RunService.
  // ---------------------------------------------------------------------------

  /** How the workload was run: under the service control manager or in the console. */
  datatype RunMode = AsService | InConsole

  /** How RunService returned: after running the workload, or after reporting its failure. */
  datatype RunOutcome = Ran(mode: RunMode) | Reported(error: Error)

  function MissingConfigurationMessage(configurationFile: string): string
  {
    "Cannot find host configuration file '" + configurationFile + "'"
  }

  /**
   * The first failure inside the try block of RunService: the missing
   * configuration file, then the configuration reset, then the run itself.
   */
  function RunServiceFailure(ctx: ProcessContext, host: HostInstance, configuration: HostServiceConfiguration,
                             reset: Outcome, run: Outcome): (r: Option<Error>)
    ensures GetHostConfigurationFile(ctx.baseDirectory, host, configuration) !in ctx.existingFiles ==>
      r == Some(Error(Application, MissingConfigurationMessage(GetHostConfigurationFile(ctx.baseDirectory, host, configuration))))
    ensures r.None? <==>
      GetHostConfigurationFile(ctx.baseDirectory, host, configuration) in ctx.existingFiles && reset == Pass && run == Pass
  {
    var configurationFile := GetHostConfigurationFile(ctx.baseDirectory, host, configuration);
    if configurationFile !in ctx.existingFiles then Some(Error(Application, MissingConfigurationMessage(configurationFile)))
    else if reset.Fail? then Some(reset.error)
    else if run.Fail? then Some(run.error)
    else None
  }

  class Host {
    var runServiceException: bool

    constructor ()
      ensures !runServiceException
    {
      runServiceException := false;
    }

    /**
     * RunService: the null guards sit outside the try block; inside it, a
     * failure is reported and remembered when interactive, and rethrown otherwise.
     * `reset` is the outcome of the configuration reset and `run` that of
     * running the workload (ServiceBase.Run, or the console loop).
     */
    method RunService(host: Option<HostInstance>, configuration: Option<HostServiceConfiguration>,
                      ctx: ProcessContext, reset: Outcome, run: Outcome) returns (r: Result<RunOutcome>)
      modifies this
      ensures host.None? ==> r == Err(Error(ArgumentNull, "host")) && runServiceException == old(runServiceException)
      ensures host.Some? && configuration.None? ==>
        r == Err(Error(ArgumentNull, "hostServiceConfiguration")) && runServiceException == old(runServiceException)
      ensures host.Some? && configuration.Some? ==>
        var failure := RunServiceFailure(ctx, host.value, configuration.value, reset, run);
        && (failure.None? ==>
              r == Ok(Ran(if ctx.interactive then InConsole else AsService)) && runServiceException == old(runServiceException))
        && (failure.Some? && ctx.interactive ==> r == Ok(Reported(failure.value)) && runServiceException)
        && (failure.Some? && !ctx.interactive ==> r == Err(failure.value) && runServiceException == old(runServiceException))
    {
      if host.None? {
        return Err(Error(ArgumentNull, "host"));
      }
      if configuration.None? {
        return Err(Error(ArgumentNull, "hostServiceConfiguration"));
      }
      var failure: Option<Error> := None;
      var mode := AsService;
      var configurationFile := GetHostConfigurationFile(ctx.baseDirectory, host.value, configuration.value);
      if configurationFile !in ctx.existingFiles {
        failure := Some(Error(Application, MissingConfigurationMessage(configurationFile)));
      } else if reset.Fail? {
        failure := Some(reset.error);
      } else {
        mode := if !ctx.interactive then AsService else InConsole;
        if run.Fail? {
          failure := Some(run.error);
        }
      }
      if failure.Some? {
        if ctx.interactive {
          runServiceException := true;
          return Ok(Reported(failure.value));
        }
        return Err(failure.value);
      }
      return Ok(Ran(mode));
    }
  }

  // ---------------------------------------------------------------------------
  // The static Install and Uninstall.
  // ---------------------------------------------------------------------------

  const RegistryValuesMessage := "Could not set registry values for the service."

  /** What the static Install writes: the key is the plain service name. */
  function EntryFor(configuration: HostServiceConfiguration): (e: ServiceEntry)
    ensures e.keyName == configuration.serviceName && e.serviceName == configuration.serviceName
    ensures e.description == configuration.description && e.instance == configuration.instance
    ensures e.configurationFileName == configuration.configurationFileName
    ensures e.hostType == configuration.hostTypeAssemblyQualifiedName
  {
    ServiceEntry(configuration.serviceName, configuration.description, configuration.serviceName,
                 configuration.instance, configuration.configurationFileName, configuration.hostTypeAssemblyQualifiedName)
  }

  /**
   * The nested key lookups of the static Install with their `ok` flag, and the
   * two SetValue calls when every key is there.
   */
  method SetServiceValues(configuration: HostServiceConfiguration, registry: Registry) returns (failure: Option<Error>)
    modifies registry
    ensures var patched := PatchedRegistry(old(registry.keys), EntryFor(configuration));
      && (patched.Err? ==>
            failure == Some(Error(ConfigurationErrors, RegistryValuesMessage)) && registry.keys == old(registry.keys))
      && (patched.Ok? ==> failure == None && registry.keys == patched.value)
  {
    var ok := true;
    var path := ServiceKeyPath(configuration.serviceName);
    if path[..1] in registry.keys {
      if path[..2] in registry.keys {
        if path[..3] in registry.keys {
          if path in registry.keys {
            registry.SetValue(path, "Description", configuration.description);
            var previous := ValueText(registry.keys[path], "ImagePath");
            registry.SetValue(path, "ImagePath",
              ImagePath(previous, configuration.serviceName, configuration.instance,
                        configuration.configurationFileName, configuration.hostTypeAssemblyQualifiedName));
          } else {
            ok := false;
          }
        } else {
          ok := false;
        }
      } else {
        ok := false;
      }
    } else {
      ok := false;
    }
    if !ok {
      return Some(Error(ConfigurationErrors, RegistryValuesMessage));
    }
    return None;
  }

  /**
   * The static Install: the installer of the host assembly runs Install and
   * Commit, then the service key found under the plain service name is
   * patched; a failure rolls back and is rethrown. There are no invariant
   * checks. `registeredName` is the service name the framework's installers
   * register: the instanced name of the configuration assigned to
   * HostServiceInstaller, which this method does not assign.
   */
  method Install(configuration: HostServiceConfiguration, ctx: ProcessContext, registeredName: string, registry: Registry)
    returns (r: Outcome, installer: AssemblyInstaller)
    modifies registry
    ensures fresh(installer) && installer.assembly == ctx.hostAssembly && installer.behaviour == ctx.installer
    ensures installer.useNewContext && installer.serviceName == registeredName
    ensures var e := InstallTransactionEffect(old(registry.keys), EntryFor(configuration), ctx.installer, registeredName,
                                              Error(ConfigurationErrors, RegistryValuesMessage));
      r == e.outcome && registry.keys == e.keys && installer.steps == e.steps
  {
    ghost var keys := registry.keys;
    ghost var e := InstallTransactionEffect(keys, EntryFor(configuration), ctx.installer, registeredName,
                                            Error(ConfigurationErrors, RegistryValuesMessage));
    installer := new AssemblyInstaller(ctx.hostAssembly, ctx.installer, registeredName);
    installer.useNewContext := true;
    var step := installer.Install(registry);
    if step.Fail? {
      var rollback := installer.Rollback(registry);
      StepsAppendInOrder([], InstallStep, RollbackStep, RollbackStep);
      assert registry.keys == keys;
      return FailureAfterRollback(ctx.installer, step.error), installer;
    }
    ghost var registered := registry.keys;
    assert registered == RegisteredKeys(keys, registeredName, ctx.installer.imagePath);
    step := installer.Commit();
    StepsAppendInOrder([], InstallStep, CommitStep, RollbackStep);
    if step.Fail? {
      var rollback := installer.Rollback(registry);
      assert registry.keys == e.keys;
      return FailureAfterRollback(ctx.installer, step.error), installer;
    }
    var failure := SetServiceValues(configuration, registry);
    if failure.Some? {
      var rollback := installer.Rollback(registry);
      assert registry.keys == e.keys;
      return FailureAfterRollback(ctx.installer, failure.value), installer;
    }
    assert e.keys == PatchedRegistry(registered, EntryFor(configuration)).value;
    assert registry.keys == e.keys;
    r := Pass;
  }

  /**
   * The static Install looks the key up under the plain service name: when the
   * framework registers an instanced name and no key of the plain name exists,
   * the install fails with the registry-values error and, when Rollback
   * succeeds, the registered service is removed again.
   */
  lemma InstancedStaticInstallFails(configuration: HostServiceConfiguration, keys: map<KeyPath, map<string, string>>,
                                    behaviour: InstallerBehaviour)
    requires configuration.instance != ""
    requires behaviour.install.None? && behaviour.commit.None? && behaviour.rollback.None?
    requires ServiceKeyPath(configuration.serviceName) !in keys
    requires ServiceKeyPath(InstancedName(configuration.serviceName, configuration.instance)) !in keys
    ensures var e := InstallTransactionEffect(keys, EntryFor(configuration), behaviour,
                                              InstancedName(configuration.serviceName, configuration.instance),
                                              Error(ConfigurationErrors, RegistryValuesMessage));
      e.outcome == Fail(Error(ConfigurationErrors, RegistryValuesMessage)) && e.keys == keys
  {
    var registeredName := InstancedName(configuration.serviceName, configuration.instance);
    assert ServiceKeyPath(configuration.serviceName) != ServiceKeyPath(registeredName) by {
      assert ServiceKeyPath(configuration.serviceName)[3] != ServiceKeyPath(registeredName)[3];
    }
  }

  /**
   * The static Uninstall: Uninstall, and on failure Rollback and rethrow. A
   * successful Uninstall deletes the key of the service the framework's
   * installers name, `registeredName`.
   */
  method Uninstall(configuration: HostServiceConfiguration, ctx: ProcessContext, registeredName: string, registry: Registry)
    returns (r: Outcome, installer: AssemblyInstaller)
    modifies registry
    ensures fresh(installer) && installer.assembly == ctx.hostAssembly && installer.behaviour == ctx.installer
    ensures installer.useNewContext && installer.serviceName == registeredName
    ensures r == UninstallTransactionOutcome(ctx.installer)
    ensures installer.steps == (if r == Pass then [UninstallStep] else [UninstallStep, RollbackStep])
    ensures registry.keys == if r == Pass then RemovedKeys(old(registry.keys), registeredName) else old(registry.keys)
  {
    installer := new AssemblyInstaller(ctx.hostAssembly, ctx.installer, registeredName);
    installer.useNewContext := true;
    r := installer.Uninstall(registry);
    if r.Fail? {
      var rollback := installer.Rollback(registry);
      r := FailureAfterRollback(ctx.installer, r.error);
    }
  }
}
