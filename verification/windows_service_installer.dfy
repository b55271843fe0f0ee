/**
 * Installation and removal of the Windows service (WindowsServiceInstaller):
 * the invariants are checked first, then the framework installer runs, and on
 * install the service's registry key gets a description and an ImagePath that
 * starts the host with the same configuration; a failure rolls back and is
 * rethrown.
 */
module WindowsServiceInstallers {
  import opened Common
  import opened CommandLine
  import opened Platform
  import opened ServiceInstallerConfigurations
  import opened InstallConfigurations

  // ---------------------------------------------------------------------------
  // The registry key of a service.
  // ---------------------------------------------------------------------------

  /** Every key on the way from the hive to the service key exists. */
  predicate ServiceKeyChainExists(keys: map<KeyPath, map<string, string>>, serviceName: string)
  {
    && ServiceKeyPath(serviceName)[..1] in keys
    && ServiceKeyPath(serviceName)[..2] in keys
    && ServiceKeyPath(serviceName)[..3] in keys
    && ServiceKeyPath(serviceName) in keys
  }

  function MissingKeyMessage(serviceName: string): string
  {
    "Could not get registry key for service '" + serviceName + "'."
  }

  /** GetServiceKey: opens System, CurrentControlSet, Services and the service, one after the other. */
  function GetServiceKey(keys: map<KeyPath, map<string, string>>, serviceName: string): (r: Result<KeyPath>)
    ensures r.Ok? <==> ServiceKeyChainExists(keys, serviceName)
    ensures r.Ok? ==> r.value == ServiceKeyPath(serviceName) && r.value in keys
    ensures r.Err? ==> r.error == Error(General, MissingKeyMessage(serviceName))
  {
    var system := ["System"];
    var currentControlSet := system + ["CurrentControlSet"];
    var services := currentControlSet + ["Services"];
    var service := services + [serviceName];
    assert service == ServiceKeyPath(serviceName);
    assert service[..1] == system && service[..2] == currentControlSet && service[..3] == services;
    if system in keys && currentControlSet in keys && services in keys && service in keys then Ok(service)
    else Err(Error(General, MissingKeyMessage(serviceName)))
  }

  // ---------------------------------------------------------------------------
  // The ImagePath of the installed service.
  // ---------------------------------------------------------------------------

  /** The switches appended to the ImagePath, in order; empty ones are left out. */
  function ImagePathSwitches(serviceName: string, instance: string, configurationFileName: string, hostType: string): seq<(string, string)>
  {
    [("serviceName", serviceName)]
    + (if instance == "" then [] else [("instance", instance)])
    + (if configurationFileName == "" then [] else [("configurationFileName", configurationFileName)])
    + [("hostType", hostType)]
  }

  lemma JoinOfTwo(a: string, b: string)
    ensures Join(" ", [a, b]) == a + " " + b
  {
    assert [a, b][1..] == [b];
  }

  lemma JoinOfThree(a: string, b: string, c: string)
    ensures Join(" ", [a, b, c]) == a + " " + b + " " + c
  {
    assert [a, b, c][1..] == [b, c];
    JoinOfTwo(b, c);
  }

  lemma JoinOfFour(a: string, b: string, c: string, d: string)
    ensures Join(" ", [a, b, c, d]) == a + " " + b + " " + c + " " + d
  {
    assert [a, b, c, d][1..] == [b, c, d];
    JoinOfThree(b, c, d);
  }

  /** The new ImagePath: the old one, then the switches of the service, space-separated. */
  function ImagePath(previous: string, serviceName: string, instance: string, configurationFileName: string, hostType: string): (r: string)
    ensures r == previous + " " + Join(" ", SwitchTokens(ImagePathSwitches(serviceName, instance, configurationFileName, hostType)))
  {
    var tokens := SwitchTokens(ImagePathSwitches(serviceName, instance, configurationFileName, hostType));
    var first := SwitchToken("serviceName", serviceName);
    var last := SwitchToken("hostType", hostType);
    var instanceToken := SwitchToken("instance", instance);
    var fileToken := SwitchToken("configurationFileName", configurationFileName);
    if instance == "" && configurationFileName == "" then
      assert tokens == [first, last];
      JoinOfTwo(first, last);
      previous + " " + (first + " " + last)
    else if configurationFileName == "" then
      assert tokens == [first, instanceToken, last];
      JoinOfThree(first, instanceToken, last);
      previous + " " + (first + " " + instanceToken + " " + last)
    else if instance == "" then
      assert tokens == [first, fileToken, last];
      JoinOfThree(first, fileToken, last);
      previous + " " + (first + " " + fileToken + " " + last)
    else
      assert tokens == [first, instanceToken, fileToken, last];
      JoinOfFour(first, instanceToken, fileToken, last);
      previous + " " + (first + " " + instanceToken + " " + fileToken + " " + last)
  }

  /** The table the switches of the ImagePath parse into when the service starts. */
  function ImagePathTable(serviceName: string, instance: string, configurationFileName: string, hostType: string): ArgumentTable
  {
    Parse(SwitchTokens(ImagePathSwitches(serviceName, instance, configurationFileName, hostType)))
  }

  lemma ImagePathSwitchesWellFormed(serviceName: string, instance: string, configurationFileName: string, hostType: string)
    requires NoLineBreak(serviceName) && NoLineBreak(instance) && NoLineBreak(configurationFileName) && NoLineBreak(hostType)
    ensures WellFormedSwitches(ImagePathSwitches(serviceName, instance, configurationFileName, hostType))
  {
    var switches := ImagePathSwitches(serviceName, instance, configurationFileName, hostType);
    assert IsSwitchName("/", "serviceName") && IsSwitchName("/", "instance")
      && IsSwitchName("/", "configurationFileName") && IsSwitchName("/", "hostType");
    NamesDistinctByFirstLetter(switches);
  }

  lemma ImagePathServiceName(serviceName: string, instance: string, configurationFileName: string, hostType: string)
    requires NoLineBreak(serviceName) && NoLineBreak(instance) && NoLineBreak(configurationFileName) && NoLineBreak(hostType)
    ensures GetString(ImagePathTable(serviceName, instance, configurationFileName, hostType), "serviceName", "") == serviceName
  {
    ImagePathSwitchesWellFormed(serviceName, instance, configurationFileName, hostType);
    GetOfSwitchTokens(ImagePathSwitches(serviceName, instance, configurationFileName, hostType), 0, "");
  }

  lemma ImagePathInstance(serviceName: string, instance: string, configurationFileName: string, hostType: string)
    requires NoLineBreak(serviceName) && NoLineBreak(instance) && NoLineBreak(configurationFileName) && NoLineBreak(hostType)
    ensures GetString(ImagePathTable(serviceName, instance, configurationFileName, hostType), "instance", "") == instance
  {
    var switches := ImagePathSwitches(serviceName, instance, configurationFileName, hostType);
    ImagePathSwitchesWellFormed(serviceName, instance, configurationFileName, hostType);
    if instance != "" {
      GetOfSwitchTokens(switches, 1, "");
    } else {
      assert Lower("instance")[0] == 'i';
      GetOfMissingSwitch(switches, "instance", "");
    }
  }

  lemma ImagePathConfigurationFile(serviceName: string, instance: string, configurationFileName: string, hostType: string)
    requires NoLineBreak(serviceName) && NoLineBreak(instance) && NoLineBreak(configurationFileName) && NoLineBreak(hostType)
    ensures GetString(ImagePathTable(serviceName, instance, configurationFileName, hostType), "configurationFileName", "") == configurationFileName
  {
    var switches := ImagePathSwitches(serviceName, instance, configurationFileName, hostType);
    ImagePathSwitchesWellFormed(serviceName, instance, configurationFileName, hostType);
    if configurationFileName != "" {
      GetOfSwitchTokens(switches, |switches| - 2, "");
    } else {
      assert Lower("configurationFileName")[0] == 'c';
      GetOfMissingSwitch(switches, "configurationFileName", "");
    }
  }

  lemma ImagePathHostType(serviceName: string, instance: string, configurationFileName: string, hostType: string)
    requires NoLineBreak(serviceName) && NoLineBreak(instance) && NoLineBreak(configurationFileName) && NoLineBreak(hostType)
    ensures GetString(ImagePathTable(serviceName, instance, configurationFileName, hostType), "HostType", "") == hostType
  {
    var switches := ImagePathSwitches(serviceName, instance, configurationFileName, hostType);
    ImagePathSwitchesWellFormed(serviceName, instance, configurationFileName, hostType);
    assert Lower("HostType") == Lower("hostType");
    GetOfSwitchTokens(switches, |switches| - 1, "");
  }

  /**
   * When the service starts, its ImagePath switches parse back to the service
   * name, instance, configuration file and host type that were installed; the
   * host type is the one HostFactory reads, so no scan is needed.
   */
  lemma ImagePathRoundTrip(serviceName: string, instance: string, configurationFileName: string, hostType: string)
    requires NoLineBreak(serviceName) && NoLineBreak(instance) && NoLineBreak(configurationFileName) && NoLineBreak(hostType)
    ensures GetString(ImagePathTable(serviceName, instance, configurationFileName, hostType), "serviceName", "") == serviceName
    ensures GetString(ImagePathTable(serviceName, instance, configurationFileName, hostType), "instance", "") == instance
    ensures GetString(ImagePathTable(serviceName, instance, configurationFileName, hostType), "configurationFileName", "") == configurationFileName
    ensures GetString(ImagePathTable(serviceName, instance, configurationFileName, hostType), "HostType", "") == hostType
  {
    ImagePathServiceName(serviceName, instance, configurationFileName, hostType);
    ImagePathInstance(serviceName, instance, configurationFileName, hostType);
    ImagePathConfigurationFile(serviceName, instance, configurationFileName, hostType);
    ImagePathHostType(serviceName, instance, configurationFileName, hostType);
  }

  /** The service key after both values are set. */
  function PatchedServiceValues(values: map<string, string>, description: string, imagePath: string): (r: map<string, string>)
    ensures r.Keys == values.Keys + {"Description", "ImagePath"}
    ensures r["Description"] == description && r["ImagePath"] == imagePath
    ensures forall name :: name in values && name != "Description" && name != "ImagePath" ==> r[name] == values[name]
  {
    values["Description" := description]["ImagePath" := imagePath]
  }

  // ---------------------------------------------------------------------------
  // Install and Uninstall.
  // ---------------------------------------------------------------------------

  /** `ServiceAssembly ?? typeof(Host).Assembly`. */
  function TargetAssembly(serviceAssembly: Option<AssemblyRef>, hostAssembly: AssemblyRef): (r: AssemblyRef)
    ensures serviceAssembly.Some? ==> r == serviceAssembly.value
    ensures serviceAssembly.None? ==> r == hostAssembly
  {
    match serviceAssembly
    case Some(assembly) => assembly
    case None => hostAssembly
  }

  /** The error that Install or Uninstall lets out after Rollback. */
  function FailureAfterRollback(behaviour: InstallerBehaviour, caught: Error): (r: Outcome)
    ensures r.Fail?
    ensures behaviour.rollback.None? ==> r.error == caught
    ensures behaviour.rollback.Some? ==> r.error == behaviour.rollback.value
  {
    Fail(Rethrown(behaviour, caught))
  }

  /** What Install writes to the registry, read from the configuration once it is valid. */
  datatype ServiceEntry = ServiceEntry(
    keyName: string,               // the instanced service name
    description: string,
    serviceName: string,
    instance: string,
    configurationFileName: string,
    hostType: string)              // the assembly-qualified name of the host type

  function EntryOf(configuration: InstallConfiguration): (e: ServiceEntry)
    reads configuration
    ensures e.keyName == InstancedName(configuration.serviceName, configuration.instance)
    ensures e.description == configuration.Description()
    ensures e.serviceName == configuration.serviceName && e.instance == configuration.instance
    ensures e.configurationFileName == configuration.configurationFileName
    ensures e.hostType == configuration.hostTypeAssemblyQualifiedName
  {
    ServiceEntry(configuration.InstancedServiceName(), configuration.Description(), configuration.serviceName,
                 configuration.instance, configuration.configurationFileName, configuration.hostTypeAssemblyQualifiedName)
  }

  /** The registry after the service key is patched for `entry`, or the error of the key lookup. */
  function PatchedRegistry(keys: map<KeyPath, map<string, string>>, entry: ServiceEntry): (r: Result<map<KeyPath, map<string, string>>>)
    ensures r.Err? <==> !ServiceKeyChainExists(keys, entry.keyName)
    ensures r.Err? ==> r.error == Error(General, MissingKeyMessage(entry.keyName))
  {
    var key := GetServiceKey(keys, entry.keyName);
    if key.Err? then Err(key.error)
    else
      var values := keys[key.value];
      Ok(keys[key.value := PatchedServiceValues(values, entry.description,
        ImagePath(ValueText(values, "ImagePath"), entry.serviceName, entry.instance,
                  entry.configurationFileName, entry.hostType))])
  }

  /**
   * A successful patch changes only the service key: its Description becomes
   * the entry's description and its ImagePath gains the switches.
   */
  lemma PatchedRegistryTouchesOnlyTheServiceKey(keys: map<KeyPath, map<string, string>>, entry: ServiceEntry)
    requires PatchedRegistry(keys, entry).Ok?
    ensures var patched := PatchedRegistry(keys, entry).value;
      var path := ServiceKeyPath(entry.keyName);
      && path in keys && patched.Keys == keys.Keys
      && (forall p :: p in keys && p != path ==> patched[p] == keys[p])
      && patched[path].Keys == keys[path].Keys + {"Description", "ImagePath"}
      && patched[path]["Description"] == entry.description
      && patched[path]["ImagePath"] == ImagePath(ValueText(keys[path], "ImagePath"),
           entry.serviceName, entry.instance, entry.configurationFileName, entry.hostType)
      && (forall name :: name in keys[path] && name != "Description" && name != "ImagePath" ==>
            patched[path][name] == keys[path][name])
  {
  }

  /** GetServiceKey and the two SetValue calls on the key. */
  method PatchServiceKey(entry: ServiceEntry, registry: Registry) returns (failure: Option<Error>)
    modifies registry
    ensures var patched := PatchedRegistry(old(registry.keys), entry);
      && (patched.Err? ==> failure == Some(patched.error) && registry.keys == old(registry.keys))
      && (patched.Ok? ==> failure == None && registry.keys == patched.value)
  {
    var key := GetServiceKey(registry.keys, entry.keyName);
    if key.Err? {
      return Some(key.error);
    }
    registry.SetValue(key.value, "Description", entry.description);
    var previous := ValueText(registry.keys[key.value], "ImagePath");
    registry.SetValue(key.value, "ImagePath",
      ImagePath(previous, entry.serviceName, entry.instance, entry.configurationFileName, entry.hostType));
    return None;
  }

  /** The Services key and the keys above it exist, so a registered service's key can be opened. */
  predicate ServicesKeyExists(keys: map<KeyPath, map<string, string>>)
  {
    ["System"] in keys && ["System", "CurrentControlSet"] in keys && ["System", "CurrentControlSet", "Services"] in keys
  }

  /** Once the service is registered, its key can be opened exactly when the Services key exists. */
  lemma RegisteredKeyOpens(keys: map<KeyPath, map<string, string>>, serviceName: string, imagePath: string)
    ensures ServiceKeyChainExists(RegisteredKeys(keys, serviceName, imagePath), serviceName) <==> ServicesKeyExists(keys)
  {
    var path := ServiceKeyPath(serviceName);
    assert path[..1] == ["System"] && path[..2] == ["System", "CurrentControlSet"];
    assert path[..3] == ["System", "CurrentControlSet", "Services"];
  }

  /** What an install transaction leaves behind: its outcome, the registry and the installer's steps. */
  datatype TransactionEffect = TransactionEffect(
    outcome: Outcome,
    keys: map<KeyPath, map<string, string>>,
    steps: seq<InstallerStep>)

  /**
   * `try { Install; Commit; <patch the service key> } catch { Rollback; throw; }`
   * for an installer that registers `registeredName`: the service key is
   * looked up in the registry as Install left it, and the first failure
   * (`keyError` when the key is missing) is rethrown after Rollback, which
   * deletes the registered service again when it succeeds.
   */
  function InstallTransactionEffect(keys: map<KeyPath, map<string, string>>, entry: ServiceEntry,
                                    behaviour: InstallerBehaviour, registeredName: string, keyError: Error): (e: TransactionEffect)
    ensures behaviour.install.Some? ==> e.outcome == FailureAfterRollback(behaviour, behaviour.install.value) && e.keys == keys
    ensures behaviour.install.None? && behaviour.commit.Some? ==>
      e.outcome == FailureAfterRollback(behaviour, behaviour.commit.value)
    ensures behaviour.install.None? && behaviour.commit.None? && e.outcome.Fail? ==>
      e.outcome == FailureAfterRollback(behaviour, keyError)
    ensures e.outcome.Fail? && behaviour.rollback.None? && ServiceKeyPath(registeredName) !in keys ==> e.keys == keys
  {
    var registered := RegisteredKeys(keys, registeredName, behaviour.imagePath);
    var steps := InstallTransactionSteps(behaviour, !ServiceKeyChainExists(registered, entry.keyName));
    var undone := if behaviour.rollback.None? then RemovedKeys(registered, registeredName) else registered;
    assert ServiceKeyPath(registeredName) !in keys ==> RemovedKeys(registered, registeredName) == keys by {
      if ServiceKeyPath(registeredName) !in keys {
        RemovingUndoesRegistering(keys, registeredName, behaviour.imagePath);
      }
    }
    if behaviour.install.Some? then TransactionEffect(FailureAfterRollback(behaviour, behaviour.install.value), keys, steps)
    else if behaviour.commit.Some? then TransactionEffect(FailureAfterRollback(behaviour, behaviour.commit.value), undone, steps)
    else
      match PatchedRegistry(registered, entry)
      case Err(_) => TransactionEffect(FailureAfterRollback(behaviour, keyError), undone, steps)
      case Ok(patched) => TransactionEffect(Pass, patched, steps)
  }

  /**
   * The install transaction succeeds exactly when Install and Commit pass and
   * the service key opens in the registry Install left behind; it then leaves
   * that registry with the key patched. Rollback is the last step exactly when
   * it fails.
   */
  lemma InstallTransactionSucceedsExactly(keys: map<KeyPath, map<string, string>>, entry: ServiceEntry,
                                          behaviour: InstallerBehaviour, registeredName: string, keyError: Error)
    ensures var e := InstallTransactionEffect(keys, entry, behaviour, registeredName, keyError);
      var registered := RegisteredKeys(keys, registeredName, behaviour.imagePath);
      && e.steps == InstallTransactionSteps(behaviour, !ServiceKeyChainExists(registered, entry.keyName))
      && (e.outcome == Pass <==>
            behaviour.install.None? && behaviour.commit.None? && ServiceKeyChainExists(registered, entry.keyName))
      && (e.outcome == Pass ==> e.keys == PatchedRegistry(registered, entry).value)
      && (e.steps[|e.steps| - 1] == RollbackStep <==> e.outcome.Fail?)
  {
  }

  /**
   * A service that did not exist is installed when the framework's steps pass
   * and the Services key exists: its new key holds the description and the
   * recorded ImagePath followed by the switches, and no other key changes.
   */
  lemma FreshInstallRegistersService(keys: map<KeyPath, map<string, string>>, entry: ServiceEntry,
                                     behaviour: InstallerBehaviour, keyError: Error)
    requires behaviour.install.None? && behaviour.commit.None?
    requires ServicesKeyExists(keys) && ServiceKeyPath(entry.keyName) !in keys
    ensures var e := InstallTransactionEffect(keys, entry, behaviour, entry.keyName, keyError);
      var path := ServiceKeyPath(entry.keyName);
      && e.outcome == Pass && e.steps == [InstallStep, CommitStep]
      && e.keys.Keys == keys.Keys + {path}
      && (forall p :: p in keys ==> e.keys[p] == keys[p])
      && e.keys[path] == map["ImagePath" := ImagePath(behaviour.imagePath, entry.serviceName, entry.instance,
                                                       entry.configurationFileName, entry.hostType),
                             "Description" := entry.description]
  {
    var registered := RegisteredKeys(keys, entry.keyName, behaviour.imagePath);
    var path := ServiceKeyPath(entry.keyName);
    RegisteredKeyOpens(keys, entry.keyName, behaviour.imagePath);
    InstallTransactionSucceedsExactly(keys, entry, behaviour, entry.keyName, keyError);
    PatchedRegistryTouchesOnlyTheServiceKey(registered, entry);
    var patched := PatchedRegistry(registered, entry).value;
    assert patched[path].Keys == {"ImagePath", "Description"};
  }

  /**
   * A failed install of a service that did not exist leaves the registry as
   * it was, unless Rollback itself throws; Rollback runs exactly when the
   * install fails.
   */
  lemma FailedInstallChangesNoKey(keys: map<KeyPath, map<string, string>>, entry: ServiceEntry,
                                  behaviour: InstallerBehaviour, keyError: Error)
    requires ServiceKeyPath(entry.keyName) !in keys && behaviour.rollback.None?
    ensures var e := InstallTransactionEffect(keys, entry, behaviour, entry.keyName, keyError);
      && (e.keys != keys ==> e.outcome == Pass)
      && (RollbackStep in e.steps <==> e.outcome.Fail?)
  {
    InstallTransactionSucceedsExactly(keys, entry, behaviour, entry.keyName, keyError);
  }

  /** Steps recorded one at a time are the steps recorded together. */
  lemma StepsAppendInOrder(steps: seq<InstallerStep>, a: InstallerStep, b: InstallerStep, c: InstallerStep)
    ensures steps + [a] + [b] == steps + [a, b]
    ensures steps + [a] + [b] + [c] == steps + [a, b, c]
  {
  }

  /**
   * The try block of Install and its catch: Install, Commit and the key patch;
   * the first failure runs Rollback and is rethrown.
   */
  method InstallTransaction(installer: AssemblyInstaller, entry: ServiceEntry, registry: Registry)
    returns (r: Outcome)
    requires !installer.installed
    modifies installer, registry
    ensures installer.useNewContext == old(installer.useNewContext)
    ensures var e := InstallTransactionEffect(old(registry.keys), entry, installer.behaviour, installer.serviceName,
                                              Error(General, MissingKeyMessage(entry.keyName)));
      r == e.outcome && registry.keys == e.keys && installer.steps == old(installer.steps) + e.steps
  {
    ghost var keys := registry.keys;
    ghost var steps := installer.steps;
    ghost var e := InstallTransactionEffect(keys, entry, installer.behaviour, installer.serviceName,
                                            Error(General, MissingKeyMessage(entry.keyName)));
    var step := installer.Install(registry);
    if step.Fail? {
      var rollback := installer.Rollback(registry);
      StepsAppendInOrder(steps, InstallStep, RollbackStep, RollbackStep);
      assert registry.keys == keys;
      return FailureAfterRollback(installer.behaviour, step.error);
    }
    ghost var registered := registry.keys;
    assert registered == RegisteredKeys(keys, installer.serviceName, installer.behaviour.imagePath);
    step := installer.Commit();
    StepsAppendInOrder(steps, InstallStep, CommitStep, RollbackStep);
    if step.Fail? {
      var rollback := installer.Rollback(registry);
      assert registry.keys == e.keys;
      return FailureAfterRollback(installer.behaviour, step.error);
    }
    var failure := PatchServiceKey(entry, registry);
    if failure.Some? {
      var rollback := installer.Rollback(registry);
      assert registry.keys == e.keys;
      return FailureAfterRollback(installer.behaviour, failure.value);
    }
    assert e.keys == PatchedRegistry(registered, entry).value;
    assert registry.keys == e.keys;
    return Pass;
  }

  /**
   * Install: guard, invariants, then Install and Commit and the patch of the
   * service key; a failure in any of these rolls back and is rethrown. The
   * framework runs the installers of the target assembly, which register the
   * instanced service name of the configuration assigned to HostServiceInstaller,
   * this same configuration.
   */
  method Install(configuration: InstallConfiguration?, ctx: ProcessContext, registry: Registry)
    returns (r: Outcome, installer: AssemblyInstaller?)
    modifies registry
    ensures configuration == null ==>
      r == Fail(Error(ArgumentNull, "configuration")) && installer == null && registry.keys == old(registry.keys)
    ensures configuration != null && configuration.ApplyInvariants().Fail? ==>
      r == configuration.ApplyInvariants() && installer == null && registry.keys == old(registry.keys)
    ensures configuration != null && configuration.ApplyInvariants() == Pass ==>
      var e := InstallTransactionEffect(old(registry.keys), EntryOf(configuration), ctx.installer,
                                        configuration.InstancedServiceName(),
                                        Error(General, MissingKeyMessage(configuration.InstancedServiceName())));
      && installer != null && fresh(installer)
      && installer.assembly == TargetAssembly(configuration.serviceAssembly, ctx.hostAssembly)
      && installer.behaviour == ctx.installer && installer.useNewContext
      && installer.serviceName == configuration.InstancedServiceName()
      && r == e.outcome && registry.keys == e.keys && installer.steps == e.steps
  {
    installer := null;
    if configuration == null {
      return Fail(Error(ArgumentNull, "configuration")), null;
    }
    var invariants := configuration.ApplyInvariants();
    if invariants.Fail? {
      return invariants, null;
    }
    installer := new AssemblyInstaller(TargetAssembly(configuration.serviceAssembly, ctx.hostAssembly), ctx.installer,
                                       configuration.InstancedServiceName());
    installer.useNewContext := true;
    r := InstallTransaction(installer, EntryOf(configuration), registry);
  }

  /** `try { Uninstall; } catch { Rollback; throw; }`. */
  function UninstallTransactionOutcome(behaviour: InstallerBehaviour): (r: Outcome)
    ensures r == Pass <==> behaviour.uninstall.None?
    ensures behaviour.uninstall.Some? ==> r == FailureAfterRollback(behaviour, behaviour.uninstall.value)
  {
    match behaviour.uninstall
    case None => Pass
    case Some(e) => FailureAfterRollback(behaviour, e)
  }

  /**
   * Uninstall: guard, invariants, then Uninstall; a failure rolls back and is
   * rethrown. A successful Uninstall deletes the service key; the Rollback
   * after a failed one has no Install to undo.
   */
  method Uninstall(configuration: ServiceInstallerConfiguration?, ctx: ProcessContext, registry: Registry)
    returns (r: Outcome, installer: AssemblyInstaller?)
    modifies registry
    ensures configuration == null ==>
      r == Fail(Error(ArgumentNull, "configuration")) && installer == null && registry.keys == old(registry.keys)
    ensures configuration != null && configuration.ApplyInvariants().Fail? ==>
      r == configuration.ApplyInvariants() && installer == null && registry.keys == old(registry.keys)
    ensures configuration != null && configuration.ApplyInvariants() == Pass ==>
      && installer != null && fresh(installer)
      && installer.assembly == TargetAssembly(configuration.serviceAssembly, ctx.hostAssembly)
      && installer.behaviour == ctx.installer && installer.useNewContext
      && installer.serviceName == configuration.InstancedServiceName()
      && r == UninstallTransactionOutcome(ctx.installer)
      && installer.steps == (if r == Pass then [UninstallStep] else [UninstallStep, RollbackStep])
      && registry.keys == (if r == Pass then RemovedKeys(old(registry.keys), configuration.InstancedServiceName())
                           else old(registry.keys))
  {
    installer := null;
    if configuration == null {
      return Fail(Error(ArgumentNull, "configuration")), null;
    }
    var invariants := configuration.ApplyInvariants();
    if invariants.Fail? {
      return invariants, null;
    }
    installer := new AssemblyInstaller(TargetAssembly(configuration.serviceAssembly, ctx.hostAssembly), ctx.installer,
                                       configuration.InstancedServiceName());
    installer.useNewContext := true;
    r := installer.Uninstall(registry);
    if r.Fail? {
      var rollback := installer.Rollback(registry);
      r := FailureAfterRollback(ctx.installer, r.error);
    }
  }
}
