/**
 * The framework and operating-system collaborators of the host, reduced to
 * what the host observes of them: reflection records for types and
 * assemblies, the HKEY_LOCAL_MACHINE registry hive as a map, and the
 * framework's AssemblyInstaller as an object whose steps may fail and which
 * registers and deletes the service's registry key.
 */
module Platform {
  import opened Common

  /** A loaded assembly, identified by its location. */
  datatype AssemblyRef = AssemblyRef(location: string)

  /** What reflection reports about one type. */
  datatype TypeInfo = TypeInfo(
    fullName: string,
    assemblyQualifiedName: string,
    manifestModuleName: string,   // Assembly.ManifestModule.Name of its assembly
    assignableToIHost: bool,      // typeof(IHost).IsAssignableFrom(type)
    isIHost: bool,                // type == typeof(IHost)
    hasDefaultConstructor: bool)

  /** A `.dll` or `.exe` under the base directory. */
  datatype AssemblyFile = AssemblyFile(
    path: string,
    loads: bool,                  // Assembly.LoadFrom and GetTypes both succeed
    types: seq<TypeInfo>)

  /** An instance of the workload created by Activator.CreateInstance. */
  datatype HostInstance = HostInstance(hostType: TypeInfo)

  /**
   * The outcome of each AssemblyInstaller step (None means the step succeeds),
   * and the ImagePath the service control manager records for a service it registers.
   */
  datatype InstallerBehaviour = InstallerBehaviour(
    install: Option<Error>,
    commit: Option<Error>,
    rollback: Option<Error>,
    uninstall: Option<Error>,
    imagePath: string)

  /** Everything the process reads from its surroundings. */
  datatype ProcessContext = ProcessContext(
    interactive: bool,                  // Environment.UserInteractive
    baseDirectory: string,              // AppDomain.CurrentDomain.BaseDirectory
    runtimeVersion: string,             // Environment.Version
    assemblyFiles: seq<AssemblyFile>,   // the *.dll and *.exe files, in enumeration order
    typeCatalog: map<string, TypeInfo>, // Type.GetType(name, false)
    existingFiles: set<string>,         // File.Exists
    hostAssembly: AssemblyRef,          // typeof(Host).Assembly
    installer: InstallerBehaviour)      // how the AssemblyInstaller steps turn out

  type KeyPath = seq<string>

  /** HKEY_LOCAL_MACHINE: each existing key (by path) with its named string values. */
  class Registry {
    var keys: map<KeyPath, map<string, string>>

    constructor (keys: map<KeyPath, map<string, string>>)
      ensures this.keys == keys
    {
      this.keys := keys;
    }

    /** RegistryKey.SetValue on an open key. */
    method SetValue(path: KeyPath, name: string, value: string)
      requires path in keys
      modifies this
      ensures keys == old(keys)[path := old(keys)[path][name := value]]
    {
      keys := keys[path := keys[path][name := value]];
    }
  }

  /** HKEY_LOCAL_MACHINE\System\CurrentControlSet\Services\<serviceName>. */
  function ServiceKeyPath(serviceName: string): KeyPath
  {
    ["System", "CurrentControlSet", "Services", serviceName]
  }

  /** The hive once the service control manager has registered `serviceName`. */
  function RegisteredKeys(keys: map<KeyPath, map<string, string>>, serviceName: string, imagePath: string): map<KeyPath, map<string, string>>
  {
    keys[ServiceKeyPath(serviceName) := map["ImagePath" := imagePath]]
  }

  /** The hive once the service `serviceName` has been deleted. */
  function RemovedKeys(keys: map<KeyPath, map<string, string>>, serviceName: string): map<KeyPath, map<string, string>>
  {
    keys - {ServiceKeyPath(serviceName)}
  }

  /** Deleting a service that was just registered restores the hive it was registered in. */
  lemma RemovingUndoesRegistering(keys: map<KeyPath, map<string, string>>, serviceName: string, imagePath: string)
    requires ServiceKeyPath(serviceName) !in keys
    ensures RemovedKeys(RegisteredKeys(keys, serviceName, imagePath), serviceName) == keys
  {
    var restored := RemovedKeys(RegisteredKeys(keys, serviceName, imagePath), serviceName);
    assert restored.Keys == keys.Keys;
  }

  /** RegistryKey.GetValue(name) formatted by String.Format: "" when absent. */
  function ValueText(values: map<string, string>, name: string): string
  {
    if name in values then values[name] else ""
  }

  datatype InstallerStep = InstallStep | CommitStep | RollbackStep | UninstallStep

  /**
   * The framework's AssemblyInstaller: the steps it was asked to run, in order,
   * and what they do to the registry. The installers of `assembly` register
   * and delete the service `serviceName`; `installed` is what the state
   * dictionary remembers of a successful Install, which Rollback undoes.
   */
  class AssemblyInstaller {
    const assembly: AssemblyRef
    const behaviour: InstallerBehaviour
    const serviceName: string
    var useNewContext: bool
    var steps: seq<InstallerStep>
    var installed: bool

    constructor (assembly: AssemblyRef, behaviour: InstallerBehaviour, serviceName: string)
      ensures this.assembly == assembly && this.behaviour == behaviour && this.serviceName == serviceName
      ensures !useNewContext && steps == [] && !installed
    {
      this.assembly := assembly;
      this.behaviour := behaviour;
      this.serviceName := serviceName;
      useNewContext := false;
      steps := [];
      installed := false;
    }

    /** Install: a success registers the service, whose key then holds the recorded ImagePath. */
    method Install(registry: Registry) returns (r: Outcome)
      modifies this, registry
      ensures steps == old(steps) + [InstallStep] && useNewContext == old(useNewContext)
      ensures r == OutcomeOf(behaviour.install)
      ensures installed == (old(installed) || r == Pass)
      ensures registry.keys == if r == Pass then RegisteredKeys(old(registry.keys), serviceName, behaviour.imagePath)
                               else old(registry.keys)
    {
      steps := steps + [InstallStep];
      r := OutcomeOf(behaviour.install);
      if r == Pass {
        registry.keys := RegisteredKeys(registry.keys, serviceName, behaviour.imagePath);
        installed := true;
      }
    }

    method Commit() returns (r: Outcome)
      modifies this
      ensures steps == old(steps) + [CommitStep] && useNewContext == old(useNewContext)
      ensures installed == old(installed)
      ensures r == OutcomeOf(behaviour.commit)
    {
      steps := steps + [CommitStep];
      r := OutcomeOf(behaviour.commit);
    }

    /** Rollback: a success deletes the service that this installer's Install registered, and nothing else. */
    method Rollback(registry: Registry) returns (r: Outcome)
      modifies this, registry
      ensures steps == old(steps) + [RollbackStep] && useNewContext == old(useNewContext)
      ensures r == OutcomeOf(behaviour.rollback)
      ensures installed == (old(installed) && r.Fail?)
      ensures registry.keys == if r == Pass && old(installed) then RemovedKeys(old(registry.keys), serviceName)
                               else old(registry.keys)
    {
      steps := steps + [RollbackStep];
      r := OutcomeOf(behaviour.rollback);
      if r == Pass && installed {
        registry.keys := RemovedKeys(registry.keys, serviceName);
        installed := false;
      }
    }

    /** Uninstall: a success deletes the service. */
    method Uninstall(registry: Registry) returns (r: Outcome)
      modifies this, registry
      ensures steps == old(steps) + [UninstallStep] && useNewContext == old(useNewContext)
      ensures r == OutcomeOf(behaviour.uninstall)
      ensures installed == old(installed)
      ensures registry.keys == if r == Pass then RemovedKeys(old(registry.keys), serviceName) else old(registry.keys)
    {
      steps := steps + [UninstallStep];
      r := OutcomeOf(behaviour.uninstall);
      if r == Pass {
        registry.keys := RemovedKeys(registry.keys, serviceName);
      }
    }
  }

  /**
   * The steps of `try { Install; Commit; <registry work> } catch { Rollback; throw; }`
   * when `registryFailed` tells whether the registry work threw.
   */
  function InstallTransactionSteps(behaviour: InstallerBehaviour, registryFailed: bool): (steps: seq<InstallerStep>)
    ensures 2 <= |steps| && steps[0] == InstallStep
    ensures steps[|steps| - 1] == RollbackStep <==>
      behaviour.install.Some? || behaviour.commit.Some? || registryFailed
    ensures CommitStep in steps <==> behaviour.install.None?
  {
    if behaviour.install.Some? then [InstallStep, RollbackStep]
    else if behaviour.commit.Some? || registryFailed then [InstallStep, CommitStep, RollbackStep]
    else [InstallStep, CommitStep]
  }

  /**
   * The error that leaves the catch block: Rollback's own if Rollback throws,
   * and otherwise the error that was caught.
   */
  function Rethrown(behaviour: InstallerBehaviour, caught: Error): (e: Error)
    ensures behaviour.rollback.None? ==> e == caught
  {
    match behaviour.rollback
    case Some(rollbackError) => rollbackError
    case None => caught
  }
}
