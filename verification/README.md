# Shuttle.Core.Host, modelled in Dafny

Shuttle.Core.Host is a console program that starts a workload, a class implementing `IHost`, in one of three ways:

- as a console application;
- as a Windows service;
- by installing or uninstalling the Windows service that runs it.

This project models the decisions and strings of that program:

- **Command-line parser** (`Arguments`): the splitter regular expression `^-{1,2}|^/|=|:` with a limit of three parts, the quote remover `^['"]?(.*?)['"]?$`, the case-insensitive `StringDictionary` where the first occurrence of a name wins, and `Get<T>` for strings and booleans (`Boolean.Parse`).
- **Help test and host-type lookup** (`ArgumentsExtensions`).
- **Workload selection** (`HostFactory`):
  - an explicitly named type wins;
  - otherwise every assembly under the base directory is scanned, and exactly one implementation of `IHost` must be found;
  - the selected type must have a default constructor and cast to `IHost`.
- **The two configurations** (`ServiceInstallerConfiguration`, `InstallConfiguration`): their invariants, the instanced name `name$instance`, the default display name and description, and the service command line.
- **Service installation** (`WindowsServiceInstaller`):
  - invariants, then the framework installer's Install and Commit;
  - then the service's registry key gets a Description and an ImagePath extended with `/serviceName`, `/instance`, `/configurationFileName` and `/hostType` switches;
  - a failure runs Rollback and is rethrown.
- **The installer class the framework runs** (`HostServiceInstaller`): its two static configuration slots and the child installers it adds.
- **The host runtime** (`Host`): the configuration file of the workload (`Path.Combine` of the base directory and either the given file or `<manifest module>.config`), the error policy of `RunService`, and the static Install/Uninstall.
- **The entry point** (`Program.Main`): help, the `/install`–`/uninstall` conflict, the three branches, and the interactive and non-interactive error policies.

Conventions:

- An exception is an `Error` value with an `ErrorKind` that names the .NET exception type.
- A `null` string is `""`. The code tests most strings with `IsNullOrEmpty`, where the two agree. The framework calls that treat `null` and `""` differently are listed under "Left out".
- Objects whose fields the code updates are Dafny classes:
  - `Arguments`, the two configurations, `HostServiceInstaller`, `Host`;
  - the framework's `AssemblyInstaller`, which records the steps it ran;
  - the registry hive;
  - the static configuration slots.
- Everything the process reads from its surroundings is one `ProcessContext` value:
  - `UserInteractive`, the base directory and the runtime version;
  - the assembly files and their types;
  - `Type.GetType` as a catalog map;
  - `File.Exists` as a set;
  - how each AssemblyInstaller step turns out, and the ImagePath the framework's Install records for a service it registers.

Points where the code behaves differently from what a reader might expect:

- **A failing Rollback replaces the error.** In the code, `installer.Rollback(state); throw;` (WindowsServiceInstaller.cs:45-50 and Host.cs:231-236) lets Rollback's own exception escape instead of the original one. `Platform.Rethrown` and `WindowsServiceInstallers.FailureAfterRollback` state this.
- **Half credentials are not refused.** A user name without a password, or the reverse, gives the LocalSystem account (`HostServiceInstallers.ProcessInstallerFor`).
- **The static Install patches a key it may not have registered.** The framework's Install registers the service and records its ImagePath; the installer then appends the switches to that ImagePath. `WindowsServiceInstaller.Install` looks the key up under the instanced name it registered. The static `Host.Install` looks it up under the plain `name` (Host.cs:189). With a non-empty instance and no key of the plain name, the static install fails with ConfigurationErrors, and a successful Rollback removes the service again (`HostRuntime.InstancedStaticInstallFails`); when a key of the plain name exists, it belongs to another service, and that key is patched.
- **The run branch of Program.cs calls `RunService` with one argument.** The Host.cs in this model takes two (host and configuration). The model uses the Host.cs signature, with the host created by `HostFactory.Create`.
- **Program.cs:48 calls `HostFactory.GetHostType`, which is private in HostFactory.cs.** The model exposes it.
- **Arguments.cs declares its class in namespace `Shuttle.ESB.Host`.** The model treats it as the parser the other files use.

## Model

| member | source | states |
|---|---|---|
| Common.JoinShowsEveryItem | Shuttle.Core.Host/HostFactory.cs:62-63 | every item appears whole in the joined string, at its offset |
| Common.JoinKeepsOrder | Shuttle.Core.Host/HostFactory.cs:62-63 | items appear in the joined string in list order, a separator apart |
| Common.OutcomeOf | Shuttle.Core.Host/WindowsServiceInstaller.cs:27-28 | a step fails exactly when its collaborator throws, with that exception |
| Common.FailureOf | Shuttle.Core.Host/Program.cs:76 | the exception a statement lets out is none exactly when it completes |
| CommandLine.DelimiterIndex | Shuttle.Core.Host/Arguments.cs:15-16 | the first `=` or `:`; there is none before it |
| CommandLine.Split | Shuttle.Core.Host/Arguments.cs:32 | `Split(input, 3)`: one to three parts; a single part iff there is no prefix and no delimiter, and then it is the token; a prefix match leaves an empty first part |
| CommandLine.SplitOfSwitchWithValue | Shuttle.Core.Host/Arguments.cs:15-16 | `/name:value`, `-name=value` and `--name:value` split into `["", name, value]` |
| CommandLine.SplitOfSwitch | Shuttle.Core.Host/Arguments.cs:15-16 | a bare switch splits into `["", name]` |
| CommandLine.Unquote | Shuttle.Core.Host/Arguments.cs:12-13 | at most one leading and one trailing quote are removed, nothing else |
| CommandLine.StripQuotes | Shuttle.Core.Host/Arguments.cs:42 | the remover on any value: at most two characters go, and only outer quotes when there is no line feed |
| CommandLine.StripQuotesOfQuoted | Shuttle.Core.Host/Arguments.cs:12-13 | a value wrapped in quotes comes back unchanged |
| CommandLine.StripQuotesOfPlain | Shuttle.Core.Host/Arguments.cs:12-13 | a value without outer quotes comes back unchanged |
| CommandLine.AddIfAbsent | Shuttle.Core.Host/Arguments.cs:40-45 | the key set gains the lower-cased name; existing entries are never replaced; a new name gets the value |
| CommandLine.StorePending | Shuttle.Core.Host/Arguments.cs:54-60 | storing a pending name as "true" keeps every existing entry |
| CommandLine.Step | Shuttle.Core.Host/Arguments.cs:32-89 | one loop iteration never changes an entry already stored |
| CommandLine.ScanAppend | Shuttle.Core.Host/Arguments.cs:30-90 | the loop over `tokens + [t]` is one more step after the loop over `tokens` |
| CommandLine.ScanKeysAreLowerCase | Shuttle.Core.Host/Arguments.cs:44 | every stored key is lower-case |
| CommandLine.ParsedKeysAreLowerCase | Shuttle.Core.Host/Arguments.cs:97-100 | after the trailing name is stored too, every key is lower-case |
| CommandLine.ParseKeepsFirstOccurrence | Shuttle.Core.Host/Arguments.cs:40 | the first occurrence of a name wins: an entry stored after any prefix of the tokens survives to the end |
| CommandLine.SwitchWithValueStoresValue | Shuttle.Core.Host/Arguments.cs:66-87 | `/name:value` first stores a pending name, then the unquoted value if the name is new, and leaves nothing pending |
| CommandLine.SwitchThenBareValue | Shuttle.Core.Host/Arguments.cs:36-51 | `/name value`: the bare token becomes the value of the pending name |
| CommandLine.SwitchThenSwitch | Shuttle.Core.Host/Arguments.cs:52-65 | `/a /b`: `a` is stored as "true" and `b` waits |
| CommandLine.BareTokenIgnored | Shuttle.Core.Host/Arguments.cs:36-51 | a bare token with nothing pending changes nothing |
| CommandLine.TrailingSwitchIsTrue | Shuttle.Core.Host/Arguments.cs:92-100 | a name pending at the end is stored as "true" unless already present |
| CommandLine.Lookup | Shuttle.Core.Host/Arguments.cs:103-109 | the indexer finds a value iff the lower-cased name is stored, and returns that value |
| CommandLine.GetString | Shuttle.Core.Host/Arguments.cs:111-119 | `Get<string>`: the default when the lower-cased name is absent, the stored value otherwise |
| CommandLine.GetBoolean | Shuttle.Core.Host/Arguments.cs:111-119 | `Get<bool>`: the default when absent, otherwise `Boolean.Parse` of the stored value |
| CommandLine.HelpRequested | Shuttle.Core.Host/Arguments.cs:121-124 | the operands are read in the order `help`, `h`, `?` until one is true: the answer is whether one of the three is stored as true; it throws the `Boolean.Parse` format error exactly when an unparsable value is read before a true one; without the three keys no help is asked |
| CommandLine.SwitchTokenStoresValue | Shuttle.Core.Host/InstallConfiguration.cs:63 | a `/name:"value"` token stores `value` unquoted under the name |
| CommandLine.SwitchTableKeys | Shuttle.Core.Host/Arguments.cs:44 | the names of a switch list, lower-cased, are exactly the keys of its table |
| CommandLine.SwitchTableValues | Shuttle.Core.Host/Arguments.cs:44 | each switch's value is stored under its lower-cased name |
| CommandLine.ScanOfSwitchTokens | Shuttle.Core.Host/Arguments.cs:30-90 | the loop reads a list of `/name:"value"` tokens into their table and leaves nothing pending |
| CommandLine.ParseOfSwitchTokens | Shuttle.Core.Host/Arguments.cs:18-101 | parsing such tokens stores exactly their names, and `Get` returns each value |
| CommandLine.GetOfSwitchTokens | Shuttle.Core.Host/Arguments.cs:111-119 | `Get` of one switch of such tokens returns its value |
| CommandLine.GetOfMissingSwitch | Shuttle.Core.Host/Arguments.cs:113-116 | `Get` of a name the tokens do not carry returns the default |
| CommandLine.GetReadsSwitchValue | Shuttle.Core.Host/Arguments.cs:66-88 | round trip: `Get(name)` after `/name:value` is the unquoted value |
| CommandLine.HelpSwitchRequestsHelp | Shuttle.Core.Host/Arguments.cs:121-124 | `/help`, `/h` or `/?` alone asks for help |
| CommandLine.Arguments.constructor | Shuttle.Core.Host/Arguments.cs:23-101 | the token loop leaves exactly the table of `Parse(args)` |
| ArgumentsExtensions.ShouldShowHelp | Shuttle.Core.Host/ArgumentsExtensions.cs:7-12 | a null parser throws ArgumentNull("arguments"); otherwise the parser's own help answer |
| ArgumentsExtensions.GetHostType | Shuttle.Core.Host/ArgumentsExtensions.cs:14-19 | a null parser throws; otherwise the value stored under `hosttype`, or "" |
| ArgumentsExtensions.HostTypeSwitchNamesHostType | Shuttle.Core.Host/ArgumentsExtensions.cs:18 | `/hostType:value` names the host type `value`, unquoted, whatever the case of the lookup |
| Platform.Registry.SetValue | Shuttle.Core.Host/WindowsServiceInstaller.cs:32 | setting one value on an open key changes that value only |
| Platform.AssemblyInstaller.Install | Shuttle.Core.Host/WindowsServiceInstaller.cs:27 | records the Install step; fails as configured; on success the service is registered: its key is created holding the recorded ImagePath |
| Platform.AssemblyInstaller.Commit | Shuttle.Core.Host/WindowsServiceInstaller.cs:28 | records the Commit step; fails as configured |
| Platform.AssemblyInstaller.Rollback | Shuttle.Core.Host/WindowsServiceInstaller.cs:47 | records the Rollback step; fails as configured; a successful Rollback after a successful Install deletes the service key that Install created, and otherwise changes no key |
| Platform.AssemblyInstaller.Uninstall | Shuttle.Core.Host/WindowsServiceInstaller.cs:72 | records the Uninstall step; fails as configured; on success the service key is deleted, otherwise no key changes |
| Platform.RemovingUndoesRegistering | Shuttle.Core.Host/WindowsServiceInstaller.cs:27-47 | deleting a service that did not exist before it was registered restores the registry |
| Platform.InstallTransactionSteps | Shuttle.Core.Host/WindowsServiceInstaller.cs:25-50 | Install always runs first; Rollback runs last iff Install, Commit or the registry work failed; Commit runs iff Install succeeded |
| Platform.Rethrown | Shuttle.Core.Host/WindowsServiceInstaller.cs:45-50 | the caught exception is rethrown when Rollback succeeds |
| ServiceInstallerConfigurations.InstancedName | Shuttle.Core.Host/ServiceInstallerConfiguration.cs:32-37 | the service name alone without an instance, otherwise `name$instance` |
| ServiceInstallerConfigurations.InstancedNameDistinguishesInstances | Shuttle.Core.Host/ServiceInstallerConfiguration.cs:32-37 | for one service name, different instances give different registered names |
| ServiceInstallerConfigurations.InstancedNameExtendsServiceName | Shuttle.Core.Host/ServiceInstallerConfiguration.cs:34 | the registered name starts with the service name |
| ServiceInstallerConfigurations.ServiceNameInvariant | Shuttle.Core.Host/ServiceInstallerConfiguration.cs:27-30 | fails exactly when the service name is empty, with "ServiceName may not be empty." |
| ServiceInstallerConfigurations.ServiceInstallerConfiguration.FromArguments | Shuttle.Core.Host/ServiceInstallerConfiguration.cs:13-20 | `FromArguments`: the service name and instance as `Get` reads them, no service assembly |
| ServiceInstallerConfigurations.ServiceInstallerConfiguration.ApplyInvariants | Shuttle.Core.Host/ServiceInstallerConfiguration.cs:22-30 | fails exactly when a host type is still required |
| ServiceInstallerConfigurations.ServiceInstallerConfiguration.ApplyHostType | Shuttle.Core.Host/ServiceInstallerConfiguration.cs:39-45 | an unnamed service is named after the type; a named one keeps its name; nothing else changes |
| InstallConfigurations.DefaultDescription | Shuttle.Core.Host/InstallConfiguration.cs:28 | the default description quotes the display name at a fixed place |
| InstallConfigurations.ServiceCommandLine | Shuttle.Core.Host/InstallConfiguration.cs:61-69 | the command line is the `/name:"value"` tokens of service name, optional configuration file and host type, joined by spaces |
| InstallConfigurations.ServiceSwitchesWellFormed | Shuttle.Core.Host/InstallConfiguration.cs:63-68 | the three switch names are distinct and the parser reads them back whole |
| InstallConfigurations.ServiceNameReadBack | Shuttle.Core.Host/InstallConfiguration.cs:63-64 | the command line parses back to the instanced service name |
| InstallConfigurations.HostTypeReadBack | Shuttle.Core.Host/InstallConfiguration.cs:68 | the command line parses back to the host type |
| InstallConfigurations.ConfigurationFileReadBack | Shuttle.Core.Host/InstallConfiguration.cs:65-67 | the command line parses back to the configuration file, "" when omitted |
| InstallConfigurations.InstanceReadBackEmpty | Shuttle.Core.Host/InstallConfiguration.cs:61-69 | the command line carries no separate instance |
| InstallConfigurations.ServiceCommandLineRoundTrip | Shuttle.Core.Host/InstallConfiguration.cs:61-69 | round trip: parsing the command line gives back every value written |
| InstallConfigurations.InstallConfiguration.FromArguments | Shuttle.Core.Host/InstallConfiguration.cs:40-50 | `FromArguments`: five names from `Get`, the rest default, so a host type is always required |
| InstallConfigurations.InstallConfiguration.DisplayName | Shuttle.Core.Host/InstallConfiguration.cs:11-20 | the given display name, else the instanced name; never empty for a named service |
| InstallConfigurations.InstallConfiguration.Description | Shuttle.Core.Host/InstallConfiguration.cs:22-31 | the given description, else the default naming the display name; never empty |
| InstallConfigurations.InstallConfiguration.ApplyInvariants | Shuttle.Core.Host/InstallConfiguration.cs:52-59 | fails exactly when a host type is still required, with the message of the first missing name in order |
| InstallConfigurations.InstallConfiguration.CommandLineArguments | Shuttle.Core.Host/InstallConfiguration.cs:61-69 | the service command line of this configuration |
| InstallConfigurations.InstallConfiguration.ApplyHostType | Shuttle.Core.Host/InstallConfiguration.cs:80-86 | both host-type names come from the type, an unnamed service is named after it, and nothing else changes; afterwards no host type is required |
| HostFactories.LoadableAssemblies | Shuttle.Core.Host/HostFactory.cs:87-133 | never more assemblies than files |
| HostFactories.LoadableAssembliesAreTheLoadingFiles | Shuttle.Core.Host/HostFactory.cs:98-130 | exactly the files that load and whose types can be listed are kept |
| HostFactories.LoadableAssembliesKeepOrder | Shuttle.Core.Host/HostFactory.cs:98-130 | skipping keeps file order |
| HostFactories.CandidatesOf | Shuttle.Core.Host/HostFactory.cs:81 | never more candidates than types |
| HostFactories.CandidatesOfAreTheCandidates | Shuttle.Core.Host/HostFactory.cs:81 | exactly the types assignable to IHost, other than IHost itself, are kept |
| HostFactories.HostTypeCandidatesAreTheCandidates | Shuttle.Core.Host/HostFactory.cs:72-85 | a type is found iff it is a candidate declared by some scanned assembly |
| HostFactories.HostTypeCandidatesKeepOrder | Shuttle.Core.Host/HostFactory.cs:78-82 | candidates are listed assembly by assembly |
| HostFactories.GetAssembliesToScan | Shuttle.Core.Host/HostFactory.cs:87-133 | the loop returns the loadable assemblies in order |
| HostFactories.ScanAssembliesForHostTypes | Shuttle.Core.Host/HostFactory.cs:72-85 | the loop returns the candidates of the loadable assemblies |
| HostFactories.AssemblyQualifiedNames | Shuttle.Core.Host/HostFactory.cs:63 | the assembly-qualified name of each type, in order |
| HostFactories.AmbiguityMessageListsEveryType | Shuttle.Core.Host/HostFactory.cs:57-67 | the ambiguity message names every type found, in the order found |
| HostFactories.ResolveHostType | Shuttle.Core.Host/HostFactory.cs:25-70 | an explicit name must resolve, else ConfigurationErrors; without one, success iff exactly one type is found, and that type is returned; none and several give their InvalidOperation messages |
| HostFactories.ScannedTypeImplementsHost | Shuttle.Core.Host/HostFactory.cs:44-69 | a scanned type implements IHost and comes from a file that loads |
| HostFactories.GetHostType | Shuttle.Core.Host/HostFactory.cs:25-70 | reads `HostType` and resolves it as above |
| HostFactories.CreateHost | Shuttle.Core.Host/HostFactory.cs:13-23 | selection errors pass through; a missing default constructor and a failed cast throw; success iff the type is selected, constructible and assignable to IHost, and the instance has that type |
| HostFactories.CreatedByScan | Shuttle.Core.Host/HostFactory.cs:44-69 | a host created without a name is the one and only candidate found |
| HostFactories.Create | Shuttle.Core.Host/HostFactory.cs:13-23 | a null parser throws ArgumentNull("arguments"); otherwise the host for the parsed `HostType` |
| HostServiceInstallers.ProcessInstallerFor | Shuttle.Core.Host/HostServiceInstaller.cs:22-35 | a user account iff both credentials are given, with those credentials; LocalSystem otherwise |
| HostServiceInstallers.StartTypeFor | Shuttle.Core.Host/HostServiceInstaller.cs:42-44 | manual start iff requested |
| HostServiceInstallers.UninstallServiceInstaller | Shuttle.Core.Host/HostServiceInstaller.cs:62-65 | the uninstall service installer sets only the service name |
| HostServiceInstallers.StaticConfiguration.AssignInstall | Shuttle.Core.Host/HostServiceInstaller.cs:73-76 | sets the install slot and leaves the uninstall slot |
| HostServiceInstallers.StaticConfiguration.AssignServiceInstaller | Shuttle.Core.Host/HostServiceInstaller.cs:78-81 | sets the uninstall slot and leaves the install slot |
| HostServiceInstallers.InstallInstallers | Shuttle.Core.Host/HostServiceInstaller.cs:22-48 | a process installer, then a service installer with the instanced name, display name, description and start type |
| HostServiceInstallers.InstalledServiceIsDescribed | Shuttle.Core.Host/HostServiceInstaller.cs:37-45 | a valid configuration installs a service with a name, a display name and a description |
| HostServiceInstallers.HostServiceInstaller.Install | Shuttle.Core.Host/HostServiceInstaller.cs:15-51 | without an install configuration: InstallException and no installers; otherwise both child installers are appended |
| HostServiceInstallers.HostServiceInstaller.Uninstall | Shuttle.Core.Host/HostServiceInstaller.cs:53-71 | without an uninstall configuration: InstallException; otherwise a default process installer and the named service installer are appended |
| WindowsServiceInstallers.GetServiceKey | Shuttle.Core.Host/WindowsServiceInstaller.cs:83-108 | the service key opens iff every key on its path exists; otherwise it throws "Could not get registry key…" |
| WindowsServiceInstallers.ImagePath | Shuttle.Core.Host/WindowsServiceInstaller.cs:33-43 | the old ImagePath, then the `/name:"value"` tokens of service name, optional instance, optional configuration file and host type |
| WindowsServiceInstallers.ImagePathSwitchesWellFormed | Shuttle.Core.Host/WindowsServiceInstaller.cs:34-43 | the four switch names are distinct and read back whole |
| WindowsServiceInstallers.ImagePathServiceName | Shuttle.Core.Host/WindowsServiceInstaller.cs:36 | the ImagePath switches give back the plain service name |
| WindowsServiceInstallers.ImagePathInstance | Shuttle.Core.Host/WindowsServiceInstaller.cs:37-39 | they give back the instance, "" when none |
| WindowsServiceInstallers.ImagePathConfigurationFile | Shuttle.Core.Host/WindowsServiceInstaller.cs:40-42 | they give back the configuration file, "" when none |
| WindowsServiceInstallers.ImagePathHostType | Shuttle.Core.Host/WindowsServiceInstaller.cs:43 | they give back the host type under the name HostFactory reads |
| WindowsServiceInstallers.ImagePathRoundTrip | Shuttle.Core.Host/WindowsServiceInstaller.cs:33-43 | round trip: the started service parses back every installed value |
| WindowsServiceInstallers.PatchedServiceValues | Shuttle.Core.Host/WindowsServiceInstaller.cs:32-43 | both values are set, and the key's other values are kept |
| WindowsServiceInstallers.TargetAssembly | Shuttle.Core.Host/WindowsServiceInstaller.cs:19 | the service assembly if set, else the host's |
| WindowsServiceInstallers.FailureAfterRollback | Shuttle.Core.Host/WindowsServiceInstaller.cs:45-50 | always a failure: the caught exception, or Rollback's own when Rollback throws |
| WindowsServiceInstallers.EntryOf | Shuttle.Core.Host/WindowsServiceInstaller.cs:30-43 | the registry entry uses the instanced name as key, the configured description and the ImagePath values |
| WindowsServiceInstallers.PatchedRegistry | Shuttle.Core.Host/WindowsServiceInstaller.cs:30-43 | fails exactly when the key chain is missing, with the missing-key error |
| WindowsServiceInstallers.PatchedRegistryTouchesOnlyTheServiceKey | Shuttle.Core.Host/WindowsServiceInstaller.cs:30-43 | a patch changes only the service key: Description set, ImagePath extended, other values kept |
| WindowsServiceInstallers.PatchServiceKey | Shuttle.Core.Host/WindowsServiceInstaller.cs:30-43 | the registry becomes the patched registry, or stays as it was and the error is returned |
| WindowsServiceInstallers.RegisteredKeyOpens | Shuttle.Core.Host/WindowsServiceInstaller.cs:27-30 | once Install has registered the service, its key opens exactly when the Services key exists |
| WindowsServiceInstallers.InstallTransactionEffect | Shuttle.Core.Host/WindowsServiceInstaller.cs:25-50 | an Install failure changes nothing; each failure is rethrown after Rollback, or Rollback's own exception when it throws; a failure whose Rollback succeeds leaves a registry that lacked the service key as it was |
| WindowsServiceInstallers.InstallTransactionSucceedsExactly | Shuttle.Core.Host/WindowsServiceInstaller.cs:25-50 | success iff Install and Commit pass and the key opens in the registry Install left; the result is then that registry with the key patched; Rollback is the last step iff the transaction fails |
| WindowsServiceInstallers.FreshInstallRegistersService | Shuttle.Core.Host/WindowsServiceInstaller.cs:25-43 | a new service whose steps pass is installed when the Services key exists: only its key is added, holding the description and the recorded ImagePath followed by the switches |
| WindowsServiceInstallers.FailedInstallChangesNoKey | Shuttle.Core.Host/WindowsServiceInstaller.cs:25-50 | for a service that did not exist and a Rollback that succeeds, a changed registry means success, and Rollback ran iff the install failed |
| WindowsServiceInstallers.InstallTransaction | Shuttle.Core.Host/WindowsServiceInstaller.cs:25-50 | the try/catch block has the effect above on outcome, registry and installer steps |
| WindowsServiceInstallers.Install | Shuttle.Core.Host/WindowsServiceInstaller.cs:11-54 | null and failing invariants throw before anything changes; otherwise a new installer for the target assembly, registering the instanced service name, runs the transaction |
| WindowsServiceInstallers.UninstallTransactionOutcome | Shuttle.Core.Host/WindowsServiceInstaller.cs:70-79 | success iff Uninstall succeeds; otherwise the rollback-aware failure |
| WindowsServiceInstallers.Uninstall | Shuttle.Core.Host/WindowsServiceInstaller.cs:56-81 | null and failing invariants throw first and change nothing; otherwise Uninstall, then Rollback only on failure; success deletes the key of the instanced service name, failure changes no key |
| HostRuntime.CombinePath | Shuttle.Core.Host/Host.cs:153-157 | `Path.Combine`: ends with the second path; a rooted or lone second path wins; otherwise starts with the first, joined by at most one backslash |
| HostRuntime.ConfigurationFileNameFor | Shuttle.Core.Host/Host.cs:155-157 | the given file name, else `<manifest module>.config`; never empty |
| HostRuntime.GetHostConfigurationFile | Shuttle.Core.Host/Host.cs:151-158 | the file ends with the chosen name and lies under the base directory unless rooted |
| HostRuntime.RunServiceFailure | Shuttle.Core.Host/Host.cs:26-77 | a missing configuration file throws ApplicationException; nothing fails iff the file exists and the reset and the run succeed |
| HostRuntime.Host.RunService | Shuttle.Core.Host/Host.cs:19-97 | the null guards throw; a failure is reported and remembered when interactive and rethrown otherwise; success runs as a service or in the console |
| HostRuntime.EntryFor | Shuttle.Core.Host/Host.cs:189-204 | the static Install keys the registry by the plain service name |
| HostRuntime.SetServiceValues | Shuttle.Core.Host/Host.cs:175-229 | the nested lookups patch the key, or throw ConfigurationErrors and change nothing |
| HostRuntime.Install | Shuttle.Core.Host/Host.cs:160-238 | the host assembly's installer registers the given service name and runs the transaction on the plain-name key, with ConfigurationErrors for a missing key |
| HostRuntime.InstancedStaticInstallFails | Shuttle.Core.Host/Host.cs:170-236 | with an instance, the instanced name registered and no key of the plain name, the static Install fails with ConfigurationErrors and a successful Rollback leaves the registry as it was |
| HostRuntime.Uninstall | Shuttle.Core.Host/Host.cs:240-261 | Uninstall, then Rollback only on failure; success deletes the registered service's key |
| EntryPoint.Decide | Shuttle.Core.Host/Program.cs:23-74 | help first; `/install` with `/uninstall` throws ConfigurationErrors; each branch exactly when its switches say so |
| EntryPoint.InstallSwitchInstalls | Shuttle.Core.Host/Program.cs:57-69 | `/install` alone installs |
| EntryPoint.UninstallSwitchUninstalls | Shuttle.Core.Host/Program.cs:42-54 | `/uninstall` alone uninstalls |
| EntryPoint.DecideOnDirectiveSwitches | Shuttle.Core.Host/Program.cs:35-69 | with only directive switches: both refuse, `install` alone installs, `uninstall` alone uninstalls |
| EntryPoint.BothDirectivesConflict | Shuttle.Core.Host/Program.cs:35-38 | `/install /uninstall` is refused |
| EntryPoint.Terminate | Shuttle.Core.Host/Program.cs:76-92 | without an exception Main completes; an exception is reported when interactive and rethrown otherwise |
| EntryPoint.UninstallTarget | Shuttle.Core.Host/Program.cs:44-49 | a named service is uninstalled by name; otherwise the host type is resolved and names it |
| EntryPoint.UninstallFailure | Shuttle.Core.Host/Program.cs:42-54 | the uninstall branch fails on resolution, on an empty name, or as the uninstall transaction fails |
| EntryPoint.UninstallEffect | Shuttle.Core.Host/Program.cs:42-54 | the uninstall branch on values: it fails as `UninstallFailure`; on success exactly the key of the instanced target is deleted, and on failure no key changes |
| EntryPoint.UninstallBranch | Shuttle.Core.Host/Program.cs:42-54 | the uninstall slot gets a fresh configuration naming the target; the branch's exception and registry are those of `UninstallEffect` |
| EntryPoint.InstallEffect | Shuttle.Core.Host/Program.cs:57-69 | the install branch on values: a resolution error escapes with no change; a failure before Install passes changes nothing; a failure whose Rollback succeeds leaves a registry without the service key as it was |
| EntryPoint.InstallEffectSucceedsExactly | Shuttle.Core.Host/Program.cs:57-69 | success iff the type is found with both names, Install and Commit pass and the Services key exists; the registry then holds the new service key, patched |
| EntryPoint.InstallEntryIsEntryOf | Shuttle.Core.Host/Program.cs:59-68 | the entry the install branch writes is the one `Install` writes for the configuration it builds |
| EntryPoint.InstallBranch | Shuttle.Core.Host/Program.cs:57-69 | a failed resolution changes nothing; otherwise the install slot gets the configured service; the branch's exception and registry are those of `InstallEffect` |
| EntryPoint.RunFailure | Shuttle.Core.Host/Program.cs:72 | creation errors escape; RunService's own failure escapes only when not interactive |
| EntryPoint.RunBranch | Shuttle.Core.Host/Program.cs:72 | the run branch fails as specified |
| EntryPoint.Launch | Shuttle.Core.Host/Program.cs:12-93 | help and refused command lines change nothing; uninstall, install and run each end as their branch's failure meets the error policy, uninstall and install with the registry of `UninstallEffect` and `InstallEffect` |

## Left out

- OS command-line tokenization is not modelled: `args` is given as a sequence of strings.
- Case mapping covers ASCII only. `ToLower` and the case-insensitive `Boolean.Parse` are not modelled for other letters.
- Registry key names are matched case-sensitively. A service name containing `\` is not split into sub-keys.
- `Type.GetType`, `Assembly.LoadFrom` with `GetTypes`, `File.Exists` and `Directory.GetFiles(...).Union(...)` are inputs (`ProcessContext`), not computations.
- `Activator.CreateInstance` is modelled only as far as the default-constructor check and the cast. A constructor that throws is not modelled.
- `AssemblyInstaller` and the framework `Installer.Install`/`Uninstall` are modelled only by their effect on the service key. How each step turns out is an input, and so is the ImagePath a registered service gets. Rollback deletes only the key its own Install created; a Rollback that throws is taken to change no key. A refusal to register a service that already exists is the Install input. Other values the service control manager writes are not modelled. The framework's running of `HostServiceInstaller` inside `AssemblyInstaller` is not linked to `WindowsServiceInstallers.Install`: the registered name is taken to be the instanced name of the configuration being installed, and for the static `Host.Install` and `Host.Uninstall` it is a parameter.
- The ConfigurationManager reflection reset (Host.cs:33-63) is not modelled. Its outcome is the `reset` input of `RunService`.
- `ServiceBase.Run`, `HostService.cs` and `ConsoleService` (Host.cs:99-149) are not modelled. Their outcome is the `run` input.
- `HostServiceConfiguration.FromArguments`, called by the run branch of Program.cs, is not part of this model. The run branch takes the resulting configuration as a parameter.
- `ShowHelp`, logging, `ColoredConsole` output, waiting for a key and the `UnhandledException` handler have no effect on the decisions and are not modelled.
- `HostEventLog.cs` is not part of this model.
- `Dispose` of the installer (`using`) is not modelled.
- `RegistryKey.SetValue` is assumed to succeed on an open key.
- Registry value kinds are not modelled. `GetValue("ImagePath")` expands environment references in a REG_EXPAND_SZ value, and `SetValue` of a string writes REG_SZ back; the model reads and writes the stored text verbatim, which agrees whenever the ImagePath holds no environment references.
- `Convert.ChangeType` is modelled for `string` and `bool` only, the two types the code uses.
- The static `Host.Install` and `Host.Uninstall` take a `HostServiceConfiguration` value rather than the `IHostServiceConfiguration` interface.
- CommandLine.Step: the contract states only that stored entries survive. The exact new state is given by `SwitchWithValueStoresValue`, `SwitchThenBareValue`, `SwitchThenSwitch`, `BareTokenIgnored` and `TrailingSwitchIsTrue`.
- HostRuntime.CombinePath: does not model the ArgumentException `Path.Combine` throws for a configuration file name with characters invalid in a path (`"`, `<`, `>`, `|`, control characters); such a name is concatenated like any other.
- HostRuntime.SetServiceValues: `OpenSubKey` with an empty service name (Host.cs:189) opens the Services key itself, which the code would then patch; the model looks for a child key named `""` and reports the ConfigurationErrors failure.
- HostRuntime.Install: a `null` ServiceName or Description passed to `OpenSubKey` or `SetValue` (Host.cs:189-193) throws ArgumentNullException; the model has no `null` strings, so these are `""` and the call goes ahead.
- HostFactories.CreateHost: for a failed cast the contract states only the error kind, not the framework's exact message.
