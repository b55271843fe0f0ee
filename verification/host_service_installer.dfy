/**
 * The installer class that the framework's AssemblyInstaller finds in the
 * host assembly (HostServiceInstaller): two static configuration slots, and
 * Install/Uninstall that add a process installer and a service installer
 * before the framework runs them.
 */
module HostServiceInstallers {
  import opened Common
  import opened ServiceInstallerConfigurations
  import opened InstallConfigurations

  datatype ServiceAccount = LocalSystem | User

  datatype StartMode = Automatic | Manual

  /** The two child installers, with the properties the host sets on them. */
  datatype ChildInstaller =
    | ProcessInstaller(account: ServiceAccount, userName: string, password: string)
    | ServiceInstaller(serviceName: string, displayName: string, description: string, startType: StartMode)

  /** The process installer: a user account only when both credentials are given. */
  function ProcessInstallerFor(userName: string, password: string): (r: ChildInstaller)
    ensures r.ProcessInstaller?
    ensures r.account == User <==> userName != "" && password != ""
    ensures r.account == User ==> r.userName == userName && r.password == password
    ensures r.account == LocalSystem ==> r.userName == "" && r.password == ""
  {
    if userName != "" && password != "" then ProcessInstaller(User, userName, password)
    else ProcessInstaller(LocalSystem, "", "")
  }

  function StartTypeFor(startManually: bool): (r: StartMode)
    ensures r == Manual <==> startManually
  {
    if startManually then Manual else Automatic
  }

  /** A ServiceProcessInstaller as constructed: the User account without credentials. */
  const DefaultProcessInstaller := ProcessInstaller(User, "", "")

  /** A ServiceInstaller naming only the service; the other properties keep their defaults. */
  function UninstallServiceInstaller(serviceName: string): (r: ChildInstaller)
    ensures r.ServiceInstaller? && r.serviceName == serviceName
    ensures r.displayName == "" && r.description == "" && r.startType == Manual
  {
    ServiceInstaller(serviceName, "", "", Manual)
  }

  /** The static fields `_installConfiguration` and `_serviceInstallerConfiguration`. */
  class StaticConfiguration {
    var installConfiguration: InstallConfiguration?
    var serviceInstallerConfiguration: ServiceInstallerConfiguration?

    constructor ()
      ensures installConfiguration == null && serviceInstallerConfiguration == null
    {
      installConfiguration := null;
      serviceInstallerConfiguration := null;
    }

    /** Assign(InstallConfiguration): the uninstall slot is left as it was. */
    method AssignInstall(configuration: InstallConfiguration?)
      modifies this
      ensures installConfiguration == configuration
      ensures serviceInstallerConfiguration == old(serviceInstallerConfiguration)
    {
      installConfiguration := configuration;
    }

    /** Assign(ServiceInstallerConfiguration): the install slot is left as it was. */
    method AssignServiceInstaller(configuration: ServiceInstallerConfiguration?)
      modifies this
      ensures serviceInstallerConfiguration == configuration
      ensures installConfiguration == old(installConfiguration)
    {
      serviceInstallerConfiguration := configuration;
    }
  }

  /** The child installers for installing the configured service. */
  function InstallInstallers(configuration: InstallConfiguration): (r: seq<ChildInstaller>)
    reads configuration
    ensures |r| == 2 && r[0].ProcessInstaller? && r[1].ServiceInstaller?
    ensures r[0].account == User <==> configuration.userName != "" && configuration.password != ""
    ensures r[1].serviceName == InstancedName(configuration.serviceName, configuration.instance)
    ensures r[1].displayName == configuration.DisplayName() && r[1].description == configuration.Description()
    ensures r[1].startType == Manual <==> configuration.startManually
  {
    [ ProcessInstallerFor(configuration.userName, configuration.password),
      ServiceInstaller(configuration.InstancedServiceName(), configuration.DisplayName(),
                       configuration.Description(), StartTypeFor(configuration.startManually)) ]
  }

  /** A service that satisfies the install invariants gets a display name and a description. */
  lemma InstalledServiceIsDescribed(configuration: InstallConfiguration)
    requires configuration.ApplyInvariants() == Pass
    ensures InstallInstallers(configuration)[1].serviceName != ""
    ensures InstallInstallers(configuration)[1].displayName != ""
    ensures InstallInstallers(configuration)[1].description != ""
  {
  }

  class HostServiceInstaller {
    var installers: seq<ChildInstaller>   // the Installers collection

    constructor ()
      ensures installers == []
    {
      installers := [];
    }

    /** Install: fails without a configuration, else adds the process then the service installer. */
    method Install(statics: StaticConfiguration) returns (r: Outcome)
      modifies this
      ensures statics.installConfiguration == null ==>
        r == Fail(Error(ErrorKind.Install, "No install configuration has been set.")) && installers == old(installers)
      ensures statics.installConfiguration != null ==>
        r == Pass && installers == old(installers) + InstallInstallers(statics.installConfiguration)
    {
      var configuration := statics.installConfiguration;
      if configuration == null {
        return Fail(Error(ErrorKind.Install, "No install configuration has been set."));
      }
      var processInstaller := ProcessInstallerFor(configuration.userName, configuration.password);
      var installer := ServiceInstaller(configuration.InstancedServiceName(), configuration.DisplayName(),
                                        configuration.Description(), StartTypeFor(configuration.startManually));
      installers := installers + [processInstaller];
      installers := installers + [installer];
      return Pass;
    }

    /** Uninstall: fails without a configuration, else targets the instanced service name. */
    method Uninstall(statics: StaticConfiguration) returns (r: Outcome)
      modifies this
      ensures statics.serviceInstallerConfiguration == null ==>
        r == Fail(Error(ErrorKind.Install, "No uninstall configuration has been set.")) && installers == old(installers)
      ensures statics.serviceInstallerConfiguration != null ==>
        r == Pass && installers == old(installers) + [DefaultProcessInstaller,
          UninstallServiceInstaller(statics.serviceInstallerConfiguration.InstancedServiceName())]
    {
      var configuration := statics.serviceInstallerConfiguration;
      if configuration == null {
        return Fail(Error(ErrorKind.Install, "No uninstall configuration has been set."));
      }
      var processInstaller := DefaultProcessInstaller;
      var installer := UninstallServiceInstaller(configuration.InstancedServiceName());
      installers := installers + [processInstaller];
      installers := installers + [installer];
      return Pass;
    }
  }
}
