/**
 * The configuration used to install a service (InstallConfiguration): the
 * uninstall configuration plus display name, description, configuration
 * file, host type, account credentials and start mode, and the command line
 * that starts the installed service.
 */
module InstallConfigurations {
  import opened Common
  import opened CommandLine
  import opened Platform
  import opened ServiceInstallerConfigurations

  /** The description used when none is given: it quotes the display name. */
  function DefaultDescription(displayName: string): (r: string)
    ensures |r| == |displayName| + 25
    ensures r[23..|r| - 2] == displayName
  {
    "Shuttle.Core.Host for '" + displayName + "'."
  }

  /** The switches written by CommandLineArguments, in order. */
  function ServiceSwitches(instancedName: string, configurationFileName: string, hostType: string): seq<(string, string)>
  {
    [("serviceName", instancedName)]
    + (if configurationFileName == "" then [] else [("configurationFileName", configurationFileName)])
    + [("hostType", hostType)]
  }

  /** The command line for the service: its switches, one space apart. */
  function ServiceCommandLine(instancedName: string, configurationFileName: string, hostType: string): (r: string)
    ensures r == Join(" ", SwitchTokens(ServiceSwitches(instancedName, configurationFileName, hostType)))
  {
    var tokens := SwitchTokens(ServiceSwitches(instancedName, configurationFileName, hostType));
    var first := SwitchToken("serviceName", instancedName);
    var last := SwitchToken("hostType", hostType);
    if configurationFileName == "" then
      assert tokens == [first, last];
      first + " " + last
    else
      var middle := SwitchToken("configurationFileName", configurationFileName);
      assert tokens == [first, middle, last];
      assert tokens[1..] == [middle, last];
      assert Join(" ", [middle, last]) == middle + " " + last;
      first + " " + middle + " " + last
  }

  lemma ServiceSwitchesWellFormed(instancedName: string, configurationFileName: string, hostType: string)
    requires NoLineBreak(instancedName) && NoLineBreak(configurationFileName) && NoLineBreak(hostType)
    ensures WellFormedSwitches(ServiceSwitches(instancedName, configurationFileName, hostType))
  {
    assert Lower("serviceName")[0] == 's' && Lower("configurationFileName")[0] == 'c' && Lower("hostType")[0] == 'h';
    assert IsSwitchName("/", "serviceName") && IsSwitchName("/", "configurationFileName") && IsSwitchName("/", "hostType");
    NamesDistinctByFirstLetter(ServiceSwitches(instancedName, configurationFileName, hostType));
  }

  /** The table the service's command line parses into. */
  function ServiceTable(instancedName: string, configurationFileName: string, hostType: string): ArgumentTable
  {
    Parse(SwitchTokens(ServiceSwitches(instancedName, configurationFileName, hostType)))
  }

  lemma ServiceNameReadBack(instancedName: string, configurationFileName: string, hostType: string)
    requires NoLineBreak(instancedName) && NoLineBreak(configurationFileName) && NoLineBreak(hostType)
    ensures GetString(ServiceTable(instancedName, configurationFileName, hostType), "serviceName", "") == instancedName
  {
    ServiceSwitchesWellFormed(instancedName, configurationFileName, hostType);
    GetOfSwitchTokens(ServiceSwitches(instancedName, configurationFileName, hostType), 0, "");
  }

  lemma HostTypeReadBack(instancedName: string, configurationFileName: string, hostType: string)
    requires NoLineBreak(instancedName) && NoLineBreak(configurationFileName) && NoLineBreak(hostType)
    ensures GetString(ServiceTable(instancedName, configurationFileName, hostType), "hostType", "") == hostType
  {
    var switches := ServiceSwitches(instancedName, configurationFileName, hostType);
    ServiceSwitchesWellFormed(instancedName, configurationFileName, hostType);
    GetOfSwitchTokens(switches, |switches| - 1, "");
  }

  lemma ConfigurationFileReadBack(instancedName: string, configurationFileName: string, hostType: string)
    requires NoLineBreak(instancedName) && NoLineBreak(configurationFileName) && NoLineBreak(hostType)
    ensures GetString(ServiceTable(instancedName, configurationFileName, hostType), "configurationFileName", "") == configurationFileName
  {
    var switches := ServiceSwitches(instancedName, configurationFileName, hostType);
    ServiceSwitchesWellFormed(instancedName, configurationFileName, hostType);
    if configurationFileName != "" {
      GetOfSwitchTokens(switches, 1, "");
    } else {
      assert Lower("configurationFileName")[0] == 'c';
      GetOfMissingSwitch(switches, "configurationFileName", "");
    }
  }

  lemma InstanceReadBackEmpty(instancedName: string, configurationFileName: string, hostType: string)
    requires NoLineBreak(instancedName) && NoLineBreak(configurationFileName) && NoLineBreak(hostType)
    ensures GetString(ServiceTable(instancedName, configurationFileName, hostType), "instance", "") == ""
  {
    var switches := ServiceSwitches(instancedName, configurationFileName, hostType);
    ServiceSwitchesWellFormed(instancedName, configurationFileName, hostType);
    assert Lower("instance")[0] == 'i';
    GetOfMissingSwitch(switches, "instance", "");
  }

  /**
   * Reading the service's command line back gives the values that were written:
   * the instanced name, the configuration file ("" when omitted) and the host type,
   * with no separate instance.
   */
  lemma ServiceCommandLineRoundTrip(instancedName: string, configurationFileName: string, hostType: string)
    requires NoLineBreak(instancedName) && NoLineBreak(configurationFileName) && NoLineBreak(hostType)
    ensures GetString(ServiceTable(instancedName, configurationFileName, hostType), "serviceName", "") == instancedName
    ensures GetString(ServiceTable(instancedName, configurationFileName, hostType), "configurationFileName", "") == configurationFileName
    ensures GetString(ServiceTable(instancedName, configurationFileName, hostType), "hostType", "") == hostType
    ensures GetString(ServiceTable(instancedName, configurationFileName, hostType), "instance", "") == ""
  {
    ServiceNameReadBack(instancedName, configurationFileName, hostType);
    ConfigurationFileReadBack(instancedName, configurationFileName, hostType);
    HostTypeReadBack(instancedName, configurationFileName, hostType);
    InstanceReadBackEmpty(instancedName, configurationFileName, hostType);
  }

  /** DisplayName of a configuration: the given display name, or else the instanced service name. */
  function DisplayNameOf(displayName: string, serviceName: string, instance: string): string
  {
    if displayName != "" then displayName else InstancedName(serviceName, instance)
  }

  /** Description of a configuration: the given description, or else one naming the display name. */
  function DescriptionOf(description: string, displayName: string): string
  {
    if description != "" then description else DefaultDescription(displayName)
  }

  /** ApplyInvariants of a configuration: the base guard, then the two host-type names in order. */
  function InstallInvariants(serviceName: string, hostTypeFullName: string, hostTypeAssemblyQualifiedName: string): Outcome
  {
    match ServiceNameInvariant(serviceName)
    case Fail(e) => Fail(e)
    case Pass =>
      if hostTypeFullName == "" then Fail(Error(General, "HostTypeFullName may not be empty."))
      else if hostTypeAssemblyQualifiedName == "" then Fail(Error(General, "HostTypeAssemblyQualifiedName may not be empty."))
      else Pass
  }

  class InstallConfiguration {
    var serviceAssembly: Option<AssemblyRef>
    var serviceName: string
    var instance: string
    var displayName: string             // the backing field of DisplayName
    var description: string             // the backing field of Description
    var configurationFileName: string
    var hostTypeFullName: string
    var hostTypeAssemblyQualifiedName: string
    var userName: string
    var password: string
    var startManually: bool

    /** FromArguments: the five names read from the command line; the rest keep their defaults. */
    constructor FromArguments(arguments: Arguments)
      ensures serviceName == GetString(arguments.parameters, "serviceName", "")
      ensures instance == GetString(arguments.parameters, "instance", "")
      ensures displayName == GetString(arguments.parameters, "displayName", "")
      ensures description == GetString(arguments.parameters, "description", "")
      ensures configurationFileName == GetString(arguments.parameters, "configurationFileName", "")
      ensures serviceAssembly == None
      ensures hostTypeFullName == "" && hostTypeAssemblyQualifiedName == ""
      ensures userName == "" && password == "" && !startManually
      ensures HostTypeRequired()
    {
      serviceAssembly := None;
      serviceName := arguments.Get("serviceName", "");
      instance := arguments.Get("instance", "");
      displayName := arguments.Get("displayName", "");
      description := arguments.Get("description", "");
      configurationFileName := arguments.Get("configurationFileName", "");
      hostTypeFullName := "";
      hostTypeAssemblyQualifiedName := "";
      userName := "";
      password := "";
      startManually := false;
    }

    function InstancedServiceName(): string
      reads this
    {
      InstancedName(serviceName, instance)
    }

    /** The given display name, or else the instanced service name. */
    function DisplayName(): (r: string)
      reads this
      ensures displayName != "" ==> r == displayName
      ensures displayName == "" ==> r == InstancedName(serviceName, instance)
      ensures serviceName != "" ==> r != ""
    {
      DisplayNameOf(displayName, serviceName, instance)
    }

    /** The given description, or else one naming the display name; never empty. */
    function Description(): (r: string)
      reads this
      ensures description != "" ==> r == description
      ensures description == "" ==> r == DefaultDescription(DisplayName())
      ensures r != ""
    {
      DescriptionOf(description, DisplayName())
    }

    /** A host type must still be found while any of the three names is missing. */
    predicate HostTypeRequired()
      reads this
    {
      serviceName == "" || hostTypeAssemblyQualifiedName == "" || hostTypeFullName == ""
    }

    /** The base guard, then the two host-type names, each with its own message. */
    function ApplyInvariants(): (r: Outcome)
      reads this
      ensures r.Fail? <==> HostTypeRequired()
      ensures serviceName == "" ==> r == Fail(Error(General, "ServiceName may not be empty."))
      ensures serviceName != "" && hostTypeFullName == "" ==>
        r == Fail(Error(General, "HostTypeFullName may not be empty."))
      ensures serviceName != "" && hostTypeFullName != "" && hostTypeAssemblyQualifiedName == "" ==>
        r == Fail(Error(General, "HostTypeAssemblyQualifiedName may not be empty."))
    {
      InstallInvariants(serviceName, hostTypeFullName, hostTypeAssemblyQualifiedName)
    }

    /** The command line of the installed service; it parses back to this configuration. */
    function CommandLineArguments(): (r: string)
      reads this
      ensures r == Join(" ", SwitchTokens(ServiceSwitches(InstancedServiceName(), configurationFileName, hostTypeAssemblyQualifiedName)))
    {
      ServiceCommandLine(InstancedServiceName(), configurationFileName, hostTypeAssemblyQualifiedName)
    }

    /** Takes both host-type names from the type and names the service after it if unnamed. */
    method ApplyHostType(hostType: TypeInfo)
      modifies this
      ensures serviceName == if old(serviceName) == "" then hostType.fullName else old(serviceName)
      ensures hostTypeAssemblyQualifiedName == hostType.assemblyQualifiedName
      ensures hostTypeFullName == hostType.fullName
      ensures instance == old(instance) && displayName == old(displayName) && description == old(description)
      ensures configurationFileName == old(configurationFileName) && serviceAssembly == old(serviceAssembly)
      ensures userName == old(userName) && password == old(password) && startManually == old(startManually)
      ensures hostType.fullName != "" && hostType.assemblyQualifiedName != "" ==> !HostTypeRequired()
    {
      if serviceName == "" {
        serviceName := hostType.fullName;
      }
      hostTypeAssemblyQualifiedName := hostType.assemblyQualifiedName;
      hostTypeFullName := hostType.fullName;
    }
  }
}
