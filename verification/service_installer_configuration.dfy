/**
 * The configuration used to uninstall a service (ServiceInstallerConfiguration):
 * the service name, the optional instance, and the rule that names an
 * instanced service `name$instance`.
 */
module ServiceInstallerConfigurations {
  import opened Common
  import opened CommandLine
  import opened Platform

  /** The name under which an instance of the service is registered. */
  function InstancedName(serviceName: string, instance: string): (r: string)
    ensures instance == "" ==> r == serviceName
    ensures instance != "" ==> r == serviceName + "$" + instance
  {
    serviceName + (if instance == "" then "" else "$" + instance)
  }

  /** For one service name, different instances get different registered names. */
  lemma InstancedNameDistinguishesInstances(serviceName: string, instance: string, instance': string)
    requires InstancedName(serviceName, instance) == InstancedName(serviceName, instance')
    ensures instance == instance'
  {
    var r := InstancedName(serviceName, instance);
    if instance != "" && instance' != "" {
      assert instance == r[|serviceName| + 1..];
      assert instance' == r[|serviceName| + 1..];
    }
  }

  /** The registered name starts with the service name and is no shorter. */
  lemma InstancedNameExtendsServiceName(serviceName: string, instance: string)
    ensures |InstancedName(serviceName, instance)| >= |serviceName|
    ensures InstancedName(serviceName, instance)[..|serviceName|] == serviceName
  {
  }

  /** The guard of the base ApplyInvariants. */
  function ServiceNameInvariant(serviceName: string): (r: Outcome)
    ensures r.Fail? <==> serviceName == ""
    ensures r.Fail? ==> r.error == Error(General, "ServiceName may not be empty.")
  {
    if serviceName == "" then Fail(Error(General, "ServiceName may not be empty.")) else Pass
  }

  class ServiceInstallerConfiguration {
    var serviceAssembly: Option<AssemblyRef>
    var serviceName: string
    var instance: string

    /** FromArguments: the service name and instance, each "" when not given. */
    constructor FromArguments(arguments: Arguments)
      ensures serviceAssembly == None
      ensures serviceName == GetString(arguments.parameters, "serviceName", "")
      ensures instance == GetString(arguments.parameters, "instance", "")
    {
      serviceAssembly := None;
      serviceName := arguments.Get("serviceName", "");
      instance := arguments.Get("instance", "");
    }

    predicate HostTypeRequired()
      reads this
    {
      serviceName == ""
    }

    /** Fails exactly when a host type is still required to name the service. */
    function ApplyInvariants(): (r: Outcome)
      reads this
      ensures r.Fail? <==> HostTypeRequired()
      ensures r.Fail? ==> r.error.kind == General
    {
      ServiceNameInvariant(serviceName)
    }

    function InstancedServiceName(): string
      reads this
    {
      InstancedName(serviceName, instance)
    }

    /** Names the service after the host type, unless it already has a name. */
    method ApplyHostType(hostType: TypeInfo)
      modifies this
      ensures serviceName == if old(serviceName) == "" then hostType.fullName else old(serviceName)
      ensures instance == old(instance) && serviceAssembly == old(serviceAssembly)
      ensures hostType.fullName != "" ==> !HostTypeRequired()
    {
      if serviceName == "" {
        serviceName := hostType.fullName;
      }
    }
  }
}
