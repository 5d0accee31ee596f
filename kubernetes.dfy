/**
 * One request of the manifest generator (app/app.py): the analysis of the
 * uploaded Dockerfile feeds the three builders. The lemmas here read each
 * builder's output back, and tie what the request returns to its inputs.
 */
module Kubernetes {
  import opened Wrappers
  import opened Document
  import opened Manifests
  import opened ManifestReaders

  /** The three manifests one request produces. */
  datatype ManifestSet = ManifestSet(deployment: Value, service: Value, ingress: Value)

  /**
   * One request's manifests: the analysis feeds the Deployment (without
   * suggestions) and the Service; the Ingress depends only on the names.
   */
  function GenerateKubernetes(imageName: string, hostName: string,
                              config: Option<AnalysisConfig>): (m: ManifestSet)
    ensures Get(m.deployment, "kind") == Str("Deployment")
    ensures Get(m.service, "kind") == Str("Service")
    ensures Get(m.ingress, "kind") == Str("Ingress")
    ensures DeploymentPorts(m.deployment) == Some(ConfiguredPorts(config))
    ensures ServicePorts(m.service) == Some(ConfiguredPorts(config))
    ensures IngressHost(m.ingress) == Some(hostName)
    ensures IngressBackend(m.ingress) == Some(Backend(imageName + "-service", INGRESS_BACKEND_PORT))
  {
    DeploymentDeclaresConfiguredPorts(imageName, config, None);
    ServiceForwardsConfiguredPorts(imageName, config);
    IngressReadsBack(imageName, hostName);
    ManifestSet(
      GenerateDeployment(imageName, config, None),
      GenerateService(imageName, config),
      GenerateIngress(imageName, hostName))
  }

  /** Reading the container port entries back gives the ports, in order. */
  lemma {:induction false} ContainerPortsReadBack(ports: seq<int>)
    ensures ReadAll(ContainerPortEntries(ports), ContainerPortNumber) == Some(ports)
  {
    if ports != [] {
      var rest := ContainerPortEntries(ports[1..]);
      assert ContainerPortEntries(ports) == [ContainerPort(ports[0])] + rest;
      ContainerPortReadsBack(ports[0]);
      ContainerPortsReadBack(ports[1..]);
      assert ([ContainerPort(ports[0])] + rest)[1..] == rest;
      assert [ports[0]] + ports[1..] == ports;
    }
  }

  lemma ContainerPortReadsBack(port: int)
    ensures ContainerPortNumber(ContainerPort(port)) == Some(port)
  {
    assert ContainerPort(port).fields.Keys == {"containerPort"};
  }

  /** Reading the Service port entries back, each required to be TCP with
      equal port and target port, gives the ports, in order. */
  lemma {:induction false} ServicePortsReadBack(ports: seq<int>)
    ensures ReadAll(ServicePortEntries(ports), ServicePortNumber) == Some(ports)
  {
    if ports != [] {
      var rest := ServicePortEntries(ports[1..]);
      assert ServicePortEntries(ports) == [ServicePort(ports[0])] + rest;
      ServicePortReadsBack(ports[0]);
      ServicePortsReadBack(ports[1..]);
      assert ([ServicePort(ports[0])] + rest)[1..] == rest;
      assert [ports[0]] + ports[1..] == ports;
    }
  }

  lemma ServicePortReadsBack(port: int)
    ensures ServicePortNumber(ServicePort(port)) == Some(port)
  {
    assert ServicePort(port).fields.Keys == {"protocol", "port", "targetPort"};
  }

  /** The Deployment's container declares exactly the configured ports, in order. */
  lemma DeploymentDeclaresConfiguredPorts(imageName: string, config: Option<AnalysisConfig>,
                                          suggestions: Option<string>)
    ensures DeploymentPorts(GenerateDeployment(imageName, config, suggestions)) == Some(ConfiguredPorts(config))
  {
    ContainerPortsReadBack(ConfiguredPorts(config));
  }

  /** The Service forwards exactly the configured ports, in order, each over
      TCP to the same port number on the pod. */
  lemma ServiceForwardsConfiguredPorts(imageName: string, config: Option<AnalysisConfig>)
    ensures ServicePorts(GenerateService(imageName, config)) == Some(ConfiguredPorts(config))
  {
    ServicePortsReadBack(ConfiguredPorts(config));
  }

  /** The Ingress serves `hostName` and routes to the Service of `imageName` on port 80. */
  lemma IngressReadsBack(imageName: string, hostName: string)
    ensures IngressHost(GenerateIngress(imageName, hostName)) == Some(hostName)
    ensures IngressBackend(GenerateIngress(imageName, hostName))
         == Some(Backend(imageName + "-service", INGRESS_BACKEND_PORT))
  {
    var rule := IngressRule(imageName, hostName);
    assert Get(Get(GenerateIngress(imageName, hostName), "spec"), "rules").items == [rule];
  }
}
