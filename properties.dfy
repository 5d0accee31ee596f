/**
 * What the three builders promise, stated through the readers: port lists
 * in the manifests follow the analysis one-to-one and in order, with the
 * single default port when the analysis has none; labels and names agree
 * across the manifests; the Ingress always routes to port 80 of the Service.
 */
module ManifestProperties {
  import opened Wrappers
  import opened Document
  import opened Manifests
  import opened Kubernetes
  import opened ManifestReaders

  /** Without an analysis, or without a `ports` key in it, both manifests use port 80 alone. */
  lemma PortDefaulting(imageName: string, config: Option<AnalysisConfig>, suggestions: Option<string>)
    requires config.None? || config.value.ports.None?
    ensures DeploymentPorts(GenerateDeployment(imageName, config, suggestions)) == Some([80])
    ensures ServicePorts(GenerateService(imageName, config)) == Some([80])
  {
    DeploymentDeclaresConfiguredPorts(imageName, config, suggestions);
    ServiceForwardsConfiguredPorts(imageName, config);
  }

  /** A present `ports` key is used as is: an empty list gives no container
      ports and a Service with no ports, which is still emitted. */
  lemma ExplicitPortsAreUsed(imageName: string, ports: seq<int>, envVars: Option<seq<string>>,
                             error: Option<string>, suggestions: Option<string>)
    ensures var config := Some(AnalysisConfig(Some(ports), envVars, error));
      && DeploymentPorts(GenerateDeployment(imageName, config, suggestions)) == Some(ports)
      && ServicePorts(GenerateService(imageName, config)) == Some(ports)
      && Get(GenerateService(imageName, config), "kind") == Str("Service")
  {
    var config := Some(AnalysisConfig(Some(ports), envVars, error));
    DeploymentDeclaresConfiguredPorts(imageName, config, suggestions);
    ServiceForwardsConfiguredPorts(imageName, config);
  }

  /** The Service forwards to exactly the ports the Deployment's container declares. */
  lemma ServiceTargetsContainerPorts(imageName: string, hostName: string, config: Option<AnalysisConfig>)
    ensures var m := GenerateKubernetes(imageName, hostName, config);
      && ServicePorts(m.service).Some?
      && ServicePorts(m.service) == DeploymentPorts(m.deployment)
  {
    DeploymentDeclaresConfiguredPorts(imageName, config, None);
    ServiceForwardsConfiguredPorts(imageName, config);
  }

  /** The Deployment's selector, its pod labels and the Service's selector
      are all `{app: imageName}`, so the Service selects the Deployment's pods. */
  lemma LabelsAgree(imageName: string, hostName: string, config: Option<AnalysisConfig>)
    ensures var m := GenerateKubernetes(imageName, hostName, config);
      && Get(Get(Get(m.deployment, "spec"), "selector"), "matchLabels") == Dict(map["app" := Str(imageName)])
      && Get(Get(Get(Get(m.deployment, "spec"), "template"), "metadata"), "labels") == Dict(map["app" := Str(imageName)])
      && Get(Get(m.service, "spec"), "selector") == Dict(map["app" := Str(imageName)])
  {
  }

  /** The Ingress routes to the Service by its own name, on port 80, whatever
      the analysis says. */
  lemma IngressRoutesToService(imageName: string, hostName: string, config: Option<AnalysisConfig>)
    ensures var m := GenerateKubernetes(imageName, hostName, config);
      && ResourceName(m.service) == Some(imageName + "-service")
      && IngressBackend(m.ingress) == Some(Backend(imageName + "-service", 80))
  {
  }

  /** Port 80, where the Ingress sends traffic, is one the Service forwards
      exactly when it is among the configured ports. */
  lemma IngressBackendServedIff(imageName: string, hostName: string, config: Option<AnalysisConfig>)
    ensures var m := GenerateKubernetes(imageName, hostName, config);
      && IngressBackend(m.ingress).Some?
      && ServicePorts(m.service).Some?
      && (IngressBackend(m.ingress).value.port in ServicePorts(m.service).value
          <==> 80 in ConfiguredPorts(config))
  {
    ServiceForwardsConfiguredPorts(imageName, config);
    IngressRoutesToService(imageName, hostName, config);
  }

  lemma SuffixCancels(a: string, b: string, suffix: string)
    requires a + suffix == b + suffix
    ensures a == b
  {
    assert |a| == |b|;
    assert a == (a + suffix)[..|a|];
    assert b == (b + suffix)[..|b|];
  }

  /** The three resources of one request have pairwise different names, and
      each name determines the image name it was made from. */
  lemma ResourceNamesDistinct(imageName: string, hostName: string, config: Option<AnalysisConfig>)
    ensures var m := GenerateKubernetes(imageName, hostName, config);
      && ResourceName(m.deployment) == Some(imageName + "-deployment")
      && ResourceName(m.service) == Some(imageName + "-service")
      && ResourceName(m.ingress) == Some(imageName + "-ingress")
      && ResourceName(m.deployment) != ResourceName(m.service)
      && ResourceName(m.deployment) != ResourceName(m.ingress)
      && ResourceName(m.service) != ResourceName(m.ingress)
  {
    var n := |imageName|;
    assert (imageName + "-service")[n + 1] == 's';
    assert (imageName + "-ingress")[n + 1] == 'i';
  }

  lemma ResourceNamesDetermineImage(a: string, b: string, hostName: string,
                                    configA: Option<AnalysisConfig>, configB: Option<AnalysisConfig>)
    ensures var ma := GenerateKubernetes(a, hostName, configA);
      var mb := GenerateKubernetes(b, hostName, configB);
      && (ResourceName(ma.deployment) == ResourceName(mb.deployment) ==> a == b)
      && (ResourceName(ma.service) == ResourceName(mb.service) ==> a == b)
      && (ResourceName(ma.ingress) == ResourceName(mb.ingress) ==> a == b)
  {
    if a + "-deployment" == b + "-deployment" { SuffixCancels(a, b, "-deployment"); }
    if a + "-service" == b + "-service" { SuffixCancels(a, b, "-service"); }
    if a + "-ingress" == b + "-ingress" { SuffixCancels(a, b, "-ingress"); }
  }

  /** The Deployment and the Service depend on the analysis only through its
      ports: `env_vars`, `error` and the suggestions never reach them. */
  lemma OnlyPortsMatter(imageName: string, configA: Option<AnalysisConfig>, configB: Option<AnalysisConfig>,
                        suggestionsA: Option<string>, suggestionsB: Option<string>)
    requires ConfiguredPorts(configA) == ConfiguredPorts(configB)
    ensures GenerateDeployment(imageName, configA, suggestionsA) == GenerateDeployment(imageName, configB, suggestionsB)
    ensures GenerateService(imageName, configA) == GenerateService(imageName, configB)
  {
  }

  /** The Ingress is the same whatever the analysis. */
  lemma IngressIgnoresAnalysis(imageName: string, hostName: string,
                               configA: Option<AnalysisConfig>, configB: Option<AnalysisConfig>)
    ensures GenerateKubernetes(imageName, hostName, configA).ingress
         == GenerateKubernetes(imageName, hostName, configB).ingress
  {
  }

  /** A failed analysis (an empty dictionary, or one holding only `error`)
      yields the same manifests as no analysis at all: port 80 alone. */
  lemma FailedAnalysisUsesDefaultPort(imageName: string, hostName: string, error: Option<string>)
    ensures var failed := GenerateKubernetes(imageName, hostName, Some(AnalysisConfig(None, None, error)));
      && failed == GenerateKubernetes(imageName, hostName, None)
      && DeploymentPorts(failed.deployment) == Some([80])
      && ServicePorts(failed.service) == Some([80])
  {
    PortDefaulting(imageName, None, None);
  }
}
