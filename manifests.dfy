/**
 * The three Kubernetes manifests synthesised from a Dockerfile analysis
 * (app/app.py): a Deployment, a Service and an Ingress, each built as one
 * nested dictionary. Serialisation to YAML text is not part of this model.
 */
module Manifests {
  import opened Wrappers
  import opened Document

  /**
   * The analysis dictionary of a Dockerfile, reduced to the keys the
   * builders look up: `ports` and `env_vars` (None when the key is absent).
   * `error` is the only key of the dictionary the analysis returns when the
   * external model call fails.
   */
  datatype AnalysisConfig = AnalysisConfig(
    ports: Option<seq<int>>,
    envVars: Option<seq<string>>,
    error: Option<string>)

  /** The port used when the analysis has no `ports` key. */
  const DEFAULT_PORT := 80
  /** The Service port every Ingress backend names, whatever the analysis says. */
  const INGRESS_BACKEND_PORT := 80

  /**
   * The ports both builders iterate over: the analysis's `ports` entry, or
   * the single default port when there is no analysis or no such key.
   * A present but empty list stays empty.
   */
  function ConfiguredPorts(config: Option<AnalysisConfig>): (ports: seq<int>)
    ensures config.None? || config.value.ports.None? ==> ports == [DEFAULT_PORT]
    ensures config.Some? && config.value.ports.Some? ==> ports == config.value.ports.value
  {
    match config
    case None => [DEFAULT_PORT]
    case Some(c) => c.ports.GetOr([DEFAULT_PORT])
  }

  /** The labels that tie pods, selectors and the Service together. */
  function AppLabels(imageName: string): Value {
    Dict(map["app" := Str(imageName)])
  }

  function ContainerPort(port: int): Value {
    Dict(map["containerPort" := Int(port)])
  }

  function ServicePort(port: int): Value {
    Dict(map["protocol" := Str("TCP"), "port" := Int(port), "targetPort" := Int(port)])
  }

  /** The container's port list: one entry per port, in the given order. */
  function ContainerPortEntries(ports: seq<int>): (entries: seq<Value>)
    ensures |entries| == |ports|
    ensures forall i :: 0 <= i < |ports| ==> entries[i] == ContainerPort(ports[i])
  {
    if ports == [] then [] else [ContainerPort(ports[0])] + ContainerPortEntries(ports[1..])
  }

  /** The Service's port list: one TCP entry per port, in the given order,
      each forwarding to the same port number on the pod. */
  function ServicePortEntries(ports: seq<int>): (entries: seq<Value>)
    ensures |entries| == |ports|
    ensures forall i :: 0 <= i < |ports| ==> entries[i] == ServicePort(ports[i])
  {
    if ports == [] then [] else [ServicePort(ports[0])] + ServicePortEntries(ports[1..])
  }

  /** A top-level manifest: exactly `apiVersion`, `kind`, `metadata` holding
      only `name`, and `spec`. */
  function Resource(apiVersion: string, kind: string, name: string, spec: Value): (r: Value)
    ensures r.Dict? && r.fields.Keys == {"apiVersion", "kind", "metadata", "spec"}
    ensures Get(r, "metadata").Dict? && Get(r, "metadata").fields.Keys == {"name"}
    ensures Get(r, "apiVersion") == Str(apiVersion)
    ensures Get(r, "kind") == Str(kind)
    ensures Get(Get(r, "metadata"), "name") == Str(name)
    ensures Get(r, "spec") == spec
  {
    Dict(map[
      "apiVersion" := Str(apiVersion),
      "kind" := Str(kind),
      "metadata" := Dict(map["name" := Str(name)]),
      "spec" := spec])
  }

  /** The Deployment's pod spec: a single container named after, and
      running, `imageName`. */
  function PodSpec(imageName: string, ports: seq<int>): (p: Value)
    ensures p.Dict? && p.fields.Keys == {"containers"}
    ensures var cs := Get(p, "containers");
      && cs.List? && |cs.items| == 1
      && cs.items[0].Dict? && cs.items[0].fields.Keys == {"name", "image", "ports"}
      && Get(cs.items[0], "name") == Str(imageName)
      && Get(cs.items[0], "image") == Str(imageName)
      && Get(cs.items[0], "ports") == List(ContainerPortEntries(ports))
  {
    Dict(map["containers" := List([Dict(map[
      "name" := Str(imageName),
      "image" := Str(imageName),
      "ports" := List(ContainerPortEntries(ports))])])])
  }

  /** The Deployment's spec: one replica of a pod labelled `{app: imageName}`,
      selected by that same label. */
  function DeploymentSpec(imageName: string, ports: seq<int>): (spec: Value)
    ensures spec.Dict? && spec.fields.Keys == {"replicas", "selector", "template"}
    ensures Get(spec, "selector").Dict? && Get(spec, "selector").fields.Keys == {"matchLabels"}
    ensures var template := Get(spec, "template");
      && template.Dict? && template.fields.Keys == {"metadata", "spec"}
      && Get(template, "metadata").Dict? && Get(template, "metadata").fields.Keys == {"labels"}
    ensures Get(spec, "replicas") == Int(1)
    ensures Get(Get(spec, "selector"), "matchLabels") == AppLabels(imageName)
    ensures Get(Get(Get(spec, "template"), "metadata"), "labels") == AppLabels(imageName)
    ensures Get(Get(spec, "template"), "spec") == PodSpec(imageName, ports)
  {
    Dict(map[
      "replicas" := Int(1),
      "selector" := Dict(map["matchLabels" := AppLabels(imageName)]),
      "template" := Dict(map[
        "metadata" := Dict(map["labels" := AppLabels(imageName)]),
        "spec" := PodSpec(imageName, ports)])])
  }

  /**
   * The Deployment for `imageName`. `suggestions` is accepted and never
   * used, and the analysis's `env_vars` is looked up but never placed in
   * the manifest.
   */
  function GenerateDeployment(imageName: string, config: Option<AnalysisConfig>,
                              suggestions: Option<string>): (d: Value)
    ensures Get(d, "apiVersion") == Str("apps/v1")
    ensures Get(d, "kind") == Str("Deployment")
    ensures d.Dict? && d.fields.Keys == {"apiVersion", "kind", "metadata", "spec"}
    ensures Get(d, "metadata").Dict? && Get(d, "metadata").fields.Keys == {"name"}
    ensures Get(Get(d, "metadata"), "name") == Str(imageName + "-deployment")
    ensures Get(d, "spec") == DeploymentSpec(imageName, ConfiguredPorts(config))
  {
    Resource("apps/v1", "Deployment", imageName + "-deployment",
             DeploymentSpec(imageName, ConfiguredPorts(config)))
  }

  /** The Service for `imageName`: always emitted, even with no ports. */
  function GenerateService(imageName: string, config: Option<AnalysisConfig>): (s: Value)
    ensures Get(s, "apiVersion") == Str("v1")
    ensures Get(s, "kind") == Str("Service")
    ensures s.Dict? && s.fields.Keys == {"apiVersion", "kind", "metadata", "spec"}
    ensures Get(s, "metadata").Dict? && Get(s, "metadata").fields.Keys == {"name"}
    ensures Get(Get(s, "metadata"), "name") == Str(imageName + "-service")
    ensures Get(s, "spec").Dict? && Get(s, "spec").fields.Keys == {"selector", "ports", "type"}
    ensures Get(Get(s, "spec"), "type") == Str("ClusterIP")
    ensures Get(Get(s, "spec"), "selector") == AppLabels(imageName)
    ensures Get(Get(s, "spec"), "ports").List?
    ensures |Get(Get(s, "spec"), "ports").items| == |ConfiguredPorts(config)|
  {
    Resource("v1", "Service", imageName + "-service",
      Dict(map[
        "selector" := AppLabels(imageName),
        "ports" := List(ServicePortEntries(ConfiguredPorts(config))),
        "type" := Str("ClusterIP")]))
  }

  /** The Ingress rule's only path: everything under `/`, sent to the
      Service of `imageName` on port 80. */
  function IngressPath(imageName: string): (p: Value)
    ensures p.Dict? && p.fields.Keys == {"path", "pathType", "backend"}
    ensures var backend := Get(p, "backend");
      && backend.Dict? && backend.fields.Keys == {"service"}
      && Get(backend, "service").Dict? && Get(backend, "service").fields.Keys == {"name", "port"}
      && Get(Get(backend, "service"), "port").Dict?
      && Get(Get(backend, "service"), "port").fields.Keys == {"number"}
    ensures Get(p, "path") == Str("/")
    ensures Get(p, "pathType") == Str("Prefix")
    ensures Get(Get(Get(p, "backend"), "service"), "name") == Str(imageName + "-service")
    ensures Get(Get(Get(Get(p, "backend"), "service"), "port"), "number") == Int(INGRESS_BACKEND_PORT)
  {
    Dict(map[
      "path" := Str("/"),
      "pathType" := Str("Prefix"),
      "backend" := Dict(map[
        "service" := Dict(map[
          "name" := Str(imageName + "-service"),
          "port" := Dict(map["number" := Int(INGRESS_BACKEND_PORT)])])])])
  }

  /** The Ingress's only rule: requests for `hostName`, on the single path above. */
  function IngressRule(imageName: string, hostName: string): (rule: Value)
    ensures rule.Dict? && rule.fields.Keys == {"host", "http"}
    ensures Get(rule, "http").Dict? && Get(rule, "http").fields.Keys == {"paths"}
    ensures Get(rule, "host") == Str(hostName)
    ensures Get(Get(rule, "http"), "paths") == List([IngressPath(imageName)])
  {
    Dict(map[
      "host" := Str(hostName),
      "http" := Dict(map["paths" := List([IngressPath(imageName)])])])
  }

  /** The Ingress for `imageName`: it does not read the analysis at all. */
  function GenerateIngress(imageName: string, hostName: string): (g: Value)
    ensures Get(g, "apiVersion") == Str("networking.k8s.io/v1")
    ensures Get(g, "kind") == Str("Ingress")
    ensures g.Dict? && g.fields.Keys == {"apiVersion", "kind", "metadata", "spec"}
    ensures Get(g, "metadata").Dict? && Get(g, "metadata").fields.Keys == {"name"}
    ensures Get(Get(g, "metadata"), "name") == Str(imageName + "-ingress")
    ensures Get(g, "spec").Dict? && Get(g, "spec").fields.Keys == {"rules"}
    ensures Get(Get(g, "spec"), "rules") == List([IngressRule(imageName, hostName)])
  {
    Resource("networking.k8s.io/v1", "Ingress", imageName + "-ingress",
             Dict(map["rules" := List([IngressRule(imageName, hostName)])]))
  }
}
