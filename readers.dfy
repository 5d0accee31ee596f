/**
 * Readers that recover, from a finished manifest, what a cluster would take
 * from it: the ports a container declares, the ports a Service forwards, the
 * Service an Ingress routes to. They are written independently of the
 * builders and accept only entries of exactly the expected shape, so a
 * builder that reads back to its input has produced that shape.
 */
module ManifestReaders {
  import opened Wrappers
  import opened Document

  /** `n` when `e` is exactly `{containerPort: n}`. */
  function ContainerPortNumber(e: Value): Option<int> {
    if e.Dict? && e.fields.Keys == {"containerPort"} && e.fields["containerPort"].Int?
    then Some(e.fields["containerPort"].i)
    else None
  }

  /** `n` when `e` is exactly `{protocol: TCP, port: n, targetPort: n}`. */
  function ServicePortNumber(e: Value): Option<int> {
    if && e.Dict?
       && e.fields.Keys == {"protocol", "port", "targetPort"}
       && e.fields["protocol"] == Str("TCP")
       && e.fields["port"].Int?
       && e.fields["targetPort"] == e.fields["port"]
    then Some(e.fields["port"].i)
    else None
  }

  /** The numbers `read` finds in each entry, in order; None as soon as
      one entry does not read. */
  function ReadAll(entries: seq<Value>, read: Value -> Option<int>): (r: Option<seq<int>>)
    ensures r.Some? ==> |r.value| == |entries|
  {
    if entries == [] then Some([])
    else match (read(entries[0]), ReadAll(entries[1..], read))
      case (Some(n), Some(rest)) => Some([n] + rest)
      case _ => None
  }

  /** The ports declared by the only container of a Deployment. */
  function DeploymentPorts(d: Value): Option<seq<int>> {
    var containers := Get(Get(Get(Get(d, "spec"), "template"), "spec"), "containers");
    if containers.List? && |containers.items| == 1 && Get(containers.items[0], "ports").List?
    then ReadAll(Get(containers.items[0], "ports").items, ContainerPortNumber)
    else None
  }

  /** The ports a Service forwards, each to the same port on the pod over TCP. */
  function ServicePorts(s: Value): Option<seq<int>> {
    var ports := Get(Get(s, "spec"), "ports");
    if ports.List? then ReadAll(ports.items, ServicePortNumber) else None
  }

  /** The Service name and port an Ingress backend routes to. */
  datatype Backend = Backend(service: string, port: int)

  /** The backend of an Ingress with a single rule holding a single path. */
  function IngressBackend(g: Value): Option<Backend> {
    var rules := Get(Get(g, "spec"), "rules");
    if rules.List? && |rules.items| == 1 then
      var paths := Get(Get(rules.items[0], "http"), "paths");
      if paths.List? && |paths.items| == 1 then
        var service := Get(Get(paths.items[0], "backend"), "service");
        var name := Get(service, "name");
        var port := Get(Get(service, "port"), "number");
        if name.Str? && port.Int? then Some(Backend(name.s, port.i)) else None
      else None
    else None
  }

  /** The host of an Ingress with a single rule. */
  function IngressHost(g: Value): Option<string> {
    var rules := Get(Get(g, "spec"), "rules");
    if rules.List? && |rules.items| == 1 && Get(rules.items[0], "host").Str?
    then Some(Get(rules.items[0], "host").s)
    else None
  }

  /** The `metadata.name` of a manifest. */
  function ResourceName(v: Value): Option<string> {
    var name := Get(Get(v, "metadata"), "name");
    if name.Str? then Some(name.s) else None
  }
}
