# Kubernetes manifest synthesis

This project models the part of the Dockerfile assistant that turns a
Dockerfile analysis into three Kubernetes manifests: a Deployment, a
Service and an Ingress (`app/app.py`). Each builder assembles one nested
dictionary. That dictionary is then serialised to YAML text. The model
stops before serialisation: a manifest is a document tree
(`Document.Value`: null, string, integer, list, or mapping with unordered
keys, since the serialiser sorts keys). The analysis is
`Option<AnalysisConfig>`. `None` stands for the builders' `None` default.
`AnalysisConfig.ports` is `None` when the dictionary has no `ports` key.
It is `Some(list)`, possibly empty, when the key is present.

Files:

- `wrappers.dfy`: the `Option` type.
- `document.dfy`: the document tree and `Get`, the dictionary lookup that yields `Null` for a missing key.
- `manifests.dfy`: the builders `GenerateDeployment`, `GenerateService` and `GenerateIngress`, and the port defaulting they share.
- `kubernetes.dfy`: one request, `GenerateKubernetes`, and the lemmas that read each builder's ports, host and backend back.
- `readers.dfy`: readers written apart from the builders. They recover what a cluster takes from a manifest: a container's ports, a Service's forwarded ports, an Ingress's host and backend, and a resource's name. They accept only entries of exactly the expected shape.
- `properties.dfy`: lemmas about defaulting, and about how the three manifests agree with each other.

What the code does and the model keeps:

- Port defaulting. With no analysis, or no `ports` key, both the Deployment and the Service use port 80 alone.
- A present empty list gives no port entries, and the Service is still emitted.
- The ports are copied one-to-one and in order. They are not sorted or deduplicated.
- Every Service is of type `ClusterIP`. Its ports are TCP with `port == targetPort`.
- The Ingress never reads the analysis. It always routes `/` (prefix match) on the given host to port 80 of `<image>-service`.
- The Deployment has one replica and one container. Both the container's name and its image are the image name.
- `env_vars` is looked up but never used. The suggestions parameter is never used.

The code does not:

- sort or deduplicate the ports, or leave out the default port when none is found;
- leave out the Service when there are no ports;
- route the Ingress to one of the configured ports;
- add health probes, resource requests or limits, or security contexts;
- check that the Dockerfile contains `FROM`.

The model adds none of these. The builders' contracts give the exact key set
of every mapping above the port entries, so no other field can appear. Because the Ingress always routes to port 80,
`IngressBackendServedIff` shows that the Service forwards the Ingress's
port exactly when 80 is a configured port.

## Model

| member | source | states |
|---|---|---|
| `Manifests.ConfiguredPorts` | app/app.py:74-77 | with no analysis (`None`, rebound to `{}`) or no `ports` key the ports are `[80]`; a present `ports` list, even an empty one, is used as is |
| `Manifests.ContainerPortEntries` | app/app.py:103 | one `{containerPort: p}` entry per configured port, same length, same order |
| `Manifests.ServicePortEntries` | app/app.py:131-135 | one `{protocol: TCP, port: p, targetPort: p}` entry per configured port, same length, same order |
| `Manifests.Resource` | app/app.py:80-85 | a top-level manifest has exactly the keys `apiVersion`, `kind`, `metadata` (holding only `name`) and `spec`, with the given values |
| `Manifests.PodSpec` | app/app.py:99-105 | the pod spec holds only `containers`: exactly one container with exactly the keys `name`, `image`, `ports`, whose name and image are both the image name and whose ports are the container port entries |
| `Manifests.DeploymentSpec` | app/app.py:86-107 | exactly the keys `replicas`, `selector`, `template`; `replicas` is 1; selector `matchLabels` and pod template labels are both `{app: image}`; the template holds only `metadata` (only `labels`) and the single-container pod spec |
| `Manifests.GenerateDeployment` | app/app.py:70-110 | `apps/v1` Deployment named `<image>-deployment`, with no top-level keys other than the four, whose spec is built from the defaulted ports; the suggestions do not enter it |
| `Manifests.GenerateService` | app/app.py:112-140 | `v1` Service named `<image>-service` whose spec has exactly `selector` (`{app: image}`), `ports` (as many entries as configured ports) and `type` (`ClusterIP`); always produced |
| `Manifests.IngressPath` | app/app.py:156-167 | exactly `path: /`, `pathType: Prefix` and a backend holding only `service`, which holds only `name` (`<image>-service`) and `port` (holding only `number: 80`) |
| `Manifests.IngressRule` | app/app.py:153-169 | the rule holds only `host` (the given host) and `http`, which holds only the single path above |
| `Manifests.GenerateIngress` | app/app.py:142-173 | `networking.k8s.io/v1` Ingress named `<image>-ingress` whose spec holds only `rules`, with exactly one rule; takes no analysis |
| `Kubernetes.GenerateKubernetes` | app/app.py:203-207 | one request yields a Deployment, a Service and an Ingress; the Deployment's and the Service's ports are the configured ports, the Ingress serves the given host and routes to `<image>-service` on port 80 |
| `Kubernetes.ContainerPortsReadBack` | app/app.py:103 | reading the container port entries back gives the port list exactly |
| `Kubernetes.ServicePortsReadBack` | app/app.py:131-135 | reading the Service port entries back, each required to be TCP with `port == targetPort`, gives the port list exactly |
| `Kubernetes.DeploymentDeclaresConfiguredPorts` | app/app.py:74-103 | the Deployment's container declares exactly the defaulted ports, in order |
| `Kubernetes.ServiceForwardsConfiguredPorts` | app/app.py:116-136 | the Service forwards exactly the defaulted ports, in order, each over TCP to the same port |
| `Kubernetes.IngressReadsBack` | app/app.py:153-163 | the Ingress's single rule is for the given host and its single path routes to `<image>-service` on port 80 |
| `ManifestProperties.PortDefaulting` | app/app.py:74-77 | with no analysis or no `ports` key, the Deployment and the Service both use exactly `[80]` |
| `ManifestProperties.ExplicitPortsAreUsed` | app/app.py:77-137 | a present `ports` list is used verbatim (an empty one gives no entries) and the Service is still emitted |
| `ManifestProperties.ServiceTargetsContainerPorts` | app/app.py:203-206 | within one request the Service's ports equal the Deployment container's ports |
| `ManifestProperties.LabelsAgree` | app/app.py:88-130 | Deployment selector, pod labels and Service selector are all `{app: image}` |
| `ManifestProperties.IngressRoutesToService` | app/app.py:161-163 | the Ingress backend is the Service's own `metadata.name`, on port 80 |
| `ManifestProperties.IngressBackendServedIff` | app/app.py:142-163 | port 80 of the Ingress backend is among the Service's ports if and only if 80 is a configured port |
| `ManifestProperties.IngressIgnoresAnalysis` | app/app.py:142 | the Ingress is the same for every analysis |
| `ManifestProperties.ResourceNamesDistinct` | app/app.py:84-150 | names are `<image>-deployment`, `<image>-service`, `<image>-ingress`, pairwise different |
| `ManifestProperties.ResourceNamesDetermineImage` | app/app.py:84-150 | equal names of the same kind come from equal image names |
| `ManifestProperties.OnlyPortsMatter` | app/app.py:70-78 | Deployment and Service depend on the analysis only through its defaulted ports: `env_vars`, other keys and suggestions have no effect |
| `ManifestProperties.FailedAnalysisUsesDefaultPort` | app/app.py:65-68 | a failed analysis (`{}` or `{error: ...}`) gives the same manifests as no analysis, with port 80 alone |

## Left out

- YAML serialisation of the three documents: a third-party serialiser. The model stops at the document tree.
- The calls to the external language model: the configuration report and the Dockerfile analysis, with its fenced-JSON extraction and JSON parsing. The analysis is a parameter of `GenerateKubernetes`. Its failure results matter downstream only as "no `ports` key" (`FailedAnalysisUsesDefaultPort`).
- An analysis that parses to something other than a dictionary or null, such as a list or a number. The code then fails on `.get`. `AnalysisConfig` cannot express that value.
- A `ports` value that is not a list of integers. The code iterates over whatever it is: a string gives one entry per character (`"8080"` gives `8`, `0`, `8`, `0`), a mapping gives one entry per key, and list items that are not integers are copied verbatim. Only a null, number or boolean value makes it fail. The model takes ports as a list of integers and cannot express these cases.
- Analysis keys the builders never read (`base_image`, `volumes`, `command`, `resources`) are not represented. `env_vars` and `error` are represented, to show they have no effect.
- `GenerateDeployment`: the suggestions parameter may be any value in the code. Here it is an optional string. It is never used either way.
- The HTTP layer: routes, upload checks, the form defaults `my-app` and `example.com` for the image and host names, and environment and API-key loading. `GenerateKubernetes` takes the two names as given.
- The browser script `app/static/js/main.js`: DOM handlers, requests and downloads, with no logic to model.
