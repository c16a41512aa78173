/**
 * The cluster objects the handler reads, as the Kubernetes Python client
 * returns them from the six `list_namespaced_*` calls. Only the fields the
 * projection touches are kept; a field the client leaves as `None` when the
 * server omits it is an Option. Counts are `nat` because the API server
 * rejects negative replica, restart and port numbers.
 */
module Cluster {
  import opened Wrappers

  /** The object's name and its creation time in microseconds. */
  datatype ObjectMeta = ObjectMeta(name: string, creationTimestamp: int)

  // Pods

  datatype Container = Container(name: string)

  datatype ContainerStatus = ContainerStatus(ready: bool, restartCount: nat)

  datatype PodSpec = PodSpec(containers: seq<Container>)

  datatype PodStatus = PodStatus(phase: Option<string>, containerStatuses: Option<seq<ContainerStatus>>)

  datatype Pod = Pod(metadata: ObjectMeta, spec: PodSpec, status: PodStatus)

  // Services

  datatype ServicePort = ServicePort(port: nat)

  datatype ServiceSpec = ServiceSpec(serviceType: Option<string>, clusterIp: Option<string>, ports: Option<seq<ServicePort>>)

  datatype Service = Service(metadata: ObjectMeta, spec: ServiceSpec)

  // Deployments

  datatype DeploymentSpec = DeploymentSpec(replicas: nat)

  datatype DeploymentStatus = DeploymentStatus(
    readyReplicas: Option<nat>,
    updatedReplicas: Option<nat>,
    availableReplicas: Option<nat>)

  datatype Deployment = Deployment(metadata: ObjectMeta, spec: DeploymentSpec, status: DeploymentStatus)

  // Ingresses

  datatype ServiceBackendPort = ServiceBackendPort(number: Option<nat>)

  datatype IngressServiceBackend = IngressServiceBackend(name: string, port: Option<ServiceBackendPort>)

  /** A backend names either a service or some other resource; `service` is None for the latter. */
  datatype IngressBackend = IngressBackend(service: Option<IngressServiceBackend>)

  datatype HttpIngressPath = HttpIngressPath(backend: IngressBackend)

  datatype HttpIngressRuleValue = HttpIngressRuleValue(paths: Option<seq<HttpIngressPath>>)

  datatype IngressRule = IngressRule(host: Option<string>, http: Option<HttpIngressRuleValue>)

  datatype IngressSpec = IngressSpec(rules: Option<seq<IngressRule>>)

  datatype Ingress = Ingress(metadata: ObjectMeta, spec: IngressSpec)

  // ConfigMaps and Secrets

  datatype ConfigMap = ConfigMap(metadata: ObjectMeta, data: Option<map<string, string>>)

  datatype Secret = Secret(metadata: ObjectMeta, secretType: Option<string>, data: Option<map<string, string>>)

  /** A failure the handler reports instead of a page. */
  datatype Failure =
    | ApiError(category: string, message: string)  // a list call failed (connection, authorisation, ...)
    | NoServiceBackend(ingress: string)             // `backend.service` is None: the handler's attribute access fails
}
