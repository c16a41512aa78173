/** The flat display records the handler hands to the page template. */
module Views {
  import opened Wrappers

  /** A cell that holds either the literal text "N/A" or a value. */
  datatype Cell<+T> = NotAvailable | Shown(value: T)

  datatype PodView = PodView(name: string, status: Option<string>, ready: string, restarts: nat, age: string)

  datatype ServiceView = ServiceView(name: string, serviceType: Option<string>, clusterIp: Option<string>, port: Cell<nat>)

  datatype DeploymentView = DeploymentView(name: string, ready: string, updated: nat, available: nat)

  datatype IngressView = IngressView(name: string, host: Option<string>, service: Cell<string>, port: Cell<Option<nat>>)

  datatype ConfigMapView = ConfigMapView(name: string, keys: nat)

  datatype SecretView = SecretView(name: string, secretType: Option<string>, keys: nat)
}
