/**
 * The request handler `index()` (app/app.py:336-438) and the page it
 * renders, modelled by its structure: six sections, each with a header
 * that shows the record count and either a table of the records or a
 * placeholder. The list calls are inputs that either hold the listed items
 * or the failure the call raised.
 */
module Page {
  import opened Wrappers
  import opened Text
  import opened Cluster
  import opened Views
  import opened Records
  import opened Projector

  datatype Body<+T> = Table(rows: seq<T>) | EmptyState(message: string)

  datatype Section<+T> = Section(header: string, body: Body<T>)

  /** The records a section displays: its table's rows, none for the placeholder. */
  function Rows<T>(sec: Section<T>): seq<T> {
    match sec.body
    case Table(rows) => rows
    case EmptyState(_) => []
  }

  /** `<title> (<count>)` above a table of the records, or "No <title> found" when there are none. */
  function SectionOf<T>(title: string, records: seq<T>): Section<T> {
    Section(
      title + " (" + NatToString(|records|) + ")",
      if |records| > 0 then Table(records) else EmptyState("No " + title + " found"))
  }

  /** Reads the count back out of a section header with the given title. */
  function HeaderCount(header: string, title: string): Option<nat> {
    var prefix := title + " (";
    if |header| > |prefix| && header[..|prefix|] == prefix && header[|header| - 1] == ')' then
      ParseNat(header[|prefix|..|header| - 1])
    else None
  }

  /**
   * A section's header shows the number of records; it shows a placeholder
   * exactly when there are no records, and otherwise a table of all of them.
   */
  lemma SectionMeaning<T>(title: string, records: seq<T>)
    ensures HeaderCount(SectionOf(title, records).header, title) == Some(|records|)
    ensures SectionOf(title, records).body.EmptyState? <==> records == []
    ensures Rows(SectionOf(title, records)) == records
  {
    var h := SectionOf(title, records).header;
    var prefix := title + " (";
    assert h[..|prefix|] == prefix;
    assert h[|prefix|..|h| - 1] == NatToString(|records|);
    ParseNatToString(|records|);
  }

  /** A section with no records: count 0 in the header and the placeholder instead of a table. */
  lemma EmptySection<T>(title: string, sec: Section<T>)
    requires sec == SectionOf(title, Rows(sec)) && Rows(sec) == []
    ensures sec.header == title + " (0)" && sec.body == EmptyState("No " + title + " found")
  {
  }

  datatype Page = Page(
    namespace: string,
    instance: string,
    generatedAt: string,
    pods: Section<PodView>,
    services: Section<ServiceView>,
    deployments: Section<DeploymentView>,
    ingresses: Section<IngressView>,
    configMaps: Section<ConfigMapView>,
    secrets: Section<SecretView>)

  /** Status 200 with the whole page, or status 500 with the failure and nothing of the page. */
  datatype Response = Ok200(page: Page) | Error500(failure: Failure)

  /** The failure the handler stops at: the first one met in the order of the source's calls. */
  function FirstFailure(
    pods: Result<seq<Pod>, Failure>,
    services: Result<seq<Service>, Failure>,
    deployments: Result<seq<Deployment>, Failure>,
    ingresses: Result<seq<Ingress>, Failure>,
    configMaps: Result<seq<ConfigMap>, Failure>,
    secrets: Result<seq<Secret>, Failure>): Option<Failure>
  {
    if pods.Err? then Some(pods.error)
    else if services.Err? then Some(services.error)
    else if deployments.Err? then Some(deployments.error)
    else if ingresses.Err? then Some(ingresses.error)
    else if IngressViews(ingresses.value).Err? then Some(IngressViews(ingresses.value).error)
    else if configMaps.Err? then Some(configMaps.error)
    else if secrets.Err? then Some(secrets.error)
    else None
  }

  /** The request succeeds exactly when every list call succeeds and no listed ingress fails. */
  lemma SucceedsExactly(
    pods: Result<seq<Pod>, Failure>,
    services: Result<seq<Service>, Failure>,
    deployments: Result<seq<Deployment>, Failure>,
    ingresses: Result<seq<Ingress>, Failure>,
    configMaps: Result<seq<ConfigMap>, Failure>,
    secrets: Result<seq<Secret>, Failure>)
    ensures FirstFailure(pods, services, deployments, ingresses, configMaps, secrets).None? <==>
      pods.Ok? && services.Ok? && deployments.Ok? && ingresses.Ok? && configMaps.Ok? && secrets.Ok? &&
      forall i :: 0 <= i < |ingresses.value| ==> IngressStep(ingresses.value[i]).Ok?
  {
    if ingresses.Ok? {
      IngressViewsSucceed(ingresses.value);
    }
  }

  /**
   * Handles one request: list and project each kind in the source's order,
   * stopping at the first failure; `now` is the clock reading (microseconds) for pod ages,
   * `instance` the host name and `generatedAt` the formatted render time.
   */
  method Index(
    namespace: string, instance: string, generatedAt: string, now: int,
    podList: Result<seq<Pod>, Failure>,
    serviceList: Result<seq<Service>, Failure>,
    deploymentList: Result<seq<Deployment>, Failure>,
    ingressList: Result<seq<Ingress>, Failure>,
    configMapList: Result<seq<ConfigMap>, Failure>,
    secretList: Result<seq<Secret>, Failure>)
    returns (resp: Response)
    ensures var f := FirstFailure(podList, serviceList, deploymentList, ingressList, configMapList, secretList);
      (resp.Error500? <==> f.Some?) && (resp.Error500? ==> resp.failure == f.value)
    ensures resp.Ok200? ==>
      var p := resp.page;
      p.namespace == namespace && p.instance == instance && p.generatedAt == generatedAt &&
      p.pods == SectionOf("Pods", Rows(p.pods)) && PodsProjected(podList.value, now, Rows(p.pods)) &&
      p.services == SectionOf("Services", Rows(p.services)) && ServicesProjected(serviceList.value, Rows(p.services)) &&
      p.deployments == SectionOf("Deployments", Rows(p.deployments)) &&
      DeploymentsProjected(deploymentList.value, Rows(p.deployments)) &&
      p.ingresses == SectionOf("Ingresses", Rows(p.ingresses)) && IngressViews(ingressList.value) == Ok(Rows(p.ingresses)) &&
      p.configMaps == SectionOf("ConfigMaps", Rows(p.configMaps)) &&
      ConfigMapsProjected(configMapList.value, Rows(p.configMaps)) &&
      p.secrets == SectionOf("Secrets", Rows(p.secrets)) && SecretsProjected(secretList.value, Rows(p.secrets))
  {
    if podList.Err? { return Error500(podList.error); }
    var pods := ProjectPods(podList.value, now);
    if serviceList.Err? { return Error500(serviceList.error); }
    var services := ProjectServices(serviceList.value);
    if deploymentList.Err? { return Error500(deploymentList.error); }
    var deployments := ProjectDeployments(deploymentList.value);
    if ingressList.Err? { return Error500(ingressList.error); }
    var ingresses := ProjectIngresses(ingressList.value);
    if ingresses.Err? { return Error500(ingresses.error); }
    if configMapList.Err? { return Error500(configMapList.error); }
    var configMaps := ProjectConfigMaps(configMapList.value);
    if secretList.Err? { return Error500(secretList.error); }
    var secrets := ProjectSecrets(secretList.value);
    SectionMeaning("Pods", pods);
    SectionMeaning("Services", services);
    SectionMeaning("Deployments", deployments);
    SectionMeaning("Ingresses", ingresses.value);
    SectionMeaning("ConfigMaps", configMaps);
    SectionMeaning("Secrets", secrets);
    resp := Ok200(Page(
      namespace, instance, generatedAt,
      SectionOf("Pods", pods),
      SectionOf("Services", services),
      SectionOf("Deployments", deployments),
      SectionOf("Ingresses", ingresses.value),
      SectionOf("ConfigMaps", configMaps),
      SectionOf("Secrets", secrets)));
  }

  /**
   * A client of Index: two pods, one service and no deployments give a page
   * headed "Pods (2)" with two rows and "Services (1)" with one row.
   */
  method IndexShowsCounts(pod1: Pod, pod2: Pod, svc: Service)
  {
    var resp := Index("demo", "viewer-0", "2024-01-01 00:00:00", 0,
      Ok([pod1, pod2]), Ok([svc]), Ok([]), Ok([]), Ok([]), Ok([]));
    assert IngressViews([]) == Ok([]);
    assert resp.Ok200?;
    var page := resp.page;
    assert |Rows(page.pods)| == 2 && |Rows(page.services)| == 1;
    assert page.pods.header == "Pods (2)" && page.pods.body.Table? && |page.pods.body.rows| == 2;
    assert page.services.header == "Services (1)" && page.services.body.Table? && |page.services.body.rows| == 1;
  }

  /** A client of Index: a kind with no items gets a header with count 0 and the placeholder. */
  method IndexShowsPlaceholder(pod1: Pod, pod2: Pod, svc: Service)
  {
    var resp := Index("demo", "viewer-0", "2024-01-01 00:00:00", 0,
      Ok([pod1, pod2]), Ok([svc]), Ok([]), Ok([]), Ok([]), Ok([]));
    assert IngressViews([]) == Ok([]);
    assert resp.Ok200?;
    var deps := resp.page.deployments;
    assert Rows(deps) == [];
    EmptySection("Deployments", deps);
  }

  /** A client of Index: a failed pod listing gives a 500 carrying that failure, and no page. */
  method IndexFailsWhole(svc: Service, denied: Failure)
  {
    var resp := Index("demo", "viewer-0", "2024-01-01 00:00:00", 0,
      Err(denied), Ok([svc]), Ok([]), Ok([]), Ok([]), Ok([]));
    assert resp == Error500(denied);
  }
}
