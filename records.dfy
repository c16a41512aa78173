/**
 * The per-record derivations of the handler (app/app.py:341-420): how one
 * cluster object becomes one display record. Each is a pure function; the
 * lemmas state what the page promises about the record.
 */
module Records {
  import opened Wrappers
  import opened Text
  import opened Age
  import opened Cluster
  import opened Views

  // Pods (app/app.py:341-359)

  /** The reported container statuses, none when the field is absent. */
  function Statuses(pod: Pod): seq<ContainerStatus> {
    GetOr(pod.status.containerStatuses, [])
  }

  /** The number of reported statuses whose ready flag is set. */
  function ReadyCount(cs: seq<ContainerStatus>): (r: nat)
    ensures r <= |cs|
    ensures r == |cs| <==> forall i :: 0 <= i < |cs| ==> cs[i].ready
    ensures r == 0 <==> forall i :: 0 <= i < |cs| ==> !cs[i].ready
  {
    if cs == [] then 0 else (if cs[0].ready then 1 else 0) + ReadyCount(cs[1..])
  }

  /** The sum of the restart counts of the reported statuses. */
  function RestartTotal(cs: seq<ContainerStatus>): (r: nat)
    ensures forall i :: 0 <= i < |cs| ==> cs[i].restartCount <= r
    ensures r == 0 <==> forall i :: 0 <= i < |cs| ==> cs[i].restartCount == 0
  {
    if cs == [] then 0 else cs[0].restartCount + RestartTotal(cs[1..])
  }

  /** Counting ready containers adds up over a split of the status list. */
  lemma {:induction false} ReadyCountAppend(a: seq<ContainerStatus>, b: seq<ContainerStatus>)
    ensures ReadyCount(a + b) == ReadyCount(a) + ReadyCount(b)
  {
    if a != [] {
      assert (a + b)[1..] == a[1..] + b;
      ReadyCountAppend(a[1..], b);
    } else {
      assert a + b == b;
    }
  }

  /** The ready flags of the reported statuses, in order. */
  function ReadyFlags(cs: seq<ContainerStatus>): seq<bool> {
    seq(|cs|, i requires 0 <= i < |cs| => cs[i].ready)
  }

  /** The ready count is the number of true flags among the reported statuses. */
  lemma {:induction false} ReadyCountCountsTrue(cs: seq<ContainerStatus>)
    ensures ReadyCount(cs) == multiset(ReadyFlags(cs))[true]
  {
    if cs != [] {
      assert ReadyFlags(cs) == [cs[0].ready] + ReadyFlags(cs[1..]);
      ReadyCountCountsTrue(cs[1..]);
    }
  }

  /** The restart total adds up over a split of the status list. */
  lemma {:induction false} RestartTotalAppend(a: seq<ContainerStatus>, b: seq<ContainerStatus>)
    ensures RestartTotal(a + b) == RestartTotal(a) + RestartTotal(b)
  {
    if a != [] {
      assert (a + b)[1..] == a[1..] + b;
      RestartTotalAppend(a[1..], b);
    } else {
      assert a + b == b;
    }
  }

  /** The pod record for a pod, at clock reading `now` (microseconds, like the creation stamp). */
  function PodViewOf(pod: Pod, now: int): PodView {
    var cs := Statuses(pod);
    PodView(
      pod.metadata.name,
      pod.status.phase,
      Ratio(ReadyCount(cs), |pod.spec.containers|),
      RestartTotal(cs),
      AgeText(ElapsedSeconds(now, pod.metadata.creationTimestamp)))
  }

  /**
   * A pod record reads "R/C": R is the number of reported statuses that are
   * ready, C the number of declared containers; restarts sum over the
   * reported statuses and are 0 when none are reported; the age text shows
   * the truncated bucket of the elapsed time.
   */
  lemma PodViewMeaning(pod: Pod, now: int)
    ensures var v := PodViewOf(pod, now);
      v.name == pod.metadata.name && v.status == pod.status.phase &&
      ParseRatio(v.ready) == Some((ReadyCount(Statuses(pod)), |pod.spec.containers|)) &&
      v.restarts == RestartTotal(Statuses(pod)) &&
      ParseAge(v.age) == Some(BucketOf(ElapsedSeconds(now, pod.metadata.creationTimestamp)))
    ensures pod.status.containerStatuses.None? ==>
      ParseRatio(PodViewOf(pod, now).ready) == Some((0, |pod.spec.containers|)) && PodViewOf(pod, now).restarts == 0
  {
    ParseRatioOfRatio(ReadyCount(Statuses(pod)), |pod.spec.containers|);
    ParseAgeText(ElapsedSeconds(now, pod.metadata.creationTimestamp));
  }

  // Services (app/app.py:364-371)

  /** The first port's number, or N/A when the port list is absent or empty. */
  function ServicePortOf(spec: ServiceSpec): Cell<nat> {
    match spec.ports
    case Some(ps) => if |ps| > 0 then Shown(ps[0].port) else NotAvailable
    case None => NotAvailable
  }

  function ServiceViewOf(svc: Service): ServiceView {
    ServiceView(svc.metadata.name, svc.spec.serviceType, svc.spec.clusterIp, ServicePortOf(svc.spec))
  }

  /** The port is "N/A" exactly when the port list is absent or empty, else the first port's number. */
  lemma ServicePortMeaning(svc: Service)
    ensures ServiceViewOf(svc).port.NotAvailable? <==> svc.spec.ports.None? || svc.spec.ports == Some([])
    ensures ServiceViewOf(svc).port.Shown? ==> ServiceViewOf(svc).port.value == svc.spec.ports.value[0].port
  {
  }

  /** Ports after the first never reach the record. */
  lemma ServicePortIgnoresLater(svc: Service, p: ServicePort, rest: seq<ServicePort>)
    requires svc.spec.ports == Some([p] + rest)
    ensures ServiceViewOf(svc) == ServiceViewOf(svc.(spec := svc.spec.(ports := Some([p]))))
    ensures ServiceViewOf(svc).port == Shown(p.port)
  {
  }

  // Deployments (app/app.py:376-382)

  function DeploymentViewOf(dep: Deployment): DeploymentView {
    DeploymentView(
      dep.metadata.name,
      Ratio(GetOr(dep.status.readyReplicas, 0), dep.spec.replicas),
      GetOr(dep.status.updatedReplicas, 0),
      GetOr(dep.status.availableReplicas, 0))
  }

  /**
   * A deployment record reads "ready/spec" with an unreported ready count
   * read as 0, and unreported updated and available counts shown as 0.
   */
  lemma DeploymentViewMeaning(dep: Deployment)
    ensures var v := DeploymentViewOf(dep);
      v.name == dep.metadata.name &&
      ParseRatio(v.ready) == Some((GetOr(dep.status.readyReplicas, 0), dep.spec.replicas)) &&
      (dep.status.readyReplicas.None? ==> ParseRatio(v.ready) == Some((0, dep.spec.replicas))) &&
      (dep.status.updatedReplicas.None? ==> v.updated == 0) &&
      (dep.status.updatedReplicas.Some? ==> v.updated == dep.status.updatedReplicas.value) &&
      (dep.status.availableReplicas.None? ==> v.available == 0) &&
      (dep.status.availableReplicas.Some? ==> v.available == dep.status.availableReplicas.value)
  {
    ParseRatioOfRatio(GetOr(dep.status.readyReplicas, 0), dep.spec.replicas);
  }

  /** Three desired replicas and no ready count reported yet read "0/3". */
  lemma DeploymentNotYetReady(dep: Deployment)
    requires dep.spec.replicas == 3 && dep.status.readyReplicas.None?
    ensures DeploymentViewOf(dep).ready == "0/3"
  {
  }

  // Ingresses (app/app.py:387-401)

  /** The rule list is present and non-empty. */
  predicate HasRules(ing: Ingress) {
    ing.spec.rules.Some? && |ing.spec.rules.value| > 0
  }

  /** The rule has an HTTP part whose path list is present and non-empty. */
  predicate HasPaths(rule: IngressRule) {
    rule.http.Some? && rule.http.value.paths.Some? && |rule.http.value.paths.value| > 0
  }

  function FirstPath(rule: IngressRule): HttpIngressPath
    requires HasPaths(rule)
  {
    rule.http.value.paths.value[0]
  }

  /**
   * What one ingress contributes: no record when it has no rules, a record
   * built from its first rule otherwise, or a failure when that rule's first
   * path has no service backend (the source's attribute access on None).
   */
  function IngressStep(ing: Ingress): Result<Option<IngressView>, Failure> {
    if !HasRules(ing) then Ok(None)
    else
      var rule := ing.spec.rules.value[0];
      if !HasPaths(rule) then
        Ok(Some(IngressView(ing.metadata.name, rule.host, NotAvailable, NotAvailable)))
      else
        match FirstPath(rule).backend.service
        case None => Err(NoServiceBackend(ing.metadata.name))
        case Some(backend) =>
          var port := match backend.port
            case Some(p) => Shown(p.number)
            case None => NotAvailable;
          Ok(Some(IngressView(ing.metadata.name, rule.host, Shown(backend.name), port)))
  }

  /** An ingress is dropped exactly when it has no rules. */
  lemma IngressDropped(ing: Ingress)
    ensures IngressStep(ing) == Ok(None) <==> !HasRules(ing)
  {
  }

  /** An ingress makes the handler fail exactly when its first rule's first path has no service backend. */
  lemma IngressFails(ing: Ingress)
    ensures IngressStep(ing).Err? <==>
      HasRules(ing) && HasPaths(ing.spec.rules.value[0]) && FirstPath(ing.spec.rules.value[0]).backend.service.None?
  {
  }

  /**
   * The record of an ingress with rules: its host is the first rule's host;
   * service and port stay "N/A" without an HTTP path list, and the port stays
   * "N/A" when the first backend declares none.
   */
  lemma IngressViewMeaning(ing: Ingress, v: IngressView)
    requires IngressStep(ing) == Ok(Some(v))
    ensures HasRules(ing)
    ensures v.name == ing.metadata.name && v.host == ing.spec.rules.value[0].host
    ensures v.service.NotAvailable? <==> !HasPaths(ing.spec.rules.value[0])
    ensures v.service.Shown? ==> v.service.value == FirstPath(ing.spec.rules.value[0]).backend.service.value.name
    ensures v.port.NotAvailable? <==>
      !HasPaths(ing.spec.rules.value[0]) || FirstPath(ing.spec.rules.value[0]).backend.service.value.port.None?
    ensures v.port.Shown? ==> v.port.value == FirstPath(ing.spec.rules.value[0]).backend.service.value.port.value.number
  {
  }

  /** Rules after the first are never read. */
  lemma IngressIgnoresLaterRules(ing: Ingress, r: IngressRule, rest: seq<IngressRule>)
    requires ing.spec.rules == Some([r] + rest)
    ensures IngressStep(ing) == IngressStep(ing.(spec := IngressSpec(Some([r]))))
  {
  }

  // ConfigMaps and Secrets (app/app.py:406-420)

  /** The number of keys in the data mapping, 0 when the mapping is null. */
  function KeyCount(data: Option<map<string, string>>): nat {
    |GetOr(data, map[])|
  }

  function ConfigMapViewOf(cm: ConfigMap): ConfigMapView {
    ConfigMapView(cm.metadata.name, KeyCount(cm.data))
  }

  function SecretViewOf(secret: Secret): SecretView {
    SecretView(secret.metadata.name, secret.secretType, KeyCount(secret.data))
  }

  /** The key count is the size of the data mapping, and 0 when the mapping is null. */
  lemma KeyCountMeaning(data: Option<map<string, string>>)
    ensures data.None? ==> KeyCount(data) == 0
    ensures data.Some? ==> KeyCount(data) == |data.value.Keys|
    ensures KeyCount(data) == 0 <==> data.None? || data.value == map[]
  {
    if data.Some? && |data.value| == 0 {
      assert data.value.Keys == {};
    }
  }

  /** A secret's record copies its type unchanged and counts its keys like a ConfigMap's. */
  lemma SecretViewMeaning(secret: Secret)
    ensures SecretViewOf(secret).name == secret.metadata.name
    ensures SecretViewOf(secret).secretType == secret.secretType
    ensures SecretViewOf(secret).keys == ConfigMapViewOf(ConfigMap(secret.metadata, secret.data)).keys
  {
  }

  /** Three entries give three keys. */
  lemma ThreeKeys()
    ensures KeyCount(Some(map["a" := "1", "b" := "2", "c" := "3"])) == 3
  {
    var m := map["a" := "1", "b" := "2", "c" := "3"];
    assert m.Keys == {"a", "b", "c"};
  }
}
