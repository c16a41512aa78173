/**
 * The six projection loops of the handler (app/app.py:341-420). Each walks
 * the listed items in order and appends one record per item to a local
 * list; the ingress loop appends only for ingresses that have rules.
 */
module Projector {
  import opened Wrappers
  import opened Cluster
  import opened Views
  import opened Records

  // The element-wise specifications: one record per item, in input order.

  predicate PodsProjected(items: seq<Pod>, now: int, views: seq<PodView>) {
    |views| == |items| && forall i :: 0 <= i < |items| ==> views[i] == PodViewOf(items[i], now)
  }

  predicate ServicesProjected(items: seq<Service>, views: seq<ServiceView>) {
    |views| == |items| && forall i :: 0 <= i < |items| ==> views[i] == ServiceViewOf(items[i])
  }

  predicate DeploymentsProjected(items: seq<Deployment>, views: seq<DeploymentView>) {
    |views| == |items| && forall i :: 0 <= i < |items| ==> views[i] == DeploymentViewOf(items[i])
  }

  predicate ConfigMapsProjected(items: seq<ConfigMap>, views: seq<ConfigMapView>) {
    |views| == |items| && forall i :: 0 <= i < |items| ==> views[i] == ConfigMapViewOf(items[i])
  }

  predicate SecretsProjected(items: seq<Secret>, views: seq<SecretView>) {
    |views| == |items| && forall i :: 0 <= i < |items| ==> views[i] == SecretViewOf(items[i])
  }

  method ProjectPods(items: seq<Pod>, now: int) returns (views: seq<PodView>)
    ensures PodsProjected(items, now, views)
    ensures forall i :: 0 <= i < |items| ==> views[i].name == items[i].metadata.name
  {
    views := [];
    for i := 0 to |items|
      invariant |views| == i
      invariant forall k :: 0 <= k < i ==> views[k] == PodViewOf(items[k], now)
    {
      views := views + [PodViewOf(items[i], now)];
    }
  }

  method ProjectServices(items: seq<Service>) returns (views: seq<ServiceView>)
    ensures ServicesProjected(items, views)
    ensures forall i :: 0 <= i < |items| ==> views[i].name == items[i].metadata.name
  {
    views := [];
    for i := 0 to |items|
      invariant |views| == i
      invariant forall k :: 0 <= k < i ==> views[k] == ServiceViewOf(items[k])
    {
      views := views + [ServiceViewOf(items[i])];
    }
  }

  method ProjectDeployments(items: seq<Deployment>) returns (views: seq<DeploymentView>)
    ensures DeploymentsProjected(items, views)
    ensures forall i :: 0 <= i < |items| ==> views[i].name == items[i].metadata.name
  {
    views := [];
    for i := 0 to |items|
      invariant |views| == i
      invariant forall k :: 0 <= k < i ==> views[k] == DeploymentViewOf(items[k])
    {
      views := views + [DeploymentViewOf(items[i])];
    }
  }

  method ProjectConfigMaps(items: seq<ConfigMap>) returns (views: seq<ConfigMapView>)
    ensures ConfigMapsProjected(items, views)
    ensures forall i :: 0 <= i < |items| ==> views[i].name == items[i].metadata.name
  {
    views := [];
    for i := 0 to |items|
      invariant |views| == i
      invariant forall k :: 0 <= k < i ==> views[k] == ConfigMapViewOf(items[k])
    {
      views := views + [ConfigMapViewOf(items[i])];
    }
  }

  method ProjectSecrets(items: seq<Secret>) returns (views: seq<SecretView>)
    ensures SecretsProjected(items, views)
    ensures forall i :: 0 <= i < |items| ==> views[i].name == items[i].metadata.name
  {
    views := [];
    for i := 0 to |items|
      invariant |views| == i
      invariant forall k :: 0 <= k < i ==> views[k] == SecretViewOf(items[k])
    {
      views := views + [SecretViewOf(items[i])];
    }
  }

  // Ingresses: a filtering projection that can fail.

  /** The ingress records of a list, item by item, stopping at the first failure. */
  function IngressViews(items: seq<Ingress>): Result<seq<IngressView>, Failure>
    decreases |items|
  {
    if items == [] then Ok([])
    else
      match IngressViews(items[..|items| - 1])
      case Err(e) => Err(e)
      case Ok(vs) =>
        match IngressStep(items[|items| - 1])
        case Err(e) => Err(e)
        case Ok(None) => Ok(vs)
        case Ok(Some(v)) => Ok(vs + [v])
  }

  /** The ingresses that have rules, in input order: the reference for which ingresses are shown. */
  function Kept(items: seq<Ingress>): seq<Ingress>
    decreases |items|
  {
    if items == [] then []
    else Kept(items[..|items| - 1]) + (if HasRules(items[|items| - 1]) then [items[|items| - 1]] else [])
  }

  /** Once a prefix fails, the whole list fails with the same error. */
  lemma {:induction false} IngressViewsFailureSticks(items: seq<Ingress>, i: nat)
    requires i <= |items| && IngressViews(items[..i]).Err?
    ensures IngressViews(items) == IngressViews(items[..i])
    decreases |items|
  {
    if i < |items| {
      var p := items[..|items| - 1];
      assert p[..i] == items[..i];
      IngressViewsFailureSticks(p, i);
    } else {
      assert items[..i] == items;
    }
  }

  method ProjectIngresses(items: seq<Ingress>) returns (r: Result<seq<IngressView>, Failure>)
    ensures r == IngressViews(items)
  {
    var views := [];
    for i := 0 to |items|
      invariant IngressViews(items[..i]) == Ok(views)
    {
      assert items[..i + 1][..i] == items[..i];
      match IngressStep(items[i])
      case Err(e) =>
        IngressViewsFailureSticks(items, i + 1);
        return Err(e);
      case Ok(None) =>
      case Ok(Some(v)) =>
        views := views + [v];
    }
    assert items[..|items|] == items;
    return Ok(views);
  }

  /** The ingress projection succeeds exactly when no ingress fails on its own. */
  lemma {:induction false} IngressViewsSucceed(items: seq<Ingress>)
    ensures IngressViews(items).Ok? <==> forall i :: 0 <= i < |items| ==> IngressStep(items[i]).Ok?
    decreases |items|
  {
    if items != [] {
      var p := items[..|items| - 1];
      IngressViewsSucceed(p);
      assert forall i :: 0 <= i < |p| ==> p[i] == items[i];
    }
  }

  /** A failure is that of the first ingress that fails; all before it succeed. */
  lemma {:induction false} IngressViewsFirstFailure(items: seq<Ingress>)
    requires IngressViews(items).Err?
    ensures exists i :: 0 <= i < |items| && IngressStep(items[i]) == Err(IngressViews(items).error) &&
                        forall k :: 0 <= k < i ==> IngressStep(items[k]).Ok?
    decreases |items|
  {
    var p := items[..|items| - 1];
    var n := |items| - 1;
    assert forall k :: 0 <= k < |p| ==> p[k] == items[k];
    if IngressViews(p).Err? {
      IngressViewsFirstFailure(p);
      var i :| 0 <= i < |p| && IngressStep(p[i]) == Err(IngressViews(p).error) &&
               forall k :: 0 <= k < i ==> IngressStep(p[k]).Ok?;
      assert IngressStep(items[i]) == Err(IngressViews(items).error);
    } else {
      IngressViewsSucceed(p);
      assert IngressStep(items[n]) == Err(IngressViews(items).error);
    }
  }

  /**
   * A successful ingress projection has one record per ingress with rules,
   * in input order, each built from its own ingress.
   */
  lemma {:induction false} IngressViewsAreKept(items: seq<Ingress>, vs: seq<IngressView>)
    requires IngressViews(items) == Ok(vs)
    ensures |vs| == |Kept(items)|
    ensures forall j :: 0 <= j < |vs| ==> IngressStep(Kept(items)[j]) == Ok(Some(vs[j]))
    ensures forall j :: 0 <= j < |vs| ==> vs[j].name == Kept(items)[j].metadata.name
    decreases |items|
  {
    if items != [] {
      var p := items[..|items| - 1];
      var last := items[|items| - 1];
      var ps := IngressViews(p).value;
      IngressViewsAreKept(p, ps);
      match IngressStep(last)
      case Ok(None) =>
        IngressDropped(last);
      case Ok(Some(v)) =>
        IngressDropped(last);
        IngressViewMeaning(last, v);
    }
  }

  /** Kept never adds items: at most as many as the input, each with rules. */
  lemma {:induction false} KeptIsFiltered(items: seq<Ingress>)
    ensures |Kept(items)| <= |items|
    ensures forall j :: 0 <= j < |Kept(items)| ==> HasRules(Kept(items)[j])
    ensures forall x :: x in Kept(items) ==> x in items
    decreases |items|
  {
    if items != [] {
      var p := items[..|items| - 1];
      KeptIsFiltered(p);
      assert forall x :: x in p ==> x in items;
    }
  }

  /** Every ingress that has rules is among the kept ones. */
  lemma {:induction false} KeptIsComplete(items: seq<Ingress>)
    ensures forall i :: 0 <= i < |items| && HasRules(items[i]) ==> items[i] in Kept(items)
    decreases |items|
  {
    if items != [] {
      var p := items[..|items| - 1];
      KeptIsComplete(p);
      assert forall i :: 0 <= i < |p| ==> p[i] == items[i];
    }
  }

  /** Filtering distributes over concatenation, so the input order is preserved. */
  lemma {:induction false} KeptAppend(a: seq<Ingress>, b: seq<Ingress>)
    ensures Kept(a + b) == Kept(a) + Kept(b)
    decreases |b|
  {
    if b == [] {
      assert a + b == a;
    } else {
      var b' := b[..|b| - 1];
      assert (a + b)[..|a + b| - 1] == a + b';
      assert (a + b)[|a + b| - 1] == b[|b| - 1];
      KeptAppend(a, b');
    }
  }
}
