/**
 The converter between the stored cluster and its external view.  ToExternal builds
 a new value; ToInternal overwrites the mapped fields of a cluster in place.  The
 two are the halves of a lens, except that the unknown fields of list elements get
 lost.
 */
module Conversion {
  import opened Wrappers
  import E = External
  import I = Internal

  // ---- what is read ----

  function ViewWorker(p: I.WorkerProfile): E.WorkerProfile {
    E.WorkerProfile(p.name, p.vmSize, p.diskSizeGB, p.subnetId, p.count)
  }

  function ViewIngress(p: I.IngressProfile): E.IngressProfile {
    E.IngressProfile(p.name, p.visibility, p.ip)
  }

  function Map<S, T>(f: S -> T, xs: seq<S>): (ys: seq<T>)
    ensures |ys| == |xs| && forall i :: 0 <= i < |xs| ==> ys[i] == f(xs[i])
  {
    seq(|xs|, i requires 0 <= i < |xs| => f(xs[i]))
  }

  function MapOption<S, T>(f: S -> T, xs: Option<seq<S>>): Option<seq<T>> {
    if xs.None? then None else Some(Map(f, xs.value))
  }

  /** The external view of a stored cluster. */
  function View(oc: I.Cluster): E.Cluster {
    var p := oc.properties;
    E.Cluster(oc.id, oc.name, oc.typ, oc.location, oc.tags,
      E.Properties(
        p.provisioningState,
        E.ClusterProfile(p.clusterProfile.domain, p.clusterProfile.version, p.clusterProfile.resourceGroupId),
        E.ConsoleProfile(p.consoleProfile.url),
        E.ServicePrincipalProfile(p.servicePrincipalProfile.clientId, p.servicePrincipalProfile.clientSecret),
        E.NetworkProfile(p.networkProfile.podCidr, p.networkProfile.serviceCidr),
        E.MasterProfile(p.masterProfile.vmSize, p.masterProfile.subnetId),
        MapOption(ViewWorker, p.workerProfiles),
        E.APIServerProfile(p.apiserverProfile.visibility, p.apiserverProfile.url, p.apiserverProfile.ip),
        MapOption(ViewIngress, p.ingressProfiles)))
  }

  // ---- what is written ----

  function StoreWorker(p: E.WorkerProfile): I.WorkerProfile {
    I.WorkerProfile(map[], p.name, p.vmSize, p.diskSizeGB, p.subnetId, p.count)
  }

  function StoreIngress(p: E.IngressProfile): I.IngressProfile {
    I.IngressProfile(map[], p.name, p.visibility, p.ip)
  }

  /** The stored cluster `oc` with all mapped fields taken from `e`. */
  function Stored(e: E.Cluster, oc: I.Cluster): I.Cluster {
    var p, q := oc.properties, e.properties;
    oc.(id := e.id, name := e.name, typ := e.typ, location := e.location, tags := e.tags,
        properties := p.(
          provisioningState := q.provisioningState,
          clusterProfile := p.clusterProfile.(
            domain := q.clusterProfile.domain,
            version := q.clusterProfile.version,
            resourceGroupId := q.clusterProfile.resourceGroupId),
          consoleProfile := p.consoleProfile.(url := q.consoleProfile.url),
          servicePrincipalProfile := p.servicePrincipalProfile.(
            clientId := q.servicePrincipalProfile.clientId,
            clientSecret := q.servicePrincipalProfile.clientSecret),
          networkProfile := p.networkProfile.(
            podCidr := q.networkProfile.podCidr,
            serviceCidr := q.networkProfile.serviceCidr),
          masterProfile := p.masterProfile.(vmSize := q.masterProfile.vmSize, subnetId := q.masterProfile.subnetId),
          workerProfiles := MapOption(StoreWorker, q.workerProfiles),
          apiserverProfile := p.apiserverProfile.(
            visibility := q.apiserverProfile.visibility,
            url := q.apiserverProfile.url,
            ip := q.apiserverProfile.ip),
          ingressProfiles := MapOption(StoreIngress, q.ingressProfiles)))
  }

  // ---- the lens ----

  /** No element of a list holds a field that the service does not know. */
  ghost predicate PlainLists(oc: I.Cluster) {
    var p := oc.properties;
    && (p.workerProfiles.Some? ==>
          forall i :: 0 <= i < |p.workerProfiles.value| ==> p.workerProfiles.value[i].missing == map[])
    && (p.ingressProfiles.Some? ==>
          forall i :: 0 <= i < |p.ingressProfiles.value| ==> p.ingressProfiles.value[i].missing == map[])
  }

  /** What has been written can be read back. */
  lemma ViewOfStored(e: E.Cluster, oc: I.Cluster)
    ensures View(Stored(e, oc)) == e
  {
    var q := e.properties;
    if q.workerProfiles.Some? {
      assert Map(ViewWorker, Map(StoreWorker, q.workerProfiles.value)) == q.workerProfiles.value;
    }
    if q.ingressProfiles.Some? {
      assert Map(ViewIngress, Map(StoreIngress, q.ingressProfiles.value)) == q.ingressProfiles.value;
    }
  }

  /** Writing back what was read changes nothing exactly when no list element holds unknown fields. */
  lemma StoredView(oc: I.Cluster)
    ensures Stored(View(oc), oc) == oc <==> PlainLists(oc)
  {
    var p := oc.properties;
    if p.workerProfiles.Some? {
      var ws := p.workerProfiles.value;
      assert Map(StoreWorker, Map(ViewWorker, ws)) == ws <==> forall i :: 0 <= i < |ws| ==> ws[i].missing == map[];
    }
    if p.ingressProfiles.Some? {
      var ns := p.ingressProfiles.value;
      assert Map(StoreIngress, Map(ViewIngress, ns)) == ns <==> forall i :: 0 <= i < |ns| ==> ns[i].missing == map[];
    }
  }

  /** A later write makes an earlier one irrelevant. */
  lemma StoredTwice(e: E.Cluster, f: E.Cluster, oc: I.Cluster)
    ensures Stored(f, Stored(e, oc)) == Stored(f, oc)
  {}

  // ---- the code ----

  /** A cluster document that is overwritten in place. */
  class Document {
    var cluster: I.Cluster

    constructor (cluster: I.Cluster)
      ensures this.cluster == cluster
    {
      this.cluster := cluster;
    }
  }

  method CopyTags(tags: Option<map<string, string>>) returns (out: Option<map<string, string>>)
    ensures out == tags
  {
    out := None;
    if tags.Some? {
      var copy: map<string, string> := map[];
      var left := tags.value.Keys;
      while left != {}
        invariant left <= tags.value.Keys
        invariant copy.Keys == tags.value.Keys - left
        invariant forall k :: k in copy ==> copy[k] == tags.value[k]
        decreases left
      {
        var k :| k in left;
        copy := copy[k := tags.value[k]];
        left := left - {k};
      }
      assert copy == tags.value;
      out := Some(copy);
    }
  }

  method ToExternal(oc: I.Cluster) returns (out: E.Cluster)
    ensures out == View(oc)
  {
    var p := oc.properties;
    var workers: Option<seq<E.WorkerProfile>> := None;
    if p.workerProfiles.Some? {
      var xs: seq<E.WorkerProfile> := [];
      for i := 0 to |p.workerProfiles.value|
        invariant xs == Map(ViewWorker, p.workerProfiles.value)[..i]
      {
        var w := p.workerProfiles.value[i];
        xs := xs + [E.WorkerProfile(w.name, w.vmSize, w.diskSizeGB, w.subnetId, w.count)];
      }
      assert xs == Map(ViewWorker, p.workerProfiles.value);
      workers := Some(xs);
    }
    var ingresses: Option<seq<E.IngressProfile>> := None;
    if p.ingressProfiles.Some? {
      var xs: seq<E.IngressProfile> := [];
      for i := 0 to |p.ingressProfiles.value|
        invariant xs == Map(ViewIngress, p.ingressProfiles.value)[..i]
      {
        var w := p.ingressProfiles.value[i];
        xs := xs + [E.IngressProfile(w.name, w.visibility, w.ip)];
      }
      assert xs == Map(ViewIngress, p.ingressProfiles.value);
      ingresses := Some(xs);
    }
    var tags := CopyTags(oc.tags);
    out := E.Cluster(oc.id, oc.name, oc.typ, oc.location, tags,
      E.Properties(
        p.provisioningState,
        E.ClusterProfile(p.clusterProfile.domain, p.clusterProfile.version, p.clusterProfile.resourceGroupId),
        E.ConsoleProfile(p.consoleProfile.url),
        E.ServicePrincipalProfile(p.servicePrincipalProfile.clientId, p.servicePrincipalProfile.clientSecret),
        E.NetworkProfile(p.networkProfile.podCidr, p.networkProfile.serviceCidr),
        E.MasterProfile(p.masterProfile.vmSize, p.masterProfile.subnetId),
        workers,
        E.APIServerProfile(p.apiserverProfile.visibility, p.apiserverProfile.url, p.apiserverProfile.ip),
        ingresses));
  }

  const ZERO_WORKER := I.WorkerProfile(map[], "", "", 0, "", 0)
  const ZERO_INGRESS := I.IngressProfile(map[], "", "", "")

  method CopyWorkers(xs: seq<E.WorkerProfile>) returns (out: seq<I.WorkerProfile>)
    ensures out == Map(StoreWorker, xs)
  {
    out := seq(|xs|, _ => ZERO_WORKER);
    for i := 0 to |xs|
      invariant |out| == |xs|
      invariant forall k :: 0 <= k < i ==> out[k] == StoreWorker(xs[k])
      invariant forall k :: i <= k < |xs| ==> out[k] == ZERO_WORKER
    {
      out := out[i := out[i].(name := xs[i].name)];
      out := out[i := out[i].(vmSize := xs[i].vmSize)];
      out := out[i := out[i].(diskSizeGB := xs[i].diskSizeGB)];
      out := out[i := out[i].(subnetId := xs[i].subnetId)];
      out := out[i := out[i].(count := xs[i].count)];
    }
  }

  method CopyIngresses(xs: seq<E.IngressProfile>) returns (out: seq<I.IngressProfile>)
    ensures out == Map(StoreIngress, xs)
  {
    out := seq(|xs|, _ => ZERO_INGRESS);
    for i := 0 to |xs|
      invariant |out| == |xs|
      invariant forall k :: 0 <= k < i ==> out[k] == StoreIngress(xs[k])
      invariant forall k :: i <= k < |xs| ==> out[k] == ZERO_INGRESS
    {
      out := out[i := out[i].(name := xs[i].name)];
      out := out[i := out[i].(visibility := xs[i].visibility)];
      out := out[i := out[i].(ip := xs[i].ip)];
    }
  }

  /** ToInternal: field after field, in place. */
  method ToInternal(e: E.Cluster, out: Document)
    modifies out
    ensures out.cluster == Stored(e, old(out.cluster))
  {
    out.cluster := out.cluster.(id := e.id);
    out.cluster := out.cluster.(name := e.name);
    out.cluster := out.cluster.(typ := e.typ);
    out.cluster := out.cluster.(location := e.location);
    var tags := CopyTags(e.tags);
    out.cluster := out.cluster.(tags := tags);
    var p, q := out.cluster.properties, e.properties;
    p := p.(provisioningState := q.provisioningState);
    p := p.(clusterProfile := p.clusterProfile.(domain := q.clusterProfile.domain));
    p := p.(clusterProfile := p.clusterProfile.(version := q.clusterProfile.version));
    p := p.(clusterProfile := p.clusterProfile.(resourceGroupId := q.clusterProfile.resourceGroupId));
    p := p.(consoleProfile := p.consoleProfile.(url := q.consoleProfile.url));
    p := p.(servicePrincipalProfile := p.servicePrincipalProfile.(clientId := q.servicePrincipalProfile.clientId));
    p := p.(servicePrincipalProfile := p.servicePrincipalProfile.(clientSecret := q.servicePrincipalProfile.clientSecret));
    p := p.(networkProfile := p.networkProfile.(podCidr := q.networkProfile.podCidr));
    p := p.(networkProfile := p.networkProfile.(serviceCidr := q.networkProfile.serviceCidr));
    p := p.(masterProfile := p.masterProfile.(vmSize := q.masterProfile.vmSize));
    p := p.(masterProfile := p.masterProfile.(subnetId := q.masterProfile.subnetId));
    p := p.(workerProfiles := None);
    if q.workerProfiles.Some? {
      var workers := CopyWorkers(q.workerProfiles.value);
      p := p.(workerProfiles := Some(workers));
    }
    p := p.(apiserverProfile := p.apiserverProfile.(visibility := q.apiserverProfile.visibility));
    p := p.(apiserverProfile := p.apiserverProfile.(url := q.apiserverProfile.url));
    p := p.(apiserverProfile := p.apiserverProfile.(ip := q.apiserverProfile.ip));
    p := p.(ingressProfiles := None);
    if q.ingressProfiles.Some? {
      var ingresses := CopyIngresses(q.ingressProfiles.value);
      p := p.(ingressProfiles := Some(ingresses));
    }
    out.cluster := out.cluster.(properties := p);
  }
}
