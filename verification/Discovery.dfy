/** Finding the etcd cluster behind a claim, and the claim that holds snapshots. */
module Discoveries {
  import opened Api
  import opened Machine
  import opened Clients
  import opened VolumeIds
  import opened Wrappers
  import CM = ConfigMaps

  /** One URL for each pod, in order. */
  ghost predicate UrlsOf(endpoints: seq<string>, pods: seq<string>, namespace: string) {
    && |endpoints| == |pods|
    && forall k :: 0 <= k < |pods| ==>
         endpoints[k] == "https://" + pods[k] + "." + namespace + ".svc.cluster.local:2379"
  }

  lemma {:induction false} EndpointsAreUrls(pods: seq<string>, namespace: string)
    ensures UrlsOf(Endpoints(pods, namespace), pods, namespace)
    decreases |pods|
  {
    if pods != [] {
      var n := |pods| - 1;
      EndpointsAreUrls(pods[..n], namespace);
      assert forall k :: 0 <= k < n ==> pods[..n][k] == pods[k];
    }
  }

  /** A URL names its pod. */
  lemma UrlNamesThePod(a: string, b: string, namespace: string)
    requires "https://" + a + "." + namespace + ".svc.cluster.local:2379"
          == "https://" + b + "." + namespace + ".svc.cluster.local:2379"
    ensures a == b
  {
    var rest := "." + namespace + ".svc.cluster.local:2379";
    var url := "https://" + a + rest;
    assert url == "https://" + a + "." + namespace + ".svc.cluster.local:2379";
    assert url == "https://" + b + rest;
    assert url[8..|url| - |rest|] == a && url[8..|url| - |rest|] == b;
  }

  /** The list of URLs determines the list of pods, and no two pods share one. */
  lemma UrlsDetermineThePods(endpoints: seq<string>, pods: seq<string>, others: seq<string>, namespace: string)
    requires UrlsOf(endpoints, pods, namespace)
    ensures UrlsOf(endpoints, others, namespace) ==> others == pods
    ensures forall j, k :: 0 <= j < |pods| && 0 <= k < |pods| && endpoints[j] == endpoints[k] ==> pods[j] == pods[k]
  {
    forall j, k | 0 <= j < |pods| && 0 <= k < |pods| && endpoints[j] == endpoints[k] ensures pods[j] == pods[k] {
      UrlNamesThePod(pods[j], pods[k], namespace);
    }
    if UrlsOf(endpoints, others, namespace) {
      forall k | 0 <= k < |pods| ensures others[k] == pods[k] {
        UrlNamesThePod(pods[k], others[k], namespace);
      }
    }
  }

  class Discovery {
    const client: Client
    const clusterLabelKey: string

    constructor (client: Client, clusterLabelKey: string)
      ensures this.client == client && this.clusterLabelKey == clusterLabelKey
    {
      this.client, this.clusterLabelKey := client, clusterLabelKey;
    }

    method DiscoverCluster(namespace: string, name: string, ghost d: Draft, ghost i: nat)
      returns (info: Option<ClusterInfo>)
      requires client.at == ReadingClaim(d, i)
      requires d.VolumeAt(i) == Volume(namespace, name) && d.cfg.clusterLabelKey == clusterLabelKey
      modifies client
      ensures info == ClusterSeen(client.env, old(client.issued), clusterLabelKey, namespace, name)
      ensures info.Some? ==> client.at == CheckingHealth(d, i, info.value) && client.issued == old(client.issued) + 2
      ensures info.None? ==> client.at == CreateFails(DiscoveryFailed(i))
    {
      var r := client.Do(GetClaim(Key(namespace, name)));
      if !r.ClaimIs? {
        return None;
      }
      if clusterLabelKey !in r.claim.labels {
        return None;
      }
      info := DiscoverByLabel(namespace, r.claim.labels[clusterLabelKey], d, i);
    }

    method DiscoverByLabel(namespace: string, cluster: string, ghost d: Draft, ghost i: nat)
      returns (info: Option<ClusterInfo>)
      requires client.at == ListingPods(d, i, cluster)
      requires d.VolumeAt(i).namespace == namespace && d.cfg.clusterLabelKey == clusterLabelKey
      modifies client
      ensures info == ClusterOfPods(cluster, namespace,
                old(client.env(client.issued, ListPods(namespace, clusterLabelKey, cluster))))
      ensures var pods := old(client.env(client.issued, ListPods(namespace, clusterLabelKey, cluster)));
        && (info.Some? <==> pods.PodsAre? && pods.names != [])
        && (info.Some? ==>
              && info.value.name == cluster && info.value.namespace == namespace
              && UrlsOf(info.value.endpoints, pods.names, namespace))
      ensures info.Some? ==> client.at == CheckingHealth(d, i, info.value) && client.issued == old(client.issued) + 1
      ensures info.None? ==> client.at == CreateFails(DiscoveryFailed(i))
    {
      var r := client.Do(ListPods(namespace, clusterLabelKey, cluster));
      if !r.PodsAre? {
        return None;
      }
      var pods := r.names;
      if |pods| == 0 {
        return None;
      }
      var endpoints := [];
      for k := 0 to |pods|
        invariant endpoints == Endpoints(pods[..k], namespace)
      {
        assert pods[..k + 1][..k] == pods[..k];
        endpoints := endpoints + [Endpoint(pods[k], namespace)];
      }
      assert pods[..|pods|] == pods;
      EndpointsAreUrls(pods, namespace);
      return Some(ClusterInfo(cluster, namespace, endpoints));
    }
  }

  /** The cluster a list reply describes. */
  ghost function ClusterOfPods(cluster: string, namespace: string, r: Reply): Option<ClusterInfo> {
    if r.PodsAre? && r.names != [] then Some(ClusterInfo(cluster, namespace, Endpoints(r.names, namespace)))
    else None
  }

  /** The cluster that discovery sees when it starts at the n-th call. */
  ghost function ClusterSeen(env: (nat, Call) -> Reply, n: nat, labelKey: string, namespace: string, name: string)
    : Option<ClusterInfo>
  {
    var r := env(n, GetClaim(Key(namespace, name)));
    if !r.ClaimIs? || labelKey !in r.claim.labels then None
    else
      var cluster := r.claim.labels[labelKey];
      ClusterOfPods(cluster, namespace, env(n + 1, ListPods(namespace, labelKey, cluster)))
  }

  /** With one namespace and one stable pod list per selector, volumes that
      discovery puts in one cluster get identical endpoint lists. */
  lemma SameClusterSameEndpoints(
    env: (nat, Call) -> Reply, labelKey: string, namespace: string, n: nat, name: string, m: nat, other: string)
    requires forall value, j, k ::
      env(j, ListPods(namespace, labelKey, value)) == env(k, ListPods(namespace, labelKey, value))
    requires ClusterSeen(env, n, labelKey, namespace, name).Some?
    requires ClusterSeen(env, m, labelKey, namespace, other).Some?
    requires ClusterSeen(env, n, labelKey, namespace, name).value.name
          == ClusterSeen(env, m, labelKey, namespace, other).value.name
    ensures ClusterSeen(env, n, labelKey, namespace, name) == ClusterSeen(env, m, labelKey, namespace, other)
  {
    var a := env(n, GetClaim(Key(namespace, name))).claim.labels[labelKey];
    assert env(n + 1, ListPods(namespace, labelKey, a)) == env(m + 1, ListPods(namespace, labelKey, a));
  }

  /** The lookup of the snapshot claim in the n-th call found it; or it found none, the
      size of a new one parses, and the Create in the call after it went through or found
      the claim there by then. */
  ghost predicate ClaimEnsured(env: (nat, Call) -> Reply, n: nat, namespace: string, sizeParses: bool) {
    var key := Key(namespace, SNAPSHOT_CLAIM);
    || env(n, GetClaim(key)).ClaimIs?
    || (env(n, GetClaim(key)) == Failure(CM.NotFound) && sizeParses
        && env(n + 1, CreateClaim(key, NewClaim())) in {Reply.Created, Failure(CM.AlreadyExists)})
  }

  /** How many calls that takes. */
  ghost function ClaimCalls(env: (nat, Call) -> Reply, n: nat, namespace: string): nat {
    if env(n, GetClaim(Key(namespace, SNAPSHOT_CLAIM))).ClaimIs? then 1 else 2
  }

  class SnapshotPVCProvisioner {
    const client: Client
    const pvcSizeParses: bool

    constructor (client: Client, pvcSizeParses: bool)
      ensures this.client == client && this.pvcSizeParses == pvcSizeParses
    {
      this.client, this.pvcSizeParses := client, pvcSizeParses;
    }

    method EnsureSnapshotPVC(namespace: string) returns (name: Option<string>)
      requires client.at.Provisioning? && client.at.claim == Looking
      requires client.at.d.Namespace() == namespace && client.at.d.cfg.pvcSizeParses == pvcSizeParses
      modifies client
      ensures name == if ClaimEnsured(client.env, old(client.issued), namespace, pvcSizeParses)
                      then Some(SNAPSHOT_CLAIM) else None
      ensures client.at == WithClaim(old(client.at).d, Done(name.Some?))
      ensures name.Some? ==>
        client.issued == old(client.issued) + ClaimCalls(client.env, old(client.issued), namespace)
    {
      var key := Key(namespace, SNAPSHOT_CLAIM);
      var r := client.Do(GetClaim(key));
      if r.ClaimIs? {
        return Some(SNAPSHOT_CLAIM);
      }
      if r != Failure(CM.NotFound) {
        return None;
      }
      if !pvcSizeParses {
        return None;
      }
      r := client.Do(CreateClaim(key, NewClaim()));
      if r != Reply.Created {
        if r == Failure(CM.AlreadyExists) {
          return Some(SNAPSHOT_CLAIM);
        }
        return None;
      }
      return Some(SNAPSHOT_CLAIM);
    }
  }
}
