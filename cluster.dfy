/**
 * A cluster as the deployer sees it: its spec and one `Hub` per entry of the
 * spec's `hubs` list, and the choice of how to authenticate against it.
 */
module Clusters {
  import opened Wrappers
  import opened Errors
  import opened Specs

  /** A cluster: its spec and the hubs built from it. */
  datatype Cluster = Cluster(spec: ClusterSpec, hubs: seq<Hub>)

  /** The two ways of obtaining cluster credentials. */
  datatype AuthMethod = GcpAuth | KubeconfigAuth

  /** One `Hub` per hub spec, each paired with the cluster, in list order. */
  function HubsOf(cluster: ClusterSpec, entries: seq<HubSpec>): (hubs: seq<Hub>)
    ensures |hubs| == |entries|
    ensures forall i :: 0 <= i < |entries| ==> hubs[i].spec == entries[i]
    ensures forall i :: 0 <= i < |hubs| ==> hubs[i].cluster == cluster
  {
    if entries == [] then []
    else [Hub(cluster, entries[0])] + HubsOf(cluster, entries[1..])
  }

  /** The cluster constructor: every hub spec becomes a hub of this cluster. */
  function NewCluster(spec: ClusterSpec): (c: Cluster)
    ensures c.spec == spec
    ensures |c.hubs| == |spec.hubs|
    ensures forall i :: 0 <= i < |spec.hubs| ==> c.hubs[i] == Hub(spec, spec.hubs[i])
  {
    Cluster(spec, HubsOf(spec, spec.hubs))
  }

  /** No hub is dropped, repeated or reordered: the hub specs read back unchanged. */
  lemma {:induction false} HubSpecsReadBack(cluster: ClusterSpec, entries: seq<HubSpec>)
    ensures HubSpecsOf(HubsOf(cluster, entries)) == entries
  {
    if entries != [] {
      HubSpecsReadBack(cluster, entries[1..]);
      assert HubsOf(cluster, entries)[1..] == HubsOf(cluster, entries[1..]);
    }
  }

  /** The hub specs of a list of hubs. */
  function HubSpecsOf(hubs: seq<Hub>): seq<HubSpec>
  {
    if hubs == [] then [] else [hubs[0].spec] + HubSpecsOf(hubs[1..])
  }

  /** The provider names the deployer can authenticate with. */
  const Providers: set<string> := {"gcp", "kubeconfig"}

  /**
   * The `auth` dispatch: `gcp` and `kubeconfig` select their method; any other
   * provider is rejected with a `ValueError` naming it.
   */
  function Auth(spec: ClusterSpec): (r: Result<AuthMethod, Error>)
    ensures r.Ok? <==> spec.provider in Providers
    ensures r == Ok(GcpAuth) <==> spec.provider == "gcp"
    ensures r == Ok(KubeconfigAuth) <==> spec.provider == "kubeconfig"
    ensures r.Err? ==> r.error == ValueError("Provider " + spec.provider + " not supported")
  {
    if spec.provider == "gcp" then Ok(GcpAuth)
    else if spec.provider == "kubeconfig" then Ok(KubeconfigAuth)
    else Err(ValueError("Provider " + spec.provider + " not supported"))
  }

  /** The method depends on the provider alone, never on the hubs or the image. */
  lemma AuthIgnoresHubs(a: ClusterSpec, b: ClusterSpec)
    requires a.provider == b.provider
    ensures Auth(a) == Auth(b)
  {
  }
}
