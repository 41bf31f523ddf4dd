/**
 * The inputs of one deploy run: a cluster's spec, the spec of each hub on it,
 * and the `Hub` object that pairs a hub spec with its cluster.
 */
module Specs {
  import opened Wrappers
  import opened Values

  /** A hub's `domain`: one host name, or a list of them. */
  datatype Domain = Single(host: string) | Many(hosts: seq<string>)

  /**
   * One entry of a cluster's `hubs` list. `auth0` and `config` are the loaded
   * YAML mappings (`config` is the human-authored helm values override).
   */
  datatype HubSpec = HubSpec(
    name: string,
    domain: Domain,
    template: string,
    auth0: map<string, Val>,
    config: map<string, Val>)

  /** A cluster's spec: its auth provider, the optional `image_repo`, its hubs. */
  datatype ClusterSpec = ClusterSpec(
    provider: string,
    imageRepo: Option<string>,
    hubs: seq<HubSpec>)

  /** A deployable hub: its own spec and the spec of the cluster it lives on. */
  datatype Hub = Hub(cluster: ClusterSpec, spec: HubSpec)
}
