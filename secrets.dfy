/**
 * Secret derivation. Every token the deployer generates is the hex digest of
 * HMAC-SHA256 over a label, keyed by the deployment's secret key. The hash is
 * not modelled: it is a function the caller supplies, so everything the model
 * proves holds for every such function.
 */
module Secrets {

  type Bytes = seq<bv8>

  /** (secret key, label) to hex digest. */
  type Hmac = (Bytes, string) -> string

  /** The proxy secret is keyed by the bare hub name. */
  function ProxyLabel(name: string): string { name }

  /** The health service's API token. */
  function HealthLabel(name: string): string { "health-" + name }

  /** The dask-gateway API token. */
  function GatewayLabel(name: string): string { "gateway-" + name }

  /** Two hubs share a health label only if they share a name. */
  lemma HealthLabelInjective(a: string, b: string)
    ensures HealthLabel(a) == HealthLabel(b) <==> a == b
  {
    if HealthLabel(a) == HealthLabel(b) {
      assert a == HealthLabel(a)[7..] && b == HealthLabel(b)[7..];
    }
  }

  /** Two hubs share a gateway label only if they share a name. */
  lemma GatewayLabelInjective(a: string, b: string)
    ensures GatewayLabel(a) == GatewayLabel(b) <==> a == b
  {
    if GatewayLabel(a) == GatewayLabel(b) {
      assert a == GatewayLabel(a)[8..] && b == GatewayLabel(b)[8..];
    }
  }

  /** No health label of any hub is the gateway label of any hub. */
  lemma HealthAndGatewayLabelsDiffer(a: string, b: string)
    ensures HealthLabel(a) != GatewayLabel(b)
  {
    assert HealthLabel(a)[0] == 'h' && GatewayLabel(b)[0] == 'g';
  }

  /**
   * The proxy label of one hub is the health label of another exactly when the
   * first hub's name is "health-" followed by the second's: the labels are not
   * separated by purpose, so the secrets of two hubs can coincide.
   */
  lemma ProxyAndHealthLabelsCollide(a: string, b: string)
    ensures ProxyLabel(a) == HealthLabel(b) <==> a == "health-" + b
  {
  }
}
