/**
 * Generation of one hub's helm values: the tree built from the hub's spec
 * (`Hub.get_generated_config`) and the template-dependent second pass over it
 * (`Hub.apply_hub_template_fixes`).
 */
module HubConfig {
  import opened Wrappers
  import opened Errors
  import opened Values
  import opened Secrets
  import opened Specs

  /**
   * The identity provider (Auth0). Both calls are foreign network calls; a
   * failure carries the provider's message.
   */
  datatype AuthProvider<!C> = AuthProvider(
    ensureClient: (string, Domain, Val) -> Result<C, string>,
    getClientCreds: (C, Val) -> Result<Val, string>)

  const IngressPath: seq<string> := ["jupyterhub", "ingress"]
  const ConfigPath: seq<string> := ["jupyterhub", "hub", "config"]
  const HubPath: seq<string> := ["jupyterhub", "hub"]
  const ServicesPath: seq<string> := ["jupyterhub", "hub", "services"]

  // ---------------------------------------------------------------------
  // The generated tree before template fixes

  /** A domain as the list of host names it stands for. */
  function DomainHosts(domain: Domain): seq<string> {
    match domain
    case Single(h) => [h]
    case Many(hs) => hs
  }

  function StrList(ss: seq<string>): seq<Val> {
    if ss == [] then [] else [Str(ss[0])] + StrList(ss[1..])
  }

  /** The ingress host list: a list domain as it is, a single one wrapped. */
  function Hosts(domain: Domain): Val {
    match domain
    case Single(h) => Seq([Str(h)])
    case Many(hs) => Seq(StrList(hs))
  }

  /** Reads a list of strings back out of a tree value. */
  function HostNames(v: Val): Option<seq<string>> {
    if v.Seq? then StringsOf(v.items) else None
  }

  function StringsOf(xs: seq<Val>): Option<seq<string>>
    decreases |xs|
  {
    if xs == [] then Some([])
    else if !xs[0].Str? then None
    else
      match StringsOf(xs[1..])
      case Some(rest) => Some([xs[0].text] + rest)
      case None => None
  }

  /**
   * Whatever the form of the domain, the host list read back is the domain's
   * list of host names, element for element and in the same order.
   */
  lemma {:induction false} HostsListTheDomain(domain: Domain)
    ensures HostNames(Hosts(domain)) == Some(DomainHosts(domain))
  {
    match domain
    case Single(h) =>
      assert [Str(h)][1..] == [];
      assert StringsOf([Str(h)]) == Some([h] + []);
      assert [h] + [] == [h];
    case Many(hs) => StrListReadsBack(hs);
  }

  lemma {:induction false} StrListReadsBack(ss: seq<string>)
    ensures StringsOf(StrList(ss)) == Some(ss)
    decreases |ss|
  {
    if ss != [] {
      StrListReadsBack(ss[1..]);
      assert StrList(ss)[1..] == StrList(ss[1..]);
      assert [ss[0]] + ss[1..] == ss;
    }
  }

  /** `singleuser.image`: the cluster's image repo, or an empty dict when it has none. */
  function ImageEntry(imageRepo: Option<string>): Val {
    match imageRepo
    case Some(repo) => Map(map["name" := Str(repo)])
    case None => Map(map[])
  }

  /** The shell loop that keeps the hub's template clone on the branch named after the hub. */
  function TemplatesSyncScript(name: string): string {
    "while true; do git fetch origin;\n"
    + "if [[ $(git ls-remote --heads origin " + name + " | wc -c) -ne 0 ]]; then\n"
    + "    git reset --hard origin/" + name + ";\n"
    + "else\n"
    + "    git reset --hard origin/master;\n"
    + "fi\n"
    + "sleep 5m; done\n"
  }

  const ContainerSecurity: Val := Map(map[
    "runAsUser" := Int(1000),
    "allowPrivilegeEscalation" := Bool(false),
    "readOnlyRootFilesystem" := Bool(true)])

  const RepoMount: Val := Seq([Map(map["name" := Str("custom-templates"), "mountPath" := Str("/srv/repo")])])

  const TemplatesClone: Val := Map(map[
    "name" := Str("templates-clone"),
    "image" := Str("alpine/git"),
    "args" := Seq([Str("clone"), Str("--"), Str("https://github.com/2i2c-org/pilot-homepage"), Str("/srv/repo")]),
    "securityContext" := ContainerSecurity,
    "volumeMounts" := RepoMount])

  function TemplatesSync(name: string): Val {
    Map(map[
      "name" := Str("templates-sync"),
      "image" := Str("alpine/git"),
      "workingDir" := Str("/srv/repo"),
      "command" := Seq([Str("/bin/sh")]),
      "args" := Seq([Str("-c"), Str(TemplatesSyncScript(name))]),
      "securityContext" := ContainerSecurity,
      "volumeMounts" := RepoMount])
  }

  const ExtraVolumes: Val := Seq([Map(map["name" := Str("custom-templates"), "emptyDir" := Map(map[])])])

  const ExtraVolumeMounts: Val := Seq([
    Map(map[
      "mountPath" := Str("/usr/local/share/jupyterhub/custom_templates"),
      "name" := Str("custom-templates"),
      "subPath" := Str("templates")]),
    Map(map[
      "mountPath" := Str("/usr/local/share/jupyterhub/static/extra-assets"),
      "name" := Str("custom-templates"),
      "subPath" := Str("extra-assets")])])

  function Ingress(domain: Domain): Val {
    Map(map[
      "hosts" := Hosts(domain),
      "tls" := Seq([Map(map["secretName" := Str("https-auto-tls"), "hosts" := Hosts(domain)])])])
  }

  /** The `hub` section of the dict literal, with `config` still empty. */
  function HubSection(name: string): Tree {
    map[
      "config" := Map(map[]),
      "initContainers" := Seq([TemplatesClone]),
      "extraContainers" := Seq([TemplatesSync(name)]),
      "extraVolumes" := ExtraVolumes,
      "extraVolumeMounts" := ExtraVolumeMounts]
  }

  /** The `jupyterhub` section of the dict literal. */
  function JupyterhubSection(name: string, domain: Domain, imageRepo: Option<string>, proxySecret: string): Tree {
    map[
      "proxy" := Map(map["secretToken" := Str(proxySecret)]),
      "ingress" := Ingress(domain),
      "singleuser" := Map(map["image" := ImageEntry(imageRepo)]),
      "hub" := Map(HubSection(name))]
  }

  /** The dict literal of `get_generated_config`, with `hub.config` still empty. */
  function BaseConfig(name: string, domain: Domain, imageRepo: Option<string>, proxySecret: string): Tree {
    map["jupyterhub" := Map(JupyterhubSection(name, domain, imageRepo, proxySecret))]
  }

  /** `auth0.enabled`, which defaults to true. */
  predicate Auth0Enabled(auth0: map<string, Val>) {
    "enabled" !in auth0 || Truthy(auth0["enabled"])
  }

  /**
   * The Auth0 client registration: nothing when it is disabled, otherwise the
   * credentials of the client ensured for this hub.
   */
  function Authenticator<C>(spec: HubSpec, provider: AuthProvider<C>): (r: Result<Option<Val>, Error>)
    ensures r == Ok(None) <==> !Auth0Enabled(spec.auth0)
    ensures r.Ok? && r.value.Some? ==>
      && "connection" in spec.auth0
      && provider.ensureClient(spec.name, spec.domain, spec.auth0["connection"]).Ok?
      && provider.getClientCreds(provider.ensureClient(spec.name, spec.domain, spec.auth0["connection"]).value,
                                 spec.auth0["connection"]) == Ok(r.value.value)
    ensures r.Err? <==>
      && Auth0Enabled(spec.auth0)
      && ("connection" in spec.auth0 ==>
            var client := provider.ensureClient(spec.name, spec.domain, spec.auth0["connection"]);
            client.Err? || provider.getClientCreds(client.value, spec.auth0["connection"]).Err?)
    ensures Auth0Enabled(spec.auth0) && "connection" !in spec.auth0 ==> r == Err(KeyError("connection"))
    ensures Auth0Enabled(spec.auth0) && "connection" in spec.auth0 ==>
      var client := provider.ensureClient(spec.name, spec.domain, spec.auth0["connection"]);
      && (client.Err? ==> r == Err(AuthProviderError(client.error)))
      && (client.Ok? && provider.getClientCreds(client.value, spec.auth0["connection"]).Err? ==>
            r == Err(AuthProviderError(provider.getClientCreds(client.value, spec.auth0["connection"]).error)))
  {
    if !Auth0Enabled(spec.auth0) then Ok(None)
    else if "connection" !in spec.auth0 then Err(KeyError("connection"))
    else
      var connection := spec.auth0["connection"];
      match provider.ensureClient(spec.name, spec.domain, connection)
      case Err(msg) => Err(AuthProviderError(msg))
      case Ok(client) =>
        match provider.getClientCreds(client, connection)
        case Err(msg) => Err(AuthProviderError(msg))
        case Ok(creds) => Ok(Some(creds))
  }

  /** `hub.config` once the authenticator has been written into it. */
  function HubAuthConfig(auth: Option<Val>): Tree {
    match auth
    case None => map[]
    case Some(creds) => map["GenericOAuthenticator" := creds]
  }

  /** `get_generated_config` up to the call of `apply_hub_template_fixes`. */
  function ComposeConfig<C>(hub: Hub, provider: AuthProvider<C>, key: Bytes, hmac: Hmac): Result<Tree, Error> {
    var name := hub.spec.name;
    var base := BaseConfig(name, hub.spec.domain, hub.cluster.imageRepo, hmac(key, ProxyLabel(name)));
    var auth :- Authenticator(hub.spec, provider);
    match auth
    case None => Ok(base)
    case Some(creds) => AssignAt(base, ConfigPath, "GenericOAuthenticator", creds)
  }

  // ---------------------------------------------------------------------
  // Template fixes

  function HealthService(token: string): Val {
    Map(map["apiToken" := Str(token), "admin" := Bool(true)])
  }

  function DocsService(name: string): Val {
    Map(map["url" := Str("http://docs-service." + name)])
  }

  function GatewayService(token: string): Val {
    Map(map["apiToken" := Str(token)])
  }

  /** The top-level `dask-gateway` section: the gateway's own JupyterHub auth token. */
  function GatewayAuth(token: string): Val {
    Map(map["gateway" := Map(map["auth" := Map(map["jupyterhub" := Map(map["apiToken" := Str(token)])])])])
  }

  /**
   * `'docs_service' in config and config['docs_service']['enabled']`, with the
   * exceptions the subscripts raise.
   */
  function DocsServiceEnabled(config: map<string, Val>): (r: Result<bool, Error>)
    ensures "docs_service" !in config ==> r == Ok(false)
    ensures "docs_service" in config && config["docs_service"].Map? && "enabled" in config["docs_service"].fields ==>
      r == Ok(Truthy(config["docs_service"].fields["enabled"]))
    ensures r.Err? <==> "docs_service" in config && !(config["docs_service"].Map? && "enabled" in config["docs_service"].fields)
  {
    if "docs_service" !in config then Ok(false)
    else match config["docs_service"]
      case Map(m) => if "enabled" in m then Ok(Truthy(m["enabled"])) else Err(KeyError("enabled"))
      case _ => Err(TypeError("docs_service"))
  }

  /** The root of the tree under which the base chart's values sit, for a template. */
  function Prefix(template: string): seq<string> {
    if template == "basehub" then [] else ["basehub"]
  }

  /** Every template but `basehub` takes the whole tree one level down, under `basehub`. */
  function Namespaced(t: Tree, template: string): Tree {
    if template == "basehub" then t else map["basehub" := Map(t)]
  }

  /** The `daskhub` extras: the top-level gateway section, then the gateway service inside `basehub`. */
  function DaskExtras(t: Tree, token: string): Result<Tree, Error> {
    var withAuth := t["dask-gateway" := GatewayAuth(token)];
    AssignAt(withAuth, ["basehub"] + ServicesPath, "dask-gateway", GatewayService(token))
  }

  /** The first half of `apply_hub_template_fixes`: the health service, then the docs service. */
  function AddHubServices(t: Tree, spec: HubSpec, key: Bytes, hmac: Hmac): Result<Tree, Error> {
    var withHealth :- SetDefaultAt(t, ServicesPath, "hub-health", HealthService(hmac(key, HealthLabel(spec.name))));
    var docs :- DocsServiceEnabled(spec.config);
    if docs then AssignAt(withHealth, ServicesPath, "docs", DocsService(spec.name)) else Ok(withHealth)
  }

  /** The second half: wrap under `basehub`, then add the `daskhub` extras. */
  function AdaptToTemplate(t: Tree, spec: HubSpec, key: Bytes, hmac: Hmac): Result<Tree, Error> {
    var wrapped := Namespaced(t, spec.template);
    if spec.template == "daskhub" then DaskExtras(wrapped, hmac(key, GatewayLabel(spec.name))) else Ok(wrapped)
  }

  /** `apply_hub_template_fixes`. */
  function ApplyHubTemplateFixes(t: Tree, spec: HubSpec, key: Bytes, hmac: Hmac): Result<Tree, Error> {
    var withServices :- AddHubServices(t, spec, key, hmac);
    AdaptToTemplate(withServices, spec, key, hmac)
  }

  /** `get_generated_config`: the whole generated values tree for one hub. */
  function GetGeneratedConfig<C>(hub: Hub, provider: AuthProvider<C>, key: Bytes, hmac: Hmac): Result<Tree, Error> {
    var composed :- ComposeConfig(hub, provider, key, hmac);
    ApplyHubTemplateFixes(composed, hub.spec, key, hmac)
  }
}
