/**
 * What the generated values of one hub contain, for every hub spec, every
 * identity provider and every HMAC function.
 */
module HubConfigProperties {
  import opened Wrappers
  import opened Values
  import opened Secrets
  import opened Specs
  import opened HubConfig

  // ---------------------------------------------------------------------
  // get_generated_config before the template fixes

  /** Composition fails exactly when the Auth0 registration fails, and with its error. */
  lemma ComposeConfigFails<C>(hub: Hub, provider: AuthProvider<C>, key: Bytes, hmac: Hmac)
    ensures ComposeConfig(hub, provider, key, hmac).Err? <==> Authenticator(hub.spec, provider).Err?
    ensures Authenticator(hub.spec, provider).Err? ==>
      ComposeConfig(hub, provider, key, hmac).error == Authenticator(hub.spec, provider).error
  {
    var name := hub.spec.name;
    var base := BaseConfig(name, hub.spec.domain, hub.cluster.imageRepo, hmac(key, ProxyLabel(name)));
    assert Lookup(Map(base), ConfigPath) == Some(Map(map[]));
  }

  const ProxySecretPath: seq<string> := ["jupyterhub", "proxy", "secretToken"]
  const ImagePath: seq<string> := ["jupyterhub", "singleuser", "image"]
  const SidecarsPath: seq<string> := ["jupyterhub", "hub", "extraContainers"]

  /**
   * What the later steps read in a composed tree: the one top-level key, the
   * proxy secret, the ingress section, the image entry, the sidecars, the
   * given `hub.config`, and no `hub.services` yet.
   */
  predicate ComposedShape(t: Tree, name: string, domain: Domain, imageRepo: Option<string>, proxySecret: string, config: Tree) {
    && t.Keys == {"jupyterhub"}
    && Lookup(Map(t), ProxySecretPath) == Some(Str(proxySecret))
    && Lookup(Map(t), IngressPath) == Some(Ingress(domain))
    && Lookup(Map(t), ImagePath) == Some(ImageEntry(imageRepo))
    && Lookup(Map(t), SidecarsPath) == Some(Seq([TemplatesSync(name)]))
    && Lookup(Map(t), ConfigPath) == Some(Map(config))
    && Lookup(Map(t), ServicesPath) == None
  }

  /** The `hub` section of the literal: an empty `config`, the sync sidecar, no `services`. */
  lemma HubSectionShape(name: string)
    ensures Lookup(Map(HubSection(name)), ["config"]) == Some(Map(map[]))
    ensures Lookup(Map(HubSection(name)), ["extraContainers"]) == Some(Seq([TemplatesSync(name)]))
    ensures Lookup(Map(HubSection(name)), ["services"]) == None
  {
    var hub := HubSection(name);
    LookupBelow(hub, "config", []);
    LookupBelow(hub, "extraContainers", []);
    LookupBelow(hub, "services", []);
  }

  /** The `jupyterhub` section of the literal, read along the paths below it. */
  lemma JupyterhubSectionShape(name: string, domain: Domain, imageRepo: Option<string>, proxySecret: string)
    ensures var jh := Map(JupyterhubSection(name, domain, imageRepo, proxySecret));
      && Lookup(jh, ProxySecretPath[1..]) == Some(Str(proxySecret))
      && Lookup(jh, IngressPath[1..]) == Some(Ingress(domain))
      && Lookup(jh, ImagePath[1..]) == Some(ImageEntry(imageRepo))
      && Lookup(jh, SidecarsPath[1..]) == Some(Seq([TemplatesSync(name)]))
      && Lookup(jh, ConfigPath[1..]) == Some(Map(map[]))
      && Lookup(jh, ServicesPath[1..]) == None
  {
    var jh := JupyterhubSection(name, domain, imageRepo, proxySecret);
    HubSectionShape(name);
    LookupBelow(jh, "hub", ["config"]);
    LookupBelow(jh, "hub", ["extraContainers"]);
    LookupBelow(jh, "hub", ["services"]);
    LookupBelow(jh, "proxy", ["secretToken"]);
    LookupBelow(map["secretToken" := Str(proxySecret)], "secretToken", []);
    LookupBelow(jh, "singleuser", ["image"]);
    LookupBelow(map["image" := ImageEntry(imageRepo)], "image", []);
    LookupBelow(jh, "ingress", []);
  }

  /** The dict literal of `get_generated_config`, read back along the paths the model uses. */
  lemma BaseConfigShape(name: string, domain: Domain, imageRepo: Option<string>, proxySecret: string)
    ensures ComposedShape(BaseConfig(name, domain, imageRepo, proxySecret), name, domain, imageRepo, proxySecret, map[])
  {
    var t := BaseConfig(name, domain, imageRepo, proxySecret);
    JupyterhubSectionShape(name, domain, imageRepo, proxySecret);
    LookupBelow(t, "jupyterhub", ProxySecretPath[1..]);
    LookupBelow(t, "jupyterhub", IngressPath[1..]);
    LookupBelow(t, "jupyterhub", ImagePath[1..]);
    LookupBelow(t, "jupyterhub", SidecarsPath[1..]);
    LookupBelow(t, "jupyterhub", ConfigPath[1..]);
    LookupBelow(t, "jupyterhub", ServicesPath[1..]);
  }

  /** Line 220 writes the credentials into the empty `hub.config` and changes no other path of the tree. */
  lemma AuthenticatorWritten(t: Tree, creds: Val, name: string, domain: Domain, imageRepo: Option<string>, proxySecret: string)
    requires ComposedShape(t, name, domain, imageRepo, proxySecret, map[])
    ensures AssignAt(t, ConfigPath, "GenericOAuthenticator", creds).Ok?
    ensures ComposedShape(AssignAt(t, ConfigPath, "GenericOAuthenticator", creds).value,
                          name, domain, imageRepo, proxySecret, map["GenericOAuthenticator" := creds])
    ensures forall q :: Diverges(q, ConfigPath + ["GenericOAuthenticator"]) ==>
      Lookup(Map(AssignAt(t, ConfigPath, "GenericOAuthenticator", creds).value), q) == Lookup(Map(t), q)
  {
    AssignAtWrites(t, ConfigPath, "GenericOAuthenticator", creds);
    forall q | Diverges(q, ConfigPath + ["GenericOAuthenticator"]) {
      AssignAtKeepsOthers(t, ConfigPath, "GenericOAuthenticator", creds, q);
    }
    var target := ConfigPath + ["GenericOAuthenticator"];
    assert ProxySecretPath[1] != target[1];
    AssignAtKeepsOthers(t, ConfigPath, "GenericOAuthenticator", creds, ProxySecretPath);
    assert IngressPath[1] != target[1];
    AssignAtKeepsOthers(t, ConfigPath, "GenericOAuthenticator", creds, IngressPath);
    assert ImagePath[1] != target[1];
    AssignAtKeepsOthers(t, ConfigPath, "GenericOAuthenticator", creds, ImagePath);
    assert SidecarsPath[2] != target[2];
    AssignAtKeepsOthers(t, ConfigPath, "GenericOAuthenticator", creds, SidecarsPath);
    assert ServicesPath[2] != target[2];
    AssignAtKeepsOthers(t, ConfigPath, "GenericOAuthenticator", creds, ServicesPath);
  }

  /** `hub.services` is absent below an existing `hub` dict, so the `setdefault` chain can reach it. */
  lemma ComposedWalkable(t: Tree, name: string, domain: Domain, imageRepo: Option<string>, proxySecret: string, config: Tree)
    requires ComposedShape(t, name, domain, imageRepo, proxySecret, config)
    ensures Walkable(t, ServicesPath)
  {
    assert HubPath + ["config"] == ConfigPath && HubPath + ["services"] == ServicesPath;
    LookupAboveIsDict(Map(t), HubPath, ["config"]);
    LookupAppend(Map(t), HubPath, ["services"]);
    WalkableBelowDict(t, HubPath, "services");
  }

  /** The tree `get_generated_config` hands to `apply_hub_template_fixes`. */
  lemma ComposeConfigShape<C>(hub: Hub, provider: AuthProvider<C>, key: Bytes, hmac: Hmac)
    requires ComposeConfig(hub, provider, key, hmac).Ok?
    ensures Authenticator(hub.spec, provider).Ok?
    ensures ComposedShape(ComposeConfig(hub, provider, key, hmac).value, hub.spec.name, hub.spec.domain,
                          hub.cluster.imageRepo, hmac(key, ProxyLabel(hub.spec.name)),
                          HubAuthConfig(Authenticator(hub.spec, provider).value))
  {
    var name := hub.spec.name;
    var base := BaseConfig(name, hub.spec.domain, hub.cluster.imageRepo, hmac(key, ProxyLabel(name)));
    var auth := Authenticator(hub.spec, provider).value;
    BaseConfigShape(name, hub.spec.domain, hub.cluster.imageRepo, hmac(key, ProxyLabel(name)));
    if auth.Some? {
      AuthenticatorWritten(base, auth.value, name, hub.spec.domain, hub.cluster.imageRepo, hmac(key, ProxyLabel(name)));
    }
  }

  // ---------------------------------------------------------------------
  // apply_hub_template_fixes, first half: the services

  /**
   * The services step fails only when an existing node on the
   * `jupyterhub.hub.services` path is not a dict, or when the docs flag
   * cannot be read.
   */
  lemma AddHubServicesFails(t: Tree, spec: HubSpec, key: Bytes, hmac: Hmac)
    ensures AddHubServices(t, spec, key, hmac).Ok? <==> Walkable(t, ServicesPath) && DocsServiceEnabled(spec.config).Ok?
    ensures Walkable(t, ServicesPath) && DocsServiceEnabled(spec.config).Err? ==>
      AddHubServices(t, spec, key, hmac) == Err(DocsServiceEnabled(spec.config).error)
  {
    var health := HealthService(hmac(key, HealthLabel(spec.name)));
    if Walkable(t, ServicesPath) {
      var withHealth := SetDefaultAt(t, ServicesPath, "hub-health", health).value;
      LookupAboveIsDict(Map(withHealth), ServicesPath, ["hub-health"]);
    }
  }

  /** Outside `jupyterhub.hub.services` the services step changes nothing. */
  lemma AddHubServicesKeepsOthers(t: Tree, spec: HubSpec, key: Bytes, hmac: Hmac, q: seq<string>)
    requires AddHubServices(t, spec, key, hmac).Ok?
    requires Diverges(q, ServicesPath)
    ensures Lookup(Map(AddHubServices(t, spec, key, hmac).value), q) == Lookup(Map(t), q)
  {
    var health := HealthService(hmac(key, HealthLabel(spec.name)));
    var withHealth := SetDefaultAt(t, ServicesPath, "hub-health", health).value;
    DivergesExtended(q, ServicesPath, ["hub-health"]);
    SetDefaultAtKeepsOthers(t, ServicesPath, "hub-health", health, q);
    if DocsServiceEnabled(spec.config).value {
      DivergesExtended(q, ServicesPath, ["docs"]);
      AssignAtKeepsOthers(withHealth, ServicesPath, "docs", DocsService(spec.name), q);
    }
  }

  /**
   * Each entry of the services dict after the step: `hub-health` always,
   * `docs` when the flag is set, and every other entry as it was, since the
   * dicts on the path are reused by `setdefault`.
   */
  lemma AddHubServicesEntry(t: Tree, spec: HubSpec, key: Bytes, hmac: Hmac, k: string)
    requires AddHubServices(t, spec, key, hmac).Ok?
    ensures var r := AddHubServices(t, spec, key, hmac).value;
      && Lookup(Map(r), ServicesPath).Some? && Lookup(Map(r), ServicesPath).value.Map?
      && Lookup(Map(r), ServicesPath + [k]) ==
           if k == "hub-health" then Some(HealthService(hmac(key, HealthLabel(spec.name))))
           else if k == "docs" && DocsServiceEnabled(spec.config).value then Some(DocsService(spec.name))
           else Lookup(Map(t), ServicesPath + [k])
  {
    var health := HealthService(hmac(key, HealthLabel(spec.name)));
    var withHealth := SetDefaultAt(t, ServicesPath, "hub-health", health).value;
    var r := AddHubServices(t, spec, key, hmac).value;
    var docs := DocsServiceEnabled(spec.config).value;
    if k != "hub-health" {
      assert (ServicesPath + [k])[3] != (ServicesPath + ["hub-health"])[3];
      SetDefaultAtKeepsOthers(t, ServicesPath, "hub-health", health, ServicesPath + [k]);
    }
    if docs {
      LookupAboveIsDict(Map(withHealth), ServicesPath, ["hub-health"]);
      if k != "docs" {
        assert (ServicesPath + [k])[3] != (ServicesPath + ["docs"])[3];
        AssignAtKeepsOthers(withHealth, ServicesPath, "docs", DocsService(spec.name), ServicesPath + [k]);
      }
    }
    LookupAboveIsDict(Map(r), ServicesPath, if docs then ["docs"] else ["hub-health"]);
  }

  // ---------------------------------------------------------------------
  // apply_hub_template_fixes, second half: namespacing and extras

  /** For `daskhub` the step needs the services dict the first half made; otherwise it cannot fail. */
  lemma AdaptToTemplateFails(t: Tree, spec: HubSpec, key: Bytes, hmac: Hmac)
    ensures AdaptToTemplate(t, spec, key, hmac).Ok? <==>
      (spec.template == "daskhub" ==> Lookup(Map(t), ServicesPath).Some? && Lookup(Map(t), ServicesPath).value.Map?)
  {
    if spec.template == "daskhub" {
      var token := hmac(key, GatewayLabel(spec.name));
      var withAuth := Namespaced(t, spec.template)["dask-gateway" := GatewayAuth(token)];
      LookupBelow(withAuth, "basehub", ServicesPath);
    }
  }

  /**
   * Whatever the template, the tree from before the step is found unchanged
   * under `Prefix(template)`: at the top for `basehub`, under the `basehub`
   * key otherwise. For `daskhub` this holds away from the one entry it adds
   * there.
   */
  lemma AdaptToTemplateNests(t: Tree, spec: HubSpec, key: Bytes, hmac: Hmac, q: seq<string>)
    requires AdaptToTemplate(t, spec, key, hmac).Ok?
    requires spec.template == "daskhub" ==> Diverges(q, ServicesPath + ["dask-gateway"])
    ensures Lookup(Map(AdaptToTemplate(t, spec, key, hmac).value), Prefix(spec.template) + q) == Lookup(Map(t), q)
  {
    var r := AdaptToTemplate(t, spec, key, hmac).value;
    if spec.template == "basehub" {
      assert Prefix(spec.template) + q == q;
    } else {
      var wrapped := map["basehub" := Map(t)];
      LookupBelow(wrapped, "basehub", q);
      if spec.template == "daskhub" {
        var token := hmac(key, GatewayLabel(spec.name));
        var withAuth := wrapped["dask-gateway" := GatewayAuth(token)];
        LookupBelow(withAuth, "basehub", q);
        DivergesBelow("basehub", q, ServicesPath + ["dask-gateway"]);
        assert ["basehub"] + (ServicesPath + ["dask-gateway"]) == ["basehub"] + ServicesPath + ["dask-gateway"];
        AssignAtKeepsOthers(withAuth, ["basehub"] + ServicesPath, "dask-gateway", GatewayService(token), ["basehub"] + q);
      }
    }
  }

  /** The top-level keys after the step, and the `daskhub` extras in both places. */
  lemma AdaptToTemplateExtras(t: Tree, spec: HubSpec, key: Bytes, hmac: Hmac)
    requires AdaptToTemplate(t, spec, key, hmac).Ok?
    ensures var r := AdaptToTemplate(t, spec, key, hmac).value;
      var token := hmac(key, GatewayLabel(spec.name));
      && (spec.template == "basehub" ==> r == t)
      && (spec.template != "basehub" && spec.template != "daskhub" ==> r == map["basehub" := Map(t)])
      && (spec.template == "daskhub" ==>
            && r.Keys == {"basehub", "dask-gateway"}
            && r["dask-gateway"] == GatewayAuth(token)
            && Lookup(Map(r), ["basehub"] + ServicesPath + ["dask-gateway"]) == Some(GatewayService(token)))
  {
    if spec.template == "daskhub" {
      var token := hmac(key, GatewayLabel(spec.name));
      var withAuth := map["basehub" := Map(t)]["dask-gateway" := GatewayAuth(token)];
      var r := AdaptToTemplate(t, spec, key, hmac).value;
      var q := ["dask-gateway"];
      assert q[0] != (["basehub"] + ServicesPath + ["dask-gateway"])[0];
      AssignAtKeepsOthers(withAuth, ["basehub"] + ServicesPath, "dask-gateway", GatewayService(token), q);
      LookupBelow(r, "dask-gateway", []);
      LookupBelow(withAuth, "dask-gateway", []);
      LookupAboveIsDict(Map(r), ["basehub"], ServicesPath + ["dask-gateway"]);
      assert ["basehub"] + ServicesPath + ["dask-gateway"] == ["basehub"] + (ServicesPath + ["dask-gateway"]);
    }
  }

  // ---------------------------------------------------------------------
  // get_generated_config as a whole

  /** The services dict of a generated tree, written out flat. */
  function ExpectedServices(spec: HubSpec, key: Bytes, hmac: Hmac, docs: bool): Tree {
    var health := map["hub-health" := HealthService(hmac(key, HealthLabel(spec.name)))];
    var withDocs := if docs then health["docs" := DocsService(spec.name)] else health;
    if spec.template == "daskhub" then withDocs["dask-gateway" := GatewayService(hmac(key, GatewayLabel(spec.name)))]
    else withDocs
  }

  /** Outside the services dict, the fixes only move the tree under `Prefix(template)`. */
  lemma FixesKeepOthers(t: Tree, spec: HubSpec, key: Bytes, hmac: Hmac, q: seq<string>)
    requires ApplyHubTemplateFixes(t, spec, key, hmac).Ok?
    requires Diverges(q, ServicesPath)
    ensures Lookup(Map(ApplyHubTemplateFixes(t, spec, key, hmac).value), Prefix(spec.template) + q) == Lookup(Map(t), q)
  {
    var w := AddHubServices(t, spec, key, hmac).value;
    AddHubServicesKeepsOthers(t, spec, key, hmac, q);
    DivergesExtended(q, ServicesPath, ["dask-gateway"]);
    AdaptToTemplateNests(w, spec, key, hmac, q);
  }

  /** One services entry the services step leaves on a tree that had no services dict. */
  function ExpectedService(spec: HubSpec, key: Bytes, hmac: Hmac, docs: bool, k: string): Option<Val> {
    if k == "hub-health" then Some(HealthService(hmac(key, HealthLabel(spec.name))))
    else if k == "docs" && docs then Some(DocsService(spec.name))
    else None
  }

  /** One services entry after the fixes, on a tree that had no services dict. */
  function FixedService(spec: HubSpec, key: Bytes, hmac: Hmac, docs: bool, k: string): Option<Val> {
    if spec.template == "daskhub" && k == "dask-gateway" then Some(GatewayService(hmac(key, GatewayLabel(spec.name))))
    else ExpectedService(spec, key, hmac, docs, k)
  }

  /** A services dict is the expected one exactly when each of its entries is the expected one. */
  lemma ServicesByEntry(services: Tree, spec: HubSpec, key: Bytes, hmac: Hmac, docs: bool)
    ensures (forall k :: (if k in services then Some(services[k]) else None) == FixedService(spec, key, hmac, docs, k))
        <==> services == ExpectedServices(spec, key, hmac, docs)
  {
    var expected := ExpectedServices(spec, key, hmac, docs);
    if forall k :: (if k in services then Some(services[k]) else None) == FixedService(spec, key, hmac, docs, k) {
      forall k ensures (k in services <==> k in expected) && (k in services ==> services[k] == expected[k]) {
        assert (if k in services then Some(services[k]) else None) == FixedService(spec, key, hmac, docs, k);
      }
    }
    if services == expected {
      forall k ensures (if k in services then Some(services[k]) else None) == FixedService(spec, key, hmac, docs, k) {
      }
    }
  }

  /** The services step on a tree without a services dict, entry by entry. */
  lemma ServicesStepEntry(t: Tree, spec: HubSpec, key: Bytes, hmac: Hmac, k: string)
    requires AddHubServices(t, spec, key, hmac).Ok?
    requires Lookup(Map(t), ServicesPath) == None
    ensures var w := AddHubServices(t, spec, key, hmac).value;
      Lookup(Map(w), ServicesPath + [k]) == ExpectedService(spec, key, hmac, DocsServiceEnabled(spec.config).value, k)
  {
    LookupAppend(Map(t), ServicesPath, [k]);
    AddHubServicesEntry(t, spec, key, hmac, k);
  }

  /** On a tree without a services dict, one entry of the services dict after the fixes. */
  lemma FixesServiceEntry(t: Tree, spec: HubSpec, key: Bytes, hmac: Hmac, k: string)
    requires ApplyHubTemplateFixes(t, spec, key, hmac).Ok?
    requires Lookup(Map(t), ServicesPath) == None
    ensures DocsServiceEnabled(spec.config).Ok?
    ensures Lookup(Map(ApplyHubTemplateFixes(t, spec, key, hmac).value), Prefix(spec.template) + ServicesPath + [k])
        == FixedService(spec, key, hmac, DocsServiceEnabled(spec.config).value, k)
  {
    var w := AddHubServices(t, spec, key, hmac).value;
    assert Prefix(spec.template) + ServicesPath + [k] == Prefix(spec.template) + (ServicesPath + [k]);
    if spec.template == "daskhub" && k == "dask-gateway" {
      AdaptToTemplateExtras(w, spec, key, hmac);
    } else {
      ServicesStepEntry(t, spec, key, hmac, k);
      if spec.template == "daskhub" {
        assert (ServicesPath + [k])[3] != (ServicesPath + ["dask-gateway"])[3];
      }
      AdaptToTemplateNests(w, spec, key, hmac, ServicesPath + [k]);
    }
  }

  /** `get_generated_config` fails exactly when the Auth0 registration or the docs flag does, with that error. */
  lemma GeneratedConfigFails<C>(hub: Hub, provider: AuthProvider<C>, key: Bytes, hmac: Hmac)
    ensures GetGeneratedConfig(hub, provider, key, hmac).Ok? <==>
      Authenticator(hub.spec, provider).Ok? && DocsServiceEnabled(hub.spec.config).Ok?
    ensures Authenticator(hub.spec, provider).Err? ==>
      GetGeneratedConfig(hub, provider, key, hmac) == Err(Authenticator(hub.spec, provider).error)
    ensures Authenticator(hub.spec, provider).Ok? && DocsServiceEnabled(hub.spec.config).Err? ==>
      GetGeneratedConfig(hub, provider, key, hmac) == Err(DocsServiceEnabled(hub.spec.config).error)
  {
    ComposeConfigFails(hub, provider, key, hmac);
    if ComposeConfig(hub, provider, key, hmac).Ok? {
      var t0 := ComposeConfig(hub, provider, key, hmac).value;
      ComposeConfigShape(hub, provider, key, hmac);
      ComposedWalkable(t0, hub.spec.name, hub.spec.domain, hub.cluster.imageRepo, hmac(key, ProxyLabel(hub.spec.name)),
                       HubAuthConfig(Authenticator(hub.spec, provider).value));
      AddHubServicesFails(t0, hub.spec, key, hmac);
      if AddHubServices(t0, hub.spec, key, hmac).Ok? {
        AddHubServicesEntry(t0, hub.spec, key, hmac, "hub-health");
        AdaptToTemplateFails(AddHubServices(t0, hub.spec, key, hmac).value, hub.spec, key, hmac);
      }
    }
  }

  /** On a composed tree, the fixed tree holds the composed values under `Prefix(template)`. */
  lemma FixedValues(t: Tree, spec: HubSpec, key: Bytes, hmac: Hmac, imageRepo: Option<string>, proxySecret: string, config: Tree)
    requires ApplyHubTemplateFixes(t, spec, key, hmac).Ok?
    requires ComposedShape(t, spec.name, spec.domain, imageRepo, proxySecret, config)
    ensures var r := Map(ApplyHubTemplateFixes(t, spec, key, hmac).value);
      var p := Prefix(spec.template);
      && Lookup(r, p + ProxySecretPath) == Some(Str(proxySecret))
      && Lookup(r, p + ImagePath) == Some(ImageEntry(imageRepo))
      && Lookup(r, p + ConfigPath) == Some(Map(config))
      && Lookup(r, p + SidecarsPath) == Some(Seq([TemplatesSync(spec.name)]))
  {
    assert ProxySecretPath[1] != ServicesPath[1];
    FixesKeepOthers(t, spec, key, hmac, ProxySecretPath);
    assert ImagePath[1] != ServicesPath[1];
    FixesKeepOthers(t, spec, key, hmac, ImagePath);
    assert SidecarsPath[2] != ServicesPath[2];
    FixesKeepOthers(t, spec, key, hmac, SidecarsPath);
    assert ConfigPath[2] != ServicesPath[2];
    FixesKeepOthers(t, spec, key, hmac, ConfigPath);
  }

  /** The ingress hosts and the TLS hosts of the fixed tree both come from the domain. */
  lemma FixedIngress(t: Tree, spec: HubSpec, key: Bytes, hmac: Hmac)
    requires ApplyHubTemplateFixes(t, spec, key, hmac).Ok?
    requires Lookup(Map(t), IngressPath) == Some(Ingress(spec.domain))
    ensures var r := Map(ApplyHubTemplateFixes(t, spec, key, hmac).value);
      var p := Prefix(spec.template);
      && Lookup(r, p + IngressPath + ["hosts"]) == Some(Hosts(spec.domain))
      && Lookup(r, p + IngressPath + ["tls"]) ==
           Some(Seq([Map(map["secretName" := Str("https-auto-tls"), "hosts" := Hosts(spec.domain)])]))
  {
    var r := Map(ApplyHubTemplateFixes(t, spec, key, hmac).value);
    var p := Prefix(spec.template);
    assert IngressPath[1] != ServicesPath[1];
    FixesKeepOthers(t, spec, key, hmac, IngressPath);
    var ingress := Ingress(spec.domain).fields;
    LookupAppend(r, p + IngressPath, ["hosts"]);
    LookupBelow(ingress, "hosts", []);
    LookupAppend(r, p + IngressPath, ["tls"]);
    LookupBelow(ingress, "tls", []);
  }

  /**
   * The values `get_generated_config` writes, read back at the root of the
   * base chart's values (the top of the tree for `basehub`, `basehub`
   * otherwise): the proxy secret derived from the hub name, the ingress
   * hosts and TLS hosts both from the normalised domain, the image entry,
   * the authenticator config, and the template-sync sidecar.
   */
  lemma GeneratedConfigValues<C>(hub: Hub, provider: AuthProvider<C>, key: Bytes, hmac: Hmac)
    requires GetGeneratedConfig(hub, provider, key, hmac).Ok?
    ensures Authenticator(hub.spec, provider).Ok?
    ensures var t := Map(GetGeneratedConfig(hub, provider, key, hmac).value);
      var p := Prefix(hub.spec.template);
      && Lookup(t, p + ProxySecretPath) == Some(Str(hmac(key, ProxyLabel(hub.spec.name))))
      && Lookup(t, p + IngressPath + ["hosts"]) == Some(Hosts(hub.spec.domain))
      && Lookup(t, p + IngressPath + ["tls"]) ==
           Some(Seq([Map(map["secretName" := Str("https-auto-tls"), "hosts" := Hosts(hub.spec.domain)])]))
      && Lookup(t, p + ImagePath) == Some(ImageEntry(hub.cluster.imageRepo))
      && Lookup(t, p + ConfigPath) == Some(Map(HubAuthConfig(Authenticator(hub.spec, provider).value)))
      && Lookup(t, p + SidecarsPath) == Some(Seq([TemplatesSync(hub.spec.name)]))
  {
    ComposeConfigShape(hub, provider, key, hmac);
    var t0 := ComposeConfig(hub, provider, key, hmac).value;
    FixedValues(t0, hub.spec, key, hmac, hub.cluster.imageRepo,
                hmac(key, ProxyLabel(hub.spec.name)), HubAuthConfig(Authenticator(hub.spec, provider).value));
    FixedIngress(t0, hub.spec, key, hmac);
  }

  /** On a tree without a services dict, the services dict after the fixes is exactly the expected one. */
  lemma FixedServices(t: Tree, spec: HubSpec, key: Bytes, hmac: Hmac)
    requires ApplyHubTemplateFixes(t, spec, key, hmac).Ok?
    requires Lookup(Map(t), ServicesPath) == None
    ensures DocsServiceEnabled(spec.config).Ok?
    ensures Lookup(Map(ApplyHubTemplateFixes(t, spec, key, hmac).value), Prefix(spec.template) + ServicesPath)
         == Some(Map(ExpectedServices(spec, key, hmac, DocsServiceEnabled(spec.config).value)))
  {
    var r := Map(ApplyHubTemplateFixes(t, spec, key, hmac).value);
    var p := Prefix(spec.template) + ServicesPath;
    FixesServiceEntry(t, spec, key, hmac, "hub-health");
    var docs := DocsServiceEnabled(spec.config).value;
    LookupAboveIsDict(r, p, ["hub-health"]);
    var services := Lookup(r, p).value.fields;
    forall k ensures (if k in services then Some(services[k]) else None) == FixedService(spec, key, hmac, docs, k) {
      FixesServiceEntry(t, spec, key, hmac, k);
      LookupChild(r, p, k);
    }
    ServicesByEntry(services, spec, key, hmac, docs);
  }

  /**
   * The services dict of the generated tree is exactly: `hub-health` with the
   * token derived from "health-" + name and admin rights; `docs` with the
   * in-cluster docs URL iff the hub's config enables it; `dask-gateway` with
   * the token derived from "gateway-" + name iff the template is `daskhub`.
   */
  lemma GeneratedServices<C>(hub: Hub, provider: AuthProvider<C>, key: Bytes, hmac: Hmac)
    requires GetGeneratedConfig(hub, provider, key, hmac).Ok?
    ensures DocsServiceEnabled(hub.spec.config).Ok?
    ensures Lookup(Map(GetGeneratedConfig(hub, provider, key, hmac).value), Prefix(hub.spec.template) + ServicesPath)
         == Some(Map(ExpectedServices(hub.spec, key, hmac, DocsServiceEnabled(hub.spec.config).value)))
  {
    ComposeConfigShape(hub, provider, key, hmac);
    FixedServices(ComposeConfig(hub, provider, key, hmac).value, hub.spec, key, hmac);
  }

  // ---------------------------------------------------------------------
  // The templates compared

  /** The same hub with another template. */
  function WithTemplate(hub: Hub, template: string): Hub {
    hub.(spec := hub.spec.(template := template))
  }

  /** Composition does not read the template. */
  lemma ComposeIgnoresTemplate<C>(hub: Hub, provider: AuthProvider<C>, key: Bytes, hmac: Hmac, template: string)
    ensures ComposeConfig(WithTemplate(hub, template), provider, key, hmac) == ComposeConfig(hub, provider, key, hmac)
  {
    var other := WithTemplate(hub, template);
    assert other.spec.name == hub.spec.name && other.spec.domain == hub.spec.domain && other.cluster == hub.cluster;
    assert Authenticator(other.spec, provider) == Authenticator(hub.spec, provider);
  }

  /** Neither does the services step. */
  lemma ServicesIgnoreTemplate(t: Tree, spec: HubSpec, key: Bytes, hmac: Hmac, template: string)
    ensures AddHubServices(t, spec.(template := template), key, hmac) == AddHubServices(t, spec, key, hmac)
  {
    assert DocsServiceEnabled(spec.(template := template).config) == DocsServiceEnabled(spec.config);
  }

  /** The `daskhub` namespacing step on a tree that has a services dict. */
  lemma DaskhubAdapt(t: Tree, spec: HubSpec, key: Bytes, hmac: Hmac)
    requires spec.template == "daskhub"
    requires Lookup(Map(t), ServicesPath).Some? && Lookup(Map(t), ServicesPath).value.Map?
    ensures var token := hmac(key, GatewayLabel(spec.name));
      && AssignAt(t, ServicesPath, "dask-gateway", GatewayService(token)).Ok?
      && AdaptToTemplate(t, spec, key, hmac) == Ok(map[
           "basehub" := Map(AssignAt(t, ServicesPath, "dask-gateway", GatewayService(token)).value),
           "dask-gateway" := GatewayAuth(token)])
  {
    var token := hmac(key, GatewayLabel(spec.name));
    var withAuth := map["basehub" := Map(t)]["dask-gateway" := GatewayAuth(token)];
    AssignAtBelow(withAuth, "basehub", ServicesPath, "dask-gateway", GatewayService(token));
    var inner := AssignAt(t, ServicesPath, "dask-gateway", GatewayService(token)).value;
    assert withAuth["basehub" := Map(inner)] == map["basehub" := Map(inner), "dask-gateway" := GatewayAuth(token)];
  }

  /** Generation unfolded into its three steps, a proof step for the lemmas below. */
  lemma GeneratedStages<C>(hub: Hub, provider: AuthProvider<C>, key: Bytes, hmac: Hmac)
    requires ComposeConfig(hub, provider, key, hmac).Ok?
    ensures var t0 := ComposeConfig(hub, provider, key, hmac).value;
      GetGeneratedConfig(hub, provider, key, hmac) ==
        if AddHubServices(t0, hub.spec, key, hmac).Ok?
        then AdaptToTemplate(AddHubServices(t0, hub.spec, key, hmac).value, hub.spec, key, hmac)
        else Err(AddHubServices(t0, hub.spec, key, hmac).error)
  {
  }

  /**
   * Every template other than `basehub` and `daskhub` yields exactly the
   * `basehub` tree of the same hub, wrapped under the one key `basehub`, and
   * fails exactly when that one does.
   */
  lemma OtherTemplatesWrapBasehub<C>(hub: Hub, provider: AuthProvider<C>, key: Bytes, hmac: Hmac)
    requires hub.spec.template != "basehub" && hub.spec.template != "daskhub"
    ensures var b := GetGeneratedConfig(WithTemplate(hub, "basehub"), provider, key, hmac);
      GetGeneratedConfig(hub, provider, key, hmac) == if b.Ok? then Ok(map["basehub" := Map(b.value)]) else b
  {
    var base := WithTemplate(hub, "basehub");
    var c := ComposeConfig(hub, provider, key, hmac);
    ComposeIgnoresTemplate(hub, provider, key, hmac, "basehub");
    if c.Ok? {
      ServicesIgnoreTemplate(c.value, hub.spec, key, hmac, "basehub");
      GeneratedStages(hub, provider, key, hmac);
      GeneratedStages(base, provider, key, hmac);
    }
  }

  /**
   * `daskhub` yields the `basehub` tree of the same hub with the gateway
   * service added to its services dict, wrapped under `basehub`, next to the
   * top-level `dask-gateway` section; the wrap comes first, so that section
   * sits outside the wrapped tree.
   */
  lemma DaskhubExtendsBasehub<C>(hub: Hub, provider: AuthProvider<C>, key: Bytes, hmac: Hmac)
    requires hub.spec.template == "daskhub"
    ensures var b := GetGeneratedConfig(WithTemplate(hub, "basehub"), provider, key, hmac);
      var token := hmac(key, GatewayLabel(hub.spec.name));
      && (b.Err? ==> GetGeneratedConfig(hub, provider, key, hmac) == b)
      && (b.Ok? ==>
            && AssignAt(b.value, ServicesPath, "dask-gateway", GatewayService(token)).Ok?
            && GetGeneratedConfig(hub, provider, key, hmac) == Ok(map[
                 "basehub" := Map(AssignAt(b.value, ServicesPath, "dask-gateway", GatewayService(token)).value),
                 "dask-gateway" := GatewayAuth(token)]))
  {
    var base := WithTemplate(hub, "basehub");
    var c := ComposeConfig(hub, provider, key, hmac);
    ComposeIgnoresTemplate(hub, provider, key, hmac, "basehub");
    if c.Ok? {
      ServicesIgnoreTemplate(c.value, hub.spec, key, hmac, "basehub");
      GeneratedStages(hub, provider, key, hmac);
      GeneratedStages(base, provider, key, hmac);
      var a := AddHubServices(c.value, hub.spec, key, hmac);
      if a.Ok? {
        AddHubServicesEntry(c.value, hub.spec, key, hmac, "hub-health");
        DaskhubAdapt(a.value, hub.spec, key, hmac);
      }
    }
  }

  /** For `basehub` the fixes add no top-level key beyond `jupyterhub`. */
  lemma BasehubFixedKeys(t: Tree, spec: HubSpec, key: Bytes, hmac: Hmac)
    requires spec.template == "basehub"
    requires ApplyHubTemplateFixes(t, spec, key, hmac).Ok?
    ensures ApplyHubTemplateFixes(t, spec, key, hmac).value.Keys == t.Keys + {"jupyterhub"}
  {
  }

  /** Both `daskhub` gateway tokens, read back from the tree. */
  lemma DaskhubTokens(t: Tree, spec: HubSpec, key: Bytes, hmac: Hmac)
    requires spec.template == "daskhub"
    requires AdaptToTemplate(t, spec, key, hmac).Ok?
    ensures var r := Map(AdaptToTemplate(t, spec, key, hmac).value);
      var token := Some(Str(hmac(key, GatewayLabel(spec.name))));
      && Lookup(r, ["dask-gateway", "gateway", "auth", "jupyterhub", "apiToken"]) == token
      && Lookup(r, ["basehub"] + ServicesPath + ["dask-gateway", "apiToken"]) == token
  {
    var r := AdaptToTemplate(t, spec, key, hmac).value;
    var token := hmac(key, GatewayLabel(spec.name));
    AdaptToTemplateExtras(t, spec, key, hmac);
    LookupBelow(r, "dask-gateway", ["gateway", "auth", "jupyterhub", "apiToken"]);
    var gateway := GatewayAuth(token).fields;
    LookupBelow(gateway, "gateway", ["auth", "jupyterhub", "apiToken"]);
    LookupBelow(gateway["gateway"].fields, "auth", ["jupyterhub", "apiToken"]);
    LookupBelow(gateway["gateway"].fields["auth"].fields, "jupyterhub", ["apiToken"]);
    LookupBelow(map["apiToken" := Str(token)], "apiToken", []);
    var p := ["basehub"] + ServicesPath + ["dask-gateway"];
    LookupAppend(Map(r), p, ["apiToken"]);
    assert p + ["apiToken"] == ["basehub"] + ServicesPath + ["dask-gateway", "apiToken"];
    LookupBelow(GatewayService(token).fields, "apiToken", []);
  }

  /**
   * The top level of the generated tree: `jupyterhub` alone for `basehub`,
   * `basehub` alone for the other templates but `daskhub`, and `basehub`
   * with `dask-gateway` for `daskhub`.
   */
  lemma GeneratedTopLevel<C>(hub: Hub, provider: AuthProvider<C>, key: Bytes, hmac: Hmac)
    requires GetGeneratedConfig(hub, provider, key, hmac).Ok?
    ensures var keys := GetGeneratedConfig(hub, provider, key, hmac).value.Keys;
      && (hub.spec.template == "basehub" ==> keys == {"jupyterhub"})
      && (hub.spec.template != "basehub" && hub.spec.template != "daskhub" ==> keys == {"basehub"})
      && (hub.spec.template == "daskhub" ==> keys == {"basehub", "dask-gateway"})
  {
    var t0 := ComposeConfig(hub, provider, key, hmac).value;
    ComposeConfigShape(hub, provider, key, hmac);
    if hub.spec.template == "basehub" {
      BasehubFixedKeys(t0, hub.spec, key, hmac);
    } else {
      var w := AddHubServices(t0, hub.spec, key, hmac).value;
      AdaptToTemplateExtras(w, hub.spec, key, hmac);
    }
  }

  /**
   * For `daskhub` the gateway's own token and the hub's `dask-gateway`
   * service token are the same value, derived from "gateway-" + name.
   */
  lemma DaskhubGatewayTokensAgree<C>(hub: Hub, provider: AuthProvider<C>, key: Bytes, hmac: Hmac)
    requires hub.spec.template == "daskhub"
    requires GetGeneratedConfig(hub, provider, key, hmac).Ok?
    ensures var r := Map(GetGeneratedConfig(hub, provider, key, hmac).value);
      var token := Some(Str(hmac(key, GatewayLabel(hub.spec.name))));
      && Lookup(r, ["dask-gateway", "gateway", "auth", "jupyterhub", "apiToken"]) == token
      && Lookup(r, ["basehub"] + ServicesPath + ["dask-gateway", "apiToken"]) == token
  {
    var t0 := ComposeConfig(hub, provider, key, hmac).value;
    GeneratedStages(hub, provider, key, hmac);
    DaskhubTokens(AddHubServices(t0, hub.spec, key, hmac).value, hub.spec, key, hmac);
  }

  /** No template but `daskhub` gets either gateway entry. */
  lemma NoGatewayElsewhere<C>(hub: Hub, provider: AuthProvider<C>, key: Bytes, hmac: Hmac)
    requires hub.spec.template != "daskhub"
    requires GetGeneratedConfig(hub, provider, key, hmac).Ok?
    ensures var r := GetGeneratedConfig(hub, provider, key, hmac).value;
      && "dask-gateway" !in r
      && Lookup(Map(r), Prefix(hub.spec.template) + ServicesPath + ["dask-gateway"]) == None
  {
    var r := Map(GetGeneratedConfig(hub, provider, key, hmac).value);
    GeneratedTopLevel(hub, provider, key, hmac);
    GeneratedServices(hub, provider, key, hmac);
    LookupChild(r, Prefix(hub.spec.template) + ServicesPath, "dask-gateway");
  }

  /**
   * The generated tree depends on the HMAC function only through its values
   * on the three labels of the hub: two HMAC functions that agree there give
   * the same tree.
   */
  lemma SecretsOnlyFromLabels<C>(hub: Hub, provider: AuthProvider<C>, key: Bytes, h1: Hmac, h2: Hmac)
    requires h1(key, ProxyLabel(hub.spec.name)) == h2(key, ProxyLabel(hub.spec.name))
    requires h1(key, HealthLabel(hub.spec.name)) == h2(key, HealthLabel(hub.spec.name))
    requires h1(key, GatewayLabel(hub.spec.name)) == h2(key, GatewayLabel(hub.spec.name))
    ensures GetGeneratedConfig(hub, provider, key, h1) == GetGeneratedConfig(hub, provider, key, h2)
  {
    var c := ComposeConfig(hub, provider, key, h1);
    assert c == ComposeConfig(hub, provider, key, h2);
    if c.Ok? {
      assert AddHubServices(c.value, hub.spec, key, h1) == AddHubServices(c.value, hub.spec, key, h2);
      var a := AddHubServices(c.value, hub.spec, key, h1);
      if a.Ok? {
        assert AdaptToTemplate(a.value, hub.spec, key, h1) == AdaptToTemplate(a.value, hub.spec, key, h2);
      }
      GeneratedStages(hub, provider, key, h1);
      GeneratedStages(hub, provider, key, h2);
    }
  }

  /**
   * With Auth0 enabled (the default) `hub.config.GenericOAuthenticator` holds
   * the credentials of the client ensured for the hub's name and raw domain;
   * with it disabled `hub.config` stays empty.
   */
  lemma GeneratedAuthenticator<C>(hub: Hub, provider: AuthProvider<C>, key: Bytes, hmac: Hmac)
    requires GetGeneratedConfig(hub, provider, key, hmac).Ok?
    ensures var r := Map(GetGeneratedConfig(hub, provider, key, hmac).value);
      var p := Prefix(hub.spec.template) + ConfigPath;
      && (!Auth0Enabled(hub.spec.auth0) ==> Lookup(r, p) == Some(Map(map[])))
      && (Auth0Enabled(hub.spec.auth0) ==>
            && "connection" in hub.spec.auth0
            && var connection := hub.spec.auth0["connection"];
               var client := provider.ensureClient(hub.spec.name, hub.spec.domain, connection);
               && client.Ok? && provider.getClientCreds(client.value, connection).Ok?
               && Lookup(r, p) == Some(Map(map["GenericOAuthenticator" := provider.getClientCreds(client.value, connection).value])))
  {
    GeneratedConfigValues(hub, provider, key, hmac);
  }
}
