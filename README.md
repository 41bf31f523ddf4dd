# 2i2c hub deployer — a Dafny model

This project models the core of the 2i2c deployer. For each JupyterHub the
deployer does four things:

- It builds the generated helm values tree. Every secret in that tree is
  derived by HMAC from the deployment's secret key and a label.
- It applies the per-template fix-ups: a health service, an optional docs
  service, nesting under `basehub` for derived templates, and the dask-gateway
  tokens for `daskhub`.
- It runs `helm upgrade` with the generated file first and the human-written
  override file last.
- Unless told not to, it runs the hub health test. The test gets the health
  token read back out of the generated tree and a URL built from one of the
  hub's domains.

The model also covers the helpers around these steps:

- how a cluster builds its hubs;
- how it picks an authentication method;
- how `unset_env_var` restores or deletes an environment variable;
- how `decrypt_file` decides whether a secrets file is passed through or
  decrypted with sops.

Modules, in dependency order:

- `Wrappers`: `Option` and `Result`.
- `Errors`: the Python exceptions the code can raise, as values.
- `Values`: the configuration tree (`Val`, `Tree`). It models two ways of
  writing a tree:
  - `SetDefaultAt`, a chain of `dict.setdefault` calls;
  - `AssignAt`, a chain of subscripts followed by an assignment.
  Each write fails the way Python fails.
- `Secrets`: the HMAC labels. HMAC-SHA256 itself is a function parameter
  `hmac`, so every result holds for any keyed hash.
- `Specs`: the cluster and hub specs.
- `HubConfig`: `get_generated_config` and `apply_hub_template_fixes`. The big
  dict literal is written as functions. Each nested in-place write is one `AssignAt`
  or `SetDefaultAt` step, in source order. The top-level `dask-gateway`
  assignment is a plain map update. The Auth0 provider is a pair of
  function fields.
- `HubConfigProperties`: what the generated tree contains, proved for every
  hub, key, hash and provider.
- `HubDeploy`: `deploy` as a stage machine (`Composing`, `Applying`,
  `Verifying`, `Succeeded`, `Failed`). It also covers the helm argv, helm's
  reading of that argv, the health-token read-back and the URL choice.
  - The exit codes of helm and pytest are inputs, and so is the index
    `random.choice` picks.
  - The method returns the trace of stages and the commands issued.
- `Clusters`: `Cluster.__init__` and the `auth` dispatch.
- `Environ`: the process environment as a `class` with a `map` field, and
  `unset_env_var` as a method on it.
- `Decrypt`: `decrypt_file`'s decision.
  - `os.path.splitext` is modelled for POSIX paths.
  - The loader's outcome and the exit status of sops are inputs.

## Model

| member | source | states |
|---|---|---|
| Secrets.ProxyLabel | deployer/hub.py:110 | the proxy secret's HMAC input is the bare hub name; see `ProxyAndHealthLabelsCollide` and `GeneratedConfigValues` |
| Secrets.HealthLabel | deployer/hub.py:251 | the health token's HMAC input is `health-` followed by the name; see `HealthLabelInjective` and `HealthTokenRead` |
| Secrets.GatewayLabel | deployer/hub.py:274 | the gateway token's HMAC input is `gateway-` followed by the name; see `GatewayLabelInjective` and `DaskhubGatewayTokensAgree` |
| HubConfig.Hosts | deployer/hub.py:116-120 | the normalised host list; `HostsListTheDomain` proves it reads back as the domain list |
| HubConfig.ImageEntry | deployer/hub.py:127 | `{name: image_repo}` or `{}`; `GeneratedConfigValues` proves it is what the generated values hold |
| HubConfig.Ingress | deployer/hub.py:115-124 | the ingress section; `FixedIngress` proves both host lists hold the normalised domain |
| HubConfig.HubSection | deployer/hub.py:129-205 | the `hub` section of the literal; `HubSectionShape` states its empty config, its sidecar and its missing services |
| HubConfig.JupyterhubSection | deployer/hub.py:113-206 | the `jupyterhub` section; `JupyterhubSectionShape` states what each later step reads from it |
| HubConfig.BaseConfig | deployer/hub.py:112-207 | the whole dict literal; `BaseConfigShape` states the parts later steps read |
| HubConfig.Auth0Enabled | deployer/hub.py:210 | `auth0.enabled` with default true; `Authenticator` and `GeneratedAuthenticator` are stated in its terms |
| HubConfig.ComposeConfig | deployer/hub.py:110-220 | composition before the fixes; `ComposeConfigFails` and `ComposeConfigShape` state its errors and its result |
| HubConfig.AddHubServices | deployer/hub.py:250-262 | the health and docs services; `AddHubServicesFails`, `AddHubServicesEntry` and `AddHubServicesKeepsOthers` state its errors, what it writes and what it keeps |
| HubConfig.Namespaced | deployer/hub.py:267-270 | the wrap under `basehub`; `AdaptToTemplateExtras` and `OtherTemplatesWrapBasehub` state it |
| HubConfig.DaskExtras | deployer/hub.py:273-282 | the daskhub extras; `DaskhubAdapt` and `DaskhubTokens` state what they add |
| HubConfig.AdaptToTemplate | deployer/hub.py:265-282 | the template step; `AdaptToTemplateFails`, `AdaptToTemplateNests` and `AdaptToTemplateExtras` state its errors and its result |
| HubConfig.ApplyHubTemplateFixes | deployer/hub.py:237-284 | `apply_hub_template_fixes`; `FixesKeepOthers`, `FixedServices` and `BasehubFixedKeys` state what it changes and what it keeps |
| HubConfig.GetGeneratedConfig | deployer/hub.py:100-222 | `get_generated_config`; `GeneratedConfigFails`, `GeneratedConfigValues`, `GeneratedServices`, `GeneratedTopLevel`, `GeneratedAuthenticator` and `SecretsOnlyFromLabels` state its errors and its contents |
| HubDeploy.JoinPath | deployer/hub.py:302 | `os.path.join` of the chart directory; `HelmArgvReading` states the chart argument |
| HubDeploy.HelmArgv | deployer/hub.py:299-308 | the helm command; `HelmArgvReading` states how helm reads it, and `Deploy` that it is the command run |
| HubDeploy.HealthTokenPath | deployer/hub.py:317-320 | the template-dependent read-back path; `ReadHealthToken` and `HealthTokenRead` state what is found there |
| HubDeploy.PytestArgs | deployer/hub.py:329-334 | the health test's arguments; `Deploy` states they carry the URL, the health token and the template |
| Decrypt.Tolerated | deployer/utils.py:28-34 | the one loader error taken to mean "not a sops file"; `Classify`, `JsonToleratesOnlyDecodeErrors` and `YamlToleratesOnlyScannerErrors` state its use |
| Decrypt.SopsArgv | deployer/utils.py:44-48 | the sops command; `DecryptFile` and `YieldedPath` state when it runs and what it writes |
| Values.Subscripts | deployer/hub.py:318 | a chain of dict subscripts succeeds exactly when the path exists through dicts, and then yields the value at that path |
| Values.SetDefaultAt | deployer/hub.py:253 | a `setdefault` chain succeeds exactly when every dict that already exists on the path is a dict; afterwards the key holds the new value, and for a non-empty path the top level gains at most the path's first key |
| Values.AssignAt | deployer/hub.py:220 | a subscript-then-assign chain succeeds exactly when the whole path already exists and ends at a dict; afterwards the key holds the value, and for a non-empty path the top-level keys are unchanged |
| Values.SetDefaultAtKeepsOthers | deployer/hub.py:253 | a `setdefault` chain leaves every path that leaves the written path unchanged |
| Values.AssignAtKeepsOthers | deployer/hub.py:260 | a subscript assignment leaves every path that leaves the written path unchanged |
| Values.AssignAtWrites | deployer/hub.py:220 | assigning into an existing dict replaces that dict by itself with one entry set, and nothing else |
| Secrets.HealthLabelInjective | deployer/hub.py:251 | two hubs get the same health-token label exactly when they have the same name |
| Secrets.GatewayLabelInjective | deployer/hub.py:274 | two hubs get the same gateway-token label exactly when they have the same name |
| Secrets.HealthAndGatewayLabelsDiffer | deployer/hub.py:251-274 | no health label equals any gateway label |
| Secrets.ProxyAndHealthLabelsCollide | deployer/hub.py:110 | a hub's proxy-secret label equals another hub's health label exactly when its name is `health-` followed by the other's name |
| HubConfig.HostsListTheDomain | deployer/hub.py:116-120 | the ingress host list reads back as the domain list unchanged, or as the one-element list of a single domain |
| HubConfig.Authenticator | deployer/hub.py:210-220 | the Auth0 registration is skipped exactly when `auth0.enabled` is present and falsy. Otherwise it needs `connection`, passes the raw domain to `ensure_client`, and yields `get_client_creds(client, connection)`. It fails exactly when `connection` is missing, with `KeyError("connection")`, or when a provider call fails, with that call's error passed on |
| HubConfig.DocsServiceEnabled | deployer/hub.py:259 | without `docs_service` the docs flag is false; with it, the flag is the truthiness of `docs_service.enabled`, and the test fails exactly when that entry is not a dict with `enabled` |
| HubConfigProperties.ComposeConfigFails | deployer/hub.py:210-220 | composing the base values fails exactly when the Auth0 registration fails, and with its error |
| HubConfigProperties.BaseConfigShape | deployer/hub.py:112-207 | the dict literal has the single top key `jupyterhub`, the proxy secret, the ingress section, the image entry, the sync sidecar, an empty `hub.config` and no services dict |
| HubConfigProperties.AuthenticatorWritten | deployer/hub.py:220 | writing the credentials into `hub.config` leaves every path not below `hub.config.GenericOAuthenticator` unchanged (so `initContainers`, `extraVolumes` and `extraVolumeMounts` too), keeps the proxy secret, ingress, image entry and sidecar, and leaves `hub.config` holding exactly `GenericOAuthenticator` |
| HubConfigProperties.ComposeConfigShape | deployer/hub.py:110-220 | a composed tree has the proxy secret `hmac(key, name)`, the ingress, the image entry, the sidecar and a `hub.config` that is `{}` or holds exactly the credentials |
| HubConfigProperties.AddHubServicesFails | deployer/hub.py:253-262 | adding the services fails exactly when the `setdefault` chain meets a non-dict or the docs test fails, and in the second case with that test's error |
| HubConfigProperties.AddHubServicesKeepsOthers | deployer/hub.py:253-262 | adding the services changes nothing outside `jupyterhub.hub.services` |
| HubConfigProperties.AddHubServicesEntry | deployer/hub.py:251-262 | after the services step, `hub-health` holds the health token with `admin` true; `docs` holds the docs URL when the flag is set; every other service entry is left as it was |
| HubConfigProperties.AdaptToTemplateFails | deployer/hub.py:267-282 | the template step fails only for `daskhub`, and exactly when there is no services dict to write the gateway service into |
| HubConfigProperties.AdaptToTemplateNests | deployer/hub.py:267-282 | after the template step, every path of the earlier tree is found under `basehub` (or in place for `basehub`), apart from the daskhub gateway service entry |
| HubConfigProperties.AdaptToTemplateExtras | deployer/hub.py:267-282 | `basehub` is left as it is; other templates become exactly `{basehub: tree}`; `daskhub` has exactly the keys `basehub` and `dask-gateway`, with the gateway token in both places |
| HubConfigProperties.FixesKeepOthers | deployer/hub.py:237-284 | outside the services dict, the template fixes only move the tree under the template's prefix |
| HubConfigProperties.ServicesByEntry | deployer/hub.py:251-282 | a services dict is the expected one exactly when each of its entries is the expected one |
| HubConfigProperties.ServicesStepEntry | deployer/hub.py:253-262 | on a tree with no services dict, the services step creates exactly the health entry and, when the flag is set, the docs entry |
| HubConfigProperties.FixesServiceEntry | deployer/hub.py:251-282 | on a tree with no services dict, after the fixes each services entry is the health, docs or daskhub gateway entry or absent |
| HubConfigProperties.GeneratedConfigFails | deployer/hub.py:100-222 | generation fails exactly when the Auth0 registration or the docs test fails, with the error of the first one that fails |
| HubConfigProperties.FixedValues | deployer/hub.py:237-284 | the proxy secret, the image entry, `hub.config` and the sidecars survive the fixes, under the template's prefix |
| HubConfigProperties.FixedIngress | deployer/hub.py:116-121 | `ingress.hosts` and `ingress.tls[0].hosts` both hold the normalised domain list after the fixes |
| HubConfigProperties.GeneratedConfigValues | deployer/hub.py:110-220 | in the generated values, under the template's prefix: the proxy secret is `hmac(key, name)`, both host lists are the normalised domain, the image is `{name: image_repo}` or `{}`, `hub.config` is the Auth0 config, and the sidecar is there |
| HubConfigProperties.FixedServices | deployer/hub.py:251-282 | on a tree with no services dict, the fixes leave exactly the expected services dict |
| HubConfigProperties.GeneratedServices | deployer/hub.py:251-282 | the generated services dict is exactly `hub-health` (health token, admin), plus `docs` if and only if the docs flag is set, plus `dask-gateway` if and only if the template is `daskhub` |
| HubConfigProperties.ComposeIgnoresTemplate | deployer/hub.py:100-222 | the values built before the template fixes do not depend on the template |
| HubConfigProperties.ServicesIgnoreTemplate | deployer/hub.py:250-262 | the services step does not depend on the template |
| HubConfigProperties.DaskhubAdapt | deployer/hub.py:267-282 | for `daskhub`, the template step wraps the tree with the gateway service added inside, and adds the top-level `dask-gateway` section |
| HubConfigProperties.OtherTemplatesWrapBasehub | deployer/hub.py:267-270 | for any template but `basehub` and `daskhub`, the result is exactly `{basehub: T}`, where T is what `basehub` would generate, and the errors are the same |
| HubConfigProperties.DaskhubExtendsBasehub | deployer/hub.py:267-282 | `daskhub` generates the `basehub` tree wrapped with the gateway service added, plus the top-level gateway section; the wrap comes before the top-level key |
| HubConfigProperties.BasehubFixedKeys | deployer/hub.py:253 | for `basehub`, the fixes add at most the top-level key `jupyterhub` |
| HubConfigProperties.DaskhubTokens | deployer/hub.py:273-282 | for `daskhub`, the top-level `dask-gateway.gateway.auth.jupyterhub.apiToken` and the `dask-gateway` service token are both the gateway token |
| HubConfigProperties.GeneratedTopLevel | deployer/hub.py:267-282 | the generated top-level keys are `{jupyterhub}` for `basehub`, `{basehub, dask-gateway}` for `daskhub` and `{basehub}` otherwise |
| HubConfigProperties.DaskhubGatewayTokensAgree | deployer/hub.py:273-282 | in generated daskhub values both gateway tokens are `hmac(key, "gateway-"+name)` |
| HubConfigProperties.NoGatewayElsewhere | deployer/hub.py:273 | no template but `daskhub` gets the top-level `dask-gateway` section or the gateway service |
| HubConfigProperties.SecretsOnlyFromLabels | deployer/hub.py:110-274 | the generated values depend on the hash only through the three labels of the hub's own name |
| HubConfigProperties.GeneratedAuthenticator | deployer/hub.py:210-220 | with Auth0 disabled `hub.config` is `{}`. Otherwise it is exactly `{GenericOAuthenticator: get_client_creds(ensure_client(name, domain, connection), connection)}` |
| HubDeploy.ComposeFailedRun | deployer/hub.py:291 | a failure while generating the values is a complete run that ends during composition |
| HubDeploy.ComposedRun | deployer/hub.py:291-336 | any stage sequence that a successful composition can be followed by makes a complete run |
| HubDeploy.RankAtLeastIndex | deployer/hub.py:286-336 | along a run every step strictly raises the stage's rank (so stage i has rank at least i), and only the last stage is terminal |
| HubDeploy.RunsAreListed | deployer/hub.py:286-336 | a run is one of exactly five traces: compose failure, helm failure, success without the health test, success with it, or a health-test failure |
| HubDeploy.HelmArgvReading | deployer/hub.py:299-308 | helm reads the argv as `upgrade <name> hub-templates/<template>` with `--install`, `--create-namespace` and `--wait`, namespace `<name>`, and value files generated first, override last |
| HubDeploy.ReadHealthToken | deployer/hub.py:317-320 | the health token is read from `basehub.jupyterhub...` for derived templates and `jupyterhub...` for `basehub`, and succeeds exactly when a string is there |
| HubDeploy.TokenBelowServices | deployer/hub.py:317-320 | a health service under the template's prefix is found by the read-back path |
| HubDeploy.ExpectedHealth | deployer/hub.py:253-257 | the expected services dict always holds the health service with the health token |
| HubDeploy.HealthTokenRead | deployer/hub.py:317-320 | the token read back from any successfully generated values is `hmac(key, "health-"+name)`, whatever the template |
| HubDeploy.HubUrl | deployer/hub.py:322-327 | the URL is `https://` followed by one of the hub's domains; an empty domain list fails with `IndexError` |
| HubDeploy.EveryHostChoosable | deployer/hub.py:327 | every domain of the hub is a possible choice |
| HubDeploy.ApplyAndVerify | deployer/hub.py:293-336 | the override file and the generated file are written, then helm is called. A helm failure ends the run; so does skipping the test. Otherwise the token and URL are read and pytest is called, and a nonzero exit fails the run with `RuntimeError` |
| HubDeploy.Deploy | deployer/hub.py:286-336 | `deploy` produces a complete run. A generation failure issues no command. Otherwise the first three commands are the two value files and helm. A helm failure stops before the health test. A skipped test succeeds. Otherwise pytest gets the health token `hmac(key, "health-"+name)` and a URL of the hub's domain, and its exit code decides the end |
| Clusters.HubsOf | deployer/hub.py:30-33 | one hub per spec entry, in list order, each tied to this cluster |
| Clusters.NewCluster | deployer/hub.py:29-33 | a new cluster keeps its spec, and its i-th hub is the i-th hub spec on this cluster |
| Clusters.HubSpecsReadBack | deployer/hub.py:30-33 | the hub specs read back from the cluster's hubs are exactly the spec's list |
| Clusters.Auth | deployer/hub.py:40-45 | `gcp` and `kubeconfig` select their method; any other provider fails with `ValueError("Provider <p> not supported")` |
| Clusters.AuthIgnoresHubs | deployer/hub.py:40-45 | the chosen method depends only on the provider |
| Environ.Unset | deployer/hub.py:225-234 | afterwards the variable is the saved value, or unset when there is none; every other variable is unchanged |
| Environ.UnsetUndoesOverride | deployer/hub.py:225-234 | saving a variable, overriding it, then unsetting with the saved value restores the environment exactly |
| Environ.UnsetIdempotent | deployer/hub.py:225-234 | unsetting twice with the same saved value is the same as once |
| Environ.Environment.UnsetEnvVar | deployer/hub.py:231-234 | the method deletes then sets in place, and leaves the environment equal to `Unset` of the old one |
| Decrypt.LastIndexOf | deployer/utils.py:23 | the index found holds the character, and no later index does |
| Decrypt.Ext | deployer/utils.py:23 | a non-empty extension is a dot-started suffix of the path, and after its dot it has no dot or slash |
| Decrypt.ExtOfNamedFile | deployer/utils.py:23 | a file name whose stem ends in an ordinary character has the extension after its last dot |
| Decrypt.HiddenFileHasNoExt | deployer/utils.py:23 | a hidden file such as `dir/.yaml` has no extension |
| Decrypt.FormatOf | deployer/utils.py:25-31 | `.yaml` and `.yml` select YAML, `.json` selects JSON, and nothing else selects a loader |
| Decrypt.SopsIn | deployer/utils.py:38 | `'sops' in data` is key membership for a dict, item membership for a list and substring search for a string; on any other value it fails with `TypeError` |
| Decrypt.Classify | deployer/utils.py:22-40 | an unknown extension fails with `UnboundLocalError`. The loader's tolerated error, or a dict, list or string without `sops`, passes the file through. Data with `sops` is decrypted. Loaded data that is not a dict, list or string (an empty YAML file loads as null) fails with `TypeError`. Any other loader error propagates |
| Decrypt.DecryptFile | deployer/utils.py:12-49 | a passed-through file yields its own path and runs no command. A sops file runs `sops --output <tmp> --decrypt <path>` and yields the temporary path, or fails with `CalledProcessError`. Classification errors pass through |
| Decrypt.YmlAndYamlAgree | deployer/utils.py:24-27 | `.yml` files are classified and opened exactly as `.yaml` files |
| Decrypt.JsonToleratesOnlyDecodeErrors | deployer/utils.py:31-36 | a `.json` file passes through on a JSON decode error, and every other loader error propagates |
| Decrypt.YamlToleratesOnlyScannerErrors | deployer/utils.py:25-30 | a `.yaml` file passes through on a YAML scanner error, and every other loader error propagates |
| Decrypt.HiddenYamlFails | deployer/utils.py:23-38 | a file named `.yaml` is not read at all, and the decision fails with `UnboundLocalError` |
| Decrypt.YieldedPath | deployer/utils.py:38-49 | with no sops call the original path is yielded; with one, the yielded path is the temporary file the call writes to |

## Left out

- File I/O is not modelled:
  - the temporary files and `json.dump` in `deploy` appear only as `WriteJson` commands naming their paths;
  - opening the secrets file in `decrypt_file`, and the loaders themselves, appear only through the loader's outcome, which is an input.
- `print` of the helm command is not modelled.
- External processes are modelled only by their exit status, which is an input, and the argv they receive:
  - helm, sops and `pytest.main`;
  - the `gcloud` call in `auth_gcp`, which appears only as the choice of `GcpAuth`.
- The health tests themselves are not modelled.
- `backoff`, `build_image` and `last_modified_commit` are not modelled.
- `auth_kubeconfig`'s write of `KUBECONFIG` into the process environment is not modelled. The source never restores it.
- HMAC-SHA256 is a function parameter. Only equalities between its applications are used.
- `random.choice` is not modelled. Its pick is the input `choice`, taken modulo the list length.
- Dict key order is not modelled, because maps are unordered. The one order the source depends on (generated values before the override) is a list order of argv.
- Attribute errors and type errors on wrong-kind tree nodes are both `TypeError`.
- YAML floats and other scalar kinds have no `Val` case and are not modelled.
- Spec entries with a missing required key are not modelled: `name`, `domain`, `template`, `auth0`, `config`, `provider` and `hubs` are fields.
- Spec fields of the wrong type are not modelled:
  - `config: null`, for which hub.py:259 raises `AttributeError`;
  - an `auth0` that is not a dict (hub.py:210);
  - a `name` that is not a string (`.encode()` at hub.py:110);
  - a `domain` that is neither a string nor a list;
  - a list `domain` whose items are not strings (hub.py:116, 327).
- The text of the template-sync shell script is a constant function of the hub name. Nothing is proved about it.
- HelmArgvReading: rests on a model of helm's option reading: known option names, `-f` and `--namespace` taking a value, the last namespace winning. It needs a hub name that does not start with `-`, since helm would read such a name as a flag.
- ReadHealthToken: fails with `TypeError` when the token is not a string. Python would instead hand the value on to pytest. This case never arises for generated values.
- HubUrl: does not model a `domain` that is neither a string nor a list. An empty list fails as `random.choice` does.
- Ext: models `os.path.splitext` for POSIX paths only (`/` as the only separator).
