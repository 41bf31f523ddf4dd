/**
 * `Hub.deploy`: write the two values files, run `helm upgrade`, then, unless
 * told to skip it, run the hub health test against one of the hub's domains
 * with the health service's token read back out of the generated values.
 * helm and pytest are foreign processes: their exit codes are inputs, and
 * what they do is not modelled.
 */
module HubDeploy {
  import opened Wrappers
  import opened Errors
  import opened Values
  import opened Secrets
  import opened Specs
  import opened HubConfig
  import opened HubConfigProperties

  // ---------------------------------------------------------------------
  // The stages of one deploy

  datatype Phase = ComposePhase | ApplyPhase | VerifyPhase

  datatype Stage =
    | Composing
    | Applying
    | Verifying
    | Succeeded
    | Failed(during: Phase, error: Error)

  predicate Terminal(s: Stage) {
    s.Succeeded? || s.Failed?
  }

  /** The moves a deploy can make: every stage can fail, and the health test is optional. */
  predicate Step(s: Stage, s': Stage) {
    match s
    case Composing => s' == Applying || (s'.Failed? && s'.during == ComposePhase)
    case Applying => s' == Verifying || s' == Succeeded || (s'.Failed? && s'.during == ApplyPhase)
    case Verifying => s' == Succeeded || (s'.Failed? && s'.during == VerifyPhase)
    case _ => false
  }

  /** A complete run: starts composing, moves by `Step`, ends in a terminal stage. */
  predicate IsRun(t: seq<Stage>) {
    && |t| >= 1
    && t[0] == Composing
    && (forall i :: 0 <= i < |t| - 1 ==> Step(t[i], t[i + 1]))
    && Terminal(t[|t| - 1])
  }

  /** The five kinds of run, written out. */
  predicate ListedRun(t: seq<Stage>) {
    || (|t| == 2 && t[0] == Composing && t[1].Failed? && t[1].during == ComposePhase)
    || (|t| == 3 && t[..2] == [Composing, Applying] && t[2].Failed? && t[2].during == ApplyPhase)
    || t == [Composing, Applying, Succeeded]
    || t == [Composing, Applying, Verifying, Succeeded]
    || (|t| == 4 && t[..3] == [Composing, Applying, Verifying] && t[3].Failed? && t[3].during == VerifyPhase)
  }

  /** The stages after `Composing` of a run whose composition succeeded. */
  predicate AfterComposing(stages: seq<Stage>) {
    || (|stages| == 2 && stages[0] == Applying && (stages[1] == Succeeded || (stages[1].Failed? && stages[1].during == ApplyPhase)))
    || (|stages| == 3 && stages[0] == Applying && stages[1] == Verifying
        && (stages[2] == Succeeded || (stages[2].Failed? && stages[2].during == VerifyPhase)))
  }

  lemma ComposeFailedRun(e: Error)
    ensures IsRun([Composing, Failed(ComposePhase, e)])
  {
    assert Step(Composing, Failed(ComposePhase, e));
  }

  lemma ComposedRun(stages: seq<Stage>)
    requires AfterComposing(stages)
    ensures IsRun([Composing] + stages)
  {
    var t := [Composing] + stages;
    assert t[0] == Composing && t[1..] == stages;
    forall i | 0 <= i < |t| - 1 ensures Step(t[i], t[i + 1]) {
      assert t[i + 1] == stages[i];
      if i > 0 {
        assert t[i] == stages[i - 1];
      }
    }
  }

  function Rank(s: Stage): nat {
    match s
    case Composing => 0
    case Applying => 1
    case Verifying => 2
    case _ => 3
  }

  lemma {:induction false} RankAtLeastIndex(t: seq<Stage>, i: nat)
    requires IsRun(t) && i < |t|
    ensures Rank(t[i]) >= i
    ensures 0 < i ==> Rank(t[i - 1]) < Rank(t[i])
    ensures i < |t| - 1 ==> !Terminal(t[i])
  {
    if i > 0 {
      RankAtLeastIndex(t, i - 1);
      assert Step(t[i - 1], t[i]);
    }
    if i < |t| - 1 {
      assert Step(t[i], t[i + 1]);
    }
  }

  /**
   * The runs are exactly the five listed ones: at most four stages, the
   * verify stage only after a successful apply, and a failed apply never
   * followed by a health test.
   */
  lemma RunsAreListed(t: seq<Stage>)
    ensures IsRun(t) <==> ListedRun(t)
  {
    if IsRun(t) {
      RankAtLeastIndex(t, |t| - 1);
      assert Step(t[0], t[1]);
      if |t| >= 3 {
        RankAtLeastIndex(t, 1);
        assert Step(t[1], t[2]);
      }
      if |t| == 4 {
        RankAtLeastIndex(t, 2);
        assert Step(t[2], t[3]);
      }
    }
  }

  // ---------------------------------------------------------------------
  // What the deploy does outside the model

  datatype Command =
    | WriteJson(path: string, content: Val)  // json.dump into a temporary file
    | Subprocess(argv: seq<string>)          // subprocess.check_call
    | PytestMain(args: seq<string>)          // pytest.main

  // ---------------------------------------------------------------------
  // The helm argv

  /** `os.path.join(dir, p)` for one relative directory: an absolute `p` replaces it. */
  function JoinPath(dir: string, p: string): string {
    if |p| > 0 && p[0] == '/' then p else dir + "/" + p
  }

  function HelmArgv(name: string, template: string, generatedFile: string, overrideFile: string): seq<string> {
    ["helm", "upgrade", "--install", "--create-namespace", "--wait",
     "--namespace", name,
     name, JoinPath("hub-templates", template),
     "-f", generatedFile,
     "-f", overrideFile]
  }

  /** How helm reads its arguments: flags, `--namespace` (last one wins), value files in order, positionals. */
  datatype HelmCall = HelmCall(positionals: seq<string>, flags: set<string>, namespace: Option<string>, valueFiles: seq<string>)

  datatype ArgKind = NamespaceOption | ValuesOption | Switch | Positional

  function KindOf(a: string): ArgKind {
    if a == "--namespace" then NamespaceOption
    else if a == "-f" then ValuesOption
    else if |a| > 0 && a[0] == '-' then Switch
    else Positional
  }

  /** helm's reading of `args[k..]`. An option with no value after it reads as a switch. */
  function ParseFrom(args: seq<string>, k: nat): HelmCall
    decreases |args| - k
  {
    if k >= |args| then HelmCall([], {}, None, [])
    else
      var kind := KindOf(args[k]);
      if (kind == NamespaceOption || kind == ValuesOption) && k + 1 < |args| then
        var rest := ParseFrom(args, k + 2);
        if kind == ValuesOption then rest.(valueFiles := [args[k + 1]] + rest.valueFiles)
        else if rest.namespace.Some? then rest
        else rest.(namespace := Some(args[k + 1]))
      else
        var rest := ParseFrom(args, k + 1);
        if kind == Positional then rest.(positionals := [args[k]] + rest.positionals)
        else rest.(flags := {args[k]} + rest.flags)
  }

  /**
   * helm reads the argv as: `upgrade <name> <chart>`, the three switches, the
   * hub's name as namespace, and the generated values before the hub's own
   * config, so the hub's own config takes precedence. A hub name that looked
   * like an option would change this reading.
   */
  lemma HelmArgvReading(name: string, template: string, generatedFile: string, overrideFile: string)
    requires !(|name| > 0 && name[0] == '-')
    ensures var argv := HelmArgv(name, template, generatedFile, overrideFile);
      && argv[0] == "helm"
      && ParseFrom(argv, 1) == HelmCall(
           ["upgrade", name, JoinPath("hub-templates", template)],
           {"--install", "--create-namespace", "--wait"},
           Some(name),
           [generatedFile, overrideFile])
  {
    var argv := HelmArgv(name, template, generatedFile, overrideFile);
    var chart := JoinPath("hub-templates", template);
    var files := [generatedFile, overrideFile];
    assert KindOf("-f") == ValuesOption && KindOf("--namespace") == NamespaceOption;
    assert KindOf(name) == Positional && KindOf(chart) == Positional;
    assert ParseFrom(argv, 11) == HelmCall([], {}, None, [overrideFile]);
    assert ParseFrom(argv, 9) == HelmCall([], {}, None, files);
    assert ParseFrom(argv, 8) == HelmCall([chart], {}, None, files);
    assert ParseFrom(argv, 7) == HelmCall([name, chart], {}, None, files);
    assert ParseFrom(argv, 5) == HelmCall([name, chart], {}, Some(name), files);
    assert KindOf("--wait") == Switch && KindOf("--create-namespace") == Switch && KindOf("--install") == Switch;
    assert KindOf("upgrade") == Positional;
    assert ParseFrom(argv, 4) == HelmCall([name, chart], {"--wait"}, Some(name), files);
    assert ParseFrom(argv, 3) == HelmCall([name, chart], {"--create-namespace", "--wait"}, Some(name), files);
    assert ParseFrom(argv, 2) == HelmCall([name, chart], {"--install", "--create-namespace", "--wait"}, Some(name), files);
  }

  // ---------------------------------------------------------------------
  // The health test's inputs

  /** Where deploy reads the health token, by template. */
  function HealthTokenPath(template: string): seq<string> {
    (if template != "basehub" then ["basehub"] else []) + ServicesPath + ["hub-health", "apiToken"]
  }

  /** The health token as deploy reads it: the subscript chain, which must end at a string. */
  function ReadHealthToken(values: Tree, template: string): (r: Result<string, Error>)
    ensures r.Ok? <==> Lookup(Map(values), HealthTokenPath(template)).Some? && Lookup(Map(values), HealthTokenPath(template)).value.Str?
    ensures r.Ok? ==> Lookup(Map(values), HealthTokenPath(template)) == Some(Str(r.value))
  {
    var v :- Subscripts(Map(values), HealthTokenPath(template));
    if v.Str? then Ok(v.text) else Err(TypeError("apiToken"))
  }

  /** Below a services dict holding the health service, the subscript chain of deploy finds its token. */
  lemma TokenBelowServices(r: Val, template: string, services: Tree, token: string)
    requires Lookup(r, Prefix(template) + ServicesPath) == Some(Map(services))
    requires "hub-health" in services && services["hub-health"] == HealthService(token)
    ensures Subscripts(r, HealthTokenPath(template)) == Ok(Str(token))
    ensures r.Map? ==> ReadHealthToken(r.fields, template) == Ok(token)
  {
    var p := Prefix(template) + ServicesPath;
    LookupChild(r, p, "hub-health");
    LookupAppend(r, p + ["hub-health"], ["apiToken"]);
    LookupBelow(HealthService(token).fields, "apiToken", []);
    assert HealthTokenPath(template) == p + ["hub-health"] + ["apiToken"];
  }

  lemma ExpectedHealth(spec: HubSpec, key: Bytes, hmac: Hmac, docs: bool)
    ensures var services := ExpectedServices(spec, key, hmac, docs);
      "hub-health" in services && services["hub-health"] == HealthService(hmac(key, HealthLabel(spec.name)))
  {
  }

  /** The token read back is the one the generator derived from "health-" + name. */
  lemma HealthTokenRead<C>(hub: Hub, provider: AuthProvider<C>, key: Bytes, hmac: Hmac)
    requires GetGeneratedConfig(hub, provider, key, hmac).Ok?
    ensures ReadHealthToken(GetGeneratedConfig(hub, provider, key, hmac).value, hub.spec.template)
         == Ok(hmac(key, HealthLabel(hub.spec.name)))
  {
    GeneratedServices(hub, provider, key, hmac);
    var docs := DocsServiceEnabled(hub.spec.config).value;
    ExpectedHealth(hub.spec, key, hmac, docs);
    TokenBelowServices(Map(GetGeneratedConfig(hub, provider, key, hmac).value), hub.spec.template,
                       ExpectedServices(hub.spec, key, hmac, docs), hmac(key, HealthLabel(hub.spec.name)));
  }

  /**
   * The URL tested: the domain itself, or the host at `choice` (which stands
   * for `random.choice`) in a domain list; `random.choice` of an empty list
   * raises `IndexError`.
   */
  function HubUrl(domain: Domain, choice: nat): (r: Result<string, Error>)
    ensures r.Ok? <==> DomainHosts(domain) != []
    ensures r.Ok? ==> |r.value| >= 8 && r.value[..8] == "https://" && r.value[8..] in DomainHosts(domain)
    ensures r.Err? ==> r.error.IndexError?
  {
    match domain
    case Single(d) => Ok("https://" + d)
    case Many(ds) =>
      if ds == [] then Err(IndexError("Cannot choose from an empty sequence"))
      else Ok("https://" + ds[choice % |ds|])
  }

  /** Every host of the domain is tested for some choice. */
  lemma EveryHostChoosable(domain: Domain, h: string)
    requires h in DomainHosts(domain)
    ensures exists choice: nat :: HubUrl(domain, choice) == Ok("https://" + h)
  {
    var i :| 0 <= i < |DomainHosts(domain)| && DomainHosts(domain)[i] == h;
    assert i % |DomainHosts(domain)| == i;
    assert HubUrl(domain, i) == Ok("https://" + h);
  }

  function PytestArgs(url: string, token: string, template: string): seq<string> {
    ["-v", "deployer/tests", "--hub-url", url, "--api-token", token, "--hub-type", template]
  }

  // ---------------------------------------------------------------------
  // deploy

  /**
   * Everything deploy does once the values are generated: write both
   * values files, run helm, and unless skipped run the health test.
   * Returns the stages after `Composing` and the commands issued.
   */
  method ApplyAndVerify(spec: HubSpec, values: Tree, skipHubHealthTest: bool, generatedFile: string, overrideFile: string,
                        helmExit: int, choice: nat, pytestExit: int)
    returns (stages: seq<Stage>, commands: seq<Command>)
    ensures AfterComposing(stages)
    ensures var argv := HelmArgv(spec.name, spec.template, generatedFile, overrideFile);
      && |commands| >= 3
      && commands[0] == WriteJson(overrideFile, Map(spec.config))
      && commands[1] == WriteJson(generatedFile, Map(values))
      && commands[2] == Subprocess(argv)
      && (helmExit != 0 ==> stages == [Applying, Failed(ApplyPhase, CalledProcessError(argv, helmExit))] && |commands| == 3)
      && (helmExit == 0 && skipHubHealthTest ==> stages == [Applying, Succeeded] && |commands| == 3)
    ensures helmExit == 0 && !skipHubHealthTest ==>
      var token := ReadHealthToken(values, spec.template);
      var url := HubUrl(spec.domain, choice);
      && |stages| == 3 && stages[0] == Applying && stages[1] == Verifying
      && (token.Err? ==> stages[2] == Failed(VerifyPhase, token.error) && |commands| == 3)
      && (token.Ok? && url.Err? ==> stages[2] == Failed(VerifyPhase, url.error) && |commands| == 3)
      && (token.Ok? && url.Ok? ==>
            && |commands| == 4 && commands[3] == PytestMain(PytestArgs(url.value, token.value, spec.template))
            && stages[2] == if pytestExit == 0 then Succeeded else Failed(VerifyPhase, RuntimeError))
  {
    commands := [WriteJson(overrideFile, Map(spec.config)), WriteJson(generatedFile, Map(values))];
    stages := [Applying];
    var cmd := HelmArgv(spec.name, spec.template, generatedFile, overrideFile);
    commands := commands + [Subprocess(cmd)];
    if helmExit != 0 {
      stages := stages + [Failed(ApplyPhase, CalledProcessError(cmd, helmExit))];
      return;
    }
    if skipHubHealthTest {
      stages := stages + [Succeeded];
      return;
    }
    stages := stages + [Verifying];
    var token := ReadHealthToken(values, spec.template);
    if token.Err? {
      stages := stages + [Failed(VerifyPhase, token.error)];
      return;
    }
    var url := HubUrl(spec.domain, choice);
    if url.Err? {
      stages := stages + [Failed(VerifyPhase, url.error)];
      return;
    }
    commands := commands + [PytestMain(PytestArgs(url.value, token.value, spec.template))];
    if pytestExit != 0 {
      stages := stages + [Failed(VerifyPhase, RuntimeError)];
    } else {
      stages := stages + [Succeeded];
    }
  }

  /**
   * One deploy of `hub` (`Hub.deploy`). `helmExit` and `pytestExit` are the
   * exit codes the two foreign processes would return, `choice` the pick of
   * `random.choice`. Returns the stages passed through and the commands
   * issued, in order. The token the health test gets is always the one
   * derived from "health-" + name: reading it back cannot fail.
   */
  method Deploy<C>(hub: Hub, provider: AuthProvider<C>, key: Bytes, hmac: Hmac, skipHubHealthTest: bool,
                   generatedFile: string, overrideFile: string, helmExit: int, choice: nat, pytestExit: int)
    returns (trace: seq<Stage>, commands: seq<Command>)
    ensures IsRun(trace)
    ensures var g := GetGeneratedConfig(hub, provider, key, hmac);
      var argv := HelmArgv(hub.spec.name, hub.spec.template, generatedFile, overrideFile);
      && (g.Err? ==> trace == [Composing, Failed(ComposePhase, g.error)] && commands == [])
      && (g.Ok? ==>
            && |commands| >= 3
            && commands[0] == WriteJson(overrideFile, Map(hub.spec.config))
            && commands[1] == WriteJson(generatedFile, Map(g.value))
            && commands[2] == Subprocess(argv))
      && (g.Ok? && helmExit != 0 ==>
            trace == [Composing, Applying, Failed(ApplyPhase, CalledProcessError(argv, helmExit))] && |commands| == 3)
      && (g.Ok? && helmExit == 0 && skipHubHealthTest ==> trace == [Composing, Applying, Succeeded] && |commands| == 3)
    ensures GetGeneratedConfig(hub, provider, key, hmac).Ok? && helmExit == 0 && !skipHubHealthTest ==>
      var url := HubUrl(hub.spec.domain, choice);
      && |trace| == 4 && trace[1] == Applying && trace[2] == Verifying
      && (url.Err? ==> trace[3] == Failed(VerifyPhase, url.error) && |commands| == 3)
      && (url.Ok? ==>
            && |commands| == 4
            && commands[3] == PytestMain(PytestArgs(url.value, hmac(key, HealthLabel(hub.spec.name)), hub.spec.template))
            && trace[3] == if pytestExit == 0 then Succeeded else Failed(VerifyPhase, RuntimeError))
  {
    var generated := GetGeneratedConfig(hub, provider, key, hmac);
    if generated.Err? {
      trace := [Composing, Failed(ComposePhase, generated.error)];
      commands := [];
      ComposeFailedRun(generated.error);
      return;
    }
    HealthTokenRead(hub, provider, key, hmac);
    var stages;
    stages, commands := ApplyAndVerify(hub.spec, generated.value, skipHubHealthTest, generatedFile, overrideFile,
                                       helmExit, choice, pytestExit);
    trace := [Composing] + stages;
    ComposedRun(stages);
    assert trace[1..] == stages;
  }
}
