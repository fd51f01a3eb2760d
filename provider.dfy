/**
 * The provider's `Configure`: each connection setting is resolved from the
 * provider block, then the environment, then a built-in default; unknown
 * and missing settings are reported attribute by attribute; the API client
 * and the data handed to the resources are built only when nothing failed.
 * The process environment is a parameter, and so is the outcome of the SDK's
 * client constructor, whose code is not part of this model.
 */
module Provider {
  import opened Framework
  import opened Sdk

  /** `Sys11DBaaSProviderModel`: the provider block as the framework decoded it. */
  datatype ProviderModel = ProviderModel(
    url: Value, apiKey: Value, project: Value, organization: Value, waitForCreation: Value)

  /** The five settings once the environment and the provider block are merged. */
  datatype Settings = Settings(
    url: string, apiKey: string, organization: string, project: string, waitForCreation: bool)

  /** What `sys11dbaassdk.NewClient` is given: endpoint, key, user agent, timeout in seconds. */
  datatype Client = Client(url: string, apiKey: string, agent: string, timeout: nat)

  /** `sys11DBaaSProviderData`, handed to data sources and resources. */
  datatype ProviderData = ProviderData(
    client: Client, project: Value, organization: Value, waitForCreation: Value)

  const UrlVar: string := "SYS11DBAAS_URL"
  const ApiKeyVar: string := "SYS11DBAAS_API_KEY"
  const OrganizationVar: string := "SYS11DBAAS_ORGANIZATION"
  const ProjectVar: string := "SYS11DBAAS_PROJECT"
  const WaitVar: string := "SYS11DBAAS_WAIT_FOR_CREATION"

  const DefaultUrl: string := "https://dbaas.apis.syseleven.de"
  const ClientTimeout: nat := 60

  /** The four attributes whose value must be known and, once resolved, non-empty. */
  datatype Attribute = Url | ApiKey | Organization | Project

  /** The attribute's name in the provider block, which is also its path. */
  function Name(a: Attribute): string
  {
    match a
    case Url => "url"
    case ApiKey => "api_key"
    case Organization => "organization"
    case Project => "project"
  }

  // ---------------------------------------------------------------------
  // Environment access

  /** `os.Getenv`: the variable's value, or "" when it is unset. */
  function Getenv(env: map<string, string>, name: string): (r: string)
    ensures name !in env ==> r == ""
    ensures name in env ==> r == env[name]
  {
    if name in env then env[name] else ""
  }

  /**
   * `strconv.ParseBool`: the spellings Go accepts for true and for false;
   * any other string is a syntax error.
   */
  function ParseBool(s: string): (r: Result<bool>)
    ensures r.Ok? ==> |s| <= 5
    ensures s == "true" ==> r == Ok(true)
    ensures s == "false" ==> r == Ok(false)
  {
    if s in {"1", "t", "T", "TRUE", "true", "True"} then Ok(true)
    else if s in {"0", "f", "F", "FALSE", "false", "False"} then Ok(false)
    else Err("invalid syntax")
  }

  /** `waitForCreation, _ = strconv.ParseBool(...)`: the error is dropped and the flag is false. */
  function ParsedFlag(s: string): bool
  {
    match ParseBool(s)
    case Ok(b) => b
    case Err(_) => false
  }

  // ---------------------------------------------------------------------
  // Specification of the resolution

  /** The settings as they stand after the environment has been read. */
  function FromEnvironment(env: map<string, string>): (s: Settings)
    ensures UrlVar !in env ==> s.url == DefaultUrl
    ensures WaitVar !in env ==> s.waitForCreation
  {
    Settings(
      if UrlVar in env then env[UrlVar] else DefaultUrl,
      Getenv(env, ApiKeyVar),
      Getenv(env, OrganizationVar),
      Getenv(env, ProjectVar),
      if WaitVar in env then ParsedFlag(env[WaitVar]) else true)
  }

  /** A string setting: the provider block's value unless it is null. */
  function StringSetting(v: Value, fallback: string): string
  {
    if v.state != Null then ValueString(v) else fallback
  }

  /** A boolean setting: the provider block's value unless it is null. */
  function BoolSetting(v: Value, fallback: bool): bool
  {
    if v.state != Null then ValueBool(v) else fallback
  }

  /** Explicit configuration over the environment over the defaults. */
  function Resolve(cfg: ProviderModel, env: map<string, string>): Settings
  {
    var base := FromEnvironment(env);
    Settings(
      StringSetting(cfg.url, base.url),
      StringSetting(cfg.apiKey, base.apiKey),
      StringSetting(cfg.organization, base.organization),
      StringSetting(cfg.project, base.project),
      BoolSetting(cfg.waitForCreation, base.waitForCreation))
  }

  // ---------------------------------------------------------------------
  // Diagnostics

  /**
   * The errors `Configure` raises itself: an attribute error for an unknown
   * or a missing connection attribute, and the error of a failed client
   * construction with the client's message.
   */
  datatype ConfigError = UnknownValue(attribute: Attribute) | MissingValue(attribute: Attribute) | ClientFailed(message: string)

  /** The summary line of each error; the unknown organization is abbreviated to "org". */
  function Summary(e: ConfigError): string
  {
    match e
    case UnknownValue(Url) => "Unknown Sys11DBaaS API Url"
    case UnknownValue(ApiKey) => "Unknown Sys11DBaaS API ApiKey"
    case UnknownValue(Organization) => "Unknown Sys11DBaaS API org"
    case UnknownValue(Project) => "Unknown Sys11DBaaS API project"
    case MissingValue(Url) => "Missing Sys11DBaaS API Url"
    case MissingValue(ApiKey) => "Missing Sys11DBaaS API ApiKey"
    case MissingValue(Organization) => "Missing Sys11DBaaS organization"
    case MissingValue(Project) => "Missing Sys11DBaaS project"
    case ClientFailed(_) => "Unable to Create Sys11DBaaS API Client"
  }

  /** The detail of an unknown-value error, naming the value and the variable to use instead. */
  function UnknownDetail(what: string, variable: string): string
  {
    "The provider cannot create the Sys11DBaaS API client as there is an unknown configuration value for the " +
    "Sys11DBaaS API " + what + ". " +
    "Either target apply the source of the value first, set the value statically in the configuration, " +
    "or use the " + variable + " environment variable."
  }

  /** The detail of a missing-value error, naming the value, the attribute and the variable. */
  function MissingDetail(what: string, attribute: string, variable: string): string
  {
    "The provider cannot create the Sys11DBaaS API client as there is a missing or empty value for the " +
    "Sys11DBaaS " + what + ". " +
    "Set the " + attribute + " value in the configuration or use the " + variable + " environment variable. " +
    "If either is already set, ensure the value is not empty."
  }

  /**
   * The detail text of each error. The unknown key, organization and
   * project all speak of the API username and its variable.
   */
  function Detail(e: ConfigError): string
  {
    match e
    case UnknownValue(Url) => UnknownDetail("url", UrlVar)
    case UnknownValue(_) => UnknownDetail("username", "SYS11DBAAS_USERNAME")
    case MissingValue(Url) => MissingDetail("API url", Name(Url), UrlVar)
    case MissingValue(ApiKey) => MissingDetail("API ApiKey", Name(ApiKey), ApiKeyVar)
    case MissingValue(Organization) => MissingDetail("organization", Name(Organization), OrganizationVar)
    case MissingValue(Project) => MissingDetail("project", Name(Project), ProjectVar)
    case ClientFailed(message) =>
      "An unexpected error occurred when creating the Sys11DBaaS API client. " +
      "If the error is not clear, please contact the provider developers.\n\n" +
      "Sys11DBaaS Client Error: " + message
  }

  /** The diagnostic an error is added as: an attribute error carries its attribute's path. */
  function AsDiagnostic(e: ConfigError): (d: Diagnostic)
    ensures e.ClientFailed? ==> d.path == ""
    ensures !e.ClientFailed? ==> d.path == Name(e.attribute)
  {
    Error(Summary(e), Detail(e), if e.ClientFailed? then "" else Name(e.attribute))
  }

  /** The diagnostics of a list of errors, one each and in order. */
  function AsDiagnostics(es: seq<ConfigError>): (ds: seq<Diagnostic>)
    ensures |ds| == |es|
    ensures forall i | 0 <= i < |es| :: ds[i] == AsDiagnostic(es[i])
  {
    seq(|es|, i requires 0 <= i < |es| => AsDiagnostic(es[i]))
  }

  /** The attribute's configured value, in the order the checks run. */
  function ConfigAt(cfg: ProviderModel, a: Attribute): Value
  {
    match a
    case Url => cfg.url
    case ApiKey => cfg.apiKey
    case Organization => cfg.organization
    case Project => cfg.project
  }

  /** The attribute's resolved value. */
  function SettingAt(s: Settings, a: Attribute): string
  {
    match a
    case Url => s.url
    case ApiKey => s.apiKey
    case Organization => s.organization
    case Project => s.project
  }

  /** One error when `failed`, none otherwise. */
  function ErrorIf(failed: bool, e: ConfigError): (r: seq<ConfigError>)
    ensures e in r <==> failed
    ensures forall x | x in r :: x == e
    ensures |r| <= 1
  {
    if failed then [e] else []
  }

  /** The errors of the known-value checks: one per unknown attribute, in check order. */
  function UnknownErrors(cfg: ProviderModel): (r: seq<ConfigError>)
    ensures forall e | e in r :: e.UnknownValue?
    ensures forall a: Attribute :: UnknownValue(a) in r <==> ConfigAt(cfg, a).state == Unknown
    ensures |r| <= 4
  {
    ErrorIf(cfg.url.state == Unknown, UnknownValue(Url)) +
    ErrorIf(cfg.apiKey.state == Unknown, UnknownValue(ApiKey)) +
    ErrorIf(cfg.organization.state == Unknown, UnknownValue(Organization)) +
    ErrorIf(cfg.project.state == Unknown, UnknownValue(Project))
  }

  /** The errors of the missing-value checks: one per empty setting, in check order. */
  function MissingErrors(s: Settings): (r: seq<ConfigError>)
    ensures forall e | e in r :: e.MissingValue?
    ensures forall a: Attribute :: MissingValue(a) in r <==> SettingAt(s, a) == ""
    ensures |r| <= 4
  {
    ErrorIf(s.url == "", MissingValue(Url)) +
    ErrorIf(s.apiKey == "", MissingValue(ApiKey)) +
    ErrorIf(s.organization == "", MissingValue(Organization)) +
    ErrorIf(s.project == "", MissingValue(Project))
  }

  /** The data handed to data sources and to resources alike. */
  function DataOf(version: string, s: Settings): ProviderData
  {
    ProviderData(
      Client(s.url, s.apiKey, "sys11dbaas-terraform/" + version, ClientTimeout),
      StringValue(Known, s.project),
      StringValue(Known, s.organization),
      BoolValue(Known, s.waitForCreation))
  }

  // ---------------------------------------------------------------------
  // Configure

  /**
   * `Sys11DBaaSProvider.Configure`. `getDiags` are the diagnostics of
   * decoding the provider block, `env` the process environment and
   * `clientError` the error `NewClient` returns, if any.
   */
  method Configure(
    version: string, cfg: ProviderModel, getDiags: seq<Diagnostic>,
    env: map<string, string>, clientError: Option<string>)
    returns (diags: seq<Diagnostic>, dataSourceData: Option<ProviderData>, resourceData: Option<ProviderData>)
    ensures HasError(getDiags) ==> diags == getDiags
    ensures !HasError(getDiags) && UnknownErrors(cfg) != [] ==> diags == AsDiagnostics(UnknownErrors(cfg))
    ensures !HasError(getDiags) && UnknownErrors(cfg) == [] ==>
      diags == AsDiagnostics(MissingErrors(Resolve(cfg, env)) +
                             (if MissingErrors(Resolve(cfg, env)) == [] && clientError.Some?
                              then [ClientFailed(clientError.value)] else []))
    ensures dataSourceData.Some? <==> !HasError(diags)
    ensures dataSourceData.Some? ==> dataSourceData.value == DataOf(version, Resolve(cfg, env))
    ensures resourceData == dataSourceData
  {
    diags := getDiags;
    dataSourceData, resourceData := None, None;
    if HasError(diags) {
      return;
    }
    var unknown := CheckKnown(cfg);
    diags := AsDiagnostics(unknown);
    if HasError(diags) {
      return;
    }
    var resolved := ResolveSettings(cfg, env);
    var missing := CheckPresent(resolved);
    diags := AsDiagnostics(missing);
    if HasError(diags) {
      return;
    }
    if clientError.Some? {
      diags := AsDiagnostics(missing + [ClientFailed(clientError.value)]);
      return;
    }
    dataSourceData := Some(DataOf(version, resolved));
    resourceData := Some(DataOf(version, resolved));
  }

  /** The known-value checks of `Configure`, each adding its attribute error. */
  method CheckKnown(cfg: ProviderModel) returns (errors: seq<ConfigError>)
    ensures errors == UnknownErrors(cfg)
  {
    errors := [];
    if cfg.url.state == Unknown {
      errors := errors + [UnknownValue(Url)];
    }
    if cfg.apiKey.state == Unknown {
      errors := errors + [UnknownValue(ApiKey)];
    }
    if cfg.organization.state == Unknown {
      errors := errors + [UnknownValue(Organization)];
    }
    if cfg.project.state == Unknown {
      errors := errors + [UnknownValue(Project)];
    }
  }

  /** The environment read, then overridden by every non-null attribute. */
  method ResolveSettings(cfg: ProviderModel, env: map<string, string>) returns (s: Settings)
    ensures s == Resolve(cfg, env)
  {
    var url: string;
    if UrlVar in env {
      url := env[UrlVar];
    } else {
      url := DefaultUrl;
    }
    var apikey := Getenv(env, ApiKeyVar);
    var organization := Getenv(env, OrganizationVar);
    var project := Getenv(env, ProjectVar);
    var waitForCreation: bool;
    if WaitVar !in env {
      waitForCreation := true;
    } else {
      waitForCreation := ParsedFlag(env[WaitVar]);
    }

    if cfg.url.state != Null {
      url := ValueString(cfg.url);
    }
    if cfg.apiKey.state != Null {
      apikey := ValueString(cfg.apiKey);
    }
    if cfg.organization.state != Null {
      organization := ValueString(cfg.organization);
    }
    if cfg.project.state != Null {
      project := ValueString(cfg.project);
    }
    if cfg.waitForCreation.state != Null {
      waitForCreation := ValueBool(cfg.waitForCreation);
    }
    s := Settings(url, apikey, organization, project, waitForCreation);
  }

  /** The missing-value checks of `Configure`, each adding its attribute error. */
  method CheckPresent(s: Settings) returns (errors: seq<ConfigError>)
    ensures errors == MissingErrors(s)
  {
    errors := [];
    if s.url == "" {
      errors := errors + [MissingValue(Url)];
    }
    assert errors == ErrorIf(s.url == "", MissingValue(Url));
    if s.apiKey == "" {
      errors := errors + [MissingValue(ApiKey)];
    }
    assert errors == ErrorIf(s.url == "", MissingValue(Url)) +
      ErrorIf(s.apiKey == "", MissingValue(ApiKey));
    if s.organization == "" {
      errors := errors + [MissingValue(Organization)];
    }
    if s.project == "" {
      errors := errors + [MissingValue(Project)];
    }
  }

  // ---------------------------------------------------------------------
  // Properties of the resolution

  /** A non-null configured string wins whatever the environment holds. */
  lemma ConfigOverridesEnvironment(cfg: ProviderModel, env: map<string, string>, a: Attribute)
    requires ConfigAt(cfg, a).state != Null
    ensures SettingAt(Resolve(cfg, env), a) == ValueString(ConfigAt(cfg, a))
  {
  }

  /** With the attribute null, a set variable wins over the default, even when it is empty. */
  lemma EnvironmentOverridesDefault(cfg: ProviderModel, env: map<string, string>)
    requires cfg.url.state == Null && UrlVar in env
    ensures Resolve(cfg, env).url == env[UrlVar]
  {
  }

  /** With neither configuration nor variable, the URL is the public endpoint and never missing. */
  lemma DefaultUrlNeverMissing(cfg: ProviderModel, env: map<string, string>)
    requires cfg.url.state == Null && UrlVar !in env
    ensures Resolve(cfg, env).url == DefaultUrl
    ensures MissingValue(Url) !in MissingErrors(Resolve(cfg, env))
  {
  }

  /** The key, organization and project have no default: unset and unconfigured means missing. */
  lemma UnsetCredentialsMissing(cfg: ProviderModel, env: map<string, string>)
    requires cfg.apiKey.state == Null && ApiKeyVar !in env
    requires cfg.organization.state == Null && OrganizationVar !in env
    requires cfg.project.state == Null && ProjectVar !in env
    ensures MissingErrors(Resolve(cfg, env)) ==
      (if Resolve(cfg, env).url == "" then [MissingValue(Url)] else []) +
      [MissingValue(ApiKey), MissingValue(Organization), MissingValue(Project)]
  {
    var s := Resolve(cfg, env);
    assert s.apiKey == "" && s.organization == "" && s.project == "";
  }

  /** The wait flag: true when neither configured nor set, false when the variable does not parse. */
  lemma WaitFlagResolution(cfg: ProviderModel, env: map<string, string>)
    requires cfg.waitForCreation.state == Null
    ensures WaitVar !in env ==> Resolve(cfg, env).waitForCreation
    ensures WaitVar in env && ParseBool(env[WaitVar]).Err? ==> !Resolve(cfg, env).waitForCreation
    ensures WaitVar in env && ParseBool(env[WaitVar]).Ok? ==>
      Resolve(cfg, env).waitForCreation == ParseBool(env[WaitVar]).value
  {
  }

  /** Only the four connection attributes are checked for unknown values; the wait flag is not. */
  lemma UnknownWaitFlagUnchecked(cfg: ProviderModel)
    requires cfg.url.state != Unknown && cfg.apiKey.state != Unknown
    requires cfg.organization.state != Unknown && cfg.project.state != Unknown
    ensures UnknownErrors(cfg) == []
  {
  }
}
