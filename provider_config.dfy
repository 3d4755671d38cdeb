/**
 * The SDK provider's configuration: the schema's default and environment
 * fallback table, the `Config` that `configureProvider` builds from the
 * resolved settings, and the provider object that may already hold one.
 */
module ProviderConfig {
  import opened Wrappers
  import opened Environment
  import opened ResourceData
  import BuildInfo

  // ---- The schema table ------------------------------------------------

  datatype Kind = KString | KBool | KInt | KMap

  /**
   * Where a setting comes from when the configuration leaves it out:
   * `EnvDefaultFunc`/`MultiEnvDefaultFunc` (the first non-empty variable,
   * else the default, which may be nil), a fixed `Default`, or nothing.
   */
  datatype Fallback =
    | EnvDefault(vars: seq<string>, default: Option<Value>)
    | FixedDefault(value: Value)
    | NoDefault

  /** The top-level settings of the provider schema. */
  datatype Setting =
    | AuthUrl
    | Region
    | UserName
    | UserId
    | ApplicationCredentialId
    | ApplicationCredentialName
    | ApplicationCredentialSecret
    | TenantId
    | TenantName
    | Password
    | Token
    | UserDomainName
    | UserDomainId
    | ProjectDomainName
    | ProjectDomainId
    | DomainId
    | DomainName
    | DefaultDomain
    | SystemScope
    | Insecure
    | EndpointType
    | CacertFile
    | Cert
    | Key
    | Swauth
    | DelayedAuth
    | AllowReauth
    | Cloud
    | MaxRetries
    | EndpointOverrides
    | DisableNoCacheHeader
    | EnableLogging

  /** The setting's name in the configuration language. */
  function Name(k: Setting): string {
    match k
    case AuthUrl => "auth_url"
    case Region => "region"
    case UserName => "user_name"
    case UserId => "user_id"
    case ApplicationCredentialId => "application_credential_id"
    case ApplicationCredentialName => "application_credential_name"
    case ApplicationCredentialSecret => "application_credential_secret"
    case TenantId => "tenant_id"
    case TenantName => "tenant_name"
    case Password => "password"
    case Token => "token"
    case UserDomainName => "user_domain_name"
    case UserDomainId => "user_domain_id"
    case ProjectDomainName => "project_domain_name"
    case ProjectDomainId => "project_domain_id"
    case DomainId => "domain_id"
    case DomainName => "domain_name"
    case DefaultDomain => "default_domain"
    case SystemScope => "system_scope"
    case Insecure => "insecure"
    case EndpointType => "endpoint_type"
    case CacertFile => "cacert_file"
    case Cert => "cert"
    case Key => "key"
    case Swauth => "swauth"
    case DelayedAuth => "delayed_auth"
    case AllowReauth => "allow_reauth"
    case Cloud => "cloud"
    case MaxRetries => "max_retries"
    case EndpointOverrides => "endpoint_overrides"
    case DisableNoCacheHeader => "disable_no_cache_header"
    case EnableLogging => "enable_logging"
  }

  function Env1(v: string, default: string): Fallback {
    EnvDefault([v], Some(Str(default)))
  }

  /** The schema's type and fallback for each setting. */
  function KindOf(k: Setting): Kind {
    match k
    case AuthUrl => KString
    case Region => KString
    case UserName => KString
    case UserId => KString
    case ApplicationCredentialId => KString
    case ApplicationCredentialName => KString
    case ApplicationCredentialSecret => KString
    case TenantId => KString
    case TenantName => KString
    case Password => KString
    case Token => KString
    case UserDomainName => KString
    case UserDomainId => KString
    case ProjectDomainName => KString
    case ProjectDomainId => KString
    case DomainId => KString
    case DomainName => KString
    case DefaultDomain => KString
    case SystemScope => KBool
    case Insecure => KBool
    case EndpointType => KString
    case CacertFile => KString
    case Cert => KString
    case Key => KString
    case Swauth => KBool
    case DelayedAuth => KBool
    case AllowReauth => KBool
    case Cloud => KString
    case MaxRetries => KInt
    case EndpointOverrides => KMap
    case DisableNoCacheHeader => KBool
    case EnableLogging => KBool
  }

  function FallbackOf(k: Setting): Fallback {
    match k
    case AuthUrl => Env1("OS_AUTH_URL", "")
    case Region => Env1("OS_REGION_NAME", "")
    case UserName => Env1("OS_USERNAME", "")
    case UserId => Env1("OS_USER_ID", "")
    case ApplicationCredentialId => Env1("OS_APPLICATION_CREDENTIAL_ID", "")
    case ApplicationCredentialName => Env1("OS_APPLICATION_CREDENTIAL_NAME", "")
    case ApplicationCredentialSecret => Env1("OS_APPLICATION_CREDENTIAL_SECRET", "")
    case TenantId => EnvDefault(["OS_TENANT_ID", "OS_PROJECT_ID"], Some(Str("")))
    case TenantName => EnvDefault(["OS_TENANT_NAME", "OS_PROJECT_NAME"], Some(Str("")))
    case Password => Env1("OS_PASSWORD", "")
    case Token => EnvDefault(["OS_TOKEN", "OS_AUTH_TOKEN"], Some(Str("")))
    case UserDomainName => Env1("OS_USER_DOMAIN_NAME", "")
    case UserDomainId => Env1("OS_USER_DOMAIN_ID", "")
    case ProjectDomainName => Env1("OS_PROJECT_DOMAIN_NAME", "")
    case ProjectDomainId => Env1("OS_PROJECT_DOMAIN_ID", "")
    case DomainId => Env1("OS_DOMAIN_ID", "")
    case DomainName => Env1("OS_DOMAIN_NAME", "")
    case DefaultDomain => Env1("OS_DEFAULT_DOMAIN", "default")
    case SystemScope => EnvDefault(["OS_SYSTEM_SCOPE"], Some(Bool(false)))
    case Insecure => EnvDefault(["OS_INSECURE"], None)
    case EndpointType => Env1("OS_ENDPOINT_TYPE", "")
    case CacertFile => Env1("OS_CACERT", "")
    case Cert => Env1("OS_CERT", "")
    case Key => Env1("OS_KEY", "")
    case Swauth => EnvDefault(["OS_SWAUTH"], Some(Bool(false)))
    case DelayedAuth => EnvDefault(["OS_DELAYED_AUTH"], Some(Bool(true)))
    case AllowReauth => EnvDefault(["OS_ALLOW_REAUTH"], Some(Bool(true)))
    case Cloud => Env1("OS_CLOUD", "")
    case MaxRetries => FixedDefault(Int(0))
    case EndpointOverrides => NoDefault
    case DisableNoCacheHeader => FixedDefault(Bool(false))
    case EnableLogging => FixedDefault(Bool(false))
  }

  /**
   * A setting as the provider sees it: the explicit configuration first,
   * then the schema's fallback. A value taken from the environment is the
   * variable's text.
   */
  function Resolve(k: Setting, explicit: Attributes, env: Env): (r: Option<Value>)
    ensures Name(k) in explicit ==> r == Some(explicit[Name(k)])
    ensures Name(k) !in explicit && FallbackOf(k).FixedDefault? ==> r == Some(FallbackOf(k).value)
    ensures Name(k) !in explicit && FallbackOf(k).NoDefault? ==> r == None
  {
    if Name(k) in explicit then Some(explicit[Name(k)])
    else match FallbackOf(k)
      case EnvDefault(vars, default) =>
        (match FirstNonEmpty(env, vars)
         case Some(v) => Some(Str(v))
         case None => default)
      case FixedDefault(v) => Some(v)
      case NoDefault => None
  }

  /**
   * For a setting with environment fallbacks left out of the configuration:
   * the first variable that is set wins, and the default applies only when
   * none is.
   */
  lemma {:induction false} EnvironmentFallbackOrder(k: Setting, explicit: Attributes, env: Env, i: nat)
    requires Name(k) !in explicit && FallbackOf(k).EnvDefault?
    requires i < |FallbackOf(k).vars| && Getenv(env, FallbackOf(k).vars[i]) != ""
    requires forall j :: 0 <= j < i ==> Getenv(env, FallbackOf(k).vars[j]) == ""
    ensures Resolve(k, explicit, env) == Some(Str(Getenv(env, FallbackOf(k).vars[i])))
  {
    FirstNonEmptyIsFirstMatch(env, FallbackOf(k).vars, i);
  }

  lemma {:induction false} EnvironmentFallbackDefault(k: Setting, explicit: Attributes, env: Env)
    requires Name(k) !in explicit && FallbackOf(k).EnvDefault?
    requires forall j :: 0 <= j < |FallbackOf(k).vars| ==> Getenv(env, FallbackOf(k).vars[j]) == ""
    ensures Resolve(k, explicit, env) == FallbackOf(k).default
  {
    FirstNonEmptyNone(env, FallbackOf(k).vars);
  }

  /** `region = "RegionTwo"` set explicitly beats `OS_REGION_NAME=RegionOne`. */
  lemma ExplicitRegionBeatsEnvironment(explicit: Attributes, env: Env)
    requires explicit == map["region" := Str("RegionTwo")]
    requires env == map["OS_REGION_NAME" := "RegionOne"]
    ensures Resolve(Region, explicit, env) == Some(Str("RegionTwo"))
  {
  }

  lemma DefaultDomainIsDefault(explicit: Attributes, env: Env)
    requires "default_domain" !in explicit && Getenv(env, "OS_DEFAULT_DOMAIN") == ""
    ensures Resolve(DefaultDomain, explicit, env) == Some(Str("default"))
  {
  }

  lemma DelayedAuthDefaultsToTrue(explicit: Attributes, env: Env)
    requires "delayed_auth" !in explicit && Getenv(env, "OS_DELAYED_AUTH") == ""
    ensures Resolve(DelayedAuth, explicit, env) == Some(Bool(true))
  {
  }

  lemma AllowReauthDefaultsToTrue(explicit: Attributes, env: Env)
    requires "allow_reauth" !in explicit && Getenv(env, "OS_ALLOW_REAUTH") == ""
    ensures Resolve(AllowReauth, explicit, env) == Some(Bool(true))
  {
  }

  /** `max_retries` has a fixed default of 0 and no environment variable. */
  lemma MaxRetriesDefaultsToZero(explicit: Attributes, env: Env)
    requires "max_retries" !in explicit
    ensures Resolve(MaxRetries, explicit, env) == Some(Int(0))
  {
  }

  /** `insecure` stays unset unless configured or given by OS_INSECURE. */
  lemma InsecureHasNoDefault(explicit: Attributes, env: Env)
    requires "insecure" !in explicit && Getenv(env, "OS_INSECURE") == ""
    ensures Resolve(Insecure, explicit, env) == None
  {
  }

  /** `tenant_id` reads OS_TENANT_ID, then OS_PROJECT_ID. */
  lemma TenantIdEnvironmentOrder(explicit: Attributes, env: Env)
    requires "tenant_id" !in explicit
    ensures Resolve(TenantId, explicit, env) ==
      Some(Str(if Getenv(env, "OS_TENANT_ID") != "" then Getenv(env, "OS_TENANT_ID") else Getenv(env, "OS_PROJECT_ID")))
  {
    assert ["OS_TENANT_ID", "OS_PROJECT_ID"][1..] == ["OS_PROJECT_ID"];
    assert ["OS_PROJECT_ID"][1..] == [];
  }

  /** `token` reads OS_TOKEN, then OS_AUTH_TOKEN. */
  lemma TokenEnvironmentOrder(explicit: Attributes, env: Env)
    requires "token" !in explicit
    ensures Resolve(Token, explicit, env) ==
      Some(Str(if Getenv(env, "OS_TOKEN") != "" then Getenv(env, "OS_TOKEN") else Getenv(env, "OS_AUTH_TOKEN")))
  {
    assert ["OS_TOKEN", "OS_AUTH_TOKEN"][1..] == ["OS_AUTH_TOKEN"];
    assert ["OS_AUTH_TOKEN"][1..] == [];
  }

  // ---- The configuration ---------------------------------------------

  const SDKModulePath: string := "github.com/hashicorp/terraform-plugin-sdk/v2"
  const LegacyTerraformVersion: string := "0.11+compatible"

  /** The fields of `auth.Config` that `configureProvider` sets. */
  datatype Config = Config(
    caCertFile: string, clientCertFile: string, clientKeyFile: string,
    cloud: string, defaultDomain: string, domainId: string, domainName: string,
    endpointOverrides: map<string, string>, endpointType: string,
    identityEndpoint: string, password: string,
    projectDomainId: string, projectDomainName: string, region: string,
    swauth: bool, token: string, tenantId: string, tenantName: string,
    userDomainId: string, userDomainName: string, username: string, userId: string,
    useOctavia: bool,
    applicationCredentialId: string, applicationCredentialName: string,
    applicationCredentialSecret: string,
    delayedAuth: bool, allowReauth: bool, systemScope: bool,
    maxRetries: int, disableNoCacheHeader: bool,
    terraformVersion: string, sdkVersion: string, enableLogger: bool,
    insecure: Option<bool>)

  /** `getSDKVersion` of the SDK provider, as a value. */
  function SDKVersionOf(buildInfo: Option<seq<BuildInfo.ModuleInfo>>, providerVersion: string): string {
    match buildInfo
    case None => providerVersion
    case Some(deps) => BuildInfo.DependencyVersion(deps, SDKModulePath, providerVersion)
  }

  /** `getSDKVersion` of the SDK provider: the loop over the build dependencies. */
  method GetSDKVersion(buildInfo: Option<seq<BuildInfo.ModuleInfo>>, providerVersion: string)
    returns (v: string)
    ensures v == SDKVersionOf(buildInfo, providerVersion)
  {
    v := BuildInfo.FindDependencyVersion(buildInfo, SDKModulePath, providerVersion);
  }

  /**
   * The configuration fields read straight from the resolved settings `d`;
   * the versions, the logger switch and `insecure` are computed by the
   * caller.
   */
  function BaseConfig(d: Attributes, terraformVersion: string, sdkVersion: string, enableLogger: bool,
                      insecure: Option<bool>): (c: Config)
    ensures c.insecure == insecure && c.useOctavia
    ensures c.terraformVersion == terraformVersion && c.sdkVersion == sdkVersion && c.enableLogger == enableLogger
  {
    Config(
      GetString(d, "cacert_file"), GetString(d, "cert"), GetString(d, "key"),
      GetString(d, "cloud"), GetString(d, "default_domain"), GetString(d, "domain_id"), GetString(d, "domain_name"),
      GetDict(d, "endpoint_overrides"), GetString(d, "endpoint_type"),
      GetString(d, "auth_url"), GetString(d, "password"),
      GetString(d, "project_domain_id"), GetString(d, "project_domain_name"), GetString(d, "region"),
      GetBool(d, "swauth"), GetString(d, "token"), GetString(d, "tenant_id"), GetString(d, "tenant_name"),
      GetString(d, "user_domain_id"), GetString(d, "user_domain_name"), GetString(d, "user_name"), GetString(d, "user_id"),
      true,
      GetString(d, "application_credential_id"), GetString(d, "application_credential_name"),
      GetString(d, "application_credential_secret"),
      GetBool(d, "delayed_auth"), GetBool(d, "allow_reauth"), GetBool(d, "system_scope"),
      GetInt(d, "max_retries"), GetBool(d, "disable_no_cache_header"),
      terraformVersion, sdkVersion, enableLogger,
      insecure)
  }

  /** `insecure` as `GetOkExists` finds it: unset unless configured. */
  function InsecureSetting(d: Attributes): (r: Option<bool>)
    ensures r.Some? <==> "insecure" in d && d["insecure"].Bool?
    ensures r.Some? ==> r.value == d["insecure"].b
  {
    match GetOkExists(d, "insecure")
    case Some(Bool(b)) => Some(b)
    case _ => None
  }

  /**
   * Whether the HTTP logger is on: `enable_logging`, or a TF_LOG level of
   * DEBUG or TRACE while OS_DEBUG is unset.
   */
  function LoggerEnabled(d: Attributes, env: Env, logLevel: string): bool {
    GetBool(d, "enable_logging") ||
      (logLevel != "" && Getenv(env, "OS_DEBUG") == "" && (logLevel == "DEBUG" || logLevel == "TRACE"))
  }

  method DecideLogging(d: Attributes, env: Env, logLevel: string) returns (enable: bool)
    ensures enable == LoggerEnabled(d, env, logLevel)
  {
    enable := GetBool(d, "enable_logging");
    if !enable {
      if logLevel != "" && Getenv(env, "OS_DEBUG") == "" {
        if logLevel == "DEBUG" || logLevel == "TRACE" {
          enable := true;
        }
      }
    }
  }

  method GetInsecure(d: Attributes) returns (insecure: Option<bool>)
    ensures insecure == InsecureSetting(d)
  {
    insecure := None;
    var v := GetOkExists(d, "insecure");
    if v.Some? && v.value.Bool? {
      insecure := Some(v.value.b);
    }
  }

  /**
   * The configuration built from the resolved settings `d`, before
   * `LoadAndValidate`. `logLevel` is the SDK's log level (from TF_LOG).
   */
  function NewConfig(d: Attributes, env: Env, logLevel: string,
                     buildInfo: Option<seq<BuildInfo.ModuleInfo>>, providerVersion: string,
                     terraformVersion: string): (c: Config)
    ensures c.terraformVersion == (if terraformVersion == "" then LegacyTerraformVersion else terraformVersion)
    ensures c.enableLogger <==>
      GetBool(d, "enable_logging") ||
      ((logLevel == "DEBUG" || logLevel == "TRACE") && Getenv(env, "OS_DEBUG") == "")
    ensures "insecure" !in d ==> c.insecure == None
    ensures "insecure" in d && d["insecure"].Bool? ==> c.insecure == Some(d["insecure"].b)
    ensures c.useOctavia
    ensures c.sdkVersion == SDKVersionOf(buildInfo, providerVersion) + " Terraform Provider OpenStack/" + providerVersion
    ensures c.region == GetString(d, "region") && c.tenantId == GetString(d, "tenant_id") && c.token == GetString(d, "token")
    ensures c.defaultDomain == GetString(d, "default_domain") && c.maxRetries == GetInt(d, "max_retries")
    ensures c.delayedAuth == GetBool(d, "delayed_auth") && c.allowReauth == GetBool(d, "allow_reauth")
  {
    BaseConfig(
      d,
      if terraformVersion == "" then LegacyTerraformVersion else terraformVersion,
      SDKVersionOf(buildInfo, providerVersion) + " Terraform Provider OpenStack/" + providerVersion,
      LoggerEnabled(d, env, logLevel),
      InsecureSetting(d))
  }

  // Only unfolds `NewConfig`, so that `ConfigureProvider` is verified within its resources.
  lemma NewConfigFromParts(d: Attributes, env: Env, logLevel: string,
                           buildInfo: Option<seq<BuildInfo.ModuleInfo>>, providerVersion: string,
                           terraformVersion: string)
    ensures NewConfig(d, env, logLevel, buildInfo, providerVersion, terraformVersion) ==
      BaseConfig(
        d,
        if terraformVersion == "" then LegacyTerraformVersion else terraformVersion,
        SDKVersionOf(buildInfo, providerVersion) + " Terraform Provider OpenStack/" + providerVersion,
        LoggerEnabled(d, env, logLevel),
        InsecureSetting(d))
  {
  }

  /**
   * The provider object: the Terraform version the host reported and the
   * configuration (`Meta`) it may already hold.
   */
  class Provider {
    var meta: Option<Config>
    var terraformVersion: string

    constructor (terraformVersion: string)
      ensures meta == None && this.terraformVersion == terraformVersion
    {
      meta := None;
      this.terraformVersion := terraformVersion;
    }

    /**
     * `configureProvider`. `loadAndValidate` stands for
     * `Config.LoadAndValidate` (authentication and client set-up), given
     * as the error it reports, if any.
     */
    method ConfigureProvider(d: Attributes, env: Env, logLevel: string,
                             buildInfo: Option<seq<BuildInfo.ModuleInfo>>, providerVersion: string,
                             loadAndValidate: Config -> Option<string>)
      returns (cfg: Option<Config>, diags: seq<string>)
      ensures meta.Some? ==> cfg == meta && diags == []
      ensures meta.None? && loadAndValidate(NewConfig(d, env, logLevel, buildInfo, providerVersion, terraformVersion)).Some? ==>
        cfg == None &&
        diags == [loadAndValidate(NewConfig(d, env, logLevel, buildInfo, providerVersion, terraformVersion)).value]
      ensures meta.None? && loadAndValidate(NewConfig(d, env, logLevel, buildInfo, providerVersion, terraformVersion)).None? ==>
        cfg == Some(NewConfig(d, env, logLevel, buildInfo, providerVersion, terraformVersion)) && diags == []
    {
      if meta.Some? {
        return meta, [];
      }

      var tfVersion := terraformVersion;
      if tfVersion == "" {
        tfVersion := LegacyTerraformVersion;
      }
      var enableLogging := DecideLogging(d, env, logLevel);
      var sdkVersion := GetSDKVersion(buildInfo, providerVersion);
      var insecure := GetInsecure(d);
      var config := BaseConfig(d, tfVersion, sdkVersion + " Terraform Provider OpenStack/" + providerVersion,
                               enableLogging, insecure);
      NewConfigFromParts(d, env, logLevel, buildInfo, providerVersion, terraformVersion);

      var err := loadAndValidate(config);
      if err.Some? {
        return None, [err.value];
      }
      return Some(config), [];
    }
  }

  /** A provider that already holds a configuration hands it back and builds nothing. */
  method ConfiguredProviderIsMemoised(existing: Config, d: Attributes, env: Env, logLevel: string,
                                     buildInfo: Option<seq<BuildInfo.ModuleInfo>>, providerVersion: string,
                                     loadAndValidate: Config -> Option<string>)
    returns (cfg: Option<Config>, diags: seq<string>)
    ensures cfg == Some(existing) && diags == []
  {
    var p := new Provider("1.5.7");
    p.meta := Some(existing);
    cfg, diags := p.ConfigureProvider(d, env, logLevel, buildInfo, providerVersion, loadAndValidate);
  }
}
