/**
 * The provider object: Configure resolves four OAuth1 credentials, each from the
 * provider configuration or else from an environment variable, and only when all
 * four are found builds the client and marks the provider configured.
 */
module Provider {
  import opened Framework

  /** The Twitter client, identified by the four credentials it was built from. */
  datatype Client = NoClient | OAuth1Client(consumerKey: string, consumerSecret: string, token: string, tokenSecret: string)

  /** `providerData`, the provider block of the configuration. */
  datatype ProviderData = ProviderData(apiKey: StringAttr, apiSecretKey: StringAttr, accessToken: StringAttr, accessSecret: StringAttr)

  /** The process environment; `os.Getenv` yields "" for a variable that is not set. */
  type Environment = map<string, string>

  function Getenv(env: Environment, name: string): string {
    if name in env then env[name] else ""
  }

  /** How one credential is looked up and how its absence is reported. */
  datatype Credential = Credential(envVar: string, summary: string, detail: string, unknownSeverity: Severity, emptySeverity: Severity)

  const ApiKey := Credential("TWITTER_API_KEY", "Missing Twitter API key",
    "The Twitter API key is not configured. The Twitter provider will not be able to function.",
    WarningSeverity, WarningSeverity)

  const ApiSecretKey := Credential("TWITTER_API_SECRET_KEY", "Missing Twitter API secret key",
    "The Twitter API secret key is not configured. The Twitter provider will not be able to function.",
    ErrorSeverity, ErrorSeverity)

  const AccessToken := Credential("TWITTER_ACCESS_TOKEN", "Missing Twitter access token",
    "The Twitter access token is not configured. The Twitter provider will not be able to function.",
    WarningSeverity, ErrorSeverity)

  const AccessSecret := Credential("TWITTER_ACCESS_TOKEN_SECRET", "Missing Twitter access secret",
    "The Twitter access secret is not configured. The Twitter provider will not be able to function.",
    WarningSeverity, ErrorSeverity)

  datatype Resolution = Resolved(value: string) | Missing(diagnostic: Diagnostic)

  /**
   * One credential: an unknown value is missing; a null value falls back to the
   * environment variable; an empty result is missing.
   */
  function Resolve(c: Credential, attr: StringAttr, env: Environment): (r: Resolution)
    ensures r.Resolved? <==> (attr.Known? && attr.value != "") || (attr.Null? && Getenv(env, c.envVar) != "")
    ensures r.Resolved? ==> r.value == if attr.Null? then Getenv(env, c.envVar) else attr.value
    ensures r.Missing? ==> r.diagnostic.summary == c.summary && r.diagnostic.path == None
    ensures r.Missing? ==> r.diagnostic.severity == if attr.Unknown? then c.unknownSeverity else c.emptySeverity
  {
    if attr.Unknown? then
      Missing(Diagnostic(c.unknownSeverity, c.summary, c.detail, None))
    else
      var value := if attr.Null? then Getenv(env, c.envVar) else attr.value;
      if value == "" then Missing(Diagnostic(c.emptySeverity, c.summary, c.detail, None)) else Resolved(value)
  }

  /** The four credentials in the order Configure examines them. */
  function Resolutions(data: ProviderData, env: Environment): seq<Resolution> {
    [ Resolve(ApiKey, data.apiKey, env), Resolve(ApiSecretKey, data.apiSecretKey, env),
      Resolve(AccessToken, data.accessToken, env), Resolve(AccessSecret, data.accessSecret, env) ]
  }

  /** The diagnostic of the first missing credential, or nothing when all are resolved. */
  function FirstProblem(rs: seq<Resolution>): (r: seq<Diagnostic>)
    ensures |r| <= 1
    ensures r == [] <==> forall k | 0 <= k < |rs| :: rs[k].Resolved?
  {
    if rs == [] then []
    else if rs[0].Missing? then [rs[0].diagnostic]
    else FirstProblem(rs[1..])
  }

  /** FirstProblem on the four credentials, case by case. */
  lemma FirstProblemOfFour(a: Resolution, b: Resolution, c: Resolution, d: Resolution)
    ensures FirstProblem([a, b, c, d]) ==
              if a.Missing? then [a.diagnostic]
              else if b.Missing? then [b.diagnostic]
              else if c.Missing? then [c.diagnostic]
              else if d.Missing? then [d.diagnostic]
              else []
  {
    assert [a, b, c, d][1..] == [b, c, d];
    assert [b, c, d][1..] == [c, d];
    assert [c, d][1..] == [d];
    assert [d][1..] == [];
    assert FirstProblem([d]) == if d.Missing? then [d.diagnostic] else [];
    assert FirstProblem([c, d]) == if c.Missing? then [c.diagnostic] else FirstProblem([d]);
    assert FirstProblem([b, c, d]) == if b.Missing? then [b.diagnostic] else FirstProblem([c, d]);
  }

  datatype ConfigureOutcome = ConfigureOutcome(client: Option<Client>, diagnostics: seq<Diagnostic>)

  /**
   * What Configure does to the response diagnostics and whether it builds a client.
   * The credentials are examined in a fixed order and the first missing one is the
   * only one reported; a client is built exactly when all four are found.
   */
  function ConfigureEffect(before: seq<Diagnostic>, config: Decoded<ProviderData>, env: Environment): (r: ConfigureOutcome)
    ensures HasError(before + config.diagnostics) ==> r == ConfigureOutcome(None, before + config.diagnostics)
    ensures !HasError(before + config.diagnostics) ==>
              r.diagnostics == before + config.diagnostics + FirstProblem(Resolutions(config.record, env))
    ensures r.client.Some? <==>
              !HasError(before + config.diagnostics) && FirstProblem(Resolutions(config.record, env)) == []
    ensures r.client.Some? ==>
              var rs := Resolutions(config.record, env);
              r.client.value == OAuth1Client(rs[0].value, rs[1].value, rs[2].value, rs[3].value)
  {
    var ds := before + config.diagnostics;
    var data := config.record;
    FirstProblemOfFour(Resolve(ApiKey, data.apiKey, env), Resolve(ApiSecretKey, data.apiSecretKey, env),
      Resolve(AccessToken, data.accessToken, env), Resolve(AccessSecret, data.accessSecret, env));
    if HasError(ds) then ConfigureOutcome(None, ds)
    else
      match Resolve(ApiKey, data.apiKey, env)
      case Missing(d) => ConfigureOutcome(None, ds + [d])
      case Resolved(apiKey) =>
        match Resolve(ApiSecretKey, data.apiSecretKey, env)
        case Missing(d) => ConfigureOutcome(None, ds + [d])
        case Resolved(apiSecretKey) =>
          match Resolve(AccessToken, data.accessToken, env)
          case Missing(d) => ConfigureOutcome(None, ds + [d])
          case Resolved(accessToken) =>
            match Resolve(AccessSecret, data.accessSecret, env)
            case Missing(d) => ConfigureOutcome(None, ds + [d])
            case Resolved(accessTokenSecret) =>
              ConfigureOutcome(Some(OAuth1Client(apiKey, apiSecretKey, accessToken, accessTokenSecret)), ds)
  }

  /** `provider` as a value: what `convertProviderType` copies into every resource. */
  datatype ProviderValue = ProviderValue(client: Client, configured: bool, version: string)

  /** `provider{}` */
  const ZeroProvider := ProviderValue(NoClient, false, "")

  /** The `tfsdk.Provider` interface value: a `*provider` (None for nil) or another provider type. */
  datatype ProviderInterface = ProviderPointer(target: Option<ProviderValue>) | OtherProvider

  const UnexpectedProviderSummary := "Unexpected Provider Instance Type"

  /** The `%T` in the source formats the failed assertion's `*provider` result, so the type shown is always this one. */
  const UnexpectedTypeDetail :=
    "While creating the data source or resource, an unexpected provider type (*provider.provider) was received. This is always a bug in the provider code and should be reported to the provider developers."

  const EmptyInstanceDetail :=
    "While creating the data source or resource, an unexpected empty provider instance was received. This is always a bug in the provider code and should be reported to the provider developers."

  /**
   * `convertProviderType`: a copy of the pointed-to provider without diagnostics, or
   * the zero provider with one error when the interface holds another type or nil.
   */
  function ConvertProviderType(instance: ProviderInterface): (r: (ProviderValue, seq<Diagnostic>))
    ensures instance.ProviderPointer? && instance.target.Some? ==> r == (instance.target.value, [])
    ensures !(instance.ProviderPointer? && instance.target.Some?) ==>
              && r.0 == ZeroProvider && !r.0.configured
              && |r.1| == 1 && r.1[0].severity == ErrorSeverity
              && r.1[0].summary == UnexpectedProviderSummary
  {
    match instance
    case OtherProvider => (ZeroProvider, [ErrorDiagnostic(UnexpectedProviderSummary, UnexpectedTypeDetail)])
    case ProviderPointer(None) => (ZeroProvider, [ErrorDiagnostic(UnexpectedProviderSummary, EmptyInstanceDetail)])
    case ProviderPointer(Some(p)) => (p, [])
  }

  class Provider {
    var client: Client
    var configured: bool
    var version: string

    /** `New(version)()`: a fresh, unconfigured provider. */
    constructor New(version: string)
      ensures this.version == version && !configured && client == NoClient
    {
      this.version := version;
      configured := false;
      client := NoClient;
    }

    /** `*p`, the copy resources and data sources keep. */
    function Value(): ProviderValue
      reads this
    {
      ProviderValue(client, configured, version)
    }

    /**
     * `provider.Configure`; `diagnostics` is `resp.Diagnostics`. Every early return
     * leaves the client and the flag as they were; the flag is set on the last line.
     */
    method Configure(config: Decoded<ProviderData>, env: Environment, diagnostics: Diagnostics)
      modifies this, diagnostics
      ensures diagnostics.items == ConfigureEffect(old(diagnostics.items), config, env).diagnostics
      ensures configured == (old(configured) || ConfigureEffect(old(diagnostics.items), config, env).client.Some?)
      ensures client == ConfigureEffect(old(diagnostics.items), config, env).client.GetOr(old(client))
      ensures version == old(version)
    {
      var data := config.record;
      diagnostics.Append(config.diagnostics);
      if HasError(diagnostics.items) {
        return;
      }

      var apiKey: string;
      var apiSecretKey: string;
      var accessToken: string;
      var accessTokenSecret: string;

      if data.apiKey.Unknown? {
        diagnostics.AddWarning(ApiKey.summary, ApiKey.detail);
        return;
      }
      if data.apiKey.Null? {
        apiKey := Getenv(env, "TWITTER_API_KEY");
      } else {
        apiKey := data.apiKey.value;
      }
      if apiKey == "" {
        diagnostics.AddWarning(ApiKey.summary, ApiKey.detail);
        return;
      }

      if data.apiSecretKey.Unknown? {
        diagnostics.AddError(ApiSecretKey.summary, ApiSecretKey.detail);
        return;
      }
      if data.apiSecretKey.Null? {
        apiSecretKey := Getenv(env, "TWITTER_API_SECRET_KEY");
      } else {
        apiSecretKey := data.apiSecretKey.value;
      }
      if apiSecretKey == "" {
        diagnostics.AddError(ApiSecretKey.summary, ApiSecretKey.detail);
        return;
      }

      if data.accessToken.Unknown? {
        diagnostics.AddWarning(AccessToken.summary, AccessToken.detail);
        return;
      }
      if data.accessToken.Null? {
        accessToken := Getenv(env, "TWITTER_ACCESS_TOKEN");
      } else {
        accessToken := data.accessToken.value;
      }
      if accessToken == "" {
        diagnostics.AddError(AccessToken.summary, AccessToken.detail);
        return;
      }

      if data.accessSecret.Unknown? {
        diagnostics.AddWarning(AccessSecret.summary, AccessSecret.detail);
        return;
      }
      if data.accessSecret.Null? {
        accessTokenSecret := Getenv(env, "TWITTER_ACCESS_TOKEN_SECRET");
      } else {
        accessTokenSecret := data.accessSecret.value;
      }
      if accessTokenSecret == "" {
        diagnostics.AddError(AccessSecret.summary, AccessSecret.detail);
        return;
      }

      client := OAuth1Client(apiKey, apiSecretKey, accessToken, accessTokenSecret);
      configured := true;
    }
  }

  /**
   * Configure stops without adding an error, and so without building a client while
   * saying nothing is wrong, exactly when the API key is missing, or when the access
   * token or access secret is still unknown and every credential before it was found.
   */
  lemma SilentAbortIff(before: seq<Diagnostic>, config: Decoded<ProviderData>, env: Environment)
    requires !HasError(before + config.diagnostics)
    ensures var r := ConfigureEffect(before, config, env);
            var rs := Resolutions(config.record, env);
            (r.client.None? && !HasError(r.diagnostics)) <==>
              || rs[0].Missing?
              || (rs[0].Resolved? && rs[1].Resolved? && config.record.accessToken.Unknown?)
              || (rs[0].Resolved? && rs[1].Resolved? && rs[2].Resolved? && config.record.accessSecret.Unknown?)
  {
    var ds := before + config.diagnostics;
    var rs := Resolutions(config.record, env);
    FirstProblemOfFour(rs[0], rs[1], rs[2], rs[3]);
    HasErrorAppend(ds, FirstProblem(rs));
  }

  /**
   * A resource or data source built from a `*provider` keeps a copy of it: the
   * configured flag and the client it sees are the provider's own at that moment,
   * so only a provider whose Configure built a client yields configured resources.
   */
  lemma ConvertedProviderIsSnapshot(p: Provider)
    ensures var (value, diagnostics) := ConvertProviderType(ProviderPointer(Some(p.Value())));
            && diagnostics == []
            && value.configured == p.configured && value.client == p.client && value.version == p.version
  {
  }
}
