/** Stream discovery of the Klaviyo source: the authentication mode chosen
    from the configuration, and the stream list formed by the declarative
    streams of the manifest followed by three hand-written streams. */
module Source {
  import opened Values

  const TokenRefreshEndpoint: string := "https://a.klaviyo.com/oauth/token"

  /** The user configuration, a mapping from keys to JSON values. */
  type Config = map<string, Json>

  /** The exceptions `config[...]` raises: a missing key, or a value that is
      not a mapping. */
  datatype AccessError = KeyError(key: string) | TypeError(typeName: string)

  /** `v[key]` where `v` should be a mapping. */
  function Subscript(v: Json, key: string): (r: Result<Json, AccessError>)
    ensures r.Ok? <==> v.JDict? && key in v.fields
    ensures r.Ok? ==> r.value == v.fields[key]
    ensures r.Err? && v.JDict? ==> r.error == KeyError(key)
  {
    match v
    case JDict(fields) => if key in fields then Ok(fields[key]) else Err(KeyError(key))
    case _ => Err(TypeError(TypeName(v)))
  }

  /** `config['credentials'][key]` */
  function Credential(config: Config, key: string): Result<Json, AccessError> {
    if "credentials" in config then Subscript(config["credentials"], key)
    else Err(KeyError("credentials"))
  }

  /** The keyword arguments of the OAuth authenticator built for the streams. */
  datatype OAuthArgs = OAuthArgs(tokenRefreshEndpoint: string, clientId: Json, clientSecret: Json, refreshToken: Json)

  /** The `auth` mapping handed to each hand-written stream:
      `{'authenticator': ...}` or `{'api_key': ...}`. */
  datatype Auth = Authenticator(args: OAuthArgs) | ApiKey(apiKey: Json)

  /** Streams are opaque: the declarative ones come from the manifest. */
  datatype Stream =
    | Declarative(name: string)
    | Campaigns(auth: Auth, startDate: Json)
    | CampaignsDetailed(auth: Auth, startDate: Json)
    | Flows(auth: Auth, startDate: Json)

  /** The authentication mode: an OAuth authenticator exactly when the
      credentials' `auth_type` is "oauth"; its endpoint is Klaviyo's token
      endpoint. */
  function ChooseAuth(config: Config): (r: Result<Auth, AccessError>)
    ensures r.Ok? ==> (r.value.Authenticator? <==> Credential(config, "auth_type") == Ok(JStr("oauth")))
    ensures r.Ok? && r.value.Authenticator? ==> r.value.args.tokenRefreshEndpoint == TokenRefreshEndpoint
    ensures Credential(config, "auth_type").Err? ==> r == Err(Credential(config, "auth_type").error)
  {
    var authType :- Credential(config, "auth_type");
    if authType == JStr("oauth") then
      var clientId :- Credential(config, "client_id");
      var clientSecret :- Credential(config, "client_secret");
      var refreshToken :- Credential(config, "refresh_token");
      Ok(Authenticator(OAuthArgs(TokenRefreshEndpoint, clientId, clientSecret, refreshToken)))
    else
      var apiKey :- Credential(config, "api_key");
      Ok(ApiKey(apiKey))
  }

  /** `config.get("start_date")` */
  function StartDate(config: Config): Json {
    DictGet(config, "start_date")
  }

  /** The streams of the source: the declarative streams, unchanged and in
      order, followed by Campaigns, CampaignsDetailed and Flows, all three with
      the same auth mapping and start date. A configuration whose credentials
      cannot be read raises before any stream is built. */
  method Streams(config: Config, declarative: seq<Stream>) returns (r: Result<seq<Stream>, AccessError>)
    ensures r.Err? <==> ChooseAuth(config).Err?
    ensures r.Err? ==> r.error == ChooseAuth(config).error
    ensures r.Ok? ==>
              var auth := ChooseAuth(config).value;
              && |r.value| == |declarative| + 3
              && r.value[..|declarative|] == declarative
              && r.value[|declarative|..] == [Campaigns(auth, StartDate(config)),
                                              CampaignsDetailed(auth, StartDate(config)),
                                              Flows(auth, StartDate(config))]
  {
    var auth :- ChooseAuth(config);
    var startDate := StartDate(config);
    var streams := declarative;
    streams := streams + [Campaigns(auth, startDate), CampaignsDetailed(auth, startDate), Flows(auth, startDate)];
    return Ok(streams);
  }

  /** A failing stream never stops the sync. */
  function ContinueSyncOnStreamFailure(): (r: bool)
    ensures r
  {
    true
  }

  /** With `auth_type` "oauth" the authenticator is built from the three
      OAuth credentials, read in order; a missing one raises its KeyError. */
  lemma OAuthModeBuildsAuthenticator(config: Config)
    requires Credential(config, "auth_type") == Ok(JStr("oauth"))
    ensures Credential(config, "client_id").Ok? && Credential(config, "client_secret").Ok?
            && Credential(config, "refresh_token").Ok? ==>
              ChooseAuth(config) == Ok(Authenticator(OAuthArgs(
                "https://a.klaviyo.com/oauth/token",
                Credential(config, "client_id").value,
                Credential(config, "client_secret").value,
                Credential(config, "refresh_token").value)))
    ensures Credential(config, "client_id").Err? ==>
              ChooseAuth(config) == Err(Credential(config, "client_id").error)
    ensures ChooseAuth(config).Err? ==> ChooseAuth(config).error.KeyError?
  {
  }

  /** Any other `auth_type` uses the API key, and builds no authenticator. */
  lemma OtherModeUsesApiKey(config: Config)
    requires Credential(config, "auth_type").Ok?
    requires Credential(config, "auth_type").value != JStr("oauth")
    ensures ChooseAuth(config) ==
            if Credential(config, "api_key").Ok? then Ok(ApiKey(Credential(config, "api_key").value))
            else Err(Credential(config, "api_key").error)
  {
  }

  /** A missing start date is passed on as None. */
  lemma MissingStartDateIsNone(config: Config)
    ensures "start_date" !in config ==> StartDate(config) == JNull
    ensures "start_date" in config ==> StartDate(config) == config["start_date"]
  {
  }

  /** The integration-test configuration takes the API-key branch. */
  lemma TestConfigUsesApiKey()
    ensures var credentials := JDict(map["auth_type" := JStr("api_key"), "api_key" := JStr("an_api_key")]);
            var config := map["credentials" := credentials, "start_date" := JStr("2021-01-01T00:00:00Z")];
            && ChooseAuth(config) == Ok(ApiKey(JStr("an_api_key")))
            && StartDate(config) == JStr("2021-01-01T00:00:00Z")
  {
    var credentials := JDict(map["auth_type" := JStr("api_key"), "api_key" := JStr("an_api_key")]);
    var config := map["credentials" := credentials, "start_date" := JStr("2021-01-01T00:00:00Z")];
    assert Credential(config, "auth_type") == Ok(JStr("api_key"));
  }
}
