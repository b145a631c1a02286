/**
 * The REST client base shared by every stream of the tap: it logs in once,
 * keeps the session token and the instance URL, writes the bearer
 * Authorization header and lets a 404 through without raising.
 */
module Client {
  import opened Wrappers

  /** The parts of an HTTP response the tap looks at. */
  datatype Response = Response(status: int, text: string)

  /** The errors the base validator raises. */
  datatype ApiError = Fatal(reason: string) | Retriable(reason: string)

  /** What a successful login returns: a session token and the instance host name. */
  datatype Session = Session(token: string, host: string)

  const StatusOk := 200
  const StatusNotFound := 404

  const AuthorizationKey := "Authorization"
  const UsernameKey := "username"
  const PasswordKey := "password"
  const SecurityTokenKey := "security_token"

  /** The configuration keys whose values make up the login credentials. */
  const CredentialKeys: set<string> := {UsernameKey, PasswordKey, SecurityTokenKey}

  const SchemePrefix := "https://"
  const BearerPrefix := "Bearer "

  /** The Authorization header value for a session token. */
  function Bearer(token: string): (r: string)
    ensures |r| == |BearerPrefix| + |token|
    ensures r[..|BearerPrefix|] == BearerPrefix && r[|BearerPrefix|..] == token
  {
    BearerPrefix + token
  }

  /** Distinct tokens give distinct Authorization values, so the header identifies the session. */
  lemma BearerInjective(a: string, b: string)
    ensures Bearer(a) == Bearer(b) <==> a == b
  {
    if Bearer(a) == Bearer(b) {
      assert a == Bearer(a)[|BearerPrefix|..];
    }
  }

  /**
   * A stream's connection to the Salesforce REST API.  The tap configuration
   * never changes; the token and the instance URL are set once, by the login
   * the constructor performs.
   */
  class SalesforceStream {
    const config: map<string, string>
    var accessToken: string
    var instanceUrl: string

    /** The instance URL always names an HTTPS host. */
    ghost predicate Valid()
      reads this
    {
      |instanceUrl| >= |SchemePrefix| && instanceUrl[..|SchemePrefix|] == SchemePrefix
    }

    /**
     * The credentials, as a dictionary holding exactly the three credential
     * keys; each maps to the configured value, or to `None` when the
     * configuration lacks it.
     */
    function GetCredentials(): (r: map<string, Option<string>>)
      ensures r.Keys == CredentialKeys
      ensures forall k :: k in r ==> (r[k].Some? <==> k in config)
      ensures forall k :: k in r && k in config ==> r[k] == Some(config[k])
    {
      map[UsernameKey := Get(config, UsernameKey),
          PasswordKey := Get(config, PasswordKey),
          SecurityTokenKey := Get(config, SecurityTokenKey)]
    }

    /**
     * Logs in with the configured credentials; `login` stands for the
     * network call and yields the session token and the instance host.
     */
    constructor (config: map<string, string>, login: map<string, Option<string>> -> Session)
      ensures this.config == config
      ensures accessToken == login(GetCredentials()).token
      ensures instanceUrl == SchemePrefix + login(GetCredentials()).host
      ensures Valid()
    {
      this.config := config;
      var credentials := map[UsernameKey := Get(config, UsernameKey),
                             PasswordKey := Get(config, PasswordKey),
                             SecurityTokenKey := Get(config, SecurityTokenKey)];
      var session := login(credentials);
      accessToken := session.token;
      instanceUrl := SchemePrefix + session.host;
    }

    /** The API root every request URL is built on: the instance URL, an HTTPS address. */
    function UrlBase(): (r: string)
      requires Valid()
      reads this
      ensures r == instanceUrl
      ensures |r| >= |SchemePrefix| && r[..|SchemePrefix|] == SchemePrefix
    {
      instanceUrl
    }

    /** Headers for plain REST calls: the bearer Authorization header and nothing else. */
    function RestHeaders(): (r: map<string, string>)
      reads this
      ensures r.Keys == {AuthorizationKey}
      ensures r[AuthorizationKey] == Bearer(accessToken)
    {
      map[AuthorizationKey := Bearer(accessToken)]
    }

    /**
     * The request headers: every header the base provides, with Authorization
     * set (added or overwritten) to the bearer value of the session token, the
     * same value the plain REST headers carry.
     */
    method HttpHeaders(base: map<string, string>) returns (headers: map<string, string>)
      ensures headers.Keys == base.Keys + {AuthorizationKey}
      ensures headers[AuthorizationKey] == Bearer(accessToken) == RestHeaders()[AuthorizationKey]
      ensures forall k :: k in base && k != AuthorizationKey ==> headers[k] == base[k]
    {
      headers := base;
      headers := headers[AuthorizationKey := Bearer(accessToken)];
    }

    /**
     * Response validation: a 404 passes whatever else the response holds;
     * every other response is judged by the base validator alone.
     */
    static function ValidateResponse(response: Response, baseValidate: Response -> Outcome<ApiError>): (r: Outcome<ApiError>)
      ensures response.status == StatusNotFound ==> r == Pass
      ensures response.status != StatusNotFound ==> r == baseValidate(response)
    {
      if response.status == StatusNotFound then Pass else baseValidate(response)
    }
  }

  /** The only responses a 404-tolerant client lets through that the base would reject are 404s. */
  lemma NotFoundIsTheOnlyException(response: Response, baseValidate: Response -> Outcome<ApiError>)
    requires baseValidate(response).Fail?
    ensures SalesforceStream.ValidateResponse(response, baseValidate).Pass? <==> response.status == StatusNotFound
  {
  }
}
