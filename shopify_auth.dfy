/** lib/shopify-auth.ts: the OpenID discovery cache held in module state, and the
    token-endpoint requests of the authorization-code grant (section 4.1.3 of
    RFC 6749, with the `code_verifier` of section 4.5 of RFC 7636), the
    refresh grant (section 6 of RFC 6749) and session revocation. The HTTP
    exchanges themselves are inputs: what the server answered. */
module ShopifyAuth {
  import opened Wrappers

  datatype OpenIdConfig = OpenIdConfig(
    authorization_endpoint: string,
    token_endpoint: string,
    end_session_endpoint: string,
    jwks_uri: string,
    issuer: string)

  /** The answer to the discovery `fetch`: a rejected fetch, or a response with
      its `ok` flag and the result of `res.json()` (an error when the body is not
      JSON). */
  datatype DiscoveryResponse =
    | Unreachable(reason: string)
    | Discovery(ok: bool, json: Result<OpenIdConfig, string>)

  const DiscoveryFailed := "Failed to fetch OpenID configuration"

  /** One `getOpenIDConfig()` call against the cache value `cached`: the new
      cache value, what the call returns or throws, and whether it fetched. */
  datatype ConfigLookup = ConfigLookup(cached: Option<OpenIdConfig>, result: Result<OpenIdConfig, string>, fetched: bool)

  function LookupConfig(cached: Option<OpenIdConfig>, response: DiscoveryResponse): (r: ConfigLookup)
    // a cached value is returned as is, without a fetch
    ensures cached.Some? ==> r == ConfigLookup(cached, Ok(cached.value), false)
    // with an empty cache the call fetches, and the cache is filled exactly when the call succeeds
    ensures cached.None? ==> r.fetched && (r.cached.Some? <==> r.result.Ok?)
    ensures cached.None? && r.result.Ok? ==> r.cached == Some(r.result.value)
    // a non-ok response throws and leaves the cache empty
    ensures cached.None? && response.Discovery? && !response.ok ==> r.result == Err(DiscoveryFailed) && r.cached.None?
    // a successful call returns the document the server sent
    ensures r.fetched && r.result.Ok? ==> response == Discovery(true, Ok(r.result.value))
  {
    if cached.Some? then ConfigLookup(cached, Ok(cached.value), false)
    else match response
      case Unreachable(reason) => ConfigLookup(None, Err(reason), true)
      case Discovery(ok, json) =>
        if !ok then ConfigLookup(None, Err(DiscoveryFailed), true)
        else match json
          case Err(e) => ConfigLookup(None, Err(e), true)
          case Ok(config) => ConfigLookup(Some(config), Ok(config), true)
  }

  /** The results of successive `getOpenIDConfig()` calls in one process, the
      i-th call answered by `responses[i]` if it fetches. */
  function ConfigRun(cached: Option<OpenIdConfig>, responses: seq<DiscoveryResponse>): (r: seq<Result<OpenIdConfig, string>>)
    ensures |r| == |responses|
    decreases |responses|
  {
    if responses == [] then []
    else
      var step := LookupConfig(cached, responses[0]);
      [step.result] + ConfigRun(step.cached, responses[1..])
  }

  /** Once a call has succeeded, every later call returns the same document:
      nothing ever clears the cache. */
  lemma {:induction false} ConfigStable(cached: Option<OpenIdConfig>, responses: seq<DiscoveryResponse>, i: nat, j: nat)
    requires i <= j < |responses|
    requires ConfigRun(cached, responses)[i].Ok?
    ensures ConfigRun(cached, responses)[j] == ConfigRun(cached, responses)[i]
    decreases |responses|
  {
    var step := LookupConfig(cached, responses[0]);
    if i == 0 {
      if j > 0 {
        CachedRun(step.result.value, responses[1..], j - 1);
      }
    } else {
      ConfigStable(step.cached, responses[1..], i - 1, j - 1);
    }
  }

  lemma {:induction false} CachedRun(config: OpenIdConfig, responses: seq<DiscoveryResponse>, k: nat)
    requires k < |responses|
    ensures ConfigRun(Some(config), responses)[k] == Ok(config)
    decreases |responses|
  {
    if k > 0 {
      CachedRun(config, responses[1..], k - 1);
    }
  }

  /** `let cachedConfig` (lib/shopify-auth.ts:11) and `getOpenIDConfig`. */
  class OpenIdConfigCache {
    var cachedConfig: Option<OpenIdConfig>

    /** Module load: the cache starts empty. */
    constructor ()
      ensures cachedConfig.None?
    {
      cachedConfig := None;
    }

    method GetOpenIdConfig(response: DiscoveryResponse) returns (result: Result<OpenIdConfig, string>, fetched: bool)
      modifies this
      ensures ConfigLookup(cachedConfig, result, fetched) == LookupConfig(old(cachedConfig), response)
    {
      if cachedConfig.Some? {
        return Ok(cachedConfig.value), false;
      }
      fetched := true;
      match response
      case Unreachable(reason) =>
        result := Err(reason);
      case Discovery(ok, json) =>
        if !ok {
          result := Err(DiscoveryFailed);
          return;
        }
        match json
        case Err(e) =>
          result := Err(e);
        case Ok(config) =>
          cachedConfig := Some(config);
          result := Ok(config);
    }
  }

  // ---------------------------------------------------------------------------
  // Token endpoint requests

  datatype TokenResponse = TokenResponse(
    access_token: string,
    refresh_token: string,
    id_token: string,
    expires_in: int,   // seconds
    token_type: string)

  /** The client id and secret from the deployment's environment. */
  datatype Credentials = Credentials(clientId: string, clientSecret: string)

  /** The pairs given to `new URLSearchParams({...})`, in insertion order. */
  type FormParams = seq<(string, string)>

  /** `params.get(key)`: the first value stored under `key`. */
  function Param(params: FormParams, key: string): (r: Option<string>)
    ensures r.Some? <==> exists i :: 0 <= i < |params| && params[i].0 == key
    decreases |params|
  {
    if params == [] then None
    else if params[0].0 == key then Some(params[0].1)
    else Param(params[1..], key)
  }

  function Keys(params: FormParams): (ks: seq<string>)
    ensures |ks| == |params|
  {
    seq(|params|, i requires 0 <= i < |params| => params[i].0)
  }

  predicate DistinctKeys(params: FormParams) {
    forall i, j :: 0 <= i < j < |params| ==> params[i].0 != params[j].0
  }

  /** With distinct keys, `get` finds the value stored at each position. */
  lemma {:induction false} ParamAt(params: FormParams, i: nat)
    requires DistinctKeys(params) && i < |params|
    ensures Param(params, params[i].0) == Some(params[i].1)
    decreases |params|
  {
    if i > 0 {
      ParamAt(params[1..], i - 1);
    }
  }

  /** The body of the authorization-code exchange (lib/shopify-auth.ts:43-50). */
  function ExchangeParams(c: Credentials, code: string, codeVerifier: string, redirectUri: string): (p: FormParams)
    ensures DistinctKeys(p)
    ensures Keys(p) == ["grant_type", "client_id", "client_secret", "code", "code_verifier", "redirect_uri"]
    ensures Param(p, "grant_type") == Some("authorization_code")
    ensures Param(p, "client_id") == Some(c.clientId) && Param(p, "client_secret") == Some(c.clientSecret)
    ensures Param(p, "code") == Some(code) && Param(p, "code_verifier") == Some(codeVerifier)
    ensures Param(p, "redirect_uri") == Some(redirectUri)
  {
    var p := [("grant_type", "authorization_code"), ("client_id", c.clientId), ("client_secret", c.clientSecret),
              ("code", code), ("code_verifier", codeVerifier), ("redirect_uri", redirectUri)];
    ParamAt(p, 1); ParamAt(p, 2); ParamAt(p, 3); ParamAt(p, 4); ParamAt(p, 5);
    p
  }

  /** The body of the refresh grant (lib/shopify-auth.ts:70-75). */
  function RefreshParams(c: Credentials, refreshToken: string): (p: FormParams)
    ensures DistinctKeys(p)
    ensures Keys(p) == ["grant_type", "client_id", "client_secret", "refresh_token"]
    ensures Param(p, "grant_type") == Some("refresh_token")
    ensures Param(p, "client_id") == Some(c.clientId) && Param(p, "client_secret") == Some(c.clientSecret)
    ensures Param(p, "refresh_token") == Some(refreshToken)
  {
    var p := [("grant_type", "refresh_token"), ("client_id", c.clientId), ("client_secret", c.clientSecret),
              ("refresh_token", refreshToken)];
    ParamAt(p, 1); ParamAt(p, 2); ParamAt(p, 3);
    p
  }

  /** The body of the end-session request (lib/shopify-auth.ts:93-96). */
  function RevokeParams(c: Credentials, idToken: string): (p: FormParams)
    ensures DistinctKeys(p)
    ensures Keys(p) == ["id_token_hint", "client_id"]
    ensures Param(p, "id_token_hint") == Some(idToken) && Param(p, "client_id") == Some(c.clientId)
    ensures Param(p, "client_secret").None?
  {
    [("id_token_hint", idToken), ("client_id", c.clientId)]
  }

  /** A form POST sent to an endpoint of the identity provider. */
  datatype ProviderRequest = ProviderRequest(endpoint: string, params: FormParams)

  /** The token endpoint's answer: a rejected fetch, or a response with its `ok`
      flag, the body as text and the result of parsing it as JSON. */
  datatype TokenHttpResponse =
    | NoResponse(reason: string)
    | TokenHttp(ok: bool, text: string, json: Result<TokenResponse, string>)

  /** What `exchangeCodeForTokens` returns or throws once it has sent the request. */
  function ExchangeOutcome(response: TokenHttpResponse): (r: Result<TokenResponse, string>)
    ensures response.TokenHttp? && !response.ok ==> r == Err("Token exchange failed: " + response.text)
    ensures r.Ok? <==> response.TokenHttp? && response.ok && response.json.Ok?
    ensures r.Ok? ==> r.value == response.json.value
  {
    match response
    case NoResponse(reason) => Err(reason)
    case TokenHttp(ok, text, json) => if !ok then Err("Token exchange failed: " + text) else json
  }

  /** What `refreshAccessToken` returns or throws once it has sent the request. */
  function RefreshOutcome(response: TokenHttpResponse): (r: Result<TokenResponse, string>)
    ensures response.TokenHttp? && !response.ok ==> r == Err("Token refresh failed")
    ensures r.Ok? <==> response.TokenHttp? && response.ok && response.json.Ok?
    ensures r.Ok? ==> r.value == response.json.value
  {
    match response
    case NoResponse(reason) => Err(reason)
    case TokenHttp(ok, _, json) => if !ok then Err("Token refresh failed") else json
  }

  /** `exchangeCodeForTokens(code, codeVerifier, redirectUri)`: looks the
      configuration up, then posts the exchange to its token endpoint. */
  method ExchangeCodeForTokens(cache: OpenIdConfigCache, discovery: DiscoveryResponse, c: Credentials,
                               code: string, codeVerifier: string, redirectUri: string,
                               response: TokenHttpResponse)
    returns (r: Result<TokenResponse, string>, sent: Option<ProviderRequest>)
    modifies cache
    ensures var lookup := LookupConfig(old(cache.cachedConfig), discovery);
      && cache.cachedConfig == lookup.cached
      && (lookup.result.Err? ==> r == Err(lookup.result.error) && sent.None?)
      && (lookup.result.Ok? ==>
            && sent == Some(ProviderRequest(lookup.result.value.token_endpoint, ExchangeParams(c, code, codeVerifier, redirectUri)))
            && r == ExchangeOutcome(response))
  {
    var config, _ := cache.GetOpenIdConfig(discovery);
    if config.Err? {
      return Err(config.error), None;
    }
    var params := ExchangeParams(c, code, codeVerifier, redirectUri);
    sent := Some(ProviderRequest(config.value.token_endpoint, params));
    r := ExchangeOutcome(response);
  }

  /** `refreshAccessToken(refreshToken)`. */
  method RefreshAccessToken(cache: OpenIdConfigCache, discovery: DiscoveryResponse, c: Credentials,
                            refreshToken: string, response: TokenHttpResponse)
    returns (r: Result<TokenResponse, string>, sent: Option<ProviderRequest>)
    modifies cache
    ensures var lookup := LookupConfig(old(cache.cachedConfig), discovery);
      && cache.cachedConfig == lookup.cached
      && (lookup.result.Err? ==> r == Err(lookup.result.error) && sent.None?)
      && (lookup.result.Ok? ==>
            && sent == Some(ProviderRequest(lookup.result.value.token_endpoint, RefreshParams(c, refreshToken)))
            && r == RefreshOutcome(response))
  {
    var config, _ := cache.GetOpenIdConfig(discovery);
    if config.Err? {
      return Err(config.error), None;
    }
    sent := Some(ProviderRequest(config.value.token_endpoint, RefreshParams(c, refreshToken)));
    r := RefreshOutcome(response);
  }

  /** The end-session endpoint's answer: only a rejected fetch matters. */
  datatype RevokeResponse = RevokeUnreachable(reason: string) | RevokeAnswered(status: int)

  /** `revokeSession(idToken)`: posts the hint and the client id and resolves
      whatever status comes back; it throws only when the configuration lookup
      or the fetch itself fails. */
  method RevokeSession(cache: OpenIdConfigCache, discovery: DiscoveryResponse, c: Credentials,
                       idToken: string, response: RevokeResponse)
    returns (r: Result<(), string>, sent: Option<ProviderRequest>)
    modifies cache
    ensures var lookup := LookupConfig(old(cache.cachedConfig), discovery);
      && cache.cachedConfig == lookup.cached
      && (lookup.result.Err? ==> r == Err(lookup.result.error) && sent.None?)
      && (lookup.result.Ok? ==>
            && sent == Some(ProviderRequest(lookup.result.value.end_session_endpoint, RevokeParams(c, idToken)))
            && (r.Ok? <==> response.RevokeAnswered?))
  {
    var config, _ := cache.GetOpenIdConfig(discovery);
    if config.Err? {
      return Err(config.error), None;
    }
    sent := Some(ProviderRequest(config.value.end_session_endpoint, RevokeParams(c, idToken)));
    match response
    case RevokeUnreachable(reason) => r := Err(reason);
    case RevokeAnswered(_) => r := Ok(());
  }
}
