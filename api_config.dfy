/** The API configuration service (`src/services/apiConfig.ts`): the base
    URL chosen from the build environment, endpoint URLs built on it, and
    the headers of an authenticated request. */
module ApiConfig {
  import opened Js

  /** The build-time environment: whether this is a production build and the
      two configured API URLs (`None` when unset). */
  datatype Env = Env(prod: bool, prodApiUrl: Option<string>, devApiUrl: Option<string>)

  const DefaultDevApiUrl: string := "http://localhost:8000"

  /** `getApiBaseUrl`: in production the production URL, or the empty string
      (same-origin requests) when it is unset or empty; otherwise the
      development URL, or the local default. */
  function GetApiBaseUrl(env: Env): (base: string)
    ensures env.prod ==> base == (if Present(env.prodApiUrl) then env.prodApiUrl.value else "")
    ensures !env.prod ==> base == (if Present(env.devApiUrl) then env.devApiUrl.value else DefaultDevApiUrl)
    ensures !env.prod ==> base != ""
    ensures base == "" ==> env.prod && !Present(env.prodApiUrl)
  {
    if env.prod then
      if Present(env.prodApiUrl) then env.prodApiUrl.value else ""
    else if Present(env.devApiUrl) then env.devApiUrl.value
    else DefaultDevApiUrl
  }

  predicate StartsWithSlash(s: string) {
    |s| > 0 && s[0] == '/'
  }

  /** The endpoint with a leading slash: unchanged when it has one, else
      prefixed with one. */
  function FormatEndpoint(endpoint: string): (e: string)
    ensures StartsWithSlash(e)
    ensures StartsWithSlash(endpoint) ==> e == endpoint
    ensures !StartsWithSlash(endpoint) ==> e[1..] == endpoint
  {
    if StartsWithSlash(endpoint) then endpoint else "/" + endpoint
  }

  /** `getApiUrl`: the base URL (computed once from the environment) followed
      by the slash-prefixed endpoint. */
  function GetApiUrl(env: Env, endpoint: string): (url: string)
    ensures var base := GetApiBaseUrl(env);
            && |url| > |base| && url[..|base|] == base && url[|base|] == '/'
            && (StartsWithSlash(endpoint) ==> url == base + endpoint)
            && (!StartsWithSlash(endpoint) ==> url == base + "/" + endpoint)
  {
    GetApiBaseUrl(env) + FormatEndpoint(endpoint)
  }

  /** Formatting an already formatted endpoint adds no second slash, so
      passing either form of an endpoint gives the same URL. */
  lemma FormatIdempotent(env: Env, endpoint: string)
    ensures FormatEndpoint(FormatEndpoint(endpoint)) == FormatEndpoint(endpoint)
    ensures GetApiUrl(env, FormatEndpoint(endpoint)) == GetApiUrl(env, endpoint)
  {
  }

  /** The endpoint can be read back from the URL: the part after the base,
      with the slash `getApiUrl` added removed again. */
  lemma EndpointRecoverable(env: Env, endpoint: string)
    ensures var base := GetApiBaseUrl(env);
            var rest := GetApiUrl(env, endpoint)[|base|..];
            if StartsWithSlash(endpoint) then rest == endpoint else rest[1..] == endpoint
  {
    var base := GetApiBaseUrl(env);
    var url := GetApiUrl(env, endpoint);
    assert url == base + FormatEndpoint(endpoint);
    assert url[|base|..] == FormatEndpoint(endpoint);
  }

  /** Two endpoints that differ after formatting give different URLs. */
  lemma GetApiUrlInjective(env: Env, endpoint: string, endpoint': string)
    requires FormatEndpoint(endpoint) != FormatEndpoint(endpoint')
    ensures GetApiUrl(env, endpoint) != GetApiUrl(env, endpoint')
  {
    var base := GetApiBaseUrl(env);
    assert GetApiUrl(env, endpoint)[|base|..] == FormatEndpoint(endpoint);
    assert GetApiUrl(env, endpoint')[|base|..] == FormatEndpoint(endpoint');
  }

  // ---------------------------------------------------------------------
  // Request headers

  const AuthorizationHeader: string := "Authorization"
  const AcceptHeader: string := "Accept"
  const ContentTypeHeader: string := "Content-Type"
  const JsonMediaType: string := "application/json"
  /** The prefix the client writes before the token: the `Bearer` scheme of
      section 2.1 of RFC 6750 followed by a single space. */
  const BearerPrefix: string := "Bearer "

  /** `getAuthHeaders`: a bearer credential and JSON content negotiation. */
  function GetAuthHeaders(token: string): (h: map<string, string>)
    ensures h.Keys == {AuthorizationHeader, AcceptHeader, ContentTypeHeader}
    ensures h[AuthorizationHeader] == BearerPrefix + token
    ensures h[AcceptHeader] == JsonMediaType && h[ContentTypeHeader] == JsonMediaType
  {
    map[AuthorizationHeader := BearerPrefix + token,
        AcceptHeader := JsonMediaType,
        ContentTypeHeader := JsonMediaType]
  }

  /** The token read back from an `Authorization` value of exactly the form
      the client writes: the rest after the case-sensitive `Bearer ` prefix,
      or nothing otherwise. This is not the general reading of the RFC,
      whose scheme name is case-insensitive and may be followed by several
      spaces, and whose token has a restricted alphabet. */
  function BearerToken(authorization: string): (t: Option<string>)
    ensures t.Some? <==> |authorization| >= |BearerPrefix| && authorization[..|BearerPrefix|] == BearerPrefix
    ensures t.Some? ==> authorization == BearerPrefix + t.value
  {
    if |authorization| >= |BearerPrefix| && authorization[..|BearerPrefix|] == BearerPrefix
    then Some(authorization[|BearerPrefix|..])
    else None
  }

  /** The header carries the token unchanged: reading it back gives the token. */
  lemma BearerRoundTrip(token: string)
    ensures BearerToken(GetAuthHeaders(token)[AuthorizationHeader]) == Some(token)
  {
    var v := BearerPrefix + token;
    assert v[..|BearerPrefix|] == BearerPrefix;
    assert v[|BearerPrefix|..] == token;
  }
}
