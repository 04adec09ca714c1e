/**
 * The Storefront GraphQL client: where host and token come from, when a
 * query is refused, and the HTTP request built for a query.
 *
 * The HTTP POST itself (with `raise_for_status` and JSON decoding) is the
 * `Backend` oracle: it receives the request the client built and answers
 * with an `Outcome`, either a decoded response body or a raised exception.
 */
module GraphqlClient {
  import opened Wrappers
  import opened Text

  /** The environment read at import time: `SHOPIFY_STORE_NAME`,
   *  `SHOPIFY_STOREFRONT_ACCESS_TOKEN` and `SHOPIFY_API_VERSION`. */
  datatype Env = Env(store: Option<string>, token: Option<string>, apiVersionVar: Option<string>)

  /** DEFAULT_API_VERSION: `os.getenv("SHOPIFY_API_VERSION", "2025-04")`. */
  function DefaultApiVersion(env: Env): string
  {
    env.apiVersionVar.GetOr("2025-04")
  }

  /** DEFAULT_HEADERS. */
  const DefaultHeaders: map<string, string> := map["User-Agent" := "ShopifyMCP/0.2 (+https://example.com)"]

  const TokenHeader := "X-Shopify-Storefront-Access-Token"

  const MissingCredentials := "Missing host and/or token"

  /** Python truthiness of an optional string: present and non-empty. */
  predicate Truthy(s: Option<string>)
  {
    s.Some? && s.value != ""
  }

  /** `host or (f"{ENV_STORE}.myshopify.com" if ENV_STORE else None)`. */
  function ResolveHost(host: Option<string>, env: Env): (r: Option<string>)
    ensures Truthy(r) <==> Truthy(host) || Truthy(env.store)
    ensures Truthy(host) ==> r == host
    ensures !Truthy(host) && r.Some? ==> env.store.Some? && r.value == env.store.value + ".myshopify.com"
  {
    if Truthy(host) then host
    else if Truthy(env.store) then Some(env.store.value + ".myshopify.com")
    else None
  }

  /** `token or ENV_TOKEN`. */
  function ResolveToken(token: Option<string>, env: Env): (r: Option<string>)
    ensures Truthy(r) <==> Truthy(token) || Truthy(env.token)
    ensures Truthy(token) ==> r == token
    ensures !Truthy(token) ==> r == env.token
  {
    if Truthy(token) then token else env.token
  }

  /** GraphQL variables; each value stands for its JSON text. */
  type Variables = map<string, string>

  /** Python truthiness of `variables`: present and not an empty dict. */
  predicate HasVariables(v: Option<Variables>)
  {
    v.Some? && |v.value| > 0
  }

  /** The JSON body `{"query": ..., "variables": ...}`; `variables` is the optional key. */
  datatype Payload = Payload(query: string, variables: Option<Variables>)

  datatype HttpRequest = HttpRequest(url: string, headers: map<string, string>, payload: Payload)

  /** The `errors` entry of a response: missing, `null`, or a list of error objects,
   *  each reduced to its `message` (`""` when the object has none). */
  datatype ErrorsField = NoErrorsKey | NullErrors | ErrorList(messages: seq<string>)

  /** A decoded JSON response object: its `data` (as JSON text, `None` when missing or
   *  null), its `errors`, whether it has any key other than `errors`, and whether its
   *  serialisation contains the text `__schema`. */
  datatype Response = Response(data: Option<string>, errors: ErrorsField, otherKeys: bool, mentionsSchema: bool)

  /** What `await client.execute(...)` does: raise (with `str(exc)`) or return a response. */
  datatype Outcome = Raised(message: string) | Returned(response: Response)

  /** The platform API: answers the request it is sent. */
  type Backend = HttpRequest -> Outcome

  /** `f"https://{host}/api/{api_version}/graphql.json"`. */
  function Endpoint(host: string, apiVersion: string): string
  {
    "https://" + host + "/api/" + apiVersion + "/graphql.json"
  }

  /** Index of the first `c` in `s`, or `|s|`. */
  function IndexOf(s: string, c: char): (r: nat)
    ensures r <= |s|
    ensures forall k :: 0 <= k < r ==> s[k] != c
    ensures r < |s| ==> s[r] == c
    decreases |s|
  {
    if |s| == 0 then 0 else if s[0] == c then 0 else 1 + IndexOf(s[1..], c)
  }

  /** Reads host and API version back out of an endpoint URL. */
  function ParseEndpoint(url: string): Option<(string, string)>
  {
    if |url| >= 21 && StartsWith(url, "https://") && EndsWith(url, "/graphql.json") then
      var mid := url[8..|url| - 13];
      var k := IndexOf(mid, '/');
      if OccursAt(mid, k, "/api/") then Some((mid[..k], mid[k + 5..])) else None
    else None
  }

  /** The endpoint determines host and API version, for any host without a slash. */
  lemma EndpointRoundTrip(host: string, apiVersion: string)
    requires '/' !in host
    ensures ParseEndpoint(Endpoint(host, apiVersion)) == Some((host, apiVersion))
  {
    var url := Endpoint(host, apiVersion);
    var mid := host + "/api/" + apiVersion;
    assert url == "https://" + mid + "/graphql.json";
    assert url[8..|url| - 13] == mid;
    assert EndsWith(url, "/graphql.json") by {
      assert url[|url| - 13..] == "/graphql.json";
    }
    assert IndexOf(mid, '/') == |host| by {
      assert mid[|host|] == '/';
      forall k | 0 <= k < |host| ensures mid[k] != '/' {
        assert mid[k] == host[k];
      }
      IndexOfIs(mid, '/', |host|);
    }
    assert mid[|host|..|host| + 5] == "/api/";
    assert mid[..|host|] == host;
    assert mid[|host| + 5..] == apiVersion;
  }

  lemma {:induction false} IndexOfIs(s: string, c: char, r: nat)
    requires r < |s| && s[r] == c && forall k :: 0 <= k < r ==> s[k] != c
    ensures IndexOf(s, c) == r
    decreases r
  {
    if r > 0 {
      assert s[1..][r - 1] == c;
      IndexOfIs(s[1..], c, r - 1);
    }
  }

  /** The headers of `execute`: the token, the JSON content type, then DEFAULT_HEADERS. */
  function RequestHeaders(token: string): (h: map<string, string>)
    ensures h.Keys == {TokenHeader, "Content-Type"} + DefaultHeaders.Keys
    ensures h[TokenHeader] == token && h["Content-Type"] == "application/json"
    ensures forall k :: k in DefaultHeaders ==> h[k] == DefaultHeaders[k]
  {
    map[TokenHeader := token, "Content-Type" := "application/json"] + DefaultHeaders
  }

  /** The payload of `execute`: `variables` is sent only when it is truthy. */
  function RequestPayload(query: string, variables: Option<Variables>): (p: Payload)
    ensures p.query == query
    ensures p.variables.Some? <==> HasVariables(variables)
    ensures p.variables.Some? ==> p.variables == variables
  {
    if HasVariables(variables) then Payload(query, variables) else Payload(query, None)
  }

  function BuildRequest(host: string, token: string, apiVersion: string, query: string, variables: Option<Variables>): HttpRequest
  {
    HttpRequest(Endpoint(host, apiVersion), RequestHeaders(token), RequestPayload(query, variables))
  }

  /** What `execute` yields for a client with these fields: the credential check,
   *  then the backend's answer to the built request. */
  function ExecuteOutcome(host: Option<string>, token: Option<string>, apiVersion: string,
                          query: string, variables: Option<Variables>, backend: Backend): Outcome
  {
    if !Truthy(host) || !Truthy(token) then Raised(MissingCredentials)
    else backend(BuildRequest(host.value, token.value, apiVersion, query, variables))
  }

  /** GraphQLClient: the (host, token, api_version) triple of one API session. */
  class GraphQLClient {
    var host: Option<string>
    var token: Option<string>
    var apiVersion: string

    /** `__init__`: the given host and token, or the environment's, and the version as given. */
    constructor (host: Option<string>, token: Option<string>, apiVersion: string, env: Env)
      ensures this.host == ResolveHost(host, env)
      ensures this.token == ResolveToken(token, env)
      ensures this.apiVersion == apiVersion
    {
      this.host := ResolveHost(host, env);
      this.token := ResolveToken(token, env);
      this.apiVersion := apiVersion;
    }

    /** `execute`: refuses before any request when host or token is missing; otherwise
     *  POSTs the query to the endpoint and returns the backend's answer. */
    method Execute(query: string, variables: Option<Variables>, backend: Backend) returns (o: Outcome)
      ensures o == ExecuteOutcome(host, token, apiVersion, query, variables, backend)
      ensures !Truthy(host) || !Truthy(token) ==> o == Raised(MissingCredentials)
      ensures Truthy(host) && Truthy(token) ==>
                o == backend(HttpRequest(Endpoint(host.value, apiVersion), RequestHeaders(token.value),
                                         RequestPayload(query, variables)))
    {
      if !Truthy(host) || !Truthy(token) {
        return Raised(MissingCredentials);
      }
      var headers := RequestHeaders(token.value);
      var payload := Payload(query, None);
      if HasVariables(variables) {
        payload := payload.(variables := variables);
      }
      o := backend(HttpRequest(Endpoint(host.value, apiVersion), headers, payload));
    }
  }
}
