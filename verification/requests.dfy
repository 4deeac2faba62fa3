/** The request builder of `src/requests.rs`: an immutable record of base
    URL, API prefix, endpoint and query pairs, and the address `get` hands
    to the URL parser before the network call. */
module Requests {
  import opened Wrappers

  const BASE_URL: string := "https://statsapi.mlb.com"
  const DEFAULT_API: string := "api/v1/"

  datatype Request = Request(
    baseUrl: string,
    api: string,
    endpoint: string,
    params: seq<(string, string)>)

  /** What `get` passes to the URL library: the base string alone when there
      are no query pairs, the base string with the pairs otherwise. */
  datatype Address =
    | Plain(base: string)
    | WithQuery(base: string, query: seq<(string, string)>)

  /** Failure of a fetch: URL parsing, transport, HTTP status or body
      decoding. The code forwards these through `anyhow` without looking. */
  datatype FetchError = UrlError | TransportError | StatusError | BodyDecodeError

  /** The request every builder chain starts from. */
  function New(): (r: Request)
    ensures r.baseUrl == BASE_URL && r.api == DEFAULT_API
    ensures r.endpoint == "" && r.params == []
  {
    Request(BASE_URL, DEFAULT_API, "", [])
  }

  /** The `Default` instance, which delegates to `New`. */
  function Default(): (r: Request)
    ensures r == New()
    ensures r.baseUrl == BASE_URL && r.api == DEFAULT_API
    ensures r.endpoint == "" && r.params == []
  {
    New()
  }

  function WithEndpoint(req: Request, endpoint: string): (r: Request)
    ensures r.endpoint == endpoint
    ensures r.baseUrl == req.baseUrl && r.api == req.api && r.params == req.params
  {
    req.(endpoint := endpoint)
  }

  /** Replaces the query pairs by `params`, in iteration order; earlier pairs
      are discarded, not extended. */
  function WithParams(req: Request, params: seq<(string, string)>): (r: Request)
    ensures r.params == params
    ensures r.baseUrl == req.baseUrl && r.api == req.api && r.endpoint == req.endpoint
  {
    req.(params := params)
  }

  function WithApi(req: Request, api: string): (r: Request)
    ensures r.api == api
    ensures r.baseUrl == req.baseUrl && r.endpoint == req.endpoint && r.params == req.params
  {
    req.(api := api)
  }

  /** The base string `get` formats: base URL, a slash, then the API prefix
      and the endpoint with nothing between them. */
  function BaseAddress(req: Request): (s: string)
    ensures |s| == |req.baseUrl| + 1 + |req.api| + |req.endpoint|
    ensures s[..|req.baseUrl|] == req.baseUrl
    ensures s[|req.baseUrl|] == '/'
    ensures s[|req.baseUrl| + 1..|req.baseUrl| + 1 + |req.api|] == req.api
    ensures s[|req.baseUrl| + 1 + |req.api|..] == req.endpoint
  {
    var s := req.baseUrl + "/" + req.api + req.endpoint;
    assert s[|req.baseUrl| + 1..|req.baseUrl| + 1 + |req.api|] == req.api;
    s
  }

  /** The address requested: the query pairs are attached only when there is
      at least one of them. */
  function Target(req: Request): (a: Address)
    ensures a.base == BaseAddress(req)
    ensures a.WithQuery? <==> |req.params| > 0
    ensures a.WithQuery? ==> a.query == req.params
  {
    if |req.params| == 0 then Plain(BaseAddress(req))
    else WithQuery(BaseAddress(req), req.params)
  }

  /** `get`: the transport answers for the address the request denotes. */
  function Get<T>(req: Request, transport: Address -> Result<T, FetchError>): (r: Result<T, FetchError>)
    ensures |req.params| == 0 ==> r == transport(Plain(req.baseUrl + "/" + req.api + req.endpoint))
    ensures |req.params| > 0 ==> r == transport(WithQuery(req.baseUrl + "/" + req.api + req.endpoint, req.params))
  {
    transport(Target(req))
  }

  /** Setting the endpoint and setting the API prefix commute. */
  lemma EndpointApiCommute(req: Request, endpoint: string, api: string)
    ensures WithApi(WithEndpoint(req, endpoint), api) == WithEndpoint(WithApi(req, api), endpoint)
  {
  }

  /** A later `with_params` overrides an earlier one entirely. */
  lemma ParamsLastWins(req: Request, p: seq<(string, string)>, q: seq<(string, string)>)
    ensures WithParams(WithParams(req, p), q) == WithParams(req, q)
  {
  }

  /** Two requests denote the same base string when they agree on every
      part of it; the base string does not depend on the query pairs. */
  lemma BaseIgnoresParams(req: Request, params: seq<(string, string)>)
    ensures BaseAddress(WithParams(req, params)) == BaseAddress(req)
  {
  }

  /** A request built from `new()` with only an endpoint addresses the
      versioned API path. */
  lemma DefaultApiAddress(endpoint: string)
    ensures Target(WithEndpoint(New(), endpoint)) == Plain("https://statsapi.mlb.com/api/v1/" + endpoint)
  {
  }
}
