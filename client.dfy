/** The API client: a base URL taken from the environment registry, OAuth-signed GET
    requests against it, and the two read endpoints. The HTTP transport is an input. */
module Client {
  import opened Common
  import opened Strings
  import opened Config

  /** The four values that sign every request. */
  datatype TMAuth = TMAuth(
    consumerKey: string,
    consumerSecret: string,
    accessToken: string,
    accessTokenSecret: string)

  /** A query parameter value: the watchlist sends integers and strings. */
  datatype ParamValue = IntParam(i: int) | StrParam(s: string)

  /** A `params` dict, in insertion order. */
  type Params = seq<(string, ParamValue)>

  function ParamNames(p: Params): (ns: seq<string>)
    ensures |ns| == |p| && forall k :: 0 <= k < |p| ==> ns[k] == p[k].0
  {
    if p == [] then [] else [p[0].0] + ParamNames(p[1..])
  }

  /** `params.get(name)` on an ordered dict. */
  function Lookup(p: Params, name: string): (r: Option<ParamValue>)
    ensures r.None? <==> name !in ParamNames(p)
  {
    if p == [] then None else if p[0].0 == name then Some(p[0].1) else Lookup(p[1..], name)
  }

  /** The headers the client sets on its session. */
  const SessionHeaders: seq<(string, string)> := [("Accept", "application/json"), ("User-Agent", "trademe-sdk-poc/0.1")]

  /** One GET request as it leaves the session: the full URL, the query parameters (none
      when `params` is None), and the signing credentials and headers of the session. */
  datatype HttpRequest = HttpRequest(url: string, params: Option<Params>, auth: TMAuth, headers: seq<(string, string)>)

  datatype HttpResponse = HttpResponse(status: int, body: string)

  /** `raise_for_status()` followed by `json()` (the body is kept as text). */
  function CheckStatus(resp: HttpResponse): Result<string> {
    if 400 <= resp.status < 600 then Err(HttpError(resp.status)) else Ok(resp.body)
  }

  const ListingPrefix := "/v1/listings/"
  const WatchlistPrefix := "/v1/mytrademe/watchlist/"
  const JsonSuffix := ".json"

  /** `f"/v1/listings/{listing_id}.json"`. */
  function ListingPath(listingId: int): string {
    ListingPrefix + IntToString(listingId) + JsonSuffix
  }

  /** The listing id a listing path names, if it is one. */
  function ListingIdOf(path: string): Option<int> {
    match StripPrefix(path, ListingPrefix)
    case None => None
    case Some(rest) =>
      match StripSuffix(rest, JsonSuffix)
      case None => None
      case Some(id) => ParseInt(id)
  }

  /** The listing path names the listing it was built for. */
  lemma ListingPathNamesListing(listingId: int)
    ensures ListingIdOf(ListingPath(listingId)) == Some(listingId)
  {
    var digits := IntToString(listingId);
    assert ListingPath(listingId) == ListingPrefix + (digits + JsonSuffix);
    StripPrefixOfConcat(ListingPrefix, digits + JsonSuffix);
    StripSuffixOfConcat(digits, JsonSuffix);
    ParseIntToString(listingId);
  }

  /** Different listings are requested at different paths. */
  lemma ListingPathInjective(a: int, b: int)
    ensures ListingPath(a) == ListingPath(b) ==> a == b
  {
    ListingPathNamesListing(a);
    ListingPathNamesListing(b);
  }

  /** `f"/v1/mytrademe/watchlist/{filter}.json"`. */
  function WatchlistPath(filter: string): string {
    WatchlistPrefix + filter + JsonSuffix
  }

  /** The filter a watchlist path names, if it is one. */
  function WatchlistFilterOf(path: string): Option<string> {
    match StripPrefix(path, WatchlistPrefix)
    case None => None
    case Some(rest) => StripSuffix(rest, JsonSuffix)
  }

  /** The watchlist path names the filter it was built for. */
  lemma WatchlistPathNamesFilter(filter: string)
    ensures WatchlistFilterOf(WatchlistPath(filter)) == Some(filter)
  {
    assert WatchlistPath(filter) == WatchlistPrefix + (filter + JsonSuffix);
    StripPrefixOfConcat(WatchlistPrefix, filter + JsonSuffix);
    StripSuffixOfConcat(filter, JsonSuffix);
  }

  /** A listing path and a watchlist path are never the same request. */
  lemma ListingAndWatchlistPathsDiffer(listingId: int, filter: string)
    ensures ListingPath(listingId) != WatchlistPath(filter)
  {
    var l, w := ListingPath(listingId), WatchlistPath(filter);
    assert l[4] == 'l' && w[4] == 'm';
  }

  /** `TMClient`: fixed at construction, read by every request. */
  class TMClient {
    const baseUrl: string
    const environment: string
    const auth: TMAuth
    const headers: seq<(string, string)>

    /** The body of `__init__` once `get_environment` has succeeded. */
    constructor (auth: TMAuth, environment: string, env: Environment)
      ensures baseUrl == env.apiBase && this.environment == environment
      ensures this.auth == auth && headers == SessionHeaders
    {
      baseUrl := env.apiBase;
      this.environment := environment;
      this.auth := auth;
      headers := SessionHeaders;
    }

    /** `_get(path, params)`: the request goes to `base_url` immediately followed by the
        path, signed with the session's credentials; the result is the response body
        unless the transport fails or the status is 4xx or 5xx. */
    method Get(path: string, params: Option<Params>, transport: HttpRequest -> Result<HttpResponse>)
      returns (sent: HttpRequest, r: Result<string>)
      ensures sent.url == baseUrl + path
      ensures StripPrefix(sent.url, baseUrl) == Some(path)
      ensures sent.params == params && sent.auth == auth && sent.headers == headers
      ensures transport(sent).Err? ==> r == Err(transport(sent).error)
      ensures transport(sent).Ok? ==> (r.Err? <==> 400 <= transport(sent).value.status < 600)
      ensures transport(sent).Ok? && r.Err? ==> r.error == HttpError(transport(sent).value.status)
      ensures transport(sent).Ok? && r.Ok? ==> r.value == transport(sent).value.body
    {
      StripPrefixOfConcat(baseUrl, path);
      sent := HttpRequest(baseUrl + path, params, auth, headers);
      var resp := transport(sent);
      if resp.Err? {
        return sent, Err(resp.error);
      }
      r := CheckStatus(resp.value);
    }

    /** `get_listing(listing_id)`: a GET of the listing's path, with no query. */
    method GetListing(listingId: int, transport: HttpRequest -> Result<HttpResponse>)
      returns (sent: HttpRequest, r: Result<string>)
      ensures sent.url == baseUrl + ListingPath(listingId)
      ensures sent.params == None && sent.auth == auth && sent.headers == headers
      ensures transport(sent).Err? ==> r == Err(transport(sent).error)
      ensures transport(sent).Ok? ==> (r.Err? <==> 400 <= transport(sent).value.status < 600)
      ensures transport(sent).Ok? && r.Err? ==> r.error == HttpError(transport(sent).value.status)
      ensures transport(sent).Ok? && r.Ok? ==> r.value == transport(sent).value.body
    {
      sent, r := Get(ListingPath(listingId), None, transport);
    }

    /** `get_watchlist(filter="All", *, page=1, rows=50, category=None)`: a GET of the
        filter's watchlist path; the query always has `page` and `rows` as given and has
        `category` exactly when it is truthy. */
    method GetWatchlist(transport: HttpRequest -> Result<HttpResponse>, filter: string := "All",
                        nameonly page: int := 1, nameonly rows: int := 50,
                        nameonly category: Option<string> := None)
      returns (sent: HttpRequest, r: Result<string>)
      ensures sent.params.Some?
      ensures ParamNames(sent.params.value) == if Truthy(category) then ["page", "rows", "category"] else ["page", "rows"]
      ensures Lookup(sent.params.value, "page") == Some(IntParam(page))
      ensures Lookup(sent.params.value, "rows") == Some(IntParam(rows))
      ensures Truthy(category) ==> Lookup(sent.params.value, "category") == Some(StrParam(category.value))
      ensures sent.url == baseUrl + WatchlistPath(filter)
      ensures sent.auth == auth && sent.headers == headers
      ensures transport(sent).Err? ==> r == Err(transport(sent).error)
      ensures transport(sent).Ok? ==> (r.Err? <==> 400 <= transport(sent).value.status < 600)
      ensures transport(sent).Ok? && r.Err? ==> r.error == HttpError(transport(sent).value.status)
      ensures transport(sent).Ok? && r.Ok? ==> r.value == transport(sent).value.body
    {
      var params: Params := [("page", IntParam(page)), ("rows", IntParam(rows))];
      if Truthy(category) {
        params := params + [("category", StrParam(category.value))];
        assert Lookup(params, "category") == Some(StrParam(category.value)) by {
          var tail := [("category", StrParam(category.value))];
          assert params[1..][1..] == tail;
          assert Lookup(tail, "category") == Some(StrParam(category.value));
          assert Lookup(params[1..], "category") == Lookup(tail, "category");
        }
      }
      sent, r := Get(WatchlistPath(filter), Some(params), transport);
    }
  }

  /** `TMClient(auth, environment=...)`: construction fails exactly when the environment
      name is not registered; the base URL is that environment's API host. */
  method NewClient(auth: TMAuth, nameonly environment: string := DefaultEnvironment)
    returns (r: Result<TMClient>)
    ensures r.Err? <==> GetEnvironment(environment).Err?
    ensures r.Err? ==> r.error == GetEnvironment(environment).error
    ensures r.Ok? ==> fresh(r.value) && r.value.baseUrl == GetEnvironment(environment).value.apiBase
    ensures r.Ok? ==> r.value.environment == environment && r.value.auth == auth
    ensures r.Ok? ==> r.value.headers == SessionHeaders
  {
    var env := GetEnvironment(environment);
    if env.Err? {
      return Err(env.error);
    }
    var client := new TMClient(auth, environment, env.value);
    r := Ok(client);
  }
}
