/**
 * The SearXNG provider: a self-hosted meta-search instance whose URL comes
 * from the environment.  The HTTP request is a parameter; the model covers
 * the URL normalisation, the status and failure handling and the loop that
 * filters and caps the results.
 */
module SearXNG {
  import opened Wrappers
  import opened Errors
  import opened PyStr
  import opened SearchBase

  const SearXNG: SearchProvider := SearchProvider("searxng", false, Some(["SEARXNG_URL"]))

  const UrlVariable: string := "SEARXNG_URL"

  const UrlNotSetMessage: string :=
    "SEARXNG_URL environment variable not set. Set it to your SearXNG instance URL (e.g., http://localhost:8888)"

  const RequestFailedPrefix: string := "SearXNG request failed. Is your instance URL correct? Error: "
  const SearchFailedPrefix: string := "SearXNG search failed: "

  /** One entry of the JSON `results`: its string fields and its numeric `score`, when present. */
  datatype Item = Item(fields: map<string, string>, score: Option<real>)

  /** The JSON body: its `results` list, `None` when the key is missing. */
  datatype Data = Data(results: Option<seq<Item>>)

  /** The request: the search URL and the query in, the response or the exception out. */
  type Request = (string, string) -> Result<HttpResponse<Data>, RequestError>

  /** The endpoint: the instance URL with every trailing `/` removed, then `/search`. */
  function SearchUrl(base: string): (r: string)
    ensures r == RStripChar(base, '/') + "/search"
    ensures |r| >= 7 && r[|r| - 7..] == "/search"
  {
    RStripChar(base, '/') + "/search"
  }

  /** The result built from an entry: missing strings become "", the score is kept. */
  function ToResult(item: Item): (r: SearchResult)
    ensures r.url == DictGet(item.fields, "url", "") && r.title == DictGet(item.fields, "title", "")
    ensures r.content == DictGet(item.fields, "content", "") && r.score == item.score
  {
    SearchResult(DictGet(item.fields, "url", ""), DictGet(item.fields, "title", ""),
                 DictGet(item.fields, "content", ""), item.score)
  }

  /** The exception the response handling raises for a status other than 200, once re-wrapped. */
  function StatusError(resp: HttpResponse<Data>): Exception {
    SearchProviderError(SearchFailedPrefix + "SearXNG returned status " + NatToString(resp.status) + ": " + resp.text)
  }

  /**
   * What `search(query, max_results, excluded_domains)` returns or raises.
   * The status error is raised inside the `try` and so is re-wrapped by its
   * catch-all handler.
   */
  function SearchOutcome(query: string, maxResults: int, excluded: Option<seq<string>>, env: Env,
                         request: Request): (r: Result<seq<SearchResult>, Exception>)
    ensures r.Failure? ==> r.error.SearchProviderError?
    ensures r.Success? <==> (EnvSet(env, UrlVariable) && request(SearchUrl(env[UrlVariable]), query).Success?
                             && request(SearchUrl(env[UrlVariable]), query).value.status == 200)
  {
    if !EnvSet(env, UrlVariable) then Failure(SearchProviderError(UrlNotSetMessage))
    else
      match request(SearchUrl(env[UrlVariable]), query)
      case Failure(ClientError(m)) => Failure(SearchProviderError(RequestFailedPrefix + m))
      case Failure(OtherError(m)) => Failure(SearchProviderError(SearchFailedPrefix + m))
      case Success(resp) =>
        if resp.status != 200 then Failure(StatusError(resp))
        else Success(FirstKept(Converted(resp.data.results.GetOr([]), ToResult), excluded.GetOr([]), maxResults))
  }

  /** `search`, with its loop over the response entries. */
  method Search(query: string, maxResults: int, excluded: Option<seq<string>>, env: Env, request: Request)
    returns (r: Result<seq<SearchResult>, Exception>)
    ensures r == SearchOutcome(query, maxResults, excluded, env, request)
  {
    if !EnvSet(env, UrlVariable) {
      return Failure(SearchProviderError(UrlNotSetMessage));
    }
    var response := request(SearchUrl(env[UrlVariable]), query);
    if response.Failure? {
      match response.error
      case ClientError(m) => return Failure(SearchProviderError(RequestFailedPrefix + m));
      case OtherError(m) => return Failure(SearchProviderError(SearchFailedPrefix + m));
    }
    var resp := response.value;
    if resp.status != 200 {
      return Failure(StatusError(resp));
    }
    var items := resp.data.results.GetOr([]);
    var results := ParseResults(items, ToResult, maxResults, excluded.GetOr([]));
    r := Success(results);
  }

  /** Without the instance URL nothing is requested: the call raises at once. */
  lemma SearchNeedsUrl(query: string, maxResults: int, excluded: Option<seq<string>>, env: Env, request: Request)
    requires !EnvSet(env, UrlVariable)
    ensures SearchOutcome(query, maxResults, excluded, env, request) == Failure(SearchProviderError(UrlNotSetMessage))
  {
  }
}
