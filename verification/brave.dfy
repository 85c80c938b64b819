/**
 * The Brave Search provider: a hosted web-search API keyed by an environment
 * variable.  The HTTP request is a parameter; the model covers the key check,
 * the status and failure handling, and the loop that filters the results
 * before the final slice.
 */
module Brave {
  import opened Wrappers
  import opened Errors
  import opened PyStr
  import opened SearchBase

  const Brave: SearchProvider := SearchProvider("brave", true, Some(["BRAVE_API_KEY"]))

  const KeyVariable: string := "BRAVE_API_KEY"

  const KeyNotSetMessage: string := "BRAVE_API_KEY environment variable not set"

  const RequestFailedPrefix: string := "Brave Search API request failed: "
  const SearchFailedPrefix: string := "Brave search failed: "

  /** The `web` object of the JSON body: its `results` list, `None` when the key is missing. */
  datatype Web = Web(results: Option<seq<map<string, string>>>)

  /** The JSON body: its `web` object, `None` when the key is missing. */
  datatype Data = Data(web: Option<Web>)

  /** The request: API key, query and `count` in, the response or the exception out. */
  type Request = (string, string, int) -> Result<HttpResponse<Data>, RequestError>

  /** `data.get("web", {}).get("results", [])`. */
  function Items(data: Data): (items: seq<map<string, string>>)
    ensures data.web.None? ==> items == []
    ensures data.web.Some? && data.web.value.results.None? ==> items == []
    ensures data.web.Some? && data.web.value.results.Some? ==> items == data.web.value.results.value
  {
    if data.web.None? then [] else data.web.value.results.GetOr([])
  }

  /** The result built from an entry: missing strings become "", the text is the `description`, no score. */
  function ToResult(item: map<string, string>): (r: SearchResult)
    ensures r.url == DictGet(item, "url", "") && r.title == DictGet(item, "title", "")
    ensures r.content == DictGet(item, "description", "") && r.score == None
  {
    Unscored(DictGet(item, "url", ""), DictGet(item, "title", ""), DictGet(item, "description", ""))
  }

  /** The exception the response handling raises for a status other than 200, once re-wrapped. */
  function StatusError(resp: HttpResponse<Data>): Exception {
    SearchProviderError(SearchFailedPrefix + "Brave API returned status " + NatToString(resp.status) + ": " + resp.text)
  }

  /**
   * What `search(query, max_results, excluded_domains)` returns or raises:
   * every kept result, then `[:max_results]`.  The status error is raised
   * inside the `try` and so is re-wrapped by its catch-all handler.
   */
  function SearchOutcome(query: string, maxResults: int, excluded: Option<seq<string>>, env: Env,
                         request: Request): (r: Result<seq<SearchResult>, Exception>)
    ensures r.Failure? ==> r.error.SearchProviderError?
    ensures r.Success? <==> (EnvSet(env, KeyVariable) && request(env[KeyVariable], query, maxResults).Success?
                             && request(env[KeyVariable], query, maxResults).value.status == 200)
  {
    if !EnvSet(env, KeyVariable) then Failure(SearchProviderError(KeyNotSetMessage))
    else
      match request(env[KeyVariable], query, maxResults)
      case Failure(ClientError(m)) => Failure(SearchProviderError(RequestFailedPrefix + m))
      case Failure(OtherError(m)) => Failure(SearchProviderError(SearchFailedPrefix + m))
      case Success(resp) =>
        if resp.status != 200 then Failure(StatusError(resp))
        else Success(SliceTo(Kept(Converted(Items(resp.data), ToResult), excluded.GetOr([])), maxResults))
  }

  /** `search`: the key check, the request, and the parsing loop. */
  method Search(query: string, maxResults: int, excluded: Option<seq<string>>, env: Env, request: Request)
    returns (r: Result<seq<SearchResult>, Exception>)
    ensures r == SearchOutcome(query, maxResults, excluded, env, request)
  {
    if !EnvSet(env, KeyVariable) {
      return Failure(SearchProviderError(KeyNotSetMessage));
    }
    var response := request(env[KeyVariable], query, maxResults);
    if response.Failure? {
      match response.error
      case ClientError(m) => return Failure(SearchProviderError(RequestFailedPrefix + m));
      case OtherError(m) => return Failure(SearchProviderError(SearchFailedPrefix + m));
    }
    var resp := response.value;
    if resp.status != 200 {
      return Failure(StatusError(resp));
    }
    var results := ParseResults(Items(resp.data), maxResults, excluded.GetOr([]));
    r := Success(results);
  }

  /** The parsing loop of `search`: convert and skip excluded URLs, then slice to `max_results`. */
  method ParseResults(items: seq<map<string, string>>, maxResults: int, excluded: seq<string>)
    returns (results: seq<SearchResult>)
    ensures results == SliceTo(Kept(Converted(items, ToResult), excluded), maxResults)
  {
    ghost var all := Converted(items, ToResult);
    var kept: seq<SearchResult> := [];
    for i := 0 to |items|
      invariant kept == Kept(all[..i], excluded)
    {
      var result := ToResult(items[i]);
      assert result == all[i];
      assert all[..i + 1] == all[..i] + [result];
      KeptSnoc(all[..i], result, excluded);
      // The `if excluded_domains:` guard only spares a scan of an empty list.
      var skip := DomainExcluded(result.url, excluded);
      if !skip {
        kept := kept + [result];
      }
    }
    assert all[..|items|] == all;
    results := SliceTo(kept, maxResults);
  }

  /**
   * A successful search returns results in response order with no excluded
   * domain; a non-negative `max_results` keeps the first that many, while a
   * negative one drops that many from the end, as Python's slice does.
   */
  lemma SearchResultsShape(results: seq<SearchResult>, excluded: seq<string>, maxResults: int)
    ensures var r := SliceTo(Kept(results, excluded), maxResults);
            var n := |Kept(results, excluded)|;
            && Subsequence(r, results)
            && (forall x :: x in r ==> x in results && !Excluded(x.url, excluded))
            && (maxResults >= 0 ==> |r| == if n < maxResults then n else maxResults)
            && (maxResults < 0 ==> |r| == if n + maxResults > 0 then n + maxResults else 0)
  {
    var kept := Kept(results, excluded);
    var r := SliceTo(kept, maxResults);
    KeptOrdered(results, excluded);
    KeptMembers(results, excluded);
    PrefixSubsequence(r, kept, results);
    forall x | x in r ensures x in results && !Excluded(x.url, excluded) {
      assert x in kept;
    }
  }
}
