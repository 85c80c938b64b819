/**
 * The DuckDuckGo provider: no key and no configuration; it needs the optional
 * `duckduckgo-search` package.  Whether the package imports and what its
 * text search returns are parameters; the model covers the doubled request
 * size, the field fall-backs and the loop that filters and caps the results.
 */
module DuckDuckGo {
  import opened Wrappers
  import opened Errors
  import opened PyStr
  import opened SearchBase

  /** No override of the required variables: the default, empty, list. */
  const DuckDuckGo: SearchProvider := SearchProvider("duckduckgo", false, None)

  const MissingPackageMessage: string :=
    "DuckDuckGo search requires 'duckduckgo-search' package. Install with: pip install duckduckgo-search"

  const SearchFailedPrefix: string := "DuckDuckGo search failed: "

  /** `DDGS().text(query, max_results=n)`: the entries, or the `str()` of what it raised. */
  type TextSearch = (string, int) -> Result<seq<map<string, string>>, string>

  /** The result built from an entry: `href`, else `link`; `body`, else `description`; no score. */
  function ToResult(item: map<string, string>): (r: SearchResult)
    ensures "href" in item ==> r.url == item["href"]
    ensures "href" !in item ==> r.url == DictGet(item, "link", "")
    ensures "body" in item ==> r.content == item["body"]
    ensures "body" !in item ==> r.content == DictGet(item, "description", "")
    ensures r.title == DictGet(item, "title", "") && r.score == None
  {
    Unscored(DictGet(item, "href", DictGet(item, "link", "")), DictGet(item, "title", ""),
             DictGet(item, "body", DictGet(item, "description", "")))
  }

  /**
   * What `search(query, max_results, excluded_domains)` returns or raises:
   * twice `max_results` entries are asked for, then filtered and capped.
   */
  function SearchOutcome(query: string, maxResults: int, excluded: Option<seq<string>>, installed: bool,
                         text: TextSearch): (r: Result<seq<SearchResult>, Exception>)
    ensures !installed ==> r == Failure(SearchProviderError(MissingPackageMessage))
    ensures r.Failure? ==> r.error.SearchProviderError?
    ensures r.Success? <==> installed && text(query, maxResults * 2).Success?
  {
    if !installed then Failure(SearchProviderError(MissingPackageMessage))
    else
      match text(query, maxResults * 2)
      case Failure(m) => Failure(SearchProviderError(SearchFailedPrefix + m))
      case Success(items) => Success(FirstKept(Converted(items, ToResult), excluded.GetOr([]), maxResults))
  }

  /** `search`, with its loop over the returned entries. */
  method Search(query: string, maxResults: int, excluded: Option<seq<string>>, installed: bool, text: TextSearch)
    returns (r: Result<seq<SearchResult>, Exception>)
    ensures r == SearchOutcome(query, maxResults, excluded, installed, text)
  {
    if !installed {
      return Failure(SearchProviderError(MissingPackageMessage));
    }
    var response := text(query, maxResults * 2);
    if response.Failure? {
      return Failure(SearchProviderError(SearchFailedPrefix + response.error));
    }
    var results := ParseResults(response.value, ToResult, maxResults, excluded.GetOr([]));
    r := Success(results);
  }
}
