/**
 * What every search provider shares: the result record, the provider's
 * identity and required environment variables, the configuration check, and
 * the substring test the providers use to exclude domains.
 */
module SearchBase {
  import opened Wrappers
  import opened PyStr

  /** One search hit.  The score is an optional float; `None` when the backend gives none. */
  datatype SearchResult = SearchResult(url: string, title: string, content: string, score: Option<real>)

  /** A result built without a score: its score is `None`. */
  function Unscored(url: string, title: string, content: string): (r: SearchResult)
    ensures r.score == None
    ensures r.url == url && r.title == title && r.content == content
  {
    SearchResult(url, title, content, None)
  }

  /** An HTTP response as the providers read it: status, body text and decoded JSON body. */
  datatype HttpResponse<D> = HttpResponse(status: nat, text: string, data: D)

  /** How a request can raise: an `aiohttp.ClientError`, or any other exception, with its `str()`. */
  datatype RequestError = ClientError(message: string) | OtherError(message: string)

  /** `d.get(key, default)` on a JSON object of strings. */
  function DictGet(d: map<string, string>, key: string, default: string): (r: string)
    ensures key in d ==> r == d[key]
    ensures key !in d ==> r == default
  {
    if key in d then d[key] else default
  }

  /**
   * A provider: its unique lowercase name, whether it needs an API key, and the
   * environment variables it requires when it overrides the default list.
   */
  datatype SearchProvider = SearchProvider(name: string, requiresApiKey: bool, envVarsOverride: Option<seq<string>>)

  /** `get_required_env_vars()`: the override, or the empty default. */
  function RequiredEnvVars(p: SearchProvider): (vars: seq<string>)
    ensures p.envVarsOverride.None? ==> vars == []
    ensures p.envVarsOverride.Some? ==> vars == p.envVarsOverride.value
  {
    p.envVarsOverride.GetOr([])
  }

  /** The process environment. */
  type Env = map<string, string>

  /** `os.getenv(v)` is truthy: set and non-empty. */
  predicate EnvSet(env: Env, v: string) {
    v in env && env[v] != ""
  }

  /** Every required variable is set and non-empty. */
  predicate Configured(p: SearchProvider, env: Env) {
    forall i :: 0 <= i < |RequiredEnvVars(p)| ==> EnvSet(env, RequiredEnvVars(p)[i])
  }

  const MissingEnvVarPrefix: string := "Missing required environment variable: "

  /**
   * `validate_config()`: valid with no message iff every required variable is
   * set and non-empty; otherwise the message names the first one that is not.
   */
  method ValidateConfig(p: SearchProvider, env: Env) returns (valid: bool, error: Option<string>)
    ensures valid <==> Configured(p, env)
    ensures valid ==> error == None
    ensures !valid ==>
              var vars := RequiredEnvVars(p);
              exists i :: 0 <= i < |vars| && !EnvSet(env, vars[i])
                          && (forall j :: 0 <= j < i ==> EnvSet(env, vars[j]))
                          && error == Some(MissingEnvVarPrefix + vars[i])
  {
    var vars := RequiredEnvVars(p);
    for i := 0 to |vars|
      invariant forall j :: 0 <= j < i ==> EnvSet(env, vars[j])
    {
      if !EnvSet(env, vars[i]) {
        return false, Some(MissingEnvVarPrefix + vars[i]);
      }
    }
    return true, None;
  }

  /** A provider that keeps the default variable list is configured in every environment. */
  lemma DefaultEnvVarsAlwaysConfigured(p: SearchProvider, env: Env)
    requires p.envVarsOverride.None?
    ensures Configured(p, env)
  {
  }

  /** A provider that needs one variable is configured exactly when that variable is set. */
  lemma SingleVariableConfigured(p: SearchProvider, v: string, env: Env)
    requires p.envVarsOverride == Some([v])
    ensures Configured(p, env) <==> EnvSet(env, v)
  {
    assert RequiredEnvVars(p)[0] == v;
  }

  /** Some excluded domain occurs in the URL as a substring. */
  predicate Excluded(url: string, excluded: seq<string>) {
    exists k :: 0 <= k < |excluded| && Contains(url, excluded[k])
  }

  /** The providers' `domain_excluded` scan: stops at the first excluded domain found in the URL. */
  method DomainExcluded(url: string, excluded: seq<string>) returns (found: bool)
    ensures found <==> Excluded(url, excluded)
  {
    found := false;
    for k := 0 to |excluded|
      invariant !found
      invariant forall j :: 0 <= j < k ==> !Contains(url, excluded[j])
    {
      if Contains(url, excluded[k]) {
        found := true;
        return;
      }
    }
  }

  /** An empty string among the excluded domains excludes every URL, since `"" in url` always holds. */
  lemma EmptyDomainExcludesAll(url: string, excluded: seq<string>)
    requires "" in excluded
    ensures Excluded(url, excluded)
  {
    var k :| 0 <= k < |excluded| && excluded[k] == "";
    EmptyContained(url);
  }

  /** The results whose URL no excluded domain occurs in, in order. */
  function Kept(results: seq<SearchResult>, excluded: seq<string>): (r: seq<SearchResult>)
    ensures |r| <= |results|
  {
    if results == [] then []
    else (if Excluded(results[0].url, excluded) then [] else [results[0]]) + Kept(results[1..], excluded)
  }

  /** A result is kept iff it is in the list and no excluded domain occurs in its URL. */
  lemma {:induction false} KeptMembers(results: seq<SearchResult>, excluded: seq<string>)
    ensures forall x :: x in Kept(results, excluded) <==> x in results && !Excluded(x.url, excluded)
    decreases |results|
  {
    if results != [] {
      KeptMembers(results[1..], excluded);
      assert results == [results[0]] + results[1..];
    }
  }

  /** Filtering a concatenation filters each part. */
  lemma {:induction false} KeptAppend(a: seq<SearchResult>, b: seq<SearchResult>, excluded: seq<string>)
    ensures Kept(a + b, excluded) == Kept(a, excluded) + Kept(b, excluded)
    decreases |a|
  {
    if a == [] {
      assert a + b == b;
    } else {
      assert (a + b)[0] == a[0];
      assert (a + b)[1..] == a[1..] + b;
      KeptAppend(a[1..], b, excluded);
    }
  }

  /** The kept results keep the response order: they are a sub-sequence of it. */
  lemma {:induction false} KeptOrdered(results: seq<SearchResult>, excluded: seq<string>)
    ensures Subsequence(Kept(results, excluded), results)
    decreases |results|
  {
    if results != [] {
      KeptOrdered(results[1..], excluded);
      var rest := Kept(results[1..], excluded);
      if !Excluded(results[0].url, excluded) {
        assert Kept(results, excluded) == [results[0]] + rest;
        assert ([results[0]] + rest)[1..] == rest;
      } else {
        assert Kept(results, excluded) == [] + rest == rest;
      }
    }
  }

  /** The loop's effective cap: the test follows the append, so at least one result. */
  function Cap(maxResults: int): (c: int)
    ensures c >= 1 && (maxResults >= 1 ==> c == maxResults)
  {
    if maxResults < 1 then 1 else maxResults
  }

  /**
   * The result of a loop that appends each kept result and stops once it
   * holds `maxResults`: the cap is checked after appending, so a cap below one
   * still lets the first kept result through.
   */
  function FirstKept(results: seq<SearchResult>, excluded: seq<string>, maxResults: int): (r: seq<SearchResult>)
    ensures r <= Kept(results, excluded)
    ensures maxResults >= 1 ==> |r| == if |Kept(results, excluded)| < maxResults then |Kept(results, excluded)| else maxResults
    ensures maxResults < 1 ==> |r| == if Kept(results, excluded) == [] then 0 else 1
  {
    var kept := Kept(results, excluded);
    if |kept| <= Cap(maxResults) then kept else kept[..Cap(maxResults)]
  }

  /** Filtering one more result appends it iff it passes. */
  lemma KeptSnoc(a: seq<SearchResult>, x: SearchResult, excluded: seq<string>)
    ensures Kept(a + [x], excluded) == Kept(a, excluded) + (if Excluded(x.url, excluded) then [] else [x])
  {
    KeptAppend(a, [x], excluded);
    assert [x][1..] == [];
  }

  /**
   * What `FirstKept` returns: results in response order, none with an
   * excluded domain, at most `maxResults` of them when that is positive,
   * and all the kept ones when fewer than the cap pass.
   */
  lemma FirstKeptShape(results: seq<SearchResult>, excluded: seq<string>, maxResults: int)
    ensures var r := FirstKept(results, excluded, maxResults);
            && Subsequence(r, results)
            && (forall x :: x in r ==> x in results && !Excluded(x.url, excluded))
            && (maxResults >= 1 ==> |r| <= maxResults)
            && (maxResults >= 1 && |r| < maxResults ==> r == Kept(results, excluded))
  {
    var r := FirstKept(results, excluded, maxResults);
    KeptOrdered(results, excluded);
    KeptMembers(results, excluded);
    PrefixSubsequence(r, Kept(results, excluded), results);
    forall x | x in r ensures x in results && !Excluded(x.url, excluded) {
      assert x in Kept(results, excluded);
    }
  }

  /** Once the kept results of a prefix reach the cap, the rest of the list no longer matters. */
  lemma FirstKeptCapped(all: seq<SearchResult>, j: nat, excluded: seq<string>, maxResults: int)
    requires j <= |all| && |Kept(all[..j], excluded)| == Cap(maxResults)
    ensures FirstKept(all, excluded, maxResults) == Kept(all[..j], excluded)
  {
    var k1, k2 := Kept(all[..j], excluded), Kept(all[j..], excluded);
    assert all == all[..j] + all[j..];
    KeptAppend(all[..j], all[j..], excluded);
    assert Kept(all, excluded) == k1 + k2;
    assert (k1 + k2)[..|k1|] == k1;
    if |k1 + k2| <= Cap(maxResults) {
      assert k2 == [];
      assert k1 + k2 == k1;
    }
  }

  /** The results converted from a response's entries, one per entry, in order. */
  function Converted<T>(items: seq<T>, convert: T -> SearchResult): (r: seq<SearchResult>)
    ensures |r| == |items| && forall i :: 0 <= i < |items| ==> r[i] == convert(items[i])
  {
    seq(|items|, i requires 0 <= i < |items| => convert(items[i]))
  }

  /**
   * The parsing loop of the providers that stop at the cap: convert each
   * entry, skip excluded URLs, and stop once the list holds `maxResults`.
   */
  method ParseResults<T>(items: seq<T>, convert: T -> SearchResult, maxResults: int, excluded: seq<string>)
    returns (results: seq<SearchResult>)
    ensures results == FirstKept(Converted(items, convert), excluded, maxResults)
  {
    ghost var all := Converted(items, convert);
    results := [];
    for i := 0 to |items|
      invariant results == Kept(all[..i], excluded)
      invariant |results| < Cap(maxResults)
    {
      var result := convert(items[i]);
      assert result == all[i];
      assert all[..i + 1] == all[..i] + [result];
      KeptSnoc(all[..i], result, excluded);
      // The `if excluded_domains:` guard only spares a scan of an empty list.
      var skip := DomainExcluded(result.url, excluded);
      if !skip {
        results := results + [result];
        if |results| >= maxResults {
          assert |Kept(all[..i + 1], excluded)| == Cap(maxResults);
          FirstKeptCapped(all, i + 1, excluded, maxResults);
          return;
        }
      }
    }
    assert all[..|items|] == all;
  }
}
