/**
 * The per-question research sub-graph: find URLs for the question, then
 * repeatedly route the head URL (skip it when its domain was already used),
 * crawl it, merge what the crawl extracted into the existing data, and update
 * the URL list and the used domains, until no URL remains.
 *
 * The configured search provider, the URL-selecting model, the crawler and
 * the URL helpers whose code is not part of this model are fields of
 * `ResearchOracles`; the merge sub-graph is the one `MergeEvents` models.
 */
module ResearchEvents {
  import opened Wrappers
  import opened Errors
  import opened State
  import opened SearchBase
  import MergeEvents

  datatype Node = UrlFinder | ShouldProcessUrlRouter | CrawlUrl | MergeEventsAndUpdate | End

  /** The sub-graph's state: its three input keys and the URL list and crawled text it adds. */
  datatype ResearchState = ResearchState(
    researchQuestion: string,
    existingData: Option<Record>,
    usedDomains: seq<string>,
    urls: seq<string>,
    extractedData: string)

  /** The keys a command writes; `None` leaves a key as it is. */
  datatype Update = Update(
    existingData: Option<Option<Record>>,
    usedDomains: Option<seq<string>>,
    urls: Option<seq<string>>,
    extractedData: Option<string>)

  const NoUpdate: Update := Update(None, None, None, None)

  datatype Command = Command(goto: Node, update: Update)

  function Apply(s: ResearchState, u: Update): ResearchState {
    s.(existingData := u.existingData.GetOr(s.existingData),
       usedDomains := u.usedDomains.GetOr(s.usedDomains),
       urls := u.urls.GetOr(s.urls),
       extractedData := u.extractedData.GetOr(s.extractedData))
  }

  datatype ResearchOracles = ResearchOracles(
    /** The configured provider's `search(query, max_results, excluded_domains)`, provider lookup included. */
    search: (string, int, seq<string>) -> Result<seq<SearchResult>, Exception>,
    /** The URL-selecting model on the search results and the question: its `selected_urls`. */
    selectUrls: (seq<SearchResult>, string) -> seq<string>,
    /** `URLService.extract_domain`. */
    extractDomain: string -> string,
    /** The crawler sub-graph on (url, question): the keys of its result, or what it raised. */
    crawl: (string, string) -> Result<map<string, string>, Exception>,
    /** `URLService.update_url_list(urls, used_domains)`: the remaining URLs and the new used domains. */
    updateUrlList: (seq<string>, seq<string>) -> (seq<string>, seq<string>),
    /** The oracles of the merge sub-graph. */
    merge: MergeEvents.Oracles)

  /** The number of hits asked of the search provider. */
  const SearchMaxResults: int := 6

  const QuestionRequired: string := "research_question is required"
  const QuestionRequiredForCrawl: string := "research_question is required for url crawling"

  // ---------------------------------------------------------------------
  // The nodes
  // ---------------------------------------------------------------------

  /**
   * `url_finder`: an empty question raises; the search asks for six hits and
   * excludes the used domains; no hit ends the run with no URLs; otherwise the
   * model's selection becomes the URL list.  Nothing else is written.
   */
  function UrlFinderStep(s: ResearchState, o: ResearchOracles): (r: Result<Command, Exception>)
    ensures s.researchQuestion == "" ==> r == Failure(ValueError(QuestionRequired))
    ensures s.researchQuestion != "" && o.search(s.researchQuestion, SearchMaxResults, s.usedDomains).Failure? ==>
              r == Failure(o.search(s.researchQuestion, SearchMaxResults, s.usedDomains).error)
    ensures r.Success? ==>
              var hits := o.search(s.researchQuestion, SearchMaxResults, s.usedDomains);
              s.researchQuestion != "" && hits.Success?
              && r.value.update.existingData == None && r.value.update.usedDomains == None
              && r.value.update.extractedData == None
              && (hits.value == [] ==> r.value == Command(End, Update(None, None, Some([]), None)))
              && (hits.value != [] ==>
                    r.value.goto == ShouldProcessUrlRouter
                    && r.value.update.urls == Some(o.selectUrls(hits.value, s.researchQuestion)))
  {
    if s.researchQuestion == "" then Failure(ValueError(QuestionRequired))
    else
      match o.search(s.researchQuestion, SearchMaxResults, s.usedDomains)
      case Failure(e) => Failure(e)
      case Success(hits) =>
        if |hits| == 0 then Success(Command(End, Update(None, None, Some([]), None)))
        else Success(Command(ShouldProcessUrlRouter, Update(None, None, Some(o.selectUrls(hits, s.researchQuestion)), None)))
  }

  /**
   * `should_process_url_router`: no URL left ends the run; a head URL whose
   * domain is already used is dropped without a crawl and without a new
   * domain; any other head URL goes to the crawler.
   */
  function RouterStep(s: ResearchState, o: ResearchOracles): (c: Command)
    ensures c.update.existingData == None && c.update.extractedData == None
    ensures s.urls == [] ==> c == Command(End, NoUpdate)
    ensures s.urls != [] && o.extractDomain(s.urls[0]) in s.usedDomains ==>
              c.goto == ShouldProcessUrlRouter && c.update.urls == Some(s.urls[1..])
              && Apply(s, c.update).usedDomains == s.usedDomains
    ensures s.urls != [] && o.extractDomain(s.urls[0]) !in s.usedDomains ==> c == Command(CrawlUrl, NoUpdate)
  {
    if |s.urls| > 0 then
      if o.extractDomain(s.urls[0]) in s.usedDomains then
        Command(ShouldProcessUrlRouter, Update(None, Some(s.usedDomains), Some(s.urls[1..]), None))
      else
        Command(CrawlUrl, NoUpdate)
    else
      Command(End, NoUpdate)
  }

  /** The crawler's `extracted_events`, or "" when it returned none. */
  function ExtractedEvents(result: map<string, string>): string {
    if "extracted_events" in result then result["extracted_events"] else ""
  }

  /**
   * `crawl_url`: takes `urls[0]` (an empty list raises `IndexError` first),
   * then requires a question, lets a crawler error through, and writes only
   * the crawled text.
   */
  function CrawlUrlStep(s: ResearchState, o: ResearchOracles): (r: Result<Command, Exception>)
    ensures s.urls == [] ==> r == Failure(IndexError)
    ensures s.urls != [] && s.researchQuestion == "" ==> r == Failure(ValueError(QuestionRequiredForCrawl))
    ensures s.urls != [] && s.researchQuestion != "" && o.crawl(s.urls[0], s.researchQuestion).Failure? ==>
              r == Failure(o.crawl(s.urls[0], s.researchQuestion).error)
    ensures s.urls != [] && s.researchQuestion != "" && o.crawl(s.urls[0], s.researchQuestion).Success? ==>
              r == Success(Command(MergeEventsAndUpdate,
                                   Update(None, None, None, Some(ExtractedEvents(o.crawl(s.urls[0], s.researchQuestion).value)))))
  {
    if |s.urls| == 0 then Failure(IndexError)
    else
      var url := s.urls[0];
      if s.researchQuestion == "" then Failure(ValueError(QuestionRequiredForCrawl))
      else
        match o.crawl(url, s.researchQuestion)
        case Failure(e) => Failure(e)
        case Success(result) => Success(Command(MergeEventsAndUpdate, Update(None, None, None, Some(ExtractedEvents(result)))))
  }

  /** The merge sub-graph's `existing_data` for this state, or what it raised. */
  function MergeResult(s: ResearchState, o: ResearchOracles): Result<Option<Record>, Exception> {
    MergeEvents.MergedData(MergeEvents.MergeInput(s.existingData, s.extractedData, s.researchQuestion), o.merge)
  }

  /**
   * `merge_events_and_update`: an error of the merge sub-graph goes through;
   * otherwise the existing data is replaced by the sub-graph's result, the
   * URL list and used domains by `update_url_list`'s, and control returns to
   * the router.
   */
  function MergeEventsAndUpdateStep(s: ResearchState, o: ResearchOracles): (r: Result<Command, Exception>)
    ensures MergeResult(s, o).Failure? ==> r == Failure(MergeResult(s, o).error)
    ensures MergeResult(s, o).Success? ==>
              r.Success? && r.value.goto == ShouldProcessUrlRouter
              && var t := Apply(s, r.value.update);
                 t.existingData == MergeResult(s, o).value
                 && (t.urls, t.usedDomains) == o.updateUrlList(s.urls, s.usedDomains)
                 && t.researchQuestion == s.researchQuestion && t.extractedData == s.extractedData
  {
    match MergeResult(s, o)
    case Failure(e) => Failure(e)
    case Success(merged) =>
      var (remaining, used) := o.updateUrlList(s.urls, s.usedDomains);
      Success(Command(ShouldProcessUrlRouter, Update(Some(merged), Some(used), Some(remaining), None)))
  }

  // ---------------------------------------------------------------------
  // The URL loop as a whole
  // ---------------------------------------------------------------------

  /** `update_url_list` removes at least one URL from a non-empty list. */
  ghost predicate UpdateShrinks(o: ResearchOracles) {
    forall urls: seq<string>, used: seq<string> ::
      |urls| > 0 ==> |o.updateUrlList(urls, used).0| < |urls|
  }

  /** What the sub-graph returns: `existing_data` and `used_domains`. */
  datatype ResearchOutput = ResearchOutput(existingData: Option<Record>, usedDomains: seq<string>)

  /** The router loop from a given URL list to the end. */
  function ProcessUrls(existing: Option<Record>, used: seq<string>, urls: seq<string>, question: string,
                       o: ResearchOracles): Result<ResearchOutput, Exception>
    requires UpdateShrinks(o)
    decreases |urls|
  {
    if urls == [] then Success(ResearchOutput(existing, used))
    else if o.extractDomain(urls[0]) in used then ProcessUrls(existing, used, urls[1..], question, o)
    else if question == "" then Failure(ValueError(QuestionRequiredForCrawl))
    else
      match o.crawl(urls[0], question)
      case Failure(e) => Failure(e)
      case Success(result) =>
        match MergeResult(ResearchState(question, existing, used, urls, ExtractedEvents(result)), o)
        case Failure(e) => Failure(e)
        case Success(merged) =>
          var (remaining, newUsed) := o.updateUrlList(urls, used);
          ProcessUrls(merged, newUsed, remaining, question, o)
  }

  /** The whole sub-graph on its input keys. */
  function ResearchEventsSpec(question: string, existing: Option<Record>, used: seq<string>,
                              o: ResearchOracles): Result<ResearchOutput, Exception>
    requires UpdateShrinks(o)
  {
    if question == "" then Failure(ValueError(QuestionRequired))
    else
      match o.search(question, SearchMaxResults, used)
      case Failure(e) => Failure(e)
      case Success(hits) =>
        if hits == [] then Success(ResearchOutput(existing, used))
        else ProcessUrls(existing, used, o.selectUrls(hits, question), question, o)
  }

  /** When every URL's domain is already used, nothing is crawled and nothing changes. */
  lemma {:induction false} AllUsedChangesNothing(existing: Option<Record>, used: seq<string>, urls: seq<string>,
                                                 question: string, o: ResearchOracles)
    requires UpdateShrinks(o)
    requires forall i :: 0 <= i < |urls| ==> o.extractDomain(urls[i]) in used
    ensures ProcessUrls(existing, used, urls, question, o) == Success(ResearchOutput(existing, used))
  {
    if urls != [] {
      assert forall i :: 0 <= i < |urls[1..]| ==> urls[1..][i] == urls[i + 1];
      AllUsedChangesNothing(existing, used, urls[1..], question, o);
    }
  }

  /**
   * With a question, a crawler that never raises and a merging model that
   * never raises, the loop always succeeds: it fails only when a URL with an
   * unused domain reaches the crawler with an empty question or when one of
   * those calls raises.
   */
  lemma {:induction false} ProcessUrlsSucceeds(existing: Option<Record>, used: seq<string>, urls: seq<string>,
                                               question: string, o: ResearchOracles)
    requires UpdateShrinks(o)
    requires question != ""
    requires forall url, q :: o.crawl(url, q).Success?
    requires forall original, incoming :: o.merge.reconcile(original, incoming).Success?
    ensures ProcessUrls(existing, used, urls, question, o).Success?
    decreases |urls|
  {
    if urls != [] {
      if o.extractDomain(urls[0]) in used {
        ProcessUrlsSucceeds(existing, used, urls[1..], question, o);
      } else {
        var s := ResearchState(question, existing, used, urls, ExtractedEvents(o.crawl(urls[0], question).value));
        MergeEvents.MergedDataSucceeds(MergeEvents.MergeInput(s.existingData, s.extractedData, s.researchQuestion), o.merge);
        var (remaining, newUsed) := o.updateUrlList(urls, used);
        ProcessUrlsSucceeds(MergeResult(s, o).value, newUsed, remaining, question, o);
      }
    }
  }

  /**
   * The first URL whose domain is not yet used is the first one crawled: a
   * crawler error there, or else a merge error on what it extracted, ends
   * the loop with that error.
   */
  lemma {:induction false} FirstCrawlDecides(existing: Option<Record>, used: seq<string>, urls: seq<string>,
                                             question: string, o: ResearchOracles, i: nat)
    requires UpdateShrinks(o)
    requires question != "" && i < |urls|
    requires forall j :: 0 <= j < i ==> o.extractDomain(urls[j]) in used
    requires o.extractDomain(urls[i]) !in used
    ensures var crawled := o.crawl(urls[i], question);
            && (crawled.Failure? ==> ProcessUrls(existing, used, urls, question, o) == Failure(crawled.error))
            && (crawled.Success?
                && MergeResult(ResearchState(question, existing, used, urls[i..], ExtractedEvents(crawled.value)), o).Failure? ==>
                  ProcessUrls(existing, used, urls, question, o)
                  == Failure(MergeResult(ResearchState(question, existing, used, urls[i..], ExtractedEvents(crawled.value)), o).error))
    decreases i
  {
    if i > 0 {
      var rest := urls[1..];
      assert forall j :: 0 <= j < i - 1 ==> rest[j] == urls[j + 1];
      assert rest[i - 1] == urls[i] && rest[i - 1..] == urls[i..];
      FirstCrawlDecides(existing, used, rest, question, o, i - 1);
    } else {
      assert urls[0..] == urls;
    }
  }

  /**
   * A search that finds hits, whose first selected URL with an unused domain
   * cannot be crawled, fails the whole sub-graph with the crawler's error.
   */
  lemma CrawlErrorFailsResearch(question: string, existing: Option<Record>, used: seq<string>,
                                o: ResearchOracles, i: nat)
    requires UpdateShrinks(o)
    requires question != ""
    requires o.search(question, SearchMaxResults, used).Success? && o.search(question, SearchMaxResults, used).value != []
    requires var urls := o.selectUrls(o.search(question, SearchMaxResults, used).value, question);
             i < |urls| && (forall j :: 0 <= j < i ==> o.extractDomain(urls[j]) in used)
             && o.extractDomain(urls[i]) !in used && o.crawl(urls[i], question).Failure?
    ensures var urls := o.selectUrls(o.search(question, SearchMaxResults, used).value, question);
            ResearchEventsSpec(question, existing, used, o) == Failure(o.crawl(urls[i], question).error)
  {
    var urls := o.selectUrls(o.search(question, SearchMaxResults, used).value, question);
    FirstCrawlDecides(existing, used, urls, question, o, i);
  }

  function Rank(n: Node): nat {
    match n
    case UrlFinder => 3
    case ShouldProcessUrlRouter => 2
    case CrawlUrl => 1
    case MergeEventsAndUpdate => 0
    case End => 0
  }

  /** One crawl: the URL and the used domains at the time. */
  datatype Crawl = Crawl(url: string, usedDomains: seq<string>)

  /**
   * Runs the sub-graph from `url_finder` to the end.  Also returns the crawls
   * in order: none of them is of a URL whose domain was already used.
   */
  method RunResearchEvents(question: string, existing: Option<Record>, used: seq<string>, o: ResearchOracles)
    returns (r: Result<ResearchOutput, Exception>, crawls: seq<Crawl>)
    requires UpdateShrinks(o)
    ensures r == ResearchEventsSpec(question, existing, used, o)
    ensures forall k :: 0 <= k < |crawls| ==> o.extractDomain(crawls[k].url) !in crawls[k].usedDomains
  {
    var s := ResearchState(question, existing, used, [], "");
    var node := UrlFinder;
    crawls := [];
    while node != End
      invariant s.researchQuestion == question
      invariant node != UrlFinder ==> question != ""
      invariant forall k :: 0 <= k < |crawls| ==> o.extractDomain(crawls[k].url) !in crawls[k].usedDomains
      invariant node == UrlFinder ==> s == ResearchState(question, existing, used, [], "")
      invariant node == ShouldProcessUrlRouter ==>
                  ResearchEventsSpec(question, existing, used, o) == ProcessUrls(s.existingData, s.usedDomains, s.urls, question, o)
      invariant node == CrawlUrl ==>
                  s.urls != [] && o.extractDomain(s.urls[0]) !in s.usedDomains
                  && ResearchEventsSpec(question, existing, used, o) == ProcessUrls(s.existingData, s.usedDomains, s.urls, question, o)
      invariant node == MergeEventsAndUpdate ==>
                  s.urls != [] && o.extractDomain(s.urls[0]) !in s.usedDomains && question != ""
                  && o.crawl(s.urls[0], question).Success?
                  && s.extractedData == ExtractedEvents(o.crawl(s.urls[0], question).value)
                  && ResearchEventsSpec(question, existing, used, o) == ProcessUrls(s.existingData, s.usedDomains, s.urls, question, o)
      invariant node == End ==> ResearchEventsSpec(question, existing, used, o) == Success(ResearchOutput(s.existingData, s.usedDomains))
      decreases if node == UrlFinder then 1 else 0, |s.urls|, Rank(node)
    {
      var c: Command;
      match node {
        case UrlFinder =>
          var step := UrlFinderStep(s, o);
          if step.Failure? {
            return Failure(step.error), crawls;
          }
          c := step.value;
        case ShouldProcessUrlRouter =>
          c := RouterStep(s, o);
        case CrawlUrl =>
          // The router only sends a non-empty list here, and `url_finder` has
          // already rejected an empty question, so only the crawler can raise.
          crawls := crawls + [Crawl(s.urls[0], s.usedDomains)];
          var step := CrawlUrlStep(s, o);
          if step.Failure? {
            return Failure(step.error), crawls;
          }
          c := step.value;
        case MergeEventsAndUpdate =>
          var step := MergeEventsAndUpdateStep(s, o);
          if step.Failure? {
            return Failure(step.error), crawls;
          }
          c := step.value;
      }
      s := Apply(s, c.update);
      node := c.goto;
    }
    r := Success(ResearchOutput(s.existingData, s.usedDomains));
  }
}
