# Event deep research, modelled in Dafny

This project models the core of an agent that researches a subject and
builds a structured record of it. The subject can be a person's biography, a
company, a market, a person's profile or a topic. The agent is made of three
LangGraph state graphs:

- **The supervisor graph** (`supervisor` → `supervisor_tools` →
  `structure_output`). The `supervisor` node asks a tool-calling model what to
  do next and counts the turn. `supervisor_tools` runs the calls the model
  made:
  - `FinishResearchTool` and the iteration cap stop the research;
  - `think_tool` echoes a reflection into the history;
  - every `ResearchEventsTool` call runs the research-events sub-graph on the
    same data snapshot, then the results are merged and summarised.

  `structure_output` hands the gathered data to the research type, which
  turns it into the final output.
- **The research-events sub-graph** (`url_finder`, `should_process_url_router`,
  `crawl_url`, `merge_events_and_update`). It searches for URLs and skips those
  whose domain was already used. It crawls the others one at a time, and each
  crawl is merged into the existing data.
- **The merge-events sub-graph** (`split_events`, `filter_chunks`,
  `extract_and_categorize_chunk`, `merge_categorizations`,
  `combine_new_and_original_data`). It splits crawled text into chunks and
  keeps it only when some chunk is relevant. It categorises every chunk into
  the four biography categories, then reconciles each category with what was
  already known.

Around the graphs sit two process-wide registries, each modelled as a class
with a dictionary and its key order:

- the research types (`biography`, `company`, `market`, `people`, `topic`),
  each with its prompt templates, data schema and structuring rule;
- the search providers (Tavily, Brave, DuckDuckGo, SearXNG), with their
  environment-variable configuration, their result parsing and domain
  exclusion, and the choice of a default provider on import.

The model's Python semantics:

- **Optional state keys** are `Option` values. The node's `.get` default is
  applied where the node applies it.
- **Exceptions** are `Failure` values of an `Exception` datatype:
  - `ValueError`, `KeyError`, `IndexError` and `AttributeError`;
  - the providers' `SearchProviderError`;
  - `Raised`, for what a collaborator outside the model raises.
- **`str.format`** works over a template of text and named holes. A hole
  with no argument gives `KeyError`.
- **The oracles** are function-typed parameters: language models, the
  crawler, the chunker, the relevance graph, HTTP, the DuckDuckGo package,
  the URL service and the event service. No contract is invented for any of
  them.
- **Graph nodes** are step functions. Each returns a `Command` holding the
  next node and a state update. The `Run…` methods drive a graph to its end
  with a loop whose invariants describe the state at each node.

Modules follow the source files:

- `state.dfy`: `src/state.py`
- `supervisor.dfy`: `src/graph.py`
- `research_events.dfy`: `src/research_events/research_events_graph.py`
- `merge_events.dfy`: `src/research_events/merge_events/merge_events_graph.py`
- `research_type_base.dfy` and `biography.dfy` … `topic.dfy`: `src/research_types/`
- `research_type_registry.dfy` and `research_types.dfy`: `src/research_types/registry.py` and `__init__.py`
- `search_base.dfy`, `searxng.dfy`, `brave.dfy`, `duckduckgo.dfy`,
  `search_registry.dfy` and `search_providers.dfy`: `src/search_providers/`

Shared helpers:

- `wrappers.dfy`: `Option`, `Result` and `Outcome`
- `errors.dfy`: exceptions
- `messages.dfy`: tool calls
- `templates.dfy`: `str.format`
- `pystr.dfy`: strip, join, substring, slicing and `list(set(...))`

## Model

| member | source | states |
|---|---|---|
| State.OverrideReducer | src/state.py:135-139 | An update tagged `type: override` replaces the current value, by its `value` entry when present. Anything else is combined with `+`, and a combination `+` rejects raises `TypeError`. |
| State.AsList | src/state.py:135-139 | A Python list value has one element per item. |
| State.ReducerAppends | src/state.py:135-139 | On two plain lists the reducer concatenates them, in order. |
| State.Instantiate | src/state.py:81-104 | Building a pydantic record from keyword arguments gives every declared field, and a field not passed takes its default "". |
| State.Attr | src/state.py:81-104 | Reading an attribute succeeds exactly for declared fields. Otherwise it raises `AttributeError` naming the model and the attribute. |
| State.InstantiateEmpty | src/state.py:81-104 | A record built with no arguments conforms to its schema, and every field is empty. |
| State.InstantiateFromFields | src/state.py:81-104 | Rebuilding a conforming record from its own fields gives the same record. |
| State.InstantiateReadsDeclared | src/state.py:81-104 | Construction depends only on the declared fields among its arguments. |
| State.EmptyCategories | src/state.py:81-104 | The empty `CategoriesWithEvents` has exactly the four categories, all "". |
| State.StartState | src/state.py:145-181 | A fresh run has no data and an empty history. Its used domains default to [], its summary to "" and its iteration count to 0, and it keeps the requested research type. |
| Templates.Format | src/graph.py:70-76 | `str.format` succeeds exactly when every hole has an argument. When it fails, it names a hole that has none. |
| Templates.FormatContainsArgument | src/graph.py:70-76 | A formatted template contains the argument of each of its holes. |
| PyStr.LStripSpec | src/research_events/merge_events/merge_events_graph.py:73 | `lstrip` removes exactly a leading run of whitespace and stops at the first non-space character. |
| PyStr.RStripSpec | src/research_events/merge_events/merge_events_graph.py:73 | `rstrip` removes exactly a trailing run of whitespace. |
| PyStr.BlankIffAllSpace | src/research_events/merge_events/merge_events_graph.py:73 | `not s.strip()` holds exactly when every character of `s` is whitespace. |
| PyStr.StripIdempotent | src/research_events/merge_events/merge_events_graph.py:73 | Stripping twice is stripping once. |
| PyStr.RStripChar | src/search_providers/searxng.py:69 | `rstrip("/")` removes exactly the trailing slashes, and the result does not end in one. |
| PyStr.JoinContainsParts | src/research_types/registry.py:54-56 | A joined list contains each of its parts. |
| PyStr.SliceTo | src/search_providers/brave.py:110 | `xs[:n]` is a prefix of length `min(n, len)`. A negative `n` drops `-n` elements from the end. |
| PyStr.Distinct | src/graph.py:184 | `list(set(xs))` has no repeats and the same members as `xs`. |
| SearchBase.Unscored | src/search_providers/base.py:13-21 | A result built without a score keeps the given URL, title and content and has score `None`. |
| SearchBase.DictGet | src/search_providers/searxng.py:99 | `dict.get(key, default)` gives the entry when present, else the default. |
| SearchBase.RequiredEnvVars | src/search_providers/base.py:80-88 | A provider that declares no variables requires none. Otherwise it requires the ones it declares. |
| SearchBase.ValidateConfig | src/search_providers/base.py:90-101 | The configuration is valid exactly when every required variable is set and non-empty. If not, the message names the first one missing. |
| SearchBase.DefaultEnvVarsAlwaysConfigured | src/search_providers/base.py:80-101 | A provider with the default empty list is configured in every environment. |
| SearchBase.SingleVariableConfigured | src/search_providers/base.py:90-101 | A provider that needs one variable is configured exactly when that variable is set. |
| SearchBase.DomainExcluded | src/search_providers/searxng.py:102-109 | A URL is skipped exactly when some excluded domain is a substring of it. |
| SearchBase.EmptyDomainExcludesAll | src/search_providers/searxng.py:102-109 | An empty string among the excluded domains excludes every URL. |
| SearchBase.KeptMembers | src/search_providers/searxng.py:98-118 | The kept results are exactly the results whose URL is not excluded. |
| SearchBase.KeptAppend | src/search_providers/searxng.py:98-118 | Filtering distributes over concatenation. |
| SearchBase.KeptOrdered | src/search_providers/searxng.py:98-118 | Filtering keeps the results in their original order. |
| SearchBase.Cap | src/search_providers/searxng.py:120-122 | The check after each append stops the loop at `max_results` results, and at one result when `max_results` is below 1. |
| SearchBase.FirstKept | src/search_providers/searxng.py:96-124 | The capped loop returns a prefix of the kept results. Its length is `min(kept, max_results)`, and at most one when `max_results < 1`. |
| SearchBase.FirstKeptShape | src/search_providers/searxng.py:96-124 | Every returned result is an input result with a URL that is not excluded, and the returned results keep their input order. |
| SearXNG.SearchUrl | src/search_providers/searxng.py:69-72 | The request URL is the base without trailing slashes, followed by `/search`. |
| SearXNG.ToResult | src/search_providers/searxng.py:111-118 | URL, title and content come from the item with "" as default, and the item's score is kept. |
| SearchBase.Converted | src/search_providers/searxng.py:98-118 | One converted result per entry, in order, by the provider's own conversion. Brave (`brave.py:86-108`) and DuckDuckGo (`duckduckgo.py:64-88`) build theirs the same way. |
| SearXNG.SearchOutcome | src/search_providers/searxng.py:42-131 | The search succeeds exactly when `SEARXNG_URL` is set, the request succeeds and the status is 200. Every failure, including the missing URL, becomes a `SearchProviderError`. |
| SearXNG.Search | src/search_providers/searxng.py:42-131 | `search` returns or raises what `SearchOutcome` says. |
| SearchBase.ParseResults | src/search_providers/searxng.py:96-124 | The capped loop, shared by SearXNG and DuckDuckGo (`duckduckgo.py:64-90`), returns the first kept results up to the cap. |
| SearXNG.SearchNeedsUrl | src/search_providers/searxng.py:61-66 | Without `SEARXNG_URL`, the search fails with the "not set" message before any request. The check comes before the `try`, so the message is not re-wrapped. |
| Brave.Items | src/search_providers/brave.py:86 | `data.get("web", {}).get("results", [])` gives the result list, or [] when either key is absent. |
| Brave.ToResult | src/search_providers/brave.py:98-105 | URL and title come from the item; the content is its `description`; there is no score. |
| Brave.SearchOutcome | src/search_providers/brave.py:38-115 | The search succeeds exactly when `BRAVE_API_KEY` is set, the request succeeds and the status is 200. Every failure is a `SearchProviderError`. |
| Brave.Search | src/search_providers/brave.py:38-115 | `search` returns or raises what `SearchOutcome` says. |
| Brave.ParseResults | src/search_providers/brave.py:86-110 | The parsing loop keeps every result whose URL is not excluded, then applies the Python slice `[:max_results]`. |
| Brave.SearchResultsShape | src/search_providers/brave.py:86-110 | The returned results are kept results, in order, and there are never more than the kept ones. |
| DuckDuckGo.ToResult | src/search_providers/duckduckgo.py:65-83 | The URL is `href`, else `link`; the content is `body`, else `description`; there is no score. |
| DuckDuckGo.SearchOutcome | src/search_providers/duckduckgo.py:27-98 | A missing package raises the "install" error. Otherwise the search asks for `2 * max_results` entries and succeeds exactly when that call does. Every failure is a `SearchProviderError`. |
| DuckDuckGo.Search | src/search_providers/duckduckgo.py:27-98 | `search` returns or raises what `SearchOutcome` says. |
| SearchRegistry.ConfiguredNamesMembers | src/search_providers/registry.py:110-121 | A name is listed as configured exactly when it is registered and its provider validates. |
| SearchRegistry.ConfiguredNamesOrdered | src/search_providers/registry.py:110-121 | The configured names keep registration order. |
| SearchRegistry.AfterRegister | src/search_providers/registry.py:24-44 | Registering keeps every existing entry, and adds the new provider only under a new name. The order only grows. |
| SearchRegistry.Registry.constructor | src/search_providers/registry.py:20-21 | A new registry is empty and has no default. |
| SearchRegistry.Registry.Register | src/search_providers/registry.py:24-44 | A taken name raises `ValueError` and changes nothing. Otherwise the provider is appended, and it becomes the default when asked or when there was none. |
| SearchRegistry.Registry.Get | src/search_providers/registry.py:47-71 | With no name, `get` gives the default provider, or raises when there is none. With a name, it gives that provider, or raises `ValueError` listing the available names. |
| SearchRegistry.Registry.SetDefault | src/search_providers/registry.py:74-89 | An unknown name raises and changes nothing. A known one becomes the default; the providers are untouched. |
| SearchRegistry.Registry.GetDefault | src/search_providers/registry.py:92-98 | The default, which is always a registered name. |
| SearchRegistry.Registry.ListAvailable | src/search_providers/registry.py:101-107 | Every registered name once, in registration order. |
| SearchRegistry.Registry.ListConfigured | src/search_providers/registry.py:110-121 | The registered names whose provider validates, in order. |
| SearchRegistry.Registry.Clear | src/search_providers/registry.py:124-130 | Empty again, with no default. |
| SearchProviders.BuiltinsConfigured | src/search_providers/__init__.py:37-73 | In every environment some built-in provider is configured (DuckDuckGo needs nothing). |
| SearchProviders.ImportedDefault | src/search_providers/__init__.py:59-73 | The default after import is a configured provider. It is DuckDuckGo exactly when neither the Tavily nor the Brave key is set. |
| SearchProviders.AfterBuiltins | src/search_providers/__init__.py:37-57 | The four registrations leave every built-in registered and keep earlier entries. |
| SearchProviders.BuiltinsFromEmpty | src/search_providers/__init__.py:37-57 | From the empty registry the providers are Tavily, Brave, DuckDuckGo and SearXNG in that order, with Tavily as default. |
| SearchProviders.RegisterBuiltins | src/search_providers/__init__.py:37-57 | The registration block performs those four registrations. |
| SearchProviders.AutoSelectDefault | src/search_providers/__init__.py:59-73 | An invalid default is replaced by the first configured provider. Otherwise the default is kept, and the providers are untouched. |
| SearchProviders.ImportSearchProviders | src/search_providers/__init__.py:37-73 | Importing gives exactly the four providers in order, at least one of them configured, and `ImportedDefault` as default. |
| ResearchTypeBase.SubjectDisplayName | src/research_types/base.py:142-150 | A type's subject noun is "subject" unless the type overrides it. |
| ResearchTypeBase.AdditionalTools | src/research_types/base.py:131-140 | A type adds no tools unless it overrides the method. |
| ResearchTypeBase.InitialData | src/research_types/base.py:101-111 | The initial data conforms to the type's schema with every field empty. |
| ResearchTypeBase.FormatPrompt | src/graph.py:70-76 | Formatting a prompt succeeds exactly when every hole is supplied. Otherwise it raises `KeyError` for an unsupplied name. |
| ResearchTypeBase.OnlyHolesCovers | src/research_types/base.py:50-88 | A template whose holes are among the supplied names formats. |
| ResearchTypeBase.SupervisorPromptFormats | src/research_types/base.py:50-62 | A well-formed type's supervisor prompt formats, and it shows the subject, the summary and the last message. |
| ResearchTypeBase.DataPromptsFormat | src/research_types/base.py:64-88 | A well-formed type's summarizer and structure prompts format, and each shows the data. |
| ResearchTypeBase.CombineSections | src/research_types/company.py:184-199 | The combined f-string is built exactly when the record has every section's field. Otherwise it names a missing one. |
| ResearchTypeBase.SchemaHasSections | src/research_types/company.py:184-199 | Sections that list a schema's fields are all present in a conforming record. |
| ResearchTypeBase.CombineSectionsAppend | src/research_types/company.py:184-199 | Combining two section lists gives the two texts concatenated. |
| ResearchTypeBase.SectionAt | src/research_types/company.py:184-199 | The combined text contains each section's header block, in place. |
| ResearchTypeBase.CategoryPrompts | src/research_types/biography.py:193-204 | One formatted prompt per category, in the given order. It succeeds exactly when every category is present and the template formats. |
| ResearchTypeBase.ChronologyCalls | src/research_types/biography.py:207-210 | The per-category model calls fail exactly when one of them fails, and then they fail with the first failure. Otherwise their events are concatenated in order. |
| ResearchTypeBase.PerCategoryFour | src/research_types/biography.py:193-218 | For four categories, the events are the four chronologies joined in category order. A failure is the error of the first call that fails. |
| ResearchTypeBase.AsReport | src/research_types/company.py:205-208 | The structured reply is the report, and a failed call is passed on. |
| ResearchTypeBase.CombinedCall | src/research_types/company.py:184-208 | A combined structuring succeeds only on a record with every section. |
| ResearchTypeBase.StructureOutput | src/research_types/base.py:113-129 | No data gives no events (biography) or no report (the others). With data, per-category types give events and combined types give a report. |
| ResearchTypeBase.CombinedStructureOutput | src/research_types/company.py:184-208 | On a record with every section, the report is the model's answer to the structure prompt with the combined text as its data. |
| ResearchTypeBase.CombinedRejectsOtherRecord | src/research_types/company.py:184-199 | A record without the first section's field raises `AttributeError` for it. |
| Biography.BiographyWellFormed | src/research_types/biography.py:85-162 | The name is a lower-case identifier. The supervisor prompt has the subject, summary and last-message holes and no others. The summarizer and structure prompts have the data hole and no others. |
| Biography.BiographyStructureOutput | src/research_types/biography.py:170-220 | On a conforming record, the output is the four chronology calls' events, concatenated in that order, or the error of the first call that fails. |
| Company.CompanyWellFormed | src/research_types/company.py:80-155 | The prompts use exactly the holes the nodes supply. |
| Company.CompanyCombinedText | src/research_types/company.py:184-199 | The combined text is the five headed blocks, in order. |
| Company.CompanyStructureOutput | src/research_types/company.py:165-208 | A conforming record is structured by one structure call on the combined text. |
| Company.CompanyRejectsCategories | src/research_types/company.py:184-199 | Biography data given to the company type raises `AttributeError` for `overview`. |
| Market.MarketWellFormed | src/research_types/market.py:80-155 | The prompts use exactly the holes the nodes supply. |
| Market.MarketCombinedText | src/research_types/market.py:184-199 | The combined text is the five headed blocks, in order. |
| Market.MarketStructureOutput | src/research_types/market.py:165-208 | A conforming record is structured by one structure call on the combined text. |
| Market.MarketRejectsCategories | src/research_types/market.py:184-199 | Biography data raises `AttributeError` for `overview`. |
| People.PeopleWellFormed | src/research_types/people.py:78-180 | The prompts use exactly the holes the nodes supply. |
| People.PeopleCombinedText | src/research_types/people.py:206-224 | The combined text is the headed blocks, in order. |
| People.PeopleStructureOutput | src/research_types/people.py:195-233 | A conforming record is structured by one structure call on the combined text. |
| People.PeopleRejectsCategories | src/research_types/people.py:206-224 | Biography data raises `AttributeError` for `demographics`. |
| Topic.TopicWellFormed | src/research_types/topic.py:88-164 | The prompts use exactly the holes the nodes supply. |
| Topic.TopicCombinedText | src/research_types/topic.py:200-215 | The combined text is the six headed blocks, in order. |
| Topic.TopicStructureOutput | src/research_types/topic.py:179-225 | A conforming record is structured by one structure call on the combined text. |
| Topic.TopicRejectsCategories | src/research_types/topic.py:200-215 | Biography data raises `AttributeError` for `overview`. |
| ResearchTypeRegistry.AfterRegister | src/research_types/registry.py:23-37 | Registering keeps every entry and adds a new name at the end. A taken name changes nothing. |
| ResearchTypeRegistry.Lookup | src/research_types/registry.py:40-57 | `get` finds exactly the registered names. Otherwise it raises `ValueError` listing the available ones. |
| ResearchTypeRegistry.AfterRegisterConsistent | src/research_types/registry.py:23-37 | Registering keeps the dictionary and its key order in agreement, without repeats, and keeps every type filed under its own name. |
| ResearchTypeRegistry.Registry.constructor | src/research_types/registry.py:20 | The class starts empty. |
| ResearchTypeRegistry.Registry.Register | src/research_types/registry.py:23-37 | A duplicate name raises `ValueError` and changes nothing. Otherwise the type is appended. |
| ResearchTypeRegistry.Registry.Get | src/research_types/registry.py:40-57 | `get` is `Lookup` on the current contents. |
| ResearchTypeRegistry.Registry.ListAvailable | src/research_types/registry.py:60-66 | Every registered name once, in order. |
| ResearchTypeRegistry.Registry.Clear | src/research_types/registry.py:69-74 | Empty again. |
| ResearchTypes.BuiltinsFromEmpty | src/research_types/__init__.py:28-33 | From the empty registry the types are biography, company, market, people and topic, in that order. |
| ResearchTypes.BuiltinsWellFormed | src/research_types/__init__.py:28-33 | Every built-in type is well formed. |
| ResearchTypes.ImportResearchTypes | src/research_types/__init__.py:28-33 | The import's five registrations all pass, and they leave exactly the five types in order. |
| ResearchTypes.ImportedLookup | src/research_types/registry.py:40-57 | After the import, `get` succeeds exactly for the five names. Any other name raises `ValueError` listing them, and a new name is still appended. |
| ResearchEvents.UrlFinderStep | src/research_events/research_events_graph.py:45-111 | An empty question raises. The search asks for six hits and excludes the used domains. No hit ends the sub-graph with no URLs, and otherwise the selected URLs go to the router. Nothing else is written. |
| ResearchEvents.RouterStep | src/research_events/research_events_graph.py:123-146 | No URL left ends the sub-graph. A head URL whose domain is used is dropped, with no crawl and no new domain. Any other head URL is crawled. |
| ResearchEvents.CrawlUrlStep | src/research_events/research_events_graph.py:149-169 | `urls[0]` on an empty list raises `IndexError`. An empty question raises `ValueError`. A crawler error goes through. Otherwise only the crawled text is written, "" when the crawler gave none. |
| ResearchEvents.MergeEventsAndUpdateStep | src/research_events/research_events_graph.py:172-199 | An error of the merge sub-graph goes through. Otherwise the data becomes the merge sub-graph's result, and the URL list and domains become `update_url_list`'s. Control returns to the router. |
| ResearchEvents.AllUsedChangesNothing | src/research_events/research_events_graph.py:123-146 | When every URL's domain is already used, the loop crawls nothing and returns the data and domains unchanged. |
| ResearchEvents.ProcessUrlsSucceeds | src/research_events/research_events_graph.py:123-199 | With a question, a crawler that never raises and a merging model that never raises, the URL loop always completes. |
| ResearchEvents.FirstCrawlDecides | src/research_events/research_events_graph.py:123-199 | The first URL whose domain is unused is the first crawled. A crawler error there, or else a merge error on its text, ends the loop with that error. |
| ResearchEvents.CrawlErrorFailsResearch | src/research_events/research_events_graph.py:45-169 | A search with hits, whose first selected URL with an unused domain cannot be crawled, fails the whole sub-graph with the crawler's error. |
| ResearchEvents.RunResearchEvents | src/research_events/research_events_graph.py:202-216 | Running the graph from `url_finder` to the end gives `ResearchEventsSpec`, and no crawled URL has an already-used domain. |
| MergeEvents.SplitEventsStep | src/research_events/merge_events/merge_events_graph.py:67-85 | Blank text ends the sub-graph with no chunks. Otherwise the first 20 chunks go to filtering. In both cases the categorisation list is reset. |
| MergeEvents.Capped | src/research_events/merge_events/merge_events_graph.py:103-105 | The capped chunks are a prefix of length `min(len, max_chunks)`. |
| MergeEvents.RelevantChunks | src/research_events/merge_events/merge_events_graph.py:108-120 | The relevant chunks are empty exactly when no chunk has an event, and each one is a chunk that has one. |
| MergeEvents.FilterChunksStep | src/research_events/merge_events/merge_events_graph.py:88-129 | The sub-graph ends, writing nothing, exactly when there are no chunks or no capped chunk is relevant. Otherwise ALL the capped chunks go to extraction. |
| MergeEvents.SelectRelevant | src/research_events/merge_events/merge_events_graph.py:108-120 | The relevance loop collects exactly the relevant chunks, in order. |
| MergeEvents.CategorizeReply | src/research_events/merge_events/merge_events_graph.py:157-169 | Without a `RelevantEventsCategorized` call the categories are empty. Otherwise each category takes the call's argument, with lists joined by newlines. |
| MergeEvents.CategorizeKeepsListItems | src/research_events/merge_events/merge_events_graph.py:157-169 | Every list item of an argument appears in its category. |
| MergeEvents.CategorizeAll | src/research_events/merge_events/merge_events_graph.py:132-174 | One categorisation per chunk. |
| MergeEvents.ExtractAndCategorizeChunkStep | src/research_events/merge_events/merge_events_graph.py:132-174 | The node goes on to merging exactly when every chunk has been categorised. Otherwise it appends the categorisation of the next chunk by index. |
| MergeEvents.MergeCategorizationsStep | src/research_events/merge_events/merge_events_graph.py:177-188 | Only the merged categorisation is written. |
| MergeEvents.Display | src/research_events/merge_events/merge_events_graph.py:230-236 | The text shown to the reconciling model is never empty, and it is the field itself when that is not empty. |
| MergeEvents.BuildRequest | src/research_events/merge_events/merge_events_graph.py:224-244 | Each request is for the category it is built from. |
| MergeEvents.RequestsWellFormed | src/research_events/merge_events/merge_events_graph.py:224-244 | Every request is for a listed category that is not skipped. |
| MergeEvents.RequestsCover | src/research_events/merge_events/merge_events_graph.py:224-244 | A listed category gets a request exactly when it is not skipped. For the node, a category is skipped when it is blank on both sides. |
| MergeEvents.RequestsDistinct | src/research_events/merge_events/merge_events_graph.py:224-244 | No category is requested twice. |
| MergeEvents.RepliesShape | src/research_events/merge_events/merge_events_graph.py:246-252 | The gather fails exactly when some call raises, and then with the error of the first such call in request order. Otherwise the replies map exactly the requested categories, and with no category requested twice each maps to its own reply. |
| MergeEvents.RepliesAbsorb | src/research_events/merge_events/merge_events_graph.py:246-252 | Once some first calls have failed, the whole gather fails with the same error. |
| MergeEvents.RequestsReplies | src/research_events/merge_events/merge_events_graph.py:221-252 | The gather fails exactly when a category that is not skipped gets a reply that raises. It then fails with the first such category's error, in category order. |
| MergeEvents.RepliesFill | src/research_events/merge_events/merge_events_graph.py:246-257 | After a gather that succeeded, a skipped category has no reply, and any other has the reply to its own request. |
| MergeEvents.CollectMergeRequests | src/research_events/merge_events/merge_events_graph.py:224-244 | The loop builds exactly the requests above, in category order. |
| MergeEvents.GatherReplies | src/research_events/merge_events/merge_events_graph.py:246-252 | The loop over the calls, stopping at the first that raises, gives `Replies`. |
| MergeEvents.FillMissingCategories | src/research_events/merge_events/merge_events_graph.py:254-257 | An unrequested category keeps its existing text. |
| MergeEvents.ReconcileCategories | src/research_events/merge_events/merge_events_graph.py:224-257 | The requests are those above. The step fails exactly when the gather does, with its error. Otherwise every category takes its reply, or its existing text when it has none. |
| MergeEvents.CombineNewAndOriginalDataStep | src/research_events/merge_events/merge_events_graph.py:191-260 | The node raises exactly what `CombinedData` raises. Otherwise it ends the sub-graph, writing only `CombinedData`'s record. No request is sent when nothing new arrived; otherwise there is one per category not blank on both sides, in order. |
| MergeEvents.RequestsShowSomeText | src/research_events/merge_events/merge_events_graph.py:224-244 | Every request shows the model at least one non-empty side. |
| MergeEvents.CombinedDataShape | src/research_events/merge_events/merge_events_graph.py:191-260 | With no new text, the existing data is returned as is. Otherwise a successful result has the four categories. A category blank on both sides keeps its existing text, unstripped, and any other is the model's reply to its request. |
| MergeEvents.CombinedDataFails | src/research_events/merge_events/merge_events_graph.py:213-260 | Reconciliation fails exactly when new text arrived and some category not blank on both sides gets a reply that raises. It then fails with the first such category's error, in field order. |
| MergeEvents.ChunksToExtractBounds | src/research_events/merge_events/merge_events_graph.py:82-105 | The chunks extracted are a prefix of the chunker's output, at most 20 and at most `max_chunks`. |
| MergeEvents.MergedDataSucceeds | src/research_events/merge_events/merge_events_graph.py:191-260 | When the merging model never raises, the sub-graph returns its data. |
| MergeEvents.RunMergeEvents | src/research_events/merge_events/merge_events_graph.py:263-277 | Running the graph gives `MergedData`: the data, or the error a merging call raised. Blank or irrelevant text leaves the data unchanged and extracts nothing. Otherwise exactly the capped chunks are extracted. |
| SupervisorGraph.SupervisorStep | src/graph.py:38-90 | An unknown type raises. Otherwise the model's reply is appended to the history, the iteration count goes up by one, and the next node is `supervisor_tools`. Nothing else changes. |
| SupervisorGraph.SupervisorTurn | src/graph.py:48-81 | For a well-formed type the turn succeeds. The model sees the three standard tools plus the type's own, and its prompt shows the subject, the summary ("Everything is missing" when none is stored) and the last message. |
| SupervisorGraph.CallsTo | src/graph.py:125-145 | The calls with a given tool name, in order. |
| SupervisorGraph.ScanWithoutStop | src/graph.py:125-145 | With no stopping call, the loop collects the think echoes and the research calls. |
| SupervisorGraph.FirstStopDecides | src/graph.py:125-134 | The first `FinishResearchTool`, or the first think call without a reflection, decides the loop. Later calls are never looked at. |
| SupervisorGraph.EchoCarriesReflection | src/graph.py:132-141 | A think call echoes its reflection, with its id and name. |
| SupervisorGraph.GatherResearch | src/graph.py:151-168 | The batch succeeds exactly when every research call does, with one result per call. |
| SupervisorGraph.MergeResultsShape | src/graph.py:171-184 | The last result's data wins. The old domains are kept, and the domains are those used before or returned by some call. |
| SupervisorGraph.ResearchMessages | src/graph.py:175-181 | One "returned research data" tool message per research call, with its id. |
| SupervisorGraph.ToolsOutcome | src/graph.py:93-205 | The node never touches the iteration count. It goes back to `supervisor` only below the cap. Otherwise it goes to `structure_output` with no update. |
| SupervisorGraph.StructureRoute | src/graph.py:114-131 | The node goes to `structure_output` with nothing written exactly when the last reply has no tool calls, the cap is reached, or the reply's first stopping call is `FinishResearchTool`. |
| SupervisorGraph.AfterScan | src/graph.py:125-205 | A finish call goes to `structure_output` with no update. A raised error is passed on. Otherwise the node dispatches. |
| SupervisorGraph.Dispatched | src/graph.py:147-205 | A dispatch that succeeds goes back to `supervisor` without touching the count. |
| SupervisorGraph.SupervisorTools | src/graph.py:93-205 | The node's loop returns or raises what `ToolsOutcome` says. |
| SupervisorGraph.Gather | src/graph.py:166-168 | Awaiting the batch gives `GatherResearch`. |
| SupervisorGraph.ScanToolCalls | src/graph.py:125-145 | The loop over the tool calls gives `ScanCalls`. |
| SupervisorGraph.MergeLoop | src/graph.py:171-181 | The merge loop gives `MergeResults` and the research messages. |
| SupervisorGraph.ThinkOnlyTurn | src/graph.py:93-205 | A turn with only think calls appends their echoes and seeds absent data with the type's initial data. It keeps the domains, the summary and the count. |
| SupervisorGraph.ResearchTurn | src/graph.py:147-205 | A research turn makes every call on the same snapshot, and the last result's data wins. The domains are those used before or returned, each once. The echoes, then one message per call, are appended. The summary becomes the summarizing model's reply to the summarizer prompt on the new data. |
| SupervisorGraph.SubgraphResearchTurn | src/graph.py:147-205 | With the research sub-graph as the research call, a successful research turn ran it once per call, on the call's question, which is not empty, and on the turn's snapshot. The new data is the last run's, and the domains are those used before or returned by some run. |
| SupervisorGraph.DispatchedResearch | src/graph.py:147-205 | The same facts, the summary included, for any batch that dispatches successfully. |
| SupervisorGraph.DispatchedThrough | src/graph.py:147-205 | For any function the research call agrees with, a successful batch ran it successfully on each call's question. The new data is the last run's, and the domains are those used before or returned by some run. |
| SupervisorGraph.StructureOutputStep | src/graph.py:208-239 | An unknown type raises, and no data gives no output. Otherwise the output is the type's own structuring. |
| SupervisorGraph.NoDataNoOutput | src/graph.py:230-234 | Without data the node returns `None` as output, even for the biography type. |
| SupervisorGraph.RunSupervisor | src/graph.py:242-249 | Running the graph takes at most `MAX_TOOL_CALL_ITERATIONS - count` turns, and one when the cap is already reached. A successful run took at least one turn. |

## Left out

- Language models, the crawler, the chunker, the chunk-relevance graph, HTTP,
  the DuckDuckGo package, `URLService` and `EventService` are parameters of
  the model. It states only what the code does with their answers.
- MergeEvents.Oracles: the chunker, the relevance sub-graph, the
  categorising model, `merge_categorized_events` and
  `ensure_categories_with_events` are modelled as never raising. Only the
  merging model's call can fail that sub-graph.
- ResearchEvents.ResearchOracles: the URL-selecting model, `extract_domain`
  and `update_url_list` are modelled as never raising. The search provider,
  the crawler and the merge sub-graph can fail the run.
- SupervisorGraph.SupervisorOracles: the tool-calling model, the summarising
  model, `get_buffer_string_with_tools` and the `str()` renderings are
  modelled as never raising. The research call and the structuring calls
  can fail the run.
- Concurrency: `asyncio.gather` over the research calls and over the category
  merges is modelled as a sequential fold. When several calls raise, the
  model fails with the first in list order. `gather` raises whichever was
  raised first in time, which the model does not track.
- Prompt wording is shortened. Each template keeps the text around every hole
  that matters, its holes, and for company and market the field-name line of
  the structure prompt. Nothing is proved about that line, for any type.
- The `if excluded_domains:` guard in the providers' loops only avoids
  scanning an empty list, so the model has no branch for it.
- Tavily's `search` is not part of this model. Its registration and
  configuration are.
- PyStr.Distinct: the order of `list(set(...))` is unspecified in Python. The
  model keeps first occurrences, and only the members and the absence of
  repeats are proved.
- `str()` of messages and of records is an oracle (`showMessage`,
  `showData`), as is `get_buffer_string_with_tools`.
- Pydantic validation and float scores are left out. Scores are opaque
  `real` values passed through unchanged.
- LangGraph's recursion limit, logging and `print` are left out. Tool
  messages and AI messages are the only message kinds modelled.
- ResearchEvents.RunResearchEvents: requires that `update_url_list` shrinks a
  non-empty URL list, which the URL service is expected to do. Without that,
  the router loop need not end.
- SupervisorGraph.RunSupervisor: its contract bounds the number of turns. It
  does not give the final output as a function of the start state. The turn
  lemmas above state what each node does.
- `display_name` is a field of each research type, not a derived value.
- The legacy state aliases and the research-events and merge state input
  schemas are left out. Only the keys the nodes read are modelled.
