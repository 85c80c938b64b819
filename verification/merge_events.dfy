/**
 * The chunk-merge sub-graph: new crawled text is split into chunks, gated by
 * a relevance check, categorised chunk by chunk, merged, and reconciled
 * category by category with the data gathered so far.
 *
 * Every node is a step from the state to a command (the next node and the
 * keys it updates); `RunMergeEvents` drives the steps from the entry node to
 * the end.  The chunker, the relevance sub-graph, both language models and
 * the helpers whose code is not part of this model are fields of `Oracles`.
 */
module MergeEvents {
  import opened Wrappers
  import opened Errors
  import opened PyStr
  import opened State
  import opened Messages

  // ---------------------------------------------------------------------
  // State, commands and oracles
  // ---------------------------------------------------------------------

  datatype Node =
    | SplitEvents
    | FilterChunks
    | ExtractAndCategorizeChunk
    | MergeCategorizations
    | CombineNewAndOriginalData
    | End

  /**
   * The sub-graph's state.  An empty chunk list stands for an absent key, which
   * the nodes read with `[]` as the default; `existingData` is the data passed
   * in (`None` when the caller passed `None`).
   */
  datatype MergeState = MergeState(
    existingData: Option<Record>,
    extractedData: string,
    researchQuestion: string,
    textChunks: seq<string>,
    categorizedChunks: seq<Record>,
    extractedDataCategorized: Option<Record>)

  /** The keys a command writes; `None` leaves a key as it is. */
  datatype Update = Update(
    existingData: Option<Option<Record>>,
    textChunks: Option<seq<string>>,
    categorizedChunks: Option<seq<Record>>,
    extractedDataCategorized: Option<Record>)

  const NoUpdate: Update := Update(None, None, None, None)

  datatype Command = Command(goto: Node, update: Update)

  function Apply(s: MergeState, u: Update): MergeState {
    s.(existingData := u.existingData.GetOr(s.existingData),
       textChunks := u.textChunks.GetOr(s.textChunks),
       categorizedChunks := u.categorizedChunks.GetOr(s.categorizedChunks),
       extractedDataCategorized := if u.extractedDataCategorized.Some? then u.extractedDataCategorized else s.extractedDataCategorized)
  }

  datatype Oracles = Oracles(
    /** `chunk_text_by_tokens`. */
    chunkText: string -> seq<string>,
    /** The relevance sub-graph on one chunk: `contains_biographic_event` of each of its results. */
    chunkRelevance: string -> seq<bool>,
    /** The configured `max_chunks`. */
    maxChunks: int,
    /** The tool-calling model on the extraction prompt of one chunk: the tool calls of its reply. */
    categorize: string -> seq<ToolCall<Arg>>,
    /** `EventService.merge_categorized_events`. */
    mergeCategorized: seq<Record> -> Record,
    /** `ensure_categories_with_events`; `None` is a falsy result. */
    ensureCategories: Option<Record> -> Option<Record>,
    /** The merging model on the prompt built from (original, new): the content of its reply, or what the call raised. */
    reconcile: (string, string) -> Result<string, Exception>)

  /** The number of chunks `split_events` keeps. */
  const MaxSplitChunks: int := 20

  /** The four category names, in field order. */
  const Categories: seq<string> := CategoriesWithEvents.fieldNames

  // ---------------------------------------------------------------------
  // split_events
  // ---------------------------------------------------------------------

  /** Blank text ends the sub-graph with empty lists; otherwise the first 20 chunks go on. */
  function SplitEventsStep(s: MergeState, o: Oracles): (c: Command)
    ensures c.update.existingData == None && c.update.extractedDataCategorized == None
    ensures c.update.categorizedChunks == Some([])
    ensures IsBlank(s.extractedData) <==> c.goto == End
    ensures IsBlank(s.extractedData) ==> c.update.textChunks == Some([])
    ensures !IsBlank(s.extractedData) ==>
              c.goto == FilterChunks && c.update.textChunks.Some?
              && c.update.textChunks.value <= o.chunkText(s.extractedData)
              && |c.update.textChunks.value| == Min(|o.chunkText(s.extractedData)|, MaxSplitChunks)
  {
    if IsBlank(s.extractedData) then
      Command(End, Update(None, Some([]), Some([]), None))
    else
      Command(FilterChunks, Update(None, Some(SliceTo(o.chunkText(s.extractedData), MaxSplitChunks)), Some([]), None))
  }

  function Min(a: int, b: int): int { if a < b then a else b }

  // ---------------------------------------------------------------------
  // filter_chunks
  // ---------------------------------------------------------------------

  /** `any(...)` over the relevance flags of one chunk. */
  predicate HasEvents(flags: seq<bool>) { true in flags }

  /** The chunk list after the `max_chunks` cap (a Python slice, so a negative cap counts from the end). */
  function Capped(chunks: seq<string>, maxChunks: int): (r: seq<string>)
    ensures r <= chunks
    ensures maxChunks >= 0 ==> |r| == Min(|chunks|, maxChunks)
  {
    if |chunks| > maxChunks then SliceTo(chunks, maxChunks) else chunks
  }

  /** The relevant chunks of `chunks`, in order. */
  function RelevantChunks(chunks: seq<string>, relevance: string -> seq<bool>): (r: seq<string>)
    ensures r == [] <==> forall i :: 0 <= i < |chunks| ==> !HasEvents(relevance(chunks[i]))
    ensures forall x :: x in r ==> x in chunks && HasEvents(relevance(x))
  {
    if chunks == [] then []
    else
      var rest := RelevantChunks(chunks[..|chunks| - 1], relevance);
      var last := chunks[|chunks| - 1];
      assert forall i :: 0 <= i < |chunks| - 1 ==> chunks[..|chunks| - 1][i] == chunks[i];
      rest + (if HasEvents(relevance(last)) then [last] else [])
  }

  /** Some chunk of the list has at least one relevant result. */
  predicate SomeRelevant(chunks: seq<string>, relevance: string -> seq<bool>) {
    exists i :: 0 <= i < |chunks| && HasEvents(relevance(chunks[i]))
  }

  /** The relevance filter over one more chunk. */
  lemma RelevantSnoc(chunks: seq<string>, i: nat, relevance: string -> seq<bool>)
    requires i < |chunks|
    ensures RelevantChunks(chunks[..i + 1], relevance)
            == RelevantChunks(chunks[..i], relevance) + (if HasEvents(relevance(chunks[i])) then [chunks[i]] else [])
  {
    assert chunks[..i + 1][..i] == chunks[..i];
  }

  /**
   * The relevance gate: no chunks, or no relevant chunk, ends the sub-graph
   * with nothing written; otherwise ALL capped chunks, relevant or not, go on
   * to extraction with an empty categorisation list.
   */
  method FilterChunksStep(s: MergeState, o: Oracles) returns (c: Command)
    ensures c.goto == End || c.goto == ExtractAndCategorizeChunk
    ensures c.goto == End <==>
              s.textChunks == [] || !SomeRelevant(Capped(s.textChunks, o.maxChunks), o.chunkRelevance)
    ensures c.goto == End ==> c.update == NoUpdate
    ensures c.goto == ExtractAndCategorizeChunk ==>
              c.update == Update(None, Some(Capped(s.textChunks, o.maxChunks)), Some([]), None)
  {
    var chunks := s.textChunks;
    if chunks == [] {
      return Command(End, NoUpdate);
    }
    if |chunks| > o.maxChunks {
      chunks := SliceTo(chunks, o.maxChunks);
    }
    assert chunks == Capped(s.textChunks, o.maxChunks);
    var relevant := SelectRelevant(chunks, o.chunkRelevance);
    if relevant == [] {
      return Command(End, NoUpdate);
    }
    return Command(ExtractAndCategorizeChunk, Update(None, Some(chunks), Some([]), None));
  }

  /** The loop of `filter_chunks` that asks the relevance model about each chunk in turn. */
  method SelectRelevant(chunks: seq<string>, relevance: string -> seq<bool>) returns (relevant: seq<string>)
    ensures relevant == RelevantChunks(chunks, relevance)
    ensures relevant == [] <==> !SomeRelevant(chunks, relevance)
  {
    relevant := [];
    for i := 0 to |chunks|
      invariant relevant == RelevantChunks(chunks[..i], relevance)
    {
      RelevantSnoc(chunks, i, relevance);
      var hasEvents := HasEvents(relevance(chunks[i]));
      if hasEvents {
        relevant := relevant + [chunks[i]];
      }
    }
    assert chunks[..|chunks|] == chunks;
  }

  // ---------------------------------------------------------------------
  // extract_and_categorize_chunk
  // ---------------------------------------------------------------------

  /** A list-valued argument is joined with newlines; a string stays as it is. */
  function ArgText(a: Arg): string {
    match a
    case Text(s) => s
    case Texts(items) => Join("\n", items)
  }

  const RelevantEventsCategorizedTool: string := "RelevantEventsCategorized"

  /**
   * The categories read from the model's reply: the arguments of its first
   * tool call when that is `RelevantEventsCategorized` (missing categories
   * default to "", extra arguments are dropped), all-empty categories otherwise.
   */
  function CategorizeReply(calls: seq<ToolCall<Arg>>): (r: Record)
    ensures Conforms(r, CategoriesWithEvents)
    ensures !(|calls| > 0 && calls[0].name == RelevantEventsCategorizedTool) ==> r == EmptyCategories()
    ensures |calls| > 0 && calls[0].name == RelevantEventsCategorizedTool ==>
              forall f :: f in Categories ==>
                r.fields[f] == if f in calls[0].args then ArgText(calls[0].args[f]) else ""
  {
    if |calls| > 0 && calls[0].name == RelevantEventsCategorizedTool then
      var args := calls[0].args;
      Instantiate(CategoriesWithEvents, map k | k in args :: ArgText(args[k]))
    else
      EmptyCategories()
  }

  /** Every item of a list-valued category argument occurs in that category's text. */
  lemma CategorizeKeepsListItems(calls: seq<ToolCall<Arg>>, f: string, k: int)
    requires |calls| > 0 && calls[0].name == RelevantEventsCategorizedTool
    requires f in Categories && f in calls[0].args && calls[0].args[f].Texts?
    requires 0 <= k < |calls[0].args[f].items|
    ensures Contains(CategorizeReply(calls).fields[f], calls[0].args[f].items[k])
  {
    JoinContainsParts("\n", calls[0].args[f].items, k);
  }

  /** The categorisations of a list of chunks, one per chunk, in order. */
  function CategorizeAll(chunks: seq<string>, o: Oracles): (r: seq<Record>)
    ensures |r| == |chunks|
  {
    seq(|chunks|, i requires 0 <= i < |chunks| => CategorizeReply(o.categorize(chunks[i])))
  }

  /**
   * One extraction step: once there are as many categorisations as chunks,
   * go to merging; otherwise categorise chunk number `len(categorized_chunks)`
   * and append exactly that one result.
   */
  function ExtractAndCategorizeChunkStep(s: MergeState, o: Oracles): (c: Command)
    ensures c.update.existingData == None && c.update.textChunks == None
    ensures c.update.extractedDataCategorized == None
    ensures c.goto == MergeCategorizations <==> |s.categorizedChunks| >= |s.textChunks|
    ensures c.goto == MergeCategorizations ==> c.update == NoUpdate
    ensures c.goto != MergeCategorizations ==>
              c.goto == ExtractAndCategorizeChunk && c.update.categorizedChunks.Some?
              && var next := c.update.categorizedChunks.value;
                 |next| == |s.categorizedChunks| + 1 && s.categorizedChunks <= next
                 && next[|s.categorizedChunks|] == CategorizeReply(o.categorize(s.textChunks[|s.categorizedChunks|]))
  {
    if |s.categorizedChunks| >= |s.textChunks| then
      Command(MergeCategorizations, NoUpdate)
    else
      var chunk := s.textChunks[|s.categorizedChunks|];
      Command(ExtractAndCategorizeChunk,
              Update(None, None, Some(s.categorizedChunks + [CategorizeReply(o.categorize(chunk))]), None))
  }

  // ---------------------------------------------------------------------
  // merge_categorizations
  // ---------------------------------------------------------------------

  /** All categorisations are merged into the one new record; nothing else is written. */
  function MergeCategorizationsStep(s: MergeState, o: Oracles): (c: Command)
    ensures c.goto == CombineNewAndOriginalData
    ensures c.update == Update(None, None, None, Some(o.mergeCategorized(s.categorizedChunks)))
  {
    Command(CombineNewAndOriginalData, Update(None, None, None, Some(o.mergeCategorized(s.categorizedChunks))))
  }

  // ---------------------------------------------------------------------
  // combine_new_and_original_data
  // ---------------------------------------------------------------------

  /** `getattr(d, cat, "")`, where `None` has no category attributes. */
  function Field(d: Option<Record>, cat: string): string {
    if d.Some? then GetAttrOr(d.value, cat, "") else ""
  }

  /** What the merging model is shown for one side of a category. */
  function Display(text: string): (r: string)
    ensures r != ""
    ensures text != "" ==> r == text
  {
    if text == "" then "No events" else text
  }

  /** A falsy new record, or one whose every category is blank. */
  predicate NothingNew(newData: Option<Record>) {
    newData.None? || forall cat :: cat in Categories ==> IsBlank(Field(newData, cat))
  }

  /** Both sides of the category are blank after stripping. */
  predicate BothBlank(existing: Option<Record>, newData: Option<Record>, cat: string) {
    Strip(Field(existing, cat)) == "" && Strip(Field(newData, cat)) == ""
  }

  /** One request to the merging model: the category and the two texts it is shown. */
  datatype MergeRequest = MergeRequest(category: string, original: string, incoming: string)

  function RequestFor(existing: Option<Record>, newData: Option<Record>, cat: string): MergeRequest {
    MergeRequest(cat, Display(Strip(Field(existing, cat))), Display(Strip(Field(newData, cat))))
  }

  /** The requests built for the categories of `cats` that are not skipped, in order. */
  function Requests(cats: seq<string>, skip: string -> bool, build: string -> MergeRequest): seq<MergeRequest> {
    if cats == [] then []
    else
      Requests(cats[..|cats| - 1], skip, build)
      + (if skip(cats[|cats| - 1]) then [] else [build(cats[|cats| - 1])])
  }

  function SkipBlank(existing: Option<Record>, newData: Option<Record>): string -> bool {
    cat => BothBlank(existing, newData, cat)
  }

  function BuildRequest(existing: Option<Record>, newData: Option<Record>): (build: string -> MergeRequest)
    ensures forall c :: build(c).category == c
  {
    cat => RequestFor(existing, newData, cat)
  }

  /** The requests for the categories of `cats` that are not blank on both sides, in order. */
  function MergeRequests(existing: Option<Record>, newData: Option<Record>, cats: seq<string>): seq<MergeRequest> {
    Requests(cats, SkipBlank(existing, newData), BuildRequest(existing, newData))
  }

  /** Each request is built from its own category, which is one of `cats`. */
  lemma {:induction false} RequestsWellFormed(cats: seq<string>, skip: string -> bool, build: string -> MergeRequest)
    requires forall c :: build(c).category == c
    ensures forall k :: 0 <= k < |Requests(cats, skip, build)| ==>
              Requests(cats, skip, build)[k].category in cats
              && !skip(Requests(cats, skip, build)[k].category)
              && Requests(cats, skip, build)[k] == build(Requests(cats, skip, build)[k].category)
  {
    if cats != [] {
      var init := cats[..|cats| - 1];
      var last := cats[|cats| - 1];
      RequestsWellFormed(init, skip, build);
      var pre := Requests(init, skip, build);
      var rs := Requests(cats, skip, build);
      forall k | 0 <= k < |rs| ensures rs[k].category in cats && !skip(rs[k].category) && rs[k] == build(rs[k].category) {
        if k < |pre| {
          assert rs[k] == pre[k];
          assert pre[k].category in init;
        } else {
          assert rs[k] == build(last);
        }
      }
    }
  }

  /** A category of `cats` has a request iff it is not skipped. */
  lemma {:induction false} RequestsCover(cats: seq<string>, skip: string -> bool, build: string -> MergeRequest, cat: string)
    requires forall c :: build(c).category == c
    requires cat in cats
    ensures (exists k :: 0 <= k < |Requests(cats, skip, build)| && Requests(cats, skip, build)[k].category == cat)
            <==> !skip(cat)
  {
    var init := cats[..|cats| - 1];
    var last := cats[|cats| - 1];
    var tail := if skip(last) then [] else [build(last)];
    assert Requests(cats, skip, build) == Requests(init, skip, build) + tail;
    RequestsWellFormed(init, skip, build);
    if cat in init {
      RequestsCover(init, skip, build, cat);
    }
    if !skip(cat) {
      if cat == last {
        assert Requests(cats, skip, build)[|Requests(init, skip, build)|] == build(cat);
      } else {
        var k :| 0 <= k < |Requests(init, skip, build)| && Requests(init, skip, build)[k].category == cat;
        assert Requests(cats, skip, build)[k].category == cat;
      }
    } else {
      forall k | 0 <= k < |Requests(cats, skip, build)| ensures Requests(cats, skip, build)[k].category != cat {
        if k < |Requests(init, skip, build)| {
          assert Requests(cats, skip, build)[k] == Requests(init, skip, build)[k];
        } else {
          assert Requests(cats, skip, build)[k] == build(last);
        }
      }
    }
  }

  /** Distinct categories give requests with distinct categories. */
  lemma {:induction false} RequestsDistinct(cats: seq<string>, skip: string -> bool, build: string -> MergeRequest)
    requires forall c :: build(c).category == c
    requires forall i, j :: 0 <= i < j < |cats| ==> cats[i] != cats[j]
    ensures forall k, l :: 0 <= k < l < |Requests(cats, skip, build)| ==>
              Requests(cats, skip, build)[k].category != Requests(cats, skip, build)[l].category
  {
    if cats != [] {
      var init := cats[..|cats| - 1];
      var last := cats[|cats| - 1];
      forall i, j | 0 <= i < j < |init| ensures init[i] != init[j] {
        assert init[i] == cats[i] && init[j] == cats[j];
      }
      RequestsDistinct(init, skip, build);
      RequestsWellFormed(init, skip, build);
      var pre := Requests(init, skip, build);
      var rs := Requests(cats, skip, build);
      assert rs[..|pre|] == pre;
      assert last !in init;
      forall k, l | 0 <= k < l < |rs| ensures rs[k].category != rs[l].category {
        assert rs[k] == pre[k];
        if l < |pre| {
          assert rs[l] == pre[l];
        } else {
          assert rs[l].category == last;
          assert pre[k].category in init;
        }
      }
    }
  }

  /** The merging model's reply to one request. */
  function Reply(reconcile: (string, string) -> Result<string, Exception>, q: MergeRequest): Result<string, Exception> {
    reconcile(q.original, q.incoming)
  }

  /** No two requests are for the same category. */
  predicate DistinctCategories(requests: seq<MergeRequest>) {
    forall k, l :: 0 <= k < l < |requests| ==> requests[k].category != requests[l].category
  }

  /**
   * `asyncio.gather` over the merging calls, with the replies keyed by
   * category and the calls taken in request order.
   */
  function Replies(requests: seq<MergeRequest>, reconcile: (string, string) -> Result<string, Exception>)
    : Result<map<string, string>, Exception>
    decreases |requests|
  {
    if requests == [] then Success(map[])
    else
      match Replies(requests[..|requests| - 1], reconcile)
      case Failure(e) => Failure(e)
      case Success(m) =>
        match Reply(reconcile, requests[|requests| - 1])
        case Failure(e) => Failure(e)
        case Success(text) => Success(m[requests[|requests| - 1].category := text])
  }

  /**
   * The first call that raises fails the whole gather with its error; when
   * none raises, the categories mapped are exactly the requested ones, each
   * to its own reply.
   */
  lemma {:induction false} RepliesShape(requests: seq<MergeRequest>, reconcile: (string, string) -> Result<string, Exception>)
    ensures var r := Replies(requests, reconcile);
            && (r.Success? <==> forall k :: 0 <= k < |requests| ==> Reply(reconcile, requests[k]).Success?)
            && (r.Failure? ==> exists k :: 0 <= k < |requests| && Reply(reconcile, requests[k]) == Failure(r.error)
                                           && forall j :: 0 <= j < k ==> Reply(reconcile, requests[j]).Success?)
            && (r.Success? ==> forall cat :: cat in r.value <==> exists k :: 0 <= k < |requests| && requests[k].category == cat)
            && (r.Success? && DistinctCategories(requests) ==>
                  forall k :: 0 <= k < |requests| ==> r.value[requests[k].category] == Reply(reconcile, requests[k]).value)
    decreases |requests|
  {
    if requests != [] {
      var init := requests[..|requests| - 1];
      var last := requests[|requests| - 1];
      assert forall k :: 0 <= k < |init| ==> init[k] == requests[k];
      RepliesShape(init, reconcile);
      var r := Replies(requests, reconcile);
      if Replies(init, reconcile).Success? && Reply(reconcile, last).Success? {
        var m := Replies(init, reconcile).value;
        assert r == Success(m[last.category := Reply(reconcile, last).value]);
        assert DistinctCategories(requests) ==> DistinctCategories(init);
        forall cat ensures cat in r.value <==> exists k :: 0 <= k < |requests| && requests[k].category == cat {
          if cat in m {
            var k :| 0 <= k < |init| && init[k].category == cat;
            assert requests[k].category == cat;
          }
        }
      } else if Replies(init, reconcile).Success? {
        assert Reply(reconcile, requests[|requests| - 1]) == Failure(r.error);
      }
    }
  }

  /** Once a prefix of the calls has failed, the whole gather fails with the same error. */
  lemma {:induction false} RepliesAbsorb(requests: seq<MergeRequest>, reconcile: (string, string) -> Result<string, Exception>, i: nat)
    requires i <= |requests| && Replies(requests[..i], reconcile).Failure?
    ensures Replies(requests, reconcile) == Replies(requests[..i], reconcile)
    decreases |requests|
  {
    if i < |requests| {
      var init := requests[..|requests| - 1];
      assert init[..i] == requests[..i];
      RepliesAbsorb(init, reconcile, i);
    } else {
      assert requests[..i] == requests;
    }
  }

  /**
   * The gather over the requests of `cats` fails iff some category that is
   * not skipped gets a reply that raises, and then with the error of the
   * first such category in the order of `cats`.
   */
  lemma {:induction false} RequestsReplies(cats: seq<string>, skip: string -> bool, build: string -> MergeRequest,
                                           reconcile: (string, string) -> Result<string, Exception>)
    ensures var r := Replies(Requests(cats, skip, build), reconcile);
            && (r.Success? <==> forall i :: 0 <= i < |cats| && !skip(cats[i]) ==> Reply(reconcile, build(cats[i])).Success?)
            && (r.Failure? ==>
                  exists i :: 0 <= i < |cats| && !skip(cats[i]) && Reply(reconcile, build(cats[i])) == Failure(r.error)
                              && forall j :: 0 <= j < i && !skip(cats[j]) ==> Reply(reconcile, build(cats[j])).Success?)
    decreases |cats|
  {
    if cats != [] {
      var init := cats[..|cats| - 1];
      var last := cats[|cats| - 1];
      assert forall i :: 0 <= i < |init| ==> init[i] == cats[i];
      RequestsReplies(init, skip, build, reconcile);
      var pre := Requests(init, skip, build);
      var rs := Requests(cats, skip, build);
      var r := Replies(rs, reconcile);
      if skip(last) {
        assert rs == pre;
      } else {
        assert rs == pre + [build(last)];
        assert rs[..|rs| - 1] == pre;
        if r.Failure? && Replies(pre, reconcile).Success? {
          assert Reply(reconcile, build(last)) == Failure(r.error);
          assert !skip(cats[|cats| - 1]) && Reply(reconcile, build(cats[|cats| - 1])) == Failure(r.error);
        }
      }
    }
  }

  /**
   * After a gather that succeeded, a category of `cats` that is skipped has no
   * reply, and any other has the reply to its own request.
   */
  lemma RepliesFill(cats: seq<string>, skip: string -> bool, build: string -> MergeRequest,
                    reconcile: (string, string) -> Result<string, Exception>, cat: string)
    requires forall c :: build(c).category == c
    requires forall i, j :: 0 <= i < j < |cats| ==> cats[i] != cats[j]
    requires cat in cats && Replies(Requests(cats, skip, build), reconcile).Success?
    ensures var merged := Replies(Requests(cats, skip, build), reconcile).value;
            && (skip(cat) ==> cat !in merged)
            && (!skip(cat) ==> cat in merged && Reply(reconcile, build(cat)).Success?
                               && merged[cat] == Reply(reconcile, build(cat)).value)
  {
    var requests := Requests(cats, skip, build);
    RequestsWellFormed(cats, skip, build);
    RequestsDistinct(cats, skip, build);
    RepliesShape(requests, reconcile);
    RequestsCover(cats, skip, build, cat);
    if !skip(cat) {
      var k :| 0 <= k < |requests| && requests[k].category == cat;
      assert requests[k] == build(cat);
    }
  }

  /** A category's text once the replies are in: its reply, or else its existing, unstripped text. */
  function FilledField(merged: map<string, string>, existing: Option<Record>, cat: string): string {
    if cat in merged then merged[cat] else Field(existing, cat)
  }

  /** The existing data after `combine_new_and_original_data`, or what the merging calls raised. */
  function CombinedData(existingRaw: Option<Record>, newRaw: Option<Record>, o: Oracles): Result<Option<Record>, Exception> {
    var existing := o.ensureCategories(existingRaw);
    var newData := o.ensureCategories(Some(newRaw.GetOr(EmptyCategories())));
    if NothingNew(newData) then Success(existing)
    else
      match Replies(MergeRequests(existing, newData, Categories), o.reconcile)
      case Failure(e) => Failure(e)
      case Success(merged) =>
        Success(Some(Instantiate(CategoriesWithEvents, map cat | cat in Categories :: FilledField(merged, existing, cat))))
  }

  lemma CategoriesDistinct()
    ensures forall i, j :: 0 <= i < j < |Categories| ==> Categories[i] != Categories[j]
  {
  }

  /** The requests for the categories of `cats` not blank on both sides, built in order. */
  method CollectMergeRequests(existing: Option<Record>, newData: Option<Record>, cats: seq<string>) returns (requests: seq<MergeRequest>)
    ensures requests == MergeRequests(existing, newData, cats)
  {
    requests := [];
    for i := 0 to |cats|
      invariant requests == MergeRequests(existing, newData, cats[..i])
    {
      var cat := cats[i];
      assert cats[..i + 1][..i] == cats[..i];
      // A category blank on both sides has nothing to merge.
      if !BothBlank(existing, newData, cat) {
        requests := requests + [RequestFor(existing, newData, cat)];
      }
    }
    assert cats[..|cats|] == cats;
  }

  /** The merging model's replies, gathered in request order and keyed by category. */
  method GatherReplies(requests: seq<MergeRequest>, reconcile: (string, string) -> Result<string, Exception>)
    returns (r: Result<map<string, string>, Exception>)
    ensures r == Replies(requests, reconcile)
  {
    var merged := map[];
    for j := 0 to |requests|
      invariant Replies(requests[..j], reconcile) == Success(merged)
    {
      assert requests[..j + 1][..j] == requests[..j];
      var reply := reconcile(requests[j].original, requests[j].incoming);
      if reply.Failure? {
        RepliesAbsorb(requests, reconcile, j + 1);
        return Failure(reply.error);
      }
      merged := merged[requests[j].category := reply.value];
    }
    assert requests[..|requests|] == requests;
    r := Success(merged);
  }

  /** Every category of `cats` without a reply takes its existing, unstripped text. */
  method FillMissingCategories(merged: map<string, string>, existing: Option<Record>, cats: seq<string>) returns (fields: map<string, string>)
    ensures forall cat :: cat in fields <==> cat in merged || cat in cats
    ensures forall cat :: cat in merged ==> fields[cat] == merged[cat]
    ensures forall cat :: cat in cats && cat !in merged ==> fields[cat] == Field(existing, cat)
  {
    fields := merged;
    for i := 0 to |cats|
      invariant forall cat :: cat in fields <==> cat in merged || cat in cats[..i]
      invariant forall cat :: cat in merged ==> fields[cat] == merged[cat]
      invariant forall k :: 0 <= k < i && cats[k] !in merged ==> fields[cats[k]] == Field(existing, cats[k])
    {
      if cats[i] !in merged {
        fields := fields[cats[i] := Field(existing, cats[i])];
      }
    }
    assert cats[..|cats|] == cats;
  }

  /**
   * The per-category texts after reconciliation over the categories `cats`,
   * or the gather's error, and the requests that were sent.
   */
  method ReconcileCategories(existing: Option<Record>, newData: Option<Record>, cats: seq<string>,
                             reconcile: (string, string) -> Result<string, Exception>)
    returns (fields: Result<map<string, string>, Exception>, requests: seq<MergeRequest>)
    ensures requests == MergeRequests(existing, newData, cats)
    ensures fields.Failure? <==> Replies(requests, reconcile).Failure?
    ensures fields.Failure? ==> fields.error == Replies(requests, reconcile).error
    ensures fields.Success? ==>
              forall cat :: cat in cats ==>
                cat in fields.value && fields.value[cat] == FilledField(Replies(requests, reconcile).value, existing, cat)
  {
    requests := CollectMergeRequests(existing, newData, cats);
    var merged := GatherReplies(requests, reconcile);
    if merged.Failure? {
      return Failure(merged.error), requests;
    }
    var filled := FillMissingCategories(merged.value, existing, cats);
    fields := Success(filled);
  }

  /**
   * Reconciles the new categories with the existing ones and ends the
   * sub-graph, or raises what a merging call raised.  Also returns the
   * requests sent to the merging model, in order: one per category not blank
   * on both sides, none at all when nothing new arrived.
   */
  method CombineNewAndOriginalDataStep(s: MergeState, o: Oracles) returns (c: Result<Command, Exception>, requests: seq<MergeRequest>)
    ensures var d := CombinedData(s.existingData, s.extractedDataCategorized, o);
            && (c.Failure? <==> d.Failure?)
            && (c.Failure? ==> c.error == d.error)
            && (c.Success? ==> c.value == Command(End, Update(Some(d.value), None, None, None)))
    ensures var existing := o.ensureCategories(s.existingData);
            var newData := o.ensureCategories(Some(s.extractedDataCategorized.GetOr(EmptyCategories())));
            requests == if NothingNew(newData) then [] else MergeRequests(existing, newData, Categories)
  {
    var existing := o.ensureCategories(s.existingData);
    var newData := o.ensureCategories(Some(s.extractedDataCategorized.GetOr(EmptyCategories())));
    if NothingNew(newData) {
      return Success(Command(End, Update(Some(existing), None, None, None))), [];
    }
    var fields;
    fields, requests := ReconcileCategories(existing, newData, Categories, o.reconcile);
    if fields.Failure? {
      return Failure(fields.error), requests;
    }
    var merged := Replies(requests, o.reconcile).value;
    var result := Instantiate(CategoriesWithEvents, fields.value);
    InstantiateReadsDeclared(CategoriesWithEvents, fields.value,
                             map cat | cat in Categories :: FilledField(merged, existing, cat));
    c := Success(Command(End, Update(Some(Some(result)), None, None, None)));
  }

  /**
   * Every request shows the merging model at least one real text: the
   * placeholder stands in for one side only, never for both.
   */
  lemma RequestsShowSomeText(existing: Option<Record>, newData: Option<Record>, cats: seq<string>)
    ensures forall r :: r in MergeRequests(existing, newData, cats) ==>
              r.category in cats
              && (Strip(Field(existing, r.category)) != "" || Strip(Field(newData, r.category)) != "")
              && r.original == Display(Strip(Field(existing, r.category)))
              && r.incoming == Display(Strip(Field(newData, r.category)))
  {
    RequestsWellFormed(cats, SkipBlank(existing, newData), BuildRequest(existing, newData));
  }

  /**
   * After reconciliation there is nothing new only in the early-return case;
   * otherwise a result has exactly the four categories, a category blank on
   * both sides keeps its existing text as it was, unstripped, and any other
   * category is the merging model's reply to its request.
   */
  lemma CombinedDataShape(existingRaw: Option<Record>, newRaw: Option<Record>, o: Oracles, cat: string)
    requires cat in Categories
    ensures var existing := o.ensureCategories(existingRaw);
            var newData := o.ensureCategories(Some(newRaw.GetOr(EmptyCategories())));
            var r := CombinedData(existingRaw, newRaw, o);
            var reply := Reply(o.reconcile, RequestFor(existing, newData, cat));
            (NothingNew(newData) ==> r == Success(existing))
            && (!NothingNew(newData) && r.Success? ==>
                  r.value.Some? && Conforms(r.value.value, CategoriesWithEvents)
                  && (BothBlank(existing, newData, cat) ==> r.value.value.fields[cat] == Field(existing, cat))
                  && (!BothBlank(existing, newData, cat) ==> reply.Success? && r.value.value.fields[cat] == reply.value))
  {
    var existing := o.ensureCategories(existingRaw);
    var newData := o.ensureCategories(Some(newRaw.GetOr(EmptyCategories())));
    var r := CombinedData(existingRaw, newRaw, o);
    if !NothingNew(newData) && r.Success? {
      CategoriesDistinct();
      RepliesFill(Categories, SkipBlank(existing, newData), BuildRequest(existing, newData), o.reconcile, cat);
    }
  }

  /**
   * Reconciliation fails iff new text arrived and some category not blank on
   * both sides gets a reply that raises; it then fails with the error of the
   * first such category in field order.
   */
  lemma CombinedDataFails(existingRaw: Option<Record>, newRaw: Option<Record>, o: Oracles)
    ensures var existing := o.ensureCategories(existingRaw);
            var newData := o.ensureCategories(Some(newRaw.GetOr(EmptyCategories())));
            var r := CombinedData(existingRaw, newRaw, o);
            && (r.Failure? <==>
                  !NothingNew(newData)
                  && exists i :: 0 <= i < |Categories| && !BothBlank(existing, newData, Categories[i])
                                 && Reply(o.reconcile, RequestFor(existing, newData, Categories[i])).Failure?)
            && (r.Failure? ==>
                  exists i :: 0 <= i < |Categories| && !BothBlank(existing, newData, Categories[i])
                              && Reply(o.reconcile, RequestFor(existing, newData, Categories[i])) == Failure(r.error)
                              && forall j :: 0 <= j < i && !BothBlank(existing, newData, Categories[j]) ==>
                                               Reply(o.reconcile, RequestFor(existing, newData, Categories[j])).Success?)
  {
    var existing := o.ensureCategories(existingRaw);
    var newData := o.ensureCategories(Some(newRaw.GetOr(EmptyCategories())));
    MergeRequestsReplies(existing, newData, Categories, o.reconcile);
  }

  /** `RequestsReplies` for the node's own requests: skipped means blank on both sides. */
  lemma MergeRequestsReplies(existing: Option<Record>, newData: Option<Record>, cats: seq<string>,
                             reconcile: (string, string) -> Result<string, Exception>)
    ensures var r := Replies(MergeRequests(existing, newData, cats), reconcile);
            && (r.Success? <==>
                  forall i :: 0 <= i < |cats| && !BothBlank(existing, newData, cats[i]) ==>
                                Reply(reconcile, RequestFor(existing, newData, cats[i])).Success?)
            && (r.Failure? ==>
                  exists i :: 0 <= i < |cats| && !BothBlank(existing, newData, cats[i])
                              && Reply(reconcile, RequestFor(existing, newData, cats[i])) == Failure(r.error)
                              && forall j :: 0 <= j < i && !BothBlank(existing, newData, cats[j]) ==>
                                               Reply(reconcile, RequestFor(existing, newData, cats[j])).Success?)
  {
    var skip, build := SkipBlank(existing, newData), BuildRequest(existing, newData);
    assert forall c :: skip(c) == BothBlank(existing, newData, c) && build(c) == RequestFor(existing, newData, c);
    RequestsReplies(cats, skip, build, reconcile);
  }

  // ---------------------------------------------------------------------
  // The sub-graph from entry to end
  // ---------------------------------------------------------------------

  /** The keys the sub-graph is invoked with. */
  datatype MergeInput = MergeInput(existingData: Option<Record>, extractedData: string, researchQuestion: string)

  function InitialState(input: MergeInput): MergeState {
    MergeState(input.existingData, input.extractedData, input.researchQuestion, [], [], None)
  }

  /** The chunks that go to extraction when the relevance gate lets them through. */
  function ChunksToExtract(text: string, o: Oracles): seq<string> {
    Capped(SliceTo(o.chunkText(text), MaxSplitChunks), o.maxChunks)
  }

  /** The text is not blank, it has chunks, and some capped chunk is relevant. */
  predicate ReachesExtraction(text: string, o: Oracles) {
    !IsBlank(text) && SliceTo(o.chunkText(text), MaxSplitChunks) != []
    && SomeRelevant(ChunksToExtract(text, o), o.chunkRelevance)
  }

  /**
   * The existing data the sub-graph returns: the input's when it ends before
   * extraction, otherwise the reconciliation of the input's data with the
   * merge of one categorisation per extracted chunk, which may raise.
   */
  function MergedData(input: MergeInput, o: Oracles): Result<Option<Record>, Exception> {
    if ReachesExtraction(input.extractedData, o) then
      CombinedData(input.existingData, Some(o.mergeCategorized(CategorizeAll(ChunksToExtract(input.extractedData, o), o))), o)
    else
      Success(input.existingData)
  }

  /** When no merging call raises, the sub-graph returns its data. */
  lemma MergedDataSucceeds(input: MergeInput, o: Oracles)
    requires forall original, incoming :: o.reconcile(original, incoming).Success?
    ensures MergedData(input, o).Success?
  {
    if ReachesExtraction(input.extractedData, o) {
      CombinedDataFails(input.existingData, Some(o.mergeCategorized(CategorizeAll(ChunksToExtract(input.extractedData, o), o))), o);
    }
  }

  /** At most the first 20 chunks, then at most `max_chunks` of them, in their original order. */
  lemma ChunksToExtractBounds(text: string, o: Oracles)
    ensures ChunksToExtract(text, o) <= o.chunkText(text)
    ensures |ChunksToExtract(text, o)| <= MaxSplitChunks
    ensures o.maxChunks >= 0 ==> |ChunksToExtract(text, o)| <= o.maxChunks
  {
    var split := SliceTo(o.chunkText(text), MaxSplitChunks);
    var capped := Capped(split, o.maxChunks);
    assert capped == split[..|capped|];
    assert split == o.chunkText(text)[..|split|];
    assert capped == o.chunkText(text)[..|capped|];
  }

  function Rank(n: Node): nat {
    match n
    case SplitEvents => 5
    case FilterChunks => 4
    case ExtractAndCategorizeChunk => 3
    case MergeCategorizations => 2
    case CombineNewAndOriginalData => 1
    case End => 0
  }

  function Pending(n: Node, s: MergeState): nat {
    if n == ExtractAndCategorizeChunk && |s.categorizedChunks| <= |s.textChunks| then
      |s.textChunks| - |s.categorizedChunks|
    else 0
  }

  /** Where the run stands at each node, in terms of the input. */
  predicate AtNode(n: Node, s: MergeState, extracted: seq<string>, input: MergeInput, o: Oracles) {
    var text := input.extractedData;
    s.extractedData == text && s.researchQuestion == input.researchQuestion
    && match n
       case SplitEvents => s == InitialState(input) && extracted == []
       case FilterChunks =>
         !IsBlank(text) && s.existingData == input.existingData
         && s.textChunks == SliceTo(o.chunkText(text), MaxSplitChunks) && extracted == []
       case ExtractAndCategorizeChunk =>
         ReachesExtraction(text, o) && s.existingData == input.existingData
         && s.textChunks == ChunksToExtract(text, o) && |s.categorizedChunks| <= |s.textChunks|
         && s.categorizedChunks == CategorizeAll(s.textChunks[..|s.categorizedChunks|], o)
         && extracted == s.textChunks[..|s.categorizedChunks|]
       case MergeCategorizations =>
         ReachesExtraction(text, o) && s.existingData == input.existingData
         && s.categorizedChunks == CategorizeAll(ChunksToExtract(text, o), o)
         && extracted == ChunksToExtract(text, o)
       case CombineNewAndOriginalData =>
         ReachesExtraction(text, o) && s.existingData == input.existingData
         && s.extractedDataCategorized == Some(o.mergeCategorized(CategorizeAll(ChunksToExtract(text, o), o)))
         && extracted == ChunksToExtract(text, o)
       case End =>
         MergedData(input, o) == Success(s.existingData)
         && extracted == (if ReachesExtraction(text, o) then ChunksToExtract(text, o) else [])
         && (IsBlank(text) ==> s.textChunks == [] && s.categorizedChunks == [])
  }

  /** `split_events` moves the run from the entry node to the relevance gate or to the end. */
  lemma SplitEventsAdvances(s: MergeState, input: MergeInput, o: Oracles)
    requires AtNode(SplitEvents, s, [], input, o)
    ensures var c := SplitEventsStep(s, o);
            Rank(c.goto) < Rank(SplitEvents) && AtNode(c.goto, Apply(s, c.update), [], input, o)
  {
  }

  /** The relevance gate, given what `filter_chunks` returns, keeps the run on track. */
  lemma FilterChunksAdvances(s: MergeState, c: Command, input: MergeInput, o: Oracles)
    requires AtNode(FilterChunks, s, [], input, o)
    requires c.goto == End || c.goto == ExtractAndCategorizeChunk
    requires c.goto == End <==>
               s.textChunks == [] || !SomeRelevant(Capped(s.textChunks, o.maxChunks), o.chunkRelevance)
    requires c.goto == End ==> c.update == NoUpdate
    requires c.goto == ExtractAndCategorizeChunk ==>
               c.update == Update(None, Some(Capped(s.textChunks, o.maxChunks)), Some([]), None)
    ensures Rank(c.goto) < Rank(FilterChunks) && AtNode(c.goto, Apply(s, c.update), [], input, o)
  {
  }

  /** One extraction step hands the next chunk to the model, or moves on once every chunk is done. */
  lemma ExtractAdvances(s: MergeState, extracted: seq<string>, input: MergeInput, o: Oracles)
    requires AtNode(ExtractAndCategorizeChunk, s, extracted, input, o)
    ensures var c := ExtractAndCategorizeChunkStep(s, o);
            var n := |s.categorizedChunks|;
            var e := if n < |s.textChunks| then extracted + [s.textChunks[n]] else extracted;
            AtNode(c.goto, Apply(s, c.update), e, input, o)
            && (c.goto == ExtractAndCategorizeChunk ==> Pending(c.goto, Apply(s, c.update)) < Pending(ExtractAndCategorizeChunk, s))
            && (c.goto != ExtractAndCategorizeChunk ==> Rank(c.goto) < Rank(ExtractAndCategorizeChunk))
  {
    var c := ExtractAndCategorizeChunkStep(s, o);
    var n := |s.categorizedChunks|;
    if n < |s.textChunks| {
      var t := Apply(s, c.update);
      assert s.textChunks[..n + 1] == s.textChunks[..n] + [s.textChunks[n]];
      assert t.categorizedChunks == CategorizeAll(t.textChunks[..n + 1], o);
    } else {
      assert s.textChunks[..n] == s.textChunks;
    }
  }

  /** Merging the categorisations, then reconciling them, ends the run with the promised data. */
  lemma MergeAdvances(s: MergeState, extracted: seq<string>, input: MergeInput, o: Oracles)
    requires AtNode(MergeCategorizations, s, extracted, input, o)
    ensures var c := MergeCategorizationsStep(s, o);
            Rank(c.goto) < Rank(MergeCategorizations) && AtNode(c.goto, Apply(s, c.update), extracted, input, o)
  {
  }

  /** Reconciliation ends the run with the promised data, or fails it with the promised error. */
  lemma CombineAdvances(s: MergeState, c: Result<Command, Exception>, extracted: seq<string>, input: MergeInput, o: Oracles)
    requires AtNode(CombineNewAndOriginalData, s, extracted, input, o)
    requires var d := CombinedData(s.existingData, s.extractedDataCategorized, o);
             && (c.Failure? <==> d.Failure?)
             && (c.Failure? ==> c.error == d.error)
             && (c.Success? ==> c.value == Command(End, Update(Some(d.value), None, None, None)))
    ensures c.Failure? ==> MergedData(input, o) == Failure(c.error)
    ensures c.Success? ==> c.value.goto == End && AtNode(End, Apply(s, c.value.update), extracted, input, o)
  {
  }

  /**
   * Runs the sub-graph from `split_events` to the end.  Returns the final
   * state, or what a merging call raised, and the chunks handed to the
   * extraction model, in order.
   */
  method RunMergeEvents(input: MergeInput, o: Oracles) returns (r: Result<MergeState, Exception>, extracted: seq<string>)
    ensures r.Failure? ==> MergedData(input, o) == Failure(r.error)
    ensures r.Success? ==> MergedData(input, o) == Success(r.value.existingData)
    ensures IsBlank(input.extractedData) ==>
              r.Success? && r.value.existingData == input.existingData
              && r.value.textChunks == [] && r.value.categorizedChunks == [] && extracted == []
    ensures !ReachesExtraction(input.extractedData, o) ==>
              r.Success? && r.value.existingData == input.existingData && extracted == []
    ensures ReachesExtraction(input.extractedData, o) ==> extracted == ChunksToExtract(input.extractedData, o)
  {
    var s := InitialState(input);
    var node := SplitEvents;
    extracted := [];
    while node != End
      invariant AtNode(node, s, extracted, input, o)
      decreases Rank(node), Pending(node, s)
    {
      var c: Command;
      match node {
        case SplitEvents =>
          c := SplitEventsStep(s, o);
          SplitEventsAdvances(s, input, o);
        case FilterChunks =>
          c := FilterChunksStep(s, o);
          FilterChunksAdvances(s, c, input, o);
        case ExtractAndCategorizeChunk =>
          ExtractAdvances(s, extracted, input, o);
          if |s.categorizedChunks| < |s.textChunks| {
            extracted := extracted + [s.textChunks[|s.categorizedChunks|]];
          }
          c := ExtractAndCategorizeChunkStep(s, o);
        case MergeCategorizations =>
          c := MergeCategorizationsStep(s, o);
          MergeAdvances(s, extracted, input, o);
        case CombineNewAndOriginalData =>
          var step, requests := CombineNewAndOriginalDataStep(s, o);
          CombineAdvances(s, step, extracted, input, o);
          if step.Failure? {
            return Failure(step.error), extracted;
          }
          c := step.value;
      }
      s := Apply(s, c.update);
      node := c.goto;
    }
    r := Success(s);
  }
}
